/** Runs of the send path that fail: messages that overtake, a lost wake-up, a lost mutex. */
module Schedules {
  import opened Common
  import opened SendPath
  import opened SendSafety
  import opened Delivery

  lemma Step(n: nat, s: State, ev: Event) returns (t: State)
    requires Reachable(n, s)
    ensures WellFormed(s) && t == Apply(s, ev) && Reachable(n, t)
  {
    ReachableNext(n, s, ev);
    t := Apply(s, ev);
  }

  const BYTE_MESSAGE := Msg(0, [7])

  const THREE := [BYTE_MESSAGE, BYTE_MESSAGE, BYTE_MESSAGE]

  const ANNOUNCED := NEW_CHANNEL.(suppose := 1)

  /** Another message of one byte is announced and put into the list. */
  lemma OneMore(s: State) returns (t: State)
    requires Reachable(1, s) && |s.chans| == 1 && s.jobs == [] && MutexFree(s) && s.count == 0 && s.chans[0].queued == 0
    ensures Reachable(1, t)
    ensures t == s.(chans := [s.chans[0].(suppose := 1)], log := s.log + [BYTE_MESSAGE], queue := s.queue + [|s.log|],
                    uncounted := s.uncounted + [0], announced := s.announced + [BYTE_MESSAGE])
  {
    t := Step(1, s, Announce(BYTE_MESSAGE));
    assert s.jobs + [BYTE_MESSAGE] == [BYTE_MESSAGE];
    assert s.chans[0 := s.chans[0].(suppose := 1)] == [s.chans[0].(suppose := 1)];
    assert Without([BYTE_MESSAGE], 0) == [];
    t := Step(1, t, Push(0));
  }

  const HALF_SENT := ANNOUNCED.(throwing := 1, msg := Some(0), rest := 1, events := {EpollIn, EpollRdHup, EpollOut})

  lemma TwoQueued() returns (s: State)
    ensures Reachable(1, s)
    ensures s == State([ANNOUNCED], [BYTE_MESSAGE, BYTE_MESSAGE], [0, 1], 0, 0, [], [0, 0], 0, SAsleep, WIdle,
                       false, [BYTE_MESSAGE, BYTE_MESSAGE], {}, {}, {}, {})
  {
    ReachableStart(1);
    s := OneMore(Initial(1));
    assert [NEW_CHANNEL.(suppose := 1)] == [ANNOUNCED];
    s := OneMore(s);
  }

  /** Three messages of one byte have been put into the list. */
  lemma ThreeQueued() returns (s: State)
    ensures Reachable(1, s)
    ensures s == State([ANNOUNCED], THREE, [0, 1, 2], 0, 0, [], [0, 0, 0], 0, SAsleep, WIdle, false, THREE,
                       {}, {}, {}, {})
  {
    s := TwoQueued();
    s := OneMore(s);
  }

  lemma FirstCounted() returns (s: State)
    ensures Reachable(1, s)
    ensures s == State([ANNOUNCED.(queued := 1)], THREE, [0, 1, 2], 1, 0, [], [0, 0], 1, SAsleep, WIdle,
                       false, THREE, {}, {}, {}, {})
  {
    s := ThreeQueued();
    s := Step(1, s, Count(0));
    assert s.uncounted == [0, 0] && s.chans == [ANNOUNCED.(queued := 1)];
  }

  /** The sender is woken for the first of them. */
  lemma ScanBegins() returns (s: State)
    ensures Reachable(1, s)
    ensures s == State([ANNOUNCED.(queued := 1)], THREE, [0, 1, 2], 1, 0, [], [0, 0], 0, SScan(0, {}), WIdle,
                       false, THREE, {}, {}, {}, {})
  {
    s := FirstCounted();
    s := Step(1, s, Post);
    s := Begin(s);
  }

  lemma Begin(s: State) returns (t: State)
    requires Reachable(1, s) && s.sender == SAsleep && s.sem > 0 && s.count > 0 && !s.leaked
    ensures Reachable(1, t) && t == s.(sem := s.sem - 1, sender := SScan(0, {}), missed := {})
  {
    t := Step(1, s, Wake);
    t := Step(1, t, Check);
  }

  /** The scan has started the first message; the socket has taken nothing of it. */
  lemma FirstHalfSent() returns (s: State)
    ensures Reachable(1, s)
    ensures s == State([HALF_SENT], THREE, [1, 2], 0, 0, [], [0, 0], 0, SScan(0, {}), WIdle, false,
                       THREE, {}, {}, {}, {})
  {
    s := ScanBegins();
    s := Step(1, s, Scan(0));
    assert s.queue == [1, 2] && s.chans[0].wire == [];
    s := Step(1, s, Arm);
    assert s.chans[0].events == HALF_SENT.events;
    assert s.chans == [HALF_SENT];
  }

  /** The scan passes over the connection, and then the main thread sends the rest. */
  lemma PassedOver() returns (s: State)
    ensures Reachable(1, s)
    ensures s.sender == SScan(1, {0}) && s.main == WUnarm(0) && s.log == THREE && s.queue == [1, 2]
    ensures |s.chans| == 1 && s.chans[0].sent == [0] && s.chans[0].suppose == 1 && s.announced == s.log
    ensures s.overtaken == {}
  {
    s := FirstHalfSent();
    s := Step(1, s, Scan(0));
    assert {} + {0} == {0};
    s := Step(1, s, Writable(0, 1));
  }

  /** The last steps of the writable handler. */
  lemma Finish(s: State) returns (t: State)
    requires Reachable(1, s) && s.main == WUnarm(0) && |s.chans| == 1
    ensures Reachable(1, t)
    ensures t == s.(chans := t.chans, sem := s.sem + 1, main := WIdle, raced := t.raced)
    ensures |t.chans| == 1 && t.chans[0].throwing == 0 && t.chans[0].sent == s.chans[0].sent
    ensures t.chans[0].suppose == s.chans[0].suppose && (ScanSkipped(s.sender, 0) ==> 0 in t.raced)
  {
    t := UnarmAndPost(s);
    t := Step(1, t, Clear);
  }

  lemma UnarmAndPost(s: State) returns (t: State)
    requires Reachable(1, s) && s.main == WUnarm(0) && |s.chans| == 1
    ensures Reachable(1, t)
    ensures t == s.(chans := [s.chans[0].(events := s.chans[0].events - {EpollOut})], sem := s.sem + 1,
                    main := WClear(0))
  {
    t := Step(1, s, Unarm);
    assert t.chans == [s.chans[0].(events := s.chans[0].events - {EpollOut})];
    t := Step(1, t, PostDone);
  }

  /** A completion behind a scan does not break the order by itself. */
  lemma PassedAndDone() returns (s: State)
    ensures Reachable(1, s) && s.sender == SScan(1, {0}) && s.main == WIdle && s.log == THREE && s.queue == [1, 2]
    ensures |s.chans| == 1 && s.chans[0].throwing == 0 && s.chans[0].sent == [0] && s.chans[0].suppose == 1
    ensures s.announced == s.log && 0 in s.raced && s.overtaken == {}
  {
    s := PassedOver();
    s := Finish(s);
  }

  /** A packet that is completed while the scan is past its connection lets a later message overtake. */
  lemma LaterMessageOvertakes() returns (s: State)
    ensures Reachable(1, s) && Uniform(s.announced)
    ensures |s.chans| == 1 && s.chans[0].sent == [0, 2] && s.queue == [1] && 0 in s.overtaken
  {
    s := PassedAndDone();
    s := Step(1, s, Scan(1));
  }

  /** Two messages wait behind a half-sent packet of their connection. */
  predicate TwoWait(s: State) {
    && |s.chans| == 1 && s.chans[0].throwing == 1 && s.log == THREE && s.queue == [1, 2]
    && !s.leaked && s.announced == s.log
  }

  /** The scan passes over both. */
  lemma ScanInVain(s: State) returns (t: State)
    requires Reachable(1, s) && TwoWait(s) && s.sender == SScan(0, {})
    ensures Reachable(1, t) && t == s.(sender := SAsleep, missed := t.missed)
  {
    t := Step(1, s, Scan(0));
    t := Step(1, t, Scan(0));
    t := Step(1, t, Scan(0));
  }

  lemma WakeInVain(s: State) returns (t: State)
    requires Reachable(1, s) && TwoWait(s) && s.sender == SAsleep && s.sem > 0 && s.count > 0
    ensures Reachable(1, t) && t == s.(sem := s.sem - 1, missed := t.missed)
  {
    t := Begin(s);
    t := ScanInVain(t);
  }

  /** The workers count and post, and the main thread sends the last byte. */
  lemma AllPosted() returns (s: State)
    ensures Reachable(1, s) && TwoWait(s) && s.sender == SAsleep && s.main == WUnarm(0)
    ensures s.count == 2 && s.sem == 2 && s.uncounted == [] && s.unposted == 0
  {
    s := FirstHalfSent();
    s := ScanInVain(s);
    s := Step(1, s, Writable(0, 1));
    s := BothPost(s);
  }

  lemma BothPost(s: State) returns (t: State)
    requires Reachable(1, s) && TwoWait(s) && s.uncounted == [0, 0] && s.count == 0 && s.sem == 0 && s.unposted == 0
    ensures Reachable(1, t) && TwoWait(t) && t.sender == s.sender && t.main == s.main
    ensures t.count == 2 && t.sem == 2 && t.uncounted == [] && t.unposted == 0
  {
    t := BothCount(s);
    t := Step(1, t, Post);
    t := Step(1, t, Post);
  }

  lemma BothCount(s: State) returns (t: State)
    requires Reachable(1, s) && TwoWait(s) && s.uncounted == [0, 0] && s.count == 0
    ensures Reachable(1, t) && TwoWait(t)
    ensures t == s.(chans := t.chans, count := 2, uncounted := [], unposted := s.unposted + 2)
  {
    t := Step(1, s, Count(0));
    assert t.uncounted == [0];
    t := Step(1, t, Count(0));
  }

  lemma PostedNotCleared() returns (s: State)
    ensures Reachable(1, s) && TwoWait(s) && s.sender == SAsleep && s.main == WClear(0)
    ensures s.count == 2 && s.sem == 3 && s.uncounted == [] && s.unposted == 0 && EpollOut !in s.chans[0].events
  {
    s := AllPosted();
    s := UnarmAndPost(s);
  }

  lemma AllInVain() returns (s: State)
    ensures Reachable(1, s) && TwoWait(s) && s.sender == SAsleep && s.main == WClear(0)
    ensures !WakePending(s) && EpollOut !in s.chans[0].events
  {
    s := PostedNotCleared();
    s := WakeInVain(s);
    s := WakeInVain(s);
    s := WakeInVain(s);
  }

  /** A scan between sem_post and the clearing of iThrowsendCount uses up the wake-up: the sender sleeps,
      nothing will wake it, and both messages could be sent. */
  lemma WakeUpIsLost() returns (s: State)
    ensures Reachable(1, s) && Uniform(s.announced)
    ensures s.sender == SAsleep && !WakePending(s) && s.main == WIdle && s.queue == [1, 2]
    ensures |s.chans| == 1 && s.chans[0].throwing == 0 && EpollOut !in s.chans[0].events
  {
    s := AllInVain();
    s := Step(1, s, Clear);
  }

  /** After two wake-ups in vain the third scan passes over message 1 before the clearing. */
  lemma PassedBeforeClear() returns (s: State)
    ensures Reachable(1, s) && TwoWait(s) && s.sender == SScan(1, {0}) && s.main == WClear(0) && s.missed == {0}
    ensures !WakePending(s.(sender := SAsleep))
  {
    s := PostedNotCleared();
    s := WakeInVain(s);
    s := WakeInVain(s);
    s := Begin(s);
    s := Step(1, s, Scan(0));
  }

  /** One event more after a reachable state. */
  lemma Follow(s: State, evs: seq<Event>, t: State, ev: Event) returns (u: State, more: seq<Event>)
    requires Reachable(1, s) && Reachable(1, t) && Run(s, evs) == t
    ensures WellFormed(t) && u == Apply(t, ev) && Reachable(1, u) && more == evs + [ev] && Run(s, more) == u
  {
    ReachableInv(1, s);
    RunOneMore(s, evs, ev);
    u := Step(1, t, ev);
    more := evs + [ev];
  }

  /** The same scan leaves message 2 half sent after the clearing. */
  lemma TakenAfterClear() returns (before: State, s: State, evs: seq<Event>)
    ensures Reachable(1, before) && before.sender == SScan(1, {0}) && before.main == WClear(0) && before.missed == {0}
    ensures Reachable(1, s) && s.sender == SArm(1, {0}, 0) && s.main == WIdle && s.missed == {} && s.queue == [1]
    ensures |s.chans| == 1 && s.chans[0].throwing == 1 && !WakePending(s.(sender := SAsleep))
    ensures Run(before, evs) == s && evs == [Clear, Scan(0)]
  {
    before := PassedBeforeClear();
    s, evs := Follow(before, [], before, Clear);
    s, evs := Follow(before, evs, s, Scan(0));
  }

  /** Then message 1 is not forgotten, although the scan has passed over it between sem_post and the clearing:
      the completion of message 2 will wake the sender. */
  lemma PassedButNotForgotten() returns (before: State, s: State)
    ensures Reachable(1, before) && before.sender == SScan(1, {0}) && before.main == WClear(0) && before.missed == {0}
    ensures Reachable(1, s) && s.sender == SAsleep && !WakePending(s) && s.main == WIdle && s.queue == [1]
    ensures |s.chans| == 1 && s.chans[0].throwing == 1 && EpollOut in s.chans[0].events && s.missed == {}
    ensures Run(before, [Clear, Scan(0), Arm, Scan(0)]) == s
  {
    var evs: seq<Event>;
    before, s, evs := TakenAfterClear();
    s, evs := Follow(before, evs, s, Arm);
    s, evs := Follow(before, evs, s, Scan(0));
    assert evs == [Clear, Scan(0), Arm, Scan(0)];
  }

  // ---------- The lost mutex ----------

  /** Message m is announced and put into the list. */
  lemma Put(n: nat, s: State, m: Msg) returns (t: State)
    requires Reachable(n, s) && m.conn < |s.chans| && m.data != [] && s.jobs == []
    ensures WellFormed(s) && Reachable(n, t) && t == PushStep(AnnounceStep(s, m), 0)
  {
    t := Step(n, s, Announce(m));
    t := Step(n, t, Push(0));
  }

  /** Two messages are announced for a connection before the first is put into the list. */
  lemma TwoAnnounced(n: nat, a: Msg, b: Msg) returns (s: State)
    requires a.conn == b.conn < n && a.data != [] && b.data != []
    ensures Reachable(n, s) && |s.chans| == n && s.chans[a.conn] == NEW_CHANNEL.(suppose := |b.data|)
    ensures s == Initial(n).(chans := s.chans, jobs := [a, b], announced := [a, b])
  {
    ReachableStart(n);
    s := Step(n, Initial(n), Announce(a));
    s := Step(n, s, Announce(b));
    assert s.jobs == [a, b] && s.announced == [a, b];
  }

  lemma FirstPut(n: nat, a: Msg, b: Msg) returns (s: State)
    requires a.conn == b.conn < n && a.data != [] && b.data != []
    ensures Reachable(n, s) && |s.chans| == n && s.chans[a.conn] == NEW_CHANNEL.(suppose := |b.data|)
    ensures s == Initial(n).(chans := s.chans, jobs := [b], log := [a], queue := [0], uncounted := [a.conn],
                             announced := [a, b])
  {
    s := TwoAnnounced(n, a, b);
    s := Step(n, s, Push(0));
    assert Without([a, b], 0) == [b];
  }

  lemma FirstPosted(n: nat, a: Msg, b: Msg) returns (s: State)
    requires a.conn == b.conn < n && a.data != [] && b.data != []
    ensures Reachable(n, s) && |s.chans| == n && s.chans[a.conn] == NEW_CHANNEL.(suppose := |b.data|, queued := 1)
    ensures s.log == [a] && s.queue == [0] && s.announced == [a, b] && s.main == WIdle && !s.leaked
    ensures s.mismatched == {}
    ensures s.count == 1 && s.sem == 1 && s.sender == SAsleep && s.jobs == [b]
  {
    s := FirstPut(n, a, b);
    s := Step(n, s, Count(0));
    s := Step(n, s, Post);
  }

  /** The mismatch return: a second message of another length, announced before the first is sent, ends the
      sender.  A Register reply has 108 bytes and a Login reply has 104. */
  lemma SenderDies(n: nat, a: Msg, b: Msg) returns (s: State)
    requires a.conn == b.conn < n && a.data != [] && b.data != [] && |a.data| != |b.data|
    ensures Reachable(n, s) && s.announced == [a, b] && s.sender.SDead? && MutexLost(s)
  {
    s := FirstPosted(n, a, b);
    s := Step(n, s, Wake);
    s := Step(n, s, Check);
    s := Step(n, s, Scan(|a.data|));
  }

  lemma FirstTaken(n: nat, a: Msg, b: Msg, first: nat) returns (s: State)
    requires a.conn == b.conn < n && first < |a.data| && b.data != []
    ensures Reachable(n, s) && s.sender == SArm(0, {}, a.conn) && s.main == WIdle && s.log == [a]
    ensures |s.chans| == n && s.announced == [a, b] && s.mismatched == {}
    ensures s.chans[a.conn] == NEW_CHANNEL.(suppose := |b.data|, throwing := 1, msg := Some(0), offset := first,
                                            rest := |a.data| - first, already := first, wire := a.data[..first])
  {
    s := FirstPosted(n, a, b);
    s := Step(n, s, Wake);
    s := Step(n, s, Check);
    var r := s;
    s := Step(n, s, Scan(first));
    assert r.chans[a.conn].wire + a.data[..first] == a.data[..first];
  }

  /** The socket takes the beginning of the first message. */
  lemma FirstArmed(n: nat, a: Msg, b: Msg, first: nat) returns (s: State)
    requires a.conn == b.conn < n && first < |a.data| && b.data != []
    ensures Reachable(n, s) && s.main == WIdle && s.log == [a]
    ensures |s.chans| == n && s.announced == [a, b] && s.mismatched == {}
    ensures s.chans[a.conn] == NEW_CHANNEL.(suppose := |b.data|, throwing := 1, msg := Some(0), offset := first,
                                            rest := |a.data| - first, already := first, wire := a.data[..first],
                                            events := {EpollIn, EpollRdHup, EpollOut})
  {
    s := FirstTaken(n, a, b, first);
    s := Step(n, s, Arm);
    assert NEW_CHANNEL.events + {EpollOut} == {EpollIn, EpollRdHup, EpollOut};
  }

  /** The mismatch in the writable handler: it sends the rest of the first message, finds the length of the
      second, and at the next event sends the rest once more. */
  lemma HandlerMismatch(n: nat, a: Msg, b: Msg, first: nat) returns (s: State, t: State)
    requires a.conn == b.conn < n && first < |a.data| && b.data != [] && |a.data| != |b.data|
    ensures Reachable(n, s) && Reachable(n, t) && s.announced == t.announced == [a, b] && |s.chans| == |t.chans| == n
    ensures a.conn in s.mismatched && EpollOut in s.chans[a.conn].events && s.main == WIdle
    ensures s.chans[a.conn].sent == [] && s.chans[a.conn].wire == a.data
    ensures t.chans[a.conn].wire == a.data + a.data[first..]
    ensures t.main.WUnarm? <==> |a.data| + |a.data[first..]| == |b.data|
    ensures !t.main.WUnarm? ==> t.chans[a.conn].sent == [] && EpollOut in t.chans[a.conn].events
  {
    var r := FirstArmed(n, a, b, first);
    s := Step(n, r, Writable(a.conn, |a.data| - first));
    assert a.data[first..|a.data|] == a.data[first..] && a.data[..first] + a.data[first..] == a.data;
    t := Step(n, s, Writable(a.conn, |a.data| - first));
  }

  /** k messages of a connection have been put into the list, and the sender has not been woken yet. */
  predicate Queued(s: State, n: nat, m: Msg, k: nat) {
    && |s.chans| == n && m.conn < n && s.chans[m.conn].queued == k && s.count == k
    && s.jobs == [] && s.uncounted == [] && !s.leaked && s.sender == SAsleep
  }

  lemma {:induction false} Fill(n: nat, m: Msg, k: nat) returns (s: State)
    requires m.conn < n && m.data != [] && k <= 401
    ensures Reachable(n, s) && Queued(s, n, m, k)
  {
    if k == 0 {
      ReachableStart(n);
      s := Initial(n);
    } else {
      s := Fill(n, m, k - 1);
      s := FillOne(n, m, k - 1, s);
    }
  }

  lemma PutFits(n: nat, m: Msg, k: nat, s: State) returns (t: State)
    requires Reachable(n, s) && Queued(s, n, m, k) && m.data != [] && k <= 400
    ensures Reachable(n, t) && Queued(t.(uncounted := []), n, m, k) && t.uncounted == [m.conn]
  {
    t := Put(n, s, m);
    assert [] + [m] == [m] && Without([m], 0) == [];
  }

  lemma FillOne(n: nat, m: Msg, k: nat, s: State) returns (t: State)
    requires Reachable(n, s) && Queued(s, n, m, k) && m.data != [] && k <= 400
    ensures Reachable(n, t) && Queued(t, n, m, k + 1)
  {
    t := PutFits(n, m, k, s);
    t := Step(n, t, Count(0));
  }

  /** The overflow return: the 402nd message of a connection takes m_sendmutex with it. */
  lemma WorkerLeaves(n: nat, m: Msg) returns (s: State)
    requires m.conn < n && m.data != []
    ensures Reachable(n, s) && s.leaked && MutexLost(s) && s.count == 401
  {
    s := Fill(n, m, 401);
    s := Put(n, s, m);
    assert [] + [m] == [m];
  }
}
