/** The send path in every run: what the socket has taken, in which order, and when the sender stops. */
module Delivery {
  import opened Words
  import opened SendPath
  import opened SendSafety
  import SendLists
  import SendOrder

  /** Some schedule of events leads to `s`, with `n` connections. */
  ghost predicate Reachable(n: nat, s: State) {
    exists evs: seq<Event> :: Run(Initial(n), evs) == s
  }

  lemma ReachableInv(n: nat, s: State)
    requires Reachable(n, s)
    ensures Inv(s)
  {
    var evs :| Run(Initial(n), evs) == s;
    SendOrder.InitialInv(n);
    SendOrder.RunKeepsInv(Initial(n), evs);
  }

  lemma ReachableNext(n: nat, s: State, ev: Event)
    requires Reachable(n, s)
    ensures Inv(s) && Reachable(n, Apply(s, ev))
  {
    ReachableInv(n, s);
    var evs :| Run(Initial(n), evs) == s;
    SendOrder.InitialInv(n);
    RunOneMore(Initial(n), evs, ev);
  }

  lemma RunOne(s: State, ev: Event)
    requires WellFormed(s)
    ensures Run(s, [] + [ev]) == Apply(s, ev)
  {
    assert [] + [ev] == [ev] && [ev][1..] == [];
  }

  lemma {:induction false} RunOneMore(s: State, evs: seq<Event>, ev: Event)
    requires Inv(s)
    ensures Inv(Run(s, evs)) && Run(s, evs + [ev]) == Apply(Run(s, evs), ev)
    decreases |evs|
  {
    if evs == [] {
      RunOne(s, ev);
    } else {
      SendOrder.EventKeepsInv(s, evs[0]);
      RunOneMore(Apply(s, evs[0]), evs[1..], ev);
      RunCons(s, evs, ev);
    }
  }

  lemma RunCons(s: State, evs: seq<Event>, ev: Event)
    requires WellFormed(s) && evs != []
    ensures Run(s, evs + [ev]) == Run(Apply(s, evs[0]), evs[1..] + [ev])
  {
    assert (evs + [ev])[0] == evs[0] && (evs + [ev])[1..] == evs[1..] + [ev];
  }

  lemma ReachableStart(n: nat)
    ensures Reachable(n, Initial(n))
  {
    assert Run(Initial(n), []) == Initial(n);
  }

  // ---------- What is on the wire ----------

  /** The beginning of a packet that the connection is in the middle of. */
  function Unfinished(s: State, c: nat): seq<Byte>
    requires WellFormed(s) && c < |s.chans|
  {
    var ch := s.chans[c];
    if ch.throwing > 0 && !Completing(s.main, c) && ch.msg.Some? && ch.offset <= |s.log[ch.msg.value].data| then
      s.log[ch.msg.value].data[..ch.offset]
    else []
  }

  /** Packet contiguity: although two threads write, the wire holds whole packets of this connection, each
      once, one after the other, and then at most the beginning of one more. */
  lemma WireHoldsWholePackets(n: nat, s: State, c: nat)
    requires Reachable(n, s) && c < |s.chans| && c !in s.mismatched
    ensures Inv(s) && Sent(c, s.chans[c], s.log) && Distinct(s.chans[c].sent)
    ensures s.chans[c].wire == Whole(s.log, s.chans[c].sent) + Unfinished(s, c)
  {
    ReachableInv(n, s);
    assert ChanOk(c, s.chans[c], s.log, s.sender, s.main);
  }

  /** Nothing is lost or sent twice: a message that was put into the list is still there, or half sent, or
      sent, and only one of these. */
  lemma EachMessageIsInOnePlace(n: nat, s: State, id: nat)
    requires Reachable(n, s) && id < |s.log| && s.log[id].conn !in s.mismatched
    ensures s.log[id].conn < |s.chans|
    ensures Placed(id, s.log[id].conn, s.chans[s.log[id].conn], s.queue, s.main)
    ensures multiset(s.queue)[id] <= 1
  {
    ReachableInv(n, s);
    assert s.log[id] in s.log;
    OnceEach(s.queue, id);
  }

  lemma {:induction false} OnceEach(q: seq<nat>, x: nat)
    requires Ascending(q)
    ensures multiset(q)[x] == if x in q then 1 else 0
    decreases |q|
  {
    if q != [] {
      OnceEach(q[..|q| - 1], x);
      assert q == q[..|q| - 1] + [q[|q| - 1]];
    }
  }

  // ---------- Lengths ----------

  /** When all messages of each connection have one length, as the comment on sendlen_suppose says, the
      length test never fails. */
  lemma UniformNeverMismatches(n: nat, s: State)
    requires Reachable(n, s) && Uniform(s.announced)
    ensures s.mismatched == {} && !s.sender.SDead?
  {
    ReachableInv(n, s);
  }

  /** The test of the sender fails exactly if another length was announced last; then the thread ends. */
  lemma ScanMismatchIff(n: nat, s: State, took: nat)
    requires Reachable(n, s) && s.sender.SScan? && s.sender.i < |s.queue| && took == s.queue[s.sender.i]
    ensures took < |s.log| && s.log[took].conn < |s.chans| && Inv(s)
    ensures s.chans[s.log[took].conn].throwing == 0 ==>
      var t := ScanStep(s, |s.log[took].data|);
      && (t.sender.SDead? <==> |s.log[took].data| != LastLength(s.announced, s.log[took].conn))
      && (!t.sender.SDead? ==> t.sender == s.sender && t.mismatched == s.mismatched)
  {
    ReachableInv(n, s);
    assert took in s.queue && s.log[took] in s.log;
  }

  /** The test of the writable handler, in the same way. */
  lemma WritableMismatchIff(n: nat, s: State, c: nat)
    requires Reachable(n, s) && s.main == WIdle && c < |s.chans| && c !in s.mismatched
    requires EpollOut in s.chans[c].events
    ensures Inv(s) && s.chans[c].msg.Some?
    ensures var t, id := WritableStep(s, c, s.chans[c].rest), s.chans[c].msg.value;
      && (c in t.mismatched <==> |s.log[id].data| != LastLength(s.announced, c))
      && (c !in t.mismatched ==> t.main == WUnarm(c) && t.chans[c].sent == s.chans[c].sent + [id])
  {
    ReachableInv(n, s);
    assert ChanOk(c, s.chans[c], s.log, s.sender, s.main);
  }

  // ---------- Order ----------

  /** No message of `c` is older than message `id` and still in the list. */
  predicate OldestOf(s: State, c: nat, id: nat) {
    forall k | 0 <= k < |s.queue| && s.queue[k] < |s.log| && s.log[s.queue[k]].conn == c :: id <= s.queue[k]
  }

  /** The scan starts the oldest message of a connection exactly if it has not passed over the connection. */
  lemma OldestIffNotPassed(n: nat, s: State, took: nat)
    requires Reachable(n, s) && s.sender.SScan? && s.sender.i < |s.queue| && took == s.queue[s.sender.i]
    ensures took < |s.log|
    ensures OldestOf(s, s.log[took].conn, took) <==> s.log[took].conn !in s.sender.skipped
  {
    ReachableInv(n, s);
    assert took in s.queue;
    var c := s.log[took].conn;
    assert c in s.sender.skipped <==> Passed(s.log, s.queue, s.sender.i, c);
  }

  /** Order: the messages of a connection, those sent and those still to be sent, stand in the order in which
      they were put into the list if and only if no scan has started one of them after passing over another.
      That needs a completion during a scan that has passed over the connection. */
  lemma SentInOrder(n: nat, s: State, c: nat)
    requires Reachable(n, s) && c < |s.chans| && c !in s.mismatched
    ensures InOrder(s, c) <==> c !in s.overtaken
    ensures s.overtaken <= s.raced
  {
    ReachableInv(n, s);
  }

  lemma FrontOfLine(sent: seq<nat>, work: seq<nat>, listed: seq<nat>)
    requires Ascending(sent + work + listed)
    ensures Ascending(sent) && forall id, later | id in sent && later in listed :: id < later
  {
    var line := sent + work + listed;
    assert forall j | 0 <= j < |sent| :: line[j] == sent[j];
    forall id, later | id in sent && later in listed ensures id < later {
      var j :| 0 <= j < |sent| && sent[j] == id;
      var l :| 0 <= l < |listed| && listed[l] == later;
      assert line[|sent| + |work| + l] == listed[l];
    }
  }

  /** Then older messages have been sent first, and will be. */
  lemma OlderFirst(n: nat, s: State, c: nat)
    requires Reachable(n, s) && c < |s.chans| && c !in s.mismatched && c !in s.overtaken
    ensures Ascending(s.chans[c].sent)
    ensures forall id, k | id in s.chans[c].sent && 0 <= k < |s.queue| && s.queue[k] < |s.log|
                           && s.log[s.queue[k]].conn == c :: id < s.queue[k]
  {
    ReachableInv(n, s);
    var listed := InList(s.queue, s.log, c);
    FrontOfLine(s.chans[c].sent, InWork(c, s.chans[c], s.main), listed);
    SendLists.InListMembers(s.queue, s.log, c);
    forall k | 0 <= k < |s.queue| && s.queue[k] < |s.log| && s.log[s.queue[k]].conn == c ensures s.queue[k] in listed {
    }
  }

  // ---------- Wake-ups ----------

  /** When nothing is left that would wake the sender, a message in the list waits for a half-sent packet of its
      connection, whose completion will wake the sender, unless it has been forgotten.  It has been forgotten
      if and only if the last scan passed over its connection between sem_post and the clearing of its count,
      and did not leave a later message of the connection half sent afterwards. */
  lemma NoMessageForgotten(n: nat, s: State, k: nat)
    requires Reachable(n, s) && k < |s.queue| && s.sender.SAsleep? && !WakePending(s)
    ensures s.queue[k] < |s.log| && s.log[s.queue[k]].conn < |s.chans|
    ensures var c := s.log[s.queue[k]].conn; s.chans[c].throwing > 0 && s.main != WClear(c) <==> c !in s.missed
  {
    ReachableInv(n, s);
    assert Remembered(s, k);
  }

  // ---------- Lost mutex ----------

  /** The sender or a worker has returned with m_sendmutex. */
  predicate MutexLost(s: State) {
    s.sender.SDead? || s.leaked
  }

  lemma LostStaysLost(s: State, ev: Event)
    requires WellFormed(s) && ScanOk(s) && MutexLost(s)
    ensures var t := Apply(s, ev); MutexLost(t) && t.queue == s.queue && t.log == s.log
  {
  }

  /** From then on no message enters or leaves the list, whatever happens. */
  lemma {:induction false} LostForGood(s: State, evs: seq<Event>)
    requires Inv(s) && MutexLost(s)
    ensures var t := Run(s, evs); MutexLost(t) && t.queue == s.queue && t.log == s.log
    decreases |evs|
  {
    if evs != [] {
      LostStaysLost(s, evs[0]);
      SendOrder.EventKeepsInv(s, evs[0]);
      LostForGood(Apply(s, evs[0]), evs[1..]);
    }
  }

  /** Worker k's message finds the list or its connection full. */
  ghost predicate Overflows(s: State, k: nat)
    requires WellFormed(s) && k < |s.jobs|
  {
    assert s.jobs[k] in s.jobs;
    s.count > 1000 || s.chans[s.jobs[k].conn].queued > 400
  }

  /** isend_count, and the limits: what counts against them waits in the list. */
  lemma QueuedCounts(n: nat, s: State, c: nat)
    requires Reachable(n, s) && c < |s.chans|
    ensures s.chans[c].queued == |InList(s.queue, s.log, c)| - multiset(s.uncounted)[c]
    ensures s.count == |s.queue| - |s.uncounted|
  {
    ReachableInv(n, s);
  }

  /** A message overflows exactly if more than 1000 counted messages wait, or more than 400 of its connection. */
  lemma OverflowsIff(n: nat, s: State, k: nat)
    requires Reachable(n, s) && k < |s.jobs|
    ensures Inv(s)
    ensures var c := s.jobs[k].conn;
      Overflows(s, k) <==>
        |s.queue| - |s.uncounted| > 1000 || |InList(s.queue, s.log, c)| - multiset(s.uncounted)[c] > 400
  {
    ReachableInv(n, s);
    assert s.jobs[k] in s.jobs;
    QueuedCounts(n, s, s.jobs[k].conn);
  }

  /** A sender that is awake begins a scan exactly if a counted message waits and the mutex is not lost, and goes
      back to sleep exactly if none waits. */
  lemma ScanBeginsIff(n: nat, s: State)
    requires Reachable(n, s) && s.sender == SAwake
    ensures CheckStep(s).sender == SScan(0, {}) <==> |s.queue| > |s.uncounted| && !s.leaked
    ensures CheckStep(s).sender == SAsleep <==> |s.queue| <= |s.uncounted|
  {
    ReachableInv(n, s);
  }

  /** The event mask is the one of the accept handler, with or without EPOLLOUT. */
  lemma MaskIs(n: nat, s: State, c: nat)
    requires Reachable(n, s) && c < |s.chans|
    ensures s.chans[c].events == {EpollIn, EpollRdHup} || s.chans[c].events == {EpollIn, EpollRdHup, EpollOut}
  {
    ReachableInv(n, s);
    var mask := s.chans[c].events;
    if EpollOut in mask {
      assert mask == (mask - {EpollOut}) + {EpollOut};
    } else {
      assert mask == mask - {EpollOut};
    }
  }

  /** The scan starts the next message, and the socket takes all of it, but its length is wrong. */
  ghost predicate FailsLengthTest(s: State, n: nat)
    requires WellFormed(s) && s.sender.SScan? && s.sender.i < |s.queue|
  {
    assert s.queue[s.sender.i] in s.queue && s.log[s.queue[s.sender.i]] in s.log;
    var m := s.log[s.queue[s.sender.i]];
    s.chans[m.conn].throwing == 0 && n == |m.data| && n != LastLength(s.announced, m.conn)
  }

  /** The mutex is lost exactly by a length mismatch in the sender or by an overflow in MsgSendInQueue. */
  lemma LosesMutexIff(n: nat, s: State, ev: Event)
    requires Reachable(n, s) && !MutexLost(s)
    ensures Inv(s)
    ensures MutexLost(Apply(s, ev)) <==>
      || (ev.Push? && ev.k < |s.jobs| && MutexFree(s) && Overflows(s, ev.k))
      || (ev.Scan? && s.sender.SScan? && s.sender.i < |s.queue| && FailsLengthTest(s, ev.n))
  {
    ReachableInv(n, s);
    if ev.Scan? && s.sender.SScan? && s.sender.i < |s.queue| {
      assert s.queue[s.sender.i] in s.queue && s.log[s.queue[s.sender.i]] in s.log;
    }
    if ev.Push? && ev.k < |s.jobs| {
      assert s.jobs[ev.k] in s.jobs;
    }
  }
}
