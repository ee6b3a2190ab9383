/** Every event of SendPath keeps the invariant of SendSafety. */
module SendKeeps {
  import opened Common
  import opened Words
  import opened SendPath
  import opened SendSafety

  // ---------- Channels ----------

  lemma {:induction false} WholeGrows(log: seq<Msg>, m: Msg, ids: seq<nat>)
    requires forall k | 0 <= k < |ids| :: ids[k] < |log|
    ensures Whole(log + [m], ids) == Whole(log, ids)
    decreases |ids|
  {
    if ids != [] {
      WholeGrows(log, m, ids[..|ids| - 1]);
    }
  }

  lemma WholeOneMore(log: seq<Msg>, ids: seq<nat>, id: nat)
    requires id < |log| && forall k | 0 <= k < |ids| :: ids[k] < |log|
    ensures Whole(log, ids + [id]) == Whole(log, ids) + log[id].data
  {
    assert (ids + [id])[..|ids|] == ids;
  }

  lemma ChanStays(c: nat, ch: Channel, log: seq<Msg>, p: SenderPc, m: MainPc, p2: SenderPc, m2: MainPc)
    requires ChanOk(c, ch, log, p, m)
    requires Arming(p2, c) == Arming(p, c) && Completing(m2, c) == Completing(m, c) && (Completing(m, c) ==> m2 == m)
    ensures ChanOk(c, ch, log, p2, m2)
  {
  }

  lemma PushKeepsChans(s: State, k: nat)
    requires WellFormed(s) && ChansOk(s)
    ensures ChansOk(PushStep(s, k))
  {
    var t := PushStep(s, k);
    if t.log != s.log {
      forall c: nat | c < |t.chans| && c !in t.mismatched ensures ChanOk(c, t.chans[c], t.log, t.sender, t.main) {
        assert ChanOk(c, s.chans[c], s.log, s.sender, s.main);
        WholeGrows(s.log, s.jobs[k], s.chans[c].sent);
      }
    }
  }

  /** Only connection `c` is touched. */
  ghost predicate Touches(s: State, t: State, c: nat) {
    && |t.chans| == |s.chans| && t.log == s.log && s.mismatched <= t.mismatched
    && (forall d: nat | d < |s.chans| && d != c ::
          && t.chans[d] == s.chans[d]
          && Arming(t.sender, d) == Arming(s.sender, d) && Completing(t.main, d) == Completing(s.main, d)
          && (Completing(s.main, d) ==> t.main == s.main))
  }

  lemma TouchedKeeps(s: State, t: State, c: nat)
    requires ChansOk(s) && Touches(s, t, c)
    requires c < |s.chans| && c !in t.mismatched ==> ChanOk(c, t.chans[c], t.log, t.sender, t.main)
    ensures ChansOk(t)
  {
    forall d: nat | d < |t.chans| && d !in t.mismatched && d != c
      ensures ChanOk(d, t.chans[d], t.log, t.sender, t.main)
    {
      ChanStays(d, s.chans[d], s.log, s.sender, s.main, t.sender, t.main);
    }
  }

  /** The scan starts a packet: all of it, or a part. */
  lemma TakeKeepsChan(s: State, n: nat)
    requires WellFormed(s) && s.sender.SScan? && s.sender.i < |s.queue| && s.queue[s.sender.i] < |s.log|
    requires ScanStep(s, n) != s
    requires var c := s.log[s.queue[s.sender.i]].conn;
      && c < |s.chans| && c !in ScanStep(s, n).mismatched && s.chans[c].throwing == 0
      && Unowned(c, s.chans[c], s.log, s.sender, s.main)
    ensures var c, t := s.log[s.queue[s.sender.i]].conn, ScanStep(s, n);
      ChanOk(c, t.chans[c], t.log, t.sender, t.main)
  {
    var id := s.queue[s.sender.i];
    var data := s.log[id].data;
    WholeOneMore(s.log, s.chans[s.log[id].conn].sent, id);
    assert n == |data| ==> data[..n] == data;
  }

  lemma ScanTouches(s: State, n: nat)
    requires WellFormed(s) && s.sender.SScan? && s.sender.i < |s.queue|
    requires var id := s.queue[s.sender.i]; id < |s.log| && s.log[id].conn < |s.chans|
    ensures Touches(s, ScanStep(s, n), s.log[s.queue[s.sender.i]].conn)
  {
  }

  lemma ScanKeepsChans(s: State, n: nat)
    requires WellFormed(s) && ChansOk(s)
    ensures ChansOk(ScanStep(s, n))
  {
    var t := ScanStep(s, n);
    if s.sender.SScan? && s.sender.i < |s.queue| && t != s {
      var id := s.queue[s.sender.i];
      assert id in s.queue && s.log[id] in s.log;
      var c := s.log[id].conn;
      ScanTouches(s, n);
      if c !in t.mismatched {
        assert ChanOk(c, s.chans[c], s.log, s.sender, s.main);
        if s.chans[c].throwing == 0 {
          TakeKeepsChan(s, n);
        }
      }
      TouchedKeeps(s, t, c);
    }
  }

  lemma Extended(whole: seq<Byte>, data: seq<Byte>, from: nat, to: nat)
    requires from <= to <= |data|
    ensures whole + data[..from] + data[from..to] == whole + data[..to]
  {
    assert data[..from] + data[from..to] == data[..to];
    assert whole + data[..from] + data[from..to] == whole + (data[..from] + data[from..to]);
  }

  /** The socket takes a part of the rest. */
  lemma PartKeepsChan(s: State, c: nat, n: nat)
    requires WellFormed(s) && c < |s.chans| && s.main.WIdle? && EpollOut in s.chans[c].events && n < s.chans[c].rest
    requires HalfSent(c, s.chans[c], s.log, s.sender)
    ensures var t := WritableStep(s, c, n); HalfSent(c, t.chans[c], t.log, t.sender) && t.main == s.main
  {
    var ch := s.chans[c];
    Extended(Whole(s.log, ch.sent), s.log[ch.msg.value].data, ch.offset, ch.offset + n);
  }

  /** It takes the whole rest, and the lengths agree. */
  lemma RestKeepsChan(s: State, c: nat)
    requires WellFormed(s) && c < |s.chans| && s.main.WIdle? && EpollOut in s.chans[c].events
    requires HalfSent(c, s.chans[c], s.log, s.sender) && c !in WritableStep(s, c, s.chans[c].rest).mismatched
    ensures var t := WritableStep(s, c, s.chans[c].rest);
      Completed(c, t.chans[c], t.log, t.sender, t.main) && Completing(t.main, c)
  {
    var ch := s.chans[c];
    var data := s.log[ch.msg.value].data;
    Extended(Whole(s.log, ch.sent), data, ch.offset, |data|);
    assert data[..|data|] == data;
    WholeOneMore(s.log, ch.sent, ch.msg.value);
  }

  lemma WritableKeepsChan(s: State, c: nat, n: nat)
    requires WellFormed(s) && c < |s.chans| && c !in WritableStep(s, c, n).mismatched && s.main.WIdle?
    requires EpollOut in s.chans[c].events && ChanOk(c, s.chans[c], s.log, s.sender, s.main)
    ensures var t := WritableStep(s, c, n); ChanOk(c, t.chans[c], t.log, t.sender, t.main)
  {
    if n < s.chans[c].rest {
      PartKeepsChan(s, c, n);
    } else if n == s.chans[c].rest {
      RestKeepsChan(s, c);
    }
  }

  lemma WritableTouches(s: State, c: nat, n: nat)
    requires WellFormed(s) && WritableStep(s, c, n) != s
    ensures Touches(s, WritableStep(s, c, n), c)
    ensures c < |s.chans| && s.main.WIdle? && EpollOut in s.chans[c].events
  {
  }

  lemma WritableKeepsChans(s: State, c: nat, n: nat)
    requires WellFormed(s) && ChansOk(s)
    ensures ChansOk(WritableStep(s, c, n))
  {
    var t := WritableStep(s, c, n);
    if t != s {
      WritableTouches(s, c, n);
      if c !in t.mismatched {
        assert ChanOk(c, s.chans[c], s.log, s.sender, s.main);
        WritableKeepsChan(s, c, n);
      }
      TouchedKeeps(s, t, c);
    }
  }

  /** Announce and Count change fields that do not matter here. */
  lemma WorkerKeepsChans(s: State, t: State, c: nat, suppose: nat, queued: int)
    requires ChansOk(s) && c < |s.chans|
    requires t.chans == s.chans[c := s.chans[c].(suppose := suppose, queued := queued)]
    requires t.log == s.log && t.sender == s.sender && t.main == s.main && t.mismatched == s.mismatched
    ensures ChansOk(t)
  {
    if c !in s.mismatched {
      assert ChanOk(c, s.chans[c], s.log, s.sender, s.main);
    }
    TouchedKeeps(s, t, c);
  }

  lemma AnnounceKeepsChans(s: State, m: Msg)
    requires WellFormed(s) && ChansOk(s)
    ensures ChansOk(AnnounceStep(s, m))
  {
    if m.conn < |s.chans| && m.data != [] {
      WorkerKeepsChans(s, AnnounceStep(s, m), m.conn, |m.data|, s.chans[m.conn].queued);
    }
  }

  lemma CountKeepsChans(s: State, k: nat)
    requires WellFormed(s) && ChansOk(s)
    ensures ChansOk(CountStep(s, k))
  {
    if k < |s.uncounted| {
      var c := s.uncounted[k];
      assert c in s.uncounted;
      WorkerKeepsChans(s, CountStep(s, k), c, s.chans[c].suppose, s.chans[c].queued + 1);
    }
  }

  lemma ArmKeepsChans(s: State)
    requires WellFormed(s) && ChansOk(s)
    ensures ChansOk(ArmStep(s))
  {
    if s.sender.SArm? {
      var c := s.sender.c;
      if c !in s.mismatched {
        assert ChanOk(c, s.chans[c], s.log, s.sender, s.main);
      }
      TouchedKeeps(s, ArmStep(s), c);
    }
  }

  /** The last three steps of the writable handler. */
  lemma FinishKeepsChans(s: State, ev: Event)
    requires WellFormed(s) && ChansOk(s) && (ev.Unarm? || ev.PostDone? || ev.Clear?)
    ensures ChansOk(Apply(s, ev))
  {
    if Apply(s, ev) != s {
      var c := s.main.c;
      if c !in s.mismatched {
        assert ChanOk(c, s.chans[c], s.log, s.sender, s.main);
      }
      TouchedKeeps(s, Apply(s, ev), c);
    }
  }

  lemma EventKeepsChans(s: State, ev: Event)
    requires WellFormed(s) && ChansOk(s)
    ensures ChansOk(Apply(s, ev))
  {
    match ev
    case Announce(m) => AnnounceKeepsChans(s, m);
    case Push(k) => PushKeepsChans(s, k);
    case Count(k) => CountKeepsChans(s, k);
    case Post =>
    case Wake => TouchedKeeps(s, WakeStep(s), |s.chans|);
    case Check => TouchedKeeps(s, CheckStep(s), |s.chans|);
    case Scan(n) => ScanKeepsChans(s, n);
    case Arm => ArmKeepsChans(s);
    case Writable(c, n) => WritableKeepsChans(s, c, n);
    case Unarm => FinishKeepsChans(s, ev);
    case PostDone => FinishKeepsChans(s, ev);
    case Clear => FinishKeepsChans(s, ev);
  }

  // ---------- Messages ----------

  lemma WithoutMembers(q: seq<nat>, i: nat)
    requires Ascending(q) && i < |q|
    ensures Ascending(Without(q, i))
    ensures forall x :: x in Without(q, i) <==> x in q && x != q[i]
  {
    var r := Without(q, i);
    forall k | 0 <= k < |r| ensures r[k] == q[if k < i then k else k + 1] {}
    forall x | x in q && x != q[i] ensures x in r {
      var k :| 0 <= k < |q| && q[k] == x;
      assert r[if k < i then k else k - 1] == x;
    }
  }

  lemma PushKeepsMessages(s: State, k: nat)
    requires WellFormed(s) && ChansOk(s) && MessagesOk(s)
    ensures MessagesOk(PushStep(s, k))
  {
    var t := PushStep(s, k);
    if t.log != s.log {
      forall id: nat | id < |t.log| && t.log[id].conn !in t.mismatched && t.log[id].conn < |t.chans|
        ensures Placed(id, t.log[id].conn, t.chans[t.log[id].conn], t.queue, t.main)
      {
        var c := t.log[id].conn;
        assert ChanOk(c, s.chans[c], s.log, s.sender, s.main);
      }
      forall j | 0 <= j < |s.queue| ensures s.queue[j] < |s.log| {
        assert s.queue[j] in s.queue;
      }
    }
  }

  /** Every message of another connection stays where it is. */
  lemma TakeKeepsOthers(s: State, n: nat, id: nat)
    requires WellFormed(s) && MessagesOk(s) && s.sender.SScan? && s.sender.i < |s.queue|
    requires id < |s.log| && s.log[id].conn !in s.mismatched && s.log[id].conn < |s.chans|
    requires s.queue[s.sender.i] < |s.log| && s.log[id].conn != s.log[s.queue[s.sender.i]].conn
    ensures var t := ScanStep(s, n); Placed(id, s.log[id].conn, t.chans[s.log[id].conn], t.queue, t.main)
  {
    WithoutMembers(s.queue, s.sender.i);
  }

  lemma TakeKeepsOwn(s: State, n: nat, id: nat)
    requires WellFormed(s) && MessagesOk(s) && s.sender.SScan? && s.sender.i < |s.queue| && ScanStep(s, n) != s
    requires id < |s.log| && s.log[id].conn !in ScanStep(s, n).mismatched && s.log[id].conn < |s.chans|
    requires s.queue[s.sender.i] < |s.log| && s.log[id].conn == s.log[s.queue[s.sender.i]].conn
    requires s.chans[s.log[id].conn].msg.None? && !Completing(s.main, s.log[id].conn)
    ensures var t := ScanStep(s, n); Placed(id, s.log[id].conn, t.chans[s.log[id].conn], t.queue, t.main)
  {
    WithoutMembers(s.queue, s.sender.i);
  }

  lemma TakeKeepsDistinct(s: State, n: nat, c: nat)
    requires WellFormed(s) && MessagesOk(s) && c < |s.chans| && c !in ScanStep(s, n).mismatched
    requires s.sender.SScan? && s.sender.i < |s.queue| && s.queue[s.sender.i] < |s.log|
    ensures Distinct(ScanStep(s, n).chans[c].sent)
  {
    assert Distinct(s.chans[c].sent);
    var took := s.queue[s.sender.i];
    if s.log[took].conn == c {
      assert Placed(took, c, s.chans[c], s.queue, s.main);
    }
  }

  lemma ScanKeepsMessages(s: State, n: nat)
    requires WellFormed(s) && ChansOk(s) && MessagesOk(s)
    ensures MessagesOk(ScanStep(s, n))
  {
    var t := ScanStep(s, n);
    if t.queue != s.queue {
      var took := s.queue[s.sender.i];
      assert took in s.queue && s.log[took] in s.log;
      WithoutMembers(s.queue, s.sender.i);
      forall id: nat | id < |s.log| && s.log[id].conn !in t.mismatched && s.log[id].conn < |s.chans|
        ensures Placed(id, s.log[id].conn, t.chans[s.log[id].conn], t.queue, t.main)
      {
        if s.log[id].conn == s.log[took].conn {
          assert ChanOk(s.log[id].conn, s.chans[s.log[id].conn], s.log, s.sender, s.main);
          TakeKeepsOwn(s, n, id);
        } else {
          TakeKeepsOthers(s, n, id);
        }
      }
      forall c: nat | c < |s.chans| && c !in t.mismatched ensures Distinct(t.chans[c].sent) {
        TakeKeepsDistinct(s, n, c);
      }
    }
  }

  /** No message moves. */
  ghost predicate SameMessages(s: State, t: State) {
    && |t.chans| == |s.chans| && t.log == s.log && t.queue == s.queue && s.mismatched <= t.mismatched
    && (forall c: nat | c < |s.chans| && c !in t.mismatched ::
          && t.chans[c].sent == s.chans[c].sent
          && ((t.chans[c].msg == s.chans[c].msg && Completing(t.main, c) == Completing(s.main, c))
              || (Completing(s.main, c) && t.chans[c].msg == None)))
  }

  lemma SameMessagesKeep(s: State, t: State)
    requires MessagesOk(s) && SameMessages(s, t)
    ensures MessagesOk(t)
  {
    forall id: nat | id < |t.log| && t.log[id].conn !in t.mismatched && t.log[id].conn < |t.chans|
      ensures Placed(id, t.log[id].conn, t.chans[t.log[id].conn], t.queue, t.main)
    {
      assert Placed(id, s.log[id].conn, s.chans[s.log[id].conn], s.queue, s.main);
    }
  }

  /** The completed packet goes from the middle to the end. */
  lemma CompleteKeepsPlace(s: State, c: nat, n: nat, id: nat)
    requires WellFormed(s) && WritableStep(s, c, n) != s && c !in WritableStep(s, c, n).mismatched
    requires id < |s.log| && s.log[id].conn < |s.chans|
    requires Placed(id, s.log[id].conn, s.chans[s.log[id].conn], s.queue, s.main)
    ensures var t := WritableStep(s, c, n);
      Placed(id, s.log[id].conn, t.chans[s.log[id].conn], t.queue, t.main)
  {
  }

  lemma CompleteKeepsDistinct(s: State, c: nat, n: nat)
    requires WellFormed(s) && WritableStep(s, c, n) != s && c !in WritableStep(s, c, n).mismatched
    requires Distinct(s.chans[c].sent) && s.chans[c].msg.value !in s.chans[c].sent
    ensures Distinct(WritableStep(s, c, n).chans[c].sent)
  {
  }

  lemma CompleteKeepsMessages(s: State, c: nat, n: nat)
    requires WellFormed(s) && MessagesOk(s) && WritableStep(s, c, n).main != s.main
    requires c < |s.chans| && c !in s.mismatched ==> ChanOk(c, s.chans[c], s.log, s.sender, s.main)
    ensures MessagesOk(WritableStep(s, c, n))
  {
    var t := WritableStep(s, c, n);
    if c !in t.mismatched {
      assert Placed(s.chans[c].msg.value, c, s.chans[c], s.queue, s.main);
      CompleteKeepsDistinct(s, c, n);
      forall id: nat | id < |s.log| && s.log[id].conn !in t.mismatched && s.log[id].conn < |s.chans|
        ensures Placed(id, s.log[id].conn, t.chans[s.log[id].conn], t.queue, t.main)
      {
        CompleteKeepsPlace(s, c, n, id);
      }
    }
  }

  lemma WritableKeepsMessages(s: State, c: nat, n: nat)
    requires WellFormed(s) && MessagesOk(s)
    requires c < |s.chans| && c !in s.mismatched ==> ChanOk(c, s.chans[c], s.log, s.sender, s.main)
    ensures MessagesOk(WritableStep(s, c, n))
  {
    if WritableStep(s, c, n).main != s.main {
      CompleteKeepsMessages(s, c, n);
    } else {
      SameMessagesKeep(s, WritableStep(s, c, n));
    }
  }

  lemma OtherMovesNone(s: State, ev: Event)
    requires WellFormed(s) && !ev.Push? && !ev.Scan? && !ev.Writable?
    ensures SameMessages(s, Apply(s, ev))
  {
    if ev.Count? && ev.k < |s.uncounted| {
      assert s.uncounted[ev.k] in s.uncounted;
    }
  }

  lemma EventKeepsMessages(s: State, ev: Event)
    requires WellFormed(s) && ChansOk(s) && MessagesOk(s)
    ensures MessagesOk(Apply(s, ev))
  {
    match ev
    case Push(k) => PushKeepsMessages(s, k);
    case Scan(n) => ScanKeepsMessages(s, n);
    case Writable(c, n) => WritableKeepsMessages(s, c, n);
    case _ =>
      OtherMovesNone(s, ev);
      SameMessagesKeep(s, Apply(s, ev));
  }
}
