/** Every event of SendPath keeps OrderOk, and with it the whole invariant of SendSafety. */
module SendOrder {
  import opened SendPath
  import opened SendSafety
  import opened SendLists
  import SendCounts
  import SendKeeps
  import SendScan

  // ---------- Ascending sequences ----------

  lemma AppendAscending(q: seq<nat>, x: nat)
    requires forall y | y in q :: y < x
    ensures Ascending(q + [x]) <==> Ascending(q)
  {
    forall k | 0 <= k < |q| ensures q[k] < x {
      assert q[k] in q;
    }
    if Ascending(q + [x]) {
      forall j, k | 0 <= j < k < |q| ensures q[j] < q[k] {
        assert (q + [x])[j] < (q + [x])[k];
      }
    }
  }

  /** Moving an element forward in an ascending part breaks the order, and cannot mend it. */
  lemma MoveForward(p: seq<nat>, a: seq<nat>, x: nat, b: seq<nat>)
    requires Ascending(a + [x] + b)
    ensures Ascending(p + [x] + (a + b)) <==> Ascending(p + (a + [x] + b)) && a == []
  {
    var line := p + [x] + (a + b);
    if a == [] {
      assert line == p + (a + [x] + b);
    } else {
      assert (a + [x] + b)[0] == a[0] && (a + [x] + b)[|a|] == x;
      assert line[|p|] == x && line[|p| + 1] == a[0];
    }
  }

  // ---------- The steps ----------

  /** A new message stands at the end of its connection's line. */
  lemma PushKeepsOrder(s: State, k: nat, c: nat)
    requires WellFormed(s) && c < |s.chans| && ChanOk(c, s.chans[c], s.log, s.sender, s.main)
    ensures InOrder(PushStep(s, k), c) <==> InOrder(s, c)
  {
    var t, ch := PushStep(s, k), s.chans[c];
    if t.log != s.log {
      InListConcat(s.queue, [|s.log|], t.log, c);
      InListOne(|s.log|, t.log, c);
      InListGrows(s.queue, s.log, s.jobs[k], c);
      LineBound(s, c);
      var line := Line(c, ch, s.log, s.queue, s.main);
      AppendAscending(line, |s.log|);
      assert Line(c, ch, t.log, t.queue, t.main) == if s.jobs[k].conn == c then line + [|s.log|] else line;
    }
  }

  /** All messages in a line are in the log. */
  lemma LineBound(s: State, c: nat)
    requires WellFormed(s) && c < |s.chans| && ChanOk(c, s.chans[c], s.log, s.sender, s.main)
    ensures forall id | id in Line(c, s.chans[c], s.log, s.queue, s.main) :: id < |s.log|
  {
    InListMembers(s.queue, s.log, c);
  }

  lemma LineOfUnowned(s: State, c: nat)
    requires c < |s.chans| && s.chans[c].msg.None?
    ensures InOrder(s, c) <==> Ascending(s.chans[c].sent + InList(s.queue, s.log, c))
  {
    assert s.chans[c].sent + [] == s.chans[c].sent;
  }

  /** Taking a message of `c` moves it to the front of those in the list. */
  lemma TakeMoves(s: State, n: nat, c: nat)
    requires WellFormed(s) && ScanStep(s, n).queue != s.queue && s.queue[s.sender.i] < |s.log|
    requires s.log[s.queue[s.sender.i]].conn == c < |s.chans| && c !in ScanStep(s, n).mismatched
    requires s.chans[c].msg.None? && !Completing(s.main, c)
    ensures InOrder(ScanStep(s, n), c)
       <==> Ascending(s.chans[c].sent + [s.queue[s.sender.i]] + InList(Without(s.queue, s.sender.i), s.log, c))
  {
    var t := ScanStep(s, n);
    assert t.queue == Without(s.queue, s.sender.i) && t.log == s.log && t.main == s.main;
    assert t.chans[c].sent + InWork(c, t.chans[c], t.main) == s.chans[c].sent + [s.queue[s.sender.i]];
  }

  /** That keeps the order exactly if no message of `c` stands in front of it. */
  lemma MovedIffFirst(sent: seq<nat>, queue: seq<nat>, i: nat, log: seq<Msg>, c: nat)
    requires Ascending(queue) && i < |queue| && queue[i] < |log| && log[queue[i]].conn == c
    ensures Ascending(sent + [queue[i]] + InList(Without(queue, i), log, c))
       <==> Ascending(sent + InList(queue, log, c)) && !Passed(log, queue, i, c)
  {
    InListSplit(queue, i, log, c);
    InListOne(queue[i], log, c);
    InListAscending(queue, log, c);
    MoveForward(sent, InList(queue[..i], log, c), queue[i], InList(queue[i + 1..], log, c));
    FrontIffPassed(queue, i, log, c);
  }

  lemma TakeKeepsOrder(s: State, n: nat, c: nat)
    requires WellFormed(s) && ScanStep(s, n).queue != s.queue && s.queue[s.sender.i] < |s.log|
    requires s.log[s.queue[s.sender.i]].conn == c < |s.chans| && c !in ScanStep(s, n).mismatched
    requires s.chans[c].msg.None? && !Completing(s.main, c) && Ascending(s.queue)
    ensures InOrder(ScanStep(s, n), c) <==> InOrder(s, c) && !Passed(s.log, s.queue, s.sender.i, c)
  {
    LineOfUnowned(s, c);
    TakeMoves(s, n, c);
    MovedIffFirst(s.chans[c].sent, s.queue, s.sender.i, s.log, c);
  }

  /** A scan leaves the fields of other connections alone. */
  lemma TakeTouchesOne(s: State, n: nat, c: nat)
    requires WellFormed(s) && ScanStep(s, n).queue != s.queue && s.queue[s.sender.i] < |s.log|
    requires s.log[s.queue[s.sender.i]].conn < |s.chans| && c < |s.chans| && s.log[s.queue[s.sender.i]].conn != c
    ensures var t := ScanStep(s, n);
      && |t.chans| == |s.chans| && t.chans[c] == s.chans[c] && t.log == s.log && t.main == s.main
      && t.queue == Without(s.queue, s.sender.i)
  {
  }

  lemma InListOther(queue: seq<nat>, i: nat, log: seq<Msg>, c: nat)
    requires i < |queue| && queue[i] < |log| && log[queue[i]].conn != c
    ensures InList(Without(queue, i), log, c) == InList(queue, log, c)
  {
    InListSplit(queue, i, log, c);
    InListOne(queue[i], log, c);
    assert InList(queue[..i], log, c) + [] == InList(queue[..i], log, c);
  }

  /** The lines of other connections stay as they are. */
  lemma TakeKeepsOtherLines(s: State, n: nat, c: nat)
    requires WellFormed(s) && ScanStep(s, n).queue != s.queue && s.queue[s.sender.i] < |s.log|
    requires s.log[s.queue[s.sender.i]].conn < |s.chans| && c < |s.chans| && s.log[s.queue[s.sender.i]].conn != c
    ensures InOrder(ScanStep(s, n), c) <==> InOrder(s, c)
  {
    TakeTouchesOne(s, n, c);
    InListOther(s.queue, s.sender.i, s.log, c);
  }

  /** A turn that takes nothing. */
  lemma SkipKeepsOrder(s: State, n: nat, c: nat)
    requires WellFormed(s) && c < |s.chans| && ScanStep(s, n).queue == s.queue
    ensures InOrder(ScanStep(s, n), c) <==> InOrder(s, c)
    ensures !Overtakes(s, Scan(n), c)
  {
    if s.sender.SScan? && s.sender.i < |s.queue| {
      assert s.queue[s.sender.i] in s.queue && s.log[s.queue[s.sender.i]] in s.log;
      assert |Without(s.queue, s.sender.i)| < |s.queue|;
    }
  }

  lemma ScanKeepsOrder(s: State, n: nat, c: nat)
    requires WellFormed(s) && c < |s.chans| && c !in ScanStep(s, n).mismatched && Ascending(s.queue) && ScanOk(s)
    requires ChanOk(c, s.chans[c], s.log, s.sender, s.main)
    ensures InOrder(ScanStep(s, n), c) <==> InOrder(s, c) && !Overtakes(s, Scan(n), c)
  {
    if ScanStep(s, n).queue == s.queue {
      SkipKeepsOrder(s, n, c);
    } else {
      SendScan.TakeFacts(s, n);
      if s.log[s.queue[s.sender.i]].conn == c {
        TakeKeepsOrder(s, n, c);
      } else {
        TakeKeepsOtherLines(s, n, c);
      }
    }
  }

  /** A completed packet goes from the middle of its line to the sent part, in the same place. */
  lemma WritableKeepsOrder(s: State, w: nat, n: nat, c: nat)
    requires WellFormed(s) && c < |s.chans| && c !in WritableStep(s, w, n).mismatched
    ensures InOrder(WritableStep(s, w, n), c) <==> InOrder(s, c)
  {
    var t := WritableStep(s, w, n);
    if c != w {
      assert t.chans[c] == s.chans[c] && Completing(t.main, c) == Completing(s.main, c);
    } else if t.main != s.main {
      assert t.chans[c].sent + [] == s.chans[c].sent + InWork(c, s.chans[c], s.main);
    }
  }

  lemma OtherKeepsOrder(s: State, ev: Event, c: nat)
    requires WellFormed(s) && c < |s.chans| && !ev.Push? && !ev.Scan? && !ev.Writable?
    requires c !in Apply(s, ev).mismatched
    ensures SendKeeps.SameMessages(s, Apply(s, ev)) && (InOrder(Apply(s, ev), c) <==> InOrder(s, c))
  {
    SendKeeps.OtherMovesNone(s, ev);
    var t := Apply(s, ev);
    assert InWork(c, t.chans[c], t.main) == InWork(c, s.chans[c], s.main);
  }

  lemma EventSameChans(s: State, ev: Event)
    requires WellFormed(s)
    ensures |Apply(s, ev).chans| == |s.chans| && s.mismatched <= Apply(s, ev).mismatched
  {
    if ev.Count? && ev.k < |s.uncounted| {
      assert s.uncounted[ev.k] in s.uncounted;
    }
    if s.sender.SScan? && s.sender.i < |s.queue| {
      assert s.queue[s.sender.i] in s.queue && s.log[s.queue[s.sender.i]] in s.log;
    }
  }

  /** A step keeps the messages of a connection in order exactly if they were in order and it is not a scan
      that starts one of them after passing over another: order that is lost stays lost. */
  lemma OrderKeptIff(s: State, ev: Event, c: nat)
    requires Inv(s) && c < |s.chans| && c !in Apply(s, ev).mismatched
    ensures |Apply(s, ev).chans| == |s.chans|
    ensures InOrder(Apply(s, ev), c) <==> InOrder(s, c) && !Overtakes(s, ev, c)
  {
    EventSameChans(s, ev);
    assert ChanOk(c, s.chans[c], s.log, s.sender, s.main);
    match ev
    case Push(k) => PushKeepsOrder(s, k, c);
    case Scan(n) => ScanKeepsOrder(s, n, c);
    case Writable(w, n) => WritableKeepsOrder(s, w, n, c);
    case _ => OtherKeepsOrder(s, ev, c);
  }

  lemma ScanHistory(s: State, n: nat)
    requires WellFormed(s) && ScanOk(s) && s.overtaken <= s.raced
    ensures var t := ScanStep(s, n);
      && (forall c: nat | c < |s.chans| :: c in t.overtaken <==> c in s.overtaken || Overtakes(s, Scan(n), c))
      && t.raced == s.raced && t.overtaken <= t.raced
  {
    if ScanStep(s, n).queue != s.queue {
      SendScan.TakeFacts(s, n);
    } else {
      forall c: nat | c < |s.chans| ensures !Overtakes(s, Scan(n), c) {
        SkipKeepsOrder(s, n, c);
      }
    }
  }

  /** The history says which connections were overtaken. */
  lemma HistoryGrows(s: State, ev: Event)
    requires WellFormed(s) && ScanOk(s) && s.overtaken <= s.raced
    ensures forall c: nat | c < |s.chans| :: c in Apply(s, ev).overtaken <==> c in s.overtaken || Overtakes(s, ev, c)
    ensures Apply(s, ev).overtaken <= Apply(s, ev).raced
  {
    if ev.Scan? {
      ScanHistory(s, ev.n);
    } else {
      assert Apply(s, ev).overtaken == s.overtaken && s.raced <= Apply(s, ev).raced;
    }
  }

  lemma EventKeepsOrder(s: State, ev: Event)
    requires Inv(s)
    ensures OrderOk(Apply(s, ev))
  {
    var t := Apply(s, ev);
    EventSameChans(s, ev);
    HistoryGrows(s, ev);
    forall c: nat | c < |t.chans| && c !in t.mismatched ensures InOrder(t, c) <==> c !in t.overtaken {
      OrderKeptIff(s, ev, c);
    }
  }

  lemma EventKeepsInv(s: State, ev: Event)
    requires Inv(s)
    ensures Inv(Apply(s, ev))
  {
    SendScan.EventKeepsWell(s, ev);
    SendKeeps.EventKeepsChans(s, ev);
    SendKeeps.EventKeepsMessages(s, ev);
    EventKeepsOrder(s, ev);
    SendScan.EventKeepsScan(s, ev);
    SendScan.EventKeepsLengths(s, ev);
    SendScan.EventKeepsWake(s, ev);
    SendCounts.EventKeepsQueued(s, ev);
    SendCounts.EventKeepsMasks(s, ev);
  }

  lemma InitialOrder(n: nat)
    ensures OrderOk(Initial(n))
  {
    forall c: nat | c < n ensures InOrder(Initial(n), c) {
      assert Line(c, NEW_CHANNEL, [], [], WIdle) == [];
    }
  }

  lemma InitialChans(n: nat)
    ensures ChansOk(Initial(n))
  {
    forall c: nat | c < n ensures ChanOk(c, NEW_CHANNEL, [], SAsleep, WIdle) {
      assert NEW_CHANNEL.sent == [] && NEW_CHANNEL.wire == [];
    }
  }

  lemma InitialRest(n: nat)
    ensures WellFormed(Initial(n)) && MessagesOk(Initial(n)) && ScanOk(Initial(n))
    ensures LengthsOk(Initial(n)) && WakeOk(Initial(n)) && QueuedOk(Initial(n)) && MasksOk(Initial(n))
  {
  }

  lemma InitialInv(n: nat)
    ensures Inv(Initial(n))
  {
    InitialOrder(n);
    InitialChans(n);
    InitialRest(n);
  }

  lemma {:induction false} RunKeepsInv(s: State, evs: seq<Event>)
    requires Inv(s)
    ensures Inv(Run(s, evs))
    decreases |evs|
  {
    if evs != [] {
      EventKeepsInv(s, evs[0]);
      RunKeepsInv(Apply(s, evs[0]), evs[1..]);
    }
  }
}
