/** Every event of SendPath keeps ScanOk, LengthsOk and WakeOk of SendSafety. */
module SendScan {
  import opened SendPath
  import opened SendSafety

  // ---------- The scan ----------

  lemma PassedStays(log: seq<Msg>, queue: seq<nat>, log2: seq<Msg>, queue2: seq<nat>, i: nat, c: nat)
    requires i <= |queue| && i <= |queue2| && queue2[..i] == queue[..i] && log <= log2
    requires forall j | 0 <= j < i :: queue[j] < |log|
    ensures Passed(log2, queue2, i, c) <==> Passed(log, queue, i, c)
  {
    forall j | 0 <= j < i ensures queue2[j] == queue[j] {
      assert queue2[..i][j] == queue[..i][j];
    }
  }

  lemma PassedNext(log: seq<Msg>, queue: seq<nat>, i: nat, c: nat)
    requires i < |queue| && queue[i] < |log|
    ensures Passed(log, queue, i + 1, c) <==> Passed(log, queue, i, c) || log[queue[i]].conn == c
  {
  }

  /** A connection that has a half-sent packet is passed over. */
  lemma SkipKeepsScan(s: State, n: nat)
    requires WellFormed(s) && ScanOk(s) && s.sender.SScan? && s.sender.i < |s.queue| && s.queue[s.sender.i] < |s.log|
    requires ScanStep(s, n).queue == s.queue
    ensures ScanOk(ScanStep(s, n))
  {
    forall c: nat ensures Passed(s.log, s.queue, s.sender.i + 1, c)
      <==> Passed(s.log, s.queue, s.sender.i, c) || s.log[s.queue[s.sender.i]].conn == c
    {
      PassedNext(s.log, s.queue, s.sender.i, c);
    }
  }

  lemma TakeKeepsScan(s: State, n: nat)
    requires WellFormed(s) && ScanOk(s) && ScanStep(s, n).queue != s.queue
    ensures ScanOk(ScanStep(s, n))
  {
    var i, t := s.sender.i, ScanStep(s, n);
    assert t.queue == Without(s.queue, i) && t.queue[..i] == s.queue[..i];
    forall j | 0 <= j < i ensures s.queue[j] < |s.log| {
      assert s.queue[j] in s.queue;
    }
    forall c: nat ensures Passed(t.log, t.queue, i, c) <==> Passed(s.log, s.queue, i, c) {
      PassedStays(s.log, s.queue, t.log, t.queue, i, c);
    }
  }

  lemma ScanKeepsScan(s: State, n: nat)
    requires WellFormed(s) && ScanOk(s)
    ensures ScanOk(ScanStep(s, n))
  {
    if ScanStep(s, n).queue != s.queue {
      TakeKeepsScan(s, n);
    } else if s.sender.SScan? && s.sender.i < |s.queue| {
      assert s.queue[s.sender.i] in s.queue;
      SkipKeepsScan(s, n);
    }
  }

  lemma PushKeepsScan(s: State, k: nat)
    requires ScanOk(s) && WellFormed(s)
    ensures ScanOk(PushStep(s, k))
  {
  }

  lemma CheckKeepsScan(s: State)
    requires ScanOk(s)
    ensures ScanOk(CheckStep(s))
  {
  }

  /** Neither the list nor the scan changes, and no packet ends. */
  lemma ScanStays(s: State, t: State)
    requires ScanOk(s) && t.log == s.log && t.queue == s.queue && s.raced <= t.raced && |t.chans| == |s.chans|
    requires t.leaked == s.leaked
    requires Scanning(t.sender) ==>
               Scanning(s.sender) && t.sender.i == s.sender.i && t.sender.skipped == s.sender.skipped
    requires forall c: nat | c < |s.chans| && t.chans[c].throwing == 0 ::
               s.chans[c].throwing == 0 || !ScanSkipped(s.sender, c) || c in t.raced
    ensures ScanOk(t)
  {
  }

  lemma WorkerKeepsScan(s: State, ev: Event)
    requires WellFormed(s) && ScanOk(s) && (ev.Announce? || ev.Count? || ev.Post? || ev.Wake?)
    ensures ScanOk(Apply(s, ev))
  {
    if ev.Count? && ev.k < |s.uncounted| {
      assert s.uncounted[ev.k] in s.uncounted;
    }
    ScanStays(s, Apply(s, ev));
  }

  lemma HandlerKeepsScan(s: State, ev: Event)
    requires WellFormed(s) && ScanOk(s) && (ev.Arm? || ev.Writable? || ev.Unarm? || ev.PostDone? || ev.Clear?)
    ensures ScanOk(Apply(s, ev))
  {
    ScanStays(s, Apply(s, ev));
  }

  // ---------- Lengths ----------

  lemma {:induction false} LastLengthUniform(announced: seq<Msg>, m: Msg)
    requires Uniform(announced) && m in announced
    ensures LastLength(announced, m.conn) == |m.data|
    decreases |announced|
  {
    var last, before := announced[|announced| - 1], announced[..|announced| - 1];
    assert announced == before + [last];
    if last.conn != m.conn {
      assert Uniform(before) by {
        assert forall x | x in before :: x in announced;
      }
      LastLengthUniform(before, m);
    }
  }

  lemma AnnounceKeepsLengths(s: State, m: Msg)
    requires WellFormed(s) && LengthsOk(s)
    ensures LengthsOk(AnnounceStep(s, m))
  {
    var t := AnnounceStep(s, m);
    if t != s {
      assert t.announced[..|s.announced|] == s.announced;
      if Uniform(t.announced) {
        assert forall x | x in s.announced :: x in t.announced;
        assert Uniform(s.announced);
      }
    }
  }

  lemma ScanKeepsLengths(s: State, n: nat)
    requires WellFormed(s) && LengthsOk(s)
    ensures LengthsOk(ScanStep(s, n))
  {
    var t := ScanStep(s, n);
    if t.queue != s.queue {
      var id := s.queue[s.sender.i];
      assert id in s.queue && s.log[id] in s.log;
      if Uniform(s.announced) {
        LastLengthUniform(s.announced, s.log[id]);
      }
    }
  }

  lemma WritableKeepsLengths(s: State, c: nat, n: nat)
    requires WellFormed(s) && ChansOk(s) && LengthsOk(s)
    ensures LengthsOk(WritableStep(s, c, n))
  {
    var t := WritableStep(s, c, n);
    if t != s && Uniform(s.announced) {
      assert ChanOk(c, s.chans[c], s.log, s.sender, s.main);
      assert s.log[s.chans[c].msg.value] in s.log;
      LastLengthUniform(s.announced, s.log[s.chans[c].msg.value]);
    }
  }

  lemma OtherKeepsLengths(s: State, ev: Event)
    requires WellFormed(s) && LengthsOk(s) && !ev.Announce? && !ev.Scan? && !ev.Writable?
    ensures LengthsOk(Apply(s, ev))
  {
    if ev.Count? && ev.k < |s.uncounted| {
      assert s.uncounted[ev.k] in s.uncounted;
    }
    if ev.Push? && ev.k < |s.jobs| {
      assert s.jobs[ev.k] in s.jobs;
      assert forall m | m in Without(s.jobs, ev.k) :: m in s.jobs;
    }
  }

  // ---------- Wake-ups ----------

  /** Nothing that matters to a queued message gets worse. */
  lemma RememberedStays(s: State, t: State)
    requires WellFormed(s) && WakeOk(s) && |t.chans| == |s.chans| && t.log == s.log && t.queue == s.queue
    requires WakePending(s) ==> WakePending(t)
    requires Scanning(s.sender) ==> Scanning(t.sender) && t.sender.i == s.sender.i
    requires s.sender.SDead? ==> t.sender.SDead?
    requires s.missed <= t.missed
    requires forall c: nat | c < |s.chans| && s.chans[c].throwing > 0 && s.main != WClear(c) ::
               t.chans[c].throwing > 0 && t.main != WClear(c)
    ensures forall k: nat | k < |t.queue| :: Remembered(t, k)
  {
    forall k: nat | k < |t.queue| ensures Remembered(t, k) {
      assert Remembered(s, k);
    }
  }

  lemma WorkerKeepsWake(s: State, ev: Event)
    requires WellFormed(s) && WakeOk(s) && (ev.Announce? || ev.Count? || ev.Post?)
    ensures WakeOk(Apply(s, ev))
  {
    if ev.Count? && ev.k < |s.uncounted| {
      assert s.uncounted[ev.k] in s.uncounted;
    }
    RememberedStays(s, Apply(s, ev));
  }

  lemma PushKeepsWake(s: State, k: nat)
    requires WellFormed(s) && WakeOk(s)
    ensures WakeOk(PushStep(s, k))
  {
    var t := PushStep(s, k);
    if t.queue == s.queue {
      RememberedStays(s, t);
    } else {
      assert WakePending(t);
    }
  }

  lemma WakeKeepsWake(s: State, ev: Event)
    requires WellFormed(s) && WakeOk(s) && (ev.Wake? || ev.Check?)
    ensures WakeOk(Apply(s, ev))
  {
    var t := Apply(s, ev);
    if Scanning(t.sender) || WakePending(t) || t == s {
      forall k: nat | k < |t.queue| ensures Remembered(t, k) {
        assert Remembered(s, k);
      }
    } else {
      assert s.queue == [];
    }
  }

  lemma SkipKeepsWake(s: State, n: nat)
    requires WellFormed(s) && WakeOk(s) && s.sender.SScan? && ScanStep(s, n).queue == s.queue
    ensures WakeOk(ScanStep(s, n))
  {
    var i, t := s.sender.i, ScanStep(s, n);
    forall k: nat | k < |t.queue| ensures Remembered(t, k) {
      assert Remembered(s, k);
      assert s.queue[k] in s.queue && s.log[s.queue[k]] in s.log;
    }
  }

  /** Message k of the new list stood at the same place of the old one, or one further. */
  lemma TakeKeepsRemembered(s: State, n: nat, k: nat)
    requires WellFormed(s) && WakeOk(s) && ScanStep(s, n).queue != s.queue && k < |ScanStep(s, n).queue|
    ensures Remembered(ScanStep(s, n), k)
  {
    var t, before := ScanStep(s, n), if k < s.sender.i then k else k + 1;
    TakeFacts(s, n);
    assert t.queue[k] == s.queue[before];
    assert Remembered(s, before);
    assert s.queue[before] in s.queue && s.log[s.queue[before]] in s.log;
  }

  lemma TakeFacts(s: State, n: nat)
    requires WellFormed(s) && ScanStep(s, n).queue != s.queue
    ensures s.sender.SScan? && s.sender.i < |s.queue| && s.queue[s.sender.i] < |s.log|
    ensures var m, t := s.log[s.queue[s.sender.i]], ScanStep(s, n);
      && m.conn < |s.chans| && s.chans[m.conn].throwing == 0 && n <= |m.data|
      && t.queue == Without(s.queue, s.sender.i) && t.log == s.log && t.main == s.main
  {
    assert s.queue[s.sender.i] in s.queue && s.log[s.queue[s.sender.i]] in s.log;
  }

  lemma TakeKeepsMissed(s: State, n: nat, c: nat)
    requires WellFormed(s) && WakeOk(s) && ScanStep(s, n).queue != s.queue
    requires c in ScanStep(s, n).missed && c < |s.chans| && s.main != WClear(c)
    ensures |ScanStep(s, n).chans| == |s.chans| && ScanStep(s, n).chans[c].throwing == 0
  {
    TakeFacts(s, n);
  }

  lemma TakeKeepsWake(s: State, n: nat)
    requires WellFormed(s) && WakeOk(s) && ScanStep(s, n).queue != s.queue
    ensures WakeOk(ScanStep(s, n))
  {
    var t := ScanStep(s, n);
    TakeFacts(s, n);
    forall k: nat | k < |t.queue| ensures Remembered(t, k) {
      TakeKeepsRemembered(s, n, k);
    }
    forall c: nat | c in t.missed && c < |t.chans| && t.main != WClear(c) ensures t.chans[c].throwing == 0 {
      TakeKeepsMissed(s, n, c);
    }
  }

  lemma OtherKeepsWake(s: State, ev: Event)
    requires WellFormed(s) && WakeOk(s) && (ev.Arm? || ev.Writable? || ev.Unarm? || ev.PostDone? || ev.Clear?)
    ensures WakeOk(Apply(s, ev))
  {
    var t := Apply(s, ev);
    if ev.PostDone? && t != s {
      assert WakePending(t);
    } else {
      RememberedStays(s, t);
    }
  }

  // ---------- Together ----------

  lemma WithoutSubset<T>(q: seq<T>, k: nat)
    requires k < |q|
    ensures q[k] in q && forall x | x in Without(q, k) :: x in q
  {
  }

  lemma AnnounceKeepsWell(s: State, m: Msg)
    requires WellFormed(s)
    ensures WellFormed(AnnounceStep(s, m))
  {
  }

  lemma PushKeepsWell(s: State, k: nat)
    requires WellFormed(s)
    ensures WellFormed(PushStep(s, k))
  {
    if k < |s.jobs| {
      WithoutSubset(s.jobs, k);
    }
  }

  lemma CountKeepsWell(s: State, k: nat)
    requires WellFormed(s)
    ensures WellFormed(CountStep(s, k))
  {
    if k < |s.uncounted| {
      WithoutSubset(s.uncounted, k);
    }
  }

  lemma ScanKeepsWell(s: State, n: nat)
    requires WellFormed(s)
    ensures WellFormed(ScanStep(s, n))
  {
    if ScanStep(s, n).queue != s.queue {
      TakeFacts(s, n);
      WithoutSubset(s.queue, s.sender.i);
    }
  }

  lemma OtherKeepsWell(s: State, ev: Event)
    requires WellFormed(s) && !ev.Announce? && !ev.Push? && !ev.Count? && !ev.Scan?
    ensures WellFormed(Apply(s, ev))
  {
  }

  lemma ScanKeepsWake(s: State, n: nat)
    requires WellFormed(s) && WakeOk(s)
    ensures WakeOk(ScanStep(s, n))
  {
    if ScanStep(s, n).queue != s.queue {
      TakeKeepsWake(s, n);
    } else if s.sender.SScan? {
      SkipKeepsWake(s, n);
    }
  }

  lemma EventKeepsWell(s: State, ev: Event)
    requires WellFormed(s)
    ensures WellFormed(Apply(s, ev))
  {
    match ev
    case Announce(m) => AnnounceKeepsWell(s, m);
    case Push(k) => PushKeepsWell(s, k);
    case Count(k) => CountKeepsWell(s, k);
    case Scan(n) => ScanKeepsWell(s, n);
    case _ => OtherKeepsWell(s, ev);
  }

  lemma EventKeepsScan(s: State, ev: Event)
    requires WellFormed(s) && ScanOk(s)
    ensures ScanOk(Apply(s, ev))
  {
    match ev
    case Push(k) => PushKeepsScan(s, k);
    case Check => CheckKeepsScan(s);
    case Scan(n) => ScanKeepsScan(s, n);
    case Announce(_) => WorkerKeepsScan(s, ev);
    case Count(_) => WorkerKeepsScan(s, ev);
    case Post => WorkerKeepsScan(s, ev);
    case Wake => WorkerKeepsScan(s, ev);
    case _ => HandlerKeepsScan(s, ev);
  }

  lemma EventKeepsLengths(s: State, ev: Event)
    requires WellFormed(s) && ChansOk(s) && LengthsOk(s)
    ensures LengthsOk(Apply(s, ev))
  {
    match ev
    case Announce(m) => AnnounceKeepsLengths(s, m);
    case Scan(n) => ScanKeepsLengths(s, n);
    case Writable(c, n) => WritableKeepsLengths(s, c, n);
    case _ => OtherKeepsLengths(s, ev);
  }

  lemma EventKeepsWake(s: State, ev: Event)
    requires WellFormed(s) && WakeOk(s)
    ensures WakeOk(Apply(s, ev))
  {
    match ev
    case Announce(_) => WorkerKeepsWake(s, ev);
    case Count(_) => WorkerKeepsWake(s, ev);
    case Post => WorkerKeepsWake(s, ev);
    case Push(k) => PushKeepsWake(s, k);
    case Wake => WakeKeepsWake(s, ev);
    case Check => WakeKeepsWake(s, ev);
    case Scan(n) => ScanKeepsWake(s, n);
    case _ => OtherKeepsWake(s, ev);
  }
}
