/** Every event of SendPath keeps QueuedOk and MasksOk of SendSafety. */
module SendCounts {
  import opened SendPath
  import opened SendSafety
  import opened SendLists
  import SendScan

  lemma WithoutOne<T>(q: seq<T>, k: nat)
    requires k < |q|
    ensures multiset(q) == multiset(Without(q, k)) + multiset{q[k]}
  {
    assert q == q[..k] + [q[k]] + q[k + 1..];
  }

  lemma PushKeepsQueued(s: State, k: nat)
    requires WellFormed(s) && QueuedOk(s)
    ensures QueuedOk(PushStep(s, k))
  {
    var t := PushStep(s, k);
    if t.log != s.log {
      forall c: nat | c < |t.chans|
        ensures t.chans[c].queued == |InList(t.queue, t.log, c)| - multiset(t.uncounted)[c]
      {
        InListConcat(s.queue, [|s.log|], t.log, c);
        InListOne(|s.log|, t.log, c);
        InListGrows(s.queue, s.log, s.jobs[k], c);
      }
    }
  }

  lemma CountKeepsQueued(s: State, k: nat)
    requires WellFormed(s) && QueuedOk(s)
    ensures QueuedOk(CountStep(s, k))
  {
    if k < |s.uncounted| {
      assert s.uncounted[k] in s.uncounted;
      WithoutOne(s.uncounted, k);
    }
  }

  lemma TakeKeepsQueued(s: State, n: nat, c: nat)
    requires WellFormed(s) && QueuedOk(s) && ScanStep(s, n).queue != s.queue && c < |s.chans|
    ensures var t := ScanStep(s, n);
      && |t.chans| == |s.chans|
      && t.chans[c].queued == |InList(t.queue, t.log, c)| - multiset(t.uncounted)[c]
  {
    SendScan.TakeFacts(s, n);
    InListSplit(s.queue, s.sender.i, s.log, c);
    InListOne(s.queue[s.sender.i], s.log, c);
  }

  lemma ScanKeepsQueued(s: State, n: nat)
    requires WellFormed(s) && QueuedOk(s)
    ensures QueuedOk(ScanStep(s, n))
  {
    var t := ScanStep(s, n);
    if t.queue != s.queue {
      forall c: nat | c < |s.chans|
        ensures |t.chans| == |s.chans|
        ensures t.chans[c].queued == |InList(t.queue, t.log, c)| - multiset(t.uncounted)[c]
      {
        TakeKeepsQueued(s, n, c);
      }
      SendScan.TakeFacts(s, n);
    } else {
      SkipChangesNoChannel(s, n);
    }
  }

  lemma SkipChangesNoChannel(s: State, n: nat)
    requires WellFormed(s) && ScanStep(s, n).queue == s.queue
    ensures var t := ScanStep(s, n); t.chans == s.chans && t.log == s.log && t.uncounted == s.uncounted
  {
    if s.sender.SScan? && s.sender.i < |s.queue| {
      assert |Without(s.queue, s.sender.i)| < |s.queue|;
    }
  }

  lemma SameQueued(s: State, t: State)
    requires QueuedOk(s) && t.queue == s.queue && t.log == s.log && t.uncounted == s.uncounted
    requires |t.chans| == |s.chans| && forall c: nat | c < |s.chans| :: t.chans[c].queued == s.chans[c].queued
    ensures QueuedOk(t)
  {
  }

  lemma ThreadKeepsQueued(s: State, ev: Event)
    requires WellFormed(s) && QueuedOk(s) && (ev.Announce? || ev.Post? || ev.Wake? || ev.Check? || ev.Arm?)
    ensures QueuedOk(Apply(s, ev))
  {
    SameQueued(s, Apply(s, ev));
  }

  lemma HandlerKeepsQueued(s: State, ev: Event)
    requires WellFormed(s) && QueuedOk(s) && (ev.Writable? || ev.Unarm? || ev.PostDone? || ev.Clear?)
    ensures QueuedOk(Apply(s, ev))
  {
    SameQueued(s, Apply(s, ev));
  }

  lemma EventKeepsQueued(s: State, ev: Event)
    requires WellFormed(s) && QueuedOk(s)
    ensures QueuedOk(Apply(s, ev))
  {
    match ev
    case Push(k) => PushKeepsQueued(s, k);
    case Count(k) => CountKeepsQueued(s, k);
    case Scan(n) => ScanKeepsQueued(s, n);
    case Announce(_) => ThreadKeepsQueued(s, ev);
    case Post => ThreadKeepsQueued(s, ev);
    case Wake => ThreadKeepsQueued(s, ev);
    case Check => ThreadKeepsQueued(s, ev);
    case Arm => ThreadKeepsQueued(s, ev);
    case _ => HandlerKeepsQueued(s, ev);
  }

  lemma MaskChanges(mask: set<Flag>)
    requires mask - {EpollOut} == {EpollIn, EpollRdHup}
    ensures MaskAfter(mask, {EpollOut}, Add) - {EpollOut} == {EpollIn, EpollRdHup}
    ensures MaskAfter(mask, {EpollOut}, Remove) - {EpollOut} == {EpollIn, EpollRdHup}
  {
    assert mask + {EpollOut} - {EpollOut} == mask - {EpollOut};
    assert mask - {EpollOut} - {EpollOut} == mask - {EpollOut};
  }

  lemma SameMasks(s: State, ev: Event)
    requires WellFormed(s) && !ev.Arm? && !ev.Unarm?
    ensures var t := Apply(s, ev);
      |t.chans| == |s.chans| && forall c: nat | c < |s.chans| :: t.chans[c].events == s.chans[c].events
  {
    if ev.Count? && ev.k < |s.uncounted| {
      assert s.uncounted[ev.k] in s.uncounted;
    }
    if ev.Scan? && ScanStep(s, ev.n).queue != s.queue {
      SendScan.TakeFacts(s, ev.n);
    }
  }

  lemma EventKeepsMasks(s: State, ev: Event)
    requires WellFormed(s) && MasksOk(s)
    ensures MasksOk(Apply(s, ev))
  {
    if ev.Arm? && s.sender.SArm? {
      MaskChanges(s.chans[s.sender.c].events);
    } else if ev.Unarm? && s.main.WUnarm? {
      MaskChanges(s.chans[s.main.c].events);
    } else if !ev.Arm? && !ev.Unarm? {
      SameMasks(s, ev);
    }
  }
}
