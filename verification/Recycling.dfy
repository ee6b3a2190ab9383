/** The recycler's pass: what it keeps, what it frees, and that the steps of the recycler thread make it. */
module Recycling {
  import opened ConnPool
  import opened Lifecycle
  import Lifetime

  // ---------- The pass on values ----------

  /** Entry k has been in the list for longer than the delay at the k-th reading of the clock. */
  predicate Expired(conns: seq<Conn>, recy: seq<nat>, k: nat, delay: int, clock: seq<int>)
    requires k < |recy| == |clock| && recy[k] < |conns|
  {
    conns[recy[k]].inRecyTime + delay < clock[k]
  }

  predicate InRange(conns: seq<Conn>, recy: seq<nat>) {
    forall k | 0 <= k < |recy| :: recy[k] < |conns|
  }

  /** The entries that have expired, or those that have not, in order. */
  function Entries(conns: seq<Conn>, recy: seq<nat>, delay: int, clock: seq<int>, expired: bool): seq<nat>
    requires |recy| == |clock| && InRange(conns, recy)
    decreases |recy|
  {
    if recy == [] then []
    else
      (if Expired(conns, recy, 0, delay, clock) == expired then [recy[0]] else [])
      + Entries(conns, recy[1..], delay, clock[1..], expired)
  }

  predicate Distinct(q: seq<nat>) {
    forall j, k | 0 <= j < k < |q| :: q[j] != q[k]
  }

  lemma {:induction false} EntriesIff(conns: seq<Conn>, recy: seq<nat>, delay: int, clock: seq<int>, expired: bool,
                                      k: nat)
    requires |recy| == |clock| && InRange(conns, recy) && Distinct(recy) && k < |recy|
    ensures recy[k] in Entries(conns, recy, delay, clock, expired)
       <==> Expired(conns, recy, k, delay, clock) == expired
    decreases |recy|
  {
    EntriesFromList(conns, recy[1..], delay, clock[1..], expired);
    if k > 0 {
      EntriesIff(conns, recy[1..], delay, clock[1..], expired, k - 1);
      assert recy[1..][k - 1] == recy[k];
    }
  }

  lemma {:induction false} EntriesFromList(conns: seq<Conn>, recy: seq<nat>, delay: int, clock: seq<int>, expired: bool)
    requires |recy| == |clock| && InRange(conns, recy)
    ensures forall c | c in Entries(conns, recy, delay, clock, expired) :: c in recy
    decreases |recy|
  {
    if recy != [] {
      EntriesFromList(conns, recy[1..], delay, clock[1..], expired);
    }
  }

  /** Only the times matter. */
  lemma {:induction false} SameEntries(conns: seq<Conn>, conns2: seq<Conn>, recy: seq<nat>, delay: int,
                                       clock: seq<int>, expired: bool)
    requires |recy| == |clock| && InRange(conns, recy) && |conns2| == |conns|
    requires forall c | 0 <= c < |conns| :: conns2[c].inRecyTime == conns[c].inRecyTime
    ensures Entries(conns2, recy, delay, clock, expired) == Entries(conns, recy, delay, clock, expired)
    decreases |recy|
  {
    if recy != [] {
      SameEntries(conns, conns2, recy[1..], delay, clock[1..], expired);
    }
  }

  /** From entry i on: the expired entries leave the list and go to the end of the free queue in order, each
      with the next number; the others stay in order; the counters follow. */
  ghost predicate Passed(p: Pool, i: nat, delay: int, clock: seq<int>, q: Pool)
    requires p.InRange() && i <= |p.recy| && |clock| == |p.recy| - i
  {
    var rest := p.recy[i..];
    var gone := Entries(p.conns, rest, delay, clock, true);
    && q.recy == p.recy[..i] + Entries(p.conns, rest, delay, clock, false) && q.free == p.free + gone
    && q.recyCount == p.recyCount - |gone| && q.freeCount == p.freeCount + |gone|
    && q.total == p.total && q.online == p.online && |q.conns| == |p.conns|
    && (forall c | 0 <= c < |p.conns| ::
          q.conns[c] == if c in gone then p.conns[c].(sequence := p.conns[c].sequence + 1) else p.conns[c])
  }

  lemma PassedOverOne(p: Pool, i: nat, delay: int, clock: seq<int>, q: Pool)
    requires p.InRange() && i < |p.recy| && |clock| == |p.recy| - i
    requires p.conns[p.recy[i]].inRecyTime + delay >= clock[0] && Passed(p, i + 1, delay, clock[1..], q)
    ensures Passed(p, i, delay, clock, q)
  {
    var rest := p.recy[i..];
    assert rest[1..] == p.recy[i + 1..];
    assert p.recy[..i + 1] == p.recy[..i] + [p.recy[i]];
    var stay := Entries(p.conns, p.recy[i + 1..], delay, clock[1..], false);
    assert p.recy[..i] + [p.recy[i]] + stay == p.recy[..i] + ([p.recy[i]] + stay);
  }

  /** What is left to pass after entry i has been freed. */
  lemma FreedEntries(p: Pool, i: nat, delay: int, clock: seq<int>)
    requires p.InRange() && i < |p.recy| && |clock| == |p.recy| - i && Distinct(p.recy)
    requires p.conns[p.recy[i]].inRecyTime + delay < clock[0]
    ensures var c, p2 := p.recy[i], FreeItem(TakeRecycled(p, i), p.recy[i]);
      && p2.InRange() && Distinct(p2.recy) && p2.recy[..i] == p.recy[..i] && |p2.recy| == |p.recy| - 1
      && Entries(p.conns, p.recy[i..], delay, clock, true)
         == [c] + Entries(p2.conns, p2.recy[i..], delay, clock[1..], true)
      && Entries(p.conns, p.recy[i..], delay, clock, false)
         == Entries(p2.conns, p2.recy[i..], delay, clock[1..], false)
      && c !in Entries(p2.conns, p2.recy[i..], delay, clock[1..], true)
  {
    var p2 := FreeItem(TakeRecycled(p, i), p.recy[i]);
    var rest := p.recy[i + 1..];
    assert p2.recy[i..] == rest && p.recy[i..][1..] == rest;
    SameEntries(p.conns, p2.conns, rest, delay, clock[1..], true);
    SameEntries(p.conns, p2.conns, rest, delay, clock[1..], false);
    EntriesFromList(p2.conns, rest, delay, clock[1..], true);
    assert p.recy[i] !in rest;
  }

  lemma FreedOne(p: Pool, i: nat, delay: int, clock: seq<int>, q: Pool)
    requires p.InRange() && i < |p.recy| && |clock| == |p.recy| - i && Distinct(p.recy)
    requires p.conns[p.recy[i]].inRecyTime + delay < clock[0]
    requires var p2 := FreeItem(TakeRecycled(p, i), p.recy[i]); p2.InRange() && Passed(p2, i, delay, clock[1..], q)
    ensures Passed(p, i, delay, clock, q)
  {
    FreedEntries(p, i, delay, clock);
    var p2 := FreeItem(TakeRecycled(p, i), p.recy[i]);
    var gone := Entries(p2.conns, p2.recy[i..], delay, clock[1..], true);
    assert p.free + [p.recy[i]] + gone == p.free + ([p.recy[i]] + gone);
  }

  lemma {:induction false} PassIs(p: Pool, i: nat, delay: int, clock: seq<int>)
    requires p.InRange() && i <= |p.recy| && |clock| == |p.recy| - i && Distinct(p.recy)
    ensures Passed(p, i, delay, clock, RecyclePass(p, i, delay, clock))
    decreases |clock|
  {
    if clock == [] {
      assert p.recy[i..] == [] && p.recy[..i] + [] == p.recy && p.free + [] == p.free;
    } else if p.conns[p.recy[i]].inRecyTime + delay < clock[0] {
      var p2 := FreeItem(TakeRecycled(p, i), p.recy[i]);
      PassIs(p2, i, delay, clock[1..]);
      FreedOne(p, i, delay, clock, RecyclePass(p, i, delay, clock));
    } else {
      PassIs(p, i + 1, delay, clock[1..]);
      PassedOverOne(p, i, delay, clock, RecyclePass(p, i, delay, clock));
    }
  }

  // ---------- The steps of the recycler make the pass ----------

  function Readings(n: nat, now: int): seq<int> {
    seq(n, _ => now)
  }

  lemma RunCons(cfg: Config, s: State, ev: Event, evs: seq<Event>)
    requires WellFormed(s)
    ensures Run(cfg, s, [ev] + evs) == Run(cfg, Apply(cfg, s, ev), evs)
  {
    assert ([ev] + evs)[1..] == evs;
  }

  /** Nothing else changes. */
  predicate SameThreads(s: State, t: State) {
    t.now == s.now && t.main == s.main && t.tim == s.tim && t.timer == s.timer && t.fds == s.fds
  }

  lemma PassEnds(cfg: Config, s: State)
    requires WellFormed(s) && s.rec.RPass? && s.rec.i == |s.pool.recy|
    ensures var t := RecyStepStep(cfg, s);
      && WellFormed(t) && t.rec == RIdle && SameThreads(s, t) && t.pool == s.pool
      && t.pool == RecyclePass(s.pool, s.rec.i, cfg.delay, Readings(0, s.now))
  {
    assert Readings(0, s.now) == [];
  }

  lemma PassGoesOn(cfg: Config, s: State)
    requires WellFormed(s) && s.rec.RPass? && s.rec.i < |s.pool.recy|
    requires !RecycleDue(s.pool.conns[s.pool.recy[s.rec.i]], cfg.delay, s.now)
    ensures var t, n := RecyStepStep(cfg, s), |s.pool.recy| - s.rec.i;
      && WellFormed(t) && t.rec == RPass(s.rec.i + 1, s.rec.began) && SameThreads(s, t) && t.pool == s.pool
      && RecyclePass(s.pool, s.rec.i, cfg.delay, Readings(n, s.now))
         == RecyclePass(t.pool, t.rec.i, cfg.delay, Readings(n - 1, t.now))
  {
    var n := |s.pool.recy| - s.rec.i;
    assert Readings(n, s.now)[1..] == Readings(n - 1, s.now);
  }

  /** The next entry is taken and freed. */
  lemma PassFrees(cfg: Config, s: State)
    requires WellFormed(s) && s.rec.RPass? && s.rec.i < |s.pool.recy|
    requires RecycleDue(s.pool.conns[s.pool.recy[s.rec.i]], cfg.delay, s.now)
    ensures var t1, n := RecyStepStep(cfg, s), |s.pool.recy| - s.rec.i;
      && WellFormed(t1)
      && var t := RecyFreeStep(t1);
      && WellFormed(t) && t.rec == s.rec && SameThreads(s, t) && |t.pool.recy| == |s.pool.recy| - 1
      && RecyclePass(s.pool, s.rec.i, cfg.delay, Readings(n, s.now))
         == RecyclePass(t.pool, t.rec.i, cfg.delay, Readings(n - 1, t.now))
  {
    var n := |s.pool.recy| - s.rec.i;
    assert Readings(n, s.now)[1..] == Readings(n - 1, s.now);
  }

  /** The events make the rest of the pass. */
  ghost predicate RunsPass(cfg: Config, s: State, evs: seq<Event>) {
    && WellFormed(s) && s.rec.RPass?
    && var t := Run(cfg, s, evs);
      && t.rec == RIdle && SameThreads(s, t)
      && t.pool == RecyclePass(s.pool, s.rec.i, cfg.delay, Readings(|s.pool.recy| - s.rec.i, s.now))
  }

  lemma EndRuns(cfg: Config, s: State)
    requires WellFormed(s) && s.rec.RPass? && s.rec.i == |s.pool.recy|
    ensures RunsPass(cfg, s, [RecyStep] + [])
  {
    PassEnds(cfg, s);
    RunCons(cfg, s, RecyStep, []);
  }

  lemma GoesOnRuns(cfg: Config, s: State, evs: seq<Event>)
    requires WellFormed(s) && s.rec.RPass? && s.rec.i < |s.pool.recy|
    requires !RecycleDue(s.pool.conns[s.pool.recy[s.rec.i]], cfg.delay, s.now)
    requires RunsPass(cfg, RecyStepStep(cfg, s), evs)
    ensures RunsPass(cfg, s, [RecyStep] + evs)
  {
    PassGoesOn(cfg, s);
    RunCons(cfg, s, RecyStep, evs);
  }

  lemma FreesRuns(cfg: Config, s: State, evs: seq<Event>)
    requires WellFormed(s) && s.rec.RPass? && s.rec.i < |s.pool.recy|
    requires RecycleDue(s.pool.conns[s.pool.recy[s.rec.i]], cfg.delay, s.now)
    requires WellFormed(RecyStepStep(cfg, s)) && RunsPass(cfg, RecyFreeStep(RecyStepStep(cfg, s)), evs)
    ensures RunsPass(cfg, s, [RecyStep] + ([RecyFree] + evs))
  {
    PassFrees(cfg, s);
    RunCons(cfg, RecyStepStep(cfg, s), RecyFree, evs);
    RunCons(cfg, s, RecyStep, [RecyFree] + evs);
  }

  /** When the other threads do not run, the rest of a pass is the pass on values. */
  lemma {:induction false} PassRuns(cfg: Config, s: State) returns (evs: seq<Event>)
    requires WellFormed(s) && s.rec.RPass?
    ensures RunsPass(cfg, s, evs)
    decreases |s.pool.recy| - s.rec.i
  {
    if s.rec.i == |s.pool.recy| {
      EndRuns(cfg, s);
      evs := [RecyStep] + [];
    } else if RecycleDue(s.pool.conns[s.pool.recy[s.rec.i]], cfg.delay, s.now) {
      PassFrees(cfg, s);
      evs := PassRuns(cfg, RecyFreeStep(RecyStepStep(cfg, s)));
      FreesRuns(cfg, s, evs);
      evs := [RecyStep] + ([RecyFree] + evs);
    } else {
      PassGoesOn(cfg, s);
      evs := PassRuns(cfg, RecyStepStep(cfg, s));
      GoesOnRuns(cfg, s, evs);
      evs := [RecyStep] + evs;
    }
  }

  lemma ListIsDistinct(cfg: Config, s: State)
    requires Lifetime.Reachable(cfg, s)
    ensures WellFormed(s) && s.pool.recyCount == |s.pool.recy| && Distinct(s.pool.recy)
  {
    Lifetime.ReachableInv(cfg, s);
  }

  lemma WholePass(cfg: Config, s: State) returns (evs: seq<Event>)
    requires WellFormed(s) && s.rec == RIdle && s.pool.recyCount > 0
    ensures var t := Run(cfg, s, evs);
      && t.rec == RIdle && SameThreads(s, t)
      && t.pool == RecyclePass(s.pool, 0, cfg.delay, Readings(|s.pool.recy|, s.now))
  {
    evs := PassRuns(cfg, RecyStartStep(s));
    RunCons(cfg, s, RecyStart, evs);
    evs := [RecyStart] + evs;
  }

  /** From any reachable state in which the recycler is idle and its list is not empty: it starts a pass, and
      the pass frees exactly what has expired. */
  lemma RecyclerPasses(cfg: Config, s: State) returns (evs: seq<Event>)
    requires Lifetime.Reachable(cfg, s) && s.rec == RIdle && s.pool.recy != []
    ensures var t := Run(cfg, s, evs);
      && t.rec == RIdle && SameThreads(s, t) && s.pool.InRange()
      && Passed(s.pool, 0, cfg.delay, Readings(|s.pool.recy|, s.now), t.pool)
  {
    ListIsDistinct(cfg, s);
    evs := WholePass(cfg, s);
    PassIs(s.pool, 0, cfg.delay, Readings(|s.pool.recy|, s.now));
  }
}
