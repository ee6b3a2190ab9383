/** What a ping is worth: the timer does not mark a connection that has pinged within three waiting times. */
module Pinging {
  import opened Lifecycle
  import opened Invariant
  import opened Lifetime
  import KeepPings
  import KeepPlaces
  import KeepUses

  /** A worker handles a ping of connection `c`, or the main thread puts its new connection into the timer. */
  predicate Refreshes(cfg: Config, s: State, ev: Event, c: nat) {
    || (ev == Ping(c) && cfg.listeners <= c < |s.pool.conns| && !ConnLocked(s, c))
    || (ev == AcceptStamp && s.main == MRegistered(c) && c < |s.pool.conns| && cfg.timeEnable)
  }

  /** The time is set to now, and no other connection is touched. */
  lemma RefreshSetsTime(cfg: Config, s: State, ev: Event, c: nat)
    requires WellFormed(s) && Refreshes(cfg, s, ev, c)
    ensures var t := Apply(cfg, s, ev);
      && |t.pool.conns| == |s.pool.conns| && t.place == s.place && t.now == s.now
      && t.pool.conns[c] == s.pool.conns[c].(pingUpdateTime := s.now)
      && forall d | 0 <= d < |s.pool.conns| && d != c :: t.pool.conns[d] == s.pool.conns[d]
  {
  }

  /** A live use was pinged at `time` or later. */
  predicate PingedSince(s: State, u: Use, time: int) {
    LiveUse(s.pool.conns, s.place, u) ==> s.pool.conns[u.0].pingUpdateTime >= time
  }

  lemma PingedFollows(cfg: Config, s: State, t: State, u: Use, time: int)
    requires UsesKept(cfg, s) && UsesKept(cfg, t) && u in s.hist.uses && PingedSince(s, u, time)
    requires s.hist.uses <= t.hist.uses && s.hist.closes <= t.hist.closes && KeepPings.Pinged(s, t)
    ensures PingedSince(t, u, time)
  {
    assert s.hist.closes[u] <= t.hist.closes[u];
  }

  lemma EventKeepsPinged(cfg: Config, s: State, u: Use, time: int, ev: Event)
    requires Inv(cfg, s) && WellFormed(s) && u in s.hist.uses && PingedSince(s, u, time)
    ensures u in Apply(cfg, s, ev).hist.uses && PingedSince(Apply(cfg, s, ev), u, time)
  {
    RecordsGrow(cfg, s, ev);
    KeepUses.EventKeeps(cfg, s, ev);
    KeepPings.EventKeeps(cfg, s, ev);
    PingedFollows(cfg, s, Apply(cfg, s, ev), u, time);
  }

  lemma {:induction false} RunKeepsPinged(cfg: Config, s: State, u: Use, time: int, evs: seq<Event>)
    requires Inv(cfg, s) && u in s.hist.uses && PingedSince(s, u, time)
    ensures PingedSince(Run(cfg, s, evs), u, time)
    decreases |evs|
  {
    if evs != [] {
      InvWellFormed(cfg, s);
      EventKeepsPinged(cfg, s, u, time, evs[0]);
      EventKeepsInv(cfg, s, evs[0]);
      RunKeepsPinged(cfg, Apply(cfg, s, evs[0]), u, time, evs[1..]);
    }
  }

  lemma MarkIsLive(cfg: Config, t: State)
    requires Inv(cfg, t) && WellFormed(t) && t.tim.TExam? && TimCheckStep(cfg, t).tim.TMarked?
    ensures var u := t.tim.todo[0].Pair();
      && LiveUse(t.pool.conns, t.place, u) && t.tim.cur - t.pool.conns[u.0].pingUpdateTime > 3 * cfg.wait
      && t.tim.cur <= t.now
  {
    var e := t.tim.todo[0];
    assert e in Exam(t.tim);
    ExamEntered(t, e);
    KeepPlaces.MarkedIsLive(cfg, t, e);
  }

  lemma MarkNeedsTime(cfg: Config, t: State, u: Use, time: int)
    requires Inv(cfg, t) && WellFormed(t) && PingedSince(t, u, time)
    requires t.tim.TExam? && TimCheckStep(cfg, t).tim.TMarked? && t.tim.todo[0].Pair() == u
    ensures t.now - time >= t.tim.cur - time > 3 * cfg.wait
  {
    MarkIsLive(cfg, t);
  }

  lemma RefreshStarts(cfg: Config, s: State, ev: Event, u: Use)
    requires Reachable(cfg, s) && LiveUse(s.pool.conns, s.place, u)
    ensures Inv(cfg, s) && WellFormed(s) && u in s.hist.uses
    ensures Refreshes(cfg, s, ev, u.0) ==>
              var r := Apply(cfg, s, ev); u in r.hist.uses && PingedSince(r, u, s.now)
  {
    ReachableInv(cfg, s);
    if Refreshes(cfg, s, ev, u.0) {
      RefreshSetsTime(cfg, s, ev, u.0);
      RecordsGrow(cfg, s, ev);
    }
  }

  /** In every run: if a live use is refreshed now, then a later check marks it only when more than three
      waiting times have passed since. */
  lemma RefreshedIsNotMarked(cfg: Config, s: State, ev: Event, u: Use, evs: seq<Event>)
    requires Reachable(cfg, s) && LiveUse(s.pool.conns, s.place, u) && Refreshes(cfg, s, ev, u.0)
    ensures WellFormed(s)
    ensures var t := Run(cfg, Apply(cfg, s, ev), evs);
      WellFormed(t) && (t.tim.TExam? && TimCheckStep(cfg, t).tim.TMarked? && t.tim.todo[0].Pair() == u ==>
                          t.now - s.now >= t.tim.cur - s.now > 3 * cfg.wait)
  {
    RefreshStarts(cfg, s, ev, u);
    EventKeepsInv(cfg, s, ev);
    RefreshedRun(cfg, Apply(cfg, s, ev), u, s.now, evs);
  }

  lemma RefreshedRun(cfg: Config, r: State, u: Use, time: int, evs: seq<Event>)
    requires Inv(cfg, r) && u in r.hist.uses && PingedSince(r, u, time)
    ensures var t := Run(cfg, r, evs);
      WellFormed(t) && (t.tim.TExam? && TimCheckStep(cfg, t).tim.TMarked? && t.tim.todo[0].Pair() == u ==>
                          t.now - time >= t.tim.cur - time > 3 * cfg.wait)
  {
    var t := Run(cfg, r, evs);
    RunKeepsPinged(cfg, r, u, time, evs);
    RunKeepsInv(cfg, r, evs);
    InvWellFormed(cfg, t);
    if t.tim.TExam? && TimCheckStep(cfg, t).tim.TMarked? && t.tim.todo[0].Pair() == u {
      MarkNeedsTime(cfg, t, u, time);
    }
  }
}
