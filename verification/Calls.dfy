/** Whole calls of the main thread and the timer thread, and what they promise when they are not blocked. */
module Calls {
  import opened ConnPool
  import opened Lifecycle
  import opened Invariant
  import opened Lifetime

  // ---------- close_accepted_connection ----------

  /** The main thread closes a live connection that the timer has not marked, and leaves a marked one alone. */
  lemma CloseClosesTheUse(cfg: Config, s: State, c: nat)
    requires Reachable(cfg, s) && s.main == MIdle && At(s.place, c, Open) && !ConnLocked(s, c)
    ensures WellFormed(s) && c < |s.pool.conns| && cfg.listeners <= c
    ensures var u: Use, t := (c, s.pool.conns[c].sequence), CloseBeginStep(cfg, s, c);
      if s.pool.conns[c].isTimeout then t == s
      else
        && t.main == MReleased(c) && t.hist.closes == s.hist.closes + multiset{u} && !LiveUse(t.pool.conns, t.place, u)
        && s.pool.conns[c].fd in s.fds && t.fds == s.fds - {s.pool.conns[c].fd}
  {
    ReachableInv(cfg, s);
    assert ConnOk(s.pool.conns[c], Open);
    assert Holds(s.pool.conns, s.place, c, s.pool.conns[c].fd);
  }

  /** One connection more has been closed, and waits for the recycler. */
  ghost predicate Closed(s: State, t: State, c: nat) {
    && c < |s.pool.conns| == |t.pool.conns| && |s.place| == |t.place| && At(t.place, c, Recycling)
    && t.pool.conns[c] == s.pool.conns[c].(fd := CLOSED, inRecyList := true, inRecyTime := s.now)
    && (forall d | 0 <= d < |s.pool.conns| && d != c :: t.pool.conns[d] == s.pool.conns[d])
    && t.pool.recy == s.pool.recy + [c] && t.pool.recyCount == s.pool.recyCount + 1
    && t.pool.online == s.pool.online - 1 && t.pool.free == s.pool.free
    && t.fds == s.fds - {s.pool.conns[c].fd} && t.now == s.now && t.timer == s.timer
  }

  lemma RunThree(cfg: Config, s: State, a: Event, b: Event, c: Event)
    requires WellFormed(s) && WellFormed(Apply(cfg, s, a)) && WellFormed(Apply(cfg, Apply(cfg, s, a), b))
    ensures Run(cfg, s, [a, b, c]) == Apply(cfg, Apply(cfg, Apply(cfg, s, a), b), c)
  {
    var s1 := Apply(cfg, s, a);
    var s2 := Apply(cfg, s1, b);
    assert [a, b, c][1..] == [b, c] && [b, c][1..] == [c] && [c][1..] == [];
    assert Run(cfg, s2, [c]) == Run(cfg, Apply(cfg, s2, c), []) == Apply(cfg, s2, c);
    assert Run(cfg, s1, [b, c]) == Run(cfg, s2, [c]);
  }

  /** The three parts of the call. */
  ghost function ClosedState(s: State, c: nat): State
    requires WellFormed(s) && c < |s.pool.conns|
  {
    EnqueueUse(ForgetUse(ReleaseUse(s, c), c), c)
  }

  lemma ThreeParts(s: State, c: nat)
    requires WellFormed(s) && c < |s.pool.conns| && !s.pool.conns[c].inRecyList && c !in s.pool.recy
    ensures var t := ClosedState(s, c); Closed(s, t, c) && t.main == s.main && t.tim == s.tim && t.rec == s.rec
  {
  }

  lemma MainThreeSteps(cfg: Config, s: State, c: nat)
    requires WellFormed(s) && s.main == MIdle && s.rec == RIdle && cfg.listeners <= c < |s.pool.conns|
    requires s.pool.conns[c].fd != CLOSED && !s.pool.conns[c].isTimeout && !ConnLocked(s, c)
    ensures var s1 := CloseBeginStep(cfg, s, c);
      && s1 == ReleaseUse(s, c).(main := MReleased(c)) && WellFormed(s1)
      && var s2 := CloseClearStep(s1);
      && s2 == ForgetUse(s1, c).(main := MClosing(c)) && WellFormed(s2)
      && CloseEndStep(s2) == ClosedState(s, c).(main := MIdle)
  {
  }

  lemma CloseRun(cfg: Config, s: State, c: nat)
    requires WellFormed(s) && s.main == MIdle && s.rec == RIdle && cfg.listeners <= c < |s.pool.conns|
    requires s.pool.conns[c].fd != CLOSED && !s.pool.conns[c].isTimeout && !ConnLocked(s, c)
    requires !s.pool.conns[c].inRecyList && c !in s.pool.recy
    ensures var t := Run(cfg, s, [CloseBegin(c), CloseClear, CloseEnd]);
      t.main == MIdle && t.tim == s.tim && Closed(s, t, c)
  {
    MainThreeSteps(cfg, s, c);
    RunThree(cfg, s, CloseBegin(c), CloseClear, CloseEnd);
    ThreeParts(s, c);
  }

  /** The whole call, while the recycler is idle. */
  lemma CloseCall(cfg: Config, s: State, c: nat)
    requires Reachable(cfg, s) && s.main == MIdle && At(s.place, c, Open) && !ConnLocked(s, c) && s.rec == RIdle
    ensures c < |s.pool.conns|
    ensures !s.pool.conns[c].isTimeout ==>
              var t := Run(cfg, s, [CloseBegin(c), CloseClear, CloseEnd]);
              t.main == MIdle && t.tim == s.tim && Closed(s, t, c)
  {
    OpenIsUnlisted(cfg, s, c);
    if !s.pool.conns[c].isTimeout {
      CloseRun(cfg, s, c);
    }
  }

  lemma OpenIsUnlisted(cfg: Config, s: State, c: nat)
    requires Reachable(cfg, s) && At(s.place, c, Open)
    ensures WellFormed(s) && cfg.listeners <= c < |s.pool.conns| && c !in s.pool.recy
    ensures s.pool.conns[c].fd > 0 && !s.pool.conns[c].inRecyList
  {
    ReachableInv(cfg, s);
    assert ConnOk(s.pool.conns[c], Open);
  }

  lemma KickThreeSteps(cfg: Config, s: State, c: nat)
    requires WellFormed(s) && s.tim.TKick? && s.tim.e.conn == c && s.rec == RIdle && c < |s.pool.conns|
    requires s.pool.conns[c].fd != CLOSED && !ConnLocked(s, c)
    ensures var s1 := TimKickStep(s);
      && s1 == ReleaseUse(s, c).(tim := s1.tim, hist := s1.hist) && s1.tim == TReleased(s.tim.cur, s.tim.e, s.tim.todo)
      && WellFormed(s1) && s1.hist.closedAt == ReleaseUse(s, c).hist.closedAt
      && var s2 := TimClearStep(s1);
      && s2 == ForgetUse(s1, c).(tim := TClosing(s.tim.cur, s.tim.e, s.tim.todo)) && WellFormed(s2)
      && var t := TimEndStep(s2);
        t == ClosedState(s, c).(tim := TExam(s.tim.cur, s.tim.todo), hist := t.hist)
  {
    assert s.tim.e in Exam(s.tim);
  }

  lemma KickRun(cfg: Config, s: State, c: nat)
    requires WellFormed(s) && s.tim.TKick? && s.tim.e.conn == c && s.rec == RIdle && c < |s.pool.conns|
    requires s.pool.conns[c].fd != CLOSED && !ConnLocked(s, c) && !s.pool.conns[c].inRecyList && c !in s.pool.recy
    ensures var t := Run(cfg, s, [TimKick, TimClear, TimEnd]);
      t.tim == TExam(s.tim.cur, s.tim.todo) && t.main == s.main && Closed(s, t, c)
  {
    KickThreeSteps(cfg, s, c);
    RunThree(cfg, s, TimKick, TimClear, TimEnd);
    ThreeParts(s, c);
  }

  /** The same call of the timer thread, for the connection that it has marked. */
  lemma KickCall(cfg: Config, s: State)
    requires Reachable(cfg, s) && s.tim.TKick? && s.rec == RIdle
    ensures var t := Run(cfg, s, [TimKick, TimClear, TimEnd]);
      t.tim == TExam(s.tim.cur, s.tim.todo) && t.main == s.main && Closed(s, t, s.tim.e.conn)
  {
    KickClosesTheMarkedUse(cfg, s);
    OpenIsUnlisted(cfg, s, s.tim.e.conn);
    KickRun(cfg, s, s.tim.e.conn);
  }

  // ---------- Accepting ----------

  /** A connection is accepted exactly below the limit, and goes on exactly if the pool is not both large and
      short of free objects; otherwise its descriptor is closed. */
  lemma AdmissionIff(cfg: Config, s: State, connfd: int)
    requires Reachable(cfg, s)
    ensures s.main == MIdle && connfd > 0 && connfd !in s.fds ==>
              (AcceptOnlineStep(cfg, s, connfd).main == MAdmitted(connfd) <==>
                 OpenCount(s.place) < cfg.workers)
    ensures s.main.MAdmitted? ==>
              var t := AcceptSizesStep(cfg, s);
              && s.main.connfd in s.fds
              && (if |s.pool.conns| > 5 * cfg.workers && |s.pool.free| < cfg.workers then
                    t.main == MIdle && t.fds == s.fds - {s.main.connfd}
                  else t.main == MSized(s.main.connfd) && t.fds == s.fds)
  {
    ReachableInv(cfg, s);
  }

  /** When EPOLL_CTL_ADD fails the new connection is closed at once and its object is the last free one. */
  lemma FailedRegistration(cfg: Config, s: State)
    requires Reachable(cfg, s) && s.main.MOpened?
    ensures WellFormed(s)
    ensures var c, t := s.main.c, AcceptEpollStep(s, false);
      && t.main == MIdle && At(t.place, c, Free) && t.pool.free == s.pool.free + [c]
      && c < |s.pool.conns| == |t.pool.conns| && s.pool.conns[c].fd in s.fds
      && t.fds == s.fds - {s.pool.conns[c].fd} && t.pool.online == s.pool.online
      && t.pool.conns[c] == s.pool.conns[c].(fd := CLOSED, sequence := s.pool.conns[c].sequence + 1)
  {
    ReachableInv(cfg, s);
    assert !ConnLocked(s, s.main.c);
    assert Holds(s.pool.conns, s.place, s.main.c, s.pool.conns[s.main.c].fd);
  }

  // ---------- The free queue ----------

  /** What one event does to the free queue. */
  predicate QueueStep(before: seq<nat>, after: seq<nat>, m: MainPc) {
    || after == before
    || (before != [] && after == before[1..] && m.MGot? && m.c == before[0])
    || (after != [] && after == before + [after[|after| - 1]])
  }

  lemma MainQueueStep(cfg: Config, s: State, ev: Event)
    requires WellFormed(s) && (IsAdmission(ev) || IsOpening(ev) || IsRegistration(ev) || IsClosing(ev))
    ensures QueueStep(s.pool.free, Apply(cfg, s, ev).pool.free, Apply(cfg, s, ev).main)
  {
  }

  lemma EventQueueStep(cfg: Config, s: State, ev: Event)
    requires WellFormed(s)
    ensures QueueStep(s.pool.free, Apply(cfg, s, ev).pool.free, Apply(cfg, s, ev).main)
  {
    if IsAdmission(ev) || IsOpening(ev) || IsRegistration(ev) || IsClosing(ev) {
      MainQueueStep(cfg, s, ev);
    }
  }

  /** First in, first out: after any run the free queue is what it was and what was added since, without what
      was handed out, which was at the front. */
  lemma {:induction false} FreeQueueIsFifo(cfg: Config, s: State, evs: seq<Event>) returns (added: seq<nat>, gone: nat)
    requires Inv(cfg, s)
    ensures gone <= |s.pool.free + added| && Run(cfg, s, evs).pool.free == (s.pool.free + added)[gone..]
    decreases |evs|
  {
    if evs == [] {
      added, gone := [], 0;
      assert s.pool.free + [] == s.pool.free;
    } else {
      InvWellFormed(cfg, s);
      var t := Apply(cfg, s, evs[0]);
      EventQueueStep(cfg, s, evs[0]);
      EventKeepsInv(cfg, s, evs[0]);
      added, gone := FreeQueueIsFifo(cfg, t, evs[1..]);
      added, gone := OneStepEarlier(s.pool.free, t.pool.free, t.main, added, gone);
    }
  }

  lemma OneStepEarlier(before: seq<nat>, after: seq<nat>, m: MainPc, added: seq<nat>, gone: nat)
    returns (added2: seq<nat>, gone2: nat)
    requires QueueStep(before, after, m) && gone <= |after + added|
    ensures gone2 <= |before + added2| && (before + added2)[gone2..] == (after + added)[gone..]
  {
    if after == before {
      added2, gone2 := added, gone;
    } else if before != [] && after == before[1..] {
      added2, gone2 := added, gone + 1;
      assert before + added == [before[0]] + (after + added);
    } else {
      added2, gone2 := [after[|after| - 1]] + added, gone;
      assert before + added2 == after + added;
    }
  }
}
