/** What the timer relies on: a use that was entered stays entered, and never becomes live again. */
module KeepEntered {
  import opened ConnPool
  import opened Lifecycle
  import opened Invariant

  /** What was entered stays entered, and a use that is over does not become live again. */
  ghost predicate Grows(s: State, t: State) {
    forall u: Use | Entered(s.pool.conns, s.place, s.main, s.hist.uses, u) ::
      && Entered(t.pool.conns, t.place, t.main, t.hist.uses, u)
      && (Judgeable(t.pool.conns, t.place, u) ==> Judgeable(s.pool.conns, s.place, u))
  }

  /** The main thread has a new use that has no timer entry yet. */
  predicate HasNew(m: MainPc) {
    Opened(m) || m.MBumped? || m.MCleared?
  }

  /** No place and no sequence number changes. */
  lemma StayGrows(s: State, t: State)
    requires |t.pool.conns| == |s.pool.conns| == |s.place| && t.place == s.place && s.hist.uses <= t.hist.uses
    requires forall c | 0 <= c < |s.pool.conns| :: t.pool.conns[c].sequence == s.pool.conns[c].sequence
    requires HasNew(t.main) ==> HasNew(s.main) && t.main.c == s.main.c
    ensures Grows(s, t)
  {
  }

  /** Object c leaves its place, and is not open afterwards. */
  lemma LeaveGrows(s: State, t: State, c: nat)
    requires |t.pool.conns| == |s.pool.conns| == |s.place| == |t.place| && s.hist.uses <= t.hist.uses
    requires forall d | 0 <= d < |s.place| && d != c :: t.place[d] == s.place[d]
    requires forall d | 0 <= d < |s.place| && d != c :: t.pool.conns[d].sequence == s.pool.conns[d].sequence
    requires c < |s.place| && t.place[c] != Open
    requires HasNew(t.main) ==> HasNew(s.main) && t.main.c == s.main.c != c
    ensures Grows(s, t)
  {
  }

  // ---------- The steps ----------

  lemma ReuseGrows(s: State, junk: Conn)
    requires WellFormed(s) && s.main.MSized? && s.pool.free != []
    ensures Grows(s, AcceptGetStep(s, junk))
  {
    LeaveGrows(s, AcceptGetStep(s, junk), s.pool.free[0]);
  }

  lemma CreateGrows(listeners: nat, s: State, junk: Conn)
    requires WellFormed(s) && s.main.MSized? && s.pool.free == []
    requires UsesOk(listeners, s.pool.conns, s.place, s.hist.uses)
    ensures Grows(s, AcceptGetStep(s, junk))
  {
  }

  lemma AdmissionStepsKeep(cfg: Config, s: State, ev: Event)
    requires WellFormed(s) && UsesOk(cfg.listeners, s.pool.conns, s.place, s.hist.uses) && IsAdmission(ev)
    ensures Grows(s, Apply(cfg, s, ev))
  {
    if !ev.AcceptGet? || !s.main.MSized? {
      StayGrows(s, Apply(cfg, s, ev));
    } else if s.pool.free != [] {
      ReuseGrows(s, ev.junk);
    } else {
      CreateGrows(cfg.listeners, s, ev.junk);
    }
  }

  lemma OpeningStepsKeep(cfg: Config, s: State, ev: Event)
    requires WellFormed(s) && MainOk(cfg.listeners, s.pool.conns, s.place, s.main)
    requires UsesOk(cfg.listeners, s.pool.conns, s.place, s.hist.uses) && IsOpening(ev)
    ensures Grows(s, Apply(cfg, s, ev))
  {
  }

  lemma AcceptEpollKeeps(cfg: Config, s: State, ok: bool)
    requires WellFormed(s)
    ensures Grows(s, AcceptEpollStep(s, ok))
  {
    var t := AcceptEpollStep(s, ok);
    if s.main.MOpened? && t.main == MIdle {
      LeaveGrows(s, t, s.main.c);
    } else {
      StayGrows(s, t);
    }
  }

  lemma AcceptInsertKeeps(cfg: Config, s: State)
    requires WellFormed(s)
    ensures Grows(s, AcceptInsertStep(cfg, s))
  {
    StayGrows(s, AcceptInsertStep(cfg, s));
  }

  lemma RegistrationStepsKeep(cfg: Config, s: State, ev: Event)
    requires WellFormed(s) && IsRegistration(ev)
    ensures Grows(s, Apply(cfg, s, ev))
  {
    if ev.AcceptEpoll? {
      AcceptEpollKeeps(cfg, s, ev.ok);
    } else {
      StayGrows(s, Apply(cfg, s, ev));
    }
  }

  lemma ClosingStepsKeep(cfg: Config, s: State, ev: Event)
    requires WellFormed(s) && IsClosing(ev)
    ensures Grows(s, Apply(cfg, s, ev))
  {
    var t := Apply(cfg, s, ev);
    if t.place == s.place {
      StayGrows(s, t);
    } else {
      LeaveGrows(s, t, if ev.CloseBegin? then ev.c else s.main.c);
    }
  }

  lemma RecyStepKeeps(cfg: Config, s: State)
    requires WellFormed(s) && Places(cfg, s)
    ensures Grows(s, RecyStepStep(cfg, s))
  {
    var t := RecyStepStep(cfg, s);
    if s.rec.RPass? && t.rec.RHold? {
      assert s.place[s.pool.recy[s.rec.i]] == Recycling;
      LeaveGrows(s, t, s.pool.recy[s.rec.i]);
    } else {
      StayGrows(s, t);
    }
  }

  lemma RecyclingStepsKeep(cfg: Config, s: State, ev: Event)
    requires WellFormed(s) && Places(cfg, s) && IsRecycling(ev)
    ensures Grows(s, Apply(cfg, s, ev))
  {
    if ev.RecyStep? {
      RecyStepKeeps(cfg, s);
    } else if ev.RecyFree? && s.rec.RHold? {
      LeaveGrows(s, RecyFreeStep(s), s.rec.c);
    } else {
      StayGrows(s, Apply(cfg, s, ev));
    }
  }

  lemma TimCheckKeeps(cfg: Config, s: State)
    requires WellFormed(s)
    ensures Grows(s, TimCheckStep(cfg, s))
  {
    StayGrows(s, TimCheckStep(cfg, s));
  }

  lemma ExaminationStepsKeep(cfg: Config, s: State, ev: Event)
    requires WellFormed(s) && IsExamination(ev)
    ensures Grows(s, Apply(cfg, s, ev))
  {
    StayGrows(s, Apply(cfg, s, ev));
  }

  lemma KickingStepsKeep(cfg: Config, s: State, ev: Event)
    requires WellFormed(s) && Threads(cfg, s) && IsKicking(ev)
    ensures Grows(s, Apply(cfg, s, ev))
  {
    var t := Apply(cfg, s, ev);
    if t.place == s.place {
      StayGrows(s, t);
    } else {
      LeaveGrows(s, t, s.tim.e.conn);
    }
  }

  lemma OtherStepsKeep(cfg: Config, s: State, ev: Event)
    requires WellFormed(s) && IsOther(ev)
    ensures Grows(s, Apply(cfg, s, ev))
  {
    StayGrows(s, Apply(cfg, s, ev));
  }

  lemma EventKeeps(cfg: Config, s: State, ev: Event)
    requires WellFormed(s) && Places(cfg, s) && UsesKept(cfg, s)
    ensures Grows(s, Apply(cfg, s, ev))
  {
    if IsAdmission(ev) {
      AdmissionStepsKeep(cfg, s, ev);
    } else if IsOpening(ev) {
      OpeningStepsKeep(cfg, s, ev);
    } else if IsRegistration(ev) {
      RegistrationStepsKeep(cfg, s, ev);
    } else if IsClosing(ev) {
      ClosingStepsKeep(cfg, s, ev);
    } else if IsRecycling(ev) {
      RecyclingStepsKeep(cfg, s, ev);
    } else if IsExamination(ev) {
      ExaminationStepsKeep(cfg, s, ev);
    } else if IsKicking(ev) {
      KickingStepsKeep(cfg, s, ev);
    } else {
      OtherStepsKeep(cfg, s, ev);
    }
  }
}
