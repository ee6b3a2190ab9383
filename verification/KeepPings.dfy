/** Every event keeps PingsOk, and ping times of open connections only move forward. */
module KeepPings {
  import opened Lifecycle
  import opened Invariant

  /** The ping time of a live connection only moves forward. */
  predicate Pinged(s: State, t: State) {
    && |s.place| == |s.pool.conns| <= |t.pool.conns|
    && (forall c | 0 <= c < |s.place| && s.place[c] == Open ::
          s.pool.conns[c].pingUpdateTime <= t.pool.conns[c].pingUpdateTime)
  }

  // ---------- The steps ----------

  lemma AdmissionStepsKeep(cfg: Config, s: State, ev: Event)
    requires WellFormed(s) && PingsOk(s.pool.conns, s.place, s.main, s.now) && IsAdmission(ev)
    ensures var t := Apply(cfg, s, ev); PingsOk(t.pool.conns, t.place, t.main, t.now) && Pinged(s, t)
  {
  }

  lemma OpeningStepsKeep(cfg: Config, s: State, ev: Event)
    requires WellFormed(s) && PingsOk(s.pool.conns, s.place, s.main, s.now) && IsOpening(ev)
    ensures var t := Apply(cfg, s, ev); PingsOk(t.pool.conns, t.place, t.main, t.now) && Pinged(s, t)
  {
  }

  lemma RegistrationStepsKeep(cfg: Config, s: State, ev: Event)
    requires WellFormed(s) && PingsOk(s.pool.conns, s.place, s.main, s.now) && IsRegistration(ev)
    ensures var t := Apply(cfg, s, ev); PingsOk(t.pool.conns, t.place, t.main, t.now) && Pinged(s, t)
  {
  }

  lemma ClosingStepsKeep(cfg: Config, s: State, ev: Event)
    requires WellFormed(s) && PingsOk(s.pool.conns, s.place, s.main, s.now) && IsClosing(ev)
    ensures var t := Apply(cfg, s, ev); PingsOk(t.pool.conns, t.place, t.main, t.now) && Pinged(s, t)
  {
  }

  lemma RecyclingStepsKeep(cfg: Config, s: State, ev: Event)
    requires WellFormed(s) && PingsOk(s.pool.conns, s.place, s.main, s.now) && IsRecycling(ev)
    ensures var t := Apply(cfg, s, ev); PingsOk(t.pool.conns, t.place, t.main, t.now) && Pinged(s, t)
  {
  }

  lemma TimCheckKeeps(cfg: Config, s: State)
    requires WellFormed(s) && PingsOk(s.pool.conns, s.place, s.main, s.now)
    ensures var t := TimCheckStep(cfg, s); PingsOk(t.pool.conns, t.place, t.main, t.now) && Pinged(s, t)
  {
  }

  lemma ExaminationStepsKeep(cfg: Config, s: State, ev: Event)
    requires WellFormed(s) && PingsOk(s.pool.conns, s.place, s.main, s.now) && IsExamination(ev)
    ensures var t := Apply(cfg, s, ev); PingsOk(t.pool.conns, t.place, t.main, t.now) && Pinged(s, t)
  {
    match ev
    case TimCheck => TimCheckKeeps(cfg, s);
    case _ =>
  }

  lemma KickingStepsKeep(cfg: Config, s: State, ev: Event)
    requires WellFormed(s) && PingsOk(s.pool.conns, s.place, s.main, s.now) && IsKicking(ev)
    ensures var t := Apply(cfg, s, ev); PingsOk(t.pool.conns, t.place, t.main, t.now) && Pinged(s, t)
  {
  }

  lemma OtherStepsKeep(cfg: Config, s: State, ev: Event)
    requires WellFormed(s) && MainOk(cfg.listeners, s.pool.conns, s.place, s.main)
    requires PingsOk(s.pool.conns, s.place, s.main, s.now) && IsOther(ev)
    ensures var t := Apply(cfg, s, ev); PingsOk(t.pool.conns, t.place, t.main, t.now) && Pinged(s, t)
  {
  }

  lemma EventKeeps(cfg: Config, s: State, ev: Event)
    requires WellFormed(s) && Places(cfg, s) && PingsOk(s.pool.conns, s.place, s.main, s.now)
    ensures var t := Apply(cfg, s, ev); PingsOk(t.pool.conns, t.place, t.main, t.now) && Pinged(s, t)
  {
    if IsAdmission(ev) {
      AdmissionStepsKeep(cfg, s, ev);
    } else if IsOpening(ev) {
      OpeningStepsKeep(cfg, s, ev);
    } else if IsRegistration(ev) {
      RegistrationStepsKeep(cfg, s, ev);
    } else if IsClosing(ev) {
      ClosingStepsKeep(cfg, s, ev);
    } else if IsRecycling(ev) {
      RecyclingStepsKeep(cfg, s, ev);
    } else if IsExamination(ev) {
      ExaminationStepsKeep(cfg, s, ev);
    } else if IsKicking(ev) {
      KickingStepsKeep(cfg, s, ev);
    } else {
      OtherStepsKeep(cfg, s, ev);
    }
  }
}
