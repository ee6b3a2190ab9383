/** Every event keeps Quarantine and PassOk. */
module KeepQuarantine {
  import opened Common
  import opened ConnPool
  import opened Lifecycle
  import opened Invariant

  ghost predicate QuarantineOk(cfg: Config, s: State) {
    && Quarantine(s.pool.conns, s.place, s.hist.closedAt, cfg.delay, s.now)
    && PassOk(s.pool.conns, s.pool.recy, s.rec, cfg.delay, s.now)
  }

  predicate SameTimes(conns: seq<Conn>, conns2: seq<Conn>) {
    |conns| == |conns2| && forall c | 0 <= c < |conns| :: conns2[c].inRecyTime == conns[c].inRecyTime
  }

  lemma StayKeeps(cfg: Config, s: State, t: State)
    requires QuarantineOk(cfg, s) && SameTimes(s.pool.conns, t.pool.conns) && t.pool.recy == s.pool.recy
    requires t.place == s.place && t.hist.closedAt == s.hist.closedAt && t.rec == s.rec && s.now <= t.now
    ensures QuarantineOk(cfg, t)
  {
    forall c | 0 <= c < |t.place|
      ensures Rested(t.pool.conns[c], t.place[c], t.hist.closedAt[c], cfg.delay, t.now)
    {
      assert Rested(s.pool.conns[c], s.place[c], s.hist.closedAt[c], cfg.delay, s.now);
    }
  }

  predicate SameElsewhere<T(==)>(a: seq<T>, b: seq<T>, c: nat) {
    |a| == |b| && forall d | 0 <= d < |a| && d != c :: b[d] == a[d]
  }

  /** Object c gets another place. */
  lemma MoveKeeps(cfg: Config, s: State, t: State, c: nat)
    requires Quarantine(s.pool.conns, s.place, s.hist.closedAt, cfg.delay, s.now) && t.now == s.now
    requires SameElsewhere(s.place, t.place, c) && SameElsewhere(s.hist.closedAt, t.hist.closedAt, c)
    requires SameElsewhere(s.pool.conns, t.pool.conns, c) && c < |s.place|
    requires Rested(t.pool.conns[c], t.place[c], t.hist.closedAt[c], cfg.delay, t.now)
    ensures Quarantine(t.pool.conns, t.place, t.hist.closedAt, cfg.delay, t.now)
  {
  }

  /** The entries that the recycler has passed stay where they are. */
  lemma PassStays(cfg: Config, s: State, t: State)
    requires PassOk(s.pool.conns, s.pool.recy, s.rec, cfg.delay, s.now) && t.rec == s.rec && s.now <= t.now
    requires s.pool.recy <= t.pool.recy && |s.pool.conns| <= |t.pool.conns|
    requires forall c | c in s.pool.recy && c < |s.pool.conns| ::
               t.pool.conns[c].inRecyTime == s.pool.conns[c].inRecyTime
    ensures PassOk(t.pool.conns, t.pool.recy, t.rec, cfg.delay, t.now)
  {
    if !s.rec.RIdle? {
      forall j | 0 <= j < s.rec.i ensures t.pool.recy[j] == s.pool.recy[j] && s.pool.recy[j] in s.pool.recy {}
    }
  }

  // ---------- The steps ----------

  lemma ReuseKeeps(cfg: Config, s: State, junk: Conn)
    requires WellFormed(s) && Lists(s.pool.free, s.place, Free) && QuarantineOk(cfg, s)
    requires s.main.MSized? && s.pool.free != []
    ensures QuarantineOk(cfg, AcceptGetStep(s, junk))
  {
    var c, t := s.pool.free[0], AcceptGetStep(s, junk);
    assert Rested(s.pool.conns[c], s.place[c], s.hist.closedAt[c], cfg.delay, s.now);
    MoveKeeps(cfg, s, t, c);
    PassStays(cfg, s, t);
  }

  lemma CreateKeeps(cfg: Config, s: State, junk: Conn)
    requires WellFormed(s) && QuarantineOk(cfg, s) && s.main.MSized? && s.pool.free == []
    ensures QuarantineOk(cfg, AcceptGetStep(s, junk))
  {
    PassStays(cfg, s, AcceptGetStep(s, junk));
  }

  lemma AdmissionStepsKeep(cfg: Config, s: State, ev: Event)
    requires WellFormed(s) && Lists(s.pool.free, s.place, Free) && QuarantineOk(cfg, s) && IsAdmission(ev)
    ensures QuarantineOk(cfg, Apply(cfg, s, ev))
  {
    if !ev.AcceptGet? || !s.main.MSized? {
      StayKeeps(cfg, s, Apply(cfg, s, ev));
    } else if s.pool.free != [] {
      ReuseKeeps(cfg, s, ev.junk);
    } else {
      CreateKeeps(cfg, s, ev.junk);
    }
  }

  lemma AcceptSetFdKeeps(cfg: Config, s: State)
    requires WellFormed(s) && MainOk(cfg.listeners, s.pool.conns, s.place, s.main) && QuarantineOk(cfg, s)
    requires s.main.MCleared?
    ensures QuarantineOk(cfg, AcceptSetFdStep(s))
  {
    var c, t := s.main.c, AcceptSetFdStep(s);
    assert Rested(s.pool.conns[c], s.place[c], s.hist.closedAt[c], cfg.delay, s.now);
    MoveKeeps(cfg, s, t, c);
    PassStays(cfg, s, t);
  }

  lemma OpeningStepsKeep(cfg: Config, s: State, ev: Event)
    requires WellFormed(s) && MainOk(cfg.listeners, s.pool.conns, s.place, s.main) && QuarantineOk(cfg, s)
    requires IsOpening(ev)
    ensures QuarantineOk(cfg, Apply(cfg, s, ev))
  {
    if ev.AcceptSetFd? && s.main.MCleared? {
      AcceptSetFdKeeps(cfg, s);
    } else {
      StayKeeps(cfg, s, Apply(cfg, s, ev));
    }
  }

  lemma AcceptEpollFails(cfg: Config, s: State)
    requires WellFormed(s) && MainOk(cfg.listeners, s.pool.conns, s.place, s.main) && QuarantineOk(cfg, s)
    requires s.main.MOpened? && !ConnLocked(s, s.main.c)
    ensures QuarantineOk(cfg, AcceptEpollStep(s, false))
  {
    var c, t := s.main.c, AcceptEpollStep(s, false);
    assert Rested(s.pool.conns[c], s.place[c], s.hist.closedAt[c], cfg.delay, s.now);
    MoveKeeps(cfg, s, t, c);
    PassStays(cfg, s, t);
  }

  lemma RegistrationStepsKeep(cfg: Config, s: State, ev: Event)
    requires WellFormed(s) && MainOk(cfg.listeners, s.pool.conns, s.place, s.main) && QuarantineOk(cfg, s)
    requires IsRegistration(ev)
    ensures QuarantineOk(cfg, Apply(cfg, s, ev))
  {
    if ev == AcceptEpoll(false) && s.main.MOpened? && !ConnLocked(s, s.main.c) {
      AcceptEpollFails(cfg, s);
    } else {
      StayKeeps(cfg, s, Apply(cfg, s, ev));
    }
  }

  /** close(fd): the time of the close is recorded. */
  lemma ReleaseKeeps(cfg: Config, s: State, t: State, c: nat)
    requires WellFormed(s) && QuarantineOk(cfg, s) && c < |s.place|
    requires t == ReleaseUse(s, c).(main := t.main, tim := t.tim, hist := t.hist)
    requires t.hist.closedAt == s.hist.closedAt[c := Some(s.now)]
    ensures QuarantineOk(cfg, t)
  {
    MoveKeeps(cfg, s, t, c);
    PassStays(cfg, s, t);
  }

  lemma ForgetKeeps(cfg: Config, s: State, t: State, c: nat)
    requires WellFormed(s) && QuarantineOk(cfg, s) && At(s.place, c, Released)
    requires t == ForgetUse(s, c).(main := t.main, tim := t.tim)
    ensures QuarantineOk(cfg, t)
  {
    assert Rested(s.pool.conns[c], s.place[c], s.hist.closedAt[c], cfg.delay, s.now);
    MoveKeeps(cfg, s, t, c);
    PassStays(cfg, s, t);
  }

  lemma EnqueueKeeps(cfg: Config, s: State, t: State, c: nat)
    requires WellFormed(s) && QuarantineOk(cfg, s) && At(s.place, c, Closing)
    requires t == EnqueueUse(s, c).(main := t.main, tim := t.tim)
    ensures QuarantineOk(cfg, t)
  {
    if t.place == s.place && t.pool == s.pool {
      StayKeeps(cfg, s, t);
    } else {
      assert Rested(s.pool.conns[c], s.place[c], s.hist.closedAt[c], cfg.delay, s.now);
      MoveKeeps(cfg, s, t, c);
      PassStays(cfg, s, t);
    }
  }

  lemma ClosingStepsKeep(cfg: Config, s: State, ev: Event)
    requires WellFormed(s) && MainOk(cfg.listeners, s.pool.conns, s.place, s.main) && QuarantineOk(cfg, s)
    requires IsClosing(ev)
    ensures QuarantineOk(cfg, Apply(cfg, s, ev))
  {
    var t := Apply(cfg, s, ev);
    if t.main == s.main {
      StayKeeps(cfg, s, t);
    } else if ev.CloseBegin? {
      ReleaseKeeps(cfg, s, t, ev.c);
    } else if ev.CloseClear? {
      ForgetKeeps(cfg, s, t, s.main.c);
    } else {
      EnqueueKeeps(cfg, s, t, s.main.c);
    }
  }

  lemma TakeKeeps(cfg: Config, s: State)
    requires WellFormed(s) && Lists(s.pool.recy, s.place, Recycling) && QuarantineOk(cfg, s)
    requires s.rec.RPass? && s.rec.i < |s.pool.recy|
    requires RecycleDue(s.pool.conns[s.pool.recy[s.rec.i]], cfg.delay, s.now)
    ensures QuarantineOk(cfg, RecyStepStep(cfg, s))
  {
    var i, t := s.rec.i, RecyStepStep(cfg, s);
    var c := s.pool.recy[i];
    assert Rested(s.pool.conns[c], s.place[c], s.hist.closedAt[c], cfg.delay, s.now);
    MoveKeeps(cfg, s, t, c);
    forall j | 0 <= j < i ensures t.pool.recy[j] == s.pool.recy[j] {}
  }

  /** An entry that is not due now was not due when the pass began. */
  lemma RecyStepKeeps(cfg: Config, s: State)
    requires WellFormed(s) && Lists(s.pool.recy, s.place, Recycling) && QuarantineOk(cfg, s)
    ensures QuarantineOk(cfg, RecyStepStep(cfg, s))
  {
    if s.rec.RPass? && s.rec.i < |s.pool.recy| && RecycleDue(s.pool.conns[s.pool.recy[s.rec.i]], cfg.delay, s.now) {
      TakeKeeps(cfg, s);
    }
  }

  lemma RecyFreeKeeps(cfg: Config, s: State)
    requires WellFormed(s) && RecOk(s.place, s.pool.recy, s.rec) && QuarantineOk(cfg, s)
    ensures QuarantineOk(cfg, RecyFreeStep(s))
  {
    if s.rec.RHold? {
      var c, t := s.rec.c, RecyFreeStep(s);
      assert Rested(s.pool.conns[c], s.place[c], s.hist.closedAt[c], cfg.delay, s.now);
      MoveKeeps(cfg, s, t, c);
    }
  }

  lemma RecyclingStepsKeep(cfg: Config, s: State, ev: Event)
    requires WellFormed(s) && Places(cfg, s) && QuarantineOk(cfg, s) && IsRecycling(ev)
    ensures QuarantineOk(cfg, Apply(cfg, s, ev))
  {
    match ev
    case RecyStart =>
    case RecyStep => RecyStepKeeps(cfg, s);
    case RecyFree => RecyFreeKeeps(cfg, s);
  }

  lemma ExaminationStepsKeep(cfg: Config, s: State, ev: Event)
    requires WellFormed(s) && QuarantineOk(cfg, s) && IsExamination(ev)
    ensures QuarantineOk(cfg, Apply(cfg, s, ev))
  {
    StayKeeps(cfg, s, Apply(cfg, s, ev));
  }

  lemma KickingStepsKeep(cfg: Config, s: State, ev: Event)
    requires WellFormed(s) && TimOk(s.pool.conns, s.place, s.tim) && QuarantineOk(cfg, s) && IsKicking(ev)
    ensures QuarantineOk(cfg, Apply(cfg, s, ev))
  {
    var t := Apply(cfg, s, ev);
    if t.tim == s.tim || (ev.TimKick? && t.pool == s.pool && t.place == s.place) {
      StayKeeps(cfg, s, t);
    } else if ev.TimKick? {
      ReleaseKeeps(cfg, s, t, s.tim.e.conn);
    } else if ev.TimClear? {
      ForgetKeeps(cfg, s, t, s.tim.e.conn);
    } else {
      EnqueueKeeps(cfg, s, t, s.tim.e.conn);
    }
  }

  lemma OtherStepsKeep(cfg: Config, s: State, ev: Event)
    requires WellFormed(s) && QuarantineOk(cfg, s) && IsOther(ev)
    ensures QuarantineOk(cfg, Apply(cfg, s, ev))
  {
    StayKeeps(cfg, s, Apply(cfg, s, ev));
  }

  lemma EventKeeps(cfg: Config, s: State, ev: Event)
    requires WellFormed(s) && Places(cfg, s) && Quarantine(s.pool.conns, s.place, s.hist.closedAt, cfg.delay, s.now)
    requires PassOk(s.pool.conns, s.pool.recy, s.rec, cfg.delay, s.now)
    ensures var t := Apply(cfg, s, ev);
      && Quarantine(t.pool.conns, t.place, t.hist.closedAt, cfg.delay, t.now)
      && PassOk(t.pool.conns, t.pool.recy, t.rec, cfg.delay, t.now)
  {
    if IsAdmission(ev) {
      AdmissionStepsKeep(cfg, s, ev);
    } else if IsOpening(ev) {
      OpeningStepsKeep(cfg, s, ev);
    } else if IsRegistration(ev) {
      RegistrationStepsKeep(cfg, s, ev);
    } else if IsClosing(ev) {
      ClosingStepsKeep(cfg, s, ev);
    } else if IsRecycling(ev) {
      RecyclingStepsKeep(cfg, s, ev);
    } else if IsExamination(ev) {
      ExaminationStepsKeep(cfg, s, ev);
    } else if IsKicking(ev) {
      KickingStepsKeep(cfg, s, ev);
    } else {
      OtherStepsKeep(cfg, s, ev);
    }
  }
}
