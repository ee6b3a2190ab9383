/** Every event keeps OnlineOk and Growth. */
module KeepCounts {
  import opened ConnPool
  import opened Lifecycle
  import opened Invariant

  lemma {:induction false} OpenCountMoves(place: seq<Place>, c: nat, to: Place)
    requires c < |place|
    ensures OpenCount(place[c := to])
         == OpenCount(place) - (if IsOpen(place[c]) then 1 else 0) + (if IsOpen(to) then 1 else 0)
    decreases |place|
  {
    if c == 0 {
      assert place[0 := to][1..] == place[1..];
    } else {
      assert place[c := to][1..] == place[1..][c - 1 := to];
      OpenCountMoves(place[1..], c - 1, to);
    }
  }

  lemma {:induction false} OpenCountGrows(place: seq<Place>)
    ensures OpenCount(place + [InHand]) == OpenCount(place)
    decreases |place|
  {
    if place == [] {
      assert [] + [InHand] == [InHand] && [InHand][1..] == [];
    } else {
      assert (place + [InHand])[1..] == place[1..] + [InHand];
      OpenCountGrows(place[1..]);
    }
  }

  ghost predicate CountsOk(cfg: Config, s: State) {
    OnlineOk(cfg.workers, s.place, s.main, s.pool.online) && Growth(cfg, |s.pool.conns|, |s.pool.free|, s.main)
  }

  /** The pool keeps its size, and no size has been tested that does not hold any more. */
  predicate SameSize(s: State, t: State) {
    |t.pool.conns| == |s.pool.conns| && (t.main.MSized? ==> s.main.MSized? && |s.pool.free| <= |t.pool.free|)
  }

  lemma StayKeeps(cfg: Config, s: State, t: State)
    requires CountsOk(cfg, s) && SameSize(s, t) && t.place == s.place && t.pool.online == s.pool.online
    requires NotCounted(t.main) == NotCounted(s.main) && (Admitting(t.main) ==> Admitting(s.main))
    ensures CountsOk(cfg, t)
  {
  }

  lemma MoveKeeps(cfg: Config, s: State, t: State, c: nat, to: Place)
    requires CountsOk(cfg, s) && SameSize(s, t) && c < |s.place| && t.place == s.place[c := to]
    requires t.pool.online + NotCounted(t.main) - s.pool.online - NotCounted(s.main)
          == (if IsOpen(to) then 1 else 0) - (if IsOpen(s.place[c]) then 1 else 0)
    requires t.pool.online <= s.pool.online && (Admitting(t.main) ==> Admitting(s.main))
    ensures CountsOk(cfg, t)
  {
    OpenCountMoves(s.place, c, to);
  }

  // ---------- The steps ----------

  lemma AcceptGetKeeps(cfg: Config, s: State, junk: Conn)
    requires WellFormed(s) && Lists(s.pool.free, s.place, Free) && CountsOk(cfg, s)
    ensures CountsOk(cfg, AcceptGetStep(s, junk))
  {
    if s.main.MSized? {
      if s.pool.free != [] {
        MoveKeeps(cfg, s, AcceptGetStep(s, junk), s.pool.free[0], InHand);
      } else {
        OpenCountGrows(s.place);
      }
    }
  }

  lemma AdmissionStepsKeep(cfg: Config, s: State, ev: Event)
    requires WellFormed(s) && Lists(s.pool.free, s.place, Free) && CountsOk(cfg, s) && IsAdmission(ev)
    ensures CountsOk(cfg, Apply(cfg, s, ev))
  {
    match ev
    case AcceptGet(junk) => AcceptGetKeeps(cfg, s, junk);
    case _ =>
  }

  lemma OpeningStepsKeep(cfg: Config, s: State, ev: Event)
    requires WellFormed(s) && MainOk(cfg.listeners, s.pool.conns, s.place, s.main) && CountsOk(cfg, s) && IsOpening(ev)
    ensures CountsOk(cfg, Apply(cfg, s, ev))
  {
    if ev.AcceptSetFd? && s.main.MCleared? {
      MoveKeeps(cfg, s, Apply(cfg, s, ev), s.main.c, Open);
    } else {
      StayKeeps(cfg, s, Apply(cfg, s, ev));
    }
  }

  lemma AcceptEpollKeeps(cfg: Config, s: State, ok: bool)
    requires WellFormed(s) && MainOk(cfg.listeners, s.pool.conns, s.place, s.main) && CountsOk(cfg, s)
    ensures CountsOk(cfg, AcceptEpollStep(s, ok))
  {
    if s.main.MOpened? && !ok && !ConnLocked(s, s.main.c) {
      MoveKeeps(cfg, s, AcceptEpollStep(s, ok), s.main.c, Free);
    } else {
      StayKeeps(cfg, s, AcceptEpollStep(s, ok));
    }
  }

  lemma RegistrationStepsKeep(cfg: Config, s: State, ev: Event)
    requires WellFormed(s) && MainOk(cfg.listeners, s.pool.conns, s.place, s.main) && CountsOk(cfg, s)
    requires IsRegistration(ev)
    ensures CountsOk(cfg, Apply(cfg, s, ev))
  {
    if ev.AcceptEpoll? {
      AcceptEpollKeeps(cfg, s, ev.ok);
    } else if !ev.AcceptCount? {
      StayKeeps(cfg, s, Apply(cfg, s, ev));
    }
  }

  lemma CloseBeginKeeps(cfg: Config, s: State, c: nat)
    requires WellFormed(s) && Partition(cfg, s) && Threads(cfg, s) && CountsOk(cfg, s)
    ensures CountsOk(cfg, CloseBeginStep(cfg, s, c))
  {
    var t := CloseBeginStep(cfg, s, c);
    if t.main != s.main {
      assert ConnOk(s.pool.conns[c], s.place[c]) && s.place[c] == Open;
      MoveKeeps(cfg, s, t, c, Released);
    }
  }

  lemma CloseClearKeeps(cfg: Config, s: State)
    requires WellFormed(s) && MainOk(cfg.listeners, s.pool.conns, s.place, s.main) && CountsOk(cfg, s)
    ensures CountsOk(cfg, CloseClearStep(s))
  {
    if s.main.MReleased? {
      MoveKeeps(cfg, s, CloseClearStep(s), s.main.c, Closing);
    }
  }

  /** InRecyConnQueue, for an object that is closed already. */
  lemma EnqueueKeeps(cfg: Config, s: State, t: State, c: nat)
    requires CountsOk(cfg, s) && At(s.place, c, Closing) && |s.pool.conns| == |s.place|
    requires t == EnqueueUse(s, c).(main := t.main, tim := t.tim)
    requires t.main == s.main || (s.main.MClosing? && t.main == MIdle)
    ensures CountsOk(cfg, t)
  {
    if t.place == s.place {
      StayKeeps(cfg, s, t);
    } else {
      MoveKeeps(cfg, s, t, c, Recycling);
    }
  }

  lemma CloseEndKeeps(cfg: Config, s: State)
    requires WellFormed(s) && MainOk(cfg.listeners, s.pool.conns, s.place, s.main) && CountsOk(cfg, s)
    ensures CountsOk(cfg, CloseEndStep(s))
  {
    if s.main.MClosing? && !RecyLocked(s) {
      EnqueueKeeps(cfg, s, CloseEndStep(s), s.main.c);
    }
  }

  lemma ClosingStepsKeep(cfg: Config, s: State, ev: Event)
    requires WellFormed(s) && Places(cfg, s) && CountsOk(cfg, s) && IsClosing(ev)
    ensures CountsOk(cfg, Apply(cfg, s, ev))
  {
    match ev
    case CloseBegin(c) => CloseBeginKeeps(cfg, s, c);
    case CloseClear => CloseClearKeeps(cfg, s);
    case CloseEnd => CloseEndKeeps(cfg, s);
  }

  lemma RecyStepKeeps(cfg: Config, s: State)
    requires WellFormed(s) && Lists(s.pool.recy, s.place, Recycling) && CountsOk(cfg, s)
    ensures CountsOk(cfg, RecyStepStep(cfg, s))
  {
    var t := RecyStepStep(cfg, s);
    if t.rec.RHold? && !s.rec.RHold? {
      MoveKeeps(cfg, s, t, s.pool.recy[s.rec.i], Transit);
    } else {
      StayKeeps(cfg, s, t);
    }
  }

  lemma RecyFreeKeeps(cfg: Config, s: State)
    requires WellFormed(s) && RecOk(s.place, s.pool.recy, s.rec) && CountsOk(cfg, s)
    ensures CountsOk(cfg, RecyFreeStep(s))
  {
    if s.rec.RHold? {
      MoveKeeps(cfg, s, RecyFreeStep(s), s.rec.c, Free);
    }
  }

  lemma RecyclingStepsKeep(cfg: Config, s: State, ev: Event)
    requires WellFormed(s) && Places(cfg, s) && CountsOk(cfg, s) && IsRecycling(ev)
    ensures CountsOk(cfg, Apply(cfg, s, ev))
  {
    match ev
    case RecyStart => StayKeeps(cfg, s, RecyStartStep(s));
    case RecyStep => RecyStepKeeps(cfg, s);
    case RecyFree => RecyFreeKeeps(cfg, s);
  }

  lemma ExaminationStepsKeep(cfg: Config, s: State, ev: Event)
    requires WellFormed(s) && CountsOk(cfg, s) && IsExamination(ev)
    ensures CountsOk(cfg, Apply(cfg, s, ev))
  {
    StayKeeps(cfg, s, Apply(cfg, s, ev));
  }

  lemma TimKickKeeps(cfg: Config, s: State)
    requires WellFormed(s) && TimOk(s.pool.conns, s.place, s.tim) && CountsOk(cfg, s)
    ensures CountsOk(cfg, TimKickStep(s))
  {
    var t := TimKickStep(s);
    if t.tim.TReleased? && s.tim.TKick? {
      MoveKeeps(cfg, s, t, s.tim.e.conn, Released);
    } else {
      StayKeeps(cfg, s, t);
    }
  }

  lemma TimClearKeeps(cfg: Config, s: State)
    requires WellFormed(s) && TimOk(s.pool.conns, s.place, s.tim) && CountsOk(cfg, s)
    ensures CountsOk(cfg, TimClearStep(s))
  {
    if s.tim.TReleased? {
      MoveKeeps(cfg, s, TimClearStep(s), s.tim.e.conn, Closing);
    }
  }

  lemma TimEndKeeps(cfg: Config, s: State)
    requires WellFormed(s) && TimOk(s.pool.conns, s.place, s.tim) && CountsOk(cfg, s)
    ensures CountsOk(cfg, TimEndStep(s))
  {
    if s.tim.TClosing? && !RecyLocked(s) {
      EnqueueKeeps(cfg, s, TimEndStep(s), s.tim.e.conn);
    }
  }

  lemma KickingStepsKeep(cfg: Config, s: State, ev: Event)
    requires WellFormed(s) && Places(cfg, s) && CountsOk(cfg, s) && IsKicking(ev)
    ensures CountsOk(cfg, Apply(cfg, s, ev))
  {
    match ev
    case TimKick => TimKickKeeps(cfg, s);
    case TimClear => TimClearKeeps(cfg, s);
    case TimEnd => TimEndKeeps(cfg, s);
  }

  lemma OtherStepsKeep(cfg: Config, s: State, ev: Event)
    requires WellFormed(s) && CountsOk(cfg, s) && IsOther(ev)
    ensures CountsOk(cfg, Apply(cfg, s, ev))
  {
    StayKeeps(cfg, s, Apply(cfg, s, ev));
  }

  lemma EventKeeps(cfg: Config, s: State, ev: Event)
    requires WellFormed(s) && Places(cfg, s)
    requires OnlineOk(cfg.workers, s.place, s.main, s.pool.online) && Growth(cfg, |s.pool.conns|, |s.pool.free|, s.main)
    ensures var t := Apply(cfg, s, ev);
      OnlineOk(cfg.workers, t.place, t.main, t.pool.online) && Growth(cfg, |t.pool.conns|, |t.pool.free|, t.main)
  {
    if IsAdmission(ev) {
      AdmissionStepsKeep(cfg, s, ev);
    } else if IsOpening(ev) {
      OpeningStepsKeep(cfg, s, ev);
    } else if IsRegistration(ev) {
      RegistrationStepsKeep(cfg, s, ev);
    } else if IsClosing(ev) {
      ClosingStepsKeep(cfg, s, ev);
    } else if IsRecycling(ev) {
      RecyclingStepsKeep(cfg, s, ev);
    } else if IsExamination(ev) {
      ExaminationStepsKeep(cfg, s, ev);
    } else if IsKicking(ev) {
      KickingStepsKeep(cfg, s, ev);
    } else {
      OtherStepsKeep(cfg, s, ev);
    }
  }
}
