/** Every event keeps UsesKept: a use is closed once and enters the recycle list once. */
module KeepUses {
  import opened ConnPool
  import opened TimerQueue
  import opened Lifecycle
  import opened Invariant

  /** A close ends the live use of its object. */
  lemma ReleaseKeeps(cfg: Config, s: State, c: nat)
    requires UsesKept(cfg, s) && At(s.place, c, Open) && |s.hist.closedAt| == |s.place|
    ensures var t := ReleaseUse(s, c); Ledger(cfg.listeners, t.pool.conns, t.place, t.hist)
  {
  }

  lemma ForgetKeeps(cfg: Config, s: State, c: nat)
    requires UsesKept(cfg, s) && At(s.place, c, Released)
    ensures var t := ForgetUse(s, c); Ledger(cfg.listeners, t.pool.conns, t.place, t.hist)
  {
  }

  lemma EnqueueKeeps(cfg: Config, s: State, c: nat)
    requires UsesKept(cfg, s) && At(s.place, c, Closing)
    requires !s.pool.conns[c].inRecyList && c !in s.pool.recy
    ensures var t := EnqueueUse(s, c); Ledger(cfg.listeners, t.pool.conns, t.place, t.hist)
  {
    assert (c, s.pool.conns[c].sequence) !in s.hist.direct;
  }

  /** An object that is not in use gets another place, or a later sequence number. */
  lemma IdleKeeps(listeners: nat, conns: seq<Conn>, place: seq<Place>, h: History, c: nat, conn: Conn, to: Place)
    requires Ledger(listeners, conns, place, h) && c < |place| && !InUse(to)
    requires place[c] != Open && place[c] != Released && place[c] != Closing
    requires conns[c].sequence < conn.sequence || (!InUse(place[c]) && conn.sequence == conns[c].sequence)
    ensures Ledger(listeners, conns[c := conn], place[c := to], h)
  {
  }

  /** Fields other than the sequence number do not matter. */
  lemma TouchKeeps(listeners: nat, conns: seq<Conn>, place: seq<Place>, h: History, c: nat, conn: Conn)
    requires Ledger(listeners, conns, place, h) && c < |place| && conn.sequence == conns[c].sequence
    ensures Ledger(listeners, conns[c := conn], place, h)
  {
    forall u: Use ensures LiveUse(conns[c := conn], place, u) == LiveUse(conns, place, u) {}
    forall u: Use ensures Unqueued(conns[c := conn], place, u) == Unqueued(conns, place, u) {}
  }

  /** A use begins. */
  lemma OpenKeeps(listeners: nat, conns: seq<Conn>, place: seq<Place>, h: History, c: nat, conn: Conn)
    requires Ledger(listeners, conns, place, h) && listeners <= c < |place| && place[c] == InHand
    requires conn.sequence == conns[c].sequence && conn.sequence % 2 == 1
    ensures Ledger(listeners, conns[c := conn], place[c := Open], h.(uses := h.uses + {(c, conn.sequence)}))
  {
  }

  lemma GrowKeeps(listeners: nat, conns: seq<Conn>, place: seq<Place>, h: History, conn: Conn)
    requires Ledger(listeners, conns, place, h)
    ensures Ledger(listeners, conns + [conn], place + [InHand], h)
  {
  }

  lemma MarkKeeps(listeners: nat, conns: seq<Conn>, place: seq<Place>, h: History, u: Use, idle: int)
    requires Ledger(listeners, conns, place, h)
    ensures Ledger(listeners, conns, place, h.(idleAtMark := h.idleAtMark[u := idle]))
  {
  }

  lemma KickKeeps(listeners: nat, conns: seq<Conn>, place: seq<Place>, h: History, u: Use)
    requires Ledger(listeners, conns, place, h)
    requires u in h.uses && u in h.idleAtMark && !LiveUse(conns, place, u) && u !in h.direct
    ensures Ledger(listeners, conns, place, h.(kicked := h.kicked + {u}))
  {
  }

  lemma MarkRecorded(wait: int, h: History, t: TimPc, marked: TimPc, idle: int)
    requires MarksOk(wait, h, t) && marked.TMarked? && marked.e.Pair() in h.uses && idle > 3 * wait
    ensures MarksOk(wait, h.(idleAtMark := h.idleAtMark[marked.e.Pair() := idle]), marked)
  {
  }

  lemma CheckKeeps(cfg: Config, s: State, e: Entry)
    requires WellFormed(s) && s.tim.TExam? && s.tim.todo != [] && e == s.tim.todo[0] && e.conn < |s.pool.conns|
    requires TimCheckStep(cfg, s).tim.TMarked? && UsesKept(cfg, s) && e.Pair() in s.hist.uses
    ensures UsesKept(cfg, TimCheckStep(cfg, s))
  {
    var t, conn := TimCheckStep(cfg, s), s.pool.conns[e.conn];
    TouchKeeps(cfg.listeners, s.pool.conns, s.place, s.hist, e.conn, conn.(isTimeout := true));
    MarkKeeps(cfg.listeners, t.pool.conns, s.place, s.hist, e.Pair(), s.tim.cur - conn.pingUpdateTime);
    MarkRecorded(cfg.wait, s.hist, s.tim, t.tim, s.tim.cur - conn.pingUpdateTime);
  }

  lemma KickedKeeps(cfg: Config, s: State)
    requires WellFormed(s) && s.tim.TKick? && s.tim.e.conn < |s.pool.conns| && At(s.place, s.tim.e.conn, Open)
    requires UsesKept(cfg, s) && s.pool.conns[s.tim.e.conn].sequence == s.tim.e.sequence
    ensures UsesKept(cfg, TimKickStep(s))
  {
    var u, t := s.tim.e.Pair(), ReleaseUse(s, s.tim.e.conn);
    ReleaseKeeps(cfg, s, s.tim.e.conn);
    KickKeeps(cfg.listeners, t.pool.conns, t.place, t.hist, u);
    assert MarksOk(cfg.wait, TimKickStep(s).hist, TimKickStep(s).tim);
  }

  /** close_connection ends the use that the main thread has just begun. */
  lemma DirectEnds(listeners: nat, conns: seq<Conn>, place: seq<Place>, h: History, c: nat, conn: Conn)
    requires Ledger(listeners, conns, place, h) && c < |place| && place[c] == Open
    requires conn.sequence == conns[c].sequence + 1
    ensures var u: Use := (c, conns[c].sequence);
      Ledger(listeners, conns[c := conn], place[c := Free],
             h.(closes := h.closes + multiset{u}, direct := h.direct + {u}))
  {
  }

  lemma DirectKeeps(cfg: Config, s: State)
    requires WellFormed(s) && UsesKept(cfg, s) && s.main.MOpened? && At(s.place, s.main.c, Open)
    ensures UsesKept(cfg, AcceptEpollStep(s, false))
  {
    var c := s.main.c;
    DirectEnds(cfg.listeners, s.pool.conns, s.place, s.hist, c, BumpSequence(s.pool.conns[c].(fd := CLOSED)));
  }

  // ---------- The steps ----------

  lemma AdmissionStepsKeep(cfg: Config, s: State, ev: Event)
    requires WellFormed(s) && Places(cfg, s) && UsesKept(cfg, s)
    requires IsAdmission(ev)
    ensures UsesKept(cfg, Apply(cfg, s, ev))
  {
    match ev
    case AcceptGet(junk) =>
      if s.main.MSized? {
        if s.pool.free != [] {
          var c := s.pool.free[0];
          assert s.pool.conns[c := s.pool.conns[c]] == s.pool.conns;
          IdleKeeps(cfg.listeners, s.pool.conns, s.place, s.hist, c, s.pool.conns[c], InHand);
        } else {
          GrowKeeps(cfg.listeners, s.pool.conns, s.place, s.hist, NewConn(junk));
        }
      }
    case _ =>
  }

  lemma OpeningStepsKeep(cfg: Config, s: State, ev: Event)
    requires WellFormed(s) && Places(cfg, s) && UsesKept(cfg, s)
    requires IsOpening(ev)
    ensures UsesKept(cfg, Apply(cfg, s, ev))
  {
    match ev
    case AcceptBump =>
      if s.main.MGot? {
        assert s.place[s.main.c := InHand] == s.place;
        IdleKeeps(cfg.listeners, s.pool.conns, s.place, s.hist, s.main.c, BumpSequence(s.pool.conns[s.main.c]), InHand);
      }
    case AcceptClear =>
      if s.main.MBumped? {
        TouchKeeps(cfg.listeners, s.pool.conns, s.place, s.hist, s.main.c, ClearFlags(s.pool.conns[s.main.c], s.now));
      }
    case AcceptSetFd =>
      if s.main.MCleared? {
        var c := s.main.c;
        OpenKeeps(cfg.listeners, s.pool.conns, s.place, s.hist, c, s.pool.conns[c].(fd := s.main.connfd));
      }
  }

  lemma RegistrationStepsKeep(cfg: Config, s: State, ev: Event)
    requires WellFormed(s) && Places(cfg, s) && UsesKept(cfg, s)
    requires IsRegistration(ev)
    ensures UsesKept(cfg, Apply(cfg, s, ev))
  {
    match ev
    case AcceptEpoll(ok) =>
      if s.main.MOpened? && !ok {
        DirectKeeps(cfg, s);
      }
    case AcceptStamp =>
      if s.main.MRegistered? {
        TouchKeeps(cfg.listeners, s.pool.conns, s.place, s.hist, s.main.c,
                   s.pool.conns[s.main.c].(pingUpdateTime := s.now));
      }
    case _ =>
  }

  lemma ClosingStepsKeep(cfg: Config, s: State, ev: Event)
    requires WellFormed(s) && Places(cfg, s) && UsesKept(cfg, s)
    requires IsClosing(ev)
    ensures UsesKept(cfg, Apply(cfg, s, ev))
  {
    match ev
    case CloseBegin(c) =>
      if s.main == MIdle && cfg.listeners <= c < |s.place| && s.pool.conns[c].fd != CLOSED && !ConnLocked(s, c) {
        assert ConnOk(s.pool.conns[c], s.place[c]);
        ReleaseKeeps(cfg, s, c);
      }
    case CloseClear =>
      if s.main.MReleased? {
        ForgetKeeps(cfg, s, s.main.c);
      }
    case CloseEnd =>
      if s.main.MClosing? {
        assert ConnOk(s.pool.conns[s.main.c], Closing);
        EnqueueKeeps(cfg, s, s.main.c);
      }
  }

  lemma RecyStepKeeps(cfg: Config, s: State)
    requires WellFormed(s) && Lists(s.pool.recy, s.place, Recycling) && UsesKept(cfg, s)
    ensures UsesKept(cfg, RecyStepStep(cfg, s))
  {
    if s.rec.RPass? && s.rec.i < |s.pool.recy| {
      var c := s.pool.recy[s.rec.i];
      IdleKeeps(cfg.listeners, s.pool.conns, s.place, s.hist, c, BumpSequence(s.pool.conns[c]), Transit);
    }
  }

  lemma RecyclingStepsKeep(cfg: Config, s: State, ev: Event)
    requires WellFormed(s) && Places(cfg, s) && UsesKept(cfg, s)
    requires IsRecycling(ev)
    ensures UsesKept(cfg, Apply(cfg, s, ev))
  {
    match ev
    case RecyStep => RecyStepKeeps(cfg, s);
    case RecyFree =>
      if s.rec.RHold? {
        assert s.pool.conns[s.rec.c := s.pool.conns[s.rec.c]] == s.pool.conns;
        IdleKeeps(cfg.listeners, s.pool.conns, s.place, s.hist, s.rec.c, s.pool.conns[s.rec.c], Free);
      }
    case _ =>
  }

  lemma TimCheckKeeps(cfg: Config, s: State)
    requires WellFormed(s) && Places(cfg, s) && UsesKept(cfg, s) && EntriesOk(s)
    ensures UsesKept(cfg, TimCheckStep(cfg, s))
  {
    if s.tim.TExam? && s.tim.todo != [] {
      assert s.tim.todo[0] in Exam(s.tim);
      ExamEntered(s, s.tim.todo[0]);
      if TimCheckStep(cfg, s).tim.TMarked? {
        CheckKeeps(cfg, s, s.tim.todo[0]);
      }
    }
  }

  lemma ExaminationStepsKeep(cfg: Config, s: State, ev: Event)
    requires WellFormed(s) && Places(cfg, s) && UsesKept(cfg, s) && EntriesOk(s)
    requires IsExamination(ev)
    ensures UsesKept(cfg, Apply(cfg, s, ev))
  {
    match ev
    case TimCheck => TimCheckKeeps(cfg, s);
    case _ =>
  }

  lemma TimKickKeeps(cfg: Config, s: State)
    requires WellFormed(s) && TimOk(s.pool.conns, s.place, s.tim) && UsesKept(cfg, s)
    ensures UsesKept(cfg, TimKickStep(s))
  {
    if s.tim.TKick? {
      KickedKeeps(cfg, s);
    }
  }

  lemma TimClearKeeps(cfg: Config, s: State)
    requires WellFormed(s) && TimOk(s.pool.conns, s.place, s.tim) && UsesKept(cfg, s)
    ensures UsesKept(cfg, TimClearStep(s))
  {
    if s.tim.TReleased? {
      ForgetKeeps(cfg, s, s.tim.e.conn);
    }
  }

  lemma TimEndKeeps(cfg: Config, s: State)
    requires WellFormed(s) && Places(cfg, s) && UsesKept(cfg, s)
    ensures UsesKept(cfg, TimEndStep(s))
  {
    if s.tim.TClosing? {
      assert ConnOk(s.pool.conns[s.tim.e.conn], Closing);
      EnqueueKeeps(cfg, s, s.tim.e.conn);
    }
  }

  lemma KickingStepsKeep(cfg: Config, s: State, ev: Event)
    requires WellFormed(s) && Places(cfg, s) && UsesKept(cfg, s)
    requires IsKicking(ev)
    ensures UsesKept(cfg, Apply(cfg, s, ev))
  {
    match ev
    case TimKick => TimKickKeeps(cfg, s);
    case TimClear => TimClearKeeps(cfg, s);
    case TimEnd => TimEndKeeps(cfg, s);
  }

  lemma OtherStepsKeep(cfg: Config, s: State, ev: Event)
    requires WellFormed(s) && Places(cfg, s) && UsesKept(cfg, s)
    requires IsOther(ev)
    ensures UsesKept(cfg, Apply(cfg, s, ev))
  {
    match ev
    case Ping(c) =>
      if c < |s.place| {
        TouchKeeps(cfg.listeners, s.pool.conns, s.place, s.hist, c, s.pool.conns[c].(pingUpdateTime := s.now));
      }
    case _ =>
  }

  lemma EventKeeps(cfg: Config, s: State, ev: Event)
    requires WellFormed(s) && Places(cfg, s) && UsesKept(cfg, s) && EntriesOk(s)
    ensures UsesKept(cfg, Apply(cfg, s, ev))
  {
    if IsAdmission(ev) {
      AdmissionStepsKeep(cfg, s, ev);
    } else if IsOpening(ev) {
      OpeningStepsKeep(cfg, s, ev);
    } else if IsRegistration(ev) {
      RegistrationStepsKeep(cfg, s, ev);
    } else if IsClosing(ev) {
      ClosingStepsKeep(cfg, s, ev);
    } else if IsRecycling(ev) {
      RecyclingStepsKeep(cfg, s, ev);
    } else if IsExamination(ev) {
      ExaminationStepsKeep(cfg, s, ev);
    } else if IsKicking(ev) {
      KickingStepsKeep(cfg, s, ev);
    } else {
      OtherStepsKeep(cfg, s, ev);
    }
  }
}
