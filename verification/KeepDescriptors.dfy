/** Every event keeps Descriptors: open descriptors and their owners correspond one to one. */
module KeepDescriptors {
  import opened ConnPool
  import opened Lifecycle
  import opened Invariant

  /** The same objects hold the same descriptors. */
  lemma SameHolders(conns: seq<Conn>, place: seq<Place>, conns2: seq<Conn>, place2: seq<Place>, m: MainPc,
                    fds: set<int>)
    requires Descriptors(conns, place, m, fds) && |conns2| == |place2|
    requires forall d: nat, fd: int :: Holds(conns2, place2, d, fd) <==> Holds(conns, place, d, fd)
    ensures Descriptors(conns2, place2, m, fds)
  {
    forall fd ensures Owned(conns2, place2, fd) <==> Owned(conns, place, fd) {}
  }

  /** An object that has no descriptor changes, and has none afterwards. */
  lemma IdleKeeps(conns: seq<Conn>, place: seq<Place>, m: MainPc, fds: set<int>, c: nat, conn: Conn, to: Place)
    requires Descriptors(conns, place, m, fds) && c < |place|
    requires place[c] != Open && place[c] != Listener && to != Open && to != Listener
    ensures Descriptors(conns[c := conn], place[c := to], m, fds)
  {
    SameHolders(conns, place, conns[c := conn], place[c := to], m, fds);
  }

  lemma TouchKeeps(conns: seq<Conn>, place: seq<Place>, m: MainPc, fds: set<int>, c: nat, conn: Conn)
    requires Descriptors(conns, place, m, fds) && c < |place| && conn.fd == conns[c].fd
    ensures Descriptors(conns[c := conn], place, m, fds)
  {
    SameHolders(conns, place, conns[c := conn], place, m, fds);
  }

  lemma GrowKeeps(conns: seq<Conn>, place: seq<Place>, m: MainPc, fds: set<int>, conn: Conn)
    requires Descriptors(conns, place, m, fds)
    ensures Descriptors(conns + [conn], place + [InHand], m, fds)
  {
    SameHolders(conns, place, conns + [conn], place + [InHand], m, fds);
  }

  /** The main thread's program counter moves on with the same descriptor, or the lack of one. */
  lemma MainMoves(conns: seq<Conn>, place: seq<Place>, m: MainPc, m2: MainPc, fds: set<int>)
    requires Descriptors(conns, place, m, fds)
    requires Pending(m) == Pending(m2) && (Pending(m) ==> m2.connfd == m.connfd)
    ensures Descriptors(conns, place, m2, fds)
  {
  }

  lemma OpenKeeps(conns: seq<Conn>, place: seq<Place>, m: MainPc, fds: set<int>, c: nat, conn: Conn, m2: MainPc)
    requires Descriptors(conns, place, m, fds) && Pending(m) && !Pending(m2)
    requires c < |place| && place[c] == InHand && conn.fd == m.connfd
    ensures Descriptors(conns[c := conn], place[c := Open], m2, fds)
  {
    var conns2, place2 := conns[c := conn], place[c := Open];
    forall d: nat, fd | d != c ensures Holds(conns2, place2, d, fd) <==> Holds(conns, place, d, fd) {}
    forall fd | fd in fds ensures Owned(conns2, place2, fd) {
      if fd == m.connfd {
        assert Holds(conns2, place2, c, fd);
      } else {
        var d: nat :| Holds(conns, place, d, fd);
        assert Holds(conns2, place2, d, fd);
      }
    }
  }

  lemma CloseKeeps(conns: seq<Conn>, place: seq<Place>, m: MainPc, fds: set<int>, c: nat, conn: Conn, to: Place)
    requires Descriptors(conns, place, m, fds) && c < |place| && place[c] == Open && to != Open && to != Listener
    ensures Descriptors(conns[c := conn], place[c := to], m, fds - {conns[c].fd})
  {
    var conns2, place2, gone := conns[c := conn], place[c := to], conns[c].fd;
    assert Holds(conns, place, c, gone);
    forall d: nat, fd | d != c ensures Holds(conns2, place2, d, fd) <==> Holds(conns, place, d, fd) {}
    forall fd | fd in fds - {gone} && !(Pending(m) && m.connfd == fd) ensures Owned(conns2, place2, fd) {
      var d: nat :| Holds(conns, place, d, fd);
      assert Holds(conns2, place2, d, fd);
    }
  }

  lemma ReleaseKeeps(s: State, c: nat)
    requires Descriptors(s.pool.conns, s.place, s.main, s.fds) && At(s.place, c, Open) && |s.place| == |s.hist.closedAt|
    ensures var t := ReleaseUse(s, c); Descriptors(t.pool.conns, t.place, s.main, t.fds)
  {
    assert s.pool.conns[c := s.pool.conns[c]] == s.pool.conns;
    CloseKeeps(s.pool.conns, s.place, s.main, s.fds, c, s.pool.conns[c], Released);
  }

  lemma ForgetKeeps(s: State, c: nat)
    requires Descriptors(s.pool.conns, s.place, s.main, s.fds) && At(s.place, c, Released)
    ensures var t := ForgetUse(s, c); Descriptors(t.pool.conns, t.place, s.main, s.fds)
  {
    IdleKeeps(s.pool.conns, s.place, s.main, s.fds, c, s.pool.conns[c].(fd := CLOSED), Closing);
  }

  lemma EnqueueKeeps(s: State, c: nat)
    requires Descriptors(s.pool.conns, s.place, s.main, s.fds) && At(s.place, c, Closing)
    ensures var t := EnqueueUse(s, c); Descriptors(t.pool.conns, t.place, s.main, s.fds)
  {
    IdleKeeps(s.pool.conns, s.place, s.main, s.fds, c,
              s.pool.conns[c].(inRecyList := true, inRecyTime := s.now), Recycling);
  }

  // ---------- The steps ----------

  lemma AdmissionStepsKeep(cfg: Config, s: State, ev: Event)
    requires WellFormed(s) && Places(cfg, s) && Descriptors(s.pool.conns, s.place, s.main, s.fds)
    requires IsAdmission(ev)
    ensures var t := Apply(cfg, s, ev); Descriptors(t.pool.conns, t.place, t.main, t.fds)
  {
    match ev
    case AcceptGet(junk) =>
      if s.main.MSized? {
        var t := AcceptGetStep(s, junk);
        if s.pool.free != [] {
          var c := s.pool.free[0];
          assert s.pool.conns[c := s.pool.conns[c]] == s.pool.conns;
          IdleKeeps(s.pool.conns, s.place, s.main, s.fds, c, s.pool.conns[c], InHand);
        } else {
          GrowKeeps(s.pool.conns, s.place, s.main, s.fds, NewConn(junk));
        }
        MainMoves(t.pool.conns, t.place, s.main, t.main, s.fds);
      }
    case _ =>
  }

  lemma OpeningStepsKeep(cfg: Config, s: State, ev: Event)
    requires WellFormed(s) && Places(cfg, s) && Descriptors(s.pool.conns, s.place, s.main, s.fds)
    requires IsOpening(ev)
    ensures var t := Apply(cfg, s, ev); Descriptors(t.pool.conns, t.place, t.main, t.fds)
  {
    match ev
    case AcceptBump =>
      if s.main.MGot? {
        var conns := s.pool.conns[s.main.c := BumpSequence(s.pool.conns[s.main.c])];
        TouchKeeps(s.pool.conns, s.place, s.main, s.fds, s.main.c, BumpSequence(s.pool.conns[s.main.c]));
        MainMoves(conns, s.place, s.main, AcceptBumpStep(s).main, s.fds);
      }
    case AcceptClear =>
      if s.main.MBumped? {
        var conn := ClearFlags(s.pool.conns[s.main.c], s.now);
        assert s.place[s.main.c := InHand] == s.place;
        IdleKeeps(s.pool.conns, s.place, s.main, s.fds, s.main.c, conn, InHand);
        MainMoves(s.pool.conns[s.main.c := conn], s.place, s.main, AcceptClearStep(s).main, s.fds);
      }
    case AcceptSetFd =>
      if s.main.MCleared? {
        var c := s.main.c;
        OpenKeeps(s.pool.conns, s.place, s.main, s.fds, c, s.pool.conns[c].(fd := s.main.connfd), MOpened(c));
      }
  }

  lemma RegistrationStepsKeep(cfg: Config, s: State, ev: Event)
    requires WellFormed(s) && Places(cfg, s) && Descriptors(s.pool.conns, s.place, s.main, s.fds)
    requires IsRegistration(ev)
    ensures var t := Apply(cfg, s, ev); Descriptors(t.pool.conns, t.place, t.main, t.fds)
  {
    match ev
    case AcceptEpoll(ok) =>
      if s.main.MOpened? && !ok {
        var c := s.main.c;
        var conn := BumpSequence(s.pool.conns[c].(fd := CLOSED));
        CloseKeeps(s.pool.conns, s.place, s.main, s.fds, c, conn, Free);
        MainMoves(s.pool.conns[c := conn], s.place[c := Free], s.main, MIdle, s.fds - {s.pool.conns[c].fd});
      }
    case AcceptStamp =>
      if s.main.MRegistered? {
        var c, conn := s.main.c, s.pool.conns[s.main.c].(pingUpdateTime := s.now);
        TouchKeeps(s.pool.conns, s.place, s.main, s.fds, c, conn);
        MainMoves(s.pool.conns[c := conn], s.place, s.main, MTimed(c, s.now), s.fds);
      }
    case _ =>
  }

  lemma ClosingStepsKeep(cfg: Config, s: State, ev: Event)
    requires WellFormed(s) && Places(cfg, s) && Descriptors(s.pool.conns, s.place, s.main, s.fds)
    requires IsClosing(ev)
    ensures var t := Apply(cfg, s, ev); Descriptors(t.pool.conns, t.place, t.main, t.fds)
  {
    match ev
    case CloseBegin(c) =>
      if s.main == MIdle && cfg.listeners <= c < |s.place| && s.pool.conns[c].fd != CLOSED && !ConnLocked(s, c) {
        assert ConnOk(s.pool.conns[c], s.place[c]);
        ReleaseKeeps(s, c);
        MainMoves(s.pool.conns, s.place[c := Released], s.main, MReleased(c), s.fds - {s.pool.conns[c].fd});
      }
    case CloseClear =>
      if s.main.MReleased? {
        ForgetKeeps(s, s.main.c);
        MainMoves(ForgetUse(s, s.main.c).pool.conns, s.place[s.main.c := Closing], s.main, MClosing(s.main.c), s.fds);
      }
    case CloseEnd =>
      if s.main.MClosing? {
        EnqueueKeeps(s, s.main.c);
        MainMoves(EnqueueUse(s, s.main.c).pool.conns, EnqueueUse(s, s.main.c).place, s.main, MIdle, s.fds);
      }
  }

  lemma RecyclingStepsKeep(cfg: Config, s: State, ev: Event)
    requires WellFormed(s) && Places(cfg, s) && Descriptors(s.pool.conns, s.place, s.main, s.fds)
    requires IsRecycling(ev)
    ensures var t := Apply(cfg, s, ev); Descriptors(t.pool.conns, t.place, t.main, t.fds)
  {
    match ev
    case RecyStep =>
      if s.rec.RPass? && s.rec.i < |s.pool.recy| {
        var c := s.pool.recy[s.rec.i];
        IdleKeeps(s.pool.conns, s.place, s.main, s.fds, c, BumpSequence(s.pool.conns[c]), Transit);
      }
    case RecyFree =>
      if s.rec.RHold? {
        assert s.pool.conns[s.rec.c := s.pool.conns[s.rec.c]] == s.pool.conns;
        IdleKeeps(s.pool.conns, s.place, s.main, s.fds, s.rec.c, s.pool.conns[s.rec.c], Free);
      }
    case _ =>
  }

  lemma ExaminationStepsKeep(cfg: Config, s: State, ev: Event)
    requires WellFormed(s) && Places(cfg, s) && Descriptors(s.pool.conns, s.place, s.main, s.fds)
    requires IsExamination(ev)
    ensures var t := Apply(cfg, s, ev); Descriptors(t.pool.conns, t.place, t.main, t.fds)
  {
    match ev
    case TimCheck =>
      if s.tim.TExam? && s.tim.todo != [] {
        var e := s.tim.todo[0];
        assert e in Exam(s.tim);
        TouchKeeps(s.pool.conns, s.place, s.main, s.fds, e.conn, s.pool.conns[e.conn].(isTimeout := true));
      }
    case _ =>
  }

  lemma KickingStepsKeep(cfg: Config, s: State, ev: Event)
    requires WellFormed(s) && Places(cfg, s) && Descriptors(s.pool.conns, s.place, s.main, s.fds)
    requires IsKicking(ev)
    ensures var t := Apply(cfg, s, ev); Descriptors(t.pool.conns, t.place, t.main, t.fds)
  {
    match ev
    case TimKick =>
      if s.tim.TKick? {
        ReleaseKeeps(s, s.tim.e.conn);
      }
    case TimClear =>
      if s.tim.TReleased? {
        ForgetKeeps(s, s.tim.e.conn);
      }
    case TimEnd =>
      if s.tim.TClosing? {
        EnqueueKeeps(s, s.tim.e.conn);
      }
  }

  lemma OtherStepsKeep(cfg: Config, s: State, ev: Event)
    requires WellFormed(s) && Places(cfg, s) && Descriptors(s.pool.conns, s.place, s.main, s.fds)
    requires IsOther(ev)
    ensures var t := Apply(cfg, s, ev); Descriptors(t.pool.conns, t.place, t.main, t.fds)
  {
    match ev
    case Ping(c) =>
      if c < |s.place| {
        TouchKeeps(s.pool.conns, s.place, s.main, s.fds, c, s.pool.conns[c].(pingUpdateTime := s.now));
      }
    case _ =>
  }

  lemma EventKeeps(cfg: Config, s: State, ev: Event)
    requires WellFormed(s) && Places(cfg, s) && Descriptors(s.pool.conns, s.place, s.main, s.fds)
    ensures var t := Apply(cfg, s, ev); Descriptors(t.pool.conns, t.place, t.main, t.fds)
  {
    if IsAdmission(ev) {
      AdmissionStepsKeep(cfg, s, ev);
    } else if IsOpening(ev) {
      OpeningStepsKeep(cfg, s, ev);
    } else if IsRegistration(ev) {
      RegistrationStepsKeep(cfg, s, ev);
    } else if IsClosing(ev) {
      ClosingStepsKeep(cfg, s, ev);
    } else if IsRecycling(ev) {
      RecyclingStepsKeep(cfg, s, ev);
    } else if IsExamination(ev) {
      ExaminationStepsKeep(cfg, s, ev);
    } else if IsKicking(ev) {
      KickingStepsKeep(cfg, s, ev);
    } else {
      OtherStepsKeep(cfg, s, ev);
    }
  }
}
