/** Every event keeps Places: each object is in exactly one place. */
module KeepPlaces {
  import opened ConnPool
  import opened TimerQueue
  import opened Lifecycle
  import opened Invariant

  // ---------- Lists ----------

  lemma ListsOther(q: seq<nat>, place: seq<Place>, p: Place, c: nat, to: Place)
    requires Lists(q, place, p) && c < |place| && place[c] != p && to != p
    ensures Lists(q, place[c := to], p)
  {
    forall k | 0 <= k < |q| ensures q[k] < |place| && place[c := to][q[k]] == p {
      assert place[q[k]] == p;
    }
  }

  lemma ListsGrow(q: seq<nat>, place: seq<Place>, p: Place, to: Place)
    requires Lists(q, place, p) && to != p
    ensures Lists(q, place + [to], p)
  {
    forall k | 0 <= k < |q| ensures q[k] < |place| + 1 && (place + [to])[q[k]] == p {
      assert place[q[k]] == p;
    }
  }

  lemma ListsPush(q: seq<nat>, place: seq<Place>, p: Place, c: nat)
    requires Lists(q, place, p) && c < |place| && place[c] != p
    ensures Lists(q + [c], place[c := p], p)
  {
    forall d | 0 <= d < |place| && place[c := p][d] == p ensures d in q + [c] {
      if d != c {
        assert d in q;
      }
    }
  }

  lemma ListsTake(q: seq<nat>, place: seq<Place>, p: Place, i: nat, to: Place)
    requires Lists(q, place, p) && i < |q| && to != p
    ensures Lists(q[..i] + q[i + 1..], place[q[i] := to], p)
  {
    var rest := q[..i] + q[i + 1..];
    forall k | 0 <= k < |rest| ensures rest[k] < |place| && place[q[i] := to][rest[k]] == p {
      assert rest[k] == q[if k < i then k else k + 1];
    }
    forall d | 0 <= d < |place| && place[q[i] := to][d] == p ensures d in rest {
      assert d in q;
      var k :| 0 <= k < |q| && q[k] == d;
      assert rest[if k < i then k else k - 1] == d;
    }
  }

  /** Neither list changes when `c` moves between other places. */
  lemma BothListsOther(s: State, c: nat, to: Place)
    requires Lists(s.pool.free, s.place, Free) && Lists(s.pool.recy, s.place, Recycling)
    requires c < |s.place| && s.place[c] != Free && s.place[c] != Recycling && to != Free && to != Recycling
    ensures Lists(s.pool.free, s.place[c := to], Free) && Lists(s.pool.recy, s.place[c := to], Recycling)
  {
    ListsOther(s.pool.free, s.place, Free, c, to);
    ListsOther(s.pool.recy, s.place, Recycling, c, to);
  }

  lemma ConnsMoved(listeners: nat, conns: seq<Conn>, place: seq<Place>, c: nat, conn: Conn, to: Place)
    requires ConnsOk(listeners, conns, place) && listeners <= c < |conns| && to != Listener && ConnOk(conn, to)
    ensures ConnsOk(listeners, conns[c := conn], place[c := to])
  {
  }

  /** At most one object changes, within its place. */
  lemma StayPartition(cfg: Config, s: State, t: State, c: nat)
    requires Partition(cfg, s) && t.place == s.place && c < |s.place| && |t.pool.conns| == |s.pool.conns| == |s.place|
    requires t.pool == s.pool.(conns := s.pool.conns[c := t.pool.conns[c]], online := t.pool.online)
    requires ConnOk(t.pool.conns[c], t.place[c])
    ensures Partition(cfg, t)
  {
  }

  lemma SamePartition(cfg: Config, s: State, t: State)
    requires Partition(cfg, s) && t.place == s.place && t.pool == s.pool.(online := t.pool.online)
    ensures Partition(cfg, t)
  {
  }

  // ---------- The threads ----------

  lemma ReleaseKeeps(cfg: Config, s: State, c: nat)
    requires WellFormed(s) && Places(cfg, s) && At(s.place, c, Open)
    ensures Partition(cfg, ReleaseUse(s, c))
  {
    BothListsOther(s, c, Released);
    assert s.pool.conns[c := s.pool.conns[c]] == s.pool.conns;
    ConnsMoved(cfg.listeners, s.pool.conns, s.place, c, s.pool.conns[c], Released);
  }

  lemma ReleaseThreads(cfg: Config, s: State, c: nat)
    requires WellFormed(s) && Threads(cfg, s) && At(s.place, c, Open) && s.main == MIdle && cfg.listeners <= c
    requires !s.pool.conns[c].isTimeout
    ensures Threads(cfg, ReleaseUse(s, c).(main := MReleased(c)))
  {
  }

  lemma ForgetKeeps(cfg: Config, s: State, c: nat)
    requires WellFormed(s) && Places(cfg, s) && At(s.place, c, Released)
    ensures Partition(cfg, ForgetUse(s, c))
  {
    BothListsOther(s, c, Closing);
    ConnsMoved(cfg.listeners, s.pool.conns, s.place, c, s.pool.conns[c].(fd := CLOSED), Closing);
  }

  /** The object enters the recycle list: it is not in it before. */
  lemma EnqueueKeeps(cfg: Config, s: State, c: nat)
    requires Places(cfg, s) && At(s.place, c, Closing)
    ensures c !in s.pool.recy
    ensures var t := EnqueueUse(s, c);
      && t.place == s.place[c := Recycling]
      && ConnsOk(cfg.listeners, t.pool.conns, t.place)
      && Lists(t.pool.free, t.place, Free) && Lists(t.pool.recy, t.place, Recycling) && Counted(t.pool)
  {
    assert c !in s.pool.recy;
    ListsPush(s.pool.recy, s.place, Recycling, c);
    ListsOther(s.pool.free, s.place, Free, c, Recycling);
    ConnsMoved(cfg.listeners, s.pool.conns, s.place, c,
               s.pool.conns[c].(inRecyList := true, inRecyTime := s.now), Recycling);
  }

  /** An entry that passes the test belongs to a live use that is completely open. */
  lemma MarkedIsLive(cfg: Config, s: State, e: Entry)
    requires Places(cfg, s) && UsesOk(cfg.listeners, s.pool.conns, s.place, s.hist.uses)
    requires Entered(s.pool.conns, s.place, s.main, s.hist.uses, e.Pair()) && !ConnLocked(s, e.conn)
    ensures NotOutdated(s.pool.conns[e.conn], e.sequence) <==> Judgeable(s.pool.conns, s.place, e.Pair())
    ensures Judgeable(s.pool.conns, s.place, e.Pair()) ==> !((Opened(s.main) || InHandOf(s.main)) && s.main.c == e.conn)
  {
    NotOutdatedOlder(s.pool.conns[e.conn], e.sequence);
  }

  lemma ReuseKeeps(cfg: Config, s: State, junk: Conn)
    requires WellFormed(s) && Places(cfg, s) && s.main.MSized? && s.pool.free != []
    ensures Partition(cfg, AcceptGetStep(s, junk))
  {
    var c := s.pool.free[0];
    ListsTake(s.pool.free, s.place, Free, 0, InHand);
    assert s.pool.free[..0] + s.pool.free[1..] == s.pool.free[1..];
    ListsOther(s.pool.recy, s.place, Recycling, c, InHand);
    assert s.pool.conns[c := s.pool.conns[c]] == s.pool.conns;
    ConnsMoved(cfg.listeners, s.pool.conns, s.place, c, s.pool.conns[c], InHand);
  }

  lemma ReuseThreads(cfg: Config, s: State, junk: Conn)
    requires WellFormed(s) && Places(cfg, s) && s.main.MSized? && s.pool.free != []
    ensures Threads(cfg, AcceptGetStep(s, junk))
  {
    assert ConnOk(s.pool.conns[s.pool.free[0]], Free);
  }

  lemma CreateKeeps(cfg: Config, s: State, junk: Conn)
    requires WellFormed(s) && Places(cfg, s) && s.main.MSized? && s.pool.free == []
    ensures Places(cfg, AcceptGetStep(s, junk))
  {
    ListsGrow(s.pool.free, s.place, Free, InHand);
    ListsGrow(s.pool.recy, s.place, Recycling, InHand);
  }

  lemma TakeKeeps(cfg: Config, s: State)
    requires WellFormed(s) && Places(cfg, s) && s.rec.RPass? && s.rec.i < |s.pool.recy|
    requires RecycleDue(s.pool.conns[s.pool.recy[s.rec.i]], cfg.delay, s.now)
    ensures Partition(cfg, RecyStepStep(cfg, s))
  {
    var c := s.pool.recy[s.rec.i];
    ListsTake(s.pool.recy, s.place, Recycling, s.rec.i, Transit);
    ListsOther(s.pool.free, s.place, Free, c, Transit);
    ConnsMoved(cfg.listeners, s.pool.conns, s.place, c, BumpSequence(s.pool.conns[c]), Transit);
  }

  lemma TakeThreads(cfg: Config, s: State)
    requires WellFormed(s) && Places(cfg, s) && s.rec.RPass? && s.rec.i < |s.pool.recy|
    requires RecycleDue(s.pool.conns[s.pool.recy[s.rec.i]], cfg.delay, s.now)
    ensures Threads(cfg, RecyStepStep(cfg, s))
  {
  }

  lemma MarkKeeps(cfg: Config, s: State, e: Entry)
    requires WellFormed(s) && Places(cfg, s) && s.tim.TExam? && s.tim.todo != [] && e == s.tim.todo[0]
    requires e.conn < |s.place| && s.place[e.conn] == Open && TimCheckStep(cfg, s).tim.TMarked?
    ensures Partition(cfg, TimCheckStep(cfg, s))
  {
    assert s.place[e.conn := Open] == s.place;
    ConnsMoved(cfg.listeners, s.pool.conns, s.place, e.conn, s.pool.conns[e.conn].(isTimeout := true), Open);
  }

  lemma CheckOnlyMoves(cfg: Config, s: State)
    requires WellFormed(s) && Threads(cfg, s) && (s.tim.TMarked? || !TimCheckStep(cfg, s).tim.TMarked?)
    ensures Threads(cfg, TimCheckStep(cfg, s)) && TimCheckStep(cfg, s).pool == s.pool
    ensures TimCheckStep(cfg, s).place == s.place
  {
  }

  lemma MarkThreads(cfg: Config, s: State, e: Entry)
    requires WellFormed(s) && Threads(cfg, s) && s.tim.TExam? && s.tim.todo != [] && e == s.tim.todo[0]
    requires e.conn < |s.place| && s.place[e.conn] == Open && s.pool.conns[e.conn].sequence == e.sequence
    requires HasConn(s.main) && s.main.c == e.conn ==> !Opened(s.main) && !InHandOf(s.main)
    requires TimCheckStep(cfg, s).tim.TMarked?
    ensures Threads(cfg, TimCheckStep(cfg, s))
  {
  }

  // ---------- The steps ----------

  lemma AcceptOnlineThreads(cfg: Config, s: State, connfd: int)
    requires Threads(cfg, s)
    ensures Threads(cfg, AcceptOnlineStep(cfg, s, connfd))
  {
  }

  lemma AcceptSizesThreads(cfg: Config, s: State)
    requires Threads(cfg, s)
    ensures Threads(cfg, AcceptSizesStep(cfg, s))
  {
  }

  lemma AcceptGetKeeps(cfg: Config, s: State, junk: Conn)
    requires WellFormed(s) && Places(cfg, s)
    ensures Places(cfg, AcceptGetStep(s, junk))
  {
    if s.main.MSized? {
      if s.pool.free != [] {
        ReuseKeeps(cfg, s, junk);
        ReuseThreads(cfg, s, junk);
      } else {
        CreateKeeps(cfg, s, junk);
      }
    }
  }

  lemma AdmissionStepsKeep(cfg: Config, s: State, ev: Event)
    requires WellFormed(s) && Places(cfg, s)
    requires IsAdmission(ev)
    ensures Places(cfg, Apply(cfg, s, ev))
  {
    match ev
    case AcceptOnline(connfd) =>
      AcceptOnlineThreads(cfg, s, connfd);
      SamePartition(cfg, s, AcceptOnlineStep(cfg, s, connfd));
    case AcceptSizes =>
      AcceptSizesThreads(cfg, s);
      SamePartition(cfg, s, AcceptSizesStep(cfg, s));
    case AcceptGet(junk) => AcceptGetKeeps(cfg, s, junk);
  }

  lemma AcceptBumpKeeps(cfg: Config, s: State)
    requires WellFormed(s) && Places(cfg, s)
    ensures Places(cfg, AcceptBumpStep(s))
  {
    if s.main.MGot? && s.pool.conns[s.main.c].sequence + 2 < SEQUENCE_LIMIT {
      assert s.place[s.main.c := InHand] == s.place;
      ConnsMoved(cfg.listeners, s.pool.conns, s.place, s.main.c, BumpSequence(s.pool.conns[s.main.c]), InHand);
    }
  }

  lemma AcceptClearKeeps(cfg: Config, s: State)
    requires WellFormed(s) && Places(cfg, s)
    ensures Places(cfg, AcceptClearStep(s))
  {
  }

  lemma AcceptSetFdKeeps(cfg: Config, s: State)
    requires WellFormed(s) && Places(cfg, s) && Descriptors(s.pool.conns, s.place, s.main, s.fds)
    ensures Places(cfg, AcceptSetFdStep(s))
  {
    if s.main.MCleared? {
      BothListsOther(s, s.main.c, Open);
    }
  }

  lemma OpeningStepsKeep(cfg: Config, s: State, ev: Event)
    requires WellFormed(s) && Places(cfg, s) && Descriptors(s.pool.conns, s.place, s.main, s.fds)
    requires IsOpening(ev)
    ensures Places(cfg, Apply(cfg, s, ev))
  {
    match ev
    case AcceptBump => AcceptBumpKeeps(cfg, s);
    case AcceptClear => AcceptClearKeeps(cfg, s);
    case AcceptSetFd => AcceptSetFdKeeps(cfg, s);
  }

  lemma DirectKeeps(cfg: Config, s: State)
    requires WellFormed(s) && Places(cfg, s) && s.main.MOpened? && !ConnLocked(s, s.main.c)
    ensures Partition(cfg, AcceptEpollStep(s, false))
  {
    var c := s.main.c;
    ListsPush(s.pool.free, s.place, Free, c);
    ListsOther(s.pool.recy, s.place, Recycling, c, Free);
    ConnsMoved(cfg.listeners, s.pool.conns, s.place, c, BumpSequence(s.pool.conns[c].(fd := CLOSED)), Free);
  }

  lemma AcceptEpollThreads(cfg: Config, s: State, ok: bool)
    requires WellFormed(s) && Threads(cfg, s)
    ensures Threads(cfg, AcceptEpollStep(s, ok))
  {
  }

  lemma AcceptEpollKeeps(cfg: Config, s: State, ok: bool)
    requires WellFormed(s) && Places(cfg, s)
    ensures Places(cfg, AcceptEpollStep(s, ok))
  {
    AcceptEpollThreads(cfg, s, ok);
    if s.main.MOpened? && !ok && !ConnLocked(s, s.main.c) {
      DirectKeeps(cfg, s);
    } else {
      SamePartition(cfg, s, AcceptEpollStep(s, ok));
    }
  }

  lemma AcceptStampKeeps(cfg: Config, s: State)
    requires WellFormed(s) && Places(cfg, s)
    ensures Places(cfg, AcceptStampStep(cfg, s))
  {
  }

  lemma RegistrationStepsKeep(cfg: Config, s: State, ev: Event)
    requires WellFormed(s) && Places(cfg, s)
    requires IsRegistration(ev)
    ensures Places(cfg, Apply(cfg, s, ev))
  {
    match ev
    case AcceptEpoll(ok) => AcceptEpollKeeps(cfg, s, ok);
    case AcceptStamp => AcceptStampKeeps(cfg, s);
    case _ =>
  }

  lemma CloseBeginKeeps(cfg: Config, s: State, c: nat)
    requires WellFormed(s) && Places(cfg, s)
    ensures Places(cfg, CloseBeginStep(cfg, s, c))
  {
    if s.main == MIdle && cfg.listeners <= c < |s.pool.conns| && !CloseIgnored(s.pool.conns[c], false)
       && !ConnLocked(s, c)
    {
      assert ConnOk(s.pool.conns[c], s.place[c]);
      ReleaseKeeps(cfg, s, c);
      ReleaseThreads(cfg, s, c);
    }
  }

  lemma CloseClearKeeps(cfg: Config, s: State)
    requires WellFormed(s) && Places(cfg, s)
    ensures Places(cfg, CloseClearStep(s))
  {
    if s.main.MReleased? {
      ForgetKeeps(cfg, s, s.main.c);
    }
  }

  lemma CloseEndThreads(cfg: Config, s: State)
    requires WellFormed(s) && Threads(cfg, s) && s.main.MClosing? && !RecyLocked(s)
    requires !s.pool.conns[s.main.c].inRecyList && s.main.c !in s.pool.recy
    ensures Threads(cfg, CloseEndStep(s))
  {
  }

  lemma CloseEndKeeps(cfg: Config, s: State)
    requires WellFormed(s) && Places(cfg, s)
    ensures Places(cfg, CloseEndStep(s))
  {
    if s.main.MClosing? && !RecyLocked(s) {
      EnqueueKeeps(cfg, s, s.main.c);
      assert ConnOk(s.pool.conns[s.main.c], Closing);
      CloseEndThreads(cfg, s);
    }
  }

  lemma ClosingStepsKeep(cfg: Config, s: State, ev: Event)
    requires WellFormed(s) && Places(cfg, s)
    requires IsClosing(ev)
    ensures Places(cfg, Apply(cfg, s, ev))
  {
    match ev
    case CloseBegin(c) => CloseBeginKeeps(cfg, s, c);
    case CloseClear => CloseClearKeeps(cfg, s);
    case CloseEnd => CloseEndKeeps(cfg, s);
  }

  lemma RecyStepKeeps(cfg: Config, s: State)
    requires WellFormed(s) && Places(cfg, s)
    ensures Places(cfg, RecyStepStep(cfg, s))
  {
    if s.rec.RPass? && s.rec.i < |s.pool.recy| && RecycleDue(s.pool.conns[s.pool.recy[s.rec.i]], cfg.delay, s.now) {
      TakeKeeps(cfg, s);
      TakeThreads(cfg, s);
    }
  }

  lemma RecyFreeKeeps(cfg: Config, s: State)
    requires WellFormed(s) && Places(cfg, s)
    ensures Places(cfg, RecyFreeStep(s))
  {
    if s.rec.RHold? {
      ListsPush(s.pool.free, s.place, Free, s.rec.c);
      ListsOther(s.pool.recy, s.place, Recycling, s.rec.c, Free);
      assert s.pool.conns[s.rec.c := s.pool.conns[s.rec.c]] == s.pool.conns;
      ConnsMoved(cfg.listeners, s.pool.conns, s.place, s.rec.c, s.pool.conns[s.rec.c], Free);
    }
  }

  lemma RecyclingStepsKeep(cfg: Config, s: State, ev: Event)
    requires WellFormed(s) && Places(cfg, s)
    requires IsRecycling(ev)
    ensures Places(cfg, Apply(cfg, s, ev))
  {
    match ev
    case RecyStep => RecyStepKeeps(cfg, s);
    case RecyFree => RecyFreeKeeps(cfg, s);
    case _ =>
  }

  lemma TimDrainKeeps(cfg: Config, s: State)
    requires WellFormed(s) && Places(cfg, s)
    ensures Places(cfg, TimDrainStep(cfg, s))
  {
  }

  lemma TimCheckKeeps(cfg: Config, s: State)
    requires WellFormed(s) && Places(cfg, s)
    requires UsesOk(cfg.listeners, s.pool.conns, s.place, s.hist.uses) && EntriesOk(s)
    ensures Places(cfg, TimCheckStep(cfg, s))
  {
    if TimCheckStep(cfg, s).tim.TMarked? && s.tim.TExam? {
      ExamEntered(s, s.tim.todo[0]);
      MarkedIsLive(cfg, s, s.tim.todo[0]);
      MarkKeeps(cfg, s, s.tim.todo[0]);
      MarkThreads(cfg, s, s.tim.todo[0]);
    } else {
      CheckOnlyMoves(cfg, s);
      SamePartition(cfg, s, TimCheckStep(cfg, s));
    }
  }

  lemma TimDeleteKeeps(cfg: Config, s: State)
    requires WellFormed(s) && Places(cfg, s)
    ensures Places(cfg, TimDeleteStep(s))
  {
  }

  lemma ExaminationStepsKeep(cfg: Config, s: State, ev: Event)
    requires WellFormed(s) && Places(cfg, s)
    requires UsesOk(cfg.listeners, s.pool.conns, s.place, s.hist.uses) && EntriesOk(s)
    requires IsExamination(ev)
    ensures Places(cfg, Apply(cfg, s, ev))
  {
    match ev
    case TimDrain => TimDrainKeeps(cfg, s);
    case TimCheck => TimCheckKeeps(cfg, s);
    case TimDelete => TimDeleteKeeps(cfg, s);
    case _ =>
  }

  lemma TimKickThreads(cfg: Config, s: State)
    requires WellFormed(s) && Threads(cfg, s) && s.tim.TKick? && s.pool.conns[s.tim.e.conn].fd != CLOSED
    ensures Threads(cfg, TimKickStep(s))
  {
  }

  lemma TimKickKeeps(cfg: Config, s: State)
    requires WellFormed(s) && Places(cfg, s)
    ensures Places(cfg, TimKickStep(s))
  {
    if s.tim.TKick? {
      assert ConnOk(s.pool.conns[s.tim.e.conn], Open);
      ReleaseKeeps(cfg, s, s.tim.e.conn);
      TimKickThreads(cfg, s);
    }
  }

  lemma TimClearKeeps(cfg: Config, s: State)
    requires WellFormed(s) && Places(cfg, s)
    ensures Places(cfg, TimClearStep(s))
  {
    if s.tim.TReleased? {
      ForgetKeeps(cfg, s, s.tim.e.conn);
    }
  }

  lemma TimEndThreads(cfg: Config, s: State)
    requires WellFormed(s) && Threads(cfg, s) && s.tim.TClosing? && !RecyLocked(s)
    requires s.tim.e.conn < |s.pool.conns| && !s.pool.conns[s.tim.e.conn].inRecyList && s.tim.e.conn !in s.pool.recy
    ensures Threads(cfg, TimEndStep(s))
  {
  }

  lemma TimEndKeeps(cfg: Config, s: State)
    requires WellFormed(s) && Places(cfg, s)
    ensures Places(cfg, TimEndStep(s))
  {
    if s.tim.TClosing? && !RecyLocked(s) {
      EnqueueKeeps(cfg, s, s.tim.e.conn);
      assert ConnOk(s.pool.conns[s.tim.e.conn], Closing);
      TimEndThreads(cfg, s);
    }
  }

  lemma KickingStepsKeep(cfg: Config, s: State, ev: Event)
    requires WellFormed(s) && Places(cfg, s)
    requires IsKicking(ev)
    ensures Places(cfg, Apply(cfg, s, ev))
  {
    match ev
    case TimKick => TimKickKeeps(cfg, s);
    case TimClear => TimClearKeeps(cfg, s);
    case TimEnd => TimEndKeeps(cfg, s);
  }

  lemma PingThreads(cfg: Config, s: State, c: nat)
    requires WellFormed(s) && Threads(cfg, s)
    ensures Threads(cfg, PingStep(cfg, s, c))
  {
  }

  lemma OtherStepsKeep(cfg: Config, s: State, ev: Event)
    requires WellFormed(s) && Places(cfg, s)
    requires IsOther(ev)
    ensures Places(cfg, Apply(cfg, s, ev))
  {
    match ev
    case Tick(d) =>
    case Ping(c) =>
      PingThreads(cfg, s, c);
      if c < |s.place| {
        assert ConnOk(s.pool.conns[c], s.place[c]);
        StayPartition(cfg, s, PingStep(cfg, s, c), c);
      }
  }

  lemma EventKeeps(cfg: Config, s: State, ev: Event)
    requires WellFormed(s) && Places(cfg, s) && Descriptors(s.pool.conns, s.place, s.main, s.fds)
    requires UsesOk(cfg.listeners, s.pool.conns, s.place, s.hist.uses) && EntriesOk(s)
    ensures Places(cfg, Apply(cfg, s, ev))
  {
    if IsAdmission(ev) {
      AdmissionStepsKeep(cfg, s, ev);
    } else if IsOpening(ev) {
      OpeningStepsKeep(cfg, s, ev);
    } else if IsRegistration(ev) {
      RegistrationStepsKeep(cfg, s, ev);
    } else if IsClosing(ev) {
      ClosingStepsKeep(cfg, s, ev);
    } else if IsRecycling(ev) {
      RecyclingStepsKeep(cfg, s, ev);
    } else if IsExamination(ev) {
      ExaminationStepsKeep(cfg, s, ev);
    } else if IsKicking(ev) {
      KickingStepsKeep(cfg, s, ev);
    } else {
      OtherStepsKeep(cfg, s, ev);
    }
  }
}
