/** Every event keeps TimerOk, EntriesOk and Agreement. */
module KeepTimer {
  import opened ConnPool
  import opened TimerQueue
  import opened Lifecycle
  import opened Invariant
  import KeepPlaces
  import KeepEntered

  /** Timer and records unchanged. */
  ghost predicate SameTimer(s: State, t: State) {
    && t.timer == s.timer && Exam(t.tim) == Exam(s.tim) && t.hist.dropped == s.hist.dropped
    && (t.tim.TStale? ==> s.tim.TStale? && t.tim.e == s.tim.e)
  }

  lemma TrackedStay(s: State, t: State)
    requires EntriesOk(s) && KeepEntered.Grows(s, t) && SameTimer(s, t)
    ensures EntriesOk(t)
  {
    forall u | Tracked(t, u) ensures Entered(t.pool.conns, t.place, t.main, t.hist.uses, u) {
      assert Tracked(s, u);
    }
    if t.tim.TStale? {
      assert t.tim.e in Exam(s.tim);
      ExamEntered(s, t.tim.e);
    }
  }

  /** The entry of a new use: its pair was never in the timer. */
  lemma NewPair(cfg: Config, s: State)
    requires EntriesOk(s) && s.main.MTimed? && s.main.c < |s.pool.conns| == |s.place|
    ensures !Tracked(s, (s.main.c, s.pool.conns[s.main.c].sequence))
    ensures (s.main.c, s.pool.conns[s.main.c].sequence) !in Pairs(s.timer)
  {
    assert NotTimed(s.pool.conns, s.place, s.main, (s.main.c, s.pool.conns[s.main.c].sequence));
  }

  /** One pair more. */
  lemma EntriesGrow(s: State, t: State, u: Use)
    requires EntriesOk(s) && KeepEntered.Grows(s, t) && t.tim == s.tim && t.hist.dropped == s.hist.dropped
    requires Pairs(t.timer) == Pairs(s.timer) + multiset{u}
    requires Entered(t.pool.conns, t.place, t.main, t.hist.uses, u)
    ensures EntriesOk(t)
  {
    forall v | Tracked(t, v) && v != u ensures Entered(t.pool.conns, t.place, t.main, t.hist.uses, v) {
      assert Tracked(s, v);
    }
    if t.tim.TStale? {
      ExamEntered(s, t.tim.e);
    }
  }

  /** One entry more, for the use that was being opened. */
  lemma AgreementGrows(s: State, t: State, u: Use)
    requires Agreement(s) && t.pool == s.pool && t.place == s.place && t.tim == s.tim
    requires Opened(s.main) && s.main.c == u.0 && Current(s.pool.conns, s.place, u)
    requires Pairs(t.timer) == Pairs(s.timer) + multiset{u} && u !in Pairs(s.timer)
    ensures Agreement(t)
  {
  }

  lemma TimerGrows(q: seq<Entry>, dropped: set<Use>, e: Entry)
    requires TimerOk(q, dropped) && e.Pair() !in Pairs(q) && e.Pair() !in dropped
    ensures TimerOk(Insert(q, e), dropped)
  {
    InsertSorted(q, e);
    InsertPairs(q, e);
  }

  lemma InsertKeepsOrder(cfg: Config, s: State)
    requires EntriesOk(s) && TimerOk(s.timer, s.hist.dropped)
    requires s.main.MTimed? && !TimerLocked(s) && s.main.c < |s.pool.conns| == |s.place|
    ensures var t := AcceptInsertStep(cfg, s); TimerOk(t.timer, t.hist.dropped)
  {
    NewPair(cfg, s);
    TimerGrows(s.timer, s.hist.dropped, Entry(s.main.t + cfg.wait, s.main.c, s.pool.conns[s.main.c].sequence));
  }

  lemma InsertKeepsEntries(cfg: Config, s: State)
    requires EntriesOk(s) && s.main.MTimed? && !TimerLocked(s) && s.main.c < |s.pool.conns| == |s.place|
    requires KeepEntered.Grows(s, AcceptInsertStep(cfg, s))
    requires (s.main.c, s.pool.conns[s.main.c].sequence) in s.hist.uses
    ensures EntriesOk(AcceptInsertStep(cfg, s))
  {
    var e := Entry(s.main.t + cfg.wait, s.main.c, s.pool.conns[s.main.c].sequence);
    InsertPairs(s.timer, e);
    var t := AcceptInsertStep(cfg, s);
    assert Pairs(t.timer) == Pairs(s.timer) + multiset{e.Pair()};
    EntriesGrow(s, t, e.Pair());
  }

  lemma InsertKeepsAgreement(cfg: Config, s: State)
    requires s.main.MTimed? && !TimerLocked(s) && s.main.c < |s.pool.conns| == |s.place| && Agreement(s)
    requires (s.main.c, s.pool.conns[s.main.c].sequence) !in Pairs(s.timer)
    ensures Agreement(AcceptInsertStep(cfg, s))
  {
    var e := Entry(s.main.t + cfg.wait, s.main.c, s.pool.conns[s.main.c].sequence);
    InsertPairs(s.timer, e);
    AgreementGrows(s, AcceptInsertStep(cfg, s), e.Pair());
  }

  lemma DrainKeeps(cfg: Config, s: State)
    requires EntriesOk(s) && TimerOk(s.timer, s.hist.dropped)
    ensures var t := TimDrainStep(cfg, s);
      TimerOk(t.timer, t.hist.dropped) && EntriesOk(t) && (Agreement(s) ==> Agreement(t))
  {
    if s.tim.TRead? {
      DrainKeepsPairs(s.timer, s.tim.cur, cfg.wait);
      DuePairs(s.timer, s.tim.cur);
      var t := TimDrainStep(cfg, s);
      forall u | Tracked(t, u) ensures Entered(t.pool.conns, t.place, t.main, t.hist.uses, u) {
        assert Tracked(s, u);
      }
    }
  }

  lemma DeleteKeepsOrder(q: seq<Entry>, dropped: set<Use>, u: Use)
    requires TimerOk(q, dropped)
    ensures TimerOk(Delete(q, u), dropped + {u})
  {
    DeleteKeepsSorted(q, u);
    DeletePairs(q, u);
  }

  lemma DeletedBefore(q: seq<Entry>, pair: Use, u: Use)
    requires u in Pairs(Delete(q, pair))
    ensures u in Pairs(q)
  {
    DeletePairs(q, pair);
  }

  lemma HeadPair(e: Entry, todo: seq<Entry>, u: Use)
    ensures u in Pairs([e] + todo) <==> u == e.Pair() || u in Pairs(todo)
  {
    assert ([e] + todo)[1..] == todo;
  }

  /** What is to be examined does not grow, and has the deleted pair. */
  lemma DeleteExam(s: State)
    requires s.tim.TStale? || s.tim.TMarked?
    ensures Exam(s.tim) == [s.tim.e] + s.tim.todo
    ensures var t := TimDeleteStep(s);
      && (Exam(t.tim) == Exam(s.tim) || Exam(t.tim) == s.tim.todo) && t.timer == Delete(s.timer, s.tim.e.Pair())
      && t.hist.dropped == s.hist.dropped + {s.tim.e.Pair()}
  {
  }

  lemma DeleteTracksNoMore(s: State, t: State, e: Entry, todo: seq<Entry>, u: Use)
    requires Exam(s.tim) == [e] + todo && (Exam(t.tim) == Exam(s.tim) || Exam(t.tim) == todo)
    requires t.timer == Delete(s.timer, e.Pair()) && t.hist.dropped == s.hist.dropped + {e.Pair()}
    requires Tracked(t, u)
    ensures Tracked(s, u)
  {
    HeadPair(e, todo, u);
    if u in Pairs(t.timer) {
      DeletedBefore(s.timer, e.Pair(), u);
    }
  }

  lemma DeleteKeepsEntries(s: State)
    requires EntriesOk(s) && (s.tim.TStale? || s.tim.TMarked?)
    ensures EntriesOk(TimDeleteStep(s))
  {
    var t := TimDeleteStep(s);
    DeleteExam(s);
    forall u | Tracked(t, u) ensures Entered(t.pool.conns, t.place, t.main, t.hist.uses, u) {
      DeleteTracksNoMore(s, t, s.tim.e, s.tim.todo, u);
    }
  }

  lemma DeleteKeepsAgreement(s: State)
    requires EntriesOk(s) && TimOk(s.pool.conns, s.place, s.tim) && Agreement(s) && (s.tim.TStale? || s.tim.TMarked?)
    ensures Agreement(TimDeleteStep(s))
  {
    DeletePairs(s.timer, s.tim.e.Pair());
    var t := TimDeleteStep(s);
    forall u | Judgeable(t.pool.conns, t.place, u) && !Unsettled(t.main, t.tim, u) ensures Pairs(t.timer)[u] == 1 {
      assert !Unsettled(s.main, s.tim, u);
    }
  }

  /** The timer thread goes on to the next entry, or stays at this one. */
  lemma ExamShrinks(s: State, t: State)
    requires KeepEntered.Grows(s, t) && EntriesOk(s) && t.timer == s.timer && t.hist.dropped == s.hist.dropped
    requires Exam(t.tim) == Exam(s.tim) || (Exam(s.tim) != [] && Exam(t.tim) == Exam(s.tim)[1..])
    requires t.tim.TStale? ==> !Judgeable(t.pool.conns, t.place, t.tim.e.Pair())
    ensures EntriesOk(t)
  {
    forall u | Tracked(t, u) ensures Entered(t.pool.conns, t.place, t.main, t.hist.uses, u) {
      assert Tracked(s, u);
    }
  }

  /** The test tells whether the use of the entry is live. */
  lemma StaleIsStale(cfg: Config, s: State)
    requires WellFormed(s) && Places(cfg, s) && UsesKept(cfg, s) && EntriesOk(s) && s.tim.TExam?
    ensures var t := TimCheckStep(cfg, s); t.tim.TStale? ==> !Judgeable(t.pool.conns, t.place, t.tim.e.Pair())
  {
    if s.tim.todo != [] {
      ExamEntered(s, s.tim.todo[0]);
      if !ConnLocked(s, s.tim.todo[0].conn) {
        KeepPlaces.MarkedIsLive(cfg, s, s.tim.todo[0]);
      }
    }
  }

  lemma CheckKeeps(cfg: Config, s: State)
    requires WellFormed(s) && Places(cfg, s) && UsesKept(cfg, s) && EntriesOk(s)
    ensures EntriesOk(TimCheckStep(cfg, s))
  {
    if s.tim.TExam? {
      var t := TimCheckStep(cfg, s);
      StaleIsStale(cfg, s);
      KeepEntered.TimCheckKeeps(cfg, s);
      assert s.tim.todo != [] ==> [s.tim.todo[0]] + s.tim.todo[1..] == s.tim.todo;
      ExamShrinks(s, t);
    }
  }

  lemma AcceptEventSame(cfg: Config, s: State, ev: Event)
    requires WellFormed(s) && (IsAdmission(ev) || IsOpening(ev) || IsRegistration(ev)) && !Changes(ev)
    ensures SameTimer(s, Apply(cfg, s, ev)) && Apply(cfg, s, ev).tim == s.tim && s.now <= Apply(cfg, s, ev).now
  {
  }

  lemma OtherEventSame(cfg: Config, s: State, ev: Event)
    requires WellFormed(s) && !Changes(ev) && !Walks(ev)
    ensures SameTimer(s, Apply(cfg, s, ev)) && Apply(cfg, s, ev).tim == s.tim && s.now <= Apply(cfg, s, ev).now
  {
    if IsAdmission(ev) || IsOpening(ev) || IsRegistration(ev) {
      AcceptEventSame(cfg, s, ev);
    }
  }

  lemma InsertKeeps(cfg: Config, s: State)
    requires WellFormed(s) && Places(cfg, s) && UsesKept(cfg, s) && EntriesOk(s) && TimerOk(s.timer, s.hist.dropped)
    ensures var t := AcceptInsertStep(cfg, s); TimerOk(t.timer, t.hist.dropped) && EntriesOk(t)
  {
    if s.main.MTimed? && !TimerLocked(s) {
      KeepEntered.AcceptInsertKeeps(cfg, s);
      InsertKeepsOrder(cfg, s);
      InsertKeepsEntries(cfg, s);
    }
  }

  lemma DeleteKeeps(s: State)
    requires EntriesOk(s) && TimerOk(s.timer, s.hist.dropped)
    ensures var t := TimDeleteStep(s); TimerOk(t.timer, t.hist.dropped) && EntriesOk(t)
  {
    if s.tim.TStale? || s.tim.TMarked? {
      DeleteKeepsOrder(s.timer, s.hist.dropped, s.tim.e.Pair());
      DeleteKeepsEntries(s);
    }
  }

  /** A kick keeps its entry in hand, and the end of the kick lets it go. */
  lemma KickShape(s: State, t: State)
    requires WellFormed(s) && (t == TimKickStep(s) || t == TimClearStep(s) || t == TimEndStep(s))
    ensures t.timer == s.timer && t.hist.dropped == s.hist.dropped && (t.tim == s.tim || !t.tim.TStale?)
    ensures Exam(t.tim) == Exam(s.tim) || (Exam(s.tim) != [] && Exam(t.tim) == Exam(s.tim)[1..])
  {
    if s.tim.TKick? || TimerLocks(s.tim) {
      assert Exam(s.tim)[1..] == s.tim.todo;
    }
  }

  lemma KickKeeps(cfg: Config, s: State, t: State)
    requires WellFormed(s) && EntriesOk(s) && KeepEntered.Grows(s, t)
    requires (t == TimKickStep(s) || t == TimClearStep(s) || t == TimEndStep(s))
    ensures EntriesOk(t)
  {
    KickShape(s, t);
    if t.tim.TStale? {
      ExamEntered(s, s.tim.e);
    }
    ExamShrinks(s, t);
  }

  /** The events that change the timer ... */
  predicate Changes(ev: Event) {
    ev.AcceptInsert? || ev.TimDrain? || ev.TimDelete?
  }

  lemma ChangeKeeps(cfg: Config, s: State, ev: Event)
    requires WellFormed(s) && Places(cfg, s) && UsesKept(cfg, s) && EntriesOk(s) && TimerOk(s.timer, s.hist.dropped)
    requires Changes(ev)
    ensures var t := Apply(cfg, s, ev); TimerOk(t.timer, t.hist.dropped) && EntriesOk(t)
  {
    match ev
    case AcceptInsert => InsertKeeps(cfg, s);
    case TimDrain => DrainKeeps(cfg, s);
    case TimDelete => DeleteKeeps(s);
  }

  /** ... and those that go through the entries to be examined. */
  predicate Walks(ev: Event) {
    ev.TimStart? || ev.TimCheck? || ev.TimKick? || ev.TimClear? || ev.TimEnd?
  }

  lemma KickEventKeeps(cfg: Config, s: State, ev: Event)
    requires WellFormed(s) && Places(cfg, s) && UsesKept(cfg, s) && EntriesOk(s)
    requires IsKicking(ev)
    ensures EntriesOk(Apply(cfg, s, ev))
  {
    KeepEntered.KickingStepsKeep(cfg, s, ev);
    KickKeeps(cfg, s, Apply(cfg, s, ev));
  }

  lemma WalkKeeps(cfg: Config, s: State, ev: Event)
    requires WellFormed(s) && Places(cfg, s) && UsesKept(cfg, s) && EntriesOk(s) && Walks(ev)
    ensures EntriesOk(Apply(cfg, s, ev))
  {
    match ev
    case TimStart => TrackedStay(s, TimStartStep(cfg, s));
    case TimCheck => CheckKeeps(cfg, s);
    case TimKick => KickEventKeeps(cfg, s, ev);
    case TimClear => KickEventKeeps(cfg, s, ev);
    case TimEnd => KickEventKeeps(cfg, s, ev);
  }

  lemma WalkSameTimer(cfg: Config, s: State, ev: Event)
    requires WellFormed(s) && Walks(ev)
    ensures var t := Apply(cfg, s, ev); t.timer == s.timer && t.hist.dropped == s.hist.dropped
  {
  }

  lemma EventKeeps(cfg: Config, s: State, ev: Event)
    requires WellFormed(s) && Places(cfg, s) && UsesKept(cfg, s) && EntriesOk(s) && TimerOk(s.timer, s.hist.dropped)
    ensures var t := Apply(cfg, s, ev); TimerOk(t.timer, t.hist.dropped) && EntriesOk(t)
  {
    if Changes(ev) {
      ChangeKeeps(cfg, s, ev);
    } else if Walks(ev) {
      WalkKeeps(cfg, s, ev);
      WalkSameTimer(cfg, s, ev);
    } else {
      KeepEntered.EventKeeps(cfg, s, ev);
      OtherEventSame(cfg, s, ev);
      TrackedStay(s, Apply(cfg, s, ev));
    }
  }

  // ---------- The steps ----------

  /** What a step leaves unsettled, apart from object c. */
  predicate Settles(s: State, t: State, c: int) {
    && (Opened(s.main) && s.main.c != c ==> Opened(t.main) && t.main.c == s.main.c)
    && (s.tim.TKick? && s.tim.e.conn != c ==> t.tim.TKick? && t.tim.e.conn == s.tim.e.conn)
  }

  /** No place and no sequence number changes. */
  lemma StayAgrees(s: State, t: State)
    requires Agreement(s) && t.timer == s.timer && |t.pool.conns| == |s.pool.conns| && t.place == s.place
    requires forall c | 0 <= c < |s.pool.conns| :: t.pool.conns[c].sequence == s.pool.conns[c].sequence
    requires Settles(s, t, -1)
    ensures Agreement(t)
  {
    forall u: Use | Judgeable(t.pool.conns, t.place, u) && !Unsettled(t.main, t.tim, u) ensures Pairs(t.timer)[u] == 1 {
      assert Judgeable(s.pool.conns, s.place, u) && !Unsettled(s.main, s.tim, u);
    }
  }

  /** Object c leaves its place, and is not open afterwards unless it is unsettled. */
  lemma LeaveAgrees(s: State, t: State, c: nat)
    requires Agreement(s) && t.timer == s.timer && |t.pool.conns| == |s.pool.conns| == |s.place| == |t.place|
    requires forall d | 0 <= d < |s.place| && d != c :: t.place[d] == s.place[d]
    requires forall d | 0 <= d < |s.place| && d != c :: t.pool.conns[d].sequence == s.pool.conns[d].sequence
    requires c < |s.place| && (t.place[c] == Open ==> Opened(t.main) && t.main.c == c)
    requires Settles(s, t, c)
    ensures Agreement(t)
  {
    forall u: Use | Judgeable(t.pool.conns, t.place, u) && !Unsettled(t.main, t.tim, u) ensures Pairs(t.timer)[u] == 1 {
      assert Judgeable(s.pool.conns, s.place, u) && !Unsettled(s.main, s.tim, u);
    }
  }

  lemma CreateAgrees(s: State, junk: Conn)
    requires WellFormed(s) && Agreement(s) && s.main.MSized? && s.pool.free == []
    ensures Agreement(AcceptGetStep(s, junk))
  {
    var t := AcceptGetStep(s, junk);
    forall u: Use | Judgeable(t.pool.conns, t.place, u) && !Unsettled(t.main, t.tim, u) ensures Pairs(t.timer)[u] == 1 {
      assert Judgeable(s.pool.conns, s.place, u) && !Unsettled(s.main, s.tim, u);
    }
  }

  lemma AdmissionStepsAgree(cfg: Config, s: State, ev: Event)
    requires WellFormed(s) && Places(cfg, s) && Agreement(s) && IsAdmission(ev)
    ensures Agreement(Apply(cfg, s, ev))
  {
    if !ev.AcceptGet? || !s.main.MSized? {
      StayAgrees(s, Apply(cfg, s, ev));
    } else if s.pool.free != [] {
      assert s.place[s.pool.free[0]] == Free;
      LeaveAgrees(s, Apply(cfg, s, ev), s.pool.free[0]);
    } else {
      CreateAgrees(s, ev.junk);
    }
  }

  lemma OpeningStepsAgree(cfg: Config, s: State, ev: Event)
    requires WellFormed(s) && Threads(cfg, s) && Agreement(s) && IsOpening(ev)
    ensures Agreement(Apply(cfg, s, ev))
  {
    if HasConn(s.main) && Apply(cfg, s, ev) != s {
      LeaveAgrees(s, Apply(cfg, s, ev), s.main.c);
    }
  }

  lemma AcceptEpollAgrees(cfg: Config, s: State, ok: bool)
    requires WellFormed(s) && Threads(cfg, s) && Agreement(s)
    ensures Agreement(AcceptEpollStep(s, ok))
  {
    var t := AcceptEpollStep(s, ok);
    if s.main.MOpened? && t.main == MIdle {
      LeaveAgrees(s, t, s.main.c);
    } else {
      StayAgrees(s, t);
    }
  }

  lemma RegistrationStepsAgree(cfg: Config, s: State, ev: Event)
    requires WellFormed(s) && Threads(cfg, s) && EntriesOk(s)
    requires cfg.timeEnable && Agreement(s) && IsRegistration(ev)
    ensures Agreement(Apply(cfg, s, ev))
  {
    if ev.AcceptEpoll? {
      AcceptEpollAgrees(cfg, s, ev.ok);
    } else if ev.AcceptInsert? && s.main.MTimed? && !TimerLocked(s) {
      NewPair(cfg, s);
      InsertKeepsAgreement(cfg, s);
    } else {
      StayAgrees(s, Apply(cfg, s, ev));
    }
  }

  lemma ClosingStepsAgree(cfg: Config, s: State, ev: Event)
    requires WellFormed(s) && Threads(cfg, s) && Agreement(s) && IsClosing(ev)
    ensures Agreement(Apply(cfg, s, ev))
  {
    var t := Apply(cfg, s, ev);
    if t.place == s.place {
      StayAgrees(s, t);
    } else {
      LeaveAgrees(s, t, if ev.CloseBegin? then ev.c else s.main.c);
    }
  }

  lemma RecyStepAgrees(cfg: Config, s: State)
    requires WellFormed(s) && Places(cfg, s) && Agreement(s)
    ensures Agreement(RecyStepStep(cfg, s))
  {
    var t := RecyStepStep(cfg, s);
    if s.rec.RPass? && t.rec.RHold? {
      assert s.place[s.pool.recy[s.rec.i]] == Recycling;
      LeaveAgrees(s, t, s.pool.recy[s.rec.i]);
    } else {
      StayAgrees(s, t);
    }
  }

  lemma RecyclingStepsAgree(cfg: Config, s: State, ev: Event)
    requires WellFormed(s) && Places(cfg, s) && Agreement(s) && IsRecycling(ev)
    ensures Agreement(Apply(cfg, s, ev))
  {
    if ev.RecyStep? {
      RecyStepAgrees(cfg, s);
    } else if ev.RecyFree? && s.rec.RHold? {
      LeaveAgrees(s, RecyFreeStep(s), s.rec.c);
    } else {
      StayAgrees(s, Apply(cfg, s, ev));
    }
  }

  lemma TimCheckAgrees(cfg: Config, s: State)
    requires WellFormed(s) && Agreement(s)
    ensures Agreement(TimCheckStep(cfg, s))
  {
    StayAgrees(s, TimCheckStep(cfg, s));
  }

  lemma TimDeleteAgrees(cfg: Config, s: State)
    requires Threads(cfg, s) && EntriesOk(s) && Agreement(s)
    ensures Agreement(TimDeleteStep(s))
  {
    if s.tim.TStale? || s.tim.TMarked? {
      DeleteKeepsAgreement(s);
    }
  }

  lemma ExaminationStepsAgree(cfg: Config, s: State, ev: Event)
    requires WellFormed(s) && Threads(cfg, s) && EntriesOk(s) && TimerOk(s.timer, s.hist.dropped)
    requires Agreement(s) && IsExamination(ev)
    ensures Agreement(Apply(cfg, s, ev))
  {
    match ev
    case TimStart => StayAgrees(s, TimStartStep(cfg, s));
    case TimDrain => DrainKeeps(cfg, s);
    case TimCheck => TimCheckAgrees(cfg, s);
    case TimDelete => TimDeleteAgrees(cfg, s);
  }

  lemma KickingStepsAgree(cfg: Config, s: State, ev: Event)
    requires WellFormed(s) && Places(cfg, s) && Agreement(s) && IsKicking(ev)
    ensures Agreement(Apply(cfg, s, ev))
  {
    var t := Apply(cfg, s, ev);
    if t.tim == s.tim {
      StayAgrees(s, t);
    } else {
      assert ConnOk(s.pool.conns[s.tim.e.conn], s.place[s.tim.e.conn]);
      LeaveAgrees(s, t, s.tim.e.conn);
    }
  }

  lemma OtherStepsAgree(cfg: Config, s: State, ev: Event)
    requires WellFormed(s) && Agreement(s) && IsOther(ev)
    ensures Agreement(Apply(cfg, s, ev))
  {
    StayAgrees(s, Apply(cfg, s, ev));
  }

  lemma AgreementKeeps(cfg: Config, s: State, ev: Event)
    requires WellFormed(s) && Places(cfg, s) && UsesKept(cfg, s) && EntriesOk(s) && TimerOk(s.timer, s.hist.dropped)
    requires cfg.timeEnable && Agreement(s)
    ensures Agreement(Apply(cfg, s, ev))
  {
    if IsAdmission(ev) {
      AdmissionStepsAgree(cfg, s, ev);
    } else if IsOpening(ev) {
      OpeningStepsAgree(cfg, s, ev);
    } else if IsRegistration(ev) {
      RegistrationStepsAgree(cfg, s, ev);
    } else if IsClosing(ev) {
      ClosingStepsAgree(cfg, s, ev);
    } else if IsRecycling(ev) {
      RecyclingStepsAgree(cfg, s, ev);
    } else if IsExamination(ev) {
      ExaminationStepsAgree(cfg, s, ev);
    } else if IsKicking(ev) {
      KickingStepsAgree(cfg, s, ev);
    } else {
      OtherStepsAgree(cfg, s, ev);
    }
  }
}
