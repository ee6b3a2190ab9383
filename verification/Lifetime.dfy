/** What holds in every run of the connection life cycle. */
module Lifetime {
  import opened ConnPool
  import opened TimerQueue
  import opened Lifecycle
  import opened Invariant
  import KeepPlaces
  import KeepUses
  import KeepDescriptors
  import KeepEntered
  import KeepTimer
  import KeepCounts
  import KeepQuarantine
  import KeepPings
  import KeepHeartbeat

  // ---------- Every run keeps the invariant ----------

  lemma InvWellFormed(cfg: Config, s: State)
    requires Inv(cfg, s)
    ensures WellFormed(s)
  {
    forall e | e in Exam(s.tim) ensures e.conn < |s.pool.conns| {
      ExamEntered(s, e);
    }
  }

  lemma EventKeepsTimer(cfg: Config, s: State, ev: Event)
    requires Inv(cfg, s) && WellFormed(s)
    ensures var t := Apply(cfg, s, ev);
      && TimerOk(t.timer, t.hist.dropped) && EntriesOk(t) && (cfg.timeEnable ==> Agreement(t))
  {
    KeepTimer.EventKeeps(cfg, s, ev);
    if cfg.timeEnable {
      KeepTimer.AgreementKeeps(cfg, s, ev);
    }
  }

  lemma EventKeepsPings(cfg: Config, s: State, ev: Event)
    requires Inv(cfg, s) && WellFormed(s)
    ensures var t := Apply(cfg, s, ev);
      PingsOk(t.pool.conns, t.place, t.main, t.now) && (cfg.timeEnable ==> Heartbeat(cfg.wait, t))
  {
    KeepPings.EventKeeps(cfg, s, ev);
    if cfg.timeEnable {
      KeepEntered.EventKeeps(cfg, s, ev);
      KeepHeartbeat.EventKeeps(cfg, s, ev);
    }
  }

  lemma EventKeepsEnable(cfg: Config, s: State, ev: Event)
    requires Inv(cfg, s) && WellFormed(s)
    ensures !Apply(cfg, s, ev).tim.TIdle? ==> cfg.timeEnable
  {
  }

  lemma EventKeepsInv(cfg: Config, s: State, ev: Event)
    requires Inv(cfg, s) && WellFormed(s)
    ensures Inv(cfg, Apply(cfg, s, ev))
  {
    KeepPlaces.EventKeeps(cfg, s, ev);
    KeepUses.EventKeeps(cfg, s, ev);
    KeepDescriptors.EventKeeps(cfg, s, ev);
    KeepCounts.EventKeeps(cfg, s, ev);
    KeepQuarantine.EventKeeps(cfg, s, ev);
    EventKeepsTimer(cfg, s, ev);
    EventKeepsPings(cfg, s, ev);
    EventKeepsEnable(cfg, s, ev);
  }

  lemma InitialPlaces(cfg: Config, s: State, listenFds: seq<int>)
    requires IsInitial(cfg, s, listenFds)
    ensures Places(cfg, s) && UsesKept(cfg, s)
  {
    forall c | 0 <= c < |s.place| && s.place[c] == Free ensures c in s.pool.free {
      assert s.pool.free[c - cfg.listeners] == c;
    }
  }

  lemma InitialDescriptors(cfg: Config, s: State, listenFds: seq<int>)
    requires IsInitial(cfg, s, listenFds)
    ensures Descriptors(s.pool.conns, s.place, s.main, s.fds)
  {
    forall c: nat, fd | Holds(s.pool.conns, s.place, c, fd) ensures c < |listenFds| && listenFds[c] == fd {}
    forall fd | fd in s.fds ensures Owned(s.pool.conns, s.place, fd) {
      var k :| 0 <= k < |listenFds| && listenFds[k] == fd;
      assert Holds(s.pool.conns, s.place, k, fd);
    }
  }

  lemma {:induction false} NoneOpen(place: seq<Place>)
    requires forall c | 0 <= c < |place| :: !IsOpen(place[c])
    ensures OpenCount(place) == 0
    decreases |place|
  {
    if place != [] {
      NoneOpen(place[1..]);
    }
  }

  lemma InitialInv(cfg: Config, s: State, listenFds: seq<int>)
    requires IsInitial(cfg, s, listenFds)
    ensures Inv(cfg, s)
  {
    InitialPlaces(cfg, s, listenFds);
    InitialDescriptors(cfg, s, listenFds);
    NoneOpen(s.place);
  }

  lemma {:induction false} RunKeepsInv(cfg: Config, s: State, evs: seq<Event>)
    requires Inv(cfg, s)
    ensures Inv(cfg, Run(cfg, s, evs))
    decreases |evs|
  {
    if evs != [] {
      InvWellFormed(cfg, s);
      EventKeepsInv(cfg, s, evs[0]);
      RunKeepsInv(cfg, Apply(cfg, s, evs[0]), evs[1..]);
    }
  }

  /** Some schedule of events leads from a start of the program to `s`. */
  ghost predicate Reachable(cfg: Config, s: State) {
    exists s0: State, listenFds: seq<int>, evs: seq<Event> :: IsInitial(cfg, s0, listenFds) && Run(cfg, s0, evs) == s
  }

  lemma ReachableInv(cfg: Config, s: State)
    requires Reachable(cfg, s)
    ensures Inv(cfg, s) && WellFormed(s)
  {
    var s0, listenFds, evs :| IsInitial(cfg, s0, listenFds) && Run(cfg, s0, evs) == s;
    InitialInv(cfg, s0, listenFds);
    RunKeepsInv(cfg, s0, evs);
    InvWellFormed(cfg, s);
  }

  // ---------- Closing ----------

  /** Exactly-once close: a use that has begun has been closed once if it is over and not at all if it is
      live; nothing else has been closed. */
  lemma ClosedOnce(cfg: Config, s: State, u: Use)
    requires Reachable(cfg, s)
    ensures s.hist.closes[u] == if u in s.hist.uses && !LiveUse(s.pool.conns, s.place, u) then 1 else 0
  {
    ReachableInv(cfg, s);
  }

  /** A use enters the recycle list once, unless close_connection ended it; it has left the list and its
      object has been renumbered before the object can be in use again. */
  lemma EnqueuedOnce(cfg: Config, s: State, u: Use)
    requires Reachable(cfg, s)
    ensures s.hist.queued[u] <= s.hist.closes[u]
    ensures u in s.hist.direct ==> s.hist.queued[u] == 0 && s.hist.closes[u] == 1
    ensures s.main == MIdle && !TimerLocks(s.tim) ==>
              s.hist.queued[u] == s.hist.closes[u] - if u in s.hist.direct then 1 else 0
  {
    ReachableInv(cfg, s);
    if u in s.hist.uses && u.0 < |s.place| && (s.place[u.0] == Released || s.place[u.0] == Closing) {
      assert ConnLocked(s, u.0);
    }
  }

  /** Neither a use that the timer has marked nor one of its entries is taken for a later use: the kick
      closes the very use that was marked, whatever happens in between. */
  lemma KickClosesTheMarkedUse(cfg: Config, s: State)
    requires Reachable(cfg, s) && (s.tim.TMarked? || s.tim.TKick?)
    ensures LiveUse(s.pool.conns, s.place, s.tim.e.Pair())
    ensures WellFormed(s) && !ConnLocked(s, s.tim.e.conn)
    ensures s.tim.TKick? ==> var t := TimKickStep(s);
      && t.hist.closes == s.hist.closes + multiset{s.tim.e.Pair()}
      && t.hist.kicked == s.hist.kicked + {s.tim.e.Pair()}
      && t.fds == s.fds - {s.pool.conns[s.tim.e.conn].fd} && s.pool.conns[s.tim.e.conn].fd in s.fds
  {
    ReachableInv(cfg, s);
    assert Holds(s.pool.conns, s.place, s.tim.e.conn, s.pool.conns[s.tim.e.conn].fd);
  }

  /** A descriptor of an object that no thread is closing is open, and belongs to nothing else: close(fd)
      never meets a descriptor that is not open or belongs to another connection. */
  lemma DescriptorsAreOwned(cfg: Config, s: State, c: nat)
    requires Reachable(cfg, s) && c < |s.pool.conns| && s.pool.conns[c].fd != CLOSED && !ConnLocked(s, c)
    ensures s.pool.conns[c].fd in s.fds
    ensures forall d: nat | d < |s.pool.conns| && d != c && !ConnLocked(s, d) ::
              s.pool.conns[d].fd != s.pool.conns[c].fd
    ensures Pending(s.main) ==> s.main.connfd != s.pool.conns[c].fd
  {
    ReachableInv(cfg, s);
    OwnedUnlessLocked(cfg, s, c);
    forall d: nat | d < |s.pool.conns| && d != c && !ConnLocked(s, d) ensures s.pool.conns[d].fd != s.pool.conns[c].fd {
      if s.pool.conns[d].fd == s.pool.conns[c].fd {
        OwnedUnlessLocked(cfg, s, d);
      }
    }
  }

  lemma OwnedUnlessLocked(cfg: Config, s: State, c: nat)
    requires Places(cfg, s) && c < |s.pool.conns| && s.pool.conns[c].fd != CLOSED && !ConnLocked(s, c)
    ensures Holds(s.pool.conns, s.place, c, s.pool.conns[c].fd)
  {
    assert ConnOk(s.pool.conns[c], s.place[c]);
  }

  /** Between close(fd) and the assignment of -1 this fails: the kernel may give the number to a new
      connection at once, while the old object still carries it and still passes the test. */
  lemma DescriptorIsFreeBeforeForgotten(cfg: Config, s: State)
    requires Reachable(cfg, s) && s.tim.TKick? && s.main == MIdle && s.pool.online < cfg.workers
    ensures WellFormed(s) && s.tim.e.conn < |s.pool.conns|
    ensures var t, conn := TimKickStep(s), TimKickStep(s).pool.conns[s.tim.e.conn];
      && AcceptOnlineStep(cfg, t, conn.fd).main == MAdmitted(conn.fd)
      && (NotOutdated(conn, s.tim.e.sequence) <==> s.tim.e.sequence < TWO_31)
  {
    ReachableInv(cfg, s);
    var conn := s.pool.conns[s.tim.e.conn];
    assert ConnOk(conn, Open);
    assert !ConnLocked(s, s.tim.e.conn);
    NotOutdatedOlder(conn, s.tim.e.sequence);
  }

  /** No descriptor leaks: one that is open belongs to a listener, to an open connection, or to the
      connection that the main thread is setting up. */
  lemma NoDescriptorLeaks(cfg: Config, s: State, fd: int)
    requires Reachable(cfg, s) && fd in s.fds && !(Pending(s.main) && s.main.connfd == fd)
    ensures exists c: nat :: Holds(s.pool.conns, s.place, c, fd)
  {
    ReachableInv(cfg, s);
    assert Owned(s.pool.conns, s.place, fd);
  }

  /** The exit(-1) branches of close_connection are not taken. */
  lemma CloseConnectionSucceeds(cfg: Config, s: State)
    requires Reachable(cfg, s) && s.main.MOpened?
    ensures s.main.c < |s.pool.conns|
    ensures var conn := s.pool.conns[s.main.c]; conn.fd != CLOSED && !conn.isTimeout && conn.fd in s.fds
  {
    ReachableInv(cfg, s);
    assert Holds(s.pool.conns, s.place, s.main.c, s.pool.conns[s.main.c].fd);
  }

  // ---------- References ----------

  /** The records only grow, and the clock does not go back. */
  lemma RecordsGrow(cfg: Config, s: State, ev: Event)
    requires WellFormed(s)
    ensures var t := Apply(cfg, s, ev);
      && s.hist.uses <= t.hist.uses && s.hist.closes <= t.hist.closes && s.hist.dropped <= t.hist.dropped
      && s.now <= t.now
  {
  }

  lemma {:induction false} RunsGrow(cfg: Config, s: State, evs: seq<Event>)
    requires Inv(cfg, s)
    ensures var t := Run(cfg, s, evs);
      && s.hist.uses <= t.hist.uses && s.hist.closes <= t.hist.closes && s.hist.dropped <= t.hist.dropped
      && s.now <= t.now
    decreases |evs|
  {
    if evs != [] {
      InvWellFormed(cfg, s);
      RecordsGrow(cfg, s, evs[0]);
      EventKeepsInv(cfg, s, evs[0]);
      RunsGrow(cfg, Apply(cfg, s, evs[0]), evs[1..]);
    }
  }

  /** Sequence numbers do not go back, and the pool does not shrink. */
  ghost predicate Newer(conns: seq<Conn>, conns2: seq<Conn>) {
    |conns| <= |conns2| && forall c | 0 <= c < |conns| :: conns[c].sequence <= conns2[c].sequence
  }

  lemma AcceptSequencesGrow(cfg: Config, s: State, ev: Event)
    requires WellFormed(s) && (IsAdmission(ev) || IsOpening(ev) || IsRegistration(ev))
    ensures Newer(s.pool.conns, Apply(cfg, s, ev).pool.conns)
  {
  }

  lemma TimerSequencesGrow(cfg: Config, s: State, ev: Event)
    requires WellFormed(s) && (IsExamination(ev) || IsKicking(ev))
    ensures Newer(s.pool.conns, Apply(cfg, s, ev).pool.conns)
  {
  }

  lemma SequencesGrow(cfg: Config, s: State, ev: Event)
    requires WellFormed(s)
    ensures Newer(s.pool.conns, Apply(cfg, s, ev).pool.conns)
  {
    if IsAdmission(ev) || IsOpening(ev) || IsRegistration(ev) {
      AcceptSequencesGrow(cfg, s, ev);
    } else if IsExamination(ev) || IsKicking(ev) {
      TimerSequencesGrow(cfg, s, ev);
    }
  }

  lemma {:induction false} SequencesGrowInRun(cfg: Config, s: State, evs: seq<Event>)
    requires Inv(cfg, s)
    ensures Newer(s.pool.conns, Run(cfg, s, evs).pool.conns)
    decreases |evs|
  {
    if evs != [] {
      InvWellFormed(cfg, s);
      SequencesGrow(cfg, s, evs[0]);
      EventKeepsInv(cfg, s, evs[0]);
      SequencesGrowInRun(cfg, Apply(cfg, s, evs[0]), evs[1..]);
    }
  }

  /** Stale-reference safety: for every pair of an object and its sequence number, recorded at any moment, at
      every later moment the test under the connection's lock succeeds exactly while the object is open in
      that very use, below 2^31.  Without the lock it may also succeed between close(fd) and the assignment
      of -1. */
  lemma RecordedReference(cfg: Config, s: State, c: nat, evs: seq<Event>)
    requires Reachable(cfg, s) && cfg.listeners <= c < |s.pool.conns|
    ensures var t, u := Run(cfg, s, evs), (c, s.pool.conns[c].sequence);
      && c < |t.pool.conns| && |t.place| == |t.pool.conns|
      && (!ConnLocked(t, c) ==>
            (NotOutdated(t.pool.conns[c], u.1) <==> LiveUse(t.pool.conns, t.place, u) && u.1 < TWO_31))
      && (NotOutdated(t.pool.conns[c], u.1) <==>
            Current(t.pool.conns, t.place, u) && IsOpen(t.place[c]) && u.1 < TWO_31)
  {
    ReachableInv(cfg, s);
    RunKeepsInv(cfg, s, evs);
    SequencesGrowInRun(cfg, s, evs);
    var t := Run(cfg, s, evs);
    NotOutdatedOlder(t.pool.conns[c], s.pool.conns[c].sequence);
    assert ConnOk(t.pool.conns[c], t.place[c]);
  }

  /** Without the lock the test reads the three fields one after the other, and other threads run in between.
      It still never takes a use that was over before: if the reads pass, then at the first of them the object
      was open in the recorded use, or between close(fd) and the assignment of -1. */
  lemma ReadsOneByOne(cfg: Config, s: State, c: nat, evs1: seq<Event>, evs2: seq<Event>, evs3: seq<Event>)
    requires Reachable(cfg, s) && cfg.listeners <= c < |s.pool.conns|
    ensures var u, t1 := (c, s.pool.conns[c].sequence), Run(cfg, s, evs1);
      var t2 := Run(cfg, t1, evs2);
      var t3 := Run(cfg, t2, evs3);
      && c < |t1.pool.conns| <= |t2.pool.conns| <= |t3.pool.conns|
      && (t1.pool.conns[c].fd > 0 && !t2.pool.conns[c].inRecyList && t3.pool.conns[c].sequence == PassedAsInt(u.1)
          ==> Current(t1.pool.conns, t1.place, u) && IsOpen(t1.place[c]) && u.1 < TWO_31)
  {
    ReachableInv(cfg, s);
    var t1 := Run(cfg, s, evs1);
    var t2 := Run(cfg, t1, evs2);
    var t3 := Run(cfg, t2, evs3);
    RunKeepsInv(cfg, s, evs1);
    RunKeepsInv(cfg, t1, evs2);
    RunKeepsInv(cfg, t2, evs3);
    SequencesGrowInRun(cfg, s, evs1);
    SequencesGrowInRun(cfg, t1, evs2);
    SequencesGrowInRun(cfg, t2, evs3);
    FirstReadDecides(cfg, t1, t3, c, s.pool.conns[c].sequence);
  }

  lemma FirstReadDecides(cfg: Config, t1: State, t3: State, c: nat, number: nat)
    requires Places(cfg, t1) && Places(cfg, t3) && cfg.listeners <= c < |t1.pool.conns| <= |t3.pool.conns|
    requires number <= t1.pool.conns[c].sequence <= t3.pool.conns[c].sequence
    ensures t1.pool.conns[c].fd > 0 && t3.pool.conns[c].sequence == PassedAsInt(number) ==>
              Current(t1.pool.conns, t1.place, (c, number)) && IsOpen(t1.place[c]) && number < TWO_31
  {
    assert ConnOk(t1.pool.conns[c], t1.place[c]) && ConnOk(t3.pool.conns[c], t3.place[c]);
    NotOutdatedOlder(t3.pool.conns[c].(fd := 1, inRecyList := false), number);
  }

  /** A use that is over stays over, and is not closed again. */
  lemma OverStaysOver(cfg: Config, s: State, u: Use, evs: seq<Event>)
    requires Reachable(cfg, s) && u in s.hist.uses && !LiveUse(s.pool.conns, s.place, u)
    ensures var t := Run(cfg, s, evs); !LiveUse(t.pool.conns, t.place, u) && t.hist.closes[u] == 1
  {
    ReachableInv(cfg, s);
    RunsGrow(cfg, s, evs);
    RunKeepsInv(cfg, s, evs);
  }

  // ---------- The pool ----------

  /** Pool partition: an object is in the free queue once or not at all, in the recycle list once or not at
      all, never in both, and in neither exactly while it is in use, in hand or between two places; and
      the counters equal the lengths. */
  lemma PoolPartition(cfg: Config, s: State, c: nat)
    requires Reachable(cfg, s) && c < |s.pool.conns|
    ensures multiset(s.pool.free)[c] == (if At(s.place, c, Free) then 1 else 0)
    ensures multiset(s.pool.recy)[c] == (if At(s.place, c, Recycling) then 1 else 0)
    ensures At(s.place, c, InHand) ==> InHandOf(s.main) && s.main.c == c
    ensures At(s.place, c, Transit) ==> s.rec.RHold? && s.rec.c == c
    ensures At(s.place, c, Released) || At(s.place, c, Closing) ==> ConnLocked(s, c)
    ensures At(s.place, c, Listener) <==> c < cfg.listeners
    ensures At(s.place, c, Open) || At(s.place, c, Released) || At(s.place, c, Listener) <==> s.pool.conns[c].fd > 0
    ensures s.pool.total == |s.pool.conns| && s.pool.freeCount == |s.pool.free| && s.pool.recyCount == |s.pool.recy|
  {
    ReachableInv(cfg, s);
    assert ConnOk(s.pool.conns[c], s.place[c]);
    OnceEach(s.pool.free, c);
    OnceEach(s.pool.recy, c);
  }

  lemma {:induction false} OnceEach(q: seq<nat>, c: nat)
    requires forall j, k | 0 <= j < k < |q| :: q[j] != q[k]
    ensures multiset(q)[c] == if c in q then 1 else 0
    decreases |q|
  {
    if q != [] {
      var rest := q[..|q| - 1];
      OnceEach(rest, c);
      assert q == rest + [q[|q| - 1]];
    }
  }

  /** Bounded growth, although the recycler changes the free queue between the size test and the hand-out;
      and the online limit. */
  lemma BoundedGrowth(cfg: Config, s: State)
    requires Reachable(cfg, s)
    ensures |s.pool.conns| <= Max(Max(cfg.created, cfg.listeners), 5 * cfg.workers + 1)
    ensures s.pool.online <= cfg.workers
    ensures OpenCount(s.place) <= cfg.workers
    ensures s.pool.online == OpenCount(s.place) - NotCounted(s.main)
  {
    ReachableInv(cfg, s);
  }

  /** Quarantine: an object that is handed out, or waits to be, was closed more than the delay ago. */
  lemma QuarantineRespected(cfg: Config, s: State, c: nat)
    requires Reachable(cfg, s) && c < |s.pool.conns|
    requires (At(s.place, c, Free) || At(s.place, c, InHand) || At(s.place, c, Open))
    ensures c < |s.hist.closedAt| && (s.hist.closedAt[c].Some? ==> s.hist.closedAt[c].value + cfg.delay < s.now)
  {
    ReachableInv(cfg, s);
    assert Rested(s.pool.conns[c], s.place[c], s.hist.closedAt[c], cfg.delay, s.now);
  }

  /** A pass that ends leaves no entry in the recycle list that was due when the pass began. */
  lemma PassIsComplete(cfg: Config, s: State)
    requires Reachable(cfg, s) && s.rec.RPass? && s.rec.i == |s.pool.recy|
    ensures WellFormed(s) && RecyStepStep(cfg, s).rec.RIdle? && RecyStepStep(cfg, s).pool == s.pool
    ensures forall j | 0 <= j < |s.pool.recy| :: s.pool.conns[s.pool.recy[j]].inRecyTime + cfg.delay >= s.rec.began
  {
    ReachableInv(cfg, s);
  }

  // ---------- The timer ----------

  /** Timer agreement: outside the accept and kick steps a live use has exactly one entry; no pair has
      two; and an entry belongs to a use that has begun. */
  lemma TimerAgrees(cfg: Config, s: State, u: Use)
    requires Reachable(cfg, s)
    ensures Pairs(s.timer)[u] <= 1
    ensures u in Pairs(s.timer) ==> u in s.hist.uses
    ensures cfg.timeEnable && Judgeable(s.pool.conns, s.place, u) && !Unsettled(s.main, s.tim, u) ==>
              Pairs(s.timer)[u] == 1
  {
    ReachableInv(cfg, s);
    if u in Pairs(s.timer) {
      assert Tracked(s, u);
    }
  }

  /** A stale entry is deleted by its first check; a live one is not, below 2^31 ... */
  lemma StaleEntryGoes(cfg: Config, s: State)
    requires Reachable(cfg, s) && s.tim.TExam? && s.tim.todo != [] && !ConnLocked(s, s.tim.todo[0].conn)
    ensures WellFormed(s)
    ensures var e, t := s.tim.todo[0], TimCheckStep(cfg, s);
      && (t.tim.TStale? <==> !(LiveUse(s.pool.conns, s.place, e.Pair()) && e.sequence < TWO_31))
      && (t.tim.TStale? ==> e.Pair() in TimDeleteStep(t).hist.dropped && Pairs(TimDeleteStep(t).timer)[e.Pair()] == 0)
  {
    ReachableInv(cfg, s);
    var e := s.tim.todo[0];
    ExamEntered(s, e);
    KeepPlaces.MarkedIsLive(cfg, s, e);
    DeletePairs(s.timer, e.Pair());
  }

  /** ... and a deleted entry never comes back. */
  lemma DeletedStaysDeleted(cfg: Config, s: State, u: Use, evs: seq<Event>)
    requires Reachable(cfg, s) && u in s.hist.dropped
    ensures Pairs(Run(cfg, s, evs).timer)[u] == 0
  {
    ReachableInv(cfg, s);
    RunsGrow(cfg, s, evs);
    RunKeepsInv(cfg, s, evs);
  }

  // ---------- The heartbeat ----------

  /** Soundness: the timer closes only connections that it has seen idle for more than three waiting
      times. */
  lemma OnlyIdleIsKicked(cfg: Config, s: State, u: Use)
    requires Reachable(cfg, s) && u in s.hist.kicked
    ensures u in s.hist.idleAtMark && s.hist.idleAtMark[u] > 3 * cfg.wait
    ensures u !in s.hist.direct && s.hist.closes[u] == 1
  {
    ReachableInv(cfg, s);
  }

  /** The idle time that the timer sees is no more than the real one. */
  lemma MarkedIsIdle(cfg: Config, s: State)
    requires Reachable(cfg, s) && WellFormed(s) && s.tim.TExam? && TimCheckStep(cfg, s).tim.TMarked?
    ensures var e := TimCheckStep(cfg, s).tim.e;
      && LiveUse(s.pool.conns, s.place, e.Pair())
      && s.now - s.pool.conns[e.conn].pingUpdateTime > 3 * cfg.wait
  {
    ReachableInv(cfg, s);
    var e := s.tim.todo[0];
    assert e in Exam(s.tim);
    ExamEntered(s, e);
    KeepPlaces.MarkedIsLive(cfg, s, e);
  }

  /** No entry, in the timer or taken out for examination, has been due for more than `d`. */
  ghost predicate Punctual(s: State, d: int) {
    && (forall e | e in s.timer && !InExam(s.tim, e.Pair()) :: s.now <= e.key + d)
    && (forall e | e in Exam(s.tim) :: s.now <= e.key + d)
  }

  /** A live use has an entry in the timer or among those to be examined, by which it is judged next. */
  lemma NextEntry(s: State, u: Use) returns (e: Entry)
    requires TimOk(s.pool.conns, s.place, s.tim) && Agreement(s)
    requires Judgeable(s.pool.conns, s.place, u) && !(Opened(s.main) && s.main.c == u.0)
    ensures e.Pair() == u && (e in Exam(s.tim) || (e in s.timer && !InExam(s.tim, u)))
  {
    if s.tim.TKick? && s.tim.e.conn == u.0 {
      e := s.tim.e;
    } else if InExam(s.tim, u) {
      e :| e in Exam(s.tim) && e.Pair() == u;
    } else {
      assert Pairs(s.timer)[u] == 1;
      PairsMember(s.timer, u);
      e :| e in s.timer && e.Pair() == u;
    }
  }

  /** Bound: while every due entry is dealt with within `d`, a connection is open no longer than four
      waiting times and `d` after its last ping. */
  lemma IdleIsClosedInTime(cfg: Config, s: State, u: Use, d: int)
    requires Reachable(cfg, s) && cfg.timeEnable && Punctual(s, d)
    requires Judgeable(s.pool.conns, s.place, u) && !(Opened(s.main) && s.main.c == u.0)
    ensures s.now <= s.pool.conns[u.0].pingUpdateTime + 4 * cfg.wait + d
  {
    ReachableInv(cfg, s);
    var e := NextEntry(s, u);
    assert Timely(s.pool.conns, s.place, cfg.wait, e);
  }
}
