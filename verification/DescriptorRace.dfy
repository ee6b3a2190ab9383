/** A run in which a descriptor is handed out again while a closed connection still carries it. */
module DescriptorRace {
  import opened Common
  import opened ConnPool
  import opened TimerQueue
  import opened Lifecycle
  import opened Lifetime

  /** One listener, two connection objects, two connections at a time, a waiting time of 5. */
  const CONFIG := Config(2, 1, 2, 60, 5, true)

  const OBJECT := Conn(CLOSED, 0, false, false, 0, 0)

  lemma {:induction false} RunOneMore(cfg: Config, s: State, evs: seq<Event>, ev: Event)
    requires WellFormed(Run(cfg, s, evs))
    ensures Run(cfg, s, evs + [ev]) == Apply(cfg, Run(cfg, s, evs), ev)
    decreases |evs|
  {
    if evs == [] || !WellFormed(s) {
      assert [] + [ev] == [ev] && [ev][1..] == [];
    } else {
      RunOneMore(cfg, Apply(cfg, s, evs[0]), evs[1..], ev);
      assert (evs + [ev])[0] == evs[0] && (evs + [ev])[1..] == evs[1..] + [ev];
    }
  }

  lemma ReachableNext(s: State, ev: Event)
    requires Reachable(CONFIG, s)
    ensures WellFormed(s) && Reachable(CONFIG, Apply(CONFIG, s, ev))
  {
    ReachableInv(CONFIG, s);
    var s0, listenFds, evs :| IsInitial(CONFIG, s0, listenFds) && Run(CONFIG, s0, evs) == s;
    RunOneMore(CONFIG, s0, evs, ev);
  }

  /** The listener has descriptor 3. */
  lemma Start() returns (s: State)
    ensures Reachable(CONFIG, s)
    ensures s == State(0, Pool([OBJECT.(fd := 3), OBJECT], [1], [], 2, 1, 0, 0), [Listener, Free], MIdle, RIdle, TIdle,
                       [], {3}, History({}, multiset{}, {}, multiset{}, map[], {}, {}, [None, None]))
  {
    s := State(0, Pool([OBJECT.(fd := 3), OBJECT], [1], [], 2, 1, 0, 0), [Listener, Free], MIdle, RIdle, TIdle,
               [], {3}, History({}, multiset{}, {}, multiset{}, map[], {}, {}, [None, None]));
    assert [3][0] == 3 && s.fds == (set k | 0 <= k < |[3]| :: [3][k]);
    assert IsInitial(CONFIG, s, [3]) && Run(CONFIG, s, []) == s;
  }

  /** Object 1 and what the threads do. */
  ghost predicate Now(s: State, now: int, conn: Conn, main: MainPc, online: int, tim: TimPc, timer: seq<Entry>) {
    && Reachable(CONFIG, s)
    && s.now == now && |s.pool.conns| == 2 && s.pool.conns[1] == conn && s.main == main && s.pool.online == online
    && s.tim == tim && s.timer == timer
  }

  const CONNECTED := OBJECT.(fd := 4, sequence := 1)

  /** A new connection with descriptor 4 gets object 1. */
  lemma Admitted() returns (s: State)
    ensures Now(s, 0, OBJECT, MAdmitted(4), 0, TIdle, []) && s.pool.free == [1] && |s.place| == 2
  {
    var r := Start();
    ReachableNext(r, AcceptOnline(4));
    s := AcceptOnlineStep(CONFIG, r, 4);
  }

  lemma Sized() returns (s: State)
    ensures Now(s, 0, OBJECT, MSized(4), 0, TIdle, []) && s.pool.free == [1] && |s.place| == 2
  {
    var r := Admitted();
    ReachableNext(r, AcceptSizes);
    s := AcceptSizesStep(CONFIG, r);
  }

  lemma Got() returns (s: State)
    ensures Now(s, 0, OBJECT, MGot(1, 4), 0, TIdle, [])
  {
    var r := Sized();
    ReachableNext(r, AcceptGet(OBJECT));
    s := AcceptGetStep(r, OBJECT);
  }

  lemma Bumped() returns (s: State)
    ensures Now(s, 0, OBJECT.(sequence := 1), MBumped(1, 4), 0, TIdle, [])
  {
    var r := Got();
    ReachableNext(r, AcceptBump);
    s := AcceptBumpStep(r);
  }

  lemma Cleared() returns (s: State)
    ensures Now(s, 0, OBJECT.(sequence := 1), MCleared(1, 4), 0, TIdle, [])
  {
    var r := Bumped();
    ReachableNext(r, AcceptClear);
    s := AcceptClearStep(r);
  }

  lemma Connected() returns (s: State)
    ensures Now(s, 0, CONNECTED, MOpened(1), 0, TIdle, [])
  {
    var r := Cleared();
    ReachableNext(r, AcceptSetFd);
    s := AcceptSetFdStep(r);
  }

  lemma Listened() returns (s: State)
    ensures Now(s, 0, CONNECTED, MRegistered(1), 0, TIdle, [])
  {
    var r := Connected();
    ReachableNext(r, AcceptEpoll(true));
    s := AcceptEpollStep(r, true);
  }

  lemma Stamped() returns (s: State)
    ensures Now(s, 0, CONNECTED, MTimed(1, 0), 0, TIdle, [])
  {
    var r := Listened();
    ReachableNext(r, AcceptStamp);
    s := AcceptStampStep(CONFIG, r);
  }

  const ENTRY := Entry(5, 1, 1)

  lemma Inserted() returns (s: State)
    ensures Now(s, 0, CONNECTED, MQueued(1), 0, TIdle, [ENTRY])
  {
    var r := Stamped();
    ReachableNext(r, AcceptInsert);
    s := AcceptInsertStep(CONFIG, r);
  }

  lemma Counted() returns (s: State)
    ensures Now(s, 0, CONNECTED, MIdle, 1, TIdle, [ENTRY])
  {
    var r := Inserted();
    ReachableNext(r, AcceptCount);
    s := AcceptCountStep(r);
  }

  /** After 16 seconds without a ping its entry is examined. */
  lemma Waited() returns (s: State)
    ensures Now(s, 16, CONNECTED, MIdle, 1, TIdle, [ENTRY])
  {
    var r := Counted();
    ReachableNext(r, Tick(16));
    s := Apply(CONFIG, r, Tick(16));
  }

  lemma TurnStarted() returns (s: State)
    ensures Now(s, 16, CONNECTED, MIdle, 1, TRead(16), [ENTRY])
  {
    var r := Waited();
    ReachableNext(r, TimStart);
    s := TimStartStep(CONFIG, r);
  }

  lemma EntryTaken() returns (s: State)
    ensures Now(s, 16, CONNECTED, MIdle, 1, TExam(16, [ENTRY]), s.timer)
  {
    var r := TurnStarted();
    ReachableNext(r, TimDrain);
    s := TimDrainStep(CONFIG, r);
    assert DueCount([ENTRY], 16) == 1 && Due(r.timer, 16) == [ENTRY];
  }

  lemma CheckMarks(r: State)
    requires WellFormed(r) && r.tim == TExam(16, [ENTRY]) && r.main == MIdle
    requires |r.pool.conns| == 2 && r.pool.conns[1] == CONNECTED
    ensures var t := TimCheckStep(CONFIG, r);
      && t.tim == TMarked(16, ENTRY, []) && t.now == r.now && t.main == r.main && t.timer == r.timer
      && t.pool == r.pool.(conns := [r.pool.conns[0], CONNECTED.(isTimeout := true)])
  {
    assert r.pool.conns[1 := CONNECTED.(isTimeout := true)] == [r.pool.conns[0], CONNECTED.(isTimeout := true)];
  }

  lemma Marked() returns (s: State)
    ensures Now(s, 16, CONNECTED.(isTimeout := true), MIdle, 1, TMarked(16, ENTRY, []), s.timer)
  {
    var r := EntryTaken();
    ReachableNext(r, TimCheck);
    CheckMarks(r);
    s := TimCheckStep(CONFIG, r);
  }

  /** The timer thread is about to close it. */
  lemma Deleted() returns (s: State)
    ensures Now(s, 16, CONNECTED.(isTimeout := true), MIdle, 1, TKick(16, ENTRY, []), s.timer)
  {
    var r := Marked();
    ReachableNext(r, TimDelete);
    s := TimDeleteStep(r);
  }

  lemma Kicked() returns (s: State)
    ensures Now(s, 16, CONNECTED.(isTimeout := true), MIdle, 1, TReleased(16, ENTRY, []), s.timer) && 4 !in s.fds
  {
    var r := Deleted();
    KickClosesTheMarkedUse(CONFIG, r);
    ReachableNext(r, TimKick);
    s := TimKickStep(r);
  }

  /** After close(4), and before the old object forgets the number, the main thread accepts a connection with
      descriptor 4; the old object still carries it and passes the test. */
  lemma DescriptorIsReused() returns (s: State)
    ensures Reachable(CONFIG, s) && s.main == MAdmitted(4)
    ensures |s.pool.conns| == 2 && s.pool.conns[1].fd == 4 && NotOutdated(s.pool.conns[1], 1)
  {
    var r := Kicked();
    ReachableNext(r, AcceptOnline(4));
    s := AcceptOnlineStep(CONFIG, r, 4);
  }
}
