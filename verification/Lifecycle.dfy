/** The life of pooled connections (net/socket_accept.cxx, net/socket_conn.cxx, net/socket_time.cxx,
    net/c_socket.cxx) under every interleaving of three threads: the main thread, which accepts and
    closes; the recycler; and the heartbeat timer.  One event is one critical section or one access to
    shared data; a thread whose next step needs a lock that is held makes no step. */
module Lifecycle {
  import opened Common
  import opened ConnPool
  import opened TimerQueue

  /** Start-up values. */
  datatype Config = Config(
    workers: nat,        // m_worker_connections
    listeners: nat,
    created: nat,        // m_create_connections_count
    delay: int,          // m_delay_time
    wait: int,           // m_waittime
    timeEnable: bool)
  {
    /** ReadConf raises the waiting time to 5 when the heartbeat is enabled. */
    predicate Valid() {
      timeEnable ==> wait >= 5
    }
  }

  /** A use of a connection object: the object and its sequence number while it is open. */
  type Use = (nat, nat)

  /** Where an object is. */
  datatype Place =
    | Listener    // belongs to a listening socket for good
    | Free        // in the free queue
    | InHand      // taken by the main thread, not open yet
    | Open
    | Released    // close(fd) has been called, fd still has the old value
    | Closing     // closed, on its way into the recycle list
    | Recycling   // in the recycle list
    | Transit     // taken by the recycler, not free yet

  /** What the main thread is doing; the states follow event_accept_handler and
      close_accepted_connection. */
  datatype MainPc =
    | MIdle
    | MAdmitted(connfd: int)            // the online limit was checked
    | MSized(connfd: int)               // the pool sizes were checked
    | MGot(c: nat, connfd: int)         // get_connection_item
    | MBumped(c: nat, connfd: int)      // ++sequence
    | MCleared(c: nat, connfd: int)     // the rest of GetOneToUse
    | MOpened(c: nat)                   // fd = connfd
    | MRegistered(c: nat)               // EPOLL_CTL_ADD
    | MTimed(c: nat, t: int)            // AddToTimerQueue before its lock
    | MQueued(c: nat)                   // before ++m_online_count
    | MReleased(c: nat)                 // holds conn_mutex, after close(fd)
    | MClosing(c: nat)                  // holds conn_mutex, before InRecyConnQueue

  /** `began` is the time the pass began. */
  datatype RecPc =
    | RIdle
    | RPass(i: nat, began: int)            // at entry i of the list
    | RHold(i: nat, c: nat, began: int)    // before free_connection_item

  /** `cur` is cur_time of this turn, `todo` what is still to be examined. */
  datatype TimPc =
    | TIdle
    | TRead(cur: int)                              // before the lock
    | TExam(cur: int, todo: seq<Entry>)
    | TStale(cur: int, e: Entry, todo: seq<Entry>)    // judged out of date, not deleted yet
    | TMarked(cur: int, e: Entry, todo: seq<Entry>)   // istimeout set, not deleted yet
    | TKick(cur: int, e: Entry, todo: seq<Entry>)     // deleted, not closed yet
    | TReleased(cur: int, e: Entry, todo: seq<Entry>) // holds conn_mutex, after close(fd)
    | TClosing(cur: int, e: Entry, todo: seq<Entry>)  // holds conn_mutex, before InRecyConnQueue

  /** What has happened so far.  It records and never decides. */
  datatype History = History(
    uses: set<Use>,                 // those that were opened
    closes: multiset<Use>,          // calls of close(fd), by use
    direct: set<Use>,               // uses closed by close_connection
    queued: multiset<Use>,          // entries into the recycle list
    idleAtMark: map<Use, int>,      // the idle time that the timer saw when it set istimeout
    kicked: set<Use>,               // uses closed by the timer
    dropped: set<Use>,              // pairs deleted from the timer
    closedAt: seq<Option<int>>)     // by object: the last close by close_accepted_connection

  datatype State = State(
    now: int,
    pool: Pool,
    place: seq<Place>,
    main: MainPc,
    rec: RecPc,
    tim: TimPc,
    timer: seq<Entry>,              // m_timermap
    fds: set<int>,                  // open descriptors of listeners and accepted connections
    hist: History)

  /** The events; their arguments are the choices of the environment. */
  datatype Event =
    | Tick(d: nat)
    | AcceptOnline(connfd: int)
    | AcceptSizes
    | AcceptGet(junk: Conn)
    | AcceptBump
    | AcceptClear
    | AcceptSetFd
    | AcceptEpoll(ok: bool)
    | AcceptStamp
    | AcceptInsert
    | AcceptCount
    | CloseBegin(c: nat)
    | CloseClear
    | CloseEnd
    | RecyStart
    | RecyStep
    | RecyFree
    | TimStart
    | TimDrain
    | TimCheck
    | TimDelete
    | TimKick
    | TimClear
    | TimEnd
    | Ping(c: nat)

  // The steps in groups.

  predicate IsAdmission(ev: Event) {
    ev.AcceptOnline? || ev.AcceptSizes? || ev.AcceptGet?
  }

  predicate IsOpening(ev: Event) {
    ev.AcceptBump? || ev.AcceptClear? || ev.AcceptSetFd?
  }

  predicate IsRegistration(ev: Event) {
    ev.AcceptEpoll? || ev.AcceptStamp? || ev.AcceptInsert? || ev.AcceptCount?
  }

  predicate IsClosing(ev: Event) {
    ev.CloseBegin? || ev.CloseClear? || ev.CloseEnd?
  }

  predicate IsRecycling(ev: Event) {
    ev.RecyStart? || ev.RecyStep? || ev.RecyFree?
  }

  predicate IsExamination(ev: Event) {
    ev.TimStart? || ev.TimDrain? || ev.TimCheck? || ev.TimDelete?
  }

  predicate IsKicking(ev: Event) {
    ev.TimKick? || ev.TimClear? || ev.TimEnd?
  }

  predicate IsOther(ev: Event) {
    ev.Tick? || ev.Ping?
  }

  /** Sequence numbers stay below this in every run of fewer than 2^62 uses of one object. */
  const SEQUENCE_LIMIT: nat := 0x8000_0000_0000_0000

  // ---------- Locks, read off the program counters ----------

  predicate MainLocks(m: MainPc) {
    m.MReleased? || m.MClosing?
  }

  predicate TimerLocks(t: TimPc) {
    t.TReleased? || t.TClosing?
  }

  /** conn_mutex is held across steps. */
  predicate ConnLocked(s: State, c: nat) {
    (MainLocks(s.main) && s.main.c == c) || (TimerLocks(s.tim) && s.tim.e.conn == c)
  }

  predicate RecyLocked(s: State) {
    !s.rec.RIdle?
  }

  predicate TimerLocked(s: State) {
    !s.tim.TIdle? && !s.tim.TRead?
  }

  // ---------- Steps ----------

  predicate HasConn(m: MainPc) {
    !m.MIdle? && !m.MAdmitted? && !m.MSized?
  }

  /** The entries that the timer thread has taken and not dealt with. */
  function Exam(t: TimPc): seq<Entry> {
    match t
    case TIdle => []
    case TRead(_) => []
    case TExam(_, todo) => todo
    case TStale(_, e, todo) => [e] + todo
    case TMarked(_, e, todo) => [e] + todo
    case TKick(_, e, todo) => [e] + todo
    case TReleased(_, e, todo) => [e] + todo
    case TClosing(_, e, todo) => [e] + todo
  }

  /** Every index is in range. */
  ghost predicate WellFormed(s: State) {
    && |s.place| == |s.pool.conns| == |s.hist.closedAt|
    && s.pool.InRange()
    && (HasConn(s.main) ==> s.main.c < |s.pool.conns|)
    && (s.rec.RPass? ==> s.rec.i <= |s.pool.recy|)
    && (s.rec.RHold? ==> s.rec.c < |s.pool.conns| && s.rec.i <= |s.pool.recy|)
    && (forall e | e in Exam(s.tim) :: e.conn < |s.pool.conns|)
  }

  function SetConn(s: State, c: nat, conn: Conn): State
    requires c < |s.pool.conns|
  {
    s.(pool := Update(s.pool, c, conn))
  }

  /** close_accepted_connection up to close(fd): the descriptor is free for others. */
  function ReleaseUse(s: State, c: nat): State
    requires c < |s.pool.conns| == |s.place| == |s.hist.closedAt|
  {
    var conn := s.pool.conns[c];
    s.(place := s.place[c := Released],
       fds := s.fds - {conn.fd},
       hist := s.hist.(closes := s.hist.closes + multiset{(c, conn.sequence)},
                       closedAt := s.hist.closedAt[c := Some(s.now)]))
  }

  /** Then the object forgets it and is counted down. */
  function ForgetUse(s: State, c: nat): State
    requires c < |s.pool.conns| == |s.place|
  {
    s.(pool := CloseFd(s.pool, c), place := s.place[c := Closing])
  }

  /** The rest: InRecyConnQueue. */
  function EnqueueUse(s: State, c: nat): State
    requires c < |s.pool.conns| == |s.place|
  {
    if s.pool.conns[c].inRecyList || c in s.pool.recy then s
    else
      s.(pool := EnterRecycling(s.pool, c, s.now),
         place := s.place[c := Recycling],
         hist := s.hist.(queued := s.hist.queued + multiset{(c, s.pool.conns[c].sequence)}))
  }

  // The main thread: event_accept_handler.

  function AcceptOnlineStep(cfg: Config, s: State, connfd: int): State {
    if s.main != MIdle || connfd <= 0 || connfd in s.fds || s.pool.online >= cfg.workers then s
    else s.(main := MAdmitted(connfd), fds := s.fds + {connfd})
  }

  function AcceptSizesStep(cfg: Config, s: State): State {
    if !s.main.MAdmitted? then s
    else if |s.pool.conns| > 5 * cfg.workers && |s.pool.free| < cfg.workers then
      s.(main := MIdle, fds := s.fds - {s.main.connfd})
    else s.(main := MSized(s.main.connfd))
  }

  function AcceptGetStep(s: State, junk: Conn): State
    requires WellFormed(s)
  {
    if !s.main.MSized? then s
    else
      var c, n := Obtained(s.pool), |s.place|;
      s.(pool := Obtain(s.pool, junk),
         place := if c < n then s.place[c := InHand] else s.place + [InHand],
         hist := if c < n then s.hist else s.hist.(closedAt := s.hist.closedAt + [None]),
         main := MGot(c, s.main.connfd))
  }

  function AcceptBumpStep(s: State): State
    requires WellFormed(s)
  {
    if !s.main.MGot? || s.pool.conns[s.main.c].sequence + 2 >= SEQUENCE_LIMIT then s
    else
      SetConn(s, s.main.c, BumpSequence(s.pool.conns[s.main.c])).(main := MBumped(s.main.c, s.main.connfd))
  }

  function AcceptClearStep(s: State): State
    requires WellFormed(s)
  {
    if !s.main.MBumped? then s
    else
      SetConn(s, s.main.c, ClearFlags(s.pool.conns[s.main.c], s.now)).(main := MCleared(s.main.c, s.main.connfd))
  }

  function AcceptSetFdStep(s: State): State
    requires WellFormed(s)
  {
    if !s.main.MCleared? then s
    else
      var c, conn := s.main.c, s.pool.conns[s.main.c];
      SetConn(s, c, conn.(fd := s.main.connfd))
        .(place := s.place[c := Open],
          hist := s.hist.(uses := s.hist.uses + {(c, conn.sequence)}),
          main := MOpened(c))
  }

  /** epoll_oper_event fails: close_connection. */
  function AcceptEpollStep(s: State, ok: bool): State
    requires WellFormed(s)
  {
    if !s.main.MOpened? then s
    else if ok then s.(main := MRegistered(s.main.c))
    else if ConnLocked(s, s.main.c) then s
    else
      var c, conn := s.main.c, s.pool.conns[s.main.c];
      s.(pool := CloseDirectly(s.pool, c),
         place := s.place[c := Free],
         fds := s.fds - {conn.fd},
         hist := s.hist.(closes := s.hist.closes + multiset{(c, conn.sequence)},
                         direct := s.hist.direct + {(c, conn.sequence)}),
         main := MIdle)
  }

  function AcceptStampStep(cfg: Config, s: State): State
    requires WellFormed(s)
  {
    if !s.main.MRegistered? then s
    else if !cfg.timeEnable then s.(main := MQueued(s.main.c))
    else
      SetConn(s, s.main.c, s.pool.conns[s.main.c].(pingUpdateTime := s.now)).(main := MTimed(s.main.c, s.now))
  }

  function AcceptInsertStep(cfg: Config, s: State): State
    requires s.main.MTimed? ==> s.main.c < |s.pool.conns|
  {
    if !s.main.MTimed? || TimerLocked(s) then s
    else
      var c := s.main.c;
      s.(timer := Insert(s.timer, Entry(s.main.t + cfg.wait, c, s.pool.conns[c].sequence)), main := MQueued(c))
  }

  function AcceptCountStep(s: State): State {
    if !s.main.MQueued? then s
    else s.(pool := s.pool.(online := s.pool.online + 1), main := MIdle)
  }

  // The main thread: close_accepted_connection, on any accepted connection.

  function CloseBeginStep(cfg: Config, s: State, c: nat): State
    requires WellFormed(s)
  {
    if s.main != MIdle || c < cfg.listeners || c >= |s.pool.conns| || ConnLocked(s, c) then s
    else if CloseIgnored(s.pool.conns[c], false) then s
    else ReleaseUse(s, c).(main := MReleased(c))
  }

  function CloseClearStep(s: State): State
    requires WellFormed(s)
  {
    if !s.main.MReleased? then s else ForgetUse(s, s.main.c).(main := MClosing(s.main.c))
  }

  function CloseEndStep(s: State): State
    requires WellFormed(s)
  {
    if !s.main.MClosing? || RecyLocked(s) then s else EnqueueUse(s, s.main.c).(main := MIdle)
  }

  // The recycler.

  function RecyStartStep(s: State): State {
    if s.rec.RIdle? && s.pool.recyCount > 0 then s.(rec := RPass(0, s.now)) else s
  }

  function RecyStepStep(cfg: Config, s: State): State
    requires WellFormed(s)
  {
    if !s.rec.RPass? then s
    else if s.rec.i == |s.pool.recy| then s.(rec := RIdle)
    else
      var i, c := s.rec.i, s.pool.recy[s.rec.i];
      if RecycleDue(s.pool.conns[c], cfg.delay, s.now) then
        s.(pool := TakeRecycled(s.pool, i), place := s.place[c := Transit], rec := RHold(i, c, s.rec.began))
      else s.(rec := RPass(i + 1, s.rec.began))
  }

  function RecyFreeStep(s: State): State
    requires WellFormed(s)
  {
    if !s.rec.RHold? then s
    else
      s.(pool := FreeItem(s.pool, s.rec.c), place := s.place[s.rec.c := Free], rec := RPass(s.rec.i, s.rec.began))
  }

  // The timer thread.

  function TimStartStep(cfg: Config, s: State): State {
    if s.tim.TIdle? && cfg.timeEnable then s.(tim := TRead(s.now)) else s
  }

  function TimDrainStep(cfg: Config, s: State): State {
    if !s.tim.TRead? then s
    else s.(timer := Drained(s.timer, s.tim.cur, cfg.wait), tim := TExam(s.tim.cur, Due(s.timer, s.tim.cur)))
  }

  function TimCheckStep(cfg: Config, s: State): State
    requires WellFormed(s)
  {
    if !s.tim.TExam? then s
    else if s.tim.todo == [] then s.(tim := TIdle)
    else
      var cur, e, rest := s.tim.cur, s.tim.todo[0], s.tim.todo[1..];
      var conn := s.pool.conns[e.conn];
      if ConnLocked(s, e.conn) then s
      else if !NotOutdated(conn, e.sequence) then s.(tim := TStale(cur, e, rest))
      else if cur - conn.pingUpdateTime > 3 * cfg.wait then
        SetConn(s, e.conn, conn.(isTimeout := true))
          .(hist := s.hist.(idleAtMark := s.hist.idleAtMark[e.Pair() := cur - conn.pingUpdateTime]),
            tim := TMarked(cur, e, rest))
      else s.(tim := TExam(cur, rest))
  }

  function TimDeleteStep(s: State): State {
    if !s.tim.TStale? && !s.tim.TMarked? then s
    else
      var cur, e, rest := s.tim.cur, s.tim.e, s.tim.todo;
      s.(timer := Delete(s.timer, e.Pair()),
         hist := s.hist.(dropped := s.hist.dropped + {e.Pair()}),
         tim := if s.tim.TStale? then TExam(cur, rest) else TKick(cur, e, rest))
  }

  function TimKickStep(s: State): State
    requires WellFormed(s)
  {
    if !s.tim.TKick? then s
    else
      var cur, e, rest := s.tim.cur, s.tim.e, s.tim.todo;
      assert e in Exam(s.tim);
      if ConnLocked(s, e.conn) then s
      else if CloseIgnored(s.pool.conns[e.conn], true) then s.(tim := TExam(cur, rest))
      else
        var closed := ReleaseUse(s, e.conn);
        closed.(hist := closed.hist.(kicked := closed.hist.kicked + {(e.conn, s.pool.conns[e.conn].sequence)}),
                tim := TReleased(cur, e, rest))
  }

  function TimClearStep(s: State): State
    requires WellFormed(s)
  {
    if !s.tim.TReleased? then s
    else
      assert s.tim.e in Exam(s.tim);
      ForgetUse(s, s.tim.e.conn).(tim := TClosing(s.tim.cur, s.tim.e, s.tim.todo))
  }

  function TimEndStep(s: State): State
    requires WellFormed(s)
  {
    if !s.tim.TClosing? then s
    else
      assert s.tim.e in Exam(s.tim);
      if RecyLocked(s) then s else EnqueueUse(s, s.tim.e.conn).(tim := TExam(s.tim.cur, s.tim.todo))
  }

  // Time, and a worker that handles a ping.

  function PingStep(cfg: Config, s: State, c: nat): State
    requires WellFormed(s)
  {
    if c < cfg.listeners || c >= |s.pool.conns| || ConnLocked(s, c) then s
    else SetConn(s, c, s.pool.conns[c].(pingUpdateTime := s.now))
  }

  function Apply(cfg: Config, s: State, ev: Event): State
    requires WellFormed(s)
  {
    match ev
    case Tick(d) => s.(now := s.now + d)
    case Ping(c) => PingStep(cfg, s, c)
    case AcceptOnline(connfd) => AcceptOnlineStep(cfg, s, connfd)
    case AcceptSizes => AcceptSizesStep(cfg, s)
    case AcceptGet(junk) => AcceptGetStep(s, junk)
    case AcceptBump => AcceptBumpStep(s)
    case AcceptClear => AcceptClearStep(s)
    case AcceptSetFd => AcceptSetFdStep(s)
    case AcceptEpoll(ok) => AcceptEpollStep(s, ok)
    case AcceptStamp => AcceptStampStep(cfg, s)
    case AcceptInsert => AcceptInsertStep(cfg, s)
    case AcceptCount => AcceptCountStep(s)
    case CloseBegin(c) => CloseBeginStep(cfg, s, c)
    case CloseClear => CloseClearStep(s)
    case CloseEnd => CloseEndStep(s)
    case RecyStart => RecyStartStep(s)
    case RecyStep => RecyStepStep(cfg, s)
    case RecyFree => RecyFreeStep(s)
    case TimStart => TimStartStep(cfg, s)
    case TimDrain => TimDrainStep(cfg, s)
    case TimCheck => TimCheckStep(cfg, s)
    case TimDelete => TimDeleteStep(s)
    case TimKick => TimKickStep(s)
    case TimClear => TimClearStep(s)
    case TimEnd => TimEndStep(s)
  }

  /** A run: any schedule of events. */
  ghost function Run(cfg: Config, s: State, evs: seq<Event>): State
    decreases |evs|
  {
    if evs == [] || !WellFormed(s) then s else Run(cfg, Apply(cfg, s, evs[0]), evs[1..])
  }

  /** The state in which the threads start, after epoll_event_init. */
  ghost predicate IsInitial(cfg: Config, s: State, listenFds: seq<int>) {
    && cfg.Valid()
    && |listenFds| == cfg.listeners
    && (forall k | 0 <= k < |listenFds| :: listenFds[k] > 0)
    && (forall j, k | 0 <= j < k < |listenFds| :: listenFds[j] != listenFds[k])
    && IsStart(s.pool, cfg.created, listenFds)
    && |s.place| == |s.pool.conns| == |s.hist.closedAt|
    && (forall c | 0 <= c < |s.place| :: s.place[c] == if c < cfg.listeners then Listener else Free)
    && (forall c | 0 <= c < |s.place| :: s.hist.closedAt[c] == None)
    && s.main == MIdle && s.rec == RIdle && s.tim == TIdle && s.timer == []
    && s.fds == (set k | 0 <= k < |listenFds| :: listenFds[k])
    && s.hist == History({}, multiset{}, {}, multiset{}, map[], {}, {}, s.hist.closedAt)
  }
}
