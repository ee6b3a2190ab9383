/** What holds between any two events of Lifecycle.  Each predicate takes the parts of the state it is about. */
module Invariant {
  import opened Common
  import opened ConnPool
  import opened TimerQueue
  import opened Lifecycle

  // ---------- Places ----------

  /** What an object looks like in each place.  Sequence numbers are odd while it is in use. */
  predicate ConnOk(conn: Conn, p: Place) {
    && conn.sequence + conn.sequence % 2 < SEQUENCE_LIMIT
    && match p
       case Listener => conn.fd > 0
       case Free => conn.fd == CLOSED && conn.sequence % 2 == 0
       case InHand => conn.fd == CLOSED
       case Open => conn.fd > 0 && conn.sequence % 2 == 1 && !conn.inRecyList
       case Released => conn.fd > 0 && conn.sequence % 2 == 1 && !conn.inRecyList
       case Closing => conn.fd == CLOSED && conn.sequence % 2 == 1 && !conn.inRecyList
       case Recycling => conn.fd == CLOSED && conn.sequence % 2 == 1 && conn.inRecyList
       case Transit => conn.fd == CLOSED && conn.sequence % 2 == 0
  }

  predicate ConnsOk(listeners: nat, conns: seq<Conn>, place: seq<Place>) {
    && listeners <= |conns| == |place|
    && (forall c | 0 <= c < |place| :: ConnOk(conns[c], place[c]))
    && (forall c | 0 <= c < |place| :: place[c] == Listener <==> c < listeners)
  }

  /** `q` lists exactly the objects in place `p`, each once. */
  predicate Lists(q: seq<nat>, place: seq<Place>, p: Place) {
    && (forall k | 0 <= k < |q| :: q[k] < |place| && place[q[k]] == p)
    && (forall j, k | 0 <= j < k < |q| :: q[j] != q[k])
    && (forall c | 0 <= c < |place| && place[c] == p :: c in q)
  }

  predicate Counted(pool: Pool) {
    pool.total == |pool.conns| && pool.freeCount == |pool.free| && pool.recyCount == |pool.recy|
  }

  predicate At(place: seq<Place>, c: nat, p: Place) {
    c < |place| && place[c] == p
  }

  predicate Opened(m: MainPc) {
    m.MOpened? || m.MRegistered? || m.MTimed?
  }

  predicate InHandOf(m: MainPc) {
    m.MGot? || m.MBumped? || m.MCleared?
  }

  /** The timer thread has marked an entry's connection and not closed it. */
  predicate Marking(t: TimPc) {
    t.TMarked? || t.TKick?
  }

  /** The main thread's object. */
  predicate MainOk(listeners: nat, conns: seq<Conn>, place: seq<Place>, m: MainPc) {
    && |place| == |conns|
    && (HasConn(m) ==> listeners <= m.c < |place|)
    && (InHandOf(m) ==> place[m.c] == InHand)
    && (InHandOf(m) ==> conns[m.c].sequence % 2 == if m.MGot? then 0 else 1)
    && (m.MCleared? ==> !conns[m.c].inRecyList)
    && (m.MCleared? || Opened(m) ==> !conns[m.c].isTimeout)
    && (Opened(m) ==> place[m.c] == Open)
    && (m.MReleased? ==> place[m.c] == Released)
    && (m.MClosing? ==> place[m.c] == Closing)
  }

  predicate RecOk(place: seq<Place>, recy: seq<nat>, r: RecPc) {
    && (r.RPass? || r.RHold? ==> r.i <= |recy|)
    && (r.RHold? ==> At(place, r.c, Transit))
  }

  predicate TimOk(conns: seq<Conn>, place: seq<Place>, t: TimPc) {
    && |place| == |conns|
    && (Marking(t) || TimerLocks(t) ==> t.e.conn < |conns| && conns[t.e.conn].sequence == t.e.sequence)
    && (Marking(t) ==> place[t.e.conn] == Open && conns[t.e.conn].isTimeout)
    && (t.TReleased? ==> place[t.e.conn] == Released)
    && (t.TClosing? ==> place[t.e.conn] == Closing)
  }

  /** Objects between two places are in the hands of the one thread that moves them. */
  predicate Hands(conns: seq<Conn>, place: seq<Place>, m: MainPc, r: RecPc, t: TimPc) {
    && |place| == |conns|
    && (forall c | 0 <= c < |place| && place[c] == InHand :: InHandOf(m) && m.c == c)
    && (forall c | 0 <= c < |place| && place[c] == Transit :: r.RHold? && r.c == c)
    && (forall c | 0 <= c < |place| && place[c] == Released ::
          (m.MReleased? && m.c == c) || (t.TReleased? && t.e.conn == c))
    && (forall c | 0 <= c < |place| && place[c] == Closing ::
          (m.MClosing? && m.c == c) || (t.TClosing? && t.e.conn == c))
    && (forall c | 0 <= c < |place| && place[c] == Open && conns[c].isTimeout :: Marking(t) && t.e.conn == c)
    && (MainLocks(m) && TimerLocks(t) ==> m.c != t.e.conn)
  }

  predicate Partition(cfg: Config, s: State) {
    && ConnsOk(cfg.listeners, s.pool.conns, s.place)
    && Lists(s.pool.free, s.place, Free) && Lists(s.pool.recy, s.place, Recycling) && Counted(s.pool)
  }

  predicate Threads(cfg: Config, s: State) {
    && MainOk(cfg.listeners, s.pool.conns, s.place, s.main)
    && RecOk(s.place, s.pool.recy, s.rec) && TimOk(s.pool.conns, s.place, s.tim)
    && Hands(s.pool.conns, s.place, s.main, s.rec, s.tim)
  }

  predicate Places(cfg: Config, s: State) {
    Partition(cfg, s) && Threads(cfg, s)
  }

  // ---------- Uses ----------

  /** `u` is the current use of its object. */
  predicate Current(conns: seq<Conn>, place: seq<Place>, u: Use) {
    u.0 < |conns| == |place| && conns[u.0].sequence == u.1
  }

  predicate InUse(p: Place) {
    p == Open || p == Released || p == Closing || p == Recycling
  }

  predicate LiveUse(conns: seq<Conn>, place: seq<Place>, u: Use) {
    Current(conns, place, u) && place[u.0] == Open
  }

  predicate Unqueued(conns: seq<Conn>, place: seq<Place>, u: Use) {
    Current(conns, place, u) && (place[u.0] == Open || place[u.0] == Released || place[u.0] == Closing)
  }

  ghost predicate UsesOk(listeners: nat, conns: seq<Conn>, place: seq<Place>, uses: set<Use>) {
    && |place| == |conns|
    && (forall u | u in uses ::
          && listeners <= u.0 < |conns| && u.1 % 2 == 1 && u.1 <= conns[u.0].sequence
          && (u.1 == conns[u.0].sequence ==> InUse(place[u.0])))
    && (forall c: nat | c < |place| && InUse(place[c]) :: (c, conns[c].sequence) in uses)
  }

  ghost predicate DirectOk(conns: seq<Conn>, h: History) {
    forall u | u in h.direct :: u in h.uses && u.0 < |conns| && u.1 < conns[u.0].sequence && u !in h.kicked
  }

  /** Each use is closed once, and not before its end. */
  ghost predicate ClosesOk(conns: seq<Conn>, place: seq<Place>, h: History) {
    forall u: Use :: h.closes[u] == if u in h.uses && !LiveUse(conns, place, u) then 1 else 0
  }

  /** Each use that was not closed by close_connection enters the recycle list once. */
  ghost predicate QueuedOk(conns: seq<Conn>, place: seq<Place>, h: History) {
    forall u: Use :: h.queued[u] == if u in h.uses && u !in h.direct && !Unqueued(conns, place, u) then 1 else 0
  }

  ghost predicate KickedOk(conns: seq<Conn>, place: seq<Place>, h: History) {
    forall u | u in h.kicked :: u in h.uses && u in h.idleAtMark && !LiveUse(conns, place, u)
  }

  ghost predicate MarksOk(wait: int, h: History, t: TimPc) {
    && (forall u | u in h.idleAtMark :: u in h.uses && h.idleAtMark[u] > 3 * wait)
    && (Marking(t) ==> t.e.Pair() in h.idleAtMark)
  }

  /** The whole account of uses. */
  ghost predicate Ledger(listeners: nat, conns: seq<Conn>, place: seq<Place>, h: History) {
    && UsesOk(listeners, conns, place, h.uses) && DirectOk(conns, h)
    && ClosesOk(conns, place, h) && QueuedOk(conns, place, h) && KickedOk(conns, place, h)
  }

  ghost predicate UsesKept(cfg: Config, s: State) {
    Ledger(cfg.listeners, s.pool.conns, s.place, s.hist) && MarksOk(cfg.wait, s.hist, s.tim)
  }

  // ---------- Descriptors ----------

  predicate Holds(conns: seq<Conn>, place: seq<Place>, c: nat, fd: int) {
    c < |place| == |conns| && (place[c] == Open || place[c] == Listener) && conns[c].fd == fd
  }

  ghost predicate Owned(conns: seq<Conn>, place: seq<Place>, fd: int) {
    exists c: nat :: Holds(conns, place, c, fd)
  }

  /** The main thread holds a descriptor that no object has yet. */
  predicate Pending(m: MainPc) {
    m.MAdmitted? || m.MSized? || InHandOf(m)
  }

  /** Open descriptors and their owners correspond one to one. */
  ghost predicate Descriptors(conns: seq<Conn>, place: seq<Place>, m: MainPc, fds: set<int>) {
    && |place| == |conns|
    && (forall c: nat, fd: int | Holds(conns, place, c, fd) :: fd in fds)
    && (forall c: nat, d: nat, fd: int | Holds(conns, place, c, fd) && Holds(conns, place, d, fd) :: c == d)
    && (Pending(m) ==> m.connfd > 0 && m.connfd in fds)
    && (Pending(m) ==> !Owned(conns, place, m.connfd))
    && (forall fd | fd in fds && !(Pending(m) && m.connfd == fd) :: Owned(conns, place, fd))
  }

  // ---------- Timer entries ----------

  /** `u` is the current use of the main thread's new object, and has no timer entry yet. */
  predicate NotTimed(conns: seq<Conn>, place: seq<Place>, m: MainPc, u: Use) {
    (Opened(m) || m.MBumped? || m.MCleared?) && m.c == u.0 && Current(conns, place, u)
  }

  /** `u` has begun and its entry has been made. */
  ghost predicate Entered(conns: seq<Conn>, place: seq<Place>, m: MainPc, uses: set<Use>, u: Use) {
    u in uses && !NotTimed(conns, place, m, u)
  }

  /** `u` is live and the 32-bit parameter of JudgeOutdate still carries its sequence number. */
  predicate Judgeable(conns: seq<Conn>, place: seq<Place>, u: Use) {
    LiveUse(conns, place, u) && u.1 < TWO_31
  }

  /** No use has two entries, and none in `dropped` has one. */
  ghost predicate Unique(pairs: multiset<Use>, dropped: set<Use>) {
    forall u: Use :: pairs[u] <= if u in dropped then 0 else 1
  }

  ghost predicate TimerOk(q: seq<Entry>, dropped: set<Use>) {
    Sorted(q) && Unique(Pairs(q), dropped)
  }

  /** The uses that the timer has to do with. */
  ghost predicate Tracked(s: State, u: Use) {
    u in Pairs(s.timer) || u in Pairs(Exam(s.tim)) || u in s.hist.dropped
  }

  ghost predicate EntriesOk(s: State) {
    && (forall u: Use | Tracked(s, u) :: Entered(s.pool.conns, s.place, s.main, s.hist.uses, u))
    && (s.tim.TStale? ==> !Judgeable(s.pool.conns, s.place, s.tim.e.Pair()))
  }

  lemma ExamEntered(s: State, e: Entry)
    requires EntriesOk(s) && e in Exam(s.tim)
    ensures Entered(s.pool.conns, s.place, s.main, s.hist.uses, e.Pair())
  {
    PairsMember(Exam(s.tim), e.Pair());
    assert Tracked(s, e.Pair());
  }

  /** `u` is being opened, or marked and deleted from the timer but not closed. */
  predicate Unsettled(m: MainPc, t: TimPc, u: Use) {
    (Opened(m) && m.c == u.0) || (t.TKick? && t.e.conn == u.0)
  }

  ghost predicate Agreement(s: State) {
    forall u: Use | Judgeable(s.pool.conns, s.place, u) && !Unsettled(s.main, s.tim, u) :: Pairs(s.timer)[u] == 1
  }

  // ---------- Counts ----------

  /** Not counted down yet. */
  predicate IsOpen(p: Place) {
    p == Open || p == Released
  }

  /** The number of accepted connections that have not been counted down. */
  function OpenCount(place: seq<Place>): nat {
    if place == [] then 0 else (if IsOpen(place[0]) then 1 else 0) + OpenCount(place[1..])
  }

  function NotCounted(m: MainPc): nat {
    if Opened(m) || m.MQueued? then 1 else 0
  }

  predicate Admitting(m: MainPc) {
    !m.MIdle? && !MainLocks(m)
  }

  ghost predicate OnlineOk(workers: nat, place: seq<Place>, m: MainPc, online: int) {
    && OpenCount(place) == online + NotCounted(m)
    && online <= workers
    && (Admitting(m) ==> online < workers)
  }

  function SizeBound(cfg: Config): nat {
    Max(Max(cfg.created, cfg.listeners), 5 * cfg.workers + 1)
  }

  predicate Growth(cfg: Config, size: nat, free: nat, m: MainPc) {
    size <= SizeBound(cfg) && (m.MSized? ==> size <= 5 * cfg.workers || free >= cfg.workers)
  }

  // ---------- Quarantine ----------

  predicate Rested(conn: Conn, p: Place, closedAt: Option<int>, delay: int, now: int) {
    match p
    case Released => closedAt.Some? && closedAt.value <= now
    case Closing => closedAt.Some? && closedAt.value <= now
    case Recycling => closedAt.Some? && closedAt.value <= conn.inRecyTime <= now
    case _ => closedAt.Some? ==> closedAt.value + delay < now
  }

  predicate Quarantine(conns: seq<Conn>, place: seq<Place>, closedAt: seq<Option<int>>, delay: int, now: int) {
    && |place| == |conns| == |closedAt|
    && (forall c | 0 <= c < |place| :: Rested(conns[c], place[c], closedAt[c], delay, now))
  }

  /** The entries that the recycler has passed were not due when the pass began. */
  predicate PassOk(conns: seq<Conn>, recy: seq<nat>, r: RecPc, delay: int, now: int) {
    r.RPass? || r.RHold? ==>
      && r.i <= |recy| && r.began <= now
      && (forall j | 0 <= j < r.i :: recy[j] < |conns| && !RecycleDue(conns[recy[j]], delay, r.began))
  }

  // ---------- Heartbeat ----------

  ghost predicate InExam(t: TimPc, u: Use) {
    exists e :: e in Exam(t) && e.Pair() == u
  }

  /** An entry of a live use is due within four waiting times of the last ping. */
  predicate Timely(conns: seq<Conn>, place: seq<Place>, wait: int, e: Entry) {
    Judgeable(conns, place, e.Pair()) ==> e.key <= conns[e.conn].pingUpdateTime + 4 * wait
  }

  predicate PingsOk(conns: seq<Conn>, place: seq<Place>, m: MainPc, now: int) {
    && |place| == |conns|
    && (forall c | 0 <= c < |place| && place[c] == Open :: conns[c].pingUpdateTime <= now)
    && (m.MCleared? || m.MTimed? ==> m.c < |conns|)
    && (m.MCleared? ==> conns[m.c].pingUpdateTime <= now)
    && (m.MTimed? ==> m.t <= conns[m.c].pingUpdateTime)
  }

  /** While an entry waits for its examination, its copy in the timer has the new key. */
  ghost predicate Heartbeat(wait: int, s: State) {
    && (s.tim.TIdle? || s.tim.cur <= s.now)
    && (forall e | e in s.timer && !InExam(s.tim, e.Pair()) :: Timely(s.pool.conns, s.place, wait, e))
    && (forall e | e in Exam(s.tim) :: Timely(s.pool.conns, s.place, wait, e))
    && (forall e | e in s.timer && InExam(s.tim, e.Pair()) :: e.key == s.tim.cur + wait)
  }

  ghost predicate Inv(cfg: Config, s: State) {
    && cfg.Valid()
    && Places(cfg, s) && UsesKept(cfg, s) && Descriptors(s.pool.conns, s.place, s.main, s.fds)
    && TimerOk(s.timer, s.hist.dropped) && EntriesOk(s) && (cfg.timeEnable ==> Agreement(s))
    && (!s.tim.TIdle? ==> cfg.timeEnable)
    && OnlineOk(cfg.workers, s.place, s.main, s.pool.online)
    && Growth(cfg, |s.pool.conns|, |s.pool.free|, s.main)
    && Quarantine(s.pool.conns, s.place, s.hist.closedAt, cfg.delay, s.now)
    && PassOk(s.pool.conns, s.pool.recy, s.rec, cfg.delay, s.now)
    && PingsOk(s.pool.conns, s.place, s.main, s.now) && (cfg.timeEnable ==> Heartbeat(cfg.wait, s))
  }
}
