/** The pool of connection objects of net/socket_conn.cxx and net/c_socket.cxx, as values: an object is
    its position in m_connectionList, and each function is one critical section. */
module ConnPool {

  datatype Conn = Conn(
    fd: int,
    sequence: nat,
    inRecyList: bool,
    isTimeout: bool,
    pingUpdateTime: int,
    inRecyTime: int)

  const CLOSED := -1

  datatype Pool = Pool(
    conns: seq<Conn>,      // m_connectionList
    free: seq<nat>,        // m_free_connectionList
    recy: seq<nat>,        // m_recy_connectionList
    total: int,            // m_total_connection_count
    freeCount: int,        // m_free_connection_count
    recyCount: int,        // m_recy_connection_count
    online: int)           // m_online_count
  {
    predicate InRange() {
      (forall k | 0 <= k < |free| :: free[k] < |conns|) && (forall k | 0 <= k < |recy| :: recy[k] < |conns|)
    }
  }

  // ---------- Sequence numbers ----------

  const TWO_31: nat := 0x8000_0000
  const TWO_32: nat := 0x1_0000_0000
  const TWO_64: nat := 0x1_0000_0000_0000_0000

  /** A 64-bit sequence number that has been passed as an `int` and compared with one again: the lowest
      32 bits, sign-extended. */
  function PassedAsInt(s: nat): (r: nat) {
    var low := s % TWO_32;
    if low < TWO_31 then low else TWO_64 - TWO_32 + low
  }

  /** True while the connection is not out of date. */
  predicate NotOutdated(conn: Conn, s: nat) {
    conn.fd > 0 && !conn.inRecyList && conn.sequence == PassedAsInt(s)
  }

  /** For its own sequence number the test works exactly below 2^31 (and in the last 2^31 numbers). */
  lemma NotOutdatedOwn(conn: Conn)
    requires conn.sequence < TWO_64 && conn.fd > 0 && !conn.inRecyList
    ensures NotOutdated(conn, conn.sequence) <==> conn.sequence < TWO_31 || conn.sequence >= TWO_64 - TWO_31
  {
  }

  /** An earlier sequence number is never taken for the current one before 2^63. */
  lemma NotOutdatedOlder(conn: Conn, s: nat)
    requires s <= conn.sequence < TWO_64 / 2
    ensures NotOutdated(conn, s) <==> conn.fd > 0 && !conn.inRecyList && s == conn.sequence && s < TWO_31
  {
  }

  // ---------- Critical sections ----------

  /** connection_t(-1): fd and sequence are set, the other fields are whatever they are. */
  function NewConn(junk: Conn): Conn {
    junk.(fd := CLOSED, sequence := 0)
  }

  /** get_connection_item: the object handed out ... */
  function Obtained(p: Pool): nat {
    if p.free != [] then p.free[0] else |p.conns|
  }

  /** ... and the pool after it. */
  function Obtain(p: Pool, junk: Conn): Pool {
    if p.free != [] then p.(free := p.free[1..], freeCount := p.freeCount - 1)
    else p.(conns := p.conns + [NewConn(junk)], total := p.total + 1)
  }

  /** free_connection_item. */
  function FreeItem(p: Pool, c: nat): Pool {
    p.(free := p.free + [c], freeCount := p.freeCount + 1)
  }

  function BumpSequence(conn: Conn): Conn {
    conn.(sequence := conn.sequence + 1)
  }

  /** GetOneToUse after its first statement. */
  function ClearFlags(conn: Conn, now: int): Conn {
    conn.(fd := CLOSED, inRecyList := false, isTimeout := false, pingUpdateTime := now)
  }

  function Update(p: Pool, c: nat, conn: Conn): Pool
    requires c < |p.conns|
  {
    p.(conns := p.conns[c := conn])
  }

  /** close_connection, past its checks. */
  function CloseDirectly(p: Pool, c: nat): Pool
    requires c < |p.conns|
  {
    FreeItem(Update(p, c, BumpSequence(p.conns[c].(fd := CLOSED))), c)
  }

  /** close_accepted_connection returns early: already closed, or left to the timer that marked it. */
  predicate CloseIgnored(conn: Conn, byTimer: bool) {
    conn.fd == CLOSED || (!byTimer && conn.isTimeout)
  }

  /** close_accepted_connection up to the call of InRecyConnQueue. */
  function CloseFd(p: Pool, c: nat): Pool
    requires c < |p.conns|
  {
    Update(p, c, p.conns[c].(fd := CLOSED)).(online := p.online - 1)
  }

  /** InRecyConnQueue. */
  function EnterRecycling(p: Pool, c: nat, now: int): Pool
    requires c < |p.conns|
  {
    if p.conns[c].inRecyList || c in p.recy then p
    else Update(p, c, p.conns[c].(inRecyList := true, inRecyTime := now))
           .(recyCount := p.recyCount + 1, recy := p.recy + [c])
  }

  /** The recycler's test for one entry of its list. */
  predicate RecycleDue(conn: Conn, delay: int, now: int) {
    delay + conn.inRecyTime < now
  }

  /** The recycler takes entry `i` off its list and calls PutOneToFree. */
  function TakeRecycled(p: Pool, i: nat): Pool
    requires i < |p.recy| && p.recy[i] < |p.conns|
  {
    Update(p, p.recy[i], BumpSequence(p.conns[p.recy[i]]))
      .(recy := p.recy[..i] + p.recy[i + 1..], recyCount := p.recyCount - 1)
  }

  /** A whole recycler pass from entry `i` on; the clock is read once per entry. */
  function RecyclePass(p: Pool, i: nat, delay: int, clock: seq<int>): Pool
    requires p.InRange() && i <= |p.recy| && |clock| == |p.recy| - i
    decreases |clock|
  {
    if clock == [] then p
    else if RecycleDue(p.conns[p.recy[i]], delay, clock[0]) then
      RecyclePass(FreeItem(TakeRecycled(p, i), p.recy[i]), i, delay, clock[1..])
    else RecyclePass(p, i + 1, delay, clock[1..])
  }

  // ---------- Start-up ----------

  function Max(a: nat, b: nat): nat {
    if a < b then b else a
  }

  /** The pool when `k` of the listeners have their object: `count` objects were made beforehand, and an
      object is made for each listener that finds none. */
  predicate Started(p: Pool, count: nat, listenFds: seq<int>, k: nat)
    requires k <= |listenFds|
  {
    && |p.conns| == Max(count, k)
    && (forall c | 0 <= c < |p.conns| :: p.conns[c].sequence == 0)
    && (forall c | 0 <= c < k :: p.conns[c].fd == listenFds[c])
    && (forall c | k <= c < |p.conns| :: p.conns[c].fd == CLOSED)
    && |p.free| == |p.conns| - k && (forall j | 0 <= j < |p.free| :: p.free[j] == k + j)
    && p.recy == [] && p.total == |p.conns| && p.freeCount == |p.free| && p.recyCount == 0 && p.online == 0
  }

  /** A listener gets an object and gives it its descriptor. */
  function WithListener(p: Pool, junk: Conn, listenFd: int): Pool {
    var q, c := Obtain(p, junk), Obtained(p);
    if c < |q.conns| then Update(q, c, q.conns[c].(fd := listenFd)) else q
  }

  lemma StartedNext(p: Pool, junk: Conn, count: nat, listenFds: seq<int>, k: nat)
    requires k < |listenFds| && Started(p, count, listenFds, k)
    ensures Started(WithListener(p, junk, listenFds[k]), count, listenFds, k + 1)
  {
  }

  predicate IsStart(p: Pool, count: nat, listenFds: seq<int>) {
    Started(p, count, listenFds, |listenFds|)
  }
}
