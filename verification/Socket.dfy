/** The connection objects and pool queues of net/socket_conn.cxx and net/c_socket.cxx on the heap.  Each
    method is proved to be its critical section of module ConnPool. */
module Socket {
  import opened ConnPool

  class Connection {
    const id: nat          // the position in m_connectionList
    var fd: int
    var sequence: nat
    var inRecyList: bool
    var isTimeout: bool
    var pingUpdateTime: int
    var inRecyTime: int
    var events: int
    var iThrowsendCount: int
    var sendlen_already: nat
    var isend_count: int
    var hasReceived: bool  // p_recvbuf, recv_str and p_msgrecv are set
    var hasToSend: bool    // p_sendbuf, send_str and p_msgsend are set

    ghost function Value(): Conn
      reads this
    {
      Conn(fd, sequence, inRecyList, isTimeout, pingUpdateTime, inRecyTime)
    }

    constructor (id: nat, fd: int)
      ensures this.id == id && this.fd == fd && sequence == 0
    {
      this.id, this.fd, sequence := id, fd, 0;
    }

    method GetOneToUse(now: int)
      modifies this
      ensures Value() == ClearFlags(BumpSequence(old(Value())), now)
      ensures events == 0 && iThrowsendCount == 0 && sendlen_already == 0 && isend_count == 0
      ensures !hasReceived && hasToSend == old(hasToSend)
    {
      sequence := sequence + 1;
      fd := CLOSED;
      events := 0;
      iThrowsendCount := 0;
      sendlen_already := 0;
      isend_count := 0;
      inRecyList := false;
      isTimeout := false;
      pingUpdateTime := now;
      hasReceived := false;
    }

    method PutOneToFree()
      modifies this
      ensures Value() == BumpSequence(old(Value())) && iThrowsendCount == 0 && !hasReceived && !hasToSend
      ensures unchanged(`events) && unchanged(`sendlen_already) && unchanged(`isend_count)
    {
      sequence := sequence + 1;
      hasReceived := false;
      hasToSend := false;
      iThrowsendCount := 0;
    }

    method JudgeOutdate(curSequence: nat) returns (current: bool)
      ensures current == NotOutdated(Value(), curSequence)
    {
      if fd <= 0 || inRecyList || sequence != PassedAsInt(curSequence) {
        return false;
      }
      return true;
    }
  }

  class Socket {
    var m_connectionList: seq<Connection>
    var m_free_connectionList: seq<Connection>
    var m_recy_connectionList: seq<Connection>
    var m_total_connection_count: int
    var m_free_connection_count: int
    var m_recy_connection_count: int
    var m_online_count: int
    const m_delay_time: int

    ghost predicate Member(conn: Connection)
      reads this
    {
      conn.id < |m_connectionList| && m_connectionList[conn.id] == conn
    }

    ghost predicate Valid()
      reads this
    {
      && (forall k | 0 <= k < |m_connectionList| :: m_connectionList[k].id == k)
      && (forall k | 0 <= k < |m_free_connectionList| :: Member(m_free_connectionList[k]))
      && (forall k | 0 <= k < |m_recy_connectionList| :: Member(m_recy_connectionList[k]))
    }

    static ghost function Ids(list: seq<Connection>): (ids: seq<nat>)
      ensures |ids| == |list|
    {
      seq(|list|, k requires 0 <= k < |list| => list[k].id)
    }

    static ghost function Values(list: seq<Connection>): (values: seq<Conn>)
      reads list
      ensures |values| == |list|
    {
      seq(|list|, k requires 0 <= k < |list| reads list => list[k].Value())
    }

    ghost function State(): (p: Pool)
      reads this, m_connectionList
    {
      Pool(Values(m_connectionList), Ids(m_free_connectionList), Ids(m_recy_connectionList),
           m_total_connection_count, m_free_connection_count, m_recy_connection_count, m_online_count)
    }

    constructor (delay: int)
      ensures Valid() && State() == Pool([], [], [], 0, 0, 0, 0) && m_delay_time == delay
    {
      m_connectionList, m_free_connectionList, m_recy_connectionList := [], [], [];
      m_total_connection_count, m_free_connection_count := 0, 0;
      m_recy_connection_count, m_online_count := 0, 0;
      m_delay_time := delay;
    }

    method GetConnectionItem() returns (conn: Connection)
      requires Valid()
      modifies this
      ensures Valid() && Member(conn)
      ensures conn.id == Obtained(old(State()))
      ensures State() == Obtain(old(State()), conn.Value())
      ensures conn !in old(m_connectionList) ==> fresh(conn) && conn.fd == CLOSED && conn.sequence == 0
      ensures old(m_connectionList) <= m_connectionList
    {
      if m_free_connectionList != [] {
        conn := m_free_connectionList[0];
        m_free_connectionList := m_free_connectionList[1..];
        m_free_connection_count := m_free_connection_count - 1;
        assert m_connectionList[conn.id] == conn;
      } else {
        conn := new Connection(|m_connectionList|, CLOSED);
        m_connectionList := m_connectionList + [conn];
        m_total_connection_count := m_total_connection_count + 1;
      }
    }

    method FreeConnectionItem(conn: Connection)
      requires Valid() && Member(conn)
      modifies this
      ensures Valid() && State() == FreeItem(old(State()), conn.id)
      ensures m_connectionList == old(m_connectionList) && m_recy_connectionList == old(m_recy_connectionList)
    {
      m_free_connectionList := m_free_connectionList + [conn];
      m_free_connection_count := m_free_connection_count + 1;
    }

    /** The source exits the process when the first two conditions fail; module Lifecycle shows that they
        never do. */
    method CloseConnection(conn: Connection)
      requires Valid() && Member(conn) && conn.fd != CLOSED && !conn.isTimeout
      modifies this, conn
      ensures Valid() && State() == CloseDirectly(old(State()), conn.id)
    {
      conn.fd := CLOSED;
      conn.sequence := conn.sequence + 1;
      FreeConnectionItem(conn);
    }

    method CloseAcceptedConnection(conn: Connection, isTimeoutClose: bool, now: int)
      requires Valid() && Member(conn)
      modifies this, conn
      ensures Valid()
      ensures State() == if CloseIgnored(old(conn.Value()), isTimeoutClose) then old(State())
                         else EnterRecycling(CloseFd(old(State()), conn.id), conn.id, now)
      ensures conn.iThrowsendCount == old(conn.iThrowsendCount)
                - if !CloseIgnored(old(conn.Value()), isTimeoutClose) && old(conn.iThrowsendCount) > 0 then 1 else 0
      ensures unchanged(conn`events) && unchanged(conn`sendlen_already) && unchanged(conn`isend_count)
      ensures unchanged(conn`hasReceived) && unchanged(conn`hasToSend)
    {
      if conn.fd == CLOSED {
        return;
      }
      if !isTimeoutClose {
        if conn.isTimeout {
          return;
        }
      }
      conn.fd := CLOSED;
      if conn.iThrowsendCount > 0 {
        conn.iThrowsendCount := conn.iThrowsendCount - 1;
      }
      m_online_count := m_online_count - 1;
      assert State() == CloseFd(old(State()), conn.id);
      InRecyConnQueue(conn, now);
    }

    method InRecyConnQueue(conn: Connection, now: int)
      requires Valid() && Member(conn)
      modifies this, conn`inRecyList, conn`inRecyTime
      ensures Valid() && m_connectionList == old(m_connectionList)
      ensures State() == EnterRecycling(old(State()), conn.id, now)
    {
      if conn.inRecyList {
        return;
      }
      var found := false;
      for k := 0 to |m_recy_connectionList|
        invariant !found
        invariant forall j | 0 <= j < k :: m_recy_connectionList[j] != conn
      {
        if m_recy_connectionList[k] == conn {
          found := true;
          assert conn.id == State().recy[k];
          break;
        }
      }
      if found {
        return;
      }
      assert conn.id !in State().recy;
      conn.inRecyList := true;
      conn.inRecyTime := now;
      m_recy_connection_count := m_recy_connection_count + 1;
      m_recy_connectionList := m_recy_connectionList + [conn];
    }

    /** The recycler gives one due entry of its list back to the pool. */
    method RecycleEntry(it: nat)
      requires Valid() && it < |m_recy_connectionList|
      modifies this, m_connectionList
      ensures Valid() && m_connectionList == old(m_connectionList)
      ensures State() == FreeItem(TakeRecycled(old(State()), it), old(State()).recy[it])
      ensures m_recy_connectionList == old(m_recy_connectionList[..it] + m_recy_connectionList[it + 1..])
    {
      var conn := m_recy_connectionList[it];
      m_recy_connectionList := m_recy_connectionList[..it] + m_recy_connectionList[it + 1..];
      m_recy_connection_count := m_recy_connection_count - 1;
      conn.PutOneToFree();
      assert State() == TakeRecycled(old(State()), it);
      FreeConnectionItem(conn);
    }

    /** One pass of the recycler over its list, under its lock; `clock` holds the readings of the clock,
        one per entry. */
    method RecyclePass(clock: seq<int>)
      requires Valid() && |clock| == |m_recy_connectionList|
      modifies this, m_connectionList
      ensures Valid() && State() == ConnPool.RecyclePass(old(State()), 0, m_delay_time, clock)
    {
      var it := 0;
      var turn := 0;
      assert clock[0..] == clock;
      while it < |m_recy_connectionList|
        invariant Valid() && it <= |m_recy_connectionList| && turn <= |clock|
        invariant |clock| - turn == |m_recy_connectionList| - it
        invariant m_connectionList == old(m_connectionList)
        invariant ConnPool.RecyclePass(State(), it, m_delay_time, clock[turn..])
               == ConnPool.RecyclePass(old(State()), 0, m_delay_time, clock)
        decreases |clock| - turn
      {
        assert clock[turn..][0] == clock[turn] && clock[turn..][1..] == clock[turn + 1..];
        if m_delay_time + m_recy_connectionList[it].inRecyTime < clock[turn] {
          RecycleEntry(it);
        } else {
          it := it + 1;
        }
        turn := turn + 1;
      }
      assert clock[turn..] == [];
    }

    method ConnectPoolInit(count: nat)
      requires Valid() && m_connectionList == m_free_connectionList == m_recy_connectionList == []
      modifies this
      ensures Valid() && fresh(m_connectionList) && m_free_connectionList == m_connectionList
      ensures |m_connectionList| == count == m_total_connection_count == m_free_connection_count
      ensures forall conn | conn in m_connectionList :: conn.fd == CLOSED && conn.sequence == 0
      ensures m_recy_connectionList == [] && m_recy_connection_count == old(m_recy_connection_count)
      ensures m_online_count == old(m_online_count)
    {
      for k := 0 to count
        invariant Valid() && |m_connectionList| == k && m_free_connectionList == m_connectionList
        invariant fresh(m_connectionList)
        invariant forall conn | conn in m_connectionList :: conn.fd == CLOSED && conn.sequence == 0
        invariant m_recy_connectionList == [] && m_recy_connection_count == old(m_recy_connection_count)
        invariant m_online_count == old(m_online_count)
      {
        var conn := new Connection(k, CLOSED);
        m_connectionList := m_connectionList + [conn];
        m_free_connectionList := m_free_connectionList + [conn];
      }
      m_total_connection_count, m_free_connection_count := count, count;
    }

    /** A listener gets its object. */
    method AddListener(listenFd: int) returns (conn: Connection)
      requires Valid()
      modifies this, m_connectionList
      ensures Valid() && Member(conn) && conn.id == Obtained(old(State()))
      ensures exists junk :: State() == WithListener(old(State()), junk, listenFd)
      ensures forall c | 0 <= c < |m_connectionList| ::
        m_connectionList[c] in old(m_connectionList) || fresh(m_connectionList[c])
    {
      conn := GetConnectionItem();
      ghost var junk := conn.Value();
      ghost var obtained := State();
      conn.fd := listenFd;
      assert State() == Update(obtained, conn.id, obtained.conns[conn.id].(fd := listenFd));
      assert State() == WithListener(old(State()), junk, listenFd);
    }

    /** Pool and listeners at start-up: listener k gets object k. */
    method EpollEventInit(count: nat, listenFds: seq<int>)
      requires Valid() && State() == Pool([], [], [], 0, 0, 0, 0)
      modifies this
      ensures Valid() && IsStart(State(), count, listenFds)
    {
      assert Values(m_connectionList) == [] && Ids(m_free_connectionList) == [] && Ids(m_recy_connectionList) == [];
      ConnectPoolInit(count);
      assert Started(State(), count, listenFds, 0);
      for k := 0 to |listenFds|
        invariant Valid()
        invariant forall c | 0 <= c < |m_connectionList| :: fresh(m_connectionList[c])
        invariant Started(State(), count, listenFds, k)
      {
        ghost var before := State();
        var conn := AddListener(listenFds[k]);
        ghost var junk :| State() == WithListener(before, junk, listenFds[k]);
        StartedNext(before, junk, count, listenFds, k);
      }
    }
  }
}
