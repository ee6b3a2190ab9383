/** The send path of net/c_socket.cxx and net/socket_request.cxx as code.  Each method, run without
    interruption, is proved to make the steps of SendPath that stand for it. */
module SendThread {
  import opened Common
  import opened SendPath
  import SendScan

  /** One turn of the scan when the socket has room for `room` bytes. */
  ghost function Turn(s: State, room: nat): (t: State)
    requires WellFormed(s) && s.sender.SScan? && s.sender.i < |s.queue|
    ensures WellFormed(t)
  {
    var id := s.queue[s.sender.i];
    assert id in s.queue;
    var n := Min(room, |s.log[id].data|);
    SendScan.ScanKeepsWell(s, n);
    SendScan.OtherKeepsWell(ScanStep(s, n), Arm);
    ArmStep(ScanStep(s, n))
  }

  /** A whole scan; `rooms` is the room that the socket has in each turn. */
  ghost function ScanRun(s: State, rooms: seq<nat>): State
    requires WellFormed(s)
    decreases |rooms|
  {
    if rooms == [] || !s.sender.SScan? || s.sender.i >= |s.queue| then s
    else ScanRun(Turn(s, rooms[0]), rooms[1..])
  }

  /** The writable handler by itself. */
  ghost function HandlerRun(s: State, c: nat, n: nat): State
    requires WellFormed(s)
  {
    var t := WritableStep(s, c, n);
    SendScan.OtherKeepsWell(s, Writable(c, n));
    if t.main.WUnarm? then
      SendScan.OtherKeepsWell(t, Unarm);
      SendScan.OtherKeepsWell(UnarmStep(t), PostDone);
      ClearStep(PostDoneStep(UnarmStep(t)))
    else t
  }

  class Socket {
    var connections: seq<Channel>
    var log: seq<Msg>
    var m_send_msgList: seq<nat>
    var m_msgtosend_count: int
    var m_sendsem: nat

    ghost function View(): State
      reads this
    {
      State(connections, log, m_send_msgList, m_msgtosend_count, m_sendsem, [], [], 0, SAsleep, WIdle, false,
            [], {}, {}, {}, {})
    }

    /** The same in the middle of a scan. */
    ghost function Scanner(it: nat, skipped: set<nat>, overtaken: set<nat>): State
      reads this
    {
      View().(sender := SScan(it, skipped), overtaken := overtaken)
    }

    /** The body of the loop of SendMsgThreadFunc, at list position `it`. */
    method ScanTurn(it: nat, room: nat, ghost skipped: set<nat>, ghost overtaken: set<nat>)
        returns (next: nat, alive: bool, ghost passed: set<nat>, ghost over: set<nat>)
      requires WellFormed(View()) && it < |m_send_msgList|
      modifies this
      ensures log == old(log) && m_sendsem == old(m_sendsem)
      ensures var t := Turn(old(Scanner(it, skipped, overtaken)), room);
        && connections == t.chans && m_send_msgList == t.queue && m_msgtosend_count == t.count
        && (if alive then t == Scanner(next, passed, over) else t.sender == SDead)
      ensures alive ==> WellFormed(View()) && next <= |m_send_msgList|
                        && |m_send_msgList| - next + 1 == old(|m_send_msgList|) - it
    {
      var id := m_send_msgList[it];
      assert id in m_send_msgList && log[id] in log;
      var c, data := log[id].conn, log[id].data;
      var conn := connections[c];
      passed, over := skipped, overtaken;
      if conn.throwing > 0 {
        passed := skipped + {c};
        return it + 1, true, passed, over;
      }
      over := if c in skipped then overtaken + {c} else overtaken;
      m_send_msgList := Without(m_send_msgList, it);
      m_msgtosend_count := m_msgtosend_count - 1;
      var realSize := Min(room, |data|);
      conn := conn.(msg := Some(id), queued := conn.queued - 1, already := realSize, offset := 0, rest := |data|,
                    wire := conn.wire + data[..realSize]);
      if realSize < |data| {
        conn := conn.(throwing := conn.throwing + 1, offset := realSize, rest := |data| - realSize,
                      events := MaskAfter(conn.events, {EpollOut}, Add));
      } else if conn.already != conn.suppose {
        connections := connections[c := conn.(sent := conn.sent + [id])];
        return it, false, passed, over;
      } else {
        conn := conn.(msg := None, sent := conn.sent + [id]);
      }
      connections := connections[c := conn];
      return it, true, passed, over;
    }

    /** The loop of SendMsgThreadFunc over the list; not `alive` if the thread returns on a length mismatch. */
    method ScanList(rooms: seq<nat>) returns (alive: bool)
      requires WellFormed(View()) && |rooms| == |m_send_msgList|
      modifies this
      ensures var t := ScanRun(old(View()).(sender := SScan(0, {})), rooms);
        && connections == t.chans && m_send_msgList == t.queue && m_msgtosend_count == t.count
        && m_sendsem == old(m_sendsem) && log == old(log) && (alive <==> !t.sender.SDead?)
    {
      ghost var goal := ScanRun(View().(sender := SScan(0, {})), rooms);
      ghost var skipped: set<nat>, overtaken: set<nat> := {}, {};
      var it: nat, turn := 0, 0;
      assert rooms[0..] == rooms;
      while it < |m_send_msgList|
        invariant it <= |m_send_msgList| && turn + |m_send_msgList| - it == |rooms|
        invariant log == old(log) && m_sendsem == old(m_sendsem) && WellFormed(View())
        invariant ScanRun(Scanner(it, skipped, overtaken), rooms[turn..]) == goal
        decreases |rooms| - turn
      {
        assert rooms[turn..][1..] == rooms[turn + 1..];
        it, alive, skipped, overtaken := ScanTurn(it, rooms[turn], skipped, overtaken);
        turn := turn + 1;
        if !alive {
          return;
        }
      }
      alive := true;
    }

    /** event_writable_request_handler. */
    method EventWritable(c: nat, room: nat)
      requires WellFormed(View()) && c < |connections|
      requires var conn := connections[c];
        EpollOut in conn.events && conn.msg.Some? && conn.offset + conn.rest <= |log[conn.msg.value].data|
      modifies this
      ensures var t := HandlerRun(old(View()), c, Min(room, old(connections[c].rest)));
        connections == t.chans && m_sendsem == t.sem
      ensures log == old(log) && m_send_msgList == old(m_send_msgList) && m_msgtosend_count == old(m_msgtosend_count)
    {
      var conn := connections[c];
      var data := log[conn.msg.value].data;
      var realSize := Min(room, conn.rest);
      conn := conn.(already := conn.already + realSize, wire := conn.wire + data[conn.offset..conn.offset + realSize]);
      if realSize < conn.rest {
        connections := connections[c := conn.(offset := conn.offset + realSize, rest := conn.rest - realSize)];
        return;
      }
      if conn.already != conn.suppose {
        connections := connections[c := conn];
        return;
      }
      conn := conn.(sent := conn.sent + [conn.msg.value], events := MaskAfter(conn.events, {EpollOut}, Remove));
      m_sendsem := m_sendsem + 1;
      connections := connections[c := conn.(msg := None, throwing := 0)];
    }

    /** MsgSendInQueue; not `unlocked` if it returns on an overflow. */
    method MsgSendInQueue(m: Msg) returns (unlocked: bool)
      requires WellFormed(View()) && m.conn < |connections|
      modifies this
      ensures var t := PushStep(old(View()).(jobs := [m]), 0);
        && log == t.log && m_send_msgList == t.queue && (unlocked <==> !t.leaked)
        && (unlocked ==> WellFormed(t) && CountStep(t, 0).chans == connections
                         && CountStep(t, 0).count == m_msgtosend_count
                         && PostStep(CountStep(t, 0)).sem == m_sendsem)
        && (!unlocked ==> View() == old(View()))
    {
      ghost var s := View().(jobs := [m]);
      SendScan.PushKeepsWell(s, 0);
      if m_msgtosend_count > 1000 || connections[m.conn].queued > 400 {
        return false;
      }
      log, m_send_msgList := log + [m], m_send_msgList + [|log|];
      connections := connections[m.conn := connections[m.conn].(queued := connections[m.conn].queued + 1)];
      m_msgtosend_count := m_msgtosend_count + 1;
      m_sendsem := m_sendsem + 1;
      return true;
    }
  }
}
