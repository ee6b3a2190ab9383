/** How messages reach the wire (net/c_socket.cxx, net/socket_request.cxx): the sender thread scans the
    send list, and the writable handler of the main thread finishes what the socket did not take at once.
    Any number of connections and workers; every connection stays open and no send fails. */
module SendPath {
  import opened Common
  import opened Words

  datatype Msg = Msg(conn: nat, data: seq<Byte>)

  datatype Flag = EpollIn | EpollRdHup | EpollOut

  // ---------- epoll_oper_event: the event mask ----------

  datatype Action = Add | Remove | Overwrite

  /** EPOLL_CTL_MOD. */
  function MaskAfter(mask: set<Flag>, flags: set<Flag>, action: Action): set<Flag> {
    match action
    case Add => mask + flags
    case Remove => mask - flags
    case Overwrite => flags
  }

  /** Adding and then removing flags restores the mask exactly if none of them was in it. */
  lemma MaskRestored(mask: set<Flag>, flags: set<Flag>)
    ensures MaskAfter(MaskAfter(mask, flags, Add), flags, Remove) == mask <==> mask !! flags
  {
    if f :| f in mask && f in flags {
      assert f !in MaskAfter(MaskAfter(mask, flags, Add), flags, Remove);
    } else {
      assert mask + flags - flags == mask;
    }
  }

  // ---------- State ----------

  /** The send fields of one connection.  Messages are named by their position in the log. */
  datatype Channel = Channel(
    throwing: nat,         // iThrowsendCount
    events: set<Flag>,
    msg: Option<nat>,      // p_msgsend
    offset: nat,           // p_sendbuf, from the start of the packet
    rest: nat,             // sendlen
    already: nat,          // sendlen_already
    suppose: nat,          // sendlen_suppose
    queued: int,           // isend_count
    wire: seq<Byte>,       // what the socket has taken
    sent: seq<nat>)        // the messages that have been sent, in order

  /** The sender thread.  `skipped` are the connections that this scan has passed over. */
  datatype SenderPc =
    | SAsleep                               // in sem_wait
    | SAwake
    | SScan(i: nat, skipped: set<nat>)      // holds m_sendmutex, at position i
    | SArm(i: nat, skipped: set<nat>, c: nat)   // before EPOLLOUT is added
    | SDead                                 // returned on a length mismatch, with m_sendmutex

  /** The main thread in event_writable_request_handler after a packet is complete. */
  datatype MainPc =
    | WIdle
    | WUnarm(c: nat)     // before EPOLLOUT is removed
    | WPost(c: nat)      // before sem_post
    | WClear(c: nat)     // before the pointers and iThrowsendCount are cleared

  datatype State = State(
    chans: seq<Channel>,
    log: seq<Msg>,           // every message that was put into the list
    queue: seq<nat>,         // m_send_msgList
    count: int,              // m_msgtosend_count
    sem: nat,                // m_sendsem
    jobs: seq<Msg>,          // announced by a worker, not in the list yet
    uncounted: seq<nat>,     // workers that have put a message into the list of this connection
    unposted: nat,           // workers that have counted it
    sender: SenderPc,
    main: MainPc,
    leaked: bool,            // a worker returned with m_sendmutex
    announced: seq<Msg>,     // history: everything that was ever announced
    mismatched: set<nat>,    // history: connections with a completed packet of another length than announced last
    raced: set<nat>,         // history: connections completed during a scan that had passed over them
    overtaken: set<nat>,     // history: connections of which a scan started a message after passing over one
    missed: set<nat>)        // connections that the last scan has passed over between sem_post and the clearing
                             // and of which it has not left a later message half sent since

  datatype Event =
    | Announce(m: Msg)           // a worker sets sendlen_suppose
    | Push(k: nat)               // MsgSendInQueue under m_sendmutex
    | Count(k: nat)
    | Post
    | Wake
    | Check
    | Scan(n: nat)               // the next list element; the socket takes n bytes
    | Arm
    | Writable(c: nat, n: nat)
    | Unarm
    | PostDone
    | Clear

  // ---------- Steps ----------

  ghost predicate WellFormed(s: State) {
    && (forall m | m in s.log :: m.conn < |s.chans|)
    && (forall m | m in s.jobs :: m.conn < |s.chans|)
    && (forall c | c in s.uncounted :: c < |s.chans|)
    && (forall id | id in s.queue :: id < |s.log|)
    && (forall c | 0 <= c < |s.chans| && s.chans[c].msg.Some? :: s.chans[c].msg.value < |s.log|)
    && (s.sender.SScan? || s.sender.SArm? ==> s.sender.i <= |s.queue|)
    && (s.sender.SArm? ==> s.sender.c < |s.chans|)
    && (!s.main.WIdle? ==> s.main.c < |s.chans|)
  }

  predicate MutexFree(s: State) {
    !s.leaked && (s.sender.SAsleep? || s.sender.SAwake?)
  }

  function SetChan(s: State, c: nat, ch: Channel): State
    requires c < |s.chans|
  {
    s.(chans := s.chans[c := ch])
  }

  function Without<T>(q: seq<T>, k: nat): seq<T>
    requires k < |q|
  {
    q[..k] + q[k + 1..]
  }

  function AnnounceStep(s: State, m: Msg): State {
    if m.conn >= |s.chans| || m.data == [] then s
    else
      SetChan(s, m.conn, s.chans[m.conn].(suppose := |m.data|))
        .(jobs := s.jobs + [m], announced := s.announced + [m])
  }

  /** On overflow MsgSendInQueue returns without the message and without unlocking. */
  function PushStep(s: State, k: nat): State
    requires WellFormed(s)
  {
    if k >= |s.jobs| || !MutexFree(s) then s
    else
      var m, jobs := s.jobs[k], Without(s.jobs, k);
      assert m in s.jobs;
      if s.count > 1000 || s.chans[m.conn].queued > 400 then s.(jobs := jobs, leaked := true)
      else
        s.(jobs := jobs, log := s.log + [m], queue := s.queue + [|s.log|], uncounted := s.uncounted + [m.conn])
  }

  function CountStep(s: State, k: nat): State
    requires WellFormed(s)
  {
    if k >= |s.uncounted| then s
    else
      var c := s.uncounted[k];
      assert c in s.uncounted;
      SetChan(s, c, s.chans[c].(queued := s.chans[c].queued + 1))
        .(count := s.count + 1, uncounted := Without(s.uncounted, k), unposted := s.unposted + 1)
  }

  function PostStep(s: State): State {
    if s.unposted == 0 then s else s.(unposted := s.unposted - 1, sem := s.sem + 1)
  }

  function WakeStep(s: State): State {
    if s.sender != SAsleep || s.sem == 0 then s else s.(sem := s.sem - 1, sender := SAwake)
  }

  /** The test of m_msgtosend_count, and the lock. */
  function CheckStep(s: State): State {
    if s.sender != SAwake then s
    else if s.count <= 0 then s.(sender := SAsleep)
    else if !MutexFree(s) then s
    else s.(sender := SScan(0, {}), missed := {})
  }

  /** One turn of the scan; SendMsgThreadFunc, the body of the for loop, up to the change of the mask. */
  function ScanStep(s: State, n: nat): State
    requires WellFormed(s)
  {
    if !s.sender.SScan? then s
    else
      var i, skipped := s.sender.i, s.sender.skipped;
      if i >= |s.queue| then s.(sender := SAsleep)
      else
        var id := s.queue[i];
        assert id in s.queue && s.log[id] in s.log;
        var c, data := s.log[id].conn, s.log[id].data;
        var ch := s.chans[c];
        if ch.throwing > 0 then
          s.(sender := SScan(i + 1, skipped + {c}), missed := if s.main == WClear(c) then s.missed + {c} else s.missed)
        else if n > |data| then s
        else
          var taken := s.(queue := Without(s.queue, i), count := s.count - 1,
                          overtaken := if c in skipped then s.overtaken + {c} else s.overtaken);
          var ch1 := ch.(msg := Some(id), queued := ch.queued - 1, already := n, wire := ch.wire + data[..n]);
          if n < |data| then
            SetChan(taken, c, ch1.(throwing := ch.throwing + 1, offset := n, rest := |data| - n))
              .(sender := SArm(i, skipped, c), missed := if s.main == WClear(c) then s.missed else s.missed - {c})
          else if n != ch.suppose then
            SetChan(taken, c, ch1.(offset := 0, rest := |data|, sent := ch.sent + [id]))
              .(sender := SDead, mismatched := s.mismatched + {c})
          else
            SetChan(taken, c, ch1.(msg := None, offset := 0, rest := |data|, sent := ch.sent + [id]))
              .(sender := SScan(i, skipped))
  }

  function ArmStep(s: State): State
    requires WellFormed(s)
  {
    if !s.sender.SArm? then s
    else
      var c := s.sender.c;
      SetChan(s, c, s.chans[c].(events := MaskAfter(s.chans[c].events, {EpollOut}, Add)))
        .(sender := SScan(s.sender.i, s.sender.skipped))
  }

  /** event_writable_request_handler up to the removal of EPOLLOUT; the socket takes n bytes. */
  function WritableStep(s: State, c: nat, n: nat): State
    requires WellFormed(s)
  {
    if s.main != WIdle || c >= |s.chans| || EpollOut !in s.chans[c].events || s.chans[c].msg.None? then s
    else
      var ch := s.chans[c];
      var data := s.log[ch.msg.value].data;
      if n > ch.rest || ch.offset + n > |data| then s
      else
        var ch1 := ch.(already := ch.already + n, wire := ch.wire + data[ch.offset..ch.offset + n]);
        if n < ch.rest then SetChan(s, c, ch1.(offset := ch.offset + n, rest := ch.rest - n))
        else if ch.already + n != ch.suppose then SetChan(s, c, ch1).(mismatched := s.mismatched + {c})
        else SetChan(s, c, ch1.(sent := ch.sent + [ch.msg.value])).(main := WUnarm(c))
  }

  function UnarmStep(s: State): State
    requires WellFormed(s)
  {
    if !s.main.WUnarm? then s
    else
      var c := s.main.c;
      SetChan(s, c, s.chans[c].(events := MaskAfter(s.chans[c].events, {EpollOut}, Remove))).(main := WPost(c))
  }

  function PostDoneStep(s: State): State {
    if !s.main.WPost? then s else s.(sem := s.sem + 1, main := WClear(s.main.c))
  }

  predicate ScanSkipped(p: SenderPc, c: nat) {
    (p.SScan? || p.SArm?) && c in p.skipped
  }

  function ClearStep(s: State): State
    requires WellFormed(s)
  {
    if !s.main.WClear? then s
    else
      var c := s.main.c;
      SetChan(s, c, s.chans[c].(msg := None, throwing := 0))
        .(main := WIdle, raced := if ScanSkipped(s.sender, c) then s.raced + {c} else s.raced)
  }

  function Apply(s: State, ev: Event): State
    requires WellFormed(s)
  {
    match ev
    case Announce(m) => AnnounceStep(s, m)
    case Push(k) => PushStep(s, k)
    case Count(k) => CountStep(s, k)
    case Post => PostStep(s)
    case Wake => WakeStep(s)
    case Check => CheckStep(s)
    case Scan(n) => ScanStep(s, n)
    case Arm => ArmStep(s)
    case Writable(c, n) => WritableStep(s, c, n)
    case Unarm => UnarmStep(s)
    case PostDone => PostDoneStep(s)
    case Clear => ClearStep(s)
  }

  ghost function Run(s: State, evs: seq<Event>): State
    decreases |evs|
  {
    if evs == [] || !WellFormed(s) then s else Run(Apply(s, evs[0]), evs[1..])
  }

  const NEW_CHANNEL := Channel(0, {EpollIn, EpollRdHup}, None, 0, 0, 0, 0, 0, [], [])

  /** `n` connections, just accepted. */
  function Initial(n: nat): State {
    State(seq(n, _ => NEW_CHANNEL), [], [], 0, 0, [], [], 0, SAsleep, WIdle, false, [], {}, {}, {}, {})
  }
}
