/** What holds in every run of SendPath: packets reach the wire whole and once, in order exactly
    if no scan starts a message of a connection that it has passed over, and none is forgotten unless the
    last scan passed over its connection between sem_post and the clearing of its count and left no later
    message of it half sent. */
module SendSafety {
  import opened Common
  import opened Words
  import opened SendPath

  // ---------- Invariant ----------

  /** The packets `ids`, one after the other. */
  function Whole(log: seq<Msg>, ids: seq<nat>): seq<Byte>
    requires forall k | 0 <= k < |ids| :: ids[k] < |log|
  {
    if ids == [] then [] else Whole(log, ids[..|ids| - 1]) + log[ids[|ids| - 1]].data
  }

  /** The main thread has completed the packet of `c` and not cleared it. */
  predicate Completing(m: MainPc, c: nat) {
    !m.WIdle? && m.c == c
  }

  predicate Arming(p: SenderPc, c: nat) {
    p.SArm? && p.c == c
  }

  predicate Sent(c: nat, ch: Channel, log: seq<Msg>) {
    forall k | 0 <= k < |ch.sent| :: ch.sent[k] < |log| && log[ch.sent[k]].conn == c
  }

  /** Nobody owns the connection. */
  predicate Unowned(c: nat, ch: Channel, log: seq<Msg>, p: SenderPc, m: MainPc) {
    && ch.msg.None? && EpollOut !in ch.events && !Completing(m, c) && !Arming(p, c)
    && Sent(c, ch, log) && ch.wire == Whole(log, ch.sent)
  }

  /** A packet is half sent: the main thread owns it, or will when EPOLLOUT has been added. */
  predicate HalfSent(c: nat, ch: Channel, log: seq<Msg>, p: SenderPc) {
    && ch.throwing == 1 && ch.msg.Some? && ch.msg.value < |log| && log[ch.msg.value].conn == c
    && (EpollOut in ch.events <==> !Arming(p, c))
    && ch.rest > 0 && ch.offset + ch.rest == |log[ch.msg.value].data| && ch.already == ch.offset
    && Sent(c, ch, log) && ch.wire == Whole(log, ch.sent) + log[ch.msg.value].data[..ch.offset]
  }

  /** The main thread has sent the last byte of the packet. */
  predicate Completed(c: nat, ch: Channel, log: seq<Msg>, p: SenderPc, m: MainPc) {
    && ch.throwing == 1 && ch.sent != [] && ch.msg == Some(ch.sent[|ch.sent| - 1])
    && (EpollOut in ch.events <==> m.WUnarm?) && !Arming(p, c)
    && Sent(c, ch, log) && ch.wire == Whole(log, ch.sent)
  }

  predicate ChanOk(c: nat, ch: Channel, log: seq<Msg>, p: SenderPc, m: MainPc) {
    if ch.throwing == 0 then Unowned(c, ch, log, p, m)
    else if Completing(m, c) then Completed(c, ch, log, p, m)
    else HalfSent(c, ch, log, p)
  }

  ghost predicate ChansOk(s: State) {
    forall c: nat | c < |s.chans| && c !in s.mismatched :: ChanOk(c, s.chans[c], s.log, s.sender, s.main)
  }

  // ---------- Messages ----------

  predicate Ascending(q: seq<nat>) {
    forall j, k | 0 <= j < k < |q| :: q[j] < q[k]
  }

  predicate Distinct(q: seq<nat>) {
    forall j, k | 0 <= j < k < |q| :: q[j] != q[k]
  }

  /** The message that the connection is in the middle of. */
  predicate Current(ch: Channel, id: nat, c: nat, m: MainPc) {
    ch.msg == Some(id) && !Completing(m, c)
  }

  /** Message `id` of connection `c` is in the list, or half sent, or sent: in exactly one of the three. */
  predicate Placed(id: nat, c: nat, ch: Channel, queue: seq<nat>, m: MainPc) {
    && (id in queue || id in ch.sent || Current(ch, id, c, m))
    && (id in queue ==> id !in ch.sent && !Current(ch, id, c, m))
    && (id in ch.sent ==> !Current(ch, id, c, m))
  }

  ghost predicate MessagesOk(s: State) {
    && Ascending(s.queue)
    && (forall id: nat | id < |s.log| && s.log[id].conn !in s.mismatched && s.log[id].conn < |s.chans| ::
          Placed(id, s.log[id].conn, s.chans[s.log[id].conn], s.queue, s.main))
    && (forall c: nat | c < |s.chans| && c !in s.mismatched :: Distinct(s.chans[c].sent))
  }

  // ---------- Order ----------

  /** The messages of connection `c` in the list, from its front. */
  function InList(queue: seq<nat>, log: seq<Msg>, c: nat): seq<nat> {
    if queue == [] then []
    else (if queue[0] < |log| && log[queue[0]].conn == c then [queue[0]] else []) + InList(queue[1..], log, c)
  }

  function InWork(c: nat, ch: Channel, m: MainPc): seq<nat> {
    if ch.msg.Some? && !Completing(m, c) then [ch.msg.value] else []
  }

  /** All messages of connection `c`: those sent, in the order of sending, the one half sent, and those in
      the list. */
  function Line(c: nat, ch: Channel, log: seq<Msg>, queue: seq<nat>, m: MainPc): seq<nat> {
    ch.sent + InWork(c, ch, m) + InList(queue, log, c)
  }

  /** They stand in the order in which they were put into the list. */
  predicate InOrder(s: State, c: nat) {
    c < |s.chans| && Ascending(Line(c, s.chans[c], s.log, s.queue, s.main))
  }

  /** The scan starts a message of `c`, and has passed over another one of `c` before. */
  ghost predicate Overtakes(s: State, ev: Event, c: nat)
    requires WellFormed(s)
  {
    && ev.Scan? && s.sender.SScan? && s.sender.i < |s.queue| && c in s.sender.skipped && c < |s.chans|
    && s.queue[s.sender.i] < |s.log|
    && var m := s.log[s.queue[s.sender.i]]; m.conn == c && s.chans[c].throwing == 0 && ev.n <= |m.data|
  }

  ghost predicate OrderOk(s: State) {
    && (forall c: nat | c < |s.chans| && c !in s.mismatched :: InOrder(s, c) <==> c !in s.overtaken)
    && s.overtaken <= s.raced
  }

  // ---------- The scan ----------

  predicate Scanning(p: SenderPc) {
    p.SScan? || p.SArm?
  }

  /** Connection `c` has a message before position i of the list. */
  predicate Passed(log: seq<Msg>, queue: seq<nat>, i: nat, c: nat) {
    exists j :: 0 <= j < i && j < |queue| && queue[j] < |log| && log[queue[j]].conn == c
  }

  /** The scan has m_sendmutex, and has passed over exactly the connections with a message before position i,
      each while it had a half-sent packet. */
  ghost predicate ScanOk(s: State) {
    Scanning(s.sender) ==>
      && !s.leaked && s.sender.i <= |s.queue|
      && (forall c: nat :: c in s.sender.skipped <==> Passed(s.log, s.queue, s.sender.i, c))
      && (forall c | c in s.sender.skipped && c < |s.chans| && s.chans[c].throwing == 0 :: c in s.raced)
  }

  // ---------- Lengths ----------

  /** The length of what was announced last for connection `c`. */
  function LastLength(announced: seq<Msg>, c: nat): nat {
    if announced == [] then 0
    else
      var m := announced[|announced| - 1];
      if m.conn == c then |m.data| else LastLength(announced[..|announced| - 1], c)
  }

  /** All messages of a connection have the same length. */
  ghost predicate Uniform(announced: seq<Msg>) {
    forall m1, m2 | m1 in announced && m2 in announced && m1.conn == m2.conn :: |m1.data| == |m2.data|
  }

  ghost predicate LengthsOk(s: State) {
    && (forall m | m in s.log || m in s.jobs :: m in s.announced && m.data != [])
    && (forall c: nat | c < |s.chans| :: s.chans[c].suppose == LastLength(s.announced, c))
    && (Uniform(s.announced) ==> s.mismatched == {})
    && (s.sender.SDead? ==> s.mismatched != {})
  }

  // ---------- Wake-ups ----------

  /** Something will still make the sender look at the list. */
  predicate WakePending(s: State) {
    s.sem > 0 || s.unposted > 0 || s.uncounted != [] || s.sender.SAwake?
  }

  /** The message at position k is not forgotten: the sender is about to look at it, or its connection has
      a half-sent packet whose completion will wake the sender. */
  predicate Remembered(s: State, k: nat)
    requires k < |s.queue|
  {
    || WakePending(s)
    || (Scanning(s.sender) && s.sender.i <= k)
    || s.sender.SDead?
    || (s.queue[k] < |s.log| && s.log[s.queue[k]].conn < |s.chans| &&
        var c := s.log[s.queue[k]].conn;
        c in s.missed || (s.chans[c].throwing > 0 && s.main != WClear(c)))
  }

  ghost predicate WakeOk(s: State) {
    && s.count == |s.queue| - |s.uncounted|
    && (forall k: nat | k < |s.queue| :: Remembered(s, k))
    && (forall c: nat | c in s.missed && c < |s.chans| :: s.main == WClear(c) || s.chans[c].throwing == 0)
  }

  // ---------- Counters and masks ----------

  /** isend_count is the number of the connection's messages in the list that their workers have counted. */
  ghost predicate QueuedOk(s: State) {
    forall c: nat | c < |s.chans| ::
      s.chans[c].queued == |InList(s.queue, s.log, c)| - multiset(s.uncounted)[c]
  }

  /** EPOLLOUT comes and goes, and nothing else. */
  ghost predicate MasksOk(s: State) {
    forall c: nat | c < |s.chans| :: s.chans[c].events - {EpollOut} == {EpollIn, EpollRdHup}
  }

  ghost predicate Inv(s: State) {
    WellFormed(s) && ChansOk(s) && MessagesOk(s) && OrderOk(s) && ScanOk(s) && LengthsOk(s) && WakeOk(s)
    && QueuedOk(s) && MasksOk(s)
  }
}
