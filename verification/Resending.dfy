/** What follows when the length test of the writable handler fails: EPOLLOUT stays on, and the rest of the
    packet is sent again and again. */
module Resending {
  import opened Common
  import opened Words
  import opened SendPath
  import opened SendSafety
  import opened Delivery
  import SendKeeps
  import SendScan

  // ---------- Until the surplus adds up ----------

  /** Connection `c` has a packet that only the writable handler can finish. */
  ghost predicate Stuck(s: State, c: nat, data: seq<Byte>) {
    && c < |s.chans| && s.chans[c].msg.Some? && s.chans[c].msg.value < |s.log|
    && s.log[s.chans[c].msg.value].data == data && EpollOut in s.chans[c].events && s.chans[c].throwing > 0
    && !Completing(s.main, c) && !Arming(s.sender, c)
    && s.chans[c].rest > 0 && s.chans[c].offset + s.chans[c].rest == |data|
  }

  lemma RestSticks(s: State, c: nat)
    requires WellFormed(s) && c < |s.chans| && s.main == WIdle && EpollOut in s.chans[c].events
    requires HalfSent(c, s.chans[c], s.log, s.sender)
    ensures var t, data := WritableStep(s, c, s.chans[c].rest), s.log[s.chans[c].msg.value].data;
      t.main == WIdle ==> Stuck(t, c, data) && t.chans[c].wire == Whole(s.log, s.chans[c].sent) + data
  {
    var ch := s.chans[c];
    var data := s.log[ch.msg.value].data;
    SendKeeps.Extended(Whole(s.log, ch.sent), data, ch.offset, |data|);
    assert data[..|data|] == data;
  }

  /** When the test fails for the first time, the wire has the whole packet, and the packet is stuck. */
  lemma MismatchSticks(n: nat, s: State, c: nat)
    requires Reachable(n, s) && s.main == WIdle && c < |s.chans| && c !in s.mismatched
    requires EpollOut in s.chans[c].events
    ensures Inv(s) && s.chans[c].msg.Some?
    ensures var t, data := WritableStep(s, c, s.chans[c].rest), s.log[s.chans[c].msg.value].data;
      |data| != LastLength(s.announced, c) ==>
        Stuck(t, c, data) && t.chans[c].wire == Whole(s.log, s.chans[c].sent) + data
  {
    ReachableInv(n, s);
    assert ChanOk(c, s.chans[c], s.log, s.sender, s.main);
    RestSticks(s, c);
  }

  /** The handler sends the whole rest, and sendlen_already comes to what the test asks for. */
  ghost predicate AddsUp(s: State, ev: Event, c: nat)
    requires c < |s.chans|
  {
    && ev == Writable(c, s.chans[c].rest) && s.main == WIdle
    && s.chans[c].already + s.chans[c].rest == s.chans[c].suppose
  }

  /** What an event adds to the wire of connection `c`: a piece of the packet, from the same place as before
      unless a part of the rest was sent alone. */
  function Piece(s: State, ev: Event, c: nat, data: seq<Byte>): seq<Byte>
    requires c < |s.chans| && s.chans[c].offset + s.chans[c].rest == |data|
  {
    if ev.Writable? && ev.c == c && s.main == WIdle && ev.n <= s.chans[c].rest then
      data[s.chans[c].offset..s.chans[c].offset + ev.n]
    else []
  }

  /** The packet stays stuck, and `piece` is added to the wire. */
  ghost predicate StaysStuck(s: State, t: State, c: nat, data: seq<Byte>, piece: seq<Byte>)
    requires c < |s.chans|
  {
    && Stuck(t, c, data) && t.chans[c].msg == s.chans[c].msg && t.chans[c].sent == s.chans[c].sent
    && t.chans[c].wire == s.chans[c].wire + piece && t.chans[c].already == s.chans[c].already + |piece|
    && t.chans[c].offset >= s.chans[c].offset
  }

  lemma SameChannel(s: State, t: State, c: nat, data: seq<Byte>)
    requires Stuck(s, c, data) && |t.chans| == |s.chans| && s.log <= t.log
    requires t.chans[c] == s.chans[c].(suppose := t.chans[c].suppose, queued := t.chans[c].queued)
    requires !Completing(t.main, c) && !Arming(t.sender, c)
    ensures StaysStuck(s, t, c, data, [])
  {
    assert s.chans[c].wire + [] == s.chans[c].wire;
  }

  lemma StuckAtWorker(s: State, ev: Event, c: nat, data: seq<Byte>)
    requires WellFormed(s) && Stuck(s, c, data) && (ev.Announce? || ev.Push? || ev.Count? || ev.Post?)
    ensures StaysStuck(s, Apply(s, ev), c, data, [])
  {
    if ev.Count? && ev.k < |s.uncounted| {
      assert s.uncounted[ev.k] in s.uncounted;
    }
    SameChannel(s, Apply(s, ev), c, data);
  }

  lemma StuckAtScan(s: State, n: nat, c: nat, data: seq<Byte>)
    requires WellFormed(s) && Stuck(s, c, data)
    ensures StaysStuck(s, ScanStep(s, n), c, data, [])
  {
    if ScanStep(s, n).queue != s.queue {
      SendScan.TakeFacts(s, n);
    }
    SameChannel(s, ScanStep(s, n), c, data);
  }

  lemma StuckAtSender(s: State, ev: Event, c: nat, data: seq<Byte>)
    requires WellFormed(s) && Stuck(s, c, data) && (ev.Wake? || ev.Check? || ev.Arm?)
    ensures StaysStuck(s, Apply(s, ev), c, data, [])
  {
    SameChannel(s, Apply(s, ev), c, data);
  }

  lemma StuckAtOthers(s: State, ev: Event, c: nat, data: seq<Byte>)
    requires WellFormed(s) && Stuck(s, c, data)
    requires (ev.Writable? && ev.c != c) || ev.Unarm? || ev.PostDone? || ev.Clear?
    ensures StaysStuck(s, Apply(s, ev), c, data, [])
  {
    SameChannel(s, Apply(s, ev), c, data);
  }

  lemma StuckAtWritable(s: State, c: nat, data: seq<Byte>, n: nat)
    requires WellFormed(s) && Stuck(s, c, data) && !AddsUp(s, Writable(c, n), c)
    ensures StaysStuck(s, WritableStep(s, c, n), c, data, Piece(s, Writable(c, n), c, data))
  {
    assert s.chans[c].wire + [] == s.chans[c].wire;
  }

  /** Whatever any thread does, the packet stays stuck, and only pieces of it from the cursor on are added to the
      wire, until an event adds up; then the handler takes it for sent. */
  lemma StuckUntilItAddsUp(s: State, ev: Event, c: nat, data: seq<Byte>)
    requires WellFormed(s) && Stuck(s, c, data)
    ensures if AddsUp(s, ev, c) then
              Apply(s, ev).main == WUnarm(c)
            else
              StaysStuck(s, Apply(s, ev), c, data, Piece(s, ev, c, data))
  {
    match ev
    case Announce(_) => StuckAtWorker(s, ev, c, data);
    case Push(_) => StuckAtWorker(s, ev, c, data);
    case Count(_) => StuckAtWorker(s, ev, c, data);
    case Post => StuckAtWorker(s, ev, c, data);
    case Wake => StuckAtSender(s, ev, c, data);
    case Check => StuckAtSender(s, ev, c, data);
    case Arm => StuckAtSender(s, ev, c, data);
    case Scan(n) => StuckAtScan(s, n, c, data);
    case Writable(d, n) =>
      if d != c {
        StuckAtOthers(s, ev, c, data);
      } else if !AddsUp(s, ev, c) {
        StuckAtWritable(s, c, data, n);
      }
    case Unarm => StuckAtOthers(s, ev, c, data);
    case PostDone => StuckAtOthers(s, ev, c, data);
    case Clear => StuckAtOthers(s, ev, c, data);
  }

  /** No event of the run adds up. */
  ghost predicate NoneAddsUp(s: State, evs: seq<Event>, c: nat)
    decreases |evs|
  {
    evs == [] ||
    (WellFormed(s) && c < |s.chans| && !AddsUp(s, evs[0], c) && NoneAddsUp(Apply(s, evs[0]), evs[1..], c))
  }

  /** The pieces that a run adds to the wire. */
  ghost function Pieces(s: State, evs: seq<Event>, c: nat, data: seq<Byte>): seq<Byte>
    decreases |evs|
  {
    if evs == [] || !WellFormed(s) || !Stuck(s, c, data) then []
    else Piece(s, evs[0], c, data) + Pieces(Apply(s, evs[0]), evs[1..], c, data)
  }

  lemma StuckTwice(s: State, t: State, r: State, c: nat, data: seq<Byte>, piece: seq<Byte>, later: seq<Byte>)
    requires c < |s.chans| && StaysStuck(s, t, c, data, piece) && StaysStuck(t, r, c, data, later)
    ensures StaysStuck(s, r, c, data, piece + later)
  {
    assert s.chans[c].wire + piece + later == s.chans[c].wire + (piece + later);
  }

  /** In every run in which no event adds up. */
  lemma {:induction false} StuckInEveryRun(s: State, c: nat, data: seq<Byte>, evs: seq<Event>)
    requires WellFormed(s) && Stuck(s, c, data) && NoneAddsUp(s, evs, c)
    ensures StaysStuck(s, Run(s, evs), c, data, Pieces(s, evs, c, data))
    decreases |evs|
  {
    if evs == [] {
      assert s.chans[c].wire + [] == s.chans[c].wire;
    } else {
      var t, piece := Apply(s, evs[0]), Piece(s, evs[0], c, data);
      StuckUntilItAddsUp(s, evs[0], c, data);
      SendScan.EventKeepsWell(s, evs[0]);
      StuckInEveryRun(t, c, data, evs[1..]);
      StuckTwice(s, t, Run(t, evs[1..]), c, data, piece, Pieces(t, evs[1..], c, data));
    }
  }

  // ---------- The whole rest each time ----------

  /** The bytes `chunk`, k times. */
  function Copies(chunk: seq<Byte>, k: nat): seq<Byte> {
    if k == 0 then [] else chunk + Copies(chunk, k - 1)
  }

  function Repeated(ev: Event, k: nat): seq<Event> {
    if k == 0 then [] else [ev] + Repeated(ev, k - 1)
  }

  /** sendlen_already when the rest has been sent k times. */
  function AlreadyAfter(ch: Channel, k: nat): nat {
    ch.already + k * ch.rest
  }

  /** The channel when the rest has been sent k times and the test has failed each time. */
  function SentAgain(ch: Channel, data: seq<Byte>, k: nat): Channel
    requires ch.offset <= |data|
  {
    ch.(already := AlreadyAfter(ch, k), wire := ch.wire + Copies(data[ch.offset..], k))
  }

  /** In none of the next k times does sendlen_already come to what the test asks for. */
  predicate NeverComes(ch: Channel, k: nat, wanted: nat) {
    forall j: nat | 1 <= j <= k :: AlreadyAfter(ch, j) != wanted
  }

  /** Connection `c` has a packet of which EPOLLOUT asks for the rest. */
  ghost predicate RestWaits(s: State, c: nat, data: seq<Byte>) {
    && WellFormed(s) && s.main == WIdle && c < |s.chans| && EpollOut in s.chans[c].events
    && s.chans[c].msg.Some? && s.log[s.chans[c].msg.value].data == data
    && s.chans[c].offset + s.chans[c].rest == |data|
  }

  lemma RestSentOnce(s: State, c: nat, data: seq<Byte>)
    requires RestWaits(s, c, data) && s.chans[c].already + s.chans[c].rest != s.chans[c].suppose
    ensures var t := WritableStep(s, c, s.chans[c].rest);
      RestWaits(t, c, data) && t.chans[c] == SentAgain(s.chans[c], data, 1)
  {
    var ch := s.chans[c];
    var chunk := data[ch.offset..];
    assert data[ch.offset..ch.offset + ch.rest] == chunk;
    assert Copies(chunk, 1) == chunk + Copies(chunk, 0) == chunk;
  }

  lemma AgainAndAgain(ch: Channel, data: seq<Byte>, k: nat)
    requires ch.offset <= |data|
    ensures SentAgain(SentAgain(ch, data, 1), data, k) == SentAgain(ch, data, k + 1)
    ensures AlreadyAfter(SentAgain(ch, data, 1), k) == AlreadyAfter(ch, k + 1)
  {
    var chunk := data[ch.offset..];
    assert Copies(chunk, 1) == chunk + Copies(chunk, 0) == chunk;
    assert ch.wire + chunk + Copies(chunk, k) == ch.wire + (chunk + Copies(chunk, k));
  }

  lemma NeverComesNext(ch: Channel, data: seq<Byte>, k: nat, wanted: nat)
    requires ch.offset <= |data| && NeverComes(ch, k + 1, wanted)
    ensures ch.already + ch.rest != wanted && NeverComes(SentAgain(ch, data, 1), k, wanted)
  {
    assert AlreadyAfter(ch, 1) != wanted;
    forall j: nat | 1 <= j <= k ensures AlreadyAfter(SentAgain(ch, data, 1), j) != wanted {
      AgainAndAgain(ch, data, j);
      assert AlreadyAfter(ch, j + 1) != wanted;
    }
  }

  lemma RunRepeated(s: State, ev: Event, k: nat)
    requires WellFormed(s)
    ensures Run(s, Repeated(ev, k + 1)) == Run(Apply(s, ev), Repeated(ev, k))
  {
    assert Repeated(ev, k + 1)[1..] == Repeated(ev, k);
  }

  lemma {:induction false} RestSentAgain(s: State, c: nat, data: seq<Byte>, k: nat)
    requires RestWaits(s, c, data) && NeverComes(s.chans[c], k, s.chans[c].suppose)
    ensures var t := Run(s, Repeated(Writable(c, s.chans[c].rest), k));
      RestWaits(t, c, data) && t.chans[c] == SentAgain(s.chans[c], data, k)
    decreases k
  {
    var ch, ev := s.chans[c], Writable(c, s.chans[c].rest);
    if k == 0 {
      assert ch.wire + [] == ch.wire;
    } else {
      var u := WritableStep(s, c, ch.rest);
      NeverComesNext(ch, data, k - 1, ch.suppose);
      RestSentOnce(s, c, data);
      RestSentAgain(u, c, data, k - 1);
      AgainAndAgain(ch, data, k - 1);
      RunRepeated(s, ev, k - 1);
    }
  }

  lemma RestEnds(s: State, c: nat, data: seq<Byte>)
    requires RestWaits(s, c, data)
    ensures Apply(s, Writable(c, s.chans[c].rest)).main == WUnarm(c)
       <==> s.chans[c].already + s.chans[c].rest == s.chans[c].suppose
  {
  }

  /** After the test of the writable handler has failed, EPOLLOUT stays on and the rest stays the same.  Each
      further event sends the rest once more, until the surplus adds up to the length that was announced
      last; only then does the handler take the packet for sent. */
  lemma RestIsSentAgain(n: nat, s: State, c: nat, k: nat)
    requires Reachable(n, s) && s.main == WIdle && c < |s.chans| && c !in s.mismatched
    requires EpollOut in s.chans[c].events && NeverComes(s.chans[c], k, LastLength(s.announced, c))
    ensures Inv(s) && s.chans[c].msg.Some?
    ensures var ch, ev := s.chans[c], Writable(c, s.chans[c].rest);
      var data, t := s.log[ch.msg.value].data, Run(s, Repeated(ev, k));
      && RestWaits(t, c, data) && t.chans[c] == SentAgain(ch, data, k)
      && (Apply(t, ev).main == WUnarm(c) <==> AlreadyAfter(ch, k + 1) == LastLength(s.announced, c))
  {
    ReachableInv(n, s);
    var ch := s.chans[c];
    assert ChanOk(c, ch, s.log, s.sender, s.main);
    var data := s.log[ch.msg.value].data;
    RestSentAgain(s, c, data, k);
    RestEnds(Run(s, Repeated(Writable(c, ch.rest), k)), c, data);
    assert AlreadyAfter(ch, k) + ch.rest == AlreadyAfter(ch, k + 1);
  }
}
