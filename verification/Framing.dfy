/** The receive side of net/socket_request.cxx: a four-state machine that collects one packet at a time
    from whatever pieces `recv` returns, and the one-shot parser that it agrees with. */
module Framing {
  import opened Common
  import opened Words

  const PKG_HEADER_LEN := 8
  const MSG_HEADER_LEN := 16
  const PKG_MAX_LENGTH := 30000

  /** The length field of a packet header, in network byte order. */
  function PkgLen(header: seq<Byte>): nat
    requires |header| >= 2
  {
    (header[0] as int) * 256 + header[1]
  }

  predicate LegalLength(n: nat) {
    PKG_HEADER_LEN <= n <= PKG_MAX_LENGTH - 1000
  }

  // ---------- The reference: parse a whole stream at once ----------

  datatype Parsed = Parsed(packets: seq<seq<Byte>>, rest: seq<Byte>)

  /** The packets of a stream and the unfinished rest.  A header with an illegal length takes exactly
      its own eight bytes. */
  function Parse(stream: seq<Byte>): Parsed
    decreases |stream|
  {
    if |stream| < PKG_HEADER_LEN then Parsed([], stream)
    else
      var n := PkgLen(stream);
      if !LegalLength(n) then Parse(stream[PKG_HEADER_LEN..])
      else if |stream| < n then Parsed([], stream)
      else
        var later := Parse(stream[n..]);
        Parsed([stream[..n]] + later.packets, later.rest)
  }

  /** A packet of 8 to 29000 bytes whose first two bytes are its length comes out whole ... */
  lemma PacketTaken(packet: seq<Byte>, rest: seq<Byte>)
    requires 8 <= |packet| <= 29000 && packet[0] as int * 256 + packet[1] == |packet|
    ensures Parse(packet + rest) == Parsed([packet] + Parse(rest).packets, Parse(rest).rest)
  {
    assert PkgLen(packet + rest) == |packet|;
    assert (packet + rest)[..|packet|] == packet && (packet + rest)[|packet|..] == rest;
  }

  /** ... a header with another length is skipped, and what follows is read as if it had not been there ... */
  lemma IllegalHeaderSkipped(header: seq<Byte>, rest: seq<Byte>)
    requires |header| == 8
    requires header[0] as int * 256 + header[1] < 8 || header[0] as int * 256 + header[1] > 29000
    ensures Parse(header + rest) == Parse(rest)
  {
    assert PkgLen(header + rest) == header[0] as int * 256 + header[1];
    assert (header + rest)[PKG_HEADER_LEN..] == rest;
  }

  /** ... and the beginning of a packet is kept. */
  lemma BeginningKept(packet: seq<Byte>, n: nat)
    requires 8 <= |packet| <= 29000 && packet[0] as int * 256 + packet[1] == |packet| && n < |packet|
    ensures Parse(packet[..n]) == Parsed([], packet[..n])
  {
    if n >= 8 {
      assert PkgLen(packet[..n]) == |packet|;
    }
  }

  /** Parsing can stop anywhere and resume with the unfinished rest. */
  lemma {:induction false} ParseResumes(s: seq<Byte>, t: seq<Byte>)
    ensures var first := Parse(s); var second := Parse(first.rest + t);
            Parse(s + t) == Parsed(first.packets + second.packets, second.rest)
    decreases |s|
  {
    if |s| >= PKG_HEADER_LEN {
      var n := PkgLen(s);
      assert PkgLen(s + t) == n;
      if !LegalLength(n) {
        assert (s + t)[PKG_HEADER_LEN..] == s[PKG_HEADER_LEN..] + t;
        ParseResumes(s[PKG_HEADER_LEN..], t);
      } else if |s| >= n {
        assert (s + t)[n..] == s[n..] + t && (s + t)[..n] == s[..n];
        ParseResumes(s[n..], t);
      }
    }
  }

  // ---------- The machine on values ----------

  datatype Stat = HeaderInit | HeaderReceiving | BodyInit | BodyReceiving

  /** Between two calls of the handler: the state, the bytes held of the current packet and the value of
      recvlen_already.  After a failed read of a body the buffer is gone. */
  datatype RecvState = Receiving(stat: Stat, held: seq<Byte>, already: nat) | Dropped {

    predicate Valid() {
      Receiving? ==>
        match stat
        case HeaderInit => held == []
        case HeaderReceiving => |held| < PKG_HEADER_LEN
        case BodyInit => |held| == PKG_HEADER_LEN && LegalLength(PkgLen(held)) && |held| < PkgLen(held)
        case BodyReceiving => |held| >= PKG_HEADER_LEN && LegalLength(PkgLen(held)) && |held| < PkgLen(held)
    }

    /** How many bytes the next call asks for. */
    function Wanted(): (n: nat)
      requires Valid() && Receiving?
      ensures n > 0
    {
      if stat == HeaderInit || stat == HeaderReceiving then PKG_HEADER_LEN - |held| else PkgLen(held) - |held|
    }
  }

  const START := Receiving(HeaderInit, [], 0)

  /** What `recv` meets: some bytes, possibly none, of which it takes as many as were asked for; or a
      failure, for which recvproc returns -1. */
  datatype Recv = Offered(bytes: seq<Byte>) | Failed

  datatype Outcome = Outcome(state: RecvState, packets: seq<seq<Byte>>, taken: seq<Byte>)

  /** One call of the handler. */
  function Receive(s: RecvState, r: Recv): (o: Outcome)
    requires s.Valid() && s.Receiving?
    ensures o.state.Valid()
  {
    if r.Failed? then
      Outcome(if s.stat == BodyInit || s.stat == BodyReceiving then Dropped else s, [], [])
    else
      var taken := r.bytes[..Min(|r.bytes|, s.Wanted())];
      var held := s.held + taken;
      var already := s.already + |taken|;
      if |taken| < s.Wanted() then
        var stat := if s.stat == HeaderInit || s.stat == HeaderReceiving then HeaderReceiving else BodyReceiving;
        Outcome(Receiving(stat, held, already), [], taken)
      else if s.stat == BodyInit || s.stat == BodyReceiving then
        Outcome(START, [held], taken)
      else if !LegalLength(PkgLen(held)) then
        Outcome(Receiving(HeaderInit, [], already), [], taken)
      else if PkgLen(held) == PKG_HEADER_LEN then
        Outcome(START, [held], taken)
      else
        Outcome(Receiving(BodyInit, held, already), [], taken)
  }

  /** Any number of calls; a dropped buffer ends the run. */
  function ReceiveAll(s: RecvState, rs: seq<Recv>): (o: Outcome)
    requires s.Valid()
    ensures o.state.Valid()
    decreases |rs|
  {
    if rs == [] || s.Dropped? then Outcome(s, [], [])
    else
      var first := Receive(s, rs[0]);
      var later := ReceiveAll(first.state, rs[1..]);
      Outcome(later.state, first.packets + later.packets, first.taken + later.taken)
  }

  /** The outcome agrees with the parser, for a machine that held these bytes before. */
  ghost predicate Agrees(held: seq<Byte>, o: Outcome) {
    && Parse(held + o.taken).packets == o.packets
    && (o.state.Receiving? ==> Parse(held + o.taken).rest == o.state.held)
  }

  /** One call finds what the parser finds. */
  lemma ReceiveParses(s: RecvState, r: Recv)
    requires s.Valid() && s.Receiving?
    ensures Agrees(s.held, Receive(s, r))
  {
    var o := Receive(s, r);
    var held := s.held + o.taken;
    assert s.stat == BodyInit || s.stat == BodyReceiving ==> PkgLen(held) == PkgLen(s.held);
    if |held| >= PKG_HEADER_LEN {
      assert held[|held|..] == [] && held[..|held|] == held;
      assert Parse([]) == Parsed([], []);
    }
  }

  lemma JoinParses(held: seq<Byte>, t1: seq<Byte>, t2: seq<Byte>)
    ensures var first := Parse(held + t1); var second := Parse(first.rest + t2);
            Parse(held + (t1 + t2)) == Parsed(first.packets + second.packets, second.rest)
  {
    ParseResumes(held + t1, t2);
    assert held + (t1 + t2) == (held + t1) + t2;
  }

  lemma JoinAgrees(held: seq<Byte>, first: Outcome, later: Outcome)
    requires Agrees(held, first) && first.state.Receiving?
    requires Agrees(first.state.held, later)
    ensures Agrees(held, Outcome(later.state, first.packets + later.packets, first.taken + later.taken))
  {
    JoinParses(held, first.taken, later.taken);
  }

  lemma {:induction false} ReceiveAllParses(s: RecvState, rs: seq<Recv>)
    requires s.Valid() && s.Receiving?
    ensures Agrees(s.held, ReceiveAll(s, rs))
    decreases |rs|
  {
    if rs == [] {
      assert Agrees(s.held, Outcome(s, [], [])) by {
        NothingHeldParses(s);
      }
    } else {
      var first := Receive(s, rs[0]);
      ReceiveParses(s, rs[0]);
      if first.state.Receiving? {
        ReceiveAllParses(first.state, rs[1..]);
        JoinAgrees(s.held, first, ReceiveAll(first.state, rs[1..]));
      } else {
        assert first.packets + [] == first.packets && first.taken + [] == first.taken;
      }
    }
  }

  lemma NothingHeldParses(s: RecvState)
    requires s.Valid() && s.Receiving?
    ensures Parse(s.held + []) == Parsed([], s.held)
  {
    assert s.held + [] == s.held;
  }

  /** Chunking independence: whatever the reads returned, the packets handed over are those that the
      parser finds in the bytes taken, and the machine holds exactly the parser's rest. */
  lemma ChunkingIndependence(rs: seq<Recv>)
    ensures var o := ReceiveAll(START, rs);
            && o.packets == Parse(o.taken).packets
            && (o.state.Receiving? ==> o.state.held == Parse(o.taken).rest)
  {
    ReceiveAllParses(START, rs);
    var o := ReceiveAll(START, rs);
    assert [] + o.taken == o.taken;
  }

  /** Every read that meets bytes takes some: the machine never waits for nothing. */
  lemma ReadsProgress(s: RecvState, r: Recv)
    requires s.Valid() && s.Receiving? && r.Offered? && r.bytes != []
    ensures Receive(s, r).taken != [] && Receive(s, r).taken <= r.bytes
    ensures Receive(s, r).state.Receiving?
  {
    assert s.Wanted() > 0;
  }

  /** The event loop over one stream: each call meets one more byte than the next size says, or all that
      is left. */
  function Serve(s: RecvState, stream: seq<Byte>, sizes: seq<nat>): (o: Outcome)
    requires s.Valid() && s.Receiving?
    decreases |sizes|
  {
    if stream == [] || sizes == [] then Outcome(s, [], [])
    else
      var offered := stream[..Min(|stream|, sizes[0] + 1)];
      ReadsProgress(s, Offered(offered));
      var first := Receive(s, Offered(offered));
      var later := Serve(first.state, stream[|first.taken|..], sizes[1..]);
      Outcome(later.state, first.packets + later.packets, first.taken + later.taken)
  }

  /** However the stream is cut, enough calls take it to its end and hand over all its packets. */
  lemma {:induction false} WholeStreamServed(s: RecvState, stream: seq<Byte>, sizes: seq<nat>)
    requires s.Valid() && s.Receiving? && |sizes| >= |stream|
    ensures Serve(s, stream, sizes).taken == stream
    ensures Serve(s, stream, sizes).packets == Parse(s.held + stream).packets
    ensures Serve(s, stream, sizes).state.Receiving?
    ensures Serve(s, stream, sizes).state.held == Parse(s.held + stream).rest
    decreases |sizes|
  {
    if stream == [] {
      NothingHeldParses(s);
    } else {
      var offered := stream[..Min(|stream|, sizes[0] + 1)];
      ReadsProgress(s, Offered(offered));
      ReceiveParses(s, Offered(offered));
      var first := Receive(s, Offered(offered));
      var rest := stream[|first.taken|..];
      WholeStreamServed(first.state, rest, sizes[1..]);
      assert first.taken + rest == stream;
      JoinAgrees(s.held, first, Serve(first.state, rest, sizes[1..]));
    }
  }

  /** Before the end of a stream, the packets handed over are the first ones of the whole stream. */
  lemma EarlyPacketsArePrefix(rs: seq<Recv>, stream: seq<Byte>)
    requires ReceiveAll(START, rs).taken <= stream
    ensures ReceiveAll(START, rs).packets <= Parse(stream).packets
  {
    var o := ReceiveAll(START, rs);
    ChunkingIndependence(rs);
    ParseResumes(o.taken, stream[|o.taken|..]);
    assert o.taken + stream[|o.taken|..] == stream;
  }
}
