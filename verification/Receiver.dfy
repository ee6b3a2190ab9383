/** The receive handlers of net/socket_request.cxx on buffers: a cursor that moves through the header
    buffer and then through the message buffer. */
module Receiver {
  import opened Common
  import opened Words
  import opened Framing

  /** What is handed to the worker pool for one packet: the message header, the packet, a final zero. */
  function Message(messageHeader: seq<Byte>, packet: seq<Byte>): seq<Byte> {
    messageHeader + packet + [0]
  }

  function Messages(messageHeader: seq<Byte>, packets: seq<seq<Byte>>): (ms: seq<seq<Byte>>)
    ensures |ms| == |packets|
  {
    seq(|packets|, k requires 0 <= k < |packets| => Message(messageHeader, packets[k]))
  }

  lemma WholeMessage(buffer: seq<Byte>, messageHeader: seq<Byte>, packet: seq<Byte>)
    requires |messageHeader| == MSG_HEADER_LEN && |buffer| == MSG_HEADER_LEN + |packet| + 1
    requires buffer[..MSG_HEADER_LEN] == messageHeader
    requires buffer[MSG_HEADER_LEN..|buffer| - 1] == packet
    requires buffer[|buffer| - 1] == 0
    ensures buffer == Message(messageHeader, packet)
  {
    assert buffer == buffer[..MSG_HEADER_LEN] + buffer[MSG_HEADER_LEN..|buffer| - 1] + [buffer[|buffer| - 1]];
  }

  /** A buffer before and after `n` bytes were written at position `at`. */
  ghost predicate Written(before: seq<Byte>, now: seq<Byte>, at: nat, bytes: seq<Byte>, n: nat) {
    && |now| == |before| && n <= |bytes| && at + n <= |before|
    && forall k | 0 <= k < |now| :: now[k] == if at <= k < at + n then bytes[k - at] else before[k]
  }

  /** The new bytes follow what was there. */
  lemma WrittenFollows(before: seq<Byte>, now: seq<Byte>, at: nat, bytes: seq<Byte>, n: nat, start: nat)
    requires Written(before, now, at, bytes, n) && start <= at
    ensures now[start..at + n] == before[start..at] + bytes[..n]
  {
  }

  lemma WrittenKeeps(before: seq<Byte>, now: seq<Byte>, at: nat, bytes: seq<Byte>, n: nat, start: nat, end: nat)
    requires Written(before, now, at, bytes, n) && start <= end <= at
    ensures now[start..end] == before[start..end]
  {
  }

  /** The packet header is at the front of what is held of a message. */
  lemma HeaderIsHeld(buffer: seq<Byte>, cursor: nat)
    requires MSG_HEADER_LEN + PKG_HEADER_LEN <= cursor <= |buffer|
    ensures buffer[MSG_HEADER_LEN..cursor][..PKG_HEADER_LEN] == buffer[MSG_HEADER_LEN..MSG_HEADER_LEN + PKG_HEADER_LEN]
  {
  }

  /** A read of n bytes into a body. */
  lemma ReceiveInBody(s: RecvState, r: Recv, n: nat)
    requires s.Valid() && s.Receiving? && (s.stat == BodyInit || s.stat == BodyReceiving)
    requires r.Offered? && n == Min(|r.bytes|, s.Wanted())
    ensures var o, held := Receive(s, r), s.held + r.bytes[..n];
      if n < s.Wanted() then o.state == Receiving(BodyReceiving, held, s.already + n) && o.packets == []
      else o.state == START && o.packets == [held]
  {
  }

  class Connection {
    /** The sixteen bytes of (connection, sequence number) that go in front of every packet. */
    const messageHeader: seq<Byte>

    var curstat: Stat
    var p_headerinfo: array?<Byte>
    var recv_str: array?<Byte>
    var recvbuf: array?<Byte>      // p_recvbuf: the buffer,
    var cursor: nat                // and the place in it
    var recvlen: nat
    var recvlen_already: nat
    var msgqueue: seq<seq<Byte>>   // the messages given to InMsgRecv

    /** The cursor invariant: what is still wanted ends exactly at the end of the current buffer's use,
        every buffer has the size of its contents, and something is always wanted. */
    ghost predicate Valid()
      reads this, p_headerinfo, recv_str
    {
      && |messageHeader| == MSG_HEADER_LEN
      && (curstat != HeaderInit ==> p_headerinfo != null && p_headerinfo.Length == PKG_HEADER_LEN && recvlen > 0)
      && (curstat == HeaderReceiving ==> recvbuf == p_headerinfo && cursor + recvlen == PKG_HEADER_LEN)
      && (InBody() && recv_str != null ==>
            var n := PkgLen(p_headerinfo[..]);
            && LegalLength(n)
            && recv_str != p_headerinfo
            && recvbuf == recv_str
            && recv_str.Length == MSG_HEADER_LEN + n + 1
            && cursor + recvlen == MSG_HEADER_LEN + n
            && MSG_HEADER_LEN + PKG_HEADER_LEN <= cursor
            && (curstat == BodyInit ==> cursor == MSG_HEADER_LEN + PKG_HEADER_LEN)
            && recv_str[..MSG_HEADER_LEN] == messageHeader
            && recv_str[MSG_HEADER_LEN..MSG_HEADER_LEN + PKG_HEADER_LEN] == p_headerinfo[..]
            && recv_str[MSG_HEADER_LEN + n] == 0)
    }

    predicate InBody()
      reads this
    {
      curstat == BodyInit || curstat == BodyReceiving
    }

    ghost function State(): (s: RecvState)
      requires Valid()
      reads this, p_headerinfo, recv_str
      ensures s.Valid()
    {
      if InBody() && recv_str == null then Dropped
      else
        var held := match curstat
          case HeaderInit => []
          case HeaderReceiving => p_headerinfo[..cursor]
          case _ => recv_str[MSG_HEADER_LEN..cursor];
        assert InBody() ==> held[..PKG_HEADER_LEN] == p_headerinfo[..] by {
          if InBody() {
            HeaderIsHeld(recv_str[..], cursor);
          }
        }
        Receiving(curstat, held, recvlen_already)
    }

    constructor (messageHeader: seq<Byte>)
      requires |messageHeader| == MSG_HEADER_LEN
      ensures Valid() && State() == START && msgqueue == [] && this.messageHeader == messageHeader
      ensures p_headerinfo == recv_str == null
    {
      this.messageHeader := messageHeader;
      msgqueue := [];
      p_headerinfo, recv_str, recvbuf, cursor := null, null, null, 0;
      recvlen, curstat, recvlen_already := PKG_HEADER_LEN, HeaderInit, 0;
    }

    method PutToStateMach()
      modifies this
      ensures p_headerinfo == recv_str == recvbuf == null
      ensures recvlen == PKG_HEADER_LEN && curstat == HeaderInit && recvlen_already == 0
      ensures msgqueue == old(msgqueue)
    {
      p_headerinfo, recvbuf, cursor := null, null, 0;
      recvlen := PKG_HEADER_LEN;
      recv_str := null;
      curstat := HeaderInit;
      recvlen_already := 0;
    }

    /** recv into the current buffer: -1, or the number of bytes written at the cursor. */
    method RecvProc(r: Recv) returns (n: int)
      requires recvbuf != null && cursor + recvlen <= recvbuf.Length
      modifies recvbuf
      ensures r.Failed? ==> n == -1 && recvbuf[..] == old(recvbuf[..])
      ensures r.Offered? ==> n == Min(|r.bytes|, recvlen) && Written(old(recvbuf[..]), recvbuf[..], cursor, r.bytes, n)
    {
      if r.Failed? {
        return -1;
      }
      n := Min(|r.bytes|, recvlen);
      forall k | 0 <= k < n {
        recvbuf[cursor + k] := r.bytes[k];
      }
    }

    method PkgRecv(r: Recv) returns (n: int)
      requires recvbuf != null && cursor + recvlen <= recvbuf.Length
      modifies this`cursor, this`recvlen, this`recvlen_already, this`recv_str, recvbuf
      ensures r.Failed? ==> n == -1 && recvbuf[..] == old(recvbuf[..])
      ensures r.Failed? ==> unchanged(`cursor) && unchanged(`recvlen) && unchanged(`recvlen_already)
      ensures r.Failed? ==> recv_str == if InBody() then null else old(recv_str)
      ensures r.Offered? ==> n == Min(|r.bytes|, old(recvlen)) && unchanged(`recv_str)
      ensures r.Offered? ==> Written(old(recvbuf[..]), recvbuf[..], old(cursor), r.bytes, n)
      ensures r.Offered? ==> recvlen_already == old(recvlen_already) + n
      ensures r.Offered? && n < old(recvlen) ==> cursor == old(cursor) + n && recvlen == old(recvlen) - n
      ensures r.Offered? && n == old(recvlen) ==> unchanged(`cursor) && unchanged(`recvlen)
    {
      n := RecvProc(r);
      if n == -1 {
        if InBody() {
          recv_str := null;
        }
        return;
      }
      if n < recvlen {
        cursor := cursor + n;
        recvlen := recvlen - n;
      }
      recvlen_already := recvlen_already + n;
    }

    /** A zeroed message buffer that begins with the message header and the packet header. */
    method NewMessage(header: array<Byte>, pkgSize: nat) returns (buffer: array<Byte>)
      requires |messageHeader| == MSG_HEADER_LEN && header.Length == PKG_HEADER_LEN <= pkgSize
      ensures fresh(buffer) && buffer.Length == MSG_HEADER_LEN + pkgSize + 1
      ensures buffer[..MSG_HEADER_LEN] == messageHeader
      ensures buffer[MSG_HEADER_LEN..MSG_HEADER_LEN + PKG_HEADER_LEN] == header[..]
      ensures buffer[MSG_HEADER_LEN + pkgSize] == 0
    {
      buffer := new Byte[MSG_HEADER_LEN + pkgSize + 1](k => 0);
      forall k | 0 <= k < MSG_HEADER_LEN {
        buffer[k] := messageHeader[k];
      }
      forall k | 0 <= k < PKG_HEADER_LEN {
        buffer[MSG_HEADER_LEN + k] := header[k];
      }
    }

    method PkgHeaderProc()
      requires |messageHeader| == MSG_HEADER_LEN
      requires p_headerinfo != null && p_headerinfo.Length == PKG_HEADER_LEN
      modifies this
      ensures Valid()
      ensures var held, n := old(p_headerinfo[..]), PkgLen(old(p_headerinfo[..]));
              && State() == (if !LegalLength(n) then Receiving(HeaderInit, [], old(recvlen_already))
                             else if n == PKG_HEADER_LEN then START
                             else Receiving(BodyInit, held, old(recvlen_already)))
              && msgqueue == old(msgqueue) +
                   (if LegalLength(n) && n == PKG_HEADER_LEN then [Message(messageHeader, held)] else [])
      ensures p_headerinfo == old(p_headerinfo) || p_headerinfo == null
      ensures recv_str == old(recv_str) || recv_str == null || fresh(recv_str)
    {
      var pkgSize := PkgLen(p_headerinfo[..]);
      if pkgSize < PKG_HEADER_LEN || pkgSize > PKG_MAX_LENGTH - 1000 {
        curstat := HeaderInit;
        return;
      }
      recv_str := NewMessage(p_headerinfo, pkgSize);
      recvbuf, cursor := recv_str, MSG_HEADER_LEN + PKG_HEADER_LEN;
      recvlen := pkgSize - PKG_HEADER_LEN;
      if recvlen == 0 {
        assert recv_str[..] == recv_str[..MSG_HEADER_LEN] + recv_str[MSG_HEADER_LEN..][..PKG_HEADER_LEN] + [0];
        PkgBodyProc();
        return;
      }
      curstat := BodyInit;
    }

    method PkgBodyProc()
      requires |messageHeader| == MSG_HEADER_LEN && recv_str != null
      modifies this
      ensures Valid() && State() == START && p_headerinfo == recv_str == null
      ensures msgqueue == old(msgqueue) + [old(recv_str[..])]
    {
      msgqueue := msgqueue + [recv_str[..]];
      PutToStateMach();
    }

    /** The two header states of the handler, once the cursor is set. */
    method ReadHeader(r: Recv)
      requires |messageHeader| == MSG_HEADER_LEN && !InBody() && recvlen > 0
      requires p_headerinfo != null && p_headerinfo.Length == PKG_HEADER_LEN
      requires recvbuf == p_headerinfo && cursor + recvlen == PKG_HEADER_LEN
      modifies this, p_headerinfo
      ensures r.Failed? ==> unchanged(this) && p_headerinfo[..] == old(p_headerinfo[..])
      ensures r.Offered? ==>
        var before := Receiving(HeaderReceiving, old(p_headerinfo[..cursor]), old(recvlen_already));
        && Valid()
        && State() == Receive(before, r).state
        && msgqueue == old(msgqueue) + Messages(messageHeader, Receive(before, r).packets)
    {
      var supposeSize := recvlen;
      ghost var before, at := p_headerinfo[..cursor], cursor;
      var n := PkgRecv(r);
      if n == -1 {
        return;
      }
      WrittenFollows(old(p_headerinfo[..]), p_headerinfo[..], at, r.bytes, n, 0);
      if n == supposeSize {
        assert p_headerinfo[..] == before + r.bytes[..n];
        PkgHeaderProc();
      } else {
        assert p_headerinfo[..cursor] == before + r.bytes[..n];
        curstat := HeaderReceiving;
      }
    }

    /** A read into the body: what was there stays, and the new bytes follow. */
    method PkgBodyRecv(r: Recv) returns (n: int)
      requires Valid() && State().Receiving? && InBody()
      modifies this`cursor, this`recvlen, this`recvlen_already, this`recv_str, recv_str
      ensures r.Failed? ==> n == -1 && recv_str == null
      ensures r.Failed? ==> unchanged(`cursor) && unchanged(`recvlen) && unchanged(`recvlen_already)
      ensures r.Offered? ==> n == Min(|r.bytes|, old(recvlen)) && unchanged(`recv_str)
      ensures r.Offered? ==> recvlen_already == old(recvlen_already) + n
      ensures r.Offered? && n < old(recvlen) ==> cursor == old(cursor) + n && recvlen == old(recvlen) - n
      ensures r.Offered? && n == old(recvlen) ==> unchanged(`cursor) && unchanged(`recvlen)
      ensures r.Offered? ==>
        && recv_str[MSG_HEADER_LEN..old(cursor) + n] == old(recv_str[MSG_HEADER_LEN..cursor]) + r.bytes[..n]
        && recv_str[..MSG_HEADER_LEN] == messageHeader
        && recv_str[MSG_HEADER_LEN..MSG_HEADER_LEN + PKG_HEADER_LEN] == p_headerinfo[..]
        && recv_str[recv_str.Length - 1] == 0
    {
      ghost var before, at, buffer := recv_str[..], cursor, recv_str;
      n := PkgRecv(r);
      if r.Offered? {
        WrittenFollows(before, buffer[..], at, r.bytes, n, MSG_HEADER_LEN);
        WrittenKeeps(before, buffer[..], at, r.bytes, n, 0, MSG_HEADER_LEN);
        WrittenKeeps(before, buffer[..], at, r.bytes, n, MSG_HEADER_LEN, MSG_HEADER_LEN + PKG_HEADER_LEN);
      }
    }

    /** The two body states of the handler. */
    method ReadBody(r: Recv)
      requires Valid() && State().Receiving? && InBody()
      modifies this, recv_str
      ensures Valid()
      ensures State() == Receive(old(State()), r).state
      ensures msgqueue == old(msgqueue) + Messages(messageHeader, Receive(old(State()), r).packets)
    {
      var supposeSize := recvlen;
      ghost var before := State();
      ghost var held := before.held;
      assert PkgLen(held) == PkgLen(p_headerinfo[..]) by {
        HeaderIsHeld(recv_str[..], cursor);
      }
      assert before.Wanted() == recvlen;
      var n := PkgBodyRecv(r);
      if n == -1 {
        return;
      }
      ReceiveInBody(before, r, n);
      if n == supposeSize {
        assert recv_str[..] == Message(messageHeader, held + r.bytes[..n]) by {
          WholeMessage(recv_str[..], messageHeader, held + r.bytes[..n]);
        }
        PkgBodyProc();
      } else {
        curstat := BodyReceiving;
      }
    }

    /** The handler of a readable event. */
    method ReadableRequestHandler(r: Recv)
      requires Valid() && State().Receiving?
      modifies this, p_headerinfo, recv_str
      ensures Valid()
      ensures State() == Receive(old(State()), r).state
      ensures msgqueue == old(msgqueue) + Messages(messageHeader, Receive(old(State()), r).packets)
    {
      if curstat == HeaderInit {
        p_headerinfo := new Byte[PKG_HEADER_LEN](k => 0);
        recvbuf, cursor := p_headerinfo, 0;
        recvlen := PKG_HEADER_LEN;
        ReadHeader(r);
      } else if recvlen == 0 {
        assert false;  // Valid: something is always wanted
      } else if curstat == HeaderReceiving {
        ReadHeader(r);
      } else {
        ReadBody(r);
      }
    }
  }
}
