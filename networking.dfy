/**
  The stream framing and socket wrappers of common/networking.py, which the server's network
  handler repeats: every TCP payload travels as its length in four big-endian bytes followed
  by the payload. A socket is modelled as the bytes still to arrive from the peer and the
  bytes written to it; `recv` may hand back any non-empty prefix of what is pending.
 */
module Networking {
  import opened Wrappers
  import opened Bytes

  /** `len(data).to_bytes(4, 'big') + data`; Err where `to_bytes` overflows. */
  function Frame(data: seq<byte>): (r: Result<seq<byte>, string>)
    ensures r.Ok? <==> |data| < TwoTo32
    ensures r.Ok? ==> |r.value| == 4 + |data| && r.value[4..] == data
  {
    if |data| >= TwoTo32 then Err("int too big to convert")
    else
      var f := EncodeLength(|data|) + data;
      assert f[4..] == data;
      Ok(f)
  }

  /** Reading one frame off the front of a stream: the payload and what follows it, or None if the stream ends early. */
  function Unframe(stream: seq<byte>): (r: Option<(seq<byte>, seq<byte>)>)
    ensures r.Some? <==> |stream| >= 4 && |stream| >= 4 + DecodeLength(stream[..4])
    ensures r.Some? ==> |r.value.0| == DecodeLength(stream[..4]) && stream == stream[..4] + r.value.0 + r.value.1
  {
    if |stream| < 4 then None
    else
      var n := DecodeLength(stream[..4]);
      if |stream| < 4 + n then None
      else
        assert stream == stream[..4] + stream[4..4 + n] + stream[4 + n..];
        Some((stream[4..4 + n], stream[4 + n..]))
  }

  /** Receiving after sending gives back exactly the payload, and leaves what followed untouched. */
  lemma UnframeFrame(data: seq<byte>, rest: seq<byte>)
    requires |data| < TwoTo32
    ensures Unframe(Frame(data).value + rest) == Some((data, rest))
  {
    var s := Frame(data).value + rest;
    assert s[..4] == EncodeLength(|data|);
    assert s[4..4 + |data|] == data;
    assert s[4 + |data|..] == rest;
  }

  /** Every complete frame on a stream is one that `Frame` produced. */
  lemma FrameUnframe(stream: seq<byte>)
    requires Unframe(stream).Some?
    ensures var (data, rest) := Unframe(stream).value;
            |data| < TwoTo32 && Frame(data).value + rest == stream
  {
    var (data, rest) := Unframe(stream).value;
    EncodeDecodeLength(stream[..4]);
  }

  /** The peer end of a connected socket. */
  class Stream {
    /** Bytes the peer will still send before closing. */
    var pending: seq<byte>
    /** Bytes written to the peer so far. */
    var written: seq<byte>

    constructor(incoming: seq<byte>)
      ensures pending == incoming && written == []
    {
      pending := incoming;
      written := [];
    }

    /** `recv(max)`: some non-empty prefix of what is pending, at most `max` bytes; empty once the peer has closed. */
    method Recv(max: nat) returns (chunk: seq<byte>)
      requires max > 0
      modifies this`pending
      ensures old(pending) == chunk + pending
      ensures |chunk| <= max
      ensures chunk == [] <==> old(pending) == []
    {
      if pending == [] {
        return [];
      }
      var k :| 1 <= k <= max && k <= |pending|;
      chunk := pending[..k];
      pending := pending[k..];
    }

    /** `sendall`: `ok` is whether the connection accepts the bytes; a failed send writes nothing. */
    method SendAll(data: seq<byte>, ok: bool)
      modifies this`written
      ensures written == if ok then old(written) + data else old(written)
    {
      if ok {
        written := written + data;
      }
    }
  }

  /**
    `_receive_exact`: read until `n` bytes have arrived, whatever sizes `recv` hands back;
    None if the peer closes first (having consumed whatever arrived).
   */
  method ReceiveExact(s: Stream, n: nat) returns (r: Option<seq<byte>>)
    modifies s`pending
    ensures |old(s.pending)| >= n ==> r == Some(old(s.pending)[..n]) && s.pending == old(s.pending)[n..]
    ensures |old(s.pending)| < n ==> r.None? && s.pending == []
  {
    var data: seq<byte> := [];
    while |data| < n
      invariant old(s.pending) == data + s.pending
      invariant |data| <= n
      decreases n - |data|
    {
      var chunk := s.Recv(n - |data|);
      if chunk == [] {
        return None;
      }
      data := data + chunk;
    }
    assert old(s.pending)[..n] == data;
    return Some(data);
  }

  /**
    The receiving half shared by `TCPSocket.receive_data` and the server's `_receive_tcp_data`:
    four length bytes, then exactly that many payload bytes.
   */
  method ReceiveFrame(s: Stream) returns (r: Option<seq<byte>>)
    modifies s`pending
    ensures Unframe(old(s.pending)).Some? ==>
              r == Some(Unframe(old(s.pending)).value.0) && s.pending == Unframe(old(s.pending)).value.1
    ensures Unframe(old(s.pending)).None? ==> r.None? && s.pending == []
  {
    var header := ReceiveExact(s, 4);
    if header.None? {
      return None;
    }
    ghost var afterHeader := s.pending;
    assert header.value == old(s.pending)[..4] && afterHeader == old(s.pending)[4..];
    var n := DecodeLength(header.value);
    r := ReceiveExact(s, n);
    if r.Some? {
      assert r.value == old(s.pending)[4..4 + n];
      assert s.pending == old(s.pending)[4 + n..];
    }
  }

  /** `TCPSocket` (also the base of the client and the server socket). */
  class TcpSocket {
    var socket: Stream?
    var connected: bool

    constructor()
      ensures socket == null && !connected
    {
      socket := null;
      connected := false;
    }

    /**
      `TCPClient.connect`: a newly created socket replaces the old one in every case; `accepted` is
      whether the server took the connection, and only then does the socket count as connected.
     */
    method Connect(created: Stream, accepted: bool) returns (ok: bool)
      modifies this
      ensures ok == accepted && socket == created
      ensures connected == (accepted || old(connected))
    {
      socket := created;
      if accepted {
        connected := true;
      }
      ok := accepted;
    }

    /** `send_data`: refused when not connected; otherwise the frame goes out if the connection takes it. */
    method SendData(data: seq<byte>, accepted: bool) returns (ok: bool)
      modifies if socket != null then {socket} else {}
      ensures ok <==> connected && socket != null && Frame(data).Ok? && accepted
      ensures socket != null ==> socket.written == if ok then old(socket.written) + Frame(data).value else old(socket.written)
    {
      if !connected || socket == null {
        return false;
      }
      match Frame(data)
      case Err(_) =>
        return false;
      case Ok(f) =>
        socket.SendAll(f, accepted);
        ok := accepted;
    }

    /** `receive_data`: None when not connected, when the peer closes early, or when nothing arrives. */
    method ReceiveData() returns (r: Option<seq<byte>>)
      modifies if socket != null then {socket} else {}
      ensures !connected || socket == null ==> r.None?
      ensures connected && socket != null ==>
                (if Unframe(old(socket.pending)).Some?
                 then r == Some(Unframe(old(socket.pending)).value.0) && socket.pending == Unframe(old(socket.pending)).value.1
                 else r.None?)
    {
      if !connected || socket == null {
        return None;
      }
      r := ReceiveFrame(socket);
    }

    /** `close`: drops the socket and the connected flag; without a socket nothing changes. */
    method Close()
      modifies this
      ensures old(socket) != null ==> socket == null && !connected
      ensures old(socket) == null ==> socket == null && connected == old(connected)
    {
      if socket != null {
        socket := null;
        connected := false;
      }
    }
  }

  /** `UDPSocket` / `UDPClient`: only whether a socket exists and the two flags matter. */
  class UdpSocket {
    var hasSocket: bool
    var bound: bool
    var connected: bool

    constructor(created: bool)
      ensures hasSocket == created && !bound && !connected
    {
      hasSocket := created;
      bound := false;
      connected := false;
    }

    /** `send_data`: refused without a socket; otherwise whether `sendto` went through. */
    method SendData(data: seq<byte>, address: (string, int), sent: bool) returns (ok: bool)
      ensures ok <==> hasSocket && sent
    {
      if !hasSocket {
        return false;
      }
      ok := sent;
    }

    /** `close` */
    method Close()
      modifies this
      ensures !hasSocket && (old(hasSocket) ==> !bound) && (!old(hasSocket) ==> bound == old(bound))
      ensures connected == old(connected)
    {
      if hasSocket {
        hasSocket := false;
        bound := false;
      }
    }

    /** `UDPClient.disconnect` */
    method Disconnect()
      modifies this
      ensures !connected && !hasSocket
    {
      connected := false;
      Close();
    }
  }
}
