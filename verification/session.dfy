/**
 * The transport session a KCP connection wraps (kcp-go's UDPSession), seen only from
 * the outside: every call made on it is appended to a log, and whatever it answers is
 * decided by an opaque oracle over the history of calls.  The server front-end never
 * looks inside the session, so nothing more is assumed about it.
 */
module Session {

  newtype byte = x: int | 0 <= x < 256

  /** A Go byte slice: the nil slice is distinct from an empty, non-nil one. */
  datatype Bytes = NilSlice | Slice(data: seq<byte>)

  function Len(b: Bytes): nat
  {
    match b
    case NilSlice => 0
    case Slice(data) => |data|
  }

  /** A Go `error`: nil, or some failure the transport reports. */
  datatype Error = NoError | Failed(code: nat)

  /** A Go `time.Time` used as a deadline; the zero time means "no timeout". */
  datatype Time = ZeroTime | Instant(unixNano: int)

  /** A `net.Addr`: its network name and its textual address. */
  datatype Addr = Addr(network: string, address: string)

  /** One call made on the session. */
  datatype Call =
    | CloseCall
    | WriteCall(data: seq<byte>)
    | ReadCall(size: nat)
    | SetDeadlineCall(t: Time)
    | SetReadDeadlineCall(t: Time)
    | SetWriteDeadlineCall(t: Time)
    | SetMtuCall(mtu: int)
    | SetNoDelayCall(noDelay: int, interval: int, resend: int, nc: int)
    | SetAckNoDelayCall(on: bool)

  /** What an I/O call answers: a byte count and an error. */
  datatype Reply = Reply(n: int, err: Error)

  class UdpSession {
    /** Every call made on this session, oldest first. */
    var calls: seq<Call>
    /** The session's answer to a call, given the calls made before it. */
    const respond: (seq<Call>, Call) -> Reply
    const local: Addr
    const remote: Addr

    constructor (respond: (seq<Call>, Call) -> Reply, local: Addr, remote: Addr)
      ensures calls == []
      ensures this.respond == respond && this.local == local && this.remote == remote
    {
      this.respond := respond;
      this.local := local;
      this.remote := remote;
      calls := [];
    }

    method Close() returns (err: Error)
      modifies this
      ensures calls == old(calls) + [CloseCall]
      ensures err == respond(old(calls), CloseCall).err
    {
      err := respond(calls, CloseCall).err;
      calls := calls + [CloseCall];
    }

    method Write(data: seq<byte>) returns (n: int, err: Error)
      modifies this
      ensures calls == old(calls) + [WriteCall(data)]
      ensures Reply(n, err) == respond(old(calls), WriteCall(data))
    {
      var r := respond(calls, WriteCall(data));
      n, err := r.n, r.err;
      calls := calls + [WriteCall(data)];
    }

    method Read(size: nat) returns (n: int, err: Error)
      modifies this
      ensures calls == old(calls) + [ReadCall(size)]
      ensures Reply(n, err) == respond(old(calls), ReadCall(size))
    {
      var r := respond(calls, ReadCall(size));
      n, err := r.n, r.err;
      calls := calls + [ReadCall(size)];
    }

    method SetDeadline(t: Time) returns (err: Error)
      modifies this
      ensures calls == old(calls) + [SetDeadlineCall(t)]
      ensures err == respond(old(calls), SetDeadlineCall(t)).err
    {
      err := respond(calls, SetDeadlineCall(t)).err;
      calls := calls + [SetDeadlineCall(t)];
    }

    method SetReadDeadline(t: Time) returns (err: Error)
      modifies this
      ensures calls == old(calls) + [SetReadDeadlineCall(t)]
      ensures err == respond(old(calls), SetReadDeadlineCall(t)).err
    {
      err := respond(calls, SetReadDeadlineCall(t)).err;
      calls := calls + [SetReadDeadlineCall(t)];
    }

    method SetWriteDeadline(t: Time) returns (err: Error)
      modifies this
      ensures calls == old(calls) + [SetWriteDeadlineCall(t)]
      ensures err == respond(old(calls), SetWriteDeadlineCall(t)).err
    {
      err := respond(calls, SetWriteDeadlineCall(t)).err;
      calls := calls + [SetWriteDeadlineCall(t)];
    }

    method SetMtu(mtu: int)
      modifies this
      ensures calls == old(calls) + [SetMtuCall(mtu)]
    {
      calls := calls + [SetMtuCall(mtu)];
    }

    method SetNoDelay(noDelay: int, interval: int, resend: int, nc: int)
      modifies this
      ensures calls == old(calls) + [SetNoDelayCall(noDelay, interval, resend, nc)]
    {
      calls := calls + [SetNoDelayCall(noDelay, interval, resend, nc)];
    }

    method SetAckNoDelay(on: bool)
      modifies this
      ensures calls == old(calls) + [SetAckNoDelayCall(on)]
    {
      calls := calls + [SetAckNoDelayCall(on)];
    }
  }

  /** How many times a log closes its session. */
  function CloseCount(calls: seq<Call>): (r: nat)
    ensures r <= |calls|
    ensures r == 0 <==> CloseCall !in calls
  {
    if calls == [] then 0
    else (if calls[0] == CloseCall then 1 else 0) + CloseCount(calls[1..])
  }

  /** The byte sequences a log writes to its session, in order. */
  function Written(calls: seq<Call>): (r: seq<seq<byte>>)
    ensures |r| <= |calls|
    ensures forall d :: d in r <==> WriteCall(d) in calls
  {
    if calls == [] then []
    else (if calls[0].WriteCall? then [calls[0].data] else []) + Written(calls[1..])
  }

  lemma {:induction false} CloseCountAppend(a: seq<Call>, b: seq<Call>)
    ensures CloseCount(a + b) == CloseCount(a) + CloseCount(b)
  {
    if a != [] {
      assert (a + b)[1..] == a[1..] + b;
      CloseCountAppend(a[1..], b);
    } else {
      assert a + b == b;
    }
  }

  lemma {:induction false} WrittenAppend(a: seq<Call>, b: seq<Call>)
    ensures Written(a + b) == Written(a) + Written(b)
  {
    if a != [] {
      assert (a + b)[1..] == a[1..] + b;
      WrittenAppend(a[1..], b);
    } else {
      assert a + b == b;
    }
  }
}
