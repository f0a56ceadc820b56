/**
 * The KCP connection wrapper (`KCPConn`): one transport session plus a close flag.
 * The flag decides what every locked operation does: `Close` closes the session only
 * the first time, `Write` turns into a silent no-op once the flag is up, and `Destroy`
 * closes the session unconditionally.  The mutex that guards the flag is not modelled;
 * each method runs as one atomic step.
 */
module Conn {
  import opened Session

  class KcpConn {
    /** The wrapped session, owned by this connection. */
    const session: UdpSession
    /** Go's `closeFlag`. */
    var closed: bool

    /** `newKCPConn`: a wrapper that is open and has not touched its session. */
    constructor (session: UdpSession)
      ensures this.session == session
      ensures !closed
      ensures unchanged(session)
    {
      this.session := session;
      closed := false;
    }

    /** Closes the session whatever the flag says, then raises the flag. */
    method DoDestroy()
      modifies this, session
      ensures closed
      ensures session.calls == old(session.calls) + [CloseCall]
      ensures CloseCount(session.calls) == CloseCount(old(session.calls)) + 1
      ensures Written(session.calls) == Written(old(session.calls))
    {
      var _ := session.Close();
      CloseCountAppend(old(session.calls), [CloseCall]);
      WrittenAppend(old(session.calls), [CloseCall]);
      if !closed {
        closed := true;
      }
    }

    /** Forceful close: the session is closed even when the wrapper already was. */
    method Destroy()
      modifies this, session
      ensures closed
      ensures session.calls == old(session.calls) + [CloseCall]
      ensures CloseCount(session.calls) == CloseCount(old(session.calls)) + 1
      ensures Written(session.calls) == Written(old(session.calls))
    {
      DoDestroy();
    }

    /**
     * Idempotent close: the first call raises the flag and returns the session's close
     * error; later calls return nil and leave the session alone.
     */
    method Close() returns (err: Error)
      modifies this, session
      ensures closed
      ensures old(closed) ==> err == NoError && session.calls == old(session.calls)
      ensures !old(closed) ==>
                session.calls == old(session.calls) + [CloseCall] &&
                err == session.respond(old(session.calls), CloseCall).err
      ensures CloseCount(session.calls) == CloseCount(old(session.calls)) + (if old(closed) then 0 else 1)
      ensures Written(session.calls) == Written(old(session.calls))
    {
      if closed {
        return NoError;
      }
      closed := true;
      err := session.Close();
      CloseCountAppend(old(session.calls), [CloseCall]);
      WrittenAppend(old(session.calls), [CloseCall]);
    }

    /**
     * A closed wrapper, or a nil buffer, writes nothing and reports (0, nil); otherwise
     * the buffer goes to the session unchanged (an empty non-nil buffer included) and
     * the session's answer is returned.
     */
    method Write(b: Bytes) returns (n: int, err: Error)
      modifies session
      ensures closed || b.NilSlice? ==> n == 0 && err == NoError && session.calls == old(session.calls)
      ensures !closed && b.Slice? ==>
                session.calls == old(session.calls) + [WriteCall(b.data)] &&
                Reply(n, err) == session.respond(old(session.calls), WriteCall(b.data))
      ensures Written(session.calls) ==
                Written(old(session.calls)) + (if closed || b.NilSlice? then [] else [b.data])
      ensures CloseCount(session.calls) == CloseCount(old(session.calls))
    {
      if closed || b.NilSlice? {
        return 0, NoError;
      }
      n, err := session.Write(b.data);
      CloseCountAppend(old(session.calls), [WriteCall(b.data)]);
      WrittenAppend(old(session.calls), [WriteCall(b.data)]);
    }

    /** Unlocked pass-through; the flag is neither read nor changed. */
    method Read(b: Bytes) returns (n: int, err: Error)
      modifies session
      ensures closed == old(closed)
      ensures session.calls == old(session.calls) + [ReadCall(Len(b))]
      ensures Reply(n, err) == session.respond(old(session.calls), ReadCall(Len(b)))
    {
      n, err := session.Read(Len(b));
    }

    method LocalAddr() returns (a: Addr)
      ensures a == session.local
    {
      a := session.local;
    }

    method RemoteAddr() returns (a: Addr)
      ensures a == session.remote
    {
      a := session.remote;
    }

    /** Pass-through; `ZeroTime` clears the deadline in the session. */
    method SetDeadline(t: Time) returns (err: Error)
      modifies session
      ensures closed == old(closed)
      ensures session.calls == old(session.calls) + [SetDeadlineCall(t)]
      ensures err == session.respond(old(session.calls), SetDeadlineCall(t)).err
    {
      err := session.SetDeadline(t);
    }

    method SetReadDeadline(t: Time) returns (err: Error)
      modifies session
      ensures closed == old(closed)
      ensures session.calls == old(session.calls) + [SetReadDeadlineCall(t)]
      ensures err == session.respond(old(session.calls), SetReadDeadlineCall(t)).err
    {
      err := session.SetReadDeadline(t);
    }

    method SetWriteDeadline(t: Time) returns (err: Error)
      modifies session
      ensures closed == old(closed)
      ensures session.calls == old(session.calls) + [SetWriteDeadlineCall(t)]
      ensures err == session.respond(old(session.calls), SetWriteDeadlineCall(t)).err
    {
      err := session.SetWriteDeadline(t);
    }
  }

  /** Two closes in a row close the session at most once, and the second returns nil. */
  method CloseTwice(c: KcpConn) returns (first: Error, second: Error)
    modifies c, c.session
    ensures c.closed
    ensures second == NoError
    ensures CloseCount(c.session.calls) == CloseCount(old(c.session.calls)) + (if old(c.closed) then 0 else 1)
    ensures !old(c.closed) ==> first == c.session.respond(old(c.session.calls), CloseCall).err
  {
    first := c.Close();
    second := c.Close();
  }

  /** Unlike Close, Destroy is not idempotent: two of them close the session twice. */
  method DestroyTwice(c: KcpConn)
    modifies c, c.session
    ensures c.closed
    ensures c.session.calls == old(c.session.calls) + [CloseCall, CloseCall]
    ensures CloseCount(c.session.calls) == CloseCount(old(c.session.calls)) + 2
  {
    c.Destroy();
    c.Destroy();
  }

  /** After Destroy, Close returns nil without touching the session and Write writes nothing. */
  method DestroyThenUse(c: KcpConn, b: Bytes) returns (closeErr: Error, n: int, writeErr: Error)
    modifies c, c.session
    ensures c.closed
    ensures closeErr == NoError && n == 0 && writeErr == NoError
    ensures c.session.calls == old(c.session.calls) + [CloseCall]
  {
    c.Destroy();
    closeErr := c.Close();
    n, writeErr := c.Write(b);
  }

  /** After Close, every Write returns (0, nil) and nothing more reaches the session. */
  method CloseThenWrite(c: KcpConn, b: Bytes) returns (n: int, err: Error)
    modifies c, c.session
    ensures n == 0 && err == NoError
    ensures Written(c.session.calls) == Written(old(c.session.calls))
    ensures c.session.calls == old(c.session.calls) + (if old(c.closed) then [] else [CloseCall])
  {
    var _ := c.Close();
    n, err := c.Write(b);
  }
}
