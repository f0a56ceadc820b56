# KCP server front-end — a Dafny model

This project models the connection/session lifecycle core of a KCP (reliable UDP) server
front-end written in Go. It covers two pieces of sequential logic:

- **The connection wrapper `KCPConn`** (`kcp_conn.dfy`, module `Conn`). This is a class
  with a `closed` flag around one transport session.
  - `Close` is idempotent.
  - `Write` becomes a silent `(0, nil)` once the wrapper is closed or when the buffer is nil.
  - `Destroy` always closes the session.
  - The pass-throughs (`Read`, addresses, deadline setters) never touch the flag.
- **The server `KCPServer`** (`kcp_server.dfy`, module `Server`).
  - Its accept loop `run` works over a sequence of accept outcomes: a temporary error sleeps
    with exponential backoff (5 ms, doubling, capped at 1 s, reset by a success); a fatal
    error ends the loop; a success tunes the session, wraps it, asks the factory `NewAgent`
    for an agent and starts a task.
  - Each spawned task runs in a fixed order: count in, `Run`, close the wrapper, `OnClose`,
    count out.
  - `Close` closes the listener, then waits for the loop, then for the connections.

The transport session (kcp-go's `UDPSession`) is a library the server calls; it is not
modelled, and appears as the class `Session.UdpSession` (`session.dfy`), which keeps a log of every call made on
it (`calls`). Its answers come from an opaque oracle `respond(history, call)`. "The session
is not touched" means its log is unchanged. "Closed exactly once" means `CloseCount` of the
log grew by one. "Forwarded unchanged" means `Written` of the log grew by exactly the buffer.

An accept outcome carries the accepted session object itself. The accept loop's result
is described pointwise by the predicate `AcceptTrace`. The trace holds one event per outcome
before the first fatal one: a `Sleep(Backoff(k))` for the k-th temporary error in a row, or a
`Spawn` holding the fresh wrapper of the accepted session. The loop consumes the fatal outcome
and nothing after it. `Backoff(k)` is the closed form min(5 ms·2^(k-1), 1 s); `BackoffStep`
proves that the loop's update rule produces it. Durations are Go `time.Duration` values, in
nanoseconds.

The agent a task runs is reduced to the wrapper operations its `Run` performs. `OpEffect` and
`RunEffect` give, independently of the wrapper's code, what those operations do to the session
log and the close flag. `TaskCalls` adds the task's own cleanup close, and `ServeConnection` is
proved to produce exactly that log.

`Write` short-circuits only on a nil buffer. An empty non-nil buffer is still forwarded to the
session (network/kcp_conn.go:65).

## Model

| member | source | states |
|---|---|---|
| `Conn.KcpConn.constructor` | network/kcp_conn.go:25-30 | a new wrapper holds the given session, is open, and has made no call on the session |
| `Conn.KcpConn.DoDestroy` | network/kcp_conn.go:32-39 | closes the session once more whatever the flag says, writes nothing, and leaves the flag raised |
| `Conn.KcpConn.Destroy` | network/kcp_conn.go:41-47 | same effect as `DoDestroy`: exactly one more session close, flag raised, even if it was already closed |
| `Conn.KcpConn.Close` | network/kcp_conn.go:49-59 | closed before: returns nil, session log unchanged; open: raises the flag, closes the session exactly once, returns the session's close error; never writes |
| `Conn.KcpConn.Write` | network/kcp_conn.go:61-70 | closed or nil buffer: (0, nil) and no session call; otherwise forwards the buffer unchanged (also an empty non-nil one) and returns the session's (n, err); never closes the session |
| `Conn.KcpConn.Read` | network/kcp_conn.go:72-75 | forwards one read of the buffer's length to the session and returns its answer; flag unchanged |
| `Conn.KcpConn.LocalAddr` | network/kcp_conn.go:77-80 | returns the session's local address |
| `Conn.KcpConn.RemoteAddr` | network/kcp_conn.go:82-85 | returns the session's remote address |
| `Conn.KcpConn.SetDeadline` | network/kcp_conn.go:87-90 | forwards the deadline (zero time included) to the session, returns its error; flag unchanged |
| `Conn.KcpConn.SetReadDeadline` | network/kcp_conn.go:92-96 | forwards the read deadline to the session, returns its error; flag unchanged |
| `Conn.KcpConn.SetWriteDeadline` | network/kcp_conn.go:98-104 | forwards the write deadline to the session, returns its error; flag unchanged |
| `Conn.CloseTwice` | network/kcp_conn.go:50-59 | two closes in a row: the second returns nil and the session is closed at most once (exactly once if the wrapper was open) |
| `Conn.DestroyTwice` | network/kcp_conn.go:32-47 | two destroys close the session twice |
| `Conn.DestroyThenUse` | network/kcp_conn.go:32-70 | after `Destroy`, `Close` returns nil and `Write` returns (0, nil); the only session call is the one close |
| `Conn.CloseThenWrite` | network/kcp_conn.go:50-70 | after `Close`, `Write` returns (0, nil) and nothing more is written to the session |
| `Server.Backoff` | network/kcp_server.go:83-90 | zero before any temporary error; after k >= 1 consecutive ones it lies in [5 ms, 1 s] |
| `Server.BackoffStep` | network/kcp_server.go:83-90 | the closed form min(5 ms·2^(k-1), 1 s) follows the loop's rule: 5 ms from zero, otherwise double, then cap at 1 s |
| `Server.BackoffMonotone` | network/kcp_server.go:83-90 | the delay never decreases along a run of temporary errors |
| `Server.BackoffStaysCapped` | network/kcp_server.go:88-90 | once the delay is 1 s it stays 1 s for every further consecutive temporary error |
| `Server.BackoffReachesCap` | network/kcp_server.go:84-90 | the 8th consecutive sleep is 640 ms and the 9th is 1 s |
| `Server.BackoffOrdered` | network/kcp_server.go:84-90 | over a longer run of consecutive temporary errors the sleep is never shorter |
| `Server.BackoffCapExactly` | network/kcp_server.go:84-90 | the sleep is 1 s exactly from the 9th consecutive temporary error on, and shorter before |
| `Server.NextDelay` | network/kcp_server.go:83-90 | the loop's update of `tempDelay` (5 ms from zero, else double, then cap at 1 s) turns the delay after k consecutive temporary errors into the closed form for k + 1 |
| `Server.StreakIsRun` | network/kcp_server.go:82-97 | the count the delay depends on is a maximal run: every outcome in it is a temporary error and the one before it is not (a success or a start resets it) |
| `Server.AcceptTraceUnique` | network/kcp_server.go:79-113 | the outcomes determine the loop's trace length, the number of outcomes it consumes, every sleep, and the session behind every spawn |
| `Server.SleepsBounded` | network/kcp_server.go:83-92 | every sleep of the loop lies in [5 ms, 1 s] |
| `Server.FirstSleepIsFiveMs` | network/kcp_server.go:78-97 | the first temporary error at the start or right after a success sleeps exactly 5 ms |
| `Server.SleepDoubles` | network/kcp_server.go:85-90 | a temporary error right after another one sleeps min(2 × the previous sleep, 1 s) |
| `Server.SpawnsOnlyOnSuccess` | network/kcp_server.go:80-103 | an event is a spawn exactly when its outcome is a success, and the spawned wrapper holds that outcome's session |
| `Server.SpawnsMatchSuccesses` | network/kcp_server.go:97-103 | the number of tasks started equals the number of successes before the first fatal error |
| `Server.ApplyOp` | network/kcp_conn.go:32-70 | one operation of an agent on its wrapper has the effect `OpEffect` gives: a write reaches the session only on an open wrapper with a non-nil buffer, a close only on an open wrapper, a destroy always; close and destroy raise the flag |
| `Server.RunAgent` | network/kcp_server.go:105 | the agent's `Run` leaves exactly the session calls and the flag that `RunEffect` gives for its operations |
| `Server.RunEffectCloses` | network/kcp_conn.go:32-70 | an agent's run closes the session never while the flag stays down, at least once when it raises the flag and then ends on a close, at most once plus once per `Destroy`, and exactly once when it never destroys |
| `Server.TaskCloses` | network/kcp_server.go:103-112 | a task on an open wrapper closes the session at least once and its last session call is a close; at most once more per `Destroy`; exactly once without `Destroy`; on an already closed wrapper only `Destroy` closes |
| `Server.AgentFactory.NewAgent` | network/kcp_server.go:102 | records the wrapper it is called on and returns the agent built for that wrapper |
| `Server.KcpServer.constructor` | network/kcp_server.go:26-72 | a configured server with two distinct wait groups, both at zero, and no shutdown step taken |
| `Server.KcpServer.Run` | network/kcp_server.go:74-114 | the loop-lifetime counter is one above its old value while the loop runs and ends where it started; the connection counter is untouched; otherwise as `AcceptLoop` |
| `Server.KcpServer.AcceptLoop` | network/kcp_server.go:78-113 | the trace `AcceptTrace` describes; the factory is called once per started task, in order, on that task's wrapper; every started wrapper is fresh and open and its session received exactly the three tuning calls; sessions after the fatal outcome are untouched |
| `Server.KcpServer.HandleOutcome` | network/kcp_server.go:80-102 | a temporary error yields the sleep and new delay for the current run; a success resets the delay to zero and yields a fresh, open wrapper of its session after the tuning calls and one factory call; no other session is touched |
| `Server.KcpServer.Admit` | network/kcp_server.go:97-102 | applies SetMtu(Mtu), SetNoDelay(NoDelay, Interval, Resend, NC), SetACKNoDelay(true) in that order, wraps the session in a fresh, open connection, and returns the factory's agent for it, called once |
| `Server.KcpServer.ServeConnection` | network/kcp_server.go:103-112 | task order count-in, Run, Close, OnClose, count-out; the connection counter is one above its old value while the agent runs; the cleanup close is already in the session log, and the connection counter is still one above its old value, when `OnClose` runs; both counters net zero; the wrapper ends closed; the session log grows by exactly `TaskCalls`: the agent's calls, then the cleanup close only if the agent left the wrapper open; at least one close from an open wrapper, and exactly one unless the agent destroyed |
| `Server.KcpServer.Close` | network/kcp_server.go:116-121 | closes the listener, then waits on the loop group, then on the connection group |

## Left out

- Key derivation and encryption (`pbkdf2.Key`, `kcp.NewAESBlockCrypt`, network/kcp_server.go:53-57) are foreign cryptography and are left out. The code tests `Crypt` but derives the key from `Key`; the model does not depend on either.
- Binding the listener (`kcp.ListenWithOptions`) and `init`'s warnings are left out. A bind failure or a nil `NewAgent` is only logged, so there is nothing to prove. `Server.KcpServer.constructor` stands for a server whose listener is bound.
- `Start` launching `run` with `go` is left out: `Run` is called directly.
- kcp-go internals are left out: accept, the session's read, write and close, FEC shards, MTU meaning. The session is opaque; its replies come from an oracle. `Read` does not model filling the buffer.
- The session's own close result after a first close is the oracle's choice; the model does not claim what kcp-go returns.
- Concurrency is left out: the mutex, goroutines and the blocking of `WaitGroup.Wait`. Each wrapper method runs as one atomic step. The loop starts tasks but does not run them; `ServeConnection` is the task body, verified on its own. The model does not claim that the server's `Close` waits for every accepted connection. `wgConns.Add(1)` runs inside the spawned goroutine (network/kcp_server.go:103-104), so `Wait` can return before a just-spawned task registers.
- `Server.KcpServer.Close` records the order of its three steps only. Closing the listener makes the next accept fail fatally; in the model that is a `FatalError` outcome given to `Run`.
- The accept loop in Go runs until a fatal error. The model runs over a finite outcome sequence and stops when the sequence is exhausted.
- Logging and real sleeping are left out. A sleep is an event carrying its delay.
- The agent's `Run` is opaque application code. `RunAgent` takes it as a script of wrapper calls (write, close, destroy); `OnClose` is only an event. `NewAgent` is an opaque function `build` held by `AgentFactory`.
- Server.KcpServer.AcceptLoop: a `Spawn` event holds the wrapper but not the agent. That the agent is `factory.build(conn)` is stated by `Admit` and `NewAgent`, and is not restated for the whole trace.
- Server.KcpServer.Run: requires the accepted sessions to be distinct objects (`DistinctSessions`). kcp-go returns a new session from every accept; that code is not part of this model.
- The unused fields `bufLocks` and `buffer`, and the nil embedded `io.Reader`/`io.Writer` (network/kcp_conn.go:16-20), are left out.
- `sync.WaitGroup` is reduced to its counter. Go panics on a negative counter; the model makes this a precondition of `Done`.
