/**
 * The KCP server front-end (`KCPServer`): the accept loop with its temporary-error
 * backoff, the set-up of every accepted session, the task each connection's agent runs
 * in, and the order of the shutdown steps.
 *
 * The loop is modelled sequentially over a finite sequence of accept outcomes; each
 * outcome it consumes leaves one event in its trace (a sleep or a spawned agent),
 * except a fatal one, which ends the loop.  A spawned task is not run by the loop: the
 * trace hands its wrapper over, the agent it runs is the one the factory built for that
 * wrapper, and `ServeConnection` is what the task does with the two.
 * Durations are Go `time.Duration` values, i.e. nanoseconds.
 */
module Server {
  import opened Session
  import opened Conn

  const Millisecond: nat := 1_000_000
  const Second: nat := 1000 * Millisecond

  /** The server's configuration fields, set before `Start`. */
  datatype Config = Config(
    addr: string, key: string, crypt: string,
    mtu: int, noDelay: int, interval: int, resend: int, nc: int,
    dataShards: int, parityShards: int)

  /** What one `AcceptKCP` call yields: a new session or an error. */
  datatype Outcome = Accepted(session: UdpSession) | TemporaryError | FatalError

  /** The steps of one connection's task, in the order they are taken. */
  datatype TaskEvent = ConnsAdd | AgentRun | ConnClose | AgentOnClose | ConnsDone

  /**
   * What the accept loop does with one non-fatal outcome: sleep, or start a task for a
   * freshly wrapped session (the task runs the agent the factory built for `conn`).
   */
  datatype Event = Sleep(delay: nat) | Spawn(conn: KcpConn)

  /** The steps of the server's `Close`. */
  datatype ShutdownStep = ListenerClose | LoopWait | ConnsWait

  /** An operation the opaque `agent.Run` performs on its connection. */
  datatype ConnOp = WriteOp(b: Bytes) | CloseOp | DestroyOp

  /** The factory's product, reduced to what its `Run` does to the connection. */
  datatype Agent = Agent(run: seq<ConnOp>)

  /** The task of every spawned connection: count it in, run, close, notify, count it out. */
  const TaskOrder: seq<TaskEvent> := [ConnsAdd, AgentRun, ConnClose, AgentOnClose, ConnsDone]

  /** The tunables applied to every accepted session, in the order they are applied. */
  function SetupCalls(config: Config): seq<Call>
  {
    [SetMtuCall(config.mtu),
     SetNoDelayCall(config.noDelay, config.interval, config.resend, config.nc),
     SetAckNoDelayCall(true)]
  }

  function Min(a: int, b: int): int
  {
    if a <= b then a else b
  }

  function Pow2(n: nat): (r: nat)
    ensures r >= 1
  {
    if n == 0 then 1 else 2 * Pow2(n - 1)
  }

  /**
   * The delay slept after k consecutive temporary accept errors, in closed form:
   * nothing before the first, then min(5 ms * 2^(k-1), 1 s).
   */
  function Backoff(k: nat): (d: nat)
    ensures k == 0 <==> d == 0
    ensures k >= 1 ==> 5 * Millisecond <= d <= Second
  {
    if k == 0 then 0 else Min(5 * Millisecond * Pow2(k - 1), Second)
  }

  /** The closed form obeys the loop's update rule: 5 ms from zero, else double, then cap at 1 s. */
  lemma BackoffStep(k: nat)
    ensures Backoff(k + 1) == Min(if Backoff(k) == 0 then 5 * Millisecond else 2 * Backoff(k), Second)
  {
    if k > 0 {
      assert Pow2(k) == 2 * Pow2(k - 1);
      assert 5 * Millisecond * Pow2(k) == 2 * (5 * Millisecond * Pow2(k - 1));
    }
  }

  /** The delay never shrinks along a run of temporary errors. */
  lemma BackoffMonotone(k: nat)
    ensures Backoff(k) <= Backoff(k + 1)
  {
    BackoffStep(k);
  }

  /** Once the delay has reached 1 s, every later consecutive error sleeps 1 s. */
  lemma {:induction false} BackoffStaysCapped(k: nat, j: nat)
    requires k <= j
    requires Backoff(k) == Second
    ensures Backoff(j) == Second
    decreases j - k
  {
    if k < j {
      BackoffStep(k);
      BackoffStaysCapped(k + 1, j);
    }
  }

  /** The eighth consecutive error sleeps 640 ms; the ninth is the first to sleep 1 s. */
  lemma BackoffReachesCap()
    ensures Backoff(8) == 640 * Millisecond
    ensures Backoff(9) == Second
  {
    assert Pow2(7) == 128;
    assert Pow2(8) == 256;
  }

  /** The delay never shrinks over a longer run of consecutive errors. */
  lemma {:induction false} BackoffOrdered(k: nat, j: nat)
    requires k <= j
    ensures Backoff(k) <= Backoff(j)
    decreases j - k
  {
    if k < j {
      BackoffOrdered(k, j - 1);
      BackoffMonotone(j - 1);
    }
  }

  /** The 1 s cap is reached at exactly the ninth consecutive error and never before. */
  lemma BackoffCapExactly(k: nat)
    ensures Backoff(k) == Second <==> 9 <= k
  {
    BackoffReachesCap();
    if 9 <= k {
      BackoffStaysCapped(9, k);
    } else if 1 <= k {
      BackoffOrdered(k, 8);
    }
  }

  /** Length of the run of temporary errors that ends at index i (0 if o[i] is not one). */
  function Streak(o: seq<Outcome>, i: nat): (r: nat)
    requires i < |o|
    ensures r <= i + 1
    decreases i
  {
    if !o[i].TemporaryError? then 0
    else if i == 0 then 1
    else 1 + Streak(o, i - 1)
  }

  /** One step of `Streak`: a temporary error extends the run before it, anything else ends it. */
  lemma StreakNext(o: seq<Outcome>, i: nat)
    requires i < |o|
    ensures Streak(o, i) == if o[i].TemporaryError? then (if i == 0 then 1 else Streak(o, i - 1) + 1) else 0
  {
  }

  /**
   * `Streak` measures a maximal run: every outcome inside it is a temporary error, and
   * the one just before it, if any, is not.
   */
  lemma {:induction false} StreakIsRun(o: seq<Outcome>, i: nat)
    requires i < |o|
    ensures forall j :: i - Streak(o, i) < j <= i ==> o[j].TemporaryError?
    ensures Streak(o, i) <= i ==> !o[i - Streak(o, i)].TemporaryError?
    decreases i
  {
    if o[i].TemporaryError? && i > 0 {
      StreakIsRun(o, i - 1);
    }
  }

  /**
   * What the loop records for the non-fatal outcome at index i: the backoff of the
   * current run of temporary errors, or a spawn whose wrapper holds the accepted session.
   */
  predicate EventMatches(o: seq<Outcome>, i: nat, e: Event)
    requires i < |o|
  {
    match o[i]
    case TemporaryError => e == Sleep(Backoff(Streak(o, i)))
    case Accepted(s) => e.Spawn? && e.conn.session == s
    case FatalError => false
  }

  /** Every event of `t` answers the outcome at its index, and none of those is fatal. */
  predicate TraceMatches(o: seq<Outcome>, t: seq<Event>)
  {
    && |t| <= |o|
    && forall i :: 0 <= i < |t| ==> !o[i].FatalError? && EventMatches(o, i, t[i])
  }

  /** Appending an event that answers the next outcome keeps the trace matched. */
  lemma TraceExtend(o: seq<Outcome>, t: seq<Event>, e: Event)
    requires TraceMatches(o, t) && |t| < |o|
    requires EventMatches(o, |t|, e)
    ensures TraceMatches(o, t + [e])
    ensures SpawnedConns(t + [e]) == SpawnedConns(t) + (if e.Spawn? then [e.conn] else [])
  {
    forall j | 0 <= j < |t|
      ensures EventMatches(o, j, (t + [e])[j])
    {
      assert EventMatches(o, j, t[j]);
      assert (t + [e])[j] == t[j];
    }
    assert (t + [e])[..|t|] == t;
  }

  /**
   * What the accept loop leaves behind when given `outcomes`: one event per outcome up
   * to the first fatal one, which is consumed and ends the loop; nothing after it is
   * looked at.  Without a fatal outcome the loop consumes everything.
   */
  predicate AcceptTrace(outcomes: seq<Outcome>, trace: seq<Event>, consumed: nat)
  {
    && TraceMatches(outcomes, trace)
    && (if |trace| < |outcomes|
        then outcomes[|trace|].FatalError? && consumed == |trace| + 1
        else consumed == |outcomes|)
  }

  /**
   * The outcomes decide the trace, up to which fresh wrapper and agent a spawn holds:
   * its length, the consumed count, every sleep, and the session behind every spawn.
   */
  lemma AcceptTraceUnique(outcomes: seq<Outcome>, t1: seq<Event>, n1: nat, t2: seq<Event>, n2: nat)
    requires AcceptTrace(outcomes, t1, n1)
    requires AcceptTrace(outcomes, t2, n2)
    ensures |t1| == |t2| && n1 == n2
    ensures forall i :: 0 <= i < |t1| && t1[i].Sleep? ==> t1[i] == t2[i]
    ensures forall i :: 0 <= i < |t1| && t1[i].Spawn? ==> t2[i].Spawn? && t1[i].conn.session == t2[i].conn.session
  {
    assert |t1| == |t2|;
    forall i | 0 <= i < |t1|
      ensures t1[i].Sleep? ==> t1[i] == t2[i]
      ensures t1[i].Spawn? ==> t2[i].Spawn? && t1[i].conn.session == t2[i].conn.session
    {
      assert EventMatches(outcomes, i, t1[i]) && EventMatches(outcomes, i, t2[i]);
    }
  }

  /** Every sleep lies between 5 ms and 1 s. */
  lemma SleepsBounded(o: seq<Outcome>, t: seq<Event>, n: nat)
    requires AcceptTrace(o, t, n)
    ensures forall i :: 0 <= i < |t| && t[i].Sleep? ==> 5 * Millisecond <= t[i].delay <= Second
  {
    forall i | 0 <= i < |t| && t[i].Sleep?
      ensures 5 * Millisecond <= t[i].delay <= Second
    {
      assert EventMatches(o, i, t[i]);
    }
  }

  /** The first temporary error after the start, or after a success, sleeps exactly 5 ms. */
  lemma FirstSleepIsFiveMs(o: seq<Outcome>, t: seq<Event>, n: nat)
    requires AcceptTrace(o, t, n)
    ensures 0 < |t| && o[0].TemporaryError? ==> t[0] == Sleep(5 * Millisecond)
    ensures forall i :: 0 < i < |t| && o[i].TemporaryError? && o[i - 1].Accepted? ==>
              t[i] == Sleep(5 * Millisecond)
  {
    assert Backoff(1) == 5 * Millisecond by { assert Pow2(0) == 1; }
    if 0 < |t| && o[0].TemporaryError? {
      assert EventMatches(o, 0, t[0]);
    }
    forall i | 0 < i < |t| && o[i].TemporaryError? && o[i - 1].Accepted?
      ensures t[i] == Sleep(5 * Millisecond)
    {
      assert EventMatches(o, i, t[i]);
      assert Streak(o, i - 1) == 0;
    }
  }

  /** Each further consecutive temporary error sleeps twice the previous delay, capped at 1 s. */
  lemma SleepDoubles(o: seq<Outcome>, t: seq<Event>, n: nat)
    requires AcceptTrace(o, t, n)
    ensures forall i :: 0 < i < |t| && o[i].TemporaryError? && o[i - 1].TemporaryError? ==>
              t[i].Sleep? && t[i - 1].Sleep? && t[i].delay == Min(2 * t[i - 1].delay, Second)
  {
    forall i | 0 < i < |t| && o[i].TemporaryError? && o[i - 1].TemporaryError?
      ensures t[i].Sleep? && t[i - 1].Sleep? && t[i].delay == Min(2 * t[i - 1].delay, Second)
    {
      assert EventMatches(o, i, t[i]) && EventMatches(o, i - 1, t[i - 1]);
      assert Streak(o, i) == Streak(o, i - 1) + 1;
      BackoffStep(Streak(o, i - 1));
    }
  }

  /** An event is a spawn exactly when its outcome is a success, and it wraps that session. */
  lemma SpawnsOnlyOnSuccess(o: seq<Outcome>, t: seq<Event>, n: nat)
    requires AcceptTrace(o, t, n)
    ensures forall i :: 0 <= i < |t| ==> (t[i].Spawn? <==> o[i].Accepted?)
    ensures forall i :: 0 <= i < |t| && t[i].Spawn? ==> t[i].conn.session == o[i].session
  {
    forall i | 0 <= i < |t|
      ensures t[i].Spawn? <==> o[i].Accepted?
      ensures t[i].Spawn? ==> t[i].conn.session == o[i].session
    {
      assert EventMatches(o, i, t[i]);
    }
  }

  /** Number of successful accepts in a sequence of outcomes. */
  function Successes(o: seq<Outcome>): (r: nat)
    ensures r <= |o|
  {
    if o == [] then 0
    else Successes(o[..|o| - 1]) + (if o[|o| - 1].Accepted? then 1 else 0)
  }

  /** The wrappers handed to spawned tasks, in the order they were spawned. */
  function SpawnedConns(t: seq<Event>): (r: seq<KcpConn>)
    ensures |r| <= |t|
  {
    if t == [] then []
    else SpawnedConns(t[..|t| - 1]) + (if t[|t| - 1].Spawn? then [t[|t| - 1].conn] else [])
  }

  lemma {:induction false} SpawnedConnsPrefix(o: seq<Outcome>, t: seq<Event>, m: nat)
    requires m <= |t|
    requires TraceMatches(o, t)
    ensures |SpawnedConns(t[..m])| == Successes(o[..m])
  {
    if m > 0 {
      SpawnedConnsPrefix(o, t, m - 1);
      assert t[..m][..m - 1] == t[..m - 1];
      assert o[..m][..m - 1] == o[..m - 1];
      assert EventMatches(o, m - 1, t[m - 1]);
    }
  }

  /** The loop spawns exactly one agent per success before the first fatal error. */
  lemma SpawnsMatchSuccesses(o: seq<Outcome>, t: seq<Event>, n: nat)
    requires AcceptTrace(o, t, n)
    ensures |SpawnedConns(t)| == Successes(o[..|t|])
  {
    SpawnedConnsPrefix(o, t, |t|);
    assert t[..|t|] == t;
  }

  /** The sessions a sequence of outcomes hands out. */
  function SessionsOf(o: seq<Outcome>): set<UdpSession>
  {
    set i | 0 <= i < |o| && o[i].Accepted? :: o[i].session
  }

  /** Every accept yields a session of its own. */
  predicate DistinctSessions(o: seq<Outcome>)
  {
    forall i, j :: 0 <= i < j < |o| && o[i].Accepted? && o[j].Accepted? ==> o[i].session != o[j].session
  }

  /** What one operation of an agent's `Run` does to the session log and the close flag. */
  function OpEffect(closed: bool, op: ConnOp): (seq<Call>, bool)
  {
    match op
    case WriteOp(b) => (if closed || b.NilSlice? then [] else [WriteCall(b.data)], closed)
    case CloseOp => (if closed then [] else [CloseCall], true)
    case DestroyOp => ([CloseCall], true)
  }

  /**
   * The session calls an agent's `Run` makes through a wrapper whose flag starts as
   * `closed`, and the flag it leaves.  A raised flag is never lowered.
   */
  function RunEffect(closed: bool, ops: seq<ConnOp>): (r: (seq<Call>, bool))
    ensures closed ==> r.1
  {
    if ops == [] then ([], closed)
    else
      var before := RunEffect(closed, ops[..|ops| - 1]);
      var step := OpEffect(before.1, ops[|ops| - 1]);
      (before.0 + step.0, step.1)
  }

  /** The agent performs one operation on its connection; its effect is `OpEffect`'s. */
  method ApplyOp(conn: KcpConn, op: ConnOp)
    modifies conn, conn.session
    ensures conn.session.calls == old(conn.session.calls) + OpEffect(old(conn.closed), op).0
    ensures conn.closed == OpEffect(old(conn.closed), op).1
  {
    match op {
      case WriteOp(b) =>
        var _, _ := conn.Write(b);
      case CloseOp =>
        var _ := conn.Close();
      case DestroyOp =>
        conn.Destroy();
    }
  }

  /** The agent's `Run`: its operations, one after the other, on its connection. */
  method RunAgent(conn: KcpConn, agent: Agent)
    modifies conn, conn.session
    ensures conn.session.calls == old(conn.session.calls) + RunEffect(old(conn.closed), agent.run).0
    ensures conn.closed == RunEffect(old(conn.closed), agent.run).1
  {
    ghost var wasClosed := conn.closed;
    var i := 0;
    while i < |agent.run|
      invariant 0 <= i <= |agent.run|
      invariant conn.session.calls == old(conn.session.calls) + RunEffect(wasClosed, agent.run[..i]).0
      invariant conn.closed == RunEffect(wasClosed, agent.run[..i]).1
    {
      assert agent.run[..i + 1][..i] == agent.run[..i];
      ApplyOp(conn, agent.run[i]);
      i := i + 1;
    }
    assert agent.run[..i] == agent.run;
  }

  /** Number of `Destroy` calls in an agent's run. */
  function Destroys(ops: seq<ConnOp>): (r: nat)
    ensures r <= |ops|
  {
    if ops == [] then 0
    else Destroys(ops[..|ops| - 1]) + (if ops[|ops| - 1].DestroyOp? then 1 else 0)
  }

  /**
   * How often an agent's `Run` closes the session: never while the flag stays down; at
   * least once if it raises the flag; at most once per `Destroy` plus the one close that
   * raised the flag; and exactly that one close when it never destroys.  Once the flag
   * is up nothing but closes reaches the session, so a run that raises it ends on a close.
   */
  lemma {:induction false} RunEffectCloses(closed: bool, ops: seq<ConnOp>)
    ensures !RunEffect(closed, ops).1 ==> CloseCount(RunEffect(closed, ops).0) == 0
    ensures RunEffect(closed, ops).1 && !closed ==> CloseCount(RunEffect(closed, ops).0) >= 1
    ensures CloseCount(RunEffect(closed, ops).0) <=
              Destroys(ops) + (if RunEffect(closed, ops).1 && !closed then 1 else 0)
    ensures Destroys(ops) == 0 ==>
              CloseCount(RunEffect(closed, ops).0) == (if RunEffect(closed, ops).1 && !closed then 1 else 0)
    ensures RunEffect(closed, ops).1 && !closed ==>
              RunEffect(closed, ops).0 != [] && RunEffect(closed, ops).0[|RunEffect(closed, ops).0| - 1] == CloseCall
  {
    if ops != [] {
      var prefix := ops[..|ops| - 1];
      RunEffectCloses(closed, prefix);
      var before := RunEffect(closed, prefix);
      var step := OpEffect(before.1, ops[|ops| - 1]);
      CloseCountAppend(before.0, step.0);
    }
  }

  /**
   * Everything a connection's task does to its session: the calls of the agent's run,
   * then the task's own close, which reaches the session only if the run left the
   * wrapper open.
   */
  function TaskCalls(closed: bool, ops: seq<ConnOp>): seq<Call>
  {
    var run := RunEffect(closed, ops);
    run.0 + (if run.1 then [] else [CloseCall])
  }

  /**
   * A task on an open wrapper closes its session at least once and ends on a close; it
   * closes at most once more per `Destroy` than the one close that shuts the wrapper,
   * and exactly once when the agent never destroys.  On a closed wrapper it closes only
   * for `Destroy`.
   */
  lemma TaskCloses(closed: bool, ops: seq<ConnOp>)
    ensures !closed ==> CloseCount(TaskCalls(closed, ops)) >= 1
    ensures !closed ==> TaskCalls(closed, ops)[|TaskCalls(closed, ops)| - 1] == CloseCall
    ensures CloseCount(TaskCalls(closed, ops)) <= Destroys(ops) + (if closed then 0 else 1)
    ensures Destroys(ops) == 0 ==> CloseCount(TaskCalls(closed, ops)) == (if closed then 0 else 1)
  {
    var run := RunEffect(closed, ops);
    RunEffectCloses(closed, ops);
    CloseCountAppend(run.0, if run.1 then [] else [CloseCall]);
  }

  /** A `sync.WaitGroup` reduced to its counter; Go panics when it would go negative. */
  class WaitGroup {
    var count: nat

    constructor ()
      ensures count == 0
    {
      count := 0;
    }

    method Add(delta: int)
      requires count + delta >= 0
      modifies this
      ensures count == old(count) + delta
    {
      count := count + delta;
    }

    method Done()
      requires count >= 1
      modifies this
      ensures count == old(count) - 1
    {
      Add(-1);
    }
  }

  /**
   * The server's `NewAgent` function: it remembers every wrapper it was called on, and
   * the agent it builds for a wrapper is decided by an opaque `build`.
   */
  class AgentFactory {
    var made: seq<KcpConn>
    const build: KcpConn -> Agent

    constructor (build: KcpConn -> Agent)
      ensures made == [] && this.build == build
    {
      this.build := build;
      made := [];
    }

    method NewAgent(conn: KcpConn) returns (agent: Agent)
      modifies this
      ensures made == old(made) + [conn]
      ensures agent == build(conn)
    {
      agent := build(conn);
      made := made + [conn];
    }
  }

  /**
   * The loop's update of its delay after a temporary error: 5 ms from zero, otherwise
   * double, then cap at 1 s.  After k errors in a row it yields the closed form for k + 1.
   */
  method NextDelay(tempDelay: nat, ghost k: nat) returns (d: nat)
    requires tempDelay == Backoff(k)
    ensures d == Backoff(k + 1)
  {
    BackoffStep(k);
    if tempDelay == 0 {
      d := 5 * Millisecond;
    } else {
      d := tempDelay * 2;
    }
    if d > Second {
      d := Second;
    }
  }

  class KcpServer {
    const config: Config
    const factory: AgentFactory
    /** Tracks the accept loop's own lifetime. */
    const wgLn: WaitGroup
    /** Tracks the live connection tasks. */
    const wgConns: WaitGroup
    /** The steps `Close` has taken, in order. */
    var shutdown: seq<ShutdownStep>

    /** The two wait groups are separate counters, as `wgLn` and `wgConns` are two fields of `KCPServer`. */
    predicate Valid()
    {
      wgLn != wgConns
    }

    /** A configured server whose listener is bound. */
    constructor (config: Config, factory: AgentFactory)
      ensures Valid()
      ensures this.config == config && this.factory == factory
      ensures fresh(wgLn) && fresh(wgConns) && wgLn.count == 0 && wgConns.count == 0
      ensures shutdown == []
    {
      this.config := config;
      this.factory := factory;
      wgLn := new WaitGroup();
      wgConns := new WaitGroup();
      shutdown := [];
    }

    /** `run`: the accept loop, run while the loop-lifetime counter is raised (`defer wgLn.Done()`). */
    method Run(outcomes: seq<Outcome>) returns (trace: seq<Event>, consumed: nat, ghost countDuringLoop: nat)
      requires Valid()
      requires DistinctSessions(outcomes)
      modifies wgLn, factory, SessionsOf(outcomes)
      ensures wgLn.count == old(wgLn.count) && wgConns.count == old(wgConns.count)
      ensures countDuringLoop == old(wgLn.count) + 1
      ensures AcceptTrace(outcomes, trace, consumed)
      ensures factory.made == old(factory.made) + SpawnedConns(trace)
      ensures forall i :: 0 <= i < |trace| && trace[i].Spawn? ==>
                fresh(trace[i].conn) && !trace[i].conn.closed &&
                trace[i].conn.session.calls == old(outcomes[i].session.calls) + SetupCalls(config)
      ensures forall i :: |trace| <= i < |outcomes| && outcomes[i].Accepted? ==>
                outcomes[i].session.calls == old(outcomes[i].session.calls)
    {
      wgLn.Add(1);
      countDuringLoop := wgLn.count;
      trace, consumed := AcceptLoop(outcomes, SessionsOf(outcomes));
      wgLn.Done();
    }

    /**
     * The loop of `run` over the outcomes of successive accepts.  A temporary error
     * sleeps (5 ms from zero, otherwise twice the last delay, never more than 1 s) and
     * retries; a fatal one returns; a success resets the delay, tunes the session, wraps
     * it, asks the factory for its agent and starts the task.  `sessions` names the
     * accepted sessions the loop may touch.
     */
    method AcceptLoop(outcomes: seq<Outcome>, ghost sessions: set<UdpSession>) returns (trace: seq<Event>, consumed: nat)
      requires DistinctSessions(outcomes)
      requires forall j :: 0 <= j < |outcomes| && outcomes[j].Accepted? ==> outcomes[j].session in sessions
      modifies factory, sessions
      ensures AcceptTrace(outcomes, trace, consumed)
      ensures factory.made == old(factory.made) + SpawnedConns(trace)
      ensures forall i :: 0 <= i < |trace| && trace[i].Spawn? ==>
                fresh(trace[i].conn) && !trace[i].conn.closed &&
                trace[i].conn.session.calls == old(outcomes[i].session.calls) + SetupCalls(config)
      ensures forall i :: |trace| <= i < |outcomes| && outcomes[i].Accepted? ==>
                outcomes[i].session.calls == old(outcomes[i].session.calls)
    {
      var tempDelay := 0;
      ghost var spawned: seq<KcpConn> := [];
      trace := [];
      var i := 0;
      while i < |outcomes|
        invariant i == |trace|
        invariant TraceMatches(outcomes, trace)
        invariant tempDelay == if i == 0 then 0 else Backoff(Streak(outcomes, i - 1))
        invariant spawned == SpawnedConns(trace)
        invariant factory.made == old(factory.made) + spawned
        invariant forall j :: 0 <= j < i && trace[j].Spawn? ==>
                    fresh(trace[j].conn) && !trace[j].conn.closed &&
                    trace[j].conn.session.calls == old(outcomes[j].session.calls) + SetupCalls(config)
        invariant forall j :: i <= j < |outcomes| && outcomes[j].Accepted? ==>
                    outcomes[j].session.calls == old(outcomes[j].session.calls)
      {
        if outcomes[i].FatalError? {
          return trace, i + 1;
        }
        var event;
        event, tempDelay := HandleOutcome(outcomes, sessions, i, tempDelay);
        TraceExtend(outcomes, trace, event);
        spawned := spawned + (if event.Spawn? then [event.conn] else []);
        trace := trace + [event];
        i := i + 1;
      }
      consumed := |outcomes|;
    }

    /**
     * One pass of the loop body for a non-fatal outcome.  A temporary error computes the
     * next delay and sleeps it; a success resets the delay to zero and admits the session.
     * Only the outcome's own session is touched.
     */
    method HandleOutcome(outcomes: seq<Outcome>, ghost sessions: set<UdpSession>, i: nat, tempDelay: nat) returns (event: Event, delay: nat)
      requires i < |outcomes| && !outcomes[i].FatalError? && DistinctSessions(outcomes)
      requires tempDelay == if i == 0 then 0 else Backoff(Streak(outcomes, i - 1))
      requires forall j :: 0 <= j < |outcomes| && outcomes[j].Accepted? ==> outcomes[j].session in sessions
      modifies factory, sessions
      ensures EventMatches(outcomes, i, event)
      ensures delay == Backoff(Streak(outcomes, i))
      ensures factory.made == old(factory.made) + (if event.Spawn? then [event.conn] else [])
      ensures event.Spawn? ==>
                fresh(event.conn) && !event.conn.closed &&
                event.conn.session.calls == old(outcomes[i].session.calls) + SetupCalls(config)
      ensures forall j :: 0 <= j < |outcomes| && j != i && outcomes[j].Accepted? ==>
                outcomes[j].session.calls == old(outcomes[j].session.calls)
    {
      StreakNext(outcomes, i);
      if outcomes[i].TemporaryError? {
        delay := NextDelay(tempDelay, if i == 0 then 0 else Streak(outcomes, i - 1));
        event := Sleep(delay);
      } else {
        delay := 0;
        var conn, _ := Admit(outcomes[i].session);
        event := Spawn(conn);
      }
    }

    /**
     * The success path: tune the session, wrap it in a fresh, open connection, and call
     * the factory once on that wrapper.
     */
    method Admit(s: UdpSession) returns (conn: KcpConn, agent: Agent)
      modifies s, factory
      ensures fresh(conn)
      ensures conn.session == s && !conn.closed
      ensures s.calls == old(s.calls) + SetupCalls(config)
      ensures factory.made == old(factory.made) + [conn]
      ensures agent == factory.build(conn)
    {
      s.SetMtu(config.mtu);
      s.SetNoDelay(config.noDelay, config.interval, config.resend, config.nc);
      s.SetAckNoDelay(true);
      conn := new KcpConn(s);
      agent := factory.NewAgent(conn);
    }

    /**
     * The task spawned for one connection: count it in, let the agent run, close the
     * wrapper, notify the agent, count it out.  The session sees exactly the calls the
     * agent's run makes, followed by the cleanup close when the run left the wrapper open.
     */
    method ServeConnection(conn: KcpConn, agent: Agent)
      returns (events: seq<TaskEvent>, ghost countDuringRun: nat, ghost callsAtOnClose: seq<Call>, ghost countAtOnClose: nat)
      requires Valid()
      modifies wgConns, conn, conn.session
      ensures events == TaskOrder
      ensures countDuringRun == old(wgConns.count) + 1
      ensures callsAtOnClose == conn.session.calls
      ensures countAtOnClose == old(wgConns.count) + 1
      ensures wgConns.count == old(wgConns.count) && wgLn.count == old(wgLn.count)
      ensures conn.closed
      ensures conn.session.calls == old(conn.session.calls) + TaskCalls(old(conn.closed), agent.run)
      ensures !old(conn.closed) ==> CloseCount(conn.session.calls) > CloseCount(old(conn.session.calls))
      ensures CloseCount(conn.session.calls) <=
                CloseCount(old(conn.session.calls)) + Destroys(agent.run) + (if old(conn.closed) then 0 else 1)
      ensures Destroys(agent.run) == 0 ==>
                CloseCount(conn.session.calls) == CloseCount(old(conn.session.calls)) + (if old(conn.closed) then 0 else 1)
    {
      ghost var wasClosed := conn.closed;
      wgConns.Add(1);
      events := [ConnsAdd, AgentRun];
      countDuringRun := wgConns.count;
      RunAgent(conn, agent);
      var _ := conn.Close();
      callsAtOnClose := conn.session.calls;
      countAtOnClose := wgConns.count;
      events := events + [ConnClose, AgentOnClose];
      wgConns.Done();
      events := events + [ConnsDone];
      TaskCloses(wasClosed, agent.run);
      CloseCountAppend(old(conn.session.calls), TaskCalls(wasClosed, agent.run));
    }

    /** Close the listener, then wait for the accept loop, then for the connections. */
    method Close()
      modifies this
      ensures shutdown == old(shutdown) + [ListenerClose, LoopWait, ConnsWait]
    {
      shutdown := shutdown + [ListenerClose];
      shutdown := shutdown + [LoopWait];
      shutdown := shutdown + [ConnsWait];
    }
  }
}
