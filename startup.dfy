/**
 * The meaning of one startup run, as functions: what a single construction
 * attempt yields, and what the loop over a name sequence reports and leaves
 * registered.
 */
module Startup {
  import opened Wrappers
  import opened Resources
  import opened Registry
  import opened Catalog

  /**
   * What the foreign code does: the message raised by a service class's
   * constructor, per name (absent: the constructor returns), and the message
   * raised by the agent-status loading step (None: it completes).
   */
  datatype Env = Env(constructorError: map<string, string>, readinessError: Option<string>)

  /** The outcome string recorded for a service that came up. */
  const Initialized := "initialized"

  /** The outcome string recorded for a service whose attempt raised `msg`. */
  function Failed(msg: string): (s: string)
    ensures s != Initialized
  {
    assert ("failed: " + msg)[0] == 'f';
    "failed: " + msg
  }

  /** Message of the error raised for a name with no construction branch. */
  function UnknownServiceMessage(name: string): string {
    "Unknown service: " + name
  }

  /** One entry of the run report (an insertion-ordered dictionary). */
  datatype Entry = Entry(name: string, outcome: string)

  type Report = seq<Entry>

  /** The report and the registered services at the end of a loop. */
  datatype LoopState = LoopState(report: Report, services: map<string, Instance>)

  /**
   * One call of the construction dispatch for `name`, given the provider's
   * established handles `conns` and the services registered so far: the
   * instance that gets registered, or the message of the exception raised.
   * A name without a branch raises; a success is registered under its own
   * name.
   */
  function Attempt(env: Env, conns: Option<Handles>, services: map<string, Instance>, name: string): (r: Result<Instance, string>)
    ensures name !in FactoryTable ==> r == Failure(UnknownServiceMessage(name))
    ensures r.Success? ==> r.value.name == name
  {
    if name !in FactoryTable then Failure(UnknownServiceMessage(name))
    else
      match FactoryTable[name]
      case Existing => Success(Framework(name))
      case Construct(kinds, lookups, loadsState) =>
        match FetchConnections(conns, kinds)
        case Failure(e) => Failure(e)
        case Success(handles) =>
          match LookupAll(services, lookups)
          case Failure(e) => Failure(e)
          case Success(dependencies) =>
            if name in env.constructorError then Failure(env.constructorError[name])
            else if loadsState && env.readinessError.Some? then Failure(env.readinessError.value)
            else Success(Built(name, handles, dependencies))
  }

  /**
   * A successful attempt has found every service it looks up and is wired
   * with exactly those registered instances, its connection handles are the
   * provider's handles of the kinds its branch asks for, and
   * `agent_management` succeeds only if its readiness step completes.
   */
  lemma AttemptSuccess(env: Env, conns: Option<Handles>, services: map<string, Instance>, name: string)
    requires Attempt(env, conns, services, name).Success?
    ensures var r := Attempt(env, conns, services, name);
      (forall d :: d in Lookups(name) ==> d in services) &&
      (name == AgentManagement ==> env.readinessError.None?) &&
      (r.value.Built? ==>
        name in FactoryTable && FactoryTable[name].Construct? &&
        |r.value.dependencies| == |Lookups(name)| &&
        (forall i :: 0 <= i < |Lookups(name)| ==> r.value.dependencies[i] == services[Lookups(name)[i]]) &&
        |r.value.connections| == |FactoryTable[name].connections| &&
        forall i :: 0 <= i < |r.value.connections| ==> r.value.connections[i] == conns.value.Get(FactoryTable[name].connections[i]))
  {
  }

  /**
   * With the connections established and every looked-up service
   * registered, the recorded outcome is the one the foreign code decides.
   */
  lemma AttemptWithInputsAvailable(env: Env, h: Handles, services: map<string, Instance>, name: string)
    requires forall d :: d in Lookups(name) ==> d in services
    ensures OutcomeOf(Attempt(env, Some(h), services, name)) == ExpectedOutcome(env, name)
  {
  }

  /** The outcome string the report records for an attempt. */
  function OutcomeOf(r: Result<Instance, string>): string {
    match r
    case Success(_) => Initialized
    case Failure(msg) => Failed(msg)
  }

  /**
   * Reference outcome: what is recorded for `name` when every connection
   * handle and every service it looks up is available.
   */
  function ExpectedOutcome(env: Env, name: string): string {
    if name !in FactoryTable then Failed(UnknownServiceMessage(name))
    else
      match FactoryTable[name]
      case Existing => Initialized
      case Construct(_, _, loadsState) =>
        if name in env.constructorError then Failed(env.constructorError[name])
        else if loadsState && env.readinessError.Some? then Failed(env.readinessError.value)
        else Initialized
  }

  /** A failure on a critical name ends the run after its entry. */
  predicate StopsRun(e: Entry) {
    e.name in CriticalNames && e.outcome != Initialized
  }

  /**
   * Reference report: the outcomes decided by the foreign code alone, for
   * the names of `order` up to and including the first one that stops the
   * run.
   */
  function ExpectedReport(env: Env, order: seq<string>): (r: Report)
    ensures |r| <= |order|
    ensures forall i :: 0 <= i < |r| ==> r[i] == Entry(order[i], ExpectedOutcome(env, order[i]))
    ensures forall i :: 0 <= i < |r| - 1 ==> !StopsRun(r[i])
    ensures |r| < |order| ==> r != [] && StopsRun(r[|r| - 1])
  {
    if order == [] then []
    else
      var e := Entry(order[0], ExpectedOutcome(env, order[0]));
      if StopsRun(e) then [e] else [e] + ExpectedReport(env, order[1..])
  }

  function Prepend(e: Entry, st: LoopState): LoopState {
    LoopState([e] + st.report, st.services)
  }

  /** A loop state whose report continues the entries `done`. */
  function After(done: Report, st: LoopState): LoopState {
    LoopState(done + st.report, st.services)
  }

  /**
   * The loop over `order`: attempt each name in turn, register and record
   * the successes, record the failures, and stop right after a failure of a
   * critical name.
   */
  function RunLoop(env: Env, conns: Option<Handles>, order: seq<string>, services: map<string, Instance>): (st: LoopState)
    ensures |st.report| <= |order|
    decreases |order|
  {
    if order == [] then LoopState([], services)
    else
      var name := order[0];
      match Attempt(env, conns, services, name)
      case Success(instance) =>
        Prepend(Entry(name, Initialized), RunLoop(env, conns, order[1..], services[name := instance]))
      case Failure(msg) =>
        if name in CriticalNames then LoopState([Entry(name, Failed(msg))], services)
        else Prepend(Entry(name, Failed(msg)), RunLoop(env, conns, order[1..], services))
  }

  /**
   * One iteration of the loop over `order` at position `i`, with the entries
   * `done` recorded so far: the outcome of attempting `order[i]` decides
   * whether the run goes on with the next position and the entry appended,
   * or ends with that entry.
   */
  lemma RunLoopAdvance(env: Env, conns: Option<Handles>, order: seq<string>, i: nat, done: Report, services: map<string, Instance>)
    requires i < |order|
    ensures var a := Attempt(env, conns, services, order[i]);
      var now := After(done, RunLoop(env, conns, order[i..], services));
      (a.Success? ==>
        now == After(done + [Entry(order[i], Initialized)], RunLoop(env, conns, order[i + 1..], services[order[i] := a.value]))) &&
      (a.Failure? && order[i] in CriticalNames ==>
        now == LoopState(done + [Entry(order[i], Failed(a.error))], services)) &&
      (a.Failure? && order[i] !in CriticalNames ==>
        now == After(done + [Entry(order[i], Failed(a.error))], RunLoop(env, conns, order[i + 1..], services)))
  {
    assert order[i..][0] == order[i] && order[i..][1..] == order[i + 1..];
    var a := Attempt(env, conns, services, order[i]);
    match a
    case Success(instance) =>
      var rest := RunLoop(env, conns, order[i + 1..], services[order[i] := instance]);
      assert done + [Entry(order[i], Initialized)] + rest.report == done + ([Entry(order[i], Initialized)] + rest.report);
    case Failure(msg) =>
      var rest := RunLoop(env, conns, order[i + 1..], services);
      assert done + [Entry(order[i], Failed(msg))] + rest.report == done + ([Entry(order[i], Failed(msg))] + rest.report);
  }

  const SupabaseConnection := "supabase"
  const RedisConnection := "redis"
  const AsyncRedisConnection := "async_redis"
  const DatabaseEngineConnection := "database_engine"
  const SessionFactoryConnection := "session_factory"

  const StandardConnectionNames: set<string> :=
    {SupabaseConnection, RedisConnection, AsyncRedisConnection, DatabaseEngineConnection, SessionFactoryConnection}

  /**
   * The connection map after the five standard handles are registered: each
   * standard name holds the provider's handle of its kind, and every other
   * connection is as it was.
   */
  function WithStandardConnections(m: map<string, Handle>, h: Handles): (r: map<string, Handle>)
    ensures r.Keys == m.Keys + StandardConnectionNames
    ensures r[SupabaseConnection] == h.supabase && r[RedisConnection] == h.redis
    ensures r[AsyncRedisConnection] == h.asyncRedis && r[DatabaseEngineConnection] == h.engine
    ensures r[SessionFactoryConnection] == h.sessionFactory
    ensures forall k :: k in m && k !in StandardConnectionNames ==> r[k] == m[k]
  {
    m[SupabaseConnection := h.supabase][RedisConnection := h.redis][AsyncRedisConnection := h.asyncRedis]
     [DatabaseEngineConnection := h.engine][SessionFactoryConnection := h.sessionFactory]
  }
}
