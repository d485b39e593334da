/**
 * The startup orchestrator: the declared order, the construction dispatch
 * for one name, the connection registration, and the run over all names.
 */
module Orchestrator {
  import opened Wrappers
  import opened Resources
  import opened Registry
  import opened Catalog
  import opened Startup

  class ServiceInitializer {
    /** The order in which the run attempts the services. */
    const initializationOrder: seq<string>

    constructor ()
      ensures initializationOrder == InitializationOrder
    {
      initializationOrder := InitializationOrder;
    }

    /**
     * Builds and registers the service `name`. The instance is registered
     * under `name` only after every fetch, its constructor and (for
     * `agent_management`) its readiness step have returned; on a failure the
     * registry is left as it was.
     */
    method InitializeService(env: Env, db: ConnectionManager, reg: ServiceRegistry, name: string) returns (r: Result<string, string>)
      modifies reg
      ensures match Attempt(env, db.View(), old(reg.services), name)
        case Success(instance) => r == Success(Initialized) && reg.services == old(reg.services)[name := instance]
        case Failure(msg) => r == Failure(msg) && reg.services == old(reg.services)
      ensures reg.connections == old(reg.connections) && reg.initialized == old(reg.initialized)
    {
      if name !in FactoryTable {
        return Failure(UnknownServiceMessage(name));
      }
      var instance: Instance;
      match FactoryTable[name] {
        case Existing =>
          instance := Framework(name);
        case Construct(kinds, lookups, loadsState) =>
          var handles := FetchConnections(db.View(), kinds);
          if handles.Failure? {
            return Failure(handles.error);
          }
          var dependencies := LookupAll(reg.services, lookups);
          if dependencies.Failure? {
            return Failure(dependencies.error);
          }
          if name in env.constructorError {
            return Failure(env.constructorError[name]);
          }
          instance := Built(name, handles.value, dependencies.value);
          if loadsState && env.readinessError.Some? {
            return Failure(env.readinessError.value);
          }
      }
      reg.RegisterService(name, instance);
      return Success(Initialized);
    }

    /**
     * Registers the provider's five handles under their standard connection
     * names. Before the provider is initialized the first accessor raises and
     * nothing is registered.
     */
    method RegisterConnections(db: ConnectionManager, reg: ServiceRegistry) returns (r: Outcome<string>)
      modifies reg
      ensures db.initialized ==> r == Pass && reg.connections == WithStandardConnections(old(reg.connections), db.handles)
      ensures !db.initialized ==> r == Fail(NotInitializedMessage) && reg.connections == old(reg.connections)
      ensures reg.services == old(reg.services) && reg.initialized == old(reg.initialized)
    {
      if !db.IsInitialized() {
        return Fail(NotInitializedMessage);
      }
      reg.RegisterConnection(SupabaseConnection, db.Connection(SupabaseClient).value);
      reg.RegisterConnection(RedisConnection, db.Connection(RedisClient).value);
      reg.RegisterConnection(AsyncRedisConnection, db.Connection(AsyncRedisClient).value);
      reg.RegisterConnection(DatabaseEngineConnection, db.Connection(DatabaseEngine).value);
      reg.RegisterConnection(SessionFactoryConnection, db.Connection(SessionFactory).value);
      return Pass;
    }

    /**
     * The whole startup run. If the provider cannot be initialized the run
     * raises before any attempt and changes nothing in the registry.
     * Otherwise its report and the services it registers are those of
     * `RunLoop` over the declared order, and, whether the loop completed or
     * stopped at a critical failure, the five standard connections are
     * registered and the registry is marked initialized.
     */
    method InitializeAllServices(env: Env, db: ConnectionManager, reg: ServiceRegistry) returns (r: Result<Report, string>)
      modifies db, reg
      ensures !old(db.initialized) && db.reachable.Failure? ==>
        r == Failure(db.reachable.error) && !db.initialized && db.handles == old(db.handles) &&
        reg.services == old(reg.services) && reg.connections == old(reg.connections) &&
        reg.initialized == old(reg.initialized)
      ensures old(db.initialized) || db.reachable.Success? ==>
        db.initialized &&
        db.handles == (if old(db.initialized) then old(db.handles) else db.reachable.value) &&
        var st := RunLoop(env, Some(db.handles), initializationOrder, old(reg.services));
        r == Success(st.report) && reg.services == st.services &&
        reg.connections == WithStandardConnections(old(reg.connections), db.handles) &&
        reg.initialized
    {
      if !db.IsInitialized() {
        var ready := db.InitializeConnections();
        if ready.Fail? {
          return Failure(ready.error);
        }
      }
      var conns := db.View();
      assert db.initialized && conns == Some(db.handles);
      assert db.handles == if old(db.initialized) then old(db.handles) else db.reachable.value;
      ghost var final := RunLoop(env, conns, initializationOrder, old(reg.services));
      var results: Report := [];
      var i := 0;
      while i < |initializationOrder|
        invariant 0 <= i <= |initializationOrder|
        invariant db.View() == conns
        invariant final == After(results, RunLoop(env, conns, initializationOrder[i..], reg.services))
        invariant reg.connections == old(reg.connections) && reg.initialized == old(reg.initialized)
      {
        var name := initializationOrder[i];
        RunLoopAdvance(env, conns, initializationOrder, i, results, reg.services);
        var outcome := InitializeService(env, db, reg, name);
        match outcome {
          case Success(value) =>
            results := results + [Entry(name, value)];
          case Failure(msg) =>
            results := results + [Entry(name, Failed(msg))];
            if name in CriticalNames {
              break;
            }
        }
        i := i + 1;
      }
      assert results == final.report && reg.services == final.services;
      var registered := RegisterConnections(db, reg);
      assert reg.connections == WithStandardConnections(old(reg.connections), db.handles);
      reg.MarkInitialized();
      return Success(results);
    }
  }
}
