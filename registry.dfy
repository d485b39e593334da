/**
 * The service registry as the orchestrator uses it: a map from service name
 * to service instance, a separate map from connection name to connection
 * handle, and a one-way initialized flag.
 */
module Registry {
  import opened Wrappers
  import opened Resources

  /**
   * A service instance. `Built` is an object made by a service class's
   * constructor from the connection handles and the registered services it
   * was given, in argument order; `Framework` is a module-level agent
   * framework object that is registered as it is.
   */
  datatype Instance =
    | Built(name: string, connections: seq<Handle>, dependencies: seq<Instance>)
    | Framework(name: string)

  /** Message of the error `get_service` raises for a name that is not registered. */
  function NotFoundMessage(name: string): string {
    "Service not found: " + name
  }

  /** `get_service` on a map of registered services. */
  function LookupService(services: map<string, Instance>, name: string): (r: Result<Instance, string>)
    ensures r.Success? <==> name in services
    ensures r.Success? ==> r.value == services[name]
    ensures r.Failure? ==> r.error == NotFoundMessage(name)
  {
    if name in services then Success(services[name]) else Failure(NotFoundMessage(name))
  }

  /**
   * `get_service` called for each name in turn; the first name that is not
   * registered ends the sequence with its not-found error (the message names
   * it, and every name before it is registered).
   */
  function LookupAll(services: map<string, Instance>, names: seq<string>): (r: Result<seq<Instance>, string>)
    ensures r.Success? <==> forall n :: n in names ==> n in services
    ensures r.Success? ==> |r.value| == |names|
    ensures r.Success? ==> forall i :: 0 <= i < |names| ==> r.value[i] == services[names[i]]
    ensures r.Failure? ==>
      exists k :: 0 <= k < |names| && names[k] !in services &&
        (forall j :: 0 <= j < k ==> names[j] in services) && r.error == NotFoundMessage(names[k])
  {
    if names == [] then Success([])
    else
      match LookupService(services, names[0])
      case Failure(e) => Failure(e)
      case Success(first) =>
        match LookupAll(services, names[1..])
        case Failure(e) => Failure(e)
        case Success(rest) => Success([first] + rest)
  }

  class ServiceRegistry {
    var services: map<string, Instance>
    var connections: map<string, Handle>
    var initialized: bool

    constructor ()
      ensures services == map[] && connections == map[] && !initialized
    {
      services := map[];
      connections := map[];
      initialized := false;
    }

    /** Stores (or overwrites) the instance for `name`. */
    method RegisterService(name: string, instance: Instance)
      modifies this
      ensures services == old(services)[name := instance]
      ensures connections == old(connections) && initialized == old(initialized)
    {
      services := services[name := instance];
    }

    /** Stores (or overwrites) the handle for connection `name`. */
    method RegisterConnection(name: string, handle: Handle)
      modifies this
      ensures connections == old(connections)[name := handle]
      ensures services == old(services) && initialized == old(initialized)
    {
      connections := connections[name := handle];
    }

    method MarkInitialized()
      modifies this
      ensures initialized
      ensures services == old(services) && connections == old(connections)
    {
      initialized := true;
    }
  }
}
