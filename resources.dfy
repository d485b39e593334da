/**
 * The connection provider (`db_manager`) as the orchestrator sees it: an
 * initialized flag, an initialization operation and five handle accessors.
 * The real database and cache connections are not part of this model.
 */
module Resources {
  import opened Wrappers

  /** An opaque connection handle. */
  datatype Handle = Handle(id: nat)

  /** The five kinds of connection the provider hands out. */
  datatype ConnKind = SupabaseClient | RedisClient | AsyncRedisClient | DatabaseEngine | SessionFactory

  /** The handles established by a successful initialization. */
  datatype Handles = Handles(supabase: Handle, redis: Handle, asyncRedis: Handle, engine: Handle, sessionFactory: Handle)
  {
    function Get(kind: ConnKind): Handle {
      match kind
      case SupabaseClient => supabase
      case RedisClient => redis
      case AsyncRedisClient => asyncRedis
      case DatabaseEngine => engine
      case SessionFactory => sessionFactory
    }
  }

  /** Message of the error an accessor raises before the connections exist. */
  const NotInitializedMessage := "database connections are not initialized"

  /**
   * What an accessor returns when the provider's established handles are
   * `conns` (`None` while the provider is not initialized).
   */
  function Lookup(conns: Option<Handles>, kind: ConnKind): Result<Handle, string> {
    match conns
    case Some(h) => Success(h.Get(kind))
    case None => Failure(NotInitializedMessage)
  }

  /**
   * The accessors called one after another, in the order given; the first
   * one that raises ends the sequence.
   */
  function FetchConnections(conns: Option<Handles>, kinds: seq<ConnKind>): (r: Result<seq<Handle>, string>)
    ensures r.Success? <==> conns.Some? || kinds == []
    ensures r.Success? ==> |r.value| == |kinds|
    ensures r.Success? ==> forall i :: 0 <= i < |kinds| ==> r.value[i] == conns.value.Get(kinds[i])
    ensures r.Failure? ==> r.error == NotInitializedMessage
  {
    if kinds == [] then Success([])
    else
      match Lookup(conns, kinds[0])
      case Failure(e) => Failure(e)
      case Success(first) =>
        match FetchConnections(conns, kinds[1..])
        case Failure(e) => Failure(e)
        case Success(rest) => Success([first] + rest)
  }

  class ConnectionManager {
    var initialized: bool
    var handles: Handles
    /** What reaching the external resources yields: their handles, or the connection error. */
    const reachable: Result<Handles, string>

    constructor (reachable: Result<Handles, string>)
      ensures !initialized && this.reachable == reachable
    {
      initialized := false;
      handles := Handles(Handle(0), Handle(0), Handle(0), Handle(0), Handle(0));
      this.reachable := reachable;
    }

    /** The provider is initialized exactly when every accessor returns a handle. */
    function IsInitialized(): (b: bool)
      reads this
      ensures b <==> forall kind :: Connection(kind).Success?
    {
      assert Connection(SessionFactory).Success? ==> initialized;
      initialized
    }

    /** The established handles, if any. */
    function View(): (v: Option<Handles>)
      reads this
      ensures v.Some? <==> initialized
      ensures v.Some? ==> v.value == handles
    {
      if initialized then Some(handles) else None
    }

    /** The accessor for one kind of connection (`get_redis_client` and its siblings). */
    function Connection(kind: ConnKind): Result<Handle, string>
      reads this
    {
      Lookup(View(), kind)
    }

    /**
     * Establishes the connections. Once initialized the provider is left as it
     * is; a failure to reach the resources leaves it uninitialized.
     */
    method InitializeConnections() returns (r: Outcome<string>)
      modifies this
      ensures old(initialized) ==> r == Pass && initialized && handles == old(handles)
      ensures !old(initialized) && reachable.Success? ==> r == Pass && initialized && handles == reachable.value
      ensures !old(initialized) && reachable.Failure? ==> r == Fail(reachable.error) && !initialized && handles == old(handles)
    {
      if initialized {
        return Pass;
      }
      match reachable
      case Success(h) =>
        handles := h;
        initialized := true;
        r := Pass;
      case Failure(e) =>
        r := Fail(e);
    }
  }
}
