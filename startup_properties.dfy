/** What every startup run guarantees, proved about the functions of `Startup`. */
module StartupProperties {
  import opened Wrappers
  import opened Resources
  import opened Registry
  import opened Catalog
  import opened Startup

  /** The names whose entries record a success. */
  function Succeeded(report: Report): set<string> {
    set e | e in report && e.outcome == Initialized :: e.name
  }

  lemma SucceededPrepend(e: Entry, rest: Report)
    ensures Succeeded([e] + rest) == (if e.outcome == Initialized then {e.name} else {}) + Succeeded(rest)
  {
    assert forall x :: x in [e] + rest <==> x == e || x in rest;
  }

  /**
   * The run attempts names strictly in the given order: the report's names
   * are a prefix of `order`, and a non-empty order yields a non-empty report.
   */
  lemma {:induction false} ReportFollowsOrder(env: Env, conns: Option<Handles>, order: seq<string>, services: map<string, Instance>)
    ensures var st := RunLoop(env, conns, order, services);
      |st.report| <= |order| &&
      (order != [] ==> st.report != []) &&
      forall i :: 0 <= i < |st.report| ==> st.report[i].name == order[i]
    decreases |order|
  {
    if order != [] {
      match Attempt(env, conns, services, order[0])
      case Success(instance) =>
        ReportFollowsOrder(env, conns, order[1..], services[order[0] := instance]);
      case Failure(_) =>
        if order[0] !in CriticalNames {
          ReportFollowsOrder(env, conns, order[1..], services);
        }
    }
  }

  /**
   * The run stops early only right after a critical failure, and no entry
   * but the last is a critical failure.
   */
  lemma {:induction false} StopsOnlyAtCriticalFailure(env: Env, conns: Option<Handles>, order: seq<string>, services: map<string, Instance>)
    ensures var st := RunLoop(env, conns, order, services);
      (forall i :: 0 <= i < |st.report| - 1 ==> !StopsRun(st.report[i])) &&
      (|st.report| < |order| ==> st.report != [] && StopsRun(st.report[|st.report| - 1]))
    decreases |order|
  {
    if order != [] {
      var name := order[0];
      match Attempt(env, conns, services, name)
      case Success(instance) =>
        var rest := RunLoop(env, conns, order[1..], services[name := instance]);
        StopsOnlyAtCriticalFailure(env, conns, order[1..], services[name := instance]);
        ReportFollowsOrder(env, conns, order[1..], services[name := instance]);
        assert order[1..] != [] ==> rest.report != [];
      case Failure(msg) =>
        if name !in CriticalNames {
          var rest := RunLoop(env, conns, order[1..], services);
          StopsOnlyAtCriticalFailure(env, conns, order[1..], services);
          ReportFollowsOrder(env, conns, order[1..], services);
          assert order[1..] != [] ==> rest.report != [];
        }
    }
  }

  /**
   * After a non-critical name is recorded, the next name in the order is
   * still attempted.
   */
  lemma NonCriticalFailureContinues(env: Env, conns: Option<Handles>, order: seq<string>, services: map<string, Instance>, i: nat)
    requires var st := RunLoop(env, conns, order, services); i < |st.report| && st.report[i].name !in CriticalNames
    requires i + 1 < |order|
    ensures i + 1 < |RunLoop(env, conns, order, services).report|
  {
    StopsOnlyAtCriticalFailure(env, conns, order, services);
  }

  /**
   * A service enters the registry only by succeeding, under its own name;
   * a name whose attempt failed is left as it was before the run.
   */
  lemma {:induction false} RegistryReflectsSuccesses(env: Env, conns: Option<Handles>, order: seq<string>, services: map<string, Instance>)
    ensures var st := RunLoop(env, conns, order, services);
      st.services.Keys == services.Keys + Succeeded(st.report) &&
      (forall n :: n in services && n !in Succeeded(st.report) ==> st.services[n] == services[n]) &&
      (forall n :: n in Succeeded(st.report) ==> st.services[n].name == n)
    decreases |order|
  {
    if order != [] {
      var name := order[0];
      match Attempt(env, conns, services, name)
      case Success(instance) =>
        var rest := RunLoop(env, conns, order[1..], services[name := instance]);
        RegistryReflectsSuccesses(env, conns, order[1..], services[name := instance]);
        SucceededPrepend(Entry(name, Initialized), rest.report);
      case Failure(msg) =>
        if name in CriticalNames {
          SucceededPrepend(Entry(name, Failed(msg)), []);
        } else {
          var rest := RunLoop(env, conns, order[1..], services);
          RegistryReflectsSuccesses(env, conns, order[1..], services);
          SucceededPrepend(Entry(name, Failed(msg)), rest.report);
        }
    }
  }

  /**
   * Every service a name looks up (according to `lookups`) is registered
   * before the run starts or is a critical name earlier in the order.
   */
  ghost predicate LookupsAvailable(lookups: string -> seq<string>, order: seq<string>, services: map<string, Instance>) {
    forall i, d :: 0 <= i < |order| && d in lookups(order[i]) ==>
      d in services || (d in CriticalNames && exists j :: 0 <= j < i && order[j] == d)
  }

  /**
   * Availability carries over to the rest of the order once the first name
   * is done: either it was registered, or it is not critical and so nothing
   * later looks it up as a critical name.
   */
  lemma LookupsAvailableTail(lookups: string -> seq<string>, order: seq<string>, services: map<string, Instance>, next: map<string, Instance>)
    requires order != [] && LookupsAvailable(lookups, order, services)
    requires services.Keys <= next.Keys
    requires order[0] in next || order[0] !in CriticalNames
    ensures LookupsAvailable(lookups, order[1..], next)
  {
    forall i, d | 0 <= i < |order[1..]| && d in lookups(order[1..][i])
      ensures d in next || (d in CriticalNames && exists j :: 0 <= j < i && order[1..][j] == d)
    {
      assert order[1..][i] == order[i + 1];
      if d !in next {
        var j :| 0 <= j < i + 1 && order[j] == d;
        assert order[1..][j - 1] == d;
      }
    }
  }

  /**
   * With the connections established and the lookups available, no
   * dependency lookup fails: the report is the reference report.
   */
  lemma {:induction false} ReportIsExpected(env: Env, h: Handles, order: seq<string>, services: map<string, Instance>)
    requires LookupsAvailable(Lookups, order, services)
    ensures RunLoop(env, Some(h), order, services).report == ExpectedReport(env, order)
    decreases |order|
  {
    if order != [] {
      var name := order[0];
      assert forall d :: d in Lookups(name) ==> d in services by {
        assert forall d :: d in Lookups(name) ==> d in Lookups(order[0]);
      }
      var attempt := Attempt(env, Some(h), services, name);
      AttemptWithInputsAvailable(env, h, services, name);
      match attempt
      case Success(instance) =>
        LookupsAvailableTail(Lookups, order, services, services[name := instance]);
        ReportIsExpected(env, h, order[1..], services[name := instance]);
      case Failure(msg) =>
        if name !in CriticalNames {
          LookupsAvailableTail(Lookups, order, services, services);
          ReportIsExpected(env, h, order[1..], services);
        }
    }
  }

  /**
   * Every attempt the run makes finds each service it looks up already
   * registered, so no attempt fails with a not-found error.
   */
  ghost predicate LookupsFound(env: Env, conns: Option<Handles>, order: seq<string>, services: map<string, Instance>)
    decreases |order|
  {
    order == [] ||
    ((forall d :: d in Lookups(order[0]) ==> d in services) &&
     match Attempt(env, conns, services, order[0])
     case Success(instance) => LookupsFound(env, conns, order[1..], services[order[0] := instance])
     case Failure(_) => order[0] in CriticalNames || LookupsFound(env, conns, order[1..], services))
  }

  lemma {:induction false} AvailableLookupsAreFound(env: Env, conns: Option<Handles>, order: seq<string>, services: map<string, Instance>)
    requires LookupsAvailable(Lookups, order, services)
    ensures LookupsFound(env, conns, order, services)
    decreases |order|
  {
    if order != [] {
      var name := order[0];
      assert forall d :: d in Lookups(name) ==> d in services by {
        assert forall d :: d in Lookups(name) ==> d in Lookups(order[0]);
      }
      match Attempt(env, conns, services, name)
      case Success(instance) =>
        LookupsAvailableTail(Lookups, order, services, services[name := instance]);
        AvailableLookupsAreFound(env, conns, order[1..], services[name := instance]);
      case Failure(_) =>
        if name !in CriticalNames {
          LookupsAvailableTail(Lookups, order, services, services);
          AvailableLookupsAreFound(env, conns, order[1..], services);
        }
    }
  }

  /** The design invariant makes every lookup succeed in a run over the declared order. */
  lemma StartupLookupsFound(env: Env, conns: Option<Handles>, services: map<string, Instance>)
    ensures LookupsFound(env, conns, InitializationOrder, services)
  {
    forall i, d | 0 <= i < |InitializationOrder| && d in Lookups(InitializationOrder[i])
      ensures d in services || (d in CriticalNames && exists j :: 0 <= j < i && InitializationOrder[j] == d)
    {
      var j := LookupPrecedes(i, d);
    }
    AvailableLookupsAreFound(env, conns, InitializationOrder, services);
  }

  /**
   * The startup report over the declared order: it is fixed by the foreign
   * code alone, whatever was registered before, and every name it holds
   * appears once.
   */
  lemma StartupReport(env: Env, h: Handles, services: map<string, Instance>)
    ensures var st := RunLoop(env, Some(h), InitializationOrder, services);
      st.report == ExpectedReport(env, InitializationOrder) &&
      forall i, j :: 0 <= i < j < |st.report| ==> st.report[i].name != st.report[j].name
  {
    forall i, d | 0 <= i < |InitializationOrder| && d in Lookups(InitializationOrder[i])
      ensures d in services || (d in CriticalNames && exists j :: 0 <= j < i && InitializationOrder[j] == d)
    {
      var j := LookupPrecedes(i, d);
    }
    ReportIsExpected(env, h, InitializationOrder, services);
    OrderIsDistinct();
  }

  /** A name with a branch comes up when its constructor and readiness step return. */
  lemma ExpectedSuccess(env: Env, name: string)
    requires name in FactoryTable && name !in env.constructorError && env.readinessError.None?
    ensures ExpectedOutcome(env, name) == Initialized
  {
  }

  /** When every construction succeeds, all eighteen names come up and are registered. */
  lemma AllServicesSucceed(env: Env, h: Handles, services: map<string, Instance>)
    requires forall n :: n in InitializationOrder ==> n !in env.constructorError
    requires env.readinessError.None?
    ensures var st := RunLoop(env, Some(h), InitializationOrder, services);
      |st.report| == 18 &&
      (forall i :: 0 <= i < 18 ==> st.report[i] == Entry(InitializationOrder[i], Initialized)) &&
      forall n :: n in InitializationOrder ==> n in st.services && st.services[n].name == n
  {
    var st := RunLoop(env, Some(h), InitializationOrder, services);
    var r := st.report;
    StartupReport(env, h, services);
    OrderHasBranches();
    forall i | 0 <= i < |InitializationOrder|
      ensures ExpectedOutcome(env, InitializationOrder[i]) == Initialized
    {
      assert InitializationOrder[i] in InitializationOrder;
      ExpectedSuccess(env, InitializationOrder[i]);
    }
    assert |r| == 18;
    RegistryReflectsSuccesses(env, Some(h), InitializationOrder, services);
    forall n | n in InitializationOrder
      ensures n in Succeeded(r)
    {
      var i :| 0 <= i < 18 && InitializationOrder[i] == n;
      assert r[i] in r;
    }
  }

  /**
   * When a critical name fails and every earlier critical name came up, the
   * report ends with that name's failure, and the earlier entries keep the
   * outcomes recorded for them.
   */
  lemma CriticalFailureStopsRun(env: Env, h: Handles, services: map<string, Instance>, k: nat)
    requires k < |InitializationOrder|
    requires InitializationOrder[k] in CriticalNames
    requires ExpectedOutcome(env, InitializationOrder[k]) != Initialized
    requires forall j :: 0 <= j < k && InitializationOrder[j] in CriticalNames ==>
      ExpectedOutcome(env, InitializationOrder[j]) == Initialized
    ensures var st := RunLoop(env, Some(h), InitializationOrder, services);
      |st.report| == k + 1 &&
      st.report[k] == Entry(InitializationOrder[k], ExpectedOutcome(env, InitializationOrder[k])) &&
      forall j :: 0 <= j < k ==> st.report[j] == Entry(InitializationOrder[j], ExpectedOutcome(env, InitializationOrder[j]))
  {
    var r := RunLoop(env, Some(h), InitializationOrder, services).report;
    StartupReport(env, h, services);
    if |r| <= k {
      assert false;
    }
    if |r| > k + 1 {
      assert false;
    }
  }

  /** A failure of `market_data`, the first name, ends the run at once and registers nothing. */
  lemma MarketDataFailureStopsAtOnce(env: Env, h: Handles, services: map<string, Instance>)
    requires MarketData in env.constructorError
    ensures var st := RunLoop(env, Some(h), InitializationOrder, services);
      st.report == [Entry(MarketData, Failed(env.constructorError[MarketData]))] && st.services == services
  {
    assert InitializationOrder[0] == MarketData;
  }

  /**
   * Every service a reported name depends on was recorded, earlier in the
   * report, as initialized.
   */
  lemma DependenciesRegisteredFirst(env: Env, h: Handles, services: map<string, Instance>)
    ensures var r := RunLoop(env, Some(h), InitializationOrder, services).report;
      forall i, d :: 0 <= i < |r| && d in GetServiceDependencies(r[i].name) ==>
        exists j :: 0 <= j < i && r[j] == Entry(d, Initialized)
  {
    var r := RunLoop(env, Some(h), InitializationOrder, services).report;
    StartupReport(env, h, services);
    forall i, d | 0 <= i < |r| && d in GetServiceDependencies(r[i].name)
      ensures exists j :: 0 <= j < i && r[j] == Entry(d, Initialized)
    {
      var name := InitializationOrder[i];
      assert r[i].name == name;
      BranchLookupsAreDeclaredDependencies(name);
      var j := LookupPrecedes(i, d);
      assert !StopsRun(r[j]);
    }
  }
}
