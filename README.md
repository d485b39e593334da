# Startup orchestrator of the trading platform backend

This project models the `ServiceInitializer` startup orchestrator in Dafny and proves properties of the model.

A run does the following:

- It makes sure the connection provider (`db_manager`) is initialized.
- It attempts the eighteen declared services one after another, in declared order. Each attempt builds the service from connection handles and from services already in the registry, then registers it under its own name.
- It records one outcome string per attempted name: `"initialized"` or `"failed: <message>"`.
- It stops right after a failure of `market_data`, `trading_engine` or `portfolio_tracker`. After any other failure it goes on to the next name.
- Whether the loop finished or stopped early, it registers the provider's five connection handles under fixed names and marks the registry initialized.

The project has two layers:

- Specification functions. `Startup.Attempt` describes one attempt. `Startup.RunLoop` describes the loop. `Startup.ExpectedReport` is an independent reference report that depends only on what the foreign code does.
- Imperative Dafny. `Orchestrator.ServiceInitializer` works on two objects: a `Registry.ServiceRegistry`, with a services map, a connections map and an initialized flag, and a `Resources.ConnectionManager`. Each of its methods is proved against the specification functions.

Modelling choices:

- **Foreign code.** The sixteen service classes and the readiness step of the agent manager are not modelled. They become an `Env` parameter: a map from service name to the message its constructor raises, and an optional message raised by `load_all_agent_statuses_from_db`.
- **Agent frameworks.** The two agent-framework objects (`crew_trading_analysis`, `autogen_trading_system`) already exist as module-level objects. Their branches register them as they are, without reading `Env`, so they cannot fail.
- **External resources.** Reaching the database and cache becomes the provider's `reachable` field: either the handles, or the connection error.
- **Exceptions.** An exception is a `Failure(message)` value.
- **The results dict.** It is a sequence of `Entry(name, outcome)` in insertion order. The names in it are proved distinct, so it is a faithful dictionary.
- **The dispatch.** The `if`/`elif` dispatch of `_initialize_service` is a table `Catalog.FactoryTable`. Each branch has one entry that records three things: the connection accessors it calls, in argument order; the registered services it looks up, after the accessors; and whether it has a readiness step. The only branch that does both is `portfolio_tracker`, and its keyword arguments are evaluated session factory first, then `market_data`, which is the order the table gives.
- **Unknown names.** The `ValueError("Unknown service: …")` raised by the dispatch's `else` branch is inside the loop's `try`, so `except Exception` records it as an ordinary failure. The model does the same. With the declared order this cannot happen: every declared name has a branch (`Catalog.OrderHasBranches`).

## Model

| member | source | states |
|---|---|---|
| `Orchestrator.ServiceInitializer.constructor` | core/service_initializer.py:43-74 | The initializer's order is the eighteen-name declared order. |
| `Catalog.OrderIsDistinct` | core/service_initializer.py:44-74 | The declared order has 18 names and none appears twice. |
| `Catalog.CriticalNamesAreDeclared` | core/service_initializer.py:96 | Every critical name is in the declared order. |
| `Catalog.TablesCoverOrder` | core/service_initializer.py:225-244 | The dependency table and the dispatch both have an entry for exactly the declared names. |
| `Catalog.OrderHasBranches` | core/service_initializer.py:111-213 | Every declared name has a construction branch, so no declared name hits the unknown-service error. |
| `Catalog.GetServiceDependencies` | core/service_initializer.py:223-246 | An unknown name gets `[]`. A known name gets its table entry. Every dependency returned is a critical name declared earlier than its dependent. |
| `Catalog.BranchLookupsAreDeclaredDependencies` | core/service_initializer.py:121-148 | The registry lookups each branch performs are exactly the dependencies the table declares for that name. |
| `Catalog.OnlyAgentManagementLoadsState` | core/service_initializer.py:180-185 | `agent_management` is the one branch with a readiness step. |
| `Catalog.LookupPrecedes` | core/service_initializer.py:44-74 | A service looked up by the branch at position `i` is critical and sits at a position `j < i`. |
| `Resources.FetchConnections` | core/service_initializer.py:111-200 | The accessor calls succeed exactly when the provider is initialized (or none are made). Each returns the established handle of its kind. Otherwise they fail with the not-initialized error. |
| `Resources.ConnectionManager.IsInitialized` | core/service_initializer.py:81 | The provider reports itself initialized exactly when every accessor returns a handle. |
| `Resources.ConnectionManager.InitializeConnections` | core/service_initializer.py:81-82 | An already initialized provider is left as it is. Otherwise it takes the reachable handles, or reports the connection error and stays uninitialized. |
| `Registry.LookupService` | core/service_initializer.py:124 | `get_service` returns the registered instance itself when the name is registered, and otherwise fails with the not-found error for that name. |
| `Registry.LookupAll` | core/service_initializer.py:121-148 | The lookups succeed exactly when every name is registered, and return exactly the registered instances, in order. Otherwise they fail with the not-found error of the first missing name. |
| `Registry.ServiceRegistry.RegisterService` | core/service_initializer.py:113 | The services map gains or overwrites exactly that one entry, and nothing else changes. |
| `Registry.ServiceRegistry.RegisterConnection` | core/service_initializer.py:217-221 | The connections map gains or overwrites exactly that one entry, and nothing else changes. |
| `Registry.ServiceRegistry.MarkInitialized` | core/service_initializer.py:103 | The flag is set and both maps are unchanged. |
| `Startup.Failed` | core/service_initializer.py:92 | A failure outcome string is never `"initialized"`. |
| `Startup.Attempt` | core/service_initializer.py:108-213 | A name without a branch raises `Unknown service: <name>`. A success is an instance carrying its own name. |
| `Startup.AttemptSuccess` | core/service_initializer.py:111-210 | A successful attempt found every service it looks up and was wired with exactly those instances and with the provider's handles of the requested kinds. `agent_management` succeeds only if its readiness step completes. |
| `Startup.AttemptWithInputsAvailable` | core/service_initializer.py:111-213 | With the provider initialized and every looked-up service registered, the recorded outcome is decided by the foreign code alone. |
| `Startup.ExpectedReport` | core/service_initializer.py:86-98 | The reference report holds one entry per declared name, in order, up to and including the first critical failure, and no earlier entry stops the run. |
| `Startup.RunLoop` | core/service_initializer.py:86-98 | The loop over the order. Its own contract says only that the report is no longer than the order. Its properties are the `StartupProperties` lemmas. |
| `Startup.RunLoopAdvance` | core/service_initializer.py:86-98 | One loop step: on success, the entry is appended and the name is registered. On a critical failure, the run ends with that entry. On any other failure, the run goes on with the next name. |
| `Startup.WithStandardConnections` | core/service_initializer.py:215-221 | The five standard names hold the handles of their kinds, and every other connection is unchanged. |
| `StartupProperties.ReportFollowsOrder` | core/service_initializer.py:86-98 | The names in the report are a prefix of the order, and a non-empty order gives a non-empty report. |
| `StartupProperties.StopsOnlyAtCriticalFailure` | core/service_initializer.py:91-98 | Only the last entry can be a critical failure, and a run shorter than the order ends with one. |
| `StartupProperties.NonCriticalFailureContinues` | core/service_initializer.py:91-98 | After a non-critical entry, the next name in the order is still attempted. |
| `StartupProperties.RegistryReflectsSuccesses` | core/service_initializer.py:86-98 | The registry gains exactly the names that succeeded, each under its own name. An entry for a name that failed is left as it was. |
| `StartupProperties.ReportIsExpected` | core/service_initializer.py:86-98 | When every looked-up service is registered beforehand or is an earlier critical name, the run's report is the reference report. |
| `StartupProperties.AvailableLookupsAreFound` | core/service_initializer.py:86-98 | When every looked-up service is registered beforehand or is an earlier critical name, every attempt the run makes finds the services it looks up already registered. |
| `StartupProperties.StartupLookupsFound` | core/service_initializer.py:121-148 | In a run over the declared order, no attempt fails because a service it looks up is missing, whatever was registered before. |
| `StartupProperties.StartupReport` | core/service_initializer.py:44-106 | Over the declared order, the report is the reference report whatever was registered before, and no name appears twice. |
| `StartupProperties.AllServicesSucceed` | core/service_initializer.py:86-90 | If every construction succeeds, the report holds all 18 names, in order, each `"initialized"`, and all 18 are registered under their own names. |
| `StartupProperties.CriticalFailureStopsRun` | core/service_initializer.py:91-98 | The first failing critical name is the last entry. Every earlier entry keeps its outcome. |
| `StartupProperties.MarketDataFailureStopsAtOnce` | core/service_initializer.py:96-98 | A failing `market_data` gives a report with just its failure and registers nothing. |
| `StartupProperties.DependenciesRegisteredFirst` | core/service_initializer.py:121-148 | Every dependency of a reported name is recorded as `"initialized"` earlier in the report. |
| `Orchestrator.ServiceInitializer.InitializeService` | core/service_initializer.py:108-213 | Matches `Startup.Attempt`: a success registers the built instance under its name and returns `"initialized"`. A failure returns the message and leaves the registry unchanged. |
| `Orchestrator.ServiceInitializer.RegisterConnections` | core/service_initializer.py:215-221 | With the provider initialized, the five standard connections are registered. Otherwise the first accessor raises and nothing is registered. |
| `Orchestrator.ServiceInitializer.InitializeAllServices` | core/service_initializer.py:76-106 | If the provider cannot initialize, the run raises and the registry is untouched. Otherwise it returns the `RunLoop` report, holds the `RunLoop` services, has the five standard connections registered and the registry marked initialized, even after a critical failure. |

## Left out

- `health_check_all_services` only forwards to the registry's `health_check`. That is not part of this model, so it is left out, and nothing is stated about how probes are aggregated.
- The internals of the sixteen service classes and of the two agent-framework objects are not modelled. The `Env` parameter decides whether each of the sixteen constructors raises, and whether the readiness step does. The two framework objects are registered as they are and cannot fail. A failure at import time is not modelled.
- The registry and connection-provider implementations are not part of this model. Their error messages ("Service not found: …", "database connections are not initialized") are placeholders. `register_service`, `register_connection` and `mark_initialized` are modelled as never raising.
- Instance identity is modelled as value equality. An instance records its name, its connection handles and the registered instances it was given.
- The asyncio machinery: every `await` is modelled as a sequential call. There is no model of concurrent readers of the registry, locking, cancellation, or a readiness step that hangs.
- Logging, the module-level singleton and `get_service_initializer` are left out.
- The demo HTTP server (`simple_main.py`) is left out. It is built on environment variables, salted hashing, floating point and the clock.
