/**
 * The fixed configuration of a startup run: the service names, their
 * declared order, the critical names, the dependency table and what each
 * construction branch fetches.
 */
module Catalog {
  import opened Resources

  const MarketData := "market_data"
  const HistoricalData := "historical_data"
  const PortfolioTracker := "portfolio_tracker"
  const TradingEngine := "trading_engine"
  const OrderManagement := "order_management"
  const RiskManagement := "risk_management"
  const AiPrediction := "ai_prediction"
  const TechnicalAnalysis := "technical_analysis"
  const SentimentAnalysis := "sentiment_analysis"
  const MlPortfolioOptimizer := "ml_portfolio_optimizer"
  const ExecutionSpecialist := "execution_specialist"
  const HyperliquidExecution := "hyperliquid_execution"
  const AgentManagement := "agent_management"
  const StrategyConfig := "strategy_config"
  const Watchlist := "watchlist"
  const UserPreference := "user_preference"
  const CrewTradingAnalysis := "crew_trading_analysis"
  const AutogenTradingSystem := "autogen_trading_system"

  /** The flat startup order; the phase grouping is only commentary. */
  const InitializationOrder: seq<string> := [
    // infrastructure
    MarketData, HistoricalData,
    // trading core
    PortfolioTracker, TradingEngine, OrderManagement, RiskManagement,
    // analytics
    AiPrediction, TechnicalAnalysis, SentimentAnalysis, MlPortfolioOptimizer,
    // execution and agents
    ExecutionSpecialist, HyperliquidExecution, AgentManagement,
    // business logic
    StrategyConfig, Watchlist, UserPreference,
    // agent frameworks
    CrewTradingAnalysis, AutogenTradingSystem
  ]

  /** A failure of one of these names stops the run. */
  const CriticalNames: set<string> := {MarketData, TradingEngine, PortfolioTracker}

  /** The descriptive dependency table. */
  const DependencyTable: map<string, seq<string>> := map[
    MarketData := [],
    HistoricalData := [],
    PortfolioTracker := [MarketData],
    TradingEngine := [MarketData],
    OrderManagement := [],
    RiskManagement := [PortfolioTracker],
    AiPrediction := [],
    TechnicalAnalysis := [],
    SentimentAnalysis := [],
    MlPortfolioOptimizer := [],
    ExecutionSpecialist := [],
    HyperliquidExecution := [],
    AgentManagement := [],
    StrategyConfig := [],
    Watchlist := [],
    UserPreference := [],
    CrewTradingAnalysis := [],
    AutogenTradingSystem := []
  ]

  /** `dep` appears in the initialization order at some position before `name`. */
  ghost predicate DeclaredBefore(dep: string, name: string) {
    exists j, i :: 0 <= j < i < |InitializationOrder| && InitializationOrder[j] == dep && InitializationOrder[i] == name
  }

  /**
   * The declared dependencies of a service; a name the table does not know
   * has none. Every declared dependency is critical and comes earlier in the
   * initialization order than its dependent.
   */
  function GetServiceDependencies(name: string): (deps: seq<string>)
    ensures name !in DependencyTable ==> deps == []
    ensures name in DependencyTable ==> deps == DependencyTable[name]
    ensures forall d :: d in deps ==> d in CriticalNames && DeclaredBefore(d, name)
  {
    var deps := if name in DependencyTable then DependencyTable[name] else [];
    assert InitializationOrder[0] == MarketData && InitializationOrder[2] == PortfolioTracker;
    assert InitializationOrder[3] == TradingEngine && InitializationOrder[5] == RiskManagement;
    deps
  }

  /**
   * What one construction branch does. `Construct` builds a service object
   * from the connection handles `connections` (fetched in that order) and the
   * registered services `lookups` (fetched after them, in that order), runs
   * the readiness step when `loadsState`, and registers the object.
   * `Existing` registers an already-built module-level object.
   */
  datatype Factory =
    | Construct(connections: seq<ConnKind>, lookups: seq<string>, loadsState: bool)
    | Existing

  /** One entry per branch of the construction dispatch. */
  const FactoryTable: map<string, Factory> := map[
    MarketData := Construct([RedisClient], [], false),
    HistoricalData := Construct([SupabaseClient], [], false),
    PortfolioTracker := Construct([SessionFactory], [MarketData], false),
    TradingEngine := Construct([], [MarketData], false),
    OrderManagement := Construct([SessionFactory], [], false),
    RiskManagement := Construct([], [PortfolioTracker], false),
    AiPrediction := Construct([], [], false),
    TechnicalAnalysis := Construct([], [], false),
    SentimentAnalysis := Construct([], [], false),
    MlPortfolioOptimizer := Construct([], [], false),
    ExecutionSpecialist := Construct([], [], false),
    HyperliquidExecution := Construct([], [], false),
    AgentManagement := Construct([SessionFactory], [], true),
    StrategyConfig := Construct([SessionFactory], [], false),
    Watchlist := Construct([SupabaseClient], [], false),
    UserPreference := Construct([SupabaseClient], [], false),
    CrewTradingAnalysis := Existing,
    AutogenTradingSystem := Existing
  ]

  /** The registered services a branch looks up while building its service. */
  function Lookups(name: string): seq<string> {
    if name in FactoryTable && FactoryTable[name].Construct? then FactoryTable[name].lookups else []
  }

  /** The declared order has eighteen names, none of them twice. */
  lemma OrderIsDistinct()
    ensures |InitializationOrder| == 18
    ensures forall i, j :: 0 <= i < j < |InitializationOrder| ==> InitializationOrder[i] != InitializationOrder[j]
  {
  }

  /** Every critical name is in the declared order. */
  lemma CriticalNamesAreDeclared()
    ensures forall n :: n in CriticalNames ==> n in InitializationOrder
  {
  }

  /** Both tables have an entry for exactly the names in the declared order. */
  lemma TablesCoverOrder()
    ensures forall n :: n in FactoryTable <==> n in InitializationOrder
    ensures forall n :: n in DependencyTable <==> n in InitializationOrder
  {
  }

  /** Every name in the declared order has a construction branch. */
  lemma OrderHasBranches()
    ensures forall i :: 0 <= i < |InitializationOrder| ==> InitializationOrder[i] in FactoryTable
  {
  }

  /**
   * The lookups each branch performs are exactly the dependencies the table
   * declares for it.
   */
  lemma BranchLookupsAreDeclaredDependencies(name: string)
    ensures Lookups(name) == GetServiceDependencies(name)
  {
  }

  /** Only `agent_management` has a readiness step. */
  lemma OnlyAgentManagementLoadsState(name: string)
    ensures name in FactoryTable && FactoryTable[name].Construct? && FactoryTable[name].loadsState <==> name == AgentManagement
  {
  }

  /**
   * The design invariant: a service a branch looks up is a critical name
   * declared earlier in the order, at position `j`.
   */
  lemma LookupPrecedes(i: nat, d: string) returns (j: nat)
    requires i < |InitializationOrder| && d in Lookups(InitializationOrder[i])
    ensures j < i && InitializationOrder[j] == d && d in CriticalNames
  {
    if i == 2 || i == 3 {
      j := 0;
    } else {
      assert i == 5;
      j := 2;
    }
  }
}
