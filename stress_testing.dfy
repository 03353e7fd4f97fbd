/** Stress scenarios applied to a base price prediction: a drop in Chinese
    demand, a US-dollar liquidity crisis and supply-side shocks, each a
    closed-form shock with a four-tier risk ladder, and their combination
    into one worst case. The predictive model is not consulted by any
    scenario, so it is not a parameter here. */
module StressTesting {
  import opened Common

  datatype RiskTier = Low | Medium | High | Extreme
  {
    function Rank(): nat
    {
      match this
      case Low => 0
      case Medium => 1
      case High => 2
      case Extreme => 3
    }
  }

  /** The risk tier of a price change in percent. */
  function TierOf(pct: real): (t: RiskTier)
    ensures t == Extreme <==> Abs(pct) > 20.0
    ensures t == High <==> 10.0 < Abs(pct) <= 20.0
    ensures t == Medium <==> 5.0 < Abs(pct) <= 10.0
    ensures t == Low <==> Abs(pct) <= 5.0
  {
    if Abs(pct) > 20.0 then Extreme
    else if Abs(pct) > 10.0 then High
    else if Abs(pct) > 5.0 then Medium
    else Low
  }

  /** A larger shock, in either direction, never gets a lower tier. */
  lemma TierMonotone(a: real, b: real)
    requires Abs(a) <= Abs(b)
    ensures TierOf(a).Rank() <= TierOf(b).Rank()
  {
  }

  datatype StressConfig = StressConfig(
    chinaDemandDrop: real, usdSpikeScenario: string, supplyShockTypes: seq<string>)

  const DefaultSupplyShockTypes: seq<string> := ["chile_earthquake", "panama_drought"]

  /** The configuration record: a missing list of supply shocks becomes the
      two default ones. */
  function MakeStressConfig(chinaDemandDrop: real, usdSpikeScenario: string,
                            supplyShockTypes: Option<seq<string>>): (c: StressConfig)
    ensures c.chinaDemandDrop == chinaDemandDrop && c.usdSpikeScenario == usdSpikeScenario
    ensures supplyShockTypes.None? ==> c.supplyShockTypes == DefaultSupplyShockTypes
    ensures supplyShockTypes.Some? ==> c.supplyShockTypes == supplyShockTypes.value
  {
    StressConfig(chinaDemandDrop, usdSpikeScenario,
                 if supplyShockTypes.Some? then supplyShockTypes.value else DefaultSupplyShockTypes)
  }

  function DefaultStressConfig(): StressConfig
  {
    MakeStressConfig(-0.30, "2020-03", None)
  }

  /** The outcome of one scenario: the shocked price and the change in
      percent, with its tier. */
  datatype ShockResult = ShockResult(basePrice: real, shockedPrice: real, priceChangePct: real, tier: RiskTier)

  /** The scenario's shocked price is the base moved by its percentage and
      its tier is the tier of that percentage. */
  predicate Coherent(r: ShockResult, base: real)
  {
    r.basePrice == base &&
    r.shockedPrice == base * (1.0 + r.priceChangePct / 100.0) &&
    r.tier == TierOf(r.priceChangePct)
  }

  /** A shock of `impact` (a fraction) on the base price. */
  function Shock(base: real, impact: real): (r: ShockResult)
    ensures Coherent(r, base)
    ensures r.priceChangePct == impact * 100.0
  {
    ShockResult(base, base * (1.0 + impact), impact * 100.0, TierOf(impact * 100.0))
  }

  const DemandElasticity: real := 0.7

  /** The demand drop passed through a price elasticity of 0.7. */
  function DemandShock(cfg: StressConfig, base: real): (r: ShockResult)
    ensures Coherent(r, base)
    ensures r.priceChangePct == cfg.chinaDemandDrop * DemandElasticity * 100.0
  {
    Shock(base, cfg.chinaDemandDrop * DemandElasticity)
  }

  /** The default 30% demand drop moves the price by -21%, an extreme risk. */
  lemma DefaultDemandShock(base: real)
    ensures var r := DemandShock(DefaultStressConfig(), base);
      r.priceChangePct == -21.0 && r.shockedPrice == 0.79 * base && r.tier == Extreme
  {
  }

  /** The dollar spike and the copper drop of the named episode; any other
      name falls back to March 2020. */
  function UsdScenario(name: string): (p: (real, real))
    ensures name == "2022-09" ==> p == (0.05, -0.20)
    ensures name != "2022-09" ==> p == (0.08, -0.30)
  {
    if name == "2020-03" then (0.08, -0.30)
    else if name == "2022-09" then (0.05, -0.20)
    else (0.08, -0.30)
  }

  const UsdCopperCorrelation: real := -0.7

  /** The dollar-driven impact (-0.7 times the spike) or the episode's own
      copper drop, whichever is milder: the code takes the larger, that is the
      less negative, of the two. */
  function UsdShock(cfg: StressConfig, base: real): (r: ShockResult)
    ensures var (spike, drop) := UsdScenario(cfg.usdSpikeScenario);
      r.priceChangePct >= UsdCopperCorrelation * spike * 100.0 && r.priceChangePct >= drop * 100.0 &&
      (r.priceChangePct == UsdCopperCorrelation * spike * 100.0 || r.priceChangePct == drop * 100.0)
  {
    var (spike, drop) := UsdScenario(cfg.usdSpikeScenario);
    Shock(base, Max(UsdCopperCorrelation * spike, drop))
  }

  /** Under the default March 2020 episode the dollar channel gives -5.6%,
      a medium risk, although the copper drop of that episode was -30%. */
  lemma DefaultUsdShock(base: real)
    ensures var r := UsdShock(DefaultStressConfig(), base);
      r.priceChangePct == -5.6 && r.shockedPrice == 0.944 * base && r.tier == Medium
  {
  }

  datatype SupplyResult = SupplyResult(
    shockType: string, supplyDropPct: real, elasticity: real,
    basePrice: real, shockedPrice: real, priceChangePct: real)

  /** Supply drop and price elasticity of the known supply shocks. */
  function SupplyParameters(shockType: string): Option<(real, real)>
  {
    if shockType == "chile_earthquake" then Some((-0.07, 2.0))
    else if shockType == "panama_drought" then Some((-0.03, 1.5))
    else None
  }

  /** The outcome of a known supply shock: a supply drop raises the price
      by |drop|·elasticity. */
  function KnownShock(t: string, base: real): (r: SupplyResult)
    requires SupplyParameters(t).Some?
    ensures r.shockType == t && r.basePrice == base
    ensures r.priceChangePct == Abs(SupplyParameters(t).value.0) * SupplyParameters(t).value.1 * 100.0
    ensures r.shockedPrice == base * (1.0 + r.priceChangePct / 100.0)
  {
    var (drop, elasticity) := SupplyParameters(t).value;
    var impact := Abs(drop) * elasticity;
    SupplyResult(t, drop * 100.0, elasticity, base, base * (1.0 + impact), impact * 100.0)
  }

  /** The results of the known shocks among `types`, in order: one per
      known type asked for, none for an unknown one. */
  function SupplyResults(types: seq<string>, base: real): (rs: seq<SupplyResult>)
    ensures |rs| <= |types|
  {
    if |types| == 0 then []
    else
      var prior := SupplyResults(types[..|types| - 1], base);
      var t := types[|types| - 1];
      match SupplyParameters(t)
      case None => prior
      case Some(_) => prior + [KnownShock(t, base)]
  }

  /** The results are exactly the outcomes of the known types asked for:
      each result is the outcome of a requested known type, and every
      requested known type has its outcome among the results. */
  lemma {:induction false} SupplyResultsComplete(types: seq<string>, base: real)
    ensures var rs := SupplyResults(types, base);
      (forall r :: r in rs ==>
         r.shockType in types && SupplyParameters(r.shockType).Some? && r == KnownShock(r.shockType, base)) &&
      (forall t :: t in types && SupplyParameters(t).Some? ==> KnownShock(t, base) in rs)
  {
    if |types| > 0 {
      var init := types[..|types| - 1];
      SupplyResultsComplete(init, base);
      assert forall u :: u in types <==> u in init || u == types[|types| - 1] by {
        assert types == init + [types[|types| - 1]];
      }
    }
  }

  /** Every supply shock raises the price: its change is positive, and each
      result belongs to a known shock type. */
  lemma {:induction false} SupplyShocksRaisePrice(types: seq<string>, base: real)
    ensures forall r :: r in SupplyResults(types, base) ==>
      r.priceChangePct > 0.0 && SupplyParameters(r.shockType).Some? && r.shockType in types
  {
    if |types| > 0 {
      SupplyShocksRaisePrice(types[..|types| - 1], base);
    }
  }

  /** The first result with the largest price change, as Python's `max`
      with a key keeps the first of equal maxima. */
  function WorstOf(rs: seq<SupplyResult>): (w: SupplyResult)
    requires |rs| > 0
    ensures w in rs
    ensures forall r :: r in rs ==> r.priceChangePct <= w.priceChangePct
  {
    if |rs| == 1 then rs[0]
    else
      var w := WorstOf(rs[1..]);
      assert forall r :: r in rs[1..] ==> r in rs;
      if w.priceChangePct > rs[0].priceChangePct then w else rs[0]
  }

  /** Ties go to the earlier result: the first result reaching the largest
      change is the one picked. */
  lemma {:induction false} WorstOfIsFirst(rs: seq<SupplyResult>, k: nat)
    requires k < |rs| && rs[k].priceChangePct == WorstOf(rs).priceChangePct
    requires forall i :: 0 <= i < k ==> rs[i].priceChangePct < rs[k].priceChangePct
    ensures WorstOf(rs) == rs[k]
  {
    if k > 0 {
      assert rs[0].priceChangePct < WorstOf(rs).priceChangePct;
      assert WorstOf(rs) == WorstOf(rs[1..]);
      forall i | 0 <= i < k - 1
        ensures rs[1..][i].priceChangePct < rs[1..][k - 1].priceChangePct
      {
        assert rs[1..][i] == rs[i + 1];
      }
      WorstOfIsFirst(rs[1..], k - 1);
    }
  }

  datatype SupplyReport = SupplyReport(allScenarios: seq<SupplyResult>, worstScenario: SupplyResult)

  /** Runs the configured supply shocks in order, skipping unknown ones, and
      picks the worst; None when no shock is known (`max` of an empty list
      raises). */
  method SupplyShock(cfg: StressConfig, base: real) returns (report: Option<SupplyReport>)
    ensures var rs := SupplyResults(cfg.supplyShockTypes, base);
      if rs == [] then report.None?
      else report == Some(SupplyReport(rs, WorstOf(rs)))
  {
    var results: seq<SupplyResult> := [];
    var types := cfg.supplyShockTypes;
    for i := 0 to |types|
      invariant results == SupplyResults(types[..i], base)
    {
      assert types[..i + 1][..i] == types[..i];
      var t := types[i];
      if SupplyParameters(t).None? {
        continue;
      }
      var r := KnownShock(t, base);
      results := results + [r];
    }
    assert types[..|types|] == types;
    if |results| == 0 {
      return None;
    }
    report := Some(SupplyReport(results, WorstOf(results)));
  }

  /** The default shocks: the Chilean earthquake (+14%) is worse than the
      Panama drought (+4.5%). */
  lemma DefaultSupplyShocks(base: real)
    ensures var rs := SupplyResults(DefaultSupplyShockTypes, base);
      |rs| == 2 && rs[0].priceChangePct == 14.0 && rs[1].priceChangePct == 4.5 &&
      WorstOf(rs) == rs[0]
  {
    assert DefaultSupplyShockTypes[..1] == ["chile_earthquake"];
    assert DefaultSupplyShockTypes[..1][..0] == [];
  }

  datatype StressSummary = StressSummary(
    chinaDemand: ShockResult, usdLiquidity: ShockResult, supply: SupplyReport,
    worstPrice: real, worstChangePct: real)

  /** The three scenarios and the worst of their changes: the smallest
      (most negative) of the demand change, the dollar change and the worst
      supply change. None when the supply scenario raises. */
  function StressOutcome(cfg: StressConfig, base: real): Option<StressSummary>
  {
    var rs := SupplyResults(cfg.supplyShockTypes, base);
    if rs == [] then None
    else
      var demand, usd, supply := DemandShock(cfg, base), UsdShock(cfg, base), SupplyReport(rs, WorstOf(rs));
      var worst := Min(Min(demand.priceChangePct, usd.priceChangePct), supply.worstScenario.priceChangePct);
      Some(StressSummary(demand, usd, supply, Moved(base, worst), worst))
  }

  /** The base price moved by a change of pct percent. */
  function Moved(base: real, pct: real): real
  {
    base * (1.0 + pct / 100.0)
  }

  /** The worst case is one of the three scenario changes and no larger than
      any of them, and its price is the base moved by that change. */
  lemma WorstCaseIsWorst(cfg: StressConfig, base: real)
    requires StressOutcome(cfg, base).Some?
    ensures var s := StressOutcome(cfg, base).value;
      s.worstChangePct <= s.chinaDemand.priceChangePct &&
      s.worstChangePct <= s.usdLiquidity.priceChangePct &&
      s.worstChangePct <= s.supply.worstScenario.priceChangePct &&
      (s.worstChangePct == s.chinaDemand.priceChangePct ||
       s.worstChangePct == s.usdLiquidity.priceChangePct ||
       s.worstChangePct == s.supply.worstScenario.priceChangePct) &&
      s.worstPrice == base * (1.0 + s.worstChangePct / 100.0)
  {
  }

  /** Under the default configuration the demand shock is the worst case:
      -21%, a price of 0.79 times the base. */
  lemma DefaultWorstCase(base: real)
    ensures var s := StressOutcome(DefaultStressConfig(), base);
      s.Some? && s.value.worstChangePct == -21.0 && s.value.worstPrice == 0.79 * base
  {
    DefaultDemandShock(base);
    DefaultUsdShock(base);
    DefaultSupplyShocks(base);
  }

  /** Runs the three scenarios in order and summarises the worst case. */
  method RunAllStressTests(cfg: StressConfig, base: real) returns (summary: Option<StressSummary>)
    ensures summary == StressOutcome(cfg, base)
  {
    var demand := DemandShock(cfg, base);
    var usd := UsdShock(cfg, base);
    var supply := SupplyShock(cfg, base);
    ghost var rs := SupplyResults(cfg.supplyShockTypes, base);
    if supply.None? {
      assert rs == [];
      return None;
    }
    assert rs != [] && supply.value == SupplyReport(rs, WorstOf(rs));
    var worst := Min(Min(demand.priceChangePct, usd.priceChangePct), supply.value.worstScenario.priceChangePct);
    summary := Some(StressSummary(demand, usd, supply.value, Moved(base, worst), worst));
  }
}
