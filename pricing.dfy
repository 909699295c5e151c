/** The dynamic pricing engine of src/pricing_engine.py: a price-elasticity
    demand curve clipped to [0.05, 0.98], RevPAR = price × demand, a bounded
    optimiser over [min, max] (an oracle here), rule-based recommendations, a
    scenario grid, and the opportunity flags of the historical insights.

    Two facilities of the source have no Dafny counterpart and are parameters:
    the real power `**` (a `Pow` satisfying the laws of x^e for x > 0) and
    scipy's bounded `minimize_scalar` (a `Minimizer` that returns a point of the
    interval it is given).  Rounding of the reported figures is not modelled. */
module PricingEngine {
  import opened Common

  // ---------------------------------------------------------------------------
  // Pricing rules (PricingEngine.__init__)

  datatype PricingRule = PricingRule(basePrice: real, minPrice: real, maxPrice: real, elasticity: real)

  /** A rule keeps min < base < max on positive prices and a negative elasticity. */
  predicate ValidRule(r: PricingRule)
  {
    0.0 < r.minPrice < r.basePrice < r.maxPrice && r.elasticity < 0.0
  }

  /** The per-room-type table set by the constructor and only read afterwards. */
  function PricingRules(): (rules: map<string, PricingRule>)
    ensures rules.Keys == {"Standard", "Deluxe", "Suite"}
    ensures forall rt :: rt in rules ==> ValidRule(rules[rt])
  {
    map[
      "Standard" := PricingRule(100.0, 80.0, 200.0, -1.2),
      "Deluxe" := PricingRule(150.0, 120.0, 300.0, -1.5),
      "Suite" := PricingRule(250.0, 200.0, 500.0, -1.8)
    ]
  }

  /** `pricing_rules.get(room_type, pricing_rules['Standard'])`. */
  function RulesFor(roomType: string): (r: PricingRule)
    ensures ValidRule(r)
    ensures roomType in PricingRules() ==> r == PricingRules()[roomType]
    ensures roomType !in PricingRules() ==> r == PricingRules()["Standard"]
  {
    var rules := PricingRules();
    if roomType in rules then rules[roomType] else rules["Standard"]
  }

  /** Python's `given or fallback` on an optional price: None and 0 are falsy. */
  function ResolveBound(given: Option<real>, fallback: real): (r: real)
    ensures given.Some? && given.value != 0.0 ==> r == given.value
    ensures given.None? || given.value == 0.0 ==> r == fallback
  {
    match given
    case Some(v) => if v != 0.0 then v else fallback
    case None => fallback
  }

  /** `if competitor_prices:` holds for a non-empty list only. */
  predicate HasPrices(competitorPrices: Option<seq<real>>)
  {
    competitorPrices.Some? && |competitorPrices.value| > 0
  }

  /** The competitor average: the mean of the given prices, else the base price. */
  function ReferencePrice(competitorPrices: Option<seq<real>>, rule: PricingRule): (avg: real)
    ensures !HasPrices(competitorPrices) ==> avg == rule.basePrice
    ensures HasPrices(competitorPrices) ==>
      MinOf(competitorPrices.value) <= avg <= MaxOf(competitorPrices.value)
  {
    if HasPrices(competitorPrices) then
      MeanBetweenMinAndMax(competitorPrices.value);
      Mean(competitorPrices.value)
    else rule.basePrice
  }

  // ---------------------------------------------------------------------------
  // The demand curve and revenue

  /** The laws of the real power x^e that the demand curve relies on. */
  ghost predicate PowLaws(pow: (real, real) -> real)
  {
    && (forall e :: pow(1.0, e) == 1.0)
    && (forall x, e :: x > 0.0 ==> pow(x, e) > 0.0)
    && (forall x, y, e :: e < 0.0 && 0.0 < x < y ==> pow(y, e) < pow(x, e))
  }

  /** Python's `**` on floats, as a parameter: any function obeying the laws. */
  type Pow = pow: (real, real) -> real | PowLaws(pow)
    witness (x: real, e: real) => if x > 0.0 && e < 0.0 then 1.0 / x else 1.0

  /** scipy's bounded `minimize_scalar(f, bounds=(lo, hi))`: some point of [lo, hi]. */
  type Minimizer = m: (real -> real, real, real) -> real
    | forall f, lo, hi :: lo <= hi ==> lo <= m(f, lo, hi) <= hi
    witness (f: real -> real, lo: real, hi: real) => lo

  const DemandFloor: real := 0.05
  const DemandCeiling: real := 0.98

  /** `base_demand · (price / competitor_avg_price)^elasticity`, before clipping. */
  function RawDemand(pow: Pow, price: real, baseDemand: real, elasticity: real, competitorAvgPrice: real): real
    requires competitorAvgPrice != 0.0
  {
    baseDemand * pow(price / competitorAvgPrice, elasticity)
  }

  /** demand_function: the raw demand clipped into [0.05, 0.98]. */
  function DemandFunction(pow: Pow, price: real, baseDemand: real, elasticity: real, competitorAvgPrice: real): (d: real)
    requires competitorAvgPrice != 0.0
    ensures DemandFloor <= d <= DemandCeiling
    ensures var raw := RawDemand(pow, price, baseDemand, elasticity, competitorAvgPrice);
      DemandFloor <= raw <= DemandCeiling ==> d == raw
    ensures price == competitorAvgPrice ==> d == Clip(baseDemand, DemandFloor, DemandCeiling)
  {
    assert PowLaws(pow);
    assert price == competitorAvgPrice ==> price / competitorAvgPrice == 1.0;
    Clip(RawDemand(pow, price, baseDemand, elasticity, competitorAvgPrice), DemandFloor, DemandCeiling)
  }

  /** With a negative elasticity and a non-negative base demand, a higher price
      never yields a higher demand. */
  lemma {:induction false} DemandNonIncreasing(pow: Pow, p1: real, p2: real, baseDemand: real, elasticity: real, competitorAvgPrice: real)
    requires elasticity < 0.0 && baseDemand >= 0.0 && competitorAvgPrice > 0.0
    requires 0.0 < p1 <= p2
    ensures DemandFunction(pow, p2, baseDemand, elasticity, competitorAvgPrice)
         <= DemandFunction(pow, p1, baseDemand, elasticity, competitorAvgPrice)
  {
    assert PowLaws(pow);
    var r1, r2 := p1 / competitorAvgPrice, p2 / competitorAvgPrice;
    assert r1 * competitorAvgPrice == p1;
    DivideBound(p2, r1, competitorAvgPrice);
    assert 0.0 < r1 <= r2;
    var a1, a2 := pow(r1, elasticity), pow(r2, elasticity);
    assert a2 <= a1;
    assert baseDemand * a2 <= baseDemand * a1;
    ClipMonotone(baseDemand * a2, baseDemand * a1, DemandFloor, DemandCeiling);
  }

  /** revenue_function: RevPAR = price × demand. */
  function RevenueFunction(pow: Pow, price: real, baseDemand: real, elasticity: real, competitorAvgPrice: real): (r: real)
    requires competitorAvgPrice != 0.0
    ensures price >= 0.0 ==> DemandFloor * price <= r
    ensures price >= 0.0 ==> r <= DemandCeiling * price
    ensures price <= 0.0 ==> DemandCeiling * price <= r
    ensures price <= 0.0 ==> r <= DemandFloor * price
  {
    var d := DemandFunction(pow, price, baseDemand, elasticity, competitorAvgPrice);
    RevenueBounds(price, d);
    price * d
  }

  /** A demand inside the band puts the revenue between the band's ends
      times the price. */
  lemma {:induction false} RevenueBounds(price: real, d: real)
    requires DemandFloor <= d <= DemandCeiling
    ensures price >= 0.0 ==> DemandFloor * price <= price * d
    ensures price >= 0.0 ==> price * d <= DemandCeiling * price
    ensures price <= 0.0 ==> DemandCeiling * price <= price * d
    ensures price <= 0.0 ==> price * d <= DemandFloor * price
  {
    ScaleBounds(price, d, DemandFloor, DemandCeiling);
  }

  /** The function minimised: minus RevPAR for target 'revpar', minus demand otherwise. */
  function Objective(pow: Pow, target: string, price: real, baseDemand: real, elasticity: real, competitorAvgPrice: real): real
    requires competitorAvgPrice != 0.0
  {
    if target == "revpar" then -RevenueFunction(pow, price, baseDemand, elasticity, competitorAvgPrice)
    else -DemandFunction(pow, price, baseDemand, elasticity, competitorAvgPrice)
  }

  /** For the occupancy target the objective is smallest at the lowest price:
      any optimiser on [lo, hi] can do no better than lo. */
  lemma {:induction false} OccupancyObjectiveLeastAtLowerBound(pow: Pow, target: string, lo: real, p: real,
                                            baseDemand: real, elasticity: real, competitorAvgPrice: real)
    requires target != "revpar"
    requires elasticity < 0.0 && baseDemand >= 0.0 && competitorAvgPrice > 0.0
    requires 0.0 < lo <= p
    ensures Objective(pow, target, lo, baseDemand, elasticity, competitorAvgPrice)
         <= Objective(pow, target, p, baseDemand, elasticity, competitorAvgPrice)
  {
    DemandNonIncreasing(pow, lo, p, baseDemand, elasticity, competitorAvgPrice);
  }

  // ---------------------------------------------------------------------------
  // Recommendations (_generate_recommendations)

  datatype Recommendation =
    | AboveCompetition          // price significantly above the competition
    | PriceIncreaseOpportunity  // room to raise the price
    | HighDemand                // strong demand, consider a rise
    | LowDemand                 // weak demand, consider a promotion
    | NearMinimum               // price close to the minimum
    | PremiumPrice              // premium price, make sure of the added value

  /** Which of the three checks emits a message: competitor 0, demand 1, bound 2. */
  function Category(r: Recommendation): nat
  {
    match r
    case AboveCompetition | PriceIncreaseOpportunity => 0
    case HighDemand | LowDemand => 1
    case NearMinimum | PremiumPrice => 2
  }

  function Message(r: Recommendation): string
  {
    match r
    case AboveCompetition => "⚠️ Prix significativement au-dessus de la concurrence"
    case PriceIncreaseOpportunity => "💡 Opportunité d'augmentation de prix"
    case HighDemand => "🔥 Forte demande - Considérer une hausse de prix"
    case LowDemand => "📉 Demande faible - Envisager une promotion"
    case NearMinimum => "⛔ Prix proche du minimum - Vérifier la stratégie"
    case PremiumPrice => "💰 Prix premium - S'assurer de la valeur ajoutée"
  }

  /** The messages _generate_recommendations emits: at most one per check,
      competitor first, then demand, then the price bound. */
  ghost predicate RecommendationsFor(recs: seq<Recommendation>, price: real, demand: real,
                                     competitorPrices: Option<seq<real>>, rule: PricingRule)
  {
    && |recs| <= 3
    && (forall i, j :: 0 <= i < j < |recs| ==> Category(recs[i]) < Category(recs[j]))
    && (AboveCompetition in recs <==>
          HasPrices(competitorPrices) && price > Mean(competitorPrices.value) * 1.15)
    && (PriceIncreaseOpportunity in recs <==>
          HasPrices(competitorPrices) && !(price > Mean(competitorPrices.value) * 1.15)
          && price < Mean(competitorPrices.value) * 0.85)
    && (HighDemand in recs <==> demand > 0.90)
    && (LowDemand in recs <==> !(demand > 0.90) && demand < 0.60)
    && (NearMinimum in recs <==> price <= rule.minPrice * 1.05)
    && (PremiumPrice in recs <==> !(price <= rule.minPrice * 1.05) && price >= rule.maxPrice * 0.95)
  }

  /** The competitor check: above 115 % or below 85 % of the competitors' mean. */
  function CompetitorCheck(price: real, competitorPrices: Option<seq<real>>): (c: seq<Recommendation>)
    ensures |c| <= 1 && forall x :: x in c ==> Category(x) == 0
    ensures AboveCompetition in c <==>
      HasPrices(competitorPrices) && price > Mean(competitorPrices.value) * 1.15
    ensures PriceIncreaseOpportunity in c <==>
      HasPrices(competitorPrices) && !(price > Mean(competitorPrices.value) * 1.15)
      && price < Mean(competitorPrices.value) * 0.85
  {
    if !HasPrices(competitorPrices) then []
    else
      var compAvg := Mean(competitorPrices.value);
      if price > compAvg * 1.15 then [AboveCompetition]
      else if price < compAvg * 0.85 then [PriceIncreaseOpportunity]
      else []
  }

  /** The demand check: above 90 % or below 60 %. */
  function DemandCheck(demand: real): (c: seq<Recommendation>)
    ensures |c| <= 1 && forall x :: x in c ==> Category(x) == 1
    ensures HighDemand in c <==> demand > 0.90
    ensures LowDemand in c <==> !(demand > 0.90) && demand < 0.60
  {
    if demand > 0.90 then [HighDemand]
    else if demand < 0.60 then [LowDemand]
    else []
  }

  /** The bound check: within 5 % of the minimum, or of the maximum. */
  function BoundCheck(price: real, rule: PricingRule): (c: seq<Recommendation>)
    ensures |c| <= 1 && forall x :: x in c ==> Category(x) == 2
    ensures NearMinimum in c <==> price <= rule.minPrice * 1.05
    ensures PremiumPrice in c <==> !(price <= rule.minPrice * 1.05) && price >= rule.maxPrice * 0.95
  {
    if price <= rule.minPrice * 1.05 then [NearMinimum]
    else if price >= rule.maxPrice * 0.95 then [PremiumPrice]
    else []
  }

  /** _generate_recommendations: the three checks' messages, in order. */
  function GenerateRecommendations(price: real, demand: real, competitorPrices: Option<seq<real>>, rule: PricingRule)
    : (recs: seq<Recommendation>)
    ensures RecommendationsFor(recs, price, demand, competitorPrices, rule)
  {
    var c, d, b := CompetitorCheck(price, competitorPrices), DemandCheck(demand), BoundCheck(price, rule);
    assert forall i :: 0 <= i < |c| ==> Category(c[i]) == 0;
    assert forall i :: 0 <= i < |d| ==> Category(d[i]) == 1;
    assert forall i :: 0 <= i < |b| ==> Category(b[i]) == 2;
    c + d + b
  }

  // ---------------------------------------------------------------------------
  // calculate_optimal_price

  datatype OptimalPrice = OptimalPrice(
    optimalPrice: real,
    predictedOccupancy: real,
    predictedRevpar: real,
    baseDemand: real,
    competitorAvgPrice: real,
    priceVsCompetition: real,
    recommendations: seq<Recommendation>)

  /** The figures reported for a chosen price x. */
  function PriceReport(pow: Pow, x: real, predictedDemand: real, rule: PricingRule,
                       competitorPrices: Option<seq<real>>, competitorAvgPrice: real): (o: OptimalPrice)
    requires competitorAvgPrice != 0.0
    ensures o.optimalPrice == x
    ensures o.predictedOccupancy == DemandFunction(pow, x, predictedDemand, rule.elasticity, competitorAvgPrice)
    ensures DemandFloor <= o.predictedOccupancy <= DemandCeiling
    ensures o.predictedRevpar == x * o.predictedOccupancy
    ensures o.baseDemand == predictedDemand && o.competitorAvgPrice == competitorAvgPrice
    ensures o.priceVsCompetition == (x / competitorAvgPrice - 1.0) * 100.0
    ensures RecommendationsFor(o.recommendations, x, o.predictedOccupancy, competitorPrices, rule)
  {
    var finalDemand := DemandFunction(pow, x, predictedDemand, rule.elasticity, competitorAvgPrice);
    OptimalPrice(x, finalDemand, x * finalDemand, predictedDemand, competitorAvgPrice,
                 (x / competitorAvgPrice - 1.0) * 100.0,
                 GenerateRecommendations(x, finalDemand, competitorPrices, rule))
  }

  /** calculate_optimal_price: the optimiser's price in [min, max] and its report. */
  method CalculateOptimalPrice(
    pow: Pow, minimize: Minimizer,
    predictedDemand: real, roomType: string, competitorPrices: Option<seq<real>>,
    minPrice: Option<real>, maxPrice: Option<real>, target: string)
    returns (r: Result<OptimalPrice>)
    ensures var rule := RulesFor(roomType);
      var lo, hi := ResolveBound(minPrice, rule.minPrice), ResolveBound(maxPrice, rule.maxPrice);
      var avg := ReferencePrice(competitorPrices, rule);
      && (r.Failure? <==> lo > hi || avg == 0.0)
      && (r.Failure? ==> r.error == (if lo > hi then BoundsInverted else ZeroReferencePrice))
      && (r.Success? ==>
            && lo <= r.value.optimalPrice <= hi
            && r.value == PriceReport(pow, r.value.optimalPrice, predictedDemand, rule, competitorPrices, avg))
  {
    var rule := RulesFor(roomType);
    var lo := ResolveBound(minPrice, rule.minPrice);
    var hi := ResolveBound(maxPrice, rule.maxPrice);
    var avg := ReferencePrice(competitorPrices, rule);
    if lo > hi {
      return Failure(BoundsInverted);
    }
    if avg == 0.0 {
      return Failure(ZeroReferencePrice);
    }
    var objective := (p: real) => Objective(pow, target, p, predictedDemand, rule.elasticity, avg);
    var x := minimize(objective, lo, hi);
    r := Success(PriceReport(pow, x, predictedDemand, rule, competitorPrices, avg));
  }

  // ---------------------------------------------------------------------------
  // scenario_analysis

  /** -⌊-x⌋, the least integer not below x. */
  function Ceil(x: real): (c: int)
    ensures c as real >= x && (c as real) - 1.0 < x
  {
    -((-x).Floor)
  }

  /** The length of `np.arange(lo, hi, step)`. */
  function GridSize(lo: real, hi: real, step: real): nat
    requires step > 0.0
  {
    if hi <= lo then 0 else Ceil((hi - lo) / step)
  }

  /** The i-th point of an arithmetic grid. */
  function GridPoint(lo: real, step: real, i: int): real
  {
    lo + (i as real) * step
  }

  /** `np.arange(lo, hi, step)`: lo, lo + step, … while below hi. */
  function PriceGrid(lo: real, hi: real, step: real): (g: seq<real>)
    requires step > 0.0
    ensures |g| == GridSize(lo, hi, step)
    ensures forall i :: 0 <= i < |g| ==> g[i] == GridPoint(lo, step, i)
    ensures forall i :: 0 <= i < |g| ==> lo <= g[i] < hi
    ensures forall i, j :: 0 <= i < j < |g| ==> g[i] < g[j]
    ensures GridPoint(lo, step, |g|) >= hi
  {
    var n := GridSize(lo, hi, step);
    GridSizeFacts(lo, hi, step);
    StepsIncrease(lo, step, n);
    seq(n, (i: int) requires 0 <= i => GridPoint(lo, step, i))
  }

  /** Every index below the grid size stays in [lo, hi); the size itself reaches hi. */
  lemma {:induction false} GridSizeFacts(lo: real, hi: real, step: real)
    requires step > 0.0
    ensures forall i :: 0 <= i < GridSize(lo, hi, step) ==> lo <= GridPoint(lo, step, i) < hi
    ensures GridPoint(lo, step, GridSize(lo, hi, step)) >= hi
  {
    var n := GridSize(lo, hi, step);
    if n > 0 {
      var q := (hi - lo) / step;
      assert q * step == hi - lo;
      forall i | 0 <= i < n ensures lo <= GridPoint(lo, step, i) < hi {
        assert (i as real) < q;
        assert (i as real) * step < q * step;
      }
      assert (n as real) * step >= q * step;
    }
  }

  lemma {:induction false} StepsIncrease(lo: real, step: real, n: int)
    requires step > 0.0
    ensures forall i, j :: 0 <= i < j < n ==> GridPoint(lo, step, i) < GridPoint(lo, step, j)
  {
    forall i, j | 0 <= i < j < n ensures GridPoint(lo, step, i) < GridPoint(lo, step, j) {
      assert (j as real) * step - (i as real) * step == ((j - i) as real) * step;
      PositiveProduct((j - i) as real, step);
    }
  }

  lemma {:induction false} PositiveProduct(a: real, b: real)
    requires a > 0.0 && b > 0.0
    ensures a * b > 0.0
  {
  }

  /** The grid scenario_analysis walks: the given price range, else
      np.arange(min_price, max_price, 5) of the room type's rule. */
  function ScenarioGrid(priceRange: Option<seq<real>>, rule: PricingRule): seq<real>
  {
    match priceRange
    case Some(prices) => prices
    case None => PriceGrid(rule.minPrice, rule.maxPrice, 5.0)
  }

  datatype Scenario = Scenario(price: real, occupancyRate: real, revpar: real, vsCompetition: real)

  /** One row of the scenario table. */
  function ScenarioAt(pow: Pow, price: real, baseDemand: real, rule: PricingRule, competitorAvgPrice: real): (s: Scenario)
    requires competitorAvgPrice != 0.0
    ensures s.price == price
    ensures s.occupancyRate == DemandFunction(pow, price, baseDemand, rule.elasticity, competitorAvgPrice)
    ensures DemandFloor <= s.occupancyRate <= DemandCeiling
    ensures s.revpar == price * s.occupancyRate
  {
    var demand := DemandFunction(pow, price, baseDemand, rule.elasticity, competitorAvgPrice);
    Scenario(price, demand, price * demand, (price / competitorAvgPrice - 1.0) * 100.0)
  }

  /** The loop of scenario_analysis: one scenario per grid price, in order. */
  method Scenarios(pow: Pow, grid: seq<real>, baseDemand: real, rule: PricingRule, avg: real)
    returns (scenarios: seq<Scenario>)
    requires avg != 0.0
    ensures |scenarios| == |grid|
    ensures forall i :: 0 <= i < |grid| ==> scenarios[i] == ScenarioAt(pow, grid[i], baseDemand, rule, avg)
  {
    scenarios := [];
    for k := 0 to |grid|
      invariant |scenarios| == k
      invariant forall i :: 0 <= i < k ==> scenarios[i] == ScenarioAt(pow, grid[i], baseDemand, rule, avg)
    {
      var price := grid[k];
      var demand := DemandFunction(pow, price, baseDemand, rule.elasticity, avg);
      var revpar := price * demand;
      scenarios := scenarios + [Scenario(price, demand, revpar, (price / avg - 1.0) * 100.0)];
    }
  }

  /** Along the default grid, the predicted occupancy never rises. */
  lemma {:induction false} DefaultGridDemandFalls(pow: Pow, baseDemand: real, roomType: string, avg: real)
    requires avg > 0.0 && baseDemand >= 0.0
    ensures var rule := RulesFor(roomType);
      var grid := PriceGrid(rule.minPrice, rule.maxPrice, 5.0);
      forall i, j :: 0 <= i <= j < |grid| ==>
        DemandFunction(pow, grid[j], baseDemand, rule.elasticity, avg) <=
        DemandFunction(pow, grid[i], baseDemand, rule.elasticity, avg)
  {
    var rule := RulesFor(roomType);
    var grid := PriceGrid(rule.minPrice, rule.maxPrice, 5.0);
    forall i, j | 0 <= i <= j < |grid|
      ensures DemandFunction(pow, grid[j], baseDemand, rule.elasticity, avg) <=
              DemandFunction(pow, grid[i], baseDemand, rule.elasticity, avg)
    {
      DemandNonIncreasing(pow, grid[i], grid[j], baseDemand, rule.elasticity, avg);
    }
  }

  method ScenarioAnalysis(pow: Pow, baseDemand: real, roomType: string,
                          competitorPrices: Option<seq<real>>, priceRange: Option<seq<real>>)
    returns (r: Result<seq<Scenario>>)
    ensures var rule := RulesFor(roomType);
      var avg := ReferencePrice(competitorPrices, rule);
      var grid := ScenarioGrid(priceRange, rule);
      && (r.Failure? <==> avg == 0.0)
      && (r.Failure? ==> r.error == ZeroReferencePrice)
      && (r.Success? ==>
        && |r.value| == |grid|
        && (forall i :: 0 <= i < |grid| ==> r.value[i] == ScenarioAt(pow, grid[i], baseDemand, rule, avg))
        && (priceRange.None? && avg > 0.0 && baseDemand >= 0.0 ==>
              forall i, j :: 0 <= i <= j < |grid| ==> r.value[j].occupancyRate <= r.value[i].occupancyRate))
  {
    var rule := RulesFor(roomType);
    var grid := ScenarioGrid(priceRange, rule);
    var avg := ReferencePrice(competitorPrices, rule);
    if avg == 0.0 {
      return Failure(ZeroReferencePrice);
    }
    var scenarios := Scenarios(pow, grid, baseDemand, rule, avg);
    if priceRange.None? && avg > 0.0 && baseDemand >= 0.0 {
      DefaultGridDemandFalls(pow, baseDemand, roomType, avg);
    }
    r := Success(scenarios);
  }

  // ---------------------------------------------------------------------------
  // get_pricing_insights

  datatype PriceObservation = PriceObservation(price: real, occupancyRate: real)

  datatype Opportunity = LowPriceSensitivity | HighPriceVolatility

  datatype PricingInsights = PricingInsights(
    avgPrice: real,
    avgOccupancy: real,
    avgRevpar: real,
    priceVolatility: real,
    occupancyVolatility: real,
    priceOccupancyCorrelation: real,
    opportunities: seq<Opportunity>)

  function Prices(history: seq<PriceObservation>): (s: seq<real>)
    ensures |s| == |history|
  {
    seq(|history|, (i: int) requires 0 <= i < |history| => history[i].price)
  }

  function Occupancies(history: seq<PriceObservation>): (s: seq<real>)
    ensures |s| == |history|
  {
    seq(|history|, (i: int) requires 0 <= i < |history| => history[i].occupancyRate)
  }

  /** The `revpar` column: price × occupancy_rate, row by row. */
  function RevparColumn(history: seq<PriceObservation>): (s: seq<real>)
    ensures |s| == |history|
    ensures forall i :: 0 <= i < |history| ==> s[i] == history[i].price * history[i].occupancyRate
  {
    seq(|history|, (i: int) requires 0 <= i < |history| => history[i].price * history[i].occupancyRate)
  }

  /** The standard deviations and the price/occupancy correlation are given:
      they need square roots, which the model leaves to floating point. */
  method GetPricingInsights(history: seq<PriceObservation>, priceStd: real, occupancyStd: real, correlation: real)
    returns (insights: PricingInsights)
    requires |history| > 0 && Mean(Prices(history)) != 0.0
    ensures insights.avgPrice == Mean(Prices(history))
    ensures insights.avgOccupancy == Mean(Occupancies(history))
    ensures insights.avgRevpar == Mean(RevparColumn(history))
    ensures insights.priceVolatility == priceStd / Mean(Prices(history))
    ensures insights.occupancyVolatility == occupancyStd
    ensures insights.priceOccupancyCorrelation == correlation
    ensures LowPriceSensitivity in insights.opportunities <==> correlation > -0.3
    ensures HighPriceVolatility in insights.opportunities <==> priceStd / Mean(Prices(history)) > 0.15
    ensures |insights.opportunities| <= 2
    ensures |insights.opportunities| == 2 ==> insights.opportunities == [LowPriceSensitivity, HighPriceVolatility]
  {
    var avgPrice := Mean(Prices(history));
    var volatility := priceStd / avgPrice;
    var opportunities: seq<Opportunity> := [];
    if correlation > -0.3 {
      opportunities := opportunities + [LowPriceSensitivity];
    }
    if volatility > 0.15 {
      opportunities := opportunities + [HighPriceVolatility];
    }
    insights := PricingInsights(avgPrice, Mean(Occupancies(history)), Mean(RevparColumn(history)),
                                volatility, occupancyStd, correlation, opportunities);
  }

  /** With non-negative prices and occupancy rates in [0, 1], the average RevPAR
      lies between 0 and the average price. */
  lemma {:induction false} AvgRevparAtMostAvgPrice(history: seq<PriceObservation>)
    requires |history| > 0
    requires forall i :: 0 <= i < |history| ==> history[i].price >= 0.0 && 0.0 <= history[i].occupancyRate <= 1.0
    ensures 0.0 <= Mean(RevparColumn(history)) <= Mean(Prices(history))
  {
    RevparSumBound(history);
    var n := |history| as real;
    MeanNonNegative(RevparColumn(history));
    DivideBound(Sum(Prices(history)), Sum(RevparColumn(history)) / n, n);
    assert Sum(RevparColumn(history)) == (Sum(RevparColumn(history)) / n) * n;
  }

  lemma {:induction false} RevparSumBound(history: seq<PriceObservation>)
    requires forall i :: 0 <= i < |history| ==> history[i].price >= 0.0 && 0.0 <= history[i].occupancyRate <= 1.0
    ensures Sum(RevparColumn(history)) <= Sum(Prices(history))
  {
    if history != [] {
      var init := history[..|history| - 1];
      RevparSumBound(init);
      assert forall i :: 0 <= i < |init| ==> RevparColumn(history)[..|history| - 1][i] == RevparColumn(init)[i];
      assert RevparColumn(history)[..|history| - 1] == RevparColumn(init);
      assert forall i :: 0 <= i < |init| ==> Prices(history)[..|history| - 1][i] == Prices(init)[i];
      assert Prices(history)[..|history| - 1] == Prices(init);
      var last := history[|history| - 1];
      assert last.price * last.occupancyRate <= last.price;
    }
  }
}
