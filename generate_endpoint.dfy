/**
 * The stand-alone portfolio generation endpoint: it validates the risk level and the investment,
 * then returns three fixed allocations whose current values split the investment 50/30/20 and
 * whose percentages are drawn uniformly from fixed ranges.
 *
 * `random.uniform(a, b)` is `a + (b - a) * random.random()`; the three `random.random()` values
 * are passed in.
 */
module GenerateEndpoint {
  import opened Wrappers
  import opened RealSeq

  datatype EndpointAllocation = EndpointAllocation(assetName: string, assetType: string, percentage: real,
                                                   currentValue: real)

  datatype EndpointPortfolio = EndpointPortfolio(name: string, description: string, riskLevel: int,
                                                 initialInvestment: real, allocations: seq<EndpointAllocation>)

  /** An HTTP 400 with its detail message. */
  datatype BadRequest = BadRequest(detail: string)

  const RISK_LEVEL_MESSAGE := "Risk level must be between 1 and 10."
  const INVESTMENT_MESSAGE := "Initial investment must be greater than zero."

  /** Three `random.random()` values, each in [0, 1). */
  datatype UnitDraws = UnitDraws(stock: real, bond: real, realEstate: real)

  predicate ValidDraws(d: UnitDraws)
  {
    0.0 <= d.stock < 1.0 && 0.0 <= d.bond < 1.0 && 0.0 <= d.realEstate < 1.0
  }

  /** `random.uniform(low, high)` given the underlying unit draw. */
  function Uniform(low: real, high: real, u: real): (x: real)
    requires low <= high && 0.0 <= u < 1.0
    ensures low <= x <= high
  {
    var width := high - low;
    ScaledBelow(width, u);
    low + width * u
  }

  lemma ScaledBelow(a: real, u: real)
    requires a >= 0.0 && 0.0 <= u < 1.0
    ensures 0.0 <= a * u <= a
  {
    assert a * (1.0 - u) >= 0.0;
  }

  /** `generate_portfolio(name, description, risk_level, initial_investment)`. */
  function GeneratePortfolio(name: string, description: string, riskLevel: int, initialInvestment: real,
                             draws: UnitDraws): (r: Result<EndpointPortfolio, BadRequest>)
    requires ValidDraws(draws)
    ensures r.Err? <==> riskLevel < 1 || riskLevel > 10 || initialInvestment <= 0.0
    ensures (riskLevel < 1 || riskLevel > 10) ==> r == Err(BadRequest(RISK_LEVEL_MESSAGE))
    ensures 1 <= riskLevel <= 10 && initialInvestment <= 0.0 ==> r == Err(BadRequest(INVESTMENT_MESSAGE))
    ensures r.Ok? ==>
              r.value.name == name && r.value.description == description &&
              r.value.riskLevel == riskLevel && r.value.initialInvestment == initialInvestment
    ensures r.Ok? ==>
              var a := r.value.allocations;
              |a| == 3 &&
              a[0].assetName == "Tech Fund" && a[0].assetType == "Stock" &&
              a[1].assetName == "Gov Bond" && a[1].assetType == "Bond" &&
              a[2].assetName == "REIT" && a[2].assetType == "Real Estate" &&
              40.0 <= a[0].percentage <= 60.0 && 20.0 <= a[1].percentage <= 30.0 && 10.0 <= a[2].percentage <= 20.0 &&
              a[0].currentValue == initialInvestment * 0.5 && a[1].currentValue == initialInvestment * 0.3 &&
              a[2].currentValue == initialInvestment * 0.2
  {
    if riskLevel < 1 || riskLevel > 10 then Err(BadRequest(RISK_LEVEL_MESSAGE))
    else if initialInvestment <= 0.0 then Err(BadRequest(INVESTMENT_MESSAGE))
    else
      var allocations := [
        EndpointAllocation("Tech Fund", "Stock", Uniform(40.0, 60.0, draws.stock), initialInvestment * 0.5),
        EndpointAllocation("Gov Bond", "Bond", Uniform(20.0, 30.0, draws.bond), initialInvestment * 0.3),
        EndpointAllocation("REIT", "Real Estate", Uniform(10.0, 20.0, draws.realEstate), initialInvestment * 0.2)
      ];
      Ok(EndpointPortfolio(name, description, riskLevel, initialInvestment, allocations))
  }

  function CurrentValues(a: seq<EndpointAllocation>): (v: seq<real>)
    ensures |v| == |a| && forall k :: 0 <= k < |a| ==> v[k] == a[k].currentValue
  {
    seq(|a|, k requires 0 <= k < |a| => a[k].currentValue)
  }

  function EndpointPercentages(a: seq<EndpointAllocation>): (p: seq<real>)
    ensures |p| == |a| && forall k :: 0 <= k < |a| ==> p[k] == a[k].percentage
  {
    seq(|a|, k requires 0 <= k < |a| => a[k].percentage)
  }

  lemma TripleSum(s: seq<real>)
    requires |s| == 3
    ensures Sum(s) == s[0] + s[1] + s[2]
  {
    assert s[..1][..0] == [];
    assert Sum(s[..1]) == s[0];
    assert s[..2][..1] == s[..1];
    assert Sum(s[..2]) == s[0] + s[1];
    assert s[..3] == s;
  }

  /**
   * The current values make up exactly the investment, while the drawn percentages need not
   * total 100: they total somewhere from 70 to 110.
   */
  lemma ValuesSplitTheInvestment(name: string, description: string, riskLevel: int, initialInvestment: real,
                                 draws: UnitDraws)
    requires ValidDraws(draws)
    requires GeneratePortfolio(name, description, riskLevel, initialInvestment, draws).Ok?
    ensures var a := GeneratePortfolio(name, description, riskLevel, initialInvestment, draws).value.allocations;
            Sum(CurrentValues(a)) == initialInvestment &&
            70.0 <= Sum(EndpointPercentages(a)) <= 110.0
  {
    var a := GeneratePortfolio(name, description, riskLevel, initialInvestment, draws).value.allocations;
    TripleSum(CurrentValues(a));
    TripleSum(EndpointPercentages(a));
  }
}
