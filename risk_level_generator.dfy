/**
 * The risk-level allocation generator: a risk level picks one of four bands of class
 * percentages and stock funds, the stock funds are rescaled to the band's stock share, the bond
 * share is split 70/30 between two bond funds, and cash and real estate follow. Every entry's
 * amount is its percentage of the initial investment.
 */
module RiskLevelGenerator {
  import opened Wrappers
  import opened RealSeq

  /** A fund entry of a band: its name, ticker and percentage. */
  datatype Holding = Holding(name: string, ticker: string, percentage: real)

  /** One entry of the generated allocation list. */
  datatype PlannedAllocation = PlannedAllocation(assetType: string, assetName: string, ticker: Option<string>,
                                                 percentage: real, amount: real)

  /** The class percentages and stock funds a risk level selects. */
  datatype Band = Band(stocksPercentage: real, bondsPercentage: real, cashPercentage: real,
                       realEstatePercentage: real, stocks: seq<Holding>)

  /** `(risk_level - 1) / 9`: 0 at level 1 and 1 at level 10. */
  function RiskFactor(riskLevel: int): real
  {
    (riskLevel - 1) as real / 9.0
  }

  const VIG := Holding("Vanguard Dividend Appreciation ETF", "VIG", 10.0)
  const VYM := Holding("Vanguard High Dividend Yield ETF", "VYM", 10.0)

  /** The four bands, chosen by `risk_level <= 2`, `<= 4`, `<= 7` and otherwise; no level is rejected. */
  function BandOf(riskLevel: int): (b: Band)
    ensures |b.stocks| >= 2
    ensures 1 <= riskLevel <= 10 ==>
              0.0 <= b.stocksPercentage <= 100.0 && 0.0 <= b.bondsPercentage <= 100.0 &&
              0.0 <= b.cashPercentage <= 100.0 && 0.0 <= b.realEstatePercentage <= 100.0
  {
    var f := RiskFactor(riskLevel);
    if riskLevel <= 2 then
      Band(20.0 + f * 10.0, 60.0 - f * 10.0, 15.0 - f * 5.0, 5.0, [VIG, VYM])
    else if riskLevel <= 4 then
      Band(30.0 + f * 15.0, 50.0 - f * 10.0, 10.0 - f * 5.0, 10.0,
           [VIG, VYM, Holding("Vanguard S&P 500 ETF", "VOO", 10.0)])
    else if riskLevel <= 7 then
      Band(50.0 + f * 20.0, 30.0 - f * 10.0, 5.0, 15.0 - f * 5.0,
           [Holding("Vanguard S&P 500 ETF", "VOO", 20.0),
            Holding("Vanguard Total Stock Market ETF", "VTI", 20.0),
            Holding("Vanguard FTSE Developed Markets ETF", "VEA", 10.0)])
    else
      Band(70.0 + f * 20.0, 10.0, 5.0, 15.0 - f * 5.0,
           [Holding("Vanguard S&P 500 ETF", "VOO", 20.0),
            Holding("Vanguard Total Stock Market ETF", "VTI", 20.0),
            Holding("Vanguard FTSE Developed Markets ETF", "VEA", 15.0),
            Holding("Vanguard FTSE Emerging Markets ETF", "VWO", 15.0)])
  }

  function HoldingPercentages(h: seq<Holding>): (p: seq<real>)
    ensures |p| == |h| && forall k :: 0 <= k < |h| ==> p[k] == h[k].percentage
  {
    seq(|h|, k requires 0 <= k < |h| => h[k].percentage)
  }

  /** A band whose listed stock percentages total more than 0, so the adjustment factor exists. */
  predicate Listed(band: Band)
  {
    Sum(HoldingPercentages(band.stocks)) > 0.0
  }

  /** The bands have 2, 3, 3 and 4 stock funds, whose listed percentages total 20, 30, 50 and 70. */
  lemma BandStocks(riskLevel: int)
    ensures riskLevel <= 2 ==> |BandOf(riskLevel).stocks| == 2
    ensures 2 < riskLevel <= 4 ==> |BandOf(riskLevel).stocks| == 3
    ensures 4 < riskLevel <= 7 ==> |BandOf(riskLevel).stocks| == 3
    ensures 7 < riskLevel ==> |BandOf(riskLevel).stocks| == 4
    ensures Sum(HoldingPercentages(BandOf(riskLevel).stocks)) ==
            if riskLevel <= 2 then 20.0 else if riskLevel <= 4 then 30.0 else if riskLevel <= 7 then 50.0 else 70.0
    ensures Listed(BandOf(riskLevel))
  {
    var p := HoldingPercentages(BandOf(riskLevel).stocks);
    assert p[..0] == [];
    assert p[..1][..0] == [] && Sum(p[..1]) == p[0];
    assert p[..2][..1] == p[..1] && Sum(p[..2]) == p[0] + p[1];
    if |p| >= 3 {
      assert p[..3][..2] == p[..2] && Sum(p[..3]) == p[0] + p[1] + p[2];
    }
    if |p| == 4 {
      assert p[..4][..3] == p[..3];
    }
    assert p[..|p|] == p;
  }

  /** `stock["percentage"] * adjustment_factor` for every stock fund. */
  function Rescaled(stocks: seq<Holding>, factor: real): (r: seq<Holding>)
    ensures |r| == |stocks|
    ensures forall k :: 0 <= k < |stocks| ==>
              r[k].name == stocks[k].name && r[k].ticker == stocks[k].ticker &&
              r[k].percentage == stocks[k].percentage * factor
  {
    seq(|stocks|, k requires 0 <= k < |stocks| => stocks[k].(percentage := stocks[k].percentage * factor))
  }

  /** `stocks_percentage / total_stock_percentage`. */
  function AdjustmentFactor(band: Band): real
    requires Listed(band)
  {
    band.stocksPercentage / Sum(HoldingPercentages(band.stocks))
  }

  /** The two bond funds at 70% and 30% of the bond share. */
  function Bonds(bondsPercentage: real): seq<Holding>
  {
    [Holding("Vanguard Total Bond Market ETF", "BND", bondsPercentage * 0.7),
     Holding("Vanguard Short-Term Bond ETF", "BSV", bondsPercentage * 0.3)]
  }

  /** `initial_investment * (percentage / 100)`. */
  function Amount(initialInvestment: real, percentage: real): (a: real)
    ensures a * 100.0 == initialInvestment * percentage
  {
    initialInvestment * (percentage / 100.0)
  }

  function Entry(assetType: string, h: Holding, initialInvestment: real): PlannedAllocation
  {
    PlannedAllocation(assetType, h.name, Some(h.ticker), h.percentage, Amount(initialInvestment, h.percentage))
  }

  function Entries(assetType: string, holdings: seq<Holding>, initialInvestment: real): (e: seq<PlannedAllocation>)
    ensures |e| == |holdings|
    ensures forall k :: 0 <= k < |holdings| ==> e[k] == Entry(assetType, holdings[k], initialInvestment)
  {
    seq(|holdings|, k requires 0 <= k < |holdings| => Entry(assetType, holdings[k], initialInvestment))
  }

  function CashEntry(cashPercentage: real, initialInvestment: real): PlannedAllocation
  {
    PlannedAllocation("cash", "Cash Reserve", None, cashPercentage, Amount(initialInvestment, cashPercentage))
  }

  function RealEstateEntry(realEstatePercentage: real, initialInvestment: real): PlannedAllocation
  {
    PlannedAllocation("real_estate", "Vanguard Real Estate ETF", Some("VNQ"), realEstatePercentage,
                      Amount(initialInvestment, realEstatePercentage))
  }

  /** The allocation list of a band: stocks, the two bonds, cash, real estate. */
  function PlannedFrom(band: Band, initialInvestment: real): (r: seq<PlannedAllocation>)
    requires Listed(band)
    ensures |r| == |band.stocks| + 4
    ensures forall k :: 0 <= k < |r| ==> r[k].amount * 100.0 == initialInvestment * r[k].percentage
  {
    Entries("stock", Rescaled(band.stocks, AdjustmentFactor(band)), initialInvestment) +
    Entries("bond", Bonds(band.bondsPercentage), initialInvestment) +
    [CashEntry(band.cashPercentage, initialInvestment), RealEstateEntry(band.realEstatePercentage, initialInvestment)]
  }

  /** `generate_portfolio(risk_level, initial_investment)`. */
  function Planned(riskLevel: int, initialInvestment: real): (r: seq<PlannedAllocation>)
    ensures |r| == |BandOf(riskLevel).stocks| + 4
    ensures Sum(Percentages(r)) == ClassTotal(BandOf(riskLevel))
  {
    BandStocks(riskLevel);
    PlannedTotal(BandOf(riskLevel), initialInvestment);
    PlannedFrom(BandOf(riskLevel), initialInvestment)
  }

  /** `generate_portfolio`: the band of the risk level, then its allocation list. */
  method GenerateAllocations(riskLevel: int, initialInvestment: real) returns (allocations: seq<PlannedAllocation>)
    ensures allocations == Planned(riskLevel, initialInvestment)
  {
    var band := BandOf(riskLevel);
    BandStocks(riskLevel);
    allocations := AllocateBand(band, initialInvestment);
  }

  /** The stock rescaling loop, then the stock, bond, cash and real-estate appends. */
  method AllocateBand(band: Band, initialInvestment: real) returns (allocations: seq<PlannedAllocation>)
    requires Listed(band)
    ensures allocations == PlannedFrom(band, initialInvestment)
  {
    var stocks := band.stocks;
    var factor := band.stocksPercentage / Sum(HoldingPercentages(stocks));
    var i := 0;
    while i < |stocks|
      invariant 0 <= i <= |stocks| == |band.stocks|
      invariant forall k :: 0 <= k < i ==> stocks[k] == Rescaled(band.stocks, factor)[k]
      invariant forall k :: i <= k < |stocks| ==> stocks[k] == band.stocks[k]
    {
      stocks := stocks[i := stocks[i].(percentage := stocks[i].percentage * factor)];
      i := i + 1;
    }
    assert stocks == Rescaled(band.stocks, factor);
    var bonds := Bonds(band.bondsPercentage);
    allocations := [];
    i := 0;
    while i < |stocks|
      invariant 0 <= i <= |stocks|
      invariant allocations == Entries("stock", stocks[..i], initialInvestment)
    {
      allocations := allocations + [Entry("stock", stocks[i], initialInvestment)];
      i := i + 1;
    }
    assert stocks[..i] == stocks;
    ghost var stockEntries := allocations;
    i := 0;
    while i < |bonds|
      invariant 0 <= i <= |bonds|
      invariant allocations == stockEntries + Entries("bond", bonds[..i], initialInvestment)
    {
      allocations := allocations + [Entry("bond", bonds[i], initialInvestment)];
      i := i + 1;
    }
    assert bonds[..i] == bonds;
    allocations := allocations + [CashEntry(band.cashPercentage, initialInvestment)];
    allocations := allocations + [RealEstateEntry(band.realEstatePercentage, initialInvestment)];
  }

  // ---------------------------------------------------------------------------
  // Properties of the generated list
  // ---------------------------------------------------------------------------

  /**
   * The list is the band's stock funds, then BND and BSV, then the ticker-less cash reserve, then
   * VNQ.
   */
  lemma PlannedLayout(band: Band, initialInvestment: real)
    requires Listed(band)
    ensures var r := PlannedFrom(band, initialInvestment);
            var n := |band.stocks|;
            |r| == n + 4 &&
            (forall k :: 0 <= k < n ==> r[k].assetType == "stock" && r[k].ticker == Some(band.stocks[k].ticker)) &&
            r[n].assetType == "bond" && r[n].ticker == Some("BND") && r[n].percentage == band.bondsPercentage * 0.7 &&
            r[n + 1].assetType == "bond" && r[n + 1].ticker == Some("BSV") &&
            r[n + 1].percentage == band.bondsPercentage * 0.3 &&
            r[n + 2].assetType == "cash" && r[n + 2].ticker == None && r[n + 2].percentage == band.cashPercentage &&
            r[n + 3].assetType == "real_estate" && r[n + 3].ticker == Some("VNQ") &&
            r[n + 3].percentage == band.realEstatePercentage
  {
  }

  function Percentages(e: seq<PlannedAllocation>): (p: seq<real>)
    ensures |p| == |e| && forall k :: 0 <= k < |e| ==> p[k] == e[k].percentage
  {
    seq(|e|, k requires 0 <= k < |e| => e[k].percentage)
  }

  /**
   * The rescaled stock funds keep their listed ratios (each is its listed percentage times the
   * band's stock share over the listed total) and together make up the band's stock share.
   */
  lemma RescaledStocksMakeUpStockShare(band: Band, initialInvestment: real)
    requires Listed(band)
    ensures var total := Sum(HoldingPercentages(band.stocks));
            var stocks := PlannedFrom(band, initialInvestment)[..|band.stocks|];
            (forall k :: 0 <= k < |stocks| ==>
               stocks[k].percentage * total == band.stocks[k].percentage * band.stocksPercentage) &&
            Sum(Percentages(stocks)) == band.stocksPercentage
  {
    var total := Sum(HoldingPercentages(band.stocks));
    var factor := AdjustmentFactor(band);
    var stocks := PlannedFrom(band, initialInvestment)[..|band.stocks|];
    var entries := Entries("stock", Rescaled(band.stocks, factor), initialInvestment);
    assert stocks == entries;
    StockPercentagesScaled(band, initialInvestment);
    SumScale(HoldingPercentages(band.stocks), factor);
    QuotientTimesDivisor(band.stocksPercentage, total);
    forall k | 0 <= k < |stocks|
      ensures stocks[k].percentage * total == band.stocks[k].percentage * band.stocksPercentage
    {
      assert stocks[k].percentage == band.stocks[k].percentage * factor;
      ScaledByFactor(band.stocks[k].percentage, band.stocksPercentage, total);
    }
  }

  lemma StockPercentagesScaled(band: Band, initialInvestment: real)
    requires Listed(band)
    ensures Percentages(Entries("stock", Rescaled(band.stocks, AdjustmentFactor(band)), initialInvestment)) ==
            Scale(HoldingPercentages(band.stocks), AdjustmentFactor(band))
  {
    var factor := AdjustmentFactor(band);
    var p := Percentages(Entries("stock", Rescaled(band.stocks, factor), initialInvestment));
    forall k | 0 <= k < |p| ensures p[k] == Scale(HoldingPercentages(band.stocks), factor)[k] {
      assert p[k] == Rescaled(band.stocks, factor)[k].percentage;
    }
  }

  lemma ScaledByFactor(x: real, target: real, total: real)
    requires total != 0.0
    ensures x * (target / total) * total == x * target
  {
  }

  /** The four class percentages of a band. */
  function ClassTotal(band: Band): real
  {
    band.stocksPercentage + band.bondsPercentage + band.cashPercentage + band.realEstatePercentage
  }

  /** The entries' percentages total the band's four class percentages. */
  lemma PlannedTotal(band: Band, initialInvestment: real)
    requires Listed(band)
    ensures Sum(Percentages(PlannedFrom(band, initialInvestment))) == ClassTotal(band)
  {
    var factor := AdjustmentFactor(band);
    var stocks := Entries("stock", Rescaled(band.stocks, factor), initialInvestment);
    var bonds := Entries("bond", Bonds(band.bondsPercentage), initialInvestment);
    var tail := [CashEntry(band.cashPercentage, initialInvestment),
                 RealEstateEntry(band.realEstatePercentage, initialInvestment)];
    assert Percentages(stocks + bonds + tail) == Percentages(stocks) + Percentages(bonds) + Percentages(tail);
    SumAppend(Percentages(stocks) + Percentages(bonds), Percentages(tail));
    SumAppend(Percentages(stocks), Percentages(bonds));
    StockPercentagesScaled(band, initialInvestment);
    SumScale(HoldingPercentages(band.stocks), factor);
    QuotientTimesDivisor(band.stocksPercentage, Sum(HoldingPercentages(band.stocks)));
    assert PlannedFrom(band, initialInvestment) == stocks + bonds + tail;
    PairSum(Percentages(bonds));
    PairSum(Percentages(tail));
  }

  lemma PairSum(p: seq<real>)
    requires |p| == 2
    ensures Sum(p) == p[0] + p[1]
  {
    assert p[..1][..0] == [];
    assert Sum(p[..1]) == p[0];
    assert Sum(p) == Sum(p[..1]) + p[1];
  }

  /** The class percentages of each band as a function of the risk factor f. */
  lemma BandTotals(riskLevel: int)
    ensures var f := RiskFactor(riskLevel);
            ClassTotal(BandOf(riskLevel)) ==
              if riskLevel <= 2 then 100.0 - f * 5.0
              else if riskLevel <= 4 then 100.0
              else if riskLevel <= 7 then 100.0 + f * 5.0
              else 100.0 + f * 15.0
  {
  }

  /** As written, the percentages at risk level 10 total 115, and at level 2 fall short of 100. */
  lemma PercentagesMissOneHundred(initialInvestment: real)
    ensures Sum(Percentages(Planned(10, initialInvestment))) == 115.0
    ensures Sum(Percentages(Planned(2, initialInvestment))) < 100.0
    ensures Sum(Percentages(Planned(1, initialInvestment))) == 100.0
  {
    BandStocks(10);
    BandStocks(2);
    BandStocks(1);
    PlannedTotal(BandOf(10), initialInvestment);
    PlannedTotal(BandOf(2), initialInvestment);
    PlannedTotal(BandOf(1), initialInvestment);
  }

  lemma ClassTotalPositive(riskLevel: int)
    ensures ClassTotal(BandOf(riskLevel)) > 0.0
  {
    BandTotals(riskLevel);
  }

  /** The band with its four class percentages scaled to total 100, the stock funds unchanged. */
  function Balanced(band: Band): (b: Band)
    requires ClassTotal(band) > 0.0
    ensures b.stocks == band.stocks
  {
    var c := 100.0 / ClassTotal(band);
    Band(band.stocksPercentage * c, band.bondsPercentage * c, band.cashPercentage * c,
         band.realEstatePercentage * c, band.stocks)
  }

  /** The allocation list with the class percentages scaled to make up the whole investment. */
  function PlannedBalanced(riskLevel: int, initialInvestment: real): (r: seq<PlannedAllocation>)
    ensures |r| == |BandOf(riskLevel).stocks| + 4
    ensures Sum(Percentages(r)) == 100.0
  {
    BandStocks(riskLevel);
    ClassTotalPositive(riskLevel);
    BalancedBandTotal(BandOf(riskLevel), initialInvestment);
    PlannedFrom(Balanced(BandOf(riskLevel)), initialInvestment)
  }

  lemma BalancedArithmetic(s: real, b: real, c: real, r: real)
    requires s + b + c + r > 0.0
    ensures var k := 100.0 / (s + b + c + r);
            s * k + b * k + c * k + r * k == 100.0
  {
    var k := 100.0 / (s + b + c + r);
    assert s * k + b * k + c * k + r * k == (s + b + c + r) * k;
  }

  lemma BalancedBandTotal(band: Band, initialInvestment: real)
    requires Listed(band) && ClassTotal(band) > 0.0
    ensures Sum(Percentages(PlannedFrom(Balanced(band), initialInvestment))) == 100.0
  {
    PlannedTotal(Balanced(band), initialInvestment);
    BalancedArithmetic(band.stocksPercentage, band.bondsPercentage, band.cashPercentage, band.realEstatePercentage);
  }
}
