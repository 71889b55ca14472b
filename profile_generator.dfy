/**
 * The risk-profile portfolio generator: a class-weight table per profile, optional per-class
 * caps whose excess is spread over the other classes, normalisation to a total of 1, and the
 * split of every class into concrete funds.
 *
 * A class-weight dictionary is a sequence of (class, share) pairs in insertion order; updating a
 * value keeps its position, as for a Python dict. The Dirichlet draws that split a class among its
 * funds are passed in, one per multi-fund class.
 */
module ProfileGenerator {
  import opened Wrappers
  import opened RealSeq

  datatype ClassShare = ClassShare(assetClass: string, share: real)

  /** One entry of `max_allocations`: the class and the largest share it may keep. */
  datatype Cap = Cap(asset: string, maxValue: real)

  /**
   * The `constraints` dictionary: its `max_allocations` entry, if any, and how many other keys
   * it holds (they are carried but read by nothing).
   */
  datatype Constraints = Constraints(maxAllocations: Option<seq<Cap>>, otherKeys: nat)

  /** A fund of an asset class. */
  datatype AssetDetail = AssetDetail(name: string, ticker: string, sector: Option<string>, region: Option<string>)

  /** An `AllocationCreate` record. */
  datatype AllocationCreate = AllocationCreate(assetClass: string, assetName: string, allocationPercentage: real,
                                               ticker: Option<string>, sector: Option<string>, region: Option<string>)

  /** A `PortfolioCreate` record. */
  datatype PortfolioCreate = PortfolioCreate(name: string, riskProfile: string, allocations: seq<AllocationCreate>)

  datatype ProfileError =
    | InvalidRiskProfile(profile: string)
    /** Normalising a non-empty table whose shares total 0 divides by zero. */
    | ZeroTotal

  // ---------------------------------------------------------------------------
  // The built-in tables
  // ---------------------------------------------------------------------------

  const CLASSES: seq<string> := ["US Stocks", "International Stocks", "US Bonds", "International Bonds", "Cash"]

  function Table(shares: seq<real>): (t: seq<ClassShare>)
    requires |shares| == |CLASSES|
  {
    seq(|CLASSES|, k requires 0 <= k < |CLASSES| => ClassShare(CLASSES[k], shares[k]))
  }

  /** `ASSET_ALLOCATIONS[profile]`, None for an unknown profile. */
  function BaseAllocations(profile: string): (r: Option<seq<ClassShare>>)
    ensures r.Some? <==> profile == "conservative" || profile == "moderate" || profile == "aggressive"
    ensures r.Some? ==> Classes(r.value) == CLASSES
  {
    if profile == "conservative" then Some(Table([0.20, 0.10, 0.50, 0.10, 0.10]))
    else if profile == "moderate" then Some(Table([0.40, 0.20, 0.30, 0.05, 0.05]))
    else if profile == "aggressive" then Some(Table([0.60, 0.30, 0.10, 0.00, 0.00]))
    else None
  }

  /** `ASSET_CLASS_DETAILS[assetClass]`, None for a class without funds. */
  function ClassDetails(assetClass: string): (r: Option<seq<AssetDetail>>)
    ensures r.Some? <==> assetClass in CLASSES
    ensures r.Some? ==> 1 <= |r.value| <= 3
  {
    if assetClass == "US Stocks" then
      Some([AssetDetail("US Large Cap", "VTI", Some("Broad Market"), None),
            AssetDetail("US Small Cap", "VB", Some("Broad Market"), None),
            AssetDetail("US Tech Sector", "VGT", Some("Technology"), None)])
    else if assetClass == "International Stocks" then
      Some([AssetDetail("Developed Markets", "VEA", None, Some("Developed")),
            AssetDetail("Emerging Markets", "VWO", None, Some("Emerging"))])
    else if assetClass == "US Bonds" then
      Some([AssetDetail("Treasury Bonds", "VGIT", Some("Government"), None),
            AssetDetail("Corporate Bonds", "VCIT", Some("Corporate"), None)])
    else if assetClass == "International Bonds" then
      Some([AssetDetail("International Bonds", "BNDX", None, Some("Global"))])
    else if assetClass == "Cash" then
      Some([AssetDetail("Money Market", "VMFXX", Some("Cash Equivalent"), None)])
    else None
  }

  function Classes(t: seq<ClassShare>): (names: seq<string>)
    ensures |names| == |t| && forall k :: 0 <= k < |t| ==> names[k] == t[k].assetClass
  {
    seq(|t|, k requires 0 <= k < |t| => t[k].assetClass)
  }

  function Shares(t: seq<ClassShare>): (s: seq<real>)
    ensures |s| == |t| && forall k :: 0 <= k < |t| ==> s[k] == t[k].share
  {
    seq(|t|, k requires 0 <= k < |t| => t[k].share)
  }

  /** The table with its shares replaced, class by class. */
  function WithShares(t: seq<ClassShare>, s: seq<real>): (r: seq<ClassShare>)
    requires |s| == |t|
    ensures Classes(r) == Classes(t) && Shares(r) == s
  {
    seq(|t|, k requires 0 <= k < |t| => ClassShare(t[k].assetClass, s[k]))
  }

  predicate DistinctClasses(t: seq<ClassShare>)
  {
    forall i, j :: 0 <= i < j < |t| ==> t[i].assetClass != t[j].assetClass
  }

  /** Every built-in profile lists the five classes once each, with non-negative shares summing to 1. */
  lemma BaseAllocationsAreWeights(profile: string)
    requires BaseAllocations(profile).Some?
    ensures var t := BaseAllocations(profile).value;
            Classes(t) == CLASSES && DistinctClasses(t) && NonNegative(Shares(t)) && Sum(Shares(t)) == 1.0
  {
    var t := BaseAllocations(profile).value;
    var s := Shares(t);
    assert Sum(s[..1]) == s[0] by { assert s[..1][..0] == []; }
    assert Sum(s[..2]) == Sum(s[..1]) + s[1] by { assert s[..2][..1] == s[..1]; }
    assert Sum(s[..3]) == Sum(s[..2]) + s[2] by { assert s[..3][..2] == s[..2]; }
    assert Sum(s[..4]) == Sum(s[..3]) + s[3] by { assert s[..4][..3] == s[..3]; }
    assert Sum(s) == Sum(s[..4]) + s[4] by { assert s[..5] == s; }
  }

  // ---------------------------------------------------------------------------
  // Caps
  // ---------------------------------------------------------------------------

  /** Where a class sits in the table (`asset in allocations`). */
  function IndexOf(names: seq<string>, x: string): (i: Option<nat>)
    ensures i.None? <==> x !in names
    ensures i.Some? ==> i.value < |names| && names[i.value] == x
  {
    if names == [] then None
    else if names[0] == x then Some(0)
    else
      var rest := IndexOf(names[1..], x);
      if rest.None? then None else Some(rest.value + 1)
  }

  /** The total of every share but the i-th. */
  function Others(s: seq<real>, i: nat): real
    requires i < |s|
  {
    Sum(s[..i] + s[i + 1..])
  }

  /**
   * Cutting share i down to `maxValue`: when the other shares total more than 0, the cut-off
   * amount is added to each of them in proportion to its share of that total.
   */
  function Redistributed(s: seq<real>, i: nat, maxValue: real): (r: seq<real>)
    requires i < |s|
    ensures |r| == |s| && r[i] == maxValue
  {
    var diff := s[i] - maxValue;
    var remaining := Others(s, i);
    if remaining > 0.0 then
      seq(|s|, j requires 0 <= j < |s| => if j == i then maxValue else s[j] + diff * (s[j] / remaining))
    else s[i := maxValue]
  }

  /** One cap: applied only to a class in the table whose share exceeds the cap. */
  function CapStep(names: seq<string>, s: seq<real>, cap: Cap): (r: seq<real>)
    requires |s| == |names|
    ensures |r| == |s|
    ensures cap.asset !in names ==> r == s
    ensures r != s ==> exists i :: 0 <= i < |s| && names[i] == cap.asset && s[i] > cap.maxValue && r[i] == cap.maxValue
  {
    var i := IndexOf(names, cap.asset);
    if i.Some? && s[i.value] > cap.maxValue then Redistributed(s, i.value, cap.maxValue) else s
  }

  /** The caps applied one after another, in the order of `max_allocations`. */
  function Capped(names: seq<string>, s: seq<real>, caps: seq<Cap>): (r: seq<real>)
    requires |s| == |names|
    ensures |r| == |s|
    ensures (forall k :: 0 <= k < |caps| ==> caps[k].asset !in names) ==> r == s
    decreases |caps|
  {
    if caps == [] then s
    else CapStep(names, Capped(names, s, caps[..|caps| - 1]), caps[|caps| - 1])
  }

  lemma ProportionalStep(a: real, diff: real, remaining: real)
    requires remaining != 0.0
    ensures (a + diff * (a / remaining)) * remaining == a * (remaining + diff)
  {
  }

  /** Every other share grows by the same factor (remaining + diff) / remaining, so zeros stay zero. */
  lemma RedistributionIsProportional(s: seq<real>, i: nat, maxValue: real)
    requires i < |s| && Others(s, i) > 0.0
    ensures var r := Redistributed(s, i, maxValue);
            forall j :: 0 <= j < |s| && j != i ==>
              r[j] * Others(s, i) == s[j] * (Others(s, i) + s[i] - maxValue)
    ensures forall j :: 0 <= j < |s| && s[j] == 0.0 ==> j == i || Redistributed(s, i, maxValue)[j] == 0.0
  {
    var r := Redistributed(s, i, maxValue);
    forall j | 0 <= j < |s| && j != i
      ensures r[j] * Others(s, i) == s[j] * (Others(s, i) + s[i] - maxValue)
    {
      ProportionalStep(s[j], s[i] - maxValue, Others(s, i));
    }
  }

  lemma ScaledEntry(a: real, diff: real, remaining: real)
    requires remaining != 0.0
    ensures a + diff * (a / remaining) == a * ((remaining + diff) / remaining)
  {
  }

  lemma FactorCancels(remaining: real, diff: real)
    requires remaining != 0.0
    ensures remaining * ((remaining + diff) / remaining) == remaining + diff
  {
  }

  /** The redistributed shares are the old ones scaled by one factor, with the capped one set. */
  lemma RedistributedIsScaled(s: seq<real>, i: nat, maxValue: real)
    requires i < |s| && Others(s, i) > 0.0
    ensures Redistributed(s, i, maxValue) ==
            Scale(s, (Others(s, i) + s[i] - maxValue) / Others(s, i))[i := maxValue]
  {
    var diff, remaining := s[i] - maxValue, Others(s, i);
    var c := (remaining + diff) / remaining;
    var r := Redistributed(s, i, maxValue);
    forall j | 0 <= j < |s| && j != i ensures r[j] == Scale(s, c)[j] {
      ScaledEntry(s[j], diff, remaining);
    }
  }

  lemma TotalArithmetic(redistributed: real, scaled: real, total: real, capped: real, maxValue: real,
                        remaining: real, c: real)
    requires remaining == total - capped && remaining != 0.0
    requires c == (remaining + capped - maxValue) / remaining
    requires scaled == total * c && redistributed == scaled - capped * c + maxValue
    ensures redistributed == total
  {
    assert total * c - capped * c == remaining * c;
    FactorCancels(remaining, capped - maxValue);
  }

  lemma ScaledUpdateTotal(s: seq<real>, i: nat, x: real, c: real)
    requires i < |s|
    ensures Sum(Scale(s, c)[i := x]) == Sum(s) * c - s[i] * c + x
  {
    SumUpdate(Scale(s, c), i, x);
    SumScale(s, c);
  }

  /** Scaling the other shares by (remaining + diff) / remaining and capping share i keeps the total. */
  lemma ScaledAndCappedTotal(s: seq<real>, i: nat, maxValue: real, remaining: real)
    requires i < |s| && remaining == Others(s, i) && remaining != 0.0
    ensures Sum(Scale(s, (remaining + s[i] - maxValue) / remaining)[i := maxValue]) == Sum(s)
  {
    var c := (remaining + s[i] - maxValue) / remaining;
    var total, capped := Sum(s), Sum(Scale(s, c)[i := maxValue]);
    assert capped == total * c - s[i] * c + maxValue by {
      ScaledUpdateTotal(s, i, maxValue, c);
    }
    assert remaining == total - s[i] by {
      SumAround(s, i);
    }
    TotalArithmetic(capped, total * c, total, s[i], maxValue, remaining, c);
  }

  /** When the other shares total more than 0, capping moves weight without changing the total. */
  lemma RedistributionPreservesTotal(s: seq<real>, i: nat, maxValue: real)
    requires i < |s| && Others(s, i) > 0.0
    ensures Sum(Redistributed(s, i, maxValue)) == Sum(s)
  {
    RedistributedIsScaled(s, i, maxValue);
    ScaledAndCappedTotal(s, i, maxValue, Others(s, i));
  }

  /** Capping an asset only lowers it; a cap that is not exceeded changes nothing. */
  lemma CapStepLowersOnlyTheCappedClass(names: seq<string>, s: seq<real>, cap: Cap)
    requires |s| == |names|
    requires forall i, j :: 0 <= i < j < |names| ==> names[i] != names[j]
    ensures var r := CapStep(names, s, cap);
            (cap.asset !in names ==> r == s) &&
            (forall i :: 0 <= i < |names| && names[i] == cap.asset ==>
               (s[i] <= cap.maxValue ==> r == s) && (s[i] > cap.maxValue ==> r[i] == cap.maxValue < s[i]))
  {
  }

  /** `for j in allocations: if j != asset: allocations[j] += diff * (allocations[j] / remaining)`. */
  method CapAsset(s: seq<real>, i: nat, maxValue: real) returns (r: seq<real>)
    requires i < |s|
    ensures r == Redistributed(s, i, maxValue)
  {
    var diff := s[i] - maxValue;
    r := s[i := maxValue];
    var remaining := Others(r, i);
    assert r[..i] == s[..i] && r[i + 1..] == s[i + 1..];
    if remaining > 0.0 {
      var j := 0;
      while j < |r|
        invariant 0 <= j <= |r| == |s|
        invariant forall k :: 0 <= k < j ==> r[k] == Redistributed(s, i, maxValue)[k]
        invariant forall k :: j <= k < |r| ==> r[k] == s[i := maxValue][k]
      {
        if j != i {
          r := r[j := r[j] + diff * (r[j] / remaining)];
        }
        j := j + 1;
      }
    }
  }

  // ---------------------------------------------------------------------------
  // Normalisation and the constrained table
  // ---------------------------------------------------------------------------

  /**
   * `total = sum(...); if total != 1.0: allocations[k] /= total`: a total of 1 leaves the shares
   * alone; a non-empty table totalling 0 divides by zero.
   */
  function Normalised(s: seq<real>): (r: Result<seq<real>, ProfileError>)
    ensures r.Err? <==> |s| > 0 && Sum(s) == 0.0
    ensures r.Err? ==> r.error == ZeroTotal
    ensures r.Ok? ==> |r.value| == |s|
    ensures r.Ok? && |s| > 0 ==> Sum(r.value) == 1.0
  {
    var total := Sum(s);
    if total == 1.0 then Ok(s)
    else if total == 0.0 then (if |s| > 0 then Err(ZeroTotal) else Ok(s))
    else
      NormalisedSumsToOne(s);
      Ok(DivideAll(s, total))
  }

  /** Normalising what was normalised changes nothing. */
  lemma NormalisedIsIdempotent(s: seq<real>)
    requires Normalised(s).Ok?
    ensures Normalised(Normalised(s).value) == Normalised(s)
  {
  }

  /** Normalising non-negative shares keeps them non-negative. */
  lemma NormalisedKeepsSigns(s: seq<real>)
    requires Normalised(s).Ok? && NonNegative(s)
    ensures NonNegative(Normalised(s).value)
  {
    var total := Sum(s);
    SumNonNegative(s);
    if total != 1.0 && total != 0.0 {
      forall k | 0 <= k < |s| ensures DivideAll(s, total)[k] >= 0.0 {
        QuotientNonNegative(s[k], total);
      }
    }
  }

  /** `not constraints`: None or an empty dictionary. */
  predicate NoConstraints(constraints: Option<Constraints>)
  {
    constraints.None? || (constraints.value.maxAllocations.None? && constraints.value.otherKeys == 0)
  }

  function CapsOf(c: Constraints): seq<Cap>
  {
    if c.maxAllocations.Some? then c.maxAllocations.value else []
  }

  /** `_apply_constraints`: the base table itself without constraints, else capped and normalised. */
  function Constrained(base: seq<ClassShare>, constraints: Option<Constraints>): (r: Result<seq<ClassShare>, ProfileError>)
    ensures NoConstraints(constraints) ==> r == Ok(base)
    ensures r.Ok? ==> Classes(r.value) == Classes(base)
    ensures r.Ok? && !NoConstraints(constraints) && |base| > 0 ==> Sum(Shares(r.value)) == 1.0
    ensures r.Err? ==> r.error == ZeroTotal
  {
    if NoConstraints(constraints) then Ok(base)
    else
      var n := Normalised(Capped(Classes(base), Shares(base), CapsOf(constraints.value)));
      if n.Err? then Err(n.error) else Ok(WithShares(base, n.value))
  }

  /** The caps loop and the normalisation loop over a copy of the table. */
  method ApplyConstraints(base: seq<ClassShare>, constraints: Option<Constraints>)
    returns (r: Result<seq<ClassShare>, ProfileError>)
    ensures r == Constrained(base, constraints)
  {
    if NoConstraints(constraints) {
      return Ok(base);
    }
    var names := Classes(base);
    var shares := Shares(base);
    var caps := CapsOf(constraints.value);
    var c := 0;
    while c < |caps|
      invariant 0 <= c <= |caps|
      invariant shares == Capped(names, Shares(base), caps[..c])
    {
      assert caps[..c + 1][..c] == caps[..c];
      var i := IndexOf(names, caps[c].asset);
      if i.Some? && shares[i.value] > caps[c].maxValue {
        shares := CapAsset(shares, i.value, caps[c].maxValue);
      }
      c := c + 1;
    }
    assert caps[..c] == caps;
    var normalised := Normalise(shares);
    if normalised.Err? {
      return Err(normalised.error);
    }
    r := Ok(WithShares(base, normalised.value));
  }

  /** The normalisation loop: every share divided by the total unless the total is 1. */
  method Normalise(s: seq<real>) returns (r: Result<seq<real>, ProfileError>)
    ensures r == Normalised(s)
  {
    var shares := s;
    var total := Sum(shares);
    if total != 1.0 {
      if total == 0.0 && |shares| > 0 {
        return Err(ZeroTotal);
      }
      if total != 0.0 {
        var k := 0;
        while k < |shares|
          invariant 0 <= k <= |shares| == |s|
          invariant forall m :: 0 <= m < k ==> shares[m] == s[m] / total
          invariant forall m :: k <= m < |shares| ==> shares[m] == s[m]
        {
          shares := shares[k := shares[k] / total];
          k := k + 1;
        }
        assert shares == DivideAll(s, total);
      }
    }
    r := Ok(shares);
  }

  // ---------------------------------------------------------------------------
  // Funds
  // ---------------------------------------------------------------------------

  /** A draw of `np.random.dirichlet(np.ones(n))`: n non-negative numbers summing to 1. */
  predicate ValidDirichlet(d: seq<real>, n: nat)
  {
    |d| == n && NonNegative(d) && Sum(d) == 1.0
  }

  /** A draw for every class that has more than one fund. */
  predicate DirichletDraws(draws: map<string, seq<real>>)
  {
    forall c :: c in CLASSES && ClassDetails(c).Some? && |ClassDetails(c).value| > 1 ==>
      c in draws && ValidDirichlet(draws[c], |ClassDetails(c).value|)
  }

  /** A class is split into funds when its share is positive and it has a fund list. */
  predicate Emitted(cs: ClassShare)
  {
    cs.share > 0.0 && ClassDetails(cs.assetClass).Some?
  }

  /** The funds' sub-shares: the whole share for a single fund, else the draw scaled by the share. */
  function SubShares(cs: ClassShare, draws: map<string, seq<real>>): (sub: seq<real>)
    requires Emitted(cs) && DirichletDraws(draws)
    ensures |sub| == |ClassDetails(cs.assetClass).value|
  {
    var details := ClassDetails(cs.assetClass).value;
    if |details| > 1 then Scale(draws[cs.assetClass], cs.share) else [cs.share]
  }

  /** The funds of a class share sum to it. */
  lemma SubSharesSumToShare(cs: ClassShare, draws: map<string, seq<real>>)
    requires Emitted(cs) && DirichletDraws(draws)
    ensures Sum(SubShares(cs, draws)) == cs.share
  {
    var details := ClassDetails(cs.assetClass).value;
    if |details| > 1 {
      SumScale(draws[cs.assetClass], cs.share);
    } else {
      assert [cs.share][..0] == [];
    }
  }

  function Fund(cs: ClassShare, detail: AssetDetail, share: real): AllocationCreate
  {
    AllocationCreate(cs.assetClass, detail.name, share, Some(detail.ticker), detail.sector, detail.region)
  }

  /** The records of one class: the k-th fund of the class with the k-th sub-share; none for a class that is not emitted. */
  function ClassEntries(cs: ClassShare, draws: map<string, seq<real>>): (e: seq<AllocationCreate>)
    requires DirichletDraws(draws)
    ensures !Emitted(cs) ==> e == []
    ensures Emitted(cs) ==> |e| == |ClassDetails(cs.assetClass).value|
    ensures forall k :: 0 <= k < |e| ==> e[k].assetClass == cs.assetClass
    ensures Emitted(cs) ==> forall k :: 0 <= k < |e| ==>
              var d := ClassDetails(cs.assetClass).value[k];
              e[k].assetName == d.name && e[k].ticker == Some(d.ticker) && e[k].sector == d.sector &&
              e[k].region == d.region && e[k].allocationPercentage == SubShares(cs, draws)[k]
  {
    if !Emitted(cs) then []
    else
      var details := ClassDetails(cs.assetClass).value;
      var sub := SubShares(cs, draws);
      seq(|details|, k requires 0 <= k < |details| => Fund(cs, details[k], sub[k]))
  }

  /** `_generate_detailed_allocations`: the classes' records in class order. */
  function Detailed(t: seq<ClassShare>, draws: map<string, seq<real>>): (r: seq<AllocationCreate>)
    requires DirichletDraws(draws)
    ensures forall k :: 0 <= k < |r| ==>
              exists j :: 0 <= j < |t| && Emitted(t[j]) && r[k].assetClass == t[j].assetClass
  {
    if t == [] then []
    else
      var n := |t| - 1;
      var prefix := Detailed(t[..n], draws);
      var entries := ClassEntries(t[n], draws);
      assert forall j :: 0 <= j < n ==> t[..n][j] == t[j];
      assert forall k :: |prefix| <= k < |prefix| + |entries| ==>
               Emitted(t[n]) && (prefix + entries)[k].assetClass == t[n].assetClass;
      prefix + entries
  }

  function Percentages(e: seq<AllocationCreate>): (p: seq<real>)
    ensures |p| == |e| && forall k :: 0 <= k < |e| ==> p[k] == e[k].allocationPercentage
  {
    seq(|e|, k requires 0 <= k < |e| => e[k].allocationPercentage)
  }

  /** The positive shares of classes that have funds. */
  function EmittedShares(t: seq<ClassShare>): seq<real>
  {
    if t == [] then []
    else EmittedShares(t[..|t| - 1]) + (if Emitted(t[|t| - 1]) then [t[|t| - 1].share] else [])
  }

  lemma PercentagesAppend(a: seq<AllocationCreate>, b: seq<AllocationCreate>)
    ensures Percentages(a + b) == Percentages(a) + Percentages(b)
  {
  }

  /** The records' percentages total the positive shares of the classes that have funds. */
  lemma {:induction false} DetailedTotal(t: seq<ClassShare>, draws: map<string, seq<real>>)
    requires DirichletDraws(draws)
    ensures Sum(Percentages(Detailed(t, draws))) == Sum(EmittedShares(t))
    decreases |t|
  {
    if t != [] {
      var n := |t| - 1;
      var cs := t[n];
      DetailedTotal(t[..n], draws);
      assert Detailed(t, draws) == Detailed(t[..n], draws) + ClassEntries(cs, draws);
      PercentagesAppend(Detailed(t[..n], draws), ClassEntries(cs, draws));
      SumAppend(Percentages(Detailed(t[..n], draws)), Percentages(ClassEntries(cs, draws)));
      if Emitted(cs) {
        assert Percentages(ClassEntries(cs, draws)) == SubShares(cs, draws);
        SubSharesSumToShare(cs, draws);
        SumSnoc(EmittedShares(t[..n]), cs.share);
      } else {
        assert EmittedShares(t) == EmittedShares(t[..n]) + [] == EmittedShares(t[..n]);
        assert Detailed(t, draws) == Detailed(t[..n], draws) + [] == Detailed(t[..n], draws);
      }
    }
  }

  /** When every share is non-negative and every class has funds, the emitted shares total the table. */
  lemma {:induction false} EmittedSharesOfCompleteTable(t: seq<ClassShare>)
    requires NonNegative(Shares(t))
    requires forall k :: 0 <= k < |t| ==> ClassDetails(t[k].assetClass).Some?
    ensures Sum(EmittedShares(t)) == Sum(Shares(t))
    decreases |t|
  {
    if t != [] {
      var n := |t| - 1;
      assert Shares(t[..n]) == Shares(t)[..n];
      assert Sum(Shares(t)) == Sum(Shares(t[..n])) + t[n].share;
      EmittedSharesOfCompleteTable(t[..n]);
      if Emitted(t[n]) {
        SumSnoc(EmittedShares(t[..n]), t[n].share);
      } else {
        assert t[n].share == Shares(t)[n] == 0.0;
        assert EmittedShares(t) == EmittedShares(t[..n]) + [];
        assert EmittedShares(t[..n]) + [] == EmittedShares(t[..n]);
      }
    }
  }

  /** The class loop of `_generate_detailed_allocations`; AppendFunds is its inner fund loop. */
  method DetailedAllocations(t: seq<ClassShare>, draws: map<string, seq<real>>) returns (out: seq<AllocationCreate>)
    requires DirichletDraws(draws)
    ensures out == Detailed(t, draws)
  {
    out := [];
    var c := 0;
    while c < |t|
      invariant 0 <= c <= |t|
      invariant out == Detailed(t[..c], draws)
    {
      assert t[..c + 1][..c] == t[..c];
      out := AppendFunds(out, t[c], draws);
      c := c + 1;
    }
    assert t[..c] == t;
  }

  /** The fund loop for one class: appends one record per fund when the class is emitted. */
  method AppendFunds(prefix: seq<AllocationCreate>, cs: ClassShare, draws: map<string, seq<real>>)
    returns (out: seq<AllocationCreate>)
    requires DirichletDraws(draws)
    ensures out == prefix + ClassEntries(cs, draws)
  {
    out := prefix;
    ghost var entries := ClassEntries(cs, draws);
    if cs.share > 0.0 && ClassDetails(cs.assetClass).Some? {
      var details := ClassDetails(cs.assetClass).value;
      var sub := SubShares(cs, draws);
      var k := 0;
      while k < |details|
        invariant 0 <= k <= |details|
        invariant out == prefix + entries[..k]
      {
        assert entries[..k + 1] == entries[..k] + [Fund(cs, details[k], sub[k])];
        out := out + [Fund(cs, details[k], sub[k])];
        k := k + 1;
      }
      assert entries[..k] == entries;
    } else {
      assert prefix + entries == prefix;
    }
  }

  // ---------------------------------------------------------------------------
  // The generated portfolio
  // ---------------------------------------------------------------------------

  function Upper(ch: char): char
  {
    if 'a' <= ch <= 'z' then (ch as int - 32) as char else ch
  }

  function Lower(ch: char): char
  {
    if 'A' <= ch <= 'Z' then (ch as int + 32) as char else ch
  }

  /** `str.capitalize()` on ASCII letters: the first character upper case, the rest lower case. */
  function Capitalize(s: string): (r: string)
    ensures |r| == |s|
    ensures |s| > 0 ==> r[0] == Upper(s[0])
    ensures forall k :: 0 < k < |s| ==> r[k] == Lower(s[k])
  {
    if s == [] then [] else [Upper(s[0])] + seq(|s| - 1, k requires 0 <= k < |s| - 1 => Lower(s[k + 1]))
  }

  /** A non-empty given name, else the capitalised profile followed by " Portfolio". */
  function PortfolioName(profile: string, name: Option<string>): (r: string)
    ensures name.Some? && name.value != "" ==> r == name.value
    ensures name.None? || name.value == "" ==> r == Capitalize(profile) + " Portfolio"
  {
    if name.Some? && name.value != "" then name.value else Capitalize(profile) + " Portfolio"
  }

  /** `generate_portfolio`: the profile's table, constrained, split into funds. */
  method GeneratePortfolio(riskProfile: string, name: Option<string>, constraints: Option<Constraints>,
                           draws: map<string, seq<real>>)
    returns (r: Result<PortfolioCreate, ProfileError>)
    requires DirichletDraws(draws)
    ensures BaseAllocations(riskProfile).None? <==> r == Err(InvalidRiskProfile(riskProfile))
    ensures BaseAllocations(riskProfile).Some? ==>
              var c := Constrained(BaseAllocations(riskProfile).value, constraints);
              (r.Err? <==> c.Err?) && (r.Err? ==> r.error == c.error) &&
              (r.Ok? ==> r.value == PortfolioCreate(PortfolioName(riskProfile, name), riskProfile,
                                                    Detailed(c.value, draws)))
  {
    var base := BaseAllocations(riskProfile);
    if base.None? {
      return Err(InvalidRiskProfile(riskProfile));
    }
    var finalAllocations := ApplyConstraints(base.value, constraints);
    if finalAllocations.Err? {
      return Err(finalAllocations.error);
    }
    var allocations := DetailedAllocations(finalAllocations.value, draws);
    r := Ok(PortfolioCreate(PortfolioName(riskProfile, name), riskProfile, allocations));
  }

  /**
   * A generated portfolio whose constrained shares are non-negative (always so without
   * constraints) has fund percentages totalling exactly 1.
   */
  lemma GeneratedPercentagesSumToOne(riskProfile: string, constraints: Option<Constraints>, draws: map<string, seq<real>>)
    requires DirichletDraws(draws) && BaseAllocations(riskProfile).Some?
    requires Constrained(BaseAllocations(riskProfile).value, constraints).Ok?
    requires NoConstraints(constraints) || NonNegative(Shares(Constrained(BaseAllocations(riskProfile).value, constraints).value))
    ensures Sum(Percentages(Detailed(Constrained(BaseAllocations(riskProfile).value, constraints).value, draws))) == 1.0
  {
    var base := BaseAllocations(riskProfile).value;
    var t := Constrained(base, constraints).value;
    BaseAllocationsAreWeights(riskProfile);
    DetailedTotal(t, draws);
    assert Classes(t) == CLASSES;
    assert forall k :: 0 <= k < |t| ==> ClassDetails(t[k].assetClass).Some? by {
      forall k | 0 <= k < |t| ensures ClassDetails(t[k].assetClass).Some? {
        assert t[k].assetClass == Classes(t)[k];
      }
    }
    EmittedSharesOfCompleteTable(t);
  }

  /** Capitalising is idempotent. */
  lemma CapitalizeIsIdempotent(s: string)
    ensures Capitalize(Capitalize(s)) == Capitalize(s)
  {
  }
}
