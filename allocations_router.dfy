/**
 * The allocation endpoints over the allocation table: create and update admit a row only while
 * its portfolio's percentages stay within 100, read and delete look a row up by id, and listing
 * filters by portfolio and pages by offset and limit.
 *
 * The table is a sequence of rows in insertion order, which is also the order an unordered query
 * returns them in here; the portfolio table is the set of existing portfolio ids.
 */
module AllocationsRouter {
  import opened Wrappers
  import opened RealSeq

  /** The request fields of `AllocationBase`. */
  datatype AllocationBase = AllocationBase(assetType: string, assetName: string, ticker: Option<string>,
                                           percentage: real, currentValue: Option<real>)

  /** A row of the allocation table. */
  datatype AllocationRow = AllocationRow(id: int, portfolioId: int, base: AllocationBase)

  datatype HttpError =
    | NotFound(detail: string)
    | BadRequest(detail: string)
    /** A negative offset or limit, which the database refuses. */
    | InvalidPaging

  const PORTFOLIO_NOT_FOUND := "Portfolio not found"
  const ALLOCATION_NOT_FOUND := "Allocation not found"
  const OVER_ONE_HUNDRED := "Total allocation cannot exceed 100%"

  /** The portfolio's rows, in table order. */
  function OfPortfolio(rows: seq<AllocationRow>, portfolioId: int): (r: seq<AllocationRow>)
    ensures |r| <= |rows|
    ensures forall k :: 0 <= k < |r| ==> r[k].portfolioId == portfolioId
  {
    if rows == [] then []
    else
      var n := |rows| - 1;
      OfPortfolio(rows[..n], portfolioId) + (if rows[n].portfolioId == portfolioId then [rows[n]] else [])
  }

  /** The portfolio's rows other than the one with the given id. */
  function OthersOf(rows: seq<AllocationRow>, portfolioId: int, id: int): seq<AllocationRow>
  {
    if rows == [] then []
    else
      var n := |rows| - 1;
      var x := rows[n];
      OthersOf(rows[..n], portfolioId, id) + (if x.portfolioId == portfolioId && x.id != id then [x] else [])
  }

  /** Every row but the one with the given id. */
  function Without(rows: seq<AllocationRow>, id: int): seq<AllocationRow>
  {
    if rows == [] then []
    else
      var n := |rows| - 1;
      Without(rows[..n], id) + (if rows[n].id != id then [rows[n]] else [])
  }

  function Percentages(rows: seq<AllocationRow>): (p: seq<real>)
    ensures |p| == |rows| && forall k :: 0 <= k < |rows| ==> p[k] == rows[k].base.percentage
  {
    seq(|rows|, k requires 0 <= k < |rows| => rows[k].base.percentage)
  }

  /** `sum(a.percentage for a in current_allocations)` for the whole portfolio. */
  function PortfolioTotal(rows: seq<AllocationRow>, portfolioId: int): (total: real)
    ensures NonNegative(Percentages(rows)) ==> total >= 0.0
  {
    var p := Percentages(OfPortfolio(rows, portfolioId));
    assert NonNegative(Percentages(rows)) ==> Sum(p) >= 0.0 by {
      if NonNegative(Percentages(rows)) {
        SelectedNonNegative(rows, portfolioId, None);
        SumNonNegative(p);
      }
    }
    Sum(Percentages(OfPortfolio(rows, portfolioId)))
  }

  /** The same sum over the portfolio's other rows, as the update computes it. */
  function OthersTotal(rows: seq<AllocationRow>, portfolioId: int, id: int): (total: real)
    ensures NonNegative(Percentages(rows)) ==> total >= 0.0
  {
    var p := Percentages(OthersOf(rows, portfolioId, id));
    assert NonNegative(Percentages(rows)) ==> Sum(p) >= 0.0 by {
      if NonNegative(Percentages(rows)) {
        SelectedNonNegative(rows, portfolioId, Some(id));
        SumNonNegative(p);
      }
    }
    Sum(Percentages(OthersOf(rows, portfolioId, id)))
  }

  /** The rows a portfolio total sums over (all of the portfolio's, or those but one id) keep the table's signs. */
  lemma {:induction false} SelectedNonNegative(rows: seq<AllocationRow>, portfolioId: int, excluded: Option<int>)
    requires NonNegative(Percentages(rows))
    ensures excluded.None? ==> NonNegative(Percentages(OfPortfolio(rows, portfolioId)))
    ensures excluded.Some? ==> NonNegative(Percentages(OthersOf(rows, portfolioId, excluded.value)))
    decreases |rows|
  {
    if rows != [] {
      var n := |rows| - 1;
      assert Percentages(rows[..n]) == Percentages(rows)[..n];
      SelectedNonNegative(rows[..n], portfolioId, excluded);
    }
  }

  predicate UniqueIds(rows: seq<AllocationRow>)
  {
    forall i, j :: 0 <= i < j < |rows| ==> rows[i].id != rows[j].id
  }

  /** Where the row with the given id sits. */
  function Find(rows: seq<AllocationRow>, id: int): (k: Option<nat>)
    ensures k.None? <==> forall i :: 0 <= i < |rows| ==> rows[i].id != id
    ensures k.Some? ==> k.value < |rows| && rows[k.value].id == id
  {
    if rows == [] then None
    else
      var n := |rows| - 1;
      if rows[n].id == id then Some(n) else Find(rows[..n], id)
  }

  /** The portfolio's rows are exactly the table's rows that belong to it. */
  lemma {:induction false} OfPortfolioMembers(rows: seq<AllocationRow>, portfolioId: int)
    ensures forall x :: x in OfPortfolio(rows, portfolioId) <==> x in rows && x.portfolioId == portfolioId
    decreases |rows|
  {
    if rows != [] {
      var n := |rows| - 1;
      OfPortfolioMembers(rows[..n], portfolioId);
      assert rows == rows[..n] + [rows[n]];
    }
  }

  /** Without(rows, id) holds exactly the rows whose id differs. */
  lemma {:induction false} WithoutMembers(rows: seq<AllocationRow>, id: int)
    ensures forall x :: x in Without(rows, id) <==> x in rows && x.id != id
    decreases |rows|
  {
    if rows != [] {
      var n := |rows| - 1;
      WithoutMembers(rows[..n], id);
      assert rows == rows[..n] + [rows[n]];
    }
  }

  lemma PercentagesAppend(a: seq<AllocationRow>, b: seq<AllocationRow>)
    ensures Percentages(a + b) == Percentages(a) + Percentages(b)
  {
  }

  /** Adding a row adds its percentage to its own portfolio's total and to no other. */
  lemma TotalAfterAppend(rows: seq<AllocationRow>, row: AllocationRow, portfolioId: int)
    ensures PortfolioTotal(rows + [row], portfolioId) ==
            PortfolioTotal(rows, portfolioId) + (if row.portfolioId == portfolioId then row.base.percentage else 0.0)
  {
    assert (rows + [row])[..|rows|] == rows;
    var before := OfPortfolio(rows, portfolioId);
    if row.portfolioId == portfolioId {
      PercentagesAppend(before, [row]);
      SumSnoc(Percentages(before), row.base.percentage);
    } else {
      assert OfPortfolio(rows + [row], portfolioId) == before + [] == before;
    }
  }

  /**
   * With unique ids, a portfolio's total is the total of its rows other than row k plus row k's
   * percentage when row k belongs to it.
   */
  lemma {:induction false} TotalAroundRow(rows: seq<AllocationRow>, k: nat, portfolioId: int)
    requires UniqueIds(rows) && k < |rows|
    ensures PortfolioTotal(rows, portfolioId) ==
            OthersTotal(rows, portfolioId, rows[k].id) +
            (if rows[k].portfolioId == portfolioId then rows[k].base.percentage else 0.0)
    decreases |rows|
  {
    var n := |rows| - 1;
    var x, id := rows[n], rows[k].id;
    var mine := OfPortfolio(rows[..n], portfolioId);
    var others := OthersOf(rows[..n], portfolioId, id);
    if k < n {
      TotalAroundRow(rows[..n], k, portfolioId);
      assert rows[..n][k] == rows[k];
      if x.portfolioId == portfolioId {
        assert x.id != id;
        PercentagesAppend(mine, [x]);
        SumSnoc(Percentages(mine), x.base.percentage);
        PercentagesAppend(others, [x]);
        SumSnoc(Percentages(others), x.base.percentage);
      } else {
        assert OfPortfolio(rows, portfolioId) == mine + [] == mine;
        assert OthersOf(rows, portfolioId, id) == others + [] == others;
      }
    } else {
      OthersWithoutId(rows[..n], portfolioId, id);
      assert OthersOf(rows, portfolioId, id) == others + [] == others;
      if x.portfolioId == portfolioId {
        PercentagesAppend(mine, [x]);
        SumSnoc(Percentages(mine), x.base.percentage);
      } else {
        assert OfPortfolio(rows, portfolioId) == mine + [] == mine;
      }
    }
  }

  /** When no row carries the id, excluding it changes nothing. */
  lemma {:induction false} OthersWithoutId(rows: seq<AllocationRow>, portfolioId: int, id: int)
    requires forall i :: 0 <= i < |rows| ==> rows[i].id != id
    ensures OthersOf(rows, portfolioId, id) == OfPortfolio(rows, portfolioId)
    decreases |rows|
  {
    if rows != [] {
      OthersWithoutId(rows[..|rows| - 1], portfolioId, id);
    }
  }

  /** Rewriting the row with the given id, keeping the id, leaves the other rows' sum alone. */
  lemma {:induction false} OthersIgnoreRewrite(rows: seq<AllocationRow>, k: nat, row: AllocationRow, portfolioId: int)
    requires k < |rows| && row.id == rows[k].id
    ensures OthersOf(rows[k := row], portfolioId, row.id) == OthersOf(rows, portfolioId, row.id)
    decreases |rows|
  {
    var n := |rows| - 1;
    if k < n {
      assert rows[k := row][..n] == rows[..n][k := row];
      OthersIgnoreRewrite(rows[..n], k, row, portfolioId);
    } else {
      assert rows[k := row][..n] == rows[..n];
    }
  }

  /** Removing the row at k from a table with unique ids leaves exactly the rows with other ids. */
  lemma {:induction false} RemoveAt(rows: seq<AllocationRow>, k: nat)
    requires UniqueIds(rows) && k < |rows|
    ensures rows[..k] + rows[k + 1..] == Without(rows, rows[k].id)
    decreases |rows|
  {
    var n := |rows| - 1;
    var id := rows[k].id;
    if k == n {
      WithoutAbsent(rows[..n], id);
      assert rows[k + 1..] == [];
      assert rows[..k] + [] == rows[..k];
    } else {
      assert rows[..n][k] == rows[k];
      RemoveAt(rows[..n], k);
      assert rows[..n][..k] + rows[..n][k + 1..] == Without(rows[..n], id);
      assert rows[..k] + rows[k + 1..] == rows[..n][..k] + rows[..n][k + 1..] + [rows[n]];
    }
  }

  /** Removing one row keeps ids increasing and below the bound. */
  lemma RemovalKeepsIdOrder(rows: seq<AllocationRow>, k: nat, bound: int)
    requires k < |rows|
    requires forall i, j :: 0 <= i < j < |rows| ==> rows[i].id < rows[j].id
    requires forall i :: 0 <= i < |rows| ==> rows[i].id < bound
    ensures var r := rows[..k] + rows[k + 1..];
            (forall i, j :: 0 <= i < j < |r| ==> r[i].id < r[j].id) && (forall i :: 0 <= i < |r| ==> r[i].id < bound)
  {
    var r := rows[..k] + rows[k + 1..];
    forall i | 0 <= i < |r| ensures r[i] == rows[if i < k then i else i + 1] {
    }
  }

  /** Everything deleting the row at k establishes about the remaining table. */
  lemma Removal(rows: seq<AllocationRow>, k: nat, bound: int, r: seq<AllocationRow>)
    requires k < |rows| && r == rows[..k] + rows[k + 1..]
    requires forall i, j :: 0 <= i < j < |rows| ==> rows[i].id < rows[j].id
    requires forall i :: 0 <= i < |rows| ==> rows[i].id < bound
    ensures r == Without(rows, rows[k].id) && |r| == |rows| - 1
    ensures forall x :: x in r <==> x in rows && x.id != rows[k].id
    ensures forall i, j :: 0 <= i < j < |r| ==> r[i].id < r[j].id
    ensures forall i :: 0 <= i < |r| ==> r[i].id < bound
  {
    assert UniqueIds(rows);
    RemoveAt(rows, k);
    WithoutMembers(rows, rows[k].id);
    RemovalKeepsIdOrder(rows, k, bound);
  }

  lemma {:induction false} WithoutAbsent(rows: seq<AllocationRow>, id: int)
    requires forall i :: 0 <= i < |rows| ==> rows[i].id != id
    ensures Without(rows, id) == rows
    decreases |rows|
  {
    if rows != [] {
      WithoutAbsent(rows[..|rows| - 1], id);
    }
  }

  /** `query.offset(skip).limit(limit)`. */
  function Page(rows: seq<AllocationRow>, skip: int, limit: int): (r: seq<AllocationRow>)
    requires skip >= 0 && limit >= 0
    ensures |r| <= limit
    ensures skip >= |rows| ==> r == []
    ensures skip < |rows| ==> r == rows[skip..if skip + limit <= |rows| then skip + limit else |rows|]
  {
    var start := if skip <= |rows| then skip else |rows|;
    var end := if skip + limit <= |rows| then skip + limit else |rows|;
    rows[start..end]
  }

  /** The allocation and portfolio tables with the id the next row receives. */
  class AllocationTable {
    var rows: seq<AllocationRow>
    var portfolios: set<int>
    var nextId: int

    /** Ids are strictly increasing in table order and below the next id. */
    ghost predicate Valid()
      reads this
    {
      (forall i, j :: 0 <= i < j < |rows| ==> rows[i].id < rows[j].id) &&
      (forall i :: 0 <= i < |rows| ==> rows[i].id < nextId)
    }

    constructor (portfolios: set<int>)
      ensures Valid() && rows == [] && this.portfolios == portfolios
    {
      rows, this.portfolios, nextId := [], portfolios, 1;
    }

    /**
     * `create_allocation`: 404 for a missing portfolio, 400 when the portfolio's total plus the
     * new percentage exceeds 100, otherwise one row appended under the next id.
     */
    method CreateAllocation(portfolioId: int, allocation: AllocationBase) returns (r: Result<AllocationRow, HttpError>)
      requires Valid()
      modifies this
      ensures Valid() && portfolios == old(portfolios)
      ensures portfolioId !in old(portfolios) ==> r == Err(NotFound(PORTFOLIO_NOT_FOUND))
      ensures portfolioId in old(portfolios) ==>
                (r.Err? <==> PortfolioTotal(old(rows), portfolioId) + allocation.percentage > 100.0)
      ensures r.Err? ==> rows == old(rows) && nextId == old(nextId)
      ensures r.Err? && portfolioId in old(portfolios) ==> r.error == BadRequest(OVER_ONE_HUNDRED)
      ensures r.Ok? ==> r.value == AllocationRow(old(nextId), portfolioId, allocation) &&
                        rows == old(rows) + [r.value] && nextId == old(nextId) + 1
      ensures r.Ok? ==> PortfolioTotal(rows, portfolioId) <= 100.0
    {
      if portfolioId !in portfolios {
        return Err(NotFound(PORTFOLIO_NOT_FOUND));
      }
      var total := PortfolioTotal(rows, portfolioId);
      if total + allocation.percentage > 100.0 {
        return Err(BadRequest(OVER_ONE_HUNDRED));
      }
      var row := AllocationRow(nextId, portfolioId, allocation);
      TotalAfterAppend(rows, row, portfolioId);
      rows := rows + [row];
      nextId := nextId + 1;
      r := Ok(row);
    }

    /** `read_allocations`: filtered by the portfolio only when its id is truthy, then paged. */
    function ReadAllocations(portfolioId: Option<int>, skip: int, limit: int): (r: Result<seq<AllocationRow>, HttpError>)
      reads this
      ensures r.Err? <==> skip < 0 || limit < 0
      ensures r.Ok? ==> |r.value| <= limit
      ensures r.Ok? ==> forall x :: x in r.value ==> x in rows
      ensures r.Ok? && portfolioId.Some? && portfolioId.value != 0 ==>
                forall x :: x in r.value ==> x.portfolioId == portfolioId.value
    {
      OfPortfolioMembers(rows, if portfolioId.Some? then portfolioId.value else 0);
      if skip < 0 || limit < 0 then Err(InvalidPaging)
      else
        var selected := if portfolioId.Some? && portfolioId.value != 0 then OfPortfolio(rows, portfolioId.value) else rows;
        Ok(Page(selected, skip, limit))
    }

    /** `read_allocation`: the row with the id, or 404. */
    function ReadAllocation(id: int): (r: Result<AllocationRow, HttpError>)
      reads this
      ensures r.Err? <==> forall i :: 0 <= i < |rows| ==> rows[i].id != id
      ensures r.Err? ==> r.error == NotFound(ALLOCATION_NOT_FOUND)
      ensures r.Ok? ==> r.value in rows && r.value.id == id
    {
      var k := Find(rows, id);
      if k.None? then Err(NotFound(ALLOCATION_NOT_FOUND)) else Ok(rows[k.value])
    }

    /**
     * `update_allocation`: 404 for an unknown id, 400 when the portfolio's other rows plus the new
     * percentage exceed 100, otherwise the base fields overwritten in place.
     */
    method UpdateAllocation(id: int, allocation: AllocationBase) returns (r: Result<AllocationRow, HttpError>)
      requires Valid()
      modifies this
      ensures Valid() && portfolios == old(portfolios) && nextId == old(nextId)
      ensures old(ReadAllocation(id)).Err? ==> r == old(ReadAllocation(id))
      ensures old(ReadAllocation(id)).Ok? ==>
                var current := old(ReadAllocation(id)).value;
                (r.Err? <==> OthersTotal(old(rows), current.portfolioId, id) + allocation.percentage > 100.0) &&
                (r.Err? ==> r.error == BadRequest(OVER_ONE_HUNDRED)) &&
                (r.Ok? ==> r.value == AllocationRow(id, current.portfolioId, allocation) &&
                           PortfolioTotal(rows, current.portfolioId) <= 100.0)
      ensures r.Err? ==> rows == old(rows)
      ensures r.Ok? ==> exists k :: 0 <= k < |old(rows)| && old(rows)[k].id == id && rows == old(rows)[k := r.value]
    {
      var k := Find(rows, id);
      if k.None? {
        return Err(NotFound(ALLOCATION_NOT_FOUND));
      }
      var current := rows[k.value];
      var total := OthersTotal(rows, current.portfolioId, id);
      if total + allocation.percentage > 100.0 {
        return Err(BadRequest(OVER_ONE_HUNDRED));
      }
      var updated := current.(base := allocation);
      OthersIgnoreRewrite(rows, k.value, updated, current.portfolioId);
      ghost var before := rows;
      rows := rows[k.value := updated];
      TotalAroundRow(rows, k.value, current.portfolioId);
      assert before[k.value].id == id;
      r := Ok(updated);
    }

    /** `delete_allocation`: 404 for an unknown id, otherwise exactly that row removed. */
    method DeleteAllocation(id: int) returns (r: Result<(), HttpError>)
      requires Valid()
      modifies this
      ensures Valid() && portfolios == old(portfolios) && nextId == old(nextId)
      ensures old(ReadAllocation(id)).Err? ==> r == Err(NotFound(ALLOCATION_NOT_FOUND)) && rows == old(rows)
      ensures old(ReadAllocation(id)).Ok? ==> r == Ok(()) && rows == Without(old(rows), id) && |rows| == |old(rows)| - 1
      ensures forall x :: x in rows <==> x in old(rows) && (r.Ok? ==> x.id != id)
    {
      var k := Find(rows, id);
      if k.None? {
        return Err(NotFound(ALLOCATION_NOT_FOUND));
      }
      var remaining := rows[..k.value] + rows[k.value + 1..];
      Removal(rows, k.value, nextId, remaining);
      rows := remaining;
      r := Ok(());
    }
  }
}
