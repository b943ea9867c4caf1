/** The profit list page: the total profit over all items, the item with the
    largest profit shown in the pie chart, and the check on a new commission. */
module ProfitList {
  import opened Wrappers
  import opened Seqs

  /** One row of `/sales/profit/all`; a row may lack its profit. */
  datatype ProfitEntry = ProfitEntry(itemId: string, itemName: string, totalProfit: Option<real>, isPercent: Option<bool>)

  /** `item.totalProfit || 0`. */
  function Profit(e: ProfitEntry): real
  {
    e.totalProfit.GetOr(0.0)
  }

  /** `totalProfit`: the sum of the rows' profits, a missing one counting as zero. */
  function TotalProfit(profits: seq<ProfitEntry>): (r: real)
    ensures |profits| == 0 ==> r == 0.0
  {
    Sum(profits, Profit)
  }

  /** Rows without a profit add nothing. */
  lemma {:induction false} TotalOfMissing(profits: seq<ProfitEntry>)
    requires forall i :: 0 <= i < |profits| ==> profits[i].totalProfit.None?
    ensures TotalProfit(profits) == 0.0
    decreases |profits|
  {
    if |profits| > 0 {
      TotalOfMissing(profits[..|profits| - 1]);
    }
  }

  /** Every row's profit is at most the total when no row has a negative profit. */
  lemma {:induction false} TotalBoundsEachRow(profits: seq<ProfitEntry>, k: int)
    requires forall i :: 0 <= i < |profits| ==> Profit(profits[i]) >= 0.0
    requires 0 <= k < |profits|
    ensures Profit(profits[k]) <= TotalProfit(profits)
    decreases |profits|
  {
    var n := |profits|;
    SumNonNegative(profits[..n - 1], Profit);
    if k < n - 1 {
      TotalBoundsEachRow(profits[..n - 1], k);
    }
  }

  // ---------------------------------------------------------------------------
  // The top item as written

  /** The profit the fold compares against: the seed `{}` has none, so zero. */
  function SeenProfit(max: Option<ProfitEntry>): real
  {
    match max
    case None => 0.0
    case Some(e) => Profit(e)
  }

  /** `topItem`: a left fold seeded with the empty object (`None` here), keeping
      the current row only when its profit is strictly larger. */
  function TopItem(profits: seq<ProfitEntry>): Option<ProfitEntry>
    decreases |profits|
  {
    if |profits| == 0 then None
    else
      var max := TopItem(profits[..|profits| - 1]);
      var curr := profits[|profits| - 1];
      if Profit(curr) > SeenProfit(max) then Some(curr) else max
  }

  /** The fold's result is the seed exactly when no row has a positive profit. */
  lemma {:induction false} TopItemSeed(profits: seq<ProfitEntry>)
    ensures TopItem(profits).None? <==> forall i :: 0 <= i < |profits| ==> Profit(profits[i]) <= 0.0
    ensures TopItem(profits).Some? ==> TopItem(profits).value in profits && Profit(TopItem(profits).value) > 0.0
    ensures forall i :: 0 <= i < |profits| ==> Profit(profits[i]) <= SeenProfit(TopItem(profits))
    decreases |profits|
  {
    if |profits| > 0 {
      TopItemSeed(profits[..|profits| - 1]);
    }
  }

  /** `profits.length > 0 && topItem`: the empty object is truthy, so the chart
      appears for every non-empty list. */
  predicate ShowChart(profits: seq<ProfitEntry>)
  {
    |profits| > 0
  }

  /** A list whose only row lost money shows the chart with no top item. */
  lemma ChartWithoutTopItem()
    ensures var profits := [ProfitEntry("i1", "TV", Some(-5.0), None)];
      ShowChart(profits) && TopItem(profits).None?
  {
    var profits := [ProfitEntry("i1", "TV", Some(-5.0), None)];
    assert profits[..0] == [];
  }

  // ---------------------------------------------------------------------------
  // The top item, seeded with the first row

  /** `k` is the first row with the largest profit. */
  predicate FirstMaxAt(profits: seq<ProfitEntry>, k: int)
  {
    0 <= k < |profits|
    && (forall j :: 0 <= j < |profits| ==> Profit(profits[j]) <= Profit(profits[k]))
    && (forall j :: 0 <= j < k ==> Profit(profits[j]) < Profit(profits[k]))
  }

  /** The index the fold `reduce((max, curr) => ...)` without a seed ends on. */
  function TopIndex(profits: seq<ProfitEntry>): (k: int)
    requires |profits| > 0
    ensures FirstMaxAt(profits, k)
    decreases |profits|
  {
    if |profits| == 1 then 0
    else
      var k := TopIndex(profits[..|profits| - 1]);
      if Profit(profits[|profits| - 1]) > Profit(profits[k]) then |profits| - 1 else k
  }

  /** The top item of a non-empty list is the first row with the largest
      profit, whatever its sign. */
  function CorrectedTopItem(profits: seq<ProfitEntry>): (r: Option<ProfitEntry>)
    ensures r.None? <==> |profits| == 0
    ensures r.Some? ==> r.value in profits
    ensures r.Some? ==> forall j :: 0 <= j < |profits| ==> Profit(profits[j]) <= Profit(r.value)
    ensures r.Some? ==> exists k :: FirstMaxAt(profits, k) && profits[k] == r.value
  {
    if |profits| == 0 then None else Some(profits[TopIndex(profits)])
  }

  /** Where some row made a profit, the fold as written finds the same item. */
  lemma {:induction false} TopItemAgrees(profits: seq<ProfitEntry>)
    requires exists i :: 0 <= i < |profits| && Profit(profits[i]) > 0.0
    ensures TopItem(profits) == CorrectedTopItem(profits)
    decreases |profits|
  {
    var n := |profits|;
    var front := profits[..n - 1];
    TopItemSeed(front);
    if n > 1 && TopItem(front).Some? {
      assert exists i :: 0 <= i < |front| && Profit(front[i]) > 0.0;
      TopItemAgrees(front);
      assert front[TopIndex(front)] == profits[TopIndex(front)];
    } else if n > 1 {
      var i :| 0 <= i < n && Profit(profits[i]) > 0.0;
      assert i == n - 1;
      assert Profit(front[TopIndex(front)]) <= 0.0;
    }
  }

  // ---------------------------------------------------------------------------
  // Commission

  const InvalidCommission: string := "Invalid commission"

  /** `handleSaveCommission`'s check before the request: the parsed commission
      (`None` for NaN) must be a number and not negative; `isPercent` defaults to
      false when the row does not say. */
  function CommissionUpdate(parsed: Option<real>, e: ProfitEntry): (r: Result<(real, bool)>)
    ensures r.Failure? <==> parsed.None? || parsed.value < 0.0
    ensures r.Failure? ==> r.message == InvalidCommission
    ensures r.Success? ==> r.value.0 == parsed.value && r.value.0 >= 0.0
    ensures r.Success? ==> (r.value.1 <==> e.isPercent == Some(true))
  {
    match parsed
    case None => Failure(InvalidCommission)
    case Some(c) => if c < 0.0 then Failure(InvalidCommission) else Success((c, e.isPercent.GetOr(false)))
  }
}
