/** The revenue ledger (services/revenue.service.ts): one summary row per
    delivered order line, holding what the line earned, what it cost and the
    difference. */
module Revenue {
  import opened Wrappers
  import opened Schema
  import opened Tables

  /** The ledger row of one order line. Only the unit price counts as
      revenue: the line's option surcharges are not part of it. */
  function RevenueRow(item: OrderItem): (row: RevenueSummary)
    ensures row.totalRevenue == item.unitPrice * item.quantity as real
    ensures row.totalCost == item.costPrice * item.quantity as real
    ensures row.totalProfit == (item.unitPrice - item.costPrice) * item.quantity as real
  {
    var revenue := item.unitPrice * item.quantity as real;
    var cost := item.costPrice * item.quantity as real;
    RevenueSummary(revenue, cost, revenue - cost)
  }

  /** The rows appended for a list of order lines, in line order: one per
      line, each that line's revenue, cost and profit. */
  function RevenueRows(items: seq<OrderItem>): (r: seq<RevenueSummary>)
    ensures |r| == |items|
    ensures forall i :: 0 <= i < |items| ==> r[i] == RevenueRow(items[i])
  {
    if items == [] then []
    else RevenueRows(items[..|items| - 1]) + [RevenueRow(items[|items| - 1])]
  }

  /** The ledger rows of two lists of lines, one after the other. */
  lemma {:induction false} RevenueRowsAppend(a: seq<OrderItem>, b: seq<OrderItem>)
    ensures RevenueRows(a + b) == RevenueRows(a) + RevenueRows(b)
    decreases |b|
  {
    if b == [] {
      assert a + b == a;
    } else {
      var last := |b| - 1;
      assert (a + b)[..|a + b| - 1] == a + b[..last];
      RevenueRowsAppend(a, b[..last]);
    }
  }

  /** Two lists of lines that differ only in their option surcharges (and
      totals) produce the same ledger rows. */
  lemma {:induction false} OptionsPriceIgnored(a: seq<OrderItem>, b: seq<OrderItem>)
    requires |a| == |b|
    requires forall i :: 0 <= i < |a| ==>
      a[i].unitPrice == b[i].unitPrice && a[i].costPrice == b[i].costPrice &&
      a[i].quantity == b[i].quantity
    ensures RevenueRows(a) == RevenueRows(b)
  {
    if a != [] {
      OptionsPriceIgnored(a[..|a| - 1], b[..|b| - 1]);
      assert RevenueRow(a[|a| - 1]) == RevenueRow(b[|b| - 1]);
    }
  }

  function SumRevenue(rows: seq<RevenueSummary>): real {
    if rows == [] then 0.0 else SumRevenue(rows[..|rows| - 1]) + rows[|rows| - 1].totalRevenue
  }

  function SumCost(rows: seq<RevenueSummary>): real {
    if rows == [] then 0.0 else SumCost(rows[..|rows| - 1]) + rows[|rows| - 1].totalCost
  }

  function SumProfit(rows: seq<RevenueSummary>): real {
    if rows == [] then 0.0 else SumProfit(rows[..|rows| - 1]) + rows[|rows| - 1].totalProfit
  }

  /** Sales value of the lines at their unit prices, options excluded. */
  function LinesValue(items: seq<OrderItem>): real {
    if items == [] then 0.0
    else LinesValue(items[..|items| - 1]) + items[|items| - 1].unitPrice * items[|items| - 1].quantity as real
  }

  /** Over the rows written for an order, the recorded revenue is the sales
      value of its lines and the recorded profit is revenue less cost. */
  lemma {:induction false} LedgerTotals(items: seq<OrderItem>)
    ensures SumRevenue(RevenueRows(items)) == LinesValue(items)
    ensures SumProfit(RevenueRows(items)) == SumRevenue(RevenueRows(items)) - SumCost(RevenueRows(items))
  {
    if items != [] {
      var init := items[..|items| - 1];
      LedgerTotals(init);
      var rows := RevenueRows(items);
      assert rows[..|rows| - 1] == RevenueRows(init);
    }
  }

  /** addRevenueFromOrder: inserts the ledger row of every line in turn.
      `failAt` is the index of the line whose insert the database rejects,
      if any; the error is rethrown and the rows of the earlier lines stay. */
  method AddRevenueFromOrder(db: Database, items: seq<OrderItem>, failAt: Option<nat>)
    returns (out: Outcome)
    modifies db`revenue
    ensures out.Done? <==> (failAt.None? || failAt.value >= |items|)
    ensures out.Done? ==> db.revenue == old(db.revenue) + RevenueRows(items)
    ensures out.Failed? ==> db.revenue == old(db.revenue) + RevenueRows(items[..failAt.value])
  {
    var i := 0;
    while i < |items|
      invariant 0 <= i <= |items|
      invariant failAt.Some? ==> i <= failAt.value
      invariant db.revenue == old(db.revenue) + RevenueRows(items[..i])
    {
      if failAt == Some(i) {
        return Failed("insert into revenue_summaries failed");
      }
      assert items[..i + 1][..i] == items[..i];
      db.revenue := db.revenue + [RevenueRow(items[i])];
      i := i + 1;
    }
    assert items[..i] == items;
    return Done;
  }
}
