/**
 * The reports service: the sales summary of a date range, the shift summary
 * of a date range and the dashboard figures, computed from the receipt and
 * shift aggregations.
 *
 * Request dates arrive already parsed into timestamps, and the dashboard's
 * day, week and month boundaries (taken from the server's local clock) are
 * a parameter.
 */
module Reports {
  import opened Wrappers
  import opened Models
  import opened Listing
  import opened Collection
  import opened ReceiptTotals
  import opened Shifts
  import Receipts

  datatype SalesSummary = SalesSummary(
    total_sales: Money,
    total_receipts: nat,
    average_ticket: real,
    start: Timestamp,
    end: Timestamp,
    daily_sales: seq<DayTotal>,
    payment_methods: seq<DayMethods>)

  /** Average ticket, 0 when there is no receipt. */
  function Average(total: Money, count: nat): real {
    if count > 0 then total as real / count as real else 0.0
  }

  // ----- shift summary figures -----

  datatype Figure = Cash | Card | OtherSales | Difference

  /** A row's figure, an absent one counting as 0. */
  function RowFigure(k: Figure, r: ShiftRow): Money {
    match k
    case Cash => r.cash_sales.GetOr(0)
    case Card => r.card_sales.GetOr(0)
    case OtherSales => r.other_sales.GetOr(0)
    case Difference => r.cash_difference.GetOr(0)
  }

  function ByRow(k: Figure): ShiftRow -> int { (r: ShiftRow) => RowFigure(k, r) }
  function ByDoc(k: Figure): Doc<Shift> -> int { (d: Doc<Shift>) => RowFigure(k, RowOf(d)) }

  lemma {:induction false} RowsSum(ds: seq<Doc<Shift>>, k: Figure)
    ensures SumBy(RowsOf(ds), ByRow(k)) == SumBy(ds, ByDoc(k))
  {
    if ds != [] {
      assert RowsOf(ds)[1..] == RowsOf(ds[1..]);
      RowsSum(ds[1..], k);
    }
  }

  /** A figure summed over the summary rows is that figure summed over the
      store's shifts closed in the window, whatever their order. */
  lemma SummaryFigure(docs: seq<Doc<Shift>>, storeId: string, start: Timestamp, end: Timestamp, k: Figure)
    ensures SumBy(ShiftSummary(docs, storeId, start, end), ByRow(k)) ==
            SumBy(InWindowDocs(docs, storeId, start, end), ByDoc(k))
    ensures |ShiftSummary(docs, storeId, start, end)| == |InWindowDocs(docs, storeId, start, end)|
  {
    var sel := InWindowDocs(docs, storeId, start, end);
    var sorted := SortDesc(sel, Shifts.ClosedAt);
    assert ShiftSummary(docs, storeId, start, end) == RowsOf(sorted);
    RowsSum(sorted, k);
    SumByPermutation(sorted, sel, ByDoc(k));
  }

  datatype ShiftReport = ShiftReport(
    shift_count: nat,
    total_sales: Money,
    total_cash_sales: Money,
    total_card_sales: Money,
    total_other_sales: Money,
    total_cash_difference: Money,
    start: Timestamp,
    end: Timestamp,
    shifts: seq<ShiftRow>)

  // ----- dashboard -----

  /** The boundaries of today, yesterday, the week (from Sunday) and the
      month, as the server's local clock gives them. */
  datatype Windows = Windows(
    startOfToday: Timestamp,
    endOfToday: Timestamp,
    startOfYesterday: Timestamp,
    endOfYesterday: Timestamp,
    startOfWeek: Timestamp,
    startOfMonth: Timestamp)

  datatype Dashboard = Dashboard(
    today_total: Money,
    today_receipt_count: nat,
    day_over_day_change: real,
    yesterday_total: Money,
    week_total: Money,
    month_total: Money,
    today_shifts: seq<ShiftRow>)

  /** The `reduce` over a range's day groups: the sum of their sales. */
  function RangeTotal(gs: seq<DayTotal>): Money {
    if |gs| > 0 then TotalSales(gs) else 0
  }

  /** Percentage change from yesterday to today; 0 unless yesterday's
      sales are positive. */
  function DayOverDay(today: Money, yesterday: Money): real {
    if yesterday > 0 then ((today - yesterday) as real / yesterday as real) * 100.0 else 0.0
  }

  /** The change is positive exactly when today beats a positive yesterday,
      and applying it to yesterday's sales gives back today's. */
  lemma DayOverDayMeaning(today: Money, yesterday: Money)
    ensures yesterday > 0 ==> (DayOverDay(today, yesterday) > 0.0 <==> today > yesterday)
    ensures yesterday > 0 ==> (DayOverDay(today, yesterday) == 0.0 <==> today == yesterday)
    ensures yesterday > 0 ==> yesterday as real * (1.0 + DayOverDay(today, yesterday) / 100.0) == today as real
    ensures yesterday <= 0 ==> DayOverDay(today, yesterday) == 0.0
  {
    if yesterday > 0 {
      var y := yesterday as real;
      var q := (today - yesterday) as real / y;
      assert q * y == (today - yesterday) as real;
      assert q > 0.0 <==> today > yesterday by {
        if q > 0.0 { assert q * y > 0.0; }
        if today > yesterday { assert q * y > 0.0; }
      }
      assert q == 0.0 <==> today == yesterday by {
        if today == yesterday { assert q * y == 0.0; }
      }
    }
  }

  /** Today's receipt count as the dashboard takes it: the count of the
      first day group only. */
  function FirstGroupCount(gs: seq<DayTotal>): nat {
    if |gs| > 0 then gs[0].receipt_count else 0
  }

  /** When today's window holds receipts of two UTC days (the server's
      local day straddles UTC midnight, say one receipt closed at 23:00 UTC
      and one at 01:00 UTC the next day), the first group's count is below
      the number of receipts whose totals the day's sales include. */
  lemma {:induction false} FirstGroupCountUndercounts(rs: seq<Receipt>, storeId: string, start: Timestamp, end: Timestamp, i: nat, j: nat)
    requires i < |rs| && j < |rs|
    requires InRange(rs[i], storeId, start, end) && InRange(rs[j], storeId, start, end)
    requires ClosedDay(rs[i]) != ClosedDay(rs[j])
    ensures var gs := TotalsByDateRange(rs, storeId, start, end);
            FirstGroupCount(gs) < |Matching(rs, storeId, start, end)|
  {
    var m := Matching(rs, storeId, start, end);
    var gs := TotalsByDateRange(rs, storeId, start, end);
    DateRangeSums(rs, storeId, start, end);
    DateRangeGroups(rs, storeId, start, end);
    CountedOnItsDay(m, rs[i]);
    CountedOnItsDay(m, rs[j]);
    var ki :| 0 <= ki < |gs| && gs[ki].day == ClosedDay(rs[i]);
    var kj :| 0 <= kj < |gs| && gs[kj].day == ClosedDay(rs[j]);
    assert |gs| >= 2;
    assert gs[1..][0] == gs[1];
    assert TotalCount(gs[1..]) >= gs[1].receipt_count > 0;
  }

  lemma {:induction false} CountedOnItsDay(m: seq<Receipt>, r: Receipt)
    requires AllClosed(m) && r in m
    ensures r.closed_at.Some? && CountOn(m, ClosedDay(r)) > 0
  {
    var last := m[|m| - 1];
    if r != last {
      assert r in m[..|m| - 1] by {
        assert m == m[..|m| - 1] + [last];
      }
      CountedOnItsDay(m[..|m| - 1], r);
    }
  }

  /** The first group's count never exceeds the number of receipts matched
      in the window, and equals it when the window holds at most one UTC
      day; the window's sales total covers every matched receipt. */
  lemma FirstGroupCountBound(rs: seq<Receipt>, storeId: string, start: Timestamp, end: Timestamp)
    ensures var gs := TotalsByDateRange(rs, storeId, start, end);
            var m := Matching(rs, storeId, start, end);
            && FirstGroupCount(gs) <= |m|
            && (|gs| <= 1 ==> FirstGroupCount(gs) == |m|)
            && RangeTotal(gs) == SumTotals(m)
  {
    var gs := TotalsByDateRange(rs, storeId, start, end);
    DateRangeSums(rs, storeId, start, end);
    if |gs| == 1 {
      assert gs[1..] == [];
    }
  }

  function DashboardOf(rs: seq<Receipt>, shiftDocs: seq<Doc<Shift>>, storeId: string, w: Windows): Dashboard {
    var today := TotalsByDateRange(rs, storeId, w.startOfToday, w.endOfToday);
    var yesterday := TotalsByDateRange(rs, storeId, w.startOfYesterday, w.endOfYesterday);
    var week := TotalsByDateRange(rs, storeId, w.startOfWeek, w.endOfToday);
    var month := TotalsByDateRange(rs, storeId, w.startOfMonth, w.endOfToday);
    Dashboard(
      RangeTotal(today), FirstGroupCount(today),
      DayOverDay(RangeTotal(today), RangeTotal(yesterday)),
      RangeTotal(yesterday), RangeTotal(week), RangeTotal(month),
      ShiftSummary(shiftDocs, storeId, w.startOfToday, w.endOfToday))
  }

  /** Each dashboard total is the sum of the matching receipts' totals of
      its window; today's count is the first day group's, at most the number
      of today's matched receipts and equal to it when they fall on one UTC
      day; the change compares today with yesterday. */
  lemma DashboardFigures(rs: seq<Receipt>, shiftDocs: seq<Doc<Shift>>, storeId: string, w: Windows)
    ensures var d := DashboardOf(rs, shiftDocs, storeId, w);
            && d.today_total == SumTotals(Matching(rs, storeId, w.startOfToday, w.endOfToday))
            && d.today_receipt_count <= |Matching(rs, storeId, w.startOfToday, w.endOfToday)|
            && (|TotalsByDateRange(rs, storeId, w.startOfToday, w.endOfToday)| <= 1 ==>
                d.today_receipt_count == |Matching(rs, storeId, w.startOfToday, w.endOfToday)|)
            && d.yesterday_total == SumTotals(Matching(rs, storeId, w.startOfYesterday, w.endOfYesterday))
            && d.week_total == SumTotals(Matching(rs, storeId, w.startOfWeek, w.endOfToday))
            && d.month_total == SumTotals(Matching(rs, storeId, w.startOfMonth, w.endOfToday))
            && d.day_over_day_change == DayOverDay(d.today_total, d.yesterday_total)
  {
    FirstGroupCountBound(rs, storeId, w.startOfToday, w.endOfToday);
    FirstGroupCountBound(rs, storeId, w.startOfYesterday, w.endOfYesterday);
    FirstGroupCountBound(rs, storeId, w.startOfWeek, w.endOfToday);
    FirstGroupCountBound(rs, storeId, w.startOfMonth, w.endOfToday);
  }

  class ReportsService {
    const receipts: Receipts.ReceiptsService
    const shifts: ShiftsService

    constructor(receipts: Receipts.ReceiptsService, shifts: ShiftsService)
      ensures this.receipts == receipts && this.shifts == shifts
    {
      this.receipts := receipts;
      this.shifts := shifts;
    }

    /** Daily sales and payment-method breakdown of the range, with the
        range's total sales, receipt count and average ticket. */
    method GetSalesSummary(storeId: string, start: Timestamp, end: Timestamp) returns (s: SalesSummary)
      ensures var rs := Contents(receipts.docs);
              var m := Matching(rs, storeId, start, end);
              && s.daily_sales == TotalsByDateRange(rs, storeId, start, end)
              && s.payment_methods == TotalsByPaymentMethod(rs, storeId, start, end)
              && s.total_sales == SumTotals(m)
              && s.total_receipts == |m|
              && s.average_ticket == Average(SumTotals(m), |m|)
              && s.start == start && s.end == end
    {
      var rs := Contents(receipts.docs);
      var daily := TotalsByDateRange(rs, storeId, start, end);
      var byMethod := TotalsByPaymentMethod(rs, storeId, start, end);
      var totalSales, totalReceipts := 0, 0;
      for i := 0 to |daily|
        invariant totalSales + TotalSales(daily[i..]) == TotalSales(daily)
        invariant totalReceipts + TotalCount(daily[i..]) == TotalCount(daily)
      {
        assert daily[i..][1..] == daily[i + 1..];
        totalSales := totalSales + daily[i].total_sales;
        totalReceipts := totalReceipts + daily[i].receipt_count;
      }
      assert daily[|daily|..] == [];
      DateRangeSums(rs, storeId, start, end);
      s := SalesSummary(totalSales, totalReceipts, Average(totalSales, totalReceipts), start, end, daily, byMethod);
    }

    /** The shifts of the range with their summed cash, card, other and
        difference figures; total sales is cash plus card plus other. */
    method GetShiftSummary(storeId: string, start: Timestamp, end: Timestamp) returns (s: ShiftReport)
      ensures var closed := InWindowDocs(shifts.docs, storeId, start, end);
              && s.shifts == ShiftSummary(shifts.docs, storeId, start, end)
              && s.shift_count == |closed|
              && s.total_cash_sales == SumBy(closed, ByDoc(Cash))
              && s.total_card_sales == SumBy(closed, ByDoc(Card))
              && s.total_other_sales == SumBy(closed, ByDoc(OtherSales))
              && s.total_cash_difference == SumBy(closed, ByDoc(Difference))
              && s.total_sales == s.total_cash_sales + s.total_card_sales + s.total_other_sales
              && s.start == start && s.end == end
    {
      var rows := shifts.GetShiftSummary(storeId, start, end);
      var cash, card, other, difference := 0, 0, 0, 0;
      for i := 0 to |rows|
        invariant cash + SumBy(rows[i..], ByRow(Cash)) == SumBy(rows, ByRow(Cash))
        invariant card + SumBy(rows[i..], ByRow(Card)) == SumBy(rows, ByRow(Card))
        invariant other + SumBy(rows[i..], ByRow(OtherSales)) == SumBy(rows, ByRow(OtherSales))
        invariant difference + SumBy(rows[i..], ByRow(Difference)) == SumBy(rows, ByRow(Difference))
      {
        SumBySuffix(rows, i, ByRow(Cash));
        SumBySuffix(rows, i, ByRow(Card));
        SumBySuffix(rows, i, ByRow(OtherSales));
        SumBySuffix(rows, i, ByRow(Difference));
        cash := cash + RowFigure(Cash, rows[i]);
        card := card + RowFigure(Card, rows[i]);
        other := other + RowFigure(OtherSales, rows[i]);
        difference := difference + RowFigure(Difference, rows[i]);
      }
      assert rows[|rows|..] == [];
      SummaryFigure(shifts.docs, storeId, start, end, Cash);
      SummaryFigure(shifts.docs, storeId, start, end, Card);
      SummaryFigure(shifts.docs, storeId, start, end, OtherSales);
      SummaryFigure(shifts.docs, storeId, start, end, Difference);
      s := ShiftReport(|rows|, cash + card + other, cash, card, other, difference, start, end, rows);
    }

    /** Today's, yesterday's, this week's and this month's sales, today's
        receipt count and change over yesterday, and today's shifts. */
    method GetDashboardSummary(storeId: string, w: Windows) returns (d: Dashboard)
      ensures d == DashboardOf(Contents(receipts.docs), shifts.docs, storeId, w)
    {
      var rs := Contents(receipts.docs);
      var today := TotalsByDateRange(rs, storeId, w.startOfToday, w.endOfToday);
      var yesterday := TotalsByDateRange(rs, storeId, w.startOfYesterday, w.endOfYesterday);
      var week := TotalsByDateRange(rs, storeId, w.startOfWeek, w.endOfToday);
      var month := TotalsByDateRange(rs, storeId, w.startOfMonth, w.endOfToday);
      var todayShifts := shifts.GetShiftSummary(storeId, w.startOfToday, w.endOfToday);
      var todayTotal := RangeTotal(today);
      var yesterdayTotal := RangeTotal(yesterday);
      d := Dashboard(todayTotal, FirstGroupCount(today), DayOverDay(todayTotal, yesterdayTotal),
                     yesterdayTotal, RangeTotal(week), RangeTotal(month), todayShifts);
    }
  }
}
