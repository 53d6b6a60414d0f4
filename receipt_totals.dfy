/**
 * The two aggregation pipelines over the receipt collection
 * (`getTotalsByDateRange` and `getTotalsByPaymentMethod`), written as folds
 * over the receipts in natural order, with lemmas that say what each group
 * holds.
 */
module ReceiptTotals {
  import opened Wrappers
  import opened Models

  // ----- the `$match` stage -----

  /** Receipt of the store, with status `closed`, closed within [start, end]. */
  predicate InRange(r: Receipt, storeId: string, start: Timestamp, end: Timestamp) {
    && r.store_id == storeId
    && r.status == "closed"
    && r.closed_at.Some?
    && start <= r.closed_at.value <= end
  }

  function Matching(rs: seq<Receipt>, storeId: string, start: Timestamp, end: Timestamp): (m: seq<Receipt>)
    ensures |m| <= |rs|
    ensures forall i :: 0 <= i < |m| ==> m[i] in rs && InRange(m[i], storeId, start, end)
    ensures forall r :: r in rs && InRange(r, storeId, start, end) ==> r in m
  {
    if rs == [] then []
    else
      var init := Matching(rs[..|rs| - 1], storeId, start, end);
      var r := rs[|rs| - 1];
      assert forall x :: x in rs <==> x in rs[..|rs| - 1] || x == r by {
        assert rs == rs[..|rs| - 1] + [r];
      }
      init + (if InRange(r, storeId, start, end) then [r] else [])
  }

  lemma {:induction false} MatchingAppend(a: seq<Receipt>, b: seq<Receipt>, storeId: string, start: Timestamp, end: Timestamp)
    ensures Matching(a + b, storeId, start, end) == Matching(a, storeId, start, end) + Matching(b, storeId, start, end)
  {
    if b == [] {
      assert a + b == a;
    } else {
      var b' := b[..|b| - 1];
      assert (a + b)[..|a + b| - 1] == a + b';
      assert (a + b)[|a + b| - 1] == b[|b| - 1];
      MatchingAppend(a, b', storeId, start, end);
    }
  }

  ghost predicate AllClosed(rs: seq<Receipt>) {
    forall i :: 0 <= i < |rs| ==> rs[i].closed_at.Some?
  }

  function ClosedDay(r: Receipt): int
    requires r.closed_at.Some?
  {
    Day(r.closed_at.value)
  }

  // ----- getTotalsByDateRange: group by day, sum `total`, count -----

  // ----- groups kept in ascending day order -----

  ghost predicate Ascending<G>(gs: seq<G>, day: G -> int) {
    forall i, j :: 0 <= i < j < |gs| ==> day(gs[i]) < day(gs[j])
  }

  /** The group of day `d`, if any. */
  function Find<G>(gs: seq<G>, day: G -> int, d: int): Option<G> {
    if gs == [] then None else if day(gs[0]) == d then Some(gs[0]) else Find(gs[1..], day, d)
  }

  lemma {:induction false} AscendingNotFound<G>(gs: seq<G>, day: G -> int, d: int)
    requires Ascending(gs, day)
    requires gs != [] && d < day(gs[0])
    ensures Find(gs, day, d).None?
  {
    if |gs| > 1 {
      assert gs[1..][0] == gs[1];
      AscendingNotFound(gs[1..], day, d);
    }
  }

  lemma {:induction false} FindOf<G>(gs: seq<G>, day: G -> int, k: nat)
    requires Ascending(gs, day) && k < |gs|
    ensures Find(gs, day, day(gs[k])) == Some(gs[k])
  {
    if k > 0 {
      assert gs[1..][k - 1] == gs[k];
      FindOf(gs[1..], day, k - 1);
    }
  }

  lemma {:induction false} FoundIn<G>(gs: seq<G>, day: G -> int, d: int)
    requires Find(gs, day, d).Some?
    ensures exists k :: 0 <= k < |gs| && day(gs[k]) == d && gs[k] == Find(gs, day, d).value
  {
    if day(gs[0]) != d {
      FoundIn(gs[1..], day, d);
      var k :| 0 <= k < |gs[1..]| && day(gs[1..][k]) == d && gs[1..][k] == Find(gs[1..], day, d).value;
      assert gs[k + 1] == gs[1..][k];
    }
  }

  // ----- getTotalsByDateRange: group by day, sum `total`, count -----

  datatype DayTotal = DayTotal(day: int, total_sales: Money, receipt_count: nat)

  function DayOfTotal(g: DayTotal): int { g.day }

  /** Adds one receipt of day `d` and total `amount` to the day groups,
      keeping them in ascending day order. */
  function AddToDay(gs: seq<DayTotal>, d: int, amount: Money): (r: seq<DayTotal>)
    requires Ascending(gs, DayOfTotal)
    ensures Ascending(r, DayOfTotal)
    decreases |gs|, 0
  {
    if gs == [] then [DayTotal(d, amount, 1)]
    else if gs[0].day == d then
      [DayTotal(d, gs[0].total_sales + amount, gs[0].receipt_count + 1)] + gs[1..]
    else if d < gs[0].day then
      [DayTotal(d, amount, 1)] + gs
    else
      var t := AddToDay(gs[1..], d, amount);
      assert forall k :: 0 <= k < |t| ==> t[k].day > gs[0].day by {
        forall k | 0 <= k < |t| ensures t[k].day > gs[0].day {
          FindOf(t, DayOfTotal, k);
          AddToDayFind(gs[1..], d, amount, t[k].day);
          if t[k].day != d {
            FoundIn(gs[1..], DayOfTotal, t[k].day);
          }
        }
      }
      [gs[0]] + t
  }

  /** The group of day `e` after adding a receipt of day `d`: unchanged for
      another day; for day `d`, a new group of one receipt or the old group
      with the amount added and the count raised by one. */
  lemma {:induction false} AddToDayFind(gs: seq<DayTotal>, d: int, amount: Money, e: int)
    requires Ascending(gs, DayOfTotal)
    ensures Find(AddToDay(gs, d, amount), DayOfTotal, e) ==
      if e != d then Find(gs, DayOfTotal, e)
      else match Find(gs, DayOfTotal, d)
        case None => Some(DayTotal(d, amount, 1))
        case Some(g) => Some(DayTotal(d, g.total_sales + amount, g.receipt_count + 1))
    decreases |gs|, 1
  {
    var r := AddToDay(gs, d, amount);
    if gs == [] {
      assert r[1..] == [];
    } else if gs[0].day == d {
      var g := DayTotal(d, gs[0].total_sales + amount, gs[0].receipt_count + 1);
      assert r == [g] + gs[1..];
      assert r[0] == g && r[1..] == gs[1..];
    } else if d < gs[0].day {
      assert r == [DayTotal(d, amount, 1)] + gs;
      assert r[1..] == gs;
      AscendingNotFound(gs, DayOfTotal, d);
    } else {
      var t := AddToDay(gs[1..], d, amount);
      assert r == [gs[0]] + t;
      assert r[0] == gs[0] && r[1..] == t;
      AddToDayFind(gs[1..], d, amount, e);
    }
  }

  /** Day groups of receipts that all have a closing date, in natural order. */
  function GroupByDay(rs: seq<Receipt>): (gs: seq<DayTotal>)
    requires AllClosed(rs)
    ensures Ascending(gs, DayOfTotal)
  {
    if rs == [] then []
    else
      var r := rs[|rs| - 1];
      AddToDay(GroupByDay(rs[..|rs| - 1]), ClosedDay(r), r.total)
  }

  /** Sum of `total` of the receipts closed on day `d`. */
  function SalesOn(rs: seq<Receipt>, d: int): Money
    requires AllClosed(rs)
  {
    if rs == [] then 0
    else
      var r := rs[|rs| - 1];
      SalesOn(rs[..|rs| - 1], d) + (if ClosedDay(r) == d then r.total else 0)
  }

  /** Number of receipts closed on day `d`. */
  function CountOn(rs: seq<Receipt>, d: int): nat
    requires AllClosed(rs)
  {
    if rs == [] then 0
    else CountOn(rs[..|rs| - 1], d) + (if ClosedDay(rs[|rs| - 1]) == d then 1 else 0)
  }

  /** A day has a group exactly when some receipt closed on it, and the group
      holds that day's sales total and receipt count. */
  lemma {:induction false} GroupByDayFind(rs: seq<Receipt>, d: int)
    requires AllClosed(rs)
    ensures Find(GroupByDay(rs), DayOfTotal, d) ==
      if CountOn(rs, d) == 0 then None else Some(DayTotal(d, SalesOn(rs, d), CountOn(rs, d)))
  {
    if rs != [] {
      var init, r := rs[..|rs| - 1], rs[|rs| - 1];
      GroupByDayFind(init, d);
      NoSalesWithoutReceipts(init, d);
      var gs := GroupByDay(init);
      assert GroupByDay(rs) == AddToDay(gs, ClosedDay(r), r.total);
      AddToDayFind(gs, ClosedDay(r), r.total, d);
    }
  }

  lemma {:induction false} NoSalesWithoutReceipts(rs: seq<Receipt>, d: int)
    requires AllClosed(rs)
    ensures CountOn(rs, d) == 0 ==> SalesOn(rs, d) == 0
  {
    if rs != [] {
      NoSalesWithoutReceipts(rs[..|rs| - 1], d);
    }
  }

  function SumTotals(rs: seq<Receipt>): Money {
    if rs == [] then 0 else SumTotals(rs[..|rs| - 1]) + rs[|rs| - 1].total
  }

  /** Sum of the groups' `total_sales`. */
  function TotalSales(gs: seq<DayTotal>): Money {
    if gs == [] then 0 else gs[0].total_sales + TotalSales(gs[1..])
  }

  /** Sum of the groups' `receipt_count`. */
  function TotalCount(gs: seq<DayTotal>): nat {
    if gs == [] then 0 else gs[0].receipt_count + TotalCount(gs[1..])
  }

  lemma {:induction false} AddToDaySums(gs: seq<DayTotal>, d: int, amount: Money)
    requires Ascending(gs, DayOfTotal)
    ensures TotalSales(AddToDay(gs, d, amount)) == TotalSales(gs) + amount
    ensures TotalCount(AddToDay(gs, d, amount)) == TotalCount(gs) + 1
  {
    if gs != [] && gs[0].day != d && d > gs[0].day {
      AddToDaySums(gs[1..], d, amount);
      var t := AddToDay(gs[1..], d, amount);
      assert ([gs[0]] + t)[1..] == t;
    } else if gs != [] && gs[0].day == d {
      var t := [DayTotal(d, gs[0].total_sales + amount, gs[0].receipt_count + 1)] + gs[1..];
      assert t[1..] == gs[1..];
    } else if gs != [] {
      assert ([DayTotal(d, amount, 1)] + gs)[1..] == gs;
    }
  }

  /** Summing the day groups gives the sum over all the receipts grouped and
      their number: grouping loses and duplicates nothing. */
  lemma {:induction false} GroupByDaySums(rs: seq<Receipt>)
    requires AllClosed(rs)
    ensures TotalSales(GroupByDay(rs)) == SumTotals(rs)
    ensures TotalCount(GroupByDay(rs)) == |rs|
  {
    if rs != [] {
      var r := rs[|rs| - 1];
      GroupByDaySums(rs[..|rs| - 1]);
      AddToDaySums(GroupByDay(rs[..|rs| - 1]), ClosedDay(r), r.total);
    }
  }

  /** `getTotalsByDateRange(storeId, start, end)`. */
  function TotalsByDateRange(rs: seq<Receipt>, storeId: string, start: Timestamp, end: Timestamp): (gs: seq<DayTotal>)
    ensures Ascending(gs, DayOfTotal)
  {
    GroupByDay(Matching(rs, storeId, start, end))
  }

  /** The sales groups of a range add up to the total of the matching
      receipts, and their counts to the number of matching receipts. */
  lemma DateRangeSums(rs: seq<Receipt>, storeId: string, start: Timestamp, end: Timestamp)
    ensures TotalSales(TotalsByDateRange(rs, storeId, start, end)) == SumTotals(Matching(rs, storeId, start, end))
    ensures TotalCount(TotalsByDateRange(rs, storeId, start, end)) == |Matching(rs, storeId, start, end)|
  {
    GroupByDaySums(Matching(rs, storeId, start, end));
  }

  /** Every group of `getTotalsByDateRange` is a day on which some matching
      receipt closed, with that day's sum and count; and every such day has
      a group. */
  lemma DateRangeGroups(rs: seq<Receipt>, storeId: string, start: Timestamp, end: Timestamp)
    ensures var m := Matching(rs, storeId, start, end);
            var gs := TotalsByDateRange(rs, storeId, start, end);
            && (forall k :: 0 <= k < |gs| ==>
                  gs[k].receipt_count == CountOn(m, gs[k].day) > 0
                  && gs[k].total_sales == SalesOn(m, gs[k].day))
            && (forall d :: CountOn(m, d) > 0 ==> exists k :: 0 <= k < |gs| && gs[k].day == d)
  {
    var m := Matching(rs, storeId, start, end);
    var gs := TotalsByDateRange(rs, storeId, start, end);
    forall k | 0 <= k < |gs|
      ensures gs[k].receipt_count == CountOn(m, gs[k].day) > 0 && gs[k].total_sales == SalesOn(m, gs[k].day)
    {
      FindOf(gs, DayOfTotal, k);
      GroupByDayFind(m, gs[k].day);
    }
    forall d | CountOn(m, d) > 0 ensures exists k :: 0 <= k < |gs| && gs[k].day == d {
      GroupByDayFind(m, d);
      FoundIn(gs, DayOfTotal, d);
    }
  }

  // ----- getTotalsByPaymentMethod: unwind payments, group by (day, method), then by day -----

  /** One element of `$unwind: '$payments'`: a payment with its receipt's day. */
  datatype PaymentLine = PaymentLine(day: int, payment_method: string, amount: Money)

  function LinesOf(r: Receipt): (ls: seq<PaymentLine>)
    requires r.closed_at.Some?
    ensures |ls| == |r.payments|
    ensures forall i :: 0 <= i < |ls| ==>
      ls[i] == PaymentLine(ClosedDay(r), r.payments[i].payment_method, r.payments[i].amount)
  {
    seq(|r.payments|, i requires 0 <= i < |r.payments| =>
      PaymentLine(ClosedDay(r), r.payments[i].payment_method, r.payments[i].amount))
  }

  /** `$unwind: '$payments'`: a receipt with an empty payment list yields nothing. */
  function Unwind(rs: seq<Receipt>): seq<PaymentLine>
    requires AllClosed(rs)
  {
    if rs == [] then [] else Unwind(rs[..|rs| - 1]) + LinesOf(rs[|rs| - 1])
  }

  lemma {:induction false} UnwindAppend(a: seq<Receipt>, b: seq<Receipt>)
    requires AllClosed(a) && AllClosed(b)
    ensures AllClosed(a + b)
    ensures Unwind(a + b) == Unwind(a) + Unwind(b)
  {
    if b == [] {
      assert a + b == a;
    } else {
      var b' := b[..|b| - 1];
      assert (a + b)[..|a + b| - 1] == a + b';
      assert (a + b)[|a + b| - 1] == b[|b| - 1];
      UnwindAppend(a, b');
    }
  }

  datatype MethodTotal = MethodTotal(payment_method: string, amount: Money)
  datatype DayMethods = DayMethods(day: int, methods: seq<MethodTotal>, total_day: Money)

  function DayOfMethods(g: DayMethods): int { g.day }

  /** The amount of method `m` in a day's list, if listed. */
  function FindMethod(ms: seq<MethodTotal>, m: string): Option<Money> {
    if ms == [] then None
    else if ms[0].payment_method == m then Some(ms[0].amount)
    else FindMethod(ms[1..], m)
  }

  ghost predicate DistinctMethods(ms: seq<MethodTotal>) {
    forall i, j :: 0 <= i < j < |ms| ==> ms[i].payment_method != ms[j].payment_method
  }

  function SumMethods(ms: seq<MethodTotal>): Money {
    if ms == [] then 0 else ms[0].amount + SumMethods(ms[1..])
  }

  lemma {:induction false} FindMethodOf(ms: seq<MethodTotal>, k: nat)
    requires k < |ms|
    ensures FindMethod(ms, ms[k].payment_method).Some?
  {
    if k > 0 && ms[0].payment_method != ms[k].payment_method {
      assert ms[1..][k - 1] == ms[k];
      FindMethodOf(ms[1..], k - 1);
    }
  }

  /** The first `$group` stage for one payment: adds `amount` to the entry
      of method `m`, or appends a new entry. */
  function AddToMethods(ms: seq<MethodTotal>, m: string, amount: Money): (r: seq<MethodTotal>)
    ensures forall x :: (FindMethod(r, x) ==
      if x == m then Some(FindMethod(ms, m).GetOr(0) + amount) else FindMethod(ms, x))
    ensures DistinctMethods(ms) ==> DistinctMethods(r)
    ensures SumMethods(r) == SumMethods(ms) + amount
  {
    if ms == [] then [MethodTotal(m, amount)]
    else if ms[0].payment_method == m then
      var r := [MethodTotal(m, ms[0].amount + amount)] + ms[1..];
      assert r[1..] == ms[1..];
      assert DistinctMethods(ms) ==> DistinctMethods(r) by {
        if DistinctMethods(ms) {
          forall i, j | 0 <= i < j < |r| ensures r[i].payment_method != r[j].payment_method {
            assert r[j] == ms[j];
            if i > 0 { assert r[i] == ms[i]; }
          }
        }
      }
      r
    else
      var t := AddToMethods(ms[1..], m, amount);
      var r := [ms[0]] + t;
      assert r[1..] == t;
      assert DistinctMethods(ms) ==> DistinctMethods(r) by {
        if DistinctMethods(ms) {
          assert DistinctMethods(ms[1..]) by {
            forall i, j | 0 <= i < j < |ms[1..]| ensures ms[1..][i].payment_method != ms[1..][j].payment_method {
              assert ms[1..][i] == ms[i + 1] && ms[1..][j] == ms[j + 1];
            }
          }
          assert FindMethod(ms[1..], ms[0].payment_method).None? by {
            if FindMethod(ms[1..], ms[0].payment_method).Some? {
              FoundMethodIn(ms[1..], ms[0].payment_method);
              assert false;
            }
          }
          forall i, j | 0 <= i < j < |r| ensures r[i].payment_method != r[j].payment_method {
            if i == 0 {
              assert r[j] == t[j - 1];
              FindMethodOf(t, j - 1);
            } else {
              assert r[i] == t[i - 1] && r[j] == t[j - 1];
            }
          }
        }
      }
      r
  }

  lemma {:induction false} FoundMethodIn(ms: seq<MethodTotal>, m: string)
    requires FindMethod(ms, m).Some?
    ensures exists k :: 0 <= k < |ms| && ms[k].payment_method == m
  {
    if ms[0].payment_method != m {
      FoundMethodIn(ms[1..], m);
      var k :| 0 <= k < |ms[1..]| && ms[1..][k].payment_method == m;
      assert ms[k + 1] == ms[1..][k];
    }
  }

  /** A day's group after adding payment line `l`. */
  function Bump(g: Option<DayMethods>, l: PaymentLine): DayMethods {
    match g
    case None => DayMethods(l.day, [MethodTotal(l.payment_method, l.amount)], l.amount)
    case Some(g) => g.(methods := AddToMethods(g.methods, l.payment_method, l.amount),
                       total_day := g.total_day + l.amount)
  }

  /** Both `$group` stages for one payment line, keeping days ascending. */
  function AddLine(gs: seq<DayMethods>, l: PaymentLine): (r: seq<DayMethods>)
    requires Ascending(gs, DayOfMethods)
    ensures Ascending(r, DayOfMethods)
    ensures forall e :: (Find(r, DayOfMethods, e) ==
      if e != l.day then Find(gs, DayOfMethods, e) else Some(Bump(Find(gs, DayOfMethods, e), l)))
  {
    if gs == [] then [Bump(None, l)]
    else if gs[0].day == l.day then
      [Bump(Some(gs[0]), l)] + gs[1..]
    else if l.day < gs[0].day then
      AscendingNotFound(gs, DayOfMethods, l.day);
      [Bump(None, l)] + gs
    else
      var t := AddLine(gs[1..], l);
      assert forall k :: 0 <= k < |t| ==> t[k].day > gs[0].day by {
        forall k | 0 <= k < |t| ensures t[k].day > gs[0].day {
          FindOf(t, DayOfMethods, k);
          if t[k].day != l.day {
            FoundIn(gs[1..], DayOfMethods, t[k].day);
          } else if Find(gs[1..], DayOfMethods, l.day).Some? {
            FoundIn(gs[1..], DayOfMethods, l.day);
          }
        }
      }
      [gs[0]] + t
  }

  function GroupLines(ls: seq<PaymentLine>): (gs: seq<DayMethods>)
    ensures Ascending(gs, DayOfMethods)
  {
    if ls == [] then [] else AddLine(GroupLines(ls[..|ls| - 1]), ls[|ls| - 1])
  }

  /** Sum of the payments of day `d`. */
  function PaidOn(ls: seq<PaymentLine>, d: int): Money {
    if ls == [] then 0
    else PaidOn(ls[..|ls| - 1], d) + (if ls[|ls| - 1].day == d then ls[|ls| - 1].amount else 0)
  }

  function LineCount(ls: seq<PaymentLine>, d: int): nat {
    if ls == [] then 0
    else LineCount(ls[..|ls| - 1], d) + (if ls[|ls| - 1].day == d then 1 else 0)
  }

  /** Sum of the payments of day `d` made with method `m`. */
  function MethodPaidOn(ls: seq<PaymentLine>, d: int, m: string): Money {
    if ls == [] then 0
    else
      var l := ls[|ls| - 1];
      MethodPaidOn(ls[..|ls| - 1], d, m) + (if l.day == d && l.payment_method == m then l.amount else 0)
  }

  function MethodLineCount(ls: seq<PaymentLine>, d: int, m: string): nat {
    if ls == [] then 0
    else
      var l := ls[|ls| - 1];
      MethodLineCount(ls[..|ls| - 1], d, m) + (if l.day == d && l.payment_method == m then 1 else 0)
  }

  lemma {:induction false} NoLinesNoPayments(ls: seq<PaymentLine>, d: int, m: string)
    ensures MethodLineCount(ls, d, m) == 0 ==> MethodPaidOn(ls, d, m) == 0
    ensures LineCount(ls, d) == 0 ==> PaidOn(ls, d) == 0 && MethodLineCount(ls, d, m) == 0
  {
    if ls != [] {
      NoLinesNoPayments(ls[..|ls| - 1], d, m);
    }
  }

  /** What a day group of `getTotalsByPaymentMethod` holds: one entry per
      method used that day, each the sum of that method's payments, and a
      `total_day` that is both the sum of the entries and of the day's payments. */
  ghost predicate Summarises(g: DayMethods, ls: seq<PaymentLine>) {
    && DistinctMethods(g.methods)
    && SumMethods(g.methods) == g.total_day
    && g.total_day == PaidOn(ls, g.day)
    && forall m :: FindMethod(g.methods, m) ==
         if MethodLineCount(ls, g.day, m) == 0 then None else Some(MethodPaidOn(ls, g.day, m))
  }

  /** Adding the day's next payment line to the day's group, or starting
      the group with it, leaves a summary of the day's lines. */
  lemma BumpSummarises(ls: seq<PaymentLine>, before: Option<DayMethods>)
    requires ls != []
    requires match before
      case None => LineCount(ls[..|ls| - 1], ls[|ls| - 1].day) == 0
      case Some(g) => g.day == ls[|ls| - 1].day && Summarises(g, ls[..|ls| - 1])
    ensures Summarises(Bump(before, ls[|ls| - 1]), ls)
  {
    var init, l := ls[..|ls| - 1], ls[|ls| - 1];
    var g := Bump(before, l);
    forall m ensures FindMethod(g.methods, m) ==
      if MethodLineCount(ls, l.day, m) == 0 then None else Some(MethodPaidOn(ls, l.day, m))
    {
      NoLinesNoPayments(init, l.day, m);
    }
    NoLinesNoPayments(init, l.day, l.payment_method);
    if before.Some? {
      assert DistinctMethods(before.value.methods);
    }
    assert g.day == l.day;
    assert DistinctMethods(g.methods);
    assert SumMethods(g.methods) == g.total_day;
    assert g.total_day == PaidOn(ls, g.day);
  }

  lemma {:induction false} GroupLinesFind(ls: seq<PaymentLine>, d: int)
    ensures match Find(GroupLines(ls), DayOfMethods, d)
      case None => LineCount(ls, d) == 0
      case Some(g) => g.day == d && LineCount(ls, d) > 0 && Summarises(g, ls)
  {
    if ls != [] {
      var init, l := ls[..|ls| - 1], ls[|ls| - 1];
      GroupLinesFind(init, d);
      var gs := GroupLines(init);
      var before := Find(gs, DayOfMethods, d);
      assert Find(GroupLines(ls), DayOfMethods, d) ==
        if d != l.day then before else Some(Bump(before, l));
      if d == l.day {
        BumpSummarises(ls, before);
      } else if before.Some? {
        var g := before.value;
        forall m ensures FindMethod(g.methods, m) ==
          if MethodLineCount(ls, d, m) == 0 then None else Some(MethodPaidOn(ls, d, m))
        {
          assert MethodLineCount(ls, d, m) == MethodLineCount(init, d, m);
        }
      }
    }
  }

  /** `getTotalsByPaymentMethod(storeId, start, end)`. */
  function TotalsByPaymentMethod(rs: seq<Receipt>, storeId: string, start: Timestamp, end: Timestamp): (gs: seq<DayMethods>)
    ensures Ascending(gs, DayOfMethods)
  {
    GroupLines(Unwind(Matching(rs, storeId, start, end)))
  }

  /** Each day group sums that day's payments per method and in total; a day
      has a group exactly when a matching receipt closed on it has a payment. */
  lemma PaymentMethodGroups(rs: seq<Receipt>, storeId: string, start: Timestamp, end: Timestamp)
    ensures var ls := Unwind(Matching(rs, storeId, start, end));
            var gs := TotalsByPaymentMethod(rs, storeId, start, end);
            && (forall k :: 0 <= k < |gs| ==> LineCount(ls, gs[k].day) > 0 && Summarises(gs[k], ls))
            && (forall d :: LineCount(ls, d) > 0 ==> exists k :: 0 <= k < |gs| && gs[k].day == d)
  {
    var ls := Unwind(Matching(rs, storeId, start, end));
    var gs := TotalsByPaymentMethod(rs, storeId, start, end);
    forall k | 0 <= k < |gs| ensures LineCount(ls, gs[k].day) > 0 && Summarises(gs[k], ls) {
      FindOf(gs, DayOfMethods, k);
      GroupLinesFind(ls, gs[k].day);
    }
    forall d | LineCount(ls, d) > 0 ensures exists k :: 0 <= k < |gs| && gs[k].day == d {
      GroupLinesFind(ls, d);
      FoundIn(gs, DayOfMethods, d);
    }
  }

  /** A receipt without payments leaves the payment-method totals as they
      would be without it, wherever it sits in the collection. */
  lemma NoPaymentsNoContribution(a: seq<Receipt>, r: Receipt, b: seq<Receipt>, storeId: string, start: Timestamp, end: Timestamp)
    requires r.payments == []
    ensures TotalsByPaymentMethod(a + [r] + b, storeId, start, end) == TotalsByPaymentMethod(a + b, storeId, start, end)
  {
    var ma, mr, mb := Matching(a, storeId, start, end), Matching([r], storeId, start, end), Matching(b, storeId, start, end);
    MatchingAppend(a + [r], b, storeId, start, end);
    MatchingAppend(a, [r], storeId, start, end);
    MatchingAppend(a, b, storeId, start, end);
    assert Matching(a + [r] + b, storeId, start, end) == ma + mr + mb;
    assert Matching(a + b, storeId, start, end) == ma + mb;
    UnwindNoPayments(ma, mr, mb);
  }

  lemma {:induction false} UnwindNoPayments(ma: seq<Receipt>, mr: seq<Receipt>, mb: seq<Receipt>)
    requires AllClosed(ma) && AllClosed(mr) && AllClosed(mb)
    requires forall i :: 0 <= i < |mr| ==> mr[i].payments == []
    requires |mr| <= 1
    ensures AllClosed(ma + mr + mb) && AllClosed(ma + mb)
    ensures Unwind(ma + mr + mb) == Unwind(ma + mb)
  {
    UnwindAppend(ma, mr);
    UnwindAppend(ma + mr, mb);
    UnwindAppend(ma, mb);
    if mr != [] {
      assert mr[..0] == [];
      assert Unwind(mr) == Unwind([]) + LinesOf(mr[0]);
    }
  }
}
