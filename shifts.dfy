/**
 * The shifts service: create, list, look up, update, upsert by Loyverse id,
 * delete, the recalculation of a shift's sales from the receipts closed
 * within it, and the per-shift summary listing. The shift collection has a
 * unique but sparse index on `loyverse_id`: shifts without one never clash.
 */
module Shifts {
  import opened Wrappers
  import opened Models
  import opened Listing
  import opened Collection
  import opened ReceiptTotals
  import Receipts

  function ShiftKey(s: Shift): Option<string> { s.loyverse_id }

  /** A partial update: present fields are `$set`, absent ones are kept. */
  datatype ShiftPatch = ShiftPatch(
    loyverse_id: Option<string>,
    store_id: Option<string>,
    opened_at: Option<Timestamp>,
    closed_at: Option<Timestamp>,
    opening_cash: Option<Money>,
    cash_sales: Option<Money>,
    card_sales: Option<Money>,
    other_sales: Option<Money>,
    expected_cash: Option<Money>,
    counted_cash: Option<Money>,
    cash_difference: Option<Money>,
    pay_in_total: Option<Money>,
    pay_out_total: Option<Money>,
    notes: Option<string>,
    meta: Option<Meta>)

  const NoChange := ShiftPatch(None, None, None, None, None, None, None, None,
                               None, None, None, None, None, None, None)

  function Patched(s: Shift, p: ShiftPatch): Shift {
    Shift(
      Receipts.SetOpt(p.loyverse_id, s.loyverse_id), Receipts.Set(p.store_id, s.store_id),
      Receipts.Set(p.opened_at, s.opened_at), Receipts.Set(p.closed_at, s.closed_at),
      Receipts.Set(p.opening_cash, s.opening_cash), Receipts.SetOpt(p.cash_sales, s.cash_sales),
      Receipts.SetOpt(p.card_sales, s.card_sales), Receipts.SetOpt(p.other_sales, s.other_sales),
      Receipts.SetOpt(p.expected_cash, s.expected_cash), Receipts.Set(p.counted_cash, s.counted_cash),
      Receipts.SetOpt(p.cash_difference, s.cash_difference), Receipts.SetOpt(p.pay_in_total, s.pay_in_total),
      Receipts.SetOpt(p.pay_out_total, s.pay_out_total), Receipts.SetOpt(p.notes, s.notes),
      Receipts.Set(p.meta, s.meta))
  }

  /** A create payload used as an update. */
  function AsPatch(d: Shift): ShiftPatch {
    ShiftPatch(
      d.loyverse_id, Some(d.store_id), Some(d.opened_at), Some(d.closed_at), Some(d.opening_cash),
      d.cash_sales, d.card_sales, d.other_sales, d.expected_cash, Some(d.counted_cash),
      d.cash_difference, d.pay_in_total, d.pay_out_total, d.notes, Some(d.meta))
  }

  /** The empty patch changes nothing; a patch applied twice is applied once. */
  lemma PatchLaws(s: Shift, p: ShiftPatch)
    ensures Patched(s, NoChange) == s
    ensures Patched(Patched(s, p), p) == Patched(s, p)
  {
  }

  /** The first required schema path a new shift leaves out, if any: the
      create payload may omit `expected_cash` and `cash_difference`, which
      the schema requires, and `required` refuses an empty `store_id`. */
  function MissingPath(s: Shift): (r: Option<string>)
    ensures r.None? <==> s.store_id != "" && s.expected_cash.Some? && s.cash_difference.Some?
    ensures r == Some("store_id") <==> s.store_id == ""
  {
    if s.store_id == "" then Some("store_id")
    else if s.expected_cash.None? then Some("expected_cash")
    else if s.cash_difference.None? then Some("cash_difference")
    else None
  }

  datatype ShiftQuery = ShiftQuery(
    store_id: Option<string>,
    start_date: Option<Timestamp>,
    end_date: Option<Timestamp>,
    limit: Option<int>,
    page: Option<int>)

  /** The shift query's DTO is not part of this model; these bounds are
      assumed to match the receipt query's (a positive limit of at most
      100, a page of at least 1). A limit of 0 would mean no limit to
      Mongoose's `.limit`, which the model's paging does not give. */
  predicate ValidQuery(q: ShiftQuery) {
    && (q.limit.Some? ==> 1 <= q.limit.value <= 100)
    && (q.page.Some? ==> q.page.value >= 1)
  }

  predicate Matches(q: ShiftQuery, s: Shift) {
    && (Truthy(q.store_id) ==> s.store_id == q.store_id.value)
    && (q.start_date.Some? ==> s.closed_at >= q.start_date.value)
    && (q.end_date.Some? ==> s.closed_at <= q.end_date.value)
  }

  function Selected(docs: seq<Doc<Shift>>, q: ShiftQuery): (r: seq<Doc<Shift>>)
    ensures forall i :: 0 <= i < |r| ==> r[i] in docs && Matches(q, r[i].data)
    ensures forall i :: 0 <= i < |docs| && Matches(q, docs[i].data) ==> docs[i] in r
    ensures multiset(r) <= multiset(docs)
  {
    Where(docs, (d: Doc<Shift>) => Matches(q, d.data))
  }

  function ClosedAt(d: Doc<Shift>): Option<int> { Some(d.data.closed_at) }

  // ----- recalculation from the payment-method totals -----

  /** The amount of the last entry for method `m`, or 0 (each entry
      overwrites the running figure). */
  function LastAmount(ms: seq<MethodTotal>, m: string): Money {
    if ms == [] then 0
    else if ms[|ms| - 1].payment_method == m then ms[|ms| - 1].amount
    else LastAmount(ms[..|ms| - 1], m)
  }

  /** The sum of the entries for methods other than cash and card. */
  function OtherSum(ms: seq<MethodTotal>): Money {
    if ms == [] then 0
    else
      var last := ms[|ms| - 1];
      OtherSum(ms[..|ms| - 1]) + if last.payment_method == "cash" || last.payment_method == "card" then 0 else last.amount
  }

  /** The cash, card and other figures of a day's method list. */
  method SplitMethods(ms: seq<MethodTotal>) returns (cash: Money, card: Money, other: Money)
    ensures cash == LastAmount(ms, "cash") && card == LastAmount(ms, "card") && other == OtherSum(ms)
  {
    cash, card, other := 0, 0, 0;
    for i := 0 to |ms|
      invariant cash == LastAmount(ms[..i], "cash")
      invariant card == LastAmount(ms[..i], "card")
      invariant other == OtherSum(ms[..i])
    {
      assert ms[..i + 1][..i] == ms[..i];
      if ms[i].payment_method == "cash" {
        cash := ms[i].amount;
      } else if ms[i].payment_method == "card" {
        card := ms[i].amount;
      } else {
        other := other + ms[i].amount;
      }
    }
    assert ms[..|ms|] == ms;
  }

  lemma {:induction false} SumMethodsSnoc(ms: seq<MethodTotal>, x: MethodTotal)
    ensures SumMethods(ms + [x]) == SumMethods(ms) + x.amount
  {
    if ms != [] {
      assert (ms + [x])[1..] == ms[1..] + [x];
      SumMethodsSnoc(ms[1..], x);
    }
  }

  lemma {:induction false} FindMethodSnoc(ms: seq<MethodTotal>, x: MethodTotal, m: string)
    ensures FindMethod(ms + [x], m) ==
      if FindMethod(ms, m).Some? then FindMethod(ms, m)
      else if x.payment_method == m then Some(x.amount) else None
  {
    if ms != [] {
      assert (ms + [x])[1..] == ms[1..] + [x];
      FindMethodSnoc(ms[1..], x, m);
    }
  }

  /** With one entry per method, the figure of a method is its entry's
      amount, and cash, card and other together are the day's whole total. */
  lemma {:induction false} SplitOfDistinct(ms: seq<MethodTotal>)
    requires DistinctMethods(ms)
    ensures forall m :: LastAmount(ms, m) == FindMethod(ms, m).GetOr(0)
    ensures LastAmount(ms, "cash") + LastAmount(ms, "card") + OtherSum(ms) == SumMethods(ms)
  {
    if ms != [] {
      var init, x := ms[..|ms| - 1], ms[|ms| - 1];
      assert ms == init + [x];
      SplitOfDistinct(init);
      SumMethodsSnoc(init, x);
      forall m ensures LastAmount(ms, m) == FindMethod(ms, m).GetOr(0) {
        FindMethodSnoc(init, x, m);
        if x.payment_method == m && FindMethod(init, m).Some? {
          FoundMethodIn(init, m);
          assert false;
        }
      }
      if x.payment_method == "cash" {
        assert LastAmount(init, "cash") == 0 by {
          FindMethodSnoc(init, x, "cash");
          if FindMethod(init, "cash").Some? {
            FoundMethodIn(init, "cash");
            assert false;
          }
        }
      } else if x.payment_method == "card" {
        assert LastAmount(init, "card") == 0 by {
          if FindMethod(init, "card").Some? {
            FoundMethodIn(init, "card");
            assert false;
          }
        }
      }
    }
  }

  /** The figures the recalculation writes: from the first (earliest) day
      group only, or all zero when the window holds no payment. */
  datatype Figures = Figures(cash: Money, card: Money, other: Money)

  function FiguresOf(gs: seq<DayMethods>): Figures {
    if gs == [] then Figures(0, 0, 0)
    else Figures(LastAmount(gs[0].methods, "cash"), LastAmount(gs[0].methods, "card"), OtherSum(gs[0].methods))
  }

  /** The recalculated figures are the payments of the earliest day, within
      the shift's store and window, that has any: cash and card are that
      day's cash and card payments and the three figures sum to all of
      that day's payments. Payments of later days are not counted. */
  lemma RecalculatedFigures(rs: seq<Receipt>, s: Shift)
    ensures var ls := Unwind(Matching(rs, s.store_id, s.opened_at, s.closed_at));
            var gs := TotalsByPaymentMethod(rs, s.store_id, s.opened_at, s.closed_at);
            var f := FiguresOf(gs);
            && (gs == [] ==> f == Figures(0, 0, 0) && forall d :: LineCount(ls, d) == 0)
            && (gs != [] ==>
                  && (forall d :: LineCount(ls, d) > 0 ==> gs[0].day <= d)
                  && f.cash == MethodPaidOn(ls, gs[0].day, "cash")
                  && f.card == MethodPaidOn(ls, gs[0].day, "card")
                  && f.cash + f.card + f.other == PaidOn(ls, gs[0].day))
  {
    FiguresOfLines(Unwind(Matching(rs, s.store_id, s.opened_at, s.closed_at)));
  }

  lemma FiguresOfLines(ls: seq<PaymentLine>)
    ensures var gs := GroupLines(ls);
            var f := FiguresOf(gs);
            && (gs == [] ==> forall d :: LineCount(ls, d) == 0)
            && (gs != [] ==>
                  && (forall d :: LineCount(ls, d) > 0 ==> gs[0].day <= d)
                  && f.cash == MethodPaidOn(ls, gs[0].day, "cash")
                  && f.card == MethodPaidOn(ls, gs[0].day, "card")
                  && f.cash + f.card + f.other == PaidOn(ls, gs[0].day))
  {
    var gs := GroupLines(ls);
    if gs == [] {
      forall d ensures LineCount(ls, d) == 0 {
        GroupLinesFind(ls, d);
      }
    } else {
      FirstGroupIsEarliest(ls);
      FirstGroupFigures(ls);
    }
  }

  lemma FirstGroupIsEarliest(ls: seq<PaymentLine>)
    requires GroupLines(ls) != []
    ensures forall d :: LineCount(ls, d) > 0 ==> GroupLines(ls)[0].day <= d
  {
    var gs := GroupLines(ls);
    forall d | LineCount(ls, d) > 0 ensures gs[0].day <= d {
      GroupLinesFind(ls, d);
      FoundIn(gs, DayOfMethods, d);
    }
  }

  lemma FirstGroupFigures(ls: seq<PaymentLine>)
    requires GroupLines(ls) != []
    ensures var g := GroupLines(ls)[0];
            var f := FiguresOf(GroupLines(ls));
            && f.cash == MethodPaidOn(ls, g.day, "cash")
            && f.card == MethodPaidOn(ls, g.day, "card")
            && f.cash + f.card + f.other == PaidOn(ls, g.day)
  {
    var g := GroupLines(ls)[0];
    FirstGroupSummarises(ls);
    SplitOfDistinct(g.methods);
    NoLinesNoPayments(ls, g.day, "cash");
    NoLinesNoPayments(ls, g.day, "card");
  }

  lemma FirstGroupSummarises(ls: seq<PaymentLine>)
    requires GroupLines(ls) != []
    ensures Summarises(GroupLines(ls)[0], ls)
  {
    var gs := GroupLines(ls);
    assert Find(gs, DayOfMethods, gs[0].day) == Some(gs[0]);
    GroupLinesFind(ls, gs[0].day);
  }

  /** The five figures the recalculation sets; nothing else changes. */
  function RecalcPatch(s: Shift, f: Figures): ShiftPatch {
    var expected := s.opening_cash + f.cash;
    NoChange.(cash_sales := Some(f.cash), card_sales := Some(f.card), other_sales := Some(f.other),
              expected_cash := Some(expected), cash_difference := Some(s.counted_cash - expected))
  }

  /** The recalculated shift: expected cash is the opening float plus the
      cash sales, the difference is what was counted minus that, and every
      other field is as it was. */
  lemma RecalcPatchEffect(s: Shift, f: Figures)
    ensures var t := Patched(s, RecalcPatch(s, f));
            && t.cash_sales == Some(f.cash) && t.card_sales == Some(f.card) && t.other_sales == Some(f.other)
            && t.expected_cash == Some(s.opening_cash + f.cash)
            && t.expected_cash.value + t.cash_difference.value == s.counted_cash
            && t.(cash_sales := s.cash_sales, card_sales := s.card_sales, other_sales := s.other_sales,
                  expected_cash := s.expected_cash, cash_difference := s.cash_difference) == s
  {
  }

  // ----- the per-shift summary listing -----

  /** One row of the summary: the projected fields and the UTC day of closing. */
  datatype ShiftRow = ShiftRow(
    id: DocId, store_id: string, opened_at: Timestamp, closed_at: Timestamp,
    opening_cash: Money, counted_cash: Money,
    cash_sales: Option<Money>, card_sales: Option<Money>, other_sales: Option<Money>,
    expected_cash: Option<Money>, cash_difference: Option<Money>, notes: Option<string>,
    date: int)

  function RowOf(d: Doc<Shift>): ShiftRow {
    var s := d.data;
    ShiftRow(d.id, s.store_id, s.opened_at, s.closed_at, s.opening_cash, s.counted_cash,
             s.cash_sales, s.card_sales, s.other_sales, s.expected_cash, s.cash_difference, s.notes,
             Day(s.closed_at))
  }

  predicate InWindow(s: Shift, storeId: string, start: Timestamp, end: Timestamp) {
    s.store_id == storeId && start <= s.closed_at <= end
  }

  function RowClosedAt(r: ShiftRow): Option<int> { Some(r.closed_at) }

  function RowsOf(ds: seq<Doc<Shift>>): (rows: seq<ShiftRow>)
    ensures |rows| == |ds| && forall i :: 0 <= i < |ds| ==> rows[i] == RowOf(ds[i])
  {
    seq(|ds|, i requires 0 <= i < |ds| => RowOf(ds[i]))
  }

  function InWindowDocs(docs: seq<Doc<Shift>>, storeId: string, start: Timestamp, end: Timestamp): (r: seq<Doc<Shift>>)
    ensures forall i :: 0 <= i < |r| ==> r[i] in docs && InWindow(r[i].data, storeId, start, end)
    ensures forall d :: d in docs && InWindow(d.data, storeId, start, end) ==> d in r
    ensures multiset(r) <= multiset(docs)
  {
    Where(docs, (d: Doc<Shift>) => InWindow(d.data, storeId, start, end))
  }

  /** `getShiftSummary`: the store's shifts closed in [start, end], latest first. */
  function ShiftSummary(docs: seq<Doc<Shift>>, storeId: string, start: Timestamp, end: Timestamp): (rows: seq<ShiftRow>)
    ensures SortedDesc(rows, RowClosedAt)
    ensures forall i :: 0 <= i < |rows| ==> exists d :: d in docs && InWindow(d.data, storeId, start, end) && rows[i] == RowOf(d)
    ensures forall d :: d in docs && InWindow(d.data, storeId, start, end) ==> RowOf(d) in rows
  {
    var sel := InWindowDocs(docs, storeId, start, end);
    var sorted := SortDesc(sel, ClosedAt);
    SummaryRows(docs, storeId, start, end, sel, sorted);
    RowsOf(sorted)
  }

  lemma SummaryRows(docs: seq<Doc<Shift>>, storeId: string, start: Timestamp, end: Timestamp,
                    sel: seq<Doc<Shift>>, sorted: seq<Doc<Shift>>)
    requires sel == InWindowDocs(docs, storeId, start, end)
    requires multiset(sorted) == multiset(sel) && SortedDesc(sorted, ClosedAt)
    ensures var rows := RowsOf(sorted);
            && SortedDesc(rows, RowClosedAt)
            && (forall i :: 0 <= i < |rows| ==> exists d :: d in docs && InWindow(d.data, storeId, start, end) && rows[i] == RowOf(d))
            && (forall d :: d in docs && InWindow(d.data, storeId, start, end) ==> RowOf(d) in rows)
  {
    var rows := RowsOf(sorted);
    forall i, j | 0 <= i < j < |rows| ensures AtLeast(RowClosedAt(rows[i]), RowClosedAt(rows[j])) {
      assert AtLeast(ClosedAt(sorted[i]), ClosedAt(sorted[j]));
    }
    forall i | 0 <= i < |rows|
      ensures exists d :: d in docs && InWindow(d.data, storeId, start, end) && rows[i] == RowOf(d)
    {
      assert sorted[i] in multiset(sel);
    }
    forall d | d in docs && InWindow(d.data, storeId, start, end) ensures RowOf(d) in rows {
      assert d in multiset(sorted);
      var k :| 0 <= k < |sorted| && sorted[k] == d;
      assert rows[k] == RowOf(d);
    }
  }

  class ShiftsService {
    var docs: seq<Doc<Shift>>
    var nextId: DocId
    /** The receipts the recalculation aggregates. */
    const receipts: Receipts.ReceiptsService

    ghost predicate Valid()
      reads this
    {
      WellFormed(docs, nextId, ShiftKey)
    }

    constructor(receipts: Receipts.ReceiptsService)
      ensures Valid() && docs == [] && this.receipts == receipts
    {
      docs := [];
      nextId := 0;
      this.receipts := receipts;
    }

    /** `new Model(data).save()`: schema validation, then the unique index. */
    method Save(d: Shift) returns (res: Result<Doc<Shift>, Error>)
      requires Valid()
      modifies this
      ensures Valid()
      ensures MissingPath(d).Some? ==>
        res == Err(ValidationFailed(MissingPath(d).value)) && docs == old(docs) && nextId == old(nextId)
      ensures MissingPath(d).None? && Clashes(old(docs), ShiftKey, d, None) ==>
        res == Err(DuplicateKey(d.loyverse_id.value)) && docs == old(docs) && nextId == old(nextId)
      ensures MissingPath(d).None? && !Clashes(old(docs), ShiftKey, d, None) ==>
        && res == Ok(Doc(old(nextId), d))
        && docs == old(docs) + [res.value]
        && nextId == old(nextId) + 1
    {
      var missing := MissingPath(d);
      if missing.Some? {
        return Err(ValidationFailed(missing.value));
      }
      if Clashes(docs, ShiftKey, d, None) {
        return Err(DuplicateKey(d.loyverse_id.value));
      }
      InsertWellFormed(docs, nextId, ShiftKey, d);
      res := Ok(Doc(nextId, d));
      docs := docs + [res.value];
      nextId := nextId + 1;
    }

    method Create(dto: Shift) returns (res: Result<Doc<Shift>, Error>)
      requires Valid()
      modifies this
      ensures Valid()
      ensures MissingPath(dto).Some? ==>
        res == Err(ValidationFailed(MissingPath(dto).value)) && docs == old(docs) && nextId == old(nextId)
      ensures MissingPath(dto).None? && Clashes(old(docs), ShiftKey, dto, None) ==>
        res == Err(DuplicateKey(dto.loyverse_id.value)) && docs == old(docs) && nextId == old(nextId)
      ensures MissingPath(dto).None? && !Clashes(old(docs), ShiftKey, dto, None) ==>
        && res == Ok(Doc(old(nextId), dto))
        && docs == old(docs) + [res.value]
        && nextId == old(nextId) + 1
    {
      res := Save(dto);
    }

    /** One page of the matching shifts, latest `closed_at` first, and the
        number of matching shifts. */
    method FindAll(q: ShiftQuery) returns (data: seq<Doc<Shift>>, total: nat)
      requires ValidQuery(q)
      ensures var matching := Selected(docs, q);
              var limit := q.limit.GetOr(10);
              && total == |matching|
              && data == Paginate(SortDesc(matching, ClosedAt), Skip(q.page.GetOr(1), limit), limit)
      ensures |data| <= q.limit.GetOr(10)
      ensures forall i :: 0 <= i < |data| ==> data[i] in docs && Matches(q, data[i].data)
      ensures SortedDesc(data, ClosedAt)
    {
      var limit: nat := q.limit.GetOr(10);
      var page := q.page.GetOr(1);
      var skip: nat := Skip(page, limit);
      var matching := Selected(docs, q);
      var sorted := SortDesc(matching, ClosedAt);
      data := Paginate(sorted, skip, limit);
      total := |matching|;
      PageOfSorted(sorted, ClosedAt, skip, limit);
      forall i | 0 <= i < |data| ensures data[i] in docs && Matches(q, data[i].data) {
        assert data[i] in multiset(sorted);
        assert data[i] in multiset(matching);
      }
    }

    method FindOne(id: DocId) returns (res: Result<Doc<Shift>, Error>)
      ensures res.Ok? <==> exists i :: 0 <= i < |docs| && docs[i].id == id
      ensures res.Ok? ==> res.value in docs && res.value.id == id
      ensures res.Err? ==> res.error == IdNotFound(id)
    {
      var i := IndexOfId(docs, id);
      if i.None? {
        return Err(IdNotFound(id));
      }
      return Ok(docs[i.value]);
    }

    method FindByLoyverseId(loyverseId: string) returns (res: Result<Doc<Shift>, Error>)
      ensures res.Ok? <==> exists i :: 0 <= i < |docs| && docs[i].data.loyverse_id == Some(loyverseId)
      ensures res.Ok? ==> res.value in docs && res.value.data.loyverse_id == Some(loyverseId)
      ensures res.Err? ==> res.error == KeyNotFound(loyverseId)
    {
      var i := IndexOfKey(docs, ShiftKey, loyverseId);
      if i.None? {
        return Err(KeyNotFound(loyverseId));
      }
      return Ok(docs[i.value]);
    }

    /** `findByIdAndUpdate(id, patch, { new: true })`. */
    method Update(id: DocId, patch: ShiftPatch) returns (res: Result<Doc<Shift>, Error>)
      requires Valid()
      modifies this
      ensures Valid()
      ensures nextId == old(nextId)
      ensures IndexOfId(old(docs), id).None? ==> res == Err(IdNotFound(id)) && docs == old(docs)
      ensures IndexOfId(old(docs), id).Some? ==>
        var i := IndexOfId(old(docs), id).value;
        var d := Patched(old(docs)[i].data, patch);
        if Clashes(old(docs), ShiftKey, d, Some(i)) then
          res == Err(DuplicateKey(d.loyverse_id.value)) && docs == old(docs)
        else
          res == Ok(Doc(id, d)) && docs == old(docs)[i := res.value]
    {
      var i := IndexOfId(docs, id);
      if i.None? {
        return Err(IdNotFound(id));
      }
      var d := Patched(docs[i.value].data, patch);
      if Clashes(docs, ShiftKey, d, i) {
        return Err(DuplicateKey(d.loyverse_id.value));
      }
      PutWellFormed(docs, nextId, ShiftKey, i.value, d);
      res := Ok(Doc(id, d));
      docs := docs[i.value := res.value];
    }

    /** Updates the shift holding `loyverseId` with the payload, or saves the
        payload as a new shift when none holds it. */
    method UpsertByLoyverseId(loyverseId: string, dto: Shift) returns (res: Result<Doc<Shift>, Error>)
      requires Valid()
      modifies this
      ensures Valid()
      ensures IndexOfKey(old(docs), ShiftKey, loyverseId).Some? ==>
        var i := IndexOfKey(old(docs), ShiftKey, loyverseId).value;
        var d := Patched(old(docs)[i].data, AsPatch(dto));
        && nextId == old(nextId)
        && if Clashes(old(docs), ShiftKey, d, Some(i)) then
             res == Err(DuplicateKey(d.loyverse_id.value)) && docs == old(docs)
           else
             res == Ok(Doc(old(docs)[i].id, d)) && docs == old(docs)[i := res.value]
      ensures IndexOfKey(old(docs), ShiftKey, loyverseId).None? ==>
        if MissingPath(dto).Some? then
          res == Err(ValidationFailed(MissingPath(dto).value)) && docs == old(docs) && nextId == old(nextId)
        else if Clashes(old(docs), ShiftKey, dto, None) then
          res == Err(DuplicateKey(dto.loyverse_id.value)) && docs == old(docs) && nextId == old(nextId)
        else
          res == Ok(Doc(old(nextId), dto)) && docs == old(docs) + [res.value] && nextId == old(nextId) + 1
      // The sparse unique index: a shift written with a Loyverse id is the only one holding it.
      ensures res.Ok? ==> (res.value in docs &&
        (res.value.data.loyverse_id.Some? ==> CountKey(docs, ShiftKey, res.value.data.loyverse_id.value) == 1))
    {
      var i := IndexOfKey(docs, ShiftKey, loyverseId);
      if i.Some? {
        var d := Patched(docs[i.value].data, AsPatch(dto));
        if Clashes(docs, ShiftKey, d, i) {
          return Err(DuplicateKey(d.loyverse_id.value));
        }
        PutWellFormed(docs, nextId, ShiftKey, i.value, d);
        res := Ok(Doc(docs[i.value].id, d));
        docs := docs[i.value := res.value];
        assert docs[i.value] == res.value;
      } else {
        res := Save(dto);
        if res.Ok? {
          assert docs[|docs| - 1] == res.value;
        }
      }
      if res.Ok? && res.value.data.loyverse_id.Some? {
        UniqueKeyCount(docs, ShiftKey, res.value.data.loyverse_id.value);
      }
    }

    method Remove(id: DocId) returns (res: Result<Doc<Shift>, Error>)
      requires Valid()
      modifies this
      ensures Valid()
      ensures nextId == old(nextId)
      ensures IndexOfId(old(docs), id).None? ==> res == Err(IdNotFound(id)) && docs == old(docs)
      ensures IndexOfId(old(docs), id).Some? ==>
        var i := IndexOfId(old(docs), id).value;
        res == Ok(old(docs)[i]) && docs == old(docs)[..i] + old(docs)[i + 1..]
      ensures forall i :: 0 <= i < |docs| ==> docs[i].id != id
    {
      var i := IndexOfId(docs, id);
      if i.None? {
        return Err(IdNotFound(id));
      }
      DeleteWellFormed(docs, nextId, ShiftKey, i.value);
      res := Ok(docs[i.value]);
      docs := docs[..i.value] + docs[i.value + 1..];
    }

    /** Recomputes the sales figures of shift `id` from the receipts of its
        store closed within its window, and stores them with the expected
        cash and the cash difference. */
    method RecalculateShiftTotals(id: DocId) returns (res: Result<Doc<Shift>, Error>)
      requires Valid()
      modifies this
      ensures Valid()
      ensures nextId == old(nextId)
      ensures IndexOfId(old(docs), id).None? ==> res == Err(IdNotFound(id)) && docs == old(docs)
      ensures IndexOfId(old(docs), id).Some? ==>
        var i := IndexOfId(old(docs), id).value;
        var s := old(docs)[i].data;
        var f := FiguresOf(TotalsByPaymentMethod(Contents(receipts.docs), s.store_id, s.opened_at, s.closed_at));
        res == Ok(Doc(id, Patched(s, RecalcPatch(s, f)))) && docs == old(docs)[i := res.value]
    {
      var found := FindOne(id);
      if found.Err? {
        return Err(found.error);
      }
      var s := found.value.data;
      var totals := TotalsByPaymentMethod(Contents(receipts.docs), s.store_id, s.opened_at, s.closed_at);
      var cash, card, other := 0, 0, 0;
      if |totals| > 0 {
        cash, card, other := SplitMethods(totals[0].methods);
      }
      var expected := s.opening_cash + cash;
      var difference := s.counted_cash - expected;
      var patch := NoChange.(cash_sales := Some(cash), card_sales := Some(card), other_sales := Some(other),
                             expected_cash := Some(expected), cash_difference := Some(difference));
      assert patch == RecalcPatch(s, FiguresOf(totals));
      ghost var i := IndexOfId(docs, id).value;
      assert docs[i] == found.value;
      SameKeyNoClash(docs, ShiftKey, i, Patched(s, patch));
      res := Update(id, patch);
    }

    /** The store's shifts closed within [start, end], latest first. */
    method GetShiftSummary(storeId: string, start: Timestamp, end: Timestamp) returns (rows: seq<ShiftRow>)
      ensures rows == ShiftSummary(docs, storeId, start, end)
    {
      rows := ShiftSummary(docs, storeId, start, end);
    }
  }
}
