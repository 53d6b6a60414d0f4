/**
 * The receipts service: create, list with filters and paging, look up by
 * internal id or by Loyverse id, partial update, upsert by Loyverse id and
 * delete, over the receipt collection with its unique `loyverse_id` index.
 * The two aggregation pipelines are in module ReceiptTotals.
 */
module Receipts {
  import opened Wrappers
  import opened Models
  import opened Listing
  import opened Collection

  /** The key of the unique index on receipts; every receipt has one. */
  function ReceiptKey(r: Receipt): Option<string> { Some(r.loyverse_id) }

  /** A partial update: present fields are `$set`, absent ones are kept. */
  datatype ReceiptPatch = ReceiptPatch(
    loyverse_id: Option<string>,
    store_id: Option<string>,
    number: Option<string>,
    status: Option<string>,
    created_at: Option<Timestamp>,
    closed_at: Option<Timestamp>,
    employee_id: Option<string>,
    employee_name: Option<string>,
    customer_id: Option<string>,
    customer_name: Option<string>,
    subtotal: Option<Money>,
    discount_total: Option<Money>,
    tax_total: Option<Money>,
    total: Option<Money>,
    payments: Option<seq<Payment>>,
    line_items: Option<seq<LineItem>>,
    shift_id: Option<string>,
    meta: Option<Meta>)

  const NoChange := ReceiptPatch(None, None, None, None, None, None, None, None, None,
                                 None, None, None, None, None, None, None, None, None)

  function Set<X>(o: Option<X>, v: X): X { if o.Some? then o.value else v }
  function SetOpt<X>(o: Option<X>, v: Option<X>): Option<X> { if o.Some? then o else v }

  /** The document after `$set` of the patch's present fields. */
  function Patched(r: Receipt, p: ReceiptPatch): Receipt {
    Receipt(
      Set(p.loyverse_id, r.loyverse_id), Set(p.store_id, r.store_id), Set(p.number, r.number),
      Set(p.status, r.status), Set(p.created_at, r.created_at), SetOpt(p.closed_at, r.closed_at),
      SetOpt(p.employee_id, r.employee_id), SetOpt(p.employee_name, r.employee_name),
      SetOpt(p.customer_id, r.customer_id), SetOpt(p.customer_name, r.customer_name),
      Set(p.subtotal, r.subtotal), Set(p.discount_total, r.discount_total), Set(p.tax_total, r.tax_total),
      Set(p.total, r.total), Set(p.payments, r.payments), Set(p.line_items, r.line_items),
      SetOpt(p.shift_id, r.shift_id), Set(p.meta, r.meta))
  }

  /** A create payload used as an update: its required fields are all
      present, its optional ones only when given. */
  function AsPatch(d: Receipt): ReceiptPatch {
    ReceiptPatch(
      Some(d.loyverse_id), Some(d.store_id), Some(d.number), Some(d.status), Some(d.created_at),
      d.closed_at, d.employee_id, d.employee_name, d.customer_id, d.customer_name,
      Some(d.subtotal), Some(d.discount_total), Some(d.tax_total), Some(d.total),
      Some(d.payments), Some(d.line_items), d.shift_id, Some(d.meta))
  }

  /** The empty patch changes nothing, and applying a patch twice is
      applying it once. */
  lemma PatchLaws(r: Receipt, p: ReceiptPatch)
    ensures Patched(r, NoChange) == r
    ensures Patched(Patched(r, p), p) == Patched(r, p)
  {
  }

  /** Updating with a create payload yields exactly that payload if and
      only if every optional field it leaves out is already absent from the
      stored receipt (absent fields are kept, not cleared). */
  lemma UpsertOverwrites(r: Receipt, d: Receipt)
    ensures Patched(r, AsPatch(d)) == d <==>
      && (d.closed_at.None? ==> r.closed_at.None?)
      && (d.employee_id.None? ==> r.employee_id.None?)
      && (d.employee_name.None? ==> r.employee_name.None?)
      && (d.customer_id.None? ==> r.customer_id.None?)
      && (d.customer_name.None? ==> r.customer_name.None?)
      && (d.shift_id.None? ==> r.shift_id.None?)
  {
  }

  /** The query-string filters and paging of the listing endpoint. */
  datatype ReceiptQuery = ReceiptQuery(
    store_id: Option<string>,
    employee_id: Option<string>,
    start_date: Option<Timestamp>,
    end_date: Option<Timestamp>,
    status: Option<string>,
    limit: Option<int>,
    page: Option<int>)

  /** What the query validation admits: 1 <= limit <= 100 and page >= 1. */
  predicate ValidQuery(q: ReceiptQuery) {
    && (q.limit.Some? ==> 1 <= q.limit.value <= 100)
    && (q.page.Some? ==> q.page.value >= 1)
  }

  /** The filter built from the query: only truthy criteria are applied, and
      a date bound also excludes receipts without `closed_at`. */
  predicate Matches(q: ReceiptQuery, r: Receipt) {
    && (Truthy(q.store_id) ==> r.store_id == q.store_id.value)
    && (Truthy(q.employee_id) ==> r.employee_id == q.employee_id)
    && (Truthy(q.status) ==> r.status == q.status.value)
    && (q.start_date.Some? ==> r.closed_at.Some? && r.closed_at.value >= q.start_date.value)
    && (q.end_date.Some? ==> r.closed_at.Some? && r.closed_at.value <= q.end_date.value)
  }

  /** `find(filter)` over the collection. */
  function Selected(docs: seq<Doc<Receipt>>, q: ReceiptQuery): (r: seq<Doc<Receipt>>)
    ensures forall i :: 0 <= i < |r| ==> r[i] in docs && Matches(q, r[i].data)
    ensures forall i :: 0 <= i < |docs| && Matches(q, docs[i].data) ==> docs[i] in r
    ensures multiset(r) <= multiset(docs)
  {
    Where(docs, (d: Doc<Receipt>) => Matches(q, d.data))
  }

  function ClosedAt(d: Doc<Receipt>): Option<int> { d.data.closed_at }

  /** The values the receipt schema's `status` enum admits. */
  const Statuses: set<string> := {"closed", "refunded", "void"}

  /** Schema validation of a new receipt: the first path, in schema order,
      that `required` (an empty string counts as missing) or the `status`
      enum refuses, if any. */
  function InvalidPath(r: Receipt): (p: Option<string>)
    ensures p.None? <==>
      && r.loyverse_id != "" && r.store_id != "" && r.number != ""
      && r.status in Statuses && r.closed_at.Some?
    ensures p == Some("status") <==>
      r.loyverse_id != "" && r.store_id != "" && r.number != "" && r.status !in Statuses
    ensures p == Some("closed_at") <==>
      r.loyverse_id != "" && r.store_id != "" && r.number != "" && r.status in Statuses && r.closed_at.None?
  {
    if r.loyverse_id == "" then Some("loyverse_id")
    else if r.store_id == "" then Some("store_id")
    else if r.number == "" then Some("number")
    else if r.status !in Statuses then Some("status")
    else if r.closed_at.None? then Some("closed_at")
    else None
  }

  class ReceiptsService {
    var docs: seq<Doc<Receipt>>
    var nextId: DocId

    ghost predicate Valid()
      reads this
    {
      WellFormed(docs, nextId, ReceiptKey)
    }

    constructor()
      ensures Valid() && docs == []
    {
      docs := [];
      nextId := 0;
    }

    /** `new Model(data).save()`: schema validation, then the unique index. */
    method Save(d: Receipt) returns (res: Result<Doc<Receipt>, Error>)
      requires Valid()
      modifies this
      ensures Valid()
      ensures InvalidPath(d).Some? ==>
        res == Err(ValidationFailed(InvalidPath(d).value)) && docs == old(docs) && nextId == old(nextId)
      ensures InvalidPath(d).None? && Clashes(old(docs), ReceiptKey, d, None) ==>
        res == Err(DuplicateKey(d.loyverse_id)) && docs == old(docs) && nextId == old(nextId)
      ensures InvalidPath(d).None? && !Clashes(old(docs), ReceiptKey, d, None) ==>
        && res == Ok(Doc(old(nextId), d))
        && docs == old(docs) + [res.value]
        && nextId == old(nextId) + 1
    {
      var invalid := InvalidPath(d);
      if invalid.Some? {
        return Err(ValidationFailed(invalid.value));
      }
      if Clashes(docs, ReceiptKey, d, None) {
        return Err(DuplicateKey(d.loyverse_id));
      }
      InsertWellFormed(docs, nextId, ReceiptKey, d);
      res := Ok(Doc(nextId, d));
      docs := docs + [res.value];
      nextId := nextId + 1;
    }

    method Create(dto: Receipt) returns (res: Result<Doc<Receipt>, Error>)
      requires Valid()
      modifies this
      ensures Valid()
      ensures InvalidPath(dto).Some? ==>
        res == Err(ValidationFailed(InvalidPath(dto).value)) && docs == old(docs) && nextId == old(nextId)
      ensures InvalidPath(dto).None? && Clashes(old(docs), ReceiptKey, dto, None) ==>
        res == Err(DuplicateKey(dto.loyverse_id)) && docs == old(docs) && nextId == old(nextId)
      ensures InvalidPath(dto).None? && !Clashes(old(docs), ReceiptKey, dto, None) ==>
        && res == Ok(Doc(old(nextId), dto))
        && docs == old(docs) + [res.value]
        && nextId == old(nextId) + 1
    {
      res := Save(dto);
    }

    /** One page of the matching receipts, latest `closed_at` first (those
        without one last), and the number of matching receipts. */
    method FindAll(q: ReceiptQuery) returns (data: seq<Doc<Receipt>>, total: nat)
      requires ValidQuery(q)
      ensures var matching := Selected(docs, q);
              var limit := q.limit.GetOr(10);
              && total == |matching|
              && data == Paginate(SortDesc(matching, ClosedAt), Skip(q.page.GetOr(1), limit), limit)
      ensures |data| <= q.limit.GetOr(10)
      ensures forall i :: 0 <= i < |data| ==> data[i] in docs && Matches(q, data[i].data)
      ensures SortedDesc(data, ClosedAt)
    {
      var limit: nat := q.limit.GetOr(10);
      var page := q.page.GetOr(1);
      var skip: nat := Skip(page, limit);
      var matching := Selected(docs, q);
      var sorted := SortDesc(matching, ClosedAt);
      data := Paginate(sorted, skip, limit);
      total := |matching|;
      PageOfSorted(sorted, ClosedAt, skip, limit);
      forall i | 0 <= i < |data| ensures data[i] in docs && Matches(q, data[i].data) {
        assert data[i] in multiset(sorted);
        assert data[i] in multiset(matching);
      }
    }

    method FindOne(id: DocId) returns (res: Result<Doc<Receipt>, Error>)
      ensures res.Ok? <==> exists i :: 0 <= i < |docs| && docs[i].id == id
      ensures res.Ok? ==> res.value in docs && res.value.id == id
      ensures res.Err? ==> res.error == IdNotFound(id)
    {
      var i := IndexOfId(docs, id);
      if i.None? {
        return Err(IdNotFound(id));
      }
      return Ok(docs[i.value]);
    }

    method FindByLoyverseId(loyverseId: string) returns (res: Result<Doc<Receipt>, Error>)
      ensures res.Ok? <==> exists i :: 0 <= i < |docs| && docs[i].data.loyverse_id == loyverseId
      ensures res.Ok? ==> res.value in docs && res.value.data.loyverse_id == loyverseId
      ensures res.Err? ==> res.error == KeyNotFound(loyverseId)
    {
      var i := IndexOfKey(docs, ReceiptKey, loyverseId);
      if i.None? {
        return Err(KeyNotFound(loyverseId));
      }
      return Ok(docs[i.value]);
    }

    /** `findByIdAndUpdate(id, patch, { new: true })`. */
    method Update(id: DocId, patch: ReceiptPatch) returns (res: Result<Doc<Receipt>, Error>)
      requires Valid()
      modifies this
      ensures Valid()
      ensures nextId == old(nextId)
      ensures IndexOfId(old(docs), id).None? ==> res == Err(IdNotFound(id)) && docs == old(docs)
      ensures IndexOfId(old(docs), id).Some? ==>
        var i := IndexOfId(old(docs), id).value;
        var d := Patched(old(docs)[i].data, patch);
        if Clashes(old(docs), ReceiptKey, d, Some(i)) then
          res == Err(DuplicateKey(d.loyverse_id)) && docs == old(docs)
        else
          res == Ok(Doc(id, d)) && docs == old(docs)[i := res.value]
    {
      var i := IndexOfId(docs, id);
      if i.None? {
        return Err(IdNotFound(id));
      }
      var d := Patched(docs[i.value].data, patch);
      if Clashes(docs, ReceiptKey, d, i) {
        return Err(DuplicateKey(d.loyverse_id));
      }
      PutWellFormed(docs, nextId, ReceiptKey, i.value, d);
      res := Ok(Doc(id, d));
      docs := docs[i.value := res.value];
    }

    /** Updates the receipt holding `loyverseId` with the payload, or saves
        the payload as a new receipt when none holds it. */
    method UpsertByLoyverseId(loyverseId: string, dto: Receipt) returns (res: Result<Doc<Receipt>, Error>)
      requires Valid()
      modifies this
      ensures Valid()
      ensures IndexOfKey(old(docs), ReceiptKey, loyverseId).Some? ==>
        var i := IndexOfKey(old(docs), ReceiptKey, loyverseId).value;
        var d := Patched(old(docs)[i].data, AsPatch(dto));
        && nextId == old(nextId)
        && if Clashes(old(docs), ReceiptKey, d, Some(i)) then
             res == Err(DuplicateKey(dto.loyverse_id)) && docs == old(docs)
           else
             res == Ok(Doc(old(docs)[i].id, d)) && docs == old(docs)[i := res.value]
      ensures IndexOfKey(old(docs), ReceiptKey, loyverseId).None? ==>
        if InvalidPath(dto).Some? then
          res == Err(ValidationFailed(InvalidPath(dto).value)) && docs == old(docs) && nextId == old(nextId)
        else if Clashes(old(docs), ReceiptKey, dto, None) then
          res == Err(DuplicateKey(dto.loyverse_id)) && docs == old(docs) && nextId == old(nextId)
        else
          res == Ok(Doc(old(nextId), dto)) && docs == old(docs) + [res.value] && nextId == old(nextId) + 1
      // The unique index: the receipt written is the only one with its Loyverse id.
      ensures res.Ok? ==> res.value in docs && CountKey(docs, ReceiptKey, res.value.data.loyverse_id) == 1
    {
      var i := IndexOfKey(docs, ReceiptKey, loyverseId);
      if i.Some? {
        var d := Patched(docs[i.value].data, AsPatch(dto));
        if Clashes(docs, ReceiptKey, d, i) {
          return Err(DuplicateKey(dto.loyverse_id));
        }
        PutWellFormed(docs, nextId, ReceiptKey, i.value, d);
        res := Ok(Doc(docs[i.value].id, d));
        docs := docs[i.value := res.value];
        assert docs[i.value] == res.value;
      } else {
        res := Save(dto);
        if res.Ok? {
          assert docs[|docs| - 1] == res.value;
        }
      }
      if res.Ok? {
        var k := res.value.data.loyverse_id;
        UniqueKeyCount(docs, ReceiptKey, k);
      }
    }

    method Remove(id: DocId) returns (res: Result<Doc<Receipt>, Error>)
      requires Valid()
      modifies this
      ensures Valid()
      ensures nextId == old(nextId)
      ensures IndexOfId(old(docs), id).None? ==> res == Err(IdNotFound(id)) && docs == old(docs)
      ensures IndexOfId(old(docs), id).Some? ==>
        var i := IndexOfId(old(docs), id).value;
        res == Ok(old(docs)[i]) && docs == old(docs)[..i] + old(docs)[i + 1..]
      ensures forall i :: 0 <= i < |docs| ==> docs[i].id != id
    {
      var i := IndexOfId(docs, id);
      if i.None? {
        return Err(IdNotFound(id));
      }
      DeleteWellFormed(docs, nextId, ReceiptKey, i.value);
      res := Ok(docs[i.value]);
      docs := docs[..i.value] + docs[i.value + 1..];
    }
  }
}
