/**
 * Documents shared by the services: the receipt and shift schemas, the
 * `meta` envelope, and a stored document carrying its internal id.
 *
 * Money is in integer cents (the schemas use Decimal128) and timestamps are
 * integer milliseconds since the epoch.
 */
module Models {
  import opened Wrappers

  type Timestamp = int
  type Money = int
  /** The document store's internal `_id`. */
  type DocId = nat

  const MsPerDay: int := 86_400_000

  /** The UTC calendar day of a timestamp, the key `$dateToString` with
      format '%Y-%m-%d' produces; comparing day numbers orders days as the
      formatted strings do. */
  function Day(t: Timestamp): int { t / MsPerDay }

  /** JavaScript truthiness of an optional string: absent and '' are falsy. */
  predicate Truthy(s: Option<string>) { s.Some? && s.value != "" }

  /** `x || d` for an optional string. */
  function OrDefault(s: Option<string>, d: string): (r: string)
    ensures Truthy(s) ==> r == s.value
    ensures !Truthy(s) ==> r == d
  {
    if Truthy(s) then s.value else d
  }

  datatype Meta = Meta(
    source: string,
    synced_at: Timestamp,
    last_modified_at: Option<Timestamp>,
    schema_version: int)

  datatype Payment = Payment(payment_method: string, amount: Money)

  datatype LineItem = LineItem(
    item_loyverse_id: string, name: string, category: string, quantity: int,
    price: Money, discount: Money, tax: Money, total: Money)

  /** A receipt document. `closed_at` is absent on receipts whose upstream
      record had none (the batch sync stores null there). */
  datatype Receipt = Receipt(
    loyverse_id: string,
    store_id: string,
    number: string,
    status: string,
    created_at: Timestamp,
    closed_at: Option<Timestamp>,
    employee_id: Option<string>,
    employee_name: Option<string>,
    customer_id: Option<string>,
    customer_name: Option<string>,
    subtotal: Money,
    discount_total: Money,
    tax_total: Money,
    total: Money,
    payments: seq<Payment>,
    line_items: seq<LineItem>,
    shift_id: Option<string>,
    meta: Meta)

  /** A shift document as the shift schema declares it. */
  datatype Shift = Shift(
    loyverse_id: Option<string>,
    store_id: string,
    opened_at: Timestamp,
    closed_at: Timestamp,
    opening_cash: Money,
    cash_sales: Option<Money>,
    card_sales: Option<Money>,
    other_sales: Option<Money>,
    expected_cash: Option<Money>,
    counted_cash: Money,
    cash_difference: Option<Money>,
    pay_in_total: Option<Money>,
    pay_out_total: Option<Money>,
    notes: Option<string>,
    meta: Meta)

  /** A stored document: its internal id and its data. */
  datatype Doc<T> = Doc(id: DocId, data: T)

  /** The errors the services raise. */
  datatype Error =
    | IdNotFound(id: DocId)
    | KeyNotFound(loyverse_id: string)
    | DuplicateKey(key: string)
    /** A required schema path is missing when a new document is saved. */
    | ValidationFailed(path: string)

  /** Position of the document with internal id `id`, if any. */
  function IndexOfId<T>(docs: seq<Doc<T>>, id: DocId): (r: Option<nat>)
    ensures r.Some? ==> r.value < |docs| && docs[r.value].id == id
    ensures r.None? <==> forall i :: 0 <= i < |docs| ==> docs[i].id != id
  {
    if docs == [] then None
    else if docs[0].id == id then Some(0)
    else
      var r := IndexOfId(docs[1..], id);
      if r.Some? then Some(r.value + 1) else None
  }

  /** Position of the first document whose key is `k`, if any. */
  function IndexOfKey<T>(docs: seq<Doc<T>>, key: T -> Option<string>, k: string): (r: Option<nat>)
    ensures r.Some? ==> r.value < |docs| && key(docs[r.value].data) == Some(k)
    ensures r.None? <==> forall i :: 0 <= i < |docs| ==> key(docs[i].data) != Some(k)
  {
    if docs == [] then None
    else if key(docs[0].data) == Some(k) then Some(0)
    else
      var r := IndexOfKey(docs[1..], key, k);
      if r.Some? then Some(r.value + 1) else None
  }

  /** Number of documents whose key is `k`. */
  function CountKey<T>(docs: seq<Doc<T>>, key: T -> Option<string>, k: string): nat
  {
    if docs == [] then 0
    else (if key(docs[0].data) == Some(k) then 1 else 0) + CountKey(docs[1..], key, k)
  }

  /** Internal ids are distinct and below the next id to hand out. */
  ghost predicate IdsValid<T>(docs: seq<Doc<T>>, nextId: DocId)
  {
    && (forall i :: 0 <= i < |docs| ==> docs[i].id < nextId)
    && (forall i, j :: 0 <= i < j < |docs| ==> docs[i].id != docs[j].id)
  }

  /** The unique (sparse) index on a key: no two documents share a present key. */
  ghost predicate KeysUnique<T>(docs: seq<Doc<T>>, key: T -> Option<string>)
  {
    forall i, j :: 0 <= i < j < |docs| && key(docs[i].data).Some? ==> key(docs[i].data) != key(docs[j].data)
  }

  /** Under a unique index, a key that is present is held by exactly one document. */
  lemma {:induction false} UniqueKeyCount<T>(docs: seq<Doc<T>>, key: T -> Option<string>, k: string)
    requires KeysUnique(docs, key)
    ensures CountKey(docs, key, k) == if IndexOfKey(docs, key, k).Some? then 1 else 0
  {
    if docs != [] {
      assert KeysUnique(docs[1..], key) by {
        forall i, j | 0 <= i < j < |docs[1..]| && key(docs[1..][i].data).Some?
          ensures key(docs[1..][i].data) != key(docs[1..][j].data)
        {
          assert docs[1..][i] == docs[i + 1] && docs[1..][j] == docs[j + 1];
        }
      }
      UniqueKeyCount(docs[1..], key, k);
      if key(docs[0].data) == Some(k) {
        forall i | 0 <= i < |docs[1..]| ensures key(docs[1..][i].data) != Some(k) {
          assert docs[1..][i] == docs[i + 1];
        }
      }
    }
  }
}
