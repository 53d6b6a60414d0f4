/**
 * The Loyverse records as the upstream API sends them, the documents the
 * ingestion pipeline writes, and the field-by-field transforms between
 * them (renames, defaults, fallbacks), for the webhook handlers and for the
 * batch syncs.
 *
 * An upstream member that may be missing is an `Option`; `x || d` on it is
 * `GetOr` (arrays and timestamps are truthy whenever present) or, for
 * strings, `OrDefault` (the empty string is falsy too).
 */
module LoyverseTransforms {
  import opened Wrappers
  import opened Models

  /** The TypeError `.map` on a missing array raises. */
  const ReadMapOfUndefined: string := "Cannot read properties of undefined (reading 'map')"
  /** The store's refusal of an Invalid Date on `closed_at`. */
  const InvalidClosedAt: string := "Cast to date failed for value \"Invalid Date\" at path \"closed_at\""

  /** The `meta` envelope of every Loyverse write. */
  function LoyverseMeta(now: Timestamp, lastModified: Timestamp): Meta {
    Meta("loyverse", now, Some(lastModified), 1)
  }

  // ---------------------------------------------------------------- receipts

  datatype RawPayment = RawPayment(payment_type: string, amount: Money)

  datatype RawLineItem = RawLineItem(
    item_id: string, item_name: string, category_name: string, quantity: int,
    price: Money, discount: Money, tax: Money, total: Money)

  datatype RawReceipt = RawReceipt(
    id: string,
    store_id: string,
    receipt_number: string,
    receipt_status: string,
    created_at: Timestamp,
    closed_at: Option<Timestamp>,
    updated_at: Option<Timestamp>,
    employee_id: Option<string>,
    employee_name: Option<string>,
    customer_id: Option<string>,
    customer_name: Option<string>,
    subtotal: Money,
    total_discounts: Money,
    total_taxes: Money,
    total: Money,
    payments: Option<seq<RawPayment>>,
    line_items: Option<seq<RawLineItem>>,
    shift_id: Option<string>)

  /** Payments keep their order; `type` becomes `method`. */
  function PaymentsOf(ps: seq<RawPayment>): (r: seq<Payment>)
    ensures |r| == |ps|
    ensures forall i :: 0 <= i < |ps| ==> r[i].payment_method == ps[i].payment_type && r[i].amount == ps[i].amount
  {
    seq(|ps|, i requires 0 <= i < |ps| => Payment(ps[i].payment_type, ps[i].amount))
  }

  function LineItemOf(l: RawLineItem): LineItem {
    LineItem(l.item_id, l.item_name, l.category_name, l.quantity, l.price, l.discount, l.tax, l.total)
  }

  /** Line items keep their order, each renamed field by field. */
  function LineItemsOf(ls: seq<RawLineItem>): (r: seq<LineItem>)
    ensures |r| == |ls|
    ensures forall i :: 0 <= i < |ls| ==> r[i] == LineItemOf(ls[i])
  {
    seq(|ls|, i requires 0 <= i < |ls| => LineItemOf(ls[i]))
  }

  /** The receipt document both receipt transforms build, given the values
      on which they differ. */
  function ReceiptOf(raw: RawReceipt, payments: seq<RawPayment>, lines: seq<RawLineItem>,
                     lastModified: Timestamp, now: Timestamp): Receipt
  {
    Receipt(
      raw.id, raw.store_id, raw.receipt_number, raw.receipt_status, raw.created_at, raw.closed_at,
      raw.employee_id, raw.employee_name, raw.customer_id, raw.customer_name,
      raw.subtotal, raw.total_discounts, raw.total_taxes, raw.total,
      PaymentsOf(payments), LineItemsOf(lines), raw.shift_id,
      LoyverseMeta(now, lastModified))
  }

  /** The scalar fields both receipt transforms copy, with their renames:
      `receipt_number` to `number`, `receipt_status` to `status`, and the
      totals to `discount_total` and `tax_total`. */
  predicate CarriesScalars(raw: RawReceipt, r: Receipt) {
    && r.loyverse_id == raw.id && r.store_id == raw.store_id
    && r.number == raw.receipt_number && r.status == raw.receipt_status
    && r.created_at == raw.created_at && r.closed_at == raw.closed_at
    && r.employee_id == raw.employee_id && r.employee_name == raw.employee_name
    && r.customer_id == raw.customer_id && r.customer_name == raw.customer_name
    && r.subtotal == raw.subtotal && r.discount_total == raw.total_discounts
    && r.tax_total == raw.total_taxes && r.total == raw.total
    && r.shift_id == raw.shift_id
  }

  /** The webhook receipt transform and its write: a missing `payments`
      or `line_items` array throws (there is no `?.` on them), and a
      missing `closed_at` becomes an Invalid Date the store refuses.
      `last_modified_at` falls back to `closed_at`. */
  function ReceiptFromWebhook(raw: RawReceipt, now: Timestamp): (r: Result<Receipt, string>)
    ensures r.Ok? <==> raw.payments.Some? && raw.line_items.Some? && raw.closed_at.Some?
    ensures raw.payments.None? || raw.line_items.None? ==> r == Err(ReadMapOfUndefined)
    ensures raw.payments.Some? && raw.line_items.Some? && raw.closed_at.None? ==> r == Err(InvalidClosedAt)
    ensures r.Ok? ==>
      && CarriesScalars(raw, r.value)
      && r.value.payments == PaymentsOf(raw.payments.value)
      && r.value.line_items == LineItemsOf(raw.line_items.value)
      && r.value.meta.source == "loyverse" && r.value.meta.synced_at == now
      && r.value.meta.last_modified_at == Some(if raw.updated_at.Some? then raw.updated_at.value else raw.closed_at.value)
  {
    if raw.payments.None? || raw.line_items.None? then Err(ReadMapOfUndefined)
    else if raw.closed_at.None? then Err(InvalidClosedAt)
    else Ok(ReceiptOf(raw, raw.payments.value, raw.line_items.value, raw.updated_at.GetOr(raw.closed_at.value), now))
  }

  /** The batch receipt transform: it never fails; a missing `closed_at`
      is stored as null, missing arrays as empty, and `last_modified_at`
      falls back to `created_at`. */
  function ReceiptFromBatch(raw: RawReceipt, now: Timestamp): (r: Receipt)
    ensures CarriesScalars(raw, r)
    ensures r.payments == PaymentsOf(if raw.payments.Some? then raw.payments.value else [])
    ensures r.line_items == LineItemsOf(if raw.line_items.Some? then raw.line_items.value else [])
    ensures r.meta.source == "loyverse" && r.meta.synced_at == now
    ensures r.meta.last_modified_at == Some(if raw.updated_at.Some? then raw.updated_at.value else raw.created_at)
  {
    ReceiptOf(raw, raw.payments.GetOr([]), raw.line_items.GetOr([]), raw.updated_at.GetOr(raw.created_at), now)
  }

  /** Where the webhook transform succeeds the two transforms write the
      same receipt, except that without `updated_at` the webhook dates the
      modification at `closed_at` and the batch at `created_at`. */
  lemma ReceiptTransformsAgree(raw: RawReceipt, now: Timestamp)
    requires ReceiptFromWebhook(raw, now).Ok?
    ensures raw.updated_at.Some? ==> ReceiptFromWebhook(raw, now).value == ReceiptFromBatch(raw, now)
    ensures raw.updated_at.None? ==>
      ReceiptFromWebhook(raw, now).value ==
      ReceiptFromBatch(raw, now).(meta := LoyverseMeta(now, raw.closed_at.value))
  {
  }

  // ------------------------------------------------------------------ shifts

  datatype RawShift = RawShift(
    id: string,
    store_id: string,
    opened_at: Timestamp,
    closed_at: Option<Timestamp>,
    updated_at: Option<Timestamp>,
    opening_note: Option<string>,
    closing_note: Option<string>,
    opening_employee_id: Option<string>,
    closing_employee_id: Option<string>,
    opening_amount: Money,
    closing_amount: Option<Money>,
    expected_amount: Option<Money>,
    difference: Option<Money>)

  datatype ShiftStatus = Open | Closed

  /** The shift document the Loyverse handlers write. */
  datatype ShiftRecord = ShiftRecord(
    loyverse_id: string,
    store_id: string,
    opened_at: Timestamp,
    closed_at: Option<Timestamp>,
    opening_note: Option<string>,
    closing_note: Option<string>,
    opening_employee_id: Option<string>,
    closing_employee_id: Option<string>,
    opening_cash: Money,
    closing_cash: Option<Money>,
    expected_cash: Option<Money>,
    difference: Option<Money>,
    status: ShiftStatus,
    meta: Meta)

  /** The shift transform, shared by the webhook and the batch sync: the
      shift is closed exactly when it has a closing time, amounts are
      renamed, and `last_modified_at` falls back to `opened_at`. */
  function ShiftFromRaw(raw: RawShift, now: Timestamp): (r: ShiftRecord)
    ensures r.loyverse_id == raw.id && r.closed_at == raw.closed_at
    ensures r.status == Closed <==> raw.closed_at.Some?
    ensures r.opening_cash == raw.opening_amount && r.closing_cash == raw.closing_amount
    ensures r.expected_cash == raw.expected_amount && r.difference == raw.difference
    ensures r.meta.last_modified_at == Some(if raw.updated_at.Some? then raw.updated_at.value else raw.opened_at)
  {
    ShiftRecord(
      raw.id, raw.store_id, raw.opened_at, raw.closed_at,
      raw.opening_note, raw.closing_note, raw.opening_employee_id, raw.closing_employee_id,
      raw.opening_amount, raw.closing_amount, raw.expected_amount, raw.difference,
      if raw.closed_at.Some? then Closed else Open,
      LoyverseMeta(now, raw.updated_at.GetOr(raw.opened_at)))
  }

  // --------------------------------------------------------------- inventory

  datatype RawInventory = RawInventory(
    id: string,
    store_id: string,
    item_id: string,
    movement_type: Option<string>,
    quantity: int,
    cost: Money,
    created_at: Timestamp,
    updated_at: Option<Timestamp>,
    notes: Option<string>)

  datatype InventoryMovement = InventoryMovement(
    loyverse_id: string,
    store_id: string,
    item_id: string,
    movement_type: string,
    quantity: int,
    cost: Money,
    created_at: Timestamp,
    notes: string,
    meta: Meta)

  /** The inventory transform: a missing or empty type is an adjustment,
      missing notes are empty, and `last_modified_at` falls back to
      `created_at`. */
  function InventoryFromRaw(raw: RawInventory, now: Timestamp): (r: InventoryMovement)
    ensures r.loyverse_id == raw.id
    ensures r.movement_type == (if Truthy(raw.movement_type) then raw.movement_type.value else "adjustment")
    ensures r.notes == (if Truthy(raw.notes) then raw.notes.value else "")
    ensures r.meta.last_modified_at == Some(if raw.updated_at.Some? then raw.updated_at.value else raw.created_at)
  {
    InventoryMovement(
      raw.id, raw.store_id, raw.item_id, OrDefault(raw.movement_type, "adjustment"),
      raw.quantity, raw.cost, raw.created_at, OrDefault(raw.notes, ""),
      LoyverseMeta(now, raw.updated_at.GetOr(raw.created_at)))
  }

  // ------------------------------------------------------------------- items

  /** An item as an item webhook carries it. */
  datatype RawItem = RawItem(
    id: string,
    name: string,
    reference_id: Option<string>,
    category_id: Option<string>,
    price: Money,
    cost: Money,
    stock_quantity: int,
    option_groups: Option<seq<string>>,
    variants: Option<seq<string>>,
    taxes: Option<seq<string>>,
    modifiers: Option<seq<string>>,
    created_at: Timestamp,
    updated_at: Option<Timestamp>)

  /** An item as the catalog listing carries it. */
  datatype RawCatalogItem = RawCatalogItem(
    id: string,
    item_name: string,
    sku: Option<string>,
    reference_id: Option<string>,
    category_name: Option<string>,
    default_price: Money,
    cost: Money,
    barcode: Option<string>,
    track_stock: bool,
    sold_by_weight: bool)

  /** The item document: the webhook and the catalog sync write different
      field sets. */
  datatype Item =
    | EventItem(
        loyverse_id: string, name: string, reference_id: Option<string>, category_id: Option<string>,
        price: Money, cost: Money, stock_quantity: int,
        option_groups: seq<string>, variants: seq<string>, taxes: seq<string>, modifiers: seq<string>,
        created_at: Timestamp, meta: Meta)
    | CatalogItem(
        loyverse_id: string, name: string, sku: Option<string>, reference_id: Option<string>,
        category: Option<string>, price: Money, cost: Money, barcode: Option<string>,
        track_stock: bool, sold_by_weight: bool, meta: Meta)

  /** The item webhook transform: missing arrays become empty, and
      `last_modified_at` falls back to `created_at`. */
  function ItemFromRaw(raw: RawItem, now: Timestamp): (r: Item)
    ensures r.EventItem? && r.loyverse_id == raw.id && r.name == raw.name
    ensures r.reference_id == raw.reference_id && r.category_id == raw.category_id
    ensures r.price == raw.price && r.cost == raw.cost && r.stock_quantity == raw.stock_quantity
    ensures r.option_groups == (if raw.option_groups.Some? then raw.option_groups.value else [])
    ensures r.variants == (if raw.variants.Some? then raw.variants.value else [])
    ensures r.taxes == (if raw.taxes.Some? then raw.taxes.value else [])
    ensures r.modifiers == (if raw.modifiers.Some? then raw.modifiers.value else [])
    ensures r.created_at == raw.created_at
    ensures r.meta.source == "loyverse" && r.meta.synced_at == now
    ensures r.meta.last_modified_at == Some(if raw.updated_at.Some? then raw.updated_at.value else raw.created_at)
  {
    EventItem(
      raw.id, raw.name, raw.reference_id, raw.category_id, raw.price, raw.cost, raw.stock_quantity,
      raw.option_groups.GetOr([]), raw.variants.GetOr([]), raw.taxes.GetOr([]), raw.modifiers.GetOr([]),
      raw.created_at, LoyverseMeta(now, raw.updated_at.GetOr(raw.created_at)))
  }

  /** The catalog sync transform: names are mapped, and the write is dated
      at the sync itself. */
  function ItemFromCatalog(raw: RawCatalogItem, now: Timestamp): (r: Item)
    ensures r.CatalogItem? && r.loyverse_id == raw.id && r.name == raw.item_name
    ensures r.category == raw.category_name && r.price == raw.default_price
    ensures r.meta.synced_at == now && r.meta.last_modified_at == Some(now)
  {
    CatalogItem(
      raw.id, raw.item_name, raw.sku, raw.reference_id, raw.category_name, raw.default_price, raw.cost,
      raw.barcode, raw.track_stock, raw.sold_by_weight, LoyverseMeta(now, now))
  }

  // --------------------------------------------------------------- employees

  datatype RawStoreRef = RawStoreRef(store_id: string)

  datatype RawEmployee = RawEmployee(
    id: string,
    name: string,
    email: Option<string>,
    pin_code: Option<string>,
    role: Option<string>,
    stores: Option<seq<RawStoreRef>>,
    created_at: Timestamp,
    updated_at: Option<Timestamp>)

  /** The employee document: the webhook keeps the store objects, the sync
      keeps their ids. */
  datatype Employee =
    | EventEmployee(
        loyverse_id: string, name: string, email: Option<string>, pin_code: Option<string>,
        role: Option<string>, stores: seq<RawStoreRef>, created_at: Timestamp, meta: Meta)
    | SyncedEmployee(
        loyverse_id: string, name: string, email: Option<string>, pin_code: Option<string>,
        role: Option<string>, store_ids: seq<string>, meta: Meta)

  /** The employee webhook transform: missing stores become empty, and
      `last_modified_at` falls back to `created_at`. */
  function EmployeeFromRaw(raw: RawEmployee, now: Timestamp): (r: Employee)
    ensures r.EventEmployee? && r.loyverse_id == raw.id
    ensures r.stores == (if raw.stores.Some? then raw.stores.value else [])
    ensures r.meta.last_modified_at == Some(if raw.updated_at.Some? then raw.updated_at.value else raw.created_at)
  {
    EventEmployee(
      raw.id, raw.name, raw.email, raw.pin_code, raw.role, raw.stores.GetOr([]), raw.created_at,
      LoyverseMeta(now, raw.updated_at.GetOr(raw.created_at)))
  }

  /** The employee sync transform: it reads the store ids with no guard, so
      an employee without `stores` throws. */
  function EmployeeFromSync(raw: RawEmployee, now: Timestamp): (r: Result<Employee, string>)
    ensures r.Err? <==> raw.stores.None?
    ensures r.Err? ==> r.error == ReadMapOfUndefined
    ensures r.Ok? ==>
      && r.value.SyncedEmployee? && r.value.loyverse_id == raw.id
      && |r.value.store_ids| == |raw.stores.value|
      && forall i :: 0 <= i < |raw.stores.value| ==> r.value.store_ids[i] == raw.stores.value[i].store_id
  {
    match raw.stores
    case None => Err(ReadMapOfUndefined)
    case Some(ss) =>
      Ok(SyncedEmployee(
        raw.id, raw.name, raw.email, raw.pin_code, raw.role,
        seq(|ss|, i requires 0 <= i < |ss| => ss[i].store_id),
        LoyverseMeta(now, now)))
  }

  // ------------------------------------------------------------------ stores

  datatype RawAddress = RawAddress(
    address_line_1: Option<string>, address_line_2: Option<string>, city: Option<string>,
    state: Option<string>, postal_code: Option<string>, country: Option<string>)

  datatype RawStore = RawStore(id: string, name: string, address: Option<RawAddress>)

  datatype Address = Address(
    address_line_1: string, address_line_2: string, city: string,
    state: string, postal_code: string, country: string)

  datatype Store = Store(loyverse_id: string, name: string, address: Address, meta: Meta)

  /** `address?.f || ''` for one address field. */
  function Field(a: Option<RawAddress>, f: RawAddress -> Option<string>): string {
    if a.Some? then OrDefault(f(a.value), "") else ""
  }

  function AddressLine1(a: RawAddress): Option<string> { a.address_line_1 }
  function AddressLine2(a: RawAddress): Option<string> { a.address_line_2 }
  function City(a: RawAddress): Option<string> { a.city }
  function Region(a: RawAddress): Option<string> { a.state }
  function PostalCode(a: RawAddress): Option<string> { a.postal_code }
  function Country(a: RawAddress): Option<string> { a.country }

  /** The store sync transform: a store without an address, or an address
      field that is missing or empty, gets the empty string. */
  function StoreFromRaw(raw: RawStore, now: Timestamp): (r: Store)
    ensures r.loyverse_id == raw.id && r.name == raw.name
    ensures raw.address.None? ==> r.address == Address("", "", "", "", "", "")
    ensures raw.address.Some? ==>
      && r.address.address_line_1 == (if Truthy(raw.address.value.address_line_1) then raw.address.value.address_line_1.value else "")
      && r.address.address_line_2 == (if Truthy(raw.address.value.address_line_2) then raw.address.value.address_line_2.value else "")
      && r.address.city == (if Truthy(raw.address.value.city) then raw.address.value.city.value else "")
      && r.address.state == (if Truthy(raw.address.value.state) then raw.address.value.state.value else "")
      && r.address.postal_code == (if Truthy(raw.address.value.postal_code) then raw.address.value.postal_code.value else "")
      && r.address.country == (if Truthy(raw.address.value.country) then raw.address.value.country.value else "")
    ensures r.meta.last_modified_at == Some(now)
  {
    var a := raw.address;
    Store(
      raw.id, raw.name,
      Address(Field(a, AddressLine1), Field(a, AddressLine2), Field(a, City),
              Field(a, Region), Field(a, PostalCode), Field(a, Country)),
      LoyverseMeta(now, now))
  }
}
