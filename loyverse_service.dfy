/**
 * The Loyverse ingestion service: webhook events recorded per event id and
 * dispatched by type to handlers that upsert one document, and the pull
 * syncs that walk the upstream listings and upsert what they fetch.
 *
 * Each collection is a map from `loyverse_id` (the events: `event_id`) to
 * its document. What the service cannot see is a parameter: the upstream's
 * answers, the clock (`now`), the configured secret, HMAC-SHA256, the JSON
 * serialisation of a payload, and which writes the store refuses.
 */
module Loyverse {
  import opened Wrappers
  import opened Models
  import opened LoyverseTransforms
  import opened LoyversePaging

  /** The collections whose writes the store may refuse. */
  datatype Kind = ReceiptKind | ShiftKind | InventoryKind | ItemKind | EmployeeKind | StoreKind

  /** The webhook `data`, in the shape its event type announces, or any
      other shape. */
  datatype EventData =
    | ReceiptData(receipt: RawReceipt)
    | ShiftData(shift: RawShift)
    | InventoryData(inventory: RawInventory)
    | ItemData(item: RawItem)
    | EmployeeData(employee: RawEmployee)
    | OtherData

  datatype Payload = Payload(id: string, event_type: string, data: EventData)

  /** The service's environment: the webhook secret if configured,
      HMAC-SHA256 as hex of (secret, body), the JSON text of a payload, and
      for each collection the error the store raises on a write of a key,
      if it refuses it. */
  datatype Env = Env(
    webhookSecret: Option<string>,
    hmacHex: (string, string) -> string,
    serialize: Payload -> string,
    faults: Kind -> string -> Option<string>)

  datatype EventStatus = Pending | Processed | Skipped | Failed

  /** A handler's result: `{processed: true, entity}` or `{processed: false, reason}`. */
  datatype Details = Handled(entity: string) | NotHandled(reason: string)

  datatype WebhookEvent = WebhookEvent(
    event_id: string,
    event_type: string,
    payload: Payload,
    status: EventStatus,
    processing_details: Option<Details>,
    processed_at: Option<Timestamp>,
    error: Option<string>,
    failed_at: Option<Timestamp>,
    meta: Meta)

  /** A successful reply: the idempotent one, or the handler's details. */
  datatype Reply = AlreadyProcessed | ProcessedOk(details: Option<Details>)

  /** Every collection the service writes. */
  datatype Tables = Tables(
    events: map<string, WebhookEvent>,
    receipts: map<string, Receipt>,
    shifts: map<string, ShiftRecord>,
    inventory: map<string, InventoryMovement>,
    items: map<string, Item>,
    employees: map<string, Employee>,
    stores: map<string, Store>)

  /** The body of a sync request: a date range and an optional store. */
  datatype SyncRange = SyncRange(storeId: Option<string>, startDate: Timestamp, endDate: Timestamp)

  const InvalidSignature: string := "Invalid webhook signature"
  const UnhandledType: string := "Unhandled event type"
  /** What a handler given data of another shape fails with. */
  const DataMismatch: string := "Cannot read properties of undefined"
  const ReceiptBatchSize: nat := 100
  const ShiftBatchSize: nat := 50

  function ReceiptId(r: Receipt): string { r.loyverse_id }
  function ShiftId(s: ShiftRecord): string { s.loyverse_id }
  function InventoryId(m: InventoryMovement): string { m.loyverse_id }
  function ItemId(i: Item): string { i.loyverse_id }
  function EmployeeId(e: Employee): string { e.loyverse_id }
  function StoreId(s: Store): string { s.loyverse_id }

  function BatchReceipt(now: Timestamp): RawReceipt -> Receipt { raw => ReceiptFromBatch(raw, now) }
  function BatchShift(now: Timestamp): RawShift -> ShiftRecord { raw => ShiftFromRaw(raw, now) }
  function StoreEntry(now: Timestamp): RawStore -> Result<Store, string> { raw => Ok(StoreFromRaw(raw, now)) }
  function EmployeeEntry(now: Timestamp): RawEmployee -> Result<Employee, string> { raw => EmployeeFromSync(raw, now) }
  function CatalogEntry(now: Timestamp): RawCatalogItem -> Result<Item, string> { raw => Ok(ItemFromCatalog(raw, now)) }

  function ReceiptQuery(range: SyncRange): Query {
    RangeQuery("receipts", "created_at", range.startDate, range.endDate, range.storeId)
  }

  function ShiftQuery(range: SyncRange): Query {
    RangeQuery("shifts", "opened_at", range.startDate, range.endDate, range.storeId)
  }

  // ------------------------------------------------------------ event types

  predicate IsReceiptType(t: string) { t == "receipt.created" || t == "receipt.updated" }
  predicate IsShiftType(t: string) { t == "shift.created" || t == "shift.updated" }
  predicate IsInventoryType(t: string) { t == "inventory.updated" }
  predicate IsItemType(t: string) { t == "item.created" || t == "item.updated" }
  predicate IsEmployeeType(t: string) { t == "employee.created" || t == "employee.updated" }

  predicate KnownType(t: string) {
    IsReceiptType(t) || IsShiftType(t) || IsInventoryType(t) || IsItemType(t) || IsEmployeeType(t)
  }

  // --------------------------------------------------------------- handlers

  /** What a handler does: the new collections and its result or error. */
  type Handling = (Tables, Result<Option<Details>, string>)

  /** The receipt handler: no wrapping catch, and no result. */
  function ReceiptEvent(env: Env, t: Tables, data: EventData, now: Timestamp): (r: Handling)
    ensures r.1.Err? ==> r.0 == t
    ensures r.1.Err? <==>
      || !data.ReceiptData? || ReceiptFromWebhook(data.receipt, now).Err?
      || env.faults(ReceiptKind)(data.receipt.id).Some?
    ensures r.1.Err? ==>
      r.1.error ==
        if !data.ReceiptData? then DataMismatch
        else if ReceiptFromWebhook(data.receipt, now).Err? then ReceiptFromWebhook(data.receipt, now).error
        else env.faults(ReceiptKind)(data.receipt.id).value
    ensures r.1.Ok? ==>
      && r.1.value.None? && data.ReceiptData? && ReceiptFromWebhook(data.receipt, now).Ok?
      && r.0 == t.(receipts := Upsert(t.receipts, ReceiptFromWebhook(data.receipt, now).value, ReceiptId))
  {
    if !data.ReceiptData? then (t, Err(DataMismatch))
    else match ReceiptFromWebhook(data.receipt, now)
      case Err(e) => (t, Err(e))
      case Ok(r) =>
        match env.faults(ReceiptKind)(r.loyverse_id)
        case Some(e) => (t, Err(e))
        case None => (t.(receipts := Upsert(t.receipts, r, ReceiptId)), Ok(None))
  }

  function ShiftEvent(env: Env, t: Tables, data: EventData, now: Timestamp): (r: Handling)
    ensures r.1.Err? ==> r.0 == t
    ensures r.1.Err? <==> !data.ShiftData? || env.faults(ShiftKind)(data.shift.id).Some?
    ensures r.1.Err? ==>
      r.1.error == "Failed to process shift event: " +
        (if data.ShiftData? then env.faults(ShiftKind)(data.shift.id).value else DataMismatch)
    ensures r.1.Ok? ==>
      && r.1.value == Some(Handled("shift")) && data.ShiftData?
      && r.0 == t.(shifts := Upsert(t.shifts, ShiftFromRaw(data.shift, now), ShiftId))
  {
    var failed := "Failed to process shift event: ";
    if !data.ShiftData? then (t, Err(failed + DataMismatch))
    else
      var s := ShiftFromRaw(data.shift, now);
      match env.faults(ShiftKind)(s.loyverse_id)
      case Some(e) => (t, Err(failed + e))
      case None => (t.(shifts := Upsert(t.shifts, s, ShiftId)), Ok(Some(Handled("shift"))))
  }

  function InventoryEvent(env: Env, t: Tables, data: EventData, now: Timestamp): (r: Handling)
    ensures r.1.Err? ==> r.0 == t
    ensures r.1.Err? <==> !data.InventoryData? || env.faults(InventoryKind)(data.inventory.id).Some?
    ensures r.1.Err? ==>
      r.1.error == "Failed to process inventory event: " +
        (if data.InventoryData? then env.faults(InventoryKind)(data.inventory.id).value else DataMismatch)
    ensures r.1.Ok? ==>
      && r.1.value == Some(Handled("inventory_movement")) && data.InventoryData?
      && r.0 == t.(inventory := Upsert(t.inventory, InventoryFromRaw(data.inventory, now), InventoryId))
  {
    var failed := "Failed to process inventory event: ";
    if !data.InventoryData? then (t, Err(failed + DataMismatch))
    else
      var m := InventoryFromRaw(data.inventory, now);
      match env.faults(InventoryKind)(m.loyverse_id)
      case Some(e) => (t, Err(failed + e))
      case None => (t.(inventory := Upsert(t.inventory, m, InventoryId)), Ok(Some(Handled("inventory_movement"))))
  }

  function ItemEvent(env: Env, t: Tables, data: EventData, now: Timestamp): (r: Handling)
    ensures r.1.Err? ==> r.0 == t
    ensures r.1.Err? <==> !data.ItemData? || env.faults(ItemKind)(data.item.id).Some?
    ensures r.1.Err? ==>
      r.1.error == "Failed to process item event: " +
        (if data.ItemData? then env.faults(ItemKind)(data.item.id).value else DataMismatch)
    ensures r.1.Ok? ==>
      && r.1.value == Some(Handled("item")) && data.ItemData?
      && r.0 == t.(items := Upsert(t.items, ItemFromRaw(data.item, now), ItemId))
  {
    var failed := "Failed to process item event: ";
    if !data.ItemData? then (t, Err(failed + DataMismatch))
    else
      var i := ItemFromRaw(data.item, now);
      match env.faults(ItemKind)(i.loyverse_id)
      case Some(e) => (t, Err(failed + e))
      case None => (t.(items := Upsert(t.items, i, ItemId)), Ok(Some(Handled("item"))))
  }

  function EmployeeEvent(env: Env, t: Tables, data: EventData, now: Timestamp): (r: Handling)
    ensures r.1.Err? ==> r.0 == t
    ensures r.1.Err? <==> !data.EmployeeData? || env.faults(EmployeeKind)(data.employee.id).Some?
    ensures r.1.Err? ==>
      r.1.error == "Failed to process employee event: " +
        (if data.EmployeeData? then env.faults(EmployeeKind)(data.employee.id).value else DataMismatch)
    ensures r.1.Ok? ==>
      && r.1.value == Some(Handled("employee")) && data.EmployeeData?
      && r.0 == t.(employees := Upsert(t.employees, EmployeeFromRaw(data.employee, now), EmployeeId))
  {
    var failed := "Failed to process employee event: ";
    if !data.EmployeeData? then (t, Err(failed + DataMismatch))
    else
      var e := EmployeeFromRaw(data.employee, now);
      match env.faults(EmployeeKind)(e.loyverse_id)
      case Some(msg) => (t, Err(failed + msg))
      case None => (t.(employees := Upsert(t.employees, e, EmployeeId)), Ok(Some(Handled("employee"))))
  }

  /** The `switch` on the event type. A handler that fails writes nothing;
      one that succeeds upserts exactly its transformed document into its
      own collection; an unknown type is not handled, and does not throw. */
  function Dispatch(env: Env, t: Tables, p: Payload, now: Timestamp): (r: Handling)
    ensures r.0.events == t.events
    ensures r.1.Err? ==> r.0 == t
    ensures !KnownType(p.event_type) ==> r == (t, Ok(Some(NotHandled(UnhandledType))))
    ensures KnownType(p.event_type) && r.1.Ok? ==> r.1.value.None? || r.1.value.value.Handled?
    ensures IsReceiptType(p.event_type) && r.1.Ok? ==>
      && r.1.value.None? && p.data.ReceiptData? && ReceiptFromWebhook(p.data.receipt, now).Ok?
      && r.0 == t.(receipts := Upsert(t.receipts, ReceiptFromWebhook(p.data.receipt, now).value, ReceiptId))
    ensures IsShiftType(p.event_type) && r.1.Ok? ==>
      && r.1.value == Some(Handled("shift")) && p.data.ShiftData?
      && r.0 == t.(shifts := Upsert(t.shifts, ShiftFromRaw(p.data.shift, now), ShiftId))
    ensures IsInventoryType(p.event_type) && r.1.Ok? ==>
      && r.1.value == Some(Handled("inventory_movement")) && p.data.InventoryData?
      && r.0 == t.(inventory := Upsert(t.inventory, InventoryFromRaw(p.data.inventory, now), InventoryId))
    ensures IsItemType(p.event_type) && r.1.Ok? ==>
      && r.1.value == Some(Handled("item")) && p.data.ItemData?
      && r.0 == t.(items := Upsert(t.items, ItemFromRaw(p.data.item, now), ItemId))
    ensures IsEmployeeType(p.event_type) && r.1.Ok? ==>
      && r.1.value == Some(Handled("employee")) && p.data.EmployeeData?
      && r.0 == t.(employees := Upsert(t.employees, EmployeeFromRaw(p.data.employee, now), EmployeeId))
  {
    if IsReceiptType(p.event_type) then ReceiptEvent(env, t, p.data, now)
    else if IsShiftType(p.event_type) then ShiftEvent(env, t, p.data, now)
    else if IsInventoryType(p.event_type) then InventoryEvent(env, t, p.data, now)
    else if IsItemType(p.event_type) then ItemEvent(env, t, p.data, now)
    else if IsEmployeeType(p.event_type) then EmployeeEvent(env, t, p.data, now)
    else (t, Ok(Some(NotHandled(UnhandledType))))
  }

  /** Each known type fails exactly when its handler does: the payload is
      not of that type's shape, (for receipts) the transform throws, or the
      store refuses the write; the non-receipt handlers prefix their message. */
  lemma DispatchFailsAsItsHandler(env: Env, t: Tables, p: Payload, now: Timestamp, r: Handling)
    requires r == Dispatch(env, t, p, now)
    ensures IsReceiptType(p.event_type) ==>
      (r.1.Err? <==>
        || !p.data.ReceiptData? || ReceiptFromWebhook(p.data.receipt, now).Err?
        || env.faults(ReceiptKind)(p.data.receipt.id).Some?)
    ensures IsShiftType(p.event_type) ==>
      && (r.1.Err? <==> !p.data.ShiftData? || env.faults(ShiftKind)(p.data.shift.id).Some?)
      && (r.1.Err? ==> "Failed to process shift event: " <= r.1.error)
    ensures IsInventoryType(p.event_type) ==>
      && (r.1.Err? <==> !p.data.InventoryData? || env.faults(InventoryKind)(p.data.inventory.id).Some?)
      && (r.1.Err? ==> "Failed to process inventory event: " <= r.1.error)
    ensures IsItemType(p.event_type) ==>
      && (r.1.Err? <==> !p.data.ItemData? || env.faults(ItemKind)(p.data.item.id).Some?)
      && (r.1.Err? ==> "Failed to process item event: " <= r.1.error)
    ensures IsEmployeeType(p.event_type) ==>
      && (r.1.Err? <==> !p.data.EmployeeData? || env.faults(EmployeeKind)(p.data.employee.id).Some?)
      && (r.1.Err? ==> "Failed to process employee event: " <= r.1.error)
  {
    if IsReceiptType(p.event_type) {
      assert r == ReceiptEvent(env, t, p.data, now);
    } else if IsShiftType(p.event_type) {
      assert r == ShiftEvent(env, t, p.data, now);
    } else if IsInventoryType(p.event_type) {
      assert r == InventoryEvent(env, t, p.data, now);
    } else if IsItemType(p.event_type) {
      assert r == ItemEvent(env, t, p.data, now);
    } else if IsEmployeeType(p.event_type) {
      assert r == EmployeeEvent(env, t, p.data, now);
    }
  }

  // ------------------------------------------------------ the state machine

  /** The signature check runs only with a truthy secret and a truthy
      signature header, and rejects a header that is not the HMAC of the
      serialised payload. */
  predicate SignatureRejected(env: Env, p: Payload, signature: Option<string>) {
    && Truthy(env.webhookSecret) && Truthy(signature)
    && signature.value != env.hmacHex(env.webhookSecret.value, env.serialize(p))
  }

  /** The upsert before dispatch: a new record, or the existing one with
      type, payload, status and meta overwritten and the rest kept. */
  function PendingRecord(existing: Option<WebhookEvent>, p: Payload, now: Timestamp): (e: WebhookEvent)
    ensures e.event_id == p.id && e.event_type == p.event_type && e.payload == p && e.status == Pending
    ensures existing.Some? ==> e.processing_details == existing.value.processing_details && e.error == existing.value.error
    ensures existing.None? ==> e.processing_details.None? && e.error.None?
  {
    var meta := Meta("loyverse", now, Some(now), 1);
    match existing
    case None => WebhookEvent(p.id, p.event_type, p, Pending, None, None, None, None, meta)
    case Some(prev) => prev.(event_id := p.id, event_type := p.event_type, payload := p, status := Pending, meta := meta)
  }

  /** `processed !== false`: only a result that says it was not processed
      skips the event. */
  function StatusOf(d: Option<Details>): (s: EventStatus)
    ensures s == Skipped <==> d.Some? && d.value.NotHandled?
    ensures s == Skipped || s == Processed
  {
    if d.Some? && d.value.NotHandled? then Skipped else Processed
  }

  /** The catch: the record, if there is one, is marked failed with the
      message (no upsert), and the error is rethrown wrapped. */
  function Fail(t: Tables, id: string, msg: string, now: Timestamp): (Tables, Result<Reply, string>) {
    var events := if id in t.events
      then t.events[id := t.events[id].(status := Failed, error := Some(msg), failed_at := Some(now))]
      else t.events;
    (t.(events := events), Err("Failed to process webhook: " + msg))
  }

  /** One delivery of a webhook event: the collections afterwards and the
      reply or error. */
  function Deliver(env: Env, t: Tables, p: Payload, signature: Option<string>, now: Timestamp): (Tables, Result<Reply, string>) {
    if SignatureRejected(env, p, signature) then Fail(t, p.id, InvalidSignature, now)
    else if p.id in t.events && t.events[p.id].status == Processed then (t, Ok(AlreadyProcessed))
    else
      var existing := if p.id in t.events then Some(t.events[p.id]) else None;
      var pending := t.(events := t.events[p.id := PendingRecord(existing, p, now)]);
      var r := Dispatch(env, pending, p, now);
      match r.1
      case Err(e) => Fail(r.0, p.id, e, now)
      case Ok(d) =>
        var settled := r.0.events[p.id].(status := StatusOf(d), processing_details := d, processed_at := Some(now));
        (r.0.(events := r.0.events[p.id := settled]), Ok(ProcessedOk(d)))
  }

  /** An event already processed is answered as idempotent and nothing is
      written. */
  lemma AlreadyProcessedWritesNothing(env: Env, t: Tables, p: Payload, signature: Option<string>, now: Timestamp)
    requires !SignatureRejected(env, p, signature)
    requires p.id in t.events && t.events[p.id].status == Processed
    ensures Deliver(env, t, p, signature, now) == (t, Ok(AlreadyProcessed))
  {
  }

  /** A delivery that gets past the signature and idempotency checks leaves
      exactly one record for the event, holding its type and payload; the
      record is failed exactly when the call throws, with the message the
      error wraps, and otherwise skipped exactly for an unknown type (which
      never throws). No other event record changes. */
  lemma DeliveryRecordsEvent(env: Env, t: Tables, p: Payload, signature: Option<string>, now: Timestamp)
    requires !SignatureRejected(env, p, signature)
    requires !(p.id in t.events && t.events[p.id].status == Processed)
    ensures var (t', res) := Deliver(env, t, p, signature, now);
      && t'.events.Keys == t.events.Keys + {p.id}
      && (forall id :: id != p.id ==> SameEntry(t.events, t'.events, id))
      && t'.events[p.id].event_type == p.event_type && t'.events[p.id].payload == p
      && (res.Err? <==> t'.events[p.id].status == Failed)
      && (res.Err? ==> t'.events[p.id].error.Some? && res.error == "Failed to process webhook: " + t'.events[p.id].error.value)
      && (res.Ok? ==> (t'.events[p.id].status == Skipped <==> !KnownType(p.event_type)))
      && (res.Ok? ==> t'.events[p.id].status in {Processed, Skipped})
      && (!KnownType(p.event_type) ==> res == Ok(ProcessedOk(Some(NotHandled(UnhandledType)))))
  {
    var existing := if p.id in t.events then Some(t.events[p.id]) else None;
    var pending := t.(events := t.events[p.id := PendingRecord(existing, p, now)]);
    var r := Dispatch(env, pending, p, now);
    var out := Deliver(env, t, p, signature, now);
    assert r.0.events == pending.events;
    if r.1.Err? {
      assert out == Fail(r.0, p.id, r.1.error, now);
    } else {
      var d := r.1.value;
      var settled := r.0.events[p.id].(status := StatusOf(d), processing_details := d, processed_at := Some(now));
      assert out == (r.0.(events := r.0.events[p.id := settled]), Ok(ProcessedOk(d)));
      if !KnownType(p.event_type) {
        assert d == Some(NotHandled(UnhandledType));
      } else {
        assert d.None? || d.value.Handled?;
      }
    }
  }

  /** After a delivery that did not throw, delivering the same event again
      is answered as idempotent and writes nothing, unless the first one was
      skipped as an unknown type. */
  lemma RedeliveryIsIdempotent(env: Env, t: Tables, p: Payload, signature: Option<string>, now: Timestamp,
                               signature': Option<string>, now': Timestamp)
    requires Deliver(env, t, p, signature, now).1.Ok?
    requires KnownType(p.event_type)
    requires !SignatureRejected(env, p, signature')
    ensures var t1 := Deliver(env, t, p, signature, now).0;
            Deliver(env, t1, p, signature', now') == (t1, Ok(AlreadyProcessed))
  {
    if !(p.id in t.events && t.events[p.id].status == Processed) {
      DeliveryRecordsEvent(env, t, p, signature, now);
    }
  }

  /** A rejected signature fails the call with that message; it marks an
      existing record failed and creates none, and no other collection
      changes. */
  lemma RejectedSignatureCreatesNothing(env: Env, t: Tables, p: Payload, signature: Option<string>, now: Timestamp)
    requires SignatureRejected(env, p, signature)
    ensures var (t', res) := Deliver(env, t, p, signature, now);
      && res == Err("Failed to process webhook: " + InvalidSignature)
      && t'.events.Keys == t.events.Keys
      && (p.id in t.events ==> t'.events[p.id].status == Failed && t'.events[p.id].error == Some(InvalidSignature))
      && t'.(events := t.events) == t
  {
  }

  /** The handlers never read or write the event records. */
  lemma DispatchIgnoresEvents(env: Env, t: Tables, events: map<string, WebhookEvent>, p: Payload, now: Timestamp)
    ensures var r := Dispatch(env, t, p, now);
            Dispatch(env, t.(events := events), p, now) == (r.0.(events := events), r.1)
  {
  }

  /** What a delivery does to the documents is what its handler does: the
      reply carries the handler's details, a handler error is rethrown
      wrapped, and only a handler that succeeds writes a document. */
  lemma DeliveryUpserts(env: Env, t: Tables, p: Payload, signature: Option<string>, now: Timestamp)
    requires !SignatureRejected(env, p, signature)
    requires !(p.id in t.events && t.events[p.id].status == Processed)
    ensures var (t', res) := Deliver(env, t, p, signature, now);
            var (h, hr) := Dispatch(env, t, p, now);
      && (hr.Ok? ==> res == Ok(ProcessedOk(hr.value)) && t'.(events := t.events) == h)
      && (hr.Err? ==> res == Err("Failed to process webhook: " + hr.error) && t'.(events := t.events) == t)
  {
    var existing := if p.id in t.events then Some(t.events[p.id]) else None;
    var pending := t.(events := t.events[p.id := PendingRecord(existing, p, now)]);
    DispatchIgnoresEvents(env, t, pending.events, p, now);
    var r := Dispatch(env, pending, p, now);
    var out := Deliver(env, t, p, signature, now);
    if r.1.Err? {
      assert out == Fail(r.0, p.id, r.1.error, now);
    } else {
      assert out.0.(events := t.events) == r.0.(events := t.events);
    }
  }

  // ---------------------------------------------------------------- service

  class LoyverseService {
    const env: Env
    var events: map<string, WebhookEvent>
    var receipts: map<string, Receipt>
    var shifts: map<string, ShiftRecord>
    var inventory: map<string, InventoryMovement>
    var items: map<string, Item>
    var employees: map<string, Employee>
    var stores: map<string, Store>

    function State(): Tables
      reads this
    {
      Tables(events, receipts, shifts, inventory, items, employees, stores)
    }

    constructor(env: Env, t: Tables)
      ensures this.env == env && State() == t
    {
      this.env := env;
      events := t.events;
      receipts := t.receipts;
      shifts := t.shifts;
      inventory := t.inventory;
      items := t.items;
      employees := t.employees;
      stores := t.stores;
    }

    method HandleWebhookEvent(p: Payload, signature: Option<string>, now: Timestamp) returns (res: Result<Reply, string>)
      modifies this
      ensures (State(), res) == Deliver(env, old(State()), p, signature, now)
    {
      var failure: Option<string> := None;
      var secret := env.webhookSecret;
      if Truthy(secret) && Truthy(signature) {
        var isValid := signature.value == env.hmacHex(secret.value, env.serialize(p));
        if !isValid {
          failure := Some(InvalidSignature);
        }
      }
      if failure.None? {
        var existing := if p.id in events then Some(events[p.id]) else None;
        if existing.Some? && existing.value.status == Processed {
          return Ok(AlreadyProcessed);
        }
        events := events[p.id := PendingRecord(existing, p, now)];
        ghost var pending := State();
        var result := ProcessEvent(p, now);
        assert (State(), result) == Dispatch(env, pending, p, now);
        if result.Ok? {
          var d := result.value;
          events := events[p.id := events[p.id].(status := StatusOf(d), processing_details := d, processed_at := Some(now))];
          return Ok(ProcessedOk(d));
        }
        failure := Some(result.error);
      }
      if p.id in events {
        events := events[p.id := events[p.id].(status := Failed, error := failure, failed_at := Some(now))];
      }
      res := Err("Failed to process webhook: " + failure.value);
    }

    method ProcessEvent(p: Payload, now: Timestamp) returns (r: Result<Option<Details>, string>)
      modifies this
      ensures (State(), r) == Dispatch(env, old(State()), p, now)
    {
      if IsReceiptType(p.event_type) {
        r := ProcessReceiptEvent(p.data, now);
      } else if IsShiftType(p.event_type) {
        r := ProcessShiftEvent(p.data, now);
      } else if IsInventoryType(p.event_type) {
        r := ProcessInventoryEvent(p.data, now);
      } else if IsItemType(p.event_type) {
        r := ProcessItemEvent(p.data, now);
      } else if IsEmployeeType(p.event_type) {
        r := ProcessEmployeeEvent(p.data, now);
      } else {
        r := Ok(Some(NotHandled(UnhandledType)));
      }
    }

    method ProcessReceiptEvent(data: EventData, now: Timestamp) returns (r: Result<Option<Details>, string>)
      modifies this
      ensures (State(), r) == ReceiptEvent(env, old(State()), data, now)
    {
      if !data.ReceiptData? {
        return Err(DataMismatch);
      }
      var receipt := ReceiptFromWebhook(data.receipt, now);
      if receipt.Err? {
        return Err(receipt.error);
      }
      var refused := env.faults(ReceiptKind)(receipt.value.loyverse_id);
      if refused.Some? {
        return Err(refused.value);
      }
      receipts := Upsert(receipts, receipt.value, ReceiptId);
      return Ok(None);
    }

    method ProcessShiftEvent(data: EventData, now: Timestamp) returns (r: Result<Option<Details>, string>)
      modifies this
      ensures (State(), r) == ShiftEvent(env, old(State()), data, now)
    {
      if !data.ShiftData? {
        return Err("Failed to process shift event: " + DataMismatch);
      }
      var shift := ShiftFromRaw(data.shift, now);
      var refused := env.faults(ShiftKind)(shift.loyverse_id);
      if refused.Some? {
        return Err("Failed to process shift event: " + refused.value);
      }
      shifts := Upsert(shifts, shift, ShiftId);
      return Ok(Some(Handled("shift")));
    }

    method ProcessInventoryEvent(data: EventData, now: Timestamp) returns (r: Result<Option<Details>, string>)
      modifies this
      ensures (State(), r) == InventoryEvent(env, old(State()), data, now)
    {
      if !data.InventoryData? {
        return Err("Failed to process inventory event: " + DataMismatch);
      }
      var movement := InventoryFromRaw(data.inventory, now);
      var refused := env.faults(InventoryKind)(movement.loyverse_id);
      if refused.Some? {
        return Err("Failed to process inventory event: " + refused.value);
      }
      inventory := Upsert(inventory, movement, InventoryId);
      return Ok(Some(Handled("inventory_movement")));
    }

    method ProcessItemEvent(data: EventData, now: Timestamp) returns (r: Result<Option<Details>, string>)
      modifies this
      ensures (State(), r) == ItemEvent(env, old(State()), data, now)
    {
      if !data.ItemData? {
        return Err("Failed to process item event: " + DataMismatch);
      }
      var item := ItemFromRaw(data.item, now);
      var refused := env.faults(ItemKind)(item.loyverse_id);
      if refused.Some? {
        return Err("Failed to process item event: " + refused.value);
      }
      items := Upsert(items, item, ItemId);
      return Ok(Some(Handled("item")));
    }

    method ProcessEmployeeEvent(data: EventData, now: Timestamp) returns (r: Result<Option<Details>, string>)
      modifies this
      ensures (State(), r) == EmployeeEvent(env, old(State()), data, now)
    {
      if !data.EmployeeData? {
        return Err("Failed to process employee event: " + DataMismatch);
      }
      var employee := EmployeeFromRaw(data.employee, now);
      var refused := env.faults(EmployeeKind)(employee.loyverse_id);
      if refused.Some? {
        return Err("Failed to process employee event: " + refused.value);
      }
      employees := Upsert(employees, employee, EmployeeId);
      return Ok(Some(Handled("employee")));
    }

    /** The stores listing, upserted one by one until the first failure. */
    method SyncStores(response: Result<seq<RawStore>, string>, now: Timestamp) returns (res: Result<nat, string>)
      modifies this
      ensures response.Err? ==> res == Err("Failed to sync stores: " + response.error) && stores == old(stores)
      ensures response.Ok? ==>
        var o := Aborting(old(stores), response.value, StoreEntry(now), StoreId, env.faults(StoreKind));
        && stores == o.table
        && res == (if o.failure.None? then Ok(o.count) else Err("Failed to sync stores: " + o.failure.value))
      ensures old(State()).(stores := stores) == State()
    {
      if response.Err? {
        return Err("Failed to sync stores: " + response.error);
      }
      var raws := response.value;
      ghost var fault := env.faults(StoreKind);
      var upsertCount := 0;
      while upsertCount < |raws|
        invariant upsertCount <= |raws|
        invariant Aborting(old(stores), raws[..upsertCount], StoreEntry(now), StoreId, fault) == Outcome(stores, upsertCount, None)
        invariant old(State()).(stores := stores) == State()
      {
        var store := StoreFromRaw(raws[upsertCount], now);
        var refused := env.faults(StoreKind)(store.loyverse_id);
        AbortingStep(old(stores), raws, upsertCount, StoreEntry(now), StoreId, fault, stores);
        if refused.Some? {
          AbortingStops(old(stores), raws, upsertCount + 1, StoreEntry(now), StoreId, fault);
          return Err("Failed to sync stores: " + refused.value);
        }
        stores := Upsert(stores, store, StoreId);
        upsertCount := upsertCount + 1;
      }
      assert raws[..upsertCount] == raws;
      return Ok(upsertCount);
    }

    /** The employees listing, upserted one by one until the first failure;
      an employee without stores throws. */
    method SyncEmployees(response: Result<seq<RawEmployee>, string>, now: Timestamp) returns (res: Result<nat, string>)
      modifies this
      ensures response.Err? ==> res == Err("Failed to sync employees: " + response.error) && employees == old(employees)
      ensures response.Ok? ==>
        var o := Aborting(old(employees), response.value, EmployeeEntry(now), EmployeeId, env.faults(EmployeeKind));
        && employees == o.table
        && res == (if o.failure.None? then Ok(o.count) else Err("Failed to sync employees: " + o.failure.value))
      ensures old(State()).(employees := employees) == State()
    {
      if response.Err? {
        return Err("Failed to sync employees: " + response.error);
      }
      var raws := response.value;
      ghost var fault := env.faults(EmployeeKind);
      var upsertCount := 0;
      while upsertCount < |raws|
        invariant upsertCount <= |raws|
        invariant Aborting(old(employees), raws[..upsertCount], EmployeeEntry(now), EmployeeId, fault) == Outcome(employees, upsertCount, None)
        invariant old(State()).(employees := employees) == State()
      {
        var employee := EmployeeFromSync(raws[upsertCount], now);
        AbortingStep(old(employees), raws, upsertCount, EmployeeEntry(now), EmployeeId, fault, employees);
        if employee.Err? {
          AbortingStops(old(employees), raws, upsertCount + 1, EmployeeEntry(now), EmployeeId, fault);
          return Err("Failed to sync employees: " + employee.error);
        }
        var refused := env.faults(EmployeeKind)(employee.value.loyverse_id);
        if refused.Some? {
          AbortingStops(old(employees), raws, upsertCount + 1, EmployeeEntry(now), EmployeeId, fault);
          return Err("Failed to sync employees: " + refused.value);
        }
        employees := Upsert(employees, employee.value, EmployeeId);
        upsertCount := upsertCount + 1;
      }
      assert raws[..upsertCount] == raws;
      return Ok(upsertCount);
    }

    /** Every page of the catalog is fetched first; a failed page aborts
      before any write. Then the items are upserted one by one until the
      first failure, and the count covers every item of every page. */
    method SyncItems(up: Upstream<RawCatalogItem>, now: Timestamp) returns (res: Result<nat, string>)
      modifies this
      ensures var w := Walk(up, 0);
        && (w.failure.Some? ==> res == Err("Failed to sync items: " + w.failure.value) && items == old(items))
        && (w.failure.None? ==>
              var o := Aborting(old(items), Items(w.pages), CatalogEntry(now), ItemId, env.faults(ItemKind));
              && items == o.table
              && res == (if o.failure.None? then Ok(o.count) else Err("Failed to sync items: " + o.failure.value)))
      ensures old(State()).(items := items) == State()
    {
      var fetchedItems := FetchAll(up);
      if fetchedItems.Err? {
        return Err("Failed to sync items: " + fetchedItems.error);
      }
      res := UpsertItems(fetchedItems.value, now);
    }

    /** The write half of the items sync: the fetched items are upserted in
      order until the store refuses one. */
    method UpsertItems(allItems: seq<RawCatalogItem>, now: Timestamp) returns (res: Result<nat, string>)
      modifies this
      ensures var o := Aborting(old(items), allItems, CatalogEntry(now), ItemId, env.faults(ItemKind));
        && items == o.table
        && res == (if o.failure.None? then Ok(o.count) else Err("Failed to sync items: " + o.failure.value))
      ensures old(State()).(items := items) == State()
    {
      ghost var fault := env.faults(ItemKind);
      var upsertCount := 0;
      while upsertCount < |allItems|
        invariant upsertCount <= |allItems|
        invariant Aborting(old(items), allItems[..upsertCount], CatalogEntry(now), ItemId, fault) == Outcome(items, upsertCount, None)
        invariant old(State()).(items := items) == State()
      {
        var item := ItemFromCatalog(allItems[upsertCount], now);
        var refused := env.faults(ItemKind)(item.loyverse_id);
        AbortingStep(old(items), allItems, upsertCount, CatalogEntry(now), ItemId, fault, items);
        if refused.Some? {
          AbortingStops(old(items), allItems, upsertCount + 1, CatalogEntry(now), ItemId, fault);
          return Err("Failed to sync items: " + refused.value);
        }
        items := Upsert(items, item, ItemId);
        upsertCount := upsertCount + 1;
      }
      assert allItems[..upsertCount] == allItems;
      return Ok(upsertCount);
    }

    /** One batch of receipts: a receipt the store refuses is skipped, and
      the count is of the receipts written. */
    method ProcessReceiptBatch(batch: seq<RawReceipt>, now: Timestamp) returns (processedCount: nat)
      modifies this
      ensures var t := Isolated(old(receipts), batch, BatchReceipt(now), ReceiptId, env.faults(ReceiptKind));
              receipts == t.table && processedCount == t.count
      ensures old(State()).(receipts := receipts) == State()
    {
      ghost var fault := env.faults(ReceiptKind);
      processedCount := 0;
      var i := 0;
      while i < |batch|
        invariant i <= |batch|
        invariant Isolated(old(receipts), batch[..i], BatchReceipt(now), ReceiptId, fault) == Tally(receipts, processedCount)
        invariant old(State()).(receipts := receipts) == State()
      {
        var receipt := ReceiptFromBatch(batch[i], now);
        var refused := env.faults(ReceiptKind)(receipt.loyverse_id);
        if refused.None? {
          receipts := Upsert(receipts, receipt, ReceiptId);
          processedCount := processedCount + 1;
        }
        assert batch[..i + 1][..i] == batch[..i];
        i := i + 1;
      }
      assert batch[..i] == batch;
    }

    /** One batch of shifts: a shift the store refuses is skipped, and the
      count is of the shifts written. */
    method ProcessShiftBatch(batch: seq<RawShift>, now: Timestamp) returns (processedCount: nat)
      modifies this
      ensures var t := Isolated(old(shifts), batch, BatchShift(now), ShiftId, env.faults(ShiftKind));
              shifts == t.table && processedCount == t.count
      ensures old(State()).(shifts := shifts) == State()
    {
      ghost var fault := env.faults(ShiftKind);
      processedCount := 0;
      var i := 0;
      while i < |batch|
        invariant i <= |batch|
        invariant Isolated(old(shifts), batch[..i], BatchShift(now), ShiftId, fault) == Tally(shifts, processedCount)
        invariant old(State()).(shifts := shifts) == State()
      {
        var shift := ShiftFromRaw(batch[i], now);
        var refused := env.faults(ShiftKind)(shift.loyverse_id);
        if refused.None? {
          shifts := Upsert(shifts, shift, ShiftId);
          processedCount := processedCount + 1;
        }
        assert batch[..i + 1][..i] == batch[..i];
        i := i + 1;
      }
      assert batch[..i] == batch;
    }

    /** The receipts of a date range, page by page: each page's receipts are
      buffered, and the buffer is written as one batch once it holds at
      least 100 receipts or the page was the last. A failed request ends the
      sync; the batches already written stay written. */
    method SyncReceipts(range: SyncRange, up: Upstream<RawReceipt>, now: Timestamp)
      returns (res: Result<nat, string>, sent: seq<Request>, batches: seq<seq<RawReceipt>>)
      modifies this
      ensures var w := Walk(up, 0);
              var q := ReceiptQuery(range);
        && sent == Requests(q, w.pages) + (if w.failure.Some? then [NextRequest(q, w.pages)] else [])
        && batches == Batching(w.pages, ReceiptBatchSize).flushed
        && receipts == Isolated(old(receipts), Concat(batches), BatchReceipt(now), ReceiptId, env.faults(ReceiptKind)).table
        && res == if w.failure.None? then Ok(|Items(w.pages)|)
                  else Err("Failed to sync receipts: Failed to fetch receipts batch: " + w.failure.value)
      ensures old(State()).(receipts := receipts) == State()
    {
      ghost var fault := env.faults(ReceiptKind);
      var query := ReceiptQuery(range);
      var cursor: Option<string> := None;
      var buffer: seq<RawReceipt> := [];
      var hasMore := true;
      var totalCount: nat := 0;
      var k: nat := 0;
      ghost var fetched: seq<Page<RawReceipt>> := [];
      sent := [];
      batches := [];
      while hasMore
        invariant k == |fetched| && k <= |up|
        invariant sent == Requests(query, fetched)
        invariant Request(query, cursor) == NextRequest(query, fetched)
        invariant hasMore ==> Walk(up, 0) == Walked(fetched + Walk(up, k).pages, Walk(up, k).failure)
        invariant !hasMore ==> Walk(up, 0) == Walked(fetched, None)
        invariant Buffered(batches, buffer) == Batching(fetched, ReceiptBatchSize)
        invariant totalCount == |Items(fetched)|
        invariant receipts == Isolated(old(receipts), Concat(batches), BatchReceipt(now), ReceiptId, fault).table
        invariant old(State()).(receipts := receipts) == State()
        decreases |up| - k, hasMore
      {
        WalkStep(up, k, fetched);
        sent := sent + [Request(query, cursor)];
        var response := Response(up, k);
        if response.Err? {
          return Err("Failed to sync receipts: Failed to fetch receipts batch: " + response.error), sent, batches;
        }
        var page := response.value;
        BatchingSnoc(fetched, page, ReceiptBatchSize);
        RequestsSnoc(query, fetched, page);
        buffer := buffer + page.records;
        cursor := page.cursor;
        hasMore := Truthy(cursor);
        totalCount := totalCount + |page.records|;
        fetched := fetched + [page];
        k := k + 1;
        if |buffer| >= ReceiptBatchSize || !hasMore {
          IsolatedAppend(old(receipts), Concat(batches), buffer, BatchReceipt(now), ReceiptId, fault);
          ConcatSnoc(batches, buffer);
          var _ := ProcessReceiptBatch(buffer, now);
          batches := batches + [buffer];
          buffer := [];
        }
      }
      return Ok(totalCount), sent, batches;
    }

    /** The shifts of a date range, page by page, written in batches of at
      least 50 as the receipt sync does. */
    method SyncShifts(range: SyncRange, up: Upstream<RawShift>, now: Timestamp)
      returns (res: Result<nat, string>, sent: seq<Request>, batches: seq<seq<RawShift>>)
      modifies this
      ensures var w := Walk(up, 0);
              var q := ShiftQuery(range);
        && sent == Requests(q, w.pages) + (if w.failure.Some? then [NextRequest(q, w.pages)] else [])
        && batches == Batching(w.pages, ShiftBatchSize).flushed
        && shifts == Isolated(old(shifts), Concat(batches), BatchShift(now), ShiftId, env.faults(ShiftKind)).table
        && res == if w.failure.None? then Ok(|Items(w.pages)|)
                  else Err("Failed to sync shifts: Failed to fetch shifts batch: " + w.failure.value)
      ensures old(State()).(shifts := shifts) == State()
    {
      ghost var fault := env.faults(ShiftKind);
      var query := ShiftQuery(range);
      var cursor: Option<string> := None;
      var buffer: seq<RawShift> := [];
      var hasMore := true;
      var totalCount: nat := 0;
      var k: nat := 0;
      ghost var fetched: seq<Page<RawShift>> := [];
      sent := [];
      batches := [];
      while hasMore
        invariant k == |fetched| && k <= |up|
        invariant sent == Requests(query, fetched)
        invariant Request(query, cursor) == NextRequest(query, fetched)
        invariant hasMore ==> Walk(up, 0) == Walked(fetched + Walk(up, k).pages, Walk(up, k).failure)
        invariant !hasMore ==> Walk(up, 0) == Walked(fetched, None)
        invariant Buffered(batches, buffer) == Batching(fetched, ShiftBatchSize)
        invariant totalCount == |Items(fetched)|
        invariant shifts == Isolated(old(shifts), Concat(batches), BatchShift(now), ShiftId, fault).table
        invariant old(State()).(shifts := shifts) == State()
        decreases |up| - k, hasMore
      {
        WalkStep(up, k, fetched);
        sent := sent + [Request(query, cursor)];
        var response := Response(up, k);
        if response.Err? {
          return Err("Failed to sync shifts: Failed to fetch shifts batch: " + response.error), sent, batches;
        }
        var page := response.value;
        BatchingSnoc(fetched, page, ShiftBatchSize);
        RequestsSnoc(query, fetched, page);
        buffer := buffer + page.records;
        cursor := page.cursor;
        hasMore := Truthy(cursor);
        totalCount := totalCount + |page.records|;
        fetched := fetched + [page];
        k := k + 1;
        if |buffer| >= ShiftBatchSize || !hasMore {
          IsolatedAppend(old(shifts), Concat(batches), buffer, BatchShift(now), ShiftId, fault);
          ConcatSnoc(batches, buffer);
          var _ := ProcessShiftBatch(buffer, now);
          batches := batches + [buffer];
          buffer := [];
        }
      }
      return Ok(totalCount), sent, batches;
    }
  }
}
