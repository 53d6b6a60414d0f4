/**
 * The upstream listing and the writes of the syncs, as values.
 *
 * A cursor-paginated listing is walked with `while (hasMore)`: request k
 * gets the k-th answer of the upstream, and the walk stops at the first page
 * whose cursor is falsy or at the first failed request. Writes go to a
 * collection keyed by `loyverse_id`; a batch either isolates each record's
 * failure (the receipt and shift batches) or stops at the first one (the
 * store, employee and item syncs).
 */
module LoyversePaging {
  import opened Wrappers
  import opened Models

  /** One page of a listing: its records and the cursor of the next page. */
  datatype Page<T> = Page(records: seq<T>, cursor: Option<string>)

  /** The upstream's answers, in request order: a page or an error message. */
  type Upstream<T> = seq<Result<Page<T>, string>>

  /** The failure a request gets once the upstream has no more answers. */
  const NoResponse: string := "socket hang up"

  /** The answer to request k. */
  function Response<T>(up: Upstream<T>, k: nat): (r: Result<Page<T>, string>)
    ensures r.Ok? ==> k < |up|
  {
    if k < |up| then up[k] else Err(NoResponse)
  }

  /** The pages a walk fetched, and the error that stopped it, if any. */
  datatype Walked<T> = Walked(pages: seq<Page<T>>, failure: Option<string>)

  /** The walk from request k on: page after page while the cursor is
      truthy, up to the last page or the first failed request. */
  function Walk<T>(up: Upstream<T>, k: nat): Walked<T>
    decreases |up| - k
  {
    match Response(up, k)
    case Err(e) => Walked([], Some(e))
    case Ok(p) =>
      if !Truthy(p.cursor) then Walked([p], None)
      else
        var rest := Walk(up, k + 1);
        Walked([p] + rest.pages, rest.failure)
  }

  /** The walk's pages are the upstream's answers in order; it follows
      every cursor but the last, and stops at a falsy cursor or at the
      failure it reports. */
  lemma {:induction false} WalkFollowsCursors<T>(up: Upstream<T>, k: nat)
    ensures var w := Walk(up, k);
      && (forall i :: 0 <= i < |w.pages| ==> Response(up, k + i) == Ok(w.pages[i]))
      && (forall i :: 0 <= i < |w.pages| - 1 ==> Truthy(w.pages[i].cursor))
      && (w.failure.None? ==> |w.pages| > 0 && !Truthy(w.pages[|w.pages| - 1].cursor))
      && (w.failure.Some? ==> Response(up, k + |w.pages|) == Err(w.failure.value))
      && (w.failure.Some? ==> forall i :: 0 <= i < |w.pages| ==> Truthy(w.pages[i].cursor))
    decreases |up| - k
  {
    match Response(up, k)
    case Err(e) =>
    case Ok(p) =>
      if Truthy(p.cursor) {
        WalkFollowsCursors(up, k + 1);
        var rest := Walk(up, k + 1);
        var w := Walk(up, k);
        assert w.pages == [p] + rest.pages;
        assert forall i :: 0 < i < |w.pages| ==> w.pages[i] == rest.pages[i - 1];
      }
  }

  /** The records of the pages, in fetch order. */
  function Items<T>(pages: seq<Page<T>>): seq<T> {
    if pages == [] then [] else Items(pages[..|pages| - 1]) + pages[|pages| - 1].records
  }

  /** The records of the batches, in order. */
  function Concat<T>(bs: seq<seq<T>>): seq<T> {
    if bs == [] then [] else Concat(bs[..|bs| - 1]) + bs[|bs| - 1]
  }

  /** Request k of a walk, once the pages before it are fetched: a failure
      ends the walk with those pages, a page with a falsy cursor ends it
      with that page, and any other page leaves the walk from k + 1. */
  lemma WalkStep<T>(up: Upstream<T>, k: nat, fetched: seq<Page<T>>)
    requires Walk(up, 0) == Walked(fetched + Walk(up, k).pages, Walk(up, k).failure)
    ensures match Response(up, k)
      case Err(e) => Walk(up, 0) == Walked(fetched, Some(e))
      case Ok(p) =>
        && Items(fetched + [p]) == Items(fetched) + p.records
        && (Truthy(p.cursor) ==> Walk(up, 0) == Walked((fetched + [p]) + Walk(up, k + 1).pages, Walk(up, k + 1).failure))
        && (!Truthy(p.cursor) ==> Walk(up, 0) == Walked(fetched + [p], None))
  {
    match Response(up, k)
    case Err(e) =>
      assert fetched + [] == fetched;
    case Ok(p) =>
      assert (fetched + [p])[..|fetched|] == fetched;
      if Truthy(p.cursor) {
        assert fetched + ([p] + Walk(up, k + 1).pages) == (fetched + [p]) + Walk(up, k + 1).pages;
      }
  }

  /** Fetches every page, following the cursors, and gathers their records;
      the first failed page fails the whole fetch. */
  method FetchAll<T>(up: Upstream<T>) returns (res: Result<seq<T>, string>)
    ensures var w := Walk(up, 0);
      res == if w.failure.None? then Ok(Items(w.pages)) else Err(w.failure.value)
  {
    var all: seq<T> := [];
    var hasMore := true;
    var k: nat := 0;
    ghost var fetched: seq<Page<T>> := [];
    while hasMore
      invariant k == |fetched| && k <= |up|
      invariant all == Items(fetched)
      invariant hasMore ==> Walk(up, 0) == Walked(fetched + Walk(up, k).pages, Walk(up, k).failure)
      invariant !hasMore ==> Walk(up, 0) == Walked(fetched, None)
      decreases |up| - k, hasMore
    {
      WalkStep(up, k, fetched);
      var response := Response(up, k);
      if response.Err? {
        return Err(response.error);
      }
      var page := response.value;
      all := all + page.records;
      hasMore := Truthy(page.cursor);
      fetched := fetched + [page];
      k := k + 1;
    }
    return Ok(all);
  }

  lemma ConcatSnoc<T>(bs: seq<seq<T>>, b: seq<T>)
    ensures Concat(bs + [b]) == Concat(bs) + b
  {
    assert (bs + [b])[..|bs|] == bs;
  }

  /** The batches written so far, and the records buffered for the next. */
  datatype Buffered<T> = Buffered(flushed: seq<seq<T>>, buffer: seq<T>)

  /** How a range sync batches what it fetches: each page's records join
      the buffer, which is written as one batch once it holds at least
      `size` records or the page was the last. */
  function Batching<T>(pages: seq<Page<T>>, size: nat): Buffered<T> {
    if pages == [] then Buffered([], [])
    else
      var b := Batching(pages[..|pages| - 1], size);
      var p := pages[|pages| - 1];
      var buffer := b.buffer + p.records;
      if |buffer| >= size || !Truthy(p.cursor) then Buffered(b.flushed + [buffer], [])
      else Buffered(b.flushed, buffer)
  }

  lemma BatchingSnoc<T>(pages: seq<Page<T>>, p: Page<T>, size: nat)
    ensures var b := Batching(pages, size);
            var buffer := b.buffer + p.records;
            Batching(pages + [p], size) ==
              if |buffer| >= size || !Truthy(p.cursor) then Buffered(b.flushed + [buffer], [])
              else Buffered(b.flushed, buffer)
  {
    assert (pages + [p])[..|pages|] == pages;
  }

  /** Batching loses, duplicates and reorders nothing: the batches and the
      buffer hold the fetched records in fetch order. */
  lemma {:induction false} BatchingKeepsOrder<T>(pages: seq<Page<T>>, size: nat)
    ensures Concat(Batching(pages, size).flushed) + Batching(pages, size).buffer == Items(pages)
  {
    if pages != [] {
      var init := pages[..|pages| - 1];
      var b := Batching(init, size);
      BatchingKeepsOrder(init, size);
      var buffer := b.buffer + pages[|pages| - 1].records;
      ConcatSnoc(b.flushed, buffer);
      assert Concat(b.flushed) + buffer == Items(pages);
    }
  }

  /** Along a walk every batch holds at least `size` records, except the one
      written at the last page; after the last page nothing stays buffered. */
  lemma {:induction false} BatchingSizes<T>(pages: seq<Page<T>>, size: nat)
    requires forall i :: 0 <= i < |pages| - 1 ==> Truthy(pages[i].cursor)
    ensures var b := Batching(pages, size);
      && (pages != [] && !Truthy(pages[|pages| - 1].cursor) ==>
            b.buffer == [] && forall i :: 0 <= i < |b.flushed| - 1 ==> |b.flushed[i]| >= size)
      && ((pages == [] || Truthy(pages[|pages| - 1].cursor)) ==>
            forall i :: 0 <= i < |b.flushed| ==> |b.flushed[i]| >= size)
  {
    if pages != [] {
      var init := pages[..|pages| - 1];
      assert forall i :: 0 <= i < |init| ==> init[i] == pages[i];
      BatchingSizes(init, size);
      var b := Batching(init, size);
      var p := pages[|pages| - 1];
      var buffer := b.buffer + p.records;
      if init != [] {
        assert init[|init| - 1] == pages[|pages| - 2];
        assert Truthy(init[|init| - 1].cursor);
      }
      assert (init == [] || Truthy(init[|init| - 1].cursor)) ==>
             forall i :: 0 <= i < |Batching(init, size).flushed| ==> |Batching(init, size).flushed[i]| >= size;
      if |buffer| >= size || !Truthy(p.cursor) {
        var flushed := b.flushed + [buffer];
        assert Batching(pages, size).flushed == flushed;
        assert forall i :: 0 <= i < |flushed| - 1 ==> flushed[i] == b.flushed[i];
        assert flushed[|flushed| - 1] == buffer;
      } else {
        assert Batching(pages, size) == Buffered(b.flushed, buffer);
      }
    }
  }

  /** What a range sync writes, in terms of the walk: when the walk ends at
      its last page every fetched record is written, in batches of at least
      `size` but the last; when a request fails, a prefix of the fetched
      records is written, in batches of at least `size`. */
  lemma SyncBatchesCoverWalk<T>(up: Upstream<T>, size: nat)
    ensures var w := Walk(up, 0);
            var b := Batching(w.pages, size).flushed;
      && (w.failure.None? ==>
            Concat(b) == Items(w.pages) && forall i :: 0 <= i < |b| - 1 ==> |b[i]| >= size)
      && (w.failure.Some? ==>
            Concat(b) <= Items(w.pages) && forall i :: 0 <= i < |b| ==> |b[i]| >= size)
  {
    var w := Walk(up, 0);
    WalkFollowsCursors(up, 0);
    BatchingKeepsOrder(w.pages, size);
    BatchingSizes(w.pages, size);
    var bb := Batching(w.pages, size);
    assert Concat(bb.flushed) <= Concat(bb.flushed) + bb.buffer;
  }

  /** The request that fetches the page after `pages`: the first one has no
      cursor, every later one carries the cursor of the page before it. */
  function NextRequest(q: Query, pages: seq<Page>): Request {
    Request(q, if pages == [] then None else pages[|pages| - 1].cursor)
  }

  /** The requests that fetched `pages`, in order. */
  function Requests(q: Query, pages: seq<Page>): seq<Request> {
    if pages == [] then [] else Requests(q, pages[..|pages| - 1]) + [NextRequest(q, pages[..|pages| - 1])]
  }

  lemma RequestsSnoc(q: Query, pages: seq<Page>, p: Page)
    ensures Requests(q, pages + [p]) == Requests(q, pages) + [NextRequest(q, pages)]
  {
    assert (pages + [p])[..|pages|] == pages;
  }

  /** The i-th request carries the cursor of page i - 1. */
  lemma {:induction false} RequestsFollowCursors(q: Query, pages: seq<Page>)
    ensures |Requests(q, pages)| == |pages|
    ensures forall i :: 0 <= i < |pages| ==>
              Requests(q, pages)[i] == Request(q, if i == 0 then None else pages[i - 1].cursor)
  {
    if pages != [] {
      var init := pages[..|pages| - 1];
      RequestsFollowCursors(q, init);
      assert forall i :: 0 <= i < |init| ==> init[i] == pages[i];
    }
  }

  /** The listing a range sync walks: the date bounds always, the store
      filter only for a truthy store id. */
  datatype Query = Query(resource: string, dateField: string, min: Timestamp, max: Timestamp, store_id: Option<string>)

  /** One request: the query, and the cursor of the previous page if any. */
  datatype Request = Request(query: Query, cursor: Option<string>)

  function RangeQuery(resource: string, dateField: string, min: Timestamp, max: Timestamp, storeId: Option<string>): (q: Query)
    ensures q.resource == resource && q.dateField == dateField && q.min == min && q.max == max
    ensures q.store_id.Some? <==> Truthy(storeId)
    ensures q.store_id.Some? ==> q.store_id == storeId
  {
    Query(resource, dateField, min, max, if Truthy(storeId) then storeId else None)
  }

  /** Key k has the same entry, or none, in both tables. */
  predicate SameEntry<R(==)>(a: map<string, R>, b: map<string, R>, k: string) {
    (k in a <==> k in b) && (k in a ==> a[k] == b[k])
  }

  /** `findOneAndUpdate({loyverse_id}, record, {upsert: true})` with a record
      that sets every field: afterwards the key holds exactly that record
      and no other entry changed. */
  function Upsert<R(==)>(m: map<string, R>, r: R, key: R -> string): (m': map<string, R>)
    ensures key(r) in m' && m'[key(r)] == r
    ensures forall k :: k != key(r) ==> SameEntry(m, m', k)
    ensures m'.Keys == m.Keys + {key(r)}
  {
    m[key(r) := r]
  }

  /** The table after a batch, and how many records were written. */
  datatype Tally<R> = Tally(table: map<string, R>, count: nat)

  /** A batch whose records fail one by one: each record is transformed
      and upserted; one the store refuses is skipped and the rest go on. */
  function Isolated<S, R(==)>(m: map<string, R>, batch: seq<S>, f: S -> R, key: R -> string,
                          fault: string -> Option<string>): (t: Tally<R>)
    ensures t.count <= |batch|
  {
    if batch == [] then Tally(m, 0)
    else
      var t := Isolated(m, batch[..|batch| - 1], f, key, fault);
      var r := f(batch[|batch| - 1]);
      if fault(key(r)).Some? then t else Tally(Upsert(t.table, r, key), t.count + 1)
  }

  /** The count is the number of records the store did not refuse: every
      record is written exactly when none is refused. */
  lemma {:induction false} IsolatedCountsWrites<S, R>(m: map<string, R>, batch: seq<S>, f: S -> R, key: R -> string,
                                                      fault: string -> Option<string>)
    ensures Isolated(m, batch, f, key, fault).count == |batch| <==>
            forall i :: 0 <= i < |batch| ==> fault(key(f(batch[i]))).None?
  {
    if batch != [] {
      var init := batch[..|batch| - 1];
      IsolatedCountsWrites(m, init, f, key, fault);
      assert forall i :: 0 <= i < |init| ==> init[i] == batch[i];
    }
  }

  /** Writing two batches one after the other is writing their
      concatenation, and their counts add up. */
  lemma {:induction false} IsolatedAppend<S, R>(m: map<string, R>, a: seq<S>, b: seq<S>, f: S -> R,
                                                key: R -> string, fault: string -> Option<string>)
    ensures var ta := Isolated(m, a, f, key, fault);
            var tb := Isolated(ta.table, b, f, key, fault);
            Isolated(m, a + b, f, key, fault) == Tally(tb.table, ta.count + tb.count)
    decreases |b|
  {
    if b == [] {
      assert a + b == a;
    } else {
      var b' := b[..|b| - 1];
      IsolatedAppend(m, a, b', f, key, fault);
      assert (a + b)[..|a + b| - 1] == a + b';
      assert (a + b)[|a + b| - 1] == b[|b| - 1];
    }
  }

  /** One failure does not stop the others: a key whose writes the store
      refuses, or that no record of the batch has, keeps its entry. */
  lemma {:induction false} IsolatedKeepsOthers<S, R>(m: map<string, R>, batch: seq<S>, f: S -> R,
                                                     key: R -> string, fault: string -> Option<string>, k: string)
    requires fault(k).Some? || forall i :: 0 <= i < |batch| ==> key(f(batch[i])) != k
    ensures SameEntry(m, Isolated(m, batch, f, key, fault).table, k)
    decreases |batch|
  {
    if batch != [] {
      var n := |batch|;
      var init := batch[..n - 1];
      assert forall i :: 0 <= i < n - 1 ==> init[i] == batch[i];
      IsolatedKeepsOthers(m, init, f, key, fault, k);
      var r := f(batch[n - 1]);
      var ti := Isolated(m, init, f, key, fault).table;
      if fault(key(r)).None? {
        assert key(r) != k;
        assert SameEntry(ti, Upsert(ti, r, key), k);
      }
    }
  }

  /** Last writer wins: a record the store accepts, with no later record of
      the same key, is what its key holds after the batch. */
  lemma {:induction false} IsolatedLastWins<S, R>(m: map<string, R>, batch: seq<S>, f: S -> R,
                                                  key: R -> string, fault: string -> Option<string>, i: nat)
    requires i < |batch| && fault(key(f(batch[i]))).None?
    requires forall j :: i < j < |batch| ==> key(f(batch[j])) != key(f(batch[i]))
    ensures var t := Isolated(m, batch, f, key, fault).table;
            key(f(batch[i])) in t && t[key(f(batch[i]))] == f(batch[i])
    decreases |batch|
  {
    var n := |batch|;
    if i < n - 1 {
      var init := batch[..n - 1];
      assert init[i] == batch[i];
      assert forall j :: i < j < n - 1 ==> init[j] == batch[j];
      IsolatedLastWins(m, init, f, key, fault, i);
      assert key(f(batch[n - 1])) != key(f(batch[i]));
    }
  }

  /** The table after a sync that stops at its first failure, how many
      records it wrote, and the failure's message. */
  datatype Outcome<R> = Outcome(table: map<string, R>, count: nat, failure: Option<string>)

  /** Why the write of the record made of `s` fails, if it does: its
      transform throws, or the store refuses it. */
  function FailureOf<S, R>(s: S, f: S -> Result<R, string>, key: R -> string, fault: string -> Option<string>): Option<string> {
    match f(s)
    case Err(e) => Some(e)
    case Ok(r) => fault(key(r))
  }

  /** A loop of upserts with no per-record catch: the first failure ends
      it, and what was written before stays written. */
  function Aborting<S, R(==)>(m: map<string, R>, batch: seq<S>, f: S -> Result<R, string>, key: R -> string,
                          fault: string -> Option<string>): (o: Outcome<R>)
    ensures o.count <= |batch|
    ensures forall i :: 0 <= i < o.count ==> FailureOf(batch[i], f, key, fault).None?
    ensures o.failure.None? ==> o.count == |batch|
    ensures o.failure.Some? ==> o.count < |batch| && FailureOf(batch[o.count], f, key, fault) == o.failure
  {
    if batch == [] then Outcome(m, 0, None)
    else
      var o := Aborting(m, batch[..|batch| - 1], f, key, fault);
      if o.failure.Some? then o
      else match f(batch[|batch| - 1])
        case Err(e) => o.(failure := Some(e))
        case Ok(r) =>
          if fault(key(r)).Some? then o.(failure := fault(key(r)))
          else Outcome(Upsert(o.table, r, key), o.count + 1, None)
  }

  /** One more record after a prefix that wrote `i` records without a
      failure: it fails, is refused, or is upserted and counted. */
  lemma AbortingStep<S, R>(m: map<string, R>, batch: seq<S>, i: nat, f: S -> Result<R, string>,
                           key: R -> string, fault: string -> Option<string>, t: map<string, R>)
    requires i < |batch|
    requires Aborting(m, batch[..i], f, key, fault) == Outcome(t, i, None)
    ensures Aborting(m, batch[..i + 1], f, key, fault) ==
      match f(batch[i])
      case Err(e) => Outcome(t, i, Some(e))
      case Ok(r) => if fault(key(r)).Some? then Outcome(t, i, fault(key(r))) else Outcome(Upsert(t, r, key), i + 1, None)
  {
    assert batch[..i + 1][..i] == batch[..i];
  }

  /** Once a sync has failed, the records after the failure change nothing. */
  lemma {:induction false} AbortingStops<S, R>(m: map<string, R>, batch: seq<S>, j: nat, f: S -> Result<R, string>,
                                               key: R -> string, fault: string -> Option<string>)
    requires j <= |batch|
    requires Aborting(m, batch[..j], f, key, fault).failure.Some?
    ensures Aborting(m, batch, f, key, fault) == Aborting(m, batch[..j], f, key, fault)
    decreases |batch|
  {
    if j < |batch| {
      var init := batch[..|batch| - 1];
      assert init[..j] == batch[..j];
      AbortingStops(m, init, j, f, key, fault);
    } else {
      assert batch[..j] == batch;
    }
  }

  /** A key that none of the records written before the first failure
      has keeps its entry. */
  lemma {:induction false} AbortingKeepsOthers<S, R>(m: map<string, R>, batch: seq<S>, f: S -> Result<R, string>,
                                                     key: R -> string, fault: string -> Option<string>, k: string)
    requires forall i :: 0 <= i < Aborting(m, batch, f, key, fault).count ==>
               f(batch[i]).Ok? && key(f(batch[i]).value) != k
    ensures SameEntry(m, Aborting(m, batch, f, key, fault).table, k)
    decreases |batch|
  {
    if batch != [] {
      var n := |batch|;
      var init := batch[..n - 1];
      var oi := Aborting(m, init, f, key, fault);
      var o := Aborting(m, batch, f, key, fault);
      assert forall i :: 0 <= i < n - 1 ==> init[i] == batch[i];
      assert oi.count <= o.count;
      AbortingKeepsOthers(m, init, f, key, fault, k);
      if o.count != oi.count {
        var r := f(batch[n - 1]).value;
        assert o.table == Upsert(oi.table, r, key);
        assert SameEntry(oi.table, o.table, k);
      }
    }
  }

  /** Of the records written before the first failure the last writer
      wins: one with no later written record of the same key is what its
      key holds. */
  lemma {:induction false} AbortingLastWins<S, R>(m: map<string, R>, batch: seq<S>, f: S -> Result<R, string>,
                                                  key: R -> string, fault: string -> Option<string>, i: nat)
    requires i < Aborting(m, batch, f, key, fault).count
    requires forall j :: i < j < Aborting(m, batch, f, key, fault).count ==>
               f(batch[j]).Ok? && key(f(batch[j]).value) != key(f(batch[i]).value)
    ensures f(batch[i]).Ok?
    ensures var t := Aborting(m, batch, f, key, fault).table;
            key(f(batch[i]).value) in t && t[key(f(batch[i]).value)] == f(batch[i]).value
    decreases |batch|
  {
    var n := |batch|;
    var init := batch[..n - 1];
    var oi := Aborting(m, init, f, key, fault);
    var o := Aborting(m, batch, f, key, fault);
    assert forall j :: 0 <= j < n - 1 ==> init[j] == batch[j];
    if i < oi.count {
      AbortingLastWins(m, init, f, key, fault, i);
      if o.count != oi.count {
        assert key(f(batch[n - 1]).value) != key(f(batch[i]).value);
      }
    }
  }
}
