/**
 * The document-store operations the services rely on, over a collection
 * held as a sequence of documents in natural (insertion) order, and the
 * lemmas that the collection invariant (distinct internal ids, a unique
 * index on the business key) survives each write.
 */
module Collection {
  import opened Wrappers
  import opened Models

  /** The collection invariant: ids distinct and below `nextId`, keys unique. */
  ghost predicate WellFormed<T>(docs: seq<Doc<T>>, nextId: DocId, key: T -> Option<string>) {
    IdsValid(docs, nextId) && KeysUnique(docs, key)
  }

  /** The unique index refuses `d` at position `at` (or as a new document
      when `at` is None): another document already holds its key. */
  predicate Clashes<T>(docs: seq<Doc<T>>, key: T -> Option<string>, d: T, at: Option<nat>) {
    key(d).Some? &&
    match IndexOfKey(docs, key, key(d).value)
    case None => false
    case Some(j) => at != Some(j)
  }

  /** Under the unique index, the holder the lookup finds is the only one. */
  lemma SoleHolder<T>(docs: seq<Doc<T>>, key: T -> Option<string>, k: string, i: nat)
    requires KeysUnique(docs, key)
    requires IndexOfKey(docs, key, k) == Some(i)
    ensures forall j :: 0 <= j < |docs| && j != i ==> key(docs[j].data) != Some(k)
  {
  }

  /** A document that does not clash may be written at position `at`:
      no other document holds its key. */
  lemma NoClashFree<T>(docs: seq<Doc<T>>, key: T -> Option<string>, d: T, at: Option<nat>)
    requires KeysUnique(docs, key)
    requires !Clashes(docs, key, d, at)
    ensures key(d).Some? ==> forall j :: 0 <= j < |docs| && Some(j) != at ==> key(docs[j].data) != key(d)
  {
    if key(d).Some? {
      match IndexOfKey(docs, key, key(d).value)
      case None =>
      case Some(i) => SoleHolder(docs, key, key(d).value, i);
    }
  }

  /** `save()` of a new document: appended with the next id. */
  lemma InsertWellFormed<T>(docs: seq<Doc<T>>, nextId: DocId, key: T -> Option<string>, d: T)
    requires WellFormed(docs, nextId, key)
    requires !Clashes(docs, key, d, None)
    ensures WellFormed(docs + [Doc(nextId, d)], nextId + 1, key)
  {
    NoClashFree(docs, key, d, None);
    var r := docs + [Doc(nextId, d)];
    forall i, j | 0 <= i < j < |r| && key(r[i].data).Some? ensures key(r[i].data) != key(r[j].data) {
      if j == |docs| {
        assert r[i] == docs[i];
      }
    }
  }

  /** An update in place: the document at `i` keeps its id and gets `d`. */
  lemma PutWellFormed<T>(docs: seq<Doc<T>>, nextId: DocId, key: T -> Option<string>, i: nat, d: T)
    requires WellFormed(docs, nextId, key)
    requires i < |docs|
    requires !Clashes(docs, key, d, Some(i))
    ensures WellFormed(docs[i := Doc(docs[i].id, d)], nextId, key)
  {
    NoClashFree(docs, key, d, Some(i));
  }

  /** A delete: the remaining documents keep their order. */
  lemma DeleteWellFormed<T>(docs: seq<Doc<T>>, nextId: DocId, key: T -> Option<string>, i: nat)
    requires WellFormed(docs, nextId, key)
    requires i < |docs|
    ensures WellFormed(docs[..i] + docs[i + 1..], nextId, key)
  {
    var r := docs[..i] + docs[i + 1..];
    assert forall j :: 0 <= j < |r| ==> r[j] == docs[if j < i then j else j + 1];
  }

  /** Rewriting a document without changing its key never clashes. */
  lemma SameKeyNoClash<T>(docs: seq<Doc<T>>, key: T -> Option<string>, i: nat, d: T)
    requires KeysUnique(docs, key)
    requires i < |docs| && key(d) == key(docs[i].data)
    ensures !Clashes(docs, key, d, Some(i))
  {
    if key(d).Some? {
      assert IndexOfKey(docs, key, key(d).value).Some?;
    }
  }

  /** The data of the documents, in order. */
  function Contents<T>(docs: seq<Doc<T>>): (r: seq<T>)
    ensures |r| == |docs| && forall i :: 0 <= i < |docs| ==> r[i] == docs[i].data
  {
    seq(|docs|, i requires 0 <= i < |docs| => docs[i].data)
  }
}
