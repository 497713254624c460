/** Reading the current documents of a bucket: route scans, and the bounded
    collection that visits several queries, skips documents already seen and
    never decodes more bytes than its budget. */
module CurrentScans {
  import opened Common
  import opened SyncPlan
  import opened Accounting
  import opened Scopes
  import opened Keys
  import opened Codec
  import opened CurrentTable

  // ------------------------------------------------------------------
  // Route scans
  // ------------------------------------------------------------------

  function RouteEntry(t: string, c: Routes): ObjectKey -> string {
    (k: ObjectKey) => RouteKey(t, c, k.objectId)
  }

  lemma RouteEntryReadsBack(plan: Plan, utf8: string -> bool, json: string -> Option<Document>, docs: Documents, table: Table, t: string, c: Routes, k: ObjectKey)
    requires Represents(plan, docs, table) && k in RouteScope(plan, docs, t, c) && Encodable(utf8, docs[k])
    ensures EntryReadsBack(ReaderOf(utf8, json), table, docs, RouteEntry(t, c)(k), k)
    ensures table[RouteEntry(t, c)(k)] == EncodeDocument(docs[k])
  {
    RouteEntryIsScanned(plan, docs, table, c, k, RouteKey(t, c, k.objectId));
    DocumentRoundTrip(utf8, json, docs[k]);
  }

  lemma SameRouteKey(t: string, c: Routes, k: ObjectKey, j: ObjectKey)
    requires ':' !in t && k.objectType == t && j.objectType == t && RouteEntry(t, c)(k) == RouteEntry(t, c)(j)
    ensures k == j
  {
    RouteKeyInjective(t, c, k.objectId, t, c, j.objectId);
  }

  /** The entries of a route scan list the documents indexed under its constraints. */
  lemma RouteListing(plan: Plan, utf8: string -> bool, json: string -> Option<Document>, docs: Documents, table: Table, t: string, c: Routes,
                     order: seq<string>) returns (ks: seq<ObjectKey>)
    requires Represents(plan, docs, table) && (forall k | k in docs :: Encodable(utf8, docs[k])) && ':' !in t
    requires Elements(order) == Scanned(table, RoutePrefix(t, c)) && Distinct(order)
    ensures Lists(order, ks, RouteScope(plan, docs, t, c), table, ReaderOf(utf8, json), docs)
    ensures forall i | 0 <= i < |ks| :: RouteEntry(t, c)(ks[i]) == order[i]
  {
    var scope, entry := RouteScope(plan, docs, t, c), RouteEntry(t, c);
    forall key
      ensures key in order <==> HasOwner(scope, entry, key)
    {
      assert key in order <==> key in Elements(order);
      RouteScanFinds(plan, docs, table, t, c, key);
      assert forall k :: IndexedUnder(plan, docs, t, c, key, k) <==> k in scope && entry(k) == key;
    }
    forall k, j | k in scope && j in scope && entry(k) == entry(j)
      ensures k == j
    {
      SameRouteKey(t, c, k, j);
    }
    forall k | k in scope
      ensures EntryReadsBack(ReaderOf(utf8, json), table, docs, entry(k), k)
    {
      RouteEntryReadsBack(plan, utf8, json, docs, table, t, c, k);
    }
    ks := ListingOf(order, scope, entry, ReaderOf(utf8, json), table, docs);
  }

  /** A route scan yields exactly the documents indexed under its constraints, once each. */
  method ScanRoute(plan: Plan, utf8: string -> bool, json: string -> Option<Document>, table: Table, ghost docs: Documents, t: string, c: Routes)
    returns (found: seq<Document>)
    requires Represents(plan, docs, table) && (forall k | k in docs :: Encodable(utf8, docs[k])) && ':' !in t
    ensures EachOnce(found, docs, RouteScope(plan, docs, t, c))
  {
    var order := CursorScan(table, RoutePrefix(t, c));
    ghost var ks := RouteListing(plan, utf8, json, docs, table, t, c, order);
    found := DecodeEntries(table, order, ReaderOf(utf8, json), ks, docs, RouteScope(plan, docs, t, c));
  }

  // ------------------------------------------------------------------
  // Bounded collection
  // ------------------------------------------------------------------

  /** Document keys seen, documents found, and bytes left to read. */
  datatype Progress = Progress(seen: set<string>, found: Documents, left: nat)

  /** What is found are current documents, and exactly their keys have been seen. */
  ghost predicate Tracks(p: Progress, docs: Documents, id: ObjectKey -> string) {
    && (forall k | k in p.found :: k in docs && docs[k] == p.found[k])
    && (forall key :: key in p.seen <==> exists k :: k in p.found && id(k) == key)
  }

  function Restrict(docs: Documents, scope: set<ObjectKey>): Documents {
    map k | k in docs && k in scope :: docs[k]
  }

  /** Bytes needed for the documents of a scope that are not known yet. */
  ghost function Needed(size: ObjectKey -> int, scope: set<ObjectKey>, known: set<ObjectKey>): int {
    Sum(size, scope - known)
  }

  lemma NeededGrows(size: ObjectKey -> int, scope: set<ObjectKey>, known: set<ObjectKey>, k: ObjectKey)
    requires k !in scope
    ensures Needed(size, scope + {k}, known) == Needed(size, scope, known) + (if k in known then 0 else size(k))
  {
    if k in known {
      assert scope + {k} - known == scope - known;
    } else {
      SumExtract(size, scope + {k} - known, k);
      assert scope + {k} - known - {k} == scope - known;
    }
  }

  lemma NeededIsMonotone(size: ObjectKey -> int, part: set<ObjectKey>, scope: set<ObjectKey>, known: set<ObjectKey>)
    requires part <= scope && forall k | k in scope :: size(k) >= 0
    ensures Needed(size, part, known) <= Needed(size, scope, known)
  {
    SumSubset(size, part - known, scope - known);
  }

  /** Where the loop stands once the documents `done` have been visited. */
  ghost predicate Visited(p: Progress, p': Progress, docs: Documents, size: ObjectKey -> int, done: set<ObjectKey>) {
    p'.found == p.found + Restrict(docs, done) && p'.left == p.left - Needed(size, done, p.found.Keys)
  }

  lemma VisitKnown(p: Progress, p': Progress, docs: Documents, size: ObjectKey -> int, done: set<ObjectKey>, k: ObjectKey)
    requires Visited(p, p', docs, size, done) && k !in done && k in docs && k in p.found && p.found[k] == docs[k]
    ensures Visited(p, p', docs, size, done + {k})
  {
    NeededGrows(size, done, p.found.Keys, k);
    assert p.found + Restrict(docs, done + {k}) == p.found + Restrict(docs, done);
  }

  lemma VisitNew(p: Progress, p': Progress, docs: Documents, size: ObjectKey -> int, done: set<ObjectKey>, k: ObjectKey, id: ObjectKey -> string)
    requires Visited(p, p', docs, size, done) && Tracks(p', docs, id) && k !in done && k in docs && k !in p.found
    requires 0 <= size(k) <= p'.left
    ensures var p'' := Progress(p'.seen + {id(k)}, p'.found[k := docs[k]], p'.left - size(k));
            Visited(p, p'', docs, size, done + {k}) && Tracks(p'', docs, id)
  {
    NeededGrows(size, done, p.found.Keys, k);
    var p'' := Progress(p'.seen + {id(k)}, p'.found[k := docs[k]], p'.left - size(k));
    assert p''.found == p.found + Restrict(docs, done + {k});
    forall key
      ensures key in p''.seen <==> exists j :: j in p''.found && id(j) == key
    {
      if key in p'.seen {
        var j :| j in p'.found && id(j) == key;
        assert j in p''.found;
      }
      if key == id(k) {
        assert k in p''.found;
      }
    }
  }

  /** One entry: skip it if its document was seen, pay for its bytes before decoding it otherwise. */
  method CollectOne(documentKey: string, value: string, read: Reader, p': Progress,
                    ghost p: Progress, ghost docs: Documents, ghost done: set<ObjectKey>, ghost k: ObjectKey,
                    ghost id: ObjectKey -> string, ghost size: ObjectKey -> int)
    returns (ok: bool, p'': Progress)
    requires Visited(p, p', docs, size, done) && Tracks(p', docs, id) && k !in done && k in docs && docs[k].Key() == k
    requires documentKey == id(k) && |value| == size(k) && read(value) == Some(docs[k])
    requires forall j, j' | j in docs && j' in docs && id(j) == id(j') :: j == j'
    ensures ok ==> Visited(p, p'', docs, size, done + {k}) && Tracks(p'', docs, id)
    ensures !ok ==> k !in p.found && size(k) > p'.left
  {
    SeenIffKnown(p, p', docs, size, done, k, id);
    if documentKey in p'.seen {
      VisitKnown(p, p', docs, size, done, k);
      return true, p';
    }
    if |value| > p'.left {
      return false, p';
    }
    VisitNew(p, p', docs, size, done, k, id);
    var d := read(value).value;
    ok, p'' := true, Progress(p'.seen + {documentKey}, p'.found[d.Key() := d], p'.left - |value|);
  }

  /** The loop shared by both bounded scans. It succeeds exactly when the bytes
      of the documents not yet seen fit the budget, and then has found them all. */
  method CollectEntries(table: Table, order: seq<string>, read: Reader, name: (string, string) -> string, p: Progress,
                        ghost ks: seq<ObjectKey>, ghost docs: Documents, ghost scope: set<ObjectKey>,
                        ghost id: ObjectKey -> string, ghost size: ObjectKey -> int)
    returns (ok: bool, p': Progress)
    requires Lists(order, ks, scope, table, read, docs) && Keyed(docs) && Tracks(p, docs, id)
    requires forall i | 0 <= i < |order| :: name(order[i], table[order[i]]) == id(ks[i]) && |table[order[i]]| == size(ks[i])
    requires forall k, j | k in docs && j in docs && id(k) == id(j) :: k == j
    ensures ok <==> Needed(size, scope, p.found.Keys) <= p.left
    ensures ok ==> Visited(p, p', docs, size, scope) && Tracks(p', docs, id)
  {
    p' := p;
    NothingVisited(p, docs, size, ks);
    for i := 0 to |order|
      invariant Tracks(p', docs, id) && Visited(p, p', docs, size, Elements(ks[..i]))
    {
      var value := table[order[i]];
      ghost var before := p';
      OneMoreListed(ks, i);
      assert EntryReadsBack(read, table, docs, order[i], ks[i]);
      ok, p' := CollectOne(name(order[i], value), value, read, p', p, docs, Elements(ks[..i]), ks[i], id, size);
      if !ok {
        SizesAreNatural(order, ks, scope, table, size);
        OverBudget(p, before, docs, size, Elements(ks[..i]), scope, ks[i]);
        return;
      }
    }
    assert ks[..|order|] == ks;
    ok := true;
  }

  lemma OneMoreListed(ks: seq<ObjectKey>, i: nat)
    requires i < |ks| && Distinct(ks)
    ensures Elements(ks[..i + 1]) == Elements(ks[..i]) + {ks[i]} && ks[i] !in Elements(ks[..i]) && Elements(ks[..i]) <= Elements(ks)
    ensures ks[i] in Elements(ks)
  {
  }

  lemma SizesAreNatural(order: seq<string>, ks: seq<ObjectKey>, scope: set<ObjectKey>, table: Table, size: ObjectKey -> int)
    requires |ks| == |order| && Elements(ks) == scope
    requires forall i | 0 <= i < |order| :: order[i] in table && |table[order[i]]| == size(ks[i])
    ensures forall k | k in scope :: size(k) >= 0
  {
  }

  lemma NothingVisited(p: Progress, docs: Documents, size: ObjectKey -> int, ks: seq<ObjectKey>)
    ensures Visited(p, p, docs, size, Elements(ks[..0]))
  {
  }

  lemma SeenIffKnown(p: Progress, p': Progress, docs: Documents, size: ObjectKey -> int, done: set<ObjectKey>, k: ObjectKey, id: ObjectKey -> string)
    requires Visited(p, p', docs, size, done) && Tracks(p', docs, id) && k !in done && k in docs
    requires forall j, j' | j in docs && j' in docs && id(j) == id(j') :: j == j'
    ensures id(k) in p'.seen <==> k in p.found
    ensures k in p.found ==> p.found[k] == docs[k]
  {
  }

  lemma OverBudget(p: Progress, p': Progress, docs: Documents, size: ObjectKey -> int, done: set<ObjectKey>, scope: set<ObjectKey>, k: ObjectKey)
    requires Visited(p, p', docs, size, done) && done <= scope && k in scope && k !in done && k !in p.found && size(k) > p'.left
    requires forall j | j in scope :: size(j) >= 0
    ensures Needed(size, scope, p.found.Keys) > p.left
  {
    NeededGrows(size, done, p.found.Keys, k);
    NeededIsMonotone(size, done + {k}, scope, p.found.Keys);
  }

  // ------------------------------------------------------------------
  // One bucket
  // ------------------------------------------------------------------

  ghost function SizeIn(docs: Documents): ObjectKey -> int {
    k => if k in docs then |EncodeDocument(docs[k])| else 0
  }

  function PlainName(): (string, string) -> string {
    (key, value) => key
  }

  function RouteName(t: string, prefix: string): (string, string) -> string {
    (key, value) => KeyWithoutDecoding(t, prefix, key, value)
  }

  ghost predicate Usable(plan: Plan, utf8: string -> bool, docs: Documents, table: Table) {
    Represents(plan, docs, table) && forall k | k in docs :: Encodable(utf8, docs[k])
  }

  lemma DocKeysIdentify(docs: Documents)
    requires ColonFree(docs)
    ensures forall k, j | k in docs && j in docs && DocEntry()(k) == DocEntry()(j) :: k == j
  {
    forall k, j | k in docs && j in docs && DocEntry()(k) == DocEntry()(j)
      ensures k == j
    {
      SameDocKey(docs, k);
    }
  }

  lemma DocEntryFacts(plan: Plan, docs: Documents, table: Table, k: ObjectKey)
    requires Represents(plan, docs, table) && k in docs
    ensures DocEntry()(k) in table && |table[DocEntry()(k)]| == SizeIn(docs)(k)
  {
    DocEntryIsScanned(plan, docs, table, k);
  }

  /** Collect the documents of a type. */
  method CollectType(plan: Plan, utf8: string -> bool, json: string -> Option<Document>, table: Table, t: string, p: Progress, ghost docs: Documents)
    returns (ok: bool, p': Progress)
    requires Usable(plan, utf8, docs, table) && ':' !in t && Tracks(p, docs, DocEntry())
    ensures ok <==> Needed(SizeIn(docs), Scope(docs, Some(t)), p.found.Keys) <= p.left
    ensures ok ==> Visited(p, p', docs, SizeIn(docs), Scope(docs, Some(t))) && Tracks(p', docs, DocEntry())
  {
    var order := CursorScan(table, ScopePrefix(Some(t)));
    ghost var ks := ScopeListing(plan, utf8, json, docs, table, Some(t), order);
    forall i | 0 <= i < |order|
      ensures PlainName()(order[i], table[order[i]]) == DocEntry()(ks[i]) && |table[order[i]]| == SizeIn(docs)(ks[i])
    {
      assert EntryReadsBack(ReaderOf(utf8, json), table, docs, order[i], ks[i]);
      DocEntryFacts(plan, docs, table, ks[i]);
    }
    DocKeysIdentify(docs);
    ok, p' := CollectEntries(table, order, ReaderOf(utf8, json), PlainName(), p, ks, docs, Scope(docs, Some(t)), DocEntry(), SizeIn(docs));
  }

  lemma RouteEntryFacts(plan: Plan, utf8: string -> bool, json: string -> Option<Document>, docs: Documents, table: Table, t: string, c: Routes, k: ObjectKey)
    requires Usable(plan, utf8, docs, table) && k in RouteScope(plan, docs, t, c)
    ensures var key := RouteEntry(t, c)(k);
            key in table && RouteName(t, RoutePrefix(t, c))(key, table[key]) == DocEntry()(k) && |table[key]| == SizeIn(docs)(k)
  {
    assert docs[k].Key() == k;
    RouteEntryReadsBack(plan, utf8, json, docs, table, t, c, k);
    KeyNeedsNoDecoding(utf8, json, docs[k], c);
    DocumentRoundTrip(utf8, json, docs[k]);
  }

  /** Collect the documents indexed under constraint values. */
  method CollectRoute(plan: Plan, utf8: string -> bool, json: string -> Option<Document>, table: Table, t: string, c: Routes, p: Progress,
                      ghost docs: Documents) returns (ok: bool, p': Progress)
    requires Usable(plan, utf8, docs, table) && ':' !in t && Tracks(p, docs, DocEntry())
    ensures ok <==> Needed(SizeIn(docs), RouteScope(plan, docs, t, c), p.found.Keys) <= p.left
    ensures ok ==> Visited(p, p', docs, SizeIn(docs), RouteScope(plan, docs, t, c)) && Tracks(p', docs, DocEntry())
  {
    var prefix := RoutePrefix(t, c);
    var order := CursorScan(table, prefix);
    ghost var ks := RouteListing(plan, utf8, json, docs, table, t, c, order);
    ghost var scope := RouteScope(plan, docs, t, c);
    forall i | 0 <= i < |order|
      ensures RouteName(t, prefix)(order[i], table[order[i]]) == DocEntry()(ks[i]) && |table[order[i]]| == SizeIn(docs)(ks[i])
    {
      assert EntryReadsBack(ReaderOf(utf8, json), table, docs, order[i], ks[i]);
      assert ks[i] in Elements(ks);
      RouteEntryFacts(plan, utf8, json, docs, table, t, c, ks[i]);
    }
    DocKeysIdentify(docs);
    ok, p' := CollectEntries(table, order, ReaderOf(utf8, json), RouteName(t, prefix), p, ks, docs, scope, DocEntry(), SizeIn(docs));
  }

  method CollectQuery(plan: Plan, utf8: string -> bool, json: string -> Option<Document>, table: Table, q: Query, p: Progress, ghost docs: Documents)
    returns (ok: bool, p': Progress)
    requires Usable(plan, utf8, docs, table) && ':' !in q.objectType && Tracks(p, docs, DocEntry())
    ensures ok <==> Needed(SizeIn(docs), QueryScope(plan, docs, q), p.found.Keys) <= p.left
    ensures ok ==> Visited(p, p', docs, SizeIn(docs), QueryScope(plan, docs, q)) && Tracks(p', docs, DocEntry())
  {
    if q.constraints == map[] {
      ok, p' := CollectType(plan, utf8, json, table, q.objectType, p, docs);
    } else {
      ok, p' := CollectRoute(plan, utf8, json, table, q.objectType, q.constraints, p, docs);
    }
  }

  lemma VisitedChains(p: Progress, p': Progress, p'': Progress, docs: Documents, size: ObjectKey -> int, a: set<ObjectKey>, b: set<ObjectKey>)
    requires Visited(p, p', docs, size, a) && Visited(p', p'', docs, size, b) && a <= docs.Keys
    ensures Visited(p, p'', docs, size, a + b)
  {
    assert p.found + Restrict(docs, a) + Restrict(docs, b) == p.found + Restrict(docs, a + b);
    assert p'.found.Keys == p.found.Keys + a;
    assert (a + b) - p.found.Keys == (a - p.found.Keys) + (b - p'.found.Keys);
    SumSplits(size, a - p.found.Keys, b - p'.found.Keys);
  }

  lemma {:induction false} SumSplits<T(!new)>(f: T -> int, a: set<T>, b: set<T>)
    requires a * b == {}
    ensures Sum(f, a + b) == Sum(f, a) + Sum(f, b)
    decreases a
  {
    if a == {} {
      assert a + b == b;
    } else {
      var x :| x in a;
      SumExtract(f, a, x);
      SumExtract(f, a + b, x);
      SumSplits(f, a - {x}, b);
      assert a + b - {x} == (a - {x}) + b;
    }
  }

  lemma {:induction false} ScopeGrows(plan: Plan, docs: Documents, qs: seq<Query>, n: nat)
    requires n <= |qs|
    ensures BucketScope(plan, docs, qs[..n]) <= BucketScope(plan, docs, qs)
    decreases |qs|
  {
    if n < |qs| {
      ScopeGrows(plan, docs, qs[..|qs| - 1], n);
      assert qs[..|qs| - 1][..n] == qs[..n];
    } else {
      assert qs[..n] == qs;
    }
  }

  /** If one query's new documents exceed what is left, all documents exceed the budget. */
  lemma OverInAll(plan: Plan, docs: Documents, qs: seq<Query>, i: nat, start: Progress, p: Progress)
    requires i < |qs| && start.found == map[] && Visited(start, p, docs, SizeIn(docs), BucketScope(plan, docs, qs[..i]))
    requires Needed(SizeIn(docs), QueryScope(plan, docs, qs[i]), p.found.Keys) > p.left
    ensures Sum(SizeIn(docs), BucketScope(plan, docs, qs)) > start.left
  {
    var size, done, more := SizeIn(docs), BucketScope(plan, docs, qs[..i]), QueryScope(plan, docs, qs[i]);
    BucketScopeIsKnown(plan, docs, qs[..i]);
    FoundIsScope(start, p, docs, size, done);
    assert p.found.Keys == done;
    SumSplits(size, done, more - done);
    ScopeGrows(plan, docs, qs, i);
    InBucketScope(plan, docs, qs, i);
    SumSubset(size, done + (more - done), BucketScope(plan, docs, qs));
  }

  /** Read the current documents of a bucket, query by query, within one byte
      budget: it succeeds exactly when the documents in scope, each read once,
      fit the budget, and then all of them are found. */
  method GatherBucket(plan: Plan, utf8: string -> bool, json: string -> Option<Document>, table: Table, b: Bucket, budget: nat, ghost docs: Documents)
    returns (ok: bool, p: Progress)
    requires Usable(plan, utf8, docs, table) && forall q | q in b.queries :: ':' !in q.objectType
    ensures ok <==> Sum(SizeIn(docs), BucketScope(plan, docs, b.queries)) <= budget
    ensures ok ==> p.found == Restrict(docs, BucketScope(plan, docs, b.queries))
  {
    p := Progress({}, map[], budget);
    ghost var start := p;
    Begins(plan, docs, b.queries, start);
    for i := 0 to |b.queries|
      invariant Covers(plan, docs, b.queries, i, start, p)
    {
      ghost var before := p;
      ok, p := CollectQuery(plan, utf8, json, table, b.queries[i], p, docs);
      if !ok {
        OverInAll(plan, docs, b.queries, i, start, before);
        return;
      }
      CoversOneMore(plan, docs, b.queries, i, start, before, p);
    }
    assert b.queries[..|b.queries|] == b.queries;
    ok := true;
    FoundIsScope(start, p, docs, SizeIn(docs), BucketScope(plan, docs, b.queries));
  }

  /** The first `n` queries have been visited. */
  ghost predicate Covers(plan: Plan, docs: Documents, qs: seq<Query>, n: nat, start: Progress, p: Progress)
    requires n <= |qs|
  {
    Tracks(p, docs, DocEntry()) && Visited(start, p, docs, SizeIn(docs), BucketScope(plan, docs, qs[..n]))
  }

  lemma Begins(plan: Plan, docs: Documents, qs: seq<Query>, start: Progress)
    requires start.seen == {} && start.found == map[]
    ensures Covers(plan, docs, qs, 0, start, start)
  {
  }

  lemma CoversOneMore(plan: Plan, docs: Documents, qs: seq<Query>, n: nat, start: Progress, p: Progress, p': Progress)
    requires n < |qs| && Covers(plan, docs, qs, n, start, p)
    requires Visited(p, p', docs, SizeIn(docs), QueryScope(plan, docs, qs[n])) && Tracks(p', docs, DocEntry())
    ensures Covers(plan, docs, qs, n + 1, start, p')
  {
    assert qs[..n + 1][..n] == qs[..n];
    BucketScopeIsKnown(plan, docs, qs[..n]);
    VisitedChains(start, p, p', docs, SizeIn(docs), BucketScope(plan, docs, qs[..n]), QueryScope(plan, docs, qs[n]));
  }

  lemma FoundIsScope(start: Progress, p: Progress, docs: Documents, size: ObjectKey -> int, scope: set<ObjectKey>)
    requires Visited(start, p, docs, size, scope) && start.found == map[]
    ensures p.found == Restrict(docs, scope) && Sum(size, scope) == start.left - p.left
  {
    assert scope - {} == scope;
    assert start.found.Keys == {};
  }

  lemma {:induction false} InBucketScope(plan: Plan, docs: Documents, qs: seq<Query>, i: nat)
    requires i < |qs|
    ensures QueryScope(plan, docs, qs[i]) <= BucketScope(plan, docs, qs)
    decreases |qs|
  {
    if i < |qs| - 1 {
      InBucketScope(plan, docs, qs[..|qs| - 1], i);
    }
  }
}
