/** The current documents as bytes in the key-value table: document entries,
    the denormalised route index, and the scans that read them back. */
module CurrentTable {
  import opened Common
  import opened SyncPlan
  import opened Routing
  import opened Accounting
  import opened Scopes
  import opened Keys
  import opened Codec

  type Table = map<string, string>

  // ------------------------------------------------------------------
  // What the table must hold
  // ------------------------------------------------------------------

  function DocKeyOf(k: ObjectKey): string {
    DocKey(k.objectType, k.objectId)
  }

  function RouteKeysOf(k: ObjectKey, rs: seq<Routes>): set<string> {
    set r | r in rs :: RouteKey(k.objectType, r, k.objectId)
  }

  /** The route index keys written for a document. */
  function IndexKeys(plan: Plan, d: Document): set<string> {
    RouteKeysOf(d.Key(), RequiredRouteIndexes(plan, d.objectType, d.routes))
  }

  function KeysFor(plan: Plan, d: Document): set<string> {
    {DocKeyOf(d.Key())} + IndexKeys(plan, d)
  }

  // A table that files each document under a set of keys, whatever those are.

  type Filing = Document -> set<string>
  type Encoding = Document -> string

  ghost predicate Owned(filing: Filing, docs: Documents, key: string) {
    exists k :: k in docs && key in filing(docs[k])
  }

  /** Every document is stored under each of its keys, and nothing else is stored. */
  ghost predicate Stored(filing: Filing, enc: Encoding, docs: Documents, table: Table) {
    && (forall k, key | k in docs && key in filing(docs[k]) :: key in table && table[key] == enc(docs[k]))
    && (forall key | key in table :: Owned(filing, docs, key))
  }

  /** No other document shares a key with `d`. */
  ghost predicate Apart(filing: Filing, docs: Documents, d: Document) {
    forall k, key | k in docs && k != d.Key() && key in filing(docs[k]) :: key !in filing(d)
  }

  lemma RemovingKeepsStored(filing: Filing, enc: Encoding, docs: Documents, table: Table, k: ObjectKey, table': Table)
    requires Stored(filing, enc, docs, table) && Keyed(docs) && k in docs && Apart(filing, docs, docs[k])
    requires table' == table - filing(docs[k])
    ensures Stored(filing, enc, docs - {k}, table')
  {
    var docs' := docs - {k};
    forall key | key in table'
      ensures Owned(filing, docs', key)
    {
      assert Owned(filing, docs, key);
      var j :| j in docs && key in filing(docs[j]);
      assert j in docs' && docs'[j] == docs[j];
    }
  }

  function Entries(keys: set<string>, value: string): Table {
    map key | key in keys :: value
  }

  lemma AddingKeepsStored(filing: Filing, enc: Encoding, docs: Documents, table: Table, d: Document, table': Table)
    requires Stored(filing, enc, docs, table) && d.Key() !in docs && Apart(filing, docs, d)
    requires table' == table + Entries(filing(d), enc(d))
    ensures Stored(filing, enc, docs[d.Key() := d], table')
  {
    var docs' := docs[d.Key() := d];
    forall key | key in table'
      ensures Owned(filing, docs', key)
    {
      if key in filing(d) {
        assert docs'[d.Key()] == d;
      } else {
        assert Owned(filing, docs, key);
        var j :| j in docs && key in filing(docs[j]);
        assert j in docs' && docs'[j] == docs[j];
      }
    }
  }

  // The service's filing.

  function FilingOf(plan: Plan): Filing {
    d => KeysFor(plan, d)
  }

  function Encoder(): Encoding {
    d => EncodeDocument(d)
  }

  ghost predicate ColonFree(docs: Documents) {
    forall k | k in docs :: ':' !in k.objectType
  }

  /** The table holds exactly the given documents and their route index. */
  ghost predicate Represents(plan: Plan, docs: Documents, table: Table) {
    Keyed(docs) && ColonFree(docs) && Stored(FilingOf(plan), Encoder(), docs, table)
  }

  lemma KeyOfOneDocument(plan: Plan, d: Document, d': Document, key: string)
    requires ':' !in d.objectType && ':' !in d'.objectType && key in KeysFor(plan, d) && key in KeysFor(plan, d')
    ensures d.Key() == d'.Key()
  {
    if key == DocKeyOf(d.Key()) {
      if key == DocKeyOf(d'.Key()) {
        DocKeyInjective(d.objectType, d.objectId, d'.objectType, d'.objectId);
      } else {
        var r :| r in RequiredRouteIndexes(plan, d'.objectType, d'.routes) && key == RouteKey(d'.objectType, r, d'.objectId);
        DocAndRouteKeysDisjoint(d.objectType, d.objectId, d'.objectType, r, d'.objectId);
      }
    } else {
      var r :| r in RequiredRouteIndexes(plan, d.objectType, d.routes) && key == RouteKey(d.objectType, r, d.objectId);
      if key == DocKeyOf(d'.Key()) {
        DocAndRouteKeysDisjoint(d'.objectType, d'.objectId, d.objectType, r, d.objectId);
      } else {
        var r' :| r' in RequiredRouteIndexes(plan, d'.objectType, d'.routes) && key == RouteKey(d'.objectType, r', d'.objectId);
        RouteKeyInjective(d.objectType, r, d.objectId, d'.objectType, r', d'.objectId);
      }
    }
  }

  lemma DocumentsAreApart(plan: Plan, docs: Documents, d: Document)
    requires Keyed(docs) && ColonFree(docs) && ':' !in d.objectType
    ensures Apart(FilingOf(plan), docs, d)
  {
    forall k, key | k in docs && k != d.Key() && key in FilingOf(plan)(docs[k])
      ensures key !in FilingOf(plan)(d)
    {
      if key in KeysFor(plan, d) {
        KeyOfOneDocument(plan, docs[k], d, key);
      }
    }
  }

  lemma RemovingKeepsTable(plan: Plan, docs: Documents, table: Table, k: ObjectKey, table': Table)
    requires Represents(plan, docs, table) && k in docs && table' == table - KeysFor(plan, docs[k])
    ensures Represents(plan, docs - {k}, table')
  {
    DocumentsAreApart(plan, docs, docs[k]);
    RemovingKeepsStored(FilingOf(plan), Encoder(), docs, table, k, table');
  }

  lemma AddingKeepsTable(plan: Plan, docs: Documents, table: Table, d: Document, table': Table)
    requires Represents(plan, docs, table) && d.Key() !in docs && ':' !in d.objectType
    requires table' == table + Entries(KeysFor(plan, d), EncodeDocument(d))
    ensures Represents(plan, docs[d.Key() := d], table')
  {
    DocumentsAreApart(plan, docs, d);
    AddingKeepsStored(FilingOf(plan), Encoder(), docs, table, d, table');
  }

  // ------------------------------------------------------------------
  // What a prefix scan finds
  // ------------------------------------------------------------------

  function Scanned(table: Table, prefix: string): set<string> {
    set key | key in table && StartsWith(key, prefix)
  }

  /** A document key that some document owns is its own document key. */
  lemma DocKeyOwner(plan: Plan, d: Document, t: string, key: string)
    requires ':' !in t && ':' !in d.objectType && key in KeysFor(plan, d) && StartsWith(key, DocPrefix(t))
    ensures d.objectType == t && key == DocKeyOf(d.Key())
  {
    if key != DocKeyOf(d.Key()) {
      var r :| r in RequiredRouteIndexes(plan, d.objectType, d.routes) && key == RouteKey(d.objectType, r, d.objectId);
      DocAndRouteKeysDisjoint(t, "", d.objectType, r, d.objectId);
    } else {
      DocScanExact(t, d.objectType, d.objectId);
    }
  }

  lemma RouteKeyOwner(plan: Plan, d: Document, t: string, c: Routes, key: string)
    requires ':' !in t && ':' !in d.objectType && key in KeysFor(plan, d) && StartsWith(key, RoutePrefix(t, c))
    ensures d.objectType == t && c in RequiredRouteIndexes(plan, t, d.routes) && key == RouteKey(t, c, d.objectId)
  {
    if key == DocKeyOf(d.Key()) {
      DocAndRouteKeysDisjoint(d.objectType, d.objectId, t, c, "");
    } else {
      var r :| r in RequiredRouteIndexes(plan, d.objectType, d.routes) && key == RouteKey(d.objectType, r, d.objectId);
      RouteScanExact(t, c, d.objectType, r, d.objectId);
    }
  }

  ghost predicate OfType(docs: Documents, t: string, key: string, k: ObjectKey) {
    k in docs && k.objectType == t && key == DocKeyOf(k)
  }

  ghost predicate IndexedUnder(plan: Plan, docs: Documents, t: string, c: Routes, key: string, k: ObjectKey) {
    k in docs && k.objectType == t && c in RequiredRouteIndexes(plan, t, docs[k].routes) && key == RouteKey(t, c, k.objectId)
  }

  /** A document scan finds exactly the documents of its type. */
  lemma DocScanFinds(plan: Plan, docs: Documents, table: Table, t: string, key: string)
    requires Represents(plan, docs, table) && ':' !in t
    ensures key in Scanned(table, DocPrefix(t)) <==> exists k :: OfType(docs, t, key, k)
  {
    if key in Scanned(table, DocPrefix(t)) {
      assert Owned(FilingOf(plan), docs, key);
      var k :| k in docs && key in FilingOf(plan)(docs[k]);
      DocKeyOwner(plan, docs[k], t, key);
      assert OfType(docs, t, key, k);
    }
    if k :| OfType(docs, t, key, k) {
      DocEntryIsScanned(plan, docs, table, k);
    }
  }

  lemma DocEntryIsScanned(plan: Plan, docs: Documents, table: Table, k: ObjectKey)
    requires Represents(plan, docs, table) && k in docs
    ensures DocKeyOf(k) in Scanned(table, DocPrefix(k.objectType)) && table[DocKeyOf(k)] == EncodeDocument(docs[k])
  {
  }

  lemma RouteKeyIsFiled(plan: Plan, d: Document, c: Routes)
    requires c in RequiredRouteIndexes(plan, d.objectType, d.routes)
    ensures RouteKey(d.objectType, c, d.objectId) in FilingOf(plan)(d)
  {
  }

  lemma StoredAt(plan: Plan, docs: Documents, table: Table, k: ObjectKey, key: string)
    requires Represents(plan, docs, table) && k in docs && key in FilingOf(plan)(docs[k])
    ensures key in table && table[key] == EncodeDocument(docs[k])
  {
  }

  lemma RouteEntryIsScanned(plan: Plan, docs: Documents, table: Table, c: Routes, k: ObjectKey, key: string)
    requires Represents(plan, docs, table) && k in docs && c in RequiredRouteIndexes(plan, k.objectType, docs[k].routes)
    requires key == RouteKey(k.objectType, c, k.objectId)
    ensures key in table && table[key] == EncodeDocument(docs[k]) && StartsWith(key, RoutePrefix(k.objectType, c))
  {
    assert docs[k].Key() == k;
    RouteKeyIsFiled(plan, docs[k], c);
    StoredAt(plan, docs, table, k, key);
    RouteScanExact(k.objectType, c, k.objectType, c, k.objectId);
  }

  /** A route scan finds exactly the documents indexed under its constraints. */
  lemma RouteScanFinds(plan: Plan, docs: Documents, table: Table, t: string, c: Routes, key: string)
    requires Represents(plan, docs, table) && ':' !in t
    ensures key in Scanned(table, RoutePrefix(t, c)) <==> exists k :: IndexedUnder(plan, docs, t, c, key, k)
  {
    if key in Scanned(table, RoutePrefix(t, c)) {
      assert Owned(FilingOf(plan), docs, key);
      var k :| k in docs && key in FilingOf(plan)(docs[k]);
      RouteKeyOwner(plan, docs[k], t, c, key);
      assert IndexedUnder(plan, docs, t, c, key, k);
    }
    if k :| IndexedUnder(plan, docs, t, c, key, k) {
      RouteEntryIsScanned(plan, docs, table, c, k, key);
    }
  }

  /** The document key behind a route entry, from its key alone. */
  function KeyWithoutDecoding(objectType: string, prefix: string, key: string, value: string): string {
    if StartsWith(value, DOCUMENT_MAGIC) || value == ""
    then DocKey(objectType, if StartsWith(key, prefix) then key[|prefix|..] else "")
    else value
  }

  /** For every stored route entry, the key derived without decoding is the key of the document it decodes to. */
  lemma KeyNeedsNoDecoding(utf8: string -> bool, json: string -> Option<Document>, d: Document, c: Routes)
    requires Encodable(utf8, d)
    ensures var key, value := RouteKey(d.objectType, c, d.objectId), EncodeDocument(d);
            var decoded := DecodeDocument(utf8, json, value);
            decoded.Some? && KeyWithoutDecoding(d.objectType, RoutePrefix(d.objectType, c), key, value) == DocKeyOf(decoded.value.Key())
  {
    DocumentRoundTrip(utf8, json, d);
    var key := RouteKey(d.objectType, c, d.objectId);
    assert key[..|RoutePrefix(d.objectType, c)|] == RoutePrefix(d.objectType, c);
    assert key[|RoutePrefix(d.objectType, c)|..] == d.objectId;
    assert StartsWith(EncodeDocument(d), DOCUMENT_MAGIC);
  }

  function ScopePrefix(objectType: Option<string>): string {
    if objectType.None? then DOC_PREFIX else DocPrefix(objectType.value)
  }

  lemma AnyDocKey(k: ObjectKey)
    ensures StartsWith(DocKeyOf(k), DOC_PREFIX)
  {
  }

  lemma NoRouteKey(t: string, c: Routes, i: string)
    ensures !StartsWith(RouteKey(t, c, i), DOC_PREFIX)
  {
    assert RouteKey(t, c, i)[13] == 'r' && DOC_PREFIX[13] == 'd';
  }

  lemma ScopeOwner(plan: Plan, d: Document, objectType: Option<string>, key: string)
    requires ':' !in d.objectType && (objectType.Some? ==> ':' !in objectType.value)
    requires key in KeysFor(plan, d) && StartsWith(key, ScopePrefix(objectType))
    ensures Cleared(objectType, d.Key()) && key == DocKeyOf(d.Key())
  {
    if objectType.Some? {
      DocKeyOwner(plan, d, objectType.value, key);
    } else if key != DocKeyOf(d.Key()) {
      var r :| r in RequiredRouteIndexes(plan, d.objectType, d.routes) && key == RouteKey(d.objectType, r, d.objectId);
      NoRouteKey(d.objectType, r, d.objectId);
    }
  }

  ghost predicate InScope(docs: Documents, objectType: Option<string>, key: string, k: ObjectKey) {
    k in docs && Cleared(objectType, k) && key == DocKeyOf(k)
  }

  lemma ScopeScanFinds(plan: Plan, docs: Documents, table: Table, objectType: Option<string>, key: string)
    requires Represents(plan, docs, table) && (objectType.Some? ==> ':' !in objectType.value)
    ensures key in Scanned(table, ScopePrefix(objectType)) <==> exists k :: InScope(docs, objectType, key, k)
  {
    if key in Scanned(table, ScopePrefix(objectType)) {
      assert Owned(FilingOf(plan), docs, key);
      var k :| k in docs && key in FilingOf(plan)(docs[k]);
      ScopeOwner(plan, docs[k], objectType, key);
      assert InScope(docs, objectType, key, k);
    }
    if k :| InScope(docs, objectType, key, k) {
      DocEntryIsScanned(plan, docs, table, k);
      AnyDocKey(k);
    }
  }

  // A scan as a listing: a cursor over table keys, and the document behind each.

  /** Visit the keys under a prefix, each once. */
  method CursorScan(table: Table, prefix: string) returns (order: seq<string>)
    ensures Elements(order) == Scanned(table, prefix) && Distinct(order)
  {
    var pending := Scanned(table, prefix);
    order := [];
    while pending != {}
      invariant Elements(order) + pending == Scanned(table, prefix) && Elements(order) * pending == {} && Distinct(order)
      decreases |pending|
    {
      var key :| key in pending;
      CursorMoves(order, pending, key);
      order := order + [key];
      pending := pending - {key};
    }
    assert Elements(order) + {} == Elements(order);
  }

  lemma CursorMoves(order: seq<string>, pending: set<string>, key: string)
    requires Elements(order) * pending == {} && Distinct(order) && key in pending
    ensures Distinct(order + [key]) && Elements(order + [key]) * (pending - {key}) == {}
    ensures Elements(order + [key]) + (pending - {key}) == Elements(order) + pending
  {
  }

  type Reader = string -> Option<Document>

  function ReaderOf(utf8: string -> bool, json: string -> Option<Document>): Reader {
    bytes => DecodeDocument(utf8, json, bytes)
  }

  /** Entry `i` of the cursor belongs to document `ks[i]` and decodes to it; the
      documents are those in scope, once each. */
  ghost predicate Lists(order: seq<string>, ks: seq<ObjectKey>, scope: set<ObjectKey>, table: Table, read: Reader, docs: Documents) {
    && |ks| == |order| && Distinct(ks) && Elements(ks) == scope
    && forall i | 0 <= i < |order| :: EntryReadsBack(read, table, docs, order[i], ks[i])
  }

  ghost predicate EntryReadsBack(read: Reader, table: Table, docs: Documents, key: string, k: ObjectKey) {
    key in table && k in docs && read(table[key]) == Some(docs[k])
  }

  /** Decode every entry of a listing. */
  method DecodeEntries(table: Table, order: seq<string>, read: Reader, ghost ks: seq<ObjectKey>, ghost docs: Documents, ghost scope: set<ObjectKey>)
    returns (found: seq<Document>)
    requires Lists(order, ks, scope, table, read, docs) && Keyed(docs)
    ensures EachOnce(found, docs, scope)
  {
    found := [];
    for i := 0 to |order|
      invariant |found| == i && forall n | 0 <= n < i :: found[n] == docs[ks[n]]
    {
      assert EntryReadsBack(read, table, docs, order[i], ks[i]);
      found := found + [read(table[order[i]]).value];
    }
    ListedEachOnce(found, ks, docs, scope);
  }

  lemma ListedEachOnce(found: seq<Document>, ks: seq<ObjectKey>, docs: Documents, scope: set<ObjectKey>)
    requires Keyed(docs) && Distinct(ks) && Elements(ks) == scope && |found| == |ks|
    requires forall n | 0 <= n < |ks| :: ks[n] in docs && found[n] == docs[ks[n]]
    ensures EachOnce(found, docs, scope)
  {
  }

  lemma DocEntryReadsBack(plan: Plan, utf8: string -> bool, json: string -> Option<Document>, docs: Documents, table: Table, k: ObjectKey)
    requires Represents(plan, docs, table) && k in docs && Encodable(utf8, docs[k])
    ensures EntryReadsBack(ReaderOf(utf8, json), table, docs, DocKeyOf(k), k)
  {
    DocEntryIsScanned(plan, docs, table, k);
    DocumentRoundTrip(utf8, json, docs[k]);
  }

  ghost predicate HasOwner(scope: set<ObjectKey>, entry: ObjectKey -> string, key: string) {
    exists k :: k in scope && entry(k) == key
  }

  ghost function OwnerOf(scope: set<ObjectKey>, entry: ObjectKey -> string, key: string): (k: ObjectKey)
    requires HasOwner(scope, entry, key)
    ensures k in scope && entry(k) == key
  {
    var k :| k in scope && entry(k) == key;
    k
  }

  /** A cursor over exactly the entry keys of the documents in scope is a listing of them. */
  lemma ListingOf(order: seq<string>, scope: set<ObjectKey>, entry: ObjectKey -> string, read: Reader, table: Table, docs: Documents)
    returns (ks: seq<ObjectKey>)
    requires Distinct(order) && forall key :: key in order <==> HasOwner(scope, entry, key)
    requires forall k, j | k in scope && j in scope && entry(k) == entry(j) :: k == j
    requires forall k | k in scope :: EntryReadsBack(read, table, docs, entry(k), k)
    ensures Lists(order, ks, scope, table, read, docs)
    ensures forall i | 0 <= i < |ks| :: entry(ks[i]) == order[i]
  {
    forall i | 0 <= i < |order|
      ensures HasOwner(scope, entry, order[i])
    {
      assert order[i] in order;
    }
    ks := seq(|order|, i requires 0 <= i < |order| && HasOwner(scope, entry, order[i]) => OwnerOf(scope, entry, order[i]));
    forall k | k in scope
      ensures k in ks
    {
      assert entry(k) in order;
      var i :| 0 <= i < |order| && order[i] == entry(k);
      assert ks[i] == k;
    }
    assert Elements(ks) == scope;
  }

  function DocEntry(): ObjectKey -> string {
    k => DocKeyOf(k)
  }

  /** The entries of a document scan list the documents in scope. */
  lemma ScopeListing(plan: Plan, utf8: string -> bool, json: string -> Option<Document>, docs: Documents, table: Table, objectType: Option<string>,
                     order: seq<string>) returns (ks: seq<ObjectKey>)
    requires Represents(plan, docs, table) && (forall k | k in docs :: Encodable(utf8, docs[k]))
    requires objectType.Some? ==> ':' !in objectType.value
    requires Elements(order) == Scanned(table, ScopePrefix(objectType)) && Distinct(order)
    ensures Lists(order, ks, Scope(docs, objectType), table, ReaderOf(utf8, json), docs)
    ensures forall i | 0 <= i < |ks| :: DocEntry()(ks[i]) == order[i]
  {
    var scope := Scope(docs, objectType);
    forall key
      ensures key in order <==> HasOwner(scope, DocEntry(), key)
    {
      assert key in order <==> key in Elements(order);
      ScopeScanFinds(plan, docs, table, objectType, key);
      assert forall k :: InScope(docs, objectType, key, k) <==> k in scope && DocEntry()(k) == key;
    }
    forall k | k in scope
      ensures EntryReadsBack(ReaderOf(utf8, json), table, docs, DocEntry()(k), k)
      ensures forall j | j in scope && DocEntry()(k) == DocEntry()(j) :: k == j
    {
      DocEntryReadsBack(plan, utf8, json, docs, table, k);
      SameDocKey(docs, k);
    }
    ks := ListingOf(order, scope, DocEntry(), ReaderOf(utf8, json), table, docs);
  }

  /** Scan the documents of a type, or all documents: each is found once. */
  method ScanDocuments(plan: Plan, utf8: string -> bool, json: string -> Option<Document>, table: Table, ghost docs: Documents,
                       objectType: Option<string>) returns (found: seq<Document>)
    requires Represents(plan, docs, table) && (forall k | k in docs :: Encodable(utf8, docs[k]))
    requires objectType.Some? ==> ':' !in objectType.value
    ensures Enumerates(found, docs, objectType)
  {
    var order := CursorScan(table, ScopePrefix(objectType));
    ghost var ks := ScopeListing(plan, utf8, json, docs, table, objectType, order);
    found := DecodeEntries(table, order, ReaderOf(utf8, json), ks, docs, Scope(docs, objectType));
  }

  lemma SameDocKey(docs: Documents, k: ObjectKey)
    requires ColonFree(docs) && k in docs
    ensures forall j | j in docs && DocKeyOf(j) == DocKeyOf(k) :: j == k
  {
    forall j | j in docs && DocKeyOf(j) == DocKeyOf(k)
      ensures j == k
    {
      DocKeyInjective(j.objectType, j.objectId, k.objectType, k.objectId);
    }
  }

  // ------------------------------------------------------------------
  // The table object
  // ------------------------------------------------------------------

  class CurrentState {
    const plan: Plan
    const utf8: string -> bool
    const json: string -> Option<Document>
    var table: Table
    ghost var docs: Documents

    ghost predicate Valid()
      reads this
    {
      Represents(plan, docs, table) && forall k | k in docs :: Encodable(utf8, docs[k])
    }

    constructor (p: Plan, valid: string -> bool, legacy: string -> Option<Document>)
      ensures Valid() && plan == p && utf8 == valid && docs == map[] && table == map[]
    {
      plan, utf8, json := p, valid, legacy;
      table, docs := map[], map[];
    }

    /** Delete a list of keys. */
    method DropKeys(keys: seq<string>)
      modifies this`table
      ensures table == old(table) - Elements(keys)
    {
      for i := 0 to |keys|
        invariant table == old(table) - Elements(keys[..i])
      {
        assert keys[..i + 1] == keys[..i] + [keys[i]];
        table := table - {keys[i]};
      }
      assert keys[..|keys|] == keys;
    }

    /** Write one value under a list of keys. */
    method PutKeys(keys: seq<string>, value: string)
      modifies this`table
      ensures table == old(table) + Entries(Elements(keys), value)
    {
      for i := 0 to |keys|
        invariant table == old(table) + Entries(Elements(keys[..i]), value)
      {
        assert keys[..i + 1] == keys[..i] + [keys[i]];
        table := table[keys[i] := value];
      }
      assert keys[..|keys|] == keys;
    }

    method DeleteRouteIndexes(d: Document)
      modifies this`table
      ensures table == old(table) - IndexKeys(plan, d)
    {
      var rs := RequiredRouteIndexes(plan, d.objectType, d.routes);
      KeyListElements(d.Key(), rs);
      DropKeys(KeyList(d.Key(), rs));
    }

    /** Write a document under its key and each of its route keys. */
    method PutWithRouteIndexes(d: Document)
      modifies this`table
      ensures table == old(table) + Entries(KeysFor(plan, d), EncodeDocument(d))
    {
      var encoded, rs := EncodeDocument(d), RequiredRouteIndexes(plan, d.objectType, d.routes);
      KeyListElements(d.Key(), rs);
      ghost var before := table;
      table := table[DocKeyOf(d.Key()) := encoded];
      PutKeys(KeyList(d.Key(), rs), encoded);
      EntriesJoin(before, DocKeyOf(d.Key()), RouteKeysOf(d.Key(), rs), encoded);
    }

    method ReadDocument(k: ObjectKey) returns (d: Option<Document>)
      requires Valid() && ':' !in k.objectType
      ensures d == if k in docs then Some(docs[k]) else None
    {
      var key := DocKeyOf(k);
      DocEntryIffDocument(plan, docs, table, k);
      if k in docs {
        DocumentRoundTrip(utf8, json, docs[k]);
      }
      d := if key in table then DecodeDocument(utf8, json, table[key]) else None;
    }

    /** Put a document. Its previous version, if any, has been read before; its
        stale route entries go first. A document too long to encode is refused. */
    method PutDocument(d: Document, assumeNew: bool, previous: Option<Document>, fits: bool) returns (ok: bool)
      requires Valid() && ':' !in d.objectType && fits == Encodable(utf8, d)
      requires !assumeNew ==> previous == if d.Key() in docs then Some(docs[d.Key()]) else None
      requires assumeNew ==> d.Key() !in docs
      modifies this
      ensures Valid() && ok == fits
      ensures ok ==> docs == old(docs)[d.Key() := d]
      ensures !ok ==> docs == old(docs) && table == old(table)
    {
      if !fits {
        return false;
      }
      ghost var before := table;
      if !assumeNew && previous.Some? {
        DeleteRouteIndexes(previous.value);
      }
      ghost var dropped := table;
      PutWithRouteIndexes(d);
      if d.Key() in docs {
        assert dropped == before - IndexKeys(plan, docs[d.Key()]);
        ReplacingKeepsTable(plan, docs, before, d, table);
      } else {
        AddingKeepsTable(plan, docs, before, d, table);
      }
      docs := docs[d.Key() := d];
      ok := true;
    }

    method DeleteDocument(k: ObjectKey, existing: Option<Document>)
      requires Valid() && ':' !in k.objectType && existing == if k in docs then Some(docs[k]) else None
      modifies this
      ensures Valid() && docs == old(docs) - {k}
    {
      if existing.Some? {
        DeleteRouteIndexes(existing.value);
      }
      table := table - {DocKeyOf(k)};
      if k in docs {
        DeletingKeepsTable(plan, docs, old(table), k, table);
      } else {
        DeletingNothing(plan, docs, old(table), k);
      }
      docs := docs - {k};
    }

    /** Delete every document of a type, or every document, with its route entries. */
    method ClearDocuments(objectType: Option<string>) returns (found: seq<Document>)
      requires Valid() && (objectType.Some? ==> ':' !in objectType.value)
      modifies this
      ensures Valid() && docs == old(docs) - set k | k in old(docs) && Cleared(objectType, k)
      ensures Enumerates(found, old(docs), objectType)
    {
      found := ScanDocuments(plan, utf8, json, table, docs, objectType);
      for i := 0 to |found|
        invariant Valid() && docs == Without(old(docs), found, i)
      {
        WithoutOneMore(old(docs), found, i, objectType);
        DeleteDocument(found[i].Key(), Some(found[i]));
      }
      WithoutAll(old(docs), found, objectType);
    }
  }

  ghost function Without(docs: Documents, found: seq<Document>, n: nat): Documents
    requires n <= |found|
  {
    docs - KeysOf(found[..n])
  }

  lemma WithoutOneMore(docs: Documents, found: seq<Document>, n: nat, objectType: Option<string>)
    requires Enumerates(found, docs, objectType) && n < |found|
    ensures found[n].Key() in Without(docs, found, n) && Without(docs, found, n)[found[n].Key()] == found[n]
    ensures Without(docs, found, n + 1) == Without(docs, found, n) - {found[n].Key()}
  {
  }

  lemma WithoutAll(docs: Documents, found: seq<Document>, objectType: Option<string>)
    requires Enumerates(found, docs, objectType) && Keyed(docs)
    ensures Without(docs, found, |found|) == docs - set k | k in docs && Cleared(objectType, k)
  {
  }

  function KeyList(k: ObjectKey, rs: seq<Routes>): seq<string> {
    seq(|rs|, i requires 0 <= i < |rs| => RouteKey(k.objectType, rs[i], k.objectId))
  }

  lemma KeyListElements(k: ObjectKey, rs: seq<Routes>)
    ensures Elements(KeyList(k, rs)) == RouteKeysOf(k, rs)
  {
    var keys := KeyList(k, rs);
    forall key | key in RouteKeysOf(k, rs)
      ensures key in keys
    {
      var r :| r in rs && key == RouteKey(k.objectType, r, k.objectId);
      var i :| 0 <= i < |rs| && rs[i] == r;
      assert keys[i] == key;
    }
    forall key | key in keys
      ensures key in RouteKeysOf(k, rs)
    {
      var i :| 0 <= i < |keys| && keys[i] == key;
      assert rs[i] in rs;
    }
  }

  lemma EntriesJoin(table: Table, key: string, keys: set<string>, value: string)
    ensures table[key := value] + Entries(keys, value) == table + Entries({key} + keys, value)
  {
  }

  lemma DocEntryIffDocument(plan: Plan, docs: Documents, table: Table, k: ObjectKey)
    requires Represents(plan, docs, table) && ':' !in k.objectType
    ensures DocKeyOf(k) in table <==> k in docs
    ensures k in docs ==> table[DocKeyOf(k)] == EncodeDocument(docs[k])
  {
    var key := DocKeyOf(k);
    DocScanExact(k.objectType, k.objectType, k.objectId);
    DocScanFinds(plan, docs, table, k.objectType, key);
    forall j | OfType(docs, k.objectType, key, j)
      ensures j == k
    {
      DocKeyInjective(k.objectType, k.objectId, j.objectType, j.objectId);
    }
    if k in docs {
      DocEntryIsScanned(plan, docs, table, k);
    }
  }

  lemma ReplacingKeepsStored(filing: Filing, enc: Encoding, docs: Documents, table: Table, d: Document, key: string, stale: set<string>, table': Table)
    requires Stored(filing, enc, docs, table) && Keyed(docs) && d.Key() in docs
    requires Apart(filing, docs, docs[d.Key()]) && Apart(filing, docs, d)
    requires filing(docs[d.Key()]) == {key} + stale && key in filing(d)
    requires table' == (table - stale) + Entries(filing(d), enc(d))
    ensures Stored(filing, enc, docs[d.Key() := d], table')
  {
    var k := d.Key();
    var rest, others := table - filing(docs[k]), docs - {k};
    RemovingKeepsStored(filing, enc, docs, table, k, rest);
    assert table' == rest + Entries(filing(d), enc(d));
    assert forall j | j in others :: others[j] == docs[j];
    AddingKeepsStored(filing, enc, others, rest, d, table');
    assert others[k := d] == docs[k := d];
  }

  /** Overwriting a document after dropping its old route entries. */
  lemma ReplacingKeepsTable(plan: Plan, docs: Documents, table: Table, d: Document, table': Table)
    requires Represents(plan, docs, table) && ':' !in d.objectType && d.Key() in docs
    requires table' == (table - IndexKeys(plan, docs[d.Key()])) + Entries(KeysFor(plan, d), EncodeDocument(d))
    ensures Represents(plan, docs[d.Key() := d], table')
  {
    var k := d.Key();
    DocumentsAreApart(plan, docs, docs[k]);
    DocumentsAreApart(plan, docs, d);
    ReplacingKeepsStored(FilingOf(plan), Encoder(), docs, table, d, DocKeyOf(k), IndexKeys(plan, docs[k]), table');
  }

  lemma DeletingKeepsTable(plan: Plan, docs: Documents, table: Table, k: ObjectKey, table': Table)
    requires Represents(plan, docs, table) && k in docs
    requires table' == table - IndexKeys(plan, docs[k]) - {DocKeyOf(k)}
    ensures Represents(plan, docs - {k}, table')
  {
    assert docs[k].Key() == k;
    assert table' == table - KeysFor(plan, docs[k]);
    RemovingKeepsTable(plan, docs, table, k, table');
  }

  lemma DeletingNothing(plan: Plan, docs: Documents, table: Table, k: ObjectKey)
    requires Represents(plan, docs, table) && ':' !in k.objectType && k !in docs
    ensures table - {DocKeyOf(k)} == table && docs - {k} == docs
  {
    DocEntryIffDocument(plan, docs, table, k);
  }
}
