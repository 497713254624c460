/** Derivation of sync operations from row changes, and when the documents they
    build mirror the source tables. Row reading is opaque. */
module Derive {
  import opened Common
  import opened SyncPlan
  import opened Accounting
  import opened Serving
  import opened Routing
  import opened Conservation

  type Row = string

  datatype RowChange =
    | Insert(schema: string, table: string, after: Row)
    | Update(schema: string, table: string, before: Option<Row>, after: Row)
    | Delete(schema: string, table: string, removed: Row)
    | TruncateTables(tables: seq<string>)
    | Other

  datatype Error = CorruptBatch | TruncateOnMaterializedTable

  /** What the plan knows about tables: the object type of a materialised table,
      lookup tables, and a row's id, route fields (strict or not) and JSON. */
  datatype Rules = Rules(
    objectType: string -> Option<string>,
    lookup: string -> bool,
    id: (string, Row) -> Option<string>,
    routes: (string, Row, bool) -> Option<Routes>,
    json: (string, Row) -> Option<string>)

  const PUBLIC: string := "public"

  function PutFor(rules: Rules, table: string, objectType: string, row: Row, assumeNew: bool): Result<SyncOp, Error> {
    if rules.id(table, row).None? || rules.routes(table, row, true).None? || rules.json(table, row).None? then Err(CorruptBatch)
    else Ok(Put(Document(objectType, rules.id(table, row).value, rules.routes(table, row, true).value, rules.json(table, row).value), assumeNew))
  }

  function RemoveFor(rules: Rules, table: string, objectType: string, row: Row): Result<SyncOp, Error> {
    if rules.id(table, row).None? || rules.routes(table, row, false).None? then Err(CorruptBatch)
    else Ok(Remove(ObjectKey(objectType, rules.id(table, row).value), rules.routes(table, row, false).value))
  }

  /** The table of a qualified name in the public schema. */
  function PublicTable(name: string): Option<string> {
    if "public." <= name then Some(name[|"public."|..]) else None
  }

  predicate Materialized(rules: Rules, table: string) {
    rules.objectType(table).Some? || rules.lookup(table)
  }

  predicate TruncatesMaterialized(rules: Rules, names: seq<string>) {
    exists i | 0 <= i < |names| :: PublicTable(names[i]).Some? && Materialized(rules, PublicTable(names[i]).value)
  }

  function One(op: Result<SyncOp, Error>): Result<seq<SyncOp>, Error> {
    match op
    case Err(e) => Err(e)
    case Ok(o) => Ok([o])
  }

  /** The operations of one change; an update whose old row is known removes it first. */
  function OpsFor(rules: Rules, c: RowChange, assumeNew: bool): Result<seq<SyncOp>, Error> {
    match c
    case Insert(schema, table, row) =>
      if schema != PUBLIC || rules.objectType(table).None? then Ok([])
      else One(PutFor(rules, table, rules.objectType(table).value, row, assumeNew))
    case Update(schema, table, before, after) =>
      if schema != PUBLIC || rules.objectType(table).None? then Ok([])
      else
        var t := rules.objectType(table).value;
        var removes := if before.None? then Ok([]) else One(RemoveFor(rules, table, t, before.value));
        if removes.Err? then removes
        else (match PutFor(rules, table, t, after, false)
              case Err(e) => Err(e)
              case Ok(put) => Ok(removes.value + [put]))
    case Delete(schema, table, removed) =>
      if schema != PUBLIC || rules.objectType(table).None? then Ok([])
      else One(RemoveFor(rules, table, rules.objectType(table).value, removed))
    case TruncateTables(names) => if TruncatesMaterialized(rules, names) then Err(TruncateOnMaterializedTable) else Ok([])
    case Other => Ok([])
  }

  /** The operations of a commit batch, in order; the first error ends it. */
  function Derived(rules: Rules, cs: seq<RowChange>, assumeNew: bool): Result<seq<SyncOp>, Error> {
    if cs == [] then Ok([])
    else match Derived(rules, cs[..|cs| - 1], assumeNew)
      case Err(e) => Err(e)
      case Ok(ops) =>
        match OpsFor(rules, cs[|cs| - 1], assumeNew)
        case Err(e) => Err(e)
        case Ok(more) => Ok(ops + more)
  }

  method MeetsMaterialized(rules: Rules, names: seq<string>) returns (meets: bool)
    ensures meets == TruncatesMaterialized(rules, names)
  {
    for i := 0 to |names|
      invariant forall n | 0 <= n < i :: !(PublicTable(names[n]).Some? && Materialized(rules, PublicTable(names[n]).value))
    {
      var table := PublicTable(names[i]);
      if table.Some? && Materialized(rules, table.value) {
        return true;
      }
    }
    meets := false;
  }

  /** The service's loop over the changes of a batch. */
  method DeriveSyncTailOps(rules: Rules, cs: seq<RowChange>, assumeNew: bool) returns (r: Result<seq<SyncOp>, Error>)
    ensures r == Derived(rules, cs, assumeNew)
  {
    var ops: seq<SyncOp> := [];
    assert cs[..0] == [];
    for i := 0 to |cs|
      invariant Derived(rules, cs[..i], assumeNew) == Ok(ops)
    {
      assert cs[..i + 1][..i] == cs[..i];
      var more := DeriveOne(rules, cs[i], assumeNew);
      if more.Err? {
        PrefixFails(rules, cs, assumeNew, i + 1);
        return Err(more.error);
      }
      ops := ops + more.value;
    }
    assert cs[..|cs|] == cs;
    r := Ok(ops);
  }

  method DeriveOne(rules: Rules, c: RowChange, assumeNew: bool) returns (r: Result<seq<SyncOp>, Error>)
    ensures r == OpsFor(rules, c, assumeNew)
  {
    if c.TruncateTables? {
      var meets := MeetsMaterialized(rules, c.tables);
      return if meets then Err(TruncateOnMaterializedTable) else Ok([]);
    }
    if c.Other? || c.schema != PUBLIC || rules.objectType(c.table).None? {
      return Ok([]);
    }
    var objectType, ops: seq<SyncOp> := rules.objectType(c.table).value, [];
    if c.Delete? || (c.Update? && c.before.Some?) {
      var remove := RemoveFor(rules, c.table, objectType, if c.Delete? then c.removed else c.before.value);
      if remove.Err? {
        return Err(remove.error);
      }
      ops := [remove.value];
    }
    if !c.Delete? {
      var put := PutFor(rules, c.table, objectType, c.after, if c.Insert? then assumeNew else false);
      if put.Err? {
        return Err(put.error);
      }
      assert [] + [put.value] == [put.value];
      ops := ops + [put.value];
    }
    r := Ok(ops);
  }

  lemma {:induction false} PrefixFails(rules: Rules, cs: seq<RowChange>, assumeNew: bool, n: nat)
    requires n <= |cs| && Derived(rules, cs[..n], assumeNew).Err?
    ensures Derived(rules, cs, assumeNew) == Derived(rules, cs[..n], assumeNew)
    decreases |cs|
  {
    if n == |cs| {
      assert cs[..n] == cs;
    } else {
      assert cs[..|cs| - 1][..n] == cs[..n];
      PrefixFails(rules, cs[..|cs| - 1], assumeNew, n);
    }
  }

  /** A clear is never derived: truncating a materialised table is refused instead. */
  lemma {:induction false} NoClearIsDerived(rules: Rules, cs: seq<RowChange>, assumeNew: bool)
    ensures var r := Derived(rules, cs, assumeNew); r.Ok? ==> forall i | 0 <= i < |r.value| :: !r.value[i].Clear?
  {
    if cs != [] {
      NoClearIsDerived(rules, cs[..|cs| - 1], assumeNew);
    }
  }

  // ------------------------------------------------------------------
  // What is derived, and what is refused
  // ------------------------------------------------------------------

  /** A row that can be stored: its id, its route fields and its JSON can be read. */
  predicate Readable(rules: Rules, table: string, row: Row) {
    rules.id(table, row).Some? && rules.routes(table, row, true).Some? && rules.json(table, row).Some?
  }

  /** A row that can be removed: its id and what there is of its route fields can be read. */
  predicate Identified(rules: Rules, table: string, row: Row) {
    rules.id(table, row).Some? && rules.routes(table, row, false).Some?
  }

  /** A row change of a table in the public schema that has an object type. */
  predicate Followed(rules: Rules, c: RowChange) {
    (c.Insert? || c.Update? || c.Delete?) && c.schema == "public" && rules.objectType(c.table).Some?
  }

  /** The put of a row: of the table's object type, with the id, strict route
      fields and JSON read from the row. */
  predicate PutsRow(rules: Rules, table: string, row: Row, assumeNew: bool, op: SyncOp) {
    && op.Put? && op.assumeNew == assumeNew
    && Some(op.doc.objectType) == rules.objectType(table) && Some(op.doc.objectId) == rules.id(table, row)
    && Some(op.doc.routes) == rules.routes(table, row, true) && Some(op.doc.data) == rules.json(table, row)
  }

  /** The remove of a row: under its id, with the route fields it has. */
  predicate RemovesRow(rules: Rules, table: string, row: Row, op: SyncOp) {
    && op.Remove? && Some(op.key.objectType) == rules.objectType(table) && Some(op.key.objectId) == rules.id(table, row)
    && Some(op.routes) == rules.routes(table, row, false)
  }

  /** The operations that say what a row change says. */
  predicate OpsSay(rules: Rules, c: RowChange, assumeNew: bool, ops: seq<SyncOp>)
    requires Followed(rules, c)
  {
    match c
    case Insert(_, table, row) => |ops| == 1 && PutsRow(rules, table, row, assumeNew, ops[0])
    case Update(_, table, before, after) =>
      if before.None? then |ops| == 1 && PutsRow(rules, table, after, false, ops[0])
      else |ops| == 2 && RemovesRow(rules, table, before.value, ops[0]) && PutsRow(rules, table, after, false, ops[1])
    case Delete(_, table, removed) => |ops| == 1 && RemovesRow(rules, table, removed, ops[0])
    case _ => false
  }

  /** A followed change with a row that cannot be read. */
  predicate Corrupt(rules: Rules, c: RowChange) {
    && Followed(rules, c)
    && match c
       case Insert(_, table, row) => !Readable(rules, table, row)
       case Update(_, table, before, after) => (before.Some? && !Identified(rules, table, before.value)) || !Readable(rules, table, after)
       case Delete(_, table, removed) => !Identified(rules, table, removed)
       case _ => false
  }

  /** A truncate that names a materialised table of the public schema. */
  ghost predicate TruncatesFollowed(rules: Rules, c: RowChange) {
    c.TruncateTables? && exists i, table | 0 <= i < |c.tables| ::
      c.tables[i] == "public." + table && (rules.objectType(table).Some? || rules.lookup(table))
  }

  lemma TruncatesIff(rules: Rules, names: seq<string>)
    ensures TruncatesMaterialized(rules, names) <==> TruncatesFollowed(rules, TruncateTables(names))
  {
    if i, table: string :| 0 <= i < |names| && names[i] == "public." + table && (rules.objectType(table).Some? || rules.lookup(table)) {
      assert names[i][|"public."|..] == table && "public." <= names[i];
    }
    if i :| 0 <= i < |names| && PublicTable(names[i]).Some? && Materialized(rules, PublicTable(names[i]).value) {
      assert names[i] == "public." + PublicTable(names[i]).value;
    }
  }

  /** A change is refused if and only if a row of it cannot be read or it
      truncates a materialised table; a followed change derives the operations
      that say what it says, and any other derives none. */
  lemma ChangeDerives(rules: Rules, c: RowChange, assumeNew: bool)
    ensures var r := OpsFor(rules, c, assumeNew);
            && (r == Err(CorruptBatch) <==> Corrupt(rules, c))
            && (r == Err(TruncateOnMaterializedTable) <==> TruncatesFollowed(rules, c))
            && (r.Ok? && Followed(rules, c) ==> OpsSay(rules, c, assumeNew, r.value))
            && (r.Ok? && !Followed(rules, c) ==> r.value == [])
  {
    if c.TruncateTables? {
      TruncatesIff(rules, c.tables);
    }
  }

  /** A batch is refused if and only if one of its changes is. */
  lemma {:induction false} DerivationFailsIff(rules: Rules, cs: seq<RowChange>, assumeNew: bool)
    ensures Derived(rules, cs, assumeNew).Err? <==>
            exists i | 0 <= i < |cs| :: Corrupt(rules, cs[i]) || TruncatesFollowed(rules, cs[i])
  {
    if cs != [] {
      var n := |cs| - 1;
      DerivationFailsIff(rules, cs[..n], assumeNew);
      ChangeDerives(rules, cs[n], assumeNew);
      if i :| 0 <= i < n && (Corrupt(rules, cs[..n][i]) || TruncatesFollowed(rules, cs[..n][i])) {
        assert cs[..n][i] == cs[i];
      }
      if i :| 0 <= i < |cs| && (Corrupt(rules, cs[i]) || TruncatesFollowed(rules, cs[i])) {
        assert i < n ==> cs[..n][i] == cs[i];
      }
    }
  }

  // ------------------------------------------------------------------
  // Mirroring the source
  // ------------------------------------------------------------------

  /** The rows of the public tables, by table and object id. */
  type Source = map<(string, string), Row>

  /** A change of one row at the source; `told`: whether the stream carries the old row. */
  datatype Event =
    | Inserted(table: string, id: string, row: Row)
    | Updated(table: string, id: string, newId: string, row: Row, told: bool)
    | Deleted(table: string, id: string)

  function After(source: Source, e: Event): Source {
    match e
    case Inserted(table, id, row) => source[(table, id) := row]
    case Updated(table, id, newId, row, _) => (source - {(table, id)})[(table, newId) := row]
    case Deleted(table, id) => source - {(table, id)}
  }

  /** The change the stream carries for an event. */
  function Streamed(source: Source, e: Event): RowChange
    requires !e.Inserted? ==> (e.table, e.id) in source
  {
    match e
    case Inserted(table, _, row) => Insert(PUBLIC, table, row)
    case Updated(table, id, _, row, told) => Update(PUBLIC, table, if told then Some(source[(table, id)]) else None, row)
    case Deleted(table, id) => Delete(PUBLIC, table, source[(table, id)])
  }

  /** The document a row stands for. */
  function DocumentOf(rules: Rules, table: string, row: Row): Option<Document> {
    if rules.objectType(table).None? then None
    else match PutFor(rules, table, rules.objectType(table).value, row, false)
      case Err(_) => None
      case Ok(op) => Some(op.doc)
  }

  ghost predicate OneTablePerType(rules: Rules) {
    forall t, u | rules.objectType(t).Some? && rules.objectType(t) == rules.objectType(u) :: t == u
  }

  /** Rows are filed under the id the rules read from them. */
  ghost predicate Filed(rules: Rules, source: Source) {
    forall t, i | (t, i) in source && rules.objectType(t).Some? :: rules.id(t, source[(t, i)]) == Some(i)
  }

  ghost predicate Backed(rules: Rules, source: Source, k: ObjectKey) {
    exists t :: rules.objectType(t) == Some(k.objectType) && (t, k.objectId) in source
  }

  /** The documents are those of the source rows, and no others. */
  ghost predicate Mirrors(rules: Rules, source: Source, docs: Documents) {
    && (forall t, i | (t, i) in source && rules.objectType(t).Some? ::
          var k := ObjectKey(rules.objectType(t).value, i);
          k in docs && Some(docs[k]) == DocumentOf(rules, t, source[(t, i)]))
    && (forall k | k in docs :: Backed(rules, source, k))
  }

  /** What the document of a mirrored row says: the table's object type, the
      row's id, its route fields and its JSON. */
  lemma MirroredDocument(rules: Rules, source: Source, docs: Documents, table: string, id: string)
    requires Filed(rules, source) && Mirrors(rules, source, docs) && (table, id) in source && rules.objectType(table).Some?
    ensures var k, row := ObjectKey(rules.objectType(table).value, id), source[(table, id)];
            && k in docs && docs[k].objectType == k.objectType && docs[k].objectId == id
            && rules.routes(table, row, true) == Some(docs[k].routes) && rules.json(table, row) == Some(docs[k].data)
  {
  }

  /** An event the source can make: its row exists, its new id is free, and the row reads back as that id. */
  ghost predicate Possible(rules: Rules, source: Source, e: Event) {
    && rules.objectType(e.table).Some?
    && (!e.Inserted? ==> (e.table, e.id) in source)
    && match e
       case Inserted(table, id, row) => (table, id) !in source && rules.id(table, row) == Some(id)
       case Updated(table, id, newId, row, _) => rules.id(table, row) == Some(newId) && (newId == id || (table, newId) !in source)
       case Deleted(_, _) => true
  }

  lemma TwoOps(docs: Documents, a: SyncOp, b: SyncOp)
    ensures DocumentsAfter(docs, [a]) == ApplyToDocuments(docs, Materialize(docs, a))
    ensures DocumentsAfter(docs, [a, b]) == ApplyToDocuments(DocumentsAfter(docs, [a]), Materialize(DocumentsAfter(docs, [a]), b))
  {
  }

  function Without(docs: Documents, told: bool, k: ObjectKey): Documents {
    if told then docs - {k} else docs
  }

  /** What the derived operations do to the documents. */
  function Effect(rules: Rules, docs: Documents, e: Event, t: string): Documents
    requires !e.Deleted? ==> DocumentOf(rules, e.table, e.row).Some?
  {
    match e
    case Inserted(table, id, row) => docs[ObjectKey(t, id) := DocumentOf(rules, table, row).value]
    case Updated(table, id, newId, row, told) => Without(docs, told, ObjectKey(t, id))[ObjectKey(t, newId) := DocumentOf(rules, table, row).value]
    case Deleted(table, id) => docs - {ObjectKey(t, id)}
  }

  lemma DerivedEffect(rules: Rules, source: Source, docs: Documents, e: Event, assumeNew: bool, ops: seq<SyncOp>)
    requires Filed(rules, source) && Possible(rules, source, e) && OpsFor(rules, Streamed(source, e), assumeNew) == Ok(ops)
    ensures !e.Deleted? ==> DocumentOf(rules, e.table, e.row).Some?
    ensures DocumentsAfter(docs, ops) == Effect(rules, docs, e, rules.objectType(e.table).value)
  {
    if |ops| == 1 {
      assert ops == [ops[0]];
      TwoOps(docs, ops[0], ops[0]);
    } else {
      assert ops == [ops[0], ops[1]];
      TwoOps(docs, ops[0], ops[1]);
    }
  }

  lemma PutMirrors(rules: Rules, source: Source, docs: Documents, table: string, id: string, row: Row)
    requires OneTablePerType(rules) && Mirrors(rules, source, docs) && DocumentOf(rules, table, row).Some? && rules.id(table, row) == Some(id)
    ensures Mirrors(rules, source[(table, id) := row],
                    docs[ObjectKey(rules.objectType(table).value, id) := DocumentOf(rules, table, row).value])
  {
  }

  lemma RemoveMirrors(rules: Rules, source: Source, docs: Documents, table: string, id: string)
    requires OneTablePerType(rules) && Mirrors(rules, source, docs) && rules.objectType(table).Some?
    ensures Mirrors(rules, source - {(table, id)}, docs - {ObjectKey(rules.objectType(table).value, id)})
  {
  }

  /** Applying the operations derived from a row change keeps the documents a
      mirror of the source, if and only if the stream carried the old row or the
      update kept the row's id: otherwise the document under the old id stays. */
  lemma DerivationMirrorsIff(rules: Rules, source: Source, docs: Documents, e: Event, assumeNew: bool, ops: seq<SyncOp>)
    requires OneTablePerType(rules) && Filed(rules, source) && Mirrors(rules, source, docs) && Possible(rules, source, e)
    requires OpsFor(rules, Streamed(source, e), assumeNew) == Ok(ops)
    ensures Mirrors(rules, After(source, e), DocumentsAfter(docs, ops)) <==> (e.Updated? && e.newId != e.id ==> e.told)
  {
    DerivedEffect(rules, source, docs, e, assumeNew, ops);
    match e
    case Inserted(table, id, row) =>
      PutMirrors(rules, source, docs, table, id, row);
    case Deleted(table, id) =>
      RemoveMirrors(rules, source, docs, table, id);
    case Updated(_, _, _, _, _) =>
      UpdateMirrorsIff(rules, source, docs, e);
  }

  lemma UpdateMirrorsIff(rules: Rules, source: Source, docs: Documents, e: Event)
    requires OneTablePerType(rules) && Mirrors(rules, source, docs) && Possible(rules, source, e) && e.Updated?
    requires DocumentOf(rules, e.table, e.row).Some?
    ensures Mirrors(rules, After(source, e), Effect(rules, docs, e, rules.objectType(e.table).value)) <==> (e.newId != e.id ==> e.told)
  {
    var t := rules.objectType(e.table).value;
    var k, d := ObjectKey(t, e.id), DocumentOf(rules, e.table, e.row).value;
    if e.newId != e.id && !e.told {
      StaleDocumentStays(rules, source, docs, e);
    } else {
      RemoveMirrors(rules, source, docs, e.table, e.id);
      PutMirrors(rules, source - {(e.table, e.id)}, docs - {k}, e.table, e.newId, e.row);
      if e.newId == e.id {
        assert (docs - {k})[k := d] == docs[k := d];
      }
    }
  }

  lemma StaleDocumentStays(rules: Rules, source: Source, docs: Documents, e: Event)
    requires OneTablePerType(rules) && Mirrors(rules, source, docs) && Possible(rules, source, e) && e.Updated? && e.newId != e.id
    requires DocumentOf(rules, e.table, e.row).Some?
    ensures !Mirrors(rules, After(source, e), docs[ObjectKey(rules.objectType(e.table).value, e.newId) := DocumentOf(rules, e.table, e.row).value])
  {
    var k := ObjectKey(rules.objectType(e.table).value, e.id);
    assert k in docs;
    assert !Backed(rules, After(source, e), k);
  }

  /** An insert may claim to be new: the mirrored documents do not hold its key. */
  lemma InsertIsNew(rules: Rules, source: Source, docs: Documents, e: Event)
    requires OneTablePerType(rules) && Mirrors(rules, source, docs) && Possible(rules, source, e) && e.Inserted?
    ensures ObjectKey(rules.objectType(e.table).value, e.id) !in docs
  {
  }

  /** An update of a row's id whose old row the stream did not carry: the
      document under the old id stays. */
  lemma UntoldRenameLeavesOldRow() returns (rules: Rules, source: Source, docs: Documents, e: Event, ops: seq<SyncOp>)
    ensures OneTablePerType(rules) && Filed(rules, source) && Mirrors(rules, source, docs) && Possible(rules, source, e)
    ensures OpsFor(rules, Streamed(source, e), false) == Ok(ops) && ObjectKey("t", "1") in DocumentsAfter(docs, ops)
    ensures ("t", "1") !in After(source, e) && !Mirrors(rules, After(source, e), DocumentsAfter(docs, ops))
  {
    rules := Rules(t => if t == "t" then Some("t") else None, t => false, (t, r) => Some(r), (t, r, strict) => Some(map[]), (t, r) => Some(r));
    source, docs := map[("t", "1") := "1"], map[ObjectKey("t", "1") := Document("t", "1", map[], "1")];
    e := Updated("t", "1", "2", "2", false);
    ops := [Put(Document("t", "2", map[], "2"), false)];
    assert forall k | k in docs :: Backed(rules, source, k) by {
      assert rules.objectType("t") == Some("t") && ("t", "1") in source;
    }
    assert [] + ops == ops;
    DerivedEffect(rules, source, docs, e, false, ops);
    DerivationMirrorsIff(rules, source, docs, e, false, ops);
  }

  // ------------------------------------------------------------------
  // Runs of events
  // ------------------------------------------------------------------

  /** The source after a list of events. */
  function AfterAll(source: Source, es: seq<Event>): Source {
    if es == [] then source else After(AfterAll(source, es[..|es| - 1]), es[|es| - 1])
  }

  ghost predicate AllPossible(rules: Rules, source: Source, es: seq<Event>) {
    es == [] ||
    var front := es[..|es| - 1];
    AllPossible(rules, source, front) && Possible(rules, AfterAll(source, front), es[|es| - 1])
  }

  /** The changes the stream carries for a list of events. */
  ghost function StreamedAll(rules: Rules, source: Source, es: seq<Event>): seq<RowChange>
    requires AllPossible(rules, source, es)
  {
    if es == [] then [] else
      var front := es[..|es| - 1];
      StreamedAll(rules, source, front) + [Streamed(AfterAll(source, front), es[|es| - 1])]
  }

  /** The stream carried the old row of every update that changed a row's id. */
  predicate Told(e: Event) {
    e.Updated? && e.newId != e.id ==> e.told
  }

  lemma EventKeepsFiled(rules: Rules, source: Source, e: Event)
    requires Filed(rules, source) && Possible(rules, source, e)
    ensures Filed(rules, After(source, e))
  {
  }

  lemma {:induction false} DocumentsChain(docs: Documents, a: seq<SyncOp>, b: seq<SyncOp>)
    ensures DocumentsAfter(docs, a + b) == DocumentsAfter(DocumentsAfter(docs, a), b)
    ensures RowOps(docs, a + b) <==> RowOps(docs, a) && RowOps(DocumentsAfter(docs, a), b)
  {
    if b == [] {
      assert a + b == a;
    } else {
      DocumentsChain(docs, a, b[..|b| - 1]);
      assert (a + b)[..|a + b| - 1] == a + b[..|b| - 1];
    }
  }

  /** The operations of one event are row operations, honest about new rows. */
  lemma EventOpsAreRowOps(rules: Rules, source: Source, docs: Documents, e: Event, assumeNew: bool, ops: seq<SyncOp>)
    requires OneTablePerType(rules) && Filed(rules, source) && Mirrors(rules, source, docs) && Possible(rules, source, e)
    requires OpsFor(rules, Streamed(source, e), assumeNew) == Ok(ops)
    ensures RowOps(docs, ops)
  {
    if e.Inserted? {
      InsertIsNew(rules, source, docs, e);
    }
    assert RowOps(docs, []) && DocumentsAfter(docs, []) == docs;
    if |ops| == 1 {
      assert ops[..0] == [];
    } else {
      assert ops == [ops[0], ops[1]] && ops[..1] == [ops[0]] && ops[..1][..0] == [];
      assert RowOps(docs, ops[..1]);
    }
  }

  /** The documents mirror the source after a list of events, with the rows filed. */
  ghost predicate InSync(rules: Rules, source: Source, docs: Documents) {
    Filed(rules, source) && Mirrors(rules, source, docs)
  }

  /** The operations of a list of events are those of all but the last, then those of the last. */
  lemma DerivedLast(rules: Rules, source: Source, es: seq<Event>, assumeNew: bool, ops: seq<SyncOp>) returns (before: seq<SyncOp>, more: seq<SyncOp>)
    requires es != [] && AllPossible(rules, source, es) && Derived(rules, StreamedAll(rules, source, es), assumeNew) == Ok(ops)
    ensures var front := es[..|es| - 1];
            && Derived(rules, StreamedAll(rules, source, front), assumeNew) == Ok(before) && ops == before + more
            && OpsFor(rules, Streamed(AfterAll(source, front), es[|es| - 1]), assumeNew) == Ok(more)
  {
    var front, all := es[..|es| - 1], StreamedAll(rules, source, es);
    assert all[..|all| - 1] == StreamedAll(rules, source, front);
    before := Derived(rules, StreamedAll(rules, source, front), assumeNew).value;
    more := OpsFor(rules, Streamed(AfterAll(source, front), es[|es| - 1]), assumeNew).value;
  }

  lemma {:induction false} DerivedRunMirrors(rules: Rules, source: Source, docs: Documents, es: seq<Event>, assumeNew: bool, ops: seq<SyncOp>)
    requires OneTablePerType(rules) && InSync(rules, source, docs) && AllPossible(rules, source, es)
    requires Derived(rules, StreamedAll(rules, source, es), assumeNew) == Ok(ops) && AllTold(es)
    ensures InSync(rules, AfterAll(source, es), DocumentsAfter(docs, ops)) && RowOps(docs, ops)
    decreases |es|
  {
    if es != [] {
      var front, e := es[..|es| - 1], es[|es| - 1];
      var before, more := DerivedLast(rules, source, es, assumeNew, ops);
      AllToldLast(es);
      DerivedRunMirrors(rules, source, docs, front, assumeNew, before);
      var now, prior := AfterAll(source, front), DocumentsAfter(docs, before);
      DerivationMirrorsIff(rules, now, prior, e, assumeNew, more);
      EventKeepsFiled(rules, now, e);
      EventOpsAreRowOps(rules, now, prior, e, assumeNew, more);
      DocumentsChain(docs, before, more);
    }
  }

  /** Each prefix of the events leaves the documents a mirror of the source. */
  ghost predicate MirrorsThroughout(rules: Rules, source: Source, docs: Documents, es: seq<Event>, assumeNew: bool)
    requires AllPossible(rules, source, es)
  {
    es == [] ||
    var front := es[..|es| - 1];
    var ops := Derived(rules, StreamedAll(rules, source, es), assumeNew);
    MirrorsThroughout(rules, source, docs, front, assumeNew) && ops.Ok? && Mirrors(rules, AfterAll(source, es), DocumentsAfter(docs, ops.value))
  }

  predicate AllTold(es: seq<Event>) {
    forall i | 0 <= i < |es| :: Told(es[i])
  }

  lemma AllToldLast(es: seq<Event>)
    requires es != []
    ensures AllTold(es) <==> AllTold(es[..|es| - 1]) && Told(es[|es| - 1])
  {
    assert forall i | 0 <= i < |es| - 1 :: es[..|es| - 1][i] == es[i];
  }

  lemma ThroughoutLast(rules: Rules, source: Source, docs: Documents, es: seq<Event>, assumeNew: bool, ops: seq<SyncOp>)
    requires es != [] && AllPossible(rules, source, es) && Derived(rules, StreamedAll(rules, source, es), assumeNew) == Ok(ops)
    ensures MirrorsThroughout(rules, source, docs, es, assumeNew)
            <==> MirrorsThroughout(rules, source, docs, es[..|es| - 1], assumeNew) && Mirrors(rules, AfterAll(source, es), DocumentsAfter(docs, ops))
  {
  }

  /** Over every list of events whose changes can be derived, the documents stay
      a mirror of the source throughout if and only if the stream carried the old
      row of every update that changed an id. */
  lemma {:induction false} DerivedRunMirrorsIff(rules: Rules, source: Source, docs: Documents, es: seq<Event>, assumeNew: bool, ops: seq<SyncOp>)
    requires OneTablePerType(rules) && InSync(rules, source, docs) && AllPossible(rules, source, es)
    requires Derived(rules, StreamedAll(rules, source, es), assumeNew) == Ok(ops)
    ensures MirrorsThroughout(rules, source, docs, es, assumeNew) <==> AllTold(es)
    decreases |es|
  {
    if es != [] {
      var front, e := es[..|es| - 1], es[|es| - 1];
      var before, more := DerivedLast(rules, source, es, assumeNew, ops);
      DerivedRunMirrorsIff(rules, source, docs, front, assumeNew, before);
      ThroughoutLast(rules, source, docs, es, assumeNew, ops);
      AllToldLast(es);
      if AllTold(front) {
        DerivedRunMirrors(rules, source, docs, front, assumeNew, before);
        LastEventMirrorsIff(rules, AfterAll(source, front), docs, before, e, assumeNew, more);
      }
    }
  }

  lemma LastEventMirrorsIff(rules: Rules, source: Source, docs: Documents, before: seq<SyncOp>, e: Event, assumeNew: bool, more: seq<SyncOp>)
    requires OneTablePerType(rules) && InSync(rules, source, DocumentsAfter(docs, before)) && Possible(rules, source, e)
    requires OpsFor(rules, Streamed(source, e), assumeNew) == Ok(more)
    ensures Mirrors(rules, After(source, e), DocumentsAfter(docs, before + more)) <==> Told(e)
  {
    DerivationMirrorsIff(rules, source, DocumentsAfter(docs, before), e, assumeNew, more);
    DocumentsChain(docs, before, more);
  }

  /** From source events to the checkpoint: the operations derived from a batch
      of told events are accounted for in every well-shaped bucket, and leave
      the stored documents a mirror of the source. */
  lemma DerivedBatchConserves(rules: Rules, source: Source, es: seq<Event>, assumeNew: bool, ops: seq<SyncOp>,
                              oracle: Oracle, plan: Plan, b: Bucket, s: Ledger, first: nat)
    requires OneTablePerType(rules) && InSync(rules, source, s.docs) && AllPossible(rules, source, es)
    requires Derived(rules, StreamedAll(rules, source, es), assumeNew) == Ok(ops) && AllTold(es)
    requires Sound(oracle, plan, s) && WellShaped(b) && Known(plan, b) && ScalarLog(oracle, Log(s.docs, ops))
    ensures var s' := LedgerAfter(oracle, plan, s, Log(s.docs, ops));
            Mirrors(rules, AfterAll(source, es), s'.docs) && Accounted(oracle, b, s, s', first, Log(s.docs, ops))
  {
    DerivedRunMirrors(rules, source, s.docs, es, assumeNew, ops);
    RunConserves(oracle, plan, b, s, ops, first);
  }
}
