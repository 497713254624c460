/** What a bucket is served from the tail log, what a client makes of it, and
    how the served entries relate to the accumulators. */
module Serving {
  import opened Common
  import opened SyncPlan
  import opened Routing
  import opened Accounting

  datatype EntryKind = PutEntry | RemoveEntry | ClearEntry

  /** One oplog line of a data page; the subkey is a function of the object. */
  datatype OplogEntry = OplogEntry(
    opId: nat, kind: EntryKind, subject: Option<ObjectKey>, data: Option<string>, checksum: U32)

  predicate Holds(oracle: Oracle, b: Bucket, d: Document) {
    MatchesData(oracle, b, d.objectType, d.routes, d.data)
  }

  /** How a tail operation affects a bucket. */
  function TailEffect(oracle: Oracle, b: Bucket, op: TailOp): Option<EntryKind> {
    match op
    case ClearOp(_) => Some(ClearEntry)
    case PutOp(d, previous) =>
      if Holds(oracle, b, d) then Some(PutEntry)
      else if previous.Some? && Holds(oracle, b, previous.value) then Some(RemoveEntry)
      else None
    case RemoveOp(k, routes, data) =>
      if (if data.None? then MatchesRoutes(oracle, b, k.objectType, routes)
          else MatchesData(oracle, b, k.objectType, routes, data.value))
      then Some(RemoveEntry) else None
  }

  function PutEntryFor(oracle: Oracle, b: Bucket, opId: nat, d: Document): OplogEntry {
    var data := Project(oracle, b, d.objectType, d.data);
    OplogEntry(opId, PutEntry, Some(d.Key()), data,
               if data.Some? then oracle.putSum(d.objectType, d.objectId, data.value) else 0)
  }

  function RemoveEntryFor(oracle: Oracle, opId: nat, k: ObjectKey): OplogEntry {
    OplogEntry(opId, RemoveEntry, Some(k), None, oracle.removeSum(k.objectType, k.objectId))
  }

  function OpKey(op: TailOp): ObjectKey
    requires !op.ClearOp?
  {
    match op
    case PutOp(d, _) => d.Key()
    case RemoveOp(k, _, _) => k
  }

  /** The entries, none or one, a tail operation yields for a bucket. */
  function Served(oracle: Oracle, b: Bucket, opId: nat, op: TailOp): seq<OplogEntry> {
    match TailEffect(oracle, b, op)
    case None => []
    case Some(ClearEntry) => [OplogEntry(opId, ClearEntry, None, None, 0)]
    case Some(PutEntry) => [PutEntryFor(oracle, b, opId, op.doc)]
    case Some(RemoveEntry) => [RemoveEntryFor(oracle, opId, OpKey(op))]
  }

  // ------------------------------------------------------------------
  // What a bucket holds, query by query
  // ------------------------------------------------------------------

  /** Query `i` is of this type and each of its constraints is met: by an equal
      route value or by a JSON array that holds the value. */
  predicate Met(oracle: Oracle, b: Bucket, i: nat, objectType: string, routes: Routes)
    requires i < |b.queries|
  {
    && b.queries[i].objectType == objectType
    && forall c | c in b.queries[i].constraints ::
         c in routes && (routes[c] == b.queries[i].constraints[c] || oracle.arrayContains(routes[c], b.queries[i].constraints[c]))
  }

  predicate FirstMet(oracle: Oracle, b: Bucket, i: nat, objectType: string, routes: Routes) {
    i < |b.queries| && Met(oracle, b, i, objectType, routes) && forall j | 0 <= j < i :: !Met(oracle, b, j, objectType, routes)
  }

  /** A row filter, if there is one, is true of the row. */
  predicate Passes(oracle: Oracle, rowFilter: Option<string>, data: string) {
    rowFilter.Some? ==> oracle.filter(rowFilter.value, data)
  }

  lemma {:induction false} QueryForIsFirstMet(oracle: Oracle, b: Bucket, from: nat, objectType: string, routes: Routes) returns (i: nat)
    requires from <= |b.queries| && forall j | 0 <= j < from :: !Met(oracle, b, j, objectType, routes)
    ensures var q := QueryFor(oracle, b.queries[from..], objectType, routes);
            if q.Some? then FirstMet(oracle, b, i, objectType, routes) && q.value == b.queries[i]
            else i == |b.queries| && forall j | 0 <= j < |b.queries| :: !Met(oracle, b, j, objectType, routes)
    decreases |b.queries| - from
  {
    i := from;
    if from < |b.queries| && !Met(oracle, b, from, objectType, routes) {
      assert b.queries[from..][1..] == b.queries[from + 1..];
      i := QueryForIsFirstMet(oracle, b, from + 1, objectType, routes);
    }
  }

  /** A bucket holds a document if and only if the row passes the filter of the
      first query of its type whose constraints it meets. */
  lemma HoldsIff(oracle: Oracle, b: Bucket, d: Document)
    ensures Holds(oracle, b, d) <==>
            exists i: nat :: FirstMet(oracle, b, i, d.objectType, d.routes) && Passes(oracle, b.queries[i].rowFilter, d.data)
  {
    assert b.queries[0..] == b.queries;
    var i := QueryForIsFirstMet(oracle, b, 0, d.objectType, d.routes);
  }

  /** The queries of a bucket met by route fields alone. */
  lemma MatchesRoutesIff(oracle: Oracle, b: Bucket, objectType: string, routes: Routes)
    ensures MatchesRoutes(oracle, b, objectType, routes) <==> exists i | 0 <= i < |b.queries| :: Met(oracle, b, i, objectType, routes)
  {
    assert b.queries[0..] == b.queries;
    var i := QueryForIsFirstMet(oracle, b, 0, objectType, routes);
  }

  /** The first query over an object type, whatever its constraints. */
  predicate FirstOfType(b: Bucket, i: nat, objectType: string) {
    i < |b.queries| && b.queries[i].objectType == objectType && forall j | 0 <= j < i :: b.queries[j].objectType != objectType
  }

  lemma {:induction false} ProjectionIsFirst(b: Bucket, from: nat, objectType: string) returns (i: nat)
    requires from <= |b.queries| && forall j | 0 <= j < from :: b.queries[j].objectType != objectType
    ensures var p := ProjectionFor(b.queries[from..], objectType);
            if p.Some? then FirstOfType(b, i, objectType) && p.value == b.queries[i].projection
            else forall j | 0 <= j < |b.queries| :: b.queries[j].objectType != objectType
    decreases |b.queries| - from
  {
    i := from;
    if from < |b.queries| && b.queries[from].objectType != objectType {
      assert b.queries[from..][1..] == b.queries[from + 1..];
      i := ProjectionIsFirst(b, from + 1, objectType);
    }
  }

  // ------------------------------------------------------------------
  // Clients
  // ------------------------------------------------------------------

  /** A client's copy of a bucket: its rows and the running checksum. */
  datatype Client = Client(rows: map<ObjectKey, string>, checksum: U32)

  function Receive(c: Client, e: OplogEntry): Client {
    match e.kind
    case ClearEntry => Client(map[], e.checksum)
    case PutEntry =>
      Client(if e.subject.Some? && e.data.Some? then c.rows[e.subject.value := e.data.value] else c.rows,
             WrapAdd(c.checksum, e.checksum))
    case RemoveEntry =>
      Client(if e.subject.Some? then c.rows - {e.subject.value} else c.rows, WrapAdd(c.checksum, e.checksum))
  }

  function ReceiveAll(c: Client, es: seq<OplogEntry>): Client {
    if es == [] then c else Receive(ReceiveAll(c, es[..|es| - 1]), es[|es| - 1])
  }

  lemma {:induction false} ReceiveAllSplits(c: Client, es: seq<OplogEntry>, fs: seq<OplogEntry>)
    ensures ReceiveAll(c, es + fs) == ReceiveAll(ReceiveAll(c, es), fs)
  {
    if fs == [] {
      assert es + fs == es;
    } else {
      ReceiveAllSplits(c, es, fs[..|fs| - 1]);
      assert (es + fs)[..|es + fs| - 1] == es + fs[..|fs| - 1];
    }
  }

  /** What a bucket shows of a document. */
  function Shown(oracle: Oracle, b: Bucket, d: Document): Option<string> {
    if Holds(oracle, b, d) then Project(oracle, b, d.objectType, d.data) else None
  }

  /** The rows of a bucket: the projected current documents that match it. */
  function View(oracle: Oracle, b: Bucket, docs: Documents): map<ObjectKey, string> {
    map k | k in docs && Shown(oracle, b, docs[k]).Some? :: Shown(oracle, b, docs[k]).value
  }

  lemma {:induction false} MatchingTypeProjects(oracle: Oracle, qs: seq<Query>, objectType: string, routes: Routes)
    requires QueryFor(oracle, qs, objectType, routes).Some?
    ensures ProjectionFor(qs, objectType).Some?
  {
    if qs[0].objectType != objectType {
      MatchingTypeProjects(oracle, qs[1..], objectType, routes);
    }
  }

  lemma ShownIffHeld(oracle: Oracle, b: Bucket, d: Document)
    ensures Shown(oracle, b, d).Some? <==> Holds(oracle, b, d)
  {
    if Holds(oracle, b, d) {
      MatchingTypeProjects(oracle, b.queries, d.objectType, d.routes);
    }
  }

  /** The rows of a bucket, stated outright: a document is among them if and only
      if it passes the filter of the first query of its type that it meets, and
      it is shown as the first query over its type projects it. */
  lemma ViewIs(oracle: Oracle, b: Bucket, docs: Documents, k: ObjectKey)
    ensures k in View(oracle, b, docs) <==>
            k in docs && exists i: nat :: FirstMet(oracle, b, i, docs[k].objectType, docs[k].routes) && Passes(oracle, b.queries[i].rowFilter, docs[k].data)
    ensures k in View(oracle, b, docs) ==>
            exists j: nat :: FirstOfType(b, j, docs[k].objectType) && View(oracle, b, docs)[k] == oracle.project(b.queries[j].projection, docs[k].data)
  {
    if k in docs {
      HoldsIff(oracle, b, docs[k]);
      ShownIffHeld(oracle, b, docs[k]);
      assert b.queries[0..] == b.queries;
      var j := ProjectionIsFirst(b, 0, docs[k].objectType);
    }
  }

  /** What one operation sends a bucket, in terms of the documents before it: a
      put of a row it holds, a remove of a row it held, or nothing. A remove of
      a row not stored goes to the buckets its own route fields meet. */
  lemma ServedIs(oracle: Oracle, b: Bucket, docs: Documents, op: SyncOp, opId: nat)
    requires Keyed(docs) && HonestlyNew(docs, op) && !op.Clear?
    ensures var k := if op.Put? then op.doc.Key() else op.key;
            var held := k in docs && Holds(oracle, b, docs[k]);
            var puts := op.Put? && Holds(oracle, b, op.doc);
            var removes := !puts && (held || (op.Remove? && k !in docs && MatchesRoutes(oracle, b, k.objectType, op.routes)));
            Served(oracle, b, opId, Materialize(docs, op)) ==
              if puts then [OplogEntry(opId, PutEntry, Some(k), Shown(oracle, b, op.doc),
                                       oracle.putSum(k.objectType, k.objectId, ShownText(oracle, b, op.doc)))]
              else if removes then [OplogEntry(opId, RemoveEntry, Some(k), None, oracle.removeSum(k.objectType, k.objectId))]
              else []
  {
    if op.Put? {
      ShownIffHeld(oracle, b, op.doc);
    }
  }

  function ShownText(oracle: Oracle, b: Bucket, d: Document): string {
    if Shown(oracle, b, d).Some? then Shown(oracle, b, d).value else ""
  }

  lemma ViewAfterPut(oracle: Oracle, b: Bucket, docs: Documents, d: Document)
    ensures View(oracle, b, docs[d.Key() := d])
         == if Shown(oracle, b, d).Some? then View(oracle, b, docs)[d.Key() := Shown(oracle, b, d).value]
            else View(oracle, b, docs) - {d.Key()}
  {
  }

  lemma PutStepConverges(oracle: Oracle, b: Bucket, docs: Documents, d: Document, previous: Option<Document>, opId: nat, c: Client)
    requires previous == if d.Key() in docs then Some(docs[d.Key()]) else None
    requires c.rows == View(oracle, b, docs)
    ensures ReceiveAll(c, Served(oracle, b, opId, PutOp(d, previous))).rows == View(oracle, b, docs[d.Key() := d])
  {
    ViewAfterPut(oracle, b, docs, d);
    ShownIffHeld(oracle, b, d);
    OneEntry(c, Served(oracle, b, opId, PutOp(d, previous)));
    if previous.Some? {
      ShownIffHeld(oracle, b, previous.value);
    }
    if !Holds(oracle, b, d) && !(previous.Some? && Holds(oracle, b, previous.value)) {
      assert c.rows - {d.Key()} == c.rows;
    }
  }

  lemma RemoveStepConverges(oracle: Oracle, b: Bucket, docs: Documents, k: ObjectKey, routes: Routes, opId: nat, c: Client)
    requires Keyed(docs) && c.rows == View(oracle, b, docs)
    ensures ReceiveAll(c, Served(oracle, b, opId, Materialize(docs, Remove(k, routes)))).rows == View(oracle, b, docs - {k})
  {
  }

  /** One operation moves a client with a bucket's rows to the bucket's new rows,
      whatever the operation does to route fields or filters. */
  lemma ServedStepConverges(oracle: Oracle, b: Bucket, docs: Documents, op: SyncOp, opId: nat, c: Client)
    requires Keyed(docs) && HonestlyNew(docs, op) && !op.Clear?
    requires c.rows == View(oracle, b, docs)
    ensures ReceiveAll(c, Served(oracle, b, opId, Materialize(docs, op))).rows
         == View(oracle, b, ApplyToDocuments(docs, Materialize(docs, op)))
  {
    match op
    case Put(d, _) =>
      PutStepConverges(oracle, b, docs, d, Materialize(docs, op).previous, opId, c);
    case Remove(k, routes) =>
      RemoveStepConverges(oracle, b, docs, k, routes, opId, c);
  }

  lemma OneEntry(c: Client, es: seq<OplogEntry>)
    requires |es| <= 1
    ensures ReceiveAll(c, es) == if es == [] then c else Receive(c, es[0])
  {
  }

  // ------------------------------------------------------------------
  // Runs
  // ------------------------------------------------------------------

  /** The documents after a list of operations. */
  function DocumentsAfter(docs: Documents, ops: seq<SyncOp>): Documents {
    if ops == [] then docs else
      var prior := DocumentsAfter(docs, ops[..|ops| - 1]);
      ApplyToDocuments(prior, Materialize(prior, ops[|ops| - 1]))
  }

  /** The completed operations of a run, in order. */
  function Log(docs: Documents, ops: seq<SyncOp>): (log: seq<TailOp>)
    ensures |log| == |ops|
  {
    if ops == [] then [] else
      Log(docs, ops[..|ops| - 1]) + [Materialize(DocumentsAfter(docs, ops[..|ops| - 1]), ops[|ops| - 1])]
  }

  /** The entries of a log whose first operation has id `first + 1`. */
  function ServedAll(oracle: Oracle, b: Bucket, first: nat, log: seq<TailOp>): seq<OplogEntry> {
    if log == [] then []
    else ServedAll(oracle, b, first, log[..|log| - 1]) + Served(oracle, b, first + |log|, log[|log| - 1])
  }

  /** Row operations only, and `assume_new` only for absent documents. */
  predicate RowOps(docs: Documents, ops: seq<SyncOp>) {
    ops == [] ||
    var front, last := ops[..|ops| - 1], ops[|ops| - 1];
    RowOps(docs, front) && !last.Clear? && HonestlyNew(DocumentsAfter(docs, front), last)
  }

  lemma {:induction false} RunStaysKeyed(docs: Documents, ops: seq<SyncOp>)
    requires Keyed(docs) && RowOps(docs, ops)
    ensures Keyed(DocumentsAfter(docs, ops))
  {
    if ops != [] {
      RunStaysKeyed(docs, ops[..|ops| - 1]);
    }
  }

  /** Client convergence: a client that holds a bucket at some point and applies
      the served entries of every later operation in order ends with exactly the
      projected current documents of the bucket. */
  lemma {:induction false} ClientConverges(oracle: Oracle, b: Bucket, docs: Documents, ops: seq<SyncOp>, first: nat, c: Client)
    requires Keyed(docs) && RowOps(docs, ops)
    requires c.rows == View(oracle, b, docs)
    ensures ReceiveAll(c, ServedAll(oracle, b, first, Log(docs, ops))).rows == View(oracle, b, DocumentsAfter(docs, ops))
  {
    if ops != [] {
      var front, last := ops[..|ops| - 1], ops[|ops| - 1];
      ClientConverges(oracle, b, docs, front, first, c);
      RunStaysKeyed(docs, front);
      var prior, log := DocumentsAfter(docs, front), Log(docs, front);
      var m := Materialize(prior, last);
      var served := ServedAll(oracle, b, first, log);
      assert Log(docs, ops)[..|ops| - 1] == log;
      ServedStepConverges(oracle, b, prior, last, first + |ops|, ReceiveAll(c, served));
      ReceiveAllSplits(c, served, Served(oracle, b, first + |ops|, m));
    }
  }
}
