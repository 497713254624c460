/** The materialised state as mathematics: current documents, the two
    checkpoint accumulators kept per query, and the effect of one sync
    operation on all three. The accumulators must equal a recomputation over
    the documents. */
module Accounting {
  import opened Common
  import opened SyncPlan
  import opened Routing

  datatype ObjectKey = ObjectKey(objectType: string, objectId: string)

  datatype Document = Document(objectType: string, objectId: string, routes: Routes, data: string)
  {
    function Key(): ObjectKey { ObjectKey(objectType, objectId) }
  }

  datatype Accumulator = Accumulator(checksum: U32, count: nat)

  const EMPTY: Accumulator := Accumulator(0, 0)

  type Documents = map<ObjectKey, Document>
  type Accumulators = map<Query, Accumulator>

  /** An absent accumulator reads as empty. */
  function Get(acc: Accumulators, q: Query): Accumulator {
    if q in acc then acc[q] else EMPTY
  }

  /** Every document is filed under its own key. */
  predicate Keyed(docs: Documents) {
    forall k | k in docs :: docs[k].Key() == k
  }

  // ------------------------------------------------------------------
  // What one document contributes
  // ------------------------------------------------------------------

  /** The queries a document is counted under. */
  function Touched(oracle: Oracle, plan: Plan, d: Document): set<Query> {
    set q | q in Targets(plan, d.objectType, d.routes) && FilterMatches(oracle, q, d.data)
  }

  function PutSum(oracle: Oracle, q: Query, d: Document): U32 {
    oracle.putSum(d.objectType, d.objectId, oracle.project(q.projection, d.data))
  }

  function Plus(a: Accumulator, checksum: U32): Accumulator {
    Accumulator(WrapAdd(a.checksum, checksum), a.count + 1)
  }

  /** Take one document out; a count below zero resets the accumulator. */
  function Minus(a: Accumulator, checksum: U32): Accumulator {
    if a.count == 0 then EMPTY else Accumulator(WrapSub(a.checksum, checksum), a.count - 1)
  }

  function WithDocument(oracle: Oracle, plan: Plan, acc: Accumulators, d: Document): Accumulators {
    acc + map q | q in Touched(oracle, plan, d) :: Plus(Get(acc, q), PutSum(oracle, q, d))
  }

  function WithoutDocument(oracle: Oracle, plan: Plan, acc: Accumulators, d: Document): Accumulators {
    acc + map q | q in Touched(oracle, plan, d) :: Minus(Get(acc, q), PutSum(oracle, q, d))
  }

  /** A document is counted under a query if and only if some template of its
      type has the query's filters and projection, the query's constraints are
      the row's own values for the template's columns, and the row passes the filter. */
  lemma TouchedIff(oracle: Oracle, plan: Plan, d: Document, q: Query)
    ensures q in Touched(oracle, plan, d) <==>
            && (q.rowFilter.Some? ==> oracle.filter(q.rowFilter.value, d.data))
            && (forall c | c in q.constraints :: c in d.routes && d.routes[c] == q.constraints[c])
            && d.objectType in plan.templates
            && exists m :: m in plan.templates[d.objectType] && m.objectType == q.objectType && Columns(m.parameters) == q.constraints.Keys
                 && m.rowFilter == q.rowFilter && m.requestFilter == q.requestFilter && m.projection == q.projection
  {
    forall m | m in TemplatesOf(plan, d.objectType)
      ensures Instantiate(m, d.routes) == Some(q) <==>
              && (forall c | c in q.constraints :: c in d.routes && d.routes[c] == q.constraints[c])
              && m.objectType == q.objectType && Columns(m.parameters) == q.constraints.Keys
              && m.rowFilter == q.rowFilter && m.requestFilter == q.requestFilter && m.projection == q.projection
    {
      InstantiatesIff(m, d.routes, q);
    }
  }

  lemma InstantiatesIff(m: Template, routes: Routes, q: Query)
    ensures Instantiate(m, routes) == Some(q) <==>
            && (forall c | c in q.constraints :: c in routes && routes[c] == q.constraints[c])
            && m.objectType == q.objectType && Columns(m.parameters) == q.constraints.Keys
            && m.rowFilter == q.rowFilter && m.requestFilter == q.requestFilter && m.projection == q.projection
  {
    if Columns(m.parameters) <= routes.Keys && Columns(m.parameters) == q.constraints.Keys
       && forall c | c in q.constraints :: c in routes && routes[c] == q.constraints[c] {
      assert (map c | c in Columns(m.parameters) :: routes[c]) == q.constraints;
    }
  }

  // ------------------------------------------------------------------
  // Recomputation
  // ------------------------------------------------------------------

  ghost function CountTerm(oracle: Oracle, plan: Plan, docs: Documents, q: Query): ObjectKey -> int {
    k => if k in docs && q in Touched(oracle, plan, docs[k]) then 1 else 0
  }

  ghost function SumTerm(oracle: Oracle, plan: Plan, docs: Documents, q: Query): ObjectKey -> int {
    k => if k in docs && q in Touched(oracle, plan, docs[k]) then PutSum(oracle, q, docs[k]) else 0
  }

  /** How many current documents match a query. */
  ghost function Recount(oracle: Oracle, plan: Plan, docs: Documents, q: Query): int {
    Sum(CountTerm(oracle, plan, docs, q), docs.Keys)
  }

  /** The unreduced checksum sum of the documents that match a query. */
  ghost function Resum(oracle: Oracle, plan: Plan, docs: Documents, q: Query): int {
    Sum(SumTerm(oracle, plan, docs, q), docs.Keys)
  }

  ghost predicate ExactAt(oracle: Oracle, plan: Plan, docs: Documents, acc: Accumulators, q: Query) {
    && Get(acc, q).count == Recount(oracle, plan, docs, q)
    && Get(acc, q).checksum == Resum(oracle, plan, docs, q) % TWO_32
  }

  /** Each accumulator holds the count and checksum of the documents it stands for. */
  ghost predicate Exact(oracle: Oracle, plan: Plan, docs: Documents, acc: Accumulators) {
    forall q: Query :: ExactAt(oracle, plan, docs, acc, q)
  }

  /** Taking one document out of the recomputation. */
  lemma RecomputeWithout(oracle: Oracle, plan: Plan, docs: Documents, k: ObjectKey, q: Query)
    requires k in docs
    ensures Recount(oracle, plan, docs, q)
         == Recount(oracle, plan, docs - {k}, q) + (if q in Touched(oracle, plan, docs[k]) then 1 else 0)
    ensures Resum(oracle, plan, docs, q)
         == Resum(oracle, plan, docs - {k}, q) + (if q in Touched(oracle, plan, docs[k]) then PutSum(oracle, q, docs[k]) else 0)
  {
    var rest := docs - {k};
    assert rest.Keys == docs.Keys - {k};
    SumExtract(CountTerm(oracle, plan, docs, q), docs.Keys, k);
    SumExtract(SumTerm(oracle, plan, docs, q), docs.Keys, k);
    SumCongruent(CountTerm(oracle, plan, docs, q), CountTerm(oracle, plan, rest, q), rest.Keys);
    SumCongruent(SumTerm(oracle, plan, docs, q), SumTerm(oracle, plan, rest, q), rest.Keys);
  }

  lemma RecountIsNatural(oracle: Oracle, plan: Plan, docs: Documents, q: Query)
    ensures 0 <= Recount(oracle, plan, docs, q) <= |docs.Keys|
  {
    SumBounds(CountTerm(oracle, plan, docs, q), docs.Keys);
  }

  lemma GetAfterUpdate(oracle: Oracle, plan: Plan, acc: Accumulators, d: Document, q: Query)
    ensures Get(WithDocument(oracle, plan, acc, d), q)
         == if q in Touched(oracle, plan, d) then Plus(Get(acc, q), PutSum(oracle, q, d)) else Get(acc, q)
    ensures Get(WithoutDocument(oracle, plan, acc, d), q)
         == if q in Touched(oracle, plan, d) then Minus(Get(acc, q), PutSum(oracle, q, d)) else Get(acc, q)
  {
  }

  lemma AddingKeepsExactAt(oracle: Oracle, plan: Plan, docs: Documents, acc: Accumulators, d: Document, q: Query)
    requires ExactAt(oracle, plan, docs, acc, q) && d.Key() !in docs
    ensures ExactAt(oracle, plan, docs[d.Key() := d], WithDocument(oracle, plan, acc, d), q)
  {
    var after := docs[d.Key() := d];
    assert after - {d.Key()} == docs;
    RecomputeWithout(oracle, plan, after, d.Key(), q);
    GetAfterUpdate(oracle, plan, acc, d, q);
    if q in Touched(oracle, plan, d) {
      WrapAddReduces(Get(acc, q).checksum, Resum(oracle, plan, docs, q), PutSum(oracle, q, d), Resum(oracle, plan, after, q));
    }
  }

  lemma RemovingKeepsExactAt(oracle: Oracle, plan: Plan, docs: Documents, acc: Accumulators, k: ObjectKey, q: Query)
    requires ExactAt(oracle, plan, docs, acc, q) && k in docs
    ensures q in Touched(oracle, plan, docs[k]) ==> Get(acc, q).count >= 1
    ensures ExactAt(oracle, plan, docs - {k}, WithoutDocument(oracle, plan, acc, docs[k]), q)
  {
    var after := docs - {k};
    RecomputeWithout(oracle, plan, docs, k, q);
    RecountIsNatural(oracle, plan, after, q);
    GetAfterUpdate(oracle, plan, acc, docs[k], q);
    if q in Touched(oracle, plan, docs[k]) {
      WrapSubReduces(Get(acc, q).checksum, Resum(oracle, plan, docs, q), PutSum(oracle, q, docs[k]), Resum(oracle, plan, after, q));
    }
  }

  /** Counting a document that was absent keeps every accumulator exact. */
  lemma AddingKeepsExact(oracle: Oracle, plan: Plan, docs: Documents, acc: Accumulators, d: Document)
    requires Exact(oracle, plan, docs, acc) && d.Key() !in docs
    ensures Exact(oracle, plan, docs[d.Key() := d], WithDocument(oracle, plan, acc, d))
  {
    var after, acc' := docs[d.Key() := d], WithDocument(oracle, plan, acc, d);
    forall q: Query
      ensures ExactAt(oracle, plan, after, acc', q)
    {
      assert ExactAt(oracle, plan, docs, acc, q);
      AddingKeepsExactAt(oracle, plan, docs, acc, d, q);
    }
  }

  /** Taking a current document out never underflows and keeps every accumulator exact. */
  lemma RemovingKeepsExact(oracle: Oracle, plan: Plan, docs: Documents, acc: Accumulators, k: ObjectKey)
    requires Exact(oracle, plan, docs, acc) && k in docs
    ensures forall q | q in Touched(oracle, plan, docs[k]) :: Get(acc, q).count >= 1
    ensures Exact(oracle, plan, docs - {k}, WithoutDocument(oracle, plan, acc, docs[k]))
  {
    forall q | q in Touched(oracle, plan, docs[k])
      ensures Get(acc, q).count >= 1
    {
      assert ExactAt(oracle, plan, docs, acc, q);
      RemovingKeepsExactAt(oracle, plan, docs, acc, k, q);
    }
    var after, acc' := docs - {k}, WithoutDocument(oracle, plan, acc, docs[k]);
    forall q: Query
      ensures ExactAt(oracle, plan, after, acc', q)
    {
      assert ExactAt(oracle, plan, docs, acc, q);
      RemovingKeepsExactAt(oracle, plan, docs, acc, k, q);
    }
  }

  // ------------------------------------------------------------------
  // Operations
  // ------------------------------------------------------------------

  /** An operation as derived from a row change. */
  datatype SyncOp =
    | Put(doc: Document, assumeNew: bool)
    | Remove(key: ObjectKey, routes: Routes)
    | Clear(objectType: Option<string>)

  /** An operation completed from the current documents, as the tail log keeps it. */
  datatype TailOp =
    | PutOp(doc: Document, previous: Option<Document>)
    | RemoveOp(key: ObjectKey, routes: Routes, data: Option<string>)
    | ClearOp(objectType: Option<string>)

  /** Complete an operation: a put learns the document it replaces, a remove
      learns the route fields and data of the document it deletes. */
  function Materialize(docs: Documents, op: SyncOp): TailOp {
    match op
    case Put(d, assumeNew) =>
      PutOp(d, if !assumeNew && d.Key() in docs then Some(docs[d.Key()]) else None)
    case Remove(k, routes) =>
      if k in docs then RemoveOp(k, docs[k].routes, Some(docs[k].data)) else RemoveOp(k, routes, None)
    case Clear(t) => ClearOp(t)
  }

  /** The document a completed remove deletes. */
  function Removed(op: TailOp): Option<Document>
    requires op.RemoveOp?
  {
    if op.data.Some? then Some(Document(op.key.objectType, op.key.objectId, op.routes, op.data.value)) else None
  }

  predicate Cleared(objectType: Option<string>, k: ObjectKey) {
    objectType.None? || k.objectType == objectType.value
  }

  function ApplyToDocuments(docs: Documents, op: TailOp): Documents {
    match op
    case PutOp(d, _) => docs[d.Key() := d]
    case RemoveOp(k, _, _) => docs - {k}
    case ClearOp(t) => docs - set k | k in docs && Cleared(t, k)
  }

  function KeysOf(ds: seq<Document>): set<ObjectKey> {
    set d | d in ds :: d.Key()
  }

  function WithoutDocuments(oracle: Oracle, plan: Plan, acc: Accumulators, ds: seq<Document>): Accumulators {
    if ds == [] then acc
    else WithoutDocument(oracle, plan, WithoutDocuments(oracle, plan, acc, ds[..|ds| - 1]), ds[|ds| - 1])
  }

  /** An enumeration of exactly the documents a clear deletes. */
  ghost predicate Enumerates(ds: seq<Document>, docs: Documents, objectType: Option<string>) {
    && (forall i | 0 <= i < |ds| :: ds[i].Key() in docs && docs[ds[i].Key()] == ds[i] && Cleared(objectType, ds[i].Key()))
    && (forall i, j | 0 <= i < j < |ds| :: ds[i].Key() != ds[j].Key())
    && (forall k | k in docs && Cleared(objectType, k) :: docs[k] in ds)
  }

  /** The current accumulators after an operation. A clear visits the deleted
      documents one by one, in the given order. */
  function ApplyToCurrent(oracle: Oracle, plan: Plan, acc: Accumulators, op: TailOp, order: seq<Document>): Accumulators {
    match op
    case PutOp(d, previous) =>
      var without := if previous.Some? then WithoutDocument(oracle, plan, acc, previous.value) else acc;
      WithDocument(oracle, plan, without, d)
    case RemoveOp(_, _, _) =>
      if Removed(op).Some? then WithoutDocument(oracle, plan, acc, Removed(op).value) else acc
    case ClearOp(_) => WithoutDocuments(oracle, plan, acc, order)
  }

  /** The queries a remove is accounted under in the tail: without data, by routes alone. */
  function RemoveTargets(oracle: Oracle, plan: Plan, op: TailOp): set<Query>
    requires op.RemoveOp?
  {
    if op.data.Some? then Touched(oracle, plan, Removed(op).value)
    else Targets(plan, op.key.objectType, op.routes)
  }

  /** The document whose put entry an operation supersedes. */
  function Superseded(op: TailOp): Option<Document> {
    match op
    case PutOp(_, previous) => previous
    case RemoveOp(_, _, _) => Removed(op)
    case ClearOp(_) => None
  }

  /** The superseded-tail accumulators after an operation: the replaced put
      entry, and for a remove the remove entry itself. */
  function ApplyToTail(oracle: Oracle, plan: Plan, acc: Accumulators, op: TailOp): Accumulators {
    var superseded := if Superseded(op).Some? then WithDocument(oracle, plan, acc, Superseded(op).value) else acc;
    if op.RemoveOp? then
      superseded + map q | q in RemoveTargets(oracle, plan, op) ::
        Plus(Get(superseded, q), oracle.removeSum(op.key.objectType, op.key.objectId))
    else superseded
  }

  /** Documents together with both families of accumulators. */
  datatype Ledger = Ledger(docs: Documents, current: Accumulators, tail: Accumulators)

  function Applied(oracle: Oracle, plan: Plan, s: Ledger, op: TailOp, order: seq<Document>): Ledger {
    Ledger(ApplyToDocuments(s.docs, op),
           ApplyToCurrent(oracle, plan, s.current, op, order),
           ApplyToTail(oracle, plan, s.tail, op))
  }

  /** `assume_new` is only claimed for absent documents. */
  predicate HonestlyNew(docs: Documents, op: SyncOp) {
    op.Put? && op.assumeNew ==> op.doc.Key() !in docs
  }

  /** One step of the store. */
  ghost predicate Next(oracle: Oracle, plan: Plan, s: Ledger, s': Ledger, op: SyncOp) {
    exists order: seq<Document> ::
      && (op.Clear? ==> Enumerates(order, s.docs, op.objectType))
      && s' == Applied(oracle, plan, s, Materialize(s.docs, op), order)
  }

  ghost predicate Sound(oracle: Oracle, plan: Plan, s: Ledger) {
    Keyed(s.docs) && Exact(oracle, plan, s.docs, s.current)
  }

  lemma {:induction false} ClearingKeepsExact(oracle: Oracle, plan: Plan, docs: Documents, acc: Accumulators, ds: seq<Document>)
    requires Keyed(docs) && Exact(oracle, plan, docs, acc)
    requires forall i | 0 <= i < |ds| :: ds[i].Key() in docs && docs[ds[i].Key()] == ds[i]
    requires forall i, j | 0 <= i < j < |ds| :: ds[i].Key() != ds[j].Key()
    ensures Exact(oracle, plan, docs - KeysOf(ds), WithoutDocuments(oracle, plan, acc, ds))
  {
    if ds == [] {
      assert docs - KeysOf(ds) == docs;
    } else {
      var front, last := ds[..|ds| - 1], ds[|ds| - 1];
      ClearingKeepsExact(oracle, plan, docs, acc, front);
      var rest := docs - KeysOf(front);
      assert ds == front + [last];
      assert KeysOf(ds) == KeysOf(front) + {last.Key()};
      assert last.Key() in rest && rest[last.Key()] == last;
      RemovingKeepsExact(oracle, plan, rest, WithoutDocuments(oracle, plan, acc, front), last.Key());
      assert docs - KeysOf(ds) == rest - {last.Key()};
    }
  }

  /** Every operation keeps every current accumulator equal to its recomputation. */
  lemma StepKeepsSound(oracle: Oracle, plan: Plan, s: Ledger, s': Ledger, op: SyncOp)
    requires Sound(oracle, plan, s) && HonestlyNew(s.docs, op) && Next(oracle, plan, s, s', op)
    ensures Sound(oracle, plan, s')
  {
    var order :| (op.Clear? ==> Enumerates(order, s.docs, op.objectType))
              && s' == Applied(oracle, plan, s, Materialize(s.docs, op), order);
    match op
    case Put(d, _) =>
      var k := d.Key();
      if k in s.docs {
        RemovingKeepsExact(oracle, plan, s.docs, s.current, k);
        AddingKeepsExact(oracle, plan, s.docs - {k}, WithoutDocument(oracle, plan, s.current, s.docs[k]), d);
        assert (s.docs - {k})[k := d] == s.docs[k := d];
      } else {
        AddingKeepsExact(oracle, plan, s.docs, s.current, d);
      }
    case Remove(k, _) =>
      if k in s.docs {
        assert s.docs[k].Key() == k;
        assert Removed(Materialize(s.docs, op)).value == s.docs[k];
        RemovingKeepsExact(oracle, plan, s.docs, s.current, k);
      } else {
        assert s.docs - {k} == s.docs;
      }
    case Clear(t) =>
      ClearingKeepsExact(oracle, plan, s.docs, s.current, order);
      assert KeysOf(order) == (set k | k in s.docs && Cleared(t, k));
  }

  /** A run: each state follows from the one before by one operation. */
  ghost predicate Run(oracle: Oracle, plan: Plan, states: seq<Ledger>, ops: seq<SyncOp>) {
    && |states| == |ops| + 1
    && forall i | 0 <= i < |ops| :: HonestlyNew(states[i].docs, ops[i]) && Next(oracle, plan, states[i], states[i + 1], ops[i])
  }

  const NOTHING: Ledger := Ledger(map[], map[], map[])

  lemma NothingIsSound(oracle: Oracle, plan: Plan)
    ensures Sound(oracle, plan, NOTHING)
  {
    forall q: Query
      ensures ExactAt(oracle, plan, map[], map[], q)
    {
    }
  }

  /** In every state reachable from the empty store by puts, removes and clears,
      each accumulator key holds the count and wrapping checksum of exactly the
      documents that match it, and no subtraction meets a zero count. */
  lemma {:induction false} AccumulatorsEqualRecomputation(oracle: Oracle, plan: Plan, states: seq<Ledger>, ops: seq<SyncOp>, i: nat)
    requires Run(oracle, plan, states, ops) && states[0] == NOTHING && i < |states|
    ensures Keyed(states[i].docs) && Exact(oracle, plan, states[i].docs, states[i].current)
    ensures forall k, q | k in states[i].docs && q in Touched(oracle, plan, states[i].docs[k]) :: Get(states[i].current, q).count >= 1
  {
    if i == 0 {
      NothingIsSound(oracle, plan);
    } else {
      AccumulatorsEqualRecomputation(oracle, plan, states, ops, i - 1);
      StepKeepsSound(oracle, plan, states[i - 1], states[i], ops[i - 1]);
    }
    forall k | k in states[i].docs
      ensures forall q | q in Touched(oracle, plan, states[i].docs[k]) :: Get(states[i].current, q).count >= 1
    {
      RemovingKeepsExact(oracle, plan, states[i].docs, states[i].current, k);
    }
  }

  /** A put that wrongly claims to be new keeps an accumulator exact if and only
      if the document it overwrites was not counted under that key. */
  lemma AssumeNewIsExactIffNotCounted(oracle: Oracle, plan: Plan, s: Ledger, d: Document, q: Query)
    requires ExactAt(oracle, plan, s.docs, s.current, q)
    ensures var s' := Applied(oracle, plan, s, Materialize(s.docs, Put(d, true)), []);
            ExactAt(oracle, plan, s'.docs, s'.current, q) <==>
            !(d.Key() in s.docs && q in Touched(oracle, plan, s.docs[d.Key()]))
  {
    var k, after := d.Key(), s.docs[d.Key() := d];
    assert after - {k} == s.docs - {k};
    RecomputeWithout(oracle, plan, after, k, q);
    GetAfterUpdate(oracle, plan, s.current, d, q);
    if k in s.docs {
      RecomputeWithout(oracle, plan, s.docs, k, q);
      if q !in Touched(oracle, plan, s.docs[k]) && q in Touched(oracle, plan, d) {
        WrapAddReduces(Get(s.current, q).checksum, Resum(oracle, plan, s.docs, q), PutSum(oracle, q, d), Resum(oracle, plan, after, q));
      }
    } else {
      AddingKeepsExactAt(oracle, plan, s.docs, s.current, d, q);
    }
  }

  lemma OneRowLedger(oracle: Oracle, plan: Plan, d: Document) returns (s: Ledger)
    ensures Sound(oracle, plan, s) && s.docs == map[d.Key() := d]
  {
    NothingIsSound(oracle, plan);
    AddingKeepsExact(oracle, plan, map[], map[], d);
    s := Ledger(map[][d.Key() := d], WithDocument(oracle, plan, map[], d), map[]);
  }

  /** A put that wrongly claims to be new counts its row twice. */
  lemma FalselyNewRowCountsTwice() returns (oracle: Oracle, plan: Plan, s: Ledger, d: Document, q: Query)
    ensures Sound(oracle, plan, s) && s.docs == map[d.Key() := d]
    ensures var s' := Applied(oracle, plan, s, Materialize(s.docs, Put(d, true)), []);
            s'.docs == s.docs && !ExactAt(oracle, plan, s'.docs, s'.current, q)
  {
    oracle := Oracle((f, x) => true, (f, x) => x, (a, v) => false, (t, i, x) => 1, (t, i) => 1);
    plan, q := OneQueryPlan(None);
    d := Document("t", "1", map[], "{}");
    s := OneRowLedger(oracle, plan, d);
    TargetIffRoutesEqual(plan, q, d.objectType, d.routes);
    assert ExactAt(oracle, plan, s.docs, s.current, q);
    AssumeNewIsExactIffNotCounted(oracle, plan, s, d, q);
    assert s.docs[d.Key() := d] == s.docs;
  }
}
