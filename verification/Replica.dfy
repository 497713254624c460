/** Reads over a changing store: every client that follows a bucket with the
    cursors it was given holds exactly the bucket's rows after every read. */
module Replica {
  import opened Common
  import opened SyncPlan
  import opened Routing
  import opened Accounting
  import opened Serving
  import opened Conservation
  import opened Scopes
  import opened TailLog
  import opened StreamLines

  /** The materialised state and the tail log, as one transaction sees them. */
  datatype Store = Store(ledger: Ledger, ops: map<nat, TailOp>, last: nat, retained: nat, floor: nat)

  /** A client of one bucket and the cursor it was last given. */
  datatype Seat = Seat(cursor: nat, client: Client)

  /** A client that has received nothing yet. */
  const NEWCOMER: Client := Client(map[], 0)

  datatype Move =
    | Writes(ops: seq<SyncOp>)
    | Prunes(retain: nat)
    | Rebuilds(base: nat, rows: seq<SyncOp>)
    | Reads(exhausted: bool, snapshot: ReadSnapshot, streamLast: nat, always: bool)

  // ------------------------------------------------------------------
  // Steps of the store
  // ------------------------------------------------------------------

  /** One source transaction: every operation is applied, then numbered and logged. */
  function Written(oracle: Oracle, plan: Plan, r: Store, ops: seq<SyncOp>): Store {
    var log := Log(r.ledger.docs, ops);
    r.(ledger := LedgerAfter(oracle, plan, r.ledger, log), ops := Extended(r.ops, r.last, log), last := r.last + |log|)
  }

  function Pruned(r: Store, retain: nat): Store {
    var retained := Max(r.retained, r.last - retain);
    r.(retained := retained, ops := Truncated(r.ops, Max(retained, r.floor)))
  }

  /** A store cleared for a new bootstrap, at a cursor generation above every id given so far. */
  function Emptied(base: nat): Store {
    Store(NOTHING, map[], base, base, 0)
  }

  /** One batch of initial rows: they use up ids without being logged. */
  function Batched(oracle: Oracle, plan: Plan, r: Store, rows: seq<SyncOp>): Store {
    r.(ledger := LedgerAfter(oracle, plan, r.ledger, Log(r.ledger.docs, rows)), last := r.last + |rows|)
  }

  /** The completion marker raises the floor to the last id. */
  function Marked(r: Store): Store {
    r.(floor := r.last)
  }

  /** A whole bootstrap: clear, store the initial rows, mark complete. */
  function Rebuilt(oracle: Oracle, plan: Plan, base: nat, rows: seq<SyncOp>): Store {
    Marked(Batched(oracle, plan, Emptied(base), rows))
  }

  // ------------------------------------------------------------------
  // Reads
  // ------------------------------------------------------------------

  /** The cursor is from another generation, or its continuation is gone. */
  predicate NeedsReset(r: Store, after: nat) {
    after > r.last || (after > 0 && (after < r.floor || after < r.retained))
  }

  /** The selected operations among `lo + 1` to `hi`, by id. */
  ghost function OpsList(ops: map<nat, TailOp>, ids: set<nat>, lo: nat, hi: nat): seq<(nat, TailOp)>
    requires lo <= hi
  {
    if lo == hi then []
    else OpsList(ops, ids, lo, hi - 1) + (if hi in ids && hi in ops then [(hi, ops[hi])] else [])
  }

  ghost function CountOf(acc: Accumulators): Query -> int {
    q => Get(acc, q).count
  }

  ghost function ChecksumOf(acc: Accumulators): Query -> int {
    q => Get(acc, q).checksum
  }

  /** The accumulators of a bucket's queries added up, the checksum wrapping. */
  ghost predicate Totals(acc: Accumulators, b: Bucket, total: Accumulator) {
    && total.count == Sum(CountOf(acc), Elements(b.queries))
    && total.checksum == Sum(ChecksumOf(acc), Elements(b.queries)) % TWO_32
  }

  /** The ids the bucket's index names select above a cursor. */
  ghost predicate Selects(plan: Plan, b: Bucket, r: Store, after: nat, ids: set<nat>) {
    forall id | after < id <= r.last && id in r.ops :: id in ids <==> Indexed(plan, BucketKeys(b), r.ops[id])
  }

  /** What a read transaction may return for a bucket and a cursor; a scan that
      exhausts its budget asks for a reset instead of a partial delta. */
  ghost predicate MayRead(plan: Plan, b: Bucket, r: Store, after: nat, exhausted: bool, s: ReadSnapshot) {
    && s.latest == r.last
    && s.reset == (NeedsReset(r, after) || (exhausted && 0 < after < r.last))
    && Totals(r.ledger.current, b, s.current) && Totals(r.ledger.tail, b, s.tail)
    && (EffectiveAfter(after, s) == 0 ==>
          s.ops == [] && EachOnce(s.documents, r.ledger.docs, BucketScope(plan, r.ledger.docs, b.queries)))
    && (EffectiveAfter(after, s) > 0 ==>
          after <= r.last && exists ids :: Selects(plan, b, r, after, ids) && s.ops == OpsList(r.ops, ids, after, r.last))
  }

  lemma TotalsOf(acc: Accumulators, b: Bucket) returns (total: Accumulator)
    ensures Totals(acc, b, total)
  {
    SumSubset(CountOf(acc), {}, Elements(b.queries));
    total := Accumulator(Sum(ChecksumOf(acc), Elements(b.queries)) % TWO_32, Sum(CountOf(acc), Elements(b.queries)));
  }

  /** A read transaction always has an answer. */
  lemma SomeRead(plan: Plan, b: Bucket, r: Store, after: nat, exhausted: bool) returns (s: ReadSnapshot)
    requires Keyed(r.ledger.docs)
    ensures MayRead(plan, b, r, after, exhausted, s)
  {
    var docs, reset := r.ledger.docs, NeedsReset(r, after) || (exhausted && 0 < after < r.last);
    BucketScopeIsKnown(plan, docs, b.queries);
    var found := ListScope(docs, BucketScope(plan, docs, b.queries));
    var current := TotalsOf(r.ledger.current, b);
    var tail := TotalsOf(r.ledger.tail, b);
    var ids := set id | id in r.ops && Indexed(plan, BucketKeys(b), r.ops[id]);
    assert Selects(plan, b, r, after, ids);
    s := ReadSnapshot(r.last, reset, found, if reset || after == 0 then [] else OpsList(r.ops, ids, after, r.last), current, tail);
  }

  // ------------------------------------------------------------------
  // Invariants
  // ------------------------------------------------------------------

  ghost predicate ScalarDocs(oracle: Oracle, docs: Documents) {
    forall k | k in docs :: ScalarRoutes(oracle, docs[k].routes)
  }

  ghost predicate ScalarSyncOp(oracle: Oracle, op: SyncOp) {
    match op
    case Put(d, _) => ScalarRoutes(oracle, d.routes)
    case Remove(_, routes) => ScalarRoutes(oracle, routes)
    case Clear(_) => false
  }

  ghost predicate ScalarOps(oracle: Oracle, ops: seq<SyncOp>) {
    forall i | 0 <= i < |ops| :: ScalarSyncOp(oracle, ops[i])
  }

  ghost predicate LogComplete(oracle: Oracle, r: Store) {
    && r.floor <= r.last && r.retained <= r.last
    && (forall id :: id in r.ops <==> Max(r.retained, r.floor) < id <= r.last)
    && (forall id | id in r.ops :: RowOp(r.ops[id]) && ScalarOp(oracle, r.ops[id]))
  }

  /** The accumulators are exact, ids have kept ahead of the documents, and the
      log holds every operation above both floors. */
  ghost predicate Consistent(oracle: Oracle, plan: Plan, r: Store) {
    && Sound(oracle, plan, r.ledger) && ScalarDocs(oracle, r.ledger.docs)
    && |r.ledger.docs| <= r.last && (r.last == 0 ==> r.ledger.tail == map[]) && LogComplete(oracle, r)
  }

  ghost predicate Resumable(r: Store, cursor: nat) {
    0 < cursor <= r.last && r.floor <= cursor && r.retained <= cursor
  }

  /** If the cursor can be resumed, the operations after it lead the client to the bucket's rows. */
  ghost predicate Synced(oracle: Oracle, b: Bucket, r: Store, seat: Seat) {
    && seat.cursor <= r.last
    && (seat.cursor == 0 ==> seat.client == NEWCOMER)
    && (Resumable(r, seat.cursor) ==>
          ReceiveAll(seat.client, Delta(oracle, b, r.ops, seat.cursor, r.last)).rows == View(oracle, b, r.ledger.docs))
  }

  // ------------------------------------------------------------------
  // The accumulators of a bucket count its rows
  // ------------------------------------------------------------------

  /** The entries, none or one, a document has in a full snapshot. */
  function RowEntries(oracle: Oracle, b: Bucket, d: Document): seq<OplogEntry> {
    Served(oracle, b, 0, PutOp(d, None))
  }

  ghost function RowCount(oracle: Oracle, b: Bucket, docs: Documents): ObjectKey -> int {
    k => if k in docs then |RowEntries(oracle, b, docs[k])| else 0
  }

  ghost function RowSum(oracle: Oracle, b: Bucket, docs: Documents): ObjectKey -> int {
    k => if k in docs then EntryTotal(RowEntries(oracle, b, docs[k])) else 0
  }

  ghost function RecountOf(oracle: Oracle, plan: Plan, docs: Documents): Query -> int {
    q => Recount(oracle, plan, docs, q)
  }

  ghost function ResumOf(oracle: Oracle, plan: Plan, docs: Documents): Query -> int {
    q => Resum(oracle, plan, docs, q)
  }

  lemma RecomputeOneLess(oracle: Oracle, plan: Plan, b: Bucket, docs: Documents, k: ObjectKey)
    requires k in docs
    ensures var op, qs, rest := PutOp(docs[k], None), Elements(b.queries), docs - {k};
            && Sum(RecountOf(oracle, plan, docs), qs) == Sum(RecountOf(oracle, plan, rest), qs) + Sum(GainCount(oracle, plan, op), qs)
            && Sum(ResumOf(oracle, plan, docs), qs) == Sum(ResumOf(oracle, plan, rest), qs) + Sum(GainSum(oracle, plan, op), qs)
  {
    var op, qs, rest := PutOp(docs[k], None), Elements(b.queries), docs - {k};
    forall q | q in qs
      ensures RecountOf(oracle, plan, docs)(q) == RecountOf(oracle, plan, rest)(q) + GainCount(oracle, plan, op)(q)
      ensures ResumOf(oracle, plan, docs)(q) == ResumOf(oracle, plan, rest)(q) + GainSum(oracle, plan, op)(q)
    {
      RecomputeWithout(oracle, plan, docs, k, q);
    }
    SumAdds(RecountOf(oracle, plan, rest), GainCount(oracle, plan, op), RecountOf(oracle, plan, docs), qs);
    SumAdds(ResumOf(oracle, plan, rest), GainSum(oracle, plan, op), ResumOf(oracle, plan, docs), qs);
  }

  lemma RowsOneLess(oracle: Oracle, b: Bucket, docs: Documents, k: ObjectKey)
    requires k in docs
    ensures var rest := docs - {k};
            && Sum(RowCount(oracle, b, docs), docs.Keys) == Sum(RowCount(oracle, b, rest), rest.Keys) + |RowEntries(oracle, b, docs[k])|
            && Sum(RowSum(oracle, b, docs), docs.Keys) == Sum(RowSum(oracle, b, rest), rest.Keys) + EntryTotal(RowEntries(oracle, b, docs[k]))
  {
    var rest := docs - {k};
    assert rest.Keys == docs.Keys - {k};
    SumExtract(RowCount(oracle, b, docs), docs.Keys, k);
    SumExtract(RowSum(oracle, b, docs), docs.Keys, k);
    SumCongruent(RowCount(oracle, b, docs), RowCount(oracle, b, rest), rest.Keys);
    SumCongruent(RowSum(oracle, b, docs), RowSum(oracle, b, rest), rest.Keys);
  }

  /** Recomputed over a bucket's queries, counts and checksums are those of the
      entries the bucket's rows have in a full snapshot. */
  ghost predicate RowsRecomputed(oracle: Oracle, plan: Plan, b: Bucket, docs: Documents) {
    && Sum(RecountOf(oracle, plan, docs), Elements(b.queries)) == Sum(RowCount(oracle, b, docs), docs.Keys)
    && Sum(ResumOf(oracle, plan, docs), Elements(b.queries)) == Sum(RowSum(oracle, b, docs), docs.Keys)
  }

  lemma NoRowsRecomputed(oracle: Oracle, plan: Plan, b: Bucket)
    ensures RowsRecomputed(oracle, plan, b, map[])
  {
    SumZero(RecountOf(oracle, plan, map[]), Elements(b.queries));
    SumZero(ResumOf(oracle, plan, map[]), Elements(b.queries));
  }

  lemma OneMoreRecomputed(oracle: Oracle, plan: Plan, b: Bucket, docs: Documents, k: ObjectKey)
    requires WellShaped(b) && Known(plan, b) && k in docs && ScalarRoutes(oracle, docs[k].routes)
    requires RowsRecomputed(oracle, plan, b, docs - {k})
    ensures RowsRecomputed(oracle, plan, b, docs)
  {
    RecomputeOneLess(oracle, plan, b, docs, k);
    RowsOneLess(oracle, b, docs, k);
    BucketGain(oracle, plan, b, PutOp(docs[k], None), 0);
  }

  lemma {:induction false} RecomputationIsRows(oracle: Oracle, plan: Plan, b: Bucket, docs: Documents)
    requires WellShaped(b) && Known(plan, b) && ScalarDocs(oracle, docs)
    ensures RowsRecomputed(oracle, plan, b, docs)
    decreases |docs|
  {
    if docs == map[] {
      NoRowsRecomputed(oracle, plan, b);
    } else {
      var k :| k in docs;
      var rest := docs - {k};
      assert rest.Keys == docs.Keys - {k} && |rest| == |docs| - 1;
      RecomputationIsRows(oracle, plan, b, rest);
      OneMoreRecomputed(oracle, plan, b, docs, k);
    }
  }

  lemma StoredIsRecomputed(oracle: Oracle, plan: Plan, b: Bucket, s: Ledger)
    requires Sound(oracle, plan, s)
    ensures Sum(CountOf(s.current), Elements(b.queries)) == Sum(RecountOf(oracle, plan, s.docs), Elements(b.queries))
    ensures Congruent(Sum(ChecksumOf(s.current), Elements(b.queries)), Sum(ResumOf(oracle, plan, s.docs), Elements(b.queries)))
  {
    var qs, zero := Elements(b.queries), (q: Query) => 0;
    forall q | q in qs
      ensures CountOf(s.current)(q) == RecountOf(oracle, plan, s.docs)(q)
      ensures Congruent(ChecksumOf(s.current)(q), ResumOf(oracle, plan, s.docs)(q) + zero(q))
    {
      assert ExactAt(oracle, plan, s.docs, s.current, q);
      CongruentIffSameChecksum(ChecksumOf(s.current)(q), ResumOf(oracle, plan, s.docs)(q));
    }
    SumCongruent(CountOf(s.current), RecountOf(oracle, plan, s.docs), qs);
    SumsAreCongruent(ChecksumOf(s.current), ResumOf(oracle, plan, s.docs), zero, qs);
    SumZero(zero, qs);
  }

  /** The current accumulators of a bucket hold the count and checksum of the
      entries of its rows. */
  lemma AccumulatorsAreRows(oracle: Oracle, plan: Plan, b: Bucket, s: Ledger)
    requires Sound(oracle, plan, s) && ScalarDocs(oracle, s.docs) && WellShaped(b) && Known(plan, b)
    ensures Sum(CountOf(s.current), Elements(b.queries)) == Sum(RowCount(oracle, b, s.docs), s.docs.Keys)
    ensures Congruent(Sum(ChecksumOf(s.current), Elements(b.queries)), Sum(RowSum(oracle, b, s.docs), s.docs.Keys))
  {
    StoredIsRecomputed(oracle, plan, b, s);
    RecomputationIsRows(oracle, plan, b, s.docs);
  }

  /** Cursors never outrun the log: the counts of a bucket's queries together
      never exceed the number of documents. */
  lemma StoredCountBound(oracle: Oracle, plan: Plan, b: Bucket, s: Ledger)
    requires Sound(oracle, plan, s) && ScalarDocs(oracle, s.docs) && WellShaped(b) && Known(plan, b)
    ensures Sum(CountOf(s.current), Elements(b.queries)) <= |s.docs|
  {
    AccumulatorsAreRows(oracle, plan, b, s);
    SumBounds(RowCount(oracle, b, s.docs), s.docs.Keys);
  }

  // ------------------------------------------------------------------
  // A snapshot read
  // ------------------------------------------------------------------

  /** What a bucket shows of a list of documents. */
  ghost function ShownOf(oracle: Oracle, b: Bucket, ds: seq<Document>): map<ObjectKey, string> {
    if ds == [] then map[] else
      var rest := ShownOf(oracle, b, ds[..|ds| - 1]);
      var d := ds[|ds| - 1];
      if Shown(oracle, b, d).Some? then rest[d.Key() := Shown(oracle, b, d).value] else rest
  }

  lemma {:induction false} ShownOfIs(oracle: Oracle, b: Bucket, ds: seq<Document>, docs: Documents)
    requires forall i | 0 <= i < |ds| :: ds[i].Key() in docs && docs[ds[i].Key()] == ds[i]
    ensures forall k :: k in ShownOf(oracle, b, ds) <==> k in docs && docs[k] in ds && docs[k].Key() == k && Shown(oracle, b, docs[k]).Some?
    ensures forall k | k in ShownOf(oracle, b, ds) :: Shown(oracle, b, docs[k]) == Some(ShownOf(oracle, b, ds)[k])
  {
    if ds != [] {
      var front, d := ds[..|ds| - 1], ds[|ds| - 1];
      assert ds == front + [d];
      ShownOfIs(oracle, b, front, docs);
    }
  }

  /** A list of current documents shows the bucket's rows if and only if it
      has every document the bucket holds. */
  lemma ListShowsTheViewIff(oracle: Oracle, b: Bucket, docs: Documents, ds: seq<Document>)
    requires Keyed(docs) && forall i | 0 <= i < |ds| :: ds[i].Key() in docs && docs[ds[i].Key()] == ds[i]
    ensures ShownOf(oracle, b, ds) == View(oracle, b, docs) <==> forall k | k in docs && Holds(oracle, b, docs[k]) :: docs[k] in ds
  {
    ShownOfIs(oracle, b, ds, docs);
    forall k | k in docs
      ensures Shown(oracle, b, docs[k]).Some? <==> Holds(oracle, b, docs[k])
      ensures k in View(oracle, b, docs) <==> Holds(oracle, b, docs[k])
    {
      ShownIffHeld(oracle, b, docs[k]);
    }
  }

  /** Receiving renumbered put entries over no rows builds exactly what they show. */
  lemma {:induction false} PutsBuildRows(oracle: Oracle, b: Bucket, ds: seq<Document>, first: nat, c: Client)
    requires c.rows == map[]
    ensures ReceiveAll(c, Renumbered(CurrentEntries(oracle, b, ds), first)).rows == ShownOf(oracle, b, ds)
  {
    if ds != [] {
      var front, d := ds[..|ds| - 1], ds[|ds| - 1];
      PutsBuildRows(oracle, b, front, first, c);
      ShownIffHeld(oracle, b, d);
      var es := CurrentEntries(oracle, b, front);
      if Holds(oracle, b, d) {
        var e := PutEntryFor(oracle, b, 0, d);
        assert Renumbered(es + [e], first) == Renumbered(es, first) + [e.(opId := first + |es|)];
        ReceiveLast(c, Renumbered(es, first), e.(opId := first + |es|));
      } else {
        assert es + [] == es;
      }
    }
  }

  lemma ReceiveLast(c: Client, es: seq<OplogEntry>, e: OplogEntry)
    ensures ReceiveAll(c, es + [e]) == Receive(ReceiveAll(c, es), e)
  {
    assert (es + [e])[..|es|] == es;
  }

  lemma {:induction false} CurrentEntriesBound(oracle: Oracle, b: Bucket, docs: Documents, ds: seq<Document>)
    requires forall i | 0 <= i < |ds| :: ds[i].Key() in docs
    requires forall i, j | 0 <= i < j < |ds| :: ds[i].Key() != ds[j].Key()
    ensures |CurrentEntries(oracle, b, ds)| <= |docs|
    decreases |ds|
  {
    if ds != [] {
      var front, d := ds[..|ds| - 1], ds[|ds| - 1];
      var rest := docs - {d.Key()};
      assert rest.Keys == docs.Keys - {d.Key()} && |rest| == |docs| - 1;
      CurrentEntriesBound(oracle, b, rest, front);
    }
  }

  /** CLEAR, if needed, and the entries of a list of documents leave exactly what the list shows. */
  lemma SnapshotBuilds(oracle: Oracle, b: Bucket, ds: seq<Document>, clear: seq<OplogEntry>, first: nat, c: Client)
    requires if clear == [] then c.rows == map[] else |clear| == 1 && clear[0].kind.ClearEntry?
    ensures ReceiveAll(c, clear + Renumbered(CurrentEntries(oracle, b, ds), first)).rows == ShownOf(oracle, b, ds)
  {
    OneEntry(c, clear);
    ReceiveAllSplits(c, clear, Renumbered(CurrentEntries(oracle, b, ds), first));
    PutsBuildRows(oracle, b, ds, first, ReceiveAll(c, clear));
  }

  lemma SnapshotShape(v: BucketView, last: nat, always: bool) returns (clear: seq<OplogEntry>, first: nat)
    ensures SnapshotEntries(v, last, always) == clear + Renumbered(v.current, first)
    ensures if IncludesClear(v, always) then |clear| == 1 && clear[0].kind.ClearEntry? else clear == []
  {
    var clears := IncludesClear(v, always);
    var extra := if clears then 1 else 0;
    var start := SaturatingSub(Min(v.lastOpId, last), SaturatingSub(|v.current| + extra, 1));
    clear, first := ClearEntries(clears, start, if v.clearChecksum.Some? then v.clearChecksum.value else 0), start + extra;
  }

  /** A full snapshot of a list of documents leaves the client with the bucket's
      rows - whatever it held if CLEAR is sent, from nothing if it is not - if
      and only if the list has every document the bucket holds. */
  lemma SnapshotBuildsViewIff(oracle: Oracle, b: Bucket, docs: Documents, ds: seq<Document>, v: BucketView, last: nat, always: bool, c: Client)
    requires Keyed(docs) && (forall i | 0 <= i < |ds| :: ds[i].Key() in docs && docs[ds[i].Key()] == ds[i])
    requires v.current == CurrentEntries(oracle, b, ds) && (IncludesClear(v, always) || c.rows == map[])
    ensures ReceiveAll(c, SnapshotEntries(v, last, always)).rows == View(oracle, b, docs)
            <==> forall k | k in docs && Holds(oracle, b, docs[k]) :: docs[k] in ds
  {
    var clear, first := SnapshotShape(v, last, always);
    SnapshotBuilds(oracle, b, ds, clear, first, c);
    ListShowsTheViewIff(oracle, b, docs, ds);
  }

  // ------------------------------------------------------------------
  // A delta read
  // ------------------------------------------------------------------

  lemma {:induction false} ListedEntries(oracle: Oracle, b: Bucket, ops: map<nat, TailOp>, ids: set<nat>, lo: nat, hi: nat)
    requires lo <= hi
    ensures OpsEntries(oracle, b, OpsList(ops, ids, lo, hi)) == SelectedDelta(oracle, b, ops, ids, lo, hi)
  {
    if lo < hi {
      ListedEntries(oracle, b, ops, ids, lo, hi - 1);
      var front := OpsList(ops, ids, lo, hi - 1);
      if hi in ids && hi in ops {
        assert (front + [(hi, ops[hi])])[..|front|] == front;
      } else {
        assert front + [] == front;
      }
    }
  }

  lemma {:induction false} DeltaIsAfter(oracle: Oracle, b: Bucket, ops: map<nat, TailOp>, lo: nat, hi: nat)
    requires lo <= hi
    ensures After(Delta(oracle, b, ops, lo, hi), lo) == Delta(oracle, b, ops, lo, hi)
  {
    if lo < hi {
      DeltaIsAfter(oracle, b, ops, lo, hi - 1);
      var front := Delta(oracle, b, ops, lo, hi - 1);
      if hi in ops && Served(oracle, b, hi, ops[hi]) != [] {
        var e := Served(oracle, b, hi, ops[hi])[0];
        assert Served(oracle, b, hi, ops[hi]) == [e];
        assert (front + [e])[..|front|] == front;
      } else {
        assert front + [] == front;
      }
    }
  }

  lemma ScalarEffectsReached(oracle: Oracle, b: Bucket, r: Store, after: nat)
    requires LogComplete(oracle, r)
    ensures EffectsReached(oracle, b, r.ops, after, r.last)
  {
    forall id | after < id <= r.last && id in r.ops && TailEffect(oracle, b, r.ops[id]).Some?
      ensures OpReached(b, r.ops[id])
    {
      ScalarEffectIsReached(oracle, b, r.ops[id]);
    }
  }

  /** A read from a cursor that can be resumed serves exactly the operations after it. */
  lemma DeltaRead(oracle: Oracle, plan: Plan, name: string, b: Bucket, r: Store, after: nat, exhausted: bool, s: ReadSnapshot,
                  v: BucketView, last: nat, always: bool)
    requires Consistent(oracle, plan, r) && WellShaped(b) && Known(plan, b) && after > 0 && !s.reset
    requires MayRead(plan, b, r, after, exhausted, s)
    requires v == BuildPayload(oracle, name, b, after, s) && v.lastOpId <= last
    ensures Resumable(r, after) && v.lastOpId == r.last
    ensures ViewEntries(v, last, always) == Delta(oracle, b, r.ops, after, r.last)
  {
    StoredCountBound(oracle, plan, b, r.ledger);
    assert EffectiveAfter(after, s) == after;
    assert v.lastOpId == r.last && v.after == Some(after) && v.snapshotFloor == 0;
    var ids :| Selects(plan, b, r, after, ids) && s.ops == OpsList(r.ops, ids, after, r.last);
    ListedEntries(oracle, b, r.ops, ids, after, r.last);
    SelectionIsDeltaIff(oracle, plan, b, r.ops, ids, after, r.last);
    ScalarEffectsReached(oracle, b, r, after);
    DeltaIsAfter(oracle, b, r.ops, after, r.last);
  }

  // ------------------------------------------------------------------
  // Every read converges
  // ------------------------------------------------------------------

  lemma EmptyStoreShowsNothing(oracle: Oracle, b: Bucket, docs: Documents)
    requires |docs| == 0
    ensures View(oracle, b, docs) == map[]
  {
    assert docs.Keys == {};
  }

  lemma ScalarDocsReached(oracle: Oracle, b: Bucket, docs: Documents)
    requires Keyed(docs) && ScalarDocs(oracle, docs)
    ensures AllReached(oracle, b, docs)
  {
    forall k | k in docs && Holds(oracle, b, docs[k])
      ensures Reached(b, k.objectType, docs[k].routes)
    {
      assert docs[k].Key() == k;
      ScalarRowIsReached(oracle, b, k.objectType, docs[k].routes);
    }
  }

  lemma SnapshotRead(oracle: Oracle, plan: Plan, name: string, b: Bucket, r: Store, seat: Seat, exhausted: bool, s: ReadSnapshot,
                     v: BucketView, last: nat, always: bool)
    requires Consistent(oracle, plan, r) && Known(plan, b) && Synced(oracle, b, r, seat) && EffectiveAfter(seat.cursor, s) == 0
    requires MayRead(plan, b, r, seat.cursor, exhausted, s)
    requires v == BuildPayload(oracle, name, b, seat.cursor, s) && v.lastOpId <= last
    ensures v.lastOpId == r.last
    ensures ReceiveAll(seat.client, ViewEntries(v, last, always)).rows == View(oracle, b, r.ledger.docs)
  {
    ScalarDocsReached(oracle, b, r.ledger.docs);
    CollectionGathersIff(oracle, plan, b, r.ledger.docs, s.documents);
    CurrentEntriesBound(oracle, b, r.ledger.docs, s.documents);
    assert v.lastOpId == r.last;
    if r.last == 0 {
      EmptyStoreShowsNothing(oracle, b, r.ledger.docs);
      assert ViewEntries(v, last, always) == [];
    } else {
      SnapshotPayload(oracle, name, b, seat.cursor, s, v, last);
      SnapshotBuildsViewIff(oracle, b, r.ledger.docs, s.documents, v, last, always, seat.client);
    }
  }

  /** Whatever path a read takes - a delta, a first snapshot, or a reset because
      the cursor is stale or the index scan ran out of budget - the client ends
      with exactly the bucket's rows and a cursor from which it stays in step. */
  lemma ReadConverges(oracle: Oracle, plan: Plan, name: string, b: Bucket, r: Store, seat: Seat, exhausted: bool, s: ReadSnapshot,
                      v: BucketView, last: nat, always: bool)
    requires Consistent(oracle, plan, r) && WellShaped(b) && Known(plan, b) && Synced(oracle, b, r, seat)
    requires MayRead(plan, b, r, seat.cursor, exhausted, s)
    requires v == BuildPayload(oracle, name, b, seat.cursor, s) && v.lastOpId <= last
    ensures var client := ReceiveAll(seat.client, ViewEntries(v, last, always));
            && client.rows == View(oracle, b, r.ledger.docs)
            && v.lastOpId == r.last && Synced(oracle, b, r, Seat(v.lastOpId, client))
  {
    if EffectiveAfter(seat.cursor, s) == 0 {
      SnapshotRead(oracle, plan, name, b, r, seat, exhausted, s, v, last, always);
    } else {
      DeltaRead(oracle, plan, name, b, r, seat.cursor, exhausted, s, v, last, always);
    }
    if r.last == 0 {
      EmptyStoreShowsNothing(oracle, b, r.ledger.docs);
    }
  }

  // ------------------------------------------------------------------
  // Writes, pruning and rebuilding keep clients in step
  // ------------------------------------------------------------------

  lemma {:induction false} ExtendedHas(ops: map<nat, TailOp>, last: nat, log: seq<TailOp>)
    ensures forall id :: id in Extended(ops, last, log) <==> id in ops || last < id <= last + |log|
    ensures forall id | last < id <= last + |log| :: Extended(ops, last, log)[id] == log[id - last - 1]
    ensures forall id | id in ops && id <= last :: Extended(ops, last, log)[id] == ops[id]
  {
    if log != [] {
      ExtendedHas(ops, last, log[..|log| - 1]);
    }
  }

  /** Logged operations, read back, are the served entries of the log. */
  lemma {:induction false} DeltaOfLogged(oracle: Oracle, b: Bucket, ops: map<nat, TailOp>, last: nat, log: seq<TailOp>)
    requires forall id | last < id <= last + |log| :: id in ops && ops[id] == log[id - last - 1]
    ensures Delta(oracle, b, ops, last, last + |log|) == ServedAll(oracle, b, last, log)
  {
    if log != [] {
      var n := |log| - 1;
      DeltaOfLogged(oracle, b, ops, last, log[..n]);
    }
  }

  /** `ops'` is `ops` with a log numbered from `last + 1`. */
  ghost predicate Appends(ops: map<nat, TailOp>, ops': map<nat, TailOp>, last: nat, log: seq<TailOp>) {
    && (forall id | id in ops && id <= last :: id in ops' && ops'[id] == ops[id])
    && (forall id | last < id <= last + |log| :: id in ops' && ops'[id] == log[id - last - 1])
  }

  lemma DeltaContinues(oracle: Oracle, b: Bucket, ops: map<nat, TailOp>, ops': map<nat, TailOp>, cursor: nat, last: nat, end: nat)
    requires cursor <= last <= end
    requires forall id | cursor < id <= last :: id in ops && id in ops' && ops[id] == ops'[id]
    ensures Delta(oracle, b, ops', cursor, end) == Delta(oracle, b, ops, cursor, last) + Delta(oracle, b, ops', last, end)
  {
    DeltaSplits(oracle, b, ops', cursor, last, end);
    DeltaDependsOnRange(oracle, b, ops, ops', cursor, last);
  }

  lemma DeltaAfterWrite(oracle: Oracle, b: Bucket, ops: map<nat, TailOp>, ops': map<nat, TailOp>, cursor: nat, last: nat, log: seq<TailOp>)
    requires cursor <= last && Appends(ops, ops', last, log)
    requires forall id | cursor < id <= last :: id in ops
    ensures Delta(oracle, b, ops', cursor, last + |log|) == Delta(oracle, b, ops, cursor, last) + ServedAll(oracle, b, last, log)
  {
    DeltaContinues(oracle, b, ops, ops', cursor, last, last + |log|);
    DeltaOfLogged(oracle, b, ops', last, log);
  }

  /** The entries of a log take any client from the rows of `docs` to those of `docs'`. */
  ghost predicate Carries(oracle: Oracle, b: Bucket, last: nat, log: seq<TailOp>, docs: Documents, docs': Documents) {
    forall c: Client | c.rows == View(oracle, b, docs) :: ReceiveAll(c, ServedAll(oracle, b, last, log)).rows == View(oracle, b, docs')
  }

  lemma TransactionCarries(oracle: Oracle, b: Bucket, last: nat, docs: Documents, ops: seq<SyncOp>)
    requires Keyed(docs) && RowOps(docs, ops)
    ensures Carries(oracle, b, last, Log(docs, ops), docs, DocumentsAfter(docs, ops))
  {
    forall c: Client | c.rows == View(oracle, b, docs)
      ensures ReceiveAll(c, ServedAll(oracle, b, last, Log(docs, ops))).rows == View(oracle, b, DocumentsAfter(docs, ops))
    {
      ClientConverges(oracle, b, docs, ops, last, c);
    }
  }

  lemma CarriedOn(oracle: Oracle, b: Bucket, last: nat, log: seq<TailOp>, docs: Documents, docs': Documents, c: Client, es: seq<OplogEntry>)
    requires Carries(oracle, b, last, log, docs, docs') && ReceiveAll(c, es).rows == View(oracle, b, docs)
    ensures ReceiveAll(c, es + ServedAll(oracle, b, last, log)).rows == View(oracle, b, docs')
  {
    ReceiveAllSplits(c, es, ServedAll(oracle, b, last, log));
  }

  /** Appending a log moves what a resumed cursor leads to from the old rows to the new ones. */
  lemma WriteAdvances(oracle: Oracle, b: Bucket, r: Store, r': Store, log: seq<TailOp>, seat: Seat)
    requires Synced(oracle, b, r, seat) && Resumable(r, seat.cursor) && LogComplete(oracle, r)
    requires Appends(r.ops, r'.ops, r.last, log) && r'.last == r.last + |log|
    requires Carries(oracle, b, r.last, log, r.ledger.docs, r'.ledger.docs)
    ensures ReceiveAll(seat.client, Delta(oracle, b, r'.ops, seat.cursor, r'.last)).rows == View(oracle, b, r'.ledger.docs)
  {
    DeltaAfterWrite(oracle, b, r.ops, r'.ops, seat.cursor, r.last, log);
    CarriedOn(oracle, b, r.last, log, r.ledger.docs, r'.ledger.docs, seat.client, Delta(oracle, b, r.ops, seat.cursor, r.last));
  }

  lemma WriteKeepsSynced(oracle: Oracle, b: Bucket, r: Store, r': Store, log: seq<TailOp>, seat: Seat)
    requires LogComplete(oracle, r) && Synced(oracle, b, r, seat)
    requires Appends(r.ops, r'.ops, r.last, log) && r'.last == r.last + |log|
    requires Carries(oracle, b, r.last, log, r.ledger.docs, r'.ledger.docs)
    requires r'.retained == r.retained && r'.floor == r.floor
    ensures Synced(oracle, b, r', seat)
  {
    if Resumable(r, seat.cursor) {
      WriteAdvances(oracle, b, r, r', log, seat);
    }
  }

  lemma WrittenCarries(oracle: Oracle, plan: Plan, b: Bucket, r: Store, ops: seq<SyncOp>, r': Store)
    requires Sound(oracle, plan, r.ledger) && RowOps(r.ledger.docs, ops) && r' == Written(oracle, plan, r, ops)
    ensures Carries(oracle, b, r.last, Log(r.ledger.docs, ops), r.ledger.docs, r'.ledger.docs)
  {
    RunStaysSound(oracle, plan, r.ledger, ops);
    TransactionCarries(oracle, b, r.last, r.ledger.docs, ops);
  }

  lemma ExtendedAppends(ops: map<nat, TailOp>, last: nat, log: seq<TailOp>)
    ensures Appends(ops, Extended(ops, last, log), last, log)
  {
    ExtendedHas(ops, last, log);
  }

  lemma PruneKeepsSynced(oracle: Oracle, b: Bucket, r: Store, retain: nat, seat: Seat)
    requires Synced(oracle, b, r, seat)
    ensures Synced(oracle, b, Pruned(r, retain), seat)
  {
    var r' := Pruned(r, retain);
    if Resumable(r', seat.cursor) {
      DeltaDependsOnRange(oracle, b, r.ops, r'.ops, seat.cursor, r.last);
    }
  }

  /** A cursor of an earlier generation is never taken for one of the new generation. */
  lemma RebuildKeepsSynced(oracle: Oracle, plan: Plan, b: Bucket, r: Store, base: nat, rows: seq<SyncOp>, seat: Seat)
    requires Synced(oracle, b, r, seat) && base > r.last
    ensures Synced(oracle, b, Rebuilt(oracle, plan, base, rows), seat)
    ensures seat.cursor > 0 ==> NeedsReset(Rebuilt(oracle, plan, base, rows), seat.cursor)
  {
  }

  // The store's own invariant.

  lemma {:induction false} RunKeepsDocuments(oracle: Oracle, docs: Documents, ops: seq<SyncOp>)
    requires Keyed(docs) && ScalarDocs(oracle, docs) && RowOps(docs, ops) && ScalarOps(oracle, ops)
    ensures |DocumentsAfter(docs, ops)| <= |docs| + |ops| && ScalarDocs(oracle, DocumentsAfter(docs, ops))
    ensures forall i | 0 <= i < |ops| :: RowOp(Log(docs, ops)[i]) && ScalarOp(oracle, Log(docs, ops)[i])
  {
    if ops != [] {
      var front, last := ops[..|ops| - 1], ops[|ops| - 1];
      RunKeepsDocuments(oracle, docs, front);
      RunStaysKeyed(docs, front);
      var prior := DocumentsAfter(docs, front);
      assert ScalarSyncOp(oracle, last);
      OpKeepsDocuments(oracle, prior, last);
      assert Log(docs, ops) == Log(docs, front) + [Materialize(prior, last)];
    }
  }

  lemma OpKeepsDocuments(oracle: Oracle, docs: Documents, op: SyncOp)
    requires Keyed(docs) && ScalarDocs(oracle, docs) && HonestlyNew(docs, op) && ScalarSyncOp(oracle, op)
    ensures var m := Materialize(docs, op);
            && RowOp(m) && ScalarOp(oracle, m) && ScalarDocs(oracle, ApplyToDocuments(docs, m))
            && |ApplyToDocuments(docs, m)| <= |docs| + 1
  {
    OneMoreAtMost(docs, Materialize(docs, op));
  }

  lemma OneMoreAtMost(docs: Documents, op: TailOp)
    requires !op.ClearOp?
    ensures |ApplyToDocuments(docs, op)| <= |docs| + 1
  {
    match op
    case PutOp(d, _) =>
      assert docs[d.Key() := d].Keys == docs.Keys + {d.Key()};
    case RemoveOp(k, _, _) =>
      assert (docs - {k}).Keys <= docs.Keys;
      SubsetSize((docs - {k}).Keys, docs.Keys);
  }

  lemma WriteKeepsConsistent(oracle: Oracle, plan: Plan, r: Store, ops: seq<SyncOp>)
    requires Consistent(oracle, plan, r) && RowOps(r.ledger.docs, ops) && ScalarOps(oracle, ops)
    ensures Consistent(oracle, plan, Written(oracle, plan, r, ops))
  {
    RunStaysSound(oracle, plan, r.ledger, ops);
    RunKeepsDocuments(oracle, r.ledger.docs, ops);
    ExtendedHas(r.ops, r.last, Log(r.ledger.docs, ops));
  }

  lemma RebuildIsConsistent(oracle: Oracle, plan: Plan, base: nat, rows: seq<SyncOp>)
    requires RowOps(map[], rows) && ScalarOps(oracle, rows)
    ensures Consistent(oracle, plan, Rebuilt(oracle, plan, base, rows))
  {
    NothingIsSound(oracle, plan);
    RunStaysSound(oracle, plan, NOTHING, rows);
    RunKeepsDocuments(oracle, map[], rows);
  }

  // ------------------------------------------------------------------
  // Histories
  // ------------------------------------------------------------------

  datatype World = World(store: Store, seat: Seat)

  /** One move of the store or the client, with everything left open that the
      environment decides: the rows, the order of documents, budgets, page floors. */
  ghost predicate Moves(oracle: Oracle, plan: Plan, name: string, b: Bucket, w: World, m: Move, w': World) {
    match m
    case Writes(ops) =>
      RowOps(w.store.ledger.docs, ops) && ScalarOps(oracle, ops) && w' == w.(store := Written(oracle, plan, w.store, ops))
    case Prunes(retain) => w' == w.(store := Pruned(w.store, retain))
    case Rebuilds(base, rows) =>
      base > w.store.last && RowOps(map[], rows) && ScalarOps(oracle, rows)
      && w' == w.(store := Rebuilt(oracle, plan, base, rows))
    case Reads(exhausted, s, last, always) =>
      MayRead(plan, b, w.store, w.seat.cursor, exhausted, s)
      && var v := BuildPayload(oracle, name, b, w.seat.cursor, s);
         v.lastOpId <= last && w' == w.(seat := Seat(v.lastOpId, ReceiveAll(w.seat.client, ViewEntries(v, last, always))))
  }

  ghost predicate InStep(oracle: Oracle, plan: Plan, b: Bucket, w: World) {
    Consistent(oracle, plan, w.store) && Synced(oracle, b, w.store, w.seat)
  }

  lemma WriteMoveKeepsSynced(oracle: Oracle, plan: Plan, b: Bucket, r: Store, ops: seq<SyncOp>, r': Store, seat: Seat)
    requires Consistent(oracle, plan, r) && RowOps(r.ledger.docs, ops) && Synced(oracle, b, r, seat) && r' == Written(oracle, plan, r, ops)
    ensures Synced(oracle, b, r', seat)
  {
    WrittenCarries(oracle, plan, b, r, ops, r');
    ExtendedAppends(r.ops, r.last, Log(r.ledger.docs, ops));
    WriteKeepsSynced(oracle, b, r, r', Log(r.ledger.docs, ops), seat);
  }

  lemma MoveKeepsInStep(oracle: Oracle, plan: Plan, name: string, b: Bucket, w: World, m: Move, w': World)
    requires InStep(oracle, plan, b, w) && WellShaped(b) && Known(plan, b) && Moves(oracle, plan, name, b, w, m, w')
    ensures InStep(oracle, plan, b, w')
    ensures m.Reads? ==> w'.seat.client.rows == View(oracle, b, w'.store.ledger.docs) && w'.seat.cursor == w'.store.last
  {
    match m
    case Writes(ops) =>
      WriteKeepsConsistent(oracle, plan, w.store, ops);
      WriteMoveKeepsSynced(oracle, plan, b, w.store, ops, w'.store, w.seat);
    case Prunes(retain) =>
      PruneKeepsSynced(oracle, b, w.store, retain, w.seat);
    case Rebuilds(base, rows) =>
      RebuildIsConsistent(oracle, plan, base, rows);
      RebuildKeepsSynced(oracle, plan, b, w.store, base, rows, w.seat);
    case Reads(exhausted, s, last, always) =>
      var v := BuildPayload(oracle, name, b, w.seat.cursor, s);
      ReadConverges(oracle, plan, name, b, w.store, w.seat, exhausted, s, v, last, always);
  }

  ghost predicate Steps(oracle: Oracle, plan: Plan, name: string, b: Bucket, ws: seq<World>, ms: seq<Move>) {
    && |ws| == |ms| + 1
    && forall i | 0 <= i < |ms| :: Moves(oracle, plan, name, b, ws[i], ms[i], ws[i + 1])
  }

  /** A client with no rows and no cursor, over a store that may already hold rows. */
  ghost predicate Starts(oracle: Oracle, plan: Plan, w: World) {
    w.seat == Seat(0, NEWCOMER) && Consistent(oracle, plan, w.store)
  }

  lemma {:induction false} StepsStayInStep(oracle: Oracle, plan: Plan, name: string, b: Bucket, ws: seq<World>, ms: seq<Move>, i: nat)
    requires WellShaped(b) && Known(plan, b) && Steps(oracle, plan, name, b, ws, ms) && InStep(oracle, plan, b, ws[0]) && i < |ws|
    ensures InStep(oracle, plan, b, ws[i])
  {
    if i > 0 {
      StepsStayInStep(oracle, plan, name, b, ws, ms, i - 1);
      MoveKeepsInStep(oracle, plan, name, b, ws[i - 1], ms[i - 1], ws[i]);
    }
  }

  /** End to end: over every interleaving of source transactions, pruning, rebuilt
      stores and reads, a client that starts empty holds exactly the bucket's
      projected current documents after each of its reads. */
  lemma EveryReadShowsTheBucket(oracle: Oracle, plan: Plan, name: string, b: Bucket, ws: seq<World>, ms: seq<Move>, i: nat)
    requires WellShaped(b) && Known(plan, b) && Steps(oracle, plan, name, b, ws, ms) && Starts(oracle, plan, ws[0])
    requires i < |ms| && ms[i].Reads?
    ensures ws[i + 1].seat.client.rows == View(oracle, b, ws[i + 1].store.ledger.docs)
  {
    StepsStayInStep(oracle, plan, name, b, ws, ms, i);
    MoveKeepsInStep(oracle, plan, name, b, ws[i], ms[i], ws[i + 1]);
  }

  // ------------------------------------------------------------------
  // Reading while the initial snapshot is being stored
  // ------------------------------------------------------------------

  lemma {:induction false} NothingLoggedAbove(oracle: Oracle, b: Bucket, ops: map<nat, TailOp>, lo: nat, mid: nat, hi: nat)
    requires lo <= mid <= hi && forall id | mid < id <= hi :: id !in ops
    ensures Delta(oracle, b, ops, lo, hi) == Delta(oracle, b, ops, lo, mid)
  {
    if mid < hi {
      NothingLoggedAbove(oracle, b, ops, lo, mid, hi - 1);
    }
  }

  /** Initial rows: documents that are not there yet. */
  predicate NewRows(docs: Documents, rows: seq<SyncOp>) {
    RowOps(docs, rows) && forall i | 0 <= i < |rows| :: rows[i].Put? && rows[i].assumeNew
  }

  lemma {:induction false} BatchKeepsDocuments(docs: Documents, rows: seq<SyncOp>)
    requires NewRows(docs, rows)
    ensures forall k | k in docs :: k in DocumentsAfter(docs, rows)
  {
    if rows != [] {
      BatchKeepsDocuments(docs, rows[..|rows| - 1]);
    }
  }

  /** A batch of new rows leaves the bucket's rows as they are if and only if it holds none of them. */
  lemma {:induction false} BatchShowsNothingIff(oracle: Oracle, b: Bucket, docs: Documents, rows: seq<SyncOp>)
    requires NewRows(docs, rows)
    ensures View(oracle, b, DocumentsAfter(docs, rows)) == View(oracle, b, docs)
            <==> forall i | 0 <= i < |rows| :: !Holds(oracle, b, rows[i].doc)
  {
    if rows != [] {
      var front, d := rows[..|rows| - 1], rows[|rows| - 1].doc;
      BatchShowsNothingIff(oracle, b, docs, front);
      BatchKeepsDocuments(docs, front);
      var prior := DocumentsAfter(docs, front);
      ViewAfterPut(oracle, b, prior, d);
      ShownIffHeld(oracle, b, d);
      if Holds(oracle, b, d) {
        assert d.Key() in View(oracle, b, DocumentsAfter(docs, rows)) && d.Key() !in View(oracle, b, docs);
      } else {
        assert View(oracle, b, prior) - {d.Key()} == View(oracle, b, prior);
        assert forall i | 0 <= i < |front| :: front[i] == rows[i];
      }
    }
  }

  /** Initial rows use up ids without being logged. A client that got a cursor
      between two batches and reads again after the second is not reset, neither
      then nor after the completion marker, and is sent no row of it: it is in
      step if and only if its bucket holds no row of the batch. */
  lemma SnapshotBatchIsMissedIff(oracle: Oracle, plan: Plan, b: Bucket, r: Store, rows: seq<SyncOp>, seat: Seat)
    requires Sound(oracle, plan, r.ledger) && NewRows(r.ledger.docs, rows) && (forall id | id in r.ops :: id <= r.last)
    requires Synced(oracle, b, r, seat) && Resumable(r, seat.cursor)
    ensures var r' := Batched(oracle, plan, r, rows);
            && !NeedsReset(r', seat.cursor) && !NeedsReset(Marked(r'), r'.last)
            && (ReceiveAll(seat.client, Delta(oracle, b, r'.ops, seat.cursor, r'.last)).rows == View(oracle, b, r'.ledger.docs)
                <==> forall i | 0 <= i < |rows| :: !Holds(oracle, b, rows[i].doc))
  {
    var r' := Batched(oracle, plan, r, rows);
    RunStaysSound(oracle, plan, r.ledger, rows);
    BatchShowsNothingIff(oracle, b, r.ledger.docs, rows);
    NothingLoggedAbove(oracle, b, r.ops, seat.cursor, r.last, r'.last);
  }

  /** The bucket of all rows of one type, under foreign functions that pass everything through. */
  lemma PlainBucket() returns (oracle: Oracle, plan: Plan, b: Bucket)
    ensures WellShaped(b) && Known(plan, b)
    ensures forall routes: Routes :: ScalarRoutes(oracle, routes)
    ensures forall d: Document :: d.objectType == "t" ==> Holds(oracle, b, d)
  {
    oracle := Oracle((f, d) => true, (f, d) => d, (a, v) => false, (t, i, d) => 1, (t, i) => 1);
    var q;
    plan, q := OneQueryPlan(None);
    b := Bucket("s", [q], false);
  }

  /** One row missed: a newcomer reads the cleared store and resumes after the
      first batch has stored it. */
  lemma SnapshotBatchIsMissed() returns (oracle: Oracle, plan: Plan, b: Bucket, r: Store, rows: seq<SyncOp>, seat: Seat)
    ensures r == Emptied(1) && seat == Seat(1, NEWCOMER) && |rows| == 1 && NewRows(r.ledger.docs, rows)
    ensures Sound(oracle, plan, r.ledger) && Synced(oracle, b, r, seat) && Resumable(r, seat.cursor)
    ensures var r' := Batched(oracle, plan, r, rows);
            ReceiveAll(seat.client, Delta(oracle, b, r'.ops, seat.cursor, r'.last)).rows != View(oracle, b, r'.ledger.docs)
  {
    oracle, plan, b := PlainBucket();
    r, seat := Emptied(1), Seat(1, NEWCOMER);
    var d := Document("t", "1", map[], "{}");
    rows := [Put(d, true)];
    assert rows[..0] == [] && Holds(oracle, b, rows[0].doc);
    NothingIsSound(oracle, plan);
    EmptyStoreShowsNothing(oracle, b, r.ledger.docs);
    SnapshotBatchIsMissedIff(oracle, plan, b, r, rows, seat);
  }

  // ------------------------------------------------------------------
  // Rows no read reaches
  // ------------------------------------------------------------------

  /** A snapshot read shows the bucket's rows if and only if each of them has
      the route values of a query: one that matches only as a JSON array is
      served by no read. */
  lemma SnapshotShowsReachedOnly(oracle: Oracle, plan: Plan, name: string, b: Bucket, r: Store, after: nat, exhausted: bool, s: ReadSnapshot,
                                 v: BucketView, last: nat, always: bool, c: Client)
    requires Known(plan, b) && Keyed(r.ledger.docs) && MayRead(plan, b, r, after, exhausted, s) && EffectiveAfter(after, s) == 0
    requires v == BuildPayload(oracle, name, b, after, s) && 0 < v.lastOpId <= last && (IncludesClear(v, always) || c.rows == map[])
    ensures ReceiveAll(c, ViewEntries(v, last, always)).rows == View(oracle, b, r.ledger.docs) <==> AllReached(oracle, b, r.ledger.docs)
  {
    CollectionGathersIff(oracle, plan, b, r.ledger.docs, s.documents);
    SnapshotPayload(oracle, name, b, after, s, v, last);
    SnapshotBuildsViewIff(oracle, b, r.ledger.docs, s.documents, v, last, always, c);
  }

  /** A store with one row whose route value is a JSON array: the bucket shows
      the row, but neither its put nor its document is found by a read. */
  lemma ArrayRowIsNeverRead() returns (oracle: Oracle, plan: Plan, b: Bucket, d: Document, r: Store, s: ReadSnapshot)
    ensures WellShaped(b) && Known(plan, b) && r == Rebuilt(oracle, plan, 1, [Put(d, true)]) && Sound(oracle, plan, r.ledger)
    ensures MayRead(plan, b, r, 0, false, s) && d.Key() in View(oracle, b, r.ledger.docs)
    ensures ReceiveAll(NEWCOMER, ViewEntries(BuildPayload(oracle, "b", b, 0, s), r.last, true)).rows == map[]
    ensures TailEffect(oracle, b, PutOp(d, None)) == Some(PutEntry) && !Indexed(plan, BucketKeys(b), PutOp(d, None))
  {
    var q, routes;
    plan, oracle, q, routes := ArrayRouteMatchesOnly();
    b, d := Bucket("s", [q], false), Document(q.objectType, "1", routes, "{}");
    r := Rebuilt(oracle, plan, 1, [Put(d, true)]);
    OneRowStore(oracle, plan, d, r);
    assert Holds(oracle, b, d) && !Reached(b, d.objectType, d.routes);
    ShownIffHeld(oracle, b, d);
    var current := TotalsOf(r.ledger.current, b);
    var tail := TotalsOf(r.ledger.tail, b);
    s := ReadSnapshot(r.last, false, [], [], current, tail);
    InScopeIff(plan, r.ledger.docs, b, d.Key());
    ScopeOfOne(plan, r.ledger.docs, b, d.Key());
    OpIndexedIff(plan, b, PutOp(d, None));
    NothingIsSent(oracle, b, s, r.last);
  }

  lemma OneRowStore(oracle: Oracle, plan: Plan, d: Document, r: Store)
    requires r == Rebuilt(oracle, plan, 1, [Put(d, true)])
    ensures Sound(oracle, plan, r.ledger) && r.ledger.docs == map[d.Key() := d] && r.last == 2 && r.floor == 2 && r.retained == 1
    ensures ScalarRoutes(oracle, d.routes) ==> Consistent(oracle, plan, r)
  {
    var rows := [Put(d, true)];
    assert rows[..0] == [] && RowOps(map[], rows[..0]) && DocumentsAfter(map[], rows[..0]) == map[];
    NothingIsSound(oracle, plan);
    RunStaysSound(oracle, plan, NOTHING, rows);
    assert DocumentsAfter(map[], rows) == map[d.Key() := d];
  }

  lemma ScopeOfOne(plan: Plan, docs: Documents, b: Bucket, k: ObjectKey)
    requires docs.Keys == {k} && k !in BucketScope(plan, docs, b.queries)
    ensures BucketScope(plan, docs, b.queries) == {}
  {
    forall j | j in BucketScope(plan, docs, b.queries)
      ensures j in docs
    {
      InScopeOfSome(plan, docs, b.queries, j);
    }
  }

  lemma NothingIsSent(oracle: Oracle, b: Bucket, s: ReadSnapshot, last: nat)
    requires s.documents == [] && !s.reset && s.latest == last && last > 0
    ensures ReceiveAll(NEWCOMER, ViewEntries(BuildPayload(oracle, "b", b, 0, s), last, true)).rows == map[]
  {
    var v := BuildPayload(oracle, "b", b, 0, s);
    SnapshotPayload(oracle, "b", b, 0, s, v, last);
    var clear, first := SnapshotShape(v, last, true);
    SnapshotBuilds(oracle, b, [], clear, first, NEWCOMER);
  }

  // ------------------------------------------------------------------
  // Hold-open: follow-up reads add up to one read
  // ------------------------------------------------------------------

  ghost function SentBy(oracle: Oracle, name: string, b: Bucket, w: World, m: Move): seq<OplogEntry> {
    if m.Reads? then ViewEntries(BuildPayload(oracle, name, b, w.seat.cursor, m.snapshot), m.streamLast, m.always) else []
  }

  /** The entries sent by the first `i` moves, in order. */
  ghost function Sent(oracle: Oracle, name: string, b: Bucket, ws: seq<World>, ms: seq<Move>, i: nat): seq<OplogEntry>
    requires i <= |ms| && |ws| == |ms| + 1
  {
    if i == 0 then [] else Sent(oracle, name, b, ws, ms, i - 1) + SentBy(oracle, name, b, ws[i - 1], ms[i - 1])
  }

  /** Moves that keep the generation and do not run out of scan budget. */
  predicate Continuous(m: Move) {
    !m.Rebuilds? && (m.Reads? ==> !m.exhausted)
  }

  lemma FloorsOnlyRise(oracle: Oracle, plan: Plan, name: string, b: Bucket, w: World, m: Move, w': World)
    requires Moves(oracle, plan, name, b, w, m, w') && Continuous(m)
    ensures w.store.retained <= w'.store.retained && w.store.floor == w'.store.floor && w.store.last <= w'.store.last
  {
  }

  lemma {:induction false} StaysResumable(oracle: Oracle, plan: Plan, name: string, b: Bucket, ws: seq<World>, ms: seq<Move>, cursor: nat, i: nat)
    requires Steps(oracle, plan, name, b, ws, ms) && (forall k | 0 <= k < |ms| :: Continuous(ms[k])) && i <= |ms|
    requires Resumable(ws[|ms|].store, cursor) && cursor <= ws[i].store.last
    ensures Resumable(ws[i].store, cursor)
    decreases |ms| - i
  {
    if i < |ms| {
      FloorsOnlyRise(oracle, plan, name, b, ws[i], ms[i], ws[i + 1]);
      StaysResumable(oracle, plan, name, b, ws, ms, cursor, i + 1);
    }
  }

  /** What the log holds above a cursor that stays resumable is not changed by a move. */
  lemma MoveKeepsLogAbove(oracle: Oracle, plan: Plan, name: string, b: Bucket, w: World, m: Move, w': World, cursor: nat)
    requires Moves(oracle, plan, name, b, w, m, w') && Continuous(m) && LogComplete(oracle, w.store)
    requires Resumable(w.store, cursor) && Resumable(w'.store, cursor)
    ensures forall id | cursor < id <= w.store.last :: id in w.store.ops && id in w'.store.ops && w.store.ops[id] == w'.store.ops[id]
  {
    if m.Writes? {
      ExtendedHas(w.store.ops, w.store.last, Log(w.store.ledger.docs, m.ops));
    }
  }

  lemma ResumableBeforeAndAfter(oracle: Oracle, plan: Plan, name: string, b: Bucket, ws: seq<World>, ms: seq<Move>, cursor: nat, i: nat)
    requires WellShaped(b) && Known(plan, b) && Steps(oracle, plan, name, b, ws, ms) && InStep(oracle, plan, b, ws[0])
    requires (forall k | 0 <= k < |ms| :: Continuous(ms[k])) && Resumable(ws[|ms|].store, cursor)
    requires 0 < i <= |ms| && cursor <= ws[i - 1].store.last
    ensures InStep(oracle, plan, b, ws[i - 1]) && Moves(oracle, plan, name, b, ws[i - 1], ms[i - 1], ws[i])
    ensures Resumable(ws[i - 1].store, cursor) && Resumable(ws[i].store, cursor)
  {
    StepsStayInStep(oracle, plan, name, b, ws, ms, i - 1);
    FloorsOnlyRise(oracle, plan, name, b, ws[i - 1], ms[i - 1], ws[i]);
    StaysResumable(oracle, plan, name, b, ws, ms, cursor, i - 1);
    StaysResumable(oracle, plan, name, b, ws, ms, cursor, i);
  }

  lemma {:induction false} HoldOpenSoFar(oracle: Oracle, plan: Plan, name: string, b: Bucket, ws: seq<World>, ms: seq<Move>, i: nat)
    requires WellShaped(b) && Known(plan, b) && Steps(oracle, plan, name, b, ws, ms) && InStep(oracle, plan, b, ws[0])
    requires (forall k | 0 <= k < |ms| :: Continuous(ms[k])) && Resumable(ws[|ms|].store, ws[0].seat.cursor) && i <= |ms|
    ensures ws[0].seat.cursor <= ws[i].seat.cursor <= ws[i].store.last
    ensures Sent(oracle, name, b, ws, ms, i) == Delta(oracle, b, ws[i].store.ops, ws[0].seat.cursor, ws[i].seat.cursor)
  {
    var from := ws[0].seat.cursor;
    if i > 0 {
      HoldOpenSoFar(oracle, plan, name, b, ws, ms, i - 1);
      ResumableBeforeAndAfter(oracle, plan, name, b, ws, ms, from, i);
      HoldOpenStep(oracle, plan, name, b, ws[i - 1], ms[i - 1], ws[i], from, Sent(oracle, name, b, ws, ms, i - 1));
    }
  }

  lemma HoldOpenStep(oracle: Oracle, plan: Plan, name: string, b: Bucket, w: World, m: Move, w': World, from: nat, sent: seq<OplogEntry>)
    requires WellShaped(b) && Known(plan, b) && InStep(oracle, plan, b, w) && Moves(oracle, plan, name, b, w, m, w') && Continuous(m)
    requires Resumable(w.store, from) && Resumable(w'.store, from) && from <= w.seat.cursor
    requires sent == Delta(oracle, b, w.store.ops, from, w.seat.cursor)
    ensures from <= w'.seat.cursor <= w'.store.last
    ensures sent + SentBy(oracle, name, b, w, m) == Delta(oracle, b, w'.store.ops, from, w'.seat.cursor)
  {
    if m.Reads? {
      var v := BuildPayload(oracle, name, b, w.seat.cursor, m.snapshot);
      DeltaRead(oracle, plan, name, b, w.store, w.seat.cursor, m.exhausted, m.snapshot, v, m.streamLast, m.always);
      DeltaSplits(oracle, b, w.store.ops, from, w.seat.cursor, w.store.last);
    } else {
      MoveKeepsLogAbove(oracle, plan, name, b, w, m, w', from);
      DeltaDependsOnRange(oracle, b, w.store.ops, w'.store.ops, from, w.seat.cursor);
    }
  }

  lemma EndsInStep(oracle: Oracle, plan: Plan, name: string, b: Bucket, ws: seq<World>, ms: seq<Move>)
    requires WellShaped(b) && Known(plan, b) && Steps(oracle, plan, name, b, ws, ms) && InStep(oracle, plan, b, ws[0])
    requires ms != [] && ms[|ms| - 1].Reads?
    ensures InStep(oracle, plan, b, ws[|ms|]) && ws[|ms|].seat.cursor == ws[|ms|].store.last
  {
    StepsStayInStep(oracle, plan, name, b, ws, ms, |ms| - 1);
    MoveKeepsInStep(oracle, plan, name, b, ws[|ms| - 1], ms[|ms| - 1], ws[|ms|]);
  }

  /** Hold-open exactly once: over any number of follow-up reads, each from the
      cursor the one before ended at, the entries sent are those of a single
      read from the first cursor at the end - no gap, no repeat - as long as
      the first cursor could still be resumed then. */
  lemma HoldOpenExactlyOnce(oracle: Oracle, plan: Plan, name: string, b: Bucket, ws: seq<World>, ms: seq<Move>,
                            s: ReadSnapshot, v: BucketView, last: nat, always: bool)
    requires WellShaped(b) && Known(plan, b) && Steps(oracle, plan, name, b, ws, ms) && InStep(oracle, plan, b, ws[0])
    requires (forall k | 0 <= k < |ms| :: Continuous(ms[k])) && Resumable(ws[|ms|].store, ws[0].seat.cursor)
    requires ms != [] && ms[|ms| - 1].Reads?
    requires MayRead(plan, b, ws[|ms|].store, ws[0].seat.cursor, false, s)
    requires v == BuildPayload(oracle, name, b, ws[0].seat.cursor, s) && v.lastOpId <= last
    ensures Sent(oracle, name, b, ws, ms, |ms|) == ViewEntries(v, last, always)
    ensures ws[|ms|].seat.cursor == v.lastOpId
  {
    var n := |ms|;
    HoldOpenSoFar(oracle, plan, name, b, ws, ms, n);
    EndsInStep(oracle, plan, name, b, ws, ms);
    DeltaRead(oracle, plan, name, b, ws[n].store, ws[0].seat.cursor, false, s, v, last, always);
  }

  lemma {:induction false} SentAfterFirst(oracle: Oracle, name: string, b: Bucket, ws: seq<World>, ms: seq<Move>, i: nat)
    requires |ws| == |ms| + 1 && 0 < i <= |ms|
    ensures Sent(oracle, name, b, ws, ms, i) == SentBy(oracle, name, b, ws[0], ms[0]) + Sent(oracle, name, b, ws[1..], ms[1..], i - 1)
  {
    if i > 1 {
      SentAfterFirst(oracle, name, b, ws, ms, i - 1);
    }
  }

  lemma StepsAfterFirst(oracle: Oracle, plan: Plan, name: string, b: Bucket, ws: seq<World>, ms: seq<Move>)
    requires Steps(oracle, plan, name, b, ws, ms) && ms != []
    ensures Steps(oracle, plan, name, b, ws[1..], ms[1..]) && Moves(oracle, plan, name, b, ws[0], ms[0], ws[1])
  {
    forall i | 0 <= i < |ms[1..]|
      ensures Moves(oracle, plan, name, b, ws[1..][i], ms[1..][i], ws[1..][i + 1])
    {
      assert Moves(oracle, plan, name, b, ws[i + 1], ms[i + 1], ws[i + 2]);
    }
  }

  /** The same after a first read of any kind - a first snapshot from cursor
      zero, or a reset: what it sent, then every later operation once. */
  lemma HoldOpenAfterSnapshot(oracle: Oracle, plan: Plan, name: string, b: Bucket, ws: seq<World>, ms: seq<Move>)
    requires WellShaped(b) && Known(plan, b) && Steps(oracle, plan, name, b, ws, ms) && InStep(oracle, plan, b, ws[0])
    requires ms != [] && ms[0].Reads? && (forall k | 0 < k < |ms| :: Continuous(ms[k])) && Resumable(ws[|ms|].store, ws[1].seat.cursor)
    ensures ws[1].seat.cursor <= ws[|ms|].seat.cursor
    ensures Sent(oracle, name, b, ws, ms, |ms|)
         == SentBy(oracle, name, b, ws[0], ms[0]) + Delta(oracle, b, ws[|ms|].store.ops, ws[1].seat.cursor, ws[|ms|].seat.cursor)
  {
    StepsAfterFirst(oracle, plan, name, b, ws, ms);
    MoveKeepsInStep(oracle, plan, name, b, ws[0], ms[0], ws[1]);
    SentAfterFirst(oracle, name, b, ws, ms, |ms|);
    HoldOpenSoFar(oracle, plan, name, b, ws[1..], ms[1..], |ms| - 1);
  }

  // ------------------------------------------------------------------
  // Reads as lines of a stream
  // ------------------------------------------------------------------

  /** Folding the drained lines of a stream over several buckets is, for each
      bucket, the read step above. */
  lemma StreamIsTheReadMove(oracle: Oracle, plan: Plan, vs: seq<BucketView>, last: nat, always: bool, sizes: PageSizes, i: nat,
                            b: Bucket, w: World, exhausted: bool, s: ReadSnapshot)
    requires i < |vs| && forall n, m | 0 <= n < m < |vs| :: vs[n].bucket != vs[m].bucket
    requires MayRead(plan, b, w.store, w.seat.cursor, exhausted, s)
    requires vs[i] == BuildPayload(oracle, vs[i].bucket, b, w.seat.cursor, s) && vs[i].lastOpId <= last
    ensures var client := ReceiveLines(vs[i].bucket, w.seat.client, StreamOf(vs, last, always, sizes));
            Moves(oracle, plan, vs[i].bucket, b, w, Reads(exhausted, s, last, always), w.(seat := Seat(vs[i].lastOpId, client)))
  {
    StreamCarriesEachView(vs, last, always, sizes, i, w.seat.client);
  }
}
