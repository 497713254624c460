/** Checksums over whole histories: what a client of a bucket has added up
    against what each of its reads advertises. */
module Balance {
  import opened Common
  import opened SyncPlan
  import opened Routing
  import opened Accounting
  import opened Serving
  import opened Conservation
  import opened Scopes
  import opened TailLog
  import opened StreamLines
  import opened Replica

  // ------------------------------------------------------------------
  // What a client adds up
  // ------------------------------------------------------------------

  predicate Clearless(es: seq<OplogEntry>) {
    forall i | 0 <= i < |es| :: !es[i].kind.ClearEntry?
  }

  lemma {:induction false} ReceiveExtends(c: Client, es: seq<OplogEntry>)
    requires Clearless(es)
    ensures ReceiveAll(c, es).checksum == WrapAdd(c.checksum, Checksum(es))
  {
    if es == [] {
      WrapAddAssociates(c.checksum, 0, 0);
    } else {
      var front, last := es[..|es| - 1], es[|es| - 1];
      ReceiveExtends(c, front);
      WrapAddAssociates(c.checksum, Checksum(front), last.checksum);
    }
  }

  lemma {:induction false} ChecksumIsTotal(es: seq<OplogEntry>)
    ensures Checksum(es) == EntryTotal(es) % TWO_32
  {
    if es != [] {
      var front, last := es[..|es| - 1], es[|es| - 1];
      ChecksumIsTotal(front);
      WrapAddReduces(Checksum(front), EntryTotal(front), last.checksum, EntryTotal(es));
    }
  }

  lemma Reduced(a: U32, b: int)
    requires a == b % TWO_32
    ensures Congruent(a, b)
  {
    CongruentIffSameChecksum(a, b);
  }

  lemma WrapAddCongruent(a: U32, b: U32)
    ensures Congruent(WrapAdd(a, b), a + b)
  {
    CongruentIffSameChecksum(WrapAdd(a, b), a + b);
  }

  /** Without CLEAR, entries add their checksums to the client's. */
  lemma ReceiveAddsUp(c: Client, es: seq<OplogEntry>)
    requires Clearless(es)
    ensures Congruent(ReceiveAll(c, es).checksum, c.checksum + EntryTotal(es))
  {
    ReceiveExtends(c, es);
    ChecksumIsTotal(es);
    WrapAddCongruent(c.checksum, Checksum(es));
    Reduced(Checksum(es), EntryTotal(es));
    CongruentChain(ReceiveAll(c, es).checksum, Checksum(es), EntryTotal(es), c.checksum);
  }

  lemma RowsAreClearless(oracle: Oracle, b: Bucket, ds: seq<Document>)
    ensures Clearless(CurrentEntries(oracle, b, ds))
  {
    RowsArePuts(oracle, b, ds);
  }

  /** A snapshot starts the client's checksum over, with CLEAR or from zero. */
  lemma SnapshotStartsOver(c: Client, clear: seq<OplogEntry>, rows: seq<OplogEntry>)
    requires Clearless(rows) && if clear == [] then c.checksum == 0 else |clear| == 1 && clear[0].kind.ClearEntry?
    ensures ReceiveAll(c, clear + rows).checksum == Checksum(clear + rows)
  {
    OneEntry(c, clear);
    ReceiveAllSplits(c, clear, rows);
    ReceiveExtends(ReceiveAll(c, clear), rows);
    ChecksumAppends(clear, rows);
    if clear != [] {
      assert clear[..0] == [] && Checksum(clear[..0]) == 0;
      WrapAddAssociates(0, clear[0].checksum, 0);
      WrapAddAssociates(clear[0].checksum, 0, 0);
    }
  }

  lemma SnapshotReceived(oracle: Oracle, b: Bucket, ds: seq<Document>, v: BucketView, last: nat, always: bool, c: Client)
    requires v.current == CurrentEntries(oracle, b, ds) && (IncludesClear(v, always) || c.checksum == 0)
    ensures ReceiveAll(c, SnapshotEntries(v, last, always)).checksum == Checksum(SnapshotEntries(v, last, always))
  {
    var clear, first := SnapshotShape(v, last, always);
    RowsAreClearless(oracle, b, ds);
    SnapshotStartsOver(c, clear, Renumbered(v.current, first));
  }

  // ------------------------------------------------------------------
  // What a read advertises
  // ------------------------------------------------------------------

  /** The entries of a list of documents are those of the rows under these keys. */
  ghost predicate RowsOfKeys(oracle: Oracle, b: Bucket, docs: Documents, es: seq<OplogEntry>, keys: set<ObjectKey>) {
    |es| == Sum(RowCount(oracle, b, docs), keys) && EntryTotal(es) == Sum(RowSum(oracle, b, docs), keys)
  }

  lemma OneMoreRow(oracle: Oracle, b: Bucket, docs: Documents, es: seq<OplogEntry>, keys: set<ObjectKey>, k: ObjectKey)
    requires RowsOfKeys(oracle, b, docs, es, keys) && k in docs && k !in keys
    ensures RowsOfKeys(oracle, b, docs, es + RowEntries(oracle, b, docs[k]), keys + {k})
  {
    assert keys + {k} - {k} == keys;
    SumExtract(RowCount(oracle, b, docs), keys + {k}, k);
    SumExtract(RowSum(oracle, b, docs), keys + {k}, k);
    EntryTotalSplits(es, RowEntries(oracle, b, docs[k]));
  }

  lemma KeysOfOneMore(ds: seq<Document>)
    requires ds != [] && forall i, j | 0 <= i < j < |ds| :: ds[i].Key() != ds[j].Key()
    ensures var front, k := ds[..|ds| - 1], ds[|ds| - 1].Key(); KeysOf(ds) == KeysOf(front) + {k} && k !in KeysOf(front)
  {
    var front, d := ds[..|ds| - 1], ds[|ds| - 1];
    assert ds == front + [d];
  }

  lemma {:induction false} ListedRows(oracle: Oracle, b: Bucket, docs: Documents, ds: seq<Document>)
    requires forall i | 0 <= i < |ds| :: ds[i].Key() in docs && docs[ds[i].Key()] == ds[i]
    requires forall i, j | 0 <= i < j < |ds| :: ds[i].Key() != ds[j].Key()
    ensures RowsOfKeys(oracle, b, docs, CurrentEntries(oracle, b, ds), KeysOf(ds))
  {
    if ds != [] {
      var front, d := ds[..|ds| - 1], ds[|ds| - 1];
      ListedRows(oracle, b, docs, front);
      KeysOfOneMore(ds);
      OneMoreRow(oracle, b, docs, CurrentEntries(oracle, b, front), KeysOf(front), d.Key());
    }
  }

  /** The entries of a snapshot are those of the bucket's rows, once each. */
  lemma GatheredRows(oracle: Oracle, b: Bucket, docs: Documents, ds: seq<Document>)
    requires Keyed(docs) && Gathers(oracle, b, docs, ds)
    ensures |CurrentEntries(oracle, b, ds)| == Sum(RowCount(oracle, b, docs), docs.Keys)
    ensures EntryTotal(CurrentEntries(oracle, b, ds)) == Sum(RowSum(oracle, b, docs), docs.Keys)
  {
    ListedRows(oracle, b, docs, ds);
    forall k | k in docs && k !in KeysOf(ds)
      ensures RowEntries(oracle, b, docs[k]) == []
    {
      assert docs[k].Key() == k;
      assert docs[k] !in ds;
    }
    SumIgnoresZeros(RowCount(oracle, b, docs), KeysOf(ds), docs.Keys);
    SumIgnoresZeros(RowSum(oracle, b, docs), KeysOf(ds), docs.Keys);
  }

  /** A snapshot counts what the accumulators hold: both paths of a read agree. */
  lemma SnapshotMatchesAccumulators(oracle: Oracle, plan: Plan, b: Bucket, s: Ledger, ds: seq<Document>, current: Accumulator)
    requires Sound(oracle, plan, s) && ScalarDocs(oracle, s.docs) && WellShaped(b) && Known(plan, b)
    requires Gathers(oracle, b, s.docs, ds) && Totals(s.current, b, current)
    ensures |CurrentEntries(oracle, b, ds)| == current.count && Checksum(CurrentEntries(oracle, b, ds)) == current.checksum
  {
    AccumulatorsAreRows(oracle, plan, b, s);
    GatheredRows(oracle, b, s.docs, ds);
    ChecksumIsTotal(CurrentEntries(oracle, b, ds));
    CongruentIffSameChecksum(Sum(ChecksumOf(s.current), Elements(b.queries)), EntryTotal(CurrentEntries(oracle, b, ds)));
  }

  /** A bucket's checkpoint according to the ledger. */
  ghost function LedgerChecksum(s: Ledger, b: Bucket): U32 {
    TotalSum(s, b) % TWO_32
  }

  lemma TotalsAddUp(s: Ledger, b: Bucket, current: Accumulator, tail: Accumulator)
    requires Totals(s.current, b, current) && Totals(s.tail, b, tail)
    ensures WrapAdd(current.checksum, tail.checksum) == LedgerChecksum(s, b) && current.count + tail.count == TotalCount(s, b)
  {
    var qs := Elements(b.queries);
    SumAdds(ChecksumOf(s.current), ChecksumOf(s.tail), SumWeight(s), qs);
    SumAdds(CountOf(s.current), CountOf(s.tail), CountWeight(s), qs);
    WrapOfSums(Sum(ChecksumOf(s.current), qs), Sum(ChecksumOf(s.tail), qs));
  }

  lemma WrapOfSums(a: int, b: int)
    ensures WrapAdd(a % TWO_32, b % TWO_32) == (a + b) % TWO_32
  {
  }

  lemma CollectedMatchesAccumulators(oracle: Oracle, plan: Plan, b: Bucket, r: Store, s: ReadSnapshot)
    requires Consistent(oracle, plan, r) && WellShaped(b) && Known(plan, b) && Totals(r.ledger.current, b, s.current)
    requires EachOnce(s.documents, r.ledger.docs, BucketScope(plan, r.ledger.docs, b.queries))
    ensures Accumulator(Checksum(CurrentEntries(oracle, b, s.documents)), |CurrentEntries(oracle, b, s.documents)|) == s.current
  {
    ScalarDocsReached(oracle, b, r.ledger.docs);
    CollectionGathersIff(oracle, plan, b, r.ledger.docs, s.documents);
    SnapshotMatchesAccumulators(oracle, plan, b, r.ledger, s.documents, s.current);
  }

  lemma PayloadCheckpoint(oracle: Oracle, name: string, b: Bucket, after: nat, s: ReadSnapshot, v: BucketView)
    requires v == BuildPayload(oracle, name, b, after, s)
    requires EffectiveAfter(after, s) == 0 ==>
               Accumulator(Checksum(CurrentEntries(oracle, b, s.documents)), |CurrentEntries(oracle, b, s.documents)|) == s.current
    ensures v.checksum == Some(Signed32(WrapAdd(s.current.checksum, s.tail.checksum))) && v.count == Some(s.current.count + s.tail.count)
  {
  }

  lemma ReadAdvertisesAccumulators(oracle: Oracle, plan: Plan, name: string, b: Bucket, r: Store, after: nat, exhausted: bool, s: ReadSnapshot, v: BucketView)
    requires Consistent(oracle, plan, r) && WellShaped(b) && Known(plan, b)
    requires MayRead(plan, b, r, after, exhausted, s) && v == BuildPayload(oracle, name, b, after, s)
    ensures v.checksum == Some(Signed32(WrapAdd(s.current.checksum, s.tail.checksum))) && v.count == Some(s.current.count + s.tail.count)
  {
    if EffectiveAfter(after, s) == 0 {
      CollectedMatchesAccumulators(oracle, plan, b, r, s);
    }
    PayloadCheckpoint(oracle, name, b, after, s, v);
  }

  /** Whichever path a read takes, it advertises the ledger's count and checksum. */
  lemma ReadAdvertisesLedger(oracle: Oracle, plan: Plan, name: string, b: Bucket, r: Store, after: nat, exhausted: bool, s: ReadSnapshot, v: BucketView)
    requires Consistent(oracle, plan, r) && WellShaped(b) && Known(plan, b)
    requires MayRead(plan, b, r, after, exhausted, s) && v == BuildPayload(oracle, name, b, after, s)
    ensures v.checksum == Some(Signed32(LedgerChecksum(r.ledger, b))) && v.count == Some(TotalCount(r.ledger, b))
  {
    ReadAdvertisesAccumulators(oracle, plan, name, b, r, after, exhausted, s, v);
    TotalsAddUp(r.ledger, b, s.current, s.tail);
  }

  // ------------------------------------------------------------------
  // Removes nobody accounted for
  // ------------------------------------------------------------------

  /** The remove checksums of puts `lo + 1` to `hi` that take a row out of the bucket. */
  function MovedOutIn(oracle: Oracle, b: Bucket, ops: map<nat, TailOp>, lo: nat, hi: nat): int
    requires lo <= hi
  {
    if lo == hi then 0
    else MovedOutIn(oracle, b, ops, lo, hi - 1) + (if hi in ops then MovedOutSum(oracle, b, ops[hi]) else 0)
  }

  lemma {:induction false} MovedOutSplits(oracle: Oracle, b: Bucket, ops: map<nat, TailOp>, lo: nat, mid: nat, hi: nat)
    requires lo <= mid <= hi
    ensures MovedOutIn(oracle, b, ops, lo, hi) == MovedOutIn(oracle, b, ops, lo, mid) + MovedOutIn(oracle, b, ops, mid, hi)
  {
    if mid < hi {
      MovedOutSplits(oracle, b, ops, lo, mid, hi - 1);
    }
  }

  lemma {:induction false} MovedOutDependsOnRange(oracle: Oracle, b: Bucket, ops: map<nat, TailOp>, ops': map<nat, TailOp>, lo: nat, hi: nat)
    requires lo <= hi && forall id | lo < id <= hi :: (id in ops <==> id in ops') && (id in ops ==> ops[id] == ops'[id])
    ensures MovedOutIn(oracle, b, ops, lo, hi) == MovedOutIn(oracle, b, ops', lo, hi)
  {
    if lo < hi {
      MovedOutDependsOnRange(oracle, b, ops, ops', lo, hi - 1);
    }
  }

  lemma {:induction false} MovedOutOfLogged(oracle: Oracle, b: Bucket, ops: map<nat, TailOp>, last: nat, log: seq<TailOp>)
    requires forall id | last < id <= last + |log| :: id in ops && ops[id] == log[id - last - 1]
    ensures MovedOutIn(oracle, b, ops, last, last + |log|) == MovedOutSums(oracle, b, log)
  {
    if log != [] {
      MovedOutOfLogged(oracle, b, ops, last, log[..|log| - 1]);
    }
  }

  lemma MovedOutAfterWrite(oracle: Oracle, b: Bucket, ops: map<nat, TailOp>, ops': map<nat, TailOp>, cursor: nat, last: nat, log: seq<TailOp>)
    requires cursor <= last && Appends(ops, ops', last, log)
    requires forall id | cursor < id <= last :: id in ops
    ensures MovedOutIn(oracle, b, ops', cursor, last + |log|) == MovedOutIn(oracle, b, ops, cursor, last) + MovedOutSums(oracle, b, log)
  {
    MovedOutSplits(oracle, b, ops', cursor, last, last + |log|);
    MovedOutDependsOnRange(oracle, b, ops, ops', cursor, last);
    MovedOutOfLogged(oracle, b, ops', last, log);
  }

  lemma {:induction false} DeltaIsClearless(oracle: Oracle, b: Bucket, ops: map<nat, TailOp>, lo: nat, hi: nat)
    requires lo <= hi && forall id | lo < id <= hi && id in ops :: !ops[id].ClearOp?
    ensures Clearless(Delta(oracle, b, ops, lo, hi))
  {
    if lo < hi {
      DeltaIsClearless(oracle, b, ops, lo, hi - 1);
    }
  }

  // ------------------------------------------------------------------
  // The invariant
  // ------------------------------------------------------------------

  /** If the cursor can be resumed, the operations after it lead the client's
      checksum to the ledger's, off by `drift` and by the rows they move out. */
  ghost predicate Balanced(oracle: Oracle, b: Bucket, r: Store, seat: Seat, drift: int) {
    Resumable(r, seat.cursor) ==>
      Level(seat.client.checksum, EntryTotal(Delta(oracle, b, r.ops, seat.cursor, r.last)), TotalSum(r.ledger, b), drift,
            MovedOutIn(oracle, b, r.ops, seat.cursor, r.last))
  }

  /** A checksum and the entries to come, against a total, a drift and the rows to be moved out. */
  ghost predicate Level(client: int, served: int, total: int, drift: int, moved: int) {
    Congruent(client + served, total + (drift + moved))
  }

  lemma LevelMoves(client: int, served: int, total: int, drift: int, moved: int, more: int, gone: int, total': int)
    requires Level(client, served, total, drift, moved) && Congruent(total', total + more - gone)
    ensures Level(client, served + more, total', drift, moved + gone)
  {
    var v, w :| client + served == total + (drift + moved) + Wraps(v) && total' == total + more - gone + Wraps(w);
    assert client + (served + more) == total' + (drift + (moved + gone)) + Wraps(v - w);
  }

  lemma TotalsAfterWrite(oracle: Oracle, b: Bucket, ops: map<nat, TailOp>, ops': map<nat, TailOp>, cursor: nat, last: nat, log: seq<TailOp>)
    requires cursor <= last && Appends(ops, ops', last, log)
    requires forall id | cursor < id <= last :: id in ops
    ensures EntryTotal(Delta(oracle, b, ops', cursor, last + |log|))
         == EntryTotal(Delta(oracle, b, ops, cursor, last)) + EntryTotal(ServedAll(oracle, b, last, log))
    ensures MovedOutIn(oracle, b, ops', cursor, last + |log|) == MovedOutIn(oracle, b, ops, cursor, last) + MovedOutSums(oracle, b, log)
  {
    DeltaAfterWrite(oracle, b, ops, ops', cursor, last, log);
    MovedOutAfterWrite(oracle, b, ops, ops', cursor, last, log);
    EntryTotalSplits(Delta(oracle, b, ops, cursor, last), ServedAll(oracle, b, last, log));
  }

  /** The ledger's checksum moved by the served entries of a log, less what they moved out. */
  ghost predicate Follows(oracle: Oracle, b: Bucket, r: Store, r': Store, log: seq<TailOp>) {
    Congruent(TotalSum(r'.ledger, b), TotalSum(r.ledger, b) + EntryTotal(ServedAll(oracle, b, r.last, log)) - MovedOutSums(oracle, b, log))
  }

  lemma WriteKeepsBalanced(oracle: Oracle, b: Bucket, r: Store, r': Store, log: seq<TailOp>, seat: Seat, drift: int)
    requires LogComplete(oracle, r) && Balanced(oracle, b, r, seat, drift) && seat.cursor <= r.last
    requires Appends(r.ops, r'.ops, r.last, log) && r'.last == r.last + |log| && r'.retained == r.retained && r'.floor == r.floor
    requires Follows(oracle, b, r, r', log)
    ensures Balanced(oracle, b, r', seat, drift)
  {
    if Resumable(r', seat.cursor) {
      var missed, more := Delta(oracle, b, r.ops, seat.cursor, r.last), ServedAll(oracle, b, r.last, log);
      TotalsAfterWrite(oracle, b, r.ops, r'.ops, seat.cursor, r.last, log);
      LevelMoves(seat.client.checksum, EntryTotal(missed), TotalSum(r.ledger, b), drift,
                 MovedOutIn(oracle, b, r.ops, seat.cursor, r.last), EntryTotal(more), MovedOutSums(oracle, b, log), TotalSum(r'.ledger, b));
    }
  }

  lemma WrittenIsAccounted(oracle: Oracle, plan: Plan, b: Bucket, r: Store, ops: seq<SyncOp>, r': Store)
    requires Consistent(oracle, plan, r) && WellShaped(b) && Known(plan, b)
    requires RowOps(r.ledger.docs, ops) && ScalarOps(oracle, ops) && r' == Written(oracle, plan, r, ops)
    ensures Follows(oracle, b, r, r', Log(r.ledger.docs, ops))
  {
    RunKeepsDocuments(oracle, r.ledger.docs, ops);
    RunConserves(oracle, plan, b, r.ledger, ops, r.last);
  }

  lemma WriteMoveKeepsBalanced(oracle: Oracle, plan: Plan, b: Bucket, r: Store, ops: seq<SyncOp>, r': Store, seat: Seat, drift: int)
    requires Consistent(oracle, plan, r) && WellShaped(b) && Known(plan, b) && Synced(oracle, b, r, seat) && Balanced(oracle, b, r, seat, drift)
    requires RowOps(r.ledger.docs, ops) && ScalarOps(oracle, ops) && r' == Written(oracle, plan, r, ops)
    ensures Balanced(oracle, b, r', seat, drift)
  {
    WrittenIsAccounted(oracle, plan, b, r, ops, r');
    ExtendedAppends(r.ops, r.last, Log(r.ledger.docs, ops));
    WriteKeepsBalanced(oracle, b, r, r', Log(r.ledger.docs, ops), seat, drift);
  }

  lemma PruneKeepsBalanced(oracle: Oracle, b: Bucket, r: Store, retain: nat, seat: Seat, drift: int)
    requires Balanced(oracle, b, r, seat, drift)
    ensures Balanced(oracle, b, Pruned(r, retain), seat, drift)
  {
    var r' := Pruned(r, retain);
    if Resumable(r', seat.cursor) {
      DeltaDependsOnRange(oracle, b, r.ops, r'.ops, seat.cursor, r.last);
      MovedOutDependsOnRange(oracle, b, r.ops, r'.ops, seat.cursor, r.last);
    }
  }

  // ------------------------------------------------------------------
  // Reads
  // ------------------------------------------------------------------

  /** The remove checksums served since the client's last snapshot that its
      bucket's checkpoint does not know, after a read. */
  ghost function DriftAfterRead(oracle: Oracle, b: Bucket, r: Store, cursor: nat, s: ReadSnapshot, drift: int): int {
    if EffectiveAfter(cursor, s) == 0 || cursor > r.last then 0 else drift + MovedOutIn(oracle, b, r.ops, cursor, r.last)
  }

  lemma NothingTotals(oracle: Oracle, plan: Plan, b: Bucket, r: Store)
    requires Consistent(oracle, plan, r) && r.last == 0
    ensures TotalSum(r.ledger, b) == 0
  {
    assert r.ledger.docs == map[] by {
      assert |r.ledger.docs| == 0;
    }
    forall q | q in Elements(b.queries)
      ensures SumWeight(r.ledger)(q) == 0
    {
      assert ExactAt(oracle, plan, r.ledger.docs, r.ledger.current, q);
    }
    SumZero(SumWeight(r.ledger), Elements(b.queries));
  }

  /** After a snapshot the client's checksum is the ledger's. */
  lemma SnapshotReadBalances(oracle: Oracle, plan: Plan, name: string, b: Bucket, r: Store, seat: Seat, exhausted: bool, s: ReadSnapshot,
                             v: BucketView, last: nat, always: bool)
    requires Consistent(oracle, plan, r) && WellShaped(b) && Known(plan, b) && Synced(oracle, b, r, seat) && EffectiveAfter(seat.cursor, s) == 0
    requires MayRead(plan, b, r, seat.cursor, exhausted, s)
    requires v == BuildPayload(oracle, name, b, seat.cursor, s) && v.lastOpId <= last
    ensures ReceiveAll(seat.client, ViewEntries(v, last, always)).checksum == LedgerChecksum(r.ledger, b)
  {
    SnapshotRead(oracle, plan, name, b, r, seat, exhausted, s, v, last, always);
    if r.last == 0 {
      NothingTotals(oracle, plan, b, r);
      assert ViewEntries(v, last, always) == [];
    } else {
      SnapshotPayload(oracle, name, b, seat.cursor, s, v, last);
      SnapshotReceived(oracle, b, s.documents, v, last, always, seat.client);
      SnapshotSum(v, last, always);
      TotalsAddUp(r.ledger, b, s.current, s.tail);
      CollectedMatchesAccumulators(oracle, plan, b, r, s);
    }
  }

  lemma DeltaReadBalances(oracle: Oracle, b: Bucket, r: Store, seat: Seat, drift: int)
    requires LogComplete(oracle, r) && Balanced(oracle, b, r, seat, drift) && Resumable(r, seat.cursor)
    ensures Congruent(ReceiveAll(seat.client, Delta(oracle, b, r.ops, seat.cursor, r.last)).checksum,
                      TotalSum(r.ledger, b) + (drift + MovedOutIn(oracle, b, r.ops, seat.cursor, r.last)))
  {
    var es := Delta(oracle, b, r.ops, seat.cursor, r.last);
    DeltaIsClearless(oracle, b, r.ops, seat.cursor, r.last);
    ReceiveAddsUp(seat.client, es);
    CongruentChain(ReceiveAll(seat.client, es).checksum, seat.client.checksum + EntryTotal(es),
                   TotalSum(r.ledger, b) + (drift + MovedOutIn(oracle, b, r.ops, seat.cursor, r.last)), 0);
  }

  /** After any read, the client's checksum is the ledger's, off by the drift. */
  lemma ReadBalances(oracle: Oracle, plan: Plan, name: string, b: Bucket, r: Store, seat: Seat, exhausted: bool, s: ReadSnapshot,
                     v: BucketView, last: nat, always: bool, drift: int)
    requires Consistent(oracle, plan, r) && WellShaped(b) && Known(plan, b) && Synced(oracle, b, r, seat) && Balanced(oracle, b, r, seat, drift)
    requires MayRead(plan, b, r, seat.cursor, exhausted, s)
    requires v == BuildPayload(oracle, name, b, seat.cursor, s) && v.lastOpId <= last
    ensures Congruent(ReceiveAll(seat.client, ViewEntries(v, last, always)).checksum,
                      TotalSum(r.ledger, b) + DriftAfterRead(oracle, b, r, seat.cursor, s, drift))
  {
    if EffectiveAfter(seat.cursor, s) == 0 {
      SnapshotReadBalances(oracle, plan, name, b, r, seat, exhausted, s, v, last, always);
      Reduced(LedgerChecksum(r.ledger, b), TotalSum(r.ledger, b));
    } else {
      DeltaRead(oracle, plan, name, b, r, seat.cursor, exhausted, s, v, last, always);
      DeltaReadBalances(oracle, b, r, seat, drift);
    }
  }

  lemma BalancedAtTheEnd(oracle: Oracle, b: Bucket, r: Store, client: Client, drift: int)
    requires Congruent(client.checksum, TotalSum(r.ledger, b) + drift)
    ensures Balanced(oracle, b, r, Seat(r.last, client), drift)
  {
  }

  lemma Signed32IsInjective(a: U32, b: U32)
    ensures Signed32(a) == Signed32(b) <==> a == b
  {
  }

  // ------------------------------------------------------------------
  // Histories
  // ------------------------------------------------------------------

  ghost function DriftAfter(oracle: Oracle, b: Bucket, w: World, m: Move, drift: int): int {
    if m.Reads? then DriftAfterRead(oracle, b, w.store, w.seat.cursor, m.snapshot, drift) else drift
  }

  /** The drift before move `i` of a history. */
  ghost function Drift(oracle: Oracle, b: Bucket, ws: seq<World>, ms: seq<Move>, i: nat): int
    requires i <= |ms| && |ws| == |ms| + 1
  {
    if i == 0 then 0 else DriftAfter(oracle, b, ws[i - 1], ms[i - 1], Drift(oracle, b, ws, ms, i - 1))
  }

  lemma ReadMoveBalances(oracle: Oracle, plan: Plan, name: string, b: Bucket, w: World, m: Move, w': World, drift: int)
    requires InStep(oracle, plan, b, w) && WellShaped(b) && Known(plan, b) && Moves(oracle, plan, name, b, w, m, w') && m.Reads?
    requires Balanced(oracle, b, w.store, w.seat, drift)
    ensures Congruent(w'.seat.client.checksum, TotalSum(w'.store.ledger, b) + DriftAfter(oracle, b, w, m, drift))
  {
    var v := BuildPayload(oracle, name, b, w.seat.cursor, m.snapshot);
    ReadBalances(oracle, plan, name, b, w.store, w.seat, m.exhausted, m.snapshot, v, m.streamLast, m.always, drift);
  }

  lemma ReadMoveKeepsBalanced(oracle: Oracle, plan: Plan, name: string, b: Bucket, w: World, m: Move, w': World, drift: int)
    requires InStep(oracle, plan, b, w) && WellShaped(b) && Known(plan, b) && Moves(oracle, plan, name, b, w, m, w') && m.Reads?
    requires Balanced(oracle, b, w.store, w.seat, drift)
    ensures Congruent(w'.seat.client.checksum, TotalSum(w'.store.ledger, b) + DriftAfter(oracle, b, w, m, drift))
    ensures Balanced(oracle, b, w'.store, w'.seat, DriftAfter(oracle, b, w, m, drift))
  {
    ReadMoveBalances(oracle, plan, name, b, w, m, w', drift);
    MoveKeepsInStep(oracle, plan, name, b, w, m, w');
    BalancedAtTheEnd(oracle, b, w'.store, w'.seat.client, DriftAfter(oracle, b, w, m, drift));
  }

  lemma MoveKeepsBalanced(oracle: Oracle, plan: Plan, name: string, b: Bucket, w: World, m: Move, w': World, drift: int)
    requires InStep(oracle, plan, b, w) && WellShaped(b) && Known(plan, b) && Moves(oracle, plan, name, b, w, m, w')
    requires Balanced(oracle, b, w.store, w.seat, drift)
    ensures Balanced(oracle, b, w'.store, w'.seat, DriftAfter(oracle, b, w, m, drift))
  {
    match m
    case Writes(ops) =>
      WriteMoveKeepsBalanced(oracle, plan, b, w.store, ops, w'.store, w.seat, drift);
    case Prunes(retain) =>
      PruneKeepsBalanced(oracle, b, w.store, retain, w.seat, drift);
    case Rebuilds(_, _) =>
    case Reads(_, _, _, _) =>
      ReadMoveKeepsBalanced(oracle, plan, name, b, w, m, w', drift);
  }

  /** The running drift of a history. */
  ghost predicate Drifts(oracle: Oracle, b: Bucket, ws: seq<World>, ms: seq<Move>, ds: seq<int>) {
    && |ds| == |ws| == |ms| + 1 && ds[0] == 0
    && forall i | 0 <= i < |ms| :: ds[i + 1] == DriftAfter(oracle, b, ws[i], ms[i], ds[i])
  }

  lemma DriftIsRunning(oracle: Oracle, b: Bucket, ws: seq<World>, ms: seq<Move>) returns (ds: seq<int>)
    requires |ws| == |ms| + 1
    ensures Drifts(oracle, b, ws, ms, ds) && forall i | 0 <= i <= |ms| :: ds[i] == Drift(oracle, b, ws, ms, i)
  {
    ds := seq(|ws|, i requires 0 <= i < |ws| => Drift(oracle, b, ws, ms, i));
  }

  /** The client is in step, and its checksum off by the drift. */
  ghost predicate OnCourse(oracle: Oracle, plan: Plan, b: Bucket, w: World, drift: int) {
    InStep(oracle, plan, b, w) && Balanced(oracle, b, w.store, w.seat, drift)
  }

  lemma StartIsOnCourse(oracle: Oracle, plan: Plan, b: Bucket, w: World)
    requires Starts(oracle, plan, w)
    ensures OnCourse(oracle, plan, b, w, 0)
  {
  }

  lemma MoveStaysOnCourse(oracle: Oracle, plan: Plan, name: string, b: Bucket, w: World, m: Move, w': World, drift: int)
    requires WellShaped(b) && Known(plan, b) && Moves(oracle, plan, name, b, w, m, w') && OnCourse(oracle, plan, b, w, drift)
    ensures OnCourse(oracle, plan, b, w', DriftAfter(oracle, b, w, m, drift))
  {
    MoveKeepsInStep(oracle, plan, name, b, w, m, w');
    MoveKeepsBalanced(oracle, plan, name, b, w, m, w', drift);
  }

  lemma {:induction false} HistoryStaysOnCourse(oracle: Oracle, plan: Plan, name: string, b: Bucket, ws: seq<World>, ms: seq<Move>, ds: seq<int>, i: nat)
    requires WellShaped(b) && Known(plan, b) && Steps(oracle, plan, name, b, ws, ms) && Drifts(oracle, b, ws, ms, ds) && i <= |ms|
    requires OnCourse(oracle, plan, b, ws[0], 0)
    ensures OnCourse(oracle, plan, b, ws[i], ds[i])
  {
    if i > 0 {
      HistoryStaysOnCourse(oracle, plan, name, b, ws, ms, ds, i - 1);
      assert Moves(oracle, plan, name, b, ws[i - 1], ms[i - 1], ws[i]);
      MoveStaysOnCourse(oracle, plan, name, b, ws[i - 1], ms[i - 1], ws[i], ds[i - 1]);
    }
  }

  lemma DriftDecides(client: U32, total: int, drift: int)
    requires Congruent(client, total + drift)
    ensures Signed32(client) == Signed32(total % TWO_32) <==> drift % TWO_32 == 0
  {
    Signed32IsInjective(client, total % TWO_32);
    CongruentIffSameChecksum(client, total + drift);
    CongruentIffSameChecksum(client, total);
    CongruentIffSameChecksum(drift, 0);
    CongruentCancels(client, total, -drift);
    if w :| drift == 0 + Wraps(w) {
      assert -drift == 0 + Wraps(-w);
    }
    if w :| -drift == 0 + Wraps(w) {
      assert drift == 0 + Wraps(-w);
    }
  }

  /** What a read advertises is the ledger's count and checksum, which the
      client has exactly when nothing drifted. */
  ghost predicate Settles(w: World, b: Bucket, v: BucketView, drift: int) {
    && v.checksum == Some(Signed32(LedgerChecksum(w.store.ledger, b))) && v.count == Some(TotalCount(w.store.ledger, b))
    && (v.checksum == Some(Signed32(w.seat.client.checksum)) <==> drift % TWO_32 == 0)
  }

  lemma ReadSettles(oracle: Oracle, plan: Plan, name: string, b: Bucket, w: World, m: Move, w': World, drift: int, v: BucketView)
    requires OnCourse(oracle, plan, b, w, drift) && WellShaped(b) && Known(plan, b) && Moves(oracle, plan, name, b, w, m, w') && m.Reads?
    requires v == BuildPayload(oracle, name, b, w.seat.cursor, m.snapshot)
    ensures Settles(w', b, v, DriftAfter(oracle, b, w, m, drift))
  {
    ReadAdvertisesLedger(oracle, plan, name, b, w.store, w.seat.cursor, m.exhausted, m.snapshot, v);
    ReadMoveKeepsBalanced(oracle, plan, name, b, w, m, w', drift);
    DriftDecides(w'.seat.client.checksum, TotalSum(w'.store.ledger, b), DriftAfter(oracle, b, w, m, drift));
  }

  /** End to end, for checksums: each read advertises the count and checksum of
      the ledger. The client's checksum is the advertised one after every
      snapshot read, and after a delta read if and only if the remove checksums
      of the puts that moved rows out of the bucket, served since its last
      snapshot, add up to nothing. */
  lemma EveryReadBalances(oracle: Oracle, plan: Plan, name: string, b: Bucket, ws: seq<World>, ms: seq<Move>, i: nat, v: BucketView)
    requires WellShaped(b) && Known(plan, b) && Steps(oracle, plan, name, b, ws, ms) && Starts(oracle, plan, ws[0])
    requires i < |ms| && ms[i].Reads? && v == BuildPayload(oracle, name, b, ws[i].seat.cursor, ms[i].snapshot)
    ensures Settles(ws[i + 1], b, v, Drift(oracle, b, ws, ms, i + 1))
    ensures EffectiveAfter(ws[i].seat.cursor, ms[i].snapshot) == 0 ==> Drift(oracle, b, ws, ms, i + 1) == 0
  {
    var ds := DriftIsRunning(oracle, b, ws, ms);
    StartIsOnCourse(oracle, plan, b, ws[0]);
    HistoryStaysOnCourse(oracle, plan, name, b, ws, ms, ds, i);
    assert Moves(oracle, plan, name, b, ws[i], ms[i], ws[i + 1]);
    ReadSettles(oracle, plan, name, b, ws[i], ms[i], ws[i + 1], ds[i], v);
  }

  // ------------------------------------------------------------------
  // A client that drifts
  // ------------------------------------------------------------------

  /** One read by the environment's choice of everything left open. */
  lemma TakeRead(oracle: Oracle, plan: Plan, b: Bucket, w: World) returns (m: Move, w': World)
    requires InStep(oracle, plan, b, w) && WellShaped(b) && Known(plan, b)
    ensures m.Reads? && !m.exhausted && Moves(oracle, plan, "b", b, w, m, w')
    ensures w'.store == w.store && w'.seat.cursor == w.store.last && InStep(oracle, plan, b, w')
  {
    var s := SomeRead(plan, b, w.store, w.seat.cursor, false);
    var v := BuildPayload(oracle, "b", b, w.seat.cursor, s);
    m := Reads(false, s, v.lastOpId, false);
    w' := w.(seat := Seat(v.lastOpId, ReceiveAll(w.seat.client, ViewEntries(v, v.lastOpId, false))));
    MoveKeepsInStep(oracle, plan, "b", b, w, m, w');
  }

  /** A row with a filter, its later version, and the store that holds the row. */
  lemma FilteredStore() returns (oracle: Oracle, plan: Plan, b: Bucket, r: Store, ops: seq<SyncOp>)
    ensures WellShaped(b) && Known(plan, b) && Consistent(oracle, plan, r) && r.last == 2 && r.floor == 2 && r.retained == 1
    ensures RowOps(r.ledger.docs, ops) && ScalarOps(oracle, ops) && |ops| == 1
    ensures MovedOutSums(oracle, b, Log(r.ledger.docs, ops)) == 1
  {
    oracle := Oracle((f, x) => x == "in", (f, x) => x, (a, v) => false, (t, i, x) => 2, (t, i) => 1);
    var q;
    plan, q := OneQueryPlan(Some("f"));
    b := Bucket("s", [q], false);
    var before, after := Document("t", "1", map[], "in"), Document("t", "1", map[], "out");
    r := Rebuilt(oracle, plan, 1, [Put(before, true)]);
    OneRowStore(oracle, plan, before, r);
    ops := [Put(after, false)];
    OneMovedOut(oracle, b, r.ledger.docs, before, after, ops);
  }

  /** Read, write, read again. */
  lemma ReadWriteRead(oracle: Oracle, plan: Plan, b: Bucket, r: Store, ops: seq<SyncOp>) returns (ws: seq<World>, ms: seq<Move>)
    requires WellShaped(b) && Known(plan, b) && Consistent(oracle, plan, r) && RowOps(r.ledger.docs, ops) && ScalarOps(oracle, ops)
    ensures Steps(oracle, plan, "b", b, ws, ms) && |ms| == 3 && ms[0].Reads? && ms[1].Writes? && ms[2].Reads? && !ms[2].exhausted
    ensures ws[0] == World(r, Seat(0, NEWCOMER)) && ws[2] == World(Written(oracle, plan, r, ops), ws[1].seat) && ws[1].seat.cursor == r.last
  {
    var w0 := World(r, Seat(0, NEWCOMER));
    var m0, w1 := TakeRead(oracle, plan, b, w0);
    var w2 := TakeWrite(oracle, plan, b, w1, ops);
    var m2, w3 := TakeRead(oracle, plan, b, w2);
    ws, ms := [w0, w1, w2, w3], [m0, Writes(ops), m2];
    ThreeSteps(oracle, plan, b, w0, m0, w1, Writes(ops), w2, m2, w3);
  }

  lemma TakeWrite(oracle: Oracle, plan: Plan, b: Bucket, w: World, ops: seq<SyncOp>) returns (w': World)
    requires InStep(oracle, plan, b, w) && WellShaped(b) && Known(plan, b) && RowOps(w.store.ledger.docs, ops) && ScalarOps(oracle, ops)
    ensures w' == w.(store := Written(oracle, plan, w.store, ops))
    ensures Moves(oracle, plan, "b", b, w, Writes(ops), w') && InStep(oracle, plan, b, w')
  {
    w' := w.(store := Written(oracle, plan, w.store, ops));
    MoveKeepsInStep(oracle, plan, "b", b, w, Writes(ops), w');
  }

  lemma ThreeInARow<W, M>(step: (W, M, W) -> bool, w0: W, m0: M, w1: W, m1: M, w2: W, m2: M, w3: W)
    requires step(w0, m0, w1) && step(w1, m1, w2) && step(w2, m2, w3)
    ensures var ws, ms := [w0, w1, w2, w3], [m0, m1, m2];
            forall i | 0 <= i < |ms| :: step(ws[i], ms[i], ws[i + 1])
  {
  }

  lemma ThreeSteps(oracle: Oracle, plan: Plan, b: Bucket, w0: World, m0: Move, w1: World, m1: Move, w2: World, m2: Move, w3: World)
    requires Moves(oracle, plan, "b", b, w0, m0, w1) && Moves(oracle, plan, "b", b, w1, m1, w2) && Moves(oracle, plan, "b", b, w2, m2, w3)
    ensures Steps(oracle, plan, "b", b, [w0, w1, w2, w3], [m0, m1, m2])
  {
    var step := (w: World, m: Move, w': World) => Moves(oracle, plan, "b", b, w, m, w');
    ThreeInARow(step, w0, m0, w1, m1, w2, m2, w3);
    var ws, ms := [w0, w1, w2, w3], [m0, m1, m2];
    forall i | 0 <= i < |ms|
      ensures Moves(oracle, plan, "b", b, ws[i], ms[i], ws[i + 1])
    {
      assert step(ws[i], ms[i], ws[i + 1]);
    }
  }

  lemma DriftOfSecondRead(oracle: Oracle, b: Bucket, ws: seq<World>, ms: seq<Move>)
    requires |ms| == 3 && |ws| == 4 && ms[0].Reads? && ms[1].Writes? && ms[2].Reads?
    requires ws[0].seat.cursor == 0 && 0 < ws[2].seat.cursor <= ws[2].store.last && !ms[2].snapshot.reset
    ensures Drift(oracle, b, ws, ms, 3) == MovedOutIn(oracle, b, ws[2].store.ops, ws[2].seat.cursor, ws[2].store.last)
  {
    assert Drift(oracle, b, ws, ms, 1) == 0;
    assert Drift(oracle, b, ws, ms, 2) == 0;
  }

  /** A client reads a row, the row is moved out, the client reads again: it has
      the bucket's rows, but not the checksum it is told. */
  lemma MovedOutRowLeavesDrift() returns (oracle: Oracle, plan: Plan, b: Bucket, ws: seq<World>, ms: seq<Move>, v: BucketView)
    ensures WellShaped(b) && Known(plan, b) && Steps(oracle, plan, "b", b, ws, ms) && Starts(oracle, plan, ws[0])
    ensures |ms| == 3 && ms[2].Reads? && v == BuildPayload(oracle, "b", b, ws[2].seat.cursor, ms[2].snapshot)
    ensures v.checksum != Some(Signed32(ws[3].seat.client.checksum))
  {
    var r, ops;
    oracle, plan, b, r, ops := FilteredStore();
    ws, ms := ReadWriteRead(oracle, plan, b, r, ops);
    v := BuildPayload(oracle, "b", b, ws[2].seat.cursor, ms[2].snapshot);
    NotReset(oracle, plan, b, ws, ms);
    DriftOfSecondRead(oracle, b, ws, ms);
    DriftOfOne(oracle, b, r, ws[2].store, Log(r.ledger.docs, ops));
    EveryReadBalances(oracle, plan, "b", b, ws, ms, 2, v);
    DriftShows(ws[3], b, v);
  }

  lemma NotReset(oracle: Oracle, plan: Plan, b: Bucket, ws: seq<World>, ms: seq<Move>)
    requires Steps(oracle, plan, "b", b, ws, ms) && |ms| == 3 && ms[2].Reads? && !ms[2].exhausted
    requires Resumable(ws[2].store, ws[2].seat.cursor)
    ensures !ms[2].snapshot.reset
  {
    assert Moves(oracle, plan, "b", b, ws[2], ms[2], ws[3]);
  }

  lemma DriftShows(w: World, b: Bucket, v: BucketView)
    requires Settles(w, b, v, 1)
    ensures v.checksum != Some(Signed32(w.seat.client.checksum))
  {
  }

  lemma DriftOfOne(oracle: Oracle, b: Bucket, r: Store, r': Store, log: seq<TailOp>)
    requires r'.ops == Extended(r.ops, r.last, log) && r'.last == r.last + |log|
    ensures MovedOutIn(oracle, b, r'.ops, r.last, r'.last) == MovedOutSums(oracle, b, log)
  {
    ExtendedHas(r.ops, r.last, log);
    MovedOutOfLogged(oracle, b, r'.ops, r.last, log);
  }
}
