/** The write path as one object: current documents and their route index,
    both families of accumulators and the tail log, changed by one transaction.
    It refines the store of `Replica`. */
module StateStore {
  import opened Common
  import opened SyncPlan
  import opened Routing
  import opened Accounting
  import opened Serving
  import opened Conservation
  import opened Codec
  import opened CurrentTable
  import opened Checkpoints
  import opened TailLog
  import opened Scopes
  import opened CurrentScans
  import StreamLines
  import Replica

  /** An operation the table can hold: its type has no colon. */
  ghost predicate Storable(utf8: string -> bool, op: SyncOp) {
    match op
    case Put(d, _) => ':' !in d.objectType && Encodable(utf8, d)
    case Remove(k, _) => ':' !in k.objectType
    case Clear(t) => t.Some? ==> ':' !in t.value
  }

  lemma {:induction false} LedgerOfRun(oracle: Oracle, plan: Plan, s: Ledger, ops: seq<SyncOp>)
    ensures LedgerAfter(oracle, plan, s, Log(s.docs, ops)).docs == DocumentsAfter(s.docs, ops)
  {
    if ops != [] {
      LedgerOfRun(oracle, plan, s, ops[..|ops| - 1]);
      assert Log(s.docs, ops)[..|ops| - 1] == Log(s.docs, ops[..|ops| - 1]);
    }
  }

  /** A remove completed by the document it deletes. */
  function Completed(k: ObjectKey, routes: Routes, existing: Option<Document>): TailOp {
    if existing.None? then RemoveOp(k, routes, None)
    else RemoveOp(k, existing.value.routes, Some(existing.value.data))
  }

  lemma CompletedRemove(docs: Documents, k: ObjectKey, routes: Routes)
    requires Keyed(docs)
    ensures var existing := if k in docs then Some(docs[k]) else None;
            Completed(k, routes, existing) == Materialize(docs, Remove(k, routes)) && Removed(Completed(k, routes, existing)) == existing
  {
  }

  // ------------------------------------------------------------------
  // Budgets of a read
  // ------------------------------------------------------------------

  datatype Budget = Budget(entries: nat, scans: nat, bytes: nat)

  datatype ReadError = TooManyEntries | TooManyBytes

  function OpsBytes(size: TailOp -> nat, ops: seq<(nat, TailOp)>): nat {
    if ops == [] then 0 else OpsBytes(size, ops[..|ops| - 1]) + size(ops[|ops| - 1].1)
  }

  /** The accumulator keys of a bucket, once each. */
  method AccumulatorKeys(b: Bucket) returns (keys: seq<Query>)
    ensures Elements(keys) == Elements(b.queries) && Distinct(keys)
  {
    keys := [];
    for i := 0 to |b.queries|
      invariant Distinct(keys) && forall q :: q in keys <==> q in b.queries[..i]
    {
      if b.queries[i] !in keys {
        keys := keys + [b.queries[i]];
      }
    }
  }

  method AddUp(acc: Accumulators, b: Bucket) returns (total: Accumulator)
    ensures Replica.Totals(acc, b, total)
  {
    var keys := AccumulatorKeys(b);
    total := EMPTY;
    ghost var counts, sums := Replica.CountOf(acc), Replica.ChecksumOf(acc);
    for i := 0 to |keys|
      invariant total.count == Sum(counts, Elements(keys[..i])) && total.checksum == Sum(sums, Elements(keys[..i])) % TWO_32
    {
      SumOfPrefix(counts, keys, i);
      SumOfPrefix(sums, keys, i);
      var a := Get(acc, keys[i]);
      WrapAddReduces(total.checksum, Sum(sums, Elements(keys[..i])), a.checksum, Sum(sums, Elements(keys[..i + 1])));
      total := Accumulator(WrapAdd(total.checksum, a.checksum), total.count + a.count);
    }
    assert keys[..|keys|] == keys;
  }

  /** The documents found, in some order. */
  method Values(found: Documents, ghost docs: Documents, ghost scope: set<ObjectKey>) returns (ds: seq<Document>)
    requires Keyed(docs) && scope <= docs.Keys && found == Restrict(docs, scope)
    ensures EachOnce(ds, docs, scope)
  {
    ds := [];
    var todo := found.Keys;
    while todo != {}
      invariant todo <= scope && EachOnce(ds, docs, scope - todo)
      decreases |todo|
    {
      var k :| k in todo;
      assert scope - (todo - {k}) == (scope - todo) + {k};
      ghost var before := ds;
      ds := ds + [found[k]];
      assert forall j | j in scope - todo :: docs[j] in before;
      todo := todo - {k};
    }
    assert scope - {} == scope;
  }

  /** Read the selected operations by id, within the byte budget. */
  method ReadOps(ops: map<nat, TailOp>, ids: set<nat>, after: nat, last: nat, size: TailOp -> nat, bytes: nat)
    returns (ok: bool, found: seq<(nat, TailOp)>)
    requires after <= last
    ensures ok <==> OpsBytes(size, Replica.OpsList(ops, ids, after, last)) <= bytes
    ensures ok ==> found == Replica.OpsList(ops, ids, after, last)
  {
    found := [];
    var left: nat := bytes;
    for id := after + 1 to last + 1
      invariant found == Replica.OpsList(ops, ids, after, id - 1) && left == bytes - OpsBytes(size, found)
    {
      if id in ids && id in ops {
        var op := ops[id];
        assert (found + [(id, op)])[..|found|] == found;
        assert Replica.OpsList(ops, ids, after, id) == found + [(id, op)];
        if size(op) > left {
          OpsBytesGrow(size, ops, ids, after, id, last);
          return false, found;
        }
        found, left := found + [(id, op)], left - size(op);
      } else {
        assert found + [] == found;
      }
    }
    ok := true;
  }

  /** The answer of the delta path: the operations, unless they exceed a budget. */
  function DeltaAnswer(size: TailOp -> nat, budget: Budget, ids: set<nat>, ops: seq<(nat, TailOp)>): Result<seq<(nat, TailOp)>, ReadError> {
    if |ids| > budget.entries then Err(TooManyEntries)
    else if OpsBytes(size, ops) > budget.bytes then Err(TooManyBytes)
    else Ok(ops)
  }

  /** The operations of a range that the bucket's index names find. */
  ghost function SelectedIds(plan: Plan, b: Bucket, ops: map<nat, TailOp>, after: nat, last: nat): set<nat> {
    set id | id in ops && after < id <= last && Indexed(plan, BucketKeys(b), ops[id])
  }

  ghost predicate DeltaOverBudget(plan: Plan, b: Bucket, ops: map<nat, TailOp>, after: nat, last: nat, budget: Budget, size: TailOp -> nat)
    requires after <= last
  {
    var ids := SelectedIds(plan, b, ops, after, last);
    |ids| > budget.entries || OpsBytes(size, Replica.OpsList(ops, ids, after, last)) > budget.bytes
  }

  /** The rows of a snapshot, with its CLEAR, or the documents to be decoded exceed a budget. */
  ghost predicate SnapshotOverBudget(plan: Plan, b: Bucket, docs: Documents, count: int, budget: Budget) {
    count + 1 > budget.entries || Sum(SizeIn(docs), BucketScope(plan, docs, b.queries)) > budget.bytes
  }

  /** The delta path of a read: an exhausted scan budget, or the operations
      after the cursor that the bucket's index names find, or an error. */
  method ReadDelta(log: OpLog, b: Bucket, after: nat, budget: Budget, size: TailOp -> nat)
    returns (exhausted: bool, ids: set<nat>, r: Result<seq<(nat, TailOp)>, ReadError>)
    requires log.Valid() && Max(log.retained, log.floor) <= after <= log.last
    ensures exhausted <==> after < log.last && EntriesUnder(log.entries, b, after, log.last) > budget.scans
    ensures !exhausted ==> ids == SelectedIds(log.plan, b, log.ops, after, log.last)
    ensures !exhausted ==> r == DeltaAnswer(size, budget, ids, Replica.OpsList(log.ops, ids, after, log.last))
  {
    ids, r := {}, Ok([]);
    exhausted := false;
    if after < log.last {
      var complete;
      complete, ids := log.Collect(b, after, budget.scans);
      exhausted := !complete;
      if exhausted {
        return;
      }
    }
    if |ids| > budget.entries {
      return exhausted, ids, Err(TooManyEntries);
    }
    var ok, ops := ReadOps(log.ops, ids, after, log.last, size, budget.bytes);
    r := if ok then Ok(ops) else Err(TooManyBytes);
  }

  method UncountAll(oracle: Oracle, plan: Plan, acc: Accumulators, ds: seq<Document>) returns (acc': Accumulators)
    ensures acc' == WithoutDocuments(oracle, plan, acc, ds)
  {
    acc' := acc;
    assert ds[..0] == [];
    for i := 0 to |ds|
      invariant acc' == WithoutDocuments(oracle, plan, acc, ds[..i])
    {
      acc' := RemoveCurrentDocument(oracle, plan, acc', ds[i]);
      assert ds[..i + 1][..i] == ds[..i];
    }
    assert ds[..|ds|] == ds;
  }

  class MaterializedStore {
    const oracle: Oracle
    const plan: Plan
    const state: CurrentState
    const log: OpLog
    var current: Accumulators
    var tail: Accumulators

    ghost predicate Valid()
      reads this, state, log
    {
      state.Valid() && log.Valid() && state.plan == plan && log.plan == plan
    }

    ghost function Value(): Replica.Store
      reads this, state, log
    {
      Replica.Store(Ledger(state.docs, current, tail), log.ops, log.last, log.retained, log.floor)
    }

    constructor (o: Oracle, p: Plan, utf8: string -> bool, json: string -> Option<Document>, base: nat)
      ensures Valid() && fresh(state) && fresh(log) && oracle == o && plan == p && state.utf8 == utf8
      ensures Value() == Replica.Store(NOTHING, map[], base, base, base)
    {
      oracle, plan := o, p;
      state := new CurrentState(p, utf8, json);
      log := new OpLog(p, base, 0);
      current, tail := map[], map[];
    }

    /** Put a document: read what it replaces, take that out, put it and count it. */
    method ApplyPut(d: Document, assumeNew: bool) returns (m: TailOp)
      requires Valid() && ':' !in d.objectType && Encodable(state.utf8, d) && (assumeNew ==> d.Key() !in state.docs)
      modifies this`current, state
      ensures Valid() && m == Materialize(old(state.docs), Put(d, assumeNew)) && state.docs == old(state.docs)[d.Key() := d]
      ensures current == ApplyToCurrent(oracle, plan, old(current), m, [])
    {
      var previous := None;
      if !assumeNew {
        previous := state.ReadDocument(d.Key());
      }
      m := PutOp(d, previous);
      if previous.Some? {
        current := RemoveCurrentDocument(oracle, plan, current, previous.value);
      }
      var ok := state.PutDocument(d, assumeNew, previous, true);
      current := AddCurrentDocument(oracle, plan, current, d);
    }

    method Uncount(acc: Accumulators, existing: Option<Document>) returns (acc': Accumulators)
      ensures acc' == if existing.Some? then WithoutDocument(oracle, plan, acc, existing.value) else acc
    {
      acc' := acc;
      if existing.Some? {
        acc' := RemoveCurrentDocument(oracle, plan, acc, existing.value);
      }
    }

    /** Remove a document: what is deleted completes the operation. */
    method ApplyRemove(k: ObjectKey, routes: Routes) returns (m: TailOp)
      requires Valid() && ':' !in k.objectType
      modifies this`current, state
      ensures Valid() && m == Materialize(old(state.docs), Remove(k, routes)) && state.docs == old(state.docs) - {k}
      ensures current == ApplyToCurrent(oracle, plan, old(current), m, [])
    {
      var existing := state.ReadDocument(k);
      CompletedRemove(state.docs, k, routes);
      m := Completed(k, routes, existing);
      current := Uncount(current, existing);
      state.DeleteDocument(k, existing);
    }

    /** Clear the documents of a type, or all: each is taken out of the accumulators. */
    method ApplyClear(t: Option<string>) returns (m: TailOp, order: seq<Document>)
      requires Valid() && (t.Some? ==> ':' !in t.value)
      modifies this`current, state
      ensures Valid() && m == ClearOp(t) && state.docs == ApplyToDocuments(old(state.docs), m)
      ensures Enumerates(order, old(state.docs), t) && current == ApplyToCurrent(oracle, plan, old(current), m, order)
    {
      m := ClearOp(t);
      order := state.ClearDocuments(t);
      current := UncountAll(oracle, plan, current, order);
    }

    /** Complete one operation from the current documents, then apply it to
        documents, route index and current accumulators. */
    method ApplyOp(op: SyncOp) returns (m: TailOp, order: seq<Document>)
      requires Valid() && Storable(state.utf8, op) && HonestlyNew(state.docs, op)
      modifies this`current, state
      ensures Valid() && m == Materialize(old(state.docs), op) && state.docs == ApplyToDocuments(old(state.docs), m)
      ensures if op.Clear? then Enumerates(order, old(state.docs), op.objectType) else order == []
      ensures current == ApplyToCurrent(oracle, plan, old(current), m, order)
    {
      order := [];
      match op {
        case Put(d, assumeNew) =>
          m := ApplyPut(d, assumeNew);
        case Remove(k, routes) =>
          m := ApplyRemove(k, routes);
        case Clear(t) =>
          m, order := ApplyClear(t);
      }
    }

    /** Apply every operation of a transaction in turn. */
    method ApplyAll(ops: seq<SyncOp>) returns (done: seq<TailOp>)
      requires Valid() && RowOps(state.docs, ops) && forall i | 0 <= i < |ops| :: Storable(state.utf8, ops[i])
      modifies this`current, state
      ensures Valid() && done == Log(old(state.docs), ops) && state.docs == DocumentsAfter(old(state.docs), ops)
      ensures current == LedgerAfter(oracle, plan, old(Ledger(state.docs, current, tail)), done).current
    {
      ghost var start := Ledger(state.docs, current, tail);
      done := [];
      assert ops[..0] == [];
      for i := 0 to |ops|
        invariant Valid() && done == Log(start.docs, ops[..i]) && state.docs == DocumentsAfter(start.docs, ops[..i])
        invariant current == LedgerAfter(oracle, plan, start, done).current
      {
        RowOpsPrefix(start.docs, ops, i);
        RunOneMore(oracle, plan, start, ops, i);
        var m, order := ApplyOp(ops[i]);
        done := done + [m];
      }
      assert ops[..|ops|] == ops;
    }

    /** One source transaction: apply all operations, number and index them, then
        add the collected tail deltas. An operation that cannot be stored fails
        the transaction and changes nothing. */
    method PersistTransaction(ops: seq<SyncOp>, fits: bool) returns (ok: bool)
      requires Valid() && RowOps(state.docs, ops)
      requires fits == forall i | 0 <= i < |ops| :: Storable(state.utf8, ops[i])
      modifies this`current, this`tail, state, log
      ensures Valid() && ok == fits
      ensures Value() == if ok then Replica.Written(oracle, plan, old(Value()), ops) else old(Value())
    {
      if !fits {
        return false;
      }
      ghost var start := Value();
      var done := ApplyAll(ops);
      log.Append(done);
      tail := PersistTail(oracle, plan, tail, done);
      LedgerOfRun(oracle, plan, start.ledger, ops);
      LedgerTail(oracle, plan, start.ledger, done);
      ok := true;
    }

    /** The snapshot path of a read: the current documents of the bucket. */
    method ReadDocuments(b: Bucket, count: nat, budget: Budget) returns (r: Result<seq<Document>, ReadError>)
      requires Valid() && forall q | q in b.queries :: ':' !in q.objectType
      ensures r.Err? <==> SnapshotOverBudget(plan, b, state.docs, count, budget)
      ensures r.Ok? ==> EachOnce(r.value, state.docs, BucketScope(plan, state.docs, b.queries))
    {
      if count + 1 > budget.entries {
        return Err(TooManyEntries);
      }
      var ok, p := GatherBucket(plan, state.utf8, state.json, state.table, b, budget.bytes, state.docs);
      if !ok {
        return Err(TooManyBytes);
      }
      BucketScopeIsKnown(plan, state.docs, b.queries);
      var ds := Values(p.found, state.docs, BucketScope(plan, state.docs, b.queries));
      r := Ok(ds);
    }

    /** Serve a delta from a cursor that needs no reset, unless the scan budget is exhausted. */
    method ReadTail(b: Bucket, after: nat, budget: Budget, size: TailOp -> nat, currentTotal: Accumulator, tailTotal: Accumulator)
      returns (exhausted: bool, r: Result<StreamLines.ReadSnapshot, ReadError>)
      requires Valid() && after > 0 && !Replica.NeedsReset(Value(), after)
      requires Replica.Totals(current, b, currentTotal) && Replica.Totals(tail, b, tailTotal)
      ensures exhausted <==> after < log.last && EntriesUnder(log.entries, b, after, log.last) > budget.scans
      ensures !exhausted ==> (r.Err? <==> DeltaOverBudget(plan, b, log.ops, after, log.last, budget, size))
      ensures !exhausted && r.Ok? ==> Replica.MayRead(plan, b, Value(), after, false, r.value)
    {
      var ids, delta;
      exhausted, ids, delta := ReadDelta(log, b, after, budget, size);
      if exhausted {
        return exhausted, Err(TooManyEntries);
      }
      if delta.Err? {
        return exhausted, Err(delta.error);
      }
      r := Ok(StreamLines.ReadSnapshot(log.last, false, [], delta.value, currentTotal, tailTotal));
      FoundIsRead(plan, b, Value(), after, ids, r.value);
    }

    /** Serve a snapshot: for a new client, a required reset or an exhausted scan budget. */
    method ReadCurrent(b: Bucket, after: nat, reset: bool, exhausted: bool, currentTotal: Accumulator, tailTotal: Accumulator, budget: Budget)
      returns (r: Result<StreamLines.ReadSnapshot, ReadError>)
      requires Valid() && forall q | q in b.queries :: ':' !in q.objectType
      requires Replica.Totals(current, b, currentTotal) && Replica.Totals(tail, b, tailTotal)
      requires reset == Replica.NeedsReset(Value(), after) && (after > 0 ==> reset || exhausted) && (exhausted ==> 0 < after < log.last)
      ensures r.Err? <==> SnapshotOverBudget(plan, b, state.docs, currentTotal.count, budget)
      ensures r.Ok? ==> Replica.MayRead(plan, b, Value(), after, exhausted, r.value)
    {
      var documents := ReadDocuments(b, currentTotal.count, budget);
      if documents.Err? {
        return Err(documents.error);
      }
      r := Ok(StreamLines.ReadSnapshot(log.last, reset || exhausted, documents.value, [], currentTotal, tailTotal));
      GatheredIsRead(plan, b, Value(), after, exhausted, r.value);
    }

    /** Read one bucket from a cursor. The scan budget decides between delta and
        reset; the read is refused if and only if it would exceed the entry or
        byte budget; otherwise it is one the read protocol allows. */
    method ReadBucket(b: Bucket, after: nat, budget: Budget, size: TailOp -> nat)
      returns (exhausted: bool, r: Result<StreamLines.ReadSnapshot, ReadError>)
      requires Valid() && forall q | q in b.queries :: ':' !in q.objectType
      ensures r.Ok? ==> Replica.MayRead(plan, b, Value(), after, exhausted, r.value)
      ensures exhausted <==> 0 < after < log.last && !Replica.NeedsReset(Value(), after)
                             && EntriesUnder(log.entries, b, after, log.last) > budget.scans
      ensures r.Err? <==>
                if after == 0 || exhausted || Replica.NeedsReset(Value(), after)
                then SnapshotOverBudget(plan, b, state.docs, Sum(Replica.CountOf(current), Elements(b.queries)), budget)
                else DeltaOverBudget(plan, b, log.ops, after, log.last, budget, size)
    {
      var reset := after > log.last || (after > 0 && (after < log.floor || after < log.retained));
      var currentTotal := AddUp(current, b);
      var tailTotal := AddUp(tail, b);
      exhausted := false;
      if !reset && after > 0 {
        exhausted, r := ReadTail(b, after, budget, size, currentTotal, tailTotal);
        if !exhausted {
          return;
        }
      }
      r := ReadCurrent(b, after, reset, exhausted, currentTotal, tailTotal, budget);
    }

    method Prune(retain: nat, deleteChunk: nat)
      requires Valid()
      modifies log
      ensures Valid() && Value() == Replica.Pruned(old(Value()), retain)
    {
      log.Prune(retain, deleteChunk);
    }
  }

  /** The operations found by the index are a delta the protocol allows. */
  lemma FoundIsRead(plan: Plan, b: Bucket, r: Replica.Store, after: nat, ids: set<nat>, s: StreamLines.ReadSnapshot)
    requires 0 < after <= r.last && !Replica.NeedsReset(r, after) && ids == SelectedIds(plan, b, r.ops, after, r.last)
    requires s.latest == r.last && !s.reset && s.ops == Replica.OpsList(r.ops, ids, after, r.last)
    requires Replica.Totals(r.ledger.current, b, s.current) && Replica.Totals(r.ledger.tail, b, s.tail)
    ensures Replica.MayRead(plan, b, r, after, false, s)
  {
    assert Replica.Selects(plan, b, r, after, ids);
  }

  lemma GatheredIsRead(plan: Plan, b: Bucket, r: Replica.Store, after: nat, exhausted: bool, s: StreamLines.ReadSnapshot)
    requires s.latest == r.last && s.ops == [] && s.reset == (Replica.NeedsReset(r, after) || exhausted) && (after > 0 ==> s.reset)
    requires exhausted ==> 0 < after < r.last
    requires EachOnce(s.documents, r.ledger.docs, BucketScope(plan, r.ledger.docs, b.queries))
    requires Replica.Totals(r.ledger.current, b, s.current) && Replica.Totals(r.ledger.tail, b, s.tail)
    ensures Replica.MayRead(plan, b, r, after, exhausted, s)
  {
  }

  lemma {:induction false} OpsBytesGrow(size: TailOp -> nat, ops: map<nat, TailOp>, ids: set<nat>, lo: nat, mid: nat, hi: nat)
    requires lo <= mid <= hi
    ensures OpsBytes(size, Replica.OpsList(ops, ids, lo, mid)) <= OpsBytes(size, Replica.OpsList(ops, ids, lo, hi))
  {
    if mid < hi {
      OpsBytesGrow(size, ops, ids, lo, mid, hi - 1);
      var front := Replica.OpsList(ops, ids, lo, hi - 1);
      if hi in ids && hi in ops {
        assert (front + [(hi, ops[hi])])[..|front|] == front;
      } else {
        assert front + [] == front;
      }
    }
  }

  lemma {:induction false} RowOpsPrefix(docs: Documents, ops: seq<SyncOp>, n: nat)
    requires RowOps(docs, ops) && n < |ops|
    ensures RowOps(docs, ops[..n]) && !ops[n].Clear? && HonestlyNew(DocumentsAfter(docs, ops[..n]), ops[n])
    decreases |ops|
  {
    if n < |ops| - 1 {
      RowOpsPrefix(docs, ops[..|ops| - 1], n);
      assert ops[..|ops| - 1][..n] == ops[..n];
    }
  }

  /** How documents, log and current accumulators extend by one operation. */
  lemma RunOneMore(oracle: Oracle, plan: Plan, s: Ledger, ops: seq<SyncOp>, n: nat)
    requires n < |ops|
    ensures var docs := DocumentsAfter(s.docs, ops[..n]);
            var m := Materialize(docs, ops[n]);
            && DocumentsAfter(s.docs, ops[..n + 1]) == ApplyToDocuments(docs, m)
            && Log(s.docs, ops[..n + 1]) == Log(s.docs, ops[..n]) + [m]
            && LedgerAfter(oracle, plan, s, Log(s.docs, ops[..n]) + [m]).current
                 == ApplyToCurrent(oracle, plan, LedgerAfter(oracle, plan, s, Log(s.docs, ops[..n])).current, m, [])
  {
    assert ops[..n + 1][..n] == ops[..n];
    var log, m := Log(s.docs, ops[..n]), Materialize(DocumentsAfter(s.docs, ops[..n]), ops[n]);
    assert (log + [m])[..n] == log;
  }
}
