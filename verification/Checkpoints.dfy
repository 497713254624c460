/** The accumulator loops: deltas collected per row or per transaction, with the
    projection memo, and read, changed and written back to the store. They must
    equal the one-step updates of `Accounting`. */
module Checkpoints {
  import opened Common
  import opened SyncPlan
  import opened Routing
  import opened Accounting
  import opened Conservation

  // Updating several keys of a family of accumulators at once.

  function Update(acc: Accumulators, keys: set<Query>, f: Query -> Accumulator): Accumulators {
    acc + map q | q in keys :: f(q)
  }

  lemma GetUpdated(acc: Accumulators, keys: set<Query>, f: Query -> Accumulator, q: Query)
    ensures Get(Update(acc, keys, f), q) == if q in keys then f(q) else Get(acc, q)
  {
  }

  lemma UpdateOneMore(acc: Accumulators, keys: set<Query>, f: Query -> Accumulator, q: Query)
    requires q !in keys
    ensures Update(acc, keys + {q}, f) == Update(acc, keys, f)[q := f(q)] && Get(Update(acc, keys, f), q) == Get(acc, q)
  {
  }

  lemma UpdateSame(acc: Accumulators, keys: set<Query>, f: Query -> Accumulator, g: Query -> Accumulator)
    requires forall q | q in keys :: f(q) == g(q)
    ensures Update(acc, keys, f) == Update(acc, keys, g)
  {
  }

  lemma UpdateChains(acc: Accumulators, a: set<Query>, f: Query -> Accumulator, b: set<Query>, g: Query -> Accumulator, h: Query -> Accumulator)
    requires (forall q | q in b :: h(q) == g(q)) && forall q | q in a && q !in b :: h(q) == f(q)
    ensures Update(Update(acc, a, f), b, g) == Update(acc, a + b, h)
  {
  }

  // Counting one more entry.

  type Term = Query -> U32

  function BumpFn(acc: Accumulators, term: Term): Query -> Accumulator {
    q => Plus(Get(acc, q), term(q))
  }

  /** One more entry under each chosen query. */
  function Bumped(acc: Accumulators, chosen: set<Query>, term: Term): Accumulators {
    Update(acc, chosen, BumpFn(acc, term))
  }

  function PutTerm(oracle: Oracle, d: Document): Term {
    q => PutSum(oracle, q, d)
  }

  function RemoveTerm(oracle: Oracle, k: ObjectKey): Term {
    q => oracle.removeSum(k.objectType, k.objectId)
  }

  lemma BumpedIsWithDocument(oracle: Oracle, plan: Plan, acc: Accumulators, d: Document)
    ensures Bumped(acc, Touched(oracle, plan, d), PutTerm(oracle, d)) == WithDocument(oracle, plan, acc, d)
  {
  }

  // ------------------------------------------------------------------
  // Collecting
  // ------------------------------------------------------------------

  /** The matching targets of a row, once each. */
  method MatchingTargets(oracle: Oracle, plan: Plan, d: Document) returns (qs: seq<Query>)
    ensures Elements(qs) == Touched(oracle, plan, d) && forall i, j | 0 <= i < j < |qs| :: qs[i] != qs[j]
  {
    var targets := AccumulatorBucketsForRow(plan, d.objectType, d.routes);
    qs := [];
    for i := 0 to |targets|
      invariant forall q :: q in qs <==> q in targets[..i] && FilterMatches(oracle, q, d.data)
      invariant forall m, n | 0 <= m < n < |qs| :: qs[m] != qs[n]
    {
      assert targets[..i + 1] == targets[..i] + [targets[i]];
      if FilterMatches(oracle, targets[i], d.data) {
        assert targets[i] !in targets[..i] && targets[i] !in qs;
        qs := qs + [targets[i]];
      }
    }
    assert targets[..|targets|] == targets;
    assert forall q :: q in targets <==> q in Elements(targets);
  }

  /** Add a document's checksum under its targets, projecting once per distinct
      projection and reusing the checksum afterwards. */
  method CollectPut(oracle: Oracle, plan: Plan, deltas: Accumulators, d: Document) returns (deltas': Accumulators)
    ensures deltas' == WithDocument(oracle, plan, deltas, d)
  {
    var qs := MatchingTargets(oracle, plan, d);
    deltas' := deltas;
    var memo: map<string, U32> := map[];
    NoTargets(deltas, qs, BumpFn(deltas, PutTerm(oracle, d)));
    for i := 0 to |qs|
      invariant deltas' == Bumped(deltas, Elements(qs[..i]), PutTerm(oracle, d))
      invariant forall p | p in memo :: memo[p] == oracle.putSum(d.objectType, d.objectId, oracle.project(p, d.data))
    {
      var q := qs[i];
      if q.projection !in memo {
        memo := memo[q.projection := oracle.putSum(d.objectType, d.objectId, oracle.project(q.projection, d.data))];
      }
      NextTarget(qs, i);
      UpdateOneMore(deltas, Elements(qs[..i]), BumpFn(deltas, PutTerm(oracle, d)), q);
      deltas' := deltas'[q := Plus(Get(deltas', q), memo[q.projection])];
    }
    assert qs[..|qs|] == qs;
    BumpedIsWithDocument(oracle, plan, deltas, d);
  }

  lemma NoTargets(acc: Accumulators, qs: seq<Query>, f: Query -> Accumulator)
    ensures Update(acc, Elements(qs[..0]), f) == acc
  {
  }

  lemma NextTarget(qs: seq<Query>, i: nat)
    requires i < |qs| && forall m, n | 0 <= m < n < |qs| :: qs[m] != qs[n]
    ensures Elements(qs[..i + 1]) == Elements(qs[..i]) + {qs[i]} && qs[i] !in Elements(qs[..i])
  {
  }

  /** The targets a remove is accounted under. */
  method RemoveTargetsOf(oracle: Oracle, plan: Plan, op: TailOp) returns (qs: seq<Query>)
    requires op.RemoveOp?
    ensures Elements(qs) == RemoveTargets(oracle, plan, op) && forall i, j | 0 <= i < j < |qs| :: qs[i] != qs[j]
  {
    if op.data.Some? {
      qs := MatchingTargets(oracle, plan, Removed(op).value);
    } else {
      qs := AccumulatorBucketsForRow(plan, op.key.objectType, op.routes);
    }
  }

  method CollectRemove(oracle: Oracle, plan: Plan, deltas: Accumulators, op: TailOp) returns (deltas': Accumulators)
    requires op.RemoveOp?
    ensures deltas' == Bumped(deltas, RemoveTargets(oracle, plan, op), RemoveTerm(oracle, op.key))
  {
    var qs := RemoveTargetsOf(oracle, plan, op);
    deltas' := BumpAll(deltas, qs, oracle.removeSum(op.key.objectType, op.key.objectId));
    ConstantTerm(oracle, deltas, Elements(qs), op.key);
  }

  function ConstantFn(acc: Accumulators, checksum: U32): Query -> Accumulator {
    q => Plus(Get(acc, q), checksum)
  }

  lemma ConstantTerm(oracle: Oracle, acc: Accumulators, qs: set<Query>, k: ObjectKey)
    ensures Update(acc, qs, ConstantFn(acc, oracle.removeSum(k.objectType, k.objectId))) == Bumped(acc, qs, RemoveTerm(oracle, k))
  {
  }

  /** Add one checksum under every listed query. */
  method BumpAll(deltas: Accumulators, qs: seq<Query>, checksum: U32) returns (deltas': Accumulators)
    requires forall i, j | 0 <= i < j < |qs| :: qs[i] != qs[j]
    ensures deltas' == Update(deltas, Elements(qs), ConstantFn(deltas, checksum))
  {
    deltas' := deltas;
    NoTargets(deltas, qs, ConstantFn(deltas, checksum));
    for i := 0 to |qs|
      invariant deltas' == Update(deltas, Elements(qs[..i]), ConstantFn(deltas, checksum))
    {
      NextTarget(qs, i);
      UpdateOneMore(deltas, Elements(qs[..i]), ConstantFn(deltas, checksum), qs[i]);
      deltas' := deltas'[qs[i] := Plus(Get(deltas', qs[i]), checksum)];
    }
    assert qs[..|qs|] == qs;
  }

  lemma BumpedByComprehension(oracle: Oracle, acc: Accumulators, chosen: set<Query>, k: ObjectKey)
    ensures acc + (map q | q in chosen :: Plus(Get(acc, q), oracle.removeSum(k.objectType, k.objectId)))
         == Bumped(acc, chosen, RemoveTerm(oracle, k))
  {
  }

  lemma TailIsBumped(oracle: Oracle, plan: Plan, acc: Accumulators, op: TailOp, superseded: Accumulators)
    requires op.RemoveOp? && superseded == if Removed(op).Some? then WithDocument(oracle, plan, acc, Removed(op).value) else acc
    ensures ApplyToTail(oracle, plan, acc, op) == Bumped(superseded, RemoveTargets(oracle, plan, op), RemoveTerm(oracle, op.key))
  {
    BumpedByComprehension(oracle, superseded, RemoveTargets(oracle, plan, op), op.key);
  }

  /** The tail deltas of one operation: the put it supersedes, then the remove itself. */
  method CollectTail(oracle: Oracle, plan: Plan, deltas: Accumulators, op: TailOp) returns (deltas': Accumulators)
    ensures deltas' == ApplyToTail(oracle, plan, deltas, op)
  {
    deltas' := deltas;
    if Superseded(op).Some? {
      deltas' := CollectPut(oracle, plan, deltas, Superseded(op).value);
    }
    if op.RemoveOp? {
      TailIsBumped(oracle, plan, deltas, op, deltas');
      deltas' := CollectRemove(oracle, plan, deltas', op);
    }
  }

  // ------------------------------------------------------------------
  // Writing back: tail
  // ------------------------------------------------------------------

  function AddAccumulators(a: Accumulator, b: Accumulator): Accumulator {
    Accumulator(WrapAdd(a.checksum, b.checksum), a.count + b.count)
  }

  function MergeFn(acc: Accumulators, deltas: Accumulators): Query -> Accumulator {
    q => AddAccumulators(Get(acc, q), Get(deltas, q))
  }

  /** Stored accumulators with collected deltas added. */
  function Merged(acc: Accumulators, deltas: Accumulators): Accumulators {
    Update(acc, deltas.Keys, MergeFn(acc, deltas))
  }

  lemma PlusAfterAdd(a: Accumulator, b: Accumulator, c: U32)
    ensures AddAccumulators(a, Plus(b, c)) == Plus(AddAccumulators(a, b), c)
  {
    WrapAddAssociates(a.checksum, b.checksum, c);
  }

  lemma GetMerged(acc: Accumulators, deltas: Accumulators, q: Query)
    ensures Get(Merged(acc, deltas), q) == MergeFn(acc, deltas)(q)
  {
  }

  lemma MergedAfterBump(acc: Accumulators, deltas: Accumulators, chosen: set<Query>, term: Term, q: Query)
    ensures MergeFn(acc, Bumped(deltas, chosen, term))(q)
         == if q in chosen then BumpFn(Merged(acc, deltas), term)(q) else MergeFn(acc, deltas)(q)
  {
    GetUpdated(deltas, chosen, BumpFn(deltas, term), q);
    if q in chosen {
      GetMerged(acc, deltas, q);
      PlusAfterAdd(Get(acc, q), Get(deltas, q), term(q));
    }
  }

  lemma BumpedKeys(acc: Accumulators, chosen: set<Query>, f: Query -> Accumulator)
    ensures Update(acc, chosen, f).Keys == acc.Keys + chosen
  {
  }

  /** Bumping deltas before merging is bumping the store after it. */
  lemma MergeCommutes(acc: Accumulators, deltas: Accumulators, chosen: set<Query>, term: Term)
    ensures Merged(acc, Bumped(deltas, chosen, term)) == Bumped(Merged(acc, deltas), chosen, term)
  {
    var f, g, h := MergeFn(acc, deltas), BumpFn(Merged(acc, deltas), term), MergeFn(acc, Bumped(deltas, chosen, term));
    forall q
      ensures h(q) == if q in chosen then g(q) else f(q)
    {
      MergedAfterBump(acc, deltas, chosen, term, q);
    }
    UpdateChains(acc, deltas.Keys, f, chosen, g, h);
    BumpedKeys(deltas, chosen, BumpFn(deltas, term));
  }

  lemma NothingMerged(acc: Accumulators)
    ensures Merged(acc, map[]) == acc
  {
  }

  lemma MergeCommutesWithPut(oracle: Oracle, plan: Plan, acc: Accumulators, deltas: Accumulators, d: Document)
    ensures Merged(acc, WithDocument(oracle, plan, deltas, d)) == WithDocument(oracle, plan, Merged(acc, deltas), d)
  {
    BumpedIsWithDocument(oracle, plan, deltas, d);
    BumpedIsWithDocument(oracle, plan, Merged(acc, deltas), d);
    MergeCommutes(acc, deltas, Touched(oracle, plan, d), PutTerm(oracle, d));
  }

  lemma MergeCommutesWithTail(oracle: Oracle, plan: Plan, acc: Accumulators, deltas: Accumulators, op: TailOp)
    ensures Merged(acc, ApplyToTail(oracle, plan, deltas, op)) == ApplyToTail(oracle, plan, Merged(acc, deltas), op)
  {
    var superseded := deltas;
    if Superseded(op).Some? {
      superseded := WithDocument(oracle, plan, deltas, Superseded(op).value);
      MergeCommutesWithPut(oracle, plan, acc, deltas, Superseded(op).value);
    }
    if op.RemoveOp? {
      TailIsBumped(oracle, plan, deltas, op, superseded);
      TailIsBumped(oracle, plan, Merged(acc, deltas), op, Merged(acc, superseded));
      MergeCommutes(acc, superseded, RemoveTargets(oracle, plan, op), RemoveTerm(oracle, op.key));
    }
  }

  /** The tail accumulators after a log, one operation at a time. */
  function TailAfter(oracle: Oracle, plan: Plan, acc: Accumulators, log: seq<TailOp>): Accumulators {
    if log == [] then acc else ApplyToTail(oracle, plan, TailAfter(oracle, plan, acc, log[..|log| - 1]), log[|log| - 1])
  }

  lemma {:induction false} BatchedTailIsOneByOne(oracle: Oracle, plan: Plan, acc: Accumulators, log: seq<TailOp>)
    ensures Merged(acc, TailAfter(oracle, plan, map[], log)) == TailAfter(oracle, plan, acc, log)
  {
    if log == [] {
      NothingMerged(acc);
    } else {
      var front, op := log[..|log| - 1], log[|log| - 1];
      BatchedTailIsOneByOne(oracle, plan, acc, front);
      MergeCommutesWithTail(oracle, plan, acc, TailAfter(oracle, plan, map[], front), op);
    }
  }

  method WriteTail(acc: Accumulators, deltas: Accumulators) returns (acc': Accumulators)
    ensures acc' == Merged(acc, deltas)
  {
    acc' := acc;
    var keys := Ordered(deltas.Keys);
    NoTargets(acc, keys, MergeFn(acc, deltas));
    for i := 0 to |keys|
      invariant acc' == Update(acc, Elements(keys[..i]), MergeFn(acc, deltas))
    {
      NextTarget(keys, i);
      UpdateOneMore(acc, Elements(keys[..i]), MergeFn(acc, deltas), keys[i]);
      assert keys[i] in deltas by {
        assert keys[i] in Elements(keys);
      }
      var stored := Get(acc', keys[i]);
      acc' := acc'[keys[i] := AddAccumulators(stored, deltas[keys[i]])];
    }
    assert keys[..|keys|] == keys;
  }

  /** The keys of a delta map, each once. */
  method Ordered(keys: set<Query>) returns (order: seq<Query>)
    ensures Elements(order) == keys && forall i, j | 0 <= i < j < |order| :: order[i] != order[j]
  {
    var todo := keys;
    order := [];
    while todo != {}
      invariant Elements(order) + todo == keys && Elements(order) * todo == {}
      invariant forall i, j | 0 <= i < j < |order| :: order[i] != order[j]
      decreases |todo|
    {
      var q :| q in todo;
      assert forall i | 0 <= i < |order| :: order[i] in Elements(order);
      assert Elements(order + [q]) == Elements(order) + {q};
      order := order + [q];
      todo := todo - {q};
    }
  }

  /** Collect the deltas of a whole transaction, then write each key once: the
      same as updating the store operation by operation. */
  method PersistTail(oracle: Oracle, plan: Plan, acc: Accumulators, log: seq<TailOp>) returns (acc': Accumulators)
    ensures acc' == TailAfter(oracle, plan, acc, log)
  {
    var deltas: Accumulators := map[];
    assert log[..0] == [];
    for i := 0 to |log|
      invariant deltas == TailAfter(oracle, plan, map[], log[..i])
    {
      deltas := CollectTail(oracle, plan, deltas, log[i]);
      assert log[..i + 1][..i] == log[..i];
    }
    assert log[..|log|] == log;
    BatchedTailIsOneByOne(oracle, plan, acc, log);
    acc' := WriteTail(acc, deltas);
  }

  lemma {:induction false} LedgerTail(oracle: Oracle, plan: Plan, s: Ledger, log: seq<TailOp>)
    ensures LedgerAfter(oracle, plan, s, log).tail == TailAfter(oracle, plan, s.tail, log)
  {
    if log != [] {
      LedgerTail(oracle, plan, s, log[..|log| - 1]);
    }
  }

  // ------------------------------------------------------------------
  // Writing back: current
  // ------------------------------------------------------------------

  /** Collected additions and removals for one key. */
  datatype Delta = Delta(add: Accumulator, remove: Accumulator)

  /** Add, then subtract; removing more than there is resets the accumulator. */
  function Settled(a: Accumulator, delta: Delta): Accumulator {
    var sum := AddAccumulators(a, delta.add);
    if sum.count < delta.remove.count then EMPTY
    else Accumulator(WrapSub(sum.checksum, delta.remove.checksum), sum.count - delta.remove.count)
  }

  function SettleFn(acc: Accumulators, adds: Accumulators, removes: Accumulators): Query -> Accumulator {
    q => Settled(Get(acc, q), Delta(Get(adds, q), Get(removes, q)))
  }

  /** The stored accumulators after additions `adds` and removals `removes`. */
  function SettledAll(acc: Accumulators, adds: Accumulators, removes: Accumulators): Accumulators {
    Update(acc, adds.Keys + removes.Keys, SettleFn(acc, adds, removes))
  }

  /** Read, change and write back one accumulator. */
  method Settle(stored: Accumulator, add: Accumulator, remove: Accumulator) returns (settled: Accumulator)
    ensures settled == Settled(stored, Delta(add, remove))
  {
    var count := stored.count + add.count;
    var checksum := WrapAdd(stored.checksum, add.checksum);
    if count >= remove.count {
      settled := Accumulator(WrapSub(checksum, remove.checksum), count - remove.count);
    } else {
      settled := EMPTY;
    }
  }

  method WriteCurrent(acc: Accumulators, adds: Accumulators, removes: Accumulators) returns (acc': Accumulators)
    ensures acc' == SettledAll(acc, adds, removes)
  {
    acc' := acc;
    var keys := Ordered(adds.Keys + removes.Keys);
    NoTargets(acc, keys, SettleFn(acc, adds, removes));
    for i := 0 to |keys|
      invariant acc' == Update(acc, Elements(keys[..i]), SettleFn(acc, adds, removes))
    {
      NextTarget(keys, i);
      UpdateOneMore(acc, Elements(keys[..i]), SettleFn(acc, adds, removes), keys[i]);
      var settled := Settle(Get(acc', keys[i]), Get(adds, keys[i]), Get(removes, keys[i]));
      acc' := acc'[keys[i] := settled];
    }
    assert keys[..|keys|] == keys;
  }

  lemma SettledAdd(a: Accumulator, b: Accumulator)
    ensures Settled(a, Delta(b, EMPTY)) == AddAccumulators(a, b)
  {
  }

  lemma SettledRemove(a: Accumulator, c: U32)
    ensures Settled(a, Delta(EMPTY, Plus(EMPTY, c))) == Minus(a, c)
  {
  }

  lemma AddsSettleByMerging(acc: Accumulators, adds: Accumulators)
    ensures SettledAll(acc, adds, map[]) == Merged(acc, adds)
  {
    var none: Accumulators := map[];
    forall q
      ensures SettleFn(acc, adds, none)(q) == MergeFn(acc, adds)(q)
    {
      SettledAdd(Get(acc, q), Get(adds, q));
    }
    assert adds.Keys + none.Keys == adds.Keys;
    UpdateSame(acc, adds.Keys, SettleFn(acc, adds, none), MergeFn(acc, adds));
  }

  function MinusFn(oracle: Oracle, acc: Accumulators, d: Document): Query -> Accumulator {
    q => Minus(Get(acc, q), PutSum(oracle, q, d))
  }

  lemma WithoutIsUpdate(oracle: Oracle, plan: Plan, acc: Accumulators, d: Document)
    ensures WithoutDocument(oracle, plan, acc, d) == Update(acc, Touched(oracle, plan, d), MinusFn(oracle, acc, d))
  {
  }

  lemma RemovesSettle(oracle: Oracle, plan: Plan, acc: Accumulators, d: Document, removes: Accumulators)
    requires removes == WithDocument(oracle, plan, map[], d)
    ensures SettledAll(acc, map[], removes) == WithoutDocument(oracle, plan, acc, d)
  {
    var none: Accumulators, touched := map[], Touched(oracle, plan, d);
    BumpedIsWithDocument(oracle, plan, none, d);
    BumpedKeys(none, touched, BumpFn(none, PutTerm(oracle, d)));
    assert none.Keys + removes.Keys == touched;
    forall q | q in touched
      ensures SettleFn(acc, none, removes)(q) == MinusFn(oracle, acc, d)(q)
    {
      GetUpdated(none, touched, BumpFn(none, PutTerm(oracle, d)), q);
      SettledRemove(Get(acc, q), PutSum(oracle, q, d));
    }
    UpdateSame(acc, touched, SettleFn(acc, none, removes), MinusFn(oracle, acc, d));
    WithoutIsUpdate(oracle, plan, acc, d);
  }

  method AddCurrentDocument(oracle: Oracle, plan: Plan, acc: Accumulators, d: Document) returns (acc': Accumulators)
    ensures acc' == WithDocument(oracle, plan, acc, d)
  {
    var adds := CollectPut(oracle, plan, map[], d);
    acc' := WriteCurrent(acc, adds, map[]);
    AddsSettleByMerging(acc, adds);
    MergeCommutesWithPut(oracle, plan, acc, map[], d);
    NothingMerged(acc);
  }

  method RemoveCurrentDocument(oracle: Oracle, plan: Plan, acc: Accumulators, d: Document) returns (acc': Accumulators)
    ensures acc' == WithoutDocument(oracle, plan, acc, d)
  {
    var removes := CollectPut(oracle, plan, map[], d);
    RemovesSettle(oracle, plan, acc, d, removes);
    acc' := WriteCurrent(acc, map[], removes);
  }

  function WithDocuments(oracle: Oracle, plan: Plan, acc: Accumulators, ds: seq<Document>): Accumulators {
    if ds == [] then acc else WithDocument(oracle, plan, WithDocuments(oracle, plan, acc, ds[..|ds| - 1]), ds[|ds| - 1])
  }

  lemma {:induction false} BatchedAddsAreOneByOne(oracle: Oracle, plan: Plan, acc: Accumulators, ds: seq<Document>)
    ensures Merged(acc, WithDocuments(oracle, plan, map[], ds)) == WithDocuments(oracle, plan, acc, ds)
  {
    if ds == [] {
      NothingMerged(acc);
    } else {
      var front, d := ds[..|ds| - 1], ds[|ds| - 1];
      BatchedAddsAreOneByOne(oracle, plan, acc, front);
      MergeCommutesWithPut(oracle, plan, acc, WithDocuments(oracle, plan, map[], front), d);
    }
  }

  /** An initial snapshot batch collects the deltas of all its rows and writes
      each key once: the same as adding the rows one by one. */
  method AddSnapshotBatch(oracle: Oracle, plan: Plan, acc: Accumulators, ds: seq<Document>) returns (acc': Accumulators)
    ensures acc' == WithDocuments(oracle, plan, acc, ds)
  {
    var adds: Accumulators := map[];
    assert ds[..0] == [];
    for i := 0 to |ds|
      invariant adds == WithDocuments(oracle, plan, map[], ds[..i])
    {
      adds := CollectPut(oracle, plan, adds, ds[i]);
      assert ds[..i + 1][..i] == ds[..i];
    }
    assert ds[..|ds|] == ds;
    acc' := WriteCurrent(acc, adds, map[]);
    AddsSettleByMerging(acc, adds);
    BatchedAddsAreOneByOne(oracle, plan, acc, ds);
  }
}
