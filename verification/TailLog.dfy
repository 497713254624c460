/** The tail log: numbered operations, the secondary index that finds a bucket's
    operations, retention, and the bounded index scan behind a read. */
module TailLog {
  import opened Common
  import opened SyncPlan
  import opened Routing
  import opened Accounting
  import opened Serving
  import opened Conservation
  import opened Scopes

  /** Index names; `Keys` shows their byte form is injective and prefix-free. */
  datatype IndexKey =
    | ObjectIndex(objectType: string)
    | ClearIndex(objectType: string)
    | RouteIndex(objectType: string, constraints: Routes)

  /** The index names a query of a bucket reads. */
  function QueryKeys(q: Query): set<IndexKey> {
    if q.constraints == map[] then {ObjectIndex(q.objectType)}
    else {ClearIndex(q.objectType), RouteIndex(q.objectType, q.constraints)}
  }

  function BucketKeys(b: Bucket): set<IndexKey> {
    set q, k | q in b.queries && k in QueryKeys(q) :: k
  }

  function RouteKeys(plan: Plan, objectType: string, routes: Routes): set<IndexKey> {
    set r | r in RequiredRouteIndexes(plan, objectType, routes) :: RouteIndex(objectType, r)
  }

  /** The index names an operation is filed under. */
  function OpKeys(plan: Plan, op: TailOp): set<IndexKey> {
    match op
    case PutOp(d, previous) =>
      {ObjectIndex(d.objectType)} + RouteKeys(plan, d.objectType, d.routes)
        + (if previous.None? then {} else RouteKeys(plan, d.objectType, previous.value.routes))
    case RemoveOp(k, routes, _) => {ObjectIndex(k.objectType)} + RouteKeys(plan, k.objectType, routes)
    case ClearOp(t) => if t.None? then {} else {ObjectIndex(t.value), ClearIndex(t.value)}
  }

  predicate Indexed(plan: Plan, keys: set<IndexKey>, op: TailOp) {
    OpKeys(plan, op) * keys != {}
  }

  /** A put or remove as completed from the current documents: a replaced document is the same object. */
  ghost predicate RowOp(op: TailOp) {
    !op.ClearOp? && (op.PutOp? && op.previous.Some? ==> op.previous.value.Key() == op.doc.Key())
  }

  /** The route values of an operation, old or new, are those of a query of the bucket. */
  predicate OpReached(b: Bucket, op: TailOp) {
    match op
    case PutOp(d, previous) =>
      Reached(b, d.objectType, d.routes) || (previous.Some? && Reached(b, d.objectType, previous.value.routes))
    case RemoveOp(k, routes, _) => Reached(b, k.objectType, routes)
    case ClearOp(t) => t.Some? && exists q | q in b.queries :: q.objectType == t.value
  }

  function RowKeys(plan: Plan, objectType: string, routes: Routes): set<IndexKey> {
    {ObjectIndex(objectType)} + RouteKeys(plan, objectType, routes)
  }

  /** A row is filed under one of the names a query reads exactly when it has the query's route values. */
  lemma RowFiledIff(plan: Plan, q: Query, objectType: string, routes: Routes)
    requires Covered(plan, q)
    ensures (exists k :: k in QueryKeys(q) && k in RowKeys(plan, objectType, routes))
            <==> q.objectType == objectType && RoutesEqual(q.constraints, routes)
  {
    if q.constraints == map[] {
      assert ObjectIndex(q.objectType) in QueryKeys(q);
    } else {
      IndexIffRoutesEqual(plan, q, routes);
      assert RouteIndex(q.objectType, q.constraints) in QueryKeys(q);
    }
  }

  lemma RowIndexedIff(plan: Plan, b: Bucket, objectType: string, routes: Routes)
    requires Known(plan, b)
    ensures RowKeys(plan, objectType, routes) * BucketKeys(b) != {} <==> Reached(b, objectType, routes)
  {
    var filed := RowKeys(plan, objectType, routes);
    if k :| k in filed && k in BucketKeys(b) {
      var q :| q in b.queries && k in QueryKeys(q);
      RowFiledIff(plan, q, objectType, routes);
    }
    if q :| q in b.queries && q.objectType == objectType && RoutesEqual(q.constraints, routes) {
      RowFiledIff(plan, q, objectType, routes);
      var k :| k in QueryKeys(q) && k in filed;
      assert k in filed * BucketKeys(b);
    }
  }

  /** What the index finds: an operation is filed under a name the bucket reads
      if and only if its route values are those of a query of the bucket. */
  lemma OpIndexedIff(plan: Plan, b: Bucket, op: TailOp)
    requires Known(plan, b)
    ensures Indexed(plan, BucketKeys(b), op) <==> OpReached(b, op)
  {
    match op
    case PutOp(d, previous) =>
      RowIndexedIff(plan, b, d.objectType, d.routes);
      if previous.Some? {
        RowIndexedIff(plan, b, d.objectType, previous.value.routes);
        assert OpKeys(plan, op) == RowKeys(plan, d.objectType, d.routes) + RowKeys(plan, d.objectType, previous.value.routes);
      }
    case RemoveOp(k, routes, _) =>
      RowIndexedIff(plan, b, k.objectType, routes);
    case ClearOp(t) =>
      if t.Some? {
        ClearIndexedIff(b, t.value);
      }
  }

  lemma ClearIndexedIff(b: Bucket, t: string)
    ensures {ObjectIndex(t), ClearIndex(t)} * BucketKeys(b) != {} <==> exists q | q in b.queries :: q.objectType == t
  {
    if q :| q in b.queries && q.objectType == t {
      var k := if q.constraints == map[] then ObjectIndex(t) else ClearIndex(t);
      assert k in QueryKeys(q) && k in BucketKeys(b);
    }
  }

  /** An operation on scalar route values that affects a bucket is found through its index names. */
  lemma ScalarEffectIsReached(oracle: Oracle, b: Bucket, op: TailOp)
    requires RowOp(op) && ScalarOp(oracle, op) && TailEffect(oracle, b, op).Some?
    ensures OpReached(b, op)
  {
    match op
    case PutOp(d, previous) =>
      if Holds(oracle, b, d) {
        ScalarRowIsReached(oracle, b, d.objectType, d.routes);
      } else {
        ScalarRowIsReached(oracle, b, d.objectType, previous.value.routes);
      }
    case RemoveOp(k, routes, _) =>
      ScalarRowIsReached(oracle, b, k.objectType, routes);
  }

  // ------------------------------------------------------------------
  // The log
  // ------------------------------------------------------------------

  class OpLog {
    const plan: Plan
    var ops: map<nat, TailOp>
    var entries: set<(IndexKey, nat)>
    var refs: map<nat, set<IndexKey>>
    var last: nat
    var retained: nat
    var floor: nat

    /** Operations, references and index entries exist for exactly the ids above `low`. */
    ghost predicate Above(low: nat)
      reads this
    {
      && (forall id :: id in ops <==> low < id <= last)
      && refs.Keys == ops.Keys && (forall id | id in ops :: refs[id] == OpKeys(plan, ops[id]))
      && (forall k, id :: (k, id) in entries <==> id in ops && k in OpKeys(plan, ops[id]))
    }

    /** Every id above both floors is present and fully indexed; nothing else is. */
    ghost predicate Valid()
      reads this
    {
      floor <= last && retained <= last && Above(Max(retained, floor))
    }

    /** A store seeded at a cursor generation, with `floor` at the end of its initial snapshot. */
    constructor (p: Plan, base: nat, rows: nat)
      ensures Valid() && plan == p && ops == map[] && last == base + rows && retained == base && floor == last
    {
      plan := p;
      ops, entries, refs := map[], {}, map[];
      last, retained, floor := base + rows, base, base + rows;
    }

    method AddEntries(keys: set<IndexKey>, id: nat)
      modifies this`entries
      ensures forall k, i :: (k, i) in entries <==> (k, i) in old(entries) || (i == id && k in keys)
    {
      var todo := keys;
      while todo != {}
        invariant todo <= keys
        invariant forall k, i :: (k, i) in entries <==> (k, i) in old(entries) || (i == id && k in keys - todo)
        decreases |todo|
      {
        var key :| key in todo;
        entries := entries + {(key, id)};
        todo := todo - {key};
      }
    }

    method DropEntries(keys: set<IndexKey>, id: nat)
      modifies this`entries
      ensures forall k, i :: (k, i) in entries <==> (k, i) in old(entries) && !(i == id && k in keys)
    {
      var todo := keys;
      while todo != {}
        invariant todo <= keys
        invariant forall k, i :: (k, i) in entries <==> (k, i) in old(entries) && !(i == id && k in keys - todo)
        decreases |todo|
      {
        var key :| key in todo;
        entries := entries - {(key, id)};
        todo := todo - {key};
      }
    }

    /** Number and file one completed operation. */
    method AppendOne(op: TailOp)
      requires Valid()
      modifies this`ops, this`entries, this`refs, this`last
      ensures Valid() && last == old(last) + 1 && ops == old(ops)[last := op]
    {
      var id, keys := last + 1, OpKeys(plan, op);
      AddEntries(keys, id);
      ops, refs, last := ops[id := op], refs[id := keys], id;
    }

    /** Append the completed operations of one source transaction. */
    method Append(log: seq<TailOp>)
      requires Valid()
      modifies this`ops, this`entries, this`refs, this`last
      ensures Valid() && last == old(last) + |log| && ops == Extended(old(ops), old(last), log)
    {
      assert log[..0] == [];
      for i := 0 to |log|
        invariant Valid() && last == old(last) + i && ops == Extended(old(ops), old(last), log[..i])
      {
        AppendOne(log[i]);
        assert log[..i + 1][..i] == log[..i];
      }
      assert log[..|log|] == log;
    }

    /** Delete the lowest operation with its references and index entries. */
    method DropLowest(id: nat)
      requires id > 0 && id <= last && Above(id - 1)
      modifies this`ops, this`entries, this`refs
      ensures Above(id) && ops == old(ops) - {id}
    {
      if id in refs {
        DropEntries(refs[id], id);
      }
      refs := refs - {id};
      ops := ops - {id};
    }

    /** Delete the operations `start` to `end`, the lowest there are. */
    method DropChunk(start: nat, end: nat)
      requires 0 < start <= end + 1 && end <= last && Above(start - 1)
      modifies this`ops, this`entries, this`refs
      ensures Above(end) && ops == Truncated(old(ops), end)
    {
      for id := start to end + 1
        invariant Above(id - 1) && ops == Truncated(old(ops), id - 1)
      {
        DropLowest(id);
      }
    }

    /** Delete the operations up to `desired`, chunk by chunk. */
    method DropThrough(first: nat, desired: nat, chunk: nat)
      requires 0 < first <= desired <= last && chunk > 0 && Above(first - 1)
      modifies this`ops, this`entries, this`refs
      ensures Above(desired) && ops == Truncated(old(ops), desired)
    {
      var start := first;
      ghost var done := first - 1;
      assert ops == Truncated(ops, done);
      while start <= desired
        invariant start == done + 1 <= desired + 1 && Above(done) && ops == Truncated(old(ops), done)
      {
        var end := Min(desired, start + (chunk - 1));
        DropChunk(start, end);
        TruncatedTwice(old(ops), done, end);
        done, start := end, end + 1;
      }
    }

    /** Keep the newest `retain` operations, deleting older ones chunk by chunk
        and skipping the ids of the initial snapshot. */
    method Prune(retain: nat, deleteChunk: nat)
      requires Valid()
      modifies this`ops, this`entries, this`refs, this`retained
      ensures Valid() && retained == Max(old(retained), last - retain)
      ensures ops == Truncated(old(ops), Max(retained, floor))
    {
      var desired := if last < retain then 0 else last - retain;
      if desired <= retained {
        assert ops == Truncated(ops, Max(retained, floor));
        return;
      }
      var chunk := if deleteChunk == 0 then 1 else deleteChunk;
      if desired > floor {
        DropThrough(Max(retained + 1, floor + 1), desired, chunk);
      }
      retained := desired;
    }

    /** Collect the ids under every index name of a bucket, once each. The
        budget lasts if and only if it covers all entries under the names; the
        ids are then exactly the retained operations in range filed under one of them. */
    method Collect(b: Bucket, after: nat, budget: nat) returns (complete: bool, found: set<nat>)
      requires Valid() && Max(retained, floor) <= after <= last
      ensures complete <==> EntriesUnder(entries, b, after, last) <= budget
      ensures complete ==> Finds(plan, ops, BucketKeys(b), after, last, found)
    {
      complete, found := CollectBucketIds(entries, b, after, last, budget);
      if complete {
        MatchesFind(plan, ops, entries, BucketKeys(b), after, last, found);
      }
    }
  }

  lemma MatchesFind(plan: Plan, ops: map<nat, TailOp>, entries: set<(IndexKey, nat)>, keys: set<IndexKey>, after: nat, last: nat, found: set<nat>)
    requires forall k, id :: (k, id) in entries <==> id in ops && k in OpKeys(plan, ops[id])
    requires forall id :: id in found <==> exists k :: k in keys && id in Matches(entries, k, after + 1, last + 1)
    ensures Finds(plan, ops, keys, after, last, found)
  {
    forall id
      ensures id in found <==> after < id <= last && id in ops && Indexed(plan, keys, ops[id])
    {
      if id in found {
        var k :| k in keys && id in Matches(entries, k, after + 1, last + 1);
        assert (k, id) in entries && k in OpKeys(plan, ops[id]) * keys;
      } else if id in ops && after < id <= last {
        forall k | k in keys
          ensures k !in OpKeys(plan, ops[id])
        {
          assert (k, id) in entries <==> id in Matches(entries, k, after + 1, last + 1);
        }
      }
    }
  }

  /** How many index entries a bucket's names have after a cursor. */
  ghost function EntriesUnder(entries: set<(IndexKey, nat)>, b: Bucket, after: nat, last: nat): int {
    Sum(MatchCounts(entries, after + 1, last + 1), BucketKeys(b))
  }

  method CollectBucketIds(entries: set<(IndexKey, nat)>, b: Bucket, after: nat, last: nat, budget: nat) returns (complete: bool, found: set<nat>)
    requires after <= last
    ensures complete <==> EntriesUnder(entries, b, after, last) <= budget
    ensures complete ==> forall id :: id in found <==> exists k :: k in BucketKeys(b) && id in Matches(entries, k, after + 1, last + 1)
  {
    var keys := BucketTailIndexKeys(b);
    var left;
    complete, found, left := CollectIds(entries, keys, after + 1, last + 1, budget);
  }

  /** Ids under one index name within a range. */
  ghost function Matches(entries: set<(IndexKey, nat)>, key: IndexKey, lo: nat, hi: nat): set<nat> {
    set id | lo <= id < hi && (key, id) in entries
  }

  ghost function MatchCounts(entries: set<(IndexKey, nat)>, lo: nat, hi: nat): IndexKey -> int {
    key => |Matches(entries, key, lo, hi)|
  }

  /** Exactly the operations of a range that are filed under one of the names. */
  ghost predicate Finds(plan: Plan, ops: map<nat, TailOp>, keys: set<IndexKey>, after: nat, last: nat, found: set<nat>) {
    forall id :: id in found <==> after < id <= last && id in ops && Indexed(plan, keys, ops[id])
  }

  /** Visit one index in id order until the scan budget runs out. */
  method ScanIndex(entries: set<(IndexKey, nat)>, key: IndexKey, first: nat, end: nat, ids: set<nat>, budget: nat)
    returns (complete: bool, found: set<nat>, left: nat)
    requires first <= end
    ensures complete <==> |Matches(entries, key, first, end)| <= budget
    ensures complete ==> found == ids + Matches(entries, key, first, end) && left == budget - |Matches(entries, key, first, end)|
  {
    found, left := ids, budget;
    assert Matches(entries, key, first, first) == {};
    for id := first to end
      invariant found == ids + Matches(entries, key, first, id) && left == budget - |Matches(entries, key, first, id)|
    {
      ghost var seen := Matches(entries, key, first, id);
      if (key, id) in entries {
        assert Matches(entries, key, first, id + 1) == seen + {id};
        if left == 0 {
          SubsetSize(Matches(entries, key, first, id + 1), Matches(entries, key, first, end));
          return false, found, left;
        }
        left, found := left - 1, found + {id};
      } else {
        assert Matches(entries, key, first, id + 1) == seen;
      }
    }
    complete := true;
  }

  /** Visit several indexes within one budget. */
  method CollectIds(entries: set<(IndexKey, nat)>, keys: seq<IndexKey>, first: nat, end: nat, budget: nat)
    returns (complete: bool, found: set<nat>, left: nat)
    requires first <= end && Distinct(keys)
    ensures complete <==> Sum(MatchCounts(entries, first, end), Elements(keys)) <= budget
    ensures complete ==> forall id :: id in found <==> exists k :: k in Elements(keys) && id in Matches(entries, k, first, end)
  {
    found, left := {}, budget;
    ghost var counts := MatchCounts(entries, first, end);
    for i := 0 to |keys|
      invariant forall id :: id in found <==> exists k :: k in Elements(keys[..i]) && id in Matches(entries, k, first, end)
      invariant Spent(counts, keys, i, budget, left)
    {
      SpentOneMore(counts, keys, i, budget, left);
      ghost var fits := counts(keys[i]) <= left;
      complete, found, left := ScanIndex(entries, keys[i], first, end, found, left);
      assert complete <==> fits;
      if !complete {
        return;
      }
    }
    assert keys[..|keys|] == keys;
    complete := true;
  }

  /** What is left of a budget once the first `n` names are visited. */
  ghost predicate Spent(counts: IndexKey -> int, keys: seq<IndexKey>, n: nat, budget: nat, left: nat)
    requires n <= |keys|
  {
    left == budget - Sum(counts, Elements(keys[..n]))
  }

  lemma SpentOneMore(counts: IndexKey -> int, keys: seq<IndexKey>, i: nat, budget: nat, left: nat)
    requires i < |keys| && Distinct(keys) && Spent(counts, keys, i, budget, left) && forall k :: counts(k) >= 0
    ensures Elements(keys[..i + 1]) == Elements(keys[..i]) + {keys[i]}
    ensures counts(keys[i]) <= left ==> Spent(counts, keys, i + 1, budget, left - counts(keys[i]))
    ensures counts(keys[i]) > left ==> Sum(counts, Elements(keys)) > budget
  {
    SumOfPrefix(counts, keys, i);
    SumSubset(counts, Elements(keys[..i + 1]), Elements(keys));
  }

  /** The index names of a bucket, once each. */
  method BucketTailIndexKeys(b: Bucket) returns (keys: seq<IndexKey>)
    ensures Elements(keys) == BucketKeys(b) && Distinct(keys)
  {
    keys := [];
    for i := 0 to |b.queries|
      invariant Distinct(keys)
      invariant forall k :: k in keys <==> exists n | 0 <= n < i :: k in QueryKeys(b.queries[n])
    {
      var more := if b.queries[i].constraints == map[] then [ObjectIndex(b.queries[i].objectType)]
                  else [ClearIndex(b.queries[i].objectType), RouteIndex(b.queries[i].objectType, b.queries[i].constraints)];
      assert forall k :: k in more <==> k in QueryKeys(b.queries[i]);
      keys := WithNew(keys, more);
    }
  }

  method WithNew(keys: seq<IndexKey>, more: seq<IndexKey>) returns (all: seq<IndexKey>)
    requires Distinct(keys)
    ensures Distinct(all) && forall k :: k in all <==> k in keys || k in more
  {
    all := keys;
    for i := 0 to |more|
      invariant Distinct(all) && forall k :: k in all <==> k in keys || k in more[..i]
    {
      if more[i] !in all {
        all := all + [more[i]];
      }
    }
  }

  /** The log after numbering `log` from `last + 1`. */
  function Extended(ops: map<nat, TailOp>, last: nat, log: seq<TailOp>): map<nat, TailOp> {
    if log == [] then ops
    else Extended(ops, last, log[..|log| - 1])[last + |log| := log[|log| - 1]]
  }

  function Truncated(ops: map<nat, TailOp>, low: int): map<nat, TailOp> {
    map id | id in ops && low < id :: ops[id]
  }

  lemma TruncatedTwice(ops: map<nat, TailOp>, low: int, high: int)
    requires low <= high
    ensures Truncated(Truncated(ops, low), high) == Truncated(ops, high)
  {
  }

  lemma SubsetSize<T>(a: set<T>, b: set<T>)
    requires a <= b
    ensures |a| <= |b|
  {
    assert b == a + (b - a);
  }

  // ------------------------------------------------------------------
  // The entries a read takes from the log
  // ------------------------------------------------------------------

  /** The entries of operations `lo + 1` to `hi`. */
  function Delta(oracle: Oracle, b: Bucket, ops: map<nat, TailOp>, lo: nat, hi: nat): seq<OplogEntry>
    requires lo <= hi
  {
    if lo == hi then []
    else Delta(oracle, b, ops, lo, hi - 1) + (if hi in ops then Served(oracle, b, hi, ops[hi]) else [])
  }

  /** The entries of the selected operations among `lo + 1` to `hi`, in id order. */
  function SelectedDelta(oracle: Oracle, b: Bucket, ops: map<nat, TailOp>, ids: set<nat>, lo: nat, hi: nat): seq<OplogEntry>
    requires lo <= hi
  {
    if lo == hi then []
    else SelectedDelta(oracle, b, ops, ids, lo, hi - 1) + (if hi in ids && hi in ops then Served(oracle, b, hi, ops[hi]) else [])
  }

  /** Every operation of a range that affects the bucket is one its index names find. */
  predicate EffectsReached(oracle: Oracle, b: Bucket, ops: map<nat, TailOp>, lo: nat, hi: nat) {
    forall id | lo < id <= hi && id in ops :: TailEffect(oracle, b, ops[id]).Some? ==> OpReached(b, ops[id])
  }

  /** Appending `x` to both sides, or to the longer one only. */
  lemma AppendKeepsEqualIff<T>(a: seq<T>, b: seq<T>, x: seq<T>, selected: bool)
    requires |a| <= |b|
    ensures var a' := a + (if selected then x else []);
            |a'| <= |b + x| && (a' == b + x <==> a == b && (selected || x == []))
  {
    var a' := a + (if selected then x else []);
    if a' == b + x {
      assert a == a'[..|a|] && b == (b + x)[..|b|];
    }
  }

  /** Reading only the operations the index selects serves the same entries as
      reading them all if and only if the route values of each affecting
      operation are those of a query; otherwise it serves fewer. */
  lemma {:induction false} SelectionIsDeltaIff(oracle: Oracle, plan: Plan, b: Bucket, ops: map<nat, TailOp>, ids: set<nat>, lo: nat, hi: nat)
    requires lo <= hi && Known(plan, b)
    requires forall id | lo < id <= hi && id in ops :: (id in ids <==> Indexed(plan, BucketKeys(b), ops[id]))
    ensures |SelectedDelta(oracle, b, ops, ids, lo, hi)| <= |Delta(oracle, b, ops, lo, hi)|
    ensures SelectedDelta(oracle, b, ops, ids, lo, hi) == Delta(oracle, b, ops, lo, hi) <==> EffectsReached(oracle, b, ops, lo, hi)
  {
    if lo < hi {
      SelectionIsDeltaIff(oracle, plan, b, ops, ids, lo, hi - 1);
      assert EffectsReached(oracle, b, ops, lo, hi) <==>
             EffectsReached(oracle, b, ops, lo, hi - 1) && (hi in ops && TailEffect(oracle, b, ops[hi]).Some? ==> OpReached(b, ops[hi]));
      AppendKeepsEqualIff(SelectedDelta(oracle, b, ops, ids, lo, hi - 1), Delta(oracle, b, ops, lo, hi - 1),
                          if hi in ops then Served(oracle, b, hi, ops[hi]) else [], hi in ids && hi in ops);
      if hi in ops {
        OpIndexedIff(plan, b, ops[hi]);
      }
    }
  }

  lemma {:induction false} DeltaSplits(oracle: Oracle, b: Bucket, ops: map<nat, TailOp>, lo: nat, mid: nat, hi: nat)
    requires lo <= mid <= hi
    ensures Delta(oracle, b, ops, lo, hi) == Delta(oracle, b, ops, lo, mid) + Delta(oracle, b, ops, mid, hi)
  {
    if mid < hi {
      DeltaSplits(oracle, b, ops, lo, mid, hi - 1);
    }
  }

  lemma {:induction false} DeltaDependsOnRange(oracle: Oracle, b: Bucket, ops: map<nat, TailOp>, ops': map<nat, TailOp>, lo: nat, hi: nat)
    requires lo <= hi && forall id | lo < id <= hi :: (id in ops <==> id in ops') && (id in ops ==> ops[id] == ops'[id])
    ensures Delta(oracle, b, ops, lo, hi) == Delta(oracle, b, ops', lo, hi)
  {
    if lo < hi {
      DeltaDependsOnRange(oracle, b, ops, ops', lo, hi - 1);
    }
  }
}
