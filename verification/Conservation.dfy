/** Conservation: how the advertised checkpoint of a bucket (current plus
    superseded tail, count and wrapping checksum) moves with the entries served. */
module Conservation {
  import opened Common
  import opened SyncPlan
  import opened Routing
  import opened Accounting
  import opened Serving

  predicate Compatible(c: Routes, d: Routes) {
    forall k | k in c && k in d :: c[k] == d[k]
  }

  /** Queries of one bucket over one object type are equal, or exclude each
      other's rows and project alike. */
  predicate WellShaped(b: Bucket) {
    forall i, j | 0 <= i < j < |b.queries| && b.queries[i].objectType == b.queries[j].objectType ::
      b.queries[i] == b.queries[j]
      || (b.queries[i].projection == b.queries[j].projection && !Compatible(b.queries[i].constraints, b.queries[j].constraints))
  }

  /** No route value is a JSON array that holds some other value. */
  ghost predicate ScalarRoutes(oracle: Oracle, routes: Routes) {
    forall c, v: string | c in routes && oracle.arrayContains(routes[c], v) :: routes[c] == v
  }

  ghost predicate Known(plan: Plan, b: Bucket) {
    forall q | q in b.queries :: Covered(plan, q)
  }

  predicate Fits(oracle: Oracle, q: Query, objectType: string, routes: Routes) {
    q.objectType == objectType && RoutesMatch(oracle, q.constraints, routes)
  }

  lemma {:induction false} QueryForIsFirstFit(oracle: Oracle, qs: seq<Query>, objectType: string, routes: Routes)
    ensures var q := QueryFor(oracle, qs, objectType, routes);
            (q.Some? ==> q.value in qs && Fits(oracle, q.value, objectType, routes))
            && (q.None? ==> forall p | p in qs :: !Fits(oracle, p, objectType, routes))
  {
    if qs != [] && !Fits(oracle, qs[0], objectType, routes) {
      QueryForIsFirstFit(oracle, qs[1..], objectType, routes);
      assert qs == [qs[0]] + qs[1..];
    }
  }

  lemma {:induction false} ProjectionForIsFirst(qs: seq<Query>, objectType: string)
    ensures var p := ProjectionFor(qs, objectType);
            p.Some? ==> exists i | 0 <= i < |qs| :: qs[i].objectType == objectType && qs[i].projection == p.value
  {
    if qs != [] && qs[0].objectType != objectType {
      ProjectionForIsFirst(qs[1..], objectType);
      var p := ProjectionFor(qs, objectType);
      if p.Some? {
        var i :| 0 <= i < |qs[1..]| && qs[1..][i].objectType == objectType && qs[1..][i].projection == p.value;
        assert qs[i + 1] == qs[1..][i];
      }
    }
  }

  lemma FitsIffTarget(oracle: Oracle, plan: Plan, q: Query, objectType: string, routes: Routes)
    requires Covered(plan, q) && ScalarRoutes(oracle, routes)
    ensures Fits(oracle, q, objectType, routes) <==> q in Targets(plan, objectType, routes)
  {
    TargetIffRoutesEqual(plan, q, objectType, routes);
  }

  lemma FittingQueriesAreOne(oracle: Oracle, b: Bucket, objectType: string, routes: Routes, p: Query, q: Query)
    requires WellShaped(b) && p in b.queries && q in b.queries && ScalarRoutes(oracle, routes)
    requires Fits(oracle, p, objectType, routes) && Fits(oracle, q, objectType, routes)
    ensures p == q
  {
  }

  /** A row fits at most one accumulator key of a bucket: the one it is served by. */
  lemma UniqueTarget(oracle: Oracle, plan: Plan, b: Bucket, objectType: string, routes: Routes)
    requires WellShaped(b) && Known(plan, b) && ScalarRoutes(oracle, routes)
    ensures var fit := QueryFor(oracle, b.queries, objectType, routes);
            && (fit.Some? ==> fit.value in b.queries && ProjectionFor(b.queries, objectType) == Some(fit.value.projection))
            && forall q | q in b.queries :: q in Targets(plan, objectType, routes) <==> fit == Some(q)
  {
    var fit := QueryFor(oracle, b.queries, objectType, routes);
    QueryForIsFirstFit(oracle, b.queries, objectType, routes);
    forall q | q in b.queries
      ensures q in Targets(plan, objectType, routes) <==> fit == Some(q)
    {
      FitsIffTarget(oracle, plan, q, objectType, routes);
      if Fits(oracle, q, objectType, routes) {
        FittingQueriesAreOne(oracle, b, objectType, routes, q, fit.value);
      }
    }
    if fit.Some? {
      MatchingTypeProjects(oracle, b.queries, objectType, routes);
      ProjectionForIsFirst(b.queries, objectType);
      var i :| 0 <= i < |b.queries| && b.queries[i].objectType == objectType
        && b.queries[i].projection == ProjectionFor(b.queries, objectType).value;
      var j :| 0 <= j < |b.queries| && b.queries[j] == fit.value;
      assert b.queries[i].projection == b.queries[j].projection;
    }
  }

  // ------------------------------------------------------------------
  // Bucket totals
  // ------------------------------------------------------------------

  ghost function Wraps(w: int): int {
    w * TWO_32
  }

  /** Equal up to wrap-around of the 32-bit checksum. */
  ghost predicate Congruent(a: int, b: int) {
    exists w: int :: a == b + Wraps(w)
  }

  lemma CongruentIffSameChecksum(a: int, b: int)
    ensures Congruent(a, b) <==> a % TWO_32 == b % TWO_32
  {
    if a % TWO_32 == b % TWO_32 {
      assert a == b + Wraps(a / TWO_32 - b / TWO_32);
    }
  }

  ghost function CountWeight(s: Ledger): Query -> int {
    q => Get(s.current, q).count + Get(s.tail, q).count
  }

  ghost function SumWeight(s: Ledger): Query -> int {
    q => Get(s.current, q).checksum + Get(s.tail, q).checksum
  }

  /** The advertised operation count of a bucket. */
  ghost function TotalCount(s: Ledger, b: Bucket): int {
    Sum(CountWeight(s), Elements(b.queries))
  }

  /** The advertised checksum of a bucket, before reduction to 32 bits. */
  ghost function TotalSum(s: Ledger, b: Bucket): int {
    Sum(SumWeight(s), Elements(b.queries))
  }

  /** The queries whose entry count a completed operation raises. */
  function Gaining(oracle: Oracle, plan: Plan, op: TailOp): set<Query> {
    match op
    case PutOp(d, _) => Touched(oracle, plan, d)
    case RemoveOp(_, _, _) => RemoveTargets(oracle, plan, op)
    case ClearOp(_) => {}
  }

  function EntrySum(oracle: Oracle, op: TailOp, q: Query): U32 {
    match op
    case PutOp(d, _) => PutSum(oracle, q, d)
    case RemoveOp(k, _, _) => oracle.removeSum(k.objectType, k.objectId)
    case ClearOp(_) => 0
  }

  ghost function GainCount(oracle: Oracle, plan: Plan, op: TailOp): Query -> int {
    q => if q in Gaining(oracle, plan, op) then 1 else 0
  }

  ghost function GainSum(oracle: Oracle, plan: Plan, op: TailOp): Query -> int {
    q => if q in Gaining(oracle, plan, op) then EntrySum(oracle, op, q) else 0
  }

  lemma {:induction false} SumsAreCongruent<T(!new)>(f': T -> int, f: T -> int, g: T -> int, s: set<T>)
    requires forall x | x in s :: Congruent(f'(x), f(x) + g(x))
    ensures Congruent(Sum(f', s), Sum(f, s) + Sum(g, s))
    decreases s
  {
    if s == {} {
      assert Sum(f', s) == Sum(f, s) + Sum(g, s) + Wraps(0);
    } else {
      var x :| x in s;
      SumExtract(f', s, x);
      SumExtract(f, s, x);
      SumExtract(g, s, x);
      SumsAreCongruent(f', f, g, s - {x});
      CongruentAdds(f'(x), f(x) + g(x), Sum(f', s - {x}), Sum(f, s - {x}) + Sum(g, s - {x}));
    }
  }

  lemma CongruentAdds(a: int, b: int, c: int, d: int)
    requires Congruent(a, b) && Congruent(c, d)
    ensures Congruent(a + c, b + d)
  {
    var v, w :| a == b + Wraps(v) && c == d + Wraps(w);
    assert a + c == b + d + Wraps(v + w);
  }

  lemma CongruentChain(a: int, b: int, c: int, d: int)
    requires Congruent(a, b + d) && Congruent(b, c)
    ensures Congruent(a, c + d)
  {
    var v, w :| a == b + d + Wraps(v) && b == c + Wraps(w);
    assert a == c + d + Wraps(v + w);
  }

  /** The tail moves by the superseded put entry and the remove entry. */
  lemma TailMove(oracle: Oracle, plan: Plan, tail: Accumulators, op: TailOp, q: Query)
    requires !op.ClearOp?
    ensures var a, after := Get(tail, q), Get(ApplyToTail(oracle, plan, tail, op), q);
            var supersedes := Superseded(op).Some? && q in Touched(oracle, plan, Superseded(op).value);
            var removes := op.RemoveOp? && q in RemoveTargets(oracle, plan, op);
            after == (var b := if supersedes then Plus(a, PutSum(oracle, q, Superseded(op).value)) else a;
                      if removes then Plus(b, oracle.removeSum(op.key.objectType, op.key.objectId)) else b)
  {
  }

  /** The current accumulators move by the superseded document and the new one. */
  lemma CurrentMove(oracle: Oracle, plan: Plan, current: Accumulators, op: TailOp, q: Query)
    requires !op.ClearOp?
    ensures var a, after := Get(current, q), Get(ApplyToCurrent(oracle, plan, current, op, []), q);
            var supersedes := Superseded(op).Some? && q in Touched(oracle, plan, Superseded(op).value);
            var puts := op.PutOp? && q in Touched(oracle, plan, op.doc);
            after == (var b := if supersedes then Minus(a, PutSum(oracle, q, Superseded(op).value)) else a;
                      if puts then Plus(b, PutSum(oracle, q, op.doc)) else b)
  {
  }

  lemma PlusMinus(a: Accumulator, t: Accumulator, checksum: U32)
    requires a.count >= 1
    ensures Minus(a, checksum).count + Plus(t, checksum).count == a.count + t.count
    ensures Congruent(Minus(a, checksum).checksum + Plus(t, checksum).checksum, a.checksum + t.checksum)
  {
    CongruentIffSameChecksum(Minus(a, checksum).checksum, a.checksum - checksum);
    CongruentIffSameChecksum(Plus(t, checksum).checksum, t.checksum + checksum);
    CongruentAdds(Minus(a, checksum).checksum, a.checksum - checksum, Plus(t, checksum).checksum, t.checksum + checksum);
  }

  lemma PlusOne(a: Accumulator, checksum: U32)
    ensures Plus(a, checksum).count == a.count + 1
    ensures Congruent(Plus(a, checksum).checksum, a.checksum + checksum)
  {
    CongruentIffSameChecksum(Plus(a, checksum).checksum, a.checksum + checksum);
  }

  /** Per key, current plus tail moves by exactly the operation's own entry. */
  lemma KeyMove(oracle: Oracle, plan: Plan, s: Ledger, op: TailOp, q: Query)
    requires !op.ClearOp?
    requires Superseded(op).Some? && q in Touched(oracle, plan, Superseded(op).value) ==> Get(s.current, q).count >= 1
    ensures var a, t := Get(s.current, q), Get(s.tail, q);
            var a', t' := Get(ApplyToCurrent(oracle, plan, s.current, op, []), q), Get(ApplyToTail(oracle, plan, s.tail, op), q);
            var gains := q in Gaining(oracle, plan, op);
            && a'.count + t'.count == a.count + t.count + (if gains then 1 else 0)
            && Congruent(a'.checksum + t'.checksum, a.checksum + t.checksum + (if gains then EntrySum(oracle, op, q) else 0))
  {
    var a, t := Get(s.current, q), Get(s.tail, q);
    var a', t' := Get(ApplyToCurrent(oracle, plan, s.current, op, []), q), Get(ApplyToTail(oracle, plan, s.tail, op), q);
    TailMove(oracle, plan, s.tail, op, q);
    CurrentMove(oracle, plan, s.current, op, q);
    MoveArithmetic(a, t, a', t',
      Superseded(op).Some? && q in Touched(oracle, plan, Superseded(op).value),
      if Superseded(op).Some? then PutSum(oracle, q, Superseded(op).value) else 0,
      op.PutOp? && q in Gaining(oracle, plan, op), op.RemoveOp? && q in Gaining(oracle, plan, op),
      EntrySum(oracle, op, q));
  }

  lemma MoveArithmetic(a: Accumulator, t: Accumulator, a': Accumulator, t': Accumulator,
                       supersedes: bool, old': U32, puts: bool, removes: bool, entry: U32)
    requires supersedes ==> a.count >= 1
    requires !(puts && removes)
    requires a' == (var b := if supersedes then Minus(a, old') else a; if puts then Plus(b, entry) else b)
    requires t' == (var b := if supersedes then Plus(t, old') else t; if removes then Plus(b, entry) else b)
    ensures a'.count + t'.count == a.count + t.count + (if puts || removes then 1 else 0)
    ensures Congruent(a'.checksum + t'.checksum, a.checksum + t.checksum + (if puts || removes then entry else 0))
  {
    var a1 := if supersedes then Minus(a, old') else a;
    var t1 := if supersedes then Plus(t, old') else t;
    assert a.checksum + t.checksum == a.checksum + t.checksum + Wraps(0);
    assert a1.count + t1.count == a.count + t.count && Congruent(a1.checksum + t1.checksum, a.checksum + t.checksum) by {
      if supersedes {
        PlusMinus(a, t, old');
      }
    }
    if puts {
      PlusOne(a1, entry);
      assert t1.checksum == t1.checksum + Wraps(0);
      CongruentAdds(a'.checksum, a1.checksum + entry, t1.checksum, t1.checksum);
      CongruentChain(a'.checksum + t'.checksum, a1.checksum + t1.checksum, a.checksum + t.checksum, entry);
    } else if removes {
      PlusOne(t1, entry);
      assert a1.checksum == a1.checksum + Wraps(0);
      CongruentAdds(a1.checksum, a1.checksum, t'.checksum, t1.checksum + entry);
      CongruentChain(a'.checksum + t'.checksum, a1.checksum + t1.checksum, a.checksum + t.checksum, entry);
    }
  }

  /** A put that takes a row out of the bucket. */
  predicate MovesOut(oracle: Oracle, b: Bucket, op: TailOp) {
    op.PutOp? && TailEffect(oracle, b, op) == Some(RemoveEntry)
  }

  function EntryTotal(es: seq<OplogEntry>): int {
    if es == [] then 0 else EntryTotal(es[..|es| - 1]) + es[|es| - 1].checksum
  }

  function MovedOutCount(oracle: Oracle, b: Bucket, op: TailOp): int {
    if MovesOut(oracle, b, op) then 1 else 0
  }

  function MovedOutSum(oracle: Oracle, b: Bucket, op: TailOp): int {
    if MovesOut(oracle, b, op) then oracle.removeSum(op.doc.objectType, op.doc.objectId) else 0
  }

  ghost predicate ScalarOp(oracle: Oracle, op: TailOp) {
    match op
    case PutOp(d, previous) => ScalarRoutes(oracle, d.routes) && (previous.Some? ==> ScalarRoutes(oracle, previous.value.routes))
    case RemoveOp(_, routes, _) => ScalarRoutes(oracle, routes)
    case ClearOp(_) => true
  }

  /** Over a bucket, the gain of an operation is its served entry, except that a
      put which takes a row out is served a REMOVE nobody accounted for. */
  lemma BucketGain(oracle: Oracle, plan: Plan, b: Bucket, op: TailOp, opId: nat)
    requires WellShaped(b) && Known(plan, b) && ScalarOp(oracle, op) && !op.ClearOp?
    ensures Sum(GainCount(oracle, plan, op), Elements(b.queries))
         == |Served(oracle, b, opId, op)| - MovedOutCount(oracle, b, op)
    ensures Sum(GainSum(oracle, plan, op), Elements(b.queries))
         == EntryTotal(Served(oracle, b, opId, op)) - MovedOutSum(oracle, b, op)
  {
    var objectType, routes := OpKey(op).objectType, if op.PutOp? then op.doc.routes else op.routes;
    UniqueTarget(oracle, plan, b, objectType, routes);
    var fit := QueryFor(oracle, b.queries, objectType, routes);
    GainingIsFit(oracle, plan, b, op);
    if fit.Some? && fit.value in Gaining(oracle, plan, op) {
      SumSingle(GainCount(oracle, plan, op), Elements(b.queries), fit.value);
      SumSingle(GainSum(oracle, plan, op), Elements(b.queries), fit.value);
    } else {
      SumZero(GainCount(oracle, plan, op), Elements(b.queries));
      SumZero(GainSum(oracle, plan, op), Elements(b.queries));
    }
  }

  lemma GainingIsFit(oracle: Oracle, plan: Plan, b: Bucket, op: TailOp)
    requires WellShaped(b) && Known(plan, b) && ScalarOp(oracle, op) && !op.ClearOp?
    ensures var fit := QueryFor(oracle, b.queries, OpKey(op).objectType, if op.PutOp? then op.doc.routes else op.routes);
            && (forall q | q in Elements(b.queries) && q in Gaining(oracle, plan, op) :: fit == Some(q))
            && (fit.Some? && fit.value in Gaining(oracle, plan, op) <==>
                if op.PutOp? then Holds(oracle, b, op.doc) else TailEffect(oracle, b, op).Some?)
  {
    UniqueTarget(oracle, plan, b, OpKey(op).objectType, if op.PutOp? then op.doc.routes else op.routes);
  }

  // ------------------------------------------------------------------
  // The law
  // ------------------------------------------------------------------

  /** Whatever document an operation supersedes is still counted. */
  ghost predicate Removable(oracle: Oracle, plan: Plan, current: Accumulators, op: TailOp) {
    Superseded(op).Some? ==> forall q | q in Touched(oracle, plan, Superseded(op).value) :: Get(current, q).count >= 1
  }

  lemma WeightsMove(oracle: Oracle, plan: Plan, s: Ledger, op: TailOp, q: Query)
    requires !op.ClearOp? && Removable(oracle, plan, s.current, op)
    ensures CountWeight(Applied(oracle, plan, s, op, []))(q) == CountWeight(s)(q) + GainCount(oracle, plan, op)(q)
    ensures Congruent(SumWeight(Applied(oracle, plan, s, op, []))(q), SumWeight(s)(q) + GainSum(oracle, plan, op)(q))
  {
    KeyMove(oracle, plan, s, op, q);
  }

  lemma TotalsMove(s: Ledger, s': Ledger, b: Bucket, count: Query -> int, sum: Query -> int)
    requires forall q: Query :: CountWeight(s')(q) == CountWeight(s)(q) + count(q)
    requires forall q: Query :: Congruent(SumWeight(s')(q), SumWeight(s)(q) + sum(q))
    ensures TotalCount(s', b) == TotalCount(s, b) + Sum(count, Elements(b.queries))
    ensures Congruent(TotalSum(s', b), TotalSum(s, b) + Sum(sum, Elements(b.queries)))
  {
    SumAdds(CountWeight(s), count, CountWeight(s'), Elements(b.queries));
    SumsAreCongruent(SumWeight(s'), SumWeight(s), sum, Elements(b.queries));
  }

  /** One operation moves a bucket's advertised count and checksum by its entry,
      less the unaccounted REMOVE of a put that takes a row out. */
  lemma StepConserves(oracle: Oracle, plan: Plan, b: Bucket, s: Ledger, s': Ledger, op: TailOp, opId: nat)
    requires !op.ClearOp? && Removable(oracle, plan, s.current, op)
    requires s' == Applied(oracle, plan, s, op, [])
    requires WellShaped(b) && Known(plan, b) && ScalarOp(oracle, op)
    ensures Conserved(s, s', b, |Served(oracle, b, opId, op)| - MovedOutCount(oracle, b, op),
                      EntryTotal(Served(oracle, b, opId, op)) - MovedOutSum(oracle, b, op))
  {
    var count, sum := GainCount(oracle, plan, op), GainSum(oracle, plan, op);
    forall q: Query
      ensures CountWeight(s')(q) == CountWeight(s)(q) + count(q)
      ensures Congruent(SumWeight(s')(q), SumWeight(s)(q) + sum(q))
    {
      WeightsMove(oracle, plan, s, op, q);
    }
    TotalsMove(s, s', b, count, sum);
    BucketGain(oracle, plan, b, op, opId);
  }

  /** The store after a log of completed operations. */
  function LedgerAfter(oracle: Oracle, plan: Plan, s: Ledger, log: seq<TailOp>): Ledger {
    if log == [] then s else Applied(oracle, plan, LedgerAfter(oracle, plan, s, log[..|log| - 1]), log[|log| - 1], [])
  }

  function MovedOutCounts(oracle: Oracle, b: Bucket, log: seq<TailOp>): int {
    if log == [] then 0 else MovedOutCounts(oracle, b, log[..|log| - 1]) + MovedOutCount(oracle, b, log[|log| - 1])
  }

  function MovedOutSums(oracle: Oracle, b: Bucket, log: seq<TailOp>): int {
    if log == [] then 0 else MovedOutSums(oracle, b, log[..|log| - 1]) + MovedOutSum(oracle, b, log[|log| - 1])
  }

  lemma {:induction false} EntryTotalSplits(es: seq<OplogEntry>, fs: seq<OplogEntry>)
    ensures EntryTotal(es + fs) == EntryTotal(es) + EntryTotal(fs)
  {
    if fs == [] {
      assert es + fs == es;
    } else {
      EntryTotalSplits(es, fs[..|fs| - 1]);
      assert (es + fs)[..|es + fs| - 1] == es + fs[..|fs| - 1];
    }
  }

  /** Each operation of a log is a row operation on scalar routes that supersedes a counted document, if any. */
  ghost predicate RegularLog(oracle: Oracle, plan: Plan, s: Ledger, log: seq<TailOp>) {
    log == [] ||
    var front, op := log[..|log| - 1], log[|log| - 1];
    && RegularLog(oracle, plan, s, front)
    && !op.ClearOp? && ScalarOp(oracle, op) && Removable(oracle, plan, LedgerAfter(oracle, plan, s, front).current, op)
  }

  /** How the served entries of a log extend by its last operation. */
  lemma LogTotalsExtend(oracle: Oracle, b: Bucket, first: nat, log: seq<TailOp>)
    requires log != []
    ensures var front, op := log[..|log| - 1], log[|log| - 1];
            var served := Served(oracle, b, first + |log|, op);
            && |ServedAll(oracle, b, first, log)| == |ServedAll(oracle, b, first, front)| + |served|
            && EntryTotal(ServedAll(oracle, b, first, log)) == EntryTotal(ServedAll(oracle, b, first, front)) + EntryTotal(served)
            && MovedOutCounts(oracle, b, log) == MovedOutCounts(oracle, b, front) + MovedOutCount(oracle, b, op)
            && MovedOutSums(oracle, b, log) == MovedOutSums(oracle, b, front) + MovedOutSum(oracle, b, op)
  {
    EntryTotalSplits(ServedAll(oracle, b, first, log[..|log| - 1]), Served(oracle, b, first + |log|, log[|log| - 1]));
  }

  ghost predicate Conserved(s: Ledger, s': Ledger, b: Bucket, count: int, sum: int) {
    TotalCount(s', b) == TotalCount(s, b) + count && Congruent(TotalSum(s', b), TotalSum(s, b) + sum)
  }

  lemma ConservedChains(s: Ledger, s': Ledger, s'': Ledger, b: Bucket, m: int, n: int, c: int, d: int)
    requires Conserved(s, s', b, m, c) && Conserved(s', s'', b, n, d)
    ensures Conserved(s, s'', b, m + n, c + d)
  {
    CongruentChain(TotalSum(s'', b), TotalSum(s', b), TotalSum(s, b) + c, d);
  }

  lemma ConservedOneMore(oracle: Oracle, plan: Plan, b: Bucket, s: Ledger, prior: Ledger, after: Ledger, op: TailOp, opId: nat,
                         count: int, sum: int, count': int, sum': int)
    requires Conserved(s, prior, b, count, sum) && after == Applied(oracle, plan, prior, op, [])
    requires !op.ClearOp? && Removable(oracle, plan, prior.current, op)
    requires WellShaped(b) && Known(plan, b) && ScalarOp(oracle, op)
    requires count' == count + |Served(oracle, b, opId, op)| - MovedOutCount(oracle, b, op)
    requires sum' == sum + EntryTotal(Served(oracle, b, opId, op)) - MovedOutSum(oracle, b, op)
    ensures Conserved(s, after, b, count', sum')
  {
    StepConserves(oracle, plan, b, prior, after, op, opId);
    ConservedChains(s, prior, after, b, count, count' - count, sum, sum' - sum);
  }

  /** The count and checksum the served entries of a log account for. */
  function NetCount(oracle: Oracle, b: Bucket, first: nat, log: seq<TailOp>): int {
    |ServedAll(oracle, b, first, log)| - MovedOutCounts(oracle, b, log)
  }

  function NetSum(oracle: Oracle, b: Bucket, first: nat, log: seq<TailOp>): int {
    EntryTotal(ServedAll(oracle, b, first, log)) - MovedOutSums(oracle, b, log)
  }

  lemma {:induction false} LogConserves(oracle: Oracle, plan: Plan, b: Bucket, s: Ledger, log: seq<TailOp>, first: nat)
    requires WellShaped(b) && Known(plan, b) && RegularLog(oracle, plan, s, log)
    ensures Conserved(s, LedgerAfter(oracle, plan, s, log), b, NetCount(oracle, b, first, log), NetSum(oracle, b, first, log))
  {
    if log == [] {
      assert TotalSum(s, b) == TotalSum(s, b) + Wraps(0);
    } else {
      var front, op := log[..|log| - 1], log[|log| - 1];
      LogConserves(oracle, plan, b, s, front, first);
      LogTotalsExtend(oracle, b, first, log);
      ConservedOneMore(oracle, plan, b, s, LedgerAfter(oracle, plan, s, front), LedgerAfter(oracle, plan, s, log), op, first + |log|,
        NetCount(oracle, b, first, front), NetSum(oracle, b, first, front), NetCount(oracle, b, first, log), NetSum(oracle, b, first, log));
    }
  }

  lemma DerivedIsRemovable(oracle: Oracle, plan: Plan, s: Ledger, op: SyncOp)
    requires Sound(oracle, plan, s) && HonestlyNew(s.docs, op) && !op.Clear?
    ensures Removable(oracle, plan, s.current, Materialize(s.docs, op))
  {
    var k := if op.Put? then op.doc.Key() else op.key;
    if k in s.docs {
      assert s.docs[k].Key() == k;
      RemovingKeepsExact(oracle, plan, s.docs, s.current, k);
    }
  }

  lemma {:induction false} RunStaysSound(oracle: Oracle, plan: Plan, s: Ledger, ops: seq<SyncOp>)
    requires Sound(oracle, plan, s) && RowOps(s.docs, ops)
    ensures Sound(oracle, plan, LedgerAfter(oracle, plan, s, Log(s.docs, ops)))
    ensures LedgerAfter(oracle, plan, s, Log(s.docs, ops)).docs == DocumentsAfter(s.docs, ops)
  {
    if ops != [] {
      var front, last := ops[..|ops| - 1], ops[|ops| - 1];
      RunStaysSound(oracle, plan, s, front);
      assert Log(s.docs, ops)[..|ops| - 1] == Log(s.docs, front);
      var prior, after := LedgerAfter(oracle, plan, s, Log(s.docs, front)), LedgerAfter(oracle, plan, s, Log(s.docs, ops));
      assert after == Applied(oracle, plan, prior, Materialize(prior.docs, last), []);
      assert Next(oracle, plan, prior, after, last);
      StepKeepsSound(oracle, plan, prior, after, last);
    }
  }

  ghost predicate ScalarLog(oracle: Oracle, log: seq<TailOp>) {
    forall i | 0 <= i < |log| :: ScalarOp(oracle, log[i])
  }

  lemma {:induction false} DerivedLogIsRegular(oracle: Oracle, plan: Plan, s: Ledger, ops: seq<SyncOp>)
    requires Sound(oracle, plan, s) && RowOps(s.docs, ops) && ScalarLog(oracle, Log(s.docs, ops))
    ensures RegularLog(oracle, plan, s, Log(s.docs, ops))
  {
    if ops != [] {
      var front, last := ops[..|ops| - 1], ops[|ops| - 1];
      var log, all := Log(s.docs, front), Log(s.docs, ops);
      assert all[..|ops| - 1] == log;
      assert forall i | 0 <= i < |log| :: log[i] == all[i];
      DerivedLogIsRegular(oracle, plan, s, front);
      RunStaysSound(oracle, plan, s, front);
      DerivedIsRemovable(oracle, plan, LedgerAfter(oracle, plan, s, log), last);
    }
  }

  /** Count and checksum grew by the served entries less what moved out unseen,
      and agree with the entries if and only if nothing did, or its checksums cancel out. */
  ghost predicate Tallies(s: Ledger, s': Ledger, b: Bucket, served: seq<OplogEntry>, movedCount: int, movedSum: int) {
    && TotalCount(s', b) == TotalCount(s, b) + |served| - movedCount
    && Congruent(TotalSum(s', b), TotalSum(s, b) + EntryTotal(served) - movedSum)
    && (TotalCount(s', b) == TotalCount(s, b) + |served| <==> movedCount == 0)
    && (Congruent(TotalSum(s', b), TotalSum(s, b) + EntryTotal(served)) <==> Congruent(movedSum, 0))
  }

  /** A bucket's advertised count and checksum grew by exactly the served
      entries, less one count and one remove checksum for each put that takes a
      row out. The count agrees with the entries served if and only if there is
      no such put, the checksum if and only if their remove checksums cancel out. */
  ghost predicate Accounted(oracle: Oracle, b: Bucket, s: Ledger, s': Ledger, first: nat, log: seq<TailOp>) {
    && Tallies(s, s', b, ServedAll(oracle, b, first, log), MovedOutCounts(oracle, b, log), MovedOutSums(oracle, b, log))
    && (MovedOutCounts(oracle, b, log) == 0 <==> forall i | 0 <= i < |log| :: !MovesOut(oracle, b, log[i]))
  }

  lemma ConservedIsAccounted(oracle: Oracle, b: Bucket, s: Ledger, s': Ledger, first: nat, log: seq<TailOp>)
    requires Conserved(s, s', b, NetCount(oracle, b, first, log), NetSum(oracle, b, first, log))
    ensures Accounted(oracle, b, s, s', first, log)
  {
    NoMovesOutIffZero(oracle, b, log);
    AgreesIff(s, s', b, ServedAll(oracle, b, first, log), MovedOutCounts(oracle, b, log), MovedOutSums(oracle, b, log));
  }

  /** Conservation over every run of derived operations. */
  lemma RunConserves(oracle: Oracle, plan: Plan, b: Bucket, s: Ledger, ops: seq<SyncOp>, first: nat)
    requires Sound(oracle, plan, s) && RowOps(s.docs, ops)
    requires WellShaped(b) && Known(plan, b) && ScalarLog(oracle, Log(s.docs, ops))
    ensures var log := Log(s.docs, ops);
            var s' := LedgerAfter(oracle, plan, s, log);
            s'.docs == DocumentsAfter(s.docs, ops) && Accounted(oracle, b, s, s', first, log)
  {
    var log := Log(s.docs, ops);
    RunStaysSound(oracle, plan, s, ops);
    DerivedLogIsRegular(oracle, plan, s, ops);
    LogConserves(oracle, plan, b, s, log, first);
    ConservedIsAccounted(oracle, b, s, LedgerAfter(oracle, plan, s, log), first, log);
  }

  lemma AgreesIff(s: Ledger, s': Ledger, b: Bucket, served: seq<OplogEntry>, movedCount: int, movedSum: int)
    requires Conserved(s, s', b, |served| - movedCount, EntryTotal(served) - movedSum)
    ensures Tallies(s, s', b, served, movedCount, movedSum)
  {
    CongruentCancels(TotalSum(s', b), TotalSum(s, b) + EntryTotal(served), movedSum);
  }

  lemma CongruentCancels(a: int, b: int, d: int)
    requires Congruent(a, b - d)
    ensures Congruent(a, b) <==> Congruent(d, 0)
  {
    var v :| a == b - d + Wraps(v);
    if w :| a == b + Wraps(w) {
      assert d == 0 + Wraps(v - w);
    }
    if w :| d == 0 + Wraps(w) {
      assert a == b + Wraps(v - w);
    }
  }

  /** The entries were served, but the count stands still and the checksum does not follow. */
  ghost predicate Ignored(s: Ledger, s': Ledger, b: Bucket, served: seq<OplogEntry>) {
    TotalCount(s', b) == TotalCount(s, b) && !Congruent(TotalSum(s', b), TotalSum(s, b) + EntryTotal(served))
  }

  /** A row taken out by its filter: the bucket is served a REMOVE that neither
      its count nor its checksum knows. */
  lemma MovedOutRowMiscounts() returns (oracle: Oracle, plan: Plan, b: Bucket, s: Ledger, ops: seq<SyncOp>)
    ensures Sound(oracle, plan, s) && RowOps(s.docs, ops) && WellShaped(b) && Known(plan, b) && ScalarLog(oracle, Log(s.docs, ops))
    ensures var log := Log(s.docs, ops);
            |ServedAll(oracle, b, 0, log)| == 1 && Ignored(s, LedgerAfter(oracle, plan, s, log), b, ServedAll(oracle, b, 0, log))
  {
    oracle := Oracle((f, x) => x == "in", (f, x) => x, (a, v) => false, (t, i, x) => 2, (t, i) => 1);
    var q;
    plan, q := OneQueryPlan(Some("f"));
    b := Bucket("s", [q], false);
    var before, after := Document("t", "1", map[], "in"), Document("t", "1", map[], "out");
    s := OneRowLedger(oracle, plan, before);
    ops := [Put(after, false)];
    OneMovedOut(oracle, b, s.docs, before, after, ops);
    RunConserves(oracle, plan, b, s, ops, 0);
    UnknownRemove(oracle, b, s, LedgerAfter(oracle, plan, s, Log(s.docs, ops)), Log(s.docs, ops));
  }

  lemma UnknownRemove(oracle: Oracle, b: Bucket, s: Ledger, s': Ledger, log: seq<TailOp>)
    requires Accounted(oracle, b, s, s', 0, log)
    requires |ServedAll(oracle, b, 0, log)| == MovedOutCounts(oracle, b, log) && MovedOutSums(oracle, b, log) == 1
    ensures Ignored(s, s', b, ServedAll(oracle, b, 0, log))
  {
    CongruentIffSameChecksum(1, 0);
  }

  lemma OneMovedOut(oracle: Oracle, b: Bucket, docs: Documents, before: Document, after: Document, ops: seq<SyncOp>)
    requires docs == map[before.Key() := before] && after.Key() == before.Key() && ops == [Put(after, false)]
    requires Holds(oracle, b, before) && !Holds(oracle, b, after)
    ensures RowOps(docs, ops) && Log(docs, ops) == [PutOp(after, Some(before))]
    ensures var log := Log(docs, ops);
            && |ServedAll(oracle, b, 0, log)| == 1 && MovedOutCounts(oracle, b, log) == 1
            && MovedOutSums(oracle, b, log) == oracle.removeSum(after.objectType, after.objectId)
  {
    assert ops[..0] == [] && DocumentsAfter(docs, ops[..0]) == docs && RowOps(docs, ops[..0]);
    var log := [PutOp(after, Some(before))];
    assert log[..0] == [];
  }

  lemma {:induction false} NoMovesOutIffZero(oracle: Oracle, b: Bucket, log: seq<TailOp>)
    ensures MovedOutCounts(oracle, b, log) >= 0
    ensures MovedOutCounts(oracle, b, log) == 0 <==> forall i | 0 <= i < |log| :: !MovesOut(oracle, b, log[i])
  {
    if log != [] {
      var front := log[..|log| - 1];
      NoMovesOutIffZero(oracle, b, front);
      assert forall i | 0 <= i < |front| :: front[i] == log[i];
    }
  }

  // ------------------------------------------------------------------
  // Which buckets the law holds for
  // ------------------------------------------------------------------

  /** A new document moves the bucket's accumulators by exactly its served entry. */
  ghost predicate AccountsFor(oracle: Oracle, plan: Plan, b: Bucket, d: Document) {
    var op := PutOp(d, None);
    && Sum(GainCount(oracle, plan, op), Elements(b.queries)) == |Served(oracle, b, 1, op)|
    && Congruent(Sum(GainSum(oracle, plan, op), Elements(b.queries)), EntryTotal(Served(oracle, b, 1, op)))
  }

  lemma TwoGainsMiscount(oracle: Oracle, plan: Plan, b: Bucket, d: Document, p: Query, q: Query)
    requires p in b.queries && q in b.queries && p != q
    requires p in Touched(oracle, plan, d) && q in Touched(oracle, plan, d)
    ensures !AccountsFor(oracle, plan, b, d)
  {
    var op, keys := PutOp(d, None), Elements(b.queries);
    SumExtract(GainCount(oracle, plan, op), keys, p);
    SumExtract(GainCount(oracle, plan, op), keys - {p}, q);
    SumBounds(GainCount(oracle, plan, op), keys - {p} - {q});
  }

  /** Two different queries of one type that can match the same row count it twice. */
  lemma OverlapMiscounts(plan: Plan, b: Bucket, p: Query, q: Query) returns (oracle: Oracle, d: Document)
    requires Known(plan, b) && p in b.queries && q in b.queries && p != q
    requires p.objectType == q.objectType && Compatible(p.constraints, q.constraints)
    ensures ScalarRoutes(oracle, d.routes) && !AccountsFor(oracle, plan, b, d)
  {
    oracle := Oracle((f, x) => true, (f, x) => x, (a, v) => false, (t, i, x) => 0, (t, i) => 0);
    d := Document(p.objectType, "1", p.constraints + q.constraints, "{}");
    TargetIffRoutesEqual(plan, p, d.objectType, d.routes);
    TargetIffRoutesEqual(plan, q, d.objectType, d.routes);
    TwoGainsMiscount(oracle, plan, b, d, p, q);
  }

  lemma WrongProjectionMiscounts(oracle: Oracle, plan: Plan, b: Bucket, d: Document, q: Query)
    requires q in b.queries && q in Touched(oracle, plan, d) && Holds(oracle, b, d)
    requires forall p | p in b.queries && p in Touched(oracle, plan, d) :: p == q
    requires PutSum(oracle, q, d) == 1 && PutEntryFor(oracle, b, 1, d).checksum == 0
    ensures !AccountsFor(oracle, plan, b, d)
  {
    SumSingle(GainSum(oracle, plan, PutOp(d, None)), Elements(b.queries), q);
    var served := Served(oracle, b, 1, PutOp(d, None));
    assert served == [PutEntryFor(oracle, b, 1, d)] && served[..0] == [];
    assert EntryTotal(served) == 0;
    CongruentIffSameChecksum(1, 0);
  }

  lemma FittingRowIsHeld(oracle: Oracle, b: Bucket, d: Document, q: Query)
    requires q in b.queries && Fits(oracle, q, d.objectType, d.routes)
    requires forall p | p in b.queries :: FilterMatches(oracle, p, d.data)
    ensures Holds(oracle, b, d) && ProjectionFor(b.queries, d.objectType).Some?
  {
    QueryForIsFirstFit(oracle, b.queries, d.objectType, d.routes);
    MatchingTypeProjects(oracle, b.queries, d.objectType, d.routes);
  }

  /** A query whose projection is not the first of its type is served with the wrong one. */
  lemma ProjectionMiscounts(plan: Plan, b: Bucket, q: Query) returns (oracle: Oracle, d: Document)
    requires Known(plan, b) && q in b.queries && ProjectionFor(b.queries, q.objectType) != Some(q.projection)
    ensures ScalarRoutes(oracle, d.routes) && !AccountsFor(oracle, plan, b, d)
  {
    var right := q.projection;
    oracle := Oracle((f, x) => true, (f, x) => f, (a, v) => false, (t, i, x) => if x == right then 1 else 0, (t, i) => 0);
    d := Document(q.objectType, "1", q.constraints, "{}");
    TargetIffRoutesEqual(plan, q, d.objectType, d.routes);
    if p :| p in b.queries && p != q && p in Touched(oracle, plan, d) {
      TwoGainsMiscount(oracle, plan, b, d, p, q);
    } else {
      FittingRowIsHeld(oracle, b, d, q);
      WrongProjectionMiscounts(oracle, plan, b, d, q);
    }
  }

  /** The accounting is exact for every document and every choice of filters,
      projections and checksums if and only if the bucket is well shaped. */
  lemma ShapeDecidesAccounting(plan: Plan, b: Bucket)
    requires Known(plan, b)
    ensures WellShaped(b) <==>
            forall oracle: Oracle, d: Document | ScalarRoutes(oracle, d.routes) :: AccountsFor(oracle, plan, b, d)
  {
    if WellShaped(b) {
      forall oracle: Oracle, d: Document | ScalarRoutes(oracle, d.routes)
        ensures AccountsFor(oracle, plan, b, d)
      {
        BucketGain(oracle, plan, b, PutOp(d, None), 1);
        var total := EntryTotal(Served(oracle, b, 1, PutOp(d, None)));
        assert total == total + Wraps(0);
      }
    } else {
      var i, j :| 0 <= i < j < |b.queries| && b.queries[i].objectType == b.queries[j].objectType
        && b.queries[i] != b.queries[j]
        && (b.queries[i].projection != b.queries[j].projection || Compatible(b.queries[i].constraints, b.queries[j].constraints));
      var p, q := b.queries[i], b.queries[j];
      if Compatible(p.constraints, q.constraints) {
        var oracle, d := OverlapMiscounts(plan, b, p, q);
      } else {
        var wrong := if ProjectionFor(b.queries, p.objectType) == Some(p.projection) then q else p;
        var oracle, d := ProjectionMiscounts(plan, b, wrong);
      }
    }
  }
}
