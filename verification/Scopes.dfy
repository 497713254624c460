/** Which current documents the queries of a bucket reach, and when these are
    all the documents the bucket shows. */
module Scopes {
  import opened Common
  import opened SyncPlan
  import opened Routing
  import opened Accounting
  import opened Serving
  import opened Conservation

  ghost function Scope(docs: Documents, objectType: Option<string>): set<ObjectKey> {
    set k | k in docs && Cleared(objectType, k)
  }

  /** The documents indexed under a type and constraint values. */
  ghost function RouteScope(plan: Plan, docs: Documents, t: string, c: Routes): set<ObjectKey> {
    set k | k in docs && k.objectType == t && c in RequiredRouteIndexes(plan, t, docs[k].routes)
  }

  /** The documents a query visits. */
  ghost function QueryScope(plan: Plan, docs: Documents, q: Query): set<ObjectKey> {
    if q.constraints == map[] then Scope(docs, Some(q.objectType)) else RouteScope(plan, docs, q.objectType, q.constraints)
  }

  ghost function BucketScope(plan: Plan, docs: Documents, qs: seq<Query>): set<ObjectKey> {
    if qs == [] then {} else BucketScope(plan, docs, qs[..|qs| - 1]) + QueryScope(plan, docs, qs[|qs| - 1])
  }

  /** The documents of a scope, each once. */
  ghost predicate EachOnce(found: seq<Document>, docs: Documents, scope: set<ObjectKey>) {
    && (forall i | 0 <= i < |found| :: found[i].Key() in scope && found[i].Key() in docs && docs[found[i].Key()] == found[i])
    && (forall i, j | 0 <= i < j < |found| :: found[i].Key() != found[j].Key())
    && (forall k | k in scope :: k in docs && docs[k] in found)
  }

  /** Route index exactness: for the constraints of a query the plan knows, the
      indexed documents are exactly those with these route values. */
  lemma RouteIndexIsExact(plan: Plan, docs: Documents, q: Query, k: ObjectKey)
    requires Covered(plan, q) && q.constraints != map[] && k in docs
    ensures k in RouteScope(plan, docs, q.objectType, q.constraints) <==>
            k.objectType == q.objectType && RoutesEqual(q.constraints, docs[k].routes)
  {
    IndexIffRoutesEqual(plan, q, docs[k].routes);
  }

  lemma InQueryScopeIff(plan: Plan, docs: Documents, q: Query, k: ObjectKey)
    requires Covered(plan, q) && k in docs
    ensures k in QueryScope(plan, docs, q) <==> k.objectType == q.objectType && RoutesEqual(q.constraints, docs[k].routes)
  {
    if q.constraints != map[] {
      RouteIndexIsExact(plan, docs, q, k);
    }
  }

  lemma {:induction false} InScopeOfSome(plan: Plan, docs: Documents, qs: seq<Query>, k: ObjectKey)
    ensures k in BucketScope(plan, docs, qs) <==> exists i | 0 <= i < |qs| :: k in QueryScope(plan, docs, qs[i])
  {
    if qs != [] {
      var n := |qs| - 1;
      InScopeOfSome(plan, docs, qs[..n], k);
      if i :| 0 <= i < n && k in QueryScope(plan, docs, qs[..n][i]) {
        assert k in QueryScope(plan, docs, qs[i]);
      }
      if i :| 0 <= i < n && k in QueryScope(plan, docs, qs[i]) {
        assert qs[..n][i] == qs[i];
      }
    }
  }

  lemma {:induction false} BucketScopeIsKnown(plan: Plan, docs: Documents, qs: seq<Query>)
    ensures BucketScope(plan, docs, qs) <= docs.Keys
  {
    if qs != [] {
      BucketScopeIsKnown(plan, docs, qs[..|qs| - 1]);
    }
  }

  lemma {:induction false} ListScope(docs: Documents, scope: set<ObjectKey>) returns (ds: seq<Document>)
    requires Keyed(docs) && scope <= docs.Keys
    ensures EachOnce(ds, docs, scope)
    decreases scope
  {
    ds := [];
    if scope != {} {
      var k :| k in scope;
      var rest := ListScope(docs, scope - {k});
      ds := rest + [docs[k]];
      assert forall j | j in scope - {k} :: docs[j] in rest;
    }
  }

  /** A bucket's reads reach exactly the documents whose route values equal the
      constraints of one of its queries over their type. */
  lemma InScopeIff(plan: Plan, docs: Documents, b: Bucket, k: ObjectKey)
    requires Known(plan, b) && k in docs
    ensures k in BucketScope(plan, docs, b.queries) <==> Reached(b, k.objectType, docs[k].routes)
  {
    InScopeOfSome(plan, docs, b.queries, k);
    if i :| 0 <= i < |b.queries| && k in QueryScope(plan, docs, b.queries[i]) {
      InQueryScopeIff(plan, docs, b.queries[i], k);
    }
    if q :| q in b.queries && q.objectType == k.objectType && RoutesEqual(q.constraints, docs[k].routes) {
      var i :| 0 <= i < |b.queries| && b.queries[i] == q;
      InQueryScopeIff(plan, docs, q, k);
    }
  }

  /** Every document the bucket shows, once each, perhaps with others of its types. */
  ghost predicate Gathers(oracle: Oracle, b: Bucket, docs: Documents, ds: seq<Document>) {
    && (forall i | 0 <= i < |ds| :: ds[i].Key() in docs && docs[ds[i].Key()] == ds[i])
    && (forall i, j | 0 <= i < j < |ds| :: ds[i].Key() != ds[j].Key())
    && (forall k | k in docs && Holds(oracle, b, docs[k]) :: docs[k] in ds)
  }

  /** Every document the bucket holds is one its reads reach. */
  ghost predicate AllReached(oracle: Oracle, b: Bucket, docs: Documents) {
    forall k | k in docs && Holds(oracle, b, docs[k]) :: Reached(b, k.objectType, docs[k].routes)
  }

  /** The documents a read of the bucket collects include every document it
      shows if and only if each of these has the route values of a query. */
  lemma CollectionGathersIff(oracle: Oracle, plan: Plan, b: Bucket, docs: Documents, ds: seq<Document>)
    requires Known(plan, b) && Keyed(docs) && EachOnce(ds, docs, BucketScope(plan, docs, b.queries))
    ensures Gathers(oracle, b, docs, ds) <==> AllReached(oracle, b, docs)
  {
    forall k | k in docs
      ensures docs[k] in ds <==> Reached(b, k.objectType, docs[k].routes)
    {
      InScopeIff(plan, docs, b, k);
      assert docs[k].Key() == k;
    }
  }

  lemma ScalarRowIsReached(oracle: Oracle, b: Bucket, objectType: string, routes: Routes)
    requires ScalarRoutes(oracle, routes) && MatchesRoutes(oracle, b, objectType, routes)
    ensures Reached(b, objectType, routes)
  {
    QueryForIsFirstFit(oracle, b.queries, objectType, routes);
    var q := QueryFor(oracle, b.queries, objectType, routes).value;
    assert q in b.queries && RoutesEqual(q.constraints, routes);
  }
}
