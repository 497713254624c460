/** Routing rows and buckets through a plan: which accumulator targets and route
    indexes a row is written to, which queries a requested bucket resolves to,
    and the agreement of the two. */
module Routing {
  import opened Common
  import opened SyncPlan

  /** The service's foreign functions: predicate evaluation on row JSON, JSON
      projection, membership in a JSON array, and the SHA-256 based checksums.
      Every statement holds for all of them. */
  datatype Oracle = Oracle(
    filter: (string, string) -> bool,
    project: (string, string) -> string,
    arrayContains: (string, string) -> bool,
    putSum: (string, string, string) -> U32,
    removeSum: (string, string) -> U32)

  // ------------------------------------------------------------------
  // Write side
  // ------------------------------------------------------------------

  function TemplatesOf(plan: Plan, objectType: string): seq<Template> {
    if objectType in plan.templates then plan.templates[objectType] else []
  }

  function IndexesOf(plan: Plan, objectType: string): seq<multiset<string>> {
    if objectType in plan.routeIndexes then plan.routeIndexes[objectType] else []
  }

  /** The query a template stands for on a row, if the row has all its columns. */
  function Instantiate(m: Template, routes: Routes): Option<Query> {
    if Columns(m.parameters) <= routes.Keys then
      Some(Query(m.objectType, map c | c in Columns(m.parameters) :: routes[c], m.rowFilter, m.requestFilter, m.projection))
    else None
  }

  /** The distinct queries a row is accounted under. */
  function Targets(plan: Plan, objectType: string, routes: Routes): set<Query> {
    set m | m in TemplatesOf(plan, objectType) && Instantiate(m, routes).Some? :: Instantiate(m, routes).value
  }

  method AccumulatorBucketsForRow(plan: Plan, objectType: string, routes: Routes) returns (buckets: seq<Query>)
    ensures Elements(buckets) == Targets(plan, objectType, routes)
    ensures forall i, j | 0 <= i < j < |buckets| :: buckets[i] != buckets[j]
  {
    buckets := [];
    var seen: set<Query> := {};
    var templates := TemplatesOf(plan, objectType);
    for i := 0 to |templates|
      invariant seen == Elements(buckets)
      invariant forall q :: q in seen <==> exists j | 0 <= j < i :: Instantiate(templates[j], routes) == Some(q)
      invariant forall i, j | 0 <= i < j < |buckets| :: buckets[i] != buckets[j]
    {
      var instance := Instantiate(templates[i], routes);
      if instance.Some? && instance.value !in seen {
        seen := seen + {instance.value};
        buckets := buckets + [instance.value];
      }
    }
    forall q
      ensures q in seen <==> q in Targets(plan, objectType, routes)
    {
      if q in seen {
        var j :| 0 <= j < |templates| && Instantiate(templates[j], routes) == Some(q);
        assert templates[j] in templates;
      }
    }
  }

  predicate HasColumns(columns: multiset<string>, routes: Routes) {
    forall c | c in columns :: c in routes
  }

  function Restricted(columns: multiset<string>, routes: Routes): Routes
    requires HasColumns(columns, routes)
  {
    map c | c in columns :: routes[c]
  }

  function RouteIndexEntries(indexes: seq<multiset<string>>, routes: Routes): seq<Routes> {
    if indexes == [] then [] else
      var rest := RouteIndexEntries(indexes[..|indexes| - 1], routes);
      var columns := indexes[|indexes| - 1];
      if HasColumns(columns, routes) then rest + [Restricted(columns, routes)] else rest
  }

  /** The route index keys written for a row, as constraint maps. */
  function RequiredRouteIndexes(plan: Plan, objectType: string, routes: Routes): seq<Routes> {
    RouteIndexEntries(IndexesOf(plan, objectType), routes)
  }

  lemma {:induction false} RouteIndexEntriesAre(indexes: seq<multiset<string>>, routes: Routes, r: Routes)
    ensures r in RouteIndexEntries(indexes, routes) <==>
            exists cs :: cs in indexes && HasColumns(cs, routes) && r == Restricted(cs, routes)
  {
    if indexes != [] {
      var front, last := indexes[..|indexes| - 1], indexes[|indexes| - 1];
      RouteIndexEntriesAre(front, routes, r);
      assert indexes == front + [last];
      if cs :| cs in front && HasColumns(cs, routes) && r == Restricted(cs, routes) {
        assert cs in indexes;
      }
    }
  }

  // ------------------------------------------------------------------
  // Read side
  // ------------------------------------------------------------------

  /** A row's route fields meet a constraint: equal, or a JSON array holding the value. */
  predicate RoutesMatch(oracle: Oracle, constraints: Routes, routes: Routes) {
    forall c | c in constraints :: c in routes && (routes[c] == constraints[c] || oracle.arrayContains(routes[c], constraints[c]))
  }

  /** Values by parameter name; a later parameter of the same name wins. */
  function NamedValues(ps: seq<Parameter>, values: seq<string>): map<string, string>
    requires |ps| == |values|
  {
    if ps == [] then map[]
    else NamedValues(ps[..|ps| - 1], values[..|ps| - 1])[ps[|ps| - 1].name := values[|ps| - 1]]
  }

  /** Constraints by source column; a later parameter on the same column wins. */
  function ConstraintsFor(ps: seq<Parameter>, named: map<string, string>): Routes {
    if ps == [] then map[] else
      var rest := ConstraintsFor(ps[..|ps| - 1], named);
      var p := ps[|ps| - 1];
      if p.name in named then rest[p.column := named[p.name]] else rest
  }

  function ResolveQuery(q: DataQuery, named: map<string, string>): Query {
    Query(q.outputTable, ConstraintsFor(q.parameters, named), q.rowFilter, q.requestFilter, q.projection)
  }

  function FindGroup(groups: seq<Group>, index: nat): Option<Group> {
    if groups == [] then None
    else if groups[0].index == index then Some(groups[0])
    else FindGroup(groups[1..], index)
  }

  /** Resolve the bucket of a stream's group for the given parameter values. */
  function ResolveBucketRequest(plan: Plan, stream: string, index: nat, values: seq<string>): Option<Bucket> {
    if stream !in plan.streams || stream !in plan.groups then None else
      match FindGroup(plan.groups[stream], index)
      case None => None
      case Some(group) =>
        if |values| != |group.parameters| || group.queries == [] then None else
          var named := NamedValues(group.parameters, values);
          Some(Bucket(stream,
                      seq(|group.queries|, i requires 0 <= i < |group.queries| => ResolveQuery(group.queries[i], named)),
                      plan.streams[stream].autoSubscribe && group.parameters == []))
  }

  /** The first query of a bucket that fits an object type and route fields. */
  function QueryFor(oracle: Oracle, queries: seq<Query>, objectType: string, routes: Routes): Option<Query> {
    if queries == [] then None
    else if queries[0].objectType == objectType && RoutesMatch(oracle, queries[0].constraints, routes) then Some(queries[0])
    else QueryFor(oracle, queries[1..], objectType, routes)
  }

  predicate FilterMatches(oracle: Oracle, q: Query, data: string) {
    q.rowFilter.None? || oracle.filter(q.rowFilter.value, data)
  }

  predicate MatchesRoutes(oracle: Oracle, b: Bucket, objectType: string, routes: Routes) {
    QueryFor(oracle, b.queries, objectType, routes).Some?
  }

  predicate MatchesData(oracle: Oracle, b: Bucket, objectType: string, routes: Routes, data: string) {
    var q := QueryFor(oracle, b.queries, objectType, routes);
    q.Some? && FilterMatches(oracle, q.value, data)
  }

  /** The projection of the first query over an object type (routes aside). */
  function ProjectionFor(queries: seq<Query>, objectType: string): Option<string> {
    if queries == [] then None
    else if queries[0].objectType == objectType then Some(queries[0].projection)
    else ProjectionFor(queries[1..], objectType)
  }

  /** Project a row for a bucket; a type without a query is an error. */
  function Project(oracle: Oracle, b: Bucket, objectType: string, data: string): Option<string> {
    match ProjectionFor(b.queries, objectType)
    case None => None
    case Some(projection) => Some(oracle.project(projection, data))
  }

  // ------------------------------------------------------------------
  // Agreement
  // ------------------------------------------------------------------

  /** The write side knows this query: a template with its columns, filters and
      projection, and a route index over its columns unless it has none. */
  ghost predicate Covered(plan: Plan, q: Query) {
    && (exists m :: m in TemplatesOf(plan, q.objectType) && m.objectType == q.objectType
          && Columns(m.parameters) == q.constraints.Keys && m.rowFilter == q.rowFilter
          && m.requestFilter == q.requestFilter && m.projection == q.projection)
    && (q.constraints != map[] ==>
          exists cs :: cs in IndexesOf(plan, q.objectType) && (forall c :: c in cs <==> c in q.constraints))
    && (forall t, m | m in TemplatesOf(plan, t) :: m.objectType == t)
  }

  /** Every constraint column carries exactly the required value. */
  predicate RoutesEqual(constraints: Routes, routes: Routes) {
    forall c | c in constraints :: c in routes && routes[c] == constraints[c]
  }

  /** Some query of the bucket over this type has exactly these route values. */
  predicate Reached(b: Bucket, objectType: string, routes: Routes) {
    exists q | q in b.queries :: q.objectType == objectType && RoutesEqual(q.constraints, routes)
  }

  lemma {:induction false} NamedValuesKeys(ps: seq<Parameter>, values: seq<string>)
    requires |ps| == |values|
    ensures forall n :: n in NamedValues(ps, values) <==> exists i | 0 <= i < |ps| :: ps[i].name == n
  {
    if ps != [] {
      NamedValuesKeys(ps[..|ps| - 1], values[..|ps| - 1]);
      assert ps == ps[..|ps| - 1] + [ps[|ps| - 1]];
    }
  }

  lemma {:induction false} ConstraintsCoverColumns(ps: seq<Parameter>, named: map<string, string>)
    requires forall i | 0 <= i < |ps| :: ps[i].name in named
    ensures ConstraintsFor(ps, named).Keys == Columns(ps)
  {
    if ps != [] {
      ConstraintsCoverColumns(ps[..|ps| - 1], named);
      assert ps == ps[..|ps| - 1] + [ps[|ps| - 1]];
    }
  }

  lemma {:induction false} FindGroupAt(groups: seq<Group>, index: nat)
    ensures FindGroup(groups, index).Some? ==> FindGroup(groups, index).value in groups
  {
    if groups != [] && groups[0].index != index {
      FindGroupAt(groups[1..], index);
    }
  }

  /** Every query of a resolvable bucket comes from a data query of its stream,
      with a constraint on each of that query's columns. */
  lemma ResolvedQueryOrigin(plan: Plan, stream: string, index: nat, values: seq<string>, q: Query) returns (dq: DataQuery)
    requires forall n | n in plan.streams :: n in plan.groups && Grouped(plan.groups[n], plan.streams[n].queries)
    requires var b := ResolveBucketRequest(plan, stream, index, values); b.Some? && q in b.value.queries
    ensures dq in plan.streams[stream].queries
    ensures q == Query(dq.outputTable, q.constraints, dq.rowFilter, dq.requestFilter, dq.projection)
    ensures q.constraints.Keys == Columns(dq.parameters)
  {
    var group := FindGroup(plan.groups[stream], index).value;
    FindGroupAt(plan.groups[stream], index);
    var named := NamedValues(group.parameters, values);
    var i :| 0 <= i < |group.queries| && ResolveQuery(group.queries[i], named) == q;
    dq := group.queries[i];
    GroupMembersAre(plan.streams[stream].queries, group.parameters, group.requestFilter, dq);
    ParametersAreNamed(dq.parameters, values);
    ConstraintsCoverColumns(dq.parameters, named);
  }

  lemma DeclaredQueryIsCovered(plan: Plan, ds: seq<Declared>, d: Declared, q: Query)
    requires TemplatesExact(plan.templates, ds) && IndexesExact(plan.routeIndexes, ds) && d in ds
    requires q == Query(d.query.outputTable, q.constraints, d.query.rowFilter, d.query.requestFilter, d.query.projection)
    requires q.constraints.Keys == Columns(d.query.parameters)
    ensures Covered(plan, q)
  {
    var m := TemplateOf(d);
    assert CallsForTemplate(ds, q.objectType, m);
    assert Filed(plan.templates, q.objectType, m);
    if q.constraints != map[] {
      var columns := ColumnList(d.query.parameters);
      ColumnListMembers(d.query.parameters);
      assert d.query.parameters != [];
      assert CallsForIndex(ds, q.objectType, columns);
      assert Filed(plan.routeIndexes, q.objectType, columns);
      assert columns in IndexesOf(plan, q.objectType);
      assert forall c :: c in columns <==> c in q.constraints;
    }
    forall t, n | n in TemplatesOf(plan, t)
      ensures n.objectType == t
    {
      assert Filed(plan.templates, t, n) && CallsForTemplate(ds, t, n);
    }
  }

  /** Every query of a resolvable bucket is known to the write side. */
  lemma ResolvedQueriesAreCovered(plan: Plan, streams: seq<Stream>, objectId: string -> Option<string>,
                                  stream: string, index: nat, values: seq<string>, q: Query)
    requires Lowered(plan, streams, objectId)
    requires var b := ResolveBucketRequest(plan, stream, index, values); b.Some? && q in b.value.queries
    ensures Covered(plan, q)
  {
    var dq := ResolvedQueryOrigin(plan, stream, index, values, q);
    var d := Declared(plan.streams[stream], dq);
    DeclaredQueryOfStream(streams, d);
    DeclaredQueryIsCovered(plan, DeclaredQueries(streams), d, q);
  }

  // ------------------------------------------------------------------
  // What a request resolves to
  // ------------------------------------------------------------------

  /** The last parameter with a name. */
  predicate LastNamed(ps: seq<Parameter>, name: string, i: nat) {
    i < |ps| && ps[i].name == name && forall j | i < j < |ps| :: ps[j].name != name
  }

  /** The last parameter over a source column. */
  predicate LastOver(ps: seq<Parameter>, column: string, i: nat) {
    i < |ps| && ps[i].column == column && forall j | i < j < |ps| :: ps[j].column != column
  }

  lemma {:induction false} NamedValueAt(ps: seq<Parameter>, values: seq<string>, i: nat)
    requires |ps| == |values| && i < |ps| && LastNamed(ps, ps[i].name, i)
    ensures ps[i].name in NamedValues(ps, values) && NamedValues(ps, values)[ps[i].name] == values[i]
    decreases |ps|
  {
    if i < |ps| - 1 {
      NamedValueAt(ps[..|ps| - 1], values[..|ps| - 1], i);
    }
  }

  lemma {:induction false} ConstraintAt(ps: seq<Parameter>, named: map<string, string>, j: nat)
    requires j < |ps| && LastOver(ps, ps[j].column, j) && forall i | 0 <= i < |ps| :: ps[i].name in named
    ensures ps[j].column in ConstraintsFor(ps, named) && ConstraintsFor(ps, named)[ps[j].column] == named[ps[j].name]
    decreases |ps|
  {
    if j < |ps| - 1 {
      ConstraintAt(ps[..|ps| - 1], named, j);
    }
  }

  lemma {:induction false} SomeLastNamed(ps: seq<Parameter>, name: string) returns (i: nat)
    requires exists n | 0 <= n < |ps| :: ps[n].name == name
    ensures LastNamed(ps, name, i)
  {
    i := |ps| - 1;
    if ps[i].name != name {
      i := SomeLastNamed(ps[..|ps| - 1], name);
    }
  }

  lemma {:induction false} SomeLastOver(ps: seq<Parameter>, column: string) returns (j: nat)
    requires column in Columns(ps)
    ensures LastOver(ps, column, j)
  {
    j := |ps| - 1;
    if ps[j].column != column {
      assert ps == ps[..|ps| - 1] + [ps[|ps| - 1]];
      j := SomeLastOver(ps[..|ps| - 1], column);
    }
  }

  /** The value of a constraint: that of the group parameter named by the
      query's last parameter over the column. */
  ghost predicate ValueFor(g: Group, dq: DataQuery, values: seq<string>, column: string, value: string) {
    exists j: nat, i: nat :: LastOver(dq.parameters, column, j) && LastNamed(g.parameters, dq.parameters[j].name, i)
      && i < |values| && value == values[i]
  }

  /** A query of a bucket is a data query of its group with a value for each of its columns. */
  ghost predicate ResolvedFrom(q: Query, g: Group, dq: DataQuery, values: seq<string>) {
    && q.objectType == dq.outputTable && q.rowFilter == dq.rowFilter && q.requestFilter == dq.requestFilter
    && q.projection == dq.projection && q.constraints.Keys == Columns(dq.parameters)
    && forall c | c in q.constraints :: ValueFor(g, dq, values, c, q.constraints[c])
  }

  lemma QueryResolves(g: Group, dq: DataQuery, values: seq<string>)
    requires |values| == |g.parameters| && g.parameters == Merged(dq.parameters)
    ensures ResolvedFrom(ResolveQuery(dq, NamedValues(g.parameters, values)), g, dq, values)
  {
    var named := NamedValues(g.parameters, values);
    ParametersAreNamed(dq.parameters, values);
    ConstraintsCoverColumns(dq.parameters, named);
    var constraints := ConstraintsFor(dq.parameters, named);
    forall c | c in constraints
      ensures ValueFor(g, dq, values, c, constraints[c])
    {
      var j := SomeLastOver(dq.parameters, c);
      ConstraintAt(dq.parameters, named, j);
      NamedValuesKeys(g.parameters, values);
      var i := SomeLastNamed(g.parameters, dq.parameters[j].name);
      NamedValueAt(g.parameters, values, i);
    }
  }

  lemma {:induction false} FindGroupIff(groups: seq<Group>, index: nat)
    ensures FindGroup(groups, index).Some? <==> exists g :: g in groups && g.index == index
    ensures FindGroup(groups, index).Some? ==> FindGroup(groups, index).value.index == index
  {
    if groups != [] && groups[0].index != index {
      FindGroupIff(groups[1..], index);
      assert groups == [groups[0]] + groups[1..];
    }
  }

  /** The group a request names: of this stream and index, with a parameter for each value. */
  ghost predicate Requested(plan: Plan, stream: string, index: nat, values: seq<string>, g: Group) {
    stream in plan.groups && g in plan.groups[stream] && g.index == index && |values| == |g.parameters|
  }

  /** A request resolves if and only if some group of the stream has the
      requested index and as many parameters as there are values. */
  lemma RequestResolvesIff(plan: Plan, streams: seq<Stream>, objectId: string -> Option<string>,
                           stream: string, index: nat, values: seq<string>)
    requires Lowered(plan, streams, objectId)
    ensures ResolveBucketRequest(plan, stream, index, values).Some? <==> exists g :: Requested(plan, stream, index, values, g)
  {
    if stream in plan.groups {
      var groups := plan.groups[stream];
      FindGroupIff(groups, index);
      FindGroupAt(groups, index);
      if g :| Requested(plan, stream, index, values, g) {
        OneGroupPerIndex(groups, plan.streams[stream].queries, g, FindGroup(groups, index).value);
      }
      if ResolveBucketRequest(plan, stream, index, values).Some? {
        assert Requested(plan, stream, index, values, FindGroup(groups, index).value);
      }
    }
  }

  lemma OneGroupPerIndex(groups: seq<Group>, qs: seq<DataQuery>, g: Group, h: Group)
    requires Grouped(groups, qs) && g in groups && h in groups && g.index == h.index
    ensures g == h && g.queries != []
  {
    var i :| 0 <= i < |groups| && groups[i] == g;
    var j :| 0 <= j < |groups| && groups[j] == h;
  }

  /** A request that resolves is answered from the group it names: one query for
      each data query of the group, in order, each constraint with the value
      the request gives for the parameter it is bound to. */
  lemma RequestResolvesTo(plan: Plan, streams: seq<Stream>, objectId: string -> Option<string>,
                          stream: string, index: nat, values: seq<string>, b: Bucket, g: Group)
    requires Lowered(plan, streams, objectId) && Requested(plan, stream, index, values, g)
    requires ResolveBucketRequest(plan, stream, index, values) == Some(b)
    ensures b.streamName == stream && b.isDefault == (plan.streams[stream].autoSubscribe && g.parameters == [])
    ensures |b.queries| == |g.queries| && forall n | 0 <= n < |b.queries| :: ResolvedFrom(b.queries[n], g, g.queries[n], values)
  {
    var groups := plan.groups[stream];
    FindGroupIff(groups, index);
    FindGroupAt(groups, index);
    OneGroupPerIndex(groups, plan.streams[stream].queries, g, FindGroup(groups, index).value);
    forall n | 0 <= n < |b.queries|
      ensures ResolvedFrom(b.queries[n], g, g.queries[n], values)
    {
      GroupMembersAre(plan.streams[stream].queries, g.parameters, g.requestFilter, g.queries[n]);
      QueryResolves(g, g.queries[n], values);
    }
  }

  /** A group's merged parameters name every parameter of its queries. */
  lemma ParametersAreNamed(ps: seq<Parameter>, values: seq<string>)
    requires |values| == |Merged(ps)|
    ensures forall i | 0 <= i < |ps| :: ps[i].name in NamedValues(Merged(ps), values)
  {
    NamedValuesKeys(Merged(ps), values);
    forall i | 0 <= i < |ps|
      ensures ps[i].name in NamedValues(Merged(ps), values)
    {
      MergedMentionsTheSame(ps, ps[i].name, ps[i].binding);
      assert Mentions(ps, ps[i].name, ps[i].binding);
    }
  }

  /** A row is written under a query exactly when the query's constraints hold of it. */
  lemma TargetIffRoutesEqual(plan: Plan, q: Query, objectType: string, routes: Routes)
    requires Covered(plan, q)
    ensures q in Targets(plan, objectType, routes) <==> objectType == q.objectType && RoutesEqual(q.constraints, routes)
  {
    if objectType == q.objectType && RoutesEqual(q.constraints, routes) {
      var m :| m in TemplatesOf(plan, q.objectType) && m.objectType == q.objectType
        && Columns(m.parameters) == q.constraints.Keys && m.rowFilter == q.rowFilter
        && m.requestFilter == q.requestFilter && m.projection == q.projection;
      assert (map c | c in Columns(m.parameters) :: routes[c]) == q.constraints;
      assert Instantiate(m, routes) == Some(q);
    }
  }

  lemma IndexIffRoutesEqual(plan: Plan, q: Query, routes: Routes)
    requires Covered(plan, q) && q.constraints != map[]
    ensures q.constraints in RequiredRouteIndexes(plan, q.objectType, routes) <==> RoutesEqual(q.constraints, routes)
  {
    RouteIndexEntriesAre(IndexesOf(plan, q.objectType), routes, q.constraints);
    if RoutesEqual(q.constraints, routes) {
      var cs :| cs in IndexesOf(plan, q.objectType) && (forall c :: c in cs <==> c in q.constraints);
      assert HasColumns(cs, routes) && Restricted(cs, routes) == q.constraints;
    }
  }

  /** Write and read plans agree. For a lowered plan, a resolvable bucket, one
      of its queries and any row, the row is accounted under the query, and
      indexed under its constraints, exactly when the query's constraints hold
      of the row - unless they hold only because a route value is a JSON array. */
  lemma WriteAndReadPlansAgree(plan: Plan, streams: seq<Stream>, objectId: string -> Option<string>, oracle: Oracle,
                               stream: string, index: nat, values: seq<string>, q: Query, objectType: string, routes: Routes)
    requires Lowered(plan, streams, objectId)
    requires var b := ResolveBucketRequest(plan, stream, index, values); b.Some? && q in b.value.queries
    ensures q in Targets(plan, objectType, routes) <==> objectType == q.objectType && RoutesEqual(q.constraints, routes)
    ensures q.constraints != map[] ==>
              (q.constraints in RequiredRouteIndexes(plan, q.objectType, routes) <==> RoutesEqual(q.constraints, routes))
    ensures (q in Targets(plan, objectType, routes) <==> objectType == q.objectType && RoutesMatch(oracle, q.constraints, routes))
            <==> !(objectType == q.objectType && RoutesMatch(oracle, q.constraints, routes)
                   && exists c :: c in q.constraints && c in routes && routes[c] != q.constraints[c])
  {
    ResolvedQueriesAreCovered(plan, streams, objectId, stream, index, values, q);
    TargetIffRoutesEqual(plan, q, objectType, routes);
    if q.constraints != map[] {
      IndexIffRoutesEqual(plan, q, routes);
    }
  }

  /** A row whose route value is a JSON array that holds the query's value: it
      matches the query, but is neither accounted nor indexed under it. */
  lemma ArrayRouteMatchesOnly() returns (plan: Plan, oracle: Oracle, q: Query, routes: Routes)
    ensures Covered(plan, q) && RoutesMatch(oracle, q.constraints, routes) && q.rowFilter.None?
    ensures q !in Targets(plan, q.objectType, routes) && !RoutesEqual(q.constraints, routes)
    ensures q.constraints != map[] && q.constraints !in RequiredRouteIndexes(plan, q.objectType, routes)
  {
    plan, q := OneConstraintPlan();
    oracle := Oracle((f, d) => true, (f, d) => d, (a, v) => a == "[\"o1\"]" && v == "o1", (t, i, d) => 0, (t, i) => 0);
    routes := map["org_id" := "[\"o1\"]"];
    assert "org_id" in q.constraints && |routes["org_id"]| != |q.constraints["org_id"]|;
    TargetIffRoutesEqual(plan, q, q.objectType, routes);
    IndexIffRoutesEqual(plan, q, routes);
  }

  lemma OneConstraintPlan() returns (plan: Plan, q: Query)
    ensures q == Query("tasks", map["org_id" := "o1"], None, None, "*") && Covered(plan, q)
  {
    var m := Template("s", "tasks", [Parameter("org", "org_id", "auth")], None, None, "*", false);
    var columns := multiset{"org_id"};
    plan := Plan(map[], map[], map["tasks" := [m]], map["tasks" := [columns]], map[], []);
    q := Query("tasks", map["org_id" := "o1"], None, None, "*");
    assert Columns(m.parameters) == {"org_id"};
    assert m in TemplatesOf(plan, q.objectType) && columns in IndexesOf(plan, q.objectType);
  }

  /** A plan with one query, over all rows of a type that pass a filter. */
  lemma OneQueryPlan(rowFilter: Option<string>) returns (plan: Plan, q: Query)
    ensures q == Query("t", map[], rowFilter, None, "*") && Covered(plan, q)
  {
    var m := Template("s", "t", [], rowFilter, None, "*", false);
    plan := Plan(map[], map[], map["t" := [m]], map[], map[], []);
    q := Query("t", map[], rowFilter, None, "*");
    assert m in TemplatesOf(plan, q.objectType) && Columns(m.parameters) == {};
  }
}
