/** Sync-rule plans: lowering a canonical plan into the tables the ingest loop
    routes rows with (write side), and resolving a requested bucket into the
    queries the server evaluates (read side).

    A resolved query's checkpoint accumulator key is the JSON text of exactly
    its object type, route constraints, filters and projection, so a query is
    its own key here. Filters, projections and bindings are opaque texts. */
module SyncPlan {
  import opened Common

  /** Column to value: the route fields of a row or the constraints of a query. */
  type Routes = map<string, string>

  datatype Parameter = Parameter(name: string, column: string, binding: string)

  datatype DataQuery = DataQuery(
    sourceTable: string, outputTable: string, parameters: seq<Parameter>,
    rowFilter: Option<string>, requestFilter: Option<string>, projection: string)

  datatype Stream = Stream(name: string, autoSubscribe: bool, queries: seq<DataQuery>)

  datatype Group = Group(
    index: nat, parameters: seq<Parameter>, requestFilter: Option<string>, queries: seq<DataQuery>)

  /** A query template of the write side, instantiated by a row's route fields. */
  datatype Template = Template(
    streamName: string, objectType: string, parameters: seq<Parameter>,
    rowFilter: Option<string>, requestFilter: Option<string>, projection: string, isDefault: bool)

  datatype TablePlan = TablePlan(
    sourceTable: string, objectType: string, routeColumns: set<string>, objectId: Option<string>)

  /** A resolved query, which is also its checkpoint accumulator key. */
  datatype Query = Query(
    objectType: string, constraints: Routes,
    rowFilter: Option<string>, requestFilter: Option<string>, projection: string)

  datatype Bucket = Bucket(streamName: string, queries: seq<Query>, isDefault: bool)

  /** A sorted column list is given by its multiset. */
  datatype Plan = Plan(
    streams: map<string, Stream>,
    groups: map<string, seq<Group>>,
    templates: map<string, seq<Template>>,
    routeIndexes: map<string, seq<multiset<string>>>,
    tables: map<string, TablePlan>,
    defaultStreams: seq<string>)

  function Columns(ps: seq<Parameter>): set<string> {
    set p | p in ps :: p.column
  }

  function ColumnList(ps: seq<Parameter>): multiset<string> {
    multiset(seq(|ps|, i requires 0 <= i < |ps| => ps[i].column))
  }

  lemma ColumnListMembers(ps: seq<Parameter>)
    ensures forall c :: c in ColumnList(ps) <==> c in Columns(ps)
    ensures ColumnList(ps) == multiset{} <==> ps == []
  {
    var cs := seq(|ps|, i requires 0 <= i < |ps| => ps[i].column);
    forall c
      ensures c in ColumnList(ps) <==> c in Columns(ps)
    {
      if c in Columns(ps) {
        var p :| p in ps && p.column == c;
        var i :| 0 <= i < |ps| && ps[i] == p;
        assert cs[i] == c;
      }
      if c in ColumnList(ps) {
        var i :| 0 <= i < |cs| && cs[i] == c;
        assert ps[i] in ps;
      }
    }
    if ps != [] {
      assert cs[0] in cs;
    }
  }

  // ------------------------------------------------------------------
  // Bucket groups
  // ------------------------------------------------------------------

  /** Some parameter of the list has this name and binding. */
  predicate Mentions(ps: seq<Parameter>, name: string, binding: string) {
    exists i | 0 <= i < |ps| :: ps[i].name == name && ps[i].binding == binding
  }

  /** The distinct (name, binding) pairs of a parameter list, first occurrences
      in order, with the source column renamed to the parameter name. */
  function Merged(ps: seq<Parameter>): seq<Parameter> {
    if ps == [] then [] else
      var rest := Merged(ps[..|ps| - 1]);
      var p := ps[|ps| - 1];
      if Mentions(rest, p.name, p.binding) then rest
      else rest + [Parameter(p.name, p.name, p.binding)]
  }

  /** Merging loses no parameter and adds none. */
  lemma {:induction false} MergedMentionsTheSame(ps: seq<Parameter>, name: string, binding: string)
    ensures Mentions(Merged(ps), name, binding) <==> Mentions(ps, name, binding)
  {
    if ps != [] {
      var front, p := ps[..|ps| - 1], ps[|ps| - 1];
      MergedMentionsTheSame(front, name, binding);
      assert ps == front + [p];
      if Mentions(front, name, binding) {
        var i :| 0 <= i < |front| && front[i].name == name && front[i].binding == binding;
        assert ps[i] == front[i];
      }
      var rest := Merged(front);
      if !Mentions(rest, p.name, p.binding) {
        var all := rest + [Parameter(p.name, p.name, p.binding)];
        if Mentions(rest, name, binding) {
          var i :| 0 <= i < |rest| && rest[i].name == name && rest[i].binding == binding;
          assert all[i] == rest[i];
        }
        assert all[|rest|].name == p.name;
      }
    }
  }

  /** Merging keeps no (name, binding) pair twice. */
  lemma {:induction false} MergedKeepsNoPairTwice(ps: seq<Parameter>)
    ensures forall m | m in Merged(ps) :: m.column == m.name
    ensures forall i, j | 0 <= i < j < |Merged(ps)| ::
              Merged(ps)[i].name != Merged(ps)[j].name || Merged(ps)[i].binding != Merged(ps)[j].binding
  {
    if ps != [] {
      MergedKeepsNoPairTwice(ps[..|ps| - 1]);
    }
  }

  method MergeBucketParameters(ps: seq<Parameter>) returns (merged: seq<Parameter>)
    ensures merged == Merged(ps)
  {
    merged := [];
    for i := 0 to |ps|
      invariant merged == Merged(ps[..i])
    {
      assert ps[..i + 1][..|ps[..i + 1]| - 1] == ps[..i];
      var p := ps[i];
      if !Mentions(merged, p.name, p.binding) {
        merged := merged + [Parameter(p.name, p.name, p.binding)];
      }
    }
    assert ps[..|ps|] == ps;
  }

  predicate InGroup(q: DataQuery, parameters: seq<Parameter>, requestFilter: Option<string>) {
    Merged(q.parameters) == parameters && q.requestFilter == requestFilter
  }

  /** The queries, in order, that belong to the group with this signature. */
  function GroupMembers(qs: seq<DataQuery>, parameters: seq<Parameter>, requestFilter: Option<string>): seq<DataQuery> {
    if qs == [] then [] else
      var rest := GroupMembers(qs[..|qs| - 1], parameters, requestFilter);
      var q := qs[|qs| - 1];
      if InGroup(q, parameters, requestFilter) then rest + [q] else rest
  }

  predicate HasGroup(q: DataQuery, groups: seq<Group>) {
    exists g | 0 <= g < |groups| :: InGroup(q, groups[g].parameters, groups[g].requestFilter)
  }

  /** The groups partition the queries by signature, keeping their order. */
  ghost predicate Grouped(groups: seq<Group>, qs: seq<DataQuery>) {
    && (forall g | 0 <= g < |groups| ::
          && groups[g].index == g
          && groups[g].queries != []
          && groups[g].queries == GroupMembers(qs, groups[g].parameters, groups[g].requestFilter))
    && (forall g, h | 0 <= g < h < |groups| ::
          groups[g].parameters != groups[h].parameters || groups[g].requestFilter != groups[h].requestFilter)
    && (forall i | 0 <= i < |qs| :: HasGroup(qs[i], groups))
  }

  lemma JoinGroup(groups: seq<Group>, qs: seq<DataQuery>, q: DataQuery, g: nat)
    requires Grouped(groups, qs) && g < |groups|
    requires InGroup(q, groups[g].parameters, groups[g].requestFilter)
    ensures Grouped(groups[g := groups[g].(queries := groups[g].queries + [q])], qs + [q])
  {
    var after := groups[g := groups[g].(queries := groups[g].queries + [q])];
    assert (qs + [q])[..|qs|] == qs;
    assert forall h | 0 <= h < |groups| :: after[h].parameters == groups[h].parameters && after[h].requestFilter == groups[h].requestFilter;
    forall i | 0 <= i < |qs + [q]|
      ensures HasGroup((qs + [q])[i], after)
    {
      if i < |qs| {
        assert HasGroup(qs[i], groups);
        var h :| 0 <= h < |groups| && InGroup(qs[i], groups[h].parameters, groups[h].requestFilter);
        assert InGroup(qs[i], after[h].parameters, after[h].requestFilter);
      } else {
        assert InGroup(q, after[g].parameters, after[g].requestFilter);
      }
    }
  }

  lemma OpenGroup(groups: seq<Group>, qs: seq<DataQuery>, q: DataQuery)
    requires Grouped(groups, qs) && !HasGroup(q, groups)
    ensures Grouped(groups + [Group(|groups|, Merged(q.parameters), q.requestFilter, [q])], qs + [q])
  {
    var after := groups + [Group(|groups|, Merged(q.parameters), q.requestFilter, [q])];
    assert (qs + [q])[..|qs|] == qs;
    NoMembers(qs, Merged(q.parameters), q.requestFilter, groups);
    assert forall h | 0 <= h < |groups| :: after[h] == groups[h];
    forall i | 0 <= i < |qs + [q]|
      ensures HasGroup((qs + [q])[i], after)
    {
      if i < |qs| {
        assert HasGroup(qs[i], groups);
        var h :| 0 <= h < |groups| && InGroup(qs[i], groups[h].parameters, groups[h].requestFilter);
        assert InGroup(qs[i], after[h].parameters, after[h].requestFilter);
      } else {
        assert InGroup(q, after[|groups|].parameters, after[|groups|].requestFilter);
      }
    }
  }

  method StreamBucketGroups(qs: seq<DataQuery>) returns (groups: seq<Group>)
    ensures Grouped(groups, qs)
  {
    groups := [];
    for i := 0 to |qs|
      invariant Grouped(groups, qs[..i])
    {
      var q := qs[i];
      var parameters := MergeBucketParameters(q.parameters);
      var g := 0;
      while g < |groups| && !(groups[g].parameters == parameters && groups[g].requestFilter == q.requestFilter)
        invariant 0 <= g <= |groups|
        invariant forall h | 0 <= h < g :: !InGroup(q, groups[h].parameters, groups[h].requestFilter)
      {
        g := g + 1;
      }
      assert qs[..i + 1] == qs[..i] + [q];
      if g < |groups| {
        JoinGroup(groups, qs[..i], q, g);
        groups := groups[g := groups[g].(queries := groups[g].queries + [q])];
      } else {
        OpenGroup(groups, qs[..i], q);
        groups := groups + [Group(|groups|, parameters, q.requestFilter, [q])];
      }
    }
    assert qs[..|qs|] == qs;
  }

  lemma {:induction false} NoMembers(qs: seq<DataQuery>, parameters: seq<Parameter>, requestFilter: Option<string>, groups: seq<Group>)
    requires forall i | 0 <= i < |qs| :: HasGroup(qs[i], groups)
    requires forall g | 0 <= g < |groups| :: groups[g].parameters != parameters || groups[g].requestFilter != requestFilter
    ensures GroupMembers(qs, parameters, requestFilter) == []
  {
    if qs != [] {
      NoMembers(qs[..|qs| - 1], parameters, requestFilter, groups);
      assert HasGroup(qs[|qs| - 1], groups);
    }
  }

  lemma {:induction false} GroupMembersAre(qs: seq<DataQuery>, parameters: seq<Parameter>, requestFilter: Option<string>, q: DataQuery)
    ensures q in GroupMembers(qs, parameters, requestFilter) <==> q in qs && InGroup(q, parameters, requestFilter)
  {
    if qs != [] {
      GroupMembersAre(qs[..|qs| - 1], parameters, requestFilter, q);
      assert qs == qs[..|qs| - 1] + [qs[|qs| - 1]];
    }
  }

  // ------------------------------------------------------------------
  // Lowering
  // ------------------------------------------------------------------

  /** One data query together with the stream that declares it. */
  datatype Declared = Declared(stream: Stream, query: DataQuery)

  function DeclaredBy(s: Stream): seq<Declared> {
    seq(|s.queries|, i requires 0 <= i < |s.queries| => Declared(s, s.queries[i]))
  }

  /** Every data query of a plan, in declaration order. */
  function DeclaredQueries(streams: seq<Stream>): seq<Declared> {
    if streams == [] then []
    else DeclaredQueries(streams[..|streams| - 1]) + DeclaredBy(streams[|streams| - 1])
  }

  /** The template of a declared query: its fields, and whether it is a default subscription. */
  ghost function TemplateOf(d: Declared): Template {
    Template(d.stream.name, d.query.outputTable, d.query.parameters, d.query.rowFilter,
             d.query.requestFilter, d.query.projection, d.stream.autoSubscribe && d.query.parameters == [])
  }

  /** `x` is filed under `key` in a table of lists. */
  predicate Filed<T(==)>(table: map<string, seq<T>>, key: string, x: T) {
    key in table && x in table[key]
  }

  ghost predicate CallsForTemplate(ds: seq<Declared>, t: string, m: Template) {
    exists d :: d in ds && d.query.outputTable == t && m == TemplateOf(d)
  }

  ghost predicate CallsForIndex(ds: seq<Declared>, t: string, columns: multiset<string>) {
    exists d :: d in ds && d.query.outputTable == t && d.query.parameters != [] && columns == ColumnList(d.query.parameters)
  }

  ghost predicate CallsForColumn(ds: seq<Declared>, sourceTable: string, column: string) {
    exists d :: d in ds && d.query.sourceTable == sourceTable && column in Columns(d.query.parameters)
  }

  ghost predicate TemplatesExact(templates: map<string, seq<Template>>, ds: seq<Declared>) {
    forall t: string, m: Template :: Filed(templates, t, m) <==> CallsForTemplate(ds, t, m)
  }

  ghost predicate IndexesExact(indexes: map<string, seq<multiset<string>>>, ds: seq<Declared>) {
    forall t: string, columns: multiset<string> :: Filed(indexes, t, columns) <==> CallsForIndex(ds, t, columns)
  }

  ghost predicate TablesExact(tables: map<string, TablePlan>, ds: seq<Declared>, objectId: string -> Option<string>) {
    && (forall d | d in ds ::
          && d.query.sourceTable in tables
          && tables[d.query.sourceTable].objectType == d.query.outputTable
          && tables[d.query.sourceTable].objectId == objectId(d.query.projection))
    && (forall t | t in tables ::
          && tables[t].sourceTable == t
          && (exists d :: d in ds && d.query.sourceTable == t)
          && (forall c :: c in tables[t].routeColumns <==> CallsForColumn(ds, t, c)))
  }

  /** The streams a client gets without asking, in declaration order. */
  function DefaultNames(streams: seq<Stream>): seq<string> {
    if streams == [] then []
    else DefaultNames(streams[..|streams| - 1]) + (if streams[|streams| - 1].autoSubscribe then [streams[|streams| - 1].name] else [])
  }

  /** Every stream is filed under its name with its bucket groups, and nothing else is. */
  ghost predicate StreamsExact(plan: Plan, streams: seq<Stream>) {
    && plan.groups.Keys == plan.streams.Keys
    && (forall s | s in streams :: s.name in plan.streams && plan.streams[s.name] == s)
    && (forall n | n in plan.streams ::
          plan.streams[n] in streams && plan.streams[n].name == n && Grouped(plan.groups[n], plan.streams[n].queries))
  }

  ghost predicate RoutingExact(plan: Plan, ds: seq<Declared>, objectId: string -> Option<string>) {
    TemplatesExact(plan.templates, ds) && IndexesExact(plan.routeIndexes, ds) && TablesExact(plan.tables, ds, objectId)
  }

  ghost predicate Lowered(plan: Plan, streams: seq<Stream>, objectId: string -> Option<string>) {
    && StreamsExact(plan, streams) && plan.defaultStreams == DefaultNames(streams)
    && RoutingExact(plan, DeclaredQueries(streams), objectId)
  }

  ghost predicate DistinctStreams(streams: seq<Stream>) {
    forall i, j | 0 <= i < j < |streams| :: streams[i].name != streams[j].name
  }

  /** Queries over one source table agree on its object type and object id. */
  ghost predicate ConsistentTables(ds: seq<Declared>, objectId: string -> Option<string>) {
    forall d, e | d in ds && e in ds && d.query.sourceTable == e.query.sourceTable ::
      d.query.outputTable == e.query.outputTable && objectId(d.query.projection) == objectId(e.query.projection)
  }

  lemma {:induction false} DeclaredQueriesContain(streams: seq<Stream>, i: nat)
    requires i < |streams|
    ensures forall d | d in DeclaredQueries(streams[..i]) :: d in DeclaredQueries(streams)
    ensures forall d | d in DeclaredBy(streams[i]) :: d in DeclaredQueries(streams)
    decreases |streams| - i
  {
    if i + 1 == |streams| {
      assert streams[..i] == streams[..|streams| - 1];
    } else {
      DeclaredQueriesContain(streams, i + 1);
      assert streams[..i + 1][..i] == streams[..i];
      assert DeclaredQueries(streams[..i + 1]) == DeclaredQueries(streams[..i]) + DeclaredBy(streams[i]);
    }
  }

  lemma {:induction false} DeclaredQueryOfStream(streams: seq<Stream>, d: Declared)
    ensures d in DeclaredQueries(streams) <==> d.stream in streams && d.query in d.stream.queries
  {
    if streams != [] {
      var front, last := streams[..|streams| - 1], streams[|streams| - 1];
      DeclaredQueryOfStream(front, d);
      assert streams == front + [last];
      if d.stream == last && d.query in last.queries {
        var i :| 0 <= i < |last.queries| && last.queries[i] == d.query;
        assert DeclaredBy(last)[i] == d;
      }
    }
  }

  method AddTemplate(templates: map<string, seq<Template>>, ghost ds: seq<Declared>, d: Declared)
    returns (after: map<string, seq<Template>>)
    requires TemplatesExact(templates, ds)
    ensures TemplatesExact(after, ds + [d])
  {
    var t := d.query.outputTable;
    var filed := if t in templates then templates[t] else [];
    var isDefault := d.stream.autoSubscribe && |d.query.parameters| == 0;
    var template := Template(d.stream.name, t, d.query.parameters, d.query.rowFilter, d.query.requestFilter, d.query.projection, isDefault);
    after := templates[t := filed + [template]];
    forall u: string, m: Template
      ensures Filed(after, u, m) <==> CallsForTemplate(ds + [d], u, m)
    {
      assert Filed(templates, u, m) <==> CallsForTemplate(ds, u, m);
      assert Filed(after, u, m) <==> Filed(templates, u, m) || (u == t && m == TemplateOf(d));
      assert CallsForTemplate(ds + [d], u, m) <==> CallsForTemplate(ds, u, m) || (u == t && m == TemplateOf(d)) by {
        assert d in ds + [d];
        assert forall e | e in ds :: e in ds + [d];
      }
    }
  }

  method AddRouteIndex(indexes: map<string, seq<multiset<string>>>, ghost ds: seq<Declared>, d: Declared)
    returns (after: map<string, seq<multiset<string>>>)
    requires IndexesExact(indexes, ds)
    ensures IndexesExact(after, ds + [d])
  {
    var t, columns := d.query.outputTable, ColumnList(d.query.parameters);
    var filed := if t in indexes then indexes[t] else [];
    ColumnListMembers(d.query.parameters);
    after := if columns != multiset{} && columns !in filed then indexes[t := filed + [columns]] else indexes;
    forall u: string, cs: multiset<string>
      ensures Filed(after, u, cs) <==> CallsForIndex(ds + [d], u, cs)
    {
      var called := u == t && columns != multiset{} && cs == columns;
      assert Filed(indexes, u, cs) <==> CallsForIndex(ds, u, cs);
      assert Filed(after, u, cs) <==> Filed(indexes, u, cs) || called;
      assert CallsForIndex(ds + [d], u, cs) <==> CallsForIndex(ds, u, cs) || called by {
        assert d in ds + [d];
        assert forall e | e in ds :: e in ds + [d];
      }
    }
  }

  method AddTable(tables: map<string, TablePlan>, ghost ds: seq<Declared>, d: Declared, objectId: string -> Option<string>)
    returns (after: Option<map<string, TablePlan>>)
    requires TablesExact(tables, ds, objectId)
    ensures after.Some? ==> TablesExact(after.value, ds + [d], objectId)
    ensures after.None? ==> !ConsistentTables(ds + [d], objectId)
  {
    var t, columns, id := d.query.sourceTable, Columns(d.query.parameters), objectId(d.query.projection);
    assert d in ds + [d] && forall e | e in ds :: e in ds + [d];
    if t in tables {
      var existing := tables[t];
      if existing.objectType != d.query.outputTable || existing.objectId != id {
        ghost var e :| e in ds && e.query.sourceTable == t;
        assert e in ds + [d];
        return None;
      }
      after := Some(tables[t := existing.(routeColumns := existing.routeColumns + columns)]);
    } else {
      after := Some(tables[t := TablePlan(t, d.query.outputTable, columns, id)]);
    }
    forall u | u in after.value
      ensures exists e :: e in ds + [d] && e.query.sourceTable == u
      ensures forall c :: c in after.value[u].routeColumns <==> CallsForColumn(ds + [d], u, c)
    {
      if u in tables {
        ghost var e :| e in ds && e.query.sourceTable == u;
        assert e in ds + [d];
      }
      forall c
        ensures c in after.value[u].routeColumns <==> CallsForColumn(ds + [d], u, c)
      {
        assert u !in tables ==> !CallsForColumn(ds, u, c);
        assert CallsForColumn(ds + [d], u, c) <==> CallsForColumn(ds, u, c) || (u == t && c in columns);
      }
    }
  }

  method LowerQueries(plan: Plan, s: Stream, ghost prior: seq<Declared>, objectId: string -> Option<string>)
    returns (after: Option<Plan>)
    requires RoutingExact(plan, prior, objectId)
    ensures after.Some? ==> after.value.streams == plan.streams && after.value.groups == plan.groups
    ensures after.Some? ==> after.value.defaultStreams == plan.defaultStreams
    ensures after.Some? ==> RoutingExact(after.value, prior + DeclaredBy(s), objectId)
    ensures after.None? ==> !ConsistentTables(prior + DeclaredBy(s), objectId)
  {
    var p := plan;
    assert prior + DeclaredBy(s)[..0] == prior;
    for j := 0 to |s.queries|
      invariant p.streams == plan.streams && p.groups == plan.groups && p.defaultStreams == plan.defaultStreams
      invariant RoutingExact(p, prior + DeclaredBy(s)[..j], objectId)
    {
      var d := Declared(s, s.queries[j]);
      ghost var done := prior + DeclaredBy(s)[..j];
      assert done + [d] == prior + DeclaredBy(s)[..j + 1];
      var templates := AddTemplate(p.templates, done, d);
      var indexes := AddRouteIndex(p.routeIndexes, done, d);
      var tables := AddTable(p.tables, done, d, objectId);
      if tables.None? {
        assert forall e | e in done + [d] :: e in prior + DeclaredBy(s);
        return None;
      }
      p := p.(templates := templates, routeIndexes := indexes, tables := tables.value);
    }
    assert DeclaredBy(s)[..|s.queries|] == DeclaredBy(s);
    after := Some(p);
  }

  method FileStream(plan: Plan, ghost streams: seq<Stream>, s: Stream) returns (after: Option<Plan>)
    requires StreamsExact(plan, streams) && DistinctStreams(streams)
    ensures after.Some? <==> DistinctStreams(streams + [s])
    ensures after.Some? ==> StreamsExact(after.value, streams + [s])
    ensures after.Some? ==> after.value.defaultStreams == plan.defaultStreams + (if s.autoSubscribe then [s.name] else [])
    ensures after.Some? ==> after.value.templates == plan.templates
    ensures after.Some? ==> after.value.routeIndexes == plan.routeIndexes && after.value.tables == plan.tables
  {
    if s.name in plan.streams {
      assert plan.streams[s.name] in streams;
      ghost var j :| 0 <= j < |streams| && streams[j] == plan.streams[s.name];
      assert (streams + [s])[j].name == (streams + [s])[|streams|].name;
      return None;
    }
    assert forall j | 0 <= j < |streams| :: streams[j] in streams;
    var groups := StreamBucketGroups(s.queries);
    after := Some(plan.(streams := plan.streams[s.name := s],
                        defaultStreams := plan.defaultStreams + (if s.autoSubscribe then [s.name] else []),
                        groups := plan.groups[s.name := groups]));
  }

  method LowerStream(plan: Plan, ghost streams: seq<Stream>, s: Stream, objectId: string -> Option<string>)
    returns (r: Result<Plan, string>)
    requires DistinctStreams(streams) && Lowered(plan, streams, objectId)
    ensures r.Ok? ==> DistinctStreams(streams + [s]) && Lowered(r.value, streams + [s], objectId)
    ensures r.Err? ==> !DistinctStreams(streams + [s]) || !ConsistentTables(DeclaredQueries(streams + [s]), objectId)
  {
    assert (streams + [s])[..|streams|] == streams;
    var filed := FileStream(plan, streams, s);
    if filed.None? {
      return Err("duplicate stream name");
    }
    var lowered := LowerQueries(filed.value, s, DeclaredQueries(streams), objectId);
    if lowered.None? {
      return Err("conflicting output table or object id");
    }
    r := Ok(lowered.value);
  }

  lemma PrefixConflicts(streams: seq<Stream>, n: nat, objectId: string -> Option<string>)
    requires n <= |streams|
    ensures DistinctStreams(streams) ==> DistinctStreams(streams[..n])
    ensures ConsistentTables(DeclaredQueries(streams), objectId) ==> ConsistentTables(DeclaredQueries(streams[..n]), objectId)
  {
    if n < |streams| {
      DeclaredQueriesContain(streams, n);
    } else {
      assert streams[..n] == streams;
    }
  }

  lemma LoweredIsConsistent(plan: Plan, streams: seq<Stream>, objectId: string -> Option<string>)
    requires TablesExact(plan.tables, DeclaredQueries(streams), objectId)
    ensures ConsistentTables(DeclaredQueries(streams), objectId)
  {
  }
}
