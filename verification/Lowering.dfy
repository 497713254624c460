/** Lowering a canonical plan: the versions it must have, the lookup queries its
    bindings refer to, and the streams. What a binding or a lookup query says is
    opaque. */
module Lowering {
  import opened Common
  import opened SyncPlan

  datatype Canonical = Canonical(version: nat, edition: nat, compatibility: nat, storage: nat, streams: seq<Stream>)

  const CANONICAL_PLAN_VERSION: nat := 1
  const SUPPORTED_EDITION: nat := 3
  const SUPPORTED_COMPATIBILITY_VERSION: nat := 1
  const SUPPORTED_STORAGE_VERSION: nat := 1

  ghost predicate Supported(c: Canonical) {
    && c.version == CANONICAL_PLAN_VERSION && c.edition == SUPPORTED_EDITION
    && c.compatibility == SUPPORTED_COMPATIBILITY_VERSION && c.storage == SUPPORTED_STORAGE_VERSION
  }

  datatype Lookup = Lookup(id: string, sourceTable: string, rawQuery: string)

  /** The object id of a projection, the lookup a binding refers to, the request
      predicates of a lookup query if it can be read, and the terms of a request filter. */
  datatype Readers = Readers(
    objectId: string -> Option<string>,
    lookup: string -> Option<Lookup>,
    predicates: string -> Option<seq<string>>,
    terms: Option<string> -> seq<string>)

  // ------------------------------------------------------------------
  // Request predicates of lookups
  // ------------------------------------------------------------------

  /** Every request predicate of the lookup is a term of the filter. */
  predicate Mirrored(r: Readers, l: Lookup, filter: Option<string>) {
    var ps := r.predicates(l.rawQuery);
    ps.Some? && forall i | 0 <= i < |ps.value| :: ps.value[i] in r.terms(filter)
  }

  predicate ParameterMirrored(r: Readers, p: Parameter, filter: Option<string>) {
    r.lookup(p.binding).Some? ==> Mirrored(r, r.lookup(p.binding).value, filter)
  }

  predicate AllMirrored(r: Readers, ps: seq<Parameter>, filter: Option<string>) {
    forall i | 0 <= i < |ps| :: ParameterMirrored(r, ps[i], filter)
  }

  /** Each query of the stream repeats the request predicates of the lookups it uses. */
  predicate StreamMirrors(r: Readers, s: Stream) {
    forall i | 0 <= i < |s.queries| :: AllMirrored(r, s.queries[i].parameters, s.queries[i].requestFilter)
  }

  /** Merging parameters keeps every binding, so it does not matter which list is checked. */
  lemma MergedMirrorsIff(r: Readers, ps: seq<Parameter>, filter: Option<string>)
    ensures AllMirrored(r, Merged(ps), filter) <==> AllMirrored(r, ps, filter)
  {
    forall i | 0 <= i < |ps|
      ensures exists j | 0 <= j < |Merged(ps)| :: Merged(ps)[j].binding == ps[i].binding
    {
      assert Mentions(ps, ps[i].name, ps[i].binding);
      MergedMentionsTheSame(ps, ps[i].name, ps[i].binding);
    }
    forall j | 0 <= j < |Merged(ps)|
      ensures exists i | 0 <= i < |ps| :: ps[i].binding == Merged(ps)[j].binding
    {
      assert Mentions(Merged(ps), Merged(ps)[j].name, Merged(ps)[j].binding);
      MergedMentionsTheSame(ps, Merged(ps)[j].name, Merged(ps)[j].binding);
    }
  }

  predicate GroupsMirror(r: Readers, groups: seq<Group>) {
    forall g | 0 <= g < |groups| :: AllMirrored(r, groups[g].parameters, groups[g].requestFilter)
  }

  /** Checking the bucket groups of a stream checks its queries, and no others. */
  lemma GroupsMirrorIff(r: Readers, groups: seq<Group>, s: Stream)
    requires Grouped(groups, s.queries)
    ensures GroupsMirror(r, groups) <==> StreamMirrors(r, s)
  {
    forall i | 0 <= i < |s.queries|
      ensures AllMirrored(r, Merged(s.queries[i].parameters), s.queries[i].requestFilter)
              <==> AllMirrored(r, s.queries[i].parameters, s.queries[i].requestFilter)
    {
      MergedMirrorsIff(r, s.queries[i].parameters, s.queries[i].requestFilter);
    }
    if GroupsMirror(r, groups) {
      forall i | 0 <= i < |s.queries|
        ensures AllMirrored(r, s.queries[i].parameters, s.queries[i].requestFilter)
      {
        assert HasGroup(s.queries[i], groups);
      }
    }
    if StreamMirrors(r, s) {
      forall g | 0 <= g < |groups|
        ensures AllMirrored(r, groups[g].parameters, groups[g].requestFilter)
      {
        var q := groups[g].queries[0];
        GroupMembersAre(s.queries, groups[g].parameters, groups[g].requestFilter, q);
        var i :| 0 <= i < |s.queries| && s.queries[i] == q;
      }
    }
  }

  method ParametersMirror(r: Readers, ps: seq<Parameter>, filter: Option<string>) returns (ok: bool)
    ensures ok == AllMirrored(r, ps, filter)
  {
    var terms := r.terms(filter);
    for i := 0 to |ps|
      invariant forall n | 0 <= n < i :: ParameterMirrored(r, ps[n], filter)
    {
      var lookup := r.lookup(ps[i].binding);
      if lookup.Some? {
        var predicates := r.predicates(lookup.value.rawQuery);
        if predicates.None? {
          return false;
        }
        for j := 0 to |predicates.value|
          invariant forall n | 0 <= n < j :: predicates.value[n] in terms
        {
          if predicates.value[j] !in terms {
            return false;
          }
        }
      }
    }
    ok := true;
  }

  /** The check a stream must pass before it is filed, made group by group. */
  method ValidateLookupFilters(r: Readers, s: Stream) returns (ok: bool)
    ensures ok == StreamMirrors(r, s)
  {
    var groups := StreamBucketGroups(s.queries);
    GroupsMirrorIff(r, groups, s);
    for g := 0 to |groups|
      invariant forall n | 0 <= n < g :: AllMirrored(r, groups[n].parameters, groups[n].requestFilter)
    {
      ok := ParametersMirror(r, groups[g].parameters, groups[g].requestFilter);
      if !ok {
        return;
      }
    }
    ok := true;
  }

  // ------------------------------------------------------------------
  // Lookup tables
  // ------------------------------------------------------------------

  /** The lookups to keep up to date when a row of a source table changes. */
  type LookupTables = map<string, seq<Lookup>>

  /** Some parameter of the declared queries refers to this lookup. */
  ghost predicate Refers(r: Readers, ps: seq<Parameter>, l: Lookup) {
    exists p :: p in ps && r.lookup(p.binding) == Some(l)
  }

  /** Every parameter of a list of queries, in order. */
  function AllParameters(qs: seq<DataQuery>): seq<Parameter> {
    if qs == [] then [] else AllParameters(qs[..|qs| - 1]) + qs[|qs| - 1].parameters
  }

  predicate Keeps(ls: seq<Lookup>, id: string) {
    exists i | 0 <= i < |ls| :: ls[i].id == id
  }

  predicate OncePerId(ls: seq<Lookup>) {
    forall i, j | 0 <= i < j < |ls| :: ls[i].id != ls[j].id
  }

  /** Each table keeps one lookup for every id referred to, and only lookups
      referred to over that table. */
  ghost predicate TablesKeep(tables: LookupTables, r: Readers, ps: seq<Parameter>) {
    && (forall t | t in tables :: OncePerId(tables[t]))
    && (forall t, l | t in tables && l in tables[t] :: l.sourceTable == t && Refers(r, ps, l))
    && (forall l | Refers(r, ps, l) :: l.sourceTable in tables && Keeps(tables[l.sourceTable], l.id))
  }

  lemma RefersOneMore(r: Readers, ps: seq<Parameter>, p: Parameter)
    ensures forall l :: Refers(r, ps + [p], l) <==> Refers(r, ps, l) || r.lookup(p.binding) == Some(l)
  {
    assert p in ps + [p];
    assert forall q | q in ps :: q in ps + [p];
  }

  lemma KeepsOneMore(ls: seq<Lookup>, l: Lookup)
    ensures forall id :: Keeps(ls + [l], id) <==> Keeps(ls, id) || id == l.id
  {
    forall id | Keeps(ls, id)
      ensures Keeps(ls + [l], id)
    {
      var i :| 0 <= i < |ls| && ls[i].id == id;
      assert (ls + [l])[i].id == id;
    }
    assert (ls + [l])[|ls|].id == l.id;
  }

  method AddLookup(tables: LookupTables, r: Readers, ghost ps: seq<Parameter>, p: Parameter) returns (after: LookupTables)
    requires TablesKeep(tables, r, ps)
    ensures TablesKeep(after, r, ps + [p])
  {
    RefersOneMore(r, ps, p);
    after := tables;
    if r.lookup(p.binding).Some? {
      var l := r.lookup(p.binding).value;
      var kept := if l.sourceTable in tables then tables[l.sourceTable] else [];
      if !Keeps(kept, l.id) {
        KeepsOneMore(kept, l);
        after := tables[l.sourceTable := kept + [l]];
      }
    }
  }

  method AddLookups(tables: LookupTables, r: Readers, ghost before: seq<Parameter>, ps: seq<Parameter>) returns (after: LookupTables)
    requires TablesKeep(tables, r, before)
    ensures TablesKeep(after, r, before + ps)
  {
    after := tables;
    assert before + ps[..0] == before;
    for i := 0 to |ps|
      invariant TablesKeep(after, r, before + ps[..i])
    {
      after := AddLookup(after, r, before + ps[..i], ps[i]);
      assert before + ps[..i] + [ps[i]] == before + ps[..i + 1];
    }
    assert ps[..|ps|] == ps;
  }

  method AddStreamLookups(tables: LookupTables, r: Readers, ghost before: seq<Parameter>, qs: seq<DataQuery>) returns (after: LookupTables)
    requires TablesKeep(tables, r, before)
    ensures TablesKeep(after, r, before + AllParameters(qs))
  {
    after := tables;
    assert qs[..0] == [] && before + [] == before;
    for i := 0 to |qs|
      invariant TablesKeep(after, r, before + AllParameters(qs[..i]))
    {
      after := AddLookups(after, r, before + AllParameters(qs[..i]), qs[i].parameters);
      assert qs[..i + 1][..i] == qs[..i];
      assert before + AllParameters(qs[..i]) + qs[i].parameters == before + AllParameters(qs[..i + 1]);
    }
    assert qs[..|qs|] == qs;
  }

  // ------------------------------------------------------------------
  // Lowering
  // ------------------------------------------------------------------

  function StreamParameters(streams: seq<Stream>): seq<Parameter> {
    if streams == [] then [] else StreamParameters(streams[..|streams| - 1]) + AllParameters(streams[|streams| - 1].queries)
  }

  ghost predicate AllStreamsMirror(r: Readers, streams: seq<Stream>) {
    forall i | 0 <= i < |streams| :: StreamMirrors(r, streams[i])
  }

  /** Stream names are distinct, queries over one source table agree, and each
      query repeats the request predicates of its lookups. */
  ghost predicate Acceptable(r: Readers, streams: seq<Stream>) {
    DistinctStreams(streams) && ConsistentTables(DeclaredQueries(streams), r.objectId) && AllStreamsMirror(r, streams)
  }

  /** The plan holds precisely what the declared queries call for, the lookup
      tables what they refer to. */
  ghost predicate Prepared(plan: Plan, tables: LookupTables, r: Readers, streams: seq<Stream>) {
    Lowered(plan, streams, r.objectId) && TablesKeep(tables, r, StreamParameters(streams))
  }

  lemma AcceptablePrefix(r: Readers, streams: seq<Stream>, n: nat)
    requires n <= |streams| && Acceptable(r, streams)
    ensures Acceptable(r, streams[..n])
  {
    PrefixConflicts(streams, n, r.objectId);
  }

  lemma PreparedIsAcceptable(plan: Plan, tables: LookupTables, r: Readers, streams: seq<Stream>)
    requires Prepared(plan, tables, r, streams) && DistinctStreams(streams) && AllStreamsMirror(r, streams)
    ensures Acceptable(r, streams)
  {
    LoweredIsConsistent(plan, streams, r.objectId);
  }

  method LowerOne(plan: Plan, tables: LookupTables, r: Readers, ghost streams: seq<Stream>, s: Stream)
    returns (after: Result<Plan, string>, tables': LookupTables)
    requires Prepared(plan, tables, r, streams) && Acceptable(r, streams)
    ensures after.Ok? <==> Acceptable(r, streams + [s])
    ensures after.Ok? ==> Prepared(after.value, tables', r, streams + [s])
  {
    tables' := tables;
    assert (streams + [s])[..|streams|] == streams;
    var valid := ValidateLookupFilters(r, s);
    if !valid {
      assert (streams + [s])[|streams|] == s;
      return Err("lookup predicate is not mirrored"), tables;
    }
    after := LowerStream(plan, streams, s, r.objectId);
    if after.Ok? {
      tables' := AddStreamLookups(tables, r, StreamParameters(streams), s.queries);
      PreparedIsAcceptable(after.value, tables', r, streams + [s]);
    }
  }

  method LowerStreams(r: Readers, streams: seq<Stream>) returns (plan: Result<Plan, string>, tables: LookupTables)
    ensures plan.Ok? <==> Acceptable(r, streams)
    ensures plan.Ok? ==> Prepared(plan.value, tables, r, streams)
  {
    plan, tables := Ok(Plan(map[], map[], map[], map[], map[], [])), map[];
    assert streams[..0] == [];
    for i := 0 to |streams|
      invariant plan.Ok? && Prepared(plan.value, tables, r, streams[..i]) && Acceptable(r, streams[..i])
    {
      assert streams[..i + 1] == streams[..i] + [streams[i]];
      plan, tables := LowerOne(plan.value, tables, r, streams[..i], streams[i]);
      if plan.Err? {
        if Acceptable(r, streams) {
          AcceptablePrefix(r, streams, i + 1);
        }
        return;
      }
    }
    assert streams[..|streams|] == streams;
  }

  /** Lowering succeeds if and only if the versions are supported and the
      streams acceptable, and then prepares the plan and its lookup tables. */
  method LowerCanonicalPlan(c: Canonical, r: Readers) returns (plan: Result<Plan, string>, tables: LookupTables)
    ensures plan.Ok? <==> Supported(c) && Acceptable(r, c.streams)
    ensures plan.Ok? ==> Prepared(plan.value, tables, r, c.streams)
  {
    if c.version != CANONICAL_PLAN_VERSION {
      return Err("unsupported plan version"), map[];
    }
    if c.edition != SUPPORTED_EDITION {
      return Err("unsupported edition"), map[];
    }
    if c.compatibility != SUPPORTED_COMPATIBILITY_VERSION {
      return Err("unsupported compatibility version"), map[];
    }
    if c.storage != SUPPORTED_STORAGE_VERSION {
      return Err("unsupported storage version"), map[];
    }
    plan, tables := LowerStreams(r, c.streams);
  }
}
