/** Assembly of the logical replication stream into one commit batch per source
    transaction. Parsing of pgoutput bytes is the opaque function `parse`. */
module Decoder {
  import opened Common

  /** A relation as described by the stream; `identity` is None for an unknown replica identity byte. */
  datatype Relation = Relation(name: string, identity: Option<string>, columns: seq<string>)

  datatype Wal =
    | Describe(id: U32, relation: Relation)
    | Insert(id: U32, after: string)
    | Update(id: U32, before: Option<string>, after: string)
    | Delete(id: U32, removed: string)
    | Truncate(ids: seq<U32>)
    | Informational
    | Unsupported

  datatype Event =
    | KeepAlive(walEnd: U64)
    | Begin(finalLsn: U64, xid: U32, time: int)
    | XLogData(walEnd: U64, payload: string)
    | Commit(lsn: U64, endLsn: U64, time: int)
    | Message
    | StoppedAt(reached: U64)

  datatype Change =
    | Inserted(relation: Relation, after: string, lsn: U64)
    | Updated(relation: Relation, before: Option<string>, after: string, lsn: U64)
    | Deleted(relation: Relation, removed: string, lsn: U64)
    | Truncated(tables: seq<string>, lsn: U64)

  datatype Error =
    | BeginWhileTransactionOpen(existingXid: U32, newXid: U32)
    | CommitWithoutBegin(endLsn: U64)
    | ChangeOutsideTransaction
    | MissingRelation(id: U32)
    | InvalidReplicaIdentity(id: U32)
    | UnsupportedMessage
    | Malformed

  type Relations = map<U32, Relation>
  type Parser = string -> Option<Wal>

  datatype Open = Open(xid: U32, finalLsn: U64, time: int, changes: seq<Change>)

  datatype Batch = Batch(xid: U32, finalLsn: U64, beginTime: int, commitLsn: U64, endLsn: U64, commitTime: int,
                         relations: Relations, changes: seq<Change>)

  datatype State = State(relations: Relations, transaction: Option<Open>)

  // ------------------------------------------------------------------
  // What one message says, whatever transaction it arrives in
  // ------------------------------------------------------------------

  function TableNames(relations: Relations, ids: seq<U32>): Result<seq<string>, Error> {
    if ids == [] then Ok([])
    else if ids[0] !in relations then Err(MissingRelation(ids[0]))
    else match TableNames(relations, ids[1..])
      case Err(e) => Err(e)
      case Ok(names) => Ok([relations[ids[0]].name] + names)
  }

  /** The row change a message describes, if it describes one. */
  function Describes(relations: Relations, wal: Wal, lsn: U64): Result<Option<Change>, Error> {
    match wal
    case Describe(_, _) => Ok(None)
    case Insert(id, after) =>
      if id !in relations then Err(MissingRelation(id)) else Ok(Some(Inserted(relations[id], after, lsn)))
    case Update(id, before, after) =>
      if id !in relations then Err(MissingRelation(id))
      else if relations[id].identity.None? then Err(InvalidReplicaIdentity(id))
      else Ok(Some(Updated(relations[id], before, after, lsn)))
    case Delete(id, row) =>
      if id !in relations then Err(MissingRelation(id))
      else if relations[id].identity.None? then Err(InvalidReplicaIdentity(id))
      else Ok(Some(Deleted(relations[id], row, lsn)))
    case Truncate(ids) =>
      (match TableNames(relations, ids)
       case Err(e) => Err(e)
       case Ok(names) => Ok(Some(Truncated(names, lsn))))
    case Informational => Ok(None)
    case Unsupported => Err(UnsupportedMessage)
  }

  function Says(parse: Parser, relations: Relations, e: Event): Result<Option<Change>, Error> {
    if !e.XLogData? then Ok(None)
    else if parse(e.payload).None? then Err(Malformed)
    else Describes(relations, parse(e.payload).value, e.walEnd)
  }

  function Learn(parse: Parser, relations: Relations, e: Event): Relations {
    if e.XLogData? && parse(e.payload).Some? && parse(e.payload).value.Describe?
    then relations[parse(e.payload).value.id := parse(e.payload).value.relation]
    else relations
  }

  // ------------------------------------------------------------------
  // One event, and a whole stream
  // ------------------------------------------------------------------

  function Step(parse: Parser, s: State, e: Event): Result<(State, Option<Batch>), Error> {
    match e
    case Begin(finalLsn, xid, time) =>
      if s.transaction.Some? then Err(BeginWhileTransactionOpen(s.transaction.value.xid, xid))
      else Ok((s.(transaction := Some(Open(xid, finalLsn, time, []))), None))
    case Commit(lsn, endLsn, time) =>
      if s.transaction.None? then Err(CommitWithoutBegin(endLsn))
      else
        var t := s.transaction.value;
        Ok((s.(transaction := None), Some(Batch(t.xid, t.finalLsn, t.time, lsn, endLsn, time, s.relations, t.changes))))
    case _ =>
      match Says(parse, s.relations, e)
      case Err(error) => Err(error)
      case Ok(None) => Ok((s.(relations := Learn(parse, s.relations, e)), None))
      case Ok(Some(change)) =>
        if s.transaction.None? then Err(ChangeOutsideTransaction)
        else
          var t := s.transaction.value;
          Ok((s.(transaction := Some(t.(changes := t.changes + [change]))), None))
  }

  function Emitted(b: Option<Batch>): seq<Batch> {
    if b.None? then [] else [b.value]
  }

  function Run(parse: Parser, es: seq<Event>): Result<(State, seq<Batch>), Error> {
    if es == [] then Ok((State(map[], None), []))
    else match Run(parse, es[..|es| - 1])
      case Err(e) => Err(e)
      case Ok((s, batches)) =>
        match Step(parse, s, es[|es| - 1])
        case Err(e) => Err(e)
        case Ok((s', b)) => Ok((s', batches + Emitted(b)))
  }

  /** The decoder object of the service. */
  class BatchDecoder {
    const parse: Parser
    var relations: Relations
    var transaction: Option<Open>

    function Value(): State
      reads this
    {
      State(relations, transaction)
    }

    constructor (parser: Parser)
      ensures parse == parser && Run(parse, []) == Ok((Value(), []))
    {
      parse := parser;
      relations := map[];
      transaction := None;
    }

    /** Take one event. A refused event leaves the decoder as it was. */
    method PushStreamEvent(event: Event) returns (r: Result<Option<Batch>, Error>)
      modifies this
      ensures match Step(parse, old(Value()), event)
              case Ok((s, b)) => r == Ok(b) && Value() == s
              case Err(e) => r == Err(e) && Value() == old(Value())
    {
      match event {
        case Begin(finalLsn, xid, time) =>
          if transaction.Some? {
            return Err(BeginWhileTransactionOpen(transaction.value.xid, xid));
          }
          transaction := Some(Open(xid, finalLsn, time, []));
          return Ok(None);
        case XLogData(walEnd, payload) =>
          var failed := DecodeWalPayload(walEnd, payload);
          return if failed.Some? then Err(failed.value) else Ok(None);
        case Commit(lsn, endLsn, time) =>
          if transaction.None? {
            return Err(CommitWithoutBegin(endLsn));
          }
          var t := transaction.value;
          transaction := None;
          return Ok(Some(Batch(t.xid, t.finalLsn, t.time, lsn, endLsn, time, relations, t.changes)));
        case _ =>
          return Ok(None);
      }
    }

    method DecodeWalPayload(walEnd: U64, payload: string) returns (failed: Option<Error>)
      modifies this
      ensures match Step(parse, old(Value()), XLogData(walEnd, payload))
              case Ok((s, b)) => failed.None? && b.None? && Value() == s
              case Err(e) => failed == Some(e) && Value() == old(Value())
    {
      if parse(payload).None? {
        return Some(Malformed);
      }
      match parse(payload).value {
        case Describe(id, relation) =>
          relations := relations[id := relation];
          return None;
        case Insert(id, after) =>
          if id !in relations {
            return Some(MissingRelation(id));
          }
          failed := PushChange(Inserted(relations[id], after, walEnd));
        case Update(id, before, after) =>
          if id !in relations {
            return Some(MissingRelation(id));
          }
          if relations[id].identity.None? {
            return Some(InvalidReplicaIdentity(id));
          }
          failed := PushChange(Updated(relations[id], before, after, walEnd));
        case Delete(id, row) =>
          if id !in relations {
            return Some(MissingRelation(id));
          }
          if relations[id].identity.None? {
            return Some(InvalidReplicaIdentity(id));
          }
          failed := PushChange(Deleted(relations[id], row, walEnd));
        case Truncate(ids) =>
          var names := CollectTables(ids);
          if names.Err? {
            return Some(names.error);
          }
          failed := PushChange(Truncated(names.value, walEnd));
        case Informational =>
          return None;
        case Unsupported =>
          return Some(UnsupportedMessage);
      }
    }

    method CollectTables(ids: seq<U32>) returns (r: Result<seq<string>, Error>)
      ensures r == TableNames(relations, ids)
    {
      var tables: seq<string> := [];
      assert ids[0..] == ids;
      ghost var whole := TableNames(relations, ids);
      assert whole.Ok? ==> tables + whole.value == whole.value;
      for i := 0 to |ids|
        invariant match TableNames(relations, ids[i..])
                  case Err(e) => whole == Err(e)
                  case Ok(names) => whole == Ok(tables + names)
      {
        assert ids[i..][1..] == ids[i + 1..];
        if ids[i] !in relations {
          return Err(MissingRelation(ids[i]));
        }
        ghost var rest := TableNames(relations, ids[i + 1..]);
        assert rest.Ok? ==> tables + ([relations[ids[i]].name] + rest.value) == tables + [relations[ids[i]].name] + rest.value;
        tables := tables + [relations[ids[i]].name];
      }
      assert tables + [] == tables;
      r := Ok(tables);
    }

    method PushChange(change: Change) returns (failed: Option<Error>)
      modifies this`transaction
      ensures old(transaction).None? ==> failed == Some(ChangeOutsideTransaction) && transaction.None?
      ensures old(transaction).Some? ==> failed.None?
      ensures old(transaction).Some? ==> transaction.Some?
      ensures old(transaction).Some? ==> transaction.value == old(transaction).value.(changes := old(transaction).value.changes + [change])
    {
      if transaction.None? {
        return Some(ChangeOutsideTransaction);
      }
      transaction := Some(transaction.value.(changes := transaction.value.changes + [change]));
      failed := None;
    }
  }

  // ------------------------------------------------------------------
  // Transaction assembly
  // ------------------------------------------------------------------

  function RelationsAfter(parse: Parser, es: seq<Event>): Relations {
    if es == [] then map[] else Learn(parse, RelationsAfter(parse, es[..|es| - 1]), es[|es| - 1])
  }

  /** The row change an event carries, if any. */
  function Carried(parse: Parser, relations: Relations, e: Event): seq<Change> {
    var said := Says(parse, relations, e);
    if said.Ok? && said.value.Some? then [said.value.value] else []
  }

  function CarriedAt(parse: Parser, es: seq<Event>, i: nat): seq<Change>
    requires i < |es|
  {
    Carried(parse, RelationsAfter(parse, es[..i]), es[i])
  }

  /** The row changes carried by events `lo` to `hi`, in order. */
  function ChangesIn(parse: Parser, es: seq<Event>, lo: nat, hi: nat): seq<Change>
    requires lo <= hi <= |es|
  {
    if lo == hi then [] else ChangesIn(parse, es, lo, hi - 1) + CarriedAt(parse, es, hi - 1)
  }

  ghost predicate BatchSpans(parse: Parser, es: seq<Event>, begin: nat, commit: nat, b: Batch) {
    && begin < commit < |es|
    && es[begin].Begin? && es[commit].Commit?
    && b.xid == es[begin].xid && b.finalLsn == es[begin].finalLsn && b.beginTime == es[begin].time
    && b.commitLsn == es[commit].lsn && b.endLsn == es[commit].endLsn && b.commitTime == es[commit].time
    && b.relations == RelationsAfter(parse, es[..commit])
    && b.changes == ChangesIn(parse, es, begin, commit)
  }

  ghost predicate OpenSince(parse: Parser, es: seq<Event>, open: Option<nat>, t: Option<Open>) {
    && open.Some? == t.Some?
    && (open.Some? ==>
          && open.value < |es| && es[open.value].Begin?
          && t.value.xid == es[open.value].xid && t.value.finalLsn == es[open.value].finalLsn
          && t.value.time == es[open.value].time
          && t.value.changes == ChangesIn(parse, es, open.value, |es|))
  }

  ghost predicate Within(i: nat, spans: seq<(nat, nat)>, open: Option<nat>) {
    || (open.Some? && open.value <= i)
    || (exists k | 0 <= k < |spans| :: spans[k].0 <= i <= spans[k].1)
  }

  ghost predicate Disjoint(spans: seq<(nat, nat)>, open: Option<nat>) {
    && (forall k, l | 0 <= k < l < |spans| :: spans[k].1 < spans[l].0)
    && (open.Some? ==> forall k | 0 <= k < |spans| :: spans[k].1 < open.value)
  }

  ghost predicate Marked(parse: Parser, es: seq<Event>, i: nat)
    requires i < |es|
  {
    es[i].Begin? || es[i].Commit? || CarriedAt(parse, es, i) != []
  }

  ghost predicate Covered(parse: Parser, es: seq<Event>, spans: seq<(nat, nat)>, open: Option<nat>) {
    forall i | 0 <= i < |es| && Marked(parse, es, i) :: Within(i, spans, open)
  }

  ghost predicate AllSpan(parse: Parser, es: seq<Event>, spans: seq<(nat, nat)>, batches: seq<Batch>) {
    && |spans| == |batches|
    && forall k | 0 <= k < |spans| :: BatchSpans(parse, es, spans[k].0, spans[k].1, batches[k])
  }

  /** Each batch is one Begin..Commit stretch, stretches do not overlap, and every
      Begin, Commit and row change lies in one of them or in the open one. */
  ghost predicate Assembled(parse: Parser, es: seq<Event>, spans: seq<(nat, nat)>, open: Option<nat>, batches: seq<Batch>) {
    && AllSpan(parse, es, spans, batches)
    && Disjoint(spans, open)
    && Covered(parse, es, spans, open)
  }

  lemma {:induction false} ChangesInPrefix(parse: Parser, es: seq<Event>, e: Event, lo: nat, hi: nat)
    requires lo <= hi <= |es|
    ensures ChangesIn(parse, es + [e], lo, hi) == ChangesIn(parse, es, lo, hi)
  {
    if lo < hi {
      ChangesInPrefix(parse, es, e, lo, hi - 1);
      CarriedPrefix(parse, es, e, hi - 1);
    }
  }

  lemma CarriedPrefix(parse: Parser, es: seq<Event>, e: Event, i: nat)
    requires i < |es|
    ensures CarriedAt(parse, es + [e], i) == CarriedAt(parse, es, i)
  {
    assert (es + [e])[..i] == es[..i];
  }

  /** Every run without error emits exactly one batch per Begin..Commit stretch,
      with that stretch's changes in order; what is undelivered is exactly the open stretch. */
  lemma {:induction false} TransactionAssembly(parse: Parser, es: seq<Event>) returns (spans: seq<(nat, nat)>, open: Option<nat>)
    requires Run(parse, es).Ok?
    ensures Assembled(parse, es, spans, open, Run(parse, es).value.1)
    ensures OpenSince(parse, es, open, Run(parse, es).value.0.transaction)
    ensures Run(parse, es).value.0.relations == RelationsAfter(parse, es)
    decreases |es|
  {
    if es == [] {
      spans, open := [], None;
    } else {
      var before, e := es[..|es| - 1], es[|es| - 1];
      assert es == before + [e];
      spans, open := TransactionAssembly(parse, before);
      spans, open := AssemblyStep(parse, before, e, Run(parse, before).value.0, Run(parse, before).value.1, spans, open);
    }
  }

  lemma SpansStay(parse: Parser, es: seq<Event>, e: Event, spans: seq<(nat, nat)>, batches: seq<Batch>)
    requires AllSpan(parse, es, spans, batches)
    ensures AllSpan(parse, es + [e], spans, batches)
  {
    forall k | 0 <= k < |spans|
      ensures BatchSpans(parse, es + [e], spans[k].0, spans[k].1, batches[k])
    {
      ChangesInPrefix(parse, es, e, spans[k].0, spans[k].1);
      assert (es + [e])[..spans[k].1] == es[..spans[k].1];
    }
  }

  /** Coverage survives when the old stretches stay within the new ones. */
  lemma CoverageStays(parse: Parser, es: seq<Event>, e: Event, spans: seq<(nat, nat)>, open: Option<nat>,
                      spans': seq<(nat, nat)>, open': Option<nat>)
    requires Covered(parse, es, spans, open)
    requires forall i | 0 <= i < |es| && Within(i, spans, open) :: Within(i, spans', open')
    requires Marked(parse, es + [e], |es|) ==> Within(|es|, spans', open')
    ensures Covered(parse, es + [e], spans', open')
  {
    forall i | 0 <= i < |es| + 1 && Marked(parse, es + [e], i)
      ensures Within(i, spans', open')
    {
      if i < |es| {
        CarriedPrefix(parse, es, e, i);
        assert Marked(parse, es, i);
      }
    }
  }

  lemma CommitKeepsWithin(n: nat, spans: seq<(nat, nat)>, open: Option<nat>)
    requires open.Some? && open.value <= n
    ensures forall i | 0 <= i <= n && (i == n || Within(i, spans, open)) :: Within(i, spans + [(open.value, n)], None)
  {
    var spans' := spans + [(open.value, n)];
    forall i | 0 <= i <= n && (i == n || Within(i, spans, open))
      ensures Within(i, spans', None)
    {
      if i == n || open.value <= i {
        assert spans'[|spans|] == (open.value, n);
      } else {
        var k :| 0 <= k < |spans| && spans[k].0 <= i <= spans[k].1;
        assert spans'[k] == spans[k];
      }
    }
  }

  lemma AssemblyStep(parse: Parser, es: seq<Event>, e: Event, s: State, batches: seq<Batch>, spans: seq<(nat, nat)>, open: Option<nat>)
    returns (spans': seq<(nat, nat)>, open': Option<nat>)
    requires Assembled(parse, es, spans, open, batches) && OpenSince(parse, es, open, s.transaction)
    requires s.relations == RelationsAfter(parse, es) && Step(parse, s, e).Ok?
    ensures Step(parse, s, e).value.0.relations == RelationsAfter(parse, es + [e])
    ensures Assembled(parse, es + [e], spans', open', batches + Emitted(Step(parse, s, e).value.1))
    ensures OpenSince(parse, es + [e], open', Step(parse, s, e).value.0.transaction)
  {
    var n := |es|;
    assert (es + [e])[..n] == es && (es + [e])[n] == e;
    SpansStay(parse, es, e, spans, batches);
    if open.Some? {
      ChangesInPrefix(parse, es, e, open.value, n);
    }
    if e.Begin? {
      spans', open' := spans, Some(n);
    } else if e.Commit? {
      spans', open' := spans + [(open.value, n)], None;
      CommitKeepsWithin(n, spans, open);
    } else {
      spans', open' := spans, open;
    }
    CoverageStays(parse, es, e, spans, open, spans', open');
  }

  function AllChanges(batches: seq<Batch>): seq<Change> {
    if batches == [] then [] else AllChanges(batches[..|batches| - 1]) + batches[|batches| - 1].changes
  }

  function Undelivered(s: State): seq<Change> {
    if s.transaction.None? then [] else s.transaction.value.changes
  }

  function Delivered(b: Option<Batch>): seq<Change> {
    if b.None? then [] else b.value.changes
  }

  lemma EmitKeepsChanges(batches: seq<Batch>, b: Option<Batch>)
    ensures AllChanges(batches + Emitted(b)) == AllChanges(batches) + Delivered(b)
  {
    if b.None? {
      assert batches + [] == batches;
    } else {
      assert (batches + [b.value])[..|batches|] == batches;
    }
  }

  lemma StepKeepsChanges(parse: Parser, s: State, e: Event, s': State, b: Option<Batch>)
    requires Step(parse, s, e) == Ok((s', b))
    ensures Delivered(b) + Undelivered(s') == Undelivered(s) + Carried(parse, s.relations, e)
    ensures s'.relations == Learn(parse, s.relations, e)
  {
  }

  lemma Rearrange<T>(all: seq<T>, delivered: seq<T>, undelivered': seq<T>, undelivered: seq<T>, carried: seq<T>)
    requires delivered + undelivered' == undelivered + carried
    ensures all + delivered + undelivered' == all + undelivered + carried
  {
    assert all + delivered + undelivered' == all + (delivered + undelivered');
    assert all + undelivered + carried == all + (undelivered + carried);
  }

  lemma RunExtends(parse: Parser, es: seq<Event>, e: Event)
    requires Run(parse, es).Ok?
    ensures Run(parse, es + [e]) == match Step(parse, Run(parse, es).value.0, e)
                                    case Err(error) => Err(error)
                                    case Ok((s', b)) => Ok((s', Run(parse, es).value.1 + Emitted(b)))
  {
  }

  lemma ChangesStep(parse: Parser, es: seq<Event>, e: Event, s: State, batches: seq<Batch>, s': State, b: Option<Batch>)
    requires AllChanges(batches) + Undelivered(s) == ChangesIn(parse, es, 0, |es|) && s.relations == RelationsAfter(parse, es)
    requires Step(parse, s, e) == Ok((s', b))
    ensures AllChanges(batches + Emitted(b)) + Undelivered(s') == ChangesIn(parse, es + [e], 0, |es| + 1)
    ensures s'.relations == RelationsAfter(parse, es + [e])
  {
    StepKeepsChanges(parse, s, e, s', b);
    EmitKeepsChanges(batches, b);
    Rearrange(AllChanges(batches), Delivered(b), Undelivered(s'), Undelivered(s), Carried(parse, s.relations, e));
    assert (es + [e])[..|es|] == es;
    ChangesInPrefix(parse, es, e, 0, |es|);
  }

  /** Conservation: the changes of all batches, followed by those of the open
      transaction, are the changes of the stream, in order. */
  lemma {:induction false} NoChangeLost(parse: Parser, es: seq<Event>, s: State, batches: seq<Batch>)
    requires Run(parse, es) == Ok((s, batches))
    ensures AllChanges(batches) + Undelivered(s) == ChangesIn(parse, es, 0, |es|)
    ensures s.relations == RelationsAfter(parse, es)
    decreases |es|
  {
    if es != [] {
      var before, e := es[..|es| - 1], es[|es| - 1];
      var (s0, batches0) := Run(parse, before).value;
      var (s', b) := Step(parse, s0, e).value;
      assert es == before + [e];
      NoChangeLost(parse, before, s0, batches0);
      ChangesStep(parse, before, e, s0, batches0, s', b);
    }
  }

  // ------------------------------------------------------------------
  // Messages and changes, one for one
  // ------------------------------------------------------------------

  /** An event that carries a row message: an insert, update, delete or truncate. */
  predicate RowMessage(parse: Parser, e: Event) {
    e.XLogData? && parse(e.payload).Some?
    && var wal := parse(e.payload).value; wal.Insert? || wal.Update? || wal.Delete? || wal.Truncate?
  }

  predicate DescribesAt(parse: Parser, es: seq<Event>, k: nat, id: U32, relation: Relation) {
    k < |es| && es[k].XLogData? && parse(es[k].payload) == Some(Describe(id, relation))
  }

  /** The last description of `id` before event `i` is `relation`. */
  ghost predicate LastDescribed(parse: Parser, es: seq<Event>, i: nat, id: U32, relation: Relation) {
    exists k | 0 <= k < i ::
      DescribesAt(parse, es, k, id, relation) && forall l, other: Relation | k < l < i :: !DescribesAt(parse, es, l, id, other)
  }

  /** The known relations are, for each id, the last description of it. */
  lemma {:induction false} RelationsAreLastDescribed(parse: Parser, es: seq<Event>, i: nat, id: U32)
    requires i <= |es|
    ensures id in RelationsAfter(parse, es[..i]) ==> LastDescribed(parse, es, i, id, RelationsAfter(parse, es[..i])[id])
    ensures id !in RelationsAfter(parse, es[..i]) ==> forall k, relation: Relation | 0 <= k < i :: !DescribesAt(parse, es, k, id, relation)
  {
    if i > 0 {
      RelationsAreLastDescribed(parse, es, i - 1, id);
      assert es[..i][..i - 1] == es[..i - 1] && es[..i][i - 1] == es[i - 1];
      var before, after := RelationsAfter(parse, es[..i - 1]), RelationsAfter(parse, es[..i]);
      var wal := if es[i - 1].XLogData? then parse(es[i - 1].payload) else None;
      if wal.Some? && wal.value.Describe? && wal.value.id == id {
        assert DescribesAt(parse, es, i - 1, id, wal.value.relation);
        assert LastDescribed(parse, es, i, id, wal.value.relation);
      } else {
        assert (id in after <==> id in before) && (id in before ==> after[id] == before[id]);
        if id in before {
          var k :| 0 <= k < i - 1 && DescribesAt(parse, es, k, id, before[id])
            && forall l, other: Relation | k < l < i - 1 :: !DescribesAt(parse, es, l, id, other);
          assert forall l, other: Relation | k < l < i :: !DescribesAt(parse, es, l, id, other);
        }
      }
    }
  }

  /** The names of the relations last described under some ids, in order. */
  ghost predicate NamesOf(parse: Parser, es: seq<Event>, i: nat, ids: seq<U32>, names: seq<string>) {
    |names| == |ids|
    && forall n | 0 <= n < |ids| :: exists relation: Relation :: LastDescribed(parse, es, i, ids[n], relation) && names[n] == relation.name
  }

  /** The change says what row message `i` says: its kind, its rows as received,
      the relation last described under its id, and the position of the message. */
  ghost predicate ChangeOf(parse: Parser, es: seq<Event>, i: nat, change: Change)
    requires i < |es| && RowMessage(parse, es[i])
  {
    && change.lsn == es[i].walEnd
    && match parse(es[i].payload).value
       case Insert(id, after) => change.Inserted? && change.after == after && LastDescribed(parse, es, i, id, change.relation)
       case Update(id, before, after) =>
         change.Updated? && change.before == before && change.after == after && LastDescribed(parse, es, i, id, change.relation)
       case Delete(id, removed) => change.Deleted? && change.removed == removed && LastDescribed(parse, es, i, id, change.relation)
       case Truncate(ids) => change.Truncated? && NamesOf(parse, es, i, ids, change.tables)
       case _ => false
  }

  lemma {:induction false} TableNamesAre(relations: Relations, ids: seq<U32>)
    ensures TableNames(relations, ids).Ok? <==> forall n | 0 <= n < |ids| :: ids[n] in relations
    ensures TableNames(relations, ids).Ok? ==>
              var names := TableNames(relations, ids).value;
              |names| == |ids| && forall n | 0 <= n < |ids| :: names[n] == relations[ids[n]].name
  {
    if ids != [] {
      TableNamesAre(relations, ids[1..]);
    }
  }

  /** An accepted row message carries exactly one change, which says what it
      says; any other accepted event carries none. */
  lemma MessageCarries(parse: Parser, es: seq<Event>, i: nat)
    requires i < |es| && Says(parse, RelationsAfter(parse, es[..i]), es[i]).Ok?
    ensures RowMessage(parse, es[i]) ==> |CarriedAt(parse, es, i)| == 1 && ChangeOf(parse, es, i, CarriedAt(parse, es, i)[0])
    ensures !RowMessage(parse, es[i]) ==> CarriedAt(parse, es, i) == []
  {
    var relations := RelationsAfter(parse, es[..i]);
    if RowMessage(parse, es[i]) {
      match parse(es[i].payload).value
      case Insert(id, _) => RelationsAreLastDescribed(parse, es, i, id);
      case Update(id, _, _) => RelationsAreLastDescribed(parse, es, i, id);
      case Delete(id, _) => RelationsAreLastDescribed(parse, es, i, id);
      case Truncate(ids) =>
        TableNamesAre(relations, ids);
        forall n | 0 <= n < |ids|
          ensures LastDescribed(parse, es, i, ids[n], relations[ids[n]])
        {
          RelationsAreLastDescribed(parse, es, i, ids[n]);
        }
      case _ =>
    }
  }

  /** `at` lists the row messages among the first `n` events, in order. */
  ghost predicate ListsMessages(parse: Parser, es: seq<Event>, n: nat, at: seq<nat>)
    requires n <= |es|
  {
    && (forall k | 0 <= k < |at| :: at[k] < n && RowMessage(parse, es[at[k]]))
    && (forall k, l | 0 <= k < l < |at| :: at[k] < at[l])
    && (forall i | 0 <= i < n && RowMessage(parse, es[i]) :: i in at)
  }

  /** Change `k` is that of message `at[k]`. */
  ghost predicate ChangesMatch(parse: Parser, es: seq<Event>, at: seq<nat>, changes: seq<Change>) {
    |changes| == |at| && forall k | 0 <= k < |at| :: at[k] < |es| && RowMessage(parse, es[at[k]]) && ChangeOf(parse, es, at[k], changes[k])
  }

  lemma OneMoreMessage(parse: Parser, es: seq<Event>, n: nat, at: seq<nat>, changes: seq<Change>, carried: seq<Change>, at': seq<nat>)
    requires n < |es| && ListsMessages(parse, es, n, at) && ChangesMatch(parse, es, at, changes)
    requires if RowMessage(parse, es[n]) then |carried| == 1 && ChangeOf(parse, es, n, carried[0]) && at' == at + [n] else carried == [] && at' == at
    ensures ListsMessages(parse, es, n + 1, at') && ChangesMatch(parse, es, at', changes + carried)
  {
    assert forall i | i in at :: i in at';
  }

  lemma {:induction false} MessagesOf(parse: Parser, es: seq<Event>, n: nat) returns (at: seq<nat>)
    requires n <= |es| && forall i | 0 <= i < n :: Says(parse, RelationsAfter(parse, es[..i]), es[i]).Ok?
    ensures ListsMessages(parse, es, n, at) && ChangesMatch(parse, es, at, ChangesIn(parse, es, 0, n))
  {
    at := [];
    if n > 0 {
      var before := MessagesOf(parse, es, n - 1);
      MessageCarries(parse, es, n - 1);
      at := if RowMessage(parse, es[n - 1]) then before + [n - 1] else before;
      OneMoreMessage(parse, es, n - 1, before, ChangesIn(parse, es, 0, n - 1), CarriedAt(parse, es, n - 1), at);
    }
  }

  lemma {:induction false} AcceptedMessages(parse: Parser, es: seq<Event>, i: nat)
    requires Run(parse, es).Ok? && i < |es|
    ensures Says(parse, RelationsAfter(parse, es[..i]), es[i]).Ok?
    decreases |es|
  {
    var n := |es| - 1;
    if i < n {
      AcceptedMessages(parse, es[..n], i);
      assert es[..n][..i] == es[..i];
    } else {
      var (s, batches) := Run(parse, es[..n]).value;
      NoChangeLost(parse, es[..n], s, batches);
    }
  }

  /** Messages and changes correspond one for one: in a run without error, the
      changes of all batches followed by those of the open transaction are one
      for each insert, update, delete and truncate message, in order, each
      saying what its message says. Nothing else adds a change. */
  lemma EveryMessageIsOneChange(parse: Parser, es: seq<Event>, s: State, batches: seq<Batch>) returns (at: seq<nat>)
    requires Run(parse, es) == Ok((s, batches))
    ensures ListsMessages(parse, es, |es|, at)
    ensures ChangesMatch(parse, es, at, AllChanges(batches) + Undelivered(s))
  {
    forall i | 0 <= i < |es|
      ensures Says(parse, RelationsAfter(parse, es[..i]), es[i]).Ok?
    {
      AcceptedMessages(parse, es, i);
    }
    NoChangeLost(parse, es, s, batches);
    at := MessagesOf(parse, es, |es|);
  }

  // ------------------------------------------------------------------
  // Refusals
  // ------------------------------------------------------------------

  /** The relation ids a row message refers to. */
  function Mentioned(wal: Wal): seq<U32> {
    match wal
    case Insert(id, _) => [id]
    case Update(id, _, _) => [id]
    case Delete(id, _) => [id]
    case Truncate(ids) => ids
    case _ => []
  }

  /** The first mentioned id without a description. */
  ghost predicate FirstMissing(relations: Relations, ids: seq<U32>, id: U32) {
    exists n | 0 <= n < |ids| :: ids[n] == id && id !in relations && forall m | 0 <= m < n :: ids[m] in relations
  }

  ghost predicate AllDescribed(relations: Relations, ids: seq<U32>) {
    forall n | 0 <= n < |ids| :: ids[n] in relations
  }

  /** An update or delete of a described relation with an unknown replica identity. */
  predicate BadIdentity(relations: Relations, wal: Wal, id: U32) {
    (wal.Update? || wal.Delete?) && wal.id == id && id in relations && relations[id].identity.None?
  }

  lemma {:induction false} TableNamesFail(relations: Relations, ids: seq<U32>)
    ensures TableNames(relations, ids).Err? ==>
              TableNames(relations, ids).error.MissingRelation? && FirstMissing(relations, ids, TableNames(relations, ids).error.id)
  {
    if ids != [] && ids[0] in relations {
      TableNamesFail(relations, ids[1..]);
      if TableNames(relations, ids[1..]).Err? {
        var id := TableNames(relations, ids[1..]).error.id;
        var n :| 0 <= n < |ids[1..]| && ids[1..][n] == id && id !in relations && forall m | 0 <= m < n :: ids[1..][m] in relations;
        assert ids[n + 1] == id && forall m | 0 <= m < n + 1 :: ids[m] in relations;
      }
    }
  }

  /** When a message is refused, and why: it does not parse, is of an unsupported
      kind, mentions a relation never described (the first such is named), or is
      an update or delete under an unknown replica identity. Otherwise a row
      message is refused exactly when no transaction is open. */
  lemma MessageRefusedIff(parse: Parser, s: State, walEnd: U64, payload: string)
    ensures var r, wal := Step(parse, s, XLogData(walEnd, payload)), parse(payload);
            && (r == Err(Malformed) <==> wal.None?)
            && (r == Err(UnsupportedMessage) <==> wal == Some(Unsupported))
            && (forall id :: r == Err(MissingRelation(id)) <==> wal.Some? && FirstMissing(s.relations, Mentioned(wal.value), id))
            && (forall id :: r == Err(InvalidReplicaIdentity(id)) <==> wal.Some? && BadIdentity(s.relations, wal.value, id))
            && (r == Err(ChangeOutsideTransaction) <==>
                  && RowMessage(parse, XLogData(walEnd, payload)) && s.transaction.None? && AllDescribed(s.relations, Mentioned(wal.value))
                  && forall id :: !BadIdentity(s.relations, wal.value, id))
            && (r.Ok? <==>
                  && wal.Some? && !wal.value.Unsupported? && AllDescribed(s.relations, Mentioned(wal.value))
                  && (forall id :: !BadIdentity(s.relations, wal.value, id))
                  && (RowMessage(parse, XLogData(walEnd, payload)) ==> s.transaction.Some?))
  {
    if parse(payload).Some? {
      var wal := parse(payload).value;
      if wal.Truncate? {
        TableNamesAre(s.relations, wal.ids);
        TableNamesFail(s.relations, wal.ids);
      } else if Mentioned(wal) != [] {
        assert Mentioned(wal)[0] == wal.id;
      }
      FirstMissingIsOne(s.relations, Mentioned(wal));
    }
  }

  lemma FirstMissingIsOne(relations: Relations, ids: seq<U32>)
    ensures forall i, j | FirstMissing(relations, ids, i) && FirstMissing(relations, ids, j) :: i == j
    ensures AllDescribed(relations, ids) ==> forall i :: !FirstMissing(relations, ids, i)
  {
  }

  /** Framing is refused exactly when a Begin finds a transaction open or a
      Commit finds none; other events are never refused. */
  lemma FramingRefusedIff(parse: Parser, s: State, e: Event)
    requires !e.XLogData?
    ensures Step(parse, s, e).Err? <==> (e.Begin? && s.transaction.Some?) || (e.Commit? && s.transaction.None?)
    ensures e.Begin? && s.transaction.Some? ==> Step(parse, s, e) == Err(BeginWhileTransactionOpen(s.transaction.value.xid, e.xid))
    ensures e.Commit? && s.transaction.None? ==> Step(parse, s, e) == Err(CommitWithoutBegin(e.endLsn))
  {
  }
}
