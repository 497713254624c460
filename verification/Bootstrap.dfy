/** The crash-safe initial snapshot: ownership of the replication slot, the
    batch loop over the exported snapshot, and the completion marker. */
module Bootstrap {
  import opened Common

  type Row = string

  /** What creating a slot with an exported snapshot returns: its consistent
      point and the rows of each source table visible there. */
  datatype Exported = Exported(point: U64, tables: seq<seq<Row>>)

  /** `matches`: a logical pgoutput slot of the current database. */
  datatype Slot = Slot(active: bool, matches: bool, exported: Exported)

  datatype Outcome = Completed | Refused | Crashed

  /** The rows of a table, tagged with the table they belong to. */
  function Tagged(table: nat, rows: seq<Row>): seq<(nat, Row)> {
    seq(|rows|, i requires 0 <= i < |rows| => (table, rows[i]))
  }

  /** The rows of the first `n` tables, in scan order. */
  function Scanned(tables: seq<seq<Row>>, n: nat): seq<(nat, Row)>
    requires n <= |tables|
  {
    if n == 0 then [] else Scanned(tables, n - 1) + Tagged(n - 1, tables[n - 1])
  }

  /** Batches of at most `size` rows needed for `n` rows. */
  function BatchesFor(n: nat, size: nat): nat
    requires size > 0
  {
    if n == 0 then 0 else if n <= size then 1 else 1 + BatchesFor(n - size, size)
  }

  function BatchesOf(tables: seq<seq<Row>>, n: nat, size: nat): nat
    requires n <= |tables| && size > 0
  {
    if n == 0 then 0 else BatchesOf(tables, n - 1, size) + BatchesFor(|tables[n - 1]|, size)
  }

  /** PostgreSQL's slot and the MDBX store as the bootstrap sees them. The
      process dies before its next effect once `power` reaches zero. */
  class BootstrapState {
    const intentOf: string -> string
    var slot: Option<Slot>
    var intent: Option<string>
    var complete: Option<string>
    var durable: Option<U64>
    var rows: seq<(nat, Row)>
    var power: nat

    constructor (intents: string -> string, existing: Option<Slot>)
      ensures intentOf == intents && slot == existing && Valid()
      ensures intent.None? && complete.None? && durable.None? && rows == []
      ensures existing.None? ==> forall identity :: Recoverable(identity)
    {
      intentOf := intents;
      slot := existing;
      intent, complete, durable, rows, power := None, None, None, [], 0;
    }

    /** The stored rows are exactly those of the slot's exported snapshot, durable at its point. */
    ghost predicate HoldsSnapshot()
      reads this
    {
      && slot.Some? && slot.value.matches
      && rows == Scanned(slot.value.exported.tables, |slot.value.exported.tables|)
      && durable == Some(slot.value.exported.point)
    }

    /** The complete marker is only ever set over a whole snapshot. */
    ghost predicate Valid()
      reads this
    {
      complete.Some? ==> HoldsSnapshot() && intent.None?
    }

    /** A bootstrap of `identity` can be started, resumed or has been completed. */
    ghost predicate Recoverable(identity: string)
      reads this
    {
      || complete == Some(identity)
      || (&& complete.None?
          && (intent == Some(intentOf(identity)) || (intent.None? && slot.None?))
          && (slot.Some? ==> slot.value.matches))
    }

    /** The checks made before anything is changed. */
    ghost predicate Accepts(identity: string, enabled: bool)
      reads this
    {
      if complete.Some? then complete == Some(identity)
      else
        && enabled
        && (intent.None? ==> slot.None?)
        && (intent.Some? ==> intent == Some(intentOf(identity)))
        && (slot.Some? ==> !slot.value.active && slot.value.matches)
    }

    /** The exporting session of a dead process ends. */
    method Disconnect()
      requires Valid()
      modifies this`slot
      ensures Valid() && slot.Some? == old(slot).Some?
      ensures slot.Some? ==> slot.value == old(slot).value.(active := false)
      ensures forall identity :: old(Recoverable(identity)) ==> Recoverable(identity)
    {
      if slot.Some? {
        slot := Some(slot.value.(active := false));
      }
    }

    /** Drop an interrupted slot of ours, then clear the store and record the
        intent in one transaction. */
    method Reconcile(identity: string) returns (outcome: Outcome)
      requires Valid() && complete.None?
      modifies this`slot, this`intent, this`durable, this`rows, this`power
      ensures outcome.Refused? <==> !old(Accepts(identity, true))
      ensures outcome.Refused? ==> unchanged(this)
      ensures outcome.Completed? ==> slot.None? && intent == Some(intentOf(identity)) && rows == [] && durable.None?
      ensures outcome.Completed? ==> power == old(power) - old(if slot.Some? then 2 else 1)
      ensures outcome.Crashed? ==> old(power) < old(if slot.Some? then 2 else 1)
      ensures outcome.Crashed? ==> slot in {None, old(slot)} && intent == old(intent) && rows == old(rows)
      ensures old(Recoverable(identity)) ==> Recoverable(identity)
    {
      if intent.None? && slot.Some? {
        return Refused;
      }
      if intent.Some? && intent.value != intentOf(identity) {
        return Refused;
      }
      if slot.Some? {
        if slot.value.active || !slot.value.matches {
          return Refused;
        }
        if power == 0 {
          return Crashed;
        }
        slot, power := None, power - 1;
      }
      if power == 0 {
        return Crashed;
      }
      intent, durable, rows, power := Some(intentOf(identity)), None, [], power - 1;
      outcome := Completed;
    }

    /** Scan one table in batches, each persisted in its own transaction at LSN zero. */
    method ScanTable(table: nat, source: seq<Row>, size: nat) returns (survived: bool, batches: nat)
      requires size > 0
      modifies this`rows, this`durable, this`power
      ensures survived <==> BatchesFor(|source|, size) <= old(power)
      ensures survived ==> rows == old(rows) + Tagged(table, source)
      ensures survived ==> batches == BatchesFor(|source|, size) && power == old(power) - batches
    {
      var pending: seq<Row> := [];
      ghost var stored: seq<Row> := [];
      batches := 0;
      for scanned := 0 to |source|
        invariant |pending| < size
        invariant stored + pending == source[..scanned] && rows == old(rows) + Tagged(table, stored)
        invariant batches + BatchesFor(|pending| + (|source| - scanned), size) == BatchesFor(|source|, size)
        invariant power == old(power) - batches
      {
        pending := pending + [source[scanned]];
        assert stored + pending == source[..scanned + 1];
        if |pending| >= size {
          BatchTaken(size, |source| - scanned - 1);
          if power == 0 {
            return false, batches;
          }
          TaggedSplits(table, stored, pending);
          PersistRows(table, pending);
          stored, pending, batches := stored + pending, [], batches + 1;
        }
      }
      assert stored + pending == source;
      if pending != [] {
        if power == 0 {
          return false, batches;
        }
        TaggedSplits(table, stored, pending);
        PersistRows(table, pending);
        batches := batches + 1;
      }
      survived := true;
    }

    method PersistRows(table: nat, batch: seq<Row>)
      requires power > 0
      modifies this`rows, this`durable, this`power
      ensures rows == old(rows) + Tagged(table, batch) && durable == Some(0) && power == old(power) - 1
    {
      rows, durable, power := rows + Tagged(table, batch), Some(0), power - 1;
    }

    method ScanTables(tables: seq<seq<Row>>, size: nat) returns (survived: bool, batches: nat)
      requires size > 0 && rows == []
      modifies this`rows, this`durable, this`power
      ensures survived <==> BatchesOf(tables, |tables|, size) <= old(power)
      ensures survived ==> rows == Scanned(tables, |tables|)
      ensures survived ==> batches == BatchesOf(tables, |tables|, size) && power == old(power) - batches
    {
      batches := 0;
      for n := 0 to |tables|
        invariant rows == Scanned(tables, n)
        invariant batches == BatchesOf(tables, n, size) && power == old(power) - batches
      {
        var alive, more := ScanTable(n, tables[n], size);
        if !alive {
          BatchesGrow(tables, n + 1, |tables|, size);
          return false, batches;
        }
        batches := batches + more;
      }
      survived := true;
    }

    /** One start of the service, up to the end of the initial snapshot. */
    method Attempt(identity: string, enabled: bool, exported: Exported, size: nat) returns (outcome: Outcome)
      requires Valid() && size > 0
      modifies this
      ensures Valid()
      ensures outcome.Refused? <==> !old(Accepts(identity, enabled))
      ensures outcome.Refused? || old(complete).Some? ==> unchanged(this)
      ensures outcome.Completed? ==> complete == Some(identity)
      ensures outcome.Completed? && old(complete).None? ==> slot.value.exported == exported
      ensures outcome.Crashed? ==> old(power) < 4 + BatchesOf(exported.tables, |exported.tables|, size)
      ensures outcome.Crashed? ==> complete.None?
      ensures old(Recoverable(identity)) ==> Recoverable(identity)
    {
      if complete.Some? {
        return if complete.value == identity then Completed else Refused;
      }
      if !enabled {
        return Refused;
      }
      outcome := Reconcile(identity);
      if !outcome.Completed? {
        return;
      }
      if power == 0 {
        return Crashed;
      }
      slot, power := Some(Slot(true, true, exported)), power - 1;
      var survived, batches := ScanTables(exported.tables, size);
      if !survived || power == 0 {
        return Crashed;
      }
      durable, complete, intent, power := Some(exported.point), Some(identity), None, power - 1;
      outcome := Completed;
    }

    /** Any sequence of starts and crashes under one identity, the slot's
        owner gone before each start: a start with power to finish completes
        whatever came before it, and completion is never undone. */
    method Restarts(identity: string, starts: seq<(Exported, nat)>, size: nat)
      requires Valid() && Recoverable(identity) && size > 0
      modifies this
      ensures Valid() && Recoverable(identity)
      ensures complete.None? || complete == Some(identity)
      ensures old(complete).Some? ==> complete.Some? && rows == old(rows) && durable == old(durable)
      ensures old(complete).Some? ==> slot.Some? && slot.value.exported == old(slot).value.exported
      ensures (exists i | 0 <= i < |starts| :: CanFinish(starts[i], size)) ==> complete == Some(identity)
      ensures old(complete).None? && complete.Some? ==> exists i | 0 <= i < |starts| :: starts[i].0 == slot.value.exported
    {
      for i := 0 to |starts|
        invariant Valid() && Recoverable(identity) && (complete.None? || complete == Some(identity))
        invariant old(complete).Some? ==> complete.Some? && rows == old(rows) && durable == old(durable)
        invariant old(complete).Some? ==> slot.Some? && slot.value.exported == old(slot).value.exported
        invariant (exists k | 0 <= k < i :: CanFinish(starts[k], size)) ==> complete.Some?
        invariant old(complete).None? && complete.Some? ==> exists k | 0 <= k < i :: starts[k].0 == slot.value.exported
      {
        Disconnect();
        power := starts[i].1;
        var outcome := Attempt(identity, true, starts[i].0, size);
      }
    }
  }

  /** A start that lives long enough for every effect it may need. */
  predicate CanFinish(start: (Exported, nat), size: nat)
    requires size > 0
  {
    start.1 >= 4 + BatchesOf(start.0.tables, |start.0.tables|, size)
  }

  lemma BatchTaken(size: nat, rest: nat)
    requires size > 0
    ensures BatchesFor(size + rest, size) == 1 + BatchesFor(rest, size)
  {
  }

  lemma TaggedSplits(table: nat, a: seq<Row>, b: seq<Row>)
    ensures forall before: seq<(nat, Row)> :: before + Tagged(table, a + b) == before + Tagged(table, a) + Tagged(table, b)
  {
  }

  lemma {:induction false} BatchesGrow(tables: seq<seq<Row>>, n: nat, m: nat, size: nat)
    requires n <= m <= |tables| && size > 0
    ensures BatchesOf(tables, n, size) <= BatchesOf(tables, m, size)
  {
    if n < m {
      BatchesGrow(tables, n, m - 1, size);
    }
  }
}
