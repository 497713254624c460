/** The replication protocol between the PostgreSQL slot, the ingest loop and
    the durable store, with crashes and restarts. */
module Ingest {
  import opened Common
  import opened Decoder
  import Lsn

  // ------------------------------------------------------------------
  // The durable store and the ingest loop
  // ------------------------------------------------------------------

  /** What MDBX keeps: the end LSN of the last commit and the applied batches. */
  datatype Store = Store(durable: U64, applied: seq<Batch>)

  /** One write transaction; a batch at or below the durable LSN is a redelivery and is skipped. */
  function Persist(s: Store, b: Batch): Store {
    if b.endLsn <= s.durable then s else Store(b.endLsn, s.applied + [b])
  }

  function PersistAll(s: Store, bs: seq<Batch>): Store {
    if bs == [] then s else Persist(PersistAll(s, bs[..|bs| - 1]), bs[|bs| - 1])
  }

  class IngestLoop {
    const decoder: BatchDecoder
    var store: Store
    var acknowledged: Option<U64>

    ghost predicate Valid()
      reads this
    {
      acknowledged.Some? ==> acknowledged.value <= store.durable
    }

    constructor (parser: Parser, initial: Store)
      ensures Valid() && store == initial && acknowledged.None?
      ensures fresh(decoder) && decoder.parse == parser && Run(parser, []) == Ok((decoder.Value(), []))
    {
      decoder := new BatchDecoder(parser);
      store := initial;
      acknowledged := None;
    }

    method PersistBatch(b: Batch)
      modifies this`store
      ensures store == Persist(old(store), b) && b.endLsn <= store.durable && old(store.durable) <= store.durable
    {
      if b.endLsn > store.durable {
        store := Store(b.endLsn, store.applied + [b]);
      }
    }

    /** One turn: decode, persist what a commit completes, only then acknowledge it. */
    method Receive(event: Event) returns (failed: Option<Error>)
      requires Valid()
      modifies this, decoder
      ensures Valid()
      ensures match Step(decoder.parse, old(decoder.Value()), event)
              case Ok((d, b)) => failed.None? && decoder.Value() == d && store == PersistAll(old(store), Emitted(b))
              case Err(e) => failed == Some(e) && decoder.Value() == old(decoder.Value()) && store == old(store)
    {
      var decoded := decoder.PushStreamEvent(event);
      if decoded.Err? {
        return Some(decoded.error);
      }
      if decoded.value.Some? {
        PersistBatch(decoded.value.value);
        acknowledged := Some(decoded.value.value.endLsn);
      }
      failed := None;
    }

    /** One more turn after `before`. */
    method Take(event: Event, ghost before: seq<Event>, ghost initial: Store) returns (failed: Option<Error>)
      requires Valid() && Absorbed(before, initial)
      modifies this, decoder
      ensures Valid() && Absorbed(if failed.None? then before + [event] else before, initial)
      ensures failed.Some? ==> Step(decoder.parse, decoder.Value(), event) == Err(failed.value)
    {
      ghost var batches, decoded := Run(decoder.parse, before).value.1, Step(decoder.parse, decoder.Value(), event);
      RunExtends(decoder.parse, before, event);
      failed := Receive(event);
      if failed.None? {
        PersistAllChains(initial, batches, decoded.value.1);
      }
    }

    /** Receive until the stream ends or an event is refused. Only durable LSNs
        are acknowledged, and the store holds exactly the batches of the events taken. */
    method Drive(events: seq<Event>) returns (taken: nat, failed: Option<Error>)
      requires Valid() && Run(decoder.parse, []) == Ok((decoder.Value(), []))
      modifies this, decoder
      ensures Valid() && taken <= |events| && Absorbed(events[..taken], old(store))
      ensures failed.None? ==> taken == |events|
      ensures failed.Some? ==> taken < |events| && Step(decoder.parse, decoder.Value(), events[taken]) == Err(failed.value)
    {
      taken := 0;
      while taken < |events|
        invariant Valid() && taken <= |events| && Absorbed(events[..taken], old(store))
      {
        assert events[..taken + 1] == events[..taken] + [events[taken]];
        failed := Take(events[taken], events[..taken], old(store));
        if failed.Some? {
          return;
        }
        taken := taken + 1;
      }
      failed := None;
    }

    /** The loop stands where the events taken so far lead from `initial`. */
    ghost predicate Absorbed(events: seq<Event>, initial: Store)
      reads this, decoder
    {
      var r := Run(decoder.parse, events);
      r.Ok? && r.value.0 == decoder.Value() && store == PersistAll(initial, r.value.1)
    }
  }

  lemma PersistAllChains(s: Store, bs: seq<Batch>, b: Option<Batch>)
    ensures PersistAll(s, bs + Emitted(b)) == PersistAll(PersistAll(s, bs), Emitted(b))
  {
    if b.Some? {
      assert (bs + [b.value])[..|bs|] == bs;
    } else {
      assert bs + [] == bs;
    }
  }

  // ------------------------------------------------------------------
  // Source transactions on the wire
  // ------------------------------------------------------------------

  datatype Txn = Txn(xid: U32, finalLsn: U64, beginTime: int, commitLsn: U64, endLsn: U64, commitTime: int, changes: seq<Change>)

  function TxnOf(b: Batch): Txn {
    Txn(b.xid, b.finalLsn, b.beginTime, b.commitLsn, b.endLsn, b.commitTime, b.changes)
  }

  function TxnsOf(bs: seq<Batch>): seq<Txn> {
    seq(|bs|, i requires 0 <= i < |bs| => TxnOf(bs[i]))
  }

  function CommitOf(t: Txn): Event {
    Commit(t.commitLsn, t.endLsn, t.commitTime)
  }

  /** The messages of one transaction; relation descriptions may be interleaved in `body`. */
  function Wire(t: Txn, body: seq<Event>): seq<Event> {
    [Begin(t.finalLsn, t.xid, t.beginTime)] + (body + [CommitOf(t)])
  }

  /** The changes a transaction body describes to a receiver that knows `relations`. */
  function Reads(parse: Parser, relations: Relations, body: seq<Event>): Option<seq<Change>>
    decreases |body|
  {
    if body == [] then Some([])
    else if body[0].Begin? || body[0].Commit? || Says(parse, relations, body[0]).Err? then None
    else match Reads(parse, Learn(parse, relations, body[0]), body[1..])
      case None => None
      case Some(changes) => Some(Carried(parse, relations, body[0]) + changes)
  }

  /** The decoder fed some messages: where it ends and the batches it gives. */
  function Fed(parse: Parser, s: State, es: seq<Event>): Result<(State, seq<Batch>), Error>
    decreases |es|
  {
    if es == [] then Ok((s, []))
    else match Step(parse, s, es[0])
      case Err(e) => Err(e)
      case Ok((s', b)) =>
        match Fed(parse, s', es[1..])
        case Err(e) => Err(e)
        case Ok((s'', bs)) => Ok((s'', Emitted(b) + bs))
  }

  /** The decoder gave one batch, the transaction `t`. */
  predicate Gives(fed: Result<(State, seq<Batch>), Error>, t: Txn) {
    fed.Ok? && |fed.value.1| == 1 && TxnOf(fed.value.1[0]) == t
  }

  predicate Framing(e: Event) {
    e.Begin? || e.Commit?
  }

  lemma {:induction false} ReadsUnframed(parse: Parser, relations: Relations, body: seq<Event>)
    requires Reads(parse, relations, body).Some?
    ensures forall i | 0 <= i < |body| :: !Framing(body[i])
    decreases |body|
  {
    if body != [] {
      ReadsUnframed(parse, Learn(parse, relations, body[0]), body[1..]);
      forall i | 0 <= i < |body| ensures !Framing(body[i]) {
        assert i > 0 ==> body[i] == body[1..][i - 1];
      }
    }
  }

  /** A message inside an open transaction only adds what it carries. */
  lemma FedInside(parse: Parser, relations: Relations, open: Open, es: seq<Event>)
    requires es != [] && !Framing(es[0])
    ensures Says(parse, relations, es[0]).Err? ==> Fed(parse, State(relations, Some(open)), es).Err?
    ensures Says(parse, relations, es[0]).Ok? ==>
              var inside := open.(changes := open.changes + Carried(parse, relations, es[0]));
              Fed(parse, State(relations, Some(open)), es) == Fed(parse, State(Learn(parse, relations, es[0]), Some(inside)), es[1..])
  {
    var e := es[0];
    assert open.changes + [] == open.changes;
    if Says(parse, relations, e).Ok? {
      var inside := State(Learn(parse, relations, e), Some(open.(changes := open.changes + Carried(parse, relations, e))));
      assert Step(parse, State(relations, Some(open)), e) == Ok((inside, None));
      var fed := Fed(parse, inside, es[1..]);
      assert fed.Ok? ==> [] + fed.value.1 == fed.value.1;
    }
  }

  /** The body of an open transaction and its commit, as the decoder takes them. */
  lemma {:induction false} FedBody(parse: Parser, relations: Relations, open: Open, t: Txn, body: seq<Event>)
    requires forall i | 0 <= i < |body| :: !Framing(body[i])
    ensures var fed := Fed(parse, State(relations, Some(open)), body + [CommitOf(t)]);
            var read := Reads(parse, relations, body);
            if read.None? then fed.Err?
            else Gives(fed, Txn(open.xid, open.finalLsn, open.time, t.commitLsn, t.endLsn, t.commitTime, open.changes + read.value))
    decreases |body|
  {
    var events := body + [CommitOf(t)];
    if body == [] {
      assert events[1..] == [] && open.changes + [] == open.changes;
    } else {
      assert events[0] == body[0] && events[1..] == body[1..] + [CommitOf(t)];
      var carried := Carried(parse, relations, body[0]);
      FedInside(parse, relations, open, events);
      FedBody(parse, Learn(parse, relations, body[0]), open.(changes := open.changes + carried), t, body[1..]);
      var rest := Reads(parse, Learn(parse, relations, body[0]), body[1..]);
      assert rest.Some? ==> open.changes + carried + rest.value == open.changes + (carried + rest.value);
    }
  }

  /** A body may be sent for a transaction iff the decoder makes exactly that transaction of it. */
  lemma WireIsDecodedIff(parse: Parser, relations: Relations, t: Txn, body: seq<Event>)
    ensures Reads(parse, relations, body) == Some(t.changes) <==>
            (forall i | 0 <= i < |body| :: !Framing(body[i])) && Gives(Fed(parse, State(relations, None), Wire(t, body)), t)
  {
    var read := Reads(parse, relations, body);
    if read.Some? {
      ReadsUnframed(parse, relations, body);
      assert [] + read.value == read.value;
    }
    if forall i | 0 <= i < |body| :: !Framing(body[i]) {
      var open := Open(t.xid, t.finalLsn, t.beginTime, []);
      FedBody(parse, relations, open, t, body);
      assert Wire(t, body)[1..] == body + [CommitOf(t)];
      var fed := Fed(parse, State(relations, Some(open)), body + [CommitOf(t)]);
      assert fed.Ok? ==> [] + fed.value.1 == fed.value.1;
    }
  }

  // ------------------------------------------------------------------
  // The protocol
  // ------------------------------------------------------------------

  /** What the loop holds between decoding a commit and acknowledging it. */
  datatype Hand = Waiting | Decoded(batch: Batch) | Durable(batch: Batch)

  /** A live connection: transactions sent so far, messages of the last one still under way. */
  datatype Link = Link(next: nat, pending: seq<Event>, decoder: State, hand: Hand, acked: U64)

  /** `base` is the slot's consistent point; `source` the transactions committed after it. */
  datatype World = World(base: U64, source: seq<Txn>, confirmed: U64, store: Store, link: Option<Link>)

  datatype Move =
    | SourceCommits(txn: Txn)
    | Connects(from: nat)
    | Sends(body: seq<Event>)
    | Receives
    | Persists
    | Acknowledges
    | Confirms
    | Crashes

  /** The slot check made before streaming resumes. */
  predicate SlotContinues(w: World) {
    w.confirmed <= w.store.durable
  }

  /** The server may resume at or before the first transaction past both LSNs it knows. */
  ghost predicate MayResume(w: World, from: nat) {
    from <= |w.source| && forall k | 0 <= k < from :: w.source[k].endLsn <= Max(w.confirmed, w.store.durable)
  }

  ghost predicate Enabled(parse: Parser, w: World, m: Move) {
    match m
    case SourceCommits(t) => t.endLsn > w.base && forall k | 0 <= k < |w.source| :: w.source[k].endLsn < t.endLsn
    case Connects(from) => w.link.None? && SlotContinues(w) && MayResume(w, from)
    case Sends(body) =>
      w.link.Some? && w.link.value.pending == [] && w.link.value.hand.Waiting? && w.link.value.next < |w.source|
      && Reads(parse, w.link.value.decoder.relations, body) == Some(w.source[w.link.value.next].changes)
    case Receives => w.link.Some? && w.link.value.pending != [] && w.link.value.hand.Waiting?
    case Persists => w.link.Some? && w.link.value.hand.Decoded?
    case Acknowledges => w.link.Some? && w.link.value.hand.Durable?
    case Confirms => w.link.Some?
    case Crashes => true
  }

  ghost function Moved(parse: Parser, w: World, m: Move): World
    requires Enabled(parse, w, m)
  {
    match m
    case SourceCommits(t) => w.(source := w.source + [t])
    case Connects(from) => w.(link := Some(Link(from, [], State(map[], None), Waiting, w.base)))
    case Sends(body) =>
      var l := w.link.value;
      w.(link := Some(l.(next := l.next + 1, pending := Wire(w.source[l.next], body))))
    case Receives =>
      var l := w.link.value;
      (match Step(parse, l.decoder, l.pending[0])
       case Err(_) => w.(link := None)
       case Ok((d, b)) => w.(link := Some(l.(pending := l.pending[1..], decoder := d,
                                             hand := if b.None? then Waiting else Decoded(b.value)))))
    case Persists =>
      var l := w.link.value;
      w.(store := Persist(w.store, l.hand.batch), link := Some(l.(hand := Durable(l.hand.batch))))
    case Acknowledges =>
      var l := w.link.value;
      w.(link := Some(l.(acked := l.hand.batch.endLsn, hand := Waiting)))
    case Confirms => w.(confirmed := Max(w.confirmed, w.link.value.acked))
    case Crashes => w.(link := None)
  }

  /** A history of moves; a move that is not possible where it stands is passed over. */
  ghost function History(parse: Parser, w: World, moves: seq<Move>): World {
    if moves == [] then w else
      var w' := History(parse, w, moves[..|moves| - 1]);
      if Enabled(parse, w', moves[|moves| - 1]) then Moved(parse, w', moves[|moves| - 1]) else w'
  }

  /** A completed bootstrap: nothing streamed yet, the slot at its consistent point. */
  predicate Fresh(w: World) {
    w.source == [] && w.confirmed == w.base && w.store == Store(w.base, []) && w.link.None?
  }

  // ------------------------------------------------------------------
  // Invariant
  // ------------------------------------------------------------------

  ghost predicate Increasing(base: U64, source: seq<Txn>) {
    && (forall i | 0 <= i < |source| :: base < source[i].endLsn)
    && (forall i, j | 0 <= i < j < |source| :: source[i].endLsn < source[j].endLsn)
  }

  /** The store is a prefix of the source, and the durable LSN is its last end. */
  ghost predicate StoresPrefix(w: World) {
    var n := |w.store.applied|;
    && n <= |w.source| && TxnsOf(w.store.applied) == w.source[..n]
    && w.store.durable == if n == 0 then w.base else w.source[n - 1].endLsn
  }

  /** `pending` is a whole transaction `t`, not begun. */
  ghost predicate Announces(parse: Parser, d: State, pending: seq<Event>, t: Txn, body: seq<Event>) {
    d.transaction.None? && pending == Wire(t, body) && Reads(parse, d.relations, body) == Some(t.changes)
  }

  /** `pending` is what is left of the transaction `t` that the decoder has open. */
  ghost predicate Continues(parse: Parser, d: State, pending: seq<Event>, t: Txn, body: seq<Event>) {
    && d.transaction.Some? && pending == body + [CommitOf(t)] && Reads(parse, d.relations, body).Some?
    && d.transaction.value == Open(t.xid, t.finalLsn, t.beginTime, d.transaction.value.changes)
    && d.transaction.value.changes + Reads(parse, d.relations, body).value == t.changes
  }

  /** The messages under way complete exactly the transaction `t`. */
  ghost predicate Completes(parse: Parser, d: State, pending: seq<Event>, t: Txn) {
    exists body :: Announces(parse, d, pending, t, body) || Continues(parse, d, pending, t, body)
  }

  ghost predicate LinkSound(parse: Parser, w: World, l: Link) {
    && l.next <= |w.source| && l.acked <= w.store.durable
    && match l.hand
       case Waiting =>
         if l.pending == [] then l.next <= |w.store.applied| && l.decoder.transaction.None?
         else 0 < l.next <= |w.store.applied| + 1 && Completes(parse, l.decoder, l.pending, w.source[l.next - 1])
       case Decoded(b) =>
         l.pending == [] && l.decoder.transaction.None? && 0 < l.next <= |w.store.applied| + 1 && TxnOf(b) == w.source[l.next - 1]
       case Durable(b) =>
         l.pending == [] && l.decoder.transaction.None? && l.next <= |w.store.applied| && b.endLsn <= w.store.durable
  }

  ghost predicate Sound(parse: Parser, w: World) {
    && Increasing(w.base, w.source) && StoresPrefix(w) && w.confirmed <= w.store.durable
    && (w.link.Some? ==> LinkSound(parse, w, w.link.value))
  }

  /** What one received message must lead to: more of `t`, or `t` itself. */
  ghost predicate OnCourse(parse: Parser, r: Result<(State, Option<Batch>), Error>, rest: seq<Event>, t: Txn) {
    && r.Ok?
    && match r.value.1
       case None => rest != [] && Completes(parse, r.value.0, rest, t)
       case Some(b) => rest == [] && TxnOf(b) == t && r.value.0.transaction.None?
  }

  lemma ReceiveBegin(parse: Parser, d: State, pending: seq<Event>, t: Txn, body: seq<Event>)
    requires Announces(parse, d, pending, t, body)
    ensures OnCourse(parse, Step(parse, d, pending[0]), pending[1..], t)
  {
    assert pending[1..] == body + [CommitOf(t)];
    assert [] + t.changes == t.changes;
    assert Continues(parse, Step(parse, d, pending[0]).value.0, pending[1..], t, body);
  }

  lemma ReceiveCommit(parse: Parser, d: State, pending: seq<Event>, t: Txn)
    requires Continues(parse, d, pending, t, [])
    ensures OnCourse(parse, Step(parse, d, pending[0]), pending[1..], t)
  {
  }

  lemma ReceiveBody(parse: Parser, d: State, pending: seq<Event>, t: Txn, body: seq<Event>)
    requires Continues(parse, d, pending, t, body) && body != []
    ensures OnCourse(parse, Step(parse, d, pending[0]), pending[1..], t)
  {
    var e, open := body[0], d.transaction.value;
    assert pending[0] == e && pending[1..] == body[1..] + [CommitOf(t)];
    var carried, rest := Carried(parse, d.relations, e), Reads(parse, Learn(parse, d.relations, e), body[1..]).value;
    var d' := Step(parse, d, e).value.0;
    StepKeepsChanges(parse, d, e, d', None);
    assert d'.transaction.value.changes == open.changes + carried;
    assert open.changes + carried + rest == open.changes + (carried + rest);
    assert Continues(parse, d', pending[1..], t, body[1..]);
  }

  /** Receiving one message of the transaction under way keeps it on course. */
  lemma ReceiveCompletes(parse: Parser, d: State, pending: seq<Event>, t: Txn)
    requires pending != [] && Completes(parse, d, pending, t)
    ensures OnCourse(parse, Step(parse, d, pending[0]), pending[1..], t)
  {
    var body :| Announces(parse, d, pending, t, body) || Continues(parse, d, pending, t, body);
    if d.transaction.None? {
      ReceiveBegin(parse, d, pending, t, body);
    } else if body == [] {
      ReceiveCommit(parse, d, pending, t);
    } else {
      ReceiveBody(parse, d, pending, t, body);
    }
  }

  /** Persisting the transaction in hand extends the stored prefix by it, or
      recognises a redelivery. */
  lemma PersistKeepsPrefix(w: World, i: nat, b: Batch)
    requires Increasing(w.base, w.source) && StoresPrefix(w) && i < |w.source| && i <= |w.store.applied| && TxnOf(b) == w.source[i]
    ensures StoresPrefix(w.(store := Persist(w.store, b)))
    ensures w.store.durable <= Persist(w.store, b).durable && b.endLsn <= Persist(w.store, b).durable
    ensures i + 1 <= |Persist(w.store, b).applied|
  {
  }

  /** A resumed stream starts at or before the first transaction not stored. */
  lemma ResumeLeavesNoGap(w: World, from: nat)
    requires Increasing(w.base, w.source) && StoresPrefix(w) && SlotContinues(w) && MayResume(w, from)
    ensures from <= |w.store.applied|
  {
    var n := |w.store.applied|;
    assert n < |w.source| ==> w.store.durable < w.source[n].endLsn;
  }

  lemma MoveKeepsSound(parse: Parser, w: World, m: Move)
    requires Sound(parse, w) && Enabled(parse, w, m)
    ensures Sound(parse, Moved(parse, w, m))
  {
    var w' := Moved(parse, w, m);
    match m {
      case SourceCommits(t) =>
        assert w'.source[..|w.store.applied|] == w.source[..|w.store.applied|];
      case Connects(from) =>
        ResumeLeavesNoGap(w, from);
      case Sends(body) =>
        var l := w.link.value;
        assert Announces(parse, l.decoder, w'.link.value.pending, w.source[l.next], body);
      case Receives =>
        var l := w.link.value;
        ReceiveCompletes(parse, l.decoder, l.pending, w.source[l.next - 1]);
      case Persists =>
        var l := w.link.value;
        PersistKeepsPrefix(w, l.next - 1, l.hand.batch);
      case Acknowledges =>
      case Confirms =>
      case Crashes =>
    }
  }

  lemma {:induction false} HistoryIsSound(parse: Parser, w: World, moves: seq<Move>)
    requires Fresh(w)
    ensures Sound(parse, History(parse, w, moves))
    decreases |moves|
  {
    if moves == [] {
      assert TxnsOf([]) == w.source[..0];
    } else {
      var n := |moves| - 1;
      HistoryIsSound(parse, w, moves[..n]);
      var w' := History(parse, w, moves[..n]);
      if Enabled(parse, w', moves[n]) {
        MoveKeepsSound(parse, w', moves[n]);
      }
    }
  }

  // ------------------------------------------------------------------
  // No lost transaction
  // ------------------------------------------------------------------

  /** The source transactions that end at or below an LSN. */
  function UpTo(source: seq<Txn>, lsn: U64): seq<Txn> {
    if source == [] then [] else
      UpTo(source[..|source| - 1], lsn)
        + (if source[|source| - 1].endLsn <= lsn then [source[|source| - 1]] else [])
  }

  lemma {:induction false} UpToPrefix(source: seq<Txn>, n: nat, lsn: U64)
    requires n <= |source|
    requires forall i | 0 <= i < |source| :: source[i].endLsn <= lsn <==> i < n
    ensures UpTo(source, lsn) == source[..n]
    decreases |source|
  {
    if source != [] {
      var m := |source| - 1;
      var front := source[..m];
      assert forall i | 0 <= i < m :: front[i] == source[i];
      if n <= m {
        UpToPrefix(front, n, lsn);
        assert front[..n] == source[..n] && front[..n] + [] == front[..n];
      } else {
        UpToPrefix(front, m, lsn);
        assert front[..m] == front && source[..n] == front + [source[m]];
      }
    }
  }

  /** After every history of commits, deliveries, redeliveries, persists,
      acknowledgements, crashes and restarts, the slot has confirmed nothing that
      is not durable, and the store holds exactly the source transactions up to
      the durable LSN, each once and in order. */
  lemma NoLostTransaction(parse: Parser, w: World, moves: seq<Move>)
    requires Fresh(w)
    ensures var w' := History(parse, w, moves);
            w'.confirmed <= w'.store.durable && TxnsOf(w'.store.applied) == UpTo(w'.source, w'.store.durable)
  {
    HistoryIsSound(parse, w, moves);
    var w' := History(parse, w, moves);
    UpToPrefix(w'.source, |w'.store.applied|, w'.store.durable);
  }

  /** The replication slot as the server lists it; positions in their text form. */
  datatype Slot = Slot(plugin: Option<string>, kind: string, database: Option<string>, active: bool,
                       confirmed: Option<string>, restart: Option<string>)

  datatype SlotError = Missing | Mismatched | AlreadyActive | Unreadable | Ahead

  predicate Ours(s: Slot, database: string) {
    s.plugin == Some("pgoutput") && s.kind == "logical" && s.database == Some(database)
  }

  /** A listed position must be readable and not ahead of the durable LSN. */
  function CheckPosition(text: Option<string>, durable: U64): Option<SlotError> {
    if text.None? then None
    else match Lsn.Parse(text.value)
      case None => Some(Unreadable)
      case Some(lsn) => if lsn > durable then Some(Ahead) else None
  }

  /** A position that is not listed, or reads as an LSN at or below the durable one. */
  predicate Within(text: Option<string>, durable: U64) {
    text.Some? ==> Lsn.Parse(text.value).Some? && Lsn.Parse(text.value).value <= durable
  }

  predicate Garbled(text: Option<string>) {
    text.Some? && Lsn.Parse(text.value).None?
  }

  predicate Past(text: Option<string>, durable: U64) {
    text.Some? && Lsn.Parse(text.value).Some? && Lsn.Parse(text.value).value > durable
  }

  /** The slot is the service's own and nobody streams from it. */
  predicate Free(slot: Option<Slot>, database: string) {
    && slot.Some? && slot.value.plugin == Some("pgoutput") && slot.value.kind == "logical"
    && slot.value.database == Some(database) && !slot.value.active
  }

  /** The check of an existing slot before streaming resumes: it accepts a slot
      of ours that is not in use and whose positions are readable and not ahead
      of the durable LSN, and nothing else. The confirmed position is looked at
      before the restart position. */
  method ValidateSlot(slot: Option<Slot>, database: string, durable: U64) returns (refused: Option<SlotError>)
    ensures refused == SlotRefusal(slot, database, durable)
    ensures refused.None? <==> Free(slot, database) && Within(slot.value.confirmed, durable) && Within(slot.value.restart, durable)
    ensures refused == Some(Missing) <==> slot.None?
    ensures refused == Some(Mismatched) <==>
              slot.Some? && !(slot.value.plugin == Some("pgoutput") && slot.value.kind == "logical" && slot.value.database == Some(database))
    ensures refused == Some(AlreadyActive) <==> slot.Some? && slot.value.active && Free(Some(slot.value.(active := false)), database)
    ensures refused == Some(Unreadable) <==>
              Free(slot, database) && (Garbled(slot.value.confirmed) || (Within(slot.value.confirmed, durable) && Garbled(slot.value.restart)))
    ensures refused == Some(Ahead) <==>
              Free(slot, database)
              && (Past(slot.value.confirmed, durable) || (Within(slot.value.confirmed, durable) && Past(slot.value.restart, durable)))
  {
    if slot.None? {
      return Some(Missing);
    }
    var s := slot.value;
    if s.plugin != Some("pgoutput") || s.kind != "logical" || s.database != Some(database) {
      return Some(Mismatched);
    }
    if s.active {
      return Some(AlreadyActive);
    }
    var positions := [s.confirmed, s.restart];
    for i := 0 to 2
      invariant i > 0 ==> CheckPosition(s.confirmed, durable).None?
      invariant i > 1 ==> CheckPosition(s.restart, durable).None?
    {
      refused := CheckPosition(positions[i], durable);
      if refused.Some? {
        return;
      }
    }
    refused := None;
  }

  /** Why the check refuses, if it does. */
  function SlotRefusal(slot: Option<Slot>, database: string, durable: U64): Option<SlotError> {
    if slot.None? then Some(Missing)
    else if !Ours(slot.value, database) then Some(Mismatched)
    else if slot.value.active then Some(AlreadyActive)
    else if CheckPosition(slot.value.confirmed, durable).Some? then CheckPosition(slot.value.confirmed, durable)
    else CheckPosition(slot.value.restart, durable)
  }

  /** The check guards the protocol: a slot that lists its confirmed position is
      refused as ahead if that is above the durable LSN, and accepted only if
      streaming may continue. */
  lemma SlotCheckGuards(w: World, slot: Slot, database: string)
    requires slot.confirmed == Some(Lsn.Print(w.confirmed))
    ensures SlotRefusal(Some(slot), database, w.store.durable).None? ==> SlotContinues(w)
    ensures Free(Some(slot), database) ==> (!SlotContinues(w) ==> SlotRefusal(Some(slot), database, w.store.durable) == Some(Ahead))
  {
    Lsn.PrintReadsBack(w.confirmed);
  }

  /** The server lists the confirmed position, and a restart position at or below it if any. */
  ghost predicate Lists(s: Slot, confirmed: U64) {
    && s.confirmed == Some(Lsn.Print(confirmed))
    && (s.restart.Some? ==> exists lsn: U64 :: lsn <= confirmed && s.restart.value == Lsn.Print(lsn))
  }

  lemma PrintedPositionPasses(lsn: U64, durable: U64)
    requires lsn <= durable
    ensures CheckPosition(Some(Lsn.Print(lsn)), durable).None?
  {
    Lsn.PrintReadsBack(lsn);
  }

  lemma ListedPositionsPass(slot: Slot, database: string, confirmed: U64, durable: U64)
    requires Lists(slot, confirmed) && confirmed <= durable
    ensures SlotRefusal(Some(slot), database, durable).Some? <==> !Ours(slot, database) || slot.active
  {
    PrintedPositionPasses(confirmed, durable);
    if slot.restart.Some? {
      var lsn: U64 :| lsn <= confirmed && slot.restart.value == Lsn.Print(lsn);
      PrintedPositionPasses(lsn, durable);
    }
  }

  /** After every history the slot check refuses a restart if and only if the
      slot is missing, is another's, or is in use: never over its positions.
      The resumed stream can begin at the first transaction not yet stored, and
      no received message is ever refused. */
  lemma RestartIsRefusedIff(parse: Parser, w: World, moves: seq<Move>, slot: Option<Slot>, database: string)
    requires Fresh(w) && (slot.Some? ==> Lists(slot.value, History(parse, w, moves).confirmed))
    ensures var w' := History(parse, w, moves);
            && (SlotRefusal(slot, database, w'.store.durable).Some? <==> slot.None? || !Ours(slot.value, database) || slot.value.active)
            && SlotContinues(w') && MayResume(w', |w'.store.applied|)
            && (Enabled(parse, w', Receives) ==> Moved(parse, w', Receives).link.Some?)
  {
    HistoryIsSound(parse, w, moves);
    var w' := History(parse, w, moves);
    if slot.Some? {
      ListedPositionsPass(slot.value, database, w'.confirmed, w'.store.durable);
    }
    if Enabled(parse, w', Receives) {
      var l := w'.link.value;
      ReceiveCompletes(parse, l.decoder, l.pending, w'.source[l.next - 1]);
    }
  }
}
