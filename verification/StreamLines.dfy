/** What one read sends: the bucket payload, the synthetic full snapshot or the
    tail delta, and the iterator that cuts it into pages. */
module StreamLines {
  import opened Common
  import opened SyncPlan
  import opened Routing
  import opened Accounting
  import opened Serving

  // ------------------------------------------------------------------
  // Views
  // ------------------------------------------------------------------

  datatype BucketView = BucketView(
    bucket: string, current: seq<OplogEntry>, tail: seq<OplogEntry>, lastOpId: nat, snapshotFloor: nat,
    clearChecksum: Option<U32>, forceClear: bool, checksum: Option<int>, count: Option<nat>, after: Option<nat>)

  /** The cursor lies below the snapshot floor, so all current entries are sent. */
  predicate FullSnapshot(v: BucketView, last: nat) {
    BoundedAfter(v, last) < Min(v.snapshotFloor, Min(v.lastOpId, last))
  }

  function BoundedAfter(v: BucketView, last: nat): nat {
    Min(if v.after.None? then 0 else v.after.value, Min(v.lastOpId, last))
  }

  predicate IncludesClear(v: BucketView, always: bool) {
    always || v.forceClear || (v.clearChecksum.Some? && v.clearChecksum.value != 0)
  }

  function SaturatingSub(a: nat, b: nat): nat {
    if a < b then 0 else a - b
  }

  function Renumbered(es: seq<OplogEntry>, first: nat): seq<OplogEntry> {
    seq(|es|, i requires 0 <= i < |es| => es[i].(opId := first + i))
  }

  /** The CLEAR entry of a snapshot, if any. */
  function ClearEntries(clears: bool, opId: nat, checksum: U32): seq<OplogEntry> {
    if clears then [OplogEntry(opId, ClearEntry, None, None, checksum)] else []
  }

  /** CLEAR, if included, then the current entries, numbered to end at the view's last op id. */
  function SnapshotEntries(v: BucketView, last: nat, always: bool): seq<OplogEntry> {
    var clears := IncludesClear(v, always);
    var extra := if clears then 1 else 0;
    var start := SaturatingSub(Min(v.lastOpId, last), SaturatingSub(|v.current| + extra, 1));
    ClearEntries(clears, start, if v.clearChecksum.Some? then v.clearChecksum.value else 0) + Renumbered(v.current, start + extra)
  }

  function After(es: seq<OplogEntry>, after: nat): seq<OplogEntry> {
    if es == [] then [] else
      After(es[..|es| - 1], after) + (if es[|es| - 1].opId > after then [es[|es| - 1]] else [])
  }

  /** The entries of a view in a stream that ends at `last`. */
  function ViewEntries(v: BucketView, last: nat, always: bool): seq<OplogEntry> {
    if FullSnapshot(v, last) then SnapshotEntries(v, last, always)
    else if BoundedAfter(v, last) >= Min(v.lastOpId, last) then []
    else After(v.tail, BoundedAfter(v, last))
  }

  // ------------------------------------------------------------------
  // Payloads
  // ------------------------------------------------------------------

  /** What the store reads for one bucket in one transaction. */
  datatype ReadSnapshot = ReadSnapshot(
    latest: nat, reset: bool, documents: seq<Document>, ops: seq<(nat, TailOp)>, current: Accumulator, tail: Accumulator)

  function CurrentEntries(oracle: Oracle, b: Bucket, ds: seq<Document>): seq<OplogEntry> {
    if ds == [] then [] else
      CurrentEntries(oracle, b, ds[..|ds| - 1])
        + (if Holds(oracle, b, ds[|ds| - 1]) then [PutEntryFor(oracle, b, 0, ds[|ds| - 1])] else [])
  }

  function OpsEntries(oracle: Oracle, b: Bucket, ops: seq<(nat, TailOp)>): seq<OplogEntry> {
    if ops == [] then [] else
      OpsEntries(oracle, b, ops[..|ops| - 1]) + Served(oracle, b, ops[|ops| - 1].0, ops[|ops| - 1].1)
  }

  function Checksum(es: seq<OplogEntry>): U32 {
    if es == [] then 0 else WrapAdd(Checksum(es[..|es| - 1]), es[|es| - 1].checksum)
  }

  /** Reinterpret a 32-bit checksum as a signed integer. */
  function Signed32(c: U32): int {
    if c < TWO_32 / 2 then c else c - TWO_32
  }

  function EffectiveAfter(after: nat, s: ReadSnapshot): nat {
    if s.reset then 0 else after
  }

  function BuildPayload(oracle: Oracle, name: string, b: Bucket, after: nat, s: ReadSnapshot): BucketView {
    var effective := EffectiveAfter(after, s);
    var entries := if effective == 0 then CurrentEntries(oracle, b, s.documents) else [];
    var current := if effective == 0 then Accumulator(Checksum(entries), |entries|) else s.current;
    var last := Max(s.latest, current.count);
    var bounded := Min(effective, last);
    var floor := if effective == 0 then last else 0;
    BucketView(name, if bounded < floor then entries else [], OpsEntries(oracle, b, s.ops), last, floor,
               Some(s.tail.checksum), s.reset, Some(Signed32(WrapAdd(current.checksum, s.tail.checksum))),
               Some(current.count + s.tail.count), Some(bounded))
  }

  /** One payload per requested bucket with its final cursor, and the largest
      last op id, which ends the stream. */
  method BuildViews(oracle: Oracle, requests: seq<(string, Bucket, nat)>, snapshots: seq<ReadSnapshot>)
    returns (views: seq<BucketView>, cursors: seq<(string, nat)>, last: nat)
    requires |snapshots| == |requests|
    ensures |views| == |requests| && |cursors| == |requests|
    ensures forall i | 0 <= i < |requests| :: views[i] == BuildPayload(oracle, requests[i].0, requests[i].1, requests[i].2, snapshots[i])
    ensures forall i | 0 <= i < |requests| :: cursors[i] == (requests[i].0, views[i].lastOpId) && views[i].lastOpId <= last
    ensures last == 0 || exists i | 0 <= i < |views| :: views[i].lastOpId == last
  {
    views := [];
    for n := 0 to |requests|
      invariant |views| == n
      invariant forall i | 0 <= i < n :: views[i] == BuildPayload(oracle, requests[i].0, requests[i].1, requests[i].2, snapshots[i])
    {
      views := views + [BuildPayload(oracle, requests[n].0, requests[n].1, requests[n].2, snapshots[n])];
    }
    cursors, last := FinalCursors(views);
  }

  method FinalCursors(views: seq<BucketView>) returns (cursors: seq<(string, nat)>, last: nat)
    ensures |cursors| == |views|
    ensures forall i | 0 <= i < |views| :: cursors[i] == (views[i].bucket, views[i].lastOpId) && views[i].lastOpId <= last
    ensures last == 0 || exists i | 0 <= i < |views| :: views[i].lastOpId == last
  {
    cursors, last := [], 0;
    for n := 0 to |views|
      invariant |cursors| == n
      invariant forall i | 0 <= i < n :: cursors[i] == (views[i].bucket, views[i].lastOpId) && views[i].lastOpId <= last
      invariant last == 0 || exists i | 0 <= i < n :: views[i].lastOpId == last
    {
      cursors := cursors + [(views[n].bucket, views[n].lastOpId)];
      last := Max(last, views[n].lastOpId);
    }
  }

  // ------------------------------------------------------------------
  // Paging
  // ------------------------------------------------------------------

  datatype CheckpointBucket = CheckpointBucket(bucket: string, checksum: int, count: nat)

  datatype Line =
    | Checkpoint(lastOpId: nat, buckets: seq<CheckpointBucket>)
    | Data(bucket: string, entries: seq<OplogEntry>, after: nat, nextAfter: nat, hasMore: bool)
    | Complete(lastOpId: nat)

  /** Entries of one bucket still to be sent. */
  datatype Pages = Pages(bucket: string, entries: seq<OplogEntry>, after: nat, size: nat)

  predicate Sized(p: Pages) {
    p.size > 0
  }

  datatype PageSizes = PageSizes(snapshot: nat, delta: nat)

  /** The pages of a view: a full snapshot starts over at cursor zero. */
  function PagesOf(v: BucketView, last: nat, always: bool, sizes: PageSizes): Pages {
    var full := FullSnapshot(v, last);
    Pages(v.bucket, ViewEntries(v, last, always), if full then 0 else BoundedAfter(v, last),
          Max(if full then sizes.snapshot else sizes.delta, 1))
  }

  function AllPagesOf(vs: seq<BucketView>, last: nat, always: bool, sizes: PageSizes): seq<Pages> {
    seq(|vs|, i requires 0 <= i < |vs| => PagesOf(vs[i], last, always, sizes))
  }

  function CheckpointBucketOf(v: BucketView): CheckpointBucket {
    CheckpointBucket(v.bucket, if v.checksum.Some? then v.checksum.value else Signed32(Checksum(v.current)),
                     if v.count.Some? then v.count.value else |v.current|)
  }

  function CheckpointOf(vs: seq<BucketView>, last: nat): Line {
    Checkpoint(last, seq(|vs|, i requires 0 <= i < |vs| => CheckpointBucketOf(vs[i])))
  }

  /** The whole stream of some views: the checkpoint, every bucket's pages, the completion. */
  function StreamOf(vs: seq<BucketView>, last: nat, always: bool, sizes: PageSizes): seq<Line> {
    [CheckpointOf(vs, last)] + AllPageLines(AllPagesOf(vs, last, always, sizes)) + [Complete(last)]
  }

  /** The data lines of one bucket. */
  function PageLines(p: Pages): seq<Line>
    requires Sized(p)
    decreases |p.entries|
  {
    if p.entries == [] then [] else
      var n := Min(p.size, |p.entries|);
      var nextAfter := p.entries[n - 1].opId;
      [Data(p.bucket, p.entries[..n], p.after, nextAfter, n < |p.entries|)]
        + PageLines(p.(entries := p.entries[n..], after := nextAfter))
  }

  function AllPageLines(ps: seq<Pages>): seq<Line>
    requires forall p | p in ps :: Sized(p)
  {
    if ps == [] then [] else PageLines(ps[0]) + AllPageLines(ps[1..])
  }

  /** The service's iterator: one checkpoint, the pages of every view, one completion. */
  class ChunkIterator {
    const lastOpId: nat
    var checkpoint: Option<Line>
    var views: seq<Pages>
    var page: Option<Pages>
    var completePending: bool

    ghost predicate Valid()
      reads this
    {
      (forall p | p in views :: Sized(p)) && (page.Some? ==> Sized(page.value))
    }

    /** The lines still to come. */
    ghost function Remaining(): seq<Line>
      requires Valid()
      reads this
    {
      (if checkpoint.Some? then [checkpoint.value] else []) + Body()
    }

    ghost function Body(): seq<Line>
      requires Valid()
      reads this
    {
      (if page.Some? then PageLines(page.value) else []) + AllPageLines(views) + (if completePending then [Complete(lastOpId)] else [])
    }

    constructor (vs: seq<BucketView>, last: nat, always: bool, sizes: PageSizes)
      ensures Valid() && Remaining() == StreamOf(vs, last, always, sizes)
    {
      var ps := AllPagesOf(vs, last, always, sizes);
      lastOpId := last;
      checkpoint, views, page, completePending := Some(CheckpointOf(vs, last)), ps, None, true;
      new;
      assert [] + AllPageLines(ps) == AllPageLines(ps);
    }

    /** The next line of the stream, or none once everything was sent. */
    method Next() returns (line: Option<Line>)
      requires Valid()
      modifies this
      ensures Valid()
      ensures old(Remaining()) == [] ==> line.None? && Remaining() == []
      ensures old(Remaining()) != [] ==> line == Some(old(Remaining())[0]) && Remaining() == old(Remaining())[1..]
    {
      if checkpoint.Some? {
        line := checkpoint;
        checkpoint := None;
        return;
      }
      while true
        invariant Valid() && checkpoint.None? && Body() == old(Remaining())
        decreases |views|, if page.Some? then 1 else 0
      {
        if page.Some? {
          line := TakePage();
          if line.Some? {
            return;
          }
        } else if views != [] {
          assert [views[0]] + views[1..] == views;
          assert [] + AllPageLines(views) == PageLines(views[0]) + AllPageLines(views[1..]);
          page, views := Some(views[0]), views[1..];
        } else {
          if completePending {
            completePending := false;
            return Some(Complete(lastOpId));
          }
          return None;
        }
      }
    }

    /** The iterator ends, having given every line once and in order. */
    method Drain() returns (lines: seq<Line>)
      requires Valid()
      modifies this
      ensures Valid() && Remaining() == [] && lines == old(Remaining())
    {
      lines := [];
      var line := Some(Complete(0));
      assert Remaining() == old(Remaining());
      while line.Some?
        invariant Valid() && lines + Remaining() == old(Remaining()) && (line.None? ==> Remaining() == [])
        decreases |Remaining()|, line.Some?
      {
        ghost var before := Remaining();
        line := Next();
        if line.Some? {
          assert before == [line.value] + before[1..];
          assert lines + [line.value] + Remaining() == lines + before;
          lines := lines + [line.value];
        }
      }
    }

    /** Cut one page off the current bucket, or let an exhausted bucket go. */
    method TakePage() returns (line: Option<Line>)
      requires Valid() && page.Some?
      modifies this`page
      ensures Valid()
      ensures line.None? ==> page.None? && Body() == old(Body())
      ensures line.Some? ==> [line.value] + Body() == old(Body())
    {
      var p := page.value;
      var n := Min(p.size, |p.entries|);
      var entries := p.entries[..n];
      if entries != [] {
        var nextAfter := entries[|entries| - 1].opId;
        var rest := p.entries[n..];
        line := Some(Data(p.bucket, entries, p.after, nextAfter, rest != []));
        page := Some(p.(entries := rest, after := nextAfter));
        assert [line.value] + PageLines(page.value) == PageLines(p);
        assert [line.value] + (PageLines(page.value) + AllPageLines(views) + (if completePending then [Complete(lastOpId)] else []))
            == [line.value] + PageLines(page.value) + AllPageLines(views) + (if completePending then [Complete(lastOpId)] else []);
      } else {
        line := None;
        page := None;
      }
    }
  }

  // What paging must not change: stated over any sequence of data lines.

  function Entries(lines: seq<Line>): seq<OplogEntry>
    requires forall l | l in lines :: l.Data?
  {
    if lines == [] then [] else lines[0].entries + Entries(lines[1..])
  }

  predicate Links(lines: seq<Line>, i: nat)
    requires i < |lines| && forall l | l in lines :: l.Data?
  {
    && lines[i].nextAfter == (if lines[i].entries == [] then lines[i].after else lines[i].entries[|lines[i].entries| - 1].opId)
    && (i > 0 ==> lines[i].after == lines[i - 1].nextAfter)
    && (lines[i].hasMore <==> i + 1 < |lines|)
  }

  /** Non-empty pages of `size` entries, the last perhaps shorter, that
      concatenate to `entries`, each starting where the one before ended, with
      `hasMore` on all but the last. */
  ghost predicate Paged(bucket: string, entries: seq<OplogEntry>, after: nat, size: nat, lines: seq<Line>) {
    && (forall l | l in lines :: l.Data? && l.bucket == bucket && 0 < |l.entries| <= size && (l.hasMore ==> |l.entries| == size))
    && Entries(lines) == entries
    && (lines != [] ==> lines[0].after == after)
    && (forall i | 0 <= i < |lines| :: Links(lines, i))
  }

  lemma PagedOneMore(bucket: string, entries: seq<OplogEntry>, after: nat, size: nat, n: nat, lines: seq<Line>, head: Line)
    requires 0 < n <= size && n <= |entries| && Paged(bucket, entries[n..], entries[n - 1].opId, size, lines)
    requires (n < |entries| <==> lines != []) && (n < |entries| ==> n == size)
    requires head == Data(bucket, entries[..n], after, entries[n - 1].opId, n < |entries|)
    ensures Paged(bucket, entries, after, size, [head] + lines)
  {
    var all := [head] + lines;
    assert all[1..] == lines && entries == entries[..n] + entries[n..];
    forall i | 0 <= i < |all|
      ensures Links(all, i)
    {
      if i > 0 {
        assert Links(lines, i - 1);
      }
    }
  }

  lemma {:induction false} PagingPreservesEntries(p: Pages)
    requires Sized(p)
    ensures Paged(p.bucket, p.entries, p.after, p.size, PageLines(p))
    decreases |p.entries|
  {
    if p.entries != [] {
      var n := Min(p.size, |p.entries|);
      var rest := p.(entries := p.entries[n..], after := p.entries[n - 1].opId);
      PagingPreservesEntries(rest);
      var head := Data(p.bucket, p.entries[..n], p.after, rest.after, n < |p.entries|);
      PagedOneMore(p.bucket, p.entries, p.after, p.size, n, PageLines(rest), head);
    }
  }

  // ------------------------------------------------------------------
  // The lines of a stream, seen from one bucket
  // ------------------------------------------------------------------

  /** The data lines of a bucket, in order. */
  function LinesOf(bucket: string, lines: seq<Line>): (own: seq<Line>)
    ensures forall l | l in own :: l.Data?
  {
    if lines == [] then []
    else (if lines[0].Data? && lines[0].bucket == bucket then [lines[0]] else []) + LinesOf(bucket, lines[1..])
  }

  /** A client folds the lines of a stream into its copy of a bucket, page by page. */
  function ReceiveLines(bucket: string, c: Client, lines: seq<Line>): Client
    decreases |lines|
  {
    if lines == [] then c
    else ReceiveLines(bucket, if lines[0].Data? && lines[0].bucket == bucket then ReceiveAll(c, lines[0].entries) else c, lines[1..])
  }

  lemma {:induction false} LinesOfJoin(bucket: string, a: seq<Line>, b: seq<Line>)
    ensures LinesOf(bucket, a + b) == LinesOf(bucket, a) + LinesOf(bucket, b)
  {
    if a == [] {
      assert a + b == b;
    } else {
      LinesOfJoin(bucket, a[1..], b);
      assert (a + b)[1..] == a[1..] + b && (a + b)[0] == a[0];
      var first := if a[0].Data? && a[0].bucket == bucket then [a[0]] else [];
      assert first + (LinesOf(bucket, a[1..]) + LinesOf(bucket, b)) == first + LinesOf(bucket, a[1..]) + LinesOf(bucket, b);
    }
  }

  lemma {:induction false} LinesOfPages(bucket: string, p: Pages)
    requires Sized(p)
    ensures LinesOf(bucket, PageLines(p)) == if p.bucket == bucket then PageLines(p) else []
    decreases |p.entries|
  {
    if p.entries != [] {
      var n := Min(p.size, |p.entries|);
      var rest := p.(entries := p.entries[n..], after := p.entries[n - 1].opId);
      LinesOfPages(bucket, rest);
      assert PageLines(p)[1..] == PageLines(rest);
    }
  }

  /** Among the pages of several buckets, a bucket named once finds exactly its own. */
  lemma {:induction false} LinesOfAllPages(bucket: string, ps: seq<Pages>, i: nat)
    requires (forall p | p in ps :: Sized(p)) && i <= |ps|
    requires forall n | 0 <= n < |ps| :: ps[n].bucket == bucket <==> n == i
    ensures LinesOf(bucket, AllPageLines(ps)) == if i < |ps| then PageLines(ps[i]) else []
    decreases |ps|
  {
    if ps != [] {
      LinesOfPages(bucket, ps[0]);
      LinesOfJoin(bucket, PageLines(ps[0]), AllPageLines(ps[1..]));
      LinesOfAllPages(bucket, ps[1..], if i == 0 then |ps| - 1 else i - 1);
    }
  }

  lemma {:induction false} ReceiveLinesIsEntries(bucket: string, c: Client, lines: seq<Line>)
    ensures ReceiveLines(bucket, c, lines) == ReceiveAll(c, Entries(LinesOf(bucket, lines)))
    decreases |lines|
  {
    if lines != [] {
      var own, rest := lines[0].Data? && lines[0].bucket == bucket, LinesOf(bucket, lines[1..]);
      ReceiveLinesIsEntries(bucket, if own then ReceiveAll(c, lines[0].entries) else c, lines[1..]);
      if own {
        ReceiveAllSplits(c, lines[0].entries, Entries(rest));
        assert ([lines[0]] + rest)[1..] == rest;
      } else {
        assert [] + rest == rest;
      }
    }
  }

  lemma LinesInside(bucket: string, head: Line, body: seq<Line>, end: Line)
    requires !head.Data? && !end.Data?
    ensures LinesOf(bucket, [head] + body + [end]) == LinesOf(bucket, body)
  {
    LinesOfJoin(bucket, [head], body);
    LinesOfJoin(bucket, [head] + body, [end]);
  }

  lemma LinesOfStream(vs: seq<BucketView>, last: nat, always: bool, sizes: PageSizes, i: nat)
    requires i < |vs| && forall n, m | 0 <= n < m < |vs| :: vs[n].bucket != vs[m].bucket
    ensures LinesOf(vs[i].bucket, StreamOf(vs, last, always, sizes)) == PageLines(PagesOf(vs[i], last, always, sizes))
  {
    var ps := AllPagesOf(vs, last, always, sizes);
    LinesOfAllPages(vs[i].bucket, ps, i);
    LinesInside(vs[i].bucket, CheckpointOf(vs, last), AllPageLines(ps), Complete(last));
  }

  /** The stream of some views carries, for each bucket, the paging of its
      entries and nothing else, so that a client which folds the lines has
      received exactly these entries; the checkpoint advertises its view. */
  lemma StreamCarriesEachView(vs: seq<BucketView>, last: nat, always: bool, sizes: PageSizes, i: nat, c: Client)
    requires i < |vs| && forall n, m | 0 <= n < m < |vs| :: vs[n].bucket != vs[m].bucket
    ensures var v, lines := vs[i], StreamOf(vs, last, always, sizes);
            var end := Min(v.lastOpId, last);
            var cursor := Min(if v.after.Some? then v.after.value else 0, end);
            var full := cursor < Min(v.snapshotFloor, end);
            && Paged(v.bucket, ViewEntries(v, last, always), if full then 0 else cursor,
                     if full then Max(1, sizes.snapshot) else Max(1, sizes.delta), LinesOf(v.bucket, lines))
            && ReceiveLines(v.bucket, c, lines) == ReceiveAll(c, ViewEntries(v, last, always))
  {
    LinesOfStream(vs, last, always, sizes, i);
    PagingPreservesEntries(PagesOf(vs[i], last, always, sizes));
    ReceiveLinesIsEntries(vs[i].bucket, c, StreamOf(vs, last, always, sizes));
  }

  predicate Advertises(l: CheckpointBucket, v: BucketView) {
    && l.bucket == v.bucket
    && (v.checksum.Some? ==> l.checksum == v.checksum.value) && (v.checksum.None? ==> l.checksum == Signed32(Checksum(v.current)))
    && (v.count.Some? ==> l.count == v.count.value) && (v.count.None? ==> l.count == |v.current|)
  }

  lemma {:induction false} PagesAreData(p: Pages)
    requires Sized(p)
    ensures forall l | l in PageLines(p) :: l.Data? && l.bucket == p.bucket
    decreases |p.entries|
  {
    PagingPreservesEntries(p);
  }

  lemma {:induction false} AllPagesAreData(ps: seq<Pages>)
    requires forall p | p in ps :: Sized(p)
    ensures forall l | l in AllPageLines(ps) :: l.Data? && exists p :: p in ps && l.bucket == p.bucket
  {
    if ps != [] {
      PagesAreData(ps[0]);
      AllPagesAreData(ps[1..]);
      assert forall p | p in ps[1..] :: p in ps;
      assert ps[0] in ps;
    }
  }

  /** A stream is framed: it starts with the one checkpoint, for the stream's
      last op id and with one line per view in order; it ends with the one
      completion, of the same op id; all between is data of its buckets. */
  lemma StreamIsFramed(vs: seq<BucketView>, last: nat, always: bool, sizes: PageSizes)
    ensures var lines := StreamOf(vs, last, always, sizes);
            && |lines| >= 2 && lines[|lines| - 1] == Complete(last)
            && lines[0].Checkpoint? && lines[0].lastOpId == last && |lines[0].buckets| == |vs|
            && (forall i | 0 <= i < |vs| :: Advertises(lines[0].buckets[i], vs[i]))
            && (forall n | 0 < n < |lines| - 1 :: lines[n].Data? && exists v :: v in vs && v.bucket == lines[n].bucket)
  {
    var ps, lines := AllPagesOf(vs, last, always, sizes), StreamOf(vs, last, always, sizes);
    AllPagesAreData(ps);
    forall n | 0 < n < |lines| - 1
      ensures lines[n].Data? && exists v :: v in vs && v.bucket == lines[n].bucket
    {
      assert lines[n] == AllPageLines(ps)[n - 1] && AllPageLines(ps)[n - 1] in AllPageLines(ps);
      var p :| p in ps && p.bucket == lines[n].bucket;
      var i :| 0 <= i < |vs| && ps[i] == p;
      assert vs[i] in vs;
    }
  }

  /** One read of several buckets: payloads, final cursors and the drained lines. */
  method ServeBuckets(oracle: Oracle, requests: seq<(string, Bucket, nat)>, snapshots: seq<ReadSnapshot>, always: bool, sizes: PageSizes)
    returns (views: seq<BucketView>, lines: seq<Line>, cursors: seq<(string, nat)>, last: nat)
    requires |snapshots| == |requests|
    ensures |views| == |requests| && |cursors| == |requests| && lines == StreamOf(views, last, always, sizes)
    ensures forall i | 0 <= i < |requests| :: views[i] == BuildPayload(oracle, requests[i].0, requests[i].1, requests[i].2, snapshots[i])
    ensures forall i | 0 <= i < |requests| :: cursors[i] == (requests[i].0, views[i].lastOpId) && views[i].lastOpId <= last
  {
    views, cursors, last := BuildViews(oracle, requests, snapshots);
    var chunks := new ChunkIterator(views, last, always, sizes);
    lines := chunks.Drain();
  }

  // ------------------------------------------------------------------
  // Full snapshot soundness
  // ------------------------------------------------------------------

  lemma {:induction false} ChecksumAppends(es: seq<OplogEntry>, fs: seq<OplogEntry>)
    ensures Checksum(es + fs) == WrapAdd(Checksum(es), Checksum(fs))
  {
    if fs == [] {
      assert es + fs == es;
      WrapAddAssociates(Checksum(es), 0, 0);
    } else {
      var front, last := fs[..|fs| - 1], fs[|fs| - 1];
      ChecksumAppends(es, front);
      assert (es + fs)[..|es + fs| - 1] == es + front;
      WrapAddAssociates(Checksum(es), Checksum(front), last.checksum);
    }
  }

  lemma {:induction false} RenumberingKeepsChecksum(es: seq<OplogEntry>, first: nat)
    ensures Checksum(Renumbered(es, first)) == Checksum(es)
  {
    if es != [] {
      RenumberingKeepsChecksum(es[..|es| - 1], first);
      assert Renumbered(es, first)[..|es| - 1] == Renumbered(es[..|es| - 1], first);
    }
  }

  /** Op ids count up by one and end at `last`. */
  predicate EndsAt(es: seq<OplogEntry>, last: nat) {
    forall i | 0 <= i < |es| :: es[i].opId + |es| == last + 1 + i
  }

  lemma SnapshotChecksum(es: seq<OplogEntry>, clears: bool, start: nat, first: nat, cleared: U32)
    requires !clears ==> cleared == 0
    ensures Checksum(ClearEntries(clears, start, cleared) + Renumbered(es, first)) == WrapAdd(Checksum(es), cleared)
  {
    ClearChecksum(clears, start, cleared);
    ChecksumAppends(ClearEntries(clears, start, cleared), Renumbered(es, first));
    RenumberingKeepsChecksum(es, first);
    WrapAddAssociates(Checksum(es), cleared, 0);
  }

  lemma ClearChecksum(clears: bool, start: nat, cleared: U32)
    requires !clears ==> cleared == 0
    ensures Checksum(ClearEntries(clears, start, cleared)) == cleared
  {
  }

  /** When the op id range has room, numbering neither saturates nor leaves a gap. */
  lemma SnapshotNumbering(v: BucketView, last: nat, always: bool)
    requires |v.current| <= v.lastOpId <= last
    ensures var es := SnapshotEntries(v, last, always);
            |es| <= v.lastOpId + 1 && EndsAt(es, v.lastOpId)
    ensures IncludesClear(v, always) <==> |SnapshotEntries(v, last, always)| == |v.current| + 1
    ensures IncludesClear(v, always) ==> SnapshotEntries(v, last, always)[0].kind.ClearEntry?
  {
  }

  /** A read without a usable cursor becomes a full snapshot whose op id range holds every row. */
  lemma SnapshotPayload(oracle: Oracle, name: string, b: Bucket, after: nat, s: ReadSnapshot, v: BucketView, last: nat)
    requires v == BuildPayload(oracle, name, b, after, s) && EffectiveAfter(after, s) == 0 && 0 < v.lastOpId <= last
    ensures FullSnapshot(v, last) && v.current == CurrentEntries(oracle, b, s.documents) && |v.current| <= v.lastOpId
    ensures v.clearChecksum == Some(s.tail.checksum) && v.forceClear == s.reset
    ensures v.checksum == Some(Signed32(WrapAdd(Checksum(v.current), s.tail.checksum)))
  {
  }

  lemma SnapshotSum(v: BucketView, last: nat, always: bool)
    requires v.clearChecksum.Some?
    ensures Checksum(SnapshotEntries(v, last, always)) == WrapAdd(Checksum(v.current), v.clearChecksum.value)
  {
    var clears := IncludesClear(v, always);
    var extra := if clears then 1 else 0;
    var start := SaturatingSub(Min(v.lastOpId, last), SaturatingSub(|v.current| + extra, 1));
    SnapshotChecksum(v.current, clears, start, start + extra, v.clearChecksum.value);
  }

  lemma {:induction false} RowsArePuts(oracle: Oracle, b: Bucket, ds: seq<Document>)
    ensures forall i | 0 <= i < |CurrentEntries(oracle, b, ds)| :: CurrentEntries(oracle, b, ds)[i].kind.PutEntry?
  {
    if ds != [] {
      RowsArePuts(oracle, b, ds[..|ds| - 1]);
    }
  }

  lemma SnapshotStarts(oracle: Oracle, b: Bucket, ds: seq<Document>, v: BucketView, last: nat, always: bool)
    requires v.current == CurrentEntries(oracle, b, ds)
    ensures var es := SnapshotEntries(v, last, always); es != [] && es[0].kind.ClearEntry? <==> IncludesClear(v, always)
  {
    RowsArePuts(oracle, b, ds);
  }

  /** The advertised form of a checksum is its 32 bits read as a signed integer. */
  lemma Signed32IsTwosComplement(c: U32)
    ensures -0x8000_0000 <= Signed32(c) < 0x8000_0000 && Signed32(c) % TWO_32 == c
  {
  }

  /** A full snapshot of a bucket with a positive last op id: the range holds
      every entry, op ids are consecutive and end at the last op id, the emitted
      checksums add up to the advertised one whether or not CLEAR is sent, and
      CLEAR comes first exactly when it is always sent, a reset is required or
      the superseded tail has a checksum to carry. */
  lemma FullSnapshotIsSound(oracle: Oracle, name: string, b: Bucket, after: nat, s: ReadSnapshot, v: BucketView, last: nat, always: bool)
    requires v == BuildPayload(oracle, name, b, after, s) && EffectiveAfter(after, s) == 0 && 0 < v.lastOpId <= last
    ensures FullSnapshot(v, last) && v.current == CurrentEntries(oracle, b, s.documents)
    ensures var es := ViewEntries(v, last, always);
            && |es| <= v.lastOpId + 1
            && EndsAt(es, v.lastOpId)
            && v.checksum == Some(Signed32(Checksum(es)))
            && (es != [] && es[0].kind.ClearEntry? <==> always || s.reset || s.tail.checksum != 0)
  {
    SnapshotPayload(oracle, name, b, after, s, v, last);
    SnapshotStarts(oracle, b, s.documents, v, last, always);
    SnapshotNumbering(v, last, always);
    SnapshotSum(v, last, always);
  }

  /** A required reset reaches the client as a leading CLEAR if and only if the
      bucket's last op id is positive: with nothing to number, nothing is sent. */
  lemma ResetClearsIffNumbered(oracle: Oracle, name: string, b: Bucket, after: nat, s: ReadSnapshot, v: BucketView, last: nat, always: bool)
    requires v == BuildPayload(oracle, name, b, after, s) && s.reset && v.lastOpId <= last
    ensures var es := ViewEntries(v, last, always);
            (es != [] && es[0].kind.ClearEntry?) <==> (s.latest > 0 || CurrentEntries(oracle, b, s.documents) != [])
    ensures v.lastOpId == 0 ==> ViewEntries(v, last, always) == []
  {
  }

  /** A reset of an empty store: the client's stale rows are not cleared. */
  lemma ResetWithoutClear() returns (oracle: Oracle, b: Bucket, s: ReadSnapshot, v: BucketView)
    ensures v == BuildPayload(oracle, "b", b, 7, s) && s.reset && v.forceClear && ViewEntries(v, v.lastOpId, true) == []
  {
    oracle := Oracle((f, d) => true, (f, d) => d, (a, v) => false, (t, i, d) => 0, (t, i) => 0);
    b := Bucket("s", [], false);
    s := ReadSnapshot(0, true, [], [], Accumulator(0, 0), Accumulator(0, 0));
    v := BuildPayload(oracle, "b", b, 7, s);
  }
}
