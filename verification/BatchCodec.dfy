/** The commit-batch format and the cursor-driven readers and writers. Row
    changes have a codec of their own, given by `enc` and `dec`. */
module BatchCodec {
  import opened Common
  import opened Codec

  type I64 = x: int | -0x8000_0000_0000_0000 <= x < 0x8000_0000_0000_0000

  datatype Batch<C> = Batch(
    transactionId: U32, beginFinalLsn: U64, beginTime: I64,
    commitLsn: U64, endLsn: U64, commitTime: I64, changes: seq<C>)

  /** The bit pattern of a signed integer, and back. */
  function Unsigned(v: I64): U64 {
    if v < 0 then v + U64_MAX + 1 else v
  }

  function Signed(u: U64): I64 {
    if u < 0x8000_0000_0000_0000 then u else u - U64_MAX - 1
  }

  function Header<C>(b: Batch<C>, rest: string): string {
    BigEndian(b.transactionId, WORD) + (BigEndian(b.beginFinalLsn, LONG) + (BigEndian(Unsigned(b.beginTime), LONG)
      + (BigEndian(b.commitLsn, LONG) + (BigEndian(b.endLsn, LONG) + (BigEndian(Unsigned(b.commitTime), LONG) + rest)))))
  }

  /** Each change after its length; both the length and the count keep their low 32 bits. */
  function ChangeChunks<C>(enc: C -> string, cs: seq<C>): string {
    if cs == [] then "" else Chunk(enc(cs[0])) + ChangeChunks(enc, cs[1..])
  }

  function EncodeBatch<C>(enc: C -> string, b: Batch<C>): string {
    Header(b, BigEndian(|b.changes|, WORD) + ChangeChunks(enc, b.changes))
  }

  function Decodes<C>(dec: string -> Option<C>): string -> bool {
    bytes => dec(bytes).Some?
  }

  function ReadChanges<C>(dec: string -> Option<C>, s: string, n: nat): Option<(seq<C>, string)> {
    if n == 0 then Some(([], s)) else
      match ReadText(Decodes(dec), s)
      case None => None
      case Some((bytes, s1)) =>
        match ReadChanges(dec, s1, n - 1)
        case None => None
        case Some((cs, s2)) => Some(([dec(bytes).value] + cs, s2))
  }

  /** The change list, which must use up the batch. */
  function DecodeChanges<C>(dec: string -> Option<C>, s: string): Option<seq<C>> {
    match ReadUint(s, WORD)
    case None => None
    case Some((n, rest)) =>
      match ReadChanges(dec, rest, n)
      case None => None
      case Some((cs, tail)) => if tail != "" then None else Some(cs)
  }

  function ReadLong(s: string): Option<(U64, string)> {
    match ReadUint(s, LONG)
    case None => None
    case Some((n, rest)) =>
      assert n <= U64_MAX by { Widths(); ReadUintConsumes(s, LONG); }
      Some((n, rest))
  }

  function ReadWord(s: string): Option<(U32, string)> {
    match ReadUint(s, WORD)
    case None => None
    case Some((n, rest)) =>
      assert n < TWO_32 by { Widths(); ReadUintConsumes(s, WORD); }
      Some((n, rest))
  }

  function DecodeBatch<C>(dec: string -> Option<C>, s: string): Option<Batch<C>> {
    match ReadWord(s) case None => None case Some((transactionId, s1)) =>
    match ReadLong(s1) case None => None case Some((beginFinalLsn, s2)) =>
    match ReadLong(s2) case None => None case Some((beginTime, s3)) =>
    match ReadLong(s3) case None => None case Some((commitLsn, s4)) =>
    match ReadLong(s4) case None => None case Some((endLsn, s5)) =>
    match ReadLong(s5) case None => None case Some((commitTime, s6)) =>
    match DecodeChanges(dec, s6) case None => None case Some(changes) =>
    Some(Batch(transactionId, beginFinalLsn, Signed(beginTime), commitLsn, endLsn, Signed(commitTime), changes))
  }

  // ------------------------------------------------------------------
  // Round trip
  // ------------------------------------------------------------------

  /** The change codec is invertible and its lengths fit 32 bits on these changes. */
  ghost predicate Invertible<C(!new)>(enc: C -> string, dec: string -> Option<C>, cs: seq<C>) {
    forall i | 0 <= i < |cs| :: dec(enc(cs[i])) == Some(cs[i]) && |enc(cs[i])| < TWO_32
  }

  lemma ReadsOneMore<C>(dec: string -> Option<C>, s: string, bytes: string, s1: string, n: nat, cs: seq<C>, rest: string)
    requires ReadText(Decodes(dec), s) == Some((bytes, s1)) && dec(bytes).Some? && ReadChanges(dec, s1, n) == Some((cs, rest))
    ensures ReadChanges(dec, s, n + 1) == Some(([dec(bytes).value] + cs, rest))
  {
  }

  lemma {:induction false} ReadChangesReads<C(!new)>(enc: C -> string, dec: string -> Option<C>, cs: seq<C>, rest: string)
    requires Invertible(enc, dec, cs)
    ensures ReadChanges(dec, ChangeChunks(enc, cs) + rest, |cs|) == Some((cs, rest))
  {
    if cs == [] {
      assert ChangeChunks(enc, cs) + rest == rest;
    } else {
      var e, tail := enc(cs[0]), ChangeChunks(enc, cs[1..]) + rest;
      ReadChangesReads(enc, dec, cs[1..], rest);
      ReadTextReads(Decodes(dec), e, tail);
      Associates(Chunk(e), ChangeChunks(enc, cs[1..]), rest);
      ReadsOneMore(dec, ChangeChunks(enc, cs) + rest, e, tail, |cs[1..]|, cs[1..], rest);
      assert [cs[0]] + cs[1..] == cs;
    }
  }

  lemma {:induction false} ChangeChunksSplit<C>(enc: C -> string, cs: seq<C>, n: nat)
    requires n <= |cs|
    ensures ChangeChunks(enc, cs) == ChangeChunks(enc, cs[..n]) + ChangeChunks(enc, cs[n..])
  {
    if n == 0 {
      assert cs[..n] == [] && cs[n..] == cs;
    } else {
      ChangeChunksSplit(enc, cs[1..], n - 1);
      assert cs[..n][1..] == cs[1..][..n - 1] && cs[1..][n - 1..] == cs[n..];
      Associates(Chunk(enc(cs[0])), ChangeChunks(enc, cs[..n][1..]), ChangeChunks(enc, cs[n..]));
    }
  }

  /** Fixed-width digits drop whatever lies above them. */
  lemma {:induction false} BigEndianTruncates(n: nat, m: nat, w: nat)
    ensures BigEndian(n + m * Pow256(w), w) == BigEndian(n, w)
  {
    if w > 0 {
      var high := m * Pow256(w - 1);
      assert m * Pow256(w) == 256 * high;
      assert (n + 256 * high) / 256 == n / 256 + high && (n + 256 * high) % 256 == n % 256;
      BigEndianTruncates(n / 256, m, w - 1);
    }
  }

  lemma DecodeChangesReads<C>(dec: string -> Option<C>, n: U32, body: string, cs: seq<C>, rest: string)
    requires ReadChanges(dec, body, n) == Some((cs, rest))
    ensures DecodeChanges(dec, BigEndian(n, WORD) + body) == if rest == "" then Some(cs) else None
  {
    Widths();
    ReadUintReads(n, WORD, body);
  }

  /** A stored count of `n` gives back the list only if it is the list's length. */
  lemma CountDecides<C(!new)>(enc: C -> string, dec: string -> Option<C>, cs: seq<C>, n: U32)
    requires Invertible(enc, dec, cs) && n <= |cs|
    ensures DecodeChanges(dec, BigEndian(n, WORD) + ChangeChunks(enc, cs)) == if n == |cs| then Some(cs) else None
  {
    var kept, lost := cs[..n], cs[n..];
    ChangeChunksSplit(enc, cs, n);
    ReadChangesReads(enc, dec, kept, ChangeChunks(enc, lost));
    DecodeChangesReads(dec, n, ChangeChunks(enc, cs), kept, ChangeChunks(enc, lost));
    if n == |cs| {
      assert kept == cs && lost == [];
    } else {
      ChunksNotEmpty(enc, lost);
    }
  }

  lemma LowWord(k: nat) returns (n: U32)
    ensures BigEndian(k, WORD) == BigEndian(n, WORD) && n <= k && (n == k <==> k < TWO_32)
  {
    n := k % TWO_32;
    Widths();
    BigEndianTruncates(n, k / TWO_32, WORD);
  }

  /** The change list survives exactly when its length fits 32 bits; a longer one is refused. */
  lemma ChangesRoundTrip<C(!new)>(enc: C -> string, dec: string -> Option<C>, cs: seq<C>)
    requires Invertible(enc, dec, cs)
    ensures DecodeChanges(dec, BigEndian(|cs|, WORD) + ChangeChunks(enc, cs)) == if |cs| < TWO_32 then Some(cs) else None
  {
    var n := LowWord(|cs|);
    CountDecides(enc, dec, cs, n);
  }

  lemma ChunksNotEmpty<C>(enc: C -> string, cs: seq<C>)
    requires cs != []
    ensures ChangeChunks(enc, cs) != ""
  {
  }

  lemma ReadLongReads(n: U64, rest: string)
    ensures ReadLong(BigEndian(n, LONG) + rest) == Some((n, rest))
  {
    Widths();
    ReadUintReads(n, LONG, rest);
  }

  lemma ReadWordReads(n: U32, rest: string)
    ensures ReadWord(BigEndian(n, WORD) + rest) == Some((n, rest))
  {
    Widths();
    ReadUintReads(n, WORD, rest);
  }

  lemma DecodeBatchChain<C>(dec: string -> Option<C>, s: string, s1: string, s2: string, s3: string, s4: string, s5: string, s6: string,
                            transactionId: U32, a: U64, b: U64, c: U64, d: U64, e: U64)
    requires ReadWord(s) == Some((transactionId, s1)) && ReadLong(s1) == Some((a, s2)) && ReadLong(s2) == Some((b, s3))
    requires ReadLong(s3) == Some((c, s4)) && ReadLong(s4) == Some((d, s5)) && ReadLong(s5) == Some((e, s6))
    ensures DecodeBatch(dec, s) == match DecodeChanges(dec, s6)
                                   case None => None
                                   case Some(changes) => Some(Batch(transactionId, a, Signed(b), c, d, Signed(e), changes))
  {
  }

  /** Decoding an encoded commit batch returns it if and only if it has fewer
      than 2^32 changes: the count is cast to 32 bits, and a longer batch comes
      back as trailing bytes, which the decoder refuses. */
  lemma BatchRoundTrip<C(!new)>(enc: C -> string, dec: string -> Option<C>, b: Batch<C>)
    requires Invertible(enc, dec, b.changes)
    ensures DecodeBatch(dec, EncodeBatch(enc, b)) == Some(b) <==> |b.changes| < TWO_32
    ensures |b.changes| >= TWO_32 ==> DecodeBatch(dec, EncodeBatch(enc, b)).None?
  {
    var s6 := BigEndian(|b.changes|, WORD) + ChangeChunks(enc, b.changes);
    var s5 := BigEndian(Unsigned(b.commitTime), LONG) + s6;
    var s4 := BigEndian(b.endLsn, LONG) + s5;
    var s3 := BigEndian(b.commitLsn, LONG) + s4;
    var s2 := BigEndian(Unsigned(b.beginTime), LONG) + s3;
    var s1 := BigEndian(b.beginFinalLsn, LONG) + s2;
    ReadWordReads(b.transactionId, s1);
    ReadLongReads(b.beginFinalLsn, s2);
    ReadLongReads(Unsigned(b.beginTime), s3);
    ReadLongReads(b.commitLsn, s4);
    ReadLongReads(b.endLsn, s5);
    ReadLongReads(Unsigned(b.commitTime), s6);
    DecodeBatchChain(dec, BigEndian(b.transactionId, WORD) + s1, s1, s2, s3, s4, s5, s6, b.transactionId, b.beginFinalLsn,
                     Unsigned(b.beginTime), b.commitLsn, b.endLsn, Unsigned(b.commitTime));
    ChangesRoundTrip(enc, dec, b.changes);
  }

  // ------------------------------------------------------------------
  // Every accepted input is accounted for
  // ------------------------------------------------------------------

  function Chunks(es: seq<string>): string {
    if es == [] then "" else Chunk(es[0]) + Chunks(es[1..])
  }

  ghost predicate AllDecode<C(!new)>(dec: string -> Option<C>, es: seq<string>, cs: seq<C>) {
    |es| == |cs| && forall i | 0 <= i < |es| :: dec(es[i]) == Some(cs[i])
  }

  lemma OneChangeMore<C(!new)>(dec: string -> Option<C>, s: string, bytes: string, s1: string, es: seq<string>, cs: seq<C>, rest: string)
    requires ReadText(Decodes(dec), s) == Some((bytes, s1)) && AllDecode(dec, es, cs) && s1 == Chunks(es) + rest
    ensures dec(bytes).Some? && AllDecode(dec, [bytes] + es, [dec(bytes).value] + cs) && s == Chunks([bytes] + es) + rest
  {
    ReadTextConsumes(Decodes(dec), s);
    assert ([bytes] + es)[1..] == es;
    Associates(Chunk(bytes), Chunks(es), rest);
  }

  lemma {:induction false} ReadChangesConsumes<C(!new)>(dec: string -> Option<C>, s: string, n: nat) returns (es: seq<string>)
    requires ReadChanges(dec, s, n).Some?
    ensures |es| == n && AllDecode(dec, es, ReadChanges(dec, s, n).value.0) && s == Chunks(es) + ReadChanges(dec, s, n).value.1
    decreases n
  {
    if n == 0 {
      es := [];
    } else {
      var bytes, s1 := ReadText(Decodes(dec), s).value.0, ReadText(Decodes(dec), s).value.1;
      var more := ReadChangesConsumes(dec, s1, n - 1);
      OneChangeMore(dec, s, bytes, s1, more, ReadChanges(dec, s1, n - 1).value.0, ReadChanges(dec, s1, n - 1).value.1);
      es := [bytes] + more;
    }
  }

  /** An accepted change list is a count and that many chunks, each decoding to its change, with nothing after them. */
  lemma DecodedChangesAreWhole<C(!new)>(dec: string -> Option<C>, s: string) returns (es: seq<string>)
    requires DecodeChanges(dec, s).Some?
    ensures AllDecode(dec, es, DecodeChanges(dec, s).value) && s == BigEndian(|es|, WORD) + Chunks(es)
  {
    var n, rest := ReadUint(s, WORD).value.0, ReadUint(s, WORD).value.1;
    ReadUintConsumes(s, WORD);
    es := ReadChangesConsumes(dec, rest, n);
    assert Chunks(es) + "" == Chunks(es);
  }

  // ------------------------------------------------------------------
  // The service's loops
  // ------------------------------------------------------------------

  /** Append the batch to one growing buffer. */
  method EncodeBatchBytes<C>(enc: C -> string, b: Batch<C>) returns (buffer: string)
    ensures buffer == EncodeBatch(enc, b)
  {
    buffer := BigEndian(b.transactionId, WORD);
    buffer := buffer + BigEndian(b.beginFinalLsn, LONG);
    buffer := buffer + BigEndian(Unsigned(b.beginTime), LONG);
    buffer := buffer + BigEndian(b.commitLsn, LONG);
    buffer := buffer + BigEndian(b.endLsn, LONG);
    buffer := buffer + BigEndian(Unsigned(b.commitTime), LONG);
    HeaderAppends(b, buffer, BigEndian(|b.changes|, WORD) + ChangeChunks(enc, b.changes));
    var head := buffer + BigEndian(|b.changes|, WORD);
    assert head + ChangeChunks(enc, b.changes) == EncodeBatch(enc, b);
    buffer := AppendChanges(enc, b.changes, head);
  }

  lemma HeaderAppends<C>(b: Batch<C>, buffer: string, rest: string)
    requires buffer == BigEndian(b.transactionId, WORD) + BigEndian(b.beginFinalLsn, LONG) + BigEndian(Unsigned(b.beginTime), LONG)
                       + BigEndian(b.commitLsn, LONG) + BigEndian(b.endLsn, LONG) + BigEndian(Unsigned(b.commitTime), LONG)
    ensures buffer + rest == Header(b, rest)
  {
  }

  method AppendChanges<C>(enc: C -> string, cs: seq<C>, head: string) returns (buffer: string)
    ensures buffer == head + ChangeChunks(enc, cs)
  {
    buffer := head;
    assert cs[0..] == cs;
    for i := 0 to |cs|
      invariant buffer + ChangeChunks(enc, cs[i..]) == head + ChangeChunks(enc, cs)
    {
      var encoded := enc(cs[i]);
      assert cs[i..][1..] == cs[i + 1..];
      Regroup(buffer, BigEndian(|encoded|, WORD), encoded, ChangeChunks(enc, cs[i + 1..]));
      buffer := buffer + BigEndian(|encoded|, WORD);
      buffer := buffer + encoded;
    }
    assert buffer + "" == buffer;
  }

  /** Read an integer at the cursor and move past it. */
  method ReadUintAt(bytes: string, cursor: nat, w: nat) returns (r: Option<nat>, next: nat)
    requires cursor <= |bytes|
    ensures cursor <= next <= |bytes|
    ensures match ReadUint(bytes[cursor..], w)
            case None => r.None?
            case Some((n, rest)) => r == Some(n) && bytes[next..] == rest
  {
    var end := cursor + w;
    if end > |bytes| {
      return None, cursor;
    }
    var slice := bytes[cursor..end];
    assert slice == bytes[cursor..][..w] && bytes[end..] == bytes[cursor..][w..];
    if !IsBytes(slice) {
      return None, cursor;
    }
    r, next := Some(FromBigEndian(slice)), end;
  }

  /** A read that starts with `before` and goes on with `r`. */
  ghost function After<C>(before: seq<C>, r: Option<(seq<C>, string)>): Option<(seq<C>, string)> {
    match r
    case None => None
    case Some((cs, rest)) => Some((before + cs, rest))
  }

  lemma AfterNothing<C>(r: Option<(seq<C>, string)>)
    ensures After([], r) == r
  {
    match r {
      case None =>
      case Some((cs, rest)) => assert [] + cs == cs;
    }
  }

  lemma AfterOneMore<C>(before: seq<C>, c: C, r: Option<(seq<C>, string)>)
    ensures After(before, After([c], r)) == After(before + [c], r)
  {
    match r {
      case None =>
      case Some((cs, rest)) => assert before + ([c] + cs) == before + [c] + cs;
    }
  }

  /** One turn of the change loop: a change and the cursor after it. */
  method DecodeChangeAt<C>(dec: string -> Option<C>, bytes: string, cursor: nat, left: nat) returns (r: Option<C>, next: nat)
    requires cursor <= |bytes|
    ensures cursor <= next <= |bytes|
    ensures ReadChanges(dec, bytes[cursor..], left + 1)
         == if r.None? then None else After([r.value], ReadChanges(dec, bytes[next..], left))
  {
    var len, at := ReadUintAt(bytes, cursor, WORD);
    if len.None? || at + len.value > |bytes| {
      return None, cursor;
    }
    var end := at + len.value;
    assert bytes[at..end] == bytes[at..][..len.value] && bytes[end..] == bytes[at..][len.value..];
    r, next := dec(bytes[at..end]), end;
  }

  /** The change loop of the decoder, driven by a cursor. */
  method DecodeChangesAt<C>(dec: string -> Option<C>, bytes: string, start: nat) returns (r: Option<seq<C>>)
    requires start <= |bytes|
    ensures r == DecodeChanges(dec, bytes[start..])
  {
    var count, cursor := ReadUintAt(bytes, start, WORD);
    if count.None? {
      return None;
    }
    var changes: seq<C> := [];
    ghost var whole := ReadChanges(dec, bytes[cursor..], count.value);
    AfterNothing(whole);
    for index := 0 to count.value
      invariant cursor <= |bytes|
      invariant whole == After(changes, ReadChanges(dec, bytes[cursor..], count.value - index))
    {
      var change, next := DecodeChangeAt(dec, bytes, cursor, count.value - index - 1);
      if change.None? {
        return None;
      }
      AfterOneMore(changes, change.value, ReadChanges(dec, bytes[next..], count.value - index - 1));
      changes := changes + [change.value];
      cursor := next;
    }
    assert whole == Some((changes + [], bytes[cursor..]));
    assert changes + [] == changes;
    if cursor != |bytes| {
      return None;
    }
    r := Some(changes);
  }
}
