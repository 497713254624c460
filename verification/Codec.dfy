/** Binary formats: checkpoint accumulators, current documents and commit
    batches. Bytes are `char`s below 256; a reader refuses anything else. */
module Codec {
  import opened Common
  import opened Keys
  import opened Accounting

  // ------------------------------------------------------------------
  // Big-endian integers
  // ------------------------------------------------------------------

  function Pow256(w: nat): (p: nat)
    ensures p >= 1
  {
    if w == 0 then 1 else 256 * Pow256(w - 1)
  }

  predicate IsBytes(s: string) {
    forall c | c in s :: c as int < 256
  }

  function BigEndian(n: nat, w: nat): (s: string)
    ensures |s| == w && IsBytes(s)
  {
    if w == 0 then "" else BigEndian(n / 256, w - 1) + [(n % 256) as char]
  }

  function FromBigEndian(s: string): nat {
    if s == "" then 0 else FromBigEndian(s[..|s| - 1]) * 256 + s[|s| - 1] as int
  }

  lemma {:induction false} BigEndianRoundTrip(n: nat, w: nat)
    requires n < Pow256(w)
    ensures FromBigEndian(BigEndian(n, w)) == n
  {
    if w > 0 {
      BigEndianRoundTrip(n / 256, w - 1);
      assert BigEndian(n, w)[..w - 1] == BigEndian(n / 256, w - 1);
    }
  }

  lemma {:induction false} FromBigEndianRoundTrip(s: string)
    requires IsBytes(s)
    ensures FromBigEndian(s) < Pow256(|s|) && BigEndian(FromBigEndian(s), |s|) == s
  {
    if s != "" {
      var front, last := s[..|s| - 1], s[|s| - 1];
      assert last in s && s == front + [last];
      assert forall c | c in front :: c in s;
      FromBigEndianRoundTrip(front);
      assert FromBigEndian(s) / 256 == FromBigEndian(front) && FromBigEndian(s) % 256 == last as int;
    }
  }

  /** Bytes of a u32, the width of every length prefix. */
  const WORD: nat := 4

  /** Bytes of a u64. */
  const LONG: nat := 8

  lemma Widths()
    ensures Pow256(WORD) == TWO_32 && Pow256(LONG) == U64_MAX + 1
  {
  }

  /** Read a `w`-byte integer off the front; the rest follows. */
  function ReadUint(s: string, w: nat): Option<(nat, string)> {
    if |s| < w || !IsBytes(s[..w]) then None else Some((FromBigEndian(s[..w]), s[w..]))
  }

  lemma ReadUintReads(n: nat, w: nat, rest: string)
    requires n < Pow256(w)
    ensures ReadUint(BigEndian(n, w) + rest, w) == Some((n, rest))
  {
  }

  lemma ReadUintConsumes(s: string, w: nat)
    ensures var r := ReadUint(s, w);
            r.Some? ==> r.value.0 < Pow256(w) && s == BigEndian(r.value.0, w) + r.value.1
  {
    if ReadUint(s, w).Some? {
      FromBigEndianRoundTrip(s[..w]);
      assert s == s[..w] + s[w..];
    }
  }

  // ------------------------------------------------------------------
  // Accumulators: 4 bytes of checksum, 8 of count
  // ------------------------------------------------------------------

  function EncodeAccumulator(a: Accumulator): string {
    BigEndian(a.checksum, WORD) + BigEndian(a.count, LONG)
  }

  function DecodeAccumulator(s: string): Option<Accumulator> {
    if |s| != WORD + LONG || !IsBytes(s) then None
    else
      assert FromBigEndian(s[..WORD]) < TWO_32 by {
        Widths();
        assert forall c | c in s[..WORD] :: c in s;
        FromBigEndianRoundTrip(s[..WORD]);
      }
      Some(Accumulator(FromBigEndian(s[..WORD]), FromBigEndian(s[WORD..])))
  }

  /** Encoding and decoding an accumulator undo each other, both ways round. */
  lemma AccumulatorRoundTrip(a: Accumulator, s: string)
    requires a.count <= U64_MAX
    ensures DecodeAccumulator(EncodeAccumulator(a)) == Some(a)
    ensures DecodeAccumulator(s) == Some(a) <==> s == EncodeAccumulator(a)
  {
    Widths();
    BigEndianRoundTrip(a.checksum, WORD);
    BigEndianRoundTrip(a.count, LONG);
    var e := EncodeAccumulator(a);
    assert e[..WORD] == BigEndian(a.checksum, WORD) && e[WORD..] == BigEndian(a.count, LONG);
    if DecodeAccumulator(s) == Some(a) {
      assert forall c | c in s[..WORD] || c in s[WORD..] :: c in s;
      FromBigEndianRoundTrip(s[..WORD]);
      FromBigEndianRoundTrip(s[WORD..]);
      assert s == s[..WORD] + s[WORD..];
    }
  }

  // ------------------------------------------------------------------
  // Length-prefixed text
  // ------------------------------------------------------------------

  function Chunk(text: string): string {
    BigEndian(|text|, WORD) + text
  }

  predicate Short(text: string) {
    |text| < TWO_32
  }

  /** Read length-prefixed text; it must be valid UTF-8. */
  function ReadText(utf8: string -> bool, s: string): Option<(string, string)> {
    match ReadUint(s, WORD)
    case None => None
    case Some((n, rest)) =>
      if n > |rest| || !utf8(rest[..n]) then None else Some((rest[..n], rest[n..]))
  }

  lemma ReadTextReads(utf8: string -> bool, text: string, rest: string)
    requires Short(text) && utf8(text)
    ensures ReadText(utf8, Chunk(text) + rest) == Some((text, rest))
  {
    Widths();
    ReadUintReads(|text|, WORD, text + rest);
    assert Chunk(text) + rest == BigEndian(|text|, WORD) + (text + rest);
    assert (text + rest)[..|text|] == text && (text + rest)[|text|..] == rest;
  }

  lemma ReadTextConsumes(utf8: string -> bool, s: string)
    ensures var r := ReadText(utf8, s);
            r.Some? ==> Short(r.value.0) && utf8(r.value.0) && s == Chunk(r.value.0) + r.value.1
  {
    if ReadText(utf8, s).Some? {
      Widths();
      ReadUintConsumes(s, WORD);
      var (n, rest) := ReadUint(s, WORD).value;
      assert rest == rest[..n] + rest[n..];
      assert s == BigEndian(n, WORD) + (rest[..n] + rest[n..]);
    }
  }

  // ------------------------------------------------------------------
  // Documents
  // ------------------------------------------------------------------

  const DOCUMENT_MAGIC: string := ['P', 'S', 'C', 'D', '1', 0 as char]

  function FieldChunks(items: seq<(string, string)>): string {
    if items == [] then "" else Chunk(items[0].0) + (Chunk(items[0].1) + FieldChunks(items[1..]))
  }

  /** The layout of a document whose route fields are written in the given order. */
  function Layout(objectType: string, objectId: string, items: seq<(string, string)>, data: string): string {
    DOCUMENT_MAGIC + Body(objectType, objectId, items, data)
  }

  function EncodeDocument(d: Document): string {
    Layout(d.objectType, d.objectId, Items(d.routes), d.data)
  }

  /** Insert route fields one by one, as the decoder does. */
  function ToMap(items: seq<(string, string)>): map<string, string> {
    if items == [] then map[] else ToMap(items[..|items| - 1])[items[|items| - 1].0 := items[|items| - 1].1]
  }

  type TextReader = string -> Option<(string, string)>

  function Texts(utf8: string -> bool): TextReader {
    s => ReadText(utf8, s)
  }

  function ReadFields(read: TextReader, s: string, n: nat): Option<(seq<(string, string)>, string)>
    decreases n
  {
    if n == 0 then Some(([], s)) else
      match read(s)
      case None => None
      case Some((key, s1)) =>
        match read(s1)
        case None => None
        case Some((value, s2)) =>
          match ReadFields(read, s2, n - 1)
          case None => None
          case Some((items, s3)) => Some(([(key, value)] + items, s3))
  }

  function DecodeFields(utf8: string -> bool, s: string): Option<(seq<(string, string)>, string)> {
    match ReadUint(s, WORD)
    case None => None
    case Some((n, rest)) => ReadFields(Texts(utf8), rest, n)
  }

  /** The document after the magic; nothing may follow it. */
  function DecodeBody(utf8: string -> bool, s: string): Option<Document> {
    match ReadText(utf8, s)
    case None => None
    case Some((objectType, s1)) =>
      match ReadText(utf8, s1)
      case None => None
      case Some((objectId, s2)) =>
        match DecodeFields(utf8, s2)
        case None => None
        case Some((items, s3)) =>
          match ReadText(utf8, s3)
          case None => None
          case Some((data, s4)) =>
            if s4 != "" then None else Some(Document(objectType, objectId, ToMap(items), data))
  }

  /** Decode a stored document; without the magic it is legacy JSON. */
  function DecodeDocument(utf8: string -> bool, json: string -> Option<Document>, s: string): Option<Document> {
    if StartsWith(s, DOCUMENT_MAGIC) then DecodeBody(utf8, s[|DOCUMENT_MAGIC|..]) else json(s)
  }

  ghost predicate ShortFields(utf8: string -> bool, items: seq<(string, string)>) {
    forall i | 0 <= i < |items| :: Short(items[i].0) && Short(items[i].1) && utf8(items[i].0) && utf8(items[i].1)
  }

  /** Every text is valid and every length fits its four-byte prefix. */
  ghost predicate Encodable(utf8: string -> bool, d: Document) {
    && Short(d.objectType) && Short(d.objectId) && Short(d.data) && |d.routes| < TWO_32
    && utf8(d.objectType) && utf8(d.objectId) && utf8(d.data)
    && ShortFields(utf8, Items(d.routes))
  }

  predicate ValidText(utf8: string -> bool, text: string) {
    Short(text) && utf8(text)
  }

  /** A reader gives back exactly the valid texts written in front of the rest. */
  ghost predicate Inverts(utf8: string -> bool, read: TextReader, chunk: string -> string) {
    && (forall text, rest | ValidText(utf8, text) :: read(chunk(text) + rest) == Some((text, rest)))
    && (forall s | read(s).Some? :: ValidText(utf8, read(s).value.0) && s == chunk(read(s).value.0) + read(s).value.1)
  }

  function Chunker(): string -> string {
    text => Chunk(text)
  }

  lemma TextsInvert(utf8: string -> bool)
    ensures Inverts(utf8, Texts(utf8), Chunker())
  {
    forall text, rest | ValidText(utf8, text)
      ensures Texts(utf8)(Chunker()(text) + rest) == Some((text, rest))
    {
      ReadTextReads(utf8, text, rest);
    }
    forall s | Texts(utf8)(s).Some?
      ensures ValidText(utf8, Texts(utf8)(s).value.0) && s == Chunker()(Texts(utf8)(s).value.0) + Texts(utf8)(s).value.1
    {
      ReadTextConsumes(utf8, s);
    }
  }

  function PairChunks(chunk: string -> string, items: seq<(string, string)>): string {
    if items == [] then "" else chunk(items[0].0) + (chunk(items[0].1) + PairChunks(chunk, items[1..]))
  }

  lemma {:induction false} FieldChunksAre(items: seq<(string, string)>)
    ensures FieldChunks(items) == PairChunks(Chunker(), items)
  {
    if items != [] {
      FieldChunksAre(items[1..]);
    }
  }

  lemma {:induction false} PairsRead(utf8: string -> bool, read: TextReader, chunk: string -> string, items: seq<(string, string)>, rest: string)
    requires Inverts(utf8, read, chunk) && ShortFields(utf8, items)
    ensures ReadFields(read, PairChunks(chunk, items) + rest, |items|) == Some((items, rest))
  {
    if items == [] {
      assert PairChunks(chunk, items) + rest == rest;
    } else {
      var (key, value) := items[0];
      PairsRead(utf8, read, chunk, items[1..], rest);
      var tail := PairChunks(chunk, items[1..]) + rest;
      Regroup(chunk(key), chunk(value), PairChunks(chunk, items[1..]), rest);
      assert ValidText(utf8, key) && ValidText(utf8, value);
      assert read(chunk(key) + (chunk(value) + tail)) == Some((key, chunk(value) + tail));
      assert [items[0]] + items[1..] == items;
    }
  }

  lemma {:induction false} PairsConsume(utf8: string -> bool, read: TextReader, chunk: string -> string, s: string, n: nat)
    requires Inverts(utf8, read, chunk)
    ensures var r := ReadFields(read, s, n);
            r.Some? ==> |r.value.0| == n && ShortFields(utf8, r.value.0) && s == PairChunks(chunk, r.value.0) + r.value.1
    decreases n
  {
    if n > 0 && ReadFields(read, s, n).Some? {
      var (key, s1) := read(s).value;
      var (value, s2) := read(s1).value;
      PairsConsume(utf8, read, chunk, s2, n - 1);
      var (items, s3) := ReadFields(read, s2, n - 1).value;
      assert ([(key, value)] + items)[1..] == items;
      Regroup(chunk(key), chunk(value), PairChunks(chunk, items), s3);
    }
  }

  lemma ReadFieldsReads(utf8: string -> bool, items: seq<(string, string)>, rest: string)
    requires ShortFields(utf8, items)
    ensures ReadFields(Texts(utf8), FieldChunks(items) + rest, |items|) == Some((items, rest))
  {
    TextsInvert(utf8);
    FieldChunksAre(items);
    PairsRead(utf8, Texts(utf8), Chunker(), items, rest);
  }

  lemma ReadFieldsConsumes(utf8: string -> bool, s: string, n: nat)
    ensures var r := ReadFields(Texts(utf8), s, n);
            r.Some? ==> |r.value.0| == n && ShortFields(utf8, r.value.0) && s == FieldChunks(r.value.0) + r.value.1
  {
    TextsInvert(utf8);
    PairsConsume(utf8, Texts(utf8), Chunker(), s, n);
    var r := ReadFields(Texts(utf8), s, n);
    if r.Some? {
      FieldChunksAre(r.value.0);
    }
  }

  lemma DecodeFieldsReads(utf8: string -> bool, items: seq<(string, string)>, rest: string)
    requires |items| < TWO_32 && ShortFields(utf8, items)
    ensures DecodeFields(utf8, BigEndian(|items|, WORD) + (FieldChunks(items) + rest)) == Some((items, rest))
  {
    Widths();
    ReadUintReads(|items|, WORD, FieldChunks(items) + rest);
    ReadFieldsReads(utf8, items, rest);
  }

  lemma DecodeBodyChain(utf8: string -> bool, s: string, s1: string, s2: string, s3: string,
                        objectType: string, objectId: string, items: seq<(string, string)>, data: string)
    requires ReadText(utf8, s) == Some((objectType, s1)) && ReadText(utf8, s1) == Some((objectId, s2))
    requires DecodeFields(utf8, s2) == Some((items, s3)) && ReadText(utf8, s3) == Some((data, ""))
    ensures DecodeBody(utf8, s) == Some(Document(objectType, objectId, ToMap(items), data))
  {
  }

  function Body(objectType: string, objectId: string, items: seq<(string, string)>, data: string): string {
    Chunk(objectType) + (Chunk(objectId) + (BigEndian(|items|, WORD) + (FieldChunks(items) + Chunk(data))))
  }

  lemma DecodeBodyReads(utf8: string -> bool, objectType: string, objectId: string, items: seq<(string, string)>, data: string)
    requires Short(objectType) && Short(objectId) && Short(data) && |items| < TWO_32
    requires utf8(objectType) && utf8(objectId) && utf8(data) && ShortFields(utf8, items)
    ensures DecodeBody(utf8, Body(objectType, objectId, items, data)) == Some(Document(objectType, objectId, ToMap(items), data))
  {
    var s3 := Chunk(data) + "";
    var s2 := BigEndian(|items|, WORD) + (FieldChunks(items) + s3);
    var s1 := Chunk(objectId) + s2;
    ReadTextReads(utf8, objectType, s1);
    ReadTextReads(utf8, objectId, s2);
    DecodeFieldsReads(utf8, items, s3);
    ReadTextReads(utf8, data, "");
    DecodeBodyChain(utf8, Chunk(objectType) + s1, s1, s2, s3, objectType, objectId, items, data);
    assert s3 == Chunk(data);
  }

  lemma {:induction false} ToMapOfDistinct(items: seq<(string, string)>, k: string)
    requires forall i, j | 0 <= i < j < |items| :: items[i].0 != items[j].0
    ensures k in ToMap(items) <==> exists i | 0 <= i < |items| :: items[i].0 == k
    ensures forall i | 0 <= i < |items| && items[i].0 == k :: k in ToMap(items) && ToMap(items)[k] == items[i].1
  {
    if items != [] {
      var front := items[..|items| - 1];
      ToMapOfDistinct(front, k);
      assert items == front + [items[|items| - 1]];
    }
  }

  lemma {:induction false} ItemsDistinct(m: map<string, string>)
    ensures forall i, j | 0 <= i < j < |Items(m)| :: Items(m)[i].0 != Items(m)[j].0
    decreases |m|
  {
    if m != map[] {
      var k := FirstKey(m.Keys);
      var rest := m - {k};
      assert rest.Keys == m.Keys - {k};
      ItemsDistinct(rest);
      assert Items(m) == [(k, m[k])] + Items(rest);
    }
  }

  lemma ToMapOfItems(m: map<string, string>)
    ensures ToMap(Items(m)) == m
  {
    ItemsDistinct(m);
    forall k
      ensures k in ToMap(Items(m)) <==> k in m
      ensures k in m ==> ToMap(Items(m))[k] == m[k]
    {
      ToMapOfDistinct(Items(m), k);
      if k in m {
        ItemsCoverKeys(m, k);
      }
    }
  }

  /** Decoding an encoded document returns it. */
  lemma DocumentRoundTrip(utf8: string -> bool, json: string -> Option<Document>, d: Document)
    requires Encodable(utf8, d)
    ensures DecodeDocument(utf8, json, EncodeDocument(d)) == Some(d)
  {
    var s := EncodeDocument(d);
    assert s[..|DOCUMENT_MAGIC|] == DOCUMENT_MAGIC;
    DecodeBodyReads(utf8, d.objectType, d.objectId, Items(d.routes), d.data);
    ToMapOfItems(d.routes);
  }

  /** The binary decoder accepts only complete layouts: every byte is accounted for. */
  lemma DecodedDocumentIsLayout(utf8: string -> bool, json: string -> Option<Document>, s: string)
    requires StartsWith(s, DOCUMENT_MAGIC) && DecodeDocument(utf8, json, s).Some?
    ensures var d := DecodeDocument(utf8, json, s).value;
            exists items :: d.routes == ToMap(items) && s == Layout(d.objectType, d.objectId, items, d.data)
  {
    Widths();
    var body := s[|DOCUMENT_MAGIC|..];
    ReadTextConsumes(utf8, body);
    var (objectType, s1) := ReadText(utf8, body).value;
    ReadTextConsumes(utf8, s1);
    var (objectId, s2) := ReadText(utf8, s1).value;
    ReadUintConsumes(s2, WORD);
    var (n, rest) := ReadUint(s2, WORD).value;
    ReadFieldsConsumes(utf8, rest, n);
    var (items, s3) := ReadFields(Texts(utf8), rest, n).value;
    ReadTextConsumes(utf8, s3);
    var (data, s4) := ReadText(utf8, s3).value;
    assert s == DOCUMENT_MAGIC + body;
    assert s3 == Chunk(data);
    assert s == Layout(objectType, objectId, items, data);
  }
}
