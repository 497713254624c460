/** Storage keys. Text is its UTF-8 byte sequence, one `char` per byte, and keys
    are compared byte by byte. */
module Keys {
  import opened Common

  // ------------------------------------------------------------------
  // Byte order and ordered maps
  // ------------------------------------------------------------------

  /** Lexicographic byte order, the order of keys in the table and in ordered maps. */
  predicate Le(a: string, b: string) {
    a == [] || (b != [] && (a[0] < b[0] || (a[0] == b[0] && Le(a[1..], b[1..]))))
  }

  lemma {:induction false} LeTotal(a: string, b: string)
    ensures Le(a, b) || Le(b, a)
  {
    if a != [] && b != [] && a[0] == b[0] {
      LeTotal(a[1..], b[1..]);
    }
  }

  lemma {:induction false} LeAntisymmetric(a: string, b: string)
    requires Le(a, b) && Le(b, a)
    ensures a == b
  {
    if a != [] && b != [] {
      LeAntisymmetric(a[1..], b[1..]);
      assert a == [a[0]] + a[1..] && b == [b[0]] + b[1..];
    }
  }

  lemma {:induction false} LeTransitive(a: string, b: string, c: string)
    requires Le(a, b) && Le(b, c)
    ensures Le(a, c)
  {
    if a != [] && a[0] == b[0] && b[0] == c[0] {
      LeTransitive(a[1..], b[1..], c[1..]);
    }
  }

  ghost predicate Least(k: string, keys: set<string>) {
    k in keys && forall j | j in keys :: Le(k, j)
  }

  lemma {:induction false} LeastExists(keys: set<string>)
    requires keys != {}
    ensures exists k :: Least(k, keys)
    decreases keys
  {
    var x :| x in keys;
    LeTotal(x, x);
    if keys == {x} {
      assert Least(x, keys);
    } else {
      LeastExists(keys - {x});
      var y :| Least(y, keys - {x});
      LeTotal(x, y);
      var k := if Le(x, y) then x else y;
      forall j | j in keys
        ensures Le(k, j)
      {
        if j != x {
          if k == x {
            LeTransitive(x, y, j);
          }
        }
      }
      assert Least(k, keys);
    }
  }

  function FirstKey(keys: set<string>): (k: string)
    requires keys != {}
    ensures k in keys && forall j | j in keys :: Le(k, j)
  {
    LeastExists(keys);
    assert exists k :: k in keys && forall j | j in keys :: Le(k, j) by {
      var k :| Least(k, keys);
    }
    assert forall k, l | k in keys && l in keys && Le(k, l) && Le(l, k) :: k == l by {
      forall k, l | k in keys && l in keys && Le(k, l) && Le(l, k)
        ensures k == l
      {
        LeAntisymmetric(k, l);
      }
    }
    var k :| k in keys && forall j | j in keys :: Le(k, j);
    k
  }

  /** The entries of an ordered map, in key order. */
  function Items(m: map<string, string>): (items: seq<(string, string)>)
    ensures |items| == |m|
    ensures forall i | 0 <= i < |items| :: items[i].0 in m && m[items[i].0] == items[i].1
    decreases |m|
  {
    if m == map[] then [] else
      var k := FirstKey(m.Keys);
      var rest := m - {k};
      assert rest.Keys == m.Keys - {k};
      [(k, m[k])] + Items(rest)
  }

  lemma {:induction false} ItemsCoverKeys(m: map<string, string>, k: string)
    requires k in m
    ensures exists i | 0 <= i < |Items(m)| :: Items(m)[i].0 == k
    decreases |m|
  {
    var first := FirstKey(m.Keys);
    var rest := m - {first};
    assert rest.Keys == m.Keys - {first};
    if k == first {
      assert Items(m)[0].0 == k;
    } else {
      ItemsCoverKeys(rest, k);
      var i :| 0 <= i < |Items(rest)| && Items(rest)[i].0 == k;
      assert Items(m)[i + 1].0 == k;
    }
  }

  /** An ordered map is determined by its entries. */
  lemma ItemsInjective(m: map<string, string>, n: map<string, string>)
    requires Items(m) == Items(n)
    ensures m == n
  {
    forall k | k in m
      ensures k in n && n[k] == m[k]
    {
      ItemsCoverKeys(m, k);
    }
    forall k | k in n
      ensures k in m
    {
      ItemsCoverKeys(n, k);
    }
  }

  // ------------------------------------------------------------------
  // Decimal numbers
  // ------------------------------------------------------------------

  function Digit(d: nat): (c: char)
    requires d < 10
    ensures IsDigit(c)
  {
    (d + 48) as char
  }

  predicate IsDigit(c: char) {
    '0' <= c <= '9'
  }

  predicate AllDigits(s: string) {
    forall c | c in s :: IsDigit(c)
  }

  function Decimal(n: nat): (s: string)
    ensures |s| >= 1 && AllDigits(s)
  {
    if n < 10 then [Digit(n)] else Decimal(n / 10) + [Digit(n % 10)]
  }

  /** The value of a digit string. */
  function Value(s: string): nat
    requires AllDigits(s)
  {
    if s == [] then 0 else
      assert IsDigit(s[|s| - 1]);
      Value(s[..|s| - 1]) * 10 + (s[|s| - 1] as int - 48)
  }

  lemma {:induction false} ValueOfDecimal(n: nat)
    ensures Value(Decimal(n)) == n
  {
    if n >= 10 {
      ValueOfDecimal(n / 10);
      var s := Decimal(n);
      assert s[..|s| - 1] == Decimal(n / 10);
    }
  }

  lemma DecimalInjective(m: nat, n: nat)
    requires Decimal(m) == Decimal(n)
    ensures m == n
  {
    ValueOfDecimal(m);
    ValueOfDecimal(n);
  }

  // ------------------------------------------------------------------
  // Framing
  // ------------------------------------------------------------------

  /** Text up to a separator it does not contain is recovered exactly. */
  lemma {:induction false} SplitAtSeparator(sep: char, u: string, v: string, x: string, y: string)
    requires sep !in u && sep !in v
    requires u + [sep] + x == v + [sep] + y
    ensures u == v && x == y
  {
    var s := u + [sep] + x;
    assert s[|u|] == sep && s[|v|] == sep;
    assert forall i | 0 <= i < |u| :: s[i] == u[i] && u[i] in u;
    assert forall i | 0 <= i < |v| :: s[i] == v[i] && v[i] in v;
    assert |u| == |v|;
    assert u == s[..|u|] && v == s[..|v|];
    assert x == s[|u| + 1..] && y == s[|v| + 1..];
  }

  /** push_len_prefixed: the length in decimal, a colon, the text, a bar. */
  function Frame(text: string): string {
    Decimal(|text|) + ":" + text + "|"
  }

  /** Frames are prefix-free: a frame at the front of a text is recovered whole. */
  lemma FrameUnique(a: string, b: string, x: string, y: string)
    requires Frame(a) + x == Frame(b) + y
    ensures a == b && x == y
  {
    var s := Frame(a) + x;
    assert s == Decimal(|a|) + [':'] + (a + "|" + x);
    assert s == Decimal(|b|) + [':'] + (b + "|" + y);
    SplitAtSeparator(':', Decimal(|a|), Decimal(|b|), a + "|" + x, b + "|" + y);
    DecimalInjective(|a|, |b|);
    var t := a + "|" + x;
    assert a == t[..|a|] && b == t[..|b|];
    assert x == t[|a| + 1..] && y == t[|b| + 1..];
  }

  function Frames(texts: seq<string>): string {
    if texts == [] then "" else Frame(texts[0]) + Frames(texts[1..])
  }

  lemma {:induction false} FramesUnique(as': seq<string>, bs: seq<string>, x: string, y: string)
    requires |as'| == |bs| && Frames(as') + x == Frames(bs) + y
    ensures as' == bs && x == y
  {
    if as' == [] {
      assert Frames(as') + x == x && Frames(bs) + y == y;
    } else {
      assert Frames(as') + x == Frame(as'[0]) + (Frames(as'[1..]) + x);
      assert Frames(bs) + y == Frame(bs[0]) + (Frames(bs[1..]) + y);
      FrameUnique(as'[0], bs[0], Frames(as'[1..]) + x, Frames(bs[1..]) + y);
      FramesUnique(as'[1..], bs[1..], x, y);
    }
  }

  function Flatten(items: seq<(string, string)>): (texts: seq<string>)
    ensures |texts| == 2 * |items|
    ensures forall i | 0 <= i < |items| :: texts[2 * i] == items[i].0 && texts[2 * i + 1] == items[i].1
  {
    if items == [] then [] else [items[0].0, items[0].1] + Flatten(items[1..])
  }

  function ConstraintFrames(constraints: map<string, string>): string {
    Decimal(|constraints|) + "|" + Frames(Flatten(Items(constraints)))
  }

  lemma ConstraintFramesUnique(c: map<string, string>, c': map<string, string>, x: string, y: string)
    requires ConstraintFrames(c) + x == ConstraintFrames(c') + y
    ensures c == c' && x == y
  {
    var body, body' := Frames(Flatten(Items(c))) + x, Frames(Flatten(Items(c'))) + y;
    Regroup(Decimal(|c|), "|", Frames(Flatten(Items(c))), x);
    Regroup(Decimal(|c'|), "|", Frames(Flatten(Items(c'))), y);
    SplitAtSeparator('|', Decimal(|c|), Decimal(|c'|), body, body');
    DecimalInjective(|c|, |c'|);
    FramesUnique(Flatten(Items(c)), Flatten(Items(c')), x, y);
    FlattenInjective(Items(c), Items(c'));
    ItemsInjective(c, c');
  }

  /** sync_tail_index_name: kind, object type, the number of route constraints
      and every constraint, all framed. */
  function IndexName(kind: string, objectType: string, constraints: map<string, string>): string {
    Frame(kind) + Frame(objectType) + ConstraintFrames(constraints)
  }

  /** Index names are injective and prefix-free. */
  lemma IndexNameUnique(k: string, t: string, c: map<string, string>, k': string, t': string, c': map<string, string>, x: string, y: string)
    requires IndexName(k, t, c) + x == IndexName(k', t', c') + y
    ensures k == k' && t == t' && c == c' && x == y
  {
    var tail, tail' := ConstraintFrames(c) + x, ConstraintFrames(c') + y;
    Regroup(Frame(k), Frame(t), ConstraintFrames(c), x);
    Regroup(Frame(k'), Frame(t'), ConstraintFrames(c'), y);
    FrameUnique(k, k', Frame(t) + tail, Frame(t') + tail');
    FrameUnique(t, t', tail, tail');
    ConstraintFramesUnique(c, c', x, y);
  }

  lemma FlattenInjective(a: seq<(string, string)>, b: seq<(string, string)>)
    requires |a| == |b| && Flatten(a) == Flatten(b)
    ensures a == b
  {
  }

  // ------------------------------------------------------------------
  // Document and route keys
  // ------------------------------------------------------------------

  const DOC_PREFIX: string := "sync:current:doc:"
  const ROUTE_PREFIX: string := "sync:current:route:"
  const OP_PREFIX: string := "sync:tail:op:"
  const ENTRY_PREFIX: string := "sync:tail:index:entry:"
  const LOOKUP_PREFIX: string := "paramlookup:idx:"

  predicate StartsWith(s: string, prefix: string) {
    |prefix| <= |s| && s[..|prefix|] == prefix
  }

  function DocPrefix(objectType: string): string {
    DOC_PREFIX + objectType + ":"
  }

  function DocKey(objectType: string, objectId: string): string {
    DocPrefix(objectType) + objectId
  }

  /** Behind the common prefix, a key is the type, a colon and the id. */
  lemma DocKeyUnframed(t: string, i: string, t': string, i': string)
    ensures DocKey(t, i) == DocKey(t', i') <==> t + ":" + i == t' + ":" + i'
  {
    Regroup(DOC_PREFIX, t, ":", i);
    Regroup(DOC_PREFIX, t', ":", i');
    Regroup(t, ":", i, "");
    Regroup(t', ":", i', "");
    assert t + (":" + i) == t + ":" + i && t' + (":" + i') == t' + ":" + i';
    SamePrefix(DOC_PREFIX, t + ":" + i, t' + ":" + i');
  }

  lemma CollidingTypesExtend(t: string, i: string, t': string, i': string)
    requires |t| < |t'| && DocKey(t, i) == DocKey(t', i')
    ensures StartsWith(t', t + ":")
  {
    DocKeyUnframed(t, i, t', i');
    assert (t' + ":" + i')[..|t| + 1] == (t + ":" + i)[..|t| + 1] == t + ":";
  }

  lemma ExtendedTypesCollide(t: string, t': string)
    requires StartsWith(t', t + ":")
    ensures exists i, i' :: DocKey(t, i) == DocKey(t', i')
  {
    var i := t'[|t| + 1..] + ":";
    assert t + ":" + i == t' + ":" + "";
    DocKeyUnframed(t, i, t', "");
  }

  /** Two object types have documents that share a key if and only if one type
      is the other followed by a colon and more. */
  lemma DocKeysCollideIff(t: string, t': string)
    requires t != t'
    ensures (exists i, i' :: DocKey(t, i) == DocKey(t', i')) <==> StartsWith(t', t + ":") || StartsWith(t, t' + ":")
  {
    if i, i' :| DocKey(t, i) == DocKey(t', i') {
      DocKeyUnframed(t, i, t', i');
      assert (t + ":" + i)[..|t|] == t && (t' + ":" + i')[..|t'|] == t';
      if |t| < |t'| {
        CollidingTypesExtend(t, i, t', i');
      } else {
        CollidingTypesExtend(t', i', t, i);
      }
    }
    if StartsWith(t', t + ":") {
      ExtendedTypesCollide(t, t');
    } else if StartsWith(t, t' + ":") {
      ExtendedTypesCollide(t', t);
      var i', i :| DocKey(t', i') == DocKey(t, i);
    }
  }

  /** Two different documents under one key. */
  lemma CollidingDocuments()
    ensures DocKey("a:b", "c") == DocKey("a", "b:c")
  {
    assert "a:b" + ":" + "c" == "a" + ":" + "b:c";
    DocKeyUnframed("a:b", "c", "a", "b:c");
  }

  lemma SamePrefix(p: string, x: string, y: string)
    ensures p + x == p + y <==> x == y
  {
    assert (p + x)[|p|..] == x && (p + y)[|p|..] == y;
  }

  /** Without colons in object types, document keys are injective. */
  lemma DocKeyInjective(t: string, i: string, t': string, i': string)
    requires ':' !in t && ':' !in t' && DocKey(t, i) == DocKey(t', i')
    ensures t == t' && i == i'
  {
    DocKeyUnframed(t, i, t', i');
    SplitAtSeparator(':', t, t', i, i');
  }

  /** A key inside a type's document prefix is a key of that type. */
  lemma DocScanExact(t: string, t': string, i': string)
    requires ':' !in t && ':' !in t'
    ensures StartsWith(DocKey(t', i'), DocPrefix(t)) <==> t == t'
  {
    var key := DocKey(t', i');
    if StartsWith(key, DocPrefix(t)) {
      var i := key[|DocPrefix(t)|..];
      assert key == DocPrefix(t) + i;
      DocKeyInjective(t, i, t', i');
    }
  }

  function RoutePrefix(objectType: string, constraints: map<string, string>): string {
    ROUTE_PREFIX + objectType + ":" + IndexName("route", objectType, constraints) + ":"
  }

  function RouteKey(objectType: string, constraints: map<string, string>, objectId: string): string {
    RoutePrefix(objectType, constraints) + objectId
  }

  lemma RouteKeyParts(t: string, c: map<string, string>, i: string)
    ensures RouteKey(t, c, i) == ROUTE_PREFIX + (t + ":" + (IndexName("route", t, c) + (":" + i)))
  {
  }

  lemma RouteKeyInjective(t: string, c: map<string, string>, i: string, t': string, c': map<string, string>, i': string)
    requires ':' !in t && ':' !in t' && RouteKey(t, c, i) == RouteKey(t', c', i')
    ensures t == t' && c == c' && i == i'
  {
    RouteKeyParts(t, c, i);
    RouteKeyParts(t', c', i');
    var name, name' := IndexName("route", t, c) + (":" + i), IndexName("route", t', c') + (":" + i');
    SamePrefix(ROUTE_PREFIX, t + ":" + name, t' + ":" + name');
    SplitAtSeparator(':', t, t', name, name');
    IndexNameUnique("route", t, c, "route", t', c', ":" + i, ":" + i');
    SamePrefix(":", i, i');
  }

  /** A prefix scan for a type and route values meets the keys of exactly those. */
  lemma RouteScanExact(t: string, c: map<string, string>, t': string, c': map<string, string>, i': string)
    requires ':' !in t && ':' !in t'
    ensures StartsWith(RouteKey(t', c', i'), RoutePrefix(t, c)) <==> t == t' && c == c'
  {
    var key := RouteKey(t', c', i');
    if StartsWith(key, RoutePrefix(t, c)) {
      var i := key[|RoutePrefix(t, c)|..];
      assert key == RouteKey(t, c, i);
      RouteKeyInjective(t, c, i, t', c', i');
    }
  }

  /** Document keys and route keys never meet. */
  lemma DocAndRouteKeysDisjoint(t: string, i: string, t': string, c: map<string, string>, i': string)
    ensures DocKey(t, i) != RouteKey(t', c, i')
    ensures !StartsWith(DocKey(t, i), RoutePrefix(t', c)) && !StartsWith(RouteKey(t', c, i'), DocPrefix(t))
  {
    assert DocPrefix(t)[13] == 'd' && RoutePrefix(t', c)[13] == 'r';
    assert DocKey(t, i)[13] == 'd' && RouteKey(t', c, i')[13] == 'r';
  }

  // ------------------------------------------------------------------
  // Parameter lookup keys
  // ------------------------------------------------------------------

  function LookupPrefix(lookupId: string, values: seq<string>): string {
    LOOKUP_PREFIX + Frame(lookupId) + Frames(values)
  }

  function LookupKey(lookupId: string, values: seq<string>, rowId: string): string {
    LookupPrefix(lookupId, values) + Frame(rowId)
  }

  /** A scan with a fixed number of key values never returns another key's rows. */
  lemma LookupScanExact(l: string, vs: seq<string>, l': string, vs': seq<string>, rowId: string)
    requires |vs| == |vs'|
    ensures StartsWith(LookupKey(l', vs', rowId), LookupPrefix(l, vs)) <==> l == l' && vs == vs'
  {
    var key := LookupKey(l', vs', rowId);
    if StartsWith(key, LookupPrefix(l, vs)) {
      var rest := key[|LookupPrefix(l, vs)|..];
      assert key == LookupPrefix(l, vs) + rest;
      Regroup(LOOKUP_PREFIX, Frame(l), Frames(vs), rest);
      Regroup(LOOKUP_PREFIX, Frame(l'), Frames(vs'), Frame(rowId));
      SamePrefix(LOOKUP_PREFIX, Frame(l) + (Frames(vs) + rest), Frame(l') + (Frames(vs') + Frame(rowId)));
      FrameUnique(l, l', Frames(vs) + rest, Frames(vs') + Frame(rowId));
      FramesUnique(vs, vs', rest, Frame(rowId));
    }
  }

  /** Frames never end early, so a whole list of them is recovered with its length. */
  lemma {:induction false} FrameListUnique(xs: seq<string>, ys: seq<string>)
    requires Frames(xs) == Frames(ys)
    ensures xs == ys
  {
    if xs != [] && ys != [] {
      FrameUnique(xs[0], ys[0], Frames(xs[1..]), Frames(ys[1..]));
      FrameListUnique(xs[1..], ys[1..]);
      assert xs == [xs[0]] + xs[1..] && ys == [ys[0]] + ys[1..];
    }
  }

  lemma {:induction false} FramesAppend(xs: seq<string>, y: string)
    ensures Frames(xs + [y]) == Frames(xs) + Frame(y)
  {
    if xs != [] {
      FramesAppend(xs[1..], y);
      assert (xs + [y])[1..] == xs[1..] + [y];
    } else {
      assert xs + [y] == [y] && [y][1..] == [];
    }
  }

  /** Lookup keys are injective, whatever the numbers of their values. */
  lemma LookupKeyInjective(l: string, vs: seq<string>, r: string, l': string, vs': seq<string>, r': string)
    requires LookupKey(l, vs, r) == LookupKey(l', vs', r')
    ensures l == l' && vs == vs' && r == r'
  {
    FramesAppend(vs, r);
    FramesAppend(vs', r');
    Regroup(LOOKUP_PREFIX, Frame(l), Frames(vs), Frame(r));
    Regroup(LOOKUP_PREFIX, Frame(l'), Frames(vs'), Frame(r'));
    SamePrefix(LOOKUP_PREFIX, Frame(l) + Frames(vs + [r]), Frame(l') + Frames(vs' + [r']));
    FrameUnique(l, l', Frames(vs + [r]), Frames(vs' + [r']));
    FrameListUnique(vs + [r], vs' + [r']);
    assert (vs + [r])[..|vs|] == vs && (vs' + [r'])[..|vs'|] == vs';
  }

  method AppendPair(name: string, item: (string, string), ghost rest: string) returns (longer: string)
    ensures longer + rest == name + (Frame(item.0) + (Frame(item.1) + rest))
  {
    Regroup(name, Frame(item.0), Frame(item.1), rest);
    longer := name + Frame(item.0);
    longer := longer + Frame(item.1);
  }

  method AppendConstraints(head: string, items: seq<(string, string)>) returns (name: string)
    ensures name == head + Frames(Flatten(items))
  {
    name := head;
    assert items[0..] == items;
    for i := 0 to |items|
      invariant name + Frames(Flatten(items[i..])) == head + Frames(Flatten(items))
    {
      assert items[i..] == [items[i]] + items[i + 1..];
      FramesOfPair(items[i], items[i + 1..]);
      name := AppendPair(name, items[i], Frames(Flatten(items[i + 1..])));
    }
    assert items[|items|..] == [];
    assert name + "" == name;
  }

  /** The index name as the service builds it, appending to one buffer. */
  method BuildIndexName(kind: string, objectType: string, constraints: map<string, string>) returns (name: string)
    ensures name == IndexName(kind, objectType, constraints)
  {
    name := Frame(kind);
    name := name + Frame(objectType);
    name := name + Decimal(|constraints|);
    name := name + "|";
    Regroup(Frame(kind) + Frame(objectType), Decimal(|constraints|), "|", Frames(Flatten(Items(constraints))));
    name := AppendConstraints(name, Items(constraints));
  }

  lemma FramesOfPair(item: (string, string), rest: seq<(string, string)>)
    ensures Frames(Flatten([item] + rest)) == Frame(item.0) + (Frame(item.1) + Frames(Flatten(rest)))
  {
  }

  // ------------------------------------------------------------------
  // Operation ids
  // ------------------------------------------------------------------

  function Pow10(w: nat): (p: nat)
    ensures p >= 1
  {
    if w == 0 then 1 else 10 * Pow10(w - 1)
  }

  /** A number in exactly `w` digits, padded with zeros. */
  function Padded(n: nat, w: nat): (s: string)
    ensures |s| == w && AllDigits(s)
  {
    if w == 0 then "" else Padded(n / 10, w - 1) + [Digit(n % 10)]
  }

  lemma {:induction false} ValueOfPadded(n: nat, w: nat)
    requires n < Pow10(w)
    ensures Value(Padded(n, w)) == n
  {
    if w > 0 {
      ValueOfPadded(n / 10, w - 1);
      assert Padded(n, w)[..w - 1] == Padded(n / 10, w - 1);
    }
  }

  lemma {:induction false} LeAppend(a: string, b: string, x: char, y: char)
    requires |a| == |b|
    ensures Le(a + [x], b + [y]) <==> if a == b then x <= y else Le(a, b)
  {
    if a != [] {
      LeAppend(a[1..], b[1..], x, y);
      assert (a + [x])[1..] == a[1..] + [x] && (b + [y])[1..] == b[1..] + [y];
      assert a == [a[0]] + a[1..] && b == [b[0]] + b[1..];
    }
  }

  /** Padded numbers sort as the numbers do. */
  lemma {:induction false} PaddedOrder(m: nat, n: nat, w: nat)
    requires m < Pow10(w) && n < Pow10(w)
    ensures Le(Padded(m, w), Padded(n, w)) <==> m <= n
    ensures Padded(m, w) == Padded(n, w) ==> m == n
  {
    ValueOfPadded(m, w);
    ValueOfPadded(n, w);
    if w > 0 {
      PaddedOrder(m / 10, n / 10, w - 1);
      LeAppend(Padded(m / 10, w - 1), Padded(n / 10, w - 1), Digit(m % 10), Digit(n % 10));
    }
  }

  lemma U64FitsTwentyDigits(n: U64)
    ensures n < Pow10(20)
  {
    assert Pow10(4) == 10000;
    assert Pow10(8) == 10000 * Pow10(4);
    assert Pow10(12) == 10000 * Pow10(8);
    assert Pow10(16) == 10000 * Pow10(12);
    assert Pow10(20) == 10000 * Pow10(16);
  }

  /** str::parse::<u64>: an optional plus sign, then digits within range. */
  function ParseU64(s: string): Option<U64> {
    var digits := if s != "" && s[0] == '+' then s[1..] else s;
    if digits == "" || !AllDigits(digits) then None
    else if Value(digits) > U64_MAX then None
    else Some(Value(digits))
  }

  function EntryPrefix(indexName: string): string {
    ENTRY_PREFIX + indexName + ":"
  }

  function EntryKey(indexName: string, opId: U64): string {
    EntryPrefix(indexName) + Padded(opId, 20)
  }

  function OpIdFromKey(key: string, prefix: string): Option<U64> {
    if |prefix| > |key| then None else ParseU64(key[|prefix|..])
  }

  function OpKey(opId: U64): string {
    OP_PREFIX + Padded(opId, 20)
  }

  lemma {:induction false} LeSamePrefix(p: string, a: string, b: string)
    ensures Le(p + a, p + b) <==> Le(a, b)
  {
    if p == [] {
      assert p + a == a && p + b == b;
    } else {
      LeSamePrefix(p[1..], a, b);
      assert (p + a)[1..] == p[1..] + a && (p + b)[1..] == p[1..] + b;
    }
  }

  /** Index entries parse back to their operation id and sort by it, and so do
      the operation records. */
  lemma OpIdKeysOrdered(indexName: string, m: U64, n: U64)
    ensures OpIdFromKey(EntryKey(indexName, m), EntryPrefix(indexName)) == Some(m)
    ensures Le(EntryKey(indexName, m), EntryKey(indexName, n)) <==> m <= n
    ensures Le(OpKey(m), OpKey(n)) <==> m <= n
    ensures OpKey(m) == OpKey(n) ==> m == n
  {
    U64FitsTwentyDigits(m);
    U64FitsTwentyDigits(n);
    PaddedOrder(m, n, 20);
    ValueOfPadded(m, 20);
    LeSamePrefix(EntryPrefix(indexName), Padded(m, 20), Padded(n, 20));
    LeSamePrefix(OP_PREFIX, Padded(m, 20), Padded(n, 20));
    SamePrefix(OP_PREFIX, Padded(m, 20), Padded(n, 20));
    var suffix := Padded(m, 20);
    assert EntryKey(indexName, m)[|EntryPrefix(indexName)|..] == suffix;
    assert IsDigit(suffix[0]) by { assert suffix[0] in suffix; }
  }

  /** A scan of one tail index never meets an entry of another, and the parser
      returns the op id of each entry it meets. */
  lemma EntryScanExact(k: string, t: string, c: map<string, string>, k': string, t': string, c': map<string, string>, opId: U64)
    ensures StartsWith(EntryKey(IndexName(k', t', c'), opId), EntryPrefix(IndexName(k, t, c))) <==>
            k == k' && t == t' && c == c'
    ensures StartsWith(EntryKey(IndexName(k', t', c'), opId), EntryPrefix(IndexName(k, t, c))) ==>
            OpIdFromKey(EntryKey(IndexName(k', t', c'), opId), EntryPrefix(IndexName(k, t, c))) == Some(opId)
  {
    OpIdKeysOrdered(IndexName(k', t', c'), opId, opId);
    var name, name' := IndexName(k, t, c), IndexName(k', t', c');
    var key := EntryKey(name', opId);
    if StartsWith(key, EntryPrefix(name)) {
      var rest := key[|EntryPrefix(name)|..];
      assert key == EntryPrefix(name) + rest;
      Regroup(ENTRY_PREFIX, name, ":", rest);
      Regroup(ENTRY_PREFIX, name', ":", Padded(opId, 20));
      SamePrefix(ENTRY_PREFIX, name + (":" + rest), name' + (":" + Padded(opId, 20)));
      IndexNameUnique(k, t, c, k', t', c', ":" + rest, ":" + Padded(opId, 20));
    }
  }
}
