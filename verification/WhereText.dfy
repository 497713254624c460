/** WHERE-clause text: the top-level keyword splitter, and printing and parsing
    of parameter bindings. Text is a sequence of characters; every character the
    scanner reacts to is ASCII. */
module WhereText {
  import opened Common

  // ------------------------------------------------------------------
  // Characters
  // ------------------------------------------------------------------

  /** Unicode white space, as `str::trim` sees it. */
  predicate IsSpace(c: char) {
    var n := c as int;
    9 <= n <= 13 || n == 32 || n == 0x85 || n == 0xA0 || n == 0x1680 || 0x2000 <= n <= 0x200A
    || n == 0x2028 || n == 0x2029 || n == 0x202F || n == 0x205F || n == 0x3000
  }

  predicate IsLetter(c: char) {
    'a' <= c <= 'z' || 'A' <= c <= 'Z'
  }

  function Lower(c: char): char {
    if 'A' <= c <= 'Z' then (c as int + 32) as char else c
  }

  function TrimStart(s: string): string {
    if s != "" && IsSpace(s[0]) then TrimStart(s[1..]) else s
  }

  function TrimEnd(s: string): string {
    if s != "" && IsSpace(s[|s| - 1]) then TrimEnd(s[..|s| - 1]) else s
  }

  function Trim(s: string): string {
    TrimEnd(TrimStart(s))
  }

  /** A part is kept trimmed, unless nothing is left. */
  function Kept(s: string): seq<string> {
    if Trim(s) == "" then [] else [Trim(s)]
  }

  lemma {:induction false} TrimStartAppendSpace(s: string, c: char)
    requires IsSpace(c)
    ensures TrimEnd(TrimStart(s + [c])) == TrimEnd(TrimStart(s))
  {
    if s == "" {
      assert s + [c] == [c] && [c][1..] == "";
    } else if IsSpace(s[0]) {
      assert (s + [c])[1..] == s[1..] + [c];
      TrimStartAppendSpace(s[1..], c);
    } else {
      assert (s + [c])[..|s|] == s;
    }
  }

  lemma KeptIgnoresOuterSpace(s: string)
    ensures Kept(s + " ") == Kept(s) && Kept(" " + s) == Kept(s)
  {
    TrimStartAppendSpace(s, ' ');
    assert (" " + s)[1..] == s;
  }

  lemma TrimKeeps(s: string)
    requires s != "" && !IsSpace(s[0]) && !IsSpace(s[|s| - 1])
    ensures Trim(s) == s
  {
  }

  // ------------------------------------------------------------------
  // The splitter
  // ------------------------------------------------------------------

  /** Inside a quote or not, and how deep in parentheses. */
  datatype Scan = Scan(quote: Option<char>, depth: int)

  const NEUTRAL: Scan := Scan(None, 0)

  function Advance(st: Scan, c: char): Scan {
    if st.quote.Some? then (if c == st.quote.value then st.(quote := None) else st)
    else if c == '\'' || c == '"' then st.(quote := Some(c))
    else if c == '(' then st.(depth := st.depth + 1)
    else if c == ')' then st.(depth := st.depth - 1)
    else st
  }

  /** The scanner state after a text. */
  function Final(st: Scan, s: string): Scan
    decreases |s|
  {
    if s == "" then st else Final(Advance(st, s[0]), s[1..])
  }

  predicate Boundary(c: Option<char>) {
    c.None? || !(IsLetter(c.value) || '0' <= c.value <= '9' || c.value == '_')
  }

  function FirstOf(s: string): Option<char> {
    if s == "" then None else Some(s[0])
  }

  predicate Matches(keyword: string, s: string) {
    |keyword| <= |s| && forall i | 0 <= i < |keyword| :: Lower(s[i]) == Lower(keyword[i])
  }

  predicate IsKeyword(keyword: string) {
    keyword != "" && forall c | c in keyword :: IsLetter(c)
  }

  /** A keyword starts here, at top level and as a whole word. */
  predicate SplitsHere(keyword: string, prev: Option<char>, st: Scan, rest: string) {
    st == NEUTRAL && Matches(keyword, rest) && Boundary(prev) && Boundary(FirstOf(rest[|keyword|..]))
  }

  /** The parts of a text of which `acc` belongs to the current part and `rest`
      is still to be scanned, `prev` being the character before it. */
  function Parts(keyword: string, prev: Option<char>, acc: string, st: Scan, rest: string): seq<string>
    requires IsKeyword(keyword)
    decreases |rest|
  {
    if |rest| < |keyword| then Kept(acc + rest)
    else if SplitsHere(keyword, prev, st, rest)
    then Kept(acc) + Parts(keyword, Some(rest[|keyword| - 1]), "", st, rest[|keyword|..])
    else Parts(keyword, Some(rest[0]), acc + [rest[0]], Advance(st, rest[0]), rest[1..])
  }

  function Split(keyword: string, value: string): seq<string>
    requires IsKeyword(keyword)
  {
    Parts(keyword, None, "", NEUTRAL, value)
  }

  function Before(value: string, index: nat): Option<char>
    requires index <= |value|
  {
    if index == 0 then None else Some(value[index - 1])
  }

  /** The parts still to come when the loop stands at `index` with a part begun at `start`. */
  ghost function At(value: string, keyword: string, start: nat, index: nat, st: Scan): seq<string>
    requires IsKeyword(keyword) && start <= index <= |value|
  {
    Parts(keyword, Before(value, index), value[start..index], st, value[index..])
  }

  lemma AtKeyword(value: string, keyword: string, start: nat, index: nat, st: Scan)
    requires IsKeyword(keyword) && start <= index && index + |keyword| <= |value|
    requires SplitsHere(keyword, Before(value, index), st, value[index..])
    ensures At(value, keyword, start, index, st)
         == Kept(value[start..index]) + At(value, keyword, index + |keyword|, index + |keyword|, st)
  {
  }

  lemma AtOther(value: string, keyword: string, start: nat, index: nat, st: Scan)
    requires IsKeyword(keyword) && start <= index && index + |keyword| <= |value|
    requires !SplitsHere(keyword, Before(value, index), st, value[index..])
    ensures At(value, keyword, start, index, st) == At(value, keyword, start, index + 1, Advance(st, value[index]))
  {
    assert value[index..][1..] == value[index + 1..];
    assert value[start..index] + [value[index]] == value[start..index + 1];
  }

  lemma AtEnd(value: string, keyword: string, start: nat, index: nat, st: Scan)
    requires IsKeyword(keyword) && start <= index <= |value| < index + |keyword|
    ensures At(value, keyword, start, index, st) == Kept(value[start..])
  {
    assert value[start..index] + value[index..] == value[start..];
  }

  lemma KeywordIsPlain(keyword: string, rest: string)
    requires IsKeyword(keyword) && Matches(keyword, rest)
    ensures rest[0] !in {'\'', '"', '(', ')'}
  {
    assert keyword[0] in keyword && Lower(rest[0]) == Lower(keyword[0]);
  }

  method AddPart(parts: seq<string>, text: string) returns (more: seq<string>)
    ensures more == parts + Kept(text)
  {
    var part := Trim(text);
    more := if part == "" then parts else parts + [part];
  }

  /** The test at one byte: quotes first, then parentheses, then the keyword. */
  method KeywordAt(value: string, keyword: string, index: nat, st: Scan) returns (found: bool)
    requires IsKeyword(keyword) && index + |keyword| <= |value|
    ensures found == SplitsHere(keyword, Before(value, index), st, value[index..])
  {
    var c := value[index];
    assert value[index..][|keyword|..] == value[index + |keyword|..];
    if st.quote.Some? || c in {'\'', '"', '(', ')'} {
      if Matches(keyword, value[index..]) && st == NEUTRAL {
        KeywordIsPlain(keyword, value[index..]);
      }
      return false;
    }
    found := st.depth == 0 && Matches(keyword, value[index..])
      && Boundary(Before(value, index)) && Boundary(FirstOf(value[index + |keyword|..]));
  }

  /** The service's loop over an index. */
  method SplitTopLevelKeyword(value: string, keyword: string) returns (parts: seq<string>)
    requires IsKeyword(keyword)
    ensures parts == Split(keyword, value)
  {
    parts := [];
    var start, index, st := 0, 0, NEUTRAL;
    ghost var whole := At(value, keyword, 0, 0, st);
    assert whole == Split(keyword, value) by {
      assert value[0..0] == "" && value[0..] == value;
    }
    while index + |keyword| <= |value|
      invariant 0 <= start <= index <= |value|
      invariant parts + At(value, keyword, start, index, st) == whole
    {
      var found := KeywordAt(value, keyword, index, st);
      if found {
        AtKeyword(value, keyword, start, index, st);
        Associates(parts, Kept(value[start..index]), At(value, keyword, index + |keyword|, index + |keyword|, st));
        parts := AddPart(parts, value[start..index]);
        start := index + |keyword|;
        index := start;
      } else {
        AtOther(value, keyword, start, index, st);
        st := Advance(st, value[index]);
        index := index + 1;
      }
    }
    AtEnd(value, keyword, start, index, st);
    parts := AddPart(parts, value[start..]);
  }

  // ------------------------------------------------------------------
  // Splitting a conjunction
  // ------------------------------------------------------------------

  /** What precedes a part matters only through being a boundary, and leading space not at all. */
  lemma {:induction false} LeadingSpace(keyword: string, prev: Option<char>, prev': Option<char>, acc: string, st: Scan, rest: string)
    requires IsKeyword(keyword) && Boundary(prev) == Boundary(prev')
    ensures Parts(keyword, prev, " " + acc, st, rest) == Parts(keyword, prev', acc, st, rest)
    decreases |rest|
  {
    if |rest| < |keyword| {
      KeptIgnoresOuterSpace(acc + rest);
      assert " " + acc + rest == " " + (acc + rest);
    } else if SplitsHere(keyword, prev, st, rest) {
      KeptIgnoresOuterSpace(acc);
    } else {
      assert " " + acc + [rest[0]] == " " + (acc + [rest[0]]);
      LeadingSpace(keyword, Some(rest[0]), Some(rest[0]), acc + [rest[0]], Advance(st, rest[0]), rest[1..]);
    }
  }

  function Separator(keyword: string): string {
    " " + keyword + " "
  }

  lemma AtSeparator(keyword: string, prev: Option<char>, acc: string, q: string)
    requires IsKeyword(keyword)
    ensures Parts(keyword, prev, acc, NEUTRAL, Separator(keyword) + q) == Kept(acc) + Split(keyword, q)
  {
    var text := Separator(keyword) + q;
    assert text[0] == ' ' && Lower(' ') == ' ';
    assert keyword[0] in keyword;
    assert !Matches(keyword, text);
    var rest := text[1..];
    assert Parts(keyword, prev, acc, NEUTRAL, text) == Parts(keyword, Some(' '), acc + " ", NEUTRAL, rest);
    assert rest == keyword + (" " + q);
    assert rest[..|keyword|] == keyword && rest[|keyword|..] == " " + q;
    assert SplitsHere(keyword, Some(' '), NEUTRAL, rest);
    var last := Some(keyword[|keyword| - 1]);
    KeptIgnoresOuterSpace(acc);
    assert Parts(keyword, Some(' '), acc + " ", NEUTRAL, rest) == Kept(acc) + Parts(keyword, last, "", NEUTRAL, " " + q);
    AfterSeparator(keyword, last, q);
  }

  lemma AfterSeparator(keyword: string, prev: Option<char>, q: string)
    requires IsKeyword(keyword)
    ensures Parts(keyword, prev, "", NEUTRAL, " " + q) == Split(keyword, q)
  {
    assert keyword[0] in keyword;
    assert !Matches(keyword, " " + q) by {
      assert (" " + q)[0] == ' ';
    }
    assert (" " + q)[1..] == q;
    if |" " + q| < |keyword| {
      KeptIgnoresOuterSpace(q);
      assert "" + (" " + q) == " " + q && "" + q == q;
    } else {
      assert "" + [' '] == " " + "";
      LeadingSpace(keyword, Some(' '), None, "", NEUTRAL, q);
    }
  }

  lemma {:induction false} LettersKeepState(st: Scan, s: string)
    requires st.quote.None? && forall c | c in s :: IsLetter(c)
    ensures Final(st, s) == st
  {
    if s != "" {
      assert s[0] in s;
      LettersKeepState(st, s[1..]);
    }
  }

  lemma {:induction false} FinalSplits(st: Scan, s: string, t: string)
    ensures Final(st, s + t) == Final(Final(st, s), t)
    decreases |s|
  {
    if s == "" {
      assert s + t == t;
    } else {
      assert (s + t)[1..] == s[1..] + t;
      FinalSplits(Advance(st, s[0]), s[1..], t);
    }
  }

  /** A keyword that starts inside `p` ends inside it, since a space follows. */
  lemma MatchStaysInside(keyword: string, p: string, rest: string)
    requires IsKeyword(keyword) && rest != "" && !IsLetter(rest[0])
    ensures Matches(keyword, p + rest) <==> Matches(keyword, p)
  {
    if |p| < |keyword| {
      assert keyword[|p|] in keyword;
      assert (p + rest)[|p|] == rest[0];
    }
  }

  lemma MatchedAreLetters(keyword: string, p: string)
    requires IsKeyword(keyword) && Matches(keyword, p)
    ensures forall c | c in p[..|keyword|] :: IsLetter(c)
  {
  }

  /** Text after a space does not change whether a keyword splits at the front of `p`. */
  lemma SplitsAlike(keyword: string, prev: Option<char>, st: Scan, p: string, tail: string)
    requires IsKeyword(keyword) && tail != "" && tail[0] == ' '
    ensures SplitsHere(keyword, prev, st, p + tail) <==> SplitsHere(keyword, prev, st, p)
  {
    MatchStaysInside(keyword, p, tail);
    if Matches(keyword, p) {
      assert (p + tail)[|keyword|..] == p[|keyword|..] + tail;
    }
  }

  lemma OneStep(keyword: string, prev: Option<char>, acc: string, st: Scan, c: char, rest: string)
    requires IsKeyword(keyword) && !SplitsHere(keyword, prev, st, [c] + rest)
    ensures Parts(keyword, prev, acc, st, [c] + rest) == Parts(keyword, Some(c), acc + [c], Advance(st, c), rest)
  {
    assert ([c] + rest)[1..] == rest;
    assert acc + ([c] + rest) == acc + [c] + rest;
  }

  lemma ConjunctionStep(keyword: string, prev: Option<char>, acc: string, st: Scan, p: string, tail: string, more: seq<string>)
    requires IsKeyword(keyword) && p != "" && tail != "" && tail[0] == ' '
    requires !SplitsHere(keyword, prev, st, p)
    requires Parts(keyword, Some(p[0]), acc + [p[0]], Advance(st, p[0]), p[1..] + tail)
          == Parts(keyword, Some(p[0]), acc + [p[0]], Advance(st, p[0]), p[1..]) + more
    ensures Parts(keyword, prev, acc, st, p + tail) == Parts(keyword, prev, acc, st, p) + more
  {
    SplitsAlike(keyword, prev, st, p, tail);
    assert p == [p[0]] + p[1..] && p + tail == [p[0]] + (p[1..] + tail);
    OneStep(keyword, prev, acc, st, p[0], p[1..]);
    OneStep(keyword, prev, acc, st, p[0], p[1..] + tail);
  }

  lemma ConjunctionSplit(keyword: string, prev: Option<char>, acc: string, st: Scan, p: string, tail: string, more: seq<string>)
    requires IsKeyword(keyword) && tail != "" && tail[0] == ' ' && SplitsHere(keyword, prev, st, p)
    requires Parts(keyword, Some(p[|keyword| - 1]), "", st, p[|keyword|..] + tail)
          == Parts(keyword, Some(p[|keyword| - 1]), "", st, p[|keyword|..]) + more
    ensures Parts(keyword, prev, acc, st, p + tail) == Parts(keyword, prev, acc, st, p) + more
  {
    SplitsAlike(keyword, prev, st, p, tail);
    assert (p + tail)[|keyword|..] == p[|keyword|..] + tail;
    var rest := Parts(keyword, Some(p[|keyword| - 1]), "", st, p[|keyword|..]);
    assert Kept(acc) + (rest + more) == Kept(acc) + rest + more;
  }

  lemma {:induction false} PartsOfConjunction(keyword: string, prev: Option<char>, acc: string, st: Scan, p: string, q: string)
    requires IsKeyword(keyword) && Final(st, p) == NEUTRAL
    ensures Parts(keyword, prev, acc, st, p + (Separator(keyword) + q)) == Parts(keyword, prev, acc, st, p) + Split(keyword, q)
    decreases |p|
  {
    var tail := Separator(keyword) + q;
    if p == "" {
      assert p + tail == tail && acc + p == acc;
      AtSeparator(keyword, prev, acc, q);
    } else if SplitsHere(keyword, prev, st, p) {
      MatchedAreLetters(keyword, p);
      LettersKeepState(st, p[..|keyword|]);
      FinalSplits(st, p[..|keyword|], p[|keyword|..]);
      assert p == p[..|keyword|] + p[|keyword|..];
      PartsOfConjunction(keyword, Some(p[|keyword| - 1]), "", st, p[|keyword|..], q);
      ConjunctionSplit(keyword, prev, acc, st, p, tail, Split(keyword, q));
    } else {
      PartsOfConjunction(keyword, Some(p[0]), acc + [p[0]], Advance(st, p[0]), p[1..], q);
      ConjunctionStep(keyword, prev, acc, st, p, tail, Split(keyword, q));
    }
  }

  /** Splitting `p AND q` gives the parts of p followed by the parts of q,
      whenever p ends outside quotes and parentheses. */
  lemma SplitOfConjunction(keyword: string, p: string, q: string)
    requires IsKeyword(keyword) && Final(NEUTRAL, p) == NEUTRAL
    ensures Split(keyword, p + Separator(keyword) + q) == Split(keyword, p) + Split(keyword, q)
  {
    assert p + Separator(keyword) + q == p + (Separator(keyword) + q);
    PartsOfConjunction(keyword, None, "", NEUTRAL, p, q);
  }

  /** A single predicate: neutral at its end and not split. */
  ghost predicate Predicate(keyword: string, p: string)
    requires IsKeyword(keyword)
  {
    Final(NEUTRAL, p) == NEUTRAL && Split(keyword, p) == [p]
  }

  function Joined(keyword: string, ps: seq<string>): string {
    if ps == [] then "" else if |ps| == 1 then ps[0] else ps[0] + Separator(keyword) + Joined(keyword, ps[1..])
  }

  /** Joining predicates and splitting the result gives the predicates back. */
  lemma {:induction false} SplitUndoesJoin(keyword: string, ps: seq<string>)
    requires IsKeyword(keyword) && forall p | p in ps :: Predicate(keyword, p)
    ensures Split(keyword, Joined(keyword, ps)) == ps
  {
    if |ps| == 1 {
      assert ps[0] in ps && ps == [ps[0]];
    } else if ps != [] {
      assert ps[0] in ps;
      SplitUndoesJoin(keyword, ps[1..]);
      SplitOfConjunction(keyword, ps[0], Joined(keyword, ps[1..]));
      assert [ps[0]] + ps[1..] == ps;
    }
  }
}
