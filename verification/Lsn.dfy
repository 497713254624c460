/** The pg_lsn text form: two hexadecimal 32-bit halves (section 8.20 of the
    PostgreSQL 16 documentation). */
module Lsn {
  import opened Common

  function Digit(n: nat): char
    requires n < 16
  {
    if n < 10 then ('0' as int + n) as char else ('A' as int + n - 10) as char
  }

  /** The value of a hexadecimal digit of either case. */
  function DigitValue(c: char): Option<nat> {
    if '0' <= c <= '9' then Some(c as int - '0' as int)
    else if 'A' <= c <= 'F' then Some(c as int - 'A' as int + 10)
    else if 'a' <= c <= 'f' then Some(c as int - 'a' as int + 10)
    else None
  }

  /** Upper-case hexadecimal without leading zeros. */
  function Hex(n: nat): string {
    if n < 16 then [Digit(n)] else Hex(n / 16) + [Digit(n % 16)]
  }

  function HexValue(s: string): Option<nat> {
    if s == "" then Some(0) else
      match HexValue(s[..|s| - 1])
      case None => None
      case Some(high) =>
        match DigitValue(s[|s| - 1])
        case None => None
        case Some(low) => Some(high * 16 + low)
  }

  /** An optional plus sign, then at least one digit, within 32 bits. */
  function ParseHalf(s: string): Option<nat> {
    var digits := if s != "" && s[0] == '+' then s[1..] else s;
    if digits == "" then None
    else match HexValue(digits)
      case None => None
      case Some(n) => if n < TWO_32 then Some(n) else None
  }

  function SplitSlash(s: string): Option<(string, string)> {
    if s == "" then None
    else if s[0] == '/' then Some(("", s[1..]))
    else match SplitSlash(s[1..])
      case None => None
      case Some((left, right)) => Some(([s[0]] + left, right))
  }

  function Print(lsn: U64): string {
    Hex(lsn / TWO_32) + "/" + Hex(lsn % TWO_32)
  }

  function Parse(s: string): Option<nat> {
    match SplitSlash(s)
    case None => None
    case Some((left, right)) =>
      if ParseHalf(left).None? || ParseHalf(right).None? then None
      else Some(ParseHalf(left).value * TWO_32 + ParseHalf(right).value)
  }

  lemma {:induction false} HexReadsBack(n: nat)
    ensures HexValue(Hex(n)) == Some(n) && Hex(n) != "" && forall c | c in Hex(n) :: DigitValue(c).Some?
  {
    if n < 16 {
      assert Hex(n)[..0] == "";
    } else {
      HexReadsBack(n / 16);
      assert Hex(n)[..|Hex(n)| - 1] == Hex(n / 16);
    }
  }

  lemma HalfReadsBack(n: nat)
    requires n < TWO_32
    ensures ParseHalf(Hex(n)) == Some(n) && '/' !in Hex(n)
  {
    HexReadsBack(n);
    assert Hex(n)[0] in Hex(n);
  }

  lemma {:induction false} SplitAtFirst(left: string, right: string)
    requires '/' !in left
    ensures SplitSlash(left + ("/" + right)) == Some((left, right))
  {
    var s := left + ("/" + right);
    if left == "" {
      assert s == "/" + right && s[1..] == right;
    } else {
      assert left[0] in left;
      assert s[1..] == left[1..] + ("/" + right);
      SplitAtFirst(left[1..], right);
      assert [left[0]] + left[1..] == left;
    }
  }

  lemma {:induction false} SplitIsFaithful(s: string)
    ensures var r := SplitSlash(s); r.Some? ==> s == r.value.0 + ("/" + r.value.1) && '/' !in r.value.0
  {
    if s != "" && s[0] != '/' {
      SplitIsFaithful(s[1..]);
      var r := SplitSlash(s[1..]);
      if r.Some? {
        assert s == [s[0]] + (r.value.0 + ("/" + r.value.1));
        assert s == ([s[0]] + r.value.0) + ("/" + r.value.1);
      }
    } else if s != "" {
      assert s == "" + ("/" + s[1..]);
    }
  }

  /** Parsing the printed form of any LSN returns it. */
  lemma PrintReadsBack(lsn: U64)
    ensures Parse(Print(lsn)) == Some(lsn)
  {
    var high, low := lsn / TWO_32, lsn % TWO_32;
    assert Print(lsn) == Hex(high) + ("/" + Hex(low));
    HalvesReadBack(high, low);
  }

  lemma HalvesReadBack(high: U32, low: U32)
    ensures Parse(Hex(high) + ("/" + Hex(low))) == Some(high * TWO_32 + low)
  {
    HalfReadsBack(high);
    HalfReadsBack(low);
    SplitAtFirst(Hex(high), Hex(low));
  }

  /** Neither half of an accepted text carries into the other word. */
  lemma NoHalfCarries(s: string)
    requires Parse(s).Some?
    ensures var left, right := SplitSlash(s).value.0, SplitSlash(s).value.1;
            0 <= Parse(s).value <= U64_MAX
            && Some(Parse(s).value / TWO_32) == ParseHalf(left) && Some(Parse(s).value % TWO_32) == ParseHalf(right)
  {
  }

  // ------------------------------------------------------------------
  // Which texts are canonical
  // ------------------------------------------------------------------

  /** Upper-case digits only, and no leading zero before another digit. */
  predicate Canonical(s: string) {
    && s != "" && (forall c | c in s :: '0' <= c <= '9' || 'A' <= c <= 'F')
    && (|s| > 1 ==> s[0] != '0')
  }

  lemma {:induction false} HexIsCanonical(n: nat)
    ensures Canonical(Hex(n)) && (n > 0 ==> Hex(n)[0] != '0')
  {
    if n >= 16 {
      HexIsCanonical(n / 16);
      assert Hex(n)[0] == Hex(n / 16)[0];
    }
  }

  lemma DigitReadsBack(c: char)
    requires '0' <= c <= '9' || 'A' <= c <= 'F'
    ensures DigitValue(c).Some? && DigitValue(c).value < 16 && Digit(DigitValue(c).value) == c
    ensures DigitValue(c).value == 0 <==> c == '0'
  {
  }

  lemma HexAppends(high: nat, low: nat)
    requires high > 0 && low < 16
    ensures Hex(high * 16 + low) == Hex(high) + [Digit(low)]
  {
  }

  lemma {:induction false} CanonicalPrints(s: string)
    requires Canonical(s)
    ensures HexValue(s).Some? && Hex(HexValue(s).value) == s && (s[0] != '0' ==> HexValue(s).value > 0)
    decreases |s|
  {
    var front, last := s[..|s| - 1], s[|s| - 1];
    assert s == front + [last] && last in s;
    DigitReadsBack(last);
    if front == "" {
      assert HexValue(front) == Some(0);
    } else {
      assert Canonical(front) && front[0] == s[0] by {
        assert forall c | c in front :: c in s;
      }
      CanonicalPrints(front);
      HexAppends(HexValue(front).value, DigitValue(last).value);
    }
  }

  /** An accepted half prints back as itself if and only if it is canonical: a
      plus sign, lower case and leading zeros are accepted too. */
  lemma HalfPrintsBackIff(s: string)
    requires ParseHalf(s).Some?
    ensures Hex(ParseHalf(s).value) == s <==> Canonical(s)
  {
    HexIsCanonical(ParseHalf(s).value);
    if Canonical(s) {
      assert s[0] in s;
      CanonicalPrints(s);
    }
  }

  /** An accepted text prints back as itself exactly when both halves are canonical. */
  lemma PrintsBackIffCanonical(s: string)
    requires Parse(s).Some?
    ensures var left, right := SplitSlash(s).value.0, SplitSlash(s).value.1;
            0 <= Parse(s).value <= U64_MAX && (Print(Parse(s).value) == s <==> Canonical(left) && Canonical(right))
  {
    var (left, right) := SplitSlash(s).value;
    var lsn := Parse(s).value;
    NoHalfCarries(s);
    SplitIsFaithful(s);
    HalfPrintsBackIff(left);
    HalfPrintsBackIff(right);
    var high, low := lsn / TWO_32, lsn % TWO_32;
    assert Print(lsn) == Hex(high) + ("/" + Hex(low));
    HalfReadsBack(high);
    SplitAtFirst(Hex(high), Hex(low));
    SplitAtFirst(left, right);
  }

  /** A sign and a lower-case digit are accepted, and print back otherwise. */
  lemma AcceptedButNotPrinted()
    ensures Parse("+0/a") == Some(10) && Print(10) == "0/A" != "+0/a"
  {
    SplitAtFirst("+0", "a");
    assert "+0" + ("/" + "a") == "+0/a";
    assert "+0"[1..] == "0" && "0"[..0] == "" && "a"[..0] == "";
    assert ParseHalf("+0") == Some(0) && ParseHalf("a") == Some(10);
  }
}
