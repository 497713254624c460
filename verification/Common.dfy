/** Shared vocabulary: options and results, the machine integer widths the
    service relies on, and order-independent sums over finite sets. */
module Common {

  datatype Option<+T> = None | Some(value: T)

  datatype Result<+T, +E> = Ok(value: T) | Err(error: E)

  type U32 = x: int | 0 <= x < 0x1_0000_0000
  type U64 = x: int | 0 <= x < 0x1_0000_0000_0000_0000

  const TWO_32: int := 0x1_0000_0000
  const U64_MAX: int := 0xFFFF_FFFF_FFFF_FFFF

  /** u32::wrapping_add */
  function WrapAdd(a: U32, b: U32): U32 {
    (a + b) % TWO_32
  }

  /** u32::wrapping_sub */
  function WrapSub(a: U32, b: U32): U32 {
    (a - b) % TWO_32
  }

  lemma WrapAddCarries(a: U32, b: U32)
    ensures WrapAdd(a, b) == if a + b < TWO_32 then a + b else a + b - TWO_32
  {
  }

  lemma WrapAddAssociates(a: U32, b: U32, c: U32)
    ensures WrapAdd(WrapAdd(a, b), c) == WrapAdd(a, WrapAdd(b, c))
    ensures WrapAdd(a, b) == WrapAdd(b, a) && WrapAdd(a, 0) == a
  {
    WrapAddCarries(a, b);
    WrapAddCarries(b, c);
    WrapAddCarries(WrapAdd(a, b), c);
    WrapAddCarries(a, WrapAdd(b, c));
  }

  lemma WrapAddReduces(sum: U32, total: int, b: U32, total': int)
    requires sum == total % TWO_32 && total' == total + b
    ensures WrapAdd(sum, b) == total' % TWO_32
  {
  }

  lemma WrapSubReduces(sum: U32, total: int, b: U32, total': int)
    requires sum == total % TWO_32 && total == total' + b
    ensures WrapSub(sum, b) == total' % TWO_32
  {
  }

  function Min(a: int, b: int): int {
    if a <= b then a else b
  }

  function Max(a: int, b: int): int {
    if a <= b then b else a
  }

  /** The set of elements of a sequence. */
  function Elements<T>(s: seq<T>): set<T> {
    set x | x in s
  }

  predicate Distinct<T(==)>(s: seq<T>) {
    forall i, j | 0 <= i < j < |s| :: s[i] != s[j]
  }

  lemma Associates<T>(a: seq<T>, b: seq<T>, c: seq<T>)
    ensures a + b + c == a + (b + c)
  {
  }

  lemma Regroup<T>(a: seq<T>, b: seq<T>, c: seq<T>, x: seq<T>)
    ensures a + b + c + x == a + (b + (c + x)) == a + (b + c) + x
    ensures a + b + c + x == a + b + (c + x) == a + (b + c + x)
  {
  }

  /** The sum of `f` over a finite set, independent of any enumeration order. */
  ghost function Sum<T(!new)>(f: T -> int, s: set<T>): int {
    if s == {} then 0 else
      var x :| x in s;
      f(x) + Sum(f, s - {x})
  }

  lemma {:induction false} SumExtract<T(!new)>(f: T -> int, s: set<T>, x: T)
    requires x in s
    ensures Sum(f, s) == f(x) + Sum(f, s - {x})
    decreases s
  {
    var y :| y in s && Sum(f, s) == f(y) + Sum(f, s - {y});
    if y != x {
      SumExtract(f, s - {y}, x);
      SumExtract(f, s - {x}, y);
      assert s - {x} - {y} == s - {y} - {x};
    }
  }

  lemma {:induction false} SumCongruent<T(!new)>(f: T -> int, g: T -> int, s: set<T>)
    requires forall x | x in s :: f(x) == g(x)
    ensures Sum(f, s) == Sum(g, s)
    decreases s
  {
    if s != {} {
      var x :| x in s;
      SumExtract(f, s, x);
      SumExtract(g, s, x);
      SumCongruent(f, g, s - {x});
    }
  }

  lemma {:induction false} SumAdds<T(!new)>(f: T -> int, g: T -> int, h: T -> int, s: set<T>)
    requires forall x | x in s :: h(x) == f(x) + g(x)
    ensures Sum(h, s) == Sum(f, s) + Sum(g, s)
    decreases s
  {
    if s != {} {
      var x :| x in s;
      SumExtract(f, s, x);
      SumExtract(g, s, x);
      SumExtract(h, s, x);
      SumAdds(f, g, h, s - {x});
    }
  }

  lemma {:induction false} SumZero<T(!new)>(f: T -> int, s: set<T>)
    requires forall x | x in s :: f(x) == 0
    ensures Sum(f, s) == 0
    decreases s
  {
    if s != {} {
      var x :| x in s;
      SumExtract(f, s, x);
      SumZero(f, s - {x});
    }
  }

  /** A function that vanishes everywhere but at `x` sums to its value there. */
  lemma {:induction false} SumSingle<T(!new)>(f: T -> int, s: set<T>, x: T)
    requires x in s
    requires forall y | y in s && y != x :: f(y) == 0
    ensures Sum(f, s) == f(x)
  {
    SumExtract(f, s, x);
    SumZero(f, s - {x});
  }

  lemma {:induction false} SumBounds<T(!new)>(f: T -> int, s: set<T>)
    requires forall x | x in s :: 0 <= f(x) <= 1
    ensures 0 <= Sum(f, s) <= |s|
    decreases s
  {
    if s != {} {
      var x :| x in s;
      SumExtract(f, s, x);
      SumBounds(f, s - {x});
    }
  }

  lemma {:induction false} SumSubset<T(!new)>(f: T -> int, a: set<T>, b: set<T>)
    requires a <= b && forall x | x in b :: f(x) >= 0
    ensures Sum(f, a) <= Sum(f, b)
    decreases b
  {
    if a != b {
      var x :| x in b && x !in a;
      SumExtract(f, b, x);
      SumSubset(f, a, b - {x});
    }
  }

  lemma {:induction false} SumIgnoresZeros<T(!new)>(f: T -> int, a: set<T>, b: set<T>)
    requires a <= b && forall x | x in b && x !in a :: f(x) == 0
    ensures Sum(f, a) == Sum(f, b)
    decreases b
  {
    if a != b {
      var x :| x in b && x !in a;
      SumExtract(f, b, x);
      SumIgnoresZeros(f, a, b - {x});
    }
  }

  /** A list without repeats adds up its elements one by one. */
  lemma SumOfPrefix<T(!new)>(f: T -> int, s: seq<T>, i: nat)
    requires i < |s| && Distinct(s)
    ensures Elements(s[..i + 1]) == Elements(s[..i]) + {s[i]} && Elements(s[..i + 1]) <= Elements(s)
    ensures Sum(f, Elements(s[..i + 1])) == Sum(f, Elements(s[..i])) + f(s[i])
  {
    var before, after := Elements(s[..i]), Elements(s[..i + 1]);
    assert s[..i + 1] == s[..i] + [s[i]];
    assert after == before + {s[i]} && after - {s[i]} == before;
    SumExtract(f, after, s[i]);
  }
}
