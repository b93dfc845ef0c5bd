/** Byte strings and the few JavaScript string and number primitives the
    system relies on: `String.prototype.split` with a one-character
    separator, `Number.parseInt` on decimal text, number-to-string
    conversion in template literals, and the `<` / `>=` order on strings. */
module Text {

  type byte = b: int | 0 <= b < 256

  /** Every identifier, clock and pending id is text; the model keeps
      strings as their byte sequences. */
  type Str = seq<byte>

  const DASH: byte := 45

  predicate IsDigit(b: byte) { 48 <= b <= 57 }

  predicate AllDigits(s: Str) { forall i :: 0 <= i < |s| ==> IsDigit(s[i]) }

  /** No element occurs twice: a JavaScript `Set`, or the keys of a `Map`,
      in insertion order. */
  predicate Distinct<T(==)>(s: seq<T>)
  {
    forall i, j :: 0 <= i < j < |s| ==> s[i] != s[j]
  }

  /** The elements other than `x`, in their order: what `delete(x)` leaves
      of a `Set` or of a `Map`'s keys. */
  function Erase<T(==)>(s: seq<T>, x: T): seq<T>
  {
    if s == [] then []
    else if s[0] == x then Erase(s[1..], x) else [s[0]] + Erase(s[1..], x)
  }

  /** `Erase` drops exactly `x` and keeps a list of distinct elements
      distinct. */
  lemma {:induction false} EraseExactly<T>(s: seq<T>, x: T)
    ensures forall i :: 0 <= i < |Erase(s, x)| ==> Erase(s, x)[i] in s && Erase(s, x)[i] != x
    ensures forall i :: 0 <= i < |s| && s[i] != x ==> s[i] in Erase(s, x)
    ensures Distinct(s) ==> Distinct(Erase(s, x))
  {
    if s != [] {
      var t := s[1..];
      EraseExactly(t, x);
      assert Distinct(s) ==> Distinct(t) && s[0] !in t;
      var r := Erase(s, x);
      forall i | 0 <= i < |r|
        ensures r[i] in s && r[i] != x
      {
        if s[0] == x {
          assert r[i] in t;
        } else if i > 0 {
          assert r[i] == Erase(t, x)[i - 1];
        }
      }
      forall i | 0 <= i < |s| && s[i] != x
        ensures s[i] in r
      {
        if i > 0 {
          assert s[i] == t[i - 1];
        }
      }
    }
  }

  // ---------------------------------------------------------------------
  // split / join

  /** Inverse of `split`: glue the parts back with the separator. */
  function Join(parts: seq<Str>, sep: byte): Str
    requires |parts| >= 1
  {
    if |parts| == 1 then parts[0] else parts[0] + [sep] + Join(parts[1..], sep)
  }

  /** `s.split(sep)`: the maximal separator-free pieces, always at least one
      (the empty string splits into one empty piece). */
  function Split(s: Str, sep: byte): (parts: seq<Str>)
    ensures |parts| >= 1
    ensures forall i :: 0 <= i < |parts| ==> sep !in parts[i]
    ensures Join(parts, sep) == s
  {
    if s == [] then [[]]
    else
      var rest := Split(s[1..], sep);
      if s[0] == sep then [[]] + rest
      else [[s[0]] + rest[0]] + rest[1..]
  }

  lemma {:induction false} SplitNoSeparator(s: Str, sep: byte)
    requires sep !in s
    ensures Split(s, sep) == [s]
  {
    if s != [] {
      SplitNoSeparator(s[1..], sep);
    }
  }

  /** Splitting `a + [sep] + b` where `a` holds no separator puts `a` first
      and continues with the split of `b`. */
  lemma {:induction false} SplitAfterFirst(a: Str, b: Str, sep: byte)
    requires sep !in a
    ensures Split(a + [sep] + b, sep) == [a] + Split(b, sep)
  {
    if a == [] {
      assert a + [sep] + b == [sep] + b;
      assert ([sep] + b)[1..] == b;
    } else {
      assert (a + [sep] + b)[1..] == a[1..] + [sep] + b;
      SplitAfterFirst(a[1..], b, sep);
      assert [a[0]] + a[1..] == a;
    }
  }

  /** `split` undoes `join` when no part holds the separator. */
  lemma {:induction false} SplitJoin(parts: seq<Str>, sep: byte)
    requires |parts| >= 1
    requires forall i :: 0 <= i < |parts| ==> sep !in parts[i]
    ensures Split(Join(parts, sep), sep) == parts
  {
    if |parts| == 1 {
      SplitNoSeparator(parts[0], sep);
    } else {
      SplitJoin(parts[1..], sep);
      SplitAfterFirst(parts[0], Join(parts[1..], sep), sep);
      assert [parts[0]] + parts[1..] == parts;
    }
  }

  // ---------------------------------------------------------------------
  // decimal numbers

  /** A JavaScript number as far as this system uses one: `NaN` or a
      non-negative integer. */
  datatype Num = NaN | Int(n: nat)

  function DigitsValue(s: Str): nat
    requires AllDigits(s)
  {
    if s == [] then 0 else DigitsValue(s[..|s| - 1]) * 10 + (s[|s| - 1] - 48)
  }

  /** The longest prefix of `s` made of decimal digits. */
  function LeadingDigits(s: Str): (d: Str)
    ensures |d| <= |s| && d == s[..|d|]
    ensures AllDigits(d)
    ensures |d| < |s| ==> !IsDigit(s[|d|])
  {
    if s == [] || !IsDigit(s[0]) then [] else [s[0]] + LeadingDigits(s[1..])
  }

  /** `Number.parseInt(s)` on decimal text: the value of the leading digits,
      or `NaN` when `s` does not start with a digit. */
  function ParseInt(s: Str): Num
  {
    var d := LeadingDigits(s);
    if d == [] then NaN else Int(DigitsValue(d))
  }

  /** `'' + n` for a non-negative integer: its shortest decimal text. */
  function Decimal(n: nat): (s: Str)
    ensures 1 <= |s| && AllDigits(s)
    ensures DigitsValue(s) == n
    ensures |s| > 1 ==> s[0] != 48
  {
    if n < 10 then [48 + n] else Decimal(n / 10) + [48 + n % 10]
  }

  /** Distinct numbers print differently. */
  lemma DecimalInjective(a: nat, b: nat)
    requires Decimal(a) == Decimal(b)
    ensures a == b
  {
    assert DigitsValue(Decimal(a)) == a;
  }

  lemma {:induction false} LeadingDigitsOfDigits(d: Str, rest: Str)
    requires AllDigits(d)
    requires rest == [] || !IsDigit(rest[0])
    ensures LeadingDigits(d + rest) == d
  {
    if d != [] {
      assert (d + rest)[1..] == d[1..] + rest;
      LeadingDigitsOfDigits(d[1..], rest);
      assert [d[0]] + d[1..] == d;
    } else {
      assert d + rest == rest;
    }
  }

  /** `parseInt` reads back a non-empty run of digits up to the first
      non-digit. */
  lemma ParseIntDigits(d: Str, rest: Str)
    requires AllDigits(d) && d != []
    requires rest == [] || !IsDigit(rest[0])
    ensures ParseInt(d + rest) == Int(DigitsValue(d))
  {
    LeadingDigitsOfDigits(d, rest);
  }

  lemma ParseIntDecimal(n: nat)
    ensures ParseInt(Decimal(n)) == Int(n)
  {
    ParseIntDigits(Decimal(n), []);
    assert Decimal(n) + [] == Decimal(n);
  }

  /** A number interpolated into a template literal. */
  function NumText(x: Num): Str
  {
    match x
    case NaN => [78, 97, 78]  // "NaN"
    case Int(n) => Decimal(n)
  }

  /** `x + 1` on a JavaScript number. */
  function Succ(x: Num): Num
  {
    match x
    case NaN => NaN
    case Int(n) => Int(n + 1)
  }

  // ---------------------------------------------------------------------
  // comparisons on numbers, with NaN comparing false

  predicate NumGt(a: Num, b: Num) { a.Int? && b.Int? && a.n > b.n }
  predicate NumGe(a: Num, b: Num) { a.Int? && b.Int? && a.n >= b.n }
  predicate NumLt(a: Num, b: Num) { a.Int? && b.Int? && a.n < b.n }
  /** `===` on numbers: `NaN === NaN` is false. */
  predicate NumEq(a: Num, b: Num) { a.Int? && b.Int? && a.n == b.n }

  // ---------------------------------------------------------------------
  // string order

  /** `a < b` on strings: lexicographic by code unit, a proper prefix first. */
  predicate StrLt(a: Str, b: Str)
  {
    if a == [] then b != []
    else if b == [] then false
    else if a[0] != b[0] then a[0] < b[0]
    else StrLt(a[1..], b[1..])
  }

  /** `a >= b` on strings. */
  predicate StrGe(a: Str, b: Str) { !StrLt(a, b) }

  lemma {:induction false} StrLtIrreflexive(a: Str)
    ensures !StrLt(a, a)
  {
    if a != [] { StrLtIrreflexive(a[1..]); }
  }

  lemma {:induction false} StrLtTotal(a: Str, b: Str)
    ensures StrLt(a, b) || StrLt(b, a) || a == b
  {
    if a != [] && b != [] && a[0] == b[0] {
      StrLtTotal(a[1..], b[1..]);
      if a[1..] == b[1..] {
        assert a == [a[0]] + a[1..] && b == [b[0]] + b[1..];
      }
    }
  }

  lemma {:induction false} StrLtAsymmetric(a: Str, b: Str)
    ensures !(StrLt(a, b) && StrLt(b, a))
  {
    if a != [] && b != [] && a[0] == b[0] {
      StrLtAsymmetric(a[1..], b[1..]);
    }
  }

  lemma {:induction false} StrLtTransitive(a: Str, b: Str, c: Str)
    requires StrLt(a, b) && StrLt(b, c)
    ensures StrLt(a, c)
  {
    if a != [] && a[0] == b[0] && b[0] == c[0] {
      StrLtTransitive(a[1..], b[1..], c[1..]);
    }
  }

  /** `<=` on strings (`!(a > b)`) is a total order. */
  predicate StrLe(a: Str, b: Str) { !StrLt(b, a) }

  lemma StrLeTotal(a: Str, b: Str)
    ensures StrLe(a, b) || StrLe(b, a)
  {
    StrLtAsymmetric(a, b);
  }

  lemma StrLeTransitive(a: Str, b: Str, c: Str)
    requires StrLe(a, b) && StrLe(b, c)
    ensures StrLe(a, c)
  {
    StrLtTotal(a, b);
    StrLtTotal(b, c);
    if StrLt(c, a) {
      if a == b { } else if b == c { } else {
        StrLtTransitive(a, b, c);
        StrLtAsymmetric(a, c);
      }
    }
  }
}
