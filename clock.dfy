/** The clock model of lib/utils.js: a stream entry id `"<seq>-<ctr>"` is
    parsed into a pair of numbers, and `compareTimestamps(t1, t2)` tests
    `t1 >= t2` lexicographically on the pairs. The same two functions are
    copied verbatim into src/redis-helpers.js (there spelt
    `paresTimestamp`); both generations use this module. */
module Clock {
  import opened Text

  /** The two leading components of a parsed timestamp; callers never look
      past index 1. */
  datatype Stamp = Stamp(sequence: Num, ctr: Num)

  /** `parseTimestamp(time)`: split on `-`, parse each piece, and default
      the counter to 0 when there is no `-`. */
  function ParseTimestamp(time: Str): (t: Stamp)
    ensures DASH !in time ==> t == Stamp(ParseInt(time), Int(0))
  {
    var parts := Split(time, DASH);
    assert DASH !in time ==> parts == [time] by {
      if DASH !in time { SplitNoSeparator(time, DASH); }
    }
    Stamp(ParseInt(parts[0]), if |parts| == 1 then Int(0) else ParseInt(parts[1]))
  }

  /** `compareTimestamps(time1, time2)`: true iff time1 >= time2. A `NaN`
      component makes every comparison on it false. */
  predicate CompareTimestamps(time1: Str, time2: Str)
  {
    var t1 := ParseTimestamp(time1);
    var t2 := ParseTimestamp(time2);
    NumGt(t1.sequence, t2.sequence) || (NumEq(t1.sequence, t2.sequence) && NumGe(t1.ctr, t2.ctr))
  }

  /** A clock as Redis issues them: one or two non-empty runs of digits
      separated by `-`. */
  predicate WellFormed(time: Str)
  {
    var parts := Split(time, DASH);
    |parts| <= 2 && forall i :: 0 <= i < |parts| ==> parts[i] != [] && AllDigits(parts[i])
  }

  /** The `(seq, ctr)` pair a well-formed clock denotes. */
  function Value(time: Str): (nat, nat)
    requires WellFormed(time)
  {
    var parts := Split(time, DASH);
    (DigitsValue(parts[0]), if |parts| == 1 then 0 else DigitsValue(parts[1]))
  }

  /** Lexicographic `>=` on pairs. */
  predicate PairGe(a: (nat, nat), b: (nat, nat))
  {
    a.0 > b.0 || (a.0 == b.0 && a.1 >= b.1)
  }

  /** `"<a>-<b>"` written out. */
  function Format(a: nat, b: nat): Str
  {
    Decimal(a) + [DASH] + Decimal(b)
  }

  const ZERO: Str := [48]  // "0"

  // ---------------------------------------------------------------------
  // parsing

  lemma DigitsHaveNoDash(d: Str)
    requires AllDigits(d)
    ensures DASH !in d
  {
    assert forall i :: 0 <= i < |d| ==> d[i] != DASH by {
      forall i | 0 <= i < |d| ensures d[i] != DASH { assert IsDigit(d[i]); }
    }
  }

  lemma SplitFormat(a: nat, b: nat)
    ensures Split(Format(a, b), DASH) == [Decimal(a), Decimal(b)]
  {
    DigitsHaveNoDash(Decimal(a));
    DigitsHaveNoDash(Decimal(b));
    assert Join([Decimal(a), Decimal(b)], DASH) == Format(a, b);
    SplitJoin([Decimal(a), Decimal(b)], DASH);
  }

  /** `parseTimestamp("a-b")` yields `(a, b)`. */
  lemma ParseFormat(a: nat, b: nat)
    ensures ParseTimestamp(Format(a, b)) == Stamp(Int(a), Int(b))
    ensures WellFormed(Format(a, b)) && Value(Format(a, b)) == (a, b)
  {
    SplitFormat(a, b);
    ParseIntDecimal(a);
    ParseIntDecimal(b);
  }

  /** A clock without `-` gets counter 0: `parseTimestamp("a")` is `(a, 0)`. */
  lemma ParseBare(a: nat)
    ensures ParseTimestamp(Decimal(a)) == Stamp(Int(a), Int(0))
    ensures WellFormed(Decimal(a)) && Value(Decimal(a)) == (a, 0)
  {
    DigitsHaveNoDash(Decimal(a));
    SplitNoSeparator(Decimal(a), DASH);
    ParseIntDecimal(a);
  }

  /** Every well-formed clock parses to the numbers it denotes. */
  lemma ParseWellFormed(time: Str)
    requires WellFormed(time)
    ensures ParseTimestamp(time) == Stamp(Int(Value(time).0), Int(Value(time).1))
  {
    var parts := Split(time, DASH);
    ParseIntDigits(parts[0], []);
    assert parts[0] + [] == parts[0];
    if |parts| == 2 {
      ParseIntDigits(parts[1], []);
      assert parts[1] + [] == parts[1];
    }
  }

  // ---------------------------------------------------------------------
  // the comparison is a total preorder on well-formed clocks

  /** On well-formed clocks `compareTimestamps` is exactly lexicographic
      `>=` on the parsed pairs, in both directions. */
  lemma CompareIsLexicographic(a: Str, b: Str)
    requires WellFormed(a) && WellFormed(b)
    ensures CompareTimestamps(a, b) <==> PairGe(Value(a), Value(b))
  {
    ParseWellFormed(a);
    ParseWellFormed(b);
  }

  lemma CompareReflexive(x: Str)
    requires WellFormed(x)
    ensures CompareTimestamps(x, x)
  {
    CompareIsLexicographic(x, x);
  }

  lemma CompareTotal(a: Str, b: Str)
    requires WellFormed(a) && WellFormed(b)
    ensures CompareTimestamps(a, b) || CompareTimestamps(b, a)
  {
    CompareIsLexicographic(a, b);
    CompareIsLexicographic(b, a);
  }

  lemma CompareTransitive(a: Str, b: Str, c: Str)
    requires WellFormed(a) && WellFormed(b) && WellFormed(c)
    requires CompareTimestamps(a, b) && CompareTimestamps(b, c)
    ensures CompareTimestamps(a, c)
  {
    CompareIsLexicographic(a, b);
    CompareIsLexicographic(b, c);
    CompareIsLexicographic(a, c);
  }

  /** Both directions hold exactly when the parsed pairs agree, so distinct
      texts such as `"5"` and `"5-0"` are equivalent clocks. */
  lemma CompareAntisymmetricUpToParsing(a: Str, b: Str)
    requires WellFormed(a) && WellFormed(b)
    ensures CompareTimestamps(a, b) && CompareTimestamps(b, a) <==> Value(a) == Value(b)
  {
    CompareIsLexicographic(a, b);
    CompareIsLexicographic(b, a);
  }

  lemma FiveEquivalentToFiveDashZero()
    ensures CompareTimestamps(Decimal(5), Format(5, 0))
    ensures CompareTimestamps(Format(5, 0), Decimal(5))
    ensures Decimal(5) != Format(5, 0)
  {
    ParseBare(5);
    ParseFormat(5, 0);
    CompareAntisymmetricUpToParsing(Decimal(5), Format(5, 0));
  }

  /** `"0"` is a minimum: every well-formed clock compares `>=` to it. */
  lemma ZeroIsMinimum(x: Str)
    requires WellFormed(x)
    ensures CompareTimestamps(x, ZERO)
  {
    ParseBare(0);
    assert Decimal(0) == ZERO;
    CompareIsLexicographic(x, ZERO);
  }

  /** Outside well-formed clocks the comparison is not even reflexive: a
      clock whose sequence or counter part parses to `NaN` compares false
      to itself, and these are the only clocks that do. */
  lemma NotReflexiveOnGarbage(x: Str)
    requires ParseTimestamp(x).sequence.NaN? || ParseTimestamp(x).ctr.NaN?
    ensures !CompareTimestamps(x, x)
  {
  }

  lemma ReflexiveIffNumeric(x: Str)
    ensures CompareTimestamps(x, x) <==> ParseTimestamp(x).sequence.Int? && ParseTimestamp(x).ctr.Int?
  {
  }

  /** Two concrete garbage clocks: `"x"` (the sequence is `NaN`) and
      `"1-x"` (the counter is `NaN`). */
  lemma GarbageClocks()
    ensures ParseTimestamp([120]).sequence.NaN? && !CompareTimestamps([120], [120])  // "x"
    ensures ParseTimestamp([49, DASH, 120]).ctr.NaN? && !CompareTimestamps([49, DASH, 120], [49, DASH, 120])  // "1-x"
  {
    assert LeadingDigits([120]) == [];
    var x1: Str := [49, DASH, 120];
    SplitNoSeparator([120], DASH);
    assert x1[1..] == [DASH, 120] && x1[1..][1..] == [120];
    assert Split(x1[1..], DASH) == [[], [120]];
    assert [x1[0]] + [] == [49];
    assert Split(x1, DASH) == [[49], [120]];
  }
}
