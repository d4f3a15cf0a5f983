/** The Python built-ins the service relies on: `str.upper`, `str.lower`,
    the `in` test on strings and `round(x, 2)`.  Case mapping is modelled for
    ASCII letters only; rounding is modelled on exact reals. */
module PyBuiltins {

  predicate IsAsciiLower(c: char) { 'a' <= c <= 'z' }

  predicate IsAsciiUpper(c: char) { 'A' <= c <= 'Z' }

  function UpperChar(c: char): char
  {
    if IsAsciiLower(c) then (c as int - 32) as char else c
  }

  function LowerChar(c: char): char
  {
    if IsAsciiUpper(c) then (c as int + 32) as char else c
  }

  /** `s.upper()`: every lower-case letter becomes its capital, every other
      character is kept, and no lower-case letter is left. */
  function Upper(s: string): (r: string)
    ensures |r| == |s|
    ensures forall i :: 0 <= i < |r| ==> !IsAsciiLower(r[i])
    ensures forall i :: 0 <= i < |s| ==>
      r[i] == s[i] || (IsAsciiLower(s[i]) && r[i] as int == s[i] as int - 32)
  {
    seq(|s|, i requires 0 <= i < |s| => UpperChar(s[i]))
  }

  /** `s.lower()`: every capital becomes its lower-case letter, every other
      character is kept, and no capital is left. */
  function Lower(s: string): (r: string)
    ensures |r| == |s|
    ensures forall i :: 0 <= i < |r| ==> !IsAsciiUpper(r[i])
    ensures forall i :: 0 <= i < |s| ==>
      r[i] == s[i] || (IsAsciiUpper(s[i]) && r[i] as int == s[i] as int + 32)
  {
    seq(|s|, i requires 0 <= i < |s| => LowerChar(s[i]))
  }

  /** Upper-casing twice is upper-casing once. */
  lemma UpperIdempotent(s: string)
    ensures Upper(Upper(s)) == Upper(s)
  {
  }

  /** Lower-casing works character by character, so it distributes over
      concatenation. */
  lemma LowerConcat(a: string, b: string)
    ensures Lower(a + b) == Lower(a) + Lower(b)
  {
  }

  /** `sub` occurs in `s` starting at index `i`. */
  predicate OccursAt(s: string, sub: string, i: int)
  {
    0 <= i && i + |sub| <= |s| && s[i..i + |sub|] == sub
  }

  /** Lower-casing leaves a string without capitals as it is. */
  lemma LowerWithoutCapitals(s: string)
    requires forall i :: 0 <= i < |s| ==> !IsAsciiUpper(s[i])
    ensures Lower(s) == s
  {
  }

  /** `sub in s` for strings. */
  predicate Contains(s: string, sub: string)
  {
    exists i :: 0 <= i <= |s| - |sub| && OccursAt(s, sub, i)
  }

  /** A string contains its own suffix. */
  lemma ContainsSuffix(prefix: string, suffix: string)
    ensures Contains(prefix + suffix, suffix)
  {
    var s := prefix + suffix;
    assert s[|prefix|..|prefix| + |suffix|] == suffix;
    assert OccursAt(s, suffix, |prefix|);
  }

  /** `round(x, 2)` as a whole number of hundredths: the multiple of 0.01
      nearest to `x`, and of two equally near ones the even one. */
  function RoundToCents(x: real): (k: int)
    ensures k as real - x * 100.0 <= 0.5
    ensures x * 100.0 - k as real <= 0.5
    ensures (k as real - x * 100.0 == 0.5 || x * 100.0 - k as real == 0.5) ==> k % 2 == 0
  {
    var y := x * 100.0;
    var f := y.Floor;
    var fraction := y - f as real;
    if fraction < 0.5 then f
    else if fraction > 0.5 then f + 1
    else if f % 2 == 0 then f
    else f + 1
  }

  /** The three properties in the contract of `RoundToCents` single out its
      result: no other whole number has them. */
  lemma RoundToCentsUnique(x: real, k: int)
    requires k as real - x * 100.0 <= 0.5
    requires x * 100.0 - k as real <= 0.5
    requires (k as real - x * 100.0 == 0.5 || x * 100.0 - k as real == 0.5) ==> k % 2 == 0
    ensures k == RoundToCents(x)
  {
  }

  /** `round(x, 2)`. */
  function Round2(x: real): (r: real)
    ensures -0.005 <= r - x <= 0.005
  {
    RoundToCents(x) as real / 100.0
  }

  /** A price that is already a whole number of cents is not changed by rounding. */
  lemma Round2Idempotent(x: real)
    ensures Round2(Round2(x)) == Round2(x)
  {
    var k := RoundToCents(x);
    assert (k as real / 100.0) * 100.0 == k as real;
    RoundToCentsUnique(k as real / 100.0, k);
  }

  /** Rounding keeps a price above half a cent strictly positive. */
  lemma Round2Positive(x: real)
    requires x > 0.005
    ensures Round2(x) > 0.0
  {
  }
}
