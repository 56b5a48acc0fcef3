/** The pieces of Java's value semantics the alert publisher relies on:
    null references, 32-bit `int` arithmetic with wrap-around, and the
    string conversions used to build message ids and channel names. */
module Java {

  /** A Java reference that may be null. */
  datatype Option<+T> = None | Some(value: T)

  const INT_MIN: int := -0x8000_0000
  const INT_MAX: int := 0x7fff_ffff
  const INT_RANGE: int := 0x1_0000_0000

  /** Java's `int` (and the unboxed value of an `Integer`). */
  newtype int32 = x: int | -0x8000_0000 <= x < 0x8000_0000

  /** Reduces an integer to the 32-bit two's-complement value Java keeps. */
  function Wrap(x: int): (r: int32)
    ensures INT_MIN <= x <= INT_MAX ==> r as int == x
  {
    ((x + 0x8000_0000) % INT_RANGE - 0x8000_0000) as int32
  }

  /** Wrapping changes a value by a multiple of 2^32. */
  lemma WrapCongruent(x: int)
    ensures (x - Wrap(x) as int) % INT_RANGE == 0
  {
    var m := (x + 0x8000_0000) % INT_RANGE;
    assert x + 0x8000_0000 == INT_RANGE * ((x + 0x8000_0000) / INT_RANGE) + m;
  }

  /** Java's `a + b` on two `int`s: the exact sum, moved back into range by
      one 2^32 step when it overflows. */
  function Add(a: int32, b: int32): (r: int32)
    ensures INT_MIN <= a as int + b as int <= INT_MAX ==> r as int == a as int + b as int
  {
    var sum := a as int + b as int;
    (if sum > INT_MAX then sum - INT_RANGE
     else if sum < INT_MIN then sum + INT_RANGE
     else sum) as int32
  }

  /** The sum Java keeps is the exact sum reduced to 32 bits. */
  lemma AddIsWrappedSum(a: int32, b: int32)
    ensures Add(a, b) == Wrap(a as int + b as int)
  {
    var sum := a as int + b as int;
    var r := Add(a, b);
    assert (sum - r as int) % INT_RANGE == 0 by {
      assert sum - r as int == 0 || sum - r as int == INT_RANGE || sum - r as int == -INT_RANGE;
    }
    WrapUnique(sum, r);
  }

  /** Two values in the int32 range that agree modulo 2^32 are equal. */
  lemma WrapUnique(x: int, r: int32)
    requires (x - r as int) % INT_RANGE == 0
    ensures Wrap(x) == r
  {
    var w := Wrap(x);
    WrapCongruent(x);
    var d := w as int - r as int;
    var q1 := (x - w as int) / INT_RANGE;
    var q2 := (x - r as int) / INT_RANGE;
    assert x - w as int == INT_RANGE * q1;
    assert x - r as int == INT_RANGE * q2;
    assert d == INT_RANGE * (q2 - q1);
    MultipleInRange(q2 - q1);
  }

  lemma MultipleInRange(k: int)
    requires -INT_RANGE < INT_RANGE * k < INT_RANGE
    ensures k == 0
  {
  }

  /** Adding in two steps with wrap-around is adding once with wrap-around. */
  lemma {:induction false} AddAddWrap(a: int32, b: int32, c: int32)
    ensures Add(Add(a, b), c) == Wrap(a as int + b as int + c as int)
  {
    var ab := Add(a, b);
    AddIsWrappedSum(a, b);
    WrapCongruent(a as int + b as int);
    var q1 := (a as int + b as int - ab as int) / INT_RANGE;
    assert a as int + b as int - ab as int == INT_RANGE * q1;
    var r := Add(ab, c);
    AddIsWrappedSum(ab, c);
    WrapCongruent(ab as int + c as int);
    var q2 := (ab as int + c as int - r as int) / INT_RANGE;
    assert ab as int + c as int - r as int == INT_RANGE * q2;
    assert a as int + b as int + c as int - r as int == INT_RANGE * (q1 + q2);
    WrapUnique(a as int + b as int + c as int, r);
  }

  /** The order in which two amounts are added to a Java `int` does not
      matter, overflow included. */
  lemma {:induction false} AddSwap(a: int32, b: int32, c: int32)
    ensures Add(Add(a, b), c) == Add(Add(a, c), b)
  {
    AddAddWrap(a, b, c);
    AddAddWrap(a, c, b);
    assert a as int + b as int + c as int == a as int + c as int + b as int;
  }

  /** `String.valueOf` of a possibly-null string, as `+` concatenation uses it. */
  function Str(s: Option<string>): (r: string)
    ensures s.Some? ==> r == s.value
    ensures s.None? ==> r == "null"
  {
    match s
    case Some(v) => v
    case None => "null"
  }

  predicate IsDigit(c: char) {
    '0' <= c <= '9'
  }

  function DigitChar(d: nat): (c: char)
    requires d < 10
    ensures IsDigit(c)
  {
    (('0' as int) + d) as char
  }

  /** `Long.toString` of a non-negative value: its decimal digits, most
      significant first, without leading zeros. */
  function DecimalString(n: nat): (s: string)
    ensures |s| > 0
    ensures forall i :: 0 <= i < |s| ==> IsDigit(s[i])
    ensures n > 0 ==> s[0] != '0'
  {
    if n < 10 then [DigitChar(n)]
    else DecimalString(n / 10) + [DigitChar(n % 10)]
  }

  function DigitValue(c: char): (d: nat)
    requires IsDigit(c)
    ensures d < 10 && DigitChar(d) == c
  {
    c as int - '0' as int
  }

  /** The number a string of decimal digits denotes. */
  function DigitsValue(s: string): nat
    requires forall i :: 0 <= i < |s| ==> IsDigit(s[i])
  {
    if s == [] then 0
    else 10 * DigitsValue(s[..|s| - 1]) + DigitValue(s[|s| - 1])
  }

  /** Reading back the decimal text of a number gives that number. */
  lemma {:induction false} DecimalStringRoundTrip(n: nat)
    ensures DigitsValue(DecimalString(n)) == n
  {
    var s := DecimalString(n);
    if n >= 10 {
      DecimalStringRoundTrip(n / 10);
      assert s[..|s| - 1] == DecimalString(n / 10);
    } else {
      assert s[..|s| - 1] == [];
    }
  }

  /** Distinct numbers have distinct decimal texts, so message ids built from
      distinct clock readings are distinct. */
  lemma DecimalStringInjective(m: nat, n: nat)
    requires DecimalString(m) == DecimalString(n)
    ensures m == n
  {
    DecimalStringRoundTrip(m);
    DecimalStringRoundTrip(n);
  }

  predicate IsUpperAscii(c: char) {
    'A' <= c <= 'Z'
  }

  function LowerChar(c: char): (r: char)
    ensures !IsUpperAscii(r)
    ensures !IsUpperAscii(c) ==> r == c
  {
    if IsUpperAscii(c) then (c as int + 32) as char else c
  }

  /** `String.toLowerCase` restricted to ASCII letters. */
  function ToLowerCase(s: string): (r: string)
    ensures |r| == |s|
    ensures forall i :: 0 <= i < |s| ==> r[i] == LowerChar(s[i])
    ensures forall i :: 0 <= i < |r| ==> !IsUpperAscii(r[i])
  {
    if s == [] then [] else [LowerChar(s[0])] + ToLowerCase(s[1..])
  }

  /** Lower-casing is idempotent. */
  lemma ToLowerCaseIdempotent(s: string)
    ensures ToLowerCase(ToLowerCase(s)) == ToLowerCase(s)
  {
    var t := ToLowerCase(s);
    assert forall i :: 0 <= i < |t| ==> LowerChar(t[i]) == t[i];
  }
}
