/**
 * The few pieces of java.lang the core relies on, written out:
 * String.contains, String.join and Integer.valueOf (with Integer.toString
 * as its partner).
 */
module JavaStrings {
  import opened Wrappers

  // ---------------------------------------------------------------------
  // String.contains
  // ---------------------------------------------------------------------

  /** `t` occurs in `s` at index `i`. */
  predicate OccursAt(s: string, t: string, i: int) {
    0 <= i && i + |t| <= |s| && s[i..i + |t|] == t
  }

  /** Java's `s.contains(t)`: `t` is a contiguous part of `s`. */
  predicate Contains(s: string, t: string)
    decreases |s|
  {
    |t| <= |s| && (s[..|t|] == t || Contains(s[1..], t))
  }

  /** `Contains` holds exactly when `t` occurs somewhere in `s`. */
  lemma {:induction false} ContainsIff(s: string, t: string)
    ensures Contains(s, t) <==> exists i :: OccursAt(s, t, i)
    decreases |s|
  {
    if |t| > |s| {
    } else if s[..|t|] == t {
      assert OccursAt(s, t, 0);
    } else {
      ContainsIff(s[1..], t);
      if Contains(s[1..], t) {
        var i :| OccursAt(s[1..], t, i);
        assert s[i + 1..i + 1 + |t|] == s[1..][i..i + |t|];
        assert OccursAt(s, t, i + 1);
      }
      if exists i :: OccursAt(s, t, i) {
        var i :| OccursAt(s, t, i);
        assert s[1..][i - 1..i - 1 + |t|] == s[i..i + |t|];
        assert OccursAt(s[1..], t, i - 1);
      }
    }
  }

  /** A string contains every part it is glued together from. */
  lemma ContainsPart(a: string, t: string, b: string)
    ensures Contains(a + t + b, t)
  {
    var s := a + t + b;
    assert s[|a|..|a| + |t|] == t;
    assert OccursAt(s, t, |a|);
    ContainsIff(s, t);
  }

  /** A string contains its own tail. */
  lemma ContainsSuffix(a: string, t: string)
    ensures Contains(a + t, t)
  {
    assert (a + t)[|a|..|a| + |t|] == t;
    assert OccursAt(a + t, t, |a|);
    ContainsIff(a + t, t);
  }

  /** Appending to a string keeps every part it already contains. */
  lemma ContainsExtendRight(s: string, b: string, t: string)
    requires Contains(s, t)
    ensures Contains(s + b, t)
  {
    ContainsIff(s, t);
    var i :| OccursAt(s, t, i);
    assert (s + b)[i..i + |t|] == s[i..i + |t|];
    assert OccursAt(s + b, t, i);
    ContainsIff(s + b, t);
  }

  // ---------------------------------------------------------------------
  // String.join
  // ---------------------------------------------------------------------

  /** Java's `String.join(separator, parts)`: the parts in order, with the separator between neighbours. */
  function Join(separator: string, parts: seq<string>): string
    decreases |parts|
  {
    if |parts| == 0 then ""
    else if |parts| == 1 then parts[0]
    else Join(separator, parts[..|parts| - 1]) + separator + parts[|parts| - 1]
  }

  /** The parts, each preceded by the separator. */
  function Prefixed(separator: string, parts: seq<string>): string
    decreases |parts|
  {
    if parts == [] then "" else separator + parts[0] + Prefixed(separator, parts[1..])
  }

  lemma {:induction false} PrefixedAppend(separator: string, parts: seq<string>, part: string)
    ensures Prefixed(separator, parts + [part]) == Prefixed(separator, parts) + separator + part
    decreases |parts|
  {
    if parts != [] {
      assert (parts + [part])[1..] == parts[1..] + [part];
      PrefixedAppend(separator, parts[1..], part);
    } else {
      assert ([] + [part])[1..] == [];
    }
  }

  /**
   * Read from the front, a join is the first part followed by every later
   * part with the separator before it: the separator sits exactly between
   * neighbours.
   */
  lemma {:induction false} JoinFromFront(separator: string, parts: seq<string>)
    requires parts != []
    ensures Join(separator, parts) == parts[0] + Prefixed(separator, parts[1..])
    decreases |parts|
  {
    if |parts| > 1 {
      var init := parts[..|parts| - 1];
      JoinFromFront(separator, init);
      assert init[1..] + [parts[|parts| - 1]] == parts[1..];
      PrefixedAppend(separator, init[1..], parts[|parts| - 1]);
    } else {
      assert parts[1..] == [];
    }
  }

  /** Every part occurs in the join. */
  lemma {:induction false} JoinContainsParts(separator: string, parts: seq<string>, i: nat)
    requires i < |parts|
    ensures Contains(Join(separator, parts), parts[i])
    decreases |parts|
  {
    if |parts| == 1 {
      ContainsSuffix("", parts[0]);
      assert "" + parts[0] == parts[0];
    } else if i == |parts| - 1 {
      ContainsSuffix(Join(separator, parts[..|parts| - 1]) + separator, parts[i]);
    } else {
      var init := parts[..|parts| - 1];
      JoinContainsParts(separator, init, i);
      ContainsExtendRight(Join(separator, init), separator, parts[i]);
      ContainsExtendRight(Join(separator, init) + separator, parts[|parts| - 1], parts[i]);
    }
  }

  // ---------------------------------------------------------------------
  // Integer.valueOf and Integer.toString
  // ---------------------------------------------------------------------

  const INTEGER_MIN_VALUE: int := -0x8000_0000
  const INTEGER_MAX_VALUE: int := 0x7fff_ffff

  predicate IsDigit(c: char) {
    '0' <= c <= '9'
  }

  predicate AllDigits(s: string) {
    forall i :: 0 <= i < |s| ==> IsDigit(s[i])
  }

  function DigitValue(c: char): nat
    requires IsDigit(c)
  {
    c as int - '0' as int
  }

  /** The value of a decimal numeral, most significant digit first. */
  function DigitsValue(digits: string): nat
    requires AllDigits(digits)
    decreases |digits|
  {
    if digits == [] then 0
    else DigitsValue(digits[..|digits| - 1]) * 10 + DigitValue(digits[|digits| - 1])
  }

  /** The message of the NumberFormatException that Integer.valueOf throws for `s`. */
  function NumberFormatMessage(s: string): string {
    "For input string: \"" + s + "\""
  }

  /**
   * Java's `Integer.valueOf(s)` in radix 10: an optional leading '-' or '+',
   * then one or more decimal digits, with a value that fits in 32 bits;
   * anything else throws a NumberFormatException.
   */
  function IntegerValueOf(s: string): (r: Result<int, string>)
    ensures r.Ok? ==> INTEGER_MIN_VALUE <= r.value <= INTEGER_MAX_VALUE
    ensures r.Err? ==> r.error == NumberFormatMessage(s)
    ensures r.Ok? ==> |s| > 0 && (IsDigit(s[0]) || s[0] == '-' || s[0] == '+')
    ensures r.Ok? ==> IsDigit(s[|s| - 1]) && forall i :: 1 <= i < |s| ==> IsDigit(s[i])
  {
    var signed := |s| > 0 && (s[0] == '-' || s[0] == '+');
    var digits := if signed then s[1..] else s;
    if |digits| == 0 || !AllDigits(digits) then Err(NumberFormatMessage(s))
    else
      var magnitude: int := DigitsValue(digits);
      var value := if signed && s[0] == '-' then -magnitude else magnitude;
      if INTEGER_MIN_VALUE <= value <= INTEGER_MAX_VALUE then Ok(value)
      else Err(NumberFormatMessage(s))
  }

  /**
   * Integer.valueOf throws for the empty text, a lone sign, a first
   * character that is neither a digit nor a sign, and any later character
   * that is not a digit.
   */
  lemma IntegerValueOfRejects(s: string)
    ensures s == [] ==> IntegerValueOf(s).Err?
    ensures s == "-" || s == "+" ==> IntegerValueOf(s).Err?
    ensures |s| > 0 && !IsDigit(s[0]) && s[0] != '-' && s[0] != '+' ==> IntegerValueOf(s).Err?
    ensures (exists i :: 1 <= i < |s| && !IsDigit(s[i])) ==> IntegerValueOf(s).Err?
  {
  }

  /**
   * A text of digits, or of one sign and then digits, reads as the digits'
   * decimal value (leading zeros included), negated after '-', exactly when
   * that value fits in 32 bits; otherwise Integer.valueOf throws.
   */
  lemma IntegerValueOfDigits(s: string)
    requires |s| > 0 && AllDigits(s)
    ensures IntegerValueOf(s) ==
      if DigitsValue(s) <= INTEGER_MAX_VALUE then Ok(DigitsValue(s)) else Err(NumberFormatMessage(s))
  {
  }

  lemma IntegerValueOfSignedDigits(s: string)
    requires |s| > 1 && (s[0] == '-' || s[0] == '+') && AllDigits(s[1..])
    ensures s[0] == '+' ==> (IntegerValueOf(s) ==
      if DigitsValue(s[1..]) <= INTEGER_MAX_VALUE then Ok(DigitsValue(s[1..])) else Err(NumberFormatMessage(s)))
    ensures s[0] == '-' ==> (IntegerValueOf(s) ==
      if DigitsValue(s[1..]) <= -INTEGER_MIN_VALUE then Ok(-(DigitsValue(s[1..]) as int)) else Err(NumberFormatMessage(s)))
  {
  }

  /** Leading zeros do not change the value of a numeral. */
  lemma {:induction false} LeadingZeroIgnored(digits: string)
    requires AllDigits(digits)
    ensures AllDigits("0" + digits) && DigitsValue("0" + digits) == DigitsValue(digits)
    decreases |digits|
  {
    var padded := "0" + digits;
    if digits != [] {
      LeadingZeroIgnored(digits[..|digits| - 1]);
      assert padded[..|padded| - 1] == "0" + digits[..|digits| - 1];
    }
  }

  function DigitChar(d: nat): (c: char)
    requires d < 10
    ensures IsDigit(c) && DigitValue(c) == d
  {
    ('0' as int + d) as char
  }

  /** The decimal numeral of `n`, without leading zeros. */
  function NaturalToString(n: nat): (s: string)
    ensures |s| > 0 && AllDigits(s)
    decreases n
  {
    if n < 10 then [DigitChar(n)]
    else NaturalToString(n / 10) + [DigitChar(n % 10)]
  }

  /** Java's `Integer.toString(n)`: a '-' for negative numbers, then the digits. */
  function IntegerToString(n: int): string {
    if n < 0 then "-" + NaturalToString(-n) else NaturalToString(n)
  }

  lemma {:induction false} DigitsValueOfNaturalToString(n: nat)
    ensures DigitsValue(NaturalToString(n)) == n
    decreases n
  {
    var s := NaturalToString(n);
    if n >= 10 {
      DigitsValueOfNaturalToString(n / 10);
      assert s[..|s| - 1] == NaturalToString(n / 10);
    }
  }

  /** Integer.valueOf reads back every 32-bit number Integer.toString writes. */
  lemma IntegerValueOfToString(n: int)
    requires INTEGER_MIN_VALUE <= n <= INTEGER_MAX_VALUE
    ensures IntegerValueOf(IntegerToString(n)) == Ok(n)
  {
    var s := IntegerToString(n);
    if n < 0 {
      DigitsValueOfNaturalToString(-n);
      assert s[1..] == NaturalToString(-n);
    } else {
      DigitsValueOfNaturalToString(n);
      assert IsDigit(s[0]);
    }
  }
}
