/**
 * Java's Integer.parseInt(s) in base 10, restricted to ASCII digits: an
 * optional '+' or '-', at least one digit, nothing else, and a value that
 * fits a 32-bit signed int. Anything else raises NumberFormatException,
 * modelled as None.
 */
module Decimal {
  import opened Wrappers

  const MinInt: int := -0x8000_0000
  const MaxInt: int := 0x7fff_ffff

  predicate IsDigit(c: char) { '0' <= c <= '9' }

  predicate AllDigits(s: string) { forall i :: 0 <= i < |s| ==> IsDigit(s[i]) }

  /** The value of a run of digits, read most significant first. */
  function DigitsValue(s: string): nat
    requires AllDigits(s)
  {
    if s == [] then 0
    else DigitsValue(s[..|s| - 1]) * 10 + (s[|s| - 1] as int - '0' as int)
  }

  /** The text parseInt accepts before its range check. */
  predicate IsIntLiteral(s: string)
  {
    if |s| > 0 && (s[0] == '-' || s[0] == '+') then |s| > 1 && AllDigits(s[1..])
    else |s| > 0 && AllDigits(s)
  }

  /** The signed value a literal denotes, before any range check. */
  function LiteralValue(s: string): int
    requires IsIntLiteral(s)
  {
    if s[0] == '-' then 0 - DigitsValue(s[1..])
    else if s[0] == '+' then DigitsValue(s[1..])
    else DigitsValue(s)
  }

  function ParseInt(s: string): (r: Option<int>)
    ensures r.Some? ==> IsIntLiteral(s) && MinInt <= r.value <= MaxInt
    ensures !IsIntLiteral(s) ==> r.None?
    ensures IsIntLiteral(s) ==> (r.Some? <==> MinInt <= LiteralValue(s) <= MaxInt)
    ensures r.Some? ==> r.value == LiteralValue(s)
  {
    if !IsIntLiteral(s) then None
    else
      var v := LiteralValue(s);
      if MinInt <= v <= MaxInt then Some(v) else None
  }

  /** Decimal text of a natural number, without sign or leading zeros. */
  function Show(n: nat): (s: string)
    ensures |s| > 0 && AllDigits(s)
  {
    if n < 10 then [('0' as int + n) as char]
    else Show(n / 10) + [('0' as int + n % 10) as char]
  }

  lemma {:induction false} DigitsValueShow(n: nat)
    ensures DigitsValue(Show(n)) == n
  {
    var s := Show(n);
    if n >= 10 {
      DigitsValueShow(n / 10);
      assert s[..|s| - 1] == Show(n / 10);
    }
  }

  /** parseInt reads back every non-negative int written in decimal. */
  lemma ParseShow(n: nat)
    requires n <= MaxInt
    ensures ParseInt(Show(n)) == Some(n)
  {
    DigitsValueShow(n);
  }

  /** A leading minus sign negates the value, down to the int minimum. */
  lemma ParseNegative(n: nat)
    requires n <= -MinInt
    ensures ParseInt(['-'] + Show(n)) == Some(0 - n)
  {
    var s := ['-'] + Show(n);
    assert s[1..] == Show(n);
    DigitsValueShow(n);
  }

  /** A non-negative literal above the int maximum is rejected. */
  lemma ParseTooLarge(n: nat)
    requires n > MaxInt
    ensures ParseInt(Show(n)) == None
  {
    DigitsValueShow(n);
  }

  /** A negative literal below the int minimum is rejected. */
  lemma ParseTooSmall(n: nat)
    requires n > -MinInt
    ensures ParseInt(['-'] + Show(n)) == None
  {
    var s := ['-'] + Show(n);
    assert s[1..] == Show(n);
    DigitsValueShow(n);
  }

  /** Leading zeros do not change the value of a run of digits. */
  lemma {:induction false} DigitsValueLeadingZeros(z: string, d: string)
    requires forall i :: 0 <= i < |z| ==> z[i] == '0'
    requires AllDigits(d)
    ensures AllDigits(z + d) && DigitsValue(z + d) == DigitsValue(d)
  {
    var s := z + d;
    if d == [] {
      assert s == z;
      if z != [] {
        var z' := z[..|z| - 1];
        DigitsValueLeadingZeros(z', []);
        assert s[..|s| - 1] == z' + [];
      }
    } else {
      var d' := d[..|d| - 1];
      DigitsValueLeadingZeros(z, d');
      assert s[..|s| - 1] == z + d';
    }
  }

  /** A '+' sign and any number of leading zeros read back to the value. */
  lemma ParsePlusLeadingZeros(z: string, n: nat)
    requires forall i :: 0 <= i < |z| ==> z[i] == '0'
    requires n <= MaxInt
    ensures ParseInt(['+'] + z + Show(n)) == Some(n)
    ensures ParseInt(z + Show(n)) == Some(n)
  {
    var s := ['+'] + z + Show(n);
    assert s[1..] == z + Show(n);
    DigitsValueLeadingZeros(z, Show(n));
    DigitsValueShow(n);
  }
}
