/** Base-10 int64 text, as strconv.ParseInt(s, 10, 64) reads it and
    strconv.FormatInt(n, 10) writes it. */
module Decimal {
  import opened Basics

  const MAX_INT64 := 0x7FFF_FFFF_FFFF_FFFF
  const MIN_INT64 := -0x8000_0000_0000_0000

  predicate IsInt64(n: int) { MIN_INT64 <= n <= MAX_INT64 }

  function Digits(n: nat): (s: Str)
    ensures |s| > 0
  {
    if n < 10 then [48 + n] else Digits(n / 10) + [48 + n % 10]
  }

  function FormatInt(n: int): Str {
    if n < 0 then [45] + Digits(-n) else Digits(n)
  }

  function ParseDigits(s: Str): Option<nat>
    requires |s| > 0
  {
    var d: int := s[|s| - 1] as int - 48;
    if d < 0 || d > 9 then None
    else if |s| == 1 then Some(d)
    else match ParseDigits(s[..|s| - 1])
      case None => None
      case Some(v) => Some(10 * v + d)
  }

  /** None stands for every error: bad syntax or out of range. */
  function ParseInt(s: Str): Option<int> {
    var signed := s != [] && (s[0] == 43 || s[0] == 45);
    var digits := if signed then s[1..] else s;
    if digits == [] then None
    else match ParseDigits(digits)
      case None => None
      case Some(v) =>
        var n: int := if signed && s[0] == 45 then -(v as int) else v;
        if IsInt64(n) then Some(n) else None
  }

  lemma {:induction false} ParseDigitsOfDigits(n: nat)
    ensures ParseDigits(Digits(n)) == Some(n)
    ensures 48 <= Digits(n)[0] <= 57
  {
    if n >= 10 {
      ParseDigitsOfDigits(n / 10);
      assert Digits(n)[..|Digits(n)| - 1] == Digits(n / 10);
    }
  }

  lemma FormatThenParse(n: int)
    requires IsInt64(n)
    ensures ParseInt(FormatInt(n)) == Some(n)
  {
    if n < 0 {
      ParseDigitsOfDigits(-n);
      assert FormatInt(n)[1..] == Digits(-n);
    } else {
      ParseDigitsOfDigits(n);
    }
  }

  // ---- exactly what is a number ----

  predicate IsDigit(b: byte) { 48 <= b <= 57 }

  /** The value of a run of digits, read from the left. */
  function ValueOf(s: Str, sofar: int): int {
    if s == [] then sofar else ValueOf(s[1..], 10 * sofar + s[0] as int - 48)
  }

  lemma {:induction false} ValueOfLast(s: Str, sofar: int)
    requires s != []
    ensures ValueOf(s, sofar) == 10 * ValueOf(s[..|s| - 1], sofar) + s[|s| - 1] as int - 48
  {
    if |s| == 1 {
      assert s[1..] == [] && s[..0] == [];
    } else {
      ValueOfLast(s[1..], 10 * sofar + s[0] as int - 48);
      assert s[1..][..|s| - 2] == s[..|s| - 1][1..];
    }
  }

  lemma {:induction false} ParseDigitsExactly(s: Str)
    requires s != []
    ensures ParseDigits(s) == None <==> exists i :: 0 <= i < |s| && !IsDigit(s[i])
    ensures ParseDigits(s).Some? ==> ParseDigits(s).value == ValueOf(s, 0)
  {
    var p := s[..|s| - 1];
    ValueOfLast(s, 0);
    if p == [] {
    } else {
      ParseDigitsExactly(p);
      assert forall i | 0 <= i < |p| :: p[i] == s[i];
      if exists i :: 0 <= i < |p| && !IsDigit(p[i]) {
        var i :| 0 <= i < |p| && !IsDigit(p[i]);
        assert !IsDigit(s[i]);
      }
    }
  }

  /** A value is a number exactly when it is an optional sign and at least one digit,
      digits only, and in the 64-bit range; and then it is the number those digits
      spell in base 10. */
  lemma ParseIntExactly(s: Str)
    ensures var negative := s != [] && s[0] == 45;
            var digits := if s != [] && (s[0] == 43 || s[0] == 45) then s[1..] else s;
            var n := if negative then -ValueOf(digits, 0) else ValueOf(digits, 0);
            && (ParseInt(s).Some? <==>
                  && digits != [] && (forall i | 0 <= i < |digits| :: IsDigit(digits[i]))
                  && -9223372036854775808 <= n <= 9223372036854775807)
            && (ParseInt(s).Some? ==> ParseInt(s).value == n)
  {
    hide ParseDigits, ValueOf;
    var digits := if s != [] && (s[0] == 43 || s[0] == 45) then s[1..] else s;
    if digits != [] { ParseDigitsExactly(digits); }
  }

  lemma {:induction false} DigitsSpell(n: nat)
    ensures ValueOf(Digits(n), 0) == n && (forall i | 0 <= i < |Digits(n)| :: IsDigit(Digits(n)[i]))
    ensures n > 0 ==> Digits(n)[0] != 48
    ensures n == 0 ==> Digits(n) == [48]
  {
    ValueOfLast(Digits(n), 0);
    if n >= 10 {
      DigitsSpell(n / 10);
      assert Digits(n)[..|Digits(n)| - 1] == Digits(n / 10);
    }
  }

  /** A number is written in base 10, with a minus sign if negative and no leading
      zero. */
  lemma FormatIntSpells(n: int)
    ensures var s := FormatInt(n);
            var digits := if n < 0 then s[1..] else s;
            && (n < 0 ==> s[0] == 45)
            && digits != [] && (forall i | 0 <= i < |digits| :: IsDigit(digits[i]))
            && ValueOf(digits, 0) == (if n < 0 then -n else n)
            && (digits[0] == 48 ==> digits == [48])
  {
    DigitsSpell(if n < 0 then -n else n);
    if n < 0 { assert FormatInt(n)[1..] == Digits(-n); }
  }
}
