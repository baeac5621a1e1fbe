/**
  The two pieces of JavaScript string behaviour the publisher relies on:
  rendering a non-negative integer inside a template literal (`${n}`), and
  `String.prototype.includes`. Each executable definition is paired with an
  independent one (a digit parser, an existential occurrence) and a lemma
  connecting the two.
 */
module JsStrings {

  predicate IsDigit(c: char) {
    '0' <= c <= '9'
  }

  predicate AllDigits(s: string) {
    forall i :: 0 <= i < |s| ==> IsDigit(s[i])
  }

  function DigitChar(d: nat): (c: char)
    requires d < 10
    ensures IsDigit(c) && c as int - '0' as int == d
  {
    (d + '0' as int) as char
  }

  /** Decimal rendering of a non-negative integer, as `${n}` produces it: no sign, no leading zeros. */
  function NatToString(n: nat): (s: string)
    ensures |s| >= 1 && AllDigits(s)
    ensures s[0] == '0' ==> n == 0
    decreases n
  {
    if n < 10 then [DigitChar(n)] else NatToString(n / 10) + [DigitChar(n % 10)]
  }

  /** The value of a non-empty string of decimal digits (an independent reading of a rendering). */
  function DigitsValue(s: string): nat
    requires |s| >= 1 && AllDigits(s)
    decreases |s|
  {
    var last := s[|s| - 1] as int - '0' as int;
    if |s| == 1 then last else DigitsValue(s[..|s| - 1]) * 10 + last
  }

  /** Reading a rendered number back gives the number: the rendering loses nothing. */
  lemma {:induction false} DigitsValueOfNatToString(n: nat)
    ensures DigitsValue(NatToString(n)) == n
    decreases n
  {
    if n >= 10 {
      var s := NatToString(n);
      assert s[..|s| - 1] == NatToString(n / 10);
      DigitsValueOfNatToString(n / 10);
    }
  }

  /** Distinct numbers render to distinct strings. */
  lemma NatToStringInjective(a: nat, b: nat)
    requires NatToString(a) == NatToString(b)
    ensures a == b
  {
    DigitsValueOfNatToString(a);
    DigitsValueOfNatToString(b);
  }

  /**
    The other direction of the round trip: a numeral with no leading zero
    (or "0" itself) is exactly the rendering of its value.
   */
  lemma {:induction false} NatToStringOfDigitsValue(s: string)
    requires |s| >= 1 && AllDigits(s) && (s[0] != '0' || |s| == 1)
    ensures NatToString(DigitsValue(s)) == s
    decreases |s|
  {
    if |s| > 1 {
      var t := s[..|s| - 1];
      assert t[0] == s[0];
      NatToStringOfDigitsValue(t);
      var v := DigitsValue(t);
      // `t` starts with a non-zero digit, so it is not the rendering "0" of 0.
      assert NatToString(0) == "0";
      var last := s[|s| - 1] as int - '0' as int;
      assert DigitsValue(s) / 10 == v && DigitsValue(s) % 10 == last;
      assert s == t + [s[|s| - 1]];
    }
  }

  /** `sub` occurs in `s` at some position (the meaning of `s.includes(sub)`). */
  ghost predicate Occurs(s: string, sub: string) {
    exists i :: OccursAt(s, sub, i)
  }

  /** `sub` occurs in `s` starting at position `i`. */
  predicate OccursAt(s: string, sub: string, i: int) {
    0 <= i && i + |sub| <= |s| && s[i..i + |sub|] == sub
  }

  /** `s.includes(sub)`, computed by scanning `s` from the left. */
  function Includes(s: string, sub: string): (b: bool)
    ensures b <==> Occurs(s, sub)
    decreases |s|
  {
    IncludesScan(s, sub);
    if |sub| > |s| then false
    else if s[..|sub|] == sub then true
    else Includes(s[1..], sub)
  }

  lemma {:induction false} IncludesScan(s: string, sub: string)
    ensures Occurs(s, sub) <==> (|sub| <= |s| && (s[..|sub|] == sub || (|s| >= 1 && Occurs(s[1..], sub))))
  {
    if Occurs(s, sub) && s[..|sub|] != sub {
      var i :| OccursAt(s, sub, i);
      assert i != 0;
      assert OccursAt(s[1..], sub, i - 1);
    }
    if |sub| <= |s| && s[..|sub|] == sub {
      assert OccursAt(s, sub, 0);
    }
    if |sub| <= |s| && |s| >= 1 && Occurs(s[1..], sub) {
      var j :| OccursAt(s[1..], sub, j);
      assert OccursAt(s, sub, j + 1);
    }
  }

  /** A string whose first character never appears in `s` does not occur in `s`. */
  lemma AbsentFirstChar(s: string, sub: string)
    requires |sub| >= 1
    requires forall i :: 0 <= i < |s| ==> s[i] != sub[0]
    ensures !Includes(s, sub)
  {
    forall i | 0 <= i
      ensures !OccursAt(s, sub, i)
    {
      if i + |sub| <= |s| {
        assert s[i..i + |sub|][0] == s[i];
      }
    }
  }

  /** A witness position makes `includes` true. */
  lemma IncludesAt(s: string, sub: string, i: nat)
    requires OccursAt(s, sub, i)
    ensures Includes(s, sub)
  {
  }
}
