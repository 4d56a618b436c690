/** Decimal formatting of integers, as `format!` writes it, with its inverse. */
module Decimals {
  predicate IsDigit(c: char) {
    '0' <= c <= '9'
  }

  function DigitChar(d: int): (c: char)
    requires 0 <= d < 10
    ensures IsDigit(c) && DigitValue(c) == d
  {
    '0' + d as char
  }

  function DigitValue(c: char): (d: int)
    requires IsDigit(c)
    ensures 0 <= d < 10
  {
    (c - '0') as int
  }

  predicate AllDigits(s: string) {
    forall i | 0 <= i < |s| :: IsDigit(s[i])
  }

  function NatToString(n: nat): (s: string)
    ensures |s| > 0 && AllDigits(s)
  {
    if n < 10 then [DigitChar(n)] else NatToString(n / 10) + [DigitChar(n % 10)]
  }

  /** The value of a run of digits, most significant first. */
  function DigitsValue(s: string): nat
    requires AllDigits(s)
  {
    if s == "" then 0 else 10 * DigitsValue(s[..|s| - 1]) + DigitValue(s[|s| - 1])
  }

  lemma {:induction false} PrintThenRead(n: nat)
    ensures DigitsValue(NatToString(n)) == n
  {
    var s := NatToString(n);
    if n < 10 {
      assert s[..0] == "";
    } else {
      PrintThenRead(n / 10);
      assert s[..|s| - 1] == NatToString(n / 10);
    }
  }

  /** Two texts that start with runs of characters in one class, each ended by a character outside
      the class, split at the same place. */
  lemma {:induction false} RunsSplitAlike(inClass: char -> bool, x: string, rest: string, y: string, rest': string)
    requires x + rest == y + rest'
    requires forall i | 0 <= i < |x| :: inClass(x[i])
    requires forall i | 0 <= i < |y| :: inClass(y[i])
    requires rest != "" ==> !inClass(rest[0])
    requires rest' != "" ==> !inClass(rest'[0])
    ensures x == y && rest == rest'
  {
    var s := x + rest;
    assert forall i | 0 <= i < |y| :: s[i] == y[i];
    assert forall i | 0 <= i < |x| :: s[i] == x[i];
    assert forall i | |x| <= i < |s| :: s[i] == rest[i - |x|];
    assert forall i | |y| <= i < |s| :: s[i] == rest'[i - |y|];
    assert rest != "" ==> s[|x|] == rest[0];
    assert rest' != "" ==> s[|y|] == rest'[0];
    assert |x| == |y|;
    assert x == s[..|x|] && y == s[..|y|];
    assert rest == s[|x|..] && rest' == s[|y|..];
  }

  lemma {:induction false} PrintedNatsSplitAlike(a: nat, rest: string, b: nat, rest': string)
    requires NatToString(a) + rest == NatToString(b) + rest'
    requires rest != "" ==> !IsDigit(rest[0])
    requires rest' != "" ==> !IsDigit(rest'[0])
    ensures a == b && rest == rest'
  {
    RunsSplitAlike(IsDigit, NatToString(a), rest, NatToString(b), rest');
    PrintThenRead(a);
    PrintThenRead(b);
  }

  function Signed(negative: bool, digits: string): string {
    if negative then "-" + digits else digits
  }

  lemma {:induction false} SignsAgree(neg: bool, x: string, rest: string, neg': bool, y: string, rest': string)
    requires x != "" && AllDigits(x) && y != "" && AllDigits(y)
    requires Signed(neg, x) + rest == Signed(neg', y) + rest'
    ensures neg == neg' && x + rest == y + rest'
  {
    var sx, sy := Signed(neg, x), Signed(neg', y);
    assert IsDigit(x[0]) && IsDigit(y[0]);
    assert (sx + rest)[0] == sx[0] && (sy + rest')[0] == sy[0];
    assert neg == neg';
    if neg {
      assert (sx + rest)[1..] == x + rest;
      assert (sy + rest')[1..] == y + rest';
    }
  }

  function IntToString(n: int): (s: string)
    ensures |s| > 0
    ensures n < 0 <==> s[0] == '-'
    ensures n >= 0 ==> AllDigits(s)
  {
    Signed(n < 0, NatToString(if n < 0 then -n else n))
  }

  /** Integers followed by a non-digit are told apart by their text. */
  lemma {:induction false} PrintedIntsSplitAlike(a: int, rest: string, b: int, rest': string)
    requires IntToString(a) + rest == IntToString(b) + rest'
    requires rest != "" ==> !IsDigit(rest[0])
    requires rest' != "" ==> !IsDigit(rest'[0])
    ensures a == b && rest == rest'
  {
    var da, db := NatToString(if a < 0 then -a else a), NatToString(if b < 0 then -b else b);
    SignsAgree(a < 0, da, rest, b < 0, db, rest');
    PrintedNatsSplitAlike(if a < 0 then -a else a, rest, if b < 0 then -b else b, rest');
  }
}
