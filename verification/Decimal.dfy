/** Printing and parsing natural numbers in base ten. */
module Decimal {

  const U64_LIMIT: nat := 0x1_0000_0000_0000_0000

  predicate IsDigit(c: char) { '0' <= c <= '9' }

  predicate AllDigits(s: string) {
    forall i :: 0 <= i < |s| ==> IsDigit(s[i])
  }

  function DigitChar(d: nat): (c: char)
    requires d < 10
    ensures IsDigit(c) && c as nat - '0' as nat == d
  {
    ('0' as nat + d) as char
  }

  /** `n.to_string()` */
  function Print(n: nat): (s: string)
    ensures s != "" && AllDigits(s)
  {
    if n < 10 then [DigitChar(n)] else Print(n / 10) + [DigitChar(n % 10)]
  }

  function Value(s: string): nat
    requires AllDigits(s)
  {
    if s == "" then 0 else Value(s[..|s| - 1]) * 10 + (s[|s| - 1] as nat - '0' as nat)
  }

  /** Parsing what was printed gives the number back. */
  lemma {:induction false} ValuePrint(n: nat)
    ensures Value(Print(n)) == n
  {
    var s := Print(n);
    if n < 10 {
      assert s[..0] == "";
    } else {
      ValuePrint(n / 10);
      assert s[..|s| - 1] == Print(n / 10);
    }
  }

  /** Digits without a zero in front, unless that is all there is. */
  ghost predicate Canonical(s: string) {
    s != "" && AllDigits(s) && (s[0] == '0' ==> |s| == 1)
  }

  lemma {:induction false} PrintCanonical(n: nat)
    ensures Canonical(Print(n)) && (n > 0 ==> Print(n)[0] != '0')
  {
    if n >= 10 {
      PrintCanonical(n / 10);
    }
  }

  lemma {:induction false} PositiveValue(s: string)
    requires Canonical(s) && s[0] != '0'
    ensures Value(s) > 0
  {
    if |s| > 1 {
      PositiveValue(s[..|s| - 1]);
    }
  }

  /** Only one canonical string has a given value: printing is the inverse of parsing. */
  lemma {:induction false} PrintValue(s: string)
    requires Canonical(s)
    ensures Print(Value(s)) == s
  {
    var n := |s| - 1;
    var d := s[n] as nat - '0' as nat;
    if n == 0 {
      assert s[..0] == "";
    } else {
      PositiveValue(s[..n]);
      PrintValue(s[..n]);
      assert Value(s) / 10 == Value(s[..n]) && Value(s) % 10 == d;
      assert s == s[..n] + [s[n]];
    }
  }
}
