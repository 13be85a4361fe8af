/** Printing token counts with a comma between groups of three digits. */
module TokenCount {
  import opened Decimal
  import Text

  /** What separates a digit from the `n` digits to its right. */
  function Comma(n: nat): string {
    if n > 0 && n % 3 == 0 then "," else ""
  }

  /** What the loop has pushed after `n` digits, counted from the last one. */
  function Pushed(digits: string, n: nat): string
    requires n <= |digits|
  {
    if n == 0 then ""
    else
      Pushed(digits, n - 1) + Comma(n - 1) + [digits[|digits| - n]]
  }

  /** `chars().rev()` */
  function Reverse(s: string): string {
    if s == "" then "" else [s[|s| - 1]] + Reverse(s[..|s| - 1])
  }

  /** The digits from position `k` on, with a comma wherever a multiple of three is left. */
  function Grouped(digits: string, k: nat): string
    requires k <= |digits|
    decreases |digits| - k
  {
    if k == |digits| then ""
    else
      [digits[k]] + Comma(|digits| - k - 1) + Grouped(digits, k + 1)
  }

  lemma ReverseSnoc(s: string, c: char)
    ensures Reverse(s + [c]) == [c] + Reverse(s)
  {
    assert (s + [c])[..|s|] == s;
  }

  lemma ReversePush(before: string, comma: string, digit: char, reversed: string)
    requires |comma| <= 1 && Reverse(before) == reversed
    ensures Reverse(before + comma + [digit]) == [digit] + comma + reversed
  {
    ReverseSnoc(before + comma, digit);
    if comma == "" {
      assert before + comma == before;
    } else {
      assert comma == [comma[0]];
      ReverseSnoc(before, comma[0]);
    }
  }

  lemma {:induction false} ReversePushed(digits: string, n: nat)
    requires n <= |digits|
    ensures Reverse(Pushed(digits, n)) == Grouped(digits, |digits| - n)
  {
    if n > 0 {
      var k := |digits| - n;
      ReversePushed(digits, n - 1);
      ReversePush(Pushed(digits, n - 1), Comma(n - 1), digits[k], Grouped(digits, k + 1));
    }
  }

  method FormatTokenCount(value: nat) returns (text: string)
    requires value < U64_LIMIT
    ensures text == Grouped(Print(value), 0)
  {
    var digits := Print(value);
    var pushed := "";
    for index := 0 to |digits|
      invariant pushed == Pushed(digits, index)
    {
      if index > 0 && index % 3 == 0 {
        pushed := pushed + ",";
      }
      pushed := pushed + [digits[|digits| - 1 - index]];
    }
    ReversePushed(digits, |digits|);
    text := Reverse(pushed);
  }

  function WithoutCommas(s: string): string {
    if s == "" then ""
    else if s[0] == ',' then WithoutCommas(s[1..])
    else [s[0]] + WithoutCommas(s[1..])
  }

  lemma DropComma(digit: char, comma: string, rest: string)
    requires digit != ',' && (comma == "" || comma == ",")
    ensures WithoutCommas([digit] + comma + rest) == [digit] + WithoutCommas(rest)
  {
    var text := [digit] + comma + rest;
    assert text[1..] == comma + rest;
    if comma == "" {
      assert comma + rest == rest;
    } else {
      assert (comma + rest)[1..] == rest;
    }
  }

  lemma {:induction false} GroupedKeepsDigits(digits: string, k: nat)
    requires k <= |digits| && AllDigits(digits)
    ensures WithoutCommas(Grouped(digits, k)) == digits[k..]
    decreases |digits| - k
  {
    if k < |digits| {
      GroupedKeepsDigits(digits, k + 1);
      var rest := Grouped(digits, k + 1);
      assert digits[k..] == [digits[k]] + digits[k + 1..];
      DropComma(digits[k], Comma(|digits| - k - 1), rest);
    }
  }

  /** Dropping the commas and parsing gives the count back. */
  lemma RoundTrip(value: nat)
    ensures WithoutCommas(Grouped(Print(value), 0)) == Print(value)
    ensures Value(WithoutCommas(Grouped(Print(value), 0))) == value
  {
    GroupedKeepsDigits(Print(value), 0);
    assert Print(value)[0..] == Print(value);
    ValuePrint(value);
  }

  lemma {:induction false} GroupedLength(digits: string, k: nat)
    requires k < |digits|
    ensures var left := |digits| - k;
            |Grouped(digits, k)| == left + (left - 1) / 3
    decreases |digits| - k
  {
    if k + 1 < |digits| {
      GroupedLength(digits, k + 1);
    }
  }

  ghost predicate WellGrouped(groups: seq<string>, digits: nat)
    requires digits > 0
  {
    && |groups| == (digits - 1) / 3 + 1
    && |groups[0]| == (digits - 1) % 3 + 1
    && forall i :: 0 < i < |groups| ==> |groups[i]| == 3
  }

  /** The last groups all have three digits and the first has what is left, one to three. */
  lemma {:induction false} GroupsOfThree(digits: string, k: nat)
    requires k < |digits| && AllDigits(digits)
    ensures WellGrouped(Text.Split(Grouped(digits, k), ','), |digits| - k)
    decreases |digits| - k
  {
    var text := Grouped(digits, k);
    var left := |digits| - k - 1;
    if left == 0 {
      assert Grouped(digits, k + 1) == "";
      assert text == [digits[k]];
      Text.SplitFirst(text, ',', "");
    } else {
      GroupsOfThree(digits, k + 1);
      var rest := Grouped(digits, k + 1);
      if left % 3 == 0 {
        assert text == [digits[k]] + [','] + rest;
        Text.SplitFirst([digits[k]], ',', rest);
      } else {
        assert text[1..] == rest;
      }
    }
  }
}
