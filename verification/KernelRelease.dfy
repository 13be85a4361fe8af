/** Reading version numbers out of a kernel release string. */
module KernelRelease {
  import opened Decimal
  import opened Prelude

  datatype Release = Release(raw: string, major: nat, minor: nat, patch: nat)

  // ----- digit runs -----

  /** The digit runs of `s`, the first one preceded by the digits `current` already collected. */
  function Scan(current: string, s: string): (r: seq<string>)
    requires AllDigits(current)
    ensures forall i :: 0 <= i < |r| ==> r[i] != "" && AllDigits(r[i])
    decreases |s|
  {
    if s == "" then (if current == "" then [] else [current])
    else if IsDigit(s[0]) then Scan(current + [s[0]], s[1..])
    else if current == "" then Scan("", s[1..])
    else [current] + Scan("", s[1..])
  }

  function Runs(s: string): seq<string> { Scan("", s) }

  predicate StartsWithDigit(s: string) {
    s != "" && IsDigit(s[0])
  }

  lemma {:induction false} ScanRun(current: string, digits: string, rest: string)
    requires AllDigits(current) && AllDigits(digits) && current + digits != "" && !StartsWithDigit(rest)
    ensures Scan(current, digits + rest) == [current + digits] + Runs(rest)
    decreases |digits|
  {
    if digits == "" {
      assert digits + rest == rest && current + digits == current;
      if rest != "" {
        assert Runs(rest) == Scan("", rest[1..]);
      }
    } else {
      assert (digits + rest)[1..] == digits[1..] + rest;
      assert current + digits == current + [digits[0]] + digits[1..];
      ScanRun(current + [digits[0]], digits[1..], rest);
    }
  }

  lemma {:induction false} ScanGap(gap: string, rest: string)
    requires forall i :: 0 <= i < |gap| ==> !IsDigit(gap[i])
    ensures Runs(gap + rest) == Runs(rest)
  {
    if gap == "" {
      assert gap + rest == rest;
    } else {
      assert (gap + rest)[1..] == gap[1..] + rest;
      ScanGap(gap[1..], rest);
    }
  }

  /** A run is maximal: it ends where the digits end, and whatever is not a digit is skipped. */
  lemma RunsAre(gap: string, digits: string, rest: string)
    requires forall i :: 0 <= i < |gap| ==> !IsDigit(gap[i])
    requires digits != "" && AllDigits(digits) && !StartsWithDigit(rest)
    ensures Runs(gap) == []
    ensures Runs(gap + digits + rest) == [digits] + Runs(rest)
  {
    ScanGap(gap, "");
    assert gap + "" == gap;
    assert gap + digits + rest == gap + (digits + rest);
    ScanGap(gap, digits + rest);
    RunFirst(digits, rest);
  }

  // ----- the parser -----

  function Shown(raw: string): seq<string> {
    var runs := Runs(raw);
    if |runs| <= 3 then runs else runs[..3]
  }

  predicate FitsU64(run: string)
    requires AllDigits(run)
  {
    Value(run) < U64_LIMIT
  }

  /** The first runs, up to three, as numbers. */
  ghost predicate Numbers(runs: seq<string>, numbers: seq<nat>) {
    && |runs| == |numbers|
    && forall i :: 0 <= i < |runs| ==> AllDigits(runs[i]) && Value(runs[i]) == numbers[i] < U64_LIMIT
  }

  ghost predicate Overflows(raw: string) {
    exists i :: 0 <= i < |Shown(raw)| && !FitsU64(Shown(raw)[i])
  }

  /** `done` are the runs already turned into `numbers`, `current` is the run being read. */
  ghost predicate ReadUpTo(raw: string, i: nat, done: seq<string>, current: string) {
    i <= |raw| && AllDigits(current) && Runs(raw) == done + Scan(current, raw[i..])
  }

  lemma ReadsDigit(raw: string, i: nat, done: seq<string>, current: string)
    requires ReadUpTo(raw, i, done, current) && i < |raw| && IsDigit(raw[i])
    ensures ReadUpTo(raw, i + 1, done, current + [raw[i]])
  {
    assert raw[i..][1..] == raw[i + 1..];
  }

  lemma ReadsGap(raw: string, i: nat, done: seq<string>)
    requires ReadUpTo(raw, i, done, "") && i < |raw| && !IsDigit(raw[i])
    ensures ReadUpTo(raw, i + 1, done, "")
  {
    assert raw[i..][1..] == raw[i + 1..];
  }

  lemma ReadsRun(raw: string, i: nat, done: seq<string>, current: string)
    requires ReadUpTo(raw, i, done, current) && current != "" && (i < |raw| ==> !IsDigit(raw[i]))
    ensures ReadUpTo(raw, if i < |raw| then i + 1 else i, done + [current], "")
    ensures |done| < 3 ==> |done| < |Shown(raw)| && Shown(raw)[|done|] == current
  {
    var next := if i < |raw| then i + 1 else i;
    if i < |raw| { assert raw[i..][1..] == raw[next..]; }
    assert Scan(current, raw[i..]) == [current] + Scan("", raw[next..]);
    assert Runs(raw) == done + [current] + Scan("", raw[next..]);
  }

  lemma ReadsAll(raw: string, i: nat, done: seq<string>)
    requires ReadUpTo(raw, i, done, "") && |done| <= 3 && (i == |raw| || |done| == 3)
    ensures Shown(raw) == done
  {
  }

  lemma NumbersFit(raw: string, numbers: seq<nat>)
    requires Numbers(Shown(raw), numbers)
    ensures !Overflows(raw)
  {
  }

  /** A run that has ended becomes a number, or shows that a run overflows. */
  lemma PushesRun(raw: string, i: nat, done: seq<string>, current: string, numbers: seq<nat>)
    requires ReadUpTo(raw, i, done, current) && current != "" && (i < |raw| ==> !IsDigit(raw[i]))
    requires Numbers(done, numbers) && |done| < 3
    ensures Value(current) >= U64_LIMIT ==> Overflows(raw)
    ensures Value(current) < U64_LIMIT ==> Numbers(done + [current], numbers + [Value(current)])
    ensures ReadUpTo(raw, if i < |raw| then i + 1 else i, done + [current], "")
  {
    ReadsRun(raw, i, done, current);
    if Value(current) >= U64_LIMIT {
      assert !FitsU64(Shown(raw)[|done|]);
    }
  }

  lemma Concludes(raw: string, i: nat, done: seq<string>, numbers: seq<nat>)
    requires ReadUpTo(raw, i, done, "") && |done| <= 3 && (i == |raw| || |done| == 3) && Numbers(done, numbers)
    ensures Numbers(Shown(raw), numbers) && !Overflows(raw)
  {
    ReadsAll(raw, i, done);
    NumbersFit(raw, numbers);
  }

  /** Two or three numbers; the patch is 0 if there are only two. */
  ghost predicate IsRelease(numbers: seq<nat>, r: Release) {
    || (|numbers| == 2 && r.major == numbers[0] && r.minor == numbers[1] && r.patch == 0)
    || (|numbers| == 3 && r.major == numbers[0] && r.minor == numbers[1] && r.patch == numbers[2])
  }

  /** The scan: it stops after three numbers, or at a run that is too large. */
  method ScanNumbers(raw: string) returns (r: Option<seq<nat>>)
    ensures r.None? <==> Overflows(raw)
    ensures r.Some? ==> Numbers(Shown(raw), r.value)
  {
    var numbers: seq<nat> := [];
    var current := "";
    ghost var done: seq<string> := [];
    var i := 0;
    assert ReadUpTo(raw, 0, [], "") by { assert raw[0..] == raw; }
    while i < |raw| && |numbers| < 3
      invariant ReadUpTo(raw, i, done, current)
      invariant Numbers(done, numbers) && |numbers| <= 3 && (|numbers| == 3 ==> current == "")
      decreases |raw| - i
    {
      var ch := raw[i];
      if IsDigit(ch) {
        ReadsDigit(raw, i, done, current);
        current := current + [ch];
      } else if current != "" {
        PushesRun(raw, i, done, current, numbers);
        if Value(current) >= U64_LIMIT {
          return None;
        }
        numbers := numbers + [Value(current)];
        done := done + [current];
        current := "";
      } else {
        ReadsGap(raw, i, done);
      }
      i := i + 1;
    }
    if current != "" && |numbers| < 3 {
      PushesRun(raw, i, done, current, numbers);
      if Value(current) >= U64_LIMIT {
        return None;
      }
      numbers := numbers + [Value(current)];
      done := done + [current];
    }
    Concludes(raw, i, done, numbers);
    r := Some(numbers);
  }

  method ParseKernelRelease(raw: string) returns (r: Option<Release>)
    ensures r.None? <==> |Shown(raw)| < 2 || Overflows(raw)
    ensures r.Some? ==> r.value.raw == raw
    ensures r.Some? ==> exists numbers :: Numbers(Shown(raw), numbers) && IsRelease(numbers, r.value)
  {
    var scanned := ScanNumbers(raw);
    if scanned.None? || |scanned.value| < 2 {
      return None;
    }
    var numbers := scanned.value;
    r := Some(Release(raw, numbers[0], numbers[1], if |numbers| > 2 then numbers[2] else 0));
  }

  // ----- the round trip -----

  function Printed(a: nat, b: nat, c: nat, suffix: string): string {
    Print(a) + ("." + (Print(b) + ("." + (Print(c) + suffix))))
  }

  lemma RunFirst(digits: string, rest: string)
    requires digits != "" && AllDigits(digits) && !StartsWithDigit(rest)
    ensures Runs(digits + rest) == [digits] + Runs(rest)
  {
    ScanRun("", digits, rest);
    assert "" + digits == digits;
  }

  lemma RunThenDot(digits: string, rest: string)
    requires digits != "" && AllDigits(digits)
    ensures Runs(digits + ("." + rest)) == [digits] + Runs(rest)
  {
    RunFirst(digits, "." + rest);
    ScanGap(".", rest);
  }

  lemma DottedRuns(x: string, y: string, z: string, suffix: string)
    requires x != "" && AllDigits(x) && y != "" && AllDigits(y) && z != "" && AllDigits(z)
    requires !StartsWithDigit(suffix)
    ensures Runs(x + ("." + (y + ("." + (z + suffix))))) == [x, y, z] + Runs(suffix)
  {
    RunFirst(z, suffix);
    RunThenDot(y, z + suffix);
    RunThenDot(x, y + ("." + (z + suffix)));
    Consed(x, y, z, Runs(suffix));
  }

  lemma Consed<T>(x: T, y: T, z: T, rest: seq<T>)
    ensures [x] + ([y] + ([z] + rest)) == [x, y, z] + rest
  {
  }

  lemma PrintedRuns(a: nat, b: nat, c: nat, suffix: string)
    requires !StartsWithDigit(suffix)
    ensures Runs(Printed(a, b, c, suffix)) == [Print(a), Print(b), Print(c)] + Runs(suffix)
  {
    DottedRuns(Print(a), Print(b), Print(c), suffix);
  }

  /** Every version of three u64 numbers survives, whatever non-digit suffix follows. */
  lemma RoundTrip(a: nat, b: nat, c: nat, suffix: string, numbers: seq<nat>)
    requires a < U64_LIMIT && b < U64_LIMIT && c < U64_LIMIT && !StartsWithDigit(suffix)
    ensures |Shown(Printed(a, b, c, suffix))| == 3 && !Overflows(Printed(a, b, c, suffix))
    ensures Numbers(Shown(Printed(a, b, c, suffix)), numbers) <==> numbers == [a, b, c]
  {
    var raw := Printed(a, b, c, suffix);
    PrintedRuns(a, b, c, suffix);
    assert Shown(raw) == [Print(a), Print(b), Print(c)];
    ValuePrint(a);
    ValuePrint(b);
    ValuePrint(c);
  }

  /** End to end: printing a version and reading it back. */
  method ReadBack(a: nat, b: nat, c: nat, suffix: string) returns (r: Option<Release>)
    requires a < U64_LIMIT && b < U64_LIMIT && c < U64_LIMIT && !StartsWithDigit(suffix)
    ensures r == Some(Release(Printed(a, b, c, suffix), a, b, c))
  {
    forall numbers ensures Numbers(Shown(Printed(a, b, c, suffix)), numbers) <==> numbers == [a, b, c] {
      RoundTrip(a, b, c, suffix, numbers);
    }
    RoundTrip(a, b, c, suffix, []);
    r := ParseKernelRelease(Printed(a, b, c, suffix));
  }
}
