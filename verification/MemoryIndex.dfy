/** Keeping the generated memory index within its line and byte budgets. */
module MemoryIndex {
  import opened Prelude
  import Text

  const MAX_LINES: nat := 200
  const MAX_BYTES: nat := 25_000
  /** A fixed text of the index. */
  type Phrase = s: string | '\n' !in s && |s| <= 42 witness ""

  const NOTE_START: Phrase := "> Additional entries were omitted "
  const NOTE_MIDDLE: Phrase := "to keep this index concise. Use "
  const NOTE_END: Phrase := "`memory_list` for the full inventory."

  function OverflowNote(): string { NOTE_START + NOTE_MIDDLE + NOTE_END }

  lemma NoteFacts()
    ensures '\n' !in OverflowNote() && Text.Bytes(OverflowNote()) <= MAX_BYTES
  {
    PhrasesJoin(NOTE_START, NOTE_MIDDLE, NOTE_END);
  }

  lemma PhrasesJoin(a: Phrase, b: Phrase, c: Phrase)
    ensures '\n' !in a + b + c && |a + b + c| <= 126
  {
  }

  function Joined(lines: seq<string>): string {
    Text.Join(lines, "\n")
  }

  /** The lines followed by the note, with one empty line in between. */
  function WithNote(note: string, lines: seq<string>): string
    requires lines != []
  {
    if lines[|lines| - 1] == ""
    then Joined(lines) + "\n" + note
    else Joined(lines) + "\n\n" + note
  }

  predicate FitsWhole(lines: seq<string>) {
    |lines| <= MAX_LINES && Text.Bytes(Joined(lines)) <= MAX_BYTES
  }

  function Limit(lines: seq<string>): nat {
    if |lines| < MAX_LINES - 2 then |lines| else MAX_LINES - 2
  }

  /** Bytes of the first `k` lines with a line ending each. */
  function Size(lines: seq<string>, k: nat): nat
    requires k <= |lines|
  {
    if k == 0 then 0 else Size(lines, k - 1) + Text.Bytes(lines[k - 1]) + 1
  }

  /** Bytes of the first `k` lines with the note (`NoteSize`). */
  function NoteBytes(note: string, lines: seq<string>, k: nat): nat
    requires 0 < k <= |lines|
  {
    Size(lines, k) + (if lines[k - 1] == "" then 0 else 1) + Text.Bytes(note)
  }

  predicate FitsWithNote(note: string, lines: seq<string>, k: nat)
    requires 0 < k <= |lines|
  {
    NoteBytes(note, lines, k) <= MAX_BYTES
  }

  /** `k` lines is the most that fits with the note; `k` is 0 if not even one line does. */
  ghost predicate LongestFit(note: string, lines: seq<string>, k: nat) {
    && k <= Limit(lines)
    && (k > 0 ==> FitsWithNote(note, lines, k))
    && forall j :: k < j <= Limit(lines) ==> !FitsWithNote(note, lines, j)
  }

  ghost predicate IsIndex(note: string, lines: seq<string>, text: string) {
    if FitsWhole(lines) then text == Joined(lines)
    else exists k: nat :: LongestFit(note, lines, k) && text == (if k == 0 then note else WithNote(note, lines[..k]))
  }

  method Shorten(note: string, lines: seq<string>) returns (text: string)
    requires !FitsWhole(lines)
    ensures IsIndex(note, lines, text)
  {
    var kept := lines[..Limit(lines)];
    while kept != []
      invariant |kept| <= Limit(lines) && kept == lines[..|kept|]
      invariant forall j :: |kept| < j <= Limit(lines) ==> !FitsWithNote(note, lines, j)
      decreases |kept|
    {
      var tentative := if kept[|kept| - 1] == ""
        then Joined(kept) + "\n" + note
        else Joined(kept) + "\n\n" + note;
      NoteSize(note, lines, |kept|);
      if Text.Bytes(tentative) <= MAX_BYTES {
        assert LongestFit(note, lines, |kept|);
        return tentative;
      }
      assert !FitsWithNote(note, lines, |kept|);
      kept := kept[..|kept| - 1];
    }
    assert LongestFit(note, lines, 0);
    text := note;
  }

  method FinalizeIndex(lines: seq<string>) returns (text: string)
    ensures IsIndex(OverflowNote(), lines, text)
  {
    if |lines| <= MAX_LINES && Text.Bytes(Joined(lines)) <= MAX_BYTES {
      return Joined(lines);
    }
    text := Shorten(OverflowNote(), lines);
  }

  lemma IndexBytes(note: string, lines: seq<string>, text: string)
    requires IsIndex(note, lines, text) && Text.Bytes(note) <= MAX_BYTES
    ensures Text.Bytes(text) <= MAX_BYTES
  {
    if !FitsWhole(lines) {
      var k: nat :| LongestFit(note, lines, k) && text == (if k == 0 then note else WithNote(note, lines[..k]));
      if k > 0 {
        NoteSize(note, lines, k);
      }
    }
  }

  lemma WithinBytes(lines: seq<string>, text: string)
    requires IsIndex(OverflowNote(), lines, text)
    ensures Text.Bytes(text) <= 25_000
  {
    NoteFacts();
    IndexBytes(OverflowNote(), lines, text);
  }

  // ----- prefixes fit up to a threshold -----

  lemma {:induction false} JoinAppend(lines: seq<string>, last: string)
    requires lines != []
    ensures Joined(lines + [last]) == Joined(lines) + "\n" + last
  {
    var whole := lines + [last];
    assert whole[0] == lines[0];
    assert whole[1..] == lines[1..] + [last];
    if |lines| > 1 {
      JoinAppend(lines[1..], last);
    } else {
      assert Joined(whole[1..]) == last;
      assert Joined(lines) == lines[0];
    }
  }

  lemma OneMoreLine(lines: seq<string>, k: nat)
    requires 1 < k <= |lines|
    ensures Text.Bytes(Joined(lines[..k])) == Text.Bytes(Joined(lines[..k - 1])) + 1 + Text.Bytes(lines[k - 1])
  {
    assert lines[..k] == lines[..k - 1] + [lines[k - 1]];
    JoinAppend(lines[..k - 1], lines[k - 1]);
    Text.BytesConcat(Joined(lines[..k - 1]) + "\n", lines[k - 1]);
    Text.BytesConcat(Joined(lines[..k - 1]), "\n");
  }

  lemma BytesWithNote(note: string, lines: seq<string>)
    requires lines != []
    ensures Text.Bytes(WithNote(note, lines)) ==
            Text.Bytes(Joined(lines)) + (if lines[|lines| - 1] == "" then 1 else 2) + Text.Bytes(note)
  {
    var gap := if lines[|lines| - 1] == "" then "\n" else "\n\n";
    Text.BytesConcat(Joined(lines) + gap, note);
    Text.BytesConcat(Joined(lines), gap);
    assert "\n\n"[1..] == "\n";
  }

  lemma {:induction false} SizeGrows(lines: seq<string>, j: nat, k: nat)
    requires j <= k <= |lines|
    ensures Size(lines, j) + (k - j) <= Size(lines, k)
    decreases k
  {
    if j < k {
      SizeGrows(lines, j, k - 1);
    }
  }

  lemma {:induction false} JoinedSize(lines: seq<string>, k: nat)
    requires 0 < k <= |lines|
    ensures Text.Bytes(Joined(lines[..k])) + 1 == Size(lines, k)
    decreases k
  {
    if k == 1 {
      assert lines[..1] == [lines[0]];
    } else {
      JoinedSize(lines, k - 1);
      OneMoreLine(lines, k);
    }
  }

  lemma NoteSize(note: string, lines: seq<string>, k: nat)
    requires 0 < k <= |lines|
    ensures Text.Bytes(WithNote(note, lines[..k])) == NoteBytes(note, lines, k)
  {
    BytesWithNote(note, lines[..k]);
    JoinedSize(lines, k);
    assert lines[..k][k - 1] == lines[k - 1];
  }

  /** One more line never makes the index shorter, so what fits is decided by a threshold. */
  lemma LongerNeverShrinks(note: string, lines: seq<string>, j: nat, k: nat)
    requires 0 < j <= k <= |lines|
    ensures NoteBytes(note, lines, j) <= NoteBytes(note, lines, k)
  {
    SizeGrows(lines, j, k);
  }

  lemma LongestFitIsThreshold(note: string, lines: seq<string>, k: nat, i: nat)
    requires LongestFit(note, lines, k) && 0 < i <= Limit(lines)
    ensures FitsWithNote(note, lines, i) <==> i <= k
  {
    if i <= k {
      LongerNeverShrinks(note, lines, i, k);
    }
  }

  // ----- lines of the result -----

  /** The lines a reader sees. */
  function SeenLines(text: string): seq<string> {
    Text.Split(text, '\n')
  }

  /** The lines that are kept, the empty line if one is needed, and the note. */
  function Annotated(note: string, lines: seq<string>): seq<string>
    requires lines != []
  {
    if lines[|lines| - 1] == "" then lines + [note] else lines + ["", note]
  }

  lemma AnnotatedJoin(note: string, lines: seq<string>)
    requires lines != []
    ensures Joined(Annotated(note, lines)) == WithNote(note, lines)
  {
    if lines[|lines| - 1] == "" {
      JoinAppend(lines, note);
    } else {
      JoinAppend(lines, "");
      JoinAppend(lines + [""], note);
      assert lines + ["", note] == lines + [""] + [note];
    }
  }

  // ----- entries that hold line breaks -----

  lemma {:induction false} SeenIsBreaks(text: string)
    ensures |SeenLines(text)| == Text.Breaks(text) + 1
  {
    if text != "" {
      SeenIsBreaks(text[1..]);
    }
  }

  function TotalBreaks(lines: seq<string>): (n: nat)
    ensures n == 0 <==> NewlineFree(lines)
  {
    if lines == [] then 0
    else
      var front, last := lines[..|lines| - 1], lines[|lines| - 1];
      assert lines == front + [last];
      TotalBreaks(front) + Text.Breaks(last)
  }

  lemma TotalSnoc(lines: seq<string>, last: string)
    ensures TotalBreaks(lines + [last]) == TotalBreaks(lines) + Text.Breaks(last)
  {
    assert (lines + [last])[..|lines|] == lines;
  }

  lemma {:induction false} TotalConcat(a: seq<string>, b: seq<string>)
    ensures TotalBreaks(a + b) == TotalBreaks(a) + TotalBreaks(b)
  {
    if b == [] {
      assert a + b == a;
    } else {
      var n := |b| - 1;
      TotalConcat(a, b[..n]);
      TotalSnoc(a + b[..n], b[n]);
      assert a + b[..n] + [b[n]] == a + b;
    }
  }

  lemma JoinedBreaksSnoc(front: seq<string>, last: string)
    requires front != [] && Text.Breaks(Joined(front)) + 1 == |front| + TotalBreaks(front)
    ensures Text.Breaks(Joined(front + [last])) + 1 == |front| + 1 + TotalBreaks(front + [last])
  {
    JoinAppend(front, last);
    BreaksBetween(Joined(front), last);
    TotalSnoc(front, last);
  }

  /** A join of lines holds their line breaks and those between them. */
  lemma {:induction false} JoinedBreaks(lines: seq<string>)
    requires lines != []
    ensures Text.Breaks(Joined(lines)) + 1 == |lines| + TotalBreaks(lines)
  {
    var front, last := lines[..|lines| - 1], lines[|lines| - 1];
    assert lines == front + [last];
    if front == [] {
      TotalSnoc([], last);
      assert [] + [last] == [last];
    } else {
      JoinedBreaks(front);
      JoinedBreaksSnoc(front, last);
    }
  }

  lemma BreaksBetween(a: string, b: string)
    ensures Text.Breaks(a + "\n" + b) == Text.Breaks(a) + 1 + Text.Breaks(b)
  {
    Text.BreaksConcat(a + "\n", b);
    Text.BreaksConcat(a, "\n");
  }

  /** How many entries are kept when not all are: what the loop finds, without the loop. */
  function KeptBelow(note: string, lines: seq<string>, n: nat): (k: nat)
    requires n <= |lines|
    ensures k <= n && (k > 0 ==> FitsWithNote(note, lines, k))
    ensures forall j :: k < j <= n ==> !FitsWithNote(note, lines, j)
  {
    if n == 0 then 0 else if FitsWithNote(note, lines, n) then n else KeptBelow(note, lines, n - 1)
  }

  lemma LongestFitUnique(note: string, lines: seq<string>, j: nat, k: nat)
    requires LongestFit(note, lines, j) && LongestFit(note, lines, k)
    ensures j == k
  {
  }

  /** The lines that `k` lines take up, one each and one for every line break in them, and those of the note. */
  function WithNoteTakes(lines: seq<string>, k: nat): nat
    requires k <= |lines|
  {
    k + TotalBreaks(lines[..k]) + if k == 0 || lines[k - 1] == "" then 1 else 2
  }

  /** The lines an index takes up, read off the lines that are put in. */
  function Takes(note: string, lines: seq<string>): nat {
    if FitsWhole(lines) then Max(|lines| + TotalBreaks(lines), 1)
    else WithNoteTakes(lines, KeptBelow(note, lines, Limit(lines)))
  }

  lemma WholeShows(lines: seq<string>)
    ensures |SeenLines(Joined(lines))| == Max(|lines| + TotalBreaks(lines), 1)
  {
    SeenIsBreaks(Joined(lines));
    if lines != [] {
      JoinedBreaks(lines);
    }
  }

  lemma WholeTakes(note: string, lines: seq<string>, text: string, n: nat)
    requires FitsWhole(lines) && IsIndex(note, lines, text) && n > 0 && |lines| + TotalBreaks(lines) == n
    ensures |SeenLines(text)| == n
  {
    WholeShows(lines);
  }

  lemma AnnotatedTakes(note: string, lines: seq<string>)
    requires lines != [] && '\n' !in note
    ensures |Annotated(note, lines)| + TotalBreaks(Annotated(note, lines))
            == |lines| + TotalBreaks(lines) + if lines[|lines| - 1] == "" then 1 else 2
  {
    if lines[|lines| - 1] == "" {
      TotalSnoc(lines, note);
    } else {
      TotalSnoc(lines, "");
      TotalSnoc(lines + [""], note);
      assert lines + ["", note] == lines + [""] + [note];
    }
  }

  lemma ShortenedShows(note: string, lines: seq<string>, k: nat)
    requires k <= |lines| && '\n' !in note
    ensures |SeenLines(if k == 0 then note else WithNote(note, lines[..k]))| == WithNoteTakes(lines, k)
  {
    if k == 0 {
      SeenIsBreaks(note);
    } else {
      AnnotatedJoin(note, lines[..k]);
      AnnotatedTakes(note, lines[..k]);
      WholeShows(Annotated(note, lines[..k]));
      assert lines[..k][k - 1] == lines[k - 1];
    }
  }

  /** Every index, whole or shortened, shows exactly the lines computed from what is put in. */
  lemma IndexShows(note: string, lines: seq<string>, text: string)
    requires IsIndex(note, lines, text) && '\n' !in note
    ensures |SeenLines(text)| == Takes(note, lines)
  {
    if FitsWhole(lines) {
      WholeShows(lines);
    } else {
      var k: nat :| LongestFit(note, lines, k) && text == (if k == 0 then note else WithNote(note, lines[..k]));
      LongestFitUnique(note, lines, k, KeptBelow(note, lines, Limit(lines)));
      ShortenedShows(note, lines, k);
    }
  }

  /**
   An index written whole has room for the line breaks that its lines leave of 200; a
   shortened one for those that its kept lines and the note leave.
   */
  predicate BreaksFit(note: string, lines: seq<string>) {
    var k := KeptBelow(note, lines, Limit(lines));
    if FitsWhole(lines) then TotalBreaks(lines) <= MAX_LINES - |lines|
    else TotalBreaks(lines[..k]) <= MAX_LINES - k - if k == 0 || lines[k - 1] == "" then 1 else 2
  }

  lemma TakesFit(note: string, lines: seq<string>)
    ensures Takes(note, lines) <= MAX_LINES <==> BreaksFit(note, lines)
  {
  }

  /** The line budget is kept if and only if there is room for the line breaks within the lines. */
  lemma LineBudgetIff(lines: seq<string>, text: string)
    requires IsIndex(OverflowNote(), lines, text)
    ensures |SeenLines(text)| <= 200 <==> BreaksFit(OverflowNote(), lines)
  {
    NoteFacts();
    IndexShows(OverflowNote(), lines, text);
    TakesFit(OverflowNote(), lines);
  }

  lemma NoBreaksFit(note: string, lines: seq<string>)
    requires NewlineFree(lines)
    ensures BreaksFit(note, lines)
  {
    PrefixBreaks(lines, |lines|);
    PrefixBreaks(lines, KeptBelow(note, lines, Limit(lines)));
  }

  lemma {:induction false} PrefixBreaks(lines: seq<string>, k: nat)
    requires k <= |lines| && NewlineFree(lines)
    ensures TotalBreaks(lines[..k]) == 0
  {
    assert forall i :: 0 <= i < k ==> lines[..k][i] == lines[i];
  }

  /** Every index made of newline-free lines meets both budgets. */
  lemma WithinBudgets(lines: seq<string>, text: string)
    requires NewlineFree(lines) && IsIndex(OverflowNote(), lines, text)
    ensures Text.Bytes(text) <= 25_000 && |SeenLines(text)| <= 200
  {
    WithinBytes(lines, text);
    LineBudgetIff(lines, text);
    NoBreaksFit(OverflowNote(), lines);
  }
}
