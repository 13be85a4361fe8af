/** Splitting documents into overlapping chunks of whole lines. */
module Chunker {
  import opened Prelude
  import Text

  const USIZE_LIMIT: nat := 0x1_0000_0000_0000_0000

  datatype Config = Config(targetTokens: nat, overlapTokens: nat)

  datatype Document = Document(path: string, snapshot: string, lines: seq<string>)

  /** Lines are numbered from 1 and `endLine` is included. */
  datatype Chunk = Chunk(path: string, snapshot: string, startLine: nat, endLine: nat, text: string)

  /** Lines `start` up to but not including `end`, numbered from 0. */
  datatype Window = Window(start: nat, end: nat)

  /** Both products wrap around at the width of usize. */
  function TargetChars(c: Config): nat { Max(Max(c.targetTokens, 1) * 4 % USIZE_LIMIT, 32) }

  function OverlapChars(c: Config): nat { Max(c.overlapTokens, 1) * 4 % USIZE_LIMIT }

  /** What lines `i..j` count against a budget: each line and its line ending. */
  function Cost(lines: seq<string>, i: nat, j: nat): (r: nat)
    requires i <= j <= |lines|
    ensures i < j ==> r > 0
    decreases j
  {
    if i == j then 0 else Cost(lines, i, j - 1) + Text.Bytes(lines[j - 1]) + 1
  }

  lemma {:induction false} CostSplits(lines: seq<string>, i: nat, j: nat, k: nat)
    requires i <= j <= k <= |lines|
    ensures Cost(lines, i, k) == Cost(lines, i, j) + Cost(lines, j, k)
    decreases k
  {
    if j < k {
      CostSplits(lines, i, j, k - 1);
    }
  }

  // ----- what a chunking is -----

  /** One line, or within the budget; and no further line fits. */
  ghost predicate Maximal(lines: seq<string>, target: nat, w: Window) {
    && w.start < w.end <= |lines|
    && (w.end == w.start + 1 || Cost(lines, w.start, w.end) <= target)
    && (w.end < |lines| ==> Cost(lines, w.start, w.end + 1) > target)
  }

  /**
   Where the window after `w` starts: at the end of a one-line window, otherwise inside
   `w` past its first line, sharing one line or as many as the overlap budget takes.
   */
  ghost predicate Follows(lines: seq<string>, overlap: nat, w: Window, next: nat)
    requires w.start < w.end <= |lines|
  {
    if w.end == w.start + 1 then next == w.end
    else
      && w.start < next < w.end
      && (next == w.end - 1 || Cost(lines, next, w.end) <= overlap)
      && (next == w.start + 1 || Cost(lines, next - 1, w.end) > overlap)
  }

  ghost predicate Linked(lines: seq<string>, target: nat, overlap: nat, ws: seq<Window>) {
    && (forall i :: 0 <= i < |ws| ==> Maximal(lines, target, ws[i]))
    && (forall i :: 0 <= i < |ws| - 1 ==> ws[i].end < |lines| && Follows(lines, overlap, ws[i], ws[i + 1].start))
  }

  ghost predicate IsWindowing(lines: seq<string>, target: nat, overlap: nat, ws: seq<Window>) {
    && Linked(lines, target, overlap, ws)
    && if lines == [] then ws == [] else |ws| > 0 && ws[0].start == 0 && ws[|ws| - 1].end == |lines|
  }

  function Cut(doc: Document, w: Window): Chunk
    requires w.start <= w.end <= |doc.lines|
  {
    Chunk(doc.path, doc.snapshot, w.start + 1, w.end, Text.Join(doc.lines[w.start..w.end], "\n"))
  }

  ghost predicate AreCuts(doc: Document, ws: seq<Window>, chunks: seq<Chunk>) {
    && |ws| == |chunks|
    && forall i :: 0 <= i < |ws| ==> ws[i].start < ws[i].end <= |doc.lines| && chunks[i] == Cut(doc, ws[i])
  }

  ghost predicate IsChunking(doc: Document, c: Config, chunks: seq<Chunk>) {
    exists ws :: IsWindowing(doc.lines, TargetChars(c), OverlapChars(c), ws) && AreCuts(doc, ws, chunks)
  }

  /** The chunks of a corpus are those of its documents, one document after the other. */
  ghost predicate IsCorpusChunking(docs: seq<Document>, c: Config, chunks: seq<Chunk>)
    decreases docs, 1
  {
    if docs == [] then chunks == []
    else exists m :: 0 <= m <= |chunks| && SplitsAt(docs, c, chunks, m)
  }

  ghost predicate SplitsAt(docs: seq<Document>, c: Config, chunks: seq<Chunk>, m: nat)
    requires docs != [] && m <= |chunks|
    decreases docs, 0
  {
    && IsCorpusChunking(docs[..|docs| - 1], c, chunks[..m])
    && IsChunking(docs[|docs| - 1], c, chunks[m..])
  }

  // ----- the algorithm -----

  method WindowEnd(lines: seq<string>, target: nat, start: nat) returns (end: nat)
    requires start < |lines|
    ensures Maximal(lines, target, Window(start, end))
  {
    end := start;
    var charCount := 0;
    while end < |lines|
      invariant start <= end <= |lines| && charCount == Cost(lines, start, end)
      invariant end <= start + 1 || charCount <= target
    {
      var next := Text.Bytes(lines[end]) + 1;
      if end > start && charCount + next > target {
        break;
      }
      charCount := charCount + next;
      end := end + 1;
    }
  }

  method NextStart(lines: seq<string>, overlap: nat, w: Window) returns (next: nat)
    requires w.start < w.end <= |lines|
    ensures Follows(lines, overlap, w, next)
  {
    if w.end == w.start + 1 {
      return w.end;
    }
    var overlapStart := w.end;
    var overlapSize := 0;
    while overlapStart > w.start + 1
      invariant w.start + 1 <= overlapStart <= w.end
      invariant overlapSize == Cost(lines, overlapStart, w.end)
      invariant overlapStart == w.end || overlapSize <= overlap
    {
      var candidate := Text.Bytes(lines[overlapStart - 1]) + 1;
      CostSplits(lines, overlapStart - 1, overlapStart, w.end);
      assert Cost(lines, overlapStart - 1, overlapStart) == candidate;
      if overlapSize + candidate > overlap {
        break;
      }
      overlapSize := overlapSize + candidate;
      overlapStart := overlapStart - 1;
    }
    next := if overlapStart <= w.end - 1 then overlapStart else w.end - 1;
    if overlapStart == w.end && next > w.start + 1 {
      CostSplits(lines, next - 1, next, w.end);
    }
  }

  lemma LinkedGrows(lines: seq<string>, target: nat, overlap: nat, ws: seq<Window>, w: Window)
    requires Linked(lines, target, overlap, ws) && Maximal(lines, target, w)
    requires ws != [] ==> ws[|ws| - 1].start < ws[|ws| - 1].end < |lines|
    requires ws != [] ==> Follows(lines, overlap, ws[|ws| - 1], w.start)
    ensures Linked(lines, target, overlap, ws + [w])
  {
  }

  lemma CutsGrow(doc: Document, ws: seq<Window>, chunks: seq<Chunk>, w: Window)
    requires AreCuts(doc, ws, chunks) && w.start < w.end <= |doc.lines|
    ensures AreCuts(doc, ws + [w], chunks + [Cut(doc, w)])
  {
  }

  method ChunkDocument(doc: Document, c: Config) returns (chunks: seq<Chunk>)
    ensures IsChunking(doc, c, chunks)
  {
    chunks := [];
    ghost var ws: seq<Window> := [];
    var lines, target, overlap := doc.lines, TargetChars(c), OverlapChars(c);
    var start := 0;
    while start < |lines|
      invariant Linked(lines, target, overlap, ws) && AreCuts(doc, ws, chunks)
      invariant ws == [] ==> start == 0
      invariant ws != [] ==> ws[0].start == 0 && start <= ws[|ws| - 1].end < |lines|
      invariant ws != [] ==> Follows(lines, overlap, ws[|ws| - 1], start)
      invariant ws != [] ==> ws[|ws| - 1].start < start
      decreases |lines| - start
    {
      var end := WindowEnd(lines, target, start);
      var w := Window(start, end);
      LinkedGrows(lines, target, overlap, ws, w);
      CutsGrow(doc, ws, chunks, w);
      chunks := chunks + [Cut(doc, w)];
      ws := ws + [w];
      if end >= |lines| {
        assert IsWindowing(lines, target, overlap, ws);
        return;
      }
      start := NextStart(lines, overlap, w);
    }
    assert ws == [];
    assert IsWindowing(lines, target, overlap, ws);
  }

  method ChunkCorpus(docs: seq<Document>, c: Config) returns (chunks: seq<Chunk>)
    ensures IsCorpusChunking(docs, c, chunks)
  {
    chunks := [];
    for i := 0 to |docs|
      invariant IsCorpusChunking(docs[..i], c, chunks)
    {
      var part := ChunkDocument(docs[i], c);
      var upTo := docs[..i + 1];
      assert upTo[..|upTo| - 1] == docs[..i];
      assert (chunks + part)[..|chunks|] == chunks && (chunks + part)[|chunks|..] == part;
      assert SplitsAt(upTo, c, chunks + part, |chunks|);
      chunks := chunks + part;
    }
    assert docs[..|docs|] == docs;
  }

  // ----- coverage -----

  /** A rewound window may add no new line, but it never gives one up. */
  lemma EndsNeverDecrease(lines: seq<string>, target: nat, overlap: nat, ws: seq<Window>, i: nat)
    requires Linked(lines, target, overlap, ws) && i + 1 < |ws|
    ensures ws[i].end <= ws[i + 1].end
  {
    var w, v := ws[i], ws[i + 1];
    assert Maximal(lines, target, w) && Maximal(lines, target, v) && Follows(lines, overlap, w, v.start);
    if v.end < w.end {
      CostSplits(lines, w.start, v.start, w.end);
      CostSplits(lines, v.start, v.end + 1, w.end);
    }
  }

  lemma {:induction false} StartsIncrease(
    lines: seq<string>, target: nat, overlap: nat, ws: seq<Window>, i: nat, j: nat)
    requires Linked(lines, target, overlap, ws) && i <= j < |ws|
    ensures ws[i].start + (j - i) <= ws[j].start < |lines|
    decreases j
  {
    assert Maximal(lines, target, ws[j]);
    if i < j {
      StartsIncrease(lines, target, overlap, ws, i, j - 1);
      assert Maximal(lines, target, ws[j - 1]) && Follows(lines, overlap, ws[j - 1], ws[j - 1 + 1].start);
    }
  }

  lemma ChunkCount(lines: seq<string>, target: nat, overlap: nat, ws: seq<Window>)
    requires IsWindowing(lines, target, overlap, ws)
    ensures |ws| <= |lines|
  {
    if ws != [] {
      StartsIncrease(lines, target, overlap, ws, 0, |ws| - 1);
    }
  }

  lemma {:induction false} NoLineSkippedBefore(
    lines: seq<string>, target: nat, overlap: nat, ws: seq<Window>, n: nat, line: nat)
    requires IsWindowing(lines, target, overlap, ws) && n < |ws| && line < ws[n].end
    ensures exists i :: 0 <= i <= n && ws[i].start <= line < ws[i].end
    decreases n
  {
    if ws[n].start <= line {
      assert ws[n].start <= line < ws[n].end;
    } else {
      assert n > 0;
      assert Maximal(lines, target, ws[n - 1]) && Follows(lines, overlap, ws[n - 1], ws[n - 1 + 1].start);
      NoLineSkippedBefore(lines, target, overlap, ws, n - 1, line);
    }
  }

  /** Every line lies in some window. */
  lemma NoLineSkipped(lines: seq<string>, target: nat, overlap: nat, ws: seq<Window>, line: nat)
    requires IsWindowing(lines, target, overlap, ws) && line < |lines|
    ensures exists i :: 0 <= i < |ws| && ws[i].start <= line < ws[i].end
  {
    NoLineSkippedBefore(lines, target, overlap, ws, |ws| - 1, line);
  }

  // ----- the budgets leave no choice -----

  lemma MaximalUnique(lines: seq<string>, target: nat, v: Window, w: Window)
    requires Maximal(lines, target, v) && Maximal(lines, target, w) && v.start == w.start && v.end <= w.end
    ensures v == w
  {
    if v.end < w.end {
      CostSplits(lines, w.start, v.end + 1, w.end);
    }
  }

  lemma FollowsUnique(lines: seq<string>, overlap: nat, w: Window, a: nat, b: nat)
    requires w.start < w.end <= |lines| && Follows(lines, overlap, w, a) && Follows(lines, overlap, w, b) && a <= b
    ensures a == b
  {
    if a < b {
      CostSplits(lines, a, b - 1, w.end);
    }
  }

  lemma {:induction false} PrefixUnique(
    lines: seq<string>, target: nat, overlap: nat, vs: seq<Window>, ws: seq<Window>, n: nat)
    requires IsWindowing(lines, target, overlap, vs) && IsWindowing(lines, target, overlap, ws)
    requires n < |vs| && n < |ws|
    ensures vs[n] == ws[n]
    decreases n
  {
    assert Maximal(lines, target, vs[n]) && Maximal(lines, target, ws[n]);
    if n > 0 {
      PrefixUnique(lines, target, overlap, vs, ws, n - 1);
      assert Follows(lines, overlap, vs[n - 1], vs[n - 1 + 1].start);
      assert Follows(lines, overlap, ws[n - 1], ws[n - 1 + 1].start);
      if vs[n].start <= ws[n].start {
        FollowsUnique(lines, overlap, vs[n - 1], vs[n].start, ws[n].start);
      } else {
        FollowsUnique(lines, overlap, vs[n - 1], ws[n].start, vs[n].start);
      }
    }
    if vs[n].end <= ws[n].end {
      MaximalUnique(lines, target, vs[n], ws[n]);
    } else {
      MaximalUnique(lines, target, ws[n], vs[n]);
    }
  }

  lemma NoLonger(lines: seq<string>, target: nat, overlap: nat, vs: seq<Window>, ws: seq<Window>)
    requires IsWindowing(lines, target, overlap, vs) && IsWindowing(lines, target, overlap, ws)
    ensures |ws| <= |vs|
  {
    if vs != [] && |vs| <= |ws| {
      PrefixUnique(lines, target, overlap, vs, ws, |vs| - 1);
    }
  }

  /** A document and a configuration have exactly one chunking. */
  lemma WindowingUnique(lines: seq<string>, target: nat, overlap: nat, vs: seq<Window>, ws: seq<Window>)
    requires IsWindowing(lines, target, overlap, vs) && IsWindowing(lines, target, overlap, ws)
    ensures vs == ws
  {
    NoLonger(lines, target, overlap, vs, ws);
    NoLonger(lines, target, overlap, ws, vs);
    forall n | 0 <= n < |vs| ensures vs[n] == ws[n] {
      PrefixUnique(lines, target, overlap, vs, ws, n);
    }
  }

  // ----- budgets, read off the chunks -----

  /** Lines `first` to `last`, numbered from 1, as one text. */
  function TextOf(lines: seq<string>, first: nat, last: nat): string
    requires 1 <= first <= last <= |lines|
  {
    Text.Join(lines[first - 1..last], "\n")
  }

  lemma {:induction false} TextCost(lines: seq<string>, i: nat, j: nat)
    requires i < j <= |lines|
    ensures Text.Bytes(Text.Join(lines[i..j], "\n")) + 1 == Cost(lines, i, j)
    decreases j - i
  {
    var part := lines[i..j];
    CostSplits(lines, i, i + 1, j);
    if j == i + 1 {
      assert part == [lines[i]];
    } else {
      TextCost(lines, i + 1, j);
      assert part[1..] == lines[i + 1..j];
      Text.BytesConcat(lines[i] + "\n", Text.Join(part[1..], "\n"));
      Text.BytesConcat(lines[i], "\n");
    }
  }

  lemma LinesCost(lines: seq<string>, first: nat, last: nat)
    requires 1 <= first <= last <= |lines|
    ensures Text.Bytes(TextOf(lines, first, last)) + 1 == Cost(lines, first - 1, last)
  {
    TextCost(lines, first - 1, last);
  }

  /** The chunk is these lines of the document, under its path and snapshot. */
  ghost predicate IsPart(doc: Document, ch: Chunk) {
    && 1 <= ch.startLine <= ch.endLine <= |doc.lines|
    && ch.text == TextOf(doc.lines, ch.startLine, ch.endLine)
    && ch.path == doc.path && ch.snapshot == doc.snapshot
  }

  /** One line, or its text and a line ending within the budget, which no further line would be. */
  ghost predicate FillsTarget(doc: Document, ch: Chunk, target: nat) {
    && IsPart(doc, ch)
    && (ch.startLine == ch.endLine || Text.Bytes(ch.text) + 1 <= target)
    && (ch.endLine < |doc.lines| ==> Text.Bytes(ch.text) + 1 + Text.Bytes(doc.lines[ch.endLine]) + 1 > target)
  }

  /**
   Lines `first` to `last` are followed by a chunk that starts at `next`. After one line
   nothing is shared. After more the next chunk starts past the first of them and shares
   one line, or as many as the budget takes.
   */
  ghost predicate SharesOverlap(lines: seq<string>, first: nat, last: nat, next: nat, overlap: nat) {
    && 1 <= first <= last <= |lines|
    && if first == last then next == last + 1
       else
         && first < next <= last
         && (next == last || Text.Bytes(TextOf(lines, next, last)) + 1 <= overlap)
         && (next == first + 1 || Text.Bytes(TextOf(lines, next - 1, last)) + 1 > overlap)
  }

  lemma CutIsPart(doc: Document, w: Window)
    requires w.start < w.end <= |doc.lines|
    ensures IsPart(doc, Cut(doc, w)) && Cut(doc, w).startLine == w.start + 1 && Cut(doc, w).endLine == w.end
  {
  }

  lemma CutFills(doc: Document, target: nat, w: Window)
    requires Maximal(doc.lines, target, w)
    ensures FillsTarget(doc, Cut(doc, w), target)
  {
    CutIsPart(doc, w);
    TextCost(doc.lines, w.start, w.end);
  }

  lemma WindowShares(lines: seq<string>, overlap: nat, w: Window, next: nat)
    requires w.start < w.end <= |lines| && Follows(lines, overlap, w, next)
    ensures SharesOverlap(lines, w.start + 1, w.end, next + 1, overlap)
  {
    if w.end > w.start + 1 {
      LinesCost(lines, next + 1, w.end);
      LinesCost(lines, next, w.end);
    }
  }

  /**
   The budgets, from the configuration: four bytes a token, at least one token, at least 32
   bytes for a chunk, both products wrapping around at 2^64.
   */
  ghost predicate Budgets(c: Config, target: nat, overlap: nat) {
    && (c.targetTokens >= 1 ==> target == Max(4 * c.targetTokens % 0x1_0000_0000_0000_0000, 32))
    && (c.targetTokens == 0 ==> target == 32)
    && (c.overlapTokens >= 1 ==> overlap == 4 * c.overlapTokens % 0x1_0000_0000_0000_0000)
    && (c.overlapTokens == 0 ==> overlap == 4)
  }

  lemma BudgetsAre(c: Config, target: nat, overlap: nat)
    requires Budgets(c, target, overlap)
    ensures target == TargetChars(c) && overlap == OverlapChars(c)
  {
  }

  ghost predicate AllFill(doc: Document, chunks: seq<Chunk>, target: nat) {
    forall i :: 0 <= i < |chunks| ==> FillsTarget(doc, chunks[i], target)
  }

  ghost predicate AllShare(doc: Document, chunks: seq<Chunk>, overlap: nat) {
    forall i :: 0 <= i < |chunks| - 1 ==> SharesNext(doc, chunks, i, overlap)
  }

  ghost predicate SharesNext(doc: Document, chunks: seq<Chunk>, i: nat, overlap: nat)
    requires i + 1 < |chunks|
  {
    SharesOverlap(doc.lines, chunks[i].startLine, chunks[i].endLine, chunks[i + 1].startLine, overlap)
  }

  ghost predicate CoverAll(doc: Document, chunks: seq<Chunk>) {
    if doc.lines == [] then chunks == []
    else |chunks| > 0 && chunks[0].startLine == 1 && chunks[|chunks| - 1].endLine == |doc.lines|
  }

  /** Every chunk fills the target budget and shares the overlap budget with the next; together they cover all. */
  ghost predicate MeetsBudgets(doc: Document, chunks: seq<Chunk>, target: nat, overlap: nat) {
    AllFill(doc, chunks, target) && AllShare(doc, chunks, overlap) && CoverAll(doc, chunks)
  }

  lemma CutsFill(doc: Document, target: nat, overlap: nat, ws: seq<Window>, chunks: seq<Chunk>)
    requires IsWindowing(doc.lines, target, overlap, ws) && AreCuts(doc, ws, chunks)
    ensures AllFill(doc, chunks, target)
  {
    forall i | 0 <= i < |chunks| ensures FillsTarget(doc, chunks[i], target) {
      CutFills(doc, target, ws[i]);
    }
  }

  lemma CutsShare(doc: Document, target: nat, overlap: nat, ws: seq<Window>, chunks: seq<Chunk>, i: nat)
    requires IsWindowing(doc.lines, target, overlap, ws) && AreCuts(doc, ws, chunks) && i + 1 < |chunks|
    ensures SharesNext(doc, chunks, i, overlap)
  {
    CutIsPart(doc, ws[i]);
    CutIsPart(doc, ws[i + 1]);
    WindowShares(doc.lines, overlap, ws[i], ws[i + 1].start);
  }

  lemma CutBudgets(doc: Document, target: nat, overlap: nat, ws: seq<Window>, chunks: seq<Chunk>)
    requires IsWindowing(doc.lines, target, overlap, ws) && AreCuts(doc, ws, chunks)
    ensures MeetsBudgets(doc, chunks, target, overlap)
  {
    CutsFill(doc, target, overlap, ws, chunks);
    forall i | 0 <= i < |chunks| - 1 ensures SharesNext(doc, chunks, i, overlap) {
      CutsShare(doc, target, overlap, ws, chunks, i);
    }
    if ws != [] {
      CutIsPart(doc, ws[0]);
      CutIsPart(doc, ws[|ws| - 1]);
    }
  }

  /** The chunks of a document meet the budgets of the configuration. */
  lemma ChunkBudgets(doc: Document, c: Config, chunks: seq<Chunk>, target: nat, overlap: nat)
    requires IsChunking(doc, c, chunks) && Budgets(c, target, overlap)
    ensures MeetsBudgets(doc, chunks, target, overlap)
  {
    BudgetsAre(c, target, overlap);
    var ws :| IsWindowing(doc.lines, TargetChars(c), OverlapChars(c), ws) && AreCuts(doc, ws, chunks);
    CutBudgets(doc, target, overlap, ws, chunks);
  }

  // ----- the round trip -----

  /** Rebuilds a document from chunk texts and start lines: split each text, drop what is already there. */
  function Rebuild(chunks: seq<Chunk>): seq<string> {
    if chunks == [] then []
    else
      var known := Rebuild(chunks[..|chunks| - 1]);
      var last := chunks[|chunks| - 1];
      var lines := Text.Split(last.text, '\n');
      var shared := |known| + 1 - last.startLine;
      if 0 <= shared <= |lines| then known + lines[shared..] else known
  }

  lemma CutSplits(doc: Document, w: Window)
    requires NewlineFree(doc.lines) && w.start < w.end <= |doc.lines|
    ensures Text.Split(Cut(doc, w).text, '\n') == doc.lines[w.start..w.end]
  {
    var part := doc.lines[w.start..w.end];
    assert forall i :: 0 <= i < |part| ==> part[i] == doc.lines[w.start + i];
    Text.SplitJoin(part, '\n');
  }

  lemma Resumed<T>(s: seq<T>, i: nat, j: nat, k: nat)
    requires i <= j <= k <= |s|
    ensures s[..j] + s[i..k][j - i..] == s[..k]
  {
  }

  lemma {:induction false} RebuildStep(doc: Document, w: Window, chunks: seq<Chunk>, before: nat)
    requires NewlineFree(doc.lines) && w.start <= before <= w.end <= |doc.lines| && w.start < w.end
    requires chunks != [] && chunks[|chunks| - 1] == Cut(doc, w)
    requires Rebuild(chunks[..|chunks| - 1]) == doc.lines[..before]
    ensures Rebuild(chunks) == doc.lines[..w.end]
  {
    CutSplits(doc, w);
    Resumed(doc.lines, w.start, before, w.end);
  }

  lemma Resumes(lines: seq<string>, target: nat, overlap: nat, ws: seq<Window>, n: nat)
    requires IsWindowing(lines, target, overlap, ws) && n + 1 < |ws|
    ensures ws[n + 1].start <= ws[n].end <= ws[n + 1].end
  {
    EndsNeverDecrease(lines, target, overlap, ws, n);
    assert Follows(lines, overlap, ws[n], ws[n + 1].start);
  }

  lemma RebuildNext(doc: Document, ws: seq<Window>, chunks: seq<Chunk>, n: nat, before: nat)
    requires NewlineFree(doc.lines) && AreCuts(doc, ws, chunks) && n < |ws|
    requires ws[n].start <= before <= ws[n].end && Rebuild(chunks[..n]) == doc.lines[..before]
    ensures Rebuild(chunks[..n + 1]) == doc.lines[..ws[n].end]
  {
    var upTo := chunks[..n + 1];
    assert upTo[..|upTo| - 1] == chunks[..n] && upTo[|upTo| - 1] == chunks[n];
    RebuildStep(doc, ws[n], upTo, before);
  }

  lemma {:induction false} RebuildPrefix(
    doc: Document, target: nat, overlap: nat, ws: seq<Window>, chunks: seq<Chunk>, n: nat)
    requires NewlineFree(doc.lines) && IsWindowing(doc.lines, target, overlap, ws)
    requires AreCuts(doc, ws, chunks) && n < |ws|
    ensures Rebuild(chunks[..n + 1]) == doc.lines[..ws[n].end]
    decreases n
  {
    if n == 0 {
      assert chunks[..0] == [] && doc.lines[..0] == [];
      RebuildNext(doc, ws, chunks, 0, 0);
    } else {
      RebuildPrefix(doc, target, overlap, ws, chunks, n - 1);
      Resumes(doc.lines, target, overlap, ws, n - 1);
      RebuildNext(doc, ws, chunks, n, ws[n - 1].end);
    }
  }

  lemma RebuildAll(doc: Document, target: nat, overlap: nat, ws: seq<Window>, chunks: seq<Chunk>)
    requires NewlineFree(doc.lines) && IsWindowing(doc.lines, target, overlap, ws) && AreCuts(doc, ws, chunks)
    ensures Rebuild(chunks) == doc.lines
  {
    if ws != [] {
      RebuildPrefix(doc, target, overlap, ws, chunks, |ws| - 1);
      assert chunks[..|ws|] == chunks;
      assert doc.lines[..|doc.lines|] == doc.lines;
    }
  }

  /** The text and the start line of the chunks hold the whole document. */
  lemma RoundTrip(doc: Document, c: Config, chunks: seq<Chunk>)
    requires NewlineFree(doc.lines) && IsChunking(doc, c, chunks)
    ensures Rebuild(chunks) == doc.lines
  {
    var ws :| IsWindowing(doc.lines, TargetChars(c), OverlapChars(c), ws) && AreCuts(doc, ws, chunks);
    RebuildAll(doc, TargetChars(c), OverlapChars(c), ws, chunks);
  }

  function OfPath(chunks: seq<Chunk>, path: string): seq<Chunk> {
    if chunks == [] then []
    else
      var front := OfPath(chunks[..|chunks| - 1], path);
      if chunks[|chunks| - 1].path == path then front + [chunks[|chunks| - 1]] else front
  }

  lemma {:induction false} OfPathSplits(a: seq<Chunk>, b: seq<Chunk>, path: string)
    ensures OfPath(a + b, path) == OfPath(a, path) + OfPath(b, path)
  {
    if b == [] {
      assert a + b == a;
    } else {
      var n := |b| - 1;
      OfPathSplits(a, b[..n], path);
      assert (a + b)[..|a + b| - 1] == a + b[..n];
    }
  }

  lemma {:induction false} OfPathUniform(chunks: seq<Chunk>, path: string, own: string)
    requires forall i :: 0 <= i < |chunks| ==> chunks[i].path == own
    ensures OfPath(chunks, path) == if path == own then chunks else []
  {
    if chunks != [] {
      OfPathUniform(chunks[..|chunks| - 1], path, own);
      assert chunks[..|chunks| - 1] + [chunks[|chunks| - 1]] == chunks;
    }
  }

  lemma ChunkingPath(doc: Document, c: Config, chunks: seq<Chunk>)
    requires IsChunking(doc, c, chunks)
    ensures forall i :: 0 <= i < |chunks| ==> chunks[i].path == doc.path
  {
    var ws :| IsWindowing(doc.lines, TargetChars(c), OverlapChars(c), ws) && AreCuts(doc, ws, chunks);
  }

  ghost predicate DistinctPaths(docs: seq<Document>) {
    forall i, j :: 0 <= i < j < |docs| ==> docs[i].path != docs[j].path
  }

  lemma SplitOfPath(chunks: seq<Chunk>, m: nat, path: string, own: string)
    requires m <= |chunks| && forall i :: m <= i < |chunks| ==> chunks[i].path == own
    ensures OfPath(chunks, path) == OfPath(chunks[..m], path) + if path == own then chunks[m..] else []
  {
    OfPathUniform(chunks[m..], path, own);
    OfPathSplits(chunks[..m], chunks[m..], path);
    assert chunks[..m] + chunks[m..] == chunks;
  }

  lemma {:induction false} NoDocumentNoChunk(docs: seq<Document>, c: Config, chunks: seq<Chunk>, path: string)
    requires IsCorpusChunking(docs, c, chunks)
    requires forall i :: 0 <= i < |docs| ==> docs[i].path != path
    ensures OfPath(chunks, path) == []
  {
    if docs != [] {
      var n := |docs| - 1;
      var m :| 0 <= m <= |chunks| && SplitsAt(docs, c, chunks, m);
      NoDocumentNoChunk(docs[..n], c, chunks[..m], path);
      ChunkingPath(docs[n], c, chunks[m..]);
      SplitOfPath(chunks, m, path, docs[n].path);
    }
  }

  lemma SplitPart(docs: seq<Document>, c: Config, chunks: seq<Chunk>, m: nat, k: nat)
    requires DistinctPaths(docs) && k < |docs| && m <= |chunks| && SplitsAt(docs, c, chunks, m)
    ensures OfPath(chunks, docs[k].path) == if k < |docs| - 1 then OfPath(chunks[..m], docs[k].path) else chunks[m..]
  {
    var n := |docs| - 1;
    ChunkingPath(docs[n], c, chunks[m..]);
    forall i | m <= i < |chunks| ensures chunks[i].path == docs[n].path {
      assert chunks[i] == chunks[m..][i - m];
    }
    SplitOfPath(chunks, m, docs[k].path, docs[n].path);
    if k == n {
      NoDocumentNoChunk(docs[..n], c, chunks[..m], docs[k].path);
    }
  }

  lemma {:induction false} CorpusPart(docs: seq<Document>, c: Config, chunks: seq<Chunk>, k: nat)
    requires IsCorpusChunking(docs, c, chunks) && DistinctPaths(docs) && k < |docs|
    ensures IsChunking(docs[k], c, OfPath(chunks, docs[k].path))
    decreases |docs|, 1
  {
    var n := |docs| - 1;
    var m :| 0 <= m <= |chunks| && SplitsAt(docs, c, chunks, m);
    if k < n {
      CorpusFront(docs, c, chunks, m, k);
    } else {
      CorpusLast(docs, c, chunks, m);
    }
  }

  lemma CorpusLast(docs: seq<Document>, c: Config, chunks: seq<Chunk>, m: nat)
    requires DistinctPaths(docs) && docs != [] && m <= |chunks| && SplitsAt(docs, c, chunks, m)
    ensures IsChunking(docs[|docs| - 1], c, OfPath(chunks, docs[|docs| - 1].path))
  {
    SplitPart(docs, c, chunks, m, |docs| - 1);
  }

  lemma {:induction false} CorpusFront(docs: seq<Document>, c: Config, chunks: seq<Chunk>, m: nat, k: nat)
    requires DistinctPaths(docs) && k + 1 < |docs| && m <= |chunks| && SplitsAt(docs, c, chunks, m)
    ensures IsChunking(docs[k], c, OfPath(chunks, docs[k].path))
    decreases |docs|, 0
  {
    var front := docs[..|docs| - 1];
    assert front[k] == docs[k];
    SplitPart(docs, c, chunks, m, k);
    CorpusPart(front, c, chunks[..m], k);
  }

  /** Every document of a corpus can be rebuilt from the chunks that carry its path. */
  lemma CorpusRoundTrip(docs: seq<Document>, texts: seq<string>, c: Config, chunks: seq<Chunk>, i: nat)
    requires IsCorpusChunking(docs, c, chunks) && i < |docs| == |texts|
    requires DistinctPaths(docs)
    requires docs[i].lines == Text.Lines(texts[i])
    ensures Rebuild(OfPath(chunks, docs[i].path)) == Text.Lines(texts[i])
  {
    CorpusPart(docs, c, chunks, i);
    RoundTrip(docs[i], c, OfPath(chunks, docs[i].path));
  }

  /** And so do, document by document, those of a corpus. */
  lemma CorpusBudgets(docs: seq<Document>, c: Config, chunks: seq<Chunk>, i: nat, target: nat, overlap: nat)
    requires IsCorpusChunking(docs, c, chunks) && DistinctPaths(docs) && i < |docs| && Budgets(c, target, overlap)
    ensures MeetsBudgets(docs[i], OfPath(chunks, docs[i].path), target, overlap)
  {
    CorpusPart(docs, c, chunks, i);
    ChunkBudgets(docs[i], c, OfPath(chunks, docs[i].path), target, overlap);
  }
}
