/** What stands where in a table or a note box. */
module GridContents {
  import opened Prelude
  import opened GridTable
  import Text

  // ----- words -----

  ghost predicate RunAt(s: string, a: nat, word: string) {
    IsWord(word) && a + |word| <= |s| && s[a..a + |word|] == word
  }

  ghost predicate Covered(at: seq<nat>, words: seq<string>, p: nat)
    requires |at| == |words|
  {
    exists i :: 0 <= i < |at| && at[i] <= p < at[i] + |words[i]|
  }

  ghost predicate AllRuns(s: string, at: seq<nat>, words: seq<string>) {
    |at| == |words| && forall i :: 0 <= i < |at| ==> RunAt(s, at[i], words[i])
  }

  ghost predicate Apart(at: seq<nat>, words: seq<string>) {
    |at| == |words| && forall i, j :: 0 <= i < j < |at| && j == i + 1 ==> at[i] + |words[i]| < at[j]
  }

  ghost predicate AllCovered(s: string, at: seq<nat>, words: seq<string>) {
    |at| == |words| && forall p :: 0 <= p < |s| && !Text.IsWhitespace(s[p]) ==> Covered(at, words, p)
  }

  /** `words` are the runs of characters that are not whitespace: apart, in order, and all of them. */
  ghost predicate Runs(s: string, at: seq<nat>, words: seq<string>) {
    AllRuns(s, at, words) && Apart(at, words) && AllCovered(s, at, words)
  }

  function Moved(at: seq<nat>, d: nat): (r: seq<nat>)
    ensures |r| == |at| && forall i :: 0 <= i < |at| ==> r[i] == at[i] + d
  {
    seq(|at|, i requires 0 <= i < |at| => at[i] + d)
  }

  lemma RunMoved(s: string, d: nat, a: nat, word: string)
    requires d <= |s| && RunAt(s[d..], a, word)
    ensures RunAt(s, a + d, word)
  {
    assert s[d..][a..a + |word|] == s[a + d..a + d + |word|];
  }

  lemma OneMoreCovers(s: string, k: nat, n: nat, at: seq<nat>, words: seq<string>, p: nat)
    requires k + n <= |s| && |at| == |words| && k <= p < |s|
    requires p < k + n || Covered(at, words, p - k - n)
    ensures Covered([k] + Moved(at, k + n), [s[k..k + n]] + words, p)
  {
    var at', words' := [k] + Moved(at, k + n), [s[k..k + n]] + words;
    if p < k + n {
      assert at'[0] <= p < at'[0] + |words'[0]|;
    } else {
      var i :| 0 <= i < |at| && at[i] <= p - k - n < at[i] + |words[i]|;
      assert at'[i + 1] <= p < at'[i + 1] + |words'[i + 1]|;
    }
  }

  lemma OneMoreRun(s: string, k: nat, n: nat, at: seq<nat>, words: seq<string>)
    requires k + n <= |s| && IsWord(s[k..k + n]) && AllRuns(s[k + n..], at, words)
    ensures AllRuns(s, [k] + Moved(at, k + n), [s[k..k + n]] + words)
  {
    var at', words' := [k] + Moved(at, k + n), [s[k..k + n]] + words;
    forall i | 0 <= i < |at'| ensures RunAt(s, at'[i], words'[i]) {
      if i > 0 {
        assert RunAt(s[k + n..], at[i - 1], words[i - 1]);
        RunMoved(s, k + n, at[i - 1], words[i - 1]);
      }
    }
  }

  lemma RunsLater(rest: string, a: nat, word: string)
    requires RunAt(rest, a, word) && Text.IsWhitespace(rest[0])
    ensures a > 0
  {
    assert rest[a] == word[0];
  }

  lemma OneMoreApart(s: string, k: nat, n: nat, at: seq<nat>, words: seq<string>)
    requires k + n <= |s| && (k + n == |s| || Text.IsWhitespace(s[k + n]))
    requires AllRuns(s[k + n..], at, words) && Apart(at, words)
    ensures Apart([k] + Moved(at, k + n), [s[k..k + n]] + words)
  {
    if at != [] {
      assert RunAt(s[k + n..], at[0], words[0]);
      RunsLater(s[k + n..], at[0], words[0]);
    }
  }

  lemma OneMoreCovered(s: string, k: nat, n: nat, at: seq<nat>, words: seq<string>)
    requires k + n <= |s| && AllCovered(s[k + n..], at, words)
    requires forall i :: 0 <= i < k ==> Text.IsWhitespace(s[i])
    ensures AllCovered(s, [k] + Moved(at, k + n), [s[k..k + n]] + words)
  {
    forall p | 0 <= p < |s| && !Text.IsWhitespace(s[p])
      ensures Covered([k] + Moved(at, k + n), [s[k..k + n]] + words, p)
    {
      if p >= k + n {
        assert s[k + n..][p - k - n] == s[p];
      }
      OneMoreCovers(s, k, n, at, words, p);
    }
  }

  lemma OneMore(s: string, k: nat, n: nat, at: seq<nat>, words: seq<string>)
    requires k + n <= |s| && IsWord(s[k..k + n]) && (k + n == |s| || Text.IsWhitespace(s[k + n]))
    requires forall i :: 0 <= i < k ==> Text.IsWhitespace(s[i])
    requires Runs(s[k + n..], at, words)
    ensures Runs(s, [k] + Moved(at, k + n), [s[k..k + n]] + words)
  {
    OneMoreRun(s, k, n, at, words);
    OneMoreApart(s, k, n, at, words);
    OneMoreCovered(s, k, n, at, words);
  }

  ghost predicate HasRuns(s: string, words: seq<string>) {
    exists at :: Runs(s, at, words)
  }

  lemma OneMoreHas(s: string, k: nat, n: nat, words: seq<string>)
    requires k + n <= |s| && IsWord(s[k..k + n]) && (k + n == |s| || Text.IsWhitespace(s[k + n]))
    requires forall i :: 0 <= i < k ==> Text.IsWhitespace(s[i])
    requires HasRuns(s[k + n..], words)
    ensures HasRuns(s, [s[k..k + n]] + words)
  {
    var at :| Runs(s[k + n..], at, words);
    OneMore(s, k, n, at, words);
  }

  lemma FirstRun(s: string, k: nat, t: string, n: nat)
    requires k <= |s| && t == s[k..] && t != "" && !Text.IsWhitespace(t[0]) && n == |FirstWord(t)|
    ensures k + n <= |s| && t[n..] == s[k + n..] && FirstWord(t) == s[k..k + n]
    ensures k + n == |s| || Text.IsWhitespace(s[k + n])
  {
    assert FirstWord(t) == t[..n];
  }

  /** Splitting at whitespace finds the runs. */
  lemma {:induction false} WordsAreRuns(s: string)
    ensures HasRuns(s, Words(s))
    decreases |s|
  {
    var t := Text.TrimStart(s);
    if t == "" {
      assert Runs(s, [], Words(s));
    } else {
      var k, n := |s| - |t|, |FirstWord(t)|;
      FirstRun(s, k, t, n);
      WordsAreRuns(t[n..]);
      OneMoreHas(s, k, n, Words(t[n..]));
    }
  }

  ghost predicate IsCompact(s: string, shown: string) {
    exists words :: HasRuns(s, words) && shown == Text.Join(words, " ")
  }

  lemma JoinNotEmpty(words: seq<string>)
    requires AllWords(words)
    ensures Text.Join(words, " ") == "" <==> words == []
  {
    if words != [] {
      assert IsWord(words[0]);
    }
  }

  /** A cell shows its words with one space between each two, and a dash if it has none. */
  lemma SanitizeMeans(cell: string)
    ensures Text.Blank(cell) ==> Sanitize(cell) == "-"
    ensures !Text.Blank(cell) ==> IsCompact(cell, Sanitize(cell))
  {
    WordsAreRuns(cell);
    WordsAreWords(cell);
    JoinNotEmpty(Words(cell));
    var t := Text.TrimStart(cell);
    if t == "" {
      assert Words(cell) == [] && Text.Blank(cell);
    } else {
      assert !Text.IsWhitespace(cell[|cell| - |t|]);
      assert Words(cell) != [];
    }
  }

  /** A cell that is too long keeps its beginning and ends in an ellipsis, at exactly the cap. */
  lemma TruncatedMeans(cell: string, cap: nat)
    ensures |cell| <= cap ==> Truncated(cell, cap) == cell
    ensures |cell| > cap == 0 ==> Truncated(cell, cap) == ['\U{2026}']
    ensures |cell| > cap > 0 ==> |Truncated(cell, cap)| == cap && Truncated(cell, cap)[cap - 1] == '\U{2026}'
                                 && Truncated(cell, cap)[..cap - 1] == cell[..cap - 1]
  {
  }

  // ----- column widths -----

  ghost function CutLength(cell: string, cap: nat): nat {
    |Truncated(Sanitize(cell), cap)|
  }

  /** The cells of column `i`, from the first row to the last. */
  ghost predicate IsColumn(rows: seq<Row>, i: nat, cells: seq<string>) {
    |cells| == |rows| && forall n :: 0 <= n < |rows| ==> i < |rows[n]| && cells[n] == rows[n][i]
  }

  lemma ColumnIs(rows: seq<Row>, i: nat, cells: seq<string>)
    requires IsColumn(rows, i, cells)
    ensures Column(rows, i) == cells
  {
  }

  lemma WidthIs(t: Table, i: nat, cells: seq<string>)
    requires WellShaped(t) && i < |t.headers| && IsColumn(t.rows, i, cells)
    ensures TableWidths(t)[i] == Widest(CutWidths(cells, Max(t.maxWidths[i], |t.headers[i]|)), |t.headers[i]|)
  {
    ColumnIs(t.rows, i, cells);
  }

  /** `w` is the least width that holds the header and every cell, cut to the cap. */
  ghost predicate IsWidth(w: nat, header: string, cells: seq<string>, cap: nat) {
    && |header| <= w && (forall n :: 0 <= n < |cells| ==> CutLength(cells[n], cap) <= w)
    && (w == |header| || exists n :: 0 <= n < |cells| && w == CutLength(cells[n], cap))
  }

  lemma WidestIsWidth(header: string, cells: seq<string>, cap: nat)
    ensures IsWidth(Widest(CutWidths(cells, cap), |header|), header, cells, cap)
  {
    var measured := CutWidths(cells, cap);
    var w := Widest(measured, |header|);
    forall n | 0 <= n < |cells| ensures CutLength(cells[n], cap) <= w {
      assert measured[n] <= w;
    }
    if w in measured {
      var n :| 0 <= n < |measured| && measured[n] == w;
      assert w == CutLength(cells[n], cap);
    }
  }

  /** A column is as wide as its header or its longest cell, cut to the cap of the column or its header. */
  lemma ColumnWidth(t: Table, i: nat, cells: seq<string>, cap: nat)
    requires WellShaped(t) && i < |t.headers| && IsColumn(t.rows, i, cells)
    requires t.maxWidths[i] <= cap && |t.headers[i]| <= cap && (cap == t.maxWidths[i] || cap == |t.headers[i]|)
    ensures IsWidth(TableWidths(t)[i], t.headers[i], cells, cap)
  {
    WidthIs(t, i, cells);
    WidestIsWidth(t.headers[i], cells, cap);
  }

  // ----- characters of a line -----

  /** Where the edge before column `i` stands. */
  ghost function Edge(widths: seq<nat>, i: nat): nat
    requires i <= |widths|
  {
    Sum(widths[..i]) + 3 * i
  }

  lemma NextEdge(widths: seq<nat>, i: nat)
    requires i < |widths|
    ensures Edge(widths, 0) == 0 && Edge(widths, i + 1) == Edge(widths, i) + widths[i] + 3
  {
    assert widths[..i + 1][..i] == widths[..i];
  }

  /** One column of a border: a rule, and after it the joint or the end. */
  ghost predicate RuledColumn(text: string, from: nat, to: nat, after: char) {
    from < to < |text| && text[to] == after && forall p :: from < p < to ==> text[p] == '\U{2500}'
  }

  lemma {:induction false} BorderColumn(left: char, middle: char, right: char, widths: seq<nat>, n: nat, i: nat)
    requires i < n <= |widths| && middle != '\n' && right != '\n'
    ensures RuledColumn([left] + BorderUpTo(middle, right, widths, n), Edge(widths, i), Edge(widths, i + 1),
                        if i + 1 == |widths| then right else middle)
    decreases n
  {
    BorderUpToWidth(middle, right, widths, n - 1);
    BorderUpToWidth(middle, right, widths, n);
    var before := [left] + BorderUpTo(middle, right, widths, n - 1);
    NextEdge(widths, n - 1);
    if i < n - 1 {
      BorderColumn(left, middle, right, widths, n - 1, i);
      StaysRuled(before, [left] + BorderUpTo(middle, right, widths, n), Edge(widths, i), Edge(widths, i + 1),
                 if i + 1 == |widths| then right else middle);
    }
  }

  lemma StaysRuled(before: string, text: string, from: nat, to: nat, after: char)
    requires RuledColumn(before, from, to, after) && before <= text
    ensures RuledColumn(text, from, to, after)
  {
    forall p | from < p < to ensures text[p] == '\U{2500}' { assert text[p] == before[p]; }
  }

  /** A border starts with its left corner; over each column runs a rule that ends in a joint or the right corner. */
  lemma BorderMeans(left: char, middle: char, right: char, widths: seq<nat>, i: nat)
    requires i < |widths| && middle != '\n' && right != '\n'
    ensures var text := Render(GridEdge(left, middle, right, widths));
            && text != "" && text[0] == left
            && RuledColumn(text, Edge(widths, i), Edge(widths, i + 1), if i + 1 == |widths| then right else middle)
  {
    BorderColumn(left, middle, right, widths, |widths|, i);
  }

  /** One column of a row: a space, the cell, spaces up to its width and one more, and the bar. */
  ghost predicate CellAt(text: string, from: nat, width: nat, cell: string) {
    && |cell| <= width && from + width + 3 < |text|
    && text[from] == '\U{2502}' && text[from + 1] == ' '
    && text[from + 2..from + 2 + |cell|] == cell
    && (forall p :: from + 2 + |cell| <= p < from + width + 3 ==> text[p] == ' ')
    && text[from + width + 3] == '\U{2502}'
  }

  lemma PaddedAt(before: string, cell: string, width: nat, after: string)
    requires before != "" && before[|before| - 1] == '\U{2502}' && |cell| <= width
    ensures CellAt(before + Padded(cell, width) + after, |before| - 1, width, cell)
  {
    var text, from := before + Padded(cell, width) + after, |before| - 1;
    assert |Padded(cell, width)| == width + 3;
    assert text[|before|..|before| + width + 3] == Padded(cell, width);
    assert text[from + 2..from + 2 + |cell|] == cell;
    forall p | from + 2 + |cell| <= p < from + width + 3 ensures text[p] == ' ' {
      assert text[p] == Padded(cell, width)[p - |before|];
    }
    assert text[from + width + 3] == Padded(cell, width)[width + 2];
  }

  lemma CellStays(before: string, after: string, from: nat, width: nat, cell: string)
    requires CellAt(before, from, width, cell)
    ensures CellAt(before + after, from, width, cell)
  {
    var text := before + after;
    assert text[from + 2..from + 2 + |cell|] == before[from + 2..from + 2 + |cell|];
    forall p | from + 2 + |cell| <= p < from + width + 3 ensures text[p] == ' ' { assert text[p] == before[p]; }
  }

  ghost predicate CellsFit(widths: seq<nat>, cells: seq<string>) {
    |cells| == |widths| && forall i :: 0 <= i < |cells| ==> CellFits(cells[i], widths[i])
  }

  lemma LastCell(widths: seq<nat>, cells: seq<string>, i: nat, after: string)
    requires CellsFit(widths, cells) && i < |widths|
    ensures CellAt([VERTICAL] + RowUpTo(widths, cells, i) + Padded(cells[i], widths[i]) + after,
                   Edge(widths, i), widths[i], cells[i])
  {
    RowUpToWidth(widths, cells, i);
    RowEndsInBar(widths, cells, i);
    assert CellFits(cells[i], widths[i]);
    PaddedAt([VERTICAL] + RowUpTo(widths, cells, i), cells[i], widths[i], after);
  }

  lemma {:induction false} RowColumn(widths: seq<nat>, cells: seq<string>, n: nat, i: nat)
    requires CellsFit(widths, cells) && i < n <= |widths|
    ensures CellAt([VERTICAL] + RowUpTo(widths, cells, n), Edge(widths, i), widths[i], cells[i])
    decreases n
  {
    var before := [VERTICAL] + RowUpTo(widths, cells, n - 1);
    var padded := Padded(cells[n - 1], widths[n - 1]);
    var ending := if n == |cells| then "\n" else "";
    assert [VERTICAL] + RowUpTo(widths, cells, n) == before + padded + ending;
    if i < n - 1 {
      RowColumn(widths, cells, n - 1, i);
      CellStays(before, padded, Edge(widths, i), widths[i], cells[i]);
      CellStays(before + padded, ending, Edge(widths, i), widths[i], cells[i]);
    } else {
      LastCell(widths, cells, i, ending);
    }
  }

  lemma RowEndsInBar(widths: seq<nat>, cells: seq<string>, n: nat)
    requires CellsFit(widths, cells) && n < |widths|
    ensures var before := [VERTICAL] + RowUpTo(widths, cells, n);
            before[|before| - 1] == VERTICAL
  {
  }

  /** Cell `i` of a row stands between the edges of column `i`. */
  lemma RowMeans(widths: seq<nat>, cells: seq<string>, i: nat)
    requires CellsFit(widths, cells) && i < |widths|
    ensures CellAt(Render(GridRow(widths, cells)), Edge(widths, i), widths[i], cells[i])
  {
    RowColumn(widths, cells, |widths|, i);
  }

  /** Lines across the whole width. */
  lemma SpanMeans(value: string, left: char, right: char, width: nat)
    requires |value| <= width
    ensures CellAt(Render(SpanText(value, width)), 0, width, value)
    ensures RuledColumn(Render(SpanEdge(left, right, width)), 0, width + 3, right)
    ensures Render(SpanEdge(left, right, width))[0] == left
  {
    var text := Render(SpanText(value, width));
    assert text == [VERTICAL] + Padded(value, width) + "\n";
    PaddedAt([VERTICAL], value, width, "\n");
  }

  // ----- lines of a table -----

  /** From line `at` on: the footer's title, a rule if lines follow it, the lines, and the bottom edge. */
  ghost predicate FooterAt(lines: seq<Line>, at: nat, title: Option<string>, texts: seq<string>, span: nat) {
    var first := at + (if title.None? then 1 else if texts == [] then 2 else 3);
    && |lines| == first + |texts| + 1
    && lines[at] == SpanEdge('\U{251C}', '\U{2524}', span)
    && (title.Some? ==> lines[at + 1] == SpanText(title.value, span))
    && (title.Some? && texts != [] ==> lines[at + 2] == SpanEdge('\U{251C}', '\U{2524}', span))
    && (forall i :: 0 <= i < |texts| ==> lines[first + i] == SpanText(texts[i], span))
    && lines[first + |texts|] == SpanEdge('\U{2514}', '\U{2518}', span)
  }

  lemma TextsBetween(above: seq<Line>, values: seq<string>, span: nat, below: Line)
    ensures var lines := above + SpanTexts(values, span) + [below];
            && |lines| == |above| + |values| + 1 && lines[|above| + |values|] == below
            && (forall i :: 0 <= i < |values| ==> lines[|above| + i] == SpanText(values[i], span))
  {
  }

  ghost function FooterTop(title: Option<string>, texts: seq<string>, span: nat): seq<Line> {
    var rule := SpanEdge(TEE_LEFT, TEE_RIGHT, span);
    if title.None? then [rule]
    else if texts == [] then [rule, SpanText(title.value, span)]
    else [rule, SpanText(title.value, span), rule]
  }

  lemma FooterIs(title: Option<string>, texts: seq<string>, span: nat)
    ensures Footer(title, texts, span)
            == FooterTop(title, texts, span) + SpanTexts(texts, span) + [SpanEdge(BOTTOM_LEFT, BOTTOM_RIGHT, span)]
  {
    var rule := SpanEdge(TEE_LEFT, TEE_RIGHT, span);
    var shown := SpanTexts(TitleValues(title), span);
    var gap := if title.Some? && texts != [] then [rule] else [];
    if title.Some? {
      assert shown == [SpanText(title.value, span)];
    }
    assert [rule] + shown + gap == FooterTop(title, texts, span);
  }

  lemma FooterMeans(title: Option<string>, texts: seq<string>, span: nat)
    ensures FooterAt(Footer(title, texts, span), 0, title, texts, span)
  {
    FooterIs(title, texts, span);
    TextsBetween(FooterTop(title, texts, span), texts, span, SpanEdge(BOTTOM_LEFT, BOTTOM_RIGHT, span));
  }

  lemma FooterBelow(above: seq<Line>, title: Option<string>, texts: seq<string>, span: nat)
    ensures FooterAt(above + Footer(title, texts, span), |above|, title, texts, span)
  {
    FooterMeans(title, texts, span);
    var footer := Footer(title, texts, span);
    forall i | 0 <= i < |footer| ensures (above + footer)[|above| + i] == footer[i] { }
  }

  ghost predicate StartsTable(t: Table, lines: seq<Line>, widths: seq<nat>, span: nat) {
    && |lines| >= 5
    && lines[0] == SpanEdge('\U{250C}', '\U{2510}', span) && lines[1] == SpanText(t.title, span)
    && lines[2] == GridEdge('\U{251C}', '\U{252C}', '\U{2524}', widths) && lines[3] == GridRow(widths, t.headers)
    && lines[4] == GridEdge('\U{251C}', '\U{253C}', '\U{2524}', widths)
  }

  ghost predicate EndsTable(t: Table, lines: seq<Line>, widths: seq<nat>, span: nat) {
    if t.footerTitle.None? && t.footerLines == []
    then |lines| == |t.rows| + 6
         && lines[|t.rows| + 5] == GridEdge('\U{2514}', '\U{2534}', '\U{2518}', widths)
    else FooterAt(lines, |t.rows| + 5, t.footerTitle, t.footerLines, span)
  }

  /** The title, the headers, the rows in order, then the footer or the bottom edge. */
  ghost predicate IsTable(t: Table, lines: seq<Line>, widths: seq<nat>, span: nat)
    requires WellShaped(t) && |widths| == |t.headers|
  {
    && |lines| > 5 + |t.rows|
    && StartsTable(t, lines, widths, span)
    && (forall i :: 0 <= i < |t.rows| ==> ShowsRow(t, lines, i, widths))
    && EndsTable(t, lines, widths, span)
  }

  ghost predicate ShowsRow(t: Table, lines: seq<Line>, i: nat, widths: seq<nat>)
    requires WellShaped(t) && |widths| == |t.headers| && i < |t.rows| && |lines| > 5 + i
  {
    && lines[5 + i].GridRow? && lines[5 + i].widths == widths && |lines[5 + i].cells| == |t.rows[i]|
    && forall j :: 0 <= j < |t.rows[i]| ==>
         lines[5 + i].cells[j] == Truncated(Sanitize(t.rows[i][j]), Max(t.maxWidths[j], widths[j]))
  }

  lemma TableStarts(t: Table, widths: seq<nat>, span: nat, below: seq<Line>)
    ensures StartsTable(t, Heading(t.title, span) + ColumnHeads(t.headers, widths) + below, widths, span)
  {
  }

  lemma TableEnds(t: Table, widths: seq<nat>, above: seq<Line>)
    requires |above| == |t.rows| + 5
    ensures EndsTable(t, above + TableEnd(t.footerTitle, t.footerLines, widths), widths, SpanWidth(widths))
  {
    if !(t.footerTitle.None? && t.footerLines == []) {
      FooterBelow(above, t.footerTitle, t.footerLines, SpanWidth(widths));
    }
  }

  lemma RowIsShown(t: Table, widths: seq<nat>, above: seq<Line>, below: seq<Line>, i: nat)
    requires WellShaped(t) && |widths| == |t.headers| && i < |t.rows| && |above| == 5
    ensures ShowsRow(t, above + DataRows(t.rows, t.maxWidths, widths) + below, i, widths)
  {
    var rows := DataRows(t.rows, t.maxWidths, widths);
    assert (above + rows + below)[5 + i] == rows[i];
    assert rows[i] == GridRow(widths, ShownRow(t.rows[i], t.maxWidths, widths));
  }

  lemma TopOfTable(t: Table)
    requires WellShaped(t)
    ensures StartsTable(t, TableLines(t), TableWidths(t), SpanWidth(TableWidths(t)))
  {
    var widths := TableWidths(t);
    var span := SpanWidth(widths);
    var rows, end := DataRows(t.rows, t.maxWidths, widths), TableEnd(t.footerTitle, t.footerLines, widths);
    assert TableLines(t) == Heading(t.title, span) + ColumnHeads(t.headers, widths) + (rows + end);
    TableStarts(t, widths, span, rows + end);
  }

  lemma RowOfTable(t: Table, i: nat)
    requires WellShaped(t) && i < |t.rows|
    ensures |TableLines(t)| > 5 + |t.rows| && ShowsRow(t, TableLines(t), i, TableWidths(t))
  {
    var widths := TableWidths(t);
    RowIsShown(t, widths, Heading(t.title, SpanWidth(widths)) + ColumnHeads(t.headers, widths),
               TableEnd(t.footerTitle, t.footerLines, widths), i);
  }

  lemma EndOfTable(t: Table)
    requires WellShaped(t)
    ensures |TableLines(t)| > 5 + |t.rows|
    ensures EndsTable(t, TableLines(t), TableWidths(t), SpanWidth(TableWidths(t)))
  {
    var widths := TableWidths(t);
    TableEnds(t, widths, Heading(t.title, SpanWidth(widths)) + ColumnHeads(t.headers, widths)
                         + DataRows(t.rows, t.maxWidths, widths));
  }

  lemma TableIsLaidOut(t: Table)
    requires WellShaped(t)
    ensures IsTable(t, TableLines(t), TableWidths(t), SpanWidth(TableWidths(t)))
  {
    TopOfTable(t);
    EndOfTable(t);
    forall i | 0 <= i < |t.rows| ensures ShowsRow(t, TableLines(t), i, TableWidths(t)) {
      RowOfTable(t, i);
    }
  }

  /** The title, the message, then the footer or the bottom edge. */
  ghost predicate IsBox(title: string, message: string, footerTitle: Option<string>, footerLines: seq<string>,
                        lines: seq<Line>, span: nat)
  {
    && |lines| > 4
    && lines[0] == SpanEdge('\U{250C}', '\U{2510}', span) && lines[1] == SpanText(title, span)
    && lines[2] == SpanEdge('\U{251C}', '\U{2524}', span) && lines[3] == SpanText(message, span)
    && (if footerTitle.None? && footerLines == []
        then |lines| == 5 && lines[4] == SpanEdge('\U{2514}', '\U{2518}', span)
        else FooterAt(lines, 4, footerTitle, footerLines, span))
  }

  lemma BoxIsLaidOut(
    title: string, message: string, footerTitle: Option<string>, footerLines: seq<string>, span: nat)
    ensures IsBox(title, message, footerTitle, footerLines,
                  BoxLines(title, message, footerTitle, footerLines, span), span)
  {
    var above := Heading(title, span) + [SpanEdge(TEE_LEFT, TEE_RIGHT, span), SpanText(message, span)];
    if !(footerTitle.None? && footerLines == []) {
      FooterBelow(above, footerTitle, footerLines, span);
    }
  }
}
