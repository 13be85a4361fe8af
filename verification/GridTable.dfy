/**
 Tables and note boxes drawn with box characters. Each writer is modelled by the text it
 sends to its output; a table is the list of these texts in order.
 */
module GridTable {
  import opened Prelude
  import Text

  datatype ShapeError = WidthCapsDiffer | RowDiffers
  datatype Result<+T> = Ok(value: T) | Err(error: ShapeError)

  const HORIZONTAL: char := '\U{2500}'
  const VERTICAL: char := '\U{2502}'
  const TOP_LEFT: char := '\U{250C}'
  const TOP_RIGHT: char := '\U{2510}'
  const BOTTOM_LEFT: char := '\U{2514}'
  const BOTTOM_RIGHT: char := '\U{2518}'
  const TEE_LEFT: char := '\U{251C}'
  const TEE_RIGHT: char := '\U{2524}'
  const TEE_TOP: char := '\U{252C}'
  const TEE_BOTTOM: char := '\U{2534}'
  const CROSS: char := '\U{253C}'

  function Monus(a: nat, b: nat): nat { if a < b then 0 else a - b }

  function Repeat(c: char, n: nat): (r: string)
    ensures |r| == n && forall i :: 0 <= i < n ==> r[i] == c
  {
    seq(n, _ => c)
  }

  // ----- cells -----

  /** Length of the leading run of characters that are not whitespace. */
  function WordLength(s: string): (n: nat)
    ensures n <= |s| && (forall i :: 0 <= i < n ==> !Text.IsWhitespace(s[i]))
    ensures n == |s| || Text.IsWhitespace(s[n])
  {
    if s == "" || Text.IsWhitespace(s[0]) then 0 else 1 + WordLength(s[1..])
  }

  predicate IsWord(s: string) {
    s != "" && forall i :: 0 <= i < |s| ==> !Text.IsWhitespace(s[i])
  }

  function FirstWord(t: string): (word: string)
    requires t != "" && !Text.IsWhitespace(t[0])
    ensures IsWord(word) && word <= t
  {
    t[..WordLength(t)]
  }

  /** `s.split_whitespace()` */
  function Words(s: string): (r: seq<string>)
    decreases |s|
  {
    var t := Text.TrimStart(s);
    if t == "" then []
    else
      var word := FirstWord(t);
      [word] + Words(t[|word|..])
  }

  ghost predicate AllWords(words: seq<string>) {
    forall i :: 0 <= i < |words| ==> IsWord(words[i])
  }

  lemma AllWordsCons(word: string, words: seq<string>)
    requires IsWord(word) && AllWords(words)
    ensures AllWords([word] + words)
  {
  }

  lemma {:induction false} WordsAreWords(s: string)
    ensures AllWords(Words(s))
    decreases |s|
  {
    var t := Text.TrimStart(s);
    if t != "" {
      var rest := t[|FirstWord(t)|..];
      WordsAreWords(rest);
      AllWordsCons(FirstWord(t), Words(rest));
    }
  }

  function Sanitize(value: string): string {
    var compact := Text.Join(Words(value), " ");
    if compact == "" then "-" else compact
  }

  lemma {:induction false} JoinedWords(words: seq<string>, i: nat)
    requires AllWords(words)
    requires i < |Text.Join(words, " ")|
    ensures Text.Join(words, " ")[i] == ' ' || !Text.IsWhitespace(Text.Join(words, " ")[i])
  {
    if |words| > 1 && i > |words[0]| {
      JoinedWords(words[1..], i - |words[0]| - 1);
    }
  }

  /** A sanitized cell never breaks its row. */
  lemma SanitizedIsOneLine(value: string)
    ensures Sanitize(value) != "" && '\n' !in Sanitize(value)
  {
    var words := Words(value);
    WordsAreWords(value);
    forall i | 0 <= i < |Text.Join(words, " ")| ensures Text.Join(words, " ")[i] != '\n' {
      JoinedWords(words, i);
    }
  }

  function Truncated(value: string, maxWidth: nat): string {
    if |value| <= maxWidth then value
    else if maxWidth <= 1 then [ELLIPSIS]
    else value[..maxWidth - 1] + [ELLIPSIS]
  }

  method TruncateCell(value: string, maxWidth: nat) returns (r: string)
    ensures r == Truncated(value, maxWidth)
    ensures |r| <= Max(maxWidth, 1) && (|value| > maxWidth ==> |r| == Max(maxWidth, 1))
  {
    if |value| <= maxWidth {
      return value;
    }
    if maxWidth <= 1 {
      return [ELLIPSIS];
    }
    r := "";
    for i := 0 to maxWidth - 1
      invariant r == value[..i]
    {
      r := r + [value[i]];
    }
    r := r + [ELLIPSIS];
  }

  // ----- single lines -----

  function Sum(widths: seq<nat>): nat {
    if widths == [] then 0 else Sum(widths[..|widths| - 1]) + widths[|widths| - 1]
  }

  lemma SumOne(width: nat)
    ensures Sum([width]) == width
  {
    assert [width][..0] == [];
  }

  /** The pieces of a border up to column `n`, the line ending included once the last is written. */
  function BorderUpTo(middle: char, right: char, widths: seq<nat>, n: nat): string
    requires n <= |widths|
  {
    if n == 0 then ""
    else
      BorderUpTo(middle, right, widths, n - 1) + Repeat(HORIZONTAL, widths[n - 1] + 2)
      + (if n == |widths| then [right, '\n'] else [middle])
  }

  function TableBorder(left: char, middle: char, right: char, widths: seq<nat>): string {
    [left] + BorderUpTo(middle, right, widths, |widths|)
  }

  method WriteTableBorder(left: char, middle: char, right: char, widths: seq<nat>) returns (text: string)
    ensures text == TableBorder(left, middle, right, widths)
  {
    text := [left];
    for index := 0 to |widths|
      invariant text == [left] + BorderUpTo(middle, right, widths, index)
    {
      text := text + Repeat(HORIZONTAL, widths[index] + 2);
      if index + 1 == |widths| {
        text := text + [right, '\n'];
      } else {
        text := text + [middle];
      }
    }
  }

  function SpanBorder(left: char, right: char, width: nat): string {
    [left] + Repeat(HORIZONTAL, width + 2) + [right, '\n']
  }

  function SpanRow(value: string, width: nat): string {
    [VERTICAL, ' '] + value + Repeat(' ', Monus(width, |value|)) + [' ', VERTICAL, '\n']
  }

  function Padded(cell: string, width: nat): string {
    [' '] + cell + Repeat(' ', Monus(width, |cell|)) + [' ', VERTICAL]
  }

  function RowUpTo(widths: seq<nat>, cells: seq<string>, n: nat): string
    requires n <= |widths| && n <= |cells|
  {
    if n == 0 then ""
    else RowUpTo(widths, cells, n - 1) + Padded(cells[n - 1], widths[n - 1]) + (if n == |cells| then "\n" else "")
  }

  function Shorter(widths: seq<nat>, cells: seq<string>): nat {
    if |cells| <= |widths| then |cells| else |widths|
  }

  /** Cells and widths are zipped; only the last of the cells ends the line. */
  function TableRow(widths: seq<nat>, cells: seq<string>): string {
    [VERTICAL] + RowUpTo(widths, cells, Shorter(widths, cells))
  }

  method WriteTableRow(widths: seq<nat>, cells: seq<string>) returns (text: string)
    ensures text == TableRow(widths, cells)
  {
    text := [VERTICAL];
    for index := 0 to Shorter(widths, cells)
      invariant text == [VERTICAL] + RowUpTo(widths, cells, index)
    {
      text := text + Padded(cells[index], widths[index]);
      if index + 1 == |cells| {
        text := text + "\n";
      }
    }
  }

  /** One line of the given display width, ended once. */
  predicate IsLine(text: string, width: nat) {
    |text| == width + 1 && text[width] == '\n' && '\n' !in text[..width]
  }

  function GridWidth(widths: seq<nat>): nat {
    Sum(widths) + 3 * |widths| + 1
  }

  lemma {:induction false} BorderUpToWidth(middle: char, right: char, widths: seq<nat>, n: nat)
    requires n <= |widths| && middle != '\n' && right != '\n'
    ensures var text := BorderUpTo(middle, right, widths, n);
            && |text| == Sum(widths[..n]) + 3 * n + (if 0 < n == |widths| then 1 else 0)
            && (n < |widths| ==> '\n' !in text)
            && (0 < n == |widths| ==> text[|text| - 1] == '\n' && '\n' !in text[..|text| - 1])
  {
    if n > 0 {
      BorderUpToWidth(middle, right, widths, n - 1);
      assert widths[..n][..n - 1] == widths[..n - 1];
      var text := BorderUpTo(middle, right, widths, n);
      var before := BorderUpTo(middle, right, widths, n - 1) + Repeat(HORIZONTAL, widths[n - 1] + 2);
      if n == |widths| {
        assert text[..|text| - 1] == before + [right];
      }
    }
  }

  lemma TableBorderWidth(left: char, middle: char, right: char, widths: seq<nat>)
    requires widths != [] && left != '\n' && middle != '\n' && right != '\n'
    ensures IsLine(TableBorder(left, middle, right, widths), GridWidth(widths))
  {
    BorderUpToWidth(middle, right, widths, |widths|);
    assert widths[..|widths|] == widths;
    var body := BorderUpTo(middle, right, widths, |widths|);
    assert ([left] + body)[..|body|] == [left] + body[..|body| - 1];
  }

  lemma SpanBorderWidth(left: char, right: char, width: nat)
    requires left != '\n' && right != '\n'
    ensures IsLine(SpanBorder(left, right, width), width + 4)
  {
    var text := SpanBorder(left, right, width);
    assert text[..width + 4] == [left] + Repeat(HORIZONTAL, width + 2) + [right];
  }

  /** A full-width row is as wide as its text forces it to be. */
  lemma SpanRowWidth(value: string, width: nat)
    requires '\n' !in value
    ensures IsLine(SpanRow(value, width), Max(width, |value|) + 4)
  {
    var text := SpanRow(value, width);
    assert text[..|text| - 1] == [VERTICAL, ' '] + value + Repeat(' ', Monus(width, |value|)) + [' ', VERTICAL];
  }

  predicate CellFits(cell: string, width: nat) {
    |cell| <= width && '\n' !in cell
  }

  lemma {:induction false} RowUpToWidth(widths: seq<nat>, cells: seq<string>, n: nat)
    requires n <= |widths| == |cells|
    requires forall i :: 0 <= i < |cells| ==> CellFits(cells[i], widths[i])
    ensures var text := RowUpTo(widths, cells, n);
            && |text| == Sum(widths[..n]) + 3 * n + (if 0 < n == |cells| then 1 else 0)
            && (n < |cells| ==> '\n' !in text)
            && (0 < n == |cells| ==> text[|text| - 1] == '\n' && '\n' !in text[..|text| - 1])
  {
    if n > 0 {
      RowUpToWidth(widths, cells, n - 1);
      assert widths[..n][..n - 1] == widths[..n - 1];
      assert CellFits(cells[n - 1], widths[n - 1]);
      var text := RowUpTo(widths, cells, n);
      var before := RowUpTo(widths, cells, n - 1) + Padded(cells[n - 1], widths[n - 1]);
      if n == |cells| {
        assert text[..|text| - 1] == before;
      }
    }
  }

  lemma TableRowWidth(widths: seq<nat>, cells: seq<string>)
    requires 0 < |widths| == |cells|
    requires forall i :: 0 <= i < |cells| ==> CellFits(cells[i], widths[i])
    ensures IsLine(TableRow(widths, cells), GridWidth(widths))
  {
    RowUpToWidth(widths, cells, |cells|);
    assert widths[..|widths|] == widths;
    var body := RowUpTo(widths, cells, |cells|);
    assert ([VERTICAL] + body)[..|body|] == [VERTICAL] + body[..|body| - 1];
  }

  // ----- column widths -----

  type Row = seq<string>

  ghost predicate RowsMatch(rows: seq<Row>, n: nat) {
    forall i :: 0 <= i < |rows| ==> |rows[i]| == n
  }

  function Column(rows: seq<Row>, index: nat): (r: seq<string>)
    requires forall i :: 0 <= i < |rows| ==> index < |rows[i]|
    ensures |r| == |rows| && forall i :: 0 <= i < |rows| ==> r[i] == rows[i][index]
  {
    seq(|rows|, i requires 0 <= i < |rows| => rows[i][index])
  }

  function CutWidth(cell: string, cap: nat): nat {
    |Truncated(Sanitize(cell), cap)|
  }

  function CutWidths(cells: seq<string>, cap: nat): (r: seq<nat>)
    ensures |r| == |cells| && forall i :: 0 <= i < |cells| ==> r[i] == CutWidth(cells[i], cap)
  {
    seq(|cells|, i requires 0 <= i < |cells| => CutWidth(cells[i], cap))
  }

  /** The largest of the numbers, at least `least`. */
  function Widest(measured: seq<nat>, least: nat): (w: nat)
    ensures least <= w
    ensures forall i :: 0 <= i < |measured| ==> measured[i] <= w
    ensures w == least || w in measured
  {
    if measured == [] then least
    else
      var n := |measured| - 1;
      assert measured == measured[..n] + [measured[n]];
      Max(Widest(measured[..n], least), measured[n])
  }

  function Widths(headers: seq<string>, rows: seq<Row>, maxWidths: seq<nat>): (r: seq<nat>)
    requires |headers| == |maxWidths| && RowsMatch(rows, |headers|)
    ensures |r| == |headers|
  {
    seq(|headers|, (i: int) requires 0 <= i < |headers| =>
      assert forall j :: 0 <= j < |rows| ==> i < |rows[j]|;
      Widest(CutWidths(Column(rows, i as nat), Max(maxWidths[i], |headers[i]|)), |headers[i]|))
  }

  function ShownRow(row: Row, maxWidths: seq<nat>, widths: seq<nat>): (r: seq<string>)
    requires |row| == |maxWidths| == |widths|
    ensures |r| == |row|
  {
    seq(|row|, i requires 0 <= i < |row| => Truncated(Sanitize(row[i]), Max(maxWidths[i], widths[i])))
  }

  lemma TruncatedOneLine(value: string, maxWidth: nat)
    requires '\n' !in value
    ensures '\n' !in Truncated(value, maxWidth)
  {
  }

  /** The width was measured against one cap and the cell is cut against another, yet it fits. */
  lemma CellFitsColumn(cell: string, header: nat, maxWidth: nat, width: nat)
    requires header <= width && |Truncated(cell, Max(maxWidth, header))| <= width
    ensures |Truncated(cell, Max(maxWidth, width))| <= width
  {
  }

  lemma ShownRowFits(headers: seq<string>, rows: seq<Row>, maxWidths: seq<nat>, n: nat)
    requires |headers| == |maxWidths| && RowsMatch(rows, |headers|) && n < |rows|
    ensures var widths := Widths(headers, rows, maxWidths);
            var cells := ShownRow(rows[n], maxWidths, widths);
            forall i :: 0 <= i < |cells| ==> CellFits(cells[i], widths[i])
  {
    var widths := Widths(headers, rows, maxWidths);
    var cells := ShownRow(rows[n], maxWidths, widths);
    forall i | 0 <= i < |cells| ensures CellFits(cells[i], widths[i]) {
      assert forall j :: 0 <= j < |rows| ==> i < |rows[j]|;
      assert Column(rows, i)[n] == rows[n][i];
      assert CutWidths(Column(rows, i), Max(maxWidths[i], |headers[i]|))[n] <= widths[i];
      SanitizedIsOneLine(rows[n][i]);
      CellFitsColumn(Sanitize(rows[n][i]), |headers[i]|, maxWidths[i], widths[i]);
      TruncatedOneLine(Sanitize(rows[n][i]), Max(maxWidths[i], widths[i]));
    }
  }

  // ----- lines -----

  /** What one writer call sends out. */
  datatype Line =
    | SpanEdge(left: char, right: char, width: nat)
    | SpanText(value: string, width: nat)
    | GridEdge(left: char, middle: char, right: char, widths: seq<nat>)
    | GridRow(widths: seq<nat>, cells: seq<string>)

  function Render(line: Line): string {
    match line
    case SpanEdge(left, right, width) => SpanBorder(left, right, width)
    case SpanText(value, width) => SpanRow(value, width)
    case GridEdge(left, middle, right, widths) => TableBorder(left, middle, right, widths)
    case GridRow(widths, cells) => TableRow(widths, cells)
  }

  /** The line is drawn to the span and to the widths of the grid, and no cell is longer than its column. */
  ghost predicate Laid(line: Line, span: nat, widths: seq<nat>) {
    match line
    case SpanEdge(left, right, width) => width == span && left != '\n' && right != '\n'
    case SpanText(_, width) => width == span
    case GridEdge(left, middle, right, ws) => ws == widths && left != '\n' && middle != '\n' && right != '\n'
    case GridRow(ws, cells) =>
      ws == widths && |cells| == |ws| && forall i :: 0 <= i < |cells| ==> |cells[i]| <= ws[i]
  }

  /** What can go wrong with a line: a text too long for the span, or one that holds a line break. */
  ghost predicate Even(line: Line) {
    match line
    case SpanText(value, width) => |value| <= width && '\n' !in value
    case GridRow(_, cells) => NewlineFree(cells)
    case _ => true
  }

  // ----- texts with line breaks -----

  lemma LineHasOneBreak(text: string, width: nat)
    requires IsLine(text, width)
    ensures Text.Breaks(text) == 1
  {
    assert text == text[..width] + ['\n'];
    Text.BreaksConcat(text[..width], ['\n']);
  }

  lemma SpanRowBreaks(value: string, width: nat)
    ensures Text.Breaks(SpanRow(value, width)) == Text.Breaks(value) + 1
  {
    var padding := Repeat(' ', Monus(width, |value|));
    Text.BreaksConcat([VERTICAL, ' '] + value + padding, [' ', VERTICAL, '\n']);
    Text.BreaksConcat([VERTICAL, ' '] + value, padding);
    Text.BreaksConcat([VERTICAL, ' '], value);
    Text.BreaksConcat([' ', VERTICAL], ['\n']);
    assert [' ', VERTICAL] + ['\n'] == [' ', VERTICAL, '\n'];
  }

  lemma PaddedBreaks(cell: string, width: nat)
    ensures Text.Breaks(Padded(cell, width)) == Text.Breaks(cell)
  {
    var padding := Repeat(' ', Monus(width, |cell|));
    Text.BreaksConcat([' '] + cell + padding, [' ', VERTICAL]);
    Text.BreaksConcat([' '] + cell, padding);
    Text.BreaksConcat([' '], cell);
  }

  lemma {:induction false} RowBreaks(widths: seq<nat>, cells: seq<string>, n: nat, i: nat)
    requires i < n <= |widths| == |cells| && '\n' in cells[i]
    ensures Text.Breaks(RowUpTo(widths, cells, n)) >= (if n == |cells| then 2 else 1)
    decreases n
  {
    var before := RowUpTo(widths, cells, n - 1);
    var padded := Padded(cells[n - 1], widths[n - 1]);
    Text.BreaksConcat(before + padded, if n == |cells| then "\n" else "");
    Text.BreaksConcat(before, padded);
    PaddedBreaks(cells[n - 1], widths[n - 1]);
    if i < n - 1 {
      RowBreaks(widths, cells, n - 1, i);
    }
  }

  lemma TableRowBreaks(widths: seq<nat>, cells: seq<string>, i: nat)
    requires i < |widths| == |cells| && '\n' in cells[i]
    ensures Text.Breaks(TableRow(widths, cells)) >= 2
  {
    RowBreaks(widths, cells, |cells|, i);
    Text.BreaksConcat([VERTICAL], RowUpTo(widths, cells, |cells|));
  }

  // ----- one line of a table -----

  lemma SpanTextIff(value: string, width: nat)
    ensures IsLine(SpanRow(value, width), width + 4) <==> |value| <= width && '\n' !in value
  {
    if '\n' !in value {
      SpanRowWidth(value, width);
    } else {
      SpanRowBreaks(value, width);
      BrokenIsNoLine(SpanRow(value, width), width + 4);
    }
  }

  lemma BrokenIsNoLine(text: string, width: nat)
    requires Text.Breaks(text) != 1
    ensures !IsLine(text, width)
  {
    if IsLine(text, width) {
      LineHasOneBreak(text, width);
    }
  }

  lemma GridRowIff(widths: seq<nat>, cells: seq<string>)
    requires 0 < |widths| == |cells| && forall i :: 0 <= i < |cells| ==> |cells[i]| <= widths[i]
    ensures IsLine(TableRow(widths, cells), GridWidth(widths)) <==> NewlineFree(cells)
  {
    if NewlineFree(cells) {
      TableRowWidth(widths, cells);
    } else {
      var i :| 0 <= i < |cells| && '\n' in cells[i];
      TableRowBreaks(widths, cells, i);
      BrokenIsNoLine(TableRow(widths, cells), GridWidth(widths));
    }
  }

  /** A line that is laid out comes out as one line of the common width exactly if it is even. */
  lemma RenderedLineIff(line: Line, span: nat, widths: seq<nat>)
    requires Laid(line, span, widths)
    requires line.GridEdge? || line.GridRow? ==> widths != [] && GridWidth(widths) == span + 4
    ensures IsLine(Render(line), span + 4) <==> Even(line)
  {
    match line
    case SpanEdge(left, right, w) => SpanBorderWidth(left, right, w);
    case SpanText(value, w) => SpanTextIff(value, w);
    case GridEdge(left, middle, right, ws) => TableBorderWidth(left, middle, right, ws);
    case GridRow(ws, cells) => GridRowIff(ws, cells);
  }

  // ----- the whole table -----

  ghost predicate AllLaid(lines: seq<Line>, span: nat, widths: seq<nat>) {
    forall i :: 0 <= i < |lines| ==> Laid(lines[i], span, widths)
  }

  ghost predicate AllEven(lines: seq<Line>) {
    forall i :: 0 <= i < |lines| ==> Even(lines[i])
  }

  /** Every text written is one line of the given width. */
  ghost predicate Rectangular(lines: seq<Line>, width: nat) {
    forall i :: 0 <= i < |lines| ==> IsLine(Render(lines[i]), width)
  }

  lemma RectangularIffEven(lines: seq<Line>, span: nat, widths: seq<nat>)
    requires AllLaid(lines, span, widths) && widths != [] && GridWidth(widths) == span + 4
    ensures Rectangular(lines, span + 4) <==> AllEven(lines)
  {
    forall i | 0 <= i < |lines| ensures IsLine(Render(lines[i]), span + 4) <==> Even(lines[i]) {
      assert Laid(lines[i], span, widths);
      RenderedLineIff(lines[i], span, widths);
    }
  }

  lemma Joined(a: seq<Line>, b: seq<Line>, span: nat, widths: seq<nat>)
    ensures AllEven(a + b) <==> AllEven(a) && AllEven(b)
    ensures AllLaid(a, span, widths) && AllLaid(b, span, widths) ==> AllLaid(a + b, span, widths)
  {
    if AllEven(a + b) {
      forall i | 0 <= i < |a| ensures Even(a[i]) { assert (a + b)[i] == a[i]; }
      forall i | 0 <= i < |b| ensures Even(b[i]) { assert (a + b)[|a| + i] == b[i]; }
    }
  }

  ghost predicate AllFit(values: seq<string>, width: nat) {
    forall i :: 0 <= i < |values| ==> |values[i]| <= width
  }

  function SpanWidth(widths: seq<nat>): nat {
    Sum(widths) + Monus(|widths|, 1) * 3
  }

  function DataRows(rows: seq<Row>, maxWidths: seq<nat>, widths: seq<nat>): (r: seq<Line>)
    requires |maxWidths| == |widths| && RowsMatch(rows, |widths|)
    ensures |r| == |rows|
    ensures forall i :: 0 <= i < |rows| ==> r[i] == GridRow(widths, ShownRow(rows[i], maxWidths, widths))
  {
    seq(|rows|, i requires 0 <= i < |rows| => GridRow(widths, ShownRow(rows[i], maxWidths, widths)))
  }

  function SpanTexts(values: seq<string>, width: nat): (r: seq<Line>)
    ensures |r| == |values| && forall i :: 0 <= i < |values| ==> r[i] == SpanText(values[i], width)
  {
    seq(|values|, i requires 0 <= i < |values| => SpanText(values[i], width))
  }

  function TitleValues(footerTitle: Option<string>): seq<string> {
    if footerTitle.Some? then [footerTitle.value] else []
  }

  /** The part below the rows of a table or below the message of a note box. */
  function Footer(footerTitle: Option<string>, footerLines: seq<string>, width: nat): seq<Line> {
    [SpanEdge(TEE_LEFT, TEE_RIGHT, width)]
    + SpanTexts(TitleValues(footerTitle), width)
    + (if footerTitle.Some? && footerLines != [] then [SpanEdge(TEE_LEFT, TEE_RIGHT, width)] else [])
    + SpanTexts(footerLines, width)
    + [SpanEdge(BOTTOM_LEFT, BOTTOM_RIGHT, width)]
  }

  function Heading(title: string, span: nat): seq<Line> {
    [SpanEdge(TOP_LEFT, TOP_RIGHT, span), SpanText(title, span)]
  }

  function ColumnHeads(headers: seq<string>, widths: seq<nat>): seq<Line> {
    [ GridEdge(TEE_LEFT, TEE_TOP, TEE_RIGHT, widths),
      GridRow(widths, headers),
      GridEdge(TEE_LEFT, CROSS, TEE_RIGHT, widths) ]
  }

  function TableEnd(footerTitle: Option<string>, footerLines: seq<string>, widths: seq<nat>): seq<Line> {
    if footerTitle.None? && footerLines == []
    then [GridEdge(BOTTOM_LEFT, TEE_BOTTOM, BOTTOM_RIGHT, widths)]
    else Footer(footerTitle, footerLines, SpanWidth(widths))
  }

  /** Everything that is put into a table. */
  datatype Table = Table(
    title: string, headers: seq<string>, rows: seq<Row>, maxWidths: seq<nat>,
    footerTitle: Option<string>, footerLines: seq<string>)

  ghost predicate WellShaped(t: Table) {
    |t.headers| == |t.maxWidths| && RowsMatch(t.rows, |t.headers|)
  }

  function TableWidths(t: Table): (widths: seq<nat>)
    requires WellShaped(t)
    ensures |widths| == |t.headers|
  {
    Widths(t.headers, t.rows, t.maxWidths)
  }

  function TableLines(t: Table): seq<Line>
    requires WellShaped(t)
  {
    var widths := TableWidths(t);
    Heading(t.title, SpanWidth(widths)) + ColumnHeads(t.headers, widths)
    + DataRows(t.rows, t.maxWidths, widths) + TableEnd(t.footerTitle, t.footerLines, widths)
  }

  // ----- the parts of a table -----

  lemma SpanTextsShape(values: seq<string>, span: nat, widths: seq<nat>)
    ensures AllLaid(SpanTexts(values, span), span, widths)
    ensures AllEven(SpanTexts(values, span)) <==> NewlineFree(values) && AllFit(values, span)
  {
    if AllEven(SpanTexts(values, span)) {
      forall i | 0 <= i < |values| ensures |values[i]| <= span && '\n' !in values[i] {
        assert Even(SpanTexts(values, span)[i]);
      }
    }
  }

  ghost predicate FooterFits(footerTitle: Option<string>, footerLines: seq<string>, span: nat) {
    && NewlineFree(TitleValues(footerTitle)) && AllFit(TitleValues(footerTitle), span)
    && NewlineFree(footerLines) && AllFit(footerLines, span)
  }

  lemma FooterShape(footerTitle: Option<string>, footerLines: seq<string>, span: nat, widths: seq<nat>)
    ensures AllLaid(Footer(footerTitle, footerLines, span), span, widths)
    ensures AllEven(Footer(footerTitle, footerLines, span)) <==> FooterFits(footerTitle, footerLines, span)
  {
    var titles, texts := SpanTexts(TitleValues(footerTitle), span), SpanTexts(footerLines, span);
    SpanTextsShape(TitleValues(footerTitle), span, widths);
    SpanTextsShape(footerLines, span, widths);
    var top, bottom := [SpanEdge(TEE_LEFT, TEE_RIGHT, span)], [SpanEdge(BOTTOM_LEFT, BOTTOM_RIGHT, span)];
    var between := if footerTitle.Some? && footerLines != [] then top else [];
    Joined(top, titles, span, widths);
    Joined(top + titles, between, span, widths);
    Joined(top + titles + between, texts, span, widths);
    Joined(top + titles + between + texts, bottom, span, widths);
  }

  lemma TableEndShape(footerTitle: Option<string>, footerLines: seq<string>, widths: seq<nat>)
    ensures AllLaid(TableEnd(footerTitle, footerLines, widths), SpanWidth(widths), widths)
    ensures AllEven(TableEnd(footerTitle, footerLines, widths))
            <==> FooterFits(footerTitle, footerLines, SpanWidth(widths))
  {
    FooterShape(footerTitle, footerLines, SpanWidth(widths), widths);
  }

  lemma HeadingShape(title: string, span: nat, widths: seq<nat>)
    ensures AllLaid(Heading(title, span), span, widths)
    ensures AllEven(Heading(title, span)) <==> |title| <= span && '\n' !in title
  {
    assert Heading(title, span)[1] == SpanText(title, span);
  }

  lemma HeaderFits(headers: seq<string>, rows: seq<Row>, maxWidths: seq<nat>)
    requires |headers| == |maxWidths| && RowsMatch(rows, |headers|)
    ensures var widths := Widths(headers, rows, maxWidths);
            forall i :: 0 <= i < |headers| ==> |headers[i]| <= widths[i]
  {
    var widths := Widths(headers, rows, maxWidths);
    forall i | 0 <= i < |headers| ensures |headers[i]| <= widths[i] {
      assert forall j :: 0 <= j < |rows| ==> i < |rows[j]|;
    }
  }

  lemma ColumnHeadsShape(headers: seq<string>, span: nat, widths: seq<nat>)
    requires |headers| == |widths| && forall i :: 0 <= i < |headers| ==> |headers[i]| <= widths[i]
    ensures AllLaid(ColumnHeads(headers, widths), span, widths)
    ensures AllEven(ColumnHeads(headers, widths)) <==> NewlineFree(headers)
  {
    assert ColumnHeads(headers, widths)[1] == GridRow(widths, headers);
    assert Laid(GridRow(widths, headers), span, widths);
  }

  lemma DataRowsShape(headers: seq<string>, rows: seq<Row>, maxWidths: seq<nat>, span: nat)
    requires |headers| == |maxWidths| && RowsMatch(rows, |headers|)
    ensures var widths := Widths(headers, rows, maxWidths);
            AllLaid(DataRows(rows, maxWidths, widths), span, widths) && AllEven(DataRows(rows, maxWidths, widths))
  {
    var widths := Widths(headers, rows, maxWidths);
    forall i | 0 <= i < |rows|
      ensures Laid(DataRows(rows, maxWidths, widths)[i], span, widths) && Even(DataRows(rows, maxWidths, widths)[i])
    {
      ShownRowFits(headers, rows, maxWidths, i);
    }
  }

  lemma FourParts(a: seq<Line>, b: seq<Line>, c: seq<Line>, d: seq<Line>, span: nat, widths: seq<nat>)
    requires AllLaid(a, span, widths) && AllLaid(b, span, widths)
    requires AllLaid(c, span, widths) && AllLaid(d, span, widths)
    ensures AllLaid(a + b + c + d, span, widths)
    ensures AllEven(a + b + c + d) <==> AllEven(a) && AllEven(b) && AllEven(c) && AllEven(d)
  {
    Joined(a, b, span, widths);
    Joined(a + b, c, span, widths);
    Joined(a + b + c, d, span, widths);
  }

  // ----- when a table is a rectangle -----

  /** The texts that are written as they are: title, headers and footers. */
  ghost predicate TextsFit(t: Table, span: nat) {
    && |t.title| <= span && '\n' !in t.title
    && NewlineFree(t.headers)
    && FooterFits(t.footerTitle, t.footerLines, span)
  }

  lemma TableShape(t: Table)
    requires WellShaped(t)
    ensures AllLaid(TableLines(t), SpanWidth(TableWidths(t)), TableWidths(t))
    ensures AllEven(TableLines(t)) <==> TextsFit(t, SpanWidth(TableWidths(t)))
  {
    var widths := TableWidths(t);
    var span := SpanWidth(widths);
    HeadingShape(t.title, span, widths);
    HeaderFits(t.headers, t.rows, t.maxWidths);
    ColumnHeadsShape(t.headers, span, widths);
    DataRowsShape(t.headers, t.rows, t.maxWidths, span);
    TableEndShape(t.footerTitle, t.footerLines, widths);
    FourParts(Heading(t.title, span), ColumnHeads(t.headers, widths), DataRows(t.rows, t.maxWidths, widths),
              TableEnd(t.footerTitle, t.footerLines, widths), span, widths);
  }

  lemma SpanIsGrid(widths: seq<nat>)
    requires widths != []
    ensures GridWidth(widths) == SpanWidth(widths) + 4
  {
  }

  /**
   Line by line: borders and data rows always have width sum + 3n + 1; the header row has it
   exactly if no header holds a line break, a title or footer exactly if it fits and holds none.
   */
  lemma TableLineIff(t: Table, i: nat)
    requires WellShaped(t) && t.headers != [] && i < |TableLines(t)|
    ensures IsLine(Render(TableLines(t)[i]), GridWidth(TableWidths(t))) <==> Even(TableLines(t)[i])
  {
    var widths := TableWidths(t);
    TableShape(t);
    SpanIsGrid(widths);
    assert Laid(TableLines(t)[i], SpanWidth(widths), widths);
    RenderedLineIff(TableLines(t)[i], SpanWidth(widths), widths);
  }

  lemma NoColumns(t: Table)
    requires WellShaped(t) && t.headers == []
    ensures !Rectangular(TableLines(t), GridWidth(TableWidths(t)))
  {
    var widths := TableWidths(t);
    assert widths == [];
    assert TableLines(t)[2] == GridEdge(TEE_LEFT, TEE_TOP, TEE_RIGHT, widths);
    assert Render(TableLines(t)[2]) == [TEE_LEFT];
  }

  lemma LaidOut(lines: seq<Line>, span: nat, widths: seq<nat>, fits: bool)
    requires AllLaid(lines, span, widths) && (AllEven(lines) <==> fits)
    requires widths != [] && GridWidth(widths) == span + 4
    ensures Rectangular(lines, GridWidth(widths)) <==> fits
  {
    RectangularIffEven(lines, span, widths);
  }

  lemma WithColumns(t: Table, lines: seq<Line>, widths: seq<nat>, fits: bool)
    requires WellShaped(t) && t.headers != []
    requires lines == TableLines(t) && widths == TableWidths(t) && fits == TextsFit(t, SpanWidth(widths))
    ensures Rectangular(lines, GridWidth(widths)) <==> fits
  {
    TableShape(t);
    SpanIsGrid(widths);
    LaidOut(lines, SpanWidth(widths), widths, fits);
  }

  /**
   A table is a rectangle of width sum + 3n + 1 exactly if it has columns and the texts that
   are not cut, its title, headers and footers, hold no line break and fit the span of the grid.
   */
  lemma TableIsRectangular(t: Table)
    requires WellShaped(t)
    ensures Rectangular(TableLines(t), GridWidth(TableWidths(t)))
            <==> t.headers != [] && TextsFit(t, SpanWidth(TableWidths(t)))
  {
    if t.headers == [] {
      NoColumns(t);
    } else {
      var widths := TableWidths(t);
      WithColumns(t, TableLines(t), widths, TextsFit(t, SpanWidth(widths)));
    }
  }

  /** A title of five characters over one column of width one. */
  lemma LongTitleSticksOut()
    ensures var t := Table("title", ["h"], [], [1], None, []);
            WellShaped(t) && !Rectangular(TableLines(t), GridWidth(TableWidths(t)))
  {
    var t := Table("title", ["h"], [], [1], None, []);
    OneColumn(t);
    TableIsRectangular(t);
  }

  lemma OneColumn(t: Table)
    requires |t.headers| == 1 && t.rows == [] && |t.maxWidths| == 1
    ensures WellShaped(t) && SpanWidth(TableWidths(t)) == |t.headers[0]|
  {
    var widths := TableWidths(t);
    assert widths == [|t.headers[0]|];
    SumOne(|t.headers[0]|);
  }

  // ----- the writers -----

  method AllMatch(rows: seq<Row>, n: nat) returns (ok: bool)
    ensures ok <==> RowsMatch(rows, n)
  {
    for i := 0 to |rows|
      invariant RowsMatch(rows[..i], n)
    {
      if |rows[i]| != n {
        return false;
      }
    }
    assert rows[..|rows|] == rows;
    return true;
  }

  method WriteRows(rows: seq<Row>, maxWidths: seq<nat>, widths: seq<nat>) returns (lines: seq<Line>)
    requires |maxWidths| == |widths| && RowsMatch(rows, |widths|)
    ensures lines == DataRows(rows, maxWidths, widths)
  {
    lines := [];
    for i := 0 to |rows|
      invariant |lines| == i
      invariant forall j :: 0 <= j < i ==> lines[j] == GridRow(widths, ShownRow(rows[j], maxWidths, widths))
    {
      lines := lines + [GridRow(widths, ShownRow(rows[i], maxWidths, widths))];
    }
  }

  /** The shape errors of the table writer, and otherwise its lines. */
  method WriteTitledGridTable(t: Table) returns (r: Result<seq<Line>>)
    ensures r.Ok? <==> WellShaped(t)
    ensures r == Err(WidthCapsDiffer) <==> |t.headers| != |t.maxWidths|
    ensures r.Ok? ==> r.value == TableLines(t)
  {
    if |t.headers| != |t.maxWidths| {
      return Err(WidthCapsDiffer);
    }
    var shaped := AllMatch(t.rows, |t.headers|);
    if !shaped {
      return Err(RowDiffers);
    }
    var widths := TableWidths(t);
    var lines := WriteRows(t.rows, t.maxWidths, widths);
    r := Ok(Heading(t.title, SpanWidth(widths)) + ColumnHeads(t.headers, widths) + lines
            + TableEnd(t.footerTitle, t.footerLines, widths));
  }

  // ----- note boxes -----

  function BoxEnd(footerTitle: Option<string>, footerLines: seq<string>, span: nat): seq<Line> {
    if footerTitle.None? && footerLines == []
    then [SpanEdge(BOTTOM_LEFT, BOTTOM_RIGHT, span)]
    else Footer(footerTitle, footerLines, span)
  }

  function BoxLines(
    title: string, message: string, footerTitle: Option<string>, footerLines: seq<string>, span: nat): seq<Line>
  {
    Heading(title, span)
    + [SpanEdge(TEE_LEFT, TEE_RIGHT, span), SpanText(message, span)]
    + BoxEnd(footerTitle, footerLines, span)
  }

  lemma MessageShape(message: string, span: nat, widths: seq<nat>)
    ensures var lines := [SpanEdge(TEE_LEFT, TEE_RIGHT, span), SpanText(message, span)];
            && AllLaid(lines, span, widths) && (AllEven(lines) <==> |message| <= span && '\n' !in message)
  {
    var lines := [SpanEdge(TEE_LEFT, TEE_RIGHT, span), SpanText(message, span)];
    assert lines[1] == SpanText(message, span);
  }

  lemma BoxEndShape(footerTitle: Option<string>, footerLines: seq<string>, span: nat, widths: seq<nat>)
    ensures AllLaid(BoxEnd(footerTitle, footerLines, span), span, widths)
    ensures AllEven(BoxEnd(footerTitle, footerLines, span)) <==> FooterFits(footerTitle, footerLines, span)
  {
    FooterShape(footerTitle, footerLines, span, widths);
  }

  ghost predicate BoxFits(
    title: string, message: string, footerTitle: Option<string>, footerLines: seq<string>, span: nat)
  {
    && |title| <= span && '\n' !in title && |message| <= span && '\n' !in message
    && FooterFits(footerTitle, footerLines, span)
  }

  lemma BoxShape(
    title: string, message: string, footerTitle: Option<string>, footerLines: seq<string>, span: nat, widths: seq<nat>)
    ensures AllLaid(BoxLines(title, message, footerTitle, footerLines, span), span, widths)
    ensures AllEven(BoxLines(title, message, footerTitle, footerLines, span))
            <==> BoxFits(title, message, footerTitle, footerLines, span)
  {
    var middle := [SpanEdge(TEE_LEFT, TEE_RIGHT, span), SpanText(message, span)];
    HeadingShape(title, span, widths);
    MessageShape(message, span, widths);
    BoxEndShape(footerTitle, footerLines, span, widths);
    Joined(Heading(title, span), middle, span, widths);
    Joined(Heading(title, span) + middle, BoxEnd(footerTitle, footerLines, span), span, widths);
  }

  /** A note box is a rectangle exactly if its texts fit its span and hold no line break. */
  lemma BoxIsRectangular(
    title: string, message: string, footerTitle: Option<string>, footerLines: seq<string>, span: nat)
    ensures Rectangular(BoxLines(title, message, footerTitle, footerLines, span), span + 4)
            <==> BoxFits(title, message, footerTitle, footerLines, span)
  {
    // A grid of one column as wide as the span has the width of the box.
    var widths := [span];
    BoxShape(title, message, footerTitle, footerLines, span, widths);
    SumOne(span);
    RectangularIffEven(BoxLines(title, message, footerTitle, footerLines, span), span, widths);
  }

  /** A note box takes the width of its widest text, so only line breaks keep it from being a rectangle. */
  method WriteTitledNoteBox(title: string, message: string, footerTitle: Option<string>, footerLines: seq<string>)
    returns (lines: seq<Line>, span: nat)
    ensures lines == BoxLines(title, message, footerTitle, footerLines, span)
    ensures |title| <= span && |message| <= span && AllFit(TitleValues(footerTitle), span) && AllFit(footerLines, span)
    ensures || span == |title| || span == |message| || (footerTitle.Some? && span == |footerTitle.value|)
            || exists i :: 0 <= i < |footerLines| && span == |footerLines[i]|
  {
    span := Max(|title|, |message|);
    if footerTitle.Some? {
      span := Max(span, |footerTitle.value|);
    }
    ghost var base := span;
    for i := 0 to |footerLines|
      invariant base <= span && forall j :: 0 <= j < i ==> |footerLines[j]| <= span
      invariant span == base || exists j :: 0 <= j < i && span == |footerLines[j]|
    {
      span := Max(span, |footerLines[i]|);
    }
    lines := BoxLines(title, message, footerTitle, footerLines, span);
  }
}
