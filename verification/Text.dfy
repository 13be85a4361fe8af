/** String operations of the standard library that several components rely on. */
module Text {

  /** `parts.join(sep)` */
  function Join(parts: seq<string>, sep: string): string {
    if |parts| == 0 then ""
    else if |parts| == 1 then parts[0]
    else parts[0] + sep + Join(parts[1..], sep)
  }

  /** `s.split(c)`: always at least one piece. */
  function Split(s: string, c: char): (r: seq<string>)
    ensures |r| >= 1
    ensures forall i :: 0 <= i < |r| ==> c !in r[i]
  {
    if s == "" then [""]
    else
      var rest := Split(s[1..], c);
      if s[0] == c then [""] + rest else [[s[0]] + rest[0]] + rest[1..]
  }

  lemma {:induction false} SplitFirst(a: string, c: char, rest: string)
    requires c !in a
    ensures Split(a, c) == [a]
    ensures Split(a + [c] + rest, c) == [a] + Split(rest, c)
  {
    if a == "" {
      assert a + [c] + rest == [c] + rest;
      assert ([c] + rest)[1..] == rest;
    } else {
      SplitFirst(a[1..], c, rest);
      var whole := a + [c] + rest;
      assert whole[1..] == a[1..] + [c] + rest;
      assert [a[0]] + a[1..] == a;
      var tail := Split(whole[1..], c);
      assert tail == [a[1..]] + Split(rest, c);
      assert [a] + tail[1..] == [a] + Split(rest, c);
    }
  }

  /** Joining pieces that do not hold the separator loses nothing. */
  lemma {:induction false} SplitJoin(parts: seq<string>, c: char)
    requires parts != []
    requires forall i :: 0 <= i < |parts| ==> c !in parts[i]
    ensures Split(Join(parts, [c]), c) == parts
  {
    if |parts| == 1 {
      SplitFirst(parts[0], c, "");
    } else {
      SplitJoin(parts[1..], c);
      SplitFirst(parts[0], c, Join(parts[1..], [c]));
      assert parts == [parts[0]] + parts[1..];
    }
  }

  /** Length of a character in UTF-8. */
  function CharBytes(c: char): (n: nat)
    ensures 1 <= n <= 4
  {
    var u := c as int;
    if u < 0x80 then 1 else if u < 0x800 then 2 else if u < 0x10000 then 3 else 4
  }

  /** `s.len()`: length in bytes. */
  function Bytes(s: string): (n: nat)
    ensures |s| <= n <= 4 * |s|
  {
    if s == "" then 0 else CharBytes(s[0]) + Bytes(s[1..])
  }

  lemma {:induction false} BytesConcat(a: string, b: string)
    ensures Bytes(a + b) == Bytes(a) + Bytes(b)
  {
    if a == "" {
      assert a + b == b;
    } else {
      assert (a + b)[1..] == a[1..] + b;
      BytesConcat(a[1..], b);
    }
  }

  // ----- UTF-8, as in section 3 of RFC 3629 -----

  /** The bytes of a character: the lead byte tells how many follow, each of which carries six bits. */
  function Utf8(c: char): (b: seq<int>)
    ensures |b| == CharBytes(c)
  {
    var u := c as int;
    if u < 0x80 then [u]
    else if u < 0x800 then [0xC0 + u / 0x40, 0x80 + u % 0x40]
    else if u < 0x10000 then [0xE0 + u / 0x1000, 0x80 + u / 0x40 % 0x40, 0x80 + u % 0x40]
    else [0xF0 + u / 0x40000, 0x80 + u / 0x1000 % 0x40, 0x80 + u / 0x40 % 0x40, 0x80 + u % 0x40]
  }

  /** The code point that well-formed bytes carry. */
  function CodePoint(b: seq<int>): int
    requires 1 <= |b| <= 4
  {
    if |b| == 1 then b[0]
    else if |b| == 2 then (b[0] - 0xC0) * 0x40 + (b[1] - 0x80)
    else if |b| == 3 then (b[0] - 0xE0) * 0x1000 + (b[1] - 0x80) * 0x40 + (b[2] - 0x80)
    else (b[0] - 0xF0) * 0x40000 + (b[1] - 0x80) * 0x1000 + (b[2] - 0x80) * 0x40 + (b[3] - 0x80)
  }

  /** Lead bytes by length, continuation bytes in their range, and no form that is longer than needed. */
  ghost predicate WellFormed(b: seq<int>) {
    && 1 <= |b| <= 4
    && (forall i :: 1 <= i < |b| ==> 0x80 <= b[i] < 0xC0)
    && (|b| == 1 ==> 0 <= b[0] < 0x80)
    && (|b| == 2 ==> 0xC0 <= b[0] < 0xE0 && CodePoint(b) >= 0x80)
    && (|b| == 3 ==> 0xE0 <= b[0] < 0xF0 && CodePoint(b) >= 0x800)
    && (|b| == 4 ==> 0xF0 <= b[0] < 0xF8 && CodePoint(b) >= 0x10000)
  }

  /** So the length counted for a character is that of its only well-formed encoding. */
  lemma Utf8RoundTrip(c: char)
    ensures WellFormed(Utf8(c)) && CodePoint(Utf8(c)) == c as int
  {
    var u := c as int;
    assert u / 0x40 / 0x40 == u / 0x1000 && u / 0x1000 / 0x40 == u / 0x40000;
  }

  lemma WellFormedLength(b: seq<int>, c: char)
    requires WellFormed(b) && CodePoint(b) == c as int
    ensures |b| == CharBytes(c)
  {
  }

  /** Number of line feeds. */
  function Breaks(text: string): (n: nat)
    ensures n == 0 <==> '\n' !in text
  {
    if text == "" then 0 else (if text[0] == '\n' then 1 else 0) + Breaks(text[1..])
  }

  lemma {:induction false} BreaksConcat(a: string, b: string)
    ensures Breaks(a + b) == Breaks(a) + Breaks(b)
  {
    if a == "" {
      assert a + b == b;
    } else {
      assert (a + b)[1..] == a[1..] + b;
      BreaksConcat(a[1..], b);
    }
  }

  function StripCarriageReturn(line: string): (r: string)
    ensures r <= line
  {
    if line != "" && line[|line| - 1] == '\r' then line[..|line| - 1] else line
  }

  function LinesOf(pieces: seq<string>): seq<string>
    requires pieces != []
  {
    if |pieces| == 1 then (if pieces[0] == "" then [] else pieces)
    else [StripCarriageReturn(pieces[0])] + LinesOf(pieces[1..])
  }

  lemma {:induction false} LinesOfFacts(pieces: seq<string>)
    requires pieces != [] && forall i :: 0 <= i < |pieces| ==> '\n' !in pieces[i]
    ensures forall i :: 0 <= i < |LinesOf(pieces)| ==> '\n' !in LinesOf(pieces)[i]
    ensures LinesOf(pieces) == [] <==> pieces == [""]
  {
    if |pieces| > 1 {
      LinesOfFacts(pieces[1..]);
      assert '\n' !in StripCarriageReturn(pieces[0]);
    }
  }

  /**
   `text.lines()`: a line ends in LF or CRLF, and a final line ending opens no further
   line. A carriage return at the end of an unterminated last line stays.
   */
  function Lines(text: string): (r: seq<string>)
    ensures forall i :: 0 <= i < |r| ==> '\n' !in r[i]
    ensures text == "" <==> r == []
  {
    var pieces := Split(text, '\n');
    LinesOfFacts(pieces);
    assert pieces == [""] <==> text == "" by { JoinSplit(text, '\n'); }
    LinesOf(pieces)
  }

  lemma {:induction false} JoinSplit(s: string, c: char)
    ensures Join(Split(s, c), [c]) == s
  {
    if s != "" {
      JoinSplit(s[1..], c);
      var rest, pieces := Split(s[1..], c), Split(s, c);
      if s[0] == c {
        assert pieces[1..] == rest;
        assert s == [c] + s[1..];
      } else {
        assert pieces[1..] == rest[1..];
        assert s == [s[0]] + s[1..];
        if |rest| > 1 {
          assert pieces[0] + [c] + Join(pieces[1..], [c]) == [s[0]] + (rest[0] + [c] + Join(rest[1..], [c]));
        }
      }
    }
  }

  // ----- lines and their endings make up the text -----

  function EndingsOf(pieces: seq<string>): seq<string>
    requires pieces != []
  {
    if |pieces| == 1 then (if pieces[0] == "" then [] else [""])
    else
      [if StripCarriageReturn(pieces[0]) == pieces[0] then "\n" else "\r\n"] + EndingsOf(pieces[1..])
  }

  /** Lines and endings in turn. */
  function Interleave(lines: seq<string>, endings: seq<string>): string
    requires |lines| == |endings|
  {
    if lines == [] then "" else lines[0] + endings[0] + Interleave(lines[1..], endings[1..])
  }

  /** Endings are LF or CRLF, whichever is longest, and only a non-empty last line may go without. */
  ghost predicate ProperEndings(lines: seq<string>, endings: seq<string>) {
    && |lines| == |endings|
    && forall i :: 0 <= i < |lines| ==>
         || endings[i] == "\r\n"
         || (endings[i] == "\n" && (lines[i] == "" || lines[i][|lines[i]| - 1] != '\r'))
         || (endings[i] == "" && i == |lines| - 1 && lines[i] != "")
  }

  lemma InterleaveCons(line: string, ending: string, lines: seq<string>, endings: seq<string>)
    requires |lines| == |endings|
    ensures Interleave([line] + lines, [ending] + endings) == line + ending + Interleave(lines, endings)
  {
    assert ([line] + lines)[1..] == lines && ([ending] + endings)[1..] == endings;
  }

  lemma {:induction false} PiecesEnd(pieces: seq<string>)
    requires pieces != []
    ensures ProperEndings(LinesOf(pieces), EndingsOf(pieces))
  {
    if |pieces| > 1 {
      PiecesEnd(pieces[1..]);
    }
  }

  lemma {:induction false} PiecesRebuild(pieces: seq<string>)
    requires pieces != []
    ensures |LinesOf(pieces)| == |EndingsOf(pieces)|
    ensures Interleave(LinesOf(pieces), EndingsOf(pieces)) == Join(pieces, "\n")
  {
    PiecesEnd(pieces);
    if |pieces| > 1 {
      PiecesRebuild(pieces[1..]);
      var line, ending := LinesOf(pieces)[0], EndingsOf(pieces)[0];
      InterleaveCons(line, ending, LinesOf(pieces[1..]), EndingsOf(pieces[1..]));
      assert line + ending == pieces[0] + "\n";
    } else if pieces[0] != "" {
      assert pieces == [pieces[0]] + [] && [""] == [""] + [];
      InterleaveCons(pieces[0], "", [], []);
      assert pieces[0] + "" + "" == pieces[0];
    }
  }

  /** The lines of a text and their endings make up the text. */
  lemma LinesRebuild(text: string)
    ensures exists endings :: ProperEndings(Lines(text), endings) && Interleave(Lines(text), endings) == text
  {
    var pieces := Split(text, '\n');
    PiecesEnd(pieces);
    PiecesRebuild(pieces);
    JoinSplit(text, '\n');
    assert ['\n'] == "\n";
    assert ProperEndings(Lines(text), EndingsOf(pieces));
  }

  /** `char::is_whitespace`: the Unicode White_Space property. */
  predicate IsWhitespace(c: char) {
    var u := c as int;
    || 0x09 <= u <= 0x0D || u == 0x20 || u == 0x85 || u == 0xA0 || u == 0x1680
    || 0x2000 <= u <= 0x200A || u == 0x2028 || u == 0x2029 || u == 0x202F
    || u == 0x205F || u == 0x3000
  }

  lemma WhitespaceIff(c: char)
    ensures IsWhitespace(c) <==>
            c as int in { 9, 10, 11, 12, 13, 32, 133, 160, 5760, 8192, 8193, 8194, 8195, 8196, 8197, 8198, 8199, 8200,
                          8201, 8202, 8232, 8233, 8239, 8287, 12288 }
  {
  }

  function TrimStart(s: string): (r: string)
    ensures r == "" || !IsWhitespace(r[0])
    ensures |r| <= |s| && r == s[|s| - |r|..]
    ensures forall i :: 0 <= i < |s| - |r| ==> IsWhitespace(s[i])
  {
    if s != "" && IsWhitespace(s[0]) then TrimStart(s[1..]) else s
  }

  function TrimEnd(s: string): (r: string)
    ensures r == "" || !IsWhitespace(r[|r| - 1])
    ensures |r| <= |s| && r == s[..|r|]
    ensures forall i :: |r| <= i < |s| ==> IsWhitespace(s[i])
  {
    if s != "" && IsWhitespace(s[|s| - 1]) then TrimEnd(s[..|s| - 1]) else s
  }

  /** `s.trim()` */
  function Trim(s: string): (r: string)
    ensures r == "" || (!IsWhitespace(r[0]) && !IsWhitespace(r[|r| - 1]))
    ensures r == "" <==> forall i :: 0 <= i < |s| ==> IsWhitespace(s[i])
  {
    var t := TrimStart(s);
    assert t != "" ==> t[0] == s[|s| - |t|];
    TrimEnd(t)
  }

  lemma {:induction false} TrimIdempotent(s: string)
    ensures Trim(Trim(s)) == Trim(s)
  {
    var r := Trim(s);
    assert TrimStart(r) == r && TrimEnd(r) == r;
  }

  // ----- what trimming leaves -----

  ghost predicate Blank(s: string) {
    forall i :: 0 <= i < |s| ==> IsWhitespace(s[i])
  }

  ghost predicate TrimmedAt(s: string, i: nat, j: nat, r: string) {
    && i <= j <= |s| && r == s[i..j]
    && (forall k :: 0 <= k < i ==> IsWhitespace(s[k]))
    && (forall k :: j <= k < |s| ==> IsWhitespace(s[k]))
    && (i < j ==> !IsWhitespace(s[i]) && !IsWhitespace(s[j - 1]))
  }

  /** `r` is `s` without the whitespace at its ends. */
  ghost predicate IsTrimmed(s: string, r: string) {
    exists i: nat, j: nat :: TrimmedAt(s, i, j, r)
  }

  lemma TrimIsTrimmed(s: string)
    ensures IsTrimmed(s, Trim(s))
  {
    var t := TrimStart(s);
    StartThenEnd(s, t, TrimEnd(t), |s| - |t|);
  }

  lemma StartThenEnd(s: string, t: string, r: string, i: nat)
    requires i <= |s| && t == s[i..] && (t == "" || !IsWhitespace(t[0]))
    requires forall k :: 0 <= k < i ==> IsWhitespace(s[k])
    requires |r| <= |t| && r == t[..|r|] && (r == "" || !IsWhitespace(r[|r| - 1]))
    requires forall k :: |r| <= k < |t| ==> IsWhitespace(t[k])
    ensures IsTrimmed(s, r)
  {
    var j := i + |r|;
    assert r == s[i..j];
    forall k | j <= k < |s| ensures IsWhitespace(s[k]) {
      assert s[k] == t[k - i];
    }
    assert TrimmedAt(s, i, j, r);
  }

  lemma TrimmedOnce(s: string, i: nat, j: nat, r: string, i': nat, j': nat, r': string)
    requires TrimmedAt(s, i, j, r) && TrimmedAt(s, i', j', r')
    ensures r == r'
  {
    assert i < j && i' < j' ==> i == i' && j == j';
  }

  lemma TrimIff(s: string, r: string)
    ensures r == Trim(s) <==> IsTrimmed(s, r)
  {
    TrimIsTrimmed(s);
    if IsTrimmed(s, r) {
      var i: nat, j: nat :| TrimmedAt(s, i, j, r);
      var i': nat, j': nat :| TrimmedAt(s, i', j', Trim(s));
      TrimmedOnce(s, i, j, r, i', j', Trim(s));
    }
  }
}
