/** Reading a text resource window by window. */
module Paging {
  import opened Prelude
  import Text

  const DEFAULT_MAX_CHARS: nat := 32 * 1024
  const MAX_MAX_CHARS: nat := 256 * 1024

  /** Parts of a resource; a JSON part is given by its rendering. */
  datatype Part =
    | TextPart(text: string)
    | ResourcePart(content: Option<string>)
    | JsonPart(rendered: string)
    | OtherPart

  datatype Page = Page(
    start: nat, end: nat, returned: nat, total: nat, remaining: nat, next: Option<nat>, preview: string)

  function PartText(p: Part): Option<string> {
    match p
    case TextPart(text) => Some(text)
    case ResourcePart(content) => content
    case JsonPart(rendered) => Some(rendered)
    case OtherPart => None
  }

  function PartTexts(parts: seq<Part>): (r: Option<seq<string>>)
    ensures r.None? <==> exists i :: 0 <= i < |parts| && PartText(parts[i]).None?
    ensures r.Some? ==> |r.value| == |parts| && forall i :: 0 <= i < |parts| ==> PartText(parts[i]) == Some(r.value[i])
  {
    if parts == [] then Some([])
    else
      var rest := PartTexts(parts[1..]);
      if PartText(parts[0]).Some? && rest.Some? then Some([PartText(parts[0]).value] + rest.value) else None
  }

  /** The text of a resource all of whose parts are textual, unless it is blank. */
  function ExtractText(parts: seq<Part>): (r: Option<string>)
    ensures r.Some? ==> r.value != "" && !Text.IsWhitespace(r.value[0]) && !Text.IsWhitespace(r.value[|r.value| - 1])
    ensures r.Some? ==> forall i :: 0 <= i < |parts| ==> PartText(parts[i]).Some?
  {
    match PartTexts(parts)
    case None => None
    case Some(texts) =>
      var text := Text.Trim(Text.Join(texts, "\n\n"));
      if text == "" then None else Some(text)
  }

  /** A text part, a resource with inline text, or JSON; nothing else has a text. */
  ghost predicate IsTextOf(p: Part, text: string) {
    p == TextPart(text) || p == ResourcePart(Some(text)) || p == JsonPart(text)
  }

  ghost predicate AreTexts(parts: seq<Part>, texts: seq<string>) {
    |texts| == |parts| && forall i :: 0 <= i < |parts| ==> IsTextOf(parts[i], texts[i])
  }

  lemma PartTextIff(p: Part, text: string)
    ensures PartText(p) == Some(text) <==> IsTextOf(p, text)
  {
  }

  lemma TextsAre(parts: seq<Part>, texts: seq<string>)
    requires AreTexts(parts, texts)
    ensures PartTexts(parts) == Some(texts)
  {
    forall i | 0 <= i < |parts| ensures PartText(parts[i]) == Some(texts[i]) {
      PartTextIff(parts[i], texts[i]);
    }
    var found := PartTexts(parts);
    assert found.Some?;
    forall i | 0 <= i < |texts| ensures found.value[i] == texts[i] {
      assert PartText(parts[i]) == Some(texts[i]);
    }
    assert found.value == texts;
  }

  /** `text` is the texts with an empty line between each two, without the whitespace at the ends, and not empty. */
  ghost predicate IsShown(texts: seq<string>, text: string) {
    text != "" && Text.IsTrimmed(Text.Join(texts, "\n\n"), text)
  }

  /** There is text exactly if every part is textual and the parts are not all blank; it is their trimmed join. */
  lemma ExtractTextIff(parts: seq<Part>, text: string)
    ensures ExtractText(parts) == Some(text) <==>
            exists texts :: AreTexts(parts, texts) && IsShown(texts, text)
  {
    if texts :| AreTexts(parts, texts) && IsShown(texts, text) {
      TextsAre(parts, texts);
      Text.TrimIff(Text.Join(texts, "\n\n"), text);
    }
    if ExtractText(parts) == Some(text) {
      var texts := PartTexts(parts).value;
      forall i | 0 <= i < |parts| ensures IsTextOf(parts[i], texts[i]) {
        PartTextIff(parts[i], texts[i]);
      }
      assert AreTexts(parts, texts);
      Text.TrimIff(Text.Join(texts, "\n\n"), text);
    }
  }

  function Clamp(requested: Option<nat>): (r: nat)
    ensures requested.None? ==> r == 32768
    ensures requested == Some(0) ==> r == 1
    ensures requested.Some? && 1 <= requested.value <= 262144 ==> r == requested.value
    ensures requested.Some? && requested.value > 262144 ==> r == 262144
  {
    var n := if requested.Some? then requested.value else DEFAULT_MAX_CHARS;
    if n < 1 then 1 else if n > MAX_MAX_CHARS then MAX_MAX_CHARS else n
  }

  function Truncate(value: string, limit: nat): (string, bool) {
    if |value| <= limit then (value, false) else (value[..limit], true)
  }

  /** One read: the window from `startIndex` (0 if absent, clipped to the text). */
  function Read(text: string, startIndex: Option<nat>, maxChars: Option<nat>): Page {
    var total := |text|;
    var asked := if startIndex.Some? then startIndex.value else 0;
    var start := if asked < total then asked else total;
    var (preview, truncated) := Truncate(text[start..], Clamp(maxChars));
    var end := start + |preview|;
    var remaining := if end <= total then total - end else 0;
    Page(start, end, |preview|, total, remaining, if truncated then Some(end) else None, preview)
  }

  /** Every window lies in the text, accounts for the rest, and has a cursor exactly if there is a rest. */
  lemma PageFacts(text: string, startIndex: Option<nat>, maxChars: Option<nat>)
    ensures var p := Read(text, startIndex, maxChars);
            && (startIndex.None? ==> p.start == 0)
            && (startIndex.Some? && startIndex.value <= |text| ==> p.start == startIndex.value)
            && (startIndex.Some? && startIndex.value > |text| ==> p.start == |text|)
            && p.start <= p.end <= p.total == |text|
            && p.remaining == p.total - p.end && p.returned == p.end - p.start <= Clamp(maxChars)
            && p.preview == text[p.start..p.end]
            && (p.next.Some? <==> p.remaining > 0)
            && (p.next.Some? ==> p.next.value == p.end && p.returned == Clamp(maxChars))
  {
    var p := Read(text, startIndex, maxChars);
    assert text[p.start..][..|p.preview|] == text[p.start..p.end];
  }

  lemma Window(text: string, start: nat, size: Option<nat>, p: Page)
    requires start <= |text| && p == Read(text, Some(start), size)
    ensures p.start == start <= p.end <= |text| && p.preview == text[start..p.end]
    ensures p.next == (if p.end < |text| then Some(p.end) else None)
    ensures p.end == (if start + Clamp(size) < |text| then start + Clamp(size) else |text|)
  {
    PageFacts(text, Some(start), size);
  }

  // ----- following the cursor -----

  /**
   What a client reads that starts at `start` and follows the cursor to the end, asking
   for `sizes(k)` characters on its `k`-th read.
   */
  function Follow(text: string, start: nat, sizes: nat -> Option<nat>, k: nat): seq<Page>
    requires start <= |text|
    decreases |text| - start
  {
    var page := Read(text, Some(start), sizes(k));
    Window(text, start, sizes(k), page);
    if page.next.None? then [page] else [page] + Follow(text, page.next.value, sizes, k + 1)
  }

  function Previews(pages: seq<Page>): string {
    if pages == [] then "" else pages[0].preview + Previews(pages[1..])
  }

  lemma PreviewsCons(page: Page, rest: seq<Page>)
    ensures Previews([page] + rest) == page.preview + Previews(rest)
  {
    assert ([page] + rest)[1..] == rest;
  }

  lemma Touch(text: string, start: nat, end: nat)
    requires start <= end <= |text|
    ensures text[start..end] + text[end..] == text[start..]
  {
  }

  /** Whatever sizes are asked for, even zero or beyond the cap, the previews make up the text. */
  lemma {:induction false} FollowCovers(text: string, start: nat, sizes: nat -> Option<nat>, k: nat)
    requires start <= |text|
    ensures Previews(Follow(text, start, sizes, k)) == text[start..]
    decreases |text| - start
  {
    var page := Read(text, Some(start), sizes(k));
    Window(text, start, sizes(k), page);
    Touch(text, start, page.end);
    if page.next.None? {
      assert Follow(text, start, sizes, k) == [page] + [];
      PreviewsCons(page, []);
    } else {
      FollowCovers(text, page.end, sizes, k + 1);
      PreviewsCons(page, Follow(text, page.end, sizes, k + 1));
    }
  }

  /** Neighbouring windows touch, the run starts at `start` and only its last page has no cursor. */
  lemma {:induction false} FollowLinks(text: string, start: nat, sizes: nat -> Option<nat>, k: nat, i: nat)
    requires start <= |text| && i < |Follow(text, start, sizes, k)|
    ensures var pages := Follow(text, start, sizes, k);
            && pages[0].start == start
            && (i + 1 < |pages| ==> pages[i].next == Some(pages[i + 1].start) && pages[i].end == pages[i + 1].start)
            && (i + 1 == |pages| ==> pages[i].next.None? && pages[i].end == |text|)
    decreases |text| - start
  {
    var page := Read(text, Some(start), sizes(k));
    Window(text, start, sizes(k), page);
    if page.next.Some? {
      var rest := Follow(text, page.end, sizes, k + 1);
      if i > 0 {
        FollowLinks(text, page.end, sizes, k + 1, i - 1);
      } else {
        FollowLinks(text, page.end, sizes, k + 1, 0);
      }
    }
  }

  // ----- counting reads -----

  lemma OneMorePage(n: nat, m: nat)
    ensures n * m == (n - 1) * m + m && (n + 1) * m == n * m + m
  {
  }

  lemma {:induction false} FollowCount(text: string, start: nat, sizes: nat -> Option<nat>, k: nat, m: nat)
    requires start < |text| && forall j :: Clamp(sizes(j)) == m
    ensures var n := |Follow(text, start, sizes, k)|;
            n >= 1 && (n - 1) * m < |text| - start <= n * m
    decreases |text| - start
  {
    var page := Read(text, Some(start), sizes(k));
    Window(text, start, sizes(k), page);
    if page.next.None? {
      assert |Follow(text, start, sizes, k)| == 1;
    } else {
      FollowCount(text, page.end, sizes, k + 1, m);
      var n := |Follow(text, page.end, sizes, k + 1)|;
      assert |Follow(text, start, sizes, k)| == n + 1;
      assert page.end == start + m;
      OneMorePage(n, m);
    }
  }

  lemma CeilingDivision(total: nat, m: nat, n: nat)
    requires n >= 1 && m >= 1 && (n - 1) * m < total <= n * m
    ensures (total + m - 1) / m == n
  {
    var r := total + m - 1 - n * m;
    assert total + m - 1 == n * m + r;
    assert (n - 1) * m == n * m - m;
    assert 0 <= r < m;
    DivideSum(n, m, r);
  }

  lemma {:induction false} MultiplesApart(a: nat, b: nat, m: nat)
    ensures a < b ==> a * m + m <= b * m
    decreases b
  {
    if a < b {
      MultiplesApart(a, b - 1, m);
      assert b * m == (b - 1) * m + m;
    }
  }

  lemma DivideSum(n: nat, m: nat, r: nat)
    requires r < m
    ensures (n * m + r) / m == n
  {
    var q := (n * m + r) / m;
    assert n * m + r == q * m + (n * m + r) % m;
    MultiplesApart(q, n, m);
    MultiplesApart(n, q, m);
  }

  /** With one effective size throughout, a text takes exactly its length over that size, rounded up. */
  lemma ReadsNeeded(text: string, sizes: nat -> Option<nat>, m: nat)
    requires text != "" && m >= 1 && forall j :: Clamp(sizes(j)) == m
    ensures |Follow(text, 0, sizes, 0)| == (|text| + m - 1) / m
  {
    FollowCount(text, 0, sizes, 0, m);
    CeilingDivision(|text|, m, |Follow(text, 0, sizes, 0)|);
  }
}
