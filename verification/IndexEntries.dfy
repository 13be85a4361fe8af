/** The lines of the generated memory index: fixed headings, one line per durable memory, a summary. */
module IndexEntries {
  import opened Prelude
  import opened MemoryIndex
  import Decimal
  import Text

  const MAX_HOOK_CHARS: nat := 120
  const DASH: char := '\U{2014}'

  const USER_HOOK: Phrase := "user profile and collaboration context"
  const FEEDBACK_START: Phrase := "validated guidance about "
  const FEEDBACK_END: Phrase := "how to approach future work"
  const PROJECT_START: Phrase := "project context that is not "
  const PROJECT_END: Phrase := "derivable from the code"
  const REFERENCE_HOOK: Phrase := "pointer to external context worth checking"
  const PROCEDURAL_HOOK: Phrase := "durable procedural guidance"
  const SEMANTIC_HOOK: Phrase := "durable project memory"
  const EPISODIC_HOOK: Phrase := "runtime-derived episodic note"
  const COORDINATION_HOOK: Phrase := "coordination state shared across agents"
  const WORKING_HOOK: Phrase := "active working note for the current task"
  const TITLE: Phrase := "# Managed Memory Index"
  const PURPOSE_START: Phrase := "This file is generated from `.nano"
  const PURPOSE_MIDDLE: Phrase := "claw/memory/` and should stay as a "
  const PURPOSE_END: Phrase := "concise map of durable memories."
  const DURABLE_HEADING: Phrase := "## Durable Memory"
  const NONE_YET: Phrase := "- No durable memories yet."
  const RUNTIME_HEADING: Phrase := "## Runtime Memory Summary"

  datatype Scope = Procedural | Semantic | Episodic | Working

  datatype MemoryType = User | Feedback | Project | Reference

  datatype Entry = Entry(
    path: string, title: string, description: Option<string>, kind: Option<MemoryType>,
    scope: Scope, layer: string, updatedAt: Option<nat>)

  // ----- hooks -----

  function EntryHook(e: Entry): string {
    if e.description.Some? then e.description.value
    else if e.kind.Some? then KindHook(e.kind.value)
    else ScopeHook(e.scope, e.layer)
  }

  function KindHook(kind: MemoryType): string {
    match kind
    case User => USER_HOOK
    case Feedback => FEEDBACK_START + FEEDBACK_END
    case Project => PROJECT_START + PROJECT_END
    case Reference => REFERENCE_HOOK
  }

  function ScopeHook(scope: Scope, layer: string): string {
    match scope
    case Procedural => PROCEDURAL_HOOK
    case Semantic => SEMANTIC_HOOK
    case Episodic => EPISODIC_HOOK
    case Working => if "coordination-" <= layer then COORDINATION_HOOK else WORKING_HOOK
  }

  function TruncateHook(hook: string, maxChars: nat): string {
    var trimmed := Text.Trim(hook);
    if |trimmed| <= maxChars then trimmed
    else trimmed[..if maxChars > 0 then maxChars - 1 else 0] + [ELLIPSIS]
  }

  /** A hook keeps its start, never exceeds its cap, and holds no character of its own but the ellipsis. */
  lemma HookFacts(hook: string, maxChars: nat)
    ensures var r := TruncateHook(hook, maxChars);
            && |r| <= Max(maxChars, 1)
            && (|Text.Trim(hook)| <= maxChars ==> r == Text.Trim(hook))
            && (|Text.Trim(hook)| > maxChars ==>
                  |r| == Max(maxChars, 1) && r[|r| - 1] == ELLIPSIS && r[..|r| - 1] <= Text.Trim(hook))
            && ('\n' !in Text.Trim(hook) ==> '\n' !in r)
  {
    CutFacts(Text.Trim(hook), maxChars);
  }

  lemma CutFacts(trimmed: string, maxChars: nat)
    ensures |trimmed| > maxChars ==>
              var n := if maxChars > 0 then maxChars - 1 else 0;
              var r := trimmed[..n] + [ELLIPSIS];
              |r| == n + 1 && r[n] == ELLIPSIS && r[..n] == trimmed[..n] && ('\n' !in trimmed ==> '\n' !in r)
  {
  }

  // ----- lines -----

  const MEMORY_DIR: Phrase := ".nanoclaw/memory/"

  function Link(path: string): string { WithoutPrefix(MEMORY_DIR, path) }

  function WithoutPrefix(prefix: string, path: string): string {
    if prefix <= path then path[|prefix|..] else path
  }

  lemma PrefixBreaks(prefix: string, path: string)
    requires '\n' !in prefix
    ensures Text.Breaks(WithoutPrefix(prefix, path)) == Text.Breaks(path)
  {
    if prefix <= path {
      assert path == prefix + path[|prefix|..];
      Text.BreaksConcat(prefix, path[|prefix|..]);
    }
  }

  function Hook(e: Entry): string { TruncateHook(EntryHook(e), MAX_HOOK_CHARS) }

  /** A Markdown link with its hook. */
  function Linked(title: string, link: string, hook: string): string {
    "[" + (title + ("](" + (link + ([')', ' ', DASH, ' '] + hook))))
  }

  /** The line breaks of a link are those of its title, its target and its hook. */
  lemma LinkedBreaks(title: string, link: string, hook: string)
    ensures Text.Breaks(Linked(title, link, hook)) == Text.Breaks(title) + Text.Breaks(link) + Text.Breaks(hook)
    ensures |Linked(title, link, hook)| == |title| + |link| + |hook| + 7
  {
    var separator := [')', ' ', DASH, ' '];
    var last := separator + hook;
    var target := link + last;
    Text.BreaksConcat(separator, hook);
    Text.BreaksConcat(link, last);
    Text.BreaksConcat("](", target);
    Text.BreaksConcat(title, "](" + target);
    Text.BreaksConcat("[", title + ("](" + target));
  }

  function LinkedHook(e: Entry): string { Linked(e.title, Link(e.path), Hook(e)) }

  function DurableLine(e: Entry): string { "- " + LinkedHook(e) }

  function SummaryHead(name: string, count: string): string {
    "- " + (name + (": " + (count + " notes, latest ")))
  }

  function SummaryTail(kind: string, time: string): string {
    " (" + (kind + (", updated " + (time + ")")))
  }

  lemma HeadBreaks(name: string, count: string)
    ensures Text.Breaks(SummaryHead(name, count)) == Text.Breaks(name) + Text.Breaks(count)
  {
    var last: Phrase := " notes, latest ";
    Text.BreaksConcat(count, last);
    Text.BreaksConcat(": ", count + last);
    Text.BreaksConcat(name, ": " + (count + last));
    Text.BreaksConcat("- ", name + (": " + (count + last)));
  }

  lemma TailBreaks(kind: string, time: string)
    ensures Text.Breaks(SummaryTail(kind, time)) == Text.Breaks(kind) + Text.Breaks(time)
  {
    var middle: Phrase := ", updated ";
    Text.BreaksConcat(time, ")");
    Text.BreaksConcat(middle, time + ")");
    Text.BreaksConcat(kind, middle + (time + ")"));
    Text.BreaksConcat(" (", kind + (middle + (time + ")")));
  }

  predicate IsDurable(e: Entry) {
    (e.scope.Procedural? || e.scope.Semantic?) && e.layer != "auto-memory-index"
  }

  function Durable(entries: seq<Entry>): (r: seq<Entry>)
    ensures forall e :: e in r <==> e in entries && IsDurable(e)
  {
    if entries == [] then []
    else
      assert entries == [entries[0]] + entries[1..];
      (if IsDurable(entries[0]) then [entries[0]] else []) + Durable(entries[1..])
  }

  function Scoped(entries: seq<Entry>, scope: Scope): (r: seq<Entry>)
    ensures forall e :: e in r <==> e in entries && e.scope == scope
  {
    if entries == [] then []
    else
      assert entries == [entries[0]] + entries[1..];
      (if entries[0].scope == scope then [entries[0]] else []) + Scoped(entries[1..], scope)
  }

  function Updated(e: Entry): nat { if e.updatedAt.Some? then e.updatedAt.value else 0 }

  /** The entry updated last; of several, the one listed last. */
  function Latest(entries: seq<Entry>): (r: Entry)
    requires entries != []
    ensures r in entries && forall e :: e in entries ==> Updated(e) <= Updated(r)
  {
    var n := |entries| - 1;
    assert entries == entries[..n] + [entries[n]];
    if n == 0 then entries[0]
    else
      var best := Latest(entries[..n]);
      if Updated(best) <= Updated(entries[n]) then entries[n] else best
  }

  /** Entry `i` is not older than those before it and newer than those after it. */
  ghost predicate IsLastBest(entries: seq<Entry>, i: nat) {
    && i < |entries|
    && (forall j :: 0 <= j < i ==> Updated(entries[j]) <= Updated(entries[i]))
    && (forall j :: i < j < |entries| ==> Updated(entries[j]) < Updated(entries[i]))
  }

  lemma LastBestGrows(entries: seq<Entry>, i: nat)
    requires |entries| > 1 && IsLastBest(entries[..|entries| - 1], i)
    ensures var n := |entries| - 1;
            IsLastBest(entries, if Updated(entries[i]) <= Updated(entries[n]) then n else i)
  {
    var front := entries[..|entries| - 1];
    assert forall j :: 0 <= j < |front| ==> front[j] == entries[j];
  }

  /** Of several entries updated at the same time the last one counts. */
  lemma {:induction false} LatestIsLast(entries: seq<Entry>) returns (i: nat)
    requires entries != []
    ensures IsLastBest(entries, i) && Latest(entries) == entries[i]
  {
    var n := |entries| - 1;
    if n == 0 {
      i := 0;
    } else {
      i := LatestIsLast(entries[..n]);
      LastBestGrows(entries, i);
      i := if Updated(entries[i]) <= Updated(entries[n]) then n else i;
    }
  }

  function KindName(kind: Option<MemoryType>): Phrase {
    match kind
    case None => "runtime"
    case Some(User) => "user"
    case Some(Feedback) => "feedback"
    case Some(Project) => "project"
    case Some(Reference) => "reference"
  }

  function NoNotes(name: string): string { "- " + (name + ": 0 notes") }

  /** `clock` prints a time of last change. */
  function SummaryLine(entries: seq<Entry>, scope: Scope, name: string, clock: Option<nat> -> string): string {
    var scoped := Scoped(entries, scope);
    if scoped == [] then NoNotes(name)
    else
      var latest := Latest(scoped);
      SummaryHead(name, Decimal.Print(|scoped|)) + LinkedHook(latest)
      + SummaryTail(KindName(latest.kind), clock(latest.updatedAt))
  }

  function Opening(): seq<string> {
    [TITLE, "", PURPOSE_START + PURPOSE_MIDDLE + PURPOSE_END, "", DURABLE_HEADING, ""]
  }

  function HookLines(durable: seq<Entry>): (r: seq<string>)
    ensures |r| == |durable|
  {
    if durable == [] then []
    else HookLines(durable[..|durable| - 1]) + [DurableLine(durable[|durable| - 1])]
  }

  function DurableLines(durable: seq<Entry>): seq<string> {
    if durable == [] then [NONE_YET] else HookLines(durable)
  }

  function Closing(episodic: string, working: string): seq<string> {
    ["", RUNTIME_HEADING, "", episodic, working, ""]
  }

  function Ending(entries: seq<Entry>, clock: Option<nat> -> string): seq<string> {
    Closing(SummaryLine(entries, Episodic, "Episodic", clock), SummaryLine(entries, Working, "Working", clock))
  }

  function RenderedLines(entries: seq<Entry>, clock: Option<nat> -> string): seq<string> {
    Opening() + DurableLines(Durable(entries)) + Ending(entries, clock)
  }

  method RenderAutoMemoryIndex(entries: seq<Entry>, clock: Option<nat> -> string) returns (text: string)
    ensures IsIndex(OverflowNote(), RenderedLines(entries, clock), text)
  {
    var lines := Opening();
    var listed := PushDurable(Durable(entries));
    lines := lines + listed + Ending(entries, clock);
    text := FinalizeIndex(lines);
  }

  method PushDurable(durable: seq<Entry>) returns (lines: seq<string>)
    ensures lines == DurableLines(durable)
  {
    if durable == [] {
      lines := [NONE_YET];
    } else {
      lines := PushHooks(durable);
    }
  }

  lemma HookLinesStep(durable: seq<Entry>, i: nat)
    requires i < |durable|
    ensures HookLines(durable[..i + 1]) == HookLines(durable[..i]) + [DurableLine(durable[i])]
  {
    assert durable[..i + 1][..i] == durable[..i];
  }

  method PushHooks(durable: seq<Entry>) returns (lines: seq<string>)
    ensures lines == HookLines(durable)
  {
    lines := [];
    for i := 0 to |durable|
      invariant lines == HookLines(durable[..i])
    {
      HookLinesStep(durable, i);
      lines := lines + [DurableLine(durable[i])];
    }
    assert durable[..|durable|] == durable;
  }

  // ----- what the index takes up -----

  function EntryBreaks(e: Entry): nat {
    Text.Breaks(e.title) + Text.Breaks(e.path) + Text.Breaks(Hook(e))
  }

  function DurableBreaks(durable: seq<Entry>): nat {
    if durable == [] then 0
    else DurableBreaks(durable[..|durable| - 1]) + EntryBreaks(durable[|durable| - 1])
  }

  function SummaryBreaks(entries: seq<Entry>, scope: Scope, clock: Option<nat> -> string): nat {
    var scoped := Scoped(entries, scope);
    if scoped == [] then 0 else EntryBreaks(Latest(scoped)) + Text.Breaks(clock(Latest(scoped).updatedAt))
  }

  /** Twelve fixed lines, one for each durable memory, and one for each line break in what is printed of an entry. */
  function IndexTakes(entries: seq<Entry>, clock: Option<nat> -> string): nat {
    12 + Max(|Durable(entries)|, 1) + DurableBreaks(Durable(entries))
    + SummaryBreaks(entries, Episodic, clock) + SummaryBreaks(entries, Working, clock)
  }

  lemma LinkedHookBreaks(e: Entry)
    ensures Text.Breaks(LinkedHook(e)) == EntryBreaks(e)
    ensures Text.Breaks(DurableLine(e)) == EntryBreaks(e)
  {
    PrefixBreaks(MEMORY_DIR, e.path);
    LinkedBreaks(e.title, Link(e.path), Hook(e));
    Text.BreaksConcat("- ", LinkedHook(e));
  }

  lemma NoNotesBreaks(name: string)
    ensures Text.Breaks(NoNotes(name)) == Text.Breaks(name)
  {
    Text.BreaksConcat(name, ": 0 notes");
    Text.BreaksConcat("- ", name + ": 0 notes");
  }

  lemma SummaryLineBreaks(entries: seq<Entry>, scope: Scope, name: string, clock: Option<nat> -> string)
    requires '\n' !in name
    ensures Text.Breaks(SummaryLine(entries, scope, name, clock)) == SummaryBreaks(entries, scope, clock)
  {
    var scoped := Scoped(entries, scope);
    NoNotesBreaks(name);
    if scoped != [] {
      var latest := Latest(scoped);
      var head := SummaryHead(name, Decimal.Print(|scoped|));
      var tail := SummaryTail(KindName(latest.kind), clock(latest.updatedAt));
      HeadBreaks(name, Decimal.Print(|scoped|));
      TailBreaks(KindName(latest.kind), clock(latest.updatedAt));
      LinkedHookBreaks(latest);
      Text.BreaksConcat(head + LinkedHook(latest), tail);
      Text.BreaksConcat(head, LinkedHook(latest));
    }
  }

  lemma {:induction false} HookLinesBreaks(durable: seq<Entry>)
    ensures TotalBreaks(HookLines(durable)) == DurableBreaks(durable)
  {
    if durable != [] {
      var front, last := durable[..|durable| - 1], durable[|durable| - 1];
      HookLinesBreaks(front);
      LinkedHookBreaks(last);
      TotalSnoc(HookLines(front), DurableLine(last));
    }
  }

  lemma DurableLinesTake(durable: seq<Entry>)
    ensures |DurableLines(durable)| == Max(|durable|, 1) && TotalBreaks(DurableLines(durable)) == DurableBreaks(durable)
  {
    HookLinesBreaks(durable);
    assert NewlineFree([NONE_YET]);
  }

  lemma OpeningTakes()
    ensures |Opening()| == 6 && TotalBreaks(Opening()) == 0 && NoLonger(Opening(), 220)
  {
    PhrasesJoin(PURPOSE_START, PURPOSE_MIDDLE, PURPOSE_END);
    SixLines(TITLE, "", PURPOSE_START + PURPOSE_MIDDLE + PURPOSE_END, "", DURABLE_HEADING, "");
  }

  lemma ClosingTakes(episodic: string, working: string)
    ensures |Closing(episodic, working)| == 6
    ensures TotalBreaks(Closing(episodic, working)) == Text.Breaks(episodic) + Text.Breaks(working)
    ensures |episodic| <= 220 && |working| <= 220 ==> NoLonger(Closing(episodic, working), 220)
  {
    SixLines("", RUNTIME_HEADING, "", episodic, working, "");
  }

  lemma SixLines(a: string, b: string, c: string, d: string, e: string, f: string)
    ensures TotalBreaks([a, b, c, d, e, f]) == Text.Breaks(a) + Text.Breaks(b) + Text.Breaks(c)
                                              + Text.Breaks(d) + Text.Breaks(e) + Text.Breaks(f)
    ensures (|a| <= 220 && |b| <= 220 && |c| <= 220 && |d| <= 220 && |e| <= 220 && |f| <= 220)
            ==> NoLonger([a, b, c, d, e, f], 220)
  {
    TotalThree(a, b, c);
    TotalThree(d, e, f);
    TotalConcat([a, b, c], [d, e, f]);
    assert [a, b, c] + [d, e, f] == [a, b, c, d, e, f];
  }

  lemma TotalTwo(a: string, b: string)
    ensures TotalBreaks([a, b]) == Text.Breaks(a) + Text.Breaks(b)
  {
    TotalSnoc([], a);
    TotalSnoc([a], b);
    assert [] + [a] == [a] && [a] + [b] == [a, b];
  }

  lemma TotalThree(a: string, b: string, c: string)
    ensures TotalBreaks([a, b, c]) == Text.Breaks(a) + Text.Breaks(b) + Text.Breaks(c)
  {
    TotalTwo(a, b);
    TotalSnoc([a, b], c);
    assert [a, b] + [c] == [a, b, c];
  }

  lemma TotalBetween(a: seq<string>, b: seq<string>, c: seq<string>)
    ensures TotalBreaks(a + b + c) == TotalBreaks(a) + TotalBreaks(b) + TotalBreaks(c)
  {
    TotalConcat(a, b);
    TotalConcat(a + b, c);
  }

  lemma EndingTakes(entries: seq<Entry>, clock: Option<nat> -> string)
    ensures |Ending(entries, clock)| == 6
    ensures TotalBreaks(Ending(entries, clock))
            == SummaryBreaks(entries, Episodic, clock) + SummaryBreaks(entries, Working, clock)
  {
    SummaryLineBreaks(entries, Episodic, "Episodic", clock);
    SummaryLineBreaks(entries, Working, "Working", clock);
    ClosingTakes(SummaryLine(entries, Episodic, "Episodic", clock), SummaryLine(entries, Working, "Working", clock));
  }

  lemma RenderedTakes(entries: seq<Entry>, clock: Option<nat> -> string)
    ensures var lines := RenderedLines(entries, clock);
            |lines| + TotalBreaks(lines) == IndexTakes(entries, clock) && |lines| == 12 + Max(|Durable(entries)|, 1)
  {
    OpeningTakes();
    DurableLinesTake(Durable(entries));
    EndingTakes(entries, clock);
    TotalBetween(Opening(), DurableLines(Durable(entries)), Ending(entries, clock));
  }

  /**
   The index of any memories, when nothing is cut off: the lines it shows, read off the
   entries, and so exactly when it keeps the line budget.
   */
  lemma RenderedBudgetIff(entries: seq<Entry>, clock: Option<nat> -> string, lines: seq<string>, text: string)
    requires lines == RenderedLines(entries, clock) && FitsWhole(lines) && IsIndex(OverflowNote(), lines, text)
    ensures |SeenLines(text)| == IndexTakes(entries, clock)
    ensures |SeenLines(text)| <= 200 <==> IndexTakes(entries, clock) <= 200
  {
    RenderedTakes(entries, clock);
    WholeTakes(OverflowNote(), lines, text, IndexTakes(entries, clock));
  }

  // ----- entries without line breaks -----

  predicate OneLine(e: Entry) {
    && '\n' !in e.title && '\n' !in e.path
    && (e.description.Some? ==> '\n' !in Text.Trim(e.description.value))
  }

  ghost predicate OneLineClock(clock: Option<nat> -> string) {
    forall t :: '\n' !in clock(t)
  }

  lemma {:induction false} TrimmedPart(s: string)
    requires '\n' !in s
    ensures '\n' !in Text.Trim(s)
  {
    var t := Text.TrimStart(s);
    assert '\n' !in t by {
      forall i | 0 <= i < |t| ensures t[i] != '\n' { assert t[i] == s[|s| - |t| + i]; }
    }
    forall i | 0 <= i < |Text.Trim(s)| ensures Text.Trim(s)[i] != '\n' { assert Text.Trim(s)[i] == t[i]; }
  }

  lemma FixedHook(e: Entry)
    requires e.description.None?
    ensures '\n' !in EntryHook(e)
  {
    TwoPhrases(FEEDBACK_START, FEEDBACK_END);
    TwoPhrases(PROJECT_START, PROJECT_END);
  }

  lemma TwoPhrases(a: Phrase, b: Phrase)
    ensures '\n' !in a + b
  {
  }

  lemma OneLineBreaks(e: Entry)
    requires OneLine(e)
    ensures EntryBreaks(e) == 0
  {
    HookFacts(EntryHook(e), MAX_HOOK_CHARS);
    if e.description.None? {
      FixedHook(e);
      TrimmedPart(EntryHook(e));
    }
  }

  lemma {:induction false} DurableOneLine(durable: seq<Entry>)
    requires forall e :: e in durable ==> OneLine(e)
    ensures DurableBreaks(durable) == 0
  {
    if durable != [] {
      DurableOneLine(durable[..|durable| - 1]);
      assert durable[|durable| - 1] in durable;
      OneLineBreaks(durable[|durable| - 1]);
    }
  }

  lemma SummaryOneLine(entries: seq<Entry>, scope: Scope, clock: Option<nat> -> string)
    requires (forall e :: e in entries ==> OneLine(e)) && OneLineClock(clock)
    ensures SummaryBreaks(entries, scope, clock) == 0
  {
    var scoped := Scoped(entries, scope);
    if scoped != [] {
      OneLineBreaks(Latest(scoped));
    }
  }

  /** Any number of memories meets both budgets, as long as titles, paths and descriptions are single lines. */
  lemma RenderedWithinBudgets(entries: seq<Entry>, clock: Option<nat> -> string, text: string)
    requires IsIndex(OverflowNote(), RenderedLines(entries, clock), text)
    requires (forall e :: e in entries ==> OneLine(e)) && OneLineClock(clock)
    ensures Text.Bytes(text) <= 25_000 && |SeenLines(text)| <= 200
  {
    RenderedTakes(entries, clock);
    DurableOneLine(Durable(entries));
    SummaryOneLine(entries, Episodic, clock);
    SummaryOneLine(entries, Working, clock);
    WithinBudgets(RenderedLines(entries, clock), text);
  }

  // ----- entries with line breaks -----

  function Newlines(n: nat): string { seq(n, _ => '\n') }

  lemma {:induction false} NewlinesBreak(n: nat)
    ensures Text.Breaks(Newlines(n)) == n
  {
    if n > 0 {
      assert Newlines(n)[1..] == Newlines(n - 1);
      NewlinesBreak(n - 1);
    }
  }

  /** A description that passes uncut, with 118 line breaks. */
  function TallHook(): string { ['x'] + Newlines(118) + ['y'] }

  lemma TrimKeeps(text: string)
    requires text != "" && !Text.IsWhitespace(text[0]) && !Text.IsWhitespace(text[|text| - 1])
    ensures Text.Trim(text) == text
  {
  }

  lemma TallBreaks(n: nat)
    ensures Text.Breaks(['x'] + Newlines(n) + ['y']) == n
  {
    NewlinesBreak(n);
    Text.BreaksConcat(['x'], Newlines(n));
    Text.BreaksConcat(['x'] + Newlines(n), ['y']);
  }

  lemma TallHookFacts()
    ensures TruncateHook(TallHook(), MAX_HOOK_CHARS) == TallHook()
    ensures |TallHook()| == 120 && Text.Breaks(TallHook()) == 118
  {
    TallBreaks(118);
    TrimKeeps(TallHook());
  }

  const SEMANTIC_DIR: Phrase := ".nanoclaw/memory/semantic/"
  const SEMANTIC_LAYER: Phrase := "managed-semantic"

  function TallEntry(title: string): Entry {
    Entry(SEMANTIC_DIR + title + ".md", title, Some(TallHook()), None, Semantic, SEMANTIC_LAYER, Some(0))
  }

  lemma PathFacts(dir: Phrase, title: string, extension: Phrase)
    ensures Text.Breaks(dir + title + extension) == Text.Breaks(title)
    ensures |WithoutPrefix(MEMORY_DIR, dir + title + extension)| <= |title| + 84
  {
    Text.BreaksConcat(dir + title, extension);
    Text.BreaksConcat(dir, title);
  }

  ghost predicate HasBreaks(e: Entry, n: nat) {
    IsDurable(e) && EntryBreaks(e) == n && |DurableLine(e)| <= 220
  }

  /** A durable memory whose line is short in characters and tall on the screen. */
  ghost predicate Tall(e: Entry) {
    e.scope == Semantic && exists n: nat :: n > 93 && HasBreaks(e, n)
  }

  lemma TallWith(e: Entry)
    requires e.description == Some(TallHook()) && |e.title| == 1 && '\n' !in e.title
    requires Text.Breaks(e.path) == 0 && |Link(e.path)| <= 85
    ensures EntryBreaks(e) == 118 && |DurableLine(e)| <= 220
  {
    TallHookShown(e);
    TallLine(e.title, Link(e.path), Hook(e));
  }

  lemma TallHookShown(e: Entry)
    requires e.description == Some(TallHook())
    ensures Hook(e) == TallHook() && |Hook(e)| == 120 && Text.Breaks(Hook(e)) == 118
  {
    TallHookFacts();
  }

  lemma TallLine(title: string, link: string, hook: string)
    requires |title| == 1 && |link| <= 85 && |hook| == 120
    ensures |"- " + Linked(title, link, hook)| <= 220
  {
    LinkedBreaks(title, link, hook);
  }

  lemma TallEntryIsTall(title: string)
    requires |title| == 1 && title != "\n"
    ensures Tall(TallEntry(title))
  {
    assert title == [title[0]];
    PathFacts(SEMANTIC_DIR, title, ".md");
    TallWith(TallEntry(title));
    LayerIsDurable(TallEntry(title));
    assert HasBreaks(TallEntry(title), 118);
  }

  lemma LayerIsDurable(e: Entry)
    requires e.scope == Semantic && e.layer == SEMANTIC_LAYER
    ensures IsDurable(e)
  {
    assert SEMANTIC_LAYER[0] != "auto-memory-index"[0];
  }

  lemma DurablePair(x: Entry, y: Entry)
    requires IsDurable(x) && IsDurable(y)
    ensures Durable([x, y]) == [x, y]
  {
    assert [y][1..] == [] && Durable([]) == [];
    assert Durable([y]) == [y] + [];
    assert [x, y][1..] == [y];
    assert Durable([x, y]) == [x] + [y];
  }

  lemma BreaksSnoc(front: seq<Entry>, last: Entry)
    ensures DurableBreaks(front + [last]) == DurableBreaks(front) + EntryBreaks(last)
  {
    assert (front + [last])[..|front|] == front;
  }

  lemma PairBreaks(x: Entry, y: Entry)
    ensures DurableBreaks([x, y]) == EntryBreaks(x) + EntryBreaks(y)
  {
    BreaksSnoc([], x);
    BreaksSnoc([x], y);
    assert [] + [x] == [x] && [x] + [y] == [x, y];
  }

  lemma LinesSnoc(front: seq<Entry>, last: Entry, lines: seq<string>)
    requires HookLines(front) == lines
    ensures HookLines(front + [last]) == lines + [DurableLine(last)]
  {
    assert (front + [last])[..|front|] == front;
  }

  lemma PairLines(x: Entry, y: Entry)
    ensures HookLines([x, y]) == [DurableLine(x)] + [DurableLine(y)]
  {
    LinesSnoc([], x, []);
    assert [] + [x] == [x] && [] + [DurableLine(x)] == [DurableLine(x)];
    LinesSnoc([x], y, [DurableLine(x)]);
    assert [x] + [y] == [x, y];
  }

  lemma {:induction false} NoneScoped(entries: seq<Entry>, scope: Scope)
    requires forall e :: e in entries ==> e.scope != scope
    ensures Scoped(entries, scope) == []
  {
    if entries != [] {
      NoneScoped(entries[1..], scope);
    }
  }

  ghost predicate NoLonger(lines: seq<string>, m: nat) {
    forall i :: 0 <= i < |lines| ==> |lines[i]| <= m
  }

  lemma {:induction false} SizeBound(lines: seq<string>, k: nat, m: nat)
    requires k <= |lines| && NoLonger(lines, m)
    ensures Size(lines, k) <= k * (4 * m + 1)
    decreases k
  {
    if k > 0 {
      SizeBound(lines, k - 1, m);
      assert k * (4 * m + 1) == (k - 1) * (4 * m + 1) + (4 * m + 1);
    }
  }

  ghost predicate CountedShort(lines: seq<string>, n: nat, m: nat) {
    |lines| == n && NoLonger(lines, m)
  }

  /** `n` lines of at most 220 characters. */
  ghost predicate Short(lines: seq<string>, n: nat) {
    exists m: nat :: m <= 220 && CountedShort(lines, n, m)
  }

  lemma ShortFits(a: seq<string>, b: seq<string>, c: seq<string>)
    requires Short(a, 6) && Short(b, 2) && Short(c, 6)
    ensures FitsWhole(a + b + c)
  {
    var lines := a + b + c;
    SizeBound(lines, 14, 220);
    JoinedSize(lines, 14);
    assert lines[..14] == lines;
  }

  lemma NoNotesShort(entries: seq<Entry>, clock: Option<nat> -> string, scope: Scope, name: string)
    requires (forall e :: e in entries ==> e.scope != scope) && |name| <= 8
    ensures SummaryBreaks(entries, scope, clock) == 0 && |SummaryLine(entries, scope, name, clock)| <= 220
  {
    NoneScoped(entries, scope);
  }

  lemma TwoShort(x: string, y: string)
    requires |x| <= 220 && |y| <= 220
    ensures NoLonger([x] + [y], 220)
  {
  }

  lemma TallLinesShort(x: Entry, y: Entry)
    requires Tall(x) && Tall(y)
    ensures DurableLines(Durable([x, y])) == HookLines([x, y]) && Short(HookLines([x, y]), 2)
  {
    DurablePair(x, y);
    PairLines(x, y);
    TwoShort(DurableLine(x), DurableLine(y));
    assert CountedShort(HookLines([x, y]), 2, 220);
  }

  lemma EndingShort(entries: seq<Entry>, clock: Option<nat> -> string)
    requires forall e :: e in entries ==> e.scope == Semantic
    ensures Short(Ending(entries, clock), 6)
  {
    NoNotesShort(entries, clock, Episodic, "Episodic");
    NoNotesShort(entries, clock, Working, "Working");
    ClosingTakes(SummaryLine(entries, Episodic, "Episodic", clock), SummaryLine(entries, Working, "Working", clock));
    assert CountedShort(Ending(entries, clock), 6, 220);
  }

  lemma OpenedFits(hooks: seq<string>, ending: seq<string>)
    requires Short(hooks, 2) && Short(ending, 6)
    ensures FitsWhole(Opening() + hooks + ending)
  {
    OpeningTakes();
    assert CountedShort(Opening(), 6, 220);
    ShortFits(Opening(), hooks, ending);
  }

  lemma TallHooks(x: Entry, y: Entry) returns (hooks: seq<string>)
    requires Tall(x) && Tall(y)
    ensures hooks == DurableLines(Durable([x, y])) && Short(hooks, 2)
  {
    TallLinesShort(x, y);
    hooks := HookLines([x, y]);
  }

  lemma PairEnding(x: Entry, y: Entry, clock: Option<nat> -> string) returns (ending: seq<string>)
    requires x.scope == Semantic && y.scope == Semantic
    ensures ending == Ending([x, y], clock) && Short(ending, 6)
  {
    ending := Ending([x, y], clock);
    EndingShort([x, y], clock);
  }

  lemma TallPairFits(x: Entry, y: Entry, clock: Option<nat> -> string)
    requires Tall(x) && Tall(y)
    ensures FitsWhole(RenderedLines([x, y], clock))
  {
    var hooks := TallHooks(x, y);
    var ending := PairEnding(x, y, clock);
    OpenedFits(hooks, ending);
  }

  lemma NoSummaryBreaks(x: Entry, y: Entry, clock: Option<nat> -> string)
    requires x.scope == Semantic && y.scope == Semantic
    ensures SummaryBreaks([x, y], Episodic, clock) == 0 && SummaryBreaks([x, y], Working, clock) == 0
  {
    NoneScoped([x, y], Episodic);
    NoneScoped([x, y], Working);
  }

  lemma PairTakes(x: Entry, y: Entry, clock: Option<nat> -> string, n: nat)
    requires Durable([x, y]) == [x, y] && DurableBreaks([x, y]) == n
    requires SummaryBreaks([x, y], Episodic, clock) == 0 && SummaryBreaks([x, y], Working, clock) == 0
    ensures IndexTakes([x, y], clock) == 14 + n
  {
  }

  lemma TallTotal(x: Entry, y: Entry) returns (n: nat)
    requires Tall(x) && Tall(y)
    ensures Durable([x, y]) == [x, y] && DurableBreaks([x, y]) == n && n > 186
  {
    DurablePair(x, y);
    PairBreaks(x, y);
    n := EntryBreaks(x) + EntryBreaks(y);
  }

  lemma TallPairTakes(x: Entry, y: Entry, clock: Option<nat> -> string)
    requires Tall(x) && Tall(y)
    ensures IndexTakes([x, y], clock) > 200
  {
    var n := TallTotal(x, y);
    NoSummaryBreaks(x, y, clock);
    PairTakes(x, y, clock, n);
  }

  /** The index of any two such memories passes both tests and shows more than 200 lines. */
  lemma TallPairBreaksBudget(
    x: Entry, y: Entry, clock: Option<nat> -> string, lines: seq<string>, text: string)
    requires Tall(x) && Tall(y) && lines == RenderedLines([x, y], clock) && IsIndex(OverflowNote(), lines, text)
    ensures |SeenLines(text)| > 200
  {
    TallPairFits(x, y, clock);
    TallPairTakes(x, y, clock);
    RenderedBudgetIff([x, y], clock, lines, text);
  }

  /** Two memories as they are collected, each with a description of 120 characters, break the line budget. */
  lemma TallHooksBreakBudget(clock: Option<nat> -> string, lines: seq<string>, text: string)
    requires lines == RenderedLines([TallEntry("a"), TallEntry("b")], clock) && IsIndex(OverflowNote(), lines, text)
    ensures |SeenLines(text)| > 200
  {
    TallEntryIsTall("a");
    TallEntryIsTall("b");
    TallPairBreaksBudget(TallEntry("a"), TallEntry("b"), clock, lines, text);
  }
}
