/** What the lines of the generated memory index say. */
module IndexContents {
  import opened Prelude
  import opened MemoryIndex
  import opened IndexEntries
  import Decimal
  import Text

  // ----- which lines are kept -----

  ghost predicate TooLong(note: string, lines: seq<string>, k: nat)
    requires 0 < k <= |lines|
  {
    Text.Bytes(Text.Join(lines[..k], "\n") + (if lines[k - 1] == "" then "\n" else "\n\n") + note) > 25_000
  }

  ghost predicate IsCut(note: string, lines: seq<string>, k: nat, text: string) {
    && k <= |lines| && k <= 198
    && (k == 0 ==> text == note)
    && (k > 0 ==> !TooLong(note, lines, k)
                  && text == Text.Join(lines[..k], "\n") + (if lines[k - 1] == "" then "\n" else "\n\n") + note)
    && (forall j :: k < j <= |lines| && j <= 198 ==> TooLong(note, lines, j))
  }

  lemma TooLongIff(note: string, lines: seq<string>, k: nat)
    requires 0 < k <= |lines|
    ensures TooLong(note, lines, k) <==> !FitsWithNote(note, lines, k)
    ensures WithNote(note, lines[..k])
            == Text.Join(lines[..k], "\n") + (if lines[k - 1] == "" then "\n" else "\n\n") + note
  {
    NoteSize(note, lines, k);
    assert lines[..k][k - 1] == lines[k - 1];
  }

  /** All lines if there are at most 200 in 25,000 bytes; otherwise as many of the first 198 as fit with the note. */
  lemma IndexMeans(note: string, lines: seq<string>, text: string)
    requires IsIndex(note, lines, text)
    ensures |lines| <= 200 && Text.Bytes(Text.Join(lines, "\n")) <= 25_000 ==> text == Text.Join(lines, "\n")
    ensures |lines| > 200 || Text.Bytes(Text.Join(lines, "\n")) > 25_000 ==> exists k :: IsCut(note, lines, k, text)
  {
    if !FitsWhole(lines) {
      var k: nat :| LongestFit(note, lines, k) && text == (if k == 0 then note else WithNote(note, lines[..k]));
      if k > 0 {
        TooLongIff(note, lines, k);
      }
      forall j | k < j <= |lines| && j <= 198 ensures TooLong(note, lines, j) {
        TooLongIff(note, lines, j);
      }
      assert IsCut(note, lines, k, text);
    }
  }

  lemma NoteMeans()
    ensures OverflowNote() == "> Additional entries were omitted " + "to keep this index concise. Use "
                              + "`memory_list` for the full inventory."
  {
  }

  // ----- hooks -----

  /** Without a description, the memory's type decides, and without a type its scope. */
  lemma HookMeans(e: Entry)
    ensures e.description.Some? ==> EntryHook(e) == e.description.value
    ensures e.description.None? && e.kind == Some(User) ==> EntryHook(e) == "user profile and collaboration context"
    ensures e.description.None? && e.kind == Some(Feedback) ==>
              EntryHook(e) == "validated guidance about " + "how to approach future work"
    ensures e.description.None? && e.kind == Some(Project) ==>
              EntryHook(e) == "project context that is not " + "derivable from the code"
    ensures e.description.None? && e.kind == Some(Reference) ==>
              EntryHook(e) == "pointer to external context worth checking"
  {
  }

  lemma ScopeHookMeans(e: Entry)
    requires e.description.None? && e.kind.None?
    ensures e.scope == Procedural ==> EntryHook(e) == "durable procedural guidance"
    ensures e.scope == Semantic ==> EntryHook(e) == "durable project memory"
    ensures e.scope == Episodic ==> EntryHook(e) == "runtime-derived episodic note"
    ensures e.scope == Working && "coordination-" <= e.layer ==>
              EntryHook(e) == "coordination state shared across agents"
    ensures e.scope == Working && !("coordination-" <= e.layer) ==>
              EntryHook(e) == "active working note for the current task"
  {
  }

  /** A hook is shown without the whitespace at its ends, and in at most 120 characters. */
  ghost predicate IsShownHook(raw: string, shown: string) {
    exists trimmed ::
      && Text.IsTrimmed(raw, trimmed)
      && (|trimmed| <= 120 ==> shown == trimmed)
      && (|trimmed| > 120 ==> |shown| == 120 && shown[..119] == trimmed[..119] && shown[119] == '\U{2026}')
  }

  lemma CutIsShown(raw: string)
    ensures IsShownHook(raw, TruncateHook(raw, 120))
  {
    Text.TrimIsTrimmed(raw);
    var trimmed := Text.Trim(raw);
    if |trimmed| > 120 {
      assert (trimmed[..119] + [ELLIPSIS])[..119] == trimmed[..119];
    }
  }

  lemma HookIsShown(e: Entry, raw: string, shown: string)
    requires raw == EntryHook(e) && shown == Hook(e)
    ensures IsShownHook(raw, shown)
  {
    CutIsShown(raw);
  }

  // ----- links -----

  /** The memory directory is left out of a link. */
  ghost predicate IsLink(path: string, link: string) {
    path == ".nanoclaw/memory/" + link || (link == path && !(".nanoclaw/memory/" <= path))
  }

  lemma LinkMeans(path: string)
    ensures IsLink(path, Link(path))
  {
    if MEMORY_DIR <= path {
      assert path == MEMORY_DIR + path[|MEMORY_DIR|..];
    }
  }

  /** Title, target and hook stand in this order, each between its marks. */
  ghost predicate IsLinked(s: string, title: string, link: string, hook: string) {
    s == "[" + title + "](" + link + [')', ' ', '\U{2014}', ' '] + hook
  }

  lemma FlatLink(a: string, title: string, b: string, link: string, c: string, hook: string)
    ensures a + (title + (b + (link + (c + hook)))) == a + title + b + link + c + hook
  {
  }

  lemma LinkedMeans(title: string, link: string, hook: string)
    ensures IsLinked(Linked(title, link, hook), title, link, hook)
  {
    FlatLink("[", title, "](", link, [')', ' ', DASH, ' '], hook);
  }

  /** What is shown of an entry: its title, where it is, and its hook. */
  ghost predicate Presents(s: string, e: Entry) {
    exists link, hook :: IsLink(e.path, link) && IsShownHook(EntryHook(e), hook) && IsLinked(s, e.title, link, hook)
  }

  lemma EntryIsPresented(e: Entry)
    ensures Presents(LinkedHook(e), e)
    ensures DurableLine(e) == "- " + LinkedHook(e)
  {
    LinkMeans(e.path);
    HookIsShown(e, EntryHook(e), Hook(e));
    LinkedMeans(e.title, Link(e.path), Hook(e));
  }

  // ----- which entries -----

  /** Listed are, in the order given, the procedural and semantic memories other than the index itself. */
  lemma {:induction false} DurableSplits(a: seq<Entry>, b: seq<Entry>)
    ensures Durable(a + b) == Durable(a) + Durable(b)
  {
    if a == [] {
      assert a + b == b;
    } else {
      assert (a + b)[1..] == a[1..] + b;
      DurableSplits(a[1..], b);
    }
  }

  lemma DurableOne(e: Entry)
    ensures Durable([]) == []
    ensures (e.scope == Procedural || e.scope == Semantic) && e.layer != "auto-memory-index" ==> Durable([e]) == [e]
    ensures e.scope == Episodic || e.scope == Working || e.layer == "auto-memory-index" ==> Durable([e]) == []
  {
    assert [e][1..] == [];
  }

  lemma {:induction false} ScopedSplits(a: seq<Entry>, b: seq<Entry>, scope: Scope)
    ensures Scoped(a + b, scope) == Scoped(a, scope) + Scoped(b, scope)
  {
    if a == [] {
      assert a + b == b;
    } else {
      assert (a + b)[1..] == a[1..] + b;
      ScopedSplits(a[1..], b, scope);
    }
  }

  lemma ScopedOne(e: Entry, scope: Scope)
    ensures Scoped([], scope) == [] && Scoped([e], scope) == if e.scope == scope then [e] else []
  {
    assert [e][1..] == [];
  }

  // ----- the summaries -----

  /** A memory without a time counts as changed at 0. */
  lemma AgeIff(a: Entry, b: Entry)
    ensures Updated(a) <= Updated(b) <==>
            || a.updatedAt.None? || a.updatedAt.value == 0
            || (b.updatedAt.Some? && a.updatedAt.value <= b.updatedAt.value)
  {
  }

  ghost predicate IsKind(kind: Option<MemoryType>, name: string) {
    match kind
    case None => name == "runtime"
    case Some(User) => name == "user"
    case Some(Feedback) => name == "feedback"
    case Some(Project) => name == "project"
    case Some(Reference) => name == "reference"
  }

  /** How many notes there are, and of the one changed last, the last listed, what, what kind and when. */
  ghost predicate Summarises(s: string, name: string, scoped: seq<Entry>, clock: Option<nat> -> string) {
    if scoped == [] then s == "- " + name + ": 0 notes"
    else exists i: nat, shown, kind ::
        && IsLastBest(scoped, i) && Presents(shown, scoped[i]) && IsKind(scoped[i].kind, kind)
        && s == "- " + name + ": " + Decimal.Print(|scoped|) + " notes, latest " + shown + " (" + kind + ", updated "
                + clock(scoped[i].updatedAt) + ")"
  }

  lemma Flat(a: string, name: string, b: string, count: string, c: string, shown: string,
             d: string, kind: string, e: string, time: string, f: string)
    ensures (a + (name + (b + (count + c)))) + shown + (d + (kind + (e + (time + f))))
            == a + name + b + count + c + shown + d + kind + e + time + f
  {
  }

  lemma SummaryMeans(entries: seq<Entry>, scope: Scope, name: string, clock: Option<nat> -> string)
    ensures Summarises(SummaryLine(entries, scope, name, clock), name, Scoped(entries, scope), clock)
  {
    var scoped := Scoped(entries, scope);
    if scoped == [] {
      assert "- " + (name + ": 0 notes") == "- " + name + ": 0 notes";
    } else {
      var i := LatestIsLast(scoped);
      var kind := KindName(scoped[i].kind);
      EntryIsPresented(scoped[i]);
      Flat("- ", name, ": ", Decimal.Print(|scoped|), " notes, latest ", LinkedHook(scoped[i]), " (", kind,
           ", updated ", clock(scoped[i].updatedAt), ")");
      assert IsKind(scoped[i].kind, kind);
    }
  }

  // ----- the whole index -----

  ghost predicate Frames(above: seq<string>, below: seq<string>) {
    && |above| == 6 && |below| == 6
    && above[0] == "# Managed Memory Index" && above[4] == "## Durable Memory"
    && above[2] == "This file is generated from `.nano" + "claw/memory/` and should stay as a "
                   + "concise map of durable memories."
    && above[1] == above[3] == above[5] == ""
    && below[1] == "## Runtime Memory Summary" && below[0] == below[2] == below[5] == ""
  }

  lemma FixedLines(episodic: string, working: string)
    ensures Frames(Opening(), Closing(episodic, working))
    ensures Closing(episodic, working)[3] == episodic && Closing(episodic, working)[4] == working
  {
  }

  /** Headings, the durable memories or a line that says there are none, headings and the two summaries. */
  lemma RenderedMeans(entries: seq<Entry>, clock: Option<nat> -> string)
    returns (above: seq<string>, below: seq<string>)
    ensures Frames(above, below)
    ensures RenderedLines(entries, clock)
            == above + (if Durable(entries) == [] then [NONE_YET] else HookLines(Durable(entries))) + below
    ensures below[3] == SummaryLine(entries, Episodic, "Episodic", clock)
    ensures below[4] == SummaryLine(entries, Working, "Working", clock)
  {
    above, below := Opening(), Ending(entries, clock);
    FixedLines(below[3], below[4]);
  }
}
