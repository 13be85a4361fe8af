/** Allowlists: trimmed, blanks dropped, later repetitions dropped. */
module NameList {
  import opened Text
  import opened Order

  /** What the normalising loop holds after the entries seen so far. */
  function Normalized(entries: seq<string>): (r: seq<string>)
    decreases |entries|
  {
    if entries == [] then []
    else
      var before := Normalized(entries[..|entries| - 1]);
      var name := Trim(entries[|entries| - 1]);
      if name == "" || name in before then before else before + [name]
  }

  method NormalizeList(entries: seq<string>) returns (normalized: seq<string>)
    ensures normalized == Normalized(entries)
  {
    normalized := [];
    var seen: set<string> := {};
    assert entries[..0] == [];
    for i := 0 to |entries|
      invariant normalized == Normalized(entries[..i])
      invariant forall name :: name in seen <==> name in normalized
    {
      assert entries[..i + 1][..i] == entries[..i];
      var name := Trim(entries[i]);
      if name != "" && name !in seen {
        seen := seen + {name};
        normalized := normalized + [name];
      }
    }
    assert entries[..|entries|] == entries;
  }

  // ----- what the loop computes, without the loop -----

  /** Entry `i` is not blank and no earlier entry has the same name. */
  ghost predicate IsFirst(entries: seq<string>, i: int) {
    && 0 <= i < |entries|
    && Trim(entries[i]) != ""
    && forall j :: 0 <= j < i ==> Trim(entries[j]) != Trim(entries[i])
  }

  predicate IntLess(a: int, b: int) { a < b }

  ghost predicate ListsFirsts(entries: seq<string>, kept: seq<int>) {
    && Ascending(IntLess, kept)
    && forall i :: i in kept <==> IsFirst(entries, i)
  }

  /** `r` holds the names of the first occurrences, in the order of the entries. */
  ghost predicate HoldsFirsts(entries: seq<string>, kept: seq<int>, r: seq<string>) {
    && ListsFirsts(entries, kept)
    && |r| == |kept|
    && forall k :: 0 <= k < |r| ==> kept[k] in kept && r[k] == Trim(entries[kept[k]])
  }

  lemma NameIsHeld(entries: seq<string>, kept: seq<int>, r: seq<string>, name: string)
    requires HoldsFirsts(entries, kept, r)
    ensures name in r <==> name != "" && exists j :: 0 <= j < |entries| && Trim(entries[j]) == name
  {
    if name in r {
      var k :| 0 <= k < |r| && r[k] == name;
      assert IsFirst(entries, kept[k]);
    }
    if j :| name != "" && 0 <= j < |entries| && Trim(entries[j]) == name {
      var i := FirstOf(entries, j);
      assert i in kept;
    }
  }

  lemma {:induction false} FirstOf(entries: seq<string>, j: nat) returns (i: nat)
    requires j < |entries| && Trim(entries[j]) != ""
    ensures IsFirst(entries, i) && i <= j && Trim(entries[i]) == Trim(entries[j])
    decreases j
  {
    if earlier :| 0 <= earlier < j && Trim(entries[earlier]) == Trim(entries[j]) {
      i := FirstOf(entries, earlier);
    } else {
      i := j;
    }
  }

  lemma FirstsOfPrefix(before: seq<string>, entry: string, i: int)
    ensures i < |before| ==> (IsFirst(before + [entry], i) <==> IsFirst(before, i))
    ensures IsFirst(before + [entry], |before|) <==>
            Trim(entry) != "" && forall j :: 0 <= j < |before| ==> Trim(before[j]) != Trim(entry)
  {
    var entries := before + [entry];
    assert entries[|before|] == entry;
    assert forall j :: 0 <= j < |before| ==> entries[j] == before[j];
  }

  lemma SkipsEntry(before: seq<string>, kept: seq<int>, r: seq<string>, entry: string)
    requires HoldsFirsts(before, kept, r) && (Trim(entry) == "" || Trim(entry) in r)
    ensures HoldsFirsts(before + [entry], kept, r)
  {
    NameIsHeld(before, kept, r, Trim(entry));
    forall i ensures i in kept <==> IsFirst(before + [entry], i) {
      FirstsOfPrefix(before, entry, i);
    }
    forall k | 0 <= k < |r| ensures kept[k] in kept && r[k] == Trim((before + [entry])[kept[k]]) {
      assert IsFirst(before, kept[k]);
    }
  }

  lemma KeptBelow(before: seq<string>, kept: seq<int>)
    requires ListsFirsts(before, kept)
    ensures Ascending(IntLess, kept + [|before|])
  {
    forall k | 0 <= k < |kept| ensures kept[k] < |before| { assert kept[k] in kept && IsFirst(before, kept[k]); }
  }

  lemma ListsOneMore(before: seq<string>, kept: seq<int>, entry: string)
    requires ListsFirsts(before, kept) && Trim(entry) != ""
    requires forall j :: 0 <= j < |before| ==> Trim(before[j]) != Trim(entry)
    ensures ListsFirsts(before + [entry], kept + [|before|])
  {
    KeptBelow(before, kept);
    forall i ensures i in kept + [|before|] <==> IsFirst(before + [entry], i) {
      FirstsOfPrefix(before, entry, i);
      assert i in kept + [|before|] <==> i in kept || i == |before|;
      assert i in kept <==> IsFirst(before, i);
      assert i > |before| ==> !IsFirst(before + [entry], i);
    }
  }

  lemma TakesEntry(before: seq<string>, kept: seq<int>, r: seq<string>, entry: string)
    requires HoldsFirsts(before, kept, r) && Trim(entry) != "" && Trim(entry) !in r
    ensures HoldsFirsts(before + [entry], kept + [|before|], r + [Trim(entry)])
  {
    var kept', r', entries := kept + [|before|], r + [Trim(entry)], before + [entry];
    NameIsHeld(before, kept, r, Trim(entry));
    ListsOneMore(before, kept, entry);
    forall k | 0 <= k < |r'| ensures kept'[k] in kept' && r'[k] == Trim(entries[kept'[k]]) {
      assert k < |r| ==> IsFirst(before, kept[k]);
    }
  }

  lemma {:induction false} NormalizedHoldsFirsts(entries: seq<string>) returns (kept: seq<int>)
    ensures HoldsFirsts(entries, kept, Normalized(entries))
    decreases |entries|
  {
    if entries == [] {
      kept := [];
    } else {
      var before, entry := entries[..|entries| - 1], entries[|entries| - 1];
      assert entries == before + [entry];
      kept := NormalizedHoldsFirsts(before);
      if Trim(entry) == "" || Trim(entry) in Normalized(before) {
        SkipsEntry(before, kept, Normalized(before), entry);
      } else {
        TakesEntry(before, kept, Normalized(before), entry);
        kept := kept + [|before|];
      }
    }
  }

  lemma FirstsAreUnique(entries: seq<string>, kept: seq<int>, r: seq<string>, kept': seq<int>, r': seq<string>)
    requires HoldsFirsts(entries, kept, r) && HoldsFirsts(entries, kept', r')
    ensures kept == kept' && r == r'
  {
    AscendingUnique(IntLess, kept, kept');
  }

  /** Normalising keeps exactly the first occurrence of every non-blank name, in order. */
  lemma NormalizedMeans(entries: seq<string>, r: seq<string>)
    ensures r == Normalized(entries) <==> exists kept :: HoldsFirsts(entries, kept, r)
  {
    var mine := NormalizedHoldsFirsts(entries);
    if kept :| HoldsFirsts(entries, kept, r) {
      FirstsAreUnique(entries, mine, Normalized(entries), kept, r);
    }
  }

  ghost predicate IsClean(names: seq<string>) {
    && (forall i :: 0 <= i < |names| ==> names[i] != "" && Trim(names[i]) == names[i])
    && (forall i, j :: 0 <= i < j < |names| ==> names[i] != names[j])
  }

  lemma CleanPush(names: seq<string>, name: string)
    requires IsClean(names) && name != "" && Trim(name) == name && name !in names
    ensures IsClean(names + [name])
  {
  }

  lemma {:induction false} NormalizedIsClean(entries: seq<string>)
    ensures IsClean(Normalized(entries))
    decreases |entries|
  {
    if entries != [] {
      var before, name := Normalized(entries[..|entries| - 1]), Trim(entries[|entries| - 1]);
      NormalizedIsClean(entries[..|entries| - 1]);
      TrimIdempotent(entries[|entries| - 1]);
      if name != "" && name !in before {
        CleanPush(before, name);
      }
    }
  }

  lemma CleanPop(names: seq<string>)
    requires IsClean(names) && names != []
    ensures var before, last := names[..|names| - 1], names[|names| - 1];
            IsClean(before) && last != "" && Trim(last) == last && last !in before && names == before + [last]
  {
  }

  lemma {:induction false} CleanIsFixed(names: seq<string>)
    ensures IsClean(names) <==> Normalized(names) == names
    decreases |names|
  {
    NormalizedIsClean(names);
    if IsClean(names) && names != [] {
      CleanPop(names);
      CleanIsFixed(names[..|names| - 1]);
    }
  }

  lemma NormalizedIdempotent(entries: seq<string>)
    ensures Normalized(Normalized(entries)) == Normalized(entries)
  {
    NormalizedIsClean(entries);
    CleanIsFixed(Normalized(entries));
  }
}
