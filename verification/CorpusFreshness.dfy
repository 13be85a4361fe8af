/**
 Why fingerprints suffice: an entry all of whose fingerprints match a disk holds exactly
 what a load from scratch on that disk returns, provided a walk watches the directory of
 every configured extra path, and only then.
 */
module CorpusFreshness {
  import opened Prelude
  import opened Storage
  import opened Corpus

  /** Paths whose presence and kind the recorded fingerprints decide. */
  ghost predicate Watched<Body>(w: World<Body>, k: Key, p: Path) {
    p == k.root || (p != [] && Covered(w, k, Parent(p)))
  }

  lemma WalkedParent<Body>(w: World<Body>, from: Path, p: Path, isDir: bool)
    requires Walked(w, from, p, isDir) && p != from
    ensures p != [] && Walked(w, from, Parent(p), true)
  {
    var q := Parent(p);
    forall i | |from| < i < |q| ensures !w.ignored(q[..i], true) {
      assert q[..i] == p[..i];
    }
    if |from| < |q| {
      assert q == p[..|q|];
    }
  }

  lemma CoveredIsWatched<Body>(w: World<Body>, k: Key, q: Path)
    requires ExtrasCovered(w, k) && Covered(w, k, q)
    ensures Watched(w, k, q)
  {
    if Walked(w, k.root, q, true) {
      if q != k.root { WalkedParent(w, k.root, q, true); }
    } else {
      var i :| 0 <= i < |k.extras| && Walked(w, Extra(k, i), q, true);
      if q != Extra(k, i) { WalkedParent(w, Extra(k, i), q, true); }
    }
  }

  lemma CoveredIsRecorded<Body>(w: World<Body>, k: Key, d: Disk, q: Path)
    requires Tree(d) && Covered(w, k, q) && KindAt(d, q) == IsDir
    ensures q in Recorded(w, k, d)
  {
    if !Walked(w, k.root, q, true) {
      var i :| 0 <= i < |k.extras| && Walked(w, Extra(k, i), q, true);
      if Extra(k, i) != q {
        PrefixIsDir(d, q, |Extra(k, i)|);
        assert q[..|Extra(k, i)|] == Extra(k, i);
      }
    }
  }

  lemma RecordedFp<Body>(w: World<Body>, k: Key, e: Discovery, origin: Disk, q: Path)
    requires Discover(w, k, origin) == Ok(e) && q in Recorded(w, k, origin)
    ensures q in e.directories && e.directories[q] == DirFp(origin, q)
  {
  }

  lemma ChildAgrees(origin: Disk, d: Disk, q: Path, p: Path)
    requires Later(origin, d) && p != [] && q == Parent(p)
    requires DirFp(d, q) == DirFp(origin, q)
    ensures KindAt(d, p) == KindAt(origin, p)
  {
    assert p == q + [p[|p| - 1]];
    if KindAt(origin, q) == IsDir {
      DirUntouched(origin, d, q, DirFp(origin, q));
    }
  }

  lemma OrphanAgrees(origin: Disk, d: Disk, p: Path)
    requires Tree(origin) && Tree(d) && p != []
    requires KindAt(origin, Parent(p)) != IsDir && KindAt(d, Parent(p)) != IsDir
    ensures KindAt(d, p) == KindAt(origin, p)
  {
  }

  /** Every watched path has the kind it had at discovery, when all directories match. */
  lemma {:induction false} KindAgrees<Body>(w: World<Body>, k: Key, e: Discovery, origin: Disk, d: Disk, p: Path)
    requires Later(origin, d) && Discover(w, k, origin) == Ok(e)
    requires ExtrasCovered(w, k) && DirsFresh(e, d) && Watched(w, k, p)
    ensures KindAt(d, p) == KindAt(origin, p)
    decreases |p|
  {
    if p == k.root {
      RecordedFp(w, k, e, origin, p);
      assert DirFresh(e, d, p);
    } else {
      var q := Parent(p);
      CoveredIsWatched(w, k, q);
      KindAgrees(w, k, e, origin, d, q);
      if KindAt(origin, q) == IsDir {
        CoveredIsRecorded(w, k, origin, q);
        RecordedFp(w, k, e, origin, q);
        assert DirFresh(e, d, q);
        ChildAgrees(origin, d, q, p);
      } else {
        OrphanAgrees(origin, d, p);
      }
    }
  }

  lemma ExtraAgrees<Body>(w: World<Body>, k: Key, e: Discovery, origin: Disk, d: Disk, i: nat)
    requires Later(origin, d) && Discover(w, k, origin) == Ok(e)
    requires ExtrasCovered(w, k) && DirsFresh(e, d) && i < |k.extras|
    ensures KindAt(d, Extra(k, i)) == KindAt(origin, Extra(k, i))
  {
    KindAgrees(w, k, e, origin, d, Extra(k, i));
  }

  lemma CandidateIsWatched<Body>(w: World<Body>, k: Key, d: Disk, p: Path)
    requires ExtrasCovered(w, k) && IsCandidate(w, k, d, p)
    ensures Watched(w, k, p)
  {
    if Walked(w, k.root, p, false) {
      if p != k.root { WalkedParent(w, k.root, p, false); }
    } else {
      var i :| 0 <= i < |k.extras| && FoundByExtra(w, d, Extra(k, i), p);
      if p != Extra(k, i) { WalkedParent(w, Extra(k, i), p, false); }
    }
  }

  lemma RecordedIsWatched<Body>(w: World<Body>, k: Key, d: Disk, q: Path)
    requires ExtrasCovered(w, k) && IsRecorded(w, k, d, q)
    ensures Watched(w, k, q)
  {
    assert Covered(w, k, q);
    CoveredIsWatched(w, k, q);
  }

  /** Matching directory fingerprints mean that discovery would find the same again. */
  lemma ExtrasAgree<Body>(w: World<Body>, k: Key, e: Discovery, origin: Disk, d: Disk)
    requires Later(origin, d) && Discover(w, k, origin) == Ok(e)
    requires ExtrasCovered(w, k) && DirsFresh(e, d)
    ensures forall i :: 0 <= i < |k.extras| ==> KindAt(d, Extra(k, i)) == KindAt(origin, Extra(k, i))
  {
    forall i | 0 <= i < |k.extras| ensures KindAt(d, Extra(k, i)) == KindAt(origin, Extra(k, i)) {
      ExtraAgrees(w, k, e, origin, d, i);
    }
  }

  lemma CandidatesAgree<Body>(w: World<Body>, k: Key, e: Discovery, origin: Disk, d: Disk)
    requires Later(origin, d) && Discover(w, k, origin) == Ok(e)
    requires ExtrasCovered(w, k) && DirsFresh(e, d)
    ensures Candidates(w, k, d) == Candidates(w, k, origin)
  {
    ExtrasAgree(w, k, e, origin, d);
    forall p ensures p in Candidates(w, k, d) <==> p in Candidates(w, k, origin) {
      assert IsCandidate(w, k, d, p) == IsCandidate(w, k, origin, p);
      if IsCandidate(w, k, d, p) {
        CandidateIsWatched(w, k, d, p);
        KindAgrees(w, k, e, origin, d, p);
      }
    }
  }

  lemma RecordedAgree<Body>(w: World<Body>, k: Key, e: Discovery, origin: Disk, d: Disk)
    requires Later(origin, d) && Discover(w, k, origin) == Ok(e)
    requires ExtrasCovered(w, k) && DirsFresh(e, d)
    ensures Recorded(w, k, d) == Recorded(w, k, origin)
  {
    ExtrasAgree(w, k, e, origin, d);
    forall q ensures q in Recorded(w, k, d) <==> q in Recorded(w, k, origin) {
      assert IsRecorded(w, k, d, q) == IsRecorded(w, k, origin, q);
      if IsRecorded(w, k, d, q) {
        RecordedIsWatched(w, k, d, q);
        KindAgrees(w, k, e, origin, d, q);
      }
    }
  }

  lemma DiscoveryAgrees<Body>(w: World<Body>, k: Key, e: Discovery, origin: Disk, d: Disk)
    requires Later(origin, d) && Discover(w, k, origin) == Ok(e)
    requires ExtrasCovered(w, k) && DirsFresh(e, d)
    ensures Discover(w, k, d) == Ok(e)
  {
    CandidatesAgree(w, k, e, origin, d);
    RecordedAgree(w, k, e, origin, d);
    forall q | q in Recorded(w, k, d) ensures DirFp(d, q) == e.directories[q] {
      assert DirFresh(e, d, q);
    }
    assert (map q | q in Recorded(w, k, d) :: DirFp(d, q)) == e.directories;
  }

  // ----- a matching entry is the load from scratch -----

  lemma CandidateFacts<Body>(w: World<Body>, k: Key, d: Disk, e: Discovery, p: Path)
    requires Tree(d) && Discover(w, k, d) == Ok(e) && p in e.candidates
    ensures k.root <= p && KindAt(d, p) == IsFile && ProperPath(p) && Wanted(w, k, d, p)
  {
    assert p in Candidates(w, k, d);
    if !(Walked(w, k.root, p, false) && w.matches(k.globs, p[|k.root|..])) {
      var i :| 0 <= i < |k.extras| && FoundByExtra(w, d, Extra(k, i), p);
      assert k.root <= Extra(k, i);
    }
  }

  /** The entry holds, for candidate `p`, the very document a load from scratch reads. */
  ghost predicate Serves<Body>(w: World<Body>, k: Key, e: Entry<Body>, d: Disk, p: Path) {
    && k.root <= p && Rel(k.root, p) in e.documents
    && LoadOne(w, k, d, p) == Ok(Some(e.documents[Rel(k.root, p)].document))
    && e.documents[Rel(k.root, p)].document.path == Rel(k.root, p)
  }

  lemma {:induction false} LoadAllFrom<Body>(w: World<Body>, k: Key, d: Disk, e: Entry<Body>, candidates: seq<Path>)
    requires forall p :: p in candidates ==> Serves(w, k, e, d, p)
    ensures LoadAll(w, k, d, candidates).Ok?
    ensures forall rel :: rel in LoadAll(w, k, d, candidates).value ==>
              rel in e.documents && LoadAll(w, k, d, candidates).value[rel] == e.documents[rel].document
    ensures forall p :: p in candidates ==> k.root <= p && Rel(k.root, p) in LoadAll(w, k, d, candidates).value
  {
    if candidates != [] {
      var front, last := candidates[..|candidates| - 1], candidates[|candidates| - 1];
      forall p | p in front ensures p in candidates { }
      LoadAllFrom(w, k, d, e, front);
      assert Serves(w, k, e, d, last);
      forall p | p in candidates ensures p == last || p in front {
        assert candidates == front + [last];
      }
    }
  }

  lemma FreshIsNotDoomed(e: Discovery, d: Disk)
    requires DirsFresh(e, d)
    ensures !Doomed(e, d)
  {
    forall q ensures !LostDir(e, d, q) {
      assert q in e.directories ==> DirFresh(e, d, q);
    }
  }

  lemma CachedIsLoadOne<Body>(w: World<Body>, k: Key, e: Entry<Body>, d: Disk, p: Path)
    requires Tree(d) && ExtrasCovered(w, k) && EntryOk(w, k, e, d)
    requires DirsFresh(e.discovery, d) && DocumentsFresh(e, d)
    requires Discover(w, k, d) == Ok(e.discovery) && p in e.discovery.candidates
    ensures Serves(w, k, e, d, p)
  {
    var origin :| BornAt(w, k, e, |e.discovery.candidates|, origin, d);
    var i :| 0 <= i < |e.discovery.candidates| && e.discovery.candidates[i] == p;
    FreshIsNotDoomed(e.discovery, d);
    assert Accounted(k, e, i, d);
    var rel := Rel(k.root, p);
    assert rel in e.documents;
    var c := e.documents[rel];
    CandidateFacts(w, k, d, e.discovery, p);
    CandidateFacts(w, k, d, e.discovery, c.document.absolute);
    RelInjective(k.root, p, c.document.absolute);
    assert CachedOk(w, k, rel, c, d);
    assert FileFp(d, p) == Some(c.fingerprint);
  }

  lemma CachedIsCandidate<Body>(w: World<Body>, k: Key, e: Entry<Body>, d: Disk, rel: string)
    requires EntryOk(w, k, e, d) && rel in e.documents
    ensures IsFiled(k, e, rel)
  {
    var origin :| BornAt(w, k, e, |e.discovery.candidates|, origin, d);
    assert CachedOk(w, k, rel, e.documents[rel], d);
  }

  ghost predicate IsFiled<Body>(k: Key, e: Entry<Body>, rel: string)
    requires rel in e.documents
  {
    var p := e.documents[rel].document.absolute;
    p in e.discovery.candidates && k.root <= p && rel == Rel(k.root, p)
  }

  lemma ServedDocuments<Body>(w: World<Body>, k: Key, e: Entry<Body>, d: Disk)
    requires forall p :: p in e.discovery.candidates ==> Serves(w, k, e, d, p)
    requires forall rel :: rel in e.documents ==> IsFiled(k, e, rel)
    ensures LoadAll(w, k, d, e.discovery.candidates) == Ok(Documents(e))
  {
    LoadAllFrom(w, k, d, e, e.discovery.candidates);
    var m := LoadAll(w, k, d, e.discovery.candidates).value;
    forall rel | rel in e.documents ensures rel in m {
      assert IsFiled(k, e, rel);
    }
    assert m == Documents(e);
  }

  lemma MatchingDocuments<Body>(w: World<Body>, k: Key, e: Entry<Body>, d: Disk)
    requires Tree(d) && ExtrasCovered(w, k) && EntryOk(w, k, e, d) && Discover(w, k, d) == Ok(e.discovery)
    requires DirsFresh(e.discovery, d) && DocumentsFresh(e, d)
    ensures LoadAll(w, k, d, e.discovery.candidates) == Ok(Documents(e))
  {
    forall p | p in e.discovery.candidates ensures Serves(w, k, e, d, p) {
      CachedIsLoadOne(w, k, e, d, p);
    }
    forall rel | rel in e.documents ensures IsFiled(k, e, rel) {
      CachedIsCandidate(w, k, e, d, rel);
    }
    ServedDocuments(w, k, e, d);
  }

  /** Soundness of a hit at one instant. */
  lemma MatchingEntryIsFresh<Body>(w: World<Body>, k: Key, e: Entry<Body>, d: Disk)
    requires ExtrasCovered(w, k) && EntryOk(w, k, e, d)
    requires DirsFresh(e.discovery, d) && DocumentsFresh(e, d)
    ensures FreshLoad(w, k, d) == Ok(Values(Documents(e)))
  {
    var origin :| BornAt(w, k, e, |e.discovery.candidates|, origin, d);
    DiscoveryAgrees(w, k, e.discovery, origin, d);
    MatchingDocuments(w, k, e, d);
  }

  // ----- candidates that vanish while a load is under way -----

  lemma RecordedStamps<Body>(w: World<Body>, k: Key, e: Discovery, origin: Disk, q: Path)
    requires Tree(origin) && Discover(w, k, origin) == Ok(e) && q in e.directories
    ensures e.directories[q] == DirFp(origin, q)
    ensures e.directories[q].ns.Some? ==> e.directories[q].ns.value < origin.clock
    ensures e.directories[q].ns.None? ==> q == k.root && KindAt(origin, q) == Missing
  {
  }

  lemma NothingBelow(d: Disk, root: Path)
    requires Tree(d) && KindAt(d, root) == Missing
    ensures forall p :: p in d.nodes ==> !(root <= p)
  {
    forall p | p in d.nodes ensures !(root <= p) {
      if root <= p && p != root {
        assert p[..|root|] == root;
        PrefixIsDir(d, p, |root|);
      }
    }
  }

  lemma AllBelow<Body>(w: World<Body>, k: Key, d: Disk)
    requires Discover(w, k, d).Ok?
    ensures forall p :: p in Candidates(w, k, d) ==> k.root <= p
    ensures forall q :: q in Recorded(w, k, d) ==> k.root <= q
  {
    assert forall i :: 0 <= i < |k.extras| ==> k.root <= Extra(k, i);
  }

  /** With the root missing there is nothing else to record. */
  lemma RootMissing<Body>(w: World<Body>, k: Key, e: Discovery, origin: Disk)
    requires Tree(origin) && Discover(w, k, origin) == Ok(e) && KindAt(origin, k.root) == Missing
    ensures e.directories.Keys == {k.root} && e.candidates == []
  {
    NothingBelow(origin, k.root);
    AllBelow(w, k, origin);
    assert Candidates(w, k, origin) == {};
    assert Recorded(w, k, origin) == {k.root};
  }

  /** A candidate that is no longer a file betrays itself through a recorded directory. */
  lemma VanishedIsDoomed<Body>(w: World<Body>, k: Key, e: Discovery, origin: Disk, d: Disk, p: Path)
    requires ExtrasCovered(w, k) && Later(origin, d) && Discover(w, k, origin) == Ok(e)
    requires p in e.candidates && KindAt(d, p) != IsFile
    ensures Doomed(e, d)
  {
    if !DirsFresh(e, d) {
      var q :| q in e.directories && !DirFresh(e, d, q);
      RecordedStamps(w, k, e, origin, q);
      if e.directories[q].ns.None? { RootMissing(w, k, e, origin); }
      assert LostDir(e, d, q);
    } else {
      assert p in Candidates(w, k, origin);
      CandidateIsWatched(w, k, origin, p);
      KindAgrees(w, k, e, origin, d, p);
    }
  }

  /** A candidate that is still a file still passes the filter of the load loop. */
  lemma StillWanted<Body>(w: World<Body>, k: Key, e: Discovery, origin: Disk, d: Disk, p: Path)
    requires Tree(origin) && Tree(d) && Discover(w, k, origin) == Ok(e)
    requires p in e.candidates && KindAt(d, p) == IsFile
    ensures k.root <= p && Wanted(w, k, d, p)
  {
    CandidateFacts(w, k, origin, e, p);
    if !w.matches(k.globs, p[|k.root|..]) {
      assert p in Candidates(w, k, origin);
      var i :| 0 <= i < |k.extras| && FoundByExtra(w, origin, Extra(k, i), p);
      if p != Extra(k, i) {
        PrefixIsDir(d, p, |Extra(k, i)|);
        assert p[..|Extra(k, i)|] == Extra(k, i);
      }
    }
  }

  // ----- where it fails -----

  /** Just the directories above `x`. */
  function Spine(x: Path): Disk {
    Disk(map p | p in Above(x) :: Dir(0), 1)
  }

  function Above(x: Path): set<Path> {
    set i | 0 <= i < |x| :: x[..i]
  }

  lemma SpineIsTree(x: Path)
    requires x != [] && ProperPath(x)
    ensures Tree(Spine(x)) && KindAt(Spine(x), Parent(x)) == IsDir && KindAt(Spine(x), x) == Missing
  {
    var d := Spine(x);
    assert x[..0] == [] && [] in d.nodes;
    forall p | p in d.nodes && p != [] ensures KindAt(d, Parent(p)) == IsDir {
      var i :| 0 <= i < |x| && p == x[..i];
      assert Parent(p) == x[..i - 1];
    }
    assert Parent(x) == x[..|x| - 1];
  }

  lemma {:induction false} LoadAllKeeps<Body>(w: World<Body>, k: Key, d: Disk, candidates: seq<Path>, p: Path)
    requires p in candidates && LoadOne(w, k, d, p) != Ok(None)
    ensures LoadAll(w, k, d, candidates) != Ok(map[])
  {
    var front, last := candidates[..|candidates| - 1], candidates[|candidates| - 1];
    assert candidates == front + [last];
    if p != last {
      LoadAllKeeps(w, k, d, front, p);
    }
    if LoadAll(w, k, d, candidates).Ok? && LoadOne(w, k, d, last).value.Some? {
      assert LoadOne(w, k, d, last).value.value.path in LoadAll(w, k, d, candidates).value;
    }
  }

  lemma UnwatchedChange<Body>(w: World<Body>, k: Key, x: Path)
    requires FirstOutside(k, 0).None? && x != [] && ProperPath(x) && k.root <= x
    requires x != k.root && !Covered(w, k, Parent(x))
    ensures Discover(w, k, Spine(x)).Ok?
    ensures DirsFresh(Discover(w, k, Spine(x)).value, Apply(Spine(x), Write(x, "", false, 1)))
  {
    var before := Spine(x);
    SpineIsTree(x);
    var e := Discover(w, k, before).value;
    var after := Apply(before, Write(x, "", false, 1));
    forall q | q in e.directories ensures DirFresh(e, after, q) {
      assert q != k.root ==> IsRecorded(w, k, before, q);
      assert Walked(w, k.root, k.root, true);
      assert q != Parent(x) && q != x;
    }
  }

  lemma SpineEntry<Body>(w: World<Body>, k: Key, x: Path)
    requires FirstOutside(k, 0).None? && Tree(Spine(x))
    ensures var e: Entry<Body> := Entry(Discover(w, k, Spine(x)).value, map[]);
            && e.discovery.candidates == [] && Documents(e) == map[]
            && EntryOk(w, k, e, Spine(x)) && FreshLoad(w, k, Spine(x)) == Ok(Values(Documents(e)))
  {
    var e: Entry<Body> := Entry(Discover(w, k, Spine(x)).value, map[]);
    assert Candidates(w, k, Spine(x)) == {};
    assert e.discovery.candidates == [];
    assert Documents(e) == map[];
    assert BornAt(w, k, e, 0, Spine(x), Spine(x));
  }

  /** A file appearing at an extra path whose directory no walk records goes unnoticed. */
  lemma StaleHit<Body>(w: World<Body>, k: Key, i: nat) returns (before: Disk, change: Edit, e: Entry<Body>)
    requires FirstOutside(k, 0).None? && i < |k.extras| && ProperPath(Extra(k, i))
    requires Extra(k, i) != k.root && !Covered(w, k, Parent(Extra(k, i)))
    ensures Tree(before) && Permitted(before, change)
    ensures Discover(w, k, before) == Ok(e.discovery) && e.discovery.candidates == [] && e.documents == map[]
    ensures FreshLoad(w, k, before) == Ok(Values(Documents(e))) && EntryOk(w, k, e, before)
    ensures DirsFresh(e.discovery, Apply(before, change)) && DocumentsFresh(e, Apply(before, change))
    ensures EntryOk(w, k, e, Apply(before, change))
    ensures FreshLoad(w, k, Apply(before, change)) != Ok(Values(Documents(e)))
  {
    var x := Extra(k, i);
    before := Spine(x);
    change := Write(x, "", false, 1);
    var after := Apply(before, change);
    SpineIsTree(x);
    EditIsLater(before, change);
    e := Entry(Discover(w, k, before).value, map[]);
    SpineEntry(w, k, x);
    PartStable(w, k, e, 0, before, after);
    UnwatchedChange(w, k, x);
    StaleAfter(w, k, i, after);
  }

  lemma ExtraIsLoaded<Body>(w: World<Body>, k: Key, i: nat, d: Disk)
    requires FirstOutside(k, 0).None? && i < |k.extras|
    requires Tree(d) && KindAt(d, Extra(k, i)) == IsFile
    ensures Discover(w, k, d).Ok? && Extra(k, i) in Discover(w, k, d).value.candidates
    ensures LoadOne(w, k, d, Extra(k, i)) != Ok(None)
  {
    var x := Extra(k, i);
    assert FoundByExtra(w, d, x, x);
    assert x in Candidates(w, k, d);
    CandidateFacts(w, k, d, Discover(w, k, d).value, x);
  }

  lemma StaleAfter<Body>(w: World<Body>, k: Key, i: nat, after: Disk)
    requires FirstOutside(k, 0).None? && i < |k.extras|
    requires Tree(after) && KindAt(after, Extra(k, i)) == IsFile
    ensures FreshLoad(w, k, after) != Ok(Values<Document<Body>>(map[]))
  {
    ExtraIsLoaded(w, k, i, after);
    LoadAllKeeps(w, k, after, Discover(w, k, after).value.candidates, Extra(k, i));
  }

  /**
   Cache hits are sound exactly for the keys whose extra paths lie in watched directories.
   */
  lemma HitsSoundIffCovered<Body>(w: World<Body>, k: Key)
    requires FirstOutside(k, 0).None?
    requires forall i :: 0 <= i < |k.extras| ==> ProperPath(Extra(k, i))
    ensures ExtrasCovered(w, k) <==>
            forall e, d :: EntryOk(w, k, e, d) && DirsFresh(e.discovery, d) && DocumentsFresh(e, d)
                           ==> FreshLoad(w, k, d) == Ok(Values(Documents(e)))
  {
    if ExtrasCovered(w, k) {
      forall e, d | EntryOk(w, k, e, d) && DirsFresh(e.discovery, d) && DocumentsFresh(e, d)
        ensures FreshLoad(w, k, d) == Ok(Values(Documents(e)))
      {
        MatchingEntryIsFresh(w, k, e, d);
      }
    } else {
      var i :| 0 <= i < |k.extras| && Extra(k, i) != k.root
               && !(Extra(k, i) != [] && Covered(w, k, Parent(Extra(k, i))));
      assert k.root <= Extra(k, i);
      var before, change, e := StaleHit(w, k, i);
      assert EntryOk(w, k, e, Apply(before, change));
    }
  }
}
