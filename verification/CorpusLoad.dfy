/** The process-wide corpus cache and one load through it while no writer is active. */
module CorpusLoad {
  import opened Prelude
  import opened Storage
  import opened Corpus
  import opened CorpusFreshness
  import CorpusRuns
  import Order

  /** The entry a load finds, if it can be returned as it stands. */
  predicate IsHit<Body>(cached: Option<Entry<Body>>, d: Disk) {
    cached.Some? && DirsFresh(cached.value.discovery, d) && DocumentsFresh(cached.value, d)
  }

  /** The previous entry holds a document of this very path and fingerprint. */
  ghost predicate HoldsPair<Body>(cached: Option<Entry<Body>>, p: Path, fp: Option<FileFingerprint>) {
    cached.Some? && exists rel ::
      && rel in cached.value.documents
      && cached.value.documents[rel].document.absolute == p
      && Some(cached.value.documents[rel].fingerprint) == fp
  }

  /** The cache holds an entry for the key, and all its directories and documents show their fingerprints. */
  ghost predicate IsHitFor<Body>(entries: map<Key, Entry<Body>>, k: Key, d: Disk) {
    && k in entries
    && (forall q :: q in entries[k].discovery.directories ==> DirFp(d, q) == entries[k].discovery.directories[q])
    && forall rel :: rel in entries[k].documents ==>
         FileFp(d, entries[k].documents[rel].document.absolute) == Some(entries[k].documents[rel].fingerprint)
  }

  lemma FoundIsHit<Body>(entries: map<Key, Entry<Body>>, k: Key, d: Disk)
    ensures IsHit(Find(entries, k), d) <==> IsHitFor(entries, k, d)
  {
    if k in entries && IsHit(Find(entries, k), d) {
      forall q | q in entries[k].discovery.directories
        ensures DirFp(d, q) == entries[k].discovery.directories[q]
      {
        assert DirFresh(entries[k].discovery, d, q);
      }
    }
  }

  function Find<Body>(entries: map<Key, Entry<Body>>, k: Key): Option<Entry<Body>> {
    if k in entries then Some(entries[k]) else None
  }

  // ----- facts about the load from scratch -----

  lemma {:induction false} LoadAllPaths<Body>(w: World<Body>, k: Key, d: Disk, candidates: seq<Path>, rel: string)
    requires LoadAll(w, k, d, candidates).Ok? && rel in LoadAll(w, k, d, candidates).value
    ensures LoadAll(w, k, d, candidates).value[rel].path == rel
  {
    var last := candidates[|candidates| - 1];
    var front := LoadAll(w, k, d, candidates[..|candidates| - 1]);
    if front.Ok? && rel in front.value {
      LoadAllPaths(w, k, d, candidates[..|candidates| - 1], rel);
    }
  }

  /** The corpus comes back strictly ascending by path, so without duplicates. */
  lemma FreshLoadAscends<Body>(w: World<Body>, k: Key, d: Disk, i: nat, j: nat)
    requires FreshLoad(w, k, d).Ok? && i < j < |FreshLoad(w, k, d).value|
    ensures Order.StringLess(FreshLoad(w, k, d).value[i].path, FreshLoad(w, k, d).value[j].path)
  {
    Order.StringOrder();
    var candidates := Discover(w, k, d).value.candidates;
    var m := LoadAll(w, k, d, candidates).value;
    var keys := Order.Listing(Order.StringLess, m.Keys);
    assert keys[i] in m.Keys && keys[j] in m.Keys;
    LoadAllPaths(w, k, d, candidates, keys[i]);
    LoadAllPaths(w, k, d, candidates, keys[j]);
  }

  lemma {:induction false} LoadAllFails<Body>(w: World<Body>, k: Key, d: Disk, candidates: seq<Path>, n: nat)
    requires n <= |candidates| && LoadAll(w, k, d, candidates[..n]).Err?
    ensures LoadAll(w, k, d, candidates) == LoadAll(w, k, d, candidates[..n])
  {
    if n < |candidates| {
      var front := candidates[..|candidates| - 1];
      assert front[..n] == candidates[..n];
      LoadAllFails(w, k, d, front, n);
    } else {
      assert candidates[..n] == candidates;
    }
  }

  lemma LoadAllStep<Body>(
    w: World<Body>, k: Key, d: Disk, candidates: seq<Path>, n: nat, m: map<string, Document<Body>>)
    requires n < |candidates| && LoadAll(w, k, d, candidates[..n]) == Ok(m)
    ensures LoadAll(w, k, d, candidates[..n + 1]) ==
            match LoadOne(w, k, d, candidates[n])
            case Err(e) => Err(e)
            case Ok(None) => Ok(m)
            case Ok(Some(document)) => Ok(m[document.path := document])
  {
    var upTo := candidates[..n + 1];
    assert upTo[..|upTo| - 1] == candidates[..n] && upTo[|upTo| - 1] == candidates[n];
  }

  lemma DocumentsOfFiled<Body>(e: Entry<Body>, rel: string, c: Cached<Body>)
    ensures Documents(Entry(e.discovery, e.documents[rel := c])) == Documents(e)[rel := c.document]
  {
  }

  /** Reusing a document gives what reading the file would have given. */
  lemma ReusedIsLoaded<Body>(w: World<Body>, k: Key, d: Disk, cached: Option<Entry<Body>>, p: Path, fp: FileFingerprint)
    requires CorpusRuns.PriorOk(w, k, cached, d) && k.root <= p && FileFp(d, p) == Some(fp)
    requires ReuseCached(cached, Rel(k.root, p), p, fp).Some? && Wanted(w, k, d, p)
    ensures LoadOne(w, k, d, p) == Ok(Some(ReuseCached(cached, Rel(k.root, p), p, fp).value))
  {
    CorpusRuns.ReusedIsOk(w, k, cached, Rel(k.root, p), p, fp, d);
  }

  lemma ReuseIsPair<Body>(w: World<Body>, k: Key, d: Disk, cached: Option<Entry<Body>>, p: Path, fp: FileFingerprint)
    requires CorpusRuns.PriorOk(w, k, cached, d) && k.root <= p
    ensures ReuseCached(cached, Rel(k.root, p), p, fp).Some? <==> HoldsPair(cached, p, Some(fp))
  {
    if HoldsPair(cached, p, Some(fp)) {
      var rel :| rel in cached.value.documents
                 && cached.value.documents[rel].document.absolute == p
                 && Some(cached.value.documents[rel].fingerprint) == Some(fp);
      CorpusRuns.EntryDocument(w, k, cached.value, d, rel);
    }
  }

  lemma CandidatesAscend<Body>(w: World<Body>, k: Key, d: Disk)
    requires Discover(w, k, d).Ok?
    ensures Order.Ascending(Order.PathLess, Discover(w, k, d).value.candidates)
  {
    Order.PathOrder();
  }

  /** The files read are exactly the candidates that the previous entry does not hold under their fingerprint. */
  ghost predicate ReadsAre<Body>(cached: Option<Entry<Body>>, d: Disk, candidates: seq<Path>, fetched: seq<Path>) {
    && Order.Ascending(Order.PathLess, fetched)
    && forall p :: p in fetched <==> p in candidates && !HoldsPair(cached, p, FileFp(d, p))
  }

  /** A load has to read `p`: it is neither skipped nor held. */
  ghost predicate Needs<Body>(w: World<Body>, k: Key, d: Disk, cached: Option<Entry<Body>>, p: Path) {
    LoadOne(w, k, d, p) != Ok(None) && !HoldsPair(cached, p, FileFp(d, p))
  }

  ghost predicate ReadsSoFar<Body>(
    w: World<Body>, k: Key, d: Disk, cached: Option<Entry<Body>>, candidates: seq<Path>, fetched: seq<Path>)
  {
    && Order.Ascending(Order.PathLess, fetched)
    && forall p :: p in fetched <==> p in candidates && Needs(w, k, d, cached, p)
  }

  lemma ReadsGrow<Body>(
    w: World<Body>, k: Key, d: Disk, cached: Option<Entry<Body>>, candidates: seq<Path>, n: nat, fetched: seq<Path>)
    requires n < |candidates| && Order.Ascending(Order.PathLess, candidates)
    requires ReadsSoFar(w, k, d, cached, candidates[..n], fetched)
    ensures ReadsSoFar(w, k, d, cached, candidates[..n + 1],
                       if Needs(w, k, d, cached, candidates[n]) then fetched + [candidates[n]] else fetched)
  {
    var p := candidates[n];
    assert candidates[..n + 1] == candidates[..n] + [p];
    forall i | 0 <= i < |fetched| ensures Order.PathLess(fetched[i], p) {
      assert fetched[i] in fetched;
      var j :| 0 <= j < n && candidates[..n][j] == fetched[i];
      assert candidates[j] == fetched[i];
    }
  }

  lemma DiscoveryIsFresh<Body>(w: World<Body>, k: Key, d: Disk)
    requires Discover(w, k, d).Ok?
    ensures DirsFresh(Discover(w, k, d).value, d)
  {
  }

  ghost predicate Tally<Body>(
    w: World<Body>, k: Key, d: Disk, cached: Option<Entry<Body>>, e: Entry<Body>, n: nat, fetched: seq<Path>)
  {
    && n <= |e.discovery.candidates| && DocumentsFresh(e, d)
    && LoadAll(w, k, d, e.discovery.candidates[..n]) == Ok(Documents(e))
    && ReadsSoFar(w, k, d, cached, e.discovery.candidates[..n], fetched)
  }

  /** What the loop over the candidates has established after `n` of them. */
  ghost predicate Collected<Body>(
    w: World<Body>, k: Key, d: Disk, cached: Option<Entry<Body>>, e: Entry<Body>, n: nat, fetched: seq<Path>)
  {
    exists origin :: BornAt(w, k, e, n, origin, d) && Tally(w, k, d, cached, e, n, fetched)
  }

  lemma CollectedParts<Body>(
    w: World<Body>, k: Key, d: Disk, cached: Option<Entry<Body>>, e: Entry<Body>, n: nat, fetched: seq<Path>)
    ensures Collected(w, k, d, cached, e, n, fetched) <==>
            PartOk(w, k, e, n, d) && Tally(w, k, d, cached, e, n, fetched)
  {
  }

  lemma TallyGrows<Body>(
    w: World<Body>, k: Key, d: Disk, cached: Option<Entry<Body>>, e: Entry<Body>, n: nat, fetched: seq<Path>,
    c: Cached<Body>)
    requires Tally(w, k, d, cached, e, n, fetched) && n < |e.discovery.candidates|
    requires Order.Ascending(Order.PathLess, e.discovery.candidates)
    requires var p := e.discovery.candidates[n];
             && c.document.absolute == p
             && FileFp(d, p) == Some(c.fingerprint) && LoadOne(w, k, d, p) == Ok(Some(c.document))
    ensures var p := e.discovery.candidates[n];
            Tally(w, k, d, cached, Entry(e.discovery, e.documents[c.document.path := c]), n + 1,
                  if Needs(w, k, d, cached, p) then fetched + [p] else fetched)
  {
    var candidates := e.discovery.candidates;
    LoadAllStep(w, k, d, candidates, n, Documents(e));
    ReadsGrow(w, k, d, cached, candidates, n, fetched);
    DocumentsOfFiled(e, c.document.path, c);
  }

  lemma TallySkips<Body>(
    w: World<Body>, k: Key, d: Disk, cached: Option<Entry<Body>>, e: Entry<Body>, n: nat, fetched: seq<Path>)
    requires Tally(w, k, d, cached, e, n, fetched) && n < |e.discovery.candidates|
    requires Order.Ascending(Order.PathLess, e.discovery.candidates)
    requires LoadOne(w, k, d, e.discovery.candidates[n]) == Ok(None)
    ensures Tally(w, k, d, cached, e, n + 1, fetched)
  {
    LoadAllStep(w, k, d, e.discovery.candidates, n, Documents(e));
    ReadsGrow(w, k, d, cached, e.discovery.candidates, n, fetched);
  }

  /** A candidate that is gone is passed over without losing the invariant of the entry. */
  lemma PartPasses<Body>(w: World<Body>, k: Key, e: Entry<Body>, n: nat, d: Disk)
    requires PartOk(w, k, e, n, d) && n < |e.discovery.candidates|
    requires LoadOne(w, k, d, e.discovery.candidates[n]) == Ok(None)
    ensures PartOk(w, k, e, n + 1, d)
  {
    CorpusRuns.PartWants(w, k, e, n, d);
    CorpusRuns.PartSkips(w, k, e, n, d);
  }

  lemma CollectsNone<Body>(
    w: World<Body>, k: Key, d: Disk, cached: Option<Entry<Body>>, e: Entry<Body>, n: nat, fetched: seq<Path>)
    requires Collected(w, k, d, cached, e, n, fetched) && n < |e.discovery.candidates|
    requires Order.Ascending(Order.PathLess, e.discovery.candidates)
    requires LoadOne(w, k, d, e.discovery.candidates[n]) == Ok(None)
    ensures Collected(w, k, d, cached, e, n + 1, fetched)
  {
    CollectedParts(w, k, d, cached, e, n, fetched);
    PartPasses(w, k, e, n, d);
    TallySkips(w, k, d, cached, e, n, fetched);
    CollectedParts(w, k, d, cached, e, n + 1, fetched);
  }

  lemma CollectsOne<Body>(
    w: World<Body>, k: Key, d: Disk, cached: Option<Entry<Body>>, e: Entry<Body>, n: nat, fetched: seq<Path>,
    c: Cached<Body>)
    requires Collected(w, k, d, cached, e, n, fetched) && n < |e.discovery.candidates|
    requires Order.Ascending(Order.PathLess, e.discovery.candidates)
    requires var p := e.discovery.candidates[n];
             && CachedOk(w, k, c.document.path, c, d) && c.document.absolute == p
             && FileFp(d, p) == Some(c.fingerprint) && LoadOne(w, k, d, p) == Ok(Some(c.document))
    ensures var p := e.discovery.candidates[n];
            Collected(w, k, d, cached, Entry(e.discovery, e.documents[c.document.path := c]), n + 1,
                      if Needs(w, k, d, cached, p) then fetched + [p] else fetched)
  {
    CollectedParts(w, k, d, cached, e, n, fetched);
    CorpusRuns.PartGrows(w, k, e, n, d, c);
    TallyGrows(w, k, d, cached, e, n, fetched, c);
    var p := e.discovery.candidates[n];
    CollectedParts(w, k, d, cached, Entry(e.discovery, e.documents[c.document.path := c]), n + 1,
                   if Needs(w, k, d, cached, p) then fetched + [p] else fetched);
  }

  lemma PartTree<Body>(w: World<Body>, k: Key, e: Entry<Body>, n: nat, d: Disk)
    requires PartOk(w, k, e, n, d)
    ensures Tree(d)
  {
    var origin :| BornAt(w, k, e, n, origin, d);
  }

  lemma TallyStarts<Body>(w: World<Body>, k: Key, d: Disk, cached: Option<Entry<Body>>, discovery: Discovery)
    ensures Tally(w, k, d, cached, Entry(discovery, map[]), 0, [])
  {
    var e: Entry<Body> := Entry(discovery, map[]);
    assert Documents(e) == map[];
    assert e.discovery.candidates[..0] == [];
  }

  lemma CollectStarts<Body>(w: World<Body>, k: Key, d: Disk, cached: Option<Entry<Body>>)
    requires Tree(d) && Discover(w, k, d).Ok?
    ensures Collected(w, k, d, cached, Entry(Discover(w, k, d).value, map[]), 0, [])
  {
    var e: Entry<Body> := Entry(Discover(w, k, d).value, map[]);
    CorpusRuns.DiscoverStarts(w, k, d);
    TallyStarts(w, k, d, cached, e.discovery);
    CollectedParts(w, k, d, cached, e, 0, []);
  }

  lemma TallyEnds<Body>(
    w: World<Body>, k: Key, d: Disk, cached: Option<Entry<Body>>, e: Entry<Body>, fetched: seq<Path>)
    requires Tally(w, k, d, cached, e, |e.discovery.candidates|, fetched)
    ensures LoadAll(w, k, d, e.discovery.candidates) == Ok(Documents(e))
    ensures DocumentsFresh(e, d) && ReadsSoFar(w, k, d, cached, e.discovery.candidates, fetched)
  {
    assert e.discovery.candidates[..|e.discovery.candidates|] == e.discovery.candidates;
  }

  /** On a disk that holds still no candidate is skipped. */
  lemma NoneSkipped<Body>(
    w: World<Body>, k: Key, d: Disk, cached: Option<Entry<Body>>, discovery: Discovery, fetched: seq<Path>)
    requires Tree(d) && Discover(w, k, d) == Ok(discovery)
    requires ReadsSoFar(w, k, d, cached, discovery.candidates, fetched)
    ensures ReadsAre(cached, d, discovery.candidates, fetched)
  {
    forall p | p in discovery.candidates ensures LoadOne(w, k, d, p) != Ok(None) {
      CandidateFacts(w, k, d, discovery, p);
    }
  }

  lemma CollectedAll<Body>(
    w: World<Body>, k: Key, d: Disk, cached: Option<Entry<Body>>, e: Entry<Body>, fetched: seq<Path>)
    requires Discover(w, k, d) == Ok(e.discovery)
    requires Collected(w, k, d, cached, e, |e.discovery.candidates|, fetched)
    ensures FreshLoad(w, k, d) == Ok(Values(Documents(e)))
    ensures EntryOk(w, k, e, d) && IsHit(Some(e), d)
    ensures ReadsAre(cached, d, e.discovery.candidates, fetched)
  {
    CollectedParts(w, k, d, cached, e, |e.discovery.candidates|, fetched);
    TallyEnds(w, k, d, cached, e, fetched);
    DiscoveryIsFresh(w, k, d);
    PartTree(w, k, e, |e.discovery.candidates|, d);
    NoneSkipped(w, k, d, cached, e.discovery, fetched);
  }

  lemma HitIsSound<Body>(w: World<Body>, k: Key, d: Disk, cached: Option<Entry<Body>>)
    requires CorpusRuns.PriorOk(w, k, cached, d) && IsHit(cached, d)
    ensures ExtrasCovered(w, k) ==> FreshLoad(w, k, d) == Ok(Values(Documents(cached.value)))
  {
    if ExtrasCovered(w, k) {
      MatchingEntryIsFresh(w, k, cached.value, d);
    }
  }

  lemma InsertKeepsCache<Body>(w: World<Body>, entries: map<Key, Entry<Body>>, k: Key, e: Entry<Body>, d: Disk)
    requires CorpusRuns.CacheOk(w, entries, d) && EntryOk(w, k, e, d)
    ensures CorpusRuns.CacheOk(w, entries[k := e], d)
  {
  }

  class CorpusCache<Body> {
    const world: World<Body>
    var entries: map<Key, Entry<Body>>

    constructor (w: World<Body>)
      ensures world == w && entries == map[]
    {
      world := w;
      entries := map[];
    }

    /** Holds for the cache of every reachable state of `CorpusRuns`. */
    ghost predicate Valid(d: Disk)
      reads this
    {
      Tree(d) && CorpusRuns.CacheOk(world, entries, d)
    }

    static method DirectoriesAreFresh(e: Entry<Body>, d: Disk) returns (valid: bool)
      ensures valid <==> DirsFresh(e.discovery, d)
    {
      var order := CorpusRuns.DirOrder(e);
      for n := 0 to |order|
        invariant forall j :: 0 <= j < n ==> order[j] in e.discovery.directories && DirFresh(e.discovery, d, order[j])
      {
        assert order[n] in e.discovery.directories.Keys;
        if DirFp(d, order[n]) != e.discovery.directories[order[n]] {
          assert !DirFresh(e.discovery, d, order[n]);
          return false;
        }
      }
      forall q | q in e.discovery.directories ensures DirFresh(e.discovery, d, q) {
        assert q in order;
      }
      return true;
    }

    static method DocumentsAreFresh(e: Entry<Body>, d: Disk) returns (valid: bool)
      ensures valid <==> DocumentsFresh(e, d)
    {
      var order := CorpusRuns.DocOrder(e);
      for n := 0 to |order|
        invariant CorpusRuns.CheckedDocs(e, d, n)
      {
        assert order[n] in e.documents.Keys;
        var current := FileFp(d, e.documents[order[n]].document.absolute);
        if current.None? || current.value != e.documents[order[n]].fingerprint {
          return false;
        }
      }
      CorpusRuns.AllDocsChecked(e, d);
      return true;
    }

    /** The freshness check: directories first, then documents, stopping at the first mismatch. */
    static method CanReturn(cached: Option<Entry<Body>>, d: Disk) returns (hit: bool)
      ensures hit <==> IsHit(cached, d)
    {
      hit := false;
      if cached.Some? {
        hit := DirectoriesAreFresh(cached.value, d);
        if hit {
          hit := DocumentsAreFresh(cached.value, d);
        }
      }
    }

    /** The document of a present candidate, taken from the previous entry or read. */
    static method Obtain(w: World<Body>, k: Key, d: Disk, cached: Option<Entry<Body>>, p: Path, fp: FileFingerprint)
      returns (r: Result<Document<Body>>, read: bool)
      requires CorpusRuns.PriorOk(w, k, cached, d)
      requires k.root <= p && FileFp(d, p) == Some(fp) && fp.ns < d.clock && Wanted(w, k, d, p)
      ensures read <==> !HoldsPair(cached, p, FileFp(d, p))
      ensures r.Err? ==> LoadOne(w, k, d, p) == Err(r.error)
      ensures r.Ok? ==> LoadOne(w, k, d, p) == Ok(Some(r.value))
      ensures r.Ok? ==> CachedOk(w, k, r.value.path, Cached(fp, r.value), d) && r.value.absolute == p
    {
      ReuseIsPair(w, k, d, cached, p, fp);
      var reused := ReuseCached(cached, Rel(k.root, p), p, fp);
      if reused.Some? {
        ReusedIsLoaded(w, k, d, cached, p, fp);
        CorpusRuns.ReusedIsOk(w, k, cached, Rel(k.root, p), p, fp, d);
        return Ok(reused.value), false;
      }
      r, read := ReadDocument(w, k, d, p, fp.ms), true;
      if r.Ok? {
        CorpusRuns.ReadIsOk(w, k, d, p, fp);
      }
    }

    /** One path: skipped if it is gone or not wanted, otherwise its document and whether it was read. */
    static method Fetch(w: World<Body>, k: Key, d: Disk, cached: Option<Entry<Body>>, p: Path)
      returns (r: Result<Option<Cached<Body>>>, read: bool)
      requires Tree(d) && CorpusRuns.PriorOk(w, k, cached, d)
      ensures r.Err? ==> LoadOne(w, k, d, p) == Err(r.error)
      ensures r == Ok(None) ==> LoadOne(w, k, d, p) == Ok(None)
      ensures read <==> FileFp(d, p).Some? && k.root <= p && Wanted(w, k, d, p) && !HoldsPair(cached, p, FileFp(d, p))
      ensures r.Ok? && r.value.Some? ==>
                && LoadOne(w, k, d, p) == Ok(Some(r.value.value.document))
                && FileFp(d, p) == Some(r.value.value.fingerprint) && r.value.value.document.absolute == p
                && CachedOk(w, k, r.value.value.document.path, r.value.value, d)
                && (read <==> Needs(w, k, d, cached, p))
    {
      var fp := FileFp(d, p);
      if fp.None? {
        return Ok(None), false;
      }
      if !(k.root <= p) {
        return Err(OutsideWorkspace(p)), false;
      }
      if !Wanted(w, k, d, p) {
        return Ok(None), false;
      }
      var got;
      got, read := Obtain(w, k, d, cached, p, fp.value);
      r := if got.Err? then Err(got.error) else Ok(Some(Cached(fp.value, got.value)));
    }

    /** One turn of the loop. */
    static method CollectNext(
      w: World<Body>, k: Key, d: Disk, cached: Option<Entry<Body>>, e: Entry<Body>, n: nat, fetched: seq<Path>)
      returns (r: Result<Entry<Body>>, fetched': seq<Path>)
      requires CorpusRuns.PriorOk(w, k, cached, d) && Order.Ascending(Order.PathLess, e.discovery.candidates)
      requires Collected(w, k, d, cached, e, n, fetched) && n < |e.discovery.candidates|
      ensures r.Err? ==> LoadAll(w, k, d, e.discovery.candidates) == Err(r.error)
      ensures r.Ok? ==> r.value.discovery == e.discovery && Collected(w, k, d, cached, r.value, n + 1, fetched')
    {
      var p := e.discovery.candidates[n];
      CollectedParts(w, k, d, cached, e, n, fetched);
      PartTree(w, k, e, n, d);
      var got, read := Fetch(w, k, d, cached, p);
      if got.Err? {
        LoadAllStep(w, k, d, e.discovery.candidates, n, Documents(e));
        LoadAllFails(w, k, d, e.discovery.candidates, n + 1);
        return Err(got.error), fetched;
      }
      if got.value.None? {
        CollectsNone(w, k, d, cached, e, n, fetched);
        return Ok(e), fetched;
      }
      var c := got.value.value;
      CollectsOne(w, k, d, cached, e, n, fetched, c);
      r := Ok(Entry(e.discovery, e.documents[c.document.path := c]));
      fetched' := if read then fetched + [p] else fetched;
    }

    /** The loop over the candidates of a discovery, with documents reused where they can be. */
    static method Collect(w: World<Body>, k: Key, d: Disk, cached: Option<Entry<Body>>, discovery: Discovery)
      returns (r: Result<Entry<Body>>, fetched: seq<Path>)
      requires Tree(d) && CorpusRuns.PriorOk(w, k, cached, d) && Discover(w, k, d) == Ok(discovery)
      ensures r.Err? ==> LoadAll(w, k, d, discovery.candidates) == Err(r.error)
      ensures r.Ok? ==> r.value.discovery == discovery
      ensures r.Ok? ==> Collected(w, k, d, cached, r.value, |discovery.candidates|, fetched)
    {
      var e: Entry<Body> := Entry(discovery, map[]);
      fetched := [];
      CollectStarts(w, k, d, cached);
      CandidatesAscend(w, k, d);
      for n := 0 to |discovery.candidates|
        invariant e.discovery == discovery
        invariant Collected(w, k, d, cached, e, n, fetched)
      {
        r, fetched := CollectNext(w, k, d, cached, e, n, fetched);
        if r.Err? {
          return;
        }
        e := r.value;
      }
      r := Ok(e);
    }

    /** A load that cannot use its entry as it stands. */
    static method Rebuild(w: World<Body>, k: Key, d: Disk, cached: Option<Entry<Body>>)
      returns (r: Result<Entry<Body>>, fetched: seq<Path>)
      requires Tree(d) && CorpusRuns.PriorOk(w, k, cached, d)
      ensures r.Err? ==> FreshLoad(w, k, d) == Err(r.error)
      ensures r.Ok? ==> FreshLoad(w, k, d) == Ok(Values(Documents(r.value)))
      ensures r.Ok? ==> EntryOk(w, k, r.value, d) && IsHit(Some(r.value), d)
      ensures r.Ok? ==> Discover(w, k, d).Ok? && ReadsAre(cached, d, Discover(w, k, d).value.candidates, fetched)
    {
      var discovered := Discover(w, k, d);
      if discovered.Err? {
        return Err(discovered.error), [];
      }
      r, fetched := Collect(w, k, d, cached, discovered.value);
      if r.Ok? {
        CollectedAll(w, k, d, cached, r.value, fetched);
      }
    }

    /**
     One load. `fetched` are the files whose text was read. A hit leaves the cache alone and
     reads nothing; a miss returns the load from scratch, reads exactly the candidates that
     the previous entry does not hold under their current fingerprint, and leaves an entry
     that the next load will hit; a failing load stores nothing.
     */
    method Load(k: Key, d: Disk) returns (r: Result<seq<Document<Body>>>, fetched: seq<Path>)
      requires Valid(d)
      modifies this
      ensures Valid(d)
      ensures ExtrasCovered(world, k) ==> r == FreshLoad(world, k, d)
      ensures IsHitFor(old(entries), k, d) ==>
                && r == Ok(Values(Documents(old(entries)[k])))
                && fetched == [] && entries == old(entries)
      ensures !IsHitFor(old(entries), k, d) ==> r == FreshLoad(world, k, d)
      ensures !IsHitFor(old(entries), k, d) && r.Ok? ==>
                && k in entries && entries == old(entries)[k := entries[k]]
                && IsHitFor(entries, k, d) && r.value == Values(Documents(entries[k]))
                && ReadsAre(if k in old(entries) then Some(old(entries)[k]) else None, d,
                            Discover(world, k, d).value.candidates, fetched)
      ensures r.Err? ==> entries == old(entries)
    {
      var cached := Find(entries, k);
      FoundIsHit(entries, k, d);
      var hit := CanReturn(cached, d);
      if hit {
        HitIsSound(world, k, d, cached);
        return Ok(Values(Documents(cached.value))), [];
      }
      var built;
      built, fetched := Rebuild(world, k, d, cached);
      if built.Err? {
        return Err(built.error), fetched;
      }
      InsertKeepsCache(world, entries, k, built.value, d);
      entries := entries[k := built.value];
      FoundIsHit(entries, k, d);
      r := Ok(Values(Documents(built.value)));
    }
  }
}
