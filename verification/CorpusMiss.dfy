/**
 What a rebuilding load returns in the midst of other loads: if no writer changes the disk
 between its discovery and its insertion, it is the load from scratch, whatever entry it
 started from and whatever other loads store meanwhile.
 */
module CorpusMiss {
  import opened Prelude
  import opened Storage
  import opened Corpus
  import opened CorpusRuns
  import opened CorpusLoad

  /** The documents collected so far are those of a load from scratch of `d`. */
  ghost predicate Matches<Body>(w: World<Body>, k: Key, d: Disk, e: Entry<Body>, n: nat) {
    && Discover(w, k, d) == Ok(e.discovery) && n <= |e.discovery.candidates|
    && LoadAll(w, k, d, e.discovery.candidates[..n]) == Ok(Documents(e))
  }

  ghost predicate OnTrack<Body>(w: World<Body>, k: Key, d: Disk, phase: Phase<Body>) {
    match phase
    case Building(cached, e, n) => Matches(w, k, d, e, n)
    case Reading(cached, e, n, fp) =>
      && Matches(w, k, d, e, n) && n < |e.discovery.candidates|
      && FileFp(d, e.discovery.candidates[n]) == Some(fp)
      && k.root <= e.discovery.candidates[n] && Wanted(w, k, d, e.discovery.candidates[n])
    case Stored(e) => FreshLoad(w, k, d) == Ok(Values(Documents(e)))
    case Failed => FreshLoad(w, k, d).Err?
    case _ => false
  }

  // ----- one step -----

  lemma DiscoveryStarts<Body>(w: World<Body>, k: Key, d: Disk, cached: Option<Entry<Body>>)
    ensures OnTrack(w, k, d, Discovered(w, k, d, cached))
  {
    if Discover(w, k, d).Ok? {
      var e: Entry<Body> := Entry(Discover(w, k, d).value, map[]);
      assert Documents(e) == map[] && e.discovery.candidates[..0] == [];
    }
  }

  lemma AllMatched<Body>(w: World<Body>, k: Key, d: Disk, e: Entry<Body>, n: nat)
    requires Matches(w, k, d, e, n) && n >= |e.discovery.candidates|
    ensures FreshLoad(w, k, d) == Ok(Values(Documents(e)))
  {
    assert e.discovery.candidates[..n] == e.discovery.candidates;
  }

  lemma SkipMatches<Body>(w: World<Body>, k: Key, d: Disk, e: Entry<Body>, n: nat)
    requires Matches(w, k, d, e, n) && n < |e.discovery.candidates|
    requires LoadOne(w, k, d, e.discovery.candidates[n]) == Ok(None)
    ensures Matches(w, k, d, e, n + 1)
  {
    LoadAllStep(w, k, d, e.discovery.candidates, n, Documents(e));
  }

  lemma TakeMatches<Body>(
    w: World<Body>, k: Key, d: Disk, e: Entry<Body>, n: nat, fp: FileFingerprint, document: Document<Body>)
    requires Matches(w, k, d, e, n) && n < |e.discovery.candidates|
    requires LoadOne(w, k, d, e.discovery.candidates[n]) == Ok(Some(document))
    ensures Matches(w, k, d, WithDocument(e, document.path, fp, document), n + 1)
  {
    LoadAllStep(w, k, d, e.discovery.candidates, n, Documents(e));
    DocumentsOfFiled(e, document.path, Cached(fp, document));
  }

  lemma FailureMatches<Body>(w: World<Body>, k: Key, d: Disk, e: Entry<Body>, n: nat)
    requires Matches(w, k, d, e, n) && n < |e.discovery.candidates|
    requires LoadOne(w, k, d, e.discovery.candidates[n]).Err?
    ensures FreshLoad(w, k, d).Err?
  {
    LoadAllStep(w, k, d, e.discovery.candidates, n, Documents(e));
    LoadAllFails(w, k, d, e.discovery.candidates, n + 1);
  }

  lemma ReusedPath<Body>(w: World<Body>, k: Key, d: Disk, cached: Option<Entry<Body>>, p: Path, fp: FileFingerprint)
    requires PriorOk(w, k, cached, d) && k.root <= p && ReuseCached(cached, Rel(k.root, p), p, fp).Some?
    ensures ReuseCached(cached, Rel(k.root, p), p, fp).value.path == Rel(k.root, p)
  {
    EntryDocument(w, k, cached.value, d, Rel(k.root, p));
  }

  lemma FingerprintedOnTrack<Body>(w: World<Body>, k: Key, d: Disk, cached: Option<Entry<Body>>, e: Entry<Body>, n: nat)
    requires PriorOk(w, k, cached, d) && Matches(w, k, d, e, n) && n < |e.discovery.candidates|
    ensures OnTrack(w, k, d, Fingerprinted(w, k, d, cached, e, n))
  {
    var p := e.discovery.candidates[n];
    var fp := FileFp(d, p);
    if fp.None? {
      SkipMatches(w, k, d, e, n);
    } else if !(k.root <= p) {
      FailureMatches(w, k, d, e, n);
    } else if !Wanted(w, k, d, p) {
      SkipMatches(w, k, d, e, n);
    } else {
      var reused := ReuseCached(cached, Rel(k.root, p), p, fp.value);
      if reused.Some? {
        ReusedIsLoaded(w, k, d, cached, p, fp.value);
        ReusedPath(w, k, d, cached, p, fp.value);
        TakeMatches(w, k, d, e, n, fp.value, reused.value);
      }
    }
  }

  lemma ReadOnTrack<Body>(
    w: World<Body>, k: Key, d: Disk, cached: Option<Entry<Body>>, e: Entry<Body>, n: nat, fp: FileFingerprint)
    requires OnTrack(w, k, d, Reading(cached, e, n, fp))
    ensures OnTrack(w, k, d, Read(w, k, d, cached, e, n, fp))
  {
    var p := e.discovery.candidates[n];
    match ReadDocument(w, k, d, p, fp.ms)
    case Err(_) => FailureMatches(w, k, d, e, n);
    case Ok(document) => TakeMatches(w, k, d, e, n, fp, document);
  }

  lemma AdvanceBuilding<Body>(
    w: World<Body>, k: Key, d: Disk, cache: map<Key, Entry<Body>>, cached: Option<Entry<Body>>, e: Entry<Body>, n: nat)
    ensures Advance(w, k, d, cache, Building(cached, e, n)) ==
            if n >= |e.discovery.candidates| then Stored(e) else Fingerprinted(w, k, d, cached, e, n)
  {
  }

  lemma AdvanceReading<Body>(
    w: World<Body>, k: Key, d: Disk, cache: map<Key, Entry<Body>>, cached: Option<Entry<Body>>, e: Entry<Body>, n: nat,
    fp: FileFingerprint)
    requires n < |e.discovery.candidates| && k.root <= e.discovery.candidates[n]
    ensures Advance(w, k, d, cache, Reading(cached, e, n, fp)) == Read(w, k, d, cached, e, n, fp)
  {
  }

  lemma BuildOnTrack<Body>(w: World<Body>, k: Key, d: Disk, cached: Option<Entry<Body>>, e: Entry<Body>, n: nat)
    requires PriorOk(w, k, cached, d) && Matches(w, k, d, e, n)
    ensures n >= |e.discovery.candidates| ==> OnTrack(w, k, d, Stored(e))
    ensures n < |e.discovery.candidates| ==> OnTrack(w, k, d, Fingerprinted(w, k, d, cached, e, n))
  {
    if n >= |e.discovery.candidates| {
      AllMatched(w, k, d, e, n);
    } else {
      FingerprintedOnTrack(w, k, d, cached, e, n);
    }
  }

  lemma AdvanceOnTrack<Body>(w: World<Body>, k: Key, d: Disk, cache: map<Key, Entry<Body>>, phase: Phase<Body>)
    requires PhaseOk(w, k, phase, d) && OnTrack(w, k, d, phase)
    ensures OnTrack(w, k, d, Advance(w, k, d, cache, phase))
  {
    match phase
    case Building(cached, e, n) =>
      AdvanceBuilding(w, k, d, cache, cached, e, n);
      BuildOnTrack(w, k, d, cached, e, n);
    case Reading(cached, e, n, fp) =>
      AdvanceReading(w, k, d, cache, cached, e, n, fp);
      ReadOnTrack(w, k, d, cached, e, n, fp);
    case _ =>
  }

  // ----- whole runs -----

  /** What one step of the run means for one load. */
  lemma LoaderStep<Body>(w: World<Body>, s: State<Body>, s': State<Body>, i: nat)
    requires Next(w, s, s') && i < |s.loaders|
    ensures i < |s'.loaders| && s'.loaders[i].key == s.loaders[i].key
    ensures var phase := s.loaders[i].phase;
            s'.loaders[i].phase in {phase, Advance(w, s.loaders[i].key, s.disk, s.cache, phase), Failed}
    ensures s.loaders[i].phase.Failed? ==> s'.loaders[i].phase.Failed?
  {
    var step :| Takes(w, s, step, s');
  }

  /** Load `i` makes its discovery in the step after state `p`, and no disk but that one is there until `n`. */
  ghost predicate QuietSince<Body>(w: World<Body>, tr: seq<State<Body>>, p: nat, n: nat, i: nat) {
    && Run(w, tr) && p < n < |tr|
    && i < |tr[p].loaders| && tr[p].loaders[i].phase.Missed?
    && i < |tr[p + 1].loaders| && tr[p + 1].loaders[i].phase.Building?
    && forall m :: p <= m <= n ==> tr[m].disk == tr[p].disk
  }

  lemma {:induction false} LoaderStays<Body>(w: World<Body>, tr: seq<State<Body>>, p: nat, n: nat, i: nat)
    requires Run(w, tr) && p <= n < |tr| && i < |tr[p].loaders|
    ensures i < |tr[n].loaders| && tr[n].loaders[i].key == tr[p].loaders[i].key
    decreases n
  {
    if p < n {
      LoaderStays(w, tr, p, n - 1, i);
      assert StepsAt(w, tr, n - 1);
      LoaderStep(w, tr[n - 1], tr[n], i);
    }
  }

  lemma FirstOnTrack<Body>(w: World<Body>, tr: seq<State<Body>>, p: nat, n: nat, i: nat)
    requires QuietSince(w, tr, p, n, i)
    ensures OnTrack(w, tr[p].loaders[i].key, tr[p].disk, tr[p + 1].loaders[i].phase)
  {
    assert StepsAt(w, tr, p);
    LoaderStep(w, tr[p], tr[p + 1], i);
    DiscoveryStarts(w, tr[p].loaders[i].key, tr[p].disk, tr[p].loaders[i].phase.cached);
  }

  lemma NextOnTrack<Body>(w: World<Body>, s: State<Body>, s': State<Body>, i: nat)
    requires Inv(w, s) && Next(w, s, s') && i < |s.loaders|
    requires OnTrack(w, s.loaders[i].key, s.disk, s.loaders[i].phase)
    ensures i < |s'.loaders|
    ensures s'.loaders[i].phase.Failed? || OnTrack(w, s.loaders[i].key, s.disk, s'.loaders[i].phase)
  {
    LoaderStep(w, s, s', i);
    assert PhaseOk(w, s.loaders[i].key, s.loaders[i].phase, s.disk);
    AdvanceOnTrack(w, s.loaders[i].key, s.disk, s.cache, s.loaders[i].phase);
  }

  /** Load `i` has failed by state `n`, or has what a load from scratch of the disk in state `p` has. */
  ghost predicate TracksAt<Body>(w: World<Body>, tr: seq<State<Body>>, p: nat, n: nat, i: nat) {
    && p < |tr| && n < |tr| && i < |tr[p].loaders| && i < |tr[n].loaders|
    && tr[n].loaders[i].key == tr[p].loaders[i].key && tr[n].disk == tr[p].disk
    && (tr[n].loaders[i].phase.Failed? || OnTrack(w, tr[p].loaders[i].key, tr[p].disk, tr[n].loaders[i].phase))
  }

  lemma TracksOn<Body>(w: World<Body>, tr: seq<State<Body>>, p: nat, n: nat, i: nat)
    requires Run(w, tr) && n + 1 < |tr| && TracksAt(w, tr, p, n, i) && tr[n + 1].disk == tr[p].disk
    ensures TracksAt(w, tr, p, n + 1, i)
  {
    RunKeepsInv(w, tr, n);
    assert StepsAt(w, tr, n);
    LoaderStep(w, tr[n], tr[n + 1], i);
    if !tr[n].loaders[i].phase.Failed? {
      NextOnTrack(w, tr[n], tr[n + 1], i);
    }
  }

  lemma TracksFirst<Body>(w: World<Body>, tr: seq<State<Body>>, p: nat, n: nat, i: nat)
    requires QuietSince(w, tr, p, n, i)
    ensures TracksAt(w, tr, p, p + 1, i)
  {
    LoaderStays(w, tr, p, p + 1, i);
    FirstOnTrack(w, tr, p, n, i);
  }

  lemma {:induction false} StaysOnTrack<Body>(w: World<Body>, tr: seq<State<Body>>, p: nat, n: nat, i: nat)
    requires QuietSince(w, tr, p, n, i)
    ensures TracksAt(w, tr, p, n, i)
    decreases n
  {
    if n == p + 1 {
      TracksFirst(w, tr, p, n, i);
    } else {
      StaysOnTrack(w, tr, p, n - 1, i);
      TracksOn(w, tr, p, n - 1, i);
    }
  }

  /** A load whose discovery, reads and insertion see one disk stores and returns the load from scratch of that disk. */
  lemma MissIsFresh<Body>(w: World<Body>, tr: seq<State<Body>>, p: nat, n: nat, i: nat)
    requires QuietSince(w, tr, p, n, i) && i < |tr[n].loaders| && tr[n].loaders[i].phase.Stored?
    ensures FreshLoad(w, tr[p].loaders[i].key, tr[p].disk) == Ok(Values(Documents(tr[n].loaders[i].phase.entry)))
  {
    StaysOnTrack(w, tr, p, n, i);
  }

  /** If such a load fails by a step of its own, so would the load from scratch. */
  lemma MissFailsRightly<Body>(w: World<Body>, tr: seq<State<Body>>, p: nat, n: nat, i: nat)
    requires QuietSince(w, tr, p, n, i) && n + 1 < |tr| && i < |tr[n].loaders| && !tr[n].loaders[i].phase.Failed?
    requires Takes(w, tr[n], Go(i), tr[n + 1]) && tr[n + 1].loaders[i].phase.Failed?
    ensures FreshLoad(w, tr[p].loaders[i].key, tr[p].disk).Err?
  {
    StaysOnTrack(w, tr, p, n, i);
    RunKeepsInv(w, tr, n);
    var l := tr[n].loaders[i];
    assert PhaseOk(w, l.key, l.phase, tr[n].disk);
    AdvanceOnTrack(w, l.key, tr[n].disk, tr[n].cache, l.phase);
  }

  // ----- a load that sees one disk -----

  predicate Built<Body>(phase: Phase<Body>) {
    phase.Building? || phase.Reading? || phase.Stored?
  }

  ghost predicate DiscoversAt<Body>(tr: seq<State<Body>>, p: nat, i: nat) {
    && p + 1 < |tr| && i < |tr[p].loaders| && tr[p].loaders[i].phase.Missed?
    && i < |tr[p + 1].loaders| && tr[p + 1].loaders[i].phase.Building?
  }

  lemma IntoBuilt<Body>(w: World<Body>, s: State<Body>, s': State<Body>, i: nat)
    requires Next(w, s, s') && i < |s'.loaders| && Built(s'.loaders[i].phase)
    ensures i < |s.loaders|
    ensures Built(s.loaders[i].phase) || (s.loaders[i].phase.Missed? && s'.loaders[i].phase.Building?)
  {
    var step :| Takes(w, s, step, s');
    assert i < |s.loaders|;
    AdvanceBuilds(w, s.loaders[i].key, s.disk, s.cache, s.loaders[i].phase);
  }

  lemma AdvanceBuilds<Body>(w: World<Body>, k: Key, d: Disk, cache: map<Key, Entry<Body>>, phase: Phase<Body>)
    ensures var next := Advance(w, k, d, cache, phase);
            Built(next) ==> Built(phase) || (phase.Missed? && next.Building?)
  {
    AdvanceWithin(w, k, d, cache, phase);
  }

  /** A load that builds an entry has made its discovery before. */
  lemma {:induction false} DiscoveryWas<Body>(w: World<Body>, tr: seq<State<Body>>, n: nat, i: nat)
    requires Run(w, tr) && n < |tr| && i < |tr[n].loaders| && Built(tr[n].loaders[i].phase)
    ensures exists p: nat :: p < n && DiscoversAt(tr, p, i)
  {
    assert n > 0;
    assert StepsAt(w, tr, n - 1);
    IntoBuilt(w, tr[n - 1], tr[n], i);
    if Built(tr[n - 1].loaders[i].phase) {
      DiscoveryWas(w, tr, n - 1, i);
    } else {
      assert DiscoversAt(tr, n - 1, i);
    }
  }

  /** Load `i` has returned by state `n`, and there was one disk for as long as it lived. */
  ghost predicate QuietLife<Body>(w: World<Body>, tr: seq<State<Body>>, n: nat, i: nat) {
    && Run(w, tr) && n < |tr| && i < |tr[n].loaders|
    && (tr[n].loaders[i].phase.Hit? || tr[n].loaders[i].phase.Stored?)
    && forall m :: 0 <= m <= n && i < |tr[m].loaders| ==> tr[m].disk == tr[n].disk
  }

  lemma QuietHit<Body>(w: World<Body>, tr: seq<State<Body>>, n: nat, i: nat)
    requires QuietLife(w, tr, n, i) && tr[n].loaders[i].phase.Hit? && ExtrasCovered(w, tr[n].loaders[i].key)
    ensures FreshLoad(w, tr[n].loaders[i].key, tr[n].disk) == Ok(Values(Documents(tr[n].loaders[i].phase.entry)))
  {
    HitIsLinearizable(w, tr, n, i);
  }

  lemma QuietFrom<Body>(w: World<Body>, tr: seq<State<Body>>, p: nat, n: nat, i: nat)
    requires QuietLife(w, tr, n, i) && p < n && DiscoversAt(tr, p, i)
    ensures QuietSince(w, tr, p, n, i)
  {
    forall m | p <= m <= n ensures tr[m].disk == tr[p].disk {
      LoaderStays(w, tr, p, m, i);
    }
  }

  lemma QuietMiss<Body>(w: World<Body>, tr: seq<State<Body>>, n: nat, i: nat)
    requires QuietLife(w, tr, n, i) && tr[n].loaders[i].phase.Stored?
    ensures FreshLoad(w, tr[n].loaders[i].key, tr[n].disk) == Ok(Values(Documents(tr[n].loaders[i].phase.entry)))
  {
    DiscoveryWas(w, tr, n, i);
    var p: nat :| p < n && DiscoversAt(tr, p, i);
    QuietFrom(w, tr, p, n, i);
    LoaderStays(w, tr, p, n, i);
    MissIsFresh(w, tr, p, n, i);
  }

  /**
   A load that sees one disk for as long as it lives returns the load from scratch of that
   disk, from the cache or rebuilt, whatever other loads do before and meanwhile. Only a hit
   needs its extra paths to lie in recorded directories.
   */
  lemma QuietLoadIsFresh<Body>(w: World<Body>, tr: seq<State<Body>>, n: nat, i: nat)
    requires QuietLife(w, tr, n, i)
    requires tr[n].loaders[i].phase.Stored? || ExtrasCovered(w, tr[n].loaders[i].key)
    ensures FreshLoad(w, tr[n].loaders[i].key, tr[n].disk) == Ok(Values(Documents(tr[n].loaders[i].phase.entry)))
  {
    if tr[n].loaders[i].phase.Stored? {
      QuietMiss(w, tr, n, i);
    } else {
      QuietHit(w, tr, n, i);
    }
  }
}
