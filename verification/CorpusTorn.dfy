/**
 A load fingerprints a file before it reads it, and decodes the text it reads with the time it
 saw first. Beside writers it can so put together a document that no disk ever held: the new
 text with the old time. When that can happen depends on the decoder alone.
 */
module CorpusTorn {
  import opened Prelude
  import opened Storage
  import opened Corpus
  import opened CorpusFreshness
  import opened CorpusRuns
  import opened CorpusLoad
  import opened CorpusMiss
  import opened CorpusStale
  import Order

  const NS_PER_MS: nat := 1_000_000

  /**
   `before` was written at stamp `s0` and `after` at `s1`. The document made of the new text and
   the old time is neither the one before nor the one after.
   */
  ghost predicate Tears<Body>(w: World<Body>, rel: string, before: string, after: string, s0: nat, s1: nat) {
    var torn := w.parse(rel, after, s0 / NS_PER_MS);
    && s0 < s1 && torn.Some?
    && w.parse(rel, before, s0 / NS_PER_MS) != torn && w.parse(rel, after, s1 / NS_PER_MS) != torn
  }

  ghost predicate Sensitive<Body>(w: World<Body>, rel: string) {
    exists before, after, s0, s1 :: Tears(w, rel, before, after, s0, s1)
  }

  /** Some disk makes `p` a candidate. */
  ghost predicate Findable<Body>(w: World<Body>, k: Key, p: Path) {
    && p != [] && ProperPath(p) && k.root <= p
    && (|| (Walked(w, k.root, p, false) && w.matches(k.globs, p[|k.root|..]))
        || exists i :: 0 <= i < |k.extras| && FoundBelow(w, Extra(k, i), p))
  }

  ghost predicate FoundBelow<Body>(w: World<Body>, extra: Path, p: Path) {
    p == extra || (extra < p && Walked(w, extra, p, false) && IsMarkdown(p))
  }

  lemma CandidateIsFindable<Body>(w: World<Body>, k: Key, d: Disk, e: Discovery, p: Path)
    requires Tree(d) && Discover(w, k, d) == Ok(e) && p in e.candidates
    ensures Findable(w, k, p)
  {
    CandidateFacts(w, k, d, e, p);
    assert p in Candidates(w, k, d);
    if i :| 0 <= i < |k.extras| && FoundByExtra(w, d, Extra(k, i), p) {
      assert FoundBelow(w, Extra(k, i), p);
    }
  }

  // ----- documents that some disk held -----

  ghost predicate HeldAt<Body>(w: World<Body>, k: Key, d: Disk, document: Document<Body>) {
    LoadOne(w, k, d, document.absolute) == Ok(Some(document))
  }

  /** A load from scratch of some disk since state `q` would have given this document. */
  ghost predicate Whole<Body>(w: World<Body>, k: Key, tr: seq<State<Body>>, q: nat, n: nat, document: Document<Body>) {
    exists t: nat :: q <= t <= n && t < |tr| && HeldAt(w, k, tr[t].disk, document)
  }

  ghost predicate AllWhole<Body>(w: World<Body>, k: Key, tr: seq<State<Body>>, q: nat, n: nat, e: Entry<Body>) {
    forall rel :: rel in e.documents ==> Whole(w, k, tr, q, n, e.documents[rel].document)
  }

  /** The fingerprint that a load holds for `p` showed at some moment since state `q`, and `p` was wanted then. */
  ghost predicate SeenAt<Body>(w: World<Body>, k: Key, d: Disk, p: Path, fp: FileFingerprint) {
    FileFp(d, p) == Some(fp) && k.root <= p && Wanted(w, k, d, p)
  }

  ghost predicate Seen<Body>(
    w: World<Body>, k: Key, tr: seq<State<Body>>, q: nat, n: nat, p: Path, fp: FileFingerprint)
  {
    exists t: nat :: q <= t <= n && t < |tr| && SeenAt(w, k, tr[t].disk, p, fp)
  }

  ghost predicate PhaseWhole<Body>(w: World<Body>, k: Key, tr: seq<State<Body>>, q: nat, n: nat, phase: Phase<Body>) {
    match phase
    case Building(_, e, _) => AllWhole(w, k, tr, q, n, e)
    case Reading(_, e, j, fp) =>
      AllWhole(w, k, tr, q, n, e) && j < |e.discovery.candidates| && Seen(w, k, tr, q, n, e.discovery.candidates[j], fp)
    case Stored(e) => AllWhole(w, k, tr, q, n, e)
    case Failed => true
    case _ => false
  }

  lemma WholeStays<Body>(
    w: World<Body>, k: Key, tr: seq<State<Body>>, q: nat, n: nat, n': nat, document: Document<Body>)
    requires Whole(w, k, tr, q, n, document) && n <= n'
    ensures Whole(w, k, tr, q, n', document)
  {
    var t: nat :| q <= t <= n && t < |tr| && HeldAt(w, k, tr[t].disk, document);
    assert q <= t <= n' && HeldAt(w, k, tr[t].disk, document);
  }

  lemma AllWholeStays<Body>(w: World<Body>, k: Key, tr: seq<State<Body>>, q: nat, n: nat, n': nat, e: Entry<Body>)
    requires AllWhole(w, k, tr, q, n, e) && n <= n'
    ensures AllWhole(w, k, tr, q, n', e)
  {
    forall rel | rel in e.documents ensures Whole(w, k, tr, q, n', e.documents[rel].document) {
      WholeStays(w, k, tr, q, n, n', e.documents[rel].document);
    }
  }

  lemma SeenStays<Body>(
    w: World<Body>, k: Key, tr: seq<State<Body>>, q: nat, n: nat, n': nat, p: Path, fp: FileFingerprint)
    requires Seen(w, k, tr, q, n, p, fp) && n <= n'
    ensures Seen(w, k, tr, q, n', p, fp)
  {
    var t: nat :| q <= t <= n && t < |tr| && SeenAt(w, k, tr[t].disk, p, fp);
    assert q <= t <= n' && SeenAt(w, k, tr[t].disk, p, fp);
  }

  lemma PhaseWholeStays<Body>(
    w: World<Body>, k: Key, tr: seq<State<Body>>, q: nat, n: nat, n': nat, phase: Phase<Body>)
    requires PhaseWhole(w, k, tr, q, n, phase) && n <= n'
    ensures PhaseWhole(w, k, tr, q, n', phase)
  {
    match phase
    case Building(_, e, _) => AllWholeStays(w, k, tr, q, n, n', e);
    case Reading(_, e, j, fp) =>
      AllWholeStays(w, k, tr, q, n, n', e);
      SeenStays(w, k, tr, q, n, n', e.discovery.candidates[j], fp);
    case Stored(e) => AllWholeStays(w, k, tr, q, n, n', e);
    case Failed =>
  }

  lemma AllWholeGrows<Body>(
    w: World<Body>, k: Key, tr: seq<State<Body>>, q: nat, n: nat, e: Entry<Body>, rel: string,
    fp: FileFingerprint, document: Document<Body>)
    requires AllWhole(w, k, tr, q, n, e) && Whole(w, k, tr, q, n, document)
    ensures AllWhole(w, k, tr, q, n, WithDocument(e, rel, fp, document))
  {
  }

  // ----- reading -----

  /** A file that was seen with one fingerprint and is read later: untouched, or written since. */
  lemma WrittenSince(d0: Disk, d1: Disk, p: Path, fp: FileFingerprint)
    requires Later(d0, d1) && FileFp(d0, p) == Some(fp) && KindAt(d1, p) == IsFile
    ensures d0.nodes[p] == d1.nodes[p] || fp.ns < d1.nodes[p].stamp
  {
  }

  lemma ReadIsWhole<Body>(
    w: World<Body>, k: Key, d0: Disk, d1: Disk, p: Path, fp: FileFingerprint, document: Document<Body>)
    requires Later(d0, d1) && SeenAt(w, k, d0, p, fp) && Wanted(w, k, d1, p)
    requires ReadDocument(w, k, d1, p, fp.ms) == Ok(document) && !Sensitive(w, Rel(k.root, p))
    ensures HeldAt(w, k, d0, document) || HeldAt(w, k, d1, document)
  {
    WrittenSince(d0, d1, p, fp);
    var before, after := d0.nodes[p], d1.nodes[p];
    assert fp.ms == fp.ns / NS_PER_MS && fp.ns == before.stamp;
    assert !Tears(w, Rel(k.root, p), before.text, after.text, before.stamp, after.stamp);
  }

  /** A file whose fingerprint still shows when it is read is never torn, whatever the decoder. */
  lemma UntouchedIsWhole<Body>(
    w: World<Body>, k: Key, d0: Disk, d1: Disk, p: Path, fp: FileFingerprint, document: Document<Body>)
    requires Tree(d0) && Later(d0, d1) && SeenAt(w, k, d0, p, fp) && FileFp(d1, p) == Some(fp)
    requires ReadDocument(w, k, d1, p, fp.ms) == Ok(document)
    ensures HeldAt(w, k, d0, document)
  {
    FileUntouched(d0, d1, p, fp);
  }

  /** No findable path has a decoder that can tear it. */
  ghost predicate Insensitive<Body>(w: World<Body>, k: Key) {
    forall p :: Findable(w, k, p) ==> !Sensitive(w, Rel(k.root, p))
  }

  /** A decoder that does not look at the time tears nothing. */
  lemma TimelessIsInsensitive<Body>(w: World<Body>, k: Key)
    requires forall rel, text, ms, ms' :: w.parse(rel, text, ms) == w.parse(rel, text, ms')
    ensures Insensitive(w, k)
  {
  }

  lemma PartFindable<Body>(w: World<Body>, k: Key, e: Entry<Body>, n: nat, d: Disk)
    requires PartOk(w, k, e, n, d) && n < |e.discovery.candidates|
    ensures Findable(w, k, e.discovery.candidates[n])
  {
    var origin :| BornAt(w, k, e, n, origin, d);
    CandidateIsFindable(w, k, origin, e.discovery, e.discovery.candidates[n]);
  }

  lemma FingerprintedWhole<Body>(
    w: World<Body>, k: Key, tr: seq<State<Body>>, q: nat, n: nat, cached: Option<Entry<Body>>, e: Entry<Body>, j: nat)
    requires q <= n < |tr| && j < |e.discovery.candidates|
    requires PriorOk(w, k, cached, tr[n].disk) && AllWhole(w, k, tr, q, n, e)
    ensures PhaseWhole(w, k, tr, q, n, Fingerprinted(w, k, tr[n].disk, cached, e, j))
  {
    var d, p := tr[n].disk, e.discovery.candidates[j];
    var fp := FileFp(d, p);
    if fp.Some? && k.root <= p && Wanted(w, k, d, p) {
      assert SeenAt(w, k, d, p, fp.value);
      var reused := ReuseCached(cached, Rel(k.root, p), p, fp.value);
      if reused.Some? {
        ReusedIsLoaded(w, k, d, cached, p, fp.value);
        assert HeldAt(w, k, d, reused.value);
        AllWholeGrows(w, k, tr, q, n, e, Rel(k.root, p), fp.value, reused.value);
      }
    }
  }

  lemma ReadWhole<Body>(
    w: World<Body>, k: Key, tr: seq<State<Body>>, q: nat, n: nat, cached: Option<Entry<Body>>, e: Entry<Body>, j: nat,
    fp: FileFingerprint)
    requires Run(w, tr) && q <= n < |tr| && Insensitive(w, k)
    requires PartOk(w, k, e, j, tr[n].disk) && PhaseWhole(w, k, tr, q, n, Reading(cached, e, j, fp))
    requires k.root <= e.discovery.candidates[j]
    ensures PhaseWhole(w, k, tr, q, n, Read(w, k, tr[n].disk, cached, e, j, fp))
  {
    var d, p := tr[n].disk, e.discovery.candidates[j];
    var read := ReadDocument(w, k, d, p, fp.ms);
    if read.Ok? {
      var t: nat :| q <= t <= n && t < |tr| && SeenAt(w, k, tr[t].disk, p, fp);
      RunIsLater(w, tr, t, n);
      PartWants(w, k, e, j, d);
      PartFindable(w, k, e, j, d);
      ReadIsWhole(w, k, tr[t].disk, d, p, fp, read.value);
      assert Whole(w, k, tr, q, n, read.value);
      AllWholeGrows(w, k, tr, q, n, e, Rel(k.root, p), fp, read.value);
    }
  }

  // ----- whole runs -----

  lemma AdvanceWhole<Body>(w: World<Body>, k: Key, tr: seq<State<Body>>, q: nat, n: nat, phase: Phase<Body>)
    requires Run(w, tr) && q <= n < |tr| && Insensitive(w, k)
    requires PhaseOk(w, k, phase, tr[n].disk) && PhaseWhole(w, k, tr, q, n, phase)
    ensures PhaseWhole(w, k, tr, q, n, Advance(w, k, tr[n].disk, tr[n].cache, phase))
  {
    match phase
    case Building(cached, e, j) =>
      AdvanceBuilding(w, k, tr[n].disk, tr[n].cache, cached, e, j);
      if j < |e.discovery.candidates| {
        FingerprintedWhole(w, k, tr, q, n, cached, e, j);
      }
    case Reading(cached, e, j, fp) =>
      PartWants(w, k, e, j, tr[n].disk);
      ReadWhole(w, k, tr, q, n, cached, e, j, fp);
    case _ =>
  }

  /** Load `i` with key `k` is, in state `n`, where its documents so far were all held since state `q`. */
  ghost predicate WholeAt<Body>(w: World<Body>, k: Key, tr: seq<State<Body>>, q: nat, n: nat, i: nat) {
    && n < |tr| && i < |tr[n].loaders| && tr[n].loaders[i].key == k
    && PhaseWhole(w, k, tr, q, n, tr[n].loaders[i].phase)
  }

  lemma WholeStep<Body>(w: World<Body>, k: Key, tr: seq<State<Body>>, q: nat, n: nat, i: nat)
    requires Run(w, tr) && q <= n && n + 1 < |tr| && Insensitive(w, k) && WholeAt(w, k, tr, q, n, i)
    ensures WholeAt(w, k, tr, q, n + 1, i)
  {
    RunKeepsInv(w, tr, n);
    assert StepsAt(w, tr, n);
    LoaderStep(w, tr[n], tr[n + 1], i);
    var phase := tr[n].loaders[i].phase;
    assert PhaseOk(w, k, phase, tr[n].disk);
    AdvanceWhole(w, k, tr, q, n, phase);
    PhaseWholeStays(w, k, tr, q, n, n + 1, phase);
    PhaseWholeStays(w, k, tr, q, n, n + 1, Advance(w, k, tr[n].disk, tr[n].cache, phase));
  }

  lemma WholeStarts<Body>(w: World<Body>, tr: seq<State<Body>>, q: nat, i: nat)
    requires Run(w, tr) && DiscoversAt(tr, q, i)
    ensures WholeAt(w, tr[q].loaders[i].key, tr, q, q + 1, i)
  {
    assert StepsAt(w, tr, q);
    LoaderStep(w, tr[q], tr[q + 1], i);
  }

  lemma {:induction false} WholeUntil<Body>(w: World<Body>, tr: seq<State<Body>>, q: nat, n: nat, i: nat)
    requires Run(w, tr) && DiscoversAt(tr, q, i) && q < n < |tr| && Insensitive(w, tr[q].loaders[i].key)
    ensures WholeAt(w, tr[q].loaders[i].key, tr, q, n, i)
    decreases n
  {
    if n == q + 1 {
      WholeStarts(w, tr, q, i);
    } else {
      WholeUntil(w, tr, q, n - 1, i);
      WholeStep(w, tr[q].loaders[i].key, tr, q, n - 1, i);
    }
  }

  /** Load `i` for `k` made its discovery after state `q` and has stored its entry by state `n`. */
  ghost predicate StoredBy<Body>(w: World<Body>, tr: seq<State<Body>>, q: nat, n: nat, i: nat, k: Key) {
    && Run(w, tr) && DiscoversAt(tr, q, i) && q < n < |tr| && tr[q].loaders[i].key == k
    && i < |tr[n].loaders| && tr[n].loaders[i].phase.Stored?
  }

  // ----- a torn document -----

  /** The directories above `p`, and `p`. */
  function Solo(p: Path, text: string, stamp: nat): Disk {
    Disk(Spine(p).nodes[p := File(text, stamp)], stamp + 1)
  }

  lemma SoloIsTree(p: Path, text: string, stamp: nat)
    requires p != [] && ProperPath(p)
    ensures Tree(Solo(p, text, stamp)) && KindAt(Solo(p, text, stamp), Parent(p)) == IsDir
  {
    SpineIsTree(p);
    var d, spine := Solo(p, text, stamp), Spine(p);
    assert Parent(p) != p;
    forall q | q in d.nodes && q != [] ensures KindAt(d, Parent(q)) == IsDir {
      if q != p {
        assert KindAt(spine, Parent(q)) == IsDir;
        assert Parent(q) != p by { assert KindAt(spine, p) == Missing; }
      }
    }
  }

  lemma ExtraIsAbove(p: Path, extra: Path, text: string, stamp: nat)
    requires extra < p
    ensures KindAt(Solo(p, text, stamp), extra) == IsDir
  {
    assert p[..|extra|] == extra;
    assert extra in Above(p);
    assert extra != p;
  }

  lemma SoloIsFound<Body>(w: World<Body>, k: Key, p: Path, text: string, stamp: nat)
    requires Findable(w, k, p)
    ensures IsCandidate(w, k, Solo(p, text, stamp), p)
  {
    var d := Solo(p, text, stamp);
    if i :| 0 <= i < |k.extras| && FoundBelow(w, Extra(k, i), p) {
      if p != Extra(k, i) { ExtraIsAbove(p, Extra(k, i), text, stamp); }
      assert FoundByExtra(w, d, Extra(k, i), p);
    }
  }

  lemma SoloCandidates<Body>(w: World<Body>, k: Key, p: Path, text: string, stamp: nat)
    requires Findable(w, k, p) && FirstOutside(k, 0).None?
    ensures Discover(w, k, Solo(p, text, stamp)).Ok?
    ensures Discover(w, k, Solo(p, text, stamp)).value.candidates == [p]
  {
    var d := Solo(p, text, stamp);
    SoloIsFound(w, k, p, text, stamp);
    assert Candidates(w, k, d) == {p};
    Order.PathOrder();
    var found := Discover(w, k, d).value.candidates;
    assert |found| == 1 && p in found;
  }

  /** A run that ends in `s` and knows no disks but `d0` and `d1`. */
  ghost predicate EndsBetween<Body>(w: World<Body>, d0: Disk, d1: Disk, tr: seq<State<Body>>, s: State<Body>) {
    && Run(w, tr) && tr[|tr| - 1] == s
    && forall m :: 0 <= m < |tr| ==> tr[m].disk == d0 || tr[m].disk == d1
  }

  ghost predicate Between<Body(!new)>(w: World<Body>, d0: Disk, d1: Disk, s: State<Body>) {
    exists tr :: EndsBetween(w, d0, d1, tr, s)
  }

  lemma GoOn<Body(!new)>(w: World<Body>, d0: Disk, d1: Disk, s: State<Body>, step: Step, s': State<Body>)
    requires Between(w, d0, d1, s) && Takes(w, s, step, s') && (s'.disk == d0 || s'.disk == d1)
    ensures Between(w, d0, d1, s')
  {
    var tr :| EndsBetween(w, d0, d1, tr, s);
    assert Next(w, s, s');
    RunGrows(w, tr, s');
    assert EndsBetween(w, d0, d1, tr + [s'], s');
  }

  lemma LoadGoes<Body(!new)>(
    w: World<Body>, k: Key, d0: Disk, d1: Disk, d: Disk, phase: Phase<Body>, next: Phase<Body>)
    requires Between(w, d0, d1, First(k, d, phase)) && Running(phase) && (d == d0 || d == d1)
    requires next == Advance(w, k, d, map[], phase) && !next.Stored?
    ensures Between(w, d0, d1, First(k, d, next))
  {
    assert First(k, d, next).loaders == First(k, d, phase).loaders[0 := Loader(k, next)];
    GoOn(w, d0, d1, First(k, d, phase), Go(0), First(k, d, next));
  }

  lemma LoadBegins<Body(!new)>(w: World<Body>, k: Key, d0: Disk, d1: Disk, e: Entry<Body>)
    requires Tree(d0) && Discover(w, k, d0) == Ok(e.discovery) && e.documents == map[]
    ensures Between(w, d0, d1, First(k, d0, Building(None, e, 0)))
  {
    var start: State<Body> := State(d0, map[], []);
    assert EndsBetween(w, d0, d1, [start], start);
    GoOn(w, d0, d1, start, Begin(k), First(k, d0, Idle));
    LoadGoes(w, k, d0, d1, d0, Idle, Missed(None));
    FirstDiscovers(w, k, d0, e);
    LoadGoes(w, k, d0, d1, d0, Missed(None), Building(None, e, 0));
  }

  lemma FingerprintIsTaken<Body>(w: World<Body>, k: Key, d: Disk, e: Entry<Body>, p: Path, fp: FileFingerprint)
    requires e.discovery.candidates == [p] && SeenAt(w, k, d, p, fp)
    ensures Advance(w, k, d, map[], Building(None, e, 0)) == Reading(None, e, 0, fp)
  {
  }

  /** The file changes between its fingerprint and its read. */
  lemma LoadTears<Body(!new)>(
    w: World<Body>, k: Key, d0: Disk, d1: Disk, change: Edit, e: Entry<Body>, p: Path, fp: FileFingerprint,
    document: Document<Body>)
    requires Permitted(d0, change) && d1 == Apply(d0, change)
    requires e.discovery.candidates == [p] && e.documents == map[]
    requires Between(w, d0, d1, First(k, d0, Building(None, e, 0)))
    requires SeenAt(w, k, d0, p, fp) && ReadDocument(w, k, d1, p, fp.ms) == Ok(document)
    ensures Between(w, d0, d1, First(k, d1, Building(None, WithDocument(e, Rel(k.root, p), fp, document), 1)))
  {
    FingerprintIsTaken(w, k, d0, e, p, fp);
    LoadGoes(w, k, d0, d1, d0, Building(None, e, 0), Reading(None, e, 0, fp));
    GoOn(w, d0, d1, First(k, d0, Reading(None, e, 0, fp)), Change(change), First(k, d1, Reading(None, e, 0, fp)));
    var torn := WithDocument(e, Rel(k.root, p), fp, document);
    LoadGoes(w, k, d0, d1, d1, Reading(None, e, 0, fp), Building(None, torn, 1));
  }

  lemma LoadStores<Body(!new)>(w: World<Body>, k: Key, d0: Disk, d1: Disk, e: Entry<Body>)
    requires |e.discovery.candidates| == 1 && Between(w, d0, d1, First(k, d1, Building(None, e, 1)))
    ensures Between(w, d0, d1, OneStored(k, d1, e))
  {
    GoOn(w, d0, d1, First(k, d1, Building(None, e, 1)), Go(0), OneStored(k, d1, e));
  }

  ghost predicate HasTorn<Body>(w: World<Body>, tr: seq<State<Body>>, q: nat, n: nat, i: nat, k: Key) {
    StoredBy(w, tr, q, n, i, k) && !AllWhole(w, k, tr, q, n, tr[n].loaders[i].phase.entry)
  }

  lemma StoredIsTorn<Body(!new)>(
    w: World<Body>, k: Key, d0: Disk, d1: Disk, e: Entry<Body>, rel: string)
    requires Between(w, d0, d1, OneStored(k, d1, e)) && rel in e.documents
    requires !HeldAt(w, k, d0, e.documents[rel].document) && !HeldAt(w, k, d1, e.documents[rel].document)
    ensures exists tr: seq<State<Body>>, q: nat, n: nat, i: nat :: HasTorn(w, tr, q, n, i, k)
  {
    var tr :| EndsBetween(w, d0, d1, tr, OneStored(k, d1, e));
    var n := |tr| - 1;
    DiscoveryWas(w, tr, n, 0);
    var q: nat :| q < n && DiscoversAt(tr, q, 0);
    LoaderStays(w, tr, q, n, 0);
    assert !Whole(w, k, tr, q, n, e.documents[rel].document);
    assert HasTorn(w, tr, q, n, 0, k);
  }

  lemma TornDocument<Body>(
    w: World<Body>, k: Key, p: Path, before: string, after: string, s0: nat, s1: nat)
    returns (document: Document<Body>)
    requires k.root <= p && Tears(w, Rel(k.root, p), before, after, s0, s1)
    ensures ReadDocument(w, k, Solo(p, after, s1), p, s0 / NS_PER_MS) == Ok(document)
    ensures !HeldAt(w, k, Solo(p, before, s0), document) && !HeldAt(w, k, Solo(p, after, s1), document)
  {
    document := Document(Rel(k.root, p), p, w.parse(Rel(k.root, p), after, s0 / NS_PER_MS).value);
  }

  lemma SoloChanges(p: Path, before: string, after: string, s0: nat, s1: nat)
    requires p != [] && ProperPath(p) && s0 < s1
    ensures Permitted(Solo(p, before, s0), Write(p, after, false, s1))
    ensures Apply(Solo(p, before, s0), Write(p, after, false, s1)) == Solo(p, after, s1)
  {
    SoloIsTree(p, before, s0);
    assert p[|p| - 1] in p;
  }

  /** A path that is findable and whose decoder can tear it: a run that stores a document no disk held. */
  lemma TornRun<Body(!new)>(w: World<Body>, k: Key, p: Path)
    requires FirstOutside(k, 0).None? && Findable(w, k, p) && Sensitive(w, Rel(k.root, p))
    ensures exists tr: seq<State<Body>>, q: nat, n: nat, i: nat :: HasTorn(w, tr, q, n, i, k)
  {
    var before, after, s0, s1 :| Tears(w, Rel(k.root, p), before, after, s0, s1);
    var d0, d1 := Solo(p, before, s0), Solo(p, after, s1);
    SoloIsTree(p, before, s0);
    SoloChanges(p, before, after, s0, s1);
    SoloCandidates(w, k, p, before, s0);
    var e: Entry<Body> := Entry(Discover(w, k, d0).value, map[]);
    CandidateFacts(w, k, d0, e.discovery, p);
    var fp := Fingerprint(before, s0);
    var document := TornDocument(w, k, p, before, after, s0, s1);
    LoadBegins(w, k, d0, d1, e);
    LoadTears(w, k, d0, d1, Write(p, after, false, s1), e, p, fp, document);
    var torn := WithDocument(e, Rel(k.root, p), fp, document);
    LoadStores(w, k, d0, d1, torn);
    StoredIsTorn(w, k, d0, d1, torn, Rel(k.root, p));
  }

  /**
   Over every interleaving of loads and writers: every document a load stores is one that a load
   from scratch would have given on some disk since its discovery, if and only if the decoder
   cannot tear a path that can be found.
   */
  lemma WholeIffInsensitive<Body(!new)>(w: World<Body>, k: Key)
    requires FirstOutside(k, 0).None?
    ensures Insensitive(w, k) <==>
            forall tr: seq<State<Body>>, q: nat, n: nat, i: nat :: StoredBy(w, tr, q, n, i, k)
              ==> AllWhole(w, k, tr, q, n, tr[n].loaders[i].phase.entry)
  {
    if Insensitive(w, k) {
      forall tr: seq<State<Body>>, q: nat, n: nat, i: nat | StoredBy(w, tr, q, n, i, k)
        ensures AllWhole(w, k, tr, q, n, tr[n].loaders[i].phase.entry)
      {
        WholeUntil(w, tr, q, n, i);
      }
    } else {
      var p :| Findable(w, k, p) && Sensitive(w, Rel(k.root, p));
      TornRun(w, k, p);
      var tr: seq<State<Body>>, q: nat, n: nat, i: nat :| HasTorn(w, tr, q, n, i, k);
      assert StoredBy(w, tr, q, n, i, k);
    }
  }
}
