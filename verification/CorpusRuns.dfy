/**
 Loads of the memory corpus running beside each other and beside writers. One step is
 one observation of the disk, one access to the shared cache, or one change by a writer;
 the lock on the cache is held for a lookup and for an insertion, and not in between.
 */
module CorpusRuns {
  import opened Prelude
  import opened Storage
  import opened Corpus
  import opened CorpusFreshness
  import Order

  /**
   Where a load stands. `began` is the disk at the first probe of the freshness check; it
   is kept for stating what a hit returns and no step reads it.
   */
  datatype Phase<!Body> =
    | Idle
    | LookedUp(entry: Entry<Body>)
    | CheckingDirs(entry: Entry<Body>, began: Disk, n: nat)
    | CheckingDocs(entry: Entry<Body>, began: Disk, n: nat)
    | Hit(entry: Entry<Body>, began: Disk)
    | Missed(cached: Option<Entry<Body>>)
    | Building(cached: Option<Entry<Body>>, entry: Entry<Body>, n: nat)
    | Reading(cached: Option<Entry<Body>>, entry: Entry<Body>, n: nat, fingerprint: FileFingerprint)
    | Stored(entry: Entry<Body>)
    | Failed

  datatype Loader<!Body> = Loader(key: Key, phase: Phase<Body>)

  datatype State<!Body> = State(disk: Disk, cache: map<Key, Entry<Body>>, loaders: seq<Loader<Body>>)

  function DirOrder<Body>(e: Entry<Body>): (r: seq<Path>)
    ensures Order.Lists(r, e.discovery.directories.Keys)
  {
    Order.PathOrder();
    Order.Listing(Order.PathLess, e.discovery.directories.Keys)
  }

  function DocOrder<Body>(e: Entry<Body>): (r: seq<string>)
    ensures Order.Lists(r, e.documents.Keys)
  {
    Order.StringOrder();
    Order.Listing(Order.StringLess, e.documents.Keys)
  }

  predicate ProbeDir<Body>(e: Entry<Body>, d: Disk, n: nat)
    requires n < |DirOrder(e)|
  {
    assert DirOrder(e)[n] in e.discovery.directories.Keys;
    DirFresh(e.discovery, d, DirOrder(e)[n])
  }

  predicate DocFresh<Body>(e: Entry<Body>, d: Disk, rel: string)
    requires rel in e.documents
  {
    FileFp(d, e.documents[rel].document.absolute) == Some(e.documents[rel].fingerprint)
  }

  predicate ProbeDoc<Body>(e: Entry<Body>, d: Disk, n: nat)
    requires n < |DocOrder(e)|
  {
    assert DocOrder(e)[n] in e.documents.Keys;
    DocFresh(e, d, DocOrder(e)[n])
  }

  function WithDocument<Body>(e: Entry<Body>, rel: string, fp: FileFingerprint, document: Document<Body>): Entry<Body> {
    Entry(e.discovery, e.documents[rel := Cached(fp, document)])
  }

  function Fingerprinted<Body>(
    w: World<Body>, k: Key, d: Disk, cached: Option<Entry<Body>>, e: Entry<Body>, n: nat): Phase<Body>
    requires n < |e.discovery.candidates|
  {
    var p := e.discovery.candidates[n];
    match FileFp(d, p)
    case None => Building(cached, e, n + 1)
    case Some(fp) =>
      if !(k.root <= p) then Failed
      else if !Wanted(w, k, d, p) then Building(cached, e, n + 1)
      else match ReuseCached(cached, Rel(k.root, p), p, fp)
        case Some(document) => Building(cached, WithDocument(e, Rel(k.root, p), fp, document), n + 1)
        case None => Reading(cached, e, n, fp)
  }

  function Read<Body>(
    w: World<Body>, k: Key, d: Disk, cached: Option<Entry<Body>>, e: Entry<Body>, n: nat,
    fp: FileFingerprint): Phase<Body>
    requires n < |e.discovery.candidates| && k.root <= e.discovery.candidates[n]
  {
    var p := e.discovery.candidates[n];
    match ReadDocument(w, k, d, p, fp.ms)
    case Err(_) => Failed
    case Ok(document) => Building(cached, WithDocument(e, Rel(k.root, p), fp, document), n + 1)
  }

  function Discovered<Body>(w: World<Body>, k: Key, d: Disk, cached: Option<Entry<Body>>): Phase<Body> {
    match Discover(w, k, d)
    case Err(_) => Failed
    case Ok(discovery) => Building(cached, Entry(discovery, map[]), 0)
  }

  predicate Running<Body>(phase: Phase<Body>) {
    !phase.Hit? && !phase.Stored? && !phase.Failed?
  }

  /** The next step of a load; a load that has returned stays where it is. */
  function Advance<Body>(w: World<Body>, k: Key, d: Disk, cache: map<Key, Entry<Body>>, phase: Phase<Body>): Phase<Body>
  {
    match phase
    case Idle => if k in cache then LookedUp(cache[k]) else Missed(None)
    case LookedUp(e) =>
      if |DirOrder(e)| == 0 then CheckingDirs(e, d, 0)
      else if ProbeDir(e, d, 0) then CheckingDirs(e, d, 1)
      else Missed(Some(e))
    case CheckingDirs(e, began, n) =>
      if n >= |DirOrder(e)| then CheckingDocs(e, began, 0)
      else if ProbeDir(e, d, n) then CheckingDirs(e, began, n + 1)
      else Missed(Some(e))
    case CheckingDocs(e, began, n) =>
      if n >= |DocOrder(e)| then Hit(e, began)
      else if ProbeDoc(e, d, n) then CheckingDocs(e, began, n + 1)
      else Missed(Some(e))
    case Missed(cached) => Discovered(w, k, d, cached)
    case Building(cached, e, n) =>
      if n >= |e.discovery.candidates| then Stored(e) else Fingerprinted(w, k, d, cached, e, n)
    case Reading(cached, e, n, fp) =>
      if n < |e.discovery.candidates| && k.root <= e.discovery.candidates[n]
      then Read(w, k, d, cached, e, n, fp) else Failed
    case _ => phase
  }

  datatype Step =
    | Change(edit: Edit)
    | Begin(key: Key)
    | Go(loader: nat)
    | Break(loader: nat)

  ghost predicate Takes<Body>(w: World<Body>, s: State<Body>, step: Step, s': State<Body>) {
    match step
    case Change(edit) =>
      Permitted(s.disk, edit) && s' == s.(disk := Apply(s.disk, edit))
    case Begin(k) =>
      s' == s.(loaders := s.loaders + [Loader(k, Idle)])
    case Go(i) =>
      && i < |s.loaders| && Running(s.loaders[i].phase)
      && var l := s.loaders[i];
         var phase := Advance(w, l.key, s.disk, s.cache, l.phase);
         && s'.disk == s.disk
         && s'.loaders == s.loaders[i := Loader(l.key, phase)]
         && s'.cache == if phase.Stored? then s.cache[l.key := phase.entry] else s.cache
    case Break(i) =>
      && i < |s.loaders| && Running(s.loaders[i].phase)
      && s' == s.(loaders := s.loaders[i := Loader(s.loaders[i].key, Failed)])
  }

  ghost predicate Next<Body>(w: World<Body>, s: State<Body>, s': State<Body>) {
    exists step :: Takes(w, s, step, s')
  }

  ghost predicate StepsAt<Body>(w: World<Body>, tr: seq<State<Body>>, i: nat)
    requires i + 1 < |tr|
  {
    Next(w, tr[i], tr[i + 1])
  }

  ghost predicate Run<Body>(w: World<Body>, tr: seq<State<Body>>) {
    && |tr| > 0
    && Tree(tr[0].disk) && tr[0].cache == map[] && tr[0].loaders == []
    && forall i :: 0 <= i < |tr| - 1 ==> StepsAt(w, tr, i)
  }

  // ----- the invariant -----

  ghost predicate CheckedDirs<Body>(e: Entry<Body>, began: Disk, n: nat) {
    && n <= |DirOrder(e)|
    && (forall j :: 0 <= j < n ==> ProbeDir(e, began, j))
    && (forall q :: q in e.discovery.directories && e.discovery.directories[q].ns.None?
                    ==> DirFresh(e.discovery, began, q))
  }

  ghost predicate CheckedDocs<Body>(e: Entry<Body>, began: Disk, n: nat) {
    n <= |DocOrder(e)| && forall j :: 0 <= j < n ==> ProbeDoc(e, began, j)
  }

  ghost predicate Checking<Body>(w: World<Body>, k: Key, e: Entry<Body>, began: Disk, d: Disk) {
    Later(began, d) && EntryOk(w, k, e, began)
  }

  ghost predicate PriorOk<Body>(w: World<Body>, k: Key, cached: Option<Entry<Body>>, d: Disk) {
    cached.Some? ==> EntryOk(w, k, cached.value, d)
  }

  ghost predicate PhaseOk<Body>(w: World<Body>, k: Key, phase: Phase<Body>, d: Disk) {
    match phase
    case Idle => true
    case LookedUp(e) => EntryOk(w, k, e, d)
    case CheckingDirs(e, began, n) => Checking(w, k, e, began, d) && CheckedDirs(e, began, n)
    case CheckingDocs(e, began, n) =>
      Checking(w, k, e, began, d) && DirsFresh(e.discovery, began) && CheckedDocs(e, began, n)
    case Hit(e, began) =>
      Checking(w, k, e, began, d) && DirsFresh(e.discovery, began) && DocumentsFresh(e, began)
    case Missed(cached) => PriorOk(w, k, cached, d)
    case Building(cached, e, n) => PriorOk(w, k, cached, d) && PartOk(w, k, e, n, d)
    case Reading(cached, e, n, fp) =>
      && PriorOk(w, k, cached, d) && PartOk(w, k, e, n, d)
      && n < |e.discovery.candidates| && fp.ns < d.clock
    case Stored(e) => EntryOk(w, k, e, d)
    case Failed => true
  }

  ghost predicate CacheOk<Body>(w: World<Body>, cache: map<Key, Entry<Body>>, d: Disk) {
    forall k :: k in cache ==> EntryOk(w, k, cache[k], d)
  }

  ghost predicate LoadersOk<Body>(w: World<Body>, loaders: seq<Loader<Body>>, d: Disk) {
    forall i :: 0 <= i < |loaders| ==> PhaseOk(w, loaders[i].key, loaders[i].phase, d)
  }

  ghost predicate Inv<Body>(w: World<Body>, s: State<Body>) {
    Tree(s.disk) && CacheOk(w, s.cache, s.disk) && LoadersOk(w, s.loaders, s.disk)
  }

  // ----- changes by writers -----

  lemma PhaseStable<Body>(w: World<Body>, k: Key, phase: Phase<Body>, d: Disk, d': Disk)
    requires PhaseOk(w, k, phase, d) && Later(d, d')
    ensures PhaseOk(w, k, phase, d')
  {
    match phase
    case LookedUp(e) => PartStable(w, k, e, |e.discovery.candidates|, d, d');
    case CheckingDirs(e, began, n) => LaterTransitive(began, d, d');
    case CheckingDocs(e, began, n) => LaterTransitive(began, d, d');
    case Hit(e, began) => LaterTransitive(began, d, d');
    case Missed(cached) => PriorStable(w, k, cached, d, d');
    case Building(cached, e, n) =>
      PriorStable(w, k, cached, d, d');
      PartStable(w, k, e, n, d, d');
    case Reading(cached, e, n, fp) =>
      PriorStable(w, k, cached, d, d');
      PartStable(w, k, e, n, d, d');
    case Stored(e) => PartStable(w, k, e, |e.discovery.candidates|, d, d');
    case _ =>
  }

  lemma PriorStable<Body>(w: World<Body>, k: Key, cached: Option<Entry<Body>>, d: Disk, d': Disk)
    requires PriorOk(w, k, cached, d) && Later(d, d')
    ensures PriorOk(w, k, cached, d')
  {
    if cached.Some? {
      PartStable(w, k, cached.value, |cached.value.discovery.candidates|, d, d');
    }
  }

  lemma ChangeKeepsInv<Body>(w: World<Body>, s: State<Body>, edit: Edit)
    requires Inv(w, s) && Permitted(s.disk, edit)
    ensures Inv(w, s.(disk := Apply(s.disk, edit)))
  {
    var d' := Apply(s.disk, edit);
    EditIsLater(s.disk, edit);
    forall k | k in s.cache ensures EntryOk(w, k, s.cache[k], d') {
      PartStable(w, k, s.cache[k], |s.cache[k].discovery.candidates|, s.disk, d');
    }
    forall i | 0 <= i < |s.loaders| ensures PhaseOk(w, s.loaders[i].key, s.loaders[i].phase, d') {
      PhaseStable(w, s.loaders[i].key, s.loaders[i].phase, s.disk, d');
    }
  }

  // ----- the freshness check -----

  lemma UnstampedIsAlone<Body>(w: World<Body>, k: Key, e: Entry<Body>, d: Disk, q: Path)
    requires EntryOk(w, k, e, d) && q in e.discovery.directories && e.discovery.directories[q].ns.None?
    ensures DirOrder(e) == [q]
  {
    var origin :| BornAt(w, k, e, |e.discovery.candidates|, origin, d);
    RecordedStamps(w, k, e.discovery, origin, q);
    RootMissing(w, k, e.discovery, origin);
    var order := DirOrder(e);
    assert |order| == |e.discovery.directories.Keys| == 1;
    assert order[0] in e.discovery.directories.Keys;
  }

  lemma FirstProbe<Body>(w: World<Body>, k: Key, e: Entry<Body>, d: Disk)
    requires Tree(d) && EntryOk(w, k, e, d)
    ensures |DirOrder(e)| == 0 ==> CheckedDirs(e, d, 0)
    ensures |DirOrder(e)| > 0 && ProbeDir(e, d, 0) ==> CheckedDirs(e, d, 1)
  {
    forall q | q in e.discovery.directories && e.discovery.directories[q].ns.None?
      ensures DirOrder(e) == [q]
    {
      UnstampedIsAlone(w, k, e, d, q);
    }
  }

  lemma StampedBefore<Body>(w: World<Body>, k: Key, e: Entry<Body>, d: Disk, q: Path)
    requires EntryOk(w, k, e, d) && q in e.discovery.directories
    ensures e.discovery.directories[q].ns.Some? ==> e.discovery.directories[q].ns.value < d.clock
  {
    var origin :| BornAt(w, k, e, |e.discovery.candidates|, origin, d);
    RecordedStamps(w, k, e.discovery, origin, q);
  }

  /** A directory that matches now already matched when the check began. */
  lemma LaterProbe<Body>(w: World<Body>, k: Key, e: Entry<Body>, began: Disk, d: Disk, n: nat)
    requires Checking(w, k, e, began, d) && CheckedDirs(e, began, n)
    requires n < |DirOrder(e)| && ProbeDir(e, d, n)
    ensures CheckedDirs(e, began, n + 1)
  {
    var q := DirOrder(e)[n];
    assert q in e.discovery.directories.Keys;
    StampedBefore(w, k, e, began, q);
    if e.discovery.directories[q].ns.Some? {
      DirUntouched(began, d, q, e.discovery.directories[q]);
    }
  }

  lemma EntryDocument<Body>(w: World<Body>, k: Key, e: Entry<Body>, d: Disk, rel: string)
    requires EntryOk(w, k, e, d) && rel in e.documents
    ensures CachedOk(w, k, rel, e.documents[rel], d)
  {
    var origin :| BornAt(w, k, e, |e.discovery.candidates|, origin, d);
  }

  lemma LaterDocProbe<Body>(w: World<Body>, k: Key, e: Entry<Body>, began: Disk, d: Disk, n: nat)
    requires Checking(w, k, e, began, d) && CheckedDocs(e, began, n)
    requires n < |DocOrder(e)| && ProbeDoc(e, d, n)
    ensures CheckedDocs(e, began, n + 1)
  {
    var rel := DocOrder(e)[n];
    assert rel in e.documents.Keys;
    EntryDocument(w, k, e, began, rel);
    FileUntouched(began, d, e.documents[rel].document.absolute, e.documents[rel].fingerprint);
  }

  lemma AllDirsChecked<Body>(e: Entry<Body>, began: Disk)
    requires CheckedDirs(e, began, |DirOrder(e)|)
    ensures DirsFresh(e.discovery, began)
  {
    forall q | q in e.discovery.directories ensures DirFresh(e.discovery, began, q) {
      assert q in DirOrder(e);
      var j :| 0 <= j < |DirOrder(e)| && DirOrder(e)[j] == q;
      assert ProbeDir(e, began, j);
    }
  }

  lemma AllDocsChecked<Body>(e: Entry<Body>, began: Disk)
    requires CheckedDocs(e, began, |DocOrder(e)|)
    ensures DocumentsFresh(e, began)
  {
    forall rel | rel in e.documents ensures DocFresh(e, began, rel) {
      assert rel in DocOrder(e);
      var j :| 0 <= j < |DocOrder(e)| && DocOrder(e)[j] == rel;
      assert ProbeDoc(e, began, j);
    }
  }

  // ----- the load proper -----

  lemma DiscoverStarts<Body>(w: World<Body>, k: Key, d: Disk)
    requires Tree(d) && Discover(w, k, d).Ok?
    ensures PartOk(w, k, Entry(Discover(w, k, d).value, map[]), 0, d)
  {
    assert BornAt(w, k, Entry(Discover(w, k, d).value, map[]), 0, d, d);
  }

  lemma PartSkips<Body>(w: World<Body>, k: Key, e: Entry<Body>, n: nat, d: Disk)
    requires PartOk(w, k, e, n, d) && n < |e.discovery.candidates|
    requires FileFp(d, e.discovery.candidates[n]).None?
    ensures PartOk(w, k, e, n + 1, d)
  {
    var origin :| BornAt(w, k, e, n, origin, d);
    var p := e.discovery.candidates[n];
    CandidateFacts(w, k, origin, e.discovery, p);
    if ExtrasCovered(w, k) {
      VanishedIsDoomed(w, k, e.discovery, origin, d, p);
      assert Accounted(k, e, n, d);
    }
    assert BornAt(w, k, e, n + 1, origin, d);
  }

  lemma PartWants<Body>(w: World<Body>, k: Key, e: Entry<Body>, n: nat, d: Disk)
    requires PartOk(w, k, e, n, d) && n < |e.discovery.candidates|
    ensures k.root <= e.discovery.candidates[n]
    ensures FileFp(d, e.discovery.candidates[n]).Some? ==> Wanted(w, k, d, e.discovery.candidates[n])
  {
    var origin :| BornAt(w, k, e, n, origin, d);
    var p := e.discovery.candidates[n];
    CandidateFacts(w, k, origin, e.discovery, p);
    if FileFp(d, p).Some? {
      StillWanted(w, k, e.discovery, origin, d, p);
    }
  }

  lemma DocumentsGrow<Body>(w: World<Body>, k: Key, e: Entry<Body>, n: nat, d: Disk, c: Cached<Body>)
    requires DocumentsOk(w, k, e, d) && n < |e.discovery.candidates|
    requires CachedOk(w, k, c.document.path, c, d) && c.document.absolute == e.discovery.candidates[n]
    ensures DocumentsOk(w, k, Entry(e.discovery, e.documents[c.document.path := c]), d)
  {
  }

  lemma AccountedGrows<Body>(k: Key, e: Entry<Body>, n: nat, d: Disk, c: Cached<Body>)
    requires AllAccounted(k, e, n, d) && n < |e.discovery.candidates|
    requires k.root <= e.discovery.candidates[n] && Rel(k.root, e.discovery.candidates[n]) == c.document.path
    ensures AllAccounted(k, Entry(e.discovery, e.documents[c.document.path := c]), n + 1, d)
  {
    var e' := Entry(e.discovery, e.documents[c.document.path := c]);
    forall i | 0 <= i < n + 1 ensures Accounted(k, e', i, d) {
      if i < n { assert Accounted(k, e, i, d); }
    }
  }

  lemma PartGrows<Body>(w: World<Body>, k: Key, e: Entry<Body>, n: nat, d: Disk, c: Cached<Body>)
    requires PartOk(w, k, e, n, d) && n < |e.discovery.candidates|
    requires CachedOk(w, k, c.document.path, c, d) && c.document.absolute == e.discovery.candidates[n]
    ensures PartOk(w, k, Entry(e.discovery, e.documents[c.document.path := c]), n + 1, d)
  {
    var origin :| BornAt(w, k, e, n, origin, d);
    DocumentsGrow(w, k, e, n, d, c);
    if ExtrasCovered(w, k) {
      AccountedGrows(k, e, n, d, c);
    }
    assert BornAt(w, k, Entry(e.discovery, e.documents[c.document.path := c]), n + 1, origin, d);
  }

  /** What is reused was right in the older entry, so it is right here. */
  lemma ReusedIsOk<Body>(
    w: World<Body>, k: Key, cached: Option<Entry<Body>>, rel: string, p: Path, fp: FileFingerprint, d: Disk)
    requires PriorOk(w, k, cached, d) && ReuseCached(cached, rel, p, fp).Some?
    ensures var document := ReuseCached(cached, rel, p, fp).value;
            CachedOk(w, k, rel, Cached(fp, document), d) && document.absolute == p
  {
    var e := cached.value;
    var origin :| BornAt(w, k, e, |e.discovery.candidates|, origin, d);
    assert CachedOk(w, k, rel, e.documents[rel], d);
  }

  /** The fingerprint was taken before the read: if it still shows, the text read belongs to it. */
  lemma ReadIsOk<Body>(w: World<Body>, k: Key, d: Disk, p: Path, fp: FileFingerprint)
    requires k.root <= p && fp.ns < d.clock && ReadDocument(w, k, d, p, fp.ms).Ok?
    ensures var document := ReadDocument(w, k, d, p, fp.ms).value;
            CachedOk(w, k, document.path, Cached(fp, document), d) && document.absolute == p
  {
  }

  lemma FingerprintedOk<Body>(w: World<Body>, k: Key, d: Disk, cached: Option<Entry<Body>>, e: Entry<Body>, n: nat)
    requires Tree(d) && PriorOk(w, k, cached, d) && PartOk(w, k, e, n, d) && n < |e.discovery.candidates|
    ensures PhaseOk(w, k, Fingerprinted(w, k, d, cached, e, n), d)
  {
    var p := e.discovery.candidates[n];
    PartWants(w, k, e, n, d);
    match FileFp(d, p)
    case None => PartSkips(w, k, e, n, d);
    case Some(fp) =>
      var rel := Rel(k.root, p);
      match ReuseCached(cached, rel, p, fp)
      case None =>
      case Some(document) =>
        ReusedIsOk(w, k, cached, rel, p, fp, d);
        PartGrows(w, k, e, n, d, Cached(fp, document));
  }

  lemma ReadingOk<Body>(
    w: World<Body>, k: Key, d: Disk, cached: Option<Entry<Body>>, e: Entry<Body>, n: nat, fp: FileFingerprint)
    requires PriorOk(w, k, cached, d) && PartOk(w, k, e, n, d) && n < |e.discovery.candidates|
    requires fp.ns < d.clock && k.root <= e.discovery.candidates[n]
    ensures PhaseOk(w, k, Read(w, k, d, cached, e, n, fp), d)
  {
    var p := e.discovery.candidates[n];
    match ReadDocument(w, k, d, p, fp.ms)
    case Err(_) =>
    case Ok(document) =>
      ReadIsOk(w, k, d, p, fp);
      PartGrows(w, k, e, n, d, Cached(fp, document));
  }

  lemma PartBound<Body>(w: World<Body>, k: Key, e: Entry<Body>, n: nat, d: Disk)
    requires PartOk(w, k, e, n, d)
    ensures n <= |e.discovery.candidates|
  {
    var origin :| BornAt(w, k, e, n, origin, d);
  }

  lemma BuiltIsEntry<Body>(w: World<Body>, k: Key, e: Entry<Body>, n: nat, d: Disk)
    requires PartOk(w, k, e, n, d) && n >= |e.discovery.candidates|
    ensures EntryOk(w, k, e, d)
  {
    PartBound(w, k, e, n, d);
  }

  lemma DirsStepOk<Body>(w: World<Body>, k: Key, d: Disk, e: Entry<Body>, began: Disk, n: nat)
    requires Checking(w, k, e, began, d) && CheckedDirs(e, began, n)
    ensures n >= |DirOrder(e)| ==> DirsFresh(e.discovery, began)
    ensures n < |DirOrder(e)| && ProbeDir(e, d, n) ==> CheckedDirs(e, began, n + 1)
    ensures EntryOk(w, k, e, d)
  {
    PartStable(w, k, e, |e.discovery.candidates|, began, d);
    if n >= |DirOrder(e)| {
      AllDirsChecked(e, began);
    } else if ProbeDir(e, d, n) {
      LaterProbe(w, k, e, began, d, n);
    }
  }

  lemma DocsStepOk<Body>(w: World<Body>, k: Key, d: Disk, e: Entry<Body>, began: Disk, n: nat)
    requires Checking(w, k, e, began, d) && CheckedDocs(e, began, n)
    ensures n >= |DocOrder(e)| ==> DocumentsFresh(e, began)
    ensures n < |DocOrder(e)| && ProbeDoc(e, d, n) ==> CheckedDocs(e, began, n + 1)
    ensures EntryOk(w, k, e, d)
  {
    PartStable(w, k, e, |e.discovery.candidates|, began, d);
    if n >= |DocOrder(e)| {
      AllDocsChecked(e, began);
    } else if ProbeDoc(e, d, n) {
      LaterDocProbe(w, k, e, began, d, n);
    }
  }

  lemma LookedUpOk<Body>(w: World<Body>, k: Key, d: Disk, cache: map<Key, Entry<Body>>, e: Entry<Body>)
    requires Tree(d) && EntryOk(w, k, e, d)
    ensures PhaseOk(w, k, Advance(w, k, d, cache, LookedUp(e)), d)
  {
    FirstProbe(w, k, e, d);
  }

  lemma AdvanceDirs<Body>(
    w: World<Body>, k: Key, d: Disk, cache: map<Key, Entry<Body>>, e: Entry<Body>, began: Disk, n: nat)
    ensures Advance(w, k, d, cache, CheckingDirs(e, began, n)) ==
            if n >= |DirOrder(e)| then CheckingDocs(e, began, 0)
            else if ProbeDir(e, d, n) then CheckingDirs(e, began, n + 1)
            else Missed(Some(e))
  {
  }

  lemma CheckingDirsOk<Body>(w: World<Body>, k: Key, d: Disk, e: Entry<Body>, began: Disk, n: nat)
    requires Checking(w, k, e, began, d) && CheckedDirs(e, began, n)
    ensures n >= |DirOrder(e)| ==> PhaseOk(w, k, CheckingDocs(e, began, 0), d)
    ensures n < |DirOrder(e)| && ProbeDir(e, d, n) ==> PhaseOk(w, k, CheckingDirs(e, began, n + 1), d)
    ensures PhaseOk(w, k, Missed(Some(e)), d)
  {
    DirsStepOk(w, k, d, e, began, n);
  }

  lemma AdvanceDocs<Body>(
    w: World<Body>, k: Key, d: Disk, cache: map<Key, Entry<Body>>, e: Entry<Body>, began: Disk, n: nat)
    ensures Advance(w, k, d, cache, CheckingDocs(e, began, n)) ==
            if n >= |DocOrder(e)| then Hit(e, began)
            else if ProbeDoc(e, d, n) then CheckingDocs(e, began, n + 1)
            else Missed(Some(e))
  {
  }

  lemma CheckingDocsOk<Body>(w: World<Body>, k: Key, d: Disk, e: Entry<Body>, began: Disk, n: nat)
    requires Checking(w, k, e, began, d) && DirsFresh(e.discovery, began) && CheckedDocs(e, began, n)
    ensures n >= |DocOrder(e)| ==> PhaseOk(w, k, Hit(e, began), d)
    ensures n < |DocOrder(e)| && ProbeDoc(e, d, n) ==> PhaseOk(w, k, CheckingDocs(e, began, n + 1), d)
    ensures PhaseOk(w, k, Missed(Some(e)), d)
  {
    DocsStepOk(w, k, d, e, began, n);
  }

  lemma CheckSideOk<Body>(w: World<Body>, k: Key, d: Disk, cache: map<Key, Entry<Body>>, phase: Phase<Body>)
    requires Tree(d) && PhaseOk(w, k, phase, d)
    requires phase.LookedUp? || phase.CheckingDirs? || phase.CheckingDocs?
    ensures PhaseOk(w, k, Advance(w, k, d, cache, phase), d)
  {
    match phase
    case LookedUp(e) => LookedUpOk(w, k, d, cache, e);
    case CheckingDirs(e, began, n) =>
      AdvanceDirs(w, k, d, cache, e, began, n);
      CheckingDirsOk(w, k, d, e, began, n);
    case CheckingDocs(e, began, n) =>
      AdvanceDocs(w, k, d, cache, e, began, n);
      CheckingDocsOk(w, k, d, e, began, n);
  }

  lemma BuildSideOk<Body>(w: World<Body>, k: Key, d: Disk, cache: map<Key, Entry<Body>>, phase: Phase<Body>)
    requires Tree(d) && PhaseOk(w, k, phase, d)
    requires phase.Missed? || phase.Building? || phase.Reading?
    ensures PhaseOk(w, k, Advance(w, k, d, cache, phase), d)
  {
    match phase
    case Missed(cached) =>
      if Discover(w, k, d).Ok? { DiscoverStarts(w, k, d); }
    case Building(cached, e, n) =>
      if n >= |e.discovery.candidates| {
        BuiltIsEntry(w, k, e, n, d);
      } else {
        FingerprintedOk(w, k, d, cached, e, n);
      }
    case Reading(cached, e, n, fp) =>
      PartWants(w, k, e, n, d);
      ReadingOk(w, k, d, cached, e, n, fp);
  }

  lemma AdvanceOk<Body>(w: World<Body>, k: Key, d: Disk, cache: map<Key, Entry<Body>>, phase: Phase<Body>)
    requires Tree(d) && CacheOk(w, cache, d) && PhaseOk(w, k, phase, d)
    ensures PhaseOk(w, k, Advance(w, k, d, cache, phase), d)
  {
    if phase.LookedUp? || phase.CheckingDirs? || phase.CheckingDocs? {
      CheckSideOk(w, k, d, cache, phase);
    } else if phase.Missed? || phase.Building? || phase.Reading? {
      BuildSideOk(w, k, d, cache, phase);
    } else {
      LookupOk(w, k, d, cache, phase);
    }
  }

  lemma LookupOk<Body>(w: World<Body>, k: Key, d: Disk, cache: map<Key, Entry<Body>>, phase: Phase<Body>)
    requires CacheOk(w, cache, d) && PhaseOk(w, k, phase, d)
    requires phase.Idle? || !Running(phase)
    ensures PhaseOk(w, k, Advance(w, k, d, cache, phase), d)
  {
  }

  lemma StepKeepsInv<Body>(w: World<Body>, s: State<Body>, step: Step, s': State<Body>)
    requires Inv(w, s) && Takes(w, s, step, s')
    ensures Inv(w, s')
  {
    match step
    case Change(edit) => ChangeKeepsInv(w, s, edit);
    case Begin(k) =>
    case Go(i) => AdvanceOk(w, s.loaders[i].key, s.disk, s.cache, s.loaders[i].phase);
    case Break(i) =>
  }

  // ----- whole runs -----

  lemma {:induction false} RunKeepsInv<Body>(w: World<Body>, tr: seq<State<Body>>, n: nat)
    requires Run(w, tr) && n < |tr|
    ensures Inv(w, tr[n])
  {
    if n > 0 {
      RunKeepsInv(w, tr, n - 1);
      assert StepsAt(w, tr, n - 1);
      var step :| Takes(w, tr[n - 1], step, tr[n]);
      StepKeepsInv(w, tr[n - 1], step, tr[n]);
    }
  }

  lemma StepIsLater<Body>(w: World<Body>, s: State<Body>, s': State<Body>)
    requires Tree(s.disk) && Next(w, s, s')
    ensures Later(s.disk, s'.disk)
  {
    var step :| Takes(w, s, step, s');
    if step.Change? {
      EditIsLater(s.disk, step.edit);
    }
  }

  lemma RunStepIsLater<Body>(w: World<Body>, tr: seq<State<Body>>, n: nat)
    requires Run(w, tr) && n < |tr|
    ensures Tree(tr[n].disk)
    ensures n + 1 < |tr| ==> Later(tr[n].disk, tr[n + 1].disk)
  {
    RunKeepsInv(w, tr, n);
    if n + 1 < |tr| {
      assert StepsAt(w, tr, n);
      StepIsLater(w, tr[n], tr[n + 1]);
    }
  }

  lemma {:induction false} RunIsLater<Body>(w: World<Body>, tr: seq<State<Body>>, m: nat, n: nat)
    requires Run(w, tr) && m <= n < |tr|
    ensures Later(tr[m].disk, tr[n].disk)
    decreases n
  {
    if m == n {
      RunStepIsLater(w, tr, m);
    } else {
      RunIsLater(w, tr, m, n - 1);
      RunStepIsLater(w, tr, n - 1);
      LaterTransitive(tr[m].disk, tr[n - 1].disk, tr[n].disk);
    }
  }

  ghost predicate InCheck<Body>(phase: Phase<Body>, e: Entry<Body>, began: Disk) {
    || (phase.CheckingDirs? && phase.entry == e && phase.began == began)
    || (phase.CheckingDocs? && phase.entry == e && phase.began == began)
    || (phase.Hit? && phase.entry == e && phase.began == began)
  }

  ghost predicate LookedUpAt<Body>(tr: seq<State<Body>>, m: nat, i: nat, key: Key, e: Entry<Body>) {
    m < |tr| && i < |tr[m].loaders| && tr[m].loaders[i] == Loader(key, LookedUp(e))
  }

  /** Loader `i` has looked up `e` and its next step is the first probe, on the disk of that moment. */
  ghost predicate FirstProbeAt<Body>(tr: seq<State<Body>>, m: nat, i: nat, key: Key, e: Entry<Body>) {
    && LookedUpAt(tr, m, i, key, e)
    && m + 1 < |tr| && i < |tr[m + 1].loaders|
    && InCheck(tr[m + 1].loaders[i].phase, e, tr[m].disk)
  }

  lemma AdvanceElsewhere<Body>(w: World<Body>, k: Key, d: Disk, cache: map<Key, Entry<Body>>, phase: Phase<Body>)
    ensures var next := Advance(w, k, d, cache, phase);
            phase.Idle? || phase.Missed? || phase.Building? || phase.Reading? ==>
            !next.CheckingDirs? && !next.CheckingDocs? && !next.Hit?
  {
    var next := Advance(w, k, d, cache, phase);
    match phase
    case Missed(cached) => assert next == Discovered(w, k, d, cached);
    case Building(cached, e, n) => assert next.Stored? || next.Building? || next.Reading? || next.Failed?;
    case Reading(cached, e, n, fp) => assert next.Building? || next.Failed?;
    case _ =>
  }

  lemma AdvanceLookedUp<Body>(w: World<Body>, k: Key, d: Disk, cache: map<Key, Entry<Body>>, e: Entry<Body>)
    ensures Advance(w, k, d, cache, LookedUp(e)) in {CheckingDirs(e, d, 0), CheckingDirs(e, d, 1), Missed(Some(e))}
  {
  }

  lemma AdvanceWithin<Body>(w: World<Body>, k: Key, d: Disk, cache: map<Key, Entry<Body>>, phase: Phase<Body>)
    ensures var next := Advance(w, k, d, cache, phase);
            && (phase.LookedUp? ==> next.Missed? || InCheck(next, phase.entry, d))
            && (phase.CheckingDirs? || phase.CheckingDocs? ==> next.Missed? || InCheck(next, phase.entry, phase.began))
  {
    match phase
    case LookedUp(e) => AdvanceLookedUp(w, k, d, cache, e);
    case CheckingDirs(e, began, n) => AdvanceDirs(w, k, d, cache, e, began, n);
    case CheckingDocs(e, began, n) => AdvanceDocs(w, k, d, cache, e, began, n);
    case _ =>
  }

  lemma AdvanceIntoCheck<Body>(
    w: World<Body>, k: Key, d: Disk, cache: map<Key, Entry<Body>>, phase: Phase<Body>, e: Entry<Body>, began: Disk)
    requires InCheck(Advance(w, k, d, cache, phase), e, began)
    ensures InCheck(phase, e, began) || (phase == LookedUp(e) && d == began)
  {
    AdvanceElsewhere(w, k, d, cache, phase);
    AdvanceWithin(w, k, d, cache, phase);
  }

  lemma AdvanceStores<Body>(w: World<Body>, k: Key, d: Disk, cache: map<Key, Entry<Body>>, phase: Phase<Body>)
    requires Running(phase) && Advance(w, k, d, cache, phase).Stored?
    ensures phase.Building? && phase.n >= |phase.entry.discovery.candidates|
    ensures Advance(w, k, d, cache, phase).entry == phase.entry
  {
  }

  lemma StepIntoCheck<Body>(w: World<Body>, s: State<Body>, s': State<Body>, i: nat, e: Entry<Body>, began: Disk)
    requires Next(w, s, s') && i < |s'.loaders| && InCheck(s'.loaders[i].phase, e, began)
    ensures i < |s.loaders| && s.loaders[i].key == s'.loaders[i].key
    ensures InCheck(s.loaders[i].phase, e, began) || (s.loaders[i].phase == LookedUp(e) && s.disk == began)
  {
    var step :| Takes(w, s, step, s');
    if step.Go? && step.loader == i {
      AdvanceIntoCheck(w, s.loaders[i].key, s.disk, s.cache, s.loaders[i].phase, e, began);
    }
  }

  lemma RunStepIntoCheck<Body>(w: World<Body>, tr: seq<State<Body>>, n: nat, i: nat, e: Entry<Body>, began: Disk)
    requires Run(w, tr) && n + 1 < |tr| && i < |tr[n + 1].loaders|
    requires InCheck(tr[n + 1].loaders[i].phase, e, began)
    ensures i < |tr[n].loaders| && tr[n].loaders[i].key == tr[n + 1].loaders[i].key
    ensures InCheck(tr[n].loaders[i].phase, e, began) || (tr[n].loaders[i].phase == LookedUp(e) && tr[n].disk == began)
  {
    assert StepsAt(w, tr, n);
    StepIntoCheck(w, tr[n], tr[n + 1], i, e, began);
  }

  /** `began` is the disk of the run at the moment of the first probe. */
  lemma {:induction false} CheckBegan<Body>(
    w: World<Body>, tr: seq<State<Body>>, n: nat, i: nat, e: Entry<Body>, began: Disk)
    requires Run(w, tr) && n < |tr| && i < |tr[n].loaders|
    requires InCheck(tr[n].loaders[i].phase, e, began)
    ensures exists m: nat :: m < n && FirstProbeAt(tr, m, i, tr[n].loaders[i].key, e) && tr[m].disk == began
  {
    assert n > 0;
    RunStepIntoCheck(w, tr, n - 1, i, e, began);
    if InCheck(tr[n - 1].loaders[i].phase, e, began) {
      CheckBegan(w, tr, n - 1, i, e, began);
    } else {
      assert FirstProbeAt(tr, n - 1, i, tr[n].loaders[i].key, e);
    }
  }

  /**
   A cache hit returns what a load from scratch would have returned at the moment of its
   first probe, whatever writers and other loads did before, during or after the check.
   */
  lemma HitIsLinearizable<Body>(w: World<Body>, tr: seq<State<Body>>, n: nat, i: nat)
    requires Run(w, tr) && n < |tr| && i < |tr[n].loaders| && tr[n].loaders[i].phase.Hit?
    requires ExtrasCovered(w, tr[n].loaders[i].key)
    ensures exists m: nat :: m < n && FirstProbeAt(tr, m, i, tr[n].loaders[i].key, tr[n].loaders[i].phase.entry)
                        && FreshLoad(w, tr[n].loaders[i].key, tr[m].disk)
                           == Ok(Values(Documents(tr[n].loaders[i].phase.entry)))
  {
    var l := tr[n].loaders[i];
    var e, began := l.phase.entry, l.phase.began;
    RunKeepsInv(w, tr, n);
    assert PhaseOk(w, l.key, l.phase, tr[n].disk);
    MatchingEntryIsFresh(w, l.key, e, began);
    CheckBegan(w, tr, n, i, e, began);
  }

  ghost predicate Current<Body>(w: World<Body>, d: Disk, rel: string, c: Cached<Body>) {
    var p := c.document.absolute;
    && FileFp(d, p) == Some(c.fingerprint)
    && w.parse(rel, d.nodes[p].text, c.fingerprint.ms) == Some(c.document.body)
  }

  ghost predicate NeverAgain<Body>(tr: seq<State<Body>>, n: nat, p: Path, fp: FileFingerprint) {
    forall m :: n <= m < |tr| ==> FileFp(tr[m].disk, p) != Some(fp)
  }

  /**
   Every document of every entry the cache holds at any time is current, or carries a
   fingerprint that its file does not show now and will not show later.
   */
  lemma CachedCurrentOrDead<Body>(w: World<Body>, tr: seq<State<Body>>, n: nat, k: Key, rel: string)
    requires Run(w, tr) && n < |tr| && k in tr[n].cache && rel in tr[n].cache[k].documents
    ensures var c := tr[n].cache[k].documents[rel];
            Current(w, tr[n].disk, rel, c) || NeverAgain(tr, n, c.document.absolute, c.fingerprint)
  {
    RunKeepsInv(w, tr, n);
    var e := tr[n].cache[k];
    var c := e.documents[rel];
    var p := c.document.absolute;
    var origin :| BornAt(w, k, e, |e.discovery.candidates|, origin, tr[n].disk);
    assert CachedOk(w, k, rel, c, tr[n].disk);
    if FileFp(tr[n].disk, p) != Some(c.fingerprint) {
      forall m | n <= m < |tr| ensures FileFp(tr[m].disk, p) != Some(c.fingerprint) {
        RunIsLater(w, tr, n, m);
        if FileFp(tr[m].disk, p) == Some(c.fingerprint) {
          FileUntouched(tr[n].disk, tr[m].disk, p, c.fingerprint);
        }
      }
    }
  }

  ghost predicate StoresAt<Body>(tr: seq<State<Body>>, n: nat, i: nat)
    requires n + 1 < |tr|
  {
    var s, s' := tr[n], tr[n + 1];
    && i < |s.loaders| && |s'.loaders| == |s.loaders|
    && s.loaders[i].phase.Building?
    && var l := s.loaders[i];
       && l.phase.n >= |l.phase.entry.discovery.candidates|
       && s'.loaders[i].phase == Stored(l.phase.entry)
       && s'.cache == s.cache[l.key := l.phase.entry]
  }

  /** Only a load that finished every candidate touches the cache; a failing one stores nothing. */
  lemma OnlyFinishedLoadsStore<Body>(w: World<Body>, tr: seq<State<Body>>, n: nat)
    requires Run(w, tr) && n + 1 < |tr| && tr[n + 1].cache != tr[n].cache
    ensures exists i: nat :: StoresAt(tr, n, i)
  {
    assert StepsAt(w, tr, n);
    var step :| Takes(w, tr[n], step, tr[n + 1]);
    var i := step.loader;
    AdvanceStores(w, tr[n].loaders[i].key, tr[n].disk, tr[n].cache, tr[n].loaders[i].phase);
    assert StoresAt(tr, n, i);
  }
}
