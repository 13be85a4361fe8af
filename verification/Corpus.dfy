/**
 Loading the Markdown memory corpus: discovery, fingerprints, cache entries and the
 load from scratch that the cache stands in for.
 */
module Corpus {
  import opened Prelude
  import opened Storage
  import Order
  import Text

  datatype Error =
    | OutsideWorkspace(path: Path)
    | Malformed(path: Path)
    | Unreadable(path: Path)

  datatype Result<+T> = Ok(value: T) | Err(error: Error)

  /** A configured extra path, absolute or relative to the workspace root. */
  datatype ExtraPath = Absolute(path: Path) | Relative(path: Path)

  datatype Key = Key(root: Path, globs: seq<string>, extras: seq<ExtraPath>)

  /**
   What stays fixed while the process runs: glob matching on workspace-relative paths,
   the ignore rules of the directory walk, and decoding a document from its relative
   path, its text and its modification time in ms (None on a decoding error).
   */
  datatype World<!Body> = World(
    matches: (seq<string>, Path) -> bool,
    ignored: (Path, bool) -> bool,
    parse: (string, string, nat) -> Option<Body>)

  datatype Document<+Body> = Document(path: string, absolute: Path, body: Body)

  datatype Cached<+Body> = Cached(fingerprint: FileFingerprint, document: Document<Body>)

  datatype Discovery = Discovery(candidates: seq<Path>, directories: map<Path, DirFingerprint>)

  datatype Entry<+Body> = Entry(discovery: Discovery, documents: map<string, Cached<Body>>)

  // ----- paths -----

  function Rel(root: Path, p: Path): string
    requires root <= p
  {
    Text.Join(p[|root|..], "/")
  }

  function Extra(k: Key, i: nat): Path
    requires i < |k.extras|
  {
    match k.extras[i]
    case Absolute(p) => p
    case Relative(p) => k.root + p
  }

  predicate ProperPath(p: Path) {
    forall i :: 0 <= i < |p| ==> ProperName(p[i])
  }

  lemma RelInjective(root: Path, p: Path, q: Path)
    requires root <= p && root <= q && ProperPath(p) && ProperPath(q)
    requires Rel(root, p) == Rel(root, q)
    ensures p == q
  {
    var a, b := p[|root|..], q[|root|..];
    assert p == root + a && q == root + b;
    forall i | 0 <= i < |a| ensures '/' !in a[i] && a[i] != "" { assert a[i] == p[|root| + i]; }
    forall i | 0 <= i < |b| ensures '/' !in b[i] && b[i] != "" { assert b[i] == q[|root| + i]; }
    if a != [] && b != [] {
      Text.SplitJoin(a, '/');
      Text.SplitJoin(b, '/');
    }
  }

  // ----- discovery -----

  /** A walk that starts at `from` reaches `p`. */
  predicate Walked<Body>(w: World<Body>, from: Path, p: Path, isDir: bool) {
    && from <= p
    && (forall i :: |from| < i < |p| ==> !w.ignored(p[..i], true))
    && (|from| < |p| ==> !w.ignored(p, isDir))
  }

  predicate IsMarkdown(p: Path) {
    p != [] && var name := p[|p| - 1]; |name| > 3 && name[|name| - 3..] == ".md"
  }

  predicate FoundByExtra<Body>(w: World<Body>, d: Disk, extra: Path, p: Path) {
    if KindAt(d, extra) == IsDir then Walked(w, extra, p, false) && IsMarkdown(p) else p == extra
  }

  predicate IsCandidate<Body>(w: World<Body>, k: Key, d: Disk, p: Path) {
    || (Walked(w, k.root, p, false) && w.matches(k.globs, p[|k.root|..]))
    || exists i :: 0 <= i < |k.extras| && FoundByExtra(w, d, Extra(k, i), p)
  }

  predicate IsRecorded<Body>(w: World<Body>, k: Key, d: Disk, q: Path) {
    || Walked(w, k.root, q, true)
    || exists i :: 0 <= i < |k.extras| && KindAt(d, Extra(k, i)) == IsDir && Walked(w, Extra(k, i), q, true)
  }

  function Candidates<Body>(w: World<Body>, k: Key, d: Disk): set<Path> {
    set p | p in d.nodes && d.nodes[p].File? && IsCandidate(w, k, d, p)
  }

  /** The directories whose fingerprints are kept: the root, present or not, and every directory walked. */
  function Recorded<Body>(w: World<Body>, k: Key, d: Disk): set<Path> {
    {k.root} + set q | q in d.nodes && d.nodes[q].Dir? && IsRecorded(w, k, d, q)
  }

  function FirstOutside(k: Key, i: nat): (r: Option<nat>)
    requires i <= |k.extras|
    ensures r.None? ==> forall j :: i <= j < |k.extras| ==> k.root <= Extra(k, j)
    ensures r.Some? ==> i <= r.value < |k.extras| && !(k.root <= Extra(k, r.value))
    decreases |k.extras| - i
  {
    if i == |k.extras| then None
    else if !(k.root <= Extra(k, i)) then Some(i)
    else FirstOutside(k, i + 1)
  }

  function Discover<Body>(w: World<Body>, k: Key, d: Disk): Result<Discovery> {
    match FirstOutside(k, 0)
    case Some(i) => Err(OutsideWorkspace(Extra(k, i)))
    case None =>
      Order.PathOrder();
      Ok(Discovery(Order.Listing(Order.PathLess, Candidates(w, k, d)),
                   map q | q in Recorded(w, k, d) :: DirFp(d, q)))
  }

  /** Some walk records `q` whenever `q` is a directory. */
  ghost predicate Covered<Body>(w: World<Body>, k: Key, q: Path) {
    || Walked(w, k.root, q, true)
    || exists i :: 0 <= i < |k.extras| && Walked(w, Extra(k, i), q, true)
  }

  /** The directory that holds each extra path is watched. */
  ghost predicate ExtrasCovered<Body>(w: World<Body>, k: Key) {
    forall i :: 0 <= i < |k.extras| ==>
      Extra(k, i) == k.root || (Extra(k, i) != [] && Covered(w, k, Parent(Extra(k, i))))
  }

  // ----- the load from scratch -----

  predicate IsExtra(k: Key, d: Disk, p: Path) {
    exists i :: 0 <= i < |k.extras| &&
      if KindAt(d, Extra(k, i)) == IsDir then Extra(k, i) <= p else p == Extra(k, i)
  }

  predicate Wanted<Body>(w: World<Body>, k: Key, d: Disk, p: Path)
    requires k.root <= p
  {
    w.matches(k.globs, p[|k.root|..]) || IsExtra(k, d, p)
  }

  function ReadDocument<Body>(w: World<Body>, k: Key, d: Disk, p: Path, ms: nat): Result<Document<Body>>
    requires k.root <= p
  {
    if KindAt(d, p) != IsFile then Err(Unreadable(p))
    else match w.parse(Rel(k.root, p), d.nodes[p].text, ms)
      case None => Err(Malformed(p))
      case Some(body) => Ok(Document(Rel(k.root, p), p, body))
  }

  /** One candidate, read without any cache: nothing if it is gone or not wanted. */
  function LoadOne<Body>(w: World<Body>, k: Key, d: Disk, p: Path): Result<Option<Document<Body>>> {
    match FileFp(d, p)
    case None => Ok(None)
    case Some(fp) =>
      if !(k.root <= p) then Err(OutsideWorkspace(p))
      else if !Wanted(w, k, d, p) then Ok(None)
      else match ReadDocument(w, k, d, p, fp.ms)
        case Err(e) => Err(e)
        case Ok(document) => Ok(Some(document))
  }

  function LoadAll<Body>(w: World<Body>, k: Key, d: Disk, candidates: seq<Path>): Result<map<string, Document<Body>>> {
    if candidates == [] then Ok(map[])
    else match LoadAll(w, k, d, candidates[..|candidates| - 1])
      case Err(e) => Err(e)
      case Ok(documents) =>
        match LoadOne(w, k, d, candidates[|candidates| - 1])
        case Err(e) => Err(e)
        case Ok(None) => Ok(documents)
        case Ok(Some(document)) => Ok(documents[document.path := document])
  }

  /** The values of an ordered map, in key order. */
  function Values<V>(m: map<string, V>): (r: seq<V>)
    ensures |r| == |m.Keys|
  {
    Order.StringOrder();
    var keys := Order.Listing(Order.StringLess, m.Keys);
    seq(|keys|, i requires 0 <= i < |keys| => assert keys[i] in m.Keys; m[keys[i]])
  }

  /** What loading the corpus returns when nothing is cached and the disk holds still. */
  function FreshLoad<Body>(w: World<Body>, k: Key, d: Disk): Result<seq<Document<Body>>> {
    match Discover(w, k, d)
    case Err(e) => Err(e)
    case Ok(discovery) =>
      match LoadAll(w, k, d, discovery.candidates)
      case Err(e) => Err(e)
      case Ok(documents) => Ok(Values(documents))
  }

  // ----- cache entries -----

  function Documents<Body>(e: Entry<Body>): map<string, Document<Body>> {
    map rel | rel in e.documents :: e.documents[rel].document
  }

  /** Reuse of a cached document: same relative path, same absolute path, same fingerprint. */
  function ReuseCached<Body>(
    cached: Option<Entry<Body>>, rel: string, p: Path, fp: FileFingerprint): Option<Document<Body>>
  {
    if cached.Some? && rel in cached.value.documents
       && cached.value.documents[rel].document.absolute == p
       && cached.value.documents[rel].fingerprint == fp
    then Some(cached.value.documents[rel].document)
    else None
  }

  predicate DirFresh(e: Discovery, d: Disk, q: Path)
    requires q in e.directories
  {
    DirFp(d, q) == e.directories[q]
  }

  predicate DirsFresh(e: Discovery, d: Disk) {
    forall q :: q in e.directories ==> DirFresh(e, d, q)
  }

  predicate DocumentsFresh<Body>(e: Entry<Body>, d: Disk) {
    forall rel :: rel in e.documents
      ==> FileFp(d, e.documents[rel].document.absolute) == Some(e.documents[rel].fingerprint)
  }

  /** A recorded directory fingerprint that the disk has lost for good. */
  ghost predicate LostDir(e: Discovery, d: Disk, q: Path) {
    && q in e.directories && DirFp(d, q) != e.directories[q]
    && e.directories[q].ns.Some? && e.directories[q].ns.value < d.clock
  }

  ghost predicate Doomed(e: Discovery, d: Disk) {
    exists q :: LostDir(e, d, q)
  }

  /** If the fingerprint of a cached document still shows, the document is what the disk holds. */
  ghost predicate CachedOk<Body>(w: World<Body>, k: Key, rel: string, c: Cached<Body>, d: Disk) {
    var p := c.document.absolute;
    && k.root <= p && rel == Rel(k.root, p) == c.document.path
    && c.fingerprint.ns < d.clock
    && (FileFp(d, p) == Some(c.fingerprint)
        ==> w.parse(rel, d.nodes[p].text, c.fingerprint.ms) == Some(c.document.body))
  }

  /**
   A cache entry, finished up to candidate `n`, whose discovery ran on the disk `origin`:
   each candidate seen so far has a document, or a directory changed in the meantime.
   */
  ghost predicate BornAt<Body>(w: World<Body>, k: Key, e: Entry<Body>, n: nat, origin: Disk, d: Disk) {
    && Later(origin, d)
    && Discover(w, k, origin) == Ok(e.discovery)
    && n <= |e.discovery.candidates|
    && DocumentsOk(w, k, e, d)
    && (ExtrasCovered(w, k) ==> AllAccounted(k, e, n, d))
  }

  ghost predicate DocumentsOk<Body>(w: World<Body>, k: Key, e: Entry<Body>, d: Disk) {
    forall rel :: rel in e.documents
      ==> CachedOk(w, k, rel, e.documents[rel], d)
          && e.documents[rel].document.absolute in e.discovery.candidates
  }

  ghost predicate AllAccounted<Body>(k: Key, e: Entry<Body>, n: nat, d: Disk) {
    n <= |e.discovery.candidates| && forall i :: 0 <= i < n ==> Accounted(k, e, i, d)
  }

  ghost predicate Accounted<Body>(k: Key, e: Entry<Body>, i: nat, d: Disk)
    requires i < |e.discovery.candidates|
  {
    var p := e.discovery.candidates[i];
    k.root <= p && (Rel(k.root, p) in e.documents || Doomed(e.discovery, d))
  }

  ghost predicate PartOk<Body>(w: World<Body>, k: Key, e: Entry<Body>, n: nat, d: Disk) {
    exists origin :: BornAt(w, k, e, n, origin, d)
  }

  /** The invariant of every entry the cache ever holds. */
  ghost predicate EntryOk<Body>(w: World<Body>, k: Key, e: Entry<Body>, d: Disk) {
    PartOk(w, k, e, |e.discovery.candidates|, d)
  }

  // ----- stability -----

  lemma CachedStable<Body>(w: World<Body>, k: Key, rel: string, c: Cached<Body>, d: Disk, d': Disk)
    requires CachedOk(w, k, rel, c, d) && Later(d, d')
    ensures CachedOk(w, k, rel, c, d')
  {
    var p := c.document.absolute;
    if FileFp(d', p) == Some(c.fingerprint) {
      FileUntouched(d, d', p, c.fingerprint);
    }
  }

  lemma DoomedStable(e: Discovery, d: Disk, d': Disk)
    requires Doomed(e, d) && Later(d, d')
    ensures Doomed(e, d')
  {
    var q :| LostDir(e, d, q);
    if DirFp(d', q) == e.directories[q] {
      DirUntouched(d, d', q, e.directories[q]);
    }
    assert LostDir(e, d', q);
  }

  lemma PartStable<Body>(w: World<Body>, k: Key, e: Entry<Body>, n: nat, d: Disk, d': Disk)
    requires PartOk(w, k, e, n, d) && Later(d, d')
    ensures PartOk(w, k, e, n, d')
  {
    var origin :| BornAt(w, k, e, n, origin, d);
    LaterTransitive(origin, d, d');
    forall rel | rel in e.documents ensures CachedOk(w, k, rel, e.documents[rel], d') {
      CachedStable(w, k, rel, e.documents[rel], d, d');
    }
    if Doomed(e.discovery, d) {
      DoomedStable(e.discovery, d, d');
    }
    forall i | ExtrasCovered(w, k) && 0 <= i < n ensures Accounted(k, e, i, d') {
      assert Accounted(k, e, i, d);
    }
    assert BornAt(w, k, e, n, origin, d');
  }
}
