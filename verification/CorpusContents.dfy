/**
 What a discovery finds and what a load returns, said of the configuration and the disk
 themselves: which files belong to the corpus, and the document each of them gives.
 */
module CorpusContents {
  import opened Prelude
  import opened Storage
  import opened Corpus
  import opened CorpusFreshness
  import opened CorpusLoad
  import Order
  import Text

  // ----- which files belong to the corpus -----

  /** `p` can be reached from `from` going down one name at a time past nothing that is ignored. */
  ghost predicate Reached<Body>(w: World<Body>, from: Path, p: Path, isDir: bool)
    decreases |p|
  {
    || p == from
    || (|p| > |from| && !w.ignored(p, isDir) && Reached(w, from, p[..|p| - 1], true))
  }

  /** `base` is an extra path of the configuration, made absolute. */
  ghost predicate Configured(k: Key, base: Path) {
    || Absolute(base) in k.extras
    || exists q :: Relative(q) in k.extras && base == k.root + q
  }

  ghost predicate NamedMd(p: Path) {
    p != [] && exists stem :: stem != "" && p[|p| - 1] == stem + ".md"
  }

  /** An extra path stands for itself and for the Markdown files that can be reached below it. */
  ghost predicate StandsFor<Body>(w: World<Body>, base: Path, p: Path) {
    p == base || (|base| < |p| && Reached(w, base, p, false) && NamedMd(p))
  }

  ghost predicate Belongs<Body>(w: World<Body>, k: Key, d: Disk, p: Path) {
    && p in d.nodes && d.nodes[p].File?
    && (|| (k.root <= p && Reached(w, k.root, p, false) && w.matches(k.globs, p[|k.root|..]))
        || exists base :: Configured(k, base) && StandsFor(w, base, p))
  }

  lemma {:induction false} ReachedBelow<Body>(w: World<Body>, from: Path, p: Path, isDir: bool)
    requires Reached(w, from, p, isDir)
    ensures from <= p
    decreases |p|
  {
    if p != from {
      ReachedBelow(w, from, p[..|p| - 1], true);
    }
  }

  lemma WalkedUp<Body>(w: World<Body>, from: Path, p: Path, isDir: bool)
    requires |p| > |from|
    ensures Walked(w, from, p, isDir) <==> !w.ignored(p, isDir) && Walked(w, from, p[..|p| - 1], true)
  {
    var q := p[..|p| - 1];
    assert forall i :: 0 <= i <= |q| ==> q[..i] == p[..i];
    assert q[..|q|] == q;
    if !w.ignored(p, isDir) && Walked(w, from, q, true) {
      assert p[..|from|] == q[..|from|] == from;
      forall i | |from| < i < |p| ensures !w.ignored(p[..i], true) {
        assert q[..i] == p[..i];
      }
    }
    if Walked(w, from, p, isDir) {
      assert q[..|from|] == p[..|from|];
      forall i | |from| < i < |q| ensures !w.ignored(q[..i], true) {
        assert q[..i] == p[..i];
      }
      if |from| < |q| { assert !w.ignored(p[..|q|], true); }
    }
  }

  lemma {:induction false} WalkedIsReached<Body>(w: World<Body>, from: Path, p: Path, isDir: bool)
    ensures Walked(w, from, p, isDir) <==> Reached(w, from, p, isDir)
    decreases |p|
  {
    if |p| > |from| {
      WalkedUp(w, from, p, isDir);
      WalkedIsReached(w, from, p[..|p| - 1], true);
    }
  }

  lemma MarkdownIsNamed(p: Path)
    ensures IsMarkdown(p) <==> NamedMd(p)
  {
    if IsMarkdown(p) {
      var name := p[|p| - 1];
      var stem := name[..|name| - 3];
      assert name == stem + ".md";
    }
    if NamedMd(p) {
      var stem :| stem != "" && p[|p| - 1] == stem + ".md";
      assert (stem + ".md")[|stem|..] == ".md";
    }
  }

  lemma ConfiguredIsExtra(k: Key, base: Path)
    ensures Configured(k, base) <==> exists i :: 0 <= i < |k.extras| && Extra(k, i) == base
  {
    if i :| 0 <= i < |k.extras| && Extra(k, i) == base {
      assert k.extras[i] in k.extras;
    }
    if Absolute(base) in k.extras {
      var i :| 0 <= i < |k.extras| && k.extras[i] == Absolute(base);
      assert Extra(k, i) == base;
    }
    if q :| Relative(q) in k.extras && base == k.root + q {
      var i :| 0 <= i < |k.extras| && k.extras[i] == Relative(q);
      assert Extra(k, i) == base;
    }
  }

  lemma FoundIsStoodFor<Body>(w: World<Body>, d: Disk, base: Path, p: Path)
    requires Tree(d) && KindAt(d, p) == IsFile
    ensures FoundByExtra(w, d, base, p) <==> StandsFor(w, base, p)
  {
    WalkedIsReached(w, base, p, false);
    MarkdownIsNamed(p);
    if StandsFor(w, base, p) && p != base {
      ReachedBelow(w, base, p, false);
      PrefixIsDir(d, p, |base|);
      assert p[..|base|] == base;
    }
  }

  ghost predicate IsConfiguredDir(k: Key, d: Disk, base: Path) {
    Configured(k, base) && base in d.nodes && d.nodes[base].Dir?
  }

  /** The filter a candidate passes again when it is read: included, configured, or below a configured directory. */
  lemma WantedIff<Body>(w: World<Body>, k: Key, d: Disk, p: Path)
    requires k.root <= p
    ensures Wanted(w, k, d, p) <==>
            || w.matches(k.globs, p[|k.root|..])
            || Configured(k, p)
            || exists base :: IsConfiguredDir(k, d, base) && base <= p
  {
    if i :| 0 <= i < |k.extras| && if KindAt(d, Extra(k, i)) == IsDir then Extra(k, i) <= p else p == Extra(k, i) {
      ConfiguredIsExtra(k, Extra(k, i));
      assert KindAt(d, Extra(k, i)) == IsDir ==> IsConfiguredDir(k, d, Extra(k, i));
    }
    if Configured(k, p) {
      ConfiguredIsExtra(k, p);
      var i :| 0 <= i < |k.extras| && Extra(k, i) == p;
      assert IsExtra(k, d, p);
    }
    if base :| IsConfiguredDir(k, d, base) && base <= p {
      ConfiguredIsExtra(k, base);
      var i :| 0 <= i < |k.extras| && Extra(k, i) == base;
      assert IsExtra(k, d, p);
    }
  }

  /** A discovery finds exactly the files that belong to the corpus. */
  lemma CandidateIff<Body>(w: World<Body>, k: Key, d: Disk, p: Path)
    requires Tree(d) && Discover(w, k, d).Ok?
    ensures p in Discover(w, k, d).value.candidates <==> Belongs(w, k, d, p)
  {
    assert p in Discover(w, k, d).value.candidates <==> p in Candidates(w, k, d);
    WalkedIsReached(w, k.root, p, false);
    if KindAt(d, p) == IsFile {
      if i :| 0 <= i < |k.extras| && FoundByExtra(w, d, Extra(k, i), p) {
        ConfiguredIsExtra(k, Extra(k, i));
        FoundIsStoodFor(w, d, Extra(k, i), p);
      }
      if base :| Configured(k, base) && StandsFor(w, base, p) {
        ConfiguredIsExtra(k, base);
        var i :| 0 <= i < |k.extras| && Extra(k, i) == base;
        FoundIsStoodFor(w, d, Extra(k, i), p);
      }
    }
  }

  ghost predicate AllInside(k: Key) {
    forall base :: Configured(k, base) ==> k.root <= base
  }

  /** A discovery fails exactly if an extra path lies outside the workspace, and names such a path. */
  lemma DiscoverIff<Body>(w: World<Body>, k: Key, d: Disk)
    ensures Discover(w, k, d).Ok? <==> AllInside(k)
    ensures Discover(w, k, d).Err? ==>
              exists base ::
                Configured(k, base) && !(k.root <= base) && Discover(w, k, d) == Err(OutsideWorkspace(base))
  {
    var outside := FirstOutside(k, 0);
    if outside.Some? {
      ConfiguredIsExtra(k, Extra(k, outside.value));
    } else {
      forall base | Configured(k, base) ensures k.root <= base {
        ConfiguredIsExtra(k, base);
        var i :| 0 <= i < |k.extras| && Extra(k, i) == base;
      }
    }
  }

  // ----- what a load returns -----

  /** The document of a file: its path below the root, joined with slashes, and its text decoded with its time. */
  ghost predicate Gives<Body>(w: World<Body>, k: Key, d: Disk, p: Path, document: Document<Body>) {
    && Belongs(w, k, d, p) && k.root <= p
    && document.absolute == p && document.path == Text.Join(p[|k.root|..], "/")
    && w.parse(document.path, d.nodes[p].text, d.nodes[p].stamp / 1_000_000) == Some(document.body)
  }

  ghost predicate Decodes<Body>(w: World<Body>, k: Key, d: Disk, p: Path)
    requires p in d.nodes && d.nodes[p].File? && k.root <= p
  {
    w.parse(Text.Join(p[|k.root|..], "/"), d.nodes[p].text, d.nodes[p].stamp / 1_000_000).Some?
  }

  lemma LoadOneGives<Body>(w: World<Body>, k: Key, d: Disk, p: Path)
    requires Tree(d) && Discover(w, k, d).Ok? && p in Discover(w, k, d).value.candidates
    ensures Belongs(w, k, d, p) && k.root <= p
    ensures LoadOne(w, k, d, p).Ok? <==> Decodes(w, k, d, p)
    ensures LoadOne(w, k, d, p).Ok? ==>
              LoadOne(w, k, d, p).value.Some? && Gives(w, k, d, p, LoadOne(w, k, d, p).value.value)
  {
    CandidateIff(w, k, d, p);
    CandidateFacts(w, k, d, Discover(w, k, d).value, p);
  }

  lemma GivesOne<Body>(w: World<Body>, k: Key, d: Disk, p: Path, a: Document<Body>, b: Document<Body>)
    requires Gives(w, k, d, p, a) && Gives(w, k, d, p, b)
    ensures a == b
  {
  }

  lemma {:induction false} LoadAllOk<Body>(w: World<Body>, k: Key, d: Disk, candidates: seq<Path>)
    ensures LoadAll(w, k, d, candidates).Ok? <==> forall p :: p in candidates ==> LoadOne(w, k, d, p).Ok?
    decreases |candidates|
  {
    if candidates != [] {
      var front, last := candidates[..|candidates| - 1], candidates[|candidates| - 1];
      assert candidates == front + [last];
      LoadAllOk(w, k, d, front);
    }
  }

  /** The candidate is read, and its document carries its path. */
  ghost predicate Gathers<Body>(w: World<Body>, k: Key, d: Disk, p: Path) {
    && k.root <= p && ProperPath(p)
    && LoadOne(w, k, d, p).Ok? && LoadOne(w, k, d, p).value.Some?
    && LoadOne(w, k, d, p).value.value.path == Rel(k.root, p)
  }

  /** The document of `p` is filed under the relative path of `p`. */
  ghost predicate Filed<Body>(w: World<Body>, k: Key, d: Disk, m: map<string, Document<Body>>, p: Path) {
    && k.root <= p && Rel(k.root, p) in m
    && LoadOne(w, k, d, p) == Ok(Some(m[Rel(k.root, p)]))
  }

  ghost predicate FromOne<Body>(w: World<Body>, k: Key, d: Disk, candidates: seq<Path>, document: Document<Body>) {
    exists p :: p in candidates && LoadOne(w, k, d, p) == Ok(Some(document))
  }

  lemma FiledStays<Body>(
    w: World<Body>, k: Key, d: Disk, m: map<string, Document<Body>>, p: Path, last: Path, document: Document<Body>)
    requires Gathers(w, k, d, p) && Gathers(w, k, d, last) && LoadOne(w, k, d, last) == Ok(Some(document))
    requires p == last || Filed(w, k, d, m, p)
    ensures Filed(w, k, d, m[document.path := document], p)
  {
    if p != last && Rel(k.root, p) == Rel(k.root, last) {
      RelInjective(k.root, p, last);
    }
  }

  /** Nothing is overwritten, because each candidate has a relative path of its own. */
  lemma {:induction false} LoadAllFiles<Body>(w: World<Body>, k: Key, d: Disk, candidates: seq<Path>)
    requires forall p :: p in candidates ==> Gathers(w, k, d, p)
    ensures LoadAll(w, k, d, candidates).Ok?
    ensures forall p :: p in candidates ==> Filed(w, k, d, LoadAll(w, k, d, candidates).value, p)
    ensures forall rel :: rel in LoadAll(w, k, d, candidates).value ==>
              FromOne(w, k, d, candidates, LoadAll(w, k, d, candidates).value[rel])
    decreases |candidates|
  {
    if candidates != [] {
      var front, last := candidates[..|candidates| - 1], candidates[|candidates| - 1];
      assert candidates == front + [last];
      LoadAllFiles(w, k, d, front);
      assert Gathers(w, k, d, last);
      var m, document := LoadAll(w, k, d, front).value, LoadOne(w, k, d, last).value.value;
      var m' := m[document.path := document];
      forall p | p in candidates ensures Filed(w, k, d, m', p) {
        FiledStays(w, k, d, m, p, last, document);
      }
      forall rel | rel in m' ensures FromOne(w, k, d, candidates, m'[rel]) {
        if rel == document.path {
          assert last in candidates;
        } else {
          assert FromOne(w, k, d, front, m[rel]);
        }
      }
    }
  }

  lemma ValuesHas<V>(m: map<string, V>, v: V)
    ensures v in Values(m) <==> exists rel :: rel in m && m[rel] == v
  {
    Order.StringOrder();
    var keys := Order.Listing(Order.StringLess, m.Keys);
    if v in Values(m) {
      var i :| 0 <= i < |Values(m)| && Values(m)[i] == v;
      assert keys[i] in m.Keys;
    }
    if rel :| rel in m && m[rel] == v {
      assert rel in keys;
      var i :| 0 <= i < |keys| && keys[i] == rel;
      assert Values(m)[i] == v;
    }
  }

  lemma CandidatesGather<Body>(w: World<Body>, k: Key, d: Disk, candidates: seq<Path>)
    requires Tree(d) && Discover(w, k, d).Ok? && candidates == Discover(w, k, d).value.candidates
    requires forall p :: p in candidates ==> LoadOne(w, k, d, p).Ok?
    ensures forall p :: p in candidates ==> Gathers(w, k, d, p)
  {
    forall p | p in candidates ensures Gathers(w, k, d, p) {
      LoadOneGives(w, k, d, p);
      CandidateFacts(w, k, d, Discover(w, k, d).value, p);
    }
  }

  ghost predicate AllDecode<Body>(w: World<Body>, k: Key, d: Disk) {
    forall p :: Belongs(w, k, d, p) && k.root <= p ==> Decodes(w, k, d, p)
  }

  lemma AllDecodeIff<Body>(w: World<Body>, k: Key, d: Disk, candidates: seq<Path>)
    requires Tree(d) && Discover(w, k, d).Ok? && candidates == Discover(w, k, d).value.candidates
    ensures AllDecode(w, k, d) <==> forall p :: p in candidates ==> LoadOne(w, k, d, p).Ok?
  {
    forall p | p in candidates
      ensures Belongs(w, k, d, p) && k.root <= p && (LoadOne(w, k, d, p).Ok? <==> Decodes(w, k, d, p))
    {
      LoadOneGives(w, k, d, p);
    }
    forall p | Belongs(w, k, d, p) ensures p in candidates {
      CandidateIff(w, k, d, p);
    }
  }

  /** A load from scratch succeeds exactly if no extra path lies outside and every file that belongs decodes. */
  lemma FreshLoadOkIff<Body>(w: World<Body>, k: Key, d: Disk)
    requires Tree(d)
    ensures FreshLoad(w, k, d).Ok? <==> AllInside(k) && AllDecode(w, k, d)
  {
    DiscoverIff(w, k, d);
    if AllInside(k) {
      var candidates := Discover(w, k, d).value.candidates;
      AllDecodeIff(w, k, d, candidates);
      LoadAllOk(w, k, d, candidates);
    }
  }

  lemma FromOneGives<Body>(w: World<Body>, k: Key, d: Disk, candidates: seq<Path>, document: Document<Body>)
    requires Tree(d) && Discover(w, k, d).Ok? && candidates == Discover(w, k, d).value.candidates
    ensures FromOne(w, k, d, candidates, document) <==> exists p :: Gives(w, k, d, p, document)
  {
    if p :| p in candidates && LoadOne(w, k, d, p) == Ok(Some(document)) {
      LoadOneGives(w, k, d, p);
      assert Gives(w, k, d, p, document);
    }
    if p :| Gives(w, k, d, p, document) {
      CandidateIff(w, k, d, p);
      LoadOneGives(w, k, d, p);
      GivesOne(w, k, d, p, document, LoadOne(w, k, d, p).value.value);
    }
  }

  lemma LoadedIff<Body>(
    w: World<Body>, k: Key, d: Disk, candidates: seq<Path>, m: map<string, Document<Body>>, document: Document<Body>)
    requires forall p :: p in candidates ==> Gathers(w, k, d, p)
    requires LoadAll(w, k, d, candidates) == Ok(m)
    ensures document in Values(m) <==> FromOne(w, k, d, candidates, document)
  {
    LoadAllFiles(w, k, d, candidates);
    ValuesHas(m, document);
    if p :| p in candidates && LoadOne(w, k, d, p) == Ok(Some(document)) {
      assert Filed(w, k, d, m, p);
    }
  }

  /** And then it returns exactly the documents of these files. */
  lemma FreshLoadIff<Body>(w: World<Body>, k: Key, d: Disk, document: Document<Body>)
    requires Tree(d) && FreshLoad(w, k, d).Ok?
    ensures document in FreshLoad(w, k, d).value <==> exists p :: Gives(w, k, d, p, document)
  {
    var candidates := Discover(w, k, d).value.candidates;
    LoadAllOk(w, k, d, candidates);
    CandidatesGather(w, k, d, candidates);
    LoadedIff(w, k, d, candidates, LoadAll(w, k, d, candidates).value, document);
    FromOneGives(w, k, d, candidates, document);
  }

  /** The error of a failing load: a path outside, or a file that belongs and does not decode. */
  ghost predicate Explains<Body>(w: World<Body>, k: Key, d: Disk, error: Error) {
    match error
    case OutsideWorkspace(base) => Configured(k, base) && !(k.root <= base)
    case Malformed(p) => Belongs(w, k, d, p) && k.root <= p && !Decodes(w, k, d, p)
    case Unreadable(_) => false
  }

  lemma {:induction false} LoadAllError<Body>(w: World<Body>, k: Key, d: Disk, candidates: seq<Path>)
    requires LoadAll(w, k, d, candidates).Err?
    ensures exists p :: p in candidates && LoadOne(w, k, d, p) == Err(LoadAll(w, k, d, candidates).error)
    decreases |candidates|
  {
    var front, last := candidates[..|candidates| - 1], candidates[|candidates| - 1];
    assert candidates == front + [last];
    if LoadAll(w, k, d, front).Err? {
      LoadAllError(w, k, d, front);
    }
  }

  lemma FreshLoadError<Body>(w: World<Body>, k: Key, d: Disk)
    requires Tree(d) && FreshLoad(w, k, d).Err?
    ensures Explains(w, k, d, FreshLoad(w, k, d).error)
  {
    DiscoverIff(w, k, d);
    if Discover(w, k, d).Ok? {
      var candidates := Discover(w, k, d).value.candidates;
      LoadAllError(w, k, d, candidates);
      var p :| p in candidates && LoadOne(w, k, d, p) == Err(LoadAll(w, k, d, candidates).error);
      LoadOneGives(w, k, d, p);
      CandidateFacts(w, k, d, Discover(w, k, d).value, p);
    }
  }

  /** The directories whose fingerprints are kept, and what is kept: the root, present or not, and those reached. */
  lemma DirectoryIff<Body>(w: World<Body>, k: Key, d: Disk, q: Path)
    requires Discover(w, k, d).Ok?
    ensures q in Discover(w, k, d).value.directories <==>
            || q == k.root
            || (q in d.nodes && d.nodes[q].Dir?
                && (|| Reached(w, k.root, q, true)
                    || exists base ::
                         Configured(k, base) && base in d.nodes && d.nodes[base].Dir? && Reached(w, base, q, true)))
    ensures q in Discover(w, k, d).value.directories ==> Discover(w, k, d).value.directories[q] == DirFp(d, q)
  {
    WalkedIsReached(w, k.root, q, true);
    if i :| 0 <= i < |k.extras| && KindAt(d, Extra(k, i)) == IsDir && Walked(w, Extra(k, i), q, true) {
      ConfiguredIsExtra(k, Extra(k, i));
      WalkedIsReached(w, Extra(k, i), q, true);
    }
    if base :| Configured(k, base) && base in d.nodes && d.nodes[base].Dir? && Reached(w, base, q, true) {
      ConfiguredIsExtra(k, base);
      var i :| 0 <= i < |k.extras| && Extra(k, i) == base;
      WalkedIsReached(w, Extra(k, i), q, true);
    }
  }

  /** A directory fingerprint shows presence, kind and time. */
  lemma DirectoryFingerprintIff(d: Disk, p: Path, e: Disk, q: Path)
    ensures DirFp(d, p) == DirFp(e, q) <==>
            && (p in d.nodes <==> q in e.nodes)
            && (p in d.nodes && q in e.nodes ==>
                  d.nodes[p].stamp == e.nodes[q].stamp && (d.nodes[p].Dir? <==> e.nodes[q].Dir?))
    ensures DirFp(d, p).present <==> p in d.nodes
    ensures DirFp(d, p).isDir <==> p in d.nodes && d.nodes[p].Dir?
  {
  }

  /** A fingerprint shows the length of the text in bytes and its time, and nothing else. */
  lemma FingerprintIff(d: Disk, p: Path, e: Disk, q: Path)
    requires p in d.nodes && d.nodes[p].File? && q in e.nodes && e.nodes[q].File?
    ensures FileFp(d, p).Some?
    ensures FileFp(d, p) == FileFp(e, q) <==>
            Text.Bytes(d.nodes[p].text) == Text.Bytes(e.nodes[q].text) && d.nodes[p].stamp == e.nodes[q].stamp
  {
  }
}
