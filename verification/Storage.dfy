/**
 The part of a file system the memory corpus looks at: a tree of directories and files in
 which every change leaves a modification stamp that was never used before.
 */
module Storage {
  import opened Prelude
  import Text

  datatype Node = File(text: string, stamp: nat) | Dir(stamp: nat)

  /** `clock` is above every stamp in use. */
  datatype Disk = Disk(nodes: map<Path, Node>, clock: nat)

  datatype Kind = Missing | IsFile | IsDir

  predicate ProperName(name: string) {
    name != "" && '/' !in name
  }

  function Parent(p: Path): Path
    requires p != []
  {
    p[..|p| - 1]
  }

  function KindAt(d: Disk, p: Path): Kind {
    if p !in d.nodes then Missing else if d.nodes[p].File? then IsFile else IsDir
  }

  /** A tree rooted at the empty path, with stamps below the clock and proper names. */
  ghost predicate Tree(d: Disk) {
    && KindAt(d, []) == IsDir
    && (forall p :: p in d.nodes ==> d.nodes[p].stamp < d.clock)
    && (forall p {:trigger Parent(p)} :: p in d.nodes && p != [] ==> KindAt(d, Parent(p)) == IsDir)
    && (forall p, i :: p in d.nodes && 0 <= i < |p| ==> ProperName(p[i]))
  }

  /** What `metadata` reports about a file: lengths in bytes, time in ms and in ns. */
  datatype FileFingerprint = FileFingerprint(len: nat, ms: nat, ns: nat)

  datatype DirFingerprint = DirFingerprint(present: bool, isDir: bool, ns: Option<nat>)

  function Fingerprint(text: string, stamp: nat): FileFingerprint {
    FileFingerprint(Text.Bytes(text), stamp / 1_000_000, stamp)
  }

  function FileFp(d: Disk, p: Path): Option<FileFingerprint> {
    if KindAt(d, p) == IsFile then Some(Fingerprint(d.nodes[p].text, d.nodes[p].stamp)) else None
  }

  function DirFp(d: Disk, p: Path): DirFingerprint {
    match KindAt(d, p)
    case Missing => DirFingerprint(false, false, None)
    case IsFile => DirFingerprint(true, false, Some(d.nodes[p].stamp))
    case IsDir => DirFingerprint(true, true, Some(d.nodes[p].stamp))
  }

  /**
   One change made by a writer at time `at`. Creating and removing an entry stamps the
   directory that holds it. Writing an existing file in place stamps the file alone;
   replacing it (`replace`) stamps its directory as well.
   */
  datatype Edit =
    | Write(path: Path, text: string, replace: bool, at: nat)
    | Delete(path: Path, at: nat)
    | MakeDir(path: Path, at: nat)
    | RemoveDir(path: Path, at: nat)

  ghost predicate Permitted(d: Disk, e: Edit) {
    && e.path != [] && d.clock <= e.at
    && KindAt(d, Parent(e.path)) == IsDir
    && ProperName(e.path[|e.path| - 1])
    && match e
       case Write(p, _, _, _) => KindAt(d, p) != IsDir
       case Delete(p, _) => KindAt(d, p) == IsFile
       case MakeDir(p, _) => KindAt(d, p) == Missing
       case RemoveDir(p, _) =>
         KindAt(d, p) == IsDir && forall q :: q in d.nodes && q != [] ==> Parent(q) != p
  }

  function Apply(d: Disk, e: Edit): Disk
    requires e.path != []
  {
    var stamped := d.nodes[Parent(e.path) := Dir(e.at)];
    match e
    case Write(p, text, replace, at) =>
      if p in d.nodes && !replace
      then Disk(d.nodes[p := File(text, at)], at + 1)
      else Disk(stamped[p := File(text, at)], at + 1)
    case Delete(p, at) => Disk(stamped - {p}, at + 1)
    case MakeDir(p, at) => Disk(stamped[p := Dir(at)], at + 1)
    case RemoveDir(p, at) => Disk(stamped - {p}, at + 1)
  }

  /**
   `d1` is `d0` after any number of changes: whatever still carries a stamp from before
   `d0.clock` is the same node it was in `d0`, and such a directory holds the same names
   with the same kinds.
   */
  ghost predicate Later(d0: Disk, d1: Disk) {
    && Tree(d0) && Tree(d1)
    && d0.clock <= d1.clock
    && (forall p :: p in d1.nodes && d1.nodes[p].stamp < d0.clock
                    ==> p in d0.nodes && d0.nodes[p] == d1.nodes[p])
    && (forall p, n :: p in d1.nodes && d1.nodes[p].stamp < d0.clock && d1.nodes[p].Dir?
                       ==> KindAt(d1, p + [n]) == KindAt(d0, p + [n]))
  }

  /**
   What a change does: it puts a file, puts a directory or takes something away at its path,
   gives the directory above its own time unless it rewrites a file in place, and touches
   nothing else.
   */
  lemma EditMeans(d: Disk, e: Edit, q: Path)
    requires Permitted(d, e)
    ensures var d' := Apply(d, e);
            && d'.clock == e.at + 1
            && (q == e.path ==>
                  match e
                  case Write(_, text, _, at) => q in d'.nodes && d'.nodes[q] == File(text, at)
                  case MakeDir(_, at) => q in d'.nodes && d'.nodes[q] == Dir(at)
                  case _ => q !in d'.nodes)
            && (q == Parent(e.path) ==>
                  && q in d'.nodes && d'.nodes[q].Dir?
                  && d'.nodes[q].stamp
                     == if e.Write? && e.path in d.nodes && !e.replace then d.nodes[q].stamp else e.at)
            && (q != e.path && q != Parent(e.path) ==>
                  (q in d'.nodes <==> q in d.nodes) && (q in d.nodes ==> d'.nodes[q] == d.nodes[q]))
  {
    assert Parent(e.path) != e.path;
  }

  lemma EditKeepsNames(d: Disk, e: Edit)
    requires Tree(d) && Permitted(d, e)
    ensures forall q, i :: q in Apply(d, e).nodes && 0 <= i < |q| ==> ProperName(q[i])
  {
    var p := e.path;
    forall q, i | q in Apply(d, e).nodes && 0 <= i < |q| ensures ProperName(q[i]) {
      if q == p && i < |p| - 1 { assert p[i] == Parent(p)[i]; }
    }
  }

  lemma EditKeepsTree(d: Disk, e: Edit)
    requires Tree(d) && Permitted(d, e)
    ensures Tree(Apply(d, e))
  {
    var d' := Apply(d, e);
    var p := e.path;
    EditKeepsNames(d, e);
    assert Parent(p) != p;
    forall q | q in d'.nodes && q != [] ensures KindAt(d', Parent(q)) == IsDir {
      assert q != p ==> q in d.nodes;
    }
  }

  lemma EditIsLater(d: Disk, e: Edit)
    requires Tree(d) && Permitted(d, e)
    ensures Later(d, Apply(d, e))
  {
    EditKeepsTree(d, e);
    var d' := Apply(d, e);
    forall q, n | q in d'.nodes && d'.nodes[q].stamp < d.clock && d'.nodes[q].Dir?
      ensures KindAt(d', q + [n]) == KindAt(d, q + [n])
    {
      assert Parent(q + [n]) == q;
    }
  }

  lemma LaterTransitive(d0: Disk, d1: Disk, d2: Disk)
    requires Later(d0, d1) && Later(d1, d2)
    ensures Later(d0, d2)
  {
    forall p, n | p in d2.nodes && d2.nodes[p].stamp < d0.clock && d2.nodes[p].Dir?
      ensures KindAt(d2, p + [n]) == KindAt(d0, p + [n])
    {
      assert KindAt(d2, p + [n]) == KindAt(d1, p + [n]);
    }
  }

  /** A fingerprint taken earlier and still showing proves that the file is untouched. */
  lemma FileUntouched(d0: Disk, d1: Disk, p: Path, fp: FileFingerprint)
    requires Later(d0, d1) && fp.ns < d0.clock && FileFp(d1, p) == Some(fp)
    ensures p in d0.nodes && d0.nodes[p] == d1.nodes[p] && FileFp(d0, p) == Some(fp)
  {
  }

  /** A stamped directory fingerprint, once gone, never shows again. */
  lemma DirUntouched(d0: Disk, d1: Disk, q: Path, fp: DirFingerprint)
    requires Later(d0, d1) && fp.ns.Some? && fp.ns.value < d0.clock && DirFp(d1, q) == fp
    ensures DirFp(d0, q) == fp
    ensures fp.isDir ==> forall n :: KindAt(d1, q + [n]) == KindAt(d0, q + [n])
  {
  }

  /** In a tree, every prefix of a present path is a directory. */
  lemma {:induction false} PrefixIsDir(d: Disk, p: Path, i: nat)
    requires Tree(d) && p in d.nodes && i < |p|
    ensures KindAt(d, p[..i]) == IsDir
    decreases |p|
  {
    assert KindAt(d, Parent(p)) == IsDir;
    if i < |p| - 1 {
      PrefixIsDir(d, Parent(p), i);
      assert Parent(p)[..i] == p[..i];
    } else {
      assert Parent(p) == p[..i];
    }
  }
}
