/**
 Hits return a load from scratch on every run exactly for the keys whose extra paths lie in
 watched directories: for any other key there is a run that ends in a stale hit.
 */
module CorpusStale {
  import opened Prelude
  import opened Storage
  import opened Corpus
  import opened CorpusFreshness
  import opened CorpusRuns

  ghost predicate HitBy<Body>(w: World<Body>, tr: seq<State<Body>>, n: nat, i: nat, k: Key) {
    && Run(w, tr) && n < |tr| && i < |tr[n].loaders|
    && tr[n].loaders[i].key == k && tr[n].loaders[i].phase.Hit?
  }

  /** The hit returns what a load from scratch would have returned at its first probe. */
  ghost predicate Linearizable<Body>(w: World<Body>, tr: seq<State<Body>>, n: nat, i: nat)
    requires n < |tr| && i < |tr[n].loaders| && tr[n].loaders[i].phase.Hit?
  {
    exists m: nat :: m < n && FirstProbeAt(tr, m, i, tr[n].loaders[i].key, tr[n].loaders[i].phase.entry)
                     && FreshLoad(w, tr[n].loaders[i].key, tr[m].disk)
                        == Ok(Values(Documents(tr[n].loaders[i].phase.entry)))
  }

  /** A hit such that at no moment since its load began would a load from scratch have returned the same. */
  ghost predicate NeverRight<Body>(w: World<Body>, tr: seq<State<Body>>, n: nat, i: nat, k: Key) {
    && HitBy(w, tr, n, i, k)
    && forall m: nat :: m <= n && i < |tr[m].loaders| ==>
         FreshLoad(w, k, tr[m].disk) != Ok(Values(Documents(tr[n].loaders[i].phase.entry)))
  }

  lemma NeverRightIsStale<Body>(w: World<Body>, tr: seq<State<Body>>, n: nat, i: nat, k: Key)
    requires NeverRight(w, tr, n, i, k)
    ensures HitBy(w, tr, n, i, k) && !Linearizable(w, tr, n, i)
  {
  }

  // ----- building a run -----

  /** A run that ends in `s` and in which a second load exists only while the disk is `after`. */
  ghost predicate EndsIn<Body>(w: World<Body>, after: Disk, tr: seq<State<Body>>, s: State<Body>) {
    && Run(w, tr) && tr[|tr| - 1] == s
    && forall m :: 0 <= m < |tr| && |tr[m].loaders| > 1 ==> tr[m].disk == after
  }

  ghost predicate Reachable<Body(!new)>(w: World<Body>, after: Disk, s: State<Body>) {
    exists tr :: EndsIn(w, after, tr, s)
  }

  lemma RunGrows<Body>(w: World<Body>, tr: seq<State<Body>>, s: State<Body>)
    requires Run(w, tr) && Next(w, tr[|tr| - 1], s)
    ensures Run(w, tr + [s])
  {
    forall i | 0 <= i < |tr + [s]| - 1 ensures StepsAt(w, tr + [s], i) {
      if i < |tr| - 1 { assert StepsAt(w, tr, i); }
    }
  }

  lemma Reach<Body(!new)>(w: World<Body>, after: Disk, s: State<Body>, step: Step, s': State<Body>)
    requires Reachable(w, after, s) && Takes(w, s, step, s') && (|s'.loaders| > 1 ==> s'.disk == after)
    ensures Reachable(w, after, s')
  {
    var tr :| EndsIn(w, after, tr, s);
    assert Next(w, s, s');
    RunGrows(w, tr, s');
    assert EndsIn(w, after, tr + [s'], s');
  }

  /** The state in which the first load has come to `phase` and stored nothing yet. */
  function First<Body>(k: Key, before: Disk, phase: Phase<Body>): State<Body> {
    State(before, map[], [Loader(k, phase)])
  }

  lemma FirstGoes<Body(!new)>(w: World<Body>, k: Key, before: Disk, after: Disk, phase: Phase<Body>, next: Phase<Body>)
    requires Reachable(w, after, First(k, before, phase)) && Running(phase)
    requires next == Advance(w, k, before, map[], phase) && !next.Stored?
    ensures Reachable(w, after, First(k, before, next))
  {
    assert First(k, before, next).loaders == First(k, before, phase).loaders[0 := Loader(k, next)];
    Reach(w, after, First(k, before, phase), Go(0), First(k, before, next));
  }

  /** The state after the first load has stored its entry. */
  function OneStored<Body>(k: Key, d: Disk, e: Entry<Body>): State<Body> {
    State(d, map[k := e], [Loader(k, Stored(e))])
  }

  lemma FirstStores<Body(!new)>(w: World<Body>, k: Key, before: Disk, after: Disk, e: Entry<Body>)
    requires Reachable(w, after, First(k, before, Building(None, e, 0))) && e.discovery.candidates == []
    ensures Reachable(w, after, OneStored(k, before, e))
  {
    Reach(w, after, First(k, before, Building(None, e, 0)), Go(0), OneStored(k, before, e));
  }

  lemma FirstDiscovers<Body>(w: World<Body>, k: Key, before: Disk, e: Entry<Body>)
    requires Discover(w, k, before) == Ok(e.discovery) && e.documents == map[]
    ensures Advance(w, k, before, map[], Missed(None)) == Building(None, e, 0)
  {
    assert e == Entry(e.discovery, map[]);
  }

  lemma FirstBegins<Body(!new)>(w: World<Body>, k: Key, before: Disk, after: Disk)
    requires Tree(before)
    ensures Reachable(w, after, First<Body>(k, before, Idle))
  {
    var start: State<Body> := State(before, map[], []);
    assert EndsIn(w, after, [start], start);
    Reach(w, after, start, Begin(k), First(k, before, Idle));
  }

  /** A load by an empty cache, of a workspace without candidates, stores an entry without documents. */
  lemma FirstLoad<Body(!new)>(w: World<Body>, k: Key, before: Disk, after: Disk, e: Entry<Body>)
    requires Tree(before) && Discover(w, k, before) == Ok(e.discovery)
    requires e.discovery.candidates == [] && e.documents == map[]
    ensures Reachable(w, after, OneStored(k, before, e))
  {
    FirstBegins(w, k, before, after);
    FirstGoes(w, k, before, after, Idle, Missed(None));
    FirstDiscovers(w, k, before, e);
    FirstGoes(w, k, before, after, Missed(None), Building(None, e, 0));
    FirstStores(w, k, before, after, e);
  }

  /** The state in which the second load has come to `phase`. */
  function Second<Body>(k: Key, after: Disk, e: Entry<Body>, phase: Phase<Body>): State<Body> {
    State(after, map[k := e], [Loader(k, Stored(e)), Loader(k, phase)])
  }

  lemma SecondGoes<Body(!new)>(
    w: World<Body>, k: Key, after: Disk, e: Entry<Body>, phase: Phase<Body>, next: Phase<Body>)
    requires Reachable(w, after, Second(k, after, e, phase)) && Running(phase)
    requires next == Advance(w, k, after, map[k := e], phase) && !next.Stored?
    ensures Reachable(w, after, Second(k, after, e, next))
  {
    assert Second(k, after, e, next).loaders == Second(k, after, e, phase).loaders[1 := Loader(k, next)];
    Reach(w, after, Second(k, after, e, phase), Go(1), Second(k, after, e, next));
  }

  lemma SecondBegins<Body(!new)>(w: World<Body>, k: Key, before: Disk, change: Edit, after: Disk, e: Entry<Body>)
    requires Permitted(before, change) && after == Apply(before, change)
    requires Reachable(w, after, OneStored(k, before, e))
    ensures Reachable(w, after, Second(k, after, e, LookedUp(e)))
  {
    Reach(w, after, OneStored(k, before, e), Change(change), OneStored(k, after, e));
    Reach(w, after, OneStored(k, after, e), Begin(k), Second(k, after, e, Idle));
    SecondGoes(w, k, after, e, Idle, LookedUp(e));
  }

  lemma ProbePasses<Body>(e: Entry<Body>, after: Disk, c: nat)
    requires DirsFresh(e.discovery, after) && c < |DirOrder(e)|
    ensures ProbeDir(e, after, c)
  {
    assert DirOrder(e)[c] in e.discovery.directories.Keys;
  }

  lemma CheckStarts<Body(!new)>(w: World<Body>, k: Key, after: Disk, e: Entry<Body>) returns (c: nat)
    requires Reachable(w, after, Second(k, after, e, LookedUp(e))) && DirsFresh(e.discovery, after)
    ensures c <= |DirOrder(e)| && Reachable(w, after, Second(k, after, e, CheckingDirs(e, after, c)))
  {
    c := if |DirOrder(e)| == 0 then 0 else 1;
    if |DirOrder(e)| > 0 { ProbePasses(e, after, 0); }
    SecondGoes(w, k, after, e, LookedUp(e), CheckingDirs(e, after, c));
  }

  lemma CheckContinues<Body(!new)>(w: World<Body>, k: Key, after: Disk, e: Entry<Body>, c: nat)
    requires Reachable(w, after, Second(k, after, e, CheckingDirs(e, after, c))) && c < |DirOrder(e)|
    requires DirsFresh(e.discovery, after)
    ensures Reachable(w, after, Second(k, after, e, CheckingDirs(e, after, c + 1)))
  {
    AdvanceDirs(w, k, after, map[k := e], e, after, c);
    ProbePasses(e, after, c);
    SecondGoes(w, k, after, e, CheckingDirs(e, after, c), CheckingDirs(e, after, c + 1));
  }

  lemma CheckEnds<Body(!new)>(w: World<Body>, k: Key, after: Disk, e: Entry<Body>)
    requires Reachable(w, after, Second(k, after, e, CheckingDirs(e, after, |DirOrder(e)|))) && DocOrder(e) == []
    ensures Reachable(w, after, Second(k, after, e, Hit(e, after)))
  {
    var c := |DirOrder(e)|;
    AdvanceDirs(w, k, after, map[k := e], e, after, c);
    SecondGoes(w, k, after, e, CheckingDirs(e, after, c), CheckingDocs(e, after, 0));
    AdvanceDocs(w, k, after, map[k := e], e, after, 0);
    SecondGoes(w, k, after, e, CheckingDocs(e, after, 0), Hit(e, after));
  }

  /** A check of directories that all match goes through all of them. */
  lemma {:induction false} CheckPasses<Body(!new)>(w: World<Body>, k: Key, after: Disk, e: Entry<Body>, c: nat)
    requires Reachable(w, after, Second(k, after, e, CheckingDirs(e, after, c))) && c <= |DirOrder(e)|
    requires DirsFresh(e.discovery, after)
    ensures Reachable(w, after, Second(k, after, e, CheckingDirs(e, after, |DirOrder(e)|)))
    decreases |DirOrder(e)| - c
  {
    if c < |DirOrder(e)| {
      CheckContinues(w, k, after, e, c);
      CheckPasses(w, k, after, e, c + 1);
    }
  }

  lemma NoDocuments<Body>(e: Entry<Body>)
    requires e.documents == map[]
    ensures DocOrder(e) == []
  {
    assert |DocOrder(e)| == |e.documents.Keys|;
  }

  lemma StaleReachable<Body(!new)>(w: World<Body>, k: Key, before: Disk, change: Edit, after: Disk, e: Entry<Body>)
    requires Tree(before) && Permitted(before, change) && after == Apply(before, change)
    requires Discover(w, k, before) == Ok(e.discovery) && e.discovery.candidates == [] && e.documents == map[]
    requires DirsFresh(e.discovery, after)
    ensures Reachable(w, after, Second(k, after, e, Hit(e, after)))
  {
    FirstLoad(w, k, before, after, e);
    SecondBegins(w, k, before, change, after, e);
    var c := CheckStarts(w, k, after, e);
    NoDocuments(e);
    CheckPasses(w, k, after, e, c);
    CheckEnds(w, k, after, e);
  }

  lemma EndIsHit<Body>(w: World<Body>, k: Key, after: Disk, e: Entry<Body>, tr: seq<State<Body>>)
    requires EndsIn(w, after, tr, Second(k, after, e, Hit(e, after)))
    ensures HitBy(w, tr, |tr| - 1, 1, k) && tr[|tr| - 1].loaders[1].phase == Hit(e, after)
  {
  }

  lemma EndIsWrong<Body>(w: World<Body>, k: Key, after: Disk, e: Entry<Body>, tr: seq<State<Body>>)
    requires EndsIn(w, after, tr, Second(k, after, e, Hit(e, after)))
    requires FreshLoad(w, k, after) != Ok(Values(Documents(e)))
    ensures NeverRight(w, tr, |tr| - 1, 1, k)
  {
    EndIsHit(w, k, after, e, tr);
  }

  /** For an extra path whose directory no walk records there is a run that ends in a hit which was never right. */
  lemma StaleRun<Body(!new)>(w: World<Body>, k: Key, i: nat)
    requires FirstOutside(k, 0).None? && i < |k.extras| && ProperPath(Extra(k, i))
    requires Extra(k, i) != k.root && !Covered(w, k, Parent(Extra(k, i)))
    ensures exists tr: seq<State<Body>>, n: nat, j: nat :: NeverRight(w, tr, n, j, k)
  {
    var before, change, e := StaleHit<Body>(w, k, i);
    var after := Apply(before, change);
    StaleReachable(w, k, before, change, after, e);
    var tr :| EndsIn(w, after, tr, Second(k, after, e, Hit(e, after)));
    EndIsWrong(w, k, after, e, tr);
  }

  /**
   Over every interleaving of loads and writers: all hits for a key are linearizable if and
   only if the directories of its extra paths are watched.
   */
  lemma LinearizableIffCovered<Body(!new)>(w: World<Body>, k: Key)
    requires FirstOutside(k, 0).None?
    requires forall i :: 0 <= i < |k.extras| ==> ProperPath(Extra(k, i))
    ensures ExtrasCovered(w, k) <==>
            forall tr: seq<State<Body>>, n: nat, i: nat :: HitBy(w, tr, n, i, k) ==> Linearizable(w, tr, n, i)
  {
    if ExtrasCovered(w, k) {
      forall tr: seq<State<Body>>, n: nat, i: nat | HitBy(w, tr, n, i, k) ensures Linearizable(w, tr, n, i) {
        HitIsLinearizable(w, tr, n, i);
      }
    } else {
      var i :| 0 <= i < |k.extras| && Extra(k, i) != k.root
               && !(Extra(k, i) != [] && Covered(w, k, Parent(Extra(k, i))));
      assert k.root <= Extra(k, i);
      StaleRun<Body>(w, k, i);
      var tr: seq<State<Body>>, n: nat, j: nat :| NeverRight(w, tr, n, j, k);
      NeverRightIsStale(w, tr, n, j, k);
    }
  }
}
