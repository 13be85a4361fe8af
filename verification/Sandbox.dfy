/** Narrowing a sandbox policy to what a plugin was granted. */
module Sandbox {
  import opened Order
  import opened Prelude

  /** In order of increasing freedom. */
  datatype Mode = ReadOnly | WorkspaceWrite | DangerFullAccess

  ghost predicate NoLooser(mode: Mode, base: Mode) {
    mode == ReadOnly || mode == base || base == DangerFullAccess
  }

  datatype HostEscape = Deny | HostManaged

  datatype Network = Off | Allowlist(domains: seq<string>, cidrs: seq<string>) | Full

  datatype HookNetwork = DenyAll | AllowAll | AllowDomains(domains: seq<string>)

  datatype Filesystem = Filesystem(
    readable: seq<Path>, writable: seq<Path>, executable: seq<Path>, protectedPaths: seq<Path>)

  datatype Policy = Policy(
    mode: Mode, filesystem: Filesystem, network: Network, hostEscape: HostEscape, failIfUnavailable: bool)

  datatype Grants = Grants(readRoots: seq<Path>, writeRoots: seq<Path>, execRoots: seq<Path>, network: HookNetwork)

  datatype Plugin = Plugin(root: Path, granted: Grants)

  // ----- what root lists mean -----

  predicate IsRootOf(root: Path, p: Path) {
    root <= p
  }

  /** The path lies at or below one of the roots. */
  predicate Under(roots: seq<Path>, p: Path) {
    exists root :: root in roots && IsRootOf(root, p)
  }

  /** The reading of a list in a base policy: an empty list sets no limit. */
  predicate Allows(roots: seq<Path>, p: Path) {
    roots == [] || Under(roots, p)
  }

  function Elements(paths: seq<Path>): set<Path> {
    set p | p in paths
  }

  /** Union as an ordered list without duplicates. */
  function UnionPaths(left: seq<Path>, right: seq<Path>): (r: seq<Path>)
    ensures Ascending(PathLess, r) && Lists(r, Elements(left) + Elements(right))
  {
    PathOrder();
    Listing(PathLess, Elements(left) + Elements(right))
  }

  lemma UnionMeans(left: seq<Path>, right: seq<Path>, p: Path)
    ensures Under(UnionPaths(left, right), p) <==> Under(left, p) || Under(right, p)
  {
    var r := UnionPaths(left, right);
    if Under(r, p) {
      var q :| q in r && IsRootOf(q, p);
      assert q in Elements(left) + Elements(right);
    }
    if Under(left, p) {
      var q :| q in left && IsRootOf(q, p);
      assert q in Elements(left) + Elements(right);
    }
    if Under(right, p) {
      var q :| q in right && IsRootOf(q, p);
      assert q in Elements(left) + Elements(right);
    }
  }

  // ----- restricting roots -----

  /** The smaller of two comparable roots, or nothing if their trees are disjoint. */
  function Meet(base: Path, desired: Path): set<Path> {
    if base <= desired then {desired} else if desired <= base then {base} else {}
  }

  function Overlaps(bases: set<Path>, desired: set<Path>): set<Path> {
    set b, d, p | b in bases && d in desired && p in Meet(b, d) :: p
  }

  /** What `RestrictPathRoots` returns. */
  function Restricted(base: seq<Path>, desired: seq<Path>): seq<Path> {
    PathOrder();
    if desired == [] then []
    else if base == [] then Listing(PathLess, Elements(desired))
    else Listing(PathLess, Overlaps(Elements(base), Elements(desired)))
  }

  /** One turn of the outer loop: a base root against every desired root. */
  method OverlapsOf(base: Path, desired: seq<Path>) returns (overlap: set<Path>)
    ensures overlap == Overlaps({base}, Elements(desired))
  {
    overlap := {};
    for j := 0 to |desired|
      invariant overlap == Overlaps({base}, Elements(desired[..j]))
    {
      assert Elements(desired[..j + 1]) == Elements(desired[..j]) + {desired[j]};
      OverlapsGrow(base, Elements(desired[..j]), desired[j]);
      if base <= desired[j] {
        overlap := overlap + {desired[j]};
      } else if desired[j] <= base {
        overlap := overlap + {base};
      }
    }
    assert desired[..|desired|] == desired;
  }

  method RestrictPathRoots(base: seq<Path>, desired: seq<Path>) returns (r: seq<Path>)
    ensures r == Restricted(base, desired)
  {
    PathOrder();
    if |desired| == 0 {
      return [];
    }
    if |base| == 0 {
      r := UnionPaths([], desired);
      assert Elements([]) + Elements(desired) == Elements(desired);
      return;
    }
    var overlap: set<Path> := {};
    for i := 0 to |base|
      invariant overlap == Overlaps(Elements(base[..i]), Elements(desired))
    {
      var row := OverlapsOf(base[i], desired);
      assert Elements(base[..i + 1]) == Elements(base[..i]) + {base[i]};
      OverlapsSplit(Elements(base[..i]), {base[i]}, Elements(desired));
      overlap := overlap + row;
    }
    assert base[..|base|] == base;
    r := Listing(PathLess, overlap);
  }

  lemma OverlapsGrow(base: Path, desired: set<Path>, d: Path)
    ensures Overlaps({base}, desired + {d}) == Overlaps({base}, desired) + Meet(base, d)
  {
    forall p ensures p in Overlaps({base}, desired + {d}) <==> p in Overlaps({base}, desired) + Meet(base, d) {
      if p in Overlaps({base}, desired + {d}) {
        var b, c :| b in {base} && c in desired + {d} && p in Meet(b, c);
        assert b == base;
      }
      if p in Meet(base, d) {
        assert base in {base} && d in desired + {d};
      }
    }
  }

  lemma OverlapsSplit(a: set<Path>, b: set<Path>, desired: set<Path>)
    ensures Overlaps(a + b, desired) == Overlaps(a, desired) + Overlaps(b, desired)
  {
  }

  /** Two trees meet in the tree of their meet. */
  lemma MeetMeans(b: Path, d: Path, p: Path)
    ensures (exists q :: q in Meet(b, d) && IsRootOf(q, p)) <==> IsRootOf(b, p) && IsRootOf(d, p)
  {
    if b <= p && d <= p {
      if |b| <= |d| {
        assert b == p[..|b|] == d[..|b|];
        assert d in Meet(b, d) && IsRootOf(d, p);
      } else {
        assert d == p[..|d|] == b[..|d|];
        assert b in Meet(b, d) && IsRootOf(b, p);
      }
    }
  }

  lemma OverlapsMean(base: seq<Path>, desired: seq<Path>, p: Path)
    ensures (exists q :: q in Overlaps(Elements(base), Elements(desired)) && IsRootOf(q, p))
            <==> Under(base, p) && Under(desired, p)
  {
    var all := Overlaps(Elements(base), Elements(desired));
    if q :| q in all && IsRootOf(q, p) {
      var b, d :| b in Elements(base) && d in Elements(desired) && q in Meet(b, d);
      MeetMeans(b, d, p);
    }
    if Under(base, p) && Under(desired, p) {
      var b :| b in base && IsRootOf(b, p);
      var d :| d in desired && IsRootOf(d, p);
      MeetMeans(b, d, p);
      var q :| q in Meet(b, d) && IsRootOf(q, p);
      assert b in Elements(base) && d in Elements(desired);
      assert q in all;
    }
  }

  lemma ListingMeans(roots: set<Path>, p: Path)
    requires StrictTotal(PathLess)
    ensures Under(Listing(PathLess, roots), p) <==> exists q :: q in roots && IsRootOf(q, p)
  {
  }

  /** The returned roots denote exactly what the base allows and a desired root covers. */
  lemma RestrictedIsIntersection(base: seq<Path>, desired: seq<Path>, p: Path)
    ensures Under(Restricted(base, desired), p) <==> Allows(base, p) && Under(desired, p)
  {
    PathOrder();
    if desired != [] && base != [] {
      OverlapsMean(base, desired, p);
      ListingMeans(Overlaps(Elements(base), Elements(desired)), p);
    } else if desired != [] {
      ListingMeans(Elements(desired), p);
      if Under(desired, p) {
        var q :| q in desired && IsRootOf(q, p);
        assert q in Elements(desired);
      }
    }
  }

  /** Order and repetition of the inputs do not matter, and the output has neither. */
  lemma RestrictedCanonical(base: seq<Path>, desired: seq<Path>, base': seq<Path>, desired': seq<Path>)
    requires Elements(base) == Elements(base') && Elements(desired) == Elements(desired')
    ensures Restricted(base, desired) == Restricted(base', desired')
    ensures Ascending(PathLess, Restricted(base, desired))
  {
    PathOrder();
    assert base == [] <==> base' == [] by {
      assert base != [] ==> base[0] in Elements(base);
      assert base' != [] ==> base'[0] in Elements(base');
    }
    assert desired == [] <==> desired' == [] by {
      assert desired != [] ==> desired[0] in Elements(desired);
      assert desired' != [] ==> desired'[0] in Elements(desired');
    }
  }

  /** Some tree of `base` and some tree of `desired` share a path, an empty base setting no limit. */
  ghost predicate Overlap(base: seq<Path>, desired: seq<Path>) {
    && desired != []
    && (base == [] || exists b, d :: b in base && d in desired && Comparable(b, d))
  }

  predicate Comparable(a: Path, b: Path) {
    a <= b || b <= a
  }

  lemma RestrictedLeaves(base: seq<Path>, desired: seq<Path>)
    ensures Restricted(base, desired) != [] <==> Overlap(base, desired)
  {
    PathOrder();
    if desired != [] && base != [] {
      var roots := Overlaps(Elements(base), Elements(desired));
      if b, d :| b in base && d in desired && Comparable(b, d) {
        assert b in Elements(base) && d in Elements(desired);
        var p := if b <= d then d else b;
        assert p in Meet(b, d);
        assert p in roots;
      }
      if roots != {} {
        var p :| p in roots;
        var b, d :| b in Elements(base) && d in Elements(desired) && p in Meet(b, d);
        assert Comparable(b, d);
      }
    } else if desired != [] {
      assert desired[0] in Elements(desired);
    }
  }

  /**
   Restricting twice intersects twice exactly if nothing is desired the second time, or the
   first restriction has an overlap: an empty list fed back as a base reads as no limit.
   */
  lemma RestrictTwice(base: seq<Path>, first: seq<Path>, second: seq<Path>)
    ensures (second == [] || Overlap(base, first)) <==>
            forall p :: Under(Restricted(Restricted(base, first), second), p)
                        <==> Allows(base, p) && Under(first, p) && Under(second, p)
  {
    var once := Restricted(base, first);
    RestrictedLeaves(base, first);
    forall p ensures Under(once, p) <==> Allows(base, p) && Under(first, p) {
      RestrictedIsIntersection(base, first, p);
    }
    forall p ensures Under(Restricted(once, second), p) <==> Allows(once, p) && Under(second, p) {
      RestrictedIsIntersection(once, second, p);
    }
    if once == [] && second != [] {
      var p := second[0];
      assert IsRootOf(second[0], p) && second[0] in second;
      assert Under(second, p) && !Under(once, p);
    }
  }

  /** Disjoint trees restrict to nothing, and restricting that again lets everything desired through. */
  lemma RestrictTwiceFails()
    ensures var base, first, second := [["a"]], [["b"]], [["b"]];
            && Under(Restricted(Restricted(base, first), second), ["b"])
            && !Allows(base, ["b"])
  {
    var base, first, second := [["a"]], [["b"]], [["b"]];
    assert !Under(base, ["b"]) by {
      assert !(["a"] <= ["b"]) by { assert ["a"][0] != ["b"][0]; }
    }
    RestrictedLeaves(base, first);
    assert !Overlap(base, first) by {
      assert "a" != "b";
      assert !Comparable(["a"], ["b"]) by { assert ["a"][0] != ["b"][0]; }
    }
    RestrictedIsIntersection([], second, ["b"]);
    assert ["b"] in second && IsRootOf(["b"], ["b"]);
  }

  // ----- networks -----

  datatype Destination = Domain(name: string) | Cidr(block: string)

  /** Literal matching of a destination against a policy. */
  predicate Permits(n: Network, x: Destination) {
    match n
    case Off => false
    case Full => true
    case Allowlist(domains, cidrs) => if x.Domain? then x.name in domains else x.block in cidrs
  }

  function Keep(left: seq<string>, right: seq<string>): (r: seq<string>)
    ensures forall x :: x in r <==> x in left && x in right
  {
    if left == [] then []
    else
      var rest := Keep(left[1..], right);
      assert left == [left[0]] + left[1..];
      if left[0] in right then [left[0]] + rest else rest
  }

  function IntersectNetwork(left: Network, right: Network): Network {
    if left.Off? || right.Off? then Off
    else if left.Full? then right
    else if right.Full? then left
    else
      var domains, cidrs := Keep(left.domains, right.domains), Keep(left.cidrs, right.cidrs);
      if domains == [] && cidrs == [] then Off else Allowlist(domains, cidrs)
  }

  ghost predicate SameNetwork(a: Network, b: Network) {
    forall x :: Permits(a, x) <==> Permits(b, x)
  }

  /** Exactly what both sides permit; an emptied allowlist collapses to Off. */
  lemma NetworkIsMeet(left: Network, right: Network, x: Destination)
    ensures Permits(IntersectNetwork(left, right), x) <==> Permits(left, x) && Permits(right, x)
  {
    if left.Allowlist? && right.Allowlist? {
      var domains, cidrs := Keep(left.domains, right.domains), Keep(left.cidrs, right.cidrs);
      assert x.Domain? ==> (x.name in domains <==> x.name in left.domains && x.name in right.domains);
      assert x.Cidr? ==> (x.block in cidrs <==> x.block in left.cidrs && x.block in right.cidrs);
    }
  }

  lemma KeepOne(x: string, right: seq<string>)
    ensures Keep([x], right) == if x in right then [x] else []
  {
    assert [x][1..] == [];
  }

  /** Filtering goes through the list in order and keeps what it keeps where it is. */
  lemma {:induction false} KeepSplits(a: seq<string>, b: seq<string>, right: seq<string>)
    ensures Keep(a + b, right) == Keep(a, right) + Keep(b, right)
  {
    if a == [] {
      assert a + b == b;
    } else {
      KeepSplits(a[1..], b, right);
      assert (a + b)[1..] == a[1..] + b;
    }
  }

  /** Which kind of policy comes out, and with which entries. */
  lemma NetworkContents(left: Network, right: Network)
    ensures var r := IntersectNetwork(left, right);
            && (r.Full? <==> left.Full? && right.Full?)
            && (left.Full? ==> r == right) && (right.Full? ==> r == left)
            && (r.Allowlist? && left.Allowlist? && right.Allowlist? ==>
                  && (forall x :: x in r.domains <==> x in left.domains && x in right.domains)
                  && (forall x :: x in r.cidrs <==> x in left.cidrs && x in right.cidrs))
            && (left.Allowlist? && right.Allowlist? ==>
                  (r.Off? <==> (forall x :: x in left.domains ==> x !in right.domains)
                               && (forall x :: x in left.cidrs ==> x !in right.cidrs)))
  {
    if left.Allowlist? && right.Allowlist? {
      EmptyKeep(left.domains, right.domains);
      EmptyKeep(left.cidrs, right.cidrs);
    }
  }

  lemma EmptyKeep(left: seq<string>, right: seq<string>)
    ensures Keep(left, right) == [] <==> forall x :: x in left ==> x !in right
  {
    if Keep(left, right) != [] {
      assert Keep(left, right)[0] in Keep(left, right);
    } else {
      forall x | x in left ensures x !in right {
        assert x !in Keep(left, right);
      }
    }
  }

  lemma NetworkLaws(a: Network, b: Network, c: Network)
    ensures SameNetwork(IntersectNetwork(a, b), IntersectNetwork(b, a))
    ensures SameNetwork(IntersectNetwork(IntersectNetwork(a, b), c), IntersectNetwork(a, IntersectNetwork(b, c)))
    ensures SameNetwork(IntersectNetwork(a, a), a)
  {
    forall x
      ensures Permits(IntersectNetwork(a, b), x) <==> Permits(IntersectNetwork(b, a), x)
      ensures Permits(IntersectNetwork(IntersectNetwork(a, b), c), x)
              <==> Permits(IntersectNetwork(a, IntersectNetwork(b, c)), x)
      ensures Permits(IntersectNetwork(a, a), x) <==> Permits(a, x)
    {
      NetworkIsMeet(a, b, x);
      NetworkIsMeet(b, a, x);
      NetworkIsMeet(IntersectNetwork(a, b), c, x);
      NetworkIsMeet(b, c, x);
      NetworkIsMeet(a, IntersectNetwork(b, c), x);
      NetworkIsMeet(a, a, x);
    }
  }

  function HookToNetwork(h: HookNetwork): Network {
    match h
    case DenyAll => Off
    case AllowAll => Full
    case AllowDomains(domains) => Allowlist(domains, [])
  }

  // ----- the combined policy -----

  function StricterMode(left: Mode, right: Mode): Mode {
    if left.ReadOnly? || right.ReadOnly? then ReadOnly
    else if left.WorkspaceWrite? || right.WorkspaceWrite? then WorkspaceWrite
    else DangerFullAccess
  }

  function StricterHostEscape(left: HostEscape, right: HostEscape): HostEscape {
    if left.Deny? || right.Deny? then Deny else HostManaged
  }

  function ReadGrant(g: Grants): seq<Path> {
    UnionPaths(g.readRoots, UnionPaths(g.writeRoots, g.execRoots))
  }

  function ToolMode(base: Mode, writable: seq<Path>): (r: Mode)
    ensures NoLooser(r, base) && r != DangerFullAccess
    ensures r == ReadOnly <==> writable == [] || base == ReadOnly
  {
    StricterMode(base, if writable == [] then ReadOnly else WorkspaceWrite)
  }

  function PolicyForTool(base: Policy, plugin: Option<Plugin>): Policy {
    match plugin
    case None => base
    case Some(p) =>
      var fs := base.filesystem;
      var readable := UnionPaths([p.root], Restricted(fs.readable, ReadGrant(p.granted)));
      var executable := UnionPaths([p.root], Restricted(fs.executable, p.granted.execRoots));
      var writable := Restricted(fs.writable, p.granted.writeRoots);
      Policy(
        ToolMode(base.mode, writable),
        Filesystem(readable, writable, executable, fs.protectedPaths),
        IntersectNetwork(base.network, HookToNetwork(p.granted.network)),
        StricterHostEscape(base.hostEscape, Deny),
        base.failIfUnavailable)
  }

  lemma UnderRoot(root: Path, p: Path)
    ensures Under([root], p) <==> root <= p
  {
    assert root in [root];
    assert IsRootOf(root, p) == (root <= p);
  }

  /** Path by path: the plugin's own tree, and otherwise what base and grant both allow. */
  lemma PolicyIsIntersection(base: Policy, plugin: Plugin, p: Path)
    ensures var r := PolicyForTool(base, Some(plugin)).filesystem;
            var fs, g := base.filesystem, plugin.granted;
            && (Under(r.readable, p) <==>
                plugin.root <= p
                || (Allows(fs.readable, p)
                    && (Under(g.readRoots, p) || Under(g.writeRoots, p) || Under(g.execRoots, p))))
            && (Under(r.executable, p) <==> plugin.root <= p || (Allows(fs.executable, p) && Under(g.execRoots, p)))
            && (Under(r.writable, p) <==> Allows(fs.writable, p) && Under(g.writeRoots, p))
            && r.protectedPaths == fs.protectedPaths
  {
    var fs, g := base.filesystem, plugin.granted;
    UnderRoot(plugin.root, p);
    UnionMeans([plugin.root], Restricted(fs.readable, ReadGrant(g)), p);
    UnionMeans([plugin.root], Restricted(fs.executable, g.execRoots), p);
    UnionMeans(g.readRoots, UnionPaths(g.writeRoots, g.execRoots), p);
    UnionMeans(g.writeRoots, g.execRoots, p);
    RestrictedIsIntersection(fs.readable, ReadGrant(g), p);
    RestrictedIsIntersection(fs.executable, g.execRoots, p);
    RestrictedIsIntersection(fs.writable, g.writeRoots, p);
  }

  /** Mode and host escape only get stricter, and with no writable root left nothing is writable. */
  lemma PolicyIsNoLooser(base: Policy, plugin: Plugin)
    ensures NoLooser(PolicyForTool(base, Some(plugin)).mode, base.mode)
    ensures PolicyForTool(base, Some(plugin)).mode == ReadOnly
            <==> PolicyForTool(base, Some(plugin)).filesystem.writable == [] || base.mode == ReadOnly
    ensures PolicyForTool(base, Some(plugin)).mode != DangerFullAccess
    ensures PolicyForTool(base, Some(plugin)).hostEscape == Deny
  {
    var writable := PolicyForTool(base, Some(plugin)).filesystem.writable;
    assert PolicyForTool(base, Some(plugin)).mode == ToolMode(base.mode, writable);
  }

  /** What a plugin may reach, by its grant: nothing, all that the base permits, or of that the domains named. */
  lemma PolicyNetwork(base: Policy, plugin: Plugin, x: Destination)
    ensures var reaches := Permits(PolicyForTool(base, Some(plugin)).network, x);
            match plugin.granted.network
            case DenyAll => !reaches
            case AllowAll => reaches <==> Permits(base.network, x)
            case AllowDomains(ds) => reaches <==> Permits(base.network, x) && x.Domain? && x.name in ds
  {
    var granted := HookToNetwork(plugin.granted.network);
    assert PolicyForTool(base, Some(plugin)).network == IntersectNetwork(base.network, granted);
    NetworkIsMeet(base.network, granted, x);
  }

  /** Without a plugin the policy is the base; with one the rest of it is kept. */
  lemma PolicyKeeps(base: Policy, plugin: Option<Plugin>)
    ensures plugin.None? ==> PolicyForTool(base, plugin) == base
    ensures PolicyForTool(base, plugin).failIfUnavailable == base.failIfUnavailable
    ensures PolicyForTool(base, plugin).filesystem.protectedPaths == base.filesystem.protectedPaths
  {
  }

  /** The lists of a policy come without repetition and in order. */
  lemma PolicyListsAscend(base: Policy, plugin: Plugin)
    ensures var fs := PolicyForTool(base, Some(plugin)).filesystem;
            Ascending(PathLess, fs.readable) && Ascending(PathLess, fs.writable) && Ascending(PathLess, fs.executable)
  {
    RestrictedCanonical(base.filesystem.writable, plugin.granted.writeRoots,
                        base.filesystem.writable, plugin.granted.writeRoots);
  }

  /** What can be written can be read, if that holds of the base. */
  lemma WritableStaysReadable(base: Policy, plugin: Plugin, p: Path)
    requires Allows(base.filesystem.writable, p) ==> Allows(base.filesystem.readable, p)
    ensures var r := PolicyForTool(base, Some(plugin)).filesystem;
            Under(r.writable, p) ==> Under(r.readable, p)
  {
    PolicyIsIntersection(base, plugin, p);
  }
}
