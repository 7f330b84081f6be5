/**
 `find_candidates` and the root filter of scripts/disk_reclaim.py: which build directories a pass
 considers, each once and none inside another.
 */
module ReclaimCandidates {
  import opened Basics
  import opened Sorting
  import opened TreeWalk
  import ReclaimWalks

  predicate IsBuildName(name: string) {
    name == "build" || (|name| > 6 && name[..6] == "build-")
  }

  /** `build` itself, or anything that continues `build-`. */
  lemma BuildNamesAre(name: string)
    ensures IsBuildName(name) <==> name == "build" || exists rest :: rest != "" && name == "build-" + rest
  {
    if IsBuildName(name) && name != "build" { assert name == "build-" + name[6..]; }
  }

  /** The names `find_candidates` walks through. */
  function Through(maxdepth: nat): (Path, string) -> bool {
    (p: Path, name: string) => |p| < maxdepth && !IsBuildName(name)
  }

  /** A build-named directory within the bound, with no build-named directory above it. */
  ghost predicate IsCandidate(root: Tree, maxdepth: nat, p: Path) {
    && 0 < |p| <= maxdepth && IsBuildName(p[|p| - 1])
    && (forall i: nat | i < |p| - 1 :: !IsBuildName(p[i]))
    && exists n :: DirAt(root, p, n)
  }

  /** What one directory contributes. */
  function Hits(dir: Path, cs: seq<Tree>): seq<Path> {
    if cs == [] then []
    else
      var c := cs[|cs| - 1];
      Hits(dir, cs[..|cs| - 1]) + if c.isDir && IsBuildName(c.name) then [dir + [c.name]] else []
  }

  function HitsOf(maxdepth: nat, f: Frame): seq<Path> {
    if |f.path| < maxdepth then Hits(f.path, Children(f.node)) else []
  }

  function AllHits(maxdepth: nat, fs: seq<Frame>): seq<Path> {
    if fs == [] then [] else AllHits(maxdepth, fs[..|fs| - 1]) + HitsOf(maxdepth, fs[|fs| - 1])
  }

  // ------------------------------------------------------------------------- the stack loop

  method ScanDir(maxdepth: nat, f: Frame) returns (hits: seq<Path>, pushed: seq<Frame>)
    requires |f.path| < maxdepth
    ensures hits == HitsOf(maxdepth, f)
    ensures pushed == Pushed(ByNames(Through(maxdepth)), f, Children(f.node))
  {
    var cs := Children(f.node);
    hits, pushed := [], [];
    for i := 0 to |cs|
      invariant hits == Hits(f.path, cs[..i]) && pushed == Pushed(ByNames(Through(maxdepth)), f, cs[..i])
    {
      assert cs[..i + 1][..i] == cs[..i];
      if !cs[i].isDir { continue; }
      if IsBuildName(cs[i].name) {
        hits := hits + [f.path + [cs[i].name]];
        continue;
      }
      pushed := pushed + [Frame(cs[i], f.path + [cs[i].name])];
    }
    assert cs[..|cs|] == cs;
  }

  /** The loop over one root: exactly the candidates below it, each once. */
  method FindBelow(root: Tree, maxdepth: nat) returns (found: seq<Path>)
    ensures forall p :: p in found <==> IsCandidate(root, maxdepth, p)
    ensures UniqueNames(root) ==> forall i: nat, j: nat | i < j < |found| :: found[i] != found[j]
  {
    hide IsCandidate, HitsOf, AllHits, Pushed, Children, Order, Weight, UniqueNames;
    var stack := [Frame(root, [])];
    ghost var all := Order(ByNames(Through(maxdepth)), stack);
    ghost var done: seq<Frame> := [];
    found := [];
    NoHits(maxdepth);
    while stack != []
      invariant done + Order(ByNames(Through(maxdepth)), stack) == all
      invariant found == AllHits(maxdepth, done)
      decreases Weight(stack)
    {
      var rest, top := stack[..|stack| - 1], stack[|stack| - 1];
      Turn(ByNames(Through(maxdepth)), all, done, stack);
      OneMoreHit(maxdepth, done, top);
      if |top.path| >= maxdepth {
        TooDeep(maxdepth, top);
        assert rest + [] == rest && found + [] == found;
        stack := rest;
      } else {
        var hits, pushed := ScanDir(maxdepth, top);
        found, stack := found + hits, rest + pushed;
      }
      done := done + [top];
    }
    WalkIsOver(ByNames(Through(maxdepth)), all, done);
    forall p ensures p in found <==> IsCandidate(root, maxdepth, p) { HitsAreCandidates(root, maxdepth, p); }
    if UniqueNames(root) { HitsAreDistinct(root, maxdepth); }
  }

  lemma NoHits(maxdepth: nat)
    ensures AllHits(maxdepth, []) == []
  {
  }

  lemma OneMoreHit(maxdepth: nat, done: seq<Frame>, f: Frame)
    ensures AllHits(maxdepth, done + [f]) == AllHits(maxdepth, done) + HitsOf(maxdepth, f)
  {
    assert (done + [f])[..|done|] == done;
  }

  lemma TooDeep(maxdepth: nat, f: Frame)
    requires |f.path| >= maxdepth
    ensures HitsOf(maxdepth, f) == [] && Pushed(ByNames(Through(maxdepth)), f, Children(f.node)) == []
  {
    TooDeepFor(maxdepth, f, Children(f.node));
  }

  lemma {:induction false} TooDeepFor(maxdepth: nat, f: Frame, cs: seq<Tree>)
    requires |f.path| >= maxdepth
    ensures Pushed(ByNames(Through(maxdepth)), f, cs) == []
  {
    if cs != [] { TooDeepFor(maxdepth, f, cs[..|cs| - 1]); }
  }

  // ------------------------------------------------------------------------- what it found

  predicate HasBuild(cs: seq<Tree>, name: string) {
    IsBuildName(name) && exists i: nat :: i < |cs| && cs[i].isDir && cs[i].name == name
  }

  lemma {:induction false} HitsMembers(dir: Path, cs: seq<Tree>, p: Path)
    ensures p in Hits(dir, cs) <==> p != [] && p[..|p| - 1] == dir && HasBuild(cs, p[|p| - 1])
  {
    if cs != [] {
      var n := |cs| - 1;
      HitsMembers(dir, cs[..n], p);
      if p != [] && p[..|p| - 1] == dir {
        assert p == dir + [p[|p| - 1]];
        assert forall i: nat | i < n :: cs[..n][i] == cs[i];
        assert HasBuild(cs, p[|p| - 1]) <==>
          HasBuild(cs[..n], p[|p| - 1]) || (cs[n].isDir && cs[n].name == p[|p| - 1] && IsBuildName(p[|p| - 1]));
      } else {
        var q := dir + [cs[n].name];
        assert q[..|q| - 1] == dir;
      }
    }
  }

  lemma {:induction false} AllHitsMembers(maxdepth: nat, fs: seq<Frame>, p: Path)
    ensures p in AllHits(maxdepth, fs) <==> exists f :: f in fs && p in HitsOf(maxdepth, f)
  {
    hide HitsOf;
    if fs != [] {
      var n := |fs| - 1;
      AllHitsMembers(maxdepth, fs[..n], p);
      assert fs == fs[..n] + [fs[n]];
    }
  }

  lemma {:induction false} DirAtSplit(t: Tree, dir: Path, name: string, n: Tree) returns (m: Tree, k: nat)
    requires DirAt(t, dir + [name], n)
    ensures DirAt(t, dir, m) && k < |Children(m)| && Children(m)[k].isDir && Children(m)[k].name == name
    decreases t
  {
    var p := dir + [name];
    var i: nat :| i < |t.list.children| && t.list.children[i].isDir && t.list.children[i].name == p[0]
                  && DirAt(t.list.children[i], p[1..], n);
    if dir == [] {
      m, k := t, i;
    } else {
      assert p[1..] == dir[1..] + [name] && p[0] == dir[0];
      m, k := DirAtSplit(t.list.children[i], dir[1..], name, n);
      assert DirAt(t, dir, m);
    }
  }

  lemma {:induction false} DirAtJoin(t: Tree, dir: Path, m: Tree, k: nat)
    requires DirAt(t, dir, m) && k < |Children(m)| && Children(m)[k].isDir
    ensures DirAt(t, dir + [Children(m)[k].name], Children(m)[k])
    decreases t
  {
    var p, c := dir + [Children(m)[k].name], Children(m)[k];
    if dir == [] {
      assert p[1..] == [] && DirAt(c, [], c);
      assert DirAt(t, p, c);
    } else {
      assert p[1..] == dir[1..] + [c.name] && p[0] == dir[0];
      var i: nat :| i < |t.list.children| && t.list.children[i].isDir && t.list.children[i].name == dir[0]
                    && DirAt(t.list.children[i], dir[1..], m);
      DirAtJoin(t.list.children[i], dir[1..], m, k);
      assert DirAt(t, p, c);
    }
  }

  lemma PathOk(maxdepth: nat, p: Path)
    ensures AllOk(Through(maxdepth), [], p) <==> |p| <= maxdepth && forall i: nat | i < |p| :: !IsBuildName(p[i])
  {
    assert forall i: nat | i < |p| :: |[] + p[..i]| == i;
    if |p| > maxdepth { assert !Through(maxdepth)([] + p[..maxdepth], p[maxdepth]); }
    if AllOk(Through(maxdepth), [], p) {
      forall i: nat | i < |p| ensures !IsBuildName(p[i]) { assert Through(maxdepth)([] + p[..i], p[i]); }
    }
  }

  lemma HitsAreCandidates(root: Tree, maxdepth: nat, p: Path)
    ensures p in AllHits(maxdepth, Order(ByNames(Through(maxdepth)), [Frame(root, [])])) <==> IsCandidate(root, maxdepth, p)
  {
    hide Order, Hits, AllHits, DirAt;
    var all := Order(ByNames(Through(maxdepth)), [Frame(root, [])]);
    AllHitsMembers(maxdepth, all, p);
    if p != [] {
      var dir, name := p[..|p| - 1], p[|p| - 1];
      assert p == dir + [name];
      PathOk(maxdepth, dir);
      if f :| f in all && p in HitsOf(maxdepth, f) {
        HitsMembers(f.path, Children(f.node), p);
        ReclaimWalks.Visits(Through(maxdepth), root, f);
        var k: nat :| k < |Children(f.node)| && Children(f.node)[k].isDir && Children(f.node)[k].name == name;
        DirAtJoin(root, dir, f.node, k);
      }
      if IsCandidate(root, maxdepth, p) {
        var n :| DirAt(root, p, n);
        var m, k := DirAtSplit(root, dir, name, n);
        HitsMembers(dir, Children(m), p);
        ReclaimWalks.Visits(Through(maxdepth), root, Frame(m, dir));
        assert p in HitsOf(maxdepth, Frame(m, dir));
      }
    } else {
      forall f | f in all ensures p !in HitsOf(maxdepth, f) { HitsMembers(f.path, Children(f.node), p); }
    }
  }

  lemma DistinctConcat(a: seq<Path>, b: seq<Path>)
    requires Distinct(a) && Distinct(b) && forall p | p in a :: p !in b
    ensures Distinct(a + b)
  {
    assert forall i: nat | i < |a| :: a[i] in a;
    assert forall i: nat | i < |b| :: b[i] in b;
  }

  lemma {:induction false} HitsDistinct(dir: Path, cs: seq<Tree>)
    requires forall i: nat, j: nat | i < j < |cs| :: cs[i].name != cs[j].name
    ensures Distinct(Hits(dir, cs))
  {
    if cs != [] {
      var n := |cs| - 1;
      HitsDistinct(dir, cs[..n]);
      var last := dir + [cs[n].name];
      HitsMembers(dir, cs[..n], last);
      DistinctConcat(Hits(dir, cs[..n]), if cs[n].isDir && IsBuildName(cs[n].name) then [last] else []);
    }
  }

  lemma {:induction false} BelowUnique(rule: Rule, f: Frame, g: Frame)
    requires UniqueNames(f.node) && Below(rule, f, g)
    ensures UniqueNames(g.node)
    decreases f.node
  {
    if g != f {
      var i: nat :| i < |f.node.list.children| && rule(f, f.node.list.children[i])
                    && Below(rule, Frame(f.node.list.children[i], f.path + [f.node.list.children[i].name]), g);
      BelowUnique(rule, Frame(f.node.list.children[i], f.path + [f.node.list.children[i].name]), g);
    }
  }

  lemma {:induction false} AllHitsDistinct(maxdepth: nat, fs: seq<Frame>)
    requires DistinctPaths(fs) && forall f | f in fs :: UniqueNames(f.node)
    ensures Distinct(AllHits(maxdepth, fs))
  {
    if fs != [] {
      var n := |fs| - 1;
      assert fs[n] in fs;
      AllHitsDistinct(maxdepth, fs[..n]);
      HitsDistinct(fs[n].path, Children(fs[n].node));
      forall p | p in AllHits(maxdepth, fs[..n]) ensures p !in HitsOf(maxdepth, fs[n]) {
        AllHitsMembers(maxdepth, fs[..n], p);
        var f :| f in fs[..n] && p in HitsOf(maxdepth, f);
        HitsMembers(f.path, Children(f.node), p);
        HitsMembers(fs[n].path, Children(fs[n].node), p);
      }
      DistinctConcat(AllHits(maxdepth, fs[..n]), HitsOf(maxdepth, fs[n]));
    }
  }

  lemma HitsAreDistinct(root: Tree, maxdepth: nat)
    requires UniqueNames(root)
    ensures Distinct(AllHits(maxdepth, Order(ByNames(Through(maxdepth)), [Frame(root, [])])))
  {
    hide Order, AllHits;
    var rule, start := ByNames(Through(maxdepth)), Frame(root, []);
    EachOnce(rule, [start]);
    forall f | f in Order(rule, [start]) ensures UniqueNames(f.node) {
      VisitsBelow(rule, [start], f);
      BelowUnique(rule, start, f);
    }
    AllHitsDistinct(maxdepth, Order(rule, [start]));
  }

  // ------------------------------------------------------------------------------ many roots

  datatype Root = Root(path: Path, tree: Tree)

  /** The full path p is a candidate below root r. */
  ghost predicate CandidateOf(r: Root, maxdepth: nat, p: Path) {
    r.tree.isDir && Extends(p, r.path) && IsCandidate(r.tree, maxdepth, p[|r.path|..])
  }

  function Prefixed(base: Path, ps: seq<Path>): (qs: seq<Path>)
    ensures |qs| == |ps| && forall i: nat | i < |ps| :: qs[i] == base + ps[i]
  {
    seq(|ps|, i requires 0 <= i < |ps| => base + ps[i])
  }

  lemma PrefixedMembers(base: Path, ps: seq<Path>, p: Path)
    ensures p in Prefixed(base, ps) <==> Extends(p, base) && p[|base|..] in ps
  {
    var qs := Prefixed(base, ps);
    if p in qs {
      var i: nat :| i < |qs| && qs[i] == p;
      assert p[|base|..] == ps[i];
    }
    if Extends(p, base) && p[|base|..] in ps {
      var i: nat :| i < |ps| && ps[i] == p[|base|..];
      assert p == base + p[|base|..] && qs[i] == p;
    }
  }

  /** No root lies at or below another, and no directory repeats a name. */
  ghost predicate Apart(roots: seq<Root>) {
    && (forall i: nat, j: nat | i < j < |roots| :: Incomparable(roots[i].path, roots[j].path))
    && (forall i: nat | i < |roots| :: UniqueNames(roots[i].tree))
  }

  ghost predicate SomeCandidate(roots: seq<Root>, maxdepth: nat, p: Path) {
    exists r :: r in roots && CandidateOf(r, maxdepth, p)
  }

  lemma PrefixedDistinct(base: Path, ps: seq<Path>)
    requires Distinct(ps)
    ensures Distinct(Prefixed(base, ps))
  {
    var qs := Prefixed(base, ps);
    forall i: nat, j: nat | i < j < |qs| ensures qs[i] != qs[j] {
      assert qs[i][|base|..] == ps[i] && qs[j][|base|..] == ps[j];
    }
  }

  lemma OneRoot(roots: seq<Root>, i: nat, found: seq<Path>, below: seq<Path>, maxdepth: nat)
    requires i < |roots| && roots[i].tree.isDir
    requires forall p :: p in found <==> SomeCandidate(roots[..i], maxdepth, p)
    requires forall p :: p in below <==> IsCandidate(roots[i].tree, maxdepth, p)
    ensures forall p :: p in found + Prefixed(roots[i].path, below) <==> SomeCandidate(roots[..i + 1], maxdepth, p)
    ensures Apart(roots) && Distinct(found) && Distinct(below) ==> Distinct(found + Prefixed(roots[i].path, below))
  {
    hide IsCandidate;
    var mine := Prefixed(roots[i].path, below);
    assert roots[..i + 1] == roots[..i] + [roots[i]];
    forall p ensures p in mine <==> CandidateOf(roots[i], maxdepth, p) { PrefixedMembers(roots[i].path, below, p); }
    if Apart(roots) && Distinct(found) && Distinct(below) {
      PrefixedDistinct(roots[i].path, below);
      forall p | p in found ensures p !in mine {
        var r :| r in roots[..i] && CandidateOf(r, maxdepth, p);
        var k: nat :| k < i && roots[..i][k] == r;
        if p in mine { OneHome(roots[k].path, roots[i].path, p); }
      }
      DistinctConcat(found, mine);
    }
  }

  lemma OneHome(a: Path, b: Path, p: Path)
    requires Extends(p, a) && Extends(p, b)
    ensures !Incomparable(a, b)
  {
    if |a| <= |b| { assert b[..|a|] == p[..|b|][..|a|]; } else { assert a[..|b|] == p[..|a|][..|b|]; }
  }

  /** `find_candidates`: exactly the candidates of all roots that are directories, sorted; each once when the roots are apart. */
  method FindCandidates(roots: seq<Root>, maxdepth: nat) returns (sorted: seq<Path>)
    ensures forall p :: p in sorted <==> SomeCandidate(roots, maxdepth, p)
    ensures SortedBy(PathLe, sorted)
    ensures Apart(roots) ==> Distinct(sorted)
  {
    hide SomeCandidate, IsCandidate, UniqueNames, PathLe, Incomparable;
    var found: seq<Path> := [];
    NoRoots(maxdepth);
    for i := 0 to |roots|
      invariant forall p :: p in found <==> SomeCandidate(roots[..i], maxdepth, p)
      invariant Apart(roots) ==> Distinct(found)
    {
      if !roots[i].tree.isDir {
        NotADirectory(roots, i, maxdepth);
        continue;
      }
      var below := FindBelow(roots[i].tree, maxdepth);
      OneRoot(roots, i, found, below, maxdepth);
      found := found + Prefixed(roots[i].path, below);
    }
    assert roots[..|roots|] == roots;
    PathOrder();
    SortSorts(PathLe, found);
    sorted := Sort(PathLe, found);
    forall p ensures p in sorted <==> p in found { SortMembers(PathLe, found, p); }
    if Distinct(found) { DistinctSorted(found, sorted); }
  }

  lemma NoRoots(maxdepth: nat)
    ensures forall p :: !SomeCandidate([], maxdepth, p)
  {
  }

  lemma NotADirectory(roots: seq<Root>, i: nat, maxdepth: nat)
    requires i < |roots| && !roots[i].tree.isDir
    ensures forall p :: SomeCandidate(roots[..i + 1], maxdepth, p) <==> SomeCandidate(roots[..i], maxdepth, p)
  {
    assert roots[..i + 1] == roots[..i] + [roots[i]];
    forall p ensures SomeCandidate(roots[..i + 1], maxdepth, p) <==> SomeCandidate(roots[..i], maxdepth, p) { }
  }

  lemma {:induction false} CountsOnce(ps: seq<Path>, p: Path)
    requires Distinct(ps)
    ensures multiset(ps)[p] <= 1
  {
    if ps != [] {
      assert ps == ps[..|ps| - 1] + [ps[|ps| - 1]];
      CountsOnce(ps[..|ps| - 1], p);
    }
  }

  lemma DistinctSorted(a: seq<Path>, b: seq<Path>)
    requires Distinct(a) && multiset(a) == multiset(b)
    ensures Distinct(b)
  {
    forall i: nat, j: nat | i < j < |b| ensures b[i] != b[j] {
      CountsOnce(a, b[i]);
      assert b == b[..i] + [b[i]] + b[i + 1..j] + [b[j]] + b[j + 1..];
    }
  }

  /** Candidates of roots that are apart never lie inside one another. */
  lemma CandidatesAreApart(roots: seq<Root>, maxdepth: nat, p: Path, q: Path)
    requires Apart(roots) && SomeCandidate(roots, maxdepth, p) && SomeCandidate(roots, maxdepth, q) && p != q
    ensures Incomparable(p, q)
  {
    if Extends(p, q) { NotInside(roots, maxdepth, q, p); }
    if Extends(q, p) { NotInside(roots, maxdepth, p, q); }
  }

  lemma NotInside(roots: seq<Root>, maxdepth: nat, outer: Path, inner: Path)
    requires Apart(roots) && SomeCandidate(roots, maxdepth, outer) && SomeCandidate(roots, maxdepth, inner)
    requires Extends(inner, outer)
    ensures inner == outer
  {
    hide IsCandidate, UniqueNames;
    var r :| r in roots && CandidateOf(r, maxdepth, outer);
    var s :| s in roots && CandidateOf(s, maxdepth, inner);
    assert inner[..|r.path|] == outer[..|r.path|];
    OneHome(r.path, s.path, inner);
    var i: nat :| i < |roots| && roots[i] == r;
    var j: nat :| j < |roots| && roots[j] == s;
    assert i == j;
    var a, b := outer[|r.path|..], inner[|r.path|..];
    assert Extends(b, a) by { assert forall k: nat | k < |a| :: b[k] == inner[|r.path| + k] == inner[..|outer|][|r.path| + k]; }
    SameDepth(r.tree, maxdepth, a, b);
    assert inner[..|outer|] == inner;
  }

  lemma SameDepth(t: Tree, maxdepth: nat, a: Path, b: Path)
    requires IsCandidate(t, maxdepth, a) && IsCandidate(t, maxdepth, b) && Extends(b, a)
    ensures |a| == |b|
  {
    assert b[|a| - 1] == b[..|a|][|a| - 1];
  }

  // ------------------------------------------------------------------------ discovering roots

  predicate IsInner(found: seq<Path>, p: Path) { exists q :: q in found && q != p && Extends(p, q) }

  /** The last statement of `discover_roots`: drop every root inside another. */
  function Outermost(found: seq<Path>, ps: seq<Path>): (kept: seq<Path>)
    ensures forall p :: p in kept <==> p in ps && !IsInner(found, p)
  {
    if ps == [] then []
    else
      var last := ps[|ps| - 1];
      Outermost(found, ps[..|ps| - 1]) + if IsInner(found, last) then [] else [last]
  }

  lemma {:induction false} OutermostDistinct(found: seq<Path>, ps: seq<Path>)
    requires Distinct(ps)
    ensures Distinct(Outermost(found, ps))
  {
    if ps != [] {
      var n := |ps| - 1;
      OutermostDistinct(found, ps[..n]);
      DistinctConcat(Outermost(found, ps[..n]), if IsInner(found, ps[n]) then [] else [ps[n]]);
    }
  }

  /** Discovered roots never nest. */
  lemma RootsDoNotNest(found: seq<Path>, i: nat, j: nat)
    requires Distinct(found) && i < j < |Outermost(found, found)|
    ensures Incomparable(Outermost(found, found)[i], Outermost(found, found)[j])
  {
    var kept := Outermost(found, found);
    OutermostDistinct(found, found);
    assert kept[i] in kept && kept[j] in kept;
  }

  /** Nothing is lost: every root found lies at or below a kept one. */
  lemma {:induction false} EveryRootIsCovered(found: seq<Path>, p: Path) returns (q: Path)
    requires p in found
    ensures q in Outermost(found, found) && Extends(p, q)
    decreases |p|
  {
    if IsInner(found, p) {
      var r :| r in found && r != p && Extends(p, r);
      q := EveryRootIsCovered(found, r);
      assert p[..|q|] == r[..|q|];
    } else {
      q := p;
    }
  }
}
