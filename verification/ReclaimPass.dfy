/** One pass of scripts/disk_reclaim.py: what it deletes, what it keeps, and the bytes it reports. */
module ReclaimPass {
  import opened Basics
  import opened TreeWalk
  import opened ReclaimWalks
  import opened ReclaimAge
  import opened ReclaimCandidates

  const GENERATED_MARKERS: set<string> := {"CMakeCache.txt", "build.ninja", "CMakeFiles"}

  const DAY: real := 86400.0

  /** The tree was last written at least `minAge` days before `now`, as far as a walk to `depth` can tell. */
  ghost predicate Idle(t: Tree, depth: nat, now: real, minAge: real) {
    exists m :: IsNewest(t, depth, Some(m)) && (now - m) / DAY >= minAge
  }

  /** The scan pass reads an age in the future as zero. */
  ghost predicate IdleAtScan(t: Tree, now: real, minAge: real) {
    exists m :: IsNewest(t, SCAN_MAXDEPTH, Some(m)) && MaxReal(0.0, (now - m) / DAY) >= minAge
  }

  ghost predicate NoCheckout(t: Tree) {
    && (forall p :: !RefusedAt(t, NESTED_SOURCE_MAXDEPTH, p))
    && (forall dir, name :: !MarkerAt(t, NESTED_SOURCE_MAXDEPTH, dir, name))
  }

  /** Positive proof that a candidate is an idle, generated tree nobody is using. `active` is None when the process scan failed. */
  ghost predicate Reclaimable(t: Tree, now: real, minAge: real, active: Option<bool>) {
    && (forall m | m in SOURCE_MARKERS :: !HasChild(t, m)) && (exists m :: m in GENERATED_MARKERS && HasChild(t, m))
    && NoCheckout(t) && active == Some(false) && IdleAtScan(t, now, minAge)
  }

  lemma NewestIsUnique(t: Tree, depth: nat, a: Option<real>, b: Option<real>)
    requires IsNewest(t, depth, a) && IsNewest(t, depth, b)
    ensures a == b
  {
    DeeperIsStricter(t, depth, depth, a, b);
    DeeperIsStricter(t, depth, depth, b, a);
  }

  /** `classify`: delete exactly on positive proof. */
  method Classify(t: Tree, now: real, minAge: real, active: Option<bool>) returns (delete: bool)
    ensures delete <==> Reclaimable(t, now, minAge, active)
  {
    hide IsNewest, RefusedAt, MarkerAt, HasChild;
    var measured := NewestMtime(t, SCAN_MAXDEPTH);
    forall m | IsNewest(t, SCAN_MAXDEPTH, m) ensures m == measured { NewestIsUnique(t, SCAN_MAXDEPTH, m, measured); }
    if measured.None? { return false; }
    var age := MaxReal(0.0, (now - measured.value) / DAY);
    if exists m :: m in SOURCE_MARKERS && HasChild(t, m) { return false; }
    if !exists m :: m in GENERATED_MARKERS && HasChild(t, m) { return false; }
    var nested := NestedSourceMarker(t, NESTED_SOURCE_MAXDEPTH);
    if !nested.Clear? { return false; }
    if active.None? || active.value { return false; }
    delete := age >= minAge;
  }

  /** The recheck is at least as strict as the scan on an unchanged tree at the same time. */
  lemma RecheckIsStricter(t: Tree, now: real, minAge: real, scan: Option<real>)
    requires IsNewest(t, SCAN_MAXDEPTH, scan) && Idle(t, RECHECK_MAXDEPTH, now, minAge)
    ensures IdleAtScan(t, now, minAge)
  {
    var m :| IsNewest(t, RECHECK_MAXDEPTH, Some(m)) && (now - m) / DAY >= minAge;
    DeeperIsStricter(t, SCAN_MAXDEPTH, RECHECK_MAXDEPTH, scan, Some(m));
    assert (now - scan.value) / DAY >= (now - m) / DAY;
  }

  // ------------------------------------------------------------------ the evidence, off the trees

  /** At every path down to the fourth level a directory can be listed, and below the top none holds a marker. */
  ghost predicate ClearBelow(t: Tree) {
    forall dir, n | |dir| < 4 && DirAt(t, dir, n) ::
      && !n.list.Unlistable?
      && (dir != [] ==> forall c | c in Children(n) ::
            c.name !in {".git", "CMakeLists.txt", "Cargo.toml", "package.json"} || (dir[0] == "test-tmp" && c.name != ".git"))
  }

  /** Nothing down to that depth is younger than `minAge` days, and nothing there refused to tell. */
  ghost predicate Untouched(t: Tree, depth: nat, now: real, minAge: real) {
    Measured(t, depth) && NothingSince(t, depth, now - minAge * 86400.0)
  }

  lemma NoCheckoutMeans(t: Tree)
    ensures NoCheckout(t) <==> ClearBelow(t)
  {
    if NoCheckout(t) {
      forall dir, n | |dir| < 4 && DirAt(t, dir, n)
        ensures !n.list.Unlistable?
        ensures dir != [] ==> forall c | c in Children(n) ::
            c.name !in {".git", "CMakeLists.txt", "Cargo.toml", "package.json"} || (dir[0] == "test-tmp" && c.name != ".git") {
        assert !RefusedAt(t, NESTED_SOURCE_MAXDEPTH, dir);
        forall c | c in Children(n) ensures !IsMarker(dir, c.name) {
          assert HasChild(n, c.name);
          assert !MarkerAt(t, NESTED_SOURCE_MAXDEPTH, dir, c.name);
        }
      }
    }
    if ClearBelow(t) {
      forall p ensures !RefusedAt(t, NESTED_SOURCE_MAXDEPTH, p) {}
      forall dir, name ensures !MarkerAt(t, NESTED_SOURCE_MAXDEPTH, dir, name) {}
    }
  }

  lemma IdleMeans(t: Tree, depth: nat, now: real, minAge: real)
    requires depth > 0
    ensures Idle(t, depth, now, minAge) <==> Untouched(t, depth, now, minAge)
  {
    hide IsNewest, Measured, NothingSince;
    NewestExists(t, depth);
    var r :| IsNewest(t, depth, r);
    NewestMeans(t, depth, r);
    forall m | IsNewest(t, depth, m) ensures m == r { NewestIsUnique(t, depth, m, r); }
  }

  lemma IdleAtScanMeans(t: Tree, now: real, minAge: real)
    ensures IdleAtScan(t, now, minAge) <==> Measured(t, 2) && (minAge <= 0.0 || Untouched(t, 2, now, minAge))
  {
    hide IsNewest, Measured, NothingSince;
    NewestExists(t, SCAN_MAXDEPTH);
    var r :| IsNewest(t, SCAN_MAXDEPTH, r);
    NewestMeans(t, SCAN_MAXDEPTH, r);
    forall m | IsNewest(t, SCAN_MAXDEPTH, m) ensures m == r { NewestIsUnique(t, SCAN_MAXDEPTH, m, r); }
    if r.Some? {
      var age := (now - r.value) / DAY;
      assert IdleAtScan(t, now, minAge) <==> MaxReal(0.0, age) >= minAge;
      assert age >= minAge <==> r.value <= now - minAge * 86400.0;
      assert NothingSince(t, SCAN_MAXDEPTH, now - minAge * 86400.0) <==> r.value <= now - minAge * 86400.0;
    }
  }

  // ------------------------------------------------------------------------------ the bytes

  datatype File = File(path: Path, bytes: nat)

  /** What `du` finds below a directory. */
  function BytesBelow(files: seq<File>, p: Path): nat {
    if files == [] then 0
    else BytesBelow(files[..|files| - 1], p) + if Extends(files[|files| - 1].path, p) then files[|files| - 1].bytes else 0
  }

  /** The bytes of all files below any of ps, each file once. */
  function BytesBelowAny(files: seq<File>, ps: seq<Path>): nat {
    if files == [] then 0
    else
      BytesBelowAny(files[..|files| - 1], ps)
      + if exists p :: p in ps && Extends(files[|files| - 1].path, p) then files[|files| - 1].bytes else 0
  }

  function SumOf(files: seq<File>, ps: seq<Path>): nat {
    if ps == [] then 0 else SumOf(files, ps[..|ps| - 1]) + BytesBelow(files, ps[|ps| - 1])
  }

  ghost predicate AllApart(ps: seq<Path>) { forall i: nat, j: nat | i < j < |ps| :: Incomparable(ps[i], ps[j]) }

  lemma {:induction false} OneMoreTree(files: seq<File>, ps: seq<Path>, p: Path)
    requires forall q | q in ps :: Incomparable(q, p)
    ensures BytesBelowAny(files, ps + [p]) == BytesBelowAny(files, ps) + BytesBelow(files, p)
  {
    if files != [] {
      var n := |files| - 1;
      OneMoreTree(files[..n], ps, p);
      var f := files[n].path;
      assert forall q :: q in ps + [p] <==> q in ps || q == p;
      forall q | q in ps && Extends(f, q) ensures !Extends(f, p) {
        if Extends(f, p) { OneHome(q, p, f); }
      }
      assert p in ps + [p];
    }
  }

  /** For trees that are apart the sum of their sizes counts every file once. */
  lemma {:induction false} SizesAreDisjoint(files: seq<File>, ps: seq<Path>)
    requires AllApart(ps)
    ensures SumOf(files, ps) == BytesBelowAny(files, ps)
  {
    if ps == [] {
      Nothing(files);
    } else {
      var n := |ps| - 1;
      SizesAreDisjoint(files, ps[..n]);
      forall q | q in ps[..n] ensures Incomparable(q, ps[n]) {
        var i: nat :| i < n && ps[..n][i] == q;
        assert Incomparable(ps[i], ps[n]);
      }
      OneMoreTree(files, ps[..n], ps[n]);
      assert ps == ps[..n] + [ps[n]];
    }
  }

  lemma {:induction false} Nothing(files: seq<File>)
    ensures BytesBelowAny(files, []) == 0
  {
    if files != [] { Nothing(files[..|files| - 1]); }
  }

  /** What `find_candidates` returns for roots that are apart is apart, so the pass counts every byte once. */
  lemma FoundAreApart(roots: seq<Root>, maxdepth: nat, found: seq<Path>)
    requires Apart(roots) && Distinct(found) && forall p | p in found :: SomeCandidate(roots, maxdepth, p)
    ensures AllApart(found)
  {
    hide SomeCandidate, Incomparable, Apart;
    forall i: nat, j: nat | i < j < |found| ensures Incomparable(found[i], found[j]) {
      assert found[i] in found && found[j] in found;
      CandidatesAreApart(roots, maxdepth, found[i], found[j]);
    }
  }

  // ------------------------------------------------------------------------------- the loop

  /**
   What the pass meets at each candidate: the tree when it is classified, and, right before the
   deletion, the tree and the clock again; and whether the removal succeeds.
   */
  datatype World = World(
    files: seq<File>, now: real, minAge: Path -> real, active: Option<Path -> bool>,
    scanned: Path -> Tree, rescanned: Path -> Tree, clock: Path -> real, removable: Path -> bool)

  ghost predicate Proven(w: World, p: Path) {
    Reclaimable(w.scanned(p), w.now, w.minAge(p), if w.active.None? then None else Some(w.active.value(p)))
  }

  /** What a deletion rests on: the proof at the scan and, when it is real, a second one right before it. */
  ghost predicate Doomed(w: World, fix: bool, p: Path) {
    && Proven(w, p)
    && (fix ==> Idle(w.rescanned(p), RECHECK_MAXDEPTH, w.clock(p), w.minAge(p)) && NoCheckout(w.rescanned(p)) && w.removable(p))
  }

  /** What a deletion rests on, read off the trees and the answers of the host. */
  lemma DoomedMeans(w: World, fix: bool, p: Path)
    ensures Doomed(w, fix, p) <==>
      && w.active.Some? && !w.active.value(p)
      && (exists c :: c in Children(w.scanned(p)) && c.name in {"CMakeCache.txt", "build.ninja", "CMakeFiles"})
      && (forall c | c in Children(w.scanned(p)) :: c.name !in {".git", "CMakeLists.txt", "Cargo.toml", "package.json"})
      && ClearBelow(w.scanned(p)) && Measured(w.scanned(p), 2)
      && (w.minAge(p) <= 0.0 || Untouched(w.scanned(p), 2, w.now, w.minAge(p)))
      && (fix ==> Untouched(w.rescanned(p), 4, w.clock(p), w.minAge(p)) && ClearBelow(w.rescanned(p)) && w.removable(p))
  {
    MarkersMean(w.scanned(p));
    NoCheckoutMeans(w.scanned(p));
    NoCheckoutMeans(w.rescanned(p));
    IdleAtScanMeans(w.scanned(p), w.now, w.minAge(p));
    IdleMeans(w.rescanned(p), RECHECK_MAXDEPTH, w.clock(p), w.minAge(p));
    hide NoCheckout, ClearBelow, Measured, Untouched, Idle, IdleAtScan, HasChild, Children;
  }

  lemma MarkersMean(t: Tree)
    ensures (forall m | m in SOURCE_MARKERS :: !HasChild(t, m))
       <==> (forall c | c in Children(t) :: c.name !in {".git", "CMakeLists.txt", "Cargo.toml", "package.json"})
    ensures (exists m :: m in GENERATED_MARKERS && HasChild(t, m))
       <==> (exists c :: c in Children(t) && c.name in {"CMakeCache.txt", "build.ninja", "CMakeFiles"})
  {
  }

  lemma DoomedMeansAll(w: World, fix: bool)
    ensures forall p :: Doomed(w, fix, p) <==>
      && w.active.Some? && !w.active.value(p)
      && (exists c :: c in Children(w.scanned(p)) && c.name in {"CMakeCache.txt", "build.ninja", "CMakeFiles"})
      && (forall c | c in Children(w.scanned(p)) :: c.name !in {".git", "CMakeLists.txt", "Cargo.toml", "package.json"})
      && ClearBelow(w.scanned(p)) && Measured(w.scanned(p), 2)
      && (w.minAge(p) <= 0.0 || Untouched(w.scanned(p), 2, w.now, w.minAge(p)))
      && (fix ==> Untouched(w.rescanned(p), 4, w.clock(p), w.minAge(p)) && ClearBelow(w.rescanned(p)) && w.removable(p))
  {
    hide Doomed, ClearBelow, Measured, Untouched, Children;
    forall p { DoomedMeans(w, fix, p); }
  }

  method Recheck(t: Tree, now: real, minAge: real) returns (ok: bool)
    ensures ok <==> Idle(t, RECHECK_MAXDEPTH, now, minAge) && NoCheckout(t)
  {
    hide IsNewest, RefusedAt, MarkerAt;
    var m := NewestMtime(t, RECHECK_MAXDEPTH);
    forall x | IsNewest(t, RECHECK_MAXDEPTH, x) ensures x == m { NewestIsUnique(t, RECHECK_MAXDEPTH, x, m); }
    if m.None? || (now - m.value) / DAY < minAge { return false; }
    var nested := NestedSourceMarker(t, NESTED_SOURCE_MAXDEPTH);
    ok := nested.Clear?;
  }

  /** What the loop does with one candidate. */
  method Judge(w: World, fix: bool, p: Path) returns (delete: bool)
    ensures delete <==> Doomed(w, fix, p)
  {
    hide Reclaimable, Idle, NoCheckout;
    delete := Classify(w.scanned(p), w.now, w.minAge(p), if w.active.None? then None else Some(w.active.value(p)));
    if delete && fix {
      delete := Recheck(w.rescanned(p), w.clock(p), w.minAge(p));
      delete := delete && w.removable(p);
    }
  }

  /** `part` is drawn from `whole` in order. */
  ghost predicate Drawn(part: seq<Path>, whole: seq<Path>, at: seq<nat>) {
    && |at| == |part| && (forall k: nat | k < |at| :: at[k] < |whole| && part[k] == whole[at[k]])
    && (forall j: nat, k: nat | j < k < |at| :: at[j] < at[k])
  }

  lemma DrawOne(part: seq<Path>, whole: seq<Path>, at: seq<nat>, p: Path)
    requires Drawn(part, whole, at)
    ensures Drawn(part, whole + [p], at) && Drawn(part + [p], whole + [p], at + [|whole|])
  {
  }

  lemma DrawnApart(part: seq<Path>, whole: seq<Path>, at: seq<nat>)
    requires Drawn(part, whole, at) && AllApart(whole)
    ensures AllApart(part)
  {
    hide Incomparable;
    forall j: nat, k: nat | j < k < |part| ensures Incomparable(part[j], part[k]) {
      assert Incomparable(whole[at[j]], whole[at[k]]);
    }
  }

  /** The loop of `_run`: the candidates split exactly into deleted and kept, and the sizes of the deleted add up. */
  method Reclaim(w: World, fix: bool, candidates: seq<Path>) returns (deleted: seq<Path>, kept: seq<Path>, reclaimed: nat)
    ensures multiset(deleted) + multiset(kept) == multiset(candidates)
    ensures forall p :: p in deleted ==> Doomed(w, fix, p)
    ensures forall p :: p in kept ==> !Doomed(w, fix, p)
    ensures reclaimed == SumOf(w.files, deleted)
    ensures AllApart(candidates) ==> AllApart(deleted) && reclaimed == BytesBelowAny(w.files, deleted)
  {
    hide Doomed, BytesBelow, BytesBelowAny, SumOf, Drawn, AllApart;
    deleted, kept, reclaimed := [], [], 0;
    ghost var at: seq<nat> := [];
    DrawNone(w.files);
    for i := 0 to |candidates|
      invariant multiset(deleted) + multiset(kept) == multiset(candidates[..i])
      invariant forall p :: p in deleted ==> Doomed(w, fix, p)
      invariant forall p :: p in kept ==> !Doomed(w, fix, p)
      invariant reclaimed == SumOf(w.files, deleted) && Drawn(deleted, candidates[..i], at)
    {
      var path := candidates[i];
      assert candidates[..i + 1] == candidates[..i] + [path];
      DrawOne(deleted, candidates[..i], at, path);
      var delete := Judge(w, fix, path);
      if !delete {
        kept := kept + [path];
        continue;
      }
      SumSnoc(w.files, deleted, path);
      reclaimed := reclaimed + BytesBelow(w.files, path);
      deleted, at := deleted + [path], at + [i];
    }
    assert candidates[..|candidates|] == candidates;
    DrawnBytes(w.files, deleted, candidates, at);
  }

  lemma DrawnBytes(files: seq<File>, part: seq<Path>, whole: seq<Path>, at: seq<nat>)
    requires Drawn(part, whole, at)
    ensures AllApart(whole) ==> AllApart(part) && SumOf(files, part) == BytesBelowAny(files, part)
  {
    hide Drawn, AllApart;
    if AllApart(whole) {
      DrawnApart(part, whole, at);
      SizesAreDisjoint(files, part);
    }
  }

  lemma SumSnoc(files: seq<File>, ps: seq<Path>, p: Path)
    ensures SumOf(files, ps + [p]) == SumOf(files, ps) + BytesBelow(files, p)
  {
    assert (ps + [p])[..|ps|] == ps;
  }

  lemma DrawNone(files: seq<File>)
    ensures Drawn([], [], []) && SumOf(files, []) == 0
  {
  }

  // ------------------------------------------------------------------------- the whole pass

  /** The scan roots `discover_roots` keeps, with the trees the scan finds there. */
  function Discovered(found: seq<Path>, treeAt: Path -> Tree): (roots: seq<Root>)
    ensures |roots| == |Outermost(found, found)|
    ensures forall i: nat | i < |roots| :: roots[i] == Root(Outermost(found, found)[i], treeAt(Outermost(found, found)[i]))
  {
    var kept := Outermost(found, found);
    seq(|kept|, i requires 0 <= i < |kept| => Root(kept[i], treeAt(kept[i])))
  }

  lemma DiscoveredAreApart(found: seq<Path>, treeAt: Path -> Tree)
    requires Distinct(found) && forall p | p in found :: UniqueNames(treeAt(p))
    ensures Apart(Discovered(found, treeAt))
  {
    hide Incomparable, UniqueNames, Outermost;
    var kept, roots := Outermost(found, found), Discovered(found, treeAt);
    forall i: nat, j: nat | i < j < |roots| ensures Incomparable(roots[i].path, roots[j].path) { RootsDoNotNest(found, i, j); }
    forall i: nat | i < |roots| ensures UniqueNames(roots[i].tree) { assert kept[i] in kept; }
  }

  lemma SplitMembers(deleted: seq<Path>, kept: seq<Path>, all: seq<Path>)
    requires multiset(deleted) + multiset(kept) == multiset(all)
    ensures forall p :: p in all <==> p in deleted || p in kept
  {
    forall p ensures p in all <==> p in deleted || p in kept {
      assert p in all <==> p in multiset(all);
      assert p in deleted <==> p in multiset(deleted);
      assert p in kept <==> p in multiset(kept);
    }
  }

  /**
   `_run` over discovered roots, from the roots found to the bytes reported: deleted is exactly every
   candidate there is proof for, no two deleted trees meet, and the report counts each byte once.
   */
  method RunPass(found: seq<Path>, treeAt: Path -> Tree, maxdepth: nat, w: World, fix: bool)
    returns (deleted: seq<Path>, kept: seq<Path>, reclaimed: nat)
    requires Distinct(found) && forall p | p in found :: UniqueNames(treeAt(p))
    ensures forall p :: p in deleted <==> SomeCandidate(Discovered(found, treeAt), maxdepth, p) && Doomed(w, fix, p)
    ensures forall p :: p in kept <==> SomeCandidate(Discovered(found, treeAt), maxdepth, p) && !Doomed(w, fix, p)
    ensures AllApart(deleted) && reclaimed == BytesBelowAny(w.files, deleted)
    ensures w.active.None? ==> deleted == []
    ensures forall p :: p in deleted <==>
      && SomeCandidate(Discovered(found, treeAt), maxdepth, p)
      && w.active.Some? && !w.active.value(p)
      && (exists c :: c in Children(w.scanned(p)) && c.name in {"CMakeCache.txt", "build.ninja", "CMakeFiles"})
      && (forall c | c in Children(w.scanned(p)) :: c.name !in {".git", "CMakeLists.txt", "Cargo.toml", "package.json"})
      && ClearBelow(w.scanned(p)) && Measured(w.scanned(p), 2)
      && (w.minAge(p) <= 0.0 || Untouched(w.scanned(p), 2, w.now, w.minAge(p)))
      && (fix ==> Untouched(w.rescanned(p), 4, w.clock(p), w.minAge(p)) && ClearBelow(w.rescanned(p)) && w.removable(p))
  {
    DoomedMeansAll(w, fix);
    hide ClearBelow, Untouched, Measured, Children;
    hide SomeCandidate, Doomed, BytesBelowAny, AllApart, Apart, Discovered, UniqueNames;
    DiscoveredAreApart(found, treeAt);
    var candidates := FindCandidates(Discovered(found, treeAt), maxdepth);
    FoundAreApart(Discovered(found, treeAt), maxdepth, candidates);
    deleted, kept, reclaimed := Reclaim(w, fix, candidates);
    SplitMembers(deleted, kept, candidates);
    assert deleted != [] ==> deleted[0] in deleted;
  }
}
