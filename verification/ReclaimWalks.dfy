/**
 The walks that decide about a build tree in scripts/disk_reclaim.py: is a checkout hidden below it,
 and when was it last written.
 */
module ReclaimWalks {
  import opened Basics
  import opened TreeWalk

  const SOURCE_MARKERS: set<string> := {".git", "CMakeLists.txt", "Cargo.toml", "package.json"}
  const GENERATED_SCRATCH_DIRS: set<string> := {"test-tmp"}

  const NESTED_SOURCE_MAXDEPTH: nat := 4
  const SCAN_MAXDEPTH: nat := 2
  const RECHECK_MAXDEPTH: nat := 4

  /** Everything a stack that starts at `root` visits, by path. */
  lemma Visits(ok: (Path, string) -> bool, root: Tree, f: Frame)
    ensures f in Order(ByNames(ok), [Frame(root, [])]) <==> DirAt(root, f.path, f.node) && AllOk(ok, [], f.path)
  {
    var start := Frame(root, []);
    VisitsBelow(ByNames(ok), [start], f);
    assert [] + f.path == f.path;
    BelowIsDirAt(ok, start, f.node, f.path);
    assert start in [start];
  }

  // ----------------------------------------------------------------------- a checkout inside

  datatype Nested = Clear | Marker(at: Path) | Unknown

  predicate IsScratch(dir: Path) { dir != [] && dir[0] in GENERATED_SCRATCH_DIRS }

  /** An entry called `name` in directory `dir` marks a checkout. */
  predicate IsMarker(dir: Path, name: string) {
    dir != [] && name in SOURCE_MARKERS && (!IsScratch(dir) || name == ".git")
  }

  ghost predicate RefusedAt(root: Tree, maxdepth: nat, p: Path) {
    |p| < maxdepth && exists n :: DirAt(root, p, n) && n.list.Unlistable?
  }

  ghost predicate MarkerAt(root: Tree, maxdepth: nat, dir: Path, name: string) {
    |dir| < maxdepth && IsMarker(dir, name) && exists n :: DirAt(root, dir, n) && HasChild(n, name)
  }

  predicate HasChild(n: Tree, name: string) { exists c :: c in Children(n) && c.name == name }

  /** Nothing in this frame ends the walk. */
  ghost predicate Quiet(maxdepth: nat, f: Frame) {
    |f.path| < maxdepth ==> !f.node.list.Unlistable? && forall c | c in Children(f.node) :: !IsMarker(f.path, c.name)
  }

  function Shallow(maxdepth: nat): (Path, string) -> bool { (p: Path, name: string) => |p| < maxdepth }

  lemma VisitsShallow(root: Tree, maxdepth: nat, f: Frame)
    ensures f in Order(ByNames(Shallow(maxdepth)), [Frame(root, [])])
       <==> DirAt(root, f.path, f.node) && |f.path| <= maxdepth
  {
    Visits(Shallow(maxdepth), root, f);
    var p := f.path;
    if |p| > maxdepth { assert |([] + p[..maxdepth])| == maxdepth; }
    if |p| <= maxdepth {
      forall i: nat | i < |p| ensures Shallow(maxdepth)([] + p[..i], p[i]) { assert |[] + p[..i]| == i; }
    }
  }

  /** All frames quiet is nothing refused and no marker, for every path within the bound. */
  lemma QuietMeansClear(root: Tree, maxdepth: nat)
    ensures (forall f | f in Order(ByNames(Shallow(maxdepth)), [Frame(root, [])]) :: Quiet(maxdepth, f))
       <==> (forall p :: !RefusedAt(root, maxdepth, p)) && (forall dir, name :: !MarkerAt(root, maxdepth, dir, name))
  {
    var order := Order(ByNames(Shallow(maxdepth)), [Frame(root, [])]);
    if forall f | f in order :: Quiet(maxdepth, f) {
      forall p ensures !RefusedAt(root, maxdepth, p) {
        if RefusedAt(root, maxdepth, p) {
          var n :| DirAt(root, p, n) && n.list.Unlistable?;
          VisitsShallow(root, maxdepth, Frame(n, p));
        }
      }
      forall dir, name ensures !MarkerAt(root, maxdepth, dir, name) {
        if MarkerAt(root, maxdepth, dir, name) {
          var n :| DirAt(root, dir, n) && HasChild(n, name);
          VisitsShallow(root, maxdepth, Frame(n, dir));
        }
      }
    }
    if f :| f in order && !Quiet(maxdepth, f) {
      VisitsShallow(root, maxdepth, f);
      if f.node.list.Unlistable? {
        assert RefusedAt(root, maxdepth, f.path);
      } else {
        var c :| c in Children(f.node) && IsMarker(f.path, c.name);
        assert HasChild(f.node, c.name);
        assert MarkerAt(root, maxdepth, f.path, c.name);
      }
    }
  }

  /** The entry loop of `nested_source_marker`: the first marker, or what to push. */
  method ScanEntries(maxdepth: nat, f: Frame) returns (hit: Option<string>, pushed: seq<Frame>)
    requires |f.path| < maxdepth
    ensures hit.Some? ==> HasChild(f.node, hit.value) && IsMarker(f.path, hit.value)
    ensures hit.None? ==> pushed == Pushed(ByNames(Shallow(maxdepth)), f, Children(f.node))
    ensures hit.None? ==> forall c | c in Children(f.node) :: !IsMarker(f.path, c.name)
  {
    var cs := Children(f.node);
    pushed := [];
    for i := 0 to |cs|
      invariant pushed == Pushed(ByNames(Shallow(maxdepth)), f, cs[..i])
      invariant forall c | c in cs[..i] :: !IsMarker(f.path, c.name)
    {
      assert cs[..i + 1] == cs[..i] + [cs[i]] && cs[..i + 1][..i] == cs[..i];
      assert cs[i] in cs;
      if f.path != [] && cs[i].name in SOURCE_MARKERS && (!IsScratch(f.path) || cs[i].name == ".git") {
        return Some(cs[i].name), [];
      }
      if cs[i].isDir { pushed := pushed + [Frame(cs[i], f.path + [cs[i].name])]; }
    }
    assert cs[..|cs|] == cs;
    hit := None;
  }

  /**
   `nested_source_marker`. Clear exactly when no directory within the bound is refused and no marker
   exists there; any other answer names a reason that exists.
   */
  method NestedSourceMarker(root: Tree, maxdepth: nat) returns (r: Nested)
    ensures r.Clear? <==> (forall p :: !RefusedAt(root, maxdepth, p)) && (forall dir, name :: !MarkerAt(root, maxdepth, dir, name))
    ensures r.Unknown? ==> exists p :: RefusedAt(root, maxdepth, p)
    ensures r.Marker? ==> r.at != [] && MarkerAt(root, maxdepth, r.at[..|r.at| - 1], r.at[|r.at| - 1])
  {
    hide RefusedAt, MarkerAt, Pushed, Children, IsMarker, Order, Weight, HasChild;
    var stack := [Frame(root, [])];
    ghost var all := Order(ByNames(Shallow(maxdepth)), stack);
    ghost var done: seq<Frame> := [];
    QuietMeansClear(root, maxdepth);
    while stack != []
      invariant done + Order(ByNames(Shallow(maxdepth)), stack) == all
      invariant forall f | f in done :: Quiet(maxdepth, f)
      decreases Weight(stack)
    {
      var rest, top := stack[..|stack| - 1], stack[|stack| - 1];
      Turn(ByNames(Shallow(maxdepth)), all, done, stack);
      VisitsShallow(root, maxdepth, top);
      if |top.path| >= maxdepth {
        NoPush(maxdepth, top);
        assert rest + [] == rest;
        stack := rest;
      } else if top.node.list.Unlistable? {
        NotRefused(root, maxdepth, top);
        return Unknown;
      } else {
        var hit, pushed := ScanEntries(maxdepth, top);
        if hit.Some? {
          MarkerFound(root, maxdepth, top, hit.value);
          var at := top.path + [hit.value];
          assert at[..|at| - 1] == top.path;
          return Marker(at);
        }
        stack := rest + pushed;
      }
      done := done + [top];
    }
    WalkIsOver(ByNames(Shallow(maxdepth)), all, done);
    r := Clear;
  }

  lemma NoPush(maxdepth: nat, f: Frame)
    requires |f.path| >= maxdepth
    ensures Pushed(ByNames(Shallow(maxdepth)), f, Children(f.node)) == []
  {
    NoneOk(maxdepth, f, Children(f.node));
  }

  lemma {:induction false} NoneOk(maxdepth: nat, f: Frame, cs: seq<Tree>)
    requires |f.path| >= maxdepth
    ensures Pushed(ByNames(Shallow(maxdepth)), f, cs) == []
  {
    if cs != [] { NoneOk(maxdepth, f, cs[..|cs| - 1]); }
  }

  lemma NotRefused(root: Tree, maxdepth: nat, f: Frame)
    requires DirAt(root, f.path, f.node) && |f.path| < maxdepth && f.node.list.Unlistable?
    ensures RefusedAt(root, maxdepth, f.path)
  {
  }

  lemma MarkerFound(root: Tree, maxdepth: nat, f: Frame, name: string)
    requires DirAt(root, f.path, f.node) && |f.path| < maxdepth && HasChild(f.node, name) && IsMarker(f.path, name)
    ensures MarkerAt(root, maxdepth, f.path, name)
  {
  }
}
