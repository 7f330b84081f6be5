/**
 The explicit-stack walks of scripts/disk_reclaim.py over a directory tree: which directories a
 stack visits, and that it visits each of them once.
 */
module TreeWalk {

  /** What the filesystem says: an answer, a refusal (the question stays open), or that it is gone. */
  datatype Listing = Listed(children: seq<Tree>) | Unlistable | Vanished

  datatype Stat = At(mtime: real) | Unreadable | Missing

  /** An entry of a directory. `isDir` does not follow links; the listing of a non-directory is not read. */
  datatype Tree = Tree(name: string, isDir: bool, stat: Stat, list: Listing)

  type Path = seq<string>

  /** A directory on the stack, and the way to it from where the walk began. */
  datatype Frame = Frame(node: Tree, path: Path)

  /** Which children a walk pushes, given the frame it is in. */
  type Rule = (Frame, Tree) -> bool

  function Children(t: Tree): seq<Tree> { if t.list.Listed? then t.list.children else [] }

  function Pushed(rule: Rule, f: Frame, cs: seq<Tree>): (fs: seq<Frame>) {
    if cs == [] then []
    else
      var c := cs[|cs| - 1];
      Pushed(rule, f, cs[..|cs| - 1]) + if rule(f, c) then [Frame(c, f.path + [c.name])] else []
  }

  // ------------------------------------------------------------------------------- termination

  function Size(t: Tree): nat
    decreases t
  {
    1 + match t.list { case Listed(cs) => Sizes(cs) case Unlistable => 0 case Vanished => 0 }
  }

  function Sizes(cs: seq<Tree>): nat
    decreases cs
  {
    if cs == [] then 0 else Sizes(cs[..|cs| - 1]) + Size(cs[|cs| - 1])
  }

  function Weight(stack: seq<Frame>): nat {
    if stack == [] then 0 else Weight(stack[..|stack| - 1]) + Size(stack[|stack| - 1].node)
  }

  lemma {:induction false} WeightConcat(a: seq<Frame>, b: seq<Frame>)
    ensures Weight(a + b) == Weight(a) + Weight(b)
  {
    if b == [] {
      assert a + b == a;
    } else {
      var n := |b| - 1;
      assert (a + b)[..|a| + n] == a + b[..n];
      WeightConcat(a, b[..n]);
    }
  }

  lemma {:induction false} PushedShrinks(rule: Rule, f: Frame, cs: seq<Tree>)
    ensures Weight(Pushed(rule, f, cs)) <= Sizes(cs)
  {
    if cs != [] {
      var n := |cs| - 1;
      PushedShrinks(rule, f, cs[..n]);
      var one := if rule(f, cs[n]) then [Frame(cs[n], f.path + [cs[n].name])] else [];
      WeightConcat(Pushed(rule, f, cs[..n]), one);
      assert |one| == 1 ==> one[..0] == [];
    }
  }

  /** Replacing the top of a stack by what it pushes makes the stack smaller. */
  lemma StackShrinks(rule: Rule, rest: seq<Frame>, top: Frame)
    ensures Weight(rest + Pushed(rule, top, Children(top.node))) < Weight(rest + [top])
  {
    PushedShrinks(rule, top, Children(top.node));
    WeightConcat(rest, Pushed(rule, top, Children(top.node)));
    assert (rest + [top])[..|rest|] == rest;
  }

  // ---------------------------------------------------------------------- the order of a stack

  /** The directories a stack visits, in order: pop the last, push its children behind the rest. */
  function Order(rule: Rule, stack: seq<Frame>): seq<Frame>
    decreases Weight(stack)
  {
    if stack == [] then []
    else
      var n := |stack| - 1;
      assert stack == stack[..n] + [stack[n]];
      StackShrinks(rule, stack[..n], stack[n]);
      [stack[n]] + Order(rule, stack[..n] + Pushed(rule, stack[n], Children(stack[n].node)))
  }

  /** One turn of a walk. */
  lemma OrderStep(rule: Rule, rest: seq<Frame>, top: Frame)
    ensures Order(rule, rest + [top]) == [top] + Order(rule, rest + Pushed(rule, top, Children(top.node)))
  {
    assert (rest + [top])[..|rest|] == rest;
  }

  /** One turn of a loop that has visited `done` of `all` and pops the top of `stack`. */
  lemma Turn(rule: Rule, all: seq<Frame>, done: seq<Frame>, stack: seq<Frame>)
    requires stack != [] && done + Order(rule, stack) == all
    ensures var rest, top := stack[..|stack| - 1], stack[|stack| - 1];
            var next := rest + Pushed(rule, top, Children(top.node));
            top in all && (done + [top]) + Order(rule, next) == all && Weight(next) < Weight(stack)
  {
    hide Order, Weight, Pushed;
    var rest, top := stack[..|stack| - 1], stack[|stack| - 1];
    assert stack == rest + [top];
    OrderStep(rule, rest, top);
    StackShrinks(rule, rest, top);
    assert all[|done|] == top;
  }

  lemma WalkIsOver(rule: Rule, all: seq<Frame>, done: seq<Frame>)
    requires done + Order(rule, []) == all
    ensures done == all
  {
  }

  // ------------------------------------------------------- the same directories, by recursion

  /** g is f, or is pushed below one of the children f pushes. */
  ghost predicate Below(rule: Rule, f: Frame, g: Frame)
    decreases f.node
  {
    || g == f
    || (f.node.list.Listed? && exists i: nat ::
          i < |f.node.list.children| && rule(f, f.node.list.children[i])
          && Below(rule, Frame(f.node.list.children[i], f.path + [f.node.list.children[i].name]), g))
  }

  ghost predicate AnyBelow(rule: Rule, stack: seq<Frame>, g: Frame) { exists f :: f in stack && Below(rule, f, g) }

  lemma {:induction false} PushedMembers(rule: Rule, f: Frame, cs: seq<Tree>, x: Frame)
    ensures x in Pushed(rule, f, cs) <==>
      exists i: nat :: i < |cs| && rule(f, cs[i]) && x == Frame(cs[i], f.path + [cs[i].name])
  {
    if cs != [] {
      var n := |cs| - 1;
      PushedMembers(rule, f, cs[..n], x);
      if i: nat :| i < n && rule(f, cs[..n][i]) && x == Frame(cs[..n][i], f.path + [cs[..n][i].name]) {
        assert cs[i] == cs[..n][i];
      }
      if i: nat :| i < |cs| && rule(f, cs[i]) && x == Frame(cs[i], f.path + [cs[i].name]) {
        assert i < n ==> cs[..n][i] == cs[i];
      }
    }
  }

  lemma BelowByPush(rule: Rule, f: Frame, g: Frame)
    ensures Below(rule, f, g) <==> g == f || AnyBelow(rule, Pushed(rule, f, Children(f.node)), g)
  {
    var cs := Children(f.node);
    if x :| x in Pushed(rule, f, cs) && Below(rule, x, g) {
      PushedMembers(rule, f, cs, x);
    }
    if g != f && Below(rule, f, g) {
      var i: nat :| i < |cs| && rule(f, cs[i]) && Below(rule, Frame(cs[i], f.path + [cs[i].name]), g);
      PushedMembers(rule, f, cs, Frame(cs[i], f.path + [cs[i].name]));
    }
  }

  lemma AnyConcat(rule: Rule, a: seq<Frame>, b: seq<Frame>, g: Frame)
    ensures AnyBelow(rule, a + b, g) <==> AnyBelow(rule, a, g) || AnyBelow(rule, b, g)
  {
    if f :| f in a && Below(rule, f, g) { assert f in a + b; }
    if f :| f in b && Below(rule, f, g) { assert f in a + b; }
  }

  /** A stack visits exactly what lies below its frames. */
  lemma {:induction false} VisitsBelow(rule: Rule, stack: seq<Frame>, g: Frame)
    ensures g in Order(rule, stack) <==> AnyBelow(rule, stack, g)
    decreases Weight(stack)
  {
    hide Below, Pushed, Children;
    if stack != [] {
      var n := |stack| - 1;
      var rest, top := stack[..n], stack[n];
      assert stack == rest + [top];
      StackShrinks(rule, rest, top);
      var pushed := Pushed(rule, top, Children(top.node));
      VisitsBelow(rule, rest + pushed, g);
      OrderStep(rule, rest, top);
      AnyConcat(rule, rest, pushed, g);
      AnyConcat(rule, rest, [top], g);
      BelowByPush(rule, top, g);
      assert AnyBelow(rule, [top], g) <==> Below(rule, top, g) by {
        assert top in [top];
      }
    }
  }

  // ---------------------------------------------------------------------- directories by path

  /** Walking `path` down from t through listed directories leads to n. */
  ghost predicate DirAt(t: Tree, path: Path, n: Tree)
    decreases t
  {
    if path == [] then n == t
    else t.list.Listed? && exists i: nat ::
      i < |t.list.children| && t.list.children[i].isDir && t.list.children[i].name == path[0]
      && DirAt(t.list.children[i], path[1..], n)
  }

  /** A rule that pushes directories by the names on the way to them. */
  function ByNames(ok: (Path, string) -> bool): Rule { (f: Frame, c: Tree) => c.isDir && ok(f.path, c.name) }

  ghost predicate AllOk(ok: (Path, string) -> bool, base: Path, p: Path) {
    forall i: nat | i < |p| :: ok(base + p[..i], p[i])
  }

  lemma AllOkCons(ok: (Path, string) -> bool, base: Path, p: Path)
    requires p != []
    ensures AllOk(ok, base, p) <==> ok(base, p[0]) && AllOk(ok, base + [p[0]], p[1..])
  {
    assert base + p[..0] == base;
    forall i: nat | i < |p| - 1 ensures base + p[..i + 1] == (base + [p[0]]) + p[1..][..i] && p[i + 1] == p[1..][i] {
      assert p[..i + 1] == [p[0]] + p[1..][..i];
    }
    if ok(base, p[0]) && AllOk(ok, base + [p[0]], p[1..]) {
      forall i: nat | i < |p| ensures ok(base + p[..i], p[i]) {
        if i > 0 { assert ok((base + [p[0]]) + p[1..][..i - 1], p[1..][i - 1]); }
      }
    }
  }

  lemma {:induction false} BelowIsDirAt(ok: (Path, string) -> bool, f: Frame, n: Tree, p: Path)
    ensures Below(ByNames(ok), f, Frame(n, f.path + p)) <==> DirAt(f.node, p, n) && AllOk(ok, f.path, p)
    decreases f.node
  {
    var g := Frame(n, f.path + p);
    if p == [] {
      assert f.path + p == f.path;
      if Below(ByNames(ok), f, g) && g != f { BelowIsLonger(ByNames(ok), f, g); }
    } else {
      AllOkCons(ok, f.path, p);
      assert g != f by { assert |g.path| > |f.path|; }
      if f.node.list.Listed? {
        var cs := f.node.list.children;
        forall i: nat | i < |cs|
          ensures ByNames(ok)(f, cs[i]) && Below(ByNames(ok), Frame(cs[i], f.path + [cs[i].name]), g)
             <==> cs[i].isDir && cs[i].name == p[0] && DirAt(cs[i], p[1..], n) && AllOk(ok, f.path, p) {
          var c := Frame(cs[i], f.path + [cs[i].name]);
          if cs[i].name == p[0] {
            assert f.path + p == c.path + p[1..];
            BelowIsDirAt(ok, c, n, p[1..]);
          } else if Below(ByNames(ok), c, g) {
            SameName(ByNames(ok), c, g, |f.path|);
          }
        }
      }
    }
  }

  predicate Extends(longer: Path, shorter: Path) { |shorter| <= |longer| && longer[..|shorter|] == shorter }

  lemma {:induction false} BelowExtends(rule: Rule, f: Frame, g: Frame)
    requires Below(rule, f, g)
    ensures Extends(g.path, f.path) && (g == f || |g.path| > |f.path|)
    decreases f.node
  {
    if g != f {
      var i: nat :| i < |f.node.list.children| && rule(f, f.node.list.children[i])
                    && Below(rule, Frame(f.node.list.children[i], f.path + [f.node.list.children[i].name]), g);
      var c := Frame(f.node.list.children[i], f.path + [f.node.list.children[i].name]);
      BelowExtends(rule, c, g);
      assert g.path[..|f.path|] == g.path[..|c.path|][..|f.path|];
    }
  }

  lemma SameName(rule: Rule, f: Frame, g: Frame, k: nat)
    requires Below(rule, f, g) && k < |f.path|
    ensures k < |g.path| && g.path[k] == f.path[k]
  {
    BelowExtends(rule, f, g);
    assert g.path[k] == g.path[..|f.path|][k];
  }

  lemma BelowIsLonger(rule: Rule, f: Frame, g: Frame)
    requires Below(rule, f, g) && g != f
    ensures |g.path| > |f.path|
  {
    BelowExtends(rule, f, g);
  }

  // --------------------------------------------------------------------------- each only once

  /** No directory lists a name twice. */
  ghost predicate UniqueNames(t: Tree)
    decreases t
  {
    t.list.Listed? ==>
      && (forall i: nat, j: nat | i < j < |t.list.children| :: t.list.children[i].name != t.list.children[j].name)
      && (forall i: nat | i < |t.list.children| :: UniqueNames(t.list.children[i]))
  }

  ghost predicate Incomparable(a: Path, b: Path) { !Extends(a, b) && !Extends(b, a) }

  ghost predicate Separate(stack: seq<Frame>) {
    && (forall i: nat, j: nat | i < j < |stack| :: Incomparable(stack[i].path, stack[j].path))
    && (forall i: nat | i < |stack| :: UniqueNames(stack[i].node))
  }

  ghost predicate DistinctPaths(fs: seq<Frame>) { forall i: nat, j: nat | i < j < |fs| :: fs[i].path != fs[j].path }

  lemma {:induction false} PushedSeparate(rule: Rule, f: Frame, cs: seq<Tree>)
    requires forall i: nat, j: nat | i < j < |cs| :: cs[i].name != cs[j].name
    requires forall i: nat | i < |cs| :: UniqueNames(cs[i])
    ensures Separate(Pushed(rule, f, cs))
    ensures forall x | x in Pushed(rule, f, cs) :: |x.path| == |f.path| + 1 && Extends(x.path, f.path)
    ensures forall x | x in Pushed(rule, f, cs) :: exists i: nat :: i < |cs| && x == Frame(cs[i], f.path + [cs[i].name])
  {
    hide UniqueNames;
    if cs != [] {
      var n := |cs| - 1;
      PushedSeparate(rule, f, cs[..n]);
      var fs := Pushed(rule, f, cs[..n]);
      var last := Frame(cs[n], f.path + [cs[n].name]);
      forall k: nat | k < |fs| ensures Incomparable(fs[k].path, last.path) {
        assert fs[k] in fs;
        var i: nat :| i < n && fs[k] == Frame(cs[..n][i], f.path + [cs[..n][i].name]);
        assert fs[k].path[|f.path|] == cs[i].name && last.path[|f.path|] == cs[n].name;
      }
      forall x | x in Pushed(rule, f, cs) ensures exists i: nat :: i < |cs| && x == Frame(cs[i], f.path + [cs[i].name]) {
        if x in fs {
          var i: nat :| i < n && x == Frame(cs[..n][i], f.path + [cs[..n][i].name]);
          assert cs[i] == cs[..n][i];
        }
      }
    }
  }

  lemma StepSeparate(rule: Rule, rest: seq<Frame>, top: Frame)
    requires Separate(rest + [top])
    ensures Separate(rest + Pushed(rule, top, Children(top.node)))
  {
    hide Pushed;
    var pushed, all := Pushed(rule, top, Children(top.node)), rest + [top];
    assert all[|rest|] == top;
    PushedSeparate(rule, top, Children(top.node));
    assert forall i: nat | i < |rest| :: all[i] == rest[i];
    forall i: nat, k: nat | i < |rest| && k < |pushed| ensures Incomparable(rest[i].path, pushed[k].path) {
      assert Incomparable(all[i].path, all[|rest|].path);
      assert pushed[k] in pushed;
      StillApart(rest[i].path, top.path, pushed[k].path);
    }
  }

  lemma StillApart(a: Path, b: Path, c: Path)
    requires Incomparable(a, b) && Extends(c, b)
    ensures Incomparable(a, c)
  {
  }

  /** A walk over separate starting points meets no path twice. */
  lemma {:induction false} EachOnce(rule: Rule, stack: seq<Frame>)
    requires Separate(stack)
    ensures DistinctPaths(Order(rule, stack))
    decreases Weight(stack)
  {
    hide Pushed, Children, Separate, Incomparable;
    if stack != [] {
      var n := |stack| - 1;
      var rest, top := stack[..n], stack[n];
      assert stack == rest + [top];
      var pushed := Pushed(rule, top, Children(top.node));
      StackShrinks(rule, rest, top);
      StepSeparate(rule, rest, top);
      EachOnce(rule, rest + pushed);
      OrderStep(rule, rest, top);
      var later := Order(rule, rest + pushed);
      forall k: nat | k < |later| ensures later[k].path != top.path {
        NotAgain(rule, rest, top, later[k]);
      }
    }
  }

  lemma NotAgain(rule: Rule, rest: seq<Frame>, top: Frame, g: Frame)
    requires Separate(rest + [top]) && g in Order(rule, rest + Pushed(rule, top, Children(top.node)))
    ensures g.path != top.path
  {
    hide Pushed;
    var pushed, all := Pushed(rule, top, Children(top.node)), rest + [top];
    VisitsBelow(rule, rest + pushed, g);
    var f :| f in rest + pushed && Below(rule, f, g);
    BelowExtends(rule, f, g);
    assert all[|rest|] == top;
    if f in rest {
      var i: nat :| i < |rest| && rest[i] == f;
      assert Incomparable(all[i].path, all[|rest|].path);
    } else {
      PushedSeparate(rule, top, Children(top.node));
    }
  }
}
