/** `newest_mtime` of scripts/disk_reclaim.py: the age of a build tree, or the refusal to guess it. */
module ReclaimAge {
  import opened Basics
  import opened TreeWalk

  /** Directories whose own stat answered are entered, up to the bound. */
  function Entered(maxdepth: nat): Rule {
    (f: Frame, c: Tree) => f.node.stat.At? && c.stat.At? && |f.path| + 1 < maxdepth && c.isDir
  }

  ghost predicate Reads(root: Tree, maxdepth: nat, f: Frame) { Below(Entered(maxdepth), Frame(root, []), f) }

  /** Some stat or listing of this frame is refused. */
  ghost predicate Refuses(f: Frame) {
    || f.node.stat.Unreadable?
    || (f.node.stat.At? && (f.node.list.Unlistable? || exists c :: c in Children(f.node) && c.stat.Unreadable?))
  }

  /** A time this frame shows: its own or that of an entry. */
  ghost predicate Shows(f: Frame, t: real) {
    f.node.stat.At? && (t == f.node.stat.mtime || exists c :: c in Children(f.node) && c.stat == At(t))
  }

  ghost predicate Refusal(root: Tree, maxdepth: nat) { exists f :: Reads(root, maxdepth, f) && Refuses(f) }

  ghost predicate Shown(root: Tree, maxdepth: nat, t: real) { exists f :: Reads(root, maxdepth, f) && Shows(f, t) }

  /** None exactly on a refusal or a missing root; otherwise the maximum of all times shown, at least zero. */
  ghost predicate IsNewest(root: Tree, maxdepth: nat, r: Option<real>) {
    && (r.None? <==> Refusal(root, maxdepth) || !root.stat.At?)
    && (r.Some? ==> r.value >= 0.0 && (forall t | Shown(root, maxdepth, t) :: t <= r.value)
                    && (r.value == 0.0 || Shown(root, maxdepth, r.value)))
  }

  /** x is the maximum of zero and the times of cs. */
  ghost predicate MaxOf(x: real, from: real, cs: seq<Tree>) {
    && x >= from && (forall c | c in cs && c.stat.At? :: c.stat.mtime <= x)
    && (x == from || exists c :: c in cs && c.stat == At(x))
  }

  /** The entry loop; None when the stat of an entry is refused. */
  method ReadEntries(maxdepth: nat, f: Frame, from: real) returns (newest: Option<real>, pushed: seq<Frame>)
    requires f.node.stat.At?
    ensures newest.None? <==> exists c :: c in Children(f.node) && c.stat.Unreadable?
    ensures newest.Some? ==> MaxOf(newest.value, from, Children(f.node))
    ensures newest.Some? ==> pushed == Pushed(Entered(maxdepth), f, Children(f.node))
  {
    var cs := Children(f.node);
    var x := from;
    pushed := [];
    for i := 0 to |cs|
      invariant MaxOf(x, from, cs[..i]) && pushed == Pushed(Entered(maxdepth), f, cs[..i])
      invariant forall c | c in cs[..i] :: !c.stat.Unreadable?
    {
      assert cs[..i + 1] == cs[..i] + [cs[i]] && cs[..i + 1][..i] == cs[..i];
      assert cs[i] in cs;
      match cs[i].stat
      case Unreadable => return None, [];
      case Missing =>
      case At(t) =>
        x := MaxReal(x, t);
        if |f.path| + 1 < maxdepth && cs[i].isDir { pushed := pushed + [Frame(cs[i], f.path + [cs[i].name])]; }
    }
    assert cs[..|cs|] == cs;
    newest := Some(x);
  }

  lemma VisitsReads(root: Tree, maxdepth: nat, f: Frame)
    ensures f in Order(Entered(maxdepth), [Frame(root, [])]) <==> Reads(root, maxdepth, f)
  {
    VisitsBelow(Entered(maxdepth), [Frame(root, [])], f);
    assert Frame(root, []) in [Frame(root, [])];
  }

  lemma {:induction false} NothingEntered(maxdepth: nat, f: Frame, cs: seq<Tree>)
    requires !f.node.stat.At?
    ensures Pushed(Entered(maxdepth), f, cs) == []
  {
    if cs != [] { NothingEntered(maxdepth, f, cs[..|cs| - 1]); }
  }

  /** What the walk knows after the frames in `done`. */
  ghost predicate Known(done: seq<Frame>, newest: real) {
    && newest >= 0.0 && (forall f | f in done :: !Refuses(f))
    && (forall f, t | f in done && Shows(f, t) :: t <= newest)
    && (newest == 0.0 || exists f :: f in done && Shows(f, newest))
  }

  lemma KnownNext(done: seq<Frame>, newest: real, f: Frame, x: real)
    requires Known(done, newest) && !Refuses(f)
    requires if f.node.stat.At? then MaxOf(x, MaxReal(newest, f.node.stat.mtime), Children(f.node)) else x == newest
    ensures Known(done + [f], x)
  {
    forall g, t | g in done + [f] && Shows(g, t) ensures t <= x { assert g in done || g == f; }
    assert f in done + [f];
    if x != newest {
      assert Shows(f, x);
    } else if g :| g in done && Shows(g, newest) {
      assert g in done + [f];
    }
  }

  /** One turn of the stack loop of `newest_mtime`. */
  method ReadFrame(maxdepth: nat, f: Frame, newest: real, ghost done: seq<Frame>)
    returns (refused: bool, x: real, pushed: seq<Frame>)
    requires Known(done, newest)
    ensures refused <==> Refuses(f)
    ensures !refused ==> Known(done + [f], x) && pushed == Pushed(Entered(maxdepth), f, Children(f.node))
  {
    hide Known, Pushed, Children, MaxOf;
    x, pushed := newest, [];
    match f.node.stat {
      case Unreadable => return true, x, pushed;
      case Missing =>
        NothingEntered(maxdepth, f, Children(f.node));
      case At(mtime) =>
        if f.node.list.Unlistable? { return true, x, pushed; }
        var max;
        max, pushed := ReadEntries(maxdepth, f, MaxReal(newest, mtime));
        if max.None? { return true, x, []; }
        x := max.value;
    }
    KnownNext(done, newest, f, x);
    refused := false;
  }

  lemma KnownIsNewest(root: Tree, maxdepth: nat, newest: real)
    requires root.stat.At? && Known(Order(Entered(maxdepth), [Frame(root, [])]), newest)
    ensures IsNewest(root, maxdepth, Some(newest))
  {
    hide Refuses, Shows, Reads;
    forall f ensures f in Order(Entered(maxdepth), [Frame(root, [])]) <==> Reads(root, maxdepth, f) {
      VisitsReads(root, maxdepth, f);
    }
  }

  lemma RefusedIsNone(root: Tree, maxdepth: nat, f: Frame)
    requires f in Order(Entered(maxdepth), [Frame(root, [])]) && Refuses(f)
    ensures IsNewest(root, maxdepth, None)
  {
    VisitsReads(root, maxdepth, f);
  }

  /** Only the root can have no time of its own. */
  lemma FirstAnswers(root: Tree, maxdepth: nat, f: Frame)
    requires f in Order(Entered(maxdepth), [Frame(root, [])])
    ensures f == Frame(root, []) || root.stat.At?
  {
    VisitsReads(root, maxdepth, f);
  }

  /** `newest_mtime`: the maximum over the depth-bounded tree, or None. */
  method NewestMtime(root: Tree, maxdepth: nat) returns (r: Option<real>)
    ensures IsNewest(root, maxdepth, r)
  {
    hide IsNewest, Known, Pushed, Children, Refuses, Order, Weight;
    var stack := [Frame(root, [])];
    ghost var all := Order(Entered(maxdepth), stack);
    ghost var done: seq<Frame> := [];
    var newest, measured := 0.0, false;
    NothingKnown();
    SomethingRead(root, maxdepth);
    while stack != []
      invariant done + Order(Entered(maxdepth), stack) == all && Known(done, newest)
      invariant (done == [] ==> stack == [Frame(root, [])]) && (measured <==> done != [] && root.stat.At?)
      decreases Weight(stack)
    {
      var rest, top := stack[..|stack| - 1], stack[|stack| - 1];
      Turn(Entered(maxdepth), all, done, stack);
      FirstAnswers(root, maxdepth, top);
      var refused, x, pushed := ReadFrame(maxdepth, top, newest, done);
      if refused {
        RefusedIsNone(root, maxdepth, top);
        return None;
      }
      measured := measured || top.node.stat.At?;
      newest, stack, done := x, rest + pushed, done + [top];
    }
    WalkIsOver(Entered(maxdepth), all, done);
    if !measured {
      RootMissing(root, maxdepth);
      return None;
    }
    KnownIsNewest(root, maxdepth, newest);
    r := Some(newest);
  }

  lemma SomethingRead(root: Tree, maxdepth: nat)
    ensures Order(Entered(maxdepth), [Frame(root, [])]) != []
  {
  }

  lemma NothingKnown()
    ensures Known([], 0.0)
  {
  }

  lemma RootMissing(root: Tree, maxdepth: nat)
    requires !root.stat.At?
    ensures IsNewest(root, maxdepth, None)
  {
  }

  lemma {:induction false} SomeMax(from: real, cs: seq<Tree>) returns (x: real)
    ensures MaxOf(x, from, cs)
  {
    if cs == [] {
      x := from;
    } else {
      var n := |cs| - 1;
      x := SomeMax(from, cs[..n]);
      assert forall c :: c in cs <==> c in cs[..n] || c == cs[n];
      if cs[n].stat.At? { x := MaxReal(x, cs[n].stat.mtime); }
    }
  }

  lemma {:induction false} SomeKnown(done: seq<Frame>) returns (x: real)
    requires forall f | f in done :: !Refuses(f)
    ensures Known(done, x)
  {
    if done == [] {
      x := 0.0;
    } else {
      var f := done[|done| - 1];
      assert done == done[..|done| - 1] + [f];
      var before := SomeKnown(done[..|done| - 1]);
      x := before;
      if f.node.stat.At? { x := SomeMax(MaxReal(before, f.node.stat.mtime), Children(f.node)); }
      KnownNext(done[..|done| - 1], before, f, x);
    }
  }

  /** There is always an answer. */
  lemma NewestExists(t: Tree, depth: nat)
    ensures exists r :: IsNewest(t, depth, r)
  {
    hide IsNewest, Order, Refuses, Known;
    var order := Order(Entered(depth), [Frame(t, [])]);
    if !t.stat.At? {
      RootMissing(t, depth);
    } else if f :| f in order && Refuses(f) {
      RefusedIsNone(t, depth, f);
    } else {
      var x := SomeKnown(order);
      KnownIsNewest(t, depth, x);
    }
  }

  // ---------------------------------------------------------------------- looking deeper

  lemma {:induction false} DeeperReadsMore(less: nat, more: nat, f: Frame, g: Frame)
    requires less <= more && Below(Entered(less), f, g)
    ensures Below(Entered(more), f, g)
    decreases f.node
  {
    if g != f {
      var i: nat :| i < |f.node.list.children| && Entered(less)(f, f.node.list.children[i])
                    && Below(Entered(less), Frame(f.node.list.children[i], f.path + [f.node.list.children[i].name]), g);
      DeeperReadsMore(less, more, Frame(f.node.list.children[i], f.path + [f.node.list.children[i].name]), g);
      assert Entered(more)(f, f.node.list.children[i]);
    }
  }

  /** On the same tree a deeper walk never answers when a shallower one refuses, nor answers older. */
  lemma DeeperIsStricter(root: Tree, less: nat, more: nat, r: Option<real>, deeper: Option<real>)
    requires less <= more && IsNewest(root, less, r) && IsNewest(root, more, deeper)
    ensures deeper.Some? ==> r.Some? && r.value <= deeper.value
  {
    hide Refuses, Shows;
    forall f | Reads(root, less, f) ensures Reads(root, more, f) { DeeperReadsMore(less, more, Frame(root, []), f); }
    forall t | Shown(root, less, t) ensures Shown(root, more, t) {
      var f :| Reads(root, less, f) && Shows(f, t);
    }
  }

  // --------------------------------------------------------------------- the times, path by path

  /** Walking `path` down from t through listed directories whose stat answers leads to n. */
  ghost predicate AnsweredAt(t: Tree, path: Path, n: Tree)
    decreases t
  {
    && t.stat.At?
    && if path == [] then n == t
       else t.list.Listed? && exists i: nat ::
         i < |t.list.children| && t.list.children[i].isDir && t.list.children[i].name == path[0]
         && AnsweredAt(t.list.children[i], path[1..], n)
  }

  /** No listing and no stat within the bound is refused, and the root is there. */
  ghost predicate Measured(t: Tree, depth: nat) {
    && t.stat.At?
    && forall q, n | |q| < depth && AnsweredAt(t, q, n) ::
         !n.list.Unlistable? && forall c | c in Children(n) :: !c.stat.Unreadable?
  }

  /** No directory within the bound and no entry of one has a time after `time`. */
  ghost predicate NothingSince(t: Tree, depth: nat, time: real) {
    && 0.0 <= time
    && forall q, n | |q| < depth && AnsweredAt(t, q, n) ::
         (n.stat.At? ==> n.stat.mtime <= time) && forall c | c in Children(n) && c.stat.At? :: c.stat.mtime <= time
  }

  lemma {:induction false} BelowIsAnswered(depth: nat, f: Frame, n: Tree, p: Path)
    requires f.node.stat.At?
    ensures Below(Entered(depth), f, Frame(n, f.path + p)) <==> AnsweredAt(f.node, p, n) && (p == [] || |f.path| + |p| < depth)
    decreases f.node
  {
    var g := Frame(n, f.path + p);
    if p == [] {
      assert f.path + p == f.path;
      if Below(Entered(depth), f, g) && g != f { BelowIsLonger(Entered(depth), f, g); }
    } else {
      assert g != f by { assert |g.path| > |f.path|; }
      if f.node.list.Listed? {
        var cs := f.node.list.children;
        forall i: nat | i < |cs|
          ensures Entered(depth)(f, cs[i]) && Below(Entered(depth), Frame(cs[i], f.path + [cs[i].name]), g)
             <==> cs[i].isDir && cs[i].name == p[0] && AnsweredAt(cs[i], p[1..], n) && |f.path| + |p| < depth {
          var c := Frame(cs[i], f.path + [cs[i].name]);
          if cs[i].name == p[0] {
            assert f.path + p == c.path + p[1..];
            if cs[i].stat.At? { BelowIsAnswered(depth, c, n, p[1..]); }
          } else if Below(Entered(depth), c, g) {
            SameName(Entered(depth), c, g, |f.path|);
          }
        }
      }
    }
  }

  lemma ReadsIsAnswered(root: Tree, depth: nat, f: Frame)
    requires depth > 0 && root.stat.At?
    ensures Reads(root, depth, f) <==> |f.path| < depth && AnsweredAt(root, f.path, f.node)
  {
    assert [] + f.path == f.path;
    BelowIsAnswered(depth, Frame(root, []), f.node, f.path);
  }

  lemma {:induction false} AnsweredHasTime(t: Tree, path: Path, n: Tree)
    requires AnsweredAt(t, path, n)
    ensures n.stat.At?
    decreases t
  {
    if path != [] {
      var i: nat :| i < |t.list.children| && t.list.children[i].isDir && t.list.children[i].name == path[0]
                    && AnsweredAt(t.list.children[i], path[1..], n);
      AnsweredHasTime(t.list.children[i], path[1..], n);
    }
  }

  /** What `newest_mtime` returns, read off the tree by paths: None on any refusal, else the least time nothing is younger than. */
  lemma NewestMeans(t: Tree, depth: nat, r: Option<real>)
    requires depth > 0 && IsNewest(t, depth, r)
    ensures r.Some? <==> Measured(t, depth)
    ensures r.Some? ==> forall time :: NothingSince(t, depth, time) <==> r.value <= time
  {
    if t.stat.At? {
      forall f ensures Reads(t, depth, f) <==> |f.path| < depth && AnsweredAt(t, f.path, f.node) { ReadsIsAnswered(t, depth, f); }
      hide Reads, AnsweredAt;
      RefusalMeans(t, depth);
      if r.Some? { forall time ensures NothingSince(t, depth, time) <==> r.value <= time { SinceMeans(t, depth, r.value, time); } }
    }
  }

  lemma RefusalMeans(t: Tree, depth: nat)
    requires t.stat.At? && forall f :: Reads(t, depth, f) <==> |f.path| < depth && AnsweredAt(t, f.path, f.node)
    ensures Refusal(t, depth) <==> !Measured(t, depth)
  {
    hide Reads;
    if f :| Reads(t, depth, f) && Refuses(f) {
      AnsweredHasTime(t, f.path, f.node);
      assert !Measured(t, depth) by { assert |f.path| < depth && AnsweredAt(t, f.path, f.node); }
    }
    hide AnsweredAt;
    if q, n :| |q| < depth && AnsweredAt(t, q, n) && (n.list.Unlistable? || exists c :: c in Children(n) && c.stat.Unreadable?) {
      AnsweredHasTime(t, q, n);
      assert Reads(t, depth, Frame(n, q)) && Refuses(Frame(n, q));
    }
  }

  lemma SinceMeans(t: Tree, depth: nat, newest: real, time: real)
    requires t.stat.At? && IsNewest(t, depth, Some(newest))
    requires forall f :: Reads(t, depth, f) <==> |f.path| < depth && AnsweredAt(t, f.path, f.node)
    ensures NothingSince(t, depth, time) <==> newest <= time
  {
    hide Reads, Refuses;
    if NothingSince(t, depth, time) && newest != 0.0 {
      var f :| Reads(t, depth, f) && Shows(f, newest);
      assert |f.path| < depth && AnsweredAt(t, f.path, f.node);
    }
    if newest <= time {
      hide AnsweredAt;
      forall q, n | |q| < depth && AnsweredAt(t, q, n)
        ensures n.stat.At? && n.stat.mtime <= time && forall c | c in Children(n) && c.stat.At? :: c.stat.mtime <= time {
        AnsweredHasTime(t, q, n);
        assert Reads(t, depth, Frame(n, q));
        assert Shows(Frame(n, q), n.stat.mtime);
        assert Shown(t, depth, n.stat.mtime);
        forall c | c in Children(n) && c.stat.At? ensures c.stat.mtime <= time {
          assert Shows(Frame(n, q), c.stat.mtime);
          assert Shown(t, depth, c.stat.mtime);
        }
      }
    }
  }
}
