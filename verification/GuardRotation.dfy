/**
 The scan units of scripts/ccache_guard.py, and the cursor that rotates them: a run cut short by its
 budget leaves the unit it was in, and the next run begins there.
 */
module GuardRotation {
  import opened Basics
  import opened Sorting

  /** A scan unit: a fan-out directory of a root (`sub` empty), or one of its subdirectories. */
  datatype Unit = Unit(root: nat, top: string, sub: string)

  // ---------------------------------------------------------------------------- walk order

  /** The tuple order on (root, top, sub). */
  predicate AtOrAfter(u: Unit, v: Unit) {
    || v.root < u.root
    || (v.root == u.root && v.top != u.top && StrLe(v.top, u.top))
    || (v.root == u.root && v.top == u.top && StrLe(v.sub, u.sub))
  }

  predicate Before(u: Unit, v: Unit) { u != v && AtOrAfter(v, u) }

  lemma UnitOrder(u: Unit, v: Unit)
    ensures AtOrAfter(u, v) || AtOrAfter(v, u)
    ensures AtOrAfter(u, v) && AtOrAfter(v, u) ==> u == v
  {
    StrLeTotal(u.top, v.top);
    StrLeTotal(u.sub, v.sub);
  }

  lemma UnitTransitive(u: Unit, v: Unit, x: Unit)
    requires AtOrAfter(x, v) && AtOrAfter(v, u)
    ensures AtOrAfter(x, u)
  {
    if u.root == v.root == x.root {
      if StrLe(u.top, v.top) && StrLe(v.top, x.top) {
        StrLeTransitive(u.top, v.top, x.top);
        StrLeTotal(u.top, v.top);
      }
      if u.top == v.top == x.top { StrLeTransitive(u.sub, v.sub, x.sub); }
    }
  }

  ghost predicate Ascending(units: seq<Unit>) {
    forall i: nat, j: nat | i < j < |units| :: Before(units[i], units[j])
  }

  // ------------------------------------------------------------------------ listing the units

  const FANOUT: set<string> :=
    {"0", "1", "2", "3", "4", "5", "6", "7", "8", "9", "a", "b", "c", "d", "e", "f"}

  /** A name in a directory; `isDir` is false for files and for links. */
  datatype Child = Child(name: string, isDir: bool)

  /** `subs` answers a scan of one directory of the root, None when it cannot be read. */
  datatype Root = Root(tops: Option<seq<Child>>, subs: string -> Option<seq<Child>>)

  /** A directory names each child once, and no child has the empty name. */
  ghost predicate Listing(cs: seq<Child>) {
    && (forall i: nat, j: nat | i < j < |cs| :: cs[i].name != cs[j].name)
    && (forall i: nat | i < |cs| :: cs[i].name != "")
  }

  ghost predicate WellFormed(r: Root) {
    && (r.tops.Some? ==> Listing(r.tops.value))
    && (forall t :: r.subs(t).Some? ==> Listing(r.subs(t).value))
  }

  predicate ByName(a: Child, b: Child) { StrLe(a.name, b.name) }

  predicate IsTop(c: Child) { c.name in FANOUT && c.isDir }
  predicate IsSub(c: Child) { c.name != "tmp" && c.isDir }

  function TopNames(cs: seq<Child>): set<string> { set c | c in cs && IsTop(c) :: c.name }
  function SubNames(cs: seq<Child>): set<string> { set c | c in cs && IsSub(c) :: c.name }

  function SubsOf(r: Root, top: string): set<string> {
    {""} + if r.subs(top).Some? then SubNames(r.subs(top).value) else {}
  }

  /** What the walk of a root must visit, stated without its order. */
  ghost predicate Belongs(r: Root, index: nat, u: Unit) {
    u.root == index && r.tops.Some? && u.top in TopNames(r.tops.value) && u.sub in SubsOf(r, u.top)
  }

  ghost predicate Holds(cs: seq<Child>, name: string) { exists c :: c in cs && c.isDir && c.name == name }

  /**
   A unit is a directory named by one hexadecimal digit that can be listed from the root, alone or with
   a directory in it that is not called tmp.
   */
  lemma BelongsMeans(r: Root, index: nat, u: Unit)
    ensures Belongs(r, index, u) <==>
      && u.root == index && r.tops.Some? && Holds(r.tops.value, u.top)
      && |u.top| == 1 && ('0' <= u.top[0] <= '9' || 'a' <= u.top[0] <= 'f')
      && (u.sub == "" || (u.sub != "tmp" && r.subs(u.top).Some? && Holds(r.subs(u.top).value, u.sub)))
  {
    HexDigits(u.top);
    if r.tops.Some? { assert u.top in TopNames(r.tops.value) <==> u.top in FANOUT && Holds(r.tops.value, u.top); }
    if r.subs(u.top).Some? { assert u.sub in SubNames(r.subs(u.top).value) <==> u.sub != "tmp" && Holds(r.subs(u.top).value, u.sub); }
  }

  lemma HexDigits(name: string)
    ensures name in FANOUT <==> |name| == 1 && ('0' <= name[0] <= '9' || 'a' <= name[0] <= 'f')
  {
    if |name| == 1 { assert name == [name[0]]; }
  }

  lemma OneMoreChild(cs: seq<Child>, i: nat)
    requires i < |cs|
    ensures TopNames(cs[..i + 1]) == TopNames(cs[..i]) + if IsTop(cs[i]) then {cs[i].name} else {}
    ensures SubNames(cs[..i + 1]) == SubNames(cs[..i]) + if IsSub(cs[i]) then {cs[i].name} else {}
  {
    assert cs[..i + 1] == cs[..i] + [cs[i]];
  }

  lemma SameNames(cs: seq<Child>, s: seq<Child>)
    requires forall c :: c in s <==> c in cs
    ensures TopNames(s[..|s|]) == TopNames(cs) && SubNames(s[..|s|]) == SubNames(cs)
  {
    assert s[..|s|] == s;
  }

  /** Sorted by name a listing is strictly ascending, and lists what it listed. */
  lemma SortedListing(cs: seq<Child>, s: seq<Child>)
    requires Listing(cs) && s == Sort(ByName, cs)
    ensures forall i: nat, j: nat | i < j < |s| :: s[i].name != s[j].name && StrLe(s[i].name, s[j].name)
    ensures forall c :: c in s <==> c in cs
  {
    StrOrder();
    assert Total(ByName);
    SortSorts(ByName, cs);
    forall c ensures c in s <==> c in cs { SortMembers(ByName, cs, c); }
    forall i: nat, j: nat | i < j < |s| ensures s[i].name != s[j].name {
      if s[i].name == s[j].name { SameChildTwice(cs, s, i, j); }
    }
  }

  lemma SameChildTwice(cs: seq<Child>, s: seq<Child>, i: nat, j: nat)
    requires Listing(cs) && multiset(s) == multiset(cs) && i < j < |s|
    ensures s[i].name != s[j].name
  {
    assert s[i] in multiset(cs) && s[j] in multiset(cs);
    if s[i] == s[j] {
      assert s == s[..i] + [s[i]] + s[i + 1..j] + [s[j]] + s[j + 1..];
      assert multiset(s)[s[i]] >= 2;
      AtMostOnce(cs, s[i]);
    }
  }

  lemma {:induction false} AtMostOnce(cs: seq<Child>, c: Child)
    requires Listing(cs)
    ensures multiset(cs)[c] <= 1
  {
    if cs != [] {
      var rest, last := cs[..|cs| - 1], cs[|cs| - 1];
      assert cs == rest + [last];
      AtMostOnce(rest, c);
      assert c == last ==> c !in rest;
    }
  }

  lemma Snoc(units: seq<Unit>, u: Unit)
    requires Ascending(units) && Follows(units, u)
    ensures Ascending(units + [u])
  {
    forall i: nat | i + 1 < |units| ensures Before(units[i], u) {
      var last := units[|units| - 1];
      assert Before(units[i], last);
      UnitTransitive(units[i], last, u);
      UnitOrder(units[i], last);
    }
  }

  predicate Follows(units: seq<Unit>, u: Unit) { units == [] || Before(units[|units| - 1], u) }

  /** The inner loop of `iter_units`: the units of one fan-out directory. */
  method IterTop(r: Root, index: nat, top: string, before: seq<Unit>) returns (units: seq<Unit>)
    requires WellFormed(r) && Ascending(before) && Follows(before, Unit(index, top, ""))
    ensures Ascending(units) && |units| > 0 && units[|units| - 1].root == index && units[|units| - 1].top == top
    ensures forall u :: u in units <==> u in before || (u.root == index && u.top == top && u.sub in SubsOf(r, top))
  {
    hide StrLe, SubNames, Ascending, IsSub, Sort;
    Snoc(before, Unit(index, top, ""));
    units := before + [Unit(index, top, "")];
    if r.subs(top).None? { return; }
    var subs := Sort(ByName, r.subs(top).value);
    SortedListing(r.subs(top).value, subs);
    NotEmpty(r.subs(top).value, subs);
    SubNamesOfNone(subs);
    for i := 0 to |subs|
      invariant Ascending(units) && |units| > 0 && units[|units| - 1].root == index && units[|units| - 1].top == top
      invariant forall k: nat | i <= k < |subs| :: Follows(units, Unit(index, top, subs[k].name))
      invariant forall u :: u in units <==> u in before || (u.root == index && u.top == top && u.sub in {""} + SubNames(subs[..i]))
    {
      OneMoreChild(subs, i);
      assert forall k: nat | i < k < |subs| :: subs[i].name != subs[k].name && StrLe(subs[i].name, subs[k].name);
      if IsSub(subs[i]) {
        Snoc(units, Unit(index, top, subs[i].name));
        units := units + [Unit(index, top, subs[i].name)];
      }
    }
    SameNames(r.subs(top).value, subs);
  }

  lemma SubNamesOfNone(cs: seq<Child>)
    ensures SubNames(cs[..0]) == {} && TopNames(cs[..0]) == {}
  {
  }

  lemma NotEmpty(cs: seq<Child>, s: seq<Child>)
    requires Listing(cs) && forall c :: c in s <==> c in cs
    ensures forall k: nat | k < |s| :: s[k].name != "" && StrLe("", s[k].name)
  {
    forall k: nat | k < |s| ensures s[k].name != "" {
      assert s[k] in cs;
    }
  }

  /** `iter_units`: exactly the fan-out units of the root, in strictly ascending walk order. */
  method IterUnits(r: Root, index: nat, before: seq<Unit>) returns (units: seq<Unit>)
    requires WellFormed(r) && Ascending(before) && (before == [] || before[|before| - 1].root < index)
    ensures Ascending(units) && (units == [] || units[|units| - 1].root <= index)
    ensures forall u :: u in units <==> u in before || Belongs(r, index, u)
  {
    hide StrLe, SubsOf, TopNames, Ascending, IsTop, Sort;
    units := before;
    if r.tops.None? { return; }
    var tops := Sort(ByName, r.tops.value);
    SortedListing(r.tops.value, tops);
    SubNamesOfNone(tops);
    for i := 0 to |tops|
      invariant Ascending(units) && (units == [] || units[|units| - 1].root <= index)
      invariant forall k: nat | i <= k < |tops| :: Follows(units, Unit(index, tops[k].name, ""))
      invariant forall u :: u in units <==> u in before || (u.root == index && u.top in TopNames(tops[..i]) && u.sub in SubsOf(r, u.top))
    {
      OneMoreChild(tops, i);
      assert forall k: nat | i < k < |tops| :: tops[i].name != tops[k].name && StrLe(tops[i].name, tops[k].name);
      if IsTop(tops[i]) {
        units := IterTop(r, index, tops[i].name, units);
      }
    }
    SameNames(r.tops.value, tops);
  }

  /** The unit list of `iter_from`, over every root in turn. */
  method AllUnits(roots: seq<Root>) returns (units: seq<Unit>)
    requires forall r | r in roots :: WellFormed(r)
    ensures Ascending(units)
    ensures forall u :: u in units <==> u.root < |roots| && Belongs(roots[u.root], u.root, u)
  {
    units := [];
    for i := 0 to |roots|
      invariant Ascending(units) && (units == [] || units[|units| - 1].root < i)
      invariant forall u :: u in units <==> u.root < i && Belongs(roots[u.root], u.root, u)
    {
      assert roots[i] in roots;
      units := IterUnits(roots[i], i, units);
    }
  }
}
