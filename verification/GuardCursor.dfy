/**
 The resumable walk of scripts/ccache_guard.py: `iter_from`, the cursor file, and why no unit
 starves although every run may be cut short.
 */
module GuardCursor {
  import opened Basics
  import opened GuardRotation

  /** A unit as the cursor file names it: the root by its path, which may be unknown by now. */
  datatype Cursor = Cursor(rel: string, top: string, sub: string)

  function IndexOf(rels: seq<string>, rel: string): (i: nat)
    ensures i <= |rels| && (forall k | 0 <= k < i :: rels[k] != rel) && (i < |rels| ==> rels[i] == rel)
  {
    if rels == [] || rels[0] == rel then 0 else 1 + IndexOf(rels[1..], rel)
  }

  function Target(rels: seq<string>, cursor: Option<Cursor>): Option<Unit> {
    if cursor.Some? && IndexOf(rels, cursor.value.rel) < |rels|
    then Some(Unit(IndexOf(rels, cursor.value.rel), cursor.value.top, cursor.value.sub)) else None
  }

  function First(units: seq<Unit>, target: Unit): (i: nat)
    ensures i <= |units| && (forall k | 0 <= k < i :: !AtOrAfter(units[k], target))
    ensures i < |units| ==> AtOrAfter(units[i], target)
  {
    if units == [] || AtOrAfter(units[0], target) then 0 else 1 + First(units[1..], target)
  }

  function Rotated(units: seq<Unit>, first: nat): seq<Unit>
    requires first <= |units|
  {
    units[first..] + units[..first]
  }

  function Rotation(units: seq<Unit>, rels: seq<string>, cursor: Option<Cursor>): seq<Unit> {
    var t := Target(rels, cursor);
    Rotated(units, if t.None? then 0 else First(units, t.value))
  }

  /** The order `iter_from` walks the units in. */
  method IterFrom(units: seq<Unit>, rels: seq<string>, cursor: Option<Cursor>) returns (order: seq<Unit>)
    ensures order == Rotation(units, rels, cursor)
  {
    var first := 0;
    if cursor.Some? {
      var root := 0;
      while root < |rels| && rels[root] != cursor.value.rel
        invariant root <= |rels| && forall k | 0 <= k < root :: rels[k] != cursor.value.rel
      {
        root := root + 1;
      }
      assert root == IndexOf(rels, cursor.value.rel);
      if root < |rels| {
        var target := Unit(root, cursor.value.top, cursor.value.sub);
        while first < |units| && !AtOrAfter(units[first], target)
          invariant first <= |units| && forall k | 0 <= k < first :: !AtOrAfter(units[k], target)
        {
          first := first + 1;
        }
        assert first == First(units, target);
      }
    }
    order := units[first..] + units[..first];
  }

  /**
   A rotation visits every unit once. It begins at the least unit at or after the cursor, which may
   have vanished; behind the last unit, or at an unknown root, it begins at the beginning.
   */
  lemma RotationIsAPermutation(units: seq<Unit>, rels: seq<string>, cursor: Option<Cursor>)
    requires Ascending(units)
    ensures var order := Rotation(units, rels, cursor);
            var t := Target(rels, cursor);
            && multiset(order) == multiset(units) && |order| == |units|
            && (t.None? ==> order == units)
            && (t.Some? && (exists u :: u in units && AtOrAfter(u, t.value)) ==>
                  AtOrAfter(order[0], t.value) && forall u | u in units && AtOrAfter(u, t.value) :: AtOrAfter(u, order[0]))
            && (t.Some? && (forall u | u in units :: !AtOrAfter(u, t.value)) ==> order == units)
  {
    var order, t := Rotation(units, rels, cursor), Target(rels, cursor);
    if t.None? {
      assert order == units;
    } else {
      var f := First(units, t.value);
      assert units == units[..f] + units[f..];
      if f < |units| {
        assert units[f] in units;
        forall u | u in units && AtOrAfter(u, t.value) ensures AtOrAfter(u, order[0]) {
          var k: nat :| k < |units| && units[k] == u;
          if k == f { UnitOrder(u, u); } else { assert Before(units[f], units[k]); }
        }
      } else {
        assert order == units;
      }
    }
  }

  // ------------------------------------------------------------------------------- one run

  datatype Item = Item(unit: Unit, entry: string)

  /** One run: the entries it finds in each unit, and the entry before which its budget runs out. */
  datatype Run = Run(entries: Unit -> seq<string>, cut: Option<nat>)

  function Items(u: Unit, names: seq<string>): (items: seq<Item>)
    ensures |items| == |names| && forall i | 0 <= i < |items| :: items[i] == Item(u, names[i])
  {
    seq(|names|, i requires 0 <= i < |names| => Item(u, names[i]))
  }

  function Walk(order: seq<Unit>, entries: Unit -> seq<string>): seq<Item> {
    if order == [] then [] else Items(order[0], entries(order[0])) + Walk(order[1..], entries)
  }

  predicate WasCut(order: seq<Unit>, run: Run) { run.cut.Some? && run.cut.value < |Walk(order, run.entries)| }

  function Done(order: seq<Unit>, run: Run): seq<Item> {
    var walk := Walk(order, run.entries);
    if WasCut(order, run) then walk[..run.cut.value] else walk
  }

  /** Every entry the run finds in unit u was processed before the budget ran out. */
  ghost predicate ScannedWhole(order: seq<Unit>, run: Run, u: Unit) {
    forall e | e in run.entries(u) :: Item(u, e) in Done(order, run)
  }

  /** A cut run saves the unit it was in; a complete run removes the cursor. */
  function CursorAfter(rels: seq<string>, order: seq<Unit>, run: Run): Option<Cursor>
    requires forall u | u in order :: u.root < |rels|
  {
    if WasCut(order, run) then
      var u := Walk(order, run.entries)[run.cut.value].unit;
      if u.root < |rels| then Some(Cursor(rels[u.root], u.top, u.sub)) else None
    else None
  }

  /** A run that was cut had left its first unit. */
  predicate Progressed(order: seq<Unit>, run: Run) {
    WasCut(order, run) ==> Walk(order, run.entries)[run.cut.value].unit != order[0]
  }

  /** Where the cut falls: units before position p are whole, those behind it untouched. */
  lemma {:induction false} CutPosition(order: seq<Unit>, entries: Unit -> seq<string>, cut: nat) returns (p: nat)
    requires cut < |Walk(order, entries)|
    ensures p < |order| && Walk(order, entries)[cut].unit == order[p]
    ensures forall q, e | 0 <= q < p && e in entries(order[q]) :: Item(order[q], e) in Walk(order, entries)[..cut]
    ensures forall i | 0 <= i < cut :: Walk(order, entries)[i].unit in order[..p + 1]
  {
    var head, tail := Items(order[0], entries(order[0])), Walk(order[1..], entries);
    assert Walk(order, entries) == head + tail;
    if cut < |head| {
      p := 0;
    } else {
      var p' := CutPosition(order[1..], entries, cut - |head|);
      p := p' + 1;
      CutBehindHead(order, entries, head, tail, cut, p');
    }
  }

  lemma ItemOf(u: Unit, names: seq<string>, e: string)
    requires e in names
    ensures Item(u, e) in Items(u, names)
  {
    var i :| 0 <= i < |names| && names[i] == e;
    assert Items(u, names)[i] == Item(u, e);
  }

  lemma CutBehindHead(order: seq<Unit>, entries: Unit -> seq<string>, head: seq<Item>, tail: seq<Item>, cut: nat, p: nat)
    requires order != [] && head == Items(order[0], entries(order[0])) && |head| <= cut < |head| + |tail| && p < |order[1..]|
    requires forall q, e | 0 <= q < p && e in entries(order[1..][q]) :: Item(order[1..][q], e) in tail[..cut - |head|]
    requires forall i | 0 <= i < cut - |head| :: tail[i].unit in order[1..][..p + 1]
    ensures forall q, e | 0 <= q < p + 1 && e in entries(order[q]) :: Item(order[q], e) in (head + tail)[..cut]
    ensures forall i | 0 <= i < cut :: (head + tail)[i].unit in order[..p + 2]
  {
    var done := tail[..cut - |head|];
    assert (head + tail)[..cut] == head + done;
    forall q, e | 0 <= q < p + 1 && e in entries(order[q]) ensures Item(order[q], e) in head + done {
      if q == 0 { ItemOf(order[0], entries(order[0]), e); } else { assert Item(order[1..][q - 1], e) in done; }
    }
    assert order[..p + 2] == [order[0]] + order[1..][..p + 1];
    forall i | 0 <= i < cut ensures (head + tail)[i].unit in order[..p + 2] {
      if i >= |head| { assert (head + tail)[i] == tail[i - |head|]; } else { assert (head + tail)[i] == head[i]; }
    }
  }

  lemma {:induction false} WalkIsWhole(order: seq<Unit>, entries: Unit -> seq<string>, u: Unit, e: string)
    requires u in order && e in entries(u)
    ensures Item(u, e) in Walk(order, entries)
  {
    if order[0] == u {
      ItemOf(u, entries(u), e);
    } else {
      WalkIsWhole(order[1..], entries, u, e);
    }
  }

  // ------------------------------------------------------------------------------ many runs

  ghost predicate Known(units: seq<Unit>, rels: seq<string>) {
    && Ascending(units) && (forall u | u in units :: u.root < |rels|)
    && (forall i: nat, j: nat | i < j < |rels| :: rels[i] != rels[j])
  }

  lemma OrderKnown(units: seq<Unit>, rels: seq<string>, cursor: Option<Cursor>)
    requires Known(units, rels)
    ensures |Rotation(units, rels, cursor)| == |units|
    ensures forall u :: u in Rotation(units, rels, cursor) <==> u in units
    ensures forall u | u in Rotation(units, rels, cursor) :: u.root < |rels|
  {
    RotationIsAPermutation(units, rels, cursor);
    var order := Rotation(units, rels, cursor);
    forall u ensures u in order <==> u in units {
      assert u in multiset(order) <==> u in multiset(units);
    }
  }

  /** Runs over a stable set of units, each resuming at the cursor its predecessor left. */
  ghost predicate Resumed(units: seq<Unit>, rels: seq<string>, cursors: seq<Option<Cursor>>, runs: seq<Run>) {
    && Known(units, rels) && |cursors| == |runs| + 1
    && forall i | 0 <= i < |runs| :: Resumes(units, rels, cursors[i], runs[i], cursors[i + 1])
  }

  ghost predicate Resumes(units: seq<Unit>, rels: seq<string>, cursor: Option<Cursor>, run: Run, next: Option<Cursor>)
    requires Known(units, rels)
  {
    OrderKnown(units, rels, cursor);
    next == CursorAfter(rels, Rotation(units, rels, cursor), run)
  }

  /** A cursor on an existing unit begins the next rotation exactly there. */
  lemma CursorHits(units: seq<Unit>, rels: seq<string>, g: nat)
    requires Known(units, rels) && g < |units|
    ensures units[g] in units && Rotation(units, rels, Some(Cursor(rels[units[g].root], units[g].top, units[g].sub))) == Rotated(units, g)
  {
    var u := units[g];
    assert u in units;
    assert IndexOf(rels, rels[u.root]) == u.root;
    var f := First(units, u);
    UnitOrder(u, u);
    if f < g {
      assert Before(units[f], u);
      UnitOrder(units[f], u);
    }
  }

  /** Rotating to the unit at position p of a rotation shifts what follows it by p. */
  lemma RotateFurther(units: seq<Unit>, f: nat, p: nat) returns (g: nat)
    requires f <= |units| && p < |units|
    ensures g == (if p < |units| - f then f + p else p - (|units| - f))
    ensures g < |units| && units[g] == Rotated(units, f)[p]
    ensures forall j: nat | j < |units| - p :: Rotated(units, g)[j] == Rotated(units, f)[p + j]
  {
    g := if p < |units| - f then f + p else p - (|units| - f);
  }

  lemma Restart(units: seq<Unit>, rels: seq<string>, cursor: Option<Cursor>, run: Run, next: Option<Cursor>, p: nat)
    requires Known(units, rels) && Resumes(units, rels, cursor, run, next)
    requires var order := Rotation(units, rels, cursor);
             WasCut(order, run) && p < |order| && Walk(order, run.entries)[run.cut.value].unit == order[p]
    ensures forall j: nat | j < |units| - p ::
              |Rotation(units, rels, next)| == |units| && Rotation(units, rels, next)[j] == Rotation(units, rels, cursor)[p + j]
  {
    hide Walk, First, IndexOf;
    OrderKnown(units, rels, cursor);
    var t := Target(rels, cursor);
    var f := if t.None? then 0 else First(units, t.value);
    var g := RotateFurther(units, f, p);
    CursorHits(units, rels, g);
    assert Rotation(units, rels, cursor)[p] in units;
  }

  /** The unit at distance d behind the cursor is scanned whole by one of the next d + 1 runs. */
  lemma {:induction false} ScannedSoon(units: seq<Unit>, rels: seq<string>, cursors: seq<Option<Cursor>>, runs: seq<Run>, d: nat)
    returns (i: nat)
    requires Resumed(units, rels, cursors, runs) && d < |units| && d < |runs|
    requires forall k: nat | k < |runs| :: Progressed(Rotation(units, rels, cursors[k]), runs[k])
    ensures |Rotation(units, rels, cursors[0])| == |units|
    ensures i <= d && ScannedWhole(Rotation(units, rels, cursors[i]), runs[i], Rotation(units, rels, cursors[0])[d])
    decreases d
  {
    hide Walk, Rotation, Known;
    var order, run := Rotation(units, rels, cursors[0]), runs[0];
    OrderKnown(units, rels, cursors[0]);
    var u := order[d];
    i := 0;
    if !WasCut(order, run) {
      forall e | e in run.entries(u) ensures Item(u, e) in Done(order, run) { WalkIsWhole(order, run.entries, u, e); }
    } else {
      var p := CutPosition(order, run.entries, run.cut.value);
      if d >= p {
        Restart(units, rels, cursors[0], run, cursors[1], p);
        OrderKnown(units, rels, cursors[1]);
        assert Rotation(units, rels, cursors[1])[d - p] == u;
        var k := ScannedSoon(units, rels, cursors[1..], runs[1..], d - p);
        i := k + 1;
      }
    }
  }

  /** No unit starves: among any n consecutive runs over n units each unit is scanned whole. */
  lemma NoUnitStarves(units: seq<Unit>, rels: seq<string>, cursors: seq<Option<Cursor>>, runs: seq<Run>, u: Unit)
    returns (i: nat)
    requires Resumed(units, rels, cursors, runs) && |runs| >= |units| && u in units
    requires forall k: nat | k < |runs| :: Progressed(Rotation(units, rels, cursors[k]), runs[k])
    ensures i < |units| && ScannedWhole(Rotation(units, rels, cursors[i]), runs[i], u)
  {
    OrderKnown(units, rels, cursors[0]);
    var d: nat :| d < |units| && Rotation(units, rels, cursors[0])[d] == u;
    i := ScannedSoon(units, rels, cursors, runs, d);
  }

  /**
   Why progress is needed: a run cut in its first unit touches no other unit and leaves a cursor
   from which the next run walks in the same order again.
   */
  lemma StuckRun(units: seq<Unit>, rels: seq<string>, cursor: Option<Cursor>, run: Run, next: Option<Cursor>)
    requires Known(units, rels) && Resumes(units, rels, cursor, run, next)
    requires !Progressed(Rotation(units, rels, cursor), run)
    ensures Rotation(units, rels, next) == Rotation(units, rels, cursor)
    ensures forall x | x in Done(Rotation(units, rels, cursor), run) :: x.unit == Rotation(units, rels, cursor)[0]
  {
    hide Walk, First, IndexOf;
    var order := Rotation(units, rels, cursor);
    OrderKnown(units, rels, cursor);
    var p := CutPosition(order, run.entries, run.cut.value);
    DistinctOrder(units, rels, cursor, p);
    Restart(units, rels, cursor, run, next, 0);
    OrderKnown(units, rels, next);
  }

  /** The first unit of a rotation does not occur again. */
  lemma DistinctOrder(units: seq<Unit>, rels: seq<string>, cursor: Option<Cursor>, p: nat)
    requires Known(units, rels) && p < |Rotation(units, rels, cursor)|
    requires Rotation(units, rels, cursor)[p] == Rotation(units, rels, cursor)[0]
    ensures p == 0
  {
    var t := Target(rels, cursor);
    var f := if t.None? then 0 else First(units, t.value);
    var a := RotateFurther(units, f, 0);
    var b := RotateFurther(units, f, p);
    if p != 0 { NoRepeat(units, a, b); }
  }

  lemma NoRepeat(units: seq<Unit>, a: nat, b: nat)
    requires Ascending(units) && a < |units| && b < |units| && a != b
    ensures units[a] != units[b]
  {
    assert Before(units[if a < b then a else b], units[if a < b then b else a]);
  }

  /** Runs that are always cut in their first unit: none of them ever touches another unit. */
  lemma {:induction false} StuckForever(units: seq<Unit>, rels: seq<string>, cursors: seq<Option<Cursor>>, runs: seq<Run>, i: nat)
    requires Resumed(units, rels, cursors, runs) && i < |runs|
    requires forall k: nat | k <= i :: !Progressed(Rotation(units, rels, cursors[k]), runs[k])
    ensures Rotation(units, rels, cursors[i]) == Rotation(units, rels, cursors[0]) != []
    ensures forall x | x in Done(Rotation(units, rels, cursors[i]), runs[i]) :: x.unit == Rotation(units, rels, cursors[0])[0]
  {
    hide Walk, Rotation, Known, Done;
    if i > 0 {
      StuckForever(units, rels, cursors, runs, i - 1);
      StuckRun(units, rels, cursors[i - 1], runs[i - 1], cursors[i]);
    } else {
      CutHasUnits(Rotation(units, rels, cursors[0]), runs[0]);
    }
    StuckRun(units, rels, cursors[i], runs[i], cursors[i + 1]);
  }

  lemma CutHasUnits(order: seq<Unit>, run: Run)
    requires WasCut(order, run)
    ensures order != []
  {
  }

  /** Two entries in every unit, and a budget for one. */
  const SLOW: Run := Run(u => ["x", "y"], Some(1))

  lemma SlowIsStuck(order: seq<Unit>)
    requires order != []
    ensures !Progressed(order, SLOW)
  {
    var head := Items(order[0], SLOW.entries(order[0]));
    assert Walk(order, SLOW.entries) == head + Walk(order[1..], SLOW.entries);
    assert Walk(order, SLOW.entries)[1] == head[1];
  }

  ghost function SlowCursors(units: seq<Unit>, rels: seq<string>, n: nat): (cursors: seq<Option<Cursor>>)
    requires Known(units, rels)
    ensures Resumed(units, rels, cursors, seq(n, i => SLOW))
  {
    if n == 0 then [None]
    else
      var before := SlowCursors(units, rels, n - 1);
      OrderKnown(units, rels, before[n - 1]);
      var next := CursorAfter(rels, Rotation(units, rels, before[n - 1]), SLOW);
      OneMoreRun(units, rels, before, n - 1, next);
      before + [next]
  }

  lemma OneMoreRun(units: seq<Unit>, rels: seq<string>, cursors: seq<Option<Cursor>>, n: nat, next: Option<Cursor>)
    requires Resumed(units, rels, cursors, seq(n, i => SLOW)) && Resumes(units, rels, cursors[n], SLOW, next)
    ensures Resumed(units, rels, cursors + [next], seq(n + 1, i => SLOW))
  {
    hide Known, Resumes;
  }

  /**
   Progress is what fairness needs: over any two or more units there are histories of any length in
   which every unit but one has entries in every run and none of them is ever scanned.
   */
  lemma WithoutProgressUnitsStarve(units: seq<Unit>, rels: seq<string>, n: nat, i: nat)
    requires Known(units, rels) && |units| >= 2 && i < n
    ensures var cursors, order := SlowCursors(units, rels, n), Rotation(units, rels, SlowCursors(units, rels, n)[0]);
            && Resumed(units, rels, cursors, seq(n, i => SLOW)) && order != []
            && forall u, e | u in units && u != order[0] && e in SLOW.entries(u) :: Item(u, e) !in Done(Rotation(units, rels, cursors[i]), SLOW)
  {
    hide Walk, Rotation, Known, Done;
    var cursors := SlowCursors(units, rels, n);
    forall k: nat | k <= i ensures !Progressed(Rotation(units, rels, cursors[k]), SLOW) {
      OrderKnown(units, rels, cursors[k]);
      SlowIsStuck(Rotation(units, rels, cursors[k]));
    }
    StuckForever(units, rels, cursors, seq(n, i => SLOW), i);
  }
}
