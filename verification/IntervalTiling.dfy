/**
 The interval export of scripts/capacity_interval.py for one host, repository and class: point
 samples become intervals that tile time. Time is real, without rounding.
 */
module IntervalTiling {
  import opened Basics
  import opened Sorting

  datatype Key = Key(host: string, repo: string, class_: string)

  /** A supply report: two reports are the same evidence exactly when they are equal as samples. */
  datatype Sample = Sample(key: Key, at: real, source: string, verdict: string, supply: string)

  /** A sample and its place in the input. */
  datatype Row = Row(index: nat, sample: Sample)

  /** `seen` is the report an interval rests on, None in an observation gap. `end` is None when open. */
  datatype Interval = Interval(key: Key, start: real, end: Option<real>, seen: Option<Sample>)

  datatype Piece = Piece(index: nat, interval: Interval)

  predicate ByTime(a: Row, b: Row) { a.sample.at < b.sample.at || (a.sample.at == b.sample.at && a.index <= b.index) }

  lemma ByTimeIsTotal()
    ensures Total(ByTime)
  {
  }

  // ------------------------------------------------------------------------ repeated samples

  /** Repeated evidence is dropped; two different reports for one instant are an error. */
  function Dedup(rows: seq<Row>): Option<seq<Row>> {
    if rows == [] then Some([])
    else
      var last := rows[|rows| - 1];
      match Dedup(rows[..|rows| - 1])
      case None => None
      case Some(d) =>
        if d == [] || d[|d| - 1].sample.at != last.sample.at then Some(d + [last])
        else if d[|d| - 1].sample == last.sample then Some(d)
        else None
  }

  function Samples(rows: seq<Row>): set<Sample> { set r | r in rows :: r.sample }

  predicate Ascending(rows: seq<Row>) { forall i: nat, j: nat | i < j < |rows| :: rows[i].sample.at < rows[j].sample.at }

  /** Two samples of one instant disagree. */
  predicate Conflict(s: set<Sample>) { exists a, b | a in s && b in s :: a.at == b.at && a != b }

  lemma SamplesSnoc(rows: seq<Row>, r: Row)
    ensures Samples(rows + [r]) == Samples(rows) + {r.sample}
  {
    assert forall x :: x in rows + [r] <==> x in rows || x == r;
  }

  lemma MoreEvidence(s: set<Sample>, x: Sample)
    ensures Conflict(s) ==> Conflict(s + {x})
    ensures (forall y | y in s :: y.at < x.at) ==> (Conflict(s + {x}) <==> Conflict(s))
    ensures (exists y :: y in s && y.at == x.at && y != x) ==> Conflict(s + {x})
  {
    if Conflict(s) {
      var a, b :| a in s && b in s && a.at == b.at && a != b;
      assert a in s + {x} && b in s + {x};
    }
    if y :| y in s && y.at == x.at && y != x { assert y in s + {x} && x in s + {x}; }
  }

  ghost predicate Deduped(rows: seq<Row>, d: seq<Row>) {
    && Ascending(d) && Samples(d) == Samples(rows) && (forall r | r in d :: r in rows)
    && (d == [] ==> rows == []) && (rows != [] && d != [] ==> d[|d| - 1].sample.at == rows[|rows| - 1].sample.at)
  }

  /** What is left is strictly ascending evidence with nothing lost; it fails exactly on a conflict. */
  lemma {:induction false} DedupKeepsEvidence(rows: seq<Row>)
    requires SortedBy(ByTime, rows)
    ensures Dedup(rows).None? <==> Conflict(Samples(rows))
    ensures Dedup(rows).Some? ==> Deduped(rows, Dedup(rows).value)
  {
    hide Samples, Conflict;
    if rows == [] {
      NoEvidence();
    } else {
      var rest, last := rows[..|rows| - 1], rows[|rows| - 1];
      DedupKeepsEvidence(rest);
      assert rows == rest + [last];
      SamplesSnoc(rest, last);
      MoreEvidence(Samples(rest), last.sample);
      if Dedup(rest).Some? {
        var d := Dedup(rest).value;
        SamplesSnoc(d, last);
        if d == [] {
          NoEvidence();
        } else {
          LastOf(d);
          assert ByTime(rest[|rest| - 1], last);
          if d[|d| - 1].sample == last.sample { assert Samples(rows) == Samples(rest); }
        }
      }
    }
  }

  lemma NoEvidence()
    ensures Samples([]) == {} && !Conflict(Samples([]))
  {
  }

  lemma LastOf(d: seq<Row>)
    requires Ascending(d) && d != []
    ensures d[|d| - 1].sample in Samples(d)
    ensures forall s | s in Samples(d) :: s.at <= d[|d| - 1].sample.at
    ensures forall s | s in Samples(d) && s.at == d[|d| - 1].sample.at :: s == d[|d| - 1].sample
  {
  }

  // --------------------------------------------------------------------------------- tiling

  /** What one sample contributes: itself until `next`, capped at `gap`, and the rest as a gap. */
  function Split(row: Row, next: Option<real>, gap: real): seq<Piece> {
    var s := row.sample;
    if next.Some? && next.value - s.at <= gap then
      [Piece(row.index, Interval(s.key, s.at, next, Some(s)))]
    else
      [Piece(row.index, Interval(s.key, s.at, Some(s.at + gap), Some(s))),
       Piece(row.index, Interval(s.key, s.at + gap, next, None))]
  }

  function Next(rows: seq<Row>, until: Option<real>): Option<real>
    requires rows != []
  {
    if |rows| > 1 then Some(rows[1].sample.at) else until
  }

  function Tiles(rows: seq<Row>, until: Option<real>, gap: real): seq<Piece> {
    if rows == [] then [] else Split(rows[0], Next(rows, until), gap) + Tiles(rows[1..], until, gap)
  }

  /** `until` does not lie after the last sample. */
  predicate Late(rows: seq<Row>, until: Option<real>) {
    rows != [] && until.Some? && until.value <= rows[|rows| - 1].sample.at
  }

  /** The pieces of one key; None stands for the errors the source raises. */
  function KeyPieces(rows: seq<Row>, until: Option<real>, gap: real): Option<seq<Piece>> {
    match Dedup(Sort(ByTime, rows))
    case None => None
    case Some(d) => if Late(d, until) then None else Some(Tiles(d, until, gap))
  }

  /** The loop that drops repeated evidence. */
  method DedupRows(sorted: seq<Row>) returns (d: Option<seq<Row>>)
    ensures d == Dedup(sorted)
  {
    var kept: seq<Row> := [];
    for i := 0 to |sorted|
      invariant Dedup(sorted[..i]) == Some(kept)
    {
      var row := sorted[i];
      assert sorted[..i + 1][..i] == sorted[..i];
      if kept != [] && row.sample.at == kept[|kept| - 1].sample.at {
        if row.sample == kept[|kept| - 1].sample { continue; }
        Doomed(sorted, i + 1);
        return None;
      }
      kept := kept + [row];
    }
    assert sorted[..|sorted|] == sorted;
    d := Some(kept);
  }

  /** One turn of the loop over the samples of a key. */
  method TileRow(row: Row, next: Option<real>, gap: real) returns (pieces: seq<Piece>)
    ensures pieces == Split(row, next, gap)
  {
    var start := row.sample.at;
    var end := if next.None? || next.value - start > gap then Some(start + gap) else next;
    pieces := [Piece(row.index, Interval(row.sample.key, start, end, Some(row.sample)))];
    if next.None? || end.value < next.value {
      pieces := pieces + [Piece(row.index, Interval(row.sample.key, end.value, next, None))];
    }
  }

  lemma TilesStep(d: seq<Row>, i: nat, until: Option<real>, gap: real)
    requires i < |d|
    ensures Tiles(d[i..], until, gap)
         == Split(d[i], if i + 1 < |d| then Some(d[i + 1].sample.at) else until, gap) + Tiles(d[i + 1..], until, gap)
  {
    assert d[i..][1..] == d[i + 1..];
  }

  lemma NothingTiled(until: Option<real>, gap: real)
    ensures Tiles([], until, gap) == []
  {
  }

  /** The loop that turns each sample into one or two intervals. */
  method TileRows(d: seq<Row>, until: Option<real>, gap: real) returns (r: Option<seq<Piece>>)
    requires Ascending(d)
    ensures r == if Late(d, until) then None else Some(Tiles(d, until, gap))
  {
    hide Split, Tiles;
    var output: seq<Piece> := [];
    assert d[0..] == d;
    NothingTiled(until, gap);
    for i := 0 to |d|
      invariant output + Tiles(d[i..], until, gap) == Tiles(d, until, gap)
      invariant i == |d| ==> !Late(d, until)
    {
      var next := if i + 1 < |d| then Some(d[i + 1].sample.at) else until;
      if next.Some? && next.value <= d[i].sample.at { return None; }
      var pieces := TileRow(d[i], next, gap);
      TilesStep(d, i, until, gap);
      assert (output + pieces) + Tiles(d[i + 1..], until, gap) == output + (pieces + Tiles(d[i + 1..], until, gap));
      output := output + pieces;
    }
    assert d[|d|..] == [] && output + [] == output;
    r := Some(output);
  }

  /** The part of `export_intervals` for one key. */
  method ExportKey(rows: seq<Row>, until: Option<real>, gap: real) returns (r: Option<seq<Piece>>)
    ensures r == KeyPieces(rows, until, gap)
  {
    var sorted := Sort(ByTime, rows);
    ByTimeIsTotal();
    SortSorts(ByTime, rows);
    DedupKeepsEvidence(sorted);
    var d := DedupRows(sorted);
    if d.None? { return None; }
    r := TileRows(d.value, until, gap);
  }

  lemma {:induction false} Doomed(rows: seq<Row>, i: nat)
    requires i <= |rows| && Dedup(rows[..i]).None?
    ensures Dedup(rows).None?
    decreases |rows| - i
  {
    if i < |rows| {
      assert rows[..i + 1][..i] == rows[..i];
      Doomed(rows, i + 1);
    } else {
      assert rows[..i] == rows;
    }
  }

  // ---------------------------------------------------------------------- no gap, no overlap

  /** The pieces cover the time from `from` to `until`, each instant once; an open end stays open. */
  ghost predicate Tiling(ps: seq<Piece>, from: real, until: Option<real>) {
    && ps != [] && ps[0].interval.start == from && ps[|ps| - 1].interval.end == until
    && (forall i: nat | i + 1 < |ps| :: ps[i].interval.end == Some(ps[i + 1].interval.start))
    && (forall i: nat | i < |ps| && ps[i].interval.end.Some? :: ps[i].interval.start < ps[i].interval.end.value)
  }

  lemma TilingConcat(a: seq<Piece>, b: seq<Piece>, from: real, mid: real, until: Option<real>)
    requires Tiling(a, from, Some(mid)) && Tiling(b, mid, until)
    ensures Tiling(a + b, from, until)
  {
  }

  lemma {:induction false} TilesTile(rows: seq<Row>, until: Option<real>, gap: real)
    requires rows != [] && Ascending(rows) && !Late(rows, until) && gap > 0.0
    ensures var ps := Tiles(rows, until, gap);
            Tiling(ps, rows[0].sample.at, until) && (until.None? ==> ps[|ps| - 1].interval.seen.None?)
  {
    hide Tiling;
    var head := Split(rows[0], Next(rows, until), gap);
    SplitTiles(rows[0], Next(rows, until), gap);
    if |rows| == 1 {
      assert rows[1..] == [] && head + [] == head;
    } else {
      TilesTile(rows[1..], until, gap);
      TilingConcat(head, Tiles(rows[1..], until, gap), rows[0].sample.at, rows[1].sample.at, until);
      NotNone(Tiles(rows[1..], until, gap), rows[1].sample.at, until);
    }
  }

  lemma NotNone(ps: seq<Piece>, from: real, until: Option<real>)
    requires Tiling(ps, from, until)
    ensures ps != []
  {
  }

  lemma SplitTiles(row: Row, next: Option<real>, gap: real)
    requires gap > 0.0 && (next.Some? ==> row.sample.at < next.value)
    ensures Tiling(Split(row, next, gap), row.sample.at, next)
    ensures next.None? ==> Split(row, next, gap)[|Split(row, next, gap)| - 1].interval.seen.None?
  {
  }

  predicate Covers(v: Interval, t: real) { v.start <= t && (v.end.Some? ==> t < v.end.value) }

  lemma {:induction false} Apart(ps: seq<Piece>, from: real, until: Option<real>, i: nat, j: nat)
    requires Tiling(ps, from, until) && i < j < |ps|
    ensures ps[i].interval.end.Some? && ps[i].interval.end.value <= ps[j].interval.start
    decreases j
  {
    if i < j - 1 {
      Apart(ps, from, until, i, j - 1);
      assert ps[j - 1].interval.end == Some(ps[j - 1 + 1].interval.start);
    } else {
      assert ps[i].interval.end == Some(ps[i + 1].interval.start);
    }
  }

  lemma {:induction false} AscendingStarts(ps: seq<Piece>, from: real, until: Option<real>, i: nat, j: nat)
    requires Tiling(ps, from, until) && i < j < |ps|
    ensures ps[i].interval.start < ps[j].interval.start
  {
    Apart(ps, from, until, i, j);
  }

  // ------------------------------------------------------------------ what each instant shows

  /** s is the latest sample at or before t. */
  predicate Latest(samples: set<Sample>, s: Sample, t: real) {
    s in samples && s.at <= t && forall x | x in samples && x.at <= t :: x.at <= s.at
  }

  /** The report an instant must show: the latest sample while it is younger than `gap`, else none. */
  ghost predicate Answer(samples: set<Sample>, gap: real, t: real, seen: Option<Sample>) {
    exists s :: Latest(samples, s, t) && seen == if t - s.at < gap then Some(s) else None
  }

  lemma SamplesCons(rows: seq<Row>)
    requires rows != []
    ensures Samples(rows) == {rows[0].sample} + Samples(rows[1..])
  {
    assert forall x :: x in rows <==> x == rows[0] || x in rows[1..];
  }

  lemma {:induction false} CoveredBy(rows: seq<Row>, until: Option<real>, gap: real, t: real) returns (i: nat)
    requires rows != [] && Ascending(rows) && !Late(rows, until) && gap > 0.0
    requires rows[0].sample.at <= t && (until.Some? ==> t < until.value)
    ensures i < |Tiles(rows, until, gap)| && Covers(Tiles(rows, until, gap)[i].interval, t)
    ensures Answer(Samples(rows), gap, t, Tiles(rows, until, gap)[i].interval.seen)
  {
    hide Samples, Late;
    SamplesCons(rows);
    var s, next := rows[0].sample, Next(rows, until);
    var head, rest := Split(rows[0], next, gap), rows[1..];
    assert Tiles(rows, until, gap) == head + Tiles(rest, until, gap);
    if |rows| > 1 && rest[0].sample.at <= t {
      NotLateYet(rows, until);
      var k := CoveredBy(rest, until, gap, t);
      i := |head| + k;
      assert Tiles(rows, until, gap)[i] == Tiles(rest, until, gap)[k];
      var x :| Latest(Samples(rest), x, t) && Tiles(rest, until, gap)[k].interval.seen == if t - x.at < gap then Some(x) else None;
      SamplesCons(rest);
      assert Latest(Samples(rows), x, t);
    } else {
      AllLater(rows, t);
      assert Latest(Samples(rows), s, t);
      i := if t - s.at < gap then 0 else 1;
      assert Tiles(rows, until, gap)[i] == head[i];
    }
  }

  lemma NotLateYet(rows: seq<Row>, until: Option<real>)
    requires |rows| > 1 && !Late(rows, until)
    ensures !Late(rows[1..], until)
  {
  }

  lemma AllLater(rows: seq<Row>, t: real)
    requires rows != [] && Ascending(rows) && (|rows| > 1 ==> t < rows[1].sample.at)
    ensures forall x | x in Samples(rows[1..]) :: t < x.at
  {
    forall x | x in Samples(rows[1..]) ensures t < x.at {
      var k: nat :| k < |rows[1..]| && rows[1..][k].sample == x;
      assert rows[k + 1].sample == x;
    }
  }

  // ---------------------------------------------------------------- only the evidence matters

  lemma DropLast(d: seq<Row>)
    requires Ascending(d) && d != []
    ensures Samples(d[..|d| - 1]) == Samples(d) - {d[|d| - 1].sample}
  {
    var rest, last := d[..|d| - 1], d[|d| - 1];
    assert d == rest + [last];
    SamplesSnoc(rest, last);
  }

  lemma {:induction false} UniqueOrder(a: seq<Row>, b: seq<Row>)
    requires Ascending(a) && Ascending(b) && Samples(a) == Samples(b)
    ensures |a| == |b| && forall i: nat | i < |a| :: a[i].sample == b[i].sample
  {
    hide Samples;
    if a == [] || b == [] {
      NoEvidence();
      if b != [] { LastOf(b); }
      if a != [] { LastOf(a); }
    } else {
      var m, n := |a| - 1, |b| - 1;
      LastOf(a);
      LastOf(b);
      DropLast(a);
      DropLast(b);
      assert a[m].sample == b[n].sample;
      UniqueOrder(a[..m], b[..n]);
      forall i: nat | i < m ensures a[i].sample == b[i].sample {
        assert a[..m][i].sample == b[..n][i].sample;
      }
    }
  }

  predicate SameIntervals(a: seq<Piece>, b: seq<Piece>) {
    |a| == |b| && forall i: nat | i < |a| :: a[i].interval == b[i].interval
  }

  lemma {:induction false} SameTiles(a: seq<Row>, b: seq<Row>, until: Option<real>, gap: real)
    requires |a| == |b| && forall i: nat | i < |a| :: a[i].sample == b[i].sample
    ensures SameIntervals(Tiles(a, until, gap), Tiles(b, until, gap))
  {
    hide Split, SameIntervals;
    if a == [] {
      NoIntervals();
    } else {
      SameTiles(a[1..], b[1..], until, gap);
      assert Next(a, until) == Next(b, until);
      var next := Next(a, until);
      SameSplit(a[0], b[0], next, gap);
      SameConcat(Split(a[0], next, gap), Split(b[0], next, gap), Tiles(a[1..], until, gap), Tiles(b[1..], until, gap));
    }
  }

  lemma NoIntervals()
    ensures SameIntervals([], [])
  {
  }

  lemma SameSplit(a: Row, b: Row, next: Option<real>, gap: real)
    requires a.sample == b.sample
    ensures SameIntervals(Split(a, next, gap), Split(b, next, gap))
  {
  }

  lemma SameConcat(a: seq<Piece>, b: seq<Piece>, c: seq<Piece>, d: seq<Piece>)
    requires SameIntervals(a, b) && SameIntervals(c, d)
    ensures SameIntervals(a + c, b + d)
  {
  }

  lemma SortedSamples(rows: seq<Row>)
    ensures SortedBy(ByTime, Sort(ByTime, rows)) && Samples(Sort(ByTime, rows)) == Samples(rows)
  {
    ByTimeIsTotal();
    SortSorts(ByTime, rows);
    forall r ensures r in Sort(ByTime, rows) <==> r in rows { SortMembers(ByTime, rows, r); }
  }

  /** Permuting the input, repeating identical samples and renumbering change no interval and no error. */
  lemma OnlyTheEvidenceMatters(a: seq<Row>, b: seq<Row>, until: Option<real>, gap: real)
    requires Samples(a) == Samples(b)
    ensures KeyPieces(a, until, gap).None? <==> KeyPieces(b, until, gap).None?
    ensures KeyPieces(a, until, gap).Some? ==> SameIntervals(KeyPieces(a, until, gap).value, KeyPieces(b, until, gap).value)
  {
    hide Samples, Conflict, Tiles, SameIntervals, Ascending, Dedup;
    SortedSamples(a);
    SortedSamples(b);
    var x, y := Sort(ByTime, a), Sort(ByTime, b);
    DedupKeepsEvidence(x);
    DedupKeepsEvidence(y);
    if Dedup(x).Some? {
      UniqueOrder(Dedup(x).value, Dedup(y).value);
      assert Late(Dedup(x).value, until) <==> Late(Dedup(y).value, until);
      SameTiles(Dedup(x).value, Dedup(y).value, until, gap);
    }
  }

  // --------------------------------------------------------------------------- the main result

  /** The export of a key fails exactly on conflicting evidence or an `until` that is not behind it. */
  lemma WhenAKeyFails(rows: seq<Row>, until: Option<real>, gap: real)
    ensures KeyPieces(rows, until, gap).None? <==>
      Conflict(Samples(rows)) || (until.Some? && exists s :: s in Samples(rows) && until.value <= s.at)
  {
    hide Samples, Conflict, Tiles;
    SortedSamples(rows);
    var x := Sort(ByTime, rows);
    DedupKeepsEvidence(x);
    if Dedup(x).Some? {
      var d := Dedup(x).value;
      if d != [] { LastOf(d); } else { assert x == []; NoEvidence(); }
    }
  }

  /**
   Otherwise the intervals tile time from the first sample to `until`, or to an open unknown tail;
   and every instant in between lies in exactly one of them, which shows the latest sample at or
   before it while that sample is younger than `gap`, and unknown after that.
   */
  lemma EveryInstantIsAnswered(rows: seq<Row>, until: Option<real>, gap: real, t: real) returns (i: nat)
    requires rows != [] && gap > 0.0 && KeyPieces(rows, until, gap).Some?
    requires (exists s :: s in Samples(rows) && s.at <= t) && (until.Some? ==> t < until.value)
    ensures var ps := KeyPieces(rows, until, gap).value;
            && (exists s :: s in Samples(rows) && Tiling(ps, s.at, until) && forall x | x in Samples(rows) :: s.at <= x.at)
            && (until.None? ==> ps[|ps| - 1].interval.seen.None?)
            && i < |ps| && Covers(ps[i].interval, t) && Answer(Samples(rows), gap, t, ps[i].interval.seen)
            && forall j: nat | j < |ps| && Covers(ps[j].interval, t) :: j == i
  {
    hide Conflict, Tiles, Tiling, Answer;
    SortedSamples(rows);
    var sorted := Sort(ByTime, rows);
    DedupKeepsEvidence(sorted);
    var d := Dedup(sorted).value;
    var ps := Tiles(d, until, gap);
    assert d != [];
    FirstOf(d);
    TilesTile(d, until, gap);
    i := CoveredBy(d, until, gap, t);
    forall j: nat | j < |ps| && Covers(ps[j].interval, t) ensures j == i {
      if i < j { Apart(ps, d[0].sample.at, until, i, j); }
      if j < i { Apart(ps, d[0].sample.at, until, j, i); }
    }
  }

  lemma FirstOf(d: seq<Row>)
    requires Ascending(d) && d != []
    ensures d[0].sample in Samples(d) && forall s | s in Samples(d) :: d[0].sample.at <= s.at
  {
  }
}
