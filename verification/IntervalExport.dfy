/**
 The parts of `export_intervals` of scripts/capacity_interval.py: grouping, the checks over all
 samples, and the final order, which keeps the intervals of each key together in time.
 */
module IntervalExport {
  import opened Basics
  import opened Sorting
  import opened IntervalTiling

  /** An input report: valid, a producer's error envelope with its clock field, or neither. */
  datatype Report = Valid(sample: Sample) | Diagnostic(source: Option<string>) | Malformed

  datatype Result = Failed | Exported(intervals: seq<Interval>, diagnostics: seq<Report>)

  function ValidOf(reports: seq<Report>): seq<Sample> {
    if reports == [] then []
    else
      var last := reports[|reports| - 1];
      ValidOf(reports[..|reports| - 1]) + if last.Valid? then [last.sample] else []
  }

  function DiagnosticsOf(reports: seq<Report>): seq<Report> {
    if reports == [] then []
    else
      var last := reports[|reports| - 1];
      DiagnosticsOf(reports[..|reports| - 1]) + if last.Diagnostic? then [last] else []
  }

  /** The clock fields in use. */
  function Sources(reports: seq<Report>): set<string> {
    (set r | r in reports && r.Valid? :: r.sample.source)
    + (set r | r in reports && r.Diagnostic? && r.source.Some? :: r.source.value)
  }

  function RowsFor(samples: seq<Sample>, key: Key): seq<Row> {
    if samples == [] then []
    else
      var n := |samples| - 1;
      RowsFor(samples[..n], key) + if samples[n].key == key then [Row(n, samples[n])] else []
  }

  predicate ByStart(a: Piece, b: Piece) {
    a.interval.start < b.interval.start || (a.interval.start == b.interval.start && a.index <= b.index)
  }

  lemma ByStartIsTotal()
    ensures Total(ByStart)
  {
  }

  function OfKey(ps: seq<Piece>, key: Key): seq<Piece> {
    if ps == [] then []
    else
      var n := |ps| - 1;
      OfKey(ps[..n], key) + if ps[n].interval.key == key then [ps[n]] else []
  }

  function Intervals(ps: seq<Piece>): (vs: seq<Interval>)
    ensures |vs| == |ps| && forall i: nat | i < |ps| :: vs[i] == ps[i].interval
  {
    seq(|ps|, i requires 0 <= i < |ps| => ps[i].interval)
  }

  // ------------------------------------------------------------- sorting keeps a key in order

  lemma {:induction false} OfKeyConcat(a: seq<Piece>, b: seq<Piece>, key: Key)
    ensures OfKey(a + b, key) == OfKey(a, key) + OfKey(b, key)
  {
    if b == [] {
      assert a + b == a;
    } else {
      var n := |b| - 1;
      assert (a + b)[..|a| + n] == a + b[..n];
      OfKeyConcat(a, b[..n], key);
    }
  }

  lemma {:induction false} OfKeyAll(ps: seq<Piece>, key: Key, of: Key)
    requires forall p | p in ps :: p.interval.key == of
    ensures OfKey(ps, key) == if key == of then ps else []
  {
    if ps != [] { OfKeyAll(ps[..|ps| - 1], key, of); }
  }

  lemma {:induction false} OfKeyCounts(ps: seq<Piece>, key: Key, p: Piece)
    ensures multiset(OfKey(ps, key))[p] == if p.interval.key == key then multiset(ps)[p] else 0
  {
    if ps != [] {
      OfKeyCounts(ps[..|ps| - 1], key, p);
      assert ps == ps[..|ps| - 1] + [ps[|ps| - 1]];
    }
  }

  lemma {:induction false} OfKeySorted(ps: seq<Piece>, key: Key)
    requires SortedBy(ByStart, ps)
    ensures SortedBy(ByStart, OfKey(ps, key)) && forall p | p in OfKey(ps, key) :: p in ps
  {
    if ps != [] {
      var n := |ps| - 1;
      OfKeySorted(ps[..n], key);
      forall p | p in OfKey(ps[..n], key) ensures p in ps && ByStart(p, ps[n]) {
        var k :| 0 <= k < n && ps[..n][k] == p;
      }
    }
  }

  ghost predicate Rising(ps: seq<Piece>) {
    forall i: nat, j: nat | i < j < |ps| :: ps[i].interval.start < ps[j].interval.start
  }

  /** Pieces with rising starts have only one sorted order. */
  lemma {:induction false} OneOrder(a: seq<Piece>, b: seq<Piece>)
    requires Rising(a) && SortedBy(ByStart, b) && multiset(a) == multiset(b)
    ensures a == b
  {
    hide ByStart;
    assert |a| == |multiset(a)| == |b|;
    if a != [] {
      var n := |a| - 1;
      SameLast(a, b);
      DropBoth(a, b, n);
      OneOrder(a[..n], b[..n]);
      assert a == a[..n] + [a[n]];
    }
  }

  lemma DropBoth(a: seq<Piece>, b: seq<Piece>, n: nat)
    requires multiset(a) == multiset(b) && |a| == |b| == n + 1 && a[n] == b[n]
    ensures multiset(a[..n]) == multiset(b[..n])
  {
    assert a == a[..n] + [a[n]] && b == b[..n] + [b[n]];
    assert multiset(a) == multiset(a[..n]) + multiset{a[n]};
    assert multiset(b) == multiset(b[..n]) + multiset{a[n]};
    var x, y := multiset(a[..n]), multiset(b[..n]);
    assert x == multiset(a) - multiset{a[n]} && y == multiset(b) - multiset{a[n]};
  }

  lemma SameLast(a: seq<Piece>, b: seq<Piece>)
    requires Rising(a) && SortedBy(ByStart, b) && multiset(a) == multiset(b) && |a| == |b| > 0
    ensures a[|a| - 1] == b[|a| - 1]
  {
    var n := |a| - 1;
    assert a[n] in multiset(b) && b[n] in multiset(a);
    var i: nat :| i < |a| && a[i] == b[n];
    var j: nat :| j < |b| && b[j] == a[n];
    assert j < n ==> ByStart(b[j], b[n]);
  }

  lemma SortKeepsKeys(ps: seq<Piece>, key: Key)
    requires Rising(OfKey(ps, key))
    ensures OfKey(Sort(ByStart, ps), key) == OfKey(ps, key)
  {
    ByStartIsTotal();
    SortSorts(ByStart, ps);
    var sorted := Sort(ByStart, ps);
    OfKeySorted(sorted, key);
    forall p ensures multiset(OfKey(ps, key))[p] == multiset(OfKey(sorted, key))[p] {
      OfKeyCounts(ps, key, p);
      OfKeyCounts(sorted, key, p);
    }
    OneOrder(OfKey(ps, key), OfKey(sorted, key));
  }

  // ------------------------------------------------------------------------- pieces of a key

  lemma {:induction false} RowsForKey(samples: seq<Sample>, key: Key)
    ensures forall r | r in RowsFor(samples, key) :: r.sample.key == key && r.sample in samples
    ensures forall s | s in samples && s.key == key :: s in Samples(RowsFor(samples, key))
  {
    if samples != [] {
      var n := |samples| - 1;
      RowsForKey(samples[..n], key);
      var rest := RowsFor(samples[..n], key);
      SamplesSnoc(rest, Row(n, samples[n]));
    }
  }

  lemma {:induction false} TilesOfKey(rows: seq<Row>, until: Option<real>, gap: real, key: Key)
    requires forall r | r in rows :: r.sample.key == key
    ensures forall p | p in Tiles(rows, until, gap) :: p.interval.key == key
  {
    if rows != [] {
      assert rows[0] in rows;
      TilesOfKey(rows[1..], until, gap, key);
    }
  }

  lemma PiecesOfKey(rows: seq<Row>, until: Option<real>, gap: real, key: Key)
    requires gap > 0.0 && KeyPieces(rows, until, gap).Some? && forall r | r in rows :: r.sample.key == key
    ensures Rising(KeyPieces(rows, until, gap).value)
    ensures forall p | p in KeyPieces(rows, until, gap).value :: p.interval.key == key
  {
    hide Tiles, Tiling;
    SortedSamples(rows);
    var sorted := Sort(ByTime, rows);
    DedupKeepsEvidence(sorted);
    var d := Dedup(sorted).value;
    var ps := Tiles(d, until, gap);
    forall r | r in d ensures r.sample.key == key {
      ByTimeIsTotal();
      SortMembers(ByTime, rows, r);
    }
    TilesOfKey(d, until, gap, key);
    if d == [] {
      NothingTiled(until, gap);
    } else {
      TilesTile(d, until, gap);
      forall i: nat, j: nat | i < j < |ps| ensures ps[i].interval.start < ps[j].interval.start {
        AscendingStarts(ps, d[0].sample.at, until, i, j);
      }
    }
  }

  // -------------------------------------------------------------------------------- the export

  /** Everything the export refuses. */
  ghost predicate Refused(reports: seq<Report>, until: Option<real>, gap: real) {
    || gap <= 0.0 || Malformed in reports || |Sources(reports)| > 1
    || exists key :: KeyPieces(RowsFor(ValidOf(reports), key), until, gap).None?
  }

  /** The first loop: keep valid samples and producer errors, and fail on anything else. */
  method Sift(reports: seq<Report>) returns (ok: bool, samples: seq<Sample>, diagnostics: seq<Report>, sources: set<string>)
    ensures ok <==> Malformed !in reports
    ensures ok ==> samples == ValidOf(reports) && diagnostics == DiagnosticsOf(reports) && sources == Sources(reports)
  {
    samples, diagnostics, sources := [], [], {};
    for i := 0 to |reports|
      invariant samples == ValidOf(reports[..i]) && diagnostics == DiagnosticsOf(reports[..i])
      invariant sources == Sources(reports[..i]) && Malformed !in reports[..i]
    {
      assert reports[..i + 1] == reports[..i] + [reports[i]];
      assert reports[..i + 1][..i] == reports[..i];
      SourcesSnoc(reports[..i], reports[i]);
      match reports[i]
      case Valid(s) =>
        samples, sources := samples + [s], sources + {s.source};
      case Diagnostic(source) =>
        diagnostics := diagnostics + [reports[i]];
        if source.Some? { sources := sources + {source.value}; }
      case Malformed => return false, [], [], {};
    }
    assert reports[..|reports|] == reports;
    ok := true;
  }

  lemma SourcesSnoc(reports: seq<Report>, r: Report)
    ensures Sources(reports + [r]) == Sources(reports) + match r {
      case Valid(s) => {s.source}
      case Diagnostic(source) => if source.Some? then {source.value} else {}
      case Malformed => {}
    }
  {
    assert forall x :: x in reports + [r] <==> x in reports || x == r;
  }

  function Get(grouped: map<Key, seq<Row>>, key: Key): seq<Row> { if key in grouped then grouped[key] else [] }

  /** The grouping loop: `keys` is the order in which the dictionary gained them. */
  method Group(samples: seq<Sample>) returns (grouped: map<Key, seq<Row>>, keys: seq<Key>)
    ensures forall key :: Get(grouped, key) == RowsFor(samples, key)
    ensures (forall key :: key in keys <==> key in grouped) && forall i: nat, j: nat | i < j < |keys| :: keys[i] != keys[j]
  {
    grouped, keys := map[], [];
    for i := 0 to |samples|
      invariant forall key :: Get(grouped, key) == RowsFor(samples[..i], key)
      invariant (forall key :: key in keys <==> key in grouped) && forall i: nat, j: nat | i < j < |keys| :: keys[i] != keys[j]
    {
      assert samples[..i + 1][..i] == samples[..i];
      var key := samples[i].key;
      var rows := Get(grouped, key);
      if key !in grouped { keys := keys + [key]; }
      grouped := grouped[key := rows + [Row(i, samples[i])]];
    }
    assert samples[..|samples|] == samples;
  }

  /** The pieces of the first keys, one key after the other. */
  ghost predicate Gathered(samples: seq<Sample>, until: Option<real>, gap: real, keys: seq<Key>, output: seq<Piece>) {
    && (forall key | key in keys :: KeyPieces(RowsFor(samples, key), until, gap).Some?)
    && (forall key :: OfKey(output, key) == if key in keys then KeyPieces(RowsFor(samples, key), until, gap).value else [])
  }

  lemma GatherOne(samples: seq<Sample>, until: Option<real>, gap: real, keys: seq<Key>, output: seq<Piece>, key: Key)
    requires gap > 0.0 && Gathered(samples, until, gap, keys, output) && key !in keys
    requires KeyPieces(RowsFor(samples, key), until, gap).Some?
    ensures Gathered(samples, until, gap, keys + [key], output + KeyPieces(RowsFor(samples, key), until, gap).value)
  {
    hide KeyPieces;
    var ps := KeyPieces(RowsFor(samples, key), until, gap).value;
    RowsForKey(samples, key);
    PiecesOfKey(RowsFor(samples, key), until, gap, key);
    forall k ensures OfKey(output + ps, k) == OfKey(output, k) + if k == key then ps else [] {
      OfKeyConcat(output, ps, k);
      OfKeyAll(ps, k, key);
    }
  }

  lemma NothingToTile(until: Option<real>, gap: real)
    ensures KeyPieces([], until, gap) == Some([])
  {
  }

  lemma NoPieces()
    ensures forall key :: OfKey([], key) == []
  {
  }

  lemma OutputOrder(samples: seq<Sample>, until: Option<real>, gap: real, output: seq<Piece>, key: Key)
    requires gap > 0.0 && KeyPieces(RowsFor(samples, key), until, gap) == Some(OfKey(output, key))
    ensures OfKey(Sort(ByStart, output), key) == OfKey(output, key)
  {
    RowsForKey(samples, key);
    PiecesOfKey(RowsFor(samples, key), until, gap, key);
    SortKeepsKeys(output, key);
  }
}
