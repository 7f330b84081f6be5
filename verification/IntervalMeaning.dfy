/**
 `export_intervals` of scripts/capacity_interval.py as a whole, and what it means in terms of the
 reports alone: when it is refused, and which report every instant of every key shows.
 */
module IntervalMeaning {
  import opened Basics
  import opened Sorting
  import opened IntervalTiling
  import opened IntervalExport

  /** The valid reports of one key. */
  function Evidence(reports: seq<Report>, key: Key): set<Sample> {
    set r | r in reports && r.Valid? && r.sample.key == key :: r.sample
  }

  lemma {:induction false} ValidMembers(reports: seq<Report>, s: Sample)
    ensures s in ValidOf(reports) <==> Valid(s) in reports
  {
    if reports != [] {
      ValidMembers(reports[..|reports| - 1], s);
      assert reports == reports[..|reports| - 1] + [reports[|reports| - 1]];
    }
  }

  lemma SamplesOfKey(reports: seq<Report>, key: Key)
    ensures Samples(RowsFor(ValidOf(reports), key)) == Evidence(reports, key)
  {
    RowsForKey(ValidOf(reports), key);
    forall s ensures s in Samples(RowsFor(ValidOf(reports), key)) <==> s in Evidence(reports, key) {
      ValidMembers(reports, s);
      if s in Evidence(reports, key) { assert Valid(s) in reports; }
    }
  }

  // ------------------------------------------------------------------------ when it is refused

  /** A report that is dated by this clock field. */
  ghost predicate DatedBy(reports: seq<Report>, source: string) {
    exists r :: r in reports && ((r.Valid? && r.sample.source == source) || (r.Diagnostic? && r.source == Some(source)))
  }

  /** Two different reports of one key and instant. */
  ghost predicate Contradiction(reports: seq<Report>, a: Sample, b: Sample) {
    Valid(a) in reports && Valid(b) in reports && a.key == b.key && a.at == b.at && a != b
  }

  lemma TwoSources(reports: seq<Report>)
    ensures |Sources(reports)| > 1 <==> exists x, y :: DatedBy(reports, x) && DatedBy(reports, y) && x != y
  {
    var all := Sources(reports);
    forall x ensures x in all <==> DatedBy(reports, x) { }
    if |all| > 1 {
      var x :| x in all;
      assert |all - {x}| > 0;
      var y :| y in all - {x};
    }
    if x, y :| DatedBy(reports, x) && DatedBy(reports, y) && x != y {
      assert {x, y} <= all;
      assert |all| >= |{x, y}| by { assert |all| == |all - {x, y}| + |{x, y}|; }
    }
  }

  ghost predicate Fails(reports: seq<Report>, until: Option<real>, key: Key) {
    || (exists a, b :: Contradiction(reports, a, b) && a.key == key)
    || (until.Some? && exists a :: Valid(a) in reports && a.key == key && until.value <= a.at)
  }

  lemma KeyFails(reports: seq<Report>, until: Option<real>, gap: real, key: Key)
    ensures KeyPieces(RowsFor(ValidOf(reports), key), until, gap).None? <==> Fails(reports, until, key)
  {
    hide KeyPieces, RowsFor, ValidOf, Samples;
    WhenAKeyFails(RowsFor(ValidOf(reports), key), until, gap);
    SamplesOfKey(reports, key);
    var all := Evidence(reports, key);
    forall s ensures s in all <==> Valid(s) in reports && s.key == key { }
    if Conflict(all) {
      var a, b :| a in all && b in all && a.at == b.at && a != b;
      assert Contradiction(reports, a, b);
    }
  }

  /**
   An export is refused exactly for a gap that is not positive, a malformed report, two clock fields,
   two different reports of one key and instant, or an end that is not after every report.
   */
  lemma RefusedMeans(reports: seq<Report>, until: Option<real>, gap: real)
    ensures Refused(reports, until, gap) <==>
      || gap <= 0.0 || Malformed in reports
      || (exists x, y :: DatedBy(reports, x) && DatedBy(reports, y) && x != y)
      || (exists a, b :: Contradiction(reports, a, b))
      || (until.Some? && exists a :: Valid(a) in reports && until.value <= a.at)
  {
    hide Sources, DatedBy, KeyPieces, RowsFor, ValidOf, Samples;
    TwoSources(reports);
    forall key ensures KeyPieces(RowsFor(ValidOf(reports), key), until, gap).None? <==> Fails(reports, until, key) {
      KeyFails(reports, until, gap, key);
    }
    if a, b :| Contradiction(reports, a, b) {
      assert KeyPieces(RowsFor(ValidOf(reports), a.key), until, gap).None?;
    }
    if a :| Valid(a) in reports && until.Some? && until.value <= a.at {
      assert KeyPieces(RowsFor(ValidOf(reports), a.key), until, gap).None?;
    }
  }

  // ------------------------------------------------------------------- the intervals of one key

  /** Where piece k stands among those of its key. */
  lemma PlaceOf(ps: seq<Piece>, key: Key, k: nat)
    requires k < |ps| && ps[k].interval.key == key
    ensures |OfKey(ps[..k], key)| < |OfKey(ps, key)| && OfKey(ps, key)[|OfKey(ps[..k], key)|] == ps[k]
  {
    assert ps == ps[..k] + [ps[k]] + ps[k + 1..];
    OfKeyConcat(ps[..k] + [ps[k]], ps[k + 1..], key);
    OfKeyConcat(ps[..k], [ps[k]], key);
    assert OfKey([ps[k]], key) == [ps[k]] by { assert [ps[k]][..0] == []; }
  }

  lemma PlacesRise(ps: seq<Piece>, key: Key, k: nat, m: nat)
    requires k < m < |ps| && ps[k].interval.key == key
    ensures |OfKey(ps[..k], key)| < |OfKey(ps[..m], key)|
  {
    PlaceOf(ps[..m], key, k);
    assert ps[..m][..k] == ps[..k];
  }

  lemma {:induction false} PieceAt(ps: seq<Piece>, key: Key, i: nat) returns (k: nat)
    requires i < |OfKey(ps, key)|
    ensures k < |ps| && ps[k] == OfKey(ps, key)[i] && ps[k].interval.key == key
  {
    var n := |ps| - 1;
    if i < |OfKey(ps[..n], key)| { k := PieceAt(ps[..n], key, i); } else { k := n; }
  }

  // -------------------------------------------------------------------- what the export answers

  /** Interval i is the one that covers instant t for this key, and it shows what is known then. */
  ghost predicate ShownBy(vs: seq<Interval>, key: Key, evidence: set<Sample>, gap: real, t: real, i: nat) {
    && i < |vs| && vs[i].key == key && Covers(vs[i], t)
    && (forall j: nat | j < |vs| && vs[j].key == key && Covers(vs[j], t) :: j == i)
    && (vs[i].seen.Some? ==> Latest(evidence, vs[i].seen.value, t) && t - vs[i].seen.value.at < gap)
    && (vs[i].seen.None? ==> forall s | s in evidence && s.at <= t :: t - s.at >= gap)
  }

  /** A report of this key is not later than t, and the end is. */
  ghost predicate InReach(reports: seq<Report>, until: Option<real>, key: Key, t: real) {
    (exists s :: s in Evidence(reports, key) && s.at <= t) && (until.Some? ==> t < until.value)
  }

  lemma Shown(reports: seq<Report>, until: Option<real>, gap: real, ps: seq<Piece>, key: Key, t: real) returns (i: nat)
    requires gap > 0.0 && Some(OfKey(ps, key)) == KeyPieces(RowsFor(ValidOf(reports), key), until, gap)
    requires InReach(reports, until, key, t)
    ensures ShownBy(Intervals(ps), key, Evidence(reports, key), gap, t, i)
  {
    hide KeyPieces, RowsFor, OfKey, Samples, Evidence, Tiling;
    var rows := RowsFor(ValidOf(reports), key);
    SamplesOfKey(reports, key);
    assert rows != [] by { NoEvidence(); }
    var place := EveryInstantIsAnswered(rows, until, gap, t);
    i := PieceAt(ps, key, place);
    PlaceOf(ps, key, i);
    var at := |OfKey(ps[..i], key)|;
    assert at == place;
    forall j: nat | j < |ps| && ps[j].interval.key == key && Covers(ps[j].interval, t) ensures j == i {
      PlaceOf(ps, key, j);
      if j < i { PlacesRise(ps, key, j, i); }
      if i < j { PlacesRise(ps, key, i, j); }
    }
  }

  /** No interval reaches further than the evidence of its key and the end, and none is empty. */
  ghost predicate Within(reports: seq<Report>, until: Option<real>, v: Interval) {
    && (v.end.Some? ==> v.start < v.end.value)
    && (exists s :: s in Evidence(reports, v.key) && s.at <= v.start)
    && (until.Some? ==> v.end.Some? && v.end.value <= until.value)
  }

  lemma InTiling(ps: seq<Piece>, from: real, until: Option<real>, i: nat)
    requires Tiling(ps, from, until) && i < |ps|
    ensures from <= ps[i].interval.start
    ensures until.Some? ==> ps[i].interval.end.Some? && ps[i].interval.end.value <= until.value
  {
    if i > 0 { AscendingStarts(ps, from, until, 0, i); }
    if i < |ps| - 1 {
      Apart(ps, from, until, i, |ps| - 1);
      assert until.Some? ==> ps[|ps| - 1].interval.start < ps[|ps| - 1].interval.end.value;
    }
  }

  lemma StaysWithin(reports: seq<Report>, until: Option<real>, gap: real, ps: seq<Piece>, k: nat)
    requires gap > 0.0 && k < |ps|
    requires Some(OfKey(ps, ps[k].interval.key)) == KeyPieces(RowsFor(ValidOf(reports), ps[k].interval.key), until, gap)
    ensures Within(reports, until, ps[k].interval)
  {
    hide KeyPieces, RowsFor, OfKey, Samples, Evidence;
    var key := ps[k].interval.key;
    var rows := RowsFor(ValidOf(reports), key);
    SamplesOfKey(reports, key);
    PlaceOf(ps, key, k);
    if rows == [] { NothingToTile(until, gap); }
    SampleOf(rows);
    WhenAKeyFails(rows, until, gap);
    var i := EveryInstantIsAnswered(rows, until, gap, rows[0].sample.at);
    var s :| s in Samples(rows) && Tiling(OfKey(ps, key), s.at, until) && forall x | x in Samples(rows) :: s.at <= x.at;
    InTiling(OfKey(ps, key), s.at, until, |OfKey(ps[..k], key)|);
  }

  lemma SampleOf(rows: seq<Row>)
    ensures rows != [] ==> rows[0].sample in Samples(rows)
  {
  }

  /** The piece rests on the sample at its place in the input. */
  predicate RestsOn(samples: seq<Sample>, p: Piece) {
    && p.index < |samples| && samples[p.index].key == p.interval.key && samples[p.index].at <= p.interval.start
    && (p.interval.seen.Some? ==> p.interval.seen.value == samples[p.index])
  }

  predicate Numbered(samples: seq<Sample>, rows: seq<Row>) {
    forall r | r in rows :: r.index < |samples| && samples[r.index] == r.sample
  }

  lemma {:induction false} RowsNumbered(samples: seq<Sample>, n: nat, key: Key)
    requires n <= |samples|
    ensures Numbered(samples, RowsFor(samples[..n], key))
  {
    if n > 0 {
      RowsNumbered(samples, n - 1, key);
      assert samples[..n][..n - 1] == samples[..n - 1];
    }
  }

  lemma {:induction false} TilesRest(samples: seq<Sample>, rows: seq<Row>, until: Option<real>, gap: real)
    requires gap > 0.0 && Numbered(samples, rows)
    ensures forall p | p in Tiles(rows, until, gap) :: RestsOn(samples, p)
  {
    if rows != [] {
      assert rows[0] in rows && forall r | r in rows[1..] :: r in rows;
      TilesRest(samples, rows[1..], until, gap);
    }
  }

  /** So intervals that begin together stand in input order. */
  lemma PiecesRest(samples: seq<Sample>, key: Key, until: Option<real>, gap: real, ps: seq<Piece>, k: nat)
    requires gap > 0.0 && k < |ps| && ps[k].interval.key == key
    requires Some(OfKey(ps, key)) == KeyPieces(RowsFor(samples, key), until, gap)
    ensures RestsOn(samples, ps[k])
  {
    hide RowsFor, OfKey, Tiles;
    var rows := RowsFor(samples, key);
    var sorted := Sort(ByTime, rows);
    RowsNumbered(samples, |samples|, key);
    assert samples[..|samples|] == samples;
    SortedSamples(rows);
    DedupKeepsEvidence(sorted);
    ByTimeIsTotal();
    forall r | r in Dedup(sorted).value ensures r in rows { SortMembers(ByTime, rows, r); }
    TilesRest(samples, Dedup(sorted).value, until, gap);
    PlaceOf(ps, key, k);
  }

  /** Every instant in reach is shown exactly once for its key, and nothing else is. */
  ghost predicate Answers(reports: seq<Report>, until: Option<real>, gap: real, vs: seq<Interval>) {
    && (forall key, t | InReach(reports, until, key, t) :: exists i :: ShownBy(vs, key, Evidence(reports, key), gap, t, i))
    && forall i: nat | i < |vs| :: Within(reports, until, vs[i])
  }

  lemma ExportAnswers(reports: seq<Report>, until: Option<real>, gap: real, ps: seq<Piece>)
    requires gap > 0.0 && forall key :: Some(OfKey(ps, key)) == KeyPieces(RowsFor(ValidOf(reports), key), until, gap)
    ensures Answers(reports, until, gap, Intervals(ps))
  {
    hide KeyPieces, RowsFor, OfKey, Evidence, ShownBy, InReach, Within;
    forall key, t | InReach(reports, until, key, t)
      ensures exists i :: ShownBy(Intervals(ps), key, Evidence(reports, key), gap, t, i)
    {
      var i := Shown(reports, until, gap, ps, key, t);
    }
    forall i: nat | i < |ps| ensures Within(reports, until, ps[i].interval) { StaysWithin(reports, until, gap, ps, i); }
  }

  /**
   `export_intervals`. It fails exactly when refused. Otherwise every instant within reach of a key is
   shown by exactly one interval of that key, with the latest report while it is young enough; the
   intervals of a key, read in output order, are its tiling; and the diagnostics follow in input order.
   */
  method Export(reports: seq<Report>, until: Option<real>, gap: real) returns (r: Result)
    ensures r.Failed? <==> Refused(reports, until, gap)
    ensures r.Exported? ==> Answers(reports, until, gap, r.intervals)
    ensures r.Exported? ==> forall i: nat, j: nat | i < j < |r.intervals| :: r.intervals[i].start <= r.intervals[j].start
    ensures r.Exported? ==>
      && r.diagnostics == DiagnosticsOf(reports)
      && exists ps :: r.intervals == Intervals(ps) && SortedBy(ByStart, ps) && (forall p | p in ps :: RestsOn(ValidOf(reports), p))
                      && forall key :: Some(OfKey(ps, key)) == KeyPieces(RowsFor(ValidOf(reports), key), until, gap)
  {
    hide KeyPieces, RowsFor, OfKey, Intervals, ByStart, Sources, Answers, RestsOn;
    if gap <= 0.0 { return Failed; }
    var ok, samples, diagnostics, sources := Sift(reports);
    if !ok || |sources| > 1 { return Failed; }
    var grouped, keys := Group(samples);
    var output: seq<Piece> := [];
    NoPieces();
    for i := 0 to |keys|
      invariant Gathered(samples, until, gap, keys[..i], output)
    {
      assert keys[i] in keys;
      assert grouped[keys[i]] == Get(grouped, keys[i]);
      var pieces := ExportKey(grouped[keys[i]], until, gap);
      if pieces.None? { return Failed; }
      assert keys[..i + 1] == keys[..i] + [keys[i]];
      GatherOne(samples, until, gap, keys[..i], output, keys[i]);
      output := output + pieces.value;
    }
    assert keys[..|keys|] == keys;
    var sorted := Sort(ByStart, output);
    ByStartIsTotal();
    SortSorts(ByStart, output);
    forall key ensures Some(OfKey(sorted, key)) == KeyPieces(RowsFor(samples, key), until, gap) {
      NothingToTile(until, gap);
      assert Get(grouped, key) == RowsFor(samples, key);
      OutputOrder(samples, until, gap, output, key);
    }
    ExportAnswers(reports, until, gap, sorted);
    InOrder(sorted);
    forall p | p in sorted ensures RestsOn(samples, p) {
      var k: nat :| k < |sorted| && sorted[k] == p;
      PiecesRest(samples, p.interval.key, until, gap, sorted, k);
    }
    r := Exported(Intervals(sorted), diagnostics);
  }

  lemma InOrder(ps: seq<Piece>)
    requires SortedBy(ByStart, ps)
    ensures forall i: nat, j: nat | i < j < |ps| :: Intervals(ps)[i].start <= Intervals(ps)[j].start
  {
    forall i: nat, j: nat | i < j < |ps| ensures ps[i].interval.start <= ps[j].interval.start { assert ByStart(ps[i], ps[j]); }
  }

  lemma OneMoreDiagnostic(reports: seq<Report>, r: Report)
    ensures DiagnosticsOf(reports + [r]) == DiagnosticsOf(reports) + if r.Diagnostic? then [r] else []
  {
    assert (reports + [r])[..|reports|] == reports;
  }

  /** Diagnostics are kept, in order, and nothing else. */
  lemma {:induction false} DiagnosticsInOrder(a: seq<Report>, b: seq<Report>, r: Report)
    ensures DiagnosticsOf(a + b) == DiagnosticsOf(a) + DiagnosticsOf(b)
    ensures DiagnosticsOf([r]) == if r.Diagnostic? then [r] else []
  {
    OneMoreDiagnostic([], r);
    assert [] + [r] == [r];
    if b == [] {
      assert a + b == a;
    } else {
      var n := |b| - 1;
      hide DiagnosticsOf;
      DiagnosticsInOrder(a, b[..n], r);
      OneMoreDiagnostic(b[..n], b[n]);
      OneMoreDiagnostic(a + b[..n], b[n]);
      assert b[..n] + [b[n]] == b && (a + b[..n]) + [b[n]] == a + b;
    }
  }
}
