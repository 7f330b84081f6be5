/**
 What the answers of the queue scan of scripts/assignment_scan.py mean for the listings themselves:
 zero is absence from the listing as it stood, and a positive answer names a run that was listed.
 */
module QueueAbsence {
  import opened QueueListing
  import opened QueueScan

  /** Run r was on a page some attempt read of some listing. */
  ghost predicate Delivered(c: Config, listings: seq<nat -> Replies>, r: Run) {
    exists l: nat, a: nat, p: nat :: l < |listings| && a <= c.retries && OnPage(c, listings[l](a), p, r)
  }

  predicate OnPage(c: Config, replies: Replies, p: nat, r: Run) { 1 <= p <= c.maxPages && r in Runs(replies.pages(p)) }

  lemma {:induction false} BodyIsPages(pages: nat -> Reply, n: nat, r: Run) returns (p: nat)
    requires r in Body(pages, n)
    ensures 1 <= p <= n && r in Runs(pages(p))
  {
    if r in Runs(pages(n)) { p := n; } else { p := BodyIsPages(pages, n - 1, r); }
  }

  lemma {:induction false} WalkIsPages(c: Config, passes: nat -> Replies, wait: nat -> bool, a: nat, r: Run) returns (at: nat, p: nat)
    requires a <= c.retries && r in WalkTrace(c, passes, wait, a).shown
    ensures at <= c.retries && OnPage(c, passes(at), p, r)
    decreases c.retries - a
  {
    hide PassFrom, Runs;
    var e := PassFrom(passes(a), 0, c.cap, c.maxPages);
    if r in Body(passes(a).pages, e.pages) {
      at := a;
      p := BodyIsPages(passes(a).pages, e.pages, r);
    } else {
      at, p := WalkIsPages(c, passes, wait, a + 1, r);
    }
  }

  /** Whatever a scan is shown was listed. */
  lemma {:induction false} ShownWasListed(c: Config, listings: seq<nat -> Replies>, wait: (nat, nat) -> bool, l: nat, r: Run)
    requires l <= |listings| && r in ScanTrace(c, listings, wait, l).shown
    ensures Delivered(c, listings, r)
    decreases |listings| - l
  {
    hide WalkTrace, OnPage;
    var first := WalkTrace(c, listings[l], WaitAt(wait, l), 0);
    if r in first.shown {
      var a, p := WalkIsPages(c, listings[l], WaitAt(wait, l), 0, r);
      assert OnPage(c, listings[l](a), p, r);
    } else {
      ShownWasListed(c, listings, wait, l + 1, r);
    }
  }

  /** The listings never show two different records of one run. */
  ghost predicate OneRecord(runs: seq<Run>) { forall x, y | x in runs && y in runs && x.id == y.id :: x == y }

  /** A positive answer names a run that was listed and has a matching queued job. */
  lemma PositiveMeansListed(c: Config, w: World, memo: map<int, int>, listings: seq<nat -> Replies>, wait: (nat, nat) -> bool,
                            shown: seq<Run>, found: bool, n: nat) returns (r: Run)
    requires ScanAnswers(c, w, memo, listings, wait, shown, found, Found(n)) && n > 0
    ensures Delivered(c, listings, r) && r in shown && Witnessed(c, w, memo, r)
    ensures (c.headRepo.Some? ==> r.headRepo == c.headRepo) && w.jobs(r.id).Some?
    ensures exists j :: j in w.jobs(r.id).value && j.queued && j.labels.Some? && j.id.Some?
                        && c.required in j.labels.value && j.labels.value <= c.admitted && |j.labels.value * c.classes| <= 1
                        && (c.minAge == 0 || (j.age.Some? && j.age.value >= c.minAge))
  {
    hide Judged, Count, ScanTrace, Delivered;
    FirstsShown(shown);
    SumZeroIfJudged(c, w, memo, Firsts(shown));
    r :| r in Firsts(shown) && Witnessed(c, w, memo, r);
    assert r in ScanTrace(c, listings, wait, 0).shown;
    ShownWasListed(c, listings, wait, 0, r);
  }

  lemma SumZeroIfJudged(c: Config, w: World, memo: map<int, int>, runs: seq<Run>)
    ensures (forall r | r in runs :: Judged(c, w, memo, r)) && Sum(c, w, memo, runs) > 0 ==>
      exists r :: r in runs && Witnessed(c, w, memo, r)
  {
    if forall r | r in runs :: Judged(c, w, memo, r) { SumZero(c, w, memo, runs); }
  }

  /** Zero: every run shown has the id of a listed record that was judged here and counts nothing. */
  lemma ZeroMeansNone(c: Config, w: World, memo: map<int, int>, listings: seq<nat -> Replies>, wait: (nat, nat) -> bool,
                      shown: seq<Run>, found: bool, r: Run) returns (first: Run)
    requires ScanAnswers(c, w, memo, listings, wait, shown, found, Found(0)) && r in shown
    ensures first in Firsts(shown) && first.id == r.id && Delivered(c, listings, first)
    ensures Judged(c, w, memo, first) && Count(c, w, memo, first) == 0
    ensures OneRecord(shown) ==> Judged(c, w, memo, r) && Count(c, w, memo, r) == 0
    ensures || (c.headRepo.Some? && first.headRepo != c.headRepo)
            || (first.id in memo && c.classifyStale && first.event == "merge_group"
                && first.age.Some? && first.age.value >= c.staleMinAge)
            || (w.jobs(first.id).Some? && forall j | j in w.jobs(first.id).value :: NotForThisLane(c, j))
  {
    hide ScanTrace, Delivered, Judged, Count;
    FirstsMeaning(shown);
    assert r.id in Ids(Firsts(shown));
    first :| first in Firsts(shown) && first.id == r.id;
    SumZero(c, w, memo, Firsts(shown));
    assert first in ScanTrace(c, listings, wait, 0).shown;
    ShownWasListed(c, listings, wait, 0, first);
    NoneForThisLane(c, w, memo, first);
  }

  /** The job is queued and labelled for this lane, as far as its labels can be read. */
  predicate Labelled(c: Config, j: Job) {
    && j.queued
    && (j.labels.Some? ==> c.required in j.labels.value && j.labels.value <= c.admitted && |j.labels.value * c.classes| <= 1)
  }

  /** What a verdict needs of it is missing: labels, an age where one is asked for, or an id once it is old enough. */
  predicate Unclear(c: Config, j: Job) {
    Labelled(c, j) && (j.labels.None? || (c.minAge != 0 && j.age.None?) || (j.id.None? && (c.minAge == 0 || j.age.value >= c.minAge)))
  }

  /** A job this lane could serve. */
  predicate ForThisLane(c: Config, j: Job) {
    Labelled(c, j) && j.labels.Some? && j.id.Some? && (c.minAge == 0 || (j.age.Some? && j.age.value >= c.minAge))
  }

  /** The scan may leave the run alone: it is a fork's, or an old merge-queue run that was confirmed stale before. */
  predicate LeftAlone(c: Config, memo: map<int, int>, r: Run) {
    || (c.headRepo.Some? && r.headRepo != c.headRepo)
    || (r.id in memo && c.classifyStale && r.event == "merge_group" && r.age.Some? && r.age.value >= c.staleMinAge)
  }

  /** A run cannot be judged exactly when its jobs cannot be read, or a queued job that may be for this lane is unclear. */
  lemma JudgedMeans(c: Config, w: World, memo: map<int, int>, r: Run)
    ensures !Judged(c, w, memo, r) <==>
      !LeftAlone(c, memo, r) && (w.jobs(r.id).None? || exists j :: j in w.jobs(r.id).value && Unclear(c, j))
  {
    forall j ensures Broken(c, j) <==> Unclear(c, j) { }
  }

  /** It counts the distinct ids of its queued jobs that this lane could serve. */
  lemma CountMeans(c: Config, w: World, memo: map<int, int>, r: Run)
    requires !LeftAlone(c, memo, r) && w.jobs(r.id).Some?
    ensures Count(c, w, memo, r) == |set j | j in w.jobs(r.id).value && ForThisLane(c, j) :: j.id.value|
  {
    var jobs := w.jobs(r.id).value;
    forall j ensures Matches(c, j) <==> ForThisLane(c, j) { }
    assert MatchIds(c, jobs) == set j | j in jobs && ForThisLane(c, j) :: j.id.value;
  }

  /** The job is not queued, or labelled for another lane, or too young. */
  predicate NotForThisLane(c: Config, j: Job) {
    || !j.queued
    || (j.labels.Some? && (c.required !in j.labels.value || !(j.labels.value <= c.admitted) || |j.labels.value * c.classes| > 1))
    || (c.minAge != 0 && j.age.Some? && j.age.value < c.minAge)
  }

  lemma NoneForThisLane(c: Config, w: World, memo: map<int, int>, r: Run)
    requires Judged(c, w, memo, r) && Count(c, w, memo, r) == 0
    ensures || (c.headRepo.Some? && r.headRepo != c.headRepo)
            || (r.id in memo && c.classifyStale && r.event == "merge_group" && r.age.Some? && r.age.value >= c.staleMinAge)
            || (w.jobs(r.id).Some? && forall j | j in w.jobs(r.id).value :: NotForThisLane(c, j))
  {
    if !Excluded(c, memo, r) {
      forall j | j in w.jobs(r.id).value ensures NotForThisLane(c, j) {
        assert !Broken(c, j);
        assert Matches(c, j) ==> j.id.value in MatchIds(c, w.jobs(r.id).value);
      }
    }
  }

  /**
   Absence as it stood: when a scan answers zero and the clean pass over a listing was answered from
   a listing that churned in any way, every run that listing held at every read of the pass was
   judged in this scan, and counts nothing.
   */
  lemma AbsentAsItStood(c: Config, w: World, memo: map<int, int>, listings: seq<nat -> Replies>, wait: (nat, nat) -> bool,
                        shown: seq<Run>, found: bool, replies: Replies, n: nat,
                        start: seq<Run>, cs: seq<Change>, at: nat -> nat, r: Run) returns (first: Run)
    requires ScanAnswers(c, w, memo, listings, wait, shown, found, Found(0))
    requires CleanPass(c, replies, n, shown) && Honest(replies, n, start, cs, at) && r in start
    ensures forall p | 1 <= p <= n :: r in After(start, cs[..at(p)])
    ensures first in Firsts(shown) && first.id == r.id && Judged(c, w, memo, first) && Count(c, w, memo, first) == 0
    ensures OneRecord(shown) ==> Count(c, w, memo, r) == 0
  {
    hide Judged, Count, ScanAnswers, Honest, Reconciled, OneRecord;
    PassSawOneSnapshot(replies, n, c.cap, start, cs, at);
    assert r in Body(replies.pages, n);
    first := ZeroMeansNone(c, w, memo, listings, wait, shown, found, r);
  }

  // ------------------------------------------------------------------- a witness settles the scan

  lemma FirstsOfAll(shown: seq<Run>, all: seq<Run>)
    requires shown <= all
    ensures forall r | r in Firsts(shown) :: r in Firsts(all)
  {
    hide Firsts;
    assert all == shown + all[|shown|..];
    forall r | r in Firsts(shown) ensures r in Firsts(all) { FirstsPrefix(shown, all[|shown|..], r); }
  }

  /**
   The answer is decided before the scan starts, by what a scan that never stops early would be shown.
   If all it was shown allows a verdict, a witness anywhere in it means 1, whatever fails behind it; without
   a witness the scan answers zero or fails, as the listings end clean or not.
   */
  lemma AnswerIsDecided(c: Config, w: World, memo: map<int, int>, listings: seq<nat -> Replies>, wait: (nat, nat) -> bool,
                        shown: seq<Run>, found: bool, result: ScanResult)
    requires ScanAnswers(c, w, memo, listings, wait, shown, found, result)
    requires forall r | r in Firsts(shown) :: Judged(c, w, memo, r)
    ensures var all := ScanTrace(c, listings, wait, 0);
            && (!c.exhaustive ==>
                  result == if exists r :: r in Firsts(all.shown) && Witnessed(c, w, memo, r) then Found(1)
                            else if all.clean then Found(0) else ScanFailed)
            && (c.exhaustive ==> result == if all.clean then Found(Sum(c, w, memo, Firsts(all.shown))) else ScanFailed)
  {
    hide Firsts, Judged, Witnessed, Count, Sum, ScanTrace;
    var all := ScanTrace(c, listings, wait, 0);
    FirstsOfAll(shown, all.shown);
    SumZeroIfJudged(c, w, memo, Firsts(all.shown));
    if forall r | r in Firsts(all.shown) :: Judged(c, w, memo, r) { SumZero(c, w, memo, Firsts(all.shown)); }
    forall r | Witnessed(c, w, memo, r) ensures Count(c, w, memo, r) > 0 { WitnessCounts(c, w, memo, r); }
  }

  /** Attempt `a` at listing `l` is made, and gets as far as delivering page `p`. */
  ghost predicate GetsTo(c: Config, listings: seq<nat -> Replies>, wait: (nat, nat) -> bool, l: nat, a: nat, p: nat) {
    && l < |listings| && a <= c.retries && p <= c.maxPages
    && (forall k | 0 <= k < l :: WalkTrace(c, listings[k], WaitAt(wait, k), 0).clean)
    && (forall b: nat | b < a :: TornAt(c, listings[l], b) && wait(l, b))
    && PagesPass(listings[l](a), p, c.cap)
  }

  predicate TornAt(c: Config, passes: nat -> Replies, b: nat) { PassFrom(passes(b), 0, c.cap, c.maxPages).o.Race? }

  /** Each page passes its checks, and none but the last can end the pass. */
  ghost predicate PagesPass(r: Replies, p: nat, cap: int) {
    && (forall k: nat | k < p :: PageCheck(r, k, cap).Clean?)
    && (forall k: nat | k < p - 1 :: GoesOn(r, k))
  }

  predicate GoesOn(r: Replies, k: nat) { r.pages(k + 1).Page? && r.pages(k + 1).total.Some? && EndCheck(r, k).None? }

  lemma {:induction false} PassGetsTo(r: Replies, n: nat, p: nat, cap: int, maxPages: nat)
    requires n <= p <= maxPages && PagesPass(r, p, cap)
    ensures PassFrom(r, n, cap, maxPages).pages >= p
    decreases p - n
  {
    hide IdCheck;
    if n < p {
      assert PageCheck(r, n, cap).Clean?;
      if n < p - 1 { assert GoesOn(r, n); }
      PassGetsTo(r, n + 1, p, cap, maxPages);
    }
  }

  lemma {:induction false} WalkShows(c: Config, passes: nat -> Replies, wait: nat -> bool, b: nat, a: nat, r: Run)
    requires b <= a <= c.retries && forall k: nat | k < a :: TornAt(c, passes, k) && wait(k)
    requires r in Body(passes(a).pages, PassFrom(passes(a), 0, c.cap, c.maxPages).pages)
    ensures r in WalkTrace(c, passes, wait, b).shown
    decreases a - b
  {
    hide PassFrom;
    if b < a {
      assert TornAt(c, passes, b);
      WalkShows(c, passes, wait, b + 1, a, r);
    }
  }

  lemma {:induction false} ScanShows(c: Config, listings: seq<nat -> Replies>, wait: (nat, nat) -> bool, m: nat, l: nat, r: Run)
    requires m <= l < |listings| && forall k | 0 <= k < l :: WalkTrace(c, listings[k], WaitAt(wait, k), 0).clean
    requires r in WalkTrace(c, listings[l], WaitAt(wait, l), 0).shown
    ensures r in ScanTrace(c, listings, wait, m).shown
    decreases l - m
  {
    hide WalkTrace;
    if m < l { ScanShows(c, listings, wait, m + 1, l, r); }
  }

  lemma PageIsShown(c: Config, listings: seq<nat -> Replies>, wait: (nat, nat) -> bool, l: nat, a: nat, p: nat, r: Run)
    requires GetsTo(c, listings, wait, l, a, p) && p > 0 && r in Runs(listings[l](a).pages(p))
    ensures r in ScanTrace(c, listings, wait, 0).shown
  {
    hide WalkTrace, ScanTrace, PassFrom, PageCheck, EndCheck, Runs;
    var replies := listings[l](a);
    PassGetsTo(replies, 0, p, c.cap, c.maxPages);
    assert r in Body(replies.pages, p);
    BodyPrefix(replies.pages, p, PassFrom(replies, 0, c.cap, c.maxPages).pages);
    WalkShows(c, listings[l], WaitAt(wait, l), 0, a, r);
    ScanShows(c, listings, wait, 0, l, r);
  }

  /**
   A page in front of the first failing reply settles the scan: if the first record shown of one of
   its runs is a witness, the answer is 1, unless a record that was shown allows no verdict.
   */
  lemma WitnessSettles(c: Config, w: World, memo: map<int, int>, listings: seq<nat -> Replies>, wait: (nat, nat) -> bool,
                       shown: seq<Run>, found: bool, result: ScanResult, l: nat, a: nat, p: nat, r: Run)
    requires ScanAnswers(c, w, memo, listings, wait, shown, found, result) && !c.exhaustive
    requires forall x | x in Firsts(shown) :: Judged(c, w, memo, x)
    requires GetsTo(c, listings, wait, l, a, p) && p > 0 && r in Runs(listings[l](a).pages(p))
    requires forall x | x in Firsts(ScanTrace(c, listings, wait, 0).shown) && x.id == r.id :: Witnessed(c, w, memo, x)
    ensures result == Found(1)
  {
    hide ScanAnswers, Witnessed, Judged, ScanTrace, GetsTo;
    var all := ScanTrace(c, listings, wait, 0).shown;
    PageIsShown(c, listings, wait, l, a, p, r);
    FirstsMeaning(all);
    assert r.id in Ids(Firsts(all));
    var first :| first in Firsts(all) && first.id == r.id;
    assert Witnessed(c, w, memo, first);
    AnswerIsDecided(c, w, memo, listings, wait, shown, found, result);
  }
}
