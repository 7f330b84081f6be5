/**
 The fail-closed queue scan of scripts/assignment_scan.py: restarted listing passes feeding one
 `scanned` set, an early exit on the first witness, and a memo of runs proved stale.
 */
module QueueScan {
  import opened Basics
  import opened QueueListing

  datatype Job = Job(queued: bool, labels: Option<set<string>>, age: Option<int>, id: Option<int>)

  datatype Config = Config(
    exhaustive: bool,
    maxPages: nat, cap: int, retries: nat,
    headRepo: Option<string>,
    required: string, admitted: set<string>, classes: set<string>,
    minAge: int,
    classifyStale: bool, staleMinAge: int)

  /**
   What the API answers about single runs during one scan; a scan asks at most once per run.
   `jobs` is None when the job listing cannot be read, `branchLive` when the answer is indeterminate.
   */
  datatype World = World(jobs: int -> Option<seq<Job>>, branchLive: int -> Option<bool>, now: int)

  // -------------------------------------------------------------- one job, one run

  predicate RightLabels(c: Config, labels: set<string>) {
    c.required in labels && labels <= c.admitted && |labels * c.classes| <= 1
  }

  /** A queued job this lane could serve. */
  predicate Wanted(c: Config, j: Job) {
    && j.queued && j.labels.Some? && RightLabels(c, j.labels.value)
    && (c.minAge != 0 ==> j.age.Some? && j.age.value >= c.minAge)
  }

  predicate Matches(c: Config, j: Job) { Wanted(c, j) && j.id.Some? }

  /** A queued job whose fields do not allow a verdict; the whole scan fails on it. */
  predicate Broken(c: Config, j: Job) {
    && j.queued
    && (j.labels.None?
        || (RightLabels(c, j.labels.value) && c.minAge != 0 && j.age.None?)
        || (Wanted(c, j) && j.id.None?))
  }

  function MatchIds(c: Config, jobs: seq<Job>): set<int> {
    set j | j in jobs && Matches(c, j) :: j.id.value
  }

  predicate FirstParty(c: Config, run: Run) { c.headRepo.Some? ==> run.headRepo == c.headRepo }

  predicate Considers(c: Config, run: Run) {
    c.classifyStale && run.event == "merge_group" && run.age.Some? && run.age.value >= c.staleMinAge
  }

  predicate Remembered(c: Config, memo: map<int, int>, run: Run) { Considers(c, run) && run.id in memo }

  predicate Excluded(c: Config, memo: map<int, int>, run: Run) { !FirstParty(c, run) || Remembered(c, memo, run) }

  /** The queue branch is confirmed absent and the run is confirmed to carry no queued job. */
  predicate ConfirmedStale(c: Config, w: World, run: Run) {
    && Considers(c, run) && w.branchLive(run.id) == Some(false)
    && w.jobs(run.id).Some? && forall j | j in w.jobs(run.id).value :: !j.queued
  }

  /** The matching queued jobs of a run, unless it is excluded. */
  function Count(c: Config, w: World, memo: map<int, int>, run: Run): nat {
    if Excluded(c, memo, run) || w.jobs(run.id).None? then 0 else |MatchIds(c, w.jobs(run.id).value)|
  }

  /** The run was excluded, or its whole job listing was read and allowed a verdict. */
  predicate Judged(c: Config, w: World, memo: map<int, int>, run: Run) {
    Excluded(c, memo, run) || (w.jobs(run.id).Some? && forall j | j in w.jobs(run.id).value :: !Broken(c, j))
  }

  /** A matching queued job of this run was read. */
  predicate Witnessed(c: Config, w: World, memo: map<int, int>, run: Run) {
    !Excluded(c, memo, run) && w.jobs(run.id).Some? && exists j :: j in w.jobs(run.id).value && Matches(c, j)
  }

  /** A scan adds to its memo only runs it was shown and confirmed itself, stamped now; a hit refreshes nothing. */
  ghost predicate Learned(c: Config, w: World, loaded: map<int, int>, memo: map<int, int>, shown: seq<Run>) {
    && (forall id | id in loaded :: id in memo && memo[id] == loaded[id])
    && (forall id | id in memo && id !in loaded :: memo[id] == w.now && exists r :: r in shown && Confirms(c, w, r, id))
  }

  predicate Confirms(c: Config, w: World, r: Run, id: int) { r.id == id && ConfirmedStale(c, w, r) }

  function Sum(c: Config, w: World, memo: map<int, int>, runs: seq<Run>): nat {
    if runs == [] then 0 else Sum(c, w, memo, runs[..|runs| - 1]) + Count(c, w, memo, runs[|runs| - 1])
  }

  lemma NoIds()
    ensures Ids([]) == {}
  {
  }

  lemma IdsSnoc(runs: seq<Run>, r: Run)
    ensures Ids(runs + [r]) == Ids(runs) + {r.id}
  {
    assert forall x :: x in runs + [r] <==> x in runs || x == r;
  }

  lemma SumSnoc(c: Config, w: World, memo: map<int, int>, runs: seq<Run>, r: Run)
    ensures Sum(c, w, memo, runs + [r]) == Sum(c, w, memo, runs) + Count(c, w, memo, r)
  {
    assert (runs + [r])[..|runs|] == runs;
  }

  lemma {:induction false} SumZero(c: Config, w: World, memo: map<int, int>, runs: seq<Run>)
    requires forall r | r in runs :: Judged(c, w, memo, r)
    ensures Sum(c, w, memo, runs) == 0 <==> forall r | r in runs :: Count(c, w, memo, r) == 0
    ensures Sum(c, w, memo, runs) > 0 ==> exists r :: r in runs && Witnessed(c, w, memo, r)
  {
    if runs != [] {
      var rest, last := runs[..|runs| - 1], runs[|runs| - 1];
      SumZero(c, w, memo, rest);
      assert forall r :: r in runs <==> r in rest || r == last;
      if Count(c, w, memo, last) > 0 {
        var jobs := w.jobs(last.id).value;
        assert (forall j | j in jobs :: !Matches(c, j)) ==> MatchIds(c, jobs) == {};
        assert last in runs && Witnessed(c, w, memo, last);
      } else if r :| r in rest && Witnessed(c, w, memo, r) {
        assert r in runs;
      }
    }
  }

  lemma WitnessCounts(c: Config, w: World, memo: map<int, int>, r: Run)
    requires Witnessed(c, w, memo, r)
    ensures Count(c, w, memo, r) > 0
  {
    var j :| j in w.jobs(r.id).value && Matches(c, j);
    assert j.id.value in MatchIds(c, w.jobs(r.id).value);
  }

  /** The total does not depend on the order of the judgements. */
  lemma {:induction false} SumOfAnyOrder(c: Config, w: World, memo: map<int, int>, a: seq<Run>, b: seq<Run>)
    requires multiset(a) == multiset(b)
    ensures Sum(c, w, memo, a) == Sum(c, w, memo, b)
  {
    hide Count;
    assert |a| == |multiset(a)| == |b|;
    if a != [] {
      var n := |a| - 1;
      assert a[n] in multiset(b);
      var i: nat :| i < |b| && b[i] == a[n];
      SameRest(a, b, i);
      SumOfAnyOrder(c, w, memo, a[..n], b[..i] + b[i + 1..]);
      SumTakeOut(c, w, memo, b, i);
    }
  }

  lemma SameRest(a: seq<Run>, b: seq<Run>, i: nat)
    requires multiset(a) == multiset(b) && a != [] && i < |b| && b[i] == a[|a| - 1]
    ensures multiset(a[..|a| - 1]) == multiset(b[..i] + b[i + 1..])
  {
    TakeOut(b, i);
    TakeOut(a, |a| - 1);
    assert a[..|a| - 1] + a[|a|..] == a[..|a| - 1];
  }

  lemma TakeOut(b: seq<Run>, i: nat)
    requires i < |b|
    ensures multiset(b[..i] + b[i + 1..]) == multiset(b) - multiset{b[i]}
  {
    assert b == b[..i] + [b[i]] + b[i + 1..];
  }

  lemma {:induction false} SumTakeOut(c: Config, w: World, memo: map<int, int>, b: seq<Run>, i: nat)
    requires i < |b|
    ensures Sum(c, w, memo, b) == Sum(c, w, memo, b[..i] + b[i + 1..]) + Count(c, w, memo, b[i])
    decreases |b|
  {
    hide Count;
    var n := |b| - 1;
    var rest := b[..i] + b[i + 1..];
    if i == n {
      assert rest == b[..n];
    } else {
      SumTakeOut(c, w, memo, b[..n], i);
      assert rest[..|rest| - 1] == b[..n][..i] + b[..n][i + 1..];
      assert rest[|rest| - 1] == b[n];
    }
  }

  // --------------------------------------------------------------- what a scan is shown, in order

  /** The first record of each id: what the scan judges. */
  function Firsts(runs: seq<Run>): seq<Run> {
    if runs == [] then []
    else
      var n := |runs| - 1;
      if runs[n].id in Ids(runs[..n]) then Firsts(runs[..n]) else Firsts(runs[..n]) + [runs[n]]
  }

  lemma FirstsSnoc(runs: seq<Run>, r: Run)
    ensures Firsts(runs + [r]) == if r.id in Ids(runs) then Firsts(runs) else Firsts(runs) + [r]
  {
    assert (runs + [r])[..|runs|] == runs;
  }

  /** Exactly one record for every id shown, and it was shown. */
  lemma {:induction false} FirstsMeaning(runs: seq<Run>)
    ensures DistinctIds(Firsts(runs)) && Ids(Firsts(runs)) == Ids(runs) && forall r | r in Firsts(runs) :: r in runs
  {
    hide DistinctIds;
    if runs == [] {
      NoneDistinct();
    } else {
      var n := |runs| - 1;
      FirstsMeaning(runs[..n]);
      assert runs == runs[..n] + [runs[n]];
      IdsSnoc(runs[..n], runs[n]);
      if runs[n].id !in Ids(runs[..n]) {
        IdsSnoc(Firsts(runs[..n]), runs[n]);
        DistinctSnoc(Firsts(runs[..n]), runs[n]);
      }
    }
  }

  lemma FirstsShown(runs: seq<Run>)
    ensures forall r | r in Firsts(runs) :: r in runs && r.id in Ids(runs)
  {
    FirstsMeaning(runs);
  }

  lemma NoneDistinct()
    ensures DistinctIds([])
  {
  }

  lemma DistinctSnoc(runs: seq<Run>, r: Run)
    requires DistinctIds(runs) && r.id !in Ids(runs)
    ensures DistinctIds(runs + [r])
  {
    forall k | 0 <= k < |runs| ensures runs[k].id != r.id { assert runs[k].id in Ids(runs); }
  }

  /** More pages leave the first records what they were. */
  lemma {:induction false} FirstsPrefix(runs: seq<Run>, more: seq<Run>, r: Run)
    requires r in Firsts(runs)
    ensures r in Firsts(runs + more)
  {
    if more == [] {
      assert runs + more == runs;
    } else {
      var n := |more| - 1;
      FirstsPrefix(runs, more[..n], r);
      assert runs + more == (runs + more[..n]) + [more[n]];
      FirstsSnoc(runs + more[..n], more[n]);
    }
  }

  /** What a walk over one listing is shown, and whether it ends clean; `a` attempts precede. */
  datatype Trace = Trace(shown: seq<Run>, clean: bool)

  function WalkTrace(c: Config, passes: nat -> Replies, wait: nat -> bool, a: nat): Trace
    decreases c.retries - a
  {
    var e := PassFrom(passes(a), 0, c.cap, c.maxPages);
    var body := Body(passes(a).pages, e.pages);
    if e.o.Race? && a < c.retries && wait(a) then
      var rest := WalkTrace(c, passes, wait, a + 1);
      Trace(body + rest.shown, rest.clean)
    else Trace(body, e.o.Clean?)
  }

  function WaitAt(wait: (nat, nat) -> bool, l: nat): nat -> bool { (a: nat) => wait(l, a) }

  /** What a scan that is never abandoned is shown from listing l on. */
  function ScanTrace(c: Config, listings: seq<nat -> Replies>, wait: (nat, nat) -> bool, l: nat): Trace
    requires l <= |listings|
    decreases |listings| - l
  {
    if l == |listings| then Trace([], true)
    else
      var first := WalkTrace(c, listings[l], WaitAt(wait, l), 0);
      if !first.clean then first
      else
        var rest := ScanTrace(c, listings, wait, l + 1);
        Trace(first.shown + rest.shown, rest.clean)
  }

  datatype RunResult = RunFailed | RunCounted(n: nat)

  datatype ScanResult = ScanFailed | Found(n: nat)

  /**
   The job loop of `_scan_run`. It fails on a queued job that allows no verdict, and outside
   exhaustive mode stops at the first match, before any job behind it is looked at.
   */
  method ReadJobs(c: Config, jobs: seq<Job>) returns (r: RunResult, queued: nat)
    ensures r.RunFailed? ==> exists j :: j in jobs && Broken(c, j)
    ensures r.RunCounted? && !c.exhaustive && r.n > 0 ==> r.n == 1 && exists j :: j in jobs && Matches(c, j)
    ensures r.RunCounted? && (c.exhaustive || r.n == 0) ==>
      && r.n == |MatchIds(c, jobs)| && (forall j | j in jobs :: !Broken(c, j))
      && (queued == 0 <==> forall j | j in jobs :: !j.queued)
      && (queued == 0 ==> r.n == 0)
  {
    hide Broken, RightLabels;
    var matches: set<int> := {};
    queued := 0;
    for i := 0 to |jobs|
      invariant matches == MatchIds(c, jobs[..i])
      invariant forall j | j in jobs[..i] :: !Broken(c, j)
      invariant queued == 0 <==> forall j | j in jobs[..i] :: !j.queued
      invariant !c.exhaustive || queued == 0 ==> matches == {}
    {
      var j := jobs[i];
      assert jobs[..i + 1] == jobs[..i] + [j] && j in jobs;
      if !j.queued {
        NotBroken(c, j);
        continue;
      }
      queued := queued + 1;
      if Broken(c, j) { return RunFailed, queued; }
      if !Matches(c, j) { continue; }
      matches := matches + {j.id.value};
      if !c.exhaustive { return RunCounted(1), queued; }
    }
    assert jobs[..|jobs|] == jobs;
    r := RunCounted(|matches|);
  }

  lemma NotBroken(c: Config, j: Job)
    requires !j.queued
    ensures !Broken(c, j)
  {
  }

  /**
   The answer of a scan that was shown `shown`. Without a witness it saw all there was to see and the
   total counts the first record of every id once; a witness was among the records it was shown. It
   fails on a record that allows no verdict, or at the end of a listing that did not end clean and
   before which, outside exhaustive mode, no witness was shown.
   */
  ghost predicate ScanAnswers(c: Config, w: World, memo: map<int, int>, listings: seq<nat -> Replies>, wait: (nat, nat) -> bool,
                              shown: seq<Run>, found: bool, result: ScanResult) {
    var all := ScanTrace(c, listings, wait, 0);
    && shown <= all.shown
    && (result.ScanFailed? ==>
          || (exists r :: r in Firsts(shown) && !Judged(c, w, memo, r))
          || (!all.clean && shown == all.shown && (c.exhaustive || forall r | r in Firsts(shown) :: !Witnessed(c, w, memo, r))))
    && (result.Found? && found ==> !c.exhaustive && result.n == 1 && exists r :: r in Firsts(shown) && Witnessed(c, w, memo, r))
    && (result.Found? && !found ==>
          && all.clean && shown == all.shown && result.n == Sum(c, w, memo, Firsts(shown))
          && (forall r | r in Firsts(shown) :: Judged(c, w, memo, r))
          && (c.exhaustive || forall r | r in Firsts(shown) :: Count(c, w, memo, r) == 0))
  }

  class Scanner {
    const c: Config
    const w: World
    const loaded: map<int, int>

    var scanned: set<int>
    var total: nat
    var found: bool
    var memo: map<int, int>

    /** The records of all pages handed to `visit`, and the runs judged, each in order. */
    ghost var shown: seq<Run>
    ghost var judged: seq<Run>

    constructor (c: Config, w: World, loaded: map<int, int>)
      ensures Valid() && !found && memo == loaded && shown == []
      ensures this.c == c && this.w == w && this.loaded == loaded
    {
      this.c, this.w, this.loaded := c, w, loaded;
      scanned, total, found, memo, shown, judged := {}, 0, false, loaded, [], [];
    }

    /** Between two runs: each judged run was judged once, and `total` counts each once. */
    ghost predicate Consistent()
      reads this
    {
      && DistinctIds(judged) && scanned == Ids(shown)
      && (forall r | r in judged :: Judged(c, w, loaded, r) && r in shown)
      && (c.exhaustive || forall r | r in judged :: Count(c, w, loaded, r) == 0)
      && total == Sum(c, w, loaded, judged)
      && Learned(c, w, loaded, memo, shown) && (forall id | id in memo && id !in loaded :: id in Ids(judged))
    }

    /** Between two pages: exactly the first records shown have been judged, unless one was a witness. */
    ghost predicate Valid()
      reads this
    {
      && (!found ==> Consistent() && multiset(judged) == multiset(Firsts(shown)))
      && (found ==> !c.exhaustive && Learned(c, w, loaded, memo, shown) && scanned == Ids(shown)
                    && exists r :: r in Firsts(shown) && Witnessed(c, w, loaded, r))
    }

    /** `_scan_run`, for a run whose id was not judged before. */
    method ScanRun(run: Run) returns (r: RunResult)
      requires !found && Consistent() && run.id !in Ids(judged)
      modifies this`found, this`judged, this`memo
      ensures r.RunFailed? ==> !Judged(c, w, loaded, run)
      ensures r.RunCounted? && !found ==>
        && judged == old(judged) + [run] && r.n == Count(c, w, loaded, run)
        && Judged(c, w, loaded, run) && (c.exhaustive || r.n == 0)
        && memo == (if !Excluded(c, loaded, run) && ConfirmedStale(c, w, run) then old(memo)[run.id := w.now] else old(memo))
      ensures found ==> r == RunCounted(1) && !c.exhaustive && Witnessed(c, w, loaded, run) && memo == old(memo)
    {
      hide Broken, Matches, MatchIds, Sum, DistinctIds, FirstParty;
      assert Remembered(c, memo, run) == Remembered(c, loaded, run);
      if Excluded(c, memo, run) {
        judged := judged + [run];
        return RunCounted(0);
      }
      if w.jobs(run.id).None? { return RunFailed; }
      var jobs := w.jobs(run.id).value;
      var verdict, queued := ReadJobs(c, jobs);
      if verdict.RunFailed? { return RunFailed; }
      if !c.exhaustive && verdict.n > 0 {
        found := true;
        return RunCounted(1);
      }
      judged := judged + [run];
      if Considers(c, run) && w.branchLive(run.id) == Some(false) && queued == 0 {
        memo := memo[run.id := w.now];
        return RunCounted(0);
      }
      return verdict;
    }

    /** The part of `visit` before the executor: claim the runs of the page not seen before. */
    method Claim(page: seq<Run>) returns (claimed: seq<Run>)
      requires scanned == Ids(shown)
      modifies this`scanned, this`shown
      ensures shown == old(shown) + page && scanned == Ids(shown)
      ensures Firsts(shown) == Firsts(old(shown)) + claimed
      ensures DistinctIds(claimed) && Ids(claimed) !! Ids(old(shown)) && Ids(claimed) + Ids(old(shown)) == scanned
    {
      hide Firsts, DistinctIds;
      claimed := [];
      NoIds();
      NoneDistinct();
      for i := 0 to |page|
        invariant shown == old(shown) + page[..i] && scanned == Ids(shown)
        invariant Firsts(shown) == Firsts(old(shown)) + claimed
        invariant DistinctIds(claimed) && Ids(claimed) !! Ids(old(shown)) && Ids(claimed) + Ids(old(shown)) == scanned
      {
        var run := page[i];
        FirstsSnoc(shown, run);
        IdsSnoc(shown, run);
        if run.id !in scanned {
          IdsSnoc(claimed, run);
          DistinctSnoc(claimed, run);
          scanned := scanned + {run.id};
          claimed := claimed + [run];
        }
        shown := shown + [run];
      }
    }

    /**
     `visit`: judge every run of the page that no earlier page, pass or listing delivered. The
     executor may take them in any order.
     */
    method Visit(page: seq<Run>) returns (o: Outcome)
      requires Valid() && !found
      modifies this
      ensures o.Clean? || o.VisitFailed? || o.Abandoned?
      ensures o.Abandoned? <==> found
      ensures !o.VisitFailed? ==> Valid()
      ensures o.VisitFailed? ==> exists r :: r in Firsts(shown) && !Judged(c, w, loaded, r)
      ensures shown == old(shown) + page
    {
      hide Firsts, Sum, Count, Judged, Witnessed, DistinctIds, ConfirmedStale;
      ghost var before := shown;
      FirstsMeaning(shown);
      SameIdsAsFirsts(judged, Firsts(shown));
      assert Ids(judged) == Ids(shown);
      var pending := Claim(page);
      LearnedMore(c, w, loaded, memo, before, page);
      while pending != []
        invariant !found && Consistent() && DistinctIds(pending) && shown == before + page
        invariant Ids(pending) !! Ids(judged) && Ids(pending) + Ids(judged) == scanned
        invariant multiset(judged) + multiset(pending) == multiset(Firsts(shown))
        decreases |pending|
      {
        var i :| 0 <= i < |pending|;
        OneOfPending(pending, i, judged, shown);
        var ok := Judge(pending[i]);
        if !ok { return VisitFailed; }
        if found { return Abandoned; }
        pending := pending[..i] + pending[i + 1..];
      }
      o := Clean;
    }

    /** One task of the executor, and its summand in `total`. */
    method Judge(run: Run) returns (ok: bool)
      requires !found && Consistent() && run.id !in Ids(judged) && run in shown
      modifies this`found, this`judged, this`memo, this`total
      ensures ok || !Judged(c, w, loaded, run)
      ensures ok && !found ==> Consistent() && judged == old(judged) + [run] && Ids(judged) == old(Ids(judged)) + {run.id}
      ensures found ==> ok && !c.exhaustive && Witnessed(c, w, loaded, run) && Learned(c, w, loaded, memo, shown)
    {
      hide Sum, DistinctIds, Judged, Witnessed, Count, FirstParty;
      ghost var before := judged;
      var r := ScanRun(run);
      ok := r.RunCounted?;
      if ok && !found {
        JudgedOneMore(c, w, loaded, before, run);
        assert ConfirmedStale(c, w, run) ==> Confirms(c, w, run, run.id);
        total := total + r.n;
      }
    }

    /**
     `_walk_listing_once`. A pass that ends normally has reconciled its pages and judged all their
     runs; a pass that ends in a race or an error had nothing to reconcile. Which of these it is,
     and what it was shown by then, is decided by the replies alone.
     */
    method WalkListingOnce(r: Replies) returns (o: Outcome)
      requires Valid() && !found
      modifies this
      ensures var e := PassFrom(r, 0, c.cap, c.maxPages);
              && (o.Clean? || o.Race? || o.BadListing? ==> o == e.o && shown == old(shown) + Body(r.pages, e.pages))
              && old(shown) <= shown <= old(shown) + Body(r.pages, e.pages)
              && (o.Clean? ==> Reconciled(r, e.pages, c.cap))
      ensures o.Race? || o.BadListing? ==> Hopeless(r, c.cap, c.maxPages)
      ensures o.Abandoned? <==> found
      ensures o.VisitFailed? ==> exists r :: r in Firsts(shown) && !Judged(c, w, loaded, r)
      ensures !o.VisitFailed? ==> Valid()
    {
      hide Reconciled, Hopeless, Progress, Valid, PageCheck, EndCheck, PassFrom, Firsts, Judged, Body, Ids, DistinctIds, WellFormed;
      NothingRead(r, c.cap, 0);
      NoneDistinct();
      var seen: set<int> := {};
      var expected := 0;
      var first: seq<Run> := [];
      var delivered := 0;
      var page := 0;
      ghost var before, e := shown, PassFrom(r, 0, c.cap, c.maxPages);
      assert before + [] == before;
      while page < c.maxPages
        invariant page <= c.maxPages && Valid() && !found && shown == before + Body(r.pages, page)
        invariant e == PassFrom(r, page, c.cap, c.maxPages)
        invariant Progress(r, page, c.cap, expected) && DistinctIds(Body(r.pages, page))
        invariant seen == Ids(Body(r.pages, page))
        invariant delivered == |Body(r.pages, page)|
        invariant page > 0 ==> first == Runs(r.pages(1))
      {
        PassStep(r, page, c.cap, c.maxPages, before);
        var read, total, runs, seen' := CheckPage(r, page, c.cap, c.maxPages, expected, seen);
        if !read.Clean? { return read; }
        PageIds(r, page, runs);
        expected, seen := total, seen';
        if page == 0 {
          first := runs;
          NothingRead(r, c.cap, total);
        }
        var visit := Visit(runs);
        assert shown == before + Body(r.pages, page + 1);
        if !visit.Clean? { return visit; }
        delivered := delivered + |runs|;
        var end := EndOfPass(r, page, c.cap, c.maxPages, expected, delivered, first, runs);
        if end.Some? { return end.value; }
        page := page + 1;
      }
      RanOutOfPages(r, c.cap, expected, c.maxPages);
      OutOfPages(r, c.cap, c.maxPages);
      o := BadListing;
    }

    /**
     `_walk_listing`: restart a torn pass, as often as `retries` and the clock (`wait`) allow.
     `passes(a)` is what the API answers during attempt a.
     */
    method WalkListing(passes: nat -> Replies, wait: nat -> bool) returns (o: Outcome)
      requires Valid() && !found
      modifies this
      ensures var t := WalkTrace(c, passes, wait, 0);
              && (o.Clean? ==> t.clean && shown == old(shown) + t.shown && EndedClean(c, passes, shown))
              && (o.Race? || o.BadListing? ==> !t.clean && shown == old(shown) + t.shown)
              && old(shown) <= shown <= old(shown) + t.shown
      ensures o.Abandoned? <==> found
      ensures o.VisitFailed? ==> exists r :: r in Firsts(shown) && !Judged(c, w, loaded, r)
      ensures !o.VisitFailed? ==> Valid()
    {
      hide Valid, Firsts, Judged, Reconciled, PassFrom, Body, WalkTrace;
      ghost var before, t := shown, WalkTrace(c, passes, wait, 0);
      ghost var done: seq<Run> := [];
      assert before + [] == before && [] + t.shown == t.shown;
      for attempt := 0 to c.retries + 1
        invariant Valid() && !found && shown == before + done
        invariant attempt <= c.retries && t == Trace(done + WalkTrace(c, passes, wait, attempt).shown, WalkTrace(c, passes, wait, attempt).clean)
      {
        ghost var start := shown;
        o := WalkListingOnce(passes(attempt));
        NextAttempt(c, passes, wait, attempt, before, done, start, shown, t);
        if o.Clean? { BodyShown(c, passes, attempt, start, shown); }
        if !o.Race? { return; }
        if attempt == c.retries || !wait(attempt) { return; }
        done := done + Body(passes(attempt).pages, PassFrom(passes(attempt), 0, c.cap, c.maxPages).pages);
      }
      assert false;
    }

    /**
     `scan` over the ordered run listings. Zero is a proof of absence: every listing ended in a
     clean pass, and of every run shown the first record was judged in this scan, without a match or
     excluded. A positive answer is a proof of presence, and an exhaustive one counts each run once,
     whatever was restarted and however many listings a run was in.
     */
    method Scan(listings: seq<nat -> Replies>, wait: (nat, nat) -> bool) returns (result: ScanResult)
      requires Valid() && !found && shown == []
      modifies this
      ensures ScanAnswers(c, w, loaded, listings, wait, shown, found, result)
      ensures result.Found? ==> Learned(c, w, loaded, memo, shown)
      ensures result.Found? && !found ==>
        scanned == Ids(shown) && forall l | 0 <= l < |listings| :: EndedClean(c, listings[l], shown)
      ensures result == Found(0) ==> !found && forall r | r in Firsts(shown) :: Count(c, w, loaded, r) == 0
      ensures result.Found? && result.n > 0 ==> exists r :: r in Firsts(shown) && r.id in scanned && Witnessed(c, w, loaded, r)
    {
      hide Firsts, Judged, Witnessed, Count, WalkTrace, ScanTrace, Sum, EndedClean, Learned, Consistent;
      ghost var all := ScanTrace(c, listings, wait, 0);
      LastListing(c, listings, wait);
      assert [] + all.shown == all.shown;
      for l := 0 to |listings|
        invariant Valid() && !found
        invariant all == Trace(shown + ScanTrace(c, listings, wait, l).shown, ScanTrace(c, listings, wait, l).clean)
        invariant forall k | 0 <= k < l :: EndedClean(c, listings[k], shown)
      {
        ghost var start := shown;
        var o := WalkListing(listings[l], WaitAt(wait, l));
        NextListing(c, listings, wait, l, start, shown, all);
        FirstsShown(shown);
        if o.Abandoned? { return Found(1); }
        if !o.Clean? {
          if !o.VisitFailed? { NoWitnessAmongJudged(); }
          return ScanFailed;
        }
        forall k | 0 <= k < l ensures EndedClean(c, listings[k], shown) { StillEnded(c, listings[k], start, shown); }
      }
      assert shown + [] == shown;
      FirstsShown(shown);
      TotalOfFirsts();
      result := Found(total);
    }

    /** While nothing was found, none of the first records shown is a witness. */
    lemma NoWitnessAmongJudged()
      requires Valid() && !found
      ensures c.exhaustive || forall r | r in Firsts(shown) :: !Witnessed(c, w, loaded, r)
    {
      hide Firsts, Judged, Witnessed, Count, Sum, Learned;
      SameIdsAsFirsts(judged, Firsts(shown));
      forall r | r in Firsts(shown) && !c.exhaustive ensures !Witnessed(c, w, loaded, r) {
        if Witnessed(c, w, loaded, r) { WitnessCounts(c, w, loaded, r); }
      }
    }

    /** When all was judged, the total is that of the first records. */
    lemma TotalOfFirsts()
      requires Valid() && !found
      ensures scanned == Ids(shown) && Learned(c, w, loaded, memo, shown)
      ensures total == Sum(c, w, loaded, Firsts(shown)) && (forall r | r in Firsts(shown) :: Judged(c, w, loaded, r))
      ensures c.exhaustive || forall r | r in Firsts(shown) :: Count(c, w, loaded, r) == 0
      ensures total == 0 ==> forall r | r in Firsts(shown) :: Count(c, w, loaded, r) == 0
      ensures total > 0 ==> exists r :: r in Firsts(shown) && Witnessed(c, w, loaded, r)
    {
      hide Firsts, Judged, Witnessed, Count, Sum, Learned;
      SameIdsAsFirsts(judged, Firsts(shown));
      SumOfAnyOrder(c, w, loaded, judged, Firsts(shown));
      SumZero(c, w, loaded, Firsts(shown));
    }
  }

  lemma LastListing(c: Config, listings: seq<nat -> Replies>, wait: (nat, nat) -> bool)
    ensures ScanTrace(c, listings, wait, |listings|) == Trace([], true)
  {
  }

  /** One listing further along the trace. */
  lemma NextListing(c: Config, listings: seq<nat -> Replies>, wait: (nat, nat) -> bool, l: nat, start: seq<Run>, shown: seq<Run>, all: Trace)
    requires l < |listings|
    requires all == Trace(start + ScanTrace(c, listings, wait, l).shown, ScanTrace(c, listings, wait, l).clean)
    requires start <= shown <= start + WalkTrace(c, listings[l], WaitAt(wait, l), 0).shown
    ensures shown <= all.shown
    ensures var t := WalkTrace(c, listings[l], WaitAt(wait, l), 0);
            && (!t.clean ==> !all.clean && (shown == start + t.shown ==> shown == all.shown))
            && (t.clean && shown == start + t.shown ==>
                  all == Trace(shown + ScanTrace(c, listings, wait, l + 1).shown, ScanTrace(c, listings, wait, l + 1).clean))
  {
    hide WalkTrace;
    var t := WalkTrace(c, listings[l], WaitAt(wait, l), 0);
    var rest := ScanTrace(c, listings, wait, l).shown;
    PrefixOfTrace(start, t.shown, rest, shown, all.shown);
    if t.clean {
      var more := ScanTrace(c, listings, wait, l + 1).shown;
      assert (start + t.shown) + more == start + (t.shown + more);
    }
  }

  lemma JudgedOneMore(c: Config, w: World, loaded: map<int, int>, runs: seq<Run>, run: Run)
    requires DistinctIds(runs) && run.id !in Ids(runs)
    ensures DistinctIds(runs + [run]) && Ids(runs + [run]) == Ids(runs) + {run.id}
    ensures Sum(c, w, loaded, runs + [run]) == Sum(c, w, loaded, runs) + Count(c, w, loaded, run)
  {
    IdsSnoc(runs, run);
    SumSnoc(c, w, loaded, runs, run);
    DistinctSnoc(runs, run);
  }

  lemma LearnedMore(c: Config, w: World, loaded: map<int, int>, memo: map<int, int>, shown: seq<Run>, more: seq<Run>)
    requires Learned(c, w, loaded, memo, shown)
    ensures Learned(c, w, loaded, memo, shown + more)
  {
    forall id | id in memo && id !in loaded ensures exists r :: r in shown + more && Confirms(c, w, r, id) {
      var r :| r in shown && Confirms(c, w, r, id);
      assert r in shown + more;
    }
  }

  lemma SameIdsAsFirsts(a: seq<Run>, b: seq<Run>)
    requires multiset(a) == multiset(b)
    ensures Ids(a) == Ids(b) && forall r :: r in a <==> r in b
  {
    forall r ensures r in a <==> r in b { assert r in multiset(a) <==> r in multiset(b); }
  }

  /** A pass over the listing ended normally and every run it delivered is among the runs shown. */
  ghost predicate CleanPass(c: Config, r: Replies, n: nat, shown: seq<Run>) {
    n <= c.maxPages && Reconciled(r, n, c.cap) && forall x | x in Body(r.pages, n) :: x in shown
  }

  ghost predicate EndedClean(c: Config, passes: nat -> Replies, shown: seq<Run>) {
    exists a: nat, n: nat :: a <= c.retries && CleanPass(c, passes(a), n, shown)
  }

  lemma StillEnded(c: Config, passes: nat -> Replies, shown: seq<Run>, more: seq<Run>)
    requires EndedClean(c, passes, shown) && shown <= more
    ensures EndedClean(c, passes, more)
  {
    var a: nat, n: nat :| a <= c.retries && CleanPass(c, passes(a), n, shown);
    assert forall x | x in shown :: x in more;
    assert CleanPass(c, passes(a), n, more);
  }

  lemma BodyShown(c: Config, passes: nat -> Replies, a: nat, start: seq<Run>, shown: seq<Run>)
    requires a <= c.retries
    requires var e := PassFrom(passes(a), 0, c.cap, c.maxPages);
             Reconciled(passes(a), e.pages, c.cap) && shown == start + Body(passes(a).pages, e.pages)
    ensures EndedClean(c, passes, shown)
  {
    hide Reconciled, PassFrom;
    var e := PassFrom(passes(a), 0, c.cap, c.maxPages);
    assert CleanPass(c, passes(a), e.pages, shown);
  }

  /** One attempt further along the trace of a listing. */
  lemma NextAttempt(c: Config, passes: nat -> Replies, wait: nat -> bool, a: nat, before: seq<Run>, done: seq<Run>,
                    start: seq<Run>, shown: seq<Run>, t: Trace)
    requires a <= c.retries && start == before + done
    requires t == Trace(done + WalkTrace(c, passes, wait, a).shown, WalkTrace(c, passes, wait, a).clean)
    requires var e := PassFrom(passes(a), 0, c.cap, c.maxPages); start <= shown <= start + Body(passes(a).pages, e.pages)
    ensures before <= shown <= before + t.shown
    ensures var e := PassFrom(passes(a), 0, c.cap, c.maxPages);
            var body := Body(passes(a).pages, e.pages);
            && (!(e.o.Race? && a < c.retries && wait(a)) ==> t == Trace(done + body, e.o.Clean?))
            && (e.o.Race? && a < c.retries && wait(a) ==>
                  t == Trace((done + body) + WalkTrace(c, passes, wait, a + 1).shown, WalkTrace(c, passes, wait, a + 1).clean))
            && start + body == before + (done + body)
  {
    hide PassFrom, Body;
    var e := PassFrom(passes(a), 0, c.cap, c.maxPages);
    var body := Body(passes(a).pages, e.pages);
    if e.o.Race? && a < c.retries && wait(a) {
      var rest := WalkTrace(c, passes, wait, a + 1).shown;
      assert done + (body + rest) == (done + body) + rest;
    }
    ShownSoFar(before, done, body, t.shown, shown);
  }

  lemma ShownSoFar(before: seq<Run>, done: seq<Run>, body: seq<Run>, all: seq<Run>, shown: seq<Run>)
    requires before + done <= shown <= (before + done) + body && done + body <= all
    ensures before <= shown <= before + all
  {
  }

  lemma PrefixOfTrace(start: seq<Run>, first: seq<Run>, rest: seq<Run>, shown: seq<Run>, all: seq<Run>)
    requires all == start + rest && first <= rest && start <= shown <= start + first
    ensures shown <= all
  {
  }

  /** A pending run is one of the first records; judging it leaves the others pending. */
  lemma OneOfPending(pending: seq<Run>, i: nat, judged: seq<Run>, shown: seq<Run>)
    requires DistinctIds(pending) && i < |pending| && Ids(pending) !! Ids(judged)
    requires multiset(judged) + multiset(pending) == multiset(Firsts(shown))
    ensures pending[i] in Firsts(shown) && pending[i] in shown && pending[i].id !in Ids(judged)
    ensures var rest, more := pending[..i] + pending[i + 1..], judged + [pending[i]];
            && DistinctIds(rest) && Ids(rest) == Ids(pending) - {pending[i].id} && pending[i].id in Ids(pending)
            && multiset(more) + multiset(rest) == multiset(Firsts(shown))
  {
    hide Firsts;
    PickOne(pending, i);
    TakeOut(pending, i);
    assert pending[i] in multiset(pending);
    assert pending[i] in multiset(Firsts(shown));
    assert pending[i].id in Ids(pending);
    FirstsShown(shown);
  }

  lemma Splice(s: seq<Run>, i: nat, x: Run)
    requires i < |s|
    ensures x in s <==> x in s[..i] + s[i + 1..] || x == s[i]
  {
    assert s == s[..i] + [s[i]] + s[i + 1..];
  }

  lemma PickOne(s: seq<Run>, i: nat)
    requires DistinctIds(s) && i < |s|
    ensures DistinctIds(s[..i] + s[i + 1..])
    ensures Ids(s[..i] + s[i + 1..]) == Ids(s) - {s[i].id}
  {
    var rest := s[..i] + s[i + 1..];
    assert forall k: nat | k < |rest| :: rest[k] == s[if k < i then k else k + 1];
    forall x ensures x in s <==> x in rest || x == s[i] { Splice(s, i, x); }
    forall x | x in rest ensures x.id != s[i].id {
      var k: nat :| k < |rest| && rest[k] == x;
    }
  }

  predicate AllSome(items: seq<Option<Run>>) { forall i | 0 <= i < |items| :: items[i].Some? }

  function Values(items: seq<Option<Run>>): (runs: seq<Run>)
    requires AllSome(items)
    ensures |runs| == |items| && forall i | 0 <= i < |items| :: items[i] == Some(runs[i])
  {
    seq(|items|, i requires 0 <= i < |items| => items[i].value)
  }

  lemma RepeatedId(body: seq<Run>, items: seq<Option<Run>>, runs: seq<Run>, run: Run)
    requires AllSome(items) && |runs| < |items| && items[|runs|] == Some(run)
    requires forall k | 0 <= k < |runs| :: items[k] == Some(runs[k])
    requires run.id in Ids(body + runs)
    ensures !DistinctIds(body + Values(items))
  {
    var all := body + Values(items);
    var x :| x in body + runs && x.id == run.id;
    var k :| 0 <= k < |body + runs| && (body + runs)[k] == x;
    assert all[k] == x && all[|body| + |runs|] == run;
  }

  lemma BadIds(r: Replies, page: nat, items: seq<Option<Run>>)
    requires r.pages(page + 1).Page? && r.pages(page + 1).items == items
    requires !AllSome(items) || !DistinctIds(Body(r.pages, page) + Values(items))
    ensures !AllSome(items) || !DistinctIds(Body(r.pages, page + 1))
  {
    if AllSome(items) { assert Runs(r.pages(page + 1)) == Values(items); }
  }

  /** The id loop of a page: every item has an id, and no id repeats within the pass. */
  method ReadIds(items: seq<Option<Run>>, ghost body: seq<Run>, seen: set<int>)
    returns (o: Outcome, runs: seq<Run>, seen': set<int>)
    requires DistinctIds(body) && seen == Ids(body)
    ensures o == IdCheck(body, items) && (o.Clean? || o.Race? || o.BadListing?)
    ensures o.Clean? ==> |runs| == |items| && forall i | 0 <= i < |items| :: items[i] == Some(runs[i])
    ensures o.Clean? ==> DistinctIds(body + runs) && seen' == Ids(body + runs)
    ensures o.BadListing? ==> !AllSome(items)
    ensures o.Race? && AllSome(items) ==> !DistinctIds(body + Values(items))
  {
    hide IdCheck, DistinctIds, Ids, ItemIds;
    runs, seen' := [], seen;
    assert body + [] == body;
    NoItems(body);
    for i := 0 to |items|
      invariant |runs| == i && forall k | 0 <= k < i :: items[k] == Some(runs[k])
      invariant DistinctIds(body + runs) && seen' == Ids(body + runs)
      invariant IdCheck(body, items[..i]).Clean? && seen' == Ids(body) + ItemIds(items[..i])
    {
      IdCheckStep(body, items, i);
      if !IdCheck(body, items[..i + 1]).Clean? { IdCheckDoomed(body, items, i + 1); }
      if items[i].None? { return BadListing, [], {}; }
      var run := items[i].value;
      ItemIdsSnoc(items, i);
      assert body + (runs + [run]) == (body + runs) + [run];
      IdsSnoc(body + runs, run);
      if run.id in seen' {
        if AllSome(items) { RepeatedId(body, items, runs, run); }
        return Race, [], {};
      }
      DistinctSnoc(body + runs, run);
      runs, seen' := runs + [run], seen' + {run.id};
    }
    assert items[..|items|] == items;
    o := Clean;
  }

  lemma NoItems(body: seq<Run>)
    ensures IdCheck(body, []) == Clean && ItemIds([]) == {}
  {
  }

  lemma IdCheckStep(body: seq<Run>, items: seq<Option<Run>>, i: nat)
    requires i < |items| && IdCheck(body, items[..i]).Clean?
    ensures IdCheck(body, items[..i + 1]) ==
            if items[i].None? then BadListing
            else if items[i].value.id in Ids(body) + ItemIds(items[..i]) then Race else Clean
  {
    assert items[..i + 1][..i] == items[..i];
  }

  lemma ItemIdsSnoc(items: seq<Option<Run>>, i: nat)
    requires i < |items| && items[i].Some?
    ensures ItemIds(items[..i + 1]) == ItemIds(items[..i]) + {items[i].value.id}
  {
    assert items[..i + 1] == items[..i] + [items[i]];
  }

  lemma NothingRead(r: Replies, cap: int, total: int)
    ensures Progress(r, 0, cap, total) && Body(r.pages, 0) == [] && Ids([]) == {}
  {
  }

  /** One page further into a pass. */
  lemma PassStep(r: Replies, n: nat, cap: int, maxPages: nat, before: seq<Run>)
    requires n < maxPages
    ensures var e, check := PassFrom(r, n, cap, maxPages), PageCheck(r, n, cap);
            && before <= before + Body(r.pages, n) <= before + Body(r.pages, e.pages)
            && (!check.Clean? ==> e == PassEnd(check, n))
            && (check.Clean? ==>
                  && before + Body(r.pages, n + 1) <= before + Body(r.pages, e.pages)
                  && before <= before + Body(r.pages, n + 1)
                  && r.pages(n + 1).Page? && r.pages(n + 1).total.Some?
                  && (EndCheck(r, n).Some? ==> e == PassEnd(EndCheck(r, n).value, n + 1))
                  && (EndCheck(r, n).None? ==> e == PassFrom(r, n + 1, cap, maxPages)))
  {
    hide EndCheck, IdCheck;
    var e := PassFrom(r, n, cap, maxPages);
    BodyPrefix(r.pages, n, e.pages);
    if PageCheck(r, n, cap).Clean? { BodyPrefix(r.pages, n + 1, e.pages); }
  }

  lemma OutOfPages(r: Replies, cap: int, maxPages: nat)
    ensures PassFrom(r, maxPages, cap, maxPages) == PassEnd(BadListing, maxPages)
  {
  }

  lemma PageIds(r: Replies, page: nat, runs: seq<Run>)
    requires runs == Runs(r.pages(page + 1))
    ensures Body(r.pages, page + 1) == Body(r.pages, page) + runs
    ensures Ids(Body(r.pages, page + 1)) == Ids(Body(r.pages, page)) + Ids(runs)
    ensures |Body(r.pages, page + 1)| == |Body(r.pages, page)| + |runs|
  {
  }

  /** What a pass checks on a page before it hands the page to `visit`. */
  method CheckPage(r: Replies, page: nat, cap: int, maxPages: nat, expected: int, seen: set<int>)
    returns (o: Outcome, total: int, runs: seq<Run>, seen': set<int>)
    requires Progress(r, page, cap, expected) && DistinctIds(Body(r.pages, page)) && seen == Ids(Body(r.pages, page))
    ensures o == PageCheck(r, page, cap) && (o.Clean? || o.Race? || o.BadListing?)
    ensures o.Clean? ==> WellFormed(r.pages(page + 1), cap) && r.pages(page + 1).total == Some(total)
    ensures o.Clean? && page > 0 ==> total == expected
    ensures o.Clean? ==> runs == Runs(r.pages(page + 1)) && DistinctIds(Body(r.pages, page + 1))
    ensures o.Clean? ==> seen' == Ids(Body(r.pages, page + 1))
    ensures !o.Clean? ==> Hopeless(r, cap, maxPages)
  {
    var reply := r.pages(page + 1);
    total, runs, seen' := expected, [], {};
    if reply.Fault? || reply.total.None? || reply.total.value < 0 || reply.total.value >= cap {
      FailedPage(r, page, cap, expected, maxPages);
      return BadListing, total, runs, seen';
    }
    total := reply.total.value;
    if page > 0 && total != expected {
      FailedPage(r, page, cap, expected, maxPages);
      return Race, total, runs, seen';
    }
    o, runs, seen' := ReadIds(reply.items, Body(r.pages, page), seen);
    if !o.Clean? {
      BadIds(r, page, reply.items);
      FailedPage(r, page, cap, total, maxPages);
    } else {
      assert runs == Runs(reply);
    }
  }

  /** What a pass decides after a page was visited; None means the next page is requested. */
  method EndOfPass(r: Replies, page: nat, cap: int, maxPages: nat, total: int, delivered: nat,
                   first: seq<Run>, runs: seq<Run>) returns (end: Option<Outcome>)
    requires Progress(r, page, cap, total) && (page > 0 ==> first == Runs(r.pages(1)))
    requires WellFormed(r.pages(page + 1), cap) && r.pages(page + 1).total == Some(total)
    requires DistinctIds(Body(r.pages, page + 1)) && runs == Runs(r.pages(page + 1))
    requires delivered == |Body(r.pages, page + 1)|
    ensures end.None? ==> Progress(r, page + 1, cap, total)
    ensures end == EndCheck(r, page)
    ensures end.Some? ==> end.value.Clean? || end.value.Race? || end.value.BadListing?
    ensures end == Some(Clean) ==> Reconciled(r, page + 1, cap)
    ensures end.Some? && !end.value.Clean? ==> Hopeless(r, cap, maxPages)
  {
    if delivered >= total {
      if delivered != total
         || (page > 0 && (r.verify.Fault? || r.verify.total != Some(total) || !SameIds(r.verify.items, first))) {
        FailedPage(r, page, cap, total, maxPages);
        return Some(if delivered == total && page > 0 && r.verify.Fault? then BadListing else Race);
      }
      return Some(Clean);
    }
    if |runs| < PER_PAGE {
      FailedPage(r, page, cap, total, maxPages);
      return Some(Race);
    }
    end := None;
  }
}
