/**
 The stale-demand memo of scripts/assignment_scan.py over any number of scans that overlap as they
 like: lanes with labels of their own share one file, no lock orders them, and updates get lost. The
 memo saves job fetches and changes no answer, as long as a run confirmed stale stays without a
 match for the TTL.
 */
module QueueMemo {
  import opened Basics
  import opened QueueListing
  import opened QueueScan

  /**
   One scan: its lane's configuration, what the API answered about runs, the records it was shown,
   the version of the file it loaded, and the memo it had at its end.
   */
  datatype Pass = Pass(c: Config, ttl: int, w: World, shown: seq<Run>, version: nat, memo: map<int, int>)

  /** What replaces the file: the memo of a scan, or something unreadable, which loads as nothing. */
  datatype Write = Persist(pass: nat) | Torn

  /** `_load`: records at or past the TTL are dropped. */
  function Load(file: map<int, int>, now: int, ttl: int): map<int, int> {
    map id | id in file && now - file[id] < ttl :: file[id]
  }

  function LoadedBy(files: seq<map<int, int>>, pass: Pass): map<int, int>
    requires pass.version < |files|
  {
    Load(files[pass.version], pass.w.now, pass.ttl)
  }

  /**
   The history of the quarantine file: a scan loads some version and learns; whenever it persists,
   its memo replaces whatever the file holds by then.
   */
  ghost predicate History(files: seq<map<int, int>>, writes: seq<Write>, passes: seq<Pass>) {
    && |files| == |writes| + 1 && files[0] == map[]
    && (forall i | 0 <= i < |passes| ::
          && passes[i].version < |files|
          && Learned(passes[i].c, passes[i].w, LoadedBy(files, passes[i]), passes[i].memo, passes[i].shown))
    && (forall j | 0 <= j < |writes| ::
          match writes[j]
          case Torn => files[j + 1] == map[]
          case Persist(k) => k < |passes| && passes[k].version <= j && files[j + 1] == passes[k].memo)
  }

  /** The scan was shown a record of run `id` and confirmed it stale. */
  ghost predicate Confirmed(pass: Pass, id: int) {
    exists r :: r in pass.shown && Confirms(pass.c, pass.w, r, id)
  }

  /** Scan k persisted its memo as version `n` of the file or before. */
  predicate PersistedBy(writes: seq<Write>, k: nat, n: nat)
    requires n <= |writes|
  {
    Persist(k) in writes[..n]
  }

  /** Some scan that persisted by version `n` confirmed run `id` stale at time `at`. */
  ghost predicate ConfirmedBefore(writes: seq<Write>, passes: seq<Pass>, n: nat, id: int, at: int)
    requires n <= |writes|
  {
    exists k :: 0 <= k < |passes| && PersistedBy(writes, k, n) && passes[k].w.now == at && Confirmed(passes[k], id)
  }

  /** Every record of every version of the file is a confirmation, stamped with the time it was made. */
  lemma {:induction false} RecordsAreConfirmations(files: seq<map<int, int>>, writes: seq<Write>, passes: seq<Pass>, n: nat, id: int)
    requires History(files, writes, passes) && n <= |writes| && id in files[n]
    ensures ConfirmedBefore(writes, passes, n, id, files[n][id])
  {
    if n > 0 {
      var k := writes[n - 1].pass;
      assert writes[n - 1] in writes[..n];
      assert PersistedBy(writes, k, n);
      var before := passes[k].version;
      if id !in LoadedBy(files, passes[k]) {
        assert Confirmed(passes[k], id);
      } else {
        RecordsAreConfirmations(files, writes, passes, before, id);
        var q :| 0 <= q < |passes| && PersistedBy(writes, q, before) && passes[q].w.now == files[before][id] && Confirmed(passes[q], id);
        assert writes[..before] <= writes[..n];
        assert PersistedBy(writes, q, n);
      }
    }
  }

  /**
   So some scan that persisted was shown, at the time of the record, an old merge-queue run whose branch
   was answered to be gone, and read all its jobs and found none queued.
   */
  lemma RecordsWereSeen(files: seq<map<int, int>>, writes: seq<Write>, passes: seq<Pass>, n: nat, id: int)
    requires History(files, writes, passes) && n <= |writes| && id in files[n]
    ensures exists k: nat, r :: k < |passes| && PersistedBy(writes, k, n) && r in passes[k].shown && r.id == id
              && passes[k].w.now == files[n][id] && passes[k].c.classifyStale
              && r.event == "merge_group" && r.age.Some? && r.age.value >= passes[k].c.staleMinAge
              && passes[k].w.branchLive(id) == Some(false)
              && passes[k].w.jobs(id).Some? && forall j | j in passes[k].w.jobs(id).value :: !j.queued
  {
    RecordsAreConfirmations(files, writes, passes, n, id);
    var k :| 0 <= k < |passes| && PersistedBy(writes, k, n) && passes[k].w.now == files[n][id] && Confirmed(passes[k], id);
    var r :| r in passes[k].shown && Confirms(passes[k].c, passes[k].w, r, id);
  }

  /** A run confirmed stale by any lane gains no job matching the labels of a lane that can load the record within its TTL. */
  ghost predicate StaleStaysStale(writes: seq<Write>, passes: seq<Pass>) {
    forall k, i, id | 0 <= k < |passes| && 0 <= i < |passes| && passes[i].version <= |writes|
                      && PersistedBy(writes, k, passes[i].version)
                      && passes[i].w.now - passes[k].w.now < passes[i].ttl && Confirmed(passes[k], id) ::
      NoMatch(passes[i].c, passes[i].w, id)
  }

  predicate NoMatch(c: Config, w: World, id: int) {
    w.jobs(id).Some? ==> forall j | j in w.jobs(id).value :: !Matches(c, j)
  }

  /** A memo hit at scan i rests on a confirmation less than its TTL old. */
  lemma HitsAreRecent(files: seq<map<int, int>>, writes: seq<Write>, passes: seq<Pass>, i: nat, id: int)
    requires History(files, writes, passes) && i < |passes| && id in LoadedBy(files, passes[i])
    ensures exists k :: 0 <= k < |passes| && PersistedBy(writes, k, passes[i].version)
                        && passes[i].w.now - passes[k].w.now < passes[i].ttl && Confirmed(passes[k], id)
  {
    var n := passes[i].version;
    RecordsAreConfirmations(files, writes, passes, n, id);
    var k :| 0 <= k < |passes| && PersistedBy(writes, k, n) && passes[k].w.now == files[n][id] && Confirmed(passes[k], id);
    assert passes[i].w.now - passes[k].w.now < passes[i].ttl;
  }

  /** The memo never changes the count of a run, nor whether it is a witness. */
  lemma MemoKeepsVerdict(files: seq<map<int, int>>, writes: seq<Write>, passes: seq<Pass>, i: nat, run: Run)
    requires History(files, writes, passes) && StaleStaysStale(writes, passes) && i < |passes|
    ensures var pass, loaded := passes[i], LoadedBy(files, passes[i]);
            && Count(pass.c, pass.w, loaded, run) == Count(pass.c, pass.w, map[], run)
            && Witnessed(pass.c, pass.w, loaded, run) == Witnessed(pass.c, pass.w, map[], run)
  {
    var c, w, loaded := passes[i].c, passes[i].w, LoadedBy(files, passes[i]);
    if Remembered(c, loaded, run) {
      HitsAreRecent(files, writes, passes, i, run.id);
      assert NoMatch(c, w, run.id);
      if w.jobs(run.id).Some? {
        assert MatchIds(c, w.jobs(run.id).value) == {};
      }
    }
  }

  /** Neither count nor witness of any run depends on which of two memos is loaded. */
  ghost predicate SameVerdicts(c: Config, w: World, a: map<int, int>, b: map<int, int>) {
    forall r :: Count(c, w, a, r) == Count(c, w, b, r) && Witnessed(c, w, a, r) == Witnessed(c, w, b, r)
  }

  lemma {:induction false} SameSum(c: Config, w: World, a: map<int, int>, b: map<int, int>, runs: seq<Run>)
    requires SameVerdicts(c, w, a, b)
    ensures Sum(c, w, a, runs) == Sum(c, w, b, runs)
  {
    hide Count;
    if runs != [] { SameSum(c, w, a, b, runs[..|runs| - 1]); }
  }

  /** A witness of one scan counts for the other as soon as that is shown as much. */
  lemma SeenByBoth(c: Config, w: World, a: map<int, int>, b: map<int, int>, shown: seq<Run>, all: seq<Run>)
    requires SameVerdicts(c, w, a, b) && shown <= all && exists r :: r in Firsts(shown) && Witnessed(c, w, a, r)
    ensures exists r :: r in Firsts(all) && Count(c, w, b, r) > 0
  {
    hide Witnessed, Count, Firsts;
    var r :| r in Firsts(shown) && Witnessed(c, w, a, r);
    assert all == shown + all[|shown|..];
    FirstsPrefix(shown, all[|shown|..], r);
    WitnessCounts(c, w, b, r);
  }

  /** Two scans of the same listings that both complete answer alike, in either mode. */
  lemma SameAnswer(c: Config, w: World, a: map<int, int>, b: map<int, int>, listings: seq<nat -> Replies>, wait: (nat, nat) -> bool,
                   shownA: seq<Run>, foundA: bool, m: nat, shownB: seq<Run>, foundB: bool, n: nat)
    requires SameVerdicts(c, w, a, b)
    requires ScanAnswers(c, w, a, listings, wait, shownA, foundA, Found(m))
    requires ScanAnswers(c, w, b, listings, wait, shownB, foundB, Found(n))
    ensures m == n && foundA == foundB
  {
    hide Witnessed, Count, Firsts, Judged, Sum, ScanTrace;
    var all := ScanTrace(c, listings, wait, 0).shown;
    if foundA { SeenByBoth(c, w, a, b, shownA, all); }
    if foundB { SeenByBoth(c, w, b, a, shownB, all); }
    SameSum(c, w, a, b, Firsts(all));
  }

  /**
   Over every history of overlapping scans: scan i with the memo it loads, and a scan of the same
   listings at the same time that remembers nothing, return the same whenever both complete.
   */
  lemma MemoIsInvisible(files: seq<map<int, int>>, writes: seq<Write>, passes: seq<Pass>, i: nat,
                        listings: seq<nat -> Replies>, wait: (nat, nat) -> bool,
                        shownA: seq<Run>, foundA: bool, m: nat, shownB: seq<Run>, foundB: bool, n: nat)
    requires History(files, writes, passes) && StaleStaysStale(writes, passes) && i < |passes|
    requires ScanAnswers(passes[i].c, passes[i].w, LoadedBy(files, passes[i]), listings, wait, shownA, foundA, Found(m))
    requires ScanAnswers(passes[i].c, passes[i].w, map[], listings, wait, shownB, foundB, Found(n))
    ensures m == n && foundA == foundB
  {
    hide StaleStaysStale, ScanAnswers, Witnessed, Count;
    var c, w, loaded := passes[i].c, passes[i].w, LoadedBy(files, passes[i]);
    forall r ensures Count(c, w, loaded, r) == Count(c, w, map[], r) && Witnessed(c, w, loaded, r) == Witnessed(c, w, map[], r) {
      MemoKeepsVerdict(files, writes, passes, i, r);
    }
    SameAnswer(c, w, loaded, map[], listings, wait, shownA, foundA, m, shownB, foundB, n);
  }

  /** `scan` twice: with the loaded memo and without one. */
  method ScanTwice(ghost files: seq<map<int, int>>, ghost writes: seq<Write>, ghost passes: seq<Pass>, ghost i: nat,
                   c: Config, w: World, loaded: map<int, int>,
                   listings: seq<nat -> Replies>, wait: (nat, nat) -> bool) returns (a: ScanResult, b: ScanResult)
    requires History(files, writes, passes) && StaleStaysStale(writes, passes) && i < |passes|
    requires c == passes[i].c && w == passes[i].w && loaded == LoadedBy(files, passes[i])
    ensures a.Found? && b.Found? ==> a == b
  {
    hide History, StaleStaysStale, ScanAnswers;
    var s := new Scanner(c, w, loaded);
    a := s.Scan(listings, wait);
    var t := new Scanner(c, w, map[]);
    b := t.Scan(listings, wait);
    if a.Found? && b.Found? {
      MemoIsInvisible(files, writes, passes, i, listings, wait, s.shown, s.found, a.n, t.shown, t.found, b.n);
    }
  }
}
