/**
 The verdict cache of scripts/ccache_guard.py over any sequence of complete and cut runs: exactly
 which entries it lets through, and exactly which changes between runs make it do so.
 */
module GuardVerdicts {
  import opened Basics
  import opened GuardRotation
  import opened GuardCursor
  import opened GuardScan

  /** One run: the cache and host it met, how far it got, and whether it saved its verdict cache. */
  datatype Pass = Pass(w: World, m: Mode, cache: map<Path, File>, order: seq<Unit>, run: Run, saves: bool)

  /** Only a run that looks for suspects alone saves; a plan, a scan and a reset leave the file alone. */
  ghost predicate History(verdicts: seq<map<Path, Stamp>>, passes: seq<Pass>) {
    && |verdicts| == |passes| + 1 && verdicts[0] == map[]
    && forall i: nat | i < |passes| ::
         && (passes[i].saves ==> !passes[i].m.allZero)
         && verdicts[i + 1] == NextVerdicts(verdicts[i], passes[i])
  }

  function NextVerdicts(known: map<Path, Stamp>, pass: Pass): map<Path, Stamp> {
    if pass.saves then Learned(pass.w, pass.m, known, pass.cache, pass.order, pass.run) else known
  }

  /** Run k inspected an entry at path p with this stamp and proved it consistent. */
  ghost predicate ProvenBy(pass: Pass, p: Path, stamp: Stamp) {
    p in pass.cache && StampOf(pass.cache[p]) == stamp && Proven(pass.w, p, pass.cache[p])
  }

  lemma OneRunLearns(known: map<Path, Stamp>, pass: Pass, p: Path)
    requires p in NextVerdicts(known, pass)
    ensures (p in known && NextVerdicts(known, pass)[p] == known[p]) || ProvenBy(pass, p, NextVerdicts(known, pass)[p])
  {
    hide Done, WasCut, Proven;
  }

  /** Every record goes back to a run that proved the entry it was made for; hits renew nothing else. */
  lemma {:induction false} RecordsAreProven(verdicts: seq<map<Path, Stamp>>, passes: seq<Pass>, i: nat, p: Path) returns (k: nat)
    requires History(verdicts, passes) && i <= |passes| && p in verdicts[i]
    ensures k < i && ProvenBy(passes[k], p, verdicts[i][p])
  {
    OneRunLearns(verdicts[i - 1], passes[i - 1], p);
    if p in verdicts[i - 1] && verdicts[i][p] == verdicts[i - 1][p] {
      k := RecordsAreProven(verdicts, passes, i - 1, p);
    } else {
      k := i - 1;
    }
  }

  // ------------------------------------------------------------- when a record stands

  /** The run inspects the entry, proves it and saves the record. */
  predicate Confirms(pass: Pass, p: Path, stamp: Stamp) {
    && pass.saves && p in pass.cache && StampOf(pass.cache[p]) == stamp && pass.cache[p].size <= pass.m.sizeCap
    && Proven(pass.w, p, pass.cache[p]) && p in Done(pass.order, pass.run)
  }

  /** The run came to the entry and found it as recorded, or cut short, found nothing better to record. */
  predicate Keeps(pass: Pass, p: Path, stamp: Stamp) {
    var met := p in Done(pass.order, pass.run) && p in pass.cache && pass.cache[p].size <= pass.m.sizeCap;
    || !pass.saves
    || (met && StampOf(pass.cache[p]) == stamp)
    || (WasCut(pass.order, pass.run) && !(met && Proven(pass.w, p, pass.cache[p])))
  }

  /** Some earlier run confirmed the entry with this stamp, and every run since has kept the record. */
  ghost predicate Stands(passes: seq<Pass>, i: nat, p: Path, stamp: Stamp)
    requires i <= |passes|
  {
    exists k: nat :: k < i && Confirms(passes[k], p, stamp) && forall j | k < j < i :: Keeps(passes[j], p, stamp)
  }

  predicate Recorded(known: map<Path, Stamp>, p: Path, stamp: Stamp) { p in known && known[p] == stamp }

  lemma OneRunKeeps(known: map<Path, Stamp>, pass: Pass, p: Path, stamp: Stamp)
    requires pass.saves ==> !pass.m.allZero
    ensures Recorded(NextVerdicts(known, pass), p, stamp) <==>
      Confirms(pass, p, stamp) || (Recorded(known, p, stamp) && Keeps(pass, p, stamp))
  {
    hide Done, WasCut, Proven;
  }

  lemma StandsOnce(passes: seq<Pass>, i: nat, p: Path, stamp: Stamp)
    requires i < |passes|
    ensures Stands(passes, i + 1, p, stamp) <==>
      Confirms(passes[i], p, stamp) || (Stands(passes, i, p, stamp) && Keeps(passes[i], p, stamp))
  {
    hide Confirms, Keeps;
    if Stands(passes, i, p, stamp) && Keeps(passes[i], p, stamp) {
      var k: nat :| k < i && Confirms(passes[k], p, stamp) && forall j | k < j < i :: Keeps(passes[j], p, stamp);
      assert forall j | k < j < i + 1 :: Keeps(passes[j], p, stamp);
    }
  }

  /** The records of any history, from its runs alone. */
  lemma {:induction false} RecordsStand(verdicts: seq<map<Path, Stamp>>, passes: seq<Pass>, i: nat, p: Path, stamp: Stamp)
    requires History(verdicts, passes) && i <= |passes|
    ensures Recorded(verdicts[i], p, stamp) <==> Stands(passes, i, p, stamp)
  {
    hide Confirms, Keeps;
    if i > 0 {
      RecordsStand(verdicts, passes, i - 1, p, stamp);
      OneRunKeeps(verdicts[i - 1], passes[i - 1], p, stamp);
      StandsOnce(passes, i - 1, p, stamp);
      hide Stands;
    }
  }

  /** What the guard would do at run i without its verdict cache, and what it does. */
  predicate Astray(passes: seq<Pass>, known: map<Path, Stamp>, i: nat, p: Path)
    requires i < |passes| && p in passes[i].cache
  {
    var pass := passes[i];
    Flagged(pass.w, pass.m, known, p, pass.cache[p]) != Condemned(pass.w, pass.m, p, pass.cache[p])
  }

  /**
   In every history the verdict cache changes a decision exactly where the entry is a suspect now, an
   earlier run proved an entry of the same path, size and mtime, and no run since dropped that record.
   */
  lemma SlipsExactly(verdicts: seq<map<Path, Stamp>>, passes: seq<Pass>, i: nat, p: Path)
    requires History(verdicts, passes) && i < |passes| && p in passes[i].cache
    ensures var pass, f := passes[i], passes[i].cache[p];
            Astray(passes, verdicts[i], i, p) <==>
              !pass.m.allZero && Condemned(pass.w, pass.m, p, f) && Stands(passes, i, p, StampOf(f))
  {
    hide Stands, Proven;
    RecordsStand(verdicts, passes, i, p, StampOf(passes[i].cache[p]));
  }

  // ------------------------------------------------------------- changes between the runs

  datatype Change = ResultTurns | StampReused

  /** Between run k, which proved an entry, and run i, which finds its stamp again. */
  ghost predicate Happens(c: Change, before: Pass, after: Pass, p: Path)
    requires p in before.cache && Proven(before.w, p, before.cache[p]) && p in after.cache
  {
    match c
    case StampReused => after.cache[p] != before.cache[p]
    case ResultTurns => exists key :: key in before.cache[p].info.value.results
                                      && after.w.result(p.unit.root, key) != before.w.result(p.unit.root, key)
  }

  /** Whatever changes about a proven entry while its stamp stays is of an allowed kind. */
  ghost predicate Only(passes: seq<Pass>, allowed: Change -> bool) {
    forall k: nat, i: nat, p: Path, c: Change | k < i < |passes| && p in passes[i].cache && ProvenBy(passes[k], p, StampOf(passes[i].cache[p])) ::
      Happens(c, passes[k], passes[i], p) ==> allowed(c)
  }

  lemma NothingHappened(before: Pass, after: Pass, p: Path)
    requires p in after.cache && ProvenBy(before, p, StampOf(after.cache[p]))
    requires !Happens(StampReused, before, after, p) && !Happens(ResultTurns, before, after, p)
    ensures Proven(after.w, p, after.cache[p])
  {
    forall key | key in after.cache[p].info.value.results ensures after.w.result(p.unit.root, key) == Consistent {
      assert before.w.result(p.unit.root, key) == Consistent;
    }
  }

  /** In every history of complete and cut runs without such a change the verdict cache changes no decision. */
  lemma VerdictCacheIsInvisible(verdicts: seq<map<Path, Stamp>>, passes: seq<Pass>, allowed: Change -> bool, i: nat, p: Path)
    requires History(verdicts, passes) && Only(passes, allowed) && (forall c :: !allowed(c))
    requires i < |passes| && p in passes[i].cache
    ensures !Astray(passes, verdicts[i], i, p)
  {
    hide Only, Proven, Confirms, Keeps;
    SlipsExactly(verdicts, passes, i, p);
    if Astray(passes, verdicts[i], i, p) {
      StillProven(passes, allowed, i, p);
    }
  }

  /** A record that stands vouches for an entry that is still proven. */
  lemma StillProven(passes: seq<Pass>, allowed: Change -> bool, i: nat, p: Path)
    requires Only(passes, allowed) && (forall c :: !allowed(c)) && i < |passes| && p in passes[i].cache
    requires Stands(passes, i, p, StampOf(passes[i].cache[p]))
    ensures Proven(passes[i].w, p, passes[i].cache[p])
  {
    hide Happens, Proven, Keeps;
    var stamp := StampOf(passes[i].cache[p]);
    var k: nat :| k < i && Confirms(passes[k], p, stamp) && forall j | k < j < i :: Keeps(passes[j], p, stamp);
    assert ProvenBy(passes[k], p, stamp);
    hide Confirms;
    forall c ensures !Happens(c, passes[k], passes[i], p) { assert Happens(c, passes[k], passes[i], p) ==> allowed(c); }
    NothingHappened(passes[k], passes[i], p);
  }

  // ------------------------------------------------------------- each kind is needed

  /** One run proves the entry, and the next one, unlike it, finds a suspect with the same stamp. */
  function TwoRuns(w1: World, f1: File, w2: World, f2: File, p: Path, order: seq<Unit>, run: Run): seq<Pass> {
    [Pass(w1, Mode(false, f1.size), map[p := f1], order, run, true), Pass(w2, Mode(false, f1.size), map[p := f2], order, run, true)]
  }

  ghost function VerdictsOf(passes: seq<Pass>): (verdicts: seq<map<Path, Stamp>>)
    requires forall i | 0 <= i < |passes| :: passes[i].saves ==> !passes[i].m.allZero
    ensures History(verdicts, passes)
  {
    if passes == [] then [map[]]
    else
      var n := |passes| - 1;
      var before := VerdictsOf(passes[..n]);
      before + [NextVerdicts(before[n], passes[n])]
  }

  lemma SecondRunKeeps(w1: World, f1: File, w2: World, f2: File, p: Path, order: seq<Unit>, run: Run)
    requires Proven(w1, p, f1) && StampOf(f1) == StampOf(f2) && ZeroInclude(f2) && !Proven(w2, p, f2) && p in Done(order, run)
    ensures var passes := TwoRuns(w1, f1, w2, f2, p, order, run);
            Astray(passes, VerdictsOf(passes)[1], 1, p)
  {
    hide Proven, Done;
    var passes := TwoRuns(w1, f1, w2, f2, p, order, run);
    assert Confirms(passes[0], p, StampOf(f2));
    SlipsExactly(VerdictsOf(passes), passes, 1, p);
  }

  const U: Unit := Unit(0, "a", "b")
  const ENTRY: Path := Item(U, "x")
  const ONCE: Run := Run(u => ["x"], None)

  function Verdict(key: string): ResultVerdict { if key == "r" then Consistent else HasHeaders }

  function Good(): World { World((root, key) => Verdict(key), p => true) }

  function Turned(): World { World((root, key) => HasHeaders, p => true) }

  function Manifest(key: string): File { File(1, 0, true, Some(Info(0, [key]))) }

  lemma EntryIsDone()
    ensures ENTRY in Done([U], ONCE)
  {
    assert Walk([U], ONCE.entries) == Items(U, ["x"]) + Walk([U][1..], ONCE.entries);
    assert Items(U, ["x"])[0] == ENTRY;
    assert Walk([U], ONCE.entries)[0] == ENTRY;
  }

  /** A proven manifest whose result no longer confirms it is kept. */
  lemma TurnedResultSlips(allowed: Change -> bool)
    requires allowed(ResultTurns)
    ensures var passes := TwoRuns(Good(), Manifest("r"), Turned(), Manifest("r"), ENTRY, [U], ONCE);
            Only(passes, allowed) && Astray(passes, VerdictsOf(passes)[1], 1, ENTRY)
  {
    EntryIsDone();
    assert Proven(Good(), ENTRY, Manifest("r"));
    assert !Proven(Turned(), ENTRY, Manifest("r")) by { assert "r" in Manifest("r").info.value.results; }
    hide Done;
    SecondRunKeeps(Good(), Manifest("r"), Turned(), Manifest("r"), ENTRY, [U], ONCE);
  }

  /** A manifest put in the place of a proven one with its size and mtime is kept. */
  lemma ReusedStampSlips(allowed: Change -> bool)
    requires allowed(StampReused)
    ensures var passes := TwoRuns(Good(), Manifest("r"), Good(), Manifest("s"), ENTRY, [U], ONCE);
            Only(passes, allowed) && Astray(passes, VerdictsOf(passes)[1], 1, ENTRY)
  {
    EntryIsDone();
    assert Proven(Good(), ENTRY, Manifest("r"));
    assert !Proven(Good(), ENTRY, Manifest("s")) by { assert "s" in Manifest("s").info.value.results; }
    hide Done;
    SecondRunKeeps(Good(), Manifest("r"), Good(), Manifest("s"), ENTRY, [U], ONCE);
  }

  /** The history leaves no decision to the verdict cache. */
  ghost predicate Invisible(verdicts: seq<map<Path, Stamp>>, passes: seq<Pass>)
    requires |verdicts| == |passes| + 1
  {
    forall i: nat, p: Path | i < |passes| && p in passes[i].cache :: !Astray(passes, verdicts[i], i, p)
  }

  /**
   Exactness: whatever changes are allowed between runs, all histories with only those leave every
   decision as if nothing were remembered if and only if none is allowed.
   */
  lemma ChangesAreExact(allowed: Change -> bool)
    ensures (forall c :: !allowed(c)) <==>
      forall verdicts, passes :: History(verdicts, passes) && Only(passes, allowed) ==> Invisible(verdicts, passes)
  {
    hide Only, Astray;
    if c :| allowed(c) {
      var passes := if c == ResultTurns then TwoRuns(Good(), Manifest("r"), Turned(), Manifest("r"), ENTRY, [U], ONCE)
                    else TwoRuns(Good(), Manifest("r"), Good(), Manifest("s"), ENTRY, [U], ONCE);
      if c == ResultTurns { TurnedResultSlips(allowed); } else { ReusedStampSlips(allowed); }
      assert History(VerdictsOf(passes), passes) && !Invisible(VerdictsOf(passes), passes);
    } else {
      forall verdicts, passes: seq<Pass> | History(verdicts, passes) && Only(passes, allowed) ensures Invisible(verdicts, passes) {
        Lengths(verdicts, passes);
        forall i: nat, p: Path | i < |passes| && p in passes[i].cache ensures !Astray(passes, verdicts[i], i, p) {
          VerdictCacheIsInvisible(verdicts, passes, allowed, i, p);
        }
      }
    }
  }

  lemma Lengths(verdicts: seq<map<Path, Stamp>>, passes: seq<Pass>)
    requires History(verdicts, passes)
    ensures |verdicts| == |passes| + 1
  {
  }
}
