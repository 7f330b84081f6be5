/**
 A green layer is removed only after a whole pass over it: the process that removes it has come to
 every entry it listed, and each of them is in the shared cache or was beaten by what is there.
 */
module LayerCompletion {
  import opened Basics
  import opened LayerProtocol
  import opened LayerFrames
  import opened LayerProvenance
  import opened LayerRuns
  import opened LayerManifests
  import opened LayerResume
  import P = LayerPromotion

  /** A process inside `promote_layer` for the green layer `n`. */
  predicate Promotes(pc: Pc, n: string) { (pc.ProcPromote? || pc.ProcReplace?) && pc.name == n }

  /** The entries the process has yet to come to. */
  function Ahead(pc: Pc): set<Key> {
    match pc
    case ProcPromote(_, rest) => rest
    case ProcReplace(_, k, rest) => rest + {k}
    case _ => {}
  }

  /** Key `k` of green layer `n` lists inode `i` of layer `l`, a publishable file. */
  predicate Lists(s: State, n: string, l: LayerId, k: Key, i: Ino, file: File) {
    Candidate(s, n, k) && s.green[n] == l && Source(s, n, k) == i && s.w.inodes[i].file == file
  }

  /** A turn of the promotion loop for the entry; a host copy of a result may get another time. */
  predicate TurnFor(x: P.Item, k: Key, file: File) {
    && x.key == k && x.found.Regular?
    && x == ItemOf(k, file.(mtime := x.found.file.mtime))
    && (file.kind == ManifestEntry ==> x == ItemOf(k, file))
  }

  ghost predicate TurnAt(steps: seq<Step>, m: nat, pr: ProcId, k: Key, file: File) {
    && m < |steps| && steps[m].Run? && steps[m].pr == pr
    && Attempt(At(steps, m), steps[m]).Some? && TurnFor(Attempt(At(steps, m), steps[m]).value, k, file)
  }

  // ------------------------------------------------- nobody disturbs a promotion in progress

  lemma HolderSpared(s: State, pr: ProcId, q: ProcId, ch: Choice, n: string)
    requires Inv(s) && OneHome(s) && Promotable(s, pr, n) && q in s.procs
    requires q == pr ==> Promotes(s.procs[q], n)
    ensures var s' := Perform(s, q, Decide(s, s.procs[q], ch).effect);
            n in s'.green && s'.green[n] == s.green[n] && SameFiles(s.w, s'.w, s.green[n])
  {
    var e := Decide(s, s.procs[q], ch).effect;
    InvSplit(s, q);
    RemoverHolds(s, q, ch);
    if q == pr { PromoterRemovesNothing(s, s.procs[q], n, ch); }
    hide Inv, Perform, Decide, WorldOk, MetaOk;
    EffectSparesGreen(s, q, e, n);
    EffectSparesFiles(s, q, e, s.green[n]);
  }

  lemma PromoterRemovesNothing(s: State, pc: Pc, n: string, ch: Choice)
    requires Promotes(pc, n)
    ensures var e := Decide(s, pc, ch).effect; !e.Evict? && !e.DropGreen? && !e.DropEntry?
  {
    hide Candidate;
  }

  lemma NobodyRemoves(s: State, step: Step, pr: ProcId, n: string)
    requires Inv(s) && OneHome(s) && Promotable(s, pr, n)
    requires Runs(s, step) && step.pr == pr ==> Promotes(s.procs[pr], n)
    ensures var s' := Apply(s, step);
            n in s'.green && s'.green[n] == s.green[n] && SameFiles(s.w, s'.w, s.green[n])
  {
    if Runs(s, step) {
      HolderSpared(s, pr, step.pr, step.ch, n);
      OperationShared(s, step.pr, step.ch);
      OperationGreen(s, step.pr, step.ch);
      hide Apply, Perform, Decide;
    } else if GuestStep(step) {
      GuestFrame(s, step);
      hide Apply;
      GuestSparesFrozen(s, step, s.green[n]);
    } else {
      NoProcessNoChange(s, step);
      NoProcessNoGreen(s, step);
      hide Apply;
    }
  }

  lemma OperationGreen(s: State, pr: ProcId, ch: Choice)
    requires pr in s.procs
    ensures Apply(s, Run(pr, ch)).green == Perform(s, pr, Decide(s, s.procs[pr], ch).effect).green
  {
    hide Boot, Open, Put, Write, RemoveEntry, Reaches, Mkdir, SpawnProc, StartSupervisor, Decide, Perform;
  }

  lemma NoProcessNoGreen(s: State, step: Step)
    requires !Runs(s, step) && !GuestStep(step)
    ensures Apply(s, step).green == s.green
  {
    hide Decide, Perform, Boot, Open, Put, Write, RemoveEntry, Mkdir, Reaches, SpawnProc;
    match step
    case Spawn(pr, pc) => SpawnFrame(s, pr, pc);
    case _ =>
  }

  lemma FileStays(s: State, s': State, n: string, l: LayerId, k: Key, i: Ino, file: File)
    requires WorldOk(s.w) && Evolves(s.w, s'.w) && Frozen(s.w, l) && Lists(s, n, l, k, i, file)
    requires n in s'.green && s'.green[n] == l && SameFiles(s.w, s'.w, l)
    ensures Lists(s', n, l, k, i, file)
  {
    assert EntriesOk(s.w);
  }

  /** While a process promotes `n`, every listed entry stays what it was. */
  lemma EntryStaysListed(s: State, step: Step, pr: ProcId, n: string, l: LayerId, k: Key, i: Ino, file: File)
    requires Inv(s) && OneHome(s) && StepDotFree(step) && pr in s.procs && Promotes(s.procs[pr], n)
    requires Lists(s, n, l, k, i, file)
    ensures Lists(Apply(s, step), n, l, k, i, file)
  {
    InvSplit(s, pr);
    StepKeeps(s, step);
    hide Inv, Apply, WorldOk, Lists, Evolves;
    NobodyRemoves(s, step, pr, n);
    ListsIn(s, n, l, k, i, file);
    FileStays(s, Apply(s, step), n, l, k, i, file);
  }

  lemma ListsIn(s: State, n: string, l: LayerId, k: Key, i: Ino, file: File)
    requires Lists(s, n, l, k, i, file)
    ensures n in s.green && s.green[n] == l
  {
  }

  // ------------------------------------------------------------- one turn of the process

  lemma PromoterTurn(s: State, pr: ProcId, n: string, rest: set<Key>, ch: Choice, l: LayerId, k: Key, i: Ino, file: File)
    requires pr in s.procs && s.procs[pr] == ProcPromote(n, rest) && k in rest && Lists(s, n, l, k, i, file)
    ensures var next, a := Decide(s, s.procs[pr], ch).next, Attempt(s, Run(pr, ch));
            next.Some? && (k in Ahead(next.value) || (a.Some? && TurnFor(a.value, k, file)))
  {
    hide ValidKey;
    if ch.key == k {
      assert Candidate(s, n, k);
    } else {
      PromoterOps(s, n, rest, ch);
      hide Candidate, Attempt, DecidePublish;
    }
  }

  lemma ReplacerTurn(s: State, pr: ProcId, n: string, key: Key, rest: set<Key>, ch: Choice, l: LayerId, k: Key, i: Ino, file: File)
    requires pr in s.procs && s.procs[pr] == ProcReplace(n, key, rest) && k in rest + {key} && Lists(s, n, l, k, i, file)
    ensures var next, a := Decide(s, s.procs[pr], ch).next, Attempt(s, Run(pr, ch));
            next.Some? ==> k in Ahead(next.value) || (a.Some? && TurnFor(a.value, k, file))
  {
    hide ValidKey;
  }

  /** Where the step leads: the entry is still ahead, or this was its turn. */
  lemma StepTurns(s: State, step: Step, pr: ProcId, n: string, l: LayerId, k: Key, i: Ino, file: File)
    requires pr in s.procs && Promotes(s.procs[pr], n) && k in Ahead(s.procs[pr]) && Lists(s, n, l, k, i, file)
    requires pr in Apply(s, step).procs
    ensures || k in Ahead(Apply(s, step).procs[pr])
            || (step.Run? && step.pr == pr && Attempt(s, step).Some? && TurnFor(Attempt(s, step).value, k, file))
  {
    if step.Run? && step.pr == pr {
      var pc := s.procs[pr];
      OperationProcs(s, pr, step.ch);
      Frame(s, pr, Decide(s, pc, step.ch).effect);
      hide Apply, Attempt, Lists, Decide, Perform;
      if pc.ProcPromote? { PromoterTurn(s, pr, n, pc.rest, step.ch, l, k, i, file); }
      else { ReplacerTurn(s, pr, n, pc.key, pc.rest, step.ch, l, k, i, file); }
    } else {
      OthersKeepPc(s, step, pr);
    }
  }

  lemma OthersKeepPc(s: State, step: Step, pr: ProcId)
    requires pr in Apply(s, step).procs && !(step.Run? && step.pr == pr)
    ensures pr in s.procs ==> Apply(s, step).procs[pr] == s.procs[pr]
    ensures pr !in s.procs ==> Entry(Apply(s, step).procs[pr])
  {
    if Runs(s, step) {
      OperationProcs(s, step.pr, step.ch);
      Frame(s, step.pr, Decide(s, s.procs[step.pr], step.ch).effect);
      hide Apply, Decide, Perform;
    } else if GuestStep(step) {
      GuestFrame(s, step);
      hide Apply;
    } else {
      HostKeepsPc(s, step, pr);
      hide Apply;
    }
  }

  lemma HostKeepsPc(s: State, step: Step, pr: ProcId)
    requires !Runs(s, step) && !GuestStep(step) && pr in Apply(s, step).procs
    ensures pr in s.procs ==> Apply(s, step).procs[pr] == s.procs[pr]
    ensures pr !in s.procs ==> Entry(Apply(s, step).procs[pr])
  {
    hide Decide, Perform, SpawnProc, Continue;
    match step
    case SupStart(p) =>
    case SupDie(p) =>
    case TrimUnlink(_) =>
    case Spawn(q, pc) => SpawnProcs(s, q, pc);
    case Crash(q) => CrashedProcs(s, q);
    case Run(_, _) =>
  }

  lemma SpawnProcs(s: State, q: ProcId, pc: Pc)
    ensures SpawnProc(s, q, pc).procs == s.procs || (q !in s.procs && Entry(pc) && SpawnProc(s, q, pc).procs == s.procs[q := pc])
  {
  }

  // ------------------------------------------------------------------------- whole passes

  /** From i to j the process goes over layer `n`: at i it has just listed it, at j it is about to remove it. */
  ghost predicate WholePass(steps: seq<Step>, i: nat, j: nat, pr: ProcId, n: string) {
    && i < j <= |steps|
    && (forall m | i <= m < j :: pr in At(steps, m).procs && Promotes(At(steps, m).procs[pr], n))
    && At(steps, i).procs[pr] == ProcPromote(n, Listed(At(steps, i), n))
    && pr in At(steps, j).procs && At(steps, j).procs[pr] == ProcRemove(n)
  }

  /** A process gets to `n`'s entries by listing them, and to the removal from there. */
  lemma Before(s: State, step: Step, pr: ProcId, n: string)
    requires var s' := Apply(s, step); pr in s'.procs && (Promotes(s'.procs[pr], n) || s'.procs[pr] == ProcRemove(n))
    ensures var pc := Apply(s, step).procs[pr];
            || (pr in s.procs && Promotes(s.procs[pr], n))
            || (pr in s.procs && s.procs[pr] == pc && pc.ProcRemove?)
            || pc == ProcPromote(n, Listed(Apply(s, step), n))
  {
    if step.Run? && step.pr == pr {
      var pc := s.procs[pr];
      var op := Decide(s, pc, step.ch);
      OperationProcs(s, pr, step.ch);
      OperationShared(s, pr, step.ch);
      OperationGreen(s, pr, step.ch);
      Frame(s, pr, op.effect);
      hide Apply, Perform;
      BeforeOp(s, pc, step.ch, n);
      if op.effect.NoteGone? && op.next == Some(ProcPromote(n, Listed(s, n))) && op.effect.name == n {
        ListedAfterNote(s, pr, n);
      }
    } else {
      OthersKeepPc(s, step, pr);
      hide Apply;
    }
  }

  lemma BeforeOp(s: State, pc: Pc, ch: Choice, n: string)
    requires var next := Decide(s, pc, ch).next; next.Some? && (Promotes(next.value, n) || next.value == ProcRemove(n))
    ensures Promotes(pc, n) || pc == ProcRemove(n) || Decide(s, pc, ch) == Op(NoteGone(n), Some(ProcPromote(n, Listed(s, n))))
    ensures pc == ProcRemove(n) ==> Decide(s, pc, ch).next == Some(pc)
  {
    hide Candidate, Listed;
  }

  lemma ListedAfterNote(s: State, pr: ProcId, n: string)
    ensures Listed(Perform(s, pr, NoteGone(n)), n) == Listed(s, n)
  {
  }

  /** Whoever removes a layer has gone over it before. */
  lemma {:induction false} RemovalIsLate(steps: seq<Step>, j: nat, pr: ProcId, n: string) returns (i: nat, done: nat)
    requires j <= |steps| && pr in At(steps, j).procs
    requires Promotes(At(steps, j).procs[pr], n) || At(steps, j).procs[pr] == ProcRemove(n)
    ensures i <= j && pr in At(steps, i).procs && At(steps, i).procs[pr] == ProcPromote(n, Listed(At(steps, i), n))
    ensures Promotes(At(steps, j).procs[pr], n) ==>
      forall m | i <= m <= j :: pr in At(steps, m).procs && Promotes(At(steps, m).procs[pr], n)
    ensures At(steps, j).procs[pr] == ProcRemove(n) ==> done <= j && WholePass(steps, i, done, pr, n)
  {
    hide Apply, Listed;
    if j > 0 {
      var pc := At(steps, j).procs[pr];
      AtNext(steps, j - 1);
      Before(At(steps, j - 1), steps[j - 1], pr, n);
      if pc == ProcPromote(n, Listed(At(steps, j), n)) {
        i, done := j, j;
      } else {
        i, done := RemovalIsLate(steps, j - 1, pr, n);
        if pc == ProcRemove(n) && Promotes(At(steps, j - 1).procs[pr], n) { done := j; }
      }
    }
  }

  /** The entry still lies ahead of the process, or it has come to it. */
  ghost predicate Covered(steps: seq<Step>, i: nat, m: nat, pr: ProcId, k: Key, file: File)
    requires m <= |steps| && pr in At(steps, m).procs
  {
    k in Ahead(At(steps, m).procs[pr]) || exists t :: i <= t < m && TurnAt(steps, t, pr, k, file)
  }

  lemma OneHomeAt(steps: seq<Step>, m: nat)
    requires RunDotFree(steps) && m <= |steps|
    ensures Inv(At(steps, m)) && OneHome(At(steps, m))
  {
    RunManifests(steps, m, iset{});
  }

  lemma {:induction false} PassCovers(steps: seq<Step>, i: nat, m: nat, j: nat, pr: ProcId, n: string, l: LayerId, k: Key, ino: Ino, file: File)
    requires RunDotFree(steps) && WholePass(steps, i, j, pr, n) && i <= m <= j
    requires Lists(At(steps, i), n, l, k, ino, file)
    ensures Lists(At(steps, m), n, l, k, ino, file) && Covered(steps, i, m, pr, k, file)
    decreases m - i
  {
    hide Apply, Inv, Lists, Attempt, TurnFor;
    if i == m {
      ListsKey(At(steps, i), n, l, k, ino, file);
    } else {
      PassCovers(steps, i, m - 1, j, pr, n, l, k, ino, file);
      var s := At(steps, m - 1);
      OneHomeAt(steps, m - 1);
      AtNext(steps, m - 1);
      assert pr in s.procs && Promotes(s.procs[pr], n);
      EntryStaysListed(s, steps[m - 1], pr, n, l, k, ino, file);
      if k in Ahead(s.procs[pr]) {
        StepTurns(s, steps[m - 1], pr, n, l, k, ino, file);
        assert k in Ahead(At(steps, m).procs[pr]) || TurnAt(steps, m - 1, pr, k, file);
      }
    }
  }

  lemma ListsKey(s: State, n: string, l: LayerId, k: Key, i: Ino, file: File)
    requires Lists(s, n, l, k, i, file)
    ensures k in Listed(s, n)
  {
  }

  /** A pass that gets to the removal has come to every entry the layer listed. */
  lemma EveryEntryCameTo(steps: seq<Step>, i: nat, j: nat, pr: ProcId, n: string, k: Key)
    requires RunDotFree(steps) && WholePass(steps, i, j, pr, n) && Candidate(At(steps, i), n, k)
    ensures exists t :: i <= t < j && TurnAt(steps, t, pr, k, At(steps, i).w.inodes[Source(At(steps, i), n, k)].file)
  {
    var s := At(steps, i);
    var ino := Source(s, n, k);
    PassCovers(steps, i, j, j, pr, n, s.green[n], k, ino, s.w.inodes[ino].file);
  }

  // ------------------------------------------------------------------- what the removal leaves

  lemma TurnPublishes(c: P.Cache, x: P.Item, k: Key, file: File)
    requires TurnFor(x, k, file) && ValidKey(k) && file.kind != NotAnEntry
    ensures k in P.PublishOne(c, x)
    ensures file.kind == ManifestEntry ==> file.mtime <= P.PublishOne(c, x)[k].file.mtime
  {
  }

  lemma {:induction false} EntriesLast(steps: seq<Step>, m: nat, j: nat, k: Key)
    requires m <= j <= |steps| && k in At(steps, m).shared
    requires forall t | m <= t < j :: steps[t] != TrimUnlink(k)
    ensures forall t | m <= t <= j :: k in At(steps, t).shared
    decreases j - m
  {
    hide Apply;
    if m < j {
      EntriesLast(steps, m, j - 1, k);
      AtNext(steps, j - 1);
      OnlyTrimRemoves(At(steps, j - 1), steps[j - 1], k);
    }
  }

  lemma EffectKeepsKeys(s: State, pr: ProcId, e: Effect)
    ensures s.shared.Keys <= Perform(s, pr, e).shared.Keys
  {
    if e.LinkEntry? && Candidate(s, e.name, e.key) {
      hide Candidate, Take, Made, Copy;
    } else {
      OnlyLinkShares(s, pr, e);
      hide Perform;
    }
  }

  lemma OnlyTrimRemoves(s: State, step: Step, k: Key)
    requires k in s.shared && step != TrimUnlink(k)
    ensures k in Apply(s, step).shared
  {
    if Runs(s, step) {
      OperationShared(s, step.pr, step.ch);
      EffectKeepsKeys(s, step.pr, Decide(s, s.procs[step.pr], step.ch).effect);
      hide Apply, Perform, Decide;
    } else if GuestStep(step) {
      GuestFrame(s, step);
      hide Apply;
    } else if step.TrimUnlink? {
      hide Decide, Perform;
    } else {
      NoProcessNoChange(s, step);
      hide Apply;
    }
  }

  lemma EntryIsCached(s: State, k: Key)
    requires k in Cached(s)
    ensures k in s.shared && s.shared[k] < |s.w.inodes| && Cached(s)[k].file == s.w.inodes[s.shared[k]].file
  {
  }

  /** Right after its turn the key is there, for a manifest with a time no older. */
  lemma TurnLeaves(s: State, step: Step, k: Key, file: File, manifestKeys: iset<Key>)
    requires Inv(s) && ManifestInv(s, manifestKeys) && Sorted(s, manifestKeys) && StepDotFree(step) && step.Run?
    requires Attempt(s, step).Some? && TurnFor(Attempt(s, step).value, k, file) && ValidKey(k) && file.kind != NotAnEntry
    ensures var s' := Apply(s, step);
            && k in s'.shared && s'.shared[k] < |s'.w.inodes|
            && (file.kind == ManifestEntry ==> file.mtime <= MtimeAt(s'.w, s'.shared[k]))
  {
    hide Inv, ManifestInv, Sorted, Attempt, Cached, TurnFor, Apply;
    StepAttempts(s, step, manifestKeys);
    TurnPublishes(Cached(s), Attempt(s, step).value, k, file);
    EntryIsCached(Apply(s, step), k);
  }

  lemma OneManifestRun(steps: seq<Step>, k: Key, manifestKeys: iset<Key>)
    requires SortedRun(steps, manifestKeys) && k in manifestKeys
    ensures ManifestRun(steps, iset{k})
  {
    forall j | 0 <= j <= |steps| ensures OnlyManifests(At(steps, j), iset{k}) { assert Sorted(At(steps, j), manifestKeys); }
  }

  /**
   When a process is about to remove a layer it has promoted, every publishable file it listed is
   in the cache, or at a manifest key something no older, unless trim removed that key since:
   whatever other promoters did and wherever they crashed.
   */
  lemma NothingIsLost(steps: seq<Step>, i: nat, j: nat, pr: ProcId, n: string, k: Key, manifestKeys: iset<Key>)
    requires RunDotFree(steps) && SortedRun(steps, manifestKeys) && WholePass(steps, i, j, pr, n)
    requires Candidate(At(steps, i), n, k) && forall t | i <= t < j :: steps[t] != TrimUnlink(k)
    ensures var file := At(steps, i).w.inodes[Source(At(steps, i), n, k)].file;
            var s := At(steps, j);
            && k in s.shared && s.shared[k] < |s.w.inodes|
            && (k in manifestKeys ==> file.mtime <= MtimeAt(s.w, s.shared[k]))
  {
    WholeIsIn(steps, i, j, pr, n);
    hide Apply, Sorted, TurnAt, WholePass;
    var file := At(steps, i).w.inodes[Source(At(steps, i), n, k)].file;
    EveryEntryCameTo(steps, i, j, pr, n, k);
    var t :| i <= t < j && TurnAt(steps, t, pr, k, file);
    if k in manifestKeys { KindOfManifest(At(steps, i), n, k, manifestKeys); }
    AfterTurn(steps, t, j, pr, k, file, manifestKeys);
  }

  lemma AfterTurn(steps: seq<Step>, t: nat, j: nat, pr: ProcId, k: Key, file: File, manifestKeys: iset<Key>)
    requires RunDotFree(steps) && SortedRun(steps, manifestKeys) && t < j <= |steps| && TurnAt(steps, t, pr, k, file)
    requires ValidKey(k) && file.kind != NotAnEntry && (k in manifestKeys ==> file.kind == ManifestEntry)
    requires forall m | t < m < j :: steps[m] != TrimUnlink(k)
    ensures var s := At(steps, j);
            && k in s.shared && s.shared[k] < |s.w.inodes|
            && (k in manifestKeys ==> file.mtime <= MtimeAt(s.w, s.shared[k]))
  {
    hide Apply, Inv, ManifestInv, Sorted, Attempt, TurnFor, ValidKey, KindAt;
    SortedIsManifestRun(steps, manifestKeys);
    RunManifests(steps, t, manifestKeys);
    AtNext(steps, t);
    TurnLeaves(At(steps, t), steps[t], k, file, manifestKeys);
    EntriesLast(steps, t + 1, j, k);
    AtKeeps(steps, j);
    InvIndexes(At(steps, j));
    if k in manifestKeys {
      OneManifestRun(steps, k, manifestKeys);
      EntriesOnlyGetNewer(steps, t + 1, j, k);
      NewerBy(steps, t + 1, j, k);
    }
  }

  lemma WholeIsIn(steps: seq<Step>, i: nat, j: nat, pr: ProcId, n: string)
    requires WholePass(steps, i, j, pr, n)
    ensures i < j <= |steps|
  {
  }

  lemma KindOfManifest(s: State, n: string, k: Key, manifestKeys: iset<Key>)
    requires Sorted(s, manifestKeys) && k in manifestKeys && Candidate(s, n, k)
    ensures KindAt(s.w, Source(s, n, k)) == ManifestEntry
  {
  }

  /** Times of what was there are final, so a newer entry is newer than it was then. */
  lemma NewerBy(steps: seq<Step>, m: nat, j: nat, k: Key)
    requires RunDotFree(steps) && m <= j <= |steps| && Newer(At(steps, m), At(steps, j), k)
    ensures At(steps, m).shared[k] < |At(steps, m).w.inodes|
    ensures MtimeAt(At(steps, m).w, At(steps, m).shared[k]) <= MtimeAt(At(steps, j).w, At(steps, j).shared[k])
  {
    hide Apply;
    AtKeeps(steps, m);
    RunTail(steps, m, j);
    RunKeeps(At(steps, m), steps[m..j]);
    FilesStay(At(steps, m), At(steps, j));
  }

  // ------------------------------------------------------------------------ crash and resume

  /** The publishable files of green layer `n`, as the promotion loop takes them. */
  ghost predicate LayerItems(s: State, n: string, layer: seq<P.Item>) {
    && P.Listing(layer)
    && forall x :: x in layer <==> Candidate(s, n, x.key) && x == ItemOf(x.key, s.w.inodes[Source(s, n, x.key)].file)
  }

  lemma {:induction false} TurnsAreAttempts(steps: seq<Step>, a: nat, j: nat, t: nat)
    requires a <= t < j <= |steps| && Attempt(At(steps, t), steps[t]).Some?
    ensures Attempt(At(steps, t), steps[t]).value in Attempts(steps, a, j)
    decreases j - t
  {
    hide Attempt, Apply;
    if t < j - 1 { TurnsAreAttempts(steps, a, j - 1, t); }
  }

  lemma ItemsAgree(s: State, n: string, layer: seq<P.Item>, x: P.Item, y: P.Item, file: File)
    requires LayerItems(s, n, layer) && x in layer && y in layer && x.key == y.key && TurnFor(y, x.key, file)
    ensures x == y
  {
  }

  /**
   Crash and resume on the machine. From a to j any promoters came to the layer's files in any
   order, any number of times, and crashed anywhere; one of them, from i to j, got as far as removing
   the layer. If nothing but this layer's files was come to meanwhile, the cache is the one a single
   uninterrupted promotion of the layer makes.
   */
  lemma ResumedRun(steps: seq<Step>, a: nat, i: nat, j: nat, pr: ProcId, n: string, manifestKeys: iset<Key>, layer: seq<P.Item>)
    requires RunDotFree(steps) && SortedRun(steps, manifestKeys) && WholePass(steps, i, j, pr, n) && a <= i
    requires forall m | a <= m < j :: !steps[m].TrimUnlink?
    requires LayerItems(At(steps, i), n, layer) && forall x :: x in Attempts(steps, a, j) ==> x in layer
    ensures Cached(At(steps, j)) == P.PromoteAll(Cached(At(steps, a)), layer)
  {
    hide Attempts, Cached, P.PromoteAll, Attempt, TurnFor, Apply;
    forall x | x in layer ensures x in Attempts(steps, a, j) {
      var file := At(steps, i).w.inodes[Source(At(steps, i), n, x.key)].file;
      EveryEntryCameTo(steps, i, j, pr, n, x.key);
      var t :| i <= t < j && TurnAt(steps, t, pr, x.key, file);
      TurnsAreAttempts(steps, a, j, t);
      var y := Attempt(At(steps, t), steps[t]).value;
      assert y.key == x.key by { TurnKey(y, x.key, file); }
      ItemsAgree(At(steps, i), n, layer, x, y, file);
    }
    RunIsPromotion(steps, a, j, manifestKeys);
    P.ListingIsOneLayer(layer, Attempts(steps, a, j));
    P.PromotionIsConfluent(Cached(At(steps, a)), Attempts(steps, a, j), layer);
  }

  lemma TurnKey(x: P.Item, k: Key, file: File)
    requires TurnFor(x, k, file)
    ensures x.key == k
  {
  }
}
