/**
 Entries of shared/ under concurrent promoters and trim. Where only manifests lie, an entry is
 replaced only by a strictly newer one, although the comparison and the rename of
 `publish_manifest` are two operations; where no manifest lies, an entry is never replaced.
 */
module LayerManifests {
  import opened Basics
  import opened LayerProtocol
  import opened LayerFrames
  import opened LayerProvenance
  import opened LayerRuns

  function KindAt(w: World, i: Ino): Kind requires i < |w.inodes| { w.inodes[i].file.kind }

  function MtimeAt(w: World, i: Ino): int requires i < |w.inodes| { w.inodes[i].file.mtime }

  /** Only manifests lie at these keys. */
  ghost predicate OnlyManifests(s: State, manifestKeys: iset<Key>) {
    forall n, k :: k in manifestKeys && Candidate(s, n, k) ==> KindAt(s.w, Source(s, n, k)) == ManifestEntry
  }

  /** A replacement in progress has a manifest to link; at a manifest key, what is there is still older. */
  ghost predicate Staged(s: State, n: string, k: Key, manifestKeys: iset<Key>) {
    && Candidate(s, n, k) && KindAt(s.w, Source(s, n, k)) == ManifestEntry
    && (k in manifestKeys && k in s.shared ==>
          s.shared[k] < |s.w.inodes| && MtimeAt(s.w, s.shared[k]) < MtimeAt(s.w, Source(s, n, k)))
  }

  ghost predicate LockOk(s: State) {
    forall pr :: pr in s.procs && s.procs[pr].ProcReplace? <==> s.manifestLock == Some(pr)
  }

  ghost predicate OneHome(s: State) {
    forall n, m :: n in s.green && m in s.green && s.green[n] == s.green[m] ==> n == m
  }

  ghost predicate StagedOk(s: State, manifestKeys: iset<Key>) {
    forall pr :: pr in s.procs && s.procs[pr].ProcReplace? ==> Staged(s, s.procs[pr].name, s.procs[pr].key, manifestKeys)
  }

  ghost predicate ManifestInv(s: State, manifestKeys: iset<Key>) { LockOk(s) && OneHome(s) && StagedOk(s, manifestKeys) }

  /** The entry a staged replacement is about to link is still where it was. */
  ghost predicate Undisturbed(s: State, s': State, n: string, k: Key, manifestKeys: iset<Key>) {
    && n in s.green && n in s'.green && s'.green[n] == s.green[n]
    && s.green[n] < |s.w.layers| <= |s'.w.layers|
    && k in s.w.layers[s.green[n]].entries && k in s'.w.layers[s.green[n]].entries
    && s'.w.layers[s.green[n]].entries[k] == s.w.layers[s.green[n]].entries[k]
    && (k in manifestKeys && k in s'.shared ==> SameEntry(s, s', k))
  }

  lemma StagedStays(s: State, s': State, n: string, k: Key, manifestKeys: iset<Key>)
    requires Inv(s) && Evolves(s.w, s'.w) && Staged(s, n, k, manifestKeys) && Frozen(s.w, s.green[n])
    requires Undisturbed(s, s', n, k, manifestKeys)
    ensures Staged(s', n, k, manifestKeys)
  {
    assert EntriesOk(s.w);
    if k in manifestKeys && k in s'.shared { assert Legit(s, k); }
  }

  // ---------------------------------------------------- nobody disturbs a replacement

  /** Layer `l` exists in both and lists the same files. */
  ghost predicate SameFiles(w: World, w': World, l: LayerId) {
    l < |w.layers| <= |w'.layers| && w'.layers[l].entries == w.layers[l].entries
  }

  lemma VmSpares(s: State, v: VmName, l: LayerId)
    requires l < |s.w.layers|
    ensures SameFiles(s.w, Boot(s.w, v), l) && SameFiles(s.w, Open(s.w, v), l) && SameFiles(s.w, Mkdir(s, v).w, l)
  {
  }

  lemma FilesSpared(w: World, v: VmName, m: LayerId, k: Key, i: Ino, file: File, l: LayerId)
    requires Frozen(w, l)
    ensures SameFiles(w, Put(w, v, m, k, file), l) && SameFiles(w, Write(w, v, i, file), l)
    ensures Reaches(w, v, m) ==> SameFiles(w, RemoveEntry(w, m, k), l)
  {
  }

  lemma GuestSparesFrozen(s: State, step: Step, l: LayerId)
    requires GuestStep(step) && Frozen(s.w, l)
    ensures SameFiles(s.w, Apply(s, step).w, l)
  {
    hide Decide, Perform, Continue, SpawnProc, StartSupervisor, Boot, Open, Mkdir, Put, Write, RemoveEntry, Reaches;
    match step
    case VmBoot(v) => VmSpares(s, v, l);
    case VmGone(_) =>
    case GuestOpen(v) => VmSpares(s, v, l);
    case GuestMkdir(v) => VmSpares(s, v, l);
    case GuestPut(v, m, k, file) => FilesSpared(s.w, v, m, k, 0, file, l);
    case GuestWrite(v, i, file) => FilesSpared(s.w, v, 0, Key("", ""), i, file, l);
    case GuestUnlink(v, m, k) => FilesSpared(s.w, v, m, k, 0, File(NotAnEntry, 0, ""), l);
  }

  lemma EffectSparesGreen(s: State, pr: ProcId, e: Effect, n: string)
    requires n in s.green && (e.Evict? || e.DropGreen? ==> e.name != n)
    ensures n in Perform(s, pr, e).green && Perform(s, pr, e).green[n] == s.green[n]
  {
    if e.ToGreen? || e.Evict? || e.DropGreen? {
      hide Take;
      match e
      case ToGreen(_, _) =>
      case Evict(_, _) =>
      case DropGreen(_) =>
    } else {
      Frame(s, pr, e);
      hide Perform;
    }
  }

  lemma TakeSpares(w: World, v: VmName, verdict: Verdict, l: LayerId)
    requires v in w.jobs && w.jobs[v] < |w.layers| && l < |w.layers|
    ensures SameFiles(w, Take(w, v, verdict), l)
  {
  }

  lemma EffectSparesFiles(s: State, pr: ProcId, e: Effect, l: LayerId)
    requires l < |s.w.layers| && (e.DropEntry? && e.name in s.green ==> s.green[e.name] != l)
    ensures SameFiles(s.w, Perform(s, pr, e).w, l)
  {
    if e.ToDiscard? || e.ToGreen? {
      RenameSpares(s, pr, e, l);
    } else if ChangesWorld(e) {
      hide Perform;
      LayerEffectSpares(s, pr, e, l);
    } else {
      Frame(s, pr, e);
      hide Perform;
    }
  }

  lemma RenameSpares(s: State, pr: ProcId, e: Effect, l: LayerId)
    requires l < |s.w.layers| && (e.ToDiscard? || e.ToGreen?)
    ensures SameFiles(s.w, Perform(s, pr, e).w, l)
  {
    hide Take;
    if e.v in s.w.jobs && s.w.jobs[e.v] < |s.w.layers| {
      TakeSpares(s.w, e.v, if e.ToGreen? then Green else e.verdict, l);
    }
  }

  lemma LayerEffectSpares(s: State, pr: ProcId, e: Effect, l: LayerId)
    requires l < |s.w.layers| && (e.DropEntry? && e.name in s.green ==> s.green[e.name] != l)
    requires e.MakeLayer? || e.NoteGone? || e.LinkEntry? || e.DropEntry?
    ensures SameFiles(s.w, Perform(s, pr, e).w, l)
  {
    if e.MakeLayer? {
      MadeSpares(s.w, e.v, e.p, l);
    } else if e.LinkEntry? {
      LinkMarks(s, pr, e);
    } else if e.NoteGone? {
      NoteSpares(s, pr, e.name, l);
    } else {
      DropSpares(s, pr, e.name, e.key, l);
    }
  }

  lemma MadeSpares(w: World, v: VmName, p: Pid, l: LayerId)
    requires l < |w.layers|
    ensures SameFiles(w, Made(w, v, p), l)
  {
  }

  lemma NoteSpares(s: State, pr: ProcId, n: string, l: LayerId)
    requires l < |s.w.layers|
    ensures SameFiles(s.w, Perform(s, pr, NoteGone(n)).w, l)
  {
  }

  lemma DropSpares(s: State, pr: ProcId, n: string, k: Key, l: LayerId)
    requires l < |s.w.layers| && (n in s.green ==> s.green[n] != l)
    ensures SameFiles(s.w, Perform(s, pr, DropEntry(n, k)).w, l)
  {
  }

  /** A process that removes or evicts a green layer holds its lock. */
  lemma RemoverHolds(s: State, pr: ProcId, ch: Choice)
    requires GreenOk(s) && pr in s.procs && PcOk(s, pr, s.procs[pr])
    ensures var e := Decide(s, s.procs[pr], ch).effect;
            e.Evict? || e.DropGreen? || e.DropEntry? ==> Holds(s, pr, e.name)
  {
    hide Candidate;
  }

  /** Outside the lock only results are linked, and only at free keys. */
  lemma PromoterLinksResults(s: State, pc: Pc, ch: Choice)
    requires pc.ProcPromote?
    ensures var e := Decide(s, pc, ch).effect;
            e.LinkEntry? ==> Candidate(s, e.name, e.key) && e.key !in s.shared
                             && KindAt(s.w, Source(s, e.name, e.key)) != ManifestEntry
  {
  }

  lemma ReplacerLinks(s: State, pc: Pc, ch: Choice)
    requires pc.ProcReplace? && Candidate(s, pc.name, pc.key)
    ensures var op := Decide(s, pc, ch);
            && op.effect.LinkEntry? && op.effect.name == pc.name && op.effect.key == pc.key
            && (op.effect.copyAt.Some? ==> op.effect.copyAt.value == MtimeAt(s.w, Source(s, pc.name, pc.key)))
            && op.next == Some(ProcPromote(pc.name, pc.rest))
  {
  }

  lemma OnlyReplacerLocked(s: State, pc: Pc, ch: Choice, manifestKeys: iset<Key>)
    requires forall k :: k in s.shared ==> s.shared[k] < |s.w.inodes|
    ensures var op := Decide(s, pc, ch);
            && (op.effect.LockManifests? <==> op.next.Some? && op.next.value.ProcReplace? && !pc.ProcReplace?)
            && (op.effect.LockManifests? ==> s.manifestLock == None && Staged(s, op.next.value.name, op.next.value.key, manifestKeys))
  {
  }

  lemma HomeEffect(s: State, pr: ProcId, e: Effect)
    requires JobsOk(s.w) && GreenOk(s) && OneHome(s)
    ensures OneHome(Perform(s, pr, e))
  {
    if e.ToGreen? {
      if CanMove(s, e.v, s.green, e.target) {
        forall n | n in s.green ensures s.green[n] != s.w.jobs[e.v] {
          assert s.w.layers[s.green[n]].verdict == Green;
        }
      }
    } else if !e.Evict? && !e.DropGreen? {
      Frame(s, pr, e);
      hide Perform;
    }
  }

  /** While `q` replaces the manifest at `k`, an operation of another process leaves shared/`k` alone. */
  lemma NoOtherLink(s: State, pr: ProcId, ch: Choice, q: ProcId, manifestKeys: iset<Key>)
    requires ManifestInv(s, manifestKeys) && OnlyManifests(s, manifestKeys) && pr in s.procs && q in s.procs && q != pr
    requires s.procs[q].ProcReplace? && s.procs[q].key in manifestKeys
    ensures var s' := Perform(s, pr, Decide(s, s.procs[pr], ch).effect);
            s.procs[q].key in s'.shared ==> SameEntry(s, s', s.procs[q].key)
  {
    var pc := s.procs[pr];
    var e := Decide(s, pc, ch).effect;
    assert Staged(s, s.procs[q].name, s.procs[q].key, manifestKeys);
    assert s.manifestLock == Some(q) && !pc.ProcReplace?;
    hide ManifestInv, Perform, Decide;
    var k := s.procs[q].key;
    if k in Perform(s, pr, e).shared && !SameEntry(s, Perform(s, pr, e), k) {
      SharedEffect(s, pr, e, k);
      DecideNames(s, pc, ch);
      PromoterLinksResults(s, pc, ch);
    }
  }

  lemma OtherStaysStaged(s: State, pr: ProcId, ch: Choice, q: ProcId, manifestKeys: iset<Key>)
    requires Inv(s) && ManifestInv(s, manifestKeys) && OnlyManifests(s, manifestKeys)
    requires pr in s.procs && q in s.procs && q != pr && s.procs[q].ProcReplace?
    ensures Staged(Perform(s, pr, Decide(s, s.procs[pr], ch).effect), s.procs[q].name, s.procs[q].key, manifestKeys)
  {
    var e := Decide(s, s.procs[pr], ch).effect;
    var s' := Perform(s, pr, e);
    var ProcReplace(n, k, _) := s.procs[q];
    if k in manifestKeys { NoOtherLink(s, pr, ch, q, manifestKeys); }
    InvSplit(s, pr);
    InvSplit(s, q);
    RemoverHolds(s, pr, ch);
    assert OneHome(s) && Staged(s, n, k, manifestKeys);
    OperationEvolves(s, pr, ch);
    hide Inv, ManifestInv, Perform, Decide, Evolves, WorldOk, Staged, MetaOk;
    EffectSparesGreen(s, pr, e, n);
    EffectSparesFiles(s, pr, e, s.green[n]);
    StagedIsCandidate(s, n, k, manifestKeys);
    StagedStays(s, s', n, k, manifestKeys);
  }

  lemma StagedIsCandidate(s: State, n: string, k: Key, manifestKeys: iset<Key>)
    requires Staged(s, n, k, manifestKeys)
    ensures Candidate(s, n, k)
  {
  }

  lemma OperationEvolves(s: State, pr: ProcId, ch: Choice)
    requires Inv(s) && pr in s.procs
    ensures Evolves(s.w, Perform(s, pr, Decide(s, s.procs[pr], ch).effect).w)
  {
    hide Inv, Evolves, Perform, Decide, Boot, Open, Put, Write, RemoveEntry, Reaches, Mkdir, SpawnProc, StartSupervisor;
    OperationKeeps(s, pr, ch);
  }

  /** The comparison under the manifest lock is not outdated by anyone before the replacement. */
  lemma OperationManifests(s: State, pr: ProcId, ch: Choice, manifestKeys: iset<Key>)
    requires Inv(s) && ManifestInv(s, manifestKeys) && OnlyManifests(s, manifestKeys) && pr in s.procs
    ensures ManifestInv(Apply(s, Run(pr, ch)), manifestKeys)
  {
    var pc := s.procs[pr];
    var op := Decide(s, pc, ch);
    var s1 := Perform(s, pr, op.effect);
    var s' := Apply(s, Run(pr, ch));
    assert s' == Continue(s1, pr, op.next) by {
      hide Boot, Open, Put, Write, RemoveEntry, Reaches, Mkdir, SpawnProc, StartSupervisor, Decide, Perform, Continue;
    }
    hide Apply, Perform, Decide, Inv;
    InvSplit(s, pr);
    Frame(s, pr, op.effect);
    HomeEffect(s, pr, op.effect);
    InvIndexes(s);
    OnlyReplacerLocked(s, pc, ch, manifestKeys);
    if pc.ProcReplace? { ReplacerLinks(s, pc, ch); }
    forall q | q in s'.procs && s'.procs[q].ProcReplace? ensures Staged(s', s'.procs[q].name, s'.procs[q].key, manifestKeys) {
      if q != pr {
        OtherStaysStaged(s, pr, ch, q, manifestKeys);
        ContinueStaged(s1, pr, op.next, s'.procs[q].name, s'.procs[q].key, manifestKeys);
      } else {
        assert op.effect.LockManifests?;
        LockedStaged(s, pr, op.effect, s'.procs[q].name, s'.procs[q].key, manifestKeys);
        ContinueStaged(s1, pr, op.next, s'.procs[q].name, s'.procs[q].key, manifestKeys);
      }
    }
    LockContinues(s, pr, op, s1);
  }

  lemma InvIndexes(s: State)
    requires Inv(s)
    ensures forall k :: k in s.shared ==> s.shared[k] < |s.w.inodes|
  {
    forall k | k in s.shared ensures s.shared[k] < |s.w.inodes| { assert Legit(s, k); }
  }

  lemma ContinueStaged(s: State, pr: ProcId, next: Option<Pc>, n: string, k: Key, manifestKeys: iset<Key>)
    requires Staged(s, n, k, manifestKeys)
    ensures Staged(Continue(s, pr, next), n, k, manifestKeys)
  {
  }

  lemma LockedStaged(s: State, pr: ProcId, e: Effect, n: string, k: Key, manifestKeys: iset<Key>)
    requires Staged(s, n, k, manifestKeys) && e.LockManifests?
    ensures Staged(Perform(s, pr, e), n, k, manifestKeys)
  {
  }

  lemma LockOkIs(s: State)
    requires forall q :: q in s.procs && s.procs[q].ProcReplace? <==> s.manifestLock == Some(q)
    ensures LockOk(s)
  {
  }

  lemma LockContinues(s: State, pr: ProcId, op: Op, s1: State)
    requires LockOk(s) && pr in s.procs && s1.procs == s.procs
    requires op.effect.LockManifests? ==> s.manifestLock == None
    requires op.effect.LockManifests? <==> op.next.Some? && op.next.value.ProcReplace? && !s.procs[pr].ProcReplace?
    requires s.procs[pr].ProcReplace? ==>
      op.effect.LinkEntry? && Candidate(s, op.effect.name, op.effect.key) && op.next.Some? && op.next.value.ProcPromote?
    requires s1.manifestLock ==
      if op.effect.LockManifests? then Some(pr)
      else if op.effect.LinkEntry? && Candidate(s, op.effect.name, op.effect.key) && s.manifestLock == Some(pr) then None
      else s.manifestLock
    ensures LockOk(Continue(s1, pr, op.next))
  {
    assert forall q :: q in s.procs && s.procs[q].ProcReplace? <==> s.manifestLock == Some(q);
    var s' := Continue(s1, pr, op.next);
    assert s'.procs == if op.next.Some? then s.procs[pr := op.next.value] else s.procs - {pr};
    assert s'.manifestLock == if op.next.None? && s1.manifestLock == Some(pr) then None else s1.manifestLock;
    hide Continue, LockOk, Candidate;
    forall q ensures q in s'.procs && s'.procs[q].ProcReplace? <==> s'.manifestLock == Some(q) {}
    LockOkIs(s');
  }

  lemma GuestManifests(s: State, step: Step, manifestKeys: iset<Key>)
    requires Inv(s) && ManifestInv(s, manifestKeys) && GuestStep(step) && StepDotFree(step)
    ensures ManifestInv(Apply(s, step), manifestKeys)
  {
    var s' := Apply(s, step);
    GuestFrame(s, step);
    StepKeeps(s, step);
    hide Apply, Inv, Evolves;
    forall q | q in s'.procs && s'.procs[q].ProcReplace? ensures Staged(s', s'.procs[q].name, s'.procs[q].key, manifestKeys) {
      GuestStaged(s, step, q, manifestKeys);
    }
  }

  lemma GuestStaged(s: State, step: Step, q: ProcId, manifestKeys: iset<Key>)
    requires Inv(s) && StagedOk(s, manifestKeys) && GuestStep(step) && StepDotFree(step) && q in s.procs && s.procs[q].ProcReplace?
    ensures Staged(Apply(s, step), s.procs[q].name, s.procs[q].key, manifestKeys)
  {
    GuestFrame(s, step);
    StepKeeps(s, step);
    InvSplit(s, q);
    hide Apply, Inv, Evolves, WorldOk, MetaOk, InvBut;
    GuestSparesFrozen(s, step, s.green[s.procs[q].name]);
    StagedStays(s, Apply(s, step), s.procs[q].name, s.procs[q].key, manifestKeys);
  }

  /** Steps of supervisors, trim, spawns and crashes: shared/ only shrinks. */
  lemma HostManifests(s: State, step: Step, manifestKeys: iset<Key>)
    requires ManifestInv(s, manifestKeys) && !step.Run? && !GuestStep(step)
    ensures ManifestInv(Apply(s, step), manifestKeys)
  {
    hide Decide, Perform, SpawnProc, Continue, ManifestInv;
    match step
    case SupStart(p) => QuietManifests(s, StartSupervisor(s, p), manifestKeys);
    case SupDie(p) => QuietManifests(s, s.(alive := s.alive - {p}), manifestKeys);
    case TrimUnlink(k) => QuietManifests(s, s.(shared := s.shared - {k}), manifestKeys);
    case Spawn(pr, pc) => SpawnManifests(s, pr, pc, manifestKeys);
    case Crash(pr) => if pr in s.procs { CrashManifests(s, pr, manifestKeys); }
  }

  lemma QuietManifests(s: State, s': State, manifestKeys: iset<Key>)
    requires ManifestInv(s, manifestKeys)
    requires s'.w == s.w && s'.green == s.green && s'.procs == s.procs && s'.manifestLock == s.manifestLock
    requires forall k :: k in s'.shared ==> SameEntry(s, s', k)
    ensures ManifestInv(s', manifestKeys)
  {
    forall q | q in s'.procs && s'.procs[q].ProcReplace? ensures Staged(s', s'.procs[q].name, s'.procs[q].key, manifestKeys) {
      assert Staged(s, s.procs[q].name, s.procs[q].key, manifestKeys);
    }
  }

  lemma SpawnManifests(s: State, pr: ProcId, pc: Pc, manifestKeys: iset<Key>)
    requires ManifestInv(s, manifestKeys)
    ensures ManifestInv(SpawnProc(s, pr, pc), manifestKeys)
  {
    var s' := SpawnProc(s, pr, pc);
    SpawnFrame(s, pr, pc);
    hide SpawnProc, Continue;
    forall q | q in s'.procs && s'.procs[q].ProcReplace? ensures Staged(s', s'.procs[q].name, s'.procs[q].key, manifestKeys) {
      assert Staged(s, s.procs[q].name, s.procs[q].key, manifestKeys);
      StagedElsewhere(s, s', s.procs[q].name, s.procs[q].key, manifestKeys);
    }
  }

  lemma SpawnFrame(s: State, pr: ProcId, pc: Pc)
    ensures var s' := SpawnProc(s, pr, pc);
            && s'.w == s.w && s'.green == s.green && s'.shared == s.shared && s'.manifestLock == s.manifestLock
            && (forall q :: q in s'.procs && s'.procs[q].ProcReplace? <==> q in s.procs && s.procs[q].ProcReplace?)
            && (forall q :: q in s.procs ==> q in s'.procs && s'.procs[q] == s.procs[q])
  {
    var s' := SpawnProc(s, pr, pc);
    var started := if pc.AttachCheck? then s.started + {pc.v} else s.started;
    assert s' == s || (pr !in s.procs && Entry(pc) && s' == s.(procs := s.procs[pr := pc], started := started));
  }

  lemma StagedElsewhere(s: State, s': State, n: string, k: Key, manifestKeys: iset<Key>)
    requires Staged(s, n, k, manifestKeys) && s'.w == s.w && s'.green == s.green && s'.shared == s.shared
    ensures Staged(s', n, k, manifestKeys)
  {
  }

  lemma CrashManifests(s: State, pr: ProcId, manifestKeys: iset<Key>)
    requires ManifestInv(s, manifestKeys)
    ensures ManifestInv(Continue(s, pr, None), manifestKeys)
  {
    var s' := Continue(s, pr, None);
    forall q | q in s'.procs && s'.procs[q].ProcReplace? ensures Staged(s', s'.procs[q].name, s'.procs[q].key, manifestKeys) {
      assert Staged(s, s.procs[q].name, s.procs[q].key, manifestKeys);
    }
  }

  lemma StepManifests(s: State, step: Step, manifestKeys: iset<Key>)
    requires Inv(s) && ManifestInv(s, manifestKeys) && OnlyManifests(s, manifestKeys) && StepDotFree(step)
    ensures ManifestInv(Apply(s, step), manifestKeys)
  {
    hide Inv, ManifestInv, OnlyManifests, Decide, Perform, Continue, Boot, Open, Put, Write, RemoveEntry, Mkdir, SpawnProc;
    if step.Run? {
      if step.pr in s.procs { OperationManifests(s, step.pr, step.ch, manifestKeys); }
    } else if GuestStep(step) { GuestManifests(s, step, manifestKeys); }
    else { HostManifests(s, step, manifestKeys); }
  }

  // --------------------------------------------------------- what a key can become

  /** Key `k` names a newer file than before, or what it named before. */
  ghost predicate Newer(s: State, s': State, k: Key) {
    && k in s.shared && k in s'.shared && s.shared[k] < |s'.w.inodes| && s'.shared[k] < |s'.w.inodes|
    && (s'.shared[k] != s.shared[k] ==> MtimeAt(s'.w, s.shared[k]) < MtimeAt(s'.w, s'.shared[k]))
  }

  lemma LinkMtime(s: State, pr: ProcId, k: Key, i: Ino, copyAt: Option<int>)
    requires i < |s.w.inodes| && (copyAt.Some? ==> copyAt.value == MtimeAt(s.w, i))
    ensures var s' := Link(s, pr, k, i, copyAt);
            && k in s'.shared && s'.shared[k] < |s'.w.inodes| && MtimeAt(s'.w, s'.shared[k]) == MtimeAt(s.w, i)
            && forall j | 0 <= j < |s.w.inodes| :: j < |s'.w.inodes| && MtimeAt(s'.w, j) == MtimeAt(s.w, j)
  {
  }

  /** Whatever the step: at a key where only manifests lie, an entry gives way only to a strictly newer one. */
  lemma EntryStep(s: State, step: Step, k: Key, manifestKeys: iset<Key>)
    requires Inv(s) && ManifestInv(s, manifestKeys) && StepDotFree(step)
    requires k in manifestKeys && k in s.shared && k in Apply(s, step).shared
    ensures Newer(s, Apply(s, step), k)
  {
    var s' := Apply(s, step);
    StepKeeps(s, step);
    InvIndexes(s);
    InvIndexes(s');
    assert |s.w.inodes| <= |s'.w.inodes|;
    if !SameEntry(s, s', k) {
      SharedByPublication(s, step, k);
      ReplacementIsNewer(s, step.pr, step.ch, k, manifestKeys);
    }
  }

  lemma StagedLinkIsNewer(s: State, pr: ProcId, n: string, k: Key, copyAt: Option<int>, manifestKeys: iset<Key>)
    requires Staged(s, n, k, manifestKeys) && k in manifestKeys && k in s.shared
    requires copyAt.Some? ==> copyAt.value == MtimeAt(s.w, Source(s, n, k))
    ensures Newer(s, Perform(s, pr, LinkEntry(n, k, copyAt)), k)
  {
    hide Link;
    LinkMtime(s, pr, k, Source(s, n, k), copyAt);
  }

  lemma ReplacementIsNewer(s: State, pr: ProcId, ch: Choice, k: Key, manifestKeys: iset<Key>)
    requires Inv(s) && ManifestInv(s, manifestKeys) && k in manifestKeys && pr in s.procs
    requires s.procs[pr].ProcPromote? || s.procs[pr].ProcReplace?
    requires k in s.shared && k in Apply(s, Run(pr, ch)).shared && !SameEntry(s, Apply(s, Run(pr, ch)), k)
    ensures Newer(s, Apply(s, Run(pr, ch)), k)
  {
    var pc := s.procs[pr];
    var op := Decide(s, pc, ch);
    var s1 := Perform(s, pr, op.effect);
    OperationShared(s, pr, ch);
    hide Apply, Decide, Perform, Inv;
    SharedEffect(s, pr, op.effect, k);
    if pc.ProcPromote? {
      PromoterLinksResults(s, pc, ch);
    } else {
      assert Staged(s, pc.name, pc.key, manifestKeys);
      ReplacerLinks(s, pc, ch);
      StagedLinkIsNewer(s, pr, pc.name, k, op.effect.copyAt, manifestKeys);
      assert Newer(s, s1, k);
    }
  }

  lemma OperationShared(s: State, pr: ProcId, ch: Choice)
    requires pr in s.procs
    ensures var s1 := Perform(s, pr, Decide(s, s.procs[pr], ch).effect);
            Apply(s, Run(pr, ch)).shared == s1.shared && Apply(s, Run(pr, ch)).w == s1.w
  {
    hide Boot, Open, Put, Write, RemoveEntry, Reaches, Mkdir, SpawnProc, StartSupervisor, Decide, Perform;
  }

  // ------------------------------------------------------------------- whole runs

  ghost predicate ManifestRun(steps: seq<Step>, manifestKeys: iset<Key>) {
    forall j | 0 <= j <= |steps| :: OnlyManifests(At(steps, j), manifestKeys)
  }

  lemma {:induction false} RunManifests(steps: seq<Step>, j: nat, manifestKeys: iset<Key>)
    requires RunDotFree(steps) && ManifestRun(steps, manifestKeys) && j <= |steps|
    ensures Inv(At(steps, j)) && ManifestInv(At(steps, j), manifestKeys)
  {
    hide Apply, Inv;
    AtKeeps(steps, j);
    if j > 0 {
      RunManifests(steps, j - 1, manifestKeys);
      AtNext(steps, j - 1);
      StepManifests(At(steps, j - 1), steps[j - 1], manifestKeys);
    }
  }

  lemma NewerTransitive(s: State, s1: State, s2: State, k: Key)
    requires Inv(s) && Inv(s1) && Evolves(s1.w, s2.w)
    requires Newer(s, s1, k) && Newer(s1, s2, k)
    requires Frozen(s1.w, s1.w.inodes[s.shared[k]].layer)
    ensures Newer(s, s2, k)
  {
    assert Legit(s1, k);
  }

  /**
   Over any stretch of any run in which trim does not remove key `k`, and only manifests ever lie at
   `k`: its modification time never decreases, and every change is to a strictly newer one, with any
   number of concurrent promoters.
   */
  lemma {:induction false} EntriesOnlyGetNewer(steps: seq<Step>, i: nat, j: nat, k: Key)
    requires RunDotFree(steps) && ManifestRun(steps, iset{k}) && i <= j <= |steps|
    requires forall m | i <= m <= j :: k in At(steps, m).shared
    ensures Newer(At(steps, i), At(steps, j), k)
    decreases j - i
  {
    hide Apply, Inv, ManifestInv, Newer;
    RunManifests(steps, i, iset{k});
    if i == j {
      NewerReflexive(At(steps, i), k);
    } else {
      EntriesOnlyGetNewer(steps, i, j - 1, k);
      RunManifests(steps, j - 1, iset{k});
      AtNext(steps, j - 1);
      var s1 := At(steps, j - 1);
      EntryStep(s1, steps[j - 1], k, iset{k});
      StepKeeps(s1, steps[j - 1]);
      OldEntryFrozen(steps, i, j - 1, k);
      NewerTransitive(At(steps, i), s1, At(steps, j), k);
    }
  }

  lemma NewerReflexive(s: State, k: Key)
    requires Inv(s) && k in s.shared
    ensures Newer(s, s, k)
  {
    InvIndexes(s);
  }

  lemma OldEntryFrozen(steps: seq<Step>, i: nat, j: nat, k: Key)
    requires RunDotFree(steps) && i <= j <= |steps| && k in At(steps, i).shared
    ensures At(steps, i).shared[k] < |At(steps, j).w.inodes|
    ensures Frozen(At(steps, j).w, At(steps, j).w.inodes[At(steps, i).shared[k]].layer)
  {
    AtKeeps(steps, i);
    assert Legit(At(steps, i), k);
    RunTail(steps, i, j);
    RunKeeps(At(steps, i), steps[i..j]);
  }

  lemma {:induction false} RunTail(steps: seq<Step>, i: nat, j: nat)
    requires i <= j <= |steps|
    ensures At(steps, j) == Exec(At(steps, i), steps[i..j])
    decreases j - i
  {
    hide Apply;
    if i < j {
      RunTail(steps, i, j - 1);
      AtNext(steps, j - 1);
      assert steps[i..j][..j - i - 1] == steps[i..j - 1];
    }
  }

  // ------------------------------------------------------------------ where no manifest lies

  ghost predicate NoManifestAt(s: State, k: Key) {
    forall n :: Candidate(s, n, k) ==> KindAt(s.w, Source(s, n, k)) != ManifestEntry
  }

  predicate Replaces(s: State, q: ProcId, k: Key) { q in s.procs && s.procs[q].ProcReplace? && s.procs[q].key == k }

  /** A promoter gets to the replacement at `k` only from a manifest at `k`. */
  lemma ReplacerHasManifest(s: State, step: Step, q: ProcId, k: Key)
    requires Inv(s) && NoManifestAt(s, k) && !Replaces(s, q, k)
    ensures !Replaces(Apply(s, step), q, k)
  {
    if step.Run? {
      if step.pr in s.procs { RunReplaces(s, step.pr, step.ch, q, k); }
    } else if GuestStep(step) {
      GuestFrame(s, step);
    } else {
      OthersReplaceNothing(s, step, q, k);
    }
  }

  lemma OthersReplaceNothing(s: State, step: Step, q: ProcId, k: Key)
    requires !step.Run? && !GuestStep(step) && !Replaces(s, q, k)
    ensures !Replaces(Apply(s, step), q, k)
  {
    hide Decide, Perform, SpawnProc, Continue;
    match step
    case SupStart(p) =>
    case SupDie(p) =>
    case TrimUnlink(_) =>
    case Spawn(pr, pc) => SpawnFrame(s, pr, pc);
    case Crash(pr) => CrashedProcs(s, pr);
  }

  lemma CrashedProcs(s: State, pr: ProcId)
    ensures forall q :: q in Continue(s, pr, None).procs ==> q in s.procs && Continue(s, pr, None).procs[q] == s.procs[q]
  {
  }

  lemma RunReplaces(s: State, pr: ProcId, ch: Choice, q: ProcId, k: Key)
    requires Inv(s) && NoManifestAt(s, k) && pr in s.procs && !Replaces(s, q, k)
    ensures !Replaces(Apply(s, Run(pr, ch)), q, k)
  {
    var op := Decide(s, s.procs[pr], ch);
    InvIndexes(s);
    OnlyReplacerLocked(s, s.procs[pr], ch, iset{});
    Frame(s, pr, op.effect);
    if s.procs[pr].ProcReplace? { NextReplaces(s.procs[pr], s, ch); }
    OperationProcs(s, pr, ch);
    hide Apply, Decide, Perform, Inv;
  }

  lemma NextReplaces(pc: Pc, s: State, ch: Choice)
    requires pc.ProcReplace?
    ensures var op := Decide(s, pc, ch); op.next.Some? ==> !op.next.value.ProcReplace?
  {
  }

  lemma OperationProcs(s: State, pr: ProcId, ch: Choice)
    requires pr in s.procs
    ensures var op := Decide(s, s.procs[pr], ch);
            var procs := Perform(s, pr, op.effect).procs;
            Apply(s, Run(pr, ch)).procs == if op.next.Some? then procs[pr := op.next.value] else procs - {pr}
  {
    hide Boot, Open, Put, Write, RemoveEntry, Reaches, Mkdir, SpawnProc, StartSupervisor, Decide, Perform;
  }

  lemma {:induction false} NobodyReplaces(steps: seq<Step>, j: nat, q: ProcId, k: Key)
    requires RunDotFree(steps) && j <= |steps| && forall m | 0 <= m < j :: NoManifestAt(At(steps, m), k)
    ensures !Replaces(At(steps, j), q, k)
  {
    hide Apply, NoManifestAt;
    if j > 0 {
      NobodyReplaces(steps, j - 1, q, k);
      AtNext(steps, j - 1);
      AtKeeps(steps, j - 1);
      ReplacerHasManifest(At(steps, j - 1), steps[j - 1], q, k);
    }
  }

  lemma EntryStaysPut(s: State, step: Step, k: Key)
    requires Inv(s) && k in s.shared && k in Apply(s, step).shared && forall q :: !Replaces(s, q, k)
    ensures SameEntry(s, Apply(s, step), k)
  {
    if !SameEntry(s, Apply(s, step), k) {
      SharedByPublication(s, step, k);
      var pc := s.procs[step.pr];
      var e := Decide(s, pc, step.ch).effect;
      OperationShared(s, step.pr, step.ch);
      hide Apply, Decide, Perform, Inv;
      SharedEffect(s, step.pr, e, k);
      PublisherKey(s, pc, step.ch);
      NotThere(s, step.pr, k);
    }
  }

  lemma NotThere(s: State, q: ProcId, k: Key)
    requires forall q :: !Replaces(s, q, k)
    ensures !Replaces(s, q, k)
  {
  }

  lemma PublisherKey(s: State, pc: Pc, ch: Choice)
    ensures var e := Decide(s, pc, ch).effect;
            e.LinkEntry? ==> (pc.ProcReplace? && e.key == pc.key) || e.key !in s.shared
  {
  }

  /**
   Over any stretch of any run in which trim does not remove key `k`, and no manifest ever lies at
   `k`: the entry is the same file throughout, whatever lies at other keys.
   */
  lemma {:induction false} ResultsStay(steps: seq<Step>, i: nat, j: nat, k: Key)
    requires RunDotFree(steps) && i <= j <= |steps| && forall m | 0 <= m < j :: NoManifestAt(At(steps, m), k)
    requires forall m | i <= m <= j :: k in At(steps, m).shared
    ensures At(steps, j).shared[k] == At(steps, i).shared[k]
    decreases j - i
  {
    hide Apply, NoManifestAt, Inv;
    if i < j {
      ResultsStay(steps, i, j - 1, k);
      AtNext(steps, j - 1);
      AtKeeps(steps, j - 1);
      var s := At(steps, j - 1);
      forall q ensures !Replaces(s, q, k) { NobodyReplaces(steps, j - 1, q, k); }
      EntryStaysPut(s, steps[j - 1], k);
    }
  }
}
