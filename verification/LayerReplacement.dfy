/**
 Why results are immutable only where no manifest may lie: `publish_manifest` does not look at the
 kind of the entry it replaces. For every key at which a manifest may lie, a run replaces a result.
 */
module LayerReplacement {
  import opened Basics
  import opened LayerProtocol
  import opened LayerFrames
  import opened LayerProvenance
  import opened LayerRuns
  import opened LayerManifests
  import opened LayerLimits

  // ------------------------------------------------------- one job, up to its green layer

  /** A VM boots, its layer is attached, it writes one file, settles green, and is gone. */
  function JobSteps(v: VmName, p: Pid, l: LayerId, k: Key, file: File): seq<Step> {
    [VmBoot(v)] + AttachSteps(0, v, p) + [GuestOpen(v)] + [GuestPut(v, l, k, file)] + (SettleSteps(1, v, true) + [Crash(1)]) + [VmGone(v)]
  }

  function JobDone(s: State, v: VmName, p: Pid, k: Key, file: File): State {
    var l := |s.w.layers|;
    s.(w := s.w.(nextInst := s.w.nextInst + 1,
                 layers := s.w.layers + [Layer(v, Some(p), Green, map[k := |s.w.inodes|], {s.w.nextInst}, false)],
                 inodes := s.w.inodes + [Inode(file, l, false)]),
       owners := s.owners[v := p], started := s.started + {v}, made := s.made + {v}, green := s.green[v := l])
  }

  predicate Unknown(s: State, v: VmName) { v !in s.w.present && v !in s.w.jobs && v !in s.green }

  function Booted(s: State, v: VmName): State {
    s.(w := s.w.(present := s.w.present[v := s.w.nextInst], nextInst := s.w.nextInst + 1))
  }

  function Attached(s: State, v: VmName, p: Pid, access: set<Inst>, entries: map<Key, Ino>, inodes: seq<Inode>): State {
    s.(w := s.w.(layers := s.w.layers + [Layer(v, Some(p), Pending, entries, access, false)],
                 jobs := s.w.jobs[v := |s.w.layers|], inodes := inodes),
       owners := s.owners[v := p], started := s.started + {v}, made := s.made + {v})
  }

  lemma BootStep(s: State, v: VmName)
    requires v !in s.w.present
    ensures Apply(s, VmBoot(v)) == Booted(s, v)
  {
  }

  lemma OpenStep(s: State, v: VmName, p: Pid)
    requires v in s.w.present
    ensures Apply(Attached(s, v, p, {}, map[], s.w.inodes), GuestOpen(v)) ==
            Attached(s, v, p, {s.w.present[v]}, map[], s.w.inodes)
  {
    var t := Attached(s, v, p, {}, map[], s.w.inodes);
    var l := |s.w.layers|;
    var layer := t.w.layers[l].(access := {s.w.present[v]});
    assert {} + {s.w.present[v]} == {s.w.present[v]};
    assert t.w.layers[l := layer] == s.w.layers + [layer];
  }

  lemma PutStep(s: State, v: VmName, p: Pid, k: Key, file: File)
    requires v in s.w.present
    ensures Apply(Attached(s, v, p, {s.w.present[v]}, map[], s.w.inodes), GuestPut(v, |s.w.layers|, k, file)) ==
            Attached(s, v, p, {s.w.present[v]}, map[k := |s.w.inodes|], s.w.inodes + [Inode(file, |s.w.layers|, false)])
  {
    var t := Attached(s, v, p, {s.w.present[v]}, map[], s.w.inodes);
    var l := |s.w.layers|;
    var layer := t.w.layers[l].(entries := map[k := |s.w.inodes|]);
    assert t.w.layers[l := layer] == s.w.layers + [layer];
  }

  lemma GoneStep(s: State, v: VmName, p: Pid, k: Key, file: File)
    requires Unknown(s, v)
    ensures var b := Booted(s, v);
            var t := Attached(b, v, p, {s.w.nextInst}, map[k := |s.w.inodes|], s.w.inodes + [Inode(file, |s.w.layers|, false)]);
            Apply(Settled(t, v, true), VmGone(v)) == JobDone(s, v, p, k, file)
  {
    var b := Booted(s, v);
    var t := Attached(b, v, p, {s.w.nextInst}, map[k := |s.w.inodes|], s.w.inodes + [Inode(file, |s.w.layers|, false)]);
    var u := Settled(t, v, true);
    var l := |s.w.layers|;
    assert t.w.layers[l := t.w.layers[l].(verdict := Green)] == JobDone(s, v, p, k, file).w.layers;
    assert s.w.jobs[v := l] - {v} == s.w.jobs;
    assert s.w.present[v := s.w.nextInst] - {v} == s.w.present;
  }

  lemma AttachedAs(s: State, v: VmName, p: Pid)
    ensures s.(w := NewLayer(s.w, v, Some(p), {}), owners := s.owners[v := p], started := s.started + {v}, made := s.made + {v})
         == Attached(s, v, p, {}, map[], s.w.inodes)
  {
  }

  /** A job leaves exactly one green layer with its file. */
  lemma JobState(s: State, v: VmName, p: Pid, k: Key, file: File)
    requires Idle(s, 0) && Idle(s, 1) && p in s.alive && Unknown(s, v)
    ensures Exec(s, JobSteps(v, p, |s.w.layers|, k, file)) == JobDone(s, v, p, k, file)
  {
    var l := |s.w.layers|;
    var b := Booted(s, v);
    var put := Attached(b, v, p, {s.w.nextInst}, map[k := |s.w.inodes|], s.w.inodes + [Inode(file, l, false)]);
    BootStep(s, v);
    AttachAlone(b, 0, v, p);
    AttachedAs(b, v, p);
    OpenStep(b, v, p);
    PutStep(b, v, p, k, file);
    CrashedSettle(put, 1, v);
    GoneStep(s, v, p, k, file);
    hide Apply, Attached, Booted, JobDone, Settled, AttachSteps, SettleSteps;
    var a1 := [VmBoot(v)];
    ExecOne(s, VmBoot(v));
    ExecAppend(s, a1, AttachSteps(0, v, p));
    var a2 := a1 + AttachSteps(0, v, p);
    ExecSnoc(s, a2, GuestOpen(v));
    ExecSnoc(s, a2 + [GuestOpen(v)], GuestPut(v, l, k, file));
    var a3 := a2 + [GuestOpen(v)] + [GuestPut(v, l, k, file)];
    ExecAppend(s, a3, SettleSteps(1, v, true) + [Crash(1)]);
    ExecSnoc(s, a3 + (SettleSteps(1, v, true) + [Crash(1)]), VmGone(v));
  }

  // ----------------------------------------------------------- a promoter, up to its entries

  function PromoteSteps(pr: ProcId, v: VmName): seq<Step> {
    [Spawn(pr, ProcLock(v)), Run(pr, ANY), Run(pr, ANY), Run(pr, ANY)] + [Run(pr, ANY)] + [Run(pr, ANY)]
  }

  /** The promoter `pr` stands before the entries of green layer `v`, whose VM it saw gone. */
  function Promoting(s: State, pr: ProcId, v: VmName): State
    requires v in s.green && s.green[v] < |s.w.layers|
  {
    s.(locks := s.locks[v := pr], w := SeenGone(s.w, s.green[v]), procs := s.procs[pr := ProcPromote(v, Listed(s, v))])
  }

  lemma PromoterState(s: State, pr: ProcId, v: VmName)
    requires pr !in s.procs && v !in s.locks && v !in s.discard && v !in s.meta
    requires v in s.green && s.green[v] < |s.w.layers| && DotFree(v) && v !in s.w.present
    ensures Exec(s, PromoteSteps(pr, v)) == Promoting(s, pr, v)
  {
    var look := [Spawn(pr, ProcLock(v)), Run(pr, ANY), Run(pr, ANY), Run(pr, ANY)];
    var t := Continue(s.(locks := s.locks[v := pr]), pr, Some(ProcMeta(v)));
    ProcessLocks(s, pr, v);
    BeforeDotPrefix(v, "");
    ProcessGuesses(t, pr, v);
    hide Apply, SeenGone;
    ExecSnoc(s, look, Run(pr, ANY));
    ExecSnoc(s, look + [Run(pr, ANY)], Run(pr, ANY));
    assert s.procs[pr := ProcMeta(v)][pr := ProcPromote(v, Listed(s, v))] == s.procs[pr := ProcPromote(v, Listed(s, v))];
  }

  /** At a free key a result is linked. */
  lemma PublishResult(s: State, pr: ProcId, v: VmName, k: Key)
    requires pr in s.procs && s.procs[pr] == ProcPromote(v, {k}) && Candidate(s, v, k) && k !in s.shared
    requires KindAt(s.w, Source(s, v, k)) == ResultEntry && s.manifestLock != Some(pr)
    ensures Apply(s, Run(pr, ANY.(key := k))) ==
            s.(shared := s.shared[k := Source(s, v, k)], procs := s.procs[pr := ProcPromote(v, {})])
  {
    assert {k} - {k} == {};
    Operation(s, pr, ANY.(key := k), Op(LinkEntry(v, k, None), Some(ProcPromote(v, {}))));
    hide Apply;
  }

  /** A newer manifest is compared under the lock, and then renamed over whatever is there. */
  lemma StageManifest(s: State, pr: ProcId, v: VmName, k: Key)
    requires pr in s.procs && s.procs[pr] == ProcPromote(v, {k}) && Candidate(s, v, k) && s.manifestLock == None
    requires KindAt(s.w, Source(s, v, k)) == ManifestEntry
    requires k in s.shared ==> s.shared[k] < |s.w.inodes| && MtimeAt(s.w, s.shared[k]) < MtimeAt(s.w, Source(s, v, k))
    ensures Apply(s, Run(pr, ANY.(key := k))) ==
            s.(manifestLock := Some(pr), procs := s.procs[pr := ProcReplace(v, k, {})])
  {
    assert {k} - {k} == {};
    Operation(s, pr, ANY.(key := k), Op(LockManifests, Some(ProcReplace(v, k, {}))));
  }

  lemma ReplaceEntry(s: State, pr: ProcId, v: VmName, k: Key)
    requires pr in s.procs && s.procs[pr] == ProcReplace(v, k, {}) && Candidate(s, v, k)
    ensures k in Apply(s, Run(pr, ANY)).shared && Apply(s, Run(pr, ANY)).shared[k] == Source(s, v, k)
  {
    Operation(s, pr, ANY, Op(LinkEntry(v, k, None), Some(ProcPromote(v, {}))));
  }

  // ------------------------------------------------------------------------ the witness run

  const A: VmName := "a"
  const B: VmName := "b"
  const RESULT: File := File(ResultEntry, 0, "")
  const MANIFEST: File := File(ManifestEntry, 1, "")

  function First(k: Key): seq<Step> { [SupStart(0)] + JobSteps(A, 0, 0, k, RESULT) + PromoteSteps(2, A) + [Run(2, ANY.(key := k))] }

  function Second(k: Key): seq<Step> { JobSteps(B, 0, 1, k, MANIFEST) + PromoteSteps(3, B) + [Run(3, ANY.(key := k))] }

  /** What matters of the state in which `A`'s result is published. */
  predicate Published(s: State, k: Key) {
    && s.alive == {0} && s.procs == map[2 := ProcPromote(A, {})] && s.locks == map[A := 2] && s.manifestLock == None
    && s.discard == map[] && s.meta == map[] && s.green == map[A := 0] && s.shared == map[k := 0]
    && s.w.present == map[] && s.w.jobs == map[] && |s.w.layers| == 1 && s.w.inodes == [Inode(RESULT, 0, false)]
  }

  /** `A` is gone, its promoter stands before its one file, and nothing is published. */
  predicate Standing(s: State, k: Key, file: File) {
    && s.alive == {0} && s.procs == map[2 := ProcPromote(A, {k})] && s.locks == map[A := 2] && s.manifestLock == None
    && s.discard == map[] && s.meta == map[] && s.green == map[A := 0] && s.shared == map[]
    && s.w.present == map[] && s.w.jobs == map[] && s.w.inodes == [Inode(file, 0, false)]
    && |s.w.layers| == 1 && s.w.layers[0].entries == map[k := 0]
  }

  lemma JobAlone(k: Key, file: File)
    ensures Exec(Init(), [SupStart(0)] + JobSteps(A, 0, 0, k, file)) == JobDone(Init().(alive := {0}, born := {0}), A, 0, k, file)
  {
    var s := Exec(Init(), [SupStart(0)]);
    ExecOne(Init(), SupStart(0));
    assert s == Init().(alive := {0}, born := {0});
    JobState(s, A, 0, k, file);
    ExecAppend(Init(), [SupStart(0)], JobSteps(A, 0, 0, k, file));
  }

  lemma FirstStands(k: Key, file: File)
    ensures Standing(Exec(Init(), [SupStart(0)] + JobSteps(A, 0, 0, k, file) + PromoteSteps(2, A)), k, file)
  {
    var s := JobDone(Init().(alive := {0}, born := {0}), A, 0, k, file);
    assert s.w.layers == [Layer(A, Some(0), Green, map[k := 0], {0}, false)] && s.w.inodes == [Inode(file, 0, false)];
    assert Listed(s, A) == {k};
    hide Apply, JobSteps, PromoteSteps;
    JobAlone(k, file);
    PromoterState(s, 2, A);
    ExecAppend(Init(), [SupStart(0)] + JobSteps(A, 0, 0, k, file), PromoteSteps(2, A));
  }

  lemma FirstPublishes(k: Key)
    requires ValidKey(k)
    ensures Published(Exec(Init(), First(k)), k)
  {
    hide Apply, JobSteps, PromoteSteps;
    FirstStands(k, RESULT);
    var steps := [SupStart(0)] + JobSteps(A, 0, 0, k, RESULT) + PromoteSteps(2, A);
    PublishResult(Exec(Init(), steps), 2, A, k);
    ExecSnoc(Init(), steps, Run(2, ANY.(key := k)));
  }

  /** What matters of the state in which `B`'s promoter stands before its manifest. */
  predicate Facing(s: State, k: Key) {
    && s.manifestLock == None && s.shared == map[k := 0] && s.w.inodes == [Inode(RESULT, 0, false), Inode(MANIFEST, 1, false)]
    && 3 in s.procs && s.procs[3] == ProcPromote(B, {k}) && Candidate(s, B, k) && Source(s, B, k) == 1
  }

  lemma FacingManifest(s: State, k: Key)
    requires ValidKey(k) && Published(s, k)
    ensures var t := JobDone(s, B, 0, k, MANIFEST); B in t.green && t.green[B] < |t.w.layers| && Facing(Promoting(t, 3, B), k)
  {
    var t := JobDone(s, B, 0, k, MANIFEST);
    assert t.w.layers[1] == Layer(B, Some(0), Green, map[k := 1], {s.w.nextInst}, false);
  }

  /** `B` can run its job and be promoted. */
  lemma SecondIsNext(s: State, k: Key)
    requires Published(s, k)
    ensures Idle(s, 0) && Idle(s, 1) && 0 in s.alive && Unknown(s, B) && |s.w.layers| == 1
    ensures var t := JobDone(s, B, 0, k, MANIFEST);
            && 3 !in t.procs && B !in t.locks && B !in t.discard && B !in t.meta && B !in t.w.present
            && B in t.green && t.green[B] < |t.w.layers|
  {
  }

  lemma SecondFaces(s: State, k: Key)
    requires ValidKey(k) && Published(s, k)
    ensures Facing(Exec(s, JobSteps(B, 0, 1, k, MANIFEST) + PromoteSteps(3, B)), k)
  {
    var t := JobDone(s, B, 0, k, MANIFEST);
    SecondIsNext(s, k);
    FacingManifest(s, k);
    hide Published, JobDone, Facing, JobSteps, PromoteSteps;
    JobState(s, B, 0, k, MANIFEST);
    PromoterState(t, 3, B);
    ExecAppend(s, JobSteps(B, 0, 1, k, MANIFEST), PromoteSteps(3, B));
  }

  lemma SecondStages(s: State, k: Key)
    requires ValidKey(k) && Published(s, k)
    ensures var t := Exec(s, Second(k));
            && k in t.shared && t.shared[k] == 0 && t.w.inodes == [Inode(RESULT, 0, false), Inode(MANIFEST, 1, false)]
            && 3 in t.procs && t.procs[3] == ProcReplace(B, k, {}) && Candidate(t, B, k) && Source(t, B, k) == 1
  {
    hide Apply, JobSteps, PromoteSteps;
    SecondFaces(s, k);
    var t := Exec(s, JobSteps(B, 0, 1, k, MANIFEST) + PromoteSteps(3, B));
    StageManifest(t, 3, B, k);
    ExecSnoc(s, JobSteps(B, 0, 1, k, MANIFEST) + PromoteSteps(3, B), Run(3, ANY.(key := k)));
  }

  /** The step puts another file where a result was published. */
  ghost predicate Overwrites(s: State, step: Step, k: Key) {
    && k in s.shared && s.shared[k] < |s.w.inodes| && KindAt(s.w, s.shared[k]) == ResultEntry
    && k in Apply(s, step).shared && Apply(s, step).shared[k] != s.shared[k]
  }

  lemma ManifestOverwrites(k: Key)
    requires ValidKey(k)
    ensures Overwrites(Exec(Init(), First(k) + Second(k)), Run(3, ANY), k)
  {
    hide Apply, First, Second;
    FirstPublishes(k);
    SecondStages(Exec(Init(), First(k)), k);
    ExecAppend(Init(), First(k), Second(k));
    ReplaceEntry(Exec(Init(), First(k) + Second(k)), 3, B, k);
  }

  // ------------------------------------------------- files lie only where guests put them

  ghost predicate KeysIn(w: World, keys: iset<Key>) {
    forall l, key :: 0 <= l < |w.layers| && key in w.layers[l].entries ==> key in keys
  }

  predicate PutsIn(step: Step, keys: iset<Key>) { step.GuestPut? ==> step.k in keys }

  lemma GuestKeys(s: State, v: VmName, l: LayerId, i: Ino, k: Key, file: File, keys: iset<Key>)
    requires KeysIn(s.w, keys)
    ensures KeysIn(Boot(s.w, v), keys) && KeysIn(Open(s.w, v), keys) && KeysIn(Write(s.w, v, i, file), keys)
    ensures KeysIn(RemoveEntry(s.w, l, k), keys) && KeysIn(Mkdir(s, v).w, keys) && (k in keys ==> KeysIn(Put(s.w, v, l, k, file), keys))
  {
  }

  lemma EffectKeys(s: State, pr: ProcId, e: Effect, keys: iset<Key>)
    requires KeysIn(s.w, keys)
    ensures KeysIn(Perform(s, pr, e).w, keys)
  {
    if e.ToDiscard? || e.ToGreen? {
      RenamedKeys(s, pr, e, keys);
    } else if e.MakeLayer? || e.NoteGone? || e.DropEntry? {
      LayerKeys(s, pr, e, keys);
    } else if e.LinkEntry? {
      if Candidate(s, e.name, e.key) { assert Perform(s, pr, e) == Link(s, pr, e.key, Source(s, e.name, e.key), e.copyAt); }
    } else {
      Frame(s, pr, e);
      hide Perform;
    }
  }

  lemma RenamedKeys(s: State, pr: ProcId, e: Effect, keys: iset<Key>)
    requires KeysIn(s.w, keys) && (e.ToDiscard? || e.ToGreen?)
    ensures KeysIn(Perform(s, pr, e).w, keys)
  {
    if e.v in s.w.jobs && s.w.jobs[e.v] < |s.w.layers| {
      var w' := Take(s.w, e.v, if e.ToGreen? then Green else e.verdict);
      assert KeysIn(w', keys);
      hide Take;
      assert Perform(s, pr, e).w == s.w || Perform(s, pr, e).w == w';
    }
  }

  lemma LayerKeys(s: State, pr: ProcId, e: Effect, keys: iset<Key>)
    requires KeysIn(s.w, keys) && (e.MakeLayer? || e.NoteGone? || e.DropEntry?)
    ensures KeysIn(Perform(s, pr, e).w, keys)
  {
    match e
    case MakeLayer(_, _) =>
    case NoteGone(_) =>
    case DropEntry(_, _) =>
  }

  lemma StepKeys(s: State, step: Step, keys: iset<Key>)
    requires KeysIn(s.w, keys) && PutsIn(step, keys)
    ensures KeysIn(Apply(s, step).w, keys)
  {
    hide KeysIn, Decide, Perform, Boot, Open, Put, Write, RemoveEntry, Mkdir, Reaches, SpawnProc, Continue, StartSupervisor;
    if step.Run? {
      if step.pr in s.procs {
        EffectKeys(s, step.pr, Decide(s, s.procs[step.pr], step.ch).effect, keys);
        OperationShared(s, step.pr, step.ch);
      }
    } else if GuestStep(step) {
      match step
      case VmBoot(v) => GuestKeys(s, v, 0, 0, Key("", ""), RESULT, keys);
      case VmGone(v) => StillIn(s.w, Apply(s, step).w, keys);
      case GuestOpen(v) => GuestKeys(s, v, 0, 0, Key("", ""), RESULT, keys);
      case GuestMkdir(v) => GuestKeys(s, v, 0, 0, Key("", ""), RESULT, keys);
      case GuestPut(v, l, k, file) => GuestKeys(s, v, l, 0, k, file, keys);
      case GuestWrite(v, i, file) => GuestKeys(s, v, 0, i, Key("", ""), file, keys);
      case GuestUnlink(v, l, k) => GuestKeys(s, v, l, 0, k, RESULT, keys);
    } else {
      NoProcessNoChange(s, step);
    }
  }

  lemma StillIn(w: World, w': World, keys: iset<Key>)
    requires KeysIn(w, keys) && w'.layers == w.layers
    ensures KeysIn(w', keys)
  {
  }

  predicate RunPutsIn(steps: seq<Step>, keys: iset<Key>) { forall j | 0 <= j < |steps| :: PutsIn(steps[j], keys) }

  lemma {:induction false} RunKeys(steps: seq<Step>, keys: iset<Key>)
    requires RunPutsIn(steps, keys)
    ensures KeysIn(Exec(Init(), steps).w, keys)
  {
    hide Apply, KeysIn, PutsIn;
    if steps == [] {
      NothingIn(keys);
    } else {
      var n := |steps| - 1;
      RunKeys(steps[..n], keys);
      StepKeys(Exec(Init(), steps[..n]), steps[n], keys);
    }
  }

  lemma NothingIn(keys: iset<Key>)
    ensures KeysIn(Exec(Init(), []).w, keys)
  {
  }

  // ------------------------------------------------------------------------ the exact limit

  /** In every state of the run, manifests lie only at these keys. */
  ghost predicate ManifestsIn(steps: seq<Step>, keys: iset<Key>) {
    forall j | 0 <= j <= |steps| :: ManifestsOnlyAt(At(steps, j), keys)
  }

  ghost predicate ManifestsOnlyAt(s: State, keys: iset<Key>) {
    forall n, k :: Candidate(s, n, k) && KindAt(s.w, Source(s, n, k)) == ManifestEntry ==> k in keys
  }

  lemma KeysBound(s: State, keys: iset<Key>, manifestKeys: iset<Key>)
    requires KeysIn(s.w, keys) && keys <= manifestKeys
    ensures ManifestsOnlyAt(s, manifestKeys)
  {
  }

  lemma RunKeepsTo(steps: seq<Step>, k: Key, manifestKeys: iset<Key>)
    requires RunPutsIn(steps, iset{k}) && k in manifestKeys
    ensures ManifestsIn(steps, manifestKeys)
  {
    hide KeysIn, ManifestsOnlyAt;
    forall j | 0 <= j <= |steps| ensures ManifestsOnlyAt(At(steps, j), manifestKeys) {
      RunKeys(steps[..j], iset{k});
      KeysBound(At(steps, j), iset{k}, manifestKeys);
    }
  }

  lemma AppendPuts(a: seq<Step>, b: seq<Step>, keys: iset<Key>)
    requires RunPutsIn(a, keys) && RunPutsIn(b, keys) && RunDotFree(a) && RunDotFree(b)
    ensures RunPutsIn(a + b, keys) && RunDotFree(a + b)
  {
  }

  lemma WitnessPuts(k: Key)
    ensures RunPutsIn(First(k) + Second(k), iset{k}) && RunDotFree(First(k) + Second(k))
  {
    JobPuts(A, 0, k, RESULT);
    JobPuts(B, 1, k, MANIFEST);
    PromotePuts(2, A, k);
    PromotePuts(3, B, k);
    var keys := iset{k};
    var a0, a1 := [SupStart(0)], JobSteps(A, 0, 0, k, RESULT);
    AppendPuts(a0, a1, keys);
    AppendPuts(a0 + a1, PromoteSteps(2, A), keys);
    AppendPuts(a0 + a1 + PromoteSteps(2, A), [Run(2, ANY.(key := k))], keys);
    var b0 := JobSteps(B, 0, 1, k, MANIFEST);
    AppendPuts(b0, PromoteSteps(3, B), keys);
    AppendPuts(b0 + PromoteSteps(3, B), [Run(3, ANY.(key := k))], keys);
    AppendPuts(First(k), Second(k), keys);
  }

  lemma JobPuts(v: VmName, l: LayerId, k: Key, file: File)
    requires DotFree(v)
    ensures RunPutsIn(JobSteps(v, 0, l, k, file), iset{k}) && RunDotFree(JobSteps(v, 0, l, k, file))
  {
  }

  lemma PromotePuts(pr: ProcId, v: VmName, k: Key)
    ensures RunPutsIn(PromoteSteps(pr, v), iset{k}) && RunDotFree(PromoteSteps(pr, v))
  {
  }

  lemma NoOverwrite(steps: seq<Step>, step: Step, k: Key, manifestKeys: iset<Key>)
    requires RunDotFree(steps) && ManifestsIn(steps, manifestKeys) && k !in manifestKeys
    ensures !Overwrites(Exec(Init(), steps), step, k)
  {
    hide Apply;
    var n := |steps|;
    assert steps[..n] == steps;
    var s := At(steps, n);
    forall m | 0 <= m < n ensures NoManifestAt(At(steps, m), k) { assert ManifestsOnlyAt(At(steps, m), manifestKeys); }
    AtKeeps(steps, n);
    if Overwrites(s, step, k) {
      forall q ensures !Replaces(s, q, k) { NobodyReplaces(steps, n, q, k); }
      EntryStaysPut(s, step, k);
    }
  }

  /** Published results at `k` are safe in all runs in which manifests lie only at `manifestKeys`, exactly when `k` is not one of them. */
  lemma ResultsAreSafeExactly(k: Key, manifestKeys: iset<Key>)
    requires ValidKey(k)
    ensures k !in manifestKeys <==>
      forall steps, step :: RunDotFree(steps) && ManifestsIn(steps, manifestKeys) ==> !Overwrites(Exec(Init(), steps), step, k)
  {
    hide RunDotFree, ManifestsIn, Overwrites, Exec, First, Second;
    if k in manifestKeys {
      ManifestOverwrites(k);
      WitnessPuts(k);
      RunKeepsTo(First(k) + Second(k), k, manifestKeys);
    } else {
      forall steps, step | RunDotFree(steps) && ManifestsIn(steps, manifestKeys) ensures !Overwrites(Exec(Init(), steps), step, k) {
        NoOverwrite(steps, step, k, manifestKeys);
      }
    }
  }

  // ------------------------------------------------------- and why times need manifests alone

  const LATE: File := File(ResultEntry, 2, "")

  /** A manifest is compared against a free key; before it is put there, a newer result is linked. */
  function Undercut(k: Key): seq<Step> {
    [SupStart(0)] + JobSteps(A, 0, 0, k, MANIFEST) + PromoteSteps(2, A) + [Run(2, ANY.(key := k))]
      + JobSteps(B, 0, 1, k, LATE) + PromoteSteps(3, B) + [Run(3, ANY.(key := k))]
  }

  predicate StagedAlone(s: State, k: Key) {
    && s.alive == {0} && s.procs == map[2 := ProcReplace(A, k, {})] && s.locks == map[A := 2] && s.manifestLock == Some(2)
    && s.discard == map[] && s.meta == map[] && s.green == map[A := 0] && s.shared == map[]
    && s.w.present == map[] && s.w.jobs == map[] && s.w.inodes == [Inode(MANIFEST, 0, false)]
    && |s.w.layers| == 1 && s.w.layers[0].entries == map[k := 0]
  }

  lemma FirstStages(k: Key)
    requires ValidKey(k)
    ensures StagedAlone(Exec(Init(), [SupStart(0)] + JobSteps(A, 0, 0, k, MANIFEST) + PromoteSteps(2, A) + [Run(2, ANY.(key := k))]), k)
  {
    hide Apply, JobSteps, PromoteSteps;
    FirstStands(k, MANIFEST);
    var steps := [SupStart(0)] + JobSteps(A, 0, 0, k, MANIFEST) + PromoteSteps(2, A);
    StageManifest(Exec(Init(), steps), 2, A, k);
    ExecSnoc(Init(), steps, Run(2, ANY.(key := k)));
  }

  /** The newer result is at `k`, and the older manifest still about to replace it. */
  predicate Undercutting(s: State, k: Key) {
    && k in s.shared && s.shared[k] == 1 && s.w.inodes == [Inode(MANIFEST, 0, false), Inode(LATE, 1, false)]
    && 2 in s.procs && s.procs[2] == ProcReplace(A, k, {}) && Candidate(s, A, k) && Source(s, A, k) == 0
  }

  predicate LateDone(t: State, k: Key) {
    && t.green == map[A := 0, B := 1] && t.w.inodes == [Inode(MANIFEST, 0, false), Inode(LATE, 1, false)]
    && |t.w.layers| == 2 && t.w.layers[0].entries == map[k := 0] && t.w.layers[1].entries == map[k := 1]
    && t.procs == map[2 := ProcReplace(A, k, {})] && t.shared == map[] && t.manifestLock == Some(2)
  }

  lemma LateJob(s: State, k: Key)
    requires StagedAlone(s, k)
    ensures LateDone(JobDone(s, B, 0, k, LATE), k)
  {
    var t := JobDone(s, B, 0, k, LATE);
    assert t.w.layers[1] == Layer(B, Some(0), Green, map[k := 1], {s.w.nextInst}, false);
    assert t.w.layers[0] == s.w.layers[0];
  }

  lemma LateResult(t: State, k: Key)
    requires ValidKey(k) && LateDone(t, k)
    ensures var u := Promoting(t, 3, B);
            && 3 in u.procs && u.procs[3] == ProcPromote(B, {k}) && Candidate(u, B, k) && Source(u, B, k) == 1 && k !in u.shared
            && u.manifestLock == Some(2) && KindAt(u.w, 1) == ResultEntry
  {
    assert Listed(t, B) == {k};
  }

  lemma LateLinked(t: State, k: Key)
    requires ValidKey(k) && LateDone(t, k)
    ensures var u := Promoting(t, 3, B);
            Undercutting(u.(shared := u.shared[k := 1], procs := u.procs[3 := ProcPromote(B, {})]), k)
  {
  }

  lemma SecondUndercuts(s: State, k: Key)
    requires ValidKey(k) && StagedAlone(s, k)
    ensures Undercutting(Exec(s, JobSteps(B, 0, 1, k, LATE) + PromoteSteps(3, B) + [Run(3, ANY.(key := k))]), k)
  {
    hide Apply, JobSteps, PromoteSteps, JobDone, Promoting, Undercutting;
    JobState(s, B, 0, k, LATE);
    var t := JobDone(s, B, 0, k, LATE);
    LateJob(s, k);
    LateResult(t, k);
    LateLinked(t, k);
    CanPromote(s, k);
    PromoterState(t, 3, B);
    ExecAppend(s, JobSteps(B, 0, 1, k, LATE), PromoteSteps(3, B));
    PublishResult(Promoting(t, 3, B), 3, B, k);
    ExecSnoc(s, JobSteps(B, 0, 1, k, LATE) + PromoteSteps(3, B), Run(3, ANY.(key := k)));
  }

  lemma CanPromote(s: State, k: Key)
    requires StagedAlone(s, k)
    ensures var t := JobDone(s, B, 0, k, LATE);
            3 !in t.procs && B !in t.locks && B !in t.discard && B !in t.meta && B !in t.w.present
            && B in t.green && t.green[B] < |t.w.layers|
  {
  }

  /** The step puts an older file where a newer one was published. */
  ghost predicate Ages(s: State, step: Step, k: Key) {
    var s' := Apply(s, step);
    && k in s.shared && s.shared[k] < |s'.w.inodes| && k in s'.shared && s'.shared[k] < |s'.w.inodes|
    && MtimeAt(s'.w, s'.shared[k]) < MtimeAt(s'.w, s.shared[k])
  }

  lemma ManifestAges(k: Key)
    requires ValidKey(k)
    ensures Ages(Exec(Init(), Undercut(k)), Run(2, ANY), k)
  {
    hide Apply, JobSteps, PromoteSteps;
    var a := [SupStart(0)] + JobSteps(A, 0, 0, k, MANIFEST) + PromoteSteps(2, A) + [Run(2, ANY.(key := k))];
    var b := JobSteps(B, 0, 1, k, LATE) + PromoteSteps(3, B) + [Run(3, ANY.(key := k))];
    FirstStages(k);
    SecondUndercuts(Exec(Init(), a), k);
    ExecAppend(Init(), a, b);
    assert Undercut(k) == a + b;
    UndercutReplaces(Exec(Init(), Undercut(k)), k);
  }

  lemma UndercutReplaces(s: State, k: Key)
    requires Undercutting(s, k)
    ensures Ages(s, Run(2, ANY), k)
  {
    Operation(s, 2, ANY, Op(LinkEntry(A, k, None), Some(ProcPromote(A, {}))));
    hide Apply;
    assert Apply(s, Run(2, ANY)).w == s.w;
  }

  lemma UndercutPuts(k: Key)
    ensures RunPutsIn(Undercut(k), iset{k}) && RunDotFree(Undercut(k))
  {
    JobPuts(A, 0, k, MANIFEST);
    JobPuts(B, 1, k, LATE);
    PromotePuts(2, A, k);
    PromotePuts(3, B, k);
    var keys := iset{k};
    var a0, a1, a2 := [SupStart(0)], JobSteps(A, 0, 0, k, MANIFEST), [Run(2, ANY.(key := k))];
    AppendPuts(a0, a1, keys);
    AppendPuts(a0 + a1, PromoteSteps(2, A), keys);
    AppendPuts(a0 + a1 + PromoteSteps(2, A), a2, keys);
    var a := a0 + a1 + PromoteSteps(2, A) + a2;
    AppendPuts(a, JobSteps(B, 0, 1, k, LATE), keys);
    AppendPuts(a + JobSteps(B, 0, 1, k, LATE), PromoteSteps(3, B), keys);
    AppendPuts(a + JobSteps(B, 0, 1, k, LATE) + PromoteSteps(3, B), [Run(3, ANY.(key := k))], keys);
  }

  /** In every state of the run, results lie only at these keys. */
  ghost predicate ResultsIn(steps: seq<Step>, keys: iset<Key>) { forall j | 0 <= j <= |steps| :: ResultsOnlyAt(At(steps, j), keys) }

  ghost predicate ResultsOnlyAt(s: State, keys: iset<Key>) {
    forall n, k :: Candidate(s, n, k) && KindAt(s.w, Source(s, n, k)) != ManifestEntry ==> k in keys
  }

  lemma RunResultsTo(steps: seq<Step>, k: Key, keys: iset<Key>)
    requires RunPutsIn(steps, iset{k}) && k in keys
    ensures ResultsIn(steps, keys)
  {
    hide ResultsOnlyAt, KeysIn;
    forall j | 0 <= j <= |steps| ensures ResultsOnlyAt(At(steps, j), keys) {
      RunKeys(steps[..j], iset{k});
      ResultsBound(At(steps, j), iset{k}, keys);
    }
  }

  lemma ResultsBound(s: State, keys: iset<Key>, more: iset<Key>)
    requires KeysIn(s.w, keys) && keys <= more
    ensures ResultsOnlyAt(s, more)
  {
  }

  lemma NeverAges(steps: seq<Step>, step: Step, k: Key, resultKeys: iset<Key>)
    requires RunDotFree(steps) && StepDotFree(step) && ResultsIn(steps, resultKeys) && k !in resultKeys
    ensures !Ages(Exec(Init(), steps), step, k)
  {
    hide Apply, Inv, ManifestInv;
    var n := |steps|;
    assert steps[..n] == steps;
    forall j | 0 <= j <= n ensures OnlyManifests(At(steps, j), iset{k}) { assert ResultsOnlyAt(At(steps, j), resultKeys); }
    RunManifests(steps, n, iset{k});
    if k in At(steps, n).shared && k in Apply(At(steps, n), step).shared { EntryStep(At(steps, n), step, k, iset{k}); }
  }

  /** Times never fall at `k`, in all runs in which results lie only at `resultKeys`, exactly when `k` is not one of them. */
  lemma TimesAreSafeExactly(k: Key, resultKeys: iset<Key>)
    requires ValidKey(k)
    ensures k !in resultKeys <==>
      forall steps, step :: RunDotFree(steps) && StepDotFree(step) && ResultsIn(steps, resultKeys) ==> !Ages(Exec(Init(), steps), step, k)
  {
    hide RunDotFree, ResultsIn, Ages, Exec, Undercut;
    if k in resultKeys {
      ManifestAges(k);
      UndercutPuts(k);
      RunResultsTo(Undercut(k), k, resultKeys);
      assert StepDotFree(Run(2, ANY));
    } else {
      forall steps, step | RunDotFree(steps) && StepDotFree(step) && ResultsIn(steps, resultKeys) ensures !Ages(Exec(Init(), steps), step, k) {
        NeverAges(steps, step, k, resultKeys);
      }
    }
  }
}
