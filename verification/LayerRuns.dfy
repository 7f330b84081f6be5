/**
 The job-layer protocol over whole runs: where every entry of shared/ comes from, in
 which order, and that it can never change again.
 */
module LayerRuns {
  import opened Basics
  import opened LayerProtocol
  import opened LayerFrames
  import opened LayerProvenance

  predicate RunDotFree(steps: seq<Step>) {
    forall j | 0 <= j < |steps| :: StepDotFree(steps[j])
  }

  // ------------------------------------------------------------- every step

  predicate GuestStep(step: Step) {
    || step.VmBoot? || step.VmGone? || step.GuestOpen? || step.GuestMkdir?
    || step.GuestPut? || step.GuestWrite? || step.GuestUnlink?
  }

  lemma VmStepKeeps(s: State, step: Step)
    requires WorldOk(s.w) && StepDotFree(step)
    requires step.VmBoot? || step.VmGone? || step.GuestOpen? || step.GuestMkdir?
    ensures WorldOk(Apply(s, step).w) && Evolves(s.w, Apply(s, step).w)
  {
    SameEvolves(s.w);
    assert forall v :: v in s.w.present ==> DotFree(v);
    hide Evolves, WorldOk, Boot, Open, NewLayer;
    match step
    case VmBoot(v) => BootKeeps(s.w, v);
    case VmGone(v) => GoneKeeps(s.w, v);
    case GuestOpen(v) => OpenKeeps(s.w, v);
    case GuestMkdir(v) => if v in s.w.present { NewLayerKeeps(s.w, v, None, {s.w.present[v]}); }
  }

  lemma GuestKeeps(s: State, step: Step)
    requires WorldOk(s.w) && StepDotFree(step) && GuestStep(step)
    ensures WorldOk(Apply(s, step).w) && Evolves(s.w, Apply(s, step).w)
  {
    hide Evolves, WorldOk, Boot, Open, NewLayer, Put, Write, RemoveEntry;
    SameEvolves(s.w);
    match step
    case GuestPut(v, l, k, file) => PutKeeps(s.w, v, l, k, file);
    case GuestWrite(v, i, file) => WriteKeeps(s.w, v, i, file);
    case GuestUnlink(v, l, k) => RemoveEntryKeeps(s.w, l, k);
    case _ => VmStepKeeps(s, step);
  }

  lemma SideKeeps(s: State, s': State)
    requires Inv(s) && WorldOk(s'.w) && Evolves(s.w, s'.w)
    requires s'.green == s.green && s'.meta == s.meta && s'.locks == s.locks && s'.procs == s.procs
    requires forall k :: k in s'.shared ==> k in s.shared && s'.shared[k] == s.shared[k]
    ensures Inv(s')
  {
    forall q | q in s'.procs ensures PcOk(s', q, s'.procs[q]) { assert PcOk(s, q, s.procs[q]); }
    forall k | k in s'.shared ensures Legit(s', k) { assert Legit(s, k); }
  }

  lemma SpawnKeeps(s: State, pr: ProcId, pc: Pc)
    requires Inv(s) && pr !in s.procs && Entry(pc) && (pc.AttachCheck? ==> DotFree(pc.v))
    ensures Inv(SpawnProc(s, pr, pc)) && SpawnProc(s, pr, pc).w == s.w
  {
    assert InvBut(s, pr);
    var s1 := if pc.AttachCheck? then s.(started := s.started + {pc.v}) else s;
    OtherChange(s, s1, pr);
    assert PcOk(s1, pr, pc);
    ContinueKeeps(s1, pr, Some(pc));
  }

  lemma SideOnlyKeeps(s: State, s': State)
    requires Inv(s) && s'.w == s.w
    requires s'.green == s.green && s'.meta == s.meta && s'.locks == s.locks && s'.procs == s.procs
    requires forall k :: k in s'.shared ==> k in s.shared && s'.shared[k] == s.shared[k]
    ensures Inv(s')
  {
    InvHasWorld(s);
    SameEvolves(s.w);
    SideKeeps(s, s');
  }

  lemma HostKeeps(s: State, step: Step)
    requires Inv(s) && (step.SupStart? || step.SupDie? || step.TrimUnlink? || step.Crash?)
    ensures Inv(Apply(s, step)) && Apply(s, step).w == s.w
  {
    hide Inv, InvBut, Evolves, Decide, Perform, Continue, SpawnProc, Boot, Open, Put, Write, RemoveEntry, Reaches, Mkdir;
    if step.Crash? {
      CrashIs(s, step.pr);
      hide Apply;
      if step.pr in s.procs {
        InvSplit(s, step.pr);
        ContinueKeeps(s, step.pr, None);
        ContinueFrame(s, step.pr);
      }
    } else {
      QuietSide(s, step);
      hide Apply;
      SideOnlyKeeps(s, Apply(s, step));
    }
  }

  lemma CrashIs(s: State, pr: ProcId)
    ensures Apply(s, Crash(pr)) == if pr in s.procs then Continue(s, pr, None) else s
  {
  }

  lemma QuietSide(s: State, step: Step)
    requires step.SupStart? || step.SupDie? || step.TrimUnlink?
    ensures var s' := Apply(s, step);
            && s'.w == s.w && s'.green == s.green && s'.meta == s.meta && s'.locks == s.locks && s'.procs == s.procs
            && forall k :: k in s'.shared ==> k in s.shared && s'.shared[k] == s.shared[k]
  {
    hide Decide, Perform, Continue, SpawnProc, Boot, Open, Put, Write, RemoveEntry, Reaches, Mkdir;
    var s' := Apply(s, step);
    if step.SupStart? { assert s' == s || s' == s.(alive := s'.alive, born := s'.born); }
    else if step.SupDie? { assert s' == s.(alive := s'.alive); }
    else { assert s' == s.(shared := s.shared - {step.k}); }
    hide Apply;
  }

  lemma ContinueFrame(s: State, pr: ProcId)
    ensures Continue(s, pr, None).w == s.w && Continue(s, pr, None).shared == s.shared
  {
  }

  lemma SpawnSpares(s: State, pr: ProcId, pc: Pc)
    ensures SpawnProc(s, pr, pc).w == s.w && SpawnProc(s, pr, pc).shared == s.shared
  {
  }

  /** Any single step: the invariant holds on, and nothing final is rewritten. */
  lemma StepKeeps(s: State, step: Step)
    requires Inv(s) && StepDotFree(step)
    ensures Inv(Apply(s, step)) && Evolves(s.w, Apply(s, step).w)
  {
    hide Inv, WorldOk, Evolves, Decide, Perform, SpawnProc, Continue, Mkdir, RemoveEntry;
    SameEvolves(s.w);
    if step.Run? { if step.pr in s.procs { OperationKeeps(s, step.pr, step.ch); } }
    else if step.Spawn? { SpawnStepKeeps(s, step.pr, step.pc); }
    else if GuestStep(step) {
      InvHasWorld(s);
      GuestKeeps(s, step);
      GuestFrame(s, step);
      SideKeeps(s, Apply(s, step));
    }
    else { HostKeeps(s, step); }
  }

  lemma GuestFrame(s: State, step: Step)
    requires GuestStep(step)
    ensures Apply(s, step) == s.(w := Apply(s, step).w)
  {
    hide Boot, Open, NewLayer, Put, Write, RemoveEntry;
    match step
    case VmBoot(_) =>
    case VmGone(_) =>
    case GuestOpen(_) =>
    case GuestMkdir(_) =>
    case GuestPut(_, _, _, _) =>
    case GuestWrite(_, _, _) =>
    case GuestUnlink(_, _, _) =>
  }

  lemma SpawnStepKeeps(s: State, pr: ProcId, pc: Pc)
    requires Inv(s) && StepDotFree(Spawn(pr, pc))
    ensures Inv(SpawnProc(s, pr, pc)) && SpawnProc(s, pr, pc).w == s.w
  {
    hide Inv;
    if pr !in s.procs && Entry(pc) { SpawnKeeps(s, pr, pc); }
  }

  lemma InvHasWorld(s: State)
    requires Inv(s)
    ensures WorldOk(s.w) && InodesOk(s.w)
  {
  }

  lemma EvolvesTransitive(w: World, w1: World, w2: World)
    requires InodesOk(w) && Evolves(w, w1) && Evolves(w1, w2)
    ensures Evolves(w, w2)
  {
  }

  /** Every run from a good state reaches a good state, and history is never rewritten. */
  lemma {:induction false} RunKeeps(s: State, steps: seq<Step>)
    requires Inv(s) && RunDotFree(steps)
    ensures Inv(Exec(s, steps)) && Evolves(s.w, Exec(s, steps).w)
  {
    hide Inv, Evolves, Apply;
    if steps == [] {
      SameEvolves(s.w);
    } else {
      var s1 := Exec(s, steps[..|steps| - 1]);
      RunKeeps(s, steps[..|steps| - 1]);
      StepKeeps(s1, steps[|steps| - 1]);
      InvHasWorld(s);
      EvolvesTransitive(s.w, s1.w, Exec(s, steps).w);
    }
  }

  lemma InitInv()
    ensures Inv(Init())
  {
  }

  /**
   The bytes behind an entry of shared/ never change again, whatever runs afterwards, although
   the entry is a hard link to a file a guest wrote: no VM that is present reaches that layer.
   */
  lemma PublishedIsImmutable(before: seq<Step>, after: seq<Step>, k: Key)
    requires RunDotFree(before) && RunDotFree(after)
    requires k in Exec(Init(), before).shared
    ensures var s := Exec(Init(), before);
            var s' := Exec(s, after);
            var i := s.shared[k];
            && i < |s.w.inodes| <= |s'.w.inodes| && s'.w.inodes[i] == s.w.inodes[i]
            && forall v :: !Reaches(s'.w, v, s.w.inodes[i].layer)
  {
    InitInv();
    RunKeeps(Init(), before);
    var s := Exec(Init(), before);
    RunKeeps(s, after);
    assert Legit(s, k);
  }

  // ------------------------------------------------ which step does what, exactly

  /** The process step about to run, if `step` is one. */
  predicate Runs(s: State, step: Step) { step.Run? && step.pr in s.procs }

  /** The step is a settle with a green verdict renaming layer `l` from jobs/ to green/. */
  ghost predicate SettlesGreen(s: State, step: Step, l: LayerId) {
    && Runs(s, step) && s.procs[step.pr].SettleMove? && s.procs[step.pr].green
    && s.procs[step.pr].v in s.w.jobs && s.w.jobs[s.procs[step.pr].v] == l
  }

  /** The step is a promoter seeing that the VM of green layer `l` is absent. */
  ghost predicate SeesGone(s: State, step: Step, l: LayerId) {
    && Runs(s, step) && s.procs[step.pr].ProcWait?
    && s.procs[step.pr].name in s.green && s.green[s.procs[step.pr].name] == l
    && IsGreen(s.w, l) && s.w.layers[l].vm !in s.w.present
  }

  /** The step is a promoter of green layer `l`, whose VM was seen absent, linking its entry at `k`. */
  ghost predicate Publishes(s: State, step: Step, l: LayerId, k: Key) {
    && Runs(s, step) && (s.procs[step.pr].ProcPromote? || s.procs[step.pr].ProcReplace?)
    && s.procs[step.pr].name in s.green && s.green[s.procs[step.pr].name] == l
    && IsSeen(s.w, l) && k in s.w.layers[l].entries
    && EntryOf(Apply(s, step), k, l)
  }

  /** Key `k` of shared/ names a file whose bytes come from layer `l`. */
  predicate EntryOf(s: State, k: Key, l: LayerId) {
    k in s.shared && s.shared[k] < |s.w.inodes| && s.w.inodes[s.shared[k]].layer == l
  }

  predicate IsGreen(w: World, l: LayerId) { l < |w.layers| && w.layers[l].verdict == Green }

  predicate IsSeen(w: World, l: LayerId) { l < |w.layers| && w.layers[l].goneSeen }

  predicate SameEntry(s: State, s': State, k: Key) { k in s.shared && k in s'.shared && s'.shared[k] == s.shared[k] }

  lemma TakeVerdicts(w: World, v: VmName, verdict: Verdict, l: LayerId)
    requires v in w.jobs && w.jobs[v] < |w.layers|
    ensures IsGreen(Take(w, v, verdict), l) ==> IsGreen(w, l) || (verdict == Green && w.jobs[v] == l)
    ensures IsSeen(Take(w, v, verdict), l) ==> IsSeen(w, l)
  {
  }

  /** Only the rename to green/ makes a layer green. */
  lemma GreenEffect(s: State, pr: ProcId, e: Effect, l: LayerId)
    requires IsGreen(Perform(s, pr, e).w, l) && !IsGreen(s.w, l) && !(e.ToDiscard? && e.verdict == Green)
    ensures e.ToGreen? && e.v in s.w.jobs && s.w.jobs[e.v] == l
  {
    if e.ToDiscard? {
      if CanMove(s, e.v, s.discard, e.target) { TakeVerdicts(s.w, e.v, e.verdict, l); }
    } else if e.ToGreen? {
      if CanMove(s, e.v, s.green, e.target) { TakeVerdicts(s.w, e.v, Green, l); }
    } else if ChangesWorld(e) {
      OthersMarkNothing(s, pr, e, l);
    } else {
      Frame(s, pr, e);
    }
  }

  /** Making, linking and dropping mark no layer; a promoter's note marks its own. */
  lemma OthersMarkNothing(s: State, pr: ProcId, e: Effect, l: LayerId)
    requires e.MakeLayer? || e.NoteGone? || e.LinkEntry? || e.DropEntry?
    ensures IsGreen(Perform(s, pr, e).w, l) ==> IsGreen(s.w, l)
    ensures IsSeen(Perform(s, pr, e).w, l) ==> IsSeen(s.w, l) || (e.NoteGone? && e.name in s.green && s.green[e.name] == l)
  {
    if e.MakeLayer? {
      MadeMarks(s.w, e.v, e.p);
      hide Made;
    } else if e.LinkEntry? {
      LinkMarks(s, pr, e);
    } else if e.NoteGone? {
      NoteMarks(s, pr, e.name, l);
    } else {
      DropMarks(s, pr, e.name, e.key, l);
    }
  }

  lemma MadeMarks(w: World, v: VmName, p: Pid)
    ensures SameMarks(w, Made(w, v, p))
  {
    if v !in w.jobs { NewLayerMarks(w, v, Some(p), {}); }
  }

  lemma LinkMarks(s: State, pr: ProcId, e: Effect)
    requires e.LinkEntry?
    ensures Perform(s, pr, e).w.layers == s.w.layers
  {
    if Candidate(s, e.name, e.key) {
      assert Perform(s, pr, e) == Link(s, pr, e.key, Source(s, e.name, e.key), e.copyAt);
    }
  }

  lemma NoteMarks(s: State, pr: ProcId, n: string, l: LayerId)
    ensures IsGreen(Perform(s, pr, NoteGone(n)).w, l) ==> IsGreen(s.w, l)
    ensures IsSeen(Perform(s, pr, NoteGone(n)).w, l) ==> IsSeen(s.w, l) || (n in s.green && s.green[n] == l)
  {
  }

  lemma DropMarks(s: State, pr: ProcId, n: string, k: Key, l: LayerId)
    ensures IsGreen(Perform(s, pr, DropEntry(n, k)).w, l) ==> IsGreen(s.w, l)
    ensures IsSeen(Perform(s, pr, DropEntry(n, k)).w, l) ==> IsSeen(s.w, l)
  {
  }

  /** Only an absent VM marks a layer. */
  lemma SeenEffect(s: State, pr: ProcId, e: Effect, l: LayerId)
    requires IsSeen(Perform(s, pr, e).w, l) && !IsSeen(s.w, l)
    ensures e.NoteGone? && e.name in s.green && s.green[e.name] == l
  {
    if e.ToDiscard? {
      if CanMove(s, e.v, s.discard, e.target) { TakeVerdicts(s.w, e.v, e.verdict, l); }
    } else if e.ToGreen? {
      if CanMove(s, e.v, s.green, e.target) { TakeVerdicts(s.w, e.v, Green, l); }
    } else if ChangesWorld(e) {
      OthersMarkNothing(s, pr, e, l);
    } else {
      Frame(s, pr, e);
    }
  }

  lemma OnlyLinkShares(s: State, pr: ProcId, e: Effect)
    requires !e.LinkEntry? || !Candidate(s, e.name, e.key)
    ensures Perform(s, pr, e).shared == s.shared
  {
    match e
    case Nothing =>
    case ToDiscard(_, _, _) =>
    case ToGreen(_, _) =>
    case WriteOwner(_, _) =>
    case ClearOwner(_) =>
    case MakeLayer(_, _) =>
    case WriteMeta(_, _) =>
    case UnlinkMeta(_) =>
    case Lock(_) =>
    case DropDiscard(_) =>
    case NoteGone(_) =>
    case Evict(_, _) =>
    case LockManifests =>
    case LinkEntry(_, _, _) =>
    case DropEntry(_, _) =>
    case DropGreen(_) =>
  }

  lemma LinkShares(s: State, pr: ProcId, key: Key, i: Ino, copyAt: Option<int>, k: Key)
    requires i < |s.w.inodes|
    requires k in Link(s, pr, key, i, copyAt).shared && !SameEntry(s, Link(s, pr, key, i, copyAt), k)
    ensures key == k && EntryOf(Link(s, pr, key, i, copyAt), k, s.w.inodes[i].layer)
  {
  }

  /** Only a link from a promoted layer publishes. */
  lemma SharedEffect(s: State, pr: ProcId, e: Effect, k: Key)
    requires k in Perform(s, pr, e).shared && !SameEntry(s, Perform(s, pr, e), k)
    ensures e.LinkEntry? && e.key == k && Candidate(s, e.name, k)
    ensures EntryOf(Perform(s, pr, e), k, s.w.inodes[Source(s, e.name, k)].layer)
  {
    if e.LinkEntry? && Candidate(s, e.name, e.key) {
      hide Link;
      LinkShares(s, pr, e.key, Source(s, e.name, e.key), e.copyAt, k);
    } else {
      hide Perform;
      OnlyLinkShares(s, pr, e);
    }
  }

  /** Which program counter decides on which effect. */
  lemma DecideNames(s: State, pc: Pc, ch: Choice)
    ensures var e := Decide(s, pc, ch).effect;
            && (e.ToGreen? ==> pc.SettleMove? && pc.green && e.v == pc.v)
            && (e.ToDiscard? ==> e.verdict != Green)
            && (e.NoteGone? ==> pc.ProcWait? && e.name == pc.name && pc.vm !in s.w.present)
            && (e.LinkEntry? ==> (pc.ProcPromote? || pc.ProcReplace?) && e.name == pc.name)
  {
  }

  /** Guests decide nothing: verdicts and marks are the host's alone. */
  predicate SameMarks(w: World, w': World) {
    && |w.layers| <= |w'.layers|
    && (forall l | 0 <= l < |w.layers| ::
          w'.layers[l].verdict == w.layers[l].verdict && w'.layers[l].goneSeen == w.layers[l].goneSeen)
    && (forall l | |w.layers| <= l < |w'.layers| :: w'.layers[l].verdict == Pending && !w'.layers[l].goneSeen)
  }

  lemma VmMarks(s: State, v: VmName)
    ensures SameMarks(s.w, Boot(s.w, v)) && SameMarks(s.w, Open(s.w, v))
  {
  }

  lemma NewLayerMarks(w: World, v: VmName, owner: Option<Pid>, access: set<Inst>)
    ensures SameMarks(w, NewLayer(w, v, owner, access))
  {
    var w' := NewLayer(w, v, owner, access);
    assert w'.layers[|w.layers|] == Layer(v, owner, Pending, map[], access, false);
  }

  lemma MkdirMarks(s: State, v: VmName)
    ensures SameMarks(s.w, Mkdir(s, v).w)
  {
    hide NewLayer;
    if v in s.w.present { NewLayerMarks(s.w, v, None, {s.w.present[v]}); }
  }

  lemma FileMarks(w: World, v: VmName, l: LayerId, i: Ino, k: Key, file: File)
    ensures SameMarks(w, Put(w, v, l, k, file)) && SameMarks(w, Write(w, v, i, file)) && SameMarks(w, RemoveEntry(w, l, k))
  {
  }

  lemma GuestNever(s: State, step: Step)
    requires GuestStep(step)
    ensures SameMarks(s.w, Apply(s, step).w)
  {
    hide Decide, Perform, Continue, SpawnProc, Boot, Open, Put, Write, RemoveEntry, Mkdir, StartSupervisor;
    match step
    case VmBoot(v) => VmMarks(s, v);
    case VmGone(_) =>
    case GuestOpen(v) => VmMarks(s, v);
    case GuestMkdir(v) => MkdirMarks(s, v);
    case GuestPut(v, l, k, file) => FileMarks(s.w, v, l, 0, k, file);
    case GuestWrite(v, i, file) => FileMarks(s.w, v, 0, i, Key("", ""), file);
    case GuestUnlink(v, l, k) => FileMarks(s.w, v, l, 0, k, File(NotAnEntry, 0, ""));
  }

  lemma HostFrame(s: State, pr: ProcId, pc: Pc, p: Pid)
    ensures SpawnProc(s, pr, pc).w == s.w && SpawnProc(s, pr, pc).shared == s.shared
    ensures Continue(s, pr, None).w == s.w && Continue(s, pr, None).shared == s.shared
    ensures StartSupervisor(s, p).w == s.w && StartSupervisor(s, p).shared == s.shared
  {
    SpawnSpares(s, pr, pc);
    ContinueFrame(s, pr);
    hide SpawnProc, Continue;
  }

  lemma NoProcessNoChange(s: State, step: Step)
    requires !Runs(s, step) && !GuestStep(step)
    ensures Apply(s, step).w == s.w
    ensures step.TrimUnlink? || Apply(s, step).shared == s.shared
  {
    hide Decide, Perform, Boot, Open, Put, Write, RemoveEntry, Mkdir, Reaches, SpawnProc, Continue, StartSupervisor;
    match step
    case SupStart(p) => HostFrame(s, 0, SweepList, p);
    case Spawn(pr, pc) => HostFrame(s, pr, pc, 0);
    case Crash(pr) => HostFrame(s, pr, SweepList, 0);
    case _ =>
  }

  lemma GreenBySettle(s: State, step: Step, l: LayerId)
    requires IsGreen(Apply(s, step).w, l) && !IsGreen(s.w, l)
    ensures SettlesGreen(s, step, l)
  {
    hide Perform, Decide;
    if Runs(s, step) {
      var e := Decide(s, s.procs[step.pr], step.ch).effect;
      DecideNames(s, s.procs[step.pr], step.ch);
      GreenEffect(s, step.pr, e, l);
    } else {
      if GuestStep(step) { GuestNever(s, step); } else { NoProcessNoChange(s, step); }
    }
  }

  lemma SeenByAbsence(s: State, step: Step, l: LayerId)
    requires Inv(s) && IsSeen(Apply(s, step).w, l) && !IsSeen(s.w, l)
    ensures SeesGone(s, step, l)
  {
    hide Perform, Decide, Inv;
    if Runs(s, step) {
      var pc := s.procs[step.pr];
      var e := Decide(s, pc, step.ch).effect;
      DecideNames(s, pc, step.ch);
      SeenEffect(s, step.pr, e, l);
      InvSplit(s, step.pr);
    } else {
      if GuestStep(step) { GuestNever(s, step); } else { NoProcessNoChange(s, step); }
    }
  }

  lemma NoProcessNoLink(s: State, step: Step, k: Key)
    requires !Runs(s, step) && k in Apply(s, step).shared
    ensures SameEntry(s, Apply(s, step), k)
  {
    hide Decide, Perform, Continue, Mkdir;
    if GuestStep(step) { GuestFrame(s, step); } else { NoProcessNoChange(s, step); }
  }

  lemma SharedByPublication(s: State, step: Step, k: Key)
    requires Inv(s) && k in Apply(s, step).shared && !SameEntry(s, Apply(s, step), k)
    ensures var s' := Apply(s, step);
            s'.shared[k] < |s'.w.inodes| && Publishes(s, step, s'.w.inodes[s'.shared[k]].layer, k)
  {
    hide Perform, Decide, Inv, Candidate, Apply;
    if Runs(s, step) {
      var pc := s.procs[step.pr];
      var e := Decide(s, pc, step.ch).effect;
      DecideNames(s, pc, step.ch);
      RunShares(s, step);
      SharedEffect(s, step.pr, e, k);
      PublisherHolds(s, step.pr, pc.name, k);
    } else {
      NoProcessNoLink(s, step, k);
    }
  }

  lemma RunShares(s: State, step: Step)
    requires Runs(s, step)
    ensures var s1 := Perform(s, step.pr, Decide(s, s.procs[step.pr], step.ch).effect);
            Apply(s, step).shared == s1.shared && Apply(s, step).w == s1.w
  {
    hide Decide, Perform, Boot, Open, Put, Write, RemoveEntry, Mkdir, Reaches, SpawnProc, StartSupervisor;
  }

  /** A promoter about to link an entry stands before a green layer whose VM was seen gone. */
  lemma PublisherHolds(s: State, pr: ProcId, n: string, k: Key)
    requires Inv(s) && pr in s.procs && (s.procs[pr].ProcPromote? || s.procs[pr].ProcReplace?) && s.procs[pr].name == n && Candidate(s, n, k)
    ensures n in s.green && IsSeen(s.w, s.green[n]) && k in s.w.layers[s.green[n]].entries
    ensures s.w.inodes[Source(s, n, k)].layer == s.green[n]
  {
    InvSplit(s, pr);
    assert EntriesOk(s.w);
  }

  // --------------------------------------------------- the order of events in a run

  function At(steps: seq<Step>, j: nat): State
    requires j <= |steps|
  {
    Exec(Init(), steps[..j])
  }

  lemma AtNext(steps: seq<Step>, j: nat)
    requires j < |steps|
    ensures At(steps, j + 1) == Apply(At(steps, j), steps[j])
  {
    assert steps[..j + 1][..j] == steps[..j];
  }

  lemma AtKeeps(steps: seq<Step>, j: nat)
    requires RunDotFree(steps) && j <= |steps|
    ensures Inv(At(steps, j))
  {
    InitInv();
    RunKeeps(Init(), steps[..j]);
  }

  lemma {:induction false} GreenEarlier(steps: seq<Step>, l: LayerId, j: nat) returns (a: nat)
    requires j <= |steps| && IsGreen(At(steps, j).w, l)
    ensures a < j && SettlesGreen(At(steps, a), steps[a], l)
  {
    hide Apply, SettlesGreen;
    if j == 0 {
      assert false;
    } else {
      AtNext(steps, j - 1);
      if IsGreen(At(steps, j - 1).w, l) {
        a := GreenEarlier(steps, l, j - 1);
      } else {
        GreenBySettle(At(steps, j - 1), steps[j - 1], l);
        a := j - 1;
      }
    }
  }

  lemma {:induction false} SeenEarlier(steps: seq<Step>, l: LayerId, j: nat) returns (b: nat)
    requires RunDotFree(steps) && j <= |steps| && IsSeen(At(steps, j).w, l)
    ensures b < j && SeesGone(At(steps, b), steps[b], l)
  {
    hide Apply, SeesGone, Inv;
    if j == 0 {
      assert false;
    } else {
      AtNext(steps, j - 1);
      if IsSeen(At(steps, j - 1).w, l) {
        b := SeenEarlier(steps, l, j - 1);
      } else {
        AtKeeps(steps, j - 1);
        SeenByAbsence(At(steps, j - 1), steps[j - 1], l);
        b := j - 1;
      }
    }
  }

  lemma EntryStays(s: State, step: Step, k: Key, l: LayerId)
    requires Inv(s) && StepDotFree(step) && EntryOf(s, k, l) && SameEntry(s, Apply(s, step), k)
    ensures EntryOf(Apply(s, step), k, l)
  {
    StepKeeps(s, step);
    hide Apply, Inv;
    assert InodesEvolve(s.w, Apply(s, step).w);
  }

  /** The last step that changed shared/`k` published the file it names now. */
  lemma {:induction false} PublishedEarlier(steps: seq<Step>, k: Key, j: nat) returns (l: LayerId, c: nat)
    requires RunDotFree(steps) && j <= |steps| && k in At(steps, j).shared
    ensures EntryOf(At(steps, j), k, l)
    ensures c < j && Publishes(At(steps, c), steps[c], l, k)
  {
    hide Apply, Inv;
    if j == 0 {
      assert false;
    } else {
      var s, step := At(steps, j - 1), steps[j - 1];
      AtNext(steps, j - 1);
      AtKeeps(steps, j - 1);
      if SameEntry(s, Apply(s, step), k) {
        l, c := PublishedEarlier(steps, k, j - 1);
        EntryStays(s, step, k, l);
      } else {
        SharedByPublication(s, step, k);
        l := At(steps, j).w.inodes[At(steps, j).shared[k]].layer;
        c := j - 1;
      }
    }
  }

  /**
   Every entry of shared/, in every reachable state of every run: it came from a layer `l` that a
   settle renamed to green/ on a green verdict (step a); later a promoter saw that the layer's VM was
   absent (step b); only then was the entry linked (step c). So no entry of a red, orphaned, stale or
   unsettled layer, nor of one whose VM was never seen gone, is ever in shared/.
   */
  lemma EveryEntryIsEarned(steps: seq<Step>, k: Key) returns (l: LayerId, a: nat, b: nat, c: nat)
    requires RunDotFree(steps) && k in Exec(Init(), steps).shared
    ensures EntryOf(Exec(Init(), steps), k, l)
    ensures a < b < c < |steps|
    ensures SettlesGreen(At(steps, a), steps[a], l)
    ensures SeesGone(At(steps, b), steps[b], l)
    ensures Publishes(At(steps, c), steps[c], l, k)
  {
    assert steps[..|steps|] == steps;
    hide Apply;
    l, c := PublishedEarlier(steps, k, |steps|);
    b := SeenEarlier(steps, l, c);
    a := GreenEarlier(steps, l, b);
  }
}
