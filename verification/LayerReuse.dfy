/**
 Sweep against attach and settle when VM names are reused. What has to be kept apart is an attach in
 progress and five things other processes may be doing with its name; then a sweep never moves a
 layer whose supervisor is alive, and each of the five is needed.
 */
module LayerReuse {
  import opened Basics
  import opened LayerProtocol
  import opened LayerFrames
  import Sweep = LayerSweep

  /** What a process does that an attach of the same name must not meet. */
  datatype Clash = Attaching | Testing | Holding | SweepUnlinking | SettleUnlinking

  datatype Claim = Claim(clash: Clash, v: VmName)

  /** A sweep tests a name from reading its owner file, and holds it from finding the owner gone until its rename. */
  function ClaimOf(pc: Pc): Option<Claim> {
    match pc
    case AttachCheck(v, _) => Some(Claim(Attaching, v))
    case AttachTarget(v, _) => Some(Claim(Attaching, v))
    case AttachStale(v, _, _) => Some(Claim(Attaching, v))
    case AttachOwner(v, _) => Some(Claim(Attaching, v))
    case AttachWrite(v, _) => Some(Claim(Attaching, v))
    case AttachMkdir(v, _) => Some(Claim(Attaching, v))
    case SettleOwner(v, _, _) => Some(Claim(SettleUnlinking, v))
    case SweepTest(v, _, _) => Some(Claim(Testing, v))
    case SweepDead(v, _) => Some(Claim(Holding, v))
    case SweepMove(v, _, _) => Some(Claim(Holding, v))
    case SweepOwner(v, _) => Some(Claim(SweepUnlinking, v))
    case _ => None
  }

  /** Whatever meets an attach in progress is of an allowed kind. */
  ghost predicate Meets(procs: map<ProcId, Pc>, allowed: Clash -> bool) {
    forall pr, q | pr in procs && q in procs && pr != q && Sweep.AttachPc(procs[pr]) ::
      Apart(procs[pr].v, procs[q], allowed)
  }

  predicate Apart(v: VmName, pc: Pc, allowed: Clash -> bool) {
    ClaimOf(pc).Some? && ClaimOf(pc).value.v == v ==> allowed(ClaimOf(pc).value.clash)
  }

  function Nothing(): Clash -> bool { (c: Clash) => false }

  // ------------------------------------------------------------------------- the invariant

  predicate Gone(s: State, v: VmName) { Sweep.OwnerOf(s.w, v).None? }

  predicate DeadOrGone(s: State, v: VmName) {
    Gone(s, v) || (Sweep.OwnerOf(s.w, v).value in s.born && Sweep.OwnerOf(s.w, v).value !in s.alive)
  }

  /** The names in jobs/ are of different layers. */
  ghost predicate JobsApart(w: World) {
    && (forall v :: v in w.jobs ==> w.jobs[v] < |w.layers|)
    && forall v, u :: v in w.jobs && u in w.jobs && w.jobs[v] == w.jobs[u] ==> v == u
  }

  /** An owned layer has its owner on record. */
  ghost predicate OwnersMatch(s: State) {
    && s.alive <= s.born && JobsApart(s.w)
    && forall v :: Sweep.OwnerOf(s.w, v).Some? ==>
         v in s.owners && s.owners[v] == Sweep.OwnerOf(s.w, v).value && s.owners[v] in s.born
  }

  /** What a process may rely on between two of its operations. */
  predicate Relies(s: State, pc: Pc) {
    match pc
    case AttachCheck(_, p) => p in s.born
    case AttachTarget(_, p) => p in s.born
    case AttachStale(_, p, _) => p in s.born
    case AttachOwner(v, p) => p in s.born && Gone(s, v)
    case AttachWrite(v, p) => p in s.born && Gone(s, v)
    case AttachMkdir(v, p) => p in s.born && Gone(s, v) && v in s.owners && s.owners[v] == p
    case SettleOwner(v, _, _) => Gone(s, v)
    case SweepTest(v, _, owner) => Gone(s, v) || owner == Sweep.OwnerOf(s.w, v)
    case SweepDead(v, _) => DeadOrGone(s, v)
    case SweepMove(v, _, _) => DeadOrGone(s, v)
    case SweepOwner(v, _) => Gone(s, v)
    case _ => true
  }

  ghost predicate Sound(s: State) { OwnersMatch(s) && forall q :: q in s.procs ==> Relies(s, s.procs[q]) }

  ghost predicate SoundBut(s: State, pr: ProcId) {
    OwnersMatch(s) && forall q :: q in s.procs && q != pr ==> Relies(s, s.procs[q])
  }

  /** A change that takes nothing from anybody: owners of layers stay or vanish, and the dead stay dead. */
  ghost predicate Mild(s: State, s': State) {
    && s.born <= s'.born && (forall p :: p in s.born && p in s'.alive ==> p in s.alive)
    && forall v :: Sweep.OwnerOf(s'.w, v) == Sweep.OwnerOf(s.w, v) || Sweep.OwnerOf(s'.w, v).None?
  }

  lemma StillRelies(s: State, s': State, pc: Pc)
    requires Mild(s, s') && Relies(s, pc)
    requires pc.AttachMkdir? ==> pc.v in s'.owners && s'.owners[pc.v] == s.owners[pc.v]
    ensures Relies(s', pc)
  {
  }

  lemma MildKeeps(s: State, s': State, pr: ProcId)
    requires SoundBut(s, pr) && Mild(s, s') && OwnersMatch(s') && s'.procs == s.procs
    requires forall q :: q in s.procs && q != pr && s.procs[q].AttachMkdir? ==>
      s.procs[q].v in s'.owners && s'.owners[s.procs[q].v] == s.owners[s.procs[q].v]
    ensures SoundBut(s', pr)
  {
    forall q | q in s'.procs && q != pr ensures Relies(s', s'.procs[q]) { StillRelies(s, s', s.procs[q]); }
  }

  // ------------------------------------------------------------------------- every effect

  /** What a process must know before an operation on the owners. */
  ghost predicate EffectFits(s: State, pr: ProcId, e: Effect) {
    match e
    case WriteOwner(v, p) => p in s.born && Gone(s, v) && Free(s, pr, v)
    case ClearOwner(v) => Gone(s, v) && forall q :: q in s.procs && q != pr && s.procs[q].AttachMkdir? ==> s.procs[q].v != v
    case MakeLayer(v, p) => Relies(s, AttachMkdir(v, p)) && Free(s, pr, v)
    case _ => true
  }

  /** No other process has a claim on the name. */
  ghost predicate Free(s: State, pr: ProcId, v: VmName) {
    forall q :: q in s.procs && q != pr && ClaimOf(s.procs[q]).Some? ==> ClaimOf(s.procs[q]).value.v != v
  }

  lemma RenameFits(s: State, pr: ProcId, e: Effect)
    requires SoundBut(s, pr) && (e.ToDiscard? || e.ToGreen?)
    ensures SoundBut(Perform(s, pr, e), pr)
  {
    var s' := Perform(s, pr, e);
    var verdict := if e.ToGreen? then Green else e.verdict;
    Frame(s, pr, e);
    Sweep.RenamedWorld(s, pr, e);
    hide Perform, Take;
    if s'.w != s.w {
      forall u ensures Sweep.OwnerOf(s'.w, u) == if u == e.v then None else Sweep.OwnerOf(s.w, u) {
        Sweep.TakeOwners(s.w, e.v, verdict, u);
      }
    }
    KeepsMkdir(s, pr);
    MildKeeps(s, s', pr);
  }

  lemma KeepsMkdir(s: State, pr: ProcId)
    requires SoundBut(s, pr)
    ensures forall q :: q in s.procs && q != pr && s.procs[q].AttachMkdir? ==> s.procs[q].v in s.owners
  {
    forall q | q in s.procs && q != pr && s.procs[q].AttachMkdir? ensures s.procs[q].v in s.owners { assert Relies(s, s.procs[q]); }
  }

  lemma OwnerFits(s: State, pr: ProcId, e: Effect)
    requires SoundBut(s, pr) && EffectFits(s, pr, e) && (e.WriteOwner? || e.ClearOwner?)
    ensures SoundBut(Perform(s, pr, e), pr)
  {
    var s' := Perform(s, pr, e);
    KeepsMkdir(s, pr);
    if e.WriteOwner? {
      forall q | q in s.procs && q != pr && s.procs[q].AttachMkdir? ensures s.procs[q].v != e.v { assert ClaimOf(s.procs[q]).Some?; }
    }
    MildKeeps(s, s', pr);
  }

  lemma MakeFits(s: State, pr: ProcId, v: VmName, p: Pid)
    requires SoundBut(s, pr) && EffectFits(s, pr, MakeLayer(v, p))
    ensures SoundBut(Perform(s, pr, MakeLayer(v, p)), pr)
  {
    var s' := Perform(s, pr, MakeLayer(v, p));
    assert s' == s.(w := Made(s.w, v, p), made := s.made + {v});
    MadeOwners(s.w, v, p);
    hide Made, JobsApart, Perform;
    forall q | q in s'.procs && q != pr ensures Relies(s', s'.procs[q]) { RelyElsewhere(s, s', s.procs[q], v); }
  }

  /** The made layer is the supervisor's, whether a guest had made its directory or not. */
  lemma MadeOwners(w: World, v: VmName, p: Pid)
    requires JobsApart(w) && Sweep.OwnerOf(w, v).None?
    ensures JobsApart(Made(w, v, p))
    ensures forall u :: Sweep.OwnerOf(Made(w, v, p), u) == if u == v then Some(p) else Sweep.OwnerOf(w, u)
  {
  }

  lemma RelyElsewhere(s: State, s': State, pc: Pc, v: VmName)
    requires Relies(s, pc) && (ClaimOf(pc).Some? ==> ClaimOf(pc).value.v != v)
    requires s'.alive == s.alive && s'.born == s.born && s'.owners == s.owners
    requires forall u | u != v :: Sweep.OwnerOf(s'.w, u) == Sweep.OwnerOf(s.w, u)
    ensures Relies(s', pc)
  {
  }

  lemma OtherFits(s: State, pr: ProcId, e: Effect)
    requires SoundBut(s, pr)
    requires !e.ToDiscard? && !e.ToGreen? && !e.WriteOwner? && !e.ClearOwner? && !e.MakeLayer?
    ensures SoundBut(Perform(s, pr, e), pr)
  {
    var s' := Perform(s, pr, e);
    Sweep.SameOwners(s, pr, e);
    hide Perform;
    KeepsMkdir(s, pr);
    MildKeeps(s, s', pr);
  }

  lemma EffectKeeps(s: State, pr: ProcId, e: Effect)
    requires SoundBut(s, pr) && EffectFits(s, pr, e)
    ensures SoundBut(Perform(s, pr, e), pr)
  {
    hide SoundBut, Perform;
    if e.ToDiscard? || e.ToGreen? { RenameFits(s, pr, e); }
    else if e.WriteOwner? || e.ClearOwner? { OwnerFits(s, pr, e); }
    else if e.MakeLayer? { MakeFits(s, pr, e.v, e.p); }
    else { OtherFits(s, pr, e); }
  }

  // ----------------------------------------------------------------------- every operation

  ghost predicate DecidesFit(s: State, pr: ProcId, op: Op) {
    && EffectFits(s, pr, op.effect)
    && (op.next.Some? ==> Relies(Perform(s, pr, op.effect), op.next.value))
  }

  lemma AttachIsFree(s: State, pr: ProcId)
    requires Meets(s.procs, Nothing()) && pr in s.procs && Sweep.AttachPc(s.procs[pr])
    ensures Free(s, pr, s.procs[pr].v)
  {
    forall q | q in s.procs && q != pr && ClaimOf(s.procs[q]).Some? ensures ClaimOf(s.procs[q]).value.v != s.procs[pr].v {
      assert Apart(s.procs[pr].v, s.procs[q], Nothing());
    }
  }

  /** Whoever unlinks an owner meets no attach of that name. */
  lemma UnlinkerIsAlone(s: State, pr: ProcId, v: VmName)
    requires Meets(s.procs, Nothing()) && pr in s.procs && ClaimOf(s.procs[pr]).Some? && ClaimOf(s.procs[pr]).value.v == v
    ensures forall q :: q in s.procs && q != pr && s.procs[q].AttachMkdir? ==> s.procs[q].v != v
  {
    forall q | q in s.procs && q != pr && s.procs[q].AttachMkdir? ensures s.procs[q].v != v {
      assert Apart(s.procs[q].v, s.procs[pr], Nothing());
    }
  }

  lemma RenamedIsGone(s: State, pr: ProcId, e: Effect)
    requires (e.ToDiscard? || e.ToGreen?) && CanMove(s, e.v, if e.ToGreen? then s.green else s.discard, e.target)
    ensures Gone(Perform(s, pr, e), e.v) && Perform(s, pr, e).born == s.born
  {
  }

  lemma AttachFits(s: State, pr: ProcId, ch: Choice)
    requires Sound(s) && Meets(s.procs, Nothing()) && pr in s.procs && Sweep.AttachPc(s.procs[pr])
    ensures DecidesFit(s, pr, DecideAttach(s, s.procs[pr], ch))
  {
    var pc := s.procs[pr];
    assert Relies(s, pc);
    AttachIsFree(s, pr);
    hide Free, Meets;
    match pc
    case AttachCheck(_, _) =>
    case AttachTarget(_, _) =>
    case AttachStale(v, _, target) =>
      if CanMove(s, v, s.discard, target) { RenamedIsGone(s, pr, ToDiscard(v, target, Stale)); }
    case AttachOwner(_, _) =>
    case AttachWrite(_, _) =>
    case AttachMkdir(_, _) =>
  }

  lemma SettleFits(s: State, pr: ProcId, ch: Choice)
    requires Sound(s) && Meets(s.procs, Nothing()) && pr in s.procs
    requires var pc := s.procs[pr]; pc.SettleCheck? || pc.SettleTarget? || pc.SettleMove? || pc.SettleOwner? || pc.SettleMeta?
    ensures DecidesFit(s, pr, DecideSettle(s, s.procs[pr], ch))
  {
    var pc := s.procs[pr];
    assert Relies(s, pc);
    if pc.SettleOwner? { UnlinkerIsAlone(s, pr, pc.v); }
    hide Meets, Sound;
    match pc
    case SettleCheck(_, _) =>
    case SettleTarget(_, _) =>
    case SettleMove(v, green, target) =>
      if CanMove(s, v, if green then s.green else s.discard, target) {
        RenamedIsGone(s, pr, if green then ToGreen(v, target) else ToDiscard(v, target, Red));
      }
    case SettleOwner(_, _, _) =>
    case SettleMeta(_, _) =>
  }

  lemma SweepFits(s: State, pr: ProcId, ch: Choice)
    requires Sound(s) && Meets(s.procs, Nothing()) && pr in s.procs
    requires var pc := s.procs[pr]; pc.SweepList? || pc.SweepLoop? || pc.SweepTest? || pc.SweepDead? || pc.SweepMove? || pc.SweepOwner?
    ensures DecidesFit(s, pr, DecideSweep(s, s.procs[pr], ch))
  {
    var pc := s.procs[pr];
    assert Relies(s, pc) && OwnersMatch(s);
    if pc.SweepOwner? { UnlinkerIsAlone(s, pr, pc.v); }
    hide Meets, Sound;
    match pc
    case SweepList =>
    case SweepLoop(_) => ReadFits(s, pr, pc, ch);
    case SweepTest(_, _, _) => ReadFits(s, pr, pc, ch);
    case SweepDead(_, _) => ReadFits(s, pr, pc, ch);
    case SweepMove(v, todo, target) =>
      if CanMove(s, v, s.discard, target) { RenamedIsGone(s, pr, ToDiscard(v, target, Orphaned)); }
    case SweepOwner(_, _) =>
  }

  /** What the sweep reads is the owner of the layer; if that one is dead, it stays dead. */
  lemma ReadFits(s: State, pr: ProcId, pc: Pc, ch: Choice)
    requires OwnersMatch(s) && Relies(s, pc) && (pc.SweepLoop? || pc.SweepTest? || pc.SweepDead?)
    ensures DecidesFit(s, pr, DecideSweep(s, pc, ch))
  {
    hide JobsApart, CanMove;
  }

  lemma ProcessFits(s: State, pr: ProcId, pc: Pc, ch: Choice)
    requires ClaimOf(pc).None? && !pc.SettleCheck? && !pc.SettleTarget? && !pc.SettleMove?
    requires !pc.SettleMeta? && !pc.SweepList? && !pc.SweepLoop?
    ensures DecidesFit(s, pr, DecideProcess(s, pc, ch))
  {
    hide Perform, Candidate;
  }

  lemma ContinueSound(s: State, pr: ProcId, next: Option<Pc>)
    requires SoundBut(s, pr) && (next.Some? ==> Relies(s, next.value))
    ensures Sound(Continue(s, pr, next))
  {
    var s' := Continue(s, pr, next);
    assert forall pc :: Relies(s', pc) == Relies(s, pc);
  }

  lemma RunSound(s: State, pr: ProcId, ch: Choice)
    requires Sound(s) && Meets(s.procs, Nothing()) && pr in s.procs
    ensures Sound(Apply(s, Run(pr, ch)))
  {
    var pc := s.procs[pr];
    var op := Decide(s, pc, ch);
    assert SoundBut(s, pr);
    hide Sound, SoundBut, Meets, Perform, DecideAttach, DecideSettle, DecideSweep, DecideProcess, EffectFits, Relies;
    if Sweep.AttachPc(pc) { AttachFits(s, pr, ch); }
    else if pc.SettleCheck? || pc.SettleTarget? || pc.SettleMove? || pc.SettleOwner? || pc.SettleMeta? { SettleFits(s, pr, ch); }
    else if pc.SweepList? || pc.SweepLoop? || pc.SweepTest? || pc.SweepDead? || pc.SweepMove? || pc.SweepOwner? { SweepFits(s, pr, ch); }
    else { ProcessFits(s, pr, pc, ch); }
    EffectKeeps(s, pr, op.effect);
    ContinueSound(Perform(s, pr, op.effect), pr, op.next);
  }

  // ------------------------------------------------------------------------------ every step

  lemma SpawnSound(s: State, pr: ProcId, pc: Pc)
    requires Sound(s)
    ensures Sound(SpawnProc(s, pr, pc))
  {
    var s' := SpawnProc(s, pr, pc);
    if s' != s {
      assert s'.w == s.w && s'.owners == s.owners && s'.alive == s.alive && s'.born == s.born && s'.procs == s.procs[pr := pc];
      assert forall x :: Relies(s', x) == Relies(s, x);
    }
  }

  lemma OutsideSound(s: State, step: Step)
    requires Sound(s) && !step.Run? && !step.Spawn? && !step.Crash?
    ensures Sound(Apply(s, step))
  {
    var s' := Apply(s, step);
    OutsideMild(s, step);
    hide Apply;
    forall q | q in s'.procs ensures Relies(s', s'.procs[q]) {
      assert Relies(s, s.procs[q]);
      StillRelies(s, s', s.procs[q]);
    }
  }

  lemma OutsideMild(s: State, step: Step)
    requires OwnersMatch(s) && !step.Run? && !step.Spawn? && !step.Crash?
    ensures var s' := Apply(s, step); Mild(s, s') && OwnersMatch(s') && s'.owners == s.owners && s'.procs == s.procs
  {
    hide Decide, Perform, Continue, SpawnProc, Boot, Open, Put, Write, RemoveEntry, Reaches, NewLayer, Mkdir;
    if step.GuestMkdir? {
      MkdirMild(s, step.v);
      assert Apply(s, step) == Mkdir(s, step.v);
    } else if step.SupStart? || step.SupDie? {
      SupervisorMild(s, step);
    } else {
      if !step.VmGone? && !step.TrimUnlink? { GuestMild(s, step); }
      SameMild(s, Apply(s, step));
    }
  }

  lemma SupervisorMild(s: State, step: Step)
    requires OwnersMatch(s) && (step.SupStart? || step.SupDie?)
    ensures var s' := Apply(s, step); Mild(s, s') && OwnersMatch(s') && s'.owners == s.owners && s'.procs == s.procs
  {
    var p := step.p;
    SupervisorStep(s, step);
    hide Apply, OwnersMatch, Mild;
    LifeMild(s, Apply(s, step), p);
  }

  lemma SupervisorStep(s: State, step: Step)
    requires step.SupStart? || step.SupDie?
    ensures var s' := Apply(s, step);
            || s' == s || s' == s.(alive := s.alive - {step.p})
            || (step.p !in s.born && s' == s.(alive := s.alive + {step.p}, born := s.born + {step.p}))
  {
    hide Decide, Perform, Continue, SpawnProc, Boot, Open, Put, Write, RemoveEntry, Reaches, NewLayer, Mkdir;
  }

  lemma LifeMild(s: State, s': State, p: Pid)
    requires OwnersMatch(s)
    requires || s' == s || s' == s.(alive := s.alive - {p})
             || (p !in s.born && s' == s.(alive := s.alive + {p}, born := s.born + {p}))
    ensures Mild(s, s') && OwnersMatch(s')
  {
  }

  lemma SameMild(s: State, s': State)
    requires OwnersMatch(s) && Sweep.SameOwned(s.w, s'.w)
    requires s'.owners == s.owners && s'.alive == s.alive && s'.born == s.born
    ensures Mild(s, s') && OwnersMatch(s')
  {
  }

  lemma MkdirMild(s: State, v: VmName)
    ensures var s' := Mkdir(s, v);
            && s'.owners == s.owners && s'.procs == s.procs && s'.alive == s.alive && s'.born == s.born
            && (forall u :: Sweep.OwnerOf(s'.w, u) == Sweep.OwnerOf(s.w, u))
            && (JobsApart(s.w) ==> JobsApart(s'.w))
  {
    var s' := Mkdir(s, v);
    if s' != s {
      var w' := NewLayer(s.w, v, None, {s.w.present[v]});
      assert s' == s.(w := w');
      forall u ensures Sweep.OwnerOf(w', u) == Sweep.OwnerOf(s.w, u) { Sweep.MkdirOwners(s.w, v, {s.w.present[v]}, u); }
    }
  }

  lemma GuestMild(s: State, step: Step)
    requires step.VmBoot? || step.GuestOpen? || step.GuestPut? || step.GuestWrite? || step.GuestUnlink?
    ensures Apply(s, step) == s.(w := Apply(s, step).w) && Sweep.SameOwned(s.w, Apply(s, step).w)
  {
    hide Decide, Perform, Continue, SpawnProc, Boot, Open, Put, Write, RemoveEntry, Mkdir, StartSupervisor;
    match step
    case VmBoot(v) => Sweep.GuestOwners(s.w, v, 0, 0, Key("", ""), Sweep.NoFile());
    case GuestOpen(v) => Sweep.GuestOwners(s.w, v, 0, 0, Key("", ""), Sweep.NoFile());
    case GuestPut(v, l, k, f) => Sweep.GuestOwners(s.w, v, l, 0, k, f);
    case GuestWrite(v, i, f) => Sweep.GuestOwners(s.w, v, 0, i, Key("", ""), f);
    case GuestUnlink(v, l, k) => Sweep.GuestOwners(s.w, v, l, 0, k, Sweep.NoFile());
  }

  lemma StepSound(s: State, step: Step)
    requires Sound(s) && Meets(s.procs, Nothing())
    ensures Sound(Apply(s, step))
  {
    hide Sound, Meets, Decide, Perform, Continue, SpawnProc, Boot, Open, Put, Write, RemoveEntry, Reaches, Mkdir, StartSupervisor;
    if step.Run? { if step.pr in s.procs { RunSound(s, step.pr, step.ch); } }
    else if step.Spawn? { SpawnSound(s, step.pr, step.pc); }
    else if step.Crash? { if step.pr in s.procs { CrashSound(s, step.pr); } }
    else { OutsideSound(s, step); }
  }

  lemma CrashSound(s: State, pr: ProcId)
    requires Sound(s)
    ensures Sound(Continue(s, pr, None))
  {
    hide Continue;
    assert SoundBut(s, pr);
    ContinueSound(s, pr, None);
  }

  // ------------------------------------------------------------------------------ every run

  /** In no state of the run does an attach in progress meet anything that is not allowed. */
  ghost predicate RunMeets(steps: seq<Step>, allowed: Clash -> bool) {
    forall j | 0 <= j <= |steps| :: Meets(Exec(Init(), steps[..j]).procs, allowed)
  }

  lemma {:induction false} RunIsSound(steps: seq<Step>)
    requires RunMeets(steps, Nothing())
    ensures Sound(Exec(Init(), steps))
  {
    hide Apply, Sound, Meets;
    if steps == [] {
      StartIsSound();
    } else {
      var n := |steps| - 1;
      assert RunMeets(steps[..n], Nothing()) by { assert forall j | 0 <= j <= n :: steps[..n][..j] == steps[..j]; }
      RunIsSound(steps[..n]);
      assert steps[..n][..n] == steps[..n];
      StepSound(Exec(Init(), steps[..n]), steps[n]);
    }
  }

  lemma StartIsSound()
    ensures Sound(Exec(Init(), []))
  {
  }

  /**
   With names reused at will: as long as no attach in progress meets another attach, a sweep testing
   or holding the name, or a sweep or settle about to unlink its owner, no sweep moves a living
   owner's layer.
   */
  lemma ApartIsEnough(steps: seq<Step>, step: Step)
    requires RunMeets(steps, Nothing())
    ensures !Sweep.SweepsLive(Exec(Init(), steps), step)
  {
    hide Exec, OwnersMatch, RunMeets;
    RunIsSound(steps);
    var s := Exec(Init(), steps);
    if step.Run? && step.pr in s.procs { assert Relies(s, s.procs[step.pr]); }
  }
}
