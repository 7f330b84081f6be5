/**
 Sweep against attach and settle, operation by operation: over fresh VM names a sweep never
 renames a layer whose supervisor is alive. The proof is the order of operations in the source:
 attach writes the owner before it makes the layer, settle unlinks the owner after the rename.
 */
module LayerSweep {
  import opened Basics
  import opened LayerProtocol
  import opened LayerFrames

  predicate AttachPc(pc: Pc) {
    pc.AttachCheck? || pc.AttachTarget? || pc.AttachStale? || pc.AttachOwner? || pc.AttachWrite? || pc.AttachMkdir?
  }

  /** A VM name is attached at most once. */
  predicate FreshStep(s: State, step: Step) {
    step.Spawn? && step.pc.AttachCheck? ==> step.pc.v !in s.started
  }

  /** The owner recorded in layer jobs/`v`, if there is such a layer and a supervisor made it. */
  function OwnerOf(w: World, v: VmName): Option<Pid> {
    if v in w.jobs && w.jobs[v] < |w.layers| then w.layers[w.jobs[v]].owner else None
  }

  /** The supervisor's layer of `v` was moved away; it never comes back. */
  predicate Retired(s: State, v: VmName) { v in s.made && OwnerOf(s.w, v).None? }

  /** The supervisor's layer of `v` is gone, or its supervisor is dead. */
  predicate Doomed(s: State, v: VmName) {
    v in s.made && (OwnerOf(s.w, v).None? || OwnerOf(s.w, v).value !in s.alive)
  }

  ghost predicate OwnersOk(s: State) {
    && s.alive <= s.born && s.made <= s.started
    && forall v :: v in s.w.jobs ==>
         && v in s.made && s.w.jobs[v] < |s.w.layers|
         && (OwnerOf(s.w, v).Some? ==>
               v in s.owners && s.owners[v] == OwnerOf(s.w, v).value && s.owners[v] in s.born)
  }

  predicate Starting(s: State, v: VmName, p: Pid) { v in s.started && v !in s.made && p in s.born }

  /** What a process knows between two of its operations. */
  predicate Knows(s: State, pc: Pc) {
    match pc
    case AttachCheck(v, p) => Starting(s, v, p)
    case AttachTarget(v, p) => Starting(s, v, p)
    case AttachStale(v, p, _) => Starting(s, v, p)
    case AttachOwner(v, p) => Starting(s, v, p)
    case AttachWrite(v, p) => Starting(s, v, p)
    case AttachMkdir(v, p) => Starting(s, v, p) && v in s.owners && s.owners[v] == p
    case SettleTarget(v, _) => v in s.made
    case SettleMove(v, _, _) => v in s.made
    case SettleOwner(v, _, _) => Retired(s, v)
    case SweepLoop(todo) => todo <= s.made
    case SweepTest(v, todo, owner) => todo <= s.made && v in s.made && (OwnerOf(s.w, v).None? || (owner == OwnerOf(s.w, v) && owner.value in s.born))
    case SweepDead(v, todo) => todo <= s.made && Doomed(s, v)
    case SweepMove(v, todo, _) => todo <= s.made && Doomed(s, v)
    case SweepOwner(v, todo) => todo <= s.made && Retired(s, v)
    case _ => true
  }

  /** No other attach works on the name of an attach in progress. */
  predicate Alone(s: State, pr: ProcId, pc: Pc) {
    AttachPc(pc) ==> forall q :: q in s.procs && q != pr && AttachPc(s.procs[q]) ==> s.procs[q].v != pc.v
  }

  ghost predicate SafeBut(s: State, pr: ProcId) {
    && OwnersOk(s)
    && (forall q :: q in s.procs && q != pr ==> Knows(s, s.procs[q]))
    && (forall q | q in s.procs && q != pr && AttachPc(s.procs[q]) ::
          forall r | r in s.procs && r != q && r != pr && AttachPc(s.procs[r]) :: s.procs[q].v != s.procs[r].v)
  }

  ghost predicate Safe(s: State) {
    && OwnersOk(s)
    && (forall q :: q in s.procs ==> Knows(s, s.procs[q]))
    && (forall q | q in s.procs && AttachPc(s.procs[q]) :: Alone(s, q, s.procs[q]))
  }

  lemma SafeSplit(s: State, pr: ProcId)
    requires Safe(s) && pr in s.procs
    ensures SafeBut(s, pr) && OwnersOk(s) && Knows(s, s.procs[pr]) && Alone(s, pr, s.procs[pr])
  {
  }

  lemma ContinueSafe(s: State, pr: ProcId, next: Option<Pc>)
    requires SafeBut(s, pr) && (next.Some? ==> Knows(s, next.value) && Alone(s, pr, next.value))
    ensures Safe(Continue(s, pr, next))
  {
    var s' := Continue(s, pr, next);
    assert forall pc :: Knows(s', pc) == Knows(s, pc);
  }

  /** Nothing another process relies on is lost, and no attach in progress is overtaken. */
  ghost predicate Calm(s: State, s': State) {
    && s'.procs == s.procs && s.made <= s'.made && s.started <= s'.started
    && s'.alive <= s'.born && s.born <= s'.born && (forall p :: p in s.born && p in s'.alive ==> p in s.alive)
    && (forall v :: v in s.made ==> OwnerOf(s'.w, v) == OwnerOf(s.w, v) || OwnerOf(s'.w, v).None?)
  }

  lemma OthersStillKnow(s: State, s': State, pc: Pc)
    requires OwnersOk(s) && Calm(s, s') && Knows(s, pc)
    requires AttachPc(pc) ==> pc.v !in s'.made
    requires pc.AttachMkdir? ==> pc.v in s'.owners && s'.owners[pc.v] == s.owners[pc.v]
    ensures Knows(s', pc)
  {
  }

  // ------------------------------------------------------------- every effect

  ghost predicate EffectSafe(s: State, pr: ProcId, e: Effect) {
    match e
    case WriteOwner(v, p) => v !in s.made && p in s.born && Alone(s, pr, AttachCheck(v, p))
    case ClearOwner(v) => OwnerOf(s.w, v).None? && (v in s.made || Alone(s, pr, AttachCheck(v, 0)))
    case MakeLayer(v, p) => Knows(s, AttachMkdir(v, p)) && Alone(s, pr, AttachCheck(v, p))
    case _ => true
  }

  /** Preservation for a calm change. */
  lemma CalmKeeps(s: State, s': State, pr: ProcId)
    requires SafeBut(s, pr) && Calm(s, s') && OwnersOk(s')
    requires forall q :: q in s.procs && q != pr && AttachPc(s.procs[q]) ==> s.procs[q].v !in s'.made
    requires forall q :: q in s.procs && q != pr && s.procs[q].AttachMkdir? ==>
      s.procs[q].v in s'.owners && s'.owners[s.procs[q].v] == s.owners[s.procs[q].v]
    ensures SafeBut(s', pr)
  {
    forall q | q in s'.procs && q != pr ensures Knows(s', s'.procs[q]) {
      OthersStillKnow(s, s', s.procs[q]);
    }
  }

  lemma TakeOwners(w: World, v: VmName, verdict: Verdict, u: VmName)
    requires v in w.jobs && w.jobs[v] < |w.layers|
    ensures OwnerOf(Take(w, v, verdict), u) == if u == v then None else OwnerOf(w, u)
    ensures |Take(w, v, verdict).layers| == |w.layers|
  {
  }

  lemma RenamedWorld(s: State, pr: ProcId, e: Effect)
    requires e.ToDiscard? || e.ToGreen?
    ensures var w', verdict := Perform(s, pr, e).w, if e.ToGreen? then Green else e.verdict;
            w' == s.w || (e.v in s.w.jobs && s.w.jobs[e.v] < |s.w.layers| && w' == Take(s.w, e.v, verdict))
  {
    hide Take;
  }

  lemma TakenOwners(s: State, s': State, v: VmName, verdict: Verdict)
    requires OwnersOk(s) && v in s.w.jobs && s'.w == Take(s.w, v, verdict)
    requires s'.owners == s.owners && s'.alive == s.alive && s'.born == s.born && s'.made == s.made && s'.started == s.started
    requires s'.procs == s.procs
    ensures OwnersOk(s') && Calm(s, s')
  {
    forall u ensures OwnerOf(s'.w, u) == if u == v then None else OwnerOf(s.w, u) {
      TakeOwners(s.w, v, verdict, u);
    }
  }

  lemma RenameSafe(s: State, pr: ProcId, e: Effect)
    requires SafeBut(s, pr) && (e.ToDiscard? || e.ToGreen?)
    ensures SafeBut(Perform(s, pr, e), pr)
  {
    var s' := Perform(s, pr, e);
    var verdict := if e.ToGreen? then Green else e.verdict;
    Frame(s, pr, e);
    RenamedWorld(s, pr, e);
    hide Perform, Take;
    if s'.w != s.w { TakenOwners(s, s', e.v, verdict); }
    forall q | q in s.procs && q != pr && AttachPc(s.procs[q]) ensures s.procs[q].v !in s'.made { assert Knows(s, s.procs[q]); }
    forall q | q in s.procs && q != pr && s.procs[q].AttachMkdir? ensures s.procs[q].v in s'.owners { assert Knows(s, s.procs[q]); }
    CalmKeeps(s, s', pr);
  }

  lemma OwnerSafe(s: State, pr: ProcId, e: Effect)
    requires SafeBut(s, pr) && EffectSafe(s, pr, e) && (e.WriteOwner? || e.ClearOwner?)
    ensures SafeBut(Perform(s, pr, e), pr)
  {
    var s' := Perform(s, pr, e);
    forall q | q in s.procs && q != pr && AttachPc(s.procs[q]) ensures s.procs[q].v != e.v {
      assert Knows(s, s.procs[q]);
    }
    CalmKeeps(s, s', pr);
  }

  lemma MakeSafe(s: State, pr: ProcId, v: VmName, p: Pid)
    requires SafeBut(s, pr) && EffectSafe(s, pr, MakeLayer(v, p))
    ensures SafeBut(Perform(s, pr, MakeLayer(v, p)), pr)
  {
    var s' := Perform(s, pr, MakeLayer(v, p));
    forall u ensures OwnerOf(s'.w, u) == if u == v then Some(p) else OwnerOf(s.w, u) {}
    forall q | q in s.procs && q != pr && AttachPc(s.procs[q]) ensures s.procs[q].v !in s'.made {
      assert Knows(s, s.procs[q]);
    }
    CalmKeeps(s, s', pr);
  }

  /** Every other effect leaves owners, jobs/ and the supervisors alone. */
  lemma OtherSafe(s: State, pr: ProcId, e: Effect)
    requires SafeBut(s, pr)
    requires !e.ToDiscard? && !e.ToGreen? && !e.WriteOwner? && !e.ClearOwner? && !e.MakeLayer?
    ensures SafeBut(Perform(s, pr, e), pr)
  {
    var s' := Perform(s, pr, e);
    SameOwners(s, pr, e);
    CalmKeeps(s, s', pr);
  }

  lemma SameOwners(s: State, pr: ProcId, e: Effect)
    requires !e.ToDiscard? && !e.ToGreen? && !e.WriteOwner? && !e.ClearOwner? && !e.MakeLayer?
    ensures var s' := Perform(s, pr, e);
            && s'.procs == s.procs && s'.owners == s.owners && s'.alive == s.alive && s'.born == s.born
            && s'.made == s.made && s'.started == s.started && s'.w.jobs == s.w.jobs
            && |s'.w.layers| == |s.w.layers|
            && forall u :: OwnerOf(s'.w, u) == OwnerOf(s.w, u)
  {
    Frame(s, pr, e);
    if ChangesWorld(e) { SameOwnersOfLayers(s, pr, e); }
  }

  lemma SameOwnersOfLayers(s: State, pr: ProcId, e: Effect)
    requires e.NoteGone? || e.LinkEntry? || e.DropEntry?
    ensures var w' := Perform(s, pr, e).w;
            w'.jobs == s.w.jobs && |w'.layers| == |s.w.layers| && forall u :: OwnerOf(w', u) == OwnerOf(s.w, u)
  {
    var w' := Perform(s, pr, e).w;
    if e.LinkEntry? {
      LinkedWorld(s, pr, e);
    } else {
      assert w' == s.w || (e.name in s.green && (w' == RemoveEntry(s.w, s.green[e.name], if e.DropEntry? then e.key else Key("", ""))
                           || (s.green[e.name] < |s.w.layers| && w' == SeenGone(s.w, s.green[e.name]))));
    }
  }

  lemma LinkedWorld(s: State, pr: ProcId, e: Effect)
    requires e.LinkEntry?
    ensures Perform(s, pr, e).w.jobs == s.w.jobs && Perform(s, pr, e).w.layers == s.w.layers
  {
    if Candidate(s, e.name, e.key) {
      assert Perform(s, pr, e) == Link(s, pr, e.key, Source(s, e.name, e.key), e.copyAt);
    }
  }

  // ---------------------------------------------------- every process, every step

  ghost predicate DecidesSafe(s: State, pr: ProcId, op: Op) {
    && EffectSafe(s, pr, op.effect)
    && (op.next.Some? ==>
          var s' := Perform(s, pr, op.effect); Knows(s', op.next.value) && Alone(s', pr, op.next.value))
  }

  lemma AttachDecides(s: State, pr: ProcId, pc: Pc, ch: Choice)
    requires OwnersOk(s) && Knows(s, pc) && Alone(s, pr, pc)
    ensures DecidesSafe(s, pr, DecideAttach(s, pc, ch))
  {
    match pc
    case AttachCheck(_, _) =>
    case AttachTarget(_, _) =>
    case AttachStale(_, _, _) =>
    case AttachOwner(_, _) =>
    case AttachWrite(_, _) =>
    case AttachMkdir(_, _) =>
    case _ =>
  }

  lemma MovedIsRetired(s: State, pr: ProcId, e: Effect)
    requires OwnersOk(s) && (e.ToDiscard? || e.ToGreen?) && e.v in s.made
    requires CanMove(s, e.v, if e.ToGreen? then s.green else s.discard, e.target)
    ensures Retired(Perform(s, pr, e), e.v) && Perform(s, pr, e).made == s.made && Perform(s, pr, e).procs == s.procs
  {
  }

  lemma SettleDecides(s: State, pr: ProcId, pc: Pc, ch: Choice)
    requires OwnersOk(s) && Knows(s, pc) && Alone(s, pr, pc)
    ensures DecidesSafe(s, pr, DecideSettle(s, pc, ch))
  {
    match pc
    case SettleCheck(_, _) =>
    case SettleTarget(_, _) =>
    case SettleMove(v, green, target) =>
      if CanMove(s, v, if green then s.green else s.discard, target) {
        MovedIsRetired(s, pr, if green then ToGreen(v, target) else ToDiscard(v, target, Red));
      }
    case SettleOwner(_, _, _) =>
    case SettleMeta(_, _) =>
    case _ =>
  }

  /** What a sweep reads is the owner of the layer, because the owner was written first. */
  lemma SweepReads(s: State, v: VmName)
    requires OwnersOk(s) && v in s.made
    ensures OwnerOf(s.w, v).None? || (v in s.owners && Some(s.owners[v]) == OwnerOf(s.w, v) && s.owners[v] in s.born)
  {
  }

  lemma SweepDecides(s: State, pr: ProcId, pc: Pc, ch: Choice)
    requires OwnersOk(s) && Knows(s, pc) && Alone(s, pr, pc)
    ensures DecidesSafe(s, pr, DecideSweep(s, pc, ch))
  {
    match pc
    case SweepList =>
    case SweepLoop(todo) =>
      if ch.text in todo { SweepReads(s, ch.text); }
    case SweepTest(_, _, _) =>
    case SweepDead(_, _) =>
    case SweepMove(v, todo, target) =>
      if CanMove(s, v, s.discard, target) { MovedIsRetired(s, pr, ToDiscard(v, target, Orphaned)); }
    case SweepOwner(_, _) =>
    case _ =>
  }

  lemma ProcessDecides(s: State, pr: ProcId, pc: Pc, ch: Choice)
    requires !AttachPc(pc) && !pc.SettleCheck? && !pc.SettleTarget? && !pc.SettleMove? && !pc.SettleOwner?
    requires !pc.SettleMeta? && !pc.SweepList? && !pc.SweepLoop? && !pc.SweepTest? && !pc.SweepDead? && !pc.SweepMove? && !pc.SweepOwner?
    ensures DecidesSafe(s, pr, DecideProcess(s, pc, ch))
  {
    hide Perform, Candidate;
  }

  lemma PerformSafe(s: State, pr: ProcId, e: Effect)
    requires SafeBut(s, pr) && EffectSafe(s, pr, e)
    ensures SafeBut(Perform(s, pr, e), pr)
  {
    hide SafeBut, Perform;
    if e.ToDiscard? || e.ToGreen? { RenameSafe(s, pr, e); }
    else if e.WriteOwner? || e.ClearOwner? { OwnerSafe(s, pr, e); }
    else if e.MakeLayer? { MakeSafe(s, pr, e.v, e.p); }
    else { OtherSafe(s, pr, e); }
  }

  lemma RunSafe(s: State, pr: ProcId, ch: Choice)
    requires Safe(s) && pr in s.procs
    ensures Safe(Apply(s, Run(pr, ch)))
  {
    hide Safe, SafeBut, Perform, DecideAttach, DecideSettle, DecideSweep, DecideProcess, EffectSafe, Knows;
    SafeSplit(s, pr);
    var pc := s.procs[pr];
    var op := Decide(s, pc, ch);
    if AttachPc(pc) { AttachDecides(s, pr, pc, ch); }
    else if pc.SettleCheck? || pc.SettleTarget? || pc.SettleMove? || pc.SettleOwner? || pc.SettleMeta? {
      SettleDecides(s, pr, pc, ch);
    } else if pc.SweepList? || pc.SweepLoop? || pc.SweepTest? || pc.SweepDead? || pc.SweepMove? || pc.SweepOwner? {
      SweepDecides(s, pr, pc, ch);
    } else { ProcessDecides(s, pr, pc, ch); }
    PerformSafe(s, pr, op.effect);
    ContinueSafe(Perform(s, pr, op.effect), pr, op.next);
  }

  lemma SpawnSafe(s: State, pr: ProcId, pc: Pc)
    requires Safe(s) && FreshStep(s, Spawn(pr, pc)) && pr !in s.procs && Entry(pc)
    ensures Safe(SpawnProc(s, pr, pc))
  {
    if pc.AttachCheck? && pc.p in s.alive {
      var s1 := s.(started := s.started + {pc.v});
      forall q | q in s.procs ensures Knows(s1, s.procs[q]) {
        OthersStillKnow(s, s1, s.procs[q]);
      }
      assert SafeBut(s1, pr);
      ContinueSafe(s1, pr, Some(pc));
    } else if !pc.AttachCheck? {
      assert SafeBut(s, pr);
      ContinueSafe(s, pr, Some(pc));
    }
  }

  /** Guests and supervisors: a guest's own directory has no owner, and a dead owner stays dead. */
  lemma OutsideSafe(s: State, step: Step)
    requires Safe(s) && !step.Run? && !step.Spawn? && !step.Crash?
    ensures Safe(Apply(s, step))
  {
    var s' := Apply(s, step);
    OutsideCalm(s, step);
    forall q | q in s'.procs ensures Knows(s', s'.procs[q]) {
      OthersStillKnow(s, s', s.procs[q]);
    }
    forall q | q in s'.procs && AttachPc(s'.procs[q]) ensures Alone(s', q, s'.procs[q]) {
      assert Alone(s, q, s.procs[q]);
    }
  }

  ghost predicate SameOwned(w: World, w': World) {
    w'.jobs == w.jobs && |w'.layers| == |w.layers| && forall u :: OwnerOf(w', u) == OwnerOf(w, u)
  }

  lemma GuestOwners(w: World, v: VmName, l: LayerId, i: Ino, k: Key, file: File)
    ensures SameOwned(w, Boot(w, v)) && SameOwned(w, Open(w, v)) && SameOwned(w, Put(w, v, l, k, file))
    ensures SameOwned(w, Write(w, v, i, file)) && SameOwned(w, RemoveEntry(w, l, k))
  {
  }

  lemma MkdirOwners(w: World, v: VmName, access: set<Inst>, u: VmName)
    requires v !in w.jobs
    ensures OwnerOf(NewLayer(w, v, None, access), u) == OwnerOf(w, u)
    ensures u in w.jobs && w.jobs[u] < |w.layers| ==>
      u in NewLayer(w, v, None, access).jobs && NewLayer(w, v, None, access).jobs[u] < |NewLayer(w, v, None, access).layers|
    ensures u in NewLayer(w, v, None, access).jobs <==> u in w.jobs || u == v
    ensures NewLayer(w, v, None, access).jobs[v] < |NewLayer(w, v, None, access).layers|
  {
  }

  lemma MkdirCalm(s: State, v: VmName)
    requires OwnersOk(s)
    ensures Calm(s, Mkdir(s, v)) && OwnersOk(Mkdir(s, v))
  {
    hide NewLayer, OwnerOf;
    var s' := Mkdir(s, v);
    if s' != s {
      var w' := NewLayer(s.w, v, None, {s.w.present[v]});
      assert s' == s.(w := w');
      forall u ensures OwnerOf(w', u) == OwnerOf(s.w, u) { MkdirOwners(s.w, v, {s.w.present[v]}, u); }
      forall u | u in w'.jobs
        ensures u in s.made && w'.jobs[u] < |w'.layers|
        ensures OwnerOf(w', u).Some? ==> u in s.owners && s.owners[u] == OwnerOf(w', u).value && s.owners[u] in s.born {
        MkdirOwners(s.w, v, {s.w.present[v]}, u);
        if u == v { NoOwner(s.w, v); }
      }
    }
  }

  lemma NoOwner(w: World, v: VmName)
    requires v !in w.jobs
    ensures OwnerOf(w, v).None?
  {
  }

  lemma StartCalm(s: State, p: Pid)
    requires OwnersOk(s)
    ensures Calm(s, StartSupervisor(s, p)) && OwnersOk(StartSupervisor(s, p))
  {
  }

  lemma DieCalm(s: State, p: Pid)
    requires OwnersOk(s)
    ensures Calm(s, s.(alive := s.alive - {p})) && OwnersOk(s.(alive := s.alive - {p}))
  {
  }

  lemma SameOwnedCalm(s: State, s': State)
    requires OwnersOk(s) && SameOwned(s.w, s'.w)
    requires s' == s.(w := s'.w, shared := s'.shared)
    ensures Calm(s, s') && OwnersOk(s')
  {
  }

  lemma GuestCalm(s: State, step: Step)
    requires OwnersOk(s)
    requires step.VmBoot? || step.GuestOpen? || step.GuestPut? || step.GuestWrite? || step.GuestUnlink?
    ensures SameOwned(s.w, Apply(s, step).w)
    ensures Apply(s, step) == s.(w := Apply(s, step).w)
  {
    hide OwnersOk, Decide, Perform, Continue, SpawnProc, Boot, Open, Put, Write, RemoveEntry, Mkdir, StartSupervisor;
    match step
    case VmBoot(v) => GuestOwners(s.w, v, 0, 0, Key("", ""), NoFile());
    case GuestOpen(v) => GuestOwners(s.w, v, 0, 0, Key("", ""), NoFile());
    case GuestPut(v, l, k, f) => GuestOwners(s.w, v, l, 0, k, f);
    case GuestWrite(v, i, f) => GuestOwners(s.w, v, 0, i, Key("", ""), f);
    case GuestUnlink(v, l, k) => GuestOwners(s.w, v, l, 0, k, NoFile());
  }

  lemma OutsideCalm(s: State, step: Step)
    requires OwnersOk(s) && !step.Run? && !step.Spawn? && !step.Crash?
    ensures Calm(s, Apply(s, step)) && OwnersOk(Apply(s, step))
    ensures Apply(s, step).owners == s.owners && Apply(s, step).made == s.made
  {
    hide Calm, OwnersOk, Decide, Perform, Continue, SpawnProc, Boot, Open, Put, Write, RemoveEntry, Reaches, NewLayer;
    if step.SupStart? {
      StartCalm(s, step.p);
    } else if step.SupDie? {
      DieCalm(s, step.p);
    } else if step.GuestMkdir? {
      MkdirCalm(s, step.v);
    } else {
      QuietCalm(s, step);
    }
  }

  lemma QuietCalm(s: State, step: Step)
    requires OwnersOk(s) && !step.Run? && !step.Spawn? && !step.Crash? && !step.SupStart? && !step.SupDie? && !step.GuestMkdir?
    ensures var s' := Apply(s, step); Calm(s, s') && OwnersOk(s') && s'.owners == s.owners && s'.made == s.made
  {
    hide Calm, OwnersOk, Decide, Perform, Continue, SpawnProc, Boot, Open, Put, Write, RemoveEntry, Reaches, NewLayer, Mkdir, StartSupervisor;
    if !step.VmGone? && !step.TrimUnlink? { GuestCalm(s, step); }
    var s' := Apply(s, step);
    assert SameOwned(s.w, s'.w) && s' == s.(w := s'.w, shared := s'.shared);
    hide Apply, SameOwned;
    SameOwnedCalm(s, s');
  }

  function NoFile(): File { File(NotAnEntry, 0, "") }

  lemma StepSafe(s: State, step: Step)
    requires Safe(s) && FreshStep(s, step)
    ensures Safe(Apply(s, step))
  {
    hide Safe, SafeBut, Decide, Perform, Continue, SpawnProc, Boot, Open, Put, Write, RemoveEntry, Reaches, Mkdir, StartSupervisor;
    if step.Run? { if step.pr in s.procs { RunSafe(s, step.pr, step.ch); } }
    else if step.Spawn? { SpawnStepSafe(s, step.pr, step.pc); }
    else if step.Crash? {
      if step.pr in s.procs { SafeSplit(s, step.pr); ContinueSafe(s, step.pr, None); }
    } else { OutsideSafe(s, step); }
  }

  lemma SpawnStepSafe(s: State, pr: ProcId, pc: Pc)
    requires Safe(s) && FreshStep(s, Spawn(pr, pc))
    ensures Safe(SpawnProc(s, pr, pc))
  {
    hide Safe;
    if pr !in s.procs && Entry(pc) { SpawnSafe(s, pr, pc); }
  }

  // ------------------------------------------------------------------- whole runs

  /** No two attaches of the run are for the same VM name. */
  predicate NamesFresh(steps: seq<Step>) {
    forall i, j | 0 <= i < j < |steps| && Attaches(steps[i]) && Attaches(steps[j]) ::
      steps[i].pc.v != steps[j].pc.v
  }

  predicate Attaches(step: Step) { step.Spawn? && step.pc.AttachCheck? }

  lemma RunStartsNothing(s: State, pr: ProcId, ch: Choice)
    ensures Apply(s, Run(pr, ch)).started == s.started
  {
    hide Decide, Perform;
    if pr in s.procs { Frame(s, pr, Decide(s, s.procs[pr], ch).effect); }
  }

  lemma StartedOnlyBySpawn(s: State, step: Step, v: VmName)
    requires v in Apply(s, step).started && v !in s.started
    ensures Attaches(step) && step.pc.v == v
  {
    hide Decide, Boot, Open, Put, Write, RemoveEntry, Reaches, Perform, NewLayer, Continue, SpawnProc;
    if step.Run? { RunStartsNothing(s, step.pr, step.ch); }
    else if step.Spawn? { SpawnStarts(s, step.pr, step.pc, v); }
    else if step.Crash? { CrashStartsNothing(s, step.pr); }
  }

  lemma SpawnStarts(s: State, pr: ProcId, pc: Pc, v: VmName)
    requires v in SpawnProc(s, pr, pc).started && v !in s.started
    ensures pc.AttachCheck? && pc.v == v
  {
  }

  lemma CrashStartsNothing(s: State, pr: ProcId)
    ensures Continue(s, pr, None).started == s.started
  {
  }

  lemma {:induction false} StartedEarlier(steps: seq<Step>, v: VmName)
    requires v in Exec(Init(), steps).started
    ensures exists j :: 0 <= j < |steps| && Attaches(steps[j]) && steps[j].pc.v == v
  {
    hide Apply;
    var n := |steps| - 1;
    if steps != [] {
      if v in Exec(Init(), steps[..n]).started {
        StartedEarlier(steps[..n], v);
        var j :| 0 <= j < n && Attaches(steps[..n][j]) && steps[..n][j].pc.v == v;
        assert Attaches(steps[j]);
      } else {
        StartedOnlyBySpawn(Exec(Init(), steps[..n]), steps[n], v);
      }
    }
  }

  lemma {:induction false} FreshRunIsSafe(steps: seq<Step>)
    requires NamesFresh(steps)
    ensures Safe(Exec(Init(), steps))
  {
    hide Safe, Apply;
    if steps == [] {
      InitSafe();
    } else {
      var n := |steps| - 1;
      var s := Exec(Init(), steps[..n]);
      FreshRunIsSafe(steps[..n]);
      if Attaches(steps[n]) && steps[n].pc.v in s.started {
        StartedEarlier(steps[..n], steps[n].pc.v);
        assert false;
      }
      StepSafe(s, steps[n]);
    }
  }

  lemma InitSafe()
    ensures Safe(Init())
  {
  }

  /** A sweep's rename in state `s` moves a layer whose supervisor is alive. */
  predicate SweepsLive(s: State, step: Step) {
    && step.Run? && step.pr in s.procs && s.procs[step.pr].SweepMove?
    && CanMove(s, s.procs[step.pr].v, s.discard, s.procs[step.pr].target)
    && OwnerOf(s.w, s.procs[step.pr].v).Some? && OwnerOf(s.w, s.procs[step.pr].v).value in s.alive
  }

  /**
   In every interleaving of attaches, settles and sweeps over fresh VM names, with guests, crashes
   and dying supervisors, a sweep never moves a layer whose supervisor is alive.
   */
  lemma SweepSparesTheLiving(steps: seq<Step>, step: Step)
    requires NamesFresh(steps)
    ensures !SweepsLive(Exec(Init(), steps), step)
  {
    FreshRunIsSafe(steps);
    var s := Exec(Init(), steps);
    if step.Run? && step.pr in s.procs { SafeSplit(s, step.pr); }
  }
}
