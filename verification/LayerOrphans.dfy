/**
 What a whole sweep leaves behind: it comes to every layer it listed, and no layer of a dead
 supervisor stays in jobs/.
 */
module LayerOrphans {
  import opened Basics
  import opened LayerProtocol
  import opened LayerFrames
  import opened LayerRuns
  import opened LayerManifests
  import opened LayerCompletion
  import Sweep = LayerSweep

  // ------------------------------------------------------------------------ what a sweep does

  /** Inside the first loop of `sweep`. */
  predicate InSweep(pc: Pc) {
    pc.SweepLoop? || pc.SweepTest? || pc.SweepDead? || pc.SweepMove? || pc.SweepOwner?
  }

  function OnFile(s: State, v: VmName): Option<Pid> { if v in s.owners then Some(s.owners[v]) else None }

  ghost predicate Acts(steps: seq<Step>, m: nat, pr: ProcId) {
    m < |steps| && steps[m].Run? && steps[m].pr == pr && pr in At(steps, m).procs
  }

  /** The process reads the owner file of `v`. */
  ghost predicate Reads(steps: seq<Step>, m: nat, pr: ProcId, v: VmName, owner: Option<Pid>) {
    && Acts(steps, m, pr) && At(steps, m).procs[pr].SweepLoop? && owner == OnFile(At(steps, m), v)
    && pr in At(steps, m + 1).procs && At(steps, m + 1).procs[pr].SweepTest?
    && At(steps, m + 1).procs[pr].v == v && At(steps, m + 1).procs[pr].owner == owner
  }

  /** `pid_alive` of what was read: no pid is dead, and a dead owner can look alive because its pid is reused. */
  predicate LooksAlive(s: State, owner: Option<Pid>, reused: bool) { owner.Some? && (owner.value in s.alive || reused) }

  ghost predicate Tests(steps: seq<Step>, m: nat, pr: ProcId, v: VmName, owner: Option<Pid>, alive: bool) {
    && Acts(steps, m, pr) && At(steps, m).procs[pr].SweepTest?
    && At(steps, m).procs[pr].v == v && At(steps, m).procs[pr].owner == owner
    && alive == LooksAlive(At(steps, m), owner, steps[m].ch.flag)
  }

  /** The layer of `v` goes from jobs/ to a free name of discard/, and nothing else moves. */
  predicate DiscardedAs(s: State, s': State, v: VmName, target: string) {
    && v in s.w.jobs && target !in s.discard
    && s'.discard == s.discard[target := s.w.jobs[v]] && s'.w.jobs == s.w.jobs - {v}
  }

  ghost predicate Discarded(s: State, s': State, v: VmName) { exists target :: DiscardedAs(s, s', v, target) }

  ghost predicate Renames(steps: seq<Step>, m: nat, pr: ProcId, v: VmName) {
    Acts(steps, m, pr) && Discarded(At(steps, m), At(steps, m + 1), v)
  }

  ghost predicate Unlinks(steps: seq<Step>, m: nat, pr: ProcId, v: VmName) {
    Acts(steps, m, pr) && At(steps, m + 1).owners == At(steps, m).owners - {v}
  }

  // ------------------------------------------------------------- and in which order, between i and m

  ghost predicate ReadBy(steps: seq<Step>, i: nat, m: nat, pr: ProcId, v: VmName, owner: Option<Pid>) {
    exists r :: i < r < m && Reads(steps, r, pr, v, owner)
  }

  /** It read the owner of `v` and then found that pid alive, or dead. */
  ghost predicate FoundBy(steps: seq<Step>, i: nat, m: nat, pr: ProcId, v: VmName, alive: bool) {
    exists t, owner :: i < t < m && Tests(steps, t, pr, v, owner, alive) && ReadBy(steps, i, t, pr, v, owner)
  }

  /** It found the owner dead and then renamed the layer. */
  ghost predicate MovedBy(steps: seq<Step>, i: nat, m: nat, pr: ProcId, v: VmName) {
    exists x :: i < x < m && Renames(steps, x, pr, v) && FoundBy(steps, i, x, pr, v, false)
  }

  /** And then unlinked its owner file. */
  ghost predicate ReclaimedBy(steps: seq<Step>, i: nat, m: nat, pr: ProcId, v: VmName) {
    exists u :: i < u < m && Unlinks(steps, u, pr, v) && MovedBy(steps, i, u, pr, v)
  }

  ghost predicate CameTo(steps: seq<Step>, i: nat, m: nat, pr: ProcId, v: VmName) {
    FoundBy(steps, i, m, pr, v, true) || ReclaimedBy(steps, i, m, pr, v)
  }

  /** What the process still has to come to. */
  function Todo(pc: Pc): set<VmName> {
    match pc
    case SweepLoop(todo) => todo
    case SweepTest(_, todo, _) => todo
    case SweepDead(_, todo) => todo
    case SweepMove(_, todo, _) => todo
    case SweepOwner(_, todo) => todo
    case _ => {}
  }

  /** How far the process has come with `v`. */
  ghost predicate Stage(steps: seq<Step>, i: nat, m: nat, pr: ProcId, v: VmName) {
    && m <= |steps| && pr in At(steps, m).procs
    && var pc := At(steps, m).procs[pr];
       || v in Todo(pc)
       || (pc.SweepTest? && pc.v == v && ReadBy(steps, i, m, pr, v, pc.owner))
       || ((pc.SweepDead? || pc.SweepMove?) && pc.v == v && FoundBy(steps, i, m, pr, v, false))
       || (pc.SweepOwner? && pc.v == v && MovedBy(steps, i, m, pr, v))
       || CameTo(steps, i, m, pr, v)
  }

  lemma StillThen(steps: seq<Step>, i: nat, m: nat, pr: ProcId, v: VmName, owner: Option<Pid>)
    ensures ReadBy(steps, i, m, pr, v, owner) ==> ReadBy(steps, i, m + 1, pr, v, owner)
    ensures FoundBy(steps, i, m, pr, v, false) ==> FoundBy(steps, i, m + 1, pr, v, false)
    ensures MovedBy(steps, i, m, pr, v) ==> MovedBy(steps, i, m + 1, pr, v)
    ensures CameTo(steps, i, m, pr, v) ==> CameTo(steps, i, m + 1, pr, v)
  {
    hide Reads, Tests, Renames, Unlinks;
  }

  // --------------------------------------------------------------------------------- one turn

  lemma Turn(s: State, pr: ProcId, ch: Choice)
    requires pr in s.procs
    ensures var op := Decide(s, s.procs[pr], ch);
            var s1, s' := Perform(s, pr, op.effect), Apply(s, Run(pr, ch));
            && s'.w == s1.w && s'.discard == s1.discard && s'.owners == s1.owners && s'.green == s1.green && s'.meta == s1.meta
            && s'.procs == if op.next.Some? then s.procs[pr := op.next.value] else s.procs - {pr}
  {
    OperationProcs(s, pr, ch);
    Frame(s, pr, Decide(s, s.procs[pr], ch).effect);
    hide Boot, Open, Put, Write, RemoveEntry, Reaches, Mkdir, SpawnProc, StartSupervisor, Decide, Perform;
  }

  /** An owner is read for the name taken from the listing, and everything else stays ahead. */
  lemma LoopTurn(steps: seq<Step>, i: nat, m: nat, pr: ProcId, v: VmName)
    requires Acts(steps, m, pr) && i < m && At(steps, m).procs[pr].SweepLoop? && v in Todo(At(steps, m).procs[pr])
    ensures Stage(steps, i, m + 1, pr, v)
  {
    var s := At(steps, m);
    AtNext(steps, m);
    Turn(s, pr, steps[m].ch);
    hide Apply, Perform;
    if steps[m].ch.text == v {
      assert Reads(steps, m, pr, v, OnFile(s, v));
    }
  }

  lemma TestTurn(steps: seq<Step>, i: nat, m: nat, pr: ProcId, v: VmName)
    requires Acts(steps, m, pr) && i < m && At(steps, m).procs[pr].SweepTest? && Stage(steps, i, m, pr, v)
    ensures Stage(steps, i, m + 1, pr, v)
  {
    var s := At(steps, m);
    var pc := s.procs[pr];
    AtNext(steps, m);
    Turn(s, pr, steps[m].ch);
    StillThen(steps, i, m, pr, v, None);
    hide Apply, Perform, Reads, Renames, Unlinks, MovedBy, ReclaimedBy;
    if pc.v == v && ReadBy(steps, i, m, pr, v, pc.owner) {
      assert Tests(steps, m, pr, v, pc.owner, LooksAlive(s, pc.owner, steps[m].ch.flag));
    }
  }

  lemma DeadTurn(steps: seq<Step>, i: nat, m: nat, pr: ProcId, v: VmName)
    requires Acts(steps, m, pr) && i < m && At(steps, m).procs[pr].SweepDead? && Stage(steps, i, m, pr, v)
    ensures Stage(steps, i, m + 1, pr, v)
  {
    AtNext(steps, m);
    Turn(At(steps, m), pr, steps[m].ch);
    StillThen(steps, i, m, pr, v, None);
    hide Apply, Perform, FoundBy, MovedBy, ReclaimedBy;
  }

  lemma RenameTurn(s: State, pr: ProcId, v: VmName, target: string)
    requires CanMove(s, v, s.discard, target)
    ensures DiscardedAs(s, Perform(s, pr, ToDiscard(v, target, Orphaned)), v, target)
  {
  }

  lemma MoveTurn(steps: seq<Step>, i: nat, m: nat, pr: ProcId, v: VmName)
    requires Acts(steps, m, pr) && i < m && At(steps, m).procs[pr].SweepMove? && Stage(steps, i, m, pr, v)
    requires CanMove(At(steps, m), At(steps, m).procs[pr].v, At(steps, m).discard, At(steps, m).procs[pr].target)
    ensures Stage(steps, i, m + 1, pr, v)
  {
    var s := At(steps, m);
    var pc := s.procs[pr];
    AtNext(steps, m);
    Turn(s, pr, steps[m].ch);
    StillThen(steps, i, m, pr, v, None);
    RenameTurn(s, pr, pc.v, pc.target);
    hide Apply, Perform, FoundBy, ReclaimedBy, CanMove;
    assert DiscardedAs(s, At(steps, m + 1), pc.v, pc.target);
    assert Renames(steps, m, pr, pc.v);
  }

  lemma OwnerTurn(steps: seq<Step>, i: nat, m: nat, pr: ProcId, v: VmName)
    requires Acts(steps, m, pr) && i < m && At(steps, m).procs[pr].SweepOwner? && Stage(steps, i, m, pr, v)
    ensures Stage(steps, i, m + 1, pr, v)
  {
    var s := At(steps, m);
    AtNext(steps, m);
    Turn(s, pr, steps[m].ch);
    StillThen(steps, i, m, pr, v, None);
    hide Apply, FoundBy, MovedBy;
    assert Unlinks(steps, m, pr, s.procs[pr].v);
  }

  /** No rename of this step fails. */
  ghost predicate NoFailedRename(steps: seq<Step>, m: nat, pr: ProcId)
    requires m <= |steps|
  {
    pr in At(steps, m).procs && At(steps, m).procs[pr].SweepMove? ==>
      CanMove(At(steps, m), At(steps, m).procs[pr].v, At(steps, m).discard, At(steps, m).procs[pr].target)
  }

  lemma StageStep(steps: seq<Step>, i: nat, m: nat, pr: ProcId, v: VmName)
    requires i < m < |steps| && pr in At(steps, m).procs && Stage(steps, i, m, pr, v) && InSweep(At(steps, m).procs[pr])
    requires pr in At(steps, m + 1).procs
    requires Acts(steps, m, pr) ==> NoFailedRename(steps, m, pr)
    ensures Stage(steps, i, m + 1, pr, v)
  {
    hide Apply, Stage, CameTo;
    if Acts(steps, m, pr) {
      var pc := At(steps, m).procs[pr];
      if pc.SweepLoop? {
        StageAtLoop(steps, i, m, pr, v);
        if v in Todo(pc) { LoopTurn(steps, i, m, pr, v); } else { AlreadyCameTo(steps, i, m, pr, v); }
      }
      else if pc.SweepTest? { TestTurn(steps, i, m, pr, v); }
      else if pc.SweepDead? { DeadTurn(steps, i, m, pr, v); }
      else if pc.SweepMove? { MoveTurn(steps, i, m, pr, v); }
      else { OwnerTurn(steps, i, m, pr, v); }
    } else {
      AtNext(steps, m);
      OthersKeepPc(At(steps, m), steps[m], pr);
      SamePc(steps, i, m, pr, v);
    }
  }

  lemma StageAtLoop(steps: seq<Step>, i: nat, m: nat, pr: ProcId, v: VmName)
    requires Stage(steps, i, m, pr, v) && At(steps, m).procs[pr].SweepLoop?
    ensures v in Todo(At(steps, m).procs[pr]) || CameTo(steps, i, m, pr, v)
  {
  }

  lemma AlreadyCameTo(steps: seq<Step>, i: nat, m: nat, pr: ProcId, v: VmName)
    requires m < |steps| && CameTo(steps, i, m, pr, v) && pr in At(steps, m + 1).procs
    ensures Stage(steps, i, m + 1, pr, v)
  {
    StillThen(steps, i, m, pr, v, None);
  }

  lemma SamePc(steps: seq<Step>, i: nat, m: nat, pr: ProcId, v: VmName)
    requires m < |steps| && Stage(steps, i, m, pr, v) && pr in At(steps, m + 1).procs && At(steps, m + 1).procs[pr] == At(steps, m).procs[pr]
    ensures Stage(steps, i, m + 1, pr, v)
  {
    var pc := At(steps, m).procs[pr];
    StillThen(steps, i, m, pr, v, if pc.SweepTest? then pc.owner else None);
    hide At, ReadBy, FoundBy, MovedBy, CameTo;
  }

  // ------------------------------------------------------------------------------ whole sweeps

  /**
   The process lists jobs/ in step i, stays in the loop, and ends by its own step j; no rename of it
   fails. Nothing is said about what is left to do.
   */
  ghost predicate WholeSweep(steps: seq<Step>, i: nat, j: nat, pr: ProcId) {
    && i < j < |steps| && Acts(steps, i, pr) && At(steps, i).procs[pr].SweepList?
    && (forall m | i < m <= j :: pr in At(steps, m).procs && InSweep(At(steps, m).procs[pr]))
    && (forall m | i < m <= j :: Acts(steps, m, pr) ==> NoFailedRename(steps, m, pr))
    && Acts(steps, j, pr) && pr !in At(steps, j + 1).procs
  }

  lemma ListTurn(steps: seq<Step>, i: nat, pr: ProcId, v: VmName)
    requires Acts(steps, i, pr) && At(steps, i).procs[pr].SweepList? && v in At(steps, i).w.jobs
    ensures Stage(steps, i, i + 1, pr, v)
  {
    AtNext(steps, i);
    Turn(At(steps, i), pr, steps[i].ch);
    hide Apply, Perform;
  }

  lemma {:induction false} SweepStages(steps: seq<Step>, i: nat, m: nat, j: nat, pr: ProcId, v: VmName)
    requires WholeSweep(steps, i, j, pr) && i < m <= j && v in At(steps, i).w.jobs
    ensures Stage(steps, i, m, pr, v)
    decreases m
  {
    hide Apply, Stage, NoFailedRename;
    if m == i + 1 {
      ListTurn(steps, i, pr, v);
    } else {
      SweepStages(steps, i, m - 1, j, pr, v);
      StageStep(steps, i, m - 1, pr, v);
    }
  }

  /** A sweep ends by its own step only in front of an empty listing. */
  lemma LastTurn(steps: seq<Step>, j: nat, pr: ProcId)
    requires Acts(steps, j, pr) && InSweep(At(steps, j).procs[pr]) && NoFailedRename(steps, j, pr)
    requires pr !in At(steps, j + 1).procs
    ensures At(steps, j).procs[pr].SweepLoop? && Todo(At(steps, j).procs[pr]) == {}
  {
    AtNext(steps, j);
    Turn(At(steps, j), pr, steps[j].ch);
    hide Apply, Perform, CanMove;
  }

  /**
   A sweep that ends came to every name it listed: it read the owner and found it alive, or found it
   dead, then renamed the layer to discard/, and then unlinked the owner.
   */
  lemma EveryNameCameTo(steps: seq<Step>, i: nat, j: nat, pr: ProcId, v: VmName)
    requires WholeSweep(steps, i, j, pr) && v in At(steps, i).w.jobs
    ensures CameTo(steps, i, j, pr, v)
  {
    hide Apply, NoFailedRename, CameTo;
    SweepStages(steps, i, j, j, pr, v);
    LastTurn(steps, j, pr);
    StageAtLoop(steps, i, j, pr, v);
  }

  /** How many turns the loop has left at most. */
  function Rank(pc: Pc): nat {
    match pc
    case SweepLoop(todo) => 5 * |todo|
    case SweepTest(_, todo, _) => 5 * |todo| + 4
    case SweepDead(_, todo) => 5 * |todo| + 3
    case SweepMove(_, todo, _) => 5 * |todo| + 2
    case SweepOwner(_, todo) => 5 * |todo| + 1
    case _ => 0
  }

  /** Every turn of the loop that takes a listed name and a fresh suffix brings the sweep nearer to its end. */
  lemma SweepAdvances(s: State, pr: ProcId, ch: Choice)
    requires pr in s.procs && InSweep(s.procs[pr])
    requires s.procs[pr].SweepLoop? ==> Todo(s.procs[pr]) == {} || ch.text in Todo(s.procs[pr])
    requires s.procs[pr].SweepDead? ==> Suffix(ch.text)
    ensures var s' := Apply(s, Run(pr, ch)); pr in s'.procs ==> Rank(s'.procs[pr]) < Rank(s.procs[pr])
  {
    Turn(s, pr, ch);
    hide Apply, Perform, CanMove;
  }

  // ---------------------------------------------------------------- a layer that left never returns

  /** Layers are only added, an owner is final, and a name can only get a new layer. */
  ghost predicate Grows(w: World, w': World) {
    && |w.layers| <= |w'.layers|
    && (forall l | 0 <= l < |w.layers| && w.layers[l].owner.Some? :: w'.layers[l].owner == w.layers[l].owner)
    && (forall v :: v in w'.jobs ==> (v in w.jobs && w'.jobs[v] == w.jobs[v]) || |w.layers| == w'.jobs[v] < |w'.layers|)
  }

  lemma GuestGrows(w: World, v: VmName, l: LayerId, i: Ino, k: Key, file: File)
    ensures Grows(w, Boot(w, v)) && Grows(w, Open(w, v)) && Grows(w, Put(w, v, l, k, file))
    ensures Grows(w, Write(w, v, i, file)) && Grows(w, RemoveEntry(w, l, k))
  {
  }

  lemma NewLayerGrows(w: World, v: VmName, owner: Option<Pid>, access: set<Inst>)
    ensures Grows(w, NewLayer(w, v, owner, access))
  {
  }

  lemma AdoptGrows(w: World, v: VmName, p: Pid)
    requires v in w.jobs
    ensures Grows(w, Adopt(w, v, p))
  {
  }

  lemma MadeGrows(w: World, v: VmName, p: Pid)
    ensures Grows(w, Made(w, v, p))
  {
    hide NewLayer, Adopt, Grows;
    if v in w.jobs { AdoptGrows(w, v, p); } else { NewLayerGrows(w, v, Some(p), {}); }
  }

  lemma TakeGrows(w: World, v: VmName, verdict: Verdict)
    requires v in w.jobs && w.jobs[v] < |w.layers|
    ensures Grows(w, Take(w, v, verdict))
  {
  }

  lemma NoteGrows(s: State, pr: ProcId, e: Effect)
    requires e.NoteGone? || e.DropEntry?
    ensures Grows(s.w, Perform(s, pr, e).w)
  {
  }

  lemma EffectGrows(s: State, pr: ProcId, e: Effect)
    ensures Grows(s.w, Perform(s, pr, e).w)
  {
    hide Grows, Perform, Take, Made;
    if e.ToDiscard? || e.ToGreen? {
      Sweep.RenamedWorld(s, pr, e);
      SameGrows(s.w);
      if Perform(s, pr, e).w != s.w { TakeGrows(s.w, e.v, if e.ToGreen? then Green else e.verdict); }
    } else if e.MakeLayer? {
      MadeGrows(s.w, e.v, e.p);
      MakeEffect(s, pr, e);
    } else if e.LinkEntry? {
      Sweep.LinkedWorld(s, pr, e);
      SameLayersGrow(s.w, Perform(s, pr, e).w);
    } else if e.NoteGone? || e.DropEntry? {
      NoteGrows(s, pr, e);
    } else {
      Frame(s, pr, e);
      SameGrows(s.w);
    }
  }

  lemma MakeEffect(s: State, pr: ProcId, e: Effect)
    requires e.MakeLayer?
    ensures Perform(s, pr, e).w == Made(s.w, e.v, e.p)
  {
  }

  lemma SameGrows(w: World)
    ensures Grows(w, w)
  {
  }

  lemma SameLayersGrow(w: World, w': World)
    requires w'.layers == w.layers && w'.jobs == w.jobs
    ensures Grows(w, w')
  {
  }

  lemma GuestStepGrows(s: State, step: Step)
    requires GuestStep(step)
    ensures Grows(s.w, Apply(s, step).w)
  {
    hide Grows, Decide, Perform, Continue, SpawnProc, Boot, Open, Put, Write, RemoveEntry, NewLayer, StartSupervisor;
    var none := Sweep.NoFile();
    SameGrows(s.w);
    match step
    case VmBoot(v) => GuestGrows(s.w, v, 0, 0, Key("", ""), none);
    case VmGone(v) => SameLayersGrow(s.w, Apply(s, step).w);
    case GuestOpen(v) => GuestGrows(s.w, v, 0, 0, Key("", ""), none);
    case GuestMkdir(v) => if v in s.w.present { NewLayerGrows(s.w, v, None, {s.w.present[v]}); }
    case GuestPut(v, l, k, f) => GuestGrows(s.w, v, l, 0, k, f);
    case GuestWrite(v, i, f) => GuestGrows(s.w, v, 0, i, Key("", ""), f);
    case GuestUnlink(v, l, k) => GuestGrows(s.w, v, l, 0, k, none);
  }

  lemma StepGrows(s: State, step: Step)
    ensures Grows(s.w, Apply(s, step).w)
  {
    hide Grows, Apply;
    if Runs(s, step) {
      Turn(s, step.pr, step.ch);
      EffectGrows(s, step.pr, Decide(s, s.procs[step.pr], step.ch).effect);
    } else if GuestStep(step) {
      GuestStepGrows(s, step);
    } else {
      NoProcessNoChange(s, step);
      SameGrows(s.w);
    }
  }

  /** Layer `l` is not, or no longer, the one at jobs/`v`. */
  predicate Gone(w: World, v: VmName, l: LayerId) { l < |w.layers| && (v in w.jobs ==> w.jobs[v] != l) }

  lemma {:induction false} GoneForGood(steps: seq<Step>, m: nat, j: nat, v: VmName, l: LayerId)
    requires m <= j <= |steps| && Gone(At(steps, m).w, v, l)
    ensures Gone(At(steps, j).w, v, l)
    decreases j
  {
    hide Apply;
    if m < j {
      GoneForGood(steps, m, j - 1, v, l);
      AtNext(steps, j - 1);
      StepGrows(At(steps, j - 1), steps[j - 1]);
    }
  }

  lemma {:induction false} JobsExist(steps: seq<Step>, j: nat)
    requires j <= |steps|
    ensures forall v :: v in At(steps, j).w.jobs ==> At(steps, j).w.jobs[v] < |At(steps, j).w.layers|
  {
    hide Apply;
    if j > 0 {
      JobsExist(steps, j - 1);
      AtNext(steps, j - 1);
      StepGrows(At(steps, j - 1), steps[j - 1]);
    }
  }

  lemma {:induction false} LayersStay(steps: seq<Step>, i: nat, m: nat, l: LayerId)
    requires i <= m <= |steps| && l < |At(steps, i).w.layers|
    ensures l < |At(steps, m).w.layers|
    ensures At(steps, i).w.layers[l].owner.Some? ==> At(steps, m).w.layers[l].owner == At(steps, i).w.layers[l].owner
    decreases m
  {
    hide Apply;
    if i < m {
      LayersStay(steps, i, m - 1, l);
      AtNext(steps, m - 1);
      StepGrows(At(steps, m - 1), steps[m - 1]);
    }
  }

  // ----------------------------------------------------------------------------- no orphan is left

  /** No test of the process takes a reused pid for the owner. */
  ghost predicate NoReusedPid(steps: seq<Step>, i: nat, j: nat, pr: ProcId) {
    forall t | i < t < j && t < |steps| && Acts(steps, t, pr) && At(steps, t).procs[pr].SweepTest? :: !steps[t].ch.flag
  }

  predicate Died(s: State, p: Pid) { p in s.born && p !in s.alive }

  /** The supervisor on file for `v`, if any, has died. */
  predicate DeadOnFile(s: State, v: VmName) { v in s.owners ==> Died(s, s.owners[v]) }

  lemma DeadStep(s: State, step: Step, p: Pid)
    requires Died(s, p)
    ensures Died(Apply(s, step), p)
  {
    hide Decide, Perform;
    if Runs(s, step) {
      hide Apply;
      Frame(s, step.pr, Decide(s, s.procs[step.pr], step.ch).effect);
      RunLives(s, step.pr, step.ch);
    } else if GuestStep(step) {
      hide Apply;
      GuestFrame(s, step);
    } else {
      DeadAmongOthers(s, step, p);
    }
  }

  lemma DeadAmongOthers(s: State, step: Step, p: Pid)
    requires Died(s, p) && !Runs(s, step) && !GuestStep(step)
    ensures Died(Apply(s, step), p)
  {
    hide Decide, Perform, Boot, Open, Put, Write, RemoveEntry, Reaches, Mkdir;
  }

  lemma RunLives(s: State, pr: ProcId, ch: Choice)
    requires pr in s.procs
    ensures var s1 := Perform(s, pr, Decide(s, s.procs[pr], ch).effect);
            Apply(s, Run(pr, ch)).alive == s1.alive && Apply(s, Run(pr, ch)).born == s1.born
  {
    hide Boot, Open, Put, Write, RemoveEntry, Reaches, Mkdir, SpawnProc, StartSupervisor, Decide, Perform, Continue;
    var op := Decide(s, s.procs[pr], ch);
    ContinueLives(Perform(s, pr, op.effect), pr, op.next);
  }

  lemma ContinueLives(s: State, pr: ProcId, next: Option<Pc>)
    ensures Continue(s, pr, next).alive == s.alive && Continue(s, pr, next).born == s.born
  {
  }

  lemma {:induction false} DeadForGood(steps: seq<Step>, i: nat, m: nat, p: Pid)
    requires i <= m <= |steps| && Died(At(steps, i), p)
    ensures Died(At(steps, m), p)
    decreases m
  {
    hide Apply;
    if i < m {
      DeadForGood(steps, i, m - 1, p);
      AtNext(steps, m - 1);
      DeadStep(At(steps, m - 1), steps[m - 1], p);
    }
  }

  /** After its rename the layer listed is gone, whichever layer was renamed. */
  lemma RenamedIsGone(steps: seq<Step>, x: nat, pr: ProcId, v: VmName, l: LayerId)
    requires Renames(steps, x, pr, v) && l < |At(steps, x + 1).w.layers|
    ensures Gone(At(steps, x + 1).w, v, l)
  {
    hide At;
  }

  lemma ReclaimedIsGone(steps: seq<Step>, i: nat, j: nat, pr: ProcId, v: VmName)
    requires i < j < |steps| && ReclaimedBy(steps, i, j, pr, v) && v in At(steps, i).w.jobs
    ensures Gone(At(steps, j + 1).w, v, At(steps, i).w.jobs[v])
  {
    hide Apply, At, FoundBy, Unlinks, Renames, Gone;
    var u :| i < u < j && Unlinks(steps, u, pr, v) && MovedBy(steps, i, u, pr, v);
    var x :| i < x < u && Renames(steps, x, pr, v) && FoundBy(steps, i, x, pr, v, false);
    var l := At(steps, i).w.jobs[v];
    JobsExist(steps, i);
    LayersStay(steps, i, x + 1, l);
    RenamedIsGone(steps, x, pr, v, l);
    GoneForGood(steps, x + 1, j + 1, v, l);
  }

  /**
   After a whole sweep no layer it listed is still in jobs/ if the pid in its owner file was dead all
   the time and no pid was reused. A layer made there since is another layer.
   */
  lemma NoOrphanStays(steps: seq<Step>, i: nat, j: nat, pr: ProcId, v: VmName)
    requires WholeSweep(steps, i, j, pr) && NoReusedPid(steps, i, j, pr) && v in At(steps, i).w.jobs
    requires forall m | i < m < j :: DeadOnFile(At(steps, m), v)
    ensures Gone(At(steps, j + 1).w, v, At(steps, i).w.jobs[v])
  {
    hide Apply, At, ReclaimedBy;
    EveryNameCameTo(steps, i, j, pr, v);
    if FoundBy(steps, i, j, pr, v, true) {
      var t, owner :| i < t < j && Tests(steps, t, pr, v, owner, true) && ReadBy(steps, i, t, pr, v, owner);
      var r :| i < r < t && Reads(steps, r, pr, v, owner);
      DeadForGood(steps, r, t, owner.value);
      assert false;
    } else {
      ReclaimedIsGone(steps, i, j, pr, v);
    }
  }

  /** Over fresh names, as long as the layer is there its owner file names its supervisor. */
  lemma FileNamesOwner(steps: seq<Step>, i: nat, r: nat, v: VmName, p: Pid)
    requires Sweep.NamesFresh(steps) && i <= r <= |steps| && Sweep.OwnerOf(At(steps, i).w, v) == Some(p)
    ensures Gone(At(steps, r).w, v, At(steps, i).w.jobs[v]) || OnFile(At(steps, r), v) == Some(p)
    ensures p in At(steps, i).born
  {
    hide Apply;
    FreshAt(steps, i);
    FreshAt(steps, r);
    LayersStay(steps, i, r, At(steps, i).w.jobs[v]);
  }

  lemma FreshAt(steps: seq<Step>, m: nat)
    requires Sweep.NamesFresh(steps) && m <= |steps|
    ensures Sweep.OwnersOk(At(steps, m))
  {
    hide Apply;
    Sweep.FreshRunIsSafe(steps[..m]);
  }

  /**
   Over fresh names: a sweep that ends leaves no layer in jobs/ that it listed and whose supervisor
   was dead by then. With `SweepSparesTheLiving`, a whole sweep takes the layers of the dead and
   only those.
   */
  lemma NoDeadOwnersLayerStays(steps: seq<Step>, i: nat, j: nat, pr: ProcId, v: VmName, p: Pid)
    requires Sweep.NamesFresh(steps) && WholeSweep(steps, i, j, pr) && NoReusedPid(steps, i, j, pr)
    requires Sweep.OwnerOf(At(steps, i).w, v) == Some(p) && p !in At(steps, i).alive
    ensures Gone(At(steps, j + 1).w, v, At(steps, i).w.jobs[v])
  {
    WholeIsIn(steps, i, j, pr);
    EveryNameCameTo(steps, i, j, pr, v);
    hide Apply, At, WholeSweep, ReclaimedBy;
    if FoundBy(steps, i, j, pr, v, true) {
      SparedWasGone(steps, i, j, pr, v, p);
    } else {
      ReclaimedIsGone(steps, i, j, pr, v);
    }
  }

  lemma WholeIsIn(steps: seq<Step>, i: nat, j: nat, pr: ProcId)
    requires WholeSweep(steps, i, j, pr)
    ensures i < j < |steps|
  {
  }

  /** The owner it found alive was not the dead one, so the layer was another by then. */
  lemma SparedWasGone(steps: seq<Step>, i: nat, j: nat, pr: ProcId, v: VmName, p: Pid)
    requires Sweep.NamesFresh(steps) && i < j < |steps| && NoReusedPid(steps, i, j, pr) && FoundBy(steps, i, j, pr, v, true)
    requires Sweep.OwnerOf(At(steps, i).w, v) == Some(p) && p !in At(steps, i).alive
    ensures Gone(At(steps, j + 1).w, v, At(steps, i).w.jobs[v])
  {
    hide Apply, At, Sweep.NamesFresh;
    var t, owner :| i < t < j && Tests(steps, t, pr, v, owner, true) && ReadBy(steps, i, t, pr, v, owner);
    var r :| i < r < t && Reads(steps, r, pr, v, owner);
    FileNamesOwner(steps, i, r, v, p);
    DeadForGood(steps, i, t, p);
    assert owner != Some(p);
    GoneForGood(steps, r, j + 1, v, At(steps, i).w.jobs[v]);
  }
}
