/**
 Each of the five meetings an attach must not have is needed: with any one of them allowed, some run
 of a reused VM name ends in a sweep that moves a living owner's layer.
 */
module LayerReuseLimits {
  import opened Basics
  import opened LayerProtocol
  import opened LayerFrames
  import opened LayerLimits
  import opened LayerReuse
  import Sweep = LayerSweep
  import Manifests = LayerManifests
  import Provenance = LayerProvenance

  // ------------------------------------------------------------ the processes along a run

  ghost predicate Through(s: State, steps: seq<Step>, allowed: Clash -> bool) {
    forall j | 0 <= j <= |steps| :: Meets(Exec(s, steps[..j]).procs, allowed)
  }

  lemma ThroughAppend(s: State, a: seq<Step>, b: seq<Step>, allowed: Clash -> bool)
    requires Through(s, a, allowed) && Through(Exec(s, a), b, allowed)
    ensures Through(s, a + b, allowed)
  {
    hide Apply, Meets;
    forall j | 0 <= j <= |a + b| ensures Meets(Exec(s, (a + b)[..j]).procs, allowed) {
      if j <= |a| {
        assert (a + b)[..j] == a[..j];
      } else {
        assert (a + b)[..j] == a + b[..j - |a|];
        ExecAppend(s, a, b[..j - |a|]);
      }
    }
  }

  /** No attach is in progress. */
  ghost predicate NoAttach(procs: map<ProcId, Pc>) { forall q :: q in procs ==> !Sweep.AttachPc(procs[q]) }

  /** Nothing but attaches is in progress. */
  ghost predicate AllAttach(procs: map<ProcId, Pc>) { forall q :: q in procs ==> Sweep.AttachPc(procs[q]) }

  lemma NextKind(s: State, pc: Pc, ch: Choice)
    ensures var op := Decide(s, pc, ch);
            op.next.Some? ==> (Sweep.AttachPc(op.next.value) <==> Sweep.AttachPc(pc))
  {
    hide Candidate, CanMove, DecidePublish;
    if pc.ProcPromote? && ch.key in pc.rest && Candidate(s, pc.name, ch.key) {
      Provenance.PublishOptions(s, pc.name, pc.rest, ch);
    }
  }

  lemma ProcsAfter(s: State, step: Step)
    ensures var procs := Apply(s, step).procs;
            forall q :: q in procs ==>
              || (q in s.procs && (procs[q] == s.procs[q] || (Sweep.AttachPc(procs[q]) <==> Sweep.AttachPc(s.procs[q]))))
              || (step.Spawn? && procs[q] == step.pc)
  {
    hide Decide, Perform, Boot, Open, Put, Write, RemoveEntry, Reaches, Mkdir, StartSupervisor;
    if step.Run? && step.pr in s.procs {
      var op := Decide(s, s.procs[step.pr], step.ch);
      NextKind(s, s.procs[step.pr], step.ch);
      Frame(s, step.pr, op.effect);
      Manifests.OperationProcs(s, step.pr, step.ch);
      hide Apply;
    } else if !step.Run? && !step.Spawn? && !step.Crash? {
      OutsideProcs(s, step);
    } else if step.Spawn? {
      SpawnedProcs(s, step.pr, step.pc);
      hide SpawnProc;
    }
  }

  lemma SpawnedProcs(s: State, pr: ProcId, pc: Pc)
    ensures SpawnProc(s, pr, pc).procs == s.procs || SpawnProc(s, pr, pc).procs == s.procs[pr := pc]
  {
  }

  lemma OutsideProcs(s: State, step: Step)
    requires !step.Run? && !step.Spawn? && !step.Crash?
    ensures Apply(s, step).procs == s.procs
  {
    hide Decide, Perform, Continue, SpawnProc, Boot, Open, Put, Write, RemoveEntry, Reaches;
  }

  predicate SpawnsNone(steps: seq<Step>) { forall j | 0 <= j < |steps| :: !Sweep.Attaches(steps[j]) }
  predicate SpawnsOnly(steps: seq<Step>) { forall j | 0 <= j < |steps| :: steps[j].Spawn? ==> Sweep.Attaches(steps[j]) }

  lemma EntryIsAttach(s: State, pr: ProcId, pc: Pc)
    requires !pc.AttachCheck? && NoAttach(s.procs)
    ensures NoAttach(SpawnProc(s, pr, pc).procs)
  {
  }

  lemma {:induction false} QuietThrough(s: State, steps: seq<Step>, allowed: Clash -> bool)
    requires NoAttach(s.procs) && SpawnsNone(steps)
    ensures Through(s, steps, allowed) && NoAttach(Exec(s, steps).procs)
  {
    hide Apply, SpawnProc;
    if steps == [] {
      NothingRun(s, steps);
      QuietMeets(s.procs, allowed);
    } else {
      var n := |steps| - 1;
      QuietThrough(s, steps[..n], allowed);
      var t := Exec(s, steps[..n]);
      if steps[n].Spawn? { SpawnIs(t, steps[n].pr, steps[n].pc); EntryIsAttach(t, steps[n].pr, steps[n].pc); } else { ProcsAfter(t, steps[n]); }
      assert Exec(s, steps) == Apply(t, steps[n]);
      QuietMeets(Exec(s, steps).procs, allowed);
      ThroughSnoc(s, steps, n, allowed);
    }
  }

  lemma SpawnIs(s: State, pr: ProcId, pc: Pc)
    ensures Apply(s, Spawn(pr, pc)) == SpawnProc(s, pr, pc)
  {
  }

  lemma NothingRun(s: State, steps: seq<Step>)
    requires steps == []
    ensures Exec(s, steps) == s && forall j | 0 <= j <= |steps| :: Exec(s, steps[..j]) == s
  {
  }

  lemma ThroughSnoc(s: State, steps: seq<Step>, n: nat, allowed: Clash -> bool)
    requires |steps| == n + 1 && Through(s, steps[..n], allowed) && Meets(Exec(s, steps).procs, allowed)
    ensures Through(s, steps, allowed)
  {
    hide Apply, Meets, Exec;
    assert steps[..n + 1] == steps;
    forall j | 0 <= j <= |steps| ensures Meets(Exec(s, steps[..j]).procs, allowed) {
      if j <= n { assert steps[..n][..j] == steps[..j]; }
    }
  }

  lemma QuietMeets(procs: map<ProcId, Pc>, allowed: Clash -> bool)
    requires NoAttach(procs)
    ensures Meets(procs, allowed)
  {
  }

  lemma AttachersMeet(procs: map<ProcId, Pc>, allowed: Clash -> bool)
    requires AllAttach(procs) && allowed(Attaching)
    ensures Meets(procs, allowed)
  {
  }

  lemma {:induction false} AttachersThrough(s: State, steps: seq<Step>, allowed: Clash -> bool)
    requires AllAttach(s.procs) && SpawnsOnly(steps) && allowed(Attaching)
    ensures Through(s, steps, allowed) && AllAttach(Exec(s, steps).procs)
  {
    hide Apply;
    if steps == [] {
      NothingRun(s, steps);
      AttachersMeet(s.procs, allowed);
    } else {
      var n := |steps| - 1;
      AttachersThrough(s, steps[..n], allowed);
      var t := Exec(s, steps[..n]);
      ProcsAfter(t, steps[n]);
      assert Exec(s, steps) == Apply(t, steps[n]);
      AttachersMeet(Exec(s, steps).procs, allowed);
      ThroughSnoc(s, steps, n, allowed);
    }
  }

  // ---------------------------------------------------------------- one attach along a run

  lemma OneAttachMeets(procs: map<ProcId, Pc>, pr: ProcId, pc: Pc, allowed: Clash -> bool)
    requires NoAttach(procs) && pr !in procs && Sweep.AttachPc(pc)
    requires forall q :: q in procs ==> Apart(pc.v, procs[q], allowed)
    ensures Meets(procs[pr := pc], allowed)
  {
  }

  /** The processes during an attach that nothing interrupts. */
  lemma AttachProcs(s: State, pr: ProcId, v: VmName, p: Pid)
    requires pr !in s.procs && p in s.alive && v !in s.w.jobs
    ensures var s1 := Apply(s, Spawn(pr, AttachCheck(v, p)));
            var s2 := Apply(s1, Run(pr, ANY));
            var s3 := Apply(s2, Run(pr, ANY));
            var s4 := Apply(s3, Run(pr, ANY));
            && s1.procs == s.procs[pr := AttachCheck(v, p)] && s2.procs == s.procs[pr := AttachOwner(v, p)]
            && s3.procs == s.procs[pr := AttachWrite(v, p)] && s4.procs == s.procs[pr := AttachMkdir(v, p)]
  {
    var s1 := s.(started := s.started + {v});
    assert Apply(s, Spawn(pr, AttachCheck(v, p))) == Continue(s1, pr, Some(AttachCheck(v, p)));
    Reading(s1, pr, AttachCheck(v, p), ANY, AttachOwner(v, p));
    hide Apply, SpawnProc;
    AttachClears(s1, pr, v, p);
    AttachFills(s1.(owners := s.owners - {v}), pr, v, p);
  }

  function AttachAt(v: VmName, p: Pid, j: nat): Pc {
    if j == 1 then AttachCheck(v, p) else if j == 2 then AttachOwner(v, p)
    else if j == 3 then AttachWrite(v, p) else AttachMkdir(v, p)
  }

  lemma AttachMeets(s: State, pr: ProcId, v: VmName, p: Pid, j: nat)
    requires pr !in s.procs && p in s.alive && v !in s.w.jobs && 1 <= j <= 4
    ensures Exec(s, AttachSteps(pr, v, p)[..j]).procs == s.procs[pr := AttachAt(v, p, j)]
  {
    hide *;
    var all := AttachSteps(pr, v, p);
    AttachProcs(s, pr, v, p);
    AttachAtSteps(pr, v, p);
    FirstFour(s, all, Spawn(pr, AttachCheck(v, p)), Run(pr, ANY));
    if j == 1 { assert all[..j] == all[..1]; }
    else if j == 2 { assert all[..j] == all[..2]; }
    else if j == 3 { assert all[..j] == all[..3]; }
    else { assert all[..j] == all[..4]; }
  }

  lemma AttachAtSteps(pr: ProcId, v: VmName, p: Pid)
    ensures AttachSteps(pr, v, p) == [Spawn(pr, AttachCheck(v, p)), Run(pr, ANY), Run(pr, ANY), Run(pr, ANY), Run(pr, ANY)]
    ensures AttachAt(v, p, 1) == AttachCheck(v, p) && AttachAt(v, p, 2) == AttachOwner(v, p)
    ensures AttachAt(v, p, 3) == AttachWrite(v, p) && AttachAt(v, p, 4) == AttachMkdir(v, p)
  {
  }

  lemma AttachThrough(s: State, pr: ProcId, v: VmName, p: Pid, allowed: Clash -> bool)
    requires Idle(s, pr) && p in s.alive && v !in s.w.jobs && NoAttach(s.procs)
    requires forall q :: q in s.procs ==> Apart(v, s.procs[q], allowed)
    ensures Through(s, AttachSteps(pr, v, p), allowed)
    ensures Exec(s, AttachSteps(pr, v, p)) ==
            s.(w := NewLayer(s.w, v, Some(p), {}), owners := s.owners[v := p], started := s.started + {v}, made := s.made + {v})
  {
    AttachAlone(s, pr, v, p);
    QuietMeets(s.procs, allowed);
    var a := AttachSteps(pr, v, p);
    assert |a| == 5 && a[..5] == a && a[..0] == [];
    NothingRun(s, a[..0]);
    hide Apply, Exec, Meets, NewLayer, NoAttach, Apart, AttachSteps;
    forall j | 0 <= j <= |a| ensures Meets(Exec(s, a[..j]).procs, allowed) {
      if 0 < j < 5 { DuringAttach(s, pr, v, p, j, allowed); }
    }
  }

  lemma DuringAttach(s: State, pr: ProcId, v: VmName, p: Pid, j: nat, allowed: Clash -> bool)
    requires Idle(s, pr) && p in s.alive && v !in s.w.jobs && NoAttach(s.procs) && 1 <= j <= 4
    requires forall q :: q in s.procs ==> Apart(v, s.procs[q], allowed)
    ensures |AttachSteps(pr, v, p)| == 5 && Meets(Exec(s, AttachSteps(pr, v, p)[..j]).procs, allowed)
  {
    hide Apply, Exec, Meets, NoAttach, Apart;
    AttachMeets(s, pr, v, p, j);
    OneAttachMeets(s.procs, pr, AttachAt(v, p, j), allowed);
  }

  lemma FirstFour(s: State, all: seq<Step>, a: Step, b: Step)
    requires all == [a, b, b, b, b]
    ensures Exec(s, all[..1]) == Apply(s, a) && Exec(s, all[..2]) == Apply(Apply(s, a), b)
    ensures Exec(s, all[..3]) == Apply(Apply(Apply(s, a), b), b)
    ensures Exec(s, all[..4]) == Apply(Apply(Apply(Apply(s, a), b), b), b)
  {
    hide Apply;
    assert all[..1] == [a] && all[..2] == [a] + [b] && all[..3] == [a] + [b] + [b] && all[..4] == [a] + [b] + [b] + [b];
    ExecOne(s, a);
    ExecSnoc(s, [a], b);
    ExecSnoc(s, [a] + [b], b);
    ExecSnoc(s, [a] + [b] + [b], b);
  }

  // -------------------------------------------------------------------- the sweep that follows

  function SweepSteps(pr: ProcId, v: VmName): seq<Step> {
    [Spawn(pr, SweepList), Run(pr, ANY)] + [Run(pr, ANY.(text := v))] + [Run(pr, ANY)] + [Run(pr, ANY)]
  }

  function OnRecord(s: State, v: VmName): Option<Pid> { if v in s.owners then Some(s.owners[v]) else None }

  lemma SweepReads(s: State, pr: ProcId, v: VmName)
    ensures Apply(Continue(s, pr, Some(SweepLoop({v}))), Run(pr, ANY.(text := v))) ==
            Continue(s, pr, Some(SweepTest(v, {}, OnRecord(s, v))))
  {
    assert {v} - {v} == {};
    Reading(s, pr, SweepLoop({v}), ANY.(text := v), SweepTest(v, {}, OnRecord(s, v)));
  }

  lemma SweepTests(s: State, pr: ProcId, v: VmName, owner: Option<Pid>)
    requires owner.Some? ==> owner.value !in s.alive
    ensures Apply(Continue(s, pr, Some(SweepTest(v, {}, owner))), Run(pr, ANY)) == Continue(s, pr, Some(SweepDead(v, {})))
  {
    Reading(s, pr, SweepTest(v, {}, owner), ANY, SweepDead(v, {}));
  }

  lemma SweepAims(s: State, pr: ProcId, v: VmName)
    ensures Apply(Continue(s, pr, Some(SweepDead(v, {}))), Run(pr, ANY)) ==
            Continue(s, pr, Some(SweepMove(v, {}, UniqueTarget(s.discard, v, ANY.text))))
  {
    Reading(s, pr, SweepDead(v, {}), ANY, SweepMove(v, {}, UniqueTarget(s.discard, v, ANY.text)));
  }

  lemma SweepState(s: State, pr: ProcId, v: VmName)
    requires pr !in s.procs && s.w.jobs.Keys == {v} && (v in s.owners ==> s.owners[v] !in s.alive)
    ensures Exec(s, SweepSteps(pr, v)) == Continue(s, pr, Some(SweepMove(v, {}, UniqueTarget(s.discard, v, ANY.text))))
  {
    var list := [Spawn(pr, SweepList), Run(pr, ANY)];
    SweepLists(s, pr);
    hide Apply, Continue;
    SweepReads(s, pr, v);
    SweepTests(s, pr, v, OnRecord(s, v));
    SweepAims(s, pr, v);
    ExecSnoc(s, list, Run(pr, ANY.(text := v)));
    ExecSnoc(s, list + [Run(pr, ANY.(text := v))], Run(pr, ANY));
    ExecSnoc(s, list + [Run(pr, ANY.(text := v))] + [Run(pr, ANY)], Run(pr, ANY));
  }

  /** A sweep that finds no live owner on record is about to move the layer, whoever owns it. */
  lemma SweepFinds(s: State, pr: ProcId, v: VmName, p: Pid)
    requires pr !in s.procs && s.w.jobs.Keys == {v} && s.w.jobs[v] < |s.w.layers| && s.w.layers[s.w.jobs[v]].owner == Some(p)
    requires p in s.alive && (v in s.owners ==> s.owners[v] !in s.alive) && v + "." + ANY.text !in s.discard
    ensures Sweep.SweepsLive(Exec(s, SweepSteps(pr, v)), Run(pr, ANY))
  {
    SweepState(s, pr, v);
    hide Exec, SweepSteps;
  }

  lemma SweepIsQuiet(pr: ProcId, v: VmName)
    ensures SpawnsNone(SweepSteps(pr, v))
  {
  }

  /** A run in three parts: before the attach, the attach, and after it. */
  lemma ThreeParts(pre: seq<Step>, pr: ProcId, v: VmName, p: Pid, post: seq<Step>, allowed: Clash -> bool)
    requires var s := Exec(Init(), pre);
             && Through(Init(), pre, allowed) && NoAttach(s.procs) && Idle(s, pr) && p in s.alive && v !in s.w.jobs
             && forall q :: q in s.procs ==> Apart(v, s.procs[q], allowed)
    requires SpawnsNone(post)
    ensures RunMeets(pre + AttachSteps(pr, v, p) + post, allowed)
    ensures var s := Exec(Init(), pre);
            Exec(Init(), pre + AttachSteps(pr, v, p)) ==
            s.(w := NewLayer(s.w, v, Some(p), {}), owners := s.owners[v := p], started := s.started + {v}, made := s.made + {v})
  {
    hide Apply, Meets, AttachSteps, NewLayer;
    var s := Exec(Init(), pre);
    AttachThrough(s, pr, v, p, allowed);
    ExecAppend(Init(), pre, AttachSteps(pr, v, p));
    ThroughAppend(Init(), pre, AttachSteps(pr, v, p), allowed);
    var t := Exec(Init(), pre + AttachSteps(pr, v, p));
    assert t.procs == s.procs;
    QuietThrough(t, post, allowed);
    ThroughAppend(Init(), pre + AttachSteps(pr, v, p), post, allowed);
  }

  // -------------------------------------------------- a settle about to unlink the owner file

  /** One life of `v`: attached by supervisor 0, and settled red up to the rename. */
  function SettledPre(v: VmName): seq<Step> { [SupStart(0)] + AttachSteps(0, v, 0) + SettleSteps(2, v, false) }

  lemma FirstLife(v: VmName, allowed: Clash -> bool)
    ensures var a := [SupStart(0)] + AttachSteps(0, v, 0);
            && Through(Init(), a, allowed)
            && var s := Exec(Init(), a);
               && s.alive == {0} && s.procs == map[] && s.w.jobs == map[v := 0] && s.owners == map[v := 0] && s.discard == map[]
               && s.locks == map[] && s.manifestLock == None && s.w.layers == [Layer(v, Some(0), Pending, map[], {}, false)]
  {
    var s1 := Exec(Init(), [SupStart(0)]);
    ExecOne(Init(), SupStart(0));
    assert s1 == Init().(alive := {0}, born := {0});
    QuietThrough(Init(), [SupStart(0)], allowed);
    AttachThrough(s1, 0, v, 0, allowed);
    hide Apply;
    ExecAppend(Init(), [SupStart(0)], AttachSteps(0, v, 0));
    ThroughAppend(Init(), [SupStart(0)], AttachSteps(0, v, 0), allowed);
  }

  lemma SettledState(v: VmName, allowed: Clash -> bool)
    ensures Through(Init(), SettledPre(v), allowed)
    ensures var s := Exec(Init(), SettledPre(v));
            && s.alive == {0} && s.procs == map[2 := SettleOwner(v, false, v)] && s.w.jobs == map[] && s.discard.Keys == {v}
            && s.locks == map[] && s.manifestLock == None && |s.w.layers| == 1
  {
    FirstLife(v, allowed);
    var a := [SupStart(0)] + AttachSteps(0, v, 0);
    var s := Exec(Init(), a);
    hide Apply, AttachSteps;
    SettleToRename(s, 2, v, false);
    ExecAppend(Init(), a, SettleSteps(2, v, false));
    QuietThrough(s, SettleSteps(2, v, false), allowed);
    ThroughAppend(Init(), a, SettleSteps(2, v, false), allowed);
  }

  function SettleRun(v: VmName): seq<Step> {
    SettledPre(v) + AttachSteps(3, v, 0) + ([Run(2, ANY)] + SweepSteps(1, v))
  }

  lemma SettleLets(s: State, v: VmName)
    requires s.procs == map[2 := SettleOwner(v, false, v)]
    ensures var t := Apply(s, Run(2, ANY));
            t.owners == s.owners - {v} && t.procs == map[] && t.w == s.w && t.alive == s.alive && t.discard == s.discard
  {
    Operation(s, 2, ANY, Op(ClearOwner(v), None));
    hide Apply;
    assert s.procs - {2} == map[];
  }

  lemma UnlinkAfter(s: State, v: VmName, l: nat)
    requires s.alive == {0} && s.procs == map[2 := SettleOwner(v, false, v)] && s.w.jobs == map[v := l] && l < |s.w.layers|
    requires s.w.layers[l].owner == Some(0) && s.discard.Keys == {v}
    ensures Sweep.SweepsLive(Exec(s, [Run(2, ANY)] + SweepSteps(1, v)), Run(1, ANY))
  {
    SettleLets(s, v);
    ExecOne(s, Run(2, ANY));
    ExecAppend(s, [Run(2, ANY)], SweepSteps(1, v));
    hide Apply, SweepSteps;
    assert |v + "." + ANY.text| > |v|;
    SweepFinds(Exec(s, [Run(2, ANY)]), 1, v, 0);
  }

  lemma SettleUnlinkingBreaks(v: VmName, allowed: Clash -> bool)
    requires allowed(SettleUnlinking)
    ensures RunMeets(SettleRun(v), allowed) && Sweep.SweepsLive(Exec(Init(), SettleRun(v)), Run(1, ANY))
  {
    SettledState(v, allowed);
    SweepIsQuiet(1, v);
    var post := [Run(2, ANY)] + SweepSteps(1, v);
    ThreeParts(SettledPre(v), 3, v, 0, post, allowed);
    hide Apply, SettledPre, AttachSteps, SweepSteps;
    ExecAppend(Init(), SettledPre(v) + AttachSteps(3, v, 0), post);
    UnlinkAfter(Exec(Init(), SettledPre(v) + AttachSteps(3, v, 0)), v, 1);
  }

  // -------------------------------------------------- a sweep that holds the name already

  /** The first life of `v` is over, and a sweep that began in it has found that `v` has no owner. */
  function HeldPre(v: VmName): seq<Step> { [SupStart(0)] + AttachSteps(0, v, 0) + HeldSteps(v) }

  function HeldSteps(v: VmName): seq<Step> {
    [Spawn(1, SweepList), Run(1, ANY)] + (SettleSteps(2, v, false) + [Run(2, ANY)]) + [Run(1, ANY.(text := v))] + [Run(1, ANY)]
  }

  lemma HeldState(v: VmName, allowed: Clash -> bool)
    ensures Through(Init(), HeldPre(v), allowed)
    ensures var s := Exec(Init(), HeldPre(v));
            && s.alive == {0} && s.procs == map[1 := SweepDead(v, {})] && s.w.jobs == map[] && s.discard.Keys == {v}
            && s.locks == map[] && s.manifestLock == None
  {
    FirstLife(v, allowed);
    HeldExec(v);
    QuietHeld(v);
    var a := [SupStart(0)] + AttachSteps(0, v, 0);
    hide Apply, AttachSteps, HeldSteps;
    QuietThrough(Exec(Init(), a), HeldSteps(v), allowed);
    ThroughAppend(Init(), a, HeldSteps(v), allowed);
  }

  lemma HeldExec(v: VmName)
    ensures var s := Exec(Init(), HeldPre(v));
            && s.alive == {0} && s.procs == map[1 := SweepDead(v, {})] && s.w.jobs == map[] && s.discard.Keys == {v}
            && s.locks == map[] && s.manifestLock == None
  {
    PreludeState(v, 0);
    HeldIs(v);
    hide Apply, Prelude;
    var s := Exec(Init(), Prelude(v, 0));
    assert {v} - {v} == {};
    Operation(s, 1, ANY.(text := v), Op(LayerProtocol.Nothing, Some(SweepTest(v, {}, None))));
    var t := Apply(s, Run(1, ANY.(text := v)));
    Operation(t, 1, ANY, Op(LayerProtocol.Nothing, Some(SweepDead(v, {}))));
    ExecSnoc(Init(), Prelude(v, 0), Run(1, ANY.(text := v)));
    ExecSnoc(Init(), Prelude(v, 0) + [Run(1, ANY.(text := v))], Run(1, ANY));
  }

  lemma HeldIs(v: VmName)
    ensures HeldPre(v) == Prelude(v, 0) + [Run(1, ANY.(text := v))] + [Run(1, ANY)]
  {
    hide AttachSteps, SettleSteps;
  }

  lemma QuietHeld(v: VmName)
    ensures SpawnsNone(HeldSteps(v))
  {
  }

  function HeldRun(v: VmName): seq<Step> { HeldPre(v) + AttachSteps(3, v, 0) + [Run(1, ANY)] }

  lemma HoldingBreaks(v: VmName, allowed: Clash -> bool)
    requires allowed(Holding)
    ensures RunMeets(HeldRun(v), allowed) && Sweep.SweepsLive(Exec(Init(), HeldRun(v)), Run(1, ANY))
  {
    HeldState(v, allowed);
    ThreeParts(HeldPre(v), 3, v, 0, [Run(1, ANY)], allowed);
    hide Apply, HeldPre, AttachSteps;
    var t := Exec(Init(), HeldPre(v) + AttachSteps(3, v, 0));
    ExecSnoc(Init(), HeldPre(v) + AttachSteps(3, v, 0), Run(1, ANY));
    SweepTakesTarget(t, v, 0);
  }

  // ------------------------------------- a sweep between reading the owner and testing its pid

  /** Read while 0 owned `v`; since then 0 settled its layer and died, and 1 was started. */
  function TestedSteps(v: VmName): seq<Step> {
    [Spawn(1, SweepList), Run(1, ANY)] + [Run(1, ANY.(text := v))] + (SettleSteps(2, v, false) + [Run(2, ANY)])
      + ([SupStart(1)] + [SupDie(0)])
  }

  function TestedPre(v: VmName): seq<Step> { [SupStart(0)] + AttachSteps(0, v, 0) + TestedSteps(v) }

  lemma ReadFirst(s: State, v: VmName)
    requires s.procs == map[] && s.w.jobs.Keys == {v} && v in s.owners && s.owners[v] == 0
    ensures Exec(s, [Spawn(1, SweepList), Run(1, ANY)] + [Run(1, ANY.(text := v))]) ==
            s.(procs := map[1 := SweepTest(v, {}, Some(0))])
  {
    SweepLists(s, 1);
    hide Apply;
    SweepReads(s, 1, v);
    ExecSnoc(s, [Spawn(1, SweepList), Run(1, ANY)], Run(1, ANY.(text := v)));
  }

  lemma TestedExec(s: State, v: VmName)
    requires s.alive == {0} && s.born == {0} && s.procs == map[] && s.w.jobs == map[v := 0] && |s.w.layers| == 1
    requires s.owners == map[v := 0] && s.discard == map[] && s.locks == map[] && s.manifestLock == None
    ensures var t := Exec(s, TestedSteps(v));
            && t.alive == {1} && t.procs == map[1 := SweepTest(v, {}, Some(0))] && t.w.jobs == map[] && t.discard.Keys == {v}
            && t.locks == map[] && t.manifestLock == None
  {
    var read, settle := [Spawn(1, SweepList), Run(1, ANY)] + [Run(1, ANY.(text := v))], SettleSteps(2, v, false) + [Run(2, ANY)];
    ReadFirst(s, v);
    var s1 := s.(procs := map[1 := SweepTest(v, {}, Some(0))]);
    RedSettle(s1, 2, v);
    var s2 := Settled(s1, v, false).(owners := s1.owners - {v});
    hide Apply, SettleSteps;
    LivesChange(s2);
    ExecAppend(s, read, settle);
    ExecAppend(s, read + settle, [SupStart(1)] + [SupDie(0)]);
  }

  lemma TestedState(v: VmName, allowed: Clash -> bool)
    ensures Through(Init(), TestedPre(v), allowed)
    ensures var s := Exec(Init(), TestedPre(v));
            && s.alive == {1} && s.procs == map[1 := SweepTest(v, {}, Some(0))] && s.w.jobs == map[] && s.discard.Keys == {v}
            && s.locks == map[] && s.manifestLock == None
  {
    FirstLife(v, allowed);
    OnlyOneBorn(v);
    QuietTested(v);
    var a := [SupStart(0)] + AttachSteps(0, v, 0);
    hide Apply, AttachSteps, TestedSteps;
    TestedExec(Exec(Init(), a), v);
    ExecAppend(Init(), a, TestedSteps(v));
    QuietThrough(Exec(Init(), a), TestedSteps(v), allowed);
    ThroughAppend(Init(), a, TestedSteps(v), allowed);
  }

  lemma QuietTested(v: VmName)
    ensures SpawnsNone(TestedSteps(v)) && SpawnsNone([Run(1, ANY)] + [Run(1, ANY)])
  {
  }

  function TestedRun(v: VmName): seq<Step> { TestedPre(v) + AttachSteps(3, v, 1) + ([Run(1, ANY)] + [Run(1, ANY)]) }

  /** The pid read from the last life of the name is dead; the layer now is the one of supervisor 1. */
  lemma TestedTakes(s: State, v: VmName)
    requires s.alive == {1} && s.procs == map[1 := SweepTest(v, {}, Some(0))] && s.discard.Keys == {v}
    requires v in s.w.jobs && s.w.jobs[v] < |s.w.layers| && s.w.layers[s.w.jobs[v]].owner == Some(1)
    ensures Sweep.SweepsLive(Exec(s, [Run(1, ANY)] + [Run(1, ANY)]), Run(1, ANY))
  {
    var s0 := s.(procs := map[]);
    assert s == Continue(s0, 1, Some(SweepTest(v, {}, Some(0))));
    SweepTests(s0, 1, v, Some(0));
    hide Apply, Decide, Perform;
    SweepTakesTarget(Apply(s, Run(1, ANY)), v, 1);
    ExecOne(s, Run(1, ANY));
    ExecSnoc(s, [Run(1, ANY)], Run(1, ANY));
  }

  lemma TestingBreaks(v: VmName, allowed: Clash -> bool)
    requires allowed(Testing)
    ensures RunMeets(TestedRun(v), allowed) && Sweep.SweepsLive(Exec(Init(), TestedRun(v)), Run(1, ANY))
  {
    TestedState(v, allowed);
    QuietTested(v);
    var post := [Run(1, ANY)] + [Run(1, ANY)];
    ThreeParts(TestedPre(v), 3, v, 1, post, allowed);
    hide Apply, TestedPre, AttachSteps;
    var s := Exec(Init(), TestedPre(v) + AttachSteps(3, v, 1));
    ExecAppend(Init(), TestedPre(v) + AttachSteps(3, v, 1), post);
    NewLayerOwner(Exec(Init(), TestedPre(v)).w, v, 1);
    TestedTakes(s, v);
  }

  // --------------------------------------------------- a sweep about to unlink the owner file

  /** Supervisor 0 died, a sweep moved its layer, and has still to unlink its owner file. */
  function SweptPre(v: VmName): seq<Step> {
    [SupStart(0)] + AttachSteps(0, v, 0) + ([SupStart(1)] + [SupDie(0)] + SweepSteps(1, v) + [Run(1, ANY)])
  }

  lemma LivesChange(s: State)
    requires s.alive == {0} && 1 !in s.born
    ensures Exec(s, [SupStart(1)] + [SupDie(0)]) == s.(alive := {1}, born := s.born + {1})
  {
    ExecOne(s, SupStart(1));
    ExecSnoc(s, [SupStart(1)], SupDie(0));
  }

  lemma SweepMoves(s: State, v: VmName)
    requires s.w.jobs == map[v := 0] && |s.w.layers| == 1 && s.discard == map[] && s.procs == map[]
    ensures var t := Apply(Continue(s, 1, Some(SweepMove(v, {}, v))), Run(1, ANY));
            && t.procs == map[1 := SweepOwner(v, {})] && t.w.jobs == map[] && t.discard.Keys == {v} && |t.w.layers| == 1
            && t.alive == s.alive && t.born == s.born && t.locks == s.locks && t.manifestLock == s.manifestLock
  {
    var u := Continue(s, 1, Some(SweepMove(v, {}, v)));
    Operation(u, 1, ANY, Op(ToDiscard(v, v, Orphaned), Some(SweepOwner(v, {}))));
  }

  lemma SweptState(v: VmName, allowed: Clash -> bool)
    ensures Through(Init(), SweptPre(v), allowed)
    ensures var s := Exec(Init(), SweptPre(v));
            && s.alive == {1} && s.procs == map[1 := SweepOwner(v, {})] && s.w.jobs == map[] && s.discard.Keys == {v}
            && s.locks == map[] && s.manifestLock == None && |s.w.layers| == 1
  {
    FirstLife(v, allowed);
    var a := [SupStart(0)] + AttachSteps(0, v, 0);
    var lives := [SupStart(1)] + [SupDie(0)];
    var s := Exec(Init(), a);
    OnlyOneBorn(v);
    LivesChange(s);
    var t := s.(alive := {1}, born := s.born + {1});
    hide Apply, AttachSteps, SweepSteps;
    SweepState(t, 1, v);
    SweepMoves(t, v);
    ExecAppend(s, lives, SweepSteps(1, v));
    ExecSnoc(s, lives + SweepSteps(1, v), Run(1, ANY));
    ExecAppend(Init(), a, lives + SweepSteps(1, v) + [Run(1, ANY)]);
    QuietSwept(v);
    QuietThrough(s, lives + SweepSteps(1, v) + [Run(1, ANY)], allowed);
    ThroughAppend(Init(), a, lives + SweepSteps(1, v) + [Run(1, ANY)], allowed);
  }

  lemma OnlyOneBorn(v: VmName)
    ensures Exec(Init(), [SupStart(0)] + AttachSteps(0, v, 0)).born == {0}
  {
    var s1 := Exec(Init(), [SupStart(0)]);
    ExecOne(Init(), SupStart(0));
    assert s1 == Init().(alive := {0}, born := {0});
    AttachAlone(s1, 0, v, 0);
    hide Apply;
    ExecAppend(Init(), [SupStart(0)], AttachSteps(0, v, 0));
  }

  lemma QuietSwept(v: VmName)
    ensures SpawnsNone([SupStart(1)] + [SupDie(0)] + SweepSteps(1, v) + [Run(1, ANY)])
  {
  }

  function SweptPost(v: VmName): seq<Step> { [Run(1, ANY)] + [Run(1, ANY)] + SweepSteps(4, v) }

  function SweptRun(v: VmName): seq<Step> { SweptPre(v) + AttachSteps(3, v, 1) + SweptPost(v) }

  lemma SweepEnds(s: State, v: VmName)
    requires s.procs == map[1 := SweepOwner(v, {})] && s.locks == map[] && s.manifestLock == None
    ensures Exec(s, [Run(1, ANY)] + [Run(1, ANY)]) == s.(owners := s.owners - {v}, procs := map[])
  {
    ExecOne(s, Run(1, ANY));
    Operation(s, 1, ANY, Op(ClearOwner(v), Some(SweepLoop({}))));
    var t := Apply(s, Run(1, ANY));
    assert t == s.(owners := s.owners - {v}, procs := map[1 := SweepLoop({})]);
    Operation(t, 1, ANY, Op(LayerProtocol.Nothing, None));
    ExecSnoc(s, [Run(1, ANY)], Run(1, ANY));
    hide Apply;
    assert Continue(t, 1, None).procs == map[] && Continue(t, 1, None).locks == map[];
  }

  lemma SweptAfter(s: State, v: VmName)
    requires s.alive == {1} && s.procs == map[1 := SweepOwner(v, {})] && s.w.jobs == map[v := 1] && |s.w.layers| == 2
    requires s.w.layers[1].owner == Some(1) && s.discard.Keys == {v} && s.locks == map[] && s.manifestLock == None
    ensures Sweep.SweepsLive(Exec(s, SweptPost(v)), Run(4, ANY))
  {
    SweepEnds(s, v);
    var t := s.(owners := s.owners - {v}, procs := map[]);
    hide Apply, SweepSteps;
    assert |v + "." + ANY.text| > |v|;
    SweepFinds(t, 4, v, 1);
    ExecAppend(s, [Run(1, ANY)] + [Run(1, ANY)], SweepSteps(4, v));
  }

  lemma SweepUnlinkingBreaks(v: VmName, allowed: Clash -> bool)
    requires allowed(SweepUnlinking)
    ensures RunMeets(SweptRun(v), allowed) && Sweep.SweepsLive(Exec(Init(), SweptRun(v)), Run(4, ANY))
  {
    SweptState(v, allowed);
    SweptQuiet(v);
    ThreeParts(SweptPre(v), 3, v, 1, SweptPost(v), allowed);
    hide Apply, SweptPre, AttachSteps, SweptPost;
    ExecAppend(Init(), SweptPre(v) + AttachSteps(3, v, 1), SweptPost(v));
    SweptAfter(Exec(Init(), SweptPre(v) + AttachSteps(3, v, 1)), v);
  }

  lemma SweptQuiet(v: VmName)
    ensures SpawnsNone(SweptPost(v))
  {
  }

  // ------------------------------------------------------------------- two attaches at once

  /** Both find no layer; 0 makes it and 1 writes its owner over 0's. */
  function Crossed(v: VmName): seq<Step> {
    [SupStart(0)] + [SupStart(1)] + [Spawn(0, AttachCheck(v, 0))] + [Run(0, ANY)] + [Spawn(3, AttachCheck(v, 1))] + [Run(3, ANY)]
      + [Run(0, ANY)] + [Run(0, ANY)] + [Run(0, ANY)] + [Run(3, ANY)] + [Run(3, ANY)] + [Run(3, ANY)]
  }

  /** Both attaches have found no layer. */
  predicate BothFree(s: State, v: VmName) {
    && s.procs == map[0 := AttachOwner(v, 0), 3 := AttachOwner(v, 1)] && s.alive == {0, 1} && s.w.jobs == map[]
    && s.discard == map[] && s.locks == map[] && s.manifestLock == None && s.w.layers == []
  }

  lemma SpawnAttach(s: State, pr: ProcId, v: VmName, p: Pid)
    requires pr !in s.procs && p in s.alive && v !in s.w.jobs
    ensures var t := Apply(Apply(s, Spawn(pr, AttachCheck(v, p))), Run(pr, ANY));
            t == s.(started := s.started + {v}, procs := s.procs[pr := AttachOwner(v, p)])
  {
    var s1 := Apply(s, Spawn(pr, AttachCheck(v, p)));
    assert s1 == s.(started := s.started + {v}, procs := s.procs[pr := AttachCheck(v, p)]);
    hide Apply, SpawnProc;
    Operation(s1, pr, ANY, Op(LayerProtocol.Nothing, Some(AttachOwner(v, p))));
    assert s.procs[pr := AttachCheck(v, p)][pr := AttachOwner(v, p)] == s.procs[pr := AttachOwner(v, p)];
  }

  lemma CrossedFree(v: VmName)
    ensures BothFree(Exec(Init(), [SupStart(0)] + [SupStart(1)] + [Spawn(0, AttachCheck(v, 0))] + [Run(0, ANY)]
                                  + [Spawn(3, AttachCheck(v, 1))] + [Run(3, ANY)]), v)
  {
    var a := [SupStart(0)] + [SupStart(1)];
    ExecOne(Init(), SupStart(0));
    ExecSnoc(Init(), [SupStart(0)], SupStart(1));
    var s := Exec(Init(), a);
    assert s == Init().(alive := {0, 1}, born := {0, 1});
    hide Apply;
    SpawnAttach(s, 0, v, 0);
    ExecSnoc(Init(), a, Spawn(0, AttachCheck(v, 0)));
    ExecSnoc(Init(), a + [Spawn(0, AttachCheck(v, 0))], Run(0, ANY));
    var b := a + [Spawn(0, AttachCheck(v, 0))] + [Run(0, ANY)];
    var t := Exec(Init(), b);
    SpawnAttach(t, 3, v, 1);
    ExecSnoc(Init(), b, Spawn(3, AttachCheck(v, 1)));
    ExecSnoc(Init(), b + [Spawn(3, AttachCheck(v, 1))], Run(3, ANY));
  }

  /** 0 has made the layer, and 1 is about to write its owner. */
  predicate OneMade(s: State, v: VmName) {
    && s.procs == map[3 := AttachOwner(v, 1)] && s.alive == {0, 1} && s.w.jobs == map[v := 0] && s.discard == map[]
    && s.locks == map[] && s.manifestLock == None && |s.w.layers| == 1 && s.w.layers[0].owner == Some(0)
  }

  lemma FirstMakes(s: State, v: VmName)
    requires BothFree(s, v)
    ensures OneMade(Apply(Apply(Apply(s, Run(0, ANY)), Run(0, ANY)), Run(0, ANY)), v)
  {
    var s0 := s.(procs := map[3 := AttachOwner(v, 1)]);
    assert s == Continue(s0, 0, Some(AttachOwner(v, 0)));
    hide Apply, NewLayer;
    AttachClears(s0, 0, v, 0);
    AttachFills(s0.(owners := s.owners - {v}), 0, v, 0);
    AttachMakes(s0.(owners := (s.owners - {v})[v := 0]), 0, v, 0);
    FirstLayer(s0.(owners := (s.owners - {v})[v := 0]), v);
  }

  lemma FirstLayer(s: State, v: VmName)
    requires s.w.jobs == map[] && s.w.layers == []
    ensures var w := NewLayer(s.w, v, Some(0), {}); w.jobs == map[v := 0] && |w.layers| == 1 && w.layers[0].owner == Some(0)
  {
  }

  lemma SecondWrites(s: State, v: VmName)
    requires OneMade(s, v)
    ensures Apply(Apply(Apply(s, Run(3, ANY)), Run(3, ANY)), Run(3, ANY)) == s.(owners := s.owners[v := 1], procs := map[])
  {
    var s0 := s.(procs := map[]);
    assert s == Continue(s0, 3, Some(AttachOwner(v, 1)));
    hide Apply;
    AttachClears(s0, 3, v, 1);
    AttachFills(s0.(owners := s.owners - {v}), 3, v, 1);
    assert (s.owners - {v})[v := 1] == s.owners[v := 1];
    MkdirFails(s0.(owners := s.owners[v := 1]), v);
  }

  /** The directory is there already. */
  lemma MkdirFails(s: State, v: VmName)
    requires s.procs == map[] && s.locks == map[] && s.manifestLock == None && v in s.w.jobs
    ensures Apply(Continue(s, 3, Some(AttachMkdir(v, 1))), Run(3, ANY)) == s
  {
    var t := Continue(s, 3, Some(AttachMkdir(v, 1)));
    Operation(t, 3, ANY, Op(LayerProtocol.Nothing, None));
    hide Apply;
    ContinueEnds(s, t, 3, AttachMkdir(v, 1));
  }

  lemma CrossedState(v: VmName)
    ensures var s := Exec(Init(), Crossed(v));
            && s.procs == map[] && s.alive == {0, 1} && s.w.jobs == map[v := 0] && s.discard == map[]
            && |s.w.layers| == 1 && s.w.layers[0].owner == Some(0) && v in s.owners && s.owners[v] == 1
  {
    CrossedFree(v);
    hide Apply;
    var a := [SupStart(0)] + [SupStart(1)] + [Spawn(0, AttachCheck(v, 0))] + [Run(0, ANY)] + [Spawn(3, AttachCheck(v, 1))] + [Run(3, ANY)];
    FirstMakes(Exec(Init(), a), v);
    ThreeMore(Init(), a, Run(0, ANY));
    var b := a + [Run(0, ANY)] + [Run(0, ANY)] + [Run(0, ANY)];
    SecondWrites(Exec(Init(), b), v);
    ThreeMore(Init(), b, Run(3, ANY));
  }

  lemma ThreeMore(s: State, a: seq<Step>, step: Step)
    ensures Exec(s, a + [step] + [step] + [step]) == Apply(Apply(Apply(Exec(s, a), step), step), step)
  {
    hide Apply;
    ExecSnoc(s, a, step);
    ExecSnoc(s, a + [step], step);
    ExecSnoc(s, a + [step] + [step], step);
  }

  function CrossedRun(v: VmName): seq<Step> { Crossed(v) + ([SupDie(1)] + SweepSteps(1, v)) }

  lemma CrossedAfter(s: State, v: VmName)
    requires s.procs == map[] && s.alive == {0, 1} && s.w.jobs == map[v := 0] && s.discard == map[]
    requires |s.w.layers| == 1 && s.w.layers[0].owner == Some(0) && v in s.owners && s.owners[v] == 1
    ensures Sweep.SweepsLive(Exec(s, [SupDie(1)] + SweepSteps(1, v)), Run(1, ANY))
  {
    ExecOne(s, SupDie(1));
    ExecAppend(s, [SupDie(1)], SweepSteps(1, v));
    var t := s.(alive := {0, 1} - {1});
    assert Exec(s, [SupDie(1)]) == t;
    hide Apply, SweepSteps;
    SweepFinds(t, 1, v, 0);
  }

  lemma CrossedSpawns(v: VmName)
    ensures SpawnsOnly(Crossed(v)) && SpawnsNone([SupDie(1)] + SweepSteps(1, v))
  {
  }

  lemma AttachingBreaks(v: VmName, allowed: Clash -> bool)
    requires allowed(Attaching)
    ensures RunMeets(CrossedRun(v), allowed) && Sweep.SweepsLive(Exec(Init(), CrossedRun(v)), Run(1, ANY))
  {
    CrossedState(v);
    CrossedSpawns(v);
    var post := [SupDie(1)] + SweepSteps(1, v);
    AttachersThrough(Init(), Crossed(v), allowed);
    var s := Exec(Init(), Crossed(v));
    hide Apply, Crossed, SweepSteps;
    QuietThrough(s, post, allowed);
    ThroughAppend(Init(), Crossed(v), post, allowed);
    ExecAppend(Init(), Crossed(v), post);
    CrossedAfter(s, v);
  }

  // ------------------------------------------------------------------------- the exact limit

  lemma NoneAllowed(steps: seq<Step>, allowed: Clash -> bool)
    requires RunMeets(steps, allowed) && forall c :: !allowed(c)
    ensures RunMeets(steps, LayerReuse.Nothing())
  {
    hide Apply, Exec;
    forall j | 0 <= j <= |steps| ensures Meets(Exec(Init(), steps[..j]).procs, LayerReuse.Nothing()) {
      assert Meets(Exec(Init(), steps[..j]).procs, allowed);
      NoneMeet(Exec(Init(), steps[..j]).procs, allowed);
    }
  }

  lemma NoneMeet(procs: map<ProcId, Pc>, allowed: Clash -> bool)
    requires Meets(procs, allowed) && forall c :: !allowed(c)
    ensures Meets(procs, LayerReuse.Nothing())
  {
    forall pr, q | pr in procs && q in procs && pr != q && Sweep.AttachPc(procs[pr])
      ensures Apart(procs[pr].v, procs[q], LayerReuse.Nothing()) {
      assert Apart(procs[pr].v, procs[q], allowed);
    }
  }

  /**
   Reused names are safe exactly when attaches are kept apart from all five: whatever meetings are
   allowed, all runs with only those spare the living if and only if none is allowed.
   */
  lemma MeetingsAreExact(allowed: Clash -> bool)
    ensures (forall c :: !allowed(c)) <==>
      forall steps, step :: RunMeets(steps, allowed) ==> !Sweep.SweepsLive(Exec(Init(), steps), step)
  {
    hide RunMeets, Exec, Sweep.SweepsLive, HeldRun, TestedRun, SettleRun, SweptRun, CrossedRun;
    if c :| allowed(c) {
      match c
      case Attaching => AttachingBreaks("a", allowed);
      case Testing => TestingBreaks("a", allowed);
      case Holding => HoldingBreaks("a", allowed);
      case SweepUnlinking => SweepUnlinkingBreaks("a", allowed);
      case SettleUnlinking => SettleUnlinkingBreaks("a", allowed);
    } else {
      forall steps, step | RunMeets(steps, allowed) ensures !Sweep.SweepsLive(Exec(Init(), steps), step) {
        NoneAllowed(steps, allowed);
        ApartIsEnough(steps, step);
      }
    }
  }
}
