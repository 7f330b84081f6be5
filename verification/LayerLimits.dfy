/**
 Where the job-layer protocol stops being safe: each assumption of the two safety theorems is
 necessary. One uninterrupted attach and settle are computed on the way.
 */
module LayerLimits {
  import opened Basics
  import opened LayerProtocol
  import opened LayerProvenance
  import opened LayerRuns
  import Sweep = LayerSweep

  const ANY: Choice := Choice("00000000", Key("", ""), false, None)

  lemma {:induction false} ExecAppend(s: State, a: seq<Step>, b: seq<Step>)
    ensures Exec(s, a + b) == Exec(Exec(s, a), b)
  {
    hide Apply;
    if b == [] {
      assert a + b == a;
    } else {
      assert (a + b)[..|a + b| - 1] == a + b[..|b| - 1];
      ExecAppend(s, a, b[..|b| - 1]);
    }
  }

  lemma ExecOne(s: State, a: Step)
    ensures Exec(s, [a]) == Apply(s, a)
  {
    hide Apply;
    assert [a][..0] == [];
  }

  lemma ExecSnoc(s: State, a: seq<Step>, step: Step)
    ensures Exec(s, a + [step]) == Apply(Exec(s, a), step)
  {
    hide Apply;
    ExecAppend(s, a, [step]);
    ExecOne(Exec(s, a), step);
  }

  /** One operation of a process whose decision is known. */
  lemma Operation(s: State, pr: ProcId, ch: Choice, op: Op)
    requires pr in s.procs && Decide(s, s.procs[pr], ch) == op
    ensures Apply(s, Run(pr, ch)) == Continue(Perform(s, pr, op.effect), pr, op.next)
  {
    hide Perform, Continue;
  }

  /** An operation that only reads, of a process that runs beside state `s`. */
  lemma Reading(s: State, pr: ProcId, pc: Pc, ch: Choice, next: Pc)
    requires Decide(Continue(s, pr, Some(pc)), pc, ch) == Op(Nothing, Some(next))
    ensures Apply(Continue(s, pr, Some(pc)), Run(pr, ch)) == Continue(s, pr, Some(next))
  {
    Operation(Continue(s, pr, Some(pc)), pr, ch, Op(Nothing, Some(next)));
    hide Apply, Decide;
    assert s.procs[pr := pc][pr := next] == s.procs[pr := next];
  }

  function AttachSteps(pr: ProcId, v: VmName, p: Pid): seq<Step> {
    [Spawn(pr, AttachCheck(v, p)), Run(pr, ANY), Run(pr, ANY), Run(pr, ANY), Run(pr, ANY)]
  }

  /** An attach that nothing interrupts creates exactly one empty layer with its owner on record. */
  lemma AttachAlone(s: State, pr: ProcId, v: VmName, p: Pid)
    requires pr !in s.procs && p in s.alive && v !in s.w.jobs
    requires forall n :: n in s.locks ==> s.locks[n] != pr
    requires s.manifestLock != Some(pr)
    ensures Exec(s, AttachSteps(pr, v, p)) ==
            s.(w := NewLayer(s.w, v, Some(p), {}), owners := s.owners[v := p],
               started := s.started + {v}, made := s.made + {v})
  {
    var s0 := s.(started := s.started + {v});
    var s1 := Apply(s, Spawn(pr, AttachCheck(v, p)));
    assert s1 == Continue(s0, pr, Some(AttachCheck(v, p)));
    AttachWrites(s0, pr, v, p);
    AttachMakes(s0.(owners := s.owners[v := p]), pr, v, p);
    hide Apply, SpawnProc, Continue, NewLayer;
    FiveSteps(s, Spawn(pr, AttachCheck(v, p)), Run(pr, ANY), Run(pr, ANY), Run(pr, ANY), Run(pr, ANY));
  }

  lemma AttachWrites(s: State, pr: ProcId, v: VmName, p: Pid)
    requires v !in s.w.jobs
    ensures Apply(Apply(Apply(Continue(s, pr, Some(AttachCheck(v, p))), Run(pr, ANY)), Run(pr, ANY)), Run(pr, ANY)) ==
            Continue(s.(owners := s.owners[v := p]), pr, Some(AttachMkdir(v, p)))
  {
    Reading(s, pr, AttachCheck(v, p), ANY, AttachOwner(v, p));
    hide Apply;
    AttachClears(s, pr, v, p);
    AttachFills(s.(owners := s.owners - {v}), pr, v, p);
    assert (s.owners - {v})[v := p] == s.owners[v := p];
  }

  lemma AttachClears(s: State, pr: ProcId, v: VmName, p: Pid)
    ensures Apply(Continue(s, pr, Some(AttachOwner(v, p))), Run(pr, ANY)) ==
            Continue(s.(owners := s.owners - {v}), pr, Some(AttachWrite(v, p)))
  {
    Operation(Continue(s, pr, Some(AttachOwner(v, p))), pr, ANY, Op(ClearOwner(v), Some(AttachWrite(v, p))));
    hide Apply;
    assert s.procs[pr := AttachOwner(v, p)][pr := AttachWrite(v, p)] == s.procs[pr := AttachWrite(v, p)];
  }

  lemma AttachFills(s: State, pr: ProcId, v: VmName, p: Pid)
    ensures Apply(Continue(s, pr, Some(AttachWrite(v, p))), Run(pr, ANY)) ==
            Continue(s.(owners := s.owners[v := p]), pr, Some(AttachMkdir(v, p)))
  {
    Operation(Continue(s, pr, Some(AttachWrite(v, p))), pr, ANY, Op(WriteOwner(v, p), Some(AttachMkdir(v, p))));
    hide Apply;
    assert s.procs[pr := AttachWrite(v, p)][pr := AttachMkdir(v, p)] == s.procs[pr := AttachMkdir(v, p)];
  }

  lemma AttachMakes(s: State, pr: ProcId, v: VmName, p: Pid)
    requires Idle(s, pr) && v !in s.w.jobs
    ensures Apply(Continue(s, pr, Some(AttachMkdir(v, p))), Run(pr, ANY)) ==
            s.(w := NewLayer(s.w, v, Some(p), {}), made := s.made + {v})
  {
    var t := Continue(s, pr, Some(AttachMkdir(v, p)));
    var u := s.(w := NewLayer(s.w, v, Some(p), {}), made := s.made + {v});
    Operation(t, pr, ANY, Op(MakeLayer(v, p), None));
    hide Apply, NewLayer;
    ContinueEnds(u, Continue(u, pr, Some(AttachMkdir(v, p))), pr, AttachMkdir(v, p));
  }

  function SettleSteps(pr: ProcId, v: VmName, green: bool): seq<Step> {
    [Spawn(pr, SettleCheck(v, green)), Run(pr, ANY), Run(pr, ANY), Run(pr, ANY)]
  }

  /** A settle up to its rename: the layer left jobs/, and nothing else happened yet. */
  function Settled(s: State, v: VmName, green: bool): State
    requires v in s.w.jobs && s.w.jobs[v] < |s.w.layers|
  {
    if green then s.(w := Take(s.w, v, Green), green := s.green[v := s.w.jobs[v]])
    else s.(w := Take(s.w, v, Red), discard := s.discard[v := s.w.jobs[v]])
  }

  lemma SettleReads(s: State, pr: ProcId, v: VmName, green: bool)
    requires pr !in s.procs && v in s.w.jobs && v !in (if green then s.green else s.discard)
    ensures Apply(Apply(Apply(s, Spawn(pr, SettleCheck(v, green))), Run(pr, ANY)), Run(pr, ANY))
            == Continue(s, pr, Some(SettleMove(v, green, v)))
  {
    assert Apply(s, Spawn(pr, SettleCheck(v, green))) == Continue(s, pr, Some(SettleCheck(v, green)));
    hide Apply, SpawnProc;
    Reading(s, pr, SettleCheck(v, green), ANY, SettleTarget(v, green));
    Reading(s, pr, SettleTarget(v, green), ANY, SettleMove(v, green, v));
  }

  lemma SettleRenames(s: State, pr: ProcId, v: VmName, green: bool)
    requires pr !in s.procs && v in s.w.jobs && s.w.jobs[v] < |s.w.layers|
    requires v !in (if green then s.green else s.discard)
    ensures Apply(Continue(s, pr, Some(SettleMove(v, green, v))), Run(pr, ANY)) ==
            Continue(Settled(s, v, green), pr, Some(SettleOwner(v, green, v)))
  {
    var s3 := Continue(s, pr, Some(SettleMove(v, green, v)));
    var e := if green then ToGreen(v, v) else ToDiscard(v, v, Red);
    hide Apply, Take;
    Operation(s3, pr, ANY, Op(e, Some(SettleOwner(v, green, v))));
    assert Apply(s3, Run(pr, ANY)).procs == s.procs[pr := SettleOwner(v, green, v)];
  }

  lemma SettleToRename(s: State, pr: ProcId, v: VmName, green: bool)
    requires pr !in s.procs && v in s.w.jobs && s.w.jobs[v] < |s.w.layers|
    requires v !in (if green then s.green else s.discard)
    ensures Exec(s, SettleSteps(pr, v, green)) ==
            Continue(Settled(s, v, green), pr, Some(SettleOwner(v, green, v)))
  {
    hide Apply, Continue, Settled;
    SettleReads(s, pr, v, green);
    SettleRenames(s, pr, v, green);
    FourSteps(s, Spawn(pr, SettleCheck(v, green)), Run(pr, ANY), Run(pr, ANY), Run(pr, ANY));
  }

  lemma FourSteps(s: State, a: Step, b: Step, c: Step, d: Step)
    ensures Exec(s, [a, b, c, d]) == Apply(Apply(Apply(Apply(s, a), b), c), d)
  {
    hide Apply;
    ExecOne(s, a);
    ExecSnoc(s, [a], b);
    ExecSnoc(s, [a] + [b], c);
    ExecSnoc(s, [a] + [b] + [c], d);
    assert [a, b, c, d] == [a] + [b] + [c] + [d];
  }

  lemma FiveSteps(s: State, a: Step, b: Step, c: Step, d: Step, e: Step)
    ensures Exec(s, [a, b, c, d, e]) == Apply(Apply(Apply(Apply(Apply(s, a), b), c), d), e)
  {
    hide Apply;
    FourSteps(s, a, b, c, d);
    ExecSnoc(s, [a, b, c, d], e);
    assert [a, b, c, d, e] == [a, b, c, d] + [e];
  }

  // ------------------------------------------------ a reused name defeats the sweep

  predicate Idle(s: State, pr: ProcId) {
    pr !in s.procs && s.manifestLock != Some(pr) && forall n :: n in s.locks ==> s.locks[n] != pr
  }

  lemma ContinueEnds(s: State, t: State, pr: ProcId, pc: Pc)
    requires Idle(s, pr)
    requires t == Continue(s, pr, Some(pc))
    ensures Continue(t, pr, None) == s
  {
    assert Continue(t, pr, None).procs == s.procs;
    assert Continue(t, pr, None).locks == s.locks;
  }

  lemma RedSettle(s: State, pr: ProcId, v: VmName)
    requires Idle(s, pr) && v in s.w.jobs && s.w.jobs[v] < |s.w.layers| && v !in s.discard
    ensures Exec(s, SettleSteps(pr, v, false) + [Run(pr, ANY)]) ==
            Settled(s, v, false).(owners := s.owners - {v})
  {
    SettleToRename(s, pr, v, false);
    ExecSnoc(s, SettleSteps(pr, v, false), Run(pr, ANY));
    SettledIdle(s, pr, v);
    hide *;
    SettleUnlinks(Settled(s, v, false), pr, v);
  }

  lemma SettledIdle(s: State, pr: ProcId, v: VmName)
    requires Idle(s, pr) && v in s.w.jobs && s.w.jobs[v] < |s.w.layers| && v !in s.discard
    ensures Idle(Settled(s, v, false), pr) && Settled(s, v, false).owners == s.owners
  {
  }

  lemma SettleUnlinks(s: State, pr: ProcId, v: VmName)
    requires Idle(s, pr)
    ensures Apply(Continue(s, pr, Some(SettleOwner(v, false, v))), Run(pr, ANY)) == s.(owners := s.owners - {v})
  {
    hide Apply, Idle;
    Operation(Continue(s, pr, Some(SettleOwner(v, false, v))), pr, ANY, Op(ClearOwner(v), None));
    UnlinkEnds(s, pr, v);
  }

  lemma UnlinkEnds(s: State, pr: ProcId, v: VmName)
    requires Idle(s, pr)
    ensures Continue(Perform(Continue(s, pr, Some(SettleOwner(v, false, v))), pr, ClearOwner(v)), pr, None)
            == s.(owners := s.owners - {v})
  {
    var u := s.(owners := s.owners - {v});
    ContinueEnds(u, Continue(u, pr, Some(SettleOwner(v, false, v))), pr, SettleOwner(v, false, v));
  }

  lemma SweepLists(s: State, pr: ProcId)
    requires pr !in s.procs
    ensures Exec(s, [Spawn(pr, SweepList), Run(pr, ANY)]) == Continue(s, pr, Some(SweepLoop(s.w.jobs.Keys)))
  {
    var s1 := Apply(s, Spawn(pr, SweepList));
    SweepSpawns(s, pr);
    ExecOne(s, Spawn(pr, SweepList));
    ExecSnoc(s, [Spawn(pr, SweepList)], Run(pr, ANY));
    assert [Spawn(pr, SweepList), Run(pr, ANY)] == [Spawn(pr, SweepList)] + [Run(pr, ANY)];
    hide Apply, SpawnProc;
    Reading(s, pr, SweepList, ANY, SweepLoop(s.w.jobs.Keys));
  }

  lemma SweepSpawns(s: State, pr: ProcId)
    requires pr !in s.procs
    ensures Apply(s, Spawn(pr, SweepList)) == Continue(s, pr, Some(SweepList))
  {
  }

  /** A supervisor attached `v`, a sweep listed jobs/, and the supervisor settled `v`. */
  function Prelude(v: VmName, p: Pid): seq<Step> {
    [SupStart(p)] + AttachSteps(0, v, p) + [Spawn(1, SweepList), Run(1, ANY)] + (SettleSteps(2, v, false) + [Run(2, ANY)])
  }

  lemma PreludeState(v: VmName, p: Pid)
    ensures var s := Exec(Init(), Prelude(v, p));
            && s.alive == {p} && s.w.jobs == map[] && s.owners == map[] && s.discard.Keys == {v}
            && s.procs == map[1 := SweepLoop({v})] && s.locks == map[] && s.manifestLock == None
  {
    var s1 := Exec(Init(), [SupStart(p)]);
    ExecOne(Init(), SupStart(p));
    assert s1 == Init().(alive := {p}, born := {p});
    AttachAlone(s1, 0, v, p);
    ExecAppend(Init(), [SupStart(p)], AttachSteps(0, v, p));
    var a2 := [SupStart(p)] + AttachSteps(0, v, p);
    var s2 := Exec(Init(), a2);
    hide Apply;
    SweepLists(s2, 1);
    ExecAppend(Init(), a2, [Spawn(1, SweepList), Run(1, ANY)]);
    var a3 := a2 + [Spawn(1, SweepList), Run(1, ANY)];
    var s3 := Exec(Init(), a3);
    assert s3.w.jobs.Keys == {v};
    RedSettle(s3, 2, v);
    ExecAppend(Init(), a3, SettleSteps(2, v, false) + [Run(2, ANY)]);
  }

  function Reuse(v: VmName, p: Pid): seq<Step> {
    Prelude(v, p) + [Run(1, ANY.(text := v))] + [Run(1, ANY)] + AttachSteps(3, v, p) + [Run(1, ANY)]
  }

  /**
   Freshness is needed, for every VM name: the sweep reads that `v` has no owner, the name is
   attached again, and the sweep renames the new layer although its supervisor is alive.
   */
  lemma ReuseBreaksTheSweep(v: VmName, p: Pid)
    ensures Sweep.SweepsLive(Exec(Init(), Reuse(v, p)), Run(1, ANY))
  {
    var s := Exec(Init(), Prelude(v, p));
    PreludeState(v, p);
    var ch := ANY.(text := v);
    var read := Prelude(v, p) + [Run(1, ch)];
    ExecSnoc(Init(), Prelude(v, p), Run(1, ch));
    ExecSnoc(Init(), read, Run(1, ANY));
    var s1 := Apply(s, Run(1, ch));
    var s2 := Apply(s1, Run(1, ANY));
    hide Apply, Prelude, AttachSteps, NewLayer;
    assert {v} - {v} == {};
    Operation(s, 1, ch, Op(Nothing, Some(SweepTest(v, {}, None))));
    Operation(s1, 1, ANY, Op(Nothing, Some(SweepDead(v, {}))));
    AttachAlone(s2, 3, v, p);
    ExecAppend(Init(), read + [Run(1, ANY)], AttachSteps(3, v, p));
    ExecSnoc(Init(), read + [Run(1, ANY)] + AttachSteps(3, v, p), Run(1, ANY));
    NewLayerOwner(s2.w, v, p);
    SweepTakesTarget(Exec(s2, AttachSteps(3, v, p)), v, p);
  }

  lemma NewLayerOwner(w: World, v: VmName, p: Pid)
    ensures var w' := NewLayer(w, v, Some(p), {}); v in w'.jobs && w'.jobs[v] < |w'.layers| && w'.layers[w'.jobs[v]].owner == Some(p)
  {
  }

  lemma SweepTakesTarget(s: State, v: VmName, p: Pid)
    requires s.alive == {p} && s.procs == map[1 := SweepDead(v, {})] && s.discard.Keys == {v}
    requires v in s.w.jobs && s.w.jobs[v] < |s.w.layers| && s.w.layers[s.w.jobs[v]].owner == Some(p)
    ensures Sweep.SweepsLive(Apply(s, Run(1, ANY)), Run(1, ANY))
  {
    hide Apply;
    var target := v + "." + ANY.text;
    Operation(s, 1, ANY, Op(Nothing, Some(SweepMove(v, {}, target))));
    assert |target| > |v|;
  }

  // ------------------------------------------- a dotted VM name defeats the promoter

  const ENTRY: Key := Key("00", "00000000")
  const BYTES: File := File(ResultEntry, 0, "")

  function Guest(v: VmName, p: Pid): seq<Step> {
    [SupStart(p)] + [VmBoot(v)] + AttachSteps(0, v, p) + [GuestOpen(v)] + [GuestPut(v, 0, ENTRY, BYTES)]
  }

  lemma GuestState(v: VmName, p: Pid)
    ensures var s := Exec(Init(), Guest(v, p));
            && s.w == World(map[v := 0], 1, [Layer(v, Some(p), Pending, map[ENTRY := 0], {0}, false)],
                            [Inode(BYTES, 0, false)], map[v := 0])
            && s.procs == map[] && s.locks == map[] && s.manifestLock == None
            && s.green == map[] && s.discard == map[] && s.meta == map[] && s.shared == map[]
  {
    var a1 := [SupStart(p)];
    var a2 := a1 + [VmBoot(v)];
    ExecOne(Init(), SupStart(p));
    ExecSnoc(Init(), a1, VmBoot(v));
    var s2 := Exec(Init(), a2);
    assert s2 == Init().(alive := {p}, born := {p}, w := Init().w.(present := map[v := 0], nextInst := 1));
    AttachAlone(s2, 0, v, p);
    ExecAppend(Init(), a2, AttachSteps(0, v, p));
    var a3 := a2 + AttachSteps(0, v, p);
    ExecSnoc(Init(), a3, GuestOpen(v));
    ExecSnoc(Init(), a3 + [GuestOpen(v)], GuestPut(v, 0, ENTRY, BYTES));
    var s3 := Exec(Init(), a3);
    assert s3.w.layers == [Layer(v, Some(p), Pending, map[], {}, false)];
    assert s3.w.layers[0].access + {0} == {0};
    var s4 := Exec(Init(), a3 + [GuestOpen(v)]);
    assert s4.w.layers == [Layer(v, Some(p), Pending, map[], {0}, false)];
    var s5 := Apply(s4, GuestPut(v, 0, ENTRY, BYTES));
    assert s5.w.layers == [Layer(v, Some(p), Pending, map[ENTRY := 0], {0}, false)];
    assert s5.w.inodes == [Inode(BYTES, 0, false)];
  }

  /** The settle dies between its rename and its metadata write. */
  lemma CrashedSettle(s: State, pr: ProcId, v: VmName)
    requires Idle(s, pr) && v in s.w.jobs && s.w.jobs[v] < |s.w.layers| && v !in s.green
    ensures Exec(s, SettleSteps(pr, v, true) + [Crash(pr)]) == Settled(s, v, true)
  {
    SettleToRename(s, pr, v, true);
    ExecSnoc(s, SettleSteps(pr, v, true), Crash(pr));
    var t := Continue(Settled(s, v, true), pr, Some(SettleOwner(v, true, v)));
    ContinueEnds(Settled(s, v, true), t, pr, SettleOwner(v, true, v));
  }

  lemma Locking(s: State, pr: ProcId, n: string)
    requires n !in s.locks
    ensures Apply(Continue(s, pr, Some(ProcLock(n))), Run(pr, ANY)) ==
            Continue(s.(locks := s.locks[n := pr]), pr, Some(ProcDiscardTest(n)))
  {
    Operation(Continue(s, pr, Some(ProcLock(n))), pr, ANY, Op(Lock(n), Some(ProcDiscardTest(n))));
    hide Apply, Decide;
    assert s.procs[pr := ProcLock(n)][pr := ProcDiscardTest(n)] == s.procs[pr := ProcDiscardTest(n)];
  }

  lemma ProcessReads(s: State, pr: ProcId, n: string)
    requires n !in s.discard && n in s.green
    ensures Apply(Apply(Continue(s, pr, Some(ProcDiscardTest(n))), Run(pr, ANY)), Run(pr, ANY)) ==
            Continue(s, pr, Some(ProcMeta(n)))
  {
    hide Apply;
    Reading(s, pr, ProcDiscardTest(n), ANY, ProcGreenTest(n));
    Reading(s, pr, ProcGreenTest(n), ANY, ProcMeta(n));
  }

  lemma ProcessLocks(s: State, pr: ProcId, n: string)
    requires pr !in s.procs && n !in s.locks && n !in s.discard && n in s.green
    ensures Exec(s, [Spawn(pr, ProcLock(n)), Run(pr, ANY), Run(pr, ANY), Run(pr, ANY)]) ==
            Continue(s.(locks := s.locks[n := pr]), pr, Some(ProcMeta(n)))
  {
    assert Apply(s, Spawn(pr, ProcLock(n))) == Continue(s, pr, Some(ProcLock(n)));
    hide Apply, SpawnProc, Exec, Decide, Continue;
    FourSteps(s, Spawn(pr, ProcLock(n)), Run(pr, ANY), Run(pr, ANY), Run(pr, ANY));
    Locking(s, pr, n);
    ProcessReads(s.(locks := s.locks[n := pr]), pr, n);
  }

  /** Without metadata the promoter waits for the VM named before the first dot. */
  lemma ProcessGuesses(s: State, pr: ProcId, n: string)
    requires pr in s.procs && s.procs[pr] == ProcMeta(n) && n !in s.meta && BeforeDot(n) !in s.w.present
    requires n in s.green && s.green[n] < |s.w.layers|
    ensures Apply(Apply(s, Run(pr, ANY)), Run(pr, ANY)) ==
            Continue(s.(w := SeenGone(s.w, s.green[n])), pr, Some(ProcPromote(n, Listed(s, n))))
  {
    hide Apply;
    Operation(s, pr, ANY, Op(Nothing, Some(ProcWait(n, BeforeDot(n)))));
    var s1 := Apply(s, Run(pr, ANY));
    Operation(s1, pr, ANY, Op(NoteGone(n), Some(ProcPromote(n, Listed(s, n)))));
    assert Apply(s1, Run(pr, ANY)).procs == s.procs[pr := ProcPromote(n, Listed(s, n))];
  }

  /** A published file that a running guest can still write. */
  ghost predicate Exposed(s: State, k: Key, v: VmName) {
    k in s.shared && s.shared[k] < |s.w.inodes| && Reaches(s.w, v, s.w.inodes[s.shared[k]].layer)
  }

  function Dotted(v: VmName, p: Pid): seq<Step> {
    Guest(v, p) + (SettleSteps(1, v, true) + [Crash(1)]) + (Looks(v) + [Run(2, ANY.(key := ENTRY))])
  }

  lemma DottedPublishes(s: State, v: VmName)
    requires s.procs == map[2 := ProcPromote(v, {ENTRY})] && s.green == map[v := 0] && s.shared == map[]
    requires s.w.present == map[v := 0] && s.w.inodes == [Inode(BYTES, 0, false)]
    requires |s.w.layers| == 1 && s.w.layers[0].entries == map[ENTRY := 0] && s.w.layers[0].access == {0}
    ensures Exposed(Apply(s, Run(2, ANY.(key := ENTRY))), ENTRY, v)
  {
    var ch := ANY.(key := ENTRY);
    hide Apply;
    assert ValidKey(ENTRY);
    assert Candidate(s, v, ENTRY) && Source(s, v, ENTRY) == 0;
    Operation(s, 2, ch, Op(LinkEntry(v, ENTRY, None), Some(ProcPromote(v, {ENTRY} - {ENTRY}))));
  }

  function Looks(v: VmName): seq<Step> {
    [Spawn(2, ProcLock(v)), Run(2, ANY), Run(2, ANY), Run(2, ANY)] + [Run(2, ANY)] + [Run(2, ANY)]
  }

  /** The green layer of a running dotted VM before its metadata is written. */
  predicate Unnamed(s: State, v: VmName) {
    && s.procs == map[] && s.locks == map[] && s.green == map[v := 0] && s.discard == map[] && s.meta == map[]
    && s.shared == map[] && s.w.present == map[v := 0] && s.w.inodes == [Inode(BYTES, 0, false)]
    && |s.w.layers| == 1 && s.w.layers[0].entries == map[ENTRY := 0] && s.w.layers[0].access == {0}
  }

  lemma LookedPast(s: State, v: VmName)
    requires Unnamed(s, v) && BeforeDot(v) != v
    ensures Exposed(Exec(s, Looks(v) + [Run(2, ANY.(key := ENTRY))]), ENTRY, v)
  {
    var look := [Spawn(2, ProcLock(v)), Run(2, ANY), Run(2, ANY), Run(2, ANY)];
    ProcessLocks(s, 2, v);
    var s1 := Exec(s, look);
    ExecSnoc(s, look, Run(2, ANY));
    ExecSnoc(s, look + [Run(2, ANY)], Run(2, ANY));
    ExecSnoc(s, Looks(v), Run(2, ANY.(key := ENTRY)));
    hide Apply;
    assert s1.w == s.w && s1.green == s.green && s1.meta == s.meta && s1.procs == map[2 := ProcMeta(v)];
    ProcessGuesses(s1, 2, v);
    assert Listed(s1, v) == {ENTRY};
    var s2 := Exec(s, Looks(v));
    assert s2.procs == map[2 := ProcPromote(v, {ENTRY})];
    DottedPublishes(s2, v);
  }

  lemma GuestIsUnnamed(v: VmName, p: Pid)
    ensures Unnamed(Exec(Init(), Guest(v, p) + (SettleSteps(1, v, true) + [Crash(1)])), v)
  {
    GuestState(v, p);
    var s := Exec(Init(), Guest(v, p));
    ExecAppend(Init(), Guest(v, p), SettleSteps(1, v, true) + [Crash(1)]);
    CrashedSettle(s, 1, v);
  }

  /** For every VM name with a dot, some run publishes a file its running guest can still write. */
  lemma DotBreaksPromotion(v: VmName, p: Pid)
    requires !DotFree(v)
    ensures Exposed(Exec(Init(), Dotted(v, p)), ENTRY, v)
  {
    hide Exec, Guest, Looks, Unnamed, Exposed, SettleSteps;
    GuestIsUnnamed(v, p);
    var settled := Guest(v, p) + (SettleSteps(1, v, true) + [Crash(1)]);
    BeforeDotIsDotFree(v);
    LookedPast(Exec(Init(), settled), v);
    ExecAppend(Init(), settled, Looks(v) + [Run(2, ANY.(key := ENTRY))]);
  }

  /** Every VM the run boots or attaches is called `v`. */
  predicate OnlyName(steps: seq<Step>, v: VmName) {
    forall step | step in steps :: (step.VmBoot? ==> step.v == v) && (Sweep.Attaches(step) ==> step.pc.v == v)
  }

  lemma DotFreeIsSafe(v: VmName, steps: seq<Step>, k: Key, u: VmName)
    requires DotFree(v) && OnlyName(steps, v)
    ensures !Exposed(Exec(Init(), steps), k, u)
  {
    hide Apply, Exec;
    if k in Exec(Init(), steps).shared {
      assert RunDotFree(steps) by {
        forall j | 0 <= j < |steps| ensures StepDotFree(steps[j]) { assert steps[j] in steps; }
      }
      PublishedIsImmutable(steps, [], k);
      assert Exec(Exec(Init(), steps), []) == Exec(Init(), steps) by { ExecNothing(Exec(Init(), steps)); }
    }
  }

  lemma ExecNothing(s: State)
    ensures Exec(s, []) == s
  {
  }

  lemma OnlyNameAppend(a: seq<Step>, b: seq<Step>, v: VmName)
    requires OnlyName(a, v) && OnlyName(b, v)
    ensures OnlyName(a + b, v)
  {
  }

  lemma DottedUsesOneName(v: VmName, p: Pid)
    ensures OnlyName(Dotted(v, p), v)
  {
    assert OnlyName(Guest(v, p), v);
    var settle := SettleSteps(1, v, true) + [Crash(1)];
    var rest := settle + (Looks(v) + [Run(2, ANY.(key := ENTRY))]);
    assert OnlyName(rest, v);
    OnlyNameAppend(Guest(v, p), rest, v);
    assert Dotted(v, p) == Guest(v, p) + rest;
  }

  /** Promotion is safe in all runs of VMs called `v` exactly when the name has no dot. */
  lemma DotFreeIsExact(v: VmName)
    ensures DotFree(v) <==>
      forall steps, k, u :: OnlyName(steps, v) ==> !Exposed(Exec(Init(), steps), k, u)
  {
    hide OnlyName, Exposed, Exec, Dotted;
    if DotFree(v) {
      forall steps, k, u | OnlyName(steps, v) ensures !Exposed(Exec(Init(), steps), k, u) {
        DotFreeIsSafe(v, steps, k, u);
      }
    } else {
      DotBreaksPromotion(v, 0);
      DottedUsesOneName(v, 0);
    }
  }
}
