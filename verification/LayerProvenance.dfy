/**
 What every run of the job-layer protocol keeps: an entry of shared/ comes from a
 layer that was settled green and whose VM was seen absent, and nobody can change
 it any more. The one assumption is that VM names have no dot, and it is exact:
 a dotted name lets a still-running guest's layer be published.
 */
module LayerProvenance {
  import opened Basics
  import opened LayerProtocol

  predicate DotFree(v: VmName) { '.' !in v }

  /** The VM names a step brings into the system. */
  predicate StepDotFree(step: Step) {
    && (step.VmBoot? ==> DotFree(step.v))
    && (step.Spawn? && step.pc.AttachCheck? ==> DotFree(step.pc.v))
  }

  // --------------------------------------------------------- the fallback name

  lemma {:induction false} BeforeDotPrefix(v: VmName, rest: string)
    requires DotFree(v)
    ensures BeforeDot(v + "." + rest) == v && BeforeDot(v) == v
  {
    if v == "" {
      assert v + "." + rest == "." + rest;
    } else {
      BeforeDotPrefix(v[1..], rest);
      assert (v + "." + rest)[1..] == v[1..] + "." + rest;
      assert [v[0]] + v[1..] == v;
    }
  }

  lemma {:induction false} BeforeDotIsDotFree(name: string)
    ensures DotFree(BeforeDot(name))
  {
    if name != "" && name[0] != '.' {
      BeforeDotIsDotFree(name[1..]);
    }
  }

  /** The name guessed without metadata is the VM's, for every target name, exactly when it has no dot. */
  lemma GuessIsExact(v: VmName)
    ensures DotFree(v) <==> (forall n :: Named(n, v) ==> BeforeDot(n) == v)
  {
    if DotFree(v) {
      forall n | Named(n, v) ensures BeforeDot(n) == v {
        if n == v {
          BeforeDotPrefix(v, "");
        } else {
          var u :| Suffix(u) && n == v + "." + u;
          BeforeDotPrefix(v, u);
        }
      }
    } else {
      BeforeDotIsDotFree(v);
      assert Named(v, v);
    }
  }

  // ------------------------------------------------- the invariant of the world

  /** No VM can write layer `l` now, and none ever will. */
  ghost predicate Frozen(w: World, l: LayerId) {
    && l < |w.layers| && w.layers[l].verdict != Pending
    && forall v :: !Reaches(w, v, l)
  }

  ghost predicate JobsOk(w: World) {
    forall v :: v in w.jobs ==>
      w.jobs[v] < |w.layers| && w.layers[w.jobs[v]].vm == v && w.layers[w.jobs[v]].verdict == Pending
  }

  ghost predicate NamesOk(w: World) {
    forall l | 0 <= l < |w.layers| :: DotFree(w.layers[l].vm)
  }

  /** An inode is linked only in the layer it came from. */
  ghost predicate EntriesOk(w: World) {
    forall l, k :: 0 <= l < |w.layers| && k in w.layers[l].entries ==>
      && w.layers[l].entries[k] < |w.inodes|
      && w.inodes[w.layers[l].entries[k]].layer == l
      && !w.inodes[w.layers[l].entries[k]].copied
  }

  ghost predicate InodesOk(w: World) {
    forall i | 0 <= i < |w.inodes| :: w.inodes[i].layer < |w.layers|
  }

  /** Only a VM of the layer's own name reaches a layer; instance numbers are never reused. */
  ghost predicate AccessOk(w: World) {
    && (forall v :: v in w.present ==> w.present[v] < w.nextInst && DotFree(v))
    && (forall v, u :: v in w.present && u in w.present && w.present[v] == w.present[u] ==> v == u)
    && (forall v, l: LayerId :: Reaches(w, v, l) ==> w.layers[l].vm == v)
    && (forall l, i :: 0 <= l < |w.layers| && i in w.layers[l].access ==> i < w.nextInst)
  }

  ghost predicate WorldOk(w: World) {
    JobsOk(w) && NamesOk(w) && EntriesOk(w) && InodesOk(w) && AccessOk(w)
  }

  /** Layers persist, a verdict is final, and frozen stays frozen. */
  ghost predicate LayersEvolve(w: World, w': World) {
    && |w.layers| <= |w'.layers|
    && forall l | 0 <= l < |w.layers| ::
         && w'.layers[l].vm == w.layers[l].vm && (w.layers[l].owner.Some? ==> w'.layers[l].owner == w.layers[l].owner)
         && (w.layers[l].verdict != Pending ==> w'.layers[l].verdict == w.layers[l].verdict)
         && (w.layers[l].goneSeen ==> w'.layers[l].goneSeen)
         && (Frozen(w, l) ==> Frozen(w', l))
  }

  /** Inodes persist, and the files of a frozen layer and host copies never change. */
  ghost predicate InodesEvolve(w: World, w': World) {
    && |w.inodes| <= |w'.inodes|
    && forall i | 0 <= i < |w.inodes| ::
         && w'.inodes[i].layer == w.inodes[i].layer
         && (Frozen(w, w.inodes[i].layer) || w.inodes[i].copied ==> w'.inodes[i] == w.inodes[i])
  }

  ghost predicate Evolves(w: World, w': World) { LayersEvolve(w, w') && InodesEvolve(w, w') }

  lemma SameEvolves(w: World)
    ensures Evolves(w, w)
  {
  }

  lemma BootKeeps(w: World, v: VmName)
    requires WorldOk(w) && DotFree(v)
    ensures WorldOk(Boot(w, v)) && Evolves(w, Boot(w, v))
  {
    var w' := Boot(w, v);
    forall u, l: LayerId | Reaches(w', u, l) ensures Reaches(w, u, l) {
      assert w'.present[u] in w.layers[l].access;
    }
  }

  lemma GoneKeeps(w: World, v: VmName)
    requires WorldOk(w)
    ensures WorldOk(w.(present := w.present - {v})) && Evolves(w, w.(present := w.present - {v}))
  {
    var w' := w.(present := w.present - {v});
    forall u, l: LayerId | Reaches(w', u, l) ensures Reaches(w, u, l) {}
  }

  lemma OpenKeeps(w: World, v: VmName)
    requires WorldOk(w)
    ensures WorldOk(Open(w, v)) && Evolves(w, Open(w, v))
  {
    var w' := Open(w, v);
    forall u, l: LayerId | Reaches(w', u, l) ensures Reaches(w, u, l) || (u == v && l == w.jobs[v]) {}
  }

  lemma NewLayerKeeps(w: World, v: VmName, owner: Option<Pid>, access: set<Inst>)
    requires WorldOk(w) && DotFree(v)
    requires access == {} || (v in w.present && access == {w.present[v]})
    ensures WorldOk(NewLayer(w, v, owner, access)) && Evolves(w, NewLayer(w, v, owner, access))
  {
    var w' := NewLayer(w, v, owner, access);
    forall u, l: LayerId | Reaches(w', u, l) ensures Reaches(w, u, l) || (u == v && l == |w.layers|) {}
  }

  lemma PutKeeps(w: World, v: VmName, l: LayerId, k: Key, file: File)
    requires WorldOk(w)
    ensures WorldOk(Put(w, v, l, k, file)) && Evolves(w, Put(w, v, l, k, file))
  {
    var w' := Put(w, v, l, k, file);
    forall u, m: LayerId ensures Reaches(w', u, m) == Reaches(w, u, m) {}
  }

  lemma WriteKeeps(w: World, v: VmName, i: Ino, file: File)
    requires WorldOk(w)
    ensures WorldOk(Write(w, v, i, file)) && Evolves(w, Write(w, v, i, file))
  {
    var w' := Write(w, v, i, file);
    forall u, m: LayerId ensures Reaches(w', u, m) == Reaches(w, u, m) {}
  }

  lemma RemoveEntryKeeps(w: World, l: LayerId, k: Key)
    requires WorldOk(w)
    ensures WorldOk(RemoveEntry(w, l, k)) && Evolves(w, RemoveEntry(w, l, k))
  {
    var w' := RemoveEntry(w, l, k);
    forall u, m: LayerId ensures Reaches(w', u, m) == Reaches(w, u, m) {}
    assert LayersEvolve(w, w');
    assert EntriesOk(w') by {
      assert forall m | 0 <= m < |w.layers| :: w'.layers[m].entries.Keys <= w.layers[m].entries.Keys;
    }
  }

  lemma TakeKeeps(w: World, v: VmName, verdict: Verdict)
    requires WorldOk(w) && v in w.jobs && verdict != Pending
    ensures WorldOk(Take(w, v, verdict)) && Evolves(w, Take(w, v, verdict))
  {
    var w' := Take(w, v, verdict);
    forall u, m: LayerId ensures Reaches(w', u, m) == Reaches(w, u, m) {}
  }

  lemma SeenGoneKeeps(w: World, l: LayerId)
    requires WorldOk(w) && l < |w.layers|
    ensures WorldOk(SeenGone(w, l)) && Evolves(w, SeenGone(w, l))
  {
    var w' := SeenGone(w, l);
    forall u, m: LayerId ensures Reaches(w', u, m) == Reaches(w, u, m) {}
  }

  lemma CopyKeeps(w: World, i: Ino, mtime: int)
    requires WorldOk(w) && i < |w.inodes|
    ensures WorldOk(Copy(w, i, mtime)) && Evolves(w, Copy(w, i, mtime))
  {
    var w' := Copy(w, i, mtime);
    forall u, m: LayerId ensures Reaches(w', u, m) == Reaches(w, u, m) {}
  }

  // --------------------------------------------------- the invariant of the host

  ghost predicate GreenOk(s: State) {
    forall n :: n in s.green ==>
      && s.green[n] < |s.w.layers| && s.w.layers[s.green[n]].verdict == Green
      && Named(n, s.w.layers[s.green[n]].vm)
  }

  ghost predicate MetaOk(s: State) {
    forall n :: n in s.meta ==> DotFree(s.meta[n]) && Named(n, s.meta[n])
  }

  ghost predicate Holds(s: State, pr: ProcId, n: string) { n in s.locks && s.locks[n] == pr }

  ghost predicate Promotable(s: State, pr: ProcId, n: string) {
    && Holds(s, pr, n) && n in s.green
    && Frozen(s.w, s.green[n]) && s.w.layers[s.green[n]].goneSeen
  }

  /** What a process knows between two of its operations. */
  ghost predicate PcOk(s: State, pr: ProcId, pc: Pc)
    requires GreenOk(s)
  {
    match pc
    case AttachCheck(v, _) => DotFree(v)
    case AttachTarget(v, _) => DotFree(v)
    case AttachStale(v, _, _) => DotFree(v)
    case AttachOwner(v, _) => DotFree(v)
    case AttachWrite(v, _) => DotFree(v)
    case AttachMkdir(v, _) => DotFree(v)
    case SettleMove(v, _, target) => Named(target, v)
    case SettleOwner(v, _, target) => DotFree(v) && Named(target, v)
    case SettleMeta(v, target) => DotFree(v) && Named(target, v)
    case ProcDiscardTest(n) => Holds(s, pr, n)
    case ProcGreenTest(n) => Holds(s, pr, n)
    case ProcMeta(n) => Holds(s, pr, n) && n in s.green
    case ProcWait(n, vm) => Holds(s, pr, n) && n in s.green && s.w.layers[s.green[n]].vm == vm
    case ProcTarget(n) => Holds(s, pr, n) && n in s.green
    case ProcEvict(n, _) => Holds(s, pr, n) && n in s.green
    case ProcPromote(n, _) => Promotable(s, pr, n)
    case ProcReplace(n, _, _) => Promotable(s, pr, n)
    case ProcRemove(n) => Holds(s, pr, n)
    case ProcUnmeta(n) => Holds(s, pr, n)
    case _ => true
  }

  ghost predicate ProcsOk(s: State)
    requires GreenOk(s)
  {
    forall pr :: pr in s.procs ==> PcOk(s, pr, s.procs[pr])
  }

  /** Where an entry of shared/ comes from, and that its bytes are final. */
  ghost predicate Legit(s: State, k: Key)
    requires k in s.shared
  {
    var i := s.shared[k];
    && i < |s.w.inodes| && Frozen(s.w, s.w.inodes[i].layer)
    && s.w.layers[s.w.inodes[i].layer].verdict == Green
    && s.w.layers[s.w.inodes[i].layer].goneSeen
    && ValidKey(k) && s.w.inodes[i].file.kind != NotAnEntry
  }

  ghost predicate SharedOk(s: State) {
    forall k :: k in s.shared ==> Legit(s, k)
  }

  /** The invariant, except for what process `pr` itself knows. */
  ghost predicate InvBut(s: State, pr: ProcId) {
    && WorldOk(s.w) && GreenOk(s) && MetaOk(s) && SharedOk(s)
    && forall q :: q in s.procs && q != pr ==> PcOk(s, q, s.procs[q])
  }

  ghost predicate Inv(s: State) {
    WorldOk(s.w) && GreenOk(s) && MetaOk(s) && ProcsOk(s) && SharedOk(s)
  }

  lemma InvSplit(s: State, pr: ProcId)
    requires Inv(s) && pr in s.procs
    ensures InvBut(s, pr) && WorldOk(s.w) && GreenOk(s) && MetaOk(s) && PcOk(s, pr, s.procs[pr])
  {
  }

  // ------------------------------------- an operation is an effect, then Continue

  lemma ContinueKeeps(s: State, pr: ProcId, next: Option<Pc>)
    requires InvBut(s, pr) && (next.Some? ==> PcOk(s, pr, next.value))
    ensures Inv(Continue(s, pr, next))
  {
    var s' := Continue(s, pr, next);
    forall q | q in s'.procs ensures PcOk(s', q, s'.procs[q]) {
      if q != pr { assert PcOk(s, q, s.procs[q]); }
    }
    forall k | k in s'.shared ensures Legit(s', k) { assert Legit(s, k); }
  }

  lemma WorldChange(s: State, w': World, pr: ProcId)
    requires InvBut(s, pr) && WorldOk(w') && Evolves(s.w, w')
    ensures InvBut(s.(w := w'), pr)
  {
    var s' := s.(w := w');
    forall q | q in s'.procs && q != pr ensures PcOk(s', q, s'.procs[q]) {
      assert PcOk(s, q, s.procs[q]);
    }
    forall k | k in s'.shared ensures Legit(s', k) { assert Legit(s, k); }
  }

  /** discard/, owners/, supervisors, the manifest lock and the history do not matter here. */
  lemma OtherChange(s: State, s': State, pr: ProcId)
    requires InvBut(s, pr)
    requires s'.w == s.w && s'.green == s.green && s'.meta == s.meta
    requires s'.locks == s.locks && s'.procs == s.procs
    requires forall k :: k in s'.shared ==> k in s.shared && s'.shared[k] == s.shared[k]
    ensures InvBut(s', pr)
  {
    forall q | q in s'.procs && q != pr ensures PcOk(s', q, s'.procs[q]) {
      assert PcOk(s, q, s.procs[q]);
    }
    forall k | k in s'.shared ensures Legit(s', k) { assert Legit(s, k); }
  }

  /** A green layer nobody holds can appear; one the process itself holds can vanish. */
  lemma GreenChange(s: State, s': State, pr: ProcId)
    requires InvBut(s, pr) && GreenOk(s')
    requires s' == s.(green := s'.green)
    requires forall n :: n in s.green && !Holds(s, pr, n) ==> n in s'.green && s'.green[n] == s.green[n]
    ensures InvBut(s', pr)
  {
    forall q | q in s'.procs && q != pr ensures PcOk(s', q, s'.procs[q]) {
      assert PcOk(s, q, s.procs[q]);
    }
    forall k | k in s'.shared ensures Legit(s', k) { assert Legit(s, k); }
  }

  lemma MetaChange(s: State, s': State, pr: ProcId)
    requires InvBut(s, pr) && MetaOk(s')
    requires s' == s.(meta := s'.meta)
    ensures InvBut(s', pr)
  {
    forall q | q in s'.procs && q != pr ensures PcOk(s', q, s'.procs[q]) {
      assert PcOk(s, q, s.procs[q]);
    }
    forall k | k in s'.shared ensures Legit(s', k) { assert Legit(s, k); }
  }

  lemma LockChange(s: State, n: string, pr: ProcId)
    requires InvBut(s, pr) && n !in s.locks
    ensures InvBut(s.(locks := s.locks[n := pr]), pr)
  {
    var s' := s.(locks := s.locks[n := pr]);
    forall q | q in s'.procs && q != pr ensures PcOk(s', q, s'.procs[q]) {
      assert PcOk(s, q, s.procs[q]);
    }
    forall k | k in s'.shared ensures Legit(s', k) { assert Legit(s, k); }
  }

  lemma SharedChange(s: State, s': State, k: Key, pr: ProcId)
    requires InvBut(s, pr)
    requires s' == s.(shared := s'.shared) && k in s'.shared && s'.shared == s.shared[k := s'.shared[k]]
    requires Legit(s', k)
    ensures InvBut(s', pr)
  {
    forall q | q in s'.procs && q != pr ensures PcOk(s', q, s'.procs[q]) {
      assert PcOk(s, q, s.procs[q]);
    }
    forall j | j in s'.shared ensures Legit(s', j) { if j != k { assert Legit(s, j); } }
  }

  // ------------------------------------------------------------- every effect

  /** What the process must know for its next operation to be safe. */
  ghost predicate EffectOk(s: State, pr: ProcId, e: Effect) {
    match e
    case ToDiscard(_, _, verdict) => verdict != Pending
    case ToGreen(v, target) => Named(target, v)
    case MakeLayer(v, _) => DotFree(v)
    case WriteMeta(n, v) => DotFree(v) && Named(n, v)
    case Lock(n) => n !in s.locks
    case Evict(n, _) => Holds(s, pr, n)
    case LinkEntry(n, _, _) => Promotable(s, pr, n)
    case DropGreen(n) => Holds(s, pr, n)
    case _ => true
  }

  lemma TakeChange(s: State, pr: ProcId, v: VmName, verdict: Verdict)
    requires InvBut(s, pr) && v in s.w.jobs && verdict != Pending
    ensures InvBut(s.(w := Take(s.w, v, verdict)), pr) && Evolves(s.w, Take(s.w, v, verdict))
  {
    TakeKeeps(s.w, v, verdict);
    WorldChange(s, Take(s.w, v, verdict), pr);
  }

  lemma DiscardKeeps(s: State, pr: ProcId, v: VmName, target: string, verdict: Verdict)
    requires InvBut(s, pr) && verdict != Pending
    ensures var s' := Perform(s, pr, ToDiscard(v, target, verdict)); InvBut(s', pr) && Evolves(s.w, s'.w)
  {
    SameEvolves(s.w);
    var s' := Perform(s, pr, ToDiscard(v, target, verdict));
    hide InvBut, Evolves, Take;
    if CanMove(s, v, s.discard, target) {
      TakeChange(s, pr, v, verdict);
      assert s' == s.(w := Take(s.w, v, verdict), discard := s'.discard);
      OtherChange(s.(w := s'.w), s', pr);
    }
  }

  lemma GreenKeeps(s: State, pr: ProcId, v: VmName, target: string)
    requires InvBut(s, pr) && Named(target, v)
    ensures var s' := Perform(s, pr, ToGreen(v, target)); InvBut(s', pr) && Evolves(s.w, s'.w)
  {
    SameEvolves(s.w);
    var s' := Perform(s, pr, ToGreen(v, target));
    if CanMove(s, v, s.green, target) {
      TakeChange(s, pr, v, Green);
      GreenTaken(s, pr, v, target);
      hide InvBut, Evolves, Take;
      GreenChange(s.(w := s'.w), s', pr);
    }
  }

  lemma GreenTaken(s: State, pr: ProcId, v: VmName, target: string)
    requires InvBut(s, pr) && Named(target, v) && CanMove(s, v, s.green, target)
    ensures var s' := Perform(s, pr, ToGreen(v, target));
            && GreenOk(s') && s'.w == Take(s.w, v, Green) && s' == s.(w := s'.w, green := s.green[target := s.w.jobs[v]])
  {
  }

  lemma RenameKeeps(s: State, pr: ProcId, e: Effect)
    requires InvBut(s, pr) && EffectOk(s, pr, e) && (e.ToDiscard? || e.ToGreen?)
    ensures InvBut(Perform(s, pr, e), pr) && Evolves(s.w, Perform(s, pr, e).w)
  {
    hide InvBut, Perform, Evolves;
    if e.ToDiscard? { DiscardKeeps(s, pr, e.v, e.target, e.verdict); } else { GreenKeeps(s, pr, e.v, e.target); }
  }

  lemma AdoptKeeps(w: World, v: VmName, p: Pid)
    requires WorldOk(w) && v in w.jobs
    ensures WorldOk(Adopt(w, v, p)) && Evolves(w, Adopt(w, v, p))
  {
    var w' := Adopt(w, v, p);
    forall u, l ensures Reaches(w', u, l) == Reaches(w, u, l) { }
  }

  lemma MadeKeeps(w: World, v: VmName, p: Pid)
    requires WorldOk(w) && DotFree(v)
    ensures WorldOk(Made(w, v, p)) && Evolves(w, Made(w, v, p))
  {
    hide WorldOk, Evolves;
    if v in w.jobs { AdoptKeeps(w, v, p); } else { NewLayerKeeps(w, v, Some(p), {}); }
  }

  lemma MakeLayerKeeps(s: State, pr: ProcId, v: VmName, p: Pid)
    requires InvBut(s, pr) && DotFree(v)
    ensures InvBut(Perform(s, pr, MakeLayer(v, p)), pr) && Evolves(s.w, Perform(s, pr, MakeLayer(v, p)).w)
  {
    var s' := Perform(s, pr, MakeLayer(v, p));
    MadeKeeps(s.w, v, p);
    hide Made, Evolves;
    WorldChange(s, s'.w, pr);
    OtherChange(s.(w := s'.w), s', pr);
  }

  lemma NoteGoneKeeps(s: State, pr: ProcId, n: string)
    requires InvBut(s, pr)
    ensures InvBut(Perform(s, pr, NoteGone(n)), pr) && Evolves(s.w, Perform(s, pr, NoteGone(n)).w)
  {
    hide InvBut;
    InvButParts(s, pr);
    if n in s.green {
      SeenGoneKeeps(s.w, s.green[n]);
      hide SeenGone, Evolves, WorldOk;
      WorldChange(s, SeenGone(s.w, s.green[n]), pr);
    } else {
      SameEvolves(s.w);
    }
  }

  lemma DropEntryKeeps(s: State, pr: ProcId, n: string, k: Key)
    requires InvBut(s, pr)
    ensures InvBut(Perform(s, pr, DropEntry(n, k)), pr) && Evolves(s.w, Perform(s, pr, DropEntry(n, k)).w)
  {
    hide InvBut;
    InvButParts(s, pr);
    if n in s.green {
      RemoveEntryKeeps(s.w, s.green[n], k);
      hide RemoveEntry, Evolves, WorldOk;
      WorldChange(s, RemoveEntry(s.w, s.green[n], k), pr);
    } else {
      SameEvolves(s.w);
    }
  }

  lemma LinkKeeps(s: State, pr: ProcId, n: string, k: Key, copyAt: Option<int>)
    requires InvBut(s, pr) && Promotable(s, pr, n) && Candidate(s, n, k)
    ensures InvBut(Link(s, pr, k, Source(s, n, k), copyAt), pr)
    ensures Evolves(s.w, Link(s, pr, k, Source(s, n, k), copyAt).w)
  {
    var i := Source(s, n, k);
    var s' := Link(s, pr, k, i, copyAt);
    SameEvolves(s.w);
    if copyAt.Some? { CopyKeeps(s.w, i, copyAt.value); }
    var s1 := s.(w := s'.w);
    WorldChange(s, s'.w, pr);
    var s2 := s1.(manifestLock := s'.manifestLock);
    OtherChange(s1, s2, pr);
    SharedChange(s2, s', k, pr);
  }

  lemma DirectoryEffectKeeps(s: State, pr: ProcId, e: Effect)
    requires InvBut(s, pr) && EffectOk(s, pr, e)
    requires e.WriteMeta? || e.UnlinkMeta? || e.Lock? || e.Evict? || e.DropGreen?
    ensures InvBut(Perform(s, pr, e), pr) && Perform(s, pr, e).w == s.w
  {
    hide InvBut;
    var s' := Perform(s, pr, e);
    match e
    case WriteMeta(_, _) => InvButParts(s, pr); MetaChange(s, s', pr);
    case UnlinkMeta(_) => InvButParts(s, pr); MetaChange(s, s', pr);
    case Lock(n) => LockChange(s, n, pr);
    case Evict(n, target) =>
      InvButParts(s, pr);
      if n in s.green && target !in s.discard {
        GreenChange(s, s.(green := s'.green), pr);
        OtherChange(s.(green := s'.green), s', pr);
      }
    case DropGreen(_) => InvButParts(s, pr); GreenChange(s, s', pr);
  }

  lemma InvButParts(s: State, pr: ProcId)
    requires InvBut(s, pr)
    ensures WorldOk(s.w) && GreenOk(s) && MetaOk(s) && SharedOk(s)
  {
  }

  /** Every safe effect keeps the invariant, and nothing final is touched. */
  lemma PerformKeeps(s: State, pr: ProcId, e: Effect)
    requires InvBut(s, pr) && EffectOk(s, pr, e)
    ensures InvBut(Perform(s, pr, e), pr) && Evolves(s.w, Perform(s, pr, e).w)
  {
    hide InvBut, Evolves, Link, Candidate;
    SameEvolves(s.w);
    if e.ToDiscard? || e.ToGreen? { RenameKeeps(s, pr, e); }
    else if e.MakeLayer? { MakeLayerKeeps(s, pr, e.v, e.p); }
    else if e.NoteGone? { NoteGoneKeeps(s, pr, e.name); }
    else if e.DropEntry? { DropEntryKeeps(s, pr, e.name, e.key); }
    else if e.LinkEntry? { if Candidate(s, e.name, e.key) { LinkKeeps(s, pr, e.name, e.key, e.copyAt); } }
    else if e.WriteMeta? || e.UnlinkMeta? || e.Lock? || e.Evict? || e.DropGreen? { DirectoryEffectKeeps(s, pr, e); }
    else { OtherChange(s, Perform(s, pr, e), pr); }
  }

  // ------------------------------------------------- every process is always safe

  /** The name in the metadata, or the guess without it, is the name of the green layer's VM. */
  lemma MetaNamesTheVm(s: State, n: string)
    requires GreenOk(s) && MetaOk(s) && NamesOk(s.w) && n in s.green
    ensures (if n in s.meta then s.meta[n] else BeforeDot(n)) == s.w.layers[s.green[n]].vm
  {
    var vm := s.w.layers[s.green[n]].vm;
    GuessIsExact(vm);
    if n in s.meta { GuessIsExact(s.meta[n]); }
  }

  /** With its VM absent, nobody reaches a layer that has a verdict. */
  lemma AbsentMeansFrozen(w: World, l: LayerId)
    requires WorldOk(w) && l < |w.layers| && w.layers[l].verdict != Pending && w.layers[l].vm !in w.present
    ensures Frozen(w, l) && Frozen(SeenGone(w, l), l)
  {
    forall v ensures !Reaches(w, v, l) && !Reaches(SeenGone(w, l), v, l) {
    }
  }

  /** What a process at `pc` decides next is safe. */
  ghost predicate DecidesSafely(s: State, pr: ProcId, op: Op) {
    && EffectOk(s, pr, op.effect)
    && (op.next.Some? && GreenOk(Perform(s, pr, op.effect)) ==>
          PcOk(Perform(s, pr, op.effect), pr, op.next.value))
  }

  lemma AttachDecides(s: State, pr: ProcId, pc: Pc, ch: Choice)
    requires WorldOk(s.w) && GreenOk(s) && PcOk(s, pr, pc)
    ensures DecidesSafely(s, pr, DecideAttach(s, pc, ch))
  {
    match pc
    case AttachCheck(_, _) =>
    case AttachTarget(_, _) =>
    case AttachStale(_, _, _) =>
    case AttachOwner(_, _) =>
    case AttachWrite(_, _) =>
    case AttachMkdir(_, _) =>
    case _ =>
  }

  lemma SettleDecides(s: State, pr: ProcId, pc: Pc, ch: Choice)
    requires WorldOk(s.w) && GreenOk(s) && PcOk(s, pr, pc)
    ensures DecidesSafely(s, pr, DecideSettle(s, pc, ch))
  {
    match pc
    case SettleCheck(_, _) =>
    case SettleTarget(v, green) =>
      if Suffix(ch.text) { assert Named(UniqueTarget(if green then s.green else s.discard, v, ch.text), v); }
    case SettleMove(v, green, target) =>
      if v in s.w.jobs { assert DotFree(s.w.layers[s.w.jobs[v]].vm); }
    case SettleOwner(_, _, _) =>
    case SettleMeta(_, _) =>
    case _ =>
  }

  lemma SweepDecides(s: State, pr: ProcId, pc: Pc, ch: Choice)
    requires GreenOk(s) && PcOk(s, pr, pc)
    ensures DecidesSafely(s, pr, DecideSweep(s, pc, ch))
  {
    match pc
    case SweepList =>
    case SweepLoop(_) =>
    case SweepTest(_, _, _) =>
    case SweepDead(_, _) =>
    case SweepMove(_, _, _) =>
    case SweepOwner(_, _) =>
    case _ =>
  }

  lemma WorldHasNames(w: World)
    requires WorldOk(w)
    ensures NamesOk(w)
  {
  }

  lemma LookDecides(s: State, pr: ProcId, pc: Pc, ch: Choice)
    requires WorldOk(s.w) && GreenOk(s) && MetaOk(s) && PcOk(s, pr, pc)
    requires pc.ProcLock? || pc.ProcDiscardTest? || pc.ProcDelete? || pc.ProcGreenTest? || pc.ProcMeta?
    ensures DecidesSafely(s, pr, DecideProcess(s, pc, ch))
  {
    if pc.ProcMeta? {
      WorldHasNames(s.w);
      MetaNamesTheVm(s, pc.name);
    }
    LookOps(s, pc, ch);
    hide WorldOk, MetaOk, DecideProcess, DecidesSafely;
    match pc
    case ProcLock(n) => NothingEnds(s, pr); if n !in s.locks { LockTaken(s, pr, n); }
    case ProcDiscardTest(n) => NothingDecides(s, pr, if n in s.discard then ProcDelete(n) else ProcGreenTest(n));
    case ProcDelete(n) => DropEnds(s, pr, n); NothingEnds(s, pr);
    case ProcGreenTest(n) => NothingEnds(s, pr); if n in s.green { NothingDecides(s, pr, ProcMeta(n)); }
    case ProcMeta(n) => NothingDecides(s, pr, ProcWait(n, if n in s.meta then s.meta[n] else BeforeDot(n)));
  }

  lemma LookOps(s: State, pc: Pc, ch: Choice)
    requires pc.ProcLock? || pc.ProcDiscardTest? || pc.ProcDelete? || pc.ProcGreenTest? || pc.ProcMeta?
    ensures DecideProcess(s, pc, ch) ==
      match pc {
        case ProcLock(n) => if n in s.locks then Op(Nothing, None) else Op(Lock(n), Some(ProcDiscardTest(n)))
        case ProcDiscardTest(n) => Op(Nothing, Some(if n in s.discard then ProcDelete(n) else ProcGreenTest(n)))
        case ProcDelete(n) => Op(if ch.flag then DropDiscard(n) else Nothing, None)
        case ProcGreenTest(n) => Op(Nothing, if n in s.green then Some(ProcMeta(n)) else None)
        case _ => Op(Nothing, Some(ProcWait(pc.name, if pc.name in s.meta then s.meta[pc.name] else BeforeDot(pc.name))))
      }
  {
  }

  lemma NothingEnds(s: State, pr: ProcId)
    ensures DecidesSafely(s, pr, Op(Nothing, None))
  {
  }

  lemma DropEnds(s: State, pr: ProcId, n: string)
    ensures DecidesSafely(s, pr, Op(DropDiscard(n), None))
  {
  }

  lemma LockTaken(s: State, pr: ProcId, n: string)
    requires n !in s.locks
    ensures DecidesSafely(s, pr, Op(Lock(n), Some(ProcDiscardTest(n))))
  {
  }

  lemma NothingDecides(s: State, pr: ProcId, next: Pc)
    requires GreenOk(s) && PcOk(s, pr, next)
    ensures DecidesSafely(s, pr, Op(Nothing, Some(next)))
  {
  }

  lemma WaitDecides(s: State, pr: ProcId, pc: Pc, ch: Choice)
    requires WorldOk(s.w) && GreenOk(s) && PcOk(s, pr, pc) && pc.ProcWait?
    ensures DecidesSafely(s, pr, DecideProcess(s, pc, ch))
  {
    var ProcWait(n, vm) := pc;
    if !ch.flag && vm !in s.w.present {
      var s' := Perform(s, pr, NoteGone(n));
      if GreenOk(s') { AbsentIsSafe(s, pr, n); }
      assert DecideProcess(s, pc, ch) == Op(NoteGone(n), Some(ProcPromote(n, Listed(s, n))));
    } else {
      assert DecideProcess(s, pc, ch).effect == Nothing;
    }
  }

  lemma AbsentIsSafe(s: State, pr: ProcId, n: string)
    requires WorldOk(s.w) && GreenOk(s) && Holds(s, pr, n) && n in s.green
    requires GreenOk(Perform(s, pr, NoteGone(n)))
    ensures s.w.layers[s.green[n]].vm !in s.w.present ==> Promotable(Perform(s, pr, NoteGone(n)), pr, n)
  {
    if s.w.layers[s.green[n]].vm !in s.w.present { AbsentMeansFrozen(s.w, s.green[n]); }
  }

  lemma EvictDecides(s: State, pr: ProcId, pc: Pc, ch: Choice)
    requires GreenOk(s) && PcOk(s, pr, pc)
    requires pc.ProcTarget? || pc.ProcEvict? || pc.ProcRemove? || pc.ProcUnmeta?
    ensures DecidesSafely(s, pr, DecideProcess(s, pc, ch))
  {
    hide GreenOk, RemoveEntry, Candidate, DecidePublish;
    match pc
    case ProcTarget(_) =>
    case ProcEvict(_, _) =>
    case ProcRemove(_) =>
    case ProcUnmeta(_) =>
  }

  /** Publishing one entry leaves the layer promotable. */
  lemma LinkStaysPromotable(s: State, pr: ProcId, n: string, k: Key, copyAt: Option<int>)
    requires WorldOk(s.w) && Promotable(s, pr, n)
    ensures Promotable(Perform(s, pr, LinkEntry(n, k, copyAt)), pr, n)
  {
    if Candidate(s, n, k) && copyAt.Some? {
      CopyKeeps(s.w, Source(s, n, k), copyAt.value);
      assert LayersEvolve(s.w, Copy(s.w, Source(s, n, k), copyAt.value));
    }
  }

  lemma LinkDecides(s: State, pr: ProcId, n: string, k: Key, copyAt: Option<int>, rest: set<Key>)
    requires WorldOk(s.w) && GreenOk(s) && Promotable(s, pr, n)
    ensures DecidesSafely(s, pr, Op(LinkEntry(n, k, copyAt), Some(ProcPromote(n, rest))))
  {
    LinkStaysPromotable(s, pr, n, k, copyAt);
    hide WorldOk, Promotable, Perform;
  }

  lemma LockDecides(s: State, pr: ProcId, n: string, k: Key, rest: set<Key>)
    requires GreenOk(s) && Promotable(s, pr, n)
    ensures DecidesSafely(s, pr, Op(LockManifests, Some(ProcReplace(n, k, rest))))
  {
    assert Promotable(s.(manifestLock := Some(pr)), pr, n);
    hide Promotable, GreenOk;
  }

  lemma PromoteDecides(s: State, pr: ProcId, pc: Pc, ch: Choice)
    requires WorldOk(s.w) && GreenOk(s) && PcOk(s, pr, pc) && pc.ProcPromote?
    ensures DecidesSafely(s, pr, DecideProcess(s, pc, ch))
  {
    var ProcPromote(n, rest) := pc;
    assert Promotable(s, pr, n) && Holds(s, pr, n);
    var left := rest - {ch.key};
    PromoterOps(s, n, rest, ch);
    hide WorldOk, Promotable, Candidate, GreenOk, DecideProcess, DecidesSafely;
    LinkDecides(s, pr, n, ch.key, ch.copyAt, left);
    LockDecides(s, pr, n, ch.key, left);
    NothingDecides(s, pr, pc);
    NothingDecides(s, pr, ProcPromote(n, left));
    NothingDecides(s, pr, ProcRemove(n));
  }

  /** All a promoter before its entries can decide. */
  lemma PromoterOps(s: State, n: string, rest: set<Key>, ch: Choice)
    ensures var op, left := DecideProcess(s, ProcPromote(n, rest), ch), rest - {ch.key};
            || (op == Op(Nothing, Some(ProcRemove(n))) && rest == {})
            || op == Op(Nothing, Some(ProcPromote(n, rest)))
            || op == Op(Nothing, Some(ProcPromote(n, left)))
            || op == Op(LockManifests, Some(ProcReplace(n, ch.key, left)))
            || op == Op(LinkEntry(n, ch.key, ch.copyAt), Some(ProcPromote(n, left)))
  {
    hide DecidePublish, Candidate;
    if ch.key in rest && Candidate(s, n, ch.key) {
      PublishOptions(s, n, rest, ch);
    }
  }

  /** A promoter at an entry leaves it, takes the manifest lock, or links it. */
  lemma PublishOptions(s: State, n: string, listed: set<Key>, ch: Choice)
    requires Candidate(s, n, ch.key)
    ensures var op := DecidePublish(s, n, listed, ch);
            || op == Op(Nothing, Some(ProcPromote(n, listed)))
            || op == Op(Nothing, Some(ProcPromote(n, listed - {ch.key})))
            || op == Op(LockManifests, Some(ProcReplace(n, ch.key, listed - {ch.key})))
            || op == Op(LinkEntry(n, ch.key, ch.copyAt), Some(ProcPromote(n, listed - {ch.key})))
  {
  }

  lemma ReplaceDecides(s: State, pr: ProcId, pc: Pc, ch: Choice)
    requires WorldOk(s.w) && GreenOk(s) && PcOk(s, pr, pc) && pc.ProcReplace?
    ensures DecidesSafely(s, pr, DecideProcess(s, pc, ch))
  {
    var ProcReplace(n, k, rest) := pc;
    if Candidate(s, n, k) {
      var keep := s.w.inodes[Source(s, n, k)].file.mtime;
      var copyAt := if ch.copyAt.Some? then Some(keep) else None;
      LinkDecides(s, pr, n, k, copyAt, rest);
      assert DecideProcess(s, pc, ch) == Op(LinkEntry(n, k, copyAt), Some(ProcPromote(n, rest)));
    }
  }

  /** Every operation of every process, whatever the environment decides. */
  lemma OperationKeeps(s: State, pr: ProcId, ch: Choice)
    requires Inv(s) && pr in s.procs
    ensures Inv(Apply(s, Run(pr, ch))) && Evolves(s.w, Apply(s, Run(pr, ch)).w)
  {
    hide Inv, InvBut, Evolves, PcOk, EffectOk, Perform, DecideAttach, DecideSettle, DecideSweep, DecideProcess;
    InvSplit(s, pr);
    var pc := s.procs[pr];
    var op := Decide(s, pc, ch);
    AttachDecides(s, pr, pc, ch);
    SettleDecides(s, pr, pc, ch);
    SweepDecides(s, pr, pc, ch);
    match pc {
      case ProcLock(_) => LookDecides(s, pr, pc, ch);
      case ProcDiscardTest(_) => LookDecides(s, pr, pc, ch);
      case ProcDelete(_) => LookDecides(s, pr, pc, ch);
      case ProcGreenTest(_) => LookDecides(s, pr, pc, ch);
      case ProcMeta(_) => LookDecides(s, pr, pc, ch);
      case ProcPromote(_, _) => PromoteDecides(s, pr, pc, ch);
      case ProcReplace(_, _, _) => ReplaceDecides(s, pr, pc, ch);
      case ProcWait(_, _) => WaitDecides(s, pr, pc, ch);
      case ProcTarget(_) => EvictDecides(s, pr, pc, ch);
      case ProcEvict(_, _) => EvictDecides(s, pr, pc, ch);
      case ProcRemove(_) => EvictDecides(s, pr, pc, ch);
      case ProcUnmeta(_) => EvictDecides(s, pr, pc, ch);
      case _ =>
    }
    assert DecidesSafely(s, pr, op);
    PerformKeeps(s, pr, op.effect);
    InvButParts(Perform(s, pr, op.effect), pr);
    ContinueKeeps(Perform(s, pr, op.effect), pr, op.next);
  }
}
