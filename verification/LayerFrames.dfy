/** What each file operation of the job-layer protocol leaves alone. */
module LayerFrames {
  import opened Basics
  import opened LayerProtocol

  /** The operations that change a layer, a file or jobs/. */
  predicate ChangesWorld(e: Effect) {
    e.ToDiscard? || e.ToGreen? || e.MakeLayer? || e.NoteGone? || e.LinkEntry? || e.DropEntry?
  }

  function ManifestLockAfter(s: State, pr: ProcId, e: Effect): Option<ProcId> {
    if e.LockManifests? then Some(pr)
    else if e.LinkEntry? && Candidate(s, e.name, e.key) && s.manifestLock == Some(pr) then None
    else s.manifestLock
  }

  /** The parts of the state no operation, or only some, can change. */
  ghost predicate Framed(s: State, s': State, pr: ProcId, e: Effect) {
    && s'.procs == s.procs && s'.alive == s.alive && s'.born == s.born && s'.started == s.started
    && (!e.ToGreen? && !e.Evict? && !e.DropGreen? ==> s'.green == s.green)
    && (!e.WriteOwner? && !e.ClearOwner? ==> s'.owners == s.owners)
    && (!e.MakeLayer? ==> s'.made == s.made)
    && (!ChangesWorld(e) ==> s'.w == s.w)
    && s'.manifestLock == ManifestLockAfter(s, pr, e)
  }

  lemma DirectoryFrame(s: State, pr: ProcId, e: Effect)
    requires e.Nothing? || e.WriteOwner? || e.ClearOwner? || e.WriteMeta? || e.UnlinkMeta?
    ensures Framed(s, Perform(s, pr, e), pr, e)
  {
    match e
    case Nothing =>
    case WriteOwner(_, _) =>
    case ClearOwner(_) =>
    case WriteMeta(_, _) =>
    case UnlinkMeta(_) =>
  }

  lemma LockFrame(s: State, pr: ProcId, e: Effect)
    requires e.Lock? || e.DropDiscard? || e.Evict? || e.LockManifests? || e.DropGreen?
    ensures Framed(s, Perform(s, pr, e), pr, e)
  {
    match e
    case Lock(_) =>
    case DropDiscard(_) =>
    case Evict(_, _) =>
    case LockManifests =>
    case DropGreen(_) =>
  }

  lemma DiscardFrame(s: State, pr: ProcId, v: VmName, target: string, verdict: Verdict)
    ensures Framed(s, Perform(s, pr, ToDiscard(v, target, verdict)), pr, ToDiscard(v, target, verdict))
  {
    hide Take;
    var s' := Perform(s, pr, ToDiscard(v, target, verdict));
    if CanMove(s, v, s.discard, target) {
      assert s' == s.(w := Take(s.w, v, verdict), discard := s.discard[target := s.w.jobs[v]]);
    } else {
      assert s' == s;
    }
  }

  lemma GreenFrame(s: State, pr: ProcId, v: VmName, target: string)
    ensures Framed(s, Perform(s, pr, ToGreen(v, target)), pr, ToGreen(v, target))
  {
    hide Take;
    var s' := Perform(s, pr, ToGreen(v, target));
    if CanMove(s, v, s.green, target) {
      assert s' == s.(w := Take(s.w, v, Green), green := s.green[target := s.w.jobs[v]]);
    } else {
      assert s' == s;
    }
  }

  lemma MakeLayerFrame(s: State, pr: ProcId, v: VmName, p: Pid)
    ensures Framed(s, Perform(s, pr, MakeLayer(v, p)), pr, MakeLayer(v, p))
  {
    hide Made;
    assert Perform(s, pr, MakeLayer(v, p)) == s.(w := Made(s.w, v, p), made := s.made + {v});
  }

  lemma NoteGoneFrame(s: State, pr: ProcId, n: string)
    ensures Framed(s, Perform(s, pr, NoteGone(n)), pr, NoteGone(n))
  {
    hide SeenGone;
    var s' := Perform(s, pr, NoteGone(n));
    assert s' == s.(w := s'.w);
  }

  lemma DropEntryFrame(s: State, pr: ProcId, n: string, k: Key)
    ensures Framed(s, Perform(s, pr, DropEntry(n, k)), pr, DropEntry(n, k))
  {
    hide RemoveEntry;
    var s' := Perform(s, pr, DropEntry(n, k));
    assert s' == s.(w := s'.w);
  }

  lemma LinkFrame(s: State, pr: ProcId, n: string, k: Key, copyAt: Option<int>)
    ensures Framed(s, Perform(s, pr, LinkEntry(n, k, copyAt)), pr, LinkEntry(n, k, copyAt))
  {
    hide Copy;
    if Candidate(s, n, k) {
      assert Perform(s, pr, LinkEntry(n, k, copyAt)) == Link(s, pr, k, Source(s, n, k), copyAt);
    } else {
      assert Perform(s, pr, LinkEntry(n, k, copyAt)) == s;
    }
  }

  lemma Frame(s: State, pr: ProcId, e: Effect)
    ensures Framed(s, Perform(s, pr, e), pr, e)
  {
    hide Framed, Perform;
    if e.ToDiscard? { DiscardFrame(s, pr, e.v, e.target, e.verdict); }
    else if e.ToGreen? { GreenFrame(s, pr, e.v, e.target); }
    else if e.MakeLayer? { MakeLayerFrame(s, pr, e.v, e.p); }
    else if e.NoteGone? { NoteGoneFrame(s, pr, e.name); }
    else if e.DropEntry? { DropEntryFrame(s, pr, e.name, e.key); }
    else if e.LinkEntry? { LinkFrame(s, pr, e.name, e.key, e.copyAt); }
    else if e.Lock? || e.DropDiscard? || e.Evict? || e.LockManifests? || e.DropGreen? { LockFrame(s, pr, e); }
    else { DirectoryFrame(s, pr, e); }
  }
}
