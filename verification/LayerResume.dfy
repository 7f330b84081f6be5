/**
 The promotion loop on the state machine: in every run, with promoters interleaved and crashing
 anywhere, the shared cache is what `promote_layer` computes from the entries they came to. So what
 is proved about the loop (order, repetition, resumption) holds of the protocol.
 */
module LayerResume {
  import opened Basics
  import opened LayerProtocol
  import opened LayerProvenance
  import opened LayerRuns
  import opened LayerManifests
  import P = LayerPromotion

  /** The published cache as values. Sizes play no part in the protocol. */
  function Cached(s: State): P.Cache {
    map k | k in s.shared && s.shared[k] < |s.w.inodes| :: P.Published(s.w.inodes[s.shared[k]].file, 0)
  }

  /** The entry a step of a promoter publishes, or finds it need not; None for every other step. */
  function Attempt(s: State, step: Step): Option<P.Item> {
    if step.Run? && step.pr in s.procs then
      var pc, ch := s.procs[step.pr], step.ch;
      match pc
      case ProcPromote(n, rest) =>
        if ch.key !in rest || !Candidate(s, n, ch.key) then None
        else
          var file := s.w.inodes[Source(s, n, ch.key)].file;
          if file.kind == ManifestEntry then
            if s.manifestLock == None && ch.key in s.shared && s.shared[ch.key] < |s.w.inodes|
               && file.mtime <= s.w.inodes[s.shared[ch.key]].file.mtime
            then Some(ItemOf(ch.key, file)) else None
          else Some(ItemOf(ch.key, if ch.copyAt.Some? then file.(mtime := ch.copyAt.value) else file))
      case ProcReplace(n, k, _) => if Candidate(s, n, k) then Some(ItemOf(k, s.w.inodes[Source(s, n, k)].file)) else None
      case _ => None
    else None
  }

  function ItemOf(k: Key, file: File): P.Item { P.Item(k, P.Regular(file, 0)) }

  /** Every key is a manifest key or a result key, as far as this state shows. */
  ghost predicate Sorted(s: State, manifestKeys: iset<Key>) {
    OnlyManifests(s, manifestKeys) && forall k :: k !in manifestKeys ==> NoManifestAt(s, k)
  }

  function AfterAttempt(c: P.Cache, a: Option<P.Item>): P.Cache { if a.Some? then P.PublishOne(c, a.value) else c }

  // ------------------------------------------------------------------------------ one step

  lemma FilesStay(s: State, s': State)
    requires Inv(s) && Evolves(s.w, s'.w)
    ensures forall k :: k in s.shared ==>
      s.shared[k] < |s.w.inodes| <= |s'.w.inodes| && s'.w.inodes[s.shared[k]].file == s.w.inodes[s.shared[k]].file
  {
    forall k | k in s.shared ensures s.shared[k] < |s.w.inodes| && s'.w.inodes[s.shared[k]].file == s.w.inodes[s.shared[k]].file {
      assert Legit(s, k);
    }
  }

  lemma CachedSame(s: State, s': State)
    requires Inv(s) && Evolves(s.w, s'.w) && s'.shared == s.shared
    ensures Cached(s') == Cached(s)
  {
    FilesStay(s, s');
    hide Inv, Evolves;
  }

  lemma CachedLink(s: State, s': State, k: Key, i: Ino, file: File)
    requires Inv(s) && Evolves(s.w, s'.w) && s'.shared == s.shared[k := i] && i < |s'.w.inodes| && s'.w.inodes[i].file == file
    ensures Cached(s') == Cached(s)[k := P.Published(file, 0)]
  {
    FilesStay(s, s');
    hide Inv, Evolves;
  }

  lemma LinkResult(s: State, pr: ProcId, k: Key, i: Ino, copyAt: Option<int>)
    requires Inv(s) && i < |s.w.inodes| && Evolves(s.w, Link(s, pr, k, i, copyAt).w)
    ensures var file := s.w.inodes[i].file;
            Cached(Link(s, pr, k, i, copyAt)) ==
            Cached(s)[k := P.Published(if copyAt.Some? then file.(mtime := copyAt.value) else file, 0)]
  {
    var s', file := Link(s, pr, k, i, copyAt), s.w.inodes[i].file;
    hide Inv, Evolves;
    CachedLink(s, s', k, s'.shared[k], if copyAt.Some? then file.(mtime := copyAt.value) else file);
  }

  /** An entry a promoter leaves alone would not have won. */
  lemma LeftAlone(s: State, pr: ProcId, ch: Choice, n: string, rest: set<Key>)
    requires Inv(s) && pr in s.procs && s.procs[pr] == ProcPromote(n, rest) && !Decide(s, ProcPromote(n, rest), ch).effect.LinkEntry?
    ensures AfterAttempt(Cached(s), Attempt(s, Run(pr, ch))) == Cached(s)
  {
    InvIndexes(s);
    hide Inv, ValidKey;
    var a := Attempt(s, Run(pr, ch));
    assert a.Some? ==> a.value.key in Cached(s) && !P.Wins(Cached(s), a.value);
    hide Attempt, Cached, Candidate;
  }

  /** An entry a promoter links was free, and a result. */
  lemma Linked(s: State, pr: ProcId, ch: Choice, n: string, rest: set<Key>)
    requires pr in s.procs && s.procs[pr] == ProcPromote(n, rest) && Decide(s, ProcPromote(n, rest), ch).effect.LinkEntry?
    ensures Candidate(s, n, ch.key) && Decide(s, ProcPromote(n, rest), ch).effect == LinkEntry(n, ch.key, ch.copyAt)
    ensures var file := s.w.inodes[Source(s, n, ch.key)].file;
            var now := if ch.copyAt.Some? then file.(mtime := ch.copyAt.value) else file;
            AfterAttempt(Cached(s), Attempt(s, Run(pr, ch))) == Cached(s)[ch.key := P.Published(now, 0)]
  {
    hide ValidKey;
  }

  /** A promoter at an entry: it links a result at a free key, or leaves the entry, or stages a manifest. */
  lemma PromoterAttempts(s: State, pr: ProcId, ch: Choice, n: string, rest: set<Key>)
    requires Inv(s) && pr in s.procs && s.procs[pr] == ProcPromote(n, rest)
    requires Evolves(s.w, Perform(s, pr, Decide(s, s.procs[pr], ch).effect).w)
    ensures Cached(Perform(s, pr, Decide(s, s.procs[pr], ch).effect)) == AfterAttempt(Cached(s), Attempt(s, Run(pr, ch)))
  {
    hide Inv, Evolves, Attempt, Cached, AfterAttempt;
    var e := Decide(s, ProcPromote(n, rest), ch).effect;
    if e.LinkEntry? {
      Linked(s, pr, ch, n, rest);
      assert Perform(s, pr, e) == Link(s, pr, ch.key, Source(s, n, ch.key), ch.copyAt);
      LinkResult(s, pr, ch.key, Source(s, n, ch.key), ch.copyAt);
    } else {
      LeftAlone(s, pr, ch, n, rest);
      OnlyLinkShares(s, pr, e);
      CachedSame(s, Perform(s, pr, e));
    }
  }

  lemma StagedKey(s: State, n: string, k: Key, manifestKeys: iset<Key>)
    requires Staged(s, n, k, manifestKeys) && Sorted(s, manifestKeys)
    ensures k in manifestKeys
  {
    assert k !in manifestKeys ==> NoManifestAt(s, k);
  }

  /** A staged manifest wins when it is put in place. */
  lemma Replaced(s: State, pr: ProcId, ch: Choice, n: string, k: Key, rest: set<Key>, manifestKeys: iset<Key>)
    requires Inv(s) && pr in s.procs && s.procs[pr] == ProcReplace(n, k, rest) && Staged(s, n, k, manifestKeys) && k in manifestKeys
    ensures AfterAttempt(Cached(s), Attempt(s, Run(pr, ch))) == Cached(s)[k := P.Published(s.w.inodes[Source(s, n, k)].file, 0)]
  {
    InvIndexes(s);
    hide Inv, ValidKey;
  }

  lemma ReplacerAttempts(s: State, pr: ProcId, ch: Choice, n: string, k: Key, rest: set<Key>, manifestKeys: iset<Key>)
    requires Inv(s) && pr in s.procs && s.procs[pr] == ProcReplace(n, k, rest) && Staged(s, n, k, manifestKeys) && Sorted(s, manifestKeys)
    requires Evolves(s.w, Perform(s, pr, Decide(s, s.procs[pr], ch).effect).w)
    ensures Cached(Perform(s, pr, Decide(s, s.procs[pr], ch).effect)) == AfterAttempt(Cached(s), Attempt(s, Run(pr, ch)))
  {
    hide Inv, Evolves, Attempt, Cached, AfterAttempt, Sorted;
    var e := Decide(s, ProcReplace(n, k, rest), ch).effect;
    StagedKey(s, n, k, manifestKeys);
    Replaced(s, pr, ch, n, k, rest, manifestKeys);
    StagedIsCandidate(s, n, k, manifestKeys);
    ReplacerLinks(s, ProcReplace(n, k, rest), ch);
    assert Perform(s, pr, e) == Link(s, pr, k, Source(s, n, k), e.copyAt);
    LinkResult(s, pr, k, Source(s, n, k), e.copyAt);
  }

  lemma RunAttempts(s: State, pr: ProcId, ch: Choice, manifestKeys: iset<Key>)
    requires Inv(s) && ManifestInv(s, manifestKeys) && Sorted(s, manifestKeys) && pr in s.procs
    ensures Cached(Apply(s, Run(pr, ch))) == AfterAttempt(Cached(s), Attempt(s, Run(pr, ch)))
  {
    var pc := s.procs[pr];
    var e := Decide(s, pc, ch).effect;
    OperationEvolves(s, pr, ch);
    OperationShared(s, pr, ch);
    SameCached(Apply(s, Run(pr, ch)), Perform(s, pr, e));
    if pc.ProcReplace? { assert Staged(s, pc.name, pc.key, manifestKeys); }
    hide Inv, ManifestInv, Sorted, Evolves, Apply;
    if pc.ProcPromote? {
      PromoterAttempts(s, pr, ch, pc.name, pc.rest);
    } else if pc.ProcReplace? {
      ReplacerAttempts(s, pr, ch, pc.name, pc.key, pc.rest, manifestKeys);
    } else {
      DecideNames(s, pc, ch);
      hide Decide;
      OnlyLinkShares(s, pr, e);
      CachedSame(s, Perform(s, pr, e));
    }
  }

  lemma SameCached(s: State, s': State)
    requires s.w == s'.w && s.shared == s'.shared
    ensures Cached(s) == Cached(s')
  {
  }

  /** Whatever step but a trim: the cache changes as one turn of the promotion loop, or not at all. */
  lemma StepAttempts(s: State, step: Step, manifestKeys: iset<Key>)
    requires Inv(s) && ManifestInv(s, manifestKeys) && Sorted(s, manifestKeys) && StepDotFree(step) && !step.TrimUnlink?
    ensures Cached(Apply(s, step)) == AfterAttempt(Cached(s), Attempt(s, step))
  {
    hide Inv, ManifestInv, Sorted, Evolves, Decide, Perform, Continue, Boot, Open, Put, Write, RemoveEntry, Mkdir, SpawnProc;
    if Runs(s, step) {
      RunAttempts(s, step.pr, step.ch, manifestKeys);
    } else {
      StepKeeps(s, step);
      if GuestStep(step) { GuestFrame(s, step); } else { NoProcessNoChange(s, step); }
      CachedSame(s, Apply(s, step));
    }
  }

  // ----------------------------------------------------------------------------- whole runs

  /** The entries promoters came to in steps i to j, in order. */
  function Attempts(steps: seq<Step>, i: nat, j: nat): seq<P.Item>
    requires i <= j <= |steps|
  {
    if i == j then []
    else
      var a := Attempt(At(steps, j - 1), steps[j - 1]);
      Attempts(steps, i, j - 1) + if a.Some? then [a.value] else []
  }

  ghost predicate SortedRun(steps: seq<Step>, manifestKeys: iset<Key>) {
    forall j | 0 <= j <= |steps| :: Sorted(At(steps, j), manifestKeys)
  }

  lemma SortedIsManifestRun(steps: seq<Step>, manifestKeys: iset<Key>)
    requires SortedRun(steps, manifestKeys)
    ensures ManifestRun(steps, manifestKeys)
  {
    forall j | 0 <= j <= |steps| ensures OnlyManifests(At(steps, j), manifestKeys) { assert Sorted(At(steps, j), manifestKeys); }
  }

  /** Over any stretch of any run without a trim, the cache is the promotion of the entries come to, in their order. */
  lemma {:induction false} RunIsPromotion(steps: seq<Step>, i: nat, j: nat, manifestKeys: iset<Key>)
    requires RunDotFree(steps) && SortedRun(steps, manifestKeys) && i <= j <= |steps|
    requires forall m | i <= m < j :: !steps[m].TrimUnlink?
    ensures Cached(At(steps, j)) == P.PromoteAll(Cached(At(steps, i)), Attempts(steps, i, j))
    decreases j - i
  {
    hide Apply, Inv, ManifestInv, Sorted, Attempt, Cached;
    if i < j {
      RunIsPromotion(steps, i, j - 1, manifestKeys);
      SortedIsManifestRun(steps, manifestKeys);
      RunManifests(steps, j - 1, manifestKeys);
      AtNext(steps, j - 1);
      var s := At(steps, j - 1);
      StepAttempts(s, steps[j - 1], manifestKeys);
      var before, a := Attempts(steps, i, j - 1), Attempt(s, steps[j - 1]);
      var now := Attempts(steps, i, j);
      assert now == before + if a.Some? then [a.value] else [];
      if a.Some? { assert now[..|now| - 1] == before; } else { assert now == before; }
    }
  }
}
