/**
 What an attach, a settle and a process have done by the time they end, in any interleaving: none of
 them leaves out a step, and each turn brings them nearer to their end.
 */
module LayerEndings {
  import opened Basics
  import opened LayerProtocol
  import opened LayerFrames
  import opened LayerRuns
  import opened LayerManifests
  import opened LayerCompletion
  import opened LayerOrphans

  /** Started at `first` before step i, the process lives on until its own step j, which ends it. */
  ghost predicate WholeCommand(steps: seq<Step>, i: nat, j: nat, pr: ProcId, first: Pc) {
    && i <= j < |steps| && Lives(steps, i, j, pr) && At(steps, i).procs[pr] == first
    && Acts(steps, j, pr) && pr !in At(steps, j + 1).procs
  }

  ghost predicate Lives(steps: seq<Step>, i: nat, j: nat, pr: ProcId) {
    i <= j <= |steps| && forall m | i <= m <= j :: pr in At(steps, m).procs
  }

  // -------------------------------------------------------------- what a step does to the files

  /** The layer of `v` goes from jobs/ to a free name of green/. */
  predicate GreenedAs(s: State, s': State, v: VmName, target: string) {
    && v in s.w.jobs && target !in s.green
    && s'.green == s.green[target := s.w.jobs[v]] && s'.w.jobs == s.w.jobs - {v}
  }

  ghost predicate SettledAs(steps: seq<Step>, m: nat, pr: ProcId, v: VmName, green: bool, target: string) {
    && Acts(steps, m, pr)
    && if green then GreenedAs(At(steps, m), At(steps, m + 1), v, target) else DiscardedAs(At(steps, m), At(steps, m + 1), v, target)
  }

  ghost predicate Claims(steps: seq<Step>, m: nat, pr: ProcId, v: VmName, p: Pid) {
    Acts(steps, m, pr) && At(steps, m + 1).owners == At(steps, m).owners[v := p]
  }

  /** Nothing is at jobs/v: it was found so, or was moved to discard/. */
  ghost predicate Frees(steps: seq<Step>, m: nat, pr: ProcId, v: VmName) {
    Acts(steps, m, pr) && (v !in At(steps, m).w.jobs || Renames(steps, m, pr, v))
  }

  /** What `process` takes for the VM of layer n. */
  function OnRecord(s: State, n: string): VmName { if n in s.meta then s.meta[n] else BeforeDot(n) }

  ghost predicate SeesGone(steps: seq<Step>, m: nat, pr: ProcId, vm: VmName) {
    Acts(steps, m, pr) && vm !in At(steps, m).w.present
  }

  /** Layer n of green/ goes to a free name of discard/. */
  ghost predicate GivenUp(steps: seq<Step>, m: nat, pr: ProcId, n: string) {
    Acts(steps, m, pr) && Discards(At(steps, m), At(steps, m + 1), n)
  }

  ghost predicate Discards(s: State, s': State, n: string) { exists target :: GivenUpAs(s, s', n, target) }

  predicate GivenUpAs(s: State, s': State, n: string, target: string) {
    && n in s.green && target !in s.discard
    && s'.discard == s.discard[target := s.green[n]] && s'.green == s.green - {n}
  }

  ghost predicate Drops(steps: seq<Step>, m: nat, pr: ProcId, n: string) {
    Acts(steps, m, pr) && At(steps, m + 1).green == At(steps, m).green - {n}
  }

  // ---------------------------------------------------------------------- in which order, from i

  ghost predicate FreedBy(steps: seq<Step>, i: nat, m: nat, pr: ProcId, v: VmName) {
    exists f :: i <= f < m && Frees(steps, f, pr, v)
  }

  /** jobs/v was free, and then the owner was written. */
  ghost predicate ClaimedBy(steps: seq<Step>, i: nat, m: nat, pr: ProcId, v: VmName, p: Pid) {
    exists c :: i <= c < m && Claims(steps, c, pr, v, p) && FreedBy(steps, i, c, pr, v)
  }

  ghost predicate SettledBy(steps: seq<Step>, i: nat, m: nat, pr: ProcId, v: VmName, green: bool, target: string) {
    exists x :: i <= x < m && SettledAs(steps, x, pr, v, green, target)
  }

  /** The layer was renamed, and then its owner unlinked. */
  ghost predicate DisownedBy(steps: seq<Step>, i: nat, m: nat, pr: ProcId, v: VmName, green: bool, target: string) {
    exists u :: i <= u < m && Unlinks(steps, u, pr, v) && SettledBy(steps, i, u, pr, v, green, target)
  }

  /** The name of the VM was read from the metadata of n, or guessed. */
  ghost predicate NamedBy(steps: seq<Step>, i: nat, m: nat, pr: ProcId, n: string, vm: VmName) {
    exists c :: i <= c < m && Acts(steps, c, pr) && vm == OnRecord(At(steps, c), n)
  }

  ghost predicate FoundDiscarded(steps: seq<Step>, i: nat, m: nat, pr: ProcId, n: string) {
    exists c :: i <= c < m && Acts(steps, c, pr) && n in At(steps, c).discard
  }

  /** It waited for the VM until the time was out. */
  ghost predicate TimedOutBy(steps: seq<Step>, i: nat, m: nat, pr: ProcId) {
    exists c :: i <= c < m && Acts(steps, c, pr) && At(steps, c).procs[pr].ProcWait? && steps[c].ch.flag
  }

  ghost predicate SeenGone(steps: seq<Step>, i: nat, m: nat, pr: ProcId, n: string) {
    exists vm :: SeesGone(steps, m, pr, vm) && NamedBy(steps, i, m, pr, n, vm)
  }

  /** That VM was seen absent in the step before the layer was listed at a. */
  ghost predicate ListedAt(steps: seq<Step>, i: nat, a: nat, pr: ProcId, n: string) {
    && i < a <= |steps| && pr in At(steps, a).procs && At(steps, a).procs[pr] == ProcPromote(n, Listed(At(steps, a), n))
    && SeenGone(steps, i, a - 1, pr, n)
  }

  ghost predicate Promoting(steps: seq<Step>, i: nat, m: nat, pr: ProcId, n: string) {
    exists a :: i < a <= m <= |steps| && ListedAt(steps, i, a, pr, n) && AtIt(steps, a, m, pr, n)
  }

  ghost predicate AtIt(steps: seq<Step>, a: nat, m: nat, pr: ProcId, n: string)
    requires m <= |steps|
  {
    forall k | a <= k <= m :: pr in At(steps, k).procs && Promotes(At(steps, k).procs[pr], n)
  }

  /** It was listed, and every entry of it come to. */
  ghost predicate PromotedBy(steps: seq<Step>, i: nat, m: nat, pr: ProcId, n: string) {
    exists a, b :: i < a < b <= m <= |steps| && ListedAt(steps, i, a, pr, n) && WholePass(steps, a, b, pr, n)
  }

  /** After that it was removed from green/; or it was given up. */
  ghost predicate LeftBy(steps: seq<Step>, i: nat, m: nat, pr: ProcId, n: string) {
    || (exists x :: i <= x < m && Drops(steps, x, pr, n) && PromotedBy(steps, i, x, pr, n))
    || (exists x :: i <= x < m && GivenUp(steps, x, pr, n) && TimedOutBy(steps, i, x, pr))
  }

  lemma StillSo(steps: seq<Step>, i: nat, m: nat, pr: ProcId)
    ensures forall v :: FreedBy(steps, i, m, pr, v) ==> FreedBy(steps, i, m + 1, pr, v)
    ensures forall v, p :: ClaimedBy(steps, i, m, pr, v, p) ==> ClaimedBy(steps, i, m + 1, pr, v, p)
    ensures forall v, green, t :: SettledBy(steps, i, m, pr, v, green, t) ==> SettledBy(steps, i, m + 1, pr, v, green, t)
    ensures forall v, green, t :: DisownedBy(steps, i, m, pr, v, green, t) ==> DisownedBy(steps, i, m + 1, pr, v, green, t)
    ensures forall n, vm :: NamedBy(steps, i, m, pr, n, vm) ==> NamedBy(steps, i, m + 1, pr, n, vm)
    ensures forall n :: FoundDiscarded(steps, i, m, pr, n) ==> FoundDiscarded(steps, i, m + 1, pr, n)
    ensures TimedOutBy(steps, i, m, pr) ==> TimedOutBy(steps, i, m + 1, pr)
    ensures m < |steps| ==> forall n :: PromotedBy(steps, i, m, pr, n) ==> PromotedBy(steps, i, m + 1, pr, n)
    ensures forall n :: LeftBy(steps, i, m, pr, n) ==> LeftBy(steps, i, m + 1, pr, n)
  {
    hide Frees, Claims, SettledAs, Unlinks, Acts, OnRecord, WholePass, ListedAt, Drops, GivenUp;
  }

  /** Where the process stands, and what it has done for that. */
  ghost predicate Reached(steps: seq<Step>, i: nat, m: nat, pr: ProcId, first: Pc) {
    && m <= |steps| && pr in At(steps, m).procs
    && var pc := At(steps, m).procs[pr];
       match first
       case AttachCheck(v, p) =>
         || ((pc.AttachCheck? || pc.AttachTarget? || pc.AttachStale?) && pc.v == v && pc.p == p)
         || ((pc.AttachOwner? || pc.AttachWrite?) && pc.v == v && pc.p == p && FreedBy(steps, i, m, pr, v))
         || (pc.AttachMkdir? && pc.v == v && pc.p == p && ClaimedBy(steps, i, m, pr, v, p))
       case SettleCheck(v, green) =>
         || ((pc.SettleCheck? || pc.SettleTarget? || pc.SettleMove?) && pc.v == v && pc.green == green)
         || (pc.SettleOwner? && pc.v == v && pc.green == green && SettledBy(steps, i, m, pr, v, green, pc.target))
         || (pc.SettleMeta? && pc.v == v && green && DisownedBy(steps, i, m, pr, v, green, pc.target))
       case ProcLock(n) => Processes(steps, i, m, pr, n, pc)
       case _ => true
  }

  ghost predicate Processes(steps: seq<Step>, i: nat, m: nat, pr: ProcId, n: string, pc: Pc) {
    match pc
    case ProcLock(name) => name == n
    case ProcDiscardTest(name) => name == n
    case ProcDelete(name) => name == n && FoundDiscarded(steps, i, m, pr, n)
    case ProcGreenTest(name) => name == n
    case ProcMeta(name) => name == n
    case ProcWait(name, vm) => name == n && NamedBy(steps, i, m, pr, n, vm)
    case ProcTarget(name) => name == n && TimedOutBy(steps, i, m, pr)
    case ProcEvict(name, _) => name == n && TimedOutBy(steps, i, m, pr)
    case ProcPromote(name, _) => name == n && Promoting(steps, i, m, pr, n)
    case ProcReplace(name, _, _) => name == n && Promoting(steps, i, m, pr, n)
    case ProcRemove(name) => name == n && PromotedBy(steps, i, m, pr, n)
    case ProcUnmeta(name) => name == n && LeftBy(steps, i, m, pr, n)
    case _ => false
  }

  // --------------------------------------------------------------------------------- one turn

  lemma MoveEffect(s: State, pr: ProcId, v: VmName, target: string, verdict: Verdict)
    ensures CanMove(s, v, s.discard, target) ==> DiscardedAs(s, Perform(s, pr, ToDiscard(v, target, verdict)), v, target)
    ensures CanMove(s, v, s.green, target) ==> GreenedAs(s, Perform(s, pr, ToGreen(v, target)), v, target)
  {
  }

  lemma AttachTurn(steps: seq<Step>, i: nat, m: nat, pr: ProcId, v: VmName, p: Pid)
    requires i <= m && Acts(steps, m, pr) && Reached(steps, i, m, pr, AttachCheck(v, p)) && pr in At(steps, m + 1).procs
    ensures Reached(steps, i, m + 1, pr, AttachCheck(v, p))
  {
    var s := At(steps, m);
    var pc := s.procs[pr];
    AtNext(steps, m);
    Turn(s, pr, steps[m].ch);
    StillSo(steps, i, m, pr);
    hide Apply;
    if pc.AttachStale? {
      MoveEffect(s, pr, v, pc.target, Stale);
      hide Perform;
      if CanMove(s, v, s.discard, pc.target) { assert Renames(steps, m, pr, v) by { assert DiscardedAs(s, At(steps, m + 1), v, pc.target); } }
      hide CanMove;
      assert Frees(steps, m, pr, v);
    } else if pc.AttachCheck? {
      hide Perform, Renames;
      if v !in s.w.jobs { assert Frees(steps, m, pr, v); }
    } else if pc.AttachWrite? {
      hide Frees, FreedBy;
      assert Claims(steps, m, pr, v, p);
    }
  }

  lemma SettleStep(s: State, pr: ProcId, ch: Choice)
    requires pr in s.procs && pr in Apply(s, Run(pr, ch)).procs
    requires var pc := s.procs[pr]; pc.SettleCheck? || pc.SettleTarget? || pc.SettleMove? || pc.SettleOwner? || pc.SettleMeta?
    ensures var s' := Apply(s, Run(pr, ch)); var pc, pc' := s.procs[pr], s'.procs[pr];
            || ((pc.SettleCheck? || pc.SettleTarget?) && (pc'.SettleTarget? || pc'.SettleMove?) && pc'.v == pc.v && pc'.green == pc.green)
            || (pc.SettleMove? && pc' == SettleOwner(pc.v, pc.green, pc.target)
                && if pc.green then GreenedAs(s, s', pc.v, pc.target) else DiscardedAs(s, s', pc.v, pc.target))
            || (pc.SettleOwner? && pc.green && pc' == SettleMeta(pc.v, pc.target) && s'.owners == s.owners - {pc.v})
  {
    hide Apply;
    var pc := s.procs[pr];
    Turn(s, pr, ch);
    if pc.SettleMove? { MoveEffect(s, pr, pc.v, pc.target, Red); }
  }

  lemma SettleTurn(steps: seq<Step>, i: nat, m: nat, pr: ProcId, v: VmName, green: bool)
    requires i <= m && Acts(steps, m, pr) && Reached(steps, i, m, pr, SettleCheck(v, green)) && pr in At(steps, m + 1).procs
    ensures Reached(steps, i, m + 1, pr, SettleCheck(v, green))
  {
    hide At, Apply;
    var s := At(steps, m);
    var pc := s.procs[pr];
    AtNext(steps, m);
    SettleStep(s, pr, steps[m].ch);
    StillSo(steps, i, m, pr);
    if pc.SettleMove? {
      assert At(steps, m + 1).procs[pr].SettleOwner? ==> SettledAs(steps, m, pr, v, green, pc.target);
    } else if pc.SettleOwner? {
      hide SettledBy;
      assert Unlinks(steps, m, pr, v);
    }
  }

  /** The turns of `process` that come before promotion, or lead to giving up. */
  predicate Early(pc: Pc) {
    || pc.ProcLock? || pc.ProcDiscardTest? || pc.ProcDelete? || pc.ProcGreenTest? || pc.ProcMeta?
    || pc.ProcTarget? || pc.ProcEvict?
  }

  lemma EvictEffect(s: State, pr: ProcId, n: string, target: string)
    ensures n in s.green && target !in s.discard ==> GivenUpAs(s, Perform(s, pr, Evict(n, target)), n, target)
  {
  }

  lemma EarlyNext(s: State, pc: Pc, ch: Choice)
    requires Early(pc) && Decide(s, pc, ch).next.Some?
    ensures var op := Decide(s, pc, ch); var pc' := op.next.value;
            || (pc' == pc && pc.ProcTarget?)
            || (!pc.ProcEvict? && pc'.ProcDelete? && pc'.name == pc.name && pc.name in s.discard)
            || (!pc.ProcEvict? && (pc'.ProcDiscardTest? || pc'.ProcGreenTest? || pc'.ProcMeta?) && pc'.name == pc.name)
            || (pc.ProcMeta? && pc' == ProcWait(pc.name, OnRecord(s, pc.name)))
            || (pc.ProcTarget? && pc'.ProcEvict? && pc'.name == pc.name)
            || (pc.ProcEvict? && pc' == ProcUnmeta(pc.name) && op.effect == Evict(pc.name, pc.target) && pc.name in s.green && pc.target !in s.discard)
  {
  }

  lemma EarlyStep(s: State, pr: ProcId, ch: Choice)
    requires pr in s.procs && Early(s.procs[pr]) && pr in Apply(s, Run(pr, ch)).procs
    ensures var s' := Apply(s, Run(pr, ch)); var pc, pc' := s.procs[pr], s'.procs[pr];
            || (pc' == pc && pc.ProcTarget?)
            || (!pc.ProcEvict? && pc'.ProcDelete? && pc'.name == pc.name && pc.name in s.discard)
            || (!pc.ProcEvict? && (pc'.ProcDiscardTest? || pc'.ProcGreenTest? || pc'.ProcMeta?) && pc'.name == pc.name)
            || (pc.ProcMeta? && pc' == ProcWait(pc.name, OnRecord(s, pc.name)))
            || (pc.ProcTarget? && pc'.ProcEvict? && pc'.name == pc.name)
            || (pc.ProcEvict? && pc' == ProcUnmeta(pc.name) && GivenUpAs(s, s', pc.name, pc.target))
  {
    hide Apply, Decide, Perform;
    var pc := s.procs[pr];
    Turn(s, pr, ch);
    EarlyNext(s, pc, ch);
    if pc.ProcEvict? { EvictEffect(s, pr, pc.name, pc.target); }
  }

  lemma EarlyTurn(steps: seq<Step>, i: nat, m: nat, pr: ProcId, n: string)
    requires i <= m && Acts(steps, m, pr) && Reached(steps, i, m, pr, ProcLock(n)) && pr in At(steps, m + 1).procs
    requires Early(At(steps, m).procs[pr])
    ensures Reached(steps, i, m + 1, pr, ProcLock(n))
  {
    hide At, Apply, PromotedBy, Promoting, TimedOutBy;
    var s := At(steps, m);
    var pc := s.procs[pr];
    AtNext(steps, m);
    EarlyStep(s, pr, steps[m].ch);
    StillSo(steps, i, m, pr);
    if pc.ProcEvict? {
      assert GivenUpAs(s, At(steps, m + 1), n, pc.target);
      assert GivenUp(steps, m, pr, n);
    } else if pc.ProcDiscardTest? && n in s.discard {
      assert FoundDiscarded(steps, i, m + 1, pr, n);
    } else if pc.ProcMeta? {
      assert NamedBy(steps, i, m + 1, pr, n, OnRecord(s, n));
    }
  }

  lemma WaitNext(s: State, pc: Pc, ch: Choice)
    requires pc.ProcWait?
    ensures Decide(s, pc, ch) ==
      if ch.flag then Op(Nothing, Some(ProcTarget(pc.name)))
      else if pc.vm in s.w.present then Op(Nothing, Some(pc))
      else Op(NoteGone(pc.name), Some(ProcPromote(pc.name, Listed(s, pc.name))))
  {
  }

  lemma WaitTurn(steps: seq<Step>, i: nat, m: nat, pr: ProcId, n: string)
    requires i <= m && Acts(steps, m, pr) && Reached(steps, i, m, pr, ProcLock(n)) && pr in At(steps, m + 1).procs
    requires At(steps, m).procs[pr].ProcWait?
    ensures Reached(steps, i, m + 1, pr, ProcLock(n))
  {
    hide At, Apply, Perform, Decide, Listed, NamedBy, LeftBy, PromotedBy, FoundDiscarded;
    var s, ch := At(steps, m), steps[m].ch;
    var pc := s.procs[pr];
    AtNext(steps, m);
    Turn(s, pr, ch);
    WaitNext(s, pc, ch);
    StillSo(steps, i, m, pr);
    if !ch.flag && pc.vm !in s.w.present {
      hide TimedOutBy;
      ListedFrame(s, pr, n, ch);
      assert SeesGone(steps, m, pr, pc.vm);
      assert SeenGone(steps, i, m, pr, n);
      assert ListedAt(steps, i, m + 1, pr, n);
      assert AtIt(steps, m + 1, m + 1, pr, n);
    }
  }

  lemma ListedFrame(s: State, pr: ProcId, n: string, ch: Choice)
    requires pr in s.procs && Decide(s, s.procs[pr], ch).effect == NoteGone(n)
    ensures Listed(Apply(s, Run(pr, ch)), n) == Listed(s, n)
  {
    Turn(s, pr, ch);
    ListedAfterNote(s, pr, n);
    hide Apply, Decide, Perform;
  }

  /** The promoter has listed the layer, and is still at it, or has come to everything. */
  lemma PromotingNow(steps: seq<Step>, i: nat, m: nat, pr: ProcId, n: string)
    requires Reached(steps, i, m, pr, ProcLock(n))
    ensures var pc := At(steps, m).procs[pr];
            && (Promotes(pc, n) ==> Promoting(steps, i, m, pr, n))
            && (pc.ProcRemove? ==> pc.name == n && PromotedBy(steps, i, m, pr, n))
  {
    hide At, Promoting, PromotedBy;
  }

  lemma ReachedNext(steps: seq<Step>, i: nat, m: nat, pr: ProcId, n: string)
    requires m <= |steps| && pr in At(steps, m).procs
    requires var pc := At(steps, m).procs[pr];
             || (Promotes(pc, n) && Promoting(steps, i, m, pr, n))
             || (pc == ProcRemove(n) && PromotedBy(steps, i, m, pr, n))
             || (pc == ProcUnmeta(n) && LeftBy(steps, i, m, pr, n))
    ensures Reached(steps, i, m, pr, ProcLock(n))
  {
    hide At, Promoting, PromotedBy, LeftBy;
  }

  lemma PromotingNext(s: State, pc: Pc, ch: Choice, n: string)
    requires Promotes(pc, n) && Decide(s, pc, ch).next.Some?
    ensures var pc' := Decide(s, pc, ch).next.value; Promotes(pc', n) || pc' == ProcRemove(n)
  {
    hide Candidate;
  }

  lemma PromotingTurn(steps: seq<Step>, i: nat, m: nat, pr: ProcId, n: string)
    requires i <= m && Acts(steps, m, pr) && Reached(steps, i, m, pr, ProcLock(n)) && pr in At(steps, m + 1).procs
    requires Promotes(At(steps, m).procs[pr], n)
    ensures Reached(steps, i, m + 1, pr, ProcLock(n))
  {
    hide At, Reached, Apply, Perform, Decide, ListedAt;
    var s := At(steps, m);
    var pc := s.procs[pr];
    AtNext(steps, m);
    Turn(s, pr, steps[m].ch);
    PromotingNext(s, pc, steps[m].ch, n);
    PromotingNow(steps, i, m, pr, n);
    var a :| i < a <= m && ListedAt(steps, i, a, pr, n) && AtIt(steps, a, m, pr, n);
    if Promotes(At(steps, m + 1).procs[pr], n) {
      hide PromotedBy;
      assert AtIt(steps, a, m + 1, pr, n);
    } else {
      hide Promoting;
      ListedHere(steps, i, a, pr, n);
      assert WholePass(steps, a, m + 1, pr, n);
    }
    ReachedNext(steps, i, m + 1, pr, n);
  }

  lemma ListedHere(steps: seq<Step>, i: nat, a: nat, pr: ProcId, n: string)
    requires ListedAt(steps, i, a, pr, n)
    ensures pr in At(steps, a).procs && At(steps, a).procs[pr] == ProcPromote(n, Listed(At(steps, a), n))
  {
  }

  lemma RemoveNext(s: State, pr: ProcId, ch: Choice, n: string)
    ensures var op := Decide(s, ProcRemove(n), ch);
            || op.next == Some(ProcRemove(n))
            || (op.next == Some(ProcUnmeta(n)) && Perform(s, pr, op.effect).green == s.green - {n})
  {
  }

  lemma RemoveTurn(steps: seq<Step>, i: nat, m: nat, pr: ProcId, n: string)
    requires i <= m && Acts(steps, m, pr) && Reached(steps, i, m, pr, ProcLock(n)) && pr in At(steps, m + 1).procs
    requires At(steps, m).procs[pr].ProcRemove?
    ensures Reached(steps, i, m + 1, pr, ProcLock(n))
  {
    hide At, Reached, Apply, Perform, Decide, PromotedBy, GivenUp;
    AtNext(steps, m);
    Turn(At(steps, m), pr, steps[m].ch);
    RemoveNext(At(steps, m), pr, steps[m].ch, n);
    StillSo(steps, i, m, pr);
    PromotingNow(steps, i, m, pr, n);
    if At(steps, m + 1).procs[pr].ProcUnmeta? { assert Drops(steps, m, pr, n); }
    ReachedNext(steps, i, m + 1, pr, n);
  }

  // ------------------------------------------------------------------------------ whole commands

  predicate IsCommand(first: Pc) { first.AttachCheck? || first.SettleCheck? || first.ProcLock? }

  lemma ProcessTurn(steps: seq<Step>, i: nat, m: nat, pr: ProcId, n: string)
    requires i <= m && Acts(steps, m, pr) && Reached(steps, i, m, pr, ProcLock(n)) && pr in At(steps, m + 1).procs
    ensures Reached(steps, i, m + 1, pr, ProcLock(n))
  {
    var pc := At(steps, m).procs[pr];
    WhichTurn(steps, i, m, pr, n);
    hide Reached, Acts, At;
    if Early(pc) { EarlyTurn(steps, i, m, pr, n); }
    else if pc.ProcWait? { WaitTurn(steps, i, m, pr, n); }
    else if Promotes(pc, n) { PromotingTurn(steps, i, m, pr, n); }
    else if pc.ProcRemove? { RemoveTurn(steps, i, m, pr, n); }
    else { UnmetaTurn(steps, m, pr); }
  }

  lemma WhichTurn(steps: seq<Step>, i: nat, m: nat, pr: ProcId, n: string)
    requires Reached(steps, i, m, pr, ProcLock(n))
    ensures var pc := At(steps, m).procs[pr]; Early(pc) || pc.ProcWait? || Promotes(pc, n) || pc.ProcRemove? || pc.ProcUnmeta?
  {
    hide FoundDiscarded, NamedBy, TimedOutBy, Promoting, PromotedBy, LeftBy;
  }

  lemma UnmetaTurn(steps: seq<Step>, m: nat, pr: ProcId)
    requires Acts(steps, m, pr) && At(steps, m).procs[pr].ProcUnmeta?
    ensures pr !in At(steps, m + 1).procs
  {
    AtNext(steps, m);
    Turn(At(steps, m), pr, steps[m].ch);
    hide Apply, Perform;
  }

  lemma {:induction false} CommandReaches(steps: seq<Step>, i: nat, m: nat, pr: ProcId, first: Pc)
    requires Lives(steps, i, m, pr) && At(steps, i).procs[pr] == first && IsCommand(first)
    ensures Reached(steps, i, m, pr, first)
    decreases m
  {
    hide At, Apply;
    if i < m {
      LivesBefore(steps, i, m, pr);
      CommandReaches(steps, i, m - 1, pr, first);
      hide Reached;
      if Acts(steps, m - 1, pr) {
        ActingTurn(steps, i, m - 1, pr, first);
      } else {
        AtNext(steps, m - 1);
        OthersKeepPc(At(steps, m - 1), steps[m - 1], pr);
        StillThere(steps, i, m - 1, pr, first);
      }
    }
  }

  lemma LivesBefore(steps: seq<Step>, i: nat, m: nat, pr: ProcId)
    requires i < m && Lives(steps, i, m, pr)
    ensures Lives(steps, i, m - 1, pr) && pr in At(steps, m - 1).procs && pr in At(steps, m).procs
  {
    hide At;
  }

  lemma ActingTurn(steps: seq<Step>, i: nat, m: nat, pr: ProcId, first: Pc)
    requires i <= m && Acts(steps, m, pr) && IsCommand(first) && Reached(steps, i, m, pr, first) && pr in At(steps, m + 1).procs
    ensures Reached(steps, i, m + 1, pr, first)
  {
    hide Reached, Acts, At;
    match first
    case AttachCheck(v, p) => AttachTurn(steps, i, m, pr, v, p);
    case SettleCheck(v, green) => SettleTurn(steps, i, m, pr, v, green);
    case ProcLock(n) => ProcessTurn(steps, i, m, pr, n);
  }

  lemma StillThere(steps: seq<Step>, i: nat, m: nat, pr: ProcId, first: Pc)
    requires m < |steps| && Reached(steps, i, m, pr, first)
    requires pr in At(steps, m + 1).procs && At(steps, m + 1).procs[pr] == At(steps, m).procs[pr]
    ensures Reached(steps, i, m + 1, pr, first)
  {
    StillSo(steps, i, m, pr);
    StillPromoting(steps, i, m, pr);
    hide At, FoundDiscarded, FreedBy, ClaimedBy, SettledBy, DisownedBy, NamedBy, TimedOutBy, Promoting, PromotedBy, LeftBy;
  }

  lemma StillPromoting(steps: seq<Step>, i: nat, m: nat, pr: ProcId)
    requires m < |steps| && pr in At(steps, m).procs
    requires pr in At(steps, m + 1).procs && At(steps, m + 1).procs[pr] == At(steps, m).procs[pr]
    ensures forall n :: Promoting(steps, i, m, pr, n) ==> Promoting(steps, i, m + 1, pr, n)
  {
    hide At, ListedAt;
    forall n | Promoting(steps, i, m, pr, n) ensures Promoting(steps, i, m + 1, pr, n) {
      var a :| i < a <= m && ListedAt(steps, i, a, pr, n) && AtIt(steps, a, m, pr, n);
      assert AtIt(steps, a, m + 1, pr, n);
    }
  }

  /**
   An attach that ends has found jobs/v free, or moved what was there to discard/; has then written its
   owner; and leaves a directory at jobs/v. Otherwise its rename failed.
   */
  lemma AttachIsWhole(steps: seq<Step>, i: nat, j: nat, pr: ProcId, v: VmName, p: Pid)
    requires WholeCommand(steps, i, j, pr, AttachCheck(v, p))
    ensures
      || (ClaimedBy(steps, i, j, pr, v, p) && v in At(steps, j + 1).w.jobs)
      || (At(steps, j).procs[pr].AttachStale? && !CanMove(At(steps, j), v, At(steps, j).discard, At(steps, j).procs[pr].target))
  {
    CommandReaches(steps, i, j, pr, AttachCheck(v, p));
    AtNext(steps, j);
    Turn(At(steps, j), pr, steps[j].ch);
    MadeIsThere(At(steps, j).w, v, p);
    hide Apply, FreedBy, ClaimedBy, Made, CanMove;
  }

  lemma MadeIsThere(w: World, v: VmName, p: Pid)
    ensures v in Made(w, v, p).jobs
  {
  }

  /**
   A settle that ends has renamed the layer of v to the directory of its verdict, has then unlinked the
   owner, and on green has last written who v was. Otherwise there was no layer, or its rename failed.
   */
  lemma SettleIsWhole(steps: seq<Step>, i: nat, j: nat, pr: ProcId, v: VmName, green: bool)
    requires WholeCommand(steps, i, j, pr, SettleCheck(v, green))
    ensures var s, s' := At(steps, j), At(steps, j + 1);
      || (green && exists t :: DisownedBy(steps, i, j, pr, v, true, t) && s'.meta == s.meta[t := v])
      || (!green && exists t :: SettledBy(steps, i, j, pr, v, false, t) && Unlinks(steps, j, pr, v))
      || (s.procs[pr].SettleMove? && !CanMove(s, v, if green then s.green else s.discard, s.procs[pr].target))
      || v !in s.w.jobs
  {
    hide At, Apply, Decide, Perform, DisownedBy, CanMove, SettledBy;
    var s := At(steps, j);
    CommandReaches(steps, i, j, pr, SettleCheck(v, green));
    AtNext(steps, j);
    Turn(s, pr, steps[j].ch);
    LastOfSettle(s, pr, steps[j].ch, v, green);
    if s.procs[pr].SettleOwner? {
      assert Unlinks(steps, j, pr, v);
      assert SettledBy(steps, i, j, pr, v, false, s.procs[pr].target) && Unlinks(steps, j, pr, v);
    } else if s.procs[pr].SettleMeta? {
      assert DisownedBy(steps, i, j, pr, v, true, s.procs[pr].target);
    }
  }

  lemma LastOfSettle(s: State, pr: ProcId, ch: Choice, v: VmName, green: bool)
    requires pr in s.procs && Decide(s, s.procs[pr], ch).next.None?
    requires var pc := s.procs[pr];
             || (pc.SettleMeta? && pc.v == v)
             || ((pc.SettleCheck? || pc.SettleTarget? || pc.SettleMove? || pc.SettleOwner?) && pc.v == v && pc.green == green)
    ensures var pc, s' := s.procs[pr], Perform(s, pr, Decide(s, s.procs[pr], ch).effect);
      || (pc.SettleMeta? && s'.meta == s.meta[pc.target := v])
      || (pc.SettleOwner? && !green && s'.owners == s.owners - {v})
      || (pc.SettleMove? && !CanMove(s, v, if green then s.green else s.discard, pc.target))
      || (pc.SettleCheck? && v !in s.w.jobs)
  {
    hide CanMove;
  }

  /**
   A process of layer n that ends last unlinks its metadata: after the VM on record was seen absent,
   the layer listed, every entry come to, and the layer removed; or after the wait was timed out, and
   the layer moved to discard/. Otherwise it was busy, or was in discard/ and is deleted, or was
   nowhere, or some file operation failed.
   */
  lemma ProcessIsWhole(steps: seq<Step>, i: nat, j: nat, pr: ProcId, n: string)
    requires WholeCommand(steps, i, j, pr, ProcLock(n))
    ensures var s, s', pc := At(steps, j), At(steps, j + 1), At(steps, j).procs[pr];
      || (LeftBy(steps, i, j, pr, n) && s'.meta == s.meta - {n})
      || (pc.ProcDelete? && FoundDiscarded(steps, i, j, pr, n) && (s'.discard == s.discard - {n} || !steps[j].ch.flag))
      || (pc.ProcLock? && n in s.locks)
      || (pc.ProcGreenTest? && n !in s.green)
      || (pc.ProcEvict? && (n !in s.green || pc.target in s.discard))
      || (pc.ProcReplace? && !Candidate(s, n, pc.key))
  {
    CommandReaches(steps, i, j, pr, ProcLock(n));
    AtNext(steps, j);
    var s := At(steps, j);
    WhichTurn(steps, i, j, pr, n);
    Turn(s, pr, steps[j].ch);
    LastOfProcess(s, pr, steps[j].ch, n);
    hide Apply, Decide, Perform, Candidate, FoundDiscarded, LeftBy, PromotedBy, TimedOutBy, NamedBy, Promoting;
  }

  lemma LastOfProcess(s: State, pr: ProcId, ch: Choice, n: string)
    requires pr in s.procs && Decide(s, s.procs[pr], ch).next.None?
    requires var pc := s.procs[pr]; (Early(pc) || pc.ProcWait? || Promotes(pc, n) || pc.ProcRemove? || pc.ProcUnmeta?) && pc.name == n
    ensures var pc, s' := s.procs[pr], Perform(s, pr, Decide(s, s.procs[pr], ch).effect);
      || (pc.ProcUnmeta? && s'.meta == s.meta - {n})
      || (pc.ProcDelete? && (s'.discard == s.discard - {n} || !ch.flag))
      || (pc.ProcLock? && n in s.locks)
      || (pc.ProcGreenTest? && n !in s.green)
      || (pc.ProcEvict? && (n !in s.green || pc.target in s.discard))
      || (pc.ProcReplace? && !Candidate(s, n, pc.key))
  {
    hide Candidate;
  }

  // -------------------------------------------------------------------------------- every turn counts

  /** How far the process is from its end: stretches of work, and turns within one. */
  function Distance(pc: Pc): (nat, nat) {
    match pc
    case AttachCheck(_, _) => (5, 0)
    case AttachTarget(_, _) => (4, 0)
    case AttachStale(_, _, _) => (3, 0)
    case AttachOwner(_, _) => (2, 0)
    case AttachWrite(_, _) => (1, 0)
    case SettleCheck(_, _) => (4, 0)
    case SettleTarget(_, _) => (3, 0)
    case SettleMove(_, _, _) => (2, 0)
    case SettleOwner(_, _, _) => (1, 0)
    case ProcLock(_) => (8, 0)
    case ProcDiscardTest(_) => (7, 0)
    case ProcGreenTest(_) => (6, 0)
    case ProcMeta(_) => (5, 0)
    case ProcWait(_, _) => (3, 2)
    case ProcTarget(_) => (3, 1)
    case ProcEvict(_, _) => (3, 0)
    case ProcPromote(_, rest) => (2, 2 * |rest| + 1)
    case ProcReplace(_, _, rest) => (2, 2 * |rest| + 2)
    case ProcRemove(_) => (2, 0)
    case ProcUnmeta(_) => (1, 0)
    case _ => (0, 0)
  }

  predicate Nearer(a: (nat, nat), b: (nat, nat)) { a.0 < b.0 || (a.0 == b.0 && a.1 < b.1) }

  /** What a turn needs to get anywhere: a fresh suffix, an answer or a timeout, a listed key, no other holder of the lock. */
  predicate Useful(s: State, pc: Pc, ch: Choice) {
    match pc
    case AttachTarget(_, _) => Suffix(ch.text)
    case SettleTarget(_, _) => Suffix(ch.text)
    case ProcTarget(_) => Suffix(ch.text)
    case ProcWait(_, vm) => ch.flag || vm !in s.w.present
    case ProcPromote(_, rest) => rest == {} || (ch.key in rest && s.manifestLock.None?)
    case ProcRemove(_) => ch.flag
    case _ => true
  }

  /** Every useful turn of an attach, a settle or a process brings it nearer to its end. */
  lemma EveryTurnAdvances(s: State, pr: ProcId, ch: Choice)
    requires pr in s.procs && Useful(s, s.procs[pr], ch) && Distance(s.procs[pr]) != (0, 0)
    ensures var s' := Apply(s, Run(pr, ch)); pr in s'.procs ==> Nearer(Distance(s'.procs[pr]), Distance(s.procs[pr]))
  {
    Turn(s, pr, ch);
    if Decide(s, s.procs[pr], ch).next.Some? {
      if s.procs[pr].ProcPromote? || s.procs[pr].ProcReplace? { PromoterIsNearer(s, s.procs[pr], ch); }
      else if s.procs[pr].ProcLock? || Early(s.procs[pr]) || s.procs[pr].ProcWait? || s.procs[pr].ProcRemove? || s.procs[pr].ProcUnmeta? {
        ProcessIsNearer(s, s.procs[pr], ch);
      } else { OthersAreNearer(s, s.procs[pr], ch); }
    }
    hide Apply, Perform, Decide, Useful, Distance, Early;
  }

  lemma PromoterNext(s: State, pc: Pc, ch: Choice)
    requires (pc.ProcPromote? || pc.ProcReplace?) && Useful(s, pc, ch) && Decide(s, pc, ch).next.Some?
    ensures var pc' := Decide(s, pc, ch).next.value;
            if pc.ProcReplace? then pc' == ProcPromote(pc.name, pc.rest)
            else if pc.rest == {} then pc' == ProcRemove(pc.name)
            else pc' == ProcPromote(pc.name, pc.rest - {ch.key}) || pc' == ProcReplace(pc.name, ch.key, pc.rest - {ch.key})
  {
    hide Candidate;
  }

  lemma PromoterIsNearer(s: State, pc: Pc, ch: Choice)
    requires (pc.ProcPromote? || pc.ProcReplace?) && Useful(s, pc, ch) && Decide(s, pc, ch).next.Some?
    ensures Nearer(Distance(Decide(s, pc, ch).next.value), Distance(pc))
  {
    hide Decide, Distance;
    PromoterNext(s, pc, ch);
    PromoterDistance(pc.name, ch.key, pc.rest);
  }

  lemma PromoterDistance(n: string, k: Key, rest: set<Key>)
    ensures Distance(ProcPromote(n, rest)) == (2, 2 * |rest| + 1) && Distance(ProcRemove(n)) == (2, 0)
    ensures forall key :: Distance(ProcReplace(n, key, rest)) == (2, 2 * |rest| + 2)
    ensures k in rest ==> Distance(ProcPromote(n, rest - {k})) == (2, 2 * |rest| - 1) && Distance(ProcReplace(n, k, rest - {k})) == (2, 2 * |rest|)
  {
    if k in rest { assert |rest - {k}| == |rest| - 1; }
  }

  lemma ProcessIsNearer(s: State, pc: Pc, ch: Choice)
    requires (Early(pc) || pc.ProcWait? || pc.ProcRemove? || pc.ProcUnmeta?) && Useful(s, pc, ch) && Decide(s, pc, ch).next.Some?
    ensures Nearer(Distance(Decide(s, pc, ch).next.value), Distance(pc))
  {
    if pc.ProcWait? { WaitNext(s, pc, ch); }
    hide Listed;
  }

  lemma OthersAreNearer(s: State, pc: Pc, ch: Choice)
    requires !(pc.ProcPromote? || pc.ProcReplace? || Early(pc) || pc.ProcWait? || pc.ProcRemove? || pc.ProcUnmeta?)
    requires Useful(s, pc, ch) && Distance(pc) != (0, 0) && Decide(s, pc, ch).next.Some?
    ensures Nearer(Distance(Decide(s, pc, ch).next.value), Distance(pc))
  {
    hide CanMove;
  }
}
