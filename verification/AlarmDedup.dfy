/**
 The alarms of scripts/build_disagreement_watch.py: a finding is announced once and then held back
 while it keeps being seen. Old state is pruned; this says exactly when nobody can tell.
 */
module AlarmDedup {
  import opened Basics

  const PRUNE_AFTER_S: real := 604800.0
  const MIN_INTERVAL_MINUTES: real := 15.0

  /** Host and fingerprint. */
  type Key = string

  /** A cycle in which the detector ran, and the keys of its problem findings in order. */
  datatype Cycle = Cycle(now: real, findings: seq<Key>)

  // ------------------------------------------------------------------- what the file remembers

  /** A finding raises an alarm when its key is unknown or was not seen for more than `realert`. */
  predicate Raises(seen: map<Key, real>, k: Key, now: real, realert: real) {
    k !in seen || now - seen[k] > realert
  }

  /** Either way the key has now been seen. */
  function SeeAll(seen: map<Key, real>, c: Cycle, n: nat): map<Key, real>
    requires n <= |c.findings|
  {
    if n == 0 then seen else SeeAll(seen, c, n - 1)[c.findings[n - 1] := c.now]
  }

  /** Which findings of a cycle raise an alarm, starting from `seen`. */
  function Raised(seen: map<Key, real>, c: Cycle, realert: real): (r: seq<bool>)
    ensures |r| == |c.findings|
    ensures forall i: nat | i < |r| :: r[i] == Raises(SeeAll(seen, c, i), c.findings[i], c.now, realert)
  {
    seq(|c.findings|, i requires 0 <= i < |c.findings| => Raises(SeeAll(seen, c, i), c.findings[i], c.now, realert))
  }

  function Prune(seen: map<Key, real>, now: real): map<Key, real> {
    map k | k in seen && now - seen[k] < PRUNE_AFTER_S :: seen[k]
  }

  /** The state file after a history of cycles. */
  function Kept(h: seq<Cycle>): map<Key, real> {
    if h == [] then map[]
    else
      var c := h[|h| - 1];
      Prune(SeeAll(Kept(h[..|h| - 1]), c, |c.findings|), c.now)
  }

  /** The same without pruning. */
  function Full(h: seq<Cycle>): map<Key, real> {
    if h == [] then map[]
    else
      var c := h[|h| - 1];
      SeeAll(Full(h[..|h| - 1]), c, |c.findings|)
  }

  // ------------------------------------------------------------------------- the full history

  lemma {:induction false} SeeAllMeaning(seen: map<Key, real>, c: Cycle, n: nat, k: Key)
    requires n <= |c.findings|
    ensures k in SeeAll(seen, c, n) <==> k in seen || k in c.findings[..n]
    ensures k in c.findings[..n] ==> SeeAll(seen, c, n)[k] == c.now
    ensures k !in c.findings[..n] && k in seen ==> SeeAll(seen, c, n)[k] == seen[k]
  {
    if n > 0 {
      SeeAllMeaning(seen, c, n - 1, k);
      assert c.findings[..n] == c.findings[..n - 1] + [c.findings[n - 1]];
    }
  }

  /** Cycle i is the last one of h in which k was found. */
  ghost predicate LastSighting(h: seq<Cycle>, k: Key, i: nat) {
    i < |h| && k in h[i].findings && forall j | i < j < |h| :: k !in h[j].findings
  }

  /** Without pruning, a key is known exactly when it was ever found, with the time of its last sighting. */
  lemma {:induction false} FullMeaning(h: seq<Cycle>, k: Key)
    ensures k in Full(h) <==> exists i: nat :: LastSighting(h, k, i)
    ensures forall i: nat | LastSighting(h, k, i) :: Full(h)[k] == h[i].now
  {
    if h != [] {
      var n := |h| - 1;
      var c := h[n];
      FullMeaning(h[..n], k);
      SeeAllMeaning(Full(h[..n]), c, |c.findings|, k);
      assert c.findings[..|c.findings|] == c.findings;
      if k in c.findings {
        assert LastSighting(h, k, n);
      } else {
        forall i: nat ensures LastSighting(h, k, i) <==> LastSighting(h[..n], k, i) {
          assert i < n ==> h[..n][i] == h[i];
          assert forall j | i < j < n :: h[..n][j] == h[j];
        }
      }
    }
  }

  /** Finding i of a cycle is a first sighting, or more than `realert` after the sighting before it. */
  ghost predicate Due(h: seq<Cycle>, c: Cycle, i: nat, realert: real)
    requires i < |c.findings|
  {
    var k := c.findings[i];
    if k in c.findings[..i] then realert < 0.0
    else forall j: nat | LastSighting(h, k, j) :: c.now - h[j].now > realert
  }

  /** The alarms of the full history are exactly the ones that are due. */
  lemma FullAlarmsAreDue(h: seq<Cycle>, c: Cycle, realert: real, i: nat)
    requires i < |c.findings|
    ensures Raised(Full(h), c, realert)[i] <==> Due(h, c, i, realert)
  {
    var k := c.findings[i];
    FullMeaning(h, k);
    SeeAllMeaning(Full(h), c, i, k);
  }

  /** A second finding with the same key in one cycle never alarms, whatever the file remembers. */
  lemma OncePerCycle(seen: map<Key, real>, c: Cycle, realert: real, i: nat, j: nat)
    requires i < j < |c.findings| && c.findings[i] == c.findings[j] && realert >= 0.0
    ensures !Raised(seen, c, realert)[j]
  {
    SeeAllMeaning(seen, c, j, c.findings[j]);
    assert c.findings[..j][i] == c.findings[j];
  }

  // ------------------------------------------------------------------------ pruning is invisible

  /** The clock never runs back, and consecutive cycles are at least `gap` apart. */
  ghost predicate Spaced(h: seq<Cycle>, gap: real) {
    forall i: nat | i + 1 < |h| :: h[i + 1].now - h[i].now >= gap
  }

  ghost predicate Before(h: seq<Cycle>, c: Cycle, gap: real) {
    Spaced(h, gap) && (h != [] ==> c.now - h[|h| - 1].now >= gap)
  }

  /** What pruning may forget: keys not seen for the prune age, nor in the last cycle. */
  ghost predicate Forgotten(h: seq<Cycle>, gap: real, k: Key) {
    h != [] && k in Full(h) && h[|h| - 1].now - Full(h)[k] >= MaxReal(PRUNE_AFTER_S, gap)
  }

  lemma {:induction false} KeptOrForgotten(h: seq<Cycle>, gap: real, k: Key)
    requires gap >= 0.0 && Spaced(h, gap)
    ensures k in Kept(h) ==> k in Full(h) && Kept(h)[k] == Full(h)[k]
    ensures k in Full(h) && k !in Kept(h) ==> Forgotten(h, gap, k)
    ensures k in Full(h) ==> h != [] && Full(h)[k] <= h[|h| - 1].now
  {
    if h != [] {
      var n := |h| - 1;
      var c, rest := h[n], h[..n];
      assert Spaced(rest, gap) by { assert forall i: nat | i < n :: rest[i] == h[i]; }
      KeptOrForgotten(rest, gap, k);
      SeeAllMeaning(Full(rest), c, |c.findings|, k);
      SeeAllMeaning(Kept(rest), c, |c.findings|, k);
      if n > 0 { assert h[n - 1 + 1].now - h[n - 1].now >= gap; }
    }
  }

  /** The alarms of a cycle are the same with and without pruning. */
  ghost predicate Invisible(h: seq<Cycle>, c: Cycle, realert: real) {
    Raised(Kept(h), c, realert) == Raised(Full(h), c, realert)
  }

  lemma PruningIsInvisible(h: seq<Cycle>, c: Cycle, gap: real, realert: real)
    requires gap >= 0.0 && Before(h, c, gap) && realert < MaxReal(PRUNE_AFTER_S, gap) + gap
    ensures Invisible(h, c, realert)
  {
    hide Kept, Full, SeeAll;
    forall i: nat | i < |c.findings|
      ensures Raised(Kept(h), c, realert)[i] == Raised(Full(h), c, realert)[i]
    {
      var k := c.findings[i];
      KeptOrForgotten(h, gap, k);
      SeeAllMeaning(Full(h), c, i, k);
      SeeAllMeaning(Kept(h), c, i, k);
    }
  }

  /** Above that bound one empty cycle at the wrong time makes a held-back finding alarm again. */
  lemma PruningShows(k: Key, gap: real, realert: real)
    requires gap >= 0.0 && realert >= MaxReal(PRUNE_AFTER_S, gap) + gap
    ensures var t := MaxReal(PRUNE_AFTER_S, gap);
            var h, c := [Cycle(0.0, [k]), Cycle(t, [])], Cycle(t + gap, [k]);
            Before(h, c, gap) && !Invisible(h, c, realert)
  {
    var t := MaxReal(PRUNE_AFTER_S, gap);
    var h, c := [Cycle(0.0, [k]), Cycle(t, [])], Cycle(t + gap, [k]);
    assert h[..1] == [h[0]] && h[..1][..0] == [];
    assert SeeAll(map[], h[0], 0) == map[];
    assert SeeAll(map[], h[0], 1) == map[k := 0.0];
    assert Full(h[..1]) == map[k := 0.0];
    assert Kept(h[..1]) == map[k := 0.0];
    assert Full(h) == map[k := 0.0];
    assert Kept(h) == map[];
    assert Raised(Kept(h), c, realert)[0] && !Raised(Full(h), c, realert)[0];
  }

  /** Pruning is invisible in every history with this spacing exactly when `realert` is below the bound. */
  lemma ExactlyWhenInvisible(gap: real, realert: real)
    requires gap >= 0.0
    ensures (forall h, c | Before(h, c, gap) :: Invisible(h, c, realert)) <==> realert < MaxReal(PRUNE_AFTER_S, gap) + gap
  {
    hide Invisible, Before;
    if realert < MaxReal(PRUNE_AFTER_S, gap) + gap {
      forall h, c | Before(h, c, gap) ensures Invisible(h, c, realert) { PruningIsInvisible(h, c, gap, realert); }
    } else {
      PruningShows("", gap, realert);
    }
  }

  /** Every finding of k in the history lies more than `realert` back. */
  ghost predicate LongUnseen(h: seq<Cycle>, k: Key, now: real, realert: real) {
    forall j: nat | j < |h| && k in h[j].findings :: now - h[j].now > realert
  }

  lemma {:induction false} OrderedTimes(h: seq<Cycle>, gap: real, i: nat, j: nat)
    requires gap >= 0.0 && Spaced(h, gap) && i <= j < |h|
    ensures h[i].now <= h[j].now
  {
    if i < j {
      OrderedTimes(h, gap, i, j - 1);
      assert h[j - 1 + 1].now - h[j - 1].now >= gap;
    }
  }

  lemma {:induction false} SomeLastSighting(h: seq<Cycle>, k: Key, j: nat) returns (i: nat)
    requires j < |h| && k in h[j].findings
    ensures LastSighting(h, k, i) && j <= i
  {
    var n := |h| - 1;
    if k in h[n].findings { i := n; } else { i := SomeLastSighting(h[..n], k, j); }
  }

  /** While the clock does not run back, due is: the first of its key in the cycle, and not found for more than `realert`. */
  lemma DueMeans(h: seq<Cycle>, c: Cycle, gap: real, realert: real, i: nat)
    requires gap >= 0.0 && Spaced(h, gap) && realert >= 0.0 && i < |c.findings|
    ensures Due(h, c, i, realert) <==> c.findings[i] !in c.findings[..i] && LongUnseen(h, c.findings[i], c.now, realert)
  {
    var k := c.findings[i];
    if forall j: nat | LastSighting(h, k, j) :: c.now - h[j].now > realert {
      forall j: nat | j < |h| && k in h[j].findings ensures c.now - h[j].now > realert {
        var last := SomeLastSighting(h, k, j);
        OrderedTimes(h, gap, j, last);
      }
    }
  }

  // ------------------------------------------------------------------------------- the cycle

  /** The findings whose flag has the given value, in order. */
  function Picked(ks: seq<Key>, flags: seq<bool>, value: bool): seq<Key>
    requires |ks| == |flags|
  {
    if ks == [] then []
    else
      var n := |ks| - 1;
      Picked(ks[..n], flags[..n], value) + if flags[n] == value then [ks[n]] else []
  }

  lemma {:induction false} PickedMembers(ks: seq<Key>, flags: seq<bool>, value: bool)
    requires |ks| == |flags|
    ensures forall k :: k in Picked(ks, flags, value) <==> exists i: nat :: i < |ks| && ks[i] == k && flags[i] == value
  {
    if ks != [] {
      var n := |ks| - 1;
      PickedMembers(ks[..n], flags[..n], value);
      assert forall i: nat | i < n :: ks[..n][i] == ks[i] && flags[..n][i] == flags[i];
    }
  }

  /** Announced are exactly the keys found now and not for more than `realert` before, each once. */
  ghost predicate Right(h: seq<Cycle>, c: Cycle, realert: real, raised: seq<Key>) {
    && (forall k :: k in raised <==> k in c.findings && LongUnseen(h, k, c.now, realert))
    && forall i: nat, j: nat | i < j < |raised| :: raised[i] != raised[j]
  }

  lemma {:induction false} FirstOf(ks: seq<Key>, k: Key) returns (i: nat)
    requires k in ks
    ensures i < |ks| && ks[i] == k && k !in ks[..i]
  {
    var n := |ks| - 1;
    if k in ks[..n] {
      i := FirstOf(ks[..n], k);
      assert ks[..n][..i] == ks[..i];
    } else {
      i := n;
    }
  }

  /** Picking firsts only, no key is picked twice. */
  lemma {:induction false} PickedOnce(ks: seq<Key>, flags: seq<bool>)
    requires |ks| == |flags| && forall i: nat | i < |ks| && flags[i] :: ks[i] !in ks[..i]
    ensures forall i: nat, j: nat | i < j < |Picked(ks, flags, true)| :: Picked(ks, flags, true)[i] != Picked(ks, flags, true)[j]
  {
    if ks != [] {
      var n := |ks| - 1;
      assert forall i: nat | i < n :: ks[..n][..i] == ks[..i];
      var rest := Picked(ks[..n], flags[..n], true);
      PickedOnce(ks[..n], flags[..n]);
      PickedMembers(ks[..n], flags[..n], true);
      assert forall k | k in rest :: k in ks[..n];
      assert Picked(ks, flags, true) == rest + if flags[n] then [ks[n]] else [];
      if flags[n] { assert ks[n] !in rest; }
    }
  }

  lemma RaisedRight(h: seq<Cycle>, c: Cycle, gap: real, realert: real, flags: seq<bool>)
    requires gap >= 0.0 && Spaced(h, gap) && 0.0 <= realert < MaxReal(PRUNE_AFTER_S, gap) + gap
    requires Announces(h, c, realert, gap, flags)
    ensures Right(h, c, realert, Picked(c.findings, flags, true))
  {
    hide Due, Picked, LongUnseen;
    var ks := c.findings;
    forall i: nat | i < |ks| ensures flags[i] <==> ks[i] !in ks[..i] && LongUnseen(h, ks[i], c.now, realert) {
      DueMeans(h, c, gap, realert, i);
    }
    PickedMembers(ks, flags, true);
    PickedOnce(ks, flags);
    forall k | k in ks && LongUnseen(h, k, c.now, realert) ensures k in Picked(ks, flags, true) {
      var i := FirstOf(ks, k);
    }
  }

  lemma {:induction false} PickedSplit(ks: seq<Key>, flags: seq<bool>)
    requires |ks| == |flags|
    ensures multiset(Picked(ks, flags, true)) + multiset(Picked(ks, flags, false)) == multiset(ks)
  {
    if ks != [] {
      var n := |ks| - 1;
      PickedSplit(ks[..n], flags[..n]);
      assert ks == ks[..n] + [ks[n]];
    }
  }

  lemma PickedNone(ks: seq<Key>, flags: seq<bool>)
    ensures Picked(ks[..0], flags[..0], true) == [] && Picked(ks[..0], flags[..0], false) == []
  {
  }

  lemma PickedNext(ks: seq<Key>, flags: seq<bool>, i: nat)
    requires |ks| == |flags| && i < |ks|
    ensures Picked(ks[..i + 1], flags[..i + 1], true) == Picked(ks[..i], flags[..i], true) + if flags[i] then [ks[i]] else []
    ensures Picked(ks[..i + 1], flags[..i + 1], false) == Picked(ks[..i], flags[..i], false) + if flags[i] then [] else [ks[i]]
  {
    assert ks[..i + 1][..i] == ks[..i] && flags[..i + 1][..i] == flags[..i];
  }

  class Watch {
    var lastRun: Option<real>
    var alarms: map<Key, real>

    /** The cycles in which the detector ran, and the spacing their callers keep. */
    ghost var history: seq<Cycle>
    ghost const gap: real

    ghost predicate Valid()
      reads this
    {
      && gap >= 0.0 && alarms == Kept(history) && Spaced(history, gap)
      && (history != [] ==> lastRun.Some? && lastRun.value >= history[|history| - 1].now)
    }

    constructor (ghost gap: real)
      requires gap >= 0.0
      ensures Valid() && this.gap == gap && history == [] && lastRun.None?
    {
      this.gap := gap;
      lastRun, alarms, history := None, map[], [];
    }

    /** The loop over the findings, and the pruning behind it. */
    method Record(c: Cycle, realert: real) returns (raised: seq<Key>, held: seq<Key>)
      modifies this`alarms
      ensures raised == Picked(c.findings, Raised(old(alarms), c, realert), true)
      ensures held == Picked(c.findings, Raised(old(alarms), c, realert), false)
      ensures alarms == Prune(SeeAll(old(alarms), c, |c.findings|), c.now)
    {
      hide Raises, Picked, Raised;
      raised, held := [], [];
      ghost var flags := Raised(alarms, c, realert);
      ghost var start := alarms;
      PickedNone(c.findings, flags);
      for i := 0 to |c.findings|
        invariant alarms == SeeAll(start, c, i)
        invariant raised == Picked(c.findings[..i], flags[..i], true) && held == Picked(c.findings[..i], flags[..i], false)
      {
        var k := c.findings[i];
        PickedNext(c.findings, flags, i);
        if Raises(alarms, k, c.now, realert) { raised := raised + [k]; } else { held := held + [k]; }
        alarms := alarms[k := c.now];
      }
      assert c.findings[..|c.findings|] == c.findings && flags[..|flags|] == flags;
      alarms := map k | k in alarms && c.now - alarms[k] < PRUNE_AFTER_S :: alarms[k];
    }

    /**
     `cycle`. A cycle that is disabled, not due or without a log reader leaves the alarms alone. One
     that runs raises, for `realert` below the bound, exactly the alarms that are due in its history.
     */
    method RunCycle(enabled: bool, force: bool, intervalMinutes: real, realert: real, hasLogCli: bool, c: Cycle)
      returns (ran: bool, raised: seq<Key>, held: seq<Key>)
      requires Valid() && gap <= MaxReal(MIN_INTERVAL_MINUTES, intervalMinutes) * 60.0
      requires force && lastRun.Some? ==> c.now - lastRun.value >= gap
      modifies this
      ensures Valid()
      ensures ran <==> enabled && hasLogCli && Timely(force, intervalMinutes, old(lastRun), c.now)
      ensures lastRun == if enabled && Timely(force, intervalMinutes, old(lastRun), c.now) then Some(c.now) else old(lastRun)
      ensures !ran ==> alarms == old(alarms) && history == old(history) && raised == [] && held == []
      ensures ran ==> history == old(history) + [c] && multiset(raised) + multiset(held) == multiset(c.findings)
      ensures ran && 0.0 <= realert < MaxReal(604800.0, gap) + gap ==> Right(old(history), c, realert, raised)
      ensures ran ==> exists due :: Announces(old(history), c, realert, gap, due) && raised == Picked(c.findings, due, true) && held == Picked(c.findings, due, false)
    {
      hide Kept, Full, SeeAll, Prune, Picked, Due;
      ran, raised, held := false, [], [];
      if !enabled { return; }
      if !Ready(force, intervalMinutes, lastRun, c.now) { return; }
      if !hasLogCli {
        lastRun := Some(c.now);
        return;
      }
      ghost var flags := Raised(alarms, c, realert);
      raised, held := Record(c, realert);
      if realert < MaxReal(PRUNE_AFTER_S, gap) + gap { PruningIsInvisible(history, c, gap, realert); }
      forall i: nat | i < |c.findings| ensures Raised(Full(history), c, realert)[i] <==> Due(history, c, i, realert) {
        FullAlarmsAreDue(history, c, realert, i);
      }
      assert Announces(history, c, realert, gap, flags);
      if 0.0 <= realert < MaxReal(604800.0, gap) + gap { RaisedRight(history, c, gap, realert, flags); }
      PickedSplit(c.findings, flags);
      KeptNext(history, c);
      history, lastRun, ran := history + [c], Some(c.now), true;
    }
  }

  /** The cycle is due: forced, first, or at least the interval after the last one. */
  predicate Ready(force: bool, intervalMinutes: real, last: Option<real>, now: real) {
    force || last.None? || now - last.value >= MaxReal(MIN_INTERVAL_MINUTES, intervalMinutes) * 60.0
  }

  /** Forced or first, or a quarter of an hour and the configured minutes have passed. */
  predicate Timely(force: bool, intervalMinutes: real, last: Option<real>, now: real) {
    last.Some? && !force ==> now >= last.value + 900.0 && now >= last.value + 60.0 * intervalMinutes
  }

  /** Below the bound the flags are exactly the alarms that are due. */
  ghost predicate Announces(h: seq<Cycle>, c: Cycle, realert: real, gap: real, flags: seq<bool>) {
    && |flags| == |c.findings|
    && (realert < MaxReal(PRUNE_AFTER_S, gap) + gap ==> forall i: nat | i < |flags| :: flags[i] <==> Due(h, c, i, realert))
  }

  lemma KeptNext(h: seq<Cycle>, c: Cycle)
    ensures Kept(h + [c]) == Prune(SeeAll(Kept(h), c, |c.findings|), c.now)
  {
    assert (h + [c])[..|h|] == h;
  }
}
