/**
 The device-filesystem pass of scripts/disk_watchdog.py: probes of mounts that may never return, the
 counters that confirm a wedge or a recovery, and the repair.
 */
module WatchdogDevices {
  import opened Basics
  import opened Watchdog
  import opened WatchdogUmounts

  datatype Helper = Helper(pid: int, inKernel: bool)

  /** What one pass reads from the host. Probes are given by the position of their mount in the list. */
  datatype Reading = Reading(
    alive: int -> bool,
    listed: Option<seq<string>>,
    probe: nat -> Probe,
    helpers: seq<Helper>,
    repair: bool,
    listedAgain: Option<seq<string>>,
    umountAlive: int -> bool,
    umount: string -> Option<int>,
    acknowledged: bool)

  /** One row of the pass: a mount and its probe, None when the probe was withheld. */
  datatype Row = Row(mount: string, probe: Option<Probe>)

  /** A pass is healthy, ran into silence with every mount probed, or could not probe everything. */
  datatype Kind = Healthy | Silent | Blind

  predicate Unanswered(r: Row) { r.probe.Some? && r.probe.value.Timeout? }
  predicate StuckRow(r: Row) { Unanswered(r) && r.probe.value.stuck }

  function KindOf(listed: bool, rows: seq<Row>): Kind {
    if !listed || exists r :: r in rows && r.probe.None? then Blind
    else if exists r :: r in rows && Unanswered(r) then Silent
    else Healthy
  }

  /** A pass with an unprobed mount, or without a list of mounts, counts neither as healthy nor as silent. */
  lemma KindMeans(listed: bool, rows: seq<Row>)
    ensures KindOf(listed, rows).Healthy? <==> listed && forall x | x in rows :: x.probe.Some? && !x.probe.value.Timeout?
    ensures KindOf(listed, rows).Silent? <==>
      listed && (forall x | x in rows :: x.probe.Some?) && exists x :: x in rows && x.probe.Some? && x.probe.value.Timeout?
    ensures KindOf(listed, rows).Blind? <==> !listed || exists x :: x in rows && x.probe.None?
  {
  }

  /** How many passes at the end of the history are of kind k. */
  function Tail(h: seq<Kind>, k: Kind): nat {
    if h == [] || h[|h| - 1] != k then 0 else 1 + Tail(h[..|h| - 1], k)
  }

  /** A counter stands at n or more exactly when the last n passes were all of its kind. */
  lemma {:induction false} TailMeaning(h: seq<Kind>, k: Kind, n: nat)
    ensures Tail(h, k) >= n <==> n <= |h| && forall i | |h| - n <= i < |h| :: h[i] == k
  {
    if n > 0 && h != [] && h[|h| - 1] == k { TailMeaning(h[..|h| - 1], k, n - 1); }
  }

  lemma TailSnoc(h: seq<Kind>, last: Kind, k: Kind)
    ensures Tail(h + [last], k) == if last == k then Tail(h, k) + 1 else 0
  {
    assert (h + [last])[..|h|] == h;
  }

  function Alive(pids: seq<int>, alive: int -> bool): (r: seq<int>)
    ensures |r| <= |pids| && forall p :: p in r <==> p in pids && alive(p)
  {
    if pids == [] then []
    else Alive(pids[..|pids| - 1], alive) + if alive(pids[|pids| - 1]) then [pids[|pids| - 1]] else []
  }

  /** The mounts a repair goes for: confirmed by a stuck probe or by `confirmed` silence. */
  function Wedged(rows: seq<Row>, confirmed: bool): (ms: seq<string>)
    ensures forall m :: m in ms <==> exists r :: r in rows && r.mount == m && Unanswered(r) && (confirmed || r.probe.value.stuck)
    ensures ms != [] <==> exists r :: r in rows && Unanswered(r) && (confirmed || r.probe.value.stuck)
    ensures |ms| <= |rows|
  {
    if rows == [] then []
    else
      var r := rows[|rows| - 1];
      assert rows == rows[..|rows| - 1] + [r];
      Wedged(rows[..|rows| - 1], confirmed) + if Unanswered(r) && (confirmed || r.probe.value.stuck) then [r.mount] else []
  }

  function Mounts(r: Reading): seq<string> { if r.listed.Some? then r.listed.value else [] }

  /** A row for every listed mount, in order, with what its probe said. */
  predicate RowsOf(r: Reading, rows: seq<Row>) {
    && |rows| == (if r.listed.Some? then |r.listed.value| else 0)
    && forall i: nat | i < |rows| :: rows[i].mount == r.listed.value[i] && (rows[i].probe.Some? ==> rows[i].probe.value == r.probe(i))
  }

  predicate AnyStuck(rows: seq<Row>) { exists r :: r in rows && StuckRow(r) }

  /** The probes of these rows that outlived SIGKILL. */
  function StuckPids(rows: seq<Row>): seq<int> {
    if rows == [] then []
    else
      var r := rows[|rows| - 1];
      StuckPids(rows[..|rows| - 1]) + if StuckRow(r) then [r.probe.value.pid] else []
  }

  lemma StuckSnoc(rows: seq<Row>, row: Row)
    ensures StuckPids(rows + [row]) == StuckPids(rows) + if StuckRow(row) then [row.probe.value.pid] else []
  {
    assert (rows + [row])[..|rows|] == rows;
  }

  /** The wedged mounts that are still listed; all of them when the list could not be read. */
  function StillListed(ms: seq<string>, listed: Option<seq<string>>): (r: seq<string>)
    ensures forall m :: m in r <==> m in ms && (listed.Some? ==> m in listed.value)
    ensures |r| <= |ms|
  {
    if ms == [] then []
    else
      var m := ms[|ms| - 1];
      StillListed(ms[..|ms| - 1], listed) + if listed.Some? && m !in listed.value then [] else [m]
  }

  function Results(ms: seq<string>, umount: string -> Option<int>): (r: seq<Option<int>>)
    ensures |r| == |ms| && forall i: nat | i < |r| :: r[i] == umount(ms[i])
  {
    seq(|ms|, i requires 0 <= i < |ms| => umount(ms[i]))
  }

  /** The helpers stuck in the kernel. */
  function InKernel(hs: seq<Helper>): (pids: seq<int>)
    ensures forall p :: p in pids <==> exists h :: h in hs && h.inKernel && h.pid == p
  {
    if hs == [] then []
    else
      var h := hs[|hs| - 1];
      assert hs == hs[..|hs| - 1] + [h];
      InKernel(hs[..|hs| - 1]) + if h.inKernel then [h.pid] else []
  }

  datatype Outcome = Outcome(rows: seq<Row>, wedged: seq<string>, repaired: bool, killed: seq<int>, umounts: seq<string>, closed: bool)

  class DeviceWatch {
    var stuck: seq<int>
    var noAnswer: nat
    var okStreak: nat
    var since: Option<int>
    var umountPid: Option<int>

    /** The probes and the unmounts still held by the kernel, and the kinds of all passes so far. */
    ghost var live: set<int>
    ghost var hanging: set<int>
    ghost var history: seq<Kind>

    ghost predicate Valid()
      reads this
    {
      && |stuck| <= DEVICEFS_MAX_STUCK && (forall p | p in live :: p in stuck)
      && noAnswer == Tail(history, Silent) && okStreak == Tail(history, Healthy)
    }

    constructor ()
      ensures Valid() && history == [] && live == {} && hanging == {} && since.None? && umountPid.None?
    {
      stuck, noAnswer, okStreak, since, umountPid, live, hanging, history := [], 0, 0, None, None, {}, {}, [];
    }

    /** The probe loop: a mount is probed exactly while fewer than the limit of probes are stuck, and each that sticks is recorded. */
    method ProbeMounts(r: Reading, mounts: seq<string>) returns (rows: seq<Row>)
      requires |stuck| <= DEVICEFS_MAX_STUCK && forall p | p in live :: p in stuck
      modifies this`stuck, this`live
      ensures |rows| == |mounts| && forall i: nat | i < |rows| ::
        && rows[i].mount == mounts[i] && (rows[i].probe.Some? ==> rows[i].probe.value == r.probe(i))
        && (rows[i].probe.None? <==> |old(stuck)| + |StuckPids(rows[..i])| >= DEVICEFS_MAX_STUCK)
      ensures stuck == old(stuck) + StuckPids(rows) && |stuck| <= DEVICEFS_MAX_STUCK
      ensures forall p :: p in live <==> p in old(live) || p in StuckPids(rows)
    {
      hide StuckPids;
      rows := [];
      NoneStuck();
      for i := 0 to |mounts|
        invariant |rows| == i && forall k: nat | k < i ::
          && rows[k].mount == mounts[k] && (rows[k].probe.Some? ==> rows[k].probe.value == r.probe(k))
          && (rows[k].probe.None? <==> |old(stuck)| + |StuckPids(rows[..k])| >= DEVICEFS_MAX_STUCK)
        invariant stuck == old(stuck) + StuckPids(rows) && |stuck| <= DEVICEFS_MAX_STUCK
        invariant forall p :: p in live <==> p in old(live) || p in StuckPids(rows)
      {
        var row := Row(mounts[i], if |stuck| >= DEVICEFS_MAX_STUCK then None else Some(r.probe(i)));
        StuckSnoc(rows, row);
        assert forall k: nat | k <= i :: (rows + [row])[..k] == rows[..k];
        assert rows[..i] == rows;
        if StuckRow(row) { stuck, live := stuck + [row.probe.value.pid], live + {row.probe.value.pid}; }
        rows := rows + [row];
      }
    }

    /**
     `_devicefs_remediate`. Every helper stuck in the kernel is signalled. Unless one was, or a probe
     is stuck, nothing is unmounted; and nothing while the unmount on record is still running. The
     record is the last unmount that had to be abandoned.
     */
    method Repair(r: Reading, mounts: seq<string>, stuckProbe: bool) returns (killed: seq<int>, umounts: seq<string>)
      modifies this`umountPid, this`hanging
      ensures killed == InKernel(r.helpers)
      ensures umounts == if (killed != [] || stuckProbe) && !(old(umountPid).Some? && r.umountAlive(old(umountPid).value))
                         then StillListed(mounts, r.listedAgain) else []
      ensures Umounts(umountPid, hanging) ==
        if killed != [] || stuckProbe
        then Repaired(Umounts(old(umountPid), old(hanging)), r.umountAlive, Results(StillListed(mounts, r.listedAgain), r.umount))
        else Umounts(old(umountPid), old(hanging))
    {
      hide LastPid, Pids, StillListed;
      umounts := [];
      killed := KillHelpers(r.helpers);
      if killed == [] && !stuckProbe { return; }
      if umountPid.Some? && !r.umountAlive(umountPid.value) { umountPid := None; }
      var pending := umountPid;
      NoResults(mounts, r.listedAgain, r.umount);
      assert hanging + {} == hanging;
      for i := 0 to |mounts|
        invariant pending.Some? ==> umounts == [] && umountPid == pending && hanging == old(hanging)
        invariant pending.None? ==>
          && umounts == StillListed(mounts[..i], r.listedAgain) && umountPid == LastPid(Results(umounts, r.umount))
          && hanging == old(hanging) + Pids(Results(umounts, r.umount))
      {
        OneMoreMount(mounts, i, r.listedAgain, r.umount);
        if r.listedAgain.Some? && mounts[i] !in r.listedAgain.value { continue; }
        if pending.Some? { continue; }
        var outcome := r.umount(mounts[i]);
        umounts := umounts + [mounts[i]];
        if outcome.Some? { umountPid, hanging := outcome, hanging + {outcome.value}; }
      }
      assert mounts[..|mounts|] == mounts;
    }

    /**
     `watch_devicefs`. `survivors` and `hangers` are the stuck probes and unmounts of earlier passes
     that still run. A pass with an unprobed mount counts neither towards a recovery nor towards a
     confirmed silence. At every time at most three probes are held by the kernel, and they are exactly
     those left and not yet returned. A repair runs only if a probe outlived SIGKILL in this pass, or
     every mount was probed and some was silent in this pass and the one before it; an episode closes
     only after three healthy passes in a row.
     */
    method Pass(r: Reading, now: int, ghost survivors: set<int>, ghost hangers: set<int>) returns (o: Outcome)
      requires Valid() && survivors <= live && forall p | p in survivors :: r.alive(p)
      modifies this
      ensures Valid() && |live| <= DEVICEFS_MAX_STUCK
      ensures forall p :: p in live <==> p in survivors || p in StuckPids(o.rows)
      ensures stuck == Alive(old(stuck), r.alive) + StuckPids(o.rows)
      ensures RowsOf(r, o.rows)
      ensures forall i: nat | i < |o.rows| ::
        o.rows[i].probe.None? <==> |Alive(old(stuck), r.alive)| + |StuckPids(o.rows[..i])| >= DEVICEFS_MAX_STUCK
      ensures history == old(history) + [KindOf(r.listed.Some?, o.rows)]
      ensures history != [] && var kind := history[|history| - 1];
              && (kind.Healthy? <==> r.listed.Some? && forall x | x in o.rows :: x.probe.Some? && !x.probe.value.Timeout?)
              && (kind.Silent? <==> r.listed.Some? && (forall x | x in o.rows :: x.probe.Some?)
                                    && exists x :: x in o.rows && x.probe.Some? && x.probe.value.Timeout?)
      ensures (r.listed.None? || exists x :: x in o.rows && x.probe.None?) ==> okStreak == 0 && noAnswer == 0
      ensures o.wedged == Wedged(o.rows, Tail(history, Silent) >= DEVICEFS_CONFIRM_PASSES)
      ensures |live| <= 3 && (o.closed ==> LastPasses(history, Healthy, 3))
      ensures forall m :: m in o.wedged <==> exists x :: x in o.rows && x.mount == m && x.probe.Some? && x.probe.value.Timeout?
                                                         && (x.probe.value.stuck || LastPasses(history, Silent, 2))
      ensures forall p :: p in o.killed <==> o.repaired && exists h :: h in r.helpers && h.inKernel && h.pid == p
      ensures o.repaired <==> r.repair && o.wedged != []
      ensures o.repaired ==> AnyStuck(o.rows) || LastPasses(history, Silent, DEVICEFS_CONFIRM_PASSES)
      ensures o.killed == if o.repaired then InKernel(r.helpers) else []
      ensures o.umounts == if o.repaired && (o.killed != [] || AnyStuck(o.rows)) && !(old(umountPid).Some? && r.umountAlive(old(umountPid).value))
                           then StillListed(o.wedged, r.listedAgain) else []
      ensures var before := Umounts(old(umountPid), hangers);
              var after := if o.repaired && (o.killed != [] || AnyStuck(o.rows))
                           then Repaired(before, r.umountAlive, Results(StillListed(o.wedged, r.listedAgain), r.umount)) else before;
              Umounts(umountPid, hanging) == if o.closed then Closed(after) else after
      ensures o.closed ==> LastPasses(history, Healthy, RECOVER_PASSES) && old(since).Some?
      ensures o.closed <==> r.acknowledged && old(since).Some? && Tail(history, Healthy) >= RECOVER_PASSES
      ensures since == if o.closed then None else if old(since).Some? then old(since) else if o.wedged != [] then Some(now) else None
    {
      hide KindOf, Tail, Wedged, AnyStuck, LastPasses, StuckPids, Repaired, InKernel, StillListed, Results, Alive, Valid;
      var rows, wedged := Observe(r, survivors);
      hanging := hangers;
      o := Act(r, now, rows, wedged);
      StillValid();
    }

    lemma StillValid()
      requires |stuck| <= DEVICEFS_MAX_STUCK && (forall p | p in live :: p in stuck)
      requires noAnswer == Tail(history, Silent) && okStreak == Tail(history, Healthy)
      ensures Valid()
    {
    }

    /** The probing half of a pass. */
    method Observe(r: Reading, ghost survivors: set<int>) returns (rows: seq<Row>, wedged: seq<string>)
      requires Valid() && survivors <= live && forall p | p in survivors :: r.alive(p)
      modifies this`stuck, this`live, this`history, this`noAnswer, this`okStreak
      ensures |stuck| <= DEVICEFS_MAX_STUCK && (forall p | p in live :: p in stuck) && |live| <= DEVICEFS_MAX_STUCK
      ensures forall p :: p in live <==> p in survivors || p in StuckPids(rows)
      ensures stuck == Alive(old(stuck), r.alive) + StuckPids(rows)
      ensures RowsOf(r, rows)
      ensures forall i: nat | i < |rows| ::
        rows[i].probe.None? <==> |Alive(old(stuck), r.alive)| + |StuckPids(rows[..i])| >= DEVICEFS_MAX_STUCK
      ensures history == old(history) + [KindOf(r.listed.Some?, rows)]
      ensures history != [] && var kind := history[|history| - 1];
              && (kind.Healthy? <==> r.listed.Some? && forall x | x in rows :: x.probe.Some? && !x.probe.value.Timeout?)
              && (kind.Silent? <==> r.listed.Some? && (forall x | x in rows :: x.probe.Some?)
                                    && exists x :: x in rows && x.probe.Some? && x.probe.value.Timeout?)
      ensures (r.listed.None? || exists x :: x in rows && x.probe.None?) ==> okStreak == 0 && noAnswer == 0
      ensures noAnswer == Tail(history, Silent) && okStreak == Tail(history, Healthy)
      ensures wedged == Wedged(rows, noAnswer >= DEVICEFS_CONFIRM_PASSES)
      ensures forall m :: m in wedged <==> exists x :: x in rows && x.mount == m && x.probe.Some? && x.probe.value.Timeout?
                                                       && (x.probe.value.stuck || LastPasses(history, Silent, 2))
      ensures okStreak > 0 ==> wedged == [] && noAnswer == 0
      ensures wedged != [] ==> AnyStuck(rows) || LastPasses(history, Silent, DEVICEFS_CONFIRM_PASSES)
      ensures okStreak >= RECOVER_PASSES <==> LastPasses(history, Healthy, RECOVER_PASSES)
    {
      hide KindOf, Tail, Wedged, AnyStuck, LastPasses, StuckPids, Alive, Unanswered;
      live := survivors;
      stuck := Alive(stuck, r.alive);
      rows := ProbeMounts(r, Mounts(r));
      NoMoreThan(live, stuck);
      KindMeans(r.listed.Some?, rows);
      CountPass(KindOf(r.listed.Some?, rows));
      wedged := Wedged(rows, noAnswer >= DEVICEFS_CONFIRM_PASSES);
      NotHealthy(r.listed.Some?, rows, noAnswer >= DEVICEFS_CONFIRM_PASSES);
      WedgedMeans(rows, noAnswer >= DEVICEFS_CONFIRM_PASSES);
    }

    /** What a pass does about the mounts it found wedged, and whether the episode is over. */
    method Act(r: Reading, now: int, rows: seq<Row>, wedged: seq<string>) returns (o: Outcome)
      requires noAnswer == Tail(history, Silent) && okStreak == Tail(history, Healthy)
      requires okStreak > 0 ==> wedged == [] && noAnswer == 0
      modifies this`since, this`umountPid, this`hanging, this`noAnswer
      ensures noAnswer == old(noAnswer) && o.rows == rows && o.wedged == wedged && (o.repaired <==> r.repair && wedged != [])
      ensures o.killed == if o.repaired then InKernel(r.helpers) else []
      ensures o.umounts == if o.repaired && (o.killed != [] || AnyStuck(rows)) && !(old(umountPid).Some? && r.umountAlive(old(umountPid).value))
                           then StillListed(wedged, r.listedAgain) else []
      ensures var before := Umounts(old(umountPid), old(hanging));
              var after := if o.repaired && (o.killed != [] || AnyStuck(rows))
                           then Repaired(before, r.umountAlive, Results(StillListed(wedged, r.listedAgain), r.umount)) else before;
              Umounts(umountPid, hanging) == if o.closed then Closed(after) else after
      ensures o.closed <==> r.acknowledged && old(since).Some? && okStreak >= RECOVER_PASSES
      ensures since == if o.closed then None else if old(since).Some? then old(since) else if wedged != [] then Some(now) else None
    {
      hide AnyStuck, Repaired, InKernel, StillListed, Results, Tail;
      if wedged != [] && since.None? { since := Some(now); }
      var killed: seq<int>, umounts: seq<string> := [], [];
      var repaired := wedged != [] && r.repair;
      if repaired { killed, umounts := Repair(r, wedged, AnyStuck(rows)); }
      var closed := since.Some? && okStreak >= RECOVER_PASSES && r.acknowledged;
      if closed { since, umountPid, noAnswer := None, None, 0; }
      o := Outcome(rows, wedged, repaired, killed, umounts, closed);
    }

    /** The two counters, which are the lengths of the last runs of silent and of healthy passes. */
    method CountPass(kind: Kind)
      requires noAnswer == Tail(history, Silent) && okStreak == Tail(history, Healthy)
      modifies this`history, this`noAnswer, this`okStreak
      ensures history == old(history) + [kind]
      ensures noAnswer == Tail(history, Silent) && okStreak == Tail(history, Healthy)
      ensures noAnswer > 0 <==> kind.Silent?
      ensures okStreak > 0 <==> kind.Healthy?
      ensures noAnswer >= DEVICEFS_CONFIRM_PASSES <==> LastPasses(history, Silent, DEVICEFS_CONFIRM_PASSES)
      ensures okStreak >= RECOVER_PASSES <==> LastPasses(history, Healthy, RECOVER_PASSES)
    {
      hide Tail;
      TailSnoc(history, kind, Silent);
      TailSnoc(history, kind, Healthy);
      history := history + [kind];
      noAnswer := if kind.Silent? then noAnswer + 1 else 0;
      okStreak := if kind.Healthy? then okStreak + 1 else 0;
      TailMeaning(history, Silent, DEVICEFS_CONFIRM_PASSES);
      TailMeaning(history, Healthy, RECOVER_PASSES);
    }
  }

  lemma NoneStuck()
    ensures StuckPids([]) == []
  {
  }

  lemma NoResults(mounts: seq<string>, listed: Option<seq<string>>, umount: string -> Option<int>)
    ensures StillListed(mounts[..0], listed) == [] && LastPid(Results([], umount)) == None && Pids(Results([], umount)) == {}
  {
  }

  lemma OneMoreMount(mounts: seq<string>, i: nat, listed: Option<seq<string>>, umount: string -> Option<int>)
    requires i < |mounts|
    ensures var now, more := StillListed(mounts[..i], listed), StillListed(mounts[..i + 1], listed);
            if listed.Some? && mounts[i] !in listed.value then more == now
            else
              && more == now + [mounts[i]]
              && LastPid(Results(more, umount)) == (if umount(mounts[i]).Some? then umount(mounts[i]) else LastPid(Results(now, umount)))
              && Pids(Results(more, umount)) == Pids(Results(now, umount)) + if umount(mounts[i]).Some? then {umount(mounts[i]).value} else {}
  {
    assert mounts[..i + 1][..i] == mounts[..i];
    var now := StillListed(mounts[..i], listed);
    if !(listed.Some? && mounts[i] !in listed.value) {
      var more := now + [mounts[i]];
      assert Results(more, umount) == Results(now, umount) + [umount(mounts[i])];
      assert Results(more, umount)[..|now|] == Results(now, umount);
    }
  }

  method KillHelpers(hs: seq<Helper>) returns (killed: seq<int>)
    ensures killed == InKernel(hs)
  {
    killed := [];
    for i := 0 to |hs|
      invariant killed == InKernel(hs[..i])
    {
      assert hs[..i + 1][..i] == hs[..i];
      if hs[i].inKernel { killed := killed + [hs[i].pid]; }
    }
    assert hs[..|hs|] == hs;
  }

  /** The last n passes were all of kind k. */
  ghost predicate LastPasses(h: seq<Kind>, k: Kind, n: nat) { n <= |h| && forall i | |h| - n <= i < |h| :: h[i] == k }

  lemma WedgedMeans(rows: seq<Row>, confirmed: bool)
    ensures forall m :: m in Wedged(rows, confirmed) <==>
      exists x :: x in rows && x.mount == m && x.probe.Some? && x.probe.value.Timeout? && (x.probe.value.stuck || confirmed)
  {
  }

  /** A wedge is never found in a healthy pass; and without a stuck probe it takes confirmed silence. */
  lemma NotHealthy(listed: bool, rows: seq<Row>, confirmed: bool)
    ensures KindOf(listed, rows).Healthy? ==> Wedged(rows, confirmed) == []
    ensures Wedged(rows, confirmed) != [] ==> AnyStuck(rows) || confirmed
  {
  }

  lemma {:induction false} NoMoreThan(s: set<int>, pids: seq<int>)
    requires forall p: int :: p in s ==> p in pids
    ensures |s| <= |pids|
  {
    if pids == [] {
      assert forall p: int :: p !in s;
    } else {
      var last, rest := pids[|pids| - 1], pids[..|pids| - 1];
      assert forall p: int :: p in s - {last} ==> p in rest;
      NoMoreThan(s - {last}, rest);
      assert s <= (s - {last}) + {last};
    }
  }
}
