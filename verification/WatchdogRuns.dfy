/**
 Whole runs of the device pass of scripts/disk_watchdog.py: what they do to unmounts is a history of
 returns, repairs and closes, so the bounds on such histories are bounds on the watchdog.
 */
module WatchdogRuns {
  import opened Basics
  import opened Watchdog
  import opened WatchdogUmounts
  import opened WatchdogDevices

  /** The pass tried to unmount something, or would have but for an unmount still running. */
  predicate Tries(o: Outcome) { o.repaired && (o.killed != [] || AnyStuck(o.rows)) }

  /** What one pass means for unmounts: some have returned; then a repair; then the end of the episode. */
  function Told(u: Umounts, r: Reading, o: Outcome): seq<Event> {
    [Returns(set p | p in u.hanging && !r.umountAlive(p))]
    + (if Tries(o)
       then [Repair(Results(StillListed(o.wedged, r.listedAgain), r.umount),
                    if u.recorded.Some? && r.umountAlive(u.recorded.value) then {u.recorded.value} else {})]
       else [])
    + (if o.closed then [Close] else [])
  }

  function Tell(rs: seq<Reading>, os: seq<Outcome>): seq<Event>
    requires |os| == |rs|
  {
    if rs == [] then []
    else
      var n := |rs| - 1;
      var before := Tell(rs[..n], os[..n]);
      before + Told(Run(before), rs[n], os[n])
  }

  /** No episode closes while an unmount hangs. */
  ghost predicate ClosesClean(events: seq<Event>) {
    forall i: nat | i < |events| && events[i].Close? :: Run(events[..i]).hanging == {}
  }

  lemma RunTold(events: seq<Event>, u: Umounts, r: Reading, o: Outcome)
    requires u == Run(events)
    ensures var before := Umounts(u.recorded, set p | p in u.hanging && r.umountAlive(p));
            var results := Results(StillListed(o.wedged, r.listedAgain), r.umount);
            var after := if Tries(o) then Repaired(before, r.umountAlive, results) else before;
            Run(events + Told(u, r, o)) == if o.closed then Closed(after) else after
  {
    hide Run, StillListed, LastPid, Pids;
    var gone := Returns(set p | p in u.hanging && !r.umountAlive(p));
    var repair := Repair(Results(StillListed(o.wedged, r.listedAgain), r.umount),
                         if u.recorded.Some? && r.umountAlive(u.recorded.value) then {u.recorded.value} else {});
    RunSnoc(events, gone);
    assert u.hanging - gone.pids == set p | p in u.hanging && r.umountAlive(p);
    RunSnoc(events + [gone], repair);
    RunSnoc(events + [gone], Close);
    RunSnoc(events + [gone] + [repair], Close);
    assert events + Told(u, r, o) == events + [gone] + (if Tries(o) then [repair] else []) + (if o.closed then [Close] else []);
    assert events + [gone] + [] == events + [gone];
    if Tries(o) { assert events + [gone] + [repair] + [] == events + [gone] + [repair]; }
  }

  lemma ToldModest(events: seq<Event>, u: Umounts, r: Reading, o: Outcome, m: nat)
    requires Modest(events, m, true) && |o.wedged| <= m
    ensures Modest(events + Told(u, r, o), m, true)
  {
    hide Run, Results;
  }

  lemma {:induction false} TellModest(rs: seq<Reading>, os: seq<Outcome>, m: nat)
    requires |os| == |rs| && forall i | 0 <= i < |os| :: |os[i].wedged| <= m
    ensures Modest(Tell(rs, os), m, true)
  {
    hide Told, Modest;
    if rs == [] {
      NothingModest(m);
    } else {
      var n := |rs| - 1;
      TellModest(rs[..n], os[..n], m);
      var before := Tell(rs[..n], os[..n]);
      ToldModest(before, Run(before), rs[n], os[n], m);
    }
  }

  lemma NothingModest(m: nat)
    ensures Modest([], m, true)
  {
  }

  lemma CleanModest(events: seq<Event>, m: nat)
    requires Modest(events, m, true) && ClosesClean(events)
    ensures Modest(events, m, false)
  {
  }

  /** One pass, after any history: it continues the history with what it tells. */
  method OnePass(w: DeviceWatch, r: Reading, now: int, ghost events: seq<Event>) returns (o: Outcome)
    requires w.Valid() && Run(events) == Umounts(w.umountPid, w.hanging)
    modifies w
    ensures w.Valid() && RowsOf(r, o.rows) && |o.wedged| <= |Mounts(r)|
    ensures Run(events + Told(Run(events), r, o)) == Umounts(w.umountPid, w.hanging)
  {
    hide Told, RowsOf, KindOf, StuckPids, StillListed, Results, Repaired, Run, AnyStuck, LastPasses, InKernel, Alive;
    ghost var survivors := set p | p in w.live && r.alive(p);
    ghost var hangers := set p | p in w.hanging && r.umountAlive(p);
    o := w.Pass(r, now, survivors, hangers);
    RunTold(events, Run(events), r, o);
    RowsBound(r, o);
  }

  /**
   Any number of passes over whatever the host answers: the watchdog's record and the unmounts that
   hang are those of the history the passes tell. So where at most one mount is listed and no episode
   closes while an unmount hangs, at most one unmount ever hangs.
   */
  method WatchAll(rs: seq<Reading>, times: seq<int>) returns (w: DeviceWatch, os: seq<Outcome>)
    requires |times| == |rs|
    ensures fresh(w) && w.Valid() && |os| == |rs|
    ensures forall i | 0 <= i < |os| :: RowsOf(rs[i], os[i].rows) && |os[i].wedged| <= |Mounts(rs[i])|
    ensures Run(Tell(rs, os)) == Umounts(w.umountPid, w.hanging)
    ensures (forall r | r in rs :: |Mounts(r)| <= 1) && ClosesClean(Tell(rs, os)) ==> |w.hanging| <= 1
  {
    hide Told, Tell, RowsOf, Mounts, ClosesClean, Run;
    w := new DeviceWatch();
    os := [];
    NothingTold(rs);
    for n := 0 to |rs|
      invariant fresh(w) && w.Valid() && |os| == n
      invariant forall i | 0 <= i < n :: RowsOf(rs[i], os[i].rows) && |os[i].wedged| <= |Mounts(rs[i])|
      invariant Run(Tell(rs[..n], os)) == Umounts(w.umountPid, w.hanging)
    {
      var o := OnePass(w, rs[n], times[n], Tell(rs[..n], os));
      TellSnoc(rs, os, n, o);
      os := os + [o];
    }
    assert rs[..|rs|] == rs;
    OneHangs(rs, os);
  }

  lemma NothingTold(rs: seq<Reading>)
    ensures Run(Tell(rs[..0], [])) == Umounts(None, {})
  {
  }

  lemma TellSnoc(rs: seq<Reading>, os: seq<Outcome>, n: nat, o: Outcome)
    requires n < |rs| && |os| == n
    ensures Tell(rs[..n + 1], os + [o]) == Tell(rs[..n], os) + Told(Run(Tell(rs[..n], os)), rs[n], o)
  {
    assert rs[..n + 1][..n] == rs[..n] && (os + [o])[..n] == os;
  }

  lemma RowsBound(r: Reading, o: Outcome)
    requires RowsOf(r, o.rows) && exists confirmed :: o.wedged == Wedged(o.rows, confirmed)
    ensures |o.wedged| <= |Mounts(r)|
  {
  }

  lemma OneHangs(rs: seq<Reading>, os: seq<Outcome>)
    requires |os| == |rs| && forall i | 0 <= i < |os| :: |os[i].wedged| <= |Mounts(rs[i])|
    ensures (forall r | r in rs :: |Mounts(r)| <= 1) && ClosesClean(Tell(rs, os)) ==> |Run(Tell(rs, os)).hanging| <= 1
  {
    hide Tell, Mounts, Run, Modest, ClosesClean;
    if (forall r | r in rs :: |Mounts(r)| <= 1) && ClosesClean(Tell(rs, os)) {
      assert forall i | 0 <= i < |os| :: rs[i] in rs;
      TellModest(rs, os, 1);
      CleanModest(Tell(rs, os), 1);
      AtMostOneHangs(1, false);
    }
  }

  // --------------------------------------------------------- a wedge, and then three healthy passes

  /** The one mount does not answer, its probe outlives SIGKILL, and its unmount hangs as `pid`. */
  function Wedge(pid: int): Reading {
    Reading(p => false, Some(["m"]), i => Timeout(-1, true), [], true, Some(["m"]), p => true, m => Some(pid), true)
  }

  /** The one mount answers; every stuck probe has returned, and no unmount has. */
  function Well(): Reading {
    Reading(p => false, Some(["m"]), i => Ok, [], true, Some(["m"]), p => true, m => None, true)
  }

  lemma WedgeRows(rows: seq<Row>, pid: int, confirmed: bool)
    requires RowsOf(Wedge(pid), rows) && rows[0].probe.Some?
    ensures AnyStuck(rows) && Wedged(rows, confirmed) == ["m"] && KindOf(true, rows) == Silent
    ensures var results := Results(StillListed(["m"], Some(["m"])), Wedge(pid).umount); LastPid(results) == Some(pid) && Pids(results) == {pid}
  {
    hide LastPid, Pids, StillListed, Results;
    assert rows == [Row("m", Some(Timeout(-1, true)))];
    assert StuckRow(rows[0]) && Unanswered(rows[0]);
    assert rows[..0] == [];
    WedgeResults(pid);
  }

  lemma WedgeResults(pid: int)
    ensures var results := Results(StillListed(["m"], Some(["m"])), Wedge(pid).umount); LastPid(results) == Some(pid) && Pids(results) == {pid}
  {
    assert ["m"][..0] == [];
    assert StillListed(["m"], Some(["m"])) == ["m"];
    assert Results(["m"], Wedge(pid).umount) == [Some(pid)];
  }

  lemma WellRows(rows: seq<Row>, confirmed: bool)
    requires RowsOf(Well(), rows) && rows[0].probe.Some?
    ensures Wedged(rows, confirmed) == [] && KindOf(true, rows) == Healthy
  {
    assert rows == [Row("m", Some(Ok))];
  }

  lemma {:induction false} NoneAlive(pids: seq<int>, rows: seq<Row>)
    ensures Alive(pids, p => false) == [] && StuckPids(rows[..0]) == []
  {
    if pids != [] { NoneAlive(pids[..|pids| - 1], rows); }
  }

  method WedgePass(w: DeviceWatch, pid: int, now: int)
    requires w.Valid() && w.umountPid.None?
    modifies w
    ensures w.Valid() && w.hanging == old(w.hanging) + {pid} && w.since.Some? && w.history == old(w.history) + [Silent]
  {
    hide KindOf, StuckPids, StillListed, Results, AnyStuck, LastPasses, Alive, Wedged, LastPid, Pids, Tail;
    NoneAlive(w.stuck, []);
    var o := w.Pass(Wedge(pid), now, {}, w.hanging);
    NoneAlive([], o.rows);
    WedgeRows(o.rows, pid, Tail(w.history, Silent) >= DEVICEFS_CONFIRM_PASSES);
    TailSnoc(old(w.history), Silent, Healthy);
  }

  method WellPass(w: DeviceWatch, now: int)
    requires w.Valid() && w.since.Some?
    modifies w
    ensures w.Valid() && w.hanging == old(w.hanging) && w.history == old(w.history) + [Healthy]
    ensures if Tail(w.history, Healthy) >= RECOVER_PASSES then w.umountPid.None? else w.since.Some?
  {
    hide KindOf, StuckPids, StillListed, Results, AnyStuck, LastPasses, Alive, Wedged, Repaired, Tail;
    NoneAlive(w.stuck, []);
    var o := w.Pass(Well(), now, {}, w.hanging);
    NoneAlive([], o.rows);
    WellRows(o.rows, Tail(w.history, Silent) >= DEVICEFS_CONFIRM_PASSES);
  }

  lemma ThreeTail(h: seq<Kind>)
    ensures Tail(h + [Silent], Healthy) == 0 && Tail(h + [Silent] + [Healthy], Healthy) == 1
    ensures Tail(h + [Silent] + [Healthy] + [Healthy], Healthy) == 2
    ensures Tail(h + [Silent] + [Healthy] + [Healthy] + [Healthy], Healthy) == 3
  {
    TailSnoc(h, Silent, Healthy);
    TailSnoc(h + [Silent], Healthy, Healthy);
    TailSnoc(h + [Silent] + [Healthy], Healthy, Healthy);
    TailSnoc(h + [Silent] + [Healthy] + [Healthy], Healthy, Healthy);
  }

  /**
   A watchdog of one mount, through k episodes of a wedge and three healthy passes: each closes and
   forgets the unmount it started, and in the end k unmounts hang and none is on record.
   */
  method HangMany(k: nat, now: int) returns (w: DeviceWatch)
    ensures fresh(w) && w.Valid() && w.umountPid.None? && |w.history| == 4 * k
    ensures forall p :: p in w.hanging <==> 0 <= p < k
  {
    hide Tail;
    w := new DeviceWatch();
    for i := 0 to k
      invariant fresh(w) && w.Valid() && w.umountPid.None? && |w.history| == 4 * i
      invariant forall p :: p in w.hanging <==> 0 <= p < i
    {
      ThreeTail(w.history);
      WedgePass(w, i, now);
      WellPass(w, now);
      WellPass(w, now);
      WellPass(w, now);
    }
  }
}
