/**
 The pass state of scripts/disk_watchdog.py: how many unkillable probes it can leave behind, when it
 acts on a wedge, and when it calls an episode over.
 */
module Watchdog {
  import opened Basics

  const RECOVER_PASSES: nat := 3
  const DEVICEFS_MAX_STUCK: nat := 3
  const DEVICEFS_CONFIRM_PASSES: nat := 2

  /** The outcome of one probe; `stuck` says that the process outlived SIGKILL. */
  datatype Probe = Ok | Slow | Error | Timeout(pid: int, stuck: bool)

  // --------------------------------------------------------------------------- watched paths

  datatype Status = Fast | Alarm | NoReading

  function StatusOf(p: Probe): Status {
    match p
    case Ok => Fast
    case Slow => Alarm
    case Error => NoReading
    case Timeout(_, _) => Alarm
  }

  /** Fast probes since the last alarm; a probe that gave no reading neither adds nor resets. */
  function Streak(h: seq<Status>): nat {
    if h == [] then 0
    else
      match h[|h| - 1]
      case Alarm => 0
      case Fast => Streak(h[..|h| - 1]) + 1
      case NoReading => Streak(h[..|h| - 1])
  }

  function CountFast(h: seq<Status>): nat {
    if h == [] then 0 else CountFast(h[..|h| - 1]) + if h[|h| - 1].Fast? then 1 else 0
  }

  /** The streak, counted directly: the fast probes behind the last alarm. */
  lemma {:induction false} StreakMeaning(h: seq<Status>) returns (i: nat)
    ensures i <= |h| && (i > 0 ==> h[i - 1].Alarm?) && (forall k | i <= k < |h| :: !h[k].Alarm?)
    ensures Streak(h) == CountFast(h[i..])
  {
    if h == [] {
      i := 0;
    } else {
      var rest := h[..|h| - 1];
      match h[|h| - 1]
      case Alarm => i := |h|;
      case Fast =>
        i := StreakMeaning(rest);
        assert h[i..][..|h[i..]| - 1] == rest[i..];
      case NoReading =>
        i := StreakMeaning(rest);
        assert h[i..][..|h[i..]| - 1] == rest[i..];
    }
  }

  /** What one pass reads. `alive` may take a stranger for a probe, but never denies a live one. */
  datatype PathReading = PathReading(alive: int -> bool, probe: Probe, acknowledged: bool)

  class PathWatch {
    var outstanding: Option<int>
    var okStreak: nat
    var since: Option<int>

    /** The probes of this path that are still running, all statuses so far, and how many of them precede the last close. */
    ghost var live: set<int>
    ghost var history: seq<Status>
    ghost var before: nat

    ghost predicate Valid()
      reads this
    {
      && (forall p | p in live :: outstanding.Some? && outstanding.value == p)
      && okStreak == Streak(history)
      && before <= |history| && (since.Some? <==> exists k :: before <= k < |history| && history[k].Alarm?)
    }

    constructor ()
      ensures Valid() && history == [] && live == {} && since.None?
    {
      outstanding, okStreak, since, live, history, before := None, 0, None, {}, [], 0;
    }

    /**
     `watch_path`. `survivors` are the probes of earlier passes that still run when this one begins.
     No probe is started beside a live one; the episode opens with the first alarm and closes only
     on the third fast probe behind the last alarm.
     */
    method Pass(r: PathReading, now: int, ghost survivors: set<int>) returns (probe: Probe, started: bool, closed: bool)
      requires Valid() && survivors <= live && forall p | p in survivors :: r.alive(p)
      modifies this
      ensures Valid() && history == old(history) + [StatusOf(probe)] && before == if closed then |history| else old(before)
      ensures started ==> survivors == {} && probe == r.probe
      ensures !started ==> probe.Timeout? && probe.stuck && old(outstanding) == Some(probe.pid)
      ensures live == survivors + if started && probe.Timeout? && probe.stuck then {probe.pid} else {}
      ensures |live| <= 1
      ensures StatusOf(probe).Fast? <==> probe.Ok?
      ensures StatusOf(probe).Alarm? <==> probe.Slow? || probe.Timeout?
      ensures closed ==> Streak(history) >= 3
      ensures closed <==> r.acknowledged && Streak(history) >= RECOVER_PASSES && old(since).Some?
      ensures since == if closed then None else if old(since).Some? then old(since) else if StatusOf(probe).Alarm? then Some(now) else None
    {
      hide Streak;
      probe, started := ProbeOnce(r, survivors);
      Singleton(live, outstanding);
      closed := Judge(probe, now, r.acknowledged);
    }

    /** Start a probe, unless the one on record is still running. */
    method ProbeOnce(r: PathReading, ghost survivors: set<int>) returns (probe: Probe, started: bool)
      requires forall p | p in survivors :: outstanding.Some? && outstanding.value == p && r.alive(p)
      modifies this`outstanding, this`live
      ensures forall p | p in live :: outstanding.Some? && outstanding.value == p
      ensures started ==> survivors == {} && probe == r.probe
      ensures !started ==> probe.Timeout? && probe.stuck && old(outstanding) == Some(probe.pid)
      ensures live == survivors + if started && probe.Timeout? && probe.stuck then {probe.pid} else {}
    {
      live := survivors;
      if outstanding.Some? && r.alive(outstanding.value) {
        return Timeout(outstanding.value, true), false;
      }
      NoneLeft(survivors, outstanding, r.alive);
      probe, started := r.probe, true;
      if probe.Timeout? && probe.stuck {
        outstanding, live := Some(probe.pid), {probe.pid};
      } else {
        outstanding := None;
      }
    }

    /** Drive the episode of the path by the outcome of its probe. */
    method Judge(probe: Probe, now: int, acknowledged: bool) returns (closed: bool)
      requires Valid()
      modifies this`okStreak, this`since, this`history, this`before
      ensures Valid() && history == old(history) + [StatusOf(probe)] && before == if closed then |history| else old(before)
      ensures closed <==> acknowledged && Streak(history) >= RECOVER_PASSES && old(since).Some?
      ensures since == if closed then None else if old(since).Some? then old(since) else if StatusOf(probe).Alarm? then Some(now) else None
    {
      assert (history + [StatusOf(probe)])[..|history|] == history;
      history := history + [StatusOf(probe)];
      match StatusOf(probe) {
        case Alarm =>
          okStreak := 0;
          if since.None? { since := Some(now); }
        case Fast => okStreak := okStreak + 1;
        case NoReading =>
      }
      var resolved := since.Some? && okStreak >= RECOVER_PASSES;
      closed := resolved && acknowledged;
      if closed {
        since := None;
        before := |history|;
      }
    }
  }

  lemma Singleton(s: set<int>, o: Option<int>)
    requires forall p: int :: p in s ==> o.Some? && o.value == p
    ensures |s| <= 1
  {
    var one: set<int> := if o.Some? then {o.value} else {};
    forall p: int | p in s ensures p in one { }
    assert one == s + (one - s);
  }

  lemma NoneLeft(s: set<int>, o: Option<int>, alive: int -> bool)
    requires forall p | p in s :: o.Some? && o.value == p && alive(p)
    requires !(o.Some? && alive(o.value))
    ensures s == {}
  {
    assert forall p :: p !in s;
  }

  lemma {:induction false} CountFastConcat(a: seq<Status>, b: seq<Status>)
    ensures CountFast(a + b) == CountFast(a) + CountFast(b)
  {
    if b == [] {
      assert a + b == a;
    } else {
      var n := |b| - 1;
      assert (a + b)[..|a| + n] == a + b[..n];
      CountFastConcat(a, b[..n]);
    }
  }

  lemma {:induction false} AllFast(h: seq<Status>)
    ensures CountFast(h) <= |h| && (CountFast(h) == |h| <==> forall i | 0 <= i < |h| :: h[i].Fast?)
  {
    if h != [] { AllFast(h[..|h| - 1]); }
  }

  /**
   The three fast probes that close an episode are the last three exactly when no probe since the
   first of them, h[t], failed to give a reading.
   */
  lemma InARow(h: seq<Status>, t: nat)
    requires t < |h| && h[t].Fast? && CountFast(h[t..]) == RECOVER_PASSES && forall i | t <= i < |h| :: !h[i].Alarm?
    ensures (|h| >= 3 && forall i | |h| - 3 <= i < |h| :: h[i].Fast?) <==> forall i | t <= i < |h| :: !h[i].NoReading?
  {
    var tail := h[t..];
    AllFast(tail);
    assert forall i | t <= i < |h| :: h[i] == tail[i - t];
    if |h| >= 3 && t < |h| - 3 && forall i | |h| - 3 <= i < |h| :: h[i].Fast? { FourFast(h, t); }
  }

  lemma FourFast(h: seq<Status>, t: nat)
    requires t + 3 < |h| && h[t].Fast? && forall i | |h| - 3 <= i < |h| :: h[i].Fast?
    ensures CountFast(h[t..]) >= 4
  {
    var n := |h| - 3;
    var first, rest, last := [h[t]], h[t + 1..n], h[n..];
    assert h[t..] == first + rest + last;
    CountFastConcat(first + rest, last);
    CountFastConcat(first, rest);
    AllFast(first);
    AllFast(last);
  }

  /** Three fast probes close an episode, but not "in a row": a probe without a reading may lie between them. */
  lemma NotInARow(n: nat)
    ensures var h := [Alarm, Fast] + seq(n, _ => NoReading) + [Fast, Fast];
            Streak(h) == RECOVER_PASSES && (n > 0 ==> !h[|h| - 3].Fast?)
  {
    StreakOverErrors([Alarm, Fast], n);
    var h := [Alarm, Fast] + seq(n, _ => NoReading);
    var two := h + [Fast, Fast];
    assert two[..|two| - 1] == h + [Fast] && (h + [Fast])[..|h|] == h;
    assert [Alarm, Fast][..1] == [Alarm] && Streak([Alarm]) == 0 && Streak([Alarm, Fast]) == 1;
  }

  lemma {:induction false} StreakOverErrors(h: seq<Status>, n: nat)
    ensures Streak(h + seq(n, _ => NoReading)) == Streak(h)
  {
    if n == 0 {
      assert h + seq(n, _ => NoReading) == h;
    } else {
      StreakOverErrors(h, n - 1);
      var all := h + seq(n, _ => NoReading);
      assert all[..|all| - 1] == h + seq(n - 1, _ => NoReading);
    }
  }
}
