/**
 The force-unmounts of scripts/disk_watchdog.py. A repair starts none beside the one on record, but
 it may start several at once and records the last, and a close forgets the record. This says how
 many unmounts can hang in the kernel, and exactly when it is at most one.
 */
module WatchdogUmounts {
  import opened Basics
  import opened Watchdog

  /** The unmount on record, and all unmounts the kernel still holds. */
  datatype Umounts = Umounts(recorded: Option<int>, hanging: set<int>)

  /** The pid of the last unmount that was abandoned. */
  function LastPid(results: seq<Option<int>>): Option<int> {
    if results == [] then None
    else if results[|results| - 1].Some? then results[|results| - 1] else LastPid(results[..|results| - 1])
  }

  /** Attempt i was abandoned, and none after it. */
  ghost predicate LastAbandoned(results: seq<Option<int>>, i: nat, p: int) {
    i < |results| && results[i] == Some(p) && forall j | i < j < |results| :: results[j].None?
  }

  lemma {:induction false} LastPidMeans(results: seq<Option<int>>, p: int)
    ensures LastPid(results) == Some(p) <==> exists i: nat :: LastAbandoned(results, i, p)
  {
    if results != [] {
      var n := |results| - 1;
      if results[n].None? {
        LastPidMeans(results[..n], p);
        forall i: nat ensures LastAbandoned(results, i, p) <==> LastAbandoned(results[..n], i, p) {
          assert forall j | 0 <= j < n :: results[..n][j] == results[j];
        }
      } else {
        assert LastAbandoned(results, n, results[n].value);
      }
    }
  }

  function Pids(results: seq<Option<int>>): set<int> { set x | x in results && x.Some? :: x.value }

  /** A repair that tries to unmount: `results` are the pids of unmounts that had to be abandoned. */
  function Repaired(u: Umounts, alive: int -> bool, results: seq<Option<int>>): Umounts {
    if u.recorded.Some? && alive(u.recorded.value) then u
    else Umounts(LastPid(results), u.hanging + Pids(results))
  }

  function Closed(u: Umounts): Umounts { u.(recorded := None) }

  // ------------------------------------------------------------------------------ many passes

  /** Unmounts return from the kernel; a repair, with the pids other programs run under; the end of an episode. */
  datatype Event = Returns(pids: set<int>) | Repair(results: seq<Option<int>>, reused: set<int>) | Close

  function After(u: Umounts, e: Event): Umounts {
    match e
    case Returns(pids) => u.(hanging := u.hanging - pids)
    case Repair(results, reused) => Repaired(u, (p: int) => p in u.hanging || p in reused, results)
    case Close => Closed(u)
  }

  function Run(events: seq<Event>): Umounts {
    if events == [] then Umounts(None, {}) else After(Run(events[..|events| - 1]), events[|events| - 1])
  }

  lemma RunSnoc(events: seq<Event>, e: Event)
    ensures Run(events + [e]) == After(Run(events), e)
  {
    assert (events + [e])[..|events|] == events;
  }

  /** Repairs try at most m unmounts; and unless `closing`, no episode closes while one hangs. */
  ghost predicate Modest(events: seq<Event>, m: nat, closing: bool) {
    forall i: nat | i < |events| ::
      && (events[i].Repair? ==> |events[i].results| <= m)
      && (events[i].Close? && !closing ==> Run(events[..i]).hanging == {})
  }

  lemma ModestSnoc(events: seq<Event>, e: Event, m: nat, closing: bool)
    requires Modest(events, m, closing)
    requires (e.Repair? ==> |e.results| <= m) && (e.Close? && !closing ==> Run(events).hanging == {})
    ensures Modest(events + [e], m, closing)
  {
    var all := events + [e];
    forall i: nat | i < |all|
      ensures (all[i].Repair? ==> |all[i].results| <= m) && (all[i].Close? && !closing ==> Run(all[..i]).hanging == {}) {
      if i < |events| { assert all[..i] == events[..i] && all[i] == events[i]; } else { assert all[..i] == events; }
    }
  }

  ghost predicate Lone(u: Umounts) { forall p: int :: p in u.hanging ==> u.recorded.Some? && u.recorded.value == p }

  /** One attempt per repair, and no close while an unmount hangs, keep every hanging unmount on record. */
  lemma {:induction false} OnRecord(events: seq<Event>, m: nat)
    requires m <= 1 && Modest(events, m, false)
    ensures Lone(Run(events))
  {
    if events != [] {
      var n := |events| - 1;
      var u, e := Run(events[..n]), events[n];
      assert Modest(events[..n], m, false) by {
        assert forall i: nat | i < n :: events[..n][i] == events[i] && events[..n][..i] == events[..i];
      }
      OnRecord(events[..n], m);
      match e
      case Returns(_) =>
      case Close =>
      case Repair(results, _) =>
        if !(u.recorded.Some? && u.recorded.value in u.hanging) {
          OnlyPid(results);
          NothingHangs(u);
        }
    }
  }

  lemma OnlyPid(results: seq<Option<int>>)
    requires |results| <= 1
    ensures forall p: int :: p in Pids(results) ==> LastPid(results) == Some(p)
  {
  }

  lemma NothingHangs(u: Umounts)
    requires Lone(u) && !(u.recorded.Some? && u.recorded.value in u.hanging)
    ensures forall p: int :: p !in u.hanging
  {
  }

  /** With closes allowed, one attempt per repair leaves any number of hanging unmounts. */
  lemma {:induction false} ClosesForget(k: nat) returns (events: seq<Event>)
    ensures Modest(events, 1, true) && Run(events).recorded.None?
    ensures forall p: int :: p in Run(events).hanging <==> 0 <= p < k
  {
    if k == 0 {
      events := [];
    } else {
      var before := ClosesForget(k - 1);
      var repair := before + [Repair([Some(k - 1)], {})];
      RunSnoc(before, Repair([Some(k - 1)], {}));
      ModestSnoc(before, Repair([Some(k - 1)], {}), 1, true);
      RunSnoc(repair, Close);
      ModestSnoc(repair, Close, 1, true);
      events := repair + [Close];
      assert LastPid([Some(k - 1)]) == Some(k - 1) && Pids([Some(k - 1)]) == {k - 1};
    }
  }

  function Many(k: nat): (r: seq<Option<int>>)
    ensures |r| == k && forall i: nat | i < k :: r[i] == Some(i)
  {
    seq(k, i requires 0 <= i < k => Some(i))
  }

  /** Without any close, one repair of k mounts leaves k. */
  lemma OneRepairLeavesMany(k: nat) returns (events: seq<Event>)
    ensures Modest(events, k, false)
    ensures forall p: int :: p in Run(events).hanging <==> 0 <= p < k
  {
    var r := Many(k);
    RunSnoc([], Repair(r, {}));
    ModestSnoc([], Repair(r, {}), k, false);
    events := [] + [Repair(r, {})];
    forall p: int ensures p in Pids(r) <==> 0 <= p < k {
      if 0 <= p < k { assert r[p] in r; }
    }
  }

  lemma {:induction false} SizeOf(s: set<int>, k: nat)
    requires forall p: int :: p in s <==> 0 <= p < k
    ensures |s| == k
  {
    if k == 0 {
      assert forall p: int :: p !in s;
    } else {
      SizeOf(s - {k - 1}, k - 1);
    }
  }

  /**
   At most one unmount ever hangs, in all histories that try at most m unmounts per repair, exactly
   when m is 0, or is 1 and no episode closes while an unmount hangs.
   */
  lemma AtMostOneHangs(m: nat, closing: bool)
    ensures (forall events | Modest(events, m, closing) :: |Run(events).hanging| <= 1) <==> m == 0 || (m == 1 && !closing)
  {
    hide Modest, Run;
    if m == 0 || (m == 1 && !closing) {
      forall events | Modest(events, m, closing) ensures |Run(events).hanging| <= 1 {
        if m == 0 { NoRepairs(events, closing); } else { OnRecord(events, m); Singleton(Run(events).hanging, Run(events).recorded); }
      }
    } else {
      var events;
      if m == 1 {
        events := ClosesForget(2);
      } else {
        events := OneRepairLeavesMany(2);
        MoreModest(events, 2, m, false, closing);
      }
      SizeOf(Run(events).hanging, 2);
    }
  }

  lemma MoreModest(events: seq<Event>, m: nat, more: nat, closing: bool, closing': bool)
    requires Modest(events, m, closing) && m <= more && (closing ==> closing')
    ensures Modest(events, more, closing')
  {
  }

  lemma {:induction false} NoRepairs(events: seq<Event>, closing: bool)
    requires Modest(events, 0, closing)
    ensures Run(events).hanging == {}
  {
    if events != [] {
      var n := |events| - 1;
      assert Modest(events[..n], 0, closing) by {
        assert forall i: nat | i < n :: events[..n][i] == events[i] && events[..n][..i] == events[..i];
      }
      NoRepairs(events[..n], closing);
      if events[n].Repair? { assert events[n].results == [] && Pids([]) == {}; }
    }
  }
}
