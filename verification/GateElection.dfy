/**
 The fallback election of scripts/gate_supply.py: every fallback lane decides alone, from reports
 that may be stale, whether to boot a VM for queued demand its peers do not cover.
 */
module GateElection {
  import opened Basics

  datatype Mode = Free | InFlight | Blocked

  /** A lane as its host reports it. */
  datatype Row = Row(dir: string, slot: int, mode: Mode)

  /** A peer's report; `free` and `flight` are counts. */
  datatype Report = Report(ok: bool, repo: string, class_: string, fetchedAt: Option<real>, free: nat, flight: nat)

  /** The reader's own siblings: not asked for, not readable, or read. */
  datatype Local = Skipped | Unreadable | Siblings(rows: seq<Row>)

  datatype Verdict = Grant | Hold | Unknown

  datatype Ask = Ask(repo: string, class_: string, maxAge: real, now: real)

  // ------------------------------------------------------------------------ one decision

  predicate Usable(ask: Ask, r: Report) {
    && r.ok && r.repo == ask.repo && r.class_ == ask.class_
    && ask.now - FetchedAt(ask, r) <= ask.maxAge
  }

  /** A report without a time counts as fetched now. */
  function FetchedAt(ask: Ask, r: Report): real { if r.fetchedAt.Some? then r.fetchedAt.value else ask.now }

  function Cover(peers: seq<Report>): nat {
    if peers == [] then 0 else Cover(peers[..|peers| - 1]) + peers[|peers| - 1].free + peers[|peers| - 1].flight
  }

  function Flying(modes: seq<Mode>): set<nat> { set k: nat | k < |modes| && modes[k].InFlight? }

  function Idle(modes: seq<Mode>): set<nat> { set k: nat | k < |modes| && modes[k].Free? }

  /** The lanes of all peers that are free or in flight: host, and lane on that host. */
  function Staffed(hosts: seq<seq<Mode>>): set<(nat, nat)> {
    set h: nat, k: nat | h < |hosts| && k < |hosts[h]| && !hosts[h][k].Blocked? :: (h, k)
  }

  /** Each report counts the free lanes and the lanes in flight of its host. */
  ghost predicate Counts(peers: seq<Report>, hosts: seq<seq<Mode>>) {
    && |hosts| == |peers|
    && forall h: nat | h < |peers| :: peers[h].free == |Idle(hosts[h])| && peers[h].flight == |Flying(hosts[h])|
  }

  lemma {:induction false} CoverIsStaffed(peers: seq<Report>, hosts: seq<seq<Mode>>)
    requires Counts(peers, hosts)
    ensures Cover(peers) == |Staffed(hosts)|
  {
    if peers == [] {
      assert Staffed(hosts) == {};
    } else {
      var n := |peers| - 1;
      CoverIsStaffed(peers[..n], hosts[..n]);
      LastHost(hosts);
      OfHost(n, Idle(hosts[n]) + Flying(hosts[n]));
      assert Idle(hosts[n]) !! Flying(hosts[n]);
    }
  }

  function OnHost(h: nat, lanes: set<nat>): set<(nat, nat)> { set k | k in lanes :: (h, k) }

  lemma LastHost(hosts: seq<seq<Mode>>)
    requires hosts != []
    ensures var n := |hosts| - 1;
            && Staffed(hosts) == Staffed(hosts[..n]) + OnHost(n, Idle(hosts[n]) + Flying(hosts[n]))
            && Staffed(hosts[..n]) !! OnHost(n, Idle(hosts[n]) + Flying(hosts[n]))
  {
  }

  lemma {:induction false} OfHost(h: nat, lanes: set<nat>)
    ensures |OnHost(h, lanes)| == |lanes|
    decreases |lanes|
  {
    if k :| k in lanes {
      OfHost(h, lanes - {k});
      assert OnHost(h, lanes) == OnHost(h, lanes - {k}) + {(h, k)};
    } else {
      assert OnHost(h, lanes) == {};
    }
  }

  /** A sibling that will take a job before the lane in `slot` does. */
  predicate Ahead(row: Row, dir: string, slot: int) {
    row.dir != dir && (row.mode.InFlight? || (row.mode.Free? && row.slot < slot))
  }

  function AllAhead(rows: seq<Row>, dir: string, slot: int): set<nat> {
    set k: nat | k < |rows| && Ahead(rows[k], dir, slot)
  }

  function LocalCover(local: Local, dir: string, slot: int): nat {
    if local.Siblings? then |AllAhead(local.rows, dir, slot)| else 0
  }

  /** Every report that was asked for can be used. */
  predicate Sighted(ask: Ask, peers: seq<Report>, local: Local) {
    !local.Unreadable? && forall r | r in peers :: Usable(ask, r)
  }

  /** A lane may boot: everything it asked for was read, and some demand is left over for it. */
  predicate Grants(ask: Ask, demand: int, peers: seq<Report>, local: Local, dir: string, slot: int) {
    demand > 0 && Sighted(ask, peers, local) && demand > Cover(peers) + LocalCover(local, dir, slot)
  }

  lemma GrantsOverLanes(ask: Ask, demand: int, peers: seq<Report>, local: Local, dir: string, slot: int)
    ensures forall hosts | Counts(peers, hosts) ::
      Grants(ask, demand, peers, local, dir, slot) <==>
        demand > 0 && Sighted(ask, peers, local) && demand > |Staffed(hosts)| + LocalCover(local, dir, slot)
  {
    forall hosts | Counts(peers, hosts) ensures Cover(peers) == |Staffed(hosts)| { CoverIsStaffed(peers, hosts); }
  }

  /**
   `decide`. Unknown exactly when there is demand and some report was refused, is for another
   repository or class, or is too old. When the reports count the lanes of the peers, it grants exactly
   if the demand exceeds all peer lanes free or in flight and the siblings ahead of this lane.
   */
  method Decide(ask: Ask, demand: int, peers: seq<Report>, local: Local, dir: string, slot: int)
    returns (v: Verdict)
    ensures v.Unknown? <==> demand > 0 && !Sighted(ask, peers, local)
    ensures v.Grant? <==> Grants(ask, demand, peers, local, dir, slot)
    ensures v.Unknown? ==>
      || local.Unreadable?
      || exists r :: r in peers && (!r.ok || r.repo != ask.repo || r.class_ != ask.class_
                                    || ask.now - (if r.fetchedAt.Some? then r.fetchedAt.value else ask.now) > ask.maxAge)
    ensures v.Grant? ==> !local.Unreadable? && forall r | r in peers ::
      && r.ok && r.repo == ask.repo && r.class_ == ask.class_
      && ask.now - (if r.fetchedAt.Some? then r.fetchedAt.value else ask.now) <= ask.maxAge
    ensures forall hosts | Counts(peers, hosts) ::
      v.Grant? <==> demand > 0 && Sighted(ask, peers, local) && demand > |Staffed(hosts)| + LocalCover(local, dir, slot)
  {
    GrantsOverLanes(ask, demand, peers, local, dir, slot);
    hide Counts;
    if demand <= 0 { return Hold; }
    var cover := 0;
    for i := 0 to |peers|
      invariant cover == Cover(peers[..i])
      invariant forall r | r in peers[..i] :: Usable(ask, r)
    {
      var report := peers[i];
      assert report in peers;
      if !report.ok { return Unknown; }
      if report.repo != ask.repo || report.class_ != ask.class_ { return Unknown; }
      var fetched := if report.fetchedAt.Some? then report.fetchedAt.value else ask.now;
      if ask.now - fetched > ask.maxAge { return Unknown; }
      assert peers[..i + 1][..i] == peers[..i];
      cover := cover + report.free + report.flight;
    }
    assert peers[..|peers|] == peers;
    var localCover := 0;
    match local {
      case Siblings(rows) =>
        for i := 0 to |rows|
          invariant localCover == |AllAhead(rows[..i], dir, slot)|
        {
          OneMoreRow(rows, i, dir, slot);
          if rows[i].dir == dir { continue; }
          if rows[i].mode.InFlight? || (rows[i].mode.Free? && rows[i].slot < slot) {
            localCover := localCover + 1;
          }
        }
        assert rows[..|rows|] == rows;
      case Unreadable => return Unknown;
      case Skipped =>
    }
    v := if demand - cover - localCover > 0 then Grant else Hold;
  }

  lemma OneMoreRow(rows: seq<Row>, i: nat, dir: string, slot: int)
    requires i < |rows|
    ensures |AllAhead(rows[..i + 1], dir, slot)|
         == |AllAhead(rows[..i], dir, slot)| + if Ahead(rows[i], dir, slot) then 1 else 0
  {
    hide Ahead;
    var less, more := rows[..i], rows[..i + 1];
    assert more == less + [rows[i]];
    assert forall k: nat | k < i :: more[k] == less[k];
    assert more[i] == rows[i];
    assert AllAhead(more, dir, slot) == AllAhead(less, dir, slot) + if Ahead(rows[i], dir, slot) then {i} else {};
  }

  // ------------------------------------------------- many lanes, each with its own stale view

  datatype Lane = Lane(dir: string, slot: int)

  /** `views[i]` is what lane i read last; it is not refreshed when the siblings move on. */
  datatype State = State(modes: seq<Mode>, views: map<nat, seq<Row>>, granted: set<nat>)

  /** A lane reads its siblings; decides on its view, its demand and its peers' reports; boots once granted. */
  datatype Step = Look(i: nat) | Vote(i: nat, ask: Ask, demand: int, peers: seq<Report>) | Boot(i: nat)

  ghost predicate DistinctLanes(lanes: seq<Lane>) {
    && (forall i: nat, j: nat | i < j < |lanes| :: lanes[i].slot != lanes[j].slot)
    && (forall i: nat, j: nat | i < j < |lanes| :: lanes[i].dir != lanes[j].dir)
  }

  function RowsOf(lanes: seq<Lane>, modes: seq<Mode>): (rows: seq<Row>)
    requires |lanes| == |modes|
    ensures |rows| == |lanes| && forall k: nat | k < |rows| :: rows[k] == Row(lanes[k].dir, lanes[k].slot, modes[k])
  {
    seq(|lanes|, k requires 0 <= k < |lanes| => Row(lanes[k].dir, lanes[k].slot, modes[k]))
  }

  /** A lane decides while it is free, and only a granted lane goes in flight. */
  function Apply(lanes: seq<Lane>, s: State, step: Step): State
    requires |lanes| == |s.modes|
  {
    match step
    case Look(i) => if i < |lanes| then s.(views := s.views[i := RowsOf(lanes, s.modes)]) else s
    case Vote(i, ask, demand, peers) =>
      if i < |lanes| && s.modes[i].Free? && i in s.views && Grants(ask, demand, peers, Siblings(s.views[i]), lanes[i].dir, lanes[i].slot)
      then s.(granted := s.granted + {i}) else s
    case Boot(i) => if i < |lanes| && i in s.granted then s.(modes := s.modes[i := InFlight]) else s
  }

  function Run(lanes: seq<Lane>, start: seq<Mode>, steps: seq<Step>): (s: State)
    requires |lanes| == |start|
    ensures |s.modes| == |lanes|
  {
    if steps == [] then State(start, map[], {})
    else Apply(lanes, Run(lanes, start, steps[..|steps| - 1]), steps[|steps| - 1])
  }

  /** Every view in use is at most as far along as the lanes themselves. */
  ghost predicate Sane(lanes: seq<Lane>, start: seq<Mode>, s: State)
    requires |lanes| == |start|
  {
    && |s.modes| == |lanes| && s.granted <= Idle(start)
    && Flying(start) <= Flying(s.modes) <= Flying(start) + s.granted
    && (forall k: nat | k < |start| && !start[k].Free? :: s.modes[k] == start[k])
    && (forall k: nat | k < |start| && start[k].Free? :: !s.modes[k].Blocked?)
    && (forall i | i in s.views :: Plausible(lanes, start, s.views[i]))
  }

  ghost predicate Plausible(lanes: seq<Lane>, start: seq<Mode>, rows: seq<Row>)
    requires |lanes| == |start|
  {
    && |rows| == |lanes|
    && (forall k: nat | k < |rows| :: rows[k].dir == lanes[k].dir && rows[k].slot == lanes[k].slot)
    && (forall k: nat | k < |rows| && start[k].InFlight? :: rows[k].mode.InFlight?)
    && (forall k: nat | k < |rows| && start[k].Free? :: !rows[k].mode.Blocked?)
  }

  lemma {:induction false} RunsAreSane(lanes: seq<Lane>, start: seq<Mode>, steps: seq<Step>)
    requires |lanes| == |start|
    ensures Sane(lanes, start, Run(lanes, start, steps))
  {
    if steps != [] {
      RunsAreSane(lanes, start, steps[..|steps| - 1]);
      var s, step := Run(lanes, start, steps[..|steps| - 1]), steps[|steps| - 1];
      match step {
        case Look(i) =>
        case Vote(i, _, _, _) =>
        case Boot(i) =>
          if i < |lanes| && i in s.granted { assert Flying(s.modes[i := InFlight]) == Flying(s.modes) + {i}; }
      }
    }
  }

  /** What a lane granted from a plausible view must have left room for. */
  lemma RoomForTheOthers(lanes: seq<Lane>, start: seq<Mode>, rows: seq<Row>, i: nat, others: set<nat>)
    requires |lanes| == |start| && DistinctLanes(lanes) && Plausible(lanes, start, rows)
    requires i < |lanes| && start[i].Free?
    requires others <= Idle(start) && forall k | k in others :: lanes[k].slot < lanes[i].slot
    ensures |others| + |Flying(start)| <= |AllAhead(rows, lanes[i].dir, lanes[i].slot)|
  {
    var ahead := AllAhead(rows, lanes[i].dir, lanes[i].slot);
    assert others + Flying(start) <= ahead;
    assert others !! Flying(start);
    Subset(others + Flying(start), ahead);
  }

  lemma {:induction false} Subset<T>(a: set<T>, b: set<T>)
    requires a <= b
    ensures |a| <= |b|
  {
    assert b == a + (b - a);
  }

  /** Each peer lane that is free or in flight was so when the reports were made. */
  ghost predicate Reported(peers: seq<Report>, hosts: seq<seq<Mode>>) {
    exists seen :: Counts(peers, seen) && Staffed(hosts) <= Staffed(seen)
  }

  lemma CoverIsEnough(peers: seq<Report>, hosts: seq<seq<Mode>>)
    requires Reported(peers, hosts)
    ensures |Staffed(hosts)| <= Cover(peers)
  {
    var seen :| Counts(peers, seen) && Staffed(hosts) <= Staffed(seen);
    CoverIsStaffed(peers, seen);
    Subset(Staffed(hosts), Staffed(seen));
  }

  /** Votes never act on more than `demand`, nor on reports that miss a staffed lane of a peer. */
  ghost predicate Bounded(steps: seq<Step>, demand: int, hosts: seq<seq<Mode>>) {
    forall m | 0 <= m < |steps| && steps[m].Vote? :: steps[m].demand <= demand && Reported(steps[m].peers, hosts)
  }

  /** Every granted lane was granted from a plausible view. */
  lemma {:induction false} GrantedFromAView(lanes: seq<Lane>, start: seq<Mode>, steps: seq<Step>, demand: int, hosts: seq<seq<Mode>>, i: nat)
    requires |lanes| == |start| && Bounded(steps, demand, hosts) && i in Run(lanes, start, steps).granted
    ensures i < |lanes| && start[i].Free?
    ensures exists rows :: Plausible(lanes, start, rows) && RoomOn(rows, lanes[i], demand - |Staffed(hosts)|)
  {
    RunsAreSane(lanes, start, steps);
    if steps != [] {
      var s, step := Run(lanes, start, steps[..|steps| - 1]), steps[|steps| - 1];
      RunsAreSane(lanes, start, steps[..|steps| - 1]);
      if i in s.granted {
        GrantedFromAView(lanes, start, steps[..|steps| - 1], demand, hosts, i);
      } else {
        assert step.Vote? && step.i == i;
        CoverIsEnough(step.peers, hosts);
        assert RoomOn(s.views[i], lanes[i], demand - |Staffed(hosts)|);
      }
    }
  }

  /** The siblings ahead of the lane leave one of `room` jobs to it. */
  predicate RoomOn(rows: seq<Row>, lane: Lane, room: int) { |AllAhead(rows, lane.dir, lane.slot)| < room }

  lemma {:induction false} HighestSlot(lanes: seq<Lane>, s: set<nat>) returns (top: nat)
    requires s != {} && DistinctLanes(lanes) && forall k | k in s :: k < |lanes|
    ensures top in s && forall k | k in s - {top} :: lanes[k].slot < lanes[top].slot
    decreases |s|
  {
    top :| top in s;
    if s != {top} {
      var rest := HighestSlot(lanes, s - {top});
      if lanes[rest].slot > lanes[top].slot { top := rest; }
    }
  }

  /**
   The election never over-boots: in every run, however stale the views and however often lanes look
   and vote, once any lane is granted the lanes granted, the local lanes in flight and all peer lanes
   free or in flight fit into the demand; so does everything that ever goes in flight.
   */
  lemma {:induction false} NeverOverBoots(lanes: seq<Lane>, start: seq<Mode>, steps: seq<Step>, demand: int, hosts: seq<seq<Mode>>)
    requires |lanes| == |start| && DistinctLanes(lanes) && Bounded(steps, demand, hosts)
    ensures var s := Run(lanes, start, steps);
            s.granted != {} ==>
              && |s.granted| + |Flying(start)| + |Staffed(hosts)| <= demand
              && |Flying(s.modes)| + |Staffed(hosts)| <= demand
    ensures var s := Run(lanes, start, steps); s.granted == {} ==> Flying(s.modes) == Flying(start)
  {
    var s := Run(lanes, start, steps);
    RunsAreSane(lanes, start, steps);
    if s.granted != {} {
      var top := HighestSlot(lanes, s.granted);
      GrantedFromAView(lanes, start, steps, demand, hosts, top);
      var rows :| Plausible(lanes, start, rows) && RoomOn(rows, lanes[top], demand - |Staffed(hosts)|);
      RoomForTheOthers(lanes, start, rows, top, s.granted - {top});
      Subset(Flying(s.modes), Flying(start) + s.granted);
    }
  }

  // --------------------------------------------------------------- one snapshot for all lanes

  /** The lanes granted when every free lane decides from the same snapshot. */
  function Elected(lanes: seq<Lane>, modes: seq<Mode>, ask: Ask, demand: int, peers: seq<Report>): set<nat>
    requires |lanes| == |modes|
  {
    set i: nat | i < |lanes| && modes[i].Free?
                 && Grants(ask, demand, peers, Siblings(RowsOf(lanes, modes)), lanes[i].dir, lanes[i].slot)
  }

  function Below(lanes: seq<Lane>, s: set<nat>, i: nat): set<nat>
    requires i < |lanes| && forall k | k in s :: k < |lanes|
  {
    set k | k in s && lanes[k].slot < lanes[i].slot
  }

  /** The members of s whose rank by slot is below `room`. */
  function FirstFew(lanes: seq<Lane>, s: set<nat>, room: int): set<nat>
    requires forall k | k in s :: k < |lanes|
  {
    set i | i in s && |Below(lanes, s, i)| < room
  }

  /** The lane with the highest slot is behind all others, and behind none of them. */
  lemma LastInLine(lanes: seq<Lane>, s: set<nat>, top: nat, i: nat)
    requires (forall k | k in s :: k < |lanes|) && top in s && i in s
    requires forall k | k in s - {top} :: lanes[k].slot < lanes[top].slot
    ensures Below(lanes, s, i) == if i == top then s - {top} else Below(lanes, s - {top}, i)
  {
  }

  lemma FirstFewStep(lanes: seq<Lane>, s: set<nat>, top: nat, room: int)
    requires (forall k | k in s :: k < |lanes|) && top in s
    requires forall k | k in s - {top} :: lanes[k].slot < lanes[top].slot
    ensures FirstFew(lanes, s, room) == FirstFew(lanes, s - {top}, room) + if |s - {top}| < room then {top} else {}
  {
    forall i | i in s ensures Below(lanes, s, i) == if i == top then s - {top} else Below(lanes, s - {top}, i) {
      LastInLine(lanes, s, top, i);
    }
    hide Below;
  }

  lemma {:induction false} FirstFewCount(lanes: seq<Lane>, s: set<nat>, room: int)
    requires DistinctLanes(lanes) && forall k | k in s :: k < |lanes|
    ensures |FirstFew(lanes, s, room)| == Min(|s|, Max(0, room))
    decreases |s|
  {
    hide Below;
    if s == {} {
      assert FirstFew(lanes, s, room) == {};
    } else {
      var top := HighestSlot(lanes, s);
      FirstFewCount(lanes, s - {top}, room);
      FirstFewStep(lanes, s, top, room);
    }
  }

  lemma AheadOnSnapshot(lanes: seq<Lane>, modes: seq<Mode>, i: nat)
    requires |lanes| == |modes| && DistinctLanes(lanes) && i < |lanes| && modes[i].Free?
    ensures |AllAhead(RowsOf(lanes, modes), lanes[i].dir, lanes[i].slot)|
         == |Flying(modes)| + |Below(lanes, Idle(modes), i)|
  {
    var below := Below(lanes, Idle(modes), i);
    assert AllAhead(RowsOf(lanes, modes), lanes[i].dir, lanes[i].slot) == Flying(modes) + below;
    assert Flying(modes) !! below;
  }

  /** With one shared snapshot exactly the uncovered demand is granted, as far as there are free lanes. */
  lemma ExactlyTheExcess(lanes: seq<Lane>, modes: seq<Mode>, ask: Ask, demand: int, peers: seq<Report>, hosts: seq<seq<Mode>>)
    requires |lanes| == |modes| && DistinctLanes(lanes)
    requires Counts(peers, hosts) && forall r | r in peers :: Usable(ask, r)
    ensures |Elected(lanes, modes, ask, demand, peers)|
         == Min(|Idle(modes)|, Max(0, demand - |Staffed(hosts)| - |Flying(modes)|))
  {
    var room := demand - |Staffed(hosts)| - |Flying(modes)|;
    CoverIsStaffed(peers, hosts);
    forall i: nat | i < |lanes| && modes[i].Free?
      ensures i in Elected(lanes, modes, ask, demand, peers) <==> i in FirstFew(lanes, Idle(modes), room)
    {
      AheadOnSnapshot(lanes, modes, i);
    }
    assert Elected(lanes, modes, ask, demand, peers) == FirstFew(lanes, Idle(modes), room);
    FirstFewCount(lanes, Idle(modes), room);
  }

  // ------------------------------------------------------------------ what the slots are for

  /** Two idle lanes sharing a slot do not see each other, and over-boot as soon as the lanes below both are covered. */
  lemma SharedSlot(lanes: seq<Lane>, modes: seq<Mode>, ask: Ask, i: nat, j: nat) returns (demand: nat)
    requires |lanes| == |modes| && i < j < |lanes| && lanes[i].slot == lanes[j].slot
    requires forall k: nat | k < |lanes| :: modes[k].Free?
    ensures |Elected(lanes, modes, ask, demand, [])| > demand
  {
    var rows := RowsOf(lanes, modes);
    var below := AllBelow(rows, lanes[i].slot);
    demand := |below| + 1;
    forall k: nat | k < |lanes| && lanes[k].slot <= lanes[i].slot ensures k in Elected(lanes, modes, ask, demand, []) {
      Subset(AllAhead(rows, lanes[k].dir, lanes[k].slot), below);
    }
    Subset(below + {i, j}, Elected(lanes, modes, ask, demand, []));
  }

  function AllBelow(rows: seq<Row>, slot: int): set<nat> { set k: nat | k < |rows| && rows[k].slot < slot }

  /** Distinct slots are exactly what the election needs, whichever demand may come. */
  lemma SlotsMustDiffer(lanes: seq<Lane>, modes: seq<Mode>, ask: Ask)
    requires |lanes| == |modes| && forall k: nat | k < |lanes| :: modes[k].Free?
    requires forall i: nat, j: nat | i < j < |lanes| :: lanes[i].dir != lanes[j].dir
    ensures (forall i: nat, j: nat | i < j < |lanes| :: lanes[i].slot != lanes[j].slot)
       <==> (forall demand: nat :: |Elected(lanes, modes, ask, demand, [])| <= demand)
  {
    if i: nat, j: nat :| i < j < |lanes| && lanes[i].slot == lanes[j].slot {
      var demand := SharedSlot(lanes, modes, ask, i, j);
    } else {
      forall demand: nat ensures |Elected(lanes, modes, ask, demand, [])| <= demand {
        assert Staffed([]) == {};
        ExactlyTheExcess(lanes, modes, ask, demand, [], []);
      }
    }
  }
}
