/**
 scripts/gate_reserve_fit.py: sizing a lane's VMs to the gate reserve, measuring the overcommit of a
 profile, and the ratchet that lets no install make any of it worse.
 */
module GateReserve {
  import opened Basics

  const PER_JOB_MEM_MB: int := 1536
  const VM_MIN_MEM_MB: int := 8192
  const VM_MAX_MEM_MB: int := 16384

  /** The host profile; a missing or zero `perJob` selects the default, a missing reserve is zero. */
  datatype Host = Host(pool: int, reserveCores: int, reserveMem: int, perJob: int)

  datatype Priority = Unset | Gate | Other

  datatype Lane = Lane(id: string, priority: Priority, cores: Option<int>, fromReserve: bool, supervisors: int)

  datatype Axis = Cores | Memory

  datatype Row = Row(lane: string, axis: Axis, demand: int, reserve: int, over: nat)

  function PerJob(h: Host): int { if h.perJob == 0 then PER_JOB_MEM_MB else h.perJob }

  /** `vm_mem_mb`; dividing by three rounds down, as in the source. */
  function VmMem(cores: int, perJob: int): int {
    Max(VM_MIN_MEM_MB, Min(VM_MAX_MEM_MB, Max(1, cores - 1) * perJob * 4 / 3))
  }

  /** Four thirds of a job's memory for every core but one, rounded down, between 8 and 16 GiB. */
  lemma VmMemMeans(cores: int, perJob: int, m: int)
    ensures m == VmMem(cores, perJob) <==>
      var need := 4 * perJob * if cores > 2 then cores - 1 else 1;
      if need < 3 * 8192 then m == 8192
      else if need >= 3 * 16384 then m == 16384
      else 3 * m <= need < 3 * (m + 1)
  {
    assert 4 * perJob * (if cores > 2 then cores - 1 else 1) == Max(1, cores - 1) * perJob * 4;
  }

  /** More cores never need less memory, whatever a job is said to need. */
  lemma VmMemIsMonotone(c: int, d: int, perJob: int)
    requires c <= d
    ensures VmMem(c, perJob) <= VmMem(d, perJob)
    ensures VM_MIN_MEM_MB <= VmMem(c, perJob) <= VM_MAX_MEM_MB
  {
    var x, y := Max(1, c - 1), Max(1, d - 1);
    if perJob >= 0 {
      MulMonotone(x, y, perJob);
    } else {
      MulMonotone(1, x, -perJob);
      MulMonotone(1, y, -perJob);
    }
  }

  lemma MulMonotone(x: int, y: int, k: int)
    requires x <= y && k >= 0
    ensures x * k <= y * k
  {
    assert (y - x) * k >= 0;
  }

  // -------------------------------------------------------------------------------- sharing

  /** `slots` VMs of `cores` cores fit the reserve on both axes. */
  predicate Fits(h: Host, slots: int, cores: int) {
    slots * cores <= h.reserveCores && (h.reserveMem > 0 ==> slots * VmMem(cores, PerJob(h)) <= h.reserveMem)
  }

  /** If a count fits, so does every smaller one. */
  lemma SmallerFits(h: Host, slots: int, c: int, d: int)
    requires slots >= 0 && c <= d && Fits(h, slots, d)
    ensures Fits(h, slots, c)
  {
    VmMemIsMonotone(c, d, PerJob(h));
    MulMonotone(c, d, slots);
    MulMonotone(VmMem(c, PerJob(h)), VmMem(d, PerJob(h)), slots);
  }

  /** c is the largest count up to the pool at which all slots fit, or 1 when none does. */
  ghost predicate IsShare(h: Host, slots: int, c: int) {
    var pool := Max(1, h.pool);
    if h.reserveCores <= 0 then c == pool
    else
      && 1 <= c <= pool && (forall d | c < d <= pool :: !Fits(h, slots, d))
      && (c == 1 || Fits(h, slots, c))
  }

  /** The simple form: try every count from the pool down. */
  function ShareFrom(h: Host, slots: int, c: nat): nat {
    if c <= 1 then 1 else if Fits(h, slots, c) then c else ShareFrom(h, slots, c - 1)
  }

  function Share(h: Host, slots: int): (c: nat) {
    if h.reserveCores <= 0 then Max(1, h.pool) else ShareFrom(h, Max(1, slots), Max(1, h.pool))
  }

  lemma {:induction false} ShareFromIsLargest(h: Host, slots: int, top: nat)
    requires top >= 1
    ensures var c := ShareFrom(h, slots, top);
            1 <= c <= top && (forall d | c < d <= top :: !Fits(h, slots, d)) && (c == 1 || Fits(h, slots, c))
  {
    if top > 1 && !Fits(h, slots, top) { ShareFromIsLargest(h, slots, top - 1); }
  }

  lemma ShareIsLargest(h: Host, slots: int)
    ensures IsShare(h, Max(1, slots), Share(h, slots))
  {
    ShareFromIsLargest(h, Max(1, slots), Max(1, h.pool));
  }

  lemma DivisionFits(slots: int, cores: int, reserve: int)
    requires slots >= 1
    ensures slots * cores <= reserve <==> cores <= reserve / slots
  {
    var q, r := reserve / slots, reserve % slots;
    assert reserve == slots * q + r;
    if cores <= q {
      MulMonotone(cores, q, slots);
    } else {
      MulMonotone(q + 1, cores, slots);
      assert (q + 1) * slots == slots * q + slots;
    }
  }

  lemma ShareIsUnique(h: Host, slots: int, c: int, d: int)
    requires IsShare(h, slots, c) && IsShare(h, slots, d)
    ensures c == d
  {
  }

  /** `share_cores`: divide first, then step down while memory does not fit. It agrees with trying every count. */
  method ShareCores(h: Host, slots: int) returns (c: int)
    ensures c == Share(h, slots) && IsShare(h, Max(1, slots), c)
  {
    hide VmMem, ShareFrom;
    var pool := Max(1, h.pool);
    ShareIsLargest(h, slots);
    if h.reserveCores <= 0 { return pool; }
    var s := Max(1, slots);
    c := Max(1, Min(pool, h.reserveCores / s));
    forall d ensures s * d <= h.reserveCores <==> d <= h.reserveCores / s { DivisionFits(s, d, h.reserveCores); }
    while c > 1 && h.reserveMem > 0 && s * VmMem(c, PerJob(h)) > h.reserveMem
      invariant 1 <= c <= pool && (c > 1 ==> s * c <= h.reserveCores)
      invariant forall d | c < d <= pool :: !Fits(h, s, d)
    {
      c := c - 1;
    }
    ShareIsUnique(h, s, c, Share(h, slots));
  }

  // -------------------------------------------------------------------------------- fitting

  predicate IsGate(l: Lane) { !l.priority.Other? }

  /** `lane_vm_cores`; an explicit zero counts as unset. */
  function LaneCores(l: Lane, h: Host): int {
    if l.cores.Some? && l.cores.value != 0 then l.cores.value
    else if l.fromReserve then Share(h, l.supervisors)
    else h.pool
  }

  function RowOf(l: Lane, h: Host, axis: Axis): seq<Row> {
    var cores := LaneCores(l, h);
    var demand := l.supervisors * if axis.Cores? then cores else VmMem(cores, PerJob(h));
    var reserve := if axis.Cores? then h.reserveCores else h.reserveMem;
    if reserve <= 0 then [] else [Row(l.id, axis, demand, reserve, Max(0, demand - reserve))]
  }

  function Fit(lanes: seq<Lane>, h: Host): seq<Row> {
    if lanes == [] then []
    else
      var l := lanes[|lanes| - 1];
      Fit(lanes[..|lanes| - 1], h) + if IsGate(l) then RowOf(l, h, Cores) + RowOf(l, h, Memory) else []
  }

  /** A VM of this lane has c cores: its own count, the share that fits the reserve, or the pool. */
  ghost predicate HasCores(l: Lane, h: Host, c: int) {
    if l.cores.Some? && l.cores.value != 0 then c == l.cores.value
    else if l.fromReserve then IsShare(h, if l.supervisors > 1 then l.supervisors else 1, c)
    else c == h.pool
  }

  lemma CoresAreHad(l: Lane, h: Host, c: int)
    ensures HasCores(l, h, c) <==> c == LaneCores(l, h)
  {
    hide IsShare;
    ShareIsLargest(h, l.supervisors);
    if HasCores(l, h, c) && l.fromReserve && !(l.cores.Some? && l.cores.value != 0) {
      ShareIsUnique(h, Max(1, l.supervisors), c, Share(h, l.supervisors));
    }
  }

  /** Row r is what lane l needs of one axis, for all its supervisors together, against a reserve that there is. */
  ghost predicate IsRow(l: Lane, h: Host, r: Row) {
    && r.lane == l.id && r.reserve > 0 && r.over == (if r.demand > r.reserve then r.demand - r.reserve else 0)
    && r.reserve == (if r.axis.Cores? then h.reserveCores else h.reserveMem)
    && exists c :: HasCores(l, h, c) && r.demand == l.supervisors * Each(h, r.axis, c)
  }

  /** What one VM of c cores needs. */
  function Each(h: Host, axis: Axis, c: int): int {
    if axis.Cores? then c else VmMem(c, if h.perJob != 0 then h.perJob else 1536)
  }

  lemma RowsAreRows(l: Lane, h: Host, r: Row)
    ensures IsRow(l, h, r) <==> exists axis :: r in RowOf(l, h, axis)
  {
    hide HasCores, LaneCores, VmMem;
    forall c ensures HasCores(l, h, c) <==> c == LaneCores(l, h) { CoresAreHad(l, h, c); }
    assert HasCores(l, h, LaneCores(l, h));
    forall axis ensures r in RowOf(l, h, axis) <==> axis == r.axis && IsRow(l, h, r) { RowMeaning(l, h, axis, r); }
    assert IsRow(l, h, r) ==> r in RowOf(l, h, r.axis);
  }

  /** `fit`: one row per axis that has a reserve for every lane whose priority is unset or gate. */
  method FitRows(lanes: seq<Lane>, h: Host) returns (rows: seq<Row>)
    ensures rows == Fit(lanes, h)
    ensures forall r :: r in rows <==> exists l :: l in lanes && (l.priority.Unset? || l.priority.Gate?) && IsRow(l, h, r)
  {
    rows := CollectRows(lanes, h);
    forall r ensures r in rows <==> exists l :: l in lanes && (l.priority.Unset? || l.priority.Gate?) && IsRow(l, h, r) {
      FitMeans(lanes, h, r);
    }
  }

  lemma FitMeans(lanes: seq<Lane>, h: Host, r: Row)
    ensures r in Fit(lanes, h) <==> exists l :: l in lanes && (l.priority.Unset? || l.priority.Gate?) && IsRow(l, h, r)
  {
    hide Fit, RowOf, IsRow;
    FitMembers(lanes, h, r);
    forall l ensures IsRow(l, h, r) <==> exists axis :: r in RowOf(l, h, axis) { RowsAreRows(l, h, r); }
  }

  /** The loop of `fit`. */
  method CollectRows(lanes: seq<Lane>, h: Host) returns (rows: seq<Row>)
    ensures rows == Fit(lanes, h)
  {
    hide VmMem, Share;
    rows := [];
    for i := 0 to |lanes|
      invariant rows == Fit(lanes[..i], h)
    {
      var l := lanes[i];
      assert lanes[..i + 1][..i] == lanes[..i];
      if !IsGate(l) { continue; }
      var cores;
      if l.cores.Some? && l.cores.value != 0 {
        cores := l.cores.value;
      } else if l.fromReserve {
        cores := ShareCores(h, l.supervisors);
      } else {
        cores := h.pool;
      }
      assert cores == LaneCores(l, h);
      var demandCores, demandMem := l.supervisors * cores, l.supervisors * VmMem(cores, PerJob(h));
      ghost var before := rows;
      if h.reserveCores > 0 {
        rows := rows + [Row(l.id, Cores, demandCores, h.reserveCores, Max(0, demandCores - h.reserveCores))];
      }
      if h.reserveMem > 0 {
        rows := rows + [Row(l.id, Memory, demandMem, h.reserveMem, Max(0, demandMem - h.reserveMem))];
      }
      assert rows == before + (RowOf(l, h, Cores) + RowOf(l, h, Memory));
    }
    assert lanes[..|lanes|] == lanes;
  }

  /** The rows are exactly those of the gate lanes, on the axes that have a reserve. */
  lemma {:induction false} FitMembers(lanes: seq<Lane>, h: Host, r: Row)
    ensures r in Fit(lanes, h) <==> exists l, axis :: l in lanes && IsGate(l) && r in RowOf(l, h, axis)
  {
    hide RowOf;
    if lanes != [] {
      var rest, last := lanes[..|lanes| - 1], lanes[|lanes| - 1];
      FitMembers(rest, h, r);
      assert lanes == rest + [last];
      if l, axis :| l in lanes && IsGate(l) && r in RowOf(l, h, axis) {
        assert l in rest || l == last;
        assert axis == Cores || axis == Memory;
      }
      if l, axis :| l in rest && IsGate(l) && r in RowOf(l, h, axis) { assert l in lanes; }
      if IsGate(last) && (r in RowOf(last, h, Cores) || r in RowOf(last, h, Memory)) { assert last in lanes; }
    }
  }

  /** What a row says: the demand of all supervisors against the reserve of its axis. */
  lemma RowMeaning(l: Lane, h: Host, axis: Axis, r: Row)
    ensures var reserve := if axis.Cores? then h.reserveCores else h.reserveMem;
            r in RowOf(l, h, axis) <==>
              && reserve > 0 && r.lane == l.id && r.axis == axis && r.reserve == reserve && r.over == Max(0, r.demand - reserve)
              && r.demand == l.supervisors * if axis.Cores? then LaneCores(l, h) else VmMem(LaneCores(l, h), PerJob(h))
  {
    hide VmMem, LaneCores;
  }

  predicate Sized(l: Lane) { l.fromReserve && (l.cores.None? || l.cores.value == 0) }

  lemma RowsFit(l: Lane, h: Host)
    requires h.reserveCores > 0 && Sized(l)
    ensures (forall r, axis | r in RowOf(l, h, axis) :: r.over == 0) <==> l.supervisors <= 0 || Fits(h, l.supervisors, 1)
  {
    hide VmMem, ShareFrom;
    var c := Share(h, l.supervisors);
    ShareIsLargest(h, l.supervisors);
    assert LaneCores(l, h) == c;
    var cores, mem := l.supervisors * c, l.supervisors * VmMem(c, PerJob(h));
    assert Row(l.id, Cores, cores, h.reserveCores, Max(0, cores - h.reserveCores)) in RowOf(l, h, Cores);
    assert h.reserveMem > 0 ==> Row(l.id, Memory, mem, h.reserveMem, Max(0, mem - h.reserveMem)) in RowOf(l, h, Memory);
    if l.supervisors <= 0 {
      VmMemIsMonotone(c, c, PerJob(h));
      MulMonotone(0, c, -l.supervisors);
      MulMonotone(0, VmMem(c, PerJob(h)), -l.supervisors);
    } else if Fits(h, l.supervisors, c) {
      SmallerFits(h, l.supervisors, 1, c);
    }
  }

  /** A gate lane sized to the reserve overcommits nothing, in the rows of its profile, exactly when it fits at one core. */
  lemma SharedLaneFits(lanes: seq<Lane>, l: Lane, h: Host)
    requires h.reserveCores > 0 && Sized(l) && l in lanes && IsGate(l)
    requires forall k | k in lanes && IsGate(k) && k.id == l.id :: k == l
    ensures (forall r | r in Fit(lanes, h) && r.lane == l.id :: r.over == 0) <==> l.supervisors <= 0 || Fits(h, l.supervisors, 1)
  {
    hide Fit, Fits;
    RowsFit(l, h);
    forall r ensures r in Fit(lanes, h) && r.lane == l.id <==> exists axis :: r in RowOf(l, h, axis) {
      RowOfLane(lanes, l, h, r);
    }
    hide RowOf;
  }

  lemma RowOfLane(lanes: seq<Lane>, l: Lane, h: Host, r: Row)
    requires l in lanes && IsGate(l) && forall k | k in lanes && IsGate(k) && k.id == l.id :: k == l
    ensures r in Fit(lanes, h) && r.lane == l.id <==> exists axis :: r in RowOf(l, h, axis)
  {
    hide Fit, LaneCores, VmMem;
    FitMembers(lanes, h, r);
    if k, axis :| k in lanes && IsGate(k) && r in RowOf(k, h, axis) { RowMeaning(k, h, axis, r); }
    if axis :| r in RowOf(l, h, axis) { RowMeaning(l, h, axis, r); }
  }

  /** A profile whose gate lanes are all sized to the reserve overcommits nothing exactly when each fits at one core. */
  lemma SharedProfileFits(lanes: seq<Lane>, h: Host)
    requires h.reserveCores > 0 && forall l | l in lanes && IsGate(l) :: Sized(l)
    ensures (forall r | r in Fit(lanes, h) :: r.over == 0) <==>
      forall l | l in lanes && IsGate(l) :: l.supervisors <= 0 || Fits(h, l.supervisors, 1)
  {
    hide Fit, Fits, RowOf, Sized;
    forall l | l in lanes && IsGate(l)
      ensures (forall r, axis | r in RowOf(l, h, axis) :: r.over == 0) <==> l.supervisors <= 0 || Fits(h, l.supervisors, 1) {
      RowsFit(l, h);
    }
    forall r ensures r in Fit(lanes, h) <==> exists l, axis :: l in lanes && IsGate(l) && r in RowOf(l, h, axis) { FitMembers(lanes, h, r); }
  }

  // -------------------------------------------------------------------------------- ratchet

  type Pair = (string, Axis)

  /** The dictionary `ratchet` builds from rows: a later row of a pair replaces an earlier one. */
  function Overs(rows: seq<Row>): map<Pair, nat> {
    if rows == [] then map[]
    else
      var r := rows[|rows| - 1];
      Overs(rows[..|rows| - 1])[(r.lane, r.axis) := r.over]
  }

  /** The overcommit on a pair, an absent one counting as zero. */
  function Over(rows: seq<Row>, k: Pair): nat { if k in Overs(rows) then Overs(rows)[k] else 0 }

  /** `ratchet` refuses nothing: no row of the target is worse than the installed profile on its pair. */
  predicate Accepted(installed: seq<Lane>, target: seq<Lane>, h: Host) {
    forall r | r in Fit(target, h) :: r.over <= Over(Fit(installed, h), (r.lane, r.axis))
  }

  lemma {:induction false} OverIsARow(rows: seq<Row>, k: Pair)
    ensures Over(rows, k) == 0 || exists r :: r in rows && (r.lane, r.axis) == k && r.over == Over(rows, k)
  {
    if rows != [] {
      var rest := rows[..|rows| - 1];
      OverIsARow(rest, k);
      var last := rows[|rows| - 1];
      assert last in rows;
      if (last.lane, last.axis) != k && Over(rest, k) != 0 {
        var r :| r in rest && (r.lane, r.axis) == k && r.over == Over(rest, k);
        assert r in rows;
      }
    }
  }

  /** Row i is the last one of its lane and axis. */
  ghost predicate LastOfPair(rows: seq<Row>, i: nat, k: Pair) {
    i < |rows| && (rows[i].lane, rows[i].axis) == k && forall j | i < j < |rows| :: (rows[j].lane, rows[j].axis) != k
  }

  /** The overcommit on a pair is that of its last row, and zero when it has none. */
  lemma {:induction false} OverMeans(rows: seq<Row>, k: Pair)
    ensures forall i: nat | LastOfPair(rows, i, k) :: Over(rows, k) == rows[i].over
    ensures (forall i | 0 <= i < |rows| :: (rows[i].lane, rows[i].axis) != k) ==> Over(rows, k) == 0
  {
    if rows != [] {
      var n := |rows| - 1;
      OverMeans(rows[..n], k);
      forall i: nat | LastOfPair(rows, i, k) ensures Over(rows, k) == rows[i].over {
        if i < n { assert LastOfPair(rows[..n], i, k); }
      }
    }
  }

  /** Row r is worse than the installed profile on its pair. */
  ghost predicate Worse(before: seq<Row>, r: Row) {
    && (forall i: nat | LastOfPair(before, i, (r.lane, r.axis)) :: r.over > before[i].over)
    && ((forall i | 0 <= i < |before| :: (before[i].lane, before[i].axis) != (r.lane, r.axis)) ==> r.over > 0)
  }

  lemma {:induction false} SomeLast(rows: seq<Row>, i: nat, k: Pair) returns (j: nat)
    requires i < |rows| && (rows[i].lane, rows[i].axis) == k
    ensures LastOfPair(rows, j, k)
  {
    var n := |rows| - 1;
    if (rows[n].lane, rows[n].axis) == k { j := n; } else { j := SomeLast(rows[..n], i, k); }
  }

  lemma WorseMeans(before: seq<Row>, r: Row)
    ensures Worse(before, r) <==> r.over > Over(before, (r.lane, r.axis))
  {
    hide Over;
    OverMeans(before, (r.lane, r.axis));
    if i: nat :| i < |before| && (before[i].lane, before[i].axis) == (r.lane, r.axis) {
      var j := SomeLast(before, i, (r.lane, r.axis));
    }
  }

  /** `ratchet`: the refusals are exactly the rows that got worse. */
  method Ratchet(installed: Option<seq<Lane>>, target: seq<Lane>, h: Host) returns (rows: seq<Row>, refusals: seq<Row>)
    ensures rows == Fit(target, h)
    ensures forall r :: r in refusals <==>
      r in rows && installed.Some? && r.over > Over(Fit(installed.value, h), (r.lane, r.axis))
    ensures forall r :: r in refusals <==> r in rows && installed.Some? && Worse(Fit(installed.value, h), r)
    ensures installed.Some? ==> (refusals == [] <==> Accepted(installed.value, target, h))
  {
    hide Fit;
    rows := FitRows(target, h);
    refusals := [];
    if installed.None? { return; }
    hide Over, Worse;
    var before := FitRows(installed.value, h);
    for i := 0 to |rows|
      invariant forall r :: r in refusals <==> r in rows[..i] && r.over > Over(before, (r.lane, r.axis))
    {
      assert rows[..i + 1] == rows[..i] + [rows[i]];
      if rows[i].over > Over(before, (rows[i].lane, rows[i].axis)) { refusals := refusals + [rows[i]]; }
    }
    assert rows[..|rows|] == rows;
    forall r ensures Worse(before, r) <==> r.over > Over(before, (r.lane, r.axis)) { WorseMeans(before, r); }
    if refusals != [] { assert refusals[0] in refusals; }
  }

  /**
   Over any history of accepted installs on a fixed host the overcommit of every lane and axis only
   falls, also across installs that drop a lane and bring it back; no row ever exceeds the first profile.
   */
  lemma {:induction false} RatchetOnlyTightens(profiles: seq<seq<Lane>>, h: Host, m: nat, n: nat, k: Pair)
    requires m <= n < |profiles| && forall i: nat | i + 1 < |profiles| :: Accepted(profiles[i], profiles[i + 1], h)
    ensures Over(Fit(profiles[n], h), k) <= Over(Fit(profiles[m], h), k)
    ensures m < n ==> forall r | r in Fit(profiles[n], h) && (r.lane, r.axis) == k :: r.over <= Over(Fit(profiles[m], h), k)
    decreases n - m
  {
    hide Fit;
    if m < n {
      RatchetOnlyTightens(profiles, h, m, n - 1, k);
      assert Accepted(profiles[n - 1], profiles[n - 1 + 1], h);
      OverIsARow(Fit(profiles[n], h), k);
    }
  }
}
