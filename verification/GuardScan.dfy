/**
 The scan and quarantine loop of scripts/ccache_guard.py. An entry's relative path is the `Item` the
 rotating walk delivers: its unit and its name below that unit.
 */
module GuardScan {
  import opened Basics
  import opened GuardRotation
  import opened GuardCursor

  type Path = Item

  /** What `ccache --inspect` tells about a manifest. */
  datatype Info = Info(includes: nat, results: seq<string>)

  /** `header` says that the file begins like a manifest; `info` is None when it cannot be inspected. */
  datatype File = File(size: nat, mtime: int, header: bool, info: Option<Info>)

  type Stamp = (nat, int)

  function StampOf(f: File): Stamp { (f.size, f.mtime) }

  datatype ResultVerdict = Consistent | HasHeaders | Missing | Unverifiable

  /** What the host answers during one run: result files by root and key, and renames that succeed. */
  datatype World = World(result: (nat, string) -> ResultVerdict, movable: Path -> bool)

  datatype Mode = Mode(allZero: bool, sizeCap: nat)

  // ----------------------------------------------------------------------- one entry's fate

  predicate ZeroInclude(f: File) { f.header && f.info.Some? && f.info.value.includes == 0 }

  /** A zero-include manifest whose results all confirm that nothing was included. */
  predicate Proven(w: World, p: Path, f: File) {
    && ZeroInclude(f) && f.info.value.results != []
    && forall key | key in f.info.value.results :: w.result(p.unit.root, key) == Consistent
  }

  /** What the guard quarantines when it remembers nothing. */
  predicate Condemned(w: World, m: Mode, p: Path, f: File) {
    f.size <= m.sizeCap && ZeroInclude(f) && (m.allZero || !Proven(w, p, f))
  }

  /** The verdict cache answers for this entry. */
  predicate Hit(m: Mode, verdicts: map<Path, Stamp>, p: Path, f: File) {
    !m.allZero && f.size <= m.sizeCap && p in verdicts && verdicts[p] == StampOf(f)
  }

  predicate Flagged(w: World, m: Mode, verdicts: map<Path, Stamp>, p: Path, f: File) {
    !Hit(m, verdicts, p, f) && Condemned(w, m, p, f)
  }

  /** Entries the run remembers as consistent. */
  predicate Kept(w: World, m: Mode, verdicts: map<Path, Stamp>, p: Path, f: File) {
    Hit(m, verdicts, p, f) || (!m.allZero && f.size <= m.sizeCap && Proven(w, p, f))
  }

  function Seen(w: World, m: Mode, verdicts: map<Path, Stamp>, cache: map<Path, File>, walk: seq<Path>): map<Path, Stamp> {
    map p | p in walk && p in cache && Kept(w, m, verdicts, p, cache[p]) :: StampOf(cache[p])
  }

  function AllFlagged(w: World, m: Mode, verdicts: map<Path, Stamp>, cache: map<Path, File>, walk: seq<Path>): (ps: set<Path>)
    ensures ps <= cache.Keys
  {
    set p | p in walk && p in cache && Flagged(w, m, verdicts, p, cache[p])
  }

  function Movable(w: World, ps: set<Path>): (ms: set<Path>)
    ensures ms <= ps
  {
    set p | p in ps && w.movable(p)
  }

  // --------------------------------------------------------------------------------- moving

  function Minus(cache: map<Path, File>, moved: set<Path>): map<Path, File> {
    map p | p in cache && p !in moved :: cache[p]
  }

  function Plus(quarantine: map<(string, Path), File>, batch: string, cache: map<Path, File>, moved: set<Path>):
    map<(string, Path), File>
    requires moved <= cache.Keys
  {
    quarantine + map p | p in moved :: (batch, p) := cache[p]
  }

  datatype Counts = Counts(
    entries: nat, checked: nat, zeroInclude: nat, consistent: nat, suspect: nat, cached: nat,
    flagged: nat, quarantined: nat, errors: nat, uninspectable: nat)

  /** Every zero-include manifest is consistent or suspect, and every flagged one is accounted for. */
  predicate Balanced(c: Counts, m: Mode, quarantining: bool) {
    && c.zeroInclude == c.consistent + c.suspect
    && c.flagged == (if m.allZero then c.zeroInclude else c.suspect)
    && (if quarantining then c.flagged == c.quarantined + c.errors else c.quarantined == 0 && c.errors == 0)
    && c.cached <= c.consistent && c.checked >= c.uninspectable + c.flagged
    && c.entries >= c.checked + c.cached
  }

  /** The entries a run has moved after the first entries of its walk. */
  function Moved(w: World, batch: Option<string>, flagged: set<Path>): (ms: set<Path>)
    ensures ms <= flagged
  {
    if batch.Some? then Movable(w, flagged) else {}
  }

  function Shelved(quarantine: map<(string, Path), File>, batch: Option<string>, cache: map<Path, File>, moved: set<Path>):
    map<(string, Path), File>
    requires moved <= cache.Keys
  {
    if batch.Some? then Plus(quarantine, batch.value, cache, moved) else quarantine
  }

  /** What one entry adds to the counters. */
  datatype Tally = Tally(checked: nat, consistent: nat, suspect: nat, cached: nat, uninspectable: nat)

  function Bit(b: bool): nat { if b then 1 else 0 }

  /** A hit counts as consistent without a look; everything else that begins like a manifest is checked. */
  function TallyOf(w: World, m: Mode, known: map<Path, Stamp>, p: Path, f: File): Tally {
    var hit := Hit(m, known, p, f);
    var looked := !hit && f.size <= m.sizeCap && f.header;
    Tally(Bit(looked), Bit(hit || (looked && Proven(w, p, f))), Bit(looked && ZeroInclude(f) && !Proven(w, p, f)),
          Bit(hit), Bit(looked && f.info.None?))
  }

  function Sum(a: Tally, b: Tally): Tally {
    Tally(a.checked + b.checked, a.consistent + b.consistent, a.suspect + b.suspect, a.cached + b.cached,
          a.uninspectable + b.uninspectable)
  }

  const NOTHING: Tally := Tally(0, 0, 0, 0, 0)

  function TallyAt(w: World, m: Mode, known: map<Path, Stamp>, cache: map<Path, File>, p: Path): Tally {
    if p in cache then TallyOf(w, m, known, p, cache[p]) else NOTHING
  }

  function TallyAll(w: World, m: Mode, known: map<Path, Stamp>, cache: map<Path, File>, walk: seq<Path>): Tally {
    if walk == [] then NOTHING
    else Sum(TallyAll(w, m, known, cache, walk[..|walk| - 1]), TallyAt(w, m, known, cache, walk[|walk| - 1]))
  }

  function Tallied(c: Counts): Tally { Tally(c.checked, c.consistent, c.suspect, c.cached, c.uninspectable) }

  lemma TallySnoc(w: World, m: Mode, known: map<Path, Stamp>, cache: map<Path, File>, walk: seq<Path>, p: Path)
    ensures TallyAll(w, m, known, cache, walk + [p]) == Sum(TallyAll(w, m, known, cache, walk), TallyAt(w, m, known, cache, p))
  {
    assert (walk + [p])[..|walk|] == walk;
  }

  /** The branches of the `run_scan` loop that only look. */
  method Inspect(w: World, m: Mode, known: map<Path, Stamp>, p: Path, f: File) returns (t: Tally, kept: bool, flagged: bool)
    ensures t == TallyOf(w, m, known, p, f)
    ensures kept == Kept(w, m, known, p, f) && flagged == Flagged(w, m, known, p, f)
    ensures flagged <==> t.suspect == 1 || (m.allZero && t.consistent == 1)
    ensures t.consistent + t.suspect <= 1 && t.cached <= t.consistent && t.checked + t.cached <= 1
    ensures t.checked >= t.uninspectable + Bit(flagged)
  {
    t, kept, flagged := NOTHING, false, false;
    if f.size > m.sizeCap { return; }
    if !m.allZero && p in known && known[p] == StampOf(f) {
      t, kept := Tally(0, 1, 0, 1, 0), true;
      return;
    }
    if !f.header { return; }
    t := t.(checked := 1);
    if f.info.None? {
      t := t.(uninspectable := 1);
      return;
    }
    if f.info.value.includes > 0 { return; }
    var proven := f.info.value.results != [] && forall key | key in f.info.value.results :: w.result(p.unit.root, key) == Consistent;
    t := if proven then t.(consistent := 1) else t.(suspect := 1);
    kept, flagged := proven && !m.allZero, !proven || m.allZero;
  }

  lemma OneMore(w: World, m: Mode, verdicts: map<Path, Stamp>, cache: map<Path, File>, walk: seq<Path>, p: Path)
    ensures Seen(w, m, verdicts, cache, walk + [p]) ==
      if p in cache && Kept(w, m, verdicts, p, cache[p]) then Seen(w, m, verdicts, cache, walk)[p := StampOf(cache[p])]
      else Seen(w, m, verdicts, cache, walk)
    ensures AllFlagged(w, m, verdicts, cache, walk + [p]) ==
      if p in cache && Flagged(w, m, verdicts, p, cache[p]) then AllFlagged(w, m, verdicts, cache, walk) + {p}
      else AllFlagged(w, m, verdicts, cache, walk)
  {
    hide Kept, Flagged;
    assert forall q :: q in walk + [p] <==> q in walk || q == p;
  }

  /** What a run has done once it has processed `walk`, from the cache and quarantine it began with. */
  ghost predicate Reached(w: World, m: Mode, known: map<Path, Stamp>, batch: Option<string>, walk: seq<Path>,
                          cache0: map<Path, File>, quarantine0: map<(string, Path), File>,
                          cache: map<Path, File>, quarantine: map<(string, Path), File>,
                          rows: seq<Path>, seen: map<Path, Stamp>, quarantined: nat) {
    var flagged := AllFlagged(w, m, known, cache0, walk);
    var moved := Moved(w, batch, flagged);
    && (forall p :: p in rows <==> p in flagged) && quarantined == |moved|
    && cache == Minus(cache0, moved) && quarantine == Shelved(quarantine0, batch, cache0, moved)
    && seen == Seen(w, m, known, cache0, walk)
  }

  lemma NothingReached(w: World, m: Mode, known: map<Path, Stamp>, batch: Option<string>,
                       cache: map<Path, File>, quarantine: map<(string, Path), File>)
    ensures Reached(w, m, known, batch, [], cache, quarantine, cache, quarantine, [], map[], 0)
    ensures Balanced(Counts(0, 0, 0, 0, 0, 0, 0, 0, 0, 0), m, batch.Some?)
  {
    assert AllFlagged(w, m, known, cache, []) == {};
    assert Minus(cache, {}) == cache;
    assert Seen(w, m, known, cache, []) == map[];
  }

  /** An entry that is kept or passed over leaves everything where it is. */
  lemma ReachedSkip(w: World, m: Mode, known: map<Path, Stamp>, batch: Option<string>, walk: seq<Path>,
                    cache0: map<Path, File>, quarantine0: map<(string, Path), File>,
                    cache: map<Path, File>, quarantine: map<(string, Path), File>,
                    rows: seq<Path>, seen: map<Path, Stamp>, n: nat, p: Path)
    requires Reached(w, m, known, batch, walk, cache0, quarantine0, cache, quarantine, rows, seen, n)
    requires p in cache ==> !Flagged(w, m, known, p, cache[p])
    ensures var seen' := if p in cache && Kept(w, m, known, p, cache[p]) then seen[p := StampOf(cache[p])] else seen;
            Reached(w, m, known, batch, walk + [p], cache0, quarantine0, cache, quarantine, rows, seen', n)
  {
    hide Seen, AllFlagged, Shelved, Hit, Condemned, Proven;
    OneMore(w, m, known, cache0, walk, p);
    var flagged := AllFlagged(w, m, known, cache0, walk);
    if p in cache0 && p !in cache {
      assert p in flagged;
      InFlagged(w, m, known, cache0, walk, p);
      NotBoth(w, m, known, p, cache0[p]);
      assert flagged + {p} == flagged;
    }
  }

  lemma ReachedSeen(w: World, m: Mode, known: map<Path, Stamp>, batch: Option<string>, walk: seq<Path>,
                    cache0: map<Path, File>, quarantine0: map<(string, Path), File>,
                    cache: map<Path, File>, quarantine: map<(string, Path), File>,
                    rows: seq<Path>, seen: map<Path, Stamp>, n: nat)
    requires Reached(w, m, known, batch, walk, cache0, quarantine0, cache, quarantine, rows, seen, n)
    ensures seen == Seen(w, m, known, cache0, walk)
    ensures batch.Some? ==> forall p | p in cache && (batch.value, p) !in quarantine0 :: (batch.value, p) !in quarantine
  {
    hide Seen, AllFlagged;
  }

  lemma NothingTallied(w: World, m: Mode, known: map<Path, Stamp>, cache: map<Path, File>)
    ensures TallyAll(w, m, known, cache, []) == NOTHING
  {
  }

  /** An entry the walk has not come to is as it was. */
  lemma StillThere(w: World, m: Mode, known: map<Path, Stamp>, batch: Option<string>, walk: seq<Path>,
                   cache0: map<Path, File>, quarantine0: map<(string, Path), File>,
                   cache: map<Path, File>, quarantine: map<(string, Path), File>,
                   rows: seq<Path>, seen: map<Path, Stamp>, n: nat, p: Path)
    requires Reached(w, m, known, batch, walk, cache0, quarantine0, cache, quarantine, rows, seen, n) && p !in walk
    ensures TallyAt(w, m, known, cache, p) == TallyAt(w, m, known, cache0, p)
  {
    hide Seen, Shelved, Flagged, TallyOf;
    assert p !in AllFlagged(w, m, known, cache0, walk);
  }

  lemma InFlagged(w: World, m: Mode, known: map<Path, Stamp>, cache: map<Path, File>, walk: seq<Path>, p: Path)
    requires p in AllFlagged(w, m, known, cache, walk)
    ensures p in cache && Flagged(w, m, known, p, cache[p])
  {
  }

  lemma NotBoth(w: World, m: Mode, known: map<Path, Stamp>, p: Path, f: File)
    requires Flagged(w, m, known, p, f)
    ensures !Kept(w, m, known, p, f)
  {
  }

  lemma PlusOneMore(quarantine: map<(string, Path), File>, batch: string, cache: map<Path, File>, moved: set<Path>, p: Path)
    requires moved <= cache.Keys && p in cache
    ensures Plus(quarantine, batch, cache, moved + {p}) == Plus(quarantine, batch, cache, moved)[(batch, p) := cache[p]]
  {
    var now, more := map q | q in moved :: (batch, q) := cache[q], map q | q in moved + {p} :: (batch, q) := cache[q];
    assert more == now[(batch, p) := cache[p]];
  }

  lemma MinusOneMore(cache: map<Path, File>, moved: set<Path>, p: Path)
    ensures Minus(cache, moved + {p}) == Minus(Minus(cache, moved), {p})
  {
  }

  lemma MoveOneMore(w: World, batch: Option<string>, cache: map<Path, File>, quarantine: map<(string, Path), File>,
                    flagged: set<Path>, p: Path)
    requires flagged <= cache.Keys && p in cache && p !in Moved(w, batch, flagged)
    ensures batch.Some? && w.movable(p) ==>
      && |Moved(w, batch, flagged + {p})| == |Moved(w, batch, flagged)| + 1
      && Minus(cache, Moved(w, batch, flagged + {p})) == Minus(Minus(cache, Moved(w, batch, flagged)), {p})
      && Shelved(quarantine, batch, cache, Moved(w, batch, flagged + {p}))
         == Shelved(quarantine, batch, cache, Moved(w, batch, flagged))[(batch.value, p) := cache[p]]
    ensures !(batch.Some? && w.movable(p)) ==> Moved(w, batch, flagged + {p}) == Moved(w, batch, flagged)
  {
    hide Plus, Minus;
    if batch.Some? && w.movable(p) {
      var moved := Moved(w, batch, flagged);
      assert Moved(w, batch, flagged + {p}) == moved + {p};
      MinusOneMore(cache, moved, p);
      PlusOneMore(quarantine, batch.value, cache, moved, p);
    } else {
      assert Moved(w, batch, flagged + {p}) == Moved(w, batch, flagged);
    }
  }

  /** A flagged entry is moved when the run quarantines and the rename succeeds. */
  lemma ReachedFlag(w: World, m: Mode, known: map<Path, Stamp>, batch: Option<string>, walk: seq<Path>,
                    cache0: map<Path, File>, quarantine0: map<(string, Path), File>,
                    cache: map<Path, File>, quarantine: map<(string, Path), File>,
                    rows: seq<Path>, seen: map<Path, Stamp>, n: nat, p: Path)
    requires Reached(w, m, known, batch, walk, cache0, quarantine0, cache, quarantine, rows, seen, n)
    requires p in cache && Flagged(w, m, known, p, cache[p])
    ensures batch.Some? && w.movable(p) ==>
      Reached(w, m, known, batch, walk + [p], cache0, quarantine0, Minus(cache, {p}),
              quarantine[(batch.value, p) := cache[p]], rows + [p], seen, n + 1)
    ensures !(batch.Some? && w.movable(p)) ==>
      Reached(w, m, known, batch, walk + [p], cache0, quarantine0, cache, quarantine, rows + [p], seen, n)
  {
    hide Seen, AllFlagged, Flagged, Kept, Moved, Shelved;
    OneMore(w, m, known, cache0, walk, p);
    NotBoth(w, m, known, p, cache[p]);
    assert forall q :: q in rows + [p] <==> q in rows || q == p;
    MoveOneMore(w, batch, cache0, quarantine0, AllFlagged(w, m, known, cache0, walk), p);
  }

  // ------------------------------------------------------------------- the evidence behind a fate

  /** What the run leaves of an entry it reached, and what it remembers of one, in terms of the files alone. */
  lemma FatesMean(w: World, m: Mode, known: map<Path, Stamp>, batch: Option<string>, walk: seq<Path>,
                  cache0: map<Path, File>, quarantine0: map<(string, Path), File>,
                  cache: map<Path, File>, quarantine: map<(string, Path), File>,
                  rows: seq<Path>, seen: map<Path, Stamp>, n: nat)
    requires Reached(w, m, known, batch, walk, cache0, quarantine0, cache, quarantine, rows, seen, n)
    ensures forall p | p in walk && p in cache0 :: var f := cache0[p];
      p !in cache <==>
        && batch.Some? && w.movable(p) && f.size <= m.sizeCap && f.header && f.info.Some? && f.info.value.includes == 0
        && (m.allZero || !(p in known && known[p] == (f.size, f.mtime)))
        && (m.allZero || |f.info.value.results| == 0
            || exists key :: key in f.info.value.results && w.result(p.unit.root, key) != Consistent)
    ensures forall p | p in seen :: p in walk && p in cache0 && var f := cache0[p];
      && seen[p] == (f.size, f.mtime) && !m.allZero && f.size <= m.sizeCap
      && ((p in known && known[p] == (f.size, f.mtime))
          || (f.header && f.info.Some? && f.info.value.includes == 0 && |f.info.value.results| > 0
              && forall key | key in f.info.value.results :: w.result(p.unit.root, key) == Consistent))
  {
  }

  /** How many entries of the walk have the property, each counted once. */
  function Number(walk: seq<Path>, has: Path -> bool): nat { |set p | p in walk && has(p)| }

  lemma NumberSnoc(walk: seq<Path>, p: Path, has: Path -> bool)
    requires p !in walk
    ensures Number(walk + [p], has) == Number(walk, has) + Bit(has(p))
  {
    assert forall q :: q in walk + [p] <==> q in walk || q == p;
    assert (set q | q in walk + [p] && has(q)) == (set q | q in walk && has(q)) + if has(p) then {p} else {};
  }

  /** Remembered with the size and time it has now; a run that quarantines everything remembers nothing. */
  function Remembers(m: Mode, known: map<Path, Stamp>, cache: map<Path, File>): Path -> bool {
    p => p in cache && cache[p].size <= m.sizeCap && !m.allZero && p in known && known[p] == (cache[p].size, cache[p].mtime)
  }

  /** Not remembered, not too large, and with the header of a manifest. */
  function LooksInto(m: Mode, known: map<Path, Stamp>, cache: map<Path, File>): Path -> bool {
    p => p in cache && cache[p].size <= m.sizeCap && cache[p].header
         && (m.allZero || !(p in known && known[p] == (cache[p].size, cache[p].mtime)))
  }

  /** A file that cannot be inspected, or one without an include. */
  function Opaque(cache: map<Path, File>): Path -> bool { p => p in cache && cache[p].info.None? }

  function Includeless(cache: map<Path, File>): Path -> bool {
    p => p in cache && cache[p].info.Some? && cache[p].info.value.includes == 0
  }

  /** At least one result is listed, and each that is confirms that nothing was included. */
  function Confirmed(w: World, cache: map<Path, File>): Path -> bool {
    p => p in cache && cache[p].info.Some? && |cache[p].info.value.results| > 0
         && forall key | key in cache[p].info.value.results :: w.result(p.unit.root, key) == Consistent
  }

  function Both(a: Path -> bool, b: Path -> bool): Path -> bool { p => a(p) && b(p) }

  function Not(a: Path -> bool): Path -> bool { p => !a(p) }

  /** The counters of a walk that lists each entry once, as numbers of entries. */
  lemma {:induction false} TallyCounts(w: World, m: Mode, known: map<Path, Stamp>, cache: map<Path, File>, walk: seq<Path>)
    requires Distinct(walk)
    ensures var t, looks, zero := TallyAll(w, m, known, cache, walk), LooksInto(m, known, cache), Includeless(cache);
            && t.checked == Number(walk, looks) && t.uninspectable == Number(walk, Both(looks, Opaque(cache)))
            && t.cached == Number(walk, Remembers(m, known, cache))
            && t.consistent == Number(walk, Remembers(m, known, cache)) + Number(walk, Both(Both(looks, zero), Confirmed(w, cache)))
            && t.suspect == Number(walk, Both(Both(looks, zero), Not(Confirmed(w, cache))))
  {
    hide Number, LooksInto, Includeless, Opaque, Remembers, Confirmed, Both, Not, TallyAt;
    var looks, zero := LooksInto(m, known, cache), Includeless(cache);
    if walk == [] {
      NoneOf(looks); NoneOf(Both(looks, Opaque(cache))); NoneOf(Remembers(m, known, cache));
      NoneOf(Both(Both(looks, zero), Confirmed(w, cache))); NoneOf(Both(Both(looks, zero), Not(Confirmed(w, cache))));
    } else {
      var n := |walk| - 1;
      var p := walk[n];
      assert walk == walk[..n] + [p];
      TallyCounts(w, m, known, cache, walk[..n]);
      TallyOfOne(w, m, known, cache, p);
      NumberSnoc(walk[..n], p, looks);
      NumberSnoc(walk[..n], p, Both(looks, Opaque(cache)));
      NumberSnoc(walk[..n], p, Remembers(m, known, cache));
      NumberSnoc(walk[..n], p, Both(Both(looks, zero), Confirmed(w, cache)));
      NumberSnoc(walk[..n], p, Both(Both(looks, zero), Not(Confirmed(w, cache))));
    }
  }

  lemma NoneOf(has: Path -> bool)
    ensures Number([], has) == 0
  {
  }

  lemma TallyOfOne(w: World, m: Mode, known: map<Path, Stamp>, cache: map<Path, File>, p: Path)
    ensures var t, looks, zero := TallyAt(w, m, known, cache, p), LooksInto(m, known, cache), Includeless(cache);
            && t.checked == Bit(looks(p)) && t.uninspectable == Bit(Both(looks, Opaque(cache))(p))
            && t.cached == Bit(Remembers(m, known, cache)(p))
            && t.consistent == t.cached + Bit(Both(Both(looks, zero), Confirmed(w, cache))(p))
            && t.suspect == Bit(Both(Both(looks, zero), Not(Confirmed(w, cache)))(p))
  {
  }

  // --------------------------------------------------------------------------- conservation

  /**
   From cache c0 and quarantine q0 to c and q: every entry of the cache is still there or in
   quarantine, in exactly one batch and at its own path; nothing else came, and nothing else left.
   */
  ghost predicate Conserved(c0: map<Path, File>, q0: map<(string, Path), File>, c: map<Path, File>, q: map<(string, Path), File>) {
    && (forall p | p in c :: p in c0 && c[p] == c0[p])
    && (forall b, p | (b, p) in q0 :: (b, p) in q && q[(b, p)] == q0[(b, p)])
    && (forall b, p | Added(q0, q, b, p) :: p in c0 && p !in c && q[(b, p)] == c0[p])
    && (forall p | p in c0 && p !in c :: exists b :: Added(q0, q, b, p))
    && (forall a, b, p | Added(q0, q, a, p) && Added(q0, q, b, p) :: a == b)
  }

  predicate Added(q0: map<(string, Path), File>, q: map<(string, Path), File>, b: string, p: Path) {
    (b, p) in q && (b, p) !in q0
  }

  lemma ConservedRefl(c: map<Path, File>, q: map<(string, Path), File>)
    ensures Conserved(c, q, c, q)
  {
  }

  lemma ConservedMove(c: map<Path, File>, q: map<(string, Path), File>, b: string, p: Path)
    requires p in c && (b, p) !in q
    ensures Conserved(c, q, Minus(c, {p}), q[(b, p) := c[p]])
  {
    assert Added(q, q[(b, p) := c[p]], b, p);
  }

  lemma ConservedTrans(c0: map<Path, File>, q0: map<(string, Path), File>, c1: map<Path, File>, q1: map<(string, Path), File>,
                       c2: map<Path, File>, q2: map<(string, Path), File>)
    requires Conserved(c0, q0, c1, q1) && Conserved(c1, q1, c2, q2)
    ensures Conserved(c0, q0, c2, q2)
  {
    forall b, p ensures Added(q0, q2, b, p) <==> Added(q0, q1, b, p) || Added(q1, q2, b, p) { }
    forall p | p in c0 && p !in c2 ensures exists b :: Added(q0, q2, b, p) {
      if p in c1 {
        var b :| Added(q1, q2, b, p);
        assert Added(q0, q2, b, p);
      } else {
        var b :| Added(q0, q1, b, p);
        assert Added(q0, q2, b, p);
      }
    }
  }

  lemma PlusAdds(q: map<(string, Path), File>, batch: string, c: map<Path, File>, moved: set<Path>)
    requires moved <= c.Keys
    ensures forall b, p :: (b, p) in Plus(q, batch, c, moved) <==> (b, p) in q || (b == batch && p in moved)
    ensures forall p | p in moved :: Plus(q, batch, c, moved)[(batch, p)] == c[p]
    ensures forall b, p | (b, p) in q && !(b == batch && p in moved) :: Plus(q, batch, c, moved)[(b, p)] == q[(b, p)]
  {
  }

  lemma ConservedBatch(c: map<Path, File>, q: map<(string, Path), File>, batch: string, moved: set<Path>)
    requires moved <= c.Keys && forall p :: (batch, p) !in q
    ensures Conserved(c, q, Minus(c, moved), Plus(q, batch, c, moved))
  {
    hide Plus;
    PlusAdds(q, batch, c, moved);
    var q' := Plus(q, batch, c, moved);
    forall b, p ensures Added(q, q', b, p) <==> b == batch && p in moved { }
    forall p | p in c && p !in Minus(c, moved) ensures exists b :: Added(q, q', b, p) {
      assert Added(q, q', batch, p);
    }
  }

  lemma MinusSize(c: map<Path, File>, moved: set<Path>)
    requires moved <= c.Keys
    ensures |Minus(c, moved)| == |c| - |moved|
  {
    assert Minus(c, moved).Keys == c.Keys - moved;
    assert |c| == |c.Keys| && |Minus(c, moved)| == |Minus(c, moved).Keys|;
  }

  lemma ReachedConserves(w: World, m: Mode, known: map<Path, Stamp>, batch: Option<string>, walk: seq<Path>,
                         cache0: map<Path, File>, quarantine0: map<(string, Path), File>,
                         cache: map<Path, File>, quarantine: map<(string, Path), File>, rows: seq<Path>, n: nat)
    requires Reached(w, m, known, batch, walk, cache0, quarantine0, cache, quarantine, rows, Seen(w, m, known, cache0, walk), n)
    requires batch.Some? ==> forall p :: (batch.value, p) !in quarantine0
    ensures Conserved(cache0, quarantine0, cache, quarantine)
    ensures forall p :: p in rows <==> p in AllFlagged(w, m, known, cache0, walk)
    ensures n == |cache0| - |cache| && (batch.None? ==> cache == cache0 && quarantine == quarantine0)
    ensures cache == Minus(cache0, Moved(w, batch, AllFlagged(w, m, known, cache0, walk)))
    ensures batch.Some? ==> OnlyInto(quarantine0, quarantine, batch.value) && forall p :: (batch.value + "/reset", p) in quarantine ==> (batch.value + "/reset", p) in quarantine0
  {
    hide Seen, AllFlagged, Movable, Minus, Plus, Conserved;
    var moved := Moved(w, batch, AllFlagged(w, m, known, cache0, walk));
    MinusSize(cache0, moved);
    if batch.Some? {
      ConservedBatch(cache0, quarantine0, batch.value, moved);
      PlusAdds(quarantine0, batch.value, cache0, moved);
      assert |batch.value + "/reset"| > |batch.value|;
    } else {
      MinusNothing(cache0);
      ConservedRefl(cache0, quarantine0);
    }
  }

  lemma MinusNothing(c: map<Path, File>)
    ensures Minus(c, {}) == c
  {
  }

  // ------------------------------------------------------------------------------- commands

  datatype Command = ScanOnly | Quarantine | Reset(everything: bool)

  /** One invocation of the guard, and what it meets. */
  datatype Job = Job(w: World, command: Command, plan: bool, allZero: bool, sizeCap: nat, units: seq<Unit>, rels: seq<string>,
                     run: Run, batch: string, remaining: seq<Path>)

  /** No entry lies in this batch directory. */
  ghost predicate Unused(q: map<(string, Path), File>, batch: string) {
    forall p :: (batch, p) !in q && (batch + "/reset", p) !in q
  }

  predicate OfBatch(b: string, batch: string) { b == batch || b == batch + "/reset" }

  /** Whatever was added went into this batch. */
  ghost predicate OnlyInto(q0: map<(string, Path), File>, q: map<(string, Path), File>, batch: string) {
    forall b, p | Added(q0, q, b, p) :: OfBatch(b, batch)
  }

  lemma StillUnused(q0: map<(string, Path), File>, q: map<(string, Path), File>, batch: string, other: string)
    requires OnlyInto(q0, q, batch) && Unused(q0, other) && !OfBatch(other, batch) && !OfBatch(other + "/reset", batch)
    ensures Unused(q, other)
  {
    forall p ensures (other, p) !in q && (other + "/reset", p) !in q {
      assert !Added(q0, q, other, p) && !Added(q0, q, other + "/reset", p);
    }
  }

  lemma OnlyIntoTrans(q0: map<(string, Path), File>, q1: map<(string, Path), File>, q2: map<(string, Path), File>, batch: string)
    requires OnlyInto(q0, q1, batch) && OnlyInto(q1, q2, batch)
    ensures OnlyInto(q0, q2, batch)
  {
    forall b, p | Added(q0, q2, b, p) ensures OfBatch(b, batch) { assert Added(q0, q1, b, p) || Added(q1, q2, b, p); }
  }

  lemma NothingInto(q: map<(string, Path), File>, batch: string)
    ensures OnlyInto(q, q, batch)
  {
  }

  lemma OneInto(q: map<(string, Path), File>, batch: string, p: Path, f: File)
    ensures OnlyInto(q, q[(batch + "/reset", p) := f], batch)
  {
  }

  /** The batch names of two commands do not meet, not even in their reset directories. */
  predicate ApartBatches(a: string, b: string) { !OfBatch(b, a) && !OfBatch(b + "/reset", a) }

  /** A complete run replaces the verdict cache, a cut one adds to it. */
  function Learned(w: World, m: Mode, known: map<Path, Stamp>, cache: map<Path, File>, order: seq<Unit>, run: Run): map<Path, Stamp> {
    var seen := Seen(w, m, known, cache, Done(order, run));
    if WasCut(order, run) then known + seen else seen
  }

  class Guard {
    var cache: map<Path, File>
    var quarantine: map<(string, Path), File>
    var verdicts: map<Path, Stamp>
    var cursor: Option<Cursor>

    constructor (cache: map<Path, File>)
      ensures this.cache == cache && quarantine == map[] && verdicts == map[] && cursor == None
    {
      this.cache, quarantine, verdicts, cursor := cache, map[], map[], None;
    }

    /** `move_into`: a rename to the same relative path below a fresh batch directory. */
    method MoveInto(w: World, p: Path, batch: string) returns (ok: bool)
      requires p in cache && (batch, p) !in quarantine
      modifies this`cache, this`quarantine
      ensures ok == w.movable(p)
      ensures ok ==> cache == Minus(old(cache), {p}) && quarantine == old(quarantine)[(batch, p) := old(cache)[p]]
      ensures !ok ==> cache == old(cache) && quarantine == old(quarantine)
    {
      ok := w.movable(p);
      if ok {
        quarantine := quarantine[(batch, p) := cache[p]];
        cache := map q | q in cache && q !in {p} :: cache[q];
      }
    }

    /** One turn of the `run_scan` loop. */
    method ScanEntry(w: World, m: Mode, known: map<Path, Stamp>, batch: Option<string>, p: Path, before: Counts)
      returns (c: Counts, kept: bool, flagged: bool)
      requires Balanced(before, m, batch.Some?) && (batch.Some? && p in cache ==> (batch.value, p) !in quarantine)
      modifies this`cache, this`quarantine
      ensures Balanced(c, m, batch.Some?) && c.entries == before.entries + 1
      ensures Tallied(c) == Sum(Tallied(before), TallyAt(w, m, known, old(cache), p))
      ensures kept <==> p in old(cache) && Kept(w, m, known, p, old(cache)[p])
      ensures flagged <==> p in old(cache) && Flagged(w, m, known, p, old(cache)[p])
      ensures c.flagged == before.flagged + if flagged then 1 else 0
      ensures flagged && batch.Some? && w.movable(p) ==>
        && cache == Minus(old(cache), {p}) && quarantine == old(quarantine)[(batch.value, p) := old(cache)[p]]
        && c.quarantined == before.quarantined + 1
      ensures !(flagged && batch.Some? && w.movable(p)) ==>
        cache == old(cache) && quarantine == old(quarantine) && c.quarantined == before.quarantined
    {
      hide Kept, Flagged, TallyOf, Minus;
      c, kept, flagged := before.(entries := before.entries + 1), false, false;
      if p !in cache { return; }
      var t;
      t, kept, flagged := Inspect(w, m, known, p, cache[p]);
      c := c.(checked := c.checked + t.checked, zeroInclude := c.zeroInclude + t.consistent + t.suspect,
              consistent := c.consistent + t.consistent, suspect := c.suspect + t.suspect,
              cached := c.cached + t.cached, uninspectable := c.uninspectable + t.uninspectable);
      if !flagged { return; }
      c := c.(flagged := c.flagged + 1);
      if batch.Some? {
        var ok := MoveInto(w, p, batch.value);
        c := if ok then c.(quarantined := c.quarantined + 1) else c.(errors := c.errors + 1);
      }
    }

    /**
     `run_scan` over the walk, up to the entry before which the deadline passed. It flags and moves
     exactly the condemned entries it reached, each to its own relative path, and moves nothing else.
     The counters are the sums over the entries, for a walk that lists each entry once.
     */
    method RunScan(w: World, m: Mode, known: map<Path, Stamp>, batch: Option<string>, walk: seq<Path>, cut: Option<nat>)
      returns (c: Counts, rows: seq<Path>, learned: map<Path, Stamp>, exhausted: bool, done: nat)
      requires batch.Some? ==> forall p :: (batch.value, p) !in quarantine
      modifies this`cache, this`quarantine
      ensures exhausted <==> cut.Some? && cut.value < |walk|
      ensures done == if exhausted then cut.value else |walk|
      ensures Balanced(c, m, batch.Some?) && c.entries == done && c.flagged == |rows|
      ensures Distinct(walk) ==> Tallied(c) == TallyAll(w, m, known, old(cache), walk[..done])
      ensures var seen := Seen(w, m, known, old(cache), walk[..done]);
              && learned == (if exhausted then known + seen else seen)
              && Reached(w, m, known, batch, walk[..done], old(cache), old(quarantine), cache, quarantine, rows, seen, c.quarantined)
      ensures forall p | p in walk[..done] && p in old(cache) :: var f := old(cache)[p];
        p !in cache <==>
          && batch.Some? && w.movable(p) && f.size <= m.sizeCap && f.header && f.info.Some? && f.info.value.includes == 0
          && (m.allZero || !(p in known && known[p] == (f.size, f.mtime)))
          && (m.allZero || |f.info.value.results| == 0
              || exists key :: key in f.info.value.results && w.result(p.unit.root, key) != Consistent)
      ensures forall p | p in learned && !(p in known && learned[p] == known[p]) ::
        p in walk[..done] && p in old(cache) && var f := old(cache)[p];
        && learned[p] == (f.size, f.mtime) && !m.allZero && f.size <= m.sizeCap
        && f.header && f.info.Some? && f.info.value.includes == 0 && |f.info.value.results| > 0
        && forall key | key in f.info.value.results :: w.result(p.unit.root, key) == Consistent
    {
      hide Balanced, Reached, Flagged, Kept, TallyAll, TallyAt;
      ghost var cache0, quarantine0 := cache, quarantine;
      c, rows, exhausted, done := Counts(0, 0, 0, 0, 0, 0, 0, 0, 0, 0), [], false, 0;
      var seen: map<Path, Stamp> := map[];
      NothingReached(w, m, known, batch, cache, quarantine);
      NothingTallied(w, m, known, cache);
      while done < |walk|
        invariant done <= |walk| && (cut.Some? && cut.value < |walk| ==> done <= cut.value)
        invariant Balanced(c, m, batch.Some?) && c.entries == done && c.flagged == |rows|
        invariant Distinct(walk) ==> Tallied(c) == TallyAll(w, m, known, cache0, walk[..done])
        invariant Reached(w, m, known, batch, walk[..done], cache0, quarantine0, cache, quarantine, rows, seen, c.quarantined)
        decreases |walk| - done
      {
        if cut == Some(done) {
          exhausted := true;
          break;
        }
        ghost var cache1, quarantine1, n := cache, quarantine, c.quarantined;
        assert walk[..done + 1] == walk[..done] + [walk[done]];
        var p := walk[done];
        ReachedSeen(w, m, known, batch, walk[..done], cache0, quarantine0, cache, quarantine, rows, seen, n);
        TallySnoc(w, m, known, cache0, walk[..done], p);
        if Distinct(walk) {
          StillThere(w, m, known, batch, walk[..done], cache0, quarantine0, cache, quarantine, rows, seen, n, p);
        }
        var stamp := if p in cache then Some(StampOf(cache[p])) else None;
        var kept, flagged;
        c, kept, flagged := ScanEntry(w, m, known, batch, p, c);
        if flagged {
          ReachedFlag(w, m, known, batch, walk[..done], cache0, quarantine0, cache1, quarantine1, rows, seen, n, p);
          rows := rows + [p];
        } else {
          ReachedSkip(w, m, known, batch, walk[..done], cache0, quarantine0, cache1, quarantine1, rows, seen, n, p);
          if kept { seen := seen[p := stamp.value]; }
        }
        done := done + 1;
      }
      learned := if exhausted then known + seen else seen;
      ReachedSeen(w, m, known, batch, walk[..done], cache0, quarantine0, cache, quarantine, rows, seen, c.quarantined);
      FatesMean(w, m, known, batch, walk[..done], cache0, quarantine0, cache, quarantine, rows, seen, c.quarantined);
    }

    /** The `--reset` loop: move every entry listed, as far as renames succeed. */
    method MoveAll(w: World, batch: string, listed: seq<Path>)
      requires forall p :: (batch + "/reset", p) !in quarantine
      modifies this`cache, this`quarantine
      ensures Conserved(old(cache), old(quarantine), cache, quarantine) && OnlyInto(old(quarantine), quarantine, batch)
      ensures forall p :: p in cache <==> p in old(cache) && !(p in listed && w.movable(p))
    {
      hide Conserved, OnlyInto;
      ConservedRefl(cache, quarantine);
      NothingInto(quarantine, batch);
      for i := 0 to |listed|
        invariant Conserved(old(cache), old(quarantine), cache, quarantine) && OnlyInto(old(quarantine), quarantine, batch)
        invariant forall p | p in cache :: (batch + "/reset", p) !in quarantine
        invariant forall p :: p in cache <==> p in old(cache) && !(p in listed[..i] && w.movable(p))
      {
        assert listed[..i + 1] == listed[..i] + [listed[i]];
        if listed[i] in cache {
          ghost var cache1, quarantine1 := cache, quarantine;
          var ok := MoveInto(w, listed[i], batch + "/reset");
          if ok {
            ConservedMove(cache1, quarantine1, batch + "/reset", listed[i]);
            ConservedTrans(old(cache), old(quarantine), cache1, quarantine1, cache, quarantine);
            OneInto(quarantine1, batch, listed[i], cache1[listed[i]]);
            OnlyIntoTrans(old(quarantine), quarantine1, quarantine, batch);
          }
        }
      }
      assert listed[..|listed|] == listed;
    }

    /**
     One guard command with the lock held. Only a quarantine resumes at the cursor and moves it; only
     a run that quarantines suspects alone saves what it learned; no command loses an entry.
     */
    method RunOnce(w: World, command: Command, plan: bool, allZero: bool, sizeCap: nat, units: seq<Unit>, rels: seq<string>,
                   run: Run, batch: string, remaining: seq<Path>) returns (c: Counts, rows: seq<Path>)
      requires Known(units, rels) && Unused(quarantine, batch)
      modifies this
      ensures var m := Mode(allZero || command.Reset?, sizeCap);
              var moves := !plan && !command.ScanOnly?;
              var resumes := moves && command.Quarantine?;
              var order := Rotation(units, rels, if resumes then old(cursor) else None);
              && Balanced(c, m, moves) && c.entries == |Done(order, run)|
              && (Distinct(Walk(order, run.entries)) ==> Tallied(c) == TallyAll(w, m, old(verdicts), old(cache), Done(order, run)))
              && (forall p :: p in rows <==> p in AllFlagged(w, m, old(verdicts), old(cache), Done(order, run)))
              && (if resumes then Resumes(units, rels, old(cursor), run, cursor) else cursor == old(cursor))
              && verdicts == (if moves && !m.allZero then Learned(w, m, old(verdicts), old(cache), order, run) else old(verdicts))
              && (!moves ==> cache == old(cache) && quarantine == old(quarantine))
              && (moves && !(command.Reset? && command.everything) ==>
                    && c.quarantined == |old(cache)| - |cache|
                    && cache == Minus(old(cache), Movable(w, AllFlagged(w, m, old(verdicts), old(cache), Done(order, run)))))
              && (moves && command.Reset? && command.everything ==> forall p | p in cache :: !(p in remaining && w.movable(p)))
      ensures Conserved(old(cache), old(quarantine), cache, quarantine) && OnlyInto(old(quarantine), quarantine, batch)
      ensures var order := Rotation(units, rels, if !plan && command.Quarantine? then old(cursor) else None);
              forall p | p in Done(order, run) && p in old(cache) && !(command.Reset? && command.everything) ::
                var f := old(cache)[p];
                p !in cache <==>
                  && !plan && !command.ScanOnly? && w.movable(p)
                  && f.size <= sizeCap && f.header && f.info.Some? && f.info.value.includes == 0
                  && (allZero || command.Reset? || !(p in old(verdicts) && old(verdicts)[p] == (f.size, f.mtime)))
                  && (allZero || command.Reset? || |f.info.value.results| == 0
                      || exists key :: key in f.info.value.results && w.result(p.unit.root, key) != Consistent)
      ensures forall p | p in verdicts && !(p in old(verdicts) && verdicts[p] == old(verdicts)[p]) ::
        p in old(cache) && var f := old(cache)[p];
        && verdicts[p] == (f.size, f.mtime) && !plan && command.Quarantine? && !allZero && f.size <= sizeCap
        && f.header && f.info.Some? && f.info.value.includes == 0 && |f.info.value.results| > 0
        && forall key | key in f.info.value.results :: w.result(p.unit.root, key) == Consistent
    {
      hide Balanced, Seen, AllFlagged, Walk, Rotation, Conserved, Known, TallyAll, Distinct, Minus, Movable, OnlyInto, Reached;
      var m := Mode(allZero || command.Reset?, sizeCap);
      var moves := !plan && !command.ScanOnly?;
      var resumes := moves && command.Quarantine?;
      var start := if resumes then cursor else None;
      var order := IterFrom(units, rels, start);
      OrderKnown(units, rels, start);
      var walk := Walk(order, run.entries);
      var target := if moves then Some(batch) else None;
      var learned, exhausted, done;
      c, rows, learned, exhausted, done := RunScan(w, m, verdicts, target, walk, run.cut);
      assert walk[..done] == Done(order, run);
      ReachedConserves(w, m, verdicts, target, Done(order, run), old(cache), old(quarantine), cache, quarantine, rows, c.quarantined);
      NothingInto(quarantine, batch);
      if resumes { cursor := CursorAfter(rels, order, run); }
      if command.Reset? && command.everything && moves {
        ghost var cache1, quarantine1 := cache, quarantine;
        MoveAll(w, batch, remaining);
        ConservedTrans(old(cache), old(quarantine), cache1, quarantine1, cache, quarantine);
        OnlyIntoTrans(old(quarantine), quarantine1, quarantine, batch);
      }
      if moves && !m.allZero { verdicts := learned; }
    }

    /** Any sequence of guard commands, each with a batch directory of its own: nothing is lost, duplicated, altered or moved elsewhere. */
    method RunAll(jobs: seq<Job>)
      requires forall i: nat | i < |jobs| :: Known(jobs[i].units, jobs[i].rels) && Unused(quarantine, jobs[i].batch)
      requires forall i: nat, j: nat | i < j < |jobs| :: ApartBatches(jobs[i].batch, jobs[j].batch)
      modifies this
      ensures Conserved(old(cache), old(quarantine), cache, quarantine)
    {
      hide Conserved, Known, Unused, OnlyInto, Balanced, AllFlagged, Done, Rotation, Resumes, Learned, Minus, TallyAll, Distinct;
      ConservedRefl(cache, quarantine);
      for i := 0 to |jobs|
        invariant Conserved(old(cache), old(quarantine), cache, quarantine)
        invariant forall k: nat | i <= k < |jobs| :: Unused(quarantine, jobs[k].batch)
      {
        ghost var cache1, quarantine1 := cache, quarantine;
        var j := jobs[i];
        var c, rows := RunOnce(j.w, j.command, j.plan, j.allZero, j.sizeCap, j.units, j.rels, j.run, j.batch, j.remaining);
        ConservedTrans(old(cache), old(quarantine), cache1, quarantine1, cache, quarantine);
        forall k: nat | i < k < |jobs| ensures Unused(quarantine, jobs[k].batch) {
          StillUnused(quarantine1, quarantine, j.batch, jobs[k].batch);
        }
      }
    }
  }
}
