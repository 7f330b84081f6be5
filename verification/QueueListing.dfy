/**
 The paginated listing of scripts/assignment_scan.py: what one clean pass has checked, and why
 that means it saw a single snapshot although the listing changes while it is read.
 */
module QueueListing {
  import opened Basics

  const PER_PAGE: nat := 100

  /** A workflow run as the listing shows it. */
  datatype Run = Run(id: int, headRepo: Option<string>, event: string, age: Option<int>)

  /** One API answer. `None` stands for a missing or malformed field. */
  datatype Reply = Fault | Page(total: Option<int>, items: seq<Option<Run>>)

  /** The answers one pass gets: to its request for each page, and to the final re-read of page 1. */
  datatype Replies = Replies(pages: nat -> Reply, verify: Reply)

  predicate WellFormed(reply: Reply, cap: int) {
    && reply.Page? && reply.total.Some? && 0 <= reply.total.value < cap
    && forall i | 0 <= i < |reply.items| :: reply.items[i].Some?
  }

  /** The runs on a page; a reply that is not a page carries none. */
  function Runs(reply: Reply): (runs: seq<Run>)
    ensures reply.Page? && (forall i | 0 <= i < |reply.items| :: reply.items[i].Some?) ==>
      |runs| == |reply.items| && forall i | 0 <= i < |runs| :: reply.items[i] == Some(runs[i])
  {
    if reply.Page? && forall i | 0 <= i < |reply.items| :: reply.items[i].Some?
    then seq(|reply.items|, i requires 0 <= i < |reply.items| => reply.items[i].value)
    else []
  }

  predicate DistinctIds(runs: seq<Run>) {
    forall i, j | 0 <= i < j < |runs| :: runs[i].id != runs[j].id
  }

  predicate SameIds(items: seq<Option<Run>>, runs: seq<Run>) {
    |items| == |runs| && forall i | 0 <= i < |items| :: items[i].Some? && items[i].value.id == runs[i].id
  }

  /** The runs of pages 1 to `n`, in order. */
  function Body(pages: nat -> Reply, n: nat): seq<Run> {
    if n == 0 then [] else Body(pages, n - 1) + Runs(pages(n))
  }

  /** Pages 1 to `n` are well formed and agree on the total, and no id repeats. */
  ghost predicate Agrees(r: Replies, n: nat, cap: int, total: int) {
    && (forall p | 1 <= p <= n :: WellFormed(r.pages(p), cap) && r.pages(p).total.value == total)
    && DistinctIds(Body(r.pages, n))
  }

  /** None of pages 1 to `n` completes the listing. */
  ghost predicate Unfinished(r: Replies, n: nat, total: int) {
    forall p | 1 <= p <= n :: |Runs(r.pages(p))| >= PER_PAGE && |Body(r.pages, p)| < total
  }

  /** The final re-read of page 1 shows the same total and ids. */
  ghost predicate Verified(r: Replies, total: int) {
    r.verify.Page? && r.verify.total == Some(total) && SameIds(r.verify.items, Runs(r.pages(1)))
  }

  /** Everything a pass of `n` pages checks before it ends normally. */
  ghost predicate Reconciled(r: Replies, n: nat, cap: int) {
    && n >= 1 && WellFormed(r.pages(1), cap)
    && var total := r.pages(1).total.value;
    && Agrees(r, n, cap, total) && Unfinished(r, n - 1, total)
    && |Body(r.pages, n)| == total && (n > 1 ==> Verified(r, total))
  }

  function Ids(runs: seq<Run>): set<int> { set r | r in runs :: r.id }

  // ------------------------------------------------------------------ how a pass goes, in order

  /** How a pass over a listing, or the scan of a page, can end. */
  datatype Outcome = Clean | Race | BadListing | VisitFailed | Abandoned

  function ItemIds(items: seq<Option<Run>>): set<int> { set x | x in items && x.Some? :: x.value.id }

  /** The first item that fails decides: one without an id is an error, a repeated id a race. */
  function IdCheck(body: seq<Run>, items: seq<Option<Run>>): Outcome {
    if items == [] then Clean
    else
      var n := |items| - 1;
      var o := IdCheck(body, items[..n]);
      if !o.Clean? then o
      else if items[n].None? then BadListing
      else if items[n].value.id in Ids(body) + ItemIds(items[..n]) then Race
      else Clean
  }

  /** What a pass that has read n pages finds on the next one, before it is delivered. */
  function PageCheck(r: Replies, n: nat, cap: int): Outcome {
    var reply := r.pages(n + 1);
    if reply.Fault? || reply.total.None? || reply.total.value < 0 || reply.total.value >= cap then BadListing
    else if n > 0 && r.pages(1).Page? && reply.total != r.pages(1).total then Race
    else IdCheck(Body(r.pages, n), reply.items)
  }

  /** What it decides after delivering that page; None means that it goes on. */
  function EndCheck(r: Replies, n: nat): Option<Outcome>
    requires r.pages(n + 1).Page? && r.pages(n + 1).total.Some?
  {
    var total, delivered := r.pages(n + 1).total.value, |Body(r.pages, n + 1)|;
    if delivered > total then Some(Race)
    else if delivered == total then
      if n == 0 then Some(Clean)
      else if r.verify.Fault? then Some(BadListing)
      else if r.verify.total == Some(total) && SameIds(r.verify.items, Runs(r.pages(1))) then Some(Clean)
      else Some(Race)
    else if |Runs(r.pages(n + 1))| < PER_PAGE then Some(Race)
    else None
  }

  /** The end of a pass, and how many pages it has delivered by then. */
  datatype PassEnd = PassEnd(o: Outcome, pages: nat)

  function PassFrom(r: Replies, n: nat, cap: int, maxPages: nat): (e: PassEnd)
    ensures e.o.Clean? || e.o.Race? || e.o.BadListing?
    ensures n <= maxPages ==> n <= e.pages <= maxPages
    decreases maxPages - n
  {
    if n >= maxPages then PassEnd(BadListing, n)
    else
      var check := PageCheck(r, n, cap);
      if !check.Clean? then NotVisit(Body(r.pages, n), r.pages(n + 1)); PassEnd(check, n)
      else
        match EndCheck(r, n)
        case Some(o) => PassEnd(o, n + 1)
        case None => PassFrom(r, n + 1, cap, maxPages)
  }

  lemma {:induction false} IdCheckKinds(body: seq<Run>, items: seq<Option<Run>>)
    ensures var o := IdCheck(body, items); o.Clean? || o.Race? || o.BadListing?
  {
    if items != [] { IdCheckKinds(body, items[..|items| - 1]); }
  }

  lemma NotVisit(body: seq<Run>, reply: Reply)
    ensures reply.Page? ==> var o := IdCheck(body, reply.items); o.Clean? || o.Race? || o.BadListing?
  {
    if reply.Page? { IdCheckKinds(body, reply.items); }
  }

  /** A failed item dooms the page. */
  lemma {:induction false} IdCheckDoomed(body: seq<Run>, items: seq<Option<Run>>, i: nat)
    requires i <= |items| && !IdCheck(body, items[..i]).Clean?
    ensures IdCheck(body, items) == IdCheck(body, items[..i])
    decreases |items| - i
  {
    if i == |items| {
      assert items[..i] == items;
    } else {
      assert items[..i + 1][..i] == items[..i];
      IdCheckDoomed(body, items, i + 1);
    }
  }

  // ------------------------------------------------------- why a pass cannot end normally

  /** Pages 1 to `n` were read, passed every check and did not complete the listing. */
  ghost predicate Progress(r: Replies, n: nat, cap: int, total: int) {
    n >= 1 ==> r.pages(1).Page? && r.pages(1).total == Some(total) && Agrees(r, n, cap, total) && Unfinished(r, n, total)
  }

  /** No number of pages reconciles, up to `maxPages`. */
  ghost predicate Hopeless(r: Replies, cap: int, maxPages: nat) {
    forall m | 1 <= m <= maxPages :: !Reconciled(r, m, cap)
  }

  lemma {:induction false} BodyPrefix(pages: nat -> Reply, n: nat, m: nat)
    requires n <= m
    ensures |Body(pages, n)| <= |Body(pages, m)| && Body(pages, m)[..|Body(pages, n)|] == Body(pages, n)
  {
    if n < m { BodyPrefix(pages, n, m - 1); }
  }

  /** After `n` unfinished pages, a page that fails any check of the pass makes it hopeless. */
  lemma FailedPage(r: Replies, n: nat, cap: int, total: int, maxPages: nat)
    requires Progress(r, n, cap, total) && (n == 0 && WellFormed(r.pages(1), cap) ==> r.pages(1).total == Some(total))
    requires
      || !WellFormed(r.pages(n + 1), cap)
      || r.pages(n + 1).total != Some(total)
      || !DistinctIds(Body(r.pages, n + 1))
      || |Body(r.pages, n + 1)| > total
      || (|Body(r.pages, n + 1)| == total && n >= 1 && !Verified(r, total))
      || (|Body(r.pages, n + 1)| < total && |Runs(r.pages(n + 1))| < PER_PAGE)
    ensures Hopeless(r, cap, maxPages)
  {
    forall m | 1 <= m <= maxPages ensures !Reconciled(r, m, cap) {
      if n < m {
        BodyPrefix(r.pages, n + 1, m);
        var body, all := Body(r.pages, n + 1), Body(r.pages, m);
        assert forall i | 0 <= i < |body| :: all[i] == body[i];
      }
    }
  }

  lemma RanOutOfPages(r: Replies, cap: int, total: int, maxPages: nat)
    requires Progress(r, maxPages, cap, total)
    ensures Hopeless(r, cap, maxPages)
  {
  }

  // ------------------------------------------------- a listing that changes under the pass

  /** One change: a run created at the head with an id never listed before, or a run leaving. */
  datatype Change = Arrive(run: Run) | Leave(at: nat)

  function Changed(listing: seq<Run>, c: Change): seq<Run> {
    match c
    case Arrive(run) => [run] + listing
    case Leave(i) => if i < |listing| then listing[..i] + listing[i + 1..] else listing
  }

  function After(listing: seq<Run>, cs: seq<Change>): seq<Run> {
    if cs == [] then listing else Changed(After(listing, cs[..|cs| - 1]), cs[|cs| - 1])
  }

  /** Ids are never reused. Nothing else is assumed: a run may arrive and leave again between two reads. */
  ghost predicate Churn(start: seq<Run>, cs: seq<Change>) {
    DistinctIds(start) && forall m | 0 <= m < |cs| && cs[m].Arrive? :: Fresh(start, cs[..m], cs[m].run.id)
  }

  ghost predicate Fresh(start: seq<Run>, cs: seq<Change>, id: int) {
    && (forall i | 0 <= i < |start| :: start[i].id != id)
    && (forall i | 0 <= i < |cs| && cs[i].Arrive? :: cs[i].run.id != id)
  }

  /** The server answers a page request from the listing as it stands at that moment. */
  ghost predicate Answers(reply: Reply, listing: seq<Run>, page: nat)
    requires page >= 1
  {
    var lo := Min((page - 1) * PER_PAGE, |listing|);
    var hi := Min(page * PER_PAGE, |listing|);
    && reply.Page? && reply.total == Some(|listing|)
    && |reply.items| == hi - lo
    && forall i | 0 <= i < hi - lo :: reply.items[i] == Some(listing[lo + i])
  }

  /**
   Every answer of the pass comes from the listing at some point of its history, in order: `at(p)`
   changes precede the read of page p, and `at(n + 1)` the final re-read of page 1.
   */
  ghost predicate Honest(r: Replies, n: nat, start: seq<Run>, cs: seq<Change>, at: nat -> nat) {
    && Churn(start, cs)
    && at(1) == 0 && at(n + 1) <= |cs| && (forall p | 1 <= p <= n :: at(p) <= at(p + 1))
    && (forall p | 1 <= p <= n :: at(p) <= |cs| && Answers(r.pages(p), After(start, cs[..at(p)]), p))
    && (n > 1 ==> Answers(r.verify, After(start, cs[..at(n + 1)]), 1))
  }

  /** The listing during a pass: runs that arrived, newest first, then what is left of the start. */
  datatype Shape = Shape(arrived: seq<Run>, kept: seq<Run>)

  function Without(s: seq<Run>, i: nat): seq<Run>
    requires i < |s|
  {
    s[..i] + s[i + 1..]
  }

  function Reshaped(sh: Shape, c: Change): Shape {
    match c
    case Arrive(run) => sh.(arrived := [run] + sh.arrived)
    case Leave(i) =>
      if i < |sh.arrived| then sh.(arrived := Without(sh.arrived, i))
      else if i - |sh.arrived| < |sh.kept| then sh.(kept := Without(sh.kept, i - |sh.arrived|))
      else sh
  }

  function ShapeOf(start: seq<Run>, cs: seq<Change>): Shape {
    if cs == [] then Shape([], start) else Reshaped(ShapeOf(start, cs[..|cs| - 1]), cs[|cs| - 1])
  }

  lemma OneChange(sh: Shape, c: Change)
    ensures Changed(sh.arrived + sh.kept, c) == Reshaped(sh, c).arrived + Reshaped(sh, c).kept
  {
    match c
    case Arrive(run) => assert [run] + (sh.arrived + sh.kept) == ([run] + sh.arrived) + sh.kept;
    case Leave(i) =>
      var all, n := sh.arrived + sh.kept, |sh.arrived|;
      if i < n {
        assert all[..i] == sh.arrived[..i] && all[i + 1..] == sh.arrived[i + 1..] + sh.kept;
      } else if i - n < |sh.kept| {
        assert all[..i] == sh.arrived + sh.kept[..i - n] && all[i + 1..] == sh.kept[i - n + 1..];
      }
  }

  lemma {:induction false} AfterHasShape(start: seq<Run>, cs: seq<Change>)
    ensures After(start, cs) == ShapeOf(start, cs).arrived + ShapeOf(start, cs).kept
  {
    hide Changed, Reshaped;
    if cs != [] {
      AfterHasShape(start, cs[..|cs| - 1]);
      OneChange(ShapeOf(start, cs[..|cs| - 1]), cs[|cs| - 1]);
    }
  }

  /** Every run that arrived has an id the start does not have. */
  lemma {:induction false} ArrivedAreNew(start: seq<Run>, cs: seq<Change>, run: Run, listed: Run)
    requires Churn(start, cs) && run in ShapeOf(start, cs).arrived && listed in start
    ensures run.id != listed.id
  {
    if cs != [] {
      var n := |cs| - 1;
      assert Churn(start, cs[..n]) by {
        assert forall i | 0 <= i < n :: cs[..n][i] == cs[i] && cs[..n][..i] == cs[..i];
      }
      if run in ShapeOf(start, cs[..n]).arrived { ArrivedAreNew(start, cs[..n], run, listed); }
    }
  }

  /** Departures from the start are final: at full length nothing of it has left, then or before. */
  lemma {:induction false} KeptOnlyShrinks(start: seq<Run>, cs: seq<Change>, m: nat)
    requires m <= |cs|
    ensures |ShapeOf(start, cs).kept| <= |ShapeOf(start, cs[..m]).kept| <= |start|
    ensures |ShapeOf(start, cs).kept| == |start| ==> ShapeOf(start, cs).kept == start
  {
    if cs == [] {
      assert cs[..m] == cs;
    } else {
      var n := |cs| - 1;
      KeptOnlyShrinks(start, cs[..n], if m <= n then m else n);
      if m <= n { assert cs[..n][..m] == cs[..m]; } else { assert cs[..m] == cs; }
    }
  }

  lemma OnePage(reply: Reply, listing: seq<Run>, n: nat)
    requires n >= 1 && Answers(reply, listing, n)
    ensures Runs(reply) == listing[Min((n - 1) * PER_PAGE, |listing|)..Min(n * PER_PAGE, |listing|)]
  {
  }

  /** Pages all read from the same listing add up to a prefix of it. */
  lemma {:induction false} PagesOfOneListing(r: Replies, n: nat, listing: seq<Run>)
    requires forall p | 1 <= p <= n :: Answers(r.pages(p), listing, p)
    ensures Body(r.pages, n) == listing[..Min(n * PER_PAGE, |listing|)]
  {
    hide Answers, Runs;
    if n > 0 {
      PagesOfOneListing(r, n - 1, listing);
      OnePage(r.pages(n), listing, n);
      var lo := Min((n - 1) * PER_PAGE, |listing|);
      var hi := Min(n * PER_PAGE, |listing|);
      assert listing[..lo] + listing[lo..hi] == listing[..hi];
    }
  }

  /** The re-read of page 1 starts with an old run, so no new run is listed; then the total says none has left. */
  lemma NothingHappened(r: Replies, n: nat, cap: int, start: seq<Run>, cs: seq<Change>, at: nat -> nat)
    requires Honest(r, n, start, cs, at) && Reconciled(r, n, cap) && n > 1
    ensures ShapeOf(start, cs[..at(n + 1)]) == Shape([], start)
  {
    var m := at(n + 1);
    var sh := ShapeOf(start, cs[..m]);
    AfterHasShape(start, cs[..m]);
    assert cs[..0] == [];
    assert Answers(r.pages(1), start, 1);
    assert |Runs(r.pages(1))| >= PER_PAGE;
    assert r.verify.items[0] == Some((sh.arrived + sh.kept)[0]) && Runs(r.pages(1))[0] == start[0];
    if sh.arrived != [] {
      assert Churn(start, cs[..m]) by {
        assert forall i | 0 <= i < m :: cs[..m][i] == cs[i] && cs[..m][..i] == cs[..i];
      }
      ArrivedAreNew(start, cs[..m], sh.arrived[0], start[0]);
      assert false;
    }
    KeptOnlyShrinks(start, cs[..m], m);
  }

  lemma {:induction false} AtIsMonotone(at: nat -> nat, n: nat, p: nat)
    requires (forall q | 1 <= q <= n :: at(q) <= at(q + 1)) && 1 <= p <= n + 1
    ensures at(p) <= at(n + 1)
    decreases n + 1 - p
  {
    if p <= n { AtIsMonotone(at, n, p + 1); }
  }

  lemma SameTotal(r: Replies, n: nat, cap: int, start: seq<Run>, cs: seq<Change>, at: nat -> nat, p: nat)
    requires Honest(r, n, start, cs, at) && Reconciled(r, n, cap) && 1 <= p <= n
    ensures |After(start, cs[..at(p)])| == |start|
  {
    assert cs[..0] == [];
    assert Answers(r.pages(1), start, 1);
    assert Answers(r.pages(p), After(start, cs[..at(p)]), p);
  }

  lemma SameAtEveryRead(r: Replies, n: nat, cap: int, start: seq<Run>, cs: seq<Change>, at: nat -> nat, p: nat)
    requires Honest(r, n, start, cs, at) && Reconciled(r, n, cap) && n > 1 && 1 <= p <= n
    ensures After(start, cs[..at(p)]) == start
  {
    NothingHappened(r, n, cap, start, cs, at);
    AtIsMonotone(at, n, p);
    SameTotal(r, n, cap, start, cs, at, p);
    var all, now := cs[..at(n + 1)], cs[..at(p)];
    hide Honest, Reconciled;
    assert all[..at(p)] == now;
    KeptOnlyShrinks(start, all, at(p));
    KeptOnlyShrinks(start, now, at(p));
    AfterHasShape(start, now);
  }

  /**
   A pass that ends normally delivered, each run once and in order, exactly the listing as it stood
   at every one of its reads, for any number of pages and any churn between them.
   */
  lemma PassSawOneSnapshot(r: Replies, n: nat, cap: int, start: seq<Run>, cs: seq<Change>, at: nat -> nat)
    requires Honest(r, n, start, cs, at) && Reconciled(r, n, cap)
    ensures Body(r.pages, n) == start && DistinctIds(start)
    ensures forall p | 1 <= p <= n :: After(start, cs[..at(p)]) == start
    ensures n > 1 ==> After(start, cs[..at(n + 1)]) == start
  {
    hide After, Reconciled, Body, Churn, Answers, DistinctIds, ShapeOf;
    WholeListing(r, n, cap, start, cs, at);
    forall p | 1 <= p <= n ensures After(start, cs[..at(p)]) == start { ReadsStart(r, n, cap, start, cs, at, p); }
    PagesOfOneListing(r, n, start);
    if n > 1 { EndsAtStart(r, n, cap, start, cs, at); }
    assert start[..|start|] == start;
  }

  lemma EndsAtStart(r: Replies, n: nat, cap: int, start: seq<Run>, cs: seq<Change>, at: nat -> nat)
    requires Honest(r, n, start, cs, at) && Reconciled(r, n, cap) && n > 1
    ensures After(start, cs[..at(n + 1)]) == start
  {
    NothingHappened(r, n, cap, start, cs, at);
    AfterHasShape(start, cs[..at(n + 1)]);
  }

  lemma ReadsStart(r: Replies, n: nat, cap: int, start: seq<Run>, cs: seq<Change>, at: nat -> nat, p: nat)
    requires Honest(r, n, start, cs, at) && Reconciled(r, n, cap) && 1 <= p <= n
    ensures After(start, cs[..at(p)]) == start && Answers(r.pages(p), start, p)
  {
    if n > 1 {
      SameAtEveryRead(r, n, cap, start, cs, at, p);
    } else {
      assert cs[..0] == [];
    }
  }

  lemma WholeListing(r: Replies, n: nat, cap: int, start: seq<Run>, cs: seq<Change>, at: nat -> nat)
    requires Honest(r, n, start, cs, at) && Reconciled(r, n, cap)
    ensures |Body(r.pages, n)| == |start| && DistinctIds(start)
    ensures forall p | 1 <= p <= n :: Answers(r.pages(p), start, p)
  {
    forall p | 1 <= p <= n ensures Answers(r.pages(p), start, p) { ReadsStart(r, n, cap, start, cs, at, p); }
    hide After, DistinctIds, ShapeOf, Body;
    assert Answers(r.pages(1), start, 1);
  }
}
