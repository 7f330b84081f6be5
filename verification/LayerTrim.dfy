/** `trim`: evict the oldest shared entries until the cache is below nine tenths of its cap. */
module LayerTrim {
  import opened Sorting

  datatype Entry = Entry(mtime: int, size: nat, path: string)

  function Bytes(entries: seq<Entry>): nat {
    if entries == [] then 0 else Bytes(entries[..|entries| - 1]) + entries[|entries| - 1].size
  }

  /** `int(max_size * 0.9)` without the rounding of binary fractions. */
  function Target(maxSize: nat): nat { maxSize * 9 / 10 }

  predicate Older(a: Entry, b: Entry) { a.mtime <= b.mtime }

  lemma BytesOfSnoc(s: seq<Entry>, x: Entry)
    ensures Bytes(s + [x]) == Bytes(s) + x.size
  {
    assert (s + [x])[..|s|] == s;
  }

  lemma {:induction false} BytesOfConcat(a: seq<Entry>, b: seq<Entry>)
    ensures Bytes(a + b) == Bytes(a) + Bytes(b)
  {
    if b == [] {
      assert a + b == a;
    } else {
      BytesOfConcat(a, b[..|b| - 1]);
      assert (a + b)[..|a + b| - 1] == a + b[..|b| - 1];
    }
  }

  lemma {:induction false} BytesOfInsert(s: seq<Entry>, x: Entry)
    ensures Bytes(Insert(Older, s, x)) == Bytes(s) + x.size
  {
    if s != [] && !Older(s[|s| - 1], x) {
      var rest, last := s[..|s| - 1], s[|s| - 1];
      BytesOfInsert(rest, x);
      BytesOfConcat(Insert(Older, rest, x), [last]);
    } else {
      BytesOfConcat(s, [x]);
    }
  }

  lemma {:induction false} BytesOfSort(s: seq<Entry>)
    ensures Bytes(Sort(Older, s)) == Bytes(s)
  {
    if s != [] {
      BytesOfSort(s[..|s| - 1]);
      BytesOfInsert(Sort(Older, s[..|s| - 1]), s[|s| - 1]);
    }
  }

  /** The entries whose unlink succeeds, and those whose unlink fails. */
  function Unlinked(s: seq<Entry>, stuck: set<string>, ok: bool): seq<Entry> {
    if s == [] then []
    else
      var last := s[|s| - 1];
      Unlinked(s[..|s| - 1], stuck, ok) + if (last.path !in stuck) == ok then [last] else []
  }

  lemma UnlinkedOfSnoc(s: seq<Entry>, x: Entry, stuck: set<string>, ok: bool)
    ensures Unlinked(s + [x], stuck, ok) == Unlinked(s, stuck, ok) + if (x.path !in stuck) == ok then [x] else []
  {
    assert (s + [x])[..|s|] == s;
  }

  lemma NothingUnlinked(stuck: set<string>)
    ensures Unlinked([], stuck, true) == [] && Unlinked([], stuck, false) == [] && Bytes([]) == 0
  {
  }

  lemma {:induction false} UnlinkedSplit(s: seq<Entry>, stuck: set<string>)
    ensures multiset(Unlinked(s, stuck, true)) + multiset(Unlinked(s, stuck, false)) == multiset(s)
    ensures Bytes(Unlinked(s, stuck, true)) + Bytes(Unlinked(s, stuck, false)) == Bytes(s)
  {
    hide Bytes, Unlinked;
    if s == [] {
      NothingUnlinked(stuck);
    } else {
      var rest, last := s[..|s| - 1], s[|s| - 1];
      var ok := last.path !in stuck;
      UnlinkedSplit(rest, stuck);
      assert s == rest + [last];
      UnlinkedOfSnoc(rest, last, stuck, true);
      UnlinkedOfSnoc(rest, last, stuck, false);
      assert Unlinked(s, stuck, !ok) == Unlinked(rest, stuck, !ok);
      BytesOfSnoc(rest, last);
      BytesOfSnoc(Unlinked(rest, stuck, ok), last);
    }
  }

  datatype Trimmed = Trimmed(evicted: seq<Entry>, kept: seq<Entry>, bytesAfter: nat)

  /** Where the loop stops: the first prefix after which the total is at most the target. */
  ghost predicate StopsAt(order: seq<Entry>, stuck: set<string>, target: nat, n: nat) {
    && n <= |order|
    && (forall m | 0 <= m < n :: Bytes(order) - Bytes(Unlinked(order[..m], stuck, true)) > target)
    && (n < |order| ==> Bytes(order) - Bytes(Unlinked(order[..n], stuck, true)) <= target)
  }

  /** The eviction loop over the entries, oldest first. */
  method Evict(order: seq<Entry>, stuck: set<string>, target: nat) returns (evicted: seq<Entry>, total: int, n: nat)
    ensures StopsAt(order, stuck, target, n)
    ensures evicted == Unlinked(order[..n], stuck, true)
    ensures total == Bytes(order) - Bytes(evicted)
  {
    hide Bytes, Unlinked;
    evicted, total, n := [], Bytes(order), 0;
    NothingUnlinked(stuck);
    assert order[..0] == [];
    while n < |order| && total > target
      invariant n <= |order|
      invariant evicted == Unlinked(order[..n], stuck, true)
      invariant total == Bytes(order) - Bytes(evicted)
      invariant forall m | 0 <= m < n :: Bytes(order) - Bytes(Unlinked(order[..m], stuck, true)) > target
    {
      assert order[..n + 1] == order[..n] + [order[n]];
      UnlinkedOfSnoc(order[..n], order[n], stuck, true);
      if order[n].path !in stuck {
        BytesOfSnoc(evicted, order[n]);
        evicted := evicted + [order[n]];
        total := total - order[n].size;
      }
      n := n + 1;
    }
  }

  /** Whatever unlinks fail, nothing is lost and the reported size is the size of what is left. */
  method Trim(entries: seq<Entry>, maxSize: nat, stuck: set<string>) returns (r: Trimmed)
    ensures multiset(r.evicted) + multiset(r.kept) == multiset(entries)
    ensures r.bytesAfter == Bytes(r.kept)
    ensures Bytes(entries) <= maxSize ==> r.evicted == []
    ensures Bytes(entries) > maxSize ==> Minimal(entries, maxSize, stuck, r)
    ensures Bytes(entries) > maxSize ==> exists n: nat ::
      && StopsAt(Sort(Older, entries), stuck, Target(maxSize), n)
      && r.evicted == Unlinked(Sort(Older, entries)[..n], stuck, true)
  {
    var order := Sort(Older, entries);
    SortSorts(Older, entries);
    BytesOfSort(entries);
    if Bytes(entries) > maxSize {
      var evicted, total, n := Evict(order, stuck, Target(maxSize));
      LeftOver(order, stuck, n);
      r := Trimmed(evicted, Unlinked(order[..n], stuck, false) + order[n..], total);
      OldestWent(entries, order, maxSize, stuck, n, r);
    } else {
      r := Trimmed([], order, Bytes(order));
    }
  }

  lemma LeftOver(order: seq<Entry>, stuck: set<string>, n: nat)
    requires n <= |order|
    ensures var gone, left := Unlinked(order[..n], stuck, true), Unlinked(order[..n], stuck, false) + order[n..];
            multiset(gone) + multiset(left) == multiset(order) && Bytes(gone) + Bytes(left) == Bytes(order)
  {
    hide Bytes, Unlinked;
    UnlinkedSplit(order[..n], stuck);
    assert order == order[..n] + order[n..];
    BytesOfConcat(order[..n], order[n..]);
    BytesOfConcat(Unlinked(order[..n], stuck, false), order[n..]);
  }

  /**
   What fits nine tenths of the cap is left, or nothing but what cannot be deleted; only deletable
   entries went, none of them newer than one kept, and the last one evicted was still needed.
   */
  ghost predicate Minimal(entries: seq<Entry>, maxSize: nat, stuck: set<string>, r: Trimmed) {
    && (10 * r.bytesAfter <= 9 * maxSize || forall y | y in r.kept :: y.path in stuck)
    && (forall x | x in r.evicted :: x.path !in stuck)
    && (forall x, y | x in r.evicted && y in r.kept && y.path !in stuck :: x.mtime <= y.mtime)
    && (r.evicted != [] ==> 10 * (Bytes(entries) - Bytes(r.evicted[..|r.evicted| - 1])) > 9 * maxSize)
  }

  lemma OlderSplit(order: seq<Entry>, n: nat, x: Entry, y: Entry)
    requires SortedBy(Older, order) && n <= |order| && x in order[..n] && y in order[n..]
    ensures x.mtime <= y.mtime
  {
    var i :| 0 <= i < n && order[i] == x;
    var j :| n <= j < |order| && order[j] == y;
    assert Older(order[i], order[j]);
  }

  lemma {:induction false} UnlinkedMembers(s: seq<Entry>, stuck: set<string>, ok: bool, x: Entry)
    ensures x in Unlinked(s, stuck, ok) <==> x in s && (x.path !in stuck) == ok
  {
    if s != [] {
      UnlinkedMembers(s[..|s| - 1], stuck, ok, x);
      assert s == s[..|s| - 1] + [s[|s| - 1]];
    }
  }

  /** Before the last entry evicted from the first n went, some prefix of them was all that had gone. */
  lemma {:induction false} LastEvicted(order: seq<Entry>, stuck: set<string>, n: nat) returns (m: nat)
    requires n <= |order| && Unlinked(order[..n], stuck, true) != []
    ensures m < n
    ensures var gone := Unlinked(order[..n], stuck, true); gone[..|gone| - 1] == Unlinked(order[..m], stuck, true)
  {
    assert n > 0;
    assert order[..n] == order[..n - 1] + [order[n - 1]];
    UnlinkedOfSnoc(order[..n - 1], order[n - 1], stuck, true);
    if order[n - 1].path in stuck { m := LastEvicted(order, stuck, n - 1); } else { m := n - 1; }
  }

  lemma OldestWent(entries: seq<Entry>, order: seq<Entry>, maxSize: nat, stuck: set<string>, n: nat, r: Trimmed)
    requires order == Sort(Older, entries) && StopsAt(order, stuck, Target(maxSize), n)
    requires r == Trimmed(Unlinked(order[..n], stuck, true), Unlinked(order[..n], stuck, false) + order[n..], r.bytesAfter)
    requires r.bytesAfter == Bytes(order) - Bytes(r.evicted)
    ensures Minimal(entries, maxSize, stuck, r)
  {
    hide Bytes, Unlinked, Insert, Sort;
    SortSorts(Older, entries);
    BytesOfSort(entries);
    if r.evicted != [] { var m := LastEvicted(order, stuck, n); }
    forall x ensures x in r.evicted <==> x in order[..n] && x.path !in stuck { UnlinkedMembers(order[..n], stuck, true, x); }
    forall y ensures y in r.kept <==> (y in order[..n] && y.path in stuck) || y in order[n..] { UnlinkedMembers(order[..n], stuck, false, y); }
    forall x, y | x in r.evicted && y in r.kept && y.path !in stuck ensures x.mtime <= y.mtime {
      OlderSplit(order, n, x, y);
    }
  }
}
