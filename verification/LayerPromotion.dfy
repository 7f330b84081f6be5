/**
 `promote_layer` as a loop over one layer's listing, and what it computes: the published cache
 depends only on which entries were published, so a crash after any prefix, a resumed promotion
 and a half-removed layer all end in the same cache as one uninterrupted promotion.
 */
module LayerPromotion {
  import opened Basics
  import opened LayerProtocol

  /** What `lstat` and the header of one listed path say. */
  datatype Found = Unreadable | NotRegular | Regular(file: File, size: nat)

  datatype Item = Item(key: Key, found: Found)

  datatype Published = Published(file: File, size: nat)

  type Cache = map<Key, Published>

  predicate Accepted(item: Item) {
    ValidKey(item.key) && item.found.Regular? && item.found.file.kind != NotAnEntry
  }

  /** A regular file with the header of an entry, at a key of two and of 8 to 128 digits and small letters. */
  lemma AcceptedMeans(item: Item)
    ensures Accepted(item) <==>
      && item.found.Regular? && item.found.file.kind in {ResultEntry, ManifestEntry}
      && |item.key.dir| == 2 && 8 <= |item.key.name| <= 128
      && forall c | c in item.key.dir + item.key.name :: '0' <= c <= '9' || 'a' <= c <= 'z'
  {
    assert forall c :: c in item.key.dir + item.key.name <==> c in item.key.dir || c in item.key.name;
  }

  /** An existing entry wins, except against a strictly newer manifest. */
  predicate Wins(shared: Cache, item: Item)
    requires Accepted(item)
  {
    item.key in shared ==>
      item.found.file.kind == ManifestEntry && item.found.file.mtime > shared[item.key].file.mtime
  }

  function PublishOne(shared: Cache, item: Item): Cache {
    if Accepted(item) && Wins(shared, item)
    then shared[item.key := Published(item.found.file, item.found.size)]
    else shared
  }

  function PromoteAll(shared: Cache, items: seq<Item>): Cache {
    if items == [] then shared
    else PublishOne(PromoteAll(shared, items[..|items| - 1]), items[|items| - 1])
  }

  /** A directory lists each path once. */
  predicate Listing(items: seq<Item>) {
    forall i, j | 0 <= i < j < |items| :: items[i].key != items[j].key
  }

  datatype Counts = Counts(promoted: nat, replaced: nat, existing: nat, rejected: nat, bytes: nat)

  /** How many of the listed paths are not entries. */
  function Rejects(items: seq<Item>): nat {
    if items == [] then 0 else Rejects(items[..|items| - 1]) + if Accepted(items[|items| - 1]) then 0 else 1
  }

  /** The keys under which `shared'` holds something else than `shared`. */
  predicate Changed(shared: Cache, shared': Cache, k: Key) {
    k in shared' && (k in shared ==> shared'[k] != shared[k])
  }

  function SizeOf(shared: Cache, keys: seq<Key>): nat
    requires forall k | k in keys :: k in shared
  {
    if keys == [] then 0 else SizeOf(shared, keys[..|keys| - 1]) + shared[keys[|keys| - 1]].size
  }

  lemma {:induction false} SizeOfFrame(shared: Cache, shared': Cache, keys: seq<Key>)
    requires forall k | k in keys :: k in shared && k in shared' && shared'[k] == shared[k]
    ensures SizeOf(shared', keys) == SizeOf(shared, keys)
  {
    if keys != [] { SizeOfFrame(shared, shared', keys[..|keys| - 1]); }
  }

  /** A key no listed path has is not touched. */
  lemma {:induction false} UnlistedKept(shared: Cache, items: seq<Item>, k: Key)
    requires forall i | 0 <= i < |items| :: items[i].key != k
    ensures k in PromoteAll(shared, items) <==> k in shared
    ensures k in shared ==> PromoteAll(shared, items)[k] == shared[k]
  {
    if items != [] { UnlistedKept(shared, items[..|items| - 1], k); }
  }

  lemma OneMoreChange(shared: Cache, before: Cache, keys: seq<Key>, key: Key, x: Published)
    requires forall k :: k in keys <==> Changed(shared, before, k)
    requires key in shared ==> x != shared[key]
    ensures forall k :: k in keys + [key] <==> Changed(shared, before[key := x], k)
  {
    forall k ensures k in keys + [key] <==> Changed(shared, before[key := x], k) {
      assert k in keys + [key] <==> k in keys || k == key;
    }
  }

  lemma OneMoreSize(before: Cache, keys: seq<Key>, key: Key, x: Published)
    requires key !in keys && forall k | k in keys :: k in before
    ensures forall k | k in keys + [key] :: k in before[key := x]
    ensures SizeOf(before[key := x], keys + [key]) == SizeOf(before, keys) + x.size
  {
    SizeOfFrame(before, before[key := x], keys);
    assert (keys + [key])[..|keys|] == keys;
  }

  lemma OneMoreEntry(before: Cache, key: Key, x: Published)
    ensures |before[key := x]| == |before| + if key in before then 0 else 1
  {
    var after := before[key := x];
    assert after.Keys == before.Keys + {key};
    assert |after| == |after.Keys| && |before| == |before.Keys|;
  }

  lemma PromoteOneMore(shared: Cache, items: seq<Item>, n: nat)
    requires n < |items|
    ensures PromoteAll(shared, items[..n + 1]) == PublishOne(PromoteAll(shared, items[..n]), items[n])
    ensures Rejects(items[..n + 1]) == Rejects(items[..n]) + if Accepted(items[n]) then 0 else 1
  {
    assert items[..n + 1][..n] == items[..n];
  }

  /**
   The loop of `promote_layer`. Every listed path is counted once, `keys` is exactly the set of
   entries that changed, each once, and `bytes` is their total size in the resulting cache.
   */
  method PromoteLayer(shared: Cache, items: seq<Item>) returns (shared': Cache, counts: Counts, keys: seq<Key>)
    requires Listing(items)
    ensures shared' == PromoteAll(shared, items)
    ensures counts.promoted + counts.replaced + counts.existing + counts.rejected == |items|
    ensures |keys| == counts.promoted + counts.replaced
    ensures forall i, j | 0 <= i < j < |keys| :: keys[i] != keys[j]
    ensures forall k | k in keys :: k in shared'
    ensures forall k :: k in keys <==> Changed(shared, shared', k)
    ensures counts.promoted == |shared'| - |shared|
    ensures counts.rejected == Rejects(items)
    ensures counts.bytes == SizeOf(shared', keys)
  {
    hide PromoteAll, SizeOf, Changed, ValidKey;
    shared', counts, keys := shared, Counts(0, 0, 0, 0, 0), [];
    NothingPromoted(shared);
    for n := 0 to |items|
      invariant shared' == PromoteAll(shared, items[..n])
      invariant counts.promoted + counts.replaced + counts.existing + counts.rejected == n
      invariant |keys| == counts.promoted + counts.replaced && counts.rejected == Rejects(items[..n])
      invariant forall k | k in keys :: (exists i :: 0 <= i < n && items[i].key == k) && k in shared'
      invariant forall i, j | 0 <= i < j < |keys| :: keys[i] != keys[j]
      invariant forall k :: k in keys <==> Changed(shared, shared', k)
      invariant counts.promoted == |shared'| - |shared|
      invariant counts.bytes == SizeOf(shared', keys)
    {
      var item := items[n];
      PromoteOneMore(shared, items, n);
      UnlistedKept(shared, items[..n], item.key);
      assert item.key !in keys;
      if !Accepted(item) {
        counts := counts.(rejected := counts.rejected + 1);
      } else if !Wins(shared', item) {
        counts := counts.(existing := counts.existing + 1);
      } else {
        var entry := Published(item.found.file, item.found.size);
        OneMoreChange(shared, shared', keys, item.key, entry);
        OneMoreSize(shared', keys, item.key, entry);
        OneMoreEntry(shared', item.key, entry);
        if item.key in shared' {
          counts := counts.(replaced := counts.replaced + 1);
        } else {
          counts := counts.(promoted := counts.promoted + 1);
        }
        shared' := shared'[item.key := entry];
        keys := keys + [item.key];
        counts := counts.(bytes := counts.bytes + item.found.size);
      }
    }
    assert items[..|items|] == items;
  }

  lemma NothingPromoted(shared: Cache)
    ensures PromoteAll(shared, []) == shared && SizeOf(shared, []) == 0 && forall k :: !Changed(shared, shared, k)
  {
  }

  // ------------------------------------------------------------ crash and resume

  /** What one key holds after `item` was published over `prior`. */
  function Merge(prior: Option<Published>, item: Item): Option<Published>
    requires Accepted(item)
  {
    if prior.Some? && !(item.found.file.kind == ManifestEntry && item.found.file.mtime > prior.value.file.mtime)
    then prior
    else Some(Published(item.found.file, item.found.size))
  }

  function Get(shared: Cache, k: Key): Option<Published> { if k in shared then Some(shared[k]) else None }

  /** All listings come from one layer, where a path always names the same file. */
  predicate OneLayer(items: seq<Item>) {
    forall i, j | 0 <= i < |items| && 0 <= j < |items| && items[i].key == items[j].key :: items[i] == items[j]
  }

  /** `item` is an accepted entry at key `k` in this sequence of publications. */
  predicate Publishes(items: seq<Item>, k: Key, item: Item) {
    item in items && item.key == k && Accepted(item)
  }

  /** One layer published in any order, any number of times: each key is merged exactly once. */
  lemma {:induction false} PromotedOnce(shared: Cache, items: seq<Item>, k: Key, item: Item)
    requires OneLayer(items)
    requires Publishes(items, k, item) || forall x | x in items :: !Publishes(items, k, x)
    ensures Get(PromoteAll(shared, items), k) ==
            if Publishes(items, k, item) then Merge(Get(shared, k), item) else Get(shared, k)
  {
    if items != [] {
      var rest, last := items[..|items| - 1], items[|items| - 1];
      assert items == rest + [last];
      assert forall x :: x in items <==> x in rest || x == last;
      StillOne(items, rest, k, item);
      PromotedOnce(shared, rest, k, item);
      if last.key == k && Accepted(last) { SamePath(items, last, item, k); }
    }
  }

  lemma StillOne(items: seq<Item>, rest: seq<Item>, k: Key, item: Item)
    requires OneLayer(items) && forall x | x in rest :: x in items
    requires Publishes(items, k, item) || forall x | x in items :: !Publishes(items, k, x)
    ensures Publishes(rest, k, item) || forall x | x in rest :: !Publishes(rest, k, x)
  {
    forall x | x in rest && Publishes(rest, k, x) ensures x == item { SamePath(items, x, item, k); }
  }

  lemma SamePath(items: seq<Item>, x: Item, y: Item, k: Key)
    requires OneLayer(items) && Publishes(items, k, x)
    requires Publishes(items, k, y) || forall z | z in items :: !Publishes(items, k, z)
    ensures x == y
  {
    var i :| 0 <= i < |items| && items[i] == x;
    if Publishes(items, k, y) {
      var j :| 0 <= j < |items| && items[j] == y;
    }
  }

  /**
   The cache depends only on which entries of the layer were published: order, repetition,
   a crash after any prefix and a resumed or half-removed layer make no difference.
   */
  lemma PromotionIsConfluent(shared: Cache, items: seq<Item>, items': seq<Item>)
    requires OneLayer(items + items')
    requires forall x :: x in items <==> x in items'
    ensures PromoteAll(shared, items) == PromoteAll(shared, items')
  {
    var a, b := PromoteAll(shared, items), PromoteAll(shared, items');
    OneLayerParts(items, items');
    forall k ensures Get(a, k) == Get(b, k) {
      if item :| item in items && Publishes(items, k, item) {
        PromotedOnce(shared, items, k, item);
        PromotedOnce(shared, items', k, item);
      } else {
        var none := Item(k, Unreadable);
        PromotedOnce(shared, items, k, none);
        PromotedOnce(shared, items', k, none);
      }
    }
    assert forall k :: k in a <==> Get(a, k).Some?;
    assert forall k :: k in b <==> Get(b, k).Some?;
    assert a.Keys == b.Keys;
  }

  lemma OneLayerParts(a: seq<Item>, b: seq<Item>)
    requires OneLayer(a + b)
    ensures OneLayer(a) && OneLayer(b)
  {
    forall i, j | 0 <= i < |a| && 0 <= j < |a| && a[i].key == a[j].key ensures a[i] == a[j] {
      assert (a + b)[i] == a[i] && (a + b)[j] == a[j];
    }
    forall i, j | 0 <= i < |b| && 0 <= j < |b| && b[i].key == b[j].key ensures b[i] == b[j] {
      assert (a + b)[|a| + i] == b[i] && (a + b)[|a| + j] == b[j];
    }
  }

  /** The publications of several attempts, one after the other. */
  function Concat(attempts: seq<seq<Item>>): seq<Item> {
    if attempts == [] then [] else Concat(attempts[..|attempts| - 1]) + attempts[|attempts| - 1]
  }

  lemma {:induction false} ConcatMembers(attempts: seq<seq<Item>>, items: seq<Item>)
    requires forall a, x | a in attempts && x in a :: x in items
    ensures forall x | x in Concat(attempts) :: x in items
    ensures forall a, x | a in attempts && x in a :: x in Concat(attempts)
  {
    if attempts != [] {
      var rest, last := attempts[..|attempts| - 1], attempts[|attempts| - 1];
      ConcatMembers(rest, items);
      forall a, x | a in attempts && x in a ensures x in Concat(attempts) {
        if a != last { assert a in rest; }
      }
    }
  }

  lemma ListingIsOneLayer(items: seq<Item>, other: seq<Item>)
    requires Listing(items) && forall x | x in other :: x in items
    ensures OneLayer(other + items)
  {
    var all := other + items;
    forall i, j | 0 <= i < |all| && 0 <= j < |all| && all[i].key == all[j].key ensures all[i] == all[j] {
      assert all[i] in items && all[j] in items by {
        assert all[i] in other || all[i] in items;
        assert all[j] in other || all[j] in items;
      }
      var a :| 0 <= a < |items| && items[a] == all[i];
      var b :| 0 <= b < |items| && items[b] == all[j];
    }
  }

  /**
   Attempts cut short anywhere, in any number, before and after one that reaches the end (a sweep
   resuming a layer, then a removal that crashed and left some files behind): the final cache is
   the one a single uninterrupted promotion makes.
   */
  lemma ResumedPromotion(shared: Cache, items: seq<Item>, attempts: seq<seq<Item>>)
    requires Listing(items)
    requires forall a, x | a in attempts && x in a :: x in items
    requires items in attempts
    ensures PromoteAll(shared, Concat(attempts)) == PromoteAll(shared, items)
  {
    ConcatMembers(attempts, items);
    ListingIsOneLayer(items, Concat(attempts));
    PromotionIsConfluent(shared, Concat(attempts), items);
  }

  // -------------------------------------------------- manifests of several layers

  /** Only manifests are published at `k`. */
  predicate ManifestsAt(shared: Cache, items: seq<Item>, k: Key) {
    && (k in shared ==> shared[k].file.kind == ManifestEntry)
    && forall i | 0 <= i < |items| && items[i].key == k && Accepted(items[i]) :: items[i].found.file.kind == ManifestEntry
  }

  /** `t` is the greatest modification time the key ever saw. */
  ghost predicate Newest(shared: Cache, items: seq<Item>, k: Key, t: int) {
    && (k in shared ==> shared[k].file.mtime <= t)
    && (forall i | 0 <= i < |items| && items[i].key == k && Accepted(items[i]) :: items[i].found.file.mtime <= t)
    && ((k in shared && shared[k].file.mtime == t)
        || exists i :: 0 <= i < |items| && items[i].key == k && Accepted(items[i]) && items[i].found.file.mtime == t)
  }

  /** Any layers in any order, any number of times: each manifest key ends at the newest time seen. */
  lemma {:induction false} ManifestsKeepTheNewest(shared: Cache, items: seq<Item>, k: Key)
    requires ManifestsAt(shared, items, k) && k in PromoteAll(shared, items)
    ensures Newest(shared, items, k, PromoteAll(shared, items)[k].file.mtime)
  {
    if items != [] {
      var n := |items| - 1;
      var rest, last := items[..n], items[n];
      if k in PromoteAll(shared, rest) {
        ManifestsKeepTheNewest(shared, rest, k);
        ManifestStays(shared, rest, k);
      } else {
        NothingPublished(shared, rest, k);
      }
      assert forall i | 0 <= i < n :: rest[i] == items[i];
    }
  }

  lemma {:induction false} ManifestStays(shared: Cache, items: seq<Item>, k: Key)
    requires ManifestsAt(shared, items, k) && k in PromoteAll(shared, items)
    ensures PromoteAll(shared, items)[k].file.kind == ManifestEntry
  {
    if items != [] {
      var rest := items[..|items| - 1];
      if k in PromoteAll(shared, rest) { ManifestStays(shared, rest, k); }
    }
  }

  lemma {:induction false} NothingPublished(shared: Cache, items: seq<Item>, k: Key)
    requires k !in PromoteAll(shared, items)
    ensures k !in shared && forall i | 0 <= i < |items| && items[i].key == k :: !Accepted(items[i])
  {
    if items != [] {
      var rest := items[..|items| - 1];
      assert k !in PromoteAll(shared, rest);
      NothingPublished(shared, rest, k);
    }
  }

  // ------------------------------------------------------------ when a result survives

  /** What a key that held a result holds after a promotion: that result, or a newer manifest. */
  ghost predicate KeptOrReplaced(prior: Published, now: Published, items: seq<Item>, k: Key) {
    || (now == prior && forall i | 0 <= i < |items| && ManifestOf(items[i], k) :: items[i].found.file.mtime <= prior.file.mtime)
    || (now.file.kind == ManifestEntry && now.file.mtime > prior.file.mtime
        && exists i :: 0 <= i < |items| && ManifestOf(items[i], k) && items[i].found.file.mtime > prior.file.mtime)
  }

  predicate ManifestOf(item: Item, k: Key) { item.key == k && Accepted(item) && item.found.file.kind == ManifestEntry }

  lemma {:induction false} ResultFate(shared: Cache, items: seq<Item>, k: Key)
    requires k in shared && shared[k].file.kind != ManifestEntry
    ensures k in PromoteAll(shared, items) && KeptOrReplaced(shared[k], PromoteAll(shared, items)[k], items, k)
  {
    hide ValidKey;
    if items != [] {
      var n := |items| - 1;
      ResultFate(shared, items[..n], k);
      assert forall i | 0 <= i < n :: items[..n][i] == items[i];
      var now := PromoteAll(shared, items[..n])[k];
      if now != shared[k] || (exists i :: 0 <= i < n && ManifestOf(items[..n][i], k) && items[..n][i].found.file.mtime > shared[k].file.mtime) {
        var i :| 0 <= i < n && ManifestOf(items[..n][i], k) && items[..n][i].found.file.mtime > shared[k].file.mtime;
        assert ManifestOf(items[i], k);
      } else if ManifestOf(items[n], k) && items[n].found.file.mtime > shared[k].file.mtime {
        assert PromoteAll(shared, items)[k].file == items[n].found.file;
      }
    }
  }

  /** A published result survives any promotions exactly when no accepted manifest at its key is newer. */
  lemma ResultSurvives(shared: Cache, items: seq<Item>, k: Key)
    requires k in shared && shared[k].file.kind != ManifestEntry
    ensures k in PromoteAll(shared, items)
    ensures PromoteAll(shared, items)[k] == shared[k] <==>
      forall i | 0 <= i < |items| && ManifestOf(items[i], k) :: items[i].found.file.mtime <= shared[k].file.mtime
  {
    hide PromoteAll, Accepted;
    ResultFate(shared, items, k);
  }
}
