/** `sorted(items, key=…)`: a stable insertion sort, what its callers rely on, and the orders of names. */
module Sorting {

  ghost predicate Total<T(!new)>(le: (T, T) -> bool) {
    && (forall x, y :: le(x, y) || le(y, x))
    && (forall x, y, z :: le(x, y) && le(y, z) ==> le(x, z))
  }

  ghost predicate SortedBy<T(!new)>(le: (T, T) -> bool, s: seq<T>) {
    forall i, j | 0 <= i < j < |s| :: le(s[i], s[j])
  }

  /** Insert `x` after every element it does not precede. */
  function Insert<T>(le: (T, T) -> bool, s: seq<T>, x: T): seq<T> {
    if s == [] then [x]
    else if le(s[|s| - 1], x) then s + [x]
    else Insert(le, s[..|s| - 1], x) + [s[|s| - 1]]
  }

  function Sort<T>(le: (T, T) -> bool, s: seq<T>): seq<T> {
    if s == [] then [] else Insert(le, Sort(le, s[..|s| - 1]), s[|s| - 1])
  }

  lemma {:induction false} InsertElements<T>(le: (T, T) -> bool, s: seq<T>, x: T)
    ensures multiset(Insert(le, s, x)) == multiset(s) + multiset{x}
    ensures |Insert(le, s, x)| == |s| + 1
  {
    if s != [] {
      assert s == s[..|s| - 1] + [s[|s| - 1]];
      if !le(s[|s| - 1], x) { InsertElements(le, s[..|s| - 1], x); }
    }
  }

  lemma {:induction false} InsertSorted<T(!new)>(le: (T, T) -> bool, s: seq<T>, x: T)
    requires Total(le) && SortedBy(le, s)
    ensures SortedBy(le, Insert(le, s, x))
  {
    if s != [] && !le(s[|s| - 1], x) {
      var rest, last := s[..|s| - 1], s[|s| - 1];
      InsertSorted(le, rest, x);
      InsertElements(le, rest, x);
      var r := Insert(le, rest, x);
      forall i | 0 <= i < |r| ensures le(r[i], last) {
        assert r[i] in multiset(r);
        assert r[i] in rest || r[i] == x;
      }
    }
  }

  /** The result is an ordered permutation of the input. */
  lemma {:induction false} SortSorts<T(!new)>(le: (T, T) -> bool, s: seq<T>)
    requires Total(le)
    ensures multiset(Sort(le, s)) == multiset(s) && |Sort(le, s)| == |s|
    ensures SortedBy(le, Sort(le, s))
  {
    if s != [] {
      var rest := s[..|s| - 1];
      SortSorts(le, rest);
      InsertElements(le, Sort(le, rest), s[|s| - 1]);
      InsertSorted(le, Sort(le, rest), s[|s| - 1]);
      assert s == rest + [s[|s| - 1]];
    }
  }

  lemma SortMembers<T(!new)>(le: (T, T) -> bool, s: seq<T>, x: T)
    requires Total(le)
    ensures x in Sort(le, s) <==> x in s
  {
    SortSorts(le, s);
    assert x in multiset(s) <==> x in multiset(Sort(le, s));
  }

  // -------------------------------------------------------------------- strings and paths

  /** Python's order on strings. */
  predicate StrLe(a: string, b: string) {
    a == [] || (b != [] && (a[0] < b[0] || (a[0] == b[0] && StrLe(a[1..], b[1..]))))
  }

  lemma {:induction false} StrLeTotal(a: string, b: string)
    ensures StrLe(a, b) || StrLe(b, a)
    ensures StrLe(a, b) && StrLe(b, a) ==> a == b
  {
    if a != [] && b != [] && a[0] == b[0] {
      StrLeTotal(a[1..], b[1..]);
      assert a == [a[0]] + a[1..] && b == [b[0]] + b[1..];
    }
  }

  lemma {:induction false} StrLeTransitive(a: string, b: string, c: string)
    requires StrLe(a, b) && StrLe(b, c)
    ensures StrLe(a, c)
  {
    if a != [] && a[0] == b[0] == c[0] { StrLeTransitive(a[1..], b[1..], c[1..]); }
  }

  lemma StrOrder()
    ensures Total(StrLe)
  {
    forall a, b ensures StrLe(a, b) || StrLe(b, a) { StrLeTotal(a, b); }
    forall a, b, c | StrLe(a, b) && StrLe(b, c) ensures StrLe(a, c) { StrLeTransitive(a, b, c); }
  }

  /** Python's order on the components of a path. */
  predicate PathLe(a: seq<string>, b: seq<string>) {
    a == [] || (b != [] && if a[0] == b[0] then PathLe(a[1..], b[1..]) else StrLe(a[0], b[0]))
  }

  lemma {:induction false} PathLeTotal(a: seq<string>, b: seq<string>)
    ensures PathLe(a, b) || PathLe(b, a)
  {
    if a != [] && b != [] {
      if a[0] == b[0] { PathLeTotal(a[1..], b[1..]); } else { StrLeTotal(a[0], b[0]); }
    }
  }

  lemma {:induction false} PathLeTransitive(a: seq<string>, b: seq<string>, c: seq<string>)
    requires PathLe(a, b) && PathLe(b, c)
    ensures PathLe(a, c)
  {
    if a != [] {
      if a[0] == b[0] == c[0] {
        PathLeTransitive(a[1..], b[1..], c[1..]);
      } else if a[0] != b[0] && b[0] != c[0] {
        StrLeTransitive(a[0], b[0], c[0]);
        StrLeTotal(a[0], b[0]);
      }
    }
  }

  lemma PathOrder()
    ensures Total(PathLe)
  {
    forall a, b ensures PathLe(a, b) || PathLe(b, a) { PathLeTotal(a, b); }
    forall a, b, c | PathLe(a, b) && PathLe(b, c) ensures PathLe(a, c) { PathLeTransitive(a, b, c); }
  }
}
