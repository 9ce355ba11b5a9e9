/** Stable sorting by a strict weak order, and the order of strings. */
module Ordering {

  function Insert<T>(x: T, s: seq<T>, lt: (T, T) -> bool): seq<T> {
    if s != [] && lt(s[0], x) then [s[0]] + Insert(x, s[1..], lt) else [x] + s
  }

  function Sort<T>(s: seq<T>, lt: (T, T) -> bool): seq<T> {
    if s == [] then [] else Insert(s[0], Sort(s[1..], lt), lt)
  }

  ghost predicate StrictWeak<T(!new)>(lt: (T, T) -> bool) {
    && (forall x, y :: lt(x, y) ==> !lt(y, x))
    && (forall x, y, z :: !lt(x, y) && !lt(y, z) ==> !lt(x, z))
  }

  /** Distinct elements are always told apart. */
  ghost predicate Total<T(!new)>(lt: (T, T) -> bool) {
    StrictWeak(lt) && forall x, y :: lt(x, y) || lt(y, x) || x == y
  }

  /** The order tells these elements apart, if no others. */
  ghost predicate TellsApart<T>(s: seq<T>, lt: (T, T) -> bool) {
    forall x, y :: x in s && y in s ==> lt(x, y) || lt(y, x) || x == y
  }

  ghost predicate Ascending<T>(s: seq<T>, lt: (T, T) -> bool) {
    forall i, k :: 0 <= i < k < |s| ==> !lt(s[k], s[i])
  }

  lemma {:induction false} InsertKeeps<T>(x: T, s: seq<T>, lt: (T, T) -> bool)
    ensures multiset(Insert(x, s, lt)) == multiset{x} + multiset(s)
  {
    if s != [] && lt(s[0], x) {
      InsertKeeps(x, s[1..], lt);
      assert s == [s[0]] + s[1..];
    }
  }

  lemma {:induction false} SortKeeps<T>(s: seq<T>, lt: (T, T) -> bool)
    ensures multiset(Sort(s, lt)) == multiset(s)
  {
    if s != [] {
      SortKeeps(s[1..], lt);
      InsertKeeps(s[0], Sort(s[1..], lt), lt);
      assert s == [s[0]] + s[1..];
    }
  }

  lemma {:induction false} InsertAscends<T(!new)>(x: T, s: seq<T>, lt: (T, T) -> bool)
    requires StrictWeak(lt) && Ascending(s, lt)
    ensures Ascending(Insert(x, s, lt), lt)
  {
    if s != [] && lt(s[0], x) {
      InsertAscends(x, s[1..], lt);
      InsertKeeps(x, s[1..], lt);
      var r := Insert(x, s[1..], lt);
      forall k | 0 <= k < |r|
        ensures !lt(r[k], s[0])
      {
        assert r[k] in multiset(r);
        if r[k] != x {
          assert r[k] in s[1..];
        }
      }
    }
  }

  lemma {:induction false} SortAscends<T(!new)>(s: seq<T>, lt: (T, T) -> bool)
    requires StrictWeak(lt)
    ensures Ascending(Sort(s, lt), lt)
  {
    if s != [] {
      SortAscends(s[1..], lt);
      InsertAscends(s[0], Sort(s[1..], lt), lt);
    }
  }

  lemma SortMembers<T>(s: seq<T>, lt: (T, T) -> bool, x: T)
    ensures x in Sort(s, lt) <==> x in s
    ensures |Sort(s, lt)| == |s|
  {
    SortKeeps(s, lt);
    assert x in Sort(s, lt) <==> x in multiset(Sort(s, lt));
    assert |multiset(Sort(s, lt))| == |multiset(s)|;
  }

  predicate Distinct<T(==)>(s: seq<T>) {
    forall i, k :: 0 <= i < k < |s| ==> s[i] != s[k]
  }

  lemma {:induction false} DistinctByCount<T>(s: seq<T>)
    ensures Distinct(s) <==> forall x :: x in s ==> multiset(s)[x] == 1
  {
    if s != [] {
      DistinctByCount(s[1..]);
      assert s == [s[0]] + s[1..];
      assert multiset(s)[s[0]] == 1 + multiset(s[1..])[s[0]];
      if Distinct(s) {
        assert Distinct(s[1..]);
        assert s[0] !in s[1..];
      }
      if forall x :: x in s ==> multiset(s)[x] == 1 {
        assert s[0] !in s[1..];
        forall x | x in s[1..]
          ensures multiset(s[1..])[x] == 1
        {
          assert x in s && x != s[0];
        }
        forall i, k | 0 <= i < k < |s|
          ensures s[i] != s[k]
        {
          assert s[k] == s[1..][k - 1];
          if i > 0 { assert s[i] == s[1..][i - 1]; }
        }
      }
    }
  }

  lemma SortDistinct<T>(s: seq<T>, lt: (T, T) -> bool)
    requires Distinct(s)
    ensures Distinct(Sort(s, lt))
  {
    SortKeeps(s, lt);
    DistinctByCount(s);
    DistinctByCount(Sort(s, lt));
    forall x | x in Sort(s, lt)
      ensures multiset(Sort(s, lt))[x] == 1
    {
      SortMembers(s, lt, x);
    }
  }

  lemma DropFirst<T>(s: seq<T>)
    requires s != []
    ensures multiset(s[1..]) == multiset(s) - multiset{s[0]}
  {
    assert s == [s[0]] + s[1..];
  }

  lemma LeastFirst<T(!new)>(s: seq<T>, lt: (T, T) -> bool, x: T)
    requires StrictWeak(lt) && Ascending(s, lt) && x in s
    ensures !lt(x, s[0])
  {
    var i :| 0 <= i < |s| && s[i] == x;
  }

  lemma SameFirst<T(!new)>(s: seq<T>, t: seq<T>, lt: (T, T) -> bool)
    requires StrictWeak(lt) && TellsApart(s, lt) && Ascending(s, lt) && Ascending(t, lt)
    requires s != [] && t != [] && s[0] in t && t[0] in s
    ensures s[0] == t[0]
  {
    LeastFirst(s, lt, t[0]);
    LeastFirst(t, lt, s[0]);
  }

  lemma TailToo<T(!new)>(s: seq<T>, lt: (T, T) -> bool)
    requires s != [] && Ascending(s, lt)
    ensures Ascending(s[1..], lt) && (TellsApart(s, lt) ==> TellsApart(s[1..], lt))
  {
  }

  lemma HeadsAreMembers<T>(s: seq<T>, t: seq<T>)
    requires s != [] && multiset(s) == multiset(t)
    ensures t != [] && s[0] in t && t[0] in s
  {
    assert s[0] in multiset(t);
    assert t != [];
    assert t[0] in multiset(s);
  }

  /** Where the order tells the elements apart, the sorted form depends on
      them only. */
  lemma {:induction false} AscendingUnique<T(!new)>(s: seq<T>, t: seq<T>, lt: (T, T) -> bool)
    requires StrictWeak(lt) && TellsApart(s, lt) && Ascending(s, lt) && Ascending(t, lt) && multiset(s) == multiset(t)
    ensures s == t
  {
    hide StrictWeak;
    hide Ascending;
    hide TellsApart;
    if s == [] {
      assert |multiset(t)| == 0;
    } else {
      HeadsAreMembers(s, t);
      SameFirst(s, t, lt);
      DropFirst(s);
      DropFirst(t);
      TailToo(s, lt);
      TailToo(t, lt);
      AscendingUnique(s[1..], t[1..], lt);
      assert s == [s[0]] + s[1..] && t == [t[0]] + t[1..];
    }
  }

  lemma SortCanonical<T(!new)>(s: seq<T>, t: seq<T>, lt: (T, T) -> bool)
    requires StrictWeak(lt) && TellsApart(s, lt)
    ensures multiset(s) == multiset(t) <==> Sort(s, lt) == Sort(t, lt)
  {
    SortKeeps(s, lt);
    SortKeeps(t, lt);
    SortAscends(s, lt);
    SortAscends(t, lt);
    if multiset(s) == multiset(t) {
      forall x, y | x in Sort(s, lt) && y in Sort(s, lt)
        ensures lt(x, y) || lt(y, x) || x == y
      {
        SortMembers(s, lt, x);
        SortMembers(s, lt, y);
      }
      AscendingUnique(Sort(s, lt), Sort(t, lt), lt);
    }
  }

  // ---- strings ----

  /** The order of strings by code points. */
  predicate StrLess(a: string, b: string) {
    if b == "" then false
    else if a == "" then true
    else a[0] < b[0] || (a[0] == b[0] && StrLess(a[1..], b[1..]))
  }

  lemma {:induction false} StrLessTotal(a: string, b: string)
    ensures StrLess(a, b) ==> !StrLess(b, a)
    ensures StrLess(a, b) || StrLess(b, a) || a == b
  {
    if a != "" && b != "" && a[0] == b[0] {
      StrLessTotal(a[1..], b[1..]);
      assert a == [a[0]] + a[1..] && b == [b[0]] + b[1..];
    }
  }

  lemma {:induction false} StrLessNegTrans(a: string, b: string, d: string)
    requires !StrLess(a, b) && !StrLess(b, d)
    ensures !StrLess(a, d)
  {
    if a != "" && b != "" && d != "" && a[0] == b[0] == d[0] {
      StrLessNegTrans(a[1..], b[1..], d[1..]);
    }
  }

  lemma StrOrder()
    ensures Total(StrLess)
  {
    forall a, b
      ensures StrLess(a, b) ==> !StrLess(b, a)
      ensures StrLess(a, b) || StrLess(b, a) || a == b
    {
      StrLessTotal(a, b);
    }
    forall a, b, d | !StrLess(a, b) && !StrLess(b, d)
      ensures !StrLess(a, d)
    {
      StrLessNegTrans(a, b, d);
    }
  }
}
