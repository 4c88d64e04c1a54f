/** Python's `sorted(records, key=...)`: a stable sort by an integer key, defined by insertion. */
module StableSort {

  ghost predicate Sorted<T(!new)>(key: T -> int, s: seq<T>) {
    forall i, j :: 0 <= i < j < |s| ==> key(s[i]) <= key(s[j])
  }

  /** Puts `x` in front of the first element whose key is not smaller. */
  function Insert<T>(key: T -> int, x: T, s: seq<T>): seq<T> {
    if s == [] || key(x) <= key(s[0]) then [x] + s else [s[0]] + Insert(key, x, s[1..])
  }

  function SortBy<T>(key: T -> int, s: seq<T>): seq<T> {
    if s == [] then [] else Insert(key, s[0], SortBy(key, s[1..]))
  }

  /** The elements satisfying `p`, in order. */
  function Filter<T>(p: T -> bool, s: seq<T>): (r: seq<T>)
    ensures |r| <= |s|
  {
    if s == [] then [] else (if p(s[0]) then [s[0]] else []) + Filter(p, s[1..])
  }

  /** The elements with key `k`, in order: what stability is about. */
  ghost function Group<T(!new)>(key: T -> int, k: int, s: seq<T>): seq<T> {
    Filter(x => key(x) == k, s)
  }

  lemma Associative<T>(a: seq<T>, b: seq<T>, c: seq<T>)
    ensures a + (b + c) == (a + b) + c
  {
  }

  lemma {:induction false} FilterAppend<T>(p: T -> bool, s: seq<T>, t: seq<T>)
    ensures Filter(p, s + t) == Filter(p, s) + Filter(p, t)
  {
    if s == [] {
      assert s + t == t;
    } else {
      var rest := s[1..];
      FilterAppend(p, rest, t);
      assert (s + t)[0] == s[0] && (s + t)[1..] == rest + t;
      Associative(if p(s[0]) then [s[0]] else [], Filter(p, rest), Filter(p, t));
    }
  }

  lemma FilterOne<T>(p: T -> bool, x: T)
    ensures Filter(p, [x]) == if p(x) then [x] else []
  {
    assert [x][1..] == [];
  }

  lemma FilterLast<T>(p: T -> bool, s: seq<T>)
    requires s != []
    ensures p(s[|s| - 1]) ==> Filter(p, s) == Filter(p, s[..|s| - 1]) + [s[|s| - 1]]
    ensures !p(s[|s| - 1]) ==> Filter(p, s) == Filter(p, s[..|s| - 1])
  {
    hide Filter;
    var x := s[|s| - 1];
    var before := s[..|s| - 1];
    assert s == before + [x];
    FilterAppend(p, before, [x]);
    FilterOne(p, x);
  }

  lemma {:induction false} FilterMember<T>(p: T -> bool, s: seq<T>, x: T)
    ensures x in Filter(p, s) <==> x in s && p(x)
  {
    if s != [] {
      FilterMember(p, s[1..], x);
    }
  }

  lemma {:induction false} FilterAll<T(!new)>(p: T -> bool, s: seq<T>)
    ensures |Filter(p, s)| == |s| <==> forall x :: x in s ==> p(x)
    ensures Filter(p, s) == [] <==> forall x :: x in s ==> !p(x)
    ensures (forall x :: x in s ==> p(x)) ==> Filter(p, s) == s
  {
    if s != [] {
      FilterAll(p, s[1..]);
      assert forall x :: x in s <==> x == s[0] || x in s[1..];
    }
  }

  lemma {:induction false} FilterSorted<T(!new)>(key: T -> int, p: T -> bool, s: seq<T>)
    requires Sorted(key, s)
    ensures Sorted(key, Filter(p, s))
  {
    if s != [] {
      FilterSorted(key, p, s[1..]);
      forall x | x in Filter(p, s[1..]) ensures key(s[0]) <= key(x) {
        FilterMember(p, s[1..], x);
      }
    }
  }

  lemma {:induction false} InsertMembers<T(!new)>(key: T -> int, x: T, s: seq<T>)
    ensures |Insert(key, x, s)| == |s| + 1
    ensures forall y :: y in Insert(key, x, s) <==> y == x || y in s
  {
    if !(s == [] || key(x) <= key(s[0])) {
      var rest := s[1..];
      InsertMembers(key, x, rest);
      assert forall y :: y in s <==> y == s[0] || y in rest;
    }
  }

  lemma {:induction false} InsertSorted<T(!new)>(key: T -> int, x: T, s: seq<T>)
    requires Sorted(key, s)
    ensures Sorted(key, Insert(key, x, s))
  {
    if !(s == [] || key(x) <= key(s[0])) {
      var rest := s[1..];
      InsertSorted(key, x, rest);
      InsertMembers(key, x, rest);
      var t := Insert(key, x, rest);
      forall i | 0 <= i < |t| ensures key(s[0]) <= key(t[i]) {
        assert t[i] in t;
      }
    }
  }

  lemma {:induction false} InsertPermutes<T(!new)>(key: T -> int, x: T, s: seq<T>)
    ensures multiset(Insert(key, x, s)) == multiset(s) + multiset{x}
  {
    if !(s == [] || key(x) <= key(s[0])) {
      var rest := s[1..];
      InsertPermutes(key, x, rest);
      assert s == [s[0]] + rest;
    }
  }

  /** `SortBy` returns a sorted permutation. */
  lemma {:induction false} SortFacts<T(!new)>(key: T -> int, s: seq<T>)
    ensures Sorted(key, SortBy(key, s))
    ensures multiset(SortBy(key, s)) == multiset(s)
    ensures |SortBy(key, s)| == |s|
    ensures forall y :: y in SortBy(key, s) <==> y in s
  {
    if s != [] {
      var rest := s[1..];
      SortFacts(key, rest);
      InsertMembers(key, s[0], SortBy(key, rest));
      InsertSorted(key, s[0], SortBy(key, rest));
      InsertPermutes(key, s[0], SortBy(key, rest));
      assert s == [s[0]] + rest;
      assert forall y :: y in s <==> y == s[0] || y in rest;
    }
  }

  lemma {:induction false} InsertStable<T(!new)>(key: T -> int, x: T, s: seq<T>, p: T -> bool)
    requires forall y :: y in s && p(y) && p(x) ==> key(x) <= key(y)
    ensures Filter(p, Insert(key, x, s)) == Filter(p, [x] + s)
  {
    if s == [] || key(x) <= key(s[0]) {
    } else {
      InsertStable(key, x, s[1..], p);
      assert s == [s[0]] + s[1..];
      FilterAppend(p, [x], s);
      FilterAppend(p, [x], s[1..]);
      if p(x) {
        assert !p(s[0]);
      }
    }
  }

  /** Elements that are already in key order among themselves keep their order. */
  lemma {:induction false} SortStable<T(!new)>(key: T -> int, s: seq<T>, p: T -> bool)
    requires Sorted(key, Filter(p, s))
    ensures Filter(p, SortBy(key, s)) == Filter(p, s)
  {
    if s != [] {
      SortFacts(key, s[1..]);
      var tail := Filter(p, s[1..]);
      forall i, j | 0 <= i < j < |tail| ensures key(tail[i]) <= key(tail[j]) {
        var shift := |Filter(p, s)| - |tail|;
        assert tail[i] == Filter(p, s)[i + shift] && tail[j] == Filter(p, s)[j + shift];
      }
      SortStable(key, s[1..], p);
      forall y | y in SortBy(key, s[1..]) && p(y) && p(s[0]) ensures key(s[0]) <= key(y) {
        FilterMember(p, s[1..], y);
        var k :| 0 <= k < |tail| && tail[k] == y;
        assert Filter(p, s)[0] == s[0] && Filter(p, s)[k + 1] == y;
      }
      InsertStable(key, s[0], SortBy(key, s[1..]), p);
      FilterAppend(p, [s[0]], SortBy(key, s[1..]));
    }
  }

  lemma SortGroups<T(!new)>(key: T -> int, s: seq<T>, k: int)
    ensures Group(key, k, SortBy(key, s)) == Group(key, k, s)
  {
    var p := x => key(x) == k;
    forall x | x in Filter(p, s) ensures key(x) == k {
      FilterMember(p, s, x);
    }
    SortStable(key, s, p);
  }

  /** A list that is in order stays as it is. */
  lemma {:induction false} SortedFixed<T(!new)>(key: T -> int, s: seq<T>)
    requires Sorted(key, s)
    ensures SortBy(key, s) == s
  {
    if s != [] {
      SortedFixed(key, s[1..]);
      assert s == [s[0]] + s[1..];
    }
  }

  /** Stable sorting has one possible result: a sorted list with the groups of `s` is `SortBy(key, s)`. */
  lemma {:induction false} SortUnique<T(!new)>(key: T -> int, s: seq<T>, t: seq<T>)
    requires Sorted(key, t)
    requires forall k :: Group(key, k, t) == Group(key, k, s)
    ensures t == SortBy(key, s)
  {
    SortFacts(key, s);
    forall k ensures Group(key, k, t) == Group(key, k, SortBy(key, s)) {
      SortGroups(key, s, k);
    }
    SortedByGroups(key, t, SortBy(key, s));
  }

  lemma {:induction false} SortedByGroups<T(!new)>(key: T -> int, t: seq<T>, u: seq<T>)
    requires Sorted(key, t) && Sorted(key, u)
    requires forall k :: Group(key, k, t) == Group(key, k, u)
    ensures t == u
  {
    if t != [] {
      GroupHead(key, t, u);
    }
    if u != [] {
      GroupHead(key, u, t);
    }
    if t != [] {
      GroupStep(key, key(t[0]), t);
      GroupStep(key, key(t[0]), u);
      assert t[0] == u[0];
      forall k ensures Group(key, k, t[1..]) == Group(key, k, u[1..]) {
        GroupStep(key, k, t);
        GroupStep(key, k, u);
      }
      SortedByGroups(key, t[1..], u[1..]);
      assert t == [t[0]] + t[1..] && u == [u[0]] + u[1..];
    }
  }

  lemma GroupStep<T(!new)>(key: T -> int, k: int, t: seq<T>)
    requires t != []
    ensures key(t[0]) != k ==> Group(key, k, t) == Group(key, k, t[1..])
    ensures key(t[0]) == k ==> Group(key, k, t)[0] == t[0] && Group(key, k, t)[1..] == Group(key, k, t[1..])
  {
  }

  lemma GroupHead<T(!new)>(key: T -> int, t: seq<T>, u: seq<T>)
    requires t != [] && Sorted(key, u)
    requires forall k :: Group(key, k, t) == Group(key, k, u)
    ensures u != [] && key(u[0]) <= key(t[0])
  {
    var p := x => key(x) == key(t[0]);
    assert Group(key, key(t[0]), t) == Group(key, key(t[0]), u);
    FilterMember(p, t, t[0]);
    FilterMember(p, u, t[0]);
  }
}
