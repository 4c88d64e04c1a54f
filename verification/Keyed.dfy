/** The stores' lists of records: each record has an id and a creation time; every save sorts by that time. */
module Keyed {
  import opened StableSort

  datatype Option<+T> = None | Some(value: T)

  predicate NoRepeats<T(==)>(s: seq<T>) { forall i, j :: 0 <= i < j < |s| ==> s[i] != s[j] }

  /** `next(record for record in records if record.id == id)`. */
  function Lookup<T>(id: T -> string, s: seq<T>, k: string): Option<T> {
    if s == [] then None else if id(s[0]) == k then Some(s[0]) else Lookup(id, s[1..], k)
  }

  /** The position of the first record with id `k`, or the length of the list. */
  function Find<T>(id: T -> string, s: seq<T>, k: string): (i: nat)
    ensures i <= |s|
    ensures i < |s| ==> id(s[i]) == k
    ensures forall j :: 0 <= j < i ==> id(s[j]) != k
  {
    if s == [] || id(s[0]) == k then 0 else 1 + Find(id, s[1..], k)
  }

  /** Load, replace the first record with the same id or append, save. */
  function Upsert<T>(id: T -> string, time: T -> int, s: seq<T>, x: T): seq<T> {
    var i := Find(id, s, id(x));
    SortBy(time, if i < |s| then s[i := x] else s + [x])
  }

  predicate Has<T>(id: T -> string, s: seq<T>, k: string) { exists i :: 0 <= i < |s| && id(s[i]) == k }

  predicate Distinct<T>(id: T -> string, s: seq<T>) {
    forall i, j :: 0 <= i < j < |s| ==> id(s[i]) != id(s[j])
  }

  /** What every saved list satisfies: it is sorted by creation time and no id occurs twice. */
  ghost predicate Good<T(!new)>(id: T -> string, time: T -> int, s: seq<T>) {
    Sorted(time, s) && Distinct(id, s)
  }

  lemma {:induction false} LookupMember<T>(id: T -> string, s: seq<T>, k: string)
    ensures Lookup(id, s, k).Some? ==> Lookup(id, s, k).value in s && id(Lookup(id, s, k).value) == k
    ensures Lookup(id, s, k).Some? <==> Has(id, s, k)
    ensures Find(id, s, k) < |s| <==> Has(id, s, k)
    ensures Find(id, s, k) < |s| ==> Lookup(id, s, k) == Some(s[Find(id, s, k)])
  {
    if s != [] {
      LookupMember(id, s[1..], k);
      if id(s[0]) != k {
        if Has(id, s, k) {
          var i :| 0 <= i < |s| && id(s[i]) == k;
          assert id(s[1..][i - 1]) == k;
        }
        if Has(id, s[1..], k) {
          var i :| 0 <= i < |s[1..]| && id(s[1..][i]) == k;
          assert id(s[i + 1]) == k;
        }
      }
    }
  }

  /** In a list without repeated ids the record found under `k` is the only one with that id. */
  lemma LookupUnique<T>(id: T -> string, s: seq<T>, x: T)
    requires Distinct(id, s) && x in s
    ensures Lookup(id, s, id(x)) == Some(x)
  {
    var i :| 0 <= i < |s| && s[i] == x;
    LookupMember(id, s, id(x));
    assert Has(id, s, id(x));
    var j := Find(id, s, id(x));
    assert !(i < j) && !(j < i);
  }

  /** Without repeated ids, the members are exactly what lookups answer. */
  lemma LookupIsMember<T(!new)>(id: T -> string, s: seq<T>, x: T)
    requires Distinct(id, s)
    ensures x in s <==> Lookup(id, s, id(x)) == Some(x)
  {
    LookupMember(id, s, id(x));
    if x in s {
      LookupUnique(id, s, x);
    }
  }

  lemma {:induction false} InsertDistinct<T(!new)>(id: T -> string, time: T -> int, x: T, s: seq<T>)
    requires Distinct(id, s) && forall y :: y in s ==> id(y) != id(x)
    ensures Distinct(id, Insert(time, x, s))
  {
    if !(s == [] || time(x) <= time(s[0])) {
      var rest := s[1..];
      InsertDistinct(id, time, x, rest);
      InsertMembers(time, x, rest);
      var t := Insert(time, x, rest);
      forall i | 0 <= i < |t| ensures id(t[i]) != id(s[0]) {
        assert t[i] in t;
      }
    }
  }

  lemma {:induction false} SortDistinct<T(!new)>(id: T -> string, time: T -> int, s: seq<T>)
    requires Distinct(id, s)
    ensures Distinct(id, SortBy(time, s))
  {
    if s != [] {
      SortDistinct(id, time, s[1..]);
      SortFacts(time, s[1..]);
      InsertDistinct(id, time, s[0], SortBy(time, s[1..]));
    }
  }

  /** Choosing some of the records keeps the ids distinct. */
  lemma {:induction false} FilterDistinct<T(!new)>(id: T -> string, p: T -> bool, s: seq<T>)
    requires Distinct(id, s)
    ensures Distinct(id, Filter(p, s))
  {
    if s != [] {
      FilterDistinct(id, p, s[1..]);
      forall x | x in Filter(p, s[1..]) ensures id(x) != id(s[0]) {
        FilterMember(p, s[1..], x);
      }
    }
  }

  /** Upsert is map update: the new record answers for its id, every other id keeps its record, and the
      saved list stays sorted without repeated ids. */
  lemma UpsertIsMapUpdate<T(!new)>(id: T -> string, time: T -> int, s: seq<T>, x: T)
    requires Distinct(id, s)
    ensures Good(id, time, Upsert(id, time, s, x))
    ensures forall k :: Lookup(id, Upsert(id, time, s, x), k) == if k == id(x) then Some(x) else Lookup(id, s, k)
    ensures forall y :: y in Upsert(id, time, s, x) <==> y == x || (y in s && id(y) != id(x))
  {
    var i := Find(id, s, id(x));
    LookupMember(id, s, id(x));
    var t := if i < |s| then s[i := x] else s + [x];
    forall y ensures y in t <==> y == x || (y in s && id(y) != id(x)) {
      if y in t && y != x {
        var j :| 0 <= j < |t| && t[j] == y;
        assert s[j] == y;
      }
      if y in s && id(y) != id(x) {
        var j :| 0 <= j < |s| && s[j] == y;
        assert t[j] == y;
      }
      if i < |s| { assert t[i] == x; } else { assert t[|s|] == x; }
    }
    assert Distinct(id, t);
    SortDistinct(id, time, t);
    SortFacts(time, t);
    var u := Upsert(id, time, s, x);
    assert x in u;
    forall k ensures Lookup(id, u, k) == if k == id(x) then Some(x) else Lookup(id, s, k) {
      LookupMember(id, u, k);
      LookupMember(id, s, k);
      if k == id(x) {
        LookupUnique(id, u, x);
      } else if Lookup(id, u, k).Some? {
        LookupUnique(id, s, Lookup(id, u, k).value);
      } else if Lookup(id, s, k).Some? {
        LookupUnique(id, u, Lookup(id, s, k).value);
      }
    }
  }

  /** Replacing a record by one with the same id and creation time keeps its place in a sorted list. */
  lemma UpsertInPlace<T(!new)>(id: T -> string, time: T -> int, s: seq<T>, i: nat, x: T)
    requires Good(id, time, s) && i < |s| && id(x) == id(s[i]) && time(x) == time(s[i])
    ensures Upsert(id, time, s, x) == s[i := x]
    ensures Good(id, time, s[i := x])
  {
    assert Find(id, s, id(x)) == i by {
      var j := Find(id, s, id(x));
      LookupMember(id, s, id(x));
      assert Has(id, s, id(x));
    }
    SortedFixed(time, s[i := x]);
  }
}
