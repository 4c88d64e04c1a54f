/** The ranking of the combined Asset list: newest first, then stably by a usefulness penalty. */
module Ranking {
  import opened Text
  import opened Json
  import opened Numbers
  import opened StableSort

  /** What the ranking looks at: the two timestamps (0 when missing), the usefulness statistics of the metadata,
      and the usage summary of its provenance. */
  datatype Item = Item(id: string, createdAt: nat, updatedAt: nat, usefulness: Json, usageSummary: Json)

  predicate AllDigits(s: string) { s != "" && forall i :: 0 <= i < |s| ==> '0' <= s[i] <= '9' }

  /** `_int_stat`: a count read leniently, never negative. */
  function IntStat(stats: Object, key: string): nat {
    match Get(stats, key)
    case JInt(i) => if i > 0 then i else 0
    case JReal(r) => if r > 0.0 then r.Floor else 0
    case JStr(s) => if AllDigits(Strip(s)) then Value(Strip(s)) else 0
    case _ => 0
  }

  function Stats(item: Item): Object {
    if item.usefulness.JObj? then item.usefulness.fields
    else if item.usageSummary.JObj? then item.usageSummary.fields
    else map[]
  }

  function Penalty(item: Item): int {
    var stats := Stats(item);
    var used := IntStat(stats, "used_count") + IntStat(stats, "useful_count");
    IntStat(stats, "harmful_count") * 10 + IntStat(stats, "irrelevant_count") * 4
    - IntStat(stats, "promoted_count") * 2 - Min(used, 3)
  }

  function Stamp(item: Item): nat { if item.updatedAt != 0 then item.updatedAt else item.createdAt }

  /** Sorting by this key lists the newest first and keeps ties in place, as a reversed stable sort does. */
  function Age(item: Item): int { 0 - Stamp(item) }

  function Ranked(items: seq<Item>): seq<Item> { SortBy(Penalty, SortBy(Age, items)) }

  // ---- order of a filtered list ----

  lemma {:induction false} FilterOrder<T(!new)>(key: T -> int, p: T -> bool, s: seq<T>, i: nat, j: nat)
    requires Sorted(key, Filter(p, s)) && i < j < |s| && p(s[i]) && p(s[j])
    ensures key(s[i]) <= key(s[j])
  {
    var rest := s[1..];
    var tail := Filter(p, rest);
    if i == 0 {
      FilterMember(p, rest, s[j]);
      assert rest[j - 1] == s[j];
      var k :| 0 <= k < |tail| && tail[k] == s[j];
      assert Filter(p, s)[0] == s[0] && Filter(p, s)[k + 1] == s[j];
    } else {
      var shift := |Filter(p, s)| - |tail|;
      forall a, b | 0 <= a < b < |tail| ensures key(tail[a]) <= key(tail[b]) {
        assert Filter(p, s)[a + shift] == tail[a] && Filter(p, s)[b + shift] == tail[b];
      }
      FilterOrder(key, p, rest, i - 1, j - 1);
    }
  }

  lemma {:induction false} FilterBoth<T>(p: T -> bool, q: T -> bool, r: T -> bool, s: seq<T>)
    requires forall x :: x in s ==> (r(x) <==> p(x) && q(x))
    ensures Filter(q, Filter(p, s)) == Filter(r, s)
  {
    if s != [] {
      FilterBoth(p, q, r, s[1..]);
      assert Filter(p, s) == if p(s[0]) then [s[0]] + Filter(p, s[1..]) else Filter(p, s[1..]);
      if p(s[0]) {
        assert ([s[0]] + Filter(p, s[1..]))[1..] == Filter(p, s[1..]);
      }
    }
  }

  // ---- the ranking ----

  function WithPenalty(k: int): Item -> bool { (x: Item) => Penalty(x) == k }
  function WithAge(a: int): Item -> bool { (x: Item) => Age(x) == a }
  /** The items the ranking cannot tell apart. */
  function Tied(k: int, a: int): Item -> bool { (x: Item) => Penalty(x) == k && Age(x) == a }

  lemma GroupIsFilter(key: Item -> int, p: Item -> bool, k: int, s: seq<Item>)
    requires forall x :: p(x) <==> key(x) == k
    ensures Group(key, k, s) == Filter(p, s)
  {
    FilterSame(x => key(x) == k, p, s);
  }

  lemma {:induction false} FilterSame<T(!new)>(p: T -> bool, q: T -> bool, s: seq<T>)
    requires forall x :: p(x) <==> q(x)
    ensures Filter(p, s) == Filter(q, s)
  {
    if s != [] {
      FilterSame(p, q, s[1..]);
    }
  }

  ghost predicate RankedOrder(t: seq<Item>) {
    forall i, j :: 0 <= i < j < |t| ==>
      Penalty(t[i]) < Penalty(t[j]) || (Penalty(t[i]) == Penalty(t[j]) && Stamp(t[i]) >= Stamp(t[j]))
  }

  /** A ranked list is a permutation of the items, ordered by penalty and then newest first, with tied items in
      their original order. */
  lemma RankedSound(items: seq<Item>)
    ensures multiset(Ranked(items)) == multiset(items)
    ensures RankedOrder(Ranked(items))
    ensures forall k, a :: Filter(Tied(k, a), Ranked(items)) == Filter(Tied(k, a), items)
  {
    hide Penalty, Stamp;
    var byAge := SortBy(Age, items);
    var t := Ranked(items);
    SortFacts(Age, items);
    SortFacts(Penalty, byAge);
    forall i, j | 0 <= i < j < |t| && Penalty(t[i]) == Penalty(t[j]) ensures Stamp(t[i]) >= Stamp(t[j]) {
      var p := WithPenalty(Penalty(t[i]));
      FilterSorted(Age, p, byAge);
      FilterPenalties(Penalty(t[i]), byAge);
      SortStable(Penalty, byAge, p);
      FilterOrder(Age, p, t, i, j);
    }
    forall k, a ensures Filter(Tied(k, a), t) == Filter(Tied(k, a), items) {
      TiedSorted(k, a, byAge);
      SortStable(Penalty, byAge, Tied(k, a));
      TiedSorted(k, a, items);
      SortStable(Age, items, Tied(k, a));
    }
  }

  /** The listing of everything asked for: a permutation, ordered by penalty and then newest first, with tied items in
      the order in which they were collected. */
  method CombinedItems(known: seq<Item>, records: seq<Item>, candidates: seq<Item>, includeCandidates: bool)
    returns (items: seq<Item>)
    ensures var all := known + records + if includeCandidates then candidates else [];
            && multiset(items) == multiset(all) && RankedOrder(items)
            && forall k, a :: Filter(Tied(k, a), items) == Filter(Tied(k, a), all)
  {
    items := known + records;
    if includeCandidates {
      items := items + candidates;
    }
    assert includeCandidates || items == known + records + [];
    RankedSound(items);
    items := SortBy(Age, items);
    items := SortBy(Penalty, items);
  }

  lemma FilterPenalties(k: int, s: seq<Item>)
    ensures Sorted(Penalty, Filter(WithPenalty(k), s))
  {
    forall x | x in Filter(WithPenalty(k), s) ensures Penalty(x) == k {
      FilterMember(WithPenalty(k), s, x);
    }
  }

  lemma TiedSorted(k: int, a: int, s: seq<Item>)
    ensures Sorted(Penalty, Filter(Tied(k, a), s)) && Sorted(Age, Filter(Tied(k, a), s))
  {
    hide Penalty, Age;
    forall x | x in Filter(Tied(k, a), s) ensures Penalty(x) == k && Age(x) == a {
      FilterMember(Tied(k, a), s, x);
    }
  }

  /** These properties determine the ranking: any list that has them is the ranked list. */
  lemma RankedUnique(items: seq<Item>, t: seq<Item>)
    requires RankedOrder(t) && forall k, a :: Filter(Tied(k, a), t) == Filter(Tied(k, a), items)
    ensures t == Ranked(items)
  {
    hide Penalty, Stamp;
    var byAge := SortBy(Age, items);
    SortFacts(Age, items);
    forall k ensures Group(Penalty, k, t) == Group(Penalty, k, byAge) {
      PenaltyGroup(items, t, k);
      GroupIsFilter(Penalty, WithPenalty(k), k, t);
      GroupIsFilter(Penalty, WithPenalty(k), k, byAge);
    }
    SortUnique(Penalty, byAge, t);
  }

  lemma {:induction false} FilterSortedPairs(k: int, t: seq<Item>)
    requires RankedOrder(t)
    ensures Sorted(Age, Filter(WithPenalty(k), t))
  {
    hide Penalty, Stamp;
    if t != [] {
      FilterSortedPairs(k, t[1..]);
      forall x | x in Filter(WithPenalty(k), t[1..]) && Penalty(t[0]) == k ensures Age(t[0]) <= Age(x) {
        FilterMember(WithPenalty(k), t[1..], x);
        var i :| 0 <= i < |t[1..]| && t[1..][i] == x;
        assert t[i + 1] == x;
      }
    }
  }

  lemma PenaltyGroup(items: seq<Item>, t: seq<Item>, k: int)
    requires RankedOrder(t) && forall k, a :: Filter(Tied(k, a), t) == Filter(Tied(k, a), items)
    ensures Filter(WithPenalty(k), t) == Filter(WithPenalty(k), SortBy(Age, items))
  {
    hide Penalty, Stamp, Age;
    var byAge := SortBy(Age, items);
    var p := WithPenalty(k);
    SortFacts(Age, items);
    FilterSortedPairs(k, t);
    FilterSorted(Age, p, byAge);
    forall a ensures Group(Age, a, Filter(p, t)) == Group(Age, a, Filter(p, byAge)) {
      GroupIsFilter(Age, WithAge(a), a, Filter(p, t));
      GroupIsFilter(Age, WithAge(a), a, Filter(p, byAge));
      FilterBoth(p, WithAge(a), Tied(k, a), t);
      FilterBoth(p, WithAge(a), Tied(k, a), byAge);
      TiedSorted(k, a, items);
      SortStable(Age, items, Tied(k, a));
    }
    SortedByGroups(Age, Filter(p, t), Filter(p, byAge));
  }

  // ---- harmful items sink ----

  predicate Marked(item: Item) {
    IntStat(Stats(item), "harmful_count") > 0 || IntStat(Stats(item), "irrelevant_count") > 0
  }

  predicate Promoted(item: Item) { IntStat(Stats(item), "promoted_count") > 0 }

  /** An item marked harmful or irrelevant and never promoted comes after every unmarked item, however often either
      was used. */
  lemma MarkedItemsSink(items: seq<Item>, i: nat, j: nat)
    requires i < |items| && j < |items|
    requires var t := Ranked(items); |t| == |items| && Marked(t[i]) && !Promoted(t[i]) && !Marked(t[j])
    ensures j < i
  {
    RankedSound(items);
    var t := Ranked(items);
    assert Penalty(t[i]) >= 1;
    assert Penalty(t[j]) <= 0;
  }

  // ---- what a mark weighs ----

  /** A count: a number without its fraction and not below 0, a decimal with any blanks around it, otherwise nothing. */
  lemma CountsRead(stats: Object, key: string, n: nat, a: string, b: string)
    requires All(IsSpace, a) && All(IsSpace, b)
    ensures Get(stats, key) == JInt(n) ==> IntStat(stats, key) == n
    ensures forall i :: Get(stats, key) == JInt(i) && i < 0 ==> IntStat(stats, key) == 0
    ensures forall r :: Get(stats, key) == JReal(r) && n as real <= r < n as real + 1.0 ==> IntStat(stats, key) == n
    ensures forall r :: Get(stats, key) == JReal(r) && r < 0.0 ==> IntStat(stats, key) == 0
    ensures Get(stats, key) == JStr(a + Decimal(n) + b) ==> IntStat(stats, key) == n
    ensures Get(stats, key) in {JNull, JBool(true), JBool(false)} || Get(stats, key).JArr? || Get(stats, key).JObj? ==>
              IntStat(stats, key) == 0
  {
    DecimalFacts(n);
    assert Trimmed(Decimal(n));
    StripAround(a, Decimal(n), b);
    hide Strip, Decimal, Value;
  }

  /** A text with anything but digits in it counts nothing. */
  lemma TextNotCounted(stats: Object, key: string, s: string)
    requires Get(stats, key) == JStr(s)
    requires Strip(s) == "" || exists c :: c in Strip(s) && c !in DIGITS
    ensures IntStat(stats, key) == 0
  {
    hide Strip;
    if c :| c in Strip(s) && c !in DIGITS {
      DigitsListed(c);
    }
  }

  /** The item with one more of a count, its statistics being in the metadata. */
  function OneMore(item: Item, stats: Object, key: string): Item {
    item.(usefulness := JObj(stats[key := JInt(IntStat(stats, key) + 1)]))
  }

  /** One more harmful mark moves an item down by 10, an irrelevant one by 4, a promotion up by 2; a use moves it up by 1,
      but only the first three uses do; nothing else counts. An item without counts is at 0. */
  lemma MarksWeigh(item: Item, stats: Object, other: string, value: Json)
    requires item.usefulness == JObj(stats)
    ensures Penalty(OneMore(item, stats, "harmful_count")) == Penalty(item) + 10
    ensures Penalty(OneMore(item, stats, "irrelevant_count")) == Penalty(item) + 4
    ensures Penalty(OneMore(item, stats, "promoted_count")) == Penalty(item) - 2
    ensures var uses := IntStat(stats, "used_count") + IntStat(stats, "useful_count");
            && Penalty(OneMore(item, stats, "used_count")) == Penalty(item) - (if uses < 3 then 1 else 0)
            && Penalty(OneMore(item, stats, "useful_count")) == Penalty(item) - (if uses < 3 then 1 else 0)
    ensures other !in {"harmful_count", "irrelevant_count", "promoted_count", "used_count", "useful_count"} ==>
              Penalty(item.(usefulness := JObj(stats[other := value]))) == Penalty(item)
    ensures stats == map[] ==> Penalty(item) == 0
  {
    hide Penalty, OneMore, IntStat;
    UsesWeigh(item, stats);
    OneWeighs(item, stats, "harmful_count");
    OneWeighs(item, stats, "irrelevant_count");
    OneWeighs(item, stats, "promoted_count");
    if other !in {"harmful_count", "irrelevant_count", "promoted_count", "used_count", "useful_count"} {
      NoneElseWeighs(item, stats, other, value);
    }
    NoCounts(item);
  }

  lemma OneWeighs(item: Item, stats: Object, key: string)
    requires item.usefulness == JObj(stats) && key in {"harmful_count", "irrelevant_count", "promoted_count"}
    ensures Penalty(OneMore(item, stats, key)) - Penalty(item)
         == if key == "harmful_count" then 10 else if key == "irrelevant_count" then 4 else -2
  {
    OneMoreCounts(stats, key);
    hide IntStat;
  }

  lemma NoneElseWeighs(item: Item, stats: Object, other: string, value: Json)
    requires item.usefulness == JObj(stats)
    requires other !in {"harmful_count", "irrelevant_count", "promoted_count", "used_count", "useful_count"}
    ensures Penalty(item.(usefulness := JObj(stats[other := value]))) == Penalty(item)
  {
    OtherCounts(stats, other, value);
    hide IntStat;
  }

  lemma UsesWeigh(item: Item, stats: Object)
    requires item.usefulness == JObj(stats)
    ensures var uses := IntStat(stats, "used_count") + IntStat(stats, "useful_count");
            && Penalty(OneMore(item, stats, "used_count")) == Penalty(item) - (if uses < 3 then 1 else 0)
            && Penalty(OneMore(item, stats, "useful_count")) == Penalty(item) - (if uses < 3 then 1 else 0)
  {
    OneMoreCounts(stats, "used_count");
    OneMoreCounts(stats, "useful_count");
    hide IntStat;
  }

  lemma OneMoreCounts(stats: Object, key: string)
    ensures var more := stats[key := JInt(IntStat(stats, key) + 1)];
            && IntStat(more, key) == IntStat(stats, key) + 1
            && forall other :: other != key ==> IntStat(more, other) == IntStat(stats, other)
  {
    hide Strip, Value;
  }

  lemma OtherCounts(stats: Object, key: string, value: Json)
    ensures forall other :: other != key ==> IntStat(stats[key := value], other) == IntStat(stats, other)
  {
    hide Strip, Value;
  }

  lemma NoCounts(item: Item)
    ensures item.usefulness == JObj(map[]) ==> Penalty(item) == 0
  {
  }

  /** The statistics of the metadata come first; only without them does the usage summary of the provenance count. */
  lemma SummaryStandsIn(item: Item, stats: Object)
    ensures item.usefulness == JObj(stats) ==> Penalty(item) == Penalty(Item("", 0, 0, JObj(stats), JNull))
    ensures !item.usefulness.JObj? && item.usageSummary == JObj(stats) ==>
              Penalty(item) == Penalty(Item("", 0, 0, JObj(stats), JNull))
    ensures !item.usefulness.JObj? && !item.usageSummary.JObj? ==> Penalty(item) == 0
  {
    hide Strip, Value, AllDigits;
  }

  /** Among items of equal penalty the later update comes first; an item never updated counts as updated when it was
      created. */
  lemma NewerFirst(items: seq<Item>, i: nat, j: nat)
    requires i < j < |Ranked(items)| && Penalty(Ranked(items)[i]) == Penalty(Ranked(items)[j])
    ensures var x, y := Ranked(items)[i], Ranked(items)[j];
            && (x.updatedAt != 0 && y.updatedAt != 0 ==> x.updatedAt >= y.updatedAt)
            && (x.updatedAt == 0 && y.updatedAt != 0 ==> x.createdAt >= y.updatedAt)
            && (x.updatedAt != 0 && y.updatedAt == 0 ==> x.updatedAt >= y.createdAt)
            && (x.updatedAt == 0 && y.updatedAt == 0 ==> x.createdAt >= y.createdAt)
  {
    RankedSound(items);
    hide Penalty, Ranked;
  }
}
