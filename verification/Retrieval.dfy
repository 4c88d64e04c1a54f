/** Retrieval evaluation: which expected Asset ids the top retrieved items account for. */
module Retrieval {
  import opened Text
  import opened Keyed
  import opened StableSort
  import opened RegistryModel
  import opened BatchReviews

  /** The fields of a retrieved item that may name an Asset; absent fields are "". */
  datatype Item = Item(
    id: string, registryId: string, candidateId: string, memoryId: string, assetId: string,
    sourceAssetCandidateId: string, sourceCandidateId: string)

  function Fields(item: Item): seq<string> {
    [item.id, item.registryId, item.candidateId, item.memoryId, item.assetId,
     item.sourceAssetCandidateId, item.sourceCandidateId]
  }

  /** The part after the first colon of a value that has one. */
  function AfterColon(value: string): seq<string> {
    if value == "" then [] else if value[0] == ':' then [value[1..]] else AfterColon(value[1..])
  }

  function Suffixes(values: seq<string>): seq<string> {
    if values == [] then [] else AfterColon(values[0]) + Suffixes(values[1..])
  }

  function IdentityValues(item: Item): seq<string> { Fields(item) + Suffixes(Fields(item)) }

  function Normal(value: string): string { Lower(Strip(value)) }

  predicate Matches(item: Item, expected: string) {
    Normal(expected) != "" && exists v :: v in IdentityValues(item) && Normal(v) == Normal(expected)
  }

  predicate AnyMatches(items: seq<Item>, expected: string) { exists i :: 0 <= i < |items| && Matches(items[i], expected) }

  function MatchedBy(items: seq<Item>): string -> bool { (e: string) => AnyMatches(items, e) }

  function NotIn(ids: seq<string>): string -> bool { (e: string) => e !in ids }

  function RetrievedIds(items: seq<Item>): seq<string> {
    if items == [] then [] else
      var last := items[|items| - 1];
      RetrievedIds(items[..|items| - 1]) + (if Strip(last.id) != "" then [Strip(last.id)] else [])
  }

  function Top<T>(k: nat, s: seq<T>): seq<T> { if k < |s| then s[..k] else s }

  /** Precision and recall are the exact ratios; the service rounds them to four digits. */
  datatype Evaluation = Evaluation(
    expected: seq<string>, retrieved: seq<string>, matched: seq<string>, missing: seq<string>, precision: real, recall: real)

  function Ratio(a: nat, b: nat): real { if b == 0 then 0.0 else a as real / b as real }

  function Evaluate(expectedIds: seq<string>, assets: seq<Item>, topK: nat): Evaluation {
    var expected := UniqueIds(expectedIds);
    var items := Top(topK, assets);
    var retrieved := RetrievedIds(items);
    var matched := Filter(MatchedBy(items), expected);
    var missing := Filter(NotIn(matched), expected);
    Evaluation(expected, retrieved, matched, missing, Ratio(|matched|, |retrieved|), Ratio(|matched|, |expected|))
  }

  // ---- what matches, and what is counted ----

  /** One of the seven values that may name the Asset, or what follows the first colon of one. */
  ghost predicate IsNamed(item: Item, name: string) {
    exists v :: v in {item.id, item.registryId, item.candidateId, item.memoryId, item.assetId, item.sourceAssetCandidateId,
                      item.sourceCandidateId}
                && (v == name || FollowsColon(v, name))
  }

  ghost predicate FollowsColon(v: string, rest: string) { exists a :: ':' !in a && v == a + ":" + rest }

  lemma {:induction false} AfterColonExactly(v: string, rest: string)
    ensures rest in AfterColon(v) <==> FollowsColon(v, rest)
  {
    if v != "" {
      if v[0] == ':' {
        assert v == "" + ":" + v[1..];
        if a :| ':' !in a && v == a + ":" + rest {
          assert a == "";
        }
      } else {
        AfterColonExactly(v[1..], rest);
        if a :| ':' !in a && v[1..] == a + ":" + rest {
          assert v == [v[0]] + a + ":" + rest;
        }
        if a :| ':' !in a && v == a + ":" + rest {
          assert a != "" && v[1..] == a[1..] + ":" + rest;
        }
      }
    }
  }

  lemma {:induction false} SuffixesExactly(values: seq<string>, rest: string)
    ensures rest in Suffixes(values) <==> exists v :: v in values && FollowsColon(v, rest)
  {
    hide FollowsColon, AfterColon;
    if values != [] {
      AfterColonExactly(values[0], rest);
      SuffixesExactly(values[1..], rest);
      assert forall v :: v in values <==> v == values[0] || v in values[1..];
    }
  }

  /** An item accounts for an expected id when, blanks around it and case aside, that is not empty and one of its names. */
  lemma MatchesExactly(item: Item, expected: string)
    ensures Matches(item, expected) <==>
            Lower(Strip(expected)) != "" && exists name :: IsNamed(item, name) && Lower(Strip(name)) == Lower(Strip(expected))
  {
    hide Lower, Strip, Suffixes, FollowsColon;
    forall name ensures name in IdentityValues(item) <==> IsNamed(item, name) {
      SuffixesExactly(Fields(item), name);
      FieldsAre(item);
    }
    hide IsNamed, IdentityValues;
  }

  lemma FieldsAre(item: Item)
    ensures forall v :: v in Fields(item) <==>
              v in {item.id, item.registryId, item.candidateId, item.memoryId, item.assetId, item.sourceAssetCandidateId,
                    item.sourceCandidateId}
  {
  }

  /** What is evaluated: the first items up to the limit, their ids that are not blank in order, and the two ratios. */
  lemma EvaluationCounts(expectedIds: seq<string>, assets: seq<Item>, topK: nat)
    ensures var e, items := Evaluate(expectedIds, assets, topK), Top(topK, assets);
            && items <= assets && |items| == (if topK < |assets| then topK else |assets|)
            && (forall id :: id in e.retrieved <==> exists i :: 0 <= i < |items| && Strip(items[i].id) == id && id != "")
            && (if e.retrieved == [] then e.precision == 0.0 else e.precision * |e.retrieved| as real == |e.matched| as real)
            && (if e.expected == [] then e.recall == 0.0 else e.recall * |e.expected| as real == |e.matched| as real)
  {
    RetrievedExactly(Top(topK, assets));
    hide UniqueIds, AnyMatches, RetrievedIds, Strip, Filter;
    var e := Evaluate(expectedIds, assets, topK);
    RatioTimes(|e.matched|, |e.retrieved|);
    RatioTimes(|e.matched|, |e.expected|);
  }

  lemma RatioTimes(a: nat, b: nat)
    ensures b != 0 ==> Ratio(a, b) * b as real == a as real
  {
  }

  lemma {:induction false} RetrievedExactly(items: seq<Item>)
    ensures forall id :: id in RetrievedIds(items) <==> exists i :: 0 <= i < |items| && Strip(items[i].id) == id && id != ""
  {
    hide Strip;
    if items != [] {
      var n := |items| - 1;
      RetrievedExactly(items[..n]);
      assert forall i :: 0 <= i < n ==> items[..n][i] == items[i];
    }
  }

  // ---- filters of a list without repeats ----

  lemma {:induction false} FilterSplit<T(!new)>(p: T -> bool, q: T -> bool, s: seq<T>)
    requires forall x :: x in s ==> (q(x) <==> !p(x))
    ensures |Filter(p, s)| + |Filter(q, s)| == |s|
  {
    if s != [] {
      FilterSplit(p, q, s[1..]);
    }
  }

  lemma {:induction false} FilterNoRepeats<T(!new)>(p: T -> bool, s: seq<T>)
    requires NoRepeats(s)
    ensures NoRepeats(Filter(p, s))
  {
    if s != [] {
      FilterNoRepeats(p, s[1..]);
      FilterMember(p, s[1..], s[0]);
    }
  }

  /** Both lists without repeats: the first keeps the order of the second. */
  ghost predicate InOrder<T>(part: seq<T>, whole: seq<T>) {
    forall i, j, p, q ::
      0 <= i < j < |part| && 0 <= p < |whole| && 0 <= q < |whole| && whole[p] == part[i] && whole[q] == part[j] ==> p < q
  }

  lemma {:induction false} FilterInOrder<T(!new)>(p: T -> bool, s: seq<T>)
    requires NoRepeats(s)
    ensures InOrder(Filter(p, s), s)
  {
    var part := Filter(p, s);
    if s != [] {
      var tail := Filter(p, s[1..]);
      FilterInOrder(p, s[1..]);
      var shift := |part| - |tail|;
      forall i, j, a, b | 0 <= i < j < |part| && 0 <= a < |s| && 0 <= b < |s| && s[a] == part[i] && s[b] == part[j] ensures a < b {
        FilterMember(p, s[1..], part[j]);
        assert part[j] == tail[j - shift];
        if i >= shift {
          FilterMember(p, s[1..], part[i]);
          assert part[i] == tail[i - shift];
          assert s[1..][a - 1] == tail[i - shift] && s[1..][b - 1] == tail[j - shift];
        }
      }
    }
  }

  lemma {:induction false} FilterEither<T(!new)>(p: T -> bool, q: T -> bool, r: T -> bool, s: seq<T>)
    requires forall x :: x in s && r(x) ==> p(x) || q(x)
    ensures |Filter(r, s)| <= |Filter(p, s)| + |Filter(q, s)|
  {
    if s != [] {
      FilterEither(p, q, r, s[1..]);
    }
  }

  lemma RatioBounds(a: nat, b: nat)
    requires a <= b
    ensures 0.0 <= Ratio(a, b) <= 1.0
    ensures Ratio(a, b) == 1.0 <==> b != 0 && a == b
  {
    if b != 0 {
      var r := Ratio(a, b);
      assert r * b as real == a as real;
    }
  }

  /** The matched and the missing ids split the distinct expected ids between them, each part in request order;
      recall is a proportion, and it is 1 exactly when nothing is missing from a non-empty request. */
  lemma MatchedAndMissingPartition(expectedIds: seq<string>, assets: seq<Item>, topK: nat)
    ensures var e := Evaluate(expectedIds, assets, topK);
            && NoRepeats(e.expected) && |e.matched| + |e.missing| == |e.expected|
            && (forall k :: k in e.expected <==> k in e.matched || k in e.missing)
            && (forall k :: !(k in e.matched && k in e.missing))
            && InOrder(e.matched, e.expected) && InOrder(e.missing, e.expected)
            && (forall k :: k in e.matched <==> k in e.expected && AnyMatches(Top(topK, assets), k))
            && 0.0 <= e.recall <= 1.0
            && (e.recall == 1.0 <==> e.expected != [] && e.missing == [])
  {
    hide UniqueIds, AnyMatches, Ratio, RetrievedIds, Top;
    var e := Evaluate(expectedIds, assets, topK);
    var p := MatchedBy(Top(topK, assets));
    UniqueIdsFacts(expectedIds);
    forall k ensures (k in e.matched <==> k in e.expected && p(k)) && (k in e.missing <==> k in e.expected && k !in e.matched) {
      FilterMember(p, e.expected, k);
      FilterMember(NotIn(e.matched), e.expected, k);
    }
    FilterSplit(p, NotIn(e.matched), e.expected);
    FilterInOrder(p, e.expected);
    FilterInOrder(NotIn(e.matched), e.expected);
    RatioBounds(|e.matched|, |e.expected|);
  }

  /** An item accounts for at most one of the expected ids, and has an id when it accounts for one. */
  ghost predicate OneEach(items: seq<Item>, expected: seq<string>) {
    && (forall i, j, k ::
          0 <= i < |items| && j in expected && k in expected && Matches(items[i], j) && Matches(items[i], k) ==> j == k)
    && (forall i, k :: 0 <= i < |items| && k in expected && Matches(items[i], k) ==> Strip(items[i].id) != "")
  }

  function MatchedByOne(item: Item): string -> bool { (e: string) => Matches(item, e) }

  lemma {:induction false} MatchedAtMostRetrieved(items: seq<Item>, expected: seq<string>)
    requires NoRepeats(expected) && OneEach(items, expected)
    ensures |Filter(MatchedBy(items), expected)| <= |RetrievedIds(items)|
  {
    hide Matches, Strip;
    var matched := Filter(MatchedBy(items), expected);
    if items == [] {
      if matched != [] {
        FilterMember(MatchedBy(items), expected, matched[0]);
      }
    } else {
      var n := |items| - 1;
      var p, q := MatchedBy(items[..n]), MatchedByOne(items[n]);
      MatchedAtMostRetrieved(items[..n], expected);
      forall x | x in expected && AnyMatches(items, x) ensures p(x) || q(x) {
        var i :| 0 <= i < |items| && Matches(items[i], x);
        assert i < n ==> Matches(items[..n][i], x);
      }
      FilterEither(p, q, MatchedBy(items), expected);
      var own := Filter(q, expected);
      FilterNoRepeats(q, expected);
      if own != [] {
        FilterMember(q, expected, own[0]);
        if |own| > 1 {
          FilterMember(q, expected, own[1]);
        }
      }
    }
  }

  /** Precision is a proportion whenever every retrieved item accounts for at most one expected id and carries an id
      if it accounts for one. */
  lemma PrecisionBounded(expectedIds: seq<string>, assets: seq<Item>, topK: nat)
    requires OneEach(Top(topK, assets), UniqueIds(expectedIds))
    ensures var e := Evaluate(expectedIds, assets, topK); |e.matched| <= |e.retrieved| && 0.0 <= e.precision <= 1.0
  {
    hide UniqueIds, AnyMatches, Ratio, RetrievedIds, Top, OneEach;
    UniqueIdsFacts(expectedIds);
    MatchedAtMostRetrieved(Top(topK, assets), UniqueIds(expectedIds));
    var e := Evaluate(expectedIds, assets, topK);
    RatioBounds(|e.matched|, |e.retrieved|);
  }

  // ---- when precision exceeds 1 ----

  /** The expected ids that `item` is the first to account for. */
  function FirstMatchedBy(before: seq<Item>, item: Item): string -> bool {
    (e: string) => Matches(item, e) && !AnyMatches(before, e)
  }

  function Credit(items: seq<Item>, i: nat, expected: seq<string>): nat
    requires i < |items|
  {
    |Filter(FirstMatchedBy(items[..i], items[i]), expected)|
  }

  function Credits(items: seq<Item>, expected: seq<string>): nat {
    if items == [] then 0 else
      Credits(items[..|items| - 1], expected) + Credit(items, |items| - 1, expected)
  }

  lemma {:induction false} FilterDisjoint<T(!new)>(p: T -> bool, q: T -> bool, r: T -> bool, s: seq<T>)
    requires forall x :: x in s ==> (r(x) <==> p(x) || q(x)) && !(p(x) && q(x))
    ensures |Filter(r, s)| == |Filter(p, s)| + |Filter(q, s)|
  {
    if s != [] {
      FilterDisjoint(p, q, r, s[1..]);
    }
  }

  /** Every matched id is credited to one item, the first that accounts for it. */
  lemma {:induction false} CreditsAreMatches(items: seq<Item>, expected: seq<string>)
    ensures |Filter(MatchedBy(items), expected)| == Credits(items, expected)
  {
    hide Matches;
    if items == [] {
      FilterAll(MatchedBy(items), expected);
    } else {
      var n := |items| - 1;
      CreditsAreMatches(items[..n], expected);
      forall x ensures AnyMatches(items, x) <==> AnyMatches(items[..n], x) || Matches(items[n], x) {
        if i :| 0 <= i < |items| && Matches(items[i], x) {
          assert i < n ==> Matches(items[..n][i], x);
        }
        if i :| 0 <= i < n && Matches(items[..n][i], x) {
          assert Matches(items[i], x);
        }
      }
      FilterDisjoint(MatchedBy(items[..n]), FirstMatchedBy(items[..n], items[n]), MatchedBy(items), expected);
    }
  }

  /** Precision above 1 always shows an item that accounts for two expected ids, or for one without carrying an id. */
  lemma PrecisionExceeds(expectedIds: seq<string>, assets: seq<Item>, topK: nat)
    ensures Evaluate(expectedIds, assets, topK).precision > 1.0 ==> !OneEach(Top(topK, assets), UniqueIds(expectedIds))
  {
    hide OneEach, Evaluate;
    if OneEach(Top(topK, assets), UniqueIds(expectedIds)) {
      PrecisionBounded(expectedIds, assets, topK);
    }
  }

  ghost predicate Useful(item: Item, expected: seq<string>) { exists k :: k in expected && Matches(item, k) }

  /** Every retrieved item accounts for an expected id, and no two for the same one. */
  ghost predicate Dividing(items: seq<Item>, expected: seq<string>) {
    && (forall i :: 0 <= i < |items| ==> Useful(items[i], expected))
    && (forall i, j, k :: 0 <= i < j < |items| && k in expected ==> !(Matches(items[i], k) && Matches(items[j], k)))
  }

  /** What one item is credited with where the items divide the expected ids between them. */
  lemma OwnCredit(items: seq<Item>, expected: seq<string>)
    requires NoRepeats(expected) && Dividing(items, expected) && items != []
    ensures var n := |items| - 1;
            var c := Credit(items, n, expected);
            c >= 1
            && (c == 1 <==> forall j, k :: j in expected && k in expected && Matches(items[n], j) && Matches(items[n], k) ==> j == k)
  {
    hide Matches;
    var n := |items| - 1;
    assert Useful(items[n], expected);
    var p := FirstMatchedBy(items[..n], items[n]);
    forall x | x in expected ensures p(x) <==> Matches(items[n], x) {
      if Matches(items[n], x) {
        assert forall i :: 0 <= i < n ==> items[..n][i] == items[i];
      }
    }
    var own := Filter(p, expected);
    FilterNoRepeats(p, expected);
    forall x ensures x in own <==> x in expected && Matches(items[n], x) {
      FilterMember(p, expected, x);
    }
    if |own| > 1 {
      assert own[0] in own && own[1] in own && own[0] != own[1];
    }
  }

  lemma DividingPrefix(items: seq<Item>, expected: seq<string>)
    requires items != [] && Dividing(items, expected)
    ensures Dividing(items[..|items| - 1], expected)
  {
    hide Matches, Useful;
    var before := items[..|items| - 1];
    forall i | 0 <= i < |before| ensures Useful(before[i], expected) {
      assert before[i] == items[i];
    }
    forall i, j, k | 0 <= i < j < |before| && k in expected ensures !(Matches(before[i], k) && Matches(before[j], k)) {
      assert before[i] == items[i] && before[j] == items[j];
    }
  }

  lemma {:induction false} CreditsExceed(items: seq<Item>, expected: seq<string>)
    requires NoRepeats(expected) && Dividing(items, expected)
    ensures |RetrievedIds(items)| <= |items| <= Credits(items, expected)
    ensures |RetrievedIds(items)| < Credits(items, expected) <==> !OneEach(items, expected)
  {
    hide Matches, Strip, Credit;
    if items != [] {
      var n := |items| - 1;
      DividingPrefix(items, expected);
      CreditsExceed(items[..n], expected);
      OwnCredit(items, expected);
      OneEachLast(items, expected);
    }
  }

  lemma OneEachLast(items: seq<Item>, expected: seq<string>)
    requires items != []
    ensures var n := |items| - 1;
            OneEach(items, expected) <==>
              && OneEach(items[..n], expected)
              && (forall j, k :: j in expected && k in expected && Matches(items[n], j) && Matches(items[n], k) ==> j == k)
              && (forall k :: k in expected && Matches(items[n], k) ==> Strip(items[n].id) != "")
  {
    hide Matches, Strip;
    assert forall i :: 0 <= i < |items| - 1 ==> items[..|items| - 1][i] == items[i];
  }

  /** Where every retrieved item accounts for an expected id and no two for the same one, precision exceeds 1 exactly
      when some item carries an id and some item accounts for two expected ids or carries none. */
  lemma PrecisionExceedsExactly(expectedIds: seq<string>, assets: seq<Item>, topK: nat)
    requires Dividing(Top(topK, assets), UniqueIds(expectedIds))
    ensures var e := Evaluate(expectedIds, assets, topK);
            var items := Top(topK, assets);
            e.precision > 1.0 <==>
              (exists i :: 0 <= i < |items| && Strip(items[i].id) != "") && !OneEach(items, UniqueIds(expectedIds))
  {
    UniqueIdsFacts(expectedIds);
    CreditsExceed(Top(topK, assets), UniqueIds(expectedIds));
    CreditsAreMatches(Top(topK, assets), UniqueIds(expectedIds));
    RetrievedAny(Top(topK, assets));
    hide UniqueIds, RetrievedIds, Top, Credits, Filter, Ratio, OneEach, Dividing, Strip;
    var e := Evaluate(expectedIds, assets, topK);
    RatioAboveOne(|e.matched|, |e.retrieved|);
  }

  lemma {:induction false} RetrievedAny(items: seq<Item>)
    ensures RetrievedIds(items) != [] <==> exists i :: 0 <= i < |items| && Strip(items[i].id) != ""
  {
    hide Strip;
    if items != [] {
      var n := |items| - 1;
      RetrievedAny(items[..n]);
      assert forall i :: 0 <= i < n ==> items[..n][i] == items[i];
    }
  }

  lemma RatioAboveOne(a: nat, b: nat)
    ensures Ratio(a, b) > 1.0 <==> 0 < b < a
  {
    if b != 0 {
      var r := Ratio(a, b);
      assert r * b as real == a as real;
    }
  }

  lemma MatchesOwnField(item: Item, i: nat)
    requires i < 7 && Normal(Fields(item)[i]) != ""
    ensures Matches(item, Fields(item)[i])
  {
    hide Normal, Suffixes;
    assert IdentityValues(item)[i] == Fields(item)[i];
    assert Fields(item)[i] in IdentityValues(item);
  }

  /** Without that premise precision can exceed 1: an item whose id and registry id are both asked for counts twice. */
  lemma PrecisionAboveOne(item: Item)
    requires PlainExpected(item.id) && PlainExpected(item.registryId) && item.id != item.registryId
    ensures var e := Evaluate([item.id, item.registryId], [item], 10);
            |e.matched| == 2 && |e.retrieved| == 1 && e.precision == 2.0
  {
    hide Matches, Strip, IdentityValues, Lower;
    var ids := [item.id, item.registryId];
    UniqueIdsFixed(ids);
    MatchesOwnField(item, 0);
    MatchesOwnField(item, 1);
    assert Matches([item][0], item.id) && Matches([item][0], item.registryId);
    FilterAll(MatchedBy([item]), ids);
    assert [item][..0] == [];
    assert RetrievedIds([item]) == [item.id];
  }

  predicate PlainExpected(id: string) { id != "" && Strip(id) == id && Normal(id) != "" }
}
