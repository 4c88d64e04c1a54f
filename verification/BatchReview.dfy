/** Batch review: the request ids it works on, and what the whole batch does compared with single reviews. */
module BatchReviews {
  import opened Text
  import opened StableSort
  import opened Keyed
  import opened RegistryModel
  import opened RegistryInvariants

  /** The de-duplicated ids are distinct, trimmed and non-blank, and they are the stripped non-blank request ids. */
  lemma {:induction false} UniqueIdsFacts(ids: seq<string>)
    ensures NoRepeats(UniqueIds(ids))
    ensures forall k :: k in UniqueIds(ids) ==> k != "" && Strip(k) == k
    ensures forall k :: k in UniqueIds(ids) <==> k != "" && exists i :: 0 <= i < |ids| && Strip(ids[i]) == k
  {
    if ids != [] {
      var n := |ids| - 1;
      UniqueIdsFacts(ids[..n]);
      StripTwice(ids[n]);
      forall k ensures k in UniqueIds(ids) <==> k != "" && exists i :: 0 <= i < |ids| && Strip(ids[i]) == k {
        if i :| 0 <= i < |ids| && Strip(ids[i]) == k {
          if i < n {
            assert Strip(ids[..n][i]) == k;
          }
        }
        if i :| 0 <= i < n && Strip(ids[..n][i]) == k {
          assert Strip(ids[i]) == k;
        }
        assert k == Strip(ids[n]) && k != "" ==> k in UniqueIds(ids);
      }
    }
  }

  /** Ids keep the order of their first occurrence: asking for more ids only appends. */
  lemma {:induction false} UniqueIdsOrdered(ids: seq<string>, more: seq<string>)
    ensures UniqueIds(ids) <= UniqueIds(ids + more)
  {
    if more == [] {
      assert ids + more == ids;
    } else {
      UniqueIdsOrdered(ids, more[..|more| - 1]);
      assert (ids + more)[..|ids + more| - 1] == ids + more[..|more| - 1];
    }
  }

  /** Ids that are already distinct, trimmed and non-blank are kept as they are. */
  lemma {:induction false} UniqueIdsFixed(ids: seq<string>)
    requires NoRepeats(ids) && forall k :: k in ids ==> k != "" && Strip(k) == k
    ensures UniqueIds(ids) == ids
  {
    hide Strip;
    if ids != [] {
      var before := ids[..|ids| - 1];
      assert forall k :: k in before ==> k in ids;
      UniqueIdsFixed(before);
      assert ids == before + [ids[|ids| - 1]];
    }
  }

  lemma NotAlias(s: string)
    requires ReviewStatus(s)
    ensures s !in REVIEW_ALIASES
  {
    assert s[|s| - 1] == 'd';
    assert "approve"[6] == 'e' && "reject"[5] == 't' && "merge"[4] == 'e' && "link"[3] == 'k';
  }

  lemma SmallLetters(s: string)
    requires ReviewStatus(s)
    ensures s != "" && forall i :: 0 <= i < |s| ==> 'a' <= s[i] <= 'z'
  {
  }

  lemma SmallLettersNormal(s: string)
    requires s != "" && forall i :: 0 <= i < |s| ==> 'a' <= s[i] <= 'z'
    ensures DashToUnderscore(Lower(Strip(s))) == s
  {
    WordNormal(s);
    assert DashToUnderscore(s) == s;
  }

  /** A normalised status normalises to itself, so no item of a batch can be refused for its status. */
  lemma NormalizeReviewStatusTwice(value: string)
    requires NormalizeReviewStatus(value).Some?
    ensures NormalizeReviewStatus(NormalizeReviewStatus(value).value) == NormalizeReviewStatus(value)
  {
    hide Strip, Lower, DashToUnderscore;
    var s := NormalizeReviewStatus(value).value;
    NotAlias(s);
    SmallLetters(s);
    SmallLettersNormal(s);
  }

  /** One review touches one candidate. */
  lemma ReviewEffect(s: Stores, candidateId: string, req: ReviewRequest, now: Time)
    requires Good(CandidateId, CandidateTime, s.candidates) && NormalizeReviewStatus(req.status).Some?
    ensures var (t, r) := ReviewCandidate(s, candidateId, req, now);
            var id := Strip(candidateId);
            var found := Lookup(CandidateId, s.candidates, id);
            && (if found.Some? then r.Ok? else r == KeyError(id))
            && Good(CandidateId, CandidateTime, t.candidates)
            && forall k :: Lookup(CandidateId, t.candidates, k) ==
                 if k == id && found.Some?
                 then Some(ReviewedCandidate(found.value, NormalizeReviewStatus(req.status).value, req, now))
                 else Lookup(CandidateId, s.candidates, k)
  {
    hide SettleReview, AppendReview, ReviewOf, ReviewResponseOf, NormalizeReviewStatus;
    var id := Strip(candidateId);
    LookupMember(CandidateId, s.candidates, id);
    var i := Find(CandidateId, s.candidates, id);
    if i < |s.candidates| {
      var c := ReviewedCandidate(s.candidates[i], NormalizeReviewStatus(req.status).value, req, now);
      UpsertIsMapUpdate(CandidateId, CandidateTime, s.candidates, c);
      SettleReviewCandidates(AppendReview(s.(candidates := SortBy(CandidateTime, s.candidates[i := c])),
                                          ReviewOf(c, |s.reviews|, req, now)), c, ReviewOf(c, |s.reviews|, req, now), now);
      AppendReviewCandidates(s.(candidates := SortBy(CandidateTime, s.candidates[i := c])),
                             ReviewOf(c, |s.reviews|, req, now));
    }
  }

  lemma SettleReviewCandidates(s: Stores, c: Candidate, r: Review, now: Time)
    ensures SettleReview(s, c, r, now).candidates == s.candidates
  {
  }

  lemma AppendReviewCandidates(s: Stores, r: Review)
    ensures AppendReview(s, r).candidates == s.candidates
  {
  }

  /** The candidate after a batch over `ids`. */
  function AfterBatch(s: Stores, ids: seq<string>, req: ReviewRequest, now: Time, k: string): Option<Candidate>
    requires NormalizeReviewStatus(req.status).Some?
  {
    var found := Lookup(CandidateId, s.candidates, k);
    if k in ids && found.Some?
    then Some(ReviewedCandidate(found.value, NormalizeReviewStatus(req.status).value, req, now))
    else found
  }

  /** What a batch over distinct trimmed ids does: exactly the known candidates are reviewed, each once and as
      it was before the batch; every other candidate is untouched; the log grows by the number reviewed. */
  lemma {:induction false} BatchFoldEffect(s: Stores, ids: seq<string>, req: ReviewRequest, now: Time)
    requires Inv(s) && NormalizeReviewStatus(req.status).Some?
    requires NoRepeats(ids) && forall k :: k in ids ==> Strip(k) == k
    ensures var (t, items) := BatchFold(s, ids, req, now);
            && |items| == |ids|
            && (forall i :: 0 <= i < |ids| ==>
                 items[i].candidateId == ids[i] &&
                 (if Has(CandidateId, s.candidates, ids[i]) then items[i].outcome.Ok?
                  else items[i].outcome == KeyError(ids[i])))
            && (forall k :: Lookup(CandidateId, t.candidates, k) == AfterBatch(s, ids, req, now, k))
            && |t.reviews| == |s.reviews| + |Filter(ItemReviewed, items)|
  {
    hide Inv, Grows, ReviewCandidate, ReviewedCandidate, NormalizeReviewStatus, Strip;
    if ids != [] {
      var n := |ids| - 1;
      BatchFoldEffect(s, ids[..n], req, now);
      BatchFoldKeeps(s, ids[..n], req, now);
      var (s1, items) := BatchFold(s, ids[..n], req, now);
      InvGood(s1);
      ReviewEffect(s1, ids[n], req, now);
      ReviewKeeps(s1, ids[n], req, now);
      var (s2, outcome) := ReviewCandidate(s1, ids[n], req, now);
      LookupMember(CandidateId, s.candidates, ids[n]);
      assert ids[n] !in ids[..n];
      FilterAppend(ItemReviewed, items, [BatchItem(ids[n], outcome)]);
      assert forall k :: k in ids <==> k in ids[..n] || k == ids[n];
    }
  }

  lemma InvGood(s: Stores)
    requires Inv(s)
    ensures Good(CandidateId, CandidateTime, s.candidates) && Good(AssetId, AssetTime, s.assets)
  {
  }

  /** A batch that is accepted answers for every requested id, its counts add up, its status word agrees with
      them, and it changes the registry as the single reviews one after the other. */
  lemma BatchReviewSound(s: Stores, requested: seq<string>, req: ReviewRequest, now: Time)
    requires Inv(s)
    ensures var (t, result) := BatchReview(s, requested, req, now);
            var ids := UniqueIds(requested);
            var status := NormalizeReviewStatus(req.status);
            if status.None? || ids == [] || (status.value in ["merged", "linked"] && Strip(req.mergeTarget) == "")
            then result == ValueError && t == s
            else
              && result.Ok? && result.value.requested == |ids| == result.value.reviewed + result.value.failed
              && |t.reviews| == |s.reviews| + result.value.reviewed
              && (result.value.status == "completed" <==> forall k :: k in ids ==> Has(CandidateId, s.candidates, k))
              && (result.value.status == "failed" <==> forall k :: k in ids ==> !Has(CandidateId, s.candidates, k))
              && result.value.status in ["completed", "partial_failed", "failed"]
              && (result.value.status == "failed" ==> t.reviews == s.reviews)
              && (forall k :: k !in ids ==> Lookup(CandidateId, t.candidates, k) == Lookup(CandidateId, s.candidates, k))
  {
    hide Inv, ReviewCandidate, ReviewedCandidate, UniqueIds, NormalizeReviewStatus, BatchFold, Strip, Lookup;
    var status := NormalizeReviewStatus(req.status);
    var ids := UniqueIds(requested);
    if status.Some? && ids != [] && !(status.value in ["merged", "linked"] && Strip(req.mergeTarget) == "") {
      NormalizeReviewStatusTwice(req.status);
      UniqueIdsFacts(requested);
      var item := BatchItemRequest(status.value, req);
      BatchFoldEffect(s, ids, item, now);
      var (t, items) := BatchFold(s, ids, item, now);
      SummaryWords(|ids|, items);
      forall k | k in ids ensures exists i :: 0 <= i < |ids| && ids[i] == k && items[i].candidateId == k {
      }
      assert forall i :: 0 <= i < |ids| ==> (ItemReviewed(items[i]) <==> Has(CandidateId, s.candidates, ids[i]));
      if Filter(ItemReviewed, items) == [] {
        BatchFoldKeepsLog(s, ids, item, now);
      }
    }
  }

  /** The status word of a batch says whether all, some or none of its items were reviewed. */
  lemma SummaryWords(requested: nat, items: seq<BatchItem>)
    ensures var b := BatchSummary(requested, items);
            && b.reviewed == |Filter(ItemReviewed, items)| && b.reviewed + b.failed == |items|
            && (b.status == "completed" <==> forall i :: 0 <= i < |items| ==> ItemReviewed(items[i]))
            && (items != [] ==> (b.status == "failed" <==> forall i :: 0 <= i < |items| ==> !ItemReviewed(items[i])))
            && (b.status == "failed" ==> Filter(ItemReviewed, items) == [])
            && b.status in ["completed", "partial_failed", "failed"]
  {
    hide ItemReviewed;
    FilterAll(ItemReviewed, items);
    assert forall i :: 0 <= i < |items| ==> items[i] in items;
    if items != [] {
      assert items[0] in items;
    }
  }

  lemma {:induction false} BatchFoldKeepsLog(s: Stores, ids: seq<string>, req: ReviewRequest, now: Time)
    requires Inv(s) && Filter(ItemReviewed, BatchFold(s, ids, req, now).1) == []
    ensures BatchFold(s, ids, req, now).0 == s
  {
    hide Inv, Grows, ReviewCandidate;
    if ids != [] {
      var n := |ids| - 1;
      var (s1, items) := BatchFold(s, ids[..n], req, now);
      FilterAppend(ItemReviewed, items, [BatchItem(ids[n], ReviewCandidate(s1, ids[n], req, now).1)]);
      BatchFoldKeepsLog(s, ids[..n], req, now);
      ReviewKeeps(s1, ids[n], req, now);
    }
  }
}
