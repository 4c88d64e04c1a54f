/** What one review and one batch of reviews leave behind, told without the code that does it. */
module ReviewOutcomes {
  import opened Text
  import opened Json
  import opened StableSort
  import opened Keyed
  import opened RegistryModel
  import opened RegistryInvariants
  import opened BatchReviews

  // ---- review ----

  /** The provenance keys a review writes on its candidate. */
  const ReviewKeys := {"last_review_status", "last_reviewer_employee_id", "last_review_reason", "merge_target_asset_id"}

  /** Who reviews: the one the request names, or Clara. */
  function Reviewer(req: ReviewRequest): string {
    if Strip(req.reviewer) == "" then "clara" else Strip(req.reviewer)
  }

  /** A reviewed candidate has the new status, the links, and in its provenance who reviewed it, why, and into what it
      was merged; without an Asset id it gets one. */
  ghost predicate CandidateReviewed(before: Candidate, after: Candidate, status: string, req: ReviewRequest, now: Time) {
    && after.status == status && after.reviewState == status && after.updatedAt == now
    && after.relationships == before.relationships + req.links
    && after.id == before.id && after.sourceCandidateId == before.sourceCandidateId
    && after.descriptor == before.descriptor && after.contentRef == before.contentRef
    && after.assetType == before.assetType && after.usefulness == before.usefulness && after.createdAt == before.createdAt
    && after.assetId == (if before.assetId != "" then before.assetId else "asset-" + SafeRef(before.id))
    && (forall k :: k !in ReviewKeys ==>
          (k in after.provenance <==> k in before.provenance) && Get(after.provenance, k) == Get(before.provenance, k))
    && Get(after.provenance, "last_review_status") == JStr(status)
    && Get(after.provenance, "last_reviewer_employee_id") == JStr(Reviewer(req))
    && Get(after.provenance, "last_review_reason") == JStr(Strip(req.reason))
    && Get(after.provenance, "merge_target_asset_id") == JStr(Strip(req.mergeTarget))
  }

  /** The log entry: a new id, who reviewed, why, into what, and when; an approval names the candidate's Asset. */
  ghost predicate ReviewSays(r: Review, c: Candidate, number: nat, status: string, req: ReviewRequest, now: Time) {
    && r.id == "asset-review-" + SafeRef(c.id) + "-" + Decimal(number) && r.candidateId == c.id && r.status == status
    && r.assetId == (if status == "approved" then c.assetId else Strip(req.mergeTarget))
    && r.reviewer == Reviewer(req) && r.reason == Strip(req.reason) && r.mergeTarget == Strip(req.mergeTarget)
    && r.links == req.links && r.createdAt == now && r.updatedAt == now
  }

  /** The provenance keys an approval writes on its record. */
  const ApprovalKeys := {"source_asset_candidate_id", "source_candidate_id", "asset_review_id",
                          "reviewer_employee_id", "review_reason"}

  /** The record of an approval says what the candidate says, and in its provenance where it is from, and who approved it
      and why. */
  ghost predicate RecordSays(a: AssetRecord, c: Candidate, r: Review, req: ReviewRequest, now: Time) {
    && a.id == SettledRecordId(r) && ApprovedBy(a, r) && a.status == "approved" && a.reviewState == "approved"
    && a.assetType == c.assetType && a.descriptor == c.descriptor && a.contentRef == c.contentRef
    && a.relationships == c.relationships && a.usefulness == c.usefulness
    && a.createdAt == (if c.createdAt == 0 then now else c.createdAt) && a.updatedAt == now
    && (forall k :: k !in ApprovalKeys ==> (k in a.provenance <==> k in c.provenance) && Get(a.provenance, k) == Get(c.provenance, k))
    && Get(a.provenance, "source_candidate_id") == JStr(c.sourceCandidateId)
    && Get(a.provenance, "reviewer_employee_id") == JStr(Reviewer(req))
    && Get(a.provenance, "review_reason") == JStr(Strip(req.reason))
  }

  /** Exactly this review was added to the log, which lists the oldest first. */
  ghost predicate Logged(s: Stores, t: Stores, r: Review) {
    && r !in s.reviews && |t.reviews| == |s.reviews| + 1 && (forall x :: x in t.reviews <==> x == r || x in s.reviews)
    && forall i, j :: 0 <= i < j < |t.reviews| ==> t.reviews[i].createdAt <= t.reviews[j].createdAt
  }

  /** The record of an approval was saved; no other record changed. */
  ghost predicate Saved(s: Stores, t: Stores, a: AssetRecord) {
    forall k :: Lookup(AssetId, t.assets, k) == if k == a.id then Some(a) else Lookup(AssetId, s.assets, k)
  }

  /** The record a merge or link review edits: the named one, or the first when none is named but links are given. */
  function LinkTarget(s: Stores, r: Review): Option<AssetRecord> {
    if r.mergeTarget != "" then Lookup(AssetId, s.assets, r.mergeTarget)
    else if r.links != [] && s.assets != [] then Some(s.assets[0]) else None
  }

  /** The target gained the links and a reference to the candidate; no other record changed. */
  ghost predicate Linked(s: Stores, t: Stores, c: Candidate, r: Review) {
    match LinkTarget(s, r)
    case None => t.assets == s.assets
    case Some(a) =>
      var link := map["type" := JStr("reviewed_candidate"), "target_kind" := JStr("asset_candidate"),
                      "target_ref" := JStr(c.id), "review_id" := JStr(r.id), "status" := JStr(r.status)];
      var edited := a.(relationships := a.relationships + r.links + [link], updatedAt := r.updatedAt);
      forall k :: Lookup(AssetId, t.assets, k) == if k == a.id then Some(edited) else Lookup(AssetId, s.assets, k)
  }

  /** What a review answers. */
  ghost predicate Answered(before: Candidate, out: ReviewResponse, number: nat, status: string, req: ReviewRequest, now: Time) {
    && CandidateReviewed(before, out.candidate, status, req, now)
    && ReviewSays(out.review, out.candidate, number, status, req, now)
    && (out.asset.Some? <==> status == "approved")
    && (out.asset.Some? ==> RecordSays(out.asset.value, out.candidate, out.review, req, now))
  }

  ghost predicate Reviewed(s: Stores, t: Stores, before: Candidate, out: ReviewResponse, status: string, req: ReviewRequest,
                           now: Time)
  {
    var c, r := out.candidate, out.review;
    && Answered(before, out, |s.reviews| + 1, status, req, now)
    && Lookup(CandidateId, t.candidates, before.id) == Some(c) && Logged(s, t, r)
    && t == s.(candidates := t.candidates, assets := t.assets, reviews := t.reviews)
    && (status == "approved" ==> out.asset.Some? && Saved(s, t, out.asset.value))
    && (status == "rejected" ==> t.assets == s.assets)
    && (status == "merged" || status == "linked" ==> Linked(s, t, c, r))
  }

  /** A review fails exactly for an unknown candidate or, that being known, for a word that is no status, and then
      changes nothing; otherwise candidate, log and records are as `Reviewed` says. */
  lemma ReviewOutcome(s: Stores, candidateId: string, req: ReviewRequest, now: Time)
    requires Inv(s)
    ensures var (t, out) := ReviewCandidate(s, candidateId, req, now);
            var found := Lookup(CandidateId, s.candidates, Strip(candidateId));
            var status := NormalizeReviewStatus(req.status);
            && (out.KeyError? <==> found.None?) && (out.KeyError? ==> out.id == Strip(candidateId))
            && (out == ValueError <==> found.Some? && status.None?)
            && (!out.Ok? ==> t == s)
            && (out.Ok? ==> found.Some? && status.Some? && Reviewed(s, t, found.value, out.value, status.value, req, now))
  {
    hide Inv, NormalizeReviewStatus, SettleReview, AppendReview, ReviewedCandidate, ReviewOf, SortBy, Reviewed, Strip,
         AssetFromCandidate;
    var id := Strip(candidateId);
    LookupMember(CandidateId, s.candidates, id);
    var i := Find(CandidateId, s.candidates, id);
    if i < |s.candidates| && NormalizeReviewStatus(req.status).Some? {
      InvGood(s);
      ReviewEffect(s, candidateId, req, now);
      var status := NormalizeReviewStatus(req.status).value;
      StatusIsOne(req.status);
      ReviewedParts(s, i, status, req, now);
    }
  }

  lemma StatusIsOne(value: string)
    requires NormalizeReviewStatus(value).Some?
    ensures ReviewStatus(NormalizeReviewStatus(value).value)
  {
  }

  /** The words a review's status may be given in. */
  lemma StatusWords(value: string)
    ensures var word := Lower(Strip(value));
            && (NormalizeReviewStatus(value) == Some("approved") <==> word in {"approve", "approved"})
            && (NormalizeReviewStatus(value) == Some("rejected") <==> word in {"reject", "rejected"})
            && (NormalizeReviewStatus(value) == Some("merged") <==> word in {"merge", "merged"})
            && (NormalizeReviewStatus(value) == Some("linked") <==> word in {"link", "linked"})
            && (NormalizeReviewStatus(value).None? <==>
                  word !in {"approve", "approved", "reject", "rejected", "merge", "merged", "link", "linked"})
  {
    hide Strip, Lower, DashToUnderscore;
    var word := Lower(Strip(value));
    NoDashIn(word, "approve");
    NoDashIn(word, "approved");
    NoDashIn(word, "reject");
    NoDashIn(word, "rejected");
    NoDashIn(word, "merge");
    NoDashIn(word, "merged");
    NoDashIn(word, "link");
    NoDashIn(word, "linked");
  }

  lemma NoDashIn(word: string, known: string)
    requires forall i :: 0 <= i < |known| ==> known[i] != '_' && known[i] != '-'
    ensures DashToUnderscore(word) == known <==> word == known
  {
    var s := DashToUnderscore(word);
    if s == known {
      assert forall i :: 0 <= i < |word| ==> s[i] == known[i] == word[i];
    }
  }

  /** The parts of an accepted review, one after the other. */
  lemma ReviewedParts(s: Stores, i: nat, status: string, req: ReviewRequest, now: Time)
    requires Inv(s) && i < |s.candidates| && i == Find(CandidateId, s.candidates, s.candidates[i].id) && ReviewStatus(status)
    ensures var c := ReviewedCandidate(s.candidates[i], status, req, now);
            var r := ReviewOf(c, |s.reviews|, req, now);
            var s1 := s.(candidates := SortBy(CandidateTime, s.candidates[i := c]));
            Reviewed(s, SettleReview(AppendReview(s1, r), c, r, now), s.candidates[i], ReviewResponseOf(c, r, now), status, req, now)
  {
    hide Inv, SortBy, ReviewId, SettleReview, AppendReview, AssetFromCandidate, ReviewedCandidate, Saved, Linked, ReviewOf,
         CandidateReviewed, ReviewSays, RecordSays, SafeRef, Strip, Decimal;
    var before := s.candidates[i];
    var c := ReviewedCandidate(before, status, req, now);
    var r := ReviewOf(c, |s.reviews|, req, now);
    CandidateIsReviewed(before, status, req, now);
    ReviewedBasics(before, c, status, req, now);
    var s1 := s.(candidates := SortBy(CandidateTime, s.candidates[i := c]));
    ReviewIsOf(c, |s.reviews|, req, now);
    ReviewBasics(r, c, |s.reviews| + 1, status, req, now);
    CandidateSaved(s, i, c);
    LoggedOnce(s, s1, r);
    var s2 := AppendReview(s1, r);
    SettledAs(s, s2, c, r, req, now);
  }

  lemma ReviewedBasics(before: Candidate, after: Candidate, status: string, req: ReviewRequest, now: Time)
    requires CandidateReviewed(before, after, status, req, now)
    ensures after.id == before.id && after.status == status
  {
  }

  lemma ReviewBasics(r: Review, c: Candidate, number: nat, status: string, req: ReviewRequest, now: Time)
    requires ReviewSays(r, c, number, status, req, now)
    ensures r.candidateId == c.id && r.status == status && r.id == ReviewId(c.id, number)
    ensures status == "approved" ==> r.assetId == c.assetId
    ensures r.reviewer == Reviewer(req) && r.reason == Strip(req.reason)
  {
  }

  lemma CandidateSaved(s: Stores, i: nat, c: Candidate)
    requires Inv(s) && i < |s.candidates| && c.id == s.candidates[i].id
    requires i == Find(CandidateId, s.candidates, s.candidates[i].id)
    ensures Lookup(CandidateId, SortBy(CandidateTime, s.candidates[i := c]), c.id) == Some(c)
  {
    hide SortBy;
    InvGood(s);
    UpsertIsMapUpdate(CandidateId, CandidateTime, s.candidates, c);
  }

  lemma CandidateIsReviewed(before: Candidate, status: string, req: ReviewRequest, now: Time)
    ensures CandidateReviewed(before, ReviewedCandidate(before, status, req, now), status, req, now)
  {
    EmptyStripped();
    hide Strip, SafeRef;
  }

  lemma EmptyStripped()
    ensures Strip("") == ""
  {
  }

  lemma ReviewIsOf(c: Candidate, logged: nat, req: ReviewRequest, now: Time)
    ensures ReviewSays(ReviewOf(c, logged, req, now), c, logged + 1, c.status, req, now)
  {
    hide Strip, SafeRef, Decimal;
  }

  lemma LoggedOnce(s: Stores, s1: Stores, r: Review)
    requires Inv(s) && s1.reviews == s.reviews && r.id == ReviewId(r.candidateId, |s.reviews| + 1)
    ensures Logged(s, AppendReview(s1, r), r) && AppendReview(s1, r) == s1.(reviews := AppendReview(s1, r).reviews)
  {
    hide SortBy, ReviewId;
    assert ReviewIdsOk(s.reviews);
    NextReviewIdIsNew(s.reviews, r.candidateId);
    SortFacts(ReviewTime, s.reviews + [r]);
  }

  lemma SettledAs(s: Stores, s2: Stores, c: Candidate, r: Review, req: ReviewRequest, now: Time)
    requires Inv(s) && s2.assets == s.assets && r.candidateId == c.id && r.status == c.status && ReviewStatus(c.status)
    requires c.status == "approved" ==> r.assetId == c.assetId
    requires r.reviewer == Reviewer(req) && r.reason == Strip(req.reason)
    ensures var t := SettleReview(s2, c, r, now);
            && t == s2.(assets := t.assets)
            && (c.status == "approved" ==>
                  Saved(s, t, AssetFromCandidate(c, r, now)) && RecordSays(AssetFromCandidate(c, r, now), c, r, req, now))
            && (c.status == "rejected" ==> t.assets == s.assets)
            && (c.status == "merged" || c.status == "linked" ==> Linked(s, t, c, r))
  {
    InvGood(s);
    hide Inv, Upsert, Saved, Linked, AssetFromCandidate, RecordSays, Strip;
    if c.status == "approved" {
      ApprovedRecord(s, s2, c, r, req, now);
    } else if c.status != "rejected" {
      LinkedRecord(s, s2, c, r);
    }
  }

  lemma ApprovedRecord(s: Stores, s2: Stores, c: Candidate, r: Review, req: ReviewRequest, now: Time)
    requires Distinct(AssetId, s.assets) && s2.assets == s.assets
    requires r.candidateId == c.id && r.status == "approved" && r.assetId == c.assetId
    requires r.reviewer == Reviewer(req) && r.reason == Strip(req.reason)
    ensures Saved(s, UpsertAsset(s2, AssetFromCandidate(c, r, now)), AssetFromCandidate(c, r, now))
    ensures RecordSays(AssetFromCandidate(c, r, now), c, r, req, now)
  {
    hide Upsert, Strip, SafeRef;
    UpsertIsMapUpdate(AssetId, AssetTime, s.assets, AssetFromCandidate(c, r, now));
  }

  lemma LinkedRecord(s: Stores, s2: Stores, c: Candidate, r: Review)
    requires Good(AssetId, AssetTime, s.assets) && s2.assets == s.assets
    ensures var t := ApplyRelationshipReview(s2, c, r); t == s2.(assets := t.assets) && Linked(s, t, c, r)
  {
    hide SortBy;
    LookupMember(AssetId, s.assets, r.mergeTarget);
    var target := LinkTarget(s, r);
    if target.Some? {
      var a := target.value;
      var edited := a.(relationships := a.relationships + r.links + [ReviewedLink(c, r)], updatedAt := r.updatedAt);
      UpsertIsMapUpdate(AssetId, AssetTime, s.assets, edited);
    }
  }

  // ---- a batch of reviews ----

  /** What one item of a batch asks for: the batch's reviewer, target and links, and its reason or the default one. */
  predicate ItemAsks(item: ReviewRequest, req: ReviewRequest, status: string) {
    && item.status == status && item.reviewer == req.reviewer && item.mergeTarget == req.mergeTarget && item.links == req.links
    && item.reason == (if req.reason != "" then req.reason else "Batch " + status + " from Assets review queue.")
  }

  /** The item for a candidate answers as a review of the candidate as it was before the batch; its review is logged, and
      its candidate is the registry's. */
  ghost predicate ItemAnswers(before: Candidate, item: BatchItem, t: Stores, status: string, req: ReviewRequest, now: Time) {
    && item.outcome.Ok? && item.outcome.value.review in t.reviews
    && Lookup(CandidateId, t.candidates, item.candidateId) == Some(item.outcome.value.candidate)
    && exists number :: Answered(before, item.outcome.value, number, status, req, now)
  }

  lemma {:induction false} FoldAnswers(s: Stores, ids: seq<string>, status: string, req: ReviewRequest, now: Time)
    requires Inv(s) && NormalizeReviewStatus(req.status) == Some(status)
    requires NoRepeats(ids) && forall k :: k in ids ==> Strip(k) == k
    ensures var (t, items) := BatchFold(s, ids, req, now);
            && |items| == |ids|
            && forall i :: 0 <= i < |ids| ==>
                 var found := Lookup(CandidateId, s.candidates, ids[i]);
                 && items[i].candidateId == ids[i]
                 && (found.None? ==> items[i].outcome == KeyError(ids[i]))
                 && (found.Some? ==> ItemAnswers(found.value, items[i], t, status, req, now))
  {
    hide Inv, Grows, ReviewCandidate, NormalizeReviewStatus, Strip, Answered, ReviewedCandidate;
    if ids != [] {
      var n := |ids| - 1;
      FoldAnswers(s, ids[..n], status, req, now);
      BatchFoldEffect(s, ids[..n], req, now);
      BatchFoldKeeps(s, ids[..n], req, now);
      var (s1, items) := BatchFold(s, ids[..n], req, now);
      assert ids[n] !in ids[..n];
      assert Lookup(CandidateId, s1.candidates, ids[n]) == Lookup(CandidateId, s.candidates, ids[n]);
      LastAnswers(s1, ids[n], status, req, now);
    }
  }

  lemma LastAnswers(s: Stores, id: string, status: string, req: ReviewRequest, now: Time)
    requires Inv(s) && NormalizeReviewStatus(req.status) == Some(status) && Strip(id) == id
    ensures var (t, out) := ReviewCandidate(s, id, req, now);
            var found := Lookup(CandidateId, s.candidates, id);
            && (found.None? ==> out == KeyError(id))
            && (found.Some? ==> ItemAnswers(found.value, BatchItem(id, out), t, status, req, now))
            && (forall r :: r in s.reviews ==> r in t.reviews)
            && forall k :: k != id ==> Lookup(CandidateId, t.candidates, k) == Lookup(CandidateId, s.candidates, k)
  {
    hide Inv, ReviewCandidate, NormalizeReviewStatus, Strip, Answered;
    ReviewOutcome(s, id, req, now);
    ReviewKeeps(s, id, req, now);
    InvGood(s);
    ReviewEffect(s, id, req, now);
    LookupMember(CandidateId, s.candidates, id);
    var found, out := Lookup(CandidateId, s.candidates, id), ReviewCandidate(s, id, req, now).1;
    if found.Some? {
      assert Answered(found.value, out.value, |s.reviews| + 1, status, req, now);
    }
  }

  /** An accepted batch answers every requested id in order: a known candidate as its single review would, with the
      batch's reviewer and reason, and its review stays in the log; an unknown one with an error. */
  lemma BatchAnswers(s: Stores, requested: seq<string>, req: ReviewRequest, now: Time)
    requires Inv(s) && BatchReview(s, requested, req, now).1.Ok?
    ensures NormalizeReviewStatus(req.status).Some?
    ensures var (t, result) := BatchReview(s, requested, req, now);
            var ids, status := UniqueIds(requested), NormalizeReviewStatus(req.status).value;
            exists item :: ItemAsks(item, req, status) &&
              |result.value.items| == |ids| && forall i :: 0 <= i < |ids| ==>
                var found := Lookup(CandidateId, s.candidates, ids[i]);
                && result.value.items[i].candidateId == ids[i]
                && (found.None? ==> result.value.items[i].outcome == KeyError(ids[i]))
                && (found.Some? ==> ItemAnswers(found.value, result.value.items[i], t, status, item, now))
  {
    hide Inv, ReviewCandidate, UniqueIds, NormalizeReviewStatus, BatchFold, Strip, ItemAnswers;
    var status := NormalizeReviewStatus(req.status).value;
    NormalizeReviewStatusTwice(req.status);
    UniqueIdsFacts(requested);
    FoldAnswers(s, UniqueIds(requested), status, BatchItemRequest(status, req), now);
    assert ItemAsks(BatchItemRequest(status, req), req, status);
  }

  /** Rejecting a candidate that was approved does not withdraw its record: nothing guards a second review, and a
      rejection leaves the records alone. */
  lemma ApprovalNotWithdrawn(s: Stores, candidateId: string, approve: ReviewRequest, reject: ReviewRequest, first: Time, second: Time)
    requires Inv(s) && Has(CandidateId, s.candidates, Strip(candidateId))
    requires NormalizeReviewStatus(approve.status) == Some("approved") && NormalizeReviewStatus(reject.status) == Some("rejected")
    ensures var (t, out) := ReviewCandidate(s, candidateId, approve, first);
            var (u, again) := ReviewCandidate(t, candidateId, reject, second);
            && out.Ok? && again.Ok? && out.value.asset.Some?
            && Lookup(CandidateId, u.candidates, Strip(candidateId)) == Some(again.value.candidate)
            && again.value.candidate.status == "rejected"
            && Lookup(AssetId, u.assets, out.value.asset.value.id) == Some(out.value.asset.value)
            && out.value.asset.value.status == "approved"
  {
    hide Inv, Grows, NormalizeReviewStatus, ReviewCandidate, Strip, CandidateReviewed, ReviewSays, RecordSays, Logged, Linked, Lookup;
    var id := Strip(candidateId);
    LookupMember(CandidateId, s.candidates, id);
    ReviewOutcome(s, candidateId, approve, first);
    ReviewKeeps(s, candidateId, approve, first);
    var (t, out) := ReviewCandidate(s, candidateId, approve, first);
    assert Lookup(CandidateId, t.candidates, id) == Some(out.value.candidate);
    assert Saved(s, t, out.value.asset.value);
    ReviewOutcome(t, candidateId, reject, second);
    var (u, again) := ReviewCandidate(t, candidateId, reject, second);
    assert Reviewed(t, u, out.value.candidate, again.value, "rejected", reject, second);
    ReviewedBasics(out.value.candidate, again.value.candidate, "rejected", reject, second);
    SavedStatus(out.value.asset.value, out.value.candidate, out.value.review, approve, first);
    assert out.value.candidate.id == id by {
      LookupMember(CandidateId, t.candidates, id);
    }
  }

  lemma SavedStatus(a: AssetRecord, c: Candidate, r: Review, req: ReviewRequest, now: Time)
    requires RecordSays(a, c, r, req, now)
    ensures a.status == "approved"
  {
  }
}
