/** What every operation of the registry keeps, and what therefore holds after any run. */
module RegistryInvariants {
  import opened Text
  import opened Json
  import opened StableSort
  import opened Keyed
  import opened RegistryModel
  import opened Runs

  function ReviewKey(r: Review): string { r.id }

  /** The record an approved review was settled into. */
  function SettledRecordId(r: Review): string {
    if Strip(r.assetId) != "" then Strip(r.assetId) else "asset-" + SafeRef(r.candidateId)
  }

  ghost predicate ListsOk(s: Stores) {
    Good(CandidateId, CandidateTime, s.candidates) && Good(AssetId, AssetTime, s.assets) && Sorted(ReviewTime, s.reviews)
  }

  ghost predicate Numbered(r: Review, logged: nat) {
    exists n: nat :: 1 <= n <= logged && r.id == ReviewId(r.candidateId, n)
  }

  ghost predicate ReviewIdsOk(reviews: seq<Review>) {
    Distinct(ReviewKey, reviews) && forall r :: r in reviews ==> Numbered(r, |reviews|)
  }

  /** A record has a trimmed id, and is approved. */
  ghost predicate RecordOk(a: AssetRecord) {
    a.id != "" && Trimmed(a.id) && a.status == "approved" && a.reviewState == "approved"
  }

  ghost predicate RecordsOk(assets: seq<AssetRecord>) { forall a :: a in assets ==> RecordOk(a) }

  ghost predicate ReviewsHaveRecords(s: Stores) {
    forall r :: r in s.reviews && r.status == "approved" ==> Has(AssetId, s.assets, SettledRecordId(r))
  }

  /** Record `a` was last approved by review `r`. */
  ghost predicate ApprovedBy(a: AssetRecord, r: Review) {
    && r.status == "approved"
    && Get(a.provenance, "asset_review_id") == JStr(r.id)
    && Get(a.provenance, "source_asset_candidate_id") == JStr(r.candidateId)
    && a.id == SettledRecordId(r)
  }

  ghost predicate RecordsNameReviews(s: Stores) {
    forall a :: a in s.assets ==> exists r :: r in s.reviews && ApprovedBy(a, r)
  }

  ghost predicate AuditOk(s: Stores) {
    |s.audit| <= AUDIT_LIMIT && |s.audit| <= |s.attempts| && s.audit == s.attempts[|s.attempts| - |s.audit|..]
  }

  ghost predicate Inv(s: Stores) {
    && ListsOk(s) && ReviewIdsOk(s.reviews) && RecordsOk(s.assets)
    && ReviewsHaveRecords(s) && RecordsNameReviews(s) && AuditOk(s)
  }

  /** Nothing is ever deleted: logged reviews, record ids and candidate ids stay, and attempts only accumulate. */
  ghost predicate Grows(s: Stores, t: Stores) {
    && (forall r :: r in s.reviews ==> r in t.reviews) && |s.reviews| <= |t.reviews|
    && (forall k :: Has(AssetId, s.assets, k) ==> Has(AssetId, t.assets, k))
    && (forall k :: Has(CandidateId, s.candidates, k) ==> Has(CandidateId, t.candidates, k))
    && s.attempts <= t.attempts
  }

  lemma TicketsKeep(s: Stores, tickets: map<string, Ticket>)
    requires Inv(s)
    ensures Inv(s.(tickets := tickets)) && Grows(s, s.(tickets := tickets))
  {
  }

  lemma GrowsTransitive(s: Stores, t: Stores, u: Stores)
    requires Grows(s, t) && Grows(t, u)
    ensures Grows(s, u)
  {
  }

  // ---- edits of records that keep their identity ----

  /** The record may have been marked or linked, but it is still the same approved record. */
  ghost predicate SameRecord(a: AssetRecord, b: AssetRecord) {
    && a.id == b.id && a.createdAt == b.createdAt && a.status == b.status && a.reviewState == b.reviewState
    && Get(a.provenance, "asset_review_id") == Get(b.provenance, "asset_review_id")
    && Get(a.provenance, "source_asset_candidate_id") == Get(b.provenance, "source_asset_candidate_id")
  }

  ghost predicate SameRecords(xs: seq<AssetRecord>, ys: seq<AssetRecord>) {
    |xs| == |ys| && forall i :: 0 <= i < |xs| ==> SameRecord(xs[i], ys[i])
  }

  lemma SameRecordsKeep(s: Stores, t: Stores)
    requires Inv(s) && SameRecords(s.assets, t.assets) && t == s.(assets := t.assets)
    ensures Inv(t) && Grows(s, t)
    ensures SortBy(AssetTime, t.assets) == t.assets
  {
    forall k ensures Has(AssetId, s.assets, k) <==> Has(AssetId, t.assets, k) {
      if Has(AssetId, s.assets, k) {
        var i :| 0 <= i < |s.assets| && AssetId(s.assets[i]) == k;
        assert AssetId(t.assets[i]) == k;
      }
      if Has(AssetId, t.assets, k) {
        var i :| 0 <= i < |t.assets| && AssetId(t.assets[i]) == k;
        assert AssetId(s.assets[i]) == k;
      }
    }
    forall a | a in t.assets ensures exists r :: r in t.reviews && ApprovedBy(a, r) {
      var i :| 0 <= i < |t.assets| && t.assets[i] == a;
      assert s.assets[i] in s.assets;
      var r :| r in s.reviews && ApprovedBy(s.assets[i], r);
      assert ApprovedBy(a, r);
    }
    assert RecordsOk(t.assets) by {
      forall a | a in t.assets ensures RecordOk(a) {
        var i :| 0 <= i < |t.assets| && t.assets[i] == a;
        assert s.assets[i] in s.assets;
      }
    }
    assert Good(AssetId, AssetTime, t.assets) by {
      forall i, j | 0 <= i < j < |t.assets| ensures AssetTime(t.assets[i]) <= AssetTime(t.assets[j]) {
        assert AssetTime(s.assets[i]) <= AssetTime(s.assets[j]);
      }
      forall i, j | 0 <= i < j < |t.assets| ensures AssetId(t.assets[i]) != AssetId(t.assets[j]) {
        assert AssetId(s.assets[i]) != AssetId(s.assets[j]);
      }
    }
    SortedFixed(AssetTime, t.assets);
  }

  /** Upserting an edited copy of a record of the list is such an edit. */
  lemma UpsertSameRecord(s: Stores, a: AssetRecord, b: AssetRecord)
    requires Inv(s) && Lookup(AssetId, s.assets, a.id) == Some(a) && SameRecord(a, b)
    ensures Inv(UpsertAsset(s, b)) && Grows(s, UpsertAsset(s, b))
    ensures Find(AssetId, s.assets, a.id) < |s.assets| && s.assets[Find(AssetId, s.assets, a.id)] == a
    ensures UpsertAsset(s, b).assets == s.assets[Find(AssetId, s.assets, a.id) := b]
  {
    LookupMember(AssetId, s.assets, a.id);
    var i := Find(AssetId, s.assets, a.id);
    UpsertInPlace(AssetId, AssetTime, s.assets, i, b);
    SameRecordsKeep(s, UpsertAsset(s, b));
  }

  // ---- candidates ----

  lemma CandidatesKeep(s: Stores, t: Stores)
    requires Inv(s) && t == s.(candidates := t.candidates) && Good(CandidateId, CandidateTime, t.candidates)
    requires forall k :: Has(CandidateId, s.candidates, k) ==> Has(CandidateId, t.candidates, k)
    ensures Inv(t) && Grows(s, t)
  {
  }

  lemma UpsertCandidateKeeps(s: Stores, c: Candidate)
    requires Inv(s)
    ensures Inv(UpsertCandidate(s, c)) && Grows(s, UpsertCandidate(s, c))
    ensures forall k :: Lookup(CandidateId, UpsertCandidate(s, c).candidates, k)
                        == if k == c.id then Some(c) else Lookup(CandidateId, s.candidates, k)
  {
    var t := UpsertCandidate(s, c);
    UpsertIsMapUpdate(CandidateId, CandidateTime, s.candidates, c);
    forall k | Has(CandidateId, s.candidates, k) ensures Has(CandidateId, t.candidates, k) {
      LookupMember(CandidateId, s.candidates, k);
      LookupMember(CandidateId, t.candidates, k);
    }
    CandidatesKeep(s, t);
  }

  /** An edit that keeps every candidate's id and creation time, position by position. */
  lemma EditCandidatesKeeps(s: Stores, cs: seq<Candidate>)
    requires Inv(s) && |cs| == |s.candidates|
    requires forall i :: 0 <= i < |cs| ==> cs[i].id == s.candidates[i].id && cs[i].createdAt == s.candidates[i].createdAt
    ensures SortBy(CandidateTime, cs) == cs
    ensures Inv(s.(candidates := cs)) && Grows(s, s.(candidates := cs))
  {
    var t := s.(candidates := cs);
    assert Good(CandidateId, CandidateTime, cs) by {
      forall i, j | 0 <= i < j < |cs| ensures CandidateTime(cs[i]) <= CandidateTime(cs[j]) {
        assert CandidateTime(s.candidates[i]) <= CandidateTime(s.candidates[j]);
      }
      forall i, j | 0 <= i < j < |cs| ensures CandidateId(cs[i]) != CandidateId(cs[j]) {
        assert CandidateId(s.candidates[i]) != CandidateId(s.candidates[j]);
      }
    }
    SortedFixed(CandidateTime, cs);
    forall k | Has(CandidateId, s.candidates, k) ensures Has(CandidateId, t.candidates, k) {
      var i :| 0 <= i < |s.candidates| && CandidateId(s.candidates[i]) == k;
      assert CandidateId(cs[i]) == k;
    }
    CandidatesKeep(s, t);
  }

  // ---- review ----

  /** The next review id is new, whatever candidate ids look like. */
  lemma NextReviewIdIsNew(reviews: seq<Review>, candidateId: string)
    requires ReviewIdsOk(reviews)
    ensures forall r :: r in reviews ==> r.id != ReviewId(candidateId, |reviews| + 1)
  {
    forall r | r in reviews ensures r.id != ReviewId(candidateId, |reviews| + 1) {
      var n: nat :| 1 <= n <= |reviews| && r.id == ReviewId(r.candidateId, n);
      if r.id == ReviewId(candidateId, |reviews| + 1) {
        CounterReadable("asset-review-" + SafeRef(r.candidateId), n,
                        "asset-review-" + SafeRef(candidateId), |reviews| + 1);
        assert false;
      }
    }
  }

  lemma AppendReviewIds(reviews: seq<Review>, r: Review)
    requires ReviewIdsOk(reviews) && r.id == ReviewId(r.candidateId, |reviews| + 1)
    ensures ReviewIdsOk(SortBy(ReviewTime, reviews + [r])) && Sorted(ReviewTime, SortBy(ReviewTime, reviews + [r]))
    ensures forall x :: x in SortBy(ReviewTime, reviews + [r]) <==> x == r || x in reviews
    ensures |SortBy(ReviewTime, reviews + [r])| == |reviews| + 1
  {
    NextReviewIdIsNew(reviews, r.candidateId);
    var log := SortBy(ReviewTime, reviews + [r]);
    SortDistinct(ReviewKey, ReviewTime, reviews + [r]);
    SortFacts(ReviewTime, reviews + [r]);
    forall x | x in log ensures Numbered(x, |log|) {
      if x == r {
        assert 1 <= |reviews| + 1 <= |log| && r.id == ReviewId(r.candidateId, |reviews| + 1);
      } else {
        var n: nat :| 1 <= n <= |reviews| && x.id == ReviewId(x.candidateId, n);
        assert 1 <= n <= |log|;
      }
    }
  }

  /** Logging a review keeps everything but possibly the record of that review. */
  ghost predicate InvExcept(s: Stores, pending: Review) {
    && ListsOk(s) && ReviewIdsOk(s.reviews) && RecordsOk(s.assets) && RecordsNameReviews(s) && AuditOk(s)
    && (forall r :: r in s.reviews && r.status == "approved" && r != pending ==> Has(AssetId, s.assets, SettledRecordId(r)))
    && pending in s.reviews
  }

  lemma AppendReviewKeeps(s: Stores, r: Review)
    requires Inv(s) && r.id == ReviewId(r.candidateId, |s.reviews| + 1)
    ensures InvExcept(AppendReview(s, r), r) && Grows(s, AppendReview(s, r))
    ensures |AppendReview(s, r).reviews| == |s.reviews| + 1
  {
    var t := AppendReview(s, r);
    AppendReviewIds(s.reviews, r);
    forall a | a in t.assets ensures exists x :: x in t.reviews && ApprovedBy(a, x) {
      var x :| x in s.reviews && ApprovedBy(a, x);
      assert x in t.reviews;
    }
  }

  lemma AssetIdFromCandidateOk(c: Candidate)
    ensures AssetIdFromCandidate(c) != "" && Trimmed(AssetIdFromCandidate(c))
  {
    StripFacts(c.assetId);
    SafeRefFacts(c.id);
    PrefixTrimmed("asset-", SafeRef(c.id));
  }

  /** The record of an approval names it. */
  lemma ApprovalNamed(c: Candidate, r: Review, now: Time)
    requires r.status == "approved" && r.candidateId == c.id && r.assetId == c.assetId
    ensures ApprovedBy(AssetFromCandidate(c, r, now), r) && RecordOk(AssetFromCandidate(c, r, now))
  {
    AssetIdFromCandidateOk(c);
    hide Strip, SafeRef, Trimmed;
  }

  /** Saving the record an approval names. */
  lemma NamedRecordKeeps(s: Stores, a: AssetRecord, r: Review)
    requires Distinct(AssetId, s.assets) && RecordsNameReviews(s) && RecordsOk(s.assets)
    requires r in s.reviews && ApprovedBy(a, r) && RecordOk(a)
    ensures var t := UpsertAsset(s, a);
            && t == s.(assets := t.assets) && Good(AssetId, AssetTime, t.assets) && RecordsNameReviews(t) && RecordsOk(t.assets)
            && forall k :: Has(AssetId, t.assets, k) <==> Has(AssetId, s.assets, k) || k == a.id
  {
    hide Upsert, Lookup, RecordOk, ApprovedBy;
    var t := UpsertAsset(s, a);
    UpsertIsMapUpdate(AssetId, AssetTime, s.assets, a);
    forall k ensures Has(AssetId, t.assets, k) <==> Has(AssetId, s.assets, k) || k == a.id {
      LookupMember(AssetId, s.assets, k);
      LookupMember(AssetId, t.assets, k);
    }
    forall x | x in t.assets ensures exists y :: y in t.reviews && ApprovedBy(x, y) {
      if x != a {
        var y :| y in s.reviews && ApprovedBy(x, y);
      }
    }
  }

  lemma ApprovalKeeps(s: Stores, c: Candidate, r: Review, now: Time)
    requires InvExcept(s, r) && r.status == "approved" && r.candidateId == c.id && r.assetId == c.assetId
    ensures Inv(UpsertAsset(s, AssetFromCandidate(c, r, now))) && Grows(s, UpsertAsset(s, AssetFromCandidate(c, r, now)))
  {
    hide Upsert, Strip, SafeRef, AssetFromCandidate, RecordOk, Distinct, Sorted, RecordsNameReviews, RecordsOk;
    ApprovalNamed(c, r, now);
    NamedRecordKeeps(s, AssetFromCandidate(c, r, now), r);
  }

  lemma RelationshipReviewKeeps(s: Stores, c: Candidate, r: Review)
    requires Inv(s)
    ensures Inv(ApplyRelationshipReview(s, c, r)) && Grows(s, ApplyRelationshipReview(s, c, r))
    ensures SameRecords(s.assets, ApplyRelationshipReview(s, c, r).assets)
  {
    if r.mergeTarget != "" || r.links != [] {
      var i := if r.mergeTarget == "" then 0 else Find(AssetId, s.assets, r.mergeTarget);
      if i < |s.assets| {
        var edited := s.assets[i].(
          relationships := s.assets[i].relationships + r.links + [ReviewedLink(c, r)], updatedAt := r.updatedAt);
        SameRecordsKeep(s, s.(assets := s.assets[i := edited]));
      }
    }
  }

  lemma NothingPending(s: Stores, r: Review)
    requires InvExcept(s, r) && r.status != "approved"
    ensures Inv(s)
  {
  }

  lemma SettleReviewKeeps(s: Stores, c: Candidate, r: Review, now: Time)
    requires InvExcept(s, r) && r.candidateId == c.id && (r.status == "approved" ==> r.assetId == c.assetId)
    ensures var t := SettleReview(s, c, r, now); Inv(t) && Grows(s, t) && t.reviews == s.reviews
  {
    hide Inv, InvExcept, Grows, AssetFromCandidate, ApplyRelationshipReview, Upsert;
    if r.status == "approved" {
      ApprovalKeeps(s, c, r, now);
    } else {
      NothingPending(s, r);
      TicketsKeep(s, s.tickets);
      RelationshipReviewKeeps(s, c, r);
      LinkKeepsReviews(s, c, r);
    }
  }

  lemma LinkKeepsReviews(s: Stores, c: Candidate, r: Review)
    ensures ApplyRelationshipReview(s, c, r).reviews == s.reviews
  {
  }

  /** A review never breaks the registry; it logs exactly one review if it succeeds and changes nothing otherwise. */
  lemma ReviewKeeps(s: Stores, candidateId: string, req: ReviewRequest, now: Time)
    requires Inv(s)
    ensures var (t, result) := ReviewCandidate(s, candidateId, req, now);
            && Inv(t) && Grows(s, t)
            && (if result.Ok? then |t.reviews| == |s.reviews| + 1 else t == s)
  {
    hide Inv, InvExcept, Grows, NormalizeReviewStatus, AssetFromCandidate, ApplyRelationshipReview, SortBy, Upsert, Strip,
         AppendReview, AssetIdFromCandidate;
    TicketsKeep(s, s.tickets);
    var id := Strip(candidateId);
    var i := Find(CandidateId, s.candidates, id);
    if i < |s.candidates| && NormalizeReviewStatus(req.status).Some? {
      var status := NormalizeReviewStatus(req.status).value;
      var c := ReviewedCandidate(s.candidates[i], status, req, now);
      var r := ReviewOf(c, |s.reviews|, req, now);
      EditCandidatesKeeps(s, s.candidates[i := c]);
      var s1 := s.(candidates := s.candidates[i := c]);
      AppendReviewKeeps(s1, r);
      var s2 := AppendReview(s1, r);
      GrowsTransitive(s, s1, s2);
      SettleReviewKeeps(s2, c, r, now);
      GrowsTransitive(s, s2, SettleReview(s2, c, r, now));
    }
  }

  lemma {:induction false} BatchFoldKeeps(s: Stores, ids: seq<string>, req: ReviewRequest, now: Time)
    requires Inv(s)
    ensures Inv(BatchFold(s, ids, req, now).0) && Grows(s, BatchFold(s, ids, req, now).0)
  {
    if ids != [] {
      var n := |ids| - 1;
      BatchFoldKeeps(s, ids[..n], req, now);
      ReviewKeeps(BatchFold(s, ids[..n], req, now).0, ids[n], req, now);
    }
  }

  lemma BatchKeeps(s: Stores, ids: seq<string>, req: ReviewRequest, now: Time)
    requires Inv(s)
    ensures Inv(BatchReview(s, ids, req, now).0) && Grows(s, BatchReview(s, ids, req, now).0)
  {
    if NormalizeReviewStatus(req.status).Some? {
      BatchFoldKeeps(s, UniqueIds(ids), BatchItemRequest(NormalizeReviewStatus(req.status).value, req), now);
    }
  }

  // ---- projection ----

  lemma LastFacts<T>(n: nat, s: seq<T>)
    ensures |Last(n, s)| <= n && |Last(n, s)| <= |s| && Last(n, s) == s[|s| - |Last(n, s)|..]
  {
  }

  /** The audit stays the recent end of all attempts. */
  lemma IngestKeeps(s: Stores, id: string, env: Env)
    requires Inv(s)
    ensures var t := Ingest(s, id, env).0; Inv(t) && Grows(s, t) && t == s.(audit := t.audit, attempts := t.attempts)
  {
    var attempt := Attempt(Strip(id), env.graphiti(|s.attempts|));
    var t := Ingest(s, id, env).0;
    LastFacts(AUDIT_LIMIT, s.audit + [attempt]);
    assert s.audit + [attempt] == t.attempts[|s.attempts| - |s.audit|..];
  }

  lemma MarkProjectionKeeps(s: Stores, a: AssetRecord, g: GraphitiStatus, now: Time)
    requires Inv(s) && Lookup(AssetId, s.assets, a.id) == Some(a)
    ensures Inv(UpsertAsset(s, MarkedProjection(a, g, now))) && Grows(s, UpsertAsset(s, MarkedProjection(a, g, now)))
  {
    UpsertSameRecord(s, a, MarkedProjection(a, g, now));
  }

  lemma ProjectRecordKeeps(s: Stores, a: AssetRecord, env: Env)
    requires Inv(s) && Lookup(AssetId, s.assets, a.id) == Some(a)
    ensures Inv(ProjectRecord(s, a, env).0) && Grows(s, ProjectRecord(s, a, env).0)
  {
    var audited := AuditedIngestion(s.audit, a.id);
    if audited.Some? {
      MarkProjectionKeeps(s, a, audited.value, env.now);
    } else {
      IngestKeeps(s, a.id, env);
      var (s1, g) := Ingest(s, a.id, env);
      MarkProjectionKeeps(s1, a, g, env.now);
      GrowsTransitive(s, s1, UpsertAsset(s1, MarkedProjection(a, g, env.now)));
    }
  }

  lemma ProjectAssetKeeps(s: Stores, assetId: string, env: Env)
    requires Inv(s)
    ensures Inv(ProjectAsset(s, assetId, env).0) && Grows(s, ProjectAsset(s, assetId, env).0)
  {
    LookupMember(AssetId, s.assets, Strip(assetId));
    var found := Lookup(AssetId, s.assets, Strip(assetId));
    if found.Some? {
      ProjectRecordKeeps(s, found.value, env);
    }
  }

  lemma RelateOneKeeps(s: Stores, a: AssetRecord, o: Object, acc: Relating, env: Env)
    requires Inv(s)
    ensures var t := RelateOne(s, a, o, acc, env).0;
            Inv(t) && Grows(s, t) && t == s.(audit := t.audit, attempts := t.attempts)
  {
    hide Inv, Grows, Ingest, AuditedIngestion, RelationshipId, Eligible;
    TicketsKeep(s, s.tickets);
    IngestKeeps(s, RelationshipId(a.id, o, env), env);
  }

  lemma {:induction false} RelateFoldKeeps(s: Stores, a: AssetRecord, relations: seq<Object>, env: Env)
    requires Inv(s)
    ensures var t := RelateFold(s, a, relations, env).0;
            Inv(t) && Grows(s, t) && t == s.(audit := t.audit, attempts := t.attempts)
  {
    if relations != [] {
      var n := |relations| - 1;
      RelateFoldKeeps(s, a, relations[..n], env);
      var (s1, before) := RelateFold(s, a, relations[..n], env);
      if before.Ok? {
        RelateOneKeeps(s1, a, relations[n], before.value, env);
        GrowsTransitive(s, s1, RelateOne(s1, a, relations[n], before.value, env).0);
      }
    }
  }

  lemma RelateRecordKeeps(s: Stores, a: AssetRecord, env: Env)
    requires Inv(s) && Lookup(AssetId, s.assets, a.id) == Some(a)
    ensures Inv(RelateRecord(s, a, env).0) && Grows(s, RelateRecord(s, a, env).0)
  {
    hide Inv, Grows, Upsert, RelateFold;
    RelateFoldKeeps(s, a, a.relationships, env);
    var (s1, related) := RelateFold(s, a, a.relationships, env);
    if related.Ok? {
      UpsertSameRecord(s1, a, MarkedRelationships(a, related.value.confirmed, env.now));
      GrowsTransitive(s, s1, UpsertAsset(s1, MarkedRelationships(a, related.value.confirmed, env.now)));
    }
  }

  lemma ProjectRelationshipsKeeps(s: Stores, assetId: string, env: Env)
    requires Inv(s)
    ensures Inv(ProjectRelationships(s, assetId, env).0) && Grows(s, ProjectRelationships(s, assetId, env).0)
  {
    LookupMember(AssetId, s.assets, Strip(assetId));
    var found := Lookup(AssetId, s.assets, Strip(assetId));
    if found.Some? {
      RelateRecordKeeps(s, found.value, env);
    }
  }

  lemma {:induction false} ProjectFoldKeeps(s: Stores, ids: seq<string>, relationships: bool, env: Env)
    requires Inv(s)
    ensures Inv(ProjectFold(s, ids, relationships, env).0) && Grows(s, ProjectFold(s, ids, relationships, env).0)
  {
    if ids != [] {
      var n := |ids| - 1;
      ProjectFoldKeeps(s, ids[..n], relationships, env);
      var s1 := ProjectFold(s, ids[..n], relationships, env).0;
      ProjectAssetKeeps(s1, ids[n], env);
      ProjectRelationshipsKeeps(ProjectAsset(s1, ids[n], env).0, ids[n], env);
    }
  }

  // ---- closeout ----

  lemma {:induction false} ProposeFoldKeeps(s: Stores, drafts: seq<Candidate>)
    requires Inv(s)
    ensures var t := ProposeFold(s, drafts).0; Inv(t) && Grows(s, t) && t == s.(candidates := t.candidates)
  {
    if drafts != [] {
      var n := |drafts| - 1;
      ProposeFoldKeeps(s, drafts[..n]);
      UpsertCandidateKeeps(ProposeFold(s, drafts[..n]).0, drafts[n]);
    }
  }

  lemma ProposeKeeps(s: Stores, ticketId: string, env: Env)
    requires Inv(s)
    ensures Inv(Propose(s, ticketId, env).0) && Grows(s, Propose(s, ticketId, env).0)
  {
    hide Inv, Grows, CloseoutReady, ProposeFold, CloseoutCandidates, ReportOnce, Strip, Ids;
    TicketsKeep(s, s.tickets);
    var id := Strip(ticketId);
    var t := Propose(s, ticketId, env).0;
    if id in s.tickets && CloseoutReady(s.tickets[id]) {
      ProposeFoldKeeps(s, CloseoutCandidates(s.tickets[id], env));
      var s1 := ProposeFold(s, CloseoutCandidates(s.tickets[id], env)).0;
      TicketsKeep(s1, t.tickets);
      GrowsTransitive(s, s1, t);
    }
  }

  lemma SettleApprovalKeeps(s: Stores, selected: seq<Candidate>, req: SettleRequest, env: Env)
    requires Inv(s)
    ensures Inv(SettleApproval(s, selected, req, env).0) && Grows(s, SettleApproval(s, selected, req, env).0)
  {
    hide Inv, BatchReview, AwaitingReview;
    BatchKeeps(s, Ids(Filter(AwaitingReview, selected)), SettleReviewRequest(req), env.now);
  }

  /** Only a Ticket can still change once the projections are done. */
  lemma SettleProjectionsKeeps(s: Stores, id: string, req: SettleRequest, env: Env, p: ProposeResponse,
                               review: Option<BatchResponse>, ids: seq<string>)
    requires Inv(s)
    ensures var t := SettleProjections(s, id, req, env, p, review, ids).0; Inv(t) && Grows(s, t)
  {
    hide Inv, Grows, ProjectFold, SettlementAssetIds, SettledCandidates, ReportOnce;
    var assetIds := SettlementAssetIds(SettledCandidates(s, ids), s.assets);
    ProjectFoldKeeps(s, assetIds, req.projectRelationships, env);
    var s1 := if req.project then ProjectFold(s, assetIds, req.projectRelationships, env).0 else s;
    var t := SettleProjections(s, id, req, env, p, review, ids).0;
    TicketsKeep(s, s.tickets);
    TicketsKeep(s1, t.tickets);
    GrowsTransitive(s, s1, t);
  }

  lemma SettleKeeps(s: Stores, ticketId: string, req: SettleRequest, env: Env)
    requires Inv(s)
    ensures Inv(Settle(s, ticketId, req, env).0) && Grows(s, Settle(s, ticketId, req, env).0)
  {
    hide Inv, Grows, Propose, SettleApproval, SettleProjections, SelectByType;
    ProposeKeeps(s, ticketId, env);
    var (s1, proposal) := Propose(s, ticketId, env);
    if proposal.Ok? {
      var selected := SelectByType(proposal.value.candidates, req.assetTypes);
      SettleApprovalKeeps(s1, selected, req, env);
      var (s2, review) := SettleApproval(s1, selected, req, env);
      GrowsTransitive(s, s1, s2);
      if review.Ok? {
        SettleProjectionsKeeps(s2, Strip(ticketId), req, env, proposal.value, review.value, Ids(selected));
        var t := SettleProjections(s2, Strip(ticketId), req, env, proposal.value, review.value, Ids(selected)).0;
        GrowsTransitive(s, s2, t);
      }
    }
  }

  // ---- usefulness sync ----

  lemma {:induction false} SyncCandidatesAt(cs: seq<Candidate>, m: MemoryUsage, id: string, assetId: string, now: Time)
    ensures forall i :: 0 <= i < |cs| ==>
              var d := SyncCandidates(cs, m, id, assetId, now)[i];
              d.id == cs[i].id && d.createdAt == cs[i].createdAt && (!CandidateUsed(cs[i], id, assetId) ==> d == cs[i])
  {
    if cs != [] {
      SyncCandidatesAt(cs[..|cs| - 1], m, id, assetId, now);
    }
  }

  lemma {:induction false} SyncAssetsAt(assets: seq<AssetRecord>, m: MemoryUsage, id: string, assetId: string, now: Time)
    ensures SameRecords(assets, SyncAssets(assets, m, id, assetId, now))
    ensures forall i :: 0 <= i < |assets| && !AssetUsed(assets[i], id, assetId) ==>
              SyncAssets(assets, m, id, assetId, now)[i] == assets[i]
  {
    hide AssetUsed;
    if assets != [] {
      SyncAssetsAt(assets[..|assets| - 1], m, id, assetId, now);
    }
  }

  lemma SyncCandidateStepKeeps(s: Stores, m: MemoryUsage, id: string, assetId: string, now: Time)
    requires Inv(s)
    ensures var t := SyncCandidateStep(s, m, id, assetId, now); Inv(t) && Grows(s, t)
  {
    SyncCandidatesAt(s.candidates, m, id, assetId, now);
    EditCandidatesKeeps(s, SyncCandidates(s.candidates, m, id, assetId, now));
    UpsertCandidateKeeps(s, ImportedCandidate(m, id));
  }

  lemma SyncAssetStepKeeps(s: Stores, m: MemoryUsage, id: string, assetId: string, now: Time)
    requires Inv(s)
    ensures var t := SyncAssetStep(s, m, id, assetId, now); Inv(t) && Grows(s, t)
  {
    SyncAssetsAt(s.assets, m, id, assetId, now);
    SameRecordsKeep(s, s.(assets := SyncAssets(s.assets, m, id, assetId, now)));
  }

  lemma SyncKeeps(s: Stores, m: MemoryUsage, now: Time)
    requires Inv(s)
    ensures Inv(SyncUsefulness(s, m, now).0) && Grows(s, SyncUsefulness(s, m, now).0)
  {
    hide Inv, Grows, SyncCandidateStep, SyncAssetStep, Strip;
    TicketsKeep(s, s.tickets);
    var id := Strip(m.id);
    var assetId := OrElse(Strip(OrElse(m.provenanceAssetId, id)), id);
    var s1 := SyncCandidateStep(s, m, id, assetId, now);
    SyncCandidateStepKeeps(s, m, id, assetId, now);
    SyncAssetStepKeeps(s1, m, id, assetId, now);
    GrowsTransitive(s, s1, SyncAssetStep(s1, m, id, assetId, now));
  }

  // ---- runs ----

  datatype Op =
    | DoUpsertCandidate(candidate: Candidate)
    | DoReview(candidateId: string, review: ReviewRequest)
    | DoBatch(candidateIds: seq<string>, batch: ReviewRequest)
    | DoPropose(ticketId: string)
    | DoSettle(ticketId: string, settle: SettleRequest)
    | DoRetrospective(ticketId: string, failedItems: nat, minFailed: nat)
    | DoProjectAsset(assetId: string)
    | DoProjectRelationships(assetId: string)
    | DoSync(usage: MemoryUsage)
    | DoImport(usage: MemoryUsage)
      // other services: a Ticket changes, another durable asset is ingested, a memory approval rewrites the state file
    | DoTicketChange(ticket: Ticket)
    | DoOtherIngest(otherId: string)
    | DoAuditReset

  /** What a memory approval does to the state file: the whole audit goes. */
  function AuditReset(s: Stores): Stores { s.(audit := []) }

  function Step(s: Stores, op: Op, env: Env): Stores {
    match op
    case DoUpsertCandidate(c) => UpsertCandidate(s, c)
    case DoReview(id, req) => ReviewCandidate(s, id, req, env.now).0
    case DoBatch(ids, req) => BatchReview(s, ids, req, env.now).0
    case DoPropose(id) => Propose(s, id, env).0
    case DoSettle(id, req) => Settle(s, id, req, env).0
    case DoRetrospective(id, failed, min) => Retrospective(s, id, failed, min, env).0
    case DoProjectAsset(id) => ProjectAsset(s, id, env).0
    case DoProjectRelationships(id) => ProjectRelationships(s, id, env).0
    case DoSync(m) => SyncUsefulness(s, m, env.now).0
    case DoImport(m) => ImportMemory(s, m).0
    case DoTicketChange(t) => s.(tickets := s.tickets[t.id := t])
    case DoOtherIngest(id) => Ingest(s, id, env).0
    case DoAuditReset => AuditReset(s)
  }

  lemma RetrospectiveKeeps(s: Stores, ticketId: string, failedItems: nat, minFailed: nat, env: Env)
    requires Inv(s)
    ensures var t := Retrospective(s, ticketId, failedItems, minFailed, env).0; Inv(t) && Grows(s, t)
  {
    hide Inv, Grows, Fresh, ReportOnce, UpsertCandidate;
    TicketsKeep(s, s.tickets);
    var t := Retrospective(s, ticketId, failedItems, minFailed, env).0;
    if Strip(ticketId) in s.tickets {
      var c := Fresh(s.tickets[Strip(ticketId)], "loop-failure-retrospective", "failure_retrospective", env);
      UpsertCandidateKeeps(s, c);
      TicketsKeep(UpsertCandidate(s, c), t.tickets);
      GrowsTransitive(s, UpsertCandidate(s, c), UpsertCandidate(s, c).(tickets := t.tickets));
    }
  }

  lemma AuditResetKeeps(s: Stores)
    requires Inv(s)
    ensures Inv(AuditReset(s)) && Grows(s, AuditReset(s))
  {
  }

  lemma StepKeeps(s: Stores, op: Op, env: Env)
    requires Inv(s)
    ensures Inv(Step(s, op, env)) && Grows(s, Step(s, op, env))
  {
    hide ReviewCandidate, BatchReview, Propose, Settle, ProjectAsset, ProjectRelationships, SyncUsefulness, Upsert, Ingest;
    hide Inv, Grows, Fresh, ImportedCandidate, ReportOnce;
    match op
    case DoUpsertCandidate(c) => UpsertCandidateKeeps(s, c);
    case DoReview(id, req) => ReviewKeeps(s, id, req, env.now);
    case DoBatch(ids, req) => BatchKeeps(s, ids, req, env.now);
    case DoPropose(id) => ProposeKeeps(s, id, env);
    case DoSettle(id, req) => SettleKeeps(s, id, req, env);
    case DoRetrospective(id, failed, min) => RetrospectiveKeeps(s, id, failed, min, env);
    case DoProjectAsset(id) => ProjectAssetKeeps(s, id, env);
    case DoProjectRelationships(id) => ProjectRelationshipsKeeps(s, id, env);
    case DoSync(m) => SyncKeeps(s, m, env.now);
    case DoImport(m) => TicketsKeep(s, s.tickets); UpsertCandidateKeeps(s, ImportedCandidate(m, Strip(m.id)));
    case DoTicketChange(t) => TicketsKeep(s, s.tickets[t.id := t]);
    case DoOtherIngest(id) => IngestKeeps(s, id, env);
    case DoAuditReset => AuditResetKeeps(s);
  }

  function StepPair(s: Stores, x: (Op, Env)): Stores { Step(s, x.0, x.1) }

  function Run(s: Stores, steps: seq<(Op, Env)>): Stores { Fold(StepPair, s, steps) }

  lemma {:induction false} RunKeeps(s: Stores, steps: seq<(Op, Env)>)
    requires Inv(s)
    ensures Inv(Run(s, steps)) && Grows(s, Run(s, steps))
  {
    if steps != [] {
      var n := |steps| - 1;
      RunKeeps(s, steps[..n]);
      StepKeeps(Run(s, steps[..n]), steps[n].0, steps[n].1);
    }
  }

  function EmptyStores(tickets: map<string, Ticket>): Stores { Stores([], [], [], [], [], tickets) }

  // ---- main results ----

  /** Both lists are sorted by creation time and answer lookups as maps: an id found in the list belongs to exactly
      one record. */
  ghost predicate KeyedMaps(s: Stores) {
    && Sorted(CandidateTime, s.candidates) && Sorted(AssetTime, s.assets)
    && (forall c :: c in s.candidates <==> Lookup(CandidateId, s.candidates, c.id) == Some(c))
    && (forall a :: a in s.assets <==> Lookup(AssetId, s.assets, a.id) == Some(a))
  }

  /** After any run the candidate and record lists are maps from ids. */
  lemma {:induction false} StoresAreKeyedMaps(tickets: map<string, Ticket>, steps: seq<(Op, Env)>)
    ensures KeyedMaps(Run(EmptyStores(tickets), steps))
  {
    RunKeeps(EmptyStores(tickets), steps);
    ListsAreMaps(Run(EmptyStores(tickets), steps));
  }

  lemma ListsAreMaps(s: Stores)
    requires Inv(s)
    ensures KeyedMaps(s)
  {
    assert ListsOk(s);
    hide Inv, Lookup, Distinct, Sorted;
    forall c ensures c in s.candidates <==> Lookup(CandidateId, s.candidates, c.id) == Some(c) {
      LookupIsMember(CandidateId, s.candidates, c);
    }
    forall a ensures a in s.assets <==> Lookup(AssetId, s.assets, a.id) == Some(a) {
      LookupIsMember(AssetId, s.assets, a);
    }
  }

  /** Links between the stores hold from then on: an approval logged by step `k` has its record after every
      later step, and a record that carries a review id names an approved review of the candidate it came from. */
  lemma {:induction false} ReferentialIntegrity(tickets: map<string, Ticket>, steps: seq<(Op, Env)>, k: nat, r: Review)
    requires k <= |steps|
    requires r in Run(EmptyStores(tickets), steps[..k]).reviews && r.status == "approved"
    ensures var s := Run(EmptyStores(tickets), steps);
            r in s.reviews && Has(AssetId, s.assets, SettledRecordId(r)) && RecordsNameReviews(s)
  {
    var s0 := EmptyStores(tickets);
    RunKeeps(s0, steps[..k]);
    FoldSplit(StepPair, s0, steps, k);
    RunKeeps(Run(s0, steps[..k]), steps[k..]);
    RunKeeps(s0, steps);
  }

  /** No two entries of the review log ever share an id. */
  lemma {:induction false} ReviewIdsDistinct(tickets: map<string, Ticket>, steps: seq<(Op, Env)>, i: nat, j: nat)
    requires i < j < |Run(EmptyStores(tickets), steps).reviews|
    ensures Run(EmptyStores(tickets), steps).reviews[i].id != Run(EmptyStores(tickets), steps).reviews[j].id
  {
    RunKeeps(EmptyStores(tickets), steps);
    var log := Run(EmptyStores(tickets), steps).reviews;
    assert ReviewKey(log[i]) != ReviewKey(log[j]);
  }

  /** After every run every record is approved, in both of its fields: a later rejection, merge or link of its candidate
      never withdraws it. */
  lemma {:induction false} RecordsStayApproved(tickets: map<string, Ticket>, steps: seq<(Op, Env)>, a: AssetRecord)
    requires a in Run(EmptyStores(tickets), steps).assets
    ensures a.status == "approved" && a.reviewState == "approved"
    ensures exists r :: r in Run(EmptyStores(tickets), steps).reviews && ApprovedBy(a, r)
  {
    RunKeeps(EmptyStores(tickets), steps);
    assert RecordOk(a);
  }

  /** An approval logs the id of its record exactly when the candidate's Asset id carried no surrounding whitespace
      before the review; a candidate without one gets a trimmed id first. */
  lemma ReviewNamesRecord(s: Stores, candidateId: string, req: ReviewRequest, now: Time)
    requires Lookup(CandidateId, s.candidates, Strip(candidateId)).Some?
    requires NormalizeReviewStatus(req.status) == Some("approved")
    ensures var before := Lookup(CandidateId, s.candidates, Strip(candidateId)).value;
            var out := ReviewCandidate(s, candidateId, req, now).1;
            && out.Ok? && out.value.asset.Some?
            && (out.value.review.assetId == out.value.asset.value.id <==> Trimmed(before.assetId))
  {
    hide SettleReview, AppendReview, SortBy, NormalizeReviewStatus, Strip, Trimmed, SafeRef, Decimal, ReviewId;
    LookupMember(CandidateId, s.candidates, Strip(candidateId));
    var before := Lookup(CandidateId, s.candidates, Strip(candidateId)).value;
    AssetIdFromCandidateOk(before);
    var c := ReviewedCandidate(before, "approved", req, now);
    NamesTrimmed(c);
    EmptyTrimmed();
  }

  lemma EmptyTrimmed()
    ensures Trimmed("")
  {
  }

  /** An Asset id is the id of the record it leads to exactly when it is trimmed and not empty. */
  lemma NamesTrimmed(c: Candidate)
    ensures c.assetId == AssetIdFromCandidate(c) <==> Trimmed(c.assetId) && c.assetId != ""
  {
    StripFacts(c.assetId);
    AssetIdFromCandidateOk(c);
    if c.assetId == AssetIdFromCandidate(c) && Strip(c.assetId) == "" {
      StripFacts(AssetIdFromCandidate(c));
      assert false;
    }
  }
}
