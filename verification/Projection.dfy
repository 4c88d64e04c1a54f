/** Graphiti projection: when an Asset is ingested again, and what marking a record leaves alone. */
module Projection {
  import opened Text
  import opened Json
  import opened StableSort
  import opened Keyed
  import opened RegistryModel
  import opened RegistryInvariants

  /** A successful ingestion of `id`. */
  predicate SuccessFor(a: Attempt, id: string) { Strip(a.assetId) == Strip(id) && Ingested(a.graphiti) }

  predicate SameSuccess(a: Attempt, b: Attempt) {
    Ingested(a.graphiti) && Ingested(b.graphiti) && Strip(a.assetId) == Strip(b.assetId)
  }

  lemma {:induction false} AuditedExactly(audit: seq<Attempt>, id: string)
    ensures AuditedIngestion(audit, id).Some? <==> exists i :: 0 <= i < |audit| && SuccessFor(audit[i], id)
    ensures AuditedIngestion(audit, id).Some? ==> Ingested(AuditedIngestion(audit, id).value)
  {
    hide Strip;
    if audit != [] {
      var n := |audit| - 1;
      AuditedExactly(audit[..n], id);
      if SuccessFor(audit[n], id) {
      } else if exists i :: 0 <= i < |audit| && SuccessFor(audit[i], id) {
        var i :| 0 <= i < |audit| && SuccessFor(audit[i], id);
        assert SuccessFor(audit[..n][i], id);
      }
    }
  }

  /** The record under `id` may be sent to Graphiti. */
  predicate Projectable(assets: seq<AssetRecord>, id: string) {
    var found := Lookup(AssetId, assets, id);
    found.Some? && ProjectableStatus(found.value.status) && ValidIngestRequest(found.value)
  }

  /** The guard of a projection: an approved record is sent to Graphiti exactly when none of the attempts the
      audit still holds succeeded for it, and then exactly once. */
  lemma ProjectionGuard(s: Stores, assetId: string, env: Env)
    requires AuditOk(s) && Projectable(s.assets, Strip(assetId))
    ensures var (t, result) := ProjectAsset(s, assetId, env);
            var n := |s.attempts|;
            && (t.attempts == s.attempts <==>
                exists i :: n - |s.audit| <= i < n && SuccessFor(s.attempts[i], assetId))
            && (t.attempts != s.attempts ==> t.attempts == s.attempts + [Attempt(Strip(assetId), env.graphiti(n))])
            && (result.Ok? <==> t.attempts == s.attempts || Ingested(env.graphiti(n)))
  {
    LookupMember(AssetId, s.assets, Strip(assetId));
    StripTwice(assetId);
    AuditIsRecentEnd(s, assetId);
    var a := Lookup(AssetId, s.assets, Strip(assetId)).value;
    RecordGuard(s, a, env);
  }

  /** The audit knows `id` exactly when one of the attempts it covers succeeded for it. */
  lemma AuditIsRecentEnd(s: Stores, id: string)
    requires AuditOk(s)
    ensures var n := |s.attempts|;
            AuditedIngestion(s.audit, Strip(id)).Some? <==>
            exists i :: n - |s.audit| <= i < n && SuccessFor(s.attempts[i], id)
  {
    StripTwice(id);
    AuditedExactly(s.audit, Strip(id));
    var shift := |s.attempts| - |s.audit|;
    if i :| 0 <= i < |s.audit| && SuccessFor(s.audit[i], Strip(id)) {
      assert SuccessFor(s.attempts[i + shift], id);
    }
    if i :| shift <= i < |s.attempts| && SuccessFor(s.attempts[i], id) {
      assert SuccessFor(s.audit[i - shift], Strip(id));
    }
  }

  lemma RecordGuard(s: Stores, a: AssetRecord, env: Env)
    requires ValidIngestRequest(a)
    ensures var (t, result) := ProjectRecord(s, a, env);
            var audited := AuditedIngestion(s.audit, a.id).Some?;
            && t.attempts == (if audited then s.attempts
                              else s.attempts + [Attempt(Strip(a.id), env.graphiti(|s.attempts|))])
            && (result.Ok? <==> audited || Ingested(env.graphiti(|s.attempts|)))
  {
  }

  /** When a projection ingests an Asset again: exactly when it was ingested before, no attempt the audit still holds
      succeeded for it, and Graphiti answers. */
  lemma IngestedAgainExactly(s: Stores, assetId: string, env: Env)
    requires AuditOk(s) && Projectable(s.assets, Strip(assetId))
    ensures var t := ProjectAsset(s, assetId, env).0;
            var n, held := |s.attempts|, |s.audit|;
            (|t.attempts| > n && exists i :: 0 <= i < n && SameSuccess(s.attempts[i], t.attempts[n])) <==>
              && (exists i :: 0 <= i < n - held && SuccessFor(s.attempts[i], assetId))
              && !(exists i :: n - held <= i < n && SuccessFor(s.attempts[i], assetId))
              && Ingested(env.graphiti(n))
  {
    ProjectionGuard(s, assetId, env);
    StripTwice(assetId);
    hide ProjectAsset, Projectable, Strip;
    var t, n, held := ProjectAsset(s, assetId, env).0, |s.attempts|, |s.audit|;
    var last := Attempt(Strip(assetId), env.graphiti(n));
    assert forall i :: 0 <= i < n && Ingested(env.graphiti(n)) ==>
        (SameSuccess(s.attempts[i], last) <==> SuccessFor(s.attempts[i], assetId));
  }

  // ---- at most once per window ----

  /** Any two successful ingestions of one id are more than a full audit apart. */
  ghost predicate Spaced(attempts: seq<Attempt>) {
    forall i, j :: 0 <= i < j < |attempts| && SameSuccess(attempts[i], attempts[j]) ==> j - i > AUDIT_LIMIT
  }

  ghost predicate Windowed(s: Stores) { s.audit == Last(AUDIT_LIMIT, s.attempts) && Spaced(s.attempts) }

  /** An ingestion that consulted the audit first. */
  lemma GuardedIngestKeeps(s: Stores, id: string, env: Env)
    requires Windowed(s) && AuditedIngestion(s.audit, id).None?
    ensures Windowed(Ingest(s, id, env).0)
  {
    var t := Ingest(s, id, env).0;
    var n := |s.attempts|;
    StripTwice(id);
    AuditedExactly(s.audit, id);
    forall k | 0 <= k < |s.audit| ensures s.attempts[k + n - |s.audit|] == s.audit[k] && !SuccessFor(s.audit[k], id) {
    }
    forall i | 0 <= i < n && n - i <= AUDIT_LIMIT ensures !SuccessFor(s.attempts[i], id) {
      assert s.audit[i - (n - |s.audit|)] == s.attempts[i];
    }
  }

  lemma ProjectAssetWindowed(s: Stores, assetId: string, env: Env)
    requires Windowed(s)
    ensures Windowed(ProjectAsset(s, assetId, env).0)
  {
    var found := Lookup(AssetId, s.assets, Strip(assetId));
    if found.Some? && AuditedIngestion(s.audit, found.value.id).None? {
      GuardedIngestKeeps(s, found.value.id, env);
    }
  }

  lemma RelateOneWindowed(s: Stores, a: AssetRecord, o: Object, acc: Relating, env: Env)
    requires Windowed(s)
    ensures Windowed(RelateOne(s, a, o, acc, env).0)
  {
    if AuditedIngestion(s.audit, RelationshipId(a.id, o, env)).None? {
      GuardedIngestKeeps(s, RelationshipId(a.id, o, env), env);
    }
  }

  lemma {:induction false} RelateFoldWindowed(s: Stores, a: AssetRecord, relations: seq<Object>, env: Env)
    requires Windowed(s)
    ensures Windowed(RelateFold(s, a, relations, env).0)
  {
    if relations != [] {
      var n := |relations| - 1;
      RelateFoldWindowed(s, a, relations[..n], env);
      var (s1, before) := RelateFold(s, a, relations[..n], env);
      if before.Ok? {
        RelateOneWindowed(s1, a, relations[n], before.value, env);
      }
    }
  }

  lemma ProjectRelationshipsWindowed(s: Stores, assetId: string, env: Env)
    requires Windowed(s)
    ensures Windowed(ProjectRelationships(s, assetId, env).0)
  {
    var found := Lookup(AssetId, s.assets, Strip(assetId));
    if found.Some? {
      RelateFoldWindowed(s, found.value, found.value.relationships, env);
    }
  }

  lemma {:induction false} ProjectFoldWindowed(s: Stores, ids: seq<string>, relationships: bool, env: Env)
    requires Windowed(s)
    ensures Windowed(ProjectFold(s, ids, relationships, env).0)
  {
    if ids != [] {
      var n := |ids| - 1;
      ProjectFoldWindowed(s, ids[..n], relationships, env);
      var s1 := ProjectFold(s, ids[..n], relationships, env).0;
      ProjectAssetWindowed(s1, ids[n], env);
      ProjectRelationshipsWindowed(ProjectAsset(s1, ids[n], env).0, ids[n], env);
    }
  }

  /** The stores agree on everything Graphiti was asked. */
  ghost predicate SameAttempts(s: Stores, t: Stores) { s.attempts == t.attempts && s.audit == t.audit }

  lemma SettleReviewAttempts(s: Stores, c: Candidate, r: Review, now: Time)
    ensures SameAttempts(s, SettleReview(s, c, r, now)) && SettleReview(s, c, r, now).tickets == s.tickets
  {
  }

  lemma ReviewAttempts(s: Stores, id: string, req: ReviewRequest, now: Time)
    ensures SameAttempts(s, ReviewCandidate(s, id, req, now).0) && ReviewCandidate(s, id, req, now).0.tickets == s.tickets
  {
    var i := Find(CandidateId, s.candidates, Strip(id));
    if i < |s.candidates| && NormalizeReviewStatus(req.status).Some? {
      var c := ReviewedCandidate(s.candidates[i], NormalizeReviewStatus(req.status).value, req, now);
      var r := ReviewOf(c, |s.reviews|, req, now);
      var s1 := s.(candidates := SortBy(CandidateTime, s.candidates[i := c]));
      SettleReviewAttempts(AppendReview(s1, r), c, r, now);
    }
  }

  lemma {:induction false} BatchFoldAttempts(s: Stores, ids: seq<string>, req: ReviewRequest, now: Time)
    ensures SameAttempts(s, BatchFold(s, ids, req, now).0)
    ensures BatchFold(s, ids, req, now).0.tickets == s.tickets
  {
    if ids != [] {
      BatchFoldAttempts(s, ids[..|ids| - 1], req, now);
      ReviewAttempts(BatchFold(s, ids[..|ids| - 1], req, now).0, ids[|ids| - 1], req, now);
    }
  }

  lemma {:induction false} ProposeFoldAttempts(s: Stores, drafts: seq<Candidate>)
    ensures ProposeFold(s, drafts).0 == s.(candidates := ProposeFold(s, drafts).0.candidates)
  {
    if drafts != [] {
      ProposeFoldAttempts(s, drafts[..|drafts| - 1]);
    }
  }

  lemma ProposeAttempts(s: Stores, ticketId: string, env: Env)
    ensures SameAttempts(s, Propose(s, ticketId, env).0)
  {
    if Strip(ticketId) in s.tickets {
      ProposeFoldAttempts(s, CloseoutCandidates(s.tickets[Strip(ticketId)], env));
    }
  }

  lemma SyncAttempts(s: Stores, m: MemoryUsage, now: Time)
    ensures SameAttempts(s, SyncUsefulness(s, m, now).0)
  {
  }

  lemma SettleWindowed(s: Stores, ticketId: string, req: SettleRequest, env: Env)
    requires Windowed(s)
    ensures Windowed(Settle(s, ticketId, req, env).0)
  {
    hide Propose, SelectByType, SettleApproval, ProjectFold, SettlementAssetIds, SettledCandidates, ReportOnce, Ids, Spaced, Strip;
    var (s1, proposal) := Propose(s, ticketId, env);
    ProposeAttempts(s, ticketId, env);
    if proposal.Ok? {
      var selected := SelectByType(proposal.value.candidates, req.assetTypes);
      var (s2, review) := SettleApproval(s1, selected, req, env);
      SettleApprovalAttempts(s1, selected, req, env);
      if review.Ok? {
        ProjectFoldWindowed(s2, SettlementAssetIds(SettledCandidates(s2, Ids(selected)), s2.assets),
                            req.projectRelationships, env);
      }
    }
  }

  lemma BatchReviewAttempts(s: Stores, ids: seq<string>, req: ReviewRequest, now: Time)
    ensures SameAttempts(s, BatchReview(s, ids, req, now).0) && BatchReview(s, ids, req, now).0.tickets == s.tickets
  {
    var status := NormalizeReviewStatus(req.status);
    if status.Some? {
      BatchFoldAttempts(s, UniqueIds(ids), BatchItemRequest(status.value, req), now);
    }
  }

  lemma SettleApprovalAttempts(s: Stores, selected: seq<Candidate>, req: SettleRequest, env: Env)
    ensures SameAttempts(s, SettleApproval(s, selected, req, env).0)
    ensures SettleApproval(s, selected, req, env).0.tickets == s.tickets
  {
    BatchReviewAttempts(s, Ids(Filter(AwaitingReview, selected)), SettleReviewRequest(req), env.now);
  }

  /** Every ingestion in the step consults the audit, and the audit is not rewritten. */
  ghost predicate Guarded(s: Stores, op: Op) {
    !op.DoAuditReset? && (op.DoOtherIngest? ==> AuditedIngestion(s.audit, op.otherId).None?)
  }

  ghost predicate GuardedRun(s: Stores, steps: seq<(Op, Env)>) {
    steps == [] ||
    (GuardedRun(s, steps[..|steps| - 1]) && Guarded(Run(s, steps[..|steps| - 1]), steps[|steps| - 1].0))
  }

  lemma {:induction false} StepWindowed(s: Stores, op: Op, env: Env)
    requires Windowed(s) && Guarded(s, op)
    ensures Windowed(Step(s, op, env))
  {
    hide ReviewCandidate, BatchReview, Propose, Settle, ProjectAsset, ProjectRelationships, SyncUsefulness, Ingest, Upsert,
         Fresh, ReportOnce, ImportedCandidate, AuditedIngestion, Spaced, Strip;
    match op
    case DoUpsertCandidate(c) =>
    case DoReview(id, req) => ReviewAttempts(s, id, req, env.now);
    case DoBatch(ids, req) => BatchReviewAttempts(s, ids, req, env.now);
    case DoPropose(id) => ProposeAttempts(s, id, env);
    case DoSettle(id, req) => SettleWindowed(s, id, req, env);
    case DoRetrospective(id, failed, min) =>
    case DoProjectAsset(id) => ProjectAssetWindowed(s, id, env);
    case DoProjectRelationships(id) => ProjectRelationshipsWindowed(s, id, env);
    case DoSync(m) => SyncAttempts(s, m, env.now);
    case DoImport(m) =>
    case DoTicketChange(t) =>
    case DoOtherIngest(id) => GuardedIngestKeeps(s, id, env);
  }

  lemma {:induction false} RunWindowed(s: Stores, steps: seq<(Op, Env)>)
    requires Windowed(s) && GuardedRun(s, steps)
    ensures Windowed(Run(s, steps))
  {
    if steps != [] {
      var n := |steps| - 1;
      RunWindowed(s, steps[..n]);
      StepWindowed(Run(s, steps[..n]), steps[n].0, steps[n].1);
    }
  }

  /** Over every guarded run two successful ingestions of one id are more than 100 attempts apart; so while no
      more than 101 attempts were made, no id was ingested twice. */
  lemma {:induction false} AtMostOncePerWindow(tickets: map<string, Ticket>, steps: seq<(Op, Env)>, i: nat, j: nat)
    requires GuardedRun(EmptyStores(tickets), steps)
    requires var attempts := Run(EmptyStores(tickets), steps).attempts;
             i < j < |attempts| && SameSuccess(attempts[i], attempts[j])
    ensures j - i > AUDIT_LIMIT && |Run(EmptyStores(tickets), steps).attempts| > AUDIT_LIMIT + 1
  {
    RunWindowed(EmptyStores(tickets), steps);
  }

  /** With an empty audit and a willing Graphiti, a projectable record is ingested and stays projectable. */
  lemma IngestedOnce(s: Stores, assetId: string, env: Env)
    requires Distinct(AssetId, s.assets) && s.audit == [] && Projectable(s.assets, Strip(assetId))
    requires Ingested(env.graphiti(|s.attempts|))
    ensures var t := ProjectAsset(s, assetId, env).0;
            && t.attempts == s.attempts + [Attempt(Strip(assetId), env.graphiti(|s.attempts|))]
            && Distinct(AssetId, t.assets) && Projectable(t.assets, Strip(assetId))
  {
    var a := Lookup(AssetId, s.assets, Strip(assetId)).value;
    LookupMember(AssetId, s.assets, Strip(assetId));
    StripTwice(assetId);
    UpsertIsMapUpdate(AssetId, AssetTime, s.assets, MarkedProjection(a, env.graphiti(|s.attempts|), env.now));
  }

  /** The promise fails across a memory approval: the same approved record is then ingested a second time. */
  lemma ReingestedAfterReset(s: Stores, assetId: string, env: Env)
    requires Distinct(AssetId, s.assets) && s.audit == [] && Projectable(s.assets, Strip(assetId))
    requires forall n :: Ingested(env.graphiti(n))
    ensures var once := ProjectAsset(s, assetId, env).0;
            var twice := ProjectAsset(AuditReset(once), assetId, env).0;
            var n := |s.attempts|;
            |twice.attempts| == n + 2 && SameSuccess(twice.attempts[n], twice.attempts[n + 1])
  {
    IngestedOnce(s, assetId, env);
    IngestedOnce(AuditReset(ProjectAsset(s, assetId, env).0), assetId, env);
  }

  // ---- marks ----

  /** Marking never raises the number of copies of a provider ref above one, and a second mark of the same
      episode adds nothing. */
  lemma MarkingNeverDuplicates(refs: seq<Json>, g: GraphitiStatus)
    ensures forall j :: multiset(ProviderRefs(refs, g))[j] == multiset(refs)[j]
                        || (multiset(refs)[j] == 0 && multiset(ProviderRefs(refs, g))[j] == 1)
    ensures refs <= ProviderRefs(refs, g) && ProviderRefs(ProviderRefs(refs, g), g) == ProviderRefs(refs, g)
  {
    if ProviderRefs(refs, g) != refs {
      assert GraphitiRef(g) !in multiset(refs);
      assert ProviderRefs(refs, g)[|refs|] == GraphitiRef(g);
    }
  }

  predicate MarkField(k: string) {
    || k == "graphiti_projected_at" || k == "graphiti_status" || k == "provider_refs"
    || k == "graphiti_relationships_projected_at" || k == "graphiti_relationships"
  }

  /** Only Graphiti marks and the update time differ. */
  ghost predicate SameButMarks(a: AssetRecord, b: AssetRecord) {
    && b == a.(provenance := b.provenance, updatedAt := b.updatedAt)
    && forall k :: !MarkField(k) ==>
         (k in a.provenance <==> k in b.provenance) && Get(a.provenance, k) == Get(b.provenance, k)
  }

  ghost predicate MarkedOnly(xs: seq<AssetRecord>, ys: seq<AssetRecord>) {
    |xs| == |ys| && forall i :: 0 <= i < |xs| ==> SameButMarks(xs[i], ys[i])
  }

  lemma MarkedOnlyTransitive(xs: seq<AssetRecord>, ys: seq<AssetRecord>, zs: seq<AssetRecord>)
    requires MarkedOnly(xs, ys) && MarkedOnly(ys, zs)
    ensures MarkedOnly(xs, zs)
  {
    forall i | 0 <= i < |xs| ensures SameButMarks(xs[i], zs[i]) {
      assert SameButMarks(xs[i], ys[i]) && SameButMarks(ys[i], zs[i]);
    }
  }

  ghost predicate GoodAssets(s: Stores) { Good(AssetId, AssetTime, s.assets) }

  /** What a projection may change: Graphiti's side and the marks. */
  ghost predicate OnlyProjected(s: Stores, t: Stores) {
    GoodAssets(t) && MarkedOnly(s.assets, t.assets) && t == s.(assets := t.assets, audit := t.audit, attempts := t.attempts)
  }

  lemma OnlyProjectedTransitive(s: Stores, t: Stores, u: Stores)
    requires OnlyProjected(s, t) && OnlyProjected(t, u)
    ensures OnlyProjected(s, u)
  {
    MarkedOnlyTransitive(s.assets, t.assets, u.assets);
  }

  lemma UpsertMarked(s: Stores, a: AssetRecord, b: AssetRecord)
    requires GoodAssets(s) && Lookup(AssetId, s.assets, a.id) == Some(a) && SameButMarks(a, b)
    ensures OnlyProjected(s, UpsertAsset(s, b)) && SameAttempts(s, UpsertAsset(s, b))
  {
    LookupMember(AssetId, s.assets, a.id);
    UpsertInPlace(AssetId, AssetTime, s.assets, Find(AssetId, s.assets, a.id), b);
  }

  lemma MarkedProjectionOk(a: AssetRecord, g: GraphitiStatus, now: Time)
    ensures SameButMarks(a, MarkedProjection(a, g, now))
  {
  }

  lemma MarkedRelationshipsOk(a: AssetRecord, confirmed: seq<Confirmed>, now: Time)
    ensures SameButMarks(a, MarkedRelationships(a, confirmed, now))
  {
  }

  lemma IngestEffect(s: Stores, id: string, env: Env)
    requires GoodAssets(s)
    ensures OnlyProjected(s, Ingest(s, id, env).0)
  {
  }

  lemma ProjectRecordEffect(s: Stores, a: AssetRecord, env: Env)
    requires GoodAssets(s) && Lookup(AssetId, s.assets, a.id) == Some(a)
    ensures var (t, r) := ProjectRecord(s, a, env);
            && OnlyProjected(s, t)
            && (AuditedIngestion(s.audit, a.id).Some? ==> SameAttempts(s, t) && r.Ok? && r.value.status == "skipped")
  {
    var audited := AuditedIngestion(s.audit, a.id);
    if audited.Some? {
      MarkedProjectionOk(a, audited.value, env.now);
      UpsertMarked(s, a, MarkedProjection(a, audited.value, env.now));
    } else {
      IngestEffect(s, a.id, env);
      var (s1, g) := Ingest(s, a.id, env);
      MarkedProjectionOk(a, g, env.now);
      UpsertMarked(s1, a, MarkedProjection(a, g, env.now));
      OnlyProjectedTransitive(s, s1, UpsertAsset(s1, MarkedProjection(a, g, env.now)));
    }
  }

  /** Projecting an id the audit knows asks Graphiti nothing. */
  lemma ProjectAssetEffect(s: Stores, assetId: string, env: Env)
    requires GoodAssets(s)
    ensures var (t, r) := ProjectAsset(s, assetId, env);
            && OnlyProjected(s, t)
            && (AuditedIngestion(s.audit, Strip(assetId)).Some? ==>
                SameAttempts(s, t) && (r.Ok? ==> r.value.status == "skipped"))
  {
    LookupMember(AssetId, s.assets, Strip(assetId));
    var found := Lookup(AssetId, s.assets, Strip(assetId));
    if found.Some? {
      ProjectRecordEffect(s, found.value, env);
    }
  }

  /** Every eligible relationship of the record is audited. */
  ghost predicate RelationsAudited(audit: seq<Attempt>, a: AssetRecord, relations: seq<Object>, env: Env) {
    forall i :: 0 <= i < |relations| && Eligible(relations[i]) ==>
      AuditedIngestion(audit, RelationshipId(a.id, relations[i], env)).Some?
  }

  lemma {:induction false} RelateFoldAudited(s: Stores, a: AssetRecord, relations: seq<Object>, env: Env)
    requires RelationsAudited(s.audit, a, relations, env)
    ensures SameAttempts(s, RelateFold(s, a, relations, env).0)
  {
    if relations != [] {
      var n := |relations| - 1;
      forall i | 0 <= i < n && Eligible(relations[..n][i])
        ensures AuditedIngestion(s.audit, RelationshipId(a.id, relations[..n][i], env)).Some?
      {
        assert Eligible(relations[i]);
      }
      RelateFoldAudited(s, a, relations[..n], env);
    }
  }

  lemma RelateNothing(s: Stores)
    ensures MarkedOnly(s.assets, s.assets)
  {
  }

  lemma RelateOneEffect(s: Stores, a: AssetRecord, o: Object, acc: Relating, env: Env)
    ensures var t := RelateOne(s, a, o, acc, env).0; t == s.(audit := t.audit, attempts := t.attempts)
  {
  }

  lemma {:induction false} RelateFoldEffect(s: Stores, a: AssetRecord, relations: seq<Object>, env: Env)
    requires GoodAssets(s)
    ensures OnlyProjected(s, RelateFold(s, a, relations, env).0)
    ensures RelateFold(s, a, relations, env).0.assets == s.assets
  {
    hide RelateOne, MarkedOnly;
    if relations != [] {
      var (s1, before) := RelateFold(s, a, relations[..|relations| - 1], env);
      RelateFoldEffect(s, a, relations[..|relations| - 1], env);
      if before.Ok? {
        RelateOneEffect(s1, a, relations[|relations| - 1], before.value, env);
      }
    } else {
      RelateNothing(s);
    }
  }

  lemma RelateRecordEffect(s: Stores, a: AssetRecord, env: Env)
    requires GoodAssets(s) && Lookup(AssetId, s.assets, a.id) == Some(a)
    ensures OnlyProjected(s, RelateRecord(s, a, env).0)
    ensures RelationsAudited(s.audit, a, a.relationships, env) ==> SameAttempts(s, RelateRecord(s, a, env).0)
  {
    RelateFoldEffect(s, a, a.relationships, env);
    if RelationsAudited(s.audit, a, a.relationships, env) {
      RelateFoldAudited(s, a, a.relationships, env);
    }
    var (s1, related) := RelateFold(s, a, a.relationships, env);
    if related.Ok? && related.value.confirmed != [] {
      var b := MarkedRelationships(a, related.value.confirmed, env.now);
      MarkedRelationshipsOk(a, related.value.confirmed, env.now);
      UpsertMarked(s1, a, b);
      OnlyProjectedTransitive(s, s1, UpsertAsset(s1, b));
    }
  }

  /** Projecting the relationships of a record asks Graphiti nothing when each of them is audited. */
  lemma ProjectRelationshipsEffect(s: Stores, assetId: string, env: Env)
    requires GoodAssets(s)
    ensures var t := ProjectRelationships(s, assetId, env).0;
            var found := Lookup(AssetId, s.assets, Strip(assetId));
            && OnlyProjected(s, t)
            && ((found.Some? ==> RelationsAudited(s.audit, found.value, found.value.relationships, env)) ==>
                SameAttempts(s, t))
  {
    LookupMember(AssetId, s.assets, Strip(assetId));
    var found := Lookup(AssetId, s.assets, Strip(assetId));
    if found.Some? {
      RelateRecordEffect(s, found.value, env);
    }
  }
}
