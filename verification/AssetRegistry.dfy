/** The registry as the service runs it: the stores are fields, and each operation loads, edits and saves them.
    Every method is tied to the value it computes in `RegistryModel` and keeps the registry's invariant. */
module AssetRegistryStore {
  import opened Text
  import opened Json
  import opened StableSort
  import opened Keyed
  import opened RegistryModel
  import opened RegistryInvariants

  /** The upsert loop of both record lists: replace the first record with the id, or append; then save sorted. */
  method UpsertRecord<T>(id: T -> string, time: T -> int, records: seq<T>, x: T) returns (saved: seq<T>)
    ensures saved == Upsert(id, time, records, x)
  {
    var index := 0;
    while index < |records|
      invariant index <= |records|
      invariant forall j :: 0 <= j < index ==> id(records[j]) != id(x)
    {
      if id(records[index]) == id(x) {
        return SortBy(time, records[index := x]);
      }
      index := index + 1;
    }
    return SortBy(time, records + [x]);
  }

  /** The position of the first record with the id, or the length of the list. */
  method IndexOf<T>(id: T -> string, records: seq<T>, k: string) returns (index: nat)
    ensures index == Find(id, records, k)
  {
    index := 0;
    while index < |records| && id(records[index]) != k
      invariant index <= |records|
      invariant forall j :: 0 <= j < index ==> id(records[j]) != k
    {
      index := index + 1;
    }
  }

  method DistinctIds(candidateIds: seq<string>) returns (ids: seq<string>)
    ensures ids == UniqueIds(candidateIds)
  {
    ids := [];
    var seen: set<string> := {};
    for i := 0 to |candidateIds|
      invariant ids == UniqueIds(candidateIds[..i])
      invariant forall k :: k in seen <==> k in ids
    {
      assert candidateIds[..i + 1][..i] == candidateIds[..i];
      var id := Strip(candidateIds[i]);
      if id != "" && id !in seen {
        ids := ids + [id];
        seen := seen + {id};
      }
    }
    assert candidateIds[..|candidateIds|] == candidateIds;
  }

  /** The audit is searched from its latest entry backwards. */
  method FindIngestion(audit: seq<Attempt>, id: string) returns (found: Option<GraphitiStatus>)
    ensures found == AuditedIngestion(audit, id)
  {
    var i := |audit|;
    assert audit[..i] == audit;
    while i > 0
      invariant 0 <= i <= |audit|
      invariant AuditedIngestion(audit, id) == AuditedIngestion(audit[..i], id)
    {
      var entry := audit[i - 1];
      assert audit[..i][..i - 1] == audit[..i - 1];
      if Strip(entry.assetId) == Strip(id) && Ingested(entry.graphiti) {
        return Some(entry.graphiti);
      }
      i := i - 1;
    }
    return None;
  }

  method FindReport(reports: seq<Report>, reportType: string, refs: set<string>) returns (id: string)
    ensures id == ExistingReport(reports, reportType, refs)
  {
    var i := |reports|;
    assert reports[..i] == reports;
    while i > 0
      invariant 0 <= i <= |reports|
      invariant ExistingReport(reports, reportType, refs) == ExistingReport(reports[..i], reportType, refs)
    {
      var report := reports[i - 1];
      assert reports[..i][..i - 1] == reports[..i - 1];
      if ReportType(report) == reportType && refs <= EvidenceSet(report.evidence) {
        return Strip(report.id);
      }
      i := i - 1;
    }
    return "";
  }

  method CollectAssetIds(candidates: seq<Candidate>, assets: seq<AssetRecord>) returns (ids: seq<string>)
    ensures ids == SettlementAssetIds(candidates, assets)
  {
    hide Settled, RecordMatches;
    ids := [];
    for i := 0 to |candidates|
      invariant ids == SettlementAssetIds(candidates[..i], assets)
    {
      assert candidates[..i + 1][..i] == candidates[..i];
      var c := candidates[i];
      if Settled(c) {
        var record := FirstMatch(c, assets);
        if record.Some? && record.value.id !in ids {
          ids := ids + [record.value.id];
        }
      }
    }
    assert candidates[..|candidates|] == candidates;
  }

  class AssetRegistry {
    var candidates: seq<Candidate>
    var assets: seq<AssetRecord>
    var reviews: seq<Review>
    var audit: seq<Attempt>
    var attempts: seq<Attempt>
    var tickets: map<string, Ticket>

    ghost function View(): Stores
      reads this
    {
      Stores(candidates, assets, reviews, audit, attempts, tickets)
    }

    ghost predicate Valid()
      reads this
    {
      Inv(View())
    }

    constructor (tickets: map<string, Ticket>)
      ensures Valid() && View() == EmptyStores(tickets)
    {
      candidates, assets, reviews, audit, attempts := [], [], [], [], [];
      this.tickets := tickets;
    }

    method SaveCandidate(record: Candidate)
      requires Valid()
      modifies this
      ensures Valid() && View() == UpsertCandidate(old(View()), record)
    {
      hide Inv, Grows, Upsert;
      UpsertCandidateKeeps(View(), record);
      candidates := UpsertRecord(CandidateId, CandidateTime, candidates, record);
    }

    /** Saves an asset record; the caller answers for the links it carries. */
    method SaveAsset(record: AssetRecord)
      modifies this`assets
      ensures View() == UpsertAsset(old(View()), record)
    {
      assets := UpsertRecord(AssetId, AssetTime, assets, record);
    }

    method LogReview(review: Review)
      modifies this`reviews
      ensures View() == AppendReview(old(View()), review)
    {
      reviews := SortBy(ReviewTime, reviews + [review]);
    }

    /** The first record with the target id, or the first record at all when no target is named, is edited. */
    method LinkReviewed(candidate: Candidate, review: Review)
      modifies this`assets
      ensures View() == ApplyRelationshipReview(old(View()), candidate, review)
    {
      if review.mergeTarget == "" && review.links == [] {
        return;
      }
      var index := 0;
      while index < |assets|
        invariant index <= |assets|
        invariant forall j :: 0 <= j < index ==> review.mergeTarget != "" && assets[j].id != review.mergeTarget
      {
        if review.mergeTarget == "" || assets[index].id == review.mergeTarget {
          assert review.mergeTarget != "" ==> Find(AssetId, assets, review.mergeTarget) == index;
          var record := assets[index];
          var edited := record.(
            relationships := record.relationships + review.links + [ReviewedLink(candidate, review)],
            updatedAt := review.updatedAt);
          assets := SortBy(AssetTime, assets[index := edited]);
          return;
        }
        index := index + 1;
      }
      assert review.mergeTarget != "" ==> Find(AssetId, assets, review.mergeTarget) == |assets|;
    }

    method Review(candidateId: string, request: ReviewRequest, now: Time) returns (result: Result<ReviewResponse>)
      requires Valid()
      modifies this
      ensures Valid() && (View(), result) == ReviewCandidate(old(View()), candidateId, request, now)
    {
      hide Inv, Grows, NormalizeReviewStatus, ReviewedCandidate, ReviewOf, AssetFromCandidate, ApplyRelationshipReview,
           SortBy, AppendReview;
      ReviewKeeps(View(), candidateId, request, now);
      var id := Strip(candidateId);
      var index := IndexOf(CandidateId, candidates, id);
      if index == |candidates| {
        return KeyError(id);
      }
      var status := NormalizeReviewStatus(request.status);
      if status.None? {
        return ValueError;
      }
      var reviewed := ReviewedCandidate(candidates[index], status.value, request, now);
      var review := ReviewOf(reviewed, |reviews|, request, now);
      ReviewOfStatus(reviewed, |reviews|, request, now);
      candidates := SortBy(CandidateTime, candidates[index := reviewed]);
      LogReview(review);
      if review.status == "approved" {
        SaveAsset(AssetFromCandidate(reviewed, review, now));
      } else if review.status == "merged" || review.status == "linked" {
        LinkReviewed(reviewed, review);
      }
      result := Ok(ReviewResponseOf(reviewed, review, now));
    }

    method ReviewBatch(candidateIds: seq<string>, request: ReviewRequest, now: Time)
      returns (result: Result<BatchResponse>)
      requires Valid()
      modifies this
      ensures Valid() && (View(), result) == BatchReview(old(View()), candidateIds, request, now)
    {
      hide Inv, Grows, NormalizeReviewStatus, ReviewCandidate, UniqueIds, Filter;
      var status := NormalizeReviewStatus(request.status);
      if status.None? {
        return ValueError;
      }
      var ids := DistinctIds(candidateIds);
      if ids == [] || ((status.value == "merged" || status.value == "linked") && Strip(request.mergeTarget) == "") {
        return ValueError;
      }
      var item := BatchItemRequest(status.value, request);
      var results: seq<BatchItem> := [];
      ghost var before := View();
      for i := 0 to |ids|
        invariant Valid()
        invariant (View(), results) == BatchFold(before, ids[..i], item, now)
      {
        assert ids[..i + 1][..i] == ids[..i];
        var outcome := Review(ids[i], item, now);
        results := results + [BatchItem(ids[i], outcome)];
      }
      assert ids[..|ids|] == ids;
      result := Ok(BatchSummary(|ids|, results));
    }

    method IngestAsset(id: string, env: Env) returns (status: GraphitiStatus)
      modifies this`attempts, this`audit
      ensures (View(), status) == Ingest(old(View()), id, env)
    {
      status := env.graphiti(|attempts|);
      var attempt := Attempt(Strip(id), status);
      attempts := attempts + [attempt];
      audit := Last(AUDIT_LIMIT, audit + [attempt]);
    }

    method Project(assetId: string, env: Env) returns (result: Result<Projection>)
      requires Valid()
      modifies this
      ensures Valid() && (View(), result) == ProjectAsset(old(View()), assetId, env)
    {
      hide Inv, Grows, MarkedProjection, Upsert, Ingest, AuditedIngestion, ProjectableStatus;
      ProjectAssetKeeps(View(), assetId, env);
      LookupMember(AssetId, assets, Strip(assetId));
      var index := IndexOf(AssetId, assets, Strip(assetId));
      if index == |assets| {
        return KeyError(Strip(assetId));
      }
      var record := assets[index];
      if !ProjectableStatus(record.status) {
        return ValueError;
      }
      var existing := FindIngestion(audit, record.id);
      if existing.Some? {
        SaveAsset(MarkedProjection(record, existing.value, env.now));
        return Ok(Projection(record.id, "skipped", existing.value.episodeId));
      }
      if !ValidIngestRequest(record) {
        return ValueError;
      }
      var ingested := IngestAsset(record.id, env);
      if !Ingested(ingested) {
        return ValueError;
      }
      SaveAsset(MarkedProjection(record, ingested, env.now));
      result := Ok(Projection(record.id, "ingested", ingested.episodeId));
    }

    method ProjectRelations(assetId: string, env: Env) returns (result: Result<string>)
      requires Valid()
      modifies this
      ensures Valid() && (View(), result) == ProjectRelationships(old(View()), assetId, env)
    {
      hide Inv, Grows, MarkedRelationships, Upsert, Ingest, AuditedIngestion, ProjectableStatus, Eligible, RelationshipId,
           RelatingStatus, RelateOne;
      ProjectRelationshipsKeeps(View(), assetId, env);
      LookupMember(AssetId, assets, Strip(assetId));
      var index := IndexOf(AssetId, assets, Strip(assetId));
      if index == |assets| {
        return KeyError(Strip(assetId));
      }
      var record := assets[index];
      if !ProjectableStatus(record.status) {
        return ValueError;
      }
      var related: Result<Relating> := Ok(Relating([], 0));
      ghost var before := View();
      for i := 0 to |record.relationships|
        invariant candidates == before.candidates && assets == before.assets && reviews == before.reviews
        invariant tickets == before.tickets
        invariant (View(), related) == RelateFold(before, record, record.relationships[..i], env)
      {
        assert record.relationships[..i + 1][..i] == record.relationships[..i];
        if related.Ok? {
          related := Relate(record, record.relationships[i], related.value, env);
        }
      }
      assert record.relationships[..|record.relationships|] == record.relationships;
      match related
      case KeyError(k) => return KeyError(k);
      case ValueError => return ValueError;
      case Ok(done) =>
        if done.confirmed != [] {
          SaveAsset(MarkedRelationships(record, done.confirmed, env.now));
        }
        result := Ok(RelatingStatus(done));
    }

    method Relate(record: AssetRecord, relation: Object, done: Relating, env: Env) returns (result: Result<Relating>)
      modifies this`attempts, this`audit
      ensures (View(), result) == RelateOne(old(View()), record, relation, done, env)
    {
      hide Ingest, AuditedIngestion, Eligible, RelationshipId;
      if !Eligible(relation) {
        return Ok(done.(unsupported := done.unsupported + 1));
      }
      if record.id == "" {
        return ValueError;
      }
      var id := RelationshipId(record.id, relation, env);
      var existing := FindIngestion(audit, id);
      if existing.Some? {
        return Ok(done.(confirmed := done.confirmed + [Confirmed(id, relation, false, existing.value.episodeId)]));
      }
      var ingested := IngestAsset(id, env);
      if !Ingested(ingested) {
        return ValueError;
      }
      result := Ok(done.(confirmed := done.confirmed + [Confirmed(id, relation, true, ingested.episodeId)]));
    }

    /** Adds a report to the Ticket unless one of the type already covers the evidence. */
    method Report(id: string, reportType: string, evidence: seq<string>, env: Env) returns (reportId: string, added: bool)
      requires id in tickets
      modifies this`tickets
      ensures id in tickets && tickets == old(tickets)[id := tickets[id]]
      ensures (tickets[id], reportId, added) ==
              ReportOnce(old(tickets)[id], reportType, SetOf(evidence), evidence, env)
    {
      hide AddReport, ExistingReport;
      reportId := FindReport(tickets[id].reports, reportType, SetOf(evidence));
      added := reportId == "";
      if added {
        var updated := AddReport(tickets[id], reportType, evidence, env);
        tickets := tickets[id := updated];
        reportId := FindReport(updated.reports, reportType, SetOf(evidence));
      }
    }

    method ProposeCloseout(ticketId: string, env: Env) returns (result: Result<ProposeResponse>)
      requires Valid()
      modifies this
      ensures Valid() && (View(), result) == Propose(old(View()), ticketId, env)
    {
      hide Inv, Grows, CloseoutReady, Upsert, ReportOnce, AlreadyReviewed, Kept, Fresh, CloseoutWords, Strip, CloseoutCandidates;
      ProposeKeeps(View(), ticketId, env);
      var id := Strip(ticketId);
      if id !in tickets {
        return KeyError(id);
      }
      if !CloseoutReady(tickets[id]) {
        return ValueError;
      }
      ghost var before := View();
      var loaded := candidates;
      var drafts := CloseoutCandidates(tickets[id], env);
      var kept: seq<Candidate> := [];
      for i := 0 to |drafts|
        invariant Valid()
        invariant tickets == before.tickets
        invariant (View(), kept) == ProposeFold(before, drafts[..i])
      {
        assert drafts[..i + 1][..i] == drafts[..i];
        KeptByLookup(before, drafts[i]);
        var current := Lookup(CandidateId, loaded, drafts[i].id);
        if current.Some? && ReviewStatus(current.value.status) {
          kept := kept + [current.value];
        } else {
          SaveCandidate(drafts[i]);
          kept := kept + [drafts[i]];
        }
      }
      assert drafts[..|drafts|] == drafts;
      var reportId, added := Report(id, "ticket_closeout_candidates", IdRefs(Ids(kept)), env);
      var allExisting := forall c :: c in kept ==> Lookup(CandidateId, loaded, c.id).Some?;
      result := Ok(ProposeResponse(if allExisting && !added then "skipped" else "proposed", kept, reportId));
    }

    method ProjectSettledAsset(assetId: string, relationships: bool, env: Env) returns (p: SettledProjection)
      requires Valid()
      modifies this
      ensures Valid() && (View(), p) == ProjectSettled(old(View()), assetId, relationships, env)
    {
      hide Inv, Grows, ProjectAsset, ProjectRelationships;
      var projected := Project(assetId, env);
      if !projected.Ok? {
        return SettledProjection(assetId, "blocked", None, true);
      }
      if !relationships {
        return SettledProjection(assetId, projected.value.status, Some(projected.value), false);
      }
      var related := ProjectRelations(assetId, env);
      p := SettledProjection(assetId, if related.Ok? then projected.value.status else "partial_blocked",
                             Some(projected.value), !related.Ok?);
    }

    method SettleCloseout(ticketId: string, request: SettleRequest, env: Env) returns (result: Result<SettleResponse>)
      requires Valid()
      modifies this
      ensures Valid() && (View(), result) == Settle(old(View()), ticketId, request, env)
    {
      hide Inv, Grows, Propose, SelectByType, Ids, Filter, BatchReview, SettlementAssetIds, SettledCandidates, SettleReport,
           SettleReviewRequest, Strip;
      var proposal := ProposeCloseout(ticketId, env);
      match proposal
      case KeyError(k) => return KeyError(k);
      case ValueError => return ValueError;
      case Ok(p) =>
        var selected := SelectByType(p.candidates, request.assetTypes);
        var awaiting := Ids(Filter(AwaitingReview, selected));
        var review: Option<BatchResponse> := None;
        if request.approve && awaiting != [] {
          var batch := ReviewBatch(awaiting, SettleReviewRequest(request), env.now);
          match batch
          case KeyError(k) => return KeyError(k);
          case ValueError => return ValueError;
          case Ok(b) => review := Some(b);
        } else if request.approve {
          review := Some(BatchResponse("skipped", |selected|, 0, 0, []));
        }
        result := ProjectSelected(Strip(ticketId), request, env, p, review, Ids(selected));
    }

    method ProjectSelected(id: string, request: SettleRequest, env: Env, p: ProposeResponse,
                           review: Option<BatchResponse>, ids: seq<string>) returns (result: Result<SettleResponse>)
      requires Valid()
      modifies this
      ensures Valid() && (View(), result) == SettleProjections(old(View()), id, request, env, p, review, ids)
    {
      hide Inv, Grows, SettlementAssetIds, ProjectSettled, SettlementStatus, Filter, Refs, EpisodeRefs, ReportOnce;
      SettleProjectionsKeeps(View(), id, request, env, p, review, ids);
      ghost var before := View();
      var chosen := Filter(WithId(ids), candidates);
      var assetIds := CollectAssetIds(chosen, assets);
      var projections: seq<SettledProjection> := [];
      if request.project {
        for i := 0 to |assetIds|
          invariant Valid()
          invariant (View(), projections) == ProjectFold(before, assetIds[..i], request.projectRelationships, env)
        {
          assert assetIds[..i + 1][..i] == assetIds[..i];
          var projection := ProjectSettledAsset(assetIds[i], request.projectRelationships, env);
          projections := projections + [projection];
        }
        assert assetIds[..|assetIds|] == assetIds;
      }
      if id !in tickets {
        return KeyError(id);
      }
      var refs := IdRefs(ids) + AssetRefs(assetIds) + EpisodeRefs(projections);
      var reportId, _ := Report(id, "ticket_closeout_settlement", refs, env);
      var status := SettlementStatus(request.approve, request.project,
                                     if review.Some? then review.value.reviewed else 0,
                                     |Filter(Projected, projections)|, |Filter(Failed, projections)|, |assetIds|);
      result := Ok(SettleResponse(status, p, review, chosen, assetIds, projections, reportId));
    }

    method ProposeRetrospective(ticketId: string, failedItems: nat, minFailed: nat, env: Env)
      returns (result: Result<ProposeResponse>)
      requires Valid()
      modifies this
      ensures Valid() && (View(), result) == Retrospective(old(View()), ticketId, failedItems, minFailed, env)
    {
      hide Inv, Grows, Fresh, ReportOnce, Upsert;
      RetrospectiveKeeps(View(), ticketId, failedItems, minFailed, env);
      var id := Strip(ticketId);
      if id !in tickets {
        return KeyError(id);
      }
      if failedItems < minFailed {
        return ValueError;
      }
      var candidate := Fresh(tickets[id], "loop-failure-retrospective", "failure_retrospective", env);
      var known := Lookup(CandidateId, candidates, candidate.id).Some?;
      SaveCandidate(candidate);
      var reportId, added :=
        Report(id, "ticket_loop_failure_retrospective_candidate", ["asset-candidate:" + candidate.id], env);
      result := Ok(ProposeResponse(if known && !added then "skipped" else "proposed", [candidate], reportId));
    }

    method Import(memory: MemoryUsage) returns (result: Result<Candidate>)
      requires Valid()
      modifies this
      ensures Valid() && (View(), result) == ImportMemory(old(View()), memory)
    {
      hide Inv, ImportedCandidate;
      var id := Strip(memory.id);
      if id == "" {
        return ValueError;
      }
      SaveCandidate(ImportedCandidate(memory, id));
      result := Ok(ImportedCandidate(memory, id));
    }

    /** Copies a memory's usage onto every candidate and record it belongs to. */
    method Sync(memory: MemoryUsage, now: Time) returns (result: Result<seq<string>>)
      requires Valid()
      modifies this
      ensures Valid() && (View(), result) == SyncUsefulness(old(View()), memory, now)
    {
      hide Inv, Grows, ImportedCandidate, UsageProvenance, CandidateUsed, AssetUsed, Upsert, SortBy;
      SyncKeeps(View(), memory, now);
      var id := Strip(memory.id);
      if id == "" {
        return ValueError;
      }
      if memory.summary == map[] && memory.history == [] {
        return Ok([]);
      }
      var assetId := OrElse(Strip(OrElse(memory.provenanceAssetId, id)), id);
      SyncCandidateStepKeeps(View(), memory, id, assetId, now);
      SyncLoadedCandidates(memory, id, assetId, now);
      var updated := SyncLoadedAssets(memory, id, assetId, now);
      result := Ok(updated);
    }

    method SyncLoadedCandidates(memory: MemoryUsage, id: string, assetId: string, now: Time)
      requires Valid()
      modifies this
      ensures View() == SyncCandidateStep(old(View()), memory, id, assetId, now)
    {
      hide Inv, Grows, ImportedCandidate, UsageProvenance, CandidateUsed, Upsert, SortBy;
      var records := candidates;
      ghost var loaded := candidates;
      var matched := false;
      for i := 0 to |records|
        invariant |records| == |loaded|
        invariant forall j :: i <= j < |loaded| ==> records[j] == loaded[j]
        invariant records[..i] == SyncCandidates(loaded[..i], memory, id, assetId, now)
        invariant matched <==> exists j :: 0 <= j < i && CandidateUsed(loaded[j], id, assetId)
      {
        assert loaded[..i + 1][..i] == loaded[..i];
        ghost var done := records[..i];
        if CandidateUsed(records[i], id, assetId) {
          matched := true;
          records := records[i := records[i].(
            usefulness := memory.summary, provenance := records[i].provenance + UsageProvenance(memory, id, now),
            updatedAt := now)];
        }
        assert records[..i + 1] == done + [records[i]];
      }
      assert loaded[..|loaded|] == loaded && records[..|records|] == records;
      assert matched <==> exists c :: c in loaded && CandidateUsed(c, id, assetId);
      if matched {
        candidates := SortBy(CandidateTime, records);
      } else {
        SaveCandidate(ImportedCandidate(memory, id));
      }
    }

    method SyncLoadedAssets(memory: MemoryUsage, id: string, assetId: string, now: Time) returns (updated: seq<string>)
      modifies this`assets
      ensures View() == SyncAssetStep(old(View()), memory, id, assetId, now)
      ensures updated == UsedAssetIds(old(assets), id, assetId)
    {
      hide UsageProvenance, AssetUsed, SortBy;
      var records := assets;
      updated := [];
      for i := 0 to |records|
        invariant |records| == |assets|
        invariant forall j :: i <= j < |assets| ==> records[j] == assets[j]
        invariant records[..i] == SyncAssets(assets[..i], memory, id, assetId, now)
        invariant updated == UsedAssetIds(assets[..i], id, assetId)
      {
        assert assets[..i + 1][..i] == assets[..i];
        ghost var done := records[..i];
        if AssetUsed(records[i], id, assetId) {
          updated := updated + [records[i].id];
          records := records[i := records[i].(
            usefulness := memory.summary, provenance := records[i].provenance + UsageProvenance(memory, id, now),
            updatedAt := now)];
        }
        assert records[..i + 1] == done + [records[i]];
      }
      assert assets[..|assets|] == assets && records[..|records|] == records;
      if updated != [] {
        assets := SortBy(AssetTime, records);
      }
    }
  }

  lemma ReviewOfStatus(c: Candidate, logged: nat, req: ReviewRequest, now: Time)
    ensures ReviewOf(c, logged, req, now).status == c.status
  {
  }

  lemma KeptByLookup(s: Stores, draft: Candidate)
    ensures var current := Lookup(CandidateId, s.candidates, draft.id);
            && (AlreadyReviewed(s, draft) <==> current.Some? && ReviewStatus(current.value.status))
            && Kept(s, draft) == if AlreadyReviewed(s, draft) then current.value else draft
  {
  }
}
