/** The governed Asset registry as values: what each operation of the candidate service computes from
    the stores it loads. `AssetRegistry` holds the same stores as fields and runs the operations on them. */
module RegistryModel {
  import opened Text
  import opened Json
  import opened StableSort
  import opened Keyed

  /** A timestamp; 0 is the empty string, which sorts before every other. */
  type Time = nat

  datatype Result<+T> = Ok(value: T) | KeyError(id: string) | ValueError

  /** The descriptive fields, carried along and never inspected here except for emptiness. */
  datatype Descriptor = Descriptor(
    title: string, content: string, scopeKind: string, scopeRef: string,
    owner: string, sourceKind: string, sourceRef: string)

  datatype Candidate = Candidate(
    id: string, sourceCandidateId: string, assetId: string, assetType: string,
    descriptor: Descriptor, contentRef: string, status: string, reviewState: string,
    provenance: Object, relationships: seq<Object>, usefulness: Object,
    createdAt: Time, updatedAt: Time)

  datatype AssetRecord = AssetRecord(
    id: string, assetType: string, descriptor: Descriptor, contentRef: string,
    status: string, reviewState: string,
    provenance: Object, relationships: seq<Object>, usefulness: Object,
    createdAt: Time, updatedAt: Time)

  datatype Review = Review(
    id: string, candidateId: string, assetId: string, status: string, reviewer: string, reason: string,
    mergeTarget: string, links: seq<Object>, createdAt: Time, updatedAt: Time)

  /** What Graphiti answered: `status == "ingested"` is success; a missing episode id is "". */
  datatype GraphitiStatus = GraphitiStatus(status: string, episodeId: string)

  /** One durable ingestion attempt, as the audit in `graphiti_state.json` records it. */
  datatype Attempt = Attempt(assetId: string, graphiti: GraphitiStatus)

  datatype Report = Report(id: string, reportType: string, evidence: seq<string>)
  datatype Ticket = Ticket(id: string, status: string, reports: seq<Report>)

  /** `attempts` is every ingestion attempt ever made; `audit` is the part the state file still holds. */
  datatype Stores = Stores(
    candidates: seq<Candidate>, assets: seq<AssetRecord>, reviews: seq<Review>,
    audit: seq<Attempt>, attempts: seq<Attempt>, tickets: map<string, Ticket>)

  /** What a generated candidate says: wording and provenance come from the Ticket and are not modelled. */
  datatype Draft = Draft(descriptor: Descriptor, contentRef: string, provenance: Object, relationships: seq<Object>)

  /** Everything an operation takes from outside: the clock, Graphiti's answer to the n-th attempt, the digest
      part of relationship ids, generated wording, and fresh report tokens. */
  datatype Env = Env(
    now: Time,
    graphiti: nat -> GraphitiStatus,
    relationshipKey: (string, string, string) -> string,
    draft: (Ticket, string) -> Draft,
    reportToken: (string, nat) -> string)

  function CandidateId(c: Candidate): string { c.id }
  function CandidateTime(c: Candidate): int { c.createdAt }
  function AssetId(a: AssetRecord): string { a.id }
  function AssetTime(a: AssetRecord): int { a.createdAt }
  function ReviewTime(r: Review): int { r.createdAt }

  function UpsertCandidate(s: Stores, c: Candidate): Stores {
    s.(candidates := Upsert(CandidateId, CandidateTime, s.candidates, c))
  }

  function UpsertAsset(s: Stores, a: AssetRecord): Stores {
    s.(assets := Upsert(AssetId, AssetTime, s.assets, a))
  }

  // ---- single review ----

  datatype ReviewRequest = ReviewRequest(
    status: string, reviewer: string, reason: string, mergeTarget: string, links: seq<Object>)

  datatype ReviewResponse = ReviewResponse(candidate: Candidate, review: Review, asset: Option<AssetRecord>)

  function DashToUnderscore(s: string): (r: string)
    ensures |r| == |s|
    ensures forall i :: 0 <= i < |s| ==> r[i] == if s[i] == '-' then '_' else s[i]
  {
    if s == "" then "" else [if s[0] == '-' then '_' else s[0]] + DashToUnderscore(s[1..])
  }

  function Alias(s: string, table: map<string, string>): string { if s in table then table[s] else s }

  const REVIEW_ALIASES: map<string, string> :=
    map["approve" := "approved", "reject" := "rejected", "merge" := "merged", "link" := "linked"]

  predicate ReviewStatus(s: string) { s == "approved" || s == "rejected" || s == "merged" || s == "linked" }

  function NormalizeReviewStatus(value: string): Option<string> {
    var status := Alias(DashToUnderscore(Lower(Strip(value))), REVIEW_ALIASES);
    if ReviewStatus(status) then Some(status) else None
  }

  function AssetIdFromCandidate(c: Candidate): string {
    if Strip(c.assetId) != "" then Strip(c.assetId) else "asset-" + SafeRef(c.id)
  }

  function ReviewedCandidate(c: Candidate, status: string, req: ReviewRequest, now: Time): Candidate {
    c.(assetId := OrElse(c.assetId, AssetIdFromCandidate(c)),
       status := status,
       reviewState := status,
       relationships := c.relationships + req.links,
       provenance := c.provenance + map[
         "last_review_status" := JStr(status),
         "last_reviewer_employee_id" := JStr(OrElse(Strip(req.reviewer), "clara")),
         "last_review_reason" := JStr(Strip(req.reason)),
         "merge_target_asset_id" := JStr(Strip(req.mergeTarget))],
       updatedAt := now)
  }

  function ReviewId(candidateId: string, n: nat): string {
    "asset-review-" + SafeRef(candidateId) + "-" + Decimal(n)
  }

  function ReviewOf(c: Candidate, logged: nat, req: ReviewRequest, now: Time): Review {
    Review(ReviewId(c.id, logged + 1), c.id,
           if c.status == "approved" then c.assetId else Strip(req.mergeTarget),
           c.status, OrElse(Strip(req.reviewer), "clara"), Strip(req.reason), Strip(req.mergeTarget),
           req.links, now, now)
  }

  function AssetFromCandidate(c: Candidate, r: Review, now: Time): AssetRecord {
    AssetRecord(AssetIdFromCandidate(c), c.assetType, c.descriptor, c.contentRef, "approved", "approved",
                c.provenance + map[
                  "source_asset_candidate_id" := JStr(c.id),
                  "source_candidate_id" := JStr(c.sourceCandidateId),
                  "asset_review_id" := JStr(r.id),
                  "reviewer_employee_id" := JStr(r.reviewer),
                  "review_reason" := JStr(r.reason)],
                c.relationships, c.usefulness, if c.createdAt != 0 then c.createdAt else now, now)
  }

  function ReviewedLink(c: Candidate, r: Review): Object {
    map["type" := JStr("reviewed_candidate"), "target_kind" := JStr("asset_candidate"),
        "target_ref" := JStr(c.id), "review_id" := JStr(r.id), "status" := JStr(r.status)]
  }

  /** A merge or link review edits the target record; an empty target with links edits the first record. */
  function ApplyRelationshipReview(s: Stores, c: Candidate, r: Review): Stores {
    if r.mergeTarget == "" && r.links == [] then s else
      var i := if r.mergeTarget == "" then 0 else Find(AssetId, s.assets, r.mergeTarget);
      if i < |s.assets| then
        var edited := s.assets[i].(
          relationships := s.assets[i].relationships + r.links + [ReviewedLink(c, r)], updatedAt := r.updatedAt);
        s.(assets := SortBy(AssetTime, s.assets[i := edited]))
      else s
  }

  function AppendReview(s: Stores, r: Review): Stores {
    s.(reviews := SortBy(ReviewTime, s.reviews + [r]))
  }

  function SettleReview(s: Stores, c: Candidate, r: Review, now: Time): Stores {
    if r.status == "approved" then UpsertAsset(s, AssetFromCandidate(c, r, now))
    else if r.status == "merged" || r.status == "linked" then ApplyRelationshipReview(s, c, r)
    else s
  }

  function ReviewCandidate(s: Stores, candidateId: string, req: ReviewRequest, now: Time)
    : (Stores, Result<ReviewResponse>)
  {
    var id := Strip(candidateId);
    var i := Find(CandidateId, s.candidates, id);
    if i == |s.candidates| then (s, KeyError(id)) else
    match NormalizeReviewStatus(req.status)
    case None => (s, ValueError)
    case Some(status) =>
      var c := ReviewedCandidate(s.candidates[i], status, req, now);
      var r := ReviewOf(c, |s.reviews|, req, now);
      var s1 := s.(candidates := SortBy(CandidateTime, s.candidates[i := c]));
      (SettleReview(AppendReview(s1, r), c, r, now), Ok(ReviewResponseOf(c, r, now)))
  }

  function ReviewResponseOf(c: Candidate, r: Review, now: Time): ReviewResponse {
    ReviewResponse(c, r, if r.status == "approved" then Some(AssetFromCandidate(c, r, now)) else None)
  }

  // ---- batch review ----

  /** Trimmed, non-blank ids, first occurrences only. */
  function UniqueIds(ids: seq<string>): seq<string> {
    if ids == [] then [] else
      var before := UniqueIds(ids[..|ids| - 1]);
      var id := Strip(ids[|ids| - 1]);
      if id == "" || id in before then before else before + [id]
  }

  datatype BatchItem = BatchItem(candidateId: string, outcome: Result<ReviewResponse>)
  datatype BatchResponse = BatchResponse(
    status: string, requested: nat, reviewed: nat, failed: nat, items: seq<BatchItem>)

  function BatchItemRequest(status: string, req: ReviewRequest): ReviewRequest {
    req.(status := status, reason := OrElse(req.reason, "Batch " + status + " from Assets review queue."))
  }

  function BatchFold(s: Stores, ids: seq<string>, req: ReviewRequest, now: Time): (Stores, seq<BatchItem>) {
    if ids == [] then (s, []) else
      var n := |ids| - 1;
      var (s1, items) := BatchFold(s, ids[..n], req, now);
      var (s2, outcome) := ReviewCandidate(s1, ids[n], req, now);
      (s2, items + [BatchItem(ids[n], outcome)])
  }

  predicate ItemReviewed(item: BatchItem) { item.outcome.Ok? }

  function BatchStatus(reviewed: nat, failed: nat): string {
    if failed == 0 then "completed" else if reviewed > 0 then "partial_failed" else "failed"
  }

  function BatchSummary(requested: nat, items: seq<BatchItem>): BatchResponse {
    var reviewed := |Filter(ItemReviewed, items)|;
    var failed := |items| - reviewed;
    BatchResponse(BatchStatus(reviewed, failed), requested, reviewed, failed, items)
  }

  function BatchReview(s: Stores, candidateIds: seq<string>, req: ReviewRequest, now: Time)
    : (Stores, Result<BatchResponse>)
  {
    match NormalizeReviewStatus(req.status)
    case None => (s, ValueError)
    case Some(status) =>
      var ids := UniqueIds(candidateIds);
      if ids == [] then (s, ValueError)
      else if (status == "merged" || status == "linked") && Strip(req.mergeTarget) == "" then (s, ValueError)
      else
        var (s1, items) := BatchFold(s, ids, BatchItemRequest(status, req), now);
        (s1, Ok(BatchSummary(|ids|, items)))
  }

  // ---- Graphiti projection ----

  const AUDIT_LIMIT := 100

  function Last<T>(n: nat, s: seq<T>): seq<T> { if |s| <= n then s else s[|s| - n..] }

  predicate Ingested(g: GraphitiStatus) { g.status == "ingested" }

  /** `ingest_durable_asset_to_graphiti`: every attempt is audited, whether it succeeded or not. */
  function Ingest(s: Stores, id: string, env: Env): (Stores, GraphitiStatus) {
    var g := env.graphiti(|s.attempts|);
    var attempt := Attempt(Strip(id), g);
    (s.(attempts := s.attempts + [attempt], audit := Last(AUDIT_LIMIT, s.audit + [attempt])), g)
  }

  /** The latest audited success for `id`. */
  function AuditedIngestion(audit: seq<Attempt>, id: string): Option<GraphitiStatus> {
    if audit == [] then None else
      var last := audit[|audit| - 1];
      if Strip(last.assetId) == Strip(id) && Ingested(last.graphiti) then Some(last.graphiti)
      else AuditedIngestion(audit[..|audit| - 1], id)
  }

  predicate ProjectableStatus(status: string) {
    var normalized := Lower(Strip(status));
    normalized == "approved" || normalized == "accepted" || normalized == "validated"
  }

  /** The ingest request requires a non-empty id, type and content. */
  predicate ValidIngestRequest(a: AssetRecord) { a.id != "" && a.assetType != "" && a.descriptor.content != "" }

  function GraphitiRef(g: GraphitiStatus): Json {
    JObj(map["provider" := JStr("graphiti"), "provider_ref" := JStr(Strip(g.episodeId)),
             "source_kind" := JStr("asset_graph_projection"), "status" := JStr(g.status)])
  }

  function ProviderRefs(refs: seq<Json>, g: GraphitiStatus): seq<Json> {
    if Strip(g.episodeId) != "" && GraphitiRef(g) !in refs then refs + [GraphitiRef(g)] else refs
  }

  function MarkedProjection(a: AssetRecord, g: GraphitiStatus, now: Time): AssetRecord {
    a.(provenance := a.provenance + map[
         "graphiti_projected_at" := JInt(now),
         "graphiti_status" := JObj(map["status" := JStr(g.status), "episode_id" := JStr(g.episodeId)]),
         "provider_refs" := JArr(ProviderRefs(List(Get(a.provenance, "provider_refs")), g))],
       updatedAt := now)
  }

  datatype Projection = Projection(assetId: string, status: string, episodeId: string)

  function ProjectAsset(s: Stores, assetId: string, env: Env): (Stores, Result<Projection>) {
    var id := Strip(assetId);
    match Lookup(AssetId, s.assets, id)
    case None => (s, KeyError(id))
    case Some(a) => if ProjectableStatus(a.status) then ProjectRecord(s, a, env) else (s, ValueError)
  }

  /** A record the audit knows is marked again and skipped; any other is sent to Graphiti. */
  function ProjectRecord(s: Stores, a: AssetRecord, env: Env): (Stores, Result<Projection>) {
    match AuditedIngestion(s.audit, a.id)
    case Some(g) => (UpsertAsset(s, MarkedProjection(a, g, env.now)), Ok(Projection(a.id, "skipped", g.episodeId)))
    case None =>
      if !ValidIngestRequest(a) then (s, ValueError) else
        var (s1, g) := Ingest(s, a.id, env);
        if Ingested(g) then
          (UpsertAsset(s1, MarkedProjection(a, g, env.now)), Ok(Projection(a.id, "ingested", g.episodeId)))
        else (s1, ValueError)
  }

  // ---- relationship projection ----

  const RELATIONSHIP_ALIASES: map<string, string> :=
    map["derived_from_ticket" := "derived_from", "derived_from_asset" := "derived_from",
        "reviewed_candidate" := "derived_from", "used_by_ticket" := "used_by",
        "validated_by_ticket" := "validated_by"]

  predicate GraphitiRelationshipType(t: string) {
    t == "supersedes" || t == "conflicts_with" || t == "derived_from" || t == "used_by" || t == "validated_by"
  }

  function RelationshipType(o: Object): string {
    var raw := FirstText(Get(o, "type"), Get(o, "relationship_type"));
    Alias(DashToUnderscore(Lower(Strip(raw))), RELATIONSHIP_ALIASES)
  }

  function RelationshipTarget(o: Object): string {
    var direct := TextOf(Get(o, "target_asset_id"));
    if direct != "" then direct else
      var kind := Lower(Strip(FirstText(Get(o, "target_kind"), Get(o, "target_type"))));
      if kind == "asset" || kind == "asset_record" || kind == "asset_registry"
      then FirstText(Get(o, "target_ref"), Get(o, "target")) else ""
  }

  predicate Eligible(o: Object) { GraphitiRelationshipType(RelationshipType(o)) && RelationshipTarget(o) != "" }

  function RelationshipId(sourceId: string, o: Object, env: Env): string {
    "asset-relationship-" + env.relationshipKey(sourceId, RelationshipType(o), RelationshipTarget(o))
  }

  /** A relationship the projection confirmed: ingested now, or skipped because the audit has it. */
  datatype Confirmed = Confirmed(relationshipId: string, relation: Object, ingestedNow: bool, episodeId: string)

  datatype Relating = Relating(confirmed: seq<Confirmed>, unsupported: nat)

  /** The loop over `record.relationships`; a failed ingestion ends it. */
  function RelateFold(s: Stores, a: AssetRecord, relations: seq<Object>, env: Env): (Stores, Result<Relating>) {
    if relations == [] then (s, Ok(Relating([], 0))) else
      var n := |relations| - 1;
      var (s1, before) := RelateFold(s, a, relations[..n], env);
      if !before.Ok? then (s1, before) else RelateOne(s1, a, relations[n], before.value, env)
  }

  function RelateOne(s: Stores, a: AssetRecord, o: Object, acc: Relating, env: Env): (Stores, Result<Relating>) {
    if !Eligible(o) then (s, Ok(acc.(unsupported := acc.unsupported + 1)))
    else if a.id == "" then (s, ValueError)
    else
      var rid := RelationshipId(a.id, o, env);
      match AuditedIngestion(s.audit, rid)
      case Some(g) => (s, Ok(acc.(confirmed := acc.confirmed + [Confirmed(rid, o, false, g.episodeId)])))
      case None =>
        var (s1, g) := Ingest(s, rid, env);
        if Ingested(g) then (s1, Ok(acc.(confirmed := acc.confirmed + [Confirmed(rid, o, true, g.episodeId)])))
        else (s1, ValueError)
  }

  /** The mark of one confirmed relationship; a skipped one loses its type and target. */
  function RelationshipMark(a: AssetRecord, c: Confirmed, now: Time): Object {
    map["relationship_id" := JStr(Strip(c.relationshipId)),
        "relationship_type" := JStr(if c.ingestedNow then RelationshipType(c.relation) else ""),
        "source_asset_id" := JStr(Strip(a.id)),
        "target_asset_id" := JStr(if c.ingestedNow then RelationshipTarget(c.relation) else ""),
        "status" := JStr(if c.ingestedNow then "ingested" else "skipped"),
        "episode_id" := JStr(Strip(c.episodeId)),
        "projected_at" := JInt(now)]
  }

  function MarkKey(j: Json): string {
    if !j.JObj? then "" else
      var first := Or(Get(j.fields, "relationship_id"), Get(j.fields, "asset_id"));
      if first.JStr? then first.s else ""
  }

  /** `by_id[key] = mark` on a dictionary that keeps insertion order. */
  function PutMark(marks: seq<Json>, key: string, mark: Json): seq<Json> {
    var i := Find(MarkKey, marks, key);
    if i < |marks| then marks[i := mark] else marks + [mark]
  }

  /** Ingested relationships are marked before skipped ones. */
  predicate WasIngested(c: Confirmed) { c.ingestedNow }
  predicate WasSkipped(c: Confirmed) { !c.ingestedNow }
  function MarkOrder(confirmed: seq<Confirmed>): seq<Confirmed> {
    Filter(WasIngested, confirmed) + Filter(WasSkipped, confirmed)
  }

  function PutMarks(a: AssetRecord, marks: seq<Json>, confirmed: seq<Confirmed>, now: Time): seq<Json> {
    if confirmed == [] then marks else
      var n := |confirmed| - 1;
      var c := confirmed[n];
      PutMark(PutMarks(a, marks, confirmed[..n], now), Strip(c.relationshipId), JObj(RelationshipMark(a, c, now)))
  }

  predicate IsObject(j: Json) { j.JObj? }

  /** The existing marks as `{key: item}` keeps them: the first place of a key with its last item. */
  function DedupMarks(marks: seq<Json>): seq<Json> {
    if marks == [] then [] else
      var n := |marks| - 1;
      PutMark(DedupMarks(marks[..n]), MarkKey(marks[n]), marks[n])
  }

  function MarkedRelationships(a: AssetRecord, confirmed: seq<Confirmed>, now: Time): AssetRecord {
    var existing := DedupMarks(Filter(IsObject, List(Get(a.provenance, "graphiti_relationships"))));
    a.(provenance := a.provenance + map[
         "graphiti_relationships_projected_at" := JInt(now),
         "graphiti_relationships" := JArr(PutMarks(a, existing, MarkOrder(confirmed), now))],
       updatedAt := now)
  }

  function RelatingStatus(r: Relating): string {
    if Filter(WasIngested, r.confirmed) != [] then "ingested"
    else if r.confirmed != [] then "skipped"
    else if r.unsupported > 0 then "unsupported"
    else "no_relationships"
  }

  function ProjectRelationships(s: Stores, assetId: string, env: Env): (Stores, Result<string>) {
    var id := Strip(assetId);
    match Lookup(AssetId, s.assets, id)
    case None => (s, KeyError(id))
    case Some(a) => if ProjectableStatus(a.status) then RelateRecord(s, a, env) else (s, ValueError)
  }

  function RelateRecord(s: Stores, a: AssetRecord, env: Env): (Stores, Result<string>) {
    var (s1, related) := RelateFold(s, a, a.relationships, env);
    match related
    case KeyError(k) => (s1, KeyError(k))
    case ValueError => (s1, ValueError)
    case Ok(r) =>
      if r.confirmed == [] then (s1, Ok(RelatingStatus(r)))
      else (UpsertAsset(s1, MarkedRelationships(a, r.confirmed, env.now)), Ok(RelatingStatus(r)))
  }

  // ---- Ticket closeout ----

  function ReportType(r: Report): string { Lower(Strip(r.reportType)) }

  predicate ValidationType(t: string) {
    t == "validation" || t == "validated" || t == "validation_passed" || t == "pv_validation"
  }

  predicate SolutionType(t: string) {
    || t == "result" || t == "done" || t == "completed"
    || t == "external_runtime_report" || t == "external_runtime_repo_mutation"
  }

  predicate HasValidation(reports: seq<Report>) { exists r :: r in reports && ValidationType(ReportType(r)) }
  predicate HasSolution(reports: seq<Report>) { exists r :: r in reports && SolutionType(ReportType(r)) }

  predicate CloseoutReady(t: Ticket) {
    var status := Lower(Strip(t.status));
    || status == "validated" || status == "completed" || status == "done" || status == "closed"
    || HasValidation(t.reports)
  }

  function TicketCandidateId(t: Ticket, word: string): string {
    "asset-candidate-ticket-" + word + "-" + SafeRef(Strip(t.id))
  }

  function Fresh(t: Ticket, word: string, assetType: string, env: Env): Candidate {
    var d := env.draft(t, word);
    Candidate(TicketCandidateId(t, word), "", "ticket-" + word + "-" + SafeRef(Strip(t.id)), assetType,
              d.descriptor, d.contentRef, "proposed", "proposed", d.provenance, d.relationships, map[],
              env.now, env.now)
  }

  /** Which candidates a Ticket's closeout proposes: the word in their ids and their Asset type. */
  function CloseoutWords(t: Ticket): seq<(string, string)> {
    [("closeout", "ticket_closeout")]
    + (if HasSolution(t.reports) then [("solution", "solution")] else [])
    + (if HasValidation(t.reports) then [("validation", "validation_result")] else [])
  }

  function Drafts(t: Ticket, words: seq<(string, string)>, env: Env): (r: seq<Candidate>)
    ensures |r| == |words|
    ensures forall i :: 0 <= i < |words| ==> r[i] == Fresh(t, words[i].0, words[i].1, env)
  {
    if words == [] then [] else
      Drafts(t, words[..|words| - 1], env) + [Fresh(t, words[|words| - 1].0, words[|words| - 1].1, env)]
  }

  function CloseoutCandidates(t: Ticket, env: Env): seq<Candidate> { Drafts(t, CloseoutWords(t), env) }

  predicate AlreadyReviewed(s: Stores, draft: Candidate) {
    var current := Lookup(CandidateId, s.candidates, draft.id);
    current.Some? && ReviewStatus(current.value.status)
  }

  /** What the proposal keeps for a draft: the reviewed candidate of that id, otherwise the draft. */
  function Kept(s: Stores, draft: Candidate): Candidate {
    if AlreadyReviewed(s, draft) then Lookup(CandidateId, s.candidates, draft.id).value else draft
  }

  function ProposeFold(s: Stores, drafts: seq<Candidate>): (Stores, seq<Candidate>) {
    if drafts == [] then (s, []) else
      var n := |drafts| - 1;
      var (s1, kept) := ProposeFold(s, drafts[..n]);
      (if AlreadyReviewed(s, drafts[n]) then s1 else UpsertCandidate(s1, drafts[n]), kept + [Kept(s, drafts[n])])
  }

  function EvidenceSet(evidence: seq<string>): set<string> { set e | e in evidence && Strip(e) != "" :: Strip(e) }

  /** The id of the latest report of the type whose evidence covers `refs`, "" when there is none. */
  function ExistingReport(reports: seq<Report>, reportType: string, refs: set<string>): string {
    if reports == [] then "" else
      var r := reports[|reports| - 1];
      if ReportType(r) == reportType && refs <= EvidenceSet(r.evidence) then Strip(r.id)
      else ExistingReport(reports[..|reports| - 1], reportType, refs)
  }

  function StripAll(evidence: seq<string>): seq<string> {
    if evidence == [] then [] else
      var first := Strip(evidence[0]);
      (if first != "" then [first] else []) + StripAll(evidence[1..])
  }

  /** `add_ticket_report` for report types that leave the Ticket status alone. */
  function AddReport(t: Ticket, reportType: string, evidence: seq<string>, env: Env): Ticket {
    t.(reports := t.reports + [Report("report-" + env.reportToken(t.id, |t.reports|), reportType, StripAll(evidence))])
  }

  /** Reports once: a covering report of the type is reused. Returns the Ticket, the id, and whether it was added. */
  function ReportOnce(t: Ticket, reportType: string, refs: set<string>, evidence: seq<string>, env: Env)
    : (Ticket, string, bool)
  {
    var existing := ExistingReport(t.reports, reportType, refs);
    if existing != "" then (t, existing, false) else
      var updated := AddReport(t, reportType, evidence, env);
      (updated, ExistingReport(updated.reports, reportType, refs), true)
  }

  function Ids(cs: seq<Candidate>): seq<string> {
    if cs == [] then [] else Ids(cs[..|cs| - 1]) + [cs[|cs| - 1].id]
  }

  /** Evidence references: the ids behind a prefix. */
  function Refs(prefix: string, ids: seq<string>): seq<string> {
    if ids == [] then [] else Refs(prefix, ids[..|ids| - 1]) + [prefix + ids[|ids| - 1]]
  }

  function IdRefs(ids: seq<string>): seq<string> { Refs("asset-candidate:", ids) }

  function AssetRefs(ids: seq<string>): seq<string> { Refs("asset-registry:", ids) }

  function SetOf<T>(s: seq<T>): set<T> { set x | x in s }

  datatype ProposeResponse = ProposeResponse(status: string, candidates: seq<Candidate>, reportId: string)

  function Propose(s: Stores, ticketId: string, env: Env): (Stores, Result<ProposeResponse>) {
    var id := Strip(ticketId);
    if id !in s.tickets then (s, KeyError(id))
    else if !CloseoutReady(s.tickets[id]) then (s, ValueError)
    else
      var t := s.tickets[id];
      var (s1, kept) := ProposeFold(s, CloseoutCandidates(t, env));
      var refs := IdRefs(Ids(kept));
      var (t1, reportId, added) := ReportOnce(t, "ticket_closeout_candidates", SetOf(refs), refs, env);
      var allExisting := forall c :: c in kept ==> Lookup(CandidateId, s.candidates, c.id).Some?;
      var status := if allExisting && !added then "skipped" else "proposed";
      (s1.(tickets := s1.tickets[id := t1]), Ok(ProposeResponse(status, kept, reportId)))
  }

  // ---- settlement ----

  datatype SettleRequest = SettleRequest(
    actor: string, reviewer: string, reason: string, approve: bool,
    project: bool, projectRelationships: bool, assetTypes: seq<string>)

  function RequestedTypes(types: seq<string>): set<string> { set t | t in types && Strip(t) != "" :: Lower(Strip(t)) }

  function OfType(requested: set<string>): Candidate -> bool {
    (c: Candidate) => Lower(Strip(c.assetType)) in requested
  }

  function SelectByType(cs: seq<Candidate>, types: seq<string>): seq<Candidate> {
    if RequestedTypes(types) == {} then cs else Filter(OfType(RequestedTypes(types)), cs)
  }

  predicate AwaitingReview(c: Candidate) { c.status == "proposed" || c.reviewState == "proposed" }

  predicate SettledStatus(status: string) { status == "approved" || status == "accepted" || status == "validated" }

  predicate Settled(c: Candidate) { SettledStatus(c.status) || SettledStatus(c.reviewState) }

  /** The record a candidate was approved into. */
  predicate RecordMatches(c: Candidate, a: AssetRecord) {
    || a.id == AssetIdFromCandidate(c)
    || Get(a.provenance, "source_asset_candidate_id") == JStr(c.id)
    || (Strip(c.sourceCandidateId) != "" && Get(a.provenance, "source_candidate_id") == JStr(Strip(c.sourceCandidateId)))
  }

  function FirstMatch(c: Candidate, assets: seq<AssetRecord>): Option<AssetRecord> {
    if assets == [] then None
    else if RecordMatches(c, assets[0]) then Some(assets[0])
    else FirstMatch(c, assets[1..])
  }

  function SettlementAssetIds(cs: seq<Candidate>, assets: seq<AssetRecord>): seq<string> {
    if cs == [] then [] else
      var before := SettlementAssetIds(cs[..|cs| - 1], assets);
      var c := cs[|cs| - 1];
      if !Settled(c) then before else
      match FirstMatch(c, assets)
      case None => before
      case Some(a) => if a.id in before then before else before + [a.id]
  }

  datatype SettledProjection = SettledProjection(
    assetId: string, status: string, projection: Option<Projection>, error: bool)

  function ProjectSettled(s: Stores, assetId: string, relationships: bool, env: Env): (Stores, SettledProjection) {
    var (s1, projected) := ProjectAsset(s, assetId, env);
    if !projected.Ok? then (s1, SettledProjection(assetId, "blocked", None, true))
    else if !relationships then (s1, SettledProjection(assetId, projected.value.status, Some(projected.value), false))
    else
      var (s2, related) := ProjectRelationships(s1, assetId, env);
      (s2, SettledProjection(assetId, if related.Ok? then projected.value.status else "partial_blocked",
                             Some(projected.value), !related.Ok?))
  }

  function ProjectFold(s: Stores, ids: seq<string>, relationships: bool, env: Env): (Stores, seq<SettledProjection>) {
    if ids == [] then (s, []) else
      var n := |ids| - 1;
      var (s1, done) := ProjectFold(s, ids[..n], relationships, env);
      var (s2, p) := ProjectSettled(s1, ids[n], relationships, env);
      (s2, done + [p])
  }

  /** Episodes of the assets ingested by this settlement. */
  function EpisodeRefs(ps: seq<SettledProjection>): seq<string> {
    if ps == [] then [] else
      var p := ps[|ps| - 1].projection;
      EpisodeRefs(ps[..|ps| - 1])
      + (if p.Some? && p.value.status == "ingested" && p.value.episodeId != ""
         then ["graphiti:" + p.value.episodeId] else [])
  }

  predicate Projected(p: SettledProjection) {
    p.projection.Some? && (p.projection.value.status == "ingested" || p.projection.value.status == "skipped")
  }

  predicate Failed(p: SettledProjection) { p.error }

  function SettlementStatus(approve: bool, project: bool, reviewed: nat, projected: nat, errors: nat, assets: nat): string {
    if errors > 0 then "blocked"
    else if project && projected > 0 then "projected"
    else if approve && (reviewed > 0 || assets > 0) then "approved"
    else "proposed"
  }

  datatype SettleResponse = SettleResponse(
    status: string, proposal: ProposeResponse, review: Option<BatchResponse>, candidates: seq<Candidate>,
    assetIds: seq<string>, projections: seq<SettledProjection>, reportId: string)

  function SettleReviewRequest(req: SettleRequest): ReviewRequest {
    ReviewRequest("approved", OrElse(OrElse(Strip(req.reviewer), Strip(req.actor)), "clara"),
                  OrElse(req.reason, "Approved validated Ticket closeout Assets for settlement."), "", [])
  }

  /** The review step: approves what still awaits review, when approval is requested. */
  function SettleApproval(s: Stores, selected: seq<Candidate>, req: SettleRequest, env: Env)
    : (Stores, Result<Option<BatchResponse>>)
  {
    var awaiting := Ids(Filter(AwaitingReview, selected));
    if !req.approve then (s, Ok(None))
    else if awaiting == [] then (s, Ok(Some(BatchResponse("skipped", |selected|, 0, 0, []))))
    else
      var (s1, batch) := BatchReview(s, awaiting, SettleReviewRequest(req), env.now);
      match batch
      case KeyError(k) => (s1, KeyError(k))
      case ValueError => (s1, ValueError)
      case Ok(b) => (s1, Ok(Some(b)))
  }

  function Settle(s: Stores, ticketId: string, req: SettleRequest, env: Env): (Stores, Result<SettleResponse>) {
    var (s1, proposal) := Propose(s, ticketId, env);
    match proposal
    case KeyError(k) => (s1, KeyError(k))
    case ValueError => (s1, ValueError)
    case Ok(p) =>
      var selected := SelectByType(p.candidates, req.assetTypes);
      var (s2, review) := SettleApproval(s1, selected, req, env);
      match review
      case KeyError(k) => (s2, KeyError(k))
      case ValueError => (s2, ValueError)
      case Ok(batch) => SettleProjections(s2, Strip(ticketId), req, env, p, batch, Ids(selected))
  }

  function WithId(ids: seq<string>): Candidate -> bool { (c: Candidate) => c.id in ids }

  function SettledCandidates(s: Stores, ids: seq<string>): seq<Candidate> { Filter(WithId(ids), s.candidates) }

  function SettleProjections(s: Stores, id: string, req: SettleRequest, env: Env, p: ProposeResponse,
                             review: Option<BatchResponse>, ids: seq<string>): (Stores, Result<SettleResponse>)
  {
    var assetIds := SettlementAssetIds(SettledCandidates(s, ids), s.assets);
    var (s1, projections) := if req.project then ProjectFold(s, assetIds, req.projectRelationships, env) else (s, []);
    SettleReport(s1, id, req, env, p, review, ids, SettledCandidates(s, ids), assetIds, projections)
  }

  function SettleReport(s: Stores, id: string, req: SettleRequest, env: Env, p: ProposeResponse,
                        review: Option<BatchResponse>, ids: seq<string>, candidates: seq<Candidate>,
                        assetIds: seq<string>, projections: seq<SettledProjection>): (Stores, Result<SettleResponse>)
  {
    if id !in s.tickets then (s, KeyError(id)) else
      var refs := IdRefs(ids) + AssetRefs(assetIds) + EpisodeRefs(projections);
      var (t, reportId, _) := ReportOnce(s.tickets[id], "ticket_closeout_settlement", SetOf(refs), refs, env);
      var status := SettlementStatus(req.approve, req.project, if review.Some? then review.value.reviewed else 0,
                                     |Filter(Projected, projections)|, |Filter(Failed, projections)|, |assetIds|);
      (s.(tickets := s.tickets[id := t]),
       Ok(SettleResponse(status, p, review, candidates, assetIds, projections, reportId)))
  }

  // ---- failure retrospective ----

  function Retrospective(s: Stores, ticketId: string, failedItems: nat, minFailed: nat, env: Env)
    : (Stores, Result<ProposeResponse>)
  {
    var id := Strip(ticketId);
    if id !in s.tickets then (s, KeyError(id))
    else if failedItems < minFailed then (s, ValueError)
    else
      var t := s.tickets[id];
      var c := Fresh(t, "loop-failure-retrospective", "failure_retrospective", env);
      var refs := ["asset-candidate:" + c.id];
      var (t1, reportId, added) := ReportOnce(t, "ticket_loop_failure_retrospective_candidate", SetOf(refs), refs, env);
      var status := if Lookup(CandidateId, s.candidates, c.id).Some? && !added then "skipped" else "proposed";
      (UpsertCandidate(s, c).(tickets := s.tickets[id := t1]), Ok(ProposeResponse(status, [c], reportId)))
  }

  // ---- usefulness sync ----

  /** A memory candidate: its id, the Asset id its provenance names, its usage, and the registry candidate its
      import would build. */
  datatype MemoryUsage = MemoryUsage(
    id: string, provenanceAssetId: string, summary: Object, history: seq<Json>, draft: Candidate)

  function UsageProvenance(m: MemoryUsage, id: string, now: Time): Object {
    map["usage_summary" := JObj(m.summary), "usage_history" := JArr(Filter(IsObject, m.history)),
        "last_usefulness_sync_at" := JInt(now), "source_memory_candidate_id" := JStr(id)]
  }

  predicate CandidateUsed(c: Candidate, id: string, assetId: string) {
    c.id == "asset-candidate-" + id || c.sourceCandidateId == id || c.assetId == assetId
  }

  predicate AssetUsed(a: AssetRecord, id: string, assetId: string) {
    || a.id == assetId
    || a.contentRef == "memory_candidate://" + id
    || Get(a.provenance, "source_memory_candidate_id") == JStr(id)
    || Get(a.provenance, "source_candidate_id") == JStr(id)
  }

  function SyncCandidates(cs: seq<Candidate>, m: MemoryUsage, id: string, assetId: string, now: Time): (r: seq<Candidate>)
    ensures |r| == |cs|
  {
    if cs == [] then [] else
      var c := cs[|cs| - 1];
      SyncCandidates(cs[..|cs| - 1], m, id, assetId, now)
      + [if CandidateUsed(c, id, assetId)
         then c.(usefulness := m.summary, provenance := c.provenance + UsageProvenance(m, id, now), updatedAt := now)
         else c]
  }

  function SyncAssets(assets: seq<AssetRecord>, m: MemoryUsage, id: string, assetId: string, now: Time): (r: seq<AssetRecord>)
    ensures |r| == |assets|
  {
    if assets == [] then [] else
      var a := assets[|assets| - 1];
      SyncAssets(assets[..|assets| - 1], m, id, assetId, now)
      + [if AssetUsed(a, id, assetId)
         then a.(usefulness := m.summary, provenance := a.provenance + UsageProvenance(m, id, now), updatedAt := now)
         else a]
  }

  function ImportedCandidate(m: MemoryUsage, id: string): Candidate {
    m.draft.(id := "asset-candidate-" + id, sourceCandidateId := id,
             assetId := OrElse(m.provenanceAssetId, id), contentRef := "memory_candidate://" + id,
             reviewState := m.draft.status,
             provenance := m.draft.provenance + map[
               "source_memory_candidate_id" := JStr(id),
               "source_asset_candidate_id" := JStr("asset-candidate-" + id)],
             usefulness := m.summary)
  }

  function ImportMemory(s: Stores, m: MemoryUsage): (Stores, Result<Candidate>) {
    var id := Strip(m.id);
    if id == "" then (s, ValueError)
    else (UpsertCandidate(s, ImportedCandidate(m, id)), Ok(ImportedCandidate(m, id)))
  }

  /** Refreshes the matching candidates, or imports the memory when there is none. */
  function SyncCandidateStep(s: Stores, m: MemoryUsage, id: string, assetId: string, now: Time): Stores {
    if exists c :: c in s.candidates && CandidateUsed(c, id, assetId)
    then s.(candidates := SortBy(CandidateTime, SyncCandidates(s.candidates, m, id, assetId, now)))
    else UpsertCandidate(s, ImportedCandidate(m, id))
  }

  function SyncAssetStep(s: Stores, m: MemoryUsage, id: string, assetId: string, now: Time): Stores {
    if UsedAssetIds(s.assets, id, assetId) == [] then s
    else s.(assets := SortBy(AssetTime, SyncAssets(s.assets, m, id, assetId, now)))
  }

  /** Returns the ids of the records whose usefulness was refreshed. */
  function SyncUsefulness(s: Stores, m: MemoryUsage, now: Time): (Stores, Result<seq<string>>) {
    var id := Strip(m.id);
    if id == "" then (s, ValueError)
    else if m.summary == map[] && m.history == [] then (s, Ok([]))
    else
      var assetId := OrElse(Strip(OrElse(m.provenanceAssetId, id)), id);
      var s1 := SyncCandidateStep(s, m, id, assetId, now);
      (SyncAssetStep(s1, m, id, assetId, now), Ok(UsedAssetIds(s1.assets, id, assetId)))
  }

  function UsedAssetIds(assets: seq<AssetRecord>, id: string, assetId: string): seq<string> {
    if assets == [] then [] else
      var a := assets[|assets| - 1];
      UsedAssetIds(assets[..|assets| - 1], id, assetId) + (if AssetUsed(a, id, assetId) then [a.id] else [])
  }
}
