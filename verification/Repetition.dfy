/** Repeated settlements from what a caller can see: from the first response, and from the same settlement without
    projecting. */
module Repetition {
  import opened Text
  import opened RegistryModel
  import opened RegistryInvariants
  import opened Runs
  import opened Projection
  import opened BatchReviews
  import opened Settlement
  import opened Convergence
  import opened Coverage

  /** A settlement whose projections all ended ingested or skipped, and whose attempts all fit into the audit
      beside what it held, covers what it projected. */
  lemma CoveredAfterSettlement(s: Stores, ticketId: string, req: SettleRequest, env: Env)
    requires Inv(s) && Strip(ticketId) in s.tickets && req.project
    requires CloseoutReady(s.tickets[Strip(ticketId)]) && ReportIdsOk(s.tickets[Strip(ticketId)].reports)
    requires var (t, r) := Settle(s, ticketId, req, env);
             Room(s, t) && (r.Ok? ==> forall p :: p in r.value.projections ==> !p.error)
    ensures var (t, r) := Settle(s, ticketId, req, env);
            r.Ok? && AllCovered(t, r.value.assetIds, req.projectRelationships, env)
  {
    hide Inv, ProjectFold, CloseoutReady, CloseoutWords, ExistingReport, SelectByType, SettlementAssetIds, Covered,
         Awaiting, ApprovedAll, AfterApproval, CloseoutPresent, ReportOnce, Strip, Propose, SettleApproval;
    FirstSettlement(s, ticketId, req, env);
    ProposeEffect(s, ticketId, env);
    var (s1, proposal) := Propose(s, ticketId, env);
    var selected := SelectByType(proposal.value.candidates, req.assetTypes);
    SettleApprovalKeeps(s1, selected, req, env);
    SettleApprovalAttempts(s1, selected, req, env);
    var s2 := SettleApproval(s1, selected, req, env).0;
    InvGood(s2);
    var ids := SettlementAssetIds(SettledCandidates(s2, Ids(selected)), s2.assets);
    ProjectFoldCovers(s2, ids, req.projectRelationships, env);
  }

  /** What the first response shows: if every projection ended ingested or skipped and the audit had room for the
      attempts, repeating the call any number of times adds no review, no AssetRecord, no ingestion attempt and no
      Ticket report. */
  lemma {:induction false} ProjectedSettlementConverges(s: Stores, ticketId: string, req: SettleRequest, first: Env, later: seq<Env>)
    requires Inv(s) && Strip(ticketId) in s.tickets
    requires CloseoutReady(s.tickets[Strip(ticketId)]) && ReportIdsOk(s.tickets[Strip(ticketId)].reports)
    requires forall f :: f in later ==> SameKeys(first, f)
    requires var (t, r) := Settle(s, ticketId, req, first);
             req.project ==> Room(s, t) && (r.Ok? ==> forall p :: p in r.value.projections ==> !p.error)
    ensures var t := Settle(s, ticketId, req, first).0;
            var u := Fold(SettleStep(ticketId, req), t, later);
            u.reviews == t.reviews && SameAttempts(t, u) && u.tickets == t.tickets && MarkedOnly(t.assets, u.assets)
  {
    hide Inv, Settle, CloseoutReady, Strip, AllCovered, AllQuiet, MarkedOnly;
    if req.project {
      CoveredAfterSettlement(s, ticketId, req, first);
      var (t, r) := Settle(s, ticketId, req, first);
      forall i | 0 <= i < |later|
        ensures AllQuiet(t.audit, t.assets, r.value.assetIds, req.projectRelationships, later[i])
      {
        CoveredIsQuiet(t, r.value.assetIds, req.projectRelationships, first, later[i]);
      }
    }
    SettlementConverges(s, ticketId, req, first, later);
  }

  /** What a settlement projects, and from which stores; the same request without projecting shows both. */
  ghost predicate SettlesThrough(s: Stores, ticketId: string, req: SettleRequest, env: Env, mid: Stores, ids: seq<string>) {
    var (t, r) := Settle(s, ticketId, req, env);
    var (d, plan) := Settle(s, ticketId, req.(project := false), env);
    && r.Ok? && r.value.assetIds == ids && GoodAssets(mid) && RecordsOk(mid.assets) && SameAttempts(s, mid)
    && SameAttempts(t, ProjectFold(mid, ids, req.projectRelationships, env).0)
    && t.assets == ProjectFold(mid, ids, req.projectRelationships, env).0.assets
    && r.value.projections == ProjectFold(mid, ids, req.projectRelationships, env).1
    && plan.Ok? && plan.value.assetIds == ids && d.assets == mid.assets
  }

  lemma SettleThrough(s: Stores, ticketId: string, req: SettleRequest, env: Env) returns (mid: Stores, ids: seq<string>)
    requires Inv(s) && Strip(ticketId) in s.tickets && req.project
    requires CloseoutReady(s.tickets[Strip(ticketId)]) && ReportIdsOk(s.tickets[Strip(ticketId)].reports)
    ensures SettlesThrough(s, ticketId, req, env, mid, ids)
  {
    hide Inv, ProjectFold, CloseoutReady, CloseoutWords, ExistingReport, SelectByType, SettlementAssetIds, SettledFor,
         Awaiting, ApprovedAll, AfterApproval, CloseoutPresent, ReportOnce, Strip, Propose, SettleApproval, RecordsOk, TargetIds;
    var dry := req.(project := false);
    FirstSettlement(s, ticketId, req, env);
    FirstSettlement(s, ticketId, dry, env);
    ProposeEffect(s, ticketId, env);
    var (s1, proposal) := Propose(s, ticketId, env);
    var selected := SelectByType(proposal.value.candidates, req.assetTypes);
    SettleApprovalKeeps(s1, selected, req, env);
    SettleApprovalAttempts(s1, selected, req, env);
    ApprovalIgnoresProjecting(s1, selected, req, env);
    mid := SettleApproval(s1, selected, req, env).0;
    InvGood(mid);
    AuditBounded(mid);
    ids := SettlementAssetIds(SettledCandidates(mid, Ids(selected)), mid.assets);
  }

  lemma ApprovalIgnoresProjecting(s: Stores, selected: seq<Candidate>, req: SettleRequest, env: Env)
    ensures SettleApproval(s, selected, req.(project := false), env) == SettleApproval(s, selected, req, env)
  {
    hide BatchReview, Strip, Ids;
  }

  /** Exactly when a settlement that projects leaves Graphiti alone: when the targets that the same settlement names
      without projecting are quiet, in the records that one leaves and the audit before the call. */
  lemma SettlementAsksExactly(s: Stores, ticketId: string, req: SettleRequest, env: Env)
    requires Inv(s) && Strip(ticketId) in s.tickets && req.project
    requires CloseoutReady(s.tickets[Strip(ticketId)]) && ReportIdsOk(s.tickets[Strip(ticketId)].reports)
    ensures var (d, plan) := Settle(s, ticketId, req.(project := false), env);
            var (t, r) := Settle(s, ticketId, req, env);
            && plan.Ok? && r.Ok? && r.value.assetIds == plan.value.assetIds && d.attempts == s.attempts
            && (t.attempts == s.attempts <==> AllQuiet(s.audit, d.assets, plan.value.assetIds, req.projectRelationships, env))
  {
    hide Inv, Settle, CloseoutReady, ExistingReport, Strip, ProjectFold, MarkedOnly, AllQuiet, RecordsOk;
    var mid, ids := SettleThrough(s, ticketId, req, env);
    AuditBounded(s);
    ProjectFoldQuiet(mid, ids, req.projectRelationships, env);
    DryAttempts(s, ticketId, req, env);
  }

  lemma DryAttempts(s: Stores, ticketId: string, req: SettleRequest, env: Env)
    ensures Settle(s, ticketId, req.(project := false), env).0.attempts == s.attempts
  {
    hide Propose, SelectByType, SettleApproval, SettlementAssetIds, SettledCandidates, ReportOnce, Ids, Strip;
    var dry := req.(project := false);
    ProposeAttempts(s, ticketId, env);
    var (s1, proposal) := Propose(s, ticketId, env);
    if proposal.Ok? {
      SettleApprovalAttempts(s1, SelectByType(proposal.value.candidates, req.assetTypes), dry, env);
    }
  }
}
