/** Which candidates and records a settlement takes, told by what they say. */
module Targets {
  import opened Text
  import opened Json
  import opened StableSort
  import opened Keyed
  import opened RegistryModel
  import opened RegistryInvariants
  import opened Projection
  import opened BatchReviews
  import opened ReviewOutcomes
  import opened Settlement
  import opened Convergence

  // ---- which record is a candidate's ----

  /** The record has the Asset id of the candidate, or the one made up for a candidate without. */
  ghost predicate HasItsAssetId(a: AssetRecord, c: Candidate) {
    a.id == if Strip(c.assetId) == "" then "asset-" + SafeRef(c.id) else Strip(c.assetId)
  }

  /** The record was made from the candidate. */
  ghost predicate MadeFrom(a: AssetRecord, c: Candidate) {
    "source_asset_candidate_id" in a.provenance && a.provenance["source_asset_candidate_id"] == JStr(c.id)
  }

  /** The record was made from a candidate with the same source, and there is a source. */
  ghost predicate SharesSource(a: AssetRecord, c: Candidate) {
    exists source ::
      && source != "" && source == Strip(c.sourceCandidateId)
      && "source_candidate_id" in a.provenance && a.provenance["source_candidate_id"] == JStr(source)
  }

  ghost predicate Names(a: AssetRecord, c: Candidate) { HasItsAssetId(a, c) || MadeFrom(a, c) || SharesSource(a, c) }

  /** The oldest record that names the candidate. */
  ghost predicate FirstNaming(assets: seq<AssetRecord>, i: int, c: Candidate) {
    0 <= i < |assets| && Names(assets[i], c) && forall j :: 0 <= j < i ==> !Names(assets[j], c)
  }

  ghost predicate CountsAsSettled(c: Candidate) {
    c.status in {"approved", "accepted", "validated"} || c.reviewState in {"approved", "accepted", "validated"}
  }

  lemma MatchesNames(c: Candidate, a: AssetRecord)
    ensures RecordMatches(c, a) <==> Names(a, c)
  {
    hide Strip, SafeRef;
  }

  lemma {:induction false} FirstMatchIs(c: Candidate, assets: seq<AssetRecord>, i: int)
    requires 0 <= i < |assets| && FirstNaming(assets, i, c)
    ensures FirstMatch(c, assets) == Some(assets[i])
  {
    hide RecordMatches, Names;
    MatchesNames(c, assets[0]);
    if i > 0 {
      forall j | 0 <= j < i - 1 ensures !Names(assets[1..][j], c) {
        assert !Names(assets[j + 1], c);
      }
      FirstMatchIs(c, assets[1..], i - 1);
    }
  }

  lemma {:induction false} FirstMatchAt(c: Candidate, assets: seq<AssetRecord>) returns (i: nat)
    requires FirstMatch(c, assets).Some?
    ensures i < |assets| && FirstNaming(assets, i, c) && FirstMatch(c, assets) == Some(assets[i])
  {
    hide RecordMatches, Names;
    MatchesNames(c, assets[0]);
    if RecordMatches(c, assets[0]) {
      i := 0;
    } else {
      var k := FirstMatchAt(c, assets[1..]);
      i := k + 1;
      forall j | 0 <= j < i ensures !Names(assets[j], c) {
        assert j > 0 ==> assets[j] == assets[1..][j - 1];
      }
    }
  }

  /** The id is that of the oldest record naming one of the candidates that count as settled. */
  ghost predicate Targeted(cs: seq<Candidate>, assets: seq<AssetRecord>, id: string) {
    exists c, i :: c in cs && CountsAsSettled(c) && FirstNaming(assets, i, c) && 0 <= i < |assets| && assets[i].id == id
  }

  lemma {:induction false} TargetsExactly(cs: seq<Candidate>, assets: seq<AssetRecord>, id: string)
    ensures id in SettlementAssetIds(cs, assets) <==> Targeted(cs, assets, id)
  {
    hide RecordMatches, FirstNaming, CountsAsSettled, Settled;
    if cs != [] {
      var n := |cs| - 1;
      TargetsExactly(cs[..n], assets, id);
      SettledExactly(cs[n]);
      if Targeted(cs[..n], assets, id) {
        var c, i :| c in cs[..n] && CountsAsSettled(c) && FirstNaming(assets, i, c) && 0 <= i < |assets| && assets[i].id == id;
        assert c in cs;
      }
      if FirstMatch(cs[n], assets).Some? {
        var i := FirstMatchAt(cs[n], assets);
        assert Settled(cs[n]) && assets[i].id == id ==> Targeted(cs, assets, id);
      }
      if Targeted(cs, assets, id) && !Targeted(cs[..n], assets, id) {
        var c, i :| c in cs && CountsAsSettled(c) && FirstNaming(assets, i, c) && 0 <= i < |assets| && assets[i].id == id;
        assert c == cs[n];
        FirstMatchIs(c, assets, i);
      }
    }
  }

  lemma SettledExactly(c: Candidate)
    ensures Settled(c) <==> CountsAsSettled(c)
  {
  }

  // ---- which candidates are selected ----

  /** No type is asked for, or the candidate's, whatever its case and the blanks around it. */
  ghost predicate TypeRequested(types: seq<string>, assetType: string) {
    || (forall t :: t in types ==> Strip(t) == "")
    || exists t :: t in types && Strip(t) != "" && Lower(Strip(t)) == Lower(Strip(assetType))
  }

  lemma SelectedExactly(cs: seq<Candidate>, types: seq<string>, c: Candidate)
    ensures c in SelectByType(cs, types) <==> c in cs && TypeRequested(types, c.assetType)
  {
    hide Strip, Lower;
    SelectMember(cs, types, c);
    var requested := RequestedTypes(types);
    if forall t :: t in types ==> Strip(t) == "" {
      assert requested == {};
    } else {
      var t :| t in types && Strip(t) != "";
      assert Lower(Strip(t)) in requested;
    }
  }

  // ---- what a settlement takes ----

  /** The stores after the proposal and after the approvals of a settlement that succeeds. */
  ghost predicate Stages(s: Stores, ticketId: string, req: SettleRequest, env: Env, s1: Stores, s2: Stores) {
    var (t, r) := Settle(s, ticketId, req, env);
    && r.Ok? && Inv(s1) && Inv(s2) && Propose(s, ticketId, env) == (s1, Ok(r.value.proposal))
    && SettleApproval(s1, SelectByType(r.value.proposal.candidates, req.assetTypes), req, env) == (s2, Ok(r.value.review))
    && t == s2.(assets := t.assets, audit := t.audit, attempts := t.attempts, tickets := t.tickets)
    && MarkedOnly(s2.assets, t.assets)
    && r.value.candidates == SettledCandidates(t, Ids(SelectByType(r.value.proposal.candidates, req.assetTypes)))
    && r.value.assetIds == SettlementAssetIds(r.value.candidates, t.assets)
  }

  lemma ResponseStages(s: Stores, ticketId: string, req: SettleRequest, env: Env) returns (s1: Stores, s2: Stores)
    requires Inv(s) && Settle(s, ticketId, req, env).1.Ok?
    ensures Stages(s, ticketId, req, env, s1, s2)
  {
    hide Inv, Propose, SelectByType, SettleApproval, ProjectFold, SettlementAssetIds, ReportOnce, Ids, Strip, MarkedOnly, IdRefs,
         AssetRefs, EpisodeRefs, SettlementStatus;
    ProposeKeeps(s, ticketId, env);
    var proposal: Result<ProposeResponse>;
    s1, proposal := Propose(s, ticketId, env).0, Propose(s, ticketId, env).1;
    var selected := SelectByType(proposal.value.candidates, req.assetTypes);
    SettleApprovalKeeps(s1, selected, req, env);
    s2 := SettleApproval(s1, selected, req, env).0;
    InvGood(s2);
    var cs := SettledCandidates(s2, Ids(selected));
    ProjectFoldEffect(s2, SettlementAssetIds(cs, s2.assets), req.projectRelationships, env);
    MarkedOnlySelf(s2.assets);
    SettlementAfterMarks(cs, s2.assets, Settle(s, ticketId, req, env).0.assets);
  }

  /** The candidates a settlement answers with are those of the registry whose proposal is of a requested type. The
      records it takes are exactly, for each of them that counts as settled, the oldest record that names it: by its
      Asset id, as made from it, or by a source they share. */
  lemma SettledTargets(s: Stores, ticketId: string, req: SettleRequest, env: Env)
    requires Inv(s) && Strip(ticketId) in s.tickets
    requires CloseoutReady(s.tickets[Strip(ticketId)]) && ReportIdsOk(s.tickets[Strip(ticketId)].reports)
    ensures var (t, r) := Settle(s, ticketId, req, env);
            && r.Ok? && NoRepeats(r.value.assetIds)
            && (forall c :: c in r.value.candidates <==>
                  c in t.candidates &&
                  exists p :: p in r.value.proposal.candidates && p.id == c.id && TypeRequested(req.assetTypes, p.assetType))
            && (forall id :: id in r.value.assetIds <==> Targeted(r.value.candidates, t.assets, id))
  {
    hide Inv, Settle, CloseoutReady, ReportIdsOk, Strip, SettledFor, TargetIds, LeftBy, Targeted, SettlementAssetIds, TypeRequested,
         SelectByType, Ids, Filter;
    FirstSettlement(s, ticketId, req, env);
    var s1, s2 := ResponseStages(s, ticketId, req, env);
    var (t, r) := Settle(s, ticketId, req, env);
    var selected := SelectByType(r.value.proposal.candidates, req.assetTypes);
    SettlementAssetIdsFacts(r.value.candidates, t.assets);
    IdsDistinct(selected);
    forall c ensures c in r.value.candidates <==> c in t.candidates && c.id in Ids(selected) {
      FilterMember(WithId(Ids(selected)), t.candidates, c);
    }
    forall p ensures p in selected <==> p in r.value.proposal.candidates && TypeRequested(req.assetTypes, p.assetType) {
      SelectedExactly(r.value.proposal.candidates, req.assetTypes, p);
    }
    forall id ensures id in r.value.assetIds <==> Targeted(r.value.candidates, t.assets, id) {
      TargetsExactly(r.value.candidates, t.assets, id);
    }
  }

  /** The record was made from the candidate and no other record names it. */
  ghost predicate OnlyNamedBy(assets: seq<AssetRecord>, c: Candidate, a: AssetRecord) {
    a in assets && MadeFrom(a, c) && forall b :: b in assets && Names(b, c) ==> b == a
  }

  /** After any run from empty stores: no approved candidate loses its record to another. Of each candidate a settlement
      answers with as approved, the record made from it is taken when no other record names the candidate; and every
      record taken names one of them. */
  lemma {:induction false} EachHasItsRecord(tickets: map<string, Ticket>, steps: seq<(Op, Env)>, ticketId: string, req: SettleRequest,
                                            env: Env)
    requires var s := Run(EmptyStores(tickets), steps);
             Strip(ticketId) in s.tickets && CloseoutReady(s.tickets[Strip(ticketId)]) && ReportIdsOk(s.tickets[Strip(ticketId)].reports)
    ensures var (t, r) := Settle(Run(EmptyStores(tickets), steps), ticketId, req, env);
            && r.Ok?
            && (forall c, a :: c in r.value.candidates && c.status == "approved" && OnlyNamedBy(t.assets, c, a) ==>
                  a.id in r.value.assetIds)
            && (forall id :: id in r.value.assetIds ==>
                  exists c, a :: c in r.value.candidates && a in t.assets && a.id == id && Names(a, c))
  {
    hide Inv, Settle, CloseoutReady, ReportIdsOk, Strip, Run, MadeFrom, HasItsAssetId, SharesSource;
    var s := Run(EmptyStores(tickets), steps);
    RunKeeps(EmptyStores(tickets), steps);
    EmptyInv(tickets);
    SettledTargets(s, ticketId, req, env);
    var (t, r) := Settle(s, ticketId, req, env);
    forall c, a | c in r.value.candidates && c.status == "approved" && OnlyNamedBy(t.assets, c, a)
      ensures a.id in r.value.assetIds
    {
      var i := OldestNaming(t.assets, c, a);
      assert Targeted(r.value.candidates, t.assets, a.id);
    }
  }

  lemma EmptyInv(tickets: map<string, Ticket>)
    ensures Inv(EmptyStores(tickets))
  {
  }

  lemma {:induction false} OldestNaming(assets: seq<AssetRecord>, c: Candidate, a: AssetRecord) returns (i: nat)
    requires a in assets && Names(a, c)
    ensures i < |assets| && FirstNaming(assets, i, c)
  {
    hide Names;
    if Names(assets[0], c) {
      i := 0;
    } else {
      var k := OldestNaming(assets[1..], c, a);
      i := k + 1;
      forall j | 0 <= j < i ensures !Names(assets[j], c) {
        assert j > 0 ==> assets[j] == assets[1..][j - 1];
      }
    }
  }

  /** What a settlement asks of its reviews: in the name of the first given of reviewer, actor and Clara. */
  predicate SettlementAsks(asked: ReviewRequest, req: SettleRequest) {
    && asked.reviewer == (if Strip(req.reviewer) != "" then Strip(req.reviewer)
                          else if Strip(req.actor) != "" then Strip(req.actor) else "clara")
    && asked.reason == (if req.reason != "" then req.reason else "Approved validated Ticket closeout Assets for settlement.")
    && asked.status == "approved" && asked.mergeTarget == "" && asked.links == []
  }

  lemma SettlementAsksThat(req: SettleRequest)
    ensures SettlementAsks(BatchItemRequest("approved", SettleReviewRequest(req)), req)
  {
    hide Strip;
  }

  lemma AskedStatus(req: SettleRequest)
    ensures NormalizeReviewStatus(SettleReviewRequest(req).status) == Some("approved")
    ensures NormalizeReviewStatus(BatchItemRequest("approved", SettleReviewRequest(req)).status) == Some("approved")
  {
    ApprovedNormal();
    hide NormalizeReviewStatus, Strip;
  }

  /** What the approvals of a settlement answer. */
  lemma ApprovalItems(s: Stores, selected: seq<Candidate>, req: SettleRequest, env: Env)
    requires Inv(s) && NoRepeats(Ids(selected)) && forall k :: k in Ids(selected) ==> PlainId(k)
    ensures var (t, review) := SettleApproval(s, selected, req, env);
            review.Ok? && (review.value.Some? ==>
              forall item :: item in review.value.value.items && item.outcome.Ok? ==>
                var found := Lookup(CandidateId, s.candidates, item.candidateId);
                && item.candidateId in Ids(selected) && found.Some?
                && ItemAnswers(found.value, item, t, "approved", BatchItemRequest("approved", SettleReviewRequest(req)), env.now))
  {
    hide Inv, ItemAnswers, BatchFold, AwaitingReview, Strip, UniqueIds, NormalizeReviewStatus, Filter, Ids, BatchItemRequest,
         SettleReviewRequest, Lookup, PlainId, BatchStatus;
    var awaiting := Ids(Filter(AwaitingReview, selected));
    FilterIds(AwaitingReview, selected);
    IdsDistinct(selected);
    assert forall k :: k in awaiting ==> k in Ids(selected);
    if req.approve && awaiting != [] {
      AskedStatus(req);
      AwaitingPlain(awaiting);
      ApprovalEffect(s, selected, req, env);
      FoldAnswers(s, awaiting, "approved", BatchItemRequest("approved", SettleReviewRequest(req)), env.now);
    }
  }

  lemma AwaitingPlain(awaiting: seq<string>)
    requires NoRepeats(awaiting) && forall k :: k in awaiting ==> PlainId(k)
    ensures UniqueIds(awaiting) == awaiting && forall k :: k in awaiting ==> Strip(k) == k
  {
    hide Strip, UniqueIds;
    UniqueIdsFixed(awaiting);
  }

  /** A candidate that was approved has a record that names it, and it is found. */
  lemma ApprovedIsNamed(s2: Stores, t: Stores, before: Candidate, item: BatchItem, asked: ReviewRequest, now: Time)
    requires Inv(s2) && ItemAnswers(before, item, s2, "approved", asked, now) && MarkedOnly(s2.assets, t.assets)
    ensures var c := item.outcome.value.candidate;
            && c.status == "approved" && c.id == item.candidateId && c in s2.candidates
            && exists i :: 0 <= i < |t.assets| && FirstNaming(t.assets, i, c)
  {
    hide Strip, SafeRef, MadeFrom, SharesSource, FirstNaming, CandidateReviewed, RecordSays;
    var c, review := item.outcome.value.candidate, item.outcome.value.review;
    var number :| Answered(before, item.outcome.value, number, "approved", asked, now);
    ReviewedBasics(before, c, "approved", asked, now);
    LookupMember(CandidateId, s2.candidates, item.candidateId);
    assert ReviewsHaveRecords(s2);
    var i :| 0 <= i < |s2.assets| && AssetId(s2.assets[i]) == SettledRecordId(review);
    assert SameButMarks(s2.assets[i], t.assets[i]);
    assert HasItsAssetId(t.assets[i], c);
    var first := OldestNaming(t.assets, c, t.assets[i]);
  }

  /** The selected candidates of a settlement have plain ids, each once. */
  lemma SelectedPlain(s: Stores, ticketId: string, req: SettleRequest, env: Env)
    requires Inv(s) && Strip(ticketId) in s.tickets
    requires CloseoutReady(s.tickets[Strip(ticketId)]) && ReportIdsOk(s.tickets[Strip(ticketId)].reports)
    ensures var proposal := Propose(s, ticketId, env).1;
            && proposal.Ok?
            && var ids := Ids(SelectByType(proposal.value.candidates, req.assetTypes));
               NoRepeats(ids) && forall k :: k in ids ==> PlainId(k)
  {
    hide Inv, Propose, CloseoutReady, ReportIdsOk, Strip, CloseoutPresent, ExistingReport, PlainId, Ids;
    ProposeEffect(s, ticketId, env);
    var (s1, proposal) := Propose(s, ticketId, env);
    PresentIds(s1, s1.tickets[Strip(ticketId)], proposal.value.candidates);
    SelectedIdsPlain(proposal.value.candidates, req);
    FilterIds(OfType(RequestedTypes(req.assetTypes)), proposal.value.candidates);
  }

  /** Every candidate the call approved is among those it answers with, was approved in the name of whoever settles, and
      has a record that names it taken. */
  lemma ApprovedAreTaken(s: Stores, ticketId: string, req: SettleRequest, env: Env)
    requires Inv(s) && Strip(ticketId) in s.tickets
    requires CloseoutReady(s.tickets[Strip(ticketId)]) && ReportIdsOk(s.tickets[Strip(ticketId)].reports)
    ensures var (t, r) := Settle(s, ticketId, req, env);
            r.Ok? && (r.value.review.Some? ==>
              forall item :: item in r.value.review.value.items && item.outcome.Ok? ==>
                var c := item.outcome.value.candidate;
                && c.status == "approved" && c in r.value.candidates
                && (exists a :: a in t.assets && Names(a, c) && a.id in r.value.assetIds)
                && exists before, asked :: SettlementAsks(asked, req) && ItemAnswers(before, item, t, "approved", asked, env.now))
  {
    hide Inv, Settle, Propose, SettleApproval, CloseoutReady, ReportIdsOk, Strip, ItemAnswers, SettlementAsks, Names, MarkedOnly, SelectByType, Ids,
         SettlementAssetIds, PlainId, SettledFor, LeftBy, TargetIds, FirstNaming, Filter;
    FirstSettlement(s, ticketId, req, env);
    SelectedPlain(s, ticketId, req, env);
    var s1, s2 := ResponseStages(s, ticketId, req, env);
    var (t, r) := Settle(s, ticketId, req, env);
    var selected := SelectByType(r.value.proposal.candidates, req.assetTypes);
    ApprovalItems(s1, selected, req, env);
    if r.value.review.Some? {
      forall item | item in r.value.review.value.items && item.outcome.Ok?
        ensures var c := item.outcome.value.candidate;
                && c.status == "approved" && c in r.value.candidates
                && (exists a :: a in t.assets && Names(a, c) && a.id in r.value.assetIds)
                && exists before, asked :: SettlementAsks(asked, req) && ItemAnswers(before, item, t, "approved", asked, env.now)
      {
        var before := Lookup(CandidateId, s1.candidates, item.candidateId).value;
        var asked := BatchItemRequest("approved", SettleReviewRequest(req));
        SettlementAsksThat(req);
        SameAnswers(s2, t, before, item, asked, env.now);
        ApprovedIsNamed(s2, t, before, item, asked, env.now);
        var c := item.outcome.value.candidate;
        FilterMember(WithId(Ids(selected)), t.candidates, c);
        var i :| 0 <= i < |t.assets| && FirstNaming(t.assets, i, c);
        FirstNames(t.assets, i, c);
        TargetsExactly(r.value.candidates, t.assets, t.assets[i].id);
        assert Targeted(r.value.candidates, t.assets, t.assets[i].id);
        assert t.assets[i] in t.assets;
      }
    }
  }

  lemma SameAnswers(s2: Stores, t: Stores, before: Candidate, item: BatchItem, asked: ReviewRequest, now: Time)
    requires ItemAnswers(before, item, s2, "approved", asked, now) && t.reviews == s2.reviews && t.candidates == s2.candidates
    ensures ItemAnswers(before, item, t, "approved", asked, now)
  {
  }

  lemma FirstNames(assets: seq<AssetRecord>, i: int, c: Candidate)
    requires 0 <= i < |assets| && FirstNaming(assets, i, c)
    ensures Names(assets[i], c)
  {
  }
}
