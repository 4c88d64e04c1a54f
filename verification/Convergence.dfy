/** Repeating a settlement: the first one leaves settled stores; every further one with the same request leaves
    reviews and records as they are, and ingestions and reports too exactly when its targets are quiet. */
module Convergence {
  import opened Text
  import opened StableSort
  import opened Keyed
  import opened RegistryModel
  import opened RegistryInvariants
  import opened Runs
  import opened Projection
  import opened BatchReviews
  import opened Settlement
  import opened Coverage

  const CLOSEOUT := "ticket_closeout_candidates"
  const SETTLEMENT := "ticket_closeout_settlement"

  // ---- ids of closeout candidates ----

  lemma TicketCandidateIdPlain(t: Ticket, word: string)
    requires word == "closeout" || word == "solution" || word == "validation"
    ensures var id := TicketCandidateId(t, word); id != "" && Strip(id) == id
  {
    hide SafeRef, Strip;
    SafeRefFacts(Strip(t.id));
    PrefixTrimmed("asset-candidate-ticket-" + word + "-", SafeRef(Strip(t.id)));
  }

  lemma CloseoutWord(t: Ticket, i: nat)
    requires i < |CloseoutWords(t)|
    ensures var w := CloseoutWords(t)[i].0; w == "closeout" || w == "solution" || w == "validation"
  {
  }

  /** The word right after the common prefix tells the ids apart. */
  lemma TicketCandidateIdsDiffer(t: Ticket, v: string, w: string)
    requires v != "" && w != "" && v[0] != w[0]
    ensures TicketCandidateId(t, v) != TicketCandidateId(t, w)
  {
    var prefix := "asset-candidate-ticket-";
    assert TicketCandidateId(t, v)[|prefix|] == v[0] && TicketCandidateId(t, w)[|prefix|] == w[0];
  }

  lemma DraftsDistinct(t: Ticket, env: Env)
    ensures DistinctDrafts(CloseoutCandidates(t, env))
  {
    var drafts := CloseoutCandidates(t, env);
    var words := CloseoutWords(t);
    forall i, j | 0 <= i < j < |drafts| ensures CandidateId(drafts[i]) != CandidateId(drafts[j]) {
      WordsDiffer(t, i, j);
      TicketCandidateIdsDiffer(t, words[i].0, words[j].0);
    }
  }

  lemma {:induction false} IdsAt(cs: seq<Candidate>)
    ensures |Ids(cs)| == |cs| && forall i :: 0 <= i < |cs| ==> Ids(cs)[i] == cs[i].id
  {
    if cs != [] {
      IdsAt(cs[..|cs| - 1]);
    }
  }

  predicate PlainId(id: string) { id != "" && Strip(id) == id }

  lemma {:induction false} RefsPlain(prefix: string, ids: seq<string>)
    requires prefix != "" && !IsSpace(prefix[0])
    requires forall k :: k in ids ==> PlainId(k)
    ensures PlainRefs(SetOf(Refs(prefix, ids)))
  {
    hide Strip;
    if ids != [] {
      var n := |ids| - 1;
      RefsPlain(prefix, ids[..n]);
      assert PlainId(ids[n]);
      StripFacts(ids[n]);
      PrefixTrimmed(prefix, ids[n]);
      forall e | e in SetOf(Refs(prefix, ids)) ensures e != "" && Strip(e) == e {
        if e != prefix + ids[n] {
          assert e in SetOf(Refs(prefix, ids[..n]));
        }
      }
    }
  }

  // ---- candidates that count alike ----

  predicate Alike(c: Candidate, d: Candidate) { c.id == d.id && c.assetType == d.assetType }

  ghost predicate AllAlike(xs: seq<Candidate>, ys: seq<Candidate>) {
    |xs| == |ys| && forall i :: 0 <= i < |xs| ==> Alike(xs[i], ys[i])
  }

  lemma {:induction false} AlikeIds(xs: seq<Candidate>, ys: seq<Candidate>)
    requires AllAlike(xs, ys)
    ensures Ids(xs) == Ids(ys)
  {
    IdsAt(xs);
    IdsAt(ys);
  }

  lemma {:induction false} AlikeFilter(requested: set<string>, xs: seq<Candidate>, ys: seq<Candidate>)
    requires AllAlike(xs, ys)
    ensures AllAlike(Filter(OfType(requested), xs), Filter(OfType(requested), ys))
  {
    if xs != [] {
      assert Alike(xs[0], ys[0]);
      forall i | 0 <= i < |xs| - 1 ensures Alike(xs[1..][i], ys[1..][i]) {
        assert Alike(xs[i + 1], ys[i + 1]);
      }
      AlikeFilter(requested, xs[1..], ys[1..]);
    }
  }

  lemma AlikeSelect(types: seq<string>, xs: seq<Candidate>, ys: seq<Candidate>)
    requires AllAlike(xs, ys)
    ensures AllAlike(SelectByType(xs, types), SelectByType(ys, types))
    ensures Ids(SelectByType(xs, types)) == Ids(SelectByType(ys, types))
  {
    AlikeFilter(RequestedTypes(types), xs, ys);
    AlikeIds(SelectByType(xs, types), SelectByType(ys, types));
  }

  lemma SelectMember(cs: seq<Candidate>, types: seq<string>, c: Candidate)
    ensures c in SelectByType(cs, types) ==> c in cs
    ensures c in SelectByType(cs, types) <==>
              c in cs && (RequestedTypes(types) == {} || Lower(Strip(c.assetType)) in RequestedTypes(types))
  {
    FilterMember(OfType(RequestedTypes(types)), cs, c);
  }

  // ---- settled stores ----

  /** A generated candidate nobody reviewed. */
  predicate Plain(c: Candidate, assetType: string) {
    c.assetType == assetType && c.status == "proposed" && c.reviewState == "proposed"
  }

  function TargetIds(s: Stores, req: SettleRequest, cur: seq<Candidate>): seq<string> {
    SettlementAssetIds(SettledCandidates(s, Ids(SelectByType(cur, req.assetTypes))), s.assets)
  }

  function SettledRefs(s: Stores, req: SettleRequest, cur: seq<Candidate>): set<string> {
    SetOf(IdRefs(Ids(SelectByType(cur, req.assetTypes)))) + SetOf(AssetRefs(TargetIds(s, req, cur)))
  }

  /** `cur` are the registry's closeout candidates of Ticket `t`; each is reviewed or as generated. */
  ghost predicate CloseoutPresent(s: Stores, t: Ticket, cur: seq<Candidate>) {
    && |cur| == |CloseoutWords(t)|
    && forall i :: 0 <= i < |cur| ==>
         && Lookup(CandidateId, s.candidates, TicketCandidateId(t, CloseoutWords(t)[i].0)) == Some(cur[i])
         && (ReviewStatus(cur[i].status) || Plain(cur[i], CloseoutWords(t)[i].1))
  }

  ghost predicate TicketClosed(t: Ticket, refs: set<string>, settled: set<string>) {
    && CloseoutReady(t) && ReportIdsOk(t.reports)
    && ExistingReport(t.reports, CLOSEOUT, refs) != ""
    && ExistingReport(t.reports, SETTLEMENT, settled) != ""
  }

  /** Nothing is left to review or to report for the request. */
  ghost predicate SettledFor(s: Stores, id: string, req: SettleRequest, cur: seq<Candidate>) {
    && Inv(s) && id in s.tickets
    && CloseoutPresent(s, s.tickets[id], cur)
    && TicketClosed(s.tickets[id], SetOf(IdRefs(Ids(cur))), SettledRefs(s, req, cur))
    && (req.approve ==> forall c :: c in SelectByType(cur, req.assetTypes) ==> !AwaitingReview(c))
  }

  /** Projecting what the request targets asks Graphiti nothing. */
  ghost predicate QuietFor(s: Stores, req: SettleRequest, ids: seq<string>, env: Env) {
    req.project ==> AllQuiet(s.audit, s.assets, ids, req.projectRelationships, env)
  }

  // ---- proposing ----

  lemma ProposeCandidates(s: Stores, t: Ticket, env: Env)
    requires Good(CandidateId, CandidateTime, s.candidates)
    ensures var (s1, kept) := ProposeFold(s, CloseoutCandidates(t, env));
            && CloseoutPresent(s1, t, kept)
            && |kept| == |CloseoutWords(t)|
            && s1 == s.(candidates := s1.candidates)
            && (forall i :: 0 <= i < |kept| ==> kept[i] == Kept(s, CloseoutCandidates(t, env)[i]))
  {
    hide Kept, SafeRef;
    DraftsDistinct(t, env);
    ProposeFoldEffect(s, CloseoutCandidates(t, env));
    ProposeFoldAttempts(s, CloseoutCandidates(t, env));
    var drafts := CloseoutCandidates(t, env);
    forall i | 0 <= i < |drafts| ensures ReviewStatus(Kept(s, drafts[i]).status) || Plain(Kept(s, drafts[i]), CloseoutWords(t)[i].1) {
      KeptKind(s, t, CloseoutWords(t)[i], env);
    }
  }

  lemma KeptKind(s: Stores, t: Ticket, w: (string, string), env: Env)
    ensures var c := Kept(s, Fresh(t, w.0, w.1, env)); ReviewStatus(c.status) || Plain(c, w.1)
  {
  }

  /** Every closeout candidate's id is plain, and no two share one. */
  lemma PresentIds(s: Stores, t: Ticket, cur: seq<Candidate>)
    requires CloseoutPresent(s, t, cur)
    ensures forall i :: 0 <= i < |cur| ==> cur[i].id == TicketCandidateId(t, CloseoutWords(t)[i].0)
    ensures forall k :: k in Ids(cur) ==> PlainId(k)
    ensures NoRepeats(Ids(cur))
  {
    hide SafeRef, Strip, ReviewStatus, TicketCandidateId;
    IdsAt(cur);
    var words := CloseoutWords(t);
    forall i | 0 <= i < |cur| ensures cur[i].id == TicketCandidateId(t, words[i].0) && PlainId(cur[i].id) {
      LookupMember(CandidateId, s.candidates, TicketCandidateId(t, words[i].0));
      CloseoutWord(t, i);
      TicketCandidateIdPlain(t, words[i].0);
    }
    forall i, j | 0 <= i < j < |cur| ensures cur[i].id != cur[j].id {
      WordsDiffer(t, i, j);
      TicketCandidateIdsDiffer(t, words[i].0, words[j].0);
    }
  }

  lemma WordsDiffer(t: Ticket, i: nat, j: nat)
    requires i < j < |CloseoutWords(t)|
    ensures var v, w := CloseoutWords(t)[i].0, CloseoutWords(t)[j].0; v != "" && w != "" && v[0] != w[0]
  {
  }

  /** A Ticket after it was reported once of either settlement type. */
  lemma ReportedTicket(t: Ticket, reportType: string, evidence: seq<string>, fewer: set<string>, env: Env)
    requires CloseoutReady(t) && ReportIdsOk(t.reports) && (reportType == CLOSEOUT || reportType == SETTLEMENT)
    requires fewer <= SetOf(evidence) && PlainRefs(fewer)
    ensures var u := ReportOnce(t, reportType, SetOf(evidence), evidence, env).0;
            && u.id == t.id && CloseoutReady(u) && ReportIdsOk(u.reports) && CloseoutWords(u) == CloseoutWords(t)
            && ExistingReport(u.reports, reportType, fewer) != ""
            && forall other, refs :: other != reportType ==>
                 ExistingReport(u.reports, other, refs) == ExistingReport(t.reports, other, refs)
  {
    hide ReportOnce, ExistingReport, CloseoutReady, CloseoutWords;
    TypesNormal();
    ReportOnceEffect(t, reportType, evidence, fewer, env);
    var u := ReportOnce(t, reportType, SetOf(evidence), evidence, env).0;
    if u.reports != t.reports {
      var r :| ReportType(r) == reportType && u.reports == t.reports + [r];
      ClosingReport(t, u, r);
      forall other, refs | other != reportType
        ensures ExistingReport(u.reports, other, refs) == ExistingReport(t.reports, other, refs)
      {
        OtherReportType(t.reports, r, other, refs);
      }
    } else {
      assert u == t;
    }
  }

  lemma TypesNormal()
    ensures NormalType(CLOSEOUT) && NormalType(SETTLEMENT)
  {
    hide Strip, Lower;
    assert Word(CLOSEOUT) && Word(SETTLEMENT);
    WordNormal(CLOSEOUT);
    WordNormal(SETTLEMENT);
  }

  /** What proposing leaves behind. */
  lemma ProposeEffect(s: Stores, ticketId: string, env: Env)
    requires Inv(s) && Strip(ticketId) in s.tickets
    requires CloseoutReady(s.tickets[Strip(ticketId)]) && ReportIdsOk(s.tickets[Strip(ticketId)].reports)
    ensures var (s1, result) := Propose(s, ticketId, env);
            var id := Strip(ticketId);
            && Inv(s1) && result.Ok? && id in s1.tickets
            && s1 == s.(candidates := s1.candidates, tickets := s1.tickets)
            && s1.tickets == s.tickets[id := s1.tickets[id]]
            && CloseoutPresent(s1, s1.tickets[id], result.value.candidates)
            && CloseoutReady(s1.tickets[id]) && ReportIdsOk(s1.tickets[id].reports)
            && ExistingReport(s1.tickets[id].reports, CLOSEOUT, SetOf(IdRefs(Ids(result.value.candidates)))) != ""
  {
    hide Inv, CloseoutReady, CloseoutWords, Kept, ReviewStatus, ReportOnce, ExistingReport, SafeRef;
    var id := Strip(ticketId);
    var t := s.tickets[id];
    ProposeKeeps(s, ticketId, env);
    InvGood(s);
    ProposeCandidates(s, t, env);
    var (s1, kept) := ProposeFold(s, CloseoutCandidates(t, env));
    PresentIds(s1, t, kept);
    RefsPlain("asset-candidate:", Ids(kept));
    ReportedTicket(t, CLOSEOUT, IdRefs(Ids(kept)), SetOf(IdRefs(Ids(kept))), env);
  }

  // ---- approving ----

  /** The candidate under `k` after the review step of a settlement. */
  function AfterApproval(s: Stores, awaiting: seq<string>, req: SettleRequest, env: Env, k: string): Option<Candidate> {
    var found := Lookup(CandidateId, s.candidates, k);
    if req.approve && k in awaiting && found.Some? then
      Some(ReviewedCandidate(found.value, "approved", BatchItemRequest("approved", SettleReviewRequest(req)), env.now))
    else found
  }

  lemma ApprovedNormal()
    ensures NormalizeReviewStatus("approved") == Some("approved")
  {
    hide NormalizeReviewStatus;
    ReviewStatusNormal("approved");
  }

  lemma ReviewStatusNormal(s: string)
    requires ReviewStatus(s)
    ensures NormalizeReviewStatus(s) == Some(s)
  {
    hide Strip, Lower, DashToUnderscore;
    NotAlias(s);
    SmallLetters(s);
    SmallLettersNormal(s);
  }

  /** The review step never fails on candidates the registry holds; it approves exactly the ones that wait. */
  lemma ApprovalEffect(s: Stores, selected: seq<Candidate>, req: SettleRequest, env: Env)
    requires Inv(s)
    requires NoRepeats(Ids(Filter(AwaitingReview, selected)))
    requires forall k :: k in Ids(Filter(AwaitingReview, selected)) ==> PlainId(k)
    ensures var (t, review) := SettleApproval(s, selected, req, env);
            var awaiting := Ids(Filter(AwaitingReview, selected));
            && Inv(t) && review.Ok? && t.tickets == s.tickets && SameAttempts(s, t)
            && (forall k :: Lookup(CandidateId, t.candidates, k) == AfterApproval(s, awaiting, req, env, k))
            && (!req.approve || awaiting == [] ==> t == s)
  {
    hide Inv, Grows, NormalizeReviewStatus, ReviewedCandidate, BatchFold, AwaitingReview, Strip, Filter, Ids;
    var awaiting := Ids(Filter(AwaitingReview, selected));
    SettleApprovalKeeps(s, selected, req, env);
    SettleApprovalAttempts(s, selected, req, env);
    if req.approve && awaiting != [] {
      assert forall k :: k in awaiting ==> PlainId(k);
      UniqueIdsFixed(awaiting);
      ApprovedNormal();
      BatchFoldEffect(s, awaiting, BatchItemRequest("approved", SettleReviewRequest(req)), env.now);
    }
  }

  lemma IdsDistinct(cs: seq<Candidate>)
    ensures NoRepeats(Ids(cs)) <==> Distinct(CandidateId, cs)
    ensures forall k :: k in Ids(cs) <==> exists c :: c in cs && c.id == k
  {
    IdsAt(cs);
    if NoRepeats(Ids(cs)) {
      forall i, j | 0 <= i < j < |cs| ensures CandidateId(cs[i]) != CandidateId(cs[j]) {
        assert Ids(cs)[i] != Ids(cs)[j];
      }
    }
    if Distinct(CandidateId, cs) {
      forall i, j | 0 <= i < j < |cs| ensures Ids(cs)[i] != Ids(cs)[j] {
        assert CandidateId(cs[i]) != CandidateId(cs[j]);
      }
    }
    forall c | c in cs ensures c.id in Ids(cs) {
      var i :| 0 <= i < |cs| && cs[i] == c;
      assert Ids(cs)[i] == c.id;
    }
  }

  /** Ids of the candidates chosen by a predicate are ids of the list and stay distinct. */
  lemma FilterIds(p: Candidate -> bool, cs: seq<Candidate>)
    requires NoRepeats(Ids(cs))
    ensures NoRepeats(Ids(Filter(p, cs)))
    ensures forall k :: k in Ids(Filter(p, cs)) <==> exists c :: c in cs && p(c) && c.id == k
  {
    IdsDistinct(cs);
    FilterDistinct(CandidateId, p, cs);
    IdsDistinct(Filter(p, cs));
    forall c ensures c in Filter(p, cs) <==> c in cs && p(c) {
      FilterMember(p, cs, c);
    }
  }

  // ---- the first settlement ----

  function ApprovedIf(c: Candidate, awaiting: seq<string>, req: SettleRequest, env: Env): Candidate {
    if req.approve && c.id in awaiting then
      ReviewedCandidate(c, "approved", BatchItemRequest("approved", SettleReviewRequest(req)), env.now)
    else c
  }

  function ApprovedAll(cs: seq<Candidate>, awaiting: seq<string>, req: SettleRequest, env: Env): (r: seq<Candidate>)
    ensures |r| == |cs| && forall i :: 0 <= i < |cs| ==> r[i] == ApprovedIf(cs[i], awaiting, req, env)
  {
    seq(|cs|, i requires 0 <= i < |cs| => ApprovedIf(cs[i], awaiting, req, env))
  }

  function Awaiting(kept: seq<Candidate>, req: SettleRequest): seq<string> {
    Ids(Filter(AwaitingReview, SelectByType(kept, req.assetTypes)))
  }

  lemma ApprovedIfFacts(c: Candidate, assetType: string, awaiting: seq<string>, req: SettleRequest, env: Env)
    requires ReviewStatus(c.status) || Plain(c, assetType)
    ensures var d := ApprovedIf(c, awaiting, req, env);
            && Alike(c, d) && (ReviewStatus(d.status) || Plain(d, assetType))
            && (req.approve && (AwaitingReview(c) ==> c.id in awaiting) ==> !AwaitingReview(d))
  {
  }

  lemma AwaitingFacts(kept: seq<Candidate>, req: SettleRequest)
    requires NoRepeats(Ids(kept)) && forall k :: k in Ids(kept) ==> PlainId(k)
    ensures NoRepeats(Awaiting(kept, req)) && forall k :: k in Awaiting(kept, req) ==> PlainId(k)
    ensures forall c :: c in SelectByType(kept, req.assetTypes) && AwaitingReview(c) ==> c.id in Awaiting(kept, req)
  {
    hide AwaitingReview, Strip;
    FilterIds(OfType(RequestedTypes(req.assetTypes)), kept);
    IdsDistinct(kept);
    var selected := SelectByType(kept, req.assetTypes);
    FilterIds(AwaitingReview, selected);
    forall k | k in Awaiting(kept, req) ensures PlainId(k) {
      var c :| c in selected && AwaitingReview(c) && c.id == k;
      SelectMember(kept, req.assetTypes, c);
      assert k in Ids(kept);
    }
  }

  /** After the review step the closeout candidates are still present, count alike, and none of the selected
      ones waits any more. */
  lemma ApprovedPresent(s: Stores, t: Stores, ticket: Ticket, kept: seq<Candidate>, req: SettleRequest, env: Env)
    requires CloseoutPresent(s, ticket, kept)
    requires NoRepeats(Ids(kept)) && forall k :: k in Ids(kept) ==> PlainId(k)
    requires forall k :: Lookup(CandidateId, t.candidates, k) == AfterApproval(s, Awaiting(kept, req), req, env, k)
    ensures var cur := ApprovedAll(kept, Awaiting(kept, req), req, env);
            && CloseoutPresent(t, ticket, cur) && AllAlike(kept, cur)
            && (req.approve ==> forall c :: c in SelectByType(cur, req.assetTypes) ==> !AwaitingReview(c))
  {
    hide AwaitingReview, ReviewedCandidate, ReviewStatus, Plain, Awaiting, SelectByType, Strip, ApprovedIf;
    PresentIds(s, ticket, kept);
    AwaitingFacts(kept, req);
    var awaiting := Awaiting(kept, req);
    var cur := ApprovedAll(kept, awaiting, req, env);
    forall i | 0 <= i < |kept|
      ensures Lookup(CandidateId, t.candidates, TicketCandidateId(ticket, CloseoutWords(ticket)[i].0)) == Some(cur[i])
      ensures ReviewStatus(cur[i].status) || Plain(cur[i], CloseoutWords(ticket)[i].1)
      ensures Alike(kept[i], cur[i])
    {
      ApprovedLookup(s, awaiting, req, env, kept[i]);
      ApprovedIfFacts(kept[i], CloseoutWords(ticket)[i].1, awaiting, req, env);
    }
    if req.approve {
      forall c | c in SelectByType(cur, req.assetTypes) ensures !AwaitingReview(c) {
        SelectMember(cur, req.assetTypes, c);
        var i :| 0 <= i < |cur| && cur[i] == c;
        assert Alike(kept[i], cur[i]);
        SelectMember(kept, req.assetTypes, kept[i]);
        ApprovedIfFacts(kept[i], CloseoutWords(ticket)[i].1, awaiting, req, env);
      }
    }
  }

  lemma ApprovedLookup(s: Stores, awaiting: seq<string>, req: SettleRequest, env: Env, c: Candidate)
    requires Lookup(CandidateId, s.candidates, c.id) == Some(c)
    ensures AfterApproval(s, awaiting, req, env, c.id) == Some(ApprovedIf(c, awaiting, req, env))
  {
  }

  lemma TargetIdsPlain(s: Stores, req: SettleRequest, cur: seq<Candidate>)
    requires Inv(s)
    ensures forall k :: k in TargetIds(s, req, cur) ==> PlainId(k)
  {
    hide Strip;
    SettlementAssetIdsFacts(SettledCandidates(s, Ids(SelectByType(cur, req.assetTypes))), s.assets);
    forall k | k in TargetIds(s, req, cur) ensures PlainId(k) {
      var a :| a in s.assets && a.id == k;
      StripFacts(a.id);
    }
  }

  /** The closing report of a settlement. */
  lemma SettleReportEffect(s: Stores, id: string, req: SettleRequest, env: Env, p: ProposeResponse,
                           review: Option<BatchResponse>, ids: seq<string>, candidates: seq<Candidate>,
                           assetIds: seq<string>, projections: seq<SettledProjection>)
    requires id in s.tickets && CloseoutReady(s.tickets[id]) && ReportIdsOk(s.tickets[id].reports)
    requires forall k :: k in ids + assetIds ==> PlainId(k)
    ensures var (t, r) := SettleReport(s, id, req, env, p, review, ids, candidates, assetIds, projections);
            && r.Ok? && r.value.assetIds == assetIds && r.value.proposal == p && r.value.review == review
            && r.value.projections == projections
            && id in t.tickets && t == s.(tickets := s.tickets[id := t.tickets[id]])
            && CloseoutWords(t.tickets[id]) == CloseoutWords(s.tickets[id]) && t.tickets[id].id == s.tickets[id].id
            && CloseoutReady(t.tickets[id]) && ReportIdsOk(t.tickets[id].reports)
            && ExistingReport(t.tickets[id].reports, SETTLEMENT, SetOf(IdRefs(ids)) + SetOf(AssetRefs(assetIds))) != ""
            && (forall refs :: ExistingReport(t.tickets[id].reports, CLOSEOUT, refs)
                               == ExistingReport(s.tickets[id].reports, CLOSEOUT, refs))
  {
    hide ReportOnce, ExistingReport, CloseoutReady, CloseoutWords, Strip, SettlementStatus;
    assert forall k :: k in ids ==> k in ids + assetIds;
    assert forall k :: k in assetIds ==> k in ids + assetIds;
    RefsPlain("asset-candidate:", ids);
    RefsPlain("asset-registry:", assetIds);
    var refs := IdRefs(ids) + AssetRefs(assetIds) + EpisodeRefs(projections);
    ReportedTicket(s.tickets[id], SETTLEMENT, refs, SetOf(IdRefs(ids)) + SetOf(AssetRefs(assetIds)), env);
  }

  /** Whatever is settled after the reviews stays settled through projection and reporting. */
  lemma SettleProjectionsEffect(s: Stores, id: string, req: SettleRequest, env: Env, p: ProposeResponse,
                                review: Option<BatchResponse>, cur: seq<Candidate>)
    requires Inv(s) && id in s.tickets && CloseoutPresent(s, s.tickets[id], cur)
    requires CloseoutReady(s.tickets[id]) && ReportIdsOk(s.tickets[id].reports)
    requires ExistingReport(s.tickets[id].reports, CLOSEOUT, SetOf(IdRefs(Ids(cur)))) != ""
    requires req.approve ==> forall c :: c in SelectByType(cur, req.assetTypes) ==> !AwaitingReview(c)
    ensures var (t, r) := SettleProjections(s, id, req, env, p, review, Ids(SelectByType(cur, req.assetTypes)));
            && r.Ok? && r.value.assetIds == TargetIds(s, req, cur) == TargetIds(t, req, cur)
            && r.value.proposal == p && r.value.review == review
            && t == s.(assets := t.assets, audit := t.audit, attempts := t.attempts, tickets := t.tickets)
            && MarkedOnly(s.assets, t.assets) && SettledFor(t, id, req, cur)
  {
    hide Inv, ProjectFold, SettleReport, CloseoutReady, CloseoutWords, ExistingReport, ReviewStatus, Plain, AwaitingReview,
         Strip, SelectByType, Ids, AllCovered, SettlementAssetIds;
    var selected := SelectByType(cur, req.assetTypes);
    var ids := Ids(selected);
    var assetIds := TargetIds(s, req, cur);
    SettleProjectionsKeeps(s, id, req, env, p, review, ids);
    PresentIds(s, s.tickets[id], cur);
    SelectedIdsPlain(cur, req);
    TargetIdsPlain(s, req, cur);
    InvGood(s);
    ProjectFoldEffect(s, assetIds, req.projectRelationships, env);
    MarkedOnlySelf(s.assets);
    var (s1, projections) := if req.project then ProjectFold(s, assetIds, req.projectRelationships, env) else (s, []);
    SettleReportEffect(s1, id, req, env, p, review, ids, SettledCandidates(s, ids), assetIds, projections);
    var t := SettleReport(s1, id, req, env, p, review, ids, SettledCandidates(s, ids), assetIds, projections).0;
    SettlementAfterMarks(SettledCandidates(s, ids), s.assets, t.assets);
    assert CloseoutPresent(t, t.tickets[id], cur);
  }

  lemma SelectedIdsPlain(cur: seq<Candidate>, req: SettleRequest)
    requires NoRepeats(Ids(cur)) && forall k :: k in Ids(cur) ==> PlainId(k)
    ensures forall k :: k in Ids(SelectByType(cur, req.assetTypes)) ==> PlainId(k)
  {
    hide Strip;
    FilterIds(OfType(RequestedTypes(req.assetTypes)), cur);
    IdsDistinct(cur);
  }

  /** The candidates a first settlement leaves: what it proposed, approved where approval was due. */
  function LeftBy(s: Stores, ticketId: string, req: SettleRequest, env: Env): seq<Candidate> {
    var (_, proposal) := Propose(s, ticketId, env);
    if proposal.Ok? then ApprovedAll(proposal.value.candidates, Awaiting(proposal.value.candidates, req), req, env) else []
  }

  /** A closeout-ready Ticket is always settled without error, and the stores left behind are settled for the same
      request. */
  lemma FirstSettlement(s: Stores, ticketId: string, req: SettleRequest, env: Env)
    requires Inv(s) && Strip(ticketId) in s.tickets
    requires CloseoutReady(s.tickets[Strip(ticketId)]) && ReportIdsOk(s.tickets[Strip(ticketId)].reports)
    ensures var (t, r) := Settle(s, ticketId, req, env);
            var cur := LeftBy(s, ticketId, req, env);
            r.Ok? && r.value.assetIds == TargetIds(t, req, cur) && SettledFor(t, Strip(ticketId), req, cur)
  {
    hide Inv, Propose, SettleApproval, SettleProjections, CloseoutReady, CloseoutWords, ExistingReport, ReviewStatus, Plain,
         AwaitingReview, SelectByType, SettlementAssetIds, SettledFor, Awaiting, CloseoutPresent, ApprovedAll,
         AfterApproval, Strip;
    var id := Strip(ticketId);
    ProposeEffect(s, ticketId, env);
    var (s1, proposal) := Propose(s, ticketId, env);
    var kept := proposal.value.candidates;
    PresentIds(s1, s1.tickets[id], kept);
    AwaitingFacts(kept, req);
    FirstApproval(s1, kept, req, env);
    var selected := SelectByType(kept, req.assetTypes);
    var (s2, review) := SettleApproval(s1, selected, req, env);
    ApprovedPresent(s1, s2, s1.tickets[id], kept, req, env);
    var cur := ApprovedAll(kept, Awaiting(kept, req), req, env);
    AlikeIds(kept, cur);
    AlikeSelect(req.assetTypes, kept, cur);
    SettleProjectionsEffect(s2, id, req, env, proposal.value, review.value, cur);
  }

  lemma FirstApproval(s: Stores, kept: seq<Candidate>, req: SettleRequest, env: Env)
    requires Inv(s)
    requires NoRepeats(Awaiting(kept, req)) && forall k :: k in Awaiting(kept, req) ==> PlainId(k)
    ensures var (t, review) := SettleApproval(s, SelectByType(kept, req.assetTypes), req, env);
            && Inv(t) && review.Ok? && t.tickets == s.tickets && SameAttempts(s, t)
            && (forall k :: Lookup(CandidateId, t.candidates, k) == AfterApproval(s, Awaiting(kept, req), req, env, k))
            && (!req.approve || Awaiting(kept, req) == [] ==> t == s)
  {
    hide Inv, SettleApproval, AfterApproval, SelectByType, AwaitingReview, Strip;
    ApprovalEffect(s, SelectByType(kept, req.assetTypes), req, env);
  }

  // ---- settling settled stores ----

  /** In settled stores the proposal keeps candidates that count like the present ones. */
  lemma KeptAlike(s: Stores, t: Ticket, cur: seq<Candidate>, kept: seq<Candidate>, env: Env)
    requires CloseoutPresent(s, t, cur) && |kept| == |cur|
    requires forall i :: 0 <= i < |kept| ==> kept[i] == Kept(s, CloseoutCandidates(t, env)[i])
    ensures AllAlike(cur, kept)
    ensures forall i :: 0 <= i < |cur| ==> AwaitingReview(cur[i]) == AwaitingReview(kept[i])
    ensures DraftsUnsettled(s, CloseoutCandidates(t, env))
  {
    hide SafeRef, CloseoutWords;
    var drafts := CloseoutCandidates(t, env);
    forall i | 0 <= i < |cur|
      ensures Alike(cur[i], kept[i]) && AwaitingReview(cur[i]) == AwaitingReview(kept[i])
      ensures !Settled(drafts[i]) && (!AlreadyReviewed(s, drafts[i]) ==> !Settled(cur[i]))
      ensures Lookup(CandidateId, s.candidates, drafts[i].id) == Some(cur[i])
    {
      LookupMember(CandidateId, s.candidates, drafts[i].id);
      KeptLike(s, t, CloseoutWords(t)[i], cur[i], env);
    }
  }

  lemma KeptLike(s: Stores, t: Ticket, w: (string, string), c: Candidate, env: Env)
    requires Lookup(CandidateId, s.candidates, TicketCandidateId(t, w.0)) == Some(c)
    requires c.id == TicketCandidateId(t, w.0) && (ReviewStatus(c.status) || Plain(c, w.1))
    ensures var draft := Fresh(t, w.0, w.1, env);
            && Alike(c, Kept(s, draft)) && AwaitingReview(c) == AwaitingReview(Kept(s, draft))
            && !Settled(draft) && (!AlreadyReviewed(s, draft) ==> !Settled(c))
  {
  }

  lemma NoneAwaiting(cur: seq<Candidate>, kept: seq<Candidate>, req: SettleRequest)
    requires AllAlike(cur, kept)
    requires forall i :: 0 <= i < |cur| ==> AwaitingReview(cur[i]) == AwaitingReview(kept[i])
    requires forall c :: c in SelectByType(cur, req.assetTypes) ==> !AwaitingReview(c)
    ensures Awaiting(kept, req) == []
    ensures forall c :: c in SelectByType(kept, req.assetTypes) ==> !AwaitingReview(c)
  {
    hide AwaitingReview, Strip;
    var selected := SelectByType(kept, req.assetTypes);
    forall c | c in selected ensures !AwaitingReview(c) {
      SelectMember(kept, req.assetTypes, c);
      var i :| 0 <= i < |kept| && kept[i] == c;
      assert Alike(cur[i], kept[i]);
      SelectMember(cur, req.assetTypes, cur[i]);
      assert cur[i] in SelectByType(cur, req.assetTypes);
    }
    FilterAll(AwaitingReview, selected);
  }

  /** Proposing again in settled stores reports nothing and keeps the settled candidates. */
  lemma ProposeAgain(s: Stores, ticketId: string, req: SettleRequest, cur: seq<Candidate>, f: Env)
    requires SettledFor(s, Strip(ticketId), req, cur)
    ensures var (s1, result) := Propose(s, ticketId, f);
            && Inv(s1) && result.Ok? && s1 == s.(candidates := s1.candidates)
            && Filter(Settled, s1.candidates) == Filter(Settled, s.candidates)
            && var kept := result.value.candidates;
               && CloseoutPresent(s1, s.tickets[Strip(ticketId)], kept) && AllAlike(cur, kept)
               && (req.approve ==> Awaiting(kept, req) == []
                                   && forall c :: c in SelectByType(kept, req.assetTypes) ==> !AwaitingReview(c))
  {
    hide Inv, CloseoutReady, CloseoutWords, Kept, AlreadyReviewed, ReviewStatus, ReportOnce, ExistingReport, SafeRef, Settled, Plain,
         AwaitingReview, SelectByType, AllCovered, SettledRefs, Awaiting, Filter;
    var id := Strip(ticketId);
    var t := s.tickets[id];
    ProposeKeeps(s, ticketId, f);
    InvGood(s);
    ProposeCandidates(s, t, f);
    var (s1, kept) := ProposeFold(s, CloseoutCandidates(t, f));
    KeptAlike(s, t, cur, kept, f);
    DraftsDistinct(t, f);
    ProposeFoldSettled(s, CloseoutCandidates(t, f));
    AlikeIds(cur, kept);
    ReportOnceFixed(t, CLOSEOUT, SetOf(IdRefs(Ids(kept))), IdRefs(Ids(kept)), f);
    assert s1.tickets[id := t] == s1.tickets;
    if req.approve {
      NoneAwaiting(cur, kept, req);
    }
  }

  /** With everything reported, projecting and reporting again keeps the records up to their marks; it asks Graphiti
      nothing exactly when the targets are quiet, and then adds no report. */
  lemma SettleProjectionsAgain(s: Stores, id: string, req: SettleRequest, env: Env, p: ProposeResponse,
                               review: Option<BatchResponse>, cur: seq<Candidate>)
    requires Inv(s) && id in s.tickets
    requires ExistingReport(s.tickets[id].reports, SETTLEMENT, SettledRefs(s, req, cur)) != ""
    ensures var (t, r) := SettleProjections(s, id, req, env, p, review, Ids(SelectByType(cur, req.assetTypes)));
            var quiet := QuietFor(s, req, TargetIds(s, req, cur), env);
            && t.reviews == s.reviews && s.attempts <= t.attempts && (t.attempts == s.attempts <==> quiet)
            && (quiet ==> t.audit == s.audit && t.tickets == s.tickets && (r.Ok? ==> EpisodeRefs(r.value.projections) == []))
  {
    InvGood(s);
    AuditBounded(s);
    hide Inv, ProjectFold, ExistingReport, AllQuiet, SettlementAssetIds, SelectByType, SettledCandidates, RecordsOk,
         MarkedOnly, SettleReport;
    var ids := Ids(SelectByType(cur, req.assetTypes));
    var assetIds := TargetIds(s, req, cur);
    ProjectFoldEffect(s, assetIds, req.projectRelationships, env);
    ProjectFoldQuiet(s, assetIds, req.projectRelationships, env);
    var (s1, projections) := if req.project then ProjectFold(s, assetIds, req.projectRelationships, env) else (s, []);
    SettleReportAgain(s1, id, req, env, p, review, ids, SettledCandidates(s, ids), assetIds, projections);
  }

  /** The closing report changes Tickets only, and is not added again when one covers it and nothing was ingested. */
  lemma SettleReportAgain(s: Stores, id: string, req: SettleRequest, env: Env, p: ProposeResponse,
                          review: Option<BatchResponse>, ids: seq<string>, candidates: seq<Candidate>,
                          assetIds: seq<string>, projections: seq<SettledProjection>)
    requires id in s.tickets
    requires ExistingReport(s.tickets[id].reports, SETTLEMENT, SetOf(IdRefs(ids)) + SetOf(AssetRefs(assetIds))) != ""
    ensures var (t, r) := SettleReport(s, id, req, env, p, review, ids, candidates, assetIds, projections);
            && t == s.(tickets := t.tickets) && r.Ok? && r.value.projections == projections
            && (EpisodeRefs(projections) == [] ==> t == s)
  {
    hide ExistingReport, SettlementStatus, Filter;
    if EpisodeRefs(projections) == [] {
      var refs := IdRefs(ids) + AssetRefs(assetIds) + EpisodeRefs(projections);
      assert SetOf(refs) == SetOf(IdRefs(ids)) + SetOf(AssetRefs(assetIds));
      ReportOnceFixed(s.tickets[id], SETTLEMENT, SetOf(refs), refs, env);
      assert s.tickets[id := s.tickets[id]] == s.tickets;
    }
  }

  /** The state after one more settlement of settled stores. */
  ghost predicate Repeated(s: Stores, t: Stores, quiet: bool) {
    && t.reviews == s.reviews && MarkedOnly(s.assets, t.assets) && s.attempts <= t.attempts
    && (t.attempts == s.attempts <==> quiet) && (quiet ==> t.audit == s.audit && t.tickets == s.tickets)
  }

  /** Settling settled stores again, with the same request and at any later time: never a review, the same records up
      to their marks, and settled stores again; no attempt and no report exactly when, or whenever, the targets are
      quiet. */
  lemma SettleAgain(s: Stores, ticketId: string, req: SettleRequest, cur: seq<Candidate>, f: Env)
    requires SettledFor(s, Strip(ticketId), req, cur)
    ensures var (t, r) := Settle(s, ticketId, req, f);
            && r.Ok? && r.value.assetIds == TargetIds(s, req, cur)
            && (r.value.review.Some? ==> r.value.review.value.reviewed == 0 && r.value.review.value.status == "skipped")
            && Repeated(s, t, QuietFor(s, req, TargetIds(s, req, cur), f))
            && (t.attempts == s.attempts ==> EpisodeRefs(r.value.projections) == [])
            && SettledFor(t, Strip(ticketId), req, r.value.proposal.candidates)
            && TargetIds(t, req, r.value.proposal.candidates) == TargetIds(s, req, cur)
  {
    hide Inv, Propose, SettleProjections, CloseoutReady, CloseoutWords, ExistingReport, ReviewStatus, Plain,
         AwaitingReview, SelectByType, AllQuiet, SettlementAssetIds, CloseoutPresent, Filter, BatchReview, SettledCandidates;
    var id := Strip(ticketId);
    ProposeAgain(s, ticketId, req, cur, f);
    var (s1, proposal) := Propose(s, ticketId, f);
    var kept := proposal.value.candidates;
    var selected := SelectByType(kept, req.assetTypes);
    var (s2, review) := SettleApproval(s1, selected, req, f);
    assert s2 == s1 && review.Ok?;
    AlikeIds(cur, kept);
    AlikeSelect(req.assetTypes, cur, kept);
    SameSettled(s, s1, Ids(selected), s.assets);
    InvGood(s1);
    assert TargetIds(s1, req, kept) == TargetIds(s, req, cur);
    SettleProjectionsEffect(s1, id, req, f, proposal.value, review.value, kept);
    SettleProjectionsAgain(s1, id, req, f, proposal.value, review.value, kept);
  }

  // ---- main result ----

  /** One settlement of the Ticket. */
  function SettleStep(ticketId: string, req: SettleRequest): (Stores, Env) -> Stores {
    (s: Stores, env: Env) => Settle(s, ticketId, req, env).0
  }

  /** The targets are quiet for every one of the later calls. */
  ghost predicate AlwaysQuiet(s: Stores, req: SettleRequest, ids: seq<string>, later: seq<Env>) {
    forall i :: 0 <= i < |later| ==> QuietFor(s, req, ids, later[i])
  }

  lemma {:induction false} SettleMany(s: Stores, ticketId: string, req: SettleRequest, cur: seq<Candidate>, later: seq<Env>)
    returns (last: seq<Candidate>)
    requires SettledFor(s, Strip(ticketId), req, cur)
    ensures var t := Fold(SettleStep(ticketId, req), s, later);
            && Repeated(s, t, AlwaysQuiet(s, req, TargetIds(s, req, cur), later))
            && SettledFor(t, Strip(ticketId), req, last) && TargetIds(t, req, last) == TargetIds(s, req, cur)
  {
    hide SettledFor, Settle, MarkedOnly, TargetIds, QuietFor;
    last := cur;
    if later == [] {
      MarkedOnlySelf(s.assets);
    } else {
      var n := |later| - 1;
      var before := SettleMany(s, ticketId, req, cur, later[..n]);
      var t := Fold(SettleStep(ticketId, req), s, later[..n]);
      SettleAgain(t, ticketId, req, before, later[n]);
      var (u, r) := Settle(t, ticketId, req, later[n]);
      MarkedOnlyTransitive(s.assets, t.assets, u.assets);
      last := r.value.proposal.candidates;
      QuietForAgain(s, t, req, TargetIds(s, req, cur), later[n]);
      assert forall i :: 0 <= i < n ==> later[..n][i] == later[i];
    }
  }

  lemma QuietForAgain(s: Stores, t: Stores, req: SettleRequest, ids: seq<string>, env: Env)
    requires MarkedOnly(s.assets, t.assets)
    ensures t.audit == s.audit ==> (QuietFor(t, req, ids, env) <==> QuietFor(s, req, ids, env))
  {
    hide MarkedOnly, AllQuiet;
    AllQuietAfterMarks(s.audit, s.assets, t.assets, ids, req.projectRelationships, env);
  }

  /** Exactly when settlement converges. Settle a closeout-ready Ticket once, then any number of times more with the
      same request. No repetition ever adds a review, or changes a record but for its marks. The repetitions leave the
      ingestion attempts alone if and only if every one of them finds the records the first call named quiet, in the
      stores the first call left; and then they leave the audit and the Tickets' reports alone too. */
  lemma {:induction false} SettlementConverges(s: Stores, ticketId: string, req: SettleRequest, first: Env, later: seq<Env>)
    requires Inv(s) && Strip(ticketId) in s.tickets
    requires CloseoutReady(s.tickets[Strip(ticketId)]) && ReportIdsOk(s.tickets[Strip(ticketId)].reports)
    ensures var (t, r) := Settle(s, ticketId, req, first);
            var u := Fold(SettleStep(ticketId, req), t, later);
            && r.Ok? && u.reviews == t.reviews && MarkedOnly(t.assets, u.assets) && t.attempts <= u.attempts
            && (u.attempts == t.attempts <==>
                  req.project ==> forall i :: 0 <= i < |later| ==>
                    AllQuiet(t.audit, t.assets, r.value.assetIds, req.projectRelationships, later[i]))
            && (u.attempts == t.attempts ==> u.audit == t.audit && u.tickets == t.tickets)
  {
    hide Inv, Settle, SettledFor, AllQuiet, MarkedOnly, CloseoutReady, Strip, TargetIds;
    FirstSettlement(s, ticketId, req, first);
    var t := Settle(s, ticketId, req, first).0;
    var last := SettleMany(t, ticketId, req, LeftBy(s, ticketId, req, first), later);
  }

  /** The same for one repetition, which never fails. */
  lemma {:induction false} RepeatedOnce(s: Stores, ticketId: string, req: SettleRequest, first: Env, second: Env)
    requires Inv(s) && Strip(ticketId) in s.tickets
    requires CloseoutReady(s.tickets[Strip(ticketId)]) && ReportIdsOk(s.tickets[Strip(ticketId)].reports)
    ensures var (t, r) := Settle(s, ticketId, req, first);
            var (u, again) := Settle(t, ticketId, req, second);
            && r.Ok? && again.Ok? && again.value.assetIds == r.value.assetIds
            && u.reviews == t.reviews && MarkedOnly(t.assets, u.assets)
            && (u.attempts == t.attempts <==>
                  req.project ==> AllQuiet(t.audit, t.assets, r.value.assetIds, req.projectRelationships, second))
            && (u.attempts == t.attempts ==> u.audit == t.audit && u.tickets == t.tickets)
  {
    hide Inv, Settle, SettledFor, AllQuiet, MarkedOnly, CloseoutReady, Strip, TargetIds;
    FirstSettlement(s, ticketId, req, first);
    SettleAgain(Settle(s, ticketId, req, first).0, ticketId, req, LeftBy(s, ticketId, req, first), second);
  }
}
