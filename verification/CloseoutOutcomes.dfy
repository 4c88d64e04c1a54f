/** What closing out a Ticket proposes, settles and reports, told without the code that does it. */
module CloseoutOutcomes {
  import opened Text
  import opened StableSort
  import opened Keyed
  import opened RegistryModel
  import opened RegistryInvariants
  import opened Projection
  import opened BatchReviews
  import opened Settlement
  import opened Convergence
  import opened Targets

  // ---- what is proposed ----

  ghost predicate HasReportOf(t: Ticket, types: set<string>) {
    exists r :: r in t.reports && Lower(Strip(r.reportType)) in types
  }

  const VALIDATIONS := {"validation", "validated", "validation_passed", "pv_validation"}
  const SOLUTIONS := {"result", "done", "completed", "external_runtime_report", "external_runtime_repo_mutation"}

  /** A Ticket may be closed out when its status says so or a report validates it. */
  lemma ReadyExactly(t: Ticket)
    ensures CloseoutReady(t) <==>
            Lower(Strip(t.status)) in {"validated", "completed", "done", "closed"} || HasReportOf(t, VALIDATIONS)
  {
    hide Strip, Lower;
    assert forall r :: ValidationType(ReportType(r)) <==> Lower(Strip(r.reportType)) in VALIDATIONS;
  }

  /** A candidate as it is generated for a Ticket: waiting for review, without a source of its own. */
  ghost predicate Generated(c: Candidate, t: Ticket, word: string, assetType: string, env: Env) {
    var d, ref := env.draft(t, word), SafeRef(Strip(t.id));
    && c.id == "asset-candidate-ticket-" + word + "-" + ref && c.assetId == "ticket-" + word + "-" + ref
    && c.sourceCandidateId == "" && c.assetType == assetType && c.status == "proposed" && c.reviewState == "proposed"
    && c.descriptor == d.descriptor && c.contentRef == d.contentRef && c.provenance == d.provenance
    && c.relationships == d.relationships && c.usefulness == map[] && c.createdAt == env.now && c.updatedAt == env.now
  }

  lemma FreshIsGenerated(t: Ticket, word: string, assetType: string, env: Env)
    ensures Generated(Fresh(t, word, assetType, env), t, word, assetType, env)
  {
    hide Strip, SafeRef;
  }

  /** A closeout candidate always; a solution when a report brings one; a validation result when a report validates. */
  lemma ProposesExactly(t: Ticket, env: Env)
    ensures var cs := CloseoutCandidates(t, env);
            var solved, validated := HasReportOf(t, SOLUTIONS), HasReportOf(t, VALIDATIONS);
            && |cs| == 1 + (if solved then 1 else 0) + (if validated then 1 else 0)
            && Generated(cs[0], t, "closeout", "ticket_closeout", env)
            && (solved ==> Generated(cs[1], t, "solution", "solution", env))
            && (validated ==> Generated(cs[|cs| - 1], t, "validation", "validation_result", env))
  {
    FreshIsGenerated(t, "closeout", "ticket_closeout", env);
    FreshIsGenerated(t, "solution", "solution", env);
    FreshIsGenerated(t, "validation", "validation_result", env);
    hide Strip, Lower, Fresh, Generated;
    assert forall r :: ValidationType(ReportType(r)) <==> Lower(Strip(r.reportType)) in VALIDATIONS;
    assert forall r :: SolutionType(ReportType(r)) <==> Lower(Strip(r.reportType)) in SOLUTIONS;
    var words := CloseoutWords(t);
    assert HasSolution(t.reports) <==> HasReportOf(t, SOLUTIONS);
    assert HasValidation(t.reports) <==> HasReportOf(t, VALIDATIONS);
  }

  /** What becomes of a generated candidate: a reviewed one of the same id is kept, any other gives way to it. */
  lemma KeptExactly(s: Stores, draft: Candidate)
    ensures var found := Lookup(CandidateId, s.candidates, draft.id);
            Kept(s, draft) == if found.Some? && found.value.status in {"approved", "rejected", "merged", "linked"} then found.value
                              else draft
  {
    hide Lookup;
  }

  // ---- reporting once ----

  /** The report is of the type, whatever its case, and its evidence has every one of `refs`. */
  ghost predicate Covers(r: Report, reportType: string, refs: set<string>) {
    Lower(Strip(r.reportType)) == reportType && forall ref :: ref in refs ==> exists e :: e in r.evidence && Strip(e) == ref
  }

  ghost predicate LatestCovering(reports: seq<Report>, i: int, reportType: string, refs: set<string>) {
    && 0 <= i < |reports| && Covers(reports[i], reportType, refs)
    && forall j :: i < j < |reports| ==> !Covers(reports[j], reportType, refs)
  }

  lemma CoversExactly(r: Report, reportType: string, refs: set<string>)
    requires "" !in refs
    ensures ReportType(r) == reportType && refs <= EvidenceSet(r.evidence) <==> Covers(r, reportType, refs)
  {
    hide Strip, Lower;
  }

  lemma {:induction false} ReportFound(reports: seq<Report>, reportType: string, refs: set<string>)
    requires "" !in refs
    ensures (forall i :: 0 <= i < |reports| ==> !Covers(reports[i], reportType, refs)) ==>
              ExistingReport(reports, reportType, refs) == ""
    ensures forall i :: 0 <= i < |reports| && LatestCovering(reports, i, reportType, refs) ==>
              ExistingReport(reports, reportType, refs) == Strip(reports[i].id)
  {
    hide Strip, Covers, ReportType, EvidenceSet;
    if reports != [] {
      var n := |reports| - 1;
      CoversExactly(reports[n], reportType, refs);
      ReportFound(reports[..n], reportType, refs);
      forall i | 0 <= i < |reports| && LatestCovering(reports, i, reportType, refs)
        ensures ExistingReport(reports, reportType, refs) == Strip(reports[i].id)
      {
        if i < n {
          assert LatestCovering(reports[..n], i, reportType, refs);
        }
      }
    }
  }

  /** The texts without the blanks around them. */
  ghost predicate EachStripped(texts: seq<string>, r: seq<string>) {
    |r| == |texts| && forall i :: 0 <= i < |r| ==> r[i] == Strip(texts[i])
  }

  lemma {:induction false} StripAllEach(evidence: seq<string>)
    requires forall i :: 0 <= i < |evidence| ==> Strip(evidence[i]) != ""
    ensures EachStripped(evidence, StripAll(evidence))
  {
    hide Strip;
    if evidence != [] {
      var rest := evidence[1..];
      assert forall i :: 0 <= i < |rest| ==> rest[i] == evidence[i + 1];
      StripAllEach(rest);
      assert StripAll(evidence) == [Strip(evidence[0])] + StripAll(rest);
    }
  }

  lemma {:induction false} BlankEvidenceDropped(evidence: seq<string>)
    ensures "" !in StripAll(evidence)
  {
    hide Strip;
    if evidence != [] {
      BlankEvidenceDropped(evidence[1..]);
    }
  }

  /** Reporting adds a report of the type with that evidence, unless one that covers it is there. The id of the report is
      found again unless blanks around the evidence were lost. */
  ghost predicate ReportedOnce(t: Ticket, u: Ticket, reportType: string, evidence: seq<string>, reportId: string) {
    var refs := SetOf(evidence);
    if exists k :: 0 <= k < |t.reports| && Covers(t.reports[k], reportType, refs)
    then
      && u == t
      && exists i :: LatestCovering(t.reports, i, reportType, refs) && 0 <= i < |t.reports| && reportId == Strip(t.reports[i].id)
    else exists r: Report, token: string ::
      && r.id == "report-" + token && u == t.(reports := t.reports + [r]) && r.reportType == reportType
      && EachStripped(evidence, r.evidence)
      && reportId == if forall e :: e in evidence ==> Strip(e) == e then Strip(r.id) else ""
  }

  lemma {:induction false} SomeCovering(reports: seq<Report>, reportType: string, refs: set<string>) returns (i: nat)
    requires exists k :: 0 <= k < |reports| && Covers(reports[k], reportType, refs)
    ensures i < |reports| && LatestCovering(reports, i, reportType, refs)
  {
    hide Covers;
    var n := |reports| - 1;
    if Covers(reports[n], reportType, refs) {
      i := n;
    } else {
      var k :| 0 <= k < |reports| && Covers(reports[k], reportType, refs);
      assert reports[..n][k] == reports[k];
      i := SomeCovering(reports[..n], reportType, refs);
      assert forall j :: i < j < n ==> reports[j] == reports[..n][j];
    }
  }

  lemma ReportIsOnce(t: Ticket, reportType: string, evidence: seq<string>, env: Env)
    requires ReportIdsOk(t.reports) && NormalType(reportType) && forall i :: 0 <= i < |evidence| ==> Strip(evidence[i]) != ""
    ensures var (u, reportId, added) := ReportOnce(t, reportType, SetOf(evidence), evidence, env);
            ReportedOnce(t, u, reportType, evidence, reportId) && (added <==> u.reports != t.reports)
  {
    EmptyStrips();
    hide Strip, Lower, Covers, ExistingReport, LatestCovering, EachStripped, StripAll;
    var refs := SetOf(evidence);
    assert "" !in refs;
    ReportFound(t.reports, reportType, refs);
    if exists k :: 0 <= k < |t.reports| && Covers(t.reports[k], reportType, refs) {
      var i := SomeCovering(t.reports, reportType, refs);
      assert t.reports[i] in t.reports;
    } else {
      StripAllEach(evidence);
      var token := env.reportToken(t.id, |t.reports|);
      var r := Report("report-" + token, reportType, StripAll(evidence));
      var u := t.(reports := t.reports + [r]);
      ReportFound(u.reports, reportType, refs);
      NewCovers(t.reports, r, reportType, evidence);
      assert ReportOnce(t, reportType, refs, evidence, env).0 == u;
    }
  }

  lemma EmptyStrips()
    ensures Strip("") == ""
  {
  }

  /** The added report covers the evidence exactly when no blanks were lost. */
  lemma NewCovers(reports: seq<Report>, r: Report, reportType: string, evidence: seq<string>)
    requires r.reportType == reportType && NormalType(reportType) && EachStripped(evidence, r.evidence)
    requires forall k :: 0 <= k < |reports| ==> !Covers(reports[k], reportType, SetOf(evidence))
    ensures var all, refs := reports + [r], SetOf(evidence);
            if forall e :: e in evidence ==> Strip(e) == e
            then LatestCovering(all, |reports|, reportType, refs)
            else forall k :: 0 <= k < |all| ==> !Covers(all[k], reportType, refs)
  {
    var all, refs := reports + [r], SetOf(evidence);
    forall i | 0 <= i < |evidence| ensures Strip(r.evidence[i]) == r.evidence[i] {
      StripTwice(evidence[i]);
    }
    hide Strip, Lower;
    if forall e :: e in evidence ==> Strip(e) == e {
      forall ref | ref in refs ensures exists e :: e in r.evidence && Strip(e) == ref {
        var i :| 0 <= i < |evidence| && evidence[i] == ref;
        assert r.evidence[i] in r.evidence;
      }
      assert Covers(r, reportType, refs);
    } else {
      var ref :| ref in evidence && Strip(ref) != ref;
      assert ref in refs;
      if Covers(r, reportType, refs) {
        var e :| e in r.evidence && Strip(e) == ref;
        StripTwice(e);
      }
      hide Covers;
      assert forall k :: 0 <= k < |reports| ==> all[k] == reports[k];
    }
  }

  // ---- proposing ----

  /** `r` lists the ids behind the prefix, in order. */
  ghost predicate ListsBehind(prefix: string, ids: seq<string>, r: seq<string>) {
    |r| == |ids| && forall i :: 0 <= i < |r| ==> r[i] == prefix + ids[i]
  }

  lemma {:induction false} RefsListed(prefix: string, ids: seq<string>)
    ensures ListsBehind(prefix, ids, Refs(prefix, ids))
  {
    if ids != [] {
      RefsListed(prefix, ids[..|ids| - 1]);
    }
  }

  lemma PrefixNotBlank(prefix: string, rest: string)
    requires prefix != "" && !IsSpace(prefix[0])
    ensures Strip(prefix + rest) != ""
  {
    var s := prefix + rest;
    DropLeftFacts(IsSpace, s);
    assert DropLeft(IsSpace, s) == s;
    if Strip(s) == "" {
      AllSpacesRight(s);
      assert false;
    }
  }

  /** The candidate ids in the order of the candidates. */
  function IdsOf(cs: seq<Candidate>): (r: seq<string>)
    ensures |r| == |cs| && forall i :: 0 <= i < |r| ==> r[i] == cs[i].id
  {
    seq(|cs|, i requires 0 <= i < |cs| => cs[i].id)
  }

  lemma IdsAreIdsOf(cs: seq<Candidate>)
    ensures Ids(cs) == IdsOf(cs)
  {
    IdsAt(cs);
  }

  /** Each generated candidate is saved unless a reviewed one is kept in its place, and no other candidate changes. */
  ghost predicate CandidatesProposed(s: Stores, t: Stores, drafts: seq<Candidate>, cs: seq<Candidate>) {
    && |cs| == |drafts| && (forall i :: 0 <= i < |cs| ==> cs[i] == Kept(s, drafts[i]) && cs[i].id == drafts[i].id)
    && (forall i :: 0 <= i < |cs| ==> Lookup(CandidateId, t.candidates, cs[i].id) == Some(cs[i]))
    && (forall k :: k !in IdsOf(cs) ==> Lookup(CandidateId, t.candidates, k) == Lookup(CandidateId, s.candidates, k))
  }

  /** The Ticket reports the candidates once; the proposal is "skipped" when all were there and reported. */
  ghost predicate ProposalReported(s: Stores, ticket: Ticket, u: Ticket, out: ProposeResponse) {
    exists evidence ::
      && ListsBehind("asset-candidate:", IdsOf(out.candidates), evidence)
      && ReportedOnce(ticket, u, "ticket_closeout_candidates", evidence, out.reportId)
      && out.status == if u == ticket && AllKnown(s, out.candidates) then "skipped" else "proposed"
  }

  ghost predicate AllKnown(s: Stores, cs: seq<Candidate>) { forall i :: 0 <= i < |cs| ==> Has(CandidateId, s.candidates, cs[i].id) }

  ghost predicate Proposed(s: Stores, t: Stores, id: string, out: ProposeResponse, env: Env)
    requires id in s.tickets
  {
    && id in t.tickets && t == s.(candidates := t.candidates, tickets := s.tickets[id := t.tickets[id]])
    && CandidatesProposed(s, t, CloseoutCandidates(s.tickets[id], env), out.candidates)
    && ProposalReported(s, s.tickets[id], t.tickets[id], out)
  }

  lemma KeptId(s: Stores, draft: Candidate)
    ensures Kept(s, draft).id == draft.id
  {
    LookupMember(CandidateId, s.candidates, draft.id);
    hide ReviewStatus;
  }

  lemma FoldProposes(s: Stores, drafts: seq<Candidate>)
    requires Good(CandidateId, CandidateTime, s.candidates) && DistinctDrafts(drafts)
    ensures var (t, cs) := ProposeFold(s, drafts); CandidatesProposed(s, t, drafts, cs) && t == s.(candidates := t.candidates)
  {
    hide Kept, Lookup, DistinctDrafts, Good;
    ProposeFoldEffect(s, drafts);
    ProposeFoldAttempts(s, drafts);
    var cs := ProposeFold(s, drafts).1;
    forall i | 0 <= i < |cs| ensures cs[i].id == drafts[i].id {
      KeptId(s, drafts[i]);
    }
    SameHas(drafts, cs);
  }

  lemma CandidatesReported(s: Stores, ticket: Ticket, cs: seq<Candidate>, env: Env)
    requires ReportIdsOk(ticket.reports)
    ensures var refs := IdRefs(Ids(cs));
            var (u, reportId, added) := ReportOnce(ticket, "ticket_closeout_candidates", SetOf(refs), refs, env);
            var there := forall c :: c in cs ==> Lookup(CandidateId, s.candidates, c.id).Some?;
            ProposalReported(s, ticket, u, ProposeResponse(if there && !added then "skipped" else "proposed", cs, reportId))
  {
    hide Strip, ReportedOnce, ReportIdsOk, Ids, Lookup, ReportOnce, SetOf;
    IdsAreIdsOf(cs);
    var refs := IdRefs(Ids(cs));
    RefsListed("asset-candidate:", Ids(cs));
    forall i | 0 <= i < |refs| ensures Strip(refs[i]) != "" {
      PrefixNotBlank("asset-candidate:", Ids(cs)[i]);
    }
    TypesNormal();
    ReportIsOnce(ticket, CLOSEOUT, refs, env);
    ReportAddsOnly(ticket, CLOSEOUT, SetOf(refs), refs, env);
    AllThere(s, cs);
  }

  /** A proposal fails for an unknown Ticket and for one that is not ready, and then changes nothing. */
  lemma ProposeOutcome(s: Stores, ticketId: string, env: Env)
    requires Inv(s) && forall k :: k in s.tickets ==> ReportIdsOk(s.tickets[k].reports)
    ensures var (t, out) := Propose(s, ticketId, env);
            var id := Strip(ticketId);
            if id !in s.tickets then out == KeyError(id) && t == s
            else if !CloseoutReady(s.tickets[id]) then out == ValueError && t == s
            else out.Ok? && Proposed(s, t, id, out.value, env)
  {
    hide Inv, CloseoutReady, Strip, ReportIdsOk, CloseoutCandidates, Ids, Lookup, ReportOnce, ProposeFold, IdRefs, SetOf, Proposed;
    var id := Strip(ticketId);
    if id in s.tickets && CloseoutReady(s.tickets[id]) {
      ReadyProposes(s, ticketId, env);
    }
  }

  lemma ReadyProposes(s: Stores, ticketId: string, env: Env)
    requires Inv(s) && Strip(ticketId) in s.tickets
    requires CloseoutReady(s.tickets[Strip(ticketId)]) && ReportIdsOk(s.tickets[Strip(ticketId)].reports)
    ensures var (t, out) := Propose(s, ticketId, env);
            out.Ok? && Proposed(s, t, Strip(ticketId), out.value, env)
  {
    InvGood(s);
    hide Inv, CloseoutReady, Strip, ReportIdsOk, CloseoutCandidates, Ids, Lookup, DistinctDrafts, ReportOnce, ProposeFold, Good,
         CandidatesProposed, ProposalReported, IdRefs, SetOf, Proposed;
    var ticket := s.tickets[Strip(ticketId)];
    DraftsDistinct(ticket, env);
    FoldProposes(s, CloseoutCandidates(ticket, env));
    var (s1, cs) := ProposeFold(s, CloseoutCandidates(ticket, env));
    CandidatesReported(s, ticket, cs, env);
    var refs := IdRefs(Ids(cs));
    var (u, reportId, added) := ReportOnce(ticket, "ticket_closeout_candidates", SetOf(refs), refs, env);
    ProposedOf(s, s1, Strip(ticketId), u, Propose(s, ticketId, env).1.value, env);
  }

  lemma ProposedOf(s: Stores, s1: Stores, id: string, u: Ticket, out: ProposeResponse, env: Env)
    requires id in s.tickets && s1 == s.(candidates := s1.candidates)
    requires CandidatesProposed(s, s1, CloseoutCandidates(s.tickets[id], env), out.candidates)
    requires ProposalReported(s, s.tickets[id], u, out)
    ensures Proposed(s, s1.(tickets := s1.tickets[id := u]), id, out, env)
  {
    hide CloseoutCandidates, CandidatesProposed, ProposalReported;
    SameProposed(s, s1, s1.(tickets := s1.tickets[id := u]), CloseoutCandidates(s.tickets[id], env), out.candidates);
  }

  lemma SameProposed(s: Stores, t: Stores, u: Stores, drafts: seq<Candidate>, cs: seq<Candidate>)
    requires CandidatesProposed(s, t, drafts, cs) && u.candidates == t.candidates
    ensures CandidatesProposed(s, u, drafts, cs)
  {
  }

  lemma AllThere(s: Stores, cs: seq<Candidate>)
    ensures (forall c :: c in cs ==> Lookup(CandidateId, s.candidates, c.id).Some?) <==> AllKnown(s, cs)
  {
    forall k ensures Lookup(CandidateId, s.candidates, k).Some? <==> Has(CandidateId, s.candidates, k) {
      LookupMember(CandidateId, s.candidates, k);
    }
    hide Lookup, Has;
  }

  lemma SameHas(drafts: seq<Candidate>, cs: seq<Candidate>)
    requires |cs| == |drafts| && forall i :: 0 <= i < |cs| ==> cs[i].id == drafts[i].id
    ensures forall k :: k in IdsOf(cs) <==> Has(CandidateId, drafts, k)
  {
    forall k ensures k in IdsOf(cs) <==> Has(CandidateId, drafts, k) {
      if k in IdsOf(cs) {
        var i :| 0 <= i < |cs| && IdsOf(cs)[i] == k;
        assert CandidateId(drafts[i]) == k;
      }
      if i :| 0 <= i < |drafts| && CandidateId(drafts[i]) == k {
        assert IdsOf(cs)[i] == k;
      }
    }
  }

  lemma ReportAddsOnly(t: Ticket, reportType: string, refs: set<string>, evidence: seq<string>, env: Env)
    ensures var (u, _, added) := ReportOnce(t, reportType, refs, evidence, env);
            u == t.(reports := u.reports) && (!added ==> u == t) && (added ==> u != t)
  {
    hide ExistingReport;
    var (u, _, added) := ReportOnce(t, reportType, refs, evidence, env);
    assert added ==> |u.reports| == |t.reports| + 1;
  }

  // ---- settling ----

  /** What a settlement says of one record: blocked when it was not projected, partly when its relationships were not,
      and otherwise what the projection says. */
  ghost predicate SaysOf(p: SettledProjection, id: string, projected: Result<RegistryModel.Projection>, related: Result<string>,
                         relationships: bool)
  {
    && p.assetId == id && (p.projection.Some? <==> projected.Ok?) && (projected.Ok? ==> p.projection == Some(projected.value))
    && (p.error <==> !projected.Ok? || (relationships && !related.Ok?))
    && p.status == (if !projected.Ok? then "blocked" else if p.error then "partial_blocked" else projected.value.status)
  }

  lemma OneSettled(s: Stores, id: string, relationships: bool, env: Env)
    ensures var (t, p) := ProjectSettled(s, id, relationships, env);
            var (s1, projected) := ProjectAsset(s, id, env);
            var (s2, related) := ProjectRelationships(s1, id, env);
            && SaysOf(p, id, projected, related, relationships)
            && t == if projected.Ok? && relationships then s2 else s1
  {
    hide ProjectAsset, ProjectRelationships;
  }

  /** One answer for each record, in order, each from the stores the one before it left. */
  lemma {:induction false} EachSettled(s: Stores, ids: seq<string>, relationships: bool, env: Env, i: nat)
    requires i < |ids|
    ensures var ps := ProjectFold(s, ids, relationships, env).1;
            |ps| == |ids| && ps[i] == ProjectSettled(ProjectFold(s, ids[..i], relationships, env).0, ids[i], relationships, env).1
  {
    hide ProjectSettled;
    var n := |ids| - 1;
    if i < n {
      EachSettled(s, ids[..n], relationships, env, i);
      assert ids[..n][..i] == ids[..i];
    } else {
      FoldLength(s, ids[..n], relationships, env);
    }
  }

  lemma {:induction false} FoldLength(s: Stores, ids: seq<string>, relationships: bool, env: Env)
    ensures |ProjectFold(s, ids, relationships, env).1| == |ids|
  {
    hide ProjectSettled;
    if ids != [] {
      FoldLength(s, ids[..|ids| - 1], relationships, env);
    }
  }

  /** The episodes of what was ingested by this very settlement. */
  ghost predicate ListsEpisodes(ps: seq<SettledProjection>, r: seq<string>) {
    forall e :: e in r <==>
      exists p :: p in ps && p.projection.Some? && p.projection.value.status == "ingested" && p.projection.value.episodeId != ""
                  && e == "graphiti:" + p.projection.value.episodeId
  }

  lemma {:induction false} EpisodesListed(ps: seq<SettledProjection>)
    ensures ListsEpisodes(ps, EpisodeRefs(ps))
    ensures forall i :: 0 <= i < |EpisodeRefs(ps)| ==> Strip(EpisodeRefs(ps)[i]) != ""
  {
    hide Strip;
    if ps != [] {
      var n := |ps| - 1;
      EpisodesListed(ps[..n]);
      assert forall p :: p in ps <==> p in ps[..n] || p == ps[n];
      if ps[n].projection.Some? {
        PrefixNotBlank("graphiti:", ps[n].projection.value.episodeId);
      }
    }
  }

  /** The status word of a settlement. */
  ghost predicate SettlementSays(req: SettleRequest, r: SettleResponse) {
    var failed := exists p :: p in r.projections && p.error;
    var projected := exists p :: p in r.projections && p.projection.Some? && p.projection.value.status in {"ingested", "skipped"};
    var reviewed := r.review.Some? && r.review.value.reviewed > 0;
    r.status == if failed then "blocked"
                else if req.project && projected then "projected"
                else if req.approve && (reviewed || r.assetIds != []) then "approved"
                else "proposed"
  }

  lemma StatusSays(req: SettleRequest, p: ProposeResponse, review: Option<BatchResponse>, cs: seq<Candidate>, assetIds: seq<string>,
                   ps: seq<SettledProjection>, reportId: string)
    ensures var word := SettlementStatus(req.approve, req.project, if review.Some? then review.value.reviewed else 0,
                                         |Filter(Projected, ps)|, |Filter(Failed, ps)|, |assetIds|);
            SettlementSays(req, SettleResponse(word, p, review, cs, assetIds, ps, reportId))
  {
    FilterAll(Projected, ps);
    FilterAll(Failed, ps);
    hide Filter;
  }

  /** The settlement is reported once, with the selected candidates, the records taken and the new episodes as evidence. */
  ghost predicate SettlementReported(mid: Ticket, u: Ticket, selected: seq<Candidate>, assetIds: seq<string>,
                                     ps: seq<SettledProjection>, reportId: string)
  {
    exists cs, records, episodes ::
      && ListsBehind("asset-candidate:", IdsOf(selected), cs) && ListsBehind("asset-registry:", assetIds, records)
      && ListsEpisodes(ps, episodes)
      && ReportedOnce(mid, u, "ticket_closeout_settlement", cs + records + episodes, reportId)
  }

  lemma SettlementIsReported(mid: Ticket, selected: seq<Candidate>, assetIds: seq<string>, ps: seq<SettledProjection>, env: Env)
    requires ReportIdsOk(mid.reports)
    ensures var refs := IdRefs(Ids(selected)) + AssetRefs(assetIds) + EpisodeRefs(ps);
            var (u, reportId, _) := ReportOnce(mid, "ticket_closeout_settlement", SetOf(refs), refs, env);
            SettlementReported(mid, u, selected, assetIds, ps, reportId)
  {
    hide ReportedOnce, ReportOnce, Ids, Strip, ListsEpisodes, ReportIdsOk, ListsBehind, SetOf, EpisodeRefs, Refs;
    IdsAreIdsOf(selected);
    var c, a, e := IdRefs(Ids(selected)), AssetRefs(assetIds), EpisodeRefs(ps);
    RefsListed("asset-candidate:", Ids(selected));
    RefsListed("asset-registry:", assetIds);
    EpisodesListed(ps);
    BehindNotBlank("asset-candidate:", Ids(selected), c);
    BehindNotBlank("asset-registry:", assetIds, a);
    TypesNormal();
    ReportIsOnce(mid, SETTLEMENT, c + a + e, env);
  }

  lemma ReportSays(s: Stores, id: string, req: SettleRequest, env: Env, p: ProposeResponse, review: Option<BatchResponse>,
                   selected: seq<Candidate>, cs: seq<Candidate>, assetIds: seq<string>, ps: seq<SettledProjection>)
    requires id in s.tickets && ReportIdsOk(s.tickets[id].reports)
    ensures var (t, r) := SettleReport(s, id, req, env, p, review, Ids(selected), cs, assetIds, ps);
            && r.Ok? && SettlementSays(req, r.value) && id in t.tickets
            && SettlementReported(s.tickets[id], t.tickets[id], selected, assetIds, ps, r.value.reportId)
            && r.value.proposal == p && r.value.review == review && r.value.candidates == cs && r.value.assetIds == assetIds
            && r.value.projections == ps
  {
    hide SettlementStatus, SettlementSays, SettlementReported, ReportOnce, Ids, Filter, IdRefs, AssetRefs, EpisodeRefs, SetOf,
         ReportIdsOk;
    SettlementIsReported(s.tickets[id], selected, assetIds, ps, env);
    var refs := IdRefs(Ids(selected)) + AssetRefs(assetIds) + EpisodeRefs(ps);
    var reportId := ReportOnce(s.tickets[id], "ticket_closeout_settlement", SetOf(refs), refs, env).1;
    StatusSays(req, p, review, cs, assetIds, ps, reportId);
  }

  lemma BehindNotBlank(prefix: string, ids: seq<string>, r: seq<string>)
    requires prefix != "" && !IsSpace(prefix[0]) && ListsBehind(prefix, ids, r)
    ensures forall i :: 0 <= i < |r| ==> Strip(r[i]) != ""
  {
    hide Strip;
    forall i | 0 <= i < |r| ensures Strip(r[i]) != "" {
      PrefixNotBlank(prefix, ids[i]);
    }
  }

  /** The review step of a settlement: none unless approval is asked for, and a "skipped" one when nothing waits. */
  ghost predicate ReviewSaysWaiting(selected: seq<Candidate>, req: SettleRequest, review: Option<BatchResponse>) {
    && (review.None? <==> !req.approve)
    && (review.Some? ==>
          var waits := exists c :: c in selected && (c.status == "proposed" || c.reviewState == "proposed");
          && (!waits ==> review == Some(BatchResponse("skipped", |selected|, 0, 0, [])))
          && (waits ==> review.value.requested > 0))
  }

  lemma ReviewStepSays(s: Stores, selected: seq<Candidate>, req: SettleRequest, env: Env)
    requires Inv(s) && NoRepeats(Ids(selected)) && forall k :: k in Ids(selected) ==> PlainId(k)
    ensures var review := SettleApproval(s, selected, req, env).1;
            review.Ok? && ReviewSaysWaiting(selected, req, review.value)
  {
    hide Inv, BatchFold, Strip, UniqueIds, NormalizeReviewStatus, Filter, Ids, PlainId, BatchStatus;
    FilterIds(AwaitingReview, selected);
    IdsDistinct(selected);
    var awaiting := Ids(Filter(AwaitingReview, selected));
    ApprovalEffect(s, selected, req, env);
    if req.approve && awaiting != [] {
      AwaitingPlain(awaiting);
      AskedStatus(req);
      assert awaiting[0] in awaiting;
    } else if exists c :: c in selected && AwaitingReview(c) {
      var c :| c in selected && AwaitingReview(c);
      assert c.id in awaiting || awaiting == [];
    }
  }

  /** A settlement of a Ticket that may be closed out, as a whole: what it proposes and reports, whom it asks to review,
      one answer for each record in order when it projects, and the word that sums it up. */
  ghost predicate SettledAsSaid(s: Stores, t: Stores, id: string, req: SettleRequest, r: SettleResponse, env: Env)
    requires id in s.tickets
  {
    && id in t.tickets && SettlementSays(req, r)
    && exists mid, selected ::
         && ProposalReported(s, s.tickets[id], mid, r.proposal)
         && (forall c :: c in selected <==> c in r.proposal.candidates && TypeRequested(req.assetTypes, c.assetType))
         && ReviewSaysWaiting(selected, req, r.review)
         && SettlementReported(mid, t.tickets[id], selected, r.assetIds, r.projections, r.reportId)
         && (if req.project then exists before :: r.projections == ProjectFold(before, r.assetIds, req.projectRelationships, env).1
             else r.projections == [])
  }

  lemma SelectedAsSaid(cs: seq<Candidate>, types: seq<string>)
    ensures forall c :: c in SelectByType(cs, types) <==> c in cs && TypeRequested(types, c.assetType)
  {
    hide SelectByType, TypeRequested;
    forall c ensures c in SelectByType(cs, types) <==> c in cs && TypeRequested(types, c.assetType) {
      SelectedExactly(cs, types, c);
    }
  }

  /** The end of a settlement, from the stores after its approvals. */
  lemma EndSays(s: Stores, id: string, req: SettleRequest, env: Env, p: ProposeResponse, review: Option<BatchResponse>,
                selected: seq<Candidate>)
    requires Inv(s) && id in s.tickets && ReportIdsOk(s.tickets[id].reports)
    ensures var (t, r) := SettleProjections(s, id, req, env, p, review, Ids(selected));
            && r.Ok? && SettlementSays(req, r.value) && id in t.tickets && r.value.proposal == p && r.value.review == review
            && SettlementReported(s.tickets[id], t.tickets[id], selected, r.value.assetIds, r.value.projections, r.value.reportId)
            && r.value.projections == if req.project then ProjectFold(s, r.value.assetIds, req.projectRelationships, env).1 else []
  {
    InvGood(s);
    hide Inv, SettlementSays, SettlementReported, Ids, ReportIdsOk, ProjectFold, SettlementAssetIds, SettledCandidates, SettleReport,
         MarkedOnly;
    var cs := SettledCandidates(s, Ids(selected));
    var assetIds := SettlementAssetIds(cs, s.assets);
    ProjectFoldEffect(s, assetIds, req.projectRelationships, env);
    var (s1, ps) := if req.project then ProjectFold(s, assetIds, req.projectRelationships, env) else (s, []);
    ReportSays(s1, id, req, env, p, review, selected, cs, assetIds, ps);
  }

  /** A settlement fails exactly when its proposal does, and then changes nothing. */
  lemma SettleOutcome(s: Stores, ticketId: string, req: SettleRequest, env: Env)
    requires Inv(s) && forall k :: k in s.tickets ==> ReportIdsOk(s.tickets[k].reports)
    ensures var (t, r) := Settle(s, ticketId, req, env);
            var id := Strip(ticketId);
            if id !in s.tickets then r == KeyError(id) && t == s
            else if !CloseoutReady(s.tickets[id]) then r == ValueError && t == s
            else r.Ok? && SettledAsSaid(s, t, id, req, r.value, env)
  {
    hide Inv, CloseoutReady, Strip, ReportIdsOk, Propose, Proposed, SettleApproval, SettleProjections, SettlementSays, TypeRequested,
         SettlementReported, ReviewSaysWaiting, ProposalReported, SelectByType, Ids, CloseoutPresent, ExistingReport, PlainId;
    var id := Strip(ticketId);
    ProposeOutcome(s, ticketId, env);
    if id in s.tickets && CloseoutReady(s.tickets[id]) {
      ProposeEffect(s, ticketId, env);
      ProposalSays(s, ticketId, env);
      SelectedPlain(s, ticketId, req, env);
      var (s1, proposal) := Propose(s, ticketId, env);
      var selected := SelectByType(proposal.value.candidates, req.assetTypes);
      SelectedAsSaid(proposal.value.candidates, req.assetTypes);
      ReviewStepSays(s1, selected, req, env);
      SettleApprovalKeeps(s1, selected, req, env);
      SettleApprovalAttempts(s1, selected, req, env);
      var (s2, review) := SettleApproval(s1, selected, req, env);
      EndSays(s2, id, req, env, proposal.value, review.value, selected);
    }
  }

  lemma ProposalSays(s: Stores, ticketId: string, env: Env)
    requires Inv(s) && forall k :: k in s.tickets ==> ReportIdsOk(s.tickets[k].reports)
    requires Strip(ticketId) in s.tickets && CloseoutReady(s.tickets[Strip(ticketId)])
    ensures var (t, out) := Propose(s, ticketId, env);
            out.Ok? && Strip(ticketId) in t.tickets &&
            ProposalReported(s, s.tickets[Strip(ticketId)], t.tickets[Strip(ticketId)], out.value)
  {
    hide Inv, CloseoutReady, Strip, ReportIdsOk, Propose, ProposalReported, CandidatesProposed;
    ProposeOutcome(s, ticketId, env);
  }

  // ---- retrospectives ----

  const RETROSPECTIVE := "ticket_loop_failure_retrospective_candidate"

  lemma RetrospectiveNormal()
    ensures NormalType(RETROSPECTIVE)
  {
    hide Strip, Lower;
    assert Word(RETROSPECTIVE);
    WordNormal(RETROSPECTIVE);
  }

  lemma RetrospectiveReported(t: Ticket, ref: string, env: Env)
    requires ReportIdsOk(t.reports) && Strip(ref) != ""
    ensures var (u, reportId, added) := ReportOnce(t, RETROSPECTIVE, SetOf([ref]), [ref], env);
            ReportedOnce(t, u, RETROSPECTIVE, [ref], reportId) && (added <==> u != t)
  {
    hide Strip, ReportedOnce, ReportOnce, NormalType, ReportIdsOk, SetOf, RETROSPECTIVE;
    RetrospectiveNormal();
    ReportIsOnce(t, RETROSPECTIVE, [ref], env);
    ReportAddsOnly(t, RETROSPECTIVE, SetOf([ref]), [ref], env);
  }

  /** The candidate of a retrospective is saved whatever its review state, and reported once. */
  ghost predicate RetrospectiveSaid(s: Stores, t: Stores, id: string, c: Candidate, out: ProposeResponse, env: Env)
    requires id in s.tickets
  {
    && out.candidates == [c] && Generated(c, s.tickets[id], "loop-failure-retrospective", "failure_retrospective", env)
    && (forall k :: Lookup(CandidateId, t.candidates, k) == if k == c.id then Some(c) else Lookup(CandidateId, s.candidates, k))
    && id in t.tickets && t == s.(candidates := t.candidates, tickets := s.tickets[id := t.tickets[id]])
    && ReportedOnce(s.tickets[id], t.tickets[id], RETROSPECTIVE, ["asset-candidate:" + c.id], out.reportId)
    && out.status == if t.tickets[id] == s.tickets[id] && Has(CandidateId, s.candidates, c.id) then "skipped" else "proposed"
  }

  lemma RetrospectiveSays(s: Stores, id: string, c: Candidate, env: Env)
    requires Distinct(CandidateId, s.candidates) && id in s.tickets && ReportIdsOk(s.tickets[id].reports)
    requires Generated(c, s.tickets[id], "loop-failure-retrospective", "failure_retrospective", env)
    ensures var refs := ["asset-candidate:" + c.id];
            var (u, reportId, added) := ReportOnce(s.tickets[id], RETROSPECTIVE, SetOf(refs), refs, env);
            var word := if Lookup(CandidateId, s.candidates, c.id).Some? && !added then "skipped" else "proposed";
            RetrospectiveSaid(s, UpsertCandidate(s, c).(tickets := s.tickets[id := u]), id, c, ProposeResponse(word, [c], reportId), env)
  {
    hide Strip, ReportIdsOk, Generated, ReportedOnce, ReportOnce, Upsert, Lookup, Has, SetOf, Distinct, RETROSPECTIVE;
    UpsertIsMapUpdate(CandidateId, CandidateTime, s.candidates, c);
    LookupMember(CandidateId, s.candidates, c.id);
    PrefixNotBlank("asset-candidate:", c.id);
    RetrospectiveReported(s.tickets[id], "asset-candidate:" + c.id, env);
  }

  /** A retrospective needs a Ticket and enough failures, and changes nothing without. */
  lemma RetrospectiveOutcome(s: Stores, ticketId: string, failedItems: nat, minFailed: nat, env: Env)
    requires Inv(s) && forall k :: k in s.tickets ==> ReportIdsOk(s.tickets[k].reports)
    ensures var (t, out) := Retrospective(s, ticketId, failedItems, minFailed, env);
            var id := Strip(ticketId);
            if id !in s.tickets then out == KeyError(id) && t == s
            else if failedItems < minFailed then out == ValueError && t == s
            else out.Ok? && exists c :: RetrospectiveSaid(s, t, id, c, out.value, env)
  {
    InvGood(s);
    hide Inv, Strip, ReportIdsOk, Fresh, Generated, ReportOnce, Upsert, Lookup, RetrospectiveSaid, SetOf;
    var id := Strip(ticketId);
    if id in s.tickets && failedItems >= minFailed {
      var c := Fresh(s.tickets[id], "loop-failure-retrospective", "failure_retrospective", env);
      FreshIsGenerated(s.tickets[id], "loop-failure-retrospective", "failure_retrospective", env);
      RetrospectiveSays(s, id, c, env);
    }
  }
}
