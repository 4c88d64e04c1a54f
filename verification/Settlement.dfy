/** Settling a Ticket's closeout twice: the stores a settlement leaves behind are settled, and settling settled
    stores again reviews, ingests and reports nothing. */
module Settlement {
  import opened Text
  import opened StableSort
  import opened Keyed
  import opened RegistryModel
  import opened Projection

  // ---- reports ----

  /** Adding a report of another type does not change which report covers `refs`. */
  lemma OtherReportType(reports: seq<Report>, r: Report, reportType: string, refs: set<string>)
    requires ReportType(r) != reportType
    ensures ExistingReport(reports + [r], reportType, refs) == ExistingReport(reports, reportType, refs)
  {
    assert (reports + [r])[..|reports|] == reports;
  }

  ghost predicate ReportIdsOk(reports: seq<Report>) { forall r :: r in reports ==> Strip(r.id) != "" }

  /** A report covering more evidence also covers less. */
  lemma {:induction false} CoveringReport(reports: seq<Report>, reportType: string, refs: set<string>, fewer: set<string>)
    requires ReportIdsOk(reports) && fewer <= refs && ExistingReport(reports, reportType, refs) != ""
    ensures ExistingReport(reports, reportType, fewer) != ""
  {
    var n := |reports| - 1;
    assert reports[n] in reports;
    if !(ReportType(reports[n]) == reportType && refs <= EvidenceSet(reports[n].evidence)) {
      assert forall r :: r in reports[..n] ==> r in reports;
      CoveringReport(reports[..n], reportType, refs, fewer);
    }
  }

  lemma {:induction false} StripAllSet(evidence: seq<string>)
    ensures EvidenceSet(StripAll(evidence)) == EvidenceSet(evidence)
  {
    if evidence != [] {
      StripAllSet(evidence[1..]);
      StripTwice(evidence[0]);
      var e := Strip(evidence[0]);
      assert EvidenceSet(evidence) == EvidenceSet(evidence[1..]) + if e == "" then {} else {e} by {
        assert evidence == [evidence[0]] + evidence[1..];
      }
      assert EvidenceSet(StripAll(evidence)) == EvidenceSet(StripAll(evidence[1..])) + if e == "" then {} else {e};
    }
  }

  ghost predicate PlainRefs(refs: set<string>) { forall e :: e in refs ==> e != "" && Strip(e) == e }

  lemma ReportPrefix(token: string)
    ensures Strip("report-" + token) != ""
  {
    var s := "report-" + token;
    DropLeftFacts(IsSpace, s);
    DropRightFacts(IsSpace, s);
    assert DropLeft(IsSpace, s) == s;
    if Strip(s) == "" {
      AllSpacesRight(s);
      assert false;
    }
  }

  lemma {:induction false} AllSpacesRight(s: string)
    requires DropRight(IsSpace, s) == "" && s != ""
    ensures IsSpace(s[0])
  {
    if |s| > 1 {
      AllSpacesRight(s[..|s| - 1]);
    }
  }

  ghost predicate NormalType(reportType: string) { Lower(Strip(reportType)) == reportType }

  /** Reporting once leaves a report of the type that covers the plain part of the evidence, keeps the reports
      of the Ticket, and adds at most one of that type. */
  lemma ReportOnceEffect(t: Ticket, reportType: string, evidence: seq<string>, fewer: set<string>, env: Env)
    requires ReportIdsOk(t.reports) && NormalType(reportType)
    requires fewer <= SetOf(evidence) && PlainRefs(fewer)
    ensures var u := ReportOnce(t, reportType, SetOf(evidence), evidence, env).0;
            && u == t.(reports := u.reports) && ReportIdsOk(u.reports)
            && ExistingReport(u.reports, reportType, fewer) != ""
            && (u.reports == t.reports
                || exists r :: ReportType(r) == reportType && u.reports == t.reports + [r])
  {
    var existing := ExistingReport(t.reports, reportType, SetOf(evidence));
    var u := ReportOnce(t, reportType, SetOf(evidence), evidence, env).0;
    if existing != "" {
      CoveringReport(t.reports, reportType, SetOf(evidence), fewer);
    } else {
      var r := Report("report-" + env.reportToken(t.id, |t.reports|), reportType, StripAll(evidence));
      ReportPrefix(env.reportToken(t.id, |t.reports|));
      StripAllSet(evidence);
      assert fewer <= EvidenceSet(r.evidence);
      assert u.reports == t.reports + [r];
      assert u.reports[|u.reports| - 1] == r;
    }
  }

  /** When a covering report exists nothing is added. */
  lemma ReportOnceFixed(t: Ticket, reportType: string, refs: set<string>, evidence: seq<string>, env: Env)
    requires ExistingReport(t.reports, reportType, refs) != ""
    ensures ReportOnce(t, reportType, refs, evidence, env) == (t, ExistingReport(t.reports, reportType, refs), false)
  {
  }

  /** The two settlement report types decide nothing about the closeout. */
  lemma ClosingReport(t: Ticket, u: Ticket, r: Report)
    requires u == t.(reports := t.reports + [r])
    requires ReportType(r) == "ticket_closeout_candidates" || ReportType(r) == "ticket_closeout_settlement"
    ensures CloseoutWords(u) == CloseoutWords(t) && CloseoutReady(u) == CloseoutReady(t)
  {
    assert !ValidationType(ReportType(r)) && !SolutionType(ReportType(r));
    assert forall x :: x in u.reports <==> x in t.reports || x == r;
    assert HasValidation(u.reports) == HasValidation(t.reports);
    assert HasSolution(u.reports) == HasSolution(t.reports);
  }

  // ---- what the proposal keeps ----

  predicate DistinctDrafts(drafts: seq<Candidate>) { Distinct(CandidateId, drafts) }

  /** The candidate under `k` after the proposal. */
  ghost predicate AfterProposal(s: Stores, t: Stores, drafts: seq<Candidate>) {
    && (forall i :: 0 <= i < |drafts| ==>
         Lookup(CandidateId, t.candidates, drafts[i].id) == Some(Kept(s, drafts[i])))
    && (forall k :: !Has(CandidateId, drafts, k) ==>
         Lookup(CandidateId, t.candidates, k) == Lookup(CandidateId, s.candidates, k))
  }

  lemma DistinctPrefix(drafts: seq<Candidate>)
    requires DistinctDrafts(drafts) && drafts != []
    ensures var n := |drafts| - 1; DistinctDrafts(drafts[..n]) && !Has(CandidateId, drafts[..n], drafts[n].id)
    ensures forall k :: Has(CandidateId, drafts, k) <==>
              Has(CandidateId, drafts[..|drafts| - 1], k) || k == drafts[|drafts| - 1].id
  {
    var n := |drafts| - 1;
    forall k ensures Has(CandidateId, drafts, k) <==> Has(CandidateId, drafts[..n], k) || k == drafts[n].id {
      if i :| 0 <= i < n && CandidateId(drafts[..n][i]) == k {
        assert CandidateId(drafts[i]) == k;
      }
      if i :| 0 <= i < |drafts| && CandidateId(drafts[i]) == k && i < n {
        assert CandidateId(drafts[..n][i]) == k;
      }
      assert CandidateId(drafts[n]) == drafts[n].id;
    }
    assert forall i, j :: 0 <= i < j < n ==> CandidateId(drafts[..n][i]) != CandidateId(drafts[..n][j]);
    assert forall i :: 0 <= i < n ==> CandidateId(drafts[..n][i]) != CandidateId(drafts[n]);
  }

  lemma {:induction false} ProposeFoldEffect(s: Stores, drafts: seq<Candidate>)
    requires Good(CandidateId, CandidateTime, s.candidates) && DistinctDrafts(drafts)
    ensures var (t, kept) := ProposeFold(s, drafts);
            && Good(CandidateId, CandidateTime, t.candidates)
            && |kept| == |drafts| && (forall i :: 0 <= i < |drafts| ==> kept[i] == Kept(s, drafts[i]))
            && AfterProposal(s, t, drafts)
  {
    hide ReviewStatus, Upsert, SortBy;
    if drafts != [] {
      var n := |drafts| - 1;
      var before := drafts[..n];
      DistinctPrefix(drafts);
      ProposeFoldEffect(s, before);
      var (s1, kept) := ProposeFold(s, before);
      var (t, all) := ProposeFold(s, drafts);
      UpsertIsMapUpdate(CandidateId, CandidateTime, s1.candidates, drafts[n]);
      forall i | 0 <= i < |drafts| ensures Lookup(CandidateId, t.candidates, drafts[i].id) == Some(Kept(s, drafts[i])) {
        if i < n {
          assert drafts[i] == before[i] && CandidateId(drafts[i]) != CandidateId(drafts[n]);
        }
      }
    }
  }

  /** Upserting a candidate outside `p` over one outside `p` does not change the candidates inside `p`. */
  lemma UpsertOutside(s: seq<Candidate>, c: Candidate, p: Candidate -> bool)
    requires Good(CandidateId, CandidateTime, s) && !p(c)
    requires Lookup(CandidateId, s, c.id).Some? ==> !p(Lookup(CandidateId, s, c.id).value)
    ensures Filter(p, Upsert(CandidateId, CandidateTime, s, c)) == Filter(p, s)
  {
    var i := Find(CandidateId, s, c.id);
    LookupMember(CandidateId, s, c.id);
    var t := if i < |s| then s[i := c] else s + [c];
    if i < |s| {
      FilterUpdate(p, s, i, c);
    } else {
      FilterAppend(p, s, [c]);
    }
    FilterSorted(CandidateTime, p, s);
    SortStable(CandidateTime, t, p);
  }

  lemma {:induction false} FilterUpdate<T>(p: T -> bool, s: seq<T>, i: nat, x: T)
    requires i < |s| && !p(s[i]) && !p(x)
    ensures Filter(p, s[i := x]) == Filter(p, s)
  {
    if i > 0 {
      FilterUpdate(p, s[1..], i - 1, x);
      assert s[i := x][1..] == s[1..][i - 1 := x];
    } else {
      assert s[i := x][1..] == s[1..];
    }
  }

  /** No draft takes part in a settlement: it is new, unreviewed, or not kept. */
  ghost predicate DraftsUnsettled(s: Stores, drafts: seq<Candidate>) {
    forall i :: 0 <= i < |drafts| ==>
      var c := Lookup(CandidateId, s.candidates, drafts[i].id);
      !Settled(drafts[i]) && (c.Some? && !AlreadyReviewed(s, drafts[i]) ==> !Settled(c.value))
  }

  /** The proposal leaves the settled candidates as they are, in order. */
  lemma {:induction false} ProposeFoldSettled(s: Stores, drafts: seq<Candidate>)
    requires Good(CandidateId, CandidateTime, s.candidates) && DistinctDrafts(drafts) && DraftsUnsettled(s, drafts)
    ensures Filter(Settled, ProposeFold(s, drafts).0.candidates) == Filter(Settled, s.candidates)
  {
    hide AlreadyReviewed, Settled, Upsert, SortBy;
    if drafts != [] {
      var n := |drafts| - 1;
      var before := drafts[..n];
      DistinctPrefix(drafts);
      ProposeFoldEffect(s, before);
      ProposeFoldSettled(s, before);
      var s1 := ProposeFold(s, before).0;
      if !AlreadyReviewed(s, drafts[n]) {
        assert Lookup(CandidateId, s1.candidates, drafts[n].id) == Lookup(CandidateId, s.candidates, drafts[n].id);
        UpsertOutside(s1.candidates, drafts[n], Settled);
      }
    }
  }

  // ---- which records a settlement projects ----

  /** Only the settled ones among the selected candidates matter. */
  lemma {:induction false} SettlementIgnoresOthers(cs: seq<Candidate>, assets: seq<AssetRecord>)
    ensures SettlementAssetIds(cs, assets) == SettlementAssetIds(Filter(Settled, cs), assets)
  {
    if cs != [] {
      var n := |cs| - 1;
      SettlementIgnoresOthers(cs[..n], assets);
      FilterLast(Settled, cs);
      var f := Filter(Settled, cs);
      if Settled(cs[n]) {
        assert f[..|f| - 1] == Filter(Settled, cs[..n]) && f[|f| - 1] == cs[n];
      }
    }
  }

  lemma {:induction false} FilterTwice<T>(p: T -> bool, q: T -> bool, s: seq<T>)
    ensures Filter(p, Filter(q, s)) == Filter(q, Filter(p, s))
  {
    if s != [] {
      FilterTwice(p, q, s[1..]);
      FilterAppend(p, if q(s[0]) then [s[0]] else [], Filter(q, s[1..]));
      FilterAppend(q, if p(s[0]) then [s[0]] else [], Filter(p, s[1..]));
    }
  }

  /** With the same settled candidates a settlement finds the same records. */
  lemma SameSettled(s: Stores, t: Stores, ids: seq<string>, assets: seq<AssetRecord>)
    requires Filter(Settled, s.candidates) == Filter(Settled, t.candidates)
    ensures SettlementAssetIds(SettledCandidates(s, ids), assets) == SettlementAssetIds(SettledCandidates(t, ids), assets)
  {
    SettlementIgnoresOthers(SettledCandidates(s, ids), assets);
    SettlementIgnoresOthers(SettledCandidates(t, ids), assets);
    FilterTwice(Settled, WithId(ids), s.candidates);
    FilterTwice(Settled, WithId(ids), t.candidates);
  }

  lemma MatchesAfterMarks(c: Candidate, a: AssetRecord, b: AssetRecord)
    requires SameButMarks(a, b)
    ensures RecordMatches(c, a) == RecordMatches(c, b)
  {
    assert !MarkField("source_asset_candidate_id") && !MarkField("source_candidate_id");
  }

  lemma {:induction false} FirstMatchAfterMarks(c: Candidate, xs: seq<AssetRecord>, ys: seq<AssetRecord>)
    requires MarkedOnly(xs, ys)
    ensures FirstMatch(c, xs).Some? == FirstMatch(c, ys).Some?
    ensures FirstMatch(c, xs).Some? ==> FirstMatch(c, xs).value.id == FirstMatch(c, ys).value.id
  {
    hide RecordMatches;
    if xs != [] {
      assert SameButMarks(xs[0], ys[0]);
      MatchesAfterMarks(c, xs[0], ys[0]);
      FirstMatchAfterMarks(c, xs[1..], ys[1..]);
    }
  }

  lemma {:induction false} SettlementAfterMarks(cs: seq<Candidate>, xs: seq<AssetRecord>, ys: seq<AssetRecord>)
    requires MarkedOnly(xs, ys)
    ensures SettlementAssetIds(cs, xs) == SettlementAssetIds(cs, ys)
  {
    if cs != [] {
      SettlementAfterMarks(cs[..|cs| - 1], xs, ys);
      FirstMatchAfterMarks(cs[|cs| - 1], xs, ys);
    }
  }

  lemma {:induction false} FirstMatchMember(c: Candidate, assets: seq<AssetRecord>)
    ensures FirstMatch(c, assets).Some? ==> FirstMatch(c, assets).value in assets
  {
    if assets != [] {
      FirstMatchMember(c, assets[1..]);
    }
  }

  /** The projected ids are ids of records, each once. */
  lemma {:induction false} SettlementAssetIdsFacts(cs: seq<Candidate>, assets: seq<AssetRecord>)
    ensures NoRepeats(SettlementAssetIds(cs, assets))
    ensures forall k :: k in SettlementAssetIds(cs, assets) ==> exists a :: a in assets && a.id == k
  {
    if cs != [] {
      SettlementAssetIdsFacts(cs[..|cs| - 1], assets);
      FirstMatchMember(cs[|cs| - 1], assets);
    }
  }

  // ---- projections of settled records ----

  /** The audit knows the record and, when they are projected too, each of its eligible relationships. */
  ghost predicate Covered(audit: seq<Attempt>, assets: seq<AssetRecord>, id: string, relationships: bool, env: Env) {
    && AuditedIngestion(audit, Strip(id)).Some?
    && (relationships ==>
          var found := Lookup(AssetId, assets, Strip(id));
          found.Some? ==> RelationsAudited(audit, found.value, found.value.relationships, env))
  }

  ghost predicate AllCovered(s: Stores, ids: seq<string>, relationships: bool, env: Env) {
    forall i :: 0 <= i < |ids| ==> Covered(s.audit, s.assets, ids[i], relationships, env)
  }

  /** Relationship ids do not change with anything but the relationship digest. */
  ghost predicate SameKeys(e: Env, f: Env) { e.relationshipKey == f.relationshipKey }

  lemma {:induction false} LookupAfterMarks(xs: seq<AssetRecord>, ys: seq<AssetRecord>, id: string)
    requires MarkedOnly(xs, ys)
    ensures Lookup(AssetId, xs, id).Some? == Lookup(AssetId, ys, id).Some?
    ensures Lookup(AssetId, xs, id).Some? ==> SameButMarks(Lookup(AssetId, xs, id).value, Lookup(AssetId, ys, id).value)
  {
    if xs != [] {
      assert SameButMarks(xs[0], ys[0]);
      LookupAfterMarks(xs[1..], ys[1..], id);
    }
  }

  /** Every id the one audit knows, the other knows too. */
  ghost predicate KnowsMore(a: seq<Attempt>, b: seq<Attempt>) {
    forall id :: AuditedIngestion(a, id).Some? ==> AuditedIngestion(b, id).Some?
  }

  lemma CoveredAfterMarks(s: Stores, t: Stores, id: string, relationships: bool, e: Env, f: Env)
    requires MarkedOnly(s.assets, t.assets) && KnowsMore(s.audit, t.audit) && SameKeys(e, f)
    requires Covered(s.audit, s.assets, id, relationships, e)
    ensures Covered(t.audit, t.assets, id, relationships, f)
  {
    hide AuditedIngestion, Strip;
    LookupAfterMarks(s.assets, t.assets, Strip(id));
    var x, y := Lookup(AssetId, s.assets, Strip(id)), Lookup(AssetId, t.assets, Strip(id));
    if relationships && y.Some? {
      forall i | 0 <= i < |y.value.relationships| && Eligible(y.value.relationships[i])
        ensures AuditedIngestion(t.audit, RelationshipId(y.value.id, y.value.relationships[i], f)).Some?
      {
        assert RelationshipId(y.value.id, y.value.relationships[i], f)
            == RelationshipId(x.value.id, x.value.relationships[i], e);
      }
    }
  }

  lemma ProjectSettledEffect(s: Stores, id: string, relationships: bool, env: Env)
    requires GoodAssets(s)
    ensures var (t, p) := ProjectSettled(s, id, relationships, env);
            && OnlyProjected(s, t)
            && (Covered(s.audit, s.assets, id, relationships, env) ==> SameAttempts(s, t) && EpisodeRefs([p]) == [])
  {
    hide ProjectAsset, ProjectRelationships, RelationsAudited, AuditedIngestion;
    ProjectAssetEffect(s, id, env);
    var (s1, projected) := ProjectAsset(s, id, env);
    ProjectRelationshipsEffect(s1, id, env);
    var s2 := ProjectRelationships(s1, id, env).0;
    OnlyProjectedTransitive(s, s1, s2);
    if Covered(s.audit, s.assets, id, relationships, env) {
      CoveredAfterMarks(s, s1, id, relationships, env, env);
    }
    var p := ProjectSettled(s, id, relationships, env).1;
    assert [p][..0] == [];
  }

  lemma {:induction false} ProjectFoldEffect(s: Stores, ids: seq<string>, relationships: bool, env: Env)
    requires GoodAssets(s)
    ensures var (t, ps) := ProjectFold(s, ids, relationships, env);
            && OnlyProjected(s, t)
            && (AllCovered(s, ids, relationships, env) ==> SameAttempts(s, t) && EpisodeRefs(ps) == [])
  {
    hide ProjectSettled, Covered;
    if ids == [] {
      MarkedOnlySelf(s.assets);
    } else {
      var n := |ids| - 1;
      ProjectFoldEffect(s, ids[..n], relationships, env);
      var (s1, done) := ProjectFold(s, ids[..n], relationships, env);
      ProjectSettledEffect(s1, ids[n], relationships, env);
      var (s2, p) := ProjectSettled(s1, ids[n], relationships, env);
      OnlyProjectedTransitive(s, s1, s2);
      if AllCovered(s, ids, relationships, env) {
        assert Covered(s.audit, s.assets, ids[n], relationships, env);
        CoveredAfterMarks(s, s1, ids[n], relationships, env, env);
        assert [p][..0] == [];
        assert (done + [p])[..|done|] == done;
      }
    }
  }

  lemma MarkedOnlySelf(xs: seq<AssetRecord>)
    ensures MarkedOnly(xs, xs)
  {
  }
}
