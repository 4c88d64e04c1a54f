/** A settlement that never settles: a record with so many relationships that projecting them pushes the record's own
    entry out of the audit. Every projection succeeds, and repeating the call asks Graphiti again. */
module Eviction {
  import opened Text
  import opened Json
  import opened StableSort
  import opened Keyed
  import opened RegistryModel
  import opened RegistryInvariants
  import opened Runs
  import opened Projection
  import opened BatchReviews
  import opened ReviewOutcomes
  import opened Settlement
  import opened Convergence
  import opened Coverage
  import opened Repetition

  // ---- projecting many relationships ----

  ghost predicate Willing(env: Env) { forall n :: Ingested(env.graphiti(n)) }

  function Sent(id: string, o: Object, env: Env): string { Strip(RelationshipId(id, o, env)) }

  lemma SentTwice(id: string, o: Object, env: Env)
    ensures Strip(Sent(id, o, env)) == Sent(id, o, env)
  {
    StripTwice(RelationshipId(id, o, env));
  }

  /** `x` is the id of one of the eligible relationships. */
  ghost predicate Told(id: string, relations: seq<Object>, env: Env, x: string) {
    exists i :: 0 <= i < |relations| && Eligible(relations[i]) && Sent(id, relations[i], env) == x
  }

  /** No two eligible relationships share an id. */
  ghost predicate Apart(id: string, relations: seq<Object>, env: Env) {
    forall i, j :: 0 <= i < j < |relations| && Eligible(relations[i]) && Eligible(relations[j]) ==>
      Sent(id, relations[i], env) != Sent(id, relations[j], env)
  }

  /** No attempt so far was for one of the relationships. */
  ghost predicate Untold(attempts: seq<Attempt>, id: string, relations: seq<Object>, env: Env) {
    forall k :: 0 <= k < |attempts| ==> !Told(id, relations, env, Strip(attempts[k].assetId))
  }

  lemma IngestAudit(s: Stores, id: string, env: Env)
    requires AuditOk(s)
    ensures var (t, g) := Ingest(s, id, env);
            && AuditOk(t) && t == s.(audit := t.audit, attempts := t.attempts) && g == env.graphiti(|s.attempts|)
            && t.attempts == s.attempts + [Attempt(Strip(id), g)]
  {
    hide Strip;
    var attempt := Attempt(Strip(id), env.graphiti(|s.attempts|));
    LastFacts(AUDIT_LIMIT, s.audit + [attempt]);
    assert s.audit + [attempt] == (s.attempts + [attempt])[|s.attempts| - |s.audit|..];
  }

  /** The audit does not know an id no attempt was for. */
  lemma NeverTried(s: Stores, id: string)
    requires AuditOk(s) && forall k :: 0 <= k < |s.attempts| ==> Strip(s.attempts[k].assetId) != Strip(id)
    ensures AuditedIngestion(s.audit, id).None?
  {
    AuditedExactly(s.audit, id);
    hide Strip;
    assert forall i :: 0 <= i < |s.audit| ==> s.audit[i] == s.attempts[i + |s.attempts| - |s.audit|];
  }

  /** All eligible relationships are ingested, each in one attempt. */
  lemma {:induction false} RelateFoldSends(s: Stores, a: AssetRecord, relations: seq<Object>, env: Env)
    requires AuditOk(s) && a.id != "" && Willing(env)
    requires Apart(a.id, relations, env) && Untold(s.attempts, a.id, relations, env)
    ensures var (t, r) := RelateFold(s, a, relations, env);
            && r.Ok? && AuditOk(t) && s.attempts <= t.attempts
            && |t.attempts| == |s.attempts| + |Filter(Eligible, relations)|
            && forall k :: |s.attempts| <= k < |t.attempts| ==> Told(a.id, relations, env, Strip(t.attempts[k].assetId))
  {
    hide Eligible, RelationshipId, Ingest, AuditedIngestion, Strip, AuditOk, Sent, Filter;
    if relations == [] {
      FilterAll(Eligible, relations);
    } else {
      var n := |relations| - 1;
      var o := relations[n];
      assert relations == relations[..n] + [o];
      assert forall i :: 0 <= i < n ==> relations[..n][i] == relations[i];
      RelateFoldSends(s, a, relations[..n], env);
      FilterAppend(Eligible, relations[..n], [o]);
      FilterOne(Eligible, o);
      var (s1, before) := RelateFold(s, a, relations[..n], env);
      if Eligible(o) {
        LastUntried(s, s1, a.id, relations, env);
        RelateLast(s1, a, o, before.value, env);
        SentTwice(a.id, o, env);
        assert Told(a.id, relations, env, Sent(a.id, o, env));
      }
      var t := RelateFold(s, a, relations, env).0;
      forall k | |s.attempts| <= k < |t.attempts| ensures Told(a.id, relations, env, Strip(t.attempts[k].assetId)) {
        if k < |s1.attempts| {
          var i :| 0 <= i < n && Eligible(relations[..n][i]) && Sent(a.id, relations[..n][i], env) == Strip(s1.attempts[k].assetId);
          assert Sent(a.id, relations[i], env) == Strip(t.attempts[k].assetId);
        }
      }
    }
  }

  /** No attempt so far was for the last relationship. */
  lemma LastUntried(s: Stores, s1: Stores, id: string, relations: seq<Object>, env: Env)
    requires relations != [] && Eligible(relations[|relations| - 1]) && s.attempts <= s1.attempts
    requires Apart(id, relations, env) && Untold(s.attempts, id, relations, env)
    requires forall k :: |s.attempts| <= k < |s1.attempts| ==>
               Told(id, relations[..|relations| - 1], env, Strip(s1.attempts[k].assetId))
    ensures forall k :: 0 <= k < |s1.attempts| ==> Strip(s1.attempts[k].assetId) != Sent(id, relations[|relations| - 1], env)
  {
    hide Eligible, Strip, Sent;
    var n := |relations| - 1;
    forall k | 0 <= k < |s1.attempts| ensures Strip(s1.attempts[k].assetId) != Sent(id, relations[n], env) {
      if k < |s.attempts| {
        assert s1.attempts[k] == s.attempts[k];
      } else {
        var i :| 0 <= i < n && Eligible(relations[..n][i]) && Sent(id, relations[..n][i], env) == Strip(s1.attempts[k].assetId);
        assert Eligible(relations[i]);
      }
    }
  }

  /** The last relationship, after the others. */
  lemma RelateLast(s1: Stores, a: AssetRecord, o: Object, acc: Relating, env: Env)
    requires Eligible(o) && a.id != "" && Willing(env) && AuditOk(s1)
    requires forall k :: 0 <= k < |s1.attempts| ==> Strip(s1.attempts[k].assetId) != Sent(a.id, o, env)
    ensures var (t, r) := RelateOne(s1, a, o, acc, env);
            r.Ok? && AuditOk(t) && t.attempts == s1.attempts + [Attempt(Sent(a.id, o, env), env.graphiti(|s1.attempts|))]
  {
    var rid := RelationshipId(a.id, o, env);
    assert Sent(a.id, o, env) == Strip(rid);
    NeverTried(s1, rid);
    IngestAudit(s1, rid, env);
    assert Ingested(env.graphiti(|s1.attempts|));
    hide Eligible, RelationshipId, AuditedIngestion, Strip, AuditOk, Ingest, Sent, Willing;
  }

  /** A record with at least as many eligible relationships as the audit has places. */
  ghost predicate Crowded(a: AssetRecord, env: Env) {
    && |Filter(Eligible, a.relationships)| >= AUDIT_LIMIT
    && Apart(a.id, a.relationships, env) && !Told(a.id, a.relationships, env, Strip(a.id))
  }

  ghost predicate ReadyToSend(a: AssetRecord) { ProjectableStatus(a.status) && ValidIngestRequest(a) }

  /** Projecting a crowded record with its relationships succeeds, and the audit does not know it afterwards. */
  lemma ProjectedAndForgotten(s: Stores, id: string, env: Env)
    requires GoodAssets(s) && AuditOk(s) && s.attempts == [] && Willing(env)
    requires var found := Lookup(AssetId, s.assets, Strip(id));
             found.Some? && ReadyToSend(found.value) && Crowded(found.value, env)
    ensures var (t, p) := ProjectSettled(s, id, true, env);
            p.status == "ingested" && !p.error && AuditedIngestion(t.audit, Strip(id)).None?
  {
    hide Eligible, RelationshipId, AuditedIngestion, Strip, Ingest, RelateFold, Upsert, MarkedProjection, Apart, Told, Filter,
         MarkedRelationships, MarkedOnly, ProjectableStatus, RelatingStatus, AuditOk;
    LookupMember(AssetId, s.assets, Strip(id));
    var a := Lookup(AssetId, s.assets, Strip(id)).value;
    NeverTried(s, a.id);
    IngestAudit(s, a.id, env);
    ProjectAssetEffect(s, id, env);
    var s0 := Ingest(s, a.id, env).0;
    var s1 := ProjectAsset(s, id, env).0;
    AuditSame(s0, s1);
    LookupAfterMarks(s.assets, s1.assets, Strip(id));
    var b := Lookup(AssetId, s1.assets, Strip(id)).value;
    StripTwice(a.id);
    UntoldFirst(s1.attempts, a, env);
    RelateFoldSends(s1, b, b.relationships, env);
    var s2 := RelateFold(s1, b, b.relationships, env).0;
    var t := ProjectSettled(s, id, true, env).0;
    AuditSame(s2, t);
    LookupMember(AssetId, s1.assets, Strip(id));
    Forgotten(s2, a, env);
  }

  lemma AuditSame(s: Stores, t: Stores)
    requires AuditOk(s) && s.audit == t.audit && s.attempts == t.attempts
    ensures AuditOk(t)
  {
  }

  lemma UntoldFirst(attempts: seq<Attempt>, a: AssetRecord, env: Env)
    requires |attempts| == 1 && Strip(attempts[0].assetId) == Strip(a.id) && !Told(a.id, a.relationships, env, Strip(a.id))
    ensures Untold(attempts, a.id, a.relationships, env)
  {
    hide Told, Strip;
  }

  /** The attempts the audit still holds are all for relationships. */
  lemma Forgotten(s: Stores, a: AssetRecord, env: Env)
    requires AuditOk(s) && Crowded(a, env) && |s.attempts| == 1 + |Filter(Eligible, a.relationships)|
    requires forall k :: 1 <= k < |s.attempts| ==> Told(a.id, a.relationships, env, Strip(s.attempts[k].assetId))
    ensures AuditedIngestion(s.audit, a.id).None?
  {
    hide Told, Strip, Filter, Apart;
    AuditedExactly(s.audit, a.id);
    forall i | 0 <= i < |s.audit| ensures !SuccessFor(s.audit[i], a.id) {
      var k := i + |s.attempts| - |s.audit|;
      assert s.audit[i] == s.attempts[k] && k >= 1;
    }
  }

  // ---- in a settlement ----

  /** When the one target of a settlement is a crowded record, the first call ingests everything and reports success,
      and repeating the call, once or more, asks Graphiti again whatever it answers. */
  lemma {:induction false} CrowdedNeverConverges(s: Stores, ticketId: string, req: SettleRequest, env: Env, later: seq<Env>)
    requires Inv(s) && Strip(ticketId) in s.tickets && req.project && req.projectRelationships
    requires CloseoutReady(s.tickets[Strip(ticketId)]) && ReportIdsOk(s.tickets[Strip(ticketId)].reports)
    requires s.attempts == [] && Willing(env) && later != []
    requires var (d, plan) := Settle(s, ticketId, req.(project := false), env);
             plan.Ok? && |plan.value.assetIds| == 1 &&
             var found := Lookup(AssetId, d.assets, Strip(plan.value.assetIds[0]));
             found.Some? && ReadyToSend(found.value) && Crowded(found.value, env)
    ensures var (t, r) := Settle(s, ticketId, req, env);
            && r.Ok? && |r.value.projections| == 1 && r.value.projections[0].status == "ingested" && !r.value.projections[0].error
            && Fold(SettleStep(ticketId, req), t, later).attempts != t.attempts
  {
    hide Inv, Settle, CloseoutReady, ReportIdsOk, Strip, MarkedOnly, ProjectSettled, Crowded, AuditedIngestion, ProjectableStatus,
         RelationsAudited, Fold;
    var mid, ids := SettleThrough(s, ticketId, req, env);
    AuditOfInv(s);
    AuditSame(s, mid);
    assert ids == [ids[0]];
    OneTarget(mid, ids[0], env);
    ProjectedAndForgotten(mid, ids[0], env);
    var t := Settle(s, ticketId, req, env).0;
    ProjectFoldEffect(mid, ids, true, env);
    LookupAfterMarks(mid.assets, t.assets, Strip(ids[0]));
    assert !Quiet(t.audit, t.assets, ids[0], true, later[0]);
    SettlementConverges(s, ticketId, req, env, later);
  }

  lemma AuditOfInv(s: Stores)
    requires Inv(s)
    ensures AuditOk(s)
  {
  }

  lemma OneTarget(s: Stores, id: string, env: Env)
    ensures var (t, p) := ProjectSettled(s, id, true, env); ProjectFold(s, [id], true, env) == (t, [p])
  {
    hide ProjectSettled;
    assert [id][..0] == [];
    assert ProjectFold(s, [], true, env) == (s, []);
    assert [] + [ProjectSettled(s, id, true, env).1] == [ProjectSettled(s, id, true, env).1];
  }

  // ---- such a settlement ----

  /** A closed Ticket without reports, and 100 relationships to different Assets. */
  const CLOSED := Ticket("T-1", "validated", [])

  function Supersedes(i: nat): Object { map["type" := JStr("supersedes"), "target_asset_id" := JStr(Decimal(i))] }

  function ManyLinks(n: nat): (links: seq<Object>)
    ensures |links| == n && forall i :: 0 <= i < n ==> links[i] == Supersedes(i)
  {
    seq(n, i requires 0 <= i < n => Supersedes(i))
  }

  const FROM_TICKET: Object :=
    map["type" := JStr("derived_from_ticket"), "target_kind" := JStr("ticket"), "target_ref" := JStr("T-1")]

  /** Graphiti answers, and generated candidates carry content and their reference to the Ticket. */
  const ANSWERING := Env(
    1,
    (n: nat) => GraphitiStatus("ingested", "episode"),
    (source: string, kind: string, target: string) => target,
    (t: Ticket, word: string) => Draft(Descriptor("title", "content", "ticket", "T-1", "", "ticket_closeout", "tickets/T-1"),
                                       "ticket://T-1", map[], [FROM_TICKET]),
    (id: string, n: nat) => Decimal(n))

  const APPROVE_WITH_LINKS := ReviewRequest("approved", "", "", "", ManyLinks(AUDIT_LIMIT))

  const SETTLE_ALL := SettleRequest("", "", "", true, true, true, [])

  /** The closeout candidate is proposed and then approved with the links. */
  function Crowding(): Stores {
    var proposed := Propose(EmptyStores(map["T-1" := CLOSED]), "T-1", ANSWERING).0;
    ReviewCandidate(proposed, TicketCandidateId(CLOSED, "closeout"), APPROVE_WITH_LINKS, 2).0
  }

  lemma PlainWords()
    ensures Strip("T-1") == "T-1" && Strip("ticket") == "ticket" && Lower("ticket") == "ticket"
    ensures Strip("validated") == "validated" && Lower("validated") == "validated"
    ensures Strip("approved") == "approved" && Lower("approved") == "approved"
  {
    assert Trimmed("T-1");
    StripFacts("T-1");
    hide Strip, Lower;
    assert Word("ticket") && Word("validated") && Word("approved");
    WordNormal("ticket");
    WordNormal("validated");
    WordNormal("approved");
  }

  lemma LinkWords()
    ensures Strip("supersedes") == "supersedes" && DashToUnderscore(Lower(Strip("supersedes"))) == "supersedes"
  {
    assert Trimmed("supersedes");
    StripFacts("supersedes");
    SmallLettersNormal("supersedes");
  }

  lemma DecimalTrimmed(i: nat)
    ensures Decimal(i) != "" && Trimmed(Decimal(i)) && Strip(Decimal(i)) == Decimal(i)
  {
    DecimalFacts(i);
    StripFacts(Decimal(i));
  }

  lemma LinkEligible(i: nat, id: string)
    ensures Eligible(Supersedes(i)) && Sent(id, Supersedes(i), ANSWERING) == "asset-relationship-" + Decimal(i)
  {
    hide Strip, Lower, DashToUnderscore, Decimal;
    LinkWords();
    DecimalTrimmed(i);
    var o := Supersedes(i);
    assert Get(o, "type") == JStr("supersedes") && Get(o, "target_asset_id") == JStr(Decimal(i));
    assert RelationshipType(o) == "supersedes";
    assert RelationshipTarget(o) == Decimal(i);
    PrefixTrimmed("asset-relationship-", Decimal(i));
  }

  lemma TicketLinkIneligible()
    ensures !Eligible(FROM_TICKET)
  {
    hide Strip, Lower, DashToUnderscore;
    PlainWords();
    assert Get(FROM_TICKET, "target_asset_id") == JNull && Get(FROM_TICKET, "target_kind") == JStr("ticket");
    assert RelationshipTarget(FROM_TICKET) == "";
  }

  lemma DecimalsDiffer(i: nat, j: nat)
    requires "asset-relationship-" + Decimal(i) == "asset-relationship-" + Decimal(j)
    ensures i == j
  {
    DecimalFacts(i);
    DecimalFacts(j);
    var prefix := "asset-relationship-";
    assert Decimal(i) == (prefix + Decimal(i))[|prefix|..] == (prefix + Decimal(j))[|prefix|..] == Decimal(j);
  }

  ghost predicate ExampleRelations(relations: seq<Object>) {
    && |relations| == 1 + AUDIT_LIMIT && relations[0] == FROM_TICKET
    && forall k :: 0 < k < |relations| ==> relations[k] == Supersedes(k - 1)
  }

  lemma LinkAt(id: string, relations: seq<Object>, k: nat)
    requires ExampleRelations(relations) && k < |relations|
    ensures Eligible(relations[k]) <==> k > 0
    ensures k > 0 ==> Sent(id, relations[k], ANSWERING) == "asset-relationship-" + Decimal(k - 1)
  {
    hide Eligible, Sent, Decimal, Supersedes;
    TicketLinkIneligible();
    if k > 0 {
      LinkEligible(k - 1, id);
    }
  }

  lemma LinksCounted(relations: seq<Object>)
    requires ExampleRelations(relations)
    ensures |Filter(Eligible, relations)| == AUDIT_LIMIT
  {
    hide Eligible, Supersedes;
    var links := relations[1..];
    forall x | x in links ensures Eligible(x) {
      var i :| 0 <= i < |links| && links[i] == x;
      LinkAt("", relations, i + 1);
    }
    FilterAll(Eligible, links);
    TicketLinkIneligible();
    assert Filter(Eligible, relations) == Filter(Eligible, links);
  }

  lemma LinksApart(id: string, relations: seq<Object>)
    requires ExampleRelations(relations)
    ensures Apart(id, relations, ANSWERING)
  {
    hide Eligible, Sent, Decimal, Supersedes;
    forall i, j | 0 <= i < j < |relations| && Eligible(relations[i]) && Eligible(relations[j])
      ensures Sent(id, relations[i], ANSWERING) != Sent(id, relations[j], ANSWERING)
    {
      LinkAt(id, relations, i);
      LinkAt(id, relations, j);
      if Sent(id, relations[i], ANSWERING) == Sent(id, relations[j], ANSWERING) {
        DecimalsDiffer(i - 1, j - 1);
      }
    }
  }

  lemma LinksElsewhere(id: string, relations: seq<Object>)
    requires ExampleRelations(relations) && id != "" && id[0] == 't'
    ensures !Told(id, relations, ANSWERING, id)
  {
    hide Eligible, Sent, Decimal, Supersedes;
    forall i | 0 <= i < |relations| && Eligible(relations[i]) ensures Sent(id, relations[i], ANSWERING) != id {
      LinkAt(id, relations, i);
      assert ("asset-relationship-" + Decimal(i - 1))[0] == 'a';
    }
  }

  /** A record with the Ticket's reference and the 100 links is crowded. */
  lemma LinkedIsCrowded(a: AssetRecord)
    requires ExampleRelations(a.relationships) && Strip(a.id) == a.id && a.id != "" && a.id[0] == 't'
    ensures Crowded(a, ANSWERING)
  {
    hide Eligible, Sent, Strip, Filter, Apart, Told, ExampleRelations;
    LinksCounted(a.relationships);
    LinksApart(a.id, a.relationships);
    LinksElsewhere(a.id, a.relationships);
  }

  lemma SortOne<T>(key: T -> int, x: T)
    ensures SortBy(key, [x]) == [x]
  {
    assert [x][1..] == [];
  }

  lemma UpsertFirst<T>(id: T -> string, time: T -> int, x: T)
    ensures Upsert(id, time, [], x) == [x]
  {
    SortOne(time, x);
    assert [] + [x] == [x];
  }

  // the stores of the example, step by step

  function Proposed(): Candidate { Fresh(CLOSED, "closeout", "ticket_closeout", ANSWERING) }

  lemma ClosedWords(t: Ticket)
    requires CloseoutWords(t) == [("closeout", "ticket_closeout")]
    ensures CloseoutCandidates(t, ANSWERING) == [Fresh(t, "closeout", "ticket_closeout", ANSWERING)]
  {
  }

  lemma AfterProposal()
    ensures var (s, r) := Propose(EmptyStores(map["T-1" := CLOSED]), "T-1", ANSWERING);
            && Inv(s) && s.candidates == [Proposed()] && s.assets == [] && s.reviews == [] && s.attempts == []
            && "T-1" in s.tickets && CloseoutReady(s.tickets["T-1"]) && ReportIdsOk(s.tickets["T-1"].reports)
            && s.tickets["T-1"].id == "T-1" && CloseoutWords(s.tickets["T-1"]) == [("closeout", "ticket_closeout")]
  {
    hide Strip, Lower, SafeRef, Inv, CloseoutReady;
    PlainWords();
    var s0 := EmptyStores(map["T-1" := CLOSED]);
    assert Inv(s0) by { EmptyOk(map["T-1" := CLOSED]); }
    assert CloseoutReady(CLOSED) by { ClosedReady(); }
    assert CloseoutWords(CLOSED) == [("closeout", "ticket_closeout")] by { NoReports(CLOSED); }
    ProposeEffect(s0, "T-1", ANSWERING);
    ClosedWords(CLOSED);
    var (s1, kept) := ProposeFold(s0, CloseoutCandidates(CLOSED, ANSWERING));
    ProposedFirst(s0);
    var refs := IdRefs(Ids(kept));
    PresentPlain(kept);
    ReportedTicket(CLOSED, CLOSEOUT, refs, SetOf(refs), ANSWERING);
  }

  lemma EmptyOk(tickets: map<string, Ticket>)
    ensures Inv(EmptyStores(tickets))
  {
  }

  lemma ClosedReady()
    ensures CloseoutReady(CLOSED)
  {
    PlainWords();
    hide Strip, Lower;
  }

  lemma NoReports(t: Ticket)
    requires t.reports == []
    ensures CloseoutWords(t) == [("closeout", "ticket_closeout")]
  {
  }

  lemma ProposedFirst(s: Stores)
    requires s.candidates == []
    ensures ProposeFold(s, [Proposed()]) == (s.(candidates := [Proposed()]), [Proposed()])
  {
    hide Fresh;
    var c := Proposed();
    UpsertFirst(CandidateId, CandidateTime, c);
    assert [c][..0] == [] && [] + [c] == [c];
    assert ProposeFold(s, []) == (s, []);
  }

  lemma PresentPlain(kept: seq<Candidate>)
    requires kept == [Proposed()]
    ensures PlainRefs(SetOf(IdRefs(Ids(kept))))
  {
    hide Strip, SafeRef;
    TicketCandidateIdPlain(CLOSED, "closeout");
    assert kept[..0] == [];
    assert Ids(kept) == [TicketCandidateId(CLOSED, "closeout")];
    RefsPlain("asset-candidate:", Ids(kept));
  }

  /** The record the approval makes. */
  ghost predicate ExampleRecord(a: AssetRecord) {
    ReadyToSend(a) && Crowded(a, ANSWERING) && Strip(a.id) == a.id
  }

  ghost predicate ExampleStores(s: Stores, c: Candidate, a: AssetRecord) {
    && Inv(s) && s.candidates == [c] && s.assets == [a] && s.attempts == [] && ExampleRecord(a)
    && c.id == TicketCandidateId(CLOSED, "closeout") && c.status == "approved" && c.reviewState == "approved"
    && a.id == AssetIdFromCandidate(c)
    && "T-1" in s.tickets && CloseoutReady(s.tickets["T-1"]) && ReportIdsOk(s.tickets["T-1"].reports)
    && s.tickets["T-1"].id == "T-1" && CloseoutWords(s.tickets["T-1"]) == [("closeout", "ticket_closeout")]
  }

  lemma ApprovedExample() returns (c: Candidate, a: AssetRecord)
    ensures ExampleStores(Crowding(), c, a)
  {
    hide Strip, Lower, SafeRef, Inv, CloseoutReady, Fresh, ReviewCandidate, Propose, CloseoutWords, AssetFromCandidate,
         NormalizeReviewStatus, ExampleRecord, Crowded, Grows;
    AfterProposal();
    var s := Propose(EmptyStores(map["T-1" := CLOSED]), "T-1", ANSWERING).0;
    var cid := TicketCandidateId(CLOSED, "closeout");
    TicketCandidateIdPlain(CLOSED, "closeout");
    ApprovedNormal();
    ProposedIs();
    c, a := ApprovedCandidate(), ApprovedAsset();
    ApprovedLists(s);
    ReviewKeeps(s, cid, APPROVE_WITH_LINKS, 2);
    ApprovedRecordReady();
  }

  function ApprovedCandidate(): Candidate { ReviewedCandidate(Proposed(), "approved", APPROVE_WITH_LINKS, 2) }

  function ApprovedAsset(): AssetRecord {
    AssetFromCandidate(ApprovedCandidate(), ReviewOf(ApprovedCandidate(), 0, APPROVE_WITH_LINKS, 2), 2)
  }

  lemma ProposedIs()
    ensures var c := Proposed();
            && c.id == TicketCandidateId(CLOSED, "closeout") && c.assetType == "ticket_closeout"
            && c.assetId == "ticket-closeout-" + SafeRef("T-1") && c.descriptor.content == "content"
            && c.relationships == [FROM_TICKET]
  {
    PlainWords();
    hide Strip, SafeRef, Lower, TicketCandidateId;
    var d := ANSWERING.draft(CLOSED, "closeout");
    assert d.descriptor.content == "content" && d.relationships == [FROM_TICKET];
  }

  /** What the review leaves in the three lists. */
  lemma ApprovedLists(s: Stores)
    requires s.candidates == [Proposed()] && s.assets == [] && s.reviews == []
    ensures var t := ReviewCandidate(s, TicketCandidateId(CLOSED, "closeout"), APPROVE_WITH_LINKS, 2).0;
            && t.candidates == [ApprovedCandidate()] && t.assets == [ApprovedAsset()]
            && t.attempts == s.attempts && t.tickets == s.tickets
  {
    hide Strip, SafeRef, Fresh, ReviewedCandidate, ReviewOf, AssetFromCandidate, NormalizeReviewStatus, SortBy;
    TicketCandidateIdPlain(CLOSED, "closeout");
    ApprovedNormal();
    ProposedIs();
    var c := ApprovedCandidate();
    SortOne(CandidateTime, c);
    UpsertFirst(AssetId, AssetTime, ApprovedAsset());
    ReviewIsOf(c, 0, APPROVE_WITH_LINKS, 2);
    assert c.status == "approved" by { ApprovedFields(); }
    assert [Proposed()][0 := c] == [c];
  }

  lemma ApprovedFields()
    ensures var c := ApprovedCandidate();
            && c.status == "approved" && c.reviewState == "approved" && c.id == Proposed().id
            && c.assetId == Proposed().assetId && c.assetType == Proposed().assetType && c.descriptor == Proposed().descriptor
            && c.relationships == [FROM_TICKET] + ManyLinks(AUDIT_LIMIT)
  {
    hide Strip, SafeRef, AssetIdFromCandidate, Fresh, ManyLinks;
    ProposedIs();
  }

  lemma ApprovedRecordReady()
    ensures ExampleRecord(ApprovedAsset())
    ensures ApprovedAsset().id == AssetIdFromCandidate(ApprovedCandidate())
    ensures ApprovedCandidate().status == "approved" && ApprovedCandidate().reviewState == "approved"
    ensures ApprovedCandidate().id == TicketCandidateId(CLOSED, "closeout")
  {
    hide Strip, Lower, SafeRef, Fresh, ReviewedCandidate, ReviewOf, Crowded, Supersedes;
    ApprovedFields();
    ProposedIs();
    PlainWords();
    SafeRefFacts("T-1");
    PrefixTrimmed("ticket-closeout-", SafeRef("T-1"));
    var a := ApprovedAsset();
    assert a.id == "ticket-closeout-" + SafeRef("T-1");
    assert ExampleRelations(a.relationships);
    LinkedIsCrowded(a);
  }

  /** The same settlement without projecting names the record. */
  lemma ExamplePlan(s: Stores, c: Candidate, a: AssetRecord)
    requires ExampleStores(s, c, a)
    ensures var (d, plan) := Settle(s, "T-1", SETTLE_ALL.(project := false), ANSWERING);
            plan.Ok? && plan.value.assetIds == [a.id] && d.assets == [a]
  {
    hide Strip, Lower, SafeRef, Inv, CloseoutReady, Fresh, CloseoutWords, ExampleRecord, AssetIdFromCandidate, ReportOnce;
    PlainWords();
    var t := s.tickets["T-1"];
    var draft := Fresh(t, "closeout", "ticket_closeout", ANSWERING);
    ClosedWords(t);
    DraftId(t);
    var dry := SETTLE_ALL.(project := false);
    FirstSettlement(s, "T-1", dry, ANSWERING);
    KeptApproved(s, draft, c);
    var (s1, p) := Propose(s, "T-1", ANSWERING);
    assert p.value.candidates == [c] && s1.candidates == [c] && s1.assets == [a];
    ApprovedSelected(s1, c, dry);
    OneTargetId(c, a);
  }

  lemma DraftId(t: Ticket)
    requires t.id == "T-1"
    ensures Fresh(t, "closeout", "ticket_closeout", ANSWERING).id == TicketCandidateId(CLOSED, "closeout")
  {
    hide Strip, SafeRef;
  }

  lemma KeptApproved(s: Stores, draft: Candidate, c: Candidate)
    requires s.candidates == [c] && c.id == draft.id && c.status == "approved"
    ensures ProposeFold(s, [draft]) == (s, [c])
  {
    assert [draft][..0] == [] && [] + [c] == [c];
    assert Lookup(CandidateId, s.candidates, draft.id) == Some(c);
  }

  lemma ApprovedSelected(s: Stores, c: Candidate, req: SettleRequest)
    requires c.status == "approved" && c.reviewState == "approved" && req.assetTypes == []
    ensures SelectByType([c], req.assetTypes) == [c] && Ids([c]) == [c.id]
    ensures SettleApproval(s, [c], req, ANSWERING).0 == s && SettleApproval(s, [c], req, ANSWERING).1.Ok?
  {
    hide Strip, Lower;
    assert [c][..0] == [];
    FilterOne(AwaitingReview, c);
  }

  lemma OneTargetId(c: Candidate, a: AssetRecord)
    requires c.status == "approved" && a.id == AssetIdFromCandidate(c)
    ensures Filter(WithId([c.id]), [c]) == [c] && SettlementAssetIds([c], [a]) == [a.id]
  {
    hide AssetIdFromCandidate;
    FilterOne(WithId([c.id]), c);
    assert [c][..0] == [];
    assert FirstMatch(c, [a]) == Some(a);
    assert SettlementAssetIds([], [a]) == [];
    assert [] + [a.id] == [a.id];
  }

  /** The input: a closed Ticket whose closeout candidate was approved with 100 links. Settling it projects the record
      and every link with success, and repeating the call, once or more, asks Graphiti again whatever it answers. */
  lemma {:induction false} SettlementNeverConverges(later: seq<Env>)
    requires later != []
    ensures var (t, r) := Settle(Crowding(), "T-1", SETTLE_ALL, ANSWERING);
            && r.Ok? && |r.value.projections| == 1 && r.value.projections[0].status == "ingested" && !r.value.projections[0].error
            && Fold(SettleStep("T-1", SETTLE_ALL), t, later).attempts != t.attempts
  {
    hide Strip, Lower, Inv, CloseoutReady, CloseoutWords, Settle, Crowding, Crowded, ReadyToSend, Fold;
    var c, a := ApprovedExample();
    PlainWords();
    ExamplePlan(Crowding(), c, a);
    assert Lookup(AssetId, [a], a.id) == Some(a);
    CrowdedNeverConverges(Crowding(), "T-1", SETTLE_ALL, ANSWERING, later);
  }
}
