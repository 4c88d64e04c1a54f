/** What projecting a record and its relationships leaves behind, told without the code that does it. */
module ProjectionOutcomes {
  import opened Text
  import opened Json
  import opened StableSort
  import opened Keyed
  import opened RegistryModel
  import opened RegistryInvariants
  import opened Projection

  // ---- the audit ----

  /** The attempt succeeded for the id, whatever blanks are around either. */
  ghost predicate SucceededFor(a: Attempt, id: string) { a.graphiti.status == "ingested" && Strip(a.assetId) == Strip(id) }

  /** The latest success for the id that the audit holds. */
  ghost predicate LatestSuccess(audit: seq<Attempt>, i: int, id: string) {
    0 <= i < |audit| && SucceededFor(audit[i], id) && forall j :: i < j < |audit| ==> !SucceededFor(audit[j], id)
  }

  ghost predicate NoSuccess(audit: seq<Attempt>, id: string) { forall i :: 0 <= i < |audit| ==> !SucceededFor(audit[i], id) }

  lemma AuditSays(audit: seq<Attempt>, id: string)
    ensures AuditedIngestion(audit, id).None? <==> NoSuccess(audit, id)
    ensures forall i :: 0 <= i < |audit| && LatestSuccess(audit, i, id) ==> AuditedIngestion(audit, id) == Some(audit[i].graphiti)
  {
    NoneAudited(audit, id);
    hide Strip, LatestSuccess, AuditedIngestion;
    forall i | 0 <= i < |audit| && LatestSuccess(audit, i, id) ensures AuditedIngestion(audit, id) == Some(audit[i].graphiti) {
      LatestAudited(audit, i, id);
    }
  }

  lemma {:induction false} NoneAudited(audit: seq<Attempt>, id: string)
    ensures AuditedIngestion(audit, id).None? <==> NoSuccess(audit, id)
  {
    hide Strip;
    if audit != [] {
      var n := |audit| - 1;
      NoneAudited(audit[..n], id);
      assert forall i :: 0 <= i < n ==> audit[..n][i] == audit[i];
    }
  }

  lemma {:induction false} LatestAudited(audit: seq<Attempt>, i: nat, id: string)
    requires LatestSuccess(audit, i, id)
    ensures AuditedIngestion(audit, id) == Some(audit[i].graphiti)
  {
    hide Strip;
    var n := |audit| - 1;
    if i < n {
      assert LatestSuccess(audit[..n], i, id);
      LatestAudited(audit[..n], i, id);
    }
  }

  /** One attempt more: the audit keeps the last 100. */
  ghost predicate Attempted(s: Stores, t: Stores, id: string, g: GraphitiStatus) {
    && t.attempts == s.attempts + [Attempt(Strip(id), g)]
    && (|s.audit| < 100 ==> t.audit == s.audit + [Attempt(Strip(id), g)])
    && (|s.audit| == 100 ==> t.audit == s.audit[1..] + [Attempt(Strip(id), g)])
  }

  lemma IngestAttempts(s: Stores, id: string, env: Env)
    requires |s.audit| <= 100
    ensures var (t, g) := Ingest(s, id, env);
            && Attempted(s, t, id, g) && g == env.graphiti(|s.attempts|) && t == s.(audit := t.audit, attempts := t.attempts)
  {
    hide Strip;
    var attempt := Attempt(Strip(id), env.graphiti(|s.attempts|));
    assert |s.audit| == 100 ==> (s.audit + [attempt])[1..] == s.audit[1..] + [attempt];
  }

  // ---- projecting a record ----

  /** `b` is `a` with the mark of answer `g`: when and what, and a reference to the episode unless it is there. */
  ghost predicate MarkedWith(a: AssetRecord, b: AssetRecord, g: GraphitiStatus, now: Time) {
    var refs := if Get(a.provenance, "provider_refs").JArr? then Get(a.provenance, "provider_refs").items else [];
    var ref := JObj(map["provider" := JStr("graphiti"), "provider_ref" := JStr(Strip(g.episodeId)),
                        "source_kind" := JStr("asset_graph_projection"), "status" := JStr(g.status)]);
    && b == a.(provenance := b.provenance, updatedAt := now)
    && Get(b.provenance, "graphiti_projected_at") == JInt(now)
    && Get(b.provenance, "graphiti_status") == JObj(map["status" := JStr(g.status), "episode_id" := JStr(g.episodeId)])
    && Get(b.provenance, "provider_refs") == JArr(if Strip(g.episodeId) == "" || ref in refs then refs else refs + [ref])
    && forall k :: k !in {"graphiti_projected_at", "graphiti_status", "provider_refs"} ==>
         (k in b.provenance <==> k in a.provenance) && Get(b.provenance, k) == Get(a.provenance, k)
  }

  lemma ProjectionMarks(a: AssetRecord, g: GraphitiStatus, now: Time)
    ensures MarkedWith(a, MarkedProjection(a, g, now), g, now)
  {
    hide Strip;
  }

  /** The record was saved with its mark, and no other record changed. */
  ghost predicate MarkSaved(s: Stores, t: Stores, a: AssetRecord, g: GraphitiStatus, now: Time) {
    exists b :: MarkedWith(a, b, g, now) && OneSaved(s, t, b)
  }

  lemma MarkIsSaved(s: Stores, s1: Stores, a: AssetRecord, g: GraphitiStatus, now: Time)
    requires Distinct(AssetId, s.assets) && s1.assets == s.assets
    ensures MarkSaved(s, UpsertAsset(s1, MarkedProjection(a, g, now)), a, g, now)
  {
    ProjectionMarks(a, g, now);
    hide MarkedWith, Upsert;
    UpsertIsMapUpdate(AssetId, AssetTime, s.assets, MarkedProjection(a, g, now));
  }

  ghost predicate MayProject(a: AssetRecord) { Lower(Strip(a.status)) in {"approved", "accepted", "validated"} }

  /** A projection of a record the audit knows asks nothing and marks the record with the latest answer; any other record
      with an id, a type and content is sent, and marked when Graphiti takes it. */
  ghost predicate RecordProjected(s: Stores, t: Stores, a: AssetRecord, out: Result<RegistryModel.Projection>, env: Env) {
    if !NoSuccess(s.audit, a.id) then
      exists i :: LatestSuccess(s.audit, i, a.id) && 0 <= i < |s.audit|
        && out == Ok(RegistryModel.Projection.Projection(a.id, "skipped", s.audit[i].graphiti.episodeId))
        && t == s.(assets := t.assets) && MarkSaved(s, t, a, s.audit[i].graphiti, env.now)
    else if a.id == "" || a.assetType == "" || a.descriptor.content == "" then out == ValueError && t == s
    else
      var g := env.graphiti(|s.attempts|);
      && Attempted(s, t, a.id, g)
      && if g.status == "ingested"
         then && out == Ok(RegistryModel.Projection.Projection(a.id, "ingested", g.episodeId)) && MarkSaved(s, t, a, g, env.now)
              && t == s.(assets := t.assets, audit := t.audit, attempts := t.attempts)
         else out == ValueError && t == s.(audit := t.audit, attempts := t.attempts)
  }

  lemma {:induction false} SomeLatest(audit: seq<Attempt>, id: string) returns (i: nat)
    requires !NoSuccess(audit, id)
    ensures i < |audit| && LatestSuccess(audit, i, id)
  {
    hide Strip;
    var n := |audit| - 1;
    if SucceededFor(audit[n], id) {
      i := n;
    } else {
      var k :| 0 <= k < |audit| && SucceededFor(audit[k], id);
      assert SucceededFor(audit[..n][k], id);
      i := SomeLatest(audit[..n], id);
      assert audit[..n][i] == audit[i] && forall j :: i < j < n ==> audit[j] == audit[..n][j];
    }
  }

  lemma RecordIsProjected(s: Stores, a: AssetRecord, env: Env)
    requires Distinct(AssetId, s.assets) && |s.audit| <= 100
    ensures var (t, out) := ProjectRecord(s, a, env); RecordProjected(s, t, a, out, env)
  {
    AuditSays(s.audit, a.id);
    hide AuditedIngestion, MarkedProjection, Upsert, LatestSuccess, NoSuccess, Attempted, MarkSaved, Strip;
    if !NoSuccess(s.audit, a.id) {
      var i := SomeLatest(s.audit, a.id);
      MarkIsSaved(s, s, a, s.audit[i].graphiti, env.now);
    } else if ValidIngestRequest(a) {
      RecordIsSent(s, a, env);
    }
  }

  lemma RecordIsSent(s: Stores, a: AssetRecord, env: Env)
    requires Distinct(AssetId, s.assets) && |s.audit| <= 100 && ValidIngestRequest(a) && AuditedIngestion(s.audit, a.id).None?
    requires NoSuccess(s.audit, a.id)
    ensures var (t, out) := ProjectRecord(s, a, env); RecordProjected(s, t, a, out, env)
  {
    hide AuditedIngestion, MarkedProjection, Upsert, LatestSuccess, NoSuccess, Attempted, MarkSaved, Strip, Ingest;
    IngestAttempts(s, a.id, env);
    var (s1, g) := Ingest(s, a.id, env);
    var t := ProjectRecord(s, a, env).0;
    if Ingested(g) {
      MarkIsSaved(s, s1, a, g, env.now);
      assert t == UpsertAsset(s1, MarkedProjection(a, g, env.now));
      SameAttempted(s, s1, t, a.id, g);
    } else {
      assert t == s1;
    }
  }

  lemma SameAttempted(s: Stores, t: Stores, u: Stores, id: string, g: GraphitiStatus)
    requires Attempted(s, t, id, g) && u.attempts == t.attempts && u.audit == t.audit
    ensures Attempted(s, u, id, g)
  {
  }

  /** A projection fails for an unknown id and for a record that is not approved, accepted or validated; what it does
      otherwise is told by `RecordProjected`. */
  lemma ProjectionOutcome(s: Stores, assetId: string, env: Env)
    requires Inv(s)
    ensures var (t, out) := ProjectAsset(s, assetId, env);
            match Lookup(AssetId, s.assets, Strip(assetId))
            case None => out == KeyError(Strip(assetId)) && t == s
            case Some(a) => if MayProject(a) then RecordProjected(s, t, a, out, env) else out == ValueError && t == s
  {
    assert |s.audit| <= 100 && Distinct(AssetId, s.assets);
    hide Inv, RecordProjected, ProjectRecord, Strip, Lower, Lookup;
    var found := Lookup(AssetId, s.assets, Strip(assetId));
    if found.Some? {
      RecordIsProjected(s, found.value, env);
    }
  }

  // ---- what a relationship says ----

  /** The first of two values that is a text of more than blanks, without the blanks around it; "" when neither is. */
  ghost predicate GivenText(a: Json, b: Json, r: string) {
    if a.JStr? && Strip(a.s) != "" then r == Strip(a.s)
    else if b.JStr? then r == Strip(b.s)
    else r == ""
  }

  lemma AliasedTypes(word: string)
    ensures var t := Alias(word, RELATIONSHIP_ALIASES);
            && (t == "derived_from" <==> word in {"derived_from", "derived_from_ticket", "derived_from_asset", "reviewed_candidate"})
            && (t == "used_by" <==> word in {"used_by", "used_by_ticket"})
            && (t == "validated_by" <==> word in {"validated_by", "validated_by_ticket"})
            && (t !in {"derived_from", "used_by", "validated_by"} ==> t == word)
  {
    if word in RELATIONSHIP_ALIASES {
      assert word in {"derived_from_ticket", "derived_from_asset", "reviewed_candidate", "used_by_ticket", "validated_by_ticket"};
    }
  }

  /** The five types Graphiti knows, and the words that stand for three of them; case and dashes do not matter. */
  lemma RelationWords(o: Object, raw: string)
    requires GivenText(Get(o, "type"), Get(o, "relationship_type"), raw)
    ensures var word, t := DashToUnderscore(Lower(raw)), RelationshipType(o);
            && (t == "derived_from" <==> word in {"derived_from", "derived_from_ticket", "derived_from_asset", "reviewed_candidate"})
            && (t == "used_by" <==> word in {"used_by", "used_by_ticket"})
            && (t == "validated_by" <==> word in {"validated_by", "validated_by_ticket"})
            && (t !in {"derived_from", "used_by", "validated_by"} ==> t == word)
  {
    GivenStripped(Get(o, "type"), Get(o, "relationship_type"), raw);
    hide Strip, Lower, DashToUnderscore, Alias, GivenText, FirstText;
    AliasedTypes(DashToUnderscore(Lower(raw)));
  }

  lemma GivenStripped(a: Json, b: Json, r: string)
    requires GivenText(a, b, r)
    ensures Strip(r) == r && r == FirstText(a, b)
  {
    if a.JStr? {
      StripTwice(a.s);
    }
    if b.JStr? {
      StripTwice(b.s);
    }
    StripFacts("");
    hide Strip;
  }

  /** The Asset a relationship leads to: the one it names outright, or its target when that is said to be an Asset. */
  lemma RelationTarget(o: Object, kind: string, target: string)
    requires GivenText(Get(o, "target_kind"), Get(o, "target_type"), kind)
    requires GivenText(Get(o, "target_ref"), Get(o, "target"), target)
    ensures RelationshipTarget(o) ==
            if Get(o, "target_asset_id").JStr? && Strip(Get(o, "target_asset_id").s) != "" then Strip(Get(o, "target_asset_id").s)
            else if Lower(kind) in {"asset", "asset_record", "asset_registry"} then target
            else ""
  {
    GivenStripped(Get(o, "target_kind"), Get(o, "target_type"), kind);
    GivenStripped(Get(o, "target_ref"), Get(o, "target"), target);
    hide Strip, Lower;
  }

  lemma EligibleExactly(o: Object)
    ensures Eligible(o) <==>
            && RelationshipType(o) in {"supersedes", "conflicts_with", "derived_from", "used_by", "validated_by"}
            && RelationshipTarget(o) != ""
  {
  }

  // ---- projecting relationships ----

  /** The confirmed relationships are the eligible ones, in order, each under its id. */
  ghost predicate ConfirmsEligible(a: AssetRecord, relations: seq<Object>, r: Relating, env: Env) {
    var eligible := Filter(Eligible, relations);
    && |r.confirmed| == |eligible| && r.unsupported + |eligible| == |relations|
    && forall i :: 0 <= i < |eligible| ==>
         && r.confirmed[i].relation == eligible[i]
         && r.confirmed[i].relationshipId ==
            "asset-relationship-" + env.relationshipKey(a.id, RelationshipType(eligible[i]), RelationshipTarget(eligible[i]))
  }

  /** The attempts for the relationships that were sent, in order. */
  function SentAttempts(confirmed: seq<Confirmed>): seq<(string, string)> {
    if confirmed == [] then [] else
      var c := confirmed[|confirmed| - 1];
      SentAttempts(confirmed[..|confirmed| - 1]) + if c.ingestedNow then [(Strip(c.relationshipId), c.episodeId)] else []
  }

  ghost predicate SentInOrder(s: Stores, t: Stores, confirmed: seq<Confirmed>) {
    var sent := SentAttempts(confirmed);
    && |t.attempts| == |s.attempts| + |sent| && s.attempts <= t.attempts
    && forall i :: 0 <= i < |sent| ==>
         t.attempts[|s.attempts| + i] == Attempt(sent[i].0, GraphitiStatus("ingested", sent[i].1))
  }

  /** Graphiti refused the last attempt. */
  ghost predicate LastRefused(t: Stores) { t.attempts != [] && t.attempts[|t.attempts| - 1].graphiti.status != "ingested" }

  lemma {:induction false} RelationsConfirmed(s: Stores, a: AssetRecord, relations: seq<Object>, env: Env)
    ensures var (t, out) := RelateFold(s, a, relations, env);
            && (out.Ok? ==> ConfirmsEligible(a, relations, out.value, env) && SentInOrder(s, t, out.value.confirmed))
            && (!out.Ok? ==> out == ValueError && (a.id == "" || (t.attempts != s.attempts && LastRefused(t))))
            && s.attempts <= t.attempts
            && (a.id == "" ==> t == s && (out.Ok? <==> Filter(Eligible, relations) == []))
  {
    hide Eligible, Strip, RelationshipType, RelationshipTarget, AuditedIngestion;
    if relations != [] {
      var n := |relations| - 1;
      RelationsConfirmed(s, a, relations[..n], env);
      FilterLast(Eligible, relations);
      var (s1, before) := RelateFold(s, a, relations[..n], env);
      if before.Ok? {
        OneConfirmed(s, s1, a, relations[n], before.value, env);
      }
    }
  }

  /** One more relationship. */
  lemma OneConfirmed(s: Stores, s1: Stores, a: AssetRecord, o: Object, acc: Relating, env: Env)
    requires SentInOrder(s, s1, acc.confirmed)
    ensures var (t, out) := RelateOne(s1, a, o, acc, env);
            && (!Eligible(o) ==> out == Ok(acc.(unsupported := acc.unsupported + 1)))
            && (Eligible(o) && out.Ok? ==>
                  && |out.value.confirmed| == |acc.confirmed| + 1 && out.value.confirmed[..|acc.confirmed|] == acc.confirmed
                  && out.value.unsupported == acc.unsupported
                  && out.value.confirmed[|acc.confirmed|].relation == o
                  && out.value.confirmed[|acc.confirmed|].relationshipId ==
                     "asset-relationship-" + env.relationshipKey(a.id, RelationshipType(o), RelationshipTarget(o)))
            && (out.Ok? ==> SentInOrder(s, t, out.value.confirmed))
            && (!out.Ok? ==> out == ValueError && (a.id == "" || (t.attempts != s.attempts && LastRefused(t))))
            && s.attempts <= t.attempts
            && (a.id == "" ==> t == s1 && (out.Ok? <==> !Eligible(o)))
  {
    hide Eligible, Strip, RelationshipType, RelationshipTarget, AuditedIngestion;
    var (t, out) := RelateOne(s1, a, o, acc, env);
    if out.Ok? && Eligible(o) {
      var c := out.value.confirmed[|acc.confirmed|];
      assert out.value.confirmed[..|acc.confirmed|] == acc.confirmed;
      assert SentAttempts(out.value.confirmed)
          == SentAttempts(acc.confirmed) + if c.ingestedNow then [(Strip(c.relationshipId), c.episodeId)] else [];
    }
  }

  /** A success for the id that the audit held, or that came with an attempt made since. */
  ghost predicate AuditedSince(s: Stores, t: Stores, id: string, episodeId: string) {
    && s.attempts <= t.attempts
    && exists x :: (x in s.audit || x in t.attempts[|s.attempts|..]) && SucceededFor(x, id) && x.graphiti.episodeId == episodeId
  }

  ghost predicate SkippedAudited(s: Stores, t: Stores, confirmed: seq<Confirmed>) {
    forall c :: c in confirmed && !c.ingestedNow ==> AuditedSince(s, t, c.relationshipId, c.episodeId)
  }

  /** The audit holds nothing but what it held and the attempts made since. */
  ghost predicate AuditWithin(s: Stores, t: Stores) {
    s.attempts <= t.attempts && forall x :: x in t.audit ==> x in s.audit || x in t.attempts[|s.attempts|..]
  }

  /** A relationship is skipped only with the episode of an attempt that succeeded for it. */
  lemma {:induction false} SkippedWereAudited(s: Stores, a: AssetRecord, relations: seq<Object>, env: Env)
    ensures var (t, out) := RelateFold(s, a, relations, env);
            AuditWithin(s, t) && (out.Ok? ==> SkippedAudited(s, t, out.value.confirmed))
  {
    hide Strip;
    if relations != [] {
      hide RelateOne, SkippedAudited;
      var n := |relations| - 1;
      SkippedWereAudited(s, a, relations[..n], env);
      var (s1, before) := RelateFold(s, a, relations[..n], env);
      if before.Ok? {
        OneSkipped(s, s1, a, relations[n], before.value, env);
      }
    }
  }

  lemma OneSkipped(s: Stores, s1: Stores, a: AssetRecord, o: Object, acc: Relating, env: Env)
    requires AuditWithin(s, s1) && SkippedAudited(s, s1, acc.confirmed)
    ensures var (t, out) := RelateOne(s1, a, o, acc, env);
            AuditWithin(s, t) && (out.Ok? ==> SkippedAudited(s, t, out.value.confirmed))
  {
    hide Strip, Eligible, RelationshipId, AuditedIngestion, SucceededFor;
    var (t, out) := RelateOne(s1, a, o, acc, env);
    var rid := RelationshipId(a.id, o, env);
    AuditStaysWithin(s, s1, rid, env);
    FoundInAudit(s1.audit, rid);
    if out.Ok? {
      forall c | c in out.value.confirmed && !c.ingestedNow ensures AuditedSince(s, t, c.relationshipId, c.episodeId) {
        if c in acc.confirmed {
          assert AuditedSince(s, s1, c.relationshipId, c.episodeId);
        } else {
          assert AuditedIngestion(s1.audit, rid).Some? && c.relationshipId == rid;
        }
      }
    }
  }

  lemma AuditStaysWithin(s: Stores, s1: Stores, id: string, env: Env)
    requires AuditWithin(s, s1)
    ensures AuditWithin(s, Ingest(s1, id, env).0)
    ensures forall x :: x in s1.attempts[|s.attempts|..] ==> x in Ingest(s1, id, env).0.attempts[|s.attempts|..]
  {
    hide Strip;
    var t := Ingest(s1, id, env).0;
    var attempt := t.attempts[|s1.attempts|];
    assert t.attempts[|s.attempts|..] == s1.attempts[|s.attempts|..] + [attempt];
    assert forall x :: x in t.audit ==> x in s1.audit + [attempt];
  }

  lemma {:induction false} FoundInAudit(audit: seq<Attempt>, id: string)
    ensures var g := AuditedIngestion(audit, id);
            g.Some? ==> exists x :: x in audit && SucceededFor(x, id) && x.graphiti == g.value
  {
    hide Strip;
    if audit != [] {
      var n := |audit| - 1;
      if AuditedIngestion(audit, id).Some? && !SucceededFor(audit[n], id) {
        FoundInAudit(audit[..n], id);
        var x :| x in audit[..n] && SucceededFor(x, id) && x.graphiti == AuditedIngestion(audit, id).value;
        assert x in audit;
      }
    }
  }

  // ---- the marks of relationships ----

  /** A mark goes under its relationship's id, or else under its Asset id. */
  lemma MarkKeyExactly(o: Object, id: string)
    ensures id != "" && Get(o, "relationship_id") == JStr(id) ==> MarkKey(JObj(o)) == id
    ensures !Truthy(Get(o, "relationship_id")) && Get(o, "asset_id") == JStr(id) ==> MarkKey(JObj(o)) == id
    ensures !Truthy(Get(o, "relationship_id")) && !Truthy(Get(o, "asset_id")) ==> MarkKey(JObj(o)) == ""
  {
  }

  /** Putting a mark is updating a map that keeps its order. */
  lemma {:induction false} PutMarkLookup(marks: seq<Json>, key: string, mark: Json, k: string)
    requires MarkKey(mark) == key
    ensures Lookup(MarkKey, PutMark(marks, key, mark), k) == if k == key then Some(mark) else Lookup(MarkKey, marks, k)
  {
    hide MarkKey;
    if marks == [] {
      assert PutMark(marks, key, mark) == [mark] && [mark][1..] == [];
    } else if MarkKey(marks[0]) == key {
      assert PutMark(marks, key, mark) == [mark] + marks[1..];
    } else {
      PutMarkLookup(marks[1..], key, mark, k);
      assert PutMark(marks, key, mark) == [marks[0]] + PutMark(marks[1..], key, mark);
    }
  }

  /** What the mark of a confirmed relationship says; one that was skipped loses its type and its target. */
  ghost predicate MarkSays(m: Json, a: AssetRecord, c: Confirmed, now: Time) {
    && m.JObj? && Get(m.fields, "relationship_id") == JStr(Strip(c.relationshipId))
    && Get(m.fields, "relationship_type") == JStr(if c.ingestedNow then RelationshipType(c.relation) else "")
    && Get(m.fields, "target_asset_id") == JStr(if c.ingestedNow then RelationshipTarget(c.relation) else "")
    && Get(m.fields, "source_asset_id") == JStr(Strip(a.id))
    && Get(m.fields, "status") == JStr(if c.ingestedNow then "ingested" else "skipped")
    && Get(m.fields, "episode_id") == JStr(Strip(c.episodeId)) && Get(m.fields, "projected_at") == JInt(now)
  }

  /** No later relationship of the list has the same id. */
  ghost predicate LastOf(confirmed: seq<Confirmed>, i: int, key: string) {
    && 0 <= i < |confirmed| && Strip(confirmed[i].relationshipId) == key
    && forall j :: i < j < |confirmed| ==> Strip(confirmed[j].relationshipId) != key
  }

  lemma {:induction false} MarkOfLast(a: AssetRecord, marks: seq<Json>, confirmed: seq<Confirmed>, now: Time, i: int, key: string)
    requires key != "" && LastOf(confirmed, i, key)
    requires forall j :: 0 <= j < |confirmed| ==> Strip(confirmed[j].relationshipId) != ""
    ensures var found := Lookup(MarkKey, PutMarks(a, marks, confirmed, now), key);
            found.Some? && MarkSays(found.value, a, confirmed[i], now)
  {
    hide Strip, RelationshipType, RelationshipTarget, PutMark, Lookup, MarkSays, RelationshipMark, MarkKey;
    var n := |confirmed| - 1;
    var c, before := confirmed[n], confirmed[..n];
    MarkIs(a, c, now);
    PutMarkLookup(PutMarks(a, marks, before, now), Strip(c.relationshipId), JObj(RelationshipMark(a, c, now)), key);
    if i < n {
      assert LastOf(before, i, key);
      MarkOfLast(a, marks, before, now, i, key);
    }
  }

  /** Marks of other relationships stay. */
  lemma {:induction false} MarkStays(a: AssetRecord, marks: seq<Json>, confirmed: seq<Confirmed>, now: Time, key: string)
    requires forall j :: 0 <= j < |confirmed| ==>
               Strip(confirmed[j].relationshipId) != "" && Strip(confirmed[j].relationshipId) != key
    ensures Lookup(MarkKey, PutMarks(a, marks, confirmed, now), key) == Lookup(MarkKey, marks, key)
  {
    hide Strip, RelationshipType, RelationshipTarget, PutMark, Lookup, MarkSays, RelationshipMark, MarkKey;
    if confirmed != [] {
      var n := |confirmed| - 1;
      MarkStays(a, marks, confirmed[..n], now, key);
      MarkIs(a, confirmed[n], now);
      PutMarkLookup(PutMarks(a, marks, confirmed[..n], now), Strip(confirmed[n].relationshipId),
                    JObj(RelationshipMark(a, confirmed[n], now)), key);
    }
  }

  /** Of the marks that were there, the last of a key counts. */
  lemma {:induction false} LastMarkCounts(marks: seq<Json>, i: int, key: string)
    requires 0 <= i < |marks| && MarkKey(marks[i]) == key && forall j :: i < j < |marks| ==> MarkKey(marks[j]) != key
    ensures Lookup(MarkKey, DedupMarks(marks), key) == Some(marks[i])
  {
    hide MarkKey, PutMark, Lookup;
    var n := |marks| - 1;
    PutMarkLookup(DedupMarks(marks[..n]), MarkKey(marks[n]), marks[n], key);
    if i < n {
      LastMarkCounts(marks[..n], i, key);
    }
  }

  lemma {:induction false} NoMarkStays(marks: seq<Json>, key: string)
    requires forall j :: 0 <= j < |marks| ==> MarkKey(marks[j]) != key
    ensures Lookup(MarkKey, DedupMarks(marks), key).None?
  {
    hide MarkKey, PutMark;
    if marks != [] {
      var n := |marks| - 1;
      NoMarkStays(marks[..n], key);
      PutMarkLookup(DedupMarks(marks[..n]), MarkKey(marks[n]), marks[n], key);
    }
  }

  lemma MarkIs(a: AssetRecord, c: Confirmed, now: Time)
    requires Strip(c.relationshipId) != ""
    ensures var mark := JObj(RelationshipMark(a, c, now)); MarkSays(mark, a, c, now) && MarkKey(mark) == Strip(c.relationshipId)
  {
    hide Strip, RelationshipType, RelationshipTarget;
  }

  /** Relationships sent now are marked before those that were there already. */
  lemma SentMarkedFirst(confirmed: seq<Confirmed>)
    ensures multiset(MarkOrder(confirmed)) == multiset(confirmed)
    ensures forall i, j :: 0 <= i < j < |MarkOrder(confirmed)| && MarkOrder(confirmed)[j].ingestedNow ==>
              MarkOrder(confirmed)[i].ingestedNow
  {
    FilterParts(confirmed);
    var sent, there := Filter(WasIngested, confirmed), Filter(WasSkipped, confirmed);
    forall c | c in sent ensures c.ingestedNow {
      FilterMember(WasIngested, confirmed, c);
    }
    forall c | c in there ensures !c.ingestedNow {
      FilterMember(WasSkipped, confirmed, c);
    }
    assert forall i :: 0 <= i < |sent| ==> MarkOrder(confirmed)[i] in sent;
    assert forall i :: |sent| <= i < |MarkOrder(confirmed)| ==> MarkOrder(confirmed)[i] == there[i - |sent|];
  }

  lemma {:induction false} FilterParts(confirmed: seq<Confirmed>)
    ensures multiset(Filter(WasIngested, confirmed) + Filter(WasSkipped, confirmed)) == multiset(confirmed)
  {
    if confirmed != [] {
      var c, rest := confirmed[0], confirmed[1..];
      FilterParts(rest);
      assert confirmed == [c] + rest;
      var f, g := Filter(WasIngested, rest), Filter(WasSkipped, rest);
      assert Filter(WasIngested, confirmed) == if c.ingestedNow then [c] + f else f;
      assert Filter(WasSkipped, confirmed) == if c.ingestedNow then g else [c] + g;
      hide Filter;
    }
  }

  // ---- the whole operation ----

  /** The status word: something was sent now, or all was there already, or nothing could be sent, or there was nothing. */
  ghost predicate RelatedStatus(relations: seq<Object>, confirmed: seq<Confirmed>, word: string) {
    if exists c :: c in confirmed && c.ingestedNow then word == "ingested"
    else if confirmed != [] then word == "skipped"
    else if relations != [] then word == "unsupported"
    else word == "no_relationships"
  }

  /** `b` is `a` with the marks of what was confirmed put over those that were there. */
  ghost predicate RelationsMarked(a: AssetRecord, b: AssetRecord, confirmed: seq<Confirmed>, now: Time) {
    var earlier := Filter(IsObject, List(Get(a.provenance, "graphiti_relationships")));
    && b == a.(provenance := b.provenance, updatedAt := now)
    && Get(b.provenance, "graphiti_relationships_projected_at") == JInt(now)
    && Get(b.provenance, "graphiti_relationships") == JArr(PutMarks(a, DedupMarks(earlier), MarkOrder(confirmed), now))
    && forall k :: k !in {"graphiti_relationships_projected_at", "graphiti_relationships"} ==>
         (k in b.provenance <==> k in a.provenance) && Get(b.provenance, k) == Get(a.provenance, k)
  }

  /** One record was saved; no other changed. */
  ghost predicate OneSaved(s: Stores, t: Stores, b: AssetRecord) {
    forall k :: Lookup(AssetId, t.assets, k) == if k == b.id then Some(b) else Lookup(AssetId, s.assets, k)
  }

  ghost predicate RelationsProjected(s: Stores, t: Stores, a: AssetRecord, out: Result<string>, env: Env) {
    if !out.Ok? then
      && out == ValueError && t.assets == s.assets
      && if a.id == "" then t == s && Filter(Eligible, a.relationships) != [] else t.attempts != s.attempts && LastRefused(t)
    else
      exists r ::
        && ConfirmsEligible(a, a.relationships, r, env) && SentInOrder(s, t, r.confirmed) && SkippedAudited(s, t, r.confirmed)
        && RelatedStatus(a.relationships, r.confirmed, out.value)
        && if r.confirmed == [] then t.assets == s.assets
           else exists b :: RelationsMarked(a, b, r.confirmed, env.now) && OneSaved(s, t, b)
  }

  lemma StatusOfRelating(a: AssetRecord, r: Relating, env: Env)
    requires ConfirmsEligible(a, a.relationships, r, env)
    ensures RelatedStatus(a.relationships, r.confirmed, RelatingStatus(r))
  {
    hide Eligible;
    FilterAll(WasIngested, r.confirmed);
  }

  lemma RelationMarks(a: AssetRecord, confirmed: seq<Confirmed>, now: Time)
    ensures var b := MarkedRelationships(a, confirmed, now); RelationsMarked(a, b, confirmed, now) && b.id == a.id
  {
    hide PutMarks, DedupMarks, MarkOrder, Filter;
  }

  lemma RecordIsRelated(s: Stores, a: AssetRecord, env: Env)
    requires Distinct(AssetId, s.assets)
    ensures var (t, out) := RelateRecord(s, a, env);
            && RelationsProjected(s, t, a, out, env)
            && t == s.(assets := t.assets, audit := t.audit, attempts := t.attempts)
  {
    hide RelationsMarked, Upsert, MarkedRelationships, ConfirmsEligible, SentInOrder, RelatedStatus, RelatingStatus, RelateFold,
         LastRefused, Distinct, Eligible, Filter, AuditedSince;
    SkippedWereAudited(s, a, a.relationships, env);
    RelationsConfirmed(s, a, a.relationships, env);
    RelateLeavesRest(s, a, a.relationships, env);
    var (s1, related) := RelateFold(s, a, a.relationships, env);
    var (t, out) := RelateRecord(s, a, env);
    if related.Ok? {
      var r := related.value;
      StatusOfRelating(a, r, env);
      var b := MarkedRelationships(a, r.confirmed, env.now);
      RelationMarks(a, r.confirmed, env.now);
      UpsertIsMapUpdate(AssetId, AssetTime, s.assets, b);
      SameSent(s, s1, t, r.confirmed);
    } else {
      assert t == s1;
    }
  }

  lemma SameSent(s: Stores, t: Stores, u: Stores, confirmed: seq<Confirmed>)
    requires SentInOrder(s, t, confirmed) && u.attempts == t.attempts
    ensures SentInOrder(s, u, confirmed) && (SkippedAudited(s, t, confirmed) ==> SkippedAudited(s, u, confirmed))
  {
  }

  lemma {:induction false} RelateLeavesRest(s: Stores, a: AssetRecord, relations: seq<Object>, env: Env)
    ensures var t := RelateFold(s, a, relations, env).0; t == s.(audit := t.audit, attempts := t.attempts)
  {
    hide RelateOne;
    if relations != [] {
      var (s1, before) := RelateFold(s, a, relations[..|relations| - 1], env);
      RelateLeavesRest(s, a, relations[..|relations| - 1], env);
      if before.Ok? {
        RelateOneEffect(s1, a, relations[|relations| - 1], before.value, env);
      }
    }
  }

  /** Projecting relationships fails for an unknown id and a record that may not be projected, changing nothing, and when
      Graphiti refuses one; otherwise every eligible relationship, in order, is confirmed as sent now or already there. */
  lemma RelationsOutcome(s: Stores, assetId: string, env: Env)
    requires Inv(s)
    ensures var (t, out) := ProjectRelationships(s, assetId, env);
            match Lookup(AssetId, s.assets, Strip(assetId))
            case None => out == KeyError(Strip(assetId)) && t == s
            case Some(a) =>
              if !MayProject(a) then out == ValueError && t == s
              else RelationsProjected(s, t, a, out, env) && t == s.(assets := t.assets, audit := t.audit, attempts := t.attempts)
  {
    assert Distinct(AssetId, s.assets);
    hide Inv, RelationsProjected, RelateRecord, Strip, Lower, Lookup, Distinct;
    var found := Lookup(AssetId, s.assets, Strip(assetId));
    if found.Some? {
      RecordIsRelated(s, found.value, env);
    }
  }
}
