/** Projecting a list of records: when the audit covers it afterwards, and when Graphiti is left alone. */
module Coverage {
  import opened Text
  import opened Json
  import opened Keyed
  import opened RegistryModel
  import opened RegistryInvariants
  import opened Projection
  import opened Settlement

  /** From `s` to `t` at most so many attempts were made that the audit of `s` still fits. */
  ghost predicate Room(s: Stores, t: Stores) { |s.audit| + |t.attempts| - |s.attempts| <= AUDIT_LIMIT }

  /** Attempts accumulate, and while there is room the audit accumulates them too. */
  ghost predicate Appended(s: Stores, t: Stores) {
    s.attempts <= t.attempts && (Room(s, t) ==> t.audit == s.audit + t.attempts[|s.attempts|..])
  }

  lemma AppendedTransitive(s: Stores, t: Stores, u: Stores)
    requires Appended(s, t) && Appended(t, u)
    ensures Appended(s, u) && (Room(s, u) ==> Room(s, t) && Room(t, u))
  {
    if Room(s, u) {
      assert t.attempts[|s.attempts|..] + u.attempts[|t.attempts|..] == u.attempts[|s.attempts|..];
    }
  }

  lemma AppendedKnowsMore(s: Stores, t: Stores)
    requires Appended(s, t) && Room(s, t)
    ensures KnowsMore(s.audit, t.audit)
  {
    forall id | AuditedIngestion(s.audit, id).Some? ensures AuditedIngestion(t.audit, id).Some? {
      AuditedExactly(s.audit, id);
      AuditedExactly(t.audit, id);
      var i :| 0 <= i < |s.audit| && SuccessFor(s.audit[i], id);
      assert t.audit[i] == s.audit[i];
    }
  }

  lemma IngestAppended(s: Stores, id: string, env: Env)
    ensures var (t, g) := Ingest(s, id, env);
            Appended(s, t) && t.attempts != s.attempts && (Ingested(g) ==> AuditedIngestion(t.audit, id).Some?)
  {
    StripTwice(id);
    var (t, g) := Ingest(s, id, env);
    assert t.audit[|t.audit| - 1] == Attempt(Strip(id), g);
    assert t.attempts[|s.attempts|..] == [Attempt(Strip(id), g)];
  }

  /** A projection that succeeds leaves its id audited. */
  lemma ProjectAssetAudits(s: Stores, assetId: string, env: Env)
    ensures var (t, r) := ProjectAsset(s, assetId, env);
            Appended(s, t) && (r.Ok? ==> AuditedIngestion(t.audit, Strip(assetId)).Some?)
  {
    hide AuditedIngestion, Ingest, MarkedProjection, Upsert, Strip;
    LookupMember(AssetId, s.assets, Strip(assetId));
    IngestAppended(s, Strip(assetId), env);
  }

  lemma RelateOneAudits(s: Stores, a: AssetRecord, o: Object, acc: Relating, env: Env)
    ensures var (t, r) := RelateOne(s, a, o, acc, env);
            && Appended(s, t)
            && (r.Ok? && Eligible(o) ==> AuditedIngestion(t.audit, RelationshipId(a.id, o, env)).Some?)
  {
    hide AuditedIngestion, Ingest, Eligible, RelationshipId;
    IngestAppended(s, RelationshipId(a.id, o, env), env);
  }

  lemma {:induction false} RelateFoldAudits(s: Stores, a: AssetRecord, relations: seq<Object>, env: Env)
    ensures var (t, r) := RelateFold(s, a, relations, env);
            Appended(s, t) && (r.Ok? && Room(s, t) ==> RelationsAudited(t.audit, a, relations, env))
  {
    hide RelateOne, AuditedIngestion, Eligible, RelationshipId;
    if relations != [] {
      var n := |relations| - 1;
      RelateFoldAudits(s, a, relations[..n], env);
      var (s1, before) := RelateFold(s, a, relations[..n], env);
      if before.Ok? {
        RelateOneAudits(s1, a, relations[n], before.value, env);
        var (t, r) := RelateOne(s1, a, relations[n], before.value, env);
        AppendedTransitive(s, s1, t);
        if r.Ok? && Room(s, t) {
          AppendedKnowsMore(s1, t);
          forall i | 0 <= i < |relations| && Eligible(relations[i])
            ensures AuditedIngestion(t.audit, RelationshipId(a.id, relations[i], env)).Some?
          {
            if i < n {
              assert Eligible(relations[..n][i]);
            }
          }
        }
      }
    }
  }

  lemma ProjectRelationshipsAudits(s: Stores, assetId: string, env: Env)
    requires GoodAssets(s)
    ensures var (t, r) := ProjectRelationships(s, assetId, env);
            var found := Lookup(AssetId, s.assets, Strip(assetId));
            && Appended(s, t)
            && (r.Ok? && Room(s, t) ==> found.Some? && RelationsAudited(t.audit, found.value, found.value.relationships, env))
  {
    hide RelateFold, MarkedRelationships, Upsert, Strip, RelationsAudited, Lookup, RelatingStatus;
    var found := Lookup(AssetId, s.assets, Strip(assetId));
    if found.Some? {
      RelateFoldAudits(s, found.value, found.value.relationships, env);
    }
  }

  lemma ProjectSettledCovers(s: Stores, id: string, relationships: bool, env: Env)
    requires GoodAssets(s)
    ensures var (t, p) := ProjectSettled(s, id, relationships, env);
            Appended(s, t) && (!p.error && Room(s, t) ==> Covered(t.audit, t.assets, id, relationships, env))
  {
    hide ProjectAsset, ProjectRelationships, RelationsAudited, AuditedIngestion, MarkedOnly, Strip;
    ProjectAssetEffect(s, id, env);
    ProjectAssetAudits(s, id, env);
    var (s1, projected) := ProjectAsset(s, id, env);
    ProjectRelationshipsEffect(s1, id, env);
    ProjectRelationshipsAudits(s1, id, env);
    var (s2, related) := ProjectRelationships(s1, id, env);
    AppendedTransitive(s, s1, s2);
    if relationships && projected.Ok? && related.Ok? && Room(s, s2) {
      AppendedKnowsMore(s1, s2);
      var mid := s1.(audit := s2.audit);
      MarkedOnlySelf(s1.assets);
      assert Covered(mid.audit, mid.assets, id, relationships, env);
      CoveredAfterMarks(mid, s2, id, relationships, env, env);
    }
  }

  lemma {:induction false} ProjectFoldCovers(s: Stores, ids: seq<string>, relationships: bool, env: Env)
    requires GoodAssets(s)
    ensures var (t, ps) := ProjectFold(s, ids, relationships, env);
            && |ps| == |ids| && Appended(s, t)
            && ((forall p :: p in ps ==> !p.error) && Room(s, t) ==> AllCovered(t, ids, relationships, env))
  {
    hide ProjectSettled, Covered, MarkedOnly;
    if ids != [] {
      var n := |ids| - 1;
      ProjectFoldCovers(s, ids[..n], relationships, env);
      ProjectFoldEffect(s, ids[..n], relationships, env);
      var (s1, done) := ProjectFold(s, ids[..n], relationships, env);
      ProjectSettledCovers(s1, ids[n], relationships, env);
      ProjectSettledEffect(s1, ids[n], relationships, env);
      var (t, p) := ProjectSettled(s1, ids[n], relationships, env);
      AppendedTransitive(s, s1, t);
      if (forall q :: q in done + [p] ==> !q.error) && Room(s, t) {
        assert forall q :: q in done ==> q in done + [p];
        assert p in done + [p];
        AppendedKnowsMore(s1, t);
        forall i | 0 <= i < |ids| ensures Covered(t.audit, t.assets, ids[i], relationships, env) {
          if i < n {
            assert Covered(s1.audit, s1.assets, ids[..n][i], relationships, env);
            CoveredAfterMarks(s1, t, ids[i], relationships, env, env);
          }
        }
      }
    }
  }

  // ---- when Graphiti is left alone ----

  /** Projecting the record under `id` has nothing to ask: there is none to project, the audit knows it (and each of
      its eligible relationships, where these are projected too), or it is unknown but too empty to be sent. */
  ghost predicate Quiet(audit: seq<Attempt>, assets: seq<AssetRecord>, id: string, relationships: bool, env: Env) {
    var found := Lookup(AssetId, assets, Strip(id));
    || found.None? || !ProjectableStatus(found.value.status)
    || (if AuditedIngestion(audit, Strip(id)).Some?
        then relationships ==> RelationsAudited(audit, found.value, found.value.relationships, env)
        else !ValidIngestRequest(found.value))
  }

  /** A loop over relationships that are all audited never fails. */
  lemma {:induction false} RelateFoldOk(s: Stores, a: AssetRecord, relations: seq<Object>, env: Env)
    requires a.id != "" && RelationsAudited(s.audit, a, relations, env)
    ensures SameAttempts(s, RelateFold(s, a, relations, env).0) && RelateFold(s, a, relations, env).1.Ok?
  {
    hide AuditedIngestion, Eligible, RelationshipId, Ingest;
    if relations != [] {
      var n := |relations| - 1;
      RelationsPrefix(s.audit, a, relations, env);
      RelateFoldOk(s, a, relations[..n], env);
    }
  }

  lemma RelationsPrefix(audit: seq<Attempt>, a: AssetRecord, relations: seq<Object>, env: Env)
    requires relations != []
    ensures var n := |relations| - 1;
            RelationsAudited(audit, a, relations, env) <==>
              && RelationsAudited(audit, a, relations[..n], env)
              && (Eligible(relations[n]) ==> AuditedIngestion(audit, RelationshipId(a.id, relations[n], env)).Some?)
  {
    hide AuditedIngestion, Eligible, RelationshipId;
    assert forall i :: 0 <= i < |relations| - 1 ==> relations[..|relations| - 1][i] == relations[i];
  }

  lemma {:induction false} RelateFoldAsks(s: Stores, a: AssetRecord, relations: seq<Object>, env: Env)
    requires a.id != "" && !RelationsAudited(s.audit, a, relations, env)
    ensures |RelateFold(s, a, relations, env).0.attempts| > |s.attempts|
  {
    hide AuditedIngestion, Eligible, RelationshipId, Ingest, RelationsAudited;
    if relations == [] {
      assert false by { NoRelations(s.audit, a, env); }
    } else {
      var n := |relations| - 1;
      RelationsPrefix(s.audit, a, relations, env);
      var (s1, before) := RelateFold(s, a, relations[..n], env);
      if RelationsAudited(s.audit, a, relations[..n], env) {
        RelateFoldOk(s, a, relations[..n], env);
        IngestAppended(s1, RelationshipId(a.id, relations[n], env), env);
      } else {
        RelateFoldAsks(s, a, relations[..n], env);
        if before.Ok? {
          RelateOneAudits(s1, a, relations[n], before.value, env);
        }
      }
    }
  }

  lemma NoRelations(audit: seq<Attempt>, a: AssetRecord, env: Env)
    ensures RelationsAudited(audit, a, [], env)
  {
  }

  /** One target is projected without an attempt exactly when it is quiet. */
  lemma ProjectSettledQuiet(s: Stores, id: string, relationships: bool, env: Env)
    requires GoodAssets(s) && RecordsOk(s.assets)
    ensures ProjectSettled(s, id, relationships, env).0.attempts == s.attempts <==>
            Quiet(s.audit, s.assets, id, relationships, env)
    ensures Quiet(s.audit, s.assets, id, relationships, env) ==> EpisodeRefs([ProjectSettled(s, id, relationships, env).1]) == []
  {
    hide AuditedIngestion, Strip, RelationsAudited, ProjectableStatus, MarkedOnly, RelateFold, Ingest, ValidIngestRequest,
         MarkedProjection, MarkedRelationships, Upsert;
    LookupMember(AssetId, s.assets, Strip(id));
    var found := Lookup(AssetId, s.assets, Strip(id));
    assert [ProjectSettled(s, id, relationships, env).1][..0] == [];
    if found.Some? && ProjectableStatus(found.value.status) {
      var a := found.value;
      ProjectAssetEffect(s, id, env);
      var (s1, projected) := ProjectAsset(s, id, env);
      if AuditedIngestion(s.audit, Strip(id)).Some? {
        LookupAfterMarks(s.assets, s1.assets, Strip(id));
        var b := Lookup(AssetId, s1.assets, Strip(id)).value;
        if RelationsAudited(s1.audit, b, b.relationships, env) {
          RelateFoldOk(s1, b, b.relationships, env);
        } else {
          RelateFoldAsks(s1, b, b.relationships, env);
        }
        SameRelations(s.audit, a, b, env);
      } else if ValidIngestRequest(a) {
        RecordGuard(s, a, env);
        ProjectRelationshipsAudits(s1, id, env);
      }
    }
  }

  lemma SameRelations(audit: seq<Attempt>, a: AssetRecord, b: AssetRecord, env: Env)
    requires a.id == b.id && a.relationships == b.relationships
    ensures RelationsAudited(audit, a, a.relationships, env) == RelationsAudited(audit, b, b.relationships, env)
  {
  }

  /** Marks do not change what is quiet. */
  lemma QuietAfterMarks(audit: seq<Attempt>, xs: seq<AssetRecord>, ys: seq<AssetRecord>, id: string, relationships: bool, env: Env)
    requires MarkedOnly(xs, ys)
    ensures Quiet(audit, xs, id, relationships, env) == Quiet(audit, ys, id, relationships, env)
  {
    hide AuditedIngestion, Strip, ProjectableStatus, MarkedOnly, RelationsAudited;
    LookupAfterMarks(xs, ys, Strip(id));
    var f, g := Lookup(AssetId, xs, Strip(id)), Lookup(AssetId, ys, Strip(id));
    if f.Some? && g.Some? {
      SameRelations(audit, f.value, g.value, env);
    }
  }

  ghost predicate AllQuiet(audit: seq<Attempt>, assets: seq<AssetRecord>, ids: seq<string>, relationships: bool, env: Env) {
    forall i :: 0 <= i < |ids| ==> Quiet(audit, assets, ids[i], relationships, env)
  }

  lemma MarkedIdsOk(xs: seq<AssetRecord>, ys: seq<AssetRecord>)
    requires MarkedOnly(xs, ys) && RecordsOk(xs)
    ensures RecordsOk(ys)
  {
    forall y | y in ys ensures RecordOk(y) {
      var i :| 0 <= i < |ys| && ys[i] == y;
      assert xs[i] in xs;
    }
  }

  lemma {:induction false} ProjectFoldQuiet(s: Stores, ids: seq<string>, relationships: bool, env: Env)
    requires GoodAssets(s) && RecordsOk(s.assets) && |s.audit| <= AUDIT_LIMIT
    ensures var (t, ps) := ProjectFold(s, ids, relationships, env);
            && s.attempts <= t.attempts && MarkedOnly(s.assets, t.assets)
            && (t.attempts == s.attempts <==> AllQuiet(s.audit, s.assets, ids, relationships, env))
            && (t.attempts == s.attempts ==> t.audit == s.audit && EpisodeRefs(ps) == [])
  {
    hide ProjectSettled, MarkedOnly, Quiet, RecordsOk;
    if ids == [] {
      MarkedOnlySelf(s.assets);
    } else {
      var n := |ids| - 1;
      ProjectFoldQuiet(s, ids[..n], relationships, env);
      ProjectFoldEffect(s, ids[..n], relationships, env);
      ProjectFoldCovers(s, ids, relationships, env);
      ProjectFoldEffect(s, ids, relationships, env);
      var s1 := ProjectFold(s, ids[..n], relationships, env).0;
      MarkedIdsOk(s.assets, s1.assets);
      ProjectSettledQuiet(s1, ids[n], relationships, env);
      ProjectSettledCovers(s1, ids[n], relationships, env);
      QuietAfterMarks(s.audit, s.assets, s1.assets, ids[n], relationships, env);
      AllQuietPush(s.audit, s.assets, ids, relationships, env);
      EpisodeRefsPush(ProjectFold(s, ids[..n], relationships, env).1, ProjectSettled(s1, ids[n], relationships, env).1);
    }
  }

  lemma EpisodeRefsPush(ps: seq<SettledProjection>, p: SettledProjection)
    ensures EpisodeRefs(ps + [p]) == EpisodeRefs(ps) + EpisodeRefs([p])
  {
    assert (ps + [p])[..|ps|] == ps && [p][..0] == [];
  }

  lemma AllQuietPush(audit: seq<Attempt>, assets: seq<AssetRecord>, ids: seq<string>, relationships: bool, env: Env)
    requires ids != []
    ensures AllQuiet(audit, assets, ids, relationships, env) <==>
              && AllQuiet(audit, assets, ids[..|ids| - 1], relationships, env)
              && Quiet(audit, assets, ids[|ids| - 1], relationships, env)
  {
    hide Quiet;
    assert forall i :: 0 <= i < |ids| - 1 ==> ids[..|ids| - 1][i] == ids[i];
  }

  /** Covered records are quiet. */
  lemma CoveredIsQuiet(s: Stores, ids: seq<string>, relationships: bool, e: Env, f: Env)
    requires AllCovered(s, ids, relationships, e) && SameKeys(e, f)
    ensures AllQuiet(s.audit, s.assets, ids, relationships, f)
  {
    hide AuditedIngestion, Strip, ProjectableStatus, ValidIngestRequest, RelationsAudited;
    MarkedOnlySelf(s.assets);
    forall i | 0 <= i < |ids| ensures Quiet(s.audit, s.assets, ids[i], relationships, f) {
      CoveredAfterMarks(s, s, ids[i], relationships, e, f);
    }
  }

  lemma AllQuietAfterMarks(audit: seq<Attempt>, xs: seq<AssetRecord>, ys: seq<AssetRecord>, ids: seq<string>,
                           relationships: bool, env: Env)
    requires MarkedOnly(xs, ys)
    ensures AllQuiet(audit, xs, ids, relationships, env) == AllQuiet(audit, ys, ids, relationships, env)
  {
    hide Quiet, MarkedOnly;
    forall i | 0 <= i < |ids| ensures Quiet(audit, xs, ids[i], relationships, env) == Quiet(audit, ys, ids[i], relationships, env) {
      QuietAfterMarks(audit, xs, ys, ids[i], relationships, env);
    }
  }

  lemma AuditBounded(s: Stores)
    requires Inv(s)
    ensures |s.audit| <= AUDIT_LIMIT && RecordsOk(s.assets)
  {
  }
}
