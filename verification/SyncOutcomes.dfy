/** What a usefulness sync and an import leave behind, told without the code that does it. */
module SyncOutcomes {
  import opened Text
  import opened Json
  import opened StableSort
  import opened Keyed
  import opened RegistryModel
  import opened RegistryInvariants
  import opened BatchReviews

  // ---- which candidates and records a memory names ----

  /** The Asset id a memory candidate stands for: the one its provenance names, or its own id. */
  function UsedAssetId(m: MemoryUsage): string {
    if Strip(m.provenanceAssetId) != "" then Strip(m.provenanceAssetId) else Strip(m.id)
  }

  lemma UsedAssetIdIs(m: MemoryUsage)
    requires Strip(m.id) != ""
    ensures OrElse(Strip(OrElse(m.provenanceAssetId, Strip(m.id))), Strip(m.id)) == UsedAssetId(m)
  {
    StripTwice(m.id);
    StripFacts("");
    hide Strip;
  }

  ghost predicate NamesCandidate(m: MemoryUsage, c: Candidate) {
    c.id == "asset-candidate-" + Strip(m.id) || c.sourceCandidateId == Strip(m.id) || c.assetId == UsedAssetId(m)
  }

  ghost predicate NamesRecord(m: MemoryUsage, a: AssetRecord) {
    || a.id == UsedAssetId(m) || a.contentRef == "memory_candidate://" + Strip(m.id)
    || Get(a.provenance, "source_memory_candidate_id") == JStr(Strip(m.id))
    || Get(a.provenance, "source_candidate_id") == JStr(Strip(m.id))
  }

  lemma NamesAreUsed(m: MemoryUsage)
    ensures forall c :: CandidateUsed(c, Strip(m.id), UsedAssetId(m)) <==> NamesCandidate(m, c)
    ensures forall a :: AssetUsed(a, Strip(m.id), UsedAssetId(m)) <==> NamesRecord(m, a)
  {
    hide Strip, UsedAssetId;
  }

  // ---- what they take over ----

  const UsageKeys := {"usage_summary", "usage_history", "last_usefulness_sync_at", "source_memory_candidate_id"}

  /** `r` are the objects among `items`, in order. */
  ghost predicate ObjectsOf(items: seq<Json>, r: seq<Json>) {
    if items == [] then r == []
    else if items[0].JObj? then r != [] && r[0] == items[0] && ObjectsOf(items[1..], r[1..])
    else ObjectsOf(items[1..], r)
  }

  lemma {:induction false} FilterObjects(items: seq<Json>)
    ensures ObjectsOf(items, Filter(IsObject, items))
  {
    if items != [] {
      FilterObjects(items[1..]);
      var rest := Filter(IsObject, items[1..]);
      assert Filter(IsObject, items) == if items[0].JObj? then [items[0]] + rest else rest;
    }
  }

  /** The provenance has the usage of the memory, when it came and from which memory; the rest of it is as it was. */
  ghost predicate UsageWritten(before: Object, after: Object, m: MemoryUsage, now: Time) {
    && Get(after, "usage_summary") == JObj(m.summary)
    && Get(after, "usage_history").JArr? && ObjectsOf(m.history, Get(after, "usage_history").items)
    && Get(after, "last_usefulness_sync_at") == JInt(now)
    && Get(after, "source_memory_candidate_id") == JStr(Strip(m.id))
    && forall k :: k !in UsageKeys ==> (k in after <==> k in before) && Get(after, k) == Get(before, k)
  }

  lemma UsageIsWritten(before: Object, m: MemoryUsage, now: Time)
    ensures UsageWritten(before, before + UsageProvenance(m, Strip(m.id), now), m, now)
  {
    hide Strip, ObjectsOf, Filter;
    FilterObjects(m.history);
  }

  ghost predicate CandidateTakesOver(c: Candidate, d: Candidate, m: MemoryUsage, now: Time) {
    d == c.(usefulness := m.summary, provenance := d.provenance, updatedAt := now) && UsageWritten(c.provenance, d.provenance, m, now)
  }

  ghost predicate RecordTakesOver(a: AssetRecord, b: AssetRecord, m: MemoryUsage, now: Time) {
    b == a.(usefulness := m.summary, provenance := b.provenance, updatedAt := now) && UsageWritten(a.provenance, b.provenance, m, now)
  }

  lemma {:induction false} SyncedCandidates(cs: seq<Candidate>, m: MemoryUsage, now: Time)
    ensures forall i :: 0 <= i < |cs| ==>
              var d := SyncCandidates(cs, m, Strip(m.id), UsedAssetId(m), now)[i];
              if NamesCandidate(m, cs[i]) then CandidateTakesOver(cs[i], d, m, now) else d == cs[i]
  {
    hide Strip, CandidateUsed, NamesCandidate, UsageWritten, UsageProvenance, UsedAssetId;
    if cs != [] {
      var n := |cs| - 1;
      SyncedCandidates(cs[..n], m, now);
      NamesAreUsed(m);
      UsageIsWritten(cs[n].provenance, m, now);
    }
  }

  lemma {:induction false} SyncedAssets(assets: seq<AssetRecord>, m: MemoryUsage, now: Time)
    ensures forall i :: 0 <= i < |assets| ==>
              var b := SyncAssets(assets, m, Strip(m.id), UsedAssetId(m), now)[i];
              if NamesRecord(m, assets[i]) then RecordTakesOver(assets[i], b, m, now) else b == assets[i]
  {
    hide Strip, AssetUsed, NamesRecord, UsageWritten, UsageProvenance, UsedAssetId;
    if assets != [] {
      var n := |assets| - 1;
      SyncedAssets(assets[..n], m, now);
      NamesAreUsed(m);
      UsageIsWritten(assets[n].provenance, m, now);
    }
  }

  // ---- importing ----

  /** The candidate made from a memory: what the memory says, under ids derived from the memory's. */
  ghost predicate ImportOf(m: MemoryUsage, c: Candidate) {
    var id := Strip(m.id);
    && c.id == "asset-candidate-" + id && c.sourceCandidateId == id && c.contentRef == "memory_candidate://" + id
    && c.assetId == (if m.provenanceAssetId != "" then m.provenanceAssetId else id)
    && c.status == m.draft.status && c.reviewState == m.draft.status && c.usefulness == m.summary
    && c.assetType == m.draft.assetType && c.descriptor == m.draft.descriptor && c.relationships == m.draft.relationships
    && c.createdAt == m.draft.createdAt && c.updatedAt == m.draft.updatedAt
    && Get(c.provenance, "source_memory_candidate_id") == JStr(id)
    && Get(c.provenance, "source_asset_candidate_id") == JStr("asset-candidate-" + id)
    && forall k :: k != "source_memory_candidate_id" && k != "source_asset_candidate_id" ==>
         (k in c.provenance <==> k in m.draft.provenance) && Get(c.provenance, k) == Get(m.draft.provenance, k)
  }

  lemma ImportIsOf(m: MemoryUsage)
    ensures ImportOf(m, ImportedCandidate(m, Strip(m.id)))
  {
    hide Strip;
  }

  /** An import fails for a memory without an id; otherwise its candidate is saved under the derived id. */
  lemma ImportOutcome(s: Stores, m: MemoryUsage)
    requires Inv(s)
    ensures var (t, out) := ImportMemory(s, m);
            if Strip(m.id) == "" then out == ValueError && t == s
            else out.Ok? && ImportOf(m, out.value) && t == s.(candidates := t.candidates) &&
                 forall k :: Lookup(CandidateId, t.candidates, k) ==
                             if k == out.value.id then Some(out.value) else Lookup(CandidateId, s.candidates, k)
  {
    InvGood(s);
    hide Inv, Strip, Lookup, Upsert, ImportedCandidate, ImportOf;
    ImportIsOf(m);
    UpsertIsMapUpdate(CandidateId, CandidateTime, s.candidates, ImportedCandidate(m, Strip(m.id)));
  }

  // ---- the sync ----

  /** The candidates after a sync: those it names take the usage over at their places and the others are untouched;
      when it names none, the memory is imported. */
  ghost predicate CandidatesSynced(cs: seq<Candidate>, ds: seq<Candidate>, m: MemoryUsage, now: Time) {
    if exists c :: c in cs && NamesCandidate(m, c) then
      |ds| == |cs| && forall i :: 0 <= i < |cs| ==>
        if NamesCandidate(m, cs[i]) then CandidateTakesOver(cs[i], ds[i], m, now) else ds[i] == cs[i]
    else
      exists c :: ImportOf(m, c) &&
        forall k :: Lookup(CandidateId, ds, k) == if k == c.id then Some(c) else Lookup(CandidateId, cs, k)
  }

  ghost predicate RecordsSynced(xs: seq<AssetRecord>, ys: seq<AssetRecord>, m: MemoryUsage, now: Time) {
    && |xs| == |ys|
    && forall i :: 0 <= i < |xs| ==> if NamesRecord(m, xs[i]) then RecordTakesOver(xs[i], ys[i], m, now) else ys[i] == xs[i]
  }

  /** A memory without an id is refused, and one without usage changes nothing. Otherwise the records it names take its
      usage over at their places and every other record is untouched; so do the candidates, or the memory is imported;
      the response lists exactly the records' ids. */
  lemma SyncOutcome(s: Stores, m: MemoryUsage, now: Time)
    requires Inv(s)
    ensures var (t, out) := SyncUsefulness(s, m, now);
            if Strip(m.id) == "" then out == ValueError && t == s
            else if m.summary == map[] && m.history == [] then out == Ok([]) && t == s
            else
              && out.Ok? && t == s.(candidates := t.candidates, assets := t.assets)
              && RecordsSynced(s.assets, t.assets, m, now) && CandidatesSynced(s.candidates, t.candidates, m, now)
              && (forall id :: id in out.value <==> exists a :: a in s.assets && NamesRecord(m, a) && a.id == id)
  {
    hide Inv, SyncAssets, SyncCandidates, AssetUsed, CandidateUsed, SortBy, Strip, Upsert, ImportedCandidate, UsedAssetId,
         CandidatesSynced, NamesRecord, RecordTakesOver, NamesCandidate;
    if Strip(m.id) != "" {
      var id, assetId := Strip(m.id), UsedAssetId(m);
      UsedAssetIdIs(m);
      SyncAssetsAt(s.assets, m, id, assetId, now);
      SyncedAssets(s.assets, m, now);
      SameRecordsKeep(s, s.(assets := SyncAssets(s.assets, m, id, assetId, now)));
      UsedIdsSaid(s.assets, m);
      CandidateSync(s, m, now);
    }
  }

  lemma {:induction false} UsedIdsSaid(assets: seq<AssetRecord>, m: MemoryUsage)
    ensures var ids := UsedAssetIds(assets, Strip(m.id), UsedAssetId(m));
            && (forall id :: id in ids <==> exists a :: a in assets && NamesRecord(m, a) && a.id == id)
            && (ids == [] <==> forall i :: 0 <= i < |assets| ==> !NamesRecord(m, assets[i]))
  {
    hide AssetUsed, NamesRecord, Strip, UsedAssetId;
    if assets != [] {
      var n := |assets| - 1;
      UsedIdsSaid(assets[..n], m);
      NamesAreUsed(m);
      assert forall a :: a in assets <==> a in assets[..n] || a == assets[n];
    }
  }

  /** The candidates that were named take the usage over. */
  lemma CandidatesTakeOver(s: Stores, m: MemoryUsage, now: Time)
    requires Inv(s)
    ensures var ds := SyncCandidates(s.candidates, m, Strip(m.id), UsedAssetId(m), now);
            && SortBy(CandidateTime, ds) == ds
            && ((exists c :: c in s.candidates && NamesCandidate(m, c)) ==> CandidatesSynced(s.candidates, ds, m, now))
  {
    hide Inv, SyncCandidates, CandidateUsed, SortBy, Strip, UsedAssetId, Grows, Lookup, NamesCandidate, CandidateTakesOver;
    var id, assetId := Strip(m.id), UsedAssetId(m);
    SyncCandidatesAt(s.candidates, m, id, assetId, now);
    SyncedCandidates(s.candidates, m, now);
    EditCandidatesKeeps(s, SyncCandidates(s.candidates, m, id, assetId, now));
  }

  lemma CandidateSync(s: Stores, m: MemoryUsage, now: Time)
    requires Inv(s) && Strip(m.id) != ""
    ensures var t := SyncCandidateStep(s, m, Strip(m.id), UsedAssetId(m), now);
            t == s.(candidates := t.candidates) && CandidatesSynced(s.candidates, t.candidates, m, now)
  {
    hide Inv, SyncCandidates, CandidateUsed, SortBy, Strip, UsedAssetId, Upsert, ImportedCandidate, NamesCandidate, ImportOf;
    NamesAreUsed(m);
    CandidatesTakeOver(s, m, now);
    ImportOutcome(s, m);
    hide CandidateTakesOver;
  }
}
