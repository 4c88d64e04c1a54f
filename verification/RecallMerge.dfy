/** Merging the memories recalled through Graphiti into a chat context, in place. */
module RecallMerge {
  import opened Json
  import opened Keyed

  datatype Scope = Scope(kind: string, ref: string)

  /** One search result. */
  datatype RecallResult = RecallResult(
    id: string, source: string, content: string, scope: Scope, sourceKind: string, sourceRef: string,
    provenance: Object, episodeId: string)

  /** A memory reference of the context; an empty text or object is a key that is not there. */
  datatype MemoryRef = MemoryRef(
    memoryId: string, source: string, scope: Scope, sourceKind: string, sourceRef: string,
    provenance: Object, episodeId: string, graphitiRecalled: bool, graphitiResultId: string)

  /** How Python writes values: `str` of a JSON value, and `json.dumps` of a reference. */
  datatype Rendering = Rendering(str: Json -> string, dump: MemoryRef -> string)

  /** The dump of a reference shows its memory id. */
  ghost predicate ShowsId(dump: MemoryRef -> string) {
    forall a, b :: dump(a) == dump(b) ==> a.memoryId == b.memoryId
  }

  function MemoryId(r: RecallResult, str: Json -> string): string {
    var assetId := Get(r.provenance, "asset_id");
    if Truthy(assetId) then (if assetId.JStr? then assetId.s else str(assetId)) else r.id
  }

  function RefOf(r: RecallResult, str: Json -> string): MemoryRef {
    MemoryRef(MemoryId(r, str), r.source, r.scope, r.sourceKind, r.sourceRef, r.provenance, r.episodeId, false, "")
  }

  function Snippet(r: RecallResult): string {
    "[memory:" + r.id + "] " + r.content + " (scope=" + r.scope.kind + ":" + r.scope.ref
    + "; source=" + r.sourceKind + ":" + r.sourceRef + ")"
  }

  /** What a result with the same id adds to a reference that is there. */
  function Enriched(ref: MemoryRef, r: RecallResult): MemoryRef {
    var a := if r.episodeId != "" && ref.episodeId == "" then ref.(episodeId := r.episodeId) else ref;
    var b := if r.source == "graphiti" then a.(graphitiRecalled := true, graphitiResultId := r.id) else a;
    if r.provenance != map[] && b.provenance == map[] then b.(provenance := r.provenance) else b
  }

  function IdOf(ref: MemoryRef): string { ref.memoryId }

  function MergeOne(refs: seq<MemoryRef>, r: RecallResult, str: Json -> string): seq<MemoryRef> {
    var ref := RefOf(r, str);
    var i := Find(IdOf, refs, ref.memoryId);
    if i < |refs| then refs[i := Enriched(refs[i], r)] else refs + [ref]
  }

  function MergeAll(refs: seq<MemoryRef>, results: seq<RecallResult>, str: Json -> string): seq<MemoryRef> {
    if results == [] then refs else
      MergeOne(MergeAll(refs, results[..|results| - 1], str), results[|results| - 1], str)
  }

  predicate Known(refs: seq<MemoryRef>, r: RecallResult, str: Json -> string) {
    Find(IdOf, refs, MemoryId(r, str)) < |refs|
  }

  function AddSnippet(memories: seq<string>, snippet: string): seq<string> {
    if snippet in memories then memories else memories + [snippet]
  }

  function SnippetsAll(refs: seq<MemoryRef>, memories: seq<string>, results: seq<RecallResult>, str: Json -> string): seq<string> {
    if results == [] then memories else
      var n := |results| - 1;
      var before := SnippetsAll(refs, memories, results[..n], str);
      if Known(MergeAll(refs, results[..n], str), results[n], str) then before else AddSnippet(before, Snippet(results[n]))
  }

  function FromGraphiti(results: seq<RecallResult>): (kept: seq<RecallResult>)
    ensures forall r :: r in kept <==> r in results && r.source == "graphiti"
  {
    if results == [] then [] else
      FromGraphiti(results[..|results| - 1]) + if results[|results| - 1].source == "graphiti" then [results[|results| - 1]] else []
  }

  datatype TraceEvent = TraceEvent(event: string, memoryCount: nat, total: nat, refs: seq<MemoryRef>)

  predicate IsMemory(snippet: string) { "[memory:" <= snippet }

  function MemoryCount(memories: seq<string>): nat {
    if memories == [] then 0 else
      MemoryCount(memories[..|memories| - 1]) + if IsMemory(memories[|memories| - 1]) then 1 else 0
  }

  function EventName(e: TraceEvent): string { e.event }

  /** The first `context.loaded` event, with the new counts. */
  function Recounted(events: seq<TraceEvent>, memories: seq<string>, refs: seq<MemoryRef>): seq<TraceEvent> {
    var i := Find(EventName, events, "context.loaded");
    if i < |events| then events[i := TraceEvent("context.loaded", MemoryCount(memories), |memories|, refs)] else events
  }

  lemma MergeSteps(refs: seq<MemoryRef>, memories: seq<string>, results: seq<RecallResult>, i: nat, str: Json -> string)
    requires i <= |results|
    ensures MergeAll(refs, [], str) == refs && SnippetsAll(refs, memories, [], str) == memories
    ensures results[..0] == []
    ensures i < |results| ==>
              && MergeAll(refs, results[..i + 1], str) == MergeOne(MergeAll(refs, results[..i], str), results[i], str)
              && SnippetsAll(refs, memories, results[..i + 1], str) ==
                 var before := SnippetsAll(refs, memories, results[..i], str);
                 if Known(MergeAll(refs, results[..i], str), results[i], str) then before
                 else AddSnippet(before, Snippet(results[i]))
  {
    hide MergeOne, AddSnippet, Snippet, MemoryId, Known;
    if i < |results| {
      assert results[..i + 1][..i] == results[..i];
    }
  }

  lemma MergeOneLength(refs: seq<MemoryRef>, r: RecallResult, str: Json -> string)
    ensures |MergeOne(refs, r, str)| == |refs| + if Known(refs, r, str) then 0 else 1
  {
  }

  class ChatContext {
    var memoryRefs: seq<MemoryRef>
    var memories: seq<string>
    var traceEvents: seq<TraceEvent>

    constructor (refs: seq<MemoryRef>, snippets: seq<string>, events: seq<TraceEvent>)
      ensures memoryRefs == refs && memories == snippets && traceEvents == events
    {
      memoryRefs, memories, traceEvents := refs, snippets, events;
    }

    /** The check for a whole record that is there already never turns a result away: the search by id has done it. */
    method Merge(r: RecallResult, rendering: Rendering) returns (added: bool)
      requires ShowsId(rendering.dump)
      modifies this`memoryRefs, this`memories
      ensures added <==> !Known(old(memoryRefs), r, rendering.str)
      ensures memoryRefs == MergeOne(old(memoryRefs), r, rendering.str)
      ensures memories == if added then AddSnippet(old(memories), Snippet(r)) else old(memories)
    {
      var ref := RefOf(r, rendering.str);
      var i := 0;
      while i < |memoryRefs|
        invariant i <= |memoryRefs| && memoryRefs == old(memoryRefs) && memories == old(memories)
        invariant forall j :: 0 <= j < i ==> memoryRefs[j].memoryId != ref.memoryId
      {
        var existing := memoryRefs[i];
        if existing.memoryId == ref.memoryId {
          FindIs(memoryRefs, ref.memoryId, i);
          if ref.episodeId != "" && existing.episodeId == "" {
            existing := existing.(episodeId := ref.episodeId);
          }
          if r.source == "graphiti" {
            existing := existing.(graphitiRecalled := true, graphitiResultId := r.id);
          }
          if ref.provenance != map[] && existing.provenance == map[] {
            existing := existing.(provenance := ref.provenance);
          }
          memoryRefs := memoryRefs[i := existing];
          return false;
        }
        i := i + 1;
      }
      var key := rendering.dump(ref);
      var dumps := seq(|memoryRefs|, j requires 0 <= j < |memoryRefs| reads this => rendering.dump(memoryRefs[j]));
      if key in dumps {
        return false;
      }
      var snippet := Snippet(r);
      if snippet !in memories {
        memories := memories + [snippet];
      }
      memoryRefs := memoryRefs + [ref];
      added := true;
    }

    method MergeRecalled(recalled: seq<RecallResult>, rendering: Rendering) returns (added: nat)
      requires ShowsId(rendering.dump)
      modifies this`memoryRefs, this`memories
      ensures memoryRefs == MergeAll(old(memoryRefs), recalled, rendering.str)
      ensures memories == SnippetsAll(old(memoryRefs), old(memories), recalled, rendering.str)
      ensures |memoryRefs| == |old(memoryRefs)| + added
    {
      hide MergeOne, AddSnippet, Snippet, MemoryId, ShowsId, RefOf, MergeAll, SnippetsAll, Known;
      added := 0;
      MergeSteps(memoryRefs, memories, recalled, 0, rendering.str);
      for i := 0 to |recalled|
        invariant memoryRefs == MergeAll(old(memoryRefs), recalled[..i], rendering.str)
        invariant memories == SnippetsAll(old(memoryRefs), old(memories), recalled[..i], rendering.str)
        invariant |memoryRefs| == |old(memoryRefs)| + added
      {
        MergeSteps(old(memoryRefs), old(memories), recalled, i, rendering.str);
        MergeOneLength(memoryRefs, recalled[i], rendering.str);
        var isNew := Merge(recalled[i], rendering);
        if isNew {
          added := added + 1;
        }
      }
      assert recalled[..|recalled|] == recalled;
    }

    method Enrich(results: seq<RecallResult>, rendering: Rendering) returns (added: nat)
      requires ShowsId(rendering.dump)
      modifies this
      ensures var recalled := FromGraphiti(results);
              && memoryRefs == MergeAll(old(memoryRefs), recalled, rendering.str)
              && memories == SnippetsAll(old(memoryRefs), old(memories), recalled, rendering.str)
              && traceEvents == (if recalled == [] then old(traceEvents) else Recounted(old(traceEvents), memories, memoryRefs))
      ensures |memoryRefs| == |old(memoryRefs)| + added
    {
      hide ShowsId, MergeAll, SnippetsAll, Recounted;
      var recalled := FromGraphiti(results);
      added := MergeRecalled(recalled, rendering);
      if recalled != [] {
        UpdateCounts();
      }
    }

    method UpdateCounts()
      modifies this`traceEvents
      ensures traceEvents == Recounted(old(traceEvents), memories, memoryRefs)
    {
      var count := 0;
      for i := 0 to |memories|
        invariant count == MemoryCount(memories[..i])
      {
        assert memories[..i + 1][..i] == memories[..i];
        if IsMemory(memories[i]) {
          count := count + 1;
        }
      }
      assert memories[..|memories|] == memories;
      var i := Find(EventName, traceEvents, "context.loaded");
      if i < |traceEvents| {
        traceEvents := traceEvents[i := TraceEvent("context.loaded", count, |memories|, memoryRefs)];
      }
    }
  }

  lemma FindIs(refs: seq<MemoryRef>, id: string, i: nat)
    requires i < |refs| && refs[i].memoryId == id
    requires forall j :: 0 <= j < i ==> refs[j].memoryId != id
    ensures Find(IdOf, refs, id) == i
  {
    var k := Find(IdOf, refs, id);
    LookupMember(IdOf, refs, id);
    assert Has(IdOf, refs, id) by { assert IdOf(refs[i]) == id; }
  }

  // ---- what merging keeps ----

  function Ids(refs: seq<MemoryRef>): (ids: seq<string>)
    ensures |ids| == |refs| && forall i :: 0 <= i < |ids| ==> ids[i] == refs[i].memoryId
  {
    seq(|refs|, i requires 0 <= i < |refs| => refs[i].memoryId)
  }

  /** The ids the results bring that are not there yet, each at its first occurrence. */
  function NewIds(ids: seq<string>, results: seq<RecallResult>, str: Json -> string): seq<string> {
    if results == [] then [] else
      var n := |results| - 1;
      var before := NewIds(ids, results[..n], str);
      var id := MemoryId(results[n], str);
      if id in ids || id in before then before else before + [id]
  }

  /** How many results carry an id. */
  function Mentions(id: string, results: seq<RecallResult>, str: Json -> string): nat {
    if results == [] then 0 else
      Mentions(id, results[..|results| - 1], str) + if MemoryId(results[|results| - 1], str) == id then 1 else 0
  }

  lemma FindIn(refs: seq<MemoryRef>, id: string)
    ensures Find(IdOf, refs, id) < |refs| <==> id in Ids(refs)
  {
    LookupMember(IdOf, refs, id);
    if Has(IdOf, refs, id) {
      var i :| 0 <= i < |refs| && IdOf(refs[i]) == id;
      assert Ids(refs)[i] == id;
    }
    if id in Ids(refs) {
      var i :| 0 <= i < |refs| && Ids(refs)[i] == id;
      assert IdOf(refs[i]) == id;
    }
  }

  lemma MergeOneIds(refs: seq<MemoryRef>, r: RecallResult, str: Json -> string)
    ensures var id := MemoryId(r, str);
            Ids(MergeOne(refs, r, str)) == if id in Ids(refs) then Ids(refs) else Ids(refs) + [id]
  {
    hide MemoryId;
    FindIn(refs, MemoryId(r, str));
  }

  /** Merging never removes, reorders or renames a reference: it appends one for each id that was not there. */
  lemma {:induction false} MergeAppends(refs: seq<MemoryRef>, results: seq<RecallResult>, str: Json -> string)
    ensures Ids(MergeAll(refs, results, str)) == Ids(refs) + NewIds(Ids(refs), results, str)
  {
    if results != [] {
      var n := |results| - 1;
      MergeAppends(refs, results[..n], str);
      MergeOneIds(MergeAll(refs, results[..n], str), results[n], str);
      hide MergeOne, MemoryId, Ids;
    }
  }

  /** The ids appended are those of the results that were not there, and each is appended once. */
  lemma {:induction false} NewIdsFacts(ids: seq<string>, results: seq<RecallResult>, str: Json -> string)
    ensures NoRepeats(ids) ==> NoRepeats(ids + NewIds(ids, results, str))
    ensures forall id :: id in NewIds(ids, results, str) <==> id !in ids && Mentions(id, results, str) > 0
  {
    if results != [] {
      var n := |results| - 1;
      NewIdsFacts(ids, results[..n], str);
      var before, id := NewIds(ids, results[..n], str), MemoryId(results[n], str);
      assert NewIds(ids, results, str) == if id in ids || id in before then before else before + [id];
      UniquePush(ids + before, id);
      assert ids + before + [id] == ids + (before + [id]);
      hide NoRepeats, MemoryId;
    }
  }

  lemma UniquePush(ids: seq<string>, id: string)
    ensures NoRepeats(ids) && id !in ids ==> NoRepeats(ids + [id])
  {
  }

  /** Ids that were distinct stay distinct. */
  lemma IdsStayUnique(refs: seq<MemoryRef>, results: seq<RecallResult>, str: Json -> string)
    requires NoRepeats(Ids(refs))
    ensures NoRepeats(Ids(MergeAll(refs, results, str)))
  {
    MergeAppends(refs, results, str);
    NewIdsFacts(Ids(refs), results, str);
  }

  /** Recalling the same results again adds no reference. */
  lemma MergeAgainAddsNothing(refs: seq<MemoryRef>, results: seq<RecallResult>, str: Json -> string)
    ensures var once := MergeAll(refs, results, str);
            Ids(MergeAll(once, results, str)) == Ids(once)
  {
    var once := MergeAll(refs, results, str);
    MergeAppends(refs, results, str);
    MergeAppends(once, results, str);
    NewIdsFacts(Ids(refs), results, str);
    NewIdsFacts(Ids(once), results, str);
    hide *;
    var more := NewIds(Ids(once), results, str);
    EmptyOrNot(more);
    assert forall id :: id !in more;
  }

  lemma EmptyOrNot(s: seq<string>)
    ensures s == [] || exists x :: x in s
  {
    if s != [] {
      assert s[0] in s;
    }
  }

  /** `after` is `before` with gaps filled: nothing that was set is overwritten. */
  predicate Fills(before: MemoryRef, after: MemoryRef) {
    && after.memoryId == before.memoryId && after.source == before.source && after.scope == before.scope
    && after.sourceKind == before.sourceKind && after.sourceRef == before.sourceRef
    && (before.episodeId != "" ==> after.episodeId == before.episodeId)
    && (before.provenance != map[] ==> after.provenance == before.provenance)
    && (before.graphitiRecalled ==> after.graphitiRecalled)
  }

  lemma {:induction false} MergeFills(refs: seq<MemoryRef>, results: seq<RecallResult>, str: Json -> string)
    ensures |refs| <= |MergeAll(refs, results, str)|
    ensures forall i :: 0 <= i < |refs| ==> Fills(refs[i], MergeAll(refs, results, str)[i])
  {
    if results != [] {
      var n := |results| - 1;
      MergeFills(refs, results[..n], str);
      var before, r := MergeAll(refs, results[..n], str), results[n];
      EnrichedFills(before, r);
      hide Fills, Enriched;
      forall i | 0 <= i < |refs| ensures Fills(refs[i], MergeAll(refs, results, str)[i]) {
        FillsTransitive(refs[i], before[i], MergeAll(refs, results, str)[i]);
      }
    }
  }

  lemma EnrichedFills(refs: seq<MemoryRef>, r: RecallResult)
    ensures forall i :: 0 <= i < |refs| ==> Fills(refs[i], Enriched(refs[i], r)) && Fills(refs[i], refs[i])
  {
  }

  lemma FillsTransitive(a: MemoryRef, b: MemoryRef, c: MemoryRef)
    requires Fills(a, b) && Fills(b, c)
    ensures Fills(a, c)
  {
  }

  /** What becomes of the reference with one id: the results with that id, one after the other. */
  function Followed(start: Option<MemoryRef>, id: string, results: seq<RecallResult>, str: Json -> string): Option<MemoryRef> {
    if results == [] then start else
      var n := |results| - 1;
      var before := Followed(start, id, results[..n], str);
      if MemoryId(results[n], str) != id then before
      else if before.Some? then Some(Enriched(before.value, results[n]))
      else Some(RefOf(results[n], str))
  }

  /** The references are a map from ids: merging changes what an id leads to by that id's results and by nothing else. */
  lemma {:induction false} MergeIsMapUpdate(refs: seq<MemoryRef>, results: seq<RecallResult>, id: string, str: Json -> string)
    ensures Lookup(IdOf, MergeAll(refs, results, str), id) == Followed(Lookup(IdOf, refs, id), id, results, str)
  {
    if results != [] {
      var n := |results| - 1;
      MergeIsMapUpdate(refs, results[..n], id, str);
      MergeOneLookup(MergeAll(refs, results[..n], str), results[n], id, str);
    }
  }

  lemma MergeOneLookup(refs: seq<MemoryRef>, r: RecallResult, id: string, str: Json -> string)
    ensures Lookup(IdOf, MergeOne(refs, r, str), id) ==
            if MemoryId(r, str) != id then Lookup(IdOf, refs, id)
            else if Lookup(IdOf, refs, id).Some? then Some(Enriched(Lookup(IdOf, refs, id).value, r))
            else Some(RefOf(r, str))
  {
    var k := MemoryId(r, str);
    var i := Find(IdOf, refs, k);
    LookupMember(IdOf, refs, id);
    LookupMember(IdOf, MergeOne(refs, r, str), id);
    if i < |refs| {
      LookupSet(refs, i, Enriched(refs[i], r), id);
    } else {
      LookupPush(refs, RefOf(r, str), id);
    }
  }

  /** The memory a result stands for: the one its provenance names under `asset_id`, or else the result itself. */
  ghost predicate StandsFor(r: RecallResult, k: string, str: Json -> string) {
    var named := Get(r.provenance, "asset_id");
    if named in {JNull, JBool(false), JInt(0), JReal(0.0), JStr(""), JArr([]), JObj(map[])} then k == r.id
    else if named.JStr? then named == JStr(k)
    else k == str(named)
  }

  /** Merging a result touches what its memory leads to and nothing else: a reference that is there keeps its place and
      is only filled, a missing one is appended with what the result says. */
  lemma MergeTouchesItsMemory(refs: seq<MemoryRef>, r: RecallResult, k: string, str: Json -> string)
    requires StandsFor(r, k, str)
    ensures var after := MergeOne(refs, r, str);
            var before := Lookup(IdOf, refs, k);
            && (forall id :: id != k ==> Lookup(IdOf, after, id) == Lookup(IdOf, refs, id))
            && (before.None? ==>
                  after == refs + [MemoryRef(k, r.source, r.scope, r.sourceKind, r.sourceRef, r.provenance, r.episodeId, false, "")])
            && (before.Some? ==>
                  && Ids(after) == Ids(refs) && Lookup(IdOf, after, k).Some?
                  && FilledBy(before.value, Lookup(IdOf, after, k).value, r))
  {
    FalsyExactly(Get(r.provenance, "asset_id"));
    assert MemoryId(r, str) == k;
    hide MemoryId, Enriched;
    MergeOneLookup(refs, r, k, str);
    forall id | id != k ensures Lookup(IdOf, MergeOne(refs, r, str), id) == Lookup(IdOf, refs, id) {
      MergeOneLookup(refs, r, id, str);
    }
    MergeOneIds(refs, r, str);
    FindIn(refs, k);
    LookupMember(IdOf, refs, k);
    if Lookup(IdOf, refs, k).Some? {
      EnrichedFilled(Lookup(IdOf, refs, k).value, r);
    }
  }

  /** `after` is `before` with the gaps filled that `r` fills; a Graphiti result leaves its mark and its id. */
  ghost predicate FilledBy(before: MemoryRef, after: MemoryRef, r: RecallResult) {
    && Fills(before, after)
    && (before.episodeId == "" ==> after.episodeId == r.episodeId)
    && (before.provenance == map[] ==> after.provenance == r.provenance)
    && (if r.source == "graphiti" then after.graphitiRecalled && after.graphitiResultId == r.id
        else after.graphitiRecalled == before.graphitiRecalled && after.graphitiResultId == before.graphitiResultId)
  }

  lemma EnrichedFilled(ref: MemoryRef, r: RecallResult)
    ensures FilledBy(ref, Enriched(ref, r), r)
  {
  }

  lemma {:induction false} LookupSet(refs: seq<MemoryRef>, i: nat, x: MemoryRef, id: string)
    requires i < |refs| && x.memoryId == refs[i].memoryId
    requires forall j :: 0 <= j < i ==> refs[j].memoryId != refs[i].memoryId
    ensures Lookup(IdOf, refs[i := x], id) == if id == x.memoryId then Some(x) else Lookup(IdOf, refs, id)
  {
    var after := refs[i := x];
    if i > 0 {
      assert after[1..] == refs[1..][i - 1 := x];
      LookupSet(refs[1..], i - 1, x, id);
    } else {
      assert after[1..] == refs[1..];
    }
  }

  lemma {:induction false} LookupPush(refs: seq<MemoryRef>, x: MemoryRef, id: string)
    ensures Lookup(IdOf, refs + [x], id) ==
            if Lookup(IdOf, refs, id).Some? then Lookup(IdOf, refs, id) else if id == x.memoryId then Some(x) else None
  {
    if refs != [] {
      assert (refs + [x])[1..] == refs[1..] + [x];
      LookupPush(refs[1..], x, id);
    }
  }

  /** The first non-empty text. */
  function FirstEpisode(start: string, id: string, results: seq<RecallResult>, str: Json -> string): string
    decreases results
  {
    if start != "" || results == [] then start else
      FirstEpisode(if MemoryId(results[0], str) == id then results[0].episodeId else "", id, results[1..], str)
  }

  lemma {:induction false} FirstEpisodeLast(start: string, id: string, results: seq<RecallResult>, str: Json -> string)
    requires results != []
    ensures var n := |results| - 1;
            var before := FirstEpisode(start, id, results[..n], str);
            FirstEpisode(start, id, results, str) ==
            if before != "" || MemoryId(results[n], str) != id then before else results[n].episodeId
    decreases results
  {
    hide MemoryId;
    var n := |results| - 1;
    var next := if MemoryId(results[0], str) == id then results[0].episodeId else "";
    if start == "" && n > 0 {
      assert results[..n][1..] == results[1..][..n - 1];
      FirstEpisodeLast(next, id, results[1..], str);
    }
  }

  /** First writer wins: the episode of an id is the one its reference had or, if it had none, the first that a result
      with the id brings. Only a second sighting marks the reference as recalled: a new reference carries no mark. */
  lemma {:induction false} FollowedFacts(start: Option<MemoryRef>, id: string, results: seq<RecallResult>, str: Json -> string)
    requires start.Some? ==> start.value.memoryId == id
    requires forall i :: 0 <= i < |results| ==> results[i].source == "graphiti"
    ensures var end := Followed(start, id, results, str);
            var mentions := Mentions(id, results, str);
            && (end.None? <==> start.None? && mentions == 0)
            && (end.Some? ==>
                  && end.value.memoryId == id
                  && end.value.episodeId == FirstEpisode(if start.Some? then start.value.episodeId else "", id, results, str)
                  && (end.value.graphitiRecalled <==>
                        if start.Some? then start.value.graphitiRecalled || mentions > 0 else mentions > 1))
            && (start.None? && mentions == 0 ==> FirstEpisode("", id, results, str) == "")
  {
    hide MemoryId;
    if results != [] {
      var n := |results| - 1;
      FollowedFacts(start, id, results[..n], str);
      FirstEpisodeLast(if start.Some? then start.value.episodeId else "", id, results, str);
    }
  }

  /** The first provenance that is not empty. */
  function FirstProvenance(start: Object, id: string, results: seq<RecallResult>, str: Json -> string): Object
    decreases results
  {
    if start != map[] || results == [] then start else
      FirstProvenance(if MemoryId(results[0], str) == id then results[0].provenance else map[], id, results[1..], str)
  }

  lemma {:induction false} FirstProvenanceLast(start: Object, id: string, results: seq<RecallResult>, str: Json -> string)
    requires results != []
    ensures var n := |results| - 1;
            var before := FirstProvenance(start, id, results[..n], str);
            FirstProvenance(start, id, results, str) ==
            if before != map[] || MemoryId(results[n], str) != id then before else results[n].provenance
    decreases results
  {
    hide MemoryId;
    var n := |results| - 1;
    var next := if MemoryId(results[0], str) == id then results[0].provenance else map[];
    if start == map[] && n > 0 {
      assert results[..n][1..] == results[1..][..n - 1];
      FirstProvenanceLast(next, id, results[1..], str);
    }
  }

  /** The id of the last result that carries a memory id, "" when there is none. */
  function LastMention(id: string, results: seq<RecallResult>, str: Json -> string): string {
    if results == [] then ""
    else if MemoryId(results[|results| - 1], str) == id then results[|results| - 1].id
    else LastMention(id, results[..|results| - 1], str)
  }

  /** The first provenance wins too; of the result ids the last sighting wins, the first sighting of a new memory
      not counting. */
  lemma {:induction false} FollowedRest(start: Option<MemoryRef>, id: string, results: seq<RecallResult>, str: Json -> string)
    requires start.Some? ==> start.value.memoryId == id
    requires forall i :: 0 <= i < |results| ==> results[i].source == "graphiti"
    ensures var end := Followed(start, id, results, str);
            var mentions := Mentions(id, results, str);
            && (end.None? <==> start.None? && mentions == 0)
            && (start.None? && mentions == 0 ==> FirstProvenance(map[], id, results, str) == map[])
            && (end.Some? ==>
                  && end.value.provenance == FirstProvenance(if start.Some? then start.value.provenance else map[], id, results, str)
                  && end.value.graphitiResultId ==
                     if mentions > (if start.Some? then 0 else 1) then LastMention(id, results, str)
                     else if start.Some? then start.value.graphitiResultId else "")
  {
    hide MemoryId;
    if results != [] {
      var n := |results| - 1;
      FollowedRest(start, id, results[..n], str);
      FirstProvenanceLast(if start.Some? then start.value.provenance else map[], id, results, str);
    }
  }

  /** Snippets that were there stay where they are, none is added twice, and at most one for each new reference. */
  lemma {:induction false} SnippetsKept(refs: seq<MemoryRef>, memories: seq<string>, results: seq<RecallResult>, str: Json -> string)
    ensures var after := SnippetsAll(refs, memories, results, str);
            && memories <= after && (NoRepeats(memories) ==> NoRepeats(after))
            && |after| - |memories| <= |MergeAll(refs, results, str)| - |refs|
            && MemoryCount(after) - MemoryCount(memories) == |after| - |memories|
  {
    if results != [] {
      var n := |results| - 1;
      SnippetsKept(refs, memories, results[..n], str);
      var before := SnippetsAll(refs, memories, results[..n], str);
      AddSnippetFacts(before, results[n]);
      hide NoRepeats, AddSnippet, Snippet, MemoryCount;
    }
  }

  lemma AddSnippetFacts(memories: seq<string>, r: RecallResult)
    ensures var after := AddSnippet(memories, Snippet(r));
            && memories <= after && (NoRepeats(memories) ==> NoRepeats(after)) && |after| <= |memories| + 1
            && MemoryCount(after) - MemoryCount(memories) == |after| - |memories|
  {
    assert IsMemory(Snippet(r)) by { SnippetIsMemory(r); }
    hide Snippet;
    assert (memories + [Snippet(r)])[..|memories|] == memories;
  }

  /** A memory is a snippet that begins with the mark, even if nothing follows it. */
  lemma IsMemoryExactly(snippet: string, rest: string)
    ensures snippet == "[memory:" + rest ==> IsMemory(snippet)
    ensures IsMemory(snippet) ==> exists rest :: snippet == "[memory:" + rest
  {
    if IsMemory(snippet) {
      assert snippet == "[memory:" + snippet[8..];
    }
  }

  lemma SnippetIsMemory(r: RecallResult)
    ensures IsMemory(Snippet(r))
  {
    var rest := r.id + "] " + r.content + " (scope=" + r.scope.kind + ":" + r.scope.ref
      + "; source=" + r.sourceKind + ":" + r.sourceRef + ")";
    assert Snippet(r) == "[memory:" + rest;
  }
}
