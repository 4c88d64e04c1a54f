/** The retained evidence of the verification runs, and the gaps in it. */
module Evidence {
  import opened Keyed
  import opened StableSort
  import opened Text

  function If(condition: bool, gap: string): seq<string> { if condition then [gap] else [] }

  // ---- the queue worker daemon ----

  /** The numbers of the queue worker smoke. */
  datatype QueueSmoke = QueueSmoke(
    daemonStatus: string, innerStatus: string, payloadStatus: string,
    failedDelta: int, processedStatuses: seq<string>, policyActionKinds: seq<string>, assetCandidateIds: seq<string>,
    policyActionDelta: int, tickDelta: int, processedDelta: int, minTicks: int, lastError: string)

  datatype QueueWorker = QueueWorker(status: string, soakPassed: bool, repeatedFailurePolicy: bool, lastError: string)

  function Occurrences(texts: seq<string>, t: string): nat {
    if texts == [] then 0 else Occurrences(texts[1..], t) + if texts[0] == t then 1 else 0
  }

  function QueueEvidence(q: QueueSmoke): QueueWorker {
    var policy := && q.failedDelta >= 2
                  && Occurrences(q.processedStatuses, "blocked") + Occurrences(q.processedStatuses, "failed") >= 2
                  && "failure_retrospective_candidate" in q.policyActionKinds
                  && q.assetCandidateIds != [] && q.policyActionDelta >= 1;
    QueueWorker(OrElse(q.daemonStatus, OrElse(q.innerStatus, OrElse(q.payloadStatus, "unknown"))),
                q.minTicks >= 6 && q.tickDelta >= q.minTicks && q.processedDelta >= 2, policy, q.lastError)
  }

  function QueueGaps(q: QueueWorker): seq<string> {
    var status := OrElse(q.status, "unknown");
    If(status != "passed", "queue_worker_daemon_" + status)
    + If(!q.soakPassed, "queue_worker_daemon_soak_missing")
    + If(!q.repeatedFailurePolicy, "queue_worker_repeated_failure_policy_missing")
    + If(q.lastError != "", "queue_worker_daemon_last_error")
  }

  /** The soak the gate asks for: a passed daemon that ran at least its six or more ticks, processed twice, met repeated
      failures with a retrospective, and ended without an error. */
  predicate SoakHealthy(q: QueueSmoke) {
    && OrElse(q.daemonStatus, OrElse(q.innerStatus, q.payloadStatus)) == "passed"
    && 6 <= q.minTicks <= q.tickDelta && q.processedDelta >= 2
    && q.failedDelta >= 2
    && Occurrences(q.processedStatuses, "blocked") + Occurrences(q.processedStatuses, "failed") >= 2
    && "failure_retrospective_candidate" in q.policyActionKinds
    && q.assetCandidateIds != [] && q.policyActionDelta >= 1
    && q.lastError == ""
  }

  lemma QueueGapsNone(q: QueueSmoke)
    ensures QueueGaps(QueueEvidence(q)) == [] <==> SoakHealthy(q)
  {
  }

  // ---- the live dogfood ----

  datatype DogfoodArtifact = DogfoodArtifact(
    status: string, profile: string, executorId: string, runtimeStatus: string, naturalHandoff: bool,
    expectedTarget: string, handoffStatus: string, handoffTarget: string, handoffRefs: int, finishedAt: Option<int>)

  datatype Dogfood = Dogfood(artifact: DogfoodArtifact, isFresh: bool, freshnessStatus: string, ageSeconds: int)

  /** Whole seconds since the run finished; -1 when its time cannot be read. */
  function AgeSeconds(finishedAt: Option<int>, now: int): int {
    match finishedAt
    case None => -1
    case Some(t) => if now - t > 0 then now - t else 0
  }

  function Freshness(status: string, age: int, maxAge: int): string {
    if status != "completed" && status != "passed" && status != "ready" then "not_completed"
    else if age < 0 then "unknown_age"
    else if age > maxAge then "stale"
    else "fresh"
  }

  function DogfoodEvidence(a: DogfoodArtifact, now: int, maxAge: int): Dogfood {
    var age := AgeSeconds(a.finishedAt, now);
    var freshness := Freshness(a.status, age, maxAge);
    Dogfood(a, freshness == "fresh", freshness, age)
  }

  predicate HandoffComplete(a: DogfoodArtifact) {
    && a.naturalHandoff && a.handoffStatus == "durable_handoff_recorded"
    && a.handoffTarget == OrElse(a.expectedTarget, "alex") && a.handoffRefs >= 1
  }

  function DogfoodGaps(d: Dogfood): seq<string> {
    var a := d.artifact;
    If(!d.isFresh, "live_provider_dogfood_" + OrElse(d.freshnessStatus, "not_fresh"))
    + If(a.profile != "core_loop", "live_provider_dogfood_profile_not_core_loop")
    + If(a.executorId != "langgraph", "live_provider_dogfood_executor_not_langgraph")
    + If(a.runtimeStatus != "completed", "live_provider_dogfood_runtime_not_completed")
    + If(a.profile == "core_loop" && !HandoffComplete(a), "live_provider_dogfood_natural_handoff_missing")
  }

  /** The dogfood the gate asks for: finished at a known time not longer ago than allowed, as a core loop in LangGraph
      with its handoff. */
  predicate DogfoodHealthy(a: DogfoodArtifact, now: int, maxAge: int) {
    && (a.status == "completed" || a.status == "passed" || a.status == "ready")
    && a.finishedAt.Some? && now - a.finishedAt.value <= maxAge
    && a.profile == "core_loop" && a.executorId == "langgraph" && a.runtimeStatus == "completed" && HandoffComplete(a)
  }

  lemma DogfoodGapsNone(a: DogfoodArtifact, now: int, maxAge: nat)
    ensures DogfoodGaps(DogfoodEvidence(a, now, maxAge)) == [] <==> DogfoodHealthy(a, now, maxAge)
  {
  }

  // ---- the Agent Server matrix ----

  datatype AgentCase = AgentCase(
    status: string, smokeStatus: string, action: string, runtimeStatus: string, currentNode: string,
    approvalRef: string, approvalRequests: int, providerBlockers: int, blockerReasons: seq<string>,
    handoffTarget: string, handoffStatus: string, matchedScopes: seq<string>, riskLevel: string, riskAllowed: bool,
    handoffRefs: int, resumeStatus: string, resumeNode: string, resumeReportId: string, resumeLinkedAssets: int,
    reviewStatus: string, reviewTicketStatus: string, reviewReportTypes: seq<string>, reviewTimeline: seq<string>)

  datatype Provider = Provider(selected: string, configInspected: bool, noExternalCall: bool, packages: seq<string>)

  /** The smoke files of one run: a case whose file exists but cannot be read is there without content. */
  datatype MatrixFiles = MatrixFiles(cases: map<string, Option<AgentCase>>, primary: bool, provider: Option<Provider>)

  datatype AgentServer = AgentServer(status: string, gaps: seq<string>, complete: bool, caseCount: nat)

  const CaseNames := [
    "readonly_list", "answer_only", "provider_blocker", "handoff_policy", "approval_resume", "approval_evidence_review",
    "approval_rejected_review", "approval_changes_review"]

  predicate CasePassed(c: AgentCase) { c.status == "passed" && c.smokeStatus == "passed" }

  predicate Answered(c: AgentCase, action: string) {
    && CasePassed(c) && c.action == action && c.runtimeStatus == "completed" && c.currentNode == "final_response"
    && c.approvalRequests == 0 && c.providerBlockers == 0
  }

  predicate BlockerVisible(c: AgentCase) {
    CasePassed(c) && c.providerBlockers >= 1 && "plane_setup_blocker" in c.blockerReasons
  }

  predicate HandoffPolicyComplete(c: AgentCase) {
    && Answered(c, "answer_only") && c.handoffTarget == "victor" && c.handoffStatus == "durable_handoff_recorded"
    && "employee:victor" in c.matchedScopes && c.riskLevel == "critical" && c.riskAllowed && c.handoffRefs >= 1
  }

  predicate Interrupted(c: AgentCase) {
    && CasePassed(c) && c.action == "implement_ticket" && c.runtimeStatus == "needs_approval"
    && c.currentNode == "approval_interrupt" && c.approvalRequests >= 1 && c.approvalRef != ""
  }

  predicate ResumeComplete(c: AgentCase) {
    && Interrupted(c) && c.resumeStatus == "completed" && c.resumeNode == "final_response"
    && c.resumeReportId != "" && c.resumeLinkedAssets >= 1
  }

  predicate ReviewComplete(c: AgentCase, review: string, ticket: string, report: string, timeline: string) {
    && Interrupted(c) && c.reviewStatus == review && c.reviewTicketStatus == ticket
    && report in c.reviewReportTypes && timeline in c.reviewTimeline
  }

  predicate ProviderVisible(p: Option<Provider>) {
    && p.Some? && p.value.selected == "deepseek" && p.value.configInspected && p.value.noExternalCall
    && "langchain-deepseek" in p.value.packages
  }

  /** Does the case of this name exist, can it be read, and does it satisfy `good`? */
  predicate Covers(m: MatrixFiles, name: string, good: AgentCase -> bool) {
    name in m.cases && m.cases[name].Some? && good(m.cases[name].value)
  }

  datatype Coverage = Coverage(name: string, met: bool)

  function CoverageOf(m: MatrixFiles): seq<Coverage> {
    [Coverage("readonly_complete", Covers(m, "readonly_list", c => Answered(c, "list_employees"))),
     Coverage("answer_only_complete", Covers(m, "answer_only", c => Answered(c, "answer_only"))),
     Coverage("provider_blocker_visible", Covers(m, "provider_blocker", BlockerVisible)),
     Coverage("handoff_policy_memory_risk", Covers(m, "handoff_policy", HandoffPolicyComplete)),
     Coverage("approval_interrupt", Covers(m, "approval_resume", Interrupted)),
     Coverage("approval_resume_complete", Covers(m, "approval_resume", ResumeComplete)),
     Coverage("review_evidence_requested", Covers(m, "approval_evidence_review", c =>
       ReviewComplete(c, "evidence_requested", "waiting_evidence", "approval_evidence_requested", "evidence_requested"))),
     Coverage("review_rejected", Covers(m, "approval_rejected_review", c =>
       ReviewComplete(c, "rejected", "blocked", "approval_rejected", "rejected"))),
     Coverage("review_changes_requested", Covers(m, "approval_changes_review", c =>
       ReviewComplete(c, "changes_requested", "waiting_changes", "approval_changes_requested", "changes_requested"))),
     Coverage("langchain_provider_boundary_visible", ProviderVisible(m.provider))]
  }

  function Present(m: MatrixFiles): seq<string> { Filter(name => name in m.cases, CaseNames) }

  function Prefixed(prefix: string, names: seq<string>): (texts: seq<string>)
    ensures |texts| == |names| && forall i :: 0 <= i < |texts| ==> texts[i] == prefix + names[i]
  {
    seq(|names|, i requires 0 <= i < |names| => prefix + names[i])
  }

  function Missing(m: MatrixFiles): seq<string> { Filter(name => name !in m.cases, CaseNames) }

  function FailedCases(m: MatrixFiles): seq<string> {
    Filter(name => name in m.cases && !Covers(m, name, CasePassed), CaseNames)
  }

  function Unmet(coverage: seq<Coverage>): seq<string> {
    if coverage == [] then [] else If(!coverage[0].met, coverage[0].name + "_missing") + Unmet(coverage[1..])
  }

  function MatrixGaps(m: MatrixFiles): seq<string> {
    Prefixed("agent_server_case_missing:", Missing(m)) + Prefixed("agent_server_case_failed:", FailedCases(m))
    + Prefixed("agent_server_coverage:", Unmet(CoverageOf(m)))
  }

  /** No evidence at all when no case file exists and the primary smoke is missing too. */
  function MatrixEvidence(m: MatrixFiles): Option<AgentServer> {
    if Present(m) == [] && !m.primary then None else
      var gaps := MatrixGaps(m);
      var count := |Present(m)|;
      Some(AgentServer(if count > 0 && gaps == [] then "passed" else "partial", gaps, count > 0 && gaps == [], count))
  }

  /** What the matrix is for, case by case. */
  predicate MatrixHealthy(m: MatrixFiles) {
    && (forall i :: 0 <= i < |CaseNames| ==> Covers(m, CaseNames[i], CasePassed))
    && Covers(m, "readonly_list", c => Answered(c, "list_employees"))
    && Covers(m, "answer_only", c => Answered(c, "answer_only"))
    && Covers(m, "provider_blocker", BlockerVisible)
    && Covers(m, "handoff_policy", HandoffPolicyComplete)
    && Covers(m, "approval_resume", ResumeComplete)
    && Covers(m, "approval_evidence_review", c =>
         ReviewComplete(c, "evidence_requested", "waiting_evidence", "approval_evidence_requested", "evidence_requested"))
    && Covers(m, "approval_rejected_review", c =>
         ReviewComplete(c, "rejected", "blocked", "approval_rejected", "rejected"))
    && Covers(m, "approval_changes_review", c =>
         ReviewComplete(c, "changes_requested", "waiting_changes", "approval_changes_requested", "changes_requested"))
    && ProviderVisible(m.provider)
  }

  lemma {:induction false} UnmetNone(coverage: seq<Coverage>)
    ensures Unmet(coverage) == [] <==> forall i :: 0 <= i < |coverage| ==> coverage[i].met
  {
    if coverage != [] {
      UnmetNone(coverage[1..]);
      assert forall i :: 0 < i < |coverage| ==> coverage[i] == coverage[1..][i - 1];
    }
  }

  lemma {:induction false} FilterNone<T>(p: T -> bool, s: seq<T>)
    ensures Filter(p, s) == [] <==> forall i :: 0 <= i < |s| ==> !p(s[i])
  {
    if s != [] {
      FilterNone(p, s[1..]);
      assert forall i :: 0 < i < |s| ==> s[i] == s[1..][i - 1];
    }
  }

  lemma CoverageMet(m: MatrixFiles)
    requires forall i :: 0 <= i < |CaseNames| ==> Covers(m, CaseNames[i], CasePassed)
    ensures Unmet(CoverageOf(m)) == [] <==> MatrixHealthy(m)
  {
    hide Answered, BlockerVisible, HandoffPolicyComplete, ReviewComplete, ProviderVisible, Unmet;
    var coverage := CoverageOf(m);
    UnmetNone(coverage);
    if MatrixHealthy(m) {
      assert coverage[4].met;
    }
    if forall i :: 0 <= i < |coverage| ==> coverage[i].met {
      assert coverage[0].met && coverage[1].met && coverage[2].met && coverage[3].met && coverage[5].met;
      assert coverage[6].met && coverage[7].met && coverage[8].met && coverage[9].met;
    }
  }

  lemma MatrixGapsNone(m: MatrixFiles)
    ensures MatrixGaps(m) == [] <==> MatrixHealthy(m)
    ensures MatrixHealthy(m) ==> Present(m) != []
  {
    FilterNone(name => name !in m.cases, CaseNames);
    FilterNone(name => name in m.cases && !Covers(m, name, CasePassed), CaseNames);
    FilterNone(name => name in m.cases, CaseNames);
    hide Filter, Unmet, CoverageOf, MatrixHealthy;
    if forall i :: 0 <= i < |CaseNames| ==> Covers(m, CaseNames[i], CasePassed) {
      CoverageMet(m);
      assert CaseNames[0] in m.cases;
    } else {
      HealthyPassed(m);
    }
  }

  lemma HealthyPassed(m: MatrixFiles)
    ensures MatrixHealthy(m) ==> forall i :: 0 <= i < |CaseNames| ==> Covers(m, CaseNames[i], CasePassed)
  {
  }

  // ---- what is retained across runs ----

  /** What one run left behind. */
  datatype RunEvidence = RunEvidence(
    runId: string, manifestPath: string, finishedAt: int,
    matrix: Option<AgentServer>, queue: Option<QueueWorker>, dogfood: Option<Dogfood>)

  datatype Retained<T> = Retained(evidence: T, runId: string, manifestPath: string)

  datatype RetainedEvidence = RetainedEvidence(
    matrix: Option<Retained<AgentServer>>, queue: Option<Retained<QueueWorker>>, dogfood: Option<Retained<Dogfood>>)

  /** The first evidence of a kind, in the order of the runs. */
  function First<T>(pick: RunEvidence -> Option<T>, runs: seq<RunEvidence>): Option<Retained<T>> {
    if runs == [] then None
    else if pick(runs[0]).Some? then Some(Retained(pick(runs[0]).value, runs[0].runId, runs[0].manifestPath))
    else First(pick, runs[1..])
  }

  function Matrix(r: RunEvidence): Option<AgentServer> { r.matrix }
  function Queue(r: RunEvidence): Option<QueueWorker> { r.queue }
  function LiveDogfood(r: RunEvidence): Option<Dogfood> { r.dogfood }

  function RetainedOf(runs: seq<RunEvidence>): RetainedEvidence {
    RetainedEvidence(First(Matrix, runs), First(Queue, runs), First(LiveDogfood, runs))
  }

  /** One key: what is there stays, otherwise the run's evidence is taken. */
  function Keep<T>(kept: Option<Retained<T>>, found: Option<T>, run: RunEvidence): Option<Retained<T>> {
    if kept.None? && found.Some? then Some(Retained(found.value, run.runId, run.manifestPath)) else kept
  }

  lemma {:induction false} FirstAppend<T>(pick: RunEvidence -> Option<T>, newer: seq<RunEvidence>, older: seq<RunEvidence>)
    ensures First(pick, newer + older) == if First(pick, newer).Some? then First(pick, newer) else First(pick, older)
  {
    if newer == [] {
      assert newer + older == older;
    } else {
      FirstAppend(pick, newer[1..], older);
      assert (newer + older)[1..] == newer[1..] + older;
    }
  }

  lemma FirstPush<T>(pick: RunEvidence -> Option<T>, runs: seq<RunEvidence>, i: nat)
    requires i < |runs|
    ensures First(pick, runs[..i + 1]) == Keep(First(pick, runs[..i]), pick(runs[i]), runs[i])
  {
    assert runs[..i + 1] == runs[..i] + [runs[i]];
    FirstAppend(pick, runs[..i], [runs[i]]);
  }

  method RetainEvidence(runs: seq<RunEvidence>) returns (kept: RetainedEvidence)
    ensures kept == RetainedOf(runs)
  {
    kept := RetainedEvidence(None, None, None);
    var i := 0;
    while i < |runs|
      invariant i <= |runs| && kept == RetainedOf(runs[..i])
    {
      var run := runs[i];
      FirstPush(Matrix, runs, i);
      FirstPush(Queue, runs, i);
      FirstPush(LiveDogfood, runs, i);
      if kept.matrix.None? && run.matrix.Some? {
        kept := kept.(matrix := Some(Retained(run.matrix.value, run.runId, run.manifestPath)));
      }
      if kept.queue.None? && run.queue.Some? {
        kept := kept.(queue := Some(Retained(run.queue.value, run.runId, run.manifestPath)));
      }
      if kept.dogfood.None? && run.dogfood.Some? {
        kept := kept.(dogfood := Some(Retained(run.dogfood.value, run.runId, run.manifestPath)));
      }
      i := i + 1;
      if kept.matrix.Some? && kept.queue.Some? && kept.dogfood.Some? {
        break;
      }
    }
    OlderRunsOnlyFill(runs[..i], runs[i..]);
    assert runs[..i] + runs[i..] == runs;
    assert runs[..|runs|] == runs;
  }

  /** Older runs only fill what the newer ones lack. */
  lemma OlderRunsOnlyFill(newer: seq<RunEvidence>, older: seq<RunEvidence>)
    ensures var a, b, c := RetainedOf(newer), RetainedOf(older), RetainedOf(newer + older);
            && c.matrix == (if a.matrix.Some? then a.matrix else b.matrix)
            && c.queue == (if a.queue.Some? then a.queue else b.queue)
            && c.dogfood == (if a.dogfood.Some? then a.dogfood else b.dogfood)
  {
    FirstAppend(Matrix, newer, older);
    FirstAppend(Queue, newer, older);
    FirstAppend(LiveDogfood, newer, older);
  }

  /** The manifests, latest first; equal times keep their order. */
  function LatestFirst(runs: seq<RunEvidence>): seq<RunEvidence> { SortBy((r: RunEvidence) => -r.finishedAt, runs) }

  /** `manifests[:limit]`. */
  function Newest(runs: seq<RunEvidence>, limit: nat): seq<RunEvidence> {
    var sorted := LatestFirst(runs);
    if limit < |sorted| then sorted[..limit] else sorted
  }

  /** Cutting the list at a limit loses nothing newer than what is retained: each kind comes from a run that has it,
      and no run among all that has it, inspected or not, finished later. */
  lemma {:induction false} RetainedIsLatest<T(!new)>(pick: RunEvidence -> Option<T>, runs: seq<RunEvidence>, limit: nat)
    ensures |LatestFirst(runs)| == |runs| && Newest(runs, limit) <= LatestFirst(runs)
    ensures |Newest(runs, limit)| == if limit < |runs| then limit else |runs|
    ensures var kept := First(pick, Newest(runs, limit));
            kept.Some? ==> exists r :: r in runs && IsLatest(pick, runs, r) &&
                                       kept.value == Retained(pick(r).value, r.runId, r.manifestPath)
  {
    var key := (r: RunEvidence) => -r.finishedAt;
    SortFacts(key, runs);
    hide SortBy;
    var sorted := LatestFirst(runs);
    var selected := Newest(runs, limit);
    var kept := First(pick, selected);
    if kept.Some? {
      var i := FirstIndex(pick, selected);
      var r := sorted[i];
      assert r in sorted && forall k :: 0 <= k < |selected| ==> selected[k] == sorted[k];
      forall other | other in runs && pick(other).Some? ensures other.finishedAt <= r.finishedAt {
        assert other in sorted;
        var j :| 0 <= j < |sorted| && sorted[j] == other;
        assert i <= j;
        assert key(sorted[i]) <= key(sorted[j]);
      }
      assert IsLatest(pick, runs, r);
    }
  }

  ghost predicate IsLatest<T(!new)>(pick: RunEvidence -> Option<T>, runs: seq<RunEvidence>, r: RunEvidence) {
    pick(r).Some? && forall other :: other in runs && pick(other).Some? ==> other.finishedAt <= r.finishedAt
  }

  lemma {:induction false} FirstIndex<T>(pick: RunEvidence -> Option<T>, runs: seq<RunEvidence>) returns (i: nat)
    requires First(pick, runs).Some?
    ensures i < |runs| && pick(runs[i]).Some?
    ensures First(pick, runs).value == Retained(pick(runs[i]).value, runs[i].runId, runs[i].manifestPath)
    ensures forall j :: 0 <= j < i ==> pick(runs[j]).None?
  {
    if pick(runs[0]).Some? {
      i := 0;
    } else {
      var k := FirstIndex(pick, runs[1..]);
      i := k + 1;
      assert forall j :: 0 < j < i ==> runs[j] == runs[1..][j - 1];
    }
  }

  // ---- the gaps ----

  predicate NonEmpty(s: string) { s != "" }

  function RetainedGaps(kept: RetainedEvidence): seq<string> {
    (if kept.matrix.None? then ["agent_server_matrix_smoke_missing"]
     else Filter(NonEmpty, kept.matrix.value.evidence.gaps))
    + (if kept.queue.None? then ["queue_worker_daemon_missing"] else QueueGaps(kept.queue.value.evidence))
    + (if kept.dogfood.None? then ["live_provider_dogfood_missing"] else DogfoodGaps(kept.dogfood.value.evidence))
  }

  /** The loop over the matrix's own gaps. */
  method MatrixGapTexts(found: seq<string>) returns (gaps: seq<string>)
    ensures gaps == Filter(NonEmpty, found)
  {
    gaps := [];
    for i := 0 to |found|
      invariant gaps == Filter(NonEmpty, found[..i])
    {
      FilterLast(NonEmpty, found[..i + 1]);
      assert found[..i + 1][..i] == found[..i];
      if found[i] != "" {
        gaps := gaps + [found[i]];
      }
    }
    assert found[..|found|] == found;
  }

  method RetainedEvidenceGaps(kept: RetainedEvidence) returns (gaps: seq<string>)
    ensures gaps == RetainedGaps(kept)
  {
    hide QueueGaps, DogfoodGaps, Filter;
    gaps := [];
    if kept.matrix.None? {
      gaps := gaps + ["agent_server_matrix_smoke_missing"];
    } else {
      gaps := MatrixGapTexts(kept.matrix.value.evidence.gaps);
    }
    if kept.queue.None? {
      gaps := gaps + ["queue_worker_daemon_missing"];
    } else {
      gaps := gaps + QueueGaps(kept.queue.value.evidence);
    }
    if kept.dogfood.None? {
      gaps := gaps + ["live_provider_dogfood_missing"];
    } else {
      gaps := gaps + DogfoodGaps(kept.dogfood.value.evidence);
    }
  }

  /** The files of one run, from which its evidence is read. */
  datatype RunFiles = RunFiles(
    runId: string, manifestPath: string, finishedAt: int,
    matrix: MatrixFiles, queue: Option<QueueSmoke>, dogfood: Option<DogfoodArtifact>)

  function Read(f: RunFiles, now: int, maxAge: int): RunEvidence {
    RunEvidence(f.runId, f.manifestPath, f.finishedAt, MatrixEvidence(f.matrix),
                if f.queue.Some? then Some(QueueEvidence(f.queue.value)) else None,
                if f.dogfood.Some? then Some(DogfoodEvidence(f.dogfood.value, now, maxAge)) else None)
  }

  function ReadAll(files: seq<RunFiles>, now: int, maxAge: int): (runs: seq<RunEvidence>)
    ensures |runs| == |files| && forall i :: 0 <= i < |runs| ==> runs[i] == Read(files[i], now, maxAge)
  {
    seq(|files|, i requires 0 <= i < |files| => Read(files[i], now, maxAge))
  }

  /** The first run with any matrix evidence has a healthy matrix; and so for the soak and the dogfood. */
  predicate FirstMatrixHealthy(files: seq<RunFiles>) {
    files != [] && if MatrixEvidence(files[0].matrix).Some? then MatrixHealthy(files[0].matrix) else FirstMatrixHealthy(files[1..])
  }

  predicate FirstQueueHealthy(files: seq<RunFiles>) {
    files != [] && if files[0].queue.Some? then SoakHealthy(files[0].queue.value) else FirstQueueHealthy(files[1..])
  }

  predicate FirstDogfoodHealthy(files: seq<RunFiles>, now: int, maxAge: int) {
    files != [] && if files[0].dogfood.Some? then DogfoodHealthy(files[0].dogfood.value, now, maxAge)
                   else FirstDogfoodHealthy(files[1..], now, maxAge)
  }

  lemma {:induction false} FirstMatrixGaps(files: seq<RunFiles>, now: int, maxAge: int)
    ensures var kept := First(Matrix, ReadAll(files, now, maxAge));
            (kept.Some? && Filter(NonEmpty, kept.value.evidence.gaps) == []) <==> FirstMatrixHealthy(files)
  {
    if files != [] {
      assert ReadAll(files, now, maxAge)[1..] == ReadAll(files[1..], now, maxAge);
      FirstMatrixGaps(files[1..], now, maxAge);
      MatrixGapsNone(files[0].matrix);
      FilterNone(NonEmpty, MatrixGaps(files[0].matrix));
      GapsHaveText(files[0].matrix);
      hide MatrixHealthy, MatrixGaps, Filter, Present;
    }
  }

  lemma GapsHaveText(m: MatrixFiles)
    ensures forall i :: 0 <= i < |MatrixGaps(m)| ==> NonEmpty(MatrixGaps(m)[i])
  {
    hide Missing, FailedCases, Unmet;
  }

  lemma {:induction false} FirstQueueGaps(files: seq<RunFiles>, now: int, maxAge: int)
    ensures var kept := First(Queue, ReadAll(files, now, maxAge));
            (kept.Some? && QueueGaps(kept.value.evidence) == []) <==> FirstQueueHealthy(files)
  {
    if files != [] {
      assert ReadAll(files, now, maxAge)[1..] == ReadAll(files[1..], now, maxAge);
      FirstQueueGaps(files[1..], now, maxAge);
      if files[0].queue.Some? {
        QueueGapsNone(files[0].queue.value);
      }
      hide QueueGaps, QueueEvidence, SoakHealthy;
    }
  }

  lemma {:induction false} FirstDogfoodGaps(files: seq<RunFiles>, now: int, maxAge: nat)
    ensures var kept := First(LiveDogfood, ReadAll(files, now, maxAge));
            (kept.Some? && DogfoodGaps(kept.value.evidence) == []) <==> FirstDogfoodHealthy(files, now, maxAge)
  {
    if files != [] {
      assert ReadAll(files, now, maxAge)[1..] == ReadAll(files[1..], now, maxAge);
      FirstDogfoodGaps(files[1..], now, maxAge);
      if files[0].dogfood.Some? {
        DogfoodGapsNone(files[0].dogfood.value, now, maxAge);
      }
      hide DogfoodGaps, DogfoodEvidence, DogfoodHealthy;
    }
  }

  /** No gap is reported exactly when, of each kind, the latest evidence there is meets every condition: all eight cases
      and all ten kinds of coverage, the whole soak, and a fresh dogfood. */
  lemma NoGapsExactly(files: seq<RunFiles>, now: int, maxAge: nat)
    ensures RetainedGaps(RetainedOf(ReadAll(files, now, maxAge))) == [] <==>
            FirstMatrixHealthy(files) && FirstQueueHealthy(files) && FirstDogfoodHealthy(files, now, maxAge)
  {
    FirstMatrixGaps(files, now, maxAge);
    FirstQueueGaps(files, now, maxAge);
    FirstDogfoodGaps(files, now, maxAge);
    hide QueueGaps, DogfoodGaps, Filter, First;
  }

  /** The matrix retained is that of the first run whose files hold any, under that run's id and manifest. */
  lemma MatrixNamesItsRun(files: seq<RunFiles>, now: int, maxAge: int)
    ensures var kept := First(Matrix, ReadAll(files, now, maxAge));
            kept.Some? ==> exists i :: 0 <= i < |files| && MatrixEvidence(files[i].matrix) == Some(kept.value.evidence)
                                       && kept.value.runId == files[i].runId && kept.value.manifestPath == files[i].manifestPath
                                       && forall j :: 0 <= j < i ==> MatrixEvidence(files[j].matrix).None?
  {
    hide MatrixEvidence, QueueEvidence, DogfoodEvidence, First;
    var runs := ReadAll(files, now, maxAge);
    if First(Matrix, runs).Some? {
      var i := FirstIndex(Matrix, runs);
      assert forall j :: 0 <= j <= i ==> Matrix(runs[j]) == MatrixEvidence(files[j].matrix);
    }
  }

  // ---- the latest complete matrix ----

  /** A run's matrix, when it is complete. */
  function CompleteMatrix(r: RunEvidence): Option<AgentServer> {
    if r.matrix.Some? && r.matrix.value.complete then r.matrix else None
  }

  lemma CompleteExactly(m: MatrixFiles)
    ensures MatrixHealthy(m) <==> MatrixEvidence(m).Some? && MatrixEvidence(m).value.complete
  {
    MatrixGapsNone(m);
    hide MatrixHealthy, MatrixGaps, Present;
  }

  /** Exactly when the matrix retained is the latest complete one: when the first run with any matrix evidence has a
      complete matrix, or no run has any. */
  lemma {:induction false} RetainsLatestComplete(files: seq<RunFiles>, now: int, maxAge: int)
    ensures var runs := ReadAll(files, now, maxAge);
            First(Matrix, runs) == First(CompleteMatrix, runs) <==>
              FirstMatrixHealthy(files) || forall i :: 0 <= i < |files| ==> MatrixEvidence(files[i].matrix).None?
  {
    if files != [] {
      var runs := ReadAll(files, now, maxAge);
      assert runs[1..] == ReadAll(files[1..], now, maxAge);
      RetainsLatestComplete(files[1..], now, maxAge);
      CompleteExactly(files[0].matrix);
      FirstComplete(runs[1..]);
      hide MatrixHealthy, MatrixEvidence, QueueEvidence, DogfoodEvidence;
      assert runs[0].matrix == MatrixEvidence(files[0].matrix);
      NoneAmong(files);
    }
  }

  lemma NoneAmong(files: seq<RunFiles>)
    requires files != []
    ensures (forall i :: 0 <= i < |files| ==> MatrixEvidence(files[i].matrix).None?) <==>
              && MatrixEvidence(files[0].matrix).None?
              && forall i :: 0 <= i < |files[1..]| ==> MatrixEvidence(files[1..][i].matrix).None?
  {
    hide MatrixEvidence;
    assert forall i :: 0 < i < |files| ==> files[i] == files[1..][i - 1];
  }

  lemma {:induction false} FirstComplete(runs: seq<RunEvidence>)
    ensures First(CompleteMatrix, runs).Some? ==> First(CompleteMatrix, runs).value.evidence.complete
  {
    if runs != [] {
      FirstComplete(runs[1..]);
    }
  }

  /** A run of which only one case file was written, and that one unreadable. */
  const INTERRUPTED := RunFiles("interrupted", "interrupted/manifest.json", 2,
                                MatrixFiles(map["readonly_list" := None], false, None), None, None)

  const PLAIN_CASE := AgentCase("passed", "passed", "", "", "", "", 0, 0, [], "", "", [], "", false, 0, "", "", "", 0, "", "", [], [])

  const ANSWERED := PLAIN_CASE.(action := "answer_only", runtimeStatus := "completed", currentNode := "final_response")

  const ASKED := PLAIN_CASE.(action := "implement_ticket", runtimeStatus := "needs_approval",
                             currentNode := "approval_interrupt", approvalRequests := 1, approvalRef := "approval-1")

  function Review(status: string, ticket: string, report: string): AgentCase {
    ASKED.(reviewStatus := status, reviewTicketStatus := ticket, reviewReportTypes := [report], reviewTimeline := [status])
  }

  /** A run in which every case passes. */
  const WHOLE := RunFiles(
    "whole", "whole/manifest.json", 1,
    MatrixFiles(
      map["readonly_list" := Some(ANSWERED.(action := "list_employees")),
          "answer_only" := Some(ANSWERED),
          "provider_blocker" := Some(PLAIN_CASE.(providerBlockers := 1, blockerReasons := ["plane_setup_blocker"])),
          "handoff_policy" := Some(ANSWERED.(handoffTarget := "victor", handoffStatus := "durable_handoff_recorded",
                                             matchedScopes := ["employee:victor"], riskLevel := "critical",
                                             riskAllowed := true, handoffRefs := 1)),
          "approval_resume" := Some(ASKED.(resumeStatus := "completed", resumeNode := "final_response",
                                           resumeReportId := "report-1", resumeLinkedAssets := 1)),
          "approval_evidence_review" := Some(Review("evidence_requested", "waiting_evidence", "approval_evidence_requested")),
          "approval_rejected_review" := Some(Review("rejected", "blocked", "approval_rejected")),
          "approval_changes_review" := Some(Review("changes_requested", "waiting_changes", "approval_changes_requested"))],
      false, Some(Provider("deepseek", true, true, ["langchain-deepseek"]))),
    None, None)

  lemma WholeIsHealthy()
    ensures MatrixHealthy(WHOLE.matrix)
  {
    forall i | 0 <= i < |CaseNames| ensures Covers(WHOLE.matrix, CaseNames[i], CasePassed) {
    }
  }

  lemma InterruptedEvidence()
    ensures MatrixEvidence(INTERRUPTED.matrix).Some? && !MatrixEvidence(INTERRUPTED.matrix).value.complete
  {
    assert CaseNames[0] in INTERRUPTED.matrix.cases;
    FilterNone(name => name in INTERRUPTED.matrix.cases, CaseNames);
    CompleteExactly(INTERRUPTED.matrix);
    hide Filter, MatrixGaps;
    assert !Covers(INTERRUPTED.matrix, CaseNames[1], CasePassed);
  }

  /** The promise broken: after the interrupted run the summary retains its partial matrix, although an earlier run has
      a complete one. */
  lemma PartialHidesComplete(older: seq<RunFiles>, now: int, maxAge: int)
    ensures var runs := ReadAll([INTERRUPTED, WHOLE] + older, now, maxAge);
            var kept := RetainedOf(runs).matrix;
            && kept.Some? && kept.value.runId == "interrupted" && !kept.value.evidence.complete
            && First(CompleteMatrix, runs).Some? && First(CompleteMatrix, runs).value.runId == "whole"
            && First(CompleteMatrix, runs).value.evidence.complete
  {
    WholeIsHealthy();
    CompleteExactly(WHOLE.matrix);
    InterruptedEvidence();
    hide MatrixHealthy, MatrixEvidence;
    var runs := ReadAll([INTERRUPTED, WHOLE] + older, now, maxAge);
    assert runs[0] == Read(INTERRUPTED, now, maxAge) && runs[1..][0] == Read(WHOLE, now, maxAge);
  }

  // ---- the exit code ----

  function ExitCode(failedRuns: nat, latestGaps: seq<string>, retainedGaps: seq<string>,
                    failOnFailed: bool, failOnLatest: bool, failOnRetained: bool): int {
    if failOnFailed && failedRuns > 0 then 2
    else if failOnLatest && Filter(NonEmpty, latestGaps) != [] then 3
    else if failOnRetained && Filter(NonEmpty, retainedGaps) != [] then 4
    else 0
  }

  /** The strict gate passes exactly when the retained evidence is healthy, beside what its other flags ask for. */
  lemma StrictGatePasses(failedRuns: nat, latestGaps: seq<string>, files: seq<RunFiles>, now: int, maxAge: nat,
                         failOnFailed: bool, failOnLatest: bool)
    ensures ExitCode(failedRuns, latestGaps, RetainedGaps(RetainedOf(ReadAll(files, now, maxAge))),
                     failOnFailed, failOnLatest, true) == 0 <==>
              && FirstMatrixHealthy(files) && FirstQueueHealthy(files) && FirstDogfoodHealthy(files, now, maxAge)
              && (failOnFailed ==> failedRuns == 0)
              && (failOnLatest ==> forall i :: 0 <= i < |latestGaps| ==> latestGaps[i] == "")
  {
    var gaps := RetainedGaps(RetainedOf(ReadAll(files, now, maxAge)));
    NoGapsExactly(files, now, maxAge);
    FilterNone(NonEmpty, gaps);
    FilterNone(NonEmpty, latestGaps);
    RetainedGapsHaveText(RetainedOf(ReadAll(files, now, maxAge)));
    hide RetainedGaps, RetainedOf, Filter, FirstMatrixHealthy, FirstQueueHealthy, FirstDogfoodHealthy;
    assert gaps != [] ==> NonEmpty(gaps[0]);
  }

  lemma RetainedGapsHaveText(kept: RetainedEvidence)
    ensures forall i :: 0 <= i < |RetainedGaps(kept)| ==> NonEmpty(RetainedGaps(kept)[i])
  {
    if kept.matrix.Some? {
      var found := kept.matrix.value.evidence.gaps;
      forall x | x in Filter(NonEmpty, found) ensures NonEmpty(x) {
        FilterMember(NonEmpty, found, x);
      }
    }
    hide Filter;
    if kept.queue.Some? {
      QueueGapsHaveText(kept.queue.value.evidence);
    }
    if kept.dogfood.Some? {
      DogfoodGapsHaveText(kept.dogfood.value.evidence);
    }
    hide QueueGaps, DogfoodGaps;
  }

  lemma QueueGapsHaveText(q: QueueWorker)
    ensures forall i :: 0 <= i < |QueueGaps(q)| ==> NonEmpty(QueueGaps(q)[i])
  {
  }

  lemma DogfoodGapsHaveText(d: Dogfood)
    ensures forall i :: 0 <= i < |DogfoodGaps(d)| ==> NonEmpty(DogfoodGaps(d)[i])
  {
    hide HandoffComplete;
  }
}
