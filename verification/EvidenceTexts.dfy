/** What the verification evidence says case by case, and in which words its gaps are reported. */
module EvidenceTexts {
  import opened Keyed
  import opened StableSort
  import opened Evidence

  lemma {:induction false} OccurrencesCounted(texts: seq<string>, t: string)
    ensures Occurrences(texts, t) == multiset(texts)[t]
  {
    if texts != [] {
      OccurrencesCounted(texts[1..], t);
      assert texts == [texts[0]] + texts[1..];
    }
  }

  // ---- the cases of the matrix ----

  /** The case was answered to its end, without asking for approval and without a provider in the way. */
  ghost predicate AnsweredFully(c: AgentCase, action: string) {
    (c.status, c.smokeStatus, c.action, c.runtimeStatus, c.currentNode, c.approvalRequests, c.providerBlockers)
    == ("passed", "passed", action, "completed", "final_response", 0, 0)
  }

  /** The case waits for an approval it has asked for. */
  ghost predicate WaitsForApproval(c: AgentCase) {
    && (c.status, c.smokeStatus, c.action, c.runtimeStatus, c.currentNode)
       == ("passed", "passed", "implement_ticket", "needs_approval", "approval_interrupt")
    && c.approvalRequests > 0 && |c.approvalRef| > 0
  }

  /** A review of that outcome was recorded on Ticket, reports and timeline. */
  ghost predicate ReviewRecorded(c: AgentCase, review: string, ticket: string, report: string, timeline: string) {
    && WaitsForApproval(c) && (c.reviewStatus, c.reviewTicketStatus) == (review, ticket)
    && {report} <= (set x | x in c.reviewReportTypes) && {timeline} <= (set x | x in c.reviewTimeline)
  }

  /** The case of that name, if its file is there and can be read. */
  function CaseOf(m: MatrixFiles, name: string): Option<AgentCase> { if name in m.cases then m.cases[name] else None }

  const CASES := ["readonly_list", "answer_only", "provider_blocker", "handoff_policy", "approval_resume",
                  "approval_evidence_review", "approval_rejected_review", "approval_changes_review"]

  ghost predicate PassedCase(c: Option<AgentCase>) { c.Some? && (c.value.status, c.value.smokeStatus) == ("passed", "passed") }

  ghost predicate BlockerShown(c: Option<AgentCase>) {
    PassedCase(c) && c.value.providerBlockers > 0 && "plane_setup_blocker" in c.value.blockerReasons
  }

  ghost predicate PolicyShown(c: Option<AgentCase>) {
    && c.Some? && AnsweredFully(c.value, "answer_only") && c.value.handoffRefs > 0 && "employee:victor" in c.value.matchedScopes
    && (c.value.handoffTarget, c.value.handoffStatus, c.value.riskLevel, c.value.riskAllowed)
       == ("victor", "durable_handoff_recorded", "critical", true)
  }

  ghost predicate ResumeShown(c: Option<AgentCase>) {
    && c.Some? && WaitsForApproval(c.value) && (c.value.resumeStatus, c.value.resumeNode) == ("completed", "final_response")
    && |c.value.resumeReportId| > 0 && c.value.resumeLinkedAssets > 0
  }

  ghost predicate ReviewShown(c: Option<AgentCase>, review: string, ticket: string, report: string, timeline: string) {
    c.Some? && ReviewRecorded(c.value, review, ticket, report, timeline)
  }

  ghost predicate ProviderShown(p: Option<Provider>) {
    && p.Some? && "langchain-deepseek" in p.value.packages
    && (p.value.selected, p.value.configInspected, p.value.noExternalCall) == ("deepseek", true, true)
  }

  /** What each coverage asks for, field by field. */
  ghost predicate CoverageShown(m: MatrixFiles, name: string) {
    match name
    case "readonly_complete" => CaseOf(m, "readonly_list").Some? && AnsweredFully(CaseOf(m, "readonly_list").value, "list_employees")
    case "answer_only_complete" => CaseOf(m, "answer_only").Some? && AnsweredFully(CaseOf(m, "answer_only").value, "answer_only")
    case "provider_blocker_visible" => BlockerShown(CaseOf(m, "provider_blocker"))
    case "handoff_policy_memory_risk" => PolicyShown(CaseOf(m, "handoff_policy"))
    case "approval_interrupt" => CaseOf(m, "approval_resume").Some? && WaitsForApproval(CaseOf(m, "approval_resume").value)
    case "approval_resume_complete" => ResumeShown(CaseOf(m, "approval_resume"))
    case "review_evidence_requested" =>
      ReviewShown(CaseOf(m, "approval_evidence_review"), "evidence_requested", "waiting_evidence", "approval_evidence_requested",
                  "evidence_requested")
    case "review_rejected" =>
      ReviewShown(CaseOf(m, "approval_rejected_review"), "rejected", "blocked", "approval_rejected", "rejected")
    case "review_changes_requested" =>
      ReviewShown(CaseOf(m, "approval_changes_review"), "changes_requested", "waiting_changes", "approval_changes_requested",
                  "changes_requested")
    case _ => ProviderShown(m.provider)
  }

  const COVERAGES := ["readonly_complete", "answer_only_complete", "provider_blocker_visible", "handoff_policy_memory_risk",
                      "approval_interrupt", "approval_resume_complete", "review_evidence_requested", "review_rejected",
                      "review_changes_requested", "langchain_provider_boundary_visible"]

  lemma CoverageExactly(m: MatrixFiles)
    ensures var coverage := CoverageOf(m);
            |coverage| == |COVERAGES| && forall i :: 0 <= i < |coverage| ==>
              coverage[i].name == COVERAGES[i] && (coverage[i].met <==> CoverageShown(m, COVERAGES[i]))
  {
    ReviewExactly(m, "approval_evidence_review", "evidence_requested", "waiting_evidence", "approval_evidence_requested",
                  "evidence_requested");
    ReviewExactly(m, "approval_rejected_review", "rejected", "blocked", "approval_rejected", "rejected");
    ReviewExactly(m, "approval_changes_review", "changes_requested", "waiting_changes", "approval_changes_requested",
                  "changes_requested");
    AnsweredExactly(m, "readonly_list", "list_employees");
    AnsweredExactly(m, "answer_only", "answer_only");
    ApprovalExactly(m);
    hide Covers, CaseOf, Answered, BlockerVisible, HandoffPolicyComplete, Interrupted, ResumeComplete, ReviewComplete,
         ProviderVisible, AnsweredFully, WaitsForApproval, BlockerShown, PolicyShown, ResumeShown, ReviewShown, ProviderShown;
  }

  lemma ReviewExactly(m: MatrixFiles, name: string, review: string, ticket: string, report: string, timeline: string)
    ensures Covers(m, name, c => ReviewComplete(c, review, ticket, report, timeline)) <==>
            ReviewShown(CaseOf(m, name), review, ticket, report, timeline)
  {
  }

  lemma AnsweredExactly(m: MatrixFiles, name: string, action: string)
    ensures Covers(m, name, c => Answered(c, action)) <==>
            CaseOf(m, name).Some? && AnsweredFully(CaseOf(m, name).value, action)
  {
  }

  lemma ApprovalExactly(m: MatrixFiles)
    ensures forall name :: Covers(m, name, HandoffPolicyComplete) <==> PolicyShown(CaseOf(m, name))
    ensures forall name :: Covers(m, name, BlockerVisible) <==> BlockerShown(CaseOf(m, name))
    ensures forall name :: Covers(m, name, Interrupted) <==> CaseOf(m, name).Some? && WaitsForApproval(CaseOf(m, name).value)
    ensures forall name :: Covers(m, name, ResumeComplete) <==> ResumeShown(CaseOf(m, name))
    ensures ProviderVisible(m.provider) <==> ProviderShown(m.provider)
  {
  }

  /** The matrix is healthy when all eight cases passed and all ten kinds of coverage are shown. */
  lemma MatrixMeans(m: MatrixFiles)
    ensures MatrixHealthy(m) <==>
            && (forall name :: name in CASES ==> PassedCase(CaseOf(m, name)))
            && (forall i :: 0 <= i < |COVERAGES| ==> CoverageShown(m, COVERAGES[i]))
  {
    CoverageExactly(m);
    CasesExactly(m);
    UnmetNone(CoverageOf(m));
    hide CoverageOf, CoverageShown, Unmet, MatrixHealthy, PassedCase, CaseOf, Covers, CASES;
    if forall i :: 0 <= i < |CaseNames| ==> Covers(m, CaseNames[i], CasePassed) {
      CoverageMet(m);
    } else {
      HealthyPassed(m);
    }
  }

  lemma CaseNamesListed()
    ensures CaseNames == CASES
  {
  }

  lemma CasesExactly(m: MatrixFiles)
    ensures (forall i :: 0 <= i < |CaseNames| ==> Covers(m, CaseNames[i], CasePassed)) <==>
            (forall name :: name in CASES ==> PassedCase(CaseOf(m, name)))
  {
    CaseNamesListed();
    assert forall name :: Covers(m, name, CasePassed) <==> PassedCase(CaseOf(m, name));
    hide Covers, PassedCase, CaseOf, CASES, CaseNames;
    if forall i :: 0 <= i < |CaseNames| ==> Covers(m, CaseNames[i], CasePassed) {
      forall name | name in CASES ensures Covers(m, name, CasePassed) {
        var i :| 0 <= i < |CaseNames| && CaseNames[i] == name;
      }
    }
    if forall name :: name in CASES ==> PassedCase(CaseOf(m, name)) {
      forall i | 0 <= i < |CaseNames| ensures Covers(m, CaseNames[i], CasePassed) {
        assert CaseNames[i] in CASES;
      }
    }
  }

  // ---- the words ----

  /** The words of those lines that apply. */
  function Applying(lines: seq<(bool, string)>): seq<string> {
    if lines == [] then [] else (if lines[0].0 then [lines[0].1] else []) + Applying(lines[1..])
  }

  lemma ApplyingFour(a: (bool, string), b: (bool, string), c: (bool, string), d: (bool, string))
    ensures Applying([a, b, c, d]) == If(a.0, a.1) + If(b.0, b.1) + If(c.0, c.1) + If(d.0, d.1)
  {
    assert [a, b, c, d][1..] == [b, c, d] && [b, c, d][1..] == [c, d] && [c, d][1..] == [d] && [d][1..] == [];
    assert Applying([d]) == If(d.0, d.1);
    assert Applying([c, d]) == If(c.0, c.1) + Applying([d]);
    assert Applying([b, c, d]) == If(b.0, b.1) + Applying([c, d]);
  }

  lemma ApplyingFive(a: (bool, string), b: (bool, string), c: (bool, string), d: (bool, string), e: (bool, string))
    ensures Applying([a, b, c, d, e]) == If(a.0, a.1) + If(b.0, b.1) + If(c.0, c.1) + If(d.0, d.1) + If(e.0, e.1)
  {
    assert [a, b, c, d, e][1..] == [b, c, d, e];
    ApplyingFour(b, c, d, e);
  }

  /** The queue worker's gaps, in order, from the numbers of the smoke. */
  lemma QueueGapWords(q: QueueSmoke)
    ensures var status := if q.daemonStatus != "" then q.daemonStatus else if q.innerStatus != "" then q.innerStatus
                          else if q.payloadStatus != "" then q.payloadStatus else "unknown";
            var failures := multiset(q.processedStatuses)["blocked"] + multiset(q.processedStatuses)["failed"];
            QueueGaps(QueueEvidence(q)) == Applying([
              (status != "passed", "queue_worker_daemon_" + status),
              (q.minTicks < 6 || q.tickDelta < q.minTicks || q.processedDelta < 2, "queue_worker_daemon_soak_missing"),
              (q.failedDelta < 2 || failures < 2 || "failure_retrospective_candidate" !in q.policyActionKinds
               || q.assetCandidateIds == [] || q.policyActionDelta < 1, "queue_worker_repeated_failure_policy_missing"),
              (q.lastError != "", "queue_worker_daemon_last_error")])
  {
    OccurrencesCounted(q.processedStatuses, "blocked");
    OccurrencesCounted(q.processedStatuses, "failed");
    hide Occurrences;
    hide Applying;
    var status := if q.daemonStatus != "" then q.daemonStatus else if q.innerStatus != "" then q.innerStatus
                  else if q.payloadStatus != "" then q.payloadStatus else "unknown";
    var w := QueueEvidence(q);
    ApplyingFour((status != "passed", "queue_worker_daemon_" + status), (!w.soakPassed, "queue_worker_daemon_soak_missing"),
                 (!w.repeatedFailurePolicy, "queue_worker_repeated_failure_policy_missing"),
                 (w.lastError != "", "queue_worker_daemon_last_error"));
  }

  /** The dogfood's gaps, in order; of a stale or unfinished run the first says why it is not fresh. */
  lemma DogfoodGapWords(a: DogfoodArtifact, now: int, maxAge: nat)
    ensures var finished := a.status in {"completed", "passed", "ready"};
            var why := if !finished then "not_completed" else if a.finishedAt.None? then "unknown_age" else "stale";
            var target := if a.expectedTarget != "" then a.expectedTarget else "alex";
            var handedOff := a.naturalHandoff && a.handoffRefs > 0
                             && (a.handoffStatus, a.handoffTarget) == ("durable_handoff_recorded", target);
            DogfoodGaps(DogfoodEvidence(a, now, maxAge)) == Applying([
              (!finished || a.finishedAt.None? || now - a.finishedAt.value > maxAge, "live_provider_dogfood_" + why),
              (a.profile != "core_loop", "live_provider_dogfood_profile_not_core_loop"),
              (a.executorId != "langgraph", "live_provider_dogfood_executor_not_langgraph"),
              (a.runtimeStatus != "completed", "live_provider_dogfood_runtime_not_completed"),
              (a.profile == "core_loop" && !handedOff, "live_provider_dogfood_natural_handoff_missing")])
  {
    hide Applying;
    var finished := a.status in {"completed", "passed", "ready"};
    var why := if !finished then "not_completed" else if a.finishedAt.None? then "unknown_age" else "stale";
    ApplyingFive((!finished || a.finishedAt.None? || now - a.finishedAt.value > maxAge, "live_provider_dogfood_" + why),
                 (a.profile != "core_loop", "live_provider_dogfood_profile_not_core_loop"),
                 (a.executorId != "langgraph", "live_provider_dogfood_executor_not_langgraph"),
                 (a.runtimeStatus != "completed", "live_provider_dogfood_runtime_not_completed"),
                 (a.profile == "core_loop" && !HandoffComplete(a), "live_provider_dogfood_natural_handoff_missing"));
  }

  /** A line for each name, said when `p` holds of it. */
  ghost function Lines(names: seq<string>, p: string -> bool, prefix: string): (lines: seq<(bool, string)>)
    ensures |lines| == |names| && forall i :: 0 <= i < |lines| ==> lines[i] == (p(names[i]), prefix + names[i])
  {
    seq(|names|, i requires 0 <= i < |names| => (p(names[i]), prefix + names[i]))
  }

  ghost function CoverageLines(m: MatrixFiles): (lines: seq<(bool, string)>)
    ensures |lines| == |COVERAGES| && forall i :: 0 <= i < |lines| ==>
              lines[i] == (!CoverageShown(m, COVERAGES[i]), "agent_server_coverage:" + (COVERAGES[i] + "_missing"))
  {
    seq(|COVERAGES|, i requires 0 <= i < |COVERAGES| =>
      (!CoverageShown(m, COVERAGES[i]), "agent_server_coverage:" + (COVERAGES[i] + "_missing")))
  }

  /** The matrix's gaps in order: the cases that are missing, those that did not pass, and the coverages not shown. */
  lemma MatrixGapWords(m: MatrixFiles)
    ensures MatrixGaps(m) ==
            Applying(Lines(CASES, name => name !in m.cases, "agent_server_case_missing:"))
            + Applying(Lines(CASES, name => name in m.cases && !PassedCase(m.cases[name]), "agent_server_case_failed:"))
            + Applying(CoverageLines(m))
  {
    CaseNamesListed();
    CoverageExactly(m);
    hide CoverageOf, CoverageShown, Unmet, COVERAGES, CASES, CaseNames, Prefixed, Filter, Applying, Lines, CoverageLines;
    FilterLines(CASES, name => name !in m.cases, name => name !in m.cases, "agent_server_case_missing:");
    FilterLines(CASES, name => name in m.cases && !Covers(m, name, CasePassed), name => name in m.cases && !PassedCase(m.cases[name]),
                "agent_server_case_failed:");
    UnmetLines(CoverageOf(m), CoverageLines(m));
  }

  lemma {:induction false} FilterLines(names: seq<string>, p: string -> bool, q: string -> bool, prefix: string)
    requires forall name :: p(name) <==> q(name)
    ensures Prefixed(prefix, Filter(p, names)) == Applying(Lines(names, q, prefix))
  {
    if names != [] {
      var rest := names[1..];
      FilterLines(rest, p, q, prefix);
      FilterHead(names, p);
      hide Filter;
      assert Lines(names, q, prefix)[1..] == Lines(rest, q, prefix);
      assert Prefixed(prefix, Filter(p, names))
          == (if p(names[0]) then [prefix + names[0]] else []) + Prefixed(prefix, Filter(p, rest));
    }
  }

  lemma FilterHead(names: seq<string>, p: string -> bool)
    requires names != []
    ensures Filter(p, names) == (if p(names[0]) then [names[0]] else []) + Filter(p, names[1..])
  {
  }

  lemma {:induction false} UnmetLines(coverage: seq<Coverage>, lines: seq<(bool, string)>)
    requires |lines| == |coverage| && forall i :: 0 <= i < |lines| ==>
               lines[i] == (!coverage[i].met, "agent_server_coverage:" + (coverage[i].name + "_missing"))
    ensures Prefixed("agent_server_coverage:", Unmet(coverage)) == Applying(lines)
  {
    if coverage != [] {
      UnmetLines(coverage[1..], lines[1..]);
      assert Prefixed("agent_server_coverage:", Unmet(coverage))
          == (if coverage[0].met then [] else ["agent_server_coverage:" + (coverage[0].name + "_missing")])
             + Prefixed("agent_server_coverage:", Unmet(coverage[1..]));
    }
  }

  // ---- the evidence as a whole ----

  lemma {:induction false} FilterCount(p: string -> bool, names: seq<string>)
    requires NoRepeats(names)
    ensures |Filter(p, names)| == |set x | x in names && p(x)|
  {
    if names == [] {
      assert (set x | x in names && p(x)) == {};
    } else {
      var rest := names[1..];
      FilterCount(p, rest);
      var all, less := set x | x in names && p(x), set x | x in rest && p(x);
      assert all == if p(names[0]) then less + {names[0]} else less;
      assert names[0] !in less;
    }
  }

  lemma PresentCounted(m: MatrixFiles)
    ensures |Present(m)| == |set name | name in CaseNames && name in m.cases|
    ensures Present(m) == [] <==> forall name :: name in CASES ==> name !in m.cases
  {
    CaseNamesListed();
    CaseNamesDiffer();
    hide CASES, CaseNames, Filter;
    FilterCount(name => name in m.cases, CaseNames);
    FilterNone(name => name in m.cases, CaseNames);
    assert forall i :: 0 <= i < |CaseNames| ==> CaseNames[i] in CASES;
    if forall i :: 0 <= i < |CaseNames| ==> CaseNames[i] !in m.cases {
      forall name | name in CASES ensures name !in m.cases {
        var i :| 0 <= i < |CaseNames| && CaseNames[i] == name;
      }
    }
    CountedAlike(CaseNames, name => name in m.cases, m.cases.Keys);
  }

  lemma CountedAlike(names: seq<string>, p: string -> bool, keys: set<string>)
    requires forall x :: x in names ==> (p(x) <==> x in keys)
    ensures (set x | x in names && p(x)) == (set x | x in names && x in keys)
  {
  }

  /** There is evidence when any case file or the primary smoke is there; it is "passed" when complete and counts the case
      files that are there. */
  lemma MatrixEvidenceSays(m: MatrixFiles)
    ensures var e := MatrixEvidence(m);
            && (e.None? <==> !m.primary && forall name :: name in CASES ==> name !in m.cases)
            && (e.Some? ==>
                  && e.value.caseCount == |set name | name in CaseNames && name in m.cases|
                  && e.value.gaps == MatrixGaps(m) && e.value.status == if e.value.complete then "passed" else "partial")
  {
    PresentCounted(m);
    hide CASES, CaseNames, MatrixGaps, Present;
  }

  lemma CaseNamesDiffer()
    ensures NoRepeats(CaseNames)
  {
  }

  /** The first cause that is asked about decides the exit code. */
  lemma ExitCodes(failedRuns: nat, latest: seq<string>, retained: seq<string>, onFailed: bool, onLatest: bool, onRetained: bool)
    ensures var code := ExitCode(failedRuns, latest, retained, onFailed, onLatest, onRetained);
            var failed, inLatest := onFailed && failedRuns > 0, onLatest && exists g :: g in latest && g != "";
            var inRetained := onRetained && exists g :: g in retained && g != "";
            && (code == 2 <==> failed) && (code == 3 <==> !failed && inLatest) && (code == 4 <==> !failed && !inLatest && inRetained)
            && (code == 0 <==> !failed && !inLatest && !inRetained)
  {
    SomeText(latest);
    SomeText(retained);
    hide Filter;
  }

  lemma SomeText(texts: seq<string>)
    ensures Filter(NonEmpty, texts) != [] <==> exists g :: g in texts && g != ""
  {
    FilterAll(NonEmpty, texts);
    hide Filter;
  }
}
