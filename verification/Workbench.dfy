/** The Agent Workbench graph: its edges, its two routers, and what every run through it looks like. */
module Workbench {

  datatype Node =
    | BootstrapRequest | LoadEmployeeIdentity | BindOrCreateTicket | RetrieveContext | PlanNextAction
    | ExecuteReadTools | GovernanceGate | DispatchRuntimeExecutor | ApprovalInterrupt | MaybeHandoffEmployee
    | IngestTicketReportEvidence | ProposeAssetCandidates | CloseOrContinueTicketLoop | UpdateWorkbenchState
    | FinalResponse

  /** Where a run may go after a node; nothing follows the final response. */
  function Successors(n: Node): set<Node> {
    match n
    case BootstrapRequest => {LoadEmployeeIdentity}
    case LoadEmployeeIdentity => {BindOrCreateTicket}
    case BindOrCreateTicket => {RetrieveContext}
    case RetrieveContext => {PlanNextAction}
    case PlanNextAction => {ExecuteReadTools}
    case ExecuteReadTools => {GovernanceGate}
    case GovernanceGate => {ApprovalInterrupt, DispatchRuntimeExecutor}
    case DispatchRuntimeExecutor => {MaybeHandoffEmployee}
    case MaybeHandoffEmployee => {IngestTicketReportEvidence}
    case IngestTicketReportEvidence => {ProposeAssetCandidates}
    case ProposeAssetCandidates => {CloseOrContinueTicketLoop}
    case CloseOrContinueTicketLoop => {UpdateWorkbenchState}
    case UpdateWorkbenchState => {ApprovalInterrupt, FinalResponse}
    case ApprovalInterrupt => {GovernanceGate}
    case FinalResponse => {}
  }

  predicate BeforeGate(n: Node) {
    || n == BootstrapRequest || n == LoadEmployeeIdentity || n == BindOrCreateTicket || n == RetrieveContext
    || n == PlanNextAction || n == ExecuteReadTools
  }

  predicate InDispatch(n: Node) {
    || n == DispatchRuntimeExecutor || n == MaybeHandoffEmployee || n == IngestTicketReportEvidence
    || n == ProposeAssetCandidates || n == CloseOrContinueTicketLoop
  }

  /** Reached only through a dispatch. */
  predicate Dispatched(n: Node) { InDispatch(n) || n == UpdateWorkbenchState || n == FinalResponse }

  /** The graph builder: edges are added one by one. */
  class GraphBuilder {
    var edges: map<Node, set<Node>>

    constructor ()
      ensures edges == map[]
    {
      edges := map[];
    }

    function From(n: Node): set<Node>
      reads this
    {
      if n in edges then edges[n] else {}
    }

    method AddEdge(source: Node, target: Node)
      modifies this
      ensures forall n :: From(n) == if n == source then old(From(n)) + {target} else old(From(n))
    {
      edges := edges[source := From(source) + {target}];
    }

    method AddConditionalEdges(source: Node, targets: set<Node>)
      modifies this
      ensures forall n :: From(n) == if n == source then old(From(n)) + targets else old(From(n))
    {
      edges := edges[source := From(source) + targets];
    }

    /** The nodes before the governance gate. */
    method AddIntakeEdges()
      requires forall n :: From(n) == {}
      modifies this
      ensures forall n :: From(n) == if BeforeGate(n) then Successors(n) else {}
    {
      AddEdge(BootstrapRequest, LoadEmployeeIdentity);
      AddEdge(LoadEmployeeIdentity, BindOrCreateTicket);
      AddEdge(BindOrCreateTicket, RetrieveContext);
      AddEdge(RetrieveContext, PlanNextAction);
      AddEdge(PlanNextAction, ExecuteReadTools);
      AddEdge(ExecuteReadTools, GovernanceGate);
    }

    /** The nodes from a dispatch to the state update. */
    method AddDispatchEdges()
      requires forall n :: InDispatch(n) ==> From(n) == {}
      modifies this
      ensures forall n :: From(n) == if InDispatch(n) then Successors(n) else old(From(n))
    {
      AddEdge(DispatchRuntimeExecutor, MaybeHandoffEmployee);
      AddEdge(MaybeHandoffEmployee, IngestTicketReportEvidence);
      AddEdge(IngestTicketReportEvidence, ProposeAssetCandidates);
      AddEdge(ProposeAssetCandidates, CloseOrContinueTicketLoop);
      AddEdge(CloseOrContinueTicketLoop, UpdateWorkbenchState);
    }

    /** However the builder assembles them, the edges are the relation the runs below follow. */
    method BuildGraph()
      requires edges == map[]
      modifies this
      ensures forall n :: From(n) == Successors(n)
    {
      AddIntakeEdges();
      AddConditionalEdges(GovernanceGate, {ApprovalInterrupt, DispatchRuntimeExecutor});
      AddDispatchEdges();
      AddConditionalEdges(UpdateWorkbenchState, {ApprovalInterrupt, FinalResponse});
      AddEdge(ApprovalInterrupt, GovernanceGate);
    }
  }

  // ---- runs ----

  predicate IsRun(path: seq<Node>) {
    && path != [] && path[0] == BootstrapRequest
    && forall i :: 0 <= i < |path| - 1 ==> path[i + 1] in Successors(path[i])
  }

  predicate Completed(path: seq<Node>) { IsRun(path) && path[|path| - 1] == FinalResponse }

  function Count(path: seq<Node>, n: Node): nat {
    if path == [] then 0 else Count(path[..|path| - 1], n) + if path[|path| - 1] == n then 1 else 0
  }

  /** How many visits a run that has just reached node `n` makes beyond 2 for each interrupt and 6 for each dispatch. */
  function Offset(n: Node): int {
    match n
    case BootstrapRequest => 1
    case LoadEmployeeIdentity => 2
    case BindOrCreateTicket => 3
    case RetrieveContext => 4
    case PlanNextAction => 5
    case ExecuteReadTools => 6
    case GovernanceGate => 7
    case ApprovalInterrupt => 6
    case DispatchRuntimeExecutor => 2
    case MaybeHandoffEmployee => 3
    case IngestTicketReportEvidence => 4
    case ProposeAssetCandidates => 5
    case CloseOrContinueTicketLoop => 6
    case UpdateWorkbenchState => 7
    case FinalResponse => 8
  }

  lemma {:induction false} RunCounts(path: seq<Node>)
    requires IsRun(path)
    ensures var n := path[|path| - 1];
            var k, d := Count(path, ApprovalInterrupt), Count(path, DispatchRuntimeExecutor);
            && |path| == Offset(n) + 2 * k + 6 * d
            && (BeforeGate(n) ==> k == 0 && d == 0)
            && (if Dispatched(n) then 1 <= d <= k + 1 else d <= k)
  {
    hide Successors, Count;
    var last := |path| - 1;
    if last == 0 {
      CountLast(path, ApprovalInterrupt);
      CountLast(path, DispatchRuntimeExecutor);
    } else {
      RunCounts(path[..last]);
      CountLast(path, ApprovalInterrupt);
      CountLast(path, DispatchRuntimeExecutor);
      StepCounts(path[last - 1], path[last]);
    }
  }

  lemma CountLast(path: seq<Node>, n: Node)
    requires path != []
    ensures Count(path, n) == Count(path[..|path| - 1], n) + if path[|path| - 1] == n then 1 else 0
    ensures |path| == 1 ==> Count(path[..|path| - 1], n) == 0
  {
  }

  /** What one edge does to the three quantities that `RunCounts` relates. */
  lemma StepCounts(a: Node, b: Node)
    requires b in Successors(a)
    ensures b == ApprovalInterrupt ==> Offset(b) == Offset(a) - 1 && (Dispatched(a) || a == GovernanceGate)
    ensures b == DispatchRuntimeExecutor ==> Offset(b) == Offset(a) - 5 && !Dispatched(a)
    ensures b != ApprovalInterrupt && b != DispatchRuntimeExecutor ==>
              Offset(b) == Offset(a) + 1 && (Dispatched(b) <==> Dispatched(a))
    ensures BeforeGate(b) ==> BeforeGate(a)
    ensures !BeforeGate(b) && BeforeGate(a) ==> b == GovernanceGate
  {
  }

  /** Every completed run with `k` approval interrupts and `d` dispatches makes exactly 8 + 2k + 6d visits, and
      dispatches at least once and at most once more than it was interrupted. */
  lemma CompletedRunLength(path: seq<Node>)
    requires Completed(path)
    ensures var k, d := Count(path, ApprovalInterrupt), Count(path, DispatchRuntimeExecutor);
            |path| == 8 + 2 * k + 6 * d && 1 <= d <= k + 1
  {
    RunCounts(path);
  }

  /** In a completed run a dispatch comes right after the governance gate, its results are ingested two nodes later,
      and neither another dispatch nor the final response comes before that. */
  lemma DispatchGovernedAndIngested(path: seq<Node>, i: nat)
    requires Completed(path) && i < |path| && path[i] == DispatchRuntimeExecutor
    ensures i >= 1 && path[i - 1] == GovernanceGate
    ensures i + 6 < |path| && path[i + 2] == IngestTicketReportEvidence
    ensures forall j :: i < j < |path| && (path[j] == DispatchRuntimeExecutor || path[j] == FinalResponse) ==> i + 6 <= j
  {
    assert i >= 1 && path[i] in Successors(path[i - 1]);
    Follow(path, i);
    Follow(path, i + 1);
    Follow(path, i + 2);
    Follow(path, i + 3);
    Follow(path, i + 4);
    Follow(path, i + 5);
  }

  /** A completed run goes on after every node but the final response. */
  lemma Follow(path: seq<Node>, i: nat)
    requires Completed(path) && i < |path| && path[i] != FinalResponse
    ensures i + 1 < |path| && path[i + 1] in Successors(path[i])
  {
  }

  /** One dispatch, from the gate to the state update. */
  const Work: seq<Node> :=
    [GovernanceGate, DispatchRuntimeExecutor, MaybeHandoffEmployee, IngestTicketReportEvidence, ProposeAssetCandidates,
     CloseOrContinueTicketLoop, UpdateWorkbenchState]

  /** Every pair of counts within these limits is the pair of some completed run. */
  function FromGate(k: nat, d: nat): seq<Node>
    requires 1 <= d <= k + 1
    decreases k
  {
    if d <= k then [GovernanceGate, ApprovalInterrupt] + FromGate(k - 1, d)
    else
      Work + (if k == 0 then [FinalResponse] else [ApprovalInterrupt] + FromGate(k - 1, d - 1))
  }

  function Prelude(): seq<Node> {
    [BootstrapRequest, LoadEmployeeIdentity, BindOrCreateTicket, RetrieveContext, PlanNextAction, ExecuteReadTools]
  }

  predicate Linked(path: seq<Node>) { forall i :: 0 <= i < |path| - 1 ==> path[i + 1] in Successors(path[i]) }

  lemma LinkedAppend(a: seq<Node>, b: seq<Node>)
    requires Linked(a) && Linked(b) && a != [] && b != [] && b[0] in Successors(a[|a| - 1])
    ensures Linked(a + b)
  {
    var p := a + b;
    forall i | 0 <= i < |p| - 1 ensures p[i + 1] in Successors(p[i]) {
      if i < |a| - 1 {
        assert p[i] == a[i] && p[i + 1] == a[i + 1];
      } else if i >= |a| {
        assert p[i] == b[i - |a|] && p[i + 1] == b[i - |a| + 1];
      }
    }
  }

  lemma {:induction false} CountAppend(a: seq<Node>, b: seq<Node>, n: Node)
    ensures Count(a + b, n) == Count(a, n) + Count(b, n)
  {
    if b == [] {
      assert a + b == a;
    } else {
      CountAppend(a, b[..|b| - 1], n);
      assert (a + b)[..|a + b| - 1] == a + b[..|b| - 1];
    }
  }

  lemma CountTwo(x: Node, y: Node, n: Node)
    ensures Count([x], n) == if x == n then 1 else 0
    ensures Count([x, y], n) == Count([x], n) + Count([y], n)
  {
    assert [x][..0] == [] && [y][..0] == [];
    CountAppend([x], [y], n);
    assert [x] + [y] == [x, y];
  }

  lemma CountWork(n: Node)
    requires n == ApprovalInterrupt || n == DispatchRuntimeExecutor
    ensures Count(Work, n) == if n == DispatchRuntimeExecutor then 1 else 0
    ensures Count(Prelude(), n) == 0
  {
    CountTwo(GovernanceGate, DispatchRuntimeExecutor, n);
    CountTwo(MaybeHandoffEmployee, IngestTicketReportEvidence, n);
    CountTwo(ProposeAssetCandidates, CloseOrContinueTicketLoop, n);
    CountTwo(UpdateWorkbenchState, UpdateWorkbenchState, n);
    var a, b := [GovernanceGate, DispatchRuntimeExecutor], [MaybeHandoffEmployee, IngestTicketReportEvidence];
    var c := [ProposeAssetCandidates, CloseOrContinueTicketLoop];
    CountAppend(a, b, n);
    CountAppend(a + b, c, n);
    CountAppend(a + b + c, [UpdateWorkbenchState], n);
    assert Work == a + b + c + [UpdateWorkbenchState];
    CountTwo(BootstrapRequest, LoadEmployeeIdentity, n);
    CountTwo(BindOrCreateTicket, RetrieveContext, n);
    CountTwo(PlanNextAction, ExecuteReadTools, n);
    CountTwo(LoadEmployeeIdentity, LoadEmployeeIdentity, n);
    CountTwo(RetrieveContext, RetrieveContext, n);
    CountTwo(ExecuteReadTools, ExecuteReadTools, n);
    var d, e, f := [BootstrapRequest, LoadEmployeeIdentity], [BindOrCreateTicket, RetrieveContext], [PlanNextAction, ExecuteReadTools];
    CountAppend(d, e, n);
    CountAppend(d + e, f, n);
    assert Prelude() == d + e + f;
  }

  /** A path from the gate to the final response with the given counts. */
  predicate GatePath(p: seq<Node>, k: nat, d: nat) {
    && p != [] && Linked(p) && p[0] == GovernanceGate && p[|p| - 1] == FinalResponse
    && Count(p, ApprovalInterrupt) == k && Count(p, DispatchRuntimeExecutor) == d
  }

  lemma InterruptFirst(rest: seq<Node>, k: nat, d: nat)
    requires GatePath(rest, k, d)
    ensures GatePath([GovernanceGate, ApprovalInterrupt] + rest, k + 1, d)
  {
    var a := [GovernanceGate, ApprovalInterrupt];
    CountTwo(GovernanceGate, ApprovalInterrupt, ApprovalInterrupt);
    CountTwo(GovernanceGate, ApprovalInterrupt, DispatchRuntimeExecutor);
    CountTwo(ApprovalInterrupt, ApprovalInterrupt, ApprovalInterrupt);
    CountTwo(ApprovalInterrupt, ApprovalInterrupt, DispatchRuntimeExecutor);
    LinkedAppend(a, rest);
    CountAppend(a, rest, ApprovalInterrupt);
    CountAppend(a, rest, DispatchRuntimeExecutor);
  }

  lemma WorkThenFinal()
    ensures GatePath(Work + [FinalResponse], 0, 1)
  {
    CountTwo(FinalResponse, FinalResponse, ApprovalInterrupt);
    CountTwo(FinalResponse, FinalResponse, DispatchRuntimeExecutor);
    CountWork(ApprovalInterrupt);
    CountWork(DispatchRuntimeExecutor);
    CountAppend(Work, [FinalResponse], ApprovalInterrupt);
    CountAppend(Work, [FinalResponse], DispatchRuntimeExecutor);
  }

  lemma WorkThenInterrupt(rest: seq<Node>, k: nat, d: nat)
    requires GatePath(rest, k, d)
    ensures GatePath(Work + ([ApprovalInterrupt] + rest), k + 1, d + 1)
  {
    var tail := [ApprovalInterrupt] + rest;
    CountTwo(ApprovalInterrupt, ApprovalInterrupt, ApprovalInterrupt);
    CountTwo(ApprovalInterrupt, ApprovalInterrupt, DispatchRuntimeExecutor);
    LinkedAppend([ApprovalInterrupt], rest);
    CountAppend([ApprovalInterrupt], rest, ApprovalInterrupt);
    CountAppend([ApprovalInterrupt], rest, DispatchRuntimeExecutor);
    CountWork(ApprovalInterrupt);
    CountWork(DispatchRuntimeExecutor);
    LinkedAppend(Work, tail);
    CountAppend(Work, tail, ApprovalInterrupt);
    CountAppend(Work, tail, DispatchRuntimeExecutor);
  }

  lemma {:induction false} FromGateRuns(k: nat, d: nat)
    requires 1 <= d <= k + 1
    ensures GatePath(FromGate(k, d), k, d)
    decreases k
  {
    hide GatePath;
    if d <= k {
      FromGateRuns(k - 1, d);
      InterruptFirst(FromGate(k - 1, d), k - 1, d);
    } else if k == 0 {
      WorkThenFinal();
    } else {
      FromGateRuns(k - 1, d - 1);
      WorkThenInterrupt(FromGate(k - 1, d - 1), k - 1, d - 1);
    }
  }

  lemma EveryCountOccurs(k: nat, d: nat)
    requires 1 <= d <= k + 1
    ensures var p := Prelude() + FromGate(k, d);
            Completed(p) && Count(p, ApprovalInterrupt) == k && Count(p, DispatchRuntimeExecutor) == d
  {
    FromGateRuns(k, d);
    LinkedAppend(Prelude(), FromGate(k, d));
    CountWork(ApprovalInterrupt);
    CountWork(DispatchRuntimeExecutor);
    CountAppend(Prelude(), FromGate(k, d), ApprovalInterrupt);
    CountAppend(Prelude(), FromGate(k, d), DispatchRuntimeExecutor);
  }

  // ---- the routers ----

  /** A visited node, and whether the state carries an approval reference once the node is done. */
  datatype Visit = Visit(node: Node, approvalRef: bool)

  /** Both routers refuse to interrupt a state that carries a reference; only the interrupt node sets it, to whatever
      the resume brought. */
  predicate RoutedStep(p: Visit, q: Visit) {
    && q.node in Successors(p.node)
    && (if q.node == ApprovalInterrupt then !p.approvalRef else q.approvalRef == p.approvalRef)
  }

  predicate RoutedRun(visits: seq<Visit>) {
    && visits != [] && visits[0].node == BootstrapRequest
    && forall i :: 0 <= i < |visits| - 1 ==> RoutedStep(visits[i], visits[i + 1])
  }

  function Nodes(visits: seq<Visit>): (path: seq<Node>)
    ensures |path| == |visits| && forall i :: 0 <= i < |path| ==> path[i] == visits[i].node
  {
    seq(|visits|, i requires 0 <= i < |visits| => visits[i].node)
  }

  /** Interrupts that were resumed without a reference. */
  function BlankResumes(visits: seq<Visit>): nat {
    if visits == [] then 0 else
      var last := visits[|visits| - 1];
      BlankResumes(visits[..|visits| - 1]) + if last.node == ApprovalInterrupt && !last.approvalRef then 1 else 0
  }

  lemma {:induction false} InterruptsBounded(visits: seq<Visit>)
    requires RoutedRun(visits)
    ensures var k := Count(Nodes(visits), ApprovalInterrupt);
            && IsRun(Nodes(visits))
            && (if visits[|visits| - 1].approvalRef && !visits[0].approvalRef
                then k == BlankResumes(visits) + 1 else k == BlankResumes(visits))
            && (visits[0].approvalRef ==> visits[|visits| - 1].approvalRef && k == 0)
  {
    var last := |visits| - 1;
    assert Nodes(visits)[..last] == Nodes(visits[..last]);
    if last == 0 {
      assert visits[..0] == [];
    } else {
      assert RoutedRun(visits[..last]);
      InterruptsBounded(visits[..last]);
      assert RoutedStep(visits[last - 1], visits[last]);
    }
  }

  /** A run that starts with an approval reference is never interrupted and makes 14 visits; a run whose resumes all
      carry one is interrupted at most once and makes 14, 16 or 22. */
  lemma {:induction false} ApprovedRunsAreShort(visits: seq<Visit>)
    requires RoutedRun(visits) && Completed(Nodes(visits)) && BlankResumes(visits) == 0
    ensures |visits| == 14 || (!visits[0].approvalRef && (|visits| == 16 || |visits| == 22))
    ensures Count(Nodes(visits), ApprovalInterrupt) <= 1
  {
    InterruptsBounded(visits);
    CompletedRunLength(Nodes(visits));
  }
}
