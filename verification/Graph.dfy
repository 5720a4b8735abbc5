/** The graph's wiring (src/upgradepilot/graph/build.py) and its routers (src/upgradepilot/graph/routing.py). */
module Graph {
  import opened Outcomes
  import opened Evidence
  import opened GraphState
  import opened Nodes

  const BRANCHES: set<Node> := {ParseDependencies, ScanCompatibility, AnalyzeTestsAndCi}

  // ---- Routers ----------------------------------------------------------------------------------------

  // StopOr sends a terminated run to the terminal report and every other run on.
  datatype Router = StopOr(onward: Node) | AfterPackSelection | AfterValidation | AfterCritic | AfterRepair

  function Route(r: Router, v: View): set<Node> {
    match r
    case StopOr(onward) => if v.status == Terminated then {AssembleTerminal} else {onward}
    case AfterPackSelection =>
      if v.status == Terminated then {AssembleTerminal}
      else if v.applicability in {NotApplicable, Unsupported, NotAssessed} then {AssembleTerminal}
      else BRANCHES
    case AfterValidation =>
      if v.outcome == Pass then {AssembleValidated}
      else if v.outcome == Repairable && v.repairs == 0 then {EvidenceCritic}
      else {AssemblePartial}
    case AfterCritic => {RepairPlan}
    case AfterRepair => {EvidenceValidator}
  }

  // ---- The table --------------------------------------------------------------------------------------

  // `allowed` lists the destinations registered for a router, where the wiring lists them.
  datatype Edge = To(node: Node) | ToEnd | Choose(router: Router, allowed: Option<set<Node>>)

  function EdgeFrom(n: Node): Edge {
    match n
    case ValidateRequest => Choose(StopOr(AcquireRepository), None)
    case AcquireRepository => Choose(StopOr(ProfileRepository), None)
    case ProfileRepository => Choose(StopOr(SelectMigrationPack), None)
    case SelectMigrationPack => Choose(AfterPackSelection, Some(BRANCHES + {AssembleTerminal}))
    case ParseDependencies => To(AggregateAnalysis)
    case ScanCompatibility => To(AggregateAnalysis)
    case AnalyzeTestsAndCi => To(AggregateAnalysis)
    case AggregateAnalysis => Choose(StopOr(DocumentationResearch), None)
    case DocumentationResearch => To(CalculateRisk)
    case CalculateRisk => Choose(StopOr(CompatibilityInterpretation), None)
    case CompatibilityInterpretation => Choose(StopOr(MigrationPlanning), None)
    case MigrationPlanning => Choose(StopOr(EvidenceValidator), None)
    case EvidenceValidator =>
      Choose(AfterValidation, Some({AssembleValidated, AssemblePartial, EvidenceCritic}))
    case EvidenceCritic => Choose(AfterCritic, None)
    case RepairPlan => Choose(AfterRepair, None)
    case _ => ToEnd
  }

  function Targets(n: Node, v: View): set<Node> {
    match EdgeFrom(n)
    case To(m) => {m}
    case ToEnd => {}
    case Choose(router, _) => Route(router, v)
  }

  /**
   No router names a destination its wiring does not list, and only report nodes end the run.
   */
  lemma RoutesStayInside(n: Node, v: View)
    ensures EdgeFrom(n).Choose? && EdgeFrom(n).allowed.Some? ==> Targets(n, v) <= EdgeFrom(n).allowed.value
    ensures Targets(n, v) == {} <==> IsReport(n)
  {
    if Targets(n, v) == BRANCHES {
      assert ParseDependencies in Targets(n, v);
    } else if EdgeFrom(n).Choose? {
      match EdgeFrom(n).router
      case StopOr(onward) => assert AssembleTerminal in Targets(n, v) || onward in Targets(n, v);
      case AfterPackSelection => assert AssembleTerminal in Targets(n, v);
      case AfterValidation =>
        assert AssembleValidated in Targets(n, v) || EvidenceCritic in Targets(n, v) || AssemblePartial in Targets(n, v);
      case AfterCritic => assert RepairPlan in Targets(n, v);
      case AfterRepair => assert EvidenceValidator in Targets(n, v);
    }
  }

  /** Where the run goes on when it has not been stopped. */
  ghost predicate GoesOn(n: Node, next: Node) {
    match n
    case ValidateRequest => next == AcquireRepository
    case AcquireRepository => next == ProfileRepository
    case ProfileRepository => next == SelectMigrationPack
    case ParseDependencies => next == AggregateAnalysis
    case ScanCompatibility => next == AggregateAnalysis
    case AnalyzeTestsAndCi => next == AggregateAnalysis
    case AggregateAnalysis => next == DocumentationResearch
    case DocumentationResearch => next == CalculateRisk
    case CalculateRisk => next == CompatibilityInterpretation
    case CompatibilityInterpretation => next == MigrationPlanning
    case MigrationPlanning => next == EvidenceValidator
    case EvidenceCritic => next == RepairPlan
    case RepairPlan => next == EvidenceValidator
    case _ => false
  }

  /**
   The routes, decision by decision: the fan-out is taken exactly for a pack that may apply, the critic exactly for a
   repairable plan that has not been repaired, and a stopped run goes to the terminal report.
   */
  lemma RoutesAre(n: Node, v: View)
    ensures Targets(SelectMigrationPack, v) ==
              if v.status != Terminated && (v.applicability.Supported? || v.applicability.ProbableNeedsReview?)
              then {ParseDependencies, ScanCompatibility, AnalyzeTestsAndCi} else {AssembleTerminal}
    ensures Targets(EvidenceValidator, v) ==
              match v.outcome
              case Pass => {AssembleValidated}
              case Repairable => (if v.repairs > 0 then {AssemblePartial} else {EvidenceCritic})
              case _ => {AssemblePartial}
    ensures v.status != Terminated ==> forall next :: GoesOn(n, next) ==> Targets(n, v) == {next}
    ensures v.status == Terminated && n in {ValidateRequest, AcquireRepository, ProfileRepository, AggregateAnalysis,
                                            CalculateRisk, CompatibilityInterpretation, MigrationPlanning} ==>
              Targets(n, v) == {AssembleTerminal}
  {
  }

  // ---- Building the graph -----------------------------------------------------------------------------

  datatype Wire = Wire(from: Node, edge: Edge)

  const PIPELINE_NODES: seq<Node> :=
    [ValidateRequest, AcquireRepository, ProfileRepository, SelectMigrationPack,
     ParseDependencies, ScanCompatibility, AnalyzeTestsAndCi, DocumentationResearch, AggregateAnalysis, CalculateRisk]

  const AGENT_NODES: seq<Node> :=
    [CompatibilityInterpretation, MigrationPlanning, EvidenceValidator, EvidenceCritic, RepairPlan,
     AssembleValidated, AssemblePartial, AssembleTerminal]

  const FRONT_WIRES: seq<Wire> := [
    Wire(ValidateRequest, EdgeFrom(ValidateRequest)), Wire(AcquireRepository, EdgeFrom(AcquireRepository)),
    Wire(ProfileRepository, EdgeFrom(ProfileRepository)), Wire(SelectMigrationPack, EdgeFrom(SelectMigrationPack))]

  const FAN_WIRES: seq<Wire> := [
    Wire(ParseDependencies, EdgeFrom(ParseDependencies)), Wire(ScanCompatibility, EdgeFrom(ScanCompatibility)),
    Wire(AnalyzeTestsAndCi, EdgeFrom(AnalyzeTestsAndCi)), Wire(AggregateAnalysis, EdgeFrom(AggregateAnalysis))]

  const AGENT_WIRES: seq<Wire> := [
    Wire(DocumentationResearch, EdgeFrom(DocumentationResearch)), Wire(CalculateRisk, EdgeFrom(CalculateRisk)),
    Wire(CompatibilityInterpretation, EdgeFrom(CompatibilityInterpretation)),
    Wire(MigrationPlanning, EdgeFrom(MigrationPlanning))]

  const BACK_WIRES: seq<Wire> := [
    Wire(EvidenceValidator, EdgeFrom(EvidenceValidator)), Wire(EvidenceCritic, EdgeFrom(EvidenceCritic)),
    Wire(RepairPlan, EdgeFrom(RepairPlan)), Wire(AssembleValidated, EdgeFrom(AssembleValidated)),
    Wire(AssemblePartial, EdgeFrom(AssemblePartial)), Wire(AssembleTerminal, EdgeFrom(AssembleTerminal))]

  class GraphBuilder {
    var nodes: seq<Node>
    var entry: Option<Node>
    var wires: seq<Wire>

    constructor ()
      ensures nodes == [] && entry == None && wires == []
    {
      nodes, entry, wires := [], None, [];
    }

    method AddNode(n: Node)
      modifies `nodes
      ensures nodes == old(nodes) + [n]
    {
      nodes := nodes + [n];
    }

    method SetEntryPoint(n: Node)
      modifies `entry
      ensures entry == Some(n)
    {
      entry := Some(n);
    }

    method AddEdge(from: Node, to: Node)
      modifies `wires
      ensures wires == old(wires) + [Wire(from, To(to))]
    {
      wires := wires + [Wire(from, To(to))];
    }

    method AddEnd(from: Node)
      modifies `wires
      ensures wires == old(wires) + [Wire(from, ToEnd)]
    {
      wires := wires + [Wire(from, ToEnd)];
    }

    method AddConditionalEdges(from: Node, router: Router, allowed: Option<set<Node>>)
      modifies `wires
      ensures wires == old(wires) + [Wire(from, Choose(router, allowed))]
    {
      wires := wires + [Wire(from, Choose(router, allowed))];
    }

    method AddPipelineNodes()
      modifies `nodes
      ensures nodes == old(nodes) + PIPELINE_NODES
    {
      AddNode(ValidateRequest);
      AddNode(AcquireRepository);
      AddNode(ProfileRepository);
      AddNode(SelectMigrationPack);
      AddNode(ParseDependencies);
      AddNode(ScanCompatibility);
      AddNode(AnalyzeTestsAndCi);
      AddNode(DocumentationResearch);
      AddNode(AggregateAnalysis);
      AddNode(CalculateRisk);
    }

    method AddAgentNodes()
      modifies `nodes
      ensures nodes == old(nodes) + AGENT_NODES
    {
      AddNode(CompatibilityInterpretation);
      AddNode(MigrationPlanning);
      AddNode(EvidenceValidator);
      AddNode(EvidenceCritic);
      AddNode(RepairPlan);
      AddNode(AssembleValidated);
      AddNode(AssemblePartial);
      AddNode(AssembleTerminal);
    }

    method AddFrontWires()
      modifies `wires
      ensures wires == old(wires) + FRONT_WIRES
    {
      AddConditionalEdges(ValidateRequest, StopOr(AcquireRepository), None);
      AddConditionalEdges(AcquireRepository, StopOr(ProfileRepository), None);
      AddConditionalEdges(ProfileRepository, StopOr(SelectMigrationPack), None);
      AddConditionalEdges(SelectMigrationPack, AfterPackSelection, Some(BRANCHES + {AssembleTerminal}));
    }

    method AddFanWires()
      modifies `wires
      ensures wires == old(wires) + FAN_WIRES
    {
      AddEdge(ParseDependencies, AggregateAnalysis);
      AddEdge(ScanCompatibility, AggregateAnalysis);
      AddEdge(AnalyzeTestsAndCi, AggregateAnalysis);
      AddConditionalEdges(AggregateAnalysis, StopOr(DocumentationResearch), None);
    }

    method AddAgentWires()
      modifies `wires
      ensures wires == old(wires) + AGENT_WIRES
    {
      AddEdge(DocumentationResearch, CalculateRisk);
      AddConditionalEdges(CalculateRisk, StopOr(CompatibilityInterpretation), None);
      AddConditionalEdges(CompatibilityInterpretation, StopOr(MigrationPlanning), None);
      AddConditionalEdges(MigrationPlanning, StopOr(EvidenceValidator), None);
    }

    method AddBackWires()
      modifies `wires
      ensures wires == old(wires) + BACK_WIRES
    {
      AddConditionalEdges(EvidenceValidator, AfterValidation, Some({AssembleValidated, AssemblePartial, EvidenceCritic}));
      AddConditionalEdges(EvidenceCritic, AfterCritic, None);
      AddConditionalEdges(RepairPlan, AfterRepair, None);
      AddEnd(AssembleValidated);
      AddEnd(AssemblePartial);
      AddEnd(AssembleTerminal);
    }
  }

  ghost predicate Wired(wires: seq<Wire>) {
    forall i :: 0 <= i < |wires| ==> wires[i].edge == EdgeFrom(wires[i].from)
  }

  /** The graph built step by step has exactly the edges of the table the run theorems are about. */
  method BuildGraph() returns (g: GraphBuilder)
    ensures fresh(g)
    ensures g.nodes == PIPELINE_NODES + AGENT_NODES && g.entry == Some(ValidateRequest)
    ensures Wired(g.wires)
    ensures g.wires == FRONT_WIRES + FAN_WIRES + AGENT_WIRES + BACK_WIRES
  {
    g := new GraphBuilder();
    g.AddPipelineNodes();
    g.AddAgentNodes();
    g.SetEntryPoint(ValidateRequest);
    g.AddFrontWires();
    g.AddFanWires();
    g.AddAgentWires();
    g.AddBackWires();
    WiredParts();
  }

  ghost predicate HasNode(nodes: seq<Node>, n: Node) {
    exists i :: 0 <= i < |nodes| && nodes[i] == n
  }

  /** Every node is there, and none twice: there are eighteen. */
  ghost predicate EachOnce(nodes: seq<Node>) {
    (forall n: Node :: HasNode(nodes, n)) && |nodes| == 18
  }

  ghost predicate HasWire(wires: seq<Wire>, n: Node) {
    exists i :: 0 <= i < |wires| && wires[i].from == n
  }

  ghost predicate WiredOnce(wires: seq<Wire>) {
    (forall n: Node :: HasWire(wires, n)) && |wires| == 18
  }

  /** The graph built is whole: each of the eighteen nodes is added once and given its edge once. */
  lemma GraphIsWhole()
    ensures EachOnce(PIPELINE_NODES + AGENT_NODES) && WiredOnce(FRONT_WIRES + FAN_WIRES + AGENT_WIRES + BACK_WIRES)
  {
    NodesBuilt(PIPELINE_NODES, AGENT_NODES);
    WiresBuilt(FRONT_WIRES, FAN_WIRES, AGENT_WIRES, BACK_WIRES);
  }

  lemma HasEither(a: seq<Node>, b: seq<Node>, n: Node)
    ensures HasNode(a + b, n) <==> HasNode(a, n) || HasNode(b, n)
  {
    if i :| 0 <= i < |a| && a[i] == n {
      assert (a + b)[i] == n;
    }
    if i :| 0 <= i < |b| && b[i] == n {
      assert (a + b)[|a| + i] == n;
    }
  }

  lemma PipelineNodes(a: seq<Node>, n: Node)
    requires a == PIPELINE_NODES
    ensures BeforeAgents(n) ==> HasNode(a, n)
  {
    assert a[0] == ValidateRequest && a[1] == AcquireRepository && a[2] == ProfileRepository && a[3] == SelectMigrationPack;
    assert a[4] == ParseDependencies && a[5] == ScanCompatibility && a[6] == AnalyzeTestsAndCi;
    assert a[7] == DocumentationResearch && a[8] == AggregateAnalysis && a[9] == CalculateRisk;
  }

  predicate BeforeAgents(n: Node) {
    || n.ValidateRequest? || n.AcquireRepository? || n.ProfileRepository? || n.SelectMigrationPack?
    || n.ParseDependencies? || n.ScanCompatibility? || n.AnalyzeTestsAndCi?
    || n.DocumentationResearch? || n.AggregateAnalysis? || n.CalculateRisk?
  }

  lemma AgentNodes(b: seq<Node>, n: Node)
    requires b == AGENT_NODES
    ensures !BeforeAgents(n) ==> HasNode(b, n)
  {
    assert b[0] == CompatibilityInterpretation && b[1] == MigrationPlanning && b[2] == EvidenceValidator;
    assert b[3] == EvidenceCritic && b[4] == RepairPlan;
    assert b[5] == AssembleValidated && b[6] == AssemblePartial && b[7] == AssembleTerminal;
  }

  lemma NodesBuilt(a: seq<Node>, b: seq<Node>)
    requires a == PIPELINE_NODES && b == AGENT_NODES
    ensures EachOnce(a + b)
  {
    forall n: Node
      ensures HasNode(a + b, n)
    {
      HasEither(a, b, n);
      PipelineNodes(a, n);
      AgentNodes(b, n);
    }
  }

  lemma WiresBuilt(a: seq<Wire>, b: seq<Wire>, c: seq<Wire>, d: seq<Wire>)
    requires a == FRONT_WIRES && b == FAN_WIRES && c == AGENT_WIRES && d == BACK_WIRES
    ensures WiredOnce(a + b + c + d)
  {
    var wires := a + b + c + d;
    assert wires[0] == a[0] && wires[1] == a[1] && wires[2] == a[2] && wires[3] == a[3];
    assert wires[4] == b[0] && wires[5] == b[1] && wires[6] == b[2] && wires[7] == b[3];
    assert wires[8] == c[0] && wires[9] == c[1] && wires[10] == c[2] && wires[11] == c[3];
    assert wires[12] == d[0] && wires[13] == d[1] && wires[14] == d[2];
    assert wires[15] == d[3] && wires[16] == d[4] && wires[17] == d[5];
  }

  lemma WiredParts()
    ensures Wired(FRONT_WIRES) && Wired(FAN_WIRES) && Wired(AGENT_WIRES) && Wired(BACK_WIRES)
    ensures Wired(FRONT_WIRES + FAN_WIRES + AGENT_WIRES + BACK_WIRES)
  {
  }
}
