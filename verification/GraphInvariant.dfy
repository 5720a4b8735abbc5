/** The invariant holds in every run: states, execution log, node counts and the budget that is left. */
module GraphInvariant {
  import opened Outcomes
  import opened GraphState
  import opened Nodes
  import opened Graph
  import opened GraphRuns
  import opened GraphSteps

  // ---- One super-step ---------------------------------------------------------------------------------

  /** The stages a single node can lead to, given how often the plan has been repaired. */
  predicate Leads(n: Node, repairs: nat, q: Stage) {
    && (repairs == 0 || (repairs == 1 && (n.EvidenceValidator? || n.AssembleValidated? || n.AssemblePartial?)))
    && match n
       case ValidateRequest => q == At(AcquireRepository) || q == At(AssembleTerminal)
       case AcquireRepository => q == At(ProfileRepository) || q == At(AssembleTerminal)
       case ProfileRepository => q == At(SelectMigrationPack) || q == At(AssembleTerminal)
       case SelectMigrationPack => q == Fan || q == At(AssembleTerminal)
       case AggregateAnalysis => q == At(DocumentationResearch)
       case DocumentationResearch => q == At(CalculateRisk)
       case CalculateRisk => q == At(CompatibilityInterpretation)
       case CompatibilityInterpretation => q == At(MigrationPlanning)
       case MigrationPlanning => q == At(EvidenceValidator)
       case EvidenceValidator =>
         q == At(AssembleValidated) || q == At(AssemblePartial) || (repairs == 0 && q == At(EvidenceCritic))
       case EvidenceCritic => q == At(RepairPlan)
       case RepairPlan => q == At(EvidenceValidator)
       case AssembleValidated => q == Over(n)
       case AssemblePartial => q == Over(n)
       case AssembleTerminal => q == Over(n)
       case _ => false
  }

  lemma StepKeeps(env: Env, n: Node, v: View, u: Update, w: View)
    requires Holds(env, v, At(n)) && Produces(env, n, v, u) && w == Revise(v, u)
    ensures Holds(env, w, NextStage(n, w)) && w.repairs == v.repairs + (if n == RepairPlan then 1 else 0)
    ensures Leads(n, v.repairs, NextStage(n, w))
  {
    NodeLogs(env, n, v, u);
    if n.ValidateRequest? || n.AcquireRepository? || n.ProfileRepository? {
      FrontDoes(env, n, v, u, w);
      FrontKeeps(env, n, v, w);
    } else if n.SelectMigrationPack? {
      SelectDoes(env, v, u, w);
      SelectKeeps(env, v, w);
    } else if n.AggregateAnalysis? || n.DocumentationResearch? {
      AnalysisDoes(env, n, v, u, w);
      AnalysisKeeps(env, n, v, w);
    } else if n.CalculateRisk? {
      RiskDoes(env, v, u, w);
      RiskKeeps(env, v, w);
    } else if n.CompatibilityInterpretation? || n.MigrationPlanning? {
      AgentDoes(env, n, v, u, w);
      AgentKeeps(env, n, v, w);
    } else if n.EvidenceValidator? {
      ValidatorDoes(env, v, u, w);
      ValidatorKeeps(env, v, w);
    } else if n.EvidenceCritic? {
      CriticDoes(env, v, u, w);
      CriticKeeps(env, v, w);
    } else if n.RepairPlan? {
      RepairDoes(env, v, u, w);
      RepairKeeps(env, v, w);
    } else {
      ReportDoes(env, n, v, u, w);
      ReportKeeps(env, n, v, w);
    }
  }

  /** A super-step of a single node. */
  lemma OneNode(env: Env, n: Node, s: State, v: View, execs: seq<Exec>, t: State, w: View) returns (u: Update)
    requires WellTyped(s) && v == Read(s) && Superstep(env, {n}, v, execs)
    requires t == ApplyAll(s, execs) && w == Read(t)
    ensures execs == [Exec(n, u)] && Produces(env, n, v, u) && w == Revise(v, u) && WellTyped(t)
    ensures NodesOf(execs) == [n] && NextFrontier(v, execs) == Targets(n, w)
  {
    u := execs[0].update;
    assert execs[..0] == [];
    assert ApplyAll(s, execs[..0]) == s;
    ReadApply(s, u);
    MergeKeepsTypes(GRAPH_APPENDS, s, u);
  }

  lemma AtSuperstep(env: Env, n: Node, s: State, v: View, execs: seq<Exec>, t: State, w: View)
    requires WellTyped(s) && v == Read(s) && Holds(env, v, At(n)) && Superstep(env, {n}, v, execs)
    requires t == ApplyAll(s, execs) && w == Read(t)
    ensures WellTyped(t) && Holds(env, w, NextStage(n, w))
    ensures Leads(n, v.repairs, NextStage(n, w)) && w.repairs == v.repairs + (if n == RepairPlan then 1 else 0)
    ensures NodesOf(execs) == [n] && NextFrontier(v, execs) == FrontierAt(NextStage(n, w))
  {
    var u := OneNode(env, n, s, v, execs, t, w);
    StepKeeps(env, n, v, u, w);
    NextStageIsNext(n, w);
  }

  /** What the branches change: their own results and the logs. */
  ghost predicate BranchEffect(v: View, w: View) {
    w == v.(dependencies := w.dependencies, findings := w.findings, testCi := w.testCi, executions := w.executions,
            errors := w.errors, warnings := w.warnings)
  }

  lemma BranchFrame(n: Node, v: View, w: View)
    requires IsBranch(n) && OnlyWrites(n, v, w)
    ensures BranchEffect(v, w)
  {
  }

  /** An update of the right shape, within its node's fields, with its log entry. */
  ghost predicate Lawful(e: Exec) {
    && (forall k :: k in e.update ==> MayWrite(e.node, k)) && WellTypedUpdate(e.update)
    && NodeExecutions in e.update && exists ok :: e.update[NodeExecutions] == ExecutionsV([Execution(e.node, ok)])
  }

  lemma SuperstepIsLawful(env: Env, frontier: set<Node>, v: View, execs: seq<Exec>)
    requires Superstep(env, frontier, v, execs)
    ensures forall i :: 0 <= i < |execs| ==> Lawful(execs[i])
  {
    forall i | 0 <= i < |execs|
      ensures Lawful(execs[i])
    {
      assert Produces(env, execs[i].node, v, execs[i].update);
    }
  }

  lemma BranchApplies(s: State, e: Exec)
    requires WellTyped(s) && IsBranch(e.node) && Lawful(e)
    ensures WellTyped(Apply(s, e.update)) && BranchEffect(Read(s), Read(Apply(s, e.update)))
  {
    ReadApply(s, e.update);
    MergeKeepsTypes(GRAPH_APPENDS, s, e.update);
    RevisesOnly(e.node, Read(s), e.update);
    BranchFrame(e.node, Read(s), Revise(Read(s), e.update));
  }

  lemma {:induction false} BranchesApply(s: State, execs: seq<Exec>)
    requires WellTyped(s) && forall i :: 0 <= i < |execs| ==> IsBranch(execs[i].node) && Lawful(execs[i])
    ensures WellTyped(ApplyAll(s, execs)) && BranchEffect(Read(s), Read(ApplyAll(s, execs)))
  {
    if execs != [] {
      BranchesApply(s, execs[..|execs| - 1]);
      BranchApplies(ApplyAll(s, execs[..|execs| - 1]), execs[|execs| - 1]);
    }
  }

  lemma {:induction false} BranchesMeet(v: View, execs: seq<Exec>)
    requires forall i :: 0 <= i < |execs| ==> IsBranch(execs[i].node)
    ensures NextFrontier(v, execs) == if execs == [] then {} else {AggregateAnalysis}
  {
    if execs != [] {
      BranchesMeet(v, execs[..|execs| - 1]);
    }
  }

  lemma FanKeeps(env: Env, v: View, w: View)
    requires Holds(env, v, Fan) && BranchEffect(v, w)
    ensures Holds(env, w, At(AggregateAnalysis)) && w.repairs == v.repairs
  {
  }

  lemma FanSuperstep(env: Env, s: State, execs: seq<Exec>)
    requires WellTyped(s) && Superstep(env, BRANCHES, Read(s), execs)
    requires Holds(env, Read(s), Fan)
    ensures |execs| == 3 && forall i :: 0 <= i < 3 ==> IsBranch(execs[i].node)
    ensures WellTyped(ApplyAll(s, execs)) && Holds(env, Read(ApplyAll(s, execs)), At(AggregateAnalysis))
    ensures Read(ApplyAll(s, execs)).repairs == Read(s).repairs
    ensures NextFrontier(Read(s), execs) == {AggregateAnalysis}
  {
    assert |BRANCHES| == 3;
    SuperstepIsLawful(env, BRANCHES, Read(s), execs);
    BranchesApply(s, execs);
    BranchesMeet(Read(s), execs);
    FanKeeps(env, Read(s), Read(ApplyAll(s, execs)));
  }

  // ---- The trace of a run -----------------------------------------------------------------------------

  ghost predicate Moves(p: Stage, repairs: nat, nodes: seq<Node>, q: Stage, repairsAfter: nat) {
    match p
    case At(n) => nodes == [n] && Leads(n, repairs, q) && repairsAfter == repairs + if n == RepairPlan then 1 else 0
    case Fan =>
      && |nodes| == 3 && IsBranch(nodes[0]) && IsBranch(nodes[1]) && IsBranch(nodes[2])
      && nodes[0] != nodes[1] && nodes[0] != nodes[2] && nodes[1] != nodes[2]
      && q == At(AggregateAnalysis) && repairsAfter == repairs == 0
    case Over(_) => false
  }

  /** The stage a super-step leads to. */
  function StageAfter(p: Stage, w: View): Stage {
    match p
    case At(n) => NextStage(n, w)
    case Fan => At(AggregateAnalysis)
    case Over(r) => p
  }

  lemma FanMoves(env: Env, s: State, v: View, execs: seq<Exec>, t: State, w: View)
    requires WellTyped(s) && v == Read(s) && Superstep(env, BRANCHES, v, execs) && Holds(env, v, Fan)
    requires t == ApplyAll(s, execs) && w == Read(t)
    ensures Moves(Fan, v.repairs, NodesOf(execs), At(AggregateAnalysis), w.repairs)
  {
    FanSuperstep(env, s, execs);
  }

  lemma SuperstepKeeps(env: Env, p: Stage, s: State, v: View, execs: seq<Exec>, t: State, w: View)
    requires WellTyped(s) && v == Read(s) && Superstep(env, FrontierAt(p), v, execs) && Holds(env, v, p)
    requires t == ApplyAll(s, execs) && w == Read(t)
    ensures WellTyped(t) && Holds(env, w, StageAfter(p, w)) && NextFrontier(v, execs) == FrontierAt(StageAfter(p, w))
    ensures Moves(p, v.repairs, NodesOf(execs), StageAfter(p, w), w.repairs)
  {
    match p
    case At(n) =>
      AtSuperstep(env, n, s, v, execs, t, w);
    case Fan =>
      FanSuperstep(env, s, execs);
      FanMoves(env, s, v, execs, t, w);
    case Over(_) =>
      assert false;
  }

  // ---- Every run --------------------------------------------------------------------------------------

  /** The stage a run has reached, as its history determines it. */
  function StageOf(run: Run): Stage {
    match run
    case Start(_) => At(ValidateRequest)
    case Then(before, _, _) => StageAfter(StageOf(before), ViewOf(run))
  }

  lemma InitialAt(requestPack: Option<string>, k: Key)
    ensures k in InitialState(requestPack) && InitialState(requestPack)[k] == Zero(k, requestPack)
  {
  }

  lemma InitialFields(s: State)
    requires Status in s && s[Status] == StatusV(Pending)
    requires RepairCount in s && s[RepairCount] == CountV(0)
    requires Instructions in s && s[Instructions] == InstructionsV([])
    requires NodeExecutions in s && s[NodeExecutions] == ExecutionsV([])
    requires FinalReport in s && s[FinalReport] == ReportV(None)
    requires ReportState in s && s[ReportState] == ReportStatusV(NoReport)
    ensures Fresh(Read(s))
  {
  }

  /** Nothing has happened yet. */
  ghost predicate Fresh(v: View) {
    && v.status == Pending && v.repairs == 0 && v.instructions == [] && v.executions == []
    && v.report == None && v.reportStatus == NoReport
  }

  lemma InitialIsFresh(requestPack: Option<string>)
    ensures Fresh(Read(InitialState(requestPack)))
  {
    InitialAt(requestPack, Status);
    InitialAt(requestPack, RepairCount);
    InitialAt(requestPack, Instructions);
    InitialAt(requestPack, NodeExecutions);
    InitialAt(requestPack, FinalReport);
    InitialAt(requestPack, ReportState);
    InitialFields(InitialState(requestPack));
  }

  lemma InitialHolds(env: Env, v: View)
    requires Fresh(v)
    ensures Holds(env, v, At(ValidateRequest))
  {
  }

  lemma {:induction false} InvariantAlways(env: Env, run: Run)
    requires Valid(env, run)
    ensures WellTyped(StateOf(run)) && Holds(env, ViewOf(run), StageOf(run))
    ensures Frontier(run) == FrontierAt(StageOf(run))
    ensures run.Then? ==> Moves(StageOf(run.before), ViewOf(run.before).repairs, NodesOf(run.applied), StageOf(run),
                                ViewOf(run).repairs)
  {
    match run
    case Start(requestPack) =>
      InitialIsFresh(requestPack);
      InitialHolds(env, ViewOf(run));
    case Then(before, applied, _) =>
      InvariantAlways(env, before);
      var t := StateOf(run);
      assert t == ApplyAll(StateOf(before), applied);
      SuperstepKeeps(env, StageOf(before), StateOf(before), ViewOf(before), applied, t, Read(t));
  }

  // ---- The log ----------------------------------------------------------------------------------------

  function LogNodes(log: seq<Execution>): (nodes: seq<Node>)
    ensures |nodes| == |log| && forall i :: 0 <= i < |log| ==> nodes[i] == log[i].node
  {
    seq(|log|, i requires 0 <= i < |log| => log[i].node)
  }

  lemma OneLogs(s: State, e: Exec)
    requires WellTyped(s) && Lawful(e)
    ensures WellTyped(Apply(s, e.update))
    ensures LogNodes(Read(Apply(s, e.update)).executions) == LogNodes(Read(s).executions) + [e.node]
  {
    ReadApply(s, e.update);
    MergeKeepsTypes(GRAPH_APPENDS, s, e.update);
    var ok :| e.update[NodeExecutions] == ExecutionsV([Execution(e.node, ok)]);
    assert Revise(Read(s), e.update).executions == Read(s).executions + [Execution(e.node, ok)];
  }

  lemma LastNodeOf(execs: seq<Exec>)
    requires execs != []
    ensures NodesOf(execs) == NodesOf(execs[..|execs| - 1]) + [execs[|execs| - 1].node]
  {
  }

  lemma {:induction false} AllLog(s: State, execs: seq<Exec>)
    requires WellTyped(s) && forall i :: 0 <= i < |execs| ==> Lawful(execs[i])
    ensures WellTyped(ApplyAll(s, execs))
    ensures LogNodes(Read(ApplyAll(s, execs)).executions) == LogNodes(Read(s).executions) + NodesOf(execs)
  {
    if execs == [] {
      assert NodesOf(execs) == [];
    } else {
      var n := |execs| - 1;
      var middle := ApplyAll(s, execs[..n]);
      AllLog(s, execs[..n]);
      OneLogs(middle, execs[n]);
      LastNodeOf(execs);
      assert ApplyAll(s, execs) == Apply(middle, execs[n].update);
    }
  }

  /** The execution log of the state is the run: one record per executed node, in order. */
  lemma {:induction false} LogIsTheRun(env: Env, run: Run)
    requires Valid(env, run)
    ensures LogNodes(ViewOf(run).executions) == Done(run)
  {
    match run
    case Start(requestPack) =>
      InitialIsFresh(requestPack);
    case Then(before, applied, _) =>
      LogIsTheRun(env, before);
      InvariantAlways(env, before);
      SuperstepIsLawful(env, Frontier(before), ViewOf(before), applied);
      AllLog(StateOf(before), applied);
  }

  // ---- Counting on the trace --------------------------------------------------------------------------

  /** What counting needs of a run: the nodes of each super-step and the stage it led to. */
  datatype Trace = Begin | Next(before: Trace, nodes: seq<Node>, stage: Stage, repairs: nat)

  function EndStage(t: Trace): Stage {
    if t.Begin? then At(ValidateRequest) else t.stage
  }

  function EndRepairs(t: Trace): nat {
    if t.Begin? then 0 else t.repairs
  }

  function Visited(t: Trace): seq<Node> {
    if t.Begin? then [] else Visited(t.before) + t.nodes
  }

  ghost predicate Proper(t: Trace) {
    t.Next? ==> Proper(t.before) && Moves(EndStage(t.before), EndRepairs(t.before), t.nodes, t.stage, t.repairs)
  }

  function TraceOf(run: Run): Trace {
    match run
    case Start(_) => Begin
    case Then(before, applied, _) => Next(TraceOf(before), NodesOf(applied), StageOf(run), ViewOf(run).repairs)
  }

  lemma {:induction false} TraceIsProper(env: Env, run: Run)
    requires Valid(env, run)
    ensures Proper(TraceOf(run)) && EndStage(TraceOf(run)) == StageOf(run)
    ensures EndRepairs(TraceOf(run)) == ViewOf(run).repairs && Visited(TraceOf(run)) == Done(run)
  {
    match run
    case Start(requestPack) =>
      InitialIsFresh(requestPack);
    case Then(before, _, _) =>
      TraceIsProper(env, before);
      InvariantAlways(env, before);
      InvariantAlways(env, run);
  }

  // ---- The budget -------------------------------------------------------------------------------------

  /** How many nodes can still run. */
  function Budget(p: Stage, repairs: nat): nat {
    match p
    case Fan => 13
    case Over(_) => 0
    case At(n) =>
      match n
      case ValidateRequest => 17
      case AcquireRepository => 16
      case ProfileRepository => 15
      case SelectMigrationPack => 14
      case AggregateAnalysis => 10
      case DocumentationResearch => 9
      case CalculateRisk => 8
      case CompatibilityInterpretation => 7
      case MigrationPlanning => 6
      case EvidenceValidator => if repairs == 0 then 5 else 2
      case EvidenceCritic => 4
      case RepairPlan => 3
      case _ => 1
  }

  lemma {:induction false} BudgetKept(t: Trace)
    requires Proper(t)
    ensures |Visited(t)| + Budget(EndStage(t), EndRepairs(t)) <= 17
  {
    if t.Next? {
      BudgetKept(t.before);
    }
  }

  // ---- How often each node has run --------------------------------------------------------------------

  function TimesIn(done: seq<Node>, m: Node): nat {
    if done == [] then 0 else TimesIn(done[..|done| - 1], m) + if done[|done| - 1] == m then 1 else 0
  }

  function Rank(n: Node): nat {
    match n
    case ValidateRequest => 0
    case AcquireRepository => 1
    case ProfileRepository => 2
    case SelectMigrationPack => 3
    case ParseDependencies => 4
    case ScanCompatibility => 4
    case AnalyzeTestsAndCi => 4
    case AggregateAnalysis => 5
    case DocumentationResearch => 6
    case CalculateRisk => 7
    case CompatibilityInterpretation => 8
    case MigrationPlanning => 9
    case _ => 10
  }

  function RankAt(p: Stage): nat {
    match p
    case At(n) => Rank(n)
    case Fan => 4
    case Over(_) => 10
  }

  /** How often a run that has not been stopped early has executed a node. */
  function Times(m: Node, p: Stage, repairs: nat): nat {
    var n := NodeAt(p);
    if IsReport(m) then (if p == Over(m) then 1 else 0)
    else if m.EvidenceValidator? then
      repairs + if n.EvidenceCritic? || n.RepairPlan? || p == Over(AssembleValidated) || p == Over(AssemblePartial)
                   || p == At(AssembleValidated) || p == At(AssemblePartial) then 1 else 0
    else if m.EvidenceCritic? then repairs + if n.RepairPlan? then 1 else 0
    else if m.RepairPlan? then repairs
    else if Rank(m) < RankAt(p) then 1
    else 0
  }

  ghost predicate CountedAt(count: nat, p: Stage, repairs: nat, m: Node) {
    if NodeAt(p) == AssembleTerminal then
      if BeforeFan(m) then count <= 1 else count == if p == Over(m) then 1 else 0
    else count == Times(m, p, repairs)
  }

  lemma TimesInOne(done: seq<Node>, n: Node, m: Node)
    ensures TimesIn(done + [n], m) == TimesIn(done, m) + if n == m then 1 else 0
  {
    assert (done + [n])[..|done|] == done;
  }

  lemma TimesInThree(done: seq<Node>, nodes: seq<Node>, m: Node)
    requires |nodes| == 3 && IsBranch(nodes[0]) && IsBranch(nodes[1]) && IsBranch(nodes[2])
    requires nodes[0] != nodes[1] && nodes[0] != nodes[2] && nodes[1] != nodes[2]
    ensures TimesIn(done + nodes, m) == TimesIn(done, m) + if IsBranch(m) then 1 else 0
  {
    assert done + nodes == done + [nodes[0]] + [nodes[1]] + [nodes[2]];
    TimesInOne(done + [nodes[0]] + [nodes[1]], nodes[2], m);
    TimesInOne(done + [nodes[0]], nodes[1], m);
    TimesInOne(done, nodes[0], m);
  }

  lemma CountsLoop(count: nat, n: Node, repairs: nat, q: Stage, m: Node)
    requires m.EvidenceValidator? || m.EvidenceCritic? || m.RepairPlan?
    requires CountedAt(count, At(n), repairs, m) && Leads(n, repairs, q)
    ensures CountedAt(count + (if n == m then 1 else 0), q, repairs + (if n == RepairPlan then 1 else 0), m)
  {
  }

  lemma CountsReport(count: nat, n: Node, repairs: nat, q: Stage, m: Node)
    requires IsReport(m)
    requires CountedAt(count, At(n), repairs, m) && Leads(n, repairs, q)
    ensures CountedAt(count + (if n == m then 1 else 0), q, repairs + (if n == RepairPlan then 1 else 0), m)
  {
  }

  lemma LeadsToNextRank(n: Node, repairs: nat, q: Stage)
    requires Leads(n, repairs, q)
    ensures NodeAt(q) == AssembleTerminal ==> BeforeFan(n) || n == AssembleTerminal
    ensures NodeAt(q) != AssembleTerminal ==> n != AssembleTerminal && RankAt(q) == if Rank(n) < 10 then Rank(n) + 1 else 10
  {
  }

  lemma RankIsUnique(n: Node, m: Node)
    requires Rank(n) == Rank(m) < 10 && !IsBranch(n)
    ensures n == m
  {
  }

  lemma CountsLine(count: nat, n: Node, repairs: nat, q: Stage, m: Node)
    requires Rank(m) < 10
    requires CountedAt(count, At(n), repairs, m) && Leads(n, repairs, q)
    ensures CountedAt(count + (if n == m then 1 else 0), q, repairs + (if n == RepairPlan then 1 else 0), m)
  {
    LeadsToNextRank(n, repairs, q);
    assert !IsBranch(n);
    if Rank(n) == Rank(m) {
      RankIsUnique(n, m);
    }
  }

  lemma CountsOne(count: nat, n: Node, repairs: nat, q: Stage, m: Node)
    requires CountedAt(count, At(n), repairs, m) && Leads(n, repairs, q)
    ensures CountedAt(count + (if n == m then 1 else 0), q, repairs + (if n == RepairPlan then 1 else 0), m)
  {
    if IsReport(m) {
      CountsReport(count, n, repairs, q, m);
    } else if Rank(m) < 10 {
      CountsLine(count, n, repairs, q, m);
    } else {
      CountsLoop(count, n, repairs, q, m);
    }
  }

  lemma CountsThree(count: nat, m: Node)
    requires CountedAt(count, Fan, 0, m)
    ensures CountedAt(count + (if IsBranch(m) then 1 else 0), At(AggregateAnalysis), 0, m)
  {
  }

  lemma {:induction false} CountsAlways(t: Trace, m: Node)
    requires Proper(t)
    ensures CountedAt(TimesIn(Visited(t), m), EndStage(t), EndRepairs(t), m)
  {
    if t.Next? {
      CountsAlways(t.before, m);
      CountsNext(Visited(t.before), EndStage(t.before), EndRepairs(t.before), t.nodes, t.stage, t.repairs, m);
    }
  }

  lemma CountsNext(done: seq<Node>, p: Stage, repairs: nat, nodes: seq<Node>, q: Stage, after: nat, m: Node)
    requires Moves(p, repairs, nodes, q, after) && CountedAt(TimesIn(done, m), p, repairs, m)
    ensures CountedAt(TimesIn(done + nodes, m), q, after, m)
  {
    match p
    case At(n) =>
      TimesInOne(done, n, m);
      CountsOne(TimesIn(done, m), n, repairs, q, m);
    case Fan =>
      TimesInThree(done, nodes, m);
      CountsThree(TimesIn(done, m), m);
    case Over(_) =>
      assert false;
  }
}
