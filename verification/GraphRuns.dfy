/**
 Runs of the graph. In a super-step every node of the frontier runs on the same state; their updates are
 merged, and the frontier becomes the union of the nodes their edges name, so branches that meet in one
 node start it once. A run also records in which order a consumer of the update stream saw the updates.

 One invariant ties every reachable state to the stage the run has reached.
 */
module GraphRuns {
  import opened Outcomes
  import opened Models
  import opened Evidence
  import opened GraphState
  import opened Nodes
  import opened Graph

  datatype Exec = Exec(node: Node, update: Update)

  // `applied` is the order in which the graph merges, `seen` the order in which the updates are streamed.
  datatype Run = Start(requestPack: Option<string>)
               | Then(before: Run, applied: seq<Exec>, seen: seq<Exec>)

  function ApplyAll(s: State, execs: seq<Exec>): State {
    if execs == [] then s else Apply(ApplyAll(s, execs[..|execs| - 1]), execs[|execs| - 1].update)
  }

  /** A router sees the state with its own node's update in it. */
  function NextFrontier(v: View, execs: seq<Exec>): set<Node> {
    if execs == [] then {}
    else NextFrontier(v, execs[..|execs| - 1]) + Targets(execs[|execs| - 1].node, Revise(v, execs[|execs| - 1].update))
  }

  function NodesOf(execs: seq<Exec>): (nodes: seq<Node>)
    ensures |nodes| == |execs| && forall i :: 0 <= i < |nodes| ==> nodes[i] == execs[i].node
  {
    seq(|execs|, i requires 0 <= i < |execs| => execs[i].node)
  }

  function StateOf(run: Run): State {
    match run
    case Start(requestPack) => InitialState(requestPack)
    case Then(before, applied, _) => ApplyAll(StateOf(before), applied)
  }

  function ViewOf(run: Run): View {
    Read(StateOf(run))
  }

  function Frontier(run: Run): set<Node> {
    match run
    case Start(_) => {ValidateRequest}
    case Then(before, applied, _) => NextFrontier(ViewOf(before), applied)
  }

  /** The nodes executed, in order. */
  function Done(run: Run): seq<Node> {
    match run
    case Start(_) => []
    case Then(before, applied, _) => Done(before) + NodesOf(applied)
  }

  function Supersteps(run: Run): nat {
    match run
    case Start(_) => 0
    case Then(before, _, _) => Supersteps(before) + 1
  }

  /** Every node of the frontier runs exactly once, on the state the super-step started from. */
  ghost predicate Superstep(env: Env, frontier: set<Node>, v: View, execs: seq<Exec>) {
    && frontier != {} && |execs| == |frontier|
    && (forall i :: 0 <= i < |execs| ==> execs[i].node in frontier && Produces(env, execs[i].node, v, execs[i].update))
    && (forall i, j :: 0 <= i < j < |execs| ==> execs[i].node != execs[j].node)
  }

  lemma AloneIsSuperstep(env: Env, n: Node, v: View, u: Update)
    requires Produces(env, n, v, u)
    ensures Superstep(env, {n}, v, [Exec(n, u)])
  {
  }

  lemma BranchesAreSuperstep(env: Env, v: View, a: Update, b: Update, c: Update, execs: seq<Exec>)
    requires Produces(env, ParseDependencies, v, a) && Produces(env, ScanCompatibility, v, b)
    requires Produces(env, AnalyzeTestsAndCi, v, c)
    requires execs == [Exec(ParseDependencies, a), Exec(ScanCompatibility, b), Exec(AnalyzeTestsAndCi, c)]
    ensures Superstep(env, BRANCHES, v, execs)
  {
    assert |BRANCHES| == 3;
  }

  ghost predicate Valid(env: Env, run: Run) {
    match run
    case Start(_) => Loaded(env)
    case Then(before, applied, seen) =>
      && Valid(env, before)
      && Superstep(env, Frontier(before), ViewOf(before), applied)
      && multiset(seen) == multiset(applied)
  }

  ghost predicate Finished(env: Env, run: Run) {
    Valid(env, run) && Frontier(run) == {}
  }

  /** The later run begins with the earlier one, updates and all. */
  ghost predicate Continues(later: Run, run: Run) {
    later == run || (later.Then? && Continues(later.before, run))
  }

  lemma {:induction false} ContinuesBefore(later: Run, run: Run)
    requires run.Then? && Continues(later, run)
    ensures Continues(later, run.before)
  {
    if later != run {
      ContinuesBefore(later.before, run);
    } else {
      assert Continues(later.before, run.before);
    }
  }

  // ---- Where a run can be -----------------------------------------------------------------------------

  datatype Stage = At(node: Node) | Fan | Over(report: Node)

  function FrontierAt(p: Stage): set<Node> {
    match p
    case At(n) => {n}
    case Fan => BRANCHES
    case Over(_) => {}
  }

  predicate IsBranch(n: Node) {
    n.ParseDependencies? || n.ScanCompatibility? || n.AnalyzeTestsAndCi?
  }

  predicate Standing(p: Stage) {
    match p
    case At(n) => !IsBranch(n)
    case Fan => true
    case Over(r) => IsReport(r)
  }

  // The node a stage is about; the fan-out counts as its fan-in.
  function NodeAt(p: Stage): Node {
    match p
    case At(n) => n
    case Fan => AggregateAnalysis
    case Over(r) => r
  }

  predicate BeforeFan(n: Node) {
    n.ValidateRequest? || n.AcquireRepository? || n.ProfileRepository? || n.SelectMigrationPack?
  }

  /** At or beyond the fan-out, on the way to a validated or a partial report. */
  predicate PastSelection(n: Node) {
    !BeforeFan(n) && !n.AssembleTerminal?
  }

  predicate PastScoring(n: Node) {
    PastSelection(n) && !n.AggregateAnalysis? && !n.DocumentationResearch? && !n.CalculateRisk?
  }

  function NextStage(n: Node, v: View): Stage {
    match n
    case SelectMigrationPack =>
      if v.status == Terminated || !Migratable(v.applicability) then At(AssembleTerminal) else Fan
    case EvidenceValidator =>
      if v.outcome == Pass then At(AssembleValidated)
      else if v.outcome == Repairable && v.repairs == 0 then At(EvidenceCritic)
      else At(AssemblePartial)
    case EvidenceCritic => At(RepairPlan)
    case RepairPlan => At(EvidenceValidator)
    case DocumentationResearch => At(CalculateRisk)
    case ParseDependencies => At(AggregateAnalysis)
    case ScanCompatibility => At(AggregateAnalysis)
    case AnalyzeTestsAndCi => At(AggregateAnalysis)
    case AssembleValidated => Over(n)
    case AssemblePartial => Over(n)
    case AssembleTerminal => Over(n)
    case _ =>
      if v.status == Terminated then At(AssembleTerminal) else At(EdgeFrom(n).router.onward)
  }

  lemma NextStageIsNext(n: Node, v: View)
    ensures FrontierAt(NextStage(n, v)) == Targets(n, v) && Standing(NextStage(n, v))
  {
  }

  // ---- The invariant ----------------------------------------------------------------------------------

  /** Why a run may stop early: an error was recorded, or the requested pack does not apply. */
  ghost predicate StopsForCause(env: Env, v: View) {
    v.errors == [] ==> v.applicability == NotApplicable && v.PackId() in env.registry && v.requestPack == Some(v.PackId())
  }

  ghost predicate StatusFits(env: Env, v: View, p: Stage) {
    match p
    case At(n) =>
      if n == ValidateRequest then v.status == Pending
      else if n == AssembleTerminal then StopsForCause(env, v)
      else v.status == Running
    case Fan => v.status == Running
    case Over(r) => v.status == FinalStatus(r) && (r == AssembleTerminal ==> StopsForCause(env, v))
  }

  ghost predicate ReportFits(v: View, p: Stage)
    requires Standing(p)
  {
    match p
    case Over(r) =>
      && v.executions != []
      && v.report == Some(ReportBy(r, v, v.executions[..|v.executions| - 1]))
      && v.reportStatus == FinalReportStatus(r)
    case _ => v.report == None && v.reportStatus == NoReport
  }

  ghost predicate SelectionFits(env: Env, v: View, n: Node) {
    PastSelection(n) ==> v.PackId() in env.registry && Migratable(v.applicability)
  }

  ghost predicate RiskFits(env: Env, v: View, n: Node) {
    PastScoring(n) && v.risk.Some? ==>
      && v.PackId() in env.registry
      && v.risk.value == env.score(v.findings, TestCiSeen(v), env.registry[v.PackId()].risk)
  }

  /** After the validator, until the plan changes, the recorded issues are those of the plan. */
  ghost predicate ValidationFits(env: Env, v: View, n: Node) {
    n.EvidenceCritic? || n.RepairPlan? || n.AssembleValidated? || n.AssemblePartial? ==>
      && v.issues == IssuesFor(env, v) && v.outcome == OutcomeOf(v.issues)
      && (n.AssembleValidated? ==> v.outcome == Pass)
      && (n.EvidenceCritic? || n.RepairPlan? ==> v.outcome == Repairable)
      && (n.AssemblePartial? ==> v.outcome == StructuralFailure || (v.outcome == Repairable && v.repairs == 1))
  }

  /** There are no instructions, or they passed the critic's own check. */
  ghost predicate Allowed(env: Env, instructions: seq<Instruction>, issues: seq<Issue>, plan: Plan) {
    instructions == [] || env.permitted(instructions, issues, plan)
  }

  /** The plan was `original` when it was validated, and was then repaired with the critic's instructions. */
  ghost predicate RepairedFrom(env: Env, v: View, original: Plan) {
    && v.Plan() == env.repair(original, v.instructions)
    && v.issues == env.validate(ContextOf(env, v).(plan := original))
    && OutcomeOf(v.issues) == Repairable
    && Allowed(env, v.instructions, v.issues, original)
  }

  ghost predicate RepairFits(env: Env, v: View, p: Stage) {
    var n := NodeAt(p);
    && v.repairs <= 1
    && (v.repairs == 1 ==> n.EvidenceValidator? || n.AssembleValidated? || n.AssemblePartial?)
    && (v.repairs == 0 && !n.RepairPlan? ==> v.instructions == [])
    && (n.RepairPlan? ==> Allowed(env, v.instructions, v.issues, v.Plan()))
    && (n.EvidenceValidator? && v.repairs == 1 ==> exists original :: RepairedFrom(env, v, original))
  }

  ghost predicate Holds(env: Env, v: View, p: Stage) {
    && Standing(p)
    && StatusFits(env, v, p) && ReportFits(v, p) && SelectionFits(env, v, NodeAt(p))
    && RiskFits(env, v, NodeAt(p)) && ValidationFits(env, v, NodeAt(p)) && RepairFits(env, v, p)
  }
}
