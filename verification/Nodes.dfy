/**
 What each node of the graph may return (src/upgradepilot/graph/nodes). Work that reaches outside the
 process (downloads, scanners, language models) is arbitrary within the node's write set; the validator,
 the repair step, the scorer and the report nodes are exact.
 */
module Nodes {
  import opened Outcomes
  import opened Models
  import opened FlatMaps
  import opened Evidence
  import opened GraphState
  import R = Repair
  import S = Risk

  /**
   What the nodes work with: the packs installed, the validator, the scorer, the repair step with the
   warnings it gives, and the check the critic's proposals must pass.
   */
  datatype Env = Env(
    registry: map<Id, Pack>,
    validate: Context -> seq<Issue>,
    score: (seq<Finding>, TestCi, RiskRules) -> Assessment,
    repair: (Plan, seq<Instruction>) -> Plan,
    skipped: (Plan, seq<Instruction>) -> seq<string>,
    permitted: (seq<Instruction>, seq<Issue>, Plan) -> bool)

  /** The tools of the repository, for any outcome of the validator's text and field checks. */
  ghost function Standard(registry: map<Id, Pack>, checks: Checks): Env {
    Env(registry,
        (c: Context) => PlanIssues(c, checks),
        (findings: seq<Finding>, testCi: TestCi, rules: RiskRules) => S.Score(findings, testCi, rules),
        (plan: Plan, raws: seq<Instruction>) => R.Repaired(plan, raws),
        (plan: Plan, raws: seq<Instruction>) => FlatMap(raws, R.SkipWarning(plan.claims)),
        (raws: seq<Instruction>, issues: seq<Issue>, plan: Plan) =>
          raws != [] ==> R.ValidRepairs(raws, R.FailedClaims(issues, plan.claims)))
  }

  /** Pack ids are never empty. */
  ghost predicate Loaded(env: Env) {
    "" !in env.registry
  }

  predicate IsReport(n: Node) {
    n.AssembleValidated? || n.AssemblePartial? || n.AssembleTerminal?
  }

  predicate MayWrite(n: Node, k: Key) {
    match n
    case ValidateRequest => k.NodeExecutions? || k.Status? || k.RequestPack? || k.Trace? || k.Errors?
    case AcquireRepository => k.NodeExecutions? || k.Status? || k.Snapshot? || k.Errors?
    case ProfileRepository => k.NodeExecutions? || k.Status? || k.Profile? || k.Errors?
    case SelectMigrationPack => k.NodeExecutions? || k.Status? || k.Applicability? || k.PackId? || k.PackCandidates? || k.Errors? || k.Warnings?
    case ParseDependencies => k.NodeExecutions? || k.Dependencies? || k.Errors? || k.Warnings?
    case ScanCompatibility => k.NodeExecutions? || k.Findings? || k.Errors? || k.Warnings?
    case AnalyzeTestsAndCi => k.NodeExecutions? || k.TestCiSummary? || k.Errors? || k.Warnings?
    case AggregateAnalysis => k.NodeExecutions? || k.Warnings?
    case DocumentationResearch => k.NodeExecutions? || k.Docs? || k.Errors? || k.Warnings?
    case CalculateRisk => k.NodeExecutions? || k.RiskAssessment? || k.Errors?
    case CompatibilityInterpretation => k.NodeExecutions? || k.Interpretation? || k.Errors? || k.Warnings?
    case MigrationPlanning => k.NodeExecutions? || k.PlanDraft? || k.Errors? || k.Warnings?
    case EvidenceValidator => k.NodeExecutions? || k.Outcome? || k.Issues?
    case EvidenceCritic => k.NodeExecutions? || k.CriticResult? || k.Instructions? || k.Errors? || k.Warnings?
    case RepairPlan => k.NodeExecutions? || k.RepairCount? || k.PlanDraft? || k.Warnings?
    case _ => k.NodeExecutions? || k.FinalReport? || k.ReportState? || k.Status? || k.Trace?
  }

  // ---- What the validator and the scorer see ----------------------------------------------------------

  /** The migration pack of the run; without one, whatever the request names. */
  function PackUsed(v: View): Id {
    if v.PackId() != "" then v.PackId()
    else if v.requestPack.Some? then v.requestPack.value
    else "None"
  }

  function Lookup(env: Env, id: Id): Option<Pack> {
    if id in env.registry then Some(env.registry[id]) else None
  }

  function ContextOf(env: Env, v: View): Context {
    Context(
      v.Plan(), if v.profile.Some? then v.profile.value.pythonFiles else {}, v.findings, v.docs,
      v.dependencies, v.risk, Lookup(env, PackUsed(v)))
  }

  function IssuesFor(env: Env, v: View): seq<Issue> {
    env.validate(ContextOf(env, v))
  }

  function TestCiSeen(v: View): TestCi {
    if v.testCi.Some? then v.testCi.value else TestCi(None, [])
  }

  // ---- Reports ----------------------------------------------------------------------------------------

  function FromErrors(messages: seq<string>): seq<Limitation> {
    if messages == [] then []
    else
      FromErrors(messages[..|messages| - 1])
      + if messages[|messages| - 1] == "" then [] else [FromError(messages[|messages| - 1])]
  }

  function Limitations(errors: seq<string>, issues: seq<Issue>): seq<Limitation> {
    FromErrors(errors) + if issues == [] then [] else [UnresolvedIssues(|issues|)]
  }

  /** The report an assembling node makes of the state; `executions` is the log up to that node. */
  function ReportBy(n: Node, v: View, executions: seq<Execution>): Report
    requires IsReport(n)
  {
    match n
    case AssembleValidated =>
      Validated(v.profile, v.applicability, v.findings, v.dependencies, v.docs, v.testCi,
                v.risk, v.interpretation, v.planDraft, v.outcome, v.issues, v.warnings,
                executions)
    case AssemblePartial =>
      Partial(v.profile, v.applicability, v.findings, v.dependencies, v.risk,
              v.interpretation, v.planDraft, v.outcome, v.issues, v.warnings,
              Limitations(v.errors, v.issues), v.errors, executions)
    case AssembleTerminal =>
      var errors := v.errors;
      Terminal(v.profile, v.applicability, if errors != [] then errors[0] else "Unknown error", errors,
               v.warnings, executions)
  }

  function FinalStatus(n: Node): AnalysisStatus {
    match n
    case AssembleValidated => Completed
    case AssemblePartial => PartlyDone
    case _ => Terminated
  }

  function FinalReportStatus(n: Node): ReportStatus {
    match n
    case AssembleValidated => ValidatedReport
    case AssemblePartial => PartialReport
    case _ => TerminalReport
  }

  // ---- Node by node -----------------------------------------------------------------------------------

  ghost predicate OneError(u: Update) {
    Errors in u && u[Errors].TextsV? && |u[Errors].texts| == 1
  }

  /** A node that gives up: it ends the run with one error and no result. */
  ghost predicate GivesUp(u: Update) {
    Status in u && u[Status] == StatusV(Terminated) && OneError(u)
  }

  ghost predicate Requests(u: Update) {
    || (GivesUp(u) && RequestPack !in u)
    || (Status in u && u[Status] == StatusV(Running) && Errors !in u && RequestPack in u)
  }

  ghost predicate Acquires(u: Update) {
    || (GivesUp(u) && Snapshot !in u)
    || (Status !in u && Errors !in u && Snapshot in u && u[Snapshot].TextV? && u[Snapshot].text.Some?)
  }

  ghost predicate Profiles(v: View, u: Update) {
    || (GivesUp(u) && Profile !in u)
    || (v.snapshot.Some? && Status !in u && Errors !in u && Profile in u
        && u[Profile].ProfileV? && u[Profile].profile.Some?)
  }

  ghost predicate Selected(u: Update, applicability: ApplicabilityStatus, packId: string) {
    && Status !in u && PackCandidates in u
    && Applicability in u && u[Applicability] == ApplicabilityV(applicability)
    && PackId in u && u[PackId] == TextV(Some(packId))
  }

  predicate Migratable(a: ApplicabilityStatus) {
    a == Supported || a == ProbableNeedsReview
  }

  /** An assessment that does not raise comes out one of two ways only (src/upgradepilot/migration/applicability.py:376-411). */
  ghost predicate Selects(env: Env, v: View, u: Update) {
    var requested := if v.requestPack.Some? then v.requestPack.value else "";
    if v.profile == None then GivesUp(u) && Applicability !in u && PackId !in u
    else
      // the requested migration pack is not installed, or the assessment raised
      || (Selected(u, NotAssessed, requested) && OneError(u))
      // the requested pack was assessed
      || (requested in env.registry && requested != "" && Errors !in u
          && (Selected(u, Supported, requested) || Selected(u, NotApplicable, requested)))
      // no pack was requested: none applies, or the best one is taken
      || (requested == "" && Selected(u, NotApplicable, "") && OneError(u))
      || (requested == "" && Errors !in u
          && exists id :: Selected(u, Supported, id) && id in env.registry)
  }

  const NOTHING_COLLECTED: string :=
    "Aggregate: no findings, dependencies, or documentation evidence collected."

  function AggregateWarnings(v: View): seq<string> {
    if v.findings != [] || v.dependencies != [] || v.docs != [] then [] else [NOTHING_COLLECTED]
  }

  ghost predicate Scans(v: View, u: Update) {
    && Findings in u
    && (v.snapshot == None || v.PackId() == "" ==> u[Findings] == FindingsV([]))
  }

  ghost predicate Scores(env: Env, v: View, u: Update) {
    && RiskAssessment in u
    && ((u[RiskAssessment] == RiskV(None) && OneError(u))
        || (Errors !in u && v.PackId() in env.registry
            && u[RiskAssessment] == RiskV(Some(env.score(v.findings, TestCiSeen(v), env.registry[v.PackId()].risk)))))
  }

  ghost predicate Criticises(env: Env, v: View, u: Update) {
    && CriticResult in u && Instructions in u && u[Instructions].InstructionsV?
    && (u[Instructions].instructions == [] || env.permitted(u[Instructions].instructions, v.issues, v.Plan()))
  }

  ghost predicate Validates(env: Env, v: View, u: Update) {
    && Issues in u && u[Issues] == IssuesV(IssuesFor(env, v))
    && Outcome in u && u[Outcome] == OutcomeV(OutcomeOf(IssuesFor(env, v)))
  }

  ghost predicate Repairs(env: Env, v: View, u: Update) {
    && RepairCount in u && u[RepairCount] == CountV(v.repairs + 1)
    && PlanDraft in u && u[PlanDraft] == PlanV(Some(env.repair(v.Plan(), v.instructions)))
    && Warnings in u && u[Warnings] == TextsV(env.skipped(v.Plan(), v.instructions))
  }

  ghost predicate Assembles(n: Node, v: View, u: Update)
    requires IsReport(n)
  {
    && FinalReport in u && u[FinalReport] == ReportV(Some(ReportBy(n, v, v.executions)))
    && ReportState in u && u[ReportState] == ReportStatusV(FinalReportStatus(n))
    && Status in u && u[Status] == StatusV(FinalStatus(n))
  }

  ghost predicate Returns(env: Env, n: Node, v: View, u: Update) {
    match n
    case ValidateRequest => Requests(u)
    case AcquireRepository => Acquires(u)
    case ProfileRepository => Profiles(v, u)
    case SelectMigrationPack => Selects(env, v, u)
    case ParseDependencies => Dependencies in u
    case ScanCompatibility => Scans(v, u)
    case AnalyzeTestsAndCi => TestCiSummary in u && (v.profile == None ==> u[TestCiSummary] == TestCiV(None))
    case AggregateAnalysis => Warnings in u && u[Warnings] == TextsV(AggregateWarnings(v))
    case DocumentationResearch => Docs in u && (v.findings == [] ==> u[Docs] == DocsV([]))
    case CalculateRisk => Scores(env, v, u)
    case CompatibilityInterpretation => Interpretation in u
    case MigrationPlanning => PlanDraft in u
    case EvidenceValidator => Validates(env, v, u)
    case EvidenceCritic => Criticises(env, v, u)
    case RepairPlan => Repairs(env, v, u)
    case AssembleValidated => Assembles(AssembleValidated, v, u)
    case AssemblePartial => Assembles(AssemblePartial, v, u)
    case AssembleTerminal => Assembles(AssembleTerminal, v, u)
  }

  /** Every node writes only its own fields and records its execution once. */
  ghost predicate Produces(env: Env, n: Node, v: View, u: Update) {
    && (forall k :: k in u ==> MayWrite(n, k)) && WellTypedUpdate(u)
    && NodeExecutions in u && (exists ok :: u[NodeExecutions] == ExecutionsV([Execution(n, ok)]))
    && Returns(env, n, v, u)
  }

  /** The fan-in warns exactly when the branches have brought nothing. */
  lemma AggregateWarns(env: Env, v: View, u: Update)
    requires Produces(env, AggregateAnalysis, v, u)
    ensures Warnings in u && u[Warnings].TextsV? && |u[Warnings].texts| <= 1
    ensures u[Warnings].texts == [] <==> |v.findings| + |v.dependencies| + |v.docs| > 0
  {
  }

  // ---- Every node can return --------------------------------------------------------------------------

  lemma FrontCanProduce(env: Env, n: Node, v: View) returns (u: Update)
    requires n in {ValidateRequest, AcquireRepository, ProfileRepository}
    ensures Produces(env, n, v, u)
  {
    u := map[NodeExecutions := ExecutionsV([Execution(n, false)]), Status := StatusV(Terminated), Errors := TextsV(["failed"])];
  }

  lemma SelectCanProduce(env: Env, v: View) returns (u: Update)
    ensures Produces(env, SelectMigrationPack, v, u)
  {
    var log := ExecutionsV([Execution(SelectMigrationPack, false)]);
    if v.profile == None {
      u := map[NodeExecutions := log, Status := StatusV(Terminated), Errors := TextsV(["failed"])];
    } else {
      var requested := if v.requestPack.Some? then v.requestPack.value else "";
      u := map[NodeExecutions := log, Errors := TextsV(["failed"]), Applicability := ApplicabilityV(NotAssessed),
               PackId := TextV(Some(requested)), PackCandidates := TextV(None)];
      assert Selected(u, NotAssessed, requested);
    }
  }

  lemma BranchCanProduce(env: Env, n: Node, v: View) returns (u: Update)
    requires n in {ParseDependencies, ScanCompatibility, AnalyzeTestsAndCi}
    ensures Produces(env, n, v, u)
  {
    var log := ExecutionsV([Execution(n, true)]);
    match n
    case ParseDependencies => u := map[NodeExecutions := log, Dependencies := TextsV([])];
    case ScanCompatibility => u := map[NodeExecutions := log, Findings := FindingsV([])];
    case AnalyzeTestsAndCi => u := map[NodeExecutions := log, TestCiSummary := TestCiV(None)];
  }

  lemma AggregateCanProduce(env: Env, v: View, warnings: seq<string>) returns (u: Update)
    requires warnings == AggregateWarnings(v)
    ensures Produces(env, AggregateAnalysis, v, u)
  {
    u := map[NodeExecutions := ExecutionsV([Execution(AggregateAnalysis, true)]), Warnings := TextsV(warnings)];
  }

  lemma ResearchCanProduce(env: Env, v: View) returns (u: Update)
    ensures Produces(env, DocumentationResearch, v, u)
  {
    u := map[NodeExecutions := ExecutionsV([Execution(DocumentationResearch, true)]), Docs := DocsV([])];
  }

  lemma AgentCanProduce(env: Env, n: Node, v: View) returns (u: Update)
    requires n in {CalculateRisk, CompatibilityInterpretation, MigrationPlanning, EvidenceCritic}
    ensures Produces(env, n, v, u)
  {
    var log := ExecutionsV([Execution(n, false)]);
    match n
    case CalculateRisk => u := map[NodeExecutions := log, RiskAssessment := RiskV(None), Errors := TextsV(["failed"])];
    case CompatibilityInterpretation => u := map[NodeExecutions := log, Interpretation := TextV(None)];
    case MigrationPlanning => u := map[NodeExecutions := log, PlanDraft := PlanV(None)];
    case EvidenceCritic => u := map[NodeExecutions := log, CriticResult := TextV(None), Instructions := InstructionsV([])];
  }

  lemma ValidatorCanProduce(env: Env, v: View, issues: seq<Issue>) returns (u: Update)
    requires issues == IssuesFor(env, v)
    ensures Produces(env, EvidenceValidator, v, u)
  {
    u := map[NodeExecutions := ExecutionsV([Execution(EvidenceValidator, true)]),
             Issues := IssuesV(issues), Outcome := OutcomeV(OutcomeOf(issues))];
  }

  lemma RepairCanProduce(env: Env, v: View, plan: Plan, warnings: seq<string>) returns (u: Update)
    requires plan == env.repair(v.Plan(), v.instructions)
    requires warnings == env.skipped(v.Plan(), v.instructions)
    ensures Produces(env, RepairPlan, v, u)
  {
    u := map[NodeExecutions := ExecutionsV([Execution(RepairPlan, true)]), RepairCount := CountV(v.repairs + 1),
             PlanDraft := PlanV(Some(plan)), Warnings := TextsV(warnings)];
  }

  lemma AssembleCanProduce(env: Env, n: Node, v: View, report: Report) returns (u: Update)
    requires IsReport(n)
    requires report == ReportBy(n, v, v.executions)
    ensures Produces(env, n, v, u)
  {
    u := map[NodeExecutions := ExecutionsV([Execution(n, true)]), FinalReport := ReportV(Some(report)),
             ReportState := ReportStatusV(FinalReportStatus(n)), Status := StatusV(FinalStatus(n))];
  }

  /** Whatever the state, every node has something it may return. */
  lemma CanProduce(env: Env, n: Node, v: View) returns (u: Update)
    ensures Produces(env, n, v, u)
  {
    if n in {ValidateRequest, AcquireRepository, ProfileRepository} {
      u := FrontCanProduce(env, n, v);
    } else if n == SelectMigrationPack {
      u := SelectCanProduce(env, v);
    } else if n in {ParseDependencies, ScanCompatibility, AnalyzeTestsAndCi} {
      u := BranchCanProduce(env, n, v);
    } else if n == AggregateAnalysis {
      u := AggregateCanProduce(env, v, AggregateWarnings(v));
    } else if n == DocumentationResearch {
      u := ResearchCanProduce(env, v);
    } else if n in {CalculateRisk, CompatibilityInterpretation, MigrationPlanning, EvidenceCritic} {
      u := AgentCanProduce(env, n, v);
    } else if n == EvidenceValidator {
      u := ValidatorCanProduce(env, v, IssuesFor(env, v));
    } else if n == RepairPlan {
      u := RepairCanProduce(env, v, env.repair(v.Plan(), v.instructions),
                            env.skipped(v.Plan(), v.instructions));
    } else {
      u := AssembleCanProduce(env, n, v, ReportBy(n, v, v.executions));
    }
  }
}
