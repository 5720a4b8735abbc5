/**
 Every node keeps the run invariant: what its update makes of the state as read, and why that fits the
 stage its edge leads to.
 */
module GraphSteps {
  import opened Outcomes
  import opened Evidence
  import opened GraphState
  import opened Nodes
  import opened GraphRuns

  // ---- What one node changes --------------------------------------------------------------------------

  ghost predicate Stopped(w: View) {
    w.status == Terminated && w.errors != []
  }

  /** The node adds one entry to the log. */
  ghost predicate Logs(n: Node, v: View, w: View) {
    exists ok :: w.executions == v.executions + [Execution(n, ok)]
  }

  ghost predicate FrontEffect(n: Node, v: View, w: View) {
    && (n.ValidateRequest? || n.AcquireRepository? || n.ProfileRepository?)
    && w == v.(status := w.status, requestPack := w.requestPack, executions := w.executions, errors := w.errors,
               snapshot := w.snapshot, profile := w.profile)
    && (Stopped(w) || w.status == if n.ValidateRequest? then Running else v.status)
  }

  ghost predicate SelectEffect(env: Env, v: View, w: View) {
    && w == v.(status := w.status, applicability := w.applicability, pack := w.pack, executions := w.executions,
               errors := w.errors, warnings := w.warnings)
    && (Stopped(w)
        || (w.status == v.status
            && if Migratable(w.applicability) then w.PackId() in env.registry else StopsForCause(env, w)))
  }

  ghost predicate AnalysisEffect(n: Node, v: View, w: View) {
    && (n.AggregateAnalysis? || n.DocumentationResearch?)
    && w == v.(docs := w.docs, executions := w.executions, errors := w.errors, warnings := w.warnings)
  }

  ghost predicate RiskEffect(env: Env, v: View, w: View) {
    && w == v.(risk := w.risk, executions := w.executions, errors := w.errors)
    && (w.risk.Some? ==>
          && v.PackId() in env.registry
          && w.risk.value == env.score(v.findings, TestCiSeen(v), env.registry[v.PackId()].risk))
  }

  ghost predicate AgentEffect(n: Node, v: View, w: View) {
    && (n.CompatibilityInterpretation? || n.MigrationPlanning?)
    && w == v.(interpretation := w.interpretation, planDraft := w.planDraft, executions := w.executions,
               errors := w.errors, warnings := w.warnings)
  }

  ghost predicate ValidatorEffect(env: Env, v: View, w: View) {
    w == v.(issues := IssuesFor(env, v), outcome := OutcomeOf(IssuesFor(env, v)), executions := w.executions)
  }

  ghost predicate CriticEffect(env: Env, v: View, w: View) {
    && w == v.(instructions := w.instructions, executions := w.executions, errors := w.errors, warnings := w.warnings)
    && Allowed(env, w.instructions, v.issues, v.Plan())
  }

  ghost predicate RepairEffect(env: Env, v: View, w: View) {
    w == v.(repairs := v.repairs + 1, planDraft := Some(env.repair(v.Plan(), v.instructions)),
            executions := w.executions, warnings := w.warnings)
  }

  ghost predicate ReportEffect(n: Node, v: View, w: View) {
    && IsReport(n)
    && w == v.(report := Some(ReportBy(n, v, v.executions)), reportStatus := FinalReportStatus(n),
               status := FinalStatus(n), executions := w.executions)
  }

  /** Only fields the node may write differ. */
  ghost predicate OnlyWrites(n: Node, v: View, w: View) {
    && (MayWrite(n, Status) || w.status == v.status)
    && (MayWrite(n, RequestPack) || w.requestPack == v.requestPack)
    && (MayWrite(n, NodeExecutions) || w.executions == v.executions)
    && (MayWrite(n, Errors) || w.errors == v.errors)
    && (MayWrite(n, Warnings) || w.warnings == v.warnings)
    && (MayWrite(n, Snapshot) || w.snapshot == v.snapshot)
    && (MayWrite(n, Profile) || w.profile == v.profile)
    && (MayWrite(n, Applicability) || w.applicability == v.applicability)
    && (MayWrite(n, PackId) || w.pack == v.pack)
    && (MayWrite(n, Dependencies) || w.dependencies == v.dependencies)
    && (MayWrite(n, Findings) || w.findings == v.findings)
    && (MayWrite(n, TestCiSummary) || w.testCi == v.testCi)
    && (MayWrite(n, Docs) || w.docs == v.docs)
    && (MayWrite(n, RiskAssessment) || w.risk == v.risk)
    && (MayWrite(n, Interpretation) || w.interpretation == v.interpretation)
    && (MayWrite(n, PlanDraft) || w.planDraft == v.planDraft)
    && (MayWrite(n, Outcome) || w.outcome == v.outcome)
    && (MayWrite(n, Issues) || w.issues == v.issues)
    && (MayWrite(n, RepairCount) || w.repairs == v.repairs)
    && (MayWrite(n, Instructions) || w.instructions == v.instructions)
    && (MayWrite(n, FinalReport) || w.report == v.report)
    && (MayWrite(n, ReportState) || w.reportStatus == v.reportStatus)
  }

  lemma RevisesOnly(n: Node, v: View, u: Update)
    requires forall k :: k in u ==> MayWrite(n, k)
    ensures OnlyWrites(n, v, Revise(v, u))
  {
  }

  lemma FrontFrame(n: Node, v: View, w: View)
    requires (n.ValidateRequest? || n.AcquireRepository? || n.ProfileRepository?) && OnlyWrites(n, v, w)
    ensures w == v.(status := w.status, requestPack := w.requestPack, executions := w.executions,
                   errors := w.errors, snapshot := w.snapshot, profile := w.profile)
  {
  }

  lemma FrontValues(env: Env, n: Node, v: View, u: Update, w: View)
    requires n.ValidateRequest? || n.AcquireRepository? || n.ProfileRepository?
    requires Returns(env, n, v, u)
    requires w.status == StatusAt(u, Status, v.status)
    requires w.errors == v.errors + TextsAt(u, Errors)
    ensures Stopped(w) || w.status == if n.ValidateRequest? then Running else v.status
  {
  }

  lemma FrontDoes(env: Env, n: Node, v: View, u: Update, w: View)
    requires n.ValidateRequest? || n.AcquireRepository? || n.ProfileRepository?
    requires Produces(env, n, v, u) && w == Revise(v, u)
    ensures FrontEffect(n, v, w)
  {
    RevisesOnly(n, v, u);
    FrontFrame(n, v, w);
    FrontValues(env, n, v, u, w);
  }

  lemma SelectFrame(v: View, w: View)
    requires OnlyWrites(SelectMigrationPack, v, w)
    ensures w == v.(status := w.status, applicability := w.applicability, pack := w.pack,
                   executions := w.executions, errors := w.errors, warnings := w.warnings)
  {
  }

  lemma SelectValues(env: Env, v: View, u: Update, w: View)
    requires Returns(env, SelectMigrationPack, v, u)
    requires w.status == StatusAt(u, Status, v.status)
    requires w.errors == v.errors + TextsAt(u, Errors)
    requires w.applicability == ApplicabilityAt(u, Applicability, v.applicability)
    requires w.pack == TextAt(u, PackId, v.pack)
    requires w.requestPack == v.requestPack
    ensures Stopped(w)
            || (w.status == v.status
                && if Migratable(w.applicability) then w.PackId() in env.registry else StopsForCause(env, w))
  {
  }

  lemma SelectDoes(env: Env, v: View, u: Update, w: View)
    requires Produces(env, SelectMigrationPack, v, u) && w == Revise(v, u)
    ensures SelectEffect(env, v, w)
  {
    RevisesOnly(SelectMigrationPack, v, u);
    SelectFrame(v, w);
    SelectValues(env, v, u, w);
  }

  lemma AnalysisFrame(n: Node, v: View, w: View)
    requires (n.AggregateAnalysis? || n.DocumentationResearch?) && OnlyWrites(n, v, w)
    ensures w == v.(docs := w.docs, executions := w.executions, errors := w.errors,
                   warnings := w.warnings)
  {
  }

  lemma AnalysisDoes(env: Env, n: Node, v: View, u: Update, w: View)
    requires n.AggregateAnalysis? || n.DocumentationResearch?
    requires Produces(env, n, v, u) && w == Revise(v, u)
    ensures AnalysisEffect(n, v, w)
  {
    RevisesOnly(n, v, u);
    AnalysisFrame(n, v, w);
  }

  lemma RiskFrame(v: View, w: View)
    requires OnlyWrites(CalculateRisk, v, w)
    ensures w == v.(risk := w.risk, executions := w.executions, errors := w.errors)
  {
  }

  lemma RiskValues(env: Env, v: View, u: Update, w: View)
    requires Returns(env, CalculateRisk, v, u)
    requires w.risk == RiskAt(u, RiskAssessment, v.risk)
    ensures w.risk.Some? ==>
              && v.PackId() in env.registry
              && w.risk.value == env.score(v.findings, TestCiSeen(v), env.registry[v.PackId()].risk)
  {
  }

  lemma RiskDoes(env: Env, v: View, u: Update, w: View)
    requires Produces(env, CalculateRisk, v, u) && w == Revise(v, u)
    ensures RiskEffect(env, v, w)
  {
    RevisesOnly(CalculateRisk, v, u);
    RiskFrame(v, w);
    RiskValues(env, v, u, w);
  }

  lemma AgentFrame(n: Node, v: View, w: View)
    requires (n.CompatibilityInterpretation? || n.MigrationPlanning?) && OnlyWrites(n, v, w)
    ensures w == v.(interpretation := w.interpretation, planDraft := w.planDraft,
                   executions := w.executions, errors := w.errors, warnings := w.warnings)
  {
  }

  lemma AgentDoes(env: Env, n: Node, v: View, u: Update, w: View)
    requires n.CompatibilityInterpretation? || n.MigrationPlanning?
    requires Produces(env, n, v, u) && w == Revise(v, u)
    ensures AgentEffect(n, v, w)
  {
    RevisesOnly(n, v, u);
    AgentFrame(n, v, w);
  }

  lemma ValidatorFrame(v: View, w: View)
    requires OnlyWrites(EvidenceValidator, v, w)
    ensures w == v.(issues := w.issues, outcome := w.outcome, executions := w.executions)
  {
  }

  lemma ValidatorValues(env: Env, v: View, u: Update, w: View)
    requires Returns(env, EvidenceValidator, v, u)
    requires w.issues == IssuesAt(u, Issues, v.issues)
    requires w.outcome == OutcomeAt(u, Outcome, v.outcome)
    ensures w.issues == IssuesFor(env, v) && w.outcome == OutcomeOf(IssuesFor(env, v))
  {
  }

  lemma ValidatorDoes(env: Env, v: View, u: Update, w: View)
    requires Produces(env, EvidenceValidator, v, u) && w == Revise(v, u)
    ensures ValidatorEffect(env, v, w)
  {
    RevisesOnly(EvidenceValidator, v, u);
    ValidatorFrame(v, w);
    ValidatorValues(env, v, u, w);
  }

  lemma CriticFrame(v: View, w: View)
    requires OnlyWrites(EvidenceCritic, v, w)
    ensures w == v.(instructions := w.instructions, executions := w.executions, errors := w.errors,
                   warnings := w.warnings)
  {
  }

  lemma CriticValues(env: Env, v: View, u: Update, w: View)
    requires Returns(env, EvidenceCritic, v, u)
    requires w.instructions == InstructionsAt(u, Instructions, v.instructions)
    ensures Allowed(env, w.instructions, v.issues, v.Plan())
  {
  }

  lemma CriticDoes(env: Env, v: View, u: Update, w: View)
    requires Produces(env, EvidenceCritic, v, u) && w == Revise(v, u)
    ensures CriticEffect(env, v, w)
  {
    RevisesOnly(EvidenceCritic, v, u);
    CriticFrame(v, w);
    CriticValues(env, v, u, w);
  }

  lemma RepairFrame(v: View, w: View)
    requires OnlyWrites(RepairPlan, v, w)
    ensures w == v.(repairs := w.repairs, planDraft := w.planDraft, executions := w.executions,
                   warnings := w.warnings)
  {
  }

  lemma RepairValues(env: Env, v: View, u: Update, w: View)
    requires Returns(env, RepairPlan, v, u)
    requires w.repairs == CountAt(u, RepairCount, v.repairs)
    requires w.planDraft == PlanAt(u, PlanDraft, v.planDraft)
    ensures w.repairs == v.repairs + 1 && w.planDraft == Some(env.repair(v.Plan(), v.instructions))
  {
  }

  lemma RepairDoes(env: Env, v: View, u: Update, w: View)
    requires Produces(env, RepairPlan, v, u) && w == Revise(v, u)
    ensures RepairEffect(env, v, w)
  {
    RevisesOnly(RepairPlan, v, u);
    RepairFrame(v, w);
    RepairValues(env, v, u, w);
  }

  lemma ReportMayWrite(n: Node, k: Key)
    requires IsReport(n)
    ensures MayWrite(n, k) <==> k in {NodeExecutions, FinalReport, ReportState, Status, Trace}
  {
  }

  lemma ReportLeavesInput(n: Node, v: View, w: View)
    requires IsReport(n) && OnlyWrites(n, v, w)
    ensures w.requestPack == v.requestPack && w.errors == v.errors && w.warnings == v.warnings && w.snapshot == v.snapshot
    ensures w.profile == v.profile && w.applicability == v.applicability && w.pack == v.pack
    ensures w.dependencies == v.dependencies && w.findings == v.findings && w.testCi == v.testCi
  {
    forall k
      ensures MayWrite(n, k) <==> k in {NodeExecutions, FinalReport, ReportState, Status, Trace}
    {
      ReportMayWrite(n, k);
    }
  }

  lemma ReportLeavesResults(n: Node, v: View, w: View)
    requires IsReport(n) && OnlyWrites(n, v, w)
    ensures w.docs == v.docs && w.risk == v.risk && w.interpretation == v.interpretation && w.planDraft == v.planDraft
    ensures w.outcome == v.outcome && w.issues == v.issues && w.repairs == v.repairs && w.instructions == v.instructions
  {
    forall k
      ensures MayWrite(n, k) <==> k in {NodeExecutions, FinalReport, ReportState, Status, Trace}
    {
      ReportMayWrite(n, k);
    }
  }

  lemma ReportFrame(n: Node, v: View, w: View)
    requires IsReport(n) && OnlyWrites(n, v, w)
    ensures w == v.(report := w.report, reportStatus := w.reportStatus, status := w.status,
                   executions := w.executions)
  {
    ReportLeavesInput(n, v, w);
    ReportLeavesResults(n, v, w);
  }

  lemma ReportValues(env: Env, n: Node, v: View, u: Update, w: View)
    requires IsReport(n)
    requires Returns(env, n, v, u)
    requires w.report == ReportAt(u, FinalReport, v.report)
    requires w.reportStatus == ReportStatusAt(u, ReportState, v.reportStatus)
    requires w.status == StatusAt(u, Status, v.status)
    ensures w.report == Some(ReportBy(n, v, v.executions)) && w.reportStatus == FinalReportStatus(n)
            && w.status == FinalStatus(n)
  {
  }

  lemma ReportDoes(env: Env, n: Node, v: View, u: Update, w: View)
    requires IsReport(n)
    requires Produces(env, n, v, u) && w == Revise(v, u)
    ensures ReportEffect(n, v, w)
  {
    RevisesOnly(n, v, u);
    ReportFrame(n, v, w);
    ReportValues(env, n, v, u, w);
  }

  lemma NodeLogs(env: Env, n: Node, v: View, u: Update)
    requires Produces(env, n, v, u)
    ensures Logs(n, v, Revise(v, u))
  {
    var ok :| u[NodeExecutions] == ExecutionsV([Execution(n, ok)]);
    assert Revise(v, u).executions == v.executions + [Execution(n, ok)];
  }

  // ---- Why the invariant carries over -----------------------------------------------------------------

  lemma FrontKeeps(env: Env, n: Node, v: View, w: View)
    requires Holds(env, v, At(n)) && Logs(n, v, w) && FrontEffect(n, v, w)
    ensures Holds(env, w, NextStage(n, w)) && w.repairs == v.repairs
  {
  }

  lemma SelectKeeps(env: Env, v: View, w: View)
    requires Holds(env, v, At(SelectMigrationPack)) && Logs(SelectMigrationPack, v, w) && SelectEffect(env, v, w)
    ensures Holds(env, w, NextStage(SelectMigrationPack, w)) && w.repairs == v.repairs
  {
  }

  lemma AnalysisKeeps(env: Env, n: Node, v: View, w: View)
    requires Holds(env, v, At(n)) && Logs(n, v, w) && AnalysisEffect(n, v, w)
    ensures Holds(env, w, NextStage(n, w)) && w.repairs == v.repairs
  {
  }

  lemma RiskKeeps(env: Env, v: View, w: View)
    requires Holds(env, v, At(CalculateRisk)) && Logs(CalculateRisk, v, w) && RiskEffect(env, v, w)
    ensures Holds(env, w, NextStage(CalculateRisk, w)) && w.repairs == v.repairs
  {
  }

  lemma AgentKeeps(env: Env, n: Node, v: View, w: View)
    requires Holds(env, v, At(n)) && Logs(n, v, w) && AgentEffect(n, v, w)
    ensures Holds(env, w, NextStage(n, w)) && w.repairs == v.repairs
  {
  }

  lemma ValidatorKeeps(env: Env, v: View, w: View)
    requires Holds(env, v, At(EvidenceValidator)) && Logs(EvidenceValidator, v, w) && ValidatorEffect(env, v, w)
    ensures Holds(env, w, NextStage(EvidenceValidator, w)) && w.repairs == v.repairs
  {
    assert ContextOf(env, w) == ContextOf(env, v);
  }

  lemma CriticKeeps(env: Env, v: View, w: View)
    requires Holds(env, v, At(EvidenceCritic)) && Logs(EvidenceCritic, v, w) && CriticEffect(env, v, w)
    ensures Holds(env, w, NextStage(EvidenceCritic, w)) && w.repairs == v.repairs
  {
    assert ContextOf(env, w) == ContextOf(env, v);
  }

  lemma RepairKeeps(env: Env, v: View, w: View)
    requires Holds(env, v, At(RepairPlan)) && Logs(RepairPlan, v, w) && RepairEffect(env, v, w)
    ensures Holds(env, w, NextStage(RepairPlan, w)) && w.repairs == v.repairs + 1
  {
    assert ContextOf(env, w).(plan := v.Plan()) == ContextOf(env, v);
    assert RepairedFrom(env, w, v.Plan());
  }

  lemma ReportKeeps(env: Env, n: Node, v: View, w: View)
    requires Holds(env, v, At(n)) && Logs(n, v, w) && ReportEffect(n, v, w)
    ensures Holds(env, w, NextStage(n, w)) && w.repairs == v.repairs
  {
    assert ContextOf(env, w) == ContextOf(env, v);
    assert w.executions[..|w.executions| - 1] == v.executions;
  }
}
