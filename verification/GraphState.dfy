/**
 The state of an analysis run (src/upgradepilot/graph/state.py): named fields, each of one shape, merged
 from the partial updates that nodes return. Fields that no node writes are not represented.
 */
module GraphState {
  import opened Outcomes
  import opened Models
  import opened Evidence

  datatype Node =
    | ValidateRequest | AcquireRepository | ProfileRepository | SelectMigrationPack
    | ParseDependencies | ScanCompatibility | AnalyzeTestsAndCi
    | AggregateAnalysis | DocumentationResearch | CalculateRisk
    | CompatibilityInterpretation | MigrationPlanning
    | EvidenceValidator | EvidenceCritic | RepairPlan
    | AssembleValidated | AssemblePartial | AssembleTerminal

  datatype AnalysisStatus = Pending | Running | Completed | PartlyDone | Terminated | Failed

  datatype ApplicabilityStatus = Supported | ProbableNeedsReview | NotApplicable | Unsupported | NotAssessed

  datatype ReportStatus = NoReport | ValidatedReport | PartialReport | TerminalReport

  datatype Execution = Execution(node: Node, ok: bool)

  datatype RepositoryProfile = RepositoryProfile(pythonFiles: set<string>, rest: string)

  datatype Limitation = FromError(message: string) | UnresolvedIssues(count: nat)

  /** What a report says besides the identification of the run. */
  datatype Report =
    | Validated(profile: Option<RepositoryProfile>, applicability: ApplicabilityStatus, findings: seq<Finding>,
                dependencies: seq<string>, docs: seq<Doc>, testCi: Option<TestCi>, risk: Option<Assessment>,
                interpretation: Option<string>, plan: Option<Plan>, outcome: ValidationOutcome,
                issues: seq<Issue>, warnings: seq<string>, executions: seq<Execution>)
    | Partial(profile: Option<RepositoryProfile>, applicability: ApplicabilityStatus, findings: seq<Finding>,
              dependencies: seq<string>, risk: Option<Assessment>, interpretation: Option<string>,
              plan: Option<Plan>, outcome: ValidationOutcome, issues: seq<Issue>, warnings: seq<string>,
              limitations: seq<Limitation>, errors: seq<string>, executions: seq<Execution>)
    | Terminal(profile: Option<RepositoryProfile>, applicability: ApplicabilityStatus, reason: string,
               errors: seq<string>, warnings: seq<string>, executions: seq<Execution>)

  datatype Key =
    | Status | RequestPack | Trace | NodeExecutions | Errors | Warnings | Snapshot | Profile | Applicability
    | PackId | PackCandidates | Dependencies | Findings | TestCiSummary | Docs | RiskAssessment | Interpretation
    | PlanDraft | Outcome | Issues | RepairCount | CriticResult | Instructions | FinalReport | ReportState

  // Errors are represented by their messages.
  datatype Value =
    | StatusV(status: AnalysisStatus)
    | ExecutionsV(executions: seq<Execution>)
    | TextsV(texts: seq<string>)
    | FindingsV(findings: seq<Finding>)
    | DocsV(docs: seq<Doc>)
    | InstructionsV(instructions: seq<Instruction>)
    | IssuesV(issues: seq<Issue>)
    | TextV(text: Option<string>)
    | ApplicabilityV(applicability: ApplicabilityStatus)
    | ProfileV(profile: Option<RepositoryProfile>)
    | TestCiV(testCi: Option<TestCi>)
    | RiskV(risk: Option<Assessment>)
    | PlanV(plan: Option<Plan>)
    | OutcomeV(outcome: ValidationOutcome)
    | CountV(count: nat)
    | ReportV(report: Option<Report>)
    | ReportStatusV(reportStatus: ReportStatus)

  type State = map<Key, Value>

  type Update = map<Key, Value>

  predicate Fits(k: Key, v: Value) {
    match k
    case Status => v.StatusV?
    case NodeExecutions => v.ExecutionsV?
    case Errors => v.TextsV?
    case Warnings => v.TextsV?
    case Dependencies => v.TextsV?
    case Findings => v.FindingsV?
    case Docs => v.DocsV?
    case Instructions => v.InstructionsV?
    case Issues => v.IssuesV?
    case Applicability => v.ApplicabilityV?
    case Profile => v.ProfileV?
    case TestCiSummary => v.TestCiV?
    case RiskAssessment => v.RiskV?
    case PlanDraft => v.PlanV?
    case Outcome => v.OutcomeV?
    case RepairCount => v.CountV?
    case FinalReport => v.ReportV?
    case ReportState => v.ReportStatusV?
    case _ => v.TextV?
  }

  ghost predicate WellTyped(s: State) {
    forall k: Key :: k in s && Fits(k, s[k])
  }

  ghost predicate WellTypedUpdate(u: Update) {
    forall k :: k in u ==> Fits(k, u[k])
  }

  // ---- Reading the state ------------------------------------------------------------------------------

  /** The typed reading of a state: what routers, validator, scorer and reports look at. */
  datatype View = View(
    status: AnalysisStatus, requestPack: Option<string>, executions: seq<Execution>, errors: seq<string>,
    warnings: seq<string>, snapshot: Option<string>, profile: Option<RepositoryProfile>,
    applicability: ApplicabilityStatus, pack: Option<string>, dependencies: seq<string>, findings: seq<Finding>,
    testCi: Option<TestCi>, docs: seq<Doc>, risk: Option<Assessment>, interpretation: Option<string>,
    planDraft: Option<Plan>, outcome: ValidationOutcome, issues: seq<Issue>, repairs: nat,
    instructions: seq<Instruction>, report: Option<Report>, reportStatus: ReportStatus)
  {
    /** The plan agents and validator work on: a missing plan reads as the empty one. */
    function Plan(): Plan {
      if planDraft.Some? then planDraft.value else EMPTY_PLAN
    }

    function PackId(): string {
      if pack.Some? then pack.value else ""
    }
  }

  function StatusAt(m: map<Key, Value>, k: Key, otherwise: AnalysisStatus): AnalysisStatus {
    if k in m && m[k].StatusV? then m[k].status else otherwise
  }

  function TextAt(m: map<Key, Value>, k: Key, otherwise: Option<string>): Option<string> {
    if k in m && m[k].TextV? then m[k].text else otherwise
  }

  function ExecutionsAt(m: map<Key, Value>, k: Key): seq<Execution> {
    if k in m && m[k].ExecutionsV? then m[k].executions else []
  }

  function TextsAt(m: map<Key, Value>, k: Key): seq<string> {
    if k in m && m[k].TextsV? then m[k].texts else []
  }

  function ProfileAt(m: map<Key, Value>, k: Key, otherwise: Option<RepositoryProfile>): Option<RepositoryProfile> {
    if k in m && m[k].ProfileV? then m[k].profile else otherwise
  }

  function ApplicabilityAt(m: map<Key, Value>, k: Key, otherwise: ApplicabilityStatus): ApplicabilityStatus {
    if k in m && m[k].ApplicabilityV? then m[k].applicability else otherwise
  }

  function FindingsAt(m: map<Key, Value>, k: Key): seq<Finding> {
    if k in m && m[k].FindingsV? then m[k].findings else []
  }

  function TestCiAt(m: map<Key, Value>, k: Key, otherwise: Option<TestCi>): Option<TestCi> {
    if k in m && m[k].TestCiV? then m[k].testCi else otherwise
  }

  function DocsAt(m: map<Key, Value>, k: Key): seq<Doc> {
    if k in m && m[k].DocsV? then m[k].docs else []
  }

  function RiskAt(m: map<Key, Value>, k: Key, otherwise: Option<Assessment>): Option<Assessment> {
    if k in m && m[k].RiskV? then m[k].risk else otherwise
  }

  function PlanAt(m: map<Key, Value>, k: Key, otherwise: Option<Plan>): Option<Plan> {
    if k in m && m[k].PlanV? then m[k].plan else otherwise
  }

  function OutcomeAt(m: map<Key, Value>, k: Key, otherwise: ValidationOutcome): ValidationOutcome {
    if k in m && m[k].OutcomeV? then m[k].outcome else otherwise
  }

  function IssuesAt(m: map<Key, Value>, k: Key, otherwise: seq<Issue>): seq<Issue> {
    if k in m && m[k].IssuesV? then m[k].issues else otherwise
  }

  function CountAt(m: map<Key, Value>, k: Key, otherwise: nat): nat {
    if k in m && m[k].CountV? then m[k].count else otherwise
  }

  function InstructionsAt(m: map<Key, Value>, k: Key, otherwise: seq<Instruction>): seq<Instruction> {
    if k in m && m[k].InstructionsV? then m[k].instructions else otherwise
  }

  function ReportAt(m: map<Key, Value>, k: Key, otherwise: Option<Report>): Option<Report> {
    if k in m && m[k].ReportV? then m[k].report else otherwise
  }

  function ReportStatusAt(m: map<Key, Value>, k: Key, otherwise: ReportStatus): ReportStatus {
    if k in m && m[k].ReportStatusV? then m[k].reportStatus else otherwise
  }

  function Read(s: State): View {
    View(StatusAt(s, Status, Pending), TextAt(s, RequestPack, None), ExecutionsAt(s, NodeExecutions),
         TextsAt(s, Errors), TextsAt(s, Warnings), TextAt(s, Snapshot, None), ProfileAt(s, Profile, None),
         ApplicabilityAt(s, Applicability, Supported), TextAt(s, PackId, None), TextsAt(s, Dependencies),
         FindingsAt(s, Findings), TestCiAt(s, TestCiSummary, None), DocsAt(s, Docs),
         RiskAt(s, RiskAssessment, None), TextAt(s, Interpretation, None), PlanAt(s, PlanDraft, None),
         OutcomeAt(s, Outcome, NotRun), IssuesAt(s, Issues, []), CountAt(s, RepairCount, 0),
         InstructionsAt(s, Instructions, []), ReportAt(s, FinalReport, None),
         ReportStatusAt(s, ReportState, NoReport))
  }

  // ---- The initial state ------------------------------------------------------------------------------

  function Zero(k: Key, requestPack: Option<string>): (v: Value)
    ensures Fits(k, v)
  {
    match k
    case Status => StatusV(Pending)
    case RequestPack => TextV(requestPack)
    case NodeExecutions => ExecutionsV([])
    case Errors => TextsV([])
    case Warnings => TextsV([])
    case Dependencies => TextsV([])
    case Findings => FindingsV([])
    case Docs => DocsV([])
    case Instructions => InstructionsV([])
    case Issues => IssuesV([])
    case Applicability => ApplicabilityV(Supported)
    case Profile => ProfileV(None)
    case TestCiSummary => TestCiV(None)
    case RiskAssessment => RiskV(None)
    case PlanDraft => PlanV(None)
    case Outcome => OutcomeV(NotRun)
    case RepairCount => CountV(0)
    case FinalReport => ReportV(None)
    case ReportState => ReportStatusV(NoReport)
    case _ => TextV(None)
  }

  function InitialState(requestPack: Option<string>): (s: State)
    ensures WellTyped(s)
  {
    map k: Key | true :: Zero(k, requestPack)
  }

  // ---- Merging an update ------------------------------------------------------------------------------

  // The fields whose reducer appends; every other field keeps the last value written.
  const GRAPH_APPENDS: set<Key> := {NodeExecutions, Errors, Warnings, Dependencies, Findings, Docs}

  function Join(current: Value, added: Value): Value {
    match (current, added)
    case (ExecutionsV(a), ExecutionsV(b)) => ExecutionsV(a + b)
    case (TextsV(a), TextsV(b)) => TextsV(a + b)
    case (FindingsV(a), FindingsV(b)) => FindingsV(a + b)
    case (DocsV(a), DocsV(b)) => DocsV(a + b)
    case (InstructionsV(a), InstructionsV(b)) => InstructionsV(a + b)
    case (IssuesV(a), IssuesV(b)) => IssuesV(a + b)
    case (_, b) => b
  }

  function MergedValue(appends: set<Key>, s: State, u: Update, k: Key): Value
    requires k in s || k in u
  {
    if k !in u then s[k]
    else if k in appends && k in s then Join(s[k], u[k])
    else u[k]
  }

  function Merge(appends: set<Key>, s: State, u: Update): State {
    map k | k in s.Keys + u.Keys :: MergedValue(appends, s, u, k)
  }

  /** What a node's update makes of the graph state. */
  function Apply(s: State, u: Update): State {
    Merge(GRAPH_APPENDS, s, u)
  }

  lemma MergeKeepsTypes(appends: set<Key>, s: State, u: Update)
    requires WellTyped(s) && WellTypedUpdate(u)
    ensures WellTyped(Merge(appends, s, u))
  {
    var after := Merge(appends, s, u);
    forall k: Key
      ensures k in after && Fits(k, after[k])
    {
      assert Fits(k, s[k]);
    }
  }

  /** The same on the reading: fields the update does not mention stay, appending fields grow. */
  function Revise(v: View, u: Update): View {
    View(StatusAt(u, Status, v.status), TextAt(u, RequestPack, v.requestPack),
         v.executions + ExecutionsAt(u, NodeExecutions), v.errors + TextsAt(u, Errors),
         v.warnings + TextsAt(u, Warnings), TextAt(u, Snapshot, v.snapshot), ProfileAt(u, Profile, v.profile),
         ApplicabilityAt(u, Applicability, v.applicability), TextAt(u, PackId, v.pack),
         v.dependencies + TextsAt(u, Dependencies), v.findings + FindingsAt(u, Findings),
         TestCiAt(u, TestCiSummary, v.testCi), v.docs + DocsAt(u, Docs), RiskAt(u, RiskAssessment, v.risk),
         TextAt(u, Interpretation, v.interpretation), PlanAt(u, PlanDraft, v.planDraft),
         OutcomeAt(u, Outcome, v.outcome), IssuesAt(u, Issues, v.issues), CountAt(u, RepairCount, v.repairs),
         InstructionsAt(u, Instructions, v.instructions), ReportAt(u, FinalReport, v.report),
         ReportStatusAt(u, ReportState, v.reportStatus))
  }

  /** What an update makes of one field. */
  ghost predicate After(s: State, u: Update, t: State, k: Key) {
    && k in s && Fits(k, s[k]) && (k in u ==> Fits(k, u[k])) && k in t
    && t[k] == if k !in u then s[k] else if k in GRAPH_APPENDS then Join(s[k], u[k]) else u[k]
  }

  lemma EveryField(s: State, u: Update, k: Key)
    requires WellTyped(s) && WellTypedUpdate(u)
    ensures After(s, u, Apply(s, u), k)
  {
    assert k in s && Fits(k, s[k]);
  }

  lemma LogFields(s: State, u: Update, t: State)
    requires After(s, u, t, NodeExecutions)
    requires After(s, u, t, Errors)
    requires After(s, u, t, Warnings)
    ensures ExecutionsAt(t, NodeExecutions) == ExecutionsAt(s, NodeExecutions) + ExecutionsAt(u, NodeExecutions)
    ensures TextsAt(t, Errors) == TextsAt(s, Errors) + TextsAt(u, Errors)
    ensures TextsAt(t, Warnings) == TextsAt(s, Warnings) + TextsAt(u, Warnings)
  {
  }

  lemma EvidenceFields(s: State, u: Update, t: State)
    requires After(s, u, t, Dependencies)
    requires After(s, u, t, Findings)
    requires After(s, u, t, Docs)
    ensures TextsAt(t, Dependencies) == TextsAt(s, Dependencies) + TextsAt(u, Dependencies)
    ensures FindingsAt(t, Findings) == FindingsAt(s, Findings) + FindingsAt(u, Findings)
    ensures DocsAt(t, Docs) == DocsAt(s, Docs) + DocsAt(u, Docs)
  {
  }

  lemma EarlyFields(s: State, u: Update, t: State)
    requires After(s, u, t, Status)
    requires After(s, u, t, RequestPack)
    requires After(s, u, t, Snapshot)
    requires After(s, u, t, Profile)
    requires After(s, u, t, Applicability)
    ensures StatusAt(t, Status, Pending) == StatusAt(u, Status, StatusAt(s, Status, Pending))
    ensures TextAt(t, RequestPack, None) == TextAt(u, RequestPack, TextAt(s, RequestPack, None))
    ensures TextAt(t, Snapshot, None) == TextAt(u, Snapshot, TextAt(s, Snapshot, None))
    ensures ProfileAt(t, Profile, None) == ProfileAt(u, Profile, ProfileAt(s, Profile, None))
    ensures ApplicabilityAt(t, Applicability, Supported) == ApplicabilityAt(u, Applicability, ApplicabilityAt(s, Applicability, Supported))
  {
  }

  lemma MiddleFields(s: State, u: Update, t: State)
    requires After(s, u, t, PackId)
    requires After(s, u, t, TestCiSummary)
    requires After(s, u, t, RiskAssessment)
    requires After(s, u, t, Interpretation)
    requires After(s, u, t, PlanDraft)
    ensures TextAt(t, PackId, None) == TextAt(u, PackId, TextAt(s, PackId, None))
    ensures TestCiAt(t, TestCiSummary, None) == TestCiAt(u, TestCiSummary, TestCiAt(s, TestCiSummary, None))
    ensures RiskAt(t, RiskAssessment, None) == RiskAt(u, RiskAssessment, RiskAt(s, RiskAssessment, None))
    ensures TextAt(t, Interpretation, None) == TextAt(u, Interpretation, TextAt(s, Interpretation, None))
    ensures PlanAt(t, PlanDraft, None) == PlanAt(u, PlanDraft, PlanAt(s, PlanDraft, None))
  {
  }

  lemma LateFields(s: State, u: Update, t: State)
    requires After(s, u, t, Outcome)
    requires After(s, u, t, Issues)
    requires After(s, u, t, RepairCount)
    ensures OutcomeAt(t, Outcome, NotRun) == OutcomeAt(u, Outcome, OutcomeAt(s, Outcome, NotRun))
    ensures IssuesAt(t, Issues, []) == IssuesAt(u, Issues, IssuesAt(s, Issues, []))
    ensures CountAt(t, RepairCount, 0) == CountAt(u, RepairCount, CountAt(s, RepairCount, 0))
  {
  }

  lemma ReportFields(s: State, u: Update, t: State)
    requires After(s, u, t, Instructions)
    requires After(s, u, t, FinalReport)
    requires After(s, u, t, ReportState)
    ensures InstructionsAt(t, Instructions, []) == InstructionsAt(u, Instructions, InstructionsAt(s, Instructions, []))
    ensures ReportAt(t, FinalReport, None) == ReportAt(u, FinalReport, ReportAt(s, FinalReport, None))
    ensures ReportStatusAt(t, ReportState, NoReport) == ReportStatusAt(u, ReportState, ReportStatusAt(s, ReportState, NoReport))
  {
  }

  lemma ReadApply(s: State, u: Update)
    requires WellTyped(s) && WellTypedUpdate(u)
    ensures Read(Apply(s, u)) == Revise(Read(s), u)
  {
    var t := Apply(s, u);
    forall k: Key
      ensures After(s, u, t, k)
    {
      EveryField(s, u, k);
    }
    LogFields(s, u, t);
    EvidenceFields(s, u, t);
    EarlyFields(s, u, t);
    MiddleFields(s, u, t);
    LateFields(s, u, t);
    ReportFields(s, u, t);
  }
}
