/**
 What the run theorems leave possible: whatever an analysis finds, writes and assesses, some run collects exactly
 that; if the plan passes, some run reports it as validated, and if it is repairable, some run repairs it as told.
 */
module GraphCompleteness {
  import opened Outcomes
  import opened Models
  import opened Evidence
  import opened GraphState
  import opened Nodes
  import opened GraphRuns
  import opened GraphInvariant
  import GraphSteps
  import G = GraphGuarantees
  import GG = GraphGrounding

  // ---- Taking a step ----------------------------------------------------------------------------------

  lemma ThenIsValid(env: Env, run: Run, execs: seq<Exec>)
    requires Valid(env, run) && Superstep(env, Frontier(run), ViewOf(run), execs)
    ensures Valid(env, Then(run, execs, execs))
  {
  }

  /** A node that runs alone may return any update its contract allows. */
  lemma Advance(env: Env, run: Run, n: Node, u: Update) returns (next: Run)
    requires Valid(env, run) && StageOf(run) == At(n) && Produces(env, n, ViewOf(run), u)
    ensures Valid(env, next) && ViewOf(next) == Revise(ViewOf(run), u) && StageOf(next) == NextStage(n, ViewOf(next))
    ensures next.Then? && next.before == run
  {
    next := Then(run, [Exec(n, u)], [Exec(n, u)]);
    InvariantAlways(env, run);
    AloneIsSuperstep(env, n, ViewOf(run), u);
    ThenIsValid(env, run, [Exec(n, u)]);
    AdvanceLeads(env, run, n, u, next);
  }

  lemma AdvanceLeads(env: Env, run: Run, n: Node, u: Update, next: Run)
    requires WellTyped(StateOf(run)) && StageOf(run) == At(n) && next == Then(run, [Exec(n, u)], [Exec(n, u)])
    requires Superstep(env, {n}, ViewOf(run), [Exec(n, u)])
    ensures ViewOf(next) == Revise(ViewOf(run), u) && StageOf(next) == NextStage(n, ViewOf(next))
  {
    var same := OneNode(env, n, StateOf(run), ViewOf(run), [Exec(n, u)], StateOf(next), ViewOf(next));
  }

  // ---- Up to the fan-out ------------------------------------------------------------------------------

  /** What the nodes that reach outside the process bring in, and the plan that is made of it. */
  datatype Material = Material(
    profile: RepositoryProfile, findings: seq<Finding>, docs: seq<Doc>, dependencies: seq<string>,
    testCi: Option<TestCi>, plan: Plan)

  /** Documents are looked up for findings only. */
  ghost predicate Gatherable(m: Material) {
    m.findings == [] ==> m.docs == []
  }

  /** Nothing is collected yet. */
  ghost predicate Early(v: View, request: Option<string>) {
    && v.findings == [] && v.docs == [] && v.dependencies == []
    && v.requestPack == request && v.repairs == 0 && v.status != Terminated
  }

  ghost predicate Chosen(env: Env, v: View, m: Material, id: Id) {
    && v.status == Running && v.snapshot.Some? && v.profile == Some(m.profile) && v.pack == Some(id)
    && id in env.registry && v.applicability == Supported && v.repairs == 0
  }

  function Logged(n: Node): Value {
    ExecutionsV([Execution(n, true)])
  }

  lemma EarlyFields(s: State, request: Option<string>)
    requires Status in s && s[Status] == StatusV(Pending) && RequestPack in s && s[RequestPack] == TextV(request)
    requires Findings in s && s[Findings] == FindingsV([]) && Docs in s && s[Docs] == DocsV([])
    requires Dependencies in s && s[Dependencies] == TextsV([]) && RepairCount in s && s[RepairCount] == CountV(0)
    ensures Early(Read(s), request)
  {
  }

  lemma EarlyStart(request: Option<string>)
    ensures Early(Read(InitialState(request)), request)
  {
    InitialAt(request, Status);
    InitialAt(request, RequestPack);
    InitialAt(request, Findings);
    InitialAt(request, Docs);
    InitialAt(request, Dependencies);
    InitialAt(request, RepairCount);
    EarlyFields(InitialState(request), request);
  }

  lemma RequestUpdate(env: Env, v: View, request: Option<string>) returns (u: Update)
    ensures Produces(env, ValidateRequest, v, u)
    ensures Status in u && u[Status] == StatusV(Running) && RequestPack in u && u[RequestPack] == TextV(request)
  {
    u := map[NodeExecutions := Logged(ValidateRequest), Status := StatusV(Running), RequestPack := TextV(request)];
  }

  lemma AfterRequest(env: Env, v: View, request: Option<string>, u: Update, w: View)
    requires Early(v, request) && Produces(env, ValidateRequest, v, u) && w == Revise(v, u)
    requires Status in u && u[Status] == StatusV(Running) && RequestPack in u && u[RequestPack] == TextV(request)
    ensures Early(w, request) && w.status == Running
  {
    GraphSteps.FrontDoes(env, ValidateRequest, v, u, w);
  }

  lemma AcquireUpdate(env: Env, v: View) returns (u: Update)
    ensures Produces(env, AcquireRepository, v, u)
    ensures Status !in u && Snapshot in u && u[Snapshot] == TextV(Some(""))
  {
    u := map[NodeExecutions := Logged(AcquireRepository), Snapshot := TextV(Some(""))];
  }

  lemma AfterAcquire(env: Env, v: View, request: Option<string>, u: Update, w: View)
    requires Early(v, request) && v.status == Running && Produces(env, AcquireRepository, v, u) && w == Revise(v, u)
    requires Status !in u && Snapshot in u && u[Snapshot] == TextV(Some(""))
    ensures Early(w, request) && w.status == Running && w.snapshot.Some?
  {
    GraphSteps.FrontDoes(env, AcquireRepository, v, u, w);
    GraphSteps.RevisesOnly(AcquireRepository, v, u);
  }

  lemma ProfileUpdate(env: Env, v: View, profile: RepositoryProfile) returns (u: Update)
    requires v.snapshot.Some?
    ensures Produces(env, ProfileRepository, v, u)
    ensures Status !in u && Profile in u && u[Profile] == ProfileV(Some(profile))
  {
    u := map[NodeExecutions := Logged(ProfileRepository), Profile := ProfileV(Some(profile))];
  }

  lemma AfterProfile(env: Env, v: View, request: Option<string>, profile: RepositoryProfile, u: Update, w: View)
    requires Early(v, request) && v.status == Running && v.snapshot.Some?
    requires Produces(env, ProfileRepository, v, u) && w == Revise(v, u)
    requires Status !in u && Profile in u && u[Profile] == ProfileV(Some(profile))
    ensures Early(w, request) && w.status == Running && w.snapshot.Some? && w.profile == Some(profile)
  {
    GraphSteps.FrontDoes(env, ProfileRepository, v, u, w);
    GraphSteps.RevisesOnly(ProfileRepository, v, u);
  }

  lemma SelectUpdate(env: Env, v: View, id: Id) returns (u: Update)
    requires v.profile.Some? && v.requestPack == None && id in env.registry
    ensures Produces(env, SelectMigrationPack, v, u)
    ensures Status !in u && Applicability in u && u[Applicability] == ApplicabilityV(Supported)
    ensures PackId in u && u[PackId] == TextV(Some(id))
  {
    u := map[NodeExecutions := Logged(SelectMigrationPack), Applicability := ApplicabilityV(Supported),
             PackId := TextV(Some(id)), PackCandidates := TextV(None)];
    assert Selected(u, Supported, id);
  }

  lemma AfterSelect(env: Env, v: View, request: Option<string>, m: Material, id: Id, u: Update, w: View)
    requires Early(v, request) && v.status == Running && v.snapshot.Some? && v.profile == Some(m.profile) && id in env.registry
    requires Produces(env, SelectMigrationPack, v, u) && w == Revise(v, u)
    requires Status !in u && Applicability in u && u[Applicability] == ApplicabilityV(Supported)
    requires PackId in u && u[PackId] == TextV(Some(id))
    ensures Chosen(env, w, m, id) && Early(w, request)
  {
    GraphSteps.SelectDoes(env, v, u, w);
  }

  /** Some run stands before the selection with this request and this profile. */
  lemma ReachSelection(env: Env, request: Option<string>, profile: RepositoryProfile) returns (run: Run)
    requires Loaded(env)
    ensures Valid(env, run) && StageOf(run) == At(SelectMigrationPack) && Early(ViewOf(run), request)
    ensures ViewOf(run).status == Running && ViewOf(run).snapshot.Some? && ViewOf(run).profile == Some(profile)
  {
    run := Start(request);
    EarlyStart(request);
    run := AdvanceRequest(env, run, request);
    run := AdvanceProfile(env, run, request, profile);
  }

  lemma ReachFan(env: Env, id: Id, m: Material) returns (run: Run)
    requires Loaded(env) && id in env.registry
    ensures Valid(env, run) && StageOf(run) == Fan && Chosen(env, ViewOf(run), m, id) && Early(ViewOf(run), None)
  {
    run := ReachSelection(env, None, m.profile);
    var v := ViewOf(run);
    var u := SelectUpdate(env, v, id);
    run := Advance(env, run, SelectMigrationPack, u);
    AfterSelect(env, v, None, m, id, u, ViewOf(run));
  }

  lemma AdvanceRequest(env: Env, run: Run, request: Option<string>) returns (next: Run)
    requires Valid(env, run) && StageOf(run) == At(ValidateRequest) && Early(ViewOf(run), request)
    ensures Valid(env, next) && StageOf(next) == At(AcquireRepository)
    ensures Early(ViewOf(next), request) && ViewOf(next).status == Running
  {
    var v := ViewOf(run);
    var u := RequestUpdate(env, v, request);
    next := Advance(env, run, ValidateRequest, u);
    AfterRequest(env, v, request, u, ViewOf(next));
  }

  lemma AdvanceProfile(env: Env, run: Run, request: Option<string>, profile: RepositoryProfile) returns (next: Run)
    requires Valid(env, run) && StageOf(run) == At(AcquireRepository) && Early(ViewOf(run), request) && ViewOf(run).status == Running
    ensures Valid(env, next) && StageOf(next) == At(SelectMigrationPack)
    ensures Early(ViewOf(next), request) && ViewOf(next).status == Running
    ensures ViewOf(next).snapshot.Some? && ViewOf(next).profile == Some(profile)
  {
    var v := ViewOf(run);
    var u := AcquireUpdate(env, v);
    next := Advance(env, run, AcquireRepository, u);
    AfterAcquire(env, v, request, u, ViewOf(next));
    var w := ViewOf(next);
    var p := ProfileUpdate(env, w, profile);
    next := Advance(env, next, ProfileRepository, p);
    AfterProfile(env, w, request, profile, p, ViewOf(next));
  }

  // ---- The three branches -----------------------------------------------------------------------------

  ghost predicate Parses(u: Update, m: Material) {
    && WellTypedUpdate(u) && (forall k :: k in u ==> MayWrite(ParseDependencies, k))
    && Dependencies in u && u[Dependencies] == TextsV(m.dependencies)
  }

  ghost predicate Finds(u: Update, m: Material) {
    && WellTypedUpdate(u) && (forall k :: k in u ==> MayWrite(ScanCompatibility, k))
    && Findings in u && u[Findings] == FindingsV(m.findings)
  }

  ghost predicate Analyzes(u: Update, m: Material) {
    && WellTypedUpdate(u) && (forall k :: k in u ==> MayWrite(AnalyzeTestsAndCi, k))
    && TestCiSummary in u && u[TestCiSummary] == TestCiV(m.testCi)
  }

  lemma ParseUpdate(env: Env, v: View, m: Material) returns (u: Update)
    ensures Produces(env, ParseDependencies, v, u) && Parses(u, m)
  {
    u := map[NodeExecutions := Logged(ParseDependencies), Dependencies := TextsV(m.dependencies)];
  }

  lemma ScanUpdate(env: Env, v: View, m: Material) returns (u: Update)
    requires v.snapshot.Some? && v.PackId() != ""
    ensures Produces(env, ScanCompatibility, v, u) && Finds(u, m)
  {
    u := map[NodeExecutions := Logged(ScanCompatibility), Findings := FindingsV(m.findings)];
  }

  lemma AnalyzeUpdate(env: Env, v: View, m: Material) returns (u: Update)
    requires v.profile.Some?
    ensures Produces(env, AnalyzeTestsAndCi, v, u) && Analyzes(u, m)
  {
    u := map[NodeExecutions := Logged(AnalyzeTestsAndCi), TestCiSummary := TestCiV(m.testCi)];
  }

  lemma AfterParse(v: View, u: Update, m: Material, w: View)
    requires Parses(u, m) && w == Revise(v, u) && v.dependencies == []
    ensures BranchEffect(v, w) && w.dependencies == m.dependencies && w.findings == v.findings && w.testCi == v.testCi
  {
    GraphSteps.RevisesOnly(ParseDependencies, v, u);
    BranchFrame(ParseDependencies, v, w);
    assert [] + m.dependencies == m.dependencies;
  }

  lemma AfterScan(v: View, u: Update, m: Material, w: View)
    requires Finds(u, m) && w == Revise(v, u) && v.findings == []
    ensures BranchEffect(v, w) && w.findings == m.findings && w.dependencies == v.dependencies && w.testCi == v.testCi
  {
    GraphSteps.RevisesOnly(ScanCompatibility, v, u);
    BranchFrame(ScanCompatibility, v, w);
    assert [] + m.findings == m.findings;
  }

  lemma AfterAnalyze(v: View, u: Update, m: Material, w: View)
    requires Analyzes(u, m) && w == Revise(v, u)
    ensures BranchEffect(v, w) && w.testCi == m.testCi && w.dependencies == v.dependencies && w.findings == v.findings
  {
    GraphSteps.RevisesOnly(AnalyzeTestsAndCi, v, u);
    BranchFrame(AnalyzeTestsAndCi, v, w);
  }

  lemma ThreeApplied(s: State, a: Exec, b: Exec, c: Exec, execs: seq<Exec>)
    requires WellTyped(s) && WellTypedUpdate(a.update) && WellTypedUpdate(b.update) && WellTypedUpdate(c.update)
    requires execs == [a, b, c]
    ensures Read(ApplyAll(s, execs)) == Revise(Revise(Revise(Read(s), a.update), b.update), c.update)
  {
    var s1 := Apply(s, a.update);
    var s2 := Apply(s1, b.update);
    assert execs[..2][..1] == [a] && execs[..2] == [a, b];
    assert ApplyAll(s, [a][..0]) == s;
    assert ApplyAll(s, [a]) == s1;
    assert ApplyAll(s, [a, b]) == s2;
    ReadApply(s, a.update);
    MergeKeepsTypes(GRAPH_APPENDS, s, a.update);
    ReadApply(s1, b.update);
    MergeKeepsTypes(GRAPH_APPENDS, s1, b.update);
    ReadApply(s2, c.update);
  }

  ghost predicate Gathered(v: View, m: Material) {
    v.findings == m.findings && v.dependencies == m.dependencies && v.testCi == m.testCi
  }

  lemma BranchesGather(v: View, a: Update, b: Update, c: Update, w: View, m: Material)
    requires Parses(a, m) && Finds(b, m) && Analyzes(c, m) && v.findings == [] && v.dependencies == []
    requires w == Revise(Revise(Revise(v, a), b), c)
    ensures BranchEffect(v, w) && Gathered(w, m)
  {
    var v1 := Revise(v, a);
    var v2 := Revise(v1, b);
    AfterParse(v, a, m, v1);
    AfterScan(v1, b, m, v2);
    AfterAnalyze(v2, c, m, w);
  }

  /** The branches collect the material, each its own part. */
  lemma AdvanceFan(env: Env, run: Run, m: Material, id: Id) returns (next: Run)
    requires Valid(env, run) && StageOf(run) == Fan && Loaded(env)
    requires Chosen(env, ViewOf(run), m, id) && Early(ViewOf(run), None)
    ensures Valid(env, next) && StageOf(next) == At(AggregateAnalysis)
    ensures Chosen(env, ViewOf(next), m, id) && Gathered(ViewOf(next), m) && ViewOf(next).docs == []
  {
    InvariantAlways(env, run);
    var v := ViewOf(run);
    var a := ParseUpdate(env, v, m);
    var b := ScanUpdate(env, v, m);
    var c := AnalyzeUpdate(env, v, m);
    var execs := [Exec(ParseDependencies, a), Exec(ScanCompatibility, b), Exec(AnalyzeTestsAndCi, c)];
    BranchesAreSuperstep(env, v, a, b, c, execs);
    next := Then(run, execs, execs);
    ThenIsValid(env, run, execs);
    ThreeApplied(StateOf(run), execs[0], execs[1], execs[2], execs);
    BranchesGather(v, a, b, c, ViewOf(next), m);
  }

  // ---- From the fan-in to the validator ---------------------------------------------------------------

  ghost predicate Collected(env: Env, v: View, m: Material, id: Id) {
    Chosen(env, v, m, id) && Gathered(v, m) && v.docs == []
  }

  ghost predicate Researched(env: Env, v: View, m: Material, id: Id) {
    Chosen(env, v, m, id) && Gathered(v, m) && v.docs == m.docs
  }

  function RiskOf(env: Env, m: Material, id: Id): Assessment
    requires id in env.registry
  {
    env.score(m.findings, if m.testCi.Some? then m.testCi.value else TestCi(None, []), env.registry[id].risk)
  }

  ghost predicate Scored(env: Env, v: View, m: Material, id: Id) {
    Researched(env, v, m, id) && v.risk == Some(RiskOf(env, m, id))
  }

  lemma AdvanceAggregate(env: Env, run: Run, m: Material, id: Id) returns (next: Run)
    requires Valid(env, run) && StageOf(run) == At(AggregateAnalysis)
    requires Collected(env, ViewOf(run), m, id)
    ensures Valid(env, next) && StageOf(next) == At(DocumentationResearch) && Collected(env, ViewOf(next), m, id)
  {
    var v := ViewOf(run);
    var u := AggregateCanProduce(env, v, AggregateWarnings(v));
    next := Advance(env, run, AggregateAnalysis, u);
    AfterAggregate(env, v, m, id, u, ViewOf(next));
  }

  lemma AdvanceResearch(env: Env, run: Run, m: Material, id: Id) returns (next: Run)
    requires Valid(env, run) && StageOf(run) == At(DocumentationResearch) && Gatherable(m)
    requires Collected(env, ViewOf(run), m, id)
    ensures Valid(env, next) && StageOf(next) == At(CalculateRisk) && Researched(env, ViewOf(next), m, id)
  {
    var v := ViewOf(run);
    var u := ResearchUpdate(env, v, m);
    next := Advance(env, run, DocumentationResearch, u);
    AfterResearch(env, v, m, id, u, ViewOf(next));
  }

  lemma AfterAggregate(env: Env, v: View, m: Material, id: Id, u: Update, w: View)
    requires Collected(env, v, m, id) && Produces(env, AggregateAnalysis, v, u) && w == Revise(v, u)
    ensures Collected(env, w, m, id) && NextStage(AggregateAnalysis, w) == At(DocumentationResearch)
  {
    GraphSteps.AnalysisDoes(env, AggregateAnalysis, v, u, w);
    GraphSteps.RevisesOnly(AggregateAnalysis, v, u);
  }

  lemma ResearchUpdate(env: Env, v: View, m: Material) returns (u: Update)
    requires Gathered(v, m) && Gatherable(m)
    ensures Produces(env, DocumentationResearch, v, u) && Docs in u && u[Docs] == DocsV(m.docs)
  {
    u := map[NodeExecutions := Logged(DocumentationResearch), Docs := DocsV(m.docs)];
  }

  lemma AfterResearch(env: Env, v: View, m: Material, id: Id, u: Update, w: View)
    requires Collected(env, v, m, id) && Produces(env, DocumentationResearch, v, u) && w == Revise(v, u)
    requires Docs in u && u[Docs] == DocsV(m.docs)
    ensures Researched(env, w, m, id)
  {
    GraphSteps.AnalysisDoes(env, DocumentationResearch, v, u, w);
    assert [] + m.docs == m.docs;
  }

  lemma ScoreUpdate(env: Env, v: View, m: Material, id: Id, risk: Assessment) returns (u: Update)
    requires Researched(env, v, m, id) && risk == RiskOf(env, m, id)
    ensures Produces(env, CalculateRisk, v, u) && RiskAssessment in u && u[RiskAssessment] == RiskV(Some(risk))
  {
    u := map[NodeExecutions := Logged(CalculateRisk), RiskAssessment := RiskV(Some(risk))];
  }

  lemma AfterScore(env: Env, v: View, m: Material, id: Id, u: Update, w: View)
    requires Researched(env, v, m, id) && Produces(env, CalculateRisk, v, u) && w == Revise(v, u)
    requires RiskAssessment in u && u[RiskAssessment] == RiskV(Some(RiskOf(env, m, id)))
    ensures Scored(env, w, m, id)
  {
    GraphSteps.RiskDoes(env, v, u, w);
  }

  lemma AfterInterpret(env: Env, v: View, m: Material, id: Id, u: Update, w: View)
    requires Scored(env, v, m, id) && Produces(env, CompatibilityInterpretation, v, u) && w == Revise(v, u)
    ensures Scored(env, w, m, id) && NextStage(CompatibilityInterpretation, w) == At(MigrationPlanning)
  {
    GraphSteps.AgentDoes(env, CompatibilityInterpretation, v, u, w);
  }

  lemma PlanUpdate(env: Env, v: View, plan: Plan) returns (u: Update)
    ensures Produces(env, MigrationPlanning, v, u) && PlanDraft in u && u[PlanDraft] == PlanV(Some(plan))
  {
    u := map[NodeExecutions := Logged(MigrationPlanning), PlanDraft := PlanV(Some(plan))];
  }

  lemma AfterPlan(env: Env, v: View, m: Material, id: Id, u: Update, w: View)
    requires Scored(env, v, m, id) && Produces(env, MigrationPlanning, v, u) && w == Revise(v, u)
    requires PlanDraft in u && u[PlanDraft] == PlanV(Some(m.plan))
    ensures Scored(env, w, m, id) && w.planDraft == Some(m.plan)
    ensures NextStage(MigrationPlanning, w) == At(EvidenceValidator)
  {
    GraphSteps.AgentDoes(env, MigrationPlanning, v, u, w);
  }

  lemma AdvanceInterpret(env: Env, run: Run, m: Material, id: Id) returns (next: Run)
    requires Valid(env, run) && StageOf(run) == At(CompatibilityInterpretation) && Scored(env, ViewOf(run), m, id)
    ensures Valid(env, next) && StageOf(next) == At(MigrationPlanning) && Scored(env, ViewOf(next), m, id)
  {
    var v := ViewOf(run);
    var u := AgentCanProduce(env, CompatibilityInterpretation, v);
    next := Advance(env, run, CompatibilityInterpretation, u);
    AfterInterpret(env, v, m, id, u, ViewOf(next));
  }

  lemma AdvancePlan(env: Env, run: Run, m: Material, id: Id) returns (next: Run)
    requires Valid(env, run) && StageOf(run) == At(MigrationPlanning) && Scored(env, ViewOf(run), m, id)
    ensures Valid(env, next) && StageOf(next) == At(EvidenceValidator)
    ensures Scored(env, ViewOf(next), m, id) && ViewOf(next).planDraft == Some(m.plan)
  {
    var v := ViewOf(run);
    var u := PlanUpdate(env, v, m.plan);
    next := Advance(env, run, MigrationPlanning, u);
    AfterPlan(env, v, m, id, u, ViewOf(next));
  }

  /** Some run brings exactly this material, with its score, before the validator. */
  lemma ReachValidator(env: Env, id: Id, m: Material) returns (run: Run)
    requires Loaded(env) && id in env.registry && Gatherable(m)
    ensures Valid(env, run) && StageOf(run) == At(EvidenceValidator)
    ensures Scored(env, ViewOf(run), m, id) && ViewOf(run).planDraft == Some(m.plan)
  {
    run := ReachFan(env, id, m);
    run := AdvanceFan(env, run, m, id);
    run := AdvanceAggregate(env, run, m, id);
    run := AdvanceResearch(env, run, m, id);
    var v := ViewOf(run);
    var u := ScoreUpdate(env, v, m, id, RiskOf(env, m, id));
    run := Advance(env, run, CalculateRisk, u);
    AfterScore(env, v, m, id, u, ViewOf(run));
    run := AdvanceInterpret(env, run, m, id);
    run := AdvancePlan(env, run, m, id);
  }

  // ---- What becomes of it -----------------------------------------------------------------------------

  /** What the validator is given for this material. */
  function ContextFor(env: Env, id: Id, m: Material): Context
    requires id in env.registry
  {
    Context(m.plan, m.profile.pythonFiles, m.findings, m.docs, m.dependencies, Some(RiskOf(env, m, id)),
            Some(env.registry[id]))
  }

  lemma ScoredContext(env: Env, id: Id, m: Material, v: View)
    requires Loaded(env) && Scored(env, v, m, id) && v.planDraft == Some(m.plan)
    ensures ContextOf(env, v) == ContextFor(env, id, m)
  {
  }

  /** The material as the run holds it, with the plan. */
  ghost predicate Carries(v: View, id: Id, m: Material, plan: Plan) {
    v.pack == Some(id) && v.profile == Some(m.profile) && Gathered(v, m) && v.docs == m.docs && v.planDraft == Some(plan)
  }

  /** The context is made of the plan and of fields that validation, critic and repair leave alone. */
  lemma SameContext(env: Env, v: View, w: View, plan: Plan)
    requires w.Plan() == plan && w.profile == v.profile && w.findings == v.findings && w.docs == v.docs
    requires w.dependencies == v.dependencies && w.risk == v.risk && w.pack == v.pack && w.requestPack == v.requestPack
    ensures ContextOf(env, w) == ContextOf(env, v).(plan := plan)
  {
  }

  ghost predicate SameRepairs(v: View, w: View) {
    w.repairs == v.repairs && w.instructions == v.instructions
  }

  /** Validated, with everything else as it was. */
  ghost predicate StillCarries(env: Env, v: View, w: View, id: Id, m: Material, plan: Plan) {
    && Carries(w, id, m, plan) && SameRepairs(v, w)
    && w.issues == IssuesFor(env, v) && ContextOf(env, w) == ContextOf(env, v)
  }

  lemma AfterValidation(env: Env, v: View, w: View, id: Id, m: Material, plan: Plan)
    requires Carries(v, id, m, plan) && GraphSteps.ValidatorEffect(env, v, w)
    ensures StillCarries(env, v, w, id, m, plan)
    ensures NextStage(EvidenceValidator, w) == AfterOutcome(OutcomeOf(IssuesFor(env, v)), v.repairs)
  {
    SameContext(env, v, w, v.Plan());
  }

  function AfterOutcome(outcome: ValidationOutcome, repairs: nat): Stage {
    if outcome == Pass then At(AssembleValidated)
    else if outcome == Repairable && repairs == 0 then At(EvidenceCritic)
    else At(AssemblePartial)
  }

  lemma Validate(env: Env, run: Run, v: View, id: Id, m: Material, plan: Plan) returns (next: Run)
    requires Valid(env, run) && StageOf(run) == At(EvidenceValidator) && v == ViewOf(run) && Carries(v, id, m, plan)
    ensures Valid(env, next) && next.Then? && next.before == run
    ensures StageOf(next) == AfterOutcome(OutcomeOf(IssuesFor(env, v)), v.repairs)
    ensures StillCarries(env, v, ViewOf(next), id, m, plan)
  {
    var u := ValidatorCanProduce(env, v, IssuesFor(env, v));
    next := Advance(env, run, EvidenceValidator, u);
    GraphSteps.ValidatorDoes(env, v, u, ViewOf(next));
    AfterValidation(env, v, ViewOf(next), id, m, plan);
  }

  /** The report shows this material and this plan, and nothing else. */
  ghost predicate Shows(report: Report, m: Material, plan: Plan) {
    && report.Validated? && report.profile == Some(m.profile) && report.findings == m.findings
    && report.docs == m.docs && report.dependencies == m.dependencies && report.testCi == m.testCi
    && report.plan == Some(plan)
  }

  ghost predicate Reported(v: View, id: Id, m: Material, plan: Plan) {
    v.pack == Some(id) && v.reportStatus == ValidatedReport && v.report.Some? && Shows(v.report.value, m, plan)
  }

  lemma AfterReport(env: Env, v: View, w: View, id: Id, m: Material, plan: Plan)
    requires Carries(v, id, m, plan) && GraphSteps.ReportEffect(AssembleValidated, v, w)
    ensures Reported(w, id, m, plan) && SameRepairs(v, w)
  {
  }

  lemma Report(env: Env, run: Run, v: View, id: Id, m: Material, plan: Plan) returns (next: Run)
    requires Valid(env, run) && StageOf(run) == At(AssembleValidated) && v == ViewOf(run) && Carries(v, id, m, plan)
    ensures Finished(env, next) && Reported(ViewOf(next), id, m, plan) && SameRepairs(v, ViewOf(next))
    ensures next.Then? && next.before == run
  {
    var u := CanProduce(env, AssembleValidated, v);
    next := Advance(env, run, AssembleValidated, u);
    GraphSteps.ReportDoes(env, AssembleValidated, v, u, ViewOf(next));
    AfterReport(env, v, ViewOf(next), id, m, plan);
    InvariantAlways(env, next);
  }

  /** From the validator on: a plan that passes is reported. */
  lemma PassingIsReported(env: Env, run: Run, id: Id, m: Material, plan: Plan) returns (next: Run)
    requires Valid(env, run) && StageOf(run) == At(EvidenceValidator) && Carries(ViewOf(run), id, m, plan)
    requires OutcomeOf(IssuesFor(env, ViewOf(run))) == Pass
    ensures Finished(env, next) && Reported(ViewOf(next), id, m, plan)
    ensures SameRepairs(ViewOf(run), ViewOf(next)) && Continues(next, run)
  {
    var validated := Validate(env, run, ViewOf(run), id, m, plan);
    next := Report(env, validated, ViewOf(validated), id, m, plan);
    assert Continues(validated, run);
  }

  /**
   Every plan that passes is reported: for any material and any installed migration pack, if the validator
   passes the plan against it, some run ends with a validated report of exactly that. The run is one of the
   node contracts: what the nodes bring in is unrelated there, while the program reads the test files and CI
   systems off the profile (src/upgradepilot/graph/nodes/analysis.py:209-226).
   */
  lemma EveryPassingPlanIsReported(env: Env, id: Id, m: Material) returns (run: Run)
    requires Loaded(env) && id in env.registry && Gatherable(m)
    requires OutcomeOf(env.validate(ContextFor(env, id, m))) == Pass
    ensures Finished(env, run) && Reported(ViewOf(run), id, m, m.plan) && ViewOf(run).repairs == 0
  {
    run := ReachValidator(env, id, m);
    ScoredContext(env, id, m, ViewOf(run));
    run := PassingIsReported(env, run, id, m, m.plan);
  }

  /** What a report shows is what the validator passed. */
  lemma ReportedPasses(registry: map<Id, Pack>, checks: Checks, env: Env, id: Id, m: Material, run: Run)
    requires env == Standard(registry, checks) && Finished(env, run) && Reported(ViewOf(run), id, m, m.plan)
    ensures id in registry && OutcomeOf(PlanIssues(ContextFor(env, id, m), checks)) == Pass
  {
    var report := GG.ValidatedReportIsSound(registry, checks, env, run);
    var again := GG.ValidatedScoreIsUnclipped(registry, checks, env, run);
    GG.StandardTools(registry, checks, env);
    ReportContextIs(env, id, m, report);
    OutcomeStructural(PlanIssues(ContextFor(env, id, m), checks));
  }

  lemma ReportContextIs(env: Env, id: Id, m: Material, report: Report)
    requires Shows(report, m, m.plan) && id in env.registry && report.risk == Some(RiskOf(env, m, id))
    ensures GG.ReportContext(report, env.registry[id]) == ContextFor(env, id, m)
  {
  }

  /** A node adds documents only if it was given findings. */
  lemma DocsStep(env: Env, v: View, x: View, n: Node, u: Update, w: View)
    requires Produces(env, n, v, u) && (x.findings == [] ==> v.findings == [] && x.docs == [])
    requires w.findings == x.findings + FindingsAt(u, Findings) && w.docs == x.docs + DocsAt(u, Docs)
    ensures w.findings == [] ==> v.findings == [] && w.docs == []
  {
    if Docs in u {
      assert MayWrite(n, Docs);
    }
  }

  ghost predicate DocsFollowed(v: View, x: View) {
    x.findings == [] ==> v.findings == [] && x.docs == []
  }

  lemma DocsNext(env: Env, v: View, s: State, e: Exec)
    requires WellTyped(s) && DocsFollowed(v, Read(s)) && Produces(env, e.node, v, e.update)
    ensures WellTyped(Apply(s, e.update)) && DocsFollowed(v, Read(Apply(s, e.update)))
  {
    ReadApply(s, e.update);
    MergeKeepsTypes(GRAPH_APPENDS, s, e.update);
    DocsStep(env, v, Read(s), e.node, e.update, Revise(Read(s), e.update));
  }

  lemma {:induction false} DocsFollow(env: Env, s: State, v: View, execs: seq<Exec>)
    requires WellTyped(s) && DocsFollowed(v, Read(s))
    requires forall i :: 0 <= i < |execs| ==> Produces(env, execs[i].node, v, execs[i].update)
    ensures WellTyped(ApplyAll(s, execs)) && DocsFollowed(v, Read(ApplyAll(s, execs)))
  {
    if execs != [] {
      var n := |execs| - 1;
      DocsFollow(env, s, v, execs[..n]);
      DocsNext(env, v, ApplyAll(s, execs[..n]), execs[n]);
    }
  }

  /** In every run documents come with findings. */
  lemma {:induction false} DocsNeedFindings(env: Env, run: Run)
    requires Valid(env, run)
    ensures ViewOf(run).findings == [] ==> ViewOf(run).docs == []
  {
    match run
    case Start(requestPack) =>
      InitialAt(requestPack, Docs);
    case Then(before, applied, _) =>
      DocsNeedFindings(env, before);
      InvariantAlways(env, before);
      DocsFollow(env, StateOf(before), ViewOf(before), applied);
  }

  lemma ReportedIsGatherable(env: Env, id: Id, m: Material, plan: Plan, run: Run)
    requires Finished(env, run) && Reported(ViewOf(run), id, m, plan)
    ensures Gatherable(m)
  {
    DocsNeedFindings(env, run);
    var last := G.ReportOfRun(env, run);
    ReportHasEvidence(last, ViewOf(run), ViewOf(run).report.value);
  }

  lemma ReportHasEvidence(n: Node, v: View, report: Report)
    requires IsReport(n) && report.Validated? && v.executions != []
    requires report == ReportBy(n, v, v.executions[..|v.executions| - 1])
    ensures report.findings == v.findings && report.docs == v.docs
  {
  }

  /**
   Exactly the passing plans are reported: some run ends with a validated report of this material under this
   migration pack if and only if its documents come with findings and the validator passes the plan against it.
   */
  lemma ReportedIffPassing(registry: map<Id, Pack>, checks: Checks, env: Env, id: Id, m: Material)
    requires env == Standard(registry, checks) && Loaded(env)
    ensures (exists run :: Finished(env, run) && Reported(ViewOf(run), id, m, m.plan))
            <==> id in registry && Gatherable(m) && OutcomeOf(PlanIssues(ContextFor(env, id, m), checks)) == Pass
  {
    if id in registry && Gatherable(m) && OutcomeOf(PlanIssues(ContextFor(env, id, m), checks)) == Pass {
      GG.StandardTools(registry, checks, env);
      var run := EveryPassingPlanIsReported(env, id, m);
    }
    forall run | Finished(env, run) && Reported(ViewOf(run), id, m, m.plan)
      ensures id in registry && Gatherable(m) && OutcomeOf(PlanIssues(ContextFor(env, id, m), checks)) == Pass
    {
      ReportedPasses(registry, checks, env, id, m, run);
      ReportedIsGatherable(env, id, m, m.plan, run);
    }
  }

  lemma CriticUpdate(env: Env, v: View, instructions: seq<Instruction>) returns (u: Update)
    requires Allowed(env, instructions, v.issues, v.Plan())
    ensures Produces(env, EvidenceCritic, v, u) && Instructions in u && u[Instructions] == InstructionsV(instructions)
  {
    u := map[NodeExecutions := Logged(EvidenceCritic), CriticResult := TextV(None), Instructions := InstructionsV(instructions)];
  }

  lemma Criticise(env: Env, run: Run, instructions: seq<Instruction>) returns (next: Run)
    requires Valid(env, run) && StageOf(run) == At(EvidenceCritic)
    requires Allowed(env, instructions, ViewOf(run).issues, ViewOf(run).Plan())
    ensures Valid(env, next) && StageOf(next) == At(RepairPlan)
    ensures ViewOf(next) == ViewOf(run).(instructions := instructions, executions := ViewOf(next).executions,
                                         errors := ViewOf(next).errors, warnings := ViewOf(next).warnings)
  {
    var u := CriticUpdate(env, ViewOf(run), instructions);
    next := Advance(env, run, EvidenceCritic, u);
    GraphSteps.CriticDoes(env, ViewOf(run), u, ViewOf(next));
  }

  lemma RepairNow(env: Env, run: Run) returns (next: Run)
    requires Valid(env, run) && StageOf(run) == At(RepairPlan)
    ensures Valid(env, next) && StageOf(next) == At(EvidenceValidator)
    ensures GraphSteps.RepairEffect(env, ViewOf(run), ViewOf(next))
  {
    var u := CanProduce(env, RepairPlan, ViewOf(run));
    next := Advance(env, run, RepairPlan, u);
    GraphSteps.RepairDoes(env, ViewOf(run), u, ViewOf(next));
  }

  /** The plan before the critic, with the issues found in it. */
  lemma ReachCritic(env: Env, id: Id, m: Material) returns (run: Run)
    requires Loaded(env) && id in env.registry && Gatherable(m)
    requires OutcomeOf(env.validate(ContextFor(env, id, m))) == Repairable
    ensures Valid(env, run) && StageOf(run) == At(EvidenceCritic) && Carries(ViewOf(run), id, m, m.plan)
    ensures ViewOf(run).repairs == 0 && ViewOf(run).issues == env.validate(ContextFor(env, id, m))
    ensures ContextOf(env, ViewOf(run)) == ContextFor(env, id, m)
  {
    run := ReachValidator(env, id, m);
    var v := ViewOf(run);
    ScoredContext(env, id, m, v);
    run := Validate(env, run, v, id, m, m.plan);
  }

  lemma RepairCarries(env: Env, v: View, w: View, id: Id, m: Material)
    requires Carries(v, id, m, m.plan) && GraphSteps.RepairEffect(env, v, w)
    ensures Carries(w, id, m, env.repair(m.plan, v.instructions))
    ensures w.instructions == v.instructions && w.repairs == v.repairs + 1 && w.issues == v.issues
    ensures ContextOf(env, w) == ContextOf(env, v).(plan := env.repair(m.plan, v.instructions))
  {
    SameContext(env, v, w, env.repair(m.plan, v.instructions));
  }

  lemma CriticCarries(env: Env, v: View, w: View, id: Id, m: Material, instructions: seq<Instruction>)
    requires w == v.(instructions := instructions, executions := w.executions, errors := w.errors, warnings := w.warnings)
    requires Carries(v, id, m, m.plan)
    ensures Carries(w, id, m, m.plan) && ContextOf(env, w) == ContextOf(env, v) && w.issues == v.issues
  {
    SameContext(env, v, w, v.Plan());
  }

  /** The run was repaired, once and by these instructions. */
  ghost predicate RepairedBy(v: View, instructions: seq<Instruction>) {
    v.repairs == 1 && v.instructions == instructions
  }

  /** The run stands before its second validation with the plan repaired and the first issues still recorded. */
  ghost predicate RepairMade(env: Env, id: Id, m: Material, instructions: seq<Instruction>, run: Run)
    requires id in env.registry
  {
    var v, plan := ViewOf(run), env.repair(m.plan, instructions);
    && Valid(env, run) && StageOf(run) == At(EvidenceValidator)
    && RepairedBy(v, instructions) && Carries(v, id, m, plan)
    && v.issues == env.validate(ContextFor(env, id, m)) && ContextOf(env, v) == ContextFor(env, id, m).(plan := plan)
  }

  /**
   Every permitted repair is carried out: if the plan is repairable and the instructions pass the critic's
   check, some run comes to its second validation with the plan repaired by exactly these instructions.
   */
  lemma EveryRepairIsMade(env: Env, id: Id, m: Material, instructions: seq<Instruction>) returns (run: Run)
    requires Loaded(env) && id in env.registry && Gatherable(m)
    requires OutcomeOf(env.validate(ContextFor(env, id, m))) == Repairable
    requires Allowed(env, instructions, env.validate(ContextFor(env, id, m)), m.plan)
    ensures RepairMade(env, id, m, instructions, run)
  {
    run := ReachCritic(env, id, m);
    var v := ViewOf(run);
    run := Criticise(env, run, instructions);
    var w := ViewOf(run);
    CriticCarries(env, v, w, id, m, instructions);
    run := RepairNow(env, run);
    RepairCarries(env, w, ViewOf(run), id, m);
  }

  /**
   `run` stands before its second validation with the plan these instructions leave and the issues of the first
   still recorded; `later` continues it to a validated report of that plan.
   */
  ghost predicate CarriedThrough(
      env: Env, id: Id, m: Material, instructions: seq<Instruction>, plan: Plan, run: Run, later: Run)
    requires id in env.registry
  {
    && Valid(env, run) && StageOf(run) == At(EvidenceValidator) && RepairedBy(ViewOf(run), instructions)
    && ViewOf(run).issues == env.validate(ContextFor(env, id, m)) && ViewOf(run).planDraft == Some(plan)
    && Continues(later, run) && Finished(env, later)
    && RepairedBy(ViewOf(later), instructions) && Reported(ViewOf(later), id, m, plan)
  }

  /** And if the repaired plan passes, that run goes on to a validated report of it. */
  lemma EveryGoodRepairIsReported(env: Env, id: Id, m: Material, instructions: seq<Instruction>, plan: Plan)
    returns (run: Run, later: Run)
    requires Loaded(env) && id in env.registry && Gatherable(m) && plan == env.repair(m.plan, instructions)
    requires OutcomeOf(env.validate(ContextFor(env, id, m))) == Repairable
    requires Allowed(env, instructions, env.validate(ContextFor(env, id, m)), m.plan)
    requires OutcomeOf(env.validate(ContextFor(env, id, m).(plan := plan))) == Pass
    ensures CarriedThrough(env, id, m, instructions, plan, run, later)
  {
    run := EveryRepairIsMade(env, id, m, instructions);
    later := PassingIsReported(env, run, id, m, plan);
  }

  // ---- Repaired reports, exactly ----------------------------------------------------------------------

  /** Only the validator leads to the validated report, and only that to the end of such a run. */
  lemma WayToReport(p: Stage, repairs: nat, nodes: seq<Node>, q: Stage, after: nat)
    requires Moves(p, repairs, nodes, q, after)
    ensures q == Over(AssembleValidated) ==> p == At(AssembleValidated)
    ensures q == At(AssembleValidated) ==> p == At(EvidenceValidator)
  {
  }

  lemma ComesFrom(env: Env, run: Run)
    requires Valid(env, run) && (StageOf(run) == Over(AssembleValidated) || StageOf(run) == At(AssembleValidated))
    ensures run.Then?
    ensures StageOf(run.before) == if StageOf(run).Over? then At(AssembleValidated) else At(EvidenceValidator)
  {
    InvariantAlways(env, run);
    var p := StageOf(run.before);
    WayToReport(p, ViewOf(run.before).repairs, NodesOf(run.applied), StageOf(run), ViewOf(run).repairs);
  }

  lemma LastSuperstep(env: Env, run: Run, n: Node)
    requires Valid(env, run) && run.Then? && StageOf(run.before) == At(n)
    ensures Superstep(env, {n}, ViewOf(run.before), run.applied) && WellTyped(StateOf(run.before))
  {
    InvariantAlways(env, run.before);
  }

  /** What the last node of a run did. */
  lemma LastStep(env: Env, run: Run, n: Node, v: View, w: View) returns (u: Update)
    requires Valid(env, run) && run.Then? && StageOf(run.before) == At(n) && v == ViewOf(run.before) && w == ViewOf(run)
    ensures Produces(env, n, v, u) && w == Revise(v, u)
  {
    LastSuperstep(env, run, n);
    u := OneNode(env, n, StateOf(run.before), v, run.applied, StateOf(run), w);
  }

  lemma BeforeTheEnd(env: Env, v: View, w: View, x: View, id: Id, m: Material)
    requires GraphSteps.ValidatorEffect(env, v, w) && GraphSteps.ReportEffect(AssembleValidated, w, x)
    requires Reported(x, id, m, m.plan)
    ensures Carries(v, id, m, m.plan) && SameRepairs(v, x) && x.report.value.risk == v.risk
  {
  }

  /** A validated report was validated: the run stood before the validator with the same material and plan. */
  lemma LastValidation(env: Env, run: Run, id: Id, m: Material) returns (before: Run)
    requires Finished(env, run) && Reported(ViewOf(run), id, m, m.plan)
    ensures Valid(env, before) && StageOf(before) == At(EvidenceValidator) && Continues(run, before)
    ensures Carries(ViewOf(before), id, m, m.plan) && SameRepairs(ViewOf(before), ViewOf(run))
    ensures ViewOf(before).risk == ViewOf(run).report.value.risk
  {
    var last := G.ReportOfRun(env, run);
    assert last == AssembleValidated;
    ComesFrom(env, run);
    ComesFrom(env, run.before);
    before := run.before.before;
    var v, w, x := ViewOf(before), ViewOf(run.before), ViewOf(run);
    var u := LastStep(env, run.before, EvidenceValidator, v, w);
    GraphSteps.ValidatorDoes(env, v, u, w);
    var r := LastStep(env, run, AssembleValidated, w, x);
    GraphSteps.ReportDoes(env, AssembleValidated, w, r, x);
    BeforeTheEnd(env, v, w, x, id, m);
    assert Continues(run.before, before);
  }

  /** The plan came of this one, which was repairable, by instructions that passed the critic's check. */
  ghost predicate RepairsTo(env: Env, id: Id, m: Material, original: Plan, instructions: seq<Instruction>)
    requires id in env.registry
  {
    var issues := env.validate(ContextFor(env, id, m).(plan := original));
    && m.plan == env.repair(original, instructions)
    && OutcomeOf(issues) == Repairable && Allowed(env, instructions, issues, original)
  }

  lemma CarriedContext(env: Env, id: Id, m: Material, v: View, original: Plan)
    requires Loaded(env) && id in env.registry && Carries(v, id, m, m.plan) && v.risk == Some(RiskOf(env, m, id))
    requires RepairedFrom(env, v, original)
    ensures RepairsTo(env, id, m, original, v.instructions)
  {
    assert ContextOf(env, v) == ContextFor(env, id, m);
  }

  lemma RepairedReportHasOriginal(registry: map<Id, Pack>, checks: Checks, env: Env, id: Id, m: Material, run: Run)
    returns (original: Plan)
    requires env == Standard(registry, checks) && Finished(env, run) && Reported(ViewOf(run), id, m, m.plan)
    requires ViewOf(run).repairs == 1
    ensures id in registry && RepairsTo(env, id, m, original, ViewOf(run).instructions)
  {
    GG.PacksAreLoaded(env, run);
    GG.StandardTools(registry, checks, env);
    var report := GG.ValidatedReportIsSound(registry, checks, env, run);
    var again := GG.ValidatedScoreIsUnclipped(registry, checks, env, run);
    var before := LastValidation(env, run, id, m);
    InvariantAlways(env, before);
    original := GG.RepairedNow(env, before);
    CarriedContext(env, id, m, ViewOf(before), original);
  }

  lemma OriginalMaterial(env: Env, id: Id, m: Material, original: Plan)
    requires id in env.registry
    ensures ContextFor(env, id, m.(plan := original)) == ContextFor(env, id, m).(plan := original)
  {
  }

  lemma OriginalIsReported(env: Env, id: Id, m: Material, original: Plan, instructions: seq<Instruction>)
    returns (later: Run)
    requires Loaded(env) && id in env.registry && Gatherable(m) && RepairsTo(env, id, m, original, instructions)
    requires OutcomeOf(env.validate(ContextFor(env, id, m))) == Pass
    ensures Finished(env, later) && RepairedBy(ViewOf(later), instructions) && Reported(ViewOf(later), id, m, m.plan)
  {
    OriginalMaterial(env, id, m, original);
    var run;
    run, later := EveryGoodRepairIsReported(env, id, m.(plan := original), instructions, m.plan);
  }

  /**
   Exactly the good repairs are reported: some run that was repaired by these instructions ends with a validated
   report of this material if and only if the plan passes and is what they make of a repairable plan, of whose
   issues they passed the critic's check.
   */
  lemma RepairedReportIff(registry: map<Id, Pack>, checks: Checks, env: Env, id: Id, m: Material, instructions: seq<Instruction>)
    requires env == Standard(registry, checks) && Loaded(env)
    ensures (exists run :: Finished(env, run) && RepairedBy(ViewOf(run), instructions) && Reported(ViewOf(run), id, m, m.plan))
            <==> && id in registry && Gatherable(m) && OutcomeOf(PlanIssues(ContextFor(env, id, m), checks)) == Pass
                 && exists original :: RepairsTo(env, id, m, original, instructions)
  {
    GG.StandardTools(registry, checks, env);
    if id in registry && Gatherable(m) && OutcomeOf(PlanIssues(ContextFor(env, id, m), checks)) == Pass {
      if original :| RepairsTo(env, id, m, original, instructions) {
        var run := OriginalIsReported(env, id, m, original, instructions);
      }
    }
    forall run | Finished(env, run) && RepairedBy(ViewOf(run), instructions) && Reported(ViewOf(run), id, m, m.plan)
      ensures id in registry && Gatherable(m) && OutcomeOf(PlanIssues(ContextFor(env, id, m), checks)) == Pass
      ensures exists original :: RepairsTo(env, id, m, original, instructions)
    {
      ReportedPasses(registry, checks, env, id, m, run);
      ReportedIsGatherable(env, id, m, m.plan, run);
      var original := RepairedReportHasOriginal(registry, checks, env, id, m, run);
    }
  }
}
