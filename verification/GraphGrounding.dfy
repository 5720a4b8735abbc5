/**
 Grounding: what a validated report carries, and what a repair can do to it. These theorems are about
 runs with the repository's own validator, scorer and repair step.
 */
module GraphGrounding {
  import opened Outcomes
  import opened Models
  import opened FlatMaps
  import opened Evidence
  import opened GraphState
  import opened Nodes
  import opened GraphRuns
  import opened GraphInvariant
  import G = GraphGuarantees
  import R = Repair
  import S = Risk

  lemma {:induction false} PacksAreLoaded(env: Env, run: Run)
    requires Valid(env, run)
    ensures Loaded(env)
  {
    if run.Then? {
      PacksAreLoaded(env, run.before);
    }
  }

  lemma StandardTools(registry: map<Id, Pack>, checks: Checks, env: Env)
    requires env == Standard(registry, checks)
    ensures env.registry == registry
    ensures forall c :: env.validate(c) == PlanIssues(c, checks)
    ensures forall f, t, r :: env.score(f, t, r) == S.Score(f, t, r)
    ensures forall p, i :: env.repair(p, i) == R.Repaired(p, i)
    ensures forall i, s, p :: env.permitted(i, s, p) <==> (i != [] ==> R.ValidRepairs(i, R.FailedClaims(s, p.claims)))
  {
  }

  /** What the validator would check if it were given the contents of the report. */
  function ReportContext(report: Report, pack: Pack): Context
    requires report.Validated?
  {
    Context(
      if report.plan.Some? then report.plan.value else EMPTY_PLAN,
      if report.profile.Some? then report.profile.value.pythonFiles else {},
      report.findings, report.docs, report.dependencies, report.risk, Some(pack))
  }

  ghost predicate Sound(registry: map<Id, Pack>, checks: Checks, report: Report, packId: Id)
    requires report.Validated?
  {
    && packId in registry
    && report.issues == [] && report.outcome == Pass
    && PlanIssues(ReportContext(report, registry[packId]), checks) == []
  }

  lemma ValidatedFits(env: Env, v: View, log: seq<Execution>)
    requires Holds(env, v, Over(AssembleValidated)) && Loaded(env)
    ensures v.PackId() in env.registry && v.outcome == Pass && v.issues == IssuesFor(env, v)
    ensures ContextOf(env, v) == ReportContext(ReportBy(AssembleValidated, v, log), env.registry[v.PackId()])
    ensures v.risk.Some? ==> v.risk.value == env.score(v.findings, TestCiSeen(v), env.registry[v.PackId()].risk)
    ensures OutcomeOf(v.issues) == Pass
  {
  }

  /**
   The plan in a validated report is the plan on which the recorded validation found nothing: checking
   the report's own plan, findings, documents, dependencies and risk against the run's pack raises no
   issue at all.
   */
  lemma ValidatedReportIsSound(registry: map<Id, Pack>, checks: Checks, env: Env, run: Run) returns (report: Report)
    requires env == Standard(registry, checks) && Finished(env, run) && ViewOf(run).reportStatus == ValidatedReport
    ensures ViewOf(run).report == Some(report) && report.Validated?
    ensures Sound(registry, checks, report, ViewOf(run).PackId())
    ensures report.risk.Some? ==>
              report.risk.value == S.Score(report.findings, if report.testCi.Some? then report.testCi.value else TestCi(None, []),
                                           registry[ViewOf(run).PackId()].risk)
  {
    var last := G.ReportOfRun(env, run);
    InvariantAlways(env, run);
    PacksAreLoaded(env, run);
    StandardTools(registry, checks, env);
    var v := ViewOf(run);
    var log := v.executions[..|v.executions| - 1];
    report := ReportBy(AssembleValidated, v, log);
    ValidatedFits(env, v, log);
    OutcomeStructural(v.issues);
  }

  /** Hence every claim of the report is grounded in evidence of the same report, and so is its risk. */
  lemma ValidatedReportIsGrounded(registry: map<Id, Pack>, checks: Checks, env: Env, run: Run) returns (report: Report)
    requires env == Standard(registry, checks) && Finished(env, run) && ViewOf(run).reportStatus == ValidatedReport
    ensures ViewOf(run).report == Some(report) && report.Validated?
    ensures report.plan.Some? ==>
              forall claim :: claim in report.plan.value.claims ==>
                Grounded(claim, FindingById(report.findings).Keys, DocById(report.docs).Keys)
                && AllowedLanguage(claim, report.dependencies, checks)
    ensures ViewOf(run).PackId() in registry
    ensures SoundRisk(report.risk, FindingById(report.findings).Keys, registry[ViewOf(run).PackId()].risk)
  {
    report := ValidatedReportIsSound(registry, checks, env, run);
    var c := ReportContext(report, registry[ViewOf(run).PackId()]);
    OutcomeStructural(PlanIssues(c, checks));
    NotStructuralIff(c, checks);
  }

  /** Everything the claim cites is known and in order for the migration pack. */
  ghost predicate Traceable(claim: Claim, findings: map<Id, Finding>, docs: map<Id, Doc>, pack: Pack, checks: Checks) {
    && claim.findingIds != [] && claim.docIds != []
    && (forall id :: id in claim.findingIds ==> id in findings && CleanFinding(findings[id], pack, checks))
    && (forall id :: id in claim.docIds ==> id in docs && CleanDoc(docs[id], pack, checks))
  }

  /**
   What a claim of a validated report cites leads back to the repository and to a trusted page: findings of the
   run's migration pack whose snippets fit their line ranges, and excerpts from its canonical sources.
   */
  lemma ValidatedClaimsAreTraceable(registry: map<Id, Pack>, checks: Checks, env: Env, run: Run) returns (report: Report)
    requires env == Standard(registry, checks) && Finished(env, run) && ViewOf(run).reportStatus == ValidatedReport
    ensures ViewOf(run).report == Some(report) && report.Validated? && ViewOf(run).PackId() in registry
    ensures report.plan.Some? ==>
              forall claim :: claim in report.plan.value.claims ==>
                Traceable(claim, FindingById(report.findings), DocById(report.docs), registry[ViewOf(run).PackId()], checks)
  {
    report := ValidatedReportIsSound(registry, checks, env, run);
    ClaimsAreTraceable(ReportContext(report, registry[ViewOf(run).PackId()]), checks);
  }

  lemma ClaimsAreTraceable(c: Context, checks: Checks)
    requires PlanIssues(c, checks) == [] && c.pack.Some?
    ensures forall claim :: claim in c.plan.claims ==>
              Traceable(claim, FindingById(c.findings), DocById(c.docs), c.pack.value, checks)
  {
    OutcomeStructural(PlanIssues(c, checks));
    NotStructuralIff(c, checks);
  }

  /** And a validated report never carries a clipped score. */
  lemma ValidatedScoreIsUnclipped(registry: map<Id, Pack>, checks: Checks, env: Env, run: Run) returns (report: Report)
    requires env == Standard(registry, checks) && Finished(env, run) && ViewOf(run).reportStatus == ValidatedReport
    ensures ViewOf(run).report == Some(report) && report.Validated? && report.risk.Some?
    ensures ViewOf(run).PackId() in registry
    ensures report.risk.value.total ==
              S.Uncapped(registry[ViewOf(run).PackId()].risk.rules, report.findings,
                         if report.testCi.Some? then report.testCi.value else TestCi(None, []))
  {
    report := ValidatedReportIsSound(registry, checks, env, run);
    var again := ValidatedReportIsGrounded(registry, checks, env, run);
    var rules := registry[ViewOf(run).PackId()].risk;
    var testCi := if report.testCi.Some? then report.testCi.value else TestCi(None, []);
    RiskIssuesIff(report.risk, FindingById(report.findings).Keys, rules);
    S.AcceptedScoreIsUnclipped(report.findings, testCi, rules);
  }

  ghost predicate Usable(raw: Instruction, claims: seq<Claim>) {
    raw.Repair? && exists i :: 0 <= i < |claims| && claims[i].id == raw.claimId
  }

  lemma NoneSkipped(raws: seq<Instruction>, claims: seq<Claim>)
    ensures FlatMap(raws, R.SkipWarning(claims)) == [] <==> forall raw :: raw in raws ==> Usable(raw, claims)
  {
    FlatMapEmpty(raws, R.SkipWarning(claims));
    forall raw
      ensures R.SkipWarning(claims)(raw) == [] <==> Usable(raw, claims)
    {
      R.WarnedIff(claims, raw);
    }
  }

  lemma RepairWarnings(registry: map<Id, Pack>, checks: Checks, env: Env, v: View, u: Update)
    requires env == Standard(registry, checks) && Returns(env, RepairPlan, v, u)
    ensures Warnings in u && u[Warnings] == TextsV(FlatMap(v.instructions, R.SkipWarning(v.Plan().claims)))
  {
  }

  /** The repair step warns exactly when it could not use an instruction, for want of a schema or of a claim. */
  lemma RepairWarns(registry: map<Id, Pack>, checks: Checks, env: Env, v: View, u: Update)
    requires env == Standard(registry, checks) && Produces(env, RepairPlan, v, u)
    ensures Warnings in u && u[Warnings].TextsV?
    ensures u[Warnings].texts == [] <==> forall raw :: raw in v.instructions ==> Usable(raw, v.Plan().claims)
  {
    RepairWarnings(registry, checks, env, v, u);
    NoneSkipped(v.instructions, v.Plan().claims);
  }

  // ---- The second validation --------------------------------------------------------------------------

  lemma RepairedNow(env: Env, run: Run) returns (original: Plan)
    requires Valid(env, run) && Frontier(run) == {EvidenceValidator} && ViewOf(run).repairs == 1
    ensures RepairedFrom(env, ViewOf(run), original)
  {
    InvariantAlways(env, run);
    AloneAt(StageOf(run), EvidenceValidator);
    original := RepairedThen(env, ViewOf(run));
  }

  lemma RepairedThen(env: Env, v: View) returns (original: Plan)
    requires Holds(env, v, At(EvidenceValidator)) && v.repairs == 1
    ensures RepairedFrom(env, v, original)
  {
    original :| RepairedFrom(env, v, original);
  }

  lemma AloneAt(p: Stage, n: Node)
    requires FrontierAt(p) == {n} && !IsBranch(n)
    ensures p == At(n)
  {
    assert n in FrontierAt(p);
  }

  lemma GroundedByIndex(claims: seq<Claim>, findings: set<Id>, docs: set<Id>)
    ensures R.AllGrounded(claims, findings, docs) <==> forall claim :: claim in claims ==> Grounded(claim, findings, docs)
  {
  }

  /** A repair leaves the second validation nothing structural to find but the language of the new texts. */
  lemma RepairedOutcome(c: Context, checks: Checks, original: Plan, instructions: seq<Instruction>, issues: seq<Issue>)
    requires OutcomeOf(PlanIssues(c.(plan := original), checks)) != StructuralFailure
    requires c.plan == R.Repaired(original, instructions) && R.OncePerClaim(instructions)
    requires instructions != [] ==> R.ValidRepairs(instructions, R.FailedClaims(issues, original.claims))
    ensures R.AllGrounded(c.plan.claims, FindingById(c.findings).Keys, DocById(c.docs).Keys)
    ensures OutcomeOf(PlanIssues(c, checks)) == StructuralFailure <==>
              exists claim :: claim in c.plan.claims && !AllowedLanguage(claim, c.dependencies, checks)
  {
    var before := c.(plan := original);
    NotStructuralIff(before, checks);
    GroundedByIndex(original.claims, FindingById(c.findings).Keys, DocById(c.docs).Keys);
    if instructions != [] {
      R.ValidRepairsKeepGrounding(original.claims, issues, instructions, FindingById(c.findings).Keys, DocById(c.docs).Keys);
    }
    GroundedByIndex(c.plan.claims, FindingById(c.findings).Keys, DocById(c.docs).Keys);
    SamePlanBackground(before, c, checks);
    NotStructuralIff(c, checks);
  }

  lemma SamePlanBackground(a: Context, b: Context, checks: Checks)
    requires a == b.(plan := a.plan) && a.plan.worklist == b.plan.worklist && a.pack.Some?
    ensures KnownWorklist(a.plan, Files(a)) == KnownWorklist(b.plan, Files(b))
    ensures CleanFields(a, a.pack.value, checks) == CleanFields(b, a.pack.value, checks)
  {
    assert Files(a) == Files(b);
  }

  /**
   In every run: when the critic aims at no claim twice, the plan that comes to the second validation is
   grounded claim by claim, and that validation fails structurally exactly when a replacement text says
   something the validator forbids.
   */
  lemma SecondValidation(registry: map<Id, Pack>, checks: Checks, env: Env, run: Run)
    requires env == Standard(registry, checks) && Valid(env, run)
    requires Frontier(run) == {EvidenceValidator} && ViewOf(run).repairs == 1 && R.OncePerClaim(ViewOf(run).instructions)
    ensures var v := ViewOf(run);
            && R.AllGrounded(v.Plan().claims, FindingById(v.findings).Keys, DocById(v.docs).Keys)
            && (OutcomeOf(IssuesFor(env, v)) == StructuralFailure <==>
                  exists claim :: claim in v.Plan().claims && !AllowedLanguage(claim, v.dependencies, checks))
  {
    var v := ViewOf(run);
    var original := RepairedNow(env, run);
    StandardTools(registry, checks, env);
    RepairedOutcome(ContextOf(env, v), checks, original, v.instructions, v.issues);
  }
}
