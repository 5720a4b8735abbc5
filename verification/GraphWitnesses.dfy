/**
 The run theorems are about something: an analysis with a finding, a document that bears on it, and a claim
 that cites both but overstates. The critic's repair rewrites it, and the repaired plan is reported.
 */
module GraphWitnesses {
  import opened Outcomes
  import opened Models
  import opened FlatMaps
  import opened Evidence
  import opened GraphState
  import opened Nodes
  import opened GraphRuns
  import opened GraphCompleteness
  import GG = GraphGrounding
  import R = Repair
  import S = Risk
  import RP = RiskPacks

  const FINDING: Finding := Finding("f", "r", "a", "s", "m", "1", Snippet(Some(1), Some(1), "s"), "")
  const DOC: Doc := Doc("d", {"r"}, "o", "u", "x", "")
  const PACK: Pack := Pack("m", "1", {"r"}, map["o" := "u"], {"h"}, RiskRules([RP.Counted("k", ["r"], 3, 15)], [], 15, ""))
  const REGISTRY: map<Id, Pack> := map["m" := PACK]
  const REPAIR: Instruction := Repair("c", "", ["f"], ["d"])

  function ClaimSaying(text: string): Claim {
    Claim("c", text, ["f"], ["d"], [], "")
  }

  function PlanSaying(text: string): Plan {
    Plan([ClaimSaying(text)], [], "")
  }

  function MaterialSaying(text: string): Material {
    Material(RepositoryProfile({}, ""), [FINDING], [DOC], [], None, PlanSaying(text))
  }

  /** Checks that find any text but the empty one overstated, and nothing else wrong. */
  function Strict(): Checks {
    Checks((p: Plan) => true, (t: string) => 1, (t: string) => "h",
           (t: string) => false, (t: string) => false, (t: string) => t != [], (t: string) => false,
           (t: string, d: seq<string>) => false, (t: string) => false, (t: string, w: string) => true)
  }

  // ---- What the validator makes of the claim ----------------------------------------------------------

  lemma OneFinding(findings: seq<Finding>)
    requires findings == [FINDING]
    ensures FindingById(findings) == map["f" := FINDING]
  {
    assert findings[..0] == [];
  }

  lemma OneDoc(docs: seq<Doc>)
    requires docs == [DOC]
    ensures DocById(docs) == map["d" := DOC]
  {
    assert docs[..0] == [];
  }

  lemma SayingIsClean(text: string, claim: Claim, findings: map<Id, Finding>, docs: map<Id, Doc>)
    requires claim == ClaimSaying(text) && findings == map["f" := FINDING] && docs == map["d" := DOC]
    ensures Grounded(claim, findings.Keys, docs.Keys) && AllowedLanguage(claim, [], Strict())
    ensures CleanClaim(claim, findings, docs, [], Strict()) <==> text == ""
  {
    assert "f" in claim.findingIds;
    assert findings["f"].ruleId in DOC.relatedRules;
  }

  /** The score of one finding is within the maximum. */
  lemma ScoreIsSound(findings: seq<Finding>, testCi: TestCi)
    ensures SoundRisk(Some(S.Score(findings, testCi, PACK.risk)), FindingById(findings).Keys, PACK.risk)
  {
    var rules := PACK.risk.rules;
    var files := |S.FilesOf(findings)|;
    RP.CountedCeiling("k", ["r"], 3, 15, files);
    RP.SumBelowCeilings(rules, findings, testCi);
    assert RP.CeilingSum(rules[..0], files) == 0;
    S.ScoreAcceptedIff(findings, testCi, PACK.risk);
    RiskIssuesIff(Some(S.Score(findings, testCi, PACK.risk)), FindingById(findings).Keys, PACK.risk);
  }

  ghost predicate ContextSays(c: Context, text: string) {
    && c.plan == PlanSaying(text) && c.findings == [FINDING] && c.docs == [DOC] && c.dependencies == []
    && c.pack == Some(PACK) && c.risk == Some(S.Score(c.findings, TestCi(None, []), PACK.risk))
  }

  lemma ContextForSaying(env: Env, text: string)
    requires env == Standard(REGISTRY, Strict())
    ensures ContextSays(ContextFor(env, "m", MaterialSaying(text)), text)
  {
    GG.StandardTools(REGISTRY, Strict(), env);
  }

  lemma FieldsAreClean(c: Context, ch: Checks)
    requires ch == Strict() && c.plan.worklist == []
    requires FindingById(c.findings) == map["f" := FINDING] && DocById(c.docs) == map["d" := DOC]
    ensures CleanFields(c, PACK, ch) && KnownWorklist(c.plan, Files(c)) && ch.schemaOk(c.plan)
  {
    FindingIsClean(FINDING, ch);
  }

  lemma FindingIsClean(f: Finding, ch: Checks)
    requires f == FINDING && ch == Strict()
    ensures CleanFinding(f, PACK, ch)
  {
    assert f.symbol <= f.snippet.text[0..];
  }

  /** The validator passes the claim if it says nothing, and otherwise asks for a repair. */
  lemma OutcomeOfSaying(c: Context, text: string, ch: Checks)
    requires ch == Strict() && ContextSays(c, text)
    ensures OutcomeOf(PlanIssues(c, ch)) == if text == "" then Pass else Repairable
  {
    var findings, docs := FindingById(c.findings), DocById(c.docs);
    OneFinding(c.findings);
    OneDoc(c.docs);
    ScoreIsSound(c.findings, TestCi(None, []));
    SayingIsClean(text, ClaimSaying(text), findings, docs);
    FieldsAreClean(c, ch);
    OutcomeOfOneClaim(c, ch, ClaimSaying(text));
  }

  /** With everything else in order, one grounded and allowed claim decides. */
  lemma OutcomeOfOneClaim(c: Context, ch: Checks, claim: Claim)
    requires c.pack.Some? && ch.schemaOk(c.plan) && c.plan.claims == [claim]
    requires KnownWorklist(c.plan, Files(c)) && CleanFields(c, c.pack.value, ch)
    requires SoundRisk(c.risk, FindingById(c.findings).Keys, c.pack.value.risk)
    requires Grounded(claim, FindingById(c.findings).Keys, DocById(c.docs).Keys) && AllowedLanguage(claim, c.dependencies, ch)
    ensures OutcomeOf(PlanIssues(c, ch)) ==
              if CleanClaim(claim, FindingById(c.findings), DocById(c.docs), c.dependencies, ch) then Pass else Repairable
  {
    OneClaimIsNotFatal(c, ch, claim);
    OneClaimPasses(c, ch, claim);
    OutcomesAre(PlanIssues(c, ch));
  }

  lemma OutcomesAre(issues: seq<Issue>)
    ensures OutcomeOf(issues) == Pass || OutcomeOf(issues) == Repairable || OutcomeOf(issues) == StructuralFailure
  {
  }

  lemma OneClaimIsNotFatal(c: Context, ch: Checks, claim: Claim)
    requires c.pack.Some? && c.plan.claims == [claim]
    requires KnownWorklist(c.plan, Files(c)) && CleanFields(c, c.pack.value, ch)
    requires SoundRisk(c.risk, FindingById(c.findings).Keys, c.pack.value.risk)
    requires Grounded(claim, FindingById(c.findings).Keys, DocById(c.docs).Keys) && AllowedLanguage(claim, c.dependencies, ch)
    ensures OutcomeOf(PlanIssues(c, ch)) != StructuralFailure
  {
    OnlyClaim(c, claim);
    NotStructuralIff(c, ch);
  }

  lemma OneClaimPasses(c: Context, ch: Checks, claim: Claim)
    requires c.pack.Some? && ch.schemaOk(c.plan) && c.plan.claims == [claim]
    requires KnownWorklist(c.plan, Files(c)) && CleanFields(c, c.pack.value, ch)
    requires SoundRisk(c.risk, FindingById(c.findings).Keys, c.pack.value.risk)
    ensures OutcomeOf(PlanIssues(c, ch)) == Pass <==>
              CleanClaim(claim, FindingById(c.findings), DocById(c.docs), c.dependencies, ch)
  {
    OnlyClaim(c, claim);
    PassIff(c, ch);
  }

  lemma OnlyClaim(c: Context, claim: Claim)
    requires c.plan.claims == [claim]
    ensures forall other :: other in c.plan.claims <==> other == claim
  {
  }

  /** An overstating claim is named by an issue that a repair may answer. */
  lemma FlaggedIsNamed(c: Context, ch: Checks, claim: Claim)
    requires c.pack.Some? && claim in c.plan.claims && claim.id != "" && ch.overstates(claim.text)
    ensures R.NamedByIssue(PlanIssues(c, ch), claim.id)
  {
    var issue := Fixable("V-PROHIBITED-CLAIM", Some(claim.id), None);
    assert issue in LanguageIssues(claim, c.dependencies, ch);
    assert issue in ClaimIssues(c, ch)(claim);
    FlatMapMember(c.plan.claims, ClaimIssues(c, ch), issue);
    assert issue in PlanIssues(c, ch);
  }

  lemma RepairIsValid(issues: seq<Issue>, text: string)
    requires R.NamedByIssue(issues, "c")
    ensures R.ValidRepairs([REPAIR], R.FailedClaims(issues, PlanSaying(text).claims))
  {
    var claims := PlanSaying(text).claims;
    assert claims[..0] == [];
    assert R.FailedClaims(issues, claims) == claims;
  }

  lemma RepairSaysNothing(text: string)
    ensures R.Repaired(PlanSaying(text), [REPAIR]) == PlanSaying("")
  {
    var claim := ClaimSaying(text);
    R.SelectAll(claim.findingIds, R.Keeps(["f"]));
    R.SelectAll(claim.docIds, R.Keeps(["d"]));
    assert R.ApplyAll([claim], [REPAIR][..0]) == [claim];
    assert [claim][0 := ClaimSaying("")] == [ClaimSaying("")];
  }

  // ---- The run ----------------------------------------------------------------------------------------

  /** The repair is permitted, and what it leaves passes. */
  lemma RepairApplies(env: Env, m: Material, c: Context)
    requires env == Standard(REGISTRY, Strict()) && m == MaterialSaying("x") && c == ContextFor(env, "m", m)
    ensures OutcomeOf(env.validate(c)) == Repairable && Allowed(env, [REPAIR], env.validate(c), m.plan)
    ensures env.repair(m.plan, [REPAIR]) == PlanSaying("")
    ensures OutcomeOf(env.validate(c.(plan := PlanSaying("")))) == Pass
  {
    GG.StandardTools(REGISTRY, Strict(), env);
    ContextForSaying(env, "x");
    OutcomeOfSaying(c, "x", Strict());
    FlaggedIsNamed(c, Strict(), ClaimSaying("x"));
    RepairIsValid(PlanIssues(c, Strict()), "x");
    RepairSaysNothing("x");
    OutcomeOfSaying(c.(plan := PlanSaying("")), "", Strict());
  }

  lemma MaterialIsGatherable(env: Env, m: Material)
    requires env == Standard(REGISTRY, Strict()) && m == MaterialSaying("x")
    ensures Loaded(env) && "m" in env.registry && Gatherable(m)
  {
  }

  /**
   Some run comes to its second validation with one instruction, which passed the critic's check, and goes on
   from there to a validated report of the repaired plan.
   */
  lemma SomeRunIsRepaired(env: Env, m: Material) returns (run: Run, later: Run)
    requires env == Standard(REGISTRY, Strict()) && m == MaterialSaying("x")
    ensures "m" in env.registry && CarriedThrough(env, "m", m, [REPAIR], PlanSaying(""), run, later)
  {
    MaterialIsGatherable(env, m);
    RepairApplies(env, m, ContextFor(env, "m", m));
    run, later := EveryGoodRepairIsReported(env, "m", m, [REPAIR], PlanSaying(""));
  }
}
