/**
 The deterministic evidence validator (src/upgradepilot/validators/evidence.py) and the node that turns
 its issues into an outcome (src/upgradepilot/graph/nodes/evidence.py).

 Each validator grows a list of issues in loops; it is proved against the list its checks describe, and
 the main results say exactly when that list is empty and when it is repairable.
 */
module Evidence {
  import opened Outcomes
  import opened Models
  import opened FlatMaps

  /**
   The checks that rest on text matching, on schema validation or on the parsing of URLs and lines. They are
   arbitrary here: every result holds whatever they answer.
   */
  datatype Checks = Checks(
    schemaOk: Plan -> bool,
    lines: string -> nat,
    domainOf: string -> string,
    saysExecuted: string -> bool,
    saysHours: string -> bool,
    overstates: string -> bool,
    recommends: string -> bool,
    unsupportedVersion: (string, seq<string>) -> bool,
    blank: string -> bool,
    mentions: (string, string) -> bool)

  // `pack` is None when the registry lookup fails, `risk` when no assessment was made.
  datatype Context = Context(
    plan: Plan, pythonFiles: set<string>, findings: seq<Finding>, docs: seq<Doc>, dependencies: seq<string>,
    risk: Option<Assessment>, pack: Option<Pack>)

  datatype ValidationOutcome = Pass | Repairable | StructuralFailure | NotRun

  /** Records by id; a later record replaces an earlier one of the same id. */
  function ById<T>(records: seq<T>, idOf: T -> Id): map<Id, T> {
    if records == [] then map[]
    else
      var n := |records| - 1;
      var m := ById(records[..n], idOf);
      if idOf(records[n]) == "" then m else m[idOf(records[n]) := records[n]]
  }

  /** Exactly the ids that occur are found, each with a record that has it. */
  lemma {:induction false} ByIdFinds<T>(records: seq<T>, idOf: T -> Id)
    ensures forall id :: id in ById(records, idOf) <==> id != "" && exists i :: 0 <= i < |records| && idOf(records[i]) == id
    ensures forall id :: id in ById(records, idOf) ==>
              idOf(ById(records, idOf)[id]) == id && ById(records, idOf)[id] in records
  {
    if records != [] {
      var n := |records| - 1;
      ByIdFinds(records[..n], idOf);
      assert forall i :: 0 <= i < n ==> records[..n][i] == records[i];
    }
  }

  lemma {:induction false} LastWins<T>(records: seq<T>, idOf: T -> Id, i: nat)
    requires i < |records| && idOf(records[i]) != ""
    requires forall j :: i < j < |records| ==> idOf(records[j]) != idOf(records[i])
    ensures idOf(records[i]) in ById(records, idOf) && ById(records, idOf)[idOf(records[i])] == records[i]
  {
    if i < |records| - 1 {
      LastWins(records[..|records| - 1], idOf, i);
    }
  }

  function FindingId(): Finding -> Id {
    (f: Finding) => f.id
  }

  function FindingById(findings: seq<Finding>): (m: map<Id, Finding>)
    ensures forall id :: id in m <==> id != "" && exists i :: 0 <= i < |findings| && findings[i].id == id
    ensures forall id :: id in m ==> m[id].id == id && m[id] in findings
  {
    ByIdFinds(findings, FindingId());
    ById(findings, FindingId())
  }

  function DocId(): Doc -> Id {
    (d: Doc) => d.id
  }

  function DocById(docs: seq<Doc>): (m: map<Id, Doc>)
    ensures forall id :: id in m <==> id != "" && exists i :: 0 <= i < |docs| && docs[i].id == id
    ensures forall id :: id in m ==> m[id].id == id && m[id] in docs
  {
    ByIdFinds(docs, DocId());
    ById(docs, DocId())
  }

  /** The order in which a dictionary lists the ids it was built from: by first appearance. */
  function FirstAppearances(ids: seq<Id>): (order: seq<Id>)
    ensures forall id :: id in order <==> id != "" && id in ids
    ensures forall i, j :: 0 <= i < j < |order| ==> order[i] != order[j]
  {
    if ids == [] then []
    else
      var n := |ids| - 1;
      var order := FirstAppearances(ids[..n]);
      assert forall id :: id in ids <==> id in ids[..n] || id == ids[n];
      if ids[n] == "" || ids[n] in order then order else order + [ids[n]]
  }

  function FindingIds(findings: seq<Finding>): (ids: seq<Id>)
    ensures |ids| == |findings| && forall i :: 0 <= i < |ids| ==> ids[i] == findings[i].id
  {
    seq(|findings|, i requires 0 <= i < |findings| => findings[i].id)
  }

  function DocIds(docs: seq<Doc>): (ids: seq<Id>)
    ensures |ids| == |docs| && forall i :: 0 <= i < |ids| ==> ids[i] == docs[i].id
  {
    seq(|docs|, i requires 0 <= i < |docs| => docs[i].id)
  }

  function Files(c: Context): set<string> {
    c.pythonFiles + set f | f in c.findings :: f.file
  }

  // ---- Issues, check by check ---------------------------------------------------------------------

  function Structural(validator: string, claimId: Option<Id>, evidenceId: Option<Id>): Issue {
    Issue(validator, false, claimId, evidenceId)
  }

  function Fixable(validator: string, claimId: Option<Id>, evidenceId: Option<Id>): Issue {
    Issue(validator, true, claimId, evidenceId)
  }

  function WhenIssue(b: bool, issue: Issue): seq<Issue> {
    if b then [issue] else []
  }

  function FileRef(known: set<string>): string -> seq<Issue> {
    (path: string) => WhenIssue(path != "" && known != {} && path !in known, Structural("V-FILE-REF", None, None))
  }

  function UnknownFinding(validator: string, claimId: Id, known: set<Id>): Id -> seq<Issue> {
    (id: Id) => WhenIssue(id !in known, Structural(validator, Some(claimId), None))
  }

  function UnknownDoc(claimId: Id, known: set<Id>): Id -> seq<Issue> {
    (id: Id) => WhenIssue(id !in known, Structural("V-EVIDENCE", Some(claimId), Some(id)))
  }

  function UnknownSupport(known: set<Id>): Id -> seq<Issue> {
    (id: Id) => WhenIssue(id != "" && id !in known, Structural("V-RISK", None, None))
  }

  function ComponentSupport(known: set<Id>): Component -> seq<Issue> {
    (c: Component) => FlatMap(c.supporting, UnknownSupport(known))
  }

  function PointsSum(components: seq<Component>): int {
    if components == [] then 0
    else PointsSum(components[..|components| - 1]) + components[|components| - 1].points
  }

  function RiskIssues(risk: Option<Assessment>, known: set<Id>, rules: RiskRules): seq<Issue> {
    var issue := Structural("V-RISK", None, None);
    match risk
    case None => [issue]
    case Some(a) =>
      WhenIssue(PointsSum(a.components) > a.total, issue)
      + WhenIssue(a.total > rules.maxPoints, issue)
      + WhenIssue(a.version != rules.version, issue)
      + FlatMap(a.components, ComponentSupport(known))
  }

  function RefIssues(claim: Claim, findings: set<Id>, docs: set<Id>): seq<Issue> {
    WhenIssue(claim.findingIds == [], Structural("V-FINDING-REF", Some(claim.id), None))
    + WhenIssue(claim.docIds == [], Structural("V-EVIDENCE", Some(claim.id), None))
    + FlatMap(claim.findingIds, UnknownFinding("V-FINDING-REF", claim.id, findings))
    + FlatMap(claim.docIds, UnknownDoc(claim.id, docs))
    + FlatMap(claim.repoIds, UnknownFinding("V-REPOSITORY-EVIDENCE", claim.id, findings))
  }

  function LanguageIssues(claim: Claim, dependencies: seq<string>, ch: Checks): seq<Issue> {
    WhenIssue(ch.saysExecuted(claim.text), Structural("V-PROHIBITED-CLAIM", Some(claim.id), None))
    + WhenIssue(ch.saysHours(claim.text), Structural("V-PROHIBITED-CLAIM", Some(claim.id), None))
    + WhenIssue(ch.overstates(claim.text), Fixable("V-PROHIBITED-CLAIM", Some(claim.id), None))
    + WhenIssue(ch.recommends(claim.text) && !(claim.findingIds != [] && claim.docIds != []),
                Fixable("V-EVIDENCE-COVERAGE", Some(claim.id), None))
    + WhenIssue(ch.unsupportedVersion(claim.text, dependencies), Structural("V-VERSION", Some(claim.id), None))
  }

  /** The claim names neither the symbol nor the rule of a finding it cites. */
  function GroundingIssue(claim: Claim, f: Finding, ch: Checks): seq<Issue> {
    WhenIssue(!ch.blank(f.symbol) && !ch.mentions(claim.text, f.symbol)
              && !ch.blank(f.ruleId) && !ch.mentions(claim.text, f.ruleId),
              Fixable("V-GROUNDING", Some(claim.id), None))
  }

  function Ungrounded(claim: Claim, findings: map<Id, Finding>, ch: Checks): Id -> seq<Issue> {
    (id: Id) => if id in findings then GroundingIssue(claim, findings[id], ch) else []
  }

  function CitedRules(claim: Claim, findings: map<Id, Finding>): set<string> {
    set id | id in claim.findingIds && id in findings :: findings[id].ruleId
  }

  function Unrelated(claim: Claim, findings: map<Id, Finding>, docs: map<Id, Doc>): Id -> seq<Issue> {
    (id: Id) =>
      if id !in docs then []
      else
        var rules := CitedRules(claim, findings);
        WhenIssue(docs[id].relatedRules != {} && rules != {} && docs[id].relatedRules !! rules,
                  Fixable("V-EVIDENCE-COVERAGE", Some(claim.id), Some(id)))
  }

  function CoverageIssues(claim: Claim, findings: map<Id, Finding>, docs: map<Id, Doc>, ch: Checks): seq<Issue> {
    FlatMap(claim.findingIds, Ungrounded(claim, findings, ch)) + FlatMap(claim.docIds, Unrelated(claim, findings, docs))
  }

  function ClaimIssues(c: Context, ch: Checks): Claim -> seq<Issue> {
    var findings, docs := FindingById(c.findings), DocById(c.docs);
    (claim: Claim) =>
      RefIssues(claim, findings.Keys, docs.Keys)
      + LanguageIssues(claim, c.dependencies, ch)
      + CoverageIssues(claim, findings, docs, ch)
  }

  predicate Contains(text: string, part: string) {
    exists i :: 0 <= i <= |text| && part <= text[i..]
  }

  const MAX_SNIPPET_LINES: nat := 8
  const MAX_EXCERPT_LINES: nat := 20

  predicate Misplaced(s: Snippet) {
    s.start.None? || s.end.None? || s.start.value < 1 || s.end.value < s.start.value
  }

  /** The snippet does not have as many lines as its range; a range that runs backwards is not compared. */
  predicate Mismatched(s: Snippet, ch: Checks) {
    && s.start.Some? && s.end.Some? && s.start.value <= s.end.value
    && (if ch.blank(s.text) then 0 else ch.lines(s.text)) != s.end.value - s.start.value + 1
  }

  function OriginIssues(f: Finding, pack: Pack): seq<Issue> {
    WhenIssue(f.packId != pack.id || f.packVersion != pack.version, Structural("V-PACK", None, None))
    + WhenIssue(f.ruleId !in pack.ruleIds, Structural("V-RULE", None, None))
  }

  function SnippetIssues(s: Snippet, symbol: string, ch: Checks): seq<Issue> {
    var range, text := Structural("V-LINE-RANGE", None, None), Structural("V-SNIPPET", None, None);
    WhenIssue(Misplaced(s), range)
    + WhenIssue(ch.blank(s.text) || ch.lines(s.text) > MAX_SNIPPET_LINES, text)
    + WhenIssue(Mismatched(s, ch), range)
    + WhenIssue(symbol != "" && !Contains(s.text, symbol), text)
  }

  function FindingIssues(f: Finding, pack: Pack, ch: Checks): seq<Issue> {
    OriginIssues(f, pack) + SnippetIssues(f.snippet, f.symbol, ch)
  }

  predicate FromSource(d: Doc, pack: Pack, ch: Checks) {
    d.sourceId in pack.sources && d.url == pack.sources[d.sourceId] && ch.domainOf(d.url) in pack.domains
  }

  function DocIssues(d: Doc, pack: Pack, ch: Checks): seq<Issue> {
    WhenIssue(!FromSource(d, pack, ch), Structural("V-SOURCE", None, Some(d.id)))
    + WhenIssue(ch.blank(d.excerpt) || ch.lines(d.excerpt) > MAX_EXCERPT_LINES, Structural("V-SNIPPET", None, Some(d.id)))
  }

  function FindingFaults(findings: map<Id, Finding>, pack: Pack, ch: Checks): Id -> seq<Issue> {
    (id: Id) => if id in findings then FindingIssues(findings[id], pack, ch) else []
  }

  function DocFaults(docs: map<Id, Doc>, pack: Pack, ch: Checks): Id -> seq<Issue> {
    (id: Id) => if id in docs then DocIssues(docs[id], pack, ch) else []
  }

  /** Everything the validator reports, in its order. */
  function PlanIssues(c: Context, ch: Checks): seq<Issue> {
    var schema := WhenIssue(!ch.schemaOk(c.plan), Fixable("V-SCHEMA", None, None));
    match c.pack
    case None => schema + [Structural("V-PACK", None, None)]
    case Some(pack) =>
      var findings, docs := FindingById(c.findings), DocById(c.docs);
      schema
      + FlatMap(c.plan.worklist, FileRef(Files(c)))
      + FlatMap(FirstAppearances(FindingIds(c.findings)), FindingFaults(findings, pack, ch))
      + FlatMap(FirstAppearances(DocIds(c.docs)), DocFaults(docs, pack, ch))
      + RiskIssues(c.risk, findings.Keys, pack.risk)
      + FlatMap(c.plan.claims, ClaimIssues(c, ch))
  }

  /** How the validator node classifies the issues. */
  function OutcomeOf(issues: seq<Issue>): ValidationOutcome {
    if exists issue :: issue in issues && !issue.repairable then StructuralFailure
    else if exists issue :: issue in issues && issue.repairable then Repairable
    else Pass
  }

  // ---- The validators ------------------------------------------------------------------------------

  method ValidatePlanFileWorklist(plan: Plan, known: set<string>) returns (issues: seq<Issue>)
    ensures issues == FlatMap(plan.worklist, FileRef(known))
  {
    issues := [];
    for i := 0 to |plan.worklist|
      invariant issues == FlatMap(plan.worklist[..i], FileRef(known))
    {
      var path := plan.worklist[i];
      FlatMapNext(plan.worklist, FileRef(known), i);
      if path != "" && known != {} && path !in known {
        issues := issues + [Structural("V-FILE-REF", None, None)];
      }
    }
    assert plan.worklist[..|plan.worklist|] == plan.worklist;
  }

  method ComponentSum(components: seq<Component>) returns (sum: int)
    ensures sum == PointsSum(components)
  {
    sum := 0;
    for i := 0 to |components|
      invariant sum == PointsSum(components[..i])
    {
      assert components[..i + 1][..i] == components[..i];
      sum := sum + components[i].points;
    }
    assert components[..|components|] == components;
  }

  method UnknownSupports(ids: seq<Id>, known: set<Id>) returns (issues: seq<Issue>)
    ensures issues == FlatMap(ids, UnknownSupport(known))
  {
    issues := [];
    for i := 0 to |ids|
      invariant issues == FlatMap(ids[..i], UnknownSupport(known))
    {
      FlatMapNext(ids, UnknownSupport(known), i);
      if ids[i] != "" && ids[i] !in known {
        issues := issues + [Structural("V-RISK", None, None)];
      }
    }
    assert ids[..|ids|] == ids;
  }

  method ValidateRisk(risk: Option<Assessment>, known: set<Id>, rules: RiskRules) returns (issues: seq<Issue>)
    ensures issues == RiskIssues(risk, known, rules)
  {
    var issue := Structural("V-RISK", None, None);
    if risk.None? {
      return [issue];
    }
    var a := risk.value;
    var sum := ComponentSum(a.components);
    var supports := [];
    for i := 0 to |a.components|
      invariant supports == FlatMap(a.components[..i], ComponentSupport(known))
    {
      FlatMapNext(a.components, ComponentSupport(known), i);
      var unknown := UnknownSupports(a.components[i].supporting, known);
      supports := supports + unknown;
    }
    assert a.components[..|a.components|] == a.components;
    return WhenIssue(sum > a.total, issue) + WhenIssue(a.total > rules.maxPoints, issue)
           + WhenIssue(a.version != rules.version, issue) + supports;
  }

  method ValidateClaimRefs(claim: Claim, findings: set<Id>, docs: set<Id>) returns (issues: seq<Issue>)
    ensures issues == RefIssues(claim, findings, docs)
  {
    issues := WhenIssue(claim.findingIds == [], Structural("V-FINDING-REF", Some(claim.id), None));
    issues := issues + WhenIssue(claim.docIds == [], Structural("V-EVIDENCE", Some(claim.id), None));
    var unknownFindings := UnknownIds(claim.findingIds, findings, Structural("V-FINDING-REF", Some(claim.id), None));
    issues := issues + unknownFindings;
    var unknownDocs := UnknownDocs(claim, docs);
    issues := issues + unknownDocs;
    var unknownRepo := UnknownIds(claim.repoIds, findings, Structural("V-REPOSITORY-EVIDENCE", Some(claim.id), None));
    issues := issues + unknownRepo;
  }

  method UnknownDocs(claim: Claim, docs: set<Id>) returns (issues: seq<Issue>)
    ensures issues == FlatMap(claim.docIds, UnknownDoc(claim.id, docs))
  {
    issues := [];
    for i := 0 to |claim.docIds|
      invariant issues == FlatMap(claim.docIds[..i], UnknownDoc(claim.id, docs))
    {
      FlatMapNext(claim.docIds, UnknownDoc(claim.id, docs), i);
      if claim.docIds[i] !in docs {
        issues := issues + [Structural("V-EVIDENCE", Some(claim.id), Some(claim.docIds[i]))];
      }
    }
    assert claim.docIds[..|claim.docIds|] == claim.docIds;
  }

  method UnknownIds(ids: seq<Id>, known: set<Id>, issue: Issue) returns (issues: seq<Issue>)
    requires !issue.repairable && issue.claimId.Some? && issue.evidenceId.None?
    ensures issues == FlatMap(ids, UnknownFinding(issue.validator, issue.claimId.value, known))
  {
    issues := [];
    for i := 0 to |ids|
      invariant issues == FlatMap(ids[..i], UnknownFinding(issue.validator, issue.claimId.value, known))
    {
      FlatMapNext(ids, UnknownFinding(issue.validator, issue.claimId.value, known), i);
      if ids[i] !in known {
        issues := issues + [issue];
      }
    }
    assert ids[..|ids|] == ids;
  }

  method UngroundedFindings(claim: Claim, findings: map<Id, Finding>, ch: Checks) returns (issues: seq<Issue>)
    ensures issues == FlatMap(claim.findingIds, Ungrounded(claim, findings, ch))
  {
    issues := [];
    for i := 0 to |claim.findingIds|
      invariant issues == FlatMap(claim.findingIds[..i], Ungrounded(claim, findings, ch))
    {
      FlatMapNext(claim.findingIds, Ungrounded(claim, findings, ch), i);
      var id := claim.findingIds[i];
      if id in findings {
        var f := findings[id];
        if !ch.blank(f.symbol) && !ch.mentions(claim.text, f.symbol)
           && !ch.blank(f.ruleId) && !ch.mentions(claim.text, f.ruleId) {
          issues := issues + [Fixable("V-GROUNDING", Some(claim.id), None)];
        }
      }
    }
    assert claim.findingIds[..|claim.findingIds|] == claim.findingIds;
  }

  method UnrelatedDocs(claim: Claim, findings: map<Id, Finding>, docs: map<Id, Doc>) returns (issues: seq<Issue>)
    ensures issues == FlatMap(claim.docIds, Unrelated(claim, findings, docs))
  {
    issues := [];
    var rules := CitedRules(claim, findings);
    for i := 0 to |claim.docIds|
      invariant issues == FlatMap(claim.docIds[..i], Unrelated(claim, findings, docs))
    {
      FlatMapNext(claim.docIds, Unrelated(claim, findings, docs), i);
      var id := claim.docIds[i];
      if id in docs && docs[id].relatedRules != {} && rules != {} && docs[id].relatedRules !! rules {
        issues := issues + [Fixable("V-EVIDENCE-COVERAGE", Some(claim.id), Some(id))];
      }
    }
    assert claim.docIds[..|claim.docIds|] == claim.docIds;
  }

  method ValidateFinding(f: Finding, pack: Pack, ch: Checks) returns (issues: seq<Issue>)
    ensures issues == FindingIssues(f, pack, ch)
  {
    issues := [];
    if f.packId != pack.id || f.packVersion != pack.version {
      issues := issues + [Structural("V-PACK", None, None)];
    }
    if f.ruleId !in pack.ruleIds {
      issues := issues + [Structural("V-RULE", None, None)];
    }
    var snippet := ValidateSnippet(f.snippet, f.symbol, ch);
    issues := issues + snippet;
  }

  method ValidateSnippet(s: Snippet, symbol: string, ch: Checks) returns (issues: seq<Issue>)
    ensures issues == SnippetIssues(s, symbol, ch)
  {
    var range, text := Structural("V-LINE-RANGE", None, None), Structural("V-SNIPPET", None, None);
    issues := [];
    if s.start.None? || s.end.None? || s.start.value < 1 || s.end.value < s.start.value {
      issues := issues + [range];
    }
    if ch.blank(s.text) || ch.lines(s.text) > MAX_SNIPPET_LINES {
      issues := issues + [text];
    }
    if s.start.Some? && s.end.Some? && s.end.value >= s.start.value {
      var expected := s.end.value - s.start.value + 1;
      var actual := if ch.blank(s.text) then 0 else ch.lines(s.text);
      if actual != expected {
        issues := issues + [range];
      }
    }
    if symbol != "" && !Contains(s.text, symbol) {
      issues := issues + [text];
    }
  }

  method ValidateDocumentation(d: Doc, pack: Pack, ch: Checks) returns (issues: seq<Issue>)
    ensures issues == DocIssues(d, pack, ch)
  {
    issues := [];
    if d.sourceId !in pack.sources {
      issues := issues + [Structural("V-SOURCE", None, Some(d.id))];
    } else if d.url != pack.sources[d.sourceId] || ch.domainOf(d.url) !in pack.domains {
      issues := issues + [Structural("V-SOURCE", None, Some(d.id))];
    }
    if ch.blank(d.excerpt) || ch.lines(d.excerpt) > MAX_EXCERPT_LINES {
      issues := issues + [Structural("V-SNIPPET", None, Some(d.id))];
    }
  }

  method ValidateFindings(c: Context, pack: Pack, ch: Checks) returns (issues: seq<Issue>)
    ensures issues == FlatMap(FirstAppearances(FindingIds(c.findings)), FindingFaults(FindingById(c.findings), pack, ch))
  {
    issues := [];
    var findings := FindingById(c.findings);
    var order := FirstAppearances(FindingIds(c.findings));
    for i := 0 to |order|
      invariant issues == FlatMap(order[..i], FindingFaults(findings, pack, ch))
    {
      FlatMapNext(order, FindingFaults(findings, pack, ch), i);
      KnownById(c, order[i]);
      var faults := ValidateFinding(findings[order[i]], pack, ch);
      issues := issues + faults;
    }
    assert order[..|order|] == order;
  }

  method ValidateDocs(c: Context, pack: Pack, ch: Checks) returns (issues: seq<Issue>)
    ensures issues == FlatMap(FirstAppearances(DocIds(c.docs)), DocFaults(DocById(c.docs), pack, ch))
  {
    issues := [];
    var docs := DocById(c.docs);
    var order := FirstAppearances(DocIds(c.docs));
    for i := 0 to |order|
      invariant issues == FlatMap(order[..i], DocFaults(docs, pack, ch))
    {
      FlatMapNext(order, DocFaults(docs, pack, ch), i);
      KnownById(c, order[i]);
      var faults := ValidateDocumentation(docs[order[i]], pack, ch);
      issues := issues + faults;
    }
    assert order[..|order|] == order;
  }

  method ValidateClaims(c: Context, ch: Checks) returns (issues: seq<Issue>)
    ensures issues == FlatMap(c.plan.claims, ClaimIssues(c, ch))
  {
    issues := [];
    var findings, docs := FindingById(c.findings), DocById(c.docs);
    for i := 0 to |c.plan.claims|
      invariant issues == FlatMap(c.plan.claims[..i], ClaimIssues(c, ch))
    {
      FlatMapNext(c.plan.claims, ClaimIssues(c, ch), i);
      var claim := c.plan.claims[i];
      var refs := ValidateClaimRefs(claim, findings.Keys, docs.Keys);
      var grounding := UngroundedFindings(claim, findings, ch);
      var related := UnrelatedDocs(claim, findings, docs);
      issues := issues + (refs + LanguageIssues(claim, c.dependencies, ch) + (grounding + related));
    }
    assert c.plan.claims[..|c.plan.claims|] == c.plan.claims;
  }

  method ValidatePlanEvidence(c: Context, ch: Checks) returns (issues: seq<Issue>)
    ensures issues == PlanIssues(c, ch)
  {
    issues := WhenIssue(!ch.schemaOk(c.plan), Fixable("V-SCHEMA", None, None));
    if c.pack.None? {
      return issues + [Structural("V-PACK", None, None)];
    }
    var pack := c.pack.value;
    var worklist := ValidatePlanFileWorklist(c.plan, Files(c));
    var findings := ValidateFindings(c, pack, ch);
    var docs := ValidateDocs(c, pack, ch);
    var risk := ValidateRisk(c.risk, FindingById(c.findings).Keys, pack.risk);
    var claims := ValidateClaims(c, ch);
    issues := issues + worklist + findings + docs + risk + claims;
  }

  lemma KnownById(c: Context, id: Id)
    ensures id in FirstAppearances(FindingIds(c.findings)) <==> id in FindingById(c.findings)
    ensures id in FirstAppearances(DocIds(c.docs)) <==> id in DocById(c.docs)
  {
    assert id in FindingIds(c.findings) <==> exists i :: 0 <= i < |c.findings| && c.findings[i].id == id by {
      assert forall i :: 0 <= i < |c.findings| ==> FindingIds(c.findings)[i] == c.findings[i].id;
    }
    assert id in DocIds(c.docs) <==> exists i :: 0 <= i < |c.docs| && c.docs[i].id == id by {
      assert forall i :: 0 <= i < |c.docs| ==> DocIds(c.docs)[i] == c.docs[i].id;
    }
  }

  // ---- What the issue list means --------------------------------------------------------------------

  /** The claim cites at least one finding and one document, and cites nothing unknown. */
  ghost predicate Grounded(claim: Claim, findings: set<Id>, docs: set<Id>) {
    && claim.findingIds != [] && claim.docIds != []
    && (forall id :: id in claim.findingIds ==> id in findings)
    && (forall id :: id in claim.docIds ==> id in docs)
    && (forall id :: id in claim.repoIds ==> id in findings)
  }

  /** The assessment exists, is unclipped and bounded, of its migration pack's version, and supported by known findings. */
  ghost predicate SoundRisk(risk: Option<Assessment>, known: set<Id>, rules: RiskRules) {
    && risk.Some?
    && PointsSum(risk.value.components) <= risk.value.total <= rules.maxPoints
    && risk.value.version == rules.version
    && forall component, id :: component in risk.value.components && id in component.supporting && id != "" ==> id in known
  }

  ghost predicate KnownWorklist(plan: Plan, known: set<string>) {
    known != {} ==> forall path :: path in plan.worklist && path != "" ==> path in known
  }

  ghost predicate NoStructural(issues: seq<Issue>) {
    forall issue :: issue in issues ==> issue.repairable
  }

  /**
   The finding comes from this migration pack and one of its rules, and its snippet is what its line range says:
   so many lines, not more than eight, with the symbol in them.
   */
  predicate CleanFinding(f: Finding, pack: Pack, ch: Checks) {
    var s := f.snippet;
    && f.packId == pack.id && f.packVersion == pack.version && f.ruleId in pack.ruleIds
    && s.start.Some? && s.end.Some? && 1 <= s.start.value
    && !ch.blank(s.text) && 1 <= ch.lines(s.text) == s.end.value - s.start.value + 1 <= 8
    && (f.symbol == "" || Contains(s.text, f.symbol))
  }

  /** The document is an excerpt, neither blank nor too long, from the canonical page of a trusted source. */
  predicate CleanDoc(d: Doc, pack: Pack, ch: Checks) {
    FromSource(d, pack, ch) && !ch.blank(d.excerpt) && ch.lines(d.excerpt) <= 20
  }

  /** The last finding and the last document of every id are in order. */
  ghost predicate CleanFields(c: Context, pack: Pack, ch: Checks) {
    var findings, docs := FindingById(c.findings), DocById(c.docs);
    && (forall id :: id in findings ==> CleanFinding(findings[id], pack, ch))
    && (forall id :: id in docs ==> CleanDoc(docs[id], pack, ch))
  }

  lemma SnippetIssuesIff(s: Snippet, symbol: string, ch: Checks)
    ensures SnippetIssues(s, symbol, ch) == [] <==>
              && s.start.Some? && s.end.Some? && 1 <= s.start.value
              && !ch.blank(s.text) && 1 <= ch.lines(s.text) == s.end.value - s.start.value + 1 <= 8
              && (symbol == "" || Contains(s.text, symbol))
    ensures forall issue :: issue in SnippetIssues(s, symbol, ch) ==> !issue.repairable
  {
  }

  /** A finding raises no issue exactly when it is in order, and every issue it raises is beyond repair. */
  lemma FindingIssuesIff(f: Finding, pack: Pack, ch: Checks)
    ensures FindingIssues(f, pack, ch) == [] <==> CleanFinding(f, pack, ch)
    ensures forall issue :: issue in FindingIssues(f, pack, ch) ==> !issue.repairable
  {
    SnippetIssuesIff(f.snippet, f.symbol, ch);
  }

  lemma DocIssuesIff(d: Doc, pack: Pack, ch: Checks)
    ensures DocIssues(d, pack, ch) == [] <==> CleanDoc(d, pack, ch)
    ensures forall issue :: issue in DocIssues(d, pack, ch) ==> !issue.repairable
  {
  }

  ghost predicate AllowedLanguage(claim: Claim, dependencies: seq<string>, ch: Checks) {
    !ch.saysExecuted(claim.text) && !ch.saysHours(claim.text) && !ch.unsupportedVersion(claim.text, dependencies)
  }

  lemma UnknownIff(ids: seq<Id>, known: set<Id>, issue: Id -> seq<Issue>)
    requires forall id :: issue(id) == [] <==> id in known
    requires forall id, i :: i in issue(id) ==> !i.repairable
    ensures FlatMap(ids, issue) == [] <==> forall id :: id in ids ==> id in known
    ensures forall i :: i in FlatMap(ids, issue) ==> !i.repairable
  {
    FlatMapEmpty(ids, issue);
    AllStructural(ids, issue);
  }

  lemma RefIssuesIff(claim: Claim, findings: set<Id>, docs: set<Id>)
    ensures RefIssues(claim, findings, docs) == [] <==> Grounded(claim, findings, docs)
    ensures NoStructural(RefIssues(claim, findings, docs)) ==> RefIssues(claim, findings, docs) == []
  {
    UnknownIff(claim.findingIds, findings, UnknownFinding("V-FINDING-REF", claim.id, findings));
    UnknownIff(claim.docIds, docs, UnknownDoc(claim.id, docs));
    UnknownIff(claim.repoIds, findings, UnknownFinding("V-REPOSITORY-EVIDENCE", claim.id, findings));
    FirstMember(RefIssues(claim, findings, docs));
  }

  lemma FirstMember(issues: seq<Issue>)
    ensures issues != [] ==> issues[0] in issues
  {
  }

  lemma AllStructural<A>(xs: seq<A>, f: A -> seq<Issue>)
    requires forall x, issue :: issue in f(x) ==> !issue.repairable
    ensures forall issue :: issue in FlatMap(xs, f) ==> !issue.repairable
  {
    forall issue | issue in FlatMap(xs, f)
      ensures !issue.repairable
    {
      FlatMapMember(xs, f, issue);
    }
  }

  lemma AllFixable<A>(xs: seq<A>, f: A -> seq<Issue>)
    requires forall x :: x in xs ==> NoStructural(f(x))
    ensures NoStructural(FlatMap(xs, f))
  {
    forall issue | issue in FlatMap(xs, f)
      ensures issue.repairable
    {
      FlatMapMember(xs, f, issue);
    }
  }

  lemma NoStructuralInside<A>(xs: seq<A>, f: A -> seq<Issue>)
    requires NoStructural(FlatMap(xs, f))
    ensures forall x :: x in xs ==> NoStructural(f(x))
  {
    forall x, issue | x in xs && issue in f(x)
      ensures issue.repairable
    {
      FlatMapMember(xs, f, issue);
    }
  }

  lemma RiskIssuesIff(risk: Option<Assessment>, known: set<Id>, rules: RiskRules)
    ensures RiskIssues(risk, known, rules) == [] <==> SoundRisk(risk, known, rules)
    ensures NoStructural(RiskIssues(risk, known, rules)) ==> RiskIssues(risk, known, rules) == []
  {
    if risk.Some? {
      var components := risk.value.components;
      SupportIssuesIff(components, known);
      FirstMember(RiskIssues(risk, known, rules));
    } else {
      FirstMember(RiskIssues(risk, known, rules));
    }
  }

  lemma SupportIssuesIff(components: seq<Component>, known: set<Id>)
    ensures FlatMap(components, ComponentSupport(known)) == [] <==>
              forall component, id :: component in components && id in component.supporting && id != "" ==> id in known
    ensures forall issue :: issue in FlatMap(components, ComponentSupport(known)) ==> !issue.repairable
  {
    FlatMapEmpty(components, ComponentSupport(known));
    forall component: Component
      ensures ComponentSupport(known)(component) == [] <==>
                forall id :: id in component.supporting && id != "" ==> id in known
      ensures forall issue :: issue in ComponentSupport(known)(component) ==> !issue.repairable
    {
      FlatMapEmpty(component.supporting, UnknownSupport(known));
      AllStructural(component.supporting, UnknownSupport(known));
    }
    AllStructural(components, ComponentSupport(known));
  }

  lemma WorklistIff(plan: Plan, known: set<string>)
    ensures FlatMap(plan.worklist, FileRef(known)) == [] <==> KnownWorklist(plan, known)
    ensures NoStructural(FlatMap(plan.worklist, FileRef(known))) ==> FlatMap(plan.worklist, FileRef(known)) == []
  {
    FlatMapEmpty(plan.worklist, FileRef(known));
    AllStructural(plan.worklist, FileRef(known));
    FirstMember(FlatMap(plan.worklist, FileRef(known)));
  }

  lemma ClaimIssuesStructural(c: Context, ch: Checks, claim: Claim)
    ensures NoStructural(ClaimIssues(c, ch)(claim)) <==>
              Grounded(claim, FindingById(c.findings).Keys, DocById(c.docs).Keys)
              && AllowedLanguage(claim, c.dependencies, ch)
  {
    var findings, docs := FindingById(c.findings), DocById(c.docs);
    var refs, language, coverage :=
      RefIssues(claim, findings.Keys, docs.Keys), LanguageIssues(claim, c.dependencies, ch), CoverageIssues(claim, findings, docs, ch);
    assert ClaimIssues(c, ch)(claim) == refs + language + coverage;
    NoStructuralJoin(refs, language);
    NoStructuralJoin(refs + language, coverage);
    RefIssuesIff(claim, findings.Keys, docs.Keys);
    LanguageStructural(claim, c.dependencies, ch);
    CoverageIsFixable(claim, findings, docs, ch);
  }

  lemma CoverageIsFixable(claim: Claim, findings: map<Id, Finding>, docs: map<Id, Doc>, ch: Checks)
    ensures NoStructural(CoverageIssues(claim, findings, docs, ch))
  {
    AllFixable(claim.findingIds, Ungrounded(claim, findings, ch));
    AllFixable(claim.docIds, Unrelated(claim, findings, docs));
    NoStructuralJoin(FlatMap(claim.findingIds, Ungrounded(claim, findings, ch)),
                     FlatMap(claim.docIds, Unrelated(claim, findings, docs)));
  }

  /** Every cited finding that has both a symbol and a rule is named by one of them. */
  ghost predicate NamesFindings(claim: Claim, findings: map<Id, Finding>, ch: Checks) {
    forall id :: id in claim.findingIds && id in findings ==>
      var f := findings[id];
      ch.blank(f.symbol) || ch.blank(f.ruleId) || ch.mentions(claim.text, f.symbol) || ch.mentions(claim.text, f.ruleId)
  }

  /** The document lists no rules, or lists the rule of a cited finding, or no finding cited is known. */
  ghost predicate Relates(claim: Claim, findings: map<Id, Finding>, doc: Doc) {
    || doc.relatedRules == {}
    || (exists id :: id in claim.findingIds && id in findings && findings[id].ruleId in doc.relatedRules)
    || (forall id :: id in claim.findingIds ==> id !in findings)
  }

  lemma UnrelatedIff(claim: Claim, findings: map<Id, Finding>, docs: map<Id, Doc>, id: Id)
    ensures Unrelated(claim, findings, docs)(id) == [] <==> (id in docs ==> Relates(claim, findings, docs[id]))
  {
    var rules := CitedRules(claim, findings);
    assert forall cited :: cited in claim.findingIds && cited in findings ==> findings[cited].ruleId in rules;
    if id in docs && docs[id].relatedRules !! rules {
      assert forall rule :: rule in docs[id].relatedRules ==> rule !in rules;
    }
  }

  /** The text names the findings, and the documents relate to them. */
  ghost predicate Covered(claim: Claim, findings: map<Id, Finding>, docs: map<Id, Doc>, ch: Checks) {
    && NamesFindings(claim, findings, ch)
    && forall id :: id in claim.docIds && id in docs ==> Relates(claim, findings, docs[id])
  }

  lemma CoverageIff(claim: Claim, findings: map<Id, Finding>, docs: map<Id, Doc>, ch: Checks)
    ensures CoverageIssues(claim, findings, docs, ch) == [] <==> Covered(claim, findings, docs, ch)
  {
    FlatMapEmpty(claim.findingIds, Ungrounded(claim, findings, ch));
    FlatMapEmpty(claim.docIds, Unrelated(claim, findings, docs));
    forall id
      ensures Unrelated(claim, findings, docs)(id) == [] <==> (id in docs ==> Relates(claim, findings, docs[id]))
    {
      UnrelatedIff(claim, findings, docs, id);
    }
  }

  lemma LanguageStructural(claim: Claim, dependencies: seq<string>, ch: Checks)
    ensures NoStructural(LanguageIssues(claim, dependencies, ch)) <==> AllowedLanguage(claim, dependencies, ch)
  {
    var banned, version :=
      Structural("V-PROHIBITED-CLAIM", Some(claim.id), None), Structural("V-VERSION", Some(claim.id), None);
    assert ch.saysExecuted(claim.text) || ch.saysHours(claim.text) ==> banned in LanguageIssues(claim, dependencies, ch);
    assert ch.unsupportedVersion(claim.text, dependencies) ==> version in LanguageIssues(claim, dependencies, ch);
  }

  /**
   When the validator does not fail a plan outright, in particular whenever it lets the repair pass run:
   exactly when the migration pack is known, the worklist and the risk assessment check out, every finding and
   every document is in order, and every claim is grounded and says nothing forbidden.
   */
  lemma NotStructuralIff(c: Context, ch: Checks)
    ensures OutcomeOf(PlanIssues(c, ch)) != StructuralFailure <==>
              && c.pack.Some?
              && KnownWorklist(c.plan, Files(c)) && CleanFields(c, c.pack.value, ch)
              && SoundRisk(c.risk, FindingById(c.findings).Keys, c.pack.value.risk)
              && forall claim :: claim in c.plan.claims ==>
                   && Grounded(claim, FindingById(c.findings).Keys, DocById(c.docs).Keys)
                   && AllowedLanguage(claim, c.dependencies, ch)
  {
    OutcomeStructural(PlanIssues(c, ch));
    var schema := WhenIssue(!ch.schemaOk(c.plan), Fixable("V-SCHEMA", None, None));
    match c.pack
    case None =>
      assert Structural("V-PACK", None, None) in PlanIssues(c, ch);
    case Some(pack) =>
      WorklistIff(c.plan, Files(c));
      RiskIssuesIff(c.risk, FindingById(c.findings).Keys, pack.risk);
      FieldsIff(c, pack, ch);
      ClaimsIff(c, ch);
      PartsOfPlanIssues(c, ch, pack);
  }

  /** What a claim has to satisfy for the validator to have nothing to say about it. */
  ghost predicate CleanClaim(claim: Claim, findings: map<Id, Finding>, docs: map<Id, Doc>, dependencies: seq<string>, ch: Checks) {
    && Grounded(claim, findings.Keys, docs.Keys)
    && AllowedLanguage(claim, dependencies, ch) && !ch.overstates(claim.text)
    && Covered(claim, findings, docs, ch)
  }

  lemma EmptyJoin(a: seq<Issue>, b: seq<Issue>, c: seq<Issue>)
    ensures a + b + c == [] <==> a == [] && b == [] && c == []
  {
    assert |a + b + c| == |a| + |b| + |c|;
  }

  lemma ClaimIssuesIff(c: Context, ch: Checks, claim: Claim)
    ensures ClaimIssues(c, ch)(claim) == [] <==>
              CleanClaim(claim, FindingById(c.findings), DocById(c.docs), c.dependencies, ch)
  {
    var findings, docs := FindingById(c.findings), DocById(c.docs);
    var refs, language, coverage :=
      RefIssues(claim, findings.Keys, docs.Keys), LanguageIssues(claim, c.dependencies, ch), CoverageIssues(claim, findings, docs, ch);
    assert ClaimIssues(c, ch)(claim) == refs + language + coverage;
    EmptyJoin(refs, language, coverage);
    CleanIff(claim, findings, docs, c.dependencies, ch);
  }

  lemma CleanIff(claim: Claim, findings: map<Id, Finding>, docs: map<Id, Doc>, dependencies: seq<string>, ch: Checks)
    ensures CleanClaim(claim, findings, docs, dependencies, ch) <==>
              && RefIssues(claim, findings.Keys, docs.Keys) == []
              && LanguageIssues(claim, dependencies, ch) == []
              && CoverageIssues(claim, findings, docs, ch) == []
  {
    RefIssuesIff(claim, findings.Keys, docs.Keys);
    LanguageIff(claim, dependencies, ch);
    CoverageIff(claim, findings, docs, ch);
  }

  lemma LanguageIff(claim: Claim, dependencies: seq<string>, ch: Checks)
    ensures LanguageIssues(claim, dependencies, ch) == [] <==>
              && AllowedLanguage(claim, dependencies, ch) && !ch.overstates(claim.text)
              && (ch.recommends(claim.text) ==> claim.findingIds != [] && claim.docIds != [])
  {
  }

  lemma CleanFieldsIff(c: Context, pack: Pack, ch: Checks)
    ensures CleanFields(c, pack, ch) <==>
              && FlatMap(FirstAppearances(FindingIds(c.findings)), FindingFaults(FindingById(c.findings), pack, ch)) == []
              && FlatMap(FirstAppearances(DocIds(c.docs)), DocFaults(DocById(c.docs), pack, ch)) == []
  {
    CleanFindingsIff(c, pack, ch, FindingById(c.findings));
    CleanDocsIff(c, pack, ch, DocById(c.docs));
  }

  lemma CleanFindingsIff(c: Context, pack: Pack, ch: Checks, findings: map<Id, Finding>)
    requires findings == FindingById(c.findings)
    ensures FlatMap(FirstAppearances(FindingIds(c.findings)), FindingFaults(findings, pack, ch)) == []
            <==> forall id :: id in findings ==> CleanFinding(findings[id], pack, ch)
  {
    var order := FirstAppearances(FindingIds(c.findings));
    FlatMapEmpty(order, FindingFaults(findings, pack, ch));
    forall id
      ensures id in order <==> id in findings
    {
      KnownById(c, id);
    }
    forall id | id in findings
      ensures FindingFaults(findings, pack, ch)(id) == [] <==> CleanFinding(findings[id], pack, ch)
    {
      FindingIssuesIff(findings[id], pack, ch);
    }
  }

  lemma CleanDocsIff(c: Context, pack: Pack, ch: Checks, docs: map<Id, Doc>)
    requires docs == DocById(c.docs)
    ensures FlatMap(FirstAppearances(DocIds(c.docs)), DocFaults(docs, pack, ch)) == []
            <==> forall id :: id in docs ==> CleanDoc(docs[id], pack, ch)
  {
    var order := FirstAppearances(DocIds(c.docs));
    FlatMapEmpty(order, DocFaults(docs, pack, ch));
    forall id
      ensures id in order <==> id in docs
    {
      KnownById(c, id);
    }
    forall id | id in docs
      ensures DocFaults(docs, pack, ch)(id) == [] <==> CleanDoc(docs[id], pack, ch)
    {
      DocIssuesIff(docs[id], pack, ch);
    }
  }

  /**
   When a plan passes: exactly when its schema holds, the migration pack is known, the worklist and the risk
   assessment check out, every finding and document is in order, and every claim is grounded, says nothing
   forbidden or overstated, names the findings it cites and cites documents related to them.
   */
  lemma PassIff(c: Context, ch: Checks)
    ensures OutcomeOf(PlanIssues(c, ch)) == Pass <==>
              && ch.schemaOk(c.plan) && c.pack.Some?
              && KnownWorklist(c.plan, Files(c)) && CleanFields(c, c.pack.value, ch)
              && SoundRisk(c.risk, FindingById(c.findings).Keys, c.pack.value.risk)
              && forall claim :: claim in c.plan.claims ==>
                   CleanClaim(claim, FindingById(c.findings), DocById(c.docs), c.dependencies, ch)
  {
    OutcomeStructural(PlanIssues(c, ch));
    if c.pack.Some? {
      var pack := c.pack.value;
      WorklistIff(c.plan, Files(c));
      RiskIssuesIff(c.risk, FindingById(c.findings).Keys, pack.risk);
      CleanFieldsIff(c, pack, ch);
      CleanClaimsIff(c, ch);
      EmptyParts(c, ch, pack);
    }
  }

  lemma CleanClaimsIff(c: Context, ch: Checks)
    ensures FlatMap(c.plan.claims, ClaimIssues(c, ch)) == [] <==>
              forall claim :: claim in c.plan.claims ==>
                   CleanClaim(claim, FindingById(c.findings), DocById(c.docs), c.dependencies, ch)
  {
    FlatMapEmpty(c.plan.claims, ClaimIssues(c, ch));
    forall claim: Claim
      ensures ClaimIssues(c, ch)(claim) == [] <==>
                CleanClaim(claim, FindingById(c.findings), DocById(c.docs), c.dependencies, ch)
    {
      ClaimIssuesIff(c, ch, claim);
    }
  }

  /** The issue list is empty exactly when every part of it is. */
  lemma EmptyParts(c: Context, ch: Checks, pack: Pack)
    requires c.pack == Some(pack)
    ensures PlanIssues(c, ch) == [] <==>
              && ch.schemaOk(c.plan)
              && FlatMap(c.plan.worklist, FileRef(Files(c))) == []
              && FlatMap(FirstAppearances(FindingIds(c.findings)), FindingFaults(FindingById(c.findings), pack, ch)) == []
              && FlatMap(FirstAppearances(DocIds(c.docs)), DocFaults(DocById(c.docs), pack, ch)) == []
              && RiskIssues(c.risk, FindingById(c.findings).Keys, pack.risk) == []
              && FlatMap(c.plan.claims, ClaimIssues(c, ch)) == []
  {
    var s := WhenIssue(!ch.schemaOk(c.plan), Fixable("V-SCHEMA", None, None));
    var w := FlatMap(c.plan.worklist, FileRef(Files(c)));
    var f := FlatMap(FirstAppearances(FindingIds(c.findings)), FindingFaults(FindingById(c.findings), pack, ch));
    var d := FlatMap(FirstAppearances(DocIds(c.docs)), DocFaults(DocById(c.docs), pack, ch));
    var r := RiskIssues(c.risk, FindingById(c.findings).Keys, pack.risk);
    var p := FlatMap(c.plan.claims, ClaimIssues(c, ch));
    assert PlanIssues(c, ch) == s + w + f + d + r + p;
    assert |PlanIssues(c, ch)| == |s| + |w| + |f| + |d| + |r| + |p|;
  }

  lemma OutcomeStructural(issues: seq<Issue>)
    ensures OutcomeOf(issues) != StructuralFailure <==> NoStructural(issues)
    ensures OutcomeOf(issues) == Pass <==> issues == []
  {
    FirstMember(issues);
  }

  /** The issue list has a structural issue exactly when one of its parts has. */
  lemma PartsOfPlanIssues(c: Context, ch: Checks, pack: Pack)
    requires c.pack == Some(pack)
    ensures NoStructural(PlanIssues(c, ch)) <==>
              && NoStructural(FlatMap(c.plan.worklist, FileRef(Files(c))))
              && NoStructural(FlatMap(FirstAppearances(FindingIds(c.findings)), FindingFaults(FindingById(c.findings), pack, ch)))
              && NoStructural(FlatMap(FirstAppearances(DocIds(c.docs)), DocFaults(DocById(c.docs), pack, ch)))
              && NoStructural(RiskIssues(c.risk, FindingById(c.findings).Keys, pack.risk))
              && NoStructural(FlatMap(c.plan.claims, ClaimIssues(c, ch)))
  {
    var s := WhenIssue(!ch.schemaOk(c.plan), Fixable("V-SCHEMA", None, None));
    var w := FlatMap(c.plan.worklist, FileRef(Files(c)));
    var f := FlatMap(FirstAppearances(FindingIds(c.findings)), FindingFaults(FindingById(c.findings), pack, ch));
    var d := FlatMap(FirstAppearances(DocIds(c.docs)), DocFaults(DocById(c.docs), pack, ch));
    var r := RiskIssues(c.risk, FindingById(c.findings).Keys, pack.risk);
    var p := FlatMap(c.plan.claims, ClaimIssues(c, ch));
    assert PlanIssues(c, ch) == s + w + f + d + r + p;
    NoStructuralJoin(s, w);
    NoStructuralJoin(s + w, f);
    NoStructuralJoin(s + w + f, d);
    NoStructuralJoin(s + w + f + d, r);
    NoStructuralJoin(s + w + f + d + r, p);
  }

  lemma NoStructuralJoin(a: seq<Issue>, b: seq<Issue>)
    ensures NoStructural(a + b) <==> NoStructural(a) && NoStructural(b)
  {
    assert forall issue :: issue in a + b <==> issue in a || issue in b;
  }

  /** Every issue of the field checks is beyond repair. */
  lemma FieldsIff(c: Context, pack: Pack, ch: Checks)
    ensures CleanFields(c, pack, ch) <==>
              && NoStructural(FlatMap(FirstAppearances(FindingIds(c.findings)), FindingFaults(FindingById(c.findings), pack, ch)))
              && NoStructural(FlatMap(FirstAppearances(DocIds(c.docs)), DocFaults(DocById(c.docs), pack, ch)))
  {
    CleanFieldsIff(c, pack, ch);
    FindingFaultsStructural(FirstAppearances(FindingIds(c.findings)), FindingById(c.findings), pack, ch);
    DocFaultsStructural(FirstAppearances(DocIds(c.docs)), DocById(c.docs), pack, ch);
  }

  lemma FindingFaultsStructural(order: seq<Id>, findings: map<Id, Finding>, pack: Pack, ch: Checks)
    ensures NoStructural(FlatMap(order, FindingFaults(findings, pack, ch))) <==> FlatMap(order, FindingFaults(findings, pack, ch)) == []
  {
    forall id, issue | issue in FindingFaults(findings, pack, ch)(id)
      ensures !issue.repairable
    {
      assert id in findings;
      FindingIssuesIff(findings[id], pack, ch);
    }
    AllStructural(order, FindingFaults(findings, pack, ch));
    FirstMember(FlatMap(order, FindingFaults(findings, pack, ch)));
  }

  lemma DocFaultsStructural(order: seq<Id>, docs: map<Id, Doc>, pack: Pack, ch: Checks)
    ensures NoStructural(FlatMap(order, DocFaults(docs, pack, ch))) <==> FlatMap(order, DocFaults(docs, pack, ch)) == []
  {
    forall id, issue | issue in DocFaults(docs, pack, ch)(id)
      ensures !issue.repairable
    {
      assert id in docs;
      DocIssuesIff(docs[id], pack, ch);
    }
    AllStructural(order, DocFaults(docs, pack, ch));
    FirstMember(FlatMap(order, DocFaults(docs, pack, ch)));
  }

  lemma Inside<A>(xs: seq<A>, f: A -> seq<Issue>)
    ensures NoStructural(FlatMap(xs, f)) <==> forall x :: x in xs ==> NoStructural(f(x))
  {
    if forall x :: x in xs ==> NoStructural(f(x)) {
      AllFixable(xs, f);
    }
    if NoStructural(FlatMap(xs, f)) {
      NoStructuralInside(xs, f);
    }
  }

  lemma ClaimsIff(c: Context, ch: Checks)
    ensures NoStructural(FlatMap(c.plan.claims, ClaimIssues(c, ch))) <==>
              forall claim :: claim in c.plan.claims ==>
                && Grounded(claim, FindingById(c.findings).Keys, DocById(c.docs).Keys)
                && AllowedLanguage(claim, c.dependencies, ch)
  {
    Inside(c.plan.claims, ClaimIssues(c, ch));
    forall claim: Claim
      ensures NoStructural(ClaimIssues(c, ch)(claim)) <==>
                Grounded(claim, FindingById(c.findings).Keys, DocById(c.docs).Keys)
                && AllowedLanguage(claim, c.dependencies, ch)
    {
      ClaimIssuesStructural(c, ch, claim);
    }
  }

  // ---- Which issues are reported ------------------------------------------------------------------------

  lemma ContainsIff(text: string, part: string)
    ensures Contains(text, part) <==> exists before, after :: text == before + part + after
  {
    if Contains(text, part) {
      var i :| 0 <= i <= |text| && part <= text[i..];
      assert text == text[..i] + part + text[i + |part|..];
    }
    if before, after :| text == before + part + after {
      assert text[|before|..] == part + after;
    }
  }

  /** The ids are listed in the order of their first appearance: appending ids appends only what is new. */
  lemma FirstAppearancesKeepOrder(ids: seq<Id>, id: Id)
    ensures FirstAppearances(ids + [id]) == FirstAppearances(ids) + if id == "" || id in ids then [] else [id]
  {
    assert (ids + [id])[..|ids|] == ids;
  }

  ghost predicate FileReported(c: Context, issue: Issue) {
    && issue == Issue("V-FILE-REF", false, None, None)
    && (c.pythonFiles != {} || c.findings != [])
    && exists path :: path in c.plan.worklist && path != "" && path !in c.pythonFiles
                      && forall f :: f in c.findings ==> f.file != path
  }

  ghost predicate FindingReported(f: Finding, pack: Pack, ch: Checks, issue: Issue) {
    var s := f.snippet;
    || (issue == Issue("V-PACK", false, None, None) && !(f.packId == pack.id && f.packVersion == pack.version))
    || (issue == Issue("V-RULE", false, None, None) && f.ruleId !in pack.ruleIds)
    || (issue == Issue("V-LINE-RANGE", false, None, None)
        && !(s.start.Some? && s.end.Some? && 1 <= s.start.value <= s.end.value
             && (if ch.blank(s.text) then 0 else ch.lines(s.text)) == s.end.value - s.start.value + 1))
    || (issue == Issue("V-SNIPPET", false, None, None)
        && !(!ch.blank(s.text) && ch.lines(s.text) <= 8 && (f.symbol == "" || Contains(s.text, f.symbol))))
  }

  ghost predicate DocReported(d: Doc, pack: Pack, ch: Checks, issue: Issue) {
    || (issue == Issue("V-SOURCE", false, None, Some(d.id))
        && !(d.sourceId in pack.sources && d.url == pack.sources[d.sourceId] && ch.domainOf(d.url) in pack.domains))
    || (issue == Issue("V-SNIPPET", false, None, Some(d.id)) && !(!ch.blank(d.excerpt) && ch.lines(d.excerpt) <= 20))
  }

  /** What a claim cites wrongly. */
  ghost predicate RefReported(claim: Claim, findings: set<Id>, docs: set<Id>, issue: Issue) {
    || (issue == Issue("V-FINDING-REF", false, Some(claim.id), None) && claim.findingIds == [])
    || (issue == Issue("V-EVIDENCE", false, Some(claim.id), None) && claim.docIds == [])
    || (issue == Issue("V-FINDING-REF", false, Some(claim.id), None) && exists id :: id in claim.findingIds && id !in findings)
    || (exists id :: issue == Issue("V-EVIDENCE", false, Some(claim.id), Some(id)) && id in claim.docIds && id !in docs)
    || (issue == Issue("V-REPOSITORY-EVIDENCE", false, Some(claim.id), None) && exists id :: id in claim.repoIds && id !in findings)
  }

  /** What a claim says wrongly. */
  ghost predicate LanguageReported(claim: Claim, dependencies: seq<string>, ch: Checks, issue: Issue) {
    || (issue == Issue("V-PROHIBITED-CLAIM", false, Some(claim.id), None) && (ch.saysExecuted(claim.text) || ch.saysHours(claim.text)))
    || (issue == Issue("V-PROHIBITED-CLAIM", true, Some(claim.id), None) && ch.overstates(claim.text))
    || (issue == Issue("V-EVIDENCE-COVERAGE", true, Some(claim.id), None)
        && ch.recommends(claim.text) && (claim.findingIds == [] || claim.docIds == []))
    || (issue == Issue("V-VERSION", false, Some(claim.id), None) && ch.unsupportedVersion(claim.text, dependencies))
  }

  /** What the text of a claim does not cover. */
  ghost predicate CoverageReported(claim: Claim, findings: map<Id, Finding>, docs: map<Id, Doc>, ch: Checks, issue: Issue) {
    || (issue == Issue("V-GROUNDING", true, Some(claim.id), None) && !NamesFindings(claim, findings, ch))
    || (exists id :: issue == Issue("V-EVIDENCE-COVERAGE", true, Some(claim.id), Some(id))
                     && id in claim.docIds && id in docs && !Relates(claim, findings, docs[id]))
  }

  ghost predicate ClaimReported(
    claim: Claim, findings: map<Id, Finding>, docs: map<Id, Doc>, dependencies: seq<string>, ch: Checks, issue: Issue) {
    || RefReported(claim, findings.Keys, docs.Keys, issue)
    || LanguageReported(claim, dependencies, ch, issue)
    || CoverageReported(claim, findings, docs, ch, issue)
  }

  /** Every issue there is cause for: its validator, whether a repair may answer it, and what it names. */
  ghost predicate Reported(c: Context, ch: Checks, issue: Issue) {
    var findings, docs := FindingById(c.findings), DocById(c.docs);
    || (issue == Issue("V-SCHEMA", true, None, None) && !ch.schemaOk(c.plan))
    || (issue == Issue("V-PACK", false, None, None) && c.pack == None)
    || (c.pack.Some? && FileReported(c, issue))
    || (c.pack.Some? && exists id :: id in findings && FindingReported(findings[id], c.pack.value, ch, issue))
    || (c.pack.Some? && exists id :: id in docs && DocReported(docs[id], c.pack.value, ch, issue))
    || (c.pack.Some? && issue == Issue("V-RISK", false, None, None)
        && !SoundRisk(c.risk, findings.Keys, c.pack.value.risk))
    || (c.pack.Some? && exists claim :: claim in c.plan.claims && ClaimReported(claim, findings, docs, c.dependencies, ch, issue))
  }

  lemma FileIssuesAre(c: Context, issue: Issue)
    ensures issue in FlatMap(c.plan.worklist, FileRef(Files(c))) <==> FileReported(c, issue)
  {
    var known := Files(c);
    FlatMapMember(c.plan.worklist, FileRef(known), issue);
    assert forall path :: path in known <==> path in c.pythonFiles || exists f :: f in c.findings && f.file == path;
    if c.findings != [] {
      assert c.findings[0].file in known;
    }
  }

  lemma FindingIssuesAre(f: Finding, pack: Pack, ch: Checks, issue: Issue)
    ensures issue in FindingIssues(f, pack, ch) <==> FindingReported(f, pack, ch, issue)
  {
    OriginIssuesAre(f, pack, issue);
    SnippetIssuesAre(f.snippet, f.symbol, ch, issue);
  }

  lemma OriginIssuesAre(f: Finding, pack: Pack, issue: Issue)
    ensures issue in OriginIssues(f, pack) <==>
              || (issue == Issue("V-PACK", false, None, None) && !(f.packId == pack.id && f.packVersion == pack.version))
              || (issue == Issue("V-RULE", false, None, None) && f.ruleId !in pack.ruleIds)
  {
  }

  lemma SnippetIssuesAre(s: Snippet, symbol: string, ch: Checks, issue: Issue)
    ensures issue in SnippetIssues(s, symbol, ch) <==>
              || (issue == Issue("V-LINE-RANGE", false, None, None)
                  && !(s.start.Some? && s.end.Some? && 1 <= s.start.value <= s.end.value
                       && (if ch.blank(s.text) then 0 else ch.lines(s.text)) == s.end.value - s.start.value + 1))
              || (issue == Issue("V-SNIPPET", false, None, None)
                  && !(!ch.blank(s.text) && ch.lines(s.text) <= 8 && (symbol == "" || Contains(s.text, symbol))))
  {
  }

  lemma DocIssuesAre(d: Doc, pack: Pack, ch: Checks, issue: Issue)
    ensures issue in DocIssues(d, pack, ch) <==> DocReported(d, pack, ch, issue)
  {
  }

  lemma RiskIssuesAre(risk: Option<Assessment>, known: set<Id>, rules: RiskRules, issue: Issue)
    ensures issue in RiskIssues(risk, known, rules) <==>
              issue == Issue("V-RISK", false, None, None) && !SoundRisk(risk, known, rules)
  {
    RiskIssuesIff(risk, known, rules);
    RiskIssuesAlike(risk, known, rules);
    FirstMember(RiskIssues(risk, known, rules));
  }

  lemma RiskIssuesAlike(risk: Option<Assessment>, known: set<Id>, rules: RiskRules)
    ensures forall issue :: issue in RiskIssues(risk, known, rules) ==> issue == Issue("V-RISK", false, None, None)
  {
    if risk.Some? {
      var components := risk.value.components;
      forall issue | issue in FlatMap(components, ComponentSupport(known))
        ensures issue == Issue("V-RISK", false, None, None)
      {
        FlatMapMember(components, ComponentSupport(known), issue);
        var component :| component in components && issue in FlatMap(component.supporting, UnknownSupport(known));
        FlatMapMember(component.supporting, UnknownSupport(known), issue);
      }
    }
  }

  lemma UnknownFindingsAre(validator: string, claimId: Id, ids: seq<Id>, known: set<Id>, issue: Issue)
    ensures issue in FlatMap(ids, UnknownFinding(validator, claimId, known)) <==>
              issue == Issue(validator, false, Some(claimId), None) && exists id :: id in ids && id !in known
  {
    FlatMapMember(ids, UnknownFinding(validator, claimId, known), issue);
  }

  lemma UnknownDocsAre(claimId: Id, ids: seq<Id>, known: set<Id>, issue: Issue)
    ensures issue in FlatMap(ids, UnknownDoc(claimId, known)) <==>
              exists id :: issue == Issue("V-EVIDENCE", false, Some(claimId), Some(id)) && id in ids && id !in known
  {
    FlatMapMember(ids, UnknownDoc(claimId, known), issue);
  }

  lemma FiveParts<T>(a: seq<T>, b: seq<T>, c: seq<T>, d: seq<T>, e: seq<T>, x: T)
    ensures x in a + b + c + d + e <==> x in a || x in b || x in c || x in d || x in e
  {
  }

  lemma RefIssuesAre(claim: Claim, findings: set<Id>, docs: set<Id>, issue: Issue)
    ensures issue in RefIssues(claim, findings, docs) <==> RefReported(claim, findings, docs, issue)
  {
    var a := WhenIssue(claim.findingIds == [], Structural("V-FINDING-REF", Some(claim.id), None));
    var b := WhenIssue(claim.docIds == [], Structural("V-EVIDENCE", Some(claim.id), None));
    var c := FlatMap(claim.findingIds, UnknownFinding("V-FINDING-REF", claim.id, findings));
    var d := FlatMap(claim.docIds, UnknownDoc(claim.id, docs));
    var e := FlatMap(claim.repoIds, UnknownFinding("V-REPOSITORY-EVIDENCE", claim.id, findings));
    FiveParts(a, b, c, d, e, issue);
    UnknownFindingsAre("V-FINDING-REF", claim.id, claim.findingIds, findings, issue);
    UnknownDocsAre(claim.id, claim.docIds, docs, issue);
    UnknownFindingsAre("V-REPOSITORY-EVIDENCE", claim.id, claim.repoIds, findings, issue);
  }

  lemma LanguageIssuesAre(claim: Claim, dependencies: seq<string>, ch: Checks, issue: Issue)
    ensures issue in LanguageIssues(claim, dependencies, ch) <==> LanguageReported(claim, dependencies, ch, issue)
  {
  }

  lemma CoverageIssuesAre(claim: Claim, findings: map<Id, Finding>, docs: map<Id, Doc>, ch: Checks, issue: Issue)
    ensures issue in CoverageIssues(claim, findings, docs, ch) <==> CoverageReported(claim, findings, docs, ch, issue)
  {
    UngroundedAre(claim, findings, ch, issue);
    UnrelatedAre(claim, findings, docs, issue);
  }

  lemma UngroundedAre(claim: Claim, findings: map<Id, Finding>, ch: Checks, issue: Issue)
    ensures issue in FlatMap(claim.findingIds, Ungrounded(claim, findings, ch)) <==>
              issue == Issue("V-GROUNDING", true, Some(claim.id), None) && !NamesFindings(claim, findings, ch)
  {
    FlatMapMember(claim.findingIds, Ungrounded(claim, findings, ch), issue);
  }

  lemma UnrelatedAre(claim: Claim, findings: map<Id, Finding>, docs: map<Id, Doc>, issue: Issue)
    ensures issue in FlatMap(claim.docIds, Unrelated(claim, findings, docs)) <==>
              exists id :: issue == Issue("V-EVIDENCE-COVERAGE", true, Some(claim.id), Some(id))
                           && id in claim.docIds && id in docs && !Relates(claim, findings, docs[id])
  {
    FlatMapMember(claim.docIds, Unrelated(claim, findings, docs), issue);
    forall id
      ensures issue in Unrelated(claim, findings, docs)(id) <==>
                issue == Issue("V-EVIDENCE-COVERAGE", true, Some(claim.id), Some(id)) && id in docs && !Relates(claim, findings, docs[id])
    {
      UnrelatedIff(claim, findings, docs, id);
    }
  }

  lemma ClaimIssuesAre(c: Context, ch: Checks, claim: Claim, issue: Issue)
    ensures issue in ClaimIssues(c, ch)(claim) <==>
              ClaimReported(claim, FindingById(c.findings), DocById(c.docs), c.dependencies, ch, issue)
  {
    var findings, docs := FindingById(c.findings), DocById(c.docs);
    RefIssuesAre(claim, findings.Keys, docs.Keys, issue);
    LanguageIssuesAre(claim, c.dependencies, ch, issue);
    CoverageIssuesAre(claim, findings, docs, ch, issue);
  }

  lemma FieldIssuesAre(c: Context, pack: Pack, ch: Checks, issue: Issue)
    ensures issue in FlatMap(FirstAppearances(FindingIds(c.findings)), FindingFaults(FindingById(c.findings), pack, ch)) <==>
              exists id :: id in FindingById(c.findings) && FindingReported(FindingById(c.findings)[id], pack, ch, issue)
    ensures issue in FlatMap(FirstAppearances(DocIds(c.docs)), DocFaults(DocById(c.docs), pack, ch)) <==>
              exists id :: id in DocById(c.docs) && DocReported(DocById(c.docs)[id], pack, ch, issue)
  {
    FindingFaultsAre(c, pack, ch, FindingById(c.findings), issue);
    DocFaultsAre(c, pack, ch, DocById(c.docs), issue);
  }

  lemma FindingFaultsAre(c: Context, pack: Pack, ch: Checks, findings: map<Id, Finding>, issue: Issue)
    requires findings == FindingById(c.findings)
    ensures issue in FlatMap(FirstAppearances(FindingIds(c.findings)), FindingFaults(findings, pack, ch)) <==>
              exists id :: id in findings && FindingReported(findings[id], pack, ch, issue)
  {
    var order := FirstAppearances(FindingIds(c.findings));
    FlatMapMember(order, FindingFaults(findings, pack, ch), issue);
    forall id
      ensures id in order <==> id in findings
      ensures id in findings ==> (issue in FindingFaults(findings, pack, ch)(id) <==> FindingReported(findings[id], pack, ch, issue))
    {
      KnownById(c, id);
      if id in findings {
        FindingIssuesAre(findings[id], pack, ch, issue);
      }
    }
  }

  lemma DocFaultsAre(c: Context, pack: Pack, ch: Checks, docs: map<Id, Doc>, issue: Issue)
    requires docs == DocById(c.docs)
    ensures issue in FlatMap(FirstAppearances(DocIds(c.docs)), DocFaults(docs, pack, ch)) <==>
              exists id :: id in docs && DocReported(docs[id], pack, ch, issue)
  {
    var order := FirstAppearances(DocIds(c.docs));
    FlatMapMember(order, DocFaults(docs, pack, ch), issue);
    forall id
      ensures id in order <==> id in docs
      ensures id in docs ==> (issue in DocFaults(docs, pack, ch)(id) <==> DocReported(docs[id], pack, ch, issue))
    {
      KnownById(c, id);
      if id in docs {
        DocIssuesAre(docs[id], pack, ch, issue);
      }
    }
  }

  lemma ClaimsReported(c: Context, ch: Checks, issue: Issue)
    ensures issue in FlatMap(c.plan.claims, ClaimIssues(c, ch)) <==>
              exists claim :: claim in c.plan.claims
                              && ClaimReported(claim, FindingById(c.findings), DocById(c.docs), c.dependencies, ch, issue)
  {
    FlatMapMember(c.plan.claims, ClaimIssues(c, ch), issue);
    forall claim: Claim
      ensures issue in ClaimIssues(c, ch)(claim) <==>
                ClaimReported(claim, FindingById(c.findings), DocById(c.docs), c.dependencies, ch, issue)
    {
      ClaimIssuesAre(c, ch, claim, issue);
    }
  }

  lemma PartsMember(c: Context, ch: Checks, pack: Pack, issue: Issue)
    requires c.pack == Some(pack)
    ensures issue in PlanIssues(c, ch) <==>
              || issue in WhenIssue(!ch.schemaOk(c.plan), Fixable("V-SCHEMA", None, None))
              || issue in FlatMap(c.plan.worklist, FileRef(Files(c)))
              || issue in FlatMap(FirstAppearances(FindingIds(c.findings)), FindingFaults(FindingById(c.findings), pack, ch))
              || issue in FlatMap(FirstAppearances(DocIds(c.docs)), DocFaults(DocById(c.docs), pack, ch))
              || issue in RiskIssues(c.risk, FindingById(c.findings).Keys, pack.risk)
              || issue in FlatMap(c.plan.claims, ClaimIssues(c, ch))
  {
  }

  /** The validator reports exactly the issues there is cause for, and says of each what it names. */
  lemma ReportedIff(c: Context, ch: Checks, issue: Issue)
    ensures issue in PlanIssues(c, ch) <==> Reported(c, ch, issue)
  {
    match c.pack
    case None =>
    case Some(pack) =>
      PartsMember(c, ch, pack, issue);
      FileIssuesAre(c, issue);
      FieldIssuesAre(c, pack, ch, issue);
      RiskIssuesAre(c.risk, FindingById(c.findings).Keys, pack.risk, issue);
      ClaimsReported(c, ch, issue);
  }

  // ---- In which order -----------------------------------------------------------------------------------

  /** Which part of the validation an issue comes from. */
  function Part(issue: Issue): nat {
    if issue.validator == "V-SCHEMA" then 0
    else if issue.validator == "V-FILE-REF" then 1
    else if issue.claimId.Some? then 5
    else if issue.validator == "V-RISK" then 4
    else if issue.evidenceId.Some? then 3
    else 2
  }

  ghost predicate AllOfPart(issues: seq<Issue>, part: nat) {
    forall issue :: issue in issues ==> Part(issue) == part
  }

  ghost predicate InOrder(issues: seq<Issue>, last: nat) {
    && (forall i, j :: 0 <= i < j < |issues| ==> Part(issues[i]) <= Part(issues[j]))
    && forall i :: 0 <= i < |issues| ==> Part(issues[i]) <= last
  }

  lemma InOrderJoin(a: seq<Issue>, b: seq<Issue>, earlier: nat, part: nat)
    requires InOrder(a, earlier) && earlier < part && AllOfPart(b, part)
    ensures InOrder(a + b, part)
  {
    forall i | 0 <= i < |b|
      ensures Part(b[i]) == part
    {
      assert b[i] in b;
    }
  }

  lemma FileIssuesPart(c: Context)
    ensures AllOfPart(FlatMap(c.plan.worklist, FileRef(Files(c))), 1)
  {
    forall issue | issue in FlatMap(c.plan.worklist, FileRef(Files(c)))
      ensures Part(issue) == 1
    {
      FileIssuesAre(c, issue);
    }
  }

  lemma FindingIssuesPart(f: Finding, pack: Pack, ch: Checks, issue: Issue)
    requires FindingReported(f, pack, ch, issue)
    ensures Part(issue) == 2
  {
  }

  lemma DocIssuesPart(d: Doc, pack: Pack, ch: Checks, issue: Issue)
    requires DocReported(d, pack, ch, issue)
    ensures Part(issue) == 3
  {
  }

  lemma FieldIssuesPart(c: Context, pack: Pack, ch: Checks)
    ensures AllOfPart(FlatMap(FirstAppearances(FindingIds(c.findings)), FindingFaults(FindingById(c.findings), pack, ch)), 2)
    ensures AllOfPart(FlatMap(FirstAppearances(DocIds(c.docs)), DocFaults(DocById(c.docs), pack, ch)), 3)
  {
    forall issue | issue in FlatMap(FirstAppearances(FindingIds(c.findings)), FindingFaults(FindingById(c.findings), pack, ch))
      ensures Part(issue) == 2
    {
      FieldIssuesAre(c, pack, ch, issue);
      var id :| id in FindingById(c.findings) && FindingReported(FindingById(c.findings)[id], pack, ch, issue);
      FindingIssuesPart(FindingById(c.findings)[id], pack, ch, issue);
    }
    forall issue | issue in FlatMap(FirstAppearances(DocIds(c.docs)), DocFaults(DocById(c.docs), pack, ch))
      ensures Part(issue) == 3
    {
      FieldIssuesAre(c, pack, ch, issue);
      var id :| id in DocById(c.docs) && DocReported(DocById(c.docs)[id], pack, ch, issue);
      DocIssuesPart(DocById(c.docs)[id], pack, ch, issue);
    }
  }

  lemma ClaimReportedPart(
    claim: Claim, findings: map<Id, Finding>, docs: map<Id, Doc>, dependencies: seq<string>, ch: Checks, issue: Issue)
    requires ClaimReported(claim, findings, docs, dependencies, ch, issue)
    ensures Part(issue) == 5
  {
  }

  lemma ClaimIssuesPart(c: Context, ch: Checks)
    ensures AllOfPart(FlatMap(c.plan.claims, ClaimIssues(c, ch)), 5)
  {
    forall issue | issue in FlatMap(c.plan.claims, ClaimIssues(c, ch))
      ensures Part(issue) == 5
    {
      ClaimsReported(c, ch, issue);
      var claim :| claim in c.plan.claims && ClaimReported(claim, FindingById(c.findings), DocById(c.docs), c.dependencies, ch, issue);
      ClaimReportedPart(claim, FindingById(c.findings), DocById(c.docs), c.dependencies, ch, issue);
    }
  }

  lemma SixParts(s: seq<Issue>, w: seq<Issue>, f: seq<Issue>, d: seq<Issue>, r: seq<Issue>, p: seq<Issue>)
    requires AllOfPart(s, 0) && |s| <= 1 && AllOfPart(w, 1) && AllOfPart(f, 2)
    requires AllOfPart(d, 3) && AllOfPart(r, 4) && AllOfPart(p, 5)
    ensures InOrder(s + w + f + d + r + p, 5)
  {
    assert s != [] ==> s[0] in s;
    InOrderJoin(s, w, 0, 1);
    InOrderJoin(s + w, f, 1, 2);
    InOrderJoin(s + w + f, d, 2, 3);
    InOrderJoin(s + w + f + d, r, 3, 4);
    InOrderJoin(s + w + f + d + r, p, 4, 5);
  }

  /** Schema first, then the worklist, the findings, the documents, the risk, and the claims. */
  lemma IssuesInOrder(c: Context, ch: Checks)
    requires c.pack.Some?
    ensures InOrder(PlanIssues(c, ch), 5)
  {
    var pack := c.pack.value;
    RiskIssuesAlike(c.risk, FindingById(c.findings).Keys, pack.risk);
    FileIssuesPart(c);
    FieldIssuesPart(c, pack, ch);
    ClaimIssuesPart(c, ch);
    SixParts(WhenIssue(!ch.schemaOk(c.plan), Fixable("V-SCHEMA", None, None)), FlatMap(c.plan.worklist, FileRef(Files(c))),
             FlatMap(FirstAppearances(FindingIds(c.findings)), FindingFaults(FindingById(c.findings), pack, ch)),
             FlatMap(FirstAppearances(DocIds(c.docs)), DocFaults(DocById(c.docs), pack, ch)),
             RiskIssues(c.risk, FindingById(c.findings).Keys, pack.risk), FlatMap(c.plan.claims, ClaimIssues(c, ch)));
  }
}
