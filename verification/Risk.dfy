/**
 Risk scoring (src/upgradepilot/migration/risk.py) and its relation to the validator that re-checks the
 score (src/upgradepilot/validators/evidence.py:313-361).
 */
module Risk {
  import opened Outcomes
  import opened Models
  import opened FlatMaps
  import opened Evidence

  // ---- What the scorer reads off a scoring block -----------------------------------------------------

  datatype Threshold = Threshold(above: int, points: int)

  datatype Spec = CountScaled(perOccurrence: int, cap: Option<int>)
                | ThresholdStep(thresholds: seq<Threshold>)
                | Boolean(whenTrue: int)
                | OtherSpec

  /** A field under the name the scorer knows; 0 when the block spells it otherwise. */
  function Number(numbers: map<string, int>, name: string): int {
    if name in numbers then numbers[name] else 0
  }

  function Steps(thresholds: seq<map<string, int>>): (steps: seq<Threshold>)
    ensures |steps| == |thresholds|
  {
    seq(|thresholds|, i requires 0 <= i < |thresholds| =>
      Threshold(Number(thresholds[i], "above"), Number(thresholds[i], "points")))
  }

  function SpecOf(scoring: Scoring): Spec {
    if scoring.kind == "count_scaled" then
      CountScaled(Number(scoring.numbers, "per_occurrence"), if "cap" in scoring.numbers then Some(scoring.numbers["cap"]) else None)
    else if scoring.kind == "threshold_step" then ThresholdStep(Steps(scoring.thresholds))
    else if scoring.kind == "boolean" then Boolean(Number(scoring.numbers, "when_true_points"))
    else OtherSpec
  }

  // ---- What a rule contributes ----------------------------------------------------------------------

  function OfRule(findings: seq<Finding>, ruleId: string): (matched: seq<Finding>)
    ensures forall f :: f in matched <==> f in findings && f.ruleId == ruleId
  {
    if findings == [] then []
    else
      var n := |findings| - 1;
      var matched := OfRule(findings[..n], ruleId);
      assert forall f :: f in findings <==> f in findings[..n] || f == findings[n];
      if findings[n].ruleId == ruleId then matched + [findings[n]] else matched
  }

  function OfRuleIn(findings: seq<Finding>): string -> seq<Finding> {
    (ruleId: string) => OfRule(findings, ruleId)
  }

  /** The findings of the rule's ids, id by id. */
  function Matched(findings: seq<Finding>, ruleIds: seq<string>): seq<Finding> {
    FlatMap(ruleIds, OfRuleIn(findings))
  }

  function FilesOf(findings: seq<Finding>): set<string> {
    set f | f in findings :: f.file
  }

  /** The first threshold the count exceeds decides. */
  function StepPoints(thresholds: seq<Threshold>, count: nat): int {
    if thresholds == [] then 0
    else if count > thresholds[0].above then thresholds[0].points
    else StepPoints(thresholds[1..], count)
  }

  function BooleanSource(source: Option<string>, testCi: TestCi): bool {
    if source == Some("no_test_files") then
      testCi.testFiles.None? || testCi.testFiles.value == 0
    else
      source == Some("no_ci_detected") && testCi.ciSystems == []
  }

  function Least(a: int, b: int): int {
    if a <= b then a else b
  }

  function PointsOf(spec: Spec, rule: RiskRule, findings: seq<Finding>, testCi: TestCi): int {
    if rule.ruleIds != [] then
      if spec.CountScaled? then
        var scaled := spec.perOccurrence * |Matched(findings, rule.ruleIds)|;
        Least(if spec.cap.Some? then spec.cap.value else scaled, scaled)
      else 0
    else if spec.ThresholdStep? && rule.source == Some("finding_file_count") then
      StepPoints(spec.thresholds, |FilesOf(findings)|)
    else if spec.Boolean? && BooleanSource(rule.source, testCi) then spec.whenTrue
    else 0
  }

  function RulePoints(rule: RiskRule, findings: seq<Finding>, testCi: TestCi): int {
    PointsOf(SpecOf(rule.scoring), rule, findings, testCi)
  }

  function IdsOf(findings: seq<Finding>): (ids: seq<Id>)
    ensures forall id :: id in ids <==> exists f :: f in findings && f.id == id
  {
    if findings == [] then []
    else
      var n := |findings| - 1;
      assert forall f :: f in findings <==> f in findings[..n] || f == findings[n];
      IdsOf(findings[..n]) + [findings[n].id]
  }

  /** The component a rule adds; a rule without points adds none. */
  function RuleComponent(findings: seq<Finding>, testCi: TestCi): RiskRule -> seq<Component> {
    (rule: RiskRule) =>
      var points := RulePoints(rule, findings, testCi);
      if points > 0 then
        [Component(rule.componentId, rule.description, points, IdsOf(Matched(findings, rule.ruleIds)))]
      else []
  }

  function ComponentsOf(rules: seq<RiskRule>, findings: seq<Finding>, testCi: TestCi): seq<Component> {
    FlatMap(rules, RuleComponent(findings, testCi))
  }

  /** The sum of all contributions, before the cap. */
  function Uncapped(rules: seq<RiskRule>, findings: seq<Finding>, testCi: TestCi): int {
    PointsSum(ComponentsOf(rules, findings, testCi))
  }

  // ---- The level --------------------------------------------------------------------------------------

  /** The threshold reached with the most points; of equals the last listed. */
  function Reached(levels: seq<LevelThreshold>, total: int): (r: Option<LevelThreshold>)
    ensures r.Some? ==> r.value in levels && r.value.minPoints <= total
    ensures forall l :: l in levels && l.minPoints <= total ==> r.Some? && l.minPoints <= r.value.minPoints
  {
    if levels == [] then None
    else
      var n := |levels| - 1;
      var best := Reached(levels[..n], total);
      assert forall l :: l in levels <==> l in levels[..n] || l == levels[n];
      if levels[n].minPoints <= total && (best.None? || best.value.minPoints <= levels[n].minPoints)
      then Some(levels[n]) else best
  }

  function LevelName(reached: Option<LevelThreshold>): string {
    if reached.Some? then reached.value.level else "LOW"
  }

  function LevelOf(levels: seq<LevelThreshold>, total: int): string {
    LevelName(Reached(levels, total))
  }

  /** Lower case, for the letters level names are made of. */
  function Lower(name: string): (lower: string)
    ensures |lower| == |name|
    ensures forall i :: 0 <= i < |name| ==> lower[i] == if 'A' <= name[i] <= 'Z' then name[i] - 'A' + 'a' else name[i]
  {
    seq(|name|, i requires 0 <= i < |name| => if 'A' <= name[i] <= 'Z' then name[i] - 'A' + 'a' else name[i])
  }

  function Score(findings: seq<Finding>, testCi: TestCi, rules: RiskRules): Assessment {
    var total := Least(Uncapped(rules.rules, findings, testCi), rules.maxPoints);
    Assessment(total, Lower(LevelOf(rules.levels, total)), ComponentsOf(rules.rules, findings, testCi), rules.version)
  }

  // ---- The scorer -------------------------------------------------------------------------------------

  ghost predicate Grouped(byRule: map<string, seq<Finding>>, findings: seq<Finding>) {
    forall r :: (if r in byRule then byRule[r] else []) == OfRule(findings, r)
  }

  method GroupByRule(findings: seq<Finding>) returns (byRule: map<string, seq<Finding>>)
    ensures Grouped(byRule, findings)
  {
    byRule := map[];
    for i := 0 to |findings|
      invariant Grouped(byRule, findings[..i])
    {
      assert findings[..i + 1][..i] == findings[..i];
      var r := findings[i].ruleId;
      var group := if r in byRule then byRule[r] else [];
      byRule := byRule[r := group + [findings[i]]];
    }
    assert findings[..|findings|] == findings;
  }

  method MatchedBy(byRule: map<string, seq<Finding>>, ghost findings: seq<Finding>, ruleIds: seq<string>)
    returns (matched: seq<Finding>)
    requires Grouped(byRule, findings)
    ensures matched == Matched(findings, ruleIds)
  {
    matched := [];
    for i := 0 to |ruleIds|
      invariant matched == FlatMap(ruleIds[..i], OfRuleIn(findings))
    {
      FlatMapNext(ruleIds, OfRuleIn(findings), i);
      matched := matched + if ruleIds[i] in byRule then byRule[ruleIds[i]] else [];
    }
    assert ruleIds[..|ruleIds|] == ruleIds;
  }

  method FirstStep(thresholds: seq<Threshold>, count: nat) returns (points: int)
    ensures points == StepPoints(thresholds, count)
  {
    points := 0;
    for i := 0 to |thresholds|
      invariant points == 0
      invariant StepPoints(thresholds, count) == StepPoints(thresholds[i..], count)
    {
      if count > thresholds[i].above {
        points := thresholds[i].points;
        break;
      }
    }
  }

  method ScoreRule(rule: RiskRule, byRule: map<string, seq<Finding>>, findings: seq<Finding>, testCi: TestCi)
    returns (points: int, supporting: seq<Id>)
    requires Grouped(byRule, findings)
    ensures points == RulePoints(rule, findings, testCi)
    ensures supporting == IdsOf(Matched(findings, rule.ruleIds))
  {
    var spec := SpecOf(rule.scoring);
    points, supporting := 0, [];
    if rule.ruleIds != [] {
      var matched := MatchedBy(byRule, findings, rule.ruleIds);
      supporting := IdsOf(matched);
      if spec.CountScaled? {
        var scaled := spec.perOccurrence * |matched|;
        var cap := if spec.cap.Some? then spec.cap.value else scaled;
        points := Least(cap, scaled);
      }
    } else if spec.ThresholdStep? && rule.source == Some("finding_file_count") {
      points := FirstStep(spec.thresholds, |FilesOf(findings)|);
    } else if spec.Boolean? {
      if BooleanSource(rule.source, testCi) {
        points := spec.whenTrue;
      }
    }
  }

  /** The stable order by points that the level loop walks. */
  function Insert(sorted: seq<LevelThreshold>, l: LevelThreshold): seq<LevelThreshold> {
    if sorted == [] || sorted[|sorted| - 1].minPoints <= l.minPoints then sorted + [l]
    else Insert(sorted[..|sorted| - 1], l) + [sorted[|sorted| - 1]]
  }

  function SortLevels(levels: seq<LevelThreshold>): seq<LevelThreshold> {
    if levels == [] then [] else Insert(SortLevels(levels[..|levels| - 1]), levels[|levels| - 1])
  }

  /** The last threshold of the walk that is reached. */
  function LastReached(sorted: seq<LevelThreshold>, total: int): Option<LevelThreshold> {
    if sorted == [] then None
    else if sorted[|sorted| - 1].minPoints <= total then Some(sorted[|sorted| - 1])
    else LastReached(sorted[..|sorted| - 1], total)
  }

  ghost predicate Ascending(sorted: seq<LevelThreshold>) {
    forall i, j :: 0 <= i < j < |sorted| ==> sorted[i].minPoints <= sorted[j].minPoints
  }

  lemma {:induction false} InsertMembers(sorted: seq<LevelThreshold>, l: LevelThreshold)
    ensures forall x :: x in Insert(sorted, l) <==> x in sorted || x == l
  {
    if sorted != [] {
      InsertMembers(sorted[..|sorted| - 1], l);
      assert forall x :: x in sorted <==> x in sorted[..|sorted| - 1] || x == sorted[|sorted| - 1];
    }
  }

  lemma {:induction false} InsertAscends(sorted: seq<LevelThreshold>, l: LevelThreshold)
    requires Ascending(sorted)
    ensures Ascending(Insert(sorted, l))
  {
    if sorted != [] && sorted[|sorted| - 1].minPoints > l.minPoints {
      var earlier, last := sorted[..|sorted| - 1], sorted[|sorted| - 1];
      var rest := Insert(earlier, l);
      InsertAscends(earlier, l);
      InsertMembers(earlier, l);
      forall i | 0 <= i < |rest|
        ensures rest[i].minPoints <= last.minPoints
      {
        assert rest[i] in rest;
        if rest[i] != l {
          var j :| 0 <= j < |earlier| && earlier[j] == rest[i];
          assert sorted[j] == rest[i];
        }
      }
    }
  }

  lemma LastReachedSnoc(sorted: seq<LevelThreshold>, l: LevelThreshold, total: int)
    ensures LastReached(sorted + [l], total) == if l.minPoints <= total then Some(l) else LastReached(sorted, total)
  {
    assert (sorted + [l])[..|sorted|] == sorted;
  }

  lemma {:induction false} InsertReached(sorted: seq<LevelThreshold>, l: LevelThreshold, total: int)
    requires Ascending(sorted)
    ensures LastReached(Insert(sorted, l), total) ==
              var best := LastReached(sorted, total);
              if l.minPoints <= total && (best.None? || best.value.minPoints <= l.minPoints) then Some(l) else best
  {
    LastReachedIsMember(sorted, total);
    if sorted == [] || sorted[|sorted| - 1].minPoints <= l.minPoints {
      LastReachedSnoc(sorted, l, total);
    } else {
      var earlier, last := sorted[..|sorted| - 1], sorted[|sorted| - 1];
      assert sorted == earlier + [last];
      InsertReached(earlier, l, total);
      LastReachedSnoc(Insert(earlier, l), last, total);
      LastReachedSnoc(earlier, last, total);
    }
  }

  lemma {:induction false} LastReachedIsMember(sorted: seq<LevelThreshold>, total: int)
    requires Ascending(sorted)
    ensures LastReached(sorted, total).Some? ==> LastReached(sorted, total).value in sorted
    ensures sorted != [] && LastReached(sorted, total).Some? ==>
              LastReached(sorted, total).value.minPoints <= sorted[|sorted| - 1].minPoints
  {
    if sorted != [] {
      LastReachedIsMember(sorted[..|sorted| - 1], total);
    }
  }

  lemma {:induction false} WalkFindsReached(levels: seq<LevelThreshold>, total: int)
    ensures Ascending(SortLevels(levels))
    ensures LastReached(SortLevels(levels), total) == Reached(levels, total)
  {
    if levels != [] {
      var n := |levels| - 1;
      WalkFindsReached(levels[..n], total);
      InsertAscends(SortLevels(levels[..n]), levels[n]);
      InsertReached(SortLevels(levels[..n]), levels[n], total);
    }
  }

  method WalkLevels(sorted: seq<LevelThreshold>, total: int) returns (level: string)
    ensures level == LevelName(LastReached(sorted, total))
  {
    level := "LOW";
    for i := 0 to |sorted|
      invariant level == LevelName(LastReached(sorted[..i], total))
    {
      LastReachedNext(sorted, i, total);
      if total >= sorted[i].minPoints {
        level := sorted[i].level;
      }
    }
    assert sorted[..|sorted|] == sorted;
  }

  lemma LastReachedNext(sorted: seq<LevelThreshold>, i: nat, total: int)
    requires i < |sorted|
    ensures LastReached(sorted[..i + 1], total) ==
              if sorted[i].minPoints <= total then Some(sorted[i]) else LastReached(sorted[..i], total)
  {
    assert sorted[..i + 1][..i] == sorted[..i];
  }

  method SelectLevel(levels: seq<LevelThreshold>, total: int) returns (level: string)
    ensures level == LevelOf(levels, total)
  {
    WalkFindsReached(levels, total);
    level := WalkLevels(SortLevels(levels), total);
  }

  method ScoreRisk(findings: seq<Finding>, testCi: TestCi, rules: RiskRules) returns (a: Assessment)
    ensures a == Score(findings, testCi, rules)
  {
    var byRule := GroupByRule(findings);
    var components := [];
    var total := 0;
    for i := 0 to |rules.rules|
      invariant components == ComponentsOf(rules.rules[..i], findings, testCi)
      invariant total == PointsSum(components)
    {
      FlatMapNext(rules.rules, RuleComponent(findings, testCi), i);
      var rule := rules.rules[i];
      var points, supporting := ScoreRule(rule, byRule, findings, testCi);
      if points > 0 {
        var component := Component(rule.componentId, rule.description, points, supporting);
        assert (components + [component])[..|components|] == components;
        components := components + [component];
        total := total + points;
      }
    }
    assert rules.rules[..|rules.rules|] == rules.rules;
    total := Least(total, rules.maxPoints);
    var level := SelectLevel(rules.levels, total);
    return Assessment(total, Lower(level), components, rules.version);
  }

  // ---- What a score says ------------------------------------------------------------------------------

  /** How often the findings match: a finding counts once for every time the ids list its rule. */
  function Hits(findings: seq<Finding>, ruleIds: seq<string>): nat {
    if findings == [] then 0 else Hits(findings[..|findings| - 1], ruleIds) + multiset(ruleIds)[findings[|findings| - 1].ruleId]
  }

  lemma {:induction false} MatchedLast(g: seq<Finding>, f: Finding, ruleIds: seq<string>)
    ensures |Matched(g + [f], ruleIds)| == |Matched(g, ruleIds)| + multiset(ruleIds)[f.ruleId]
  {
    if ruleIds != [] {
      var n := |ruleIds| - 1;
      MatchedLast(g, f, ruleIds[..n]);
      OfRuleLast(g, f, ruleIds[n]);
      assert multiset(ruleIds) == multiset(ruleIds[..n]) + multiset{ruleIds[n]} by {
        assert ruleIds == ruleIds[..n] + [ruleIds[n]];
      }
    }
  }

  lemma {:induction false} MatchedAreHits(findings: seq<Finding>, ruleIds: seq<string>)
    ensures |Matched(findings, ruleIds)| == Hits(findings, ruleIds)
  {
    if findings == [] {
      FlatMapEmpty(ruleIds, OfRuleIn(findings));
    } else {
      var n := |findings| - 1;
      MatchedAreHits(findings[..n], ruleIds);
      MatchedLast(findings[..n], findings[n], ruleIds);
      assert findings == findings[..n] + [findings[n]];
    }
  }

  /** A rule with rule ids gives so many points per match, up to its cap, and only if it is of the counting kind. */
  lemma CountedPoints(rule: RiskRule, findings: seq<Finding>, testCi: TestCi)
    requires rule.ruleIds != []
    ensures var numbers := rule.scoring.numbers;
            var per := if "per_occurrence" in numbers then numbers["per_occurrence"] else 0;
            var scaled := per * Hits(findings, rule.ruleIds);
            RulePoints(rule, findings, testCi) ==
              if rule.scoring.kind != "count_scaled" then 0
              else if "cap" in numbers && numbers["cap"] < scaled then numbers["cap"] else scaled
  {
    MatchedAreHits(findings, rule.ruleIds);
  }

  /** A boolean rule without rule ids reads the signal its source names, and no other. */
  lemma BooleanPoints(rule: RiskRule, findings: seq<Finding>, testCi: TestCi)
    requires rule.ruleIds == [] && rule.scoring.kind == "boolean"
    ensures var p := if "when_true_points" in rule.scoring.numbers then rule.scoring.numbers["when_true_points"] else 0;
            RulePoints(rule, findings, testCi) ==
              match rule.source
              case Some("no_test_files") => (if testCi.testFiles == None || testCi.testFiles == Some(0) then p else 0)
              case Some("no_ci_detected") => (if |testCi.ciSystems| == 0 then p else 0)
              case _ => 0
  {
  }

  /** The component says which rule it is of, how many points that gives, and which findings support it. */
  ghost predicate ComponentOf(c: Component, rule: RiskRule, findings: seq<Finding>, testCi: TestCi) {
    && c.componentId == rule.componentId && c.description == rule.description
    && c.points == RulePoints(rule, findings, testCi) && c.points > 0
    && forall id :: id in c.supporting <==> exists f :: f in findings && f.ruleId in rule.ruleIds && f.id == id
  }

  lemma SupportIs(rule: RiskRule, findings: seq<Finding>, id: Id)
    ensures id in IdsOf(Matched(findings, rule.ruleIds)) <==>
              exists f :: f in findings && f.ruleId in rule.ruleIds && f.id == id
  {
    var matched := Matched(findings, rule.ruleIds);
    forall f
      ensures f in matched <==> f in findings && f.ruleId in rule.ruleIds
    {
      FlatMapMember(rule.ruleIds, OfRuleIn(findings), f);
    }
  }

  lemma RuleComponentIs(rule: RiskRule, findings: seq<Finding>, testCi: TestCi)
    ensures |RuleComponent(findings, testCi)(rule)| == if RulePoints(rule, findings, testCi) > 0 then 1 else 0
    ensures forall c :: c in RuleComponent(findings, testCi)(rule) ==> ComponentOf(c, rule, findings, testCi)
  {
    forall id
      ensures id in IdsOf(Matched(findings, rule.ruleIds)) <==>
                exists f :: f in findings && f.ruleId in rule.ruleIds && f.id == id
    {
      SupportIs(rule, findings, id);
    }
  }

  /** The rules that give points, in order. */
  function Contributing(rules: seq<RiskRule>, findings: seq<Finding>, testCi: TestCi): seq<RiskRule> {
    if rules == [] then []
    else
      Contributing(rules[..|rules| - 1], findings, testCi)
      + if RulePoints(rules[|rules| - 1], findings, testCi) > 0 then [rules[|rules| - 1]] else []
  }

  /** The components are those of the rules that give points, one each and in order. */
  lemma {:induction false} ComponentsAre(rules: seq<RiskRule>, findings: seq<Finding>, testCi: TestCi)
    ensures var components, scoring := ComponentsOf(rules, findings, testCi), Contributing(rules, findings, testCi);
            && |components| == |scoring|
            && forall i :: 0 <= i < |scoring| ==> ComponentOf(components[i], scoring[i], findings, testCi)
  {
    if rules != [] {
      var n := |rules| - 1;
      ComponentsAre(rules[..n], findings, testCi);
      RuleComponentIs(rules[n], findings, testCi);
      assert ComponentsOf(rules, findings, testCi) == ComponentsOf(rules[..n], findings, testCi) + RuleComponent(findings, testCi)(rules[n]);
    }
  }

  /** The level is that of the highest threshold the total reaches, in lower case, and low if it reaches none. */
  lemma ScoredLevel(findings: seq<Finding>, testCi: TestCi, rules: RiskRules)
    ensures var score := Score(findings, testCi, rules);
            if exists l :: l in rules.levels && l.minPoints <= score.total then
              exists l :: l in rules.levels && l.minPoints <= score.total && score.level == Lower(l.level)
                          && forall m :: m in rules.levels && m.minPoints <= score.total ==> m.minPoints <= l.minPoints
            else score.level == "low"
  {
    var total := Score(findings, testCi, rules).total;
    var reached := Reached(rules.levels, total);
    if reached.None? {
      assert Lower("LOW") == "low";
    }
  }

  // ---- Scorer against checker -------------------------------------------------------------------------

  /**
   The validator's risk check accepts the scorer's own output exactly when nothing was clipped: the
   uncapped sum must not exceed the migration pack's maximum.
   */
  lemma ScoreAcceptedIff(findings: seq<Finding>, testCi: TestCi, rules: RiskRules)
    ensures RiskIssues(Some(Score(findings, testCi, rules)), FindingById(findings).Keys, rules) == []
            <==> Uncapped(rules.rules, findings, testCi) <= rules.maxPoints
  {
    RiskIssuesIff(Some(Score(findings, testCi, rules)), FindingById(findings).Keys, rules);
    SupportIsKnown(rules.rules, findings, testCi);
  }

  /** An accepted score is the uncapped sum of the contributions. */
  lemma AcceptedScoreIsUnclipped(findings: seq<Finding>, testCi: TestCi, rules: RiskRules)
    requires RiskIssues(Some(Score(findings, testCi, rules)), FindingById(findings).Keys, rules) == []
    ensures Score(findings, testCi, rules).total == Uncapped(rules.rules, findings, testCi)
  {
    ScoreAcceptedIff(findings, testCi, rules);
  }

  lemma SupportIsKnown(rules: seq<RiskRule>, findings: seq<Finding>, testCi: TestCi)
    ensures forall c, id :: c in ComponentsOf(rules, findings, testCi) && id in c.supporting && id != "" ==>
              id in FindingById(findings).Keys
  {
    forall c, id | c in ComponentsOf(rules, findings, testCi) && id in c.supporting && id != ""
      ensures id in FindingById(findings).Keys
    {
      FlatMapMember(rules, RuleComponent(findings, testCi), c);
      var rule :| rule in rules && c in RuleComponent(findings, testCi)(rule);
      assert c.supporting == IdsOf(Matched(findings, rule.ruleIds));
      var f :| f in Matched(findings, rule.ruleIds) && f.id == id;
      FlatMapMember(rule.ruleIds, OfRuleIn(findings), f);
      assert f in findings;
    }
  }

  // ---- Monotonicity -----------------------------------------------------------------------------------

  /** A rule that goes by the number of files. */
  predicate Stepped(rule: RiskRule) {
    rule.ruleIds == [] && SpecOf(rule.scoring).ThresholdStep? && rule.source == Some("finding_file_count")
  }

  ghost predicate Descending(thresholds: seq<Threshold>) {
    forall i, j :: 0 <= i < j < |thresholds| ==>
      thresholds[i].above >= thresholds[j].above && thresholds[i].points >= thresholds[j].points
  }

  /** `g` has every finding of `f`, as often or more often, in any order. */
  ghost predicate Includes(g: seq<Finding>, f: seq<Finding>) {
    multiset(f) <= multiset(g)
  }

  lemma DropFromBoth(a: multiset<Finding>, b: multiset<Finding>, x: Finding)
    requires a + multiset{x} <= b + multiset{x}
    ensures a <= b
  {
    forall y
      ensures a[y] <= b[y]
    {
      assert (a + multiset{x})[y] <= (b + multiset{x})[y];
    }
  }

  lemma {:induction false} OfRuleGrows(f: seq<Finding>, g: seq<Finding>, ruleId: string)
    requires Includes(g, f)
    ensures |OfRule(f, ruleId)| <= |OfRule(g, ruleId)|
  {
    if f != [] {
      var n := |f| - 1;
      var last := f[n];
      assert f == f[..n] + [last];
      assert last in multiset(g);
      var k :| 0 <= k < |g| && g[k] == last;
      var rest := g[..k] + g[k + 1..];
      assert g == g[..k] + [last] + g[k + 1..];
      DropFromBoth(multiset(f[..n]), multiset(rest), last);
      OfRuleGrows(f[..n], rest, ruleId);
      OfRuleRemoved(g[..k], last, g[k + 1..], ruleId);
      OfRuleLast(f[..n], last, ruleId);
    }
  }

  lemma OfRuleLast(g: seq<Finding>, f: Finding, ruleId: string)
    ensures |OfRule(g + [f], ruleId)| == |OfRule(g, ruleId)| + (if f.ruleId == ruleId then 1 else 0)
  {
    assert (g + [f])[..|g|] == g;
  }

  /** Removing one finding removes it from its rule's group only. */
  lemma {:induction false} OfRuleRemoved(before: seq<Finding>, f: Finding, after: seq<Finding>, ruleId: string)
    ensures |OfRule(before + [f] + after, ruleId)| == |OfRule(before + after, ruleId)| + (if f.ruleId == ruleId then 1 else 0)
  {
    if after == [] {
      assert before + [f] + after == before + [f] && before + after == before;
      OfRuleLast(before, f, ruleId);
    } else {
      var rest, last := after[..|after| - 1], after[|after| - 1];
      assert before + [f] + after == before + [f] + rest + [last] && before + after == before + rest + [last];
      OfRuleRemoved(before, f, rest, ruleId);
      OfRuleLast(before + [f] + rest, last, ruleId);
      OfRuleLast(before + rest, last, ruleId);
    }
  }

  lemma {:induction false} MatchedGrows(f: seq<Finding>, g: seq<Finding>, ruleIds: seq<string>)
    requires Includes(g, f)
    ensures |Matched(f, ruleIds)| <= |Matched(g, ruleIds)|
  {
    if ruleIds != [] {
      MatchedGrows(f, g, ruleIds[..|ruleIds| - 1]);
      OfRuleGrows(f, g, ruleIds[|ruleIds| - 1]);
    }
  }

  lemma {:induction false} FewerFiles(a: set<string>, b: set<string>)
    requires a <= b
    ensures |a| <= |b|
  {
    if a != {} {
      var x :| x in a;
      FewerFiles(a - {x}, b - {x});
    }
  }

  lemma FilesGrow(f: seq<Finding>, g: seq<Finding>)
    requires Includes(g, f)
    ensures |FilesOf(f)| <= |FilesOf(g)|
  {
    forall finding | finding in f
      ensures finding in g
    {
      assert finding in multiset(f);
      assert finding in multiset(g);
    }
    FewerFiles(FilesOf(f), FilesOf(g));
  }

  lemma {:induction false} StepsGrow(thresholds: seq<Threshold>, a: nat, b: nat)
    requires Descending(thresholds) && a <= b
    ensures StepPoints(thresholds, a) <= StepPoints(thresholds, b) || StepPoints(thresholds, a) <= 0
  {
    if thresholds != [] && !(a > thresholds[0].above) {
      if b > thresholds[0].above {
        StepsBelow(thresholds[1..], a, thresholds[0].points);
      } else {
        StepsGrow(thresholds[1..], a, b);
      }
    }
  }

  lemma {:induction false} StepsBelow(thresholds: seq<Threshold>, count: nat, points: int)
    requires forall i :: 0 <= i < |thresholds| ==> thresholds[i].points <= points
    ensures StepPoints(thresholds, count) <= points || StepPoints(thresholds, count) == 0
  {
    if thresholds != [] {
      StepsBelow(thresholds[1..], count, points);
    }
  }

  lemma ScaledGrows(per: int, m: nat, n: nat)
    requires m <= n
    ensures if per >= 0 then per * m <= per * n else per * m <= 0
  {
  }

  function Gain(rule: RiskRule, findings: seq<Finding>, testCi: TestCi): nat {
    var points := RulePoints(rule, findings, testCi);
    if points > 0 then points else 0
  }

  function StepGain(rule: RiskRule, files: nat): nat {
    if Stepped(rule) && StepPoints(SpecOf(rule.scoring).thresholds, files) > 0
    then StepPoints(SpecOf(rule.scoring).thresholds, files) else 0
  }

  function OtherGain(rule: RiskRule, findings: seq<Finding>, testCi: TestCi): nat {
    if Stepped(rule) then 0 else Gain(rule, findings, testCi)
  }

  /** What the rules give that go by the number of files, and what all others give. */
  function StepSum(rules: seq<RiskRule>, files: nat): nat {
    if rules == [] then 0 else StepSum(rules[..|rules| - 1], files) + StepGain(rules[|rules| - 1], files)
  }

  function OtherSum(rules: seq<RiskRule>, findings: seq<Finding>, testCi: TestCi): nat {
    if rules == [] then 0
    else OtherSum(rules[..|rules| - 1], findings, testCi) + OtherGain(rules[|rules| - 1], findings, testCi)
  }

  /** Any rule that does not go by the number of files gives no less when there are more findings. */
  lemma OtherGrows(rule: RiskRule, f: seq<Finding>, g: seq<Finding>, testCi: TestCi)
    requires Includes(g, f)
    ensures OtherGain(rule, f, testCi) <= OtherGain(rule, g, testCi)
  {
    var spec := SpecOf(rule.scoring);
    if rule.ruleIds != [] && spec.CountScaled? {
      MatchedGrows(f, g, rule.ruleIds);
      ScaledGrows(spec.perOccurrence, |Matched(f, rule.ruleIds)|, |Matched(g, rule.ruleIds)|);
    }
  }

  /** The uncapped sum adds up the gains rule by rule. */
  lemma UncappedNext(rules: seq<RiskRule>, findings: seq<Finding>, testCi: TestCi)
    requires rules != []
    ensures Uncapped(rules, findings, testCi)
            == Uncapped(rules[..|rules| - 1], findings, testCi) + Gain(rules[|rules| - 1], findings, testCi)
  {
    var earlier := ComponentsOf(rules[..|rules| - 1], findings, testCi);
    var added := RuleComponent(findings, testCi)(rules[|rules| - 1]);
    assert ComponentsOf(rules, findings, testCi) == earlier + added;
    if added == [] {
      assert earlier + added == earlier;
    } else {
      assert (earlier + added)[..|earlier|] == earlier;
    }
  }

  lemma {:induction false} UncappedSplits(rules: seq<RiskRule>, findings: seq<Finding>, testCi: TestCi)
    ensures Uncapped(rules, findings, testCi) == StepSum(rules, |FilesOf(findings)|) + OtherSum(rules, findings, testCi)
  {
    if rules != [] {
      UncappedNext(rules, findings, testCi);
      UncappedSplits(rules[..|rules| - 1], findings, testCi);
    }
  }

  lemma {:induction false} OtherSumGrows(rules: seq<RiskRule>, f: seq<Finding>, g: seq<Finding>, testCi: TestCi)
    requires Includes(g, f)
    ensures OtherSum(rules, f, testCi) <= OtherSum(rules, g, testCi)
  {
    if rules != [] {
      OtherSumGrows(rules[..|rules| - 1], f, g, testCi);
      OtherGrows(rules[|rules| - 1], f, g, testCi);
    }
  }

  /** With one file more, the rules that go by the number of files give no less, up to the maximum. */
  ghost predicate StepsRise(rules: RiskRules) {
    forall files: nat ::
      Least(StepSum(rules.rules, files), rules.maxPoints) <= Least(StepSum(rules.rules, files + 1), rules.maxPoints)
  }

  lemma {:induction false} StepsRiseTo(rules: RiskRules, a: nat, b: nat)
    requires StepsRise(rules) && a <= b
    ensures Least(StepSum(rules.rules, a), rules.maxPoints) <= Least(StepSum(rules.rules, b), rules.maxPoints)
  {
    if a < b {
      StepsRiseTo(rules, a, b - 1);
      assert StepSum(rules.rules, b - 1) >= 0;
    }
  }

  /** Thresholds listed from the highest down, with points that fall, give a rule whose steps rise. */
  ghost predicate Descends(rule: RiskRule) {
    Stepped(rule) ==> Descending(SpecOf(rule.scoring).thresholds)
  }

  lemma {:induction false} StepSumGrows(rules: seq<RiskRule>, a: nat, b: nat)
    requires (forall rule :: rule in rules ==> Descends(rule)) && a <= b
    ensures StepSum(rules, a) <= StepSum(rules, b)
  {
    if rules != [] {
      StepSumGrows(rules[..|rules| - 1], a, b);
      var last := rules[|rules| - 1];
      assert last in rules;
      if Stepped(last) {
        StepsGrow(SpecOf(last.scoring).thresholds, a, b);
      }
    }
  }

  lemma DescendingRises(rules: RiskRules)
    requires forall rule :: rule in rules.rules ==> Descends(rule)
    ensures StepsRise(rules)
  {
    forall files: nat
      ensures Least(StepSum(rules.rules, files), rules.maxPoints) <= Least(StepSum(rules.rules, files + 1), rules.maxPoints)
    {
      StepSumGrows(rules.rules, files, files + 1);
    }
  }

  /** The points of the level reached; -1 when none is. */
  function ReachedPoints(levels: seq<LevelThreshold>, total: int): int {
    if Reached(levels, total).Some? then Reached(levels, total).value.minPoints else -1
  }

  /**
   Finding more never lowers the score or the level: whenever `g` includes the findings of `f` in any
   order, total and level threshold can only rise, and both stay within the migration pack's bounds.
   (RiskPacks.MoreFindingsMoreRiskIff shows that the hypothesis cannot be weakened.)
   */
  lemma MoreFindingsMoreRisk(rules: RiskRules, f: seq<Finding>, g: seq<Finding>, testCi: TestCi)
    requires StepsRise(rules) && Includes(g, f)
    ensures 0 <= Score(f, testCi, rules).total <= Score(g, testCi, rules).total <= rules.maxPoints
    ensures ReachedPoints(rules.levels, Score(f, testCi, rules).total)
            <= ReachedPoints(rules.levels, Score(g, testCi, rules).total)
  {
    UncappedSplits(rules.rules, f, testCi);
    UncappedSplits(rules.rules, g, testCi);
    OtherSumGrows(rules.rules, f, g, testCi);
    FilesGrow(f, g);
    StepsRiseTo(rules, |FilesOf(f)|, |FilesOf(g)|);
  }

  /** Permuted findings give every rule the same points, whatever the rule. */
  lemma SamePoints(rule: RiskRule, f: seq<Finding>, g: seq<Finding>, testCi: TestCi)
    requires multiset(f) == multiset(g)
    ensures RulePoints(rule, f, testCi) == RulePoints(rule, g, testCi)
  {
    MatchedGrows(f, g, rule.ruleIds);
    MatchedGrows(g, f, rule.ruleIds);
    FilesGrow(f, g);
    FilesGrow(g, f);
  }

  lemma {:induction false} SameSum(rules: seq<RiskRule>, f: seq<Finding>, g: seq<Finding>, testCi: TestCi)
    requires multiset(f) == multiset(g)
    ensures Uncapped(rules, f, testCi) == Uncapped(rules, g, testCi)
  {
    if rules != [] {
      UncappedNext(rules, f, testCi);
      UncappedNext(rules, g, testCi);
      SameSum(rules[..|rules| - 1], f, g, testCi);
      SamePoints(rules[|rules| - 1], f, g, testCi);
    }
  }

  /** The order of the findings matters to neither the total nor the level, whatever the rules. */
  lemma OrderDoesNotMatter(rules: RiskRules, f: seq<Finding>, g: seq<Finding>, testCi: TestCi)
    requires multiset(f) == multiset(g)
    ensures Score(f, testCi, rules).total == Score(g, testCi, rules).total
    ensures Score(f, testCi, rules).level == Score(g, testCi, rules).level
  {
    SameSum(rules.rules, f, g, testCi);
  }
}
