/**
 What a risk model can ever give, decided from how its rules are written (migration_packs/, scored by
 src/upgradepilot/migration/risk.py): whether it can score at all, and whether it can be clipped. Both
 conditions are then read off the two risk models the repository ships.
 */
module RiskPacks {
  import opened Outcomes
  import opened Models
  import opened Risk
  import opened Evidence
  import opened FlatMaps

  // ---- Repositories with many findings ----------------------------------------------------------------

  function Path(n: nat): string {
    seq(n, _ => 'f')
  }

  function Name(n: nat, ruleId: string): Id {
    Path(n) + ":" + ruleId
  }

  /** The `n`th finding of a rule, in file `k`. */
  function Example(n: nat, k: nat, ruleId: string): (f: Finding)
    ensures f.id == Name(n, ruleId) && f.ruleId == ruleId && f.file == Path(k)
  {
    Finding(Name(n, ruleId), ruleId, Path(k), "", "", "", Snippet(None, None, ""), "")
  }

  /** `n` findings of one rule, in `files` files if there are so many findings. */
  function Spread(n: nat, files: nat, ruleId: string): seq<Finding> {
    if n == 0 then [] else Spread(n - 1, files, ruleId) + [Example(n, if n <= files then n else files, ruleId)]
  }

  /** The scanner gives every finding its own id. */
  ghost predicate OwnIds(findings: seq<Finding>) {
    forall i, j :: 0 <= i < j < |findings| ==> findings[i].id != findings[j].id
  }

  lemma OwnNames(n: nat, a: string, m: nat, b: string)
    ensures Name(n, a) == Name(m, b) ==> n == m && a == b
  {
    var x, y := Name(n, a), Name(m, b);
    assert x[n] == ':' && y[m] == ':';
    assert n < m ==> y[n] == 'f';
    assert m < n ==> x[m] == 'f';
    assert x[n + 1..] == a && y[m + 1..] == b;
  }

  lemma {:induction false} SpreadNames(n: nat, files: nat, ruleId: string)
    ensures |Spread(n, files, ruleId)| == n
    ensures forall i :: 0 <= i < n ==> Spread(n, files, ruleId)[i].id == Name(i + 1, ruleId)
    ensures forall f :: f in Spread(n, files, ruleId) ==> f.ruleId == ruleId && exists k: nat :: f.id == Name(k, ruleId)
  {
    if n > 0 {
      SpreadNames(n - 1, files, ruleId);
    }
  }

  lemma SpreadHasOwnIds(n: nat, files: nat, ruleId: string)
    ensures OwnIds(Spread(n, files, ruleId))
  {
    var findings := Spread(n, files, ruleId);
    SpreadNames(n, files, ruleId);
    forall i, j | 0 <= i < j < n
      ensures findings[i].id != findings[j].id
    {
      OwnNames(i + 1, ruleId, j + 1, ruleId);
    }
  }

  function Paths(n: nat): set<string> {
    if n == 0 then {} else Paths(n - 1) + {Path(n)}
  }

  lemma {:induction false} PathIn(n: nat, p: string)
    ensures p in Paths(n) <==> 0 < |p| <= n && p == Path(|p|)
  {
    if n > 0 {
      PathIn(n - 1, p);
    }
  }

  lemma {:induction false} PathsCount(n: nat)
    ensures |Paths(n)| == n
  {
    if n > 0 {
      PathsCount(n - 1);
      PathIn(n - 1, Path(n));
    }
  }

  lemma FilesJoin(f: seq<Finding>, g: seq<Finding>)
    ensures FilesOf(f + g) == FilesOf(f) + FilesOf(g)
  {
    assert forall x :: x in f + g <==> x in f || x in g;
  }

  lemma {:induction false} SpreadFiles(n: nat, files: nat, ruleId: string)
    requires files > 0
    ensures FilesOf(Spread(n, files, ruleId)) == Paths(if n <= files then n else files)
  {
    if n > 0 {
      SpreadFiles(n - 1, files, ruleId);
      FilesJoin(Spread(n - 1, files, ruleId), [Example(n, if n <= files then n else files, ruleId)]);
      PathIn(files, Path(files));
    }
  }

  lemma OneMatchMore(earlier: seq<Finding>, last: Finding, all: seq<Finding>, ruleId: string)
    requires all == earlier + [last] && last.ruleId == ruleId
    ensures |OfRule(all, ruleId)| == |OfRule(earlier, ruleId)| + 1
  {
    OfRuleLast(earlier, last, ruleId);
  }

  lemma {:induction false} SpreadMatches(n: nat, files: nat, ruleId: string)
    ensures |OfRule(Spread(n, files, ruleId), ruleId)| == n
  {
    if n > 0 {
      var last := Example(n, if n <= files then n else files, ruleId);
      OneMatchMore(Spread(n - 1, files, ruleId), last, Spread(n, files, ruleId), ruleId);
      SpreadMatches(n - 1, files, ruleId);
    }
  }

  lemma {:induction false} MatchedHasRule(findings: seq<Finding>, ruleIds: seq<string>, ruleId: string)
    requires ruleId in ruleIds
    ensures |Matched(findings, ruleIds)| >= |OfRule(findings, ruleId)|
  {
    var n := |ruleIds| - 1;
    if ruleIds[n] != ruleId {
      assert ruleId in ruleIds[..n];
      MatchedHasRule(findings, ruleIds[..n], ruleId);
    }
  }

  function SpreadOf(n: nat, files: nat): string -> seq<Finding> {
    (ruleId: string) => Spread(n, files, ruleId)
  }

  /** `n` findings of each of the rules, all in the same files. */
  function Crowd(n: nat, files: nat, ruleIds: seq<string>): seq<Finding> {
    FlatMap(ruleIds, SpreadOf(n, files))
  }

  lemma {:induction false} CrowdFiles(n: nat, files: nat, ruleIds: seq<string>)
    requires 0 < files <= n && ruleIds != []
    ensures FilesOf(Crowd(n, files, ruleIds)) == Paths(files)
  {
    var k := |ruleIds| - 1;
    SpreadFiles(n, files, ruleIds[k]);
    FilesJoin(Crowd(n, files, ruleIds[..k]), Spread(n, files, ruleIds[k]));
    if k > 0 {
      CrowdFiles(n, files, ruleIds[..k]);
    }
  }

  lemma {:induction false} CrowdNames(n: nat, files: nat, ruleIds: seq<string>, f: Finding)
    requires f in Crowd(n, files, ruleIds)
    ensures f.ruleId in ruleIds && exists k: nat :: f.id == Name(k, f.ruleId)
  {
    var k := |ruleIds| - 1;
    SpreadNames(n, files, ruleIds[k]);
    if f !in Spread(n, files, ruleIds[k]) {
      CrowdNames(n, files, ruleIds[..k], f);
    }
  }

  lemma OwnIdsJoin(a: seq<Finding>, b: seq<Finding>)
    requires OwnIds(a) && OwnIds(b) && forall f, g :: f in a && g in b ==> f.id != g.id
    ensures OwnIds(a + b)
  {
  }

  lemma {:induction false} CrowdHasOwnIds(n: nat, files: nat, ruleIds: seq<string>)
    requires forall i, j :: 0 <= i < j < |ruleIds| ==> ruleIds[i] != ruleIds[j]
    ensures OwnIds(Crowd(n, files, ruleIds))
  {
    if ruleIds != [] {
      var k := |ruleIds| - 1;
      var earlier, last := Crowd(n, files, ruleIds[..k]), Spread(n, files, ruleIds[k]);
      CrowdHasOwnIds(n, files, ruleIds[..k]);
      SpreadHasOwnIds(n, files, ruleIds[k]);
      SpreadNames(n, files, ruleIds[k]);
      forall f, g | f in earlier && g in last
        ensures f.id != g.id
      {
        CrowdNames(n, files, ruleIds[..k], f);
        var i: nat, j: nat :| f.id == Name(i, f.ruleId) && g.id == Name(j, g.ruleId);
        OwnNames(i, f.ruleId, j, g.ruleId);
      }
      OwnIdsJoin(earlier, last);
    }
  }

  lemma CrowdIsOfRules(n: nat, files: nat, ruleIds: seq<string>, crowd: seq<Finding>)
    requires forall i, j :: 0 <= i < j < |ruleIds| ==> ruleIds[i] != ruleIds[j]
    requires crowd == Crowd(n, files, ruleIds)
    ensures OwnIds(crowd) && forall f :: f in crowd ==> f.ruleId in ruleIds
  {
    CrowdHasOwnIds(n, files, ruleIds);
    forall f | f in crowd
      ensures f.ruleId in ruleIds
    {
      CrowdNames(n, files, ruleIds, f);
    }
  }

  lemma {:induction false} CrowdIncludes(n: nat, files: nat, ruleIds: seq<string>, ruleId: string)
    requires ruleId in ruleIds
    ensures Includes(Crowd(n, files, ruleIds), Spread(n, files, ruleId))
  {
    var k := |ruleIds| - 1;
    assert Crowd(n, files, ruleIds) == Crowd(n, files, ruleIds[..k]) + Spread(n, files, ruleIds[k]);
    if ruleIds[k] != ruleId {
      assert ruleId in ruleIds[..k];
      CrowdIncludes(n, files, ruleIds[..k], ruleId);
    }
  }

  /** A crowd has at least `n` findings of every rule in it. */
  lemma CrowdIsLarge(n: nat, files: nat, ruleIds: seq<string>, ruleId: string)
    requires ruleId in ruleIds
    ensures |OfRule(Crowd(n, files, ruleIds), ruleId)| >= n
  {
    CrowdIncludes(n, files, ruleIds, ruleId);
    OfRuleGrows(Spread(n, files, ruleId), Crowd(n, files, ruleIds), ruleId);
    SpreadMatches(n, files, ruleId);
  }

  // ---- Rules that can score ---------------------------------------------------------------------------

  /** Some count exceeds this step and none listed before it. */
  ghost predicate Reachable(steps: seq<Threshold>, i: nat) {
    i < |steps| && forall j :: 0 <= j < i ==> steps[j].above > steps[i].above && steps[j].above >= 0
  }

  /**
   How a rule has to be written to give points on any repository: one that lists rule ids counts findings and
   names its points `per_occurrence`; one that lists none is a step rule on the file count, or a boolean
   rule on one of the two known sources that names its points `when_true_points`.
   */
  ghost predicate CanScore(rule: RiskRule) {
    var numbers := rule.scoring.numbers;
    if rule.ruleIds != [] then
      && rule.scoring.kind == "count_scaled" && Number(numbers, "per_occurrence") > 0
      && ("cap" in numbers ==> numbers["cap"] > 0)
    else if rule.scoring.kind == "threshold_step" then
      && rule.source == Some("finding_file_count")
      && exists i: nat :: Reachable(Steps(rule.scoring.thresholds), i) && Steps(rule.scoring.thresholds)[i].points > 0
    else
      && rule.scoring.kind == "boolean" && Number(numbers, "when_true_points") > 0
      && (rule.source == Some("no_test_files") || rule.source == Some("no_ci_detected"))
  }

  lemma {:induction false} StepTaken(steps: seq<Threshold>, count: nat) returns (i: nat)
    requires StepPoints(steps, count) > 0
    ensures Reachable(steps, i) && steps[i].points == StepPoints(steps, count) && count > steps[i].above
    ensures forall j :: 0 <= j < i ==> count <= steps[j].above
  {
    if count > steps[0].above {
      i := 0;
    } else {
      var k := StepTaken(steps[1..], count);
      assert forall j :: 1 <= j < |steps| ==> steps[j] == steps[1..][j - 1];
      i := k + 1;
    }
  }

  lemma {:induction false} StepGiven(steps: seq<Threshold>, count: nat, i: nat)
    requires i < |steps| && count > steps[i].above && forall j :: 0 <= j < i ==> count <= steps[j].above
    ensures StepPoints(steps, count) == steps[i].points
  {
    if i > 0 {
      StepGiven(steps[1..], count, i - 1);
    }
  }

  lemma ProductPositive(a: int, n: nat)
    ensures a * n > 0 <==> a > 0 && n > 0
  {
  }

  lemma ScoringNeeds(rule: RiskRule, findings: seq<Finding>, testCi: TestCi)
    requires RulePoints(rule, findings, testCi) > 0
    ensures CanScore(rule)
  {
    var spec := SpecOf(rule.scoring);
    if rule.ruleIds != [] {
      ProductPositive(spec.perOccurrence, |Matched(findings, rule.ruleIds)|);
    } else if spec.ThresholdStep? {
      var i := StepTaken(spec.thresholds, |FilesOf(findings)|);
    }
  }

  lemma CountedScores(rule: RiskRule) returns (findings: seq<Finding>)
    requires CanScore(rule) && rule.ruleIds != []
    ensures forall testCi :: RulePoints(rule, findings, testCi) > 0
  {
    findings := Spread(1, 1, rule.ruleIds[0]);
    SpreadMatches(1, 1, rule.ruleIds[0]);
    MatchedHasRule(findings, rule.ruleIds, rule.ruleIds[0]);
    forall testCi
      ensures RulePoints(rule, findings, testCi) > 0
    {
      CountedGives(rule, findings, testCi);
    }
  }

  lemma CountedGives(rule: RiskRule, findings: seq<Finding>, testCi: TestCi)
    requires CanScore(rule) && rule.ruleIds != [] && |Matched(findings, rule.ruleIds)| > 0
    ensures RulePoints(rule, findings, testCi) > 0
  {
    var spec := SpecOf(rule.scoring);
    assert spec.CountScaled? && spec.perOccurrence > 0;
    ProductPositive(spec.perOccurrence, |Matched(findings, rule.ruleIds)|);
  }

  lemma SteppedScores(rule: RiskRule) returns (findings: seq<Finding>)
    requires CanScore(rule) && rule.ruleIds == [] && rule.scoring.kind == "threshold_step"
    ensures forall testCi :: RulePoints(rule, findings, testCi) > 0
  {
    var steps := Steps(rule.scoring.thresholds);
    var i: nat :| Reachable(steps, i) && steps[i].points > 0;
    var count := if steps[i].above < 0 then 0 else steps[i].above + 1;
    findings := Spread(count, count + 1, "");
    SpreadFiles(count, count + 1, "");
    PathsCount(count);
    StepGiven(steps, count, i);
  }

  /** A rule gives points on some repository exactly when it is written to. */
  lemma CanScoreIff(rule: RiskRule)
    ensures CanScore(rule) <==> exists findings, testCi :: RulePoints(rule, findings, testCi) > 0
  {
    if CanScore(rule) {
      if rule.ruleIds != [] {
        var findings := CountedScores(rule);
        assert RulePoints(rule, findings, TestCi(None, [])) > 0;
      } else if rule.scoring.kind == "threshold_step" {
        var findings := SteppedScores(rule);
        assert RulePoints(rule, findings, TestCi(None, [])) > 0;
      } else {
        assert RulePoints(rule, [], TestCi(None, [])) > 0;
      }
    }
    if findings, testCi :| RulePoints(rule, findings, testCi) > 0 {
      ScoringNeeds(rule, findings, testCi);
    }
  }

  lemma {:induction false} SumHasGain(rules: seq<RiskRule>, rule: RiskRule, findings: seq<Finding>, testCi: TestCi)
    ensures Uncapped(rules, findings, testCi) >= 0
    ensures rule in rules ==> Uncapped(rules, findings, testCi) >= Gain(rule, findings, testCi)
    ensures (forall r :: r in rules ==> !CanScore(r)) ==> Uncapped(rules, findings, testCi) == 0
  {
    if rules != [] {
      var last := rules[|rules| - 1];
      UncappedNext(rules, findings, testCi);
      SumHasGain(rules[..|rules| - 1], rule, findings, testCi);
      assert rule in rules <==> rule in rules[..|rules| - 1] || rule == last;
      if Gain(last, findings, testCi) > 0 {
        ScoringNeeds(last, findings, testCi);
      }
    }
  }

  /** A risk model scores every repository 0 exactly when none of its rules is written to score. */
  lemma AlwaysZeroIff(rules: RiskRules)
    requires rules.maxPoints > 0
    ensures (forall findings, testCi :: Score(findings, testCi, rules).total == 0) <==>
              forall rule :: rule in rules.rules ==> !CanScore(rule)
  {
    if rule :| rule in rules.rules && CanScore(rule) {
      CanScoreIff(rule);
      var findings, testCi :| RulePoints(rule, findings, testCi) > 0;
      SumHasGain(rules.rules, rule, findings, testCi);
      assert Score(findings, testCi, rules).total > 0;
    } else {
      forall findings, testCi
        ensures Score(findings, testCi, rules).total == 0
      {
        SumHasGain(rules.rules, RiskRule("", "", Scoring("", map[], []), [], None), findings, testCi);
      }
    }
  }

  // ---- Rules that can be clipped ----------------------------------------------------------------------

  function Positive(points: int): nat {
    if points > 0 then points else 0
  }

  /** A counting rule without a cap: it gives more points for every finding. */
  predicate Boundless(rule: RiskRule) {
    var spec := SpecOf(rule.scoring);
    rule.ruleIds != [] && spec.CountScaled? && spec.perOccurrence > 0 && spec.cap.None?
  }

  predicate KnownSignal(rule: RiskRule) {
    rule.source == Some("no_test_files") || rule.source == Some("no_ci_detected")
  }

  /** What any other rule gives at most to a repository with findings in so many files. */
  function Ceiling(rule: RiskRule, files: nat): nat {
    var spec := SpecOf(rule.scoring);
    if rule.ruleIds != [] then
      if files > 0 && spec.CountScaled? && spec.perOccurrence > 0 && spec.cap.Some? then Positive(spec.cap.value) else 0
    else if spec.ThresholdStep? && rule.source == Some("finding_file_count") then Positive(StepPoints(spec.thresholds, files))
    else if spec.Boolean? && KnownSignal(rule) then Positive(spec.whenTrue)
    else 0
  }

  function CeilingSum(rules: seq<RiskRule>, files: nat): nat {
    if rules == [] then 0 else CeilingSum(rules[..|rules| - 1], files) + Ceiling(rules[|rules| - 1], files)
  }

  /** How many findings bring the rule to its ceiling. */
  function Need(rule: RiskRule): nat {
    var spec := SpecOf(rule.scoring);
    if spec.CountScaled? && spec.cap.Some? then Positive(spec.cap.value) else 0
  }

  function Needs(rules: seq<RiskRule>): nat {
    if rules == [] then 0 else Needs(rules[..|rules| - 1]) + Need(rules[|rules| - 1])
  }

  lemma {:induction false} NeedsCover(rules: seq<RiskRule>, rule: RiskRule)
    requires rule in rules
    ensures Need(rule) <= Needs(rules)
  {
    if rule != rules[|rules| - 1] {
      assert rule in rules[..|rules| - 1];
      NeedsCover(rules[..|rules| - 1], rule);
    }
  }

  lemma SomeFile(findings: seq<Finding>)
    ensures findings != [] ==> |FilesOf(findings)| > 0
  {
    if findings != [] {
      assert findings[0].file in FilesOf(findings);
    }
  }

  lemma NoFilesNoMatch(findings: seq<Finding>, ruleIds: seq<string>)
    requires |FilesOf(findings)| == 0
    ensures findings == [] && |Matched(findings, ruleIds)| == 0
  {
    SomeFile(findings);
    FlatMapEmpty(ruleIds, OfRuleIn(findings));
  }

  lemma GainBelowCeiling(rule: RiskRule, findings: seq<Finding>, testCi: TestCi)
    requires !Boundless(rule)
    ensures Gain(rule, findings, testCi) <= Ceiling(rule, |FilesOf(findings)|)
  {
    var spec := SpecOf(rule.scoring);
    if rule.ruleIds != [] && spec.CountScaled? {
      ProductPositive(spec.perOccurrence, |Matched(findings, rule.ruleIds)|);
      if |FilesOf(findings)| == 0 {
        NoFilesNoMatch(findings, rule.ruleIds);
      }
    }
  }

  lemma {:induction false} SumBelowCeilings(rules: seq<RiskRule>, findings: seq<Finding>, testCi: TestCi)
    requires forall rule :: rule in rules ==> !Boundless(rule)
    ensures Uncapped(rules, findings, testCi) <= CeilingSum(rules, |FilesOf(findings)|)
  {
    if rules != [] {
      UncappedNext(rules, findings, testCi);
      SumBelowCeilings(rules[..|rules| - 1], findings, testCi);
      assert rules[|rules| - 1] in rules;
      GainBelowCeiling(rules[|rules| - 1], findings, testCi);
    }
  }

  lemma Enough(per: int, n: nat, cap: int)
    requires per > 0 && n >= cap
    ensures per * n >= cap
  {
  }

  lemma GainAtCeiling(rule: RiskRule, n: nat, files: nat, ruleIds: seq<string>)
    requires !Boundless(rule) && 0 < files <= n && n >= Need(rule) && ruleIds != []
    requires rule.ruleIds != [] ==> rule.ruleIds[0] in ruleIds
    ensures Gain(rule, Crowd(n, files, ruleIds), TestCi(None, [])) == Ceiling(rule, files)
  {
    var spec, findings := SpecOf(rule.scoring), Crowd(n, files, ruleIds);
    CrowdFiles(n, files, ruleIds);
    PathsCount(files);
    if rule.ruleIds != [] && spec.CountScaled? {
      CrowdIsLarge(n, files, ruleIds, rule.ruleIds[0]);
      MatchedHasRule(findings, rule.ruleIds, rule.ruleIds[0]);
      ProductPositive(spec.perOccurrence, |Matched(findings, rule.ruleIds)|);
      if spec.perOccurrence > 0 {
        Enough(spec.perOccurrence, |Matched(findings, rule.ruleIds)|, spec.cap.value);
      }
    }
  }

  lemma GainWithoutFindings(rule: RiskRule)
    ensures Gain(rule, [], TestCi(None, [])) == Ceiling(rule, 0)
  {
    assert FilesOf([]) == {};
    NoFilesNoMatch([], rule.ruleIds);
    ProductPositive(Number(rule.scoring.numbers, "per_occurrence"), 0);
  }

  lemma {:induction false} SumAtCeilings(rules: seq<RiskRule>, n: nat, files: nat, ruleIds: seq<string>)
    requires ruleIds != [] && 0 < files <= n
    requires forall rule :: rule in rules ==>
               !Boundless(rule) && n >= Need(rule) && (rule.ruleIds != [] ==> rule.ruleIds[0] in ruleIds)
    ensures Uncapped(rules, Crowd(n, files, ruleIds), TestCi(None, [])) == CeilingSum(rules, files)
  {
    if rules != [] {
      UncappedNext(rules, Crowd(n, files, ruleIds), TestCi(None, []));
      SumAtCeilings(rules[..|rules| - 1], n, files, ruleIds);
      assert rules[|rules| - 1] in rules;
      GainAtCeiling(rules[|rules| - 1], n, files, ruleIds);
    }
  }

  lemma {:induction false} SumWithoutFindings(rules: seq<RiskRule>)
    ensures Uncapped(rules, [], TestCi(None, [])) == CeilingSum(rules, 0)
  {
    if rules != [] {
      UncappedNext(rules, [], TestCi(None, []));
      SumWithoutFindings(rules[..|rules| - 1]);
      GainWithoutFindings(rules[|rules| - 1]);
    }
  }

  function IdsOfRule(): RiskRule -> seq<string> {
    (rule: RiskRule) => rule.ruleIds
  }

  function Distinct(ids: seq<string>): (once: seq<string>)
    ensures forall i, j :: 0 <= i < j < |once| ==> once[i] != once[j]
    ensures forall id :: id in once <==> id in ids
  {
    if ids == [] then [] else
      var last, once := ids[|ids| - 1], Distinct(ids[..|ids| - 1]);
      assert forall id :: id in ids <==> id in ids[..|ids| - 1] || id == last;
      if last in once then once else once + [last]
  }

  /** The rule ids the rules list, or one that stands for a rule outside the model if they list none. */
  function ScannedIds(rules: seq<RiskRule>): (ids: seq<string>)
    ensures ids != [] && forall i, j :: 0 <= i < j < |ids| ==> ids[i] != ids[j]
    ensures forall rule, id :: rule in rules && id in rule.ruleIds ==> id in ids
    ensures (exists rule :: rule in rules && rule.ruleIds != []) ==>
              forall id :: id in ids ==> exists rule :: rule in rules && id in rule.ruleIds
  {
    var ids := FlatMap(rules, IdsOfRule());
    assert forall id :: id in ids <==> exists rule :: rule in rules && id in rule.ruleIds by {
      forall id
        ensures id in ids <==> exists rule :: rule in rules && id in rule.ruleIds
      {
        FlatMapMember(rules, IdsOfRule(), id);
      }
    }
    assert forall rule :: rule in rules && rule.ruleIds != [] ==> rule.ruleIds[0] in ids;
    if ids == [] then [""] else Distinct(ids)
  }

  /** The repository that brings every rule to its ceiling: many findings in so many files, no test files, no CI. */
  function WorstRepository(rules: seq<RiskRule>, files: nat): seq<Finding> {
    if files == 0 then [] else Crowd(Needs(rules) + files, files, ScannedIds(rules))
  }

  /** Every finding has an id of its own, and is of a rule id that some rule lists, if any is listed. */
  ghost predicate Scannable(rules: seq<RiskRule>, findings: seq<Finding>) {
    OwnIds(findings) && forall f :: f in findings ==> f.ruleId in ScannedIds(rules)
  }

  lemma WorstIsScannable(rules: seq<RiskRule>, files: nat, worst: seq<Finding>)
    requires worst == WorstRepository(rules, files)
    ensures Scannable(rules, worst)
  {
    if files > 0 {
      CrowdIsOfRules(Needs(rules) + files, files, ScannedIds(rules), worst);
    }
  }

  lemma WorstReachesCeilings(rules: seq<RiskRule>, files: nat)
    requires forall rule :: rule in rules ==> !Boundless(rule)
    ensures Uncapped(rules, WorstRepository(rules, files), TestCi(None, [])) == CeilingSum(rules, files)
  {
    if files == 0 {
      SumWithoutFindings(rules);
    } else {
      var ruleIds := ScannedIds(rules);
      NeedsMet(rules, ruleIds);
      SumAtCeilings(rules, Needs(rules) + files, files, ruleIds);
    }
  }

  lemma NeedsMet(rules: seq<RiskRule>, ruleIds: seq<string>)
    requires ruleIds == ScannedIds(rules)
    ensures forall rule :: rule in rules ==> Needs(rules) >= Need(rule) && (rule.ruleIds != [] ==> rule.ruleIds[0] in ruleIds)
  {
    forall rule | rule in rules
      ensures Needs(rules) >= Need(rule) && (rule.ruleIds != [] ==> rule.ruleIds[0] in ruleIds)
    {
      NeedsCover(rules, rule);
    }
  }

  ghost predicate Rejected(rules: RiskRules, findings: seq<Finding>, testCi: TestCi) {
    RiskIssues(Some(Score(findings, testCi, rules)), FindingById(findings).Keys, rules) != []
  }

  /** A repository with the findings a scan can give is rejected. */
  ghost predicate CanClip(rules: RiskRules) {
    exists findings, testCi :: Scannable(rules.rules, findings) && Rejected(rules, findings, testCi)
  }

  lemma BoundlessClips(rules: RiskRules, rule: RiskRule) returns (findings: seq<Finding>)
    requires rule in rules.rules && Boundless(rule)
    ensures Rejected(rules, findings, TestCi(None, [])) && Scannable(rules.rules, findings)
  {
    var n := rules.maxPoints + 1;
    findings := Spread(n, 1, rule.ruleIds[0]);
    SpreadMatches(n, 1, rule.ruleIds[0]);
    SpreadHasOwnIds(n, 1, rule.ruleIds[0]);
    SpreadNames(n, 1, rule.ruleIds[0]);
    MatchedHasRule(findings, rule.ruleIds, rule.ruleIds[0]);
    Enough(SpecOf(rule.scoring).perOccurrence, |Matched(findings, rule.ruleIds)|, n);
    SumHasGain(rules.rules, rule, findings, TestCi(None, []));
    ScoreAcceptedIff(findings, TestCi(None, []), rules);
  }

  lemma BoundedClipsIff(rules: RiskRules)
    requires forall rule :: rule in rules.rules ==> !Boundless(rule)
    ensures (exists findings, testCi :: Rejected(rules, findings, testCi)) <==>
              exists files: nat :: CeilingSum(rules.rules, files) > rules.maxPoints
    ensures (exists files: nat :: CeilingSum(rules.rules, files) > rules.maxPoints) ==> CanClip(rules)
  {
    if files: nat :| CeilingSum(rules.rules, files) > rules.maxPoints {
      CeilingsClip(rules, files, WorstRepository(rules.rules, files));
      WorstIsScannable(rules.rules, files, WorstRepository(rules.rules, files));
    }
    forall findings, testCi | Rejected(rules, findings, testCi)
      ensures CeilingSum(rules.rules, |FilesOf(findings)|) > rules.maxPoints
    {
      ClipExceeds(rules, findings, testCi);
    }
  }

  lemma CeilingsClip(rules: RiskRules, files: nat, worst: seq<Finding>)
    requires forall rule :: rule in rules.rules ==> !Boundless(rule)
    requires CeilingSum(rules.rules, files) > rules.maxPoints && worst == WorstRepository(rules.rules, files)
    ensures Rejected(rules, worst, TestCi(None, []))
  {
    WorstReachesCeilings(rules.rules, files);
    ScoreAcceptedIff(worst, TestCi(None, []), rules);
  }

  lemma ClipExceeds(rules: RiskRules, findings: seq<Finding>, testCi: TestCi)
    requires forall rule :: rule in rules.rules ==> !Boundless(rule)
    requires Rejected(rules, findings, testCi)
    ensures CeilingSum(rules.rules, |FilesOf(findings)|) > rules.maxPoints
  {
    ScoreAcceptedIff(findings, testCi, rules);
    SumBelowCeilings(rules.rules, findings, testCi);
  }

  /**
   The validator rejects the scorer's own assessment of some repository exactly when a counting rule has no cap,
   or the ceilings of the rules for some number of files add up to more than the maximum; and then it already
   rejects one of a repository whose findings have ids of their own and the rule ids of the model.
   */
  lemma CanClipIff(rules: RiskRules)
    ensures CanClip(rules) <==> exists findings, testCi :: Rejected(rules, findings, testCi)
    ensures (exists findings, testCi :: Rejected(rules, findings, testCi)) <==>
              || (exists rule :: rule in rules.rules && Boundless(rule))
              || exists files: nat :: CeilingSum(rules.rules, files) > rules.maxPoints
  {
    if rule :| rule in rules.rules && Boundless(rule) {
      var findings := BoundlessClips(rules, rule);
    } else {
      BoundedClipsIff(rules);
    }
  }

  // ---- Scores that can fall ---------------------------------------------------------------------------

  function Longest(ids: seq<string>): nat {
    if ids == [] then 0
    else if |ids[|ids| - 1]| > Longest(ids[..|ids| - 1]) then |ids[|ids| - 1]| else Longest(ids[..|ids| - 1])
  }

  lemma {:induction false} NoLonger(ids: seq<string>, id: string)
    requires id in ids
    ensures |id| <= Longest(ids)
  {
    if id != ids[|ids| - 1] {
      assert id in ids[..|ids| - 1];
      NoLonger(ids[..|ids| - 1], id);
    }
  }

  /** A rule id that none of the rules lists. */
  lemma UnlistedId(rules: seq<RiskRule>) returns (id: string)
    ensures forall rule :: rule in rules ==> id !in rule.ruleIds
  {
    var ids := FlatMap(rules, IdsOfRule());
    id := Path(Longest(ids) + 1);
    forall rule, other | rule in rules && other in rule.ruleIds
      ensures other != id
    {
      FlatMapMember(rules, IdsOfRule(), other);
      NoLonger(ids, other);
    }
  }

  lemma {:induction false} SpreadIsOfRule(n: nat, files: nat, ruleId: string)
    ensures forall f :: f in Spread(n, files, ruleId) ==> f.ruleId == ruleId
  {
    if n > 0 {
      SpreadIsOfRule(n - 1, files, ruleId);
    }
  }

  lemma FirstOfRule(findings: seq<Finding>, id: string)
    ensures OfRule(findings, id) != [] ==> exists f :: f in findings && f.ruleId == id
  {
    if OfRule(findings, id) != [] {
      assert OfRule(findings, id)[0] in OfRule(findings, id);
    }
  }

  lemma NoneMatched(findings: seq<Finding>, ruleIds: seq<string>, ruleId: string)
    requires ruleId !in ruleIds && forall f :: f in findings ==> f.ruleId == ruleId
    ensures |Matched(findings, ruleIds)| == 0
  {
    FlatMapEmpty(ruleIds, OfRuleIn(findings));
    forall id | id in ruleIds
      ensures OfRule(findings, id) == []
    {
      FirstOfRule(findings, id);
    }
  }

  const COVERED: TestCi := TestCi(Some(1), ["ci"])

  /** A finding of no listed rule, in a repository with tests and CI, moves only the rules that count files. */
  lemma {:induction false} OnlyStepsCount(rules: seq<RiskRule>, findings: seq<Finding>, ruleId: string)
    requires forall rule :: rule in rules ==> ruleId !in rule.ruleIds
    requires forall f :: f in findings ==> f.ruleId == ruleId
    ensures OtherSum(rules, findings, COVERED) == 0
  {
    if rules != [] {
      var last := rules[|rules| - 1];
      assert last in rules;
      OnlyStepsCount(rules[..|rules| - 1], findings, ruleId);
      NoneMatched(findings, last.ruleIds, ruleId);
      ProductPositive(Number(last.scoring.numbers, "per_occurrence"), 0);
    }
  }

  lemma SpreadScore(rules: RiskRules, n: nat, ruleId: string)
    requires forall rule :: rule in rules.rules ==> ruleId !in rule.ruleIds
    ensures Score(Spread(n, n + 1, ruleId), COVERED, rules).total == Least(StepSum(rules.rules, n), rules.maxPoints)
  {
    var findings := Spread(n, n + 1, ruleId);
    SpreadIsOfRule(n, n + 1, ruleId);
    OnlyStepsCount(rules.rules, findings, ruleId);
    UncappedSplits(rules.rules, findings, COVERED);
    SpreadFiles(n, n + 1, ruleId);
    PathsCount(n);
  }

  /** Allowing more files than there are findings changes nothing. */
  lemma {:induction false} SpreadSame(n: nat, files: nat, more: nat, ruleId: string)
    requires n <= files && n <= more
    ensures Spread(n, files, ruleId) == Spread(n, more, ruleId)
  {
    if n > 0 {
      SpreadSame(n - 1, files, more, ruleId);
    }
  }

  ghost predicate NeverFalls(rules: RiskRules) {
    forall f, g, testCi :: Includes(g, f) ==> Score(f, testCi, rules).total <= Score(g, testCi, rules).total
  }

  lemma OneFileMore(rules: RiskRules, files: nat)
    requires NeverFalls(rules)
    ensures Least(StepSum(rules.rules, files), rules.maxPoints) <= Least(StepSum(rules.rules, files + 1), rules.maxPoints)
  {
    var id := UnlistedId(rules.rules);
    SpreadScore(rules, files, id);
    SpreadScore(rules, files + 1, id);
    SpreadSame(files, files + 1, files + 2, id);
    assert Includes(Spread(files + 1, files + 2, id), Spread(files, files + 1, id));
  }

  /**
   More findings never lower the score of any repository exactly when, with one file more, the rules that go by
   the number of files never give less, up to the maximum. No other rule can make the score fall.
   */
  lemma MoreFindingsMoreRiskIff(rules: RiskRules)
    ensures NeverFalls(rules) <==> StepsRise(rules)
  {
    if NeverFalls(rules) {
      forall files: nat
        ensures Least(StepSum(rules.rules, files), rules.maxPoints) <= Least(StepSum(rules.rules, files + 1), rules.maxPoints)
      {
        OneFileMore(rules, files);
      }
    }
    if StepsRise(rules) {
      forall f, g, testCi | Includes(g, f)
        ensures Score(f, testCi, rules).total <= Score(g, testCi, rules).total
      {
        MoreFindingsMoreRisk(rules, f, g, testCi);
      }
    }
  }

  // ---- migration_packs/pydantic_v1_to_v2/risk_rules.yaml ----------------------------------------------

  function Counted(id: Id, ruleIds: seq<string>, per: int, cap: int): RiskRule {
    RiskRule(id, "", Scoring("count_scaled", map["per_occurrence" := per, "cap" := cap], []), ruleIds, None)
  }

  function Signal(id: Id, points: int, source: string): RiskRule {
    RiskRule(id, "", Scoring("boolean", map["when_true_points" := points], []), [], Some(source))
  }

  function Step(above: int, points: int): map<string, int> {
    map["above" := above, "points" := points]
  }

  const WIDESPREAD: RiskRule :=
    RiskRule("RSK007", "", Scoring("threshold_step", map[], [Step(50, 10), Step(20, 6), Step(5, 3), Step(0, 0)]), [],
             Some("finding_file_count"))

  const MODELS: seq<RiskRule> := [
    Counted("RSK001", ["PYD001", "PYD002"], 3, 15),
    Counted("RSK002", ["PYD003", "PYD004", "PYD005", "PYD006", "PYD007", "PYD008"], 2, 10),
    Counted("RSK003", ["PYD009", "PYD010", "PYD011"], 2, 10)]

  const CALLS: seq<RiskRule> := [
    Counted("RSK004", ["PYD012", "PYD013", "PYD014", "PYD015"], 2, 10),
    Counted("RSK005", ["PYD016", "PYD017"], 2, 8),
    Counted("RSK006", ["PYD021"], 4, 12)]

  const REPOSITORY: seq<RiskRule> := [
    WIDESPREAD, Signal("RSK008", 8, "no_test_files"), Signal("RSK009", 5, "no_ci_detected")]

  const REVIEW: seq<RiskRule> := [
    Counted("RSK010", ["PYD019"], 3, 9),
    Counted("RSK011", ["PYD020", "PYD022"], 2, 6)]

  const PYDANTIC: RiskRules := RiskRules(
    MODELS + CALLS + REPOSITORY + REVIEW,
    [LevelThreshold("LOW", 0), LevelThreshold("MEDIUM", 15), LevelThreshold("HIGH", 35), LevelThreshold("CRITICAL", 60)],
    100, "1.0.0")

  lemma CountedCeiling(id: Id, ruleIds: seq<string>, per: int, cap: int, files: nat)
    requires ruleIds != [] && per > 0 && cap > 0
    ensures !Boundless(Counted(id, ruleIds, per, cap)) && Descends(Counted(id, ruleIds, per, cap))
    ensures Ceiling(Counted(id, ruleIds, per, cap), files) == if files > 0 then cap else 0
  {
  }

  lemma SignalCeiling(id: Id, points: int, source: string, files: nat)
    requires points > 0 && (source == "no_test_files" || source == "no_ci_detected")
    ensures !Boundless(Signal(id, points, source)) && Descends(Signal(id, points, source))
    ensures Ceiling(Signal(id, points, source), files) == points
  {
  }

  lemma StepRead(above: int, points: int)
    ensures Number(Step(above, points), "above") == above && Number(Step(above, points), "points") == points
  {
  }

  lemma WidespreadCeiling(files: nat)
    ensures !Boundless(WIDESPREAD) && Descends(WIDESPREAD) && Ceiling(WIDESPREAD, files) <= 10
    ensures files > 50 ==> Ceiling(WIDESPREAD, files) == 10
  {
    var steps := Steps(WIDESPREAD.scoring.thresholds);
    StepRead(50, 10);
    StepRead(20, 6);
    StepRead(5, 3);
    StepRead(0, 0);
    assert steps == [Threshold(50, 10), Threshold(20, 6), Threshold(5, 3), Threshold(0, 0)];
    StepsBelow(steps, files, 10);
    if files > 50 {
      StepGiven(steps, files, 0);
    }
  }

  ghost predicate AllBounded(rules: seq<RiskRule>) {
    forall i :: 0 <= i < |rules| ==> !Boundless(rules[i]) && Descends(rules[i])
  }

  lemma {:induction false} CeilingsJoin(a: seq<RiskRule>, b: seq<RiskRule>, files: nat)
    requires AllBounded(a) && AllBounded(b)
    ensures AllBounded(a + b) && CeilingSum(a + b, files) == CeilingSum(a, files) + CeilingSum(b, files)
  {
    if b == [] {
      assert a + b == a;
    } else {
      CeilingsJoin(a, b[..|b| - 1], files);
      assert (a + b)[..|a + b| - 1] == a + b[..|b| - 1];
    }
  }

  lemma ThreeCeilings(rules: seq<RiskRule>, files: nat)
    requires |rules| == 3
    ensures CeilingSum(rules, files) == Ceiling(rules[0], files) + Ceiling(rules[1], files) + Ceiling(rules[2], files)
  {
    CeilingsOf(rules, 1, files);
    CeilingsOf(rules, 2, files);
    CeilingsOf(rules, 3, files);
  }

  lemma CeilingsOf(rules: seq<RiskRule>, n: nat, files: nat)
    requires 0 < n <= |rules|
    ensures CeilingSum(rules[..n], files) == CeilingSum(rules[..n - 1], files) + Ceiling(rules[n - 1], files)
    ensures rules[..|rules|] == rules
  {
    assert rules[..n][..n - 1] == rules[..n - 1];
  }

  lemma ModelsCeilings(r: seq<RiskRule>, files: nat)
    requires r == MODELS
    ensures AllBounded(r) && CeilingSum(r, files) == if files > 0 then 35 else 0
  {
    CountedCeiling("RSK001", ["PYD001", "PYD002"], 3, 15, files);
    CountedCeiling("RSK002", ["PYD003", "PYD004", "PYD005", "PYD006", "PYD007", "PYD008"], 2, 10, files);
    CountedCeiling("RSK003", ["PYD009", "PYD010", "PYD011"], 2, 10, files);
    ThreeCeilings(r, files);
  }

  lemma CallsCeilings(r: seq<RiskRule>, files: nat)
    requires r == CALLS
    ensures AllBounded(r) && CeilingSum(r, files) == if files > 0 then 30 else 0
  {
    CountedCeiling("RSK004", ["PYD012", "PYD013", "PYD014", "PYD015"], 2, 10, files);
    CountedCeiling("RSK005", ["PYD016", "PYD017"], 2, 8, files);
    CountedCeiling("RSK006", ["PYD021"], 4, 12, files);
    ThreeCeilings(r, files);
  }

  lemma RepositoryCeilings(r: seq<RiskRule>, files: nat)
    requires r == REPOSITORY
    ensures AllBounded(r) && CeilingSum(r, files) <= 23 && (files > 50 ==> CeilingSum(r, files) == 23)
  {
    WidespreadCeiling(files);
    SignalCeiling("RSK008", 8, "no_test_files", files);
    SignalCeiling("RSK009", 5, "no_ci_detected", files);
    ThreeCeilings(r, files);
  }

  lemma ReviewCeilings(r: seq<RiskRule>, files: nat)
    requires r == REVIEW
    ensures AllBounded(r) && CeilingSum(r, files) == if files > 0 then 15 else 0
  {
    CountedCeiling("RSK010", ["PYD019"], 3, 9, files);
    CountedCeiling("RSK011", ["PYD020", "PYD022"], 2, 6, files);
    CeilingsOf(r, 1, files);
    CeilingsOf(r, 2, files);
  }

  lemma PydanticCeilings(r: seq<RiskRule>, files: nat)
    requires r == PYDANTIC.rules
    ensures forall rule :: rule in r ==> !Boundless(rule) && Descends(rule)
    ensures CeilingSum(r, files) <= 103 && (files > 50 ==> CeilingSum(r, files) == 103)
  {
    ModelsCeilings(MODELS, files);
    CallsCeilings(CALLS, files);
    RepositoryCeilings(REPOSITORY, files);
    ReviewCeilings(REVIEW, files);
    CeilingsJoin(MODELS, CALLS, files);
    CeilingsJoin(MODELS + CALLS, REPOSITORY, files);
    CeilingsJoin(MODELS + CALLS + REPOSITORY, REVIEW, files);
  }

  /**
   The pydantic model can clip: it gives up to 103 points against a maximum of 100, and on its worst repository
   with 51 affected files it gives all of them, so that the validator rejects the scorer's own assessment.
   */
  lemma PydanticPackCanClip(worst: seq<Finding>)
    requires worst == WorstRepository(PYDANTIC.rules, 51)
    ensures forall findings, testCi :: Uncapped(PYDANTIC.rules, findings, testCi) <= 103
    ensures Uncapped(PYDANTIC.rules, worst, TestCi(None, [])) == 103
    ensures Score(worst, TestCi(None, []), PYDANTIC).total == 100
    ensures Rejected(PYDANTIC, worst, TestCi(None, [])) && Scannable(PYDANTIC.rules, worst)
  {
    WorstIsScannable(PYDANTIC.rules, 51, worst);
    PydanticCeilings(PYDANTIC.rules, 51);
    WorstReachesCeilings(PYDANTIC.rules, 51);
    ScoreAcceptedIff(worst, TestCi(None, []), PYDANTIC);
    forall findings, testCi
      ensures Uncapped(PYDANTIC.rules, findings, testCi) <= 103
    {
      PydanticCeilings(PYDANTIC.rules, |FilesOf(findings)|);
      SumBelowCeilings(PYDANTIC.rules, findings, testCi);
    }
  }

  lemma {:induction false} NothingGained(rules: seq<RiskRule>, findings: seq<Finding>, testCi: TestCi)
    requires forall i :: 0 <= i < |rules| ==> RulePoints(rules[i], findings, testCi) <= 0
    ensures Uncapped(rules, findings, testCi) == 0
  {
    if rules != [] {
      UncappedNext(rules, findings, testCi);
      NothingGained(rules[..|rules| - 1], findings, testCi);
    }
  }

  lemma {:induction false} UncappedJoin(a: seq<RiskRule>, b: seq<RiskRule>, findings: seq<Finding>, testCi: TestCi)
    ensures Uncapped(a + b, findings, testCi) == Uncapped(a, findings, testCi) + Uncapped(b, findings, testCi)
  {
    if b == [] {
      assert a + b == a;
    } else {
      assert (a + b)[..|a + b| - 1] == a + b[..|b| - 1];
      UncappedNext(a + b, findings, testCi);
      UncappedNext(b, findings, testCi);
      UncappedJoin(a, b[..|b| - 1], findings, testCi);
    }
  }

  lemma CountedNothing(rules: seq<RiskRule>, testCi: TestCi)
    requires forall i :: 0 <= i < |rules| ==> rules[i].ruleIds != [] && rules[i].scoring.kind == "count_scaled"
    ensures Uncapped(rules, [], testCi) == 0
  {
    forall i | 0 <= i < |rules|
      ensures RulePoints(rules[i], [], testCi) <= 0
    {
      CountedPoints(rules[i], [], testCi);
    }
    NothingGained(rules, [], testCi);
  }

  lemma NoFilesNoSteps(testCi: TestCi)
    ensures RulePoints(WIDESPREAD, [], testCi) == 0
  {
    StepRead(50, 10);
    StepRead(20, 6);
    StepRead(5, 3);
    StepRead(0, 0);
    assert Steps(WIDESPREAD.scoring.thresholds) == [Threshold(50, 10), Threshold(20, 6), Threshold(5, 3), Threshold(0, 0)];
    assert FilesOf([]) == {};
  }

  lemma SignalGain(id: Id, points: nat, source: string, testCi: TestCi)
    ensures source == "no_test_files" ==>
              Gain(Signal(id, points, source), [], testCi) == if testCi.testFiles == None || testCi.testFiles == Some(0) then points else 0
    ensures source == "no_ci_detected" ==>
              Gain(Signal(id, points, source), [], testCi) == if testCi.ciSystems == [] then points else 0
  {
    BooleanPoints(Signal(id, points, source), [], testCi);
  }

  lemma ThreeGains(rules: seq<RiskRule>, findings: seq<Finding>, testCi: TestCi)
    requires |rules| == 3
    ensures Uncapped(rules, findings, testCi) ==
              Gain(rules[0], findings, testCi) + Gain(rules[1], findings, testCi) + Gain(rules[2], findings, testCi)
  {
    assert rules[..2][..1] == rules[..1] && rules[..1][..0] == [];
    UncappedNext(rules, findings, testCi);
    UncappedNext(rules[..2], findings, testCi);
    UncappedNext(rules[..1], findings, testCi);
  }

  lemma RepositoryGains(r: seq<RiskRule>, testCi: TestCi)
    requires r == REPOSITORY
    ensures Uncapped(r, [], testCi) == (if testCi.testFiles == None || testCi.testFiles == Some(0) then 8 else 0)
                                       + (if testCi.ciSystems == [] then 5 else 0)
  {
    NoFilesNoSteps(testCi);
    SignalGain("RSK008", 8, "no_test_files", testCi);
    SignalGain("RSK009", 5, "no_ci_detected", testCi);
    ThreeGains(r, [], testCi);
  }

  lemma FourParts(a: seq<RiskRule>, b: seq<RiskRule>, c: seq<RiskRule>, d: seq<RiskRule>, testCi: TestCi)
    ensures Uncapped(a + b + c + d, [], testCi)
            == Uncapped(a, [], testCi) + Uncapped(b, [], testCi) + Uncapped(c, [], testCi) + Uncapped(d, [], testCi)
  {
    UncappedJoin(a, b, [], testCi);
    UncappedJoin(a + b, c, [], testCi);
    UncappedJoin(a + b + c, d, [], testCi);
  }

  lemma CountingParts(r: seq<RiskRule>, testCi: TestCi)
    requires r == MODELS || r == CALLS || r == REVIEW
    ensures Uncapped(r, [], testCi) == 0
  {
    CountedNothing(r, testCi);
  }

  lemma PydanticSum(testCi: TestCi)
    ensures Uncapped(PYDANTIC.rules, [], testCi) == Uncapped(REPOSITORY, [], testCi)
  {
    CountingParts(MODELS, testCi);
    CountingParts(CALLS, testCi);
    CountingParts(REVIEW, testCi);
    FourParts(MODELS, CALLS, REPOSITORY, REVIEW, testCi);
  }

  /** Under the pydantic rules a repository without findings scores 8 for having no tests, and 5 for having no CI. */
  lemma PydanticSignals(testCi: TestCi)
    ensures Score([], testCi, PYDANTIC).total ==
              (if testCi.testFiles == None || testCi.testFiles == Some(0) then 8 else 0) + (if testCi.ciSystems == [] then 5 else 0)
  {
    PydanticSum(testCi);
    RepositoryGains(REPOSITORY, testCi);
  }

  /**
   A boolean rule alone: one for missing tests scores exactly when no test file is counted, whatever the CI, and one
   for missing CI exactly when no CI system is listed, whatever the tests.
   */
  lemma SignalAlone(rules: RiskRules, id: Id, points: nat, source: string, findings: seq<Finding>, testCi: TestCi)
    requires rules.rules == [Signal(id, points, source)] && points > 0
    ensures source == "no_test_files" ==>
              Score(findings, testCi, rules).total ==
                if testCi.testFiles == None || testCi.testFiles == Some(0) then Least(points, rules.maxPoints) else 0
    ensures source == "no_ci_detected" ==>
              Score(findings, testCi, rules).total == if testCi.ciSystems == [] then Least(points, rules.maxPoints) else 0
  {
    BooleanPoints(Signal(id, points, source), findings, testCi);
    UncappedNext(rules.rules, findings, testCi);
    assert rules.rules[..0] == [];
  }

  /** More findings never lower the score under the pydantic model. */
  lemma PydanticNeverFalls()
    ensures NeverFalls(PYDANTIC)
  {
    PydanticCeilings(PYDANTIC.rules, 0);
    DescendingRises(PYDANTIC);
    MoreFindingsMoreRiskIff(PYDANTIC);
  }

  // ---- migration_packs/django_v3_to_v4/risk_rules.yaml ------------------------------------------------

  function DjangoCounted(id: Id, ruleIds: seq<string>, points: int, cap: int): RiskRule {
    RiskRule(id, "", Scoring("count_scaled", map["points_per_occurrence" := points, "cap" := cap], []), ruleIds, None)
  }

  function DjangoBoolean(id: Id, ruleIds: seq<string>, points: int, source: Option<string>): RiskRule {
    RiskRule(id, "", Scoring("boolean", map["points_if_true" := points], []), ruleIds, source)
  }

  const DJANGO: RiskRules := RiskRules(
    [DjangoCounted("url_configuration", ["DJG005"], 5, 20),
     DjangoCounted("removed_utilities", ["DJG006", "DJG007", "DJG008"], 3, 30),
     DjangoBoolean("csrf_configuration", ["DJG003"], 15, None),
     DjangoBoolean("database_configuration", ["DJG009"], 10, None),
     DjangoBoolean("no_tests", [], 15, Some("test_profile.test_files")),
     DjangoBoolean("no_ci", [], 10, Some("test_profile.ci_systems"))],
    [LevelThreshold("LOW", 0), LevelThreshold("MEDIUM", 20), LevelThreshold("HIGH", 50), LevelThreshold("CRITICAL", 80)],
    100, "1.0.0")

  function Respelled(rule: RiskRule, numbers: map<string, int>): RiskRule {
    rule.(scoring := rule.scoring.(numbers := numbers))
  }

  /** With the fields spelled as they are, no rule of the Django model can score. */
  lemma DjangoSpelling(id: Id, ruleIds: seq<string>, points: int, cap: int, source: Option<string>)
    ensures !CanScore(DjangoCounted(id, ruleIds, points, cap)) && !CanScore(DjangoBoolean(id, ruleIds, points, source))
  {
  }

  /** Hence every Django repository, whatever is found in it, scores 0 and low. */
  lemma DjangoPackAlwaysLow(findings: seq<Finding>, testCi: TestCi)
    ensures Score(findings, testCi, DJANGO).total == 0
    ensures Score(findings, testCi, DJANGO).level == "low"
  {
    forall rule | rule in DJANGO.rules
      ensures !CanScore(rule)
    {
      DjangoRules(rule);
    }
    AlwaysZeroIff(DJANGO);
    LowAtZero(Reached(DJANGO.levels, 0));
  }

  lemma DjangoRules(rule: RiskRule)
    requires rule in DJANGO.rules
    ensures !CanScore(rule)
  {
    DjangoSpelling("url_configuration", ["DJG005"], 5, 20, None);
    DjangoSpelling("removed_utilities", ["DJG006", "DJG007", "DJG008"], 3, 30, None);
    DjangoSpelling("csrf_configuration", ["DJG003"], 15, 0, None);
    DjangoSpelling("database_configuration", ["DJG009"], 10, 0, None);
    DjangoSpelling("no_tests", [], 15, 0, Some("test_profile.test_files"));
    DjangoSpelling("no_ci", [], 10, 0, Some("test_profile.ci_systems"));
  }

  lemma LowAtZero(reached: Option<LevelThreshold>)
    requires reached == Reached(DJANGO.levels, 0)
    ensures Lower(LevelName(reached)) == "low"
  {
    var levels := DJANGO.levels;
    assert levels[0] == LevelThreshold("LOW", 0);
    assert levels[0] in levels;
    assert forall i :: 0 < i < |levels| ==> levels[i].minPoints > 0;
    assert reached == Some(levels[0]);
    assert Lower("LOW") == "low";
  }

  /**
   Respelled, exactly the two counting rules can score, exactly when they name their points `per_occurrence`.
   The boolean rules cannot under any names: two list rule ids and two name sources the scorer does not know.
   */
  lemma DjangoFieldNames(i: nat, numbers: map<string, int>)
    requires i < |DJANGO.rules|
    ensures CanScore(Respelled(DJANGO.rules[i], numbers)) <==>
              i < 2 && Number(numbers, "per_occurrence") > 0 && ("cap" in numbers ==> numbers["cap"] > 0)
  {
    DjangoShape(DJANGO.rules[i], i);
  }

  lemma DjangoShape(rule: RiskRule, i: nat)
    requires i < |DJANGO.rules| && rule == DJANGO.rules[i]
    ensures if i < 2 then rule.ruleIds != [] && rule.scoring.kind == "count_scaled"
            else rule.scoring.kind == "boolean" && (i < 4 <==> rule.ruleIds != [])
                 && (i >= 4 ==> rule.source != Some("no_test_files") && rule.source != Some("no_ci_detected"))
  {
    assert "test_profile.ci_systems"[0] == 't';
    assert "test_profile.test_files"[0] == 't';
    assert "no_test_files"[0] == 'n' && "no_ci_detected"[0] == 'n';
  }
}
