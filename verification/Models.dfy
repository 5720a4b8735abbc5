/** The records the analysis passes around, reduced to the fields that the modelled code reads or writes. */
module Models {
  import opened Outcomes

  type Id = string

  // A line number is None when the field does not hold a whole number.
  datatype Snippet = Snippet(start: Option<int>, end: Option<int>, text: string)

  // A text field that is missing is the empty string, here and below.
  datatype Finding = Finding(id: Id, ruleId: string, file: string, symbol: string, packId: Id, packVersion: string,
                             snippet: Snippet, rest: string)

  datatype Doc = Doc(id: Id, relatedRules: set<string>, sourceId: Id, url: string, excerpt: string, rest: string)

  datatype Claim = Claim(id: Id, text: string, findingIds: seq<Id>, docIds: seq<Id>, repoIds: seq<Id>, rest: string)

  datatype Plan = Plan(claims: seq<Claim>, worklist: seq<string>, rest: string)

  // What the source's empty dict stands for.
  const EMPTY_PLAN: Plan := Plan([], [], "")

  datatype Issue = Issue(validator: string, repairable: bool, claimId: Option<Id>, evidenceId: Option<Id>)

  datatype Component = Component(componentId: Id, description: string, points: int, supporting: seq<Id>)

  datatype Assessment = Assessment(total: int, level: string, components: seq<Component>, version: string)

  datatype TestCi = TestCi(testFiles: Option<int>, ciSystems: seq<string>)

  // A scoring block as the file spells it: the schema asks for its kind only and lets any other field through.
  datatype Scoring = Scoring(kind: string, numbers: map<string, int>, thresholds: seq<map<string, int>>)

  datatype RiskRule =
    RiskRule(componentId: Id, description: string, scoring: Scoring, ruleIds: seq<string>, source: Option<string>)

  datatype LevelThreshold = LevelThreshold(level: string, minPoints: nat)

  datatype RiskRules = RiskRules(rules: seq<RiskRule>, levels: seq<LevelThreshold>, maxPoints: nat, version: string)

  // `sources` gives the canonical URL of every trusted source.
  datatype Pack = Pack(id: Id, version: string, ruleIds: set<string>, sources: map<Id, string>, domains: set<string>,
                       risk: RiskRules)

  // A raw critic instruction that fails schema validation is Malformed.
  datatype Instruction = Malformed
                       | Repair(claimId: Id, text: string, keepFindings: seq<Id>, keepDocs: seq<Id>)
}
