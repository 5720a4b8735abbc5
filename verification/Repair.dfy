/**
 The single repair pass: what the critic may propose (src/upgradepilot/agents/evidence_critic.py) and
 how its instructions are applied to the plan (src/upgradepilot/graph/nodes/agents.py:124-159).
 */
module Repair {
  import opened Outcomes
  import opened Models
  import opened FlatMaps
  import opened Evidence

  // ---- Which claim an id means ----------------------------------------------------------------------

  /** The index a dictionary built over the claims holds for an id: the last claim with it. */
  function LastWith(claims: seq<Claim>, id: Id): (at: Option<nat>)
    ensures at.Some? ==> at.value < |claims| && claims[at.value].id == id
    ensures forall i :: 0 <= i < |claims| && claims[i].id == id ==> at.Some? && i <= at.value
  {
    if claims == [] then None
    else if claims[|claims| - 1].id == id then Some(|claims| - 1)
    else LastWith(claims[..|claims| - 1], id)
  }

  ghost predicate DistinctIds(claims: seq<Claim>) {
    forall i, j :: 0 <= i < j < |claims| ==> claims[i].id != claims[j].id
  }

  // ---- Applying instructions ------------------------------------------------------------------------

  function Select(ids: seq<Id>, keep: Id -> bool): (kept: seq<Id>)
    ensures forall id :: id in kept <==> id in ids && keep(id)
  {
    if ids == [] then []
    else
      var kept := Select(ids[..|ids| - 1], keep);
      assert forall id :: id in ids <==> id in ids[..|ids| - 1] || id == ids[|ids| - 1];
      if keep(ids[|ids| - 1]) then kept + [ids[|ids| - 1]] else kept
  }

  /** An empty keep list keeps everything. */
  function Keeps(keep: seq<Id>): Id -> bool {
    (id: Id) => keep == [] || id in keep
  }

  function Trimmed(claim: Claim, text: string, keepFindings: seq<Id>, keepDocs: seq<Id>): Claim {
    claim.(text := text,
           findingIds := Select(claim.findingIds, Keeps(keepFindings)),
           docIds := Select(claim.docIds, Keeps(keepDocs)))
  }

  function ApplyOne(claims: seq<Claim>, raw: Instruction): seq<Claim> {
    if raw.Malformed? then claims
    else
      var at := LastWith(claims, raw.claimId);
      if at.None? then claims
      else claims[at.value := Trimmed(claims[at.value], raw.text, raw.keepFindings, raw.keepDocs)]
  }

  function ApplyAll(claims: seq<Claim>, raws: seq<Instruction>): seq<Claim> {
    if raws == [] then claims else ApplyOne(ApplyAll(claims, raws[..|raws| - 1]), raws[|raws| - 1])
  }

  /** What the repaired plan reports about an instruction it could not use. */
  function SkipWarning(claims: seq<Claim>): Instruction -> seq<string> {
    (raw: Instruction) =>
      if raw.Malformed? then ["REPAIR_SKIPPED: malformed repair instruction."]
      else if LastWith(claims, raw.claimId).None? then ["REPAIR_SKIPPED: unknown claim_id " + raw.claimId + "."]
      else []
  }

  function Repaired(plan: Plan, raws: seq<Instruction>): Plan {
    plan.(claims := ApplyAll(plan.claims, raws))
  }

  method ApplyRepairInstructions(plan: Plan, raws: seq<Instruction>) returns (repaired: Plan, warnings: seq<string>)
    ensures repaired == Repaired(plan, raws)
    ensures warnings == FlatMap(raws, SkipWarning(plan.claims))
  {
    var claims := plan.claims;
    warnings := [];
    for i := 0 to |raws|
      invariant claims == ApplyAll(plan.claims, raws[..i])
      invariant warnings == FlatMap(raws[..i], SkipWarning(plan.claims))
    {
      assert raws[..i + 1][..i] == raws[..i];
      FlatMapNext(raws, SkipWarning(plan.claims), i);
      ApplyKeepsIds(plan.claims, raws[..i]);
      match raws[i] {
        case Malformed =>
          warnings := warnings + ["REPAIR_SKIPPED: malformed repair instruction."];
        case Repair(claimId, text, keepFindings, keepDocs) =>
          SameIdsSameIndex(plan.claims, claims, claimId);
          var at := LastWith(claims, claimId);
          if at.None? {
            warnings := warnings + ["REPAIR_SKIPPED: unknown claim_id " + claimId + "."];
          } else {
            claims := claims[at.value := Trimmed(claims[at.value], text, keepFindings, keepDocs)];
          }
      }
    }
    assert raws[..|raws|] == raws;
    repaired := plan.(claims := claims);
  }

  ghost predicate SameIds(a: seq<Claim>, b: seq<Claim>) {
    |a| == |b| && forall i :: 0 <= i < |a| ==> a[i].id == b[i].id
  }

  lemma {:induction false} SameIdsSameIndex(a: seq<Claim>, b: seq<Claim>, id: Id)
    requires SameIds(a, b)
    ensures LastWith(a, id) == LastWith(b, id)
  {
    if a != [] {
      SameIdsSameIndex(a[..|a| - 1], b[..|b| - 1], id);
    }
  }

  lemma {:induction false} ApplyKeepsIds(claims: seq<Claim>, raws: seq<Instruction>)
    ensures SameIds(claims, ApplyAll(claims, raws))
  {
    if raws != [] {
      ApplyKeepsIds(claims, raws[..|raws| - 1]);
    }
  }

  // ---- What survives ----------------------------------------------------------------------------------

  /** Every instruction aimed at the claim id keeps the finding. */
  function FindingSurvives(raws: seq<Instruction>, claimId: Id): Id -> bool {
    (id: Id) => forall raw :: raw in raws && raw.Repair? && raw.claimId == claimId ==> Keeps(raw.keepFindings)(id)
  }

  function DocSurvives(raws: seq<Instruction>, claimId: Id): Id -> bool {
    (id: Id) => forall raw :: raw in raws && raw.Repair? && raw.claimId == claimId ==> Keeps(raw.keepDocs)(id)
  }

  ghost predicate Repairable(claims: seq<Claim>, i: nat) {
    i < |claims| && LastWith(claims, claims[i].id) == Some(i)
  }

  lemma {:induction false} SelectTwice(ids: seq<Id>, p: Id -> bool, q: Id -> bool, both: Id -> bool)
    requires forall id :: both(id) <==> p(id) && q(id)
    ensures Select(Select(ids, p), q) == Select(ids, both)
  {
    if ids != [] {
      SelectTwice(ids[..|ids| - 1], p, q, both);
      var kept := Select(ids[..|ids| - 1], p);
      assert (kept + [ids[|ids| - 1]])[..|kept|] == kept;
    }
  }

  lemma {:induction false} SelectAll(ids: seq<Id>, p: Id -> bool)
    requires forall id :: id in ids ==> p(id)
    ensures Select(ids, p) == ids
  {
    if ids != [] {
      SelectAll(ids[..|ids| - 1], p);
    }
  }

  /**
   Whatever the instructions, the repaired plan has the same claims in the same order with the same ids
   and repository evidence; each citation list is the original one, in order, less exactly the citations
   that some instruction aimed at the claim drops. Of claims sharing an id only the last is touched.
   */
  lemma {:induction false} RepairOnlyDrops(claims: seq<Claim>, raws: seq<Instruction>, i: nat)
    requires i < |claims|
    ensures SameIds(claims, ApplyAll(claims, raws))
    ensures var after := ApplyAll(claims, raws)[i];
            if Repairable(claims, i) then
              && after.id == claims[i].id && after.repoIds == claims[i].repoIds && after.rest == claims[i].rest
              && after.findingIds == Select(claims[i].findingIds, FindingSurvives(raws, claims[i].id))
              && after.docIds == Select(claims[i].docIds, DocSurvives(raws, claims[i].id))
            else after == claims[i]
  {
    ApplyKeepsIds(claims, raws);
    var id := claims[i].id;
    if raws == [] {
      SelectAll(claims[i].findingIds, FindingSurvives(raws, id));
      SelectAll(claims[i].docIds, DocSurvives(raws, id));
    } else {
      var n := |raws| - 1;
      var earlier, raw := raws[..n], raws[n];
      RepairOnlyDrops(claims, earlier, i);
      var before := ApplyAll(claims, earlier);
      assert forall r :: r in raws <==> r in earlier || r == raw;
      if raw.Repair? {
        SameIdsSameIndex(claims, before, raw.claimId);
      }
      if Repairable(claims, i) {
        if raw.Repair? && raw.claimId == id {
          SelectTwice(claims[i].findingIds, FindingSurvives(earlier, id), Keeps(raw.keepFindings), FindingSurvives(raws, id));
          SelectTwice(claims[i].docIds, DocSurvives(earlier, id), Keeps(raw.keepDocs), DocSurvives(raws, id));
        } else {
          SelectSame(claims[i].findingIds, FindingSurvives(earlier, id), FindingSurvives(raws, id));
          SelectSame(claims[i].docIds, DocSurvives(earlier, id), DocSurvives(raws, id));
        }
      }
    }
  }

  lemma {:induction false} SelectSame(ids: seq<Id>, p: Id -> bool, q: Id -> bool)
    requires forall id :: p(id) <==> q(id)
    ensures Select(ids, p) == Select(ids, q)
  {
    if ids != [] {
      SelectSame(ids[..|ids| - 1], p, q);
    }
  }

  /** The text the last of the instructions gives the claim id, if any does. */
  ghost predicate LastText(raws: seq<Instruction>, claimId: Id, text: string) {
    exists k :: 0 <= k < |raws| && raws[k].Repair? && raws[k].claimId == claimId && raws[k].text == text
                && forall j :: k < j < |raws| ==> raws[j].Repair? ==> raws[j].claimId != claimId
  }

  ghost predicate Addressed(raws: seq<Instruction>, claimId: Id) {
    exists k :: 0 <= k < |raws| && raws[k].Repair? && raws[k].claimId == claimId
  }

  /** A claim that can be repaired says what the last instruction for it says, and any other what it said before. */
  lemma {:induction false} RepairedText(claims: seq<Claim>, raws: seq<Instruction>, i: nat)
    requires i < |claims|
    ensures |ApplyAll(claims, raws)| == |claims|
    ensures var after := ApplyAll(claims, raws)[i].text;
            if Repairable(claims, i) && Addressed(raws, claims[i].id) then LastText(raws, claims[i].id, after)
            else after == claims[i].text
  {
    ApplyKeepsIds(claims, raws);
    if raws != [] {
      var n := |raws| - 1;
      RepairedText(claims, raws[..n], i);
      TextNext(claims, ApplyAll(claims, raws[..n]), raws, i);
    }
  }

  lemma TextNext(claims: seq<Claim>, before: seq<Claim>, raws: seq<Instruction>, i: nat)
    requires raws != [] && i < |claims| && SameIds(claims, before)
    requires if Repairable(claims, i) && Addressed(raws[..|raws| - 1], claims[i].id)
             then LastText(raws[..|raws| - 1], claims[i].id, before[i].text) else before[i].text == claims[i].text
    ensures |ApplyOne(before, raws[|raws| - 1])| == |claims|
    ensures var after := ApplyOne(before, raws[|raws| - 1])[i].text;
            if Repairable(claims, i) && Addressed(raws, claims[i].id) then LastText(raws, claims[i].id, after)
            else after == claims[i].text
  {
    var n := |raws| - 1;
    var raw, id := raws[n], claims[i].id;
    if raw.Repair? {
      SameIdsSameIndex(claims, before, raw.claimId);
    }
    AddressedNext(raws, id);
    if raw.Repair? && raw.claimId == id {
      assert LastText(raws, id, raw.text);
    } else if Repairable(claims, i) && Addressed(raws[..n], id) {
      TextStays(raws, id, before[i].text);
    }
  }

  lemma AddressedNext(raws: seq<Instruction>, id: Id)
    requires raws != []
    ensures var n := |raws| - 1;
            Addressed(raws, id) <==> Addressed(raws[..n], id) || (raws[n].Repair? && raws[n].claimId == id)
  {
    var n := |raws| - 1;
    if k :| 0 <= k < n && raws[..n][k].Repair? && raws[..n][k].claimId == id {
      assert raws[k] == raws[..n][k];
    }
    if k :| 0 <= k < |raws| && raws[k].Repair? && raws[k].claimId == id {
      assert k < n ==> raws[..n][k] == raws[k];
    }
  }

  lemma TextStays(raws: seq<Instruction>, id: Id, text: string)
    requires raws != [] && LastText(raws[..|raws| - 1], id, text)
    requires raws[|raws| - 1].Repair? ==> raws[|raws| - 1].claimId != id
    ensures LastText(raws, id, text)
  {
    var n := |raws| - 1;
    var k :| 0 <= k < n && raws[..n][k].Repair? && raws[..n][k].claimId == id && raws[..n][k].text == text
             && forall j :: k < j < n ==> raws[..n][j].Repair? ==> raws[..n][j].claimId != id;
    assert raws[k] == raws[..n][k];
    forall j | k < j < |raws|
      ensures raws[j].Repair? ==> raws[j].claimId != id
    {
      if j < n {
        assert raws[j] == raws[..n][j];
      }
    }
  }

  /** An instruction that fails its schema or names no claim of the plan draws one warning; any other draws none. */
  lemma WarnedIff(claims: seq<Claim>, raw: Instruction)
    ensures SkipWarning(claims)(raw) == [] <==> raw.Repair? && exists i :: 0 <= i < |claims| && claims[i].id == raw.claimId
    ensures raw.Malformed? ==> SkipWarning(claims)(raw) == ["REPAIR_SKIPPED: malformed repair instruction."]
    ensures raw.Repair? && SkipWarning(claims)(raw) != [] ==>
              SkipWarning(claims)(raw) == ["REPAIR_SKIPPED: unknown claim_id " + raw.claimId + "."]
  {
  }

  // ---- References stay sound --------------------------------------------------------------------------

  ghost predicate AllGrounded(claims: seq<Claim>, findings: set<Id>, docs: set<Id>) {
    forall i :: 0 <= i < |claims| ==> Grounded(claims[i], findings, docs)
  }

  /** The instructions aimed at a claim agree on at least one finding and one document it cites. */
  ghost predicate SpareOne(claims: seq<Claim>, raws: seq<Instruction>, i: nat)
    requires i < |claims|
  {
    && (exists id :: id in claims[i].findingIds && FindingSurvives(raws, claims[i].id)(id))
    && (exists id :: id in claims[i].docIds && DocSurvives(raws, claims[i].id)(id))
  }

  /**
   On a plan whose references are sound, any instructions keep them sound exactly when they leave every
   claim they can touch one cited finding and one cited document.
   */
  lemma RepairKeepsGroundingIff(claims: seq<Claim>, raws: seq<Instruction>, findings: set<Id>, docs: set<Id>)
    requires AllGrounded(claims, findings, docs)
    ensures AllGrounded(ApplyAll(claims, raws), findings, docs) <==>
              forall i :: Repairable(claims, i) ==> SpareOne(claims, raws, i)
  {
    ApplyKeepsIds(claims, raws);
    forall i | 0 <= i < |claims|
      ensures Grounded(ApplyAll(claims, raws)[i], findings, docs) <==>
                (Repairable(claims, i) ==> SpareOne(claims, raws, i))
    {
      RepairOnlyDrops(claims, raws, i);
      assert Grounded(claims[i], findings, docs);
      if Repairable(claims, i) {
        NonEmpty(claims[i].findingIds, FindingSurvives(raws, claims[i].id));
        NonEmpty(claims[i].docIds, DocSurvives(raws, claims[i].id));
      }
    }
  }

  lemma NonEmpty(ids: seq<Id>, keep: Id -> bool)
    ensures Select(ids, keep) != [] <==> exists id :: id in ids && keep(id)
  {
    var kept := Select(ids, keep);
    if kept != [] {
      assert kept[0] in kept;
    }
    if exists id :: id in ids && keep(id) {
      var id :| id in ids && keep(id);
      assert id in kept;
    }
  }

  // ---- The critic's contract --------------------------------------------------------------------------

  datatype CriticError = UnknownClaim(id: Id) | AddsFindings(id: Id) | AddsDocs(id: Id)

  /** The claims named by a repairable issue. */
  function FailedClaims(issues: seq<Issue>, claims: seq<Claim>): (failed: seq<Claim>)
    ensures forall claim :: claim in failed <==> claim in claims && NamedByIssue(issues, claim.id)
  {
    if claims == [] then []
    else
      var n := |claims| - 1;
      var failed := FailedClaims(issues, claims[..n]);
      assert forall claim :: claim in claims <==> claim in claims[..n] || claim == claims[n];
      if NamedByIssue(issues, claims[n].id) then failed + [claims[n]] else failed
  }

  predicate NamedByIssue(issues: seq<Issue>, id: Id) {
    id != "" && exists issue :: issue in issues && issue.repairable && issue.claimId == Some(id)
  }

  /** The failed claims are listed as the plan lists them, each as often. */
  lemma {:induction false} FailedInOrder(issues: seq<Issue>, a: seq<Claim>, b: seq<Claim>)
    ensures FailedClaims(issues, a + b) == FailedClaims(issues, a) + FailedClaims(issues, b)
    ensures |b| == 1 ==> FailedClaims(issues, b) == if NamedByIssue(issues, b[0].id) then b else []
  {
    if b == [] {
      assert a + b == a;
    } else {
      assert (a + b)[..|a + b| - 1] == a + b[..|b| - 1];
      FailedInOrder(issues, a, b[..|b| - 1]);
    }
  }

  /** A claim of the plan that the validator would let a repair improve. */
  ghost predicate Improvable(c: Context, ch: Checks, claim: Claim) {
    || ch.overstates(claim.text)
    || (ch.recommends(claim.text) && (claim.findingIds == [] || claim.docIds == []))
    || !Covered(claim, FindingById(c.findings), DocById(c.docs), ch)
  }

  lemma NamedClaim(c: Context, ch: Checks, issues: seq<Issue>, id: Id) returns (claim: Claim)
    requires issues == PlanIssues(c, ch) && NamedByIssue(issues, id)
    ensures id != "" && c.pack.Some? && claim in c.plan.claims && claim.id == id && Improvable(c, ch, claim)
  {
    var issue :| issue in issues && issue.repairable && issue.claimId == Some(id);
    ReportedIff(c, ch, issue);
    claim := ClaimOf(c, ch, issue, id);
    ReportedIsImprovable(c, ch, claim, issue);
  }

  lemma ClaimOf(c: Context, ch: Checks, issue: Issue, id: Id) returns (claim: Claim)
    requires Reported(c, ch, issue) && issue.claimId == Some(id)
    ensures c.pack.Some? && claim in c.plan.claims
    ensures ClaimReported(claim, FindingById(c.findings), DocById(c.docs), c.dependencies, ch, issue)
  {
    claim :| claim in c.plan.claims
             && ClaimReported(claim, FindingById(c.findings), DocById(c.docs), c.dependencies, ch, issue);
  }

  /** Which claims the validation hands to the critic. */
  lemma NamedIff(c: Context, ch: Checks, id: Id)
    ensures NamedByIssue(PlanIssues(c, ch), id) <==>
              id != "" && c.pack.Some? && exists claim :: claim in c.plan.claims && claim.id == id && Improvable(c, ch, claim)
  {
    var issues := PlanIssues(c, ch);
    if NamedByIssue(issues, id) {
      var claim := NamedClaim(c, ch, issues, id);
    }
    if id != "" && c.pack.Some? {
      forall claim | claim in c.plan.claims && claim.id == id && Improvable(c, ch, claim)
        ensures NamedByIssue(issues, id)
      {
        ImprovableIsNamed(c, ch, claim);
      }
    }
  }

  lemma ReportedIsImprovable(c: Context, ch: Checks, claim: Claim, issue: Issue)
    requires ClaimReported(claim, FindingById(c.findings), DocById(c.docs), c.dependencies, ch, issue) && issue.repairable
    ensures issue.claimId == Some(claim.id) && Improvable(c, ch, claim)
  {
  }

  lemma ImprovableIsNamed(c: Context, ch: Checks, claim: Claim)
    requires claim in c.plan.claims && claim.id != "" && c.pack.Some? && Improvable(c, ch, claim)
    ensures NamedByIssue(PlanIssues(c, ch), claim.id)
  {
    var issue := IssueFor(claim, FindingById(c.findings), DocById(c.docs), c, ch);
    ReportedIff(c, ch, issue);
  }

  lemma IssueFor(claim: Claim, findings: map<Id, Finding>, docs: map<Id, Doc>, c: Context, ch: Checks) returns (issue: Issue)
    requires findings == FindingById(c.findings) && docs == DocById(c.docs) && Improvable(c, ch, claim)
    ensures issue.repairable && issue.claimId == Some(claim.id)
    ensures ClaimReported(claim, findings, docs, c.dependencies, ch, issue)
  {
    if ch.overstates(claim.text) {
      issue := Issue("V-PROHIBITED-CLAIM", true, Some(claim.id), None);
      assert LanguageReported(claim, c.dependencies, ch, issue);
    } else if ch.recommends(claim.text) && (claim.findingIds == [] || claim.docIds == []) {
      issue := Issue("V-EVIDENCE-COVERAGE", true, Some(claim.id), None);
      assert LanguageReported(claim, c.dependencies, ch, issue);
    } else if !NamesFindings(claim, findings, ch) {
      issue := Issue("V-GROUNDING", true, Some(claim.id), None);
      assert CoverageReported(claim, findings, docs, ch, issue);
    } else {
      var id :| id in claim.docIds && id in docs && !Relates(claim, findings, docs[id]);
      issue := Issue("V-EVIDENCE-COVERAGE", true, Some(claim.id), Some(id));
      assert CoverageReported(claim, findings, docs, ch, issue);
    }
  }

  /** What is wrong with one proposed repair, in the order the critic checks. */
  function Fault(repair: Instruction, failed: seq<Claim>): Option<CriticError>
    requires repair.Repair?
  {
    var at := LastWith(failed, repair.claimId);
    if at.None? then Some(UnknownClaim(repair.claimId))
    else if exists id :: id in repair.keepFindings && id !in failed[at.value].findingIds then
      Some(AddsFindings(repair.claimId))
    else if exists id :: id in repair.keepDocs && id !in failed[at.value].docIds then
      Some(AddsDocs(repair.claimId))
    else None
  }

  ghost predicate ValidRepairs(repairs: seq<Instruction>, failed: seq<Claim>) {
    forall i :: 0 <= i < |repairs| ==> repairs[i].Repair? && Fault(repairs[i], failed) == None
  }

  /** The last of the claims with this id. */
  ghost predicate LastNamed(claims: seq<Claim>, id: Id, claim: Claim) {
    exists i :: 0 <= i < |claims| && claims[i] == claim && claim.id == id && forall j :: i < j < |claims| ==> claims[j].id != id
  }

  lemma LastNamedIff(claims: seq<Claim>, id: Id, claim: Claim)
    ensures LastNamed(claims, id, claim) <==> LastWith(claims, id).Some? && claims[LastWith(claims, id).value] == claim
  {
    if i :| 0 <= i < |claims| && claims[i] == claim && claim.id == id && forall j :: i < j < |claims| ==> claims[j].id != id {
      assert claims[i].id == id;
    }
  }

  /** What each answer of the check means; an unknown claim is noticed first, then the findings, then the documents. */
  lemma FaultIff(repair: Instruction, failed: seq<Claim>)
    requires repair.Repair?
    ensures Fault(repair, failed) == None <==>
              exists claim :: LastNamed(failed, repair.claimId, claim)
                              && (forall id :: id in repair.keepFindings ==> id in claim.findingIds)
                              && forall id :: id in repair.keepDocs ==> id in claim.docIds
    ensures Fault(repair, failed) == Some(UnknownClaim(repair.claimId)) <==>
              forall claim :: claim in failed ==> claim.id != repair.claimId
    ensures Fault(repair, failed) == Some(AddsFindings(repair.claimId)) <==>
              exists claim :: LastNamed(failed, repair.claimId, claim)
                              && exists id :: id in repair.keepFindings && id !in claim.findingIds
  {
    var at := LastWith(failed, repair.claimId);
    forall claim
      ensures LastNamed(failed, repair.claimId, claim) <==> at.Some? && failed[at.value] == claim
    {
      LastNamedIff(failed, repair.claimId, claim);
    }
    if at.Some? {
      assert failed[at.value] in failed && LastNamed(failed, repair.claimId, failed[at.value]);
    }
  }

  /** The check the critic's proposals must pass; it stops at the first fault. */
  method ValidateRepairs(repairs: seq<Instruction>, failed: seq<Claim>) returns (r: Result<(), CriticError>)
    requires forall i :: 0 <= i < |repairs| ==> repairs[i].Repair?
    ensures r.Ok? <==> ValidRepairs(repairs, failed)
    ensures r.Err? ==> exists i :: 0 <= i < |repairs| && Fault(repairs[i], failed) == Some(r.error)
                                   && ValidRepairs(repairs[..i], failed)
  {
    for i := 0 to |repairs|
      invariant ValidRepairs(repairs[..i], failed)
    {
      var repair := repairs[i];
      var at := LastWith(failed, repair.claimId);
      if at.None? {
        return Err(UnknownClaim(repair.claimId));
      }
      var claim := failed[at.value];
      if exists id :: id in repair.keepFindings && id !in claim.findingIds {
        return Err(AddsFindings(repair.claimId));
      }
      if exists id :: id in repair.keepDocs && id !in claim.docIds {
        return Err(AddsDocs(repair.claimId));
      }
    }
    return Ok(());
  }

  /** No claim is the target of two instructions. */
  ghost predicate OncePerClaim(raws: seq<Instruction>) {
    forall i, j :: 0 <= i < j < |raws| && raws[i].Repair? && raws[j].Repair? ==> raws[i].claimId != raws[j].claimId
  }

  /** The failed claims contain, last, the same claim the plan's dictionary holds. */
  lemma {:induction false} FailedLast(issues: seq<Issue>, claims: seq<Claim>, id: Id)
    ensures LastWith(FailedClaims(issues, claims), id).Some? ==>
              LastWith(claims, id).Some?
              && FailedClaims(issues, claims)[LastWith(FailedClaims(issues, claims), id).value]
                 == claims[LastWith(claims, id).value]
  {
    if claims != [] {
      var n := |claims| - 1;
      var earlier := FailedClaims(issues, claims[..n]);
      FailedLast(issues, claims[..n], id);
      if NamedByIssue(issues, claims[n].id) {
        assert (earlier + [claims[n]])[..|earlier|] == earlier;
      }
    }
  }

  /**
   Repairs that pass the critic's check and aim at no claim twice keep a plan's references sound, and in
   particular never leave a claim without a finding or without a document.
   */
  lemma ValidRepairsKeepGrounding(
    claims: seq<Claim>, issues: seq<Issue>, repairs: seq<Instruction>, findings: set<Id>, docs: set<Id>)
    requires AllGrounded(claims, findings, docs)
    requires ValidRepairs(repairs, FailedClaims(issues, claims)) && OncePerClaim(repairs)
    ensures AllGrounded(ApplyAll(claims, repairs), findings, docs)
  {
    forall i | Repairable(claims, i)
      ensures SpareOne(claims, repairs, i)
    {
      ValidRepairsSpareOne(claims, issues, repairs, findings, docs, i);
    }
    RepairKeepsGroundingIff(claims, repairs, findings, docs);
  }

  lemma ValidRepairsSpareOne(
    claims: seq<Claim>, issues: seq<Issue>, repairs: seq<Instruction>, findings: set<Id>, docs: set<Id>, i: nat)
    requires AllGrounded(claims, findings, docs) && Repairable(claims, i)
    requires ValidRepairs(repairs, FailedClaims(issues, claims)) && OncePerClaim(repairs)
    ensures SpareOne(claims, repairs, i)
  {
    var claim := claims[i];
    assert Grounded(claim, findings, docs);
    if exists k :: 0 <= k < |repairs| && repairs[k].claimId == claim.id {
      var k :| 0 <= k < |repairs| && repairs[k].claimId == claim.id;
      FailedLast(issues, claims, claim.id);
      assert Fault(repairs[k], FailedClaims(issues, claims)) == None;
      SoleRepairSpares(claim, repairs, k);
    } else {
      UntouchedSpares(claim, repairs);
    }
  }

  /** The only repair of a claim keeps something when it keeps only what the claim cites. */
  lemma SoleRepairSpares(claim: Claim, repairs: seq<Instruction>, k: nat)
    requires k < |repairs| && repairs[k].Repair? && repairs[k].claimId == claim.id && OncePerClaim(repairs)
    requires forall i :: 0 <= i < |repairs| ==> repairs[i].Repair?
    requires claim.findingIds != [] && claim.docIds != []
    requires forall id :: id in repairs[k].keepFindings ==> id in claim.findingIds
    requires forall id :: id in repairs[k].keepDocs ==> id in claim.docIds
    ensures exists id :: id in claim.findingIds && FindingSurvives(repairs, claim.id)(id)
    ensures exists id :: id in claim.docIds && DocSurvives(repairs, claim.id)(id)
  {
    var repair := repairs[k];
    assert forall raw :: raw in repairs && raw.Repair? && raw.claimId == claim.id ==> raw == repair;
    var f := if repair.keepFindings == [] then claim.findingIds[0] else repair.keepFindings[0];
    var d := if repair.keepDocs == [] then claim.docIds[0] else repair.keepDocs[0];
    assert repair.keepFindings != [] ==> repair.keepFindings[0] in repair.keepFindings;
    assert repair.keepDocs != [] ==> repair.keepDocs[0] in repair.keepDocs;
    assert f in claim.findingIds && FindingSurvives(repairs, claim.id)(f);
    assert d in claim.docIds && DocSurvives(repairs, claim.id)(d);
  }

  lemma UntouchedSpares(claim: Claim, repairs: seq<Instruction>)
    requires claim.findingIds != [] && claim.docIds != []
    requires forall k :: 0 <= k < |repairs| ==> repairs[k].Repair? && repairs[k].claimId != claim.id
    ensures exists id :: id in claim.findingIds && FindingSurvives(repairs, claim.id)(id)
    ensures exists id :: id in claim.docIds && DocSurvives(repairs, claim.id)(id)
  {
    assert claim.findingIds[0] in claim.findingIds && FindingSurvives(repairs, claim.id)(claim.findingIds[0]);
    assert claim.docIds[0] in claim.docIds && DocSurvives(repairs, claim.id)(claim.docIds[0]);
  }

  /** Two valid repairs of one claim can between them drop every finding it cites. */
  lemma RepairedTwiceLosesGrounding()
    returns (claims: seq<Claim>, issues: seq<Issue>, repairs: seq<Instruction>, findings: set<Id>, docs: set<Id>)
    ensures AllGrounded(claims, findings, docs)
    ensures ValidRepairs(repairs, FailedClaims(issues, claims))
    ensures !AllGrounded(ApplyAll(claims, repairs), findings, docs)
  {
    findings, docs := {"a", "b"}, {"d"};
    var claim := Claim("c", "", ["a", "b"], ["d"], [], "");
    var first, second := Repair("c", "", ["a"], []), Repair("c", "", ["b"], []);
    var issue := Fixable("V-GROUNDING", Some("c"), None);
    claims, issues, repairs := [claim], [issue], [first, second];
    OnlyClaimFails(claim, issue);
    assert Fault(first, [claim]) == None && Fault(second, [claim]) == None;
    assert LastWith([claim], "c") == Some(0);
    assert first in repairs && second in repairs;
    assert forall id :: FindingSurvives(repairs, "c")(id) ==> Keeps(["a"])(id) && Keeps(["b"])(id);
    assert !SpareOne(claims, repairs, 0) && Repairable(claims, 0);
    RepairKeepsGroundingIff(claims, repairs, findings, docs);
  }

  lemma OnlyClaimFails(claim: Claim, issue: Issue)
    requires claim.id != "" && issue.repairable && issue.claimId == Some(claim.id)
    ensures FailedClaims([issue], [claim]) == [claim]
  {
    assert issue in [issue];
    assert [claim][..0] == [];
  }

  // ---- The critic's default proposal ------------------------------------------------------------------

  /** The critic proposes a repair when the first finding and the first document the claim cites are known. */
  predicate HasFirstEvidence(claim: Claim, findings: map<Id, Finding>, docs: map<Id, Doc>) {
    && claim.findingIds != [] && claim.findingIds[0] in findings
    && claim.docIds != [] && claim.docIds[0] in docs
  }

  function DefaultText(claim: Claim, findings: map<Id, Finding>, docs: map<Id, Doc>): string
    requires HasFirstEvidence(claim, findings, docs)
  {
    var f := findings[claim.findingIds[0]];
    "Finding " + f.ruleId + " at " + f.file + " requires human review against documentation evidence "
    + docs[claim.docIds[0]].id + "."
  }

  function DefaultRepair(findings: map<Id, Finding>, docs: map<Id, Doc>): Claim -> seq<Instruction> {
    (claim: Claim) =>
      if HasFirstEvidence(claim, findings, docs) then
        [Repair(claim.id, DefaultText(claim, findings, docs), claim.findingIds, claim.docIds)]
      else []
  }

  function DefaultProposal(failed: seq<Claim>, findings: map<Id, Finding>, docs: map<Id, Doc>): seq<Instruction> {
    FlatMap(failed, DefaultRepair(findings, docs))
  }

  /** Its first finding and its first document are there to be cited. */
  ghost predicate Answerable(claim: Claim, findings: map<Id, Finding>, docs: map<Id, Doc>) {
    && |claim.findingIds| >= 1 && claim.findingIds[0] in findings
    && |claim.docIds| >= 1 && claim.docIds[0] in docs
  }

  ghost predicate AimsOnce(repairs: seq<Instruction>, failed: seq<Claim>) {
    && (forall i :: 0 <= i < |repairs| ==>
          repairs[i].Repair? && exists claim :: claim in failed && claim.id == repairs[i].claimId)
    && forall i, j :: 0 <= i < j < |repairs| ==> repairs[i].claimId != repairs[j].claimId
  }

  ghost predicate IsAnswered(repairs: seq<Instruction>, id: Id) {
    exists raw :: raw in repairs && raw.Repair? && raw.claimId == id
  }

  /** The repair keeps what the claim cites and names the rule, the file and the document. */
  ghost predicate AnswersBy(claim: Claim, raw: Instruction, findings: map<Id, Finding>, docs: map<Id, Doc>) {
    && raw.Repair? && Answerable(claim, findings, docs) && raw.keepFindings == claim.findingIds && raw.keepDocs == claim.docIds
    && raw.text == "Finding " + findings[claim.findingIds[0]].ruleId + " at " + findings[claim.findingIds[0]].file
                   + " requires human review against documentation evidence " + docs[claim.docIds[0]].id + "."
  }

  /** One repair for each answerable claim and for no other. */
  ghost predicate Answers(repairs: seq<Instruction>, failed: seq<Claim>, findings: map<Id, Finding>, docs: map<Id, Doc>) {
    && AimsOnce(repairs, failed)
    && (forall claim :: claim in failed ==> (IsAnswered(repairs, claim.id) <==> Answerable(claim, findings, docs)))
    && forall claim, raw :: claim in failed && raw in repairs && raw.Repair? && raw.claimId == claim.id ==>
         AnswersBy(claim, raw, findings, docs)
  }

  method DefaultOutput(failed: seq<Claim>, findings: map<Id, Finding>, docs: map<Id, Doc>)
    returns (repairs: seq<Instruction>)
    ensures repairs == DefaultProposal(failed, findings, docs)
    ensures DistinctIds(failed) ==> Answers(repairs, failed, findings, docs)
  {
    repairs := [];
    for i := 0 to |failed|
      invariant repairs == FlatMap(failed[..i], DefaultRepair(findings, docs))
    {
      FlatMapNext(failed, DefaultRepair(findings, docs), i);
      var claim := failed[i];
      if HasFirstEvidence(claim, findings, docs) {
        repairs := repairs + [Repair(claim.id, DefaultText(claim, findings, docs), claim.findingIds, claim.docIds)];
      }
    }
    assert failed[..|failed|] == failed;
    if DistinctIds(failed) {
      DefaultAnswers(failed, findings, docs);
    }
  }

  lemma DefaultAnswer(claim: Claim, findings: map<Id, Finding>, docs: map<Id, Doc>)
    ensures Answers(DefaultRepair(findings, docs)(claim), [claim], findings, docs)
  {
    var repairs := DefaultRepair(findings, docs)(claim);
    if Answerable(claim, findings, docs) {
      assert repairs[0] in repairs;
      assert claim in [claim];
    }
  }

  /** Neither the claims so far nor the repairs for them have to do with this claim. */
  ghost predicate Apart(a: seq<Instruction>, failed: seq<Claim>, claim: Claim) {
    && (forall c :: c in failed ==> c.id != claim.id)
    && forall raw :: raw in a ==> raw.Repair? && raw.claimId != claim.id
  }

  lemma DistinctApart(a: seq<Instruction>, failed: seq<Claim>, claim: Claim)
    requires DistinctIds(failed + [claim]) && AimsOnce(a, failed)
    ensures Apart(a, failed, claim)
  {
    var all := failed + [claim];
    forall c | c in failed
      ensures c.id != claim.id
    {
      var i :| 0 <= i < |failed| && failed[i] == c;
      assert all[i] == c && all[|failed|] == claim;
    }
  }

  lemma AimsJoin(a: seq<Instruction>, b: seq<Instruction>, failed: seq<Claim>, claim: Claim)
    requires Apart(a, failed, claim) && AimsOnce(a, failed) && AimsOnce(b, [claim])
    ensures AimsOnce(a + b, failed + [claim])
  {
    assert forall i :: 0 <= i < |a| ==> a[i] in a;
    assert forall c :: c in failed || c == claim ==> c in failed + [claim];
    assert forall i :: 0 <= i < |b| ==> b[i].claimId == claim.id;
  }

  lemma AnswersJoin(
    a: seq<Instruction>, b: seq<Instruction>, failed: seq<Claim>, claim: Claim, findings: map<Id, Finding>, docs: map<Id, Doc>)
    requires DistinctIds(failed + [claim])
    requires Answers(a, failed, findings, docs) && Answers(b, [claim], findings, docs)
    ensures Answers(a + b, failed + [claim], findings, docs)
  {
    DistinctApart(a, failed, claim);
    AimsJoin(a, b, failed, claim);
    assert claim in [claim];
    forall id
      ensures IsAnswered(a + b, id) <==> IsAnswered(a, id) || IsAnswered(b, id)
    {
      AnsweredJoin(a, b, id);
    }
    assert forall i :: 0 <= i < |b| ==> b[i].claimId == claim.id;
  }

  lemma AnsweredJoin(a: seq<Instruction>, b: seq<Instruction>, id: Id)
    ensures IsAnswered(a + b, id) <==> IsAnswered(a, id) || IsAnswered(b, id)
  {
    assert forall raw :: raw in a + b <==> raw in a || raw in b;
  }

  lemma {:induction false} DefaultAnswers(failed: seq<Claim>, findings: map<Id, Finding>, docs: map<Id, Doc>)
    requires DistinctIds(failed)
    ensures Answers(DefaultProposal(failed, findings, docs), failed, findings, docs)
  {
    if failed != [] {
      var n := |failed| - 1;
      DefaultAnswers(failed[..n], findings, docs);
      DefaultAnswer(failed[n], findings, docs);
      assert failed == failed[..n] + [failed[n]];
      AnswersJoin(DefaultProposal(failed[..n], findings, docs), DefaultRepair(findings, docs)(failed[n]),
                  failed[..n], failed[n], findings, docs);
    }
  }

  lemma {:induction false} FailedAreDistinct(issues: seq<Issue>, claims: seq<Claim>)
    requires DistinctIds(claims)
    ensures DistinctIds(FailedClaims(issues, claims))
  {
    if claims != [] {
      var n := |claims| - 1;
      var earlier := FailedClaims(issues, claims[..n]);
      FailedAreDistinct(issues, claims[..n]);
      forall i | 0 <= i < |earlier|
        ensures earlier[i].id != claims[n].id
      {
        assert earlier[i] in earlier;
        var j :| 0 <= j < n && claims[j] == earlier[i];
      }
    }
  }

  /**
   What is proposed without a language model: with distinct claim ids, one repair for each failed claim whose first
   finding and first document are known, and none for any other.
   */
  lemma DefaultProposes(claims: seq<Claim>, issues: seq<Issue>, findings: map<Id, Finding>, docs: map<Id, Doc>)
    requires DistinctIds(claims)
    ensures Answers(DefaultProposal(FailedClaims(issues, claims), findings, docs), FailedClaims(issues, claims), findings, docs)
  {
    FailedAreDistinct(issues, claims);
    DefaultAnswers(FailedClaims(issues, claims), findings, docs);
  }

  lemma SameIdSameClaim(claims: seq<Claim>, a: Claim, b: Claim)
    requires DistinctIds(claims) && a in claims && b in claims && a.id == b.id
    ensures a == b
  {
    var i :| 0 <= i < |claims| && claims[i] == a;
    var j :| 0 <= j < |claims| && claims[j] == b;
    assert i == j;
  }

  /** Each default repair keeps exactly what its claim cites. */
  lemma DefaultRepairKeepsAll(
    claims: seq<Claim>, failed: seq<Claim>, findings: map<Id, Finding>, docs: map<Id, Doc>, raw: Instruction, claim: Claim)
    requires DistinctIds(claims) && (forall c :: c in failed ==> c in claims)
    requires raw in FlatMap(failed, DefaultRepair(findings, docs)) && raw.Repair? && raw.claimId == claim.id
    requires claim in claims
    ensures claim in failed && raw.keepFindings == claim.findingIds && raw.keepDocs == claim.docIds
  {
    FlatMapMember(failed, DefaultRepair(findings, docs), raw);
    var source :| source in failed && raw in DefaultRepair(findings, docs)(source);
    SameIdSameClaim(claims, source, claim);
  }

  lemma DefaultRepairIsValid(
    claims: seq<Claim>, failed: seq<Claim>, findings: map<Id, Finding>, docs: map<Id, Doc>, raw: Instruction)
    requires DistinctIds(claims) && forall c :: c in failed ==> c in claims
    requires raw in FlatMap(failed, DefaultRepair(findings, docs))
    ensures raw.Repair? && Fault(raw, failed) == None
  {
    FlatMapMember(failed, DefaultRepair(findings, docs), raw);
    var source :| source in failed && raw in DefaultRepair(findings, docs)(source);
    var at := LastWith(failed, source.id);
    assert failed[at.value] in failed;
    SameIdSameClaim(claims, source, failed[at.value]);
  }

  /** With distinct claim ids the default proposal passes the critic's own check and drops no citation. */
  lemma DefaultOutputIsLossless(claims: seq<Claim>, issues: seq<Issue>, findings: map<Id, Finding>, docs: map<Id, Doc>)
    requires DistinctIds(claims)
    ensures var repairs := FlatMap(FailedClaims(issues, claims), DefaultRepair(findings, docs));
            && ValidRepairs(repairs, FailedClaims(issues, claims))
            && SameIds(claims, ApplyAll(claims, repairs))
            && forall i :: 0 <= i < |claims| ==>
                 && ApplyAll(claims, repairs)[i].findingIds == claims[i].findingIds
                 && ApplyAll(claims, repairs)[i].docIds == claims[i].docIds
  {
    var failed := FailedClaims(issues, claims);
    var repairs := FlatMap(failed, DefaultRepair(findings, docs));
    forall k | 0 <= k < |repairs|
      ensures repairs[k].Repair? && Fault(repairs[k], failed) == None
    {
      assert repairs[k] in repairs;
      DefaultRepairIsValid(claims, failed, findings, docs, repairs[k]);
    }
    ApplyKeepsIds(claims, repairs);
    forall i | 0 <= i < |claims|
      ensures ApplyAll(claims, repairs)[i].findingIds == claims[i].findingIds
      ensures ApplyAll(claims, repairs)[i].docIds == claims[i].docIds
    {
      RepairOnlyDrops(claims, repairs, i);
      DefaultDropsNothing(claims, failed, findings, docs, claims[i]);
    }
  }

  lemma DefaultDropsNothing(
    claims: seq<Claim>, failed: seq<Claim>, findings: map<Id, Finding>, docs: map<Id, Doc>, claim: Claim)
    requires DistinctIds(claims) && claim in claims && forall c :: c in failed ==> c in claims
    ensures var repairs := FlatMap(failed, DefaultRepair(findings, docs));
            && Select(claim.findingIds, FindingSurvives(repairs, claim.id)) == claim.findingIds
            && Select(claim.docIds, DocSurvives(repairs, claim.id)) == claim.docIds
  {
    var repairs := FlatMap(failed, DefaultRepair(findings, docs));
    forall raw | raw in repairs && raw.Repair? && raw.claimId == claim.id
      ensures raw.keepFindings == claim.findingIds && raw.keepDocs == claim.docIds
    {
      DefaultRepairKeepsAll(claims, failed, findings, docs, raw, claim);
    }
    SelectAll(claim.findingIds, FindingSurvives(repairs, claim.id));
    SelectAll(claim.docIds, DocSurvives(repairs, claim.id));
  }
}
