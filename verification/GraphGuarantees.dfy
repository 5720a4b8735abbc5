/** What every run of the graph guarantees. */
module GraphGuarantees {
  import opened Outcomes
  import opened Evidence
  import opened GraphState
  import opened Nodes
  import opened GraphRuns
  import opened GraphInvariant

  // ---- Termination ------------------------------------------------------------------------------------

  function Length(t: Trace): nat {
    if t.Begin? then 0 else Length(t.before) + 1
  }

  function StepsLeft(p: Stage, repairs: nat): int {
    if p == Fan || (p.At? && BeforeFan(p.node)) then Budget(p, repairs) - 2 else Budget(p, repairs)
  }

  lemma {:induction false} StepsKept(t: Trace)
    requires Proper(t)
    ensures Length(t) + StepsLeft(EndStage(t), EndRepairs(t)) <= 15
  {
    if t.Next? {
      StepsKept(t.before);
    }
  }

  lemma {:induction false} LengthIsSupersteps(run: Run)
    ensures Length(TraceOf(run)) == Supersteps(run)
  {
    if run.Then? {
      LengthIsSupersteps(run.before);
    }
  }

  lemma TracesAreShort(t: Trace)
    requires Proper(t)
    ensures |Visited(t)| <= 17 && Length(t) <= 15
  {
    BudgetKept(t);
    StepsKept(t);
    assert StepsLeft(EndStage(t), EndRepairs(t)) >= 0;
  }

  /** The trace that stands for a run. */
  lemma TraceFor(env: Env, run: Run) returns (t: Trace)
    requires Valid(env, run)
    ensures Proper(t) && Visited(t) == Done(run) && Length(t) == Supersteps(run)
    ensures FrontierAt(EndStage(t)) == Frontier(run) && EndRepairs(t) == ViewOf(run).repairs
    ensures EndStage(t) == StageOf(run)
  {
    t := TraceOf(run);
    TraceIsProper(env, run);
    InvariantAlways(env, run);
    LengthIsSupersteps(run);
  }

  /** A run executes at most seventeen nodes in at most fifteen super-steps. */
  lemma RunsAreShort(env: Env, run: Run)
    requires Valid(env, run)
    ensures |Done(run)| <= 17 && Supersteps(run) <= 15
  {
    var t := TraceFor(env, run);
    TracesAreShort(t);
  }

  /** A run that is not over can always go on; so, being short, every run can be carried to its end. */
  lemma RunsNeverStick(env: Env, run: Run) returns (next: Run)
    requires Valid(env, run) && Frontier(run) != {}
    ensures Valid(env, next) && next.Then? && next.before == run
  {
    InvariantAlways(env, run);
    var execs := SomeSuperstep(env, StageOf(run), ViewOf(run));
    next := Then(run, execs, execs);
  }

  lemma SomeSuperstep(env: Env, p: Stage, v: View) returns (execs: seq<Exec>)
    requires FrontierAt(p) != {}
    ensures Superstep(env, FrontierAt(p), v, execs)
  {
    match p
    case At(n) =>
      var u := CanProduce(env, n, v);
      execs := [Exec(n, u)];
      AloneIsSuperstep(env, n, v, u);
    case Fan =>
      var a := CanProduce(env, ParseDependencies, v);
      var b := CanProduce(env, ScanCompatibility, v);
      var c := CanProduce(env, AnalyzeTestsAndCi, v);
      execs := [Exec(ParseDependencies, a), Exec(ScanCompatibility, b), Exec(AnalyzeTestsAndCi, c)];
      BranchesAreSuperstep(env, v, a, b, c, execs);
  }

  /** Every reachable run continues to one that ends in a report. */
  lemma {:induction false} EveryRunCanFinish(env: Env, run: Run) returns (whole: Run)
    requires Valid(env, run)
    ensures Finished(env, whole) && Continues(whole, run) && Done(run) <= Done(whole)
    decreases 15 - Supersteps(run)
  {
    if Frontier(run) == {} {
      whole := run;
    } else {
      var next := RunsNeverStick(env, run);
      RunsAreShort(env, next);
      whole := EveryRunCanFinish(env, next);
      ContinuesBefore(whole, next);
    }
  }

  // ---- Shape ------------------------------------------------------------------------------------------

  lemma {:induction false} RepairsBounded(t: Trace)
    requires Proper(t)
    ensures EndRepairs(t) <= 1
    ensures EndRepairs(t) == 1 ==>
              NodeAt(EndStage(t)).EvidenceValidator? || NodeAt(EndStage(t)).AssembleValidated? || NodeAt(EndStage(t)).AssemblePartial?
  {
    if t.Next? {
      RepairsBounded(t.before);
    }
  }

  lemma AtMost(count: nat, p: Stage, repairs: nat, m: Node)
    requires CountedAt(count, p, repairs, m) && repairs <= 1
    requires repairs == 1 ==> NodeAt(p).EvidenceValidator? || NodeAt(p).AssembleValidated? || NodeAt(p).AssemblePartial?
    ensures count <= if m == EvidenceValidator then 2 else 1
  {
  }

  /** The validator runs at most twice, every other node at most once. */
  lemma NodesRunOnce(env: Env, run: Run, m: Node)
    requires Valid(env, run)
    ensures TimesIn(Done(run), m) <= if m == EvidenceValidator then 2 else 1
  {
    var t := TraceFor(env, run);
    RepairsBounded(t);
    CountsAlways(t, m);
    AtMost(TimesIn(Visited(t), m), EndStage(t), EndRepairs(t), m);
  }

  lemma {:induction false} LastIsReport(t: Trace)
    requires Proper(t) && EndStage(t).Over?
    ensures Visited(t) != [] && Visited(t)[|Visited(t)| - 1] == EndStage(t).report && IsReport(EndStage(t).report)
  {
    assert Moves(EndStage(t.before), EndRepairs(t.before), t.nodes, t.stage, t.repairs);
  }

  lemma ReportCounts(t: Trace, r: Node)
    requires Proper(t) && IsReport(r)
    ensures TimesIn(Visited(t), r) == if EndStage(t) == Over(r) then 1 else 0
  {
    CountsAlways(t, r);
  }

  lemma OverIffNoFrontier(p: Stage)
    ensures FrontierAt(p) == {} <==> p.Over?
  {
    if p == Fan {
      assert ParseDependencies in FrontierAt(p);
    } else if p.At? {
      assert p.node in FrontierAt(p);
    }
  }

  /** A finished run has executed exactly one report node, as its last; before the end none has run. */
  lemma OneReportLast(env: Env, run: Run, r: Node)
    requires Valid(env, run) && IsReport(r)
    ensures Frontier(run) != {} ==> TimesIn(Done(run), r) == 0
    ensures Frontier(run) == {} ==>
              && Done(run) != [] && IsReport(Done(run)[|Done(run)| - 1])
              && TimesIn(Done(run), r) == if r == Done(run)[|Done(run)| - 1] then 1 else 0
  {
    var t := TraceFor(env, run);
    OverIffNoFrontier(EndStage(t));
    ReportCounts(t, r);
    if EndStage(t).Over? {
      LastIsReport(t);
    }
  }

  lemma TerminalMeansNoBranch(count: nat, p: Stage, repairs: nat, branch: Node)
    requires IsBranch(branch) && CountedAt(count, p, repairs, branch) && count > 0
    ensures NodeAt(p) != AssembleTerminal
  {
  }

  /** Once a branch has run, the terminal report is out of reach. */
  lemma NoTerminalAfterFan(env: Env, run: Run, branch: Node)
    requires Valid(env, run) && IsBranch(branch) && TimesIn(Done(run), branch) > 0
    ensures TimesIn(Done(run), AssembleTerminal) == 0 && AssembleTerminal !in Frontier(run)
  {
    var t := TraceFor(env, run);
    TraceAfterFan(t, branch);
  }

  lemma NotUnderWay(p: Stage, n: Node)
    requires NodeAt(p) != n && !IsBranch(n)
    ensures n !in FrontierAt(p) && p != Over(n)
  {
  }

  lemma TraceAfterFan(t: Trace, branch: Node)
    requires Proper(t) && IsBranch(branch) && TimesIn(Visited(t), branch) > 0
    ensures TimesIn(Visited(t), AssembleTerminal) == 0 && AssembleTerminal !in FrontierAt(EndStage(t))
  {
    CountsAlways(t, branch);
    TerminalMeansNoBranch(TimesIn(Visited(t), branch), EndStage(t), EndRepairs(t), branch);
    NotUnderWay(EndStage(t), AssembleTerminal);
    ReportCounts(t, AssembleTerminal);
  }

  // ---- Reports ----------------------------------------------------------------------------------------

  /** The state carries the report of its last node, made of itself and the log before that node. */
  ghost predicate ReportedBy(last: Node, v: View, before: seq<Node>) {
    && IsReport(last) && v.executions != []
    && LogNodes(v.executions[..|v.executions| - 1]) == before
    && v.report == Some(ReportBy(last, v, v.executions[..|v.executions| - 1]))
    && v.status == FinalStatus(last) && v.reportStatus == FinalReportStatus(last)
  }

  /**
   A finished run carries the report of its last node, made of its final state and the log up to that
   node, with the status that belongs to it.
   */
  lemma ReportOfRun(env: Env, run: Run) returns (last: Node)
    requires Finished(env, run)
    ensures EndsWith(run, last) && ReportedBy(last, ViewOf(run), Done(run)[..|Done(run)| - 1])
  {
    last := LastNode(env, run);
    LogIsTheRun(env, run);
    InvariantAlways(env, run);
    OverMeansReported(env, ViewOf(run), last);
    LogButLast(ViewOf(run).executions, Done(run));
  }

  ghost predicate EndsWith(run: Run, last: Node) {
    && IsReport(last) && StageOf(run) == Over(last)
    && Done(run) != [] && last == Done(run)[|Done(run)| - 1]
  }

  lemma LastNode(env: Env, run: Run) returns (last: Node)
    requires Finished(env, run)
    ensures EndsWith(run, last)
  {
    var t := TraceFor(env, run);
    OverIffNoFrontier(EndStage(t));
    LastIsReport(t);
    last := EndStage(t).report;
  }

  lemma LogButLast(log: seq<Execution>, nodes: seq<Node>)
    requires LogNodes(log) == nodes && log != []
    ensures LogNodes(log[..|log| - 1]) == nodes[..|nodes| - 1]
  {
  }

  lemma OverMeansReported(env: Env, v: View, last: Node)
    requires Holds(env, v, Over(last))
    ensures v.executions != [] && v.report == Some(ReportBy(last, v, v.executions[..|v.executions| - 1]))
    ensures v.status == FinalStatus(last) && v.reportStatus == FinalReportStatus(last)
  {
  }

  lemma OverTerminal(env: Env, v: View)
    requires Holds(env, v, Over(AssembleTerminal))
    ensures StopsForCause(env, v)
  {
  }

  // ---- What the reports say ---------------------------------------------------------------------------

  /** The messages a partial report lists as limitations: those that are not empty, in order. */
  function Messages(errors: seq<string>): seq<Limitation> {
    if errors == [] then [] else (if |errors[0]| > 0 then [FromError(errors[0])] else []) + Messages(errors[1..])
  }

  lemma {:induction false} MessagesLast(errors: seq<string>, last: string)
    ensures Messages(errors + [last]) == Messages(errors) + if last == "" then [] else [FromError(last)]
  {
    if errors == [] {
      assert ([last])[1..] == [];
    } else {
      assert (errors + [last])[1..] == errors[1..] + [last];
      MessagesLast(errors[1..], last);
    }
  }

  lemma {:induction false} MessagesAre(errors: seq<string>)
    ensures FromErrors(errors) == Messages(errors)
  {
    if errors != [] {
      var n := |errors| - 1;
      MessagesAre(errors[..n]);
      MessagesLast(errors[..n], errors[n]);
      assert errors == errors[..n] + [errors[n]];
    }
  }

  /** What every report says of the final state; the log is the one up to the report itself. */
  ghost predicate CarriesBase(report: Report, v: View) {
    && v.executions != [] && report.executions == v.executions[..|v.executions| - 1]
    && report.profile == v.profile && report.applicability == v.applicability && report.warnings == v.warnings
  }

  ghost predicate CarriesAnalysis(report: Report, v: View)
    requires !report.Terminal?
  {
    && report.findings == v.findings && report.dependencies == v.dependencies && report.risk == v.risk
    && report.interpretation == v.interpretation && report.plan == v.planDraft
    && report.outcome == v.outcome && report.issues == v.issues
  }

  /** Completed, with documents and test setup. */
  ghost predicate SaysValidated(report: Report, v: View) {
    && report.Validated? && v.status == Completed && CarriesBase(report, v) && CarriesAnalysis(report, v)
    && report.docs == v.docs && report.testCi == v.testCi
  }

  /** Partly done, with the errors and what limits the report: their messages, and how many issues are left. */
  ghost predicate SaysPartial(report: Report, v: View) {
    && report.Partial? && v.status == PartlyDone && CarriesBase(report, v) && CarriesAnalysis(report, v)
    && report.errors == v.errors
    && report.limitations == Messages(v.errors) + if v.issues == [] then [] else [UnresolvedIssues(|v.issues|)]
  }

  /** Terminated, with the errors; TerminalReason says what the reason is. */
  ghost predicate SaysTerminal(report: Report, v: View) {
    report.Terminal? && v.status == Terminated && CarriesBase(report, v) && report.errors == v.errors
  }

  lemma ReportSays(last: Node, v: View, before: seq<Node>)
    requires ReportedBy(last, v, before)
    ensures v.report.Some?
    ensures v.reportStatus == ValidatedReport ==> last == AssembleValidated && SaysValidated(v.report.value, v)
    ensures v.reportStatus == PartialReport ==> last == AssemblePartial && SaysPartial(v.report.value, v)
    ensures v.reportStatus == TerminalReport ==> last == AssembleTerminal && SaysTerminal(v.report.value, v)
    ensures v.reportStatus != NoReport
  {
    MessagesAre(v.errors);
  }

  /**
   The contents of the report of every finished run, field by field: which report node made it, the status it goes
   with, and what of the final state it carries.
   */
  lemma FinalReportSays(env: Env, run: Run) returns (report: Report)
    requires Finished(env, run)
    ensures ViewOf(run).report == Some(report) && Done(run) != []
    ensures var v, last := ViewOf(run), Done(run)[|Done(run)| - 1];
            match v.reportStatus
            case ValidatedReport => last == AssembleValidated && SaysValidated(report, v)
            case PartialReport => last == AssemblePartial && SaysPartial(report, v)
            case TerminalReport => last == AssembleTerminal && SaysTerminal(report, v)
            case NoReport => false
  {
    var v := ViewOf(run);
    var last := ReportOfRun(env, run);
    ReportSays(last, v, Done(run)[..|Done(run)| - 1]);
    report := v.report.value;
  }

  /** Why a run is stopped early: an error was recorded, or the requested pack does not apply. */
  lemma TerminalReason(env: Env, run: Run)
    requires Finished(env, run) && ViewOf(run).reportStatus == TerminalReport
    ensures ViewOf(run).report.Some? && ViewOf(run).report.value.Terminal?
    ensures var report, v := ViewOf(run).report.value, ViewOf(run);
            if report.errors == [] then
              && report.reason == "Unknown error" && report.applicability == NotApplicable
              && v.PackId() in env.registry && v.requestPack == Some(v.PackId())
            else report.reason == report.errors[0]
  {
    var last := ReportOfRun(env, run);
    InvariantAlways(env, run);
    OverTerminal(env, ViewOf(run));
  }

  /** A run is reported as partial when a repair could not help or has not helped. */
  lemma PartialCause(env: Env, run: Run)
    requires Finished(env, run) && ViewOf(run).reportStatus == PartialReport
    ensures ViewOf(run).outcome == StructuralFailure || (ViewOf(run).outcome == Repairable && ViewOf(run).repairs == 1)
    ensures ViewOf(run).issues == IssuesFor(env, ViewOf(run))
  {
    var last := ReportOfRun(env, run);
    InvariantAlways(env, run);
  }
}
