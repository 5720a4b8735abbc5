/**
 Why a run ends in a terminal report, and what the report says about it (src/upgradepilot/graph/nodes/report.py:125-157):
 the reason is the first error recorded, and there is one unless a requested migration pack was assessed and
 found not to apply.
 */
module GraphReasons {
  import opened Outcomes
  import opened Models
  import opened GraphState
  import opened Nodes
  import opened GraphRuns
  import opened GraphInvariant
  import GraphSteps
  import C = GraphCompleteness
  import G = GraphGuarantees

  /** A migration pack was requested, was assessed, and does not apply. */
  predicate RequestUnfit(v: View) {
    && v.PackId() != "" && v.requestPack == Some(v.PackId())
    && v.applicability == NotApplicable
  }

  /** Until a run stops there are no errors; when it stops, there are none exactly when the request does not fit. */
  ghost predicate Explained(v: View, p: Stage) {
    match p
    case At(n) =>
      if BeforeFan(n) then v.errors == [] && v.applicability == Supported
      else n == AssembleTerminal ==> (v.errors == [] <==> RequestUnfit(v))
    case Fan => true
    case Over(r) => r == AssembleTerminal ==> (v.errors == [] <==> RequestUnfit(v))
  }

  // ---- Step by step -----------------------------------------------------------------------------------

  lemma FrontErrors(env: Env, n: Node, v: View, u: Update, w: View)
    requires n.ValidateRequest? || n.AcquireRepository? || n.ProfileRepository?
    requires Returns(env, n, v, u) && w.status == StatusAt(u, Status, v.status) && v.status != Terminated
    requires w.errors == v.errors + TextsAt(u, Errors) && v.errors == [] && w.applicability == v.applicability == Supported
    ensures Explained(w, NextStage(n, w))
  {
  }

  lemma SelectErrors(env: Env, v: View, u: Update, w: View)
    requires Returns(env, SelectMigrationPack, v, u) && w.status == StatusAt(u, Status, v.status) && v.status != Terminated
    requires w.errors == v.errors + TextsAt(u, Errors) && v.errors == [] && v.applicability == Supported
    requires w.applicability == ApplicabilityAt(u, Applicability, v.applicability)
    requires w.pack == TextAt(u, PackId, v.pack) && w.requestPack == v.requestPack
    ensures Explained(w, NextStage(SelectMigrationPack, w))
  {
  }

  /** Beyond the fan-out no node stops the run. */
  lemma LaterStages(n: Node, w: View)
    requires !BeforeFan(n) && !IsBranch(n) && !IsReport(n) && w.status == Running
    ensures var p := NextStage(n, w); p.At? && !BeforeFan(p.node) && p.node != AssembleTerminal
  {
  }

  lemma LaterStatus(n: Node, v: View, u: Update)
    requires !BeforeFan(n) && !IsReport(n) && forall k :: k in u ==> MayWrite(n, k)
    ensures Revise(v, u).status == v.status
  {
    assert !MayWrite(n, Status);
  }

  lemma ReportExplains(env: Env, n: Node, v: View, u: Update, w: View)
    requires IsReport(n) && Produces(env, n, v, u) && w == Revise(v, u) && Explained(v, At(n))
    ensures Explained(w, NextStage(n, w))
  {
    GraphSteps.ReportDoes(env, n, v, u, w);
  }

  lemma FrontExplains(env: Env, n: Node, v: View, u: Update, w: View)
    requires (n.ValidateRequest? || n.AcquireRepository? || n.ProfileRepository?)
    requires Produces(env, n, v, u) && w == Revise(v, u) && Explained(v, At(n)) && v.status != Terminated
    ensures Explained(w, NextStage(n, w))
  {
    assert !MayWrite(n, Applicability);
    FrontErrors(env, n, v, u, w);
  }

  lemma SelectExplains(env: Env, v: View, u: Update, w: View)
    requires Produces(env, SelectMigrationPack, v, u) && w == Revise(v, u)
    requires Explained(v, At(SelectMigrationPack)) && v.status != Terminated
    ensures Explained(w, NextStage(SelectMigrationPack, w))
  {
    assert !MayWrite(SelectMigrationPack, RequestPack);
    SelectErrors(env, v, u, w);
  }

  lemma StepExplains(env: Env, n: Node, v: View, u: Update, w: View)
    requires Holds(env, v, At(n)) && Explained(v, At(n)) && Produces(env, n, v, u) && w == Revise(v, u)
    ensures Explained(w, NextStage(n, w))
  {
    if n.SelectMigrationPack? {
      SelectExplains(env, v, u, w);
    } else if BeforeFan(n) {
      FrontExplains(env, n, v, u, w);
    } else if IsReport(n) {
      ReportExplains(env, n, v, u, w);
    } else {
      LaterStatus(n, v, u);
      LaterStages(n, w);
    }
  }

  lemma AloneExplains(env: Env, n: Node, s: State, v: View, execs: seq<Exec>, t: State, w: View)
    requires WellTyped(s) && v == Read(s) && Holds(env, v, At(n)) && Explained(v, At(n))
    requires Superstep(env, {n}, v, execs) && t == ApplyAll(s, execs) && w == Read(t)
    ensures Explained(w, NextStage(n, w))
  {
    var u := OneNode(env, n, s, v, execs, t, w);
    StepExplains(env, n, v, u, w);
  }

  lemma SuperstepExplains(env: Env, p: Stage, s: State, v: View, execs: seq<Exec>, t: State, w: View)
    requires WellTyped(s) && v == Read(s) && Holds(env, v, p) && Explained(v, p)
    requires Superstep(env, FrontierAt(p), v, execs) && t == ApplyAll(s, execs) && w == Read(t)
    ensures Explained(w, StageAfter(p, w))
  {
    match p
    case At(n) => AloneExplains(env, n, s, v, execs, t, w);
    case Fan =>
    case Over(_) => assert false;
  }

  lemma InitialExplained(s: State)
    requires Errors in s && s[Errors] == TextsV([]) && Applicability in s && s[Applicability] == ApplicabilityV(Supported)
    ensures Explained(Read(s), At(ValidateRequest))
  {
  }

  lemma {:induction false} ExplainedAlways(env: Env, run: Run)
    requires Valid(env, run)
    ensures Explained(ViewOf(run), StageOf(run))
  {
    match run
    case Start(requestPack) =>
      InitialAt(requestPack, Errors);
      InitialAt(requestPack, Applicability);
      InitialExplained(InitialState(requestPack));
    case Then(before, applied, _) =>
      ExplainedAlways(env, before);
      InvariantAlways(env, before);
      var t := StateOf(run);
      assert t == ApplyAll(StateOf(before), applied);
      SuperstepExplains(env, StageOf(before), StateOf(before), ViewOf(before), applied, t, Read(t));
  }

  // ---- What the report says ---------------------------------------------------------------------------

  /**
   A terminal report says "Unknown error" for want of any error exactly when a requested migration pack was
   assessed and does not apply; in every other case its reason is the first error.
   */
  lemma TerminalReasonIff(env: Env, run: Run) returns (report: Report)
    requires Finished(env, run) && ViewOf(run).reportStatus == TerminalReport
    ensures ViewOf(run).report == Some(report) && report.Terminal? && report.errors == ViewOf(run).errors
    ensures report.errors == [] <==> RequestUnfit(ViewOf(run))
    ensures RequestUnfit(ViewOf(run)) ==> ViewOf(run).PackId() in env.registry
    ensures report.reason == if RequestUnfit(ViewOf(run)) then "Unknown error" else report.errors[0]
  {
    ExplainedAlways(env, run);
    G.TerminalReason(env, run);
    var last := G.ReportOfRun(env, run);
    report := ViewOf(run).report.value;
    ReportErrors(last, ViewOf(run), report);
  }

  lemma ReportErrors(n: Node, v: View, report: Report)
    requires IsReport(n) && v.reportStatus == FinalReportStatus(n) == TerminalReport && v.executions != []
    requires report == ReportBy(n, v, v.executions[..|v.executions| - 1])
    ensures n == AssembleTerminal && report.Terminal? && report.errors == v.errors
    ensures report.reason == if v.errors == [] then "Unknown error" else v.errors[0]
  {
  }

  lemma OnlyTerminalIsUnfit(env: Env, v: View, last: Node)
    requires Holds(env, v, Over(last)) && v.applicability == NotApplicable
    ensures last == AssembleTerminal
  {
  }

  /** A finished run whose requested migration pack does not apply has ended in a terminal report. */
  lemma UnfitIsTerminal(env: Env, run: Run)
    requires Finished(env, run) && RequestUnfit(ViewOf(run))
    ensures ViewOf(run).reportStatus == TerminalReport
  {
    var v := ViewOf(run);
    var last := G.ReportOfRun(env, run);
    InvariantAlways(env, run);
    OnlyTerminalIsUnfit(env, v, last);
  }

  // ---- That it happens --------------------------------------------------------------------------------

  lemma UnfitUpdate(env: Env, v: View, id: Id) returns (u: Update)
    requires v.profile.Some? && v.requestPack == Some(id) && id in env.registry && id != ""
    ensures Produces(env, SelectMigrationPack, v, u)
    ensures Status !in u && Errors !in u && Applicability in u && u[Applicability] == ApplicabilityV(NotApplicable)
    ensures PackId in u && u[PackId] == TextV(Some(id))
  {
    u := map[NodeExecutions := C.Logged(SelectMigrationPack), Applicability := ApplicabilityV(NotApplicable),
             PackId := TextV(Some(id)), PackCandidates := TextV(None)];
    assert Selected(u, NotApplicable, id);
  }

  lemma AfterUnfit(env: Env, v: View, id: Id, u: Update, w: View)
    requires v.requestPack == Some(id) && id != ""
    requires Produces(env, SelectMigrationPack, v, u) && w == Revise(v, u)
    requires Applicability in u && u[Applicability] == ApplicabilityV(NotApplicable) && PackId in u && u[PackId] == TextV(Some(id))
    ensures RequestUnfit(w) && w.requestPack == Some(id)
    ensures NextStage(SelectMigrationPack, w) == At(AssembleTerminal)
  {
    assert !MayWrite(SelectMigrationPack, RequestPack);
  }

  /** The terminal report is out, and the request is as it was. */
  ghost predicate SameRequest(v: View, w: View) {
    w.reportStatus == TerminalReport && RequestUnfit(w) && w.requestPack == v.requestPack
  }

  lemma AfterTerminal(v: View, w: View)
    requires GraphSteps.ReportEffect(AssembleTerminal, v, w) && RequestUnfit(v)
    ensures SameRequest(v, w)
  {
  }

  /** Whatever installed pack is requested, some run ends so. */
  lemma UnfitRequestEnds(env: Env, id: Id) returns (run: Run)
    requires Loaded(env) && id in env.registry
    ensures Finished(env, run) && ViewOf(run).reportStatus == TerminalReport
    ensures RequestUnfit(ViewOf(run)) && ViewOf(run).requestPack == Some(id)
  {
    run := C.ReachSelection(env, Some(id), RepositoryProfile({}, ""));
    var v := ViewOf(run);
    var u := UnfitUpdate(env, v, id);
    run := C.Advance(env, run, SelectMigrationPack, u);
    AfterUnfit(env, v, id, u, ViewOf(run));
    run := ReportUnfit(env, run, ViewOf(run));
  }

  lemma ReportUnfit(env: Env, run: Run, v: View) returns (next: Run)
    requires Valid(env, run) && StageOf(run) == At(AssembleTerminal) && v == ViewOf(run) && RequestUnfit(v)
    ensures Finished(env, next) && SameRequest(v, ViewOf(next))
  {
    var u := CanProduce(env, AssembleTerminal, v);
    next := C.Advance(env, run, AssembleTerminal, u);
    GraphSteps.ReportDoes(env, AssembleTerminal, v, u, ViewOf(next));
    AfterTerminal(v, ViewOf(next));
    InvariantAlways(env, next);
  }

  ghost predicate EndsUnexplained(env: Env, run: Run, id: Id) {
    && Finished(env, run) && ViewOf(run).reportStatus == TerminalReport && ViewOf(run).requestPack == Some(id)
    && ViewOf(run).report.Some? && ViewOf(run).report.value.Terminal?
    && ViewOf(run).report.value.errors == [] && ViewOf(run).report.value.reason == "Unknown error"
  }

  /** A request can end with an unknown error and no error at all exactly when the migration pack it names is installed. */
  lemma UnexplainedIff(env: Env, id: Id)
    requires Loaded(env)
    ensures (exists run :: EndsUnexplained(env, run, id)) <==> id in env.registry
  {
    if id in env.registry {
      var run := UnfitRequestEnds(env, id);
      var report := TerminalReasonIff(env, run);
      assert EndsUnexplained(env, run, id);
    }
    forall run | EndsUnexplained(env, run, id)
      ensures id in env.registry
    {
      G.TerminalReason(env, run);
    }
  }
}
