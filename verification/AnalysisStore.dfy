/** The API's record of a run (src/upgradepilot/api/analyses.py): kept up to date from the stream, then closed. */
module AnalysisStore {
  import opened Outcomes
  import opened Models
  import opened GraphState
  import opened Nodes
  import opened GraphRuns
  import opened GraphInvariant
  import opened Replica
  import G = GraphGuarantees

  datatype Event = Event(sequence: nat, node: Node, reportStatus: ReportStatus)

  datatype Record = Record(
    status: AnalysisStatus, reportStatus: ReportStatus, state: State, events: seq<Event>, finalReport: Option<Report>)

  // ---- What the operations make of a record ---------------------------------------------------------------

  function Created(requestPack: Option<string>): Record {
    Record(Pending, NoReport, InitialState(requestPack), [], None)
  }

  function Updated(r: Record, u: Update): Record {
    var state := Merge(API_APPENDS, r.state, u);
    var report := ReportAt(state, FinalReport, None);
    Record(StatusAt(state, Status, r.status), ReportStatusAt(state, ReportState, r.reportStatus), state, r.events,
           if report.Some? then report else r.finalReport)
  }

  function WithEvent(r: Record, n: Node): Record {
    r.(events := r.events + [Event(|r.events| + 1, n, r.reportStatus)])
  }

  function Streamed(r: Record, execs: seq<Exec>): Record {
    if execs == [] then r
    else WithEvent(Updated(Streamed(r, execs[..|execs| - 1]), execs[|execs| - 1].update), execs[|execs| - 1].node)
  }

  predicate Settled(status: AnalysisStatus) {
    status.Completed? || status.PartlyDone? || status.Terminated? || status.Failed?
  }

  /** A run whose stream ends without settling its status counts by its report. */
  function ClosingStatus(r: Record): AnalysisStatus {
    if Settled(r.status) then r.status else if r.finalReport.Some? then Completed else Failed
  }

  function Closed(r: Record, status: AnalysisStatus): Record {
    r.(status := status, state := r.state[Status := StatusV(status)])
  }

  /** The record as it stands once the stream is over, or broken off. */
  function AtTheEnd(last: Record, breaksOff: bool): Record {
    Closed(last, if breaksOff then Failed else ClosingStatus(last))
  }

  function Opened(r: Record): Record {
    Updated(r, map[Status := StatusV(Running)])
  }

  // ---- What holds of every record -------------------------------------------------------------------------

  /** Status, report status and report are those of the state it holds, and its events are numbered from 1. */
  ghost predicate Consistent(r: Record) {
    && Status in r.state && r.state[Status] == StatusV(r.status)
    && ReportState in r.state && r.state[ReportState] == ReportStatusV(r.reportStatus)
    && (ReportAt(r.state, FinalReport, None).Some? ==> r.finalReport == ReportAt(r.state, FinalReport, None))
    && forall i :: 0 <= i < |r.events| ==> r.events[i].sequence == i + 1
  }

  /** A record just created is consistent, shows nothing yet, and is not settled. */
  lemma CreatedIsConsistent(requestPack: Option<string>)
    ensures var r := Created(requestPack);
            Consistent(r) && r.events == [] && r.finalReport == None && !Settled(r.status)
            && Read(r.state).requestPack == requestPack
  {
    InitialAt(requestPack, Status);
    InitialAt(requestPack, ReportState);
    InitialAt(requestPack, FinalReport);
    InitialAt(requestPack, RequestPack);
  }

  lemma MergedAt(s: State, u: Update, k: Key)
    requires k in s && k !in API_APPENDS
    ensures k in Merge(API_APPENDS, s, u) && Merge(API_APPENDS, s, u)[k] == if k in u then u[k] else s[k]
  {
  }

  /** An update of the right shape keeps the record consistent; a report it brings is shown, and none is lost. */
  lemma UpdatedIsConsistent(r: Record, u: Update)
    requires Consistent(r)
    requires (Status in u ==> Fits(Status, u[Status])) && (ReportState in u ==> Fits(ReportState, u[ReportState]))
    ensures Consistent(Updated(r, u))
    ensures r.finalReport != None ==> Updated(r, u).finalReport != None
    ensures FinalReport in u && u[FinalReport].ReportV? && u[FinalReport].report != None ==>
              Updated(r, u).finalReport == u[FinalReport].report
  {
    MergedAt(r.state, u, Status);
    MergedAt(r.state, u, ReportState);
  }

  /** An event gets the next number, after every earlier one, and shows the report status of its moment. */
  lemma EventsAreNumbered(r: Record, n: Node)
    requires Consistent(r)
    ensures Consistent(WithEvent(r, n)) && r.events < WithEvent(r, n).events
    ensures forall e :: e in r.events ==> e.sequence < WithEvent(r, n).events[|r.events|].sequence
    ensures WithEvent(r, n).events[|r.events|] == Event(|r.events| + 1, n, r.reportStatus)
  {
  }

  /**
   However a stream ends, the record ends settled and consistent and keeps its report and events: failed after
   an exception, and otherwise with the final status that arrived; if none did, completed exactly when a report did,
   and failed without one.
   */
  lemma ClosingSettles(last: Record, breaksOff: bool)
    requires Consistent(last)
    ensures var closed := AtTheEnd(last, breaksOff);
            && Consistent(closed) && Settled(closed.status) && closed.events == last.events
            && closed.finalReport == last.finalReport && closed.reportStatus == last.reportStatus
            && (breaksOff ==> closed.status == Failed)
            && (!breaksOff && last.status in {Completed, PartlyDone, Terminated, Failed} ==> closed.status == last.status)
            && (!breaksOff && last.status in {Pending, Running} ==>
                  closed.status == if last.finalReport == None then Failed else Completed)
  {
  }

  lemma OpeningIsConsistent(r: Record)
    requires Consistent(r)
    ensures Consistent(Opened(r)) && Opened(r).events == r.events
  {
    UpdatedIsConsistent(r, map[Status := StatusV(Running)]);
  }

  /** Whatever the stream delivers, and whether it ends or breaks off, every analysis settles consistently. */
  lemma EveryAnalysisSettles(r: Record, stream: seq<Exec>, breaksOff: bool)
    requires Consistent(r)
    requires forall i :: 0 <= i < |stream| ==> WellTypedUpdate(stream[i].update)
    ensures Consistent(AtTheEnd(Streamed(Opened(r), stream), breaksOff))
    ensures Settled(AtTheEnd(Streamed(Opened(r), stream), breaksOff).status)
    ensures |AtTheEnd(Streamed(Opened(r), stream), breaksOff).events| == |r.events| + |stream|
  {
    OpeningIsConsistent(r);
    StreamedIsConsistent(Opened(r), stream);
    ClosingSettles(Streamed(Opened(r), stream), breaksOff);
  }

  lemma {:induction false} StreamedIsConsistent(r: Record, stream: seq<Exec>)
    requires Consistent(r)
    requires forall i :: 0 <= i < |stream| ==> WellTypedUpdate(stream[i].update)
    ensures Consistent(Streamed(r, stream)) && |Streamed(r, stream).events| == |r.events| + |stream|
  {
    if stream != [] {
      var n := |stream| - 1;
      var before := Streamed(r, stream[..n]);
      StreamedIsConsistent(r, stream[..n]);
      UpdatedIsConsistent(before, stream[n].update);
      EventsAreNumbered(Updated(before, stream[n].update), stream[n].node);
    }
  }

  // ---- The store ------------------------------------------------------------------------------------------

  /** The fields of `rest` are still to be merged, all others are. */
  ghost predicate MergedBut(state: State, u: Update, rest: set<Key>, merged: State) {
    && rest <= u.Keys && merged.Keys == state.Keys + (u.Keys - rest)
    && forall k :: k in merged ==> merged[k] == if k in rest then state[k] else MergedValue(API_APPENDS, state, u, k)
  }

  lemma MergeOne(state: State, u: Update, rest: set<Key>, merged: State, k: Key)
    requires MergedBut(state, u, rest, merged) && k in rest
    ensures var v := if k in API_APPENDS && k in merged then Join(merged[k], u[k]) else u[k];
            MergedBut(state, u, rest - {k}, merged[k := v])
  {
  }

  lemma MergedAll(state: State, u: Update, merged: State)
    requires MergedBut(state, u, {}, merged)
    ensures merged == Merge(API_APPENDS, state, u)
  {
  }

  /** The merge loop: field by field, in any order. */
  method MergeState(state: State, u: Update) returns (merged: State)
    ensures merged == Merge(API_APPENDS, state, u)
  {
    merged := state;
    var keys := u.Keys;
    while keys != {}
      invariant MergedBut(state, u, keys, merged)
      decreases |keys|
    {
      var k :| k in keys;
      MergeOne(state, u, keys, merged, k);
      keys := keys - {k};
      if k in API_APPENDS && k in merged {
        merged := merged[k := Join(merged[k], u[k])];
      } else {
        merged := merged[k := u[k]];
      }
    }
    MergedAll(state, u, merged);
  }

  class AnalysisStore {
    var records: map<Id, Record>

    constructor ()
      ensures records == map[]
    {
      records := map[];
    }

    method Create(id: Id, requestPack: Option<string>)
      requires id !in records
      modifies this
      ensures records == old(records)[id := Created(requestPack)]
    {
      records := records[id := Record(Pending, NoReport, InitialState(requestPack), [], None)];
    }

    method UpdateRecord(id: Id, u: Update)
      requires id in records
      modifies this
      ensures records == old(records)[id := Updated(old(records[id]), u)]
    {
      var r := records[id];
      var state := MergeState(r.state, u);
      r := r.(state := state, status := StatusAt(state, Status, r.status),
              reportStatus := ReportStatusAt(state, ReportState, r.reportStatus));
      var report := ReportAt(state, FinalReport, None);
      if report.Some? {
        r := r.(finalReport := report);
      }
      records := records[id := r];
    }

    method AddEvent(id: Id, node: Node)
      requires id in records
      modifies this
      ensures records == old(records)[id := WithEvent(old(records[id]), node)]
    {
      var r := records[id];
      records := records[id := r.(events := r.events + [Event(|r.events| + 1, node, r.reportStatus)])];
    }

    method Finish(id: Id, status: AnalysisStatus)
      requires id in records
      modifies this
      ensures records == old(records)[id := Closed(old(records[id]), status)]
    {
      var r := records[id];
      records := records[id := r.(status := status, state := r.state[Status := StatusV(status)])];
    }

    /** Merge every update of the stream and note the event. */
    method Follow(id: Id, stream: seq<Exec>)
      requires id in records
      modifies this
      ensures records == old(records)[id := Streamed(old(records[id]), stream)]
    {
      for i := 0 to |stream|
        invariant id in records
        invariant records == old(records)[id := Streamed(old(records[id]), stream[..i])]
      {
        StreamedNext(old(records[id]), stream, i);
        UpdateRecord(id, stream[i].update);
        AddEvent(id, stream[i].node);
      }
      assert stream[..|stream|] == stream;
    }

    method Close(id: Id, breaksOff: bool)
      requires id in records
      modifies this
      ensures records == old(records)[id := AtTheEnd(old(records[id]), breaksOff)]
    {
      if breaksOff {
        Finish(id, Failed);
      } else {
        var last := records[id];
        var status := last.status;
        if !Settled(status) {
          status := if last.finalReport.Some? then Completed else Failed;
        }
        Finish(id, status);
      }
    }

    /** Follow the stream to its end, or until it breaks off with an exception, and close the record. */
    method RunAnalysis(id: Id, stream: seq<Exec>, breaksOff: bool)
      requires id in records
      modifies this
      ensures records == old(records)[id := AtTheEnd(Streamed(Opened(old(records[id])), stream), breaksOff)]
    {
      UpdateRecord(id, map[Status := StatusV(Running)]);
      Follow(id, stream);
      Close(id, breaksOff);
    }
  }

  lemma StreamedNext(r: Record, execs: seq<Exec>, i: nat)
    requires i < |execs|
    ensures Streamed(r, execs[..i + 1]) == WithEvent(Updated(Streamed(r, execs[..i]), execs[i].update), execs[i].node)
  {
    assert execs[..i + 1][..i] == execs[..i];
  }

  // ---- Following a run ------------------------------------------------------------------------------------

  /** The updates of a run, in the order its consumer sees them. */
  function Stream(run: Run): seq<Exec> {
    match run
    case Start(_) => []
    case Then(before, _, seen) => Stream(before) + seen
  }

  function RequestOf(run: Run): Option<string> {
    match run
    case Start(requestPack) => requestPack
    case Then(before, _, _) => RequestOf(before)
  }

  lemma {:induction false} MergeAllConcat(appends: set<Key>, s: State, a: seq<Exec>, b: seq<Exec>)
    ensures MergeAll(appends, s, a + b) == MergeAll(appends, MergeAll(appends, s, a), b)
  {
    if b == [] {
      assert a + b == a;
    } else {
      assert (a + b)[..|a + b| - 1] == a + b[..|b| - 1];
      MergeAllConcat(appends, s, a, b[..|b| - 1]);
    }
  }

  lemma UpdatedFields(r: Record, e: Exec, next: Record)
    requires next == WithEvent(Updated(r, e.update), e.node)
    ensures next.state == Merge(API_APPENDS, r.state, e.update)
    ensures next.events == r.events + [Event(|r.events| + 1, e.node, next.reportStatus)]
    ensures next.status == StatusAt(next.state, Status, r.status)
    ensures ReportAt(next.state, FinalReport, None).Some? ==> next.finalReport == ReportAt(next.state, FinalReport, None)
  {
  }

  lemma {:induction false} StreamedState(r: Record, execs: seq<Exec>)
    ensures Streamed(r, execs).state == MergeAll(API_APPENDS, r.state, execs)
  {
    if execs != [] {
      var n := |execs| - 1;
      StreamedState(r, execs[..n]);
      UpdatedFields(Streamed(r, execs[..n]), execs[n], Streamed(r, execs));
    }
  }

  lemma {:induction false} StreamedEvents(r: Record, execs: seq<Exec>)
    ensures |Streamed(r, execs).events| == |r.events| + |execs|
    ensures forall i :: |r.events| <= i < |r.events| + |execs| ==>
              Streamed(r, execs).events[i].sequence == i + 1
              && Streamed(r, execs).events[i].node == execs[i - |r.events|].node
  {
    if execs != [] {
      var n := |execs| - 1;
      StreamedEvents(r, execs[..n]);
      UpdatedFields(Streamed(r, execs[..n]), execs[n], Streamed(r, execs));
    }
  }

  lemma StreamedStatus(r: Record, execs: seq<Exec>, last: Record) returns (before: Record)
    requires execs != [] && last == Streamed(r, execs)
    ensures last.status == StatusAt(last.state, Status, before.status)
    ensures ReportAt(last.state, FinalReport, None).Some? ==> last.finalReport == ReportAt(last.state, FinalReport, None)
  {
    before := Streamed(r, execs[..|execs| - 1]);
    UpdatedFields(before, execs[|execs| - 1], last);
  }

  lemma {:induction false} StreamIsCopy(run: Run)
    ensures MergeAll(API_APPENDS, FirstCopy(RequestOf(run)), Stream(run)) == CopyOf(run)
  {
    match run
    case Start(_) =>
    case Then(before, _, seen) =>
      StreamIsCopy(before);
      MergeAllConcat(API_APPENDS, FirstCopy(RequestOf(run)), Stream(before), seen);
  }

  lemma {:induction false} StreamIsWhole(env: Env, run: Run)
    requires Valid(env, run)
    ensures |Stream(run)| == |Done(run)|
    ensures run.Then? ==> Stream(run) != []
  {
    match run
    case Start(_) =>
    case Then(before, applied, seen) =>
      StreamIsWhole(env, before);
      assert |seen| == |multiset(seen)| == |multiset(applied)| == |applied|;
      assert |Frontier(before)| > 0;
  }

  /** A record whose state agrees with the graph's on status and report shows both. */
  lemma FinalFields(last: Record, before: Record, s: State)
    requires Agrees(last.state, s, Status) && Agrees(last.state, s, FinalReport)
    requires last.status == StatusAt(last.state, Status, before.status)
    requires ReportAt(last.state, FinalReport, None).Some? ==> last.finalReport == ReportAt(last.state, FinalReport, None)
    ensures last.status == Read(s).status
    ensures Read(s).report.Some? ==> last.finalReport == Read(s).report
  {
  }

  lemma LastState(env: Env, run: Run, last: Record)
    requires Valid(env, run) && last == Streamed(Opened(Created(RequestOf(run))), Stream(run))
    ensures last.state == CopyOf(run) && |last.events| == |Done(run)|
    ensures forall i :: 0 <= i < |last.events| ==> last.events[i].sequence == i + 1
  {
    var first := Opened(Created(RequestOf(run)));
    StreamedState(first, Stream(run));
    StreamedEvents(first, Stream(run));
    StreamIsCopy(run);
    StreamIsWhole(env, run);
  }

  /** What an unbroken stream leaves in the record is what the graph ended with. */
  lemma LastRecord(env: Env, run: Run, last: Record)
    requires Valid(env, run) && run.Then? && last == Streamed(Opened(Created(RequestOf(run))), Stream(run))
    ensures last.status == ViewOf(run).status
    ensures ViewOf(run).report.Some? ==> last.finalReport == ViewOf(run).report
  {
    LastState(env, run, last);
    StreamIsWhole(env, run);
    var before := StreamedStatus(Opened(Created(RequestOf(run))), Stream(run), last);
    CopyAgrees(env, run, Status);
    CopyAgrees(env, run, FinalReport);
    FinalFields(last, before, StateOf(run));
  }

  lemma ReportIsFinal(reporter: Node, v: View, before: seq<Node>)
    requires G.ReportedBy(reporter, v, before)
    ensures v.report.Some? && v.status in {Completed, PartlyDone, Terminated}
  {
  }

  lemma ClosesAs(last: Record, status: AnalysisStatus)
    requires last.status == status && status in {Completed, PartlyDone, Terminated}
    ensures AtTheEnd(last, false).status == status
  {
  }

  /**
   When the stream of a finished run has been followed to its end, unbroken, the record is not failed: it shows
   the graph's own final status and report, and one numbered event for every node executed.
   */
  lemma FollowedToTheEnd(env: Env, run: Run) returns (last: Record)
    requires Finished(env, run)
    ensures last == Streamed(Opened(Created(RequestOf(run))), Stream(run))
    ensures AtTheEnd(last, false).status == ViewOf(run).status && ViewOf(run).status in {Completed, PartlyDone, Terminated}
    ensures last.finalReport == ViewOf(run).report && last.finalReport.Some?
    ensures |last.events| == |Done(run)|
    ensures forall i :: 0 <= i < |last.events| ==> last.events[i].sequence == i + 1
  {
    last := Streamed(Opened(Created(RequestOf(run))), Stream(run));
    var v := ViewOf(run);
    var reporter := G.ReportOfRun(env, run);
    ReportIsFinal(reporter, v, Done(run)[..|Done(run)| - 1]);
    LastState(env, run, last);
    LastRecord(env, run, last);
    ClosesAs(last, v.status);
  }
}
