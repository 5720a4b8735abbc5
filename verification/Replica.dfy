/**
 The API's copy of the graph state (src/upgradepilot/api/analyses.py): it merges the streamed updates with
 its own list of appending fields, in the order the stream delivers them.
 */
module Replica {
  import opened Outcomes
  import opened GraphState
  import opened Nodes
  import opened GraphRuns
  import opened GraphInvariant

  const API_APPENDS: set<Key> := GRAPH_APPENDS + {Instructions}

  function MergeAll(appends: set<Key>, s: State, execs: seq<Exec>): State {
    if execs == [] then s else Merge(appends, MergeAll(appends, s, execs[..|execs| - 1]), execs[|execs| - 1].update)
  }

  /** The copy starts as the initial state marked running. */
  function FirstCopy(requestPack: Option<string>): State {
    Merge(API_APPENDS, InitialState(requestPack), map[Status := StatusV(Running)])
  }

  function CopyOf(run: Run): State {
    match run
    case Start(requestPack) => FirstCopy(requestPack)
    case Then(before, _, seen) => MergeAll(API_APPENDS, CopyOf(before), seen)
  }

  /** The graph merges in its own order with its own list. */
  lemma {:induction false} GraphMerges(s: State, execs: seq<Exec>)
    ensures ApplyAll(s, execs) == MergeAll(GRAPH_APPENDS, s, execs)
  {
    if execs != [] {
      GraphMerges(s, execs[..|execs| - 1]);
    }
  }

  // ---- Fields with one writer per super-step ------------------------------------------------------------

  lemma {:induction false} Unchanged(appends: set<Key>, s: State, execs: seq<Exec>, k: Key)
    requires k in s && forall i :: 0 <= i < |execs| ==> k !in execs[i].update
    ensures k in MergeAll(appends, s, execs) && MergeAll(appends, s, execs)[k] == s[k]
  {
    if execs != [] {
      Unchanged(appends, s, execs[..|execs| - 1], k);
    }
  }

  ghost predicate SoleWriter(execs: seq<Exec>, k: Key, i: nat) {
    i < |execs| && k in execs[i].update && forall j :: 0 <= j < |execs| && j != i ==> k !in execs[j].update
  }

  /** With a single writer the order of the updates does not matter. */
  lemma {:induction false} OneWriter(appends: set<Key>, s: State, execs: seq<Exec>, k: Key, i: nat)
    requires k in s && SoleWriter(execs, k, i)
    ensures k in MergeAll(appends, s, execs)
    ensures MergeAll(appends, s, execs)[k] == MergedValue(appends, s, execs[i].update, k)
  {
    var n := |execs| - 1;
    if i == n {
      Unchanged(appends, s, execs[..n], k);
    } else {
      assert SoleWriter(execs[..n], k, i);
      OneWriter(appends, s, execs[..n], k, i);
    }
  }

  // ---- Fields with several writers ------------------------------------------------------------------------

  /** A field that holds lists, which joining concatenates. */
  ghost predicate ListField<T(!new)>(k: Key, items: Value -> seq<T>) {
    forall a, b :: Fits(k, a) && Fits(k, b) ==> Fits(k, Join(a, b)) && items(Join(a, b)) == items(a) + items(b)
  }

  ghost function Contribution<T>(e: Exec, k: Key, items: Value -> seq<T>): multiset<T> {
    if k in e.update then multiset(items(e.update[k])) else multiset{}
  }

  ghost function Contributions<T>(execs: seq<Exec>, k: Key, items: Value -> seq<T>): multiset<T> {
    if execs == [] then multiset{}
    else Contributions(execs[..|execs| - 1], k, items) + Contribution(execs[|execs| - 1], k, items)
  }

  lemma {:induction false} Collected<T(!new)>(appends: set<Key>, s: State, execs: seq<Exec>, k: Key, items: Value -> seq<T>)
    requires k in appends && ListField(k, items) && k in s && Fits(k, s[k])
    requires forall i :: 0 <= i < |execs| && k in execs[i].update ==> Fits(k, execs[i].update[k])
    ensures k in MergeAll(appends, s, execs) && Fits(k, MergeAll(appends, s, execs)[k])
    ensures multiset(items(MergeAll(appends, s, execs)[k])) == multiset(items(s[k])) + Contributions(execs, k, items)
  {
    if execs != [] {
      var n := |execs| - 1;
      Collected(appends, s, execs[..n], k, items);
      var middle := MergeAll(appends, s, execs[..n]);
      if k in execs[n].update {
        assert MergeAll(appends, s, execs)[k] == Join(middle[k], execs[n].update[k]);
      }
    }
  }

  lemma ContributionLast<T>(execs: seq<Exec>, e: Exec, k: Key, items: Value -> seq<T>)
    ensures Contributions(execs + [e], k, items) == Contributions(execs, k, items) + Contribution(e, k, items)
  {
    assert (execs + [e])[..|execs|] == execs;
  }

  lemma Swap<T>(a: multiset<T>, b: multiset<T>, c: multiset<T>)
    ensures a + b + c == a + c + b
  {
  }

  lemma {:induction false} ContributionRemoved<T>(before: seq<Exec>, e: Exec, after: seq<Exec>, k: Key, items: Value -> seq<T>)
    ensures Contributions(before + [e] + after, k, items)
            == Contributions(before + after, k, items) + Contribution(e, k, items)
  {
    if after == [] {
      assert before + [e] + after == before + [e] && before + after == before;
      ContributionLast(before, e, k, items);
    } else {
      var rest, last := after[..|after| - 1], after[|after| - 1];
      assert before + [e] + after == before + [e] + rest + [last] && before + after == before + rest + [last];
      ContributionRemoved(before, e, rest, k, items);
      ContributionLast(before + [e] + rest, last, k, items);
      ContributionLast(before + rest, last, k, items);
      Swap(Contributions(before + rest, k, items), Contribution(e, k, items), Contribution(last, k, items));
    }
  }

  lemma {:induction false} ContributionsPermute<T>(a: seq<Exec>, b: seq<Exec>, k: Key, items: Value -> seq<T>)
    requires multiset(a) == multiset(b)
    ensures Contributions(a, k, items) == Contributions(b, k, items)
    decreases |b|
  {
    if b == [] {
      assert |multiset(a)| == 0;
    } else {
      var n := |b| - 1;
      assert b == b[..n] + [b[n]];
      assert b[n] in multiset(a);
      var j :| 0 <= j < |a| && a[j] == b[n];
      var rest := a[..j] + a[j + 1..];
      assert a == a[..j] + [b[n]] + a[j + 1..];
      SameRest(multiset(rest), multiset(b[..n]), b[n]);
      ContributionsPermute(rest, b[..n], k, items);
      ContributionRemoved(a[..j], b[n], a[j + 1..], k, items);
    }
  }

  lemma SameRest(a: multiset<Exec>, b: multiset<Exec>, x: Exec)
    requires a + multiset{x} == b + multiset{x}
    ensures a == b
  {
    forall y
      ensures a[y] == b[y]
    {
      assert (a + multiset{x})[y] == (b + multiset{x})[y];
    }
  }

  // ---- The stream delivers the same executions --------------------------------------------------------------

  lemma TwiceCounts(execs: seq<Exec>, i: nat, j: nat)
    requires i < j < |execs| && execs[i] == execs[j]
    ensures multiset(execs)[execs[i]] >= 2
  {
    assert execs == execs[..i] + [execs[i]] + execs[i + 1..j] + [execs[j]] + execs[j + 1..];
  }

  lemma {:induction false} OnceCounts(execs: seq<Exec>, e: Exec)
    requires forall i, j :: 0 <= i < j < |execs| ==> execs[i].node != execs[j].node
    ensures multiset(execs)[e] <= 1
  {
    if execs != [] {
      var n := |execs| - 1;
      OnceCounts(execs[..n], e);
      assert execs == execs[..n] + [execs[n]];
      assert execs[n] == e ==> e !in execs[..n];
      assert e !in execs[..n] ==> multiset(execs[..n])[e] == 0;
    }
  }

  /** However the stream orders them, the updates seen are a super-step of the same frontier. */
  lemma SeenIsSuperstep(env: Env, frontier: set<Node>, v: View, applied: seq<Exec>, seen: seq<Exec>)
    requires Superstep(env, frontier, v, applied) && multiset(seen) == multiset(applied)
    ensures Superstep(env, frontier, v, seen)
  {
    assert |seen| == |multiset(seen)| == |applied|;
    forall i | 0 <= i < |seen|
      ensures seen[i] in applied
    {
      assert seen[i] in multiset(seen);
    }
    forall i, j | 0 <= i < j < |seen|
      ensures seen[i].node != seen[j].node
    {
      if seen[i] == seen[j] {
        TwiceCounts(seen, i, j);
        OnceCounts(applied, seen[i]);
      }
    }
  }

  predicate Many(k: Key) {
    k.NodeExecutions? || k.Errors? || k.Warnings?
  }

  /** In one super-step at most one node writes a field other than the logs. */
  lemma SoleWriters(env: Env, p: Stage, v: View, execs: seq<Exec>, k: Key, i: nat)
    requires Superstep(env, FrontierAt(p), v, execs) && !Many(k)
    requires i < |execs| && k in execs[i].update
    ensures SoleWriter(execs, k, i)
  {
    forall j | 0 <= j < |execs| && j != i
      ensures k !in execs[j].update
    {
      var a, b := execs[i].node, execs[j].node;
      assert Produces(env, a, v, execs[i].update) && Produces(env, b, v, execs[j].update);
      BothInFan(p, a, b);
      BranchesShareLogs(a, b, k);
    }
  }

  lemma BothInFan(p: Stage, a: Node, b: Node)
    requires a in FrontierAt(p) && b in FrontierAt(p) && a != b
    ensures IsBranch(a) && IsBranch(b)
  {
  }

  /** Branches that run side by side share no field but the logs. */
  lemma BranchesShareLogs(a: Node, b: Node, k: Key)
    requires IsBranch(a) && IsBranch(b) && a != b && !Many(k) && MayWrite(a, k)
    ensures !MayWrite(b, k)
  {
  }

  // ---- Agreement ------------------------------------------------------------------------------------------

  function ExecutionsIn(v: Value): seq<Execution> {
    if v.ExecutionsV? then v.executions else []
  }

  function TextsIn(v: Value): seq<string> {
    if v.TextsV? then v.texts else []
  }

  /** The copy has the graph's value of the field; the logs may be in another order. */
  ghost predicate Agrees(copy: State, s: State, k: Key) {
    && k in copy && k in s && Fits(k, copy[k]) && Fits(k, s[k])
    && if k.NodeExecutions? then multiset(ExecutionsIn(copy[k])) == multiset(ExecutionsIn(s[k]))
       else if k.Errors? || k.Warnings? then multiset(TextsIn(copy[k])) == multiset(TextsIn(s[k]))
       else copy[k] == s[k]
  }

  lemma LogsAgree(copy: State, s: State, applied: seq<Exec>, seen: seq<Exec>, k: Key)
    requires Many(k) && Agrees(copy, s, k) && multiset(seen) == multiset(applied)
    requires forall i :: 0 <= i < |applied| ==> Lawful(applied[i])
    requires forall i :: 0 <= i < |seen| ==> Lawful(seen[i])
    ensures Agrees(MergeAll(API_APPENDS, copy, seen), MergeAll(GRAPH_APPENDS, s, applied), k)
  {
    if k.NodeExecutions? {
      Collected(API_APPENDS, copy, seen, k, ExecutionsIn);
      Collected(GRAPH_APPENDS, s, applied, k, ExecutionsIn);
      ContributionsPermute(seen, applied, k, ExecutionsIn);
    } else {
      Collected(API_APPENDS, copy, seen, k, TextsIn);
      Collected(GRAPH_APPENDS, s, applied, k, TextsIn);
      ContributionsPermute(seen, applied, k, TextsIn);
    }
  }

  /** A single writer gives both sides the same value, unless it repeats the critic's instructions. */
  lemma WrittenAgrees(copy: State, s: State, applied: seq<Exec>, seen: seq<Exec>, k: Key, i: nat, j: nat)
    requires !Many(k) && SoleWriter(applied, k, i) && SoleWriter(seen, k, j) && applied[i] == seen[j]
    requires k in copy && k in s && Fits(k, copy[k]) && Fits(k, s[k]) && Fits(k, applied[i].update[k])
    requires copy[k] == s[k] || k !in API_APPENDS
    requires k == Instructions ==> s[k] == InstructionsV([])
    ensures Agrees(MergeAll(API_APPENDS, copy, seen), MergeAll(GRAPH_APPENDS, s, applied), k)
  {
    OneWriter(API_APPENDS, copy, seen, k, j);
    OneWriter(GRAPH_APPENDS, s, applied, k, i);
    var added := applied[i].update[k];
    assert k == Instructions ==> [] + added.instructions == added.instructions;
  }

  /** Where the copy and the graph can differ before anything has run. */
  ghost predicate InStep(copy: State, s: State, p: Stage) {
    WellTyped(copy) && forall k: Key :: (k == Status ==> p != At(ValidateRequest)) ==> Agrees(copy, s, k)
  }

  /** Before the critic there are no instructions. */
  lemma NoInstructionsYet(env: Env, p: Stage, v: View, execs: seq<Exec>, i: nat)
    requires Superstep(env, FrontierAt(p), v, execs) && Holds(env, v, p)
    requires i < |execs| && Instructions in execs[i].update
    ensures v.instructions == []
  {
    assert Produces(env, execs[i].node, v, execs[i].update);
    assert MayWrite(execs[i].node, Instructions);
    assert execs[i].node in FrontierAt(p);
  }

  lemma InstructionsRead(s: State)
    requires WellTyped(s) && Read(s).instructions == []
    ensures s[Instructions] == InstructionsV([])
  {
    assert Fits(Instructions, s[Instructions]);
  }

  lemma RequestSetsStatus(env: Env, v: View, execs: seq<Exec>)
    requires Superstep(env, {ValidateRequest}, v, execs)
    ensures |execs| == 1 && Status in execs[0].update
  {
    assert Produces(env, ValidateRequest, v, execs[0].update);
  }

  lemma FieldWritten(env: Env, p: Stage, v: View, s: State, copy: State, applied: seq<Exec>, seen: seq<Exec>, k: Key, i: nat)
    requires WellTyped(s) && WellTyped(copy) && !Many(k)
    requires Superstep(env, FrontierAt(p), v, applied) && Superstep(env, FrontierAt(p), v, seen)
    requires multiset(seen) == multiset(applied) && i < |applied| && k in applied[i].update
    requires copy[k] == s[k] || k == Status
    requires k == Instructions ==> s[k] == InstructionsV([])
    ensures Agrees(MergeAll(API_APPENDS, copy, seen), MergeAll(GRAPH_APPENDS, s, applied), k)
  {
    assert applied[i] in multiset(seen);
    var j: nat :| j < |seen| && seen[j] == applied[i];
    SoleWriters(env, p, v, applied, k, i);
    SoleWriters(env, p, v, seen, k, j);
    SuperstepIsLawful(env, FrontierAt(p), v, applied);
    WrittenAgrees(copy, s, applied, seen, k, i, j);
  }

  lemma FieldUntouched(s: State, copy: State, applied: seq<Exec>, seen: seq<Exec>, k: Key)
    requires !Many(k) && Agrees(copy, s, k) && multiset(seen) == multiset(applied)
    requires forall i :: 0 <= i < |applied| ==> k !in applied[i].update
    ensures Agrees(MergeAll(API_APPENDS, copy, seen), MergeAll(GRAPH_APPENDS, s, applied), k)
  {
    forall j | 0 <= j < |seen|
      ensures k !in seen[j].update
    {
      assert seen[j] in multiset(applied);
    }
    Unchanged(API_APPENDS, copy, seen, k);
    Unchanged(GRAPH_APPENDS, s, applied, k);
  }

  lemma FieldStaysInStep(env: Env, p: Stage, v: View, s: State, copy: State, applied: seq<Exec>, seen: seq<Exec>, k: Key)
    requires WellTyped(s) && v == Read(s) && Holds(env, v, p) && InStep(copy, s, p) && !Many(k)
    requires Superstep(env, FrontierAt(p), v, applied) && Superstep(env, FrontierAt(p), v, seen)
    requires multiset(seen) == multiset(applied)
    ensures Agrees(MergeAll(API_APPENDS, copy, seen), MergeAll(GRAPH_APPENDS, s, applied), k)
  {
    assert k != Status ==> Agrees(copy, s, k);
    if i: nat :| i < |applied| && k in applied[i].update {
      if k == Instructions {
        NoInstructionsYet(env, p, v, applied, i);
        InstructionsRead(s);
      }
      FieldWritten(env, p, v, s, copy, applied, seen, k, i);
    } else {
      if p == At(ValidateRequest) {
        RequestSetsStatus(env, v, applied);
      }
      FieldUntouched(s, copy, applied, seen, k);
    }
  }

  lemma {:induction false} MergeAllKeepsTypes(appends: set<Key>, s: State, execs: seq<Exec>)
    requires WellTyped(s) && forall i :: 0 <= i < |execs| ==> Lawful(execs[i])
    ensures WellTyped(MergeAll(appends, s, execs))
  {
    if execs != [] {
      MergeAllKeepsTypes(appends, s, execs[..|execs| - 1]);
      MergeKeepsTypes(appends, MergeAll(appends, s, execs[..|execs| - 1]), execs[|execs| - 1].update);
    }
  }

  /** One super-step keeps the copy in step, whatever order the stream delivers. */
  lemma SuperstepStaysInStep(env: Env, p: Stage, q: Stage, s: State, copy: State, applied: seq<Exec>, seen: seq<Exec>)
    requires WellTyped(s) && Superstep(env, FrontierAt(p), Read(s), applied)
    requires multiset(seen) == multiset(applied) && Holds(env, Read(s), p) && InStep(copy, s, p)
    ensures InStep(MergeAll(API_APPENDS, copy, seen), MergeAll(GRAPH_APPENDS, s, applied), q)
  {
    SeenIsSuperstep(env, FrontierAt(p), Read(s), applied, seen);
    SuperstepIsLawful(env, FrontierAt(p), Read(s), applied);
    SuperstepIsLawful(env, FrontierAt(p), Read(s), seen);
    MergeAllKeepsTypes(API_APPENDS, copy, seen);
    forall k: Key
      ensures Agrees(MergeAll(API_APPENDS, copy, seen), MergeAll(GRAPH_APPENDS, s, applied), k)
    {
      if Many(k) {
        LogsAgree(copy, s, applied, seen, k);
      } else {
        FieldStaysInStep(env, p, Read(s), s, copy, applied, seen, k);
      }
    }
  }

  lemma FirstCopyInStep(requestPack: Option<string>)
    ensures InStep(FirstCopy(requestPack), InitialState(requestPack), At(ValidateRequest))
  {
    var s := InitialState(requestPack);
    var u: Update := map[Status := StatusV(Running)];
    MergeKeepsTypes(API_APPENDS, s, u);
  }

  /**
   In every run, in whatever order the parallel branches report, the copy holds the graph's own value of
   every field, and the same records, errors and warnings in the logs. The status agrees from the first
   node on.
   */
  lemma {:induction false} CopyAgrees(env: Env, run: Run, k: Key)
    requires Valid(env, run) && (k == Status ==> run.Then?)
    ensures Agrees(CopyOf(run), StateOf(run), k)
  {
    CopyInStep(env, run);
    if run.Then? {
      StartedOnce(env, run);
    }
  }

  /** A run never comes back to its first stage. */
  lemma StartedOnce(env: Env, run: Run)
    requires Valid(env, run) && run.Then?
    ensures StageOf(run) != At(ValidateRequest)
  {
    InvariantAlways(env, run);
    MovesOn(StageOf(run.before), ViewOf(run.before).repairs, NodesOf(run.applied), StageOf(run), ViewOf(run).repairs);
  }

  lemma MovesOn(p: Stage, repairs: nat, nodes: seq<Node>, q: Stage, repairsAfter: nat)
    requires Moves(p, repairs, nodes, q, repairsAfter)
    ensures q != At(ValidateRequest)
  {
  }

  lemma {:induction false} CopyInStep(env: Env, run: Run)
    requires Valid(env, run)
    ensures InStep(CopyOf(run), StateOf(run), StageOf(run))
  {
    match run
    case Start(requestPack) =>
      FirstCopyInStep(requestPack);
    case Then(before, applied, seen) =>
      CopyInStep(env, before);
      InvariantAlways(env, before);
      GraphMerges(StateOf(before), applied);
      SuperstepStaysInStep(env, StageOf(before), StageOf(run), StateOf(before), CopyOf(before), applied, seen);
  }

  // ---- The two lists of appending fields ------------------------------------------------------------------

  /**
   Repair instructions are appended by the copy and overwritten by the graph: the two agree on an update
   exactly when there were none before it.
   */
  lemma InstructionsAgreeIff(s: State, u: Update)
    requires WellTyped(s) && WellTypedUpdate(u) && Instructions in u
    ensures Merge(API_APPENDS, s, u)[Instructions] == Apply(s, u)[Instructions] <==> s[Instructions] == InstructionsV([])
  {
    assert Fits(Instructions, s[Instructions]) && Fits(Instructions, u[Instructions]);
    var a, b := s[Instructions].instructions, u[Instructions].instructions;
    assert a + b == b ==> |a| == 0;
    assert [] + b == b;
  }
}
