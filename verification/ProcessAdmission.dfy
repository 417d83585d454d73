/** The process log beside the ledger: what every log the store writes looks like, and how many
    processes it can hold. */
module ProcessAdmission {
  import opened Common
  import opened LedgerState
  import opened ProcessStore

  function BindingOf(s: State, r: RunId): Binding {
    if r in s.runs && s.runs[r].taskId in s.tasks then
      var task := s.tasks[s.runs[r].taskId];
      Binding(task.project, task.writerKey, s.runs[r].taskId, r, s.runs[r].attempt)
    else
      Binding(None, "", "", r, 0)
  }

  lemma BindingsNeverChange(s: State, after: State, r: RunId)
    requires Known(s) && Keeps(s, after) && r in s.runs
    ensures BindingOf(after, r) == BindingOf(s, r)
  {
  }

  /** How many closures a run can have acknowledged by the time it is in a state. */
  function AckBudget(state: RunState): nat {
    if Level(state) == 0 then 0 else if Level(state) == 1 then 1 else if Level(state) <= 4 then 2 else 3
  }

  /** Every process row names a known run and follows from the rows before it. */
  ghost predicate WellKept(log: Log, s: State) {
    forall i: nat :: i < |log| && log[i].payload != OtherKind ==>
      Recorded(log[i]) && log[i].runId in s.runs && RowOk(log, i, log[i].runId, BindingOf(s, log[i].runId))
  }

  ghost predicate AcksFit(log: Log, s: State) {
    forall r :: r in s.runs ==> |Acks(log, |log|, r)| <= AckBudget(s.runs[r].state)
  }

  lemma RowsOfRun(log: Log, s: State, r: RunId)
    requires WellKept(log, s)
    ensures RowsOk(log, |log|, r, BindingOf(s, r))
    ensures r !in s.runs ==> Rows(log, |log|, r) == {}
  {
  }

  /** Any log the store can produce is accepted by the validator, and the row limit is never
      the reason for a refusal. */
  lemma StoredChainsAreValid(log: Log, s: State, r: RunId)
    requires WellKept(log, s) && AcksFit(log, s)
    ensures |Rows(log, |log|, r)| <= 131
    ensures |Dispatches(log, |log|, r)| <= MAX_DISPATCHES
    ensures ValidChain(log, r, BindingOf(s, r), if r in s.runs then Some(BindingOf(s, r)) else None)
  {
    hide WellKept, RowsOk;
    RowsOfRun(log, s, r);
    Census(log, |log|, r, BindingOf(s, r));
    assert r !in s.runs ==> Acks(log, |log|, r) <= Rows(log, |log|, r);
  }

  // ---------------------------------------------------------------- open processes

  /** Dispatched and not observed to have exited. */
  function OpenOf(log: Log, r: RunId): set<nat> {
    Dispatches(log, |log|, r) - EndedStarts(log, |log|, r)
  }

  predicate OpenAt(log: Log, i: nat) {
    i < |log| && log[i].payload.Dispatch? && !Ended(log, |log|, i, log[i].runId)
  }

  function AllOpen(log: Log): set<nat> {
    set i: nat | i < |log| && OpenAt(log, i)
  }

  lemma OpenOfRun(log: Log, s: State, r: RunId)
    requires WellKept(log, s)
    ensures forall i: nat :: i in OpenOf(log, r) <==> OpenAt(log, i) && log[i].runId == r
    ensures |OpenOf(log, r)| == |Dispatches(log, |log|, r)| - |Exits(log, |log|, r)|
  {
    hide RowOk, RowsOk;
    RowsOfRun(log, s, r);
    Census(log, |log|, r, BindingOf(s, r));
    Difference(Dispatches(log, |log|, r), EndedStarts(log, |log|, r));
    hide Ended;
    forall i: nat
      ensures i in OpenOf(log, r) <==> OpenAt(log, i) && log[i].runId == r
    {
      if i < |log| && log[i].payload.Dispatch? { assert Recorded(log[i]); }
    }
  }

  lemma Difference(all: set<nat>, part: set<nat>)
    requires part <= all
    ensures |all - part| == |all| - |part|
  {
    assert (all - part) + part == all;
  }

  /** Every run that has process rows, each once. */
  predicate ListsRuns(log: Log, runs: seq<RunId>) {
    && (forall j, k :: 0 <= j < k < |runs| ==> runs[j] != runs[k])
    && (forall i :: 0 <= i < |log| && log[i].payload != OtherKind ==> log[i].runId in runs)
  }

  /** `_unresolved_processes`: the sum over the runs is the number of open dispatches. */
  method UnresolvedProcesses(log: Log, s: State, runs: seq<RunId>) returns (total: nat)
    requires WellKept(log, s) && AcksFit(log, s) && ListsRuns(log, runs) && forall r :: r in runs ==> r in s.runs
    ensures total == |AllOpen(log)|
  {
    hide WellKept, AcksFit, AllOpen, OpenOf, ValidChain, Exits, Dispatches, Ended, DispatchAt, Ends;
    total := 0;
    ghost var seen: set<nat> := {};
    for n := 0 to |runs|
      invariant total == |seen| && CountedUpTo(log, runs, n, seen)
    {
      StoredChainsAreValid(log, s, runs[n]);
      assert runs[n] in runs;
      var ok, intents, terminals := Chains(log, runs[n], BindingOf(s, runs[n]), Some(BindingOf(s, runs[n])));
      OpenOfRun(log, s, runs[n]);
      CountOneRun(log, s, runs, n, seen);
      total := total + (|intents| - |terminals|);
      seen := seen + OpenOf(log, runs[n]);
    }
    CountedAll(log, runs, seen);
  }

  ghost predicate CountedUpTo(log: Log, runs: seq<RunId>, n: nat, seen: set<nat>) {
    n <= |runs| && forall i: nat :: i in seen <==> OpenAt(log, i) && Handled(runs, n, log[i].runId)
  }

  predicate Handled(runs: seq<RunId>, n: nat, r: RunId) {
    exists j :: 0 <= j < n <= |runs| && runs[j] == r
  }

  lemma CountOneRun(log: Log, s: State, runs: seq<RunId>, n: nat, seen: set<nat>)
    requires WellKept(log, s) && ListsRuns(log, runs) && n < |runs| && CountedUpTo(log, runs, n, seen)
    ensures CountedUpTo(log, runs, n + 1, seen + OpenOf(log, runs[n])) && seen !! OpenOf(log, runs[n])
    ensures |seen + OpenOf(log, runs[n])| == |seen| + |OpenOf(log, runs[n])|
  {
    hide WellKept, OpenOf, OpenAt;
    OpenOfRun(log, s, runs[n]);
    assert !Handled(runs, n, runs[n]);
    forall r
      ensures Handled(runs, n + 1, r) <==> Handled(runs, n, r) || r == runs[n]
    {
    }
    hide Handled;
    Disjoint(seen, OpenOf(log, runs[n]));
  }

  lemma Disjoint(a: set<nat>, b: set<nat>)
    requires a !! b
    ensures |a + b| == |a| + |b|
  {
  }

  lemma CountedAll(log: Log, runs: seq<RunId>, seen: set<nat>)
    requires ListsRuns(log, runs) && CountedUpTo(log, runs, |runs|, seen)
    ensures seen == AllOpen(log)
  {
  }

  // ---------------------------------------------------------------- appending a row

  lemma PrefixSets(log: Log, e: Event, n: nat, run: string)
    requires n <= |log|
    ensures Dispatches(log + [e], n, run) == Dispatches(log, n, run)
    ensures Acks(log + [e], n, run) == Acks(log, n, run)
    ensures forall k: nat :: Ended(log + [e], n, k, run) <==> Ended(log, n, k, run)
    ensures forall start :: FreshStart(log + [e], n, run, start) <==> FreshStart(log, n, run, start)
  {
    var longer := log + [e];
    assert forall j: nat :: j < n ==> longer[j] == log[j] && (DispatchAt(longer, j, run) <==> DispatchAt(log, j, run));
    forall start
      ensures FreshStart(longer, n, run, start) <==> FreshStart(log, n, run, start)
    {
    }
    forall k: nat
      ensures Ended(log + [e], n, k, run) <==> Ended(log, n, k, run)
    {
      if Ended(log, n, k, run) {
        var j: nat :| j < n && Ends(log, j, k, run);
        assert Ends(log + [e], j, k, run);
      }
      if Ended(log + [e], n, k, run) {
        var j: nat :| j < n && Ends(log + [e], j, k, run);
        assert Ends(log, j, k, run);
      }
    }
  }

  lemma RowStaysOk(log: Log, e: Event, i: nat, run: string, b: Binding)
    requires i < |log| && RowOk(log, i, run, b)
    ensures RowOk(log + [e], i, run, b)
  {
    hide Dispatches, Ended, FreshStart;
    PrefixSets(log, e, i, run);
  }

  lemma AppendingKeepsWell(log: Log, s: State, e: Event)
    requires WellKept(log, s)
    requires Recorded(e) && e.runId in s.runs && RowOk(log + [e], |log|, e.runId, BindingOf(s, e.runId))
    ensures WellKept(log + [e], s)
  {
    var longer := log + [e];
    forall i: nat | i < |longer| && longer[i].payload != OtherKind
      ensures Recorded(longer[i]) && longer[i].runId in s.runs
              && RowOk(longer, i, longer[i].runId, BindingOf(s, longer[i].runId))
    {
      if i < |log| {
        assert longer[i] == log[i];
        RowStaysOk(log, e, i, log[i].runId, BindingOf(s, log[i].runId));
      }
    }
  }

  lemma AcksAfter(log: Log, e: Event, r: string)
    ensures |Acks(log + [e], |log| + 1, r)| == |Acks(log, |log|, r)| + if e.payload.Ack? && Selected(e, r) then 1 else 0
  {
    PrefixSets(log, e, |log|, r);
    DispatchesStep(log + [e], |log|, r);
  }

  /** Which dispatches are open after one more row. */
  lemma OpenAfter(log: Log, s: State, e: Event, i: nat)
    requires WellKept(log, s)
    ensures OpenAt(log + [e], i) <==>
            || (i == |log| && e.payload.Dispatch?)
            || (OpenAt(log, i) && !(e.payload.Exit? && Selected(e, log[i].runId) && e.payload.facts.intentSeq == i))
  {
    var longer := log + [e];
    if i < |log| {
      var run := log[i].runId;
      PrefixSets(log, e, |log|, run);
      EndsStep(longer, |log|, run);
      assert longer[i] == log[i] && longer[|log|] == e && |longer| == |log| + 1;
      assert Ended(longer, |longer|, i, run) <==> Ended(log, |log|, i, run) || Ends(longer, |log|, i, run);
    } else if i == |log| && e.payload.Dispatch? {
      EndsStep(longer, |log|, e.runId);
      forall j: nat | j < |log|
        ensures !Ends(longer, j, i, e.runId)
      {
        assert longer[j] == log[j];
        assert ExitAt(log, j, e.runId) ==> RowOk(log, j, e.runId, BindingOf(s, e.runId));
      }
      assert !Ended(longer, |longer|, i, e.runId);
    }
  }
}
