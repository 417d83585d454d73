/** Tasks, runs, approvals and publications as the ledger stores them, and the invariant every
    transaction keeps. */
module LedgerState {
  import opened Common
  import opened DependencyGraph

  type TaskId = string
  type RunId = string

  datatype TaskStatus = Planned | ReadyTask | NeedsFix | InProgress | WaitingReview
                      | ReadyToPublish | WaitingOwner | Done | BlockedTask | Cancelled
  datatype RunState = Running | ResultSubmitted | Quiescing | Verifying | Reviewing | Verified
                    | RunNeedsFix | RunBlocked | Aborted | RunComplete
  datatype Review = NotDecided | NotRequired | Awaited | Accepted | Rejected

  datatype Task = Task(
    writerKey: string,
    project: Option<string>,
    queueSeq: nat,
    dependencies: seq<TaskId>,
    maxAttempts: nat,
    publishes: bool,
    ownerAcceptance: bool,
    status: TaskStatus)

  datatype Run = Run(
    taskId: TaskId, attempt: nat, lease: string, state: RunState,
    snapshot: Option<string>, checksPassed: bool, review: Review)

  /** `publishing` holds the runs that have a publication row, abandoned ones excepted. */
  datatype State = State(
    tasks: map<TaskId, Task>,
    runs: map<RunId, Run>,
    approvals: map<RunId, string>,
    publishing: set<RunId>,
    checkpoints: set<RunId>,
    paused: bool,
    pausedProjects: set<string>)

  const READY_TASK_STATES := {Planned, ReadyTask, NeedsFix}
  const ACTIVE_RUN_STATES := {Running, ResultSubmitted, Quiescing, Verifying, Reviewing}
  const WRITER_LOCK_RUN_STATES := ACTIVE_RUN_STATES + {Verified}

  const OPEN_TASK_STATES := {InProgress, WaitingReview, ReadyToPublish, WaitingOwner}

  predicate Locks(state: RunState) {
    state in WRITER_LOCK_RUN_STATES
  }

  /** The run exists and holds its task's writer reservation. */
  predicate Holder(s: State, r: RunId) {
    r in s.runs && Locks(s.runs[r].state)
  }

  function WriterKey(s: State, r: RunId): string {
    if r in s.runs && s.runs[r].taskId in s.tasks then s.tasks[s.runs[r].taskId].writerKey else ""
  }

  function TaskRuns(s: State, t: TaskId): set<RunId> {
    set r | r in s.runs && s.runs[r].taskId == t
  }

  function Attempts(s: State, t: TaskId): nat {
    |TaskRuns(s, t)|
  }

  function GraphOf(s: State): Graph {
    map t | t in s.tasks :: s.tasks[t].dependencies
  }

  function StatusOf(s: State, r: RunId): TaskStatus {
    if r in s.runs && s.runs[r].taskId in s.tasks then s.tasks[s.runs[r].taskId].status else Planned
  }

  /** The task status that goes with a run holding the writer reservation. */
  predicate Fits(state: RunState, status: TaskStatus) {
    match state
    case Reviewing => status == WaitingReview
    case Verified => status in {ReadyToPublish, WaitingOwner}
    case _ => status == InProgress
  }

  function Level(state: RunState): nat {
    match state
    case Running => 0
    case ResultSubmitted => 1
    case Quiescing => 1
    case Verifying => 2
    case Reviewing => 3
    case Verified => 4
    case _ => 5
  }

  /** A run only moves forward, a verified run only to completion, a finished run nowhere. */
  predicate Onward(before: RunState, after: RunState) {
    before == after || (Level(before) < Level(after) && (before == Verified ==> after == RunComplete))
  }

  /** The evidence each state stands for. */
  predicate Backed(run: Run) {
    && (run.state in {Reviewing, Verified, RunComplete} ==> run.checksPassed && run.snapshot.Some?)
    && (run.state == Reviewing ==> run.review == Awaited)
    && (run.state in {Verified, RunComplete} ==> run.review in {NotRequired, Accepted})
  }

  /** Where the task asks for the owner, the owner approved exactly this snapshot. */
  predicate Owned(s: State, r: RunId) {
    r in s.runs && s.runs[r].taskId in s.tasks && s.tasks[s.runs[r].taskId].ownerAcceptance ==>
      r in s.approvals && s.runs[r].snapshot == Some(s.approvals[r])
  }

  predicate Publishes(s: State, r: RunId) {
    r in s.runs && s.runs[r].taskId in s.tasks && s.tasks[s.runs[r].taskId].publishes
  }

  predicate HolderOf(s: State, r: RunId, t: TaskId) {
    Holder(s, r) && s.runs[r].taskId == t
  }

  predicate Completed(s: State, r: RunId, t: TaskId) {
    r in s.runs && s.runs[r].state == RunComplete && s.runs[r].taskId == t
  }

  // ---------------------------------------------------------------- invariant

  ghost predicate Known(s: State) {
    (forall r :: r in s.runs ==> s.runs[r].taskId in s.tasks) && s.publishing <= s.runs.Keys
  }

  /** At most one run per writer holds a reservation. */
  ghost predicate Exclusive(s: State) {
    forall r, q :: Holder(s, r) && Holder(s, q) && WriterKey(s, r) == WriterKey(s, q) ==> r == q
  }

  ghost predicate Reserved(s: State) {
    forall r :: Holder(s, r) ==> Fits(s.runs[r].state, StatusOf(s, r))
  }

  /** No task is left in progress without a run that holds its reservation. */
  ghost predicate Held(s: State) {
    forall t :: t in s.tasks && s.tasks[t].status in OPEN_TASK_STATES ==> exists r :: HolderOf(s, r, t)
  }

  /** The queue order is total. */
  ghost predicate Queued(s: State) {
    forall t, u :: t in s.tasks && u in s.tasks && s.tasks[t].queueSeq == s.tasks[u].queueSeq ==> t == u
  }

  /** Done tasks are exactly those with a completed run, and that run is unique; only runs on
      their way to completion are being published. */
  ghost predicate Settled(s: State) {
    && (forall r :: r in s.runs && s.runs[r].state == RunComplete ==> StatusOf(s, r) == Done)
    && (forall t :: t in s.tasks && s.tasks[t].status == Done ==> exists r :: Completed(s, r, t))
    && (forall t, r, q :: Completed(s, r, t) && Completed(s, q, t) ==> r == q)
    && (forall r :: r in s.publishing ==> r in s.runs && s.runs[r].state in {Verified, RunComplete} && Publishes(s, r))
  }

  ghost predicate Proven(s: State) {
    && (forall r :: r in s.runs ==> Backed(s.runs[r]))
    && (forall r :: r in s.runs && (r in s.publishing || s.runs[r].state == RunComplete) ==> Owned(s, r))
  }

  predicate Numbered(s: State, r: RunId) {
    r in s.runs && 1 <= s.runs[r].attempt <= Attempts(s, s.runs[r].taskId)
  }

  predicate SameAttempt(run: Run, other: Run) {
    run.taskId == other.taskId && run.attempt == other.attempt
  }

  /** Attempts are counted without gaps upwards from one and never pass the task's limit. */
  ghost predicate Counted(s: State) {
    && (forall t :: t in s.tasks ==> Attempts(s, t) <= s.tasks[t].maxAttempts)
    && (forall r :: r in s.runs ==> Numbered(s, r))
    && (forall r, q :: Numbered(s, r) && Numbered(s, q) && SameAttempt(s.runs[r], s.runs[q]) ==> r == q)
  }

  ghost predicate Inv(s: State) {
    && Known(s) && Exclusive(s) && Reserved(s) && Held(s) && Settled(s) && Proven(s)
    && Counted(s) && Queued(s) && Sound(GraphOf(s))
  }

  const EMPTY := State(map[], map[], map[], {}, {}, false, {})

  /** Every ledger starts here. */
  lemma EmptyIsInOrder()
    ensures Inv(EMPTY)
  {
    assert GraphOf(EMPTY) == map[];
    assert Ranked(GraphOf(EMPTY), map[]);
  }

  /** What no later state takes back. */
  predicate Keeps(before: State, after: State) {
    && (forall t :: t in before.tasks ==> TaskKept(before, after, t))
    && (forall r :: r in before.runs ==> RunKept(before, after, r))
  }

  predicate TaskKept(before: State, after: State, t: TaskId)
    requires t in before.tasks
  {
    && t in after.tasks
    && after.tasks[t].(status := before.tasks[t].status) == before.tasks[t]
    && (before.tasks[t].status in {Done, Cancelled} ==> after.tasks[t].status == before.tasks[t].status)
  }

  predicate RunKept(before: State, after: State, r: RunId)
    requires r in before.runs
  {
    && r in after.runs
    && SameWork(before.runs[r], after.runs[r])
    && Onward(before.runs[r].state, after.runs[r].state)
    && (before.runs[r].state in {Verified, RunComplete} ==>
          && after.runs[r] == before.runs[r].(state := after.runs[r].state)
          && (Owned(before, r) ==> Owned(after, r)))
  }

  predicate SameWork(run: Run, other: Run) {
    run.taskId == other.taskId && run.attempt == other.attempt && run.lease == other.lease
  }

  lemma RunStaysKept(a: State, b: State, c: State, r: RunId)
    requires r in a.runs && RunKept(a, b, r) && RunKept(b, c, r)
    ensures RunKept(a, c, r)
  {
    hide Owned;
  }

  lemma UntouchedRunIsKept(s: State, after: State, r: RunId)
    requires r in s.runs && r in after.runs && after.runs[r] == s.runs[r]
    requires Owned(s, r) ==> Owned(after, r)
    ensures RunKept(s, after, r)
  {
  }

  lemma KeepsIsTransitive(a: State, b: State, c: State)
    requires Keeps(a, b) && Keeps(b, c)
    ensures Keeps(a, c)
  {
    forall r | r in a.runs
      ensures RunKept(a, c, r)
    {
      assert RunKept(a, b, r);
      assert RunKept(b, c, r);
      RunStaysKept(a, b, c, r);
    }
    forall t | t in a.tasks
      ensures TaskKept(a, c, t)
    {
      assert TaskKept(a, b, t) && TaskKept(b, c, t);
    }
  }

  lemma KeepsIsReflexive(s: State)
    ensures Keeps(s, s)
  {
  }

  /** Claimable, finished, blocked and cancelled tasks hold no reservation. */
  lemma OnlyOpenWorkIsReserved(s: State, t: TaskId, r: RunId)
    requires Inv(s) && Holder(s, r) && s.runs[r].taskId == t
    ensures s.tasks[t].status in OPEN_TASK_STATES
  {
    assert Fits(s.runs[r].state, StatusOf(s, r));
  }

  /** A task is done only through one run that passed its checks, its review where one was
      required, and its owner where one was asked. */
  lemma DoneIsEvidenced(s: State, t: TaskId) returns (r: RunId)
    requires Inv(s) && t in s.tasks && s.tasks[t].status == Done
    ensures Completed(s, r, t) && s.runs[r].checksPassed && s.runs[r].snapshot.Some?
    ensures s.runs[r].review in {NotRequired, Accepted}
    ensures s.tasks[t].ownerAcceptance ==> r in s.approvals && s.runs[r].snapshot == Some(s.approvals[r])
    ensures forall q :: Completed(s, q, t) ==> q == r
    ensures forall q :: Holder(s, q) ==> s.runs[q].taskId != t
  {
    r :| Completed(s, r, t);
    assert Owned(s, r) && Backed(s.runs[r]);
    forall q | Holder(s, q)
      ensures s.runs[q].taskId != t
    {
      assert Fits(s.runs[q].state, StatusOf(s, q));
    }
  }

  // ---------------------------------------------------------------- writing a run and its task

  function Wrote(s: State, r: RunId, run: Run, status: TaskStatus): State
    requires r in s.runs && s.runs[r].taskId in s.tasks
  {
    var t := s.runs[r].taskId;
    s.(runs := s.runs[r := run], tasks := s.tasks[t := s.tasks[t].(status := status)])
  }

  function Marked(s: State, t: TaskId, status: TaskStatus): State
    requires t in s.tasks
  {
    s.(tasks := s.tasks[t := s.tasks[t].(status := status)])
  }

  lemma WroteFrame(s: State, r: RunId, run: Run, status: TaskStatus)
    requires Known(s) && r in s.runs && SameWork(s.runs[r], run)
    ensures var after := Wrote(s, r, run, status);
            && Known(after)
            && (forall q :: WriterKey(after, q) == WriterKey(s, q))
            && (forall q :: q != r ==> (Holder(after, q) <==> Holder(s, q)))
            && (Holder(after, r) <==> Locks(run.state))
            && (forall q :: q in s.runs && s.runs[q].taskId != run.taskId ==> StatusOf(after, q) == StatusOf(s, q))
            && (forall q :: q in s.runs && s.runs[q].taskId == run.taskId ==> StatusOf(after, q) == status)
            && GraphOf(after) == GraphOf(s)
            && (forall t :: TaskRuns(after, t) == TaskRuns(s, t))
  {
  }

  lemma CountedFrame(s: State, after: State)
    requires Counted(s) && Known(s) && s.tasks.Keys == after.tasks.Keys && s.runs.Keys == after.runs.Keys
    requires forall t :: t in s.tasks ==> after.tasks[t].maxAttempts == s.tasks[t].maxAttempts
    requires forall r :: r in s.runs ==> SameWork(s.runs[r], after.runs[r])
    requires forall t :: TaskRuns(after, t) == TaskRuns(s, t)
    ensures Counted(after)
  {
  }

  /** Nobody else holds the writer key, or a reservation of the same task that the new
      status would contradict. */
  ghost predicate WriteIsSafe(s: State, r: RunId, state: RunState, status: TaskStatus)
    requires r in s.runs
  {
    forall q :: Holder(s, q) && q != r ==>
      && (Locks(state) ==> WriterKey(s, q) != WriterKey(s, r))
      && (s.runs[q].taskId == s.runs[r].taskId ==> Fits(s.runs[q].state, status))
  }

  /** An unconditional write of one run and its task keeps the reservation discipline exactly
      when no other reservation stands in its way. */
  lemma WriteKeepsReservationsExactly(s: State, r: RunId, run: Run, status: TaskStatus)
    requires Inv(s) && r in s.runs && SameWork(s.runs[r], run) && (Locks(run.state) ==> Fits(run.state, status))
    ensures var after := Wrote(s, r, run, status);
            Exclusive(after) && Reserved(after) <==> WriteIsSafe(s, r, run.state, status)
  {
    hide Held, Queued, Settled, Proven, Counted, Sound;
    var after := Wrote(s, r, run, status);
    WroteFrame(s, r, run, status);
    if WriteIsSafe(s, r, run.state, status) {
      forall p, q | Holder(after, p) && Holder(after, q) && WriterKey(after, p) == WriterKey(after, q)
        ensures p == q
      {
        assert p != r ==> Holder(s, p);
        assert q != r ==> Holder(s, q);
      }
      forall q | Holder(after, q)
        ensures Fits(after.runs[q].state, StatusOf(after, q))
      {
        assert q != r ==> Holder(s, q);
      }
    }
    if Exclusive(after) && Reserved(after) {
      forall q | Holder(s, q) && q != r
        ensures Locks(run.state) ==> WriterKey(s, q) != WriterKey(s, r)
        ensures s.runs[q].taskId == s.runs[r].taskId ==> Fits(s.runs[q].state, status)
      {
        assert Holder(after, q);
      }
    }
  }

  /** Writes that fit: on a run that holds its reservation, or repeating the final state of a
      run whose task has not been taken up since. */
  predicate Advance(s: State, r: RunId, run: Run, status: TaskStatus) {
    && r in s.runs
    && (Holder(s, r) || (run.state == s.runs[r].state && StatusOf(s, r) in READY_TASK_STATES + {BlockedTask}))
    && SameWork(s.runs[r], run)
    && (status in OPEN_TASK_STATES ==> Locks(run.state))
    && Onward(s.runs[r].state, run.state)
    && (Locks(run.state) ==> Fits(run.state, status))
    && (run.state == RunComplete <==> status == Done)
    && status != Cancelled
    && Backed(run)
    && (s.runs[r].state == Verified ==> run == s.runs[r].(state := run.state))
    && (run.state == RunComplete ==> s.runs[r].state == Verified && Owned(s, r))
  }

  lemma RunIsBacked(s: State, r: RunId)
    requires Inv(s) && r in s.runs
    ensures Backed(s.runs[r]) && s.runs[r].taskId in s.tasks
            && (s.runs[r].state == RunComplete ==> StatusOf(s, r) == Done)
  {
  }

  lemma AdvanceIsOnKnownTask(s: State, r: RunId, run: Run, status: TaskStatus)
    requires Inv(s) && Advance(s, r, run, status)
    ensures r in s.runs && s.runs[r].taskId in s.tasks
  {
  }

  lemma AdvancingKeepsEvidence(s: State, r: RunId, run: Run, status: TaskStatus)
    requires Inv(s) && Advance(s, r, run, status)
    ensures Proven(Wrote(s, r, run, status))
  {
    hide Exclusive, Held, Queued, Counted, Sound, Reserved;
    var after := Wrote(s, r, run, status);
    forall q | q in after.runs && (q in after.publishing || after.runs[q].state == RunComplete)
      ensures Owned(after, q)
    {
      assert q != r ==> Owned(s, q) && after.runs[q] == s.runs[q];
      assert r in s.publishing ==> Owned(s, r) && s.runs[r].state == Verified;
    }
  }

  lemma AdvancedWorkIsUnfinished(s: State, r: RunId, run: Run, status: TaskStatus)
    requires Inv(s) && Advance(s, r, run, status)
    ensures forall q :: !Completed(s, q, run.taskId)
  {
    hide Exclusive, Held, Queued, Proven, Counted, Sound;
    AdvanceTouchesUnfinishedWork(s, r, run, status);
  }

  lemma AdvancingSettles(s: State, r: RunId, run: Run, status: TaskStatus)
    requires Inv(s) && Advance(s, r, run, status)
    ensures Settled(Wrote(s, r, run, status))
  {
    hide Exclusive, Held, Queued, Proven, Counted, Sound, Reserved, Fits;
    var after := Wrote(s, r, run, status);
    var t := run.taskId;
    AdvancedWorkIsUnfinished(s, r, run, status);
    forall u | u in after.tasks && after.tasks[u].status == Done
      ensures exists q :: Completed(after, q, u)
    {
      if u == t {
        assert Completed(after, r, t);
      } else {
        var q :| Completed(s, q, u);
        assert Completed(after, q, u);
      }
    }
    forall u, p, q | Completed(after, p, u) && Completed(after, q, u)
      ensures p == q
    {
      assert p != r ==> Completed(s, p, u);
      assert q != r ==> Completed(s, q, u);
    }
    forall q | q in after.runs && after.runs[q].state == RunComplete
      ensures StatusOf(after, q) == Done
    {
      assert q != r ==> Completed(s, q, s.runs[q].taskId) && StatusOf(s, q) == Done;
    }
    forall q | q in after.publishing
      ensures q in after.runs && after.runs[q].state in {Verified, RunComplete} && Publishes(after, q)
    {
      assert q in s.runs && s.runs[q].state in {Verified, RunComplete} && Publishes(s, q);
    }
  }

  lemma AdvancedRunIsKept(s: State, r: RunId, run: Run, status: TaskStatus)
    requires Known(s) && Advance(s, r, run, status)
    ensures RunKept(s, Wrote(s, r, run, status), r)
  {
  }

  lemma OtherRunsAreKept(s: State, r: RunId, run: Run, status: TaskStatus, q: RunId)
    requires r in s.runs && s.runs[r].taskId in s.tasks && q in s.runs && q != r
    ensures RunKept(s, Wrote(s, r, run, status), q)
  {
  }

  lemma TasksAreKept(s: State, r: RunId, run: Run, status: TaskStatus, t: TaskId)
    requires r in s.runs && s.runs[r].taskId in s.tasks && t in s.tasks
    requires StatusOf(s, r) !in {Done, Cancelled}
    ensures TaskKept(s, Wrote(s, r, run, status), t)
  {
  }

  lemma AdvanceTouchesUnfinishedWork(s: State, r: RunId, run: Run, status: TaskStatus)
    requires Inv(s) && Advance(s, r, run, status)
    ensures StatusOf(s, r) !in {Done, Cancelled}
  {
    hide Exclusive, Held, Queued, Settled, Proven, Counted, Sound;
    if Holder(s, r) { OnlyOpenWorkIsReserved(s, run.taskId, r); }
  }

  lemma AdvancingTakesNothingBack(s: State, r: RunId, run: Run, status: TaskStatus)
    requires Inv(s) && Advance(s, r, run, status)
    ensures Keeps(s, Wrote(s, r, run, status))
  {
    AdvanceTouchesUnfinishedWork(s, r, run, status);
    AdvancedRunIsKept(s, r, run, status);
    hide RunKept, TaskKept, Exclusive, Reserved, Held, Queued, Settled, Proven, Counted, Sound, Advance, StatusOf;
    forall q | q in s.runs
      ensures RunKept(s, Wrote(s, r, run, status), q)
    {
      if q != r { OtherRunsAreKept(s, r, run, status, q); }
    }
    forall t | t in s.tasks
      ensures TaskKept(s, Wrote(s, r, run, status), t)
    {
      TasksAreKept(s, r, run, status, t);
    }
  }

  /** A run that still holds its reservation may always be moved on. */
  lemma AdvancingKeepsInv(s: State, r: RunId, run: Run, status: TaskStatus)
    requires Inv(s) && Advance(s, r, run, status)
    ensures Inv(Wrote(s, r, run, status)) && Keeps(s, Wrote(s, r, run, status))
  {
    hide Exclusive, Reserved, Held, Queued, Settled, Proven, Counted, WriteIsSafe, Keeps;
    AdvancingHolds(s, r, run, status);
    WroteFrame(s, r, run, status);
    AdvancingTakesNothingBack(s, r, run, status);
    AdvancingKeepsEvidence(s, r, run, status);
    AdvancingSettles(s, r, run, status);
    CountedFrame(s, Wrote(s, r, run, status));
    AdvanceIsSafe(s, r, run, status);
    WriteKeepsReservationsExactly(s, r, run, status);
  }

  lemma AdvanceIsSafe(s: State, r: RunId, run: Run, status: TaskStatus)
    requires Inv(s) && Advance(s, r, run, status)
    ensures WriteIsSafe(s, r, run.state, status)
  {
    hide Held, Queued, Settled, Proven, Counted, Sound;
    forall q | Holder(s, q) && q != r
      ensures Locks(run.state) ==> WriterKey(s, q) != WriterKey(s, r)
      ensures s.runs[q].taskId != s.runs[r].taskId
    {
      if Holder(s, r) {
        assert WriterKey(s, q) == WriterKey(s, r) ==> q == r;
      } else {
        assert Fits(s.runs[q].state, StatusOf(s, q));
      }
    }
  }

  lemma AdvancingHolds(s: State, r: RunId, run: Run, status: TaskStatus)
    requires Inv(s) && Advance(s, r, run, status)
    ensures Held(Wrote(s, r, run, status)) && Queued(Wrote(s, r, run, status))
  {
    hide Exclusive, Reserved, Settled, Proven, Counted, Sound;
    var after := Wrote(s, r, run, status);
    forall t | t in after.tasks && after.tasks[t].status in OPEN_TASK_STATES
      ensures exists q :: HolderOf(after, q, t)
    {
      if t == run.taskId {
        assert HolderOf(after, r, t);
      } else {
        var q :| HolderOf(s, q, t);
        assert HolderOf(after, q, t);
      }
    }
  }

  // ---------------------------------------------------------------- writing a task alone

  lemma MarkFrame(s: State, t: TaskId, status: TaskStatus)
    requires Known(s) && t in s.tasks
    ensures var after := Marked(s, t, status);
            && Known(after)
            && (forall q :: WriterKey(after, q) == WriterKey(s, q) && (Holder(after, q) <==> Holder(s, q)))
            && GraphOf(after) == GraphOf(s)
            && (forall u :: TaskRuns(after, u) == TaskRuns(s, u))
            && (forall r, u :: Completed(after, r, u) <==> Completed(s, r, u))
            && (forall r :: Owned(after, r) <==> Owned(s, r)) && (forall r :: Publishes(after, r) <==> Publishes(s, r))
            && (forall r :: r in s.runs && s.runs[r].taskId != t ==> StatusOf(after, r) == StatusOf(s, r))
  {
  }

  /** The new status agrees with every reservation of the task. */
  ghost predicate Markable(s: State, t: TaskId, status: TaskStatus) {
    && t in s.tasks && s.tasks[t].status !in {Done, Cancelled} && status != Done
    && (forall r :: HolderOf(s, r, t) ==> Fits(s.runs[r].state, status))
    && (status in OPEN_TASK_STATES ==> exists r :: HolderOf(s, r, t))
  }

  lemma ReadyIsMarkable(s: State, t: TaskId, status: TaskStatus)
    requires Inv(s) && t in s.tasks && s.tasks[t].status in READY_TASK_STATES + {BlockedTask}
    requires status in READY_TASK_STATES + {BlockedTask, Cancelled}
    ensures Markable(s, t, status)
  {
    hide Exclusive, Held, Settled, Proven, Counted, Queued, Sound;
    forall r | HolderOf(s, r, t)
      ensures false
    {
      OnlyOpenWorkIsReserved(s, t, r);
    }
  }

  lemma MarkingReserves(s: State, t: TaskId, status: TaskStatus)
    requires Inv(s) && Markable(s, t, status)
    ensures var after := Marked(s, t, status); Exclusive(after) && Reserved(after) && Held(after)
  {
    hide Settled, Proven, Counted, Queued, Sound;
    var after := Marked(s, t, status);
    MarkFrame(s, t, status);
    forall r | Holder(after, r)
      ensures Fits(after.runs[r].state, StatusOf(after, r))
    {
      assert Holder(s, r) && (s.runs[r].taskId == t ==> HolderOf(s, r, t));
    }
    forall u | u in after.tasks && after.tasks[u].status in OPEN_TASK_STATES
      ensures exists r :: HolderOf(after, r, u)
    {
      var r :| HolderOf(s, r, u);
      assert HolderOf(after, r, u);
    }
  }

  lemma MarkingSettles(s: State, t: TaskId, status: TaskStatus)
    requires Inv(s) && Markable(s, t, status)
    ensures Settled(Marked(s, t, status))
  {
    hide Exclusive, Reserved, Held, Sound, Proven, Counted, Queued;
    var after := Marked(s, t, status);
    assert forall r, u :: Completed(after, r, u) <==> Completed(s, r, u);
    forall u | u in after.tasks && after.tasks[u].status == Done
      ensures exists r :: Completed(after, r, u)
    {
      var r :| Completed(s, r, u);
      assert Completed(after, r, u);
    }
    forall r | r in after.runs && after.runs[r].state == RunComplete
      ensures StatusOf(after, r) == Done
    {
      assert StatusOf(s, r) == Done;
    }
  }

  lemma MarkingCounts(s: State, t: TaskId, status: TaskStatus)
    requires Inv(s) && Markable(s, t, status)
    ensures var after := Marked(s, t, status); Proven(after) && Counted(after) && Queued(after)
  {
    hide Exclusive, Reserved, Held, Settled, Sound, Owned, Counted;
    MarkFrame(s, t, status);
    CountedFrame(s, Marked(s, t, status));
    hide TaskRuns, GraphOf, Publishes, HolderOf;
  }

  lemma MarkingTakesNothingBack(s: State, t: TaskId, status: TaskStatus)
    requires Known(s) && Markable(s, t, status)
    ensures Keeps(s, Marked(s, t, status))
  {
  }

  /** A task that holds no reservation may be blocked, reopened or cancelled; a verified run
      may wait for its owner or be ready to publish. */
  lemma MarkingKeepsInv(s: State, t: TaskId, status: TaskStatus)
    requires Inv(s) && Markable(s, t, status)
    ensures Inv(Marked(s, t, status)) && Keeps(s, Marked(s, t, status))
  {
    hide Exclusive, Reserved, Held, Settled, Proven, Counted, Queued, Keeps;
    MarkFrame(s, t, status);
    MarkingReserves(s, t, status);
    MarkingSettles(s, t, status);
    MarkingCounts(s, t, status);
    MarkingTakesNothingBack(s, t, status);
  }

  // ---------------------------------------------------------------- a write decided earlier

  lemma LateWriteMovesOn(s: State, r: RunId, run: Run, status: TaskStatus)
    requires Known(s) && r in s.runs && SameWork(s.runs[r], run)
    requires run.state != RunComplete && status !in {Done, Cancelled}
    requires Keeps(s, Wrote(s, r, run, status))
    ensures Onward(s.runs[r].state, run.state) && (s.runs[r].state == Verified ==> run == s.runs[r])
    ensures StatusOf(s, r) !in {Done, Cancelled}
  {
    assert RunKept(s, Wrote(s, r, run, status), r) && TaskKept(s, Wrote(s, r, run, status), run.taskId);
  }

  lemma LateWriteOnlyIf(s: State, r: RunId, run: Run, status: TaskStatus)
    requires Inv(s) && r in s.runs && SameWork(s.runs[r], run)
    requires run.state != RunComplete && status !in {Done, Cancelled}
    requires status in OPEN_TASK_STATES ==> Locks(run.state)
    requires Inv(Wrote(s, r, run, status)) && Keeps(s, Wrote(s, r, run, status))
    ensures Onward(s.runs[r].state, run.state) && (s.runs[r].state == Verified ==> run == s.runs[r])
    ensures !Holder(s, r) ==> run.state == s.runs[r].state && StatusOf(s, r) in READY_TASK_STATES + {BlockedTask}
  {
    hide Exclusive, Settled, Proven, Counted, Queued, Sound, Owned, Publishes, Keeps;
    var after := Wrote(s, r, run, status);
    LateWriteMovesOn(s, r, run, status);
    assert StatusOf(s, r) == s.tasks[run.taskId].status;
    forall q | HolderOf(s, q, run.taskId) && !Holder(s, r)
      ensures Fits(after.runs[q].state, StatusOf(after, q))
    {
      assert HolderOf(after, q, run.taskId);
    }
  }

  /** A write decided on an earlier reading of the run, applied without looking again, keeps
      everything exactly when the run still holds its reservation and is not ahead of the
      write, or already ended the same way on a task nobody has taken up since. */
  lemma LateWriteExactly(s: State, r: RunId, run: Run, status: TaskStatus)
    requires Inv(s) && r in s.runs && SameWork(s.runs[r], run) && Backed(run)
    requires Locks(run.state) ==> Fits(run.state, status)
    requires run.state != RunComplete && status !in {Done, Cancelled}
    requires status in OPEN_TASK_STATES ==> Locks(run.state)
    ensures Inv(Wrote(s, r, run, status)) && Keeps(s, Wrote(s, r, run, status)) <==>
            if Holder(s, r) then Onward(s.runs[r].state, run.state)
                                 && (s.runs[r].state == Verified ==> run == s.runs[r])
            else run.state == s.runs[r].state && StatusOf(s, r) in READY_TASK_STATES + {BlockedTask}
  {
    hide Exclusive, Reserved, Held, Settled, Proven, Counted, Queued, Sound, Keeps;
    var after := Wrote(s, r, run, status);
    if Inv(after) && Keeps(s, after) {
      LateWriteOnlyIf(s, r, run, status);
    }
    if Advance(s, r, run, status) {
      AdvancingKeepsInv(s, r, run, status);
    }
  }

  // ---------------------------------------------------------------- new runs and new tasks

  predicate DependenciesDone(s: State, t: TaskId)
    requires t in s.tasks
  {
    forall d :: d in s.tasks[t].dependencies ==> d in s.tasks && s.tasks[d].status == Done
  }

  predicate WriterFree(s: State, key: string) {
    forall r :: r in s.runs && Holder(s, r) ==> WriterKey(s, r) != key
  }

  function Claimed(s: State, t: TaskId, r: RunId, lease: string): State
    requires t in s.tasks
  {
    s.(runs := s.runs[r := Run(t, Attempts(s, t) + 1, lease, Running, None, false, NotDecided)],
       tasks := s.tasks[t := s.tasks[t].(status := InProgress)])
  }

  /** What every path to a new run checks in its own transaction. */
  predicate Claimable(s: State, t: TaskId, r: RunId) {
    && t in s.tasks && r !in s.runs
    && s.tasks[t].status in READY_TASK_STATES + {BlockedTask}
    && Attempts(s, t) < s.tasks[t].maxAttempts
    && WriterFree(s, s.tasks[t].writerKey)
  }

  lemma ClaimFrame(s: State, t: TaskId, r: RunId, lease: string)
    requires Known(s) && Claimable(s, t, r)
    ensures var after := Claimed(s, t, r, lease);
            && Known(after) && GraphOf(after) == GraphOf(s)
            && (forall q :: q in s.runs ==> WriterKey(after, q) == WriterKey(s, q) && after.runs[q] == s.runs[q])
            && WriterKey(after, r) == s.tasks[t].writerKey
            && (forall q :: Holder(after, q) <==> q == r || Holder(s, q))
  {
    hide Attempts, WriterFree;
  }

  lemma ClaimingReserves(s: State, t: TaskId, r: RunId, lease: string)
    requires Inv(s) && Claimable(s, t, r)
    ensures var after := Claimed(s, t, r, lease); Exclusive(after) && Reserved(after) && Held(after)
  {
    hide Settled, Proven, Counted, Queued, Sound;
    var after := Claimed(s, t, r, lease);
    ClaimFrame(s, t, r, lease);
    forall p, q | Holder(after, p) && Holder(after, q) && WriterKey(after, p) == WriterKey(after, q)
      ensures p == q
    {
      assert p != r ==> Holder(s, p);
      assert q != r ==> Holder(s, q);
    }
    forall q | Holder(after, q)
      ensures Fits(after.runs[q].state, StatusOf(after, q))
    {
      assert q != r ==> Holder(s, q) && Fits(s.runs[q].state, StatusOf(s, q));
    }
    forall u | u in after.tasks && after.tasks[u].status in OPEN_TASK_STATES
      ensures exists q :: HolderOf(after, q, u)
    {
      if u == t {
        assert HolderOf(after, r, u);
      } else {
        var q :| HolderOf(s, q, u);
        assert HolderOf(after, q, u);
      }
    }
  }

  lemma ClaimingCounts(s: State, t: TaskId, r: RunId, lease: string)
    requires Known(s) && Counted(s) && Claimable(s, t, r)
    ensures Counted(Claimed(s, t, r, lease))
  {
    var after := Claimed(s, t, r, lease);
    AttemptsAfterClaim(s, t, r, lease);
    hide Attempts, WriterFree;
    forall q | q in after.runs
      ensures Numbered(after, q)
    {
      assert q != r ==> Numbered(s, q);
    }
    forall p, q | Numbered(after, p) && Numbered(after, q) && SameAttempt(after.runs[p], after.runs[q])
      ensures p == q
    {
      assert p != r ==> Numbered(s, p);
      assert q != r ==> Numbered(s, q);
    }
  }

  lemma AttemptsAfterClaim(s: State, t: TaskId, r: RunId, lease: string)
    requires t in s.tasks && r !in s.runs
    ensures forall u :: Attempts(Claimed(s, t, r, lease), u) == Attempts(s, u) + if u == t then 1 else 0
  {
    var after := Claimed(s, t, r, lease);
    hide TaskRuns;
    forall u
      ensures Attempts(after, u) == Attempts(s, u) + if u == t then 1 else 0
    {
      RunsAfterClaim(s, t, r, lease, u);
    }
  }

  lemma RunsAfterClaim(s: State, t: TaskId, r: RunId, lease: string, u: TaskId)
    requires t in s.tasks && r !in s.runs
    ensures TaskRuns(Claimed(s, t, r, lease), u) == if u == t then TaskRuns(s, u) + {r} else TaskRuns(s, u)
    ensures r !in TaskRuns(s, u)
  {
    hide Attempts;
  }

  lemma ClaimingCompletesNothing(s: State, t: TaskId, r: RunId, lease: string)
    requires Claimable(s, t, r)
    ensures forall q, u :: Completed(Claimed(s, t, r, lease), q, u) <==> Completed(s, q, u)
  {
    hide Attempts, WriterFree;
  }

  lemma ClaimingSettles(s: State, t: TaskId, r: RunId, lease: string)
    requires Inv(s) && Claimable(s, t, r)
    ensures Settled(Claimed(s, t, r, lease))
  {
    hide Exclusive, Reserved, Held, Counted, Proven, Queued, Sound, WriterFree, Attempts;
    var after := Claimed(s, t, r, lease);
    ClaimingCompletesNothing(s, t, r, lease);
    forall u | u in after.tasks && after.tasks[u].status == Done
      ensures exists q :: Completed(after, q, u)
    {
      var q :| Completed(s, q, u);
      assert Completed(after, q, u);
    }
    forall u, p, q | Completed(after, p, u) && Completed(after, q, u)
      ensures p == q
    {
      assert Completed(s, p, u) && Completed(s, q, u);
    }
    forall q | q in after.runs && after.runs[q].state == RunComplete
      ensures StatusOf(after, q) == Done
    {
      assert Completed(s, q, s.runs[q].taskId) && StatusOf(s, q) == Done;
    }
  }

  lemma ClaimedTaskIsKept(s: State, t: TaskId, r: RunId, lease: string, u: TaskId)
    requires Claimable(s, t, r) && u in s.tasks
    ensures TaskKept(s, Claimed(s, t, r, lease), u)
  {
    hide Attempts;
  }

  lemma ClaimedOwners(s: State, t: TaskId, r: RunId, lease: string, q: RunId)
    requires Claimable(s, t, r) && q in s.runs
    ensures Owned(Claimed(s, t, r, lease), q) <==> Owned(s, q)
  {
    hide Attempts;
  }

  lemma ClaimingTakesNothingBack(s: State, t: TaskId, r: RunId, lease: string)
    requires Inv(s) && Claimable(s, t, r)
    ensures var after := Claimed(s, t, r, lease); Proven(after) && Queued(after) && Keeps(s, after)
  {
    hide Exclusive, Reserved, Held, Counted, Settled, Sound, RunKept, TaskKept, Owned, Attempts, WriterFree;
    var after := Claimed(s, t, r, lease);
    forall q | q in s.runs
      ensures RunKept(s, after, q)
    {
      ClaimedOwners(s, t, r, lease, q);
      UntouchedRunIsKept(s, after, q);
    }
    forall u | u in s.tasks
      ensures TaskKept(s, after, u)
    {
      ClaimedTaskIsKept(s, t, r, lease, u);
    }
    forall q | q in after.runs && (q in after.publishing || after.runs[q].state == RunComplete)
      ensures Owned(after, q)
    {
      assert q in s.publishing ==> q in s.runs;
      ClaimedOwners(s, t, r, lease, q);
    }
  }

  lemma ClaimingKeepsInv(s: State, t: TaskId, r: RunId, lease: string)
    requires Inv(s) && Claimable(s, t, r)
    ensures Inv(Claimed(s, t, r, lease)) && Keeps(s, Claimed(s, t, r, lease))
  {
    hide Exclusive, Reserved, Held, Settled, Proven, Counted, Queued, Keeps;
    ClaimFrame(s, t, r, lease);
    ClaimingReserves(s, t, r, lease);
    ClaimingCounts(s, t, r, lease);
    ClaimingSettles(s, t, r, lease);
    ClaimingTakesNothingBack(s, t, r, lease);
  }

  /** A new run has its own lease and the next attempt number, and nothing to show yet. */
  lemma NewRunHasNoEvidence(s: State, t: TaskId, r: RunId, lease: string)
    requires t in s.tasks && r !in s.runs
    ensures var after := Claimed(s, t, r, lease); var run := after.runs[r];
            && run.taskId == t && run.lease == lease && run.attempt == Attempts(s, t) + 1 && run.state == Running
            && run.snapshot.None? && !run.checksPassed && run.review == NotDecided
            && after.tasks[t] == s.tasks[t].(status := InProgress)
            && after.tasks.Keys == s.tasks.Keys && (forall u :: u in s.tasks && u != t ==> after.tasks[u] == s.tasks[u])
            && after.runs.Keys == s.runs.Keys + {r} && (forall q :: q in s.runs ==> after.runs[q] == s.runs[q])
            && after == s.(tasks := after.tasks, runs := after.runs)
  {
  }

  /** New tasks: planned, behind everything queued, and depending on known tasks without a cycle. */
  ghost predicate Loadable(s: State, added: map<TaskId, Task>, plan: Graph) {
    && added.Keys !! s.tasks.Keys
    && (forall t :: t in added ==> added[t].status == Planned)
    && (forall t, u :: t in added && u in s.tasks ==> s.tasks[u].queueSeq < added[t].queueSeq)
    && (forall t, u :: t in added && u in added && added[t].queueSeq == added[u].queueSeq ==> t == u)
    && Acyclic(plan) && Grounded(GraphOf(s), plan)
    && GraphOf(s.(tasks := s.tasks + added)) == Merged(GraphOf(s), plan)
  }

  lemma LoadFrame(s: State, added: map<TaskId, Task>)
    requires Known(s) && added.Keys !! s.tasks.Keys
    ensures var after := s.(tasks := s.tasks + added);
            && Known(after)
            && (forall q :: q in s.runs ==>
                  WriterKey(after, q) == WriterKey(s, q) && StatusOf(after, q) == StatusOf(s, q))
            && (forall q :: Holder(after, q) <==> Holder(s, q))
            && (forall q, u :: Completed(after, q, u) <==> Completed(s, q, u))
            && (forall q :: q in s.runs ==>
                  (Owned(after, q) <==> Owned(s, q)) && (Publishes(after, q) <==> Publishes(s, q)))
  {
  }

  lemma LoadingSettles(s: State, added: map<TaskId, Task>, plan: Graph)
    requires Inv(s) && Loadable(s, added, plan)
    ensures var after := s.(tasks := s.tasks + added); Settled(after) && Held(after) && Proven(after)
  {
    hide Exclusive, Reserved, Queued, Counted, Sound, Acyclic, Grounded, Merged, GraphOf;
    var after := s.(tasks := s.tasks + added);
    LoadFrame(s, added);
    hide Publishes, WriterKey, Owned;
    forall t | t in after.tasks && after.tasks[t].status == Done
      ensures exists r :: Completed(after, r, t)
    {
      var r :| Completed(s, r, t);
      assert Completed(after, r, t);
    }
    forall t | t in after.tasks && after.tasks[t].status in OPEN_TASK_STATES
      ensures exists r :: HolderOf(after, r, t)
    {
      var r :| HolderOf(s, r, t);
      assert HolderOf(after, r, t);
    }
    forall r | r in after.runs && (r in after.publishing || after.runs[r].state == RunComplete)
      ensures Owned(after, r)
    {
      assert Owned(s, r);
    }
  }

  lemma LoadingReserves(s: State, added: map<TaskId, Task>, plan: Graph)
    requires Inv(s) && Loadable(s, added, plan)
    ensures var after := s.(tasks := s.tasks + added);
            && Exclusive(after) && Reserved(after) && Queued(after)
            && Keeps(s, after)
  {
    hide Settled, Held, Counted, Proven, Sound, Acyclic, RunKept, Grounded, Merged, GraphOf, Owned;
    var after := s.(tasks := s.tasks + added);
    LoadFrame(s, added);
    hide WriterKey, Publishes, Completed;
    forall q | Holder(after, q)
      ensures Fits(after.runs[q].state, StatusOf(after, q))
    {
      assert Holder(s, q);
    }
    forall p, q | Holder(after, p) && Holder(after, q) && WriterKey(after, p) == WriterKey(after, q)
      ensures p == q
    {
      assert Holder(s, p) && Holder(s, q);
    }
    forall q | q in s.runs
      ensures RunKept(s, after, q)
    {
      UntouchedRunIsKept(s, after, q);
    }
  }

  lemma LoadingKeepsInv(s: State, added: map<TaskId, Task>, plan: Graph)
    requires Inv(s) && Loadable(s, added, plan)
    ensures var after := s.(tasks := s.tasks + added); Inv(after) && Keeps(s, after)
  {
    hide Exclusive, Reserved, Held, Settled, Proven, Counted, Queued, Keeps;
    MergingStaysSound(GraphOf(s), plan);
    LoadFrame(s, added);
    LoadedRunsAreCounted(s, added);
    LoadingSettles(s, added, plan);
    LoadingReserves(s, added, plan);
  }

  lemma LoadedRunsAreCounted(s: State, added: map<TaskId, Task>)
    requires Known(s) && Counted(s) && added.Keys !! s.tasks.Keys
    ensures Counted(s.(tasks := s.tasks + added))
  {
  }

  // ---------------------------------------------------------------- approvals, publications, settings

  lemma VerifiedIsMarkable(s: State, r: RunId, status: TaskStatus)
    requires Inv(s) && r in s.runs && s.runs[r].state == Verified && status in {WaitingOwner, ReadyToPublish}
    ensures Markable(s, s.runs[r].taskId, status)
  {
    hide Held, Settled, Proven, Counted, Queued, Sound;
    var t := s.runs[r].taskId;
    assert HolderOf(s, r, t) && Fits(s.runs[r].state, StatusOf(s, r));
    forall q | HolderOf(s, q, t)
      ensures Fits(s.runs[q].state, status)
    {
      assert WriterKey(s, q) == WriterKey(s, r);
    }
  }

  lemma WithApproval(s: State, r: RunId)
    requires Inv(s) && r in s.runs && s.runs[r].state == Verified && s.runs[r].snapshot.Some?
    ensures var after := s.(approvals := s.approvals[r := s.runs[r].snapshot.value]); Inv(after) && Keeps(s, after)
  {
    hide Exclusive, Reserved, Held, Settled, Counted, Queued, Sound;
    var after := s.(approvals := s.approvals[r := s.runs[r].snapshot.value]);
    SameShape(s, after);
    forall q | q in s.runs
      ensures Owned(s, q) ==> Owned(after, q)
    {
    }
  }

  /** States that differ only in approvals, publications and settings. */
  lemma SameShape(s: State, after: State)
    requires s.tasks == after.tasks && s.runs == after.runs
    ensures Exclusive(s) ==> Exclusive(after)
    ensures Reserved(s) ==> Reserved(after)
    ensures Held(s) ==> Held(after)
    ensures Counted(s) ==> Counted(after)
    ensures Queued(s) ==> Queued(after)
    ensures GraphOf(s) == GraphOf(after)
    ensures s.publishing == after.publishing && Settled(s) ==> Settled(after)
  {
    hide Settled, Counted, Held;
    assert forall t :: TaskRuns(s, t) == TaskRuns(after, t);
    assert forall r :: Holder(s, r) <==> Holder(after, r);
    SameShapeSettled(s, after);
    SameShapeCounted(s, after);
  }

  lemma SameShapeSettled(s: State, after: State)
    requires s.tasks == after.tasks && s.runs == after.runs
    ensures s.publishing == after.publishing && Settled(s) ==> Settled(after)
    ensures Held(s) ==> Held(after)
  {
    assert forall r, t :: Completed(s, r, t) <==> Completed(after, r, t);
    assert forall r, t :: HolderOf(s, r, t) <==> HolderOf(after, r, t);
  }

  lemma SameShapeCounted(s: State, after: State)
    requires s.tasks == after.tasks && s.runs == after.runs
    ensures Counted(s) ==> Counted(after)
  {
  }

  lemma SettingsKeepInv(s: State, checkpoints: set<RunId>, paused: bool, projects: set<string>)
    requires Inv(s)
    ensures var after := s.(checkpoints := checkpoints, paused := paused, pausedProjects := projects);
            Inv(after) && Keeps(s, after)
  {
    hide Exclusive, Reserved, Held, Settled, Counted, Queued, Sound;
    var after := s.(checkpoints := checkpoints, paused := paused, pausedProjects := projects);
    SameShape(s, after);
    assert forall r :: Owned(s, r) <==> Owned(after, r);
  }

  lemma PublishingKeepsInv(s: State, r: RunId)
    requires Inv(s) && r in s.runs && s.runs[r].state in {Verified, RunComplete} && Publishes(s, r) && Owned(s, r)
    ensures var after := s.(publishing := s.publishing + {r}); Inv(after) && Keeps(s, after)
  {
    hide Exclusive, Reserved, Held, Counted, Queued, Sound;
    var after := s.(publishing := s.publishing + {r});
    SameShape(s, after);
    assert forall q :: Owned(s, q) <==> Owned(after, q);
    assert forall q, t :: Completed(s, q, t) <==> Completed(after, q, t);
    assert forall q :: Publishes(s, q) <==> Publishes(after, q);
  }

  lemma DroppingKeepsInv(s: State, r: RunId)
    requires Inv(s)
    ensures var after := s.(publishing := s.publishing - {r}); Inv(after) && Keeps(s, after)
  {
    hide Exclusive, Reserved, Held, Counted, Queued, Sound;
    var after := s.(publishing := s.publishing - {r});
    SameShape(s, after);
    assert forall q :: Owned(s, q) <==> Owned(after, q);
    assert forall q, t :: Completed(s, q, t) <==> Completed(after, q, t);
    assert forall q :: Publishes(s, q) <==> Publishes(after, q);
  }

  /** A verified run can only complete, so what a publisher read of it stays true. */
  lemma StillPublishable(seen: State, s: State, r: RunId)
    requires Inv(s) && Keeps(seen, s) && r in seen.runs && seen.runs[r].state == Verified
    requires Publishes(seen, r) && Owned(seen, r)
    ensures r in s.runs && s.runs[r].taskId in s.tasks && s.runs[r].state in {Verified, RunComplete}
    ensures Publishes(s, r) && Owned(s, r)
  {
  }

  /** Completing a verified, owned run; completing it again changes nothing. */
  lemma FinalizingKeepsInv(s: State, r: RunId)
    requires Inv(s) && r in s.runs && s.runs[r].state in {Verified, RunComplete} && Owned(s, r)
    ensures s.runs[r].taskId in s.tasks
    ensures var after := Wrote(s, r, s.runs[r].(state := RunComplete), Done);
            && Inv(after) && Keeps(s, after) && Owned(after, r)
            && (s.runs[r].state == RunComplete ==> after == s)
  {
    hide Inv, Keeps;
    RunIsBacked(s, r);
    if s.runs[r].state == RunComplete {
      KeepsIsReflexive(s);
      assert Wrote(s, r, s.runs[r].(state := RunComplete), Done) == s;
    } else {
      AdvancingKeepsInv(s, r, s.runs[r].(state := RunComplete), Done);
    }
  }

  /** Only a verified or finished run of a publishing task, with its owner's approval, is being published. */
  lemma PublishedIsReleased(s: State, r: RunId)
    requires Inv(s) && r in s.publishing
    ensures r in s.runs && s.runs[r].state in {Verified, RunComplete} && Publishes(s, r) && Owned(s, r)
  {
    hide Exclusive, Reserved, Held, Counted, Queued, Sound;
  }

  /** A ledger with one task, whose verified run is being published. */
  lemma OnePublishing(t: TaskId, r: RunId) returns (s: State)
    ensures Inv(s) && r in s.publishing && s.runs[r].state == Verified
  {
    var task := Task(t, None, 1, [], 1, true, false, ReadyToPublish);
    var run := Run(t, 1, r, Verified, Some(t), true, NotRequired);
    s := State(map[t := task], map[r := run], map[], {r}, {}, false, {});
    assert TaskRuns(s, t) == {r};
    assert GraphOf(s) == map[t := []];
    assert Ranked(GraphOf(s), map[t := 0]);
    assert HolderOf(s, r, t);
  }
}
