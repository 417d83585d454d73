/** The ledger's transactions, one method each.  Every method states its whole new state; the
    invariant of LedgerState then holds after every interleaving of them. */
module Ledger {
  import opened Common
  import opened DependencyGraph
  import opened LedgerState
  import opened Queue

  datatype Verdict = ChecksFailed | ReviewRequired | ChecksPassed
  datatype ReviewVerdict = ReviewPass | ReviewNeedsFix | ReviewBlocked

  /** What `verify` writes about a run, and the task status that goes with it. */
  function Judged(run: Run, verdict: Verdict, snapshot: string): Run {
    match verdict
    case ChecksFailed => run.(state := RunNeedsFix, snapshot := Some(snapshot), checksPassed := false,
                              review := NotDecided)
    case ReviewRequired => run.(state := Reviewing, snapshot := Some(snapshot), checksPassed := true, review := Awaited)
    case ChecksPassed => run.(state := Verified, snapshot := Some(snapshot), checksPassed := true,
                              review := if run.review == Accepted then Accepted else NotRequired)
  }

  /** What a committed verdict says: the snapshot it is about, whether the checks passed, whether a
      review is awaited, and where the task goes next. */
  predicate SaysVerdict(s: State, r: RunId, verdict: Verdict, snapshot: string) {
    && r in s.runs && s.runs[r].taskId in s.tasks && s.runs[r].snapshot == Some(snapshot)
    && (s.runs[r].checksPassed <==> verdict != ChecksFailed)
    && (verdict == ChecksFailed ==>
          s.runs[r].state == RunNeedsFix && s.runs[r].review == NotDecided && StatusOf(s, r) == NeedsFix)
    && (verdict == ReviewRequired ==>
          s.runs[r].state == Reviewing && s.runs[r].review == Awaited && StatusOf(s, r) == WaitingReview)
    && (verdict == ChecksPassed ==>
          && s.runs[r].state == Verified && s.runs[r].review in {NotRequired, Accepted}
          && StatusOf(s, r) == ReadyToPublish)
  }

  function JudgedStatus(verdict: Verdict): TaskStatus {
    match verdict
    case ChecksFailed => NeedsFix
    case ReviewRequired => WaitingReview
    case ChecksPassed => ReadyToPublish
  }

  function AbortedStatus(retry: bool): TaskStatus {
    if retry then NeedsFix else BlockedTask
  }

  // ---------------------------------------------------------------- exhausted tasks are blocked

  function BlockAll(s: State, ts: set<TaskId>): State {
    s.(tasks := map t | t in s.tasks :: if t in ts then s.tasks[t].(status := BlockedTask) else s.tasks[t])
  }

  /** The tasks a claim finds out of attempts before it reaches queue number `bound`. */
  function ExhaustedBefore(s: State, project: Option<string>, bound: Option<nat>): set<TaskId> {
    set t | t in s.tasks && Exhausted(s, t, project) && (bound.Some? ==> s.tasks[t].queueSeq < bound.value)
  }

  /** Blocking exhausted tasks changes nobody else's chances. */
  lemma BlockingChangesNoChances(s: State, ts: set<TaskId>, t: TaskId)
    requires t in s.tasks && forall u :: u in ts ==> u in s.tasks && s.tasks[u].status in READY_TASK_STATES
    ensures var b := BlockAll(s, ts);
            && (DependenciesDone(b, t) <==> DependenciesDone(s, t))
            && Attempts(b, t) == Attempts(s, t)
            && (forall r :: Holder(b, r) <==> Holder(s, r)) && (forall r :: WriterKey(b, r) == WriterKey(s, r))
            && (forall key :: WriterFree(b, key) <==> WriterFree(s, key))
  {
    hide Locks;
    var b := BlockAll(s, ts);
    assert forall u :: u in s.tasks ==> (b.tasks[u].status == Done <==> s.tasks[u].status == Done);
    assert b.tasks[t].dependencies == s.tasks[t].dependencies;
    assert TaskRuns(b, t) == TaskRuns(s, t);
  }

  lemma BlockOneMore(s: State, ts: set<TaskId>, t: TaskId)
    requires t in s.tasks
    ensures Marked(BlockAll(s, ts), t, BlockedTask) == BlockAll(s, ts + {t})
    ensures BlockAll(s, {}) == s
  {
  }

  /** The rows before `n` that were out of attempts. */
  ghost predicate PassedOver(s: State, rows: seq<TaskId>, n: nat, project: Option<string>, blocked: set<TaskId>) {
    n <= |rows| && forall t :: t in blocked <==> t in rows[..n] && Exhausted(s, t, project)
  }

  lemma PassOne(s: State, rows: seq<TaskId>, n: nat, project: Option<string>, blocked: set<TaskId>)
    requires InOrder(s, rows) && n < |rows| && PassedOver(s, rows, n, project, blocked)
    ensures rows[n] in s.tasks && rows[n] !in blocked
    ensures forall u :: u in blocked ==> u in s.tasks && s.tasks[u].status in READY_TASK_STATES
    ensures BlockAll(s, blocked).tasks.Keys == s.tasks.Keys && BlockAll(s, blocked).tasks[rows[n]] == s.tasks[rows[n]]
    ensures Exhausted(s, rows[n], project) ==> s.tasks[rows[n]].status in READY_TASK_STATES
    ensures PassedOver(s, rows, n + 1, project, if Exhausted(s, rows[n], project) then blocked + {rows[n]} else blocked)
  {
    assert rows[n] in rows;
    assert rows[..n + 1] == rows[..n] + [rows[n]];
  }

  lemma PassedIsExhausted(s: State, rows: seq<TaskId>, n: nat, project: Option<string>, blocked: set<TaskId>)
    requires InOrder(s, rows) && PassedOver(s, rows, n, project, blocked)
    ensures n < |rows| ==> rows[n] in s.tasks
                           && blocked == ExhaustedBefore(s, project, Some(s.tasks[rows[n]].queueSeq))
    ensures n == |rows| ==> blocked == ExhaustedBefore(s, project, None)
  {
  }

  /** What a claim knows when it reaches the first eligible row. */
  lemma TakeAt(s: State, rows: seq<TaskId>, n: nat, project: Option<string>, locked: bool, held: bool,
               blocked: set<TaskId>)
    requires InOrder(s, rows) && n < |rows| && Scanned(s, rows, n, project, locked, held)
    requires PassedOver(s, rows, n, project, blocked) && Eligible(s, rows[n], project)
    requires !s.paused && (project.Some? ==> project.value !in s.pausedProjects)
    ensures Answers(s, project, Ready(rows[n], Attempts(s, rows[n]) + 1))
    ensures rows[n] in s.tasks && blocked == ExhaustedBefore(s, project, Some(s.tasks[rows[n]].queueSeq))
    ensures var b := BlockAll(s, blocked); var t := rows[n];
            && t in b.tasks && b.tasks[t] == s.tasks[t] && t !in blocked && b.runs == s.runs
            && b.tasks[t].status in READY_TASK_STATES && Attempts(b, t) == Attempts(s, t) < b.tasks[t].maxAttempts
            && WriterFree(b, b.tasks[t].writerKey)
  {
    ScanFindsFirst(s, rows, n, project, locked, held);
    PassedIsExhausted(s, rows, n, project, blocked);
    BlockingChangesNoChances(s, blocked, rows[n]);
  }

  /** Where a claim's scan of `before` stands, and what it has changed so far. */
  ghost predicate ScanState(before: State, s: State, rows: seq<TaskId>, n: nat, project: Option<string>,
                            locked: bool, held: bool, blocked: set<TaskId>) {
    && Inv(s) && Keeps(before, s) && s == BlockAll(before, blocked)
    && PassedOver(before, rows, n, project, blocked) && Scanned(before, rows, n, project, locked, held)
  }

  /** The exact effect of a claim: exhausted tasks ahead of the chosen one are blocked, then the
      chosen task is reserved, or blocked when the workspace does not admit it.  A run id that
      is already taken rolls everything back. */
  ghost predicate ClaimLeaves(before: State, after: State, project: Option<string>, r: RunId, lease: string,
                              admitted: bool, offer: Offer, claimed: bool) {
    && (claimed <==> offer.Ready? && admitted && r !in before.runs)
    && match offer
       case PausedNow => after == before
       case ProjectPausedNow => after == before
       case Ready(t, _) =>
         && t in before.tasks
         && var passed := BlockAll(before, ExhaustedBefore(before, project, Some(before.tasks[t].queueSeq)));
         after == if !admitted then Marked(passed, t, BlockedTask)
                  else if r in before.runs then before
                  else Claimed(passed, t, r, lease)
       case _ => after == BlockAll(before, ExhaustedBefore(before, project, None))
  }

  /** A claim keeps the invariant, answers what the queue owes, and has exactly its effect. */
  ghost predicate ClaimEnds(before: State, after: State, project: Option<string>, r: RunId, lease: string,
                            admitted: bool, offer: Offer, claimed: bool) {
    && Inv(after) && Keeps(before, after) && Answers(before, project, offer)
    && ClaimLeaves(before, after, project, r, lease, admitted, offer, claimed)
  }

  lemma StartScan(s: State, rows: seq<TaskId>, project: Option<string>)
    requires Inv(s)
    ensures ScanState(s, s, rows, 0, project, false, false, {})
  {
    hide Exclusive, Reserved, Held, Settled, Proven, Counted, Queued, Sound;
    KeepsIsReflexive(s);
  }

  lemma NothingTaken(before: State, s: State, rows: seq<TaskId>, project: Option<string>, locked: bool, held: bool,
                     blocked: set<TaskId>, r: RunId, lease: string, admitted: bool)
    requires InOrder(before, rows) && ScanState(before, s, rows, |rows|, project, locked, held, blocked)
    requires !before.paused && (project.Some? ==> project.value !in before.pausedProjects)
    ensures var offer := if locked then Busy else if held then ProjectsPaused else NoWork;
            ClaimEnds(before, s, project, r, lease, admitted, offer, false)
  {
    hide Inv, Keeps, BlockAll;
    ScanFindsNothing(before, rows, project, locked, held);
    PassedIsExhausted(before, rows, |rows|, project, blocked);
  }

  /** What a readmission leaves in the event table. */
  datatype Proof = Proof(dependency: RunId, task: TaskId, plan: string)
  datatype Readmission = Admitted(task: TaskId) | NotAdmitted
  type Proofs = map<RunId, Proof>

  /** A readmission is on record for a cancelled task and the one that replaced it. */
  predicate Replaced(s: State, readmissions: Proofs) {
    forall r :: r in readmissions ==>
      && r in s.runs && s.runs[r].taskId in s.tasks && readmissions[r].task in s.tasks
      && s.tasks[s.runs[r].taskId].status == Cancelled
  }

  lemma ReplacedStays(s: State, after: State, readmissions: Proofs)
    requires Keeps(s, after) && Replaced(s, readmissions)
    ensures Replaced(after, readmissions)
  {
    hide Owned;
    forall r | r in readmissions
      ensures r in after.runs && after.runs[r].taskId == s.runs[r].taskId
    {
      assert RunKept(s, after, r) && TaskKept(s, after, s.runs[r].taskId) && TaskKept(s, after, readmissions[r].task);
    }
  }

  class Ledger {
    var s: State
    var readmissions: Proofs

    constructor (s: State)
      ensures this.s == s && readmissions == map[]
    {
      this.s, readmissions := s, map[];
    }

    // -------------------------------------------------------------- claims

    /** One row of the claim's scan.  `before` is the state the scan started from; since then
        only exhausted tasks have been blocked. */
    method Weigh(ghost before: State, ghost blocked: set<TaskId>, locks: LockMap, t: TaskId, project: Option<string>)
      returns (weight: Weight)
      requires t in before.tasks && t !in blocked && IsLockMap(before, locks) && s == BlockAll(before, blocked)
      requires forall u :: u in blocked ==> u in before.tasks && before.tasks[u].status in READY_TASK_STATES
      ensures weight == Take <==> Eligible(before, t, project)
      ensures weight == Exhaust <==> Exhausted(before, t, project)
      ensures weight == Locked <==> WaitsForWriter(before, t, project)
      ensures weight == Hold <==> HeldBack(before, t, project)
    {
      BlockingChangesNoChances(before, blocked, t);
      LockMeansTaken(before, locks, before.tasks[t].writerKey);
      hide DependenciesDone, Attempts, WriterFree, IsLockMap;
      var task := s.tasks[t];
      if task.status !in READY_TASK_STATES { return Skip; }
      if project.Some? && task.project != project { return Skip; }
      if ProjectPaused(s, t) { return Hold; }
      if !DependenciesDone(s, t) { return Skip; }
      if Attempts(s, t) >= task.maxAttempts { return Exhaust; }
      weight := if task.writerKey in locks then Locked else Take;
    }

    method BlockExhausted(t: TaskId)
      requires Inv(s) && t in s.tasks && s.tasks[t].status in READY_TASK_STATES
      modifies `s
      ensures Inv(s) && Keeps(old(s), s) && s == Marked(old(s), t, BlockedTask)
    {
      ReadyIsMarkable(s, t, BlockedTask);
      MarkingKeepsInv(s, t, BlockedTask);
      s := Marked(s, t, BlockedTask);
    }

    /** The end of a claim: the workspace guard and the context pack admit the task, or block
        it.  Inserting a run id that exists fails and rolls the transaction back to `before`. */
    method ReserveOrBlock(before: State, t: TaskId, r: RunId, lease: string, admitted: bool) returns (claimed: bool)
      requires Inv(s) && Inv(before) && Keeps(before, s) && before.runs == s.runs && t in s.tasks
      requires s.tasks[t].status in READY_TASK_STATES && Attempts(s, t) < s.tasks[t].maxAttempts
      requires WriterFree(s, s.tasks[t].writerKey)
      modifies `s
      ensures Inv(s) && Keeps(before, s)
      ensures claimed <==> admitted && r !in before.runs
      ensures s == if !admitted then Marked(old(s), t, BlockedTask)
                   else if r in before.runs then before
                   else Claimed(old(s), t, r, lease)
    {
      hide Inv, Keeps, Attempts, WriterFree;
      if !admitted {
        BlockExhausted(t);
        KeepsIsTransitive(before, old(s), s);
        return false;
      }
      if r in s.runs {
        KeepsIsReflexive(before);
        s := before;
        return false;
      }
      ClaimingKeepsInv(s, t, r, lease);
      s := Claimed(s, t, r, lease);
      KeepsIsTransitive(before, old(s), s);
      claimed := true;
    }

    /** `claim` without repair: blocks exhausted tasks on its way and then reserves the task
        that `NextWork` would have named. */
    method Claim(rows: seq<TaskId>, reserved: seq<RunId>, project: Option<string>, r: RunId, lease: string,
                 admitted: bool)
      returns (offer: Offer, claimed: bool)
      requires Inv(s) && InOrder(s, rows) && IsReserved(s, reserved)
      modifies `s
      ensures Inv(s) && Keeps(old(s), s)
      ensures Answers(old(s), project, offer)
      ensures ClaimLeaves(old(s), s, project, r, lease, admitted, offer, claimed)
    {
      KeepsIsReflexive(s);
      if s.paused { return PausedNow, false; }
      var locks := ActiveWriterLocks(s, reserved);
      if project.Some? && project.value in s.pausedProjects { return ProjectPausedNow, false; }
      offer, claimed := Scan(rows, locks, project, r, lease, admitted);
    }

    /** A row of the scan that is not eligible; an exhausted one is blocked. */
    method Consider(before: State, rows: seq<TaskId>, i: nat, locks: LockMap, project: Option<string>,
                    locked: bool, held: bool, ghost blocked: set<TaskId>)
      returns (weight: Weight, ghost after: set<TaskId>)
      requires InOrder(before, rows) && i < |rows| && IsLockMap(before, locks)
      requires ScanState(before, s, rows, i, project, locked, held, blocked)
      modifies `s
      ensures weight == Take <==> Eligible(before, rows[i], project)
      ensures weight == Take ==> s == old(s) && after == blocked
      ensures weight != Take ==>
                ScanState(before, s, rows, i + 1, project, locked || weight == Locked, held || weight == Hold, after)
    {
      hide Inv, Keeps, Scanned, PassedOver, BlockAll, Eligible, Exhausted, WaitsForWriter, HeldBack, InOrder, Marked,
           IsLockMap;
      PassOne(before, rows, i, project, blocked);
      weight := Weigh(before, blocked, locks, rows[i], project);
      after := blocked;
      if weight == Take { return; }
      ScanStep(before, rows, i, project, locked, held);
      if weight == Exhaust {
        BlockOneMore(before, blocked, rows[i]);
        after := blocked + {rows[i]};
        BlockExhausted(rows[i]);
        KeepsIsTransitive(before, old(s), s);
      }
    }

    method TakeRow(before: State, rows: seq<TaskId>, i: nat, project: Option<string>, locked: bool, held: bool,
                   ghost blocked: set<TaskId>, r: RunId, lease: string, admitted: bool)
      returns (offer: Offer, claimed: bool)
      requires Inv(before) && InOrder(before, rows) && i < |rows| && Eligible(before, rows[i], project)
      requires ScanState(before, s, rows, i, project, locked, held, blocked)
      requires !before.paused && (project.Some? ==> project.value !in before.pausedProjects)
      modifies `s
      ensures ClaimEnds(before, s, project, r, lease, admitted, offer, claimed)
    {
      hide Inv, Keeps, Scanned, Answers, PassedOver, ExhaustedBefore, BlockAll, Eligible, InOrder, Attempts, Marked,
           Claimed, WriterFree;
      TakeAt(before, rows, i, project, locked, held, blocked);
      offer := Ready(rows[i], Attempts(before, rows[i]) + 1);
      claimed := ReserveOrBlock(before, rows[i], r, lease, admitted);
    }

    method Scan(rows: seq<TaskId>, locks: LockMap, project: Option<string>, r: RunId, lease: string, admitted: bool)
      returns (offer: Offer, claimed: bool)
      requires Inv(s) && InOrder(s, rows) && IsLockMap(s, locks)
      requires !s.paused && (project.Some? ==> project.value !in s.pausedProjects)
      modifies `s
      ensures ClaimEnds(old(s), s, project, r, lease, admitted, offer, claimed)
    {
      hide *;
      var before := s;
      var locked, held, i, weight := false, false, 0, Skip;
      ghost var blocked: set<TaskId> := {};
      StartScan(s, rows, project);
      while i < |rows|
        invariant 0 <= i <= |rows|
        invariant ScanState(before, s, rows, i, project, locked, held, blocked)
      {
        weight, blocked := Consider(before, rows, i, locks, project, locked, held, blocked);
        if weight == Take {
          offer, claimed := TakeRow(before, rows, i, project, locked, held, blocked, r, lease, admitted);
          return;
        }
        locked := locked || weight == Locked;
        held := held || weight == Hold;
        i := i + 1;
      }
      NothingTaken(before, s, rows, project, locked, held, blocked, r, lease, admitted);
      offer := if locked then Busy else if held then ProjectsPaused else NoWork;
      claimed := false;
    }

    /** `claim(repair_from_run_id=…)`: a new attempt on the task of a run that review sent back.
        `intact` stands for the evidence, workspace and Git comparisons of the repair guard. */
    method ClaimRepair(prior: RunId, project: Option<string>, r: RunId, lease: string, intact: bool) returns (ok: bool)
      requires Inv(s)
      modifies `s
      ensures Inv(s) && Keeps(old(s), s)
      ensures ok <==> intact && r !in old(s).runs && Repairable(old(s), prior, project)
      ensures s == if ok then Claimed(old(s), old(s).runs[prior].taskId, r, lease) else old(s)
    {
      KeepsIsReflexive(s);
      ok := CheckRepair(prior, project);
      if !ok || !intact || r in s.runs { return false; }
      ClaimingKeepsInv(s, s.runs[prior].taskId, r, lease);
      s := Claimed(s, s.runs[prior].taskId, r, lease);
    }

    /** The second transaction of a lifecycle claim: the granted attempt or nothing.  `matches`
        says that the task row is the granted one. */
    method ClaimGranted(t: TaskId, attempt: nat, r: RunId, lease: string, matches: bool, admitted: bool)
      returns (ok: bool)
      requires Inv(s)
      modifies `s
      ensures Inv(s) && Keeps(old(s), s)
      ensures ok <==> matches && admitted && r !in old(s).runs && Grantable(old(s), t, attempt)
      ensures s == if ok then Claimed(old(s), t, r, lease) else old(s)
    {
      KeepsIsReflexive(s);
      ok := CheckGrant(t, attempt);
      if !ok || !matches || !admitted || r in s.runs { return false; }
      ClaimingKeepsInv(s, t, r, lease);
      s := Claimed(s, t, r, lease);
    }

    /** Nobody holds the writer. */
    method WriterIsFree(key: string) returns (free: bool)
      ensures free <==> WriterFree(s, key)
    {
      free := !exists q :: q in s.runs && s.runs[q].state in WRITER_LOCK_RUN_STATES && WriterKey(s, q) == key;
    }

    /** The run is the last attempt at its task. */
    method CheckLatest(r: RunId) returns (latest: bool)
      requires r in s.runs
      ensures latest <==> IsLatest(s, r)
    {
      latest := !exists q :: q in s.runs && s.runs[q].taskId == s.runs[r].taskId
                             && s.runs[q].attempt > s.runs[r].attempt;
    }

    /** No dependency is missing or unfinished. */
    method CheckDependencies(t: TaskId) returns (done: bool)
      requires t in s.tasks
      ensures done <==> DependenciesDone(s, t)
    {
      done := !exists d :: d in s.tasks[t].dependencies && (d !in s.tasks || s.tasks[d].status != Done);
    }

    /** The tests of a repair claim, in the order the program makes them. */
    method CheckRepair(prior: RunId, project: Option<string>) returns (ok: bool)
      ensures ok <==> Repairable(s, prior, project)
    {
      hide IsLatest, DependenciesDone, WriterFree, Attempts;
      if s.paused || (project.Some? && project.value in s.pausedProjects) { return false; }
      if prior !in s.runs || s.runs[prior].taskId !in s.tasks { return false; }
      var run, task := s.runs[prior], s.tasks[s.runs[prior].taskId];
      if project.Some? && task.project != project { return false; }
      if task.project.Some? && task.project.value in s.pausedProjects { return false; }
      ok := CheckDependencies(run.taskId);
      if !ok || Attempts(s, run.taskId) >= task.maxAttempts { return false; }
      ok := WriterIsFree(task.writerKey);
      if !ok { return; }
      ok := CheckLatest(prior);
      if !ok || run.state != RunNeedsFix || !run.checksPassed || run.snapshot.None? { return false; }
      ok := task.status in {BlockedTask, NeedsFix};
    }

    /** The ledger's tests of the granted attempt. */
    method CheckGrant(t: TaskId, attempt: nat) returns (ok: bool)
      ensures ok <==> Grantable(s, t, attempt)
    {
      hide DependenciesDone, WriterFree, Attempts;
      if t !in s.tasks || s.tasks[t].status !in {Planned, ReadyTask, NeedsFix} { return false; }
      if Attempts(s, t) + 1 != attempt || s.paused { return false; }
      if s.tasks[t].project.Some? && s.tasks[t].project.value in s.pausedProjects { return false; }
      ok := CheckDependencies(t);
      if !ok || Attempts(s, t) >= s.tasks[t].maxAttempts { return false; }
      ok := WriterIsFree(s.tasks[t].writerKey);
    }

    /** The ledger's tests of a readmission, with the code of the first that fails. */
    method CheckReadmission(prior: RunId, dependency: RunId, t: TaskId, task: Task) returns (refusal: Option<string>)
      ensures refusal.None? <==> Readmissible(s, prior, dependency, t, task)
    {
      hide IsLatest, WriterFree, Attempts;
      if prior !in s.runs || dependency !in s.runs || prior == dependency
         || s.runs[prior].taskId !in s.tasks || s.runs[dependency].taskId !in s.tasks {
        return Some("readmission_run_missing_or_same");
      }
      var run, other := s.runs[prior], s.runs[dependency];
      var previous, needed := s.tasks[run.taskId], s.tasks[other.taskId];
      if t in s.tasks || task.status != Planned { return Some("readmission_new_task_and_workspace_required"); }
      if s.paused { return Some("readmission_paused"); }
      if exists p :: p in s.pausedProjects && Some(p) in {previous.project, needed.project, task.project} {
        return Some("readmission_project_paused");
      }
      var first := WriterIsFree(previous.writerKey);
      var second := WriterIsFree(needed.writerKey);
      var third := WriterIsFree(task.writerKey);
      if !first || !second || !third { return Some("readmission_active_writer"); }
      var latest := CheckLatest(prior);
      if !latest { return Some("repair_run_not_latest"); }
      if run.state != RunNeedsFix || !run.checksPassed { return Some("repair_run_not_verified_needs_fix"); }
      if previous.status !in {BlockedTask, NeedsFix} { return Some("repair_task_not_needs_fix"); }
      latest := CheckLatest(dependency);
      if !latest || other.state != RunComplete || !other.checksPassed || needed.status != Done
         || dependency !in s.publishing {
        return Some("readmission_dependency_not_published");
      }
      var attempts := Attempts(s, run.taskId);
      if task.maxAttempts < 1 || task.maxAttempts + attempts > previous.maxAttempts {
        return Some("readmission_remaining_attempts_exceeded");
      }
      if (exists d :: d in previous.dependencies && d !in task.dependencies)
         || other.taskId !in task.dependencies || run.taskId in task.dependencies {
        return Some("readmission_dependencies_widened");
      }
      if exists d :: d in task.dependencies && (d !in s.tasks || s.tasks[d].status != Done) {
        return Some("readmission_dependencies_not_done");
      }
      refusal := None;
    }

    /** The claim's handler for a capability file that could not be written.  It aborts the new
        run without reading it again, and keeps the ledger right exactly when nobody has taken the
        run further than it may still be aborted. */
    method CapabilityFailed(r: RunId)
      requires Inv(s) && r in s.runs
      modifies `s
      ensures r in old(s).runs && old(s).runs[r].taskId in old(s).tasks
      ensures s == Wrote(old(s), r, old(s).runs[r].(state := Aborted), BlockedTask)
      ensures Inv(s) && Keeps(old(s), s) <==> StillAbortable(old(s), r)
    {
      LateCapabilityFailureExactly(s, r);
      s := Wrote(s, r, s.runs[r].(state := Aborted), BlockedTask);
    }

    /** One write of a run and its task. */
    method Advances(r: RunId, run: Run, status: TaskStatus)
      requires Inv(s) && Advance(s, r, run, status)
      modifies `s
      ensures Inv(s) && Keeps(old(s), s) && s == Wrote(old(s), r, run, status)
    {
      hide *;
      AdvanceIsOnKnownTask(s, r, run, status);
      AdvancingKeepsInv(s, r, run, status);
      s := Wrote(s, r, run, status);
    }

    // -------------------------------------------------------------- a run's way to its verdict

    /** `submit`.  `receipt` says that the receipt names this run and allowed paths only,
        `resolved` that every patch and process of the run has ended. */
    method Submit(r: RunId, lease: string, receipt: bool, resolved: bool) returns (ok: bool)
      requires Inv(s)
      modifies `s
      ensures Inv(s) && Keeps(old(s), s)
      ensures ok <==>
                && r in old(s).runs && old(s).runs[r].lease == lease && old(s).runs[r].state == Running
                && receipt && resolved
      ensures s == if ok then Wrote(old(s), r, old(s).runs[r].(state := ResultSubmitted), InProgress) else old(s)
    {
      hide Inv, Keeps;
      KeepsIsReflexive(s);
      if r !in s.runs || s.runs[r].lease != lease { return false; }
      if s.runs[r].state != Running { return false; }
      if !receipt || !resolved { return false; }
      Advances(r, s.runs[r].(state := ResultSubmitted), InProgress);
      ok := true;
    }

    method Quiesce(r: RunId, lease: string, resolved: bool) returns (ok: bool)
      requires Inv(s)
      modifies `s
      ensures Inv(s) && Keeps(old(s), s)
      ensures ok <==>
                r in old(s).runs && old(s).runs[r].lease == lease && old(s).runs[r].state == ResultSubmitted && resolved
      ensures s == if ok then Wrote(old(s), r, old(s).runs[r].(state := Verifying), InProgress) else old(s)
    {
      hide Inv, Keeps;
      KeepsIsReflexive(s);
      if r !in s.runs || s.runs[r].lease != lease { return false; }
      if s.runs[r].state != ResultSubmitted { return false; }
      if !resolved { return false; }
      Advances(r, s.runs[r].(state := Verifying), InProgress);
      ok := true;
    }

    /** `_block_verification` reads the run again in its own transaction. */
    method BlockVerification(r: RunId) returns (ok: bool)
      requires Inv(s)
      modifies `s
      ensures Inv(s) && Keeps(old(s), s)
      ensures ok <==> r in old(s).runs && old(s).runs[r].state == Verifying
      ensures s == if ok then Wrote(old(s), r, old(s).runs[r].(state := RunBlocked), BlockedTask) else old(s)
    {
      hide Inv, Keeps;
      KeepsIsReflexive(s);
      if r !in s.runs || s.runs[r].state != Verifying { return false; }
      Advances(r, s.runs[r].(state := RunBlocked), BlockedTask);
      ok := true;
    }

    /** `verify`'s commit of a verdict decided while the run was VERIFYING, without a second look at
        the run; see StaleVerdictDoublesTheWriter for what may come of it. */
    method CommitVerdict(r: RunId, verdict: Verdict, snapshot: string)
      requires Inv(s) && r in s.runs && Level(s.runs[r].state) >= Level(Verifying)
      modifies `s
      ensures r in old(s).runs && old(s).runs[r].taskId in old(s).tasks
      ensures s == Wrote(old(s), r, Judged(old(s).runs[r], verdict, snapshot), JudgedStatus(verdict))
      ensures Inv(s) && Keeps(old(s), s) <==> VerdictHarmless(old(s), r, verdict, snapshot)
      ensures SaysVerdict(s, r, verdict, snapshot)
    {
      StaleVerdictExactly(s, r, verdict, snapshot);
      s := Wrote(s, r, Judged(s.runs[r], verdict, snapshot), JudgedStatus(verdict));
    }

    method ImportReview(r: RunId, snapshot: string, verdict: ReviewVerdict) returns (ok: bool)
      requires Inv(s)
      modifies `s
      ensures Inv(s) && Keeps(old(s), s)
      ensures ok <==> r in old(s).runs && old(s).runs[r].state == Reviewing && old(s).runs[r].snapshot == Some(snapshot)
      ensures s == if !ok then old(s)
                   else if verdict == ReviewPass then
                     Wrote(old(s), r, old(s).runs[r].(state := Verified, review := Accepted), ReadyToPublish)
                   else
                     Wrote(old(s), r, old(s).runs[r].(state := RunNeedsFix, review := Rejected),
                           if verdict == ReviewNeedsFix then NeedsFix else BlockedTask)
    {
      hide Inv, Keeps;
      KeepsIsReflexive(s);
      if r !in s.runs || s.runs[r].state != Reviewing { return false; }
      if s.runs[r].snapshot != Some(snapshot) { return false; }
      RunIsBacked(s, r);
      if verdict == ReviewPass {
        Advances(r, s.runs[r].(state := Verified, review := Accepted), ReadyToPublish);
      } else {
        Advances(r, s.runs[r].(state := RunNeedsFix, review := Rejected),
                 if verdict == ReviewNeedsFix then NeedsFix else BlockedTask);
      }
      ok := true;
    }

    // -------------------------------------------------------------- completion

    /** `approve`.  `current` says that the workspace still is the verified snapshot. */
    method Approve(r: RunId, current: bool) returns (ok: bool)
      requires Inv(s)
      modifies `s
      ensures Inv(s) && Keeps(old(s), s)
      ensures ok <==> Approvable(old(s), r) && current
      ensures s == if ok then Approved(old(s), r) else old(s)
      ensures ok ==> r in s.approvals && Some(s.approvals[r]) == s.runs[r].snapshot && StatusOf(s, r) == ReadyToPublish
    {
      KeepsIsReflexive(s);
      if r !in s.runs || s.runs[r].state != Verified || s.runs[r].snapshot.None? { return false; }
      if s.runs[r].taskId !in s.tasks || !s.tasks[s.runs[r].taskId].ownerAcceptance { return false; }
      if !current { return false; }
      ApprovingKeepsInv(s, r);
      s := Approved(s, r);
      ok := true;
    }

    /** `complete`: waits for the owner, refers to publication, or finishes the run. */
    method Complete(r: RunId, current: bool) returns (answer: Completion)
      requires Inv(s)
      modifies `s
      ensures Inv(s) && Keeps(old(s), s)
      ensures answer == NotVerified <==> !(r in old(s).runs && old(s).runs[r].state == Verified && current)
      ensures answer == WaitsForOwner ==> !Owned(old(s), r) && s == Marked(old(s), old(s).runs[r].taskId, WaitingOwner)
      ensures answer == PublicationRequired ==> Owned(old(s), r) && Publishes(old(s), r) && s == old(s)
      ensures answer == Finished ==>
                && Owned(old(s), r) && !Publishes(old(s), r)
                && s == Wrote(old(s), r, old(s).runs[r].(state := RunComplete), Done)
      ensures answer == NotVerified ==> s == old(s)
    {
      hide Inv, Keeps;
      KeepsIsReflexive(s);
      if r !in s.runs || s.runs[r].state != Verified || !current { return NotVerified; }
      if !Owned(s, r) {
        VerifiedIsMarkable(s, r, WaitingOwner);
        MarkingKeepsInv(s, s.runs[r].taskId, WaitingOwner);
        s := Marked(s, s.runs[r].taskId, WaitingOwner);
        return WaitsForOwner;
      }
      if Publishes(s, r) { return PublicationRequired; }
      RunIsBacked(s, r);
      Advances(r, s.runs[r].(state := RunComplete), Done);
      answer := Finished;
    }

    /** `publish` inserts its journal row on the strength of an earlier reading, `seen`. */
    method StartPublishing(r: RunId, ghost seen: State)
      requires Inv(s) && Keeps(seen, s) && MayPublish(seen, r)
      modifies `s
      ensures Inv(s) && Keeps(old(s), s) && s == old(s).(publishing := old(s).publishing + {r})
    {
      StillPublishable(seen, s, r);
      PublishingKeepsInv(s, r);
      s := s.(publishing := s.publishing + {r});
    }

    /** An abandoned journal row is deleted by the next `publish`. */
    method DropPublication(r: RunId)
      requires Inv(s)
      modifies `s
      ensures Inv(s) && Keeps(old(s), s) && s == old(s).(publishing := old(s).publishing - {r})
    {
      DroppingKeepsInv(s, r);
      s := s.(publishing := s.publishing - {r});
    }

    /** `_finalize_publication` writes without looking; its publisher saw the run VERIFIED and
        owner-approved at some earlier time. */
    method FinalizePublication(r: RunId, ghost seen: State)
      requires Inv(s) && Keeps(seen, s) && MayPublish(seen, r)
      modifies `s
      ensures Inv(s) && Keeps(old(s), s)
      ensures r in old(s).runs && old(s).runs[r].taskId in old(s).tasks
      ensures s == Wrote(old(s), r, old(s).runs[r].(state := RunComplete), Done)
      ensures old(s).runs[r].state == RunComplete ==> s == old(s)
    {
      hide Inv, Keeps;
      StillPublishable(seen, s, r);
      FinalizingKeepsInv(s, r);
      s := Wrote(s, r, s.runs[r].(state := RunComplete), Done);
    }

    // -------------------------------------------------------------- plans

    /** `load_plan`.  `accepted` stands for the field checks and the plan-revision checks, `top`
        for the highest queue number in use. */
    method LoadPlan(plan: Plan, top: nat, accepted: bool) returns (ok: bool)
      requires Inv(s) && IsTop(s, top)
      modifies `s
      ensures Inv(s) && Keeps(old(s), s)
      ensures ok <==> accepted && plan != [] && Distinct(plan) && Acyclic(PlanGraph(plan))
                      && Grounded(GraphOf(old(s)), PlanGraph(plan))
      ensures !ok ==> s == old(s)
      ensures ok ==> exists added ::
                  IsAddition(old(s), plan, |plan|, added, top) && s == old(s).(tasks := old(s).tasks + added)
    {
      hide Inv, Keeps, IsAddition, UpTo, PlanGraph, Acyclic, Entry, IsTop;
      KeepsIsReflexive(s);
      if !accepted || plan == [] || !Distinct(plan) { return false; }
      IdsAreTheGraph(plan);
      ok := ValidateDependencyGraph(PlanGraph(plan), Ids(plan));
      if !ok || !Grounded(GraphOf(s), PlanGraph(plan)) { return false; }
      NothingAdded(s, plan, top);
      var added, next := map[], top;
      for i := 0 to |plan|
        invariant top <= next && s == old(s) && IsAddition(s, plan, i, added, top) && UpTo(added, next)
      {
        if plan[i].0 in s.tasks {
          AdditionSkip(s, plan, i, added, top);
          continue;
        }
        AdditionStep(s, plan, i, added, top, next);
        NumberTaken(plan, i, added, next);
        next := next + 1;
        added := added[plan[i].0 := Entry(plan[i].1, next)];
      }
      AdditionIsLoadable(s, plan, added, top);
      LoadingKeepsInv(s, added, PlanGraph(plan));
      s := s.(tasks := s.tasks + added);
    }

    /** `readmit`: replaces a task that review sent back by a new one that also depends on the
        published task `dependency` ran.  `contract` stands for the readmission contract and
        the workspace, evidence and Git comparisons, `kept` for those of a recorded readmission.
        A recorded readmission is answered from its record, whatever has happened since. */
    method Readmit(prior: RunId, dependency: RunId, t: TaskId, task: Task, plan: string, top: nat, contract: bool,
                   kept: bool)
      returns (answer: Readmission)
      requires Inv(s) && IsTop(s, top) && Replaced(s, readmissions)
      modifies this
      ensures Inv(s) && Keeps(old(s), s) && Replaced(s, readmissions)
      ensures prior in old(readmissions) ==>
                && s == old(s) && readmissions == old(readmissions)
                && answer == if kept && old(readmissions)[prior].dependency == dependency
                                && old(readmissions)[prior].plan == plan
                             then Admitted(old(readmissions)[prior].task) else NotAdmitted
      ensures prior !in old(readmissions) ==>
                (answer == Admitted(t) <==> contract && Readmissible(old(s), prior, dependency, t, task))
      ensures prior !in old(readmissions) && answer != Admitted(t) ==>
                answer == NotAdmitted && s == old(s) && readmissions == old(readmissions)
      ensures prior !in old(readmissions) && answer == Admitted(t) ==>
                && s == Readmitted(old(s), old(s).runs[prior].taskId, t, task, top)
                && readmissions == old(readmissions)[prior := Proof(dependency, t, plan)]
                && InPlaceOf(old(s), s, old(s).runs[prior].taskId, t, task)
                && Attempts(old(s), old(s).runs[prior].taskId) + task.maxAttempts
                   <= old(s).tasks[old(s).runs[prior].taskId].maxAttempts
    {
      hide InPlaceOf, Replaced, Readmitted, Inv, Keeps, Attempts, WriterFree, IsLatest, Unpaused, IsTop;
      KeepsIsReflexive(s);
      if prior in readmissions {
        var proof := readmissions[prior];
        var repeated := kept && proof.plan == plan && proof.dependency == dependency;
        return if repeated then Admitted(proof.task) else NotAdmitted;
      }
      var refusal := CheckReadmission(prior, dependency, t, task);
      if !contract || refusal.Some? { return NotAdmitted; }
      ReadmittingKeepsInv(s, prior, dependency, t, task, top);
      ReadmittedInPlace(s, s.runs[prior].taskId, t, task, top);
      ReplacedStays(s, Readmitted(s, s.runs[prior].taskId, t, task, top), readmissions);
      ReplacementIsOnRecord(s, prior, t, task, top, Proof(dependency, t, plan), readmissions);
      s := Readmitted(s, s.runs[prior].taskId, t, task, top);
      readmissions := readmissions[prior := Proof(dependency, t, plan)];
      answer := Admitted(t);
    }

    // -------------------------------------------------------------- operators

    method RecordCheckpoint(r: RunId, lease: string) returns (ok: bool)
      requires Inv(s)
      modifies `s
      ensures Inv(s) && Keeps(old(s), s)
      ensures ok <==> r in old(s).runs && old(s).runs[r].lease == lease && old(s).runs[r].state == Running
      ensures s == if ok then old(s).(checkpoints := old(s).checkpoints + {r}) else old(s)
    {
      ok := r in s.runs && s.runs[r].lease == lease && s.runs[r].state == Running;
      SettingsKeepInv(s, s.checkpoints + {r}, s.paused, s.pausedProjects);
      KeepsIsReflexive(s);
      if ok { s := s.(checkpoints := s.checkpoints + {r}); }
    }

    /** `pause`, `resume`, `pause_project` and `resume_project`. */
    method SetPauses(paused: bool, projects: set<string>)
      requires Inv(s)
      modifies `s
      ensures Inv(s) && Keeps(old(s), s) && s == old(s).(paused := paused, pausedProjects := projects)
    {
      SettingsKeepInv(s, s.checkpoints, paused, projects);
      s := s.(paused := paused, pausedProjects := projects);
    }

    method Abort(r: RunId, retry: bool, inactive: bool, resolved: bool) returns (ok: bool)
      requires Inv(s)
      modifies `s
      ensures Inv(s) && Keeps(old(s), s)
      ensures ok <==> r in old(s).runs && old(s).runs[r].state in ACTIVE_RUN_STATES && resolved
                      && (old(s).runs[r].state == Running && r in old(s).checkpoints ==> inactive)
      ensures s == if ok then Wrote(old(s), r, old(s).runs[r].(state := Aborted), AbortedStatus(retry)) else old(s)
      ensures ok ==> WaitsAgain(s, r, retry)
    {
      hide Inv, Keeps, WriterFree, Attempts;
      KeepsIsReflexive(s);
      if r !in s.runs || s.runs[r].state !in ACTIVE_RUN_STATES { return false; }
      if s.runs[r].state == Running && r in s.checkpoints && !inactive { return false; }
      if !resolved { return false; }
      AbortedFreesTheWriter(s, r, retry);
      Advances(r, s.runs[r].(state := Aborted), AbortedStatus(retry));
      ok := true;
    }

    /** `cancel_task`.  Its look for an active run never decides: the status already does. */
    method CancelTask(t: TaskId) returns (ok: bool)
      requires Inv(s)
      modifies `s
      ensures Inv(s) && Keeps(old(s), s)
      ensures ok <==> t in old(s).tasks && old(s).tasks[t].status in READY_TASK_STATES + {BlockedTask, Cancelled}
      ensures s == if ok then Marked(old(s), t, Cancelled) else old(s)
    {
      hide Inv, Keeps, Markable;
      KeepsIsReflexive(s);
      if t !in s.tasks { return false; }
      if s.tasks[t].status == Cancelled {
        assert Marked(s, t, Cancelled) == s;
        return true;
      }
      var active := exists r :: r in s.runs && s.runs[r].taskId == t && s.runs[r].state in ACTIVE_RUN_STATES;
      if active {
        var r :| r in s.runs && s.runs[r].taskId == t && s.runs[r].state in ACTIVE_RUN_STATES;
        OnlyOpenWorkIsReserved(s, t, r);
        return false;
      }
      if s.tasks[t].status !in READY_TASK_STATES + {BlockedTask} { return false; }
      ReadyIsMarkable(s, t, Cancelled);
      MarkingKeepsInv(s, t, Cancelled);
      s := Marked(s, t, Cancelled);
      ok := true;
    }
  }

  // ---------------------------------------------------------------- plans

  type Plan = seq<(TaskId, Task)>

  predicate Distinct(plan: Plan) {
    forall i, j :: 0 <= i < j < |plan| ==> plan[i].0 != plan[j].0
  }

  function PlanGraph(plan: Plan): Graph {
    if plan == [] then map[]
    else PlanGraph(plan[..|plan| - 1])[plan[|plan| - 1].0 := plan[|plan| - 1].1.dependencies]
  }

  lemma {:induction false} PlanGraphIsExact(plan: Plan)
    requires Distinct(plan)
    ensures forall i :: 0 <= i < |plan| ==>
              plan[i].0 in PlanGraph(plan) && PlanGraph(plan)[plan[i].0] == plan[i].1.dependencies
    ensures forall t :: t in PlanGraph(plan) ==> exists i :: 0 <= i < |plan| && plan[i].0 == t
  {
    if plan != [] {
      var front := plan[..|plan| - 1];
      PlanGraphIsExact(front);
      forall i | 0 <= i < |plan|
        ensures plan[i].0 in PlanGraph(plan) && PlanGraph(plan)[plan[i].0] == plan[i].1.dependencies
      {
        if i < |front| { assert front[i] == plan[i]; }
      }
      forall t | t in PlanGraph(plan)
        ensures exists i :: 0 <= i < |plan| && plan[i].0 == t
      {
        if t in PlanGraph(front) {
          var i :| 0 <= i < |front| && front[i].0 == t;
          assert plan[i].0 == t;
        } else {
          assert plan[|plan| - 1].0 == t;
        }
      }
    }
  }

  predicate IsTop(s: State, top: nat) {
    && (forall t :: t in s.tasks ==> s.tasks[t].queueSeq <= top)
    && (top == 0 || exists t :: t in s.tasks && s.tasks[t].queueSeq == top)
  }

  function Ids(plan: Plan): seq<TaskId> {
    seq(|plan|, i requires 0 <= i < |plan| => plan[i].0)
  }

  lemma IdsAreTheGraph(plan: Plan)
    requires Distinct(plan)
    ensures forall t :: t in Ids(plan) <==> t in PlanGraph(plan)
  {
    PlanGraphIsExact(plan);
    forall t
      ensures t in Ids(plan) <==> t in PlanGraph(plan)
    {
      if t in PlanGraph(plan) {
        var i :| 0 <= i < |plan| && plan[i].0 == t;
        assert Ids(plan)[i] == t;
      }
    }
  }

  function Entry(task: Task, queueSeq: nat): Task {
    task.(status := Planned, queueSeq := queueSeq)
  }

  predicate ListsTask(plan: Plan, n: nat, t: TaskId) {
    exists i :: 0 <= i < n <= |plan| && plan[i].0 == t
  }

  predicate UpTo(added: map<TaskId, Task>, next: nat) {
    forall t :: t in added ==> added[t].queueSeq <= next
  }

  /** The first `n` plan items as tasks: stored tasks are skipped, the others are planned behind
      everything queued and keep the plan's order. */
  ghost predicate IsAddition(s: State, plan: Plan, n: nat, added: map<TaskId, Task>, top: nat) {
    && n <= |plan|
    && (forall t :: t in added <==> t !in s.tasks && ListsTask(plan, n, t))
    && (forall i :: 0 <= i < n && plan[i].0 in added ==> top < added[plan[i].0].queueSeq)
    && (forall i :: 0 <= i < n && plan[i].0 in added ==>
          added[plan[i].0] == Entry(plan[i].1, added[plan[i].0].queueSeq))
    && (forall i, j :: 0 <= i < j < n && plan[i].0 in added && plan[j].0 in added ==>
          added[plan[i].0].queueSeq < added[plan[j].0].queueSeq)
  }

  lemma NothingAdded(s: State, plan: Plan, top: nat)
    ensures IsAddition(s, plan, 0, map[], top) && UpTo(map[], top)
  {
  }

  lemma AdditionSkip(s: State, plan: Plan, n: nat, added: map<TaskId, Task>, top: nat)
    requires n < |plan| && IsAddition(s, plan, n, added, top) && plan[n].0 in s.tasks
    ensures IsAddition(s, plan, n + 1, added, top)
  {
  }

  lemma NumberTaken(plan: Plan, n: nat, added: map<TaskId, Task>, next: nat)
    requires n < |plan| && UpTo(added, next)
    ensures UpTo(added[plan[n].0 := Entry(plan[n].1, next + 1)], next + 1)
  {
  }

  lemma AdditionStep(s: State, plan: Plan, n: nat, added: map<TaskId, Task>, top: nat, next: nat)
    requires n < |plan| && Distinct(plan) && IsAddition(s, plan, n, added, top) && UpTo(added, next) && top <= next
    requires plan[n].0 !in s.tasks
    ensures IsAddition(s, plan, n + 1, added[plan[n].0 := Entry(plan[n].1, next + 1)], top)
  {
  }

  /** One added task, found again in its plan. */
  lemma AddedFromPlan(s: State, plan: Plan, added: map<TaskId, Task>, top: nat, t: TaskId) returns (i: nat)
    requires Distinct(plan) && IsAddition(s, plan, |plan|, added, top) && t in added
    ensures i < |plan| && plan[i].0 == t && t !in s.tasks
    ensures added[t].status == Planned && top < added[t].queueSeq
    ensures t in PlanGraph(plan) && added[t].dependencies == PlanGraph(plan)[t]
    ensures forall j :: 0 <= j < |plan| && j != i && plan[j].0 in added ==>
              added[plan[j].0].queueSeq != added[t].queueSeq
  {
    PlanGraphIsExact(plan);
    hide PlanGraph;
    i :| 0 <= i < |plan| && plan[i].0 == t;
  }

  lemma AdditionGraph(s: State, plan: Plan, added: map<TaskId, Task>, top: nat)
    requires Distinct(plan) && IsAddition(s, plan, |plan|, added, top)
    ensures GraphOf(s.(tasks := s.tasks + added)) == Merged(GraphOf(s), PlanGraph(plan))
  {
    var after := s.(tasks := s.tasks + added);
    forall t
      ensures t in GraphOf(after) <==> t in Merged(GraphOf(s), PlanGraph(plan))
      ensures t in GraphOf(after) ==> GraphOf(after)[t] == Merged(GraphOf(s), PlanGraph(plan))[t]
    {
      if t in added {
        var _ := AddedFromPlan(s, plan, added, top, t);
      } else {
        PlanGraphIsExact(plan);
        assert t in PlanGraph(plan) ==> ListsTask(plan, |plan|, t);
      }
    }
  }

  lemma AdditionIsLoadable(s: State, plan: Plan, added: map<TaskId, Task>, top: nat)
    requires IsTop(s, top) && Distinct(plan) && IsAddition(s, plan, |plan|, added, top)
    requires Acyclic(PlanGraph(plan)) && Grounded(GraphOf(s), PlanGraph(plan))
    ensures Loadable(s, added, PlanGraph(plan))
  {
    hide Acyclic, Grounded, IsAddition, PlanGraph, GraphOf, Distinct;
    AdditionGraph(s, plan, added, top);
    forall t | t in added
      ensures added[t].status == Planned && top < added[t].queueSeq && t !in s.tasks
    {
      var _ := AddedFromPlan(s, plan, added, top, t);
    }
    forall t, u | t in added && u in added && added[t].queueSeq == added[u].queueSeq
      ensures t == u
    {
      var i := AddedFromPlan(s, plan, added, top, t);
      var j := AddedFromPlan(s, plan, added, top, u);
    }
  }

  /** The ledger's part of the readmission guard. */
  predicate Readmissible(s: State, prior: RunId, dependency: RunId, t: TaskId, task: Task) {
    && prior in s.runs && dependency in s.runs && prior != dependency
    && s.runs[prior].taskId in s.tasks && s.runs[dependency].taskId in s.tasks
    && var previous := s.tasks[s.runs[prior].taskId];
    && var needed := s.tasks[s.runs[dependency].taskId];
    && !s.paused && Unpaused(s, previous) && Unpaused(s, needed) && Unpaused(s, task)
    && WriterFree(s, previous.writerKey) && WriterFree(s, needed.writerKey) && WriterFree(s, task.writerKey)
    && s.runs[prior].state == RunNeedsFix && s.runs[prior].checksPassed && previous.status in {BlockedTask, NeedsFix}
    && s.runs[dependency].state == RunComplete && s.runs[dependency].checksPassed && needed.status == Done
    && task.status == Planned && t !in s.tasks
    && IsLatest(s, prior) && IsLatest(s, dependency) && dependency in s.publishing
    && 1 <= task.maxAttempts <= previous.maxAttempts - Attempts(s, s.runs[prior].taskId)
    && (forall d :: d in previous.dependencies ==> d in task.dependencies)
    && s.runs[dependency].taskId in task.dependencies && s.runs[prior].taskId !in task.dependencies
    && (forall d :: d in task.dependencies ==> d in s.tasks && s.tasks[d].status == Done)
  }

  /** No later attempt was made on the run's task. */
  predicate IsLatest(s: State, r: RunId) {
    && r in s.runs
    && forall q :: q in s.runs && s.runs[q].taskId == s.runs[r].taskId ==> s.runs[q].attempt <= s.runs[r].attempt
  }

  predicate Unpaused(s: State, task: Task) {
    task.project.Some? ==> task.project.value !in s.pausedProjects
  }

  function Readmitted(s: State, previous: TaskId, t: TaskId, task: Task, top: nat): State
    requires previous in s.tasks && t !in s.tasks
  {
    Marked(s.(tasks := s.tasks + map[t := task.(queueSeq := top + 1)]), previous, Cancelled)
  }

  /** The new task is queued behind everything, the one it replaces is cancelled, and nothing else changes. */
  predicate InPlaceOf(s: State, after: State, previous: TaskId, t: TaskId, task: Task) {
    && t in after.tasks && t !in s.tasks && after.tasks[t].(queueSeq := task.queueSeq) == task
    && previous in s.tasks && previous in after.tasks && after.tasks[previous].status == Cancelled
    && after.tasks[previous].(status := s.tasks[previous].status) == s.tasks[previous]
    && after.tasks.Keys == s.tasks.Keys + {t} && after == s.(tasks := after.tasks)
    && (forall u :: u in s.tasks ==> after.tasks[u].queueSeq < after.tasks[t].queueSeq)
    && (forall u :: u in s.tasks && u != previous ==> after.tasks[u] == s.tasks[u])
  }

  lemma ReadmittedInPlace(s: State, previous: TaskId, t: TaskId, task: Task, top: nat)
    requires previous in s.tasks && t !in s.tasks && IsTop(s, top)
    ensures InPlaceOf(s, Readmitted(s, previous, t, task, top), previous, t, task)
  {
  }

  lemma ReplacementIsOnRecord(s: State, r: RunId, t: TaskId, task: Task, top: nat, proof: Proof, proofs: Proofs)
    requires r in s.runs && s.runs[r].taskId in s.tasks && t !in s.tasks && proof.task == t
    requires Replaced(Readmitted(s, s.runs[r].taskId, t, task, top), proofs)
    ensures Replaced(Readmitted(s, s.runs[r].taskId, t, task, top), proofs[r := proof])
  {
  }

  lemma LoneTaskIsAcyclic(s: State, t: TaskId, dependencies: seq<TaskId>)
    requires t !in s.tasks && forall d :: d in dependencies ==> d in s.tasks
    ensures Acyclic(map[t := dependencies])
  {
    assert Ranked(map[t := dependencies], map[t := 0]);
  }

  lemma ReadmissionIsLoadable(s: State, prior: RunId, dependency: RunId, t: TaskId, task: Task, top: nat)
    requires IsTop(s, top) && Readmissible(s, prior, dependency, t, task)
    ensures Loadable(s, map[t := task.(queueSeq := top + 1)], map[t := task.dependencies])
  {
    hide Acyclic, Merged, WriterFree, Attempts, IsLatest, Unpaused;
    var added := map[t := task.(queueSeq := top + 1)];
    var plan := map[t := task.dependencies];
    LoneTaskIsAcyclic(s, t, task.dependencies);
    OneTaskMore(s, t, task.(queueSeq := top + 1));
  }

  lemma OneTaskMore(s: State, t: TaskId, task: Task)
    requires t !in s.tasks
    ensures GraphOf(s.(tasks := s.tasks + map[t := task])) == Merged(GraphOf(s), map[t := task.dependencies])
  {
  }

  lemma ReadmittingKeepsInv(s: State, prior: RunId, dependency: RunId, t: TaskId, task: Task, top: nat)
    requires Inv(s) && IsTop(s, top) && Readmissible(s, prior, dependency, t, task)
    ensures var after := Readmitted(s, s.runs[prior].taskId, t, task, top); Inv(after) && Keeps(s, after)
  {
    hide Inv, Keeps, Loadable, IsTop, WriterFree, Attempts, Markable;
    var previous := s.runs[prior].taskId;
    var added := map[t := task.(queueSeq := top + 1)];
    var loaded := s.(tasks := s.tasks + added);
    var plan := map[t := task.dependencies];
    ReadmissionIsLoadable(s, prior, dependency, t, task, top);
    LoadingKeepsInv(s, added, plan);
    ReadyIsMarkable(loaded, previous, Cancelled);
    MarkingKeepsInv(loaded, previous, Cancelled);
    KeepsIsTransitive(s, loaded, Readmitted(s, previous, t, task, top));
  }

  datatype Completion = NotVerified | WaitsForOwner | PublicationRequired | Finished

  /** The ledger's part of the repair guard: the latest run of an unfinished task, sent back by
      review after its checks passed, with attempts left and nobody writing.  Whether a publication
      of the same writer is pending belongs to the guard's comparisons. */
  predicate Repairable(s: State, prior: RunId, project: Option<string>) {
    && !s.paused && (project.Some? ==> project.value !in s.pausedProjects)
    && prior in s.runs && s.runs[prior].taskId in s.tasks
    && var t := s.runs[prior].taskId;
    && (project.Some? ==> s.tasks[t].project == project)
    && !ProjectPaused(s, t) && DependenciesDone(s, t)
    && Attempts(s, t) < s.tasks[t].maxAttempts && WriterFree(s, s.tasks[t].writerKey)
    && IsLatest(s, prior)
    && s.runs[prior].state == RunNeedsFix && s.runs[prior].checksPassed && s.runs[prior].snapshot.Some?
    && s.tasks[t].status in {BlockedTask, NeedsFix}
  }

  predicate Grantable(s: State, t: TaskId, attempt: nat) {
    && t in s.tasks && s.tasks[t].status in READY_TASK_STATES && Attempts(s, t) + 1 == attempt
    && !s.paused && !ProjectPaused(s, t) && DependenciesDone(s, t)
    && Attempts(s, t) < s.tasks[t].maxAttempts && WriterFree(s, s.tasks[t].writerKey)
  }

  predicate Approvable(s: State, r: RunId) {
    && r in s.runs && s.runs[r].state == Verified && s.runs[r].snapshot.Some?
    && s.runs[r].taskId in s.tasks && s.tasks[s.runs[r].taskId].ownerAcceptance
  }

  function Approved(s: State, r: RunId): State
    requires Approvable(s, r)
  {
    Marked(s.(approvals := s.approvals[r := s.runs[r].snapshot.value]), s.runs[r].taskId, ReadyToPublish)
  }

  /** What `publish` reads before it starts. */
  predicate MayPublish(s: State, r: RunId) {
    r in s.runs && s.runs[r].state == Verified && Publishes(s, r) && Owned(s, r)
  }

  lemma ApprovingKeepsInv(s: State, r: RunId)
    requires Inv(s) && Approvable(s, r)
    ensures Inv(Approved(s, r)) && Keeps(s, Approved(s, r))
  {
    hide Inv, Keeps, Markable;
    var with := s.(approvals := s.approvals[r := s.runs[r].snapshot.value]);
    WithApproval(s, r);
    VerifiedIsMarkable(with, r, ReadyToPublish);
    MarkingKeepsInv(with, s.runs[r].taskId, ReadyToPublish);
    KeepsIsTransitive(s, with, Approved(s, r));
  }

  // ---------------------------------------------------------------- verify without a second look

  predicate VerdictHarmless(s: State, r: RunId, verdict: Verdict, snapshot: string)
    requires r in s.runs
  {
    match s.runs[r].state
    case Verifying => true
    case Reviewing => true
    case Verified => verdict == ChecksPassed && s.runs[r].snapshot == Some(snapshot)
    case RunNeedsFix => verdict == ChecksFailed && StatusOf(s, r) in READY_TASK_STATES + {BlockedTask}
    case _ => false
  }

  /** The program's own commit of a verdict, decided while the run was VERIFYING, is harmless
      exactly when the run is still verifying or reviewing, when it repeats the run's own
      verdict, or when the task was not taken up again after its own failure. */
  lemma StaleVerdictExactly(s: State, r: RunId, verdict: Verdict, snapshot: string)
    requires Inv(s) && r in s.runs && Level(s.runs[r].state) >= Level(Verifying)
    ensures var after := Wrote(s, r, Judged(s.runs[r], verdict, snapshot), JudgedStatus(verdict));
            Inv(after) && Keeps(s, after) <==> VerdictHarmless(s, r, verdict, snapshot)
  {
    hide Inv, Keeps;
    RunIsBacked(s, r);
    LateWriteExactly(s, r, Judged(s.runs[r], verdict, snapshot), JudgedStatus(verdict));
  }

  /** The trace that breaks it: the run is observed VERIFYING, an operator aborts it for a
      retry, the task is claimed again, and the old verdict is committed.  Then two runs hold
      the same writer. */
  lemma StaleVerdictDoublesTheWriter(s: State, r: RunId, second: RunId, lease: string, verdict: Verdict,
                                     snapshot: string)
    requires Inv(s) && r in s.runs && s.runs[r].state == Verifying && second !in s.runs
    requires Attempts(s, s.runs[r].taskId) < s.tasks[s.runs[r].taskId].maxAttempts
    ensures var aborted := Wrote(s, r, s.runs[r].(state := Aborted), AbortedStatus(true));
            var claimed := Claimed(aborted, s.runs[r].taskId, second, lease);
            var broken := Wrote(claimed, r, Judged(claimed.runs[r], verdict, snapshot), JudgedStatus(verdict));
            && Claimable(aborted, s.runs[r].taskId, second) && Inv(claimed)
            && Holder(broken, second) && broken.runs[second].state == Running
            && StatusOf(broken, second) != InProgress
            && (verdict != ChecksFailed ==>
                  Holder(broken, r) && WriterKey(broken, r) == WriterKey(broken, second) && r != second)
  {
    hide Inv, Keeps, Claimable, Attempts;
    RunIsBacked(s, r);
    var aborted := Wrote(s, r, s.runs[r].(state := Aborted), AbortedStatus(true));
    AbortedIsClaimable(s, r, second);
    ClaimingKeepsInv(aborted, s.runs[r].taskId, second, lease);
  }

  // ---------------------------------------------------------------- the capability handler without a second look

  /** The run still holds its reservation unverified, or was aborted and its task not taken up. */
  predicate StillAbortable(s: State, r: RunId) {
    if Holder(s, r) then s.runs[r].state != Verified
    else r in s.runs && s.runs[r].state == Aborted && StatusOf(s, r) in READY_TASK_STATES + {BlockedTask}
  }

  /** The unread write of the capability handler is harmless exactly then. */
  lemma LateCapabilityFailureExactly(s: State, r: RunId)
    requires Inv(s) && r in s.runs
    ensures s.runs[r].taskId in s.tasks
    ensures var after := Wrote(s, r, s.runs[r].(state := Aborted), BlockedTask);
            Inv(after) && Keeps(s, after) <==> StillAbortable(s, r)
  {
    hide Keeps, Exclusive, Reserved, Held, Settled, Proven, Counted, Queued, Sound;
    LateWriteExactly(s, r, s.runs[r].(state := Aborted), BlockedTask);
  }

  /** The trace that breaks it: the capability file cannot be written, an operator aborts the run
      for a retry, the task is claimed again, and the handler writes.  Then a task is BLOCKED
      while its second run is RUNNING and holds the writer. */
  lemma LateCapabilityFailureBlocksARunningTask(s: State, r: RunId, second: RunId, lease: string)
    requires Inv(s) && r in s.runs && s.runs[r].state == Running && second !in s.runs
    requires Attempts(s, s.runs[r].taskId) < s.tasks[s.runs[r].taskId].maxAttempts
    ensures var t := s.runs[r].taskId;
            var aborted := Wrote(s, r, s.runs[r].(state := Aborted), AbortedStatus(true));
            var claimed := Claimed(aborted, t, second, lease);
            var broken := Wrote(claimed, r, claimed.runs[r].(state := Aborted), BlockedTask);
            && Claimable(aborted, t, second) && Inv(claimed) && !StillAbortable(claimed, r)
            && HolderOf(broken, second, t) && broken.runs[second].state == Running
            && broken.tasks[t].status == BlockedTask && !Inv(broken)
  {
    hide Inv, Keeps, Claimable, Attempts;
    RunIsBacked(s, r);
    var aborted := Wrote(s, r, s.runs[r].(state := Aborted), AbortedStatus(true));
    AbortedIsClaimable(s, r, second);
    ClaimingKeepsInv(aborted, s.runs[r].taskId, second, lease);
    var claimed := Claimed(aborted, s.runs[r].taskId, second, lease);
    BlockedWhileRunning(Wrote(claimed, r, claimed.runs[r].(state := Aborted), BlockedTask), second);
  }

  lemma BlockedWhileRunning(s: State, r: RunId)
    requires r in s.runs && s.runs[r].state == Running && StatusOf(s, r) == BlockedTask
    ensures !Inv(s)
  {
    assert Reserved(s) ==> Fits(s.runs[r].state, StatusOf(s, r));
  }

  /** The run is over and its writer free; its task is ready again exactly when a retry was asked
      for, and otherwise waits for somebody to reopen it. */
  predicate WaitsAgain(s: State, r: RunId, retry: bool) {
    && r in s.runs && s.runs[r].state == Aborted && s.runs[r].taskId in s.tasks
    && (if retry then s.tasks[s.runs[r].taskId].status == NeedsFix
        else s.tasks[s.runs[r].taskId].status == BlockedTask)
    && WriterFree(s, s.tasks[s.runs[r].taskId].writerKey)
  }

  lemma AbortedFreesTheWriter(s: State, r: RunId, retry: bool)
    requires Inv(s) && r in s.runs && s.runs[r].state in ACTIVE_RUN_STATES
    ensures var run := s.runs[r].(state := Aborted);
            && Advance(s, r, run, AbortedStatus(retry)) && s.runs[r].taskId in s.tasks
            && WaitsAgain(Wrote(s, r, run, AbortedStatus(retry)), r, retry)
            && Attempts(Wrote(s, r, run, AbortedStatus(retry)), s.runs[r].taskId) == Attempts(s, s.runs[r].taskId)
  {
    hide Exclusive, Reserved, Held, Settled, Counted, Queued, Sound, Keeps, WriterFree, Attempts;
    var run := s.runs[r].(state := Aborted);
    WroteFrame(s, r, run, AbortedStatus(retry));
    hide Known, Proven;
    NobodyElseHolds(s, r, run, AbortedStatus(retry));
  }

  lemma NobodyElseHolds(s: State, r: RunId, run: Run, status: TaskStatus)
    requires Inv(s) && Holder(s, r) && SameWork(s.runs[r], run) && !Locks(run.state)
    ensures s.runs[r].taskId in s.tasks
    ensures var after := Wrote(s, r, run, status); var t := s.runs[r].taskId;
            t in after.tasks && WriterFree(after, after.tasks[t].writerKey) && Attempts(after, t) == Attempts(s, t)
  {
    hide Reserved, Held, Settled, Proven, Counted, Queued, Sound;
    WroteFrame(s, r, run, status);
    var after := Wrote(s, r, run, status);
    assert TaskRuns(after, s.runs[r].taskId) == TaskRuns(s, s.runs[r].taskId);
    assert after.tasks[s.runs[r].taskId].writerKey == WriterKey(s, r);
    hide TaskRuns, Wrote, Locks;
    forall q | Holder(after, q)
      ensures WriterKey(after, q) != WriterKey(s, r)
    {
      assert q != r && Holder(s, q) && Holder(s, r);
    }
  }

  lemma AbortedIsClaimable(s: State, r: RunId, second: RunId)
    requires Inv(s) && r in s.runs && s.runs[r].state in ACTIVE_RUN_STATES && second !in s.runs
    requires Attempts(s, s.runs[r].taskId) < s.tasks[s.runs[r].taskId].maxAttempts
    ensures var aborted := Wrote(s, r, s.runs[r].(state := Aborted), AbortedStatus(true));
            Inv(aborted) && Claimable(aborted, s.runs[r].taskId, second)
  {
    hide Inv, Keeps, WriterFree, Attempts;
    AbortedFreesTheWriter(s, r, true);
    AdvancingKeepsInv(s, r, s.runs[r].(state := Aborted), AbortedStatus(true));
  }

  /** Aborted without retry, a task is not offered again: as long as nobody reopens it, neither
      `next_work` nor `claim` answers with it, whatever else has happened. */
  lemma NotOfferedUntilReopened(s: State, r: RunId, later: State, project: Option<string>, offer: Offer)
    requires WaitsAgain(s, r, false) && Keeps(s, later) && Answers(later, project, offer)
    requires StatusOf(later, r) == StatusOf(s, r)
    ensures offer.Ready? ==> offer.task != s.runs[r].taskId
  {
    hide Owned, Attempts, WriterFree, DependenciesDone;
    assert RunKept(s, later, r) && TaskKept(s, later, s.runs[r].taskId);
  }

  /** Aborted for a retry, with attempts left, it is eligible again for its project as soon as that
      is not paused and its dependencies are done. */
  lemma OfferedForRetry(s: State, r: RunId, project: Option<string>)
    requires WaitsAgain(s, r, true)
    requires Attempts(s, s.runs[r].taskId) < s.tasks[s.runs[r].taskId].maxAttempts
    ensures var t := s.runs[r].taskId;
            Eligible(s, t, project) <==>
              && (project.None? || s.tasks[t].project == project)
              && (s.tasks[t].project.Some? ==> s.tasks[t].project.value !in s.pausedProjects)
              && (forall d :: d in s.tasks[t].dependencies ==> d in s.tasks && s.tasks[d].status == Done)
  {
    hide Attempts, WriterFree;
  }

  // ---------------------------------------------------------------- every interleaving

  /** No publication row appears or goes, and no run of a publishing task is completed. */
  predicate LeavesPublishing(s: State, after: State) {
    && after.publishing == s.publishing
    && forall r :: r in s.runs && Publishes(s, r) && Completes(after, r) ==> Completes(s, r)
  }

  predicate Completes(s: State, r: RunId) {
    r in s.runs && s.runs[r].state == RunComplete
  }

  /** One transaction of a worker or a claimer, with arbitrary inputs. */
  method WorkerStep(l: Ledger)
    requires Inv(l.s)
    modifies l`s
    ensures LeavesPublishing(old(l.s), l.s)
    ensures Inv(l.s) && Keeps(old(l.s), l.s)
  {
    hide Inv, Keeps, Replaced, InOrder, Answers, Attempts, WriterFree, Owned, Readmissible, IsAddition, VerdictHarmless;
    KeepsIsReflexive(l.s);
    var choice: nat, r: RunId, prior: RunId, t: TaskId, text: string, n: nat := *, *, *, *, *, *;
    var one: bool, two: bool, project: Option<string> := *, *, *;
    if choice == 0 {
      var rows: seq<TaskId>, reserved: seq<RunId> := *, *;
      if InOrder(l.s, rows) && IsReserved(l.s, reserved) {
        var _, _ := l.Claim(rows, reserved, project, r, text, one);
      }
    } else if choice == 1 {
      var _ := l.ClaimRepair(prior, project, r, text, one);
    } else if choice == 2 {
      var _ := l.ClaimGranted(t, n, r, text, one, two);
    } else if choice == 3 {
      if StillAbortable(l.s, r) && r in l.s.runs { l.CapabilityFailed(r); }
    } else if choice == 4 {
      var _ := l.Submit(r, text, one, two);
    } else if choice == 5 {
      var _ := l.Quiesce(r, text, one);
    } else if choice == 6 {
      var _ := l.RecordCheckpoint(r, text);
    }
  }

  method JudgeStep(l: Ledger)
    requires Inv(l.s)
    modifies l`s
    ensures LeavesPublishing(old(l.s), l.s)
    ensures Inv(l.s) && Keeps(old(l.s), l.s)
  {
    hide Inv, Keeps, Replaced, InOrder, Answers, Attempts, WriterFree, Owned, Readmissible, IsAddition, VerdictHarmless;
    KeepsIsReflexive(l.s);
    var choice: nat, r: RunId, text: string, one: bool := *, *, *, *;
    if choice == 0 {
      var _ := l.BlockVerification(r);
    } else if choice == 1 {
      var verdict: Verdict := *;
      if r in l.s.runs && Level(l.s.runs[r].state) >= Level(Verifying) && VerdictHarmless(l.s, r, verdict, text) {
        l.CommitVerdict(r, verdict, text);
      }
    } else if choice == 2 {
      var verdict: ReviewVerdict := *;
      var _ := l.ImportReview(r, text, verdict);
    } else if choice == 3 {
      var _ := l.Approve(r, one);
    } else if choice == 4 {
      var _ := l.Complete(r, one);
    }
  }

  method OperatorStep(l: Ledger)
    requires Inv(l.s)
    modifies l`s
    ensures LeavesPublishing(old(l.s), l.s)
    ensures Inv(l.s) && Keeps(old(l.s), l.s)
  {
    hide Inv, Keeps, Replaced, InOrder, Answers, Attempts, WriterFree, Owned, Readmissible, IsAddition, VerdictHarmless;
    KeepsIsReflexive(l.s);
    var choice: nat, r: RunId, t: TaskId, top: nat := *, *, *, *;
    var one: bool, two: bool, three: bool := *, *, *;
    if choice == 0 {
      var _ := l.Abort(r, one, two, three);
    } else if choice == 1 {
      var _ := l.CancelTask(t);
    } else if choice == 2 {
      var projects: set<string> := *;
      l.SetPauses(one, projects);
    } else if choice == 3 {
      var plan: Plan := *;
      if IsTop(l.s, top) { var _ := l.LoadPlan(plan, top, one); }
    }
  }

  /** A readmission, new or repeated. */
  method ReadmissionStep(l: Ledger)
    requires Inv(l.s) && Replaced(l.s, l.readmissions)
    modifies l
    ensures LeavesPublishing(old(l.s), l.s)
    ensures Inv(l.s) && Keeps(old(l.s), l.s) && Replaced(l.s, l.readmissions)
    ensures forall r :: r in old(l.readmissions) ==> r in l.readmissions && l.readmissions[r] == old(l.readmissions)[r]
  {
    hide Inv, Keeps, Replaced, InOrder, Answers, Attempts, WriterFree, Owned, Readmissible, IsAddition, VerdictHarmless;
    KeepsIsReflexive(l.s);
    var r: RunId, other: RunId, t: TaskId, task: Task, plan: string, top: nat := *, *, *, *, *, *;
    var contract: bool, kept: bool := *, *;
    if IsTop(l.s, top) { var _ := l.Readmit(r, other, t, task, plan, top, contract, kept); }
  }

  /** Publishers delete abandoned rows, and otherwise act on an arbitrarily old reading of the ledger. */
  method PublisherStep(l: Ledger, seen: State)
    requires Inv(l.s) && Keeps(seen, l.s)
    modifies l`s
    ensures Inv(l.s) && Keeps(old(l.s), l.s)
  {
    hide *;
    KeepsIsReflexive(l.s);
    var choice: nat, r: RunId := *, *;
    if choice == 0 {
      l.DropPublication(r);
    } else if MayPublish(seen, r) {
      if choice == 1 {
        l.StartPublishing(r, seen);
      } else {
        l.FinalizePublication(r, seen);
      }
    }
  }

  /** Every interleaving of all transactions keeps the ledger invariant, takes nothing back that
      was done, and lets publishers act on any state of the past.  The two unread writes take
      part wherever they are harmless. */
  method AnyHistory(l: Ledger, past: seq<State>, rounds: nat)
    requires Inv(l.s) && Replaced(l.s, l.readmissions) && forall i :: 0 <= i < |past| ==> Keeps(past[i], l.s)
    modifies l
    ensures Inv(l.s) && Keeps(old(l.s), l.s) && Replaced(l.s, l.readmissions)
    ensures forall r :: r in old(l.readmissions) ==> r in l.readmissions && l.readmissions[r] == old(l.readmissions)[r]
    decreases rounds
  {
    hide *;
    KeepsIsReflexive(l.s);
    if rounds > 0 {
      var before, proofs, who: nat := l.s, l.readmissions, *;
      if who == 0 {
        WorkerStep(l);
      } else if who == 1 {
        JudgeStep(l);
      } else if who == 2 {
        OperatorStep(l);
      } else if who == 3 {
        ReadmissionStep(l);
      } else {
        var i: nat := *;
        if 0 <= i < |past| { PublisherStep(l, past[i]); }
      }
      if who != 3 { ReplacedStays(before, l.s, proofs); }
      var longer := past + [before];
      forall i | 0 <= i < |longer|
        ensures Keeps(longer[i], l.s)
      {
        if i < |past| { KeepsIsTransitive(past[i], before, l.s); }
      }
      var after := l.s;
      AnyHistory(l, longer, rounds - 1);
      KeepsIsTransitive(before, after, l.s);
    }
  }
}
