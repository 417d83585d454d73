/** The queue order: which task comes next, and that the three readers of the queue agree. */
module Queue {
  import opened Common
  import opened LedgerState

  // ---------------------------------------------------------------- the keyed map of active locks

  type LockMap = map<string, RunId>

  /** What a scan of the reserved runs, keyed by writer, can return. */
  ghost predicate IsLockMap(s: State, locks: LockMap) {
    && (forall k :: k in locks ==> Holder(s, locks[k]) && WriterKey(s, locks[k]) == k)
    && (forall r :: Holder(s, r) ==> WriterKey(s, r) in locks)
  }

  /** All reserved runs, in any order. */
  predicate IsReserved(s: State, reserved: seq<RunId>) {
    && (forall r :: r in reserved ==> Holder(s, r))
    && (forall r :: r in s.runs && Holder(s, r) ==> r in reserved)
  }

  /** `_active_writer_locks`: a later row overwrites an earlier row of the same key. */
  method ActiveWriterLocks(s: State, reserved: seq<RunId>) returns (locks: LockMap)
    requires IsReserved(s, reserved)
    ensures IsLockMap(s, locks)
  {
    locks := map[];
    for i := 0 to |reserved|
      invariant forall k :: k in locks ==> locks[k] in reserved && WriterKey(s, locks[k]) == k
      invariant forall j :: 0 <= j < i ==> WriterKey(s, reserved[j]) in locks
    {
      assert reserved[i] in reserved;
      locks := locks[WriterKey(s, reserved[i]) := reserved[i]];
    }
    forall r | Holder(s, r)
      ensures WriterKey(s, r) in locks
    {
      assert r in reserved;
    }
  }

  /** Under the ledger invariant the keyed map loses no row. */
  lemma LockMapLosesNoRow(s: State, locks: LockMap)
    requires Inv(s) && IsLockMap(s, locks)
    ensures locks.Values == set r | r in s.runs && Holder(s, r)
    ensures |locks.Values| == |locks.Keys|
  {
    forall r | Holder(s, r)
      ensures r in locks.Values
    {
      assert locks[WriterKey(s, r)] == r;
    }
    OneKeyPerRow(s, locks);
  }

  lemma {:induction false} OneKeyPerRow(s: State, locks: LockMap)
    requires forall k :: k in locks ==> WriterKey(s, locks[k]) == k
    ensures |locks.Values| == |locks.Keys|
    decreases locks.Keys
  {
    if locks != map[] {
      var k :| k in locks;
      var rest := locks - {k};
      OneKeyPerRow(s, rest);
      assert locks.Keys == rest.Keys + {k};
      assert locks[k] !in rest.Values;
      assert locks.Values == rest.Values + {locks[k]} by {
        ValuesOf(locks, k);
      }
    }
  }

  lemma ValuesOf(locks: LockMap, k: string)
    requires k in locks
    ensures locks.Values == (locks - {k}).Values + {locks[k]}
  {
    forall r | r in locks.Values
      ensures r in (locks - {k}).Values + {locks[k]}
    {
      var l :| l in locks && locks[l] == r;
      assert l != k ==> (locks - {k})[l] == r;
    }
  }

  // ---------------------------------------------------------------- who is next

  predicate ProjectPaused(s: State, t: TaskId)
    requires t in s.tasks
  {
    s.tasks[t].project.Some? && s.tasks[t].project.value in s.pausedProjects
  }

  /** In a claimable state and in the project asked for. */
  predicate Selected(s: State, t: TaskId, project: Option<string>) {
    && t in s.tasks && s.tasks[t].status in READY_TASK_STATES
    && (project.Some? ==> s.tasks[t].project == project)
  }

  predicate HeldBack(s: State, t: TaskId, project: Option<string>) {
    Selected(s, t, project) && ProjectPaused(s, t)
  }

  predicate Offered(s: State, t: TaskId, project: Option<string>) {
    Selected(s, t, project) && !ProjectPaused(s, t) && DependenciesDone(s, t)
  }

  predicate Exhausted(s: State, t: TaskId, project: Option<string>) {
    Offered(s, t, project) && Attempts(s, t) >= s.tasks[t].maxAttempts
  }

  predicate WaitsForWriter(s: State, t: TaskId, project: Option<string>) {
    Offered(s, t, project) && Attempts(s, t) < s.tasks[t].maxAttempts && !WriterFree(s, s.tasks[t].writerKey)
  }

  predicate Eligible(s: State, t: TaskId, project: Option<string>) {
    Offered(s, t, project) && Attempts(s, t) < s.tasks[t].maxAttempts && WriterFree(s, s.tasks[t].writerKey)
  }

  /** All tasks by queue number. */
  predicate InOrder(s: State, rows: seq<TaskId>) {
    && (forall t :: t in rows ==> t in s.tasks)
    && (forall t :: t in s.tasks ==> t in rows)
    && (forall i, j :: 0 <= i < j < |rows| ==> s.tasks[rows[i]].queueSeq < s.tasks[rows[j]].queueSeq)
  }

  datatype Offer = Ready(task: TaskId, attempt: nat) | Busy | ProjectsPaused | NoWork | PausedNow | ProjectPausedNow

  /** The answer the queue owes, independent of any scan: the eligible task with the lowest
      number, or the reason why there is none. */
  ghost predicate Answers(s: State, project: Option<string>, offer: Offer) {
    if s.paused then offer == PausedNow
    else if project.Some? && project.value in s.pausedProjects then offer == ProjectPausedNow
    else
      match offer
      case Ready(t, attempt) =>
        && Eligible(s, t, project) && attempt == Attempts(s, t) + 1
        && (forall u :: Eligible(s, u, project) ==> s.tasks[t].queueSeq <= s.tasks[u].queueSeq)
      case Busy =>
        (forall u :: !Eligible(s, u, project)) && (exists u :: WaitsForWriter(s, u, project))
      case ProjectsPaused =>
        && (forall u :: !Eligible(s, u, project) && !WaitsForWriter(s, u, project))
        && (exists u :: HeldBack(s, u, project))
      case NoWork =>
        forall u :: !Eligible(s, u, project) && !WaitsForWriter(s, u, project) && !HeldBack(s, u, project)
      case _ => false
  }

  /** Two readers that both answer correctly answer the same. */
  lemma AnswerIsUnique(s: State, project: Option<string>, one: Offer, other: Offer)
    requires Queued(s) && Answers(s, project, one) && Answers(s, project, other)
    ensures one == other
  {
  }

  /** What a scan has seen when it reaches row `n` without finding an eligible task. */
  ghost predicate Scanned(s: State, rows: seq<TaskId>, n: nat, project: Option<string>, locked: bool, held: bool) {
    && n <= |rows|
    && (forall i :: 0 <= i < n ==> !Eligible(s, rows[i], project))
    && (locked <==> exists i :: 0 <= i < n && WaitsForWriter(s, rows[i], project))
    && (held <==> exists i :: 0 <= i < n && HeldBack(s, rows[i], project))
  }

  lemma ScanFindsFirst(s: State, rows: seq<TaskId>, n: nat, project: Option<string>, locked: bool, held: bool)
    requires InOrder(s, rows) && Scanned(s, rows, n, project, locked, held) && n < |rows|
    requires Eligible(s, rows[n], project) && !s.paused && (project.Some? ==> project.value !in s.pausedProjects)
    ensures Answers(s, project, Ready(rows[n], Attempts(s, rows[n]) + 1))
  {
  }

  lemma ScanFindsNothing(s: State, rows: seq<TaskId>, project: Option<string>, locked: bool, held: bool)
    requires InOrder(s, rows) && Scanned(s, rows, |rows|, project, locked, held)
    requires !s.paused && (project.Some? ==> project.value !in s.pausedProjects)
    ensures Answers(s, project, if locked then Busy else if held then ProjectsPaused else NoWork)
  {
  }

  lemma ScanStep(s: State, rows: seq<TaskId>, n: nat, project: Option<string>, locked: bool, held: bool)
    requires Scanned(s, rows, n, project, locked, held) && n < |rows| && !Eligible(s, rows[n], project)
    ensures Scanned(s, rows, n + 1, project, locked || WaitsForWriter(s, rows[n], project),
                    held || HeldBack(s, rows[n], project))
  {
  }

  lemma LockMeansTaken(s: State, locks: LockMap, key: string)
    requires IsLockMap(s, locks)
    ensures key in locks <==> !WriterFree(s, key)
  {
  }

  datatype Weight = Take | Exhaust | Locked | Hold | Skip

  /** One row of the scan. */
  method WeighRow(s: State, locks: LockMap, t: TaskId, project: Option<string>) returns (weight: Weight)
    requires t in s.tasks && IsLockMap(s, locks)
    ensures weight == Take <==> Eligible(s, t, project)
    ensures weight == Exhaust <==> Exhausted(s, t, project)
    ensures weight == Locked <==> WaitsForWriter(s, t, project)
    ensures weight == Hold <==> HeldBack(s, t, project)
  {
    LockMeansTaken(s, locks, s.tasks[t].writerKey);
    hide DependenciesDone, Attempts, WriterFree, IsLockMap;
    var task := s.tasks[t];
    if task.status !in READY_TASK_STATES { return Skip; }
    if project.Some? && task.project != project { return Skip; }
    if ProjectPaused(s, t) { return Hold; }
    if !DependenciesDone(s, t) { return Skip; }
    if Attempts(s, t) >= task.maxAttempts { return Exhaust; }
    weight := if task.writerKey in locks then Locked else Take;
  }

  /** `next_work`: one scan of the queue that changes nothing. */
  method NextWork(s: State, rows: seq<TaskId>, reserved: seq<RunId>, project: Option<string>) returns (offer: Offer)
    requires InOrder(s, rows) && IsReserved(s, reserved)
    ensures Answers(s, project, offer)
  {
    if s.paused { return PausedNow; }
    var locks := ActiveWriterLocks(s, reserved);
    if project.Some? && project.value in s.pausedProjects { return ProjectPausedNow; }
    hide Answers, IsLockMap, Eligible, WaitsForWriter, HeldBack, Exhausted, Attempts, IsReserved;
    var locked, held := false, false;
    for i := 0 to |rows|
      invariant Scanned(s, rows, i, project, locked, held)
    {
      hide Scanned;
      assert rows[i] in rows;
      var weight := WeighRow(s, locks, rows[i], project);
      if weight == Take {
        ScanFindsFirst(s, rows, i, project, locked, held);
        return Ready(rows[i], Attempts(s, rows[i]) + 1);
      }
      ScanStep(s, rows, i, project, locked, held);
      locked, held := locked || weight == Locked, held || weight == Hold;
    }
    ScanFindsNothing(s, rows, project, locked, held);
    offer := if locked then Busy else if held then ProjectsPaused else NoWork;
  }

  // ---------------------------------------------------------------- queue labels

  datatype Label = ActiveLabel | PausedLabel | ExhaustedLabel | DependencyLabel | WriterLabel | ReadyLabel
                 | StatusLabel(status: TaskStatus)

  /** What each label says.  A task whose run holds the writer is ACTIVE, whatever else is true; any
      other task that is not ready shows its own status; a ready one the first thing in its way. */
  ghost predicate IsLabel(s: State, t: TaskId, shown: Label)
    requires t in s.tasks
  {
    var task := s.tasks[t];
    var ready := task.status in {Planned, ReadyTask, NeedsFix};
    var paused := exists p :: p in s.pausedProjects && task.project == Some(p);
    var spent := Attempts(s, t) >= task.maxAttempts;
    var waits := exists d :: d in task.dependencies && (d in s.tasks ==> s.tasks[d].status != Done);
    && (Exclusive(s) && (exists r :: HolderOf(s, r, t)) ==> shown == ActiveLabel)
    && match shown
       case ActiveLabel => exists r :: HolderOf(s, r, t)
       case StatusLabel(status) => status == task.status && !ready
       case PausedLabel => ready && paused
       case ExhaustedLabel => ready && !paused && spent
       case DependencyLabel => ready && !paused && !spent && waits
       case WriterLabel => ready && !paused && !spent && !waits && !WriterFree(s, task.writerKey)
       case ReadyLabel => ready && !paused && !spent && !waits && WriterFree(s, task.writerKey)
  }

  lemma LabelsAreExact(s: State, t: TaskId)
    requires t in s.tasks
    ensures ProjectPaused(s, t) <==> exists p :: p in s.pausedProjects && s.tasks[t].project == Some(p)
    ensures !DependenciesDone(s, t) <==>
              exists d :: d in s.tasks[t].dependencies && (d in s.tasks ==> s.tasks[d].status != Done)
    ensures forall shown :: IsLabel(s, t, shown) ==> (shown == ReadyLabel <==> Eligible(s, t, None))
  {
    hide Attempts;
    assert (exists r :: HolderOf(s, r, t)) ==> !WriterFree(s, s.tasks[t].writerKey) by {
      if r :| HolderOf(s, r, t) { assert WriterKey(s, r) == s.tasks[t].writerKey; }
    }
  }

  /** Where writers are exclusive, the keyed map has a task's run if it holds the writer at all. */
  lemma ActiveIsInTheMap(s: State, locks: LockMap, t: TaskId)
    requires t in s.tasks && IsLockMap(s, locks)
    ensures var active := exists k :: k in locks && locks[k] in s.runs && s.runs[locks[k]].taskId == t;
            && (active ==> exists r :: HolderOf(s, r, t))
            && (Exclusive(s) && (exists r :: HolderOf(s, r, t)) ==> active)
  {
    if k :| k in locks && locks[k] in s.runs && s.runs[locks[k]].taskId == t {
      assert HolderOf(s, locks[k], t);
    }
    if r :| HolderOf(s, r, t) {
      var k := WriterKey(s, r);
      assert Holder(s, locks[k]) && WriterKey(s, locks[k]) == k;
    }
  }

  /** One row of `queue_view`.  Its order of tests differs from the claim's; the READY rows are
      the same on every ledger. */
  method QueueState(s: State, t: TaskId, locks: LockMap) returns (shown: Label)
    requires t in s.tasks && IsLockMap(s, locks)
    ensures shown == ReadyLabel <==> Eligible(s, t, None)
    ensures IsLabel(s, t, shown)
  {
    LabelsAreExact(s, t);
    ActiveIsInTheMap(s, locks, t);
    LockMeansTaken(s, locks, s.tasks[t].writerKey);
    var active := exists k :: k in locks && locks[k] in s.runs && s.runs[locks[k]].taskId == t;
    if active {
      assert !WriterFree(s, s.tasks[t].writerKey) by {
        var k :| k in locks && locks[k] in s.runs && s.runs[locks[k]].taskId == t;
        assert Holder(s, locks[k]) && WriterKey(s, locks[k]) == s.tasks[t].writerKey;
      }
      return ActiveLabel;
    }
    if s.tasks[t].status !in READY_TASK_STATES { return StatusLabel(s.tasks[t].status); }
    if ProjectPaused(s, t) { return PausedLabel; }
    if Attempts(s, t) >= s.tasks[t].maxAttempts { return ExhaustedLabel; }
    if !DependenciesDone(s, t) { return DependencyLabel; }
    shown := if s.tasks[t].writerKey in locks then WriterLabel else ReadyLabel;
  }

  datatype Item = Item(task: TaskId, state: Label)

  predicate Asked(s: State, t: TaskId, project: Option<string>) {
    t in s.tasks && (project.Some? ==> s.tasks[t].project == project)
  }

  /** The view of the first `n` rows. */
  ghost predicate Viewed(s: State, rows: seq<TaskId>, n: nat, project: Option<string>, items: seq<Item>) {
    && n <= |rows|
    && (forall k :: 0 <= k < |items| ==> Rightly(s, project, items[k]))
    && (forall k :: 0 <= k < |items| && n < |rows| ==> Earlier(s, items[k].task, rows[n]))
    && (forall j, k :: 0 <= j < k < |items| ==> Earlier(s, items[j].task, items[k].task))
    && (forall j :: 0 <= j < n && Asked(s, rows[j], project) ==> Lists(items, rows[j]))
  }

  predicate Earlier(s: State, t: TaskId, u: TaskId) {
    t in s.tasks && u in s.tasks && s.tasks[t].queueSeq < s.tasks[u].queueSeq
  }

  lemma ViewStep(s: State, rows: seq<TaskId>, n: nat, project: Option<string>, items: seq<Item>, item: Item)
    requires n < |rows| && Viewed(s, rows, n, project, items)
    requires n + 1 < |rows| ==> Earlier(s, rows[n], rows[n + 1])
    requires Asked(s, rows[n], project) ==> item.task == rows[n] && Rightly(s, project, item)
    ensures Viewed(s, rows, n + 1, project, if Asked(s, rows[n], project) then items + [item] else items)
  {
    var longer := if Asked(s, rows[n], project) then items + [item] else items;
    forall k | 0 <= k < |longer| && n + 1 < |rows|
      ensures Earlier(s, longer[k].task, rows[n + 1])
    {
      assert k < |items| ==> Earlier(s, items[k].task, rows[n]);
    }
    forall j | 0 <= j < n + 1 && Asked(s, rows[j], project)
      ensures Lists(longer, rows[j])
    {
      if j < n {
        var k :| 0 <= k < |items| && items[k].task == rows[j];
        assert longer[k].task == rows[j];
      } else {
        assert longer[|items|].task == rows[j];
      }
    }
  }

  /** A row for every task of the project, in queue order. */
  method AllItems(s: State, rows: seq<TaskId>, reserved: seq<RunId>, project: Option<string>) returns (items: seq<Item>)
    requires InOrder(s, rows) && IsReserved(s, reserved)
    ensures IsQueueView(s, project, items)
  {
    var locks := ActiveWriterLocks(s, reserved);
    items := [];
    for i := 0 to |rows|
      invariant Viewed(s, rows, i, project, items)
    {
      hide Viewed, IsLockMap, IsReserved, Eligible;
      var t := rows[i];
      assert t in rows && (i + 1 < |rows| ==> rows[i + 1] in rows);
      if project.Some? && s.tasks[t].project != project {
        ViewStep(s, rows, i, project, items, Item(t, ReadyLabel));
        continue;
      }
      var shownAs := QueueState(s, t, locks);
      ViewStep(s, rows, i, project, items, Item(t, shownAs));
      items := items + [Item(t, shownAs)];
    }
    forall t | Asked(s, t, project)
      ensures Lists(items, t)
    {
      assert t in rows;
    }
  }

  const MAX_QUEUE_LIMIT := 500

  datatype View = View(items: seq<Item>, total: nat, truncated: bool)

  /** The beginning of the full list, cut at the limit. */
  ghost predicate IsView(s: State, project: Option<string>, limit: nat, view: View) {
    exists full :: IsQueueView(s, project, full) && IsCut(full, limit, view)
  }

  predicate IsCut(full: seq<Item>, limit: nat, view: View) {
    && view.items == (if |full| <= limit then full else full[..limit])
    && view.total == |full| && (view.truncated <==> view.items != full)
  }

  /** `queue_view`; `None` for a limit that the program refuses. */
  method QueueView(s: State, rows: seq<TaskId>, reserved: seq<RunId>, project: Option<string>, limit: int)
    returns (view: Option<View>)
    requires InOrder(s, rows) && IsReserved(s, reserved)
    ensures view.Some? <==> 1 <= limit <= MAX_QUEUE_LIMIT
    ensures view.Some? ==> IsView(s, project, limit, view.value)
  {
    if limit < 1 || limit > MAX_QUEUE_LIMIT { return None; }
    var items := AllItems(s, rows, reserved, project);
    var shown := View(if |items| <= limit then items else items[..limit], |items|, |items| > limit);
    assert IsCut(items, limit, shown);
    view := Some(shown);
  }

  ghost predicate Rightly(s: State, project: Option<string>, item: Item) {
    Asked(s, item.task, project) && IsLabel(s, item.task, item.state)
  }

  predicate Lists(items: seq<Item>, t: TaskId) {
    exists k :: 0 <= k < |items| && items[k].task == t
  }

  ghost predicate IsQueueView(s: State, project: Option<string>, items: seq<Item>) {
    && (forall k :: 0 <= k < |items| ==> Rightly(s, project, items[k]))
    && (forall j, k :: 0 <= j < k < |items| ==> Earlier(s, items[j].task, items[k].task))
    && (forall t :: Asked(s, t, project) ==> Lists(items, t))
  }

  predicate FirstReady(items: seq<Item>, i: nat) {
    i < |items| && items[i].state == ReadyLabel && forall j :: 0 <= j < i ==> items[j].state != ReadyLabel
  }

  /** While nothing is paused, the next task is exactly the first one the view shows as READY; a
      view that shows none is complete, or the next task lies beyond its limit. */
  lemma NextIsFirstReady(s: State, project: Option<string>, limit: nat, view: View, offer: Offer)
    requires Queued(s) && IsView(s, project, limit, view) && Answers(s, project, offer)
    requires !s.paused && (project.Some? ==> project.value !in s.pausedProjects)
    ensures forall i: nat :: FirstReady(view.items, i) ==> offer.Ready? && offer.task == view.items[i].task
    ensures offer.Ready? ==> view.truncated || exists i: nat :: FirstReady(view.items, i)
    ensures offer.Ready? ==> (Lists(view.items, offer.task) <==> exists i: nat :: FirstReady(view.items, i))
  {
    hide Answers, Queued, IsQueueView, Lists;
    var full :| IsQueueView(s, project, full) && IsCut(full, limit, view);
    forall i: nat | FirstReady(view.items, i)
      ensures offer.Ready? && offer.task == view.items[i].task
    {
      assert FirstReady(full, i);
      FirstOfAll(s, project, full, offer, i);
    }
    if offer.Ready? {
      var k := FirstExists(s, project, full, offer);
      ListedOnce(s, project, full, view.items, offer.task, k);
      if k < |view.items| { assert FirstReady(view.items, k); }
    }
  }

  lemma ReadyMeansEligible(s: State, project: Option<string>, full: seq<Item>)
    requires IsQueueView(s, project, full)
    ensures forall k :: 0 <= k < |full| ==>
              && Asked(s, full[k].task, project)
              && (full[k].state == ReadyLabel <==> Eligible(s, full[k].task, project))
  {
    hide IsLabel, Attempts, WriterFree, DependenciesDone;
    forall k | 0 <= k < |full|
      ensures Asked(s, full[k].task, project)
      ensures full[k].state == ReadyLabel <==> Eligible(s, full[k].task, project)
    {
      assert Rightly(s, project, full[k]);
      LabelsAreExact(s, full[k].task);
    }
  }

  lemma FirstOfAll(s: State, project: Option<string>, full: seq<Item>, offer: Offer, i: nat)
    requires Queued(s) && IsQueueView(s, project, full) && Answers(s, project, offer) && i < |full|
    requires !s.paused && (project.Some? ==> project.value !in s.pausedProjects)
    ensures FirstReady(full, i) ==> offer.Ready? && offer.task == full[i].task
  {
    ReadyMeansEligible(s, project, full);
    if offer.Ready? && FirstReady(full, i) {
      assert Asked(s, offer.task, project);
      assert Lists(full, offer.task);
      var k :| 0 <= k < |full| && full[k].task == offer.task;
      hide IsLabel, Eligible;
      assert full[k].state == ReadyLabel;
      assert i <= k;
      assert s.tasks[full[k].task].queueSeq <= s.tasks[full[i].task].queueSeq;
      assert i == k || Earlier(s, full[i].task, full[k].task);
    }
  }

  lemma FirstExists(s: State, project: Option<string>, full: seq<Item>, offer: Offer) returns (k: nat)
    requires IsQueueView(s, project, full) && Answers(s, project, offer) && offer.Ready?
    requires !s.paused && (project.Some? ==> project.value !in s.pausedProjects)
    ensures FirstReady(full, k) && full[k].task == offer.task
  {
    ReadyMeansEligible(s, project, full);
    assert Asked(s, offer.task, project);
    assert Lists(full, offer.task);
    k :| 0 <= k < |full| && full[k].task == offer.task;
    hide IsLabel, Eligible;
    forall j | 0 <= j < k
      ensures full[j].state != ReadyLabel
    {
      assert Earlier(s, full[j].task, full[k].task);
    }
  }

  /** A task stands in the list once, so a cut shows it exactly when it reaches it. */
  lemma ListedOnce(s: State, project: Option<string>, full: seq<Item>, shown: seq<Item>, t: TaskId, k: nat)
    requires IsQueueView(s, project, full) && shown <= full && k < |full| && full[k].task == t
    ensures Lists(shown, t) <==> k < |shown|
  {
    if k < |shown| { assert shown[k].task == t; }
    forall i | 0 <= i < |shown| && shown[i].task == t
      ensures i == k
    {
      assert i < k ==> Earlier(s, full[i].task, full[k].task);
      assert k < i ==> Earlier(s, full[k].task, full[i].task);
    }
  }
}
