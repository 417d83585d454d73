/** The closure gate across the ledger, the process log and the patch records: a run leaves
    RUNNING only with all its work ended, and never gets new work afterwards. */
module ClosureGate {
  import opened Common
  import opened LedgerState
  import opened Ledger
  import opened Queue
  import opened PatchRecords
  import opened ProcessStore
  import opened ProcessAdmission

  datatype Op = Op(run: RunId, id: string)

  /** `lock` is the runtime lock with the patch operation that holds it; every other call takes
      and frees it within one step.  `armed` are the runs whose capability file was written. */
  datatype World = World(
    ledger: State,
    log: Log,
    patches: map<Op, Records>,
    lock: Option<Op>,
    armed: set<RunId>)

  predicate IsRunning(s: State, r: RunId) {
    r in s.runs && s.runs[r].state == Running
  }

  predicate Unterminated(records: Records) {
    records.dispatch.Some? && records.result.None?
  }

  // ---------------------------------------------------------------- invariant

  ghost predicate OpenMeansRunning(log: Log, s: State, armed: set<RunId>) {
    && (forall i: nat :: i < |log| && log[i].payload.Dispatch? ==> log[i].runId in armed)
    && (forall i: nat :: OpenAt(log, i) ==> IsRunning(s, log[i].runId))
  }

  ghost predicate Within(log: Log, perRun: nat, total: nat) {
    (forall r :: |OpenOf(log, r)| <= perRun) && |AllOpen(log)| <= total
  }

  ghost predicate PatchesGated(patches: map<Op, Records>, s: State, armed: set<RunId>) {
    forall op :: op in patches ==>
      op.run in armed && op.run in s.runs && (Unterminated(patches[op]) ==> IsRunning(s, op.run))
  }

  ghost predicate LogGated(log: Log, s: State, armed: set<RunId>, perRun: nat, total: nat) {
    WellKept(log, s) && AcksFit(log, s) && OpenMeansRunning(log, s, armed) && Within(log, perRun, total)
  }

  ghost predicate HomeInv(w: World, perRun: nat, total: nat) {
    && Inv(w.ledger)
    && LogGated(w.log, w.ledger, w.armed, perRun, total)
    && PatchesGated(w.patches, w.ledger, w.armed)
    && (w.lock.Some? ==> IsRunning(w.ledger, w.lock.value.run) && w.lock.value.run in w.armed)
  }

  /** All patches of the run have a result, all its processes an exit. */
  ghost predicate Closed(w: World, r: RunId) {
    && (forall op :: op in w.patches && op.run == r ==> !Unterminated(w.patches[op]))
    && (forall i: nat :: !(OpenAt(w.log, i) && w.log[i].runId == r))
  }

  /** A ledger without process rows and patches satisfies the gate. */
  lemma NothingDispatched(s: State, perRun: nat, total: nat)
    requires Inv(s)
    ensures HomeInv(World(s, [], map[], None, {}), perRun, total)
  {
  }

  /** The gate: whatever is not RUNNING any more is closed. */
  lemma LeftRunningIsClosed(w: World, perRun: nat, total: nat, r: RunId)
    requires HomeInv(w, perRun, total) && r in w.ledger.runs && w.ledger.runs[r].state != Running
    ensures Closed(w, r)
  {
  }

  /** Later states add no dispatch to a run that has left RUNNING, and change none of its patches. */
  ghost predicate NoLaterWork(before: World, after: World) {
    && before.log <= after.log
    && (forall r :: r in before.ledger.runs && !IsRunning(before.ledger, r) ==> Untouched(before, after, r))
  }

  ghost predicate Untouched(before: World, after: World, r: RunId) {
    && (forall i: nat :: |before.log| <= i < |after.log| && after.log[i].runId == r ==> !after.log[i].payload.Dispatch?)
    && (forall op: Op :: op.run == r ==> (op in after.patches <==> op in before.patches))
    && (forall op: Op :: op.run == r && op in before.patches && op in after.patches ==>
          after.patches[op] == before.patches[op])
  }

  lemma NoLaterWorkIsTransitive(a: World, b: World, c: World)
    requires Keeps(a.ledger, b.ledger) && NoLaterWork(a, b) && NoLaterWork(b, c)
    ensures NoLaterWork(a, c)
  {
  }

  // ---------------------------------------------------------------- ledger transactions that take no lock

  /** Armed runs that were RUNNING still are, except possibly `but`. */
  ghost predicate StayRunning(s: State, after: State, armed: set<RunId>, but: Option<RunId>) {
    forall r :: r in armed && IsRunning(s, r) && but != Some(r) ==> IsRunning(after, r)
  }

  lemma WritingElsewhere(s: State, r: RunId, run: Run, status: TaskStatus, armed: set<RunId>)
    requires r in s.runs && s.runs[r].taskId in s.tasks
    ensures StayRunning(s, Wrote(s, r, run, status), armed, Some(r))
    ensures s.runs[r].state != Running || r !in armed ==> StayRunning(s, Wrote(s, r, run, status), armed, None)
  {
  }

  lemma ClaimsEndNothing(before: State, after: State, project: Option<string>, r: RunId, lease: string, admitted: bool,
                         offer: Offer, claimed: bool, armed: set<RunId>)
    requires ClaimLeaves(before, after, project, r, lease, admitted, offer, claimed)
    ensures StayRunning(before, after, armed, None)
  {
    hide Answers, ExhaustedBefore, Attempts;
  }

  /** Claims, verdicts, reviews, completion, plans and settings: everything but submit, quiesce
      and abort.  The capability handler only ends runs whose capability was never written. */
  method UngatedClaims(l: Ledger, armed: set<RunId>)
    requires Inv(l.s)
    modifies l
    ensures Inv(l.s) && Keeps(old(l.s), l.s) && StayRunning(old(l.s), l.s, armed, None)
  {
    hide Inv, Keeps, Answers, InOrder, IsReserved, Repairable, Grantable, ClaimLeaves, Wrote, Attempts;
    KeepsIsReflexive(l.s);
    var choice: nat, r: RunId, prior: RunId, t: TaskId, text: string, n: nat := *, *, *, *, *, *;
    var one: bool, two: bool, project: Option<string> := *, *, *;
    if choice == 0 {
      var rows: seq<TaskId>, reserved: seq<RunId> := *, *;
      if InOrder(l.s, rows) && IsReserved(l.s, reserved) {
        var offer, claimed := l.Claim(rows, reserved, project, r, text, one);
        ClaimsEndNothing(old(l.s), l.s, project, r, text, one, offer, claimed, armed);
      }
    } else if choice == 1 {
      var _ := l.ClaimRepair(prior, project, r, text, one);
    } else if choice == 2 {
      var _ := l.ClaimGranted(t, n, r, text, one, two);
    } else if choice == 3 {
      if StillAbortable(l.s, r) && r in l.s.runs && (r !in armed || l.s.runs[r].state != Running) {
        RunIsBacked(l.s, r);
        WritingElsewhere(l.s, r, l.s.runs[r].(state := Aborted), BlockedTask, armed);
        l.CapabilityFailed(r);
      }
    } else if choice == 4 {
      var _ := l.RecordCheckpoint(r, text);
    } else if choice == 5 {
      var plan: Plan := *;
      if IsTop(l.s, n) { var _ := l.LoadPlan(plan, n, one); }
    } else if choice == 6 {
      var task: Task := *;
      if IsTop(l.s, n) && Replaced(l.s, l.readmissions) { var _ := l.Readmit(prior, r, t, task, text, n, one, two); }
    } else if choice == 7 {
      var projects: set<string> := *;
      l.SetPauses(one, projects);
    } else if choice == 8 {
      var _ := l.CancelTask(t);
    }
  }

  /** A publisher may act on an older reading, `seen`. */
  method UngatedVerdicts(l: Ledger, seen: State, armed: set<RunId>)
    requires Inv(l.s) && Keeps(seen, l.s)
    modifies l
    ensures Inv(l.s) && Keeps(old(l.s), l.s) && StayRunning(old(l.s), l.s, armed, None)
  {
    hide Inv, Keeps, Wrote, Judged;
    KeepsIsReflexive(l.s);
    var choice: nat, r: RunId, text: string, one: bool := *, *, *, *;
    if r !in l.s.runs { return; }
    RunIsBacked(l.s, r);
    if choice == 0 {
      WritingElsewhere(l.s, r, l.s.runs[r].(state := RunBlocked), BlockedTask, armed);
      var _ := l.BlockVerification(r);
    } else if choice == 1 {
      var verdict: Verdict := *;
      WritingElsewhere(l.s, r, Judged(l.s.runs[r], verdict, text), JudgedStatus(verdict), armed);
      if Level(l.s.runs[r].state) >= Level(Verifying) && VerdictHarmless(l.s, r, verdict, text) {
        l.CommitVerdict(r, verdict, text);
      }
    } else if choice == 2 {
      WritingElsewhere(l.s, r, l.s.runs[r].(state := Verified, review := Accepted), ReadyToPublish, armed);
      WritingElsewhere(l.s, r, l.s.runs[r].(state := RunNeedsFix, review := Rejected), NeedsFix, armed);
      WritingElsewhere(l.s, r, l.s.runs[r].(state := RunNeedsFix, review := Rejected), BlockedTask, armed);
      var verdict: ReviewVerdict := *;
      var _ := l.ImportReview(r, text, verdict);
    } else if choice == 3 {
      var _ := l.Approve(r, one);
    } else if choice == 4 {
      WritingElsewhere(l.s, r, l.s.runs[r].(state := RunComplete), Done, armed);
      var _ := l.Complete(r, one);
    } else if choice == 5 {
      l.DropPublication(r);
    } else if MayPublish(seen, r) {
      StillPublishable(seen, l.s, r);
      WritingElsewhere(l.s, r, l.s.runs[r].(state := RunComplete), Done, armed);
      if choice == 6 {
        l.StartPublishing(r, seen);
      } else {
        l.FinalizePublication(r, seen);
      }
    }
  }

  // ---------------------------------------------------------------- how the log follows the ledger

  lemma WellFollows(log: Log, s: State, after: State)
    requires Known(s) && Keeps(s, after) && WellKept(log, s)
    ensures WellKept(log, after)
  {
  }

  lemma AcksFollow(log: Log, s: State, after: State)
    requires Keeps(s, after) && WellKept(log, s) && AcksFit(log, s)
    ensures AcksFit(log, after)
  {
  }

  /** A ledger transaction leaves the log gated if it ends only runs without open processes. */
  lemma LogFollows(log: Log, s: State, after: State, armed: set<RunId>, perRun: nat, total: nat, but: Option<RunId>)
    requires Known(s) && Keeps(s, after) && LogGated(log, s, armed, perRun, total) && StayRunning(s, after, armed, but)
    requires but.Some? ==> OpenOf(log, but.value) == {}
    ensures LogGated(log, after, armed, perRun, total)
  {
    hide RunKept, TaskKept, WellKept, AcksFit, Within, Ended, Keeps;
    WellFollows(log, s, after);
    AcksFollow(log, s, after);
    forall i: nat | OpenAt(log, i)
      ensures IsRunning(after, log[i].runId)
    {
      if but.Some? { OpenOfRun(log, s, but.value); }
      OpenIsDispatch(log, i);
    }
  }

  lemma OpenIsDispatch(log: Log, i: nat)
    requires OpenAt(log, i)
    ensures i < |log| && log[i].payload.Dispatch?
  {
  }

  lemma PatchesFollow(patches: map<Op, Records>, s: State, after: State, armed: set<RunId>, but: Option<RunId>)
    requires Keeps(s, after) && PatchesGated(patches, s, armed) && StayRunning(s, after, armed, but)
    requires forall op :: op in patches && but == Some(op.run) ==> !Unterminated(patches[op])
    ensures PatchesGated(patches, after, armed)
  {
  }

  // ---------------------------------------------------------------- appended rows and the gate

  lemma OpenSetsAfter(log: Log, s: State, e: Event)
    requires WellKept(log, s) && Recorded(e) && !e.payload.Exit?
    ensures AllOpen(log + [e]) == if e.payload.Dispatch? then AllOpen(log) + {|log|} else AllOpen(log)
  {
    hide WellKept, OpenAt;
    forall i: nat
      ensures i in AllOpen(log + [e]) <==> (i == |log| && e.payload.Dispatch?) || i in AllOpen(log)
    {
      OpenAfter(log, s, e, i);
      if OpenAt(log, i) { OpenIsDispatch(log, i); }
      if OpenAt(log + [e], i) { OpenIsDispatch(log + [e], i); }
    }
  }

  lemma OpenOfAfter(log: Log, s: State, e: Event, r: RunId)
    requires WellKept(log, s) && WellKept(log + [e], s) && Recorded(e)
    ensures OpenOf(log + [e], r)
            <= if e.payload.Dispatch? && e.runId == r then OpenOf(log, r) + {|log|} else OpenOf(log, r)
    ensures !e.payload.Dispatch? ==> OpenOf(log + [e], r) <= OpenOf(log, r)
  {
    hide WellKept, OpenAt, OpenOf;
    OpenOfRun(log, s, r);
    OpenOfRun(log + [e], s, r);
    forall i: nat | i in OpenOf(log + [e], r)
      ensures i in OpenOf(log, r) || (e.payload.Dispatch? && e.runId == r && i == |log|)
    {
      OpenAfter(log, s, e, i);
      if OpenAt(log, i) { OpenIsDispatch(log, i); }
    }
  }

  lemma AllOpenShrinks(log: Log, s: State, e: Event)
    requires WellKept(log, s) && !e.payload.Dispatch?
    ensures AllOpen(log + [e]) <= AllOpen(log)
  {
    hide WellKept, OpenAt;
    forall i: nat | i in AllOpen(log + [e])
      ensures i in AllOpen(log)
    {
      OpenAfter(log, s, e, i);
      if OpenAt(log, i) { OpenIsDispatch(log, i); }
    }
  }

  lemma WithinAfter(log: Log, s: State, e: Event, perRun: nat, total: nat)
    requires WellKept(log, s) && WellKept(log + [e], s) && Recorded(e) && Within(log, perRun, total)
    requires e.payload.Dispatch? ==> |OpenOf(log, e.runId)| < perRun && |AllOpen(log)| < total
    ensures Within(log + [e], perRun, total)
  {
    hide WellKept, OpenOf, AllOpen;
    forall r
      ensures |OpenOf(log + [e], r)| <= perRun
    {
      OpenOfAfter(log, s, e, r);
      if e.payload.Dispatch? && e.runId == r {
        SubsetSize(OpenOf(log + [e], r), OpenOf(log, r) + {|log|});
      } else {
        SubsetSize(OpenOf(log + [e], r), OpenOf(log, r));
      }
    }
    if e.payload.Dispatch? {
      OpenSetsAfter(log, s, e);
    } else {
      AllOpenShrinks(log, s, e);
      SubsetSize(AllOpen(log + [e]), AllOpen(log));
    }
  }

  lemma OpenMeansRunningAfter(log: Log, s: State, e: Event, armed: set<RunId>)
    requires WellKept(log, s) && OpenMeansRunning(log, s, armed)
    requires e.payload.Dispatch? ==> e.runId in armed && IsRunning(s, e.runId)
    ensures OpenMeansRunning(log + [e], s, armed)
  {
    hide WellKept, Ended;
    var longer := log + [e];
    forall i: nat | OpenAt(longer, i)
      ensures IsRunning(s, longer[i].runId)
    {
      OpenAfter(log, s, e, i);
      if OpenAt(log, i) { OpenIsDispatch(log, i); }
    }
    forall i: nat | i < |longer| && longer[i].payload.Dispatch?
      ensures longer[i].runId in armed
    {
    }
  }

  lemma AcksFitAfter(log: Log, s: State, e: Event)
    requires AcksFit(log, s) && Recorded(e)
    requires e.payload.Ack? ==> e.runId in s.runs && |Acks(log, |log|, e.runId)| < AckBudget(s.runs[e.runId].state)
    ensures AcksFit(log + [e], s)
  {
    hide Acks;
    forall r | r in s.runs
      ensures |Acks(log + [e], |log + [e]|, r)| <= AckBudget(s.runs[r].state)
    {
      AcksAfter(log, e, r);
      assert |log + [e]| == |log| + 1;
    }
  }

  /** A good row that dispatches only within the limits keeps the log gated. */
  lemma AppendIsGated(log: Log, s: State, e: Event, armed: set<RunId>, perRun: nat, total: nat)
    requires LogGated(log, s, armed, perRun, total)
    requires Recorded(e) && e.runId in s.runs && RowOk(log + [e], |log|, e.runId, BindingOf(s, e.runId))
    requires e.payload.Dispatch? ==>
               && e.runId in armed && IsRunning(s, e.runId)
               && |OpenOf(log, e.runId)| < perRun && |AllOpen(log)| < total
    requires e.payload.Ack? ==> |Acks(log, |log|, e.runId)| < AckBudget(s.runs[e.runId].state)
    ensures LogGated(log + [e], s, armed, perRun, total)
  {
    hide WellKept, AcksFit, OpenMeansRunning, Within, OpenOf, AllOpen, RowOk;
    AppendingKeepsWell(log, s, e);
    WithinAfter(log, s, e, perRun, total);
    OpenMeansRunningAfter(log, s, e, armed);
    AcksFitAfter(log, s, e);
  }

  /** From one state to a later one: nothing taken back, no work for runs that had ended theirs. */
  ghost predicate Stepped(before: World, after: World) {
    Keeps(before.ledger, after.ledger) && NoLaterWork(before, after)
  }

  lemma StandingStill(w: World)
    ensures Stepped(w, w)
  {
    KeepsIsReflexive(w.ledger);
  }

  lemma SteppedIsTransitive(a: World, b: World, c: World)
    requires Stepped(a, b) && Stepped(b, c)
    ensures Stepped(a, c)
  {
    hide Keeps, NoLaterWork;
    KeepsIsTransitive(a.ledger, b.ledger, c.ledger);
    NoLaterWorkIsTransitive(a, b, c);
  }

  lemma LedgerStep(w: World, after: State, perRun: nat, total: nat)
    requires HomeInv(w, perRun, total) && Inv(after) && Keeps(w.ledger, after)
    requires StayRunning(w.ledger, after, w.armed, None)
    ensures HomeInv(w.(ledger := after), perRun, total) && Stepped(w, w.(ledger := after))
  {
    hide LogGated, PatchesGated, Keeps, Inv;
    assert Known(w.ledger) by { Knowing(w.ledger); }
    LogFollows(w.log, w.ledger, after, w.armed, perRun, total, None);
    PatchesFollow(w.patches, w.ledger, after, w.armed, None);
  }

  lemma Knowing(s: State)
    requires Inv(s)
    ensures Known(s)
  {
  }

  lemma ArmStep(w: World, r: RunId, perRun: nat, total: nat)
    requires HomeInv(w, perRun, total)
    ensures HomeInv(w.(armed := w.armed + {r}), perRun, total) && Stepped(w, w.(armed := w.armed + {r}))
  {
    hide Inv, WellKept, AcksFit, Within, Keeps;
    KeepsIsReflexive(w.ledger);
  }

  lemma PatchStep(w: World, op: Op, records: Records, lock: Option<Op>, perRun: nat, total: nat)
    requires HomeInv(w, perRun, total) && IsRunning(w.ledger, op.run) && op.run in w.armed
    requires lock in {None, Some(op)}
    ensures var after := w.(patches := w.patches[op := records], lock := lock);
            && HomeInv(after, perRun, total)
            && Stepped(w, after)
  {
    hide Inv, LogGated, Keeps;
    KeepsIsReflexive(w.ledger);
  }

  lemma LockStep(w: World, lock: Option<Op>, perRun: nat, total: nat)
    requires HomeInv(w, perRun, total)
    requires lock.Some? ==> IsRunning(w.ledger, lock.value.run) && lock.value.run in w.armed
    ensures HomeInv(w.(lock := lock), perRun, total) && Stepped(w, w.(lock := lock))
  {
    hide Inv, LogGated, PatchesGated, Keeps;
    KeepsIsReflexive(w.ledger);
  }

  lemma RowStep(w: World, e: Event, perRun: nat, total: nat)
    requires HomeInv(w, perRun, total)
    requires Recorded(e) && e.runId in w.ledger.runs
    requires RowOk(w.log + [e], |w.log|, e.runId, BindingOf(w.ledger, e.runId))
    requires e.payload.Dispatch? ==>
               && e.runId in w.armed && IsRunning(w.ledger, e.runId)
               && |OpenOf(w.log, e.runId)| < perRun && |AllOpen(w.log)| < total
    requires !e.payload.Ack?
    ensures HomeInv(w.(log := w.log + [e]), perRun, total) && Stepped(w, w.(log := w.log + [e]))
  {
    hide Inv, LogGated, PatchesGated, Keeps, RowOk, OpenOf, AllOpen;
    AppendIsGated(w.log, w.ledger, e, w.armed, perRun, total);
    KeepsIsReflexive(w.ledger);
  }

  /** Leaving RUNNING, or closing once more, with everything of the run ended. */
  lemma LeavingStep(w: World, r: RunId, after: State, ack: Option<Event>, perRun: nat, total: nat)
    requires HomeInv(w, perRun, total) && w.lock.None?
    requires Inv(after) && Keeps(w.ledger, after) && StayRunning(w.ledger, after, w.armed, Some(r))
    requires r in w.ledger.runs && r in after.runs
    requires AckBudget(w.ledger.runs[r].state) < AckBudget(after.runs[r].state)
    requires OpenOf(w.log, r) == {} && forall op :: op in w.patches && op.run == r ==> !Unterminated(w.patches[op])
    requires ack.Some? ==> IsAckOf(w.log, w.ledger, r, ack.value)
    ensures var now := w.(ledger := after, log := if ack.Some? then w.log + [ack.value] else w.log);
            HomeInv(now, perRun, total) && Stepped(w, now)
  {
    hide Inv, PatchesGated, Keeps, RowOk, OpenOf, AllOpen, WellKept, OpenMeansRunning, Within, RunKept, TaskKept, Acks;
    assert Known(w.ledger) by { Knowing(w.ledger); }
    LogFollows(w.log, w.ledger, after, w.armed, perRun, total, Some(r));
    PatchesFollow(w.patches, w.ledger, after, w.armed, Some(r));
    BindingsNeverChange(w.ledger, after, r);
    if ack.Some? {
      AppendIsGated(w.log, after, ack.value, w.armed, perRun, total);
    }
  }

  /** The links name every dispatch of the run, in order. */
  ghost predicate LinksAll(log: Log, r: RunId, links: seq<Link>) {
    && (forall k: nat :: k < |log| && DispatchAt(log, k, r) ==> exists i :: 0 <= i < |links| && links[i].intentSeq == k)
    && (forall i, j :: 0 <= i < j < |links| ==> links[i].intentSeq < links[j].intentSeq)
  }

  /** A closure row that acknowledges the exits of all the run's dispatches. */
  ghost predicate IsAckOf(log: Log, s: State, r: RunId, e: Event) {
    && Recorded(e) && e.runId == r && e.payload.Ack? && LinksAll(log, r, e.payload.links)
    && RowOk(log + [e], |log|, r, BindingOf(s, r))
  }

  /** The log gains exactly the closure row of the run, if it ever dispatched a process. */
  ghost predicate Acknowledged(before: World, after: World, r: RunId) {
    if Dispatches(before.log, |before.log|, r) == {} then after.log == before.log
    else exists e :: after.log == before.log + [e] && IsAckOf(before.log, before.ledger, r, e)
  }

  /** The closure row links every dispatch to its exit. */
  function AckOf(log: Log, s: State, r: RunId, intents: seq<nat>, terminals: map<nat, nat>): Event
    requires forall k :: k in intents ==> DispatchAt(log, k, r) && k in terminals
    requires forall k :: k in terminals ==> Ends(log, terminals[k], k, r)
  {
    var links := seq(|intents|, i requires 0 <= i < |intents| =>
      assert intents[i] in intents && Ends(log, terminals[intents[i]], intents[i], r);
      LinkOf(log, intents[i], terminals[intents[i]], r));
    Event(BindingOf(s, r).taskId, r, Ack(BindingOf(s, r), links))
  }

  lemma AckIsOk(log: Log, s: State, r: RunId, intents: seq<nat>, terminals: map<nat, nat>)
    requires 1 <= |intents| <= MAX_DISPATCHES && Rising(intents) && BindingOf(s, r).runId == r
    requires forall k: nat :: k in intents <==> k < |log| && DispatchAt(log, k, r)
    requires forall k :: k in intents ==> DispatchAt(log, k, r) && k in terminals
    requires forall k :: k in terminals ==> Ends(log, terminals[k], k, r)
    ensures IsAckOf(log, s, r, AckOf(log, s, r, intents, terminals))
  {
    AckLinksAll(log, s, r, intents, terminals);
    hide LinksAll, BindingOf;
    var e := AckOf(log, s, r, intents, terminals);
    var links := e.payload.links;
    forall i | 0 <= i < |links|
      ensures LinkOk(log + [e], |log|, r, links[i])
    {
      assert intents[i] in intents && Ends(log, terminals[intents[i]], intents[i], r);
      assert links[i] == LinkOf(log, intents[i], terminals[intents[i]], r);
    }
    assert forall i :: 0 <= i < |intents| ==> links[i].intentSeq == intents[i];
    assert LinksOk(log + [e], |log|, r, links);
  }

  lemma AckLinksAll(log: Log, s: State, r: RunId, intents: seq<nat>, terminals: map<nat, nat>)
    requires Rising(intents)
    requires forall k: nat :: k in intents <==> k < |log| && DispatchAt(log, k, r)
    requires forall k :: k in intents ==> DispatchAt(log, k, r) && k in terminals
    requires forall k :: k in terminals ==> Ends(log, terminals[k], k, r)
    ensures LinksAll(log, r, AckOf(log, s, r, intents, terminals).payload.links)
  {
    hide DispatchAt, Ends, BindingOf;
    var links := AckOf(log, s, r, intents, terminals).payload.links;
    assert forall i :: 0 <= i < |intents| ==> links[i].intentSeq == intents[i];
    forall k: nat | k < |log| && DispatchAt(log, k, r)
      ensures exists i :: 0 <= i < |links| && links[i].intentSeq == k
    {
      var i :| 0 <= i < |intents| && intents[i] == k;
      assert links[i].intentSeq == k;
    }
  }

  lemma AllEnded(log: Log, s: State, r: RunId, intents: seq<nat>, terminals: map<nat, nat>)
    requires WellKept(log, s)
    requires |intents| == |Dispatches(log, |log|, r)| && |terminals| == |Exits(log, |log|, r)|
    requires forall k: nat :: k in intents <==> k < |log| && DispatchAt(log, k, r)
    requires forall k: nat :: k in terminals <==> Ended(log, |log|, k, r)
    ensures |intents| == |terminals| <==> OpenOf(log, r) == {}
    ensures OpenOf(log, r) == {} ==> forall k :: k in intents ==> k in terminals
    ensures |intents| <= MAX_DISPATCHES
  {
    hide WellKept, RowsOk, Ended, OpenOf, OpenAt, Dispatches, Exits, Rows, Acks, EndedStarts, BindingOf, DispatchAt;
    RowsOfRun(log, s, r);
    Census(log, |log|, r, BindingOf(s, r));
    OpenOfRun(log, s, r);
    if OpenOf(log, r) == {} {
      forall k | k in intents
        ensures k in terminals
      {
        NoneOpen(log, r, k);
      }
    }
  }

  lemma NoneOpen(log: Log, r: RunId, k: nat)
    requires OpenOf(log, r) == {} && k < |log| && DispatchAt(log, k, r)
    ensures Ended(log, |log|, k, r)
  {
    hide Ended;
    assert k in Dispatches(log, |log|, r) && k !in OpenOf(log, r);
  }

  datatype Answer = Did | Refused | Unconfirmed

  class Home {
    const perRun: nat
    const total: nat
    var w: World
    var seen: State

    /** The gate, and an older ledger state that some publisher may still act on. */
    ghost predicate Valid()
      reads this
    {
      HomeInv(w, perRun, total) && Keeps(seen, w.ledger)
    }

    constructor (perRun: nat, total: nat, w: World)
      requires HomeInv(w, perRun, total)
      ensures Valid() && this.w == w && this.perRun == perRun && this.total == total
    {
      this.perRun, this.total, this.w, this.seen := perRun, total, w, w.ledger;
      new;
      KeepsIsReflexive(w.ledger);
    }

    /** The world moves on; the older reading stays an older reading. */
    method Become(now: World)
      requires Valid() && HomeInv(now, perRun, total) && Stepped(w, now)
      modifies this
      ensures Valid() && w == now && Stepped(old(w), w)
    {
      hide HomeInv, Keeps, NoLaterWork;
      KeepsIsTransitive(seen, w.ledger, now.ledger);
      w := now;
    }

    method Observe()
      requires Valid()
      modifies this`seen
      ensures Valid() && seen == w.ledger
    {
      hide HomeInv, Keeps;
      KeepsIsReflexive(w.ledger);
      seen := w.ledger;
    }

    /** The claimer writes the capability file of its run. */
    method Arm(r: RunId)
      requires Valid()
      modifies this
      ensures Valid() && Stepped(old(w), w) && w == old(w).(armed := old(w).armed + {r})
    {
      ArmStep(w, r, perRun, total);
      Become(w.(armed := w.armed + {r}));
    }

    /** Any ledger transaction that takes no runtime lock. */
    method OtherTransaction(verdict: bool)
      requires Valid()
      modifies this
      ensures Valid() && Stepped(old(w), w) && w == old(w).(ledger := w.ledger)
    {
      hide Inv, Keeps, StayRunning, LogGated, PatchesGated, NoLaterWork;
      var l := new Ledger(w.ledger);
      if verdict {
        UngatedVerdicts(l, seen, w.armed);
      } else {
        UngatedClaims(l, w.armed);
      }
      LedgerStep(w, l.s, perRun, total);
      Become(w.(ledger := l.s));
    }

    // -------------------------------------------------------------- patches, under the runtime lock

    /** A patch call takes the lock and then checks the session: a RUNNING run and its capability. */
    method BeginPatch(op: Op) returns (ok: bool)
      requires Valid()
      modifies this
      ensures Valid() && Stepped(old(w), w)
      ensures ok <==> old(w).lock.None? && IsRunning(old(w).ledger, op.run) && op.run in old(w).armed
      ensures w == if ok then old(w).(lock := Some(op)) else old(w)
    {
      hide HomeInv, Stepped;
      StandingStill(w);
      if w.lock.Some? || !IsRunning(w.ledger, op.run) || op.run !in w.armed { return false; }
      LockStep(w, Some(op), perRun, total);
      Become(w.(lock := Some(op)));
      ok := true;
    }

    /** Any record the call appends: it only extends the operation's chain. */
    method AppendPatchRecord(records: Records) returns (ok: bool)
      requires Valid()
      modifies this
      ensures Valid() && Stepped(old(w), w)
      ensures ok <==> old(w).lock.Some?
                      && (old(w).lock.value in old(w).patches ==> Extends(old(w).patches[old(w).lock.value], records))
      ensures w == if ok then old(w).(patches := old(w).patches[old(w).lock.value := records]) else old(w)
    {
      hide Inv, LogGated, PatchesGated, Stepped;
      StandingStill(w);
      if w.lock.None? { return false; }
      var op := w.lock.value;
      if op in w.patches && !Extends(w.patches[op], records) { return false; }
      PatchStep(w, op, records, w.lock, perRun, total);
      Become(w.(patches := w.patches[op := records]));
      ok := true;
    }

    /** The call returns, or its process dies: either way the lock is free again. */
    method EndPatch()
      requires Valid()
      modifies this
      ensures Valid() && Stepped(old(w), w) && w == old(w).(lock := None)
    {
      hide HomeInv, Stepped;
      LockStep(w, None, perRun, total);
      Become(w.(lock := None));
    }

    // -------------------------------------------------------------- processes

    /** A start at the owner of a run's processes: its session needs the run's capability, then
        the dispatch transaction decides.  The commit and its read-back may each fail: then the
        answer is Unconfirmed and the row may or may not exist. */
    method DispatchProcess(start: Start, runs: seq<RunId>, committed: bool, confirmed: bool) returns (a: Answer)
      requires Valid() && ListsRuns(w.log, runs) && forall r :: r in runs ==> r in w.ledger.runs
      modifies this
      ensures Valid() && Stepped(old(w), w)
      ensures a == Refused <==> !(start.binding.runId in old(w).armed && Dispatchable(old(w), start, perRun, total))
      ensures a == Did <==> a != Refused && committed && confirmed
      ensures w == if a != Refused && committed then old(w).(log := old(w).log + [StartRow(start)]) else old(w)
      ensures a == Did ==> |OpenOf(w.log, start.binding.runId)| <= perRun && |AllOpen(w.log)| <= total
      ensures a == Did ==>
                var row := w.log[|old(w).log|];
                && |w.log| == |old(w).log| + 1 && row.runId == start.binding.runId
                && row.payload.Dispatch? && row.payload.start == start
    {
      hide Inv, LogGated, Stepped, RowOk, OpenOf, AllOpen, NoLaterWork, Dispatchable;
      StandingStill(w);
      var r := start.binding.runId;
      if r !in w.armed { return Refused; }
      var capacity := CheckCapacity(start, runs);
      if !capacity { return Refused; }
      if !committed { return Unconfirmed; }
      DispatchIsOk(w, start, perRun, total);
      RowStep(w, StartRow(start), perRun, total);
      Become(w.(log := w.log + [StartRow(start)]));
      FitsLimits(w, perRun, total, r);
      a := if confirmed then Did else Unconfirmed;
    }

    /** The run is the last attempt at its task, and the writer's reserved runs are this one. */
    method OwnsTheWriter(r: RunId) returns (ok: bool)
      requires r in w.ledger.runs
      ensures ok <==> OnlyWriter(w.ledger, r)
    {
      var s := w.ledger;
      if exists q :: q in s.runs && s.runs[q].taskId == s.runs[r].taskId && s.runs[q].attempt > s.runs[r].attempt {
        return false;
      }
      ok := !exists q :: q in s.runs && q != r && s.runs[q].state in WRITER_LOCK_RUN_STATES
                         && WriterKey(s, q) == WriterKey(s, r);
    }

    /** The checks of the dispatch transaction, with the counts taken from the validated chains. */
    method CheckCapacity(start: Start, runs: seq<RunId>) returns (ok: bool)
      requires Valid() && ListsRuns(w.log, runs) && forall r :: r in runs ==> r in w.ledger.runs
      ensures ok <==> Dispatchable(w, start, perRun, total)
    {
      hide Inv, WellKept, AcksFit, Within, OpenMeansRunning, PatchesGated, Keeps, ProcessStore.ValidChain, OpenOf,
           AllOpen, Dispatches, Exits,
           OnlyWriter, StatusOf, OpenAt, Ended, Ends;
      var r := start.binding.runId;
      if w.lock.Some? || !IsRunning(w.ledger, r) { return false; }
      if BindingOf(w.ledger, r) != start.binding || StatusOf(w.ledger, r) != InProgress { return false; }
      var exclusive := OwnsTheWriter(r);
      if !exclusive { return false; }
      StoredChainsAreValid(w.log, w.ledger, r);
      var valid, intents, terminals := Chains(w.log, r, start.binding, Some(BindingOf(w.ledger, r)));
      OpenOfRun(w.log, w.ledger, r);
      if exists k :: k in intents && (|| w.log[k].payload.start.operation == start.operation
                                      || w.log[k].payload.start.handle == start.handle) {
        return false;
      }
      var unresolved := UnresolvedProcesses(w.log, w.ledger, runs);
      ok := |intents| < MAX_DISPATCHES && |intents| - |terminals| < perRun && unresolved < total;
    }

    /** `observe_exit`: only the owner's exact dispatch, and only once. */
    method ObserveExit(intent: nat, start: Start, exitCode: int, reason: string, outputBytes: nat, truncated: bool)
      returns (ok: bool)
      requires Valid()
      modifies this
      ensures Valid() && Stepped(old(w), w)
      ensures ok <==> old(w).lock.None? && OpenAt(old(w).log, intent) && old(w).log[intent].payload.start == start
      ensures w == if ok
                   then old(w).(log := old(w).log + [ExitRow(intent, start, exitCode, reason, outputBytes, truncated)])
                   else old(w)
      ensures ok ==> AllOpen(w.log) == AllOpen(old(w).log) - {intent}
      ensures ok ==>
                var row := w.log[|old(w).log|];
                && |w.log| == |old(w).log| + 1 && row.runId == start.binding.runId && row.payload.Exit?
                && row.payload.facts.intentSeq == intent && row.payload.facts.start == start
                && row.payload.facts.intentHash == old(w).log[intent].payload.start
                && row.payload.facts.exitCode == exitCode && row.payload.facts.reason == reason
                && row.payload.facts.outputBytes == outputBytes && row.payload.facts.truncated == truncated
    {
      hide Inv, AcksFit, Within, OpenMeansRunning, PatchesGated, Stepped, RowOk, AllOpen, ProcessStore.ValidChain,
           WellKept, Keeps;
      StandingStill(w);
      if w.lock.Some? { return false; }
      var r := start.binding.runId;
      StoredChainsAreValid(w.log, w.ledger, r);
      OpenBelongs(w.log, w.ledger, intent);
      if r !in w.ledger.runs { return false; }
      var valid, intents, terminals := Chains(w.log, r, BindingOf(w.ledger, r), Some(BindingOf(w.ledger, r)));
      if intent !in intents || w.log[intent].payload.start != start || intent in terminals { return false; }
      var e := ExitRow(intent, start, exitCode, reason, outputBytes, truncated);
      ExitIsOk(w.log, w.ledger, intent, e);
      RowStep(w, e, perRun, total);
      ExitCloses(w.log, w.ledger, intent, e);
      Become(w.(log := w.log + [e]));
      ok := true;
    }

    // -------------------------------------------------------------- closing a run

    /** `require_execution_resolved` and `require_processes_resolved`, in the caller's
        transaction.  `renewed` says that the patch evidence could be renewed. */
    method RequireResolved(r: RunId, renewed: bool) returns (ok: bool, ack: Option<Event>)
      requires Valid() && r in w.ledger.runs
      ensures ok <==> renewed && Closed(w, r)
      ensures ok <==>
                && renewed && OpenOf(w.log, r) == {}
                && forall op :: op in w.patches && op.run == r && w.patches[op].dispatch.Some? ==>
                     w.patches[op].result.Some?
      ensures ok ==>
                OpenOf(w.log, r) == {} && forall op :: op in w.patches && op.run == r ==> !Unterminated(w.patches[op])
      ensures ok ==> (ack.None? <==> Dispatches(w.log, |w.log|, r) == {})
      ensures ok && ack.Some? ==> IsAckOf(w.log, w.ledger, r, ack.value)
    {
      hide Inv, WellKept, AcksFit, Within, OpenMeansRunning, PatchesGated, Keeps, ProcessStore.ValidChain, OpenOf,
           OpenAt, RowOk;
      ok, ack := false, None;
      if !renewed { return; }
      OpenOfRun(w.log, w.ledger, r);
      if exists op :: op in w.patches && op.run == r && Unterminated(w.patches[op]) { return; }
      StoredChainsAreValid(w.log, w.ledger, r);
      var valid, intents, terminals := Chains(w.log, r, BindingOf(w.ledger, r), Some(BindingOf(w.ledger, r)));
      AllEnded(w.log, w.ledger, r, intents, terminals);
      if |intents| != |terminals| {
        SomethingOpen(w, r);
        return;
      }
      if intents != [] {
        RunIsKnown(w.ledger, r);
        AckIsOk(w.log, w.ledger, r, intents, terminals);
        ack := Some(AckOf(w.log, w.ledger, r, intents, terminals));
        assert intents[0] in Dispatches(w.log, |w.log|, r);
      }
      ok := true;
    }

    method Submit(r: RunId, lease: string, receipt: bool, renewed: bool) returns (ok: bool)
      requires Valid()
      modifies this
      ensures Valid() && Stepped(old(w), w)
      ensures ok <==> old(w).lock.None? && receipt && renewed && Closed(old(w), r)
                      && IsRunning(old(w).ledger, r) && old(w).ledger.runs[r].lease == lease
      ensures ok ==> r in w.ledger.runs && w.ledger.runs[r].state == ResultSubmitted && Closed(w, r)
      ensures ok ==> Acknowledged(old(w), w, r)
      ensures !ok ==> w == old(w)
    {
      hide HomeInv, Stepped, Closed, Inv, Keeps, Advance, IsAckOf, Wrote, OpenOf, Acknowledged, Dispatches;
      StandingStill(w);
      if w.lock.Some? || r !in w.ledger.runs { return false; }
      var resolved, ack := RequireResolved(r, renewed);
      var l := new Ledger(w.ledger);
      TheLedgerHolds(w, perRun, total);
      ok := l.Submit(r, lease, receipt, resolved);
      if ok {
        RunIsBacked(w.ledger, r);
        WritingElsewhere(w.ledger, r, w.ledger.runs[r].(state := ResultSubmitted), InProgress, w.armed);
        AfterWriting(w.ledger, r, w.ledger.runs[r].(state := ResultSubmitted), InProgress);
        Leave(r, l.s, ack);
      }
    }

    method Quiesce(r: RunId, lease: string, renewed: bool) returns (ok: bool)
      requires Valid()
      modifies this
      ensures Valid() && Stepped(old(w), w)
      ensures ok <==> old(w).lock.None? && renewed && Closed(old(w), r) && r in old(w).ledger.runs
                      && old(w).ledger.runs[r].state == ResultSubmitted && old(w).ledger.runs[r].lease == lease
      ensures ok ==> r in w.ledger.runs && w.ledger.runs[r].state == Verifying && Closed(w, r)
      ensures ok ==> Acknowledged(old(w), w, r)
      ensures !ok ==> w == old(w)
    {
      hide HomeInv, Stepped, Closed, Inv, Keeps, Advance, IsAckOf, Wrote, OpenOf, Acknowledged, Dispatches;
      StandingStill(w);
      if w.lock.Some? || r !in w.ledger.runs { return false; }
      var resolved, ack := RequireResolved(r, renewed);
      var l := new Ledger(w.ledger);
      TheLedgerHolds(w, perRun, total);
      ok := l.Quiesce(r, lease, resolved);
      if ok {
        RunIsBacked(w.ledger, r);
        WritingElsewhere(w.ledger, r, w.ledger.runs[r].(state := Verifying), InProgress, w.armed);
        AfterWriting(w.ledger, r, w.ledger.runs[r].(state := Verifying), InProgress);
        Leave(r, l.s, ack);
      }
    }

    method Abort(r: RunId, retry: bool, inactive: bool, renewed: bool) returns (ok: bool)
      requires Valid()
      modifies this
      ensures Valid() && Stepped(old(w), w)
      ensures ok <==> old(w).lock.None? && renewed && Closed(old(w), r) && r in old(w).ledger.runs
                      && old(w).ledger.runs[r].state in ACTIVE_RUN_STATES
                      && (old(w).ledger.runs[r].state == Running && r in old(w).ledger.checkpoints ==> inactive)
      ensures ok ==> r in w.ledger.runs && WaitsAgain(w.ledger, r, retry) && Closed(w, r)
      ensures ok ==> Acknowledged(old(w), w, r)
      ensures !ok ==> w == old(w)
    {
      hide HomeInv, WaitsAgain, Stepped, Closed, Inv, Keeps, Advance, IsAckOf, Wrote, OpenOf, Acknowledged, Dispatches;
      StandingStill(w);
      if w.lock.Some? || r !in w.ledger.runs { return false; }
      var resolved, ack := RequireResolved(r, renewed);
      var l := new Ledger(w.ledger);
      TheLedgerHolds(w, perRun, total);
      ok := l.Abort(r, retry, inactive, resolved);
      if ok {
        RunIsBacked(w.ledger, r);
        WritingElsewhere(w.ledger, r, w.ledger.runs[r].(state := Aborted), AbortedStatus(retry), w.armed);
        AfterWriting(w.ledger, r, w.ledger.runs[r].(state := Aborted), AbortedStatus(retry));
        Leave(r, l.s, ack);
      }
    }

    /** The transaction commits: the new run state together with its closure row. */
    method Leave(r: RunId, after: State, ack: Option<Event>)
      requires Valid() && w.lock.None? && r in w.ledger.runs && r in after.runs
      requires Inv(after) && Keeps(w.ledger, after) && StayRunning(w.ledger, after, w.armed, Some(r))
      requires AckBudget(w.ledger.runs[r].state) < AckBudget(after.runs[r].state) && after.runs[r].state != Running
      requires OpenOf(w.log, r) == {} && forall op :: op in w.patches && op.run == r ==> !Unterminated(w.patches[op])
      requires ack.Some? ==> IsAckOf(w.log, w.ledger, r, ack.value)
      requires ack.None? <==> Dispatches(w.log, |w.log|, r) == {}
      modifies this
      ensures Valid() && Stepped(old(w), w) && w.ledger == after && Closed(w, r) && Acknowledged(old(w), w, r)
    {
      hide Inv, Keeps, LogGated, PatchesGated, Stepped, Closed, IsAckOf, OpenOf, StayRunning, AckBudget, Dispatches;
      LeavingStep(w, r, after, ack, perRun, total);
      Become(w.(ledger := after, log := if ack.Some? then w.log + [ack.value] else w.log));
      LeftRunningIsClosed(w, perRun, total, r);
    }
  }

  lemma TheLedgerHolds(w: World, perRun: nat, total: nat)
    requires HomeInv(w, perRun, total)
    ensures Inv(w.ledger)
  {
  }

  lemma AfterWriting(s: State, r: RunId, run: Run, status: TaskStatus)
    requires r in s.runs && s.runs[r].taskId in s.tasks
    ensures r in Wrote(s, r, run, status).runs && Wrote(s, r, run, status).runs[r] == run
  {
  }

  lemma RunIsKnown(s: State, r: RunId)
    ensures BindingOf(s, r).runId == r
  {
  }

  lemma SomethingOpen(w: World, r: RunId)
    requires exists i :: i in OpenOf(w.log, r)
    requires forall i: nat :: i in OpenOf(w.log, r) ==> OpenAt(w.log, i) && w.log[i].runId == r
    ensures !Closed(w, r)
  {
  }

  function ExitRow(intent: nat, start: Start, exitCode: int, reason: string, outputBytes: nat, truncated: bool): Event {
    Event(start.binding.taskId, start.binding.runId,
          Exit(ExitFacts(start, intent, start, exitCode, reason, outputBytes, truncated)))
  }

  lemma OpenBelongs(log: Log, s: State, i: nat)
    requires WellKept(log, s)
    ensures OpenAt(log, i) ==>
              && log[i].payload.start.binding.runId in s.runs
              && DispatchAt(log, i, log[i].payload.start.binding.runId)
              && !Ended(log, |log|, i, log[i].payload.start.binding.runId)
    ensures forall r :: DispatchAt(log, i, r) && !Ended(log, |log|, i, r) ==> OpenAt(log, i)
  {
  }

  lemma ExitIsOk(log: Log, s: State, intent: nat, e: Event)
    requires WellKept(log, s) && OpenAt(log, intent) && e.payload.Exit?
    requires var f := e.payload.facts; f.intentSeq == intent && f.start == log[intent].payload.start == f.intentHash
    requires Recorded(e)
    ensures e.runId in s.runs && RowOk(log + [e], |log|, e.runId, BindingOf(s, e.runId))
  {
    assert Recorded(log[intent]) && RowOk(log, intent, log[intent].runId, BindingOf(s, log[intent].runId));
    hide FreshStart, WellKept;
    PrefixSets(log, e, |log|, e.runId);
    var longer := log + [e];
    assert longer[intent] == log[intent];
  }

  lemma ExitCloses(log: Log, s: State, intent: nat, e: Event)
    requires WellKept(log, s) && OpenAt(log, intent) && e.payload.Exit? && e.payload.facts.intentSeq == intent
    requires Recorded(e) && e.payload.facts.start == log[intent].payload.start
    ensures AllOpen(log + [e]) == AllOpen(log) - {intent}
  {
    assert Recorded(log[intent]);
    hide WellKept, Ended;
    forall i: nat
      ensures i in AllOpen(log + [e]) <==> i in AllOpen(log) - {intent}
    {
      OpenAfter(log, s, e, i);
    }
  }

  /** The run is the latest attempt of its task and the only run that holds its writer. */
  predicate OnlyWriter(s: State, r: RunId) {
    && (forall q :: q in s.runs && r in s.runs && s.runs[q].taskId == s.runs[r].taskId ==>
          s.runs[q].attempt <= s.runs[r].attempt)
    && (forall q :: q in s.runs && Holder(s, q) && WriterKey(s, q) == WriterKey(s, r) ==> q == r)
  }

  function StartRow(start: Start): Event {
    Event(start.binding.taskId, start.binding.runId, Payload.Dispatch(start))
  }

  /** When a dispatch is admitted. */
  ghost predicate Dispatchable(w: World, start: Start, perRun: nat, total: nat) {
    var r := start.binding.runId;
    && w.lock.None? && IsRunning(w.ledger, r)
    && BindingOf(w.ledger, r) == start.binding && StatusOf(w.ledger, r) == InProgress && OnlyWriter(w.ledger, r)
    && FreshStart(w.log, |w.log|, r, start)
    && |Dispatches(w.log, |w.log|, r)| < MAX_DISPATCHES && |OpenOf(w.log, r)| < perRun && |AllOpen(w.log)| < total
  }

  lemma DispatchIsOk(w: World, start: Start, perRun: nat, total: nat)
    requires Dispatchable(w, start, perRun, total)
    ensures var e := StartRow(start);
            && Recorded(e) && RowOk(w.log + [e], |w.log|, e.runId, BindingOf(w.ledger, e.runId))
            && IsRunning(w.ledger, e.runId)
            && |OpenOf(w.log, e.runId)| < perRun && |AllOpen(w.log)| < total
  {
    PrefixSets(w.log, StartRow(start), |w.log|, start.binding.runId);
  }

  lemma FitsLimits(w: World, perRun: nat, total: nat, r: RunId)
    requires HomeInv(w, perRun, total)
    ensures |OpenOf(w.log, r)| <= perRun && |AllOpen(w.log)| <= total
  {
    hide Inv, WellKept, AcksFit, OpenMeansRunning, PatchesGated;
  }

  /** Every interleaving of ledger transactions, patch calls with crashes, dispatches, exits and
      closures keeps the gate: whatever has left RUNNING is closed, stays closed and gets no
      further work. */
  method AnyHistory(h: Home, rounds: nat)
    requires h.Valid()
    modifies h
    ensures h.Valid() && Stepped(old(h.w), h.w)
    ensures forall r :: r in h.w.ledger.runs && h.w.ledger.runs[r].state != Running ==> Closed(h.w, r)
    decreases rounds
  {
    if rounds == 0 {
      StandingStill(h.w);
      forall r | r in h.w.ledger.runs && h.w.ledger.runs[r].state != Running
        ensures Closed(h.w, r)
      {
        LeftRunningIsClosed(h.w, h.perRun, h.total, r);
      }
      return;
    }
    var before := h.w;
    AnyStep(h);
    var after := h.w;
    AnyHistory(h, rounds - 1);
    SteppedIsTransitive(before, after, h.w);
  }

  method AnyStep(h: Home)
    requires h.Valid()
    modifies h
    ensures h.Valid() && Stepped(old(h.w), h.w)
  {
    hide HomeInv, Stepped, Keeps, Dispatchable, Closed, ListsRuns;
    StandingStill(h.w);
    var choice: nat, r: RunId, text: string, n: nat, one: bool, two: bool, three: bool := *, *, *, *, *, *, *;
    if choice == 0 {
      h.Observe();
    } else if choice == 1 {
      h.Arm(r);
    } else if choice == 2 {
      h.OtherTransaction(one);
    } else if choice == 3 {
      var _ := h.BeginPatch(Op(r, text));
    } else if choice == 4 {
      var records: Records := *;
      var _ := h.AppendPatchRecord(records);
    } else if choice == 5 {
      h.EndPatch();
    } else if choice == 6 {
      var start: Start, runs: seq<RunId> := *, *;
      if ListsRuns(h.w.log, runs) && forall q :: q in runs ==> q in h.w.ledger.runs {
        var _ := h.DispatchProcess(start, runs, one, two);
      }
    } else if choice == 7 {
      var start: Start := *;
      var _ := h.ObserveExit(n, start, n, text, n, one);
    } else if choice == 8 {
      var _ := h.Submit(r, text, one, two);
    } else if choice == 9 {
      var _ := h.Quiesce(r, text, one);
    } else {
      var _ := h.Abort(r, one, two, three);
    }
  }
}
