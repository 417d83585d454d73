/** Lifecycle routes: claim, checkpoint and disposition as sequences of transactions, with other
    routes, operators and crashes in between. */
module Lifecycle {
  import opened Common
  import opened LedgerState
  import Queue
  import opened LifecycleStore
  import L = Ledger

  /** The granted attempt can be claimed now; otherwise the code of the refusal. */
  function RefusalCode(s: State, spec: Spec, matches: bool, admitted: bool): Option<string> {
    if !matches || spec.task !in s.tasks || s.tasks[spec.task].status !in READY_TASK_STATES
       || Attempts(s, spec.task) + 1 != spec.attempt then Some("lifecycle_stale")
    else if s.paused || Queue.ProjectPaused(s, spec.task) then Some("lifecycle_paused")
    else if !DependenciesDone(s, spec.task) || Attempts(s, spec.task) >= s.tasks[spec.task].maxAttempts
            || !WriterFree(s, s.tasks[spec.task].writerKey) then Some("lifecycle_blocked")
    else if !admitted then Some("lifecycle_preflight_denied")
    else None
  }

  /** A claim is granted exactly as the ledger's own path to a new run would grant it, and each
      refusal names the first reason there is: the task is not the granted one, ready for this
      attempt; something is paused; a dependency, the attempts or the writer stand in the way;
      the workspace does not admit it. */
  lemma RefusalIsExact(s: State, spec: Spec, matches: bool, admitted: bool)
    ensures var code := RefusalCode(s, spec, matches, admitted);
            && (code.None? <==> matches && admitted && L.Grantable(s, spec.task, spec.attempt))
            && (code == Some("lifecycle_stale") <==> !Granted(s, spec, matches))
            && (code == Some("lifecycle_paused") <==> Granted(s, spec, matches) && HeldUp(s, spec.task))
            && (code == Some("lifecycle_blocked") <==>
                  Granted(s, spec, matches) && !HeldUp(s, spec.task) && Obstructed(s, spec.task))
            && (code == Some("lifecycle_preflight_denied") <==>
                  matches && L.Grantable(s, spec.task, spec.attempt) && !admitted)
    ensures Granted(s, spec, matches) <==>
              && matches && spec.task in s.tasks && s.tasks[spec.task].status in {Planned, ReadyTask, NeedsFix}
              && |set q | q in s.runs && s.runs[q].taskId == spec.task| == spec.attempt - 1
  {
    var runs := set q | q in s.runs && s.runs[q].taskId == spec.task;
    assert runs == TaskRuns(s, spec.task);
    hide TaskRuns;
  }

  /** The task row is the granted one, ready for the granted attempt. */
  predicate Granted(s: State, spec: Spec, matches: bool) {
    && matches && spec.task in s.tasks && s.tasks[spec.task].status in READY_TASK_STATES
    && Attempts(s, spec.task) + 1 == spec.attempt
  }

  predicate HeldUp(s: State, t: TaskId)
    requires t in s.tasks
  {
    s.paused || exists p :: p in s.pausedProjects && s.tasks[t].project == Some(p)
  }

  predicate Obstructed(s: State, t: TaskId)
    requires t in s.tasks
  {
    || (exists d :: d in s.tasks[t].dependencies && (d in s.tasks ==> s.tasks[d].status != Done))
    || Attempts(s, t) >= s.tasks[t].maxAttempts
    || (exists q :: q in s.runs && Holder(s, q) && WriterKey(s, q) == s.tasks[t].writerKey)
  }

  /** `__validate_native`: the run is running, the latest attempt of its task in progress, as the
      grant names it, and the only run that holds its writer.  The lease, the worker and the
      task's payload are compared by the caller's session. */
  predicate NativeOk(s: State, spec: Spec, r: RunId) {
    && r in s.runs && s.runs[r].state == Running && s.runs[r].taskId == spec.task && s.runs[r].attempt == spec.attempt
    && spec.task in s.tasks && s.tasks[spec.task].status == InProgress
    && (forall q :: q in s.runs && s.runs[q].taskId == spec.task ==> s.runs[q].attempt <= spec.attempt)
    && (forall q :: q in s.runs && Holder(s, q) && WriterKey(s, q) == s.tasks[spec.task].writerKey ==> q == r)
  }

  lemma NothingReplaced(s: State)
    ensures L.Replaced(s, map[])
  {
  }

  /** A run that was just claimed passes it. */
  lemma ClaimedIsNative(s: State, spec: Spec, r: RunId, lease: string)
    requires LedgerState.Inv(s) && LedgerState.Claimable(s, spec.task, r) && Attempts(s, spec.task) + 1 == spec.attempt
    ensures NativeOk(Claimed(s, spec.task, r, lease), spec, r)
  {
    hide Exclusive, Reserved, Held, Settled, Proven, Queued;
    ClaimIsLatest(s, spec.task, r, lease);
    var after := Claimed(s, spec.task, r, lease);
    hide Attempts, Counted;
    forall q | q in after.runs && Holder(after, q) && WriterKey(after, q) == after.tasks[spec.task].writerKey
      ensures q == r
    {
      assert q != r ==> Holder(s, q) && WriterKey(s, q) == WriterKey(after, q);
    }
  }

  lemma ClaimIsLatest(s: State, t: TaskId, r: RunId, lease: string)
    requires Counted(s) && t in s.tasks && r !in s.runs
    ensures forall q :: q in Claimed(s, t, r, lease).runs && Claimed(s, t, r, lease).runs[q].taskId == t ==>
              Claimed(s, t, r, lease).runs[q].attempt <= Attempts(s, t) + 1
  {
    hide Attempts;
    forall q | q in s.runs && s.runs[q].taskId == t
      ensures s.runs[q].attempt <= Attempts(s, t)
    {
      assert Numbered(s, q);
    }
  }

  class Store {
    var w: World

    ghost predicate Valid()
      reads this
    {
      LifecycleInv(w)
    }

    constructor (w: World)
      requires LifecycleInv(w)
      ensures Valid() && this.w == w
    {
      this.w := w;
    }

    /** `__validate_native`, test by test. */
    method ValidateNative(g: GrantId, r: RunId) returns (ok: bool)
      requires g in w.grants
      ensures ok <==> NativeOk(w.ledger, w.grants[g].spec, r)
    {
      var s, spec := w.ledger, w.grants[g].spec;
      if spec.task !in s.tasks || s.tasks[spec.task].status != InProgress { return false; }
      if r !in s.runs || s.runs[r].state != Running { return false; }
      if s.runs[r].taskId != spec.task || s.runs[r].attempt != spec.attempt { return false; }
      if exists q :: q in s.runs && s.runs[q].taskId == spec.task && s.runs[q].attempt > spec.attempt { return false; }
      ok := !exists q :: q in s.runs && q != r && s.runs[q].state in WRITER_LOCK_RUN_STATES
                         && WriterKey(s, q) == s.tasks[spec.task].writerKey;
    }

    // -------------------------------------------------------------- single transactions

    method CreateGrant(g: GrantId, spec: Spec, matches: bool) returns (ok: bool)
      requires Valid()
      modifies this
      ensures Valid() && Grows(old(w), w)
      ensures ok <==> g !in old(w).grants && |old(w).grants| < GRANT_MAX && matches && spec.task in old(w).ledger.tasks
                      && old(w).ledger.tasks[spec.task].status in READY_TASK_STATES
                      && Attempts(old(w).ledger, spec.task) + 1 == spec.attempt
      ensures w == if ok then Created(old(w), g, spec) else old(w)
      ensures ok ==> g in w.grants && w.grants[g].spec == spec && w.grants[g].status == Issued
    {
      hide LedgerState.Inv, StoreInv, Grows, Attempts;
      GrowsIsReflexive(w);
      ok := g !in w.grants && |w.grants| < GRANT_MAX && matches && spec.task in w.ledger.tasks
            && w.ledger.tasks[spec.task].status in READY_TASK_STATES
            && Attempts(w.ledger, spec.task) + 1 == spec.attempt;
      if ok {
        Creating(w, g, spec);
        w := Created(w, g, spec);
      }
    }

    method RevokeGrant(g: GrantId) returns (ok: bool)
      requires Valid()
      modifies this
      ensures Valid() && Grows(old(w), w)
      ensures ok <==> g in old(w).grants && old(w).grants[g].status == Issued
      ensures w == if ok then RevokedBy(old(w), g) else old(w)
      ensures ok ==> g in w.grants && w.grants[g].status == Revoked && w.grants[g].claimId == old(w).grants[g].claimId
    {
      hide LedgerState.Inv, StoreInv, Grows;
      GrowsIsReflexive(w);
      ok := g in w.grants && w.grants[g].status == Issued;
      if ok {
        Revoking(w, g);
        w := RevokedBy(w, g);
      }
    }

    /** Transaction 1 of a claim: reserve the grant for this operation, once. */
    method Reserve(g: GrantId, op: string) returns (ok: bool)
      requires Valid()
      modifies this
      ensures Valid() && Grows(old(w), w)
      ensures ok <==> g in old(w).grants && old(w).grants[g].status == Issued
      ensures w == if ok then ReservedBy(old(w), g, op) else old(w)
      ensures ok ==> g in w.grants && w.grants[g].status == Held_ && w.grants[g].claimId == Some(op)
    {
      hide LedgerState.Inv, StoreInv, Grows;
      GrowsIsReflexive(w);
      ok := g in w.grants && w.grants[g].status == Issued;
      if ok {
        Reserving(w, g, op);
        w := ReservedBy(w, g, op);
      }
    }

    /** Transaction 2: consume the grant with a refusal or with the one run. */
    method Decide(g: GrantId, op: string, r: RunId, lease: string, matches: bool, admitted: bool) returns (ok: bool)
      requires Valid()
      modifies this
      ensures Valid() && Grows(old(w), w)
      ensures ok <==> StillHeld(old(w), g, op) && r !in old(w).ledger.runs
      ensures !ok ==> w == old(w)
      ensures ok ==> var code := RefusalCode(old(w).ledger, old(w).grants[g].spec, matches, admitted);
                     if code.Some? then w == RefusedBy(old(w), g, op, code.value)
                     else old(w).grants[g].spec.task in old(w).ledger.tasks && w == ClaimedBy(old(w), g, op, r, lease)
      ensures ok ==> var spec := old(w).grants[g].spec;
                     r in w.ledger.runs <==> matches && admitted && L.Grantable(old(w).ledger, spec.task, spec.attempt)
      ensures ok ==> g in w.grants && w.grants[g].status == Consumed && Key(g, op) in w.ops
      ensures ok && r in w.ledger.runs ==>
                && w.ops[Key(g, op)].phase == Pending && w.ops[Key(g, op)].run == Some(r)
                && w.ledger.runs[r].state == Running && w.ledger.runs[r].lease == lease
                && w.ledger.runs[r].taskId == old(w).grants[g].spec.task
                && w.ledger.runs[r].attempt == old(w).grants[g].spec.attempt
    {
      hide LedgerState.Inv, StoreInv, Grows, Attempts, WriterFree, DependenciesDone, L.Grantable, Granted, HeldUp,
           Obstructed;
      GrowsIsReflexive(w);
      ok := StillHeld(w, g, op) && r !in w.ledger.runs;
      if ok {
        RefusalIsExact(w.ledger, w.grants[g].spec, matches, admitted);
        var code := RefusalCode(w.ledger, w.grants[g].spec, matches, admitted);
        if code.Some? {
          Refusing(w, g, op, code.value);
          w := RefusedBy(w, g, op, code.value);
        } else {
          Claiming(w, g, op, r, lease);
          w := ClaimedBy(w, g, op, r, lease);
        }
      }
    }

    /** Transaction 3: the capability is in place, and the run is still the running one. */
    method MarkReady(g: GrantId, op: string, r: RunId, session: bool) returns (ok: bool)
      requires Valid()
      modifies this
      ensures Valid() && Grows(old(w), w)
      ensures ok <==> IsPending(old(w), g, op, r) && session && NativeOk(old(w).ledger, old(w).grants[g].spec, r)
      ensures w == if ok then ReadyBy(old(w), g, op) else old(w)
      ensures ok ==> Key(g, op) in w.ops && w.ops[Key(g, op)].phase == Ready && w.ops[Key(g, op)].run == Some(r)
    {
      hide LedgerState.Inv, StoreInv, Grows, NativeOk;
      GrowsIsReflexive(w);
      ok := IsPending(w, g, op, r) && session;
      if ok { ok := ValidateNative(g, r); }
      if ok {
        Readying(w, g, op, r);
        w := ReadyBy(w, g, op);
      }
    }

    /** Transaction 1 of a checkpoint. */
    method Anchor(g: GrantId, op: string, fingerprint: string, r: RunId, session: bool) returns (ok: bool)
      requires Valid()
      modifies this
      ensures Valid() && Grows(old(w), w)
      ensures ok <==> IsReady(old(w), g, r) && session && NativeOk(old(w).ledger, old(w).grants[g].spec, r)
                      && Key(g, op) !in old(w).ops && |old(w).grants[g].checkpoints| < CHECKPOINT_MAX
      ensures w == if ok then AnchoredBy(old(w), g, op, fingerprint, r) else old(w)
      ensures ok ==> g in w.grants && op in w.grants[g].checkpoints && Key(g, op) in w.ops
                     && w.ops[Key(g, op)] == Record(CheckpointKind, fingerprint, Prepared, Some(r), "lifecycle_unknown")
    {
      hide LedgerState.Inv, StoreInv, Grows, NativeOk;
      GrowsIsReflexive(w);
      ok := IsReady(w, g, r) && session && Key(g, op) !in w.ops && |w.grants[g].checkpoints| < CHECKPOINT_MAX;
      if ok { ok := ValidateNative(g, r); }
      if ok {
        Anchoring(w, g, op, fingerprint, r);
        w := AnchoredBy(w, g, op, fingerprint, r);
      }
    }

    /** Transaction 2 of a checkpoint: applied and marked in one commit. */
    method Apply(g: GrantId, op: string, fingerprint: string, r: RunId, session: bool) returns (ok: bool)
      requires Valid()
      modifies this
      ensures Valid() && Grows(old(w), w)
      ensures ok <==>
                && IsAnchored(old(w), g, op, fingerprint, r) && session
                && NativeOk(old(w).ledger, old(w).grants[g].spec, r)
      ensures w == if ok then AppliedBy(old(w), g, op, r) else old(w)
      ensures ok ==> Key(g, op) in w.ops && r in w.ledger.checkpoints && Key(g, op) in w.applied
                     && w.ops[Key(g, op)]
                        == Record(CheckpointKind, fingerprint, Done_, Some(r), "lifecycle_checkpointed")
    {
      hide LedgerState.Inv, StoreInv, Grows, NativeOk;
      GrowsIsReflexive(w);
      ok := IsAnchored(w, g, op, fingerprint, r) && session;
      if ok { ok := ValidateNative(g, r); }
      if ok {
        Applying(w, g, op, fingerprint, r);
        w := AppliedBy(w, g, op, r);
      }
    }

    /** History: what a caller is told. */
    method Tell(k: Key, result: Result)
      requires Valid() && AnswerOk(w, Answer(k, result))
      modifies this
      ensures Valid() && Grows(old(w), w) && w == old(w).(answers := old(w).answers + [Answer(k, result)])
    {
      hide LedgerState.Inv, StoreInv, Grows;
      Answering(w, Answer(k, result));
      w := w.(answers := w.answers + [Answer(k, result)]);
    }

    /** Any ledger transaction; a publisher may act on the older ledger state `seen`. */
    method LedgerTransaction(who: nat, seen: State)
      requires Valid() && Keeps(seen, w.ledger)
      modifies this
      ensures Valid() && Grows(old(w), w) && w == old(w).(ledger := w.ledger)
    {
      hide LedgerState.Inv, StoreInv, Grows, Keeps;
      var l := new L.Ledger(w.ledger);
      if who == 0 {
        L.WorkerStep(l);
      } else if who == 1 {
        L.JudgeStep(l);
      } else if who == 2 {
        L.OperatorStep(l);
      } else if who == 3 {
        NothingReplaced(l.s);
        L.ReadmissionStep(l);
      } else {
        L.PublisherStep(l, seen);
      }
      LedgerMoves(w, l.s);
      w := w.(ledger := l.s);
    }

    // -------------------------------------------------------------- everybody else

    method AnyTransaction()
      requires Valid()
      modifies this
      ensures Valid() && Grows(old(w), w)
    {
      hide LedgerState.Inv, StoreInv, Grows, AnswerOk, Keeps;
      GrowsIsReflexive(w);
      var choice: nat, g: GrantId, op: string, r: RunId, text: string := *, *, *, *, *;
      var n: nat, one: bool, two: bool := *, *, *;
      if choice == 0 {
        var spec: Spec := *;
        var _ := CreateGrant(g, spec, one);
      } else if choice == 1 {
        var _ := RevokeGrant(g);
      } else if choice == 2 {
        var _ := Reserve(g, op);
      } else if choice == 3 {
        var _ := Decide(g, op, r, text, one, two);
      } else if choice == 4 {
        var _ := MarkReady(g, op, r, one);
      } else if choice == 5 {
        var _ := Anchor(g, op, text, r, one);
      } else if choice == 6 {
        var _ := Apply(g, op, text, r, one);
      } else if choice == 7 {
        var result: Result := *;
        if AnswerOk(w, Answer(Key(g, op), result)) { Tell(Key(g, op), result); }
      } else {
        var seen: State := *;
        if Keeps(seen, w.ledger) { LedgerTransaction(n, seen); }
      }
    }

    /** Whatever other routes, operators and workers commit between two steps of a call. */
    method Others()
      requires Valid()
      modifies this
      ensures Valid() && Grows(old(w), w)
    {
      hide LifecycleInv, Grows;
      GrowsIsReflexive(w);
      var n: nat := *;
      if n > 0 {
        for i := 0 to n
          invariant Valid() && Grows(old(w), w)
        {
          ghost var before := w;
          AnyTransaction();
          GrowsIsTransitive(old(w), before, w);
        }
      }
    }
  }

  // ---------------------------------------------------------------- what stays true while others work

  lemma AnswerStays(w: World, after: World, a: Answer)
    requires Grows(w, after) && AnswerOk(w, a)
    ensures AnswerOk(after, a)
  {
    hide Keeps;
  }

  lemma ReadyStays(w: World, after: World, g: GrantId, r: RunId)
    requires Grows(w, after) && IsReady(w, g, r)
    ensures IsReady(after, g, r)
  {
  }

  /** A bound run was inserted by this grant, as the attempt the grant names. */
  lemma ReadyIsBorn(w: World, g: GrantId, r: RunId)
    requires LifecycleInv(w) && IsReady(w, g, r)
    ensures Born(w, g, r) && RunOf(w.ledger, w.grants[g].spec, r)
  {
    hide LedgerState.Inv;
    assert GrantOk(w, g);
    hide StoreInv;
  }

  lemma RecordedAnswerIsOk(w: World, k: Key)
    requires StoreInv(w) && k in w.ops
    ensures AnswerOk(w, Answer(k, ResultOf(w.ops[k])))
    ensures w.grants[k.grant].claimId.Some?
    ensures w.ops[k].phase == Ready ==> w.ops[k].run.Some? && IsReady(w, k.grant, w.ops[k].run.value)
  {
  }

  lemma KnownRecord(w: World, k: Key)
    requires LifecycleInv(w) && k in w.ops
    ensures k.grant in w.grants && w.grants[k.grant].status in {Held_, Consumed}
    ensures AnswerOk(w, Answer(k, ResultOf(w.ops[k])))
    ensures w.ops[k].kind == CheckpointKind ==> forall code :: AnswerOk(w, Answer(k, Refused(code)))
    ensures w.ops[k].kind == ClaimKind ==> w.ops[k].fingerprint == CLAIM_FINGERPRINT
    ensures w.ops[k].phase == Ready ==> w.ops[k].run.Some? && IsReady(w, k.grant, w.ops[k].run.value)
  {
    hide LedgerState.Inv;
    assert RecordOk(w, k) && GrantOk(w, k.grant);
    RecordedAnswerIsOk(w, k);
    hide StoreInv;
    if w.ops[k].kind == CheckpointKind {
      forall code
        ensures AnswerOk(w, Answer(k, Refused(code)))
      {
      }
    }
  }

  /** A claim's record is named by its grant; a checkpoint's is listed there, and belongs to the claim's run. */
  lemma RecordIsLinked(w: World, k: Key)
    requires LifecycleInv(w) && k in w.ops
    ensures k.grant in w.grants && w.grants[k.grant].claimId.Some?
    ensures var g := w.grants[k.grant]; var claim := Key(k.grant, g.claimId.value);
            if w.ops[k].kind == ClaimKind then g.claimId == Some(k.op)
            else
              && k.op in g.checkpoints && claim in w.ops && w.ops[claim].kind == ClaimKind
              && w.ops[claim].phase == Ready && w.ops[claim].run == w.ops[k].run
              && forall r :: IsReady(w, k.grant, r) ==> w.ops[k].run == Some(r)
  {
    hide LedgerState.Inv;
    assert RecordOk(w, k) && GrantOk(w, k.grant);
  }

  lemma ConsumedForGood(w: World, k: Key)
    requires LifecycleInv(w) && k.grant in w.grants && w.grants[k.grant].status in {Held_, Consumed} && k !in w.ops
    ensures AnswerOk(w, Answer(k, Refused("lifecycle_consumed")))
  {
  }

  /** An issued grant and a run id nobody has used. */
  predicate Unclaimed(w: World, g: GrantId, r: RunId) {
    g in w.grants && w.grants[g].status == Issued && r !in w.ledger.runs
  }

  /** The answer the ledger gives to the first claim of a grant. */
  function ClaimAnswer(w: World, g: GrantId, r: RunId, matches: bool, admitted: bool): Result
    requires g in w.grants
  {
    var code := RefusalCode(w.ledger, w.grants[g].spec, matches, admitted);
    if code.Some? then Refused(code.value) else Succeeded(r)
  }

  /** This operation is the grant's claim. */
  predicate Recorded(w: World, g: GrantId, op: string) {
    g in w.grants && w.grants[g].claimId == Some(op) && Key(g, op) in w.ops
  }

  /** The operation id was already used for a checkpoint. */
  predicate OfACheckpoint(w: World, g: GrantId, op: string) {
    g in w.grants && Key(g, op) in w.ops && w.ops[Key(g, op)].kind == CheckpointKind
  }

  /** The grant went to another operation, which nothing can take back. */
  predicate TakenByAnother(w: World, g: GrantId, op: string) {
    g in w.grants && w.grants[g].status in {Held_, Consumed} && Key(g, op) !in w.ops
  }

  lemma RecordsOfGrant(w: World, g: GrantId, op: string)
    requires LifecycleInv(w)
    ensures Recorded(w, g, op) ==> w.grants[g].status in {Held_, Consumed} && w.ops[Key(g, op)].kind == ClaimKind
    ensures Recorded(w, g, op) ==> w.ops[Key(g, op)].fingerprint == CLAIM_FINGERPRINT
    ensures g in w.grants && w.grants[g].status == Issued ==> Key(g, op) !in w.ops
  {
  }

  lemma IssuedServes(w: World, g: GrantId, r: RunId)
    ensures Unclaimed(w, g, r) ==> forall q :: !IsReady(w, g, q)
  {
  }

  /** A recorded success belongs to the route that is bound to it. */
  lemma UnboundIsNotReady(w: World, g: GrantId, op: string)
    requires LifecycleInv(w)
    ensures Recorded(w, g, op) && (forall q :: !IsReady(w, g, q)) ==> !ResultOf(w.ops[Key(g, op)]).Succeeded?
    ensures forall q :: Recorded(w, g, op) && IsReady(w, g, q) ==> ResultOf(w.ops[Key(g, op)]) == Succeeded(q)
  {
    RecordsOfGrant(w, g, op);
    if Recorded(w, g, op) { KnownRecord(w, Key(g, op)); }
    hide LifecycleInv;
  }

  lemma ReservedIsHeld(w: World, g: GrantId, op: string)
    requires g in w.grants
    ensures var after := ReservedBy(w, g, op);
            StillHeld(after, g, op) && after.ledger == w.ledger && after.grants[g].spec == w.grants[g].spec
  {
  }

  lemma DecidedAnswers(w: World, g: GrantId, op: string, r: RunId, lease: string)
    requires StillHeld(w, g, op)
    ensures forall code :: var after := RefusedBy(w, g, op, code);
              && Key(g, op) in after.ops && after.ops[Key(g, op)].phase == Refused_
              && ResultOf(after.ops[Key(g, op)]) == Refused(code)
    ensures w.grants[g].spec.task in w.ledger.tasks ==>
              var after := ClaimedBy(w, g, op, r, lease);
              Key(g, op) in after.ops && after.ops[Key(g, op)].phase == Pending && IsPending(after, g, op, r)
  {
  }

  lemma DecidedIsNative(w: World, g: GrantId, op: string, r: RunId, lease: string, matches: bool, admitted: bool)
    requires LifecycleInv(w) && StillHeld(w, g, op) && r !in w.ledger.runs
    ensures RefusalCode(w.ledger, w.grants[g].spec, matches, admitted).None? ==>
              && w.grants[g].spec.task in w.ledger.tasks
              && var after := ClaimedBy(w, g, op, r, lease);
              g in after.grants && NativeOk(after.ledger, after.grants[g].spec, r)
  {
    hide LedgerState.Inv, StoreInv, NativeOk, Attempts;
    if RefusalCode(w.ledger, w.grants[g].spec, matches, admitted).None? {
      ClaimedIsNative(w.ledger, w.grants[g].spec, r, lease);
    }
  }

  lemma NotReadyYet(w: World, g: GrantId, binding: Option<RunId>)
    requires g in w.grants && w.grants[g].status == Issued && (binding.Some? ==> IsReady(w, g, binding.value))
    ensures binding.None?
  {
  }

  lemma NowReady(w: World, g: GrantId, op: string, r: RunId)
    requires IsPending(w, g, op, r)
    ensures IsReady(ReadyBy(w, g, op), g, r)
  {
  }

  class Route {
    const store: Store
    const grant: GrantId
    var binding: Option<RunId>
    var closed: bool

    ghost predicate Valid()
      reads this, store
    {
      store.Valid() && (binding.Some? ==> IsReady(store.w, grant, binding.value))
    }

    constructor (store: Store, grant: GrantId)
      requires store.Valid()
      ensures Valid() && this.store == store && this.grant == grant && binding.None? && !closed
    {
      this.store, this.grant, this.binding, this.closed := store, grant, None, false;
    }

    /** A gap between two transactions; `calm` says that nobody else uses it. */
    method Yield(calm: bool)
      requires Valid()
      modifies store
      ensures Valid() && Grows(old(store.w), store.w)
      ensures calm ==> store.w == old(store.w)
    {
      hide LifecycleInv, Grows, IsReady;
      ghost var before := store.w;
      GrowsIsReflexive(before);
      if calm { return; }
      store.Others();
      if binding.Some? { ReadyStays(before, store.w, grant, binding.value); }
    }

    /** The route may be used: open, its grant not revoked, and bound if its claim is finished. */
    ghost predicate Serves(healthy: bool)
      reads this, store
    {
      && !closed && grant in store.w.grants && store.w.grants[grant].status != Revoked
      && if binding.None? then forall r :: !IsReady(store.w, grant, r) else healthy
    }

    /** `status`.  `healthy` stands for the session and the task row. */
    method Status(healthy: bool) returns (ok: bool)
      requires Valid()
      ensures ok <==> Serves(healthy)
    {
      hide Childless, RunOf, Born;
      if closed || grant !in store.w.grants || store.w.grants[grant].status == Revoked { return false; }
      var g := store.w.grants[grant];
      assert GrantOk(store.w, grant);
      if g.claimId.Some? && Key(grant, g.claimId.value) in store.w.ops && binding.None? {
        ok := store.w.ops[Key(grant, g.claimId.value)].phase != Ready;
        assert !ok ==> IsReady(store.w, grant, store.w.ops[Key(grant, g.claimId.value)].run.value);
        return;
      }
      ok := binding.None? || healthy;
    }

    /** `_admit`: a route opened on a finished claim takes up its run. */
    method Admit(healthy: bool) returns (ok: bool)
      requires Valid() && binding.None?
      modifies this`binding
      ensures Valid()
      ensures ok && binding.Some? ==> healthy && IsReady(store.w, grant, binding.value)
      ensures ok && binding.None? ==> !closed && forall r :: !IsReady(store.w, grant, r)
      ensures ok ==> grant in store.w.grants && store.w.grants[grant].status != Revoked
      ensures !ok ==> binding.None?
      ensures healthy && !closed && grant in store.w.grants && store.w.grants[grant].status != Revoked ==> ok
      ensures (!closed && grant in store.w.grants && store.w.grants[grant].status != Revoked
               && forall r :: !IsReady(store.w, grant, r)) ==> ok
    {
      hide StoreInv, LedgerState.Inv;
      if grant !in store.w.grants || store.w.grants[grant].status == Revoked { return false; }
      var g := store.w.grants[grant];
      if g.status == Consumed && g.claimId.Some? && Key(grant, g.claimId.value) in store.w.ops {
        var claim := store.w.ops[Key(grant, g.claimId.value)];
        if claim.kind == ClaimKind && claim.phase == Ready && claim.run.Some? {
          assert IsReady(store.w, grant, claim.run.value);
          if !healthy { return false; }
          binding := claim.run;
          return true;
        }
      }
      ok := Status(healthy);
    }

    /** The transactions of a claim.  The process may die between any two of them; an uncertain
        claim is never sent again. */
    method ClaimBody(op: string, r: RunId, lease: string, matches: bool, admitted: bool, published: bool, calm: bool)
      returns (result: Result)
      requires Valid()
      modifies this`binding, store
      ensures Valid() && Grows(old(store.w), store.w)
      ensures result != Unknown ==> AnswerOk(store.w, Answer(Key(grant, op), result))
      ensures grant in old(store.w).grants && old(store.w).grants[grant].status != Issued ==>
                store.w == old(store.w) && binding == old(binding)
      ensures calm && published && Unclaimed(old(store.w), grant, r) ==>
                && result == ClaimAnswer(old(store.w), grant, r, matches, admitted)
                && (result.Succeeded? ==> binding == Some(r))
      ensures Recorded(old(store.w), grant, op) ==> result == ResultOf(old(store.w).ops[Key(grant, op)])
      ensures OfACheckpoint(old(store.w), grant, op) ==> result == Refused("lifecycle_conflict")
      ensures TakenByAnother(old(store.w), grant, op) ==> result == Refused("lifecycle_consumed")
    {
      hide LifecycleInv, Grows, IsReady, AnswerOk, ClaimAnswer;
      GrowsIsReflexive(store.w);
      RecordsOfGrant(store.w, grant, op);
      if Key(grant, op) in store.w.ops { KnownRecord(store.w, Key(grant, op)); }
      if grant !in store.w.grants || store.w.grants[grant].status == Revoked { return Unknown; }
      var k := Key(grant, op);
      if k in store.w.ops {
        var previous := store.w.ops[k];
        if previous.kind != ClaimKind || previous.fingerprint != CLAIM_FINGERPRINT {
          return Refused("lifecycle_conflict");
        }
        if store.w.grants[grant].claimId != Some(op) { return Unknown; }
        return ResultOf(previous);
      }
      if store.w.grants[grant].status != Issued {
        ConsumedForGood(store.w, k);
        return Refused("lifecycle_consumed");
      }
      result := ClaimReserved(op, r, lease, matches, admitted, published, calm);
    }

    method ClaimReserved(op: string, r: RunId, lease: string, matches: bool, admitted: bool, published: bool,
                         calm: bool)
      returns (result: Result)
      requires Valid() && grant in store.w.grants && store.w.grants[grant].status == Issued
      modifies this`binding, store
      ensures Valid() && Grows(old(store.w), store.w)
      ensures result != Unknown ==> AnswerOk(store.w, Answer(Key(grant, op), result))
      ensures calm && published && r !in old(store.w).ledger.runs ==>
                && result == ClaimAnswer(old(store.w), grant, r, matches, admitted)
                && (result.Succeeded? ==> binding == Some(r))
    {
      hide LifecycleInv, Grows, IsReady, AnswerOk, Born, RunOf, RefusalCode, ReservedBy, RefusedBy, ClaimedBy,
           StillHeld, NativeOk;
      result := Unknown;
      ghost var start := store.w;
      NotReadyYet(store.w, grant, binding);
      var ok := store.Reserve(grant, op);
      ReservedIsHeld(start, grant, op);
      var alive: bool := *;
      alive := alive || calm;
      if !alive { return; }
      ghost var reserved := store.w;
      Yield(calm);
      GrowsIsTransitive(start, reserved, store.w);
      ghost var before := store.w;
      ok := store.Decide(grant, op, r, lease, matches, admitted);
      GrowsIsTransitive(start, before, store.w);
      if !ok { return; }
      DecidedAnswers(before, grant, op, r, lease);
      DecidedIsNative(before, grant, op, r, lease, matches, admitted);
      if store.w.ops[Key(grant, op)].phase == Refused_ {
        KnownRecord(store.w, Key(grant, op));
        return ResultOf(store.w.ops[Key(grant, op)]);
      }
      alive := *;
      alive := alive || calm;
      if !alive || !published { return; }
      ghost var decided := store.w;
      Yield(calm);
      GrowsIsTransitive(start, decided, store.w);
      ghost var last := store.w;
      ok := store.MarkReady(grant, op, r, published);
      GrowsIsTransitive(start, last, store.w);
      if !ok { return; }
      NowReady(last, grant, op, r);
      KnownRecord(store.w, Key(grant, op));
      binding := Some(r);
      result := Succeeded(r);
    }

    /** `claim`: a definite answer is recorded; a calm claim of an issued grant is answered by the
        ledger alone, and a repeated one by its record, without another attempt. */
    method Claim(op: string, r: RunId, lease: string, matches: bool, admitted: bool, published: bool, healthy: bool,
                 calm: bool)
      returns (result: Result)
      requires Valid()
      modifies this`binding, store
      ensures Valid() && Grows(old(store.w), store.w)
      ensures result != Unknown ==>
                AnswerOk(store.w, Answer(Key(grant, op), result)) && Answer(Key(grant, op), result) in store.w.answers
      ensures result.Succeeded? ==> binding == Some(result.run) && IsReady(store.w, grant, result.run)
      ensures result.Succeeded? ==>
                Born(store.w, grant, result.run) && RunOf(store.w.ledger, store.w.grants[grant].spec, result.run)
      ensures calm && published && healthy && !closed && Unclaimed(old(store.w), grant, r) ==>
                && result == ClaimAnswer(old(store.w), grant, r, matches, admitted)
                && (result.Succeeded? <==>
                      && matches && admitted
                      && L.Grantable(old(store.w).ledger, old(store.w).grants[grant].spec.task,
                                     old(store.w).grants[grant].spec.attempt))
      ensures calm && old(Serves(healthy)) && Recorded(old(store.w), grant, op) ==>
                result == ResultOf(old(store.w).ops[Key(grant, op)])
      ensures calm && old(Serves(healthy)) && OfACheckpoint(old(store.w), grant, op) ==>
                result == Refused("lifecycle_conflict")
      ensures calm && old(Serves(healthy)) && TakenByAnother(old(store.w), grant, op) ==>
                result == Refused("lifecycle_consumed")
      ensures !old(Serves(healthy)) ==> result == Unknown && store.w == old(store.w) && binding == old(binding)
      ensures result.Succeeded? ==> !closed && healthy
      ensures calm && grant in old(store.w).grants && old(store.w).grants[grant].status != Issued ==>
                store.w == old(store.w).(answers := store.w.answers)
    {
      hide LifecycleInv, Grows, AnswerOk, Born, RunOf, RefusalCode, L.Grantable, Granted, HeldUp, Obstructed;
      if grant in store.w.grants { RefusalIsExact(store.w.ledger, store.w.grants[grant].spec, matches, admitted); }
      GrowsIsReflexive(store.w);
      result := Unknown;
      IssuedServes(store.w, grant, r);
      UnboundIsNotReady(store.w, grant, op);
      hide IsReady;
      var ok := Status(healthy);
      if !ok { return; }
      ghost var first := store.w;
      Yield(calm);
      GrowsIsTransitive(old(store.w), first, store.w);
      ghost var second := store.w;
      result := ClaimBody(op, r, lease, matches, admitted, published, calm);
      GrowsIsTransitive(old(store.w), second, store.w);
      if result.Succeeded? {
        if binding != Some(result.run) { return Unknown; }
        ok := Status(healthy);
        if !ok { return Unknown; }
      }
      if result == Unknown { return; }
      ghost var third := store.w;
      Report(op, result);
      GrowsIsTransitive(old(store.w), third, store.w);
      if result.Succeeded? { ReadyIsBorn(store.w, grant, result.run); }
    }

    /** The caller gets a definite answer. */
    method Report(op: string, result: Result)
      requires Valid() && AnswerOk(store.w, Answer(Key(grant, op), result))
      modifies store
      ensures Valid() && Grows(old(store.w), store.w)
              && store.w == old(store.w).(answers := old(store.w).answers + [Answer(Key(grant, op), result)])
      ensures AnswerOk(store.w, Answer(Key(grant, op), result)) && Answer(Key(grant, op), result) in store.w.answers
    {
      hide LifecycleInv, Grows, IsReady, AnswerOk;
      ghost var before := store.w;
      store.Tell(Key(grant, op), result);
      AnswerStays(before, store.w, Answer(Key(grant, op), result));
      if binding.Some? { ReadyStays(before, store.w, grant, binding.value); }
      assert store.w.answers[|before.answers|] == Answer(Key(grant, op), result);
    }

    /** `disposition`: reads what is recorded, and dispatches nothing. */
    method Disposition(op: string, healthy: bool) returns (result: Result)
      requires Valid()
      modifies store
      ensures Valid() && Grows(old(store.w), store.w)
      ensures store.w == old(store.w).(answers := store.w.answers)
      ensures result != Unknown ==>
                AnswerOk(store.w, Answer(Key(grant, op), result)) && Answer(Key(grant, op), result) in store.w.answers
      ensures result != Unknown ==> Key(grant, op) in store.w.ops && result == ResultOf(store.w.ops[Key(grant, op)])
      ensures old(Serves(healthy)) && Key(grant, op) in old(store.w).ops ==>
                result == ResultOf(old(store.w).ops[Key(grant, op)])
      ensures !old(Serves(healthy)) ==> result == Unknown
      ensures result == Unknown ==> store.w == old(store.w)
    {
      hide LifecycleInv, Grows, IsReady, AnswerOk;
      GrowsIsReflexive(store.w);
      RecordsOfGrant(store.w, grant, op);
      result := Unknown;
      var ok := Status(healthy);
      var k := Key(grant, op);
      if !ok || k !in store.w.ops { return; }
      var grantNow, record := store.w.grants[grant], store.w.ops[k];
      KnownRecord(store.w, k);
      RecordIsLinked(store.w, k);
      if record.kind == ClaimKind && grantNow.claimId != Some(op) { return; }
      if record.kind == CheckpointKind {
        if op !in grantNow.checkpoints || grantNow.claimId.None? { return; }
        var claim := Key(grant, grantNow.claimId.value);
        if claim !in store.w.ops || store.w.ops[claim].kind != ClaimKind || !store.w.ops[claim].phase.Ready?
           || store.w.ops[claim].run != record.run {
          return;
        }
      }
      if ResultOf(record) == Unknown { return; }
      Report(op, ResultOf(record));
      result := ResultOf(record);
    }

    /** `checkpoint`: anchored durably, then applied together with its mark. */
    method Checkpoint(op: string, fingerprint: string, session: bool, healthy: bool, calm: bool)
      returns (result: Result)
      requires Valid()
      modifies store
      ensures Valid() && Grows(old(store.w), store.w)
      ensures result.Succeeded? ==> binding == Some(result.run) && Key(grant, op) in store.w.applied
      ensures result.Succeeded? ==>
                Key(grant, op) in store.w.ops && store.w.ops[Key(grant, op)].fingerprint == fingerprint
      ensures Key(grant, op) in old(store.w).ops ==> store.w == old(store.w)
      ensures !old(Serves(session)) ==> result == Unknown && store.w == old(store.w)
      ensures old(Serves(session)) && binding.None? ==>
                result == Refused("lifecycle_not_bound") && store.w == old(store.w)
      ensures binding.Some? && !(grant in old(store.w).grants
                                 && NativeOk(old(store.w).ledger, old(store.w).grants[grant].spec, binding.value)) ==>
                result == Unknown && store.w == old(store.w)
      ensures old(Serves(session)) && binding.Some?
              && NativeOk(old(store.w).ledger, old(store.w).grants[grant].spec, binding.value)
              && Key(grant, op) in old(store.w).ops ==>
                var known := old(store.w).ops[Key(grant, op)];
                result == if known.kind != CheckpointKind || known.fingerprint != fingerprint then
                            Refused("lifecycle_conflict")
                          else ResultOf(known)
      ensures old(Serves(session)) && binding.Some?
              && NativeOk(old(store.w).ledger, old(store.w).grants[grant].spec, binding.value)
              && Key(grant, op) !in old(store.w).ops && |old(store.w).grants[grant].checkpoints| >= CHECKPOINT_MAX ==>
                result == Refused("lifecycle_capacity") && store.w == old(store.w)
      ensures result.Succeeded? && Key(grant, op) !in old(store.w).ops ==> healthy
      ensures calm && session && healthy && old(Serves(session)) && binding.Some? && Anchorable(old(store.w), grant, op)
              && NativeOk(old(store.w).ledger, old(store.w).grants[grant].spec, binding.value)
              ==> result == Succeeded(binding.value)
      ensures result.Succeeded? && Key(grant, op) !in old(store.w).ops ==>
                && grant in old(store.w).grants
                && NativeOk(old(store.w).ledger, old(store.w).grants[grant].spec, result.run)
    {
      hide LifecycleInv, Grows, IsReady, StillHeld, NativeOk;
      GrowsIsReflexive(store.w);
      var ok := Status(session);
      if !ok { return Unknown; }
      if binding.None? { return Refused("lifecycle_not_bound"); }
      if !session { return Unknown; }
      ok := store.ValidateNative(grant, binding.value);
      if !ok { return Unknown; }
      var k := Key(grant, op);
      if k in store.w.ops {
        var previous := store.w.ops[k];
        RecordIsLinked(store.w, k);
        if previous.kind != CheckpointKind { return Refused("lifecycle_conflict"); }
        if op !in store.w.grants[grant].checkpoints { return Unknown; }
        if previous.fingerprint != fingerprint { return Refused("lifecycle_conflict"); }
        if previous.run != binding { return Unknown; }
        DoneIsApplied(store.w, k);
        return ResultOf(previous);
      }
      CheckpointsAreRecorded(store.w, grant, op);
      if op in store.w.grants[grant].checkpoints { return Unknown; }
      if |store.w.grants[grant].checkpoints| >= CHECKPOINT_MAX { return Refused("lifecycle_capacity"); }
      result := CheckpointNew(op, fingerprint, healthy, calm);
    }

    method CheckpointNew(op: string, fingerprint: string, healthy: bool, calm: bool) returns (result: Result)
      requires Valid() && binding.Some?
      modifies store
      ensures Valid() && Grows(old(store.w), store.w)
      ensures result in {Unknown, Succeeded(binding.value)}
      ensures result.Succeeded? ==> healthy
      ensures calm && healthy && !closed && Anchorable(old(store.w), grant, op)
              && NativeOk(old(store.w).ledger, old(store.w).grants[grant].spec, binding.value)
              ==> result == Succeeded(binding.value)
      ensures result.Succeeded? ==> Key(grant, op) in store.w.applied
      ensures result.Succeeded? ==>
                Key(grant, op) in store.w.ops && store.w.ops[Key(grant, op)].fingerprint == fingerprint
    {
      hide LifecycleInv, Grows, IsReady, NativeOk;
      ghost var start := store.w;
      var r := binding.value;
      var ok := store.Anchor(grant, op, fingerprint, r, true);
      ReadyStays(start, store.w, grant, r);
      var alive: bool := *;
      alive := alive || calm;
      if !ok || !alive { return Unknown; }
      NowAnchored(start, grant, op, fingerprint, r);
      ghost var anchored := store.w;
      Yield(calm);
      GrowsIsTransitive(start, anchored, store.w);
      ghost var before := store.w;
      var session: bool := *;
      ok := store.Apply(grant, op, fingerprint, r, session || calm);
      GrowsIsTransitive(start, before, store.w);
      ReadyStays(before, store.w, grant, r);
      if !ok { return Unknown; }
      assert store.w.applied[|before.applied|] == Key(grant, op);
      ReadyIsGranted(store.w, grant, r);
      ok := Status(healthy);
      result := if ok then Succeeded(r) else Unknown;
    }
  }

  /** A new operation, with room for its anchor. */
  predicate Anchorable(w: World, g: GrantId, op: string) {
    g in w.grants && Key(g, op) !in w.ops && |w.grants[g].checkpoints| < CHECKPOINT_MAX
  }

  lemma CheckpointsAreRecorded(w: World, g: GrantId, op: string)
    requires LifecycleInv(w) && g in w.grants
    ensures op in w.grants[g].checkpoints ==> Key(g, op) in w.ops
  {
  }

  lemma ReadyIsGranted(w: World, g: GrantId, r: RunId)
    requires IsReady(w, g, r)
    ensures g in w.grants && w.grants[g].status == Consumed
  {
  }

  lemma NowAnchored(w: World, g: GrantId, op: string, fingerprint: string, r: RunId)
    requires IsReady(w, g, r) && Key(g, op) !in w.ops
    ensures IsAnchored(AnchoredBy(w, g, op, fingerprint, r), g, op, fingerprint, r)
  {
  }

  lemma DoneIsApplied(w: World, k: Key)
    requires LifecycleInv(w) && k in w.ops && w.ops[k].kind == CheckpointKind
    ensures ResultOf(w.ops[k]).Succeeded? ==> k in w.applied
  {
    hide LedgerState.Inv;
    assert RecordOk(w, k);
    hide StoreInv;
  }
}
