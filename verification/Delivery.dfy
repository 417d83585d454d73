/** The ledger and the publishers of one run together.  Ledger transactions and publication steps
    interleave in any order; a publisher in the middle of a call sees every transaction that its
    own environment allows, and the transactions are shown to be such steps. */
module Delivery {
  import L = LedgerState
  import opened Ledger
  import opened Git
  import opened Publication

  const BESIDE := Environment(true, true)

  /** A run that is not finished and was never published may take part. */
  lemma AnyUnfinishedRun(cfg: Config, w: World)
    requires LedgerOk(cfg, w.ledger, false) && !InState(cfg, w.ledger, L.RunComplete)
    requires w.repo.head in w.objects && w.journal.None? && w.advances == 0
    ensures Safe(cfg, w)
  {
    hide LedgerOk;
  }

  /** A transaction that leaves publication alone is one of the steps a publisher reckons with. */
  lemma TransactionIsAllowed(cfg: Config, w: World, after: L.State)
    requires Safe(cfg, w) && L.Inv(after) && L.Keeps(w.ledger, after)
    requires cfg.run in after.publishing <==> cfg.run in w.ledger.publishing
    requires cfg.kind != NoGit && InState(cfg, after, L.RunComplete) ==> InState(cfg, w.ledger, L.RunComplete)
    ensures Safe(cfg, w.(ledger := after)) && Grows(cfg, BESIDE, w, w.(ledger := after))
  {
    hide L.Inv, CommitMatches;
    RunStaysKnown(cfg, w.ledger, after);
    hide L.Keeps;
  }

  lemma RunStaysKnown(cfg: Config, before: L.State, after: L.State)
    requires L.Inv(before) && L.Keeps(before, after) && cfg.run in before.runs
    ensures cfg.run in after.runs && (L.Publishes(after, cfg.run) <==> L.Publishes(before, cfg.run))
    ensures Releasing(cfg, before) ==> Releasing(cfg, after)
    ensures InState(cfg, before, L.RunComplete) ==> InState(cfg, after, L.RunComplete)
  {
    hide L.Exclusive, L.Reserved, L.Held, L.Settled, L.Proven, L.Counted, L.Queued;
    assert L.RunKept(before, after, cfg.run) && L.TaskKept(before, after, before.runs[cfg.run].taskId);
  }

  /** One ledger transaction of anybody but the run's own publishers.  A readmission on record is
      answered from its record and changes nothing, so the records themselves are not needed. */
  method Transaction(p: Publisher)
    requires Safe(p.cfg, p.w)
    modifies p
    ensures Safe(p.cfg, p.w) && Grows(p.cfg, BESIDE, old(p.w), p.w) && p.w == old(p.w).(ledger := p.w.ledger)
    ensures L.Keeps(old(p.w).ledger, p.w.ledger)
  {
    hide L.Inv, L.Keeps, Grows;
    var l := new Ledger(p.w.ledger);
    var who: nat := *;
    if who == 0 {
      WorkerStep(l);
    } else if who == 1 {
      JudgeStep(l);
    } else if who == 2 {
      OperatorStep(l);
    } else if who == 3 {
      ReadmissionStep(l);
    } else {
      OtherPublication(l, p.cfg.run);
    }
    TransactionIsAllowed(p.cfg, p.w, l.s);
    p.w := p.w.(ledger := l.s);
  }

  /** What the publishers of another run do to the ledger. */
  method OtherPublication(l: Ledger, mine: L.RunId)
    requires L.Inv(l.s)
    modifies l`s
    ensures L.Inv(l.s) && L.Keeps(old(l.s), l.s)
    ensures mine in l.s.publishing <==> mine in old(l.s).publishing
    ensures Completes(l.s, mine) <==> Completes(old(l.s), mine)
  {
    hide L.Inv, L.Keeps, L.Owned;
    L.KeepsIsReflexive(l.s);
    var choice: nat, r: L.RunId, seen: L.State := *, *, *;
    if r == mine {
    } else if choice == 0 {
      l.DropPublication(r);
    } else if L.Keeps(seen, l.s) && MayPublish(seen, r) {
      if choice == 1 {
        l.StartPublishing(r, seen);
      } else {
        l.FinalizePublication(r, seen);
      }
    }
  }

  /** Everything together, in any order and any number: ledger transactions, publications and
      reconciliations of the run that may stop anywhere, and whatever else happens to the
      repository and the remote.  The ledger stays in order, and a finished run stays delivered. */
  method AnyHistory(p: Publisher, rounds: nat)
    requires Safe(p.cfg, p.w)
    modifies p
    ensures Safe(p.cfg, p.w) && Grows(p.cfg, BESIDE, old(p.w), p.w)
  {
    hide LedgerOk, Releasing, InState, Safe;
    if rounds > 0 {
      var who: nat, resume: bool := *, *;
      if who == 0 {
        Transaction(p);
      } else if who == 1 {
        var _ := p.Publish(BESIDE);
      } else if who == 2 {
        var _ := p.Reconcile(BESIDE, resume);
      } else {
        var _ := p.Pause(BESIDE);
      }
      AnyHistory(p, rounds - 1);
    }
  }

  /** It passed its checks, its review where one was required, and its owner where one was asked. */
  predicate Evidenced(s: L.State, r: L.RunId) {
    && r in s.runs && s.runs[r].checksPassed && s.runs[r].snapshot.Some?
    && s.runs[r].review in {L.NotRequired, L.Accepted} && L.Owned(s, r)
  }

  /** One commit on the base with exactly the manifest's changes, which was HEAD of the repository
      and, where a remote is asked for, was read back from it. */
  predicate Out(cfg: Config, w: World, c: Commit) {
    && cfg.base.Some? && c.parents == [cfg.base.value] && c.tree == ApplyManifest(cfg.base.value.tree, cfg.manifest)
    && c in w.seen && (cfg.kind == GitRemote ==> c in w.readBack)
  }

  /** A task that publishes is DONE through one run only, and what that run verified is out. */
  lemma DoneMeansDelivered(cfg: Config, w: World)
    requires Safe(cfg, w) && cfg.kind != NoGit
    ensures cfg.run in w.ledger.runs && w.ledger.runs[cfg.run].taskId in w.ledger.tasks
    ensures var t := w.ledger.runs[cfg.run].taskId;
            L.Completed(w.ledger, cfg.run, t) ==>
              && w.ledger.tasks[t].status == L.Done && (forall r :: L.Completed(w.ledger, r, t) ==> r == cfg.run)
              && Evidenced(w.ledger, cfg.run) && w.finished.Some? && Out(cfg, w, w.finished.value)
  {
    L.RunIsBacked(w.ledger, cfg.run);
    var t := w.ledger.runs[cfg.run].taskId;
    if L.Completed(w.ledger, cfg.run, t) {
      var r := L.DoneIsEvidenced(w.ledger, t);
      CommitMatchesIsExact(w.finished.value, Base(cfg), cfg.manifest);
    }
  }
}
