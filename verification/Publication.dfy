/** Git publication of a verified run, and the reconciliation that repairs it.

    The durable world survives a crash; a crash may fall before every atomic step
    (one ledger update or one Git side effect).  The same methods are run in three
    environments: alone and fault-free, alone with faults and crashes, and beside
    any number of other publishers, reconcilers, ledger transactions and Git users.  The
    run and its task live in the ledger, which is part of the world. */
module Publication {
  import opened Common
  import opened Git
  import L = LedgerState
  import RelativePath

  datatype Kind = NoGit | GitLocal | GitRemote
  datatype Phase = Intent | Staged | Prepared | Committed | Pushed | RemoteVerified | Complete | Abandoned

  datatype Journal = Journal(
    status: Phase,
    kind: Kind,
    expectedBase: Commit,
    stagedRecorded: bool,
    commit: Option<Commit>,
    remoteCommit: Option<Commit>,
    failed: bool)

  /** What the task and its verified snapshot fix before publication starts. */
  datatype Config = Config(
    run: L.RunId,
    kind: Kind,
    branch: string,
    base: Option<Commit>,
    manifest: Manifest,
    protectedFiles: map<Path, Blob>,
    allowed: seq<string>,
    remoteUrl: bool,
    unfiltered: bool)

  /** `seen`, `readBack`, `finished`, `advances` and `resets` are history: commits OrchKit observed or
      swapped HEAD to, commits it read from the remote ref, the commit the run was finalized
      with, its branch swaps, and the times anything moved HEAD back onto the base. */
  datatype World = World(
    objects: set<Commit>,
    repo: Repo,
    remote: Option<Commit>,
    journal: Option<Journal>,
    ledger: L.State,
    seen: set<Commit>,
    readBack: set<Commit>,
    finished: Option<Commit>,
    advances: nat,
    resets: nat)

  datatype Environment = Environment(faults: bool, others: bool)
  const ALONE := Environment(false, false)

  datatype PublishResult =
    | Published(commit: Option<Commit>, remoteCommit: Option<Commit>)
    | Refused(reason: string)      // raised before the intent was recorded
    | Raised(reason: string)       // raised after the intent was recorded
    | PublishCrashed

  datatype Verdict =
    | NoPublication
    | Completed(commit: Option<Commit>, remoteCommit: Option<Commit>)
    | SafeToRetry
    | StagedPendingCommit
    | PreparedPendingRefUpdate
    | RemotePending
    | Blocked(reason: string)
    | ReconcileRaised
    | ReconcileCrashed

  // ---------------------------------------------------------------- observations

  function Base(cfg: Config): Commit
    requires cfg.base.Some?
  {
    cfg.base.value
  }

  /** The snapshot and the protected files still describe the work tree. */
  predicate SnapshotCurrent(cfg: Config, repo: Repo) {
    && FilesMatch(repo.files, cfg.manifest)
    && forall p :: p in cfg.protectedFiles ==> p in repo.files && repo.files[p].blob == cfg.protectedFiles[p]
  }

  /** Work tree, index and HEAD show the manifest's paths and nothing else, on the base. */
  predicate WorkspaceGuard(cfg: Config, repo: Repo, base: Commit) {
    && SnapshotCurrent(cfg, repo)
    && Observed(repo) - cfg.protectedFiles.Keys == cfg.manifest.Keys
    && (forall p :: p in cfg.manifest ==> RelativePath.PathAllowed(p, cfg.allowed))
    && repo.head == base
  }

  predicate Proven(cfg: Config, w: World, c: Commit) {
    cfg.base.Some? && c in w.objects && CommitMatches(c, Base(cfg), cfg.manifest)
  }

  /** A push is accepted when the remote ref is an ancestor of the pushed commit. */
  predicate Reaches(c: Commit, ancestor: Commit)
    decreases c
  {
    c == ancestor || exists i :: 0 <= i < |c.parents| && Reaches(c.parents[i], ancestor)
  }

  predicate PushAccepted(w: World, c: Commit) {
    w.remote == None || Reaches(c, w.remote.value)
  }

  /** The remote ref is unset or on the base or one of its ancestors. */
  predicate PushOpen(cfg: Config, w: World) {
    w.remote == None || (cfg.base.Some? && Reaches(Base(cfg), w.remote.value))
  }

  // ---------------------------------------------------------------- the run in the ledger

  predicate InState(cfg: Config, s: L.State, state: L.RunState) {
    cfg.run in s.runs && s.runs[cfg.run].state == state
  }

  /** Verified or already finished, and approved where the owner has to accept. */
  predicate Releasing(cfg: Config, s: L.State) {
    (InState(cfg, s, L.Verified) || InState(cfg, s, L.RunComplete)) && L.Owned(s, cfg.run)
  }

  /** An abandoned row counts as none. */
  predicate RowOpen(j: Option<Journal>) {
    j.Some? && j.value.status != Abandoned
  }

  /** The ledger is in order, and shows the run as being published when its row is open. */
  ghost predicate LedgerOk(cfg: Config, s: L.State, open: bool) {
    && L.Inv(s) && cfg.run in s.runs
    && (L.Publishes(s, cfg.run) <==> cfg.kind != NoGit)
    && (cfg.run in s.publishing <==> open)
  }

  function Rows(cfg: Config, s: L.State, open: bool): L.State {
    s.(publishing := if open then s.publishing + {cfg.run} else s.publishing - {cfg.run})
  }

  /** The publication row is written or deleted. */
  function Rowed(cfg: Config, w: World, j: Option<Journal>): World {
    w.(journal := j, ledger := if RowOpen(j) == RowOpen(w.journal) then w.ledger else Rows(cfg, w.ledger, RowOpen(j)))
  }

  /** The run stands where it stood. */
  predicate SameRun(cfg: Config, before: L.State, after: L.State) {
    && (InState(cfg, before, L.Verified) <==> InState(cfg, after, L.Verified))
    && (InState(cfg, before, L.RunComplete) <==> InState(cfg, after, L.RunComplete))
    && (Releasing(cfg, before) <==> Releasing(cfg, after))
  }

  lemma RowedIsOk(cfg: Config, w: World, j: Option<Journal>)
    requires LedgerOk(cfg, w.ledger, RowOpen(w.journal)) && cfg.kind != NoGit
    requires RowOpen(j) ==> Releasing(cfg, w.ledger)
    ensures LedgerOk(cfg, Rowed(cfg, w, j).ledger, RowOpen(j)) && SameRun(cfg, w.ledger, Rowed(cfg, w, j).ledger)
    ensures L.StatusOf(Rowed(cfg, w, j).ledger, cfg.run) == L.StatusOf(w.ledger, cfg.run)
  {
    hide L.Inv, L.Keeps;
    L.DroppingKeepsInv(w.ledger, cfg.run);
    if RowOpen(j) { L.PublishingKeepsInv(w.ledger, cfg.run); }
  }

  /** The run is complete and its task done. */
  function RunFinished(cfg: Config, s: L.State): L.State {
    if cfg.run in s.runs && s.runs[cfg.run].taskId in s.tasks then
      L.Wrote(s, cfg.run, s.runs[cfg.run].(state := L.RunComplete), L.Done)
    else s
  }

  lemma RunFinishedIsOk(cfg: Config, s: L.State, open: bool)
    requires LedgerOk(cfg, s, open) && cfg.kind != NoGit && Releasing(cfg, s)
    ensures LedgerOk(cfg, RunFinished(cfg, s), open) && Releasing(cfg, RunFinished(cfg, s))
    ensures InState(cfg, RunFinished(cfg, s), L.RunComplete) && L.StatusOf(RunFinished(cfg, s), cfg.run) == L.Done
  {
    hide L.Inv, L.Keeps;
    L.FinalizingKeepsInv(s, cfg.run);
  }

  // ---------------------------------------------------------------- safety

  /** What makes a completed publication true. */
  ghost predicate Delivered(cfg: Config, w: World, c: Commit) {
    && Proven(cfg, w, c)
    && c in w.seen
    && (cfg.kind == GitRemote ==> c in w.readBack)
  }

  ghost predicate Safe(cfg: Config, w: World) {
    && w.repo.head in w.objects
    && LedgerOk(cfg, w.ledger, RowOpen(w.journal))
    && (w.journal.Some? ==> Releasing(cfg, w.ledger))
    && (w.journal.Some? ==>
          cfg.base.Some? && w.journal.value.expectedBase == Base(cfg) && cfg.manifest != map[] && cfg.kind != NoGit)
    && (w.journal.Some? && w.journal.value.status == Complete ==>
          && w.journal.value.commit.Some?
          && Delivered(cfg, w, w.journal.value.commit.value)
          && (cfg.kind == GitRemote ==> w.journal.value.remoteCommit == w.journal.value.commit))
    && (InState(cfg, w.ledger, L.RunComplete) && cfg.kind != NoGit ==>
          cfg.manifest != map[] && w.finished.Some? && Delivered(cfg, w, w.finished.value))
    && (cfg.base.Some? ==> w.advances + (if w.repo.head == Base(cfg) then 1 else 0) <= 1 + w.resets)
  }

  /** What every process leaves intact: history and Git objects only grow, a released run stays
      released and a finished one finished, and only someone else moves HEAD back onto the base. */
  ghost predicate Grows(cfg: Config, env: Environment, before: World, after: World) {
    && before.objects <= after.objects
    && before.seen <= after.seen
    && before.readBack <= after.readBack
    && before.advances <= after.advances
    && before.resets <= after.resets
    && (!env.others ==> after.resets == before.resets)
    && (Releasing(cfg, before.ledger) ==> Releasing(cfg, after.ledger))
    && (InState(cfg, before.ledger, L.RunComplete) ==> InState(cfg, after.ledger, L.RunComplete))
  }

  /** COMPLETE means: a single child of the expected base holding exactly the manifest's
      contents and modes, that HEAD was observed or swapped to, read back from the remote
      for kind `git`; and without outside resets the branch was advanced at most once. */
  lemma CompleteIsDelivered(cfg: Config, w: World)
    requires Safe(cfg, w)
    requires w.journal.Some? && w.journal.value.status == Complete
    ensures w.journal.value.commit.Some?
    ensures var c := w.journal.value.commit.value; var b := w.journal.value.expectedBase;
            && c.parents == [b] && c.tree == ApplyManifest(b.tree, cfg.manifest)
            && (forall p :: p in cfg.manifest ==> !SameAt(b.tree, c.tree, p))
            && c in w.seen
            && (cfg.kind == GitRemote ==> c in w.readBack && w.journal.value.remoteCommit == Some(c))
    ensures w.advances <= 1 + w.resets
  {
    CommitMatchesIsExact(w.journal.value.commit.value, Base(cfg), cfg.manifest);
  }

  // ---------------------------------------------------------------- states of a run left alone

  /** The repository as a verified run leaves it when nobody else touches it. */
  ghost predicate Workable(cfg: Config, w: World) {
    && cfg.base.Some? && cfg.kind != NoGit && cfg.manifest != map[] && cfg.unfiltered
    && InState(cfg, w.ledger, L.Verified) && Releasing(cfg, w.ledger)
    && w.repo.branch == cfg.branch
    && WorkspaceGuard(cfg, w.repo, Base(cfg))
    && Base(cfg) in w.objects
  }

  ghost predicate Ready(cfg: Config, w: World) {
    && Workable(cfg, w)
    && w.repo.index == w.repo.head.tree
    && (w.journal.None? || (w.journal.value.status == Abandoned && w.journal.value.commit.None?))
  }

  /** A verified run on its base, with nothing staged, and no row but perhaps an abandoned one. */
  ghost predicate Startable(cfg: Config, w: World) {
    Workable(cfg, w) && w.repo.index == w.repo.head.tree && (w.journal.None? || Dropped(w))
  }

  /** The row is of an abandoned attempt; the next one deletes it. */
  predicate Dropped(w: World) {
    w.journal.Some? && w.journal.value.status == Abandoned
  }

  /** The work tree is what was verified: every recorded file with its content and permission bits,
      deleted files gone, and every protected file with its content. */
  predicate AsVerified(cfg: Config, files: map<Path, File>) {
    && (forall p :: p in cfg.manifest && cfg.manifest[p].Deleted? ==> p !in files)
    && (forall p :: p in cfg.manifest && cfg.manifest[p].Present? ==>
          p in files && files[p].blob == cfg.manifest[p].blob && files[p].mode == cfg.manifest[p].mode)
    && (forall p :: p in cfg.protectedFiles ==> p in files && files[p].blob == cfg.protectedFiles[p])
  }

  lemma CurrentMeansAsVerified(cfg: Config, repo: Repo)
    ensures SnapshotCurrent(cfg, repo) <==> AsVerified(cfg, repo.files)
  {
  }

  /** What the guard lets through, path by path: the work tree as verified, on the base, every recorded
      path inside the allowlist, and outside the protected files nothing that differs between HEAD,
      index and work tree except exactly the recorded paths. */
  lemma GuardMeans(cfg: Config, repo: Repo, base: Commit)
    ensures WorkspaceGuard(cfg, repo, base) <==>
            && AsVerified(cfg, repo.files) && repo.head == base
            && (forall p :: p in cfg.manifest ==> RelativePath.PathAllowed(p, cfg.allowed) && p !in cfg.protectedFiles)
            && (forall p: Path :: p !in cfg.protectedFiles ==>
                  (p in cfg.manifest <==>
                     At(repo.head.tree, p) != At(repo.index, p) || At(repo.index, p) != At(AsTree(repo.files), p)))
  {
    hide RelativePath.PathAllowed;
    CurrentMeansAsVerified(cfg, repo);
    hide SnapshotCurrent, AsVerified;
    assert forall p: Path ::
        p in Observed(repo) <==>
        At(repo.head.tree, p) != At(repo.index, p) || At(repo.index, p) != At(AsTree(repo.files), p);
  }

  function At(tree: Tree, p: Path): Option<Entry> {
    if p in tree then Some(tree[p]) else None
  }

  /** The row is open in the ledger exactly while there is a journal that was not abandoned. */
  lemma RowIsOpen(cfg: Config, w: World)
    requires Safe(cfg, w)
    ensures cfg.run in w.ledger.publishing <==> w.journal.Some? && w.journal.value.status != Abandoned
  {
  }

  ghost predicate AtIntent(cfg: Config, w: World) {
    && Workable(cfg, w)
    && w.repo.index == w.repo.head.tree
    && w.journal.Some? && w.journal.value.status == Intent && w.journal.value.commit.None?
  }

  ghost predicate AtStaged(cfg: Config, w: World) {
    && Workable(cfg, w)
    && StagedMatches(w.repo, cfg.manifest)
    && w.journal.Some? && w.journal.value.status in {Intent, Staged, Prepared} && w.journal.value.commit.None?
  }

  ghost predicate AtPrepared(cfg: Config, w: World) {
    && Workable(cfg, w)
    && StagedMatches(w.repo, cfg.manifest)
    && w.journal.Some? && w.journal.value.status == Prepared && w.journal.value.commit.Some?
    && Proven(cfg, w, w.journal.value.commit.value)
  }

  ghost predicate AtAdvanced(cfg: Config, w: World) {
    && cfg.base.Some? && cfg.kind != NoGit && Releasing(cfg, w.ledger)
    && w.journal.Some? && AfterSwap(w.journal.value.status)
    && w.journal.value.commit == Some(w.repo.head)
    && Proven(cfg, w, w.repo.head)
  }

  ghost predicate AtDone(cfg: Config, w: World) {
    && InState(cfg, w.ledger, L.RunComplete) && L.StatusOf(w.ledger, cfg.run) == L.Done
    && w.journal.Some? && w.journal.value.status == Complete
    && w.journal.value.commit == Some(w.repo.head)
  }

  /** The answer is what the journal holds. */
  predicate Tells(w: World, commit: Option<Commit>, remoteCommit: Option<Commit>) {
    w.journal.Some? && w.journal.value.commit == commit && w.journal.value.remoteCommit == remoteCommit
  }

  ghost predicate Quiet(cfg: Config, w: World) {
    Ready(cfg, w) || AtIntent(cfg, w) || AtStaged(cfg, w) || AtPrepared(cfg, w) || AtAdvanced(cfg, w) || AtDone(cfg, w)
  }

  ghost predicate Pending(cfg: Config, w: World) {
    AtStaged(cfg, w) || AtPrepared(cfg, w) || AtAdvanced(cfg, w)
  }

  // ---------------------------------------------------------------- states somebody else left

  /** A journal that is not complete. */
  predicate Unfinished(w: World) {
    w.journal.Some? && w.journal.value.status != Complete
  }

  /** The journalled commit does not hold the snapshot. */
  predicate Unproven(cfg: Config, w: World) {
    Unfinished(w) && w.journal.value.commit.Some? && !Proven(cfg, w, w.journal.value.commit.value)
  }

  /** HEAD was moved off the base, and not to the journalled commit. */
  predicate Moved(cfg: Config, w: World) {
    Unfinished(w) && cfg.base.Some? && w.repo.head != Base(cfg) && w.journal.value.commit != Some(w.repo.head)
  }

  /** Somebody committed the snapshot, and the journal knows of no commit. */
  predicate Adoptable(cfg: Config, w: World) {
    Moved(cfg, w) && w.journal.value.commit.None? && Proven(cfg, w, w.repo.head)
  }

  /** HEAD is on the base, but the workspace does not show the snapshot. */
  predicate Disturbed(cfg: Config, w: World) {
    && Unfinished(w) && cfg.base.Some? && w.repo.head == Base(cfg) && !WorkspaceGuard(cfg, w.repo, Base(cfg))
    && (w.journal.value.commit.Some? ==> Proven(cfg, w, w.journal.value.commit.value))
  }

  ghost predicate Readable(cfg: Config, w: World) {
    Quiet(cfg, w) || Unproven(cfg, w) || Moved(cfg, w) || Disturbed(cfg, w)
  }

  /** Only what was observed is new. */
  predicate OnlySeen(before: World, after: World) {
    after == before.(seen := after.seen)
  }

  /** The answer where somebody else interfered: a commit that does not hold the snapshot and a HEAD
      that is not the journalled commit are refused, a changed workspace too; nothing is touched
      except that a bare intent may be given up. */
  ghost predicate Interfered(cfg: Config, before: World, after: World, v: Verdict) {
    && (Unproven(cfg, before) ==> v == Blocked("commit_not_proven") && OnlySeen(before, after))
    && (Moved(cfg, before) && before.journal.value.commit.Some? && !Unproven(cfg, before) ==>
          v == Blocked("publication_base_changed") && OnlySeen(before, after))
    && (Moved(cfg, before) && before.journal.value.commit.None? && !Adoptable(cfg, before) ==>
          v == Blocked("commit_not_proven") && OnlySeen(before, after))
    && (Disturbed(cfg, before) && StagedMatches(before.repo, cfg.manifest) ==>
          v == Blocked("publication_workspace_scope_changed") && OnlySeen(before, after))
    && (Disturbed(cfg, before) && !StagedMatches(before.repo, cfg.manifest) ==>
          if before.journal.value.commit.None? && before.journal.value.status == Intent
             && Changed(before.repo.head.tree, before.repo.index) == {} then
            v == SafeToRetry && after.repo == before.repo && after.remote == before.remote
            && after.objects == before.objects
            && after.journal == Some(before.journal.value.(status := Abandoned, failed := false))
          else v == Blocked("unexpected_staging_state") && OnlySeen(before, after))
  }

  /** Why a proven commit was not delivered. */
  function Undelivered(cfg: Config, resume: bool): Verdict {
    if !cfg.remoteUrl then Blocked("publication_remote_url_missing")
    else if resume then Blocked("remote_advanced") else RemotePending
  }

  /** A commit of the snapshot that somebody else made is adopted: it is journalled, and delivered like
      any other, with the same condition on the remote. */
  ghost predicate Adopted(cfg: Config, before: World, after: World, resume: bool, v: Verdict) {
    var c := before.repo.head;
    && cfg.base.Some? && after.journal.Some? && after.journal.value.commit == Some(c) && after.repo == before.repo
    && (AtAdvanced(cfg, after) || AtDone(cfg, after))
    && (v.Completed? <==>
          || cfg.kind == GitLocal
          || (cfg.remoteUrl && before.remote == Some(c))
          || (cfg.remoteUrl && resume && before.remote in {None, Some(Base(cfg))}))
    && (v.Completed? ==> AtDone(cfg, after) && v.commit == Some(c))
  }

  /** Nobody else moved the remote ref: it is unset, on the base, or on our commit. */
  predicate RemoteOpen(cfg: Config, w: World) {
    || cfg.kind == GitLocal
    || (cfg.remoteUrl && cfg.base.Some?
        && (w.remote == None || w.remote == Some(Base(cfg)) || (w.journal.Some? && w.journal.value.commit == w.remote)))
  }

  /** The remote ref already holds a commit of this very snapshot on the base.  A commit that is
      prepared only now may turn out to be the same one: its time stamp decides. */
  predicate RemoteIsSnapshot(cfg: Config, w: World) {
    && cfg.kind == GitRemote && cfg.remoteUrl && cfg.base.Some?
    && w.remote.Some? && CommitMatches(w.remote.value, Base(cfg), cfg.manifest)
  }

  /** Verified, still current, and approved where the owner has to accept. */
  predicate Releasable(cfg: Config, w: World) {
    InState(cfg, w.ledger, L.Verified) && SnapshotCurrent(cfg, w.repo) && Releasing(cfg, w.ledger)
  }

  /** A run that was just verified on its base, with nothing staged and nothing journalled. */
  lemma JustVerified(cfg: Config, w: World)
    requires Workable(cfg, w) && w.repo.index == w.repo.head.tree && w.journal.None? && w.finished.None?
    requires w.advances == 0 && w.resets == 0 && LedgerOk(cfg, w.ledger, false)
    ensures Safe(cfg, w) && Quiet(cfg, w)
  {
  }

  // ---------------------------------------------------------------- single ledger and Git steps

  function Journalled(cfg: Config, w: World, status: Phase, staged: bool, commit: Option<Commit>,
                      remoteCommit: Option<Commit>, failed: bool): World
    requires w.journal.Some?
  {
    var j := w.journal.value;
    Rowed(cfg, w, Some(j.(status := status, failed := failed,
                          stagedRecorded := staged || j.stagedRecorded,
                          commit := if commit.Some? then commit else j.commit,
                          remoteCommit := if remoteCommit.Some? then remoteCommit else j.remoteCommit)))
  }

  predicate SameButJournal(cfg: Config, before: World, after: World) {
    after == before.(journal := after.journal, ledger := after.ledger) && SameRun(cfg, before.ledger, after.ledger)
  }

  predicate AfterSwap(phase: Phase) {
    phase in {Prepared, Committed, Pushed, RemoteVerified}
  }

  function Finalized(cfg: Config, w: World, commit: Commit, remoteCommit: Option<Commit>): World {
    Rowed(cfg, w.(ledger := RunFinished(cfg, w.ledger), finished := Some(commit)),
          if w.journal.None? then None
          else Some(w.journal.value.(status := Complete, commit := Some(commit), remoteCommit := remoteCommit,
                                     failed := false)))
  }

  function Swapped(w: World, commit: Commit): World {
    w.(repo := w.repo.(head := commit), seen := w.seen + {commit}, advances := w.advances + 1)
  }

  /** One write of the publication row. */
  datatype Write = Write(status: Phase, staged: bool, commit: Option<Commit>, remoteCommit: Option<Commit>,
                         failed: bool)

  /** The last writes of a delivery: a pushed commit is read back before the row is completed. */
  function Delivering(writes: seq<Write>, kind: Kind, c: Commit, push: bool): seq<Write> {
    if kind == GitRemote then
      (if push then writes + [Write(Pushed, false, Some(c), None, false)] else writes)
      + [Write(RemoteVerified, false, Some(c), Some(c), false)] + [Write(Complete, false, Some(c), Some(c), false)]
    else writes + [Write(Complete, false, Some(c), None, false)]
  }

  function Advancing(writes: seq<Write>, c: Commit): seq<Write> {
    writes + [Write(Committed, false, Some(c), None, false)]
  }

  /** The writes that announce a prepared commit and its branch swap. */
  function Swapping(writes: seq<Write>, c: Commit): seq<Write> {
    Advancing(writes + [Write(Prepared, false, Some(c), None, false)], c)
  }

  /** All writes of one publication from its intent to its end. */
  function Journey(writes: seq<Write>, kind: Kind, c: Commit): seq<Write> {
    var staged := writes + [Write(Intent, false, None, None, false)] + [Write(Staged, true, None, None, false)];
    Delivering(Swapping(staged, c), kind, c, true)
  }

  /** How an undisturbed reconcile goes on from each state that has a proven commit or the staged index:
      it writes what is missing of the journey and nothing twice, or says why it stopped. */
  ghost predicate Resumed(cfg: Config, w: World, before: seq<Write>, after: seq<Write>, resume: bool, v: Verdict) {
    && (AtStaged(cfg, w) && v.Completed? ==>
          && v.commit.Some?
          && after == Delivering(Swapping(before, v.commit.value), cfg.kind, v.commit.value, w.remote != v.commit))
    && ((AtPrepared(cfg, w) || AtAdvanced(cfg, w) || Adoptable(cfg, w)) && v.Completed? ==>
          && v.commit == (if w.journal.value.commit.Some? then w.journal.value.commit else Some(w.repo.head))
          && after == Delivering(if w.journal.value.commit.Some? && w.journal.value.status == Committed then before
                                 else Advancing(before, v.commit.value),
                                 cfg.kind, v.commit.value, w.remote != v.commit))
    && ((AtAdvanced(cfg, w) || Adoptable(cfg, w)) && !v.Completed? ==> v == Undelivered(cfg, resume))
    && ((AtStaged(cfg, w) || AtPrepared(cfg, w)) && resume && !v.Completed? ==> v == Undelivered(cfg, resume))
  }

  class Publisher {
    const cfg: Config
    var w: World

    /** What this process wrote to the publication row, in order. */
    ghost var writes: seq<Write>

    constructor (cfg: Config, w: World)
      ensures this.cfg == cfg && this.w == w && writes == []
    {
      this.cfg, this.w, writes := cfg, w, [];
    }

    /** A gap between two atomic steps: a crash may end the process here, and other
        processes may have run any number of their own atomic steps. */
    method Pause(env: Environment) returns (alive: bool)
      requires Safe(cfg, w)
      modifies this
      ensures Safe(cfg, w) && Grows(cfg, env, old(w), w)
      ensures writes == old(writes)
      ensures !env.others ==> w == old(w)
      ensures !env.faults ==> alive
    {
      alive := *;
      alive := alive || !env.faults;
    }

    /** Whether the next command or ledger write reports a failure. */
    method Fails(env: Environment) returns (failed: bool)
      ensures !env.faults ==> !failed
    {
      failed := *;
      failed := failed && env.faults;
    }

    /** `_publication_update` of an existing row; without a row it raises. */
    method Update(env: Environment, status: Phase, staged: bool, commit: Option<Commit>,
                  remoteCommit: Option<Commit>, failed: bool) returns (alive: bool, ok: bool)
      requires Safe(cfg, w) && status != Complete
      modifies this
      ensures Safe(cfg, w) && Grows(cfg, env, old(w), w)
      ensures writes == if ok then old(writes) + [Write(status, staged, commit, remoteCommit, failed)] else old(writes)
      ensures !env.faults ==> alive
      ensures !env.others && ok ==>
                old(w).journal.Some? && w == Journalled(cfg, old(w), status, staged, commit, remoteCommit, failed)
      ensures !env.others && ok ==>
                var j := old(w).journal.value;
                && w.journal == Some(Journal(status, j.kind, j.expectedBase, j.stagedRecorded || staged,
                                             if commit.None? then j.commit else commit,
                                             if remoteCommit.None? then j.remoteCommit else remoteCommit, failed))
                && w == old(w).(journal := w.journal, ledger := w.ledger)
      ensures !env.others && !ok ==> w == old(w)
      ensures !env.others ==> SameRun(cfg, old(w).ledger, w.ledger)
      ensures ok ==> alive
      ensures env == ALONE && old(w).journal.Some? ==> ok
    {
      hide LedgerOk, RunFinished, Rows, Releasing, InState, L.StatusOf, L.Owned;
      ok := false;
      alive := Pause(env);
      if !alive { return; }
      var bad := Fails(env);
      if bad || w.journal.None? { return; }
      RowedIsOk(cfg, w, Journalled(cfg, w, status, staged, commit, remoteCommit, failed).journal);
      w := Journalled(cfg, w, status, staged, commit, remoteCommit, failed);
      writes := writes + [Write(status, staged, commit, remoteCommit, failed)];
      ok := true;
    }

    /** `git commit-tree` of the index on the base, kept only if it is the snapshot. */
    method PrepareCommit(env: Environment) returns (alive: bool, commit: Option<Commit>)
      requires Safe(cfg, w) && cfg.base.Some? && cfg.manifest != map[]
      modifies this
      ensures Safe(cfg, w) && Grows(cfg, env, old(w), w)
      ensures !env.faults ==> alive
      ensures writes == old(writes)
      ensures commit.Some? ==> alive && Proven(cfg, w, commit.value)
      ensures !env.others ==> w == old(w).(objects := w.objects)
      ensures env == ALONE && old(w).repo.head == Base(cfg) && StagedMatches(old(w).repo, cfg.manifest) ==> commit.Some?
    {
      hide LedgerOk, RunFinished, Rows, Releasing, InState, L.StatusOf, L.Owned;
      commit := None;
      alive := Pause(env);
      if !alive { return; }
      var bad := Fails(env);
      if bad { return; }
      var stamp: nat := *;
      var c := Commit([Base(cfg)], w.repo.index, stamp);
      w := w.(objects := w.objects + {c});
      alive := Pause(env);
      if !alive { return; }
      bad := Fails(env);
      if bad || !CommitMatches(c, Base(cfg), cfg.manifest) { return; }
      commit := Some(c);
    }

    /** `_publication_workspace_guard`: the observation it passed on, if it passed. */
    method Guard(env: Environment) returns (alive: bool, observed: Option<Repo>)
      requires Safe(cfg, w) && cfg.base.Some?
      modifies this
      ensures Safe(cfg, w) && Grows(cfg, env, old(w), w)
      ensures !env.faults ==> alive
      ensures writes == old(writes)
      ensures observed.Some? ==> alive && WorkspaceGuard(cfg, observed.value, Base(cfg))
      ensures !env.others ==> w == old(w) && (observed.None? || observed == Some(w.repo))
      ensures env == ALONE ==> alive && observed.Some? == WorkspaceGuard(cfg, old(w).repo, Base(cfg))
    {
      hide LedgerOk, RunFinished, Rows, Releasing, InState, L.StatusOf, L.Owned;
      observed := None;
      alive := Pause(env);
      if !alive { return; }
      var bad := Fails(env);
      if !bad && WorkspaceGuard(cfg, w.repo, Base(cfg)) {
        observed := Some(w.repo);
      }
    }

    /** `git update-ref` of the configured branch, a compare-and-swap against the base,
        only after the workspace guard has passed on an observation. */
    method SwapBranch(env: Environment, branch: string, commit: Commit, observed: Repo) returns (alive: bool, ok: bool)
      requires Safe(cfg, w) && Proven(cfg, w, commit) && cfg.manifest != map[]
      requires WorkspaceGuard(cfg, observed, Base(cfg))
      modifies this
      ensures Safe(cfg, w) && Grows(cfg, env, old(w), w)
      ensures !env.faults ==> alive
      ensures writes == old(writes)
      ensures ok ==> alive && commit in w.seen
      ensures !env.others && ok ==> old(w).repo.head == Base(cfg) && w == Swapped(old(w), commit)
      ensures !env.others && !ok ==> w == old(w)
      ensures !env.others && ok && AtPrepared(cfg, old(w)) && old(w).journal.value.commit == Some(commit) ==>
                AtAdvanced(cfg, w)
      ensures env == ALONE ==> (ok <==> old(w).repo.branch == branch && old(w).repo.head == Base(cfg))
    {
      hide RelativePath.PathAllowed, SnapshotCurrent, Observed, StagedMatches, CommitMatches, Rowed, LedgerOk,
           RunFinished, Rows, Releasing, InState, L.StatusOf, L.Owned;
      ok := false;
      alive := Pause(env);
      if !alive { return; }
      var bad := Fails(env);
      if bad || w.repo.branch != branch || w.repo.head != Base(cfg) { return; }
      ProvenIsChild(cfg, w, commit);
      w := Swapped(w, commit);
      ok := true;
    }

    /** `git push`; a reported failure may still have moved the remote ref. */
    method Push(env: Environment, commit: Commit) returns (alive: bool, ok: bool)
      requires Safe(cfg, w)
      modifies this
      ensures Safe(cfg, w) && Grows(cfg, env, old(w), w)
      ensures !env.faults ==> alive
      ensures writes == old(writes)
      ensures ok ==> alive
      ensures !env.others ==> w == old(w) || w == old(w).(remote := Some(commit))
      ensures !env.others && ok ==> w == old(w).(remote := Some(commit))
      ensures env == ALONE ==> (ok <==> PushAccepted(old(w), commit))
      ensures env == ALONE && !ok ==> w == old(w)
    {
      hide LedgerOk, RunFinished, Rows, Releasing, InState, L.StatusOf, L.Owned;
      ok := false;
      alive := Pause(env);
      if !alive { return; }
      var refused := Fails(env);
      if refused || !PushAccepted(w, commit) { return; }
      w := w.(remote := Some(commit));
      var lost := Fails(env);
      ok := !lost;
    }

    /** `git ls-remote`. */
    method ReadRemote(env: Environment) returns (alive: bool, remote: Option<Commit>)
      requires Safe(cfg, w)
      modifies this
      ensures Safe(cfg, w) && Grows(cfg, env, old(w), w)
      ensures !env.faults ==> alive
      ensures writes == old(writes)
      ensures remote.Some? ==> alive && remote.value in w.readBack
      ensures !env.others ==> w == old(w).(readBack := w.readBack)
      ensures !env.others ==> remote.None? || remote == old(w).remote
      ensures env == ALONE ==> alive && remote == old(w).remote
    {
      hide LedgerOk, RunFinished, Rows, Releasing, InState, L.StatusOf, L.Owned;
      remote := None;
      alive := Pause(env);
      if !alive { return; }
      var bad := Fails(env);
      if bad || w.remote.None? { return; }
      remote := w.remote;
      w := w.(readBack := w.readBack + {remote.value});
    }

    /** `_finalize_publication`: one transaction over journal, run and task. */
    method Finalize(env: Environment, commit: Commit, remoteCommit: Option<Commit>) returns (alive: bool, ok: bool)
      requires Releasing(cfg, w.ledger) && cfg.manifest != map[]
      requires cfg.kind != NoGit
      requires Safe(cfg, w) && Delivered(cfg, w, commit)
      requires cfg.kind == GitRemote ==> remoteCommit == Some(commit)
      modifies this
      ensures Safe(cfg, w) && Grows(cfg, env, old(w), w)
      ensures !env.faults ==> alive
      ensures writes == if ok then old(writes) + [Write(Complete, false, Some(commit), remoteCommit, false)]
                        else old(writes)
      ensures ok ==> alive
      ensures !env.others ==> w == if ok then Finalized(cfg, old(w), commit, remoteCommit) else old(w)
      ensures !env.others && ok ==> w.finished == Some(commit) && w.repo == old(w).repo && w.remote == old(w).remote
      ensures !env.others && ok && old(w).journal.Some? ==>
                w.journal == Some(old(w).journal.value.(status := Complete, commit := Some(commit),
                                                        remoteCommit := remoteCommit, failed := false))
      ensures !env.others && ok ==> InState(cfg, w.ledger, L.RunComplete) && L.StatusOf(w.ledger, cfg.run) == L.Done
      ensures env == ALONE ==> ok
    {
      hide LedgerOk, RunFinished, Rows, Releasing, InState, L.StatusOf, L.Owned;
      ok := false;
      alive := Pause(env);
      if !alive { return; }
      var bad := Fails(env);
      if bad { return; }
      assert Delivered(cfg, w, commit);
      RunFinishedIsOk(cfg, w.ledger, RowOpen(w.journal));
      RowedIsOk(cfg, w.(ledger := RunFinished(cfg, w.ledger), finished := Some(commit)),
                Finalized(cfg, w, commit, remoteCommit).journal);
      w := Finalized(cfg, w, commit, remoteCommit);
      writes := writes + [Write(Complete, false, Some(commit), remoteCommit, false)];
      assert Delivered(cfg, w, commit);
      ok := true;
    }

    // -------------------------------------------------------------- publish

    /** The ledger's part of the preflight; it drops an abandoned journal row. */
    method AdmitRun() returns (refusal: Option<string>, done: Option<PublishResult>)
      requires Safe(cfg, w)
      modifies this
      ensures Safe(cfg, w) && Grows(cfg, ALONE, old(w), w) && writes == old(writes)
      ensures done.Some? ==>
                && InState(cfg, old(w).ledger, L.Verified) && !InState(cfg, old(w).ledger, L.RunComplete)
                && old(w).journal.Some? && old(w).journal.value.status == Complete
                && done.value == Published(old(w).journal.value.commit, old(w).journal.value.remoteCommit)
      ensures refusal.None? && done.None? ==>
                && Releasable(cfg, old(w))
                && (old(w).journal.None? || old(w).journal.value.status == Abandoned)
                && w == Rowed(cfg, old(w), None) && SameRun(cfg, old(w).ledger, w.ledger) && Releasing(cfg, w.ledger)
      ensures
        || w == old(w)
        || (old(w).journal.Some? && old(w).journal.value.status == Abandoned && w == Rowed(cfg, old(w), None))
      ensures Releasable(cfg, old(w)) && (old(w).journal.None? || old(w).journal.value.status == Abandoned) ==>
                refusal.None? && done.None?
      // every other answer, by what stands in the way
      ensures !InState(cfg, old(w).ledger, L.Verified) ==> refusal == Some("run_not_verified") && w == old(w)
      ensures InState(cfg, old(w).ledger, L.Verified) && !AsVerified(cfg, old(w).repo.files) ==>
                refusal == Some("snapshot_stale") && w == old(w)
      ensures InState(cfg, old(w).ledger, L.Verified) && AsVerified(cfg, old(w).repo.files) && old(w).journal.Some? ==>
                && (old(w).journal.value.status == Complete ==> done.Some? && w == old(w))
                && (old(w).journal.value.status !in {Complete, Abandoned} ==>
                      refusal == Some("publication_reconciliation_required") && w == old(w))
    {
      hide LedgerOk, RunFinished, Rows;
      CurrentMeansAsVerified(cfg, w.repo);
      refusal, done := None, None;
      if !InState(cfg, w.ledger, L.Verified) { return Some("run_not_verified"), None; }
      if !SnapshotCurrent(cfg, w.repo) { return Some("snapshot_stale"), None; }
      if w.journal.Some? {
        var j := w.journal.value;
        if j.status == Complete { return None, Some(Published(j.commit, j.remoteCommit)); }
        if j.status != Abandoned { return Some("publication_reconciliation_required"), None; }
        RowedIsOk(cfg, w, None);
        w := Rowed(cfg, w, None);
      }
      if !L.Owned(w.ledger, cfg.run) { return Some("owner_approval_missing_or_stale"), None; }
    }

    /** Git's part of the preflight; it changes nothing. */
    method AdmitRepository(env: Environment) returns (alive: bool, refusal: Option<string>)
      requires Safe(cfg, w)
      modifies this
      ensures Safe(cfg, w) && Grows(cfg, env, old(w), w)
      ensures !env.faults ==> alive
      ensures writes == old(writes)
      ensures alive && refusal.None? ==> cfg.base.Some? && cfg.kind != NoGit && cfg.manifest != map[] && cfg.unfiltered
      ensures alive && refusal.None? ==> forall p :: p in cfg.manifest ==> RelativePath.PathAllowed(p, cfg.allowed)
      ensures !env.others ==> w == old(w)
      ensures !env.others && alive && refusal.None? ==>
                && w.repo.branch == cfg.branch && w.repo.index == w.repo.head.tree
                && WorkspaceGuard(cfg, w.repo, Base(cfg))
      ensures env == ALONE && Startable(cfg, old(w)) ==> alive && refusal.None?
    {
      hide LedgerOk, RunFinished, Rows, Releasing, InState, L.StatusOf, L.Owned;
      refusal := None;
      alive := Pause(env);
      if !alive { return; }
      if cfg.kind == NoGit { return true, Some("git_publication_not_configured"); }
      if cfg.manifest == map[] { return true, Some("nothing_to_publish"); }
      if !cfg.unfiltered { return true, Some("publication_filtered_path_not_supported"); }
      var bad := Fails(env);
      if bad { return true, Some("command_failed"); }
      refusal := CheckRepository();
      if refusal.Some? { return; }
      var observed;
      alive, observed := Guard(env);
      if alive && observed.None? { refusal := Some("publication_workspace_scope_changed"); }
    }

    /** Branch, base and an empty staging area. */
    method CheckRepository() returns (refusal: Option<string>)
      ensures refusal.None? <==>
                && w.repo.branch == cfg.branch && cfg.base.Some? && w.repo.head == Base(cfg)
                && w.repo.index == w.repo.head.tree
    {
      NoChangeIsEqual(w.repo.head.tree, w.repo.index);
      if w.repo.branch != cfg.branch { return Some("publication_branch_mismatch"); }
      if cfg.base.None? { return Some("publication_expected_base_missing"); }
      if w.repo.head != Base(cfg) { return Some("publication_base_changed"); }
      if Changed(w.repo.head.tree, w.repo.index) != {} { return Some("preexisting_staging_not_empty"); }
      return None;
    }

    /** The handler of `publish`: the last reached phase is rewritten with the error. */
    method RaiseAt(env: Environment, phase: Phase, reason: string) returns (r: PublishResult)
      requires Safe(cfg, w) && phase != Complete
      modifies this
      ensures Safe(cfg, w) && Grows(cfg, env, old(w), w)
      ensures !env.faults ==> r == Raised(reason)
      ensures writes in {old(writes), old(writes) + [Write(phase, false, None, None, true)]}
      ensures env == ALONE && old(w).journal.Some? ==> writes == old(writes) + [Write(phase, false, None, None, true)]
      ensures r == Raised(reason) || r == PublishCrashed
      ensures !env.others ==>
                w == old(w) || (old(w).journal.Some? && w == Journalled(cfg, old(w), phase, false, None, None, true))
      ensures !env.others ==> SameButJournal(cfg, old(w), w)
      ensures !env.others && AtAdvanced(cfg, old(w)) && AfterSwap(phase) ==> AtAdvanced(cfg, w)
      ensures !env.others && AtPrepared(cfg, old(w)) && phase == Prepared ==> AtPrepared(cfg, w)
    {
      hide LedgerOk, RunFinished, Rows, Releasing, InState, L.StatusOf, L.Owned;
      var alive, _ := Update(env, phase, false, None, None, true);
      r := if alive then Raised(reason) else PublishCrashed;
    }

    /** Enters a phase; when the ledger write fails the handler runs with that phase. */
    method Record(env: Environment, phase: Phase, staged: bool, commit: Option<Commit>, remoteCommit: Option<Commit>)
      returns (stop: Option<PublishResult>)
      requires Safe(cfg, w) && phase != Complete
      modifies this
      ensures Safe(cfg, w) && Grows(cfg, env, old(w), w)
      ensures !env.faults ==> stop != Some(PublishCrashed)
      ensures stop.None? ==> writes == old(writes) + [Write(phase, staged, commit, remoteCommit, false)]
      ensures stop.Some? ==> stop.value.Raised? || stop.value == PublishCrashed
      ensures !env.others ==> SameButJournal(cfg, old(w), w)
      ensures !env.others && AtStaged(cfg, old(w)) && phase == Staged && commit.None? ==> AtStaged(cfg, w)
      ensures !env.others && AtStaged(cfg, old(w)) && phase == Prepared && commit.Some?
              && Proven(cfg, w, commit.value) ==>
                AtPrepared(cfg, w) || (stop.Some? && AtStaged(cfg, w))
      ensures !env.others && AtAdvanced(cfg, old(w)) && AfterSwap(phase)
              && (commit.None? || commit == Some(w.repo.head)) ==>
                AtAdvanced(cfg, w)
      ensures !env.others && stop.None? && commit.Some? ==> w.journal.Some? && w.journal.value.commit == commit
      ensures !env.others && (commit.None? || (old(w).journal.Some? && old(w).journal.value.commit == commit))
              && old(w).journal.Some? ==>
                w.journal.Some? && w.journal.value.commit == old(w).journal.value.commit
      ensures env == ALONE && old(w).journal.Some? ==> stop.None?
    {
      hide LedgerOk, RunFinished, Rows, Releasing, InState, L.StatusOf, L.Owned;
      stop := None;
      var alive, ok := Update(env, phase, staged, commit, remoteCommit, false);
      if !alive { return Some(PublishCrashed); }
      if !ok {
        var r := RaiseAt(env, phase, "ledger_update_failed");
        stop := Some(r);
      }
    }

    /** The intent row, written before any Git side effect. */
    method RecordIntent(env: Environment) returns (stop: Option<PublishResult>)
      requires Releasing(cfg, w.ledger)
      requires Safe(cfg, w)
      requires cfg.base.Some? && cfg.kind != NoGit && cfg.manifest != map[]
      modifies this
      ensures Safe(cfg, w) && Grows(cfg, env, old(w), w)
      ensures !env.faults ==> stop != Some(PublishCrashed)
      ensures writes == if stop.None? then old(writes) + [Write(Intent, false, None, None, false)] else old(writes)
      ensures stop.Some? ==> !stop.value.Published?
      ensures !env.others ==> SameButJournal(cfg, old(w), w)
      ensures !env.others && stop.Some? ==> w == old(w)
      ensures !env.others && stop.None? && old(w).journal.None? ==>
                w.journal == Some(Journal(Intent, cfg.kind, Base(cfg), false, None, None, false))
      ensures !env.others && stop.None? && old(w).journal.Some? ==>
                w.journal == Some(old(w).journal.value.(status := Intent, failed := false))
      ensures env == ALONE ==> stop.None?
    {
      hide LedgerOk, RunFinished, Rows, Releasing, InState, L.StatusOf, L.Owned;
      stop := None;
      var alive := Pause(env);
      if !alive { return Some(PublishCrashed); }
      var bad := Fails(env);
      if bad { return Some(Refused("intent_not_recorded")); }
      var row := if w.journal.None? then Journal(Intent, cfg.kind, Base(cfg), false, None, None, false)
                 else w.journal.value.(status := Intent, failed := false);
      RowedIsOk(cfg, w, Some(row));
      w := Rowed(cfg, w, Some(row));
      writes := writes + [Write(Intent, false, None, None, false)];
    }

    /** `git add` of exactly the manifest's paths. */
    method AddToIndex(env: Environment) returns (stop: Option<PublishResult>)
      requires Safe(cfg, w)
      requires !env.others ==> AtIntent(cfg, w)
      modifies this
      ensures Safe(cfg, w) && Grows(cfg, env, old(w), w)
      ensures !env.faults ==> stop != Some(PublishCrashed)
      ensures stop.None? ==> writes == old(writes)
      ensures stop.Some? ==> stop.value.Raised? || stop.value == PublishCrashed
      ensures !env.others ==> w.remote == old(w).remote && w.advances == old(w).advances
      ensures !env.others ==> AtStaged(cfg, w) || (stop.Some? && AtIntent(cfg, w))
      ensures env == ALONE ==> stop.None?
    {
      hide LedgerOk, RunFinished, Rows, Releasing, InState, L.StatusOf, L.Owned;
      stop := None;
      var alive := Pause(env);
      if !alive { return Some(PublishCrashed); }
      var bad := Fails(env);
      if bad {
        var r := RaiseAt(env, Intent, "git_add_failed");
        return Some(r);
      }
      if !env.others { StagingMatches(w.repo, cfg.manifest, cfg.protectedFiles.Keys); }
      w := w.(repo := AddPaths(w.repo, cfg.manifest.Keys));
      assert !env.others ==> AtStaged(cfg, w);
    }

    /** Records the intent and stages the manifest's paths. */
    method StagePaths(env: Environment) returns (stop: Option<PublishResult>)
      requires Releasing(cfg, w.ledger)
      requires Safe(cfg, w)
      requires cfg.base.Some? && cfg.kind != NoGit && cfg.manifest != map[]
      requires !env.others ==> Ready(cfg, w) && w.journal.None?
      modifies this
      ensures Safe(cfg, w) && Grows(cfg, env, old(w), w)
      ensures !env.faults ==> stop != Some(PublishCrashed)
      ensures stop.None? ==>
                writes == old(writes) + [Write(Intent, false, None, None, false)]
                          + [Write(Staged, true, None, None, false)]
      ensures stop.Some? && stop.value.Refused? ==> writes == old(writes)
      ensures stop.Some? ==> !stop.value.Published?
      ensures !env.others ==> w.remote == old(w).remote && w.advances == old(w).advances
      ensures !env.others ==> AtStaged(cfg, w) || (stop.Some? && (Ready(cfg, w) || AtIntent(cfg, w)))
      ensures env == ALONE ==> stop.None?
    {
      hide LedgerOk, RunFinished, Rows, Releasing, InState, L.StatusOf, L.Owned;
      stop := RecordIntent(env);
      if stop.Some? { return; }
      stop := AddToIndex(env);
      if stop.Some? { return; }
      stop := RecordStaged(env);
    }

    /** The staged index is compared with the manifest before it is recorded. */
    method RecordStaged(env: Environment) returns (stop: Option<PublishResult>)
      requires Safe(cfg, w)
      requires !env.others ==> AtStaged(cfg, w)
      modifies this
      ensures Safe(cfg, w) && Grows(cfg, env, old(w), w)
      ensures !env.faults ==> stop != Some(PublishCrashed)
      ensures stop.None? ==> writes == old(writes) + [Write(Staged, true, None, None, false)]
      ensures stop.Some? ==> stop.value.Raised? || stop.value == PublishCrashed
      ensures !env.others ==> SameButJournal(cfg, old(w), w) && AtStaged(cfg, w)
      ensures env == ALONE ==> stop.None?
    {
      hide LedgerOk, RunFinished, Rows, Releasing, InState, L.StatusOf, L.Owned;
      var alive := Pause(env);
      if !alive { return Some(PublishCrashed); }
      var bad := Fails(env);
      if bad || !StagedMatches(w.repo, cfg.manifest) {
        var r := RaiseAt(env, Intent, "staged_snapshot_mismatch");
        return Some(r);
      }
      stop := Record(env, Staged, true, None, None);
    }

    /** The commit object, recorded before the branch is touched. */
    method RecordCommit(env: Environment) returns (stop: Option<PublishResult>, commit: Option<Commit>)
      requires Safe(cfg, w) && cfg.base.Some? && cfg.manifest != map[]
      requires !env.others ==> AtStaged(cfg, w)
      modifies this
      ensures Safe(cfg, w) && Grows(cfg, env, old(w), w)
      ensures !env.faults ==> stop != Some(PublishCrashed)
      ensures stop.None? ==> writes == old(writes) + [Write(Prepared, false, commit, None, false)]
      ensures stop.None? ==> commit.Some? && Proven(cfg, w, commit.value)
      ensures stop.Some? ==> stop.value.Raised? || stop.value == PublishCrashed
      ensures !env.others ==> w.remote == old(w).remote && w.advances == old(w).advances
      ensures !env.others ==> AtPrepared(cfg, w) || (stop.Some? && AtStaged(cfg, w))
      ensures !env.others && stop.None? ==> w.journal.value.commit == commit
      ensures env == ALONE ==> stop.None?
    {
      hide LedgerOk, RunFinished, Rows, Releasing, InState, L.StatusOf, L.Owned;
      hide Safe, CommitMatches, StagedMatches;
      var alive;
      alive, commit := PrepareCommit(env);
      if !alive { return Some(PublishCrashed), None; }
      if commit.None? {
        var r := RaiseAt(env, Staged, "prepared_snapshot_mismatch");
        return Some(r), None;
      }
      stop := Record(env, Prepared, false, commit, None);
    }

    /** The branch swap, guarded by the workspace and compared against the base. */
    method GuardAndSwap(env: Environment, commit: Commit) returns (stop: Option<PublishResult>)
      requires Safe(cfg, w) && Proven(cfg, w, commit) && cfg.manifest != map[]
      requires !env.others ==> AtPrepared(cfg, w) && w.journal.value.commit == Some(commit)
      modifies this
      ensures Safe(cfg, w) && Grows(cfg, env, old(w), w)
      ensures !env.faults ==> stop != Some(PublishCrashed)
      ensures stop.None? ==> writes == old(writes)
      ensures stop.None? ==> commit in w.seen
      ensures stop.Some? ==> stop.value.Raised? || stop.value == PublishCrashed
      ensures !env.others ==> w.remote == old(w).remote
      ensures !env.others && stop.None? ==>
                AtAdvanced(cfg, w) && commit == w.repo.head && w.advances == old(w).advances + 1
      ensures !env.others && stop.Some? ==> AtPrepared(cfg, w)
      ensures env == ALONE ==> stop.None?
    {
      hide RelativePath.PathAllowed, StagedMatches, SnapshotCurrent, Observed, CommitMatches, Rowed, LedgerOk,
           RunFinished, Rows, Releasing, InState, L.StatusOf, L.Owned;
      var alive, observed := Guard(env);
      if !alive { return Some(PublishCrashed); }
      if observed.None? {
        var r := RaiseAt(env, Prepared, "publication_workspace_scope_changed");
        return Some(r);
      }
      var ok;
      alive, ok := SwapBranch(env, cfg.branch, commit, observed.value);
      if !alive { return Some(PublishCrashed); }
      if !ok {
        var r := RaiseAt(env, Prepared, "publication_base_changed_during_commit");
        return Some(r);
      }
      stop := None;
    }

    /** Push and read-back of kind `git`. */
    method PushAndVerify(env: Environment, commit: Commit) returns (stop: Option<PublishResult>)
      requires Safe(cfg, w) && cfg.kind == GitRemote
      requires !env.others ==> AtAdvanced(cfg, w) && commit == w.repo.head
      modifies this
      ensures Safe(cfg, w) && Grows(cfg, env, old(w), w)
      ensures !env.faults ==> stop != Some(PublishCrashed)
      ensures stop.None? ==>
                writes == old(writes) + [Write(Pushed, false, Some(commit), None, false)]
                          + [Write(RemoteVerified, false, Some(commit), Some(commit), false)]
      ensures env == ALONE && stop.Some? ==>
                && stop == Some(Raised(if cfg.remoteUrl then "git_push_failed" else "publication_remote_url_missing"))
                && writes == old(writes) + [Write(Committed, false, None, None, true)]
      ensures stop.None? ==> commit in w.readBack
      ensures stop.Some? ==> stop.value.Raised? || stop.value == PublishCrashed
      ensures !env.others ==> AtAdvanced(cfg, w) && w.repo == old(w).repo && w.advances == old(w).advances
      ensures !env.others ==> w.remote == old(w).remote || w.remote == Some(commit)
      ensures env == ALONE ==> (stop.None? <==> cfg.remoteUrl && PushAccepted(old(w), commit))
    {
      hide LedgerOk, RunFinished, Rows, Releasing, InState, L.StatusOf, L.Owned;
      if !cfg.remoteUrl {
        var r := RaiseAt(env, Committed, "publication_remote_url_missing");
        return Some(r);
      }
      var alive, ok := Push(env, commit);
      if !alive { return Some(PublishCrashed); }
      if !ok {
        var r := RaiseAt(env, Committed, "git_push_failed");
        return Some(r);
      }
      stop := Record(env, Pushed, false, Some(commit), None);
      if stop.Some? { return; }
      var remoteCommit;
      alive, remoteCommit := ReadRemote(env);
      if !alive { return Some(PublishCrashed); }
      if remoteCommit != Some(commit) {
        var r := RaiseAt(env, Pushed, "remote_verification_failed");
        return Some(r);
      }
      stop := Record(env, RemoteVerified, false, Some(commit), remoteCommit);
    }

    /** Push, read back and finalize, from a swapped branch. */
    method Deliver(env: Environment, commit: Commit) returns (r: PublishResult)
      requires Releasing(cfg, w.ledger) && cfg.manifest != map[]
      requires Safe(cfg, w) && Proven(cfg, w, commit) && commit in w.seen && cfg.kind != NoGit
      requires !env.others ==> AtAdvanced(cfg, w) && commit == w.repo.head
      modifies this
      ensures Safe(cfg, w) && Grows(cfg, env, old(w), w)
      ensures !env.faults ==> r != PublishCrashed
      ensures !r.Refused?
      ensures r.Published? ==> writes == Delivering(old(writes), cfg.kind, commit, true)
      ensures r.Published? ==> r.commit == Some(commit)
      ensures !env.others ==>
                (AtAdvanced(cfg, w) || AtDone(cfg, w)) && w.advances == old(w).advances && w.repo == old(w).repo
      ensures !env.others && r.Published? ==> AtDone(cfg, w) && Tells(w, r.commit, r.remoteCommit)
      ensures !env.others ==> w.remote == old(w).remote || w.remote == Some(commit)
      ensures env == ALONE ==>
                (r.Published? <==> cfg.kind == GitLocal || (cfg.remoteUrl && PushAccepted(old(w), commit)))
    {
      hide CommitMatches, WorkspaceGuard, StagedMatches, LedgerOk, RunFinished, Rows, Releasing, InState, L.StatusOf,
           L.Owned;
      if cfg.kind == GitRemote {
        var stop := PushAndVerify(env, commit);
        if stop.Some? { return stop.value; }
      }
      var remoteCommit := if cfg.kind == GitRemote then Some(commit) else None;
      var alive, ok := Finalize(env, commit, remoteCommit);
      if !alive { return PublishCrashed; }
      if !ok {
        r := RaiseAt(env, if cfg.kind == GitRemote then RemoteVerified else Committed, "ledger_update_failed");
        return;
      }
      r := Published(Some(commit), remoteCommit);
    }

    /** `publish` once its preflight has passed. */
    method PublishAdmitted(env: Environment) returns (r: PublishResult)
      requires Releasing(cfg, w.ledger)
      requires Safe(cfg, w)
      requires cfg.base.Some? && cfg.kind != NoGit && cfg.manifest != map[]
      requires !env.others ==> Ready(cfg, w) && w.journal.None?
      modifies this
      ensures Safe(cfg, w) && Grows(cfg, env, old(w), w)
      ensures r.Refused? ==> writes == old(writes)
      ensures !env.faults ==> r != PublishCrashed
      ensures r.Published? ==> r.commit.Some? && writes == Journey(old(writes), cfg.kind, r.commit.value)
      ensures !env.others ==> Quiet(cfg, w)
      ensures !env.others && r.Published? ==>
                AtDone(cfg, w) && w.advances == old(w).advances + 1 && Tells(w, r.commit, r.remoteCommit)
      ensures !env.others && RemoteOpen(cfg, old(w)) ==> RemoteOpen(cfg, w)
      ensures env == ALONE && (cfg.kind == GitLocal || (cfg.remoteUrl && PushOpen(cfg, old(w)))) ==> r.Published?
    {
      hide CommitMatches, WorkspaceGuard, StagedMatches, LedgerOk, RunFinished, Rows, Releasing, InState, L.StatusOf,
           L.Owned;
      var stop := StagePaths(env);
      if stop.Some? { return stop.value; }
      r := CommitAndDeliver(env);
    }

    /** Commit and branch swap, from the staged index. */
    method AdvanceBranch(env: Environment) returns (stop: Option<PublishResult>, commit: Option<Commit>)
      requires Safe(cfg, w) && cfg.base.Some? && cfg.manifest != map[]
      requires !env.others ==> AtStaged(cfg, w)
      modifies this
      ensures Safe(cfg, w) && Grows(cfg, env, old(w), w)
      ensures !env.faults ==> stop != Some(PublishCrashed)
      ensures stop.None? ==>
                && commit.Some? && Proven(cfg, w, commit.value) && commit.value in w.seen
                && writes == Swapping(old(writes), commit.value)
      ensures stop.Some? ==> stop.value.Raised? || stop.value == PublishCrashed
      ensures !env.others ==> w.remote == old(w).remote
      ensures !env.others && stop.None? ==>
                AtAdvanced(cfg, w) && commit == Some(w.repo.head) && w.advances == old(w).advances + 1
      ensures !env.others && stop.Some? ==> AtStaged(cfg, w) || AtPrepared(cfg, w) || AtAdvanced(cfg, w)
      ensures env == ALONE ==> stop.None?
    {
      hide WorkspaceGuard, StagedMatches, CommitMatches, Rowed, LedgerOk, RunFinished, Rows, Releasing, InState,
           L.StatusOf, L.Owned;
      stop, commit := RecordCommit(env);
      if stop.Some? { return; }
      stop := GuardAndSwap(env, commit.value);
      if stop.Some? { return; }
      stop := Record(env, Committed, false, commit, None);
    }

    /** From the staged index to the end. */
    method CommitAndDeliver(env: Environment) returns (r: PublishResult)
      requires Releasing(cfg, w.ledger)
      requires Safe(cfg, w) && cfg.base.Some? && cfg.manifest != map[] && cfg.kind != NoGit
      requires !env.others ==> AtStaged(cfg, w)
      modifies this
      ensures Safe(cfg, w) && Grows(cfg, env, old(w), w)
      ensures !env.faults ==> r != PublishCrashed
      ensures !r.Refused?
      ensures r.Published? ==>
                && r.commit.Some?
                && writes == Delivering(Swapping(old(writes), r.commit.value), cfg.kind, r.commit.value, true)
      ensures !env.others ==> Pending(cfg, w) || AtDone(cfg, w)
      ensures !env.others && r.Published? ==>
                AtDone(cfg, w) && w.advances == old(w).advances + 1 && Tells(w, r.commit, r.remoteCommit)
      ensures !env.others ==> w.remote == old(w).remote || (w.journal.Some? && w.journal.value.commit == w.remote)
      ensures env == ALONE && (cfg.kind == GitLocal || (cfg.remoteUrl && PushOpen(cfg, old(w)))) ==> r.Published?
    {
      hide CommitMatches, WorkspaceGuard, StagedMatches, LedgerOk, RunFinished, Rows, Releasing, InState, L.StatusOf,
           L.Owned;
      var stop, commit := AdvanceBranch(env);
      if stop.Some? { return stop.value; }
      if cfg.remoteUrl && PushOpen(cfg, w) { ChildOfBaseReaches(cfg, w, commit.value); }
      r := Deliver(env, commit.value);
    }

    /** `publish`.  Where nobody else interferes it goes ahead exactly when the run may start. */
    method Publish(env: Environment) returns (r: PublishResult)
      requires Safe(cfg, w)
      modifies this
      ensures Safe(cfg, w) && Grows(cfg, env, old(w), w)
      ensures r.Refused? ==> writes == old(writes)
      ensures !env.faults ==> r != PublishCrashed
      ensures r.Published? && !(old(w).journal.Some? && old(w).journal.value.status == Complete) ==>
                r.commit.Some? && writes == Journey(old(writes), cfg.kind, r.commit.value)
      ensures !env.others && Quiet(cfg, old(w)) ==> Quiet(cfg, w)
      ensures !env.others && Quiet(cfg, old(w)) && !Ready(cfg, old(w)) ==>
                w == old(w) && (r.Refused? || r == PublishCrashed)
      ensures !env.others && !Startable(cfg, old(w)) ==>
                && (w == old(w) || (Dropped(old(w)) && w == Rowed(cfg, old(w), None)))
                && (r.Refused? || r == PublishCrashed || (r.Published? && Tells(w, r.commit, r.remoteCommit)))
      ensures r.Raised? ==> Releasable(cfg, old(w))
      ensures r.Published? ==>
                Releasable(cfg, old(w)) || (old(w).journal.Some? && old(w).journal.value.status == Complete)
      ensures r.Raised? || (r.Published? && !(old(w).journal.Some? && old(w).journal.value.status == Complete)) ==>
                && AsVerified(cfg, old(w).repo.files)
                && forall p :: p in cfg.manifest ==> RelativePath.PathAllowed(p, cfg.allowed)
      ensures !env.others && r.Published? && Startable(cfg, old(w)) ==>
                AtDone(cfg, w) && w.advances == old(w).advances + 1 && Tells(w, r.commit, r.remoteCommit)
      ensures !env.others && Quiet(cfg, old(w)) && RemoteOpen(cfg, old(w)) ==> RemoteOpen(cfg, w)
      ensures env == ALONE && Startable(cfg, old(w)) ==>
                (cfg.kind == GitLocal || (cfg.remoteUrl && PushOpen(cfg, old(w))) ==> r.Published?)
    {
      hide LedgerOk, RunFinished, Rows, Releasing, InState, L.StatusOf, L.Owned;
      hide SnapshotCurrent, Observed, RelativePath.PathAllowed, AsVerified, StagedMatches, CommitMatches;
      CurrentMeansAsVerified(cfg, w.repo);
      var refusal, done := AdmitRun();
      if refusal.Some? { return Refused(refusal.value); }
      if done.Some? { return done.value; }
      var alive;
      alive, refusal := AdmitRepository(env);
      if !alive { return PublishCrashed; }
      if refusal.Some? { return Refused(refusal.value); }
      r := PublishAdmitted(env);
    }

    // -------------------------------------------------------------- reconcile

    /** HEAD and the staging state, read once at the start. */
    method Observe(env: Environment) returns (alive: bool, head: Option<Commit>, staged: bool)
      requires Safe(cfg, w)
      modifies this
      ensures Safe(cfg, w) && Grows(cfg, env, old(w), w)
      ensures writes == old(writes)
      ensures head.Some? ==> head.value in w.seen
      ensures !env.others ==> w == old(w).(seen := w.seen)
      ensures !env.others ==> head.None? || head == Some(w.repo.head)
      ensures !env.others && staged ==> StagedMatches(w.repo, cfg.manifest)
      ensures env == ALONE ==> alive && head == Some(w.repo.head) && staged == StagedMatches(w.repo, cfg.manifest)
    {
      hide LedgerOk, RunFinished, Rows, Releasing, InState, L.StatusOf, L.Owned;
      head, staged := None, false;
      alive := Pause(env);
      if !alive { return; }
      var bad := Fails(env);
      if !bad {
        head := Some(w.repo.head);
        w := w.(seen := w.seen + {w.repo.head});
      }
      alive := Pause(env);
      bad := Fails(env);
      staged := !bad && StagedMatches(w.repo, cfg.manifest);
    }

    /** `_publication_update` inside reconcile, where a failed ledger write propagates. */
    method Note(env: Environment, status: Phase, commit: Option<Commit>, remoteCommit: Option<Commit>, failed: bool)
      returns (stop: Option<Verdict>)
      requires Safe(cfg, w) && status != Complete
      modifies this
      ensures Safe(cfg, w) && Grows(cfg, env, old(w), w)
      ensures writes == if stop.None? then old(writes) + [Write(status, false, commit, remoteCommit, failed)]
                        else old(writes)
      ensures stop.Some? ==> stop.value in {ReconcileCrashed, ReconcileRaised}
      ensures !env.others && stop.Some? ==> w == old(w)
      ensures !env.others && stop.None? ==>
                old(w).journal.Some? && w == Journalled(cfg, old(w), status, false, commit, remoteCommit, failed)
      ensures !env.others && AtAdvanced(cfg, old(w)) && AfterSwap(status)
              && commit in {None, Some(old(w).repo.head)} ==>
                AtAdvanced(cfg, w)
      ensures !env.others ==> SameButJournal(cfg, old(w), w)
      ensures !env.others && stop.None? ==>
                && w.journal.Some? && w.journal.value.status == status
                && (commit.Some? ==> w.journal.value.commit == commit)
      ensures env == ALONE && old(w).journal.Some? ==> stop.None?
    {
      hide LedgerOk, RunFinished, Rows, Releasing, InState, L.StatusOf, L.Owned;
      var alive, ok := Update(env, status, false, commit, remoteCommit, failed);
      stop := if ok then None else if alive then Some(ReconcileRaised) else Some(ReconcileCrashed);
    }

    /** Nothing is staged as recorded: abandon a bare intent, refuse anything else. */
    method GiveUp(env: Environment, status: Phase) returns (v: Verdict)
      requires Safe(cfg, w)
      requires !env.others ==> Ready(cfg, w) || AtIntent(cfg, w) || AtStaged(cfg, w) || Disturbed(cfg, w)
      requires !env.others ==> w.journal.Some? && w.journal.value.status == status
      modifies this
      ensures Safe(cfg, w) && Grows(cfg, env, old(w), w)
      ensures writes == if v == SafeToRetry then old(writes) + [Write(Abandoned, false, None, None, false)]
                        else old(writes)
      ensures v in {SafeToRetry, Blocked("unexpected_staging_state"), ReconcileCrashed, ReconcileRaised}
      ensures !env.others ==> SameButJournal(cfg, old(w), w)
      ensures !env.others && v != SafeToRetry ==> w == old(w)
      ensures !env.others && v == SafeToRetry ==>
                old(w).journal.Some?
                && w.journal == Some(old(w).journal.value.(status := Abandoned, failed := false))
      ensures !env.others && !Disturbed(cfg, old(w)) && v == SafeToRetry ==> Ready(cfg, w)
      ensures env == ALONE ==>
                v == (if Changed(old(w).repo.head.tree, old(w).repo.index) == {} && status == Intent then SafeToRetry
                      else Blocked("unexpected_staging_state"))
      ensures env == ALONE && (Ready(cfg, old(w)) || AtIntent(cfg, old(w))) ==>
                v == (if AtIntent(cfg, old(w)) then SafeToRetry else Blocked("unexpected_staging_state"))
    {
      hide LedgerOk, RunFinished, Rows, Releasing, InState, L.StatusOf, L.Owned;
      var alive := Pause(env);
      if !alive { return ReconcileCrashed; }
      var bad := Fails(env);
      if bad || Changed(w.repo.head.tree, w.repo.index) != {} || status != Intent {
        return Blocked("unexpected_staging_state");
      }
      NoChangeIsEqual(w.repo.head.tree, w.repo.index);
      var stop := Note(env, Abandoned, None, None, false);
      v := if stop.Some? then stop.value else SafeToRetry;
    }

    /** The manifest is staged and HEAD is on the base: prepare the commit. */
    method ResumeStaged(env: Environment, resume: bool) returns (stop: Option<Verdict>, commit: Option<Commit>)
      requires Safe(cfg, w) && cfg.base.Some? && cfg.manifest != map[]
      requires !env.others ==> AtStaged(cfg, w) || Disturbed(cfg, w)
      modifies this
      ensures Safe(cfg, w) && Grows(cfg, env, old(w), w)
      ensures stop.None? ==> writes == old(writes) + [Write(Prepared, false, commit, None, false)]
      ensures stop == Some(Blocked("commit_prepare_failed")) ==>
                writes == old(writes) + [Write(Staged, false, None, None, true)]
      ensures stop.None? ==> resume && commit.Some? && Proven(cfg, w, commit.value)
      ensures stop.Some? ==> !stop.value.Completed? && stop.value != SafeToRetry && stop.value != NoPublication
      ensures !env.others ==> w.repo == old(w).repo && w.remote == old(w).remote && w.advances == old(w).advances
      ensures !env.others && !resume ==> w == old(w)
      ensures !env.others && stop.None? ==> AtPrepared(cfg, w) && w.journal.value.commit == commit
      ensures !env.others && AtStaged(cfg, old(w)) && stop.Some? ==> AtStaged(cfg, w)
      ensures !env.others && Disturbed(cfg, old(w)) ==> stop.Some? && w == old(w)
      ensures env == ALONE && Disturbed(cfg, old(w)) ==> stop == Some(Blocked("publication_workspace_scope_changed"))
      ensures env == ALONE && AtStaged(cfg, old(w)) ==> if resume then stop.None? else stop == Some(StagedPendingCommit)
    {
      hide RelativePath.PathAllowed, StagedMatches, PushAccepted, SnapshotCurrent, Observed, CommitMatches, LedgerOk,
           RunFinished, Rows, Releasing, InState, L.StatusOf, L.Owned;
      commit := None;
      var alive, observed := Guard(env);
      if !alive { return Some(ReconcileCrashed), None; }
      if observed.None? { return Some(Blocked("publication_workspace_scope_changed")), None; }
      if !resume { return Some(StagedPendingCommit), None; }
      alive, commit := PrepareCommit(env);
      if !alive { return Some(ReconcileCrashed), None; }
      if commit.None? {
        stop := Note(env, Staged, None, None, true);
        stop := if stop.Some? then stop else Some(Blocked("commit_prepare_failed"));
        return stop, None;
      }
      stop := Note(env, Prepared, commit, None, false);
    }

    /** A commit is known and HEAD is on the base: swap the branch. */
    method ResumePrepared(env: Environment, commit: Commit, staged: bool, resume: bool) returns (stop: Option<Verdict>)
      requires Safe(cfg, w) && Proven(cfg, w, commit) && cfg.manifest != map[]
      requires !env.others ==>
                 (AtPrepared(cfg, w) || Disturbed(cfg, w)) && w.journal.Some? && w.journal.value.commit == Some(commit)
      modifies this
      ensures Safe(cfg, w) && Grows(cfg, env, old(w), w)
      ensures writes == if stop.None? then Advancing(old(writes), commit) else old(writes)
      ensures stop.None? ==> resume && commit in w.seen
      ensures stop.Some? ==> !stop.value.Completed? && stop.value != SafeToRetry && stop.value != NoPublication
      ensures !env.others ==> w.remote == old(w).remote
      ensures !env.others && stop.None? ==>
                AtAdvanced(cfg, w) && w.repo.head == commit && w.journal.value.status == Committed
      ensures !env.others && AtPrepared(cfg, old(w)) && stop.Some? ==>
                AtPrepared(cfg, w) || (resume && AtAdvanced(cfg, w))
      ensures !env.others && Disturbed(cfg, old(w)) ==> stop.Some? && w == old(w)
      ensures env == ALONE && Disturbed(cfg, old(w)) ==>
                stop == Some(Blocked(if staged then "publication_workspace_scope_changed"
                                     else "unexpected_staging_state"))
      ensures !env.others ==> w.journal.Some? && w.journal.value.commit == Some(commit)
      ensures !env.others ==> w.advances <= old(w).advances + 1
      ensures !env.others && !resume ==> w == old(w)
      ensures env == ALONE && AtPrepared(cfg, old(w)) && staged ==>
                if resume then stop.None? else stop == Some(PreparedPendingRefUpdate)
    {
      hide RelativePath.PathAllowed, StagedMatches, Rowed, SnapshotCurrent, Observed, CommitMatches, LedgerOk,
           RunFinished, Rows, Releasing, InState, L.StatusOf,
           L.Owned;
      if !staged { return Some(Blocked("unexpected_staging_state")); }
      var alive, observed := Guard(env);
      if !alive { return Some(ReconcileCrashed); }
      if observed.None? { return Some(Blocked("publication_workspace_scope_changed")); }
      if !resume { return Some(PreparedPendingRefUpdate); }
      var ok;
      alive, ok := SwapBranch(env, cfg.branch, commit, observed.value);
      if !alive { return Some(ReconcileCrashed); }
      if !ok { return Some(Blocked("publication_base_changed_during_commit")); }
      stop := Note(env, Committed, Some(commit), None, false);
    }

    /** The last two steps of kind `git`, once the remote ref was read equal. */
    method FinishRemote(env: Environment, commit: Commit) returns (v: Verdict)
      requires Releasing(cfg, w.ledger) && cfg.manifest != map[]
      requires Safe(cfg, w) && cfg.kind == GitRemote && Delivered(cfg, w, commit)
      requires !env.others ==> AtAdvanced(cfg, w) && w.repo.head == commit
      modifies this
      ensures Safe(cfg, w) && Grows(cfg, env, old(w), w)
      ensures v.Completed? ==> writes == Delivering(old(writes), GitRemote, commit, false)
      ensures v in {Completed(Some(commit), Some(commit)), ReconcileCrashed, ReconcileRaised}
      ensures !env.others ==> w.repo == old(w).repo && w.remote == old(w).remote && w.advances == old(w).advances
      ensures !env.others ==> w.objects == old(w).objects
      ensures !env.others ==> AtAdvanced(cfg, w) || AtDone(cfg, w)
      ensures !env.others && v.Completed? ==> AtDone(cfg, w) && Tells(w, v.commit, v.remoteCommit)
      ensures env == ALONE ==> v.Completed?
    {
      hide LedgerOk, RunFinished, Rows, Releasing, InState, L.StatusOf, L.Owned;
      var stop := Note(env, RemoteVerified, Some(commit), Some(commit), false);
      if stop.Some? { return stop.value; }
      var alive, ok := Finalize(env, commit, Some(commit));
      v := if ok then Completed(Some(commit), Some(commit)) else if alive then ReconcileRaised else ReconcileCrashed;
    }

    /** Push and read back, when the remote ref does not hold the commit yet. */
    method PushRemote(env: Environment, commit: Commit) returns (v: Verdict)
      requires Releasing(cfg, w.ledger) && cfg.manifest != map[]
      requires Safe(cfg, w) && cfg.kind == GitRemote && Proven(cfg, w, commit) && commit in w.seen
      requires !env.others ==> AtAdvanced(cfg, w) && w.repo.head == commit
      modifies this
      ensures env == ALONE && !v.Completed? ==> w.remote == old(w).remote
      ensures Safe(cfg, w) && Grows(cfg, env, old(w), w)
      ensures v.Completed? ==> v.commit == Some(commit)
      ensures v.Completed? ==> writes == Delivering(old(writes), GitRemote, commit, true)
      ensures v == Blocked("git_push_failed") ==>
                writes == old(writes) + [Write(Committed, false, Some(commit), None, true)]
      ensures v != SafeToRetry && v != NoPublication
      ensures !env.others ==> w.repo == old(w).repo && w.objects == old(w).objects && w.advances == old(w).advances
      ensures !env.others ==> w.remote == old(w).remote || w.remote == Some(commit)
      ensures !env.others ==> AtAdvanced(cfg, w) || AtDone(cfg, w)
      ensures !env.others && v.Completed? ==> AtDone(cfg, w) && Tells(w, v.commit, v.remoteCommit)
      ensures env == ALONE ==> (v.Completed? <==> PushAccepted(old(w), commit))
    {
      hide CommitMatches, WorkspaceGuard, StagedMatches, LedgerOk, RunFinished, Rows, Releasing, InState, L.StatusOf,
           L.Owned;
      var alive, ok := Push(env, commit);
      if !alive { return ReconcileCrashed; }
      if !ok {
        var failed := Note(env, Committed, Some(commit), None, true);
        return if failed.Some? then failed.value else Blocked("git_push_failed");
      }
      var stop := Note(env, Pushed, Some(commit), None, false);
      if stop.Some? { return stop.value; }
      var remoteCommit;
      alive, remoteCommit := ReadRemote(env);
      if !alive { return ReconcileCrashed; }
      if remoteCommit != Some(commit) { return Blocked("remote_verification_failed"); }
      v := FinishRemote(env, commit);
    }

    /** HEAD holds the proven commit: deliver it. */
    method ResumeAdvanced(env: Environment, commit: Commit, status: Phase, resume: bool) returns (v: Verdict)
      requires Releasing(cfg, w.ledger) && cfg.manifest != map[]
      requires Safe(cfg, w) && Proven(cfg, w, commit) && commit in w.seen && cfg.kind != NoGit
      requires !env.others ==> AtAdvanced(cfg, w) && w.repo.head == commit
      modifies this
      ensures env == ALONE && !v.Completed? ==> w.remote == old(w).remote
      ensures Safe(cfg, w) && Grows(cfg, env, old(w), w)
      ensures env == ALONE && v.Completed? ==>
                writes == Delivering(if status == Committed then old(writes) else Advancing(old(writes), commit),
                                     cfg.kind, commit, old(w).remote != Some(commit))
      ensures env == ALONE && !v.Completed? ==> v == Undelivered(cfg, resume)
      ensures v.Completed? ==> v.commit == Some(commit)
      ensures v != SafeToRetry && v != NoPublication
      ensures !env.others ==> w.repo == old(w).repo && w.objects == old(w).objects && w.advances == old(w).advances
      ensures !env.others ==> w.remote == old(w).remote || (resume && w.remote == Some(commit))
      ensures !env.others ==> AtAdvanced(cfg, w) || AtDone(cfg, w)
      ensures !env.others && v.Completed? ==> AtDone(cfg, w) && Tells(w, v.commit, v.remoteCommit)
      ensures env == ALONE ==> (v.Completed? <==>
                || cfg.kind == GitLocal
                || (cfg.remoteUrl && old(w).remote == Some(commit))
                || (cfg.remoteUrl && resume && old(w).remote in {None, Some(Base(cfg))}))
      ensures env == ALONE && !v.Completed? && cfg.remoteUrl && !resume ==> v == RemotePending
    {
      hide LedgerOk, RunFinished, Rows, Releasing, InState, L.StatusOf, L.Owned;
      if status != Committed {
        var stop := Note(env, Committed, Some(commit), None, false);
        if stop.Some? { return stop.value; }
      }
      if cfg.kind == GitLocal {
        var alive, ok := Finalize(env, commit, None);
        return if ok then Completed(Some(commit), None) else if alive then ReconcileRaised else ReconcileCrashed;
      }
      v := ResumeRemote(env, commit, resume);
    }

    /** The remote half of a resumed publication. */
    method ResumeRemote(env: Environment, commit: Commit, resume: bool) returns (v: Verdict)
      requires Releasing(cfg, w.ledger) && cfg.manifest != map[]
      requires Safe(cfg, w) && cfg.kind == GitRemote && Proven(cfg, w, commit) && commit in w.seen
      requires !env.others ==> AtAdvanced(cfg, w) && w.repo.head == commit
      modifies this
      ensures env == ALONE && !v.Completed? ==> w.remote == old(w).remote
      ensures Safe(cfg, w) && Grows(cfg, env, old(w), w)
      ensures v.Completed? ==> v.commit == Some(commit)
      ensures v.Completed? ==>
                exists push :: writes == Delivering(old(writes), cfg.kind, commit, push)
      ensures env == ALONE && v.Completed? ==>
                writes == Delivering(old(writes), cfg.kind, commit, old(w).remote != Some(commit))
      ensures env == ALONE && !v.Completed? ==> v == Undelivered(cfg, resume)
      ensures v != SafeToRetry && v != NoPublication
      ensures !env.others ==> w.repo == old(w).repo && w.objects == old(w).objects && w.advances == old(w).advances
      ensures !env.others ==> w.remote == old(w).remote || (resume && w.remote == Some(commit))
      ensures !env.others ==> AtAdvanced(cfg, w) || AtDone(cfg, w)
      ensures !env.others && v.Completed? ==> AtDone(cfg, w) && Tells(w, v.commit, v.remoteCommit)
      ensures env == ALONE ==>
                (v.Completed? <==>
                   && cfg.remoteUrl
                   && (old(w).remote == Some(commit) || (resume && old(w).remote in {None, Some(Base(cfg))})))
      ensures env == ALONE && !v.Completed? && cfg.remoteUrl && !resume ==> v == RemotePending
    {
      hide LedgerOk, RunFinished, Rows, Releasing, InState, L.StatusOf, L.Owned;
      if !cfg.remoteUrl { return Blocked("publication_remote_url_missing"); }
      var alive, remoteCommit := ReadRemote(env);
      if !alive { return ReconcileCrashed; }
      if remoteCommit == Some(commit) {
        v := FinishRemote(env, commit);
        return;
      }
      if !resume { return RemotePending; }
      if remoteCommit.Some? && remoteCommit.value != Base(cfg) { return Blocked("remote_advanced"); }
      if env == ALONE { ChildOfBaseReaches(cfg, w, commit); }
      v := PushRemote(env, commit);
    }

    /** Adopts HEAD when it already holds the snapshot although no commit was journalled. */
    method AdoptHead(env: Environment, j: Journal, head: Option<Commit>)
      returns (stop: Option<Verdict>, commit: Option<Commit>, status: Phase)
      requires Safe(cfg, w) && cfg.base.Some? && j.status != Complete
      requires !env.others ==> w.journal == Some(j) && Readable(cfg, w) && (head.None? || head == Some(w.repo.head))
      modifies this
      ensures Safe(cfg, w) && Grows(cfg, env, old(w), w)
      ensures writes == if stop.None? && j.commit.None? && commit.Some? then Advancing(old(writes), commit.value)
                        else old(writes)
      ensures stop.Some? ==> !stop.value.Completed? && stop.value != SafeToRetry && stop.value != NoPublication
      ensures stop.None? && commit.Some? ==> Proven(cfg, w, commit.value)
      ensures stop.None? && commit.None? ==> j.commit.None? && status == j.status
      ensures !env.others ==> SameButJournal(cfg, old(w), w)
      ensures !env.others && !Adoptable(cfg, old(w)) ==> w == old(w)
      ensures !env.others && !Adoptable(cfg, old(w)) && stop.None? ==> commit == j.commit && status == j.status
      ensures !env.others && Adoptable(cfg, old(w)) ==>
                && (w == old(w)
                    || (AtAdvanced(cfg, w)
                        && w == Journalled(cfg, old(w), Committed, false, Some(old(w).repo.head), None, false)))
                && (stop.None? ==>
                      commit.None? || (commit == Some(w.repo.head) && status == Committed && AtAdvanced(cfg, w)))
      ensures env == ALONE && head == Some(w.repo.head) ==> (stop.Some? <==> Unproven(cfg, old(w)))
      ensures env == ALONE && stop.Some? ==> stop == Some(Blocked("commit_not_proven"))
      ensures env == ALONE && head == Some(w.repo.head) && Adoptable(cfg, old(w)) ==> commit.Some?
    {
      hide LedgerOk, RunFinished, Rows, Releasing, InState, L.StatusOf, L.Owned;
      stop, commit, status := None, j.commit, j.status;
      if commit.Some? {
        var bad := Fails(env);
        if bad || !Proven(cfg, w, commit.value) { return Some(Blocked("commit_not_proven")), commit, status; }
      } else if head.Some? && head.value != Base(cfg) {
        var bad := Fails(env);
        if !bad && Proven(cfg, w, head.value) {
          commit, status := head, Committed;
          stop := Note(env, status, commit, None, false);
        }
      }
    }

    /** The verdicts of `reconcile_publication`, in the order the program tries them. */
    method Reconcile(env: Environment, resume: bool) returns (v: Verdict)
      requires Safe(cfg, w)
      requires !env.others ==> Readable(cfg, w)
      modifies this
      ensures env == ALONE && !v.Completed? ==> w.remote == old(w).remote
      ensures Safe(cfg, w) && Grows(cfg, env, old(w), w)
      ensures env == ALONE ==> Resumed(cfg, old(w), old(writes), writes, resume, v)
      ensures !env.others && Quiet(cfg, old(w)) ==> Quiet(cfg, w)
      ensures !env.others ==> w.advances <= old(w).advances + 1
      ensures !env.others && RemoteOpen(cfg, old(w)) ==> RemoteOpen(cfg, w)
      ensures !env.others && !resume ==>
                w.repo == old(w).repo && w.remote == old(w).remote && w.objects == old(w).objects
      ensures !env.others && v.Completed? ==> AtDone(cfg, w) && Tells(w, v.commit, v.remoteCommit)
      ensures !env.others && v == SafeToRetry ==>
                w.repo == old(w).repo && w.remote == old(w).remote && w.objects == old(w).objects
      ensures !env.others && v == SafeToRetry && Quiet(cfg, old(w)) ==> Ready(cfg, w)
      ensures old(w).journal.None? ==> v == NoPublication && w == old(w)
      ensures env == ALONE && Ready(cfg, old(w)) && old(w).journal.Some? ==>
                v == Blocked("unexpected_staging_state") && Ready(cfg, w)
      ensures env == ALONE && AtIntent(cfg, old(w)) ==> v == SafeToRetry
      ensures env == ALONE && AtDone(cfg, old(w)) ==> v.Completed?
      ensures env == ALONE && resume && (AtPrepared(cfg, old(w)) || AtAdvanced(cfg, old(w))) ==>
                (v.Completed? <==> RemoteOpen(cfg, old(w)))
      ensures env == ALONE && resume && AtStaged(cfg, old(w)) && RemoteOpen(cfg, old(w)) ==> v.Completed?
      ensures env == ALONE && resume && AtStaged(cfg, old(w)) && v.Completed? ==>
                RemoteOpen(cfg, old(w)) || RemoteIsSnapshot(cfg, old(w))
      ensures env == ALONE && !resume && AtStaged(cfg, old(w)) ==> v == StagedPendingCommit
      ensures env == ALONE && !resume && AtPrepared(cfg, old(w)) ==> v == PreparedPendingRefUpdate
      ensures env == ALONE ==> Interfered(cfg, old(w), w, v)
      ensures env == ALONE && Adoptable(cfg, old(w)) ==> Adopted(cfg, old(w), w, resume, v)
    {
      hide StagedMatches, Rowed, LedgerOk, RunFinished, Rows, Releasing, InState, L.StatusOf, L.Owned;
      hide CommitMatches, WorkspaceGuard, Resumed, Interfered, Adopted;
      ghost var before, wrote := w, writes;
      if w.journal.None? {
        NothingToResume(cfg, w, writes, resume, NoPublication);
        return NoPublication;
      }
      var j := w.journal.value;
      if j.status == Complete {
        v := Completed(j.commit, j.remoteCommit);
        NothingToResume(cfg, w, writes, resume, v);
        return;
      }
      var alive, head, staged := Observe(env);
      if !alive { return ReconcileCrashed; }
      ghost var seen := w;
      v := ReconcileObserved(env, j, head, staged, resume);
      if env == ALONE { SeenHasNoPart(cfg, before, seen, wrote, writes, resume, v, w); }
    }

    /** The verdict once HEAD and the staging state have been read. */
    method ReconcileObserved(env: Environment, j: Journal, head: Option<Commit>, staged: bool, resume: bool)
      returns (v: Verdict)
      requires Releasing(cfg, w.ledger)
      requires Safe(cfg, w) && cfg.base.Some? && cfg.manifest != map[] && cfg.kind != NoGit && j.status != Complete
      requires head.Some? ==> head.value in w.seen
      requires !env.others ==> w.journal == Some(j) && Readable(cfg, w) && (head.None? || head == Some(w.repo.head))
      requires !env.others && staged ==> StagedMatches(w.repo, cfg.manifest)
      requires env == ALONE ==> head.Some? && staged == StagedMatches(w.repo, cfg.manifest)
      modifies this
      ensures env == ALONE && !v.Completed? ==> w.remote == old(w).remote
      ensures Safe(cfg, w) && Grows(cfg, env, old(w), w)
      ensures env == ALONE ==> Resumed(cfg, old(w), old(writes), writes, resume, v)
      ensures v != NoPublication
      ensures !env.others && Quiet(cfg, old(w)) ==> Quiet(cfg, w)
      ensures !env.others ==> w.advances <= old(w).advances + 1
      ensures !env.others ==> w.remote == old(w).remote || (w.journal.Some? && w.journal.value.commit == w.remote)
      ensures !env.others && j.commit.Some? ==> w.journal.Some? && w.journal.value.commit == j.commit
      ensures !env.others && !resume ==>
                w.repo == old(w).repo && w.remote == old(w).remote && w.objects == old(w).objects
      ensures !env.others && v.Completed? ==> AtDone(cfg, w) && Tells(w, v.commit, v.remoteCommit)
      ensures !env.others && v == SafeToRetry ==>
                w.repo == old(w).repo && w.remote == old(w).remote && w.objects == old(w).objects
      ensures !env.others && v == SafeToRetry && Quiet(cfg, old(w)) ==> Ready(cfg, w)
      ensures env == ALONE && Ready(cfg, old(w)) ==> v == Blocked("unexpected_staging_state") && Ready(cfg, w)
      ensures env == ALONE && AtIntent(cfg, old(w)) ==> v == SafeToRetry
      ensures env == ALONE && resume && (AtPrepared(cfg, old(w)) || AtAdvanced(cfg, old(w))) ==>
                (v.Completed? <==> RemoteOpen(cfg, old(w)))
      ensures env == ALONE && resume && AtStaged(cfg, old(w)) && RemoteOpen(cfg, old(w)) ==> v.Completed?
      ensures env == ALONE && resume && AtStaged(cfg, old(w)) && v.Completed? ==>
                RemoteOpen(cfg, old(w)) || RemoteIsSnapshot(cfg, old(w))
      ensures env == ALONE && !resume && AtStaged(cfg, old(w)) ==> v == StagedPendingCommit
      ensures env == ALONE && !resume && AtPrepared(cfg, old(w)) ==> v == PreparedPendingRefUpdate
      ensures env == ALONE ==> Interfered(cfg, old(w), w, v)
      ensures env == ALONE && Adoptable(cfg, old(w)) ==> Adopted(cfg, old(w), w, resume, v)
    {
      hide Delivering, Swapping, Undelivered, WorkspaceGuard, StagedMatches, CommitMatches, Interfered, Adopted,
           Reaches, LedgerOk, RunFinished, Rows, Rowed, Releasing, InState, L.StatusOf, L.Owned;
      ghost var before := w;
      var stop, commit, status := AdoptHead(env, j, head);
      if stop.Some? {
        if env == ALONE { RefusedUnproven(cfg, before); }
        return stop.value;
      }
      if !env.others { WhatIsReadable(cfg, before); }
      if commit.None? && head == cfg.base {
        v := ReconcileWithoutCommit(env, status, staged, resume);
      } else if commit.None? {
        v := Blocked("commit_not_proven");
        if env == ALONE { RefusedUnproven(cfg, before); }
      } else {
        ghost var known := w;
        v := ReconcileCommit(env, head, commit.value, status, staged, resume);
        if env == ALONE { AdoptionCarries(cfg, before, known, w, resume, v); }
      }
    }

    /** HEAD is on the base and no commit is known. */
    method ReconcileWithoutCommit(env: Environment, status: Phase, staged: bool, resume: bool) returns (v: Verdict)
      requires Releasing(cfg, w.ledger)
      requires Safe(cfg, w) && cfg.base.Some? && cfg.manifest != map[] && cfg.kind != NoGit
      requires Base(cfg) in w.seen
      requires !env.others ==> Ready(cfg, w) || AtIntent(cfg, w) || AtStaged(cfg, w) || Disturbed(cfg, w)
      requires !env.others ==> w.journal.Some? && w.journal.value.status == status && w.journal.value.commit.None?
      requires !env.others && staged ==> AtStaged(cfg, w) || Disturbed(cfg, w)
      requires env == ALONE ==> staged == StagedMatches(w.repo, cfg.manifest)
      modifies this
      ensures env == ALONE && !v.Completed? ==> w.remote == old(w).remote
      ensures Safe(cfg, w) && Grows(cfg, env, old(w), w)
      ensures env == ALONE && AtStaged(cfg, old(w)) && v.Completed? ==>
                && v.commit.Some?
                && writes == Delivering(Swapping(old(writes), v.commit.value), cfg.kind, v.commit.value,
                                        old(w).remote != v.commit)
      ensures env == ALONE && AtStaged(cfg, old(w)) && resume && !v.Completed? ==> v == Undelivered(cfg, resume)
      ensures v != NoPublication
      ensures !env.others && !Disturbed(cfg, old(w)) ==> Quiet(cfg, w)
      ensures !env.others ==> w.advances <= old(w).advances + 1
      ensures !env.others ==> w.remote == old(w).remote || (w.journal.Some? && w.journal.value.commit == w.remote)
      ensures !env.others && !resume ==>
                w.repo == old(w).repo && w.remote == old(w).remote && w.objects == old(w).objects
      ensures !env.others && v.Completed? ==> AtDone(cfg, w) && Tells(w, v.commit, v.remoteCommit)
      ensures !env.others && v == SafeToRetry ==> SameButJournal(cfg, old(w), w)
      ensures !env.others && !Disturbed(cfg, old(w)) && v == SafeToRetry ==> Ready(cfg, w)
      ensures env == ALONE && !Disturbed(cfg, old(w)) && !staged ==>
                SameButJournal(cfg, old(w), w) && Ready(cfg, w) == (v == SafeToRetry || Ready(cfg, old(w)))
      ensures env == ALONE && !Disturbed(cfg, old(w)) && !staged ==>
                v == (if AtIntent(cfg, old(w)) then SafeToRetry else Blocked("unexpected_staging_state"))
      ensures env == ALONE && AtStaged(cfg, old(w)) && !resume ==> v == StagedPendingCommit
      ensures env == ALONE && AtStaged(cfg, old(w)) && resume && RemoteOpen(cfg, old(w)) ==> v.Completed?
      ensures env == ALONE && staged && resume && v.Completed? ==>
                RemoteOpen(cfg, old(w)) || RemoteIsSnapshot(cfg, old(w))
      ensures env == ALONE ==> Interfered(cfg, old(w), w, v)
    {
      hide Reaches, RelativePath.PathAllowed, Delivered, StagedMatches, Changed, SnapshotCurrent, Observed,
           CommitMatches, Rowed, LedgerOk, RunFinished, Rows, Releasing, InState,
           L.StatusOf, L.Owned;
      if !staged {
        v := GiveUp(env, status);
        return;
      }
      var stop, commit := ResumeStaged(env, resume);
      if stop.Some? { return stop.value; }
      v := ReconcileCommit(env, cfg.base, commit.value, Prepared, staged, resume);
    }

    /** The second half of `reconcile_publication`: a proven commit is known. */
    method ReconcileCommit(env: Environment, head: Option<Commit>, commit: Commit, status: Phase, staged: bool,
                           resume: bool)
      returns (v: Verdict)
      requires Releasing(cfg, w.ledger)
      requires Safe(cfg, w) && Proven(cfg, w, commit) && cfg.manifest != map[] && cfg.kind != NoGit
      requires head.Some? ==> head.value in w.seen
      requires !env.others ==>
                 && (AtPrepared(cfg, w) || AtAdvanced(cfg, w) || Moved(cfg, w) || Disturbed(cfg, w))
                 && w.journal.Some? && w.journal.value.commit == Some(commit)
      requires !env.others ==> head.None? || head == Some(w.repo.head)
      requires env == ALONE ==> head.Some? && (AtPrepared(cfg, w) ==> staged)
      requires env == ALONE && Disturbed(cfg, w) ==> staged == StagedMatches(w.repo, cfg.manifest)
      modifies this
      ensures env == ALONE && !v.Completed? ==> w.remote == old(w).remote
      ensures Safe(cfg, w) && Grows(cfg, env, old(w), w)
      ensures env == ALONE && AtPrepared(cfg, old(w)) && v.Completed? ==>
                writes == Delivering(Advancing(old(writes), commit), cfg.kind, commit, old(w).remote != Some(commit))
      ensures env == ALONE && AtPrepared(cfg, old(w)) && resume && !v.Completed? ==> v == Undelivered(cfg, resume)
      ensures env == ALONE && AtAdvanced(cfg, old(w)) && v.Completed? ==>
                writes == Delivering(if status == Committed then old(writes) else Advancing(old(writes), commit),
                                     cfg.kind, commit, old(w).remote != Some(commit))
      ensures env == ALONE && AtAdvanced(cfg, old(w)) && !v.Completed? ==> v == Undelivered(cfg, resume)
      ensures v.Completed? ==> v.commit == Some(commit)
      ensures v != SafeToRetry && v != NoPublication
      ensures !env.others && (AtPrepared(cfg, old(w)) || AtAdvanced(cfg, old(w))) ==>
                AtPrepared(cfg, w) || AtAdvanced(cfg, w) || AtDone(cfg, w)
      ensures !env.others && !AtPrepared(cfg, old(w)) && !AtAdvanced(cfg, old(w)) ==> w == old(w) && !v.Completed?
      ensures !env.others ==>
                w.advances <= old(w).advances + 1 && w.journal.Some? && w.journal.value.commit == Some(commit)
      ensures !env.others && !resume ==>
                w.repo == old(w).repo && w.remote == old(w).remote && w.objects == old(w).objects
      ensures !env.others ==> w.remote == old(w).remote || w.remote == Some(commit)
      ensures !env.others && v.Completed? ==> AtDone(cfg, w) && Tells(w, v.commit, v.remoteCommit)
      ensures env == ALONE && resume && (AtPrepared(cfg, old(w)) || AtAdvanced(cfg, old(w))) ==>
                (v.Completed? <==> cfg.kind == GitLocal
                                   || (cfg.remoteUrl && old(w).remote in {None, Some(Base(cfg)), Some(commit)}))
      ensures env == ALONE && resume && (AtPrepared(cfg, old(w)) || AtAdvanced(cfg, old(w))) ==> w.repo.head == commit
      ensures env == ALONE && AtAdvanced(cfg, old(w)) ==> Adopted(cfg, old(w), w, resume, v)
      ensures env == ALONE ==> Interfered(cfg, old(w), w, v)
      ensures env == ALONE && !resume && AtPrepared(cfg, old(w)) ==> v == PreparedPendingRefUpdate
    {
      hide LedgerOk, RunFinished, Rows, Releasing, InState, L.StatusOf, L.Owned;
      ProvenIsChild(cfg, w, commit);
      if head == cfg.base {
        v := ReconcileFromBase(env, commit, staged, resume);
      } else if head != Some(commit) {
        v := Blocked("publication_base_changed");
      } else {
        v := ResumeAdvanced(env, commit, status, resume);
      }
    }

    /** Swap the branch, then deliver. */
    method ReconcileFromBase(env: Environment, commit: Commit, staged: bool, resume: bool) returns (v: Verdict)
      requires Releasing(cfg, w.ledger)
      requires Safe(cfg, w) && Proven(cfg, w, commit) && cfg.manifest != map[] && cfg.kind != NoGit
      requires !env.others ==>
                 (AtPrepared(cfg, w) || Disturbed(cfg, w)) && w.journal.Some? && w.journal.value.commit == Some(commit)
      requires env == ALONE && AtPrepared(cfg, w) ==> staged
      requires env == ALONE && Disturbed(cfg, w) ==> staged == StagedMatches(w.repo, cfg.manifest)
      modifies this
      ensures env == ALONE && !v.Completed? ==> w.remote == old(w).remote
      ensures Safe(cfg, w) && Grows(cfg, env, old(w), w)
      ensures env == ALONE && AtPrepared(cfg, old(w)) && v.Completed? ==>
                writes == Delivering(Advancing(old(writes), commit), cfg.kind, commit, old(w).remote != Some(commit))
      ensures env == ALONE && AtPrepared(cfg, old(w)) && resume && !v.Completed? ==> v == Undelivered(cfg, resume)
      ensures v.Completed? ==> v.commit == Some(commit)
      ensures v != SafeToRetry && v != NoPublication
      ensures !env.others && AtPrepared(cfg, old(w)) ==> AtPrepared(cfg, w) || AtAdvanced(cfg, w) || AtDone(cfg, w)
      ensures !env.others && Disturbed(cfg, old(w)) ==> w == old(w) && !v.Completed?
      ensures env == ALONE && Disturbed(cfg, old(w)) ==>
                v == Blocked(if staged then "publication_workspace_scope_changed" else "unexpected_staging_state")
      ensures !env.others ==>
                w.advances <= old(w).advances + 1 && w.journal.Some? && w.journal.value.commit == Some(commit)
      ensures !env.others && !resume ==> w == old(w)
      ensures !env.others ==> w.remote == old(w).remote || w.remote == Some(commit)
      ensures !env.others && v.Completed? ==> AtDone(cfg, w) && Tells(w, v.commit, v.remoteCommit)
      ensures env == ALONE && resume && AtPrepared(cfg, old(w)) ==>
                (v.Completed? <==> cfg.kind == GitLocal
                                   || (cfg.remoteUrl && old(w).remote in {None, Some(Base(cfg)), Some(commit)}))
      ensures env == ALONE && resume && AtPrepared(cfg, old(w)) ==> w.repo.head == commit
      ensures env == ALONE && !resume && AtPrepared(cfg, old(w)) ==> v == PreparedPendingRefUpdate
    {
      hide LedgerOk, RunFinished, Rows, Releasing, InState, L.StatusOf, L.Owned;
      var stop := ResumePrepared(env, commit, staged, resume);
      if stop.Some? { return stop.value; }
      v := ResumeAdvanced(env, commit, Committed, resume);
    }
  }

  /** What was seen has no part in how a reconcile goes on. */
  lemma SeenHasNoPart(cfg: Config, w: World, seen: World, before: seq<Write>, after: seq<Write>, resume: bool,
                      v: Verdict, end: World)
    requires OnlySeen(w, seen)
    ensures Resumed(cfg, seen, before, after, resume, v) ==> Resumed(cfg, w, before, after, resume, v)
    ensures Interfered(cfg, seen, end, v) ==> Interfered(cfg, w, end, v)
    ensures Adopted(cfg, seen, end, resume, v) ==> Adopted(cfg, w, end, resume, v)
  {
    hide CommitMatches, WorkspaceGuard, StagedMatches, Releasing, InState, Delivering, Swapping, Advancing, L.StatusOf;
  }

  lemma NothingToResume(cfg: Config, w: World, writes: seq<Write>, resume: bool, v: Verdict)
    requires !Unfinished(w)
    ensures Resumed(cfg, w, writes, writes, resume, v) && Interfered(cfg, w, w, v)
  {
  }

  lemma RefusedUnproven(cfg: Config, w: World)
    requires Unproven(cfg, w) || (Moved(cfg, w) && w.journal.value.commit.None? && !Adoptable(cfg, w))
    ensures Interfered(cfg, w, w, Blocked("commit_not_proven"))
  {
  }

  /** The cases of an unfinished journal. */
  lemma WhatIsReadable(cfg: Config, w: World)
    requires Readable(cfg, w) && Unfinished(w) && cfg.base.Some?
    ensures w.journal.value.commit.None? && w.repo.head == Base(cfg) ==>
              Ready(cfg, w) || AtIntent(cfg, w) || AtStaged(cfg, w) || Disturbed(cfg, w)
    ensures w.journal.value.commit.None? && w.repo.head != Base(cfg) ==> Moved(cfg, w)
    ensures w.journal.value.commit.Some? && !Unproven(cfg, w) ==>
              AtPrepared(cfg, w) || AtAdvanced(cfg, w) || Moved(cfg, w) || Disturbed(cfg, w)
    ensures Adoptable(cfg, w) ==> !Unproven(cfg, w) && !Disturbed(cfg, w) && !Quiet(cfg, w)
    ensures Ready(cfg, w) || AtIntent(cfg, w) || AtStaged(cfg, w) || AtPrepared(cfg, w) ==> w.repo.head == Base(cfg)
    ensures Ready(cfg, w) || AtIntent(cfg, w) ==> !StagedMatches(w.repo, cfg.manifest)
  {
    hide SnapshotCurrent, Observed, StagedMatches, CommitMatches, RelativePath.PathAllowed, Releasing, InState,
         L.StatusOf;
    if Ready(cfg, w) || AtIntent(cfg, w) { NothingStaged(w.repo, cfg.manifest); }
  }

  lemma NothingStaged(repo: Repo, manifest: Manifest)
    requires repo.index == repo.head.tree && manifest != map[]
    ensures !StagedMatches(repo, manifest)
  {
    NoChangeIsEqual(repo.head.tree, repo.index);
    assert manifest.Keys == {} ==> manifest == map[];
  }

  /** Adopting the commit first changes nothing about the answer. */
  lemma AdoptionCarries(cfg: Config, before: World, known: World, after: World, resume: bool, v: Verdict)
    requires known.repo == before.repo && known.remote == before.remote
    ensures Adoptable(cfg, before) ==> Interfered(cfg, before, after, v)
    ensures Adoptable(cfg, before) && Adopted(cfg, known, after, resume, v) ==> Adopted(cfg, before, after, resume, v)
  {
    hide SnapshotCurrent, Observed, StagedMatches, CommitMatches, AtAdvanced, AtDone;
  }

  /** A remote ref on an older ancestor of the base: a push would be accepted, and `publish` from
      the start makes it; but a reconcile of the interrupted publication refuses it. */
  method OlderRemoteIsRefused(p: Publisher) returns (v: Verdict)
    requires Safe(p.cfg, p.w) && (AtPrepared(p.cfg, p.w) || AtAdvanced(p.cfg, p.w)) && p.cfg.kind == GitRemote
    requires p.cfg.remoteUrl
    requires p.w.remote.Some? && p.w.remote.value != Base(p.cfg) && Reaches(Base(p.cfg), p.w.remote.value)
    modifies p
    ensures !v.Completed? && p.w.remote == old(p.w).remote
    ensures PushAccepted(old(p.w), old(p.w).journal.value.commit.value)
  {
    hide LedgerOk, Releasing, InState, L.StatusOf, WorkspaceGuard, StagedMatches;
    var commit := p.w.journal.value.commit.value;
    ProvenIsChild(p.cfg, p.w, commit);
    ChildOfBaseReaches(p.cfg, p.w, commit);
    NoAncestorIsItsChild(commit, p.w.remote.value);
    v := p.Reconcile(ALONE, true);
  }

  /** Such a state exists: two commits published before, the third one waiting for its push. */
  lemma OlderRemoteExists() returns (cfg: Config, w: World)
    ensures Safe(cfg, w) && AtAdvanced(cfg, w) && cfg.kind == GitRemote && cfg.remoteUrl
    ensures w.remote.Some? && w.remote.value != Base(cfg) && Reaches(Base(cfg), w.remote.value)
  {
    cfg, w := ThirdCommit(Committed, true);
    assert Reaches(Base(cfg).parents[0], w.remote.value);
  }

  /** So does the state in which somebody committed the staged snapshot by hand. */
  lemma CommittedByHandExists() returns (cfg: Config, w: World)
    ensures Safe(cfg, w) && Adoptable(cfg, w)
  {
    cfg, w := ThirdCommit(Staged, false);
  }

  /** A verified run whose snapshot is HEAD, the third commit of its history, and journalled or not. */
  lemma ThirdCommit(status: Phase, known: bool) returns (cfg: Config, w: World)
    requires AfterSwap(status) || status == Staged
    ensures Safe(cfg, w) && cfg.kind == GitRemote && cfg.remoteUrl && cfg.base.Some? && Releasing(cfg, w.ledger)
    ensures |Base(cfg).parents| == 1 && w.remote == Some(Base(cfg).parents[0])
    ensures w.remote != cfg.base && w.repo.head != Base(cfg) && Proven(cfg, w, w.repo.head)
    ensures w.journal.Some? && w.journal.value.status == status
    ensures w.journal.value.commit == if known then Some(w.repo.head) else None
  {
    hide L.Inv;
    var r := "run";
    var s := L.OnePublishing("task", r);
    L.PublishedIsReleased(s, r);
    var root := Commit([], map[], 0);
    var base := Commit([root], map[], 1);
    var manifest: Manifest := map["a" := Present("text", 420)];
    var commit := Commit([base], map["a" := Entry("text", false)], 2);
    FirstFile(base, commit, "a", "text");
    cfg := Config(r, GitRemote, "main", Some(base), manifest, map[], ["a"], true, true);
    var journal := Journal(status, GitRemote, base, true, if known then Some(commit) else None, None, false);
    w := World({root, base, commit}, Repo(commit, "main", commit.tree, map[]), Some(root), Some(journal), s,
               {commit}, {}, None, 1, 0);
    assert LedgerOk(cfg, s, true) && Releasing(cfg, s) && !InState(cfg, s, L.RunComplete);
    hide LedgerOk, Releasing, InState, CommitMatches;
    assert root != base && base != commit && "a" in manifest;
    assert RowOpen(w.journal) && w.ledger == s;
  }

  lemma FirstFile(base: Commit, c: Commit, p: Path, blob: Blob)
    requires base.tree == map[] && c.parents == [base] && c.tree == map[p := Entry(blob, false)]
    ensures CommitMatches(c, base, map[p := Present(blob, 420)])
  {
    assert Changed(base.tree, c.tree) == {p};
    assert !AnyExecuteBit(420);
  }

  /** A parent cannot reach its own child. */
  lemma NoAncestorIsItsChild(c: Commit, ancestor: Commit)
    requires |c.parents| > 0 && Reaches(c.parents[0], ancestor)
    ensures ancestor != c
  {
    ReachesIsOlder(c.parents[0], ancestor);
    assert c.parents[0] < c;
  }

  lemma {:induction false} ReachesIsOlder(c: Commit, ancestor: Commit)
    requires Reaches(c, ancestor)
    ensures c == ancestor || ancestor < c
    decreases c
  {
    if c != ancestor {
      var i :| 0 <= i < |c.parents| && Reaches(c.parents[i], ancestor);
      ReachesIsOlder(c.parents[i], ancestor);
      assert c.parents[i] < c;
    }
  }

  /** Any number of attempts, each stopped by a crash or a failure at any step. */
  method AnyHistory(p: Publisher, rounds: nat)
    requires Safe(p.cfg, p.w) && Quiet(p.cfg, p.w) && p.w.resets == 0 && RemoteOpen(p.cfg, p.w)
    modifies p
    ensures Safe(p.cfg, p.w) && Quiet(p.cfg, p.w) && p.w.resets == 0 && RemoteOpen(p.cfg, p.w)
  {
    if rounds > 0 {
      var publish: bool, resume: bool := *, *;
      if publish {
        var _ := p.Publish(Environment(true, false));
      } else {
        var _ := p.Reconcile(Environment(true, false), resume);
      }
      AnyHistory(p, rounds - 1);
    }
  }

  /** Recovery from any history.  A verified run is published and reconciled any number of
      times, each attempt stopped by a crash or a failure at any step; then one reconcile with
      resume runs to its end.  It completes the publication, or says it is safe to retry without
      having touched Git, or finds nothing pending; whenever it does not complete, `publish` is
      admitted on the unchanged base.  The branch was advanced at most once. */
  method RecoverFromAnyHistory(p: Publisher, rounds: nat) returns (v: Verdict)
    requires Safe(p.cfg, p.w) && Quiet(p.cfg, p.w) && p.w.resets == 0 && RemoteOpen(p.cfg, p.w)
    modifies p
    ensures Safe(p.cfg, p.w) && p.w.advances <= 1
    ensures v.Completed? ==> AtDone(p.cfg, p.w)
    ensures !v.Completed? ==> Ready(p.cfg, p.w)
    ensures v.Completed? || v in {SafeToRetry, NoPublication, Blocked("unexpected_staging_state")}
  {
    AnyHistory(p, rounds);
    v := p.Reconcile(ALONE, true);
  }

  lemma NoChangeIsEqual(before: Tree, after: Tree)
    ensures Changed(before, after) == {} <==> before == after
  {
    if Changed(before, after) == {} {
      forall p | p in before.Keys + after.Keys
        ensures p in before && p in after && before[p] == after[p]
      {
        assert p !in Changed(before, after);
      }
      assert before.Keys == after.Keys;
    }
  }

  lemma ProvenIsChild(cfg: Config, w: World, c: Commit)
    requires Proven(cfg, w, c) && cfg.manifest != map[]
    ensures c.parents == [Base(cfg)] && c != Base(cfg)
  {
  }

  /** A push of a child of the base is accepted wherever the base itself could be pushed. */
  lemma ChildOfBaseReaches(cfg: Config, w: World, c: Commit)
    requires cfg.base.Some? && Proven(cfg, w, c) && PushOpen(cfg, w)
    ensures PushAccepted(w, c)
  {
  }
}
