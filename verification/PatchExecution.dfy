/** Bounded file replacement with durable, never replayed recovery.

    One operation ID is followed through every sequence of `apply`, `reconcile`, crashes,
    failures and outside edits.  The runtime lock serialises calls and dies with its holder,
    so inside a call only crashes and failures intervene. */
module PatchExecution {
  import opened Common
  import opened PatchRecords

  /** `files` are the staging names beside the target; `debris` is what an interrupted append
      leaves in the record directory and makes every inspection UNKNOWN; `clock` bounds all
      inode numbers and stamps in use; `renames` is history. */
  datatype World = World(
    intent: Option<Intent>,
    records: Records,
    debris: bool,
    target: Material,
    files: map<string, Material>,
    clock: nat,
    renames: nat)

  datatype Status = AppliedNow | NotAppliedNow | Historical(disposition: Disposition)
                  | RefusedStatus | Conflict | Unknown | Crashed
  datatype Append = Created | Existing | Clash | RefusedAppend | UnknownAppend | AppendCrashed

  // ---------------------------------------------------------------- invariant

  predicate Fresh(m: Material, clock: nat) {
    m.ino < clock && m.stamp < clock
  }

  /** The rename history can be read off the target: a published staging inode at the target
      means the rename happened, the exact original identity means it did not. */
  ghost predicate Truthful(w: World) {
    && Evidence(w)
    && w.renames <= 1
    && (w.renames == 1 ==> w.records.publication.Some?)
    && (w.records.dispatch.Some? && w.renames == 1 ==>
          (w.target.ino, w.target.stamp)
          != (w.records.dispatch.value.original.ino, w.records.dispatch.value.original.stamp))
    && (w.records.publication.Some? && w.target.ino == w.records.publication.value.staged.ino ==> w.renames == 1)
    && (w.records.result.Some? ==>
          (w.records.result.value.disposition == Applied <==> w.renames == 1))
  }

  /** The records are a valid chain of the intent: dispatch, perhaps publication, result last. */
  predicate Evidence(w: World) {
    IsPrefix(w.records) && (w.records.dispatch.Some? ==> w.intent.Some? && ValidChain(w.records, w.intent.value))
  }

  ghost predicate Bounded(w: World) {
    && Fresh(w.target, w.clock)
    && (forall n :: n in w.files ==> Fresh(w.files[n], w.clock))
    && (w.records.dispatch.Some? ==> Fresh(w.records.dispatch.value.original, w.clock))
    && (w.records.publication.Some? ==> Fresh(w.records.publication.value.staged, w.clock))
  }

  ghost predicate Inv(w: World) {
    Truthful(w) && Bounded(w)
  }

  /** Before the first call. */
  lemma NothingRecorded(target: Material, files: map<string, Material>, clock: nat)
    requires Fresh(target, clock) && forall n :: n in files ==> Fresh(files[n], clock)
    ensures Inv(World(None, NO_RECORDS, false, target, files, clock, 0))
  {
  }

  // ---------------------------------------------------------------- where reconcile can decide

  /** Dispatched, nothing staged any more, target untouched. */
  predicate NeverStaged(w: World) {
    && w.records.dispatch.Some? && w.records.publication.None? && w.records.result.None?
    && w.records.dispatch.value.tempName !in w.files
    && w.target == w.records.dispatch.value.original
  }

  /** Published, the staged file still under its own name, target untouched. */
  predicate StillStaged(w: World) {
    && w.records.dispatch.Some? && w.records.publication.Some? && w.records.result.None?
    && w.records.dispatch.value.tempName in w.files
    && SameStable(w.files[w.records.dispatch.value.tempName], w.records.publication.value.staged)
    && w.target == w.records.dispatch.value.original
  }

  /** Published, the staged file moved onto the target. */
  predicate Renamed(w: World) {
    && w.records.dispatch.Some? && w.records.publication.Some? && w.records.result.None?
    && w.records.dispatch.value.tempName !in w.files
    && SameStable(w.target, w.records.publication.value.staged)
  }

  class Patcher {
    var w: World

    constructor (w: World)
      ensures this.w == w
    {
      this.w := w;
    }

    /** A crash may end the process before the next atomic step. */
    method Pause(faults: bool) returns (alive: bool)
      ensures !faults ==> alive
    {
      alive := *;
      alive := alive || !faults;
    }

    /** Whether the next system call, check or authority renewal fails. */
    method Fails(faults: bool) returns (failed: bool)
      ensures !faults ==> !failed
    {
      failed := *;
      failed := failed && faults;
    }

    /** `PatchExecutionStore.append`: directory, temporary file, link to the final name,
        removal of the temporary alias; never an overwrite. */
    method AppendRecord(faults: bool, record: Record) returns (a: Append)
      modifies this
      ensures w == old(w).(records := w.records, debris := w.debris)
      ensures w.records == old(w).records
           || (w.records == With(old(w).records, record) && Appendable(old(w), record))
      ensures a in {Created, Existing} ==> Holds(w.records, record) && !w.debris
      ensures a == Created ==> w.records == With(old(w).records, record) && Appendable(old(w), record)
      ensures a in {Existing, Clash} ==> w == old(w)
      ensures old(w).debris ==> w.debris
      ensures a == RefusedAppend ==> w.records == old(w).records
      ensures !faults && !old(w).debris && Appendable(old(w), record) ==> a == Created
      ensures !faults && !old(w).debris && Holds(old(w).records, record) ==> a == Existing
      ensures !faults && !old(w).debris && !Holds(old(w).records, record) && !Appendable(old(w), record) ==>
                a == if PhaseTaken(old(w).records, record) || old(w).records.result.Some?
                        || (old(w).intent.Some? && old(w).records != NO_RECORDS) then Clash else RefusedAppend
      ensures a == Existing ==> Holds(old(w).records, record)
      ensures a == Clash ==> old(w).records != NO_RECORDS && !Holds(old(w).records, record)
      ensures old(w).debris ==> a in {RefusedAppend, UnknownAppend}
      ensures Evidence(old(w)) ==> Evidence(w) && Extends(old(w).records, w.records)
    {
      if Evidence(w) && Appendable(w, record) { AppendExtends(w.records, record, w.intent.value); }
      hide ValidChain, Extends, IsPrefix;
      var denied := Fails(faults);
      if denied { return RefusedAppend; }
      var census := Fails(faults);
      if census || w.debris { return UnknownAppend; }
      if PhaseTaken(w.records, record) {
        if !Holds(w.records, record) { return Clash; }
        var unacknowledged := Fails(faults);
        return if unacknowledged then UnknownAppend else Existing;
      }
      if w.records.result.Some? { return Clash; }
      if w.intent.None? { return RefusedAppend; }
      if !ValidChain(With(w.records, record), w.intent.value) {
        return if w.records != NO_RECORDS then Clash else RefusedAppend;
      }
      var full := Fails(faults);
      if full && w.records == NO_RECORDS { return RefusedAppend; }

      var alive := Pause(faults);
      if !alive { return AppendCrashed; }
      w := w.(debris := true);              // a new directory, then the temporary file
      alive := Pause(faults);
      if !alive { return AppendCrashed; }
      var bad := Fails(faults);
      denied := Fails(faults);
      if bad || denied {                    // the temporary file is removed, a new directory stays empty
        w := w.(debris := w.records == NO_RECORDS);
        return if denied then RefusedAppend else UnknownAppend;
      }
      w := w.(records := With(w.records, record));
      alive := Pause(faults);
      if !alive { return AppendCrashed; }
      bad := Fails(faults);
      if bad { return UnknownAppend; }      // the alias could not be removed
      w := w.(debris := false);
      bad := Fails(faults);
      a := if bad then UnknownAppend else Created;
    }

    // -------------------------------------------------------------- apply

    /** One write to the staging file. */
    method PutTemp(name: string, file: Material)
      requires Bounded(w) && file.stamp == w.clock && file.ino <= w.clock
      modifies this
      ensures Bounded(w) && OnlyFile(old(w), w, name) && w.files == old(w).files[name := file]
    {
      w := w.(files := w.files[name := file], clock := w.clock + 1);
    }

    /** Creates the staging file, writes the replacement in pieces and copies the metadata. */
    method StageTemp(faults: bool, d: Dispatch, replacement: string)
      returns (alive: bool, owned: Option<nat>, staged: Option<Material>)
      requires Bounded(w)
      modifies this
      ensures Bounded(w) && OnlyFile(old(w), w, d.tempName)
      ensures owned.None? ==> w == old(w) && staged.None?
      ensures owned.Some? ==>
                d.tempName !in old(w).files && d.tempName in w.files
                && w.files[d.tempName].ino == owned.value && old(w).clock <= owned.value
      ensures staged.Some? ==>
                && alive && owned.Some? && staged.value == w.files[d.tempName]
                && staged.value.content == replacement
                && staged.value.attributes == d.original.attributes && staged.value.xattrs == d.original.xattrs
      ensures !faults && d.tempName !in old(w).files ==> staged.Some?
    {
      owned, staged := None, None;
      alive := Pause(faults);
      if !alive { return; }
      var bad := Fails(faults);
      if bad || d.tempName in w.files { return; }
      var file := Material(w.clock, w.clock, "0600", "", "");
      owned := Some(file.ino);
      hide OnlyFile, Bounded;
      ghost var start := w;
      PutTemp(d.tempName, file);
      var offset := 0;
      while offset < |replacement|
        invariant 0 <= offset <= |replacement|
        invariant Bounded(w) && OnlyFile(old(w), w, d.tempName) && d.tempName in w.files
        invariant w.files[d.tempName].ino == start.clock && w.files[d.tempName].content == replacement[..offset]
      {
        alive := Pause(faults);
        if !alive { return; }
        bad := Fails(faults);
        if bad { return; }
        var n: nat := *;
        n := if 0 < n <= |replacement| - offset then n else 1;
        file := w.files[d.tempName].(content := replacement[..offset + n], stamp := w.clock);
        ghost var before := w;
        ClockIsAhead(start, w, d.tempName);
        PutTemp(d.tempName, file);
        OneFileThroughout(start, before, w, d.tempName);
        offset := offset + n;
      }
      alive := Pause(faults);
      if !alive { return; }
      bad := Fails(faults);
      if bad { return; }
      file := w.files[d.tempName].(attributes := d.original.attributes, xattrs := d.original.xattrs, stamp := w.clock);
      ghost var written := w;
      ClockIsAhead(start, w, d.tempName);
      PutTemp(d.tempName, file);
      OneFileThroughout(start, written, w, d.tempName);
      bad := Fails(faults);
      if !bad { staged := Some(file); }
    }

    /** Publication record, last checks, the one rename, read-back and result record.
        `None` means that no publication was acknowledged. */
    method PublishAndRename(faults: bool, d: Dispatch, staged: Material) returns (s: Option<Status>)
      requires Inv(w) && w.records == NO_RECORDS.(dispatch := Some(d)) && w.renames == 0 && !w.debris
      requires d.tempName in w.files && w.files[d.tempName] == staged && staged.ino != w.target.ino
      requires ValidPublication(Publication(d.request, d.intent, 0, d, staged), d, d.intent)
      modifies this
      ensures Inv(w) && Extends(old(w).records, w.records) && w.intent == old(w).intent
      ensures s.None? ==> w == old(w).(records := w.records, debris := w.debris)
      ensures s.None? && w.records.publication.None? ==> w.records == old(w).records
      ensures s.Some? ==> s.value in {AppliedNow, Unknown, Crashed}
      ensures w.renames == 0 ==> w.target == old(w).target
      ensures w.renames <= 1
      ensures old(w).target != d.original ==> w.renames == 0 && s in {None, Some(Unknown), Some(Crashed)}
      ensures s == Some(AppliedNow) ==>
                && w.renames == 1 && w.records.result.Some? && w.records.result.value.disposition == Applied
                && SameStable(w.target, staged) && d.tempName !in w.files
      ensures !faults && old(w).target == d.original ==> s == Some(AppliedNow)
    {
      s := None;
      var created: nat := *;
      var p := Publication(d.request, d.intent, created, d, staged);
      var a := AppendRecord(faults, PublicationRecord(p));
      if a == AppendCrashed { return Some(Crashed); }
      if a !in {Created, Existing} { return; }

      var alive := Pause(faults);
      if !alive { return Some(Crashed); }
      var bad := Fails(faults);
      if bad || w.target != d.original || w.files[d.tempName] != staged { return Some(Unknown); }
      alive := Pause(faults);
      if !alive { return Some(Crashed); }
      bad := Fails(faults);
      if bad { return Some(Unknown); }
      w := w.(target := staged.(stamp := w.clock), files := w.files - {d.tempName},
              clock := w.clock + 1, renames := w.renames + 1);
      alive := Pause(faults);
      if !alive { return Some(Crashed); }
      bad := Fails(faults);
      if bad || !SameStable(w.target, staged) || d.tempName in w.files { return Some(Unknown); }
      created := *;
      var r := Outcome(d.request, d.intent, created, d, Some(p), Applied, Apply, w.target);
      a := AppendRecord(faults, ResultRecord(r));
      s := Some(if a == AppendCrashed then Crashed else if a in {Created, Existing} then AppliedNow else Unknown);
    }

    /** The failure path before publication: remove the own staging file, record NOT_APPLIED. */
    method CleanUp(faults: bool, d: Dispatch, owned: Option<nat>) returns (s: Status)
      requires Inv(w) && w.records == NO_RECORDS.(dispatch := Some(d)) && w.renames == 0 && !w.debris
      modifies this
      ensures Inv(w) && Extends(old(w).records, w.records) && w.intent == old(w).intent
      ensures w.target == old(w).target && w.renames == 0
      ensures s in {NotAppliedNow, Unknown, Crashed}
      ensures forall n :: n in old(w).files && n !in w.files ==>
                n == d.tempName && owned.Some? && old(w).files[n].ino == owned.value
      ensures s == NotAppliedNow ==>
                && w.records.result.Some? && w.records.result.value.disposition == NotApplied
                && w.target == d.original && d.tempName !in w.files
      ensures w.records.publication.None?
      ensures forall n :: n in w.files ==> n in old(w).files && w.files[n] == old(w).files[n]
      ensures old(w).target != d.original ==> s in {Unknown, Crashed} && w == old(w)
      ensures !faults && old(w).target == d.original ==>
                s == if d.tempName in old(w).files && owned != Some(old(w).files[d.tempName].ino) then Unknown
                     else NotAppliedNow
    {
      var alive := Pause(faults);
      if !alive { return Crashed; }
      var bad := Fails(faults);
      if bad || w.target != d.original { return Unknown; }
      if d.tempName in w.files {
        if owned != Some(w.files[d.tempName].ino) { return Unknown; }
        bad := Fails(faults);
        if bad { return Unknown; }
        w := w.(files := w.files - {d.tempName});
        alive := Pause(faults);
        if !alive { return Crashed; }
      }
      bad := Fails(faults);
      if bad || d.tempName in w.files || w.target != d.original { return Unknown; }
      var created: nat := *;
      var r := Outcome(d.request, d.intent, created, d, None, NotApplied, FailedBeforePublication, w.target);
      var a := AppendRecord(faults, ResultRecord(r));
      s := if a == AppendCrashed then Crashed else if a in {Created, Existing} then NotAppliedNow else Unknown;
    }

    /** Everything after an acknowledged dispatch. */
    method ApplyDispatched(faults: bool, d: Dispatch) returns (s: Status)
      requires Inv(w) && w.records == NO_RECORDS.(dispatch := Some(d)) && w.renames == 0 && !w.debris
      modifies this
      ensures Inv(w) && Extends(old(w).records, w.records) && w.intent == old(w).intent
      ensures w.renames == 0 ==> w.target == old(w).target
      ensures s in {AppliedNow, NotAppliedNow, Unknown, Crashed}
      ensures s == AppliedNow ==>
                && w.renames == 1 && w.records.result.Some? && w.records.result.value.disposition == Applied
                && w.target.content == d.intent.replacement && d.tempName !in w.files
                && w.target.attributes == d.original.attributes && w.target.xattrs == d.original.xattrs
                && w.target.ino != d.original.ino
      ensures s == NotAppliedNow ==>
                && w.renames == 0 && w.records.result.Some? && w.records.result.value.disposition == NotApplied
                && w.target == d.original && d.tempName !in w.files
      ensures !faults && d.tempName !in old(w).files && old(w).target == d.original ==> s == AppliedNow
    {
      var alive, owned, staged := StageTemp(faults, d, d.intent.replacement);
      if !alive { return Crashed; }
      if staged.Some? {
        var outcome := PublishAndRename(faults, d, staged.value);
        if outcome.Some? { return outcome.value; }
      }
      var unknown := Fails(faults);
      if unknown || w.debris || w.records.publication.Some? { return Unknown; }
      s := CleanUp(faults, d, owned);
    }

    /** `LocalFilePatchIntentService.prepare`: the intent of this operation ID, once. */
    method PrepareIntent(faults: bool, intent: Intent) returns (alive: bool, s: Option<Status>)
      requires Inv(w)
      modifies this
      ensures Inv(w) && w == old(w).(intent := w.intent)
      ensures old(w).intent.Some? ==> w == old(w)
      ensures w.intent in {old(w).intent, Some(intent)}
      ensures alive && s.None? ==> w.intent == Some(intent)
      ensures s.Some? ==> s.value in {RefusedStatus, Conflict, Unknown}
      ensures s == Some(Conflict) ==> w == old(w)
      ensures old(w).intent.Some? && old(w).intent != Some(intent) ==> !alive || s.Some?
      ensures !faults ==> alive
      ensures !faults && old(w).intent.None? ==>
                if old(w).target.content == intent.baseline then s.None? else s == Some(RefusedStatus) && w == old(w)
      ensures !faults && old(w).intent.Some? ==> s == (if old(w).intent == Some(intent) then None else Some(Conflict))
    {
      s := None;
      alive := Pause(faults);
      if !alive { return; }
      var bad := Fails(faults);
      if bad { return true, Some(Unknown); }
      if w.intent.Some? {
        return true, if w.intent.value == intent then None else Some(Conflict);
      }
      if w.target.content != intent.baseline { return true, Some(RefusedStatus); }
      bad := Fails(faults);
      if bad { return true, Some(RefusedStatus); }
      w := w.(intent := Some(intent));
      alive := Pause(faults);
      bad := Fails(faults);
      if bad { s := Some(Unknown); }
    }

    /** `LocalBoundedFilePatcher.apply` for one operation ID. */
    method ApplyPatch(faults: bool, intent: Intent, tempName: string) returns (s: Status)
      requires Inv(w)
      modifies this
      ensures Inv(w) && Extends(old(w).records, w.records)
      ensures old(w).intent.Some? ==> w.intent == old(w).intent
      ensures old(w).records.dispatch.Some? || old(w).debris ==>
                && w.renames == old(w).renames && w.target == old(w).target
                && w.records == old(w).records && w.files == old(w).files
      ensures w.renames == old(w).renames ==> w.target == old(w).target
      ensures s == AppliedNow ==>
                && old(w).records == NO_RECORDS && w.renames == 1 && old(w).target.content == intent.baseline
                && w.records.result.Some? && w.records.result.value.disposition == Applied
                && w.target.content == intent.replacement
                && w.target.attributes == old(w).target.attributes && w.target.xattrs == old(w).target.xattrs
                && w.target.ino != old(w).target.ino
      ensures s == NotAppliedNow ==>
                && w.renames == 0 && w.target == old(w).target
                && w.records.result.Some? && w.records.result.value.disposition == NotApplied
      ensures s.Historical? ==>
                w == old(w) && w.records.result.Some? && w.records.result.value.disposition == s.disposition
      ensures s == RefusedStatus ==> w.records == old(w).records && w.target == old(w).target
      ensures s == Conflict ==> w == old(w)
      ensures !faults && Admissible(old(w), intent, tempName) ==> s == AppliedNow
      ensures s == RefusedStatus ==> w.debris == old(w).debris
      // and without faults, every repeated, conflicting or stale call
      ensures !faults && old(w).intent.Some? && old(w).intent != Some(intent) ==> s == Conflict
      ensures !faults && old(w).intent == Some(intent) && old(w).debris ==> s == Unknown && w == old(w)
      ensures !faults && old(w).intent == Some(intent) && !old(w).debris && old(w).records.dispatch.Some? ==>
                && w == old(w)
                && s == if old(w).records.result.Some? then Historical(old(w).records.result.value.disposition)
                        else Unknown
      ensures !faults && old(w).intent in {None, Some(intent)} && old(w).records == NO_RECORDS && !old(w).debris
              && old(w).target.content != intent.baseline ==>
                s == RefusedStatus && w == old(w)
    {
      var busy := Fails(faults);
      if busy { return Unknown; }
      var denied := Fails(faults);
      if denied { return RefusedStatus; }
      var alive, stop := PrepareIntent(faults, intent);
      if !alive { return Crashed; }
      if stop.Some? { return stop.value; }
      if w.debris { return Unknown; }
      if w.records.dispatch.Some? {
        if w.records.result.None? { return Unknown; }
        var unacknowledged := Fails(faults);
        return if unacknowledged then Unknown else Historical(w.records.result.value.disposition);
      }
      var bad := Fails(faults);
      if bad || w.target.content != intent.baseline { return RefusedStatus; }
      s := DispatchAndApply(faults, intent, tempName);
    }

    method DispatchAndApply(faults: bool, intent: Intent, tempName: string) returns (s: Status)
      requires Inv(w) && w.intent == Some(intent) && w.records == NO_RECORDS && !w.debris
      requires w.target.content == intent.baseline
      modifies this
      ensures Inv(w) && w.intent == old(w).intent
      ensures w.renames == 0 ==> w.target == old(w).target
      ensures s in {AppliedNow, NotAppliedNow, RefusedStatus, Unknown, Crashed}
      ensures s == AppliedNow ==>
                && w.renames == 1 && w.records.result.Some? && w.records.result.value.disposition == Applied
                && w.target.content == intent.replacement
                && w.target.attributes == old(w).target.attributes && w.target.xattrs == old(w).target.xattrs
                && w.target.ino != old(w).target.ino
      ensures s == NotAppliedNow ==>
                && w.renames == 0 && w.records.result.Some? && w.records.result.value.disposition == NotApplied
      ensures s == RefusedStatus ==> w.records == NO_RECORDS && w.renames == 0 && !w.debris
      ensures !faults && tempName !in old(w).files ==> s == AppliedNow
    {
      var created: nat := *;
      var d := Dispatch(intent.request, intent, created, w.target, tempName);
      var a := AppendRecord(faults, DispatchRecord(d));
      if a == AppendCrashed { return Crashed; }
      if a !in {Created, Existing} {
        var unknown := Fails(faults);
        return if unknown || w.debris || w.records != NO_RECORDS then Unknown else RefusedStatus;
      }
      s := ApplyDispatched(faults, d);
    }

    // -------------------------------------------------------------- reconcile

    /** `LocalBoundedFilePatcher.reconcile`: it classifies the state, or removes the staging
        file it can identify as its own; it never writes the target.  `anchored` says that intent,
        scope and directories are still those of the dispatch. */
    method Reconcile(faults: bool, request: string, anchored: bool) returns (s: Status)
      requires Inv(w)
      modifies this
      ensures Inv(w) && Extends(old(w).records, w.records)
      ensures w.target == old(w).target && w.renames == old(w).renames && w.intent == old(w).intent
      ensures w.files != old(w).files ==>
                StillStaged(old(w)) && w.files == old(w).files - {old(w).records.dispatch.value.tempName}
      ensures s == AppliedNow ==> Renamed(old(w)) && w.records.result.Some? && w.renames == 1
      ensures s == NotAppliedNow ==>
                (NeverStaged(old(w)) || StillStaged(old(w))) && w.records.result.Some? && w.renames == 0
      ensures s.Historical? ==>
                w == old(w) && w.records.result.Some? && w.records.result.value.disposition == s.disposition
      ensures s == Conflict ==> w == old(w)
      ensures !faults && (anchored || old(w).debris || old(w).records.dispatch.None? || old(w).records.result.Some?) ==>
                s == Decision(old(w), request)
      ensures !anchored ==> w == old(w) && s in {Unknown, Conflict, Historical(Applied), Historical(NotApplied)}
      ensures !anchored && old(w).records.result.None? ==> s in {Unknown, Conflict}
      ensures !faults && s == Unknown ==> w == old(w)
      // what counts as the published file: everything but its time stamp
      ensures s == AppliedNow ==>
                var staged := old(w).records.publication.value.staged;
                && w.target.ino == staged.ino && w.target.attributes == staged.attributes
                && w.target.content == staged.content && w.target.xattrs == staged.xattrs
      ensures !faults && anchored && AwaitsResult(old(w), request)
              && old(w).target != old(w).records.dispatch.value.original ==>
                var target, staged := old(w).target, old(w).records.publication.value.staged;
                if target.ino != staged.ino || target.attributes != staged.attributes
                   || target.content != staged.content || target.xattrs != staged.xattrs
                then s == Unknown && w == old(w)
                else s == if old(w).records.dispatch.value.tempName in old(w).files then Unknown else AppliedNow
      ensures s == NotAppliedNow && old(w).records.publication.Some? ==>
                var temp, staged := old(w).records.dispatch.value.tempName, old(w).records.publication.value.staged;
                && temp in old(w).files && old(w).files[temp].ino == staged.ino
                && old(w).files[temp].attributes == staged.attributes
                && old(w).files[temp].content == staged.content && old(w).files[temp].xattrs == staged.xattrs
    {
      var busy := Fails(faults);
      var denied := Fails(faults);
      if busy || denied { return Unknown; }
      if w.debris || w.records.dispatch.None? { return Unknown; }
      var d := w.records.dispatch.value;
      if d.request != request { return Conflict; }
      if w.records.result.Some? {
        var unacknowledged := Fails(faults);
        return if unacknowledged then Unknown else Historical(w.records.result.value.disposition);
      }
      var bad := Fails(faults);
      if bad || !anchored { return Unknown; }
      if w.records.publication.Some? && SameStable(w.target, w.records.publication.value.staged) {
        s := ReconcileRenamed(faults, d);
        return;
      }
      if w.target != d.original { return Unknown; }
      var basis := ReconcileNoPublication;
      if w.records.publication.Some? {
        if d.tempName !in w.files { return Unknown; }
        bad := Fails(faults);
        if bad || !SameStable(w.files[d.tempName], w.records.publication.value.staged) { return Unknown; }
        var alive := Pause(faults);
        if !alive { return Crashed; }
        w := w.(files := w.files - {d.tempName});
        basis := ReconcileStaged;
      } else if d.tempName in w.files {
        return Unknown;
      }
      s := RecordNotApplied(faults, d, basis);
    }

    method ReconcileRenamed(faults: bool, d: Dispatch) returns (s: Status)
      requires Inv(w) && w.records.dispatch == Some(d) && w.records.publication.Some? && w.records.result.None?
      requires !w.debris && SameStable(w.target, w.records.publication.value.staged)
      modifies this
      ensures Inv(w) && Extends(old(w).records, w.records) && w == old(w).(records := w.records, debris := w.debris)
      ensures s in {AppliedNow, Unknown, Crashed}
      ensures s == AppliedNow ==> Renamed(old(w)) && w.records.result.Some? && w.renames == 1
      ensures !faults ==> s == (if Renamed(old(w)) then AppliedNow else Unknown)
      ensures !faults && s == Unknown ==> w == old(w)
    {
      if d.tempName in w.files { return Unknown; }
      var alive := Pause(faults);
      if !alive { return Crashed; }
      var bad := Fails(faults);
      if bad { return Unknown; }
      var created: nat := *;
      var r := Outcome(d.request, d.intent, created, d, w.records.publication, Applied, ReconcileApplied, w.target);
      var a := AppendRecord(faults, ResultRecord(r));
      s := if a == AppendCrashed then Crashed else if a in {Created, Existing} then AppliedNow else Unknown;
    }

    method RecordNotApplied(faults: bool, d: Dispatch, basis: Basis) returns (s: Status)
      requires Inv(w) && w.records.dispatch == Some(d) && w.records.result.None? && !w.debris && w.target == d.original
      requires basis == (if w.records.publication.Some? then ReconcileStaged else ReconcileNoPublication)
      requires d.tempName !in w.files
      modifies this
      ensures Inv(w) && Extends(old(w).records, w.records) && w == old(w).(records := w.records, debris := w.debris)
      ensures s in {NotAppliedNow, Unknown, Crashed}
      ensures s == NotAppliedNow ==> w.records.result.Some? && w.renames == 0
      ensures !faults ==> s == NotAppliedNow
    {
      var alive := Pause(faults);
      if !alive { return Crashed; }
      var bad := Fails(faults);
      if bad { return Unknown; }
      var created: nat := *;
      var r := Outcome(d.request, d.intent, created, d, w.records.publication, NotApplied, basis, w.target);
      var a := AppendRecord(faults, ResultRecord(r));
      s := if a == AppendCrashed then Crashed else if a in {Created, Existing} then NotAppliedNow else Unknown;
    }

    // -------------------------------------------------------------- everybody else

    /** Between calls anyone may edit the target or a staging name.  An edit in place moves the
        stamp, a new file brings a new inode; nobody else moves the staging file. */
    method OutsideEdit(target: Material, files: map<string, Material>, clock: nat)
      requires Inv(w) && w.clock <= clock
      requires Edited(w.target, target, w.clock, clock)
      requires forall n :: n in files ==>
                 if n in w.files then Edited(w.files[n], files[n], w.clock, clock)
                 else w.clock <= files[n].ino < clock && files[n].stamp < clock
      modifies this
      ensures Inv(w) && w == old(w).(target := target, files := files, clock := clock)
    {
      w := w.(target := target, files := files, clock := clock);
    }
  }

  /** A published operation without a result, in a readable record directory. */
  predicate AwaitsResult(w: World, request: string) {
    && !w.debris && w.records.dispatch.Some? && w.records.dispatch.value.request == request
    && w.records.publication.Some? && w.records.result.None?
  }

  /** A first call for this operation ID, on the content its intent names. */
  predicate Admissible(w: World, intent: Intent, tempName: string) {
    && w.intent in {None, Some(intent)} && w.records == NO_RECORDS && !w.debris
    && w.target.content == intent.baseline && tempName !in w.files
  }

  predicate Edited(before: Material, after: Material, clock: nat, now: nat) {
    || after == before
    || (after.ino < now && clock <= after.stamp < now && (after.ino == before.ino || clock <= after.ino))
  }

  /** Only one staging name and the clock moved. */
  ghost predicate OnlyFile(before: World, after: World, name: string) {
    && after == before.(files := after.files, clock := after.clock)
    && before.clock <= after.clock
    && (forall n :: n != name ==> (n in after.files <==> n in before.files))
    && (forall n :: n != name && n in before.files ==> after.files[n] == before.files[n])
  }

  lemma OneFileThroughout(a: World, b: World, c: World, name: string)
    requires OnlyFile(a, b, name) && OnlyFile(b, c, name)
    ensures OnlyFile(a, c, name)
  {
  }

  lemma ClockIsAhead(before: World, after: World, name: string)
    requires OnlyFile(before, after, name)
    ensures before.clock <= after.clock
  {
  }

  /** The verdict of an undisturbed reconcile, read off the crash state. */
  function Decision(w: World, request: string): Status {
    if w.debris || w.records.dispatch.None? then Unknown
    else if w.records.dispatch.value.request != request then Conflict
    else if w.records.result.Some? then Historical(w.records.result.value.disposition)
    else if Renamed(w) then AppliedNow
    else if NeverStaged(w) || StillStaged(w) then NotAppliedNow
    else Unknown
  }

  /** The store accepts this record next. */
  predicate Appendable(w: World, record: Record) {
    && !PhaseTaken(w.records, record) && w.records.result.None?
    && w.intent.Some? && ValidChain(With(w.records, record), w.intent.value)
  }

  /** A verdict of reconcile tells the truth about the rename. */
  lemma DecisionIsTrue(w: World, request: string)
    requires Inv(w)
    ensures Decision(w, request) in {AppliedNow, Historical(Applied)} ==> w.renames == 1
    ensures Decision(w, request) in {NotAppliedNow, Historical(NotApplied)} ==> w.renames == 0
    ensures !(Renamed(w) && (NeverStaged(w) || StillStaged(w)))
    ensures forall r, q ::
              Appendable(w, ResultRecord(r)) && Appendable(w, ResultRecord(q)) && r.target.ino == q.target.ino ==>
              r.disposition == q.disposition
  {
    forall r, q | Appendable(w, ResultRecord(r)) && Appendable(w, ResultRecord(q)) && r.target.ino == q.target.ino
      ensures r.disposition == q.disposition
    {
      ResultIsDetermined(w.records, w.intent.value, r, q);
    }
  }

  /** Where nobody else touched the target, reconcile is undecided exactly when the staging
      file and the publication record disagree: staged but unpublished, published but gone or
      changed before the rename, or a staging name present after the rename. */
  lemma UndecidedExactly(w: World, request: string)
    requires Inv(w) && !w.debris && w.records.dispatch.Some? && w.records.result.None?
    requires w.records.dispatch.value.request == request
    requires w.renames == 0 ==> w.target == w.records.dispatch.value.original
    requires w.renames == 1 ==> SameStable(w.target, w.records.publication.value.staged)
    ensures var temp := w.records.dispatch.value.tempName; var p := w.records.publication;
            Decision(w, request) == Unknown <==>
              if w.renames == 1 || p.None? then temp in w.files
              else !(temp in w.files && SameStable(w.files[temp], p.value.staged))
  {
  }

  /** Reconcile itself can lose its answer: a crash after it removed the staging file and
      before it recorded NOT_APPLIED leaves a state that no later reconcile decides. */
  lemma CrashedReconcileStaysUnknown(w: World, request: string)
    requires Inv(w) && !w.debris && StillStaged(w) && w.records.dispatch.value.request == request
    ensures Decision(w, request) == NotAppliedNow
    ensures Decision(w.(files := w.files - {w.records.dispatch.value.tempName}), request) == Unknown
  {
  }

  /** Every sequence of apply, reconcile, crashes, failures and outside edits renames at most
      once; a dispatched operation is never dispatched again, and a result is final. */
  method AnyHistory(p: Patcher, rounds: nat)
    requires Inv(p.w)
    modifies p
    ensures Inv(p.w) && p.w.renames <= 1 && Extends(old(p.w).records, p.w.records)
    ensures old(p.w).records.dispatch.Some? ==> p.w.renames == old(p.w).renames
    ensures old(p.w).records.result.Some? ==>
              p.w.records == old(p.w).records && (p.w.renames == 1 <==> p.w.records.result.value.disposition == Applied)
  {
    if rounds > 0 {
      var choice: nat := *;
      if choice == 0 {
        var intent: Intent := *;
        var tempName: string := *;
        var _ := p.ApplyPatch(true, intent, tempName);
      } else if choice == 1 {
        var request: string, anchored: bool := *, *;
        var _ := p.Reconcile(true, request, anchored);
      } else {
        var target: Material, files: map<string, Material>, clock: nat := *, *, *;
        if p.w.clock <= clock && Edited(p.w.target, target, p.w.clock, clock)
           && (forall n :: n in files ==>
                 if n in p.w.files then Edited(p.w.files[n], files[n], p.w.clock, clock)
                 else p.w.clock <= files[n].ino < clock && files[n].stamp < clock) {
          p.OutsideEdit(target, files, clock);
        }
      }
      AnyHistory(p, rounds - 1);
    }
  }
}
