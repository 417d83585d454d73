/** Evidence of one bounded file replacement: the intent, and the append-once chain
    dispatch / publication / result that is validated against it. */
module PatchRecords {
  import opened Common

  /** A regular file as a descriptor shows it.  `attributes` stands for device, mode, owner,
      link count and flags, `stamp` for both timestamps; contents stand for their digests. */
  datatype Material = Material(ino: nat, stamp: nat, attributes: string, content: string, xattrs: string)

  /** Equality up to timestamps, which a rename may move. */
  predicate SameStable(actual: Material, expected: Material) {
    actual.(stamp := expected.stamp) == expected
  }

  datatype Intent = Intent(request: string, baseline: string, replacement: string)

  datatype Dispatch = Dispatch(request: string, intent: Intent, created: nat, original: Material, tempName: string)
  datatype Publication = Publication(
    request: string, intent: Intent, created: nat, dispatch: Dispatch, staged: Material)
  datatype Disposition = Applied | NotApplied
  datatype Basis = Apply | ReconcileApplied | ReconcileStaged | ReconcileNoPublication | FailedBeforePublication
  datatype Outcome = Outcome(
    request: string, intent: Intent, created: nat, dispatch: Dispatch, publication: Option<Publication>,
    disposition: Disposition, basis: Basis, target: Material)

  datatype Records = Records(dispatch: Option<Dispatch>, publication: Option<Publication>, result: Option<Outcome>)
  const NO_RECORDS := Records(None, None, None)

  datatype Record = DispatchRecord(d: Dispatch) | PublicationRecord(p: Publication) | ResultRecord(r: Outcome)

  predicate Holds(records: Records, record: Record) {
    match record
    case DispatchRecord(d) => records.dispatch == Some(d)
    case PublicationRecord(p) => records.publication == Some(p)
    case ResultRecord(r) => records.result == Some(r)
  }

  predicate PhaseTaken(records: Records, record: Record) {
    match record
    case DispatchRecord(_) => records.dispatch.Some?
    case PublicationRecord(_) => records.publication.Some?
    case ResultRecord(_) => records.result.Some?
  }

  function With(records: Records, record: Record): Records {
    match record
    case DispatchRecord(d) => records.(dispatch := Some(d))
    case PublicationRecord(p) => records.(publication := Some(p))
    case ResultRecord(r) => records.(result := Some(r))
  }

  /** `validate_execution_records`: the chain against its exact intent. */
  predicate ValidChain(records: Records, intent: Intent) {
    && records.dispatch.Some?
    && var d := records.dispatch.value;
    && d.intent == intent && d.request == intent.request && d.original.content == intent.baseline
    && (records.publication.Some? ==> ValidPublication(records.publication.value, d, intent))
    && (records.result.Some? ==> ValidResult(records.result.value, d, records.publication, intent))
  }

  predicate ValidPublication(p: Publication, d: Dispatch, intent: Intent) {
    && p.intent == intent && p.request == intent.request && p.dispatch == d
    && p.staged.content == intent.replacement
    && p.staged.attributes == d.original.attributes && p.staged.xattrs == d.original.xattrs
    && p.staged.ino != d.original.ino
  }

  predicate ValidResult(r: Outcome, d: Dispatch, publication: Option<Publication>, intent: Intent) {
    && r.intent == intent && r.request == intent.request && r.dispatch == d && r.publication == publication
    && match r.disposition
       case Applied =>
         publication.Some? && r.basis in {Apply, ReconcileApplied} && SameStable(r.target, publication.value.staged)
       case NotApplied =>
         r.target == d.original
         && r.basis in if publication.Some? then {Apply, ReconcileStaged}
                       else {Apply, ReconcileNoPublication, FailedBeforePublication}
  }

  /** Records are only ever added. */
  predicate Extends(before: Records, after: Records) {
    && (before.dispatch.Some? ==> after.dispatch == before.dispatch)
    && (before.publication.Some? ==> after.publication == before.publication)
    && (before.result.Some? ==> after == before)
  }

  /** Dispatch first, an optional publication, a result last. */
  predicate IsPrefix(records: Records) {
    (records.publication.Some? || records.result.Some?) ==> records.dispatch.Some?
  }

  /** An accepted append keeps everything already written and keeps the chain valid. */
  lemma AppendExtends(records: Records, record: Record, intent: Intent)
    requires IsPrefix(records) && !PhaseTaken(records, record) && records.result.None?
    requires records.dispatch.Some? ==> ValidChain(records, intent)
    requires ValidChain(With(records, record), intent)
    ensures Extends(records, With(records, record)) && IsPrefix(With(records, record))
  {
  }

  /** What a result is evidence of.  APPLIED: the target is the published file, a new inode with the
      replacement's content and the original's attributes and extended attributes, whatever its
      time stamps.  NOT_APPLIED: the target is the original in every respect.  The basis agrees. */
  lemma ResultIsEvidence(records: Records, intent: Intent)
    requires ValidChain(records, intent) && records.result.Some?
    ensures var r := records.result.value; var original := records.dispatch.value.original;
            && r.request == records.dispatch.value.request == intent.request
            && r.intent == records.dispatch.value.intent == intent
            && r.dispatch == records.dispatch.value && r.publication == records.publication
            && original.content == intent.baseline
            && (r.disposition == Applied ==>
                  && records.publication.Some? && r.target.ino == records.publication.value.staged.ino != original.ino
                  && r.target.content == intent.replacement
                  && r.target.attributes == original.attributes && r.target.xattrs == original.xattrs)
            && (r.disposition == NotApplied ==> r.target == original)
            && (r.basis == ReconcileApplied ==> r.disposition == Applied)
            && (r.basis == ReconcileStaged ==> r.disposition == NotApplied && records.publication.Some?)
            && (r.basis in {ReconcileNoPublication, FailedBeforePublication} ==>
                  r.disposition == NotApplied && records.publication.None?)
  {
  }

  /** What a publication is evidence of: a new inode that holds the replacement under the original's
      metadata, staged for exactly this intent and dispatch. */
  lemma PublicationIsEvidence(records: Records, intent: Intent)
    requires ValidChain(records, intent) && records.publication.Some?
    ensures var p := records.publication.value; var original := records.dispatch.value.original;
            && p.intent == intent && p.request == intent.request && p.dispatch == records.dispatch.value
            && p.staged.content == intent.replacement && p.staged.ino != original.ino
            && p.staged.attributes == original.attributes && p.staged.xattrs == original.xattrs
  {
  }

  /** A terminal chain fixes its disposition: no result of the other kind can be validated
      for the same observed inode. */
  lemma ResultIsDetermined(records: Records, intent: Intent, first: Outcome, second: Outcome)
    requires ValidChain(records.(result := Some(first)), intent) && ValidChain(records.(result := Some(second)), intent)
    requires first.target.ino == second.target.ino
    ensures first.disposition == second.disposition
  {
  }
}
