/** The contract a replacement task must meet: it may narrow the work it takes over, never widen it. */
module Readmission {
  import opened Common
  import opened RelativePath
  import opened ReviewPolicy

  datatype PublicationKind = NoPublication | GitLocal | GitRemote

  datatype Publication = Publication(kind: PublicationKind, remote: Option<string>, remoteUrl: Option<string>,
                                     transport: Option<string>, branch: Option<string>, ref: Option<string>)

  /** An absolute path, by its components. */
  type AbsolutePath = seq<string>

  /** A check program as a task fixes it, defaults filled in.  `authority` holds the files it is
      bound to and what each is expected to be. */
  datatype Check = Check(
    id: string, argv: seq<string>, cwd: string, timeoutSec: int, outputTail: int, timeoutAction: string,
    authority: set<(string, string)>, executableHash: string, executable: AbsolutePath)

  datatype Task = Task(
    id: string, workspace: AbsolutePath, checks: seq<Check>, allowedPaths: seq<string>,
    protectedPaths: map<string, string>, dependencies: set<string>,
    maxAttempts: int, acceptance: set<string>, nonGoals: set<string>, budget: Option<string>,
    review: Policy, ownerAcceptance: bool, publication: Publication)

  datatype Permission = AllowCommit | AllowPush | AllowForcePush | AllowReset | AllowClean | AllowStash

  datatype Project = Project(
    protectedPaths: map<string, string>, review: Policy, approval: Option<string>,
    allowed: set<Permission>, branch: Option<string>, ref: Option<string>)

  const UNSAFE := {AllowForcePush, AllowReset, AllowClean, AllowStash}

  // ---------------------------------------------------------------- the allowlist

  /** The test of one new entry: its normal form is allowed, and a directory lies in a directory. */
  predicate EntryNarrow(entry: string, before: seq<string>) {
    var item := RelativePath.Normalize(StripTrailingSlashes(entry));
    && item.Normal? && PathAllowed(item.name, before)
    && (EndsWithSlash(entry) ==>
          exists i :: 0 <= i < |before| && EndsWithSlash(before[i]) && PathAllowed(item.name, [before[i]]))
  }

  /** The loop over the new allowlist; a malformed entry refuses too. */
  method AllowedPathsNarrow(before: seq<string>, after: seq<string>) returns (ok: bool)
    ensures ok <==> forall i :: 0 <= i < |after| ==> EntryNarrow(after[i], before)
    ensures ok ==> AllowsNoMore(before, after)
  {
    for n := 0 to |after|
      invariant forall i :: 0 <= i < n ==> EntryNarrow(after[i], before)
    {
      if !EntryNarrow(after[n], before) { return false; }
    }
    ok := true;
    NarrowAllowsNoMore(before, after);
  }

  /** Every path the new list allows was allowed by the old one. */
  ghost predicate AllowsNoMore(before: seq<string>, after: seq<string>) {
    forall path :: PathAllowed(path, after) ==> PathAllowed(path, before)
  }

  lemma NarrowAllowsNoMore(before: seq<string>, after: seq<string>)
    requires forall i :: 0 <= i < |after| ==> EntryNarrow(after[i], before)
    ensures AllowsNoMore(before, after)
  {
    hide EntryNarrow, PathAllowed;
    forall path | PathAllowed(path, after)
      ensures PathAllowed(path, before)
    {
      NarrowNeverWidens(path, before, after);
    }
  }

  /** Inside a directory that lies in a directory. */
  lemma NestedDirectories(name: string, inner: string, outer: string)
    requires StartsWith(name, inner + "/") && (inner == outer || StartsWith(inner, outer + "/"))
    ensures StartsWith(name, outer + "/")
  {
  }

  /** Acceptance is syntactic, entry by entry; the guarantee is about every path there is. */
  lemma NarrowNeverWidens(path: string, before: seq<string>, after: seq<string>)
    requires forall i :: 0 <= i < |after| ==> EntryNarrow(after[i], before)
    requires PathAllowed(path, after)
    ensures PathAllowed(path, before)
  {
    hide RelativePath.Normalize, StartsWith, EndsWithSlash;
    var name := RelativePath.Normalize(path).name;
    var i :| 0 <= i < |after| && Admits(after[i], name);
    var entry := after[i];
    assert EntryNarrow(entry, before);
    var item := RelativePath.Normalize(StripTrailingSlashes(entry)).name;
    StaysNormal(StripTrailingSlashes(entry));
    assert RelativePath.Normalize(item).Normal? && RelativePath.Normalize(item).name == item;
    if name == item {
      var j :| 0 <= j < |before| && Admits(before[j], item);
      assert Admits(before[j], name);
    } else {
      var j :| 0 <= j < |before| && EndsWithSlash(before[j]) && PathAllowed(item, [before[j]]);
      assert Admits([before[j]][0], item);
      NestedDirectories(name, item, RelativePath.Normalize(StripTrailingSlashes(before[j])).name);
      assert Admits(before[j], name);
    }
  }

  /** A normal form that can be normalised again is its own normal form. */
  lemma StaysNormal(text: string)
    requires RelativePath.Normalize(text).Normal?
    ensures var item := RelativePath.Normalize(text).name;
            RelativePath.Normalize(item).Normal? ==> RelativePath.Normalize(item).name == item
  {
    NormalizeIdempotent(text);
  }

  // ---------------------------------------------------------------- the whole contract

  function KindLevel(k: PublicationKind): nat {
    match k case NoPublication => 0 case GitLocal => 1 case GitRemote => 2
  }

  predicate Protects(task: Task, baseline: map<string, string>) {
    forall p :: p in baseline ==> p in task.protectedPaths && task.protectedPaths[p] == baseline[p]
  }

  predicate OneOf(o: Option<string>, fallback: Option<string>, p: Option<string>, q: Option<string>) {
    (if o.Some? then o else fallback) == (if p.Some? then p else q)
  }

  // ---------------------------------------------------------------- the check programs

  /** The same place in another workspace; what lies outside stays where it is. */
  function Relocated(path: AbsolutePath, from: AbsolutePath, to: AbsolutePath): AbsolutePath {
    if from <= path then to + path[|from|..] else path
  }

  function Moved(c: Check, from: AbsolutePath, to: AbsolutePath): Check {
    c.(executable := Relocated(c.executable, from, to))
  }

  /** Moving there and back changes nothing, for a check program inside the workspace. */
  lemma MovedBack(c: Check, from: AbsolutePath, to: AbsolutePath)
    requires from <= c.executable
    ensures Moved(Moved(c, from, to), to, from) == c
  {
    assert from + c.executable[|from|..] == c.executable;
    assert (to + c.executable[|from|..])[|to|..] == c.executable[|from|..];
  }

  method CompareCheck(prior: Check, current: Check, from: AbsolutePath, to: AbsolutePath)
    returns (refusal: Option<string>)
    ensures refusal.None? <==> current == Moved(prior, from, to)
  {
    if current.id != prior.id || current.argv != prior.argv || current.cwd != prior.cwd
       || current.timeoutSec != prior.timeoutSec || current.outputTail != prior.outputTail
       || current.timeoutAction != prior.timeoutAction {
      return Some("readmission_check_contract_changed");
    }
    if current.authority != prior.authority { return Some("readmission_authority_paths_changed"); }
    if current.executableHash != prior.executableHash { return Some("readmission_executable_identity_changed"); }
    if from <= prior.executable {
      if !(to <= current.executable) || prior.executable[|from|..] != current.executable[|to|..] {
        return Some("readmission_executable_identity_changed");
      }
      assert to + current.executable[|to|..] == current.executable;
    } else if prior.executable != current.executable {
      return Some("readmission_executable_identity_changed");
    }
    refusal := None;
  }

  /** The new task runs the old check programs, in the same order. */
  predicate SameChecks(before: Task, after: Task) {
    && |after.checks| == |before.checks|
    && forall i :: 0 <= i < |before.checks| ==>
         after.checks[i] == Moved(before.checks[i], before.workspace, after.workspace)
  }

  method CompareChecks(before: Task, after: Task) returns (refusal: Option<string>)
    ensures refusal.None? <==> SameChecks(before, after)
  {
    if |before.checks| != |after.checks| { return Some("readmission_check_contract_changed"); }
    for n := 0 to |before.checks|
      invariant forall i :: 0 <= i < n ==> after.checks[i] == Moved(before.checks[i], before.workspace, after.workspace)
    {
      refusal := CompareCheck(before.checks[n], after.checks[n], before.workspace, after.workspace);
      if refusal.Some? { return; }
    }
    refusal := None;
  }

  // ---------------------------------------------------------------- every check together

  /** The publication's part, in the order it is tested. */
  function PublicationRefusal(before: Publication, after: Publication, project: Project): Option<string> {
    if KindLevel(after.kind) > KindLevel(before.kind) then Some("readmission_publication_permission_widened")
    else if after.kind != NoPublication && AllowCommit !in project.allowed then
      Some("readmission_project_commit_not_allowed")
    else if after.kind == GitRemote && AllowPush !in project.allowed then Some("readmission_project_push_not_allowed")
    else if after.kind != NoPublication
            && (after.branch != project.branch || !OneOf(after.ref, after.branch, project.ref, project.branch)) then
      Some("readmission_publication_destination_mismatch")
    else if after.remote != before.remote || after.remoteUrl != before.remoteUrl
            || after.transport != before.transport then
      Some("readmission_publication_transport_changed")
    else None
  }

  predicate PublicationOk(before: Publication, after: Publication, project: Project) {
    && KindLevel(after.kind) <= KindLevel(before.kind)
    && (after.kind != NoPublication ==>
          && AllowCommit in project.allowed && after.branch == project.branch
          && (after.ref == project.ref || (project.ref.None? && after.ref == project.branch)
              || (after.ref.None? && project.ref == project.branch)))
    && (after.kind == GitRemote ==> AllowPush in project.allowed)
    && after.remote == before.remote && after.remoteUrl == before.remoteUrl && after.transport == before.transport
  }

  /** `_readmission_contract`, condition by condition.  The answer is the code of the first refusal. */
  method ReadmissionContract(before: Task, after: Task, oldProject: Project, newProject: Project,
                             dependency: string, remaining: int) returns (refusal: Option<string>)
    ensures refusal.None? ==> NeverWider(before, after, oldProject, newProject, dependency, remaining)
    ensures refusal.None? <==>
              && remaining >= 1 && after.maxAttempts <= remaining
              && (forall i :: 0 <= i < |after.allowedPaths| ==> EntryNarrow(after.allowedPaths[i], before.allowedPaths))
              && Inherits(before, after, oldProject, newProject, dependency) && SameChecks(before, after)
  {
    hide EntryNarrow, Contract, Protects, SameChecks, AllowsNoMore, KeepsEveryReview, AddsReviewsOnly, NeverWider;
    if remaining < 1 || after.maxAttempts > remaining { return Some("readmission_remaining_attempts_exceeded"); }
    var narrow := AllowedPathsNarrow(before.allowedPaths, after.allowedPaths);
    if !narrow { return Some("readmission_allowed_paths_widened"); }
    if !Protects(after, before.protectedPaths) || !Protects(after, oldProject.protectedPaths)
       || !Protects(after, newProject.protectedPaths) {
      return Some("readmission_protected_paths_widened");
    }
    if !(before.dependencies <= after.dependencies) || dependency !in after.dependencies
       || before.id in after.dependencies {
      return Some("readmission_dependencies_widened");
    }
    if !(before.acceptance <= after.acceptance) || !(before.nonGoals <= after.nonGoals)
       || (before.budget.Some? && after.budget != before.budget) {
      return Some("readmission_task_requirements_widened");
    }
    if !Contract(before.review, after.review) { return Some("readmission_review_contract_widened"); }
    if before.review.mode == RiskBased && after.review.mode != Required {
      return Some("readmission_retry_review_required");
    }
    if !Contract(oldProject.review, newProject.review) { return Some("readmission_review_contract_widened"); }
    if before.ownerAcceptance && !after.ownerAcceptance { return Some("readmission_owner_gate_widened"); }
    if newProject.approval != oldProject.approval && newProject.approval != Some("required") {
      return Some("readmission_project_owner_gate_widened");
    }
    if !(newProject.allowed <= oldProject.allowed) { return Some("readmission_project_git_permission_widened"); }
    if newProject.allowed * UNSAFE != {} { return Some("readmission_unsafe_project_git_permission"); }
    refusal := PublicationRefusal(before.publication, after.publication, newProject);
    if refusal.Some? { return; }
    refusal := CompareChecks(before, after);
    if refusal.Some? { return; }
    GuaranteesFollow(before, after, oldProject, newProject, dependency, remaining);
    refusal := None;
  }

  /** Every condition but those of attempts, paths and check programs. */
  predicate Inherits(before: Task, after: Task, oldProject: Project, newProject: Project, dependency: string) {
    && Protects(after, before.protectedPaths) && Protects(after, oldProject.protectedPaths)
    && Protects(after, newProject.protectedPaths)
    && before.dependencies <= after.dependencies && dependency in after.dependencies && before.id !in after.dependencies
    && before.acceptance <= after.acceptance && before.nonGoals <= after.nonGoals
    && (before.budget.Some? ==> after.budget == before.budget)
    && Contract(before.review, after.review) && (before.review.mode == RiskBased ==> after.review.mode == Required)
    && Contract(oldProject.review, newProject.review)
    && (before.ownerAcceptance ==> after.ownerAcceptance)
    && (newProject.approval == oldProject.approval || newProject.approval == Some("required"))
    && newProject.allowed <= oldProject.allowed && newProject.allowed * UNSAFE == {}
    && PublicationOk(before.publication, after.publication, newProject)
  }

  /** What acceptance means for the work: no path, attempt, unreviewed change, unapproved result,
      Git permission or kind of publication that the old task did not have, and the same check
      programs. */
  ghost predicate NeverWider(before: Task, after: Task, oldProject: Project, newProject: Project,
                             dependency: string, remaining: int) {
    && AllowsNoMore(before.allowedPaths, after.allowedPaths)
    && after.maxAttempts <= remaining
    && KeepsEveryReview(before.review, after.review) && AddsReviewsOnly(oldProject.review, newProject.review)
    && (before.ownerAcceptance ==> after.ownerAcceptance)
    && newProject.allowed <= oldProject.allowed && newProject.allowed * UNSAFE == {}
    && KindLevel(after.publication.kind) <= KindLevel(before.publication.kind)
    && dependency in after.dependencies && before.id !in after.dependencies
    && SameChecks(before, after)
    && before.dependencies <= after.dependencies && before.acceptance <= after.acceptance
    && before.nonGoals <= after.nonGoals && (before.budget.Some? ==> after.budget == before.budget)
    && KeepsProtection(before, after, oldProject, newProject) && SameDestination(before, after, newProject)
    && (before.review.mode != Off ==>
          && after.review.mode != Off
          && after.review.reviewer == before.review.reviewer && after.review.placement == before.review.placement)
  }

  /** Every file that the old task or either project protects is protected, against the same content. */
  ghost predicate KeepsProtection(before: Task, after: Task, oldProject: Project, newProject: Project) {
    && (forall p :: p in before.protectedPaths ==> (p, before.protectedPaths[p]) in after.protectedPaths.Items)
    && (forall p :: p in oldProject.protectedPaths ==> (p, oldProject.protectedPaths[p]) in after.protectedPaths.Items)
    && (forall p :: p in newProject.protectedPaths ==> (p, newProject.protectedPaths[p]) in after.protectedPaths.Items)
  }

  /** What is published goes to the project's own branch and reference, by the old transport, and
      only as far as the project permits. */
  ghost predicate SameDestination(before: Task, after: Task, project: Project) {
    && (after.publication.kind != NoPublication ==>
          && AllowCommit in project.allowed && after.publication.branch == project.branch
          && (after.publication.ref.Some? && project.ref.Some? ==> after.publication.ref == project.ref)
          && (after.publication.ref.Some? && project.ref.None? ==> after.publication.ref == project.branch)
          && (after.publication.ref.None? && project.ref.Some? ==> project.ref == project.branch))
    && (after.publication.kind == GitRemote ==> AllowPush in project.allowed && before.publication.kind == GitRemote)
    && after.publication.remote == before.publication.remote
    && after.publication.remoteUrl == before.publication.remoteUrl
    && after.publication.transport == before.publication.transport
  }

  lemma GuaranteesFollow(before: Task, after: Task, oldProject: Project, newProject: Project, dependency: string,
                         remaining: int)
    requires after.maxAttempts <= remaining && Inherits(before, after, oldProject, newProject, dependency)
    requires SameChecks(before, after)
    requires forall i :: 0 <= i < |after.allowedPaths| ==> EntryNarrow(after.allowedPaths[i], before.allowedPaths)
    ensures NeverWider(before, after, oldProject, newProject, dependency, remaining)
  {
    hide EntryNarrow, AllowsNoMore, KeepsEveryReview, AddsReviewsOnly;
    NarrowAllowsNoMore(before.allowedPaths, after.allowedPaths);
    ReadmissionKeepsEveryReview(before.review, after.review);
    ContractAddsOnly(oldProject.review, newProject.review);
  }
}
