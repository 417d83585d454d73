/** When a change must be reviewed, and which changes of the policy can only add reviews. */
module ReviewPolicy {
  import opened Common
  import opened Sorting

  datatype Mode = Off | RiskBased | Required

  datatype Policy = Policy(
    mode: Mode, reviewer: string, placement: string,
    riskTags: seq<string>, triggerTags: seq<string>, patterns: seq<string>,
    largeFiles: int, largeBytes: int, onRetry: bool)

  /** The review section of a task or project as written; absent fields take defaults. */
  datatype Raw = Raw(
    mode: Option<string>, reviewer: Option<string>, placement: Option<string>,
    riskTags: Option<seq<string>>, triggerTags: Option<seq<string>>, patterns: Option<seq<string>>,
    largeFiles: Option<int>, largeBytes: Option<int>, onRetry: Option<bool>)

  const DEFAULT_RISK_TAGS := ["architecture", "auth", "ci", "database", "external_integration", "git_workflow",
                              "migration", "security", "tests_changed"]
  const DEFAULT_PATTERNS := ["**/auth/**", "**/security/**", "**/migrations/**", "**/.github/**",
                             "**/auth.*", "**/security.*",
                             "**/workflows/**", "workflows/**", "**/tests/**", "tests/**",
                             "**/test_*", "test_*", "**/*_test.*", "*_test.*",
                             "AGENTS.md", ".codex/**", ".github/**"]

  function ModeOf(name: string): Option<Mode> {
    if name == "off" then Some(Off)
    else if name == "risk_based" then Some(RiskBased)
    else if name == "required" then Some(Required)
    else None
  }

  function OrElse<T>(o: Option<T>, d: T): T {
    if o.Some? then o.value else d
  }

  /** `normalize_review_policy`; `None` where it raises. */
  function Normalize(raw: Option<Raw>, requiredReview: bool): Option<Policy> {
    var r := if raw.Some? then raw.value
             else
               Raw(Some(if requiredReview then "required" else "off"), None, None, None, None, None, None, None, None);
    var mode := ModeOf(OrElse(r.mode, "off"));
    if mode.None? then None
    else
      var reviewer := OrElse(r.reviewer, if mode.value != Off then "codex" else "none");
      var placement := OrElse(r.placement, "post_verify");
      if reviewer !in {"none", "codex"} || (mode.value != Off && reviewer == "none")
         || placement !in {"post_verify", "pre_publish"} then None
      else
        Some(Policy(mode.value, reviewer, placement, OrElse(r.riskTags, []), OrElse(r.triggerTags, DEFAULT_RISK_TAGS),
                    OrElse(r.patterns, DEFAULT_PATTERNS), OrElse(r.largeFiles, 8), OrElse(r.largeBytes, 20000),
                    OrElse(r.onRetry, true)))
  }

  /** A project or task without a review section is reviewed as its old flag says. */
  lemma NoSectionFollowsTheFlag(requiredReview: bool)
    ensures Normalize(None, requiredReview)
            == Some(Policy(if requiredReview then Required else Off, if requiredReview then "codex" else "none",
                           "post_verify", [], DEFAULT_RISK_TAGS, DEFAULT_PATTERNS, 8, 20000, true))
  {
  }

  /** With a section the flag is of no account: every field that is written is taken over, every other
      gets its default, and an enabled mode needs its reviewer. */
  lemma SectionIsTakenOver(raw: Raw, requiredReview: bool)
    ensures var p := Normalize(Some(raw), requiredReview);
            && (p.Some? <==>
                  && raw.mode in {None, Some("off"), Some("risk_based"), Some("required")}
                  && raw.reviewer in {None, Some("codex"), Some("none")}
                  && (raw.reviewer == Some("none") ==> raw.mode in {None, Some("off")})
                  && raw.placement in {None, Some("post_verify"), Some("pre_publish")})
            && (p.Some? ==>
                  && (p.value.mode == RiskBased <==> raw.mode == Some("risk_based"))
                  && (p.value.mode == Required <==> raw.mode == Some("required"))
                  && Some(p.value.reviewer) == (if raw.reviewer.Some? then raw.reviewer
                                                else if p.value.mode == Off then Some("none") else Some("codex"))
                  && p.value.placement == (if raw.placement == Some("pre_publish") then "pre_publish"
                                           else "post_verify")
                  && (raw.riskTags == Some(p.value.riskTags) || (raw.riskTags.None? && p.value.riskTags == []))
                  && (raw.triggerTags == Some(p.value.triggerTags)
                      || (raw.triggerTags.None? && p.value.triggerTags == DEFAULT_RISK_TAGS))
                  && (raw.patterns == Some(p.value.patterns)
                      || (raw.patterns.None? && p.value.patterns == DEFAULT_PATTERNS))
                  && (raw.largeFiles == Some(p.value.largeFiles) || (raw.largeFiles.None? && p.value.largeFiles == 8))
                  && (raw.largeBytes == Some(p.value.largeBytes)
                      || (raw.largeBytes.None? && p.value.largeBytes == 20000))
                  && (p.value.onRetry <==> raw.onRetry != Some(false)))
  {
  }

  function NameOf(m: Mode): string {
    match m case Off => "off" case RiskBased => "risk_based" case Required => "required"
  }

  /** A normalised policy, written out again. */
  function Written(p: Policy): Raw {
    Raw(Some(NameOf(p.mode)), Some(p.reviewer), Some(p.placement), Some(p.riskTags), Some(p.triggerTags),
        Some(p.patterns),
        Some(p.largeFiles), Some(p.largeBytes), Some(p.onRetry))
  }

  /** Normalising is stable: what it accepts it accepts again and does not change, whatever the old
      flag says. */
  lemma NormalizedIsStable(raw: Option<Raw>, requiredReview: bool, flag: bool)
    requires Normalize(raw, requiredReview).Some?
    ensures var p := Normalize(raw, requiredReview).value;
            Normalize(Some(Written(p)), flag) == Some(p) && (p.mode != Off ==> p.reviewer == "codex")
  {
  }

  // ---------------------------------------------------------------- the decision

  datatype File = File(path: string, bytes: int)

  /** Whether a path matches a glob pattern. */
  type Matcher = (string, string) -> bool

  function TotalBytes(files: seq<File>): int {
    if files == [] then 0 else TotalBytes(files[..|files| - 1]) + files[|files| - 1].bytes
  }

  predicate Sensitive(p: Policy, path: string, fits: Matcher) {
    exists k :: 0 <= k < |p.patterns| && fits(path, p.patterns[k])
  }

  predicate TagTriggered(p: Policy) {
    exists tag :: tag in p.riskTags && tag in p.triggerTags
  }

  /** Something about this change asks for a review. */
  predicate Signalled(p: Policy, files: seq<File>, attempt: int, fits: Matcher) {
    || TagTriggered(p)
    || (exists i :: 0 <= i < |files| && Sensitive(p, files[i].path, fits))
    || |files| >= p.largeFiles
    || TotalBytes(files) >= p.largeBytes
    || (attempt > 1 && p.onRetry)
  }

  predicate NeedsReview(p: Policy, files: seq<File>, attempt: int, fits: Matcher) {
    p.mode == Required || (p.mode == RiskBased && Signalled(p, files, attempt, fits))
  }

  datatype Signal = ModeRequired | RiskTag(tag: string) | SensitivePath(path: string)
                  | LargeFiles(count: nat) | LargeBytes(bytes: int) | Retry(attempt: int)

  const MAX_LISTED := 20

  /** A text as the order of texts sees it. */
  function KeyOf(text: string): Key {
    seq(|text|, i requires 0 <= i < |text| => text[i] as int)
  }

  function KeysOf(texts: seq<string>): seq<Key> {
    seq(|texts|, i requires 0 <= i < |texts| => KeyOf(texts[i]))
  }

  lemma KeyIsUnique(a: string, b: string)
    requires KeyOf(a) == KeyOf(b)
    ensures a == b
  {
    forall i | 0 <= i < |a|
      ensures a[i] == b[i]
    {
      assert KeyOf(a)[i] == KeyOf(b)[i];
    }
  }

  /** The tags that trigger, sorted. */
  ghost predicate AreTriggered(p: Policy, tags: seq<string>) {
    && (forall tag :: tag in tags <==> tag in p.riskTags && tag in p.triggerTags)
    && Sorted(KeysOf(tags))
  }

  /** A policy has one list of triggered tags. */
  lemma TriggeredIsUnique(p: Policy, tags: seq<string>, others: seq<string>)
    requires AreTriggered(p, tags) && AreTriggered(p, others)
    ensures tags == others
  {
    SameKeys(tags, others);
    SameKeys(others, tags);
    SortedIsUnique(KeysOf(tags), KeysOf(others));
    forall i | 0 <= i < |tags|
      ensures tags[i] == others[i]
    {
      assert KeysOf(tags)[i] == KeysOf(others)[i];
      KeyIsUnique(tags[i], others[i]);
    }
  }

  lemma SameKeys(tags: seq<string>, others: seq<string>)
    requires forall tag :: tag in tags ==> tag in others
    ensures forall key :: key in KeysOf(tags) ==> key in KeysOf(others)
  {
    forall key | key in KeysOf(tags)
      ensures key in KeysOf(others)
    {
      var i :| 0 <= i < |tags| && KeysOf(tags)[i] == key;
      assert tags[i] in others;
      var j :| 0 <= j < |others| && others[j] == tags[i];
      assert KeysOf(others)[j] == key;
    }
  }

  function TagSignals(tags: seq<string>): seq<Signal> {
    seq(|tags|, i requires 0 <= i < |tags| => RiskTag(tags[i]))
  }

  function SensitiveFiles(p: Policy, files: seq<File>, fits: Matcher): seq<Signal> {
    if files == [] then []
    else
      var front, last := SensitiveFiles(p, files[..|files| - 1], fits), files[|files| - 1].path;
      if Sensitive(p, last, fits) then front + [SensitivePath(last)] else front
  }

  function AtMost(signals: seq<Signal>, n: nat): seq<Signal> {
    if |signals| <= n then signals else signals[..n]
  }

  /** Everything that was noticed about the change, tags first. */
  function Noticed(p: Policy, tags: seq<string>, files: seq<File>, attempt: int, fits: Matcher): seq<Signal> {
    TagSignals(tags) + AtMost(SensitiveFiles(p, files, fits), MAX_LISTED)
    + (if |files| >= p.largeFiles then [LargeFiles(|files|)] else [])
    + (if TotalBytes(files) >= p.largeBytes then [LargeBytes(TotalBytes(files))] else [])
    + (if attempt > 1 && p.onRetry then [Retry(attempt)] else [])
  }

  lemma {:induction false} SensitiveFilesExist(p: Policy, files: seq<File>, fits: Matcher)
    ensures SensitiveFiles(p, files, fits) != [] <==> exists i :: 0 <= i < |files| && Sensitive(p, files[i].path, fits)
  {
    if files != [] {
      SensitiveFilesExist(p, files[..|files| - 1], fits);
      var k := |files| - 1;
      if Sensitive(p, files[k].path, fits) { assert 0 <= k < |files|; }
      forall i | 0 <= i < |files| && Sensitive(p, files[i].path, fits)
        ensures SensitiveFiles(p, files, fits) != []
      {
        if i < k { assert files[..k][i] == files[i]; }
      }
    }
  }

  lemma NoticedMeansSignalled(p: Policy, tags: seq<string>, files: seq<File>, attempt: int, fits: Matcher)
    requires AreTriggered(p, tags)
    ensures Noticed(p, tags, files, attempt, fits) != [] <==> Signalled(p, files, attempt, fits)
  {
    SensitiveFilesExist(p, files, fits);
    assert tags != [] ==> tags[0] in tags;
  }

  method TriggeredTags(p: Policy) returns (tags: seq<string>)
    ensures AreTriggered(p, tags)
  {
    hide Less;
    tags := [];
    for i := 0 to |p.riskTags|
      invariant forall tag :: tag in tags <==> tag in p.riskTags[..i] && tag in p.triggerTags
      invariant Sorted(KeysOf(tags))
    {
      var tag := p.riskTags[i];
      assert p.riskTags[..i + 1] == p.riskTags[..i] + [tag];
      if tag in p.triggerTags && tag !in tags {
        KeyIsNew(tags, tag);
        var n := Place(KeysOf(tags), KeyOf(tag));
        assert KeysOf(tags[..n] + [tag] + tags[n..]) == KeysOf(tags)[..n] + [KeyOf(tag)] + KeysOf(tags)[n..];
        assert tags == tags[..n] + tags[n..];
        tags := tags[..n] + [tag] + tags[n..];
      }
    }
    assert p.riskTags[..|p.riskTags|] == p.riskTags;
  }

  lemma KeyIsNew(tags: seq<string>, tag: string)
    requires tag !in tags
    ensures KeyOf(tag) !in KeysOf(tags)
  {
    if KeyOf(tag) in KeysOf(tags) {
      var i :| 0 <= i < |tags| && KeysOf(tags)[i] == KeyOf(tag);
      KeyIsUnique(tags[i], tag);
      assert false;
    }
  }

  method SensitivePaths(p: Policy, files: seq<File>, fits: Matcher) returns (signals: seq<Signal>, total: int)
    ensures signals == SensitiveFiles(p, files, fits) && total == TotalBytes(files)
  {
    signals, total := [], 0;
    for i := 0 to |files|
      invariant signals == SensitiveFiles(p, files[..i], fits) && total == TotalBytes(files[..i])
    {
      assert files[..i + 1][..i] == files[..i];
      total := total + files[i].bytes;
      if Sensitive(p, files[i].path, fits) { signals := signals + [SensitivePath(files[i].path)]; }
    }
    assert files[..|files|] == files;
  }

  /** `decide_review`, for the changed files in the order of their paths: collects the signals one by
      one; at most twenty sensitive paths are listed,
      and the decision is as if all were. */
  method DecideReview(p: Policy, files: seq<File>, attempt: int, fits: Matcher)
    returns (required: bool, reviewer: string, signals: seq<Signal>)
    ensures required <==> NeedsReview(p, files, attempt, fits)
    ensures reviewer == if required then p.reviewer else "none"
    ensures exists tags :: AreTriggered(p, tags)
              && signals == (if p.mode == Required then [ModeRequired] else []) + Noticed(p, tags, files, attempt, fits)
  {
    hide Sensitive;
    var tags := TriggeredTags(p);
    var sensitive, total := SensitivePaths(p, files, fits);
    signals := TagSignals(tags) + AtMost(sensitive, MAX_LISTED);
    if |files| >= p.largeFiles { signals := signals + [LargeFiles(|files|)]; }
    if total >= p.largeBytes { signals := signals + [LargeBytes(total)]; }
    if attempt > 1 && p.onRetry { signals := signals + [Retry(attempt)]; }
    assert signals == Noticed(p, tags, files, attempt, fits);
    NoticedMeansSignalled(p, tags, files, attempt, fits);
    required := match p.mode case Off => false case Required => true case RiskBased => signals != [];
    reviewer := if required then p.reviewer else "none";
    if p.mode == Required { signals := [ModeRequired] + signals; }
  }

  // ---------------------------------------------------------------- changing the policy

  function Level(m: Mode): nat {
    match m case Off => 0 case RiskBased => 1 case Required => 2
  }

  predicate Included(few: seq<string>, many: seq<string>) {
    forall x :: x in few ==> x in many
  }

  /** `_readmission_review_contract`: what it lets pass. */
  predicate Contract(before: Policy, after: Policy) {
    && Level(after.mode) >= Level(before.mode)
    && (before.mode != Off ==> after.reviewer == before.reviewer && after.placement == before.placement)
    && Included(before.riskTags, after.riskTags) && Included(before.triggerTags, after.triggerTags)
    && Included(before.patterns, after.patterns)
    && after.largeFiles <= before.largeFiles && after.largeBytes <= before.largeBytes
    && (before.onRetry ==> after.onRetry)
  }

  /** A policy that passes reviews every change the old one reviewed, whatever patterns match. */
  lemma ContractAddsReviewsOnly(before: Policy, after: Policy, files: seq<File>, attempt: int, fits: Matcher)
    requires Contract(before, after) && NeedsReview(before, files, attempt, fits)
    ensures NeedsReview(after, files, attempt, fits)
  {
    if before.mode == RiskBased && after.mode == RiskBased {
      if i :| 0 <= i < |files| && Sensitive(before, files[i].path, fits) {
        var k :| 0 <= k < |before.patterns| && fits(files[i].path, before.patterns[k]);
        assert before.patterns[k] in before.patterns && before.patterns[k] in after.patterns;
        var l :| 0 <= l < |after.patterns| && after.patterns[l] == before.patterns[k];
        assert Sensitive(after, files[i].path, fits);
      }
      if tag :| tag in before.riskTags && tag in before.triggerTags {
        assert TagTriggered(after);
      }
    }
  }

  /** A readmitted task starts at attempt 1, so the contract alone could lose a retry's review. */
  lemma ContractAloneForgetsRetries(files: seq<File>, fits: Matcher)
    requires |files| < 8 && TotalBytes(files) < 20000
    ensures var p := Policy(RiskBased, "codex", "post_verify", [], [], [], 8, 20000, true);
            Contract(p, p) && NeedsReview(p, files, 2, fits) && !NeedsReview(p, files, 1, fits)
  {
  }

  /** With the rule that a risk-based task may only be readmitted under a mandatory review, every
      review the old task could need is needed by the new one, for all changes and attempts. */
  lemma ReadmissionKeepsEveryReview(before: Policy, after: Policy)
    requires Contract(before, after) && (before.mode == RiskBased ==> after.mode == Required)
    ensures KeepsEveryReview(before, after)
  {
  }

  /** A review the old policy can ask for at all is one the new policy always asks for. */
  ghost predicate KeepsEveryReview(before: Policy, after: Policy) {
    forall files, attempt, fits, files', attempt', fits' ::
      NeedsReview(before, files, attempt, fits) ==> NeedsReview(after, files', attempt', fits')
  }

  /** Change by change, the new policy asks wherever the old one did. */
  ghost predicate AddsReviewsOnly(before: Policy, after: Policy) {
    forall files, attempt, fits ::
      NeedsReview(before, files, attempt, fits) ==> NeedsReview(after, files, attempt, fits)
  }

  lemma ContractAddsOnly(before: Policy, after: Policy)
    requires Contract(before, after)
    ensures AddsReviewsOnly(before, after)
  {
    forall files, attempt, fits | NeedsReview(before, files, attempt, fits)
      ensures NeedsReview(after, files, attempt, fits)
    {
      ContractAddsReviewsOnly(before, after, files, attempt, fits);
    }
  }
}
