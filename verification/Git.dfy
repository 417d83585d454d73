/** The small part of Git that publication observes and changes: immutable
    commits, the checked-out branch, the index and the work tree. */
module Git {
  type Path = string
  type Blob = string

  /** What a tree or the index holds for one path. */
  datatype Entry = Entry(blob: Blob, executable: bool)
  type Tree = map<Path, Entry>

  /** A commit object; its hash is taken to identify exactly this value. */
  datatype Commit = Commit(parents: seq<Commit>, tree: Tree, stamp: nat)

  /** A work-tree file with its permission bits. */
  datatype File = File(blob: Blob, mode: nat)

  /** What a verified snapshot recorded for one changed path. */
  datatype Recorded = Deleted | Present(blob: Blob, mode: nat)
  type Manifest = map<Path, Recorded>

  datatype Repo = Repo(
    head: Commit,
    branch: string,
    index: Tree,
    files: map<Path, File>)

  /** Git stores 100755 when any execute bit is set, else 100644. */
  predicate AnyExecuteBit(mode: nat) {
    mode % 2 == 1 || (mode / 8) % 2 == 1 || (mode / 64) % 2 == 1
  }

  /** The nine permission bits, by owner, group and others. */
  lemma ExecuteBitsAreExact(owner: nat, group: nat, others: nat)
    requires owner < 8 && group < 8 && others < 8
    ensures AnyExecuteBit(64 * owner + 8 * group + others) <==>
              owner in {1, 3, 5, 7} || group in {1, 3, 5, 7} || others in {1, 3, 5, 7}
  {
    var mode := 64 * owner + 8 * group + others;
    assert mode / 64 == owner && mode / 8 == 8 * owner + group;
    assert mode % 2 == others % 2 && (mode / 8) % 2 == group % 2;
    OddDigit(owner);
    OddDigit(group);
    OddDigit(others);
  }

  lemma OddDigit(digit: nat)
    requires digit < 8
    ensures digit % 2 == 1 <==> digit in {1, 3, 5, 7}
  {
  }

  function AsTree(files: map<Path, File>): Tree {
    map p | p in files :: Entry(files[p].blob, AnyExecuteBit(files[p].mode))
  }

  predicate SameAt(before: Tree, after: Tree, p: Path) {
    (p in before <==> p in after) && (p in before && p in after ==> before[p] == after[p])
  }

  /** `git diff --name-only` between two trees. */
  function Changed(before: Tree, after: Tree): set<Path> {
    set p | p in before.Keys + after.Keys && !SameAt(before, after, p)
  }

  /** `git diff-tree` of a commit without -m or --root prints nothing for roots and merges. */
  function CommitChanges(c: Commit): set<Path> {
    if |c.parents| == 1 then Changed(c.parents[0].tree, c.tree) else {}
  }

  /** Every recorded path has the recorded content and mode, or is absent when deleted. */
  predicate EntriesMatch(tree: Tree, manifest: Manifest) {
    forall p :: p in manifest ==>
      match manifest[p]
      case Deleted => p !in tree
      case Present(blob, mode) => p in tree && tree[p] == Entry(blob, AnyExecuteBit(mode))
  }

  /** The commit records the snapshot: same paths, first parent, contents and modes. */
  predicate CommitMatches(c: Commit, base: Commit, manifest: Manifest) {
    && CommitChanges(c) == manifest.Keys
    && |c.parents| > 0 && c.parents[0] == base
    && EntriesMatch(c.tree, manifest)
  }

  predicate StagedMatches(repo: Repo, manifest: Manifest) {
    Changed(repo.head.tree, repo.index) == manifest.Keys && EntriesMatch(repo.index, manifest)
  }

  /** The tree a publication is meant to produce from the base tree. */
  function ApplyManifest(base: Tree, manifest: Manifest): Tree {
    map p | p in base.Keys + manifest.Keys && !(p in manifest && manifest[p].Deleted?) ::
      if p in manifest then Entry(manifest[p].blob, AnyExecuteBit(manifest[p].mode)) else base[p]
  }

  /** `git add -- paths`: the index takes the work-tree state of exactly these paths. */
  function AddPaths(repo: Repo, paths: set<Path>): Repo {
    var tree := AsTree(repo.files);
    repo.(index := map p | p in repo.index.Keys + tree.Keys && (if p in paths then p in tree else p in repo.index) ::
      if p in paths then tree[p] else repo.index[p])
  }

  /** The snapshot still describes the work tree, permission bits included. */
  predicate FilesMatch(files: map<Path, File>, manifest: Manifest) {
    forall p :: p in manifest ==>
      match manifest[p]
      case Deleted => p !in files
      case Present(blob, mode) => p in files && files[p] == File(blob, mode)
  }

  /** The checks of content and changed paths pin the tree down completely. */
  lemma MatchingTreeIsExact(base: Tree, tree: Tree, manifest: Manifest)
    ensures Changed(base, tree) == manifest.Keys && EntriesMatch(tree, manifest)
       <==> tree == ApplyManifest(base, manifest)
            && forall p :: p in manifest ==> !SameAt(base, tree, p)
  {
  }

  /** A commit passes the publication check exactly when it is a single child of the
      base whose tree is the base with the manifest applied, every entry a real change. */
  lemma CommitMatchesIsExact(c: Commit, base: Commit, manifest: Manifest)
    requires manifest != map[]
    ensures CommitMatches(c, base, manifest)
       <==> c.parents == [base]
            && c.tree == ApplyManifest(base.tree, manifest)
            && forall p :: p in manifest ==> !SameAt(base.tree, c.tree, p)
  {
  }

  /** Paths reported by the workspace scope census: unstaged, untracked and staged changes. */
  function Observed(repo: Repo): set<Path> {
    Changed(repo.index, AsTree(repo.files)) + Changed(repo.head.tree, repo.index)
  }

  /** Staging the manifest's paths from a work tree that still matches it gives an
      index that passes the staging check, and leaves the census as it was. */
  lemma StagingMatches(repo: Repo, manifest: Manifest, ignored: set<Path>)
    requires repo.index == repo.head.tree
    requires FilesMatch(repo.files, manifest)
    requires Observed(repo) - ignored == manifest.Keys
    ensures var staged := AddPaths(repo, manifest.Keys);
            StagedMatches(staged, manifest) && Observed(staged) - ignored == manifest.Keys
  {
  }
}
