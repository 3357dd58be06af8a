/**
 The git facts custody recovery relies on: commits and ancestry, the three-way
 merge behind the containment proof, and the two-tree checkout that refuses to
 overwrite uncommitted work.

 A commit is content-addressed, so it is a value: equal identity means equal
 parents and equal tree, and the history graph is acyclic because a value
 cannot contain itself.
 */
module Git {
  import opened Options

  type Tree = map<string, string>

  datatype Commit = Commit(stamp: nat, parents: seq<Commit>, tree: Tree)

  function At(tree: Tree, path: string): Option<string> {
    if path in tree then Some(tree[path]) else None
  }

  // ---- Ancestry -----------------------------------------------------------

  /** target is from itself or one of its ancestors. */
  predicate Reaches(from: Commit, target: Commit)
    decreases from
  {
    from == target || exists i | 0 <= i < |from.parents| :: Reaches(from.parents[i], target)
  }

  lemma {:induction false} ReachesTransitive(a: Commit, b: Commit, c: Commit)
    requires Reaches(a, b) && Reaches(b, c)
    ensures Reaches(a, c)
    decreases a
  {
    if a != b {
      var i :| 0 <= i < |a.parents| && Reaches(a.parents[i], b);
      ReachesTransitive(a.parents[i], b, c);
    }
  }

  /** The longest chain of parents below a commit. */
  function Height(c: Commit): nat
    decreases c
  {
    1 + MaxHeight(c, |c.parents|)
  }

  function MaxHeight(c: Commit, n: nat): nat
    requires n <= |c.parents|
    decreases c, n
  {
    if n == 0 then 0
    else
      var h, rest := Height(c.parents[n - 1]), MaxHeight(c, n - 1);
      if h > rest then h else rest
  }

  lemma {:induction false} ParentIsLower(c: Commit, n: nat, i: nat)
    requires i < n <= |c.parents|
    ensures Height(c.parents[i]) <= MaxHeight(c, n)
    decreases n
  {
    if i < n - 1 { ParentIsLower(c, n - 1, i); }
  }

  lemma {:induction false} AncestorIsLower(a: Commit, b: Commit)
    requires Reaches(a, b) && a != b
    ensures Height(b) < Height(a)
    decreases a
  {
    var i :| 0 <= i < |a.parents| && Reaches(a.parents[i], b);
    ParentIsLower(a, |a.parents|, i);
    if a.parents[i] != b { AncestorIsLower(a.parents[i], b); }
  }

  /** History is acyclic: two commits cannot be proper ancestors of each other. */
  lemma ReachesAntisymmetric(a: Commit, b: Commit)
    requires Reaches(a, b) && Reaches(b, a)
    ensures a == b
  {
    if a != b {
      AncestorIsLower(a, b);
      AncestorIsLower(b, a);
    }
  }

  /** Everything a fetch of one commit brings along. */
  function History(c: Commit): set<Commit>
    decreases c
  {
    {c} + set i, x | 0 <= i < |c.parents| && x in History(c.parents[i]) :: x
  }

  lemma {:induction false} HistoryIsReach(c: Commit, x: Commit)
    ensures x in History(c) <==> Reaches(c, x)
    decreases c
  {
    forall i | 0 <= i < |c.parents| ensures x in History(c.parents[i]) <==> Reaches(c.parents[i], x) {
      HistoryIsReach(c.parents[i], x);
    }
  }

  // ---- The containment proof ----------------------------------------------

  datatype Pick = Take(content: Option<string>) | Conflict

  /** One path of a three-way merge. */
  function PickPath(base: Option<string>, ours: Option<string>, theirs: Option<string>): Pick {
    if ours == theirs then Take(ours)
    else if theirs == base then Take(ours)
    else if ours == base then Take(theirs)
    else Conflict
  }

  function PickAt(base: Tree, ours: Tree, theirs: Tree, path: string): Pick {
    PickPath(At(base, path), At(ours, path), At(theirs, path))
  }

  datatype Merge = Merged(tree: Tree) | Conflicted(paths: set<string>)

  function MergeTrees(base: Tree, ours: Tree, theirs: Tree): Merge {
    var paths := base.Keys + ours.Keys + theirs.Keys;
    var conflicts := set p | p in paths && PickAt(base, ours, theirs, p).Conflict?;
    if conflicts != {} then Conflicted(conflicts)
    else Merged(map p | p in paths && PickAt(base, ours, theirs, p).Take? && PickAt(base, ours, theirs, p).content.Some?
                  :: PickAt(base, ours, theirs, p).content.value)
  }

  datatype Verdict = Passed | Failed | Undetermined

  /** Merge the local head into the pushed head and compare with the pushed tree.
      Without a merge base the merge cannot run and nothing is established. */
  function ContainmentProof(base: Option<Commit>, local: Commit, pushed: Commit): (Verdict, set<string>) {
    match base
    case None => (Undetermined, {})
    case Some(b) =>
      match MergeTrees(b.tree, pushed.tree, local.tree)
      case Conflicted(paths) => (Failed, paths)
      case Merged(tree) => (if tree == pushed.tree then Passed else Failed, {})
  }

  /** Every path local changed since base has local's content in target. */
  ghost predicate Carries(base: Tree, local: Tree, target: Tree) {
    forall path: string :: At(local, path) != At(base, path) ==> At(local, path) == At(target, path)
  }

  lemma MergedAt(base: Tree, ours: Tree, theirs: Tree, path: string)
    ensures match MergeTrees(base, ours, theirs)
            case Conflicted(paths) => path in paths <==> PickAt(base, ours, theirs, path).Conflict?
            case Merged(tree) => PickAt(base, ours, theirs, path) == Take(At(tree, path))
  {
    var paths := base.Keys + ours.Keys + theirs.Keys;
    if path !in paths {
      assert At(base, path) == At(ours, path) == At(theirs, path) == None;
    } else {
      var conflicts := set p | p in paths && PickAt(base, ours, theirs, p).Conflict?;
      assert path in conflicts <==> PickAt(base, ours, theirs, path).Conflict?;
    }
  }

  /** The proof means exactly what it is used for, whatever the three trees are. */
  lemma ContainmentExact(base: Commit, local: Commit, pushed: Commit)
    ensures ContainmentProof(Some(base), local, pushed).0 == Passed <==> Carries(base.tree, local.tree, pushed.tree)
    ensures ContainmentProof(Some(base), local, pushed).0 != Undetermined
    ensures ContainmentProof(Some(base), local, pushed).0 == Passed ==>
      ContainmentProof(Some(base), local, pushed).1 == {}
  {
    var b, l, t := base.tree, local.tree, pushed.tree;
    var merge := MergeTrees(b, t, l);
    if Carries(b, l, t) {
      forall p ensures PickAt(b, t, l, p) == Take(At(t, p)) {
        assert At(l, p) != At(b, p) ==> At(l, p) == At(t, p);
      }
      assert merge.Merged?;
      forall p: string ensures At(merge.tree, p) == At(t, p) { MergedAt(b, t, l, p); }
      SameTree(merge.tree, t);
    }
    if ContainmentProof(Some(base), local, pushed).0 == Passed {
      forall p: string | At(l, p) != At(b, p) ensures At(l, p) == At(t, p) {
        MergedAt(b, t, l, p);
      }
    }
  }

  lemma SameTree(a: Tree, b: Tree)
    requires forall p: string :: At(a, p) == At(b, p)
    ensures a == b
  {
    forall p ensures p in a <==> p in b { assert At(a, p) == At(b, p); }
    forall p | p in a ensures a[p] == b[p] { assert At(a, p) == At(b, p); }
  }

  // ---- Two-tree checkout (read-tree -m -u) ---------------------------------

  datatype PathMove = Keep | Write(content: Option<string>) | Refuse

  /** One path of `read-tree -m -u from to`: head is from's content, next is to's. */
  function MovePath(head: Option<string>, next: Option<string>, index: Option<string>, file: Option<string>): PathMove {
    if head == next || index == next then Keep
    else if index == head && file == index then Write(next)
    else Refuse
  }

  function MoveAt(from: Tree, to: Tree, index: Tree, files: Tree, path: string): PathMove {
    MovePath(At(from, path), At(to, path), At(index, path), At(files, path))
  }

  predicate CheckoutAllowed(from: Tree, to: Tree, index: Tree, files: Tree) {
    forall p | p in from.Keys + to.Keys :: !MoveAt(from, to, index, files, p).Refuse?
  }

  function NextAt(current: Tree, from: Tree, to: Tree, index: Tree, files: Tree, path: string): Option<string> {
    match MoveAt(from, to, index, files, path)
    case Write(content) => content
    case _ => At(current, path)
  }

  /** The index or the files (current) after the checkout. */
  function CheckedOut(current: Tree, from: Tree, to: Tree, index: Tree, files: Tree): Tree {
    map p | p in current.Keys + to.Keys && NextAt(current, from, to, index, files, p).Some?
      :: NextAt(current, from, to, index, files, p).value
  }

  lemma CheckedOutAt(current: Tree, from: Tree, to: Tree, index: Tree, files: Tree, path: string)
    ensures At(CheckedOut(current, from, to, index, files), path) == NextAt(current, from, to, index, files, path)
  {
    if path !in current.Keys + to.Keys {
      assert At(current, path) == At(to, path) == None;
    }
  }

  /** From a clean tree the checkout is never refused and lands exactly on the target. */
  lemma CleanCheckout(from: Tree, to: Tree)
    ensures CheckoutAllowed(from, to, from, from)
    ensures CheckedOut(from, from, to, from, from) == to
  {
    forall p: string ensures At(CheckedOut(from, from, to, from, from), p) == At(to, p) {
      CheckedOutAt(from, from, to, from, from, p);
    }
    SameTree(CheckedOut(from, from, to, from, from), to);
  }

  /** A file the checkout changes held exactly the content of the commit being left. */
  lemma CheckoutOverwritesOnlyCommitted(from: Tree, to: Tree, index: Tree, files: Tree, path: string)
    requires At(CheckedOut(files, from, to, index, files), path) != At(files, path)
    ensures At(files, path) == At(index, path) == At(from, path)
    ensures At(CheckedOut(files, from, to, index, files), path) == At(to, path)
  {
    CheckedOutAt(files, from, to, index, files, path);
  }
}
