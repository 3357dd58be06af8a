/** Refs and object stores of one repository. */
module Refs {
  import opened Options
  import opened Git

  datatype Ref =
    | Branch(name: string)
    | Recover(run: string)
    | RecoverLocal(run: string)
    | RecoverGate(run: string)
    | Rewritten(run: string, generation: nat)
    | CustodyReturn(run: string)
    | SyncMirror(run: string)

  /** Anchors are created once and name one commit forever. */
  predicate IsAnchor(r: Ref) { r.Recover? || r.RecoverLocal? || r.RecoverGate? || r.Rewritten? }

  /** Refs that keep commits. The custody-return staging ref and the sync mirror
      are scratch copies of a commit some other ref or the remote holds. */
  predicate Durable(r: Ref) { r.Branch? || IsAnchor(r) }

  datatype Repo = Repo(refs: map<Ref, Commit>, objects: set<Commit>)

  function Get(refs: map<Ref, Commit>, r: Ref): Option<Commit> {
    if r in refs then Some(refs[r]) else None
  }

  /** `merge-base --is-ancestor`: an object the repository lacks is never an ancestor. */
  predicate IsAncestor(repo: Repo, ancestor: Commit, descendant: Commit) {
    ancestor in repo.objects && descendant in repo.objects && Reaches(descendant, ancestor)
  }

  ghost predicate Closed(objects: set<Commit>) {
    forall c, x | c in objects && Reaches(c, x) :: x in objects
  }

  ghost predicate SoundRepo(repo: Repo) {
    Closed(repo.objects) && forall r | r in repo.refs :: repo.refs[r] in repo.objects
  }

  ghost predicate KeptIn(refs: map<Ref, Commit>, c: Commit) {
    exists r | r in refs :: Durable(r) && Reaches(refs[r], c)
  }

  lemma ImportClosed(objects: set<Commit>, c: Commit)
    requires Closed(objects)
    ensures Closed(objects + History(c)) && c in objects + History(c)
  {
    HistoryIsReach(c, c);
    forall d, x | d in objects + History(c) && Reaches(d, x) ensures x in objects + History(c) {
      if d in History(c) {
        HistoryIsReach(c, d);
        ReachesTransitive(c, d, x);
        HistoryIsReach(c, x);
      }
    }
  }

  /** Nothing is lost when every durable ref stays or moves to a descendant. */
  lemma ForwardKeeps(before: map<Ref, Commit>, after: map<Ref, Commit>, c: Commit)
    requires forall r | r in before && Durable(r) :: r in after && Reaches(after[r], before[r])
    requires KeptIn(before, c)
    ensures KeptIn(after, c)
  {
    var r :| r in before && Durable(r) && Reaches(before[r], c);
    ReachesTransitive(after[r], before[r], c);
  }

  /** Nothing is lost when one branch moves and its old head is anchored. */
  lemma AnchoredMoveKeeps(before: map<Ref, Commit>, after: map<Ref, Commit>, moved: Ref, anchor: Ref, c: Commit)
    requires moved in before && anchor != moved && Durable(anchor)
    requires anchor in after && after[anchor] == before[moved]
    requires forall r | r in before && Durable(r) && r != moved :: r in after && after[r] == before[r]
    requires KeptIn(before, c)
    ensures KeptIn(after, c)
  {
    var r :| r in before && Durable(r) && Reaches(before[r], c);
    if r == moved { assert Reaches(after[anchor], c); } else { assert Reaches(after[r], c); }
  }
}
