/**
 The three parties custody moves between - the worktree repository, the bare
 gate repository and the run table - together with every atomic step the
 recovery code can take on them, every step a user or another process can take
 in between, and what a step must never do.
 */
module World {
  import opened Options
  import opened Git
  import opened Refs
  import opened Runs

  datatype Head = On(branch: string) | Detached(at: Commit)

  datatype Worktree = Worktree(repo: Repo, head: Head, index: Tree, files: Tree, busy: bool)

  datatype Archive = Archive(
    id: nat, owner: string, repo: string, run: string, branch: string,
    required: Commit, preserved: Commit, archiveBranch: string)

  /** remote is the configured push target: the head each of its branches names. */
  datatype State = State(work: Worktree, gate: Repo, runs: seq<Run>, archives: seq<Archive>, remote: map<string,
                         Commit>)

  function HeadSha(w: Worktree): Option<Commit> {
    match w.head
    case On(branch) => Get(w.repo.refs, Branch(branch))
    case Detached(at) => Some(at)
  }

  function CurrentBranch(w: Worktree): Option<string> {
    match w.head
    case On(branch) => Some(branch)
    case Detached(_) => None
  }

  /** No operation in progress and nothing staged, modified or untracked. */
  predicate Clean(w: Worktree) {
    !w.busy && HeadSha(w).Some? && w.index == HeadSha(w).value.tree && w.files == HeadSha(w).value.tree
  }

  ghost predicate DistinctIds(runs: seq<Run>) {
    forall i, j | 0 <= i < j < |runs| :: runs[i].id != runs[j].id
  }

  function FindRun(runs: seq<Run>, id: string): (r: Option<Run>)
    ensures r.Some? ==> r.value.id == id
  {
    if runs == [] then None else if runs[0].id == id then Some(runs[0]) else FindRun(runs[1..], id)
  }

  lemma {:induction false} FindsRow(runs: seq<Run>, i: nat)
    requires DistinctIds(runs) && i < |runs|
    ensures FindRun(runs, runs[i].id) == Some(runs[i])
  {
    if i > 0 {
      assert runs[0].id != runs[i].id;
      assert DistinctIds(runs[1..]) by {
        forall j, k | 0 <= j < k < |runs[1..]| ensures runs[1..][j].id != runs[1..][k].id {
          assert runs[j + 1].id != runs[k + 1].id;
        }
      }
      FindsRow(runs[1..], i - 1);
    }
  }

  ghost predicate Sound(s: State) {
    SoundRepo(s.work.repo) && SoundRepo(s.gate) &&
    (s.work.head.Detached? ==> s.work.head.at in s.work.repo.objects) &&
    DistinctIds(s.runs)
  }

  // ---- Steps of the recovery code ---------------------------------------------

  datatype Side = InWork | InGate

  /** What a move of a worktree branch rests on: the proof that the new head carries the work of the one it
      leaves, made directly or through the head reviewed for a run; or that it takes an earlier move back. */
  datatype Warrant = Carrying(run: string, reviewed: Option<Commit>) | Undoing

  datatype Step =
    | CreateAnchor(side: Side, anchor: Ref, target: Commit)
    | Fetch(side: Side, target: Commit)
    | Stage(run: string, target: Commit)
    | Unstage(run: string)
    | CasWork(branch: string, next: Commit, was: Commit, why: Warrant)
    | CasGate(branch: string, next: Commit, expected: Option<Commit>)
    | RestoreGate(branch: string, next: Commit, was: Commit)
    | ReadTree(from: Commit, to: Commit)
    | FastForward(to: Commit, run: string)
    | StampCustody(ids: seq<string>)
    | StampHead(id: string, status: Status, head: Commit)
    | StampRewrite(id: string, status: Status, recorded: Commit, head: Commit)
    | Mirror(run: string, target: Commit)
    | Import(target: Commit)
    | Rebind(id: string, bind: Rebinding)

  /** The guard and the new value of a push-binding compare-and-swap. */
  datatype Rebinding = Rebinding(status: Status, pushed: Commit, generation: nat, head: Commit, custody: bool,
                                 target: Target, live: Commit)

  function RepoOf(s: State, side: Side): Repo {
    match side
    case InWork => s.work.repo
    case InGate => s.gate
  }

  function WithRepo(s: State, side: Side, repo: Repo): State {
    match side
    case InWork => s.(work := s.work.(repo := repo))
    case InGate => s.(gate := repo)
  }

  function GivenBack(ids: seq<string>, r: Run): Run {
    if r.id in ids then r.(custody := true) else r
  }

  function HeadStamped(id: string, status: Status, head: Commit, r: Run): Run {
    if r.id == id then r.(status := status, head := head, pushActive := false, verified := true) else r
  }

  predicate RewriteMatches(id: string, status: Status, recorded: Commit, r: Run) {
    r.id == id && r.status == status && r.head == recorded && r.reviewApproved == Some(recorded) && !r.verified &&
    !r.custody
  }

  function RewriteStamped(id: string, status: Status, recorded: Commit, head: Commit, r: Run): Run {
    if RewriteMatches(id, status, recorded, r) then r.(head := head, pushActive := false, verified := true) else r
  }

  function GenerationOf(r: Run): nat { if r.generation.Some? then r.generation.value else 0 }

  /** The WHERE clause of the rebind update, read against the whole table. */
  predicate RebindMatches(runs: seq<Run>, id: string, b: Rebinding, r: Run) {
    r.id == id && r.status == b.status && r.pushed == Some(b.pushed) && GenerationOf(r) == b.generation &&
    r.head == b.head && r.custody == b.custody &&
    r.targetKind == Some(b.target.kind) && r.fingerprint == Some(b.target.fingerprint) && r.pushRef == Some(r.branch) &&
    !r.pushActive && !r.retiredPR &&
    forall i | 0 <= i < |runs| :: runs[i].branch == r.branch && runs[i].id != r.id ==> Terminal(runs[i].status)
  }

  function Rebound(runs: seq<Run>, id: string, b: Rebinding, r: Run): Run {
    if RebindMatches(runs, id, b, r) then
      r.(head := if Some(r.head) == r.pushed then b.live else r.head,
         pushed := Some(b.live),
         generation := Some(GenerationOf(r) + 1))
    else r
  }

  function ReturnRuns(runs: seq<Run>, ids: seq<string>): (r: seq<Run>)
    ensures |r| == |runs| && forall i | 0 <= i < |runs| :: r[i] == GivenBack(ids, runs[i])
  { seq(|runs|, i requires 0 <= i < |runs| => GivenBack(ids, runs[i])) }

  function StampRuns(runs: seq<Run>, id: string, status: Status, head: Commit): (r: seq<Run>)
    ensures |r| == |runs| && forall i | 0 <= i < |runs| :: r[i] == HeadStamped(id, status, head, runs[i])
  { seq(|runs|, i requires 0 <= i < |runs| => HeadStamped(id, status, head, runs[i])) }

  function RewriteRuns(runs: seq<Run>, id: string, status: Status, recorded: Commit, head: Commit): (r: seq<Run>)
    ensures |r| == |runs| && forall i | 0 <= i < |runs| :: r[i] == RewriteStamped(id, status, recorded, head, runs[i])
  { seq(|runs|, i requires 0 <= i < |runs| => RewriteStamped(id, status, recorded, head, runs[i])) }

  function RebindRuns(runs: seq<Run>, id: string, b: Rebinding): (r: seq<Run>)
    ensures |r| == |runs| && forall i | 0 <= i < |runs| :: r[i] == Rebound(runs, id, b, runs[i])
  { seq(|runs|, i requires 0 <= i < |runs| => Rebound(runs, id, b, runs[i])) }

  /** Whether the step's own guard lets it happen. */
  predicate Happens(s: State, step: Step) {
    match step
    case CreateAnchor(side, anchor, target) =>
      anchor !in RepoOf(s, side).refs && target in RepoOf(s, side).objects
    case Fetch(side, target) => target in RepoOf(s, if side.InWork? then InGate else InWork).objects
    case Stage(_, target) => target in s.work.repo.objects
    case Unstage(_) => true
    case CasWork(branch, next, was, _) =>
      Get(s.work.repo.refs, Branch(branch)) == Some(was) && next in s.work.repo.objects
    case CasGate(branch, next, expected) => Get(s.gate.refs, Branch(branch)) == expected && next in s.gate.objects
    case RestoreGate(branch, next, was) => Get(s.gate.refs, Branch(branch)) == Some(was) && next in s.gate.objects
    case ReadTree(from, to) => CheckoutAllowed(from.tree, to.tree, s.work.index, s.work.files)
    case FastForward(to, _) =>
      HeadSha(s.work).Some? && to in s.work.repo.objects && Reaches(to, HeadSha(s.work).value) && !s.work.busy &&
      CheckoutAllowed(HeadSha(s.work).value.tree, to.tree, s.work.index, s.work.files)
    case StampCustody(_) => true
    case StampHead(_, _, _) => true
    case StampRewrite(id, status, recorded, _) =>
      exists i | 0 <= i < |s.runs| :: RewriteMatches(id, status, recorded, s.runs[i])
    case Mirror(_, target) => target in s.remote.Values
    case Import(target) => target in s.remote.Values
    case Rebind(id, b) => exists i | 0 <= i < |s.runs| :: RebindMatches(s.runs, id, b, s.runs[i])
  }

  function Apply(s: State, step: Step): State {
    if !Happens(s, step) then s else
    match step
    case CreateAnchor(side, anchor, target) =>
      var repo := RepoOf(s, side);
      WithRepo(s, side, repo.(refs := repo.refs[anchor := target]))
    case Fetch(side, target) =>
      var repo := RepoOf(s, side);
      WithRepo(s, side, repo.(objects := repo.objects + History(target)))
    case Stage(run, target) =>
      s.(gate := Repo(s.gate.refs[CustodyReturn(run) := target], s.gate.objects + History(target)))
    case Unstage(run) =>
      s.(gate := s.gate.(refs := s.gate.refs - {CustodyReturn(run)}))
    case CasWork(branch, next, _, _) =>
      WithRepo(s, InWork, s.work.repo.(refs := s.work.repo.refs[Branch(branch) := next]))
    case CasGate(branch, next, _) =>
      WithRepo(s, InGate, s.gate.(refs := s.gate.refs[Branch(branch) := next]))
    case RestoreGate(branch, next, _) =>
      WithRepo(s, InGate, s.gate.(refs := s.gate.refs[Branch(branch) := next]))
    case ReadTree(from, to) => s.(work := SwitchTree(s.work, from.tree, to.tree))
    case FastForward(to, _) =>
      var moved := SwitchTree(s.work, HeadSha(s.work).value.tree, to.tree);
      (match s.work.head
       case On(branch) => s.(work := moved.(repo := s.work.repo.(refs := s.work.repo.refs[Branch(branch) := to])))
       case Detached(_) => s.(work := moved.(head := Detached(to))))
    case StampCustody(ids) => s.(runs := ReturnRuns(s.runs, ids))
    case StampHead(id, status, head) => s.(runs := StampRuns(s.runs, id, status, head))
    case StampRewrite(id, status, recorded, head) =>
      s.(runs := RewriteRuns(s.runs, id, status, recorded, head))
    case Mirror(run, target) =>
      WithRepo(s, InWork, Repo(s.work.repo.refs[SyncMirror(run) := target], s.work.repo.objects + History(target)))
    case Import(target) => s.(gate := s.gate.(objects := s.gate.objects + History(target)))
    case Rebind(id, b) => s.(runs := RebindRuns(s.runs, id, b))
  }

  function SwitchTree(w: Worktree, from: Tree, to: Tree): Worktree {
    w.(index := CheckedOut(w.index, from, to, w.index, w.files),
       files := CheckedOut(w.files, from, to, w.index, w.files))
  }

  // ---- Steps of everyone else ---------------------------------------------------

  /** What a user or another process may do between two commands. Branches, HEAD,
      the index, files and run rows are free; an anchor can only be created. */
  datatype Action =
    | WriteWork(branch: string, target: Commit)
    | DropWork(branch: string)
    | WriteGate(branch: string, target: Commit)
    | DropGate(branch: string)
    | Disturb(head: Head, index: Tree, files: Tree, busy: bool)
    | Learn(side: Side, target: Commit)
    | Anchor(side: Side, anchor: Ref, target: Commit)
    | MoveMirror(run: string, target: Commit)
    | MoveRemote(remote: map<string, Commit>)
    | WriteRuns(runs: seq<Run>)

  function Act(s: State, a: Action): State {
    match a
    case WriteWork(branch, target) =>
      WithRepo(s, InWork, Repo(s.work.repo.refs[Branch(branch) := target], s.work.repo.objects + History(target)))
    case DropWork(branch) => WithRepo(s, InWork, s.work.repo.(refs := s.work.repo.refs - {Branch(branch)}))
    case WriteGate(branch, target) =>
      WithRepo(s, InGate, Repo(s.gate.refs[Branch(branch) := target], s.gate.objects + History(target)))
    case DropGate(branch) => WithRepo(s, InGate, s.gate.(refs := s.gate.refs - {Branch(branch)}))
    case Disturb(head, index, files, busy) =>
      var objects := if head.Detached? then s.work.repo.objects + History(head.at) else s.work.repo.objects;
      s.(work := Worktree(s.work.repo.(objects := objects), head, index, files, busy))
    case Learn(side, target) =>
      var repo := RepoOf(s, side);
      WithRepo(s, side, repo.(objects := repo.objects + History(target)))
    case Anchor(side, anchor, target) =>
      if IsAnchor(anchor) then Apply(s, CreateAnchor(side, anchor, target)) else s
    case MoveMirror(run, target) => Apply(s, Mirror(run, target))
    case MoveRemote(remote) => s.(remote := remote)
    case WriteRuns(runs) =>
      if forall i, j | 0 <= i < j < |runs| :: runs[i].id != runs[j].id then s.(runs := runs) else s
  }

  // ---- What holds of any step -----------------------------------------------------

  /** Objects only accumulate, and an anchor that exists is never moved or removed. */
  ghost predicate Grows(s: State, t: State) {
    s.work.repo.objects <= t.work.repo.objects && s.gate.objects <= t.gate.objects &&
    (forall r | r in s.work.repo.refs && IsAnchor(r) ::
       r in t.work.repo.refs && t.work.repo.refs[r] == s.work.repo.refs[r]) &&
    (forall r | r in s.gate.refs && IsAnchor(r) :: r in t.gate.refs && t.gate.refs[r] == s.gate.refs[r])
  }

  lemma GrowsTransitive(s: State, t: State, u: State)
    requires Grows(s, t) && Grows(t, u)
    ensures Grows(s, u)
  {}

  predicate WellFormedStep(step: Step) { step.CreateAnchor? ==> IsAnchor(step.anchor) }

  lemma StepGrows(s: State, step: Step)
    requires WellFormedStep(step)
    ensures Grows(s, Apply(s, step))
  {
    hide Reaches, History, RewriteMatches, RebindMatches, CheckoutAllowed;
  }

  lemma StepKeepsTable(s: State, step: Step)
    requires DistinctIds(s.runs)
    ensures DistinctIds(Apply(s, step).runs) && Apply(s, step).archives == s.archives
  {}

  lemma StepKeepsGate(s: State, step: Step)
    requires SoundRepo(s.gate) && SoundRepo(s.work.repo)
    ensures SoundRepo(Apply(s, step).gate)
  {
    match step {
      case Fetch(_, target) => ImportClosed(s.gate.objects, target);
      case Stage(_, target) => ImportClosed(s.gate.objects, target);
      case Import(target) => ImportClosed(s.gate.objects, target);
      case _ =>
    }
  }

  lemma StepKeepsWork(s: State, step: Step)
    requires SoundRepo(s.work.repo) && (s.work.head.Detached? ==> s.work.head.at in s.work.repo.objects)
    ensures SoundRepo(Apply(s, step).work.repo)
    ensures Apply(s, step).work.head.Detached? ==> Apply(s, step).work.head.at in Apply(s, step).work.repo.objects
  {
    hide Reaches, History, RewriteMatches, RebindMatches, CheckoutAllowed;
    match step {
      case Fetch(_, target) => ImportClosed(s.work.repo.objects, target);
      case Mirror(_, target) => ImportClosed(s.work.repo.objects, target);
      case _ =>
    }
  }

  lemma StepIsSound(s: State, step: Step)
    requires Sound(s) && WellFormedStep(step)
    ensures Sound(Apply(s, step)) && Grows(s, Apply(s, step)) && Apply(s, step).archives == s.archives
  {
    hide Apply, SoundRepo, Grows, DistinctIds;
    StepGrows(s, step);
    StepKeepsTable(s, step);
    StepKeepsGate(s, step);
    StepKeepsWork(s, step);
  }

  lemma ActionIsSound(s: State, a: Action)
    requires Sound(s)
    ensures Sound(Act(s, a)) && Grows(s, Act(s, a)) && Act(s, a).archives == s.archives
  {
    match a {
      case WriteWork(_, target) => ImportClosed(s.work.repo.objects, target);
      case WriteGate(_, target) => ImportClosed(s.gate.objects, target);
      case Disturb(head, _, _, _) => if head.Detached? { ImportClosed(s.work.repo.objects, head.at); }
      case Learn(side, target) => ImportClosed(RepoOf(s, side).objects, target);
      case Anchor(side, anchor, target) => if IsAnchor(anchor) { StepIsSound(s, CreateAnchor(side, anchor, target)); }
      case MoveMirror(run, target) => StepIsSound(s, Mirror(run, target));
      case _ =>
    }
  }

  // ---- What a program step must never do --------------------------------------------

  /** c is reachable from a durable ref of either repository, or from a detached HEAD. */
  ghost predicate Kept(s: State, c: Commit) {
    KeptIn(s.work.repo.refs, c) || KeptIn(s.gate.refs, c) ||
    (s.work.head.Detached? && Reaches(s.work.head.at, c))
  }

  /** What a path held is the content of a commit that is still kept. */
  ghost predicate Recoverable(t: State, p: string, content: Option<string>) {
    exists c: Commit :: Kept(t, c) && At(c.tree, p) == content
  }

  /** A changed file was unmodified, and what a changed file or index entry held is still kept in a commit. */
  ghost predicate EditsSafe(s: State, t: State) {
    (forall p: string :: At(t.work.files, p) != At(s.work.files, p) ==>
      At(s.work.files, p) == At(s.work.index, p) && Recoverable(t, p, At(s.work.files, p))) &&
    forall p: string :: At(t.work.index, p) != At(s.work.index, p) ==> Recoverable(t, p, At(s.work.index, p))
  }

  ghost predicate SafeStep(s: State, t: State) {
    (forall c: Commit :: Kept(s, c) ==> Kept(t, c)) && EditsSafe(s, t)
  }

  /** Steps that leave HEAD, every worktree branch, the index and the files alone. */
  predicate SparesWorktree(step: Step) { !step.CasWork? && !step.ReadTree? && !step.FastForward? }

  ghost predicate SameWorktree(s: State, t: State) {
    t.work.head == s.work.head && t.work.index == s.work.index && t.work.files == s.work.files &&
    t.work.busy == s.work.busy &&
    forall b: string :: Get(t.work.repo.refs, Branch(b)) == Get(s.work.repo.refs, Branch(b))
  }

  lemma SparingStepKeepsWorktree(s: State, step: Step)
    requires WellFormedStep(step) && SparesWorktree(step)
    ensures SameWorktree(s, Apply(s, step))
  {}

  /** Steps that add anchors, objects, scratch refs or table rows keep everything. */
  lemma AdditiveStepIsSafe(s: State, step: Step)
    requires WellFormedStep(step) && SparesWorktree(step) && !step.CasGate? && !step.RestoreGate?
    ensures SafeStep(s, Apply(s, step))
  {
    var t := Apply(s, step);
    forall c | Kept(s, c) ensures Kept(t, c) {
      if KeptIn(s.work.repo.refs, c) { ForwardKeeps(s.work.repo.refs, t.work.repo.refs, c); }
      if KeptIn(s.gate.refs, c) { ForwardKeeps(s.gate.refs, t.gate.refs, c); }
    }
  }

  /** The branch swap loses nothing once the old head is anchored beside it. */
  lemma AnchoredCasWorkIsSafe(s: State, branch: string, next: Commit, was: Commit, why: Warrant, anchor: Ref)
    requires IsAnchor(anchor) && Get(s.work.repo.refs, anchor) == Some(was)
    ensures SafeStep(s, Apply(s, CasWork(branch, next, was, why)))
  {
    var t := Apply(s, CasWork(branch, next, was, why));
    if Happens(s, CasWork(branch, next, was, why)) {
      forall c | Kept(s, c) ensures Kept(t, c) {
        if KeptIn(s.work.repo.refs, c) {
          AnchoredMoveKeeps(s.work.repo.refs, t.work.repo.refs, Branch(branch), anchor, c);
        }
      }
    }
  }

  /** The gate swap loses nothing once the old head is anchored in the gate or was absent. */
  lemma AnchoredCasGateIsSafe(s: State, branch: string, next: Commit, expected: Option<Commit>, anchor: Ref)
    requires expected.Some? ==> IsAnchor(anchor) && Get(s.gate.refs, anchor) == expected
    ensures SafeStep(s, Apply(s, CasGate(branch, next, expected)))
  {
    var t := Apply(s, CasGate(branch, next, expected));
    if Happens(s, CasGate(branch, next, expected)) {
      forall c | Kept(s, c) ensures Kept(t, c) {
        if KeptIn(s.gate.refs, c) {
          if expected.Some? {
            AnchoredMoveKeeps(s.gate.refs, t.gate.refs, Branch(branch), anchor, c);
          } else {
            ForwardKeeps(s.gate.refs, t.gate.refs, c);
          }
        }
      }
    }
  }

  /** Something other than this gate branch keeps c: a worktree ref, another durable gate ref, or a detached HEAD. */
  ghost predicate KeptElsewhere(s: State, branch: string, c: Commit) {
    KeptIn(s.work.repo.refs, c) || (s.work.head.Detached? && Reaches(s.work.head.at, c)) ||
    exists r | r in s.gate.refs :: r != Branch(branch) && Durable(r) && Reaches(s.gate.refs[r], c)
  }

  /** Putting the gate back can drop the head it was moved to: it loses nothing exactly when, beforehand, that head
      is kept elsewhere or lies below the head the branch goes back to. */
  lemma RestoreKeepsExactly(s: State, branch: string, next: Commit, was: Commit)
    requires Happens(s, RestoreGate(branch, next, was))
    ensures SafeStep(s, Apply(s, RestoreGate(branch, next, was))) <==>
      Reaches(next, was) || KeptElsewhere(s, branch, was)
    ensures Kept(Apply(s, RestoreGate(branch, next, was)), was) <==> Reaches(next, was) || KeptElsewhere(s, branch, was)
  {
    var t := Apply(s, RestoreGate(branch, next, was));
    RestoredKeeps(s, branch, next, was);
    assert Kept(s, was) by { assert Reaches(s.gate.refs[Branch(branch)], was); }
    if Kept(t, was) {
      forall c | Kept(s, c) ensures Kept(t, c) {
        if KeptIn(s.gate.refs, c) {
          var r :| r in s.gate.refs && Durable(r) && Reaches(s.gate.refs[r], c);
          if r == Branch(branch) { KeptDownward(t, was, c); } else { assert Reaches(t.gate.refs[r], c); }
        }
      }
    }
  }

  lemma RestoredKeeps(s: State, branch: string, next: Commit, was: Commit)
    requires Happens(s, RestoreGate(branch, next, was))
    ensures Kept(Apply(s, RestoreGate(branch, next, was)), was) <==> Reaches(next, was) || KeptElsewhere(s, branch, was)
  {
    var t := Apply(s, RestoreGate(branch, next, was));
    if Reaches(next, was) { assert Reaches(t.gate.refs[Branch(branch)], was); }
    if KeptElsewhere(s, branch, was) {
      if r :| r in s.gate.refs && r != Branch(branch) && Durable(r) && Reaches(s.gate.refs[r], was) {
        assert Reaches(t.gate.refs[r], was);
      }
    }
    if KeptIn(t.gate.refs, was) {
      var r :| r in t.gate.refs && Durable(r) && Reaches(t.gate.refs[r], was);
      if r != Branch(branch) { assert Reaches(s.gate.refs[r], was); }
    }
  }

  lemma KeptDownward(s: State, c: Commit, ancestor: Commit)
    requires Kept(s, c) && Reaches(c, ancestor)
    ensures Kept(s, ancestor)
  {
    if KeptIn(s.work.repo.refs, c) {
      var r :| r in s.work.repo.refs && Durable(r) && Reaches(s.work.repo.refs[r], c);
      ReachesTransitive(s.work.repo.refs[r], c, ancestor);
    } else if KeptIn(s.gate.refs, c) {
      var r :| r in s.gate.refs && Durable(r) && Reaches(s.gate.refs[r], c);
      ReachesTransitive(s.gate.refs[r], c, ancestor);
    } else {
      ReachesTransitive(s.work.head.at, c, ancestor);
    }
  }

  /** The two-tree switch overwrites neither a modified file nor a staged entry. */
  lemma SwitchSavesEdits(s: State, t: State, before: Commit, after: Commit)
    requires Kept(t, before)
    requires t.work.index == SwitchTree(s.work, before.tree, after.tree).index
    requires t.work.files == SwitchTree(s.work, before.tree, after.tree).files
    ensures EditsSafe(s, t)
  {
    hide Kept;
    forall p: string | At(t.work.files, p) != At(s.work.files, p)
      ensures At(s.work.files, p) == At(s.work.index, p) && Recoverable(t, p, At(s.work.files, p))
    {
      CheckoutOverwritesOnlyCommitted(before.tree, after.tree, s.work.index, s.work.files, p);
    }
    forall p: string | At(t.work.index, p) != At(s.work.index, p) ensures Recoverable(t, p, At(s.work.index, p)) {
      CheckedOutAt(s.work.index, before.tree, after.tree, s.work.index, s.work.files, p);
    }
  }

  lemma ReadTreeIsSafe(s: State, from: Commit, to: Commit)
    requires Kept(s, from)
    ensures SafeStep(s, Apply(s, ReadTree(from, to)))
  {
    var t := Apply(s, ReadTree(from, to));
    if Happens(s, ReadTree(from, to)) {
      assert Kept(t, from);
      SwitchSavesEdits(s, t, from, to);
    }
  }

  lemma FastForwardIsSafe(s: State, to: Commit, run: string)
    ensures SafeStep(s, Apply(s, FastForward(to, run)))
  {
    hide EditsSafe;
    var t := Apply(s, FastForward(to, run));
    if Happens(s, FastForward(to, run)) {
      var from := HeadSha(s.work).value;
      forall c | Kept(s, c) ensures Kept(t, c) {
        if KeptIn(s.work.repo.refs, c) { ForwardKeeps(s.work.repo.refs, t.work.repo.refs, c); }
        if s.work.head.Detached? && Reaches(s.work.head.at, c) { ReachesTransitive(to, from, c); }
      }
      assert Kept(t, from) by {
        if s.work.head.On? { assert Reaches(t.work.repo.refs[Branch(s.work.head.branch)], from); }
      }
      SwitchSavesEdits(s, t, from, to);
    } else {
      IdleIsSafe(s);
    }
  }

  lemma IdleIsSafe(s: State)
    ensures SafeStep(s, s)
  {}

  // ---- Interleaved histories -------------------------------------------------------

  datatype Move = ByProgram(step: Step) | ByOther(action: Action)

  function Next(s: State, m: Move): State {
    match m
    case ByProgram(step) => Apply(s, step)
    case ByOther(action) => Act(s, action)
  }

  function Play(start: State, moves: seq<Move>): State {
    if moves == [] then start else Next(Play(start, moves[..|moves| - 1]), moves[|moves| - 1])
  }

  /** Every program step of the history, wherever it fell, was safe. */
  ghost predicate SafeHistory(start: State, moves: seq<Move>) {
    forall k | 0 <= k < |moves| && moves[k].ByProgram? ::
      SafeStep(Play(start, moves[..k]), Play(start, moves[..k + 1]))
  }

  /** A commit kept at the start is kept at the end unless somebody else's move dropped it. */
  lemma {:induction false} OnlyOthersLoseCommits(start: State, moves: seq<Move>, c: Commit)
    requires SafeHistory(start, moves) && Kept(start, c)
    ensures Kept(Play(start, moves), c) ||
            exists k | 0 <= k < |moves| :: moves[k].ByOther? && Kept(Play(start, moves[..k]), c) &&
              !Kept(Play(start, moves[..k + 1]), c)
  {
    if moves != [] {
      var n := |moves| - 1;
      var before := moves[..n];
      assert moves[..n + 1] == moves;
      forall k | 0 <= k < |before| && before[k].ByProgram?
        ensures SafeStep(Play(start, before[..k]), Play(start, before[..k + 1]))
      {
        assert before[..k] == moves[..k] && before[..k + 1] == moves[..k + 1];
      }
      OnlyOthersLoseCommits(start, before, c);
      if Kept(Play(start, before), c) {
        if moves[n].ByProgram? { assert SafeStep(Play(start, moves[..n]), Play(start, moves[..n + 1])); }
      } else {
        var k :| 0 <= k < |before| && before[k].ByOther? && Kept(Play(start, before[..k]), c) &&
            !Kept(Play(start, before[..k + 1]), c);
        assert before[..k] == moves[..k] && before[..k + 1] == moves[..k + 1];
      }
    }
  }
}
