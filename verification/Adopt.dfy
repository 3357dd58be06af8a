/**
 The two paths that may move the worktree: the strict fast-forward and the
 anchored adoption of a head that already carries every local change. Both
 observe first, move with operations that carry their own guard, look again,
 and stamp custody last.
 */
module Adopt {
  import opened Options
  import opened Git
  import opened Refs
  import opened Runs
  import opened World
  import opened Classify
  import opened Machine

  datatype Outcome = Outcome(recovered: bool, code: Code, changed: bool)

  function Blocked(code: Code): Outcome { Outcome(false, code, false) }

  // ---- What a stamp rests on ---------------------------------------------------------

  /** HEAD was seen at target, then the tree was seen clean, and from the first look on the program only stamped. */
  ghost predicate Adopted(start: State, moves: seq<Move>, target: Commit) {
    exists i, j | 0 <= i <= j <= |moves| ::
      HeadSha(Play(start, moves[..i]).work) == Some(target) && Clean(Play(start, moves[..j]).work) &&
      OnlyStampsFrom(moves, i) &&
      LogOf(start, moves[..j]).stamps == 0
  }

  /** The gate branch was seen at the kept head before anything was stamped, and from then on the program only
      stamped. */
  ghost predicate ReadBack(start: State, moves: seq<Move>, branch: string, local: Commit) {
    exists i | 0 <= i <= |moves| ::
      Get(Play(start, moves[..i]).gate.refs, Branch(branch)) == Some(local) && OnlyStampsFrom(moves, i) &&
      LogOf(start, moves[..i]).stamps == 0
  }

  /** What one recovery is about: the run, the head preserved for it, and the local head it was called at. */
  datatype Goal = Goal(run: string, preserved: Commit, kept: Commit)

  /** A worktree branch may be moved to the preserved head only, for this run; the lane to the local head only. */
  predicate Targets(f: Landing, goal: Goal) {
    match f
    case WorkMoved(_, _, next, why) => next == goal.preserved && why.Carrying? && why.run == goal.run
    case LaneMoved(_, _, next) => next == goal.kept
    case LaneRestored(_, _, _) => false
  }

  /** The look a moved branch calls for; a lane moved on the strength of the run's bound archive is not read again. */
  ghost predicate Looked(start: State, moves: seq<Move>, f: Landing, goal: Goal) {
    match f
    case WorkMoved(_, _, next, _) => Adopted(start, moves, next)
    case LaneMoved(branch, _, next) => ReadBack(start, moves, branch, next) ||
      ArchivesOf(start.archives, goal.run) != []
    case LaneRestored(_, _, _) => false
  }

  /** The program moved one branch where the goal says, looked at it before stamping, and may have put it back if it
      did not stamp. */
  ghost predicate MovedOnce(start: State, moves: seq<Move>, before: seq<Landing>, after: seq<Landing>, goal: Goal,
                            stamped: bool)
  {
    exists f :: Forward(f) && Targets(f, goal) &&
      ((after == before + [f] && (stamped ==> Looked(start, moves, f, goal))) ||
       (!stamped && exists u :: Reverts(u, f) && after == before + [f, u]))
  }

  /** What one command may do to branches. */
  ghost predicate Landed(start: State, moves: seq<Move>, before: seq<Landing>, after: seq<Landing>, goal: Goal,
                         stamped: bool)
  {
    after == before || MovedOnce(start, moves, before, after, goal, stamped)
  }

  lemma LandedAtMostOnce(start: State, moves: seq<Move>, before: seq<Landing>, after: seq<Landing>, goal: Goal,
                         stamped: bool)
    requires Landed(start, moves, before, after, goal, stamped)
    ensures before <= after && AtMostOnce(after[|before|..])
    ensures forall f | f in after[|before|..] && Forward(f) :: Targets(f, goal)
  {
    hide Looked;
  }

  /** What adoption may leave in the branch: the head it found there, a value somebody else gave it, or the preserved
      head with the observed head anchored, which then was found there or put there by somebody else. */
  ghost predicate BranchLeft(s: State, written: set<(string, Option<Commit>)>, branch: string, found: Option<Commit>,
                             local: Commit, preserved: Commit, run: string)
  {
    var now := Get(s.work.repo.refs, Branch(branch));
    now == found || (branch, now) in written ||
    (now == Some(preserved) && Left(written, branch, found, local) &&
     Get(s.work.repo.refs, RecoverLocal(run)) == Some(local))
  }

  lemma BranchLeftAcross(s: State, before: set<(string, Option<Commit>)>, t: State,
                         after: set<(string, Option<Commit>)>, branch: string, found: Option<Commit>, local: Commit,
                         preserved: Commit, run: string)
    requires before <= after && Grows(s, t) && Held(s, t, after)
    requires BranchLeft(s, before, branch, found, local, preserved, run)
    ensures BranchLeft(t, after, branch, found, local, preserved, run)
  {}

  function Stamped(s: State, ids: seq<string>): State { s.(runs := ReturnRuns(s.runs, ids)) }

  /** finishRecover / finishKeepLocalRecover: stamp, then report the fresh truth. */
  method Finish(host: Host, ids: seq<string>, changed: bool) returns (o: Outcome)
    requires host.Valid()
    modifies host
    ensures host.Progress() && Grows(old(host.state), host.state) &&
            host.log.stamps == old(host.log.stamps) + if o.recovered then 1 else 0
    ensures host.log.landings == old(host.log.landings) && host.log.acts == old(host.log.acts)
    ensures host.Untouched()
    ensures o.changed == changed && o.code == if o.recovered then Ok else StampFailed
    ensures old(host.Alone()) ==> host.state == if o.recovered then Stamped(old(host.state), ids) else old(host.state)
    ensures old(host.Quiet()) ==> o.recovered && host.state == Stamped(old(host.state), ids)
  {
    hide LawfulHistory, Play, LogOf, Sound, SoundMergeBase, SafeStep;
    var ok := host.Tick();
    if !ok { return Outcome(false, StampFailed, changed); }
    AdditiveStepIsSafe(host.state, StampCustody(ids));
    host.Do(StampCustody(ids));
    var _ := host.Tick();
    o := Outcome(true, Ok, changed);
  }

  predicate Settled(w: Worktree, branch: string, local: Commit) {
    CurrentBranch(w) == Some(branch) && HeadSha(w) == Some(local) && Clean(w)
  }

  /** The observation both moves start from: three commands, any of which may find a change. */
  method StillAsObserved(host: Host, branch: string, local: Commit) returns (same: bool)
    requires host.Valid()
    modifies host
    ensures host.Progress() && Grows(old(host.state), host.state) && host.Steady()
    ensures host.Untouched()
    ensures old(host.Quiet()) ==> host.state == old(host.state) && (same <==> Settled(host.state.work, branch, local))
  {
    hide LawfulHistory, Play, LogOf, Sound, SoundMergeBase;
    var ok1 := host.Tick();
    var b := CurrentBranch(host.state.work);
    var ok2 := host.Tick();
    var head := HeadSha(host.state.work);
    var ok3 := host.Tick();
    var clean := Clean(host.state.work);
    same := ok1 && ok2 && ok3 && b == Some(branch) && head == Some(local) && clean;
  }

  /** HEAD is at the target and nothing is uncommitted. */
  predicate CleanAt(w: Worktree, target: Commit) { HeadSha(w) == Some(target) && Clean(w) }

  /** Look at HEAD, then at the tree, and stamp only when both are as intended. */
  method VerifyAndFinish(host: Host, run: string, target: Commit, changed: bool) returns (o: Outcome)
    requires host.Valid() && host.log.stamps == 0
    modifies host
    ensures host.Progress() && Grows(old(host.state), host.state) && host.log.stamps == if o.recovered then 1 else 0
    ensures host.log.landings == old(host.log.landings)
    ensures host.Untouched()
    ensures o.recovered ==> Adopted(host.start, host.moves, target)
    ensures o.recovered <==> o.code == Ok
    ensures old(host.Quiet()) ==>
      (o.recovered <==> CleanAt(old(host.state).work, target))
    ensures old(host.Quiet()) && o.recovered ==> CleanAt(host.state.work, target)
    ensures old(host.Quiet()) ==> host.state == if o.recovered then Stamped(old(host.state), [run]) else old(host.state)
  {
    hide LawfulHistory, Play, LogOf, Sound, SoundMergeBase;
    var ok := host.Tick();
    var head := HeadSha(host.state.work);
    ghost var i, early := |host.moves|, host.moves;
    assert host.moves[..i] == host.moves;
    var ok2 := host.Tick();
    var clean := Clean(host.state.work);
    ghost var j, late := |host.moves|, host.moves;
    assert host.moves[..j] == host.moves && late[..i] == early;
    if !ok || head != Some(target) { return Outcome(false, ApplyFailed, false); }
    if !ok2 || !clean { return Outcome(false, PostDirty, changed); }
    o := Finish(host, [run], changed);
    assert host.moves[..j] == late && host.moves[..i] == early;
    SameActsOnlyStamps(host.start, host.moves, i);
  }

  lemma ForwardFromSettled(s: State, run: string, branch: string, local: Commit, preserved: Commit)
    requires Settled(s.work, branch, local) && IsAncestor(s.work.repo, local, preserved)
    ensures Happens(s, FastForward(preserved, run))
    ensures CleanAt(Apply(s, FastForward(preserved, run)).work, preserved)
  {
    CleanCheckout(local.tree, preserved.tree);
  }

  /** One more landing: some worktree branch was moved forward to next. */
  ghost predicate MovedTo(before: seq<Landing>, after: seq<Landing>, next: Commit, run: string) {
    exists f :: Forward(f) && f.WorkMoved? && f.next == next && f.why.run == run && after == before + [f]
  }

  lemma ForwardLands(s: State, preserved: Commit, run: string, before: seq<Landing>)
    ensures var l := LandedBy(s, FastForward(preserved, run)); l == [] || MovedTo(before, before + l, preserved, run)
  {
    var l := LandedBy(s, FastForward(preserved, run));
    if l != [] { assert Forward(l[0]) && before + l == before + [l[0]]; }
  }

  lemma MovedToLanded(start: State, moves: seq<Move>, before: seq<Landing>, after: seq<Landing>, goal: Goal,
                      stamped: bool)
    requires MovedTo(before, after, goal.preserved, goal.run) && (stamped ==> Adopted(start, moves, goal.preserved))
    ensures Landed(start, moves, before, after, goal, stamped)
  {
    hide Adopted;
  }

  /** `merge --ff-only`: the move carries its own guard. */
  method StrictForward(host: Host, run: string, preserved: Commit) returns (merged: bool)
    requires host.Valid() && !host.keepLocal
    modifies host
    ensures host.Progress() && host.log.stamps == old(host.log.stamps)
    ensures host.log.landings == old(host.log.landings) ||
            (merged && MovedTo(old(host.log.landings), host.log.landings, preserved, run))
    ensures old(host.Quiet()) && Happens(old(host.state), FastForward(preserved, run)) ==>
      merged && host.state == Apply(old(host.state), FastForward(preserved, run))
    ensures old(host.Quiet()) ==> host.state.runs == old(host.state).runs
  {
    hide LawfulHistory, Play, LogOf, Sound, SoundMergeBase, SafeStep, Held, Grows;
    merged := host.Tick();
    if !merged || HeadSha(host.state.work).None? { return false; }
    merged := Happens(host.state, FastForward(preserved, run)) || Reaches(HeadSha(host.state.work).value, preserved);
    if merged {
      FastForwardIsSafe(host.state, preserved, run);
      ForwardLands(host.state, preserved, run, host.log.landings);
      host.Do(FastForward(preserved, run));
    }
  }

  /** recoverFastForward */
  method RecoverFastForward(host: Host, run: Run, branch: string, local: Commit, preserved: Commit) returns (o: Outcome)
    requires host.Valid() && host.log.stamps == 0 && !host.keepLocal
    modifies host
    ensures host.Progress() && host.log.stamps == if o.recovered then 1 else 0
    ensures o.recovered ==> Adopted(host.start, host.moves, preserved)
    ensures Landed(host.start, host.moves, old(host.log.landings), host.log.landings, Goal(run.id, preserved, local),
                   o.recovered)
    ensures o.recovered <==> o.code == Ok
    ensures old(host.Quiet()) && Settled(old(host.state).work, branch, local) &&
            IsAncestor(old(host.state).work.repo, local, preserved) ==>
      o.recovered
    ensures old(host.Quiet()) && o.recovered ==> CleanAt(host.state.work, preserved)
    ensures old(host.Quiet()) ==> host.state.runs == AfterStamp(o.recovered, old(host.state).runs, [run.id])
  {
    hide LawfulHistory, Play, LogOf, Sound, SoundMergeBase, SafeStep, Adopted, Happens, Apply, Held, Grows, Clean,
         CleanAt;
    if Settled(host.state.work, branch, local) && IsAncestor(host.state.work.repo, local, preserved) {
      ForwardFromSettled(host.state, run.id, branch, local, preserved);
    }
    var same := StillAsObserved(host, branch, local);
    if !same { return Blocked(AssumptionsChanged); }
    var merged := StrictForward(host, run.id, preserved);
    if !merged { return Blocked(ApplyFailed); }
    o := VerifyAndFinish(host, run.id, preserved, preserved != local);
    if host.log.landings != old(host.log.landings) {
      MovedToLanded(host.start, host.moves, old(host.log.landings), host.log.landings, Goal(run.id, preserved, local),
                    o.recovered);
    }
  }

  function AfterStamp(stamped: bool, runs: seq<Run>, ids: seq<string>): seq<Run> {
    if stamped then ReturnRuns(runs, ids) else runs
  }

  // ---- recoverAdoptPreserved, guard by guard ----------------------------------------

  /** Both heads of the move are anchored in the worktree repository, so either can be left behind. */
  ghost predicate BothAnchored(s: State, run: string, local: Commit, preserved: Commit) {
    Get(s.work.repo.refs, RecoverLocal(run)) == Some(local) && Get(s.work.repo.refs, Recover(run)) == Some(preserved)
  }

  /** Pin the observed head: create the anchor or confirm it, then read it back. */
  method AnchorLocalHead(host: Host, run: string, head: Commit) returns (ok: bool)
    requires host.Valid()
    modifies host
    ensures host.Progress() && Grows(old(host.state), host.state) && host.Steady()
    ensures host.Untouched()
    ensures ok ==> Get(host.state.work.repo.refs, RecoverLocal(run)) == Some(head)
    ensures old(host.Quiet()) && head in old(host.state).work.repo.objects ==>
      (ok <==> Compatible(old(host.state).work.repo, RecoverLocal(run), head))
    ensures old(host.Quiet()) ==>
      host.state == old(host.state) ||
      host.state == Apply(old(host.state), CreateAnchor(InWork, RecoverLocal(run), head))
  {
    hide LawfulHistory, Play, LogOf, Sound, SoundMergeBase;
    var read := host.Tick();
    var existing := Get(host.state.work.repo.refs, RecoverLocal(run));
    if read && existing.Some? && existing.value != head { return false; }
    if !read || existing.None? {
      ok := host.PreserveAnchor(InWork, RecoverLocal(run), head);
      if !ok { return false; }
    }
    ok := host.Tick();
    ok := ok && Get(host.state.work.repo.refs, RecoverLocal(run)) == Some(head);
  }

  lemma AnchoredIsStored(s: State, r: Ref)
    requires Sound(s)
    ensures r in s.work.repo.refs ==> s.work.repo.refs[r] in s.work.repo.objects
  {}

  lemma BothAreStored(s: State, run: string, local: Commit, preserved: Commit)
    requires Sound(s) && BothAnchored(s, run, local, preserved)
    ensures local in s.work.repo.objects && preserved in s.work.repo.objects
  {}

  lemma AnchoredIsKept(s: State, r: Ref)
    requires IsAnchor(r) && r in s.work.repo.refs
    ensures Kept(s, s.work.repo.refs[r])
  {
    assert Reaches(s.work.repo.refs[r], s.work.repo.refs[r]);
  }

  /** The forward swap found the observed head: it was there from the start, or somebody else wrote it. */
  predicate Left(written: set<(string, Option<Commit>)>, branch: string, found: Option<Commit>, local: Commit) {
    found == Some(local) || (branch, Some(local)) in written
  }

  /** Check the branch identity, then compare-and-swap the branch to the preserved head. */
  method SwapBranch(host: Host, run: string, branch: string, ghost found: Option<Commit>, local: Commit,
                    preserved: Commit, reviewed: Option<Commit>)
    returns (moved: bool)
    requires host.Valid() && !host.keepLocal
    requires BothAnchored(host.state, run, local, preserved) &&
             Backed(host.log.vouched, run, local, preserved, reviewed)
    requires BranchLeft(host.state, host.log.written, branch, found, local, preserved, run)
    modifies host
    ensures host.Progress() && host.log.stamps == old(host.log.stamps)
    ensures host.log.landings ==
      if moved then old(host.log.landings) + [WorkMoved(branch, local, preserved, Carrying(run, reviewed))]
      else old(host.log.landings)
    ensures BothAnchored(host.state, run, local, preserved)
    ensures moved ==> Left(host.log.written, branch, found, local)
    ensures BranchLeft(host.state, host.log.written, branch, found, local, preserved, run)
    ensures old(host.Quiet()) ==>
      host.state == Apply(old(host.state), CasWork(branch, preserved, local, Carrying(run, reviewed))) ||
      (!moved && host.state == old(host.state))
    ensures old(host.Quiet()) ==> host.state.runs == old(host.state).runs
    ensures old(host.Quiet()) && CurrentBranch(old(host.state).work) == Some(branch) &&
            HeadSha(old(host.state).work) == Some(local) ==>
      moved && host.state == Apply(old(host.state), CasWork(branch, preserved, local, Carrying(run, reviewed)))
  {
    hide LawfulHistory, Play, LogOf, SoundMergeBase, CarriesBy, SafeStep, Kept, Clean;
    var ok := host.Tick();
    if !ok || CurrentBranch(host.state.work) != Some(branch) { return false; }
    ok := host.Tick();
    if !ok { return false; }
    AnchoredIsStored(host.state, Recover(run));
    host.Later();
    moved := Happens(host.state, CasWork(branch, preserved, local, Carrying(run, reviewed)));
    AnchoredCasWorkIsSafe(host.state, branch, preserved, local, Carrying(run, reviewed), RecoverLocal(run));
    host.Do(CasWork(branch, preserved, local, Carrying(run, reviewed)));
  }

  /** The reverse swap, refused like the forward one when the branch is elsewhere by then. */
  method SwapBack(host: Host, run: string, branch: string, ghost found: Option<Commit>, local: Commit,
                  preserved: Commit)
    requires host.Valid() && !host.keepLocal && Undoes(host.log.landings, branch, local, preserved)
    requires Swapped(host.state, host.log.written, branch, found, local, preserved, run)
    modifies host
    ensures host.Progress() && host.log.stamps == old(host.log.stamps)
    ensures BackAtMost(old(host.log.landings), host.log.landings, branch, local, preserved)
    ensures BranchLeft(host.state, host.log.written, branch, found, local, preserved, run)
    ensures old(host.Quiet()) && Get(old(host.state).work.repo.refs, Branch(branch)) == Some(preserved) ==>
      Get(host.state.work.repo.refs, Branch(branch)) == Some(local)
    ensures old(host.Quiet()) ==>
      host.state.runs == old(host.state).runs && host.state.work.files == old(host.state).work.files
  {
    hide LawfulHistory, Play, LogOf, Sound, SoundMergeBase, Undoes, SafeStep, Kept, Clean;
    var ok := host.Tick();
    if ok {
      BothAreStored(host.state, run, local, preserved);
      AnchoredCasWorkIsSafe(host.state, branch, local, preserved, Undoing, Recover(run));
      host.Do(CasWork(branch, local, preserved, Undoing));
    }
  }

  /** Nothing more was moved, or the branch was put back. */
  predicate BackAtMost(before: seq<Landing>, after: seq<Landing>, branch: string, local: Commit, preserved: Commit) {
    after == before || after == before + [WorkMoved(branch, preserved, local, Undoing)]
  }

  /** Between the swap and the switch: both heads anchored, the branch where the swap left it. */
  ghost predicate Swapped(s: State, written: set<(string, Option<Commit>)>, branch: string, found: Option<Commit>,
                          local: Commit, preserved: Commit, run: string)
  {
    BothAnchored(s, run, local, preserved) && BranchLeft(s, written, branch, found, local, preserved, run) &&
    Left(written, branch, found, local)
  }

  lemma SwappedAcross(s: State, before: set<(string, Option<Commit>)>, t: State, after: set<(string, Option<Commit>)>,
                      branch: string, found: Option<Commit>, local: Commit, preserved: Commit, run: string)
    requires before <= after && Grows(s, t) && Held(s, t, after)
    requires Swapped(s, before, branch, found, local, preserved, run)
    ensures Swapped(t, after, branch, found, local, preserved, run)
  {}

  /** Check the branch identity again, then switch index and files; undo the swap on any refusal. */
  method SwitchFiles(host: Host, run: string, branch: string, ghost found: Option<Commit>, local: Commit,
                     preserved: Commit)
    returns (code: Code)
    requires host.Valid() && !host.keepLocal && Undoes(host.log.landings, branch, local, preserved)
    requires Swapped(host.state, host.log.written, branch, found, local, preserved, run)
    modifies host
    ensures host.Progress() && host.log.stamps == old(host.log.stamps)
    ensures BackAtMost(old(host.log.landings), host.log.landings, branch, local, preserved)
    ensures code == Ok ==> host.log.landings == old(host.log.landings)
    ensures BranchLeft(host.state, host.log.written, branch, found, local, preserved, run)
    ensures old(host.Quiet()) && Get(old(host.state).work.repo.refs, Branch(branch)) == Some(preserved) &&
            code != Ok ==>
      Get(host.state.work.repo.refs, Branch(branch)) == Some(local) &&
      host.state.work.files == old(host.state).work.files
    ensures old(host.Quiet()) ==> host.state.runs == old(host.state).runs
    ensures old(host.Quiet()) && CurrentBranch(old(host.state).work) == Some(branch) &&
            Happens(old(host.state), ReadTree(local, preserved)) ==>
      code == Ok && host.state == Apply(old(host.state), ReadTree(local, preserved))
  {
    hide LawfulHistory, Play, LogOf, Sound, SoundMergeBase, Undoes, SafeStep, Kept, Clean, BranchLeft, Swapped, Held,
         Grows, Apply, Happens;
    ghost var s, before := host.state, host.log.written;
    var ok := host.Tick();
    SwappedAcross(s, before, host.state, host.log.written, branch, found, local, preserved, run);
    if !ok || CurrentBranch(host.state.work) != Some(branch) {
      SwapBack(host, run, branch, found, local, preserved);
      return AssumptionsChanged;
    }
    code := SwitchOrUndo(host, run, branch, found, local, preserved);
  }

  method SwitchOrUndo(host: Host, run: string, branch: string, ghost found: Option<Commit>, local: Commit,
                      preserved: Commit)
    returns (code: Code)
    requires host.Valid() && !host.keepLocal && Undoes(host.log.landings, branch, local, preserved)
    requires Swapped(host.state, host.log.written, branch, found, local, preserved, run)
    modifies host
    ensures host.Progress() && host.log.stamps == old(host.log.stamps)
    ensures BackAtMost(old(host.log.landings), host.log.landings, branch, local, preserved)
    ensures code == Ok ==> host.log.landings == old(host.log.landings)
    ensures BranchLeft(host.state, host.log.written, branch, found, local, preserved, run)
    ensures old(host.Quiet()) && Get(old(host.state).work.repo.refs, Branch(branch)) == Some(preserved) &&
            code != Ok ==>
      Get(host.state.work.repo.refs, Branch(branch)) == Some(local) &&
      host.state.work.files == old(host.state).work.files
    ensures old(host.Quiet()) ==> host.state.runs == old(host.state).runs
    ensures old(host.Quiet()) && Happens(old(host.state), ReadTree(local, preserved)) ==>
      code == Ok && host.state == Apply(old(host.state), ReadTree(local, preserved))
  {
    hide LawfulHistory, Play, LogOf, Sound, SoundMergeBase, Undoes, SafeStep, Kept, Clean, CheckoutAllowed,
         BranchLeft, Swapped, Held, Grows, Apply;
    ghost var s, before := host.state, host.log.written;
    var ok := host.Tick();
    SwappedAcross(s, before, host.state, host.log.written, branch, found, local, preserved, run);
    if !ok || !Happens(host.state, ReadTree(local, preserved)) {
      SwapBack(host, run, branch, found, local, preserved);
      return WorktreeBusy;
    }
    SwappedIsAnchored(host.state, host.log.written, branch, found, local, preserved, run);
    ReadTreeIsSafe(host.state, local, preserved);
    ReadTreeKeepsRefs(host.state, local, preserved);
    ghost var t, met := host.state, host.log.written;
    host.Do(ReadTree(local, preserved));
    SameRefsLeft(t, met, host.state, host.log.written, branch, found, local, preserved, run);
    code := Ok;
  }

  lemma SwappedIsAnchored(s: State, written: set<(string, Option<Commit>)>, branch: string, found: Option<Commit>,
                          local: Commit, preserved: Commit, run: string)
    requires Swapped(s, written, branch, found, local, preserved, run)
    ensures Kept(s, local) && BranchLeft(s, written, branch, found, local, preserved, run)
  {
    AnchoredIsKept(s, RecoverLocal(run));
  }

  lemma ReadTreeKeepsRefs(s: State, from: Commit, to: Commit)
    ensures Apply(s, ReadTree(from, to)).work.repo == s.work.repo && Apply(s, ReadTree(from, to)).runs == s.runs
  {}

  lemma SameRefsLeft(s: State, before: set<(string, Option<Commit>)>, t: State, after: set<(string, Option<Commit>)>,
                     branch: string, found: Option<Commit>, local: Commit, preserved: Commit, run: string)
    requires before <= after && t.work.repo == s.work.repo &&
             BranchLeft(s, before, branch, found, local, preserved, run)
    ensures BranchLeft(t, after, branch, found, local, preserved, run)
  {}

  /** From a clean tree, the swap followed by the switch lands cleanly on the preserved head. */
  lemma AdoptFromSettled(s: State, branch: string, local: Commit, preserved: Commit, why: Warrant)
    requires Settled(s.work, branch, local) && preserved in s.work.repo.objects
    ensures var t := Apply(s, CasWork(branch, preserved, local, why));
            CurrentBranch(t.work) == Some(branch) && t.runs == s.runs && Happens(t, ReadTree(local, preserved)) &&
            CleanAt(Apply(t, ReadTree(local, preserved)).work, preserved)
  {
    CleanCheckout(local.tree, preserved.tree);
  }

  lemma AnchoringKeepsSettled(s: State, anchor: Ref, target: Commit, branch: string, local: Commit)
    requires IsAnchor(anchor)
    ensures Settled(s.work, branch, local) ==>
      Settled(Apply(s, CreateAnchor(InWork, anchor, target)).work, branch, local)
    ensures Apply(s, CreateAnchor(InWork, anchor, target)).runs == s.runs
  {}

  /** The proof runs before the anchor and the move, unless a reviewed head already gave it. */
  method ConfirmContainment(host: Host, run: string, local: Commit, preserved: Commit, reviewed: Option<Commit>)
    returns (ok: bool)
    requires host.Valid() && (reviewed.Some? ==> Backed(host.log.vouched, run, local, preserved, reviewed))
    modifies host
    ensures host.Progress() && Grows(old(host.state), host.state) && host.Steady()
    ensures host.Untouched()
    ensures ok ==> Backed(host.log.vouched, run, local, preserved, reviewed)
    ensures old(host.Quiet()) ==>
      host.state == old(host.state) &&
      (ok <==> reviewed.Some? || ContainsWork(host.cfg, host.state.work.repo, local, preserved))
  {
    hide LawfulHistory, Play, LogOf, Sound, CarriesDirectly, CarriesVia, ContainsWork;
    var read := host.Tick();
    host.Later();
    ok := reviewed.Some? || (read && ContainsWork(host.cfg, host.state.work.repo, local, preserved));
    if reviewed.None? && ok { ContainsWorkIsReal(host.cfg, host.state.work.repo, local, preserved); }
  }

  /** Everything before the move: observe, prove containment, anchor the head about to be left. */
  method PrepareAdoption(host: Host, run: string, branch: string, local: Commit, preserved: Commit,
                         reviewed: Option<Commit>)
    returns (code: Code)
    requires host.Valid() && (reviewed.Some? ==> Backed(host.log.vouched, run, local, preserved, reviewed))
    modifies host
    ensures host.Progress() && Grows(old(host.state), host.state) && host.Steady()
    ensures host.Untouched()
    ensures code == Ok ==>
      Backed(host.log.vouched, run, local, preserved, reviewed) &&
      Get(host.state.work.repo.refs, RecoverLocal(run)) == Some(local)
    ensures old(host.Quiet()) && Settled(old(host.state).work, branch, local) &&
            local in old(host.state).work.repo.objects &&
            (reviewed.Some? || ContainsWork(host.cfg, old(host.state).work.repo, local, preserved)) ==>
      Settled(host.state.work, branch, local) &&
      code == if Compatible(old(host.state).work.repo, RecoverLocal(run), local) then Ok else PreserveFailed
    ensures old(host.Quiet()) ==> host.state.runs == old(host.state).runs
  {
    hide LawfulHistory, Play, LogOf, Sound, SoundMergeBase, CarriesBy, ContainsWork, Settled, Apply, Happens;
    AnchoringKeepsSettled(host.state, RecoverLocal(run), local, branch, local);
    var same := StillAsObserved(host, branch, local);
    host.Later();
    if !same { return AssumptionsChanged; }
    var ok := ConfirmContainment(host, run, local, preserved, reviewed);
    if !ok { return AssumptionsChanged; }
    ok := AnchorLocalHead(host, run, local);
    host.Later();
    code := if ok then Ok else PreserveFailed;
  }

  /** recoverAdoptPreserved; reviewed is the approved head that already proved containment, if one did. */
  method AdoptPreserved(host: Host, run: Run, branch: string, local: Commit, preserved: Commit,
                        reviewed: Option<Commit>)
    returns (o: Outcome)
    requires host.Valid() && host.log.stamps == 0 && !host.keepLocal
    requires Get(host.state.work.repo.refs, Recover(run.id)) == Some(preserved)
    requires reviewed.Some? ==> Backed(host.log.vouched, run.id, local, preserved, reviewed)
    modifies host
    ensures host.Progress() && host.log.stamps == if o.recovered then 1 else 0
    ensures BranchLeft(host.state, host.log.written, branch, Get(old(host.state).work.repo.refs, Branch(branch)), local,
                       preserved, run.id)
    ensures AdoptionLanded(old(host.log.landings), host.log.landings, branch, local, preserved, run.id, reviewed,
                           o.recovered)
    ensures o.recovered ==> Adopted(host.start, host.moves, preserved)
    ensures o.recovered <==> o.code == Ok
    ensures old(host.Quiet()) && o.recovered ==> CleanAt(host.state.work, preserved)
    ensures old(host.Quiet()) && Settled(old(host.state).work, branch, local) &&
            local in old(host.state).work.repo.objects &&
            (reviewed.Some? || ContainsWork(host.cfg, old(host.state).work.repo, local, preserved)) ==>
      o.code == if Compatible(old(host.state).work.repo, RecoverLocal(run.id), local) then Ok else PreserveFailed
    ensures old(host.Quiet()) ==> host.state.runs == AfterStamp(o.recovered, old(host.state).runs, [run.id])
  {
    hide LawfulHistory, Play, LogOf, Sound, SoundMergeBase, CarriesBy, SafeStep, Kept, Clean, Adopted, ContainsWork,
         Settled, BranchLeft, Held, AdoptionLanded, CleanAt;
    ghost var s, before := host.state, host.log.written;
    ghost var found := Get(s.work.repo.refs, Branch(branch));
    NotAdopted(host.log.landings, branch, local, preserved, run.id, reviewed);
    var code := PrepareAdoption(host, run.id, branch, local, preserved, reviewed);
    NotMovedYet(s, before, host.state, host.log.written, branch, found, local, preserved, run.id);
    if code != Ok { return Blocked(code); }
    o := MoveAndFinish(host, run, branch, found, local, preserved, reviewed);
  }

  /** Adoption moves this one branch from the observed to the preserved head, on the proof it was given, and stamps
      only after such a move; without a stamp the branch may have been put back. */
  predicate AdoptionLanded(before: seq<Landing>, after: seq<Landing>, branch: string, local: Commit,
                           preserved: Commit, run: string, reviewed: Option<Commit>, stamped: bool)
  {
    var moved := before + [WorkMoved(branch, local, preserved, Carrying(run, reviewed))];
    if stamped then after == moved else after == before || BackAtMost(moved, after, branch, local, preserved)
  }

  lemma NotAdopted(before: seq<Landing>, branch: string, local: Commit, preserved: Commit, run: string,
                   reviewed: Option<Commit>)
    ensures AdoptionLanded(before, before, branch, local, preserved, run, reviewed, false)
  {}

  lemma AdoptionIsLanded(start: State, moves: seq<Move>, before: seq<Landing>, after: seq<Landing>, branch: string,
                         local: Commit, goal: Goal, reviewed: Option<Commit>, stamped: bool)
    requires AdoptionLanded(before, after, branch, local, goal.preserved, goal.run, reviewed, stamped)
    requires stamped ==> Adopted(start, moves, goal.preserved)
    ensures Landed(start, moves, before, after, goal, stamped)
  {
    hide Adopted;
    var f, u := WorkMoved(branch, local, goal.preserved, Carrying(goal.run, reviewed)),
        WorkMoved(branch, goal.preserved, local, Undoing);
    assert Forward(f) && Reverts(u, f) && before + [f] + [u] == before + [f, u];
  }

  lemma NotMovedYet(s: State, before: set<(string, Option<Commit>)>, t: State, after: set<(string, Option<Commit>)>,
                    branch: string, found: Option<Commit>, local: Commit, preserved: Commit, run: string)
    requires before <= after && Held(s, t, after) && Get(s.work.repo.refs, Branch(branch)) == found
    ensures BranchLeft(t, after, branch, found, local, preserved, run)
  {}

  lemma JustMoved(before: seq<Landing>, branch: string, local: Commit, preserved: Commit, why: Warrant)
    requires why.Carrying?
    ensures Undoes(before + [WorkMoved(branch, local, preserved, why)], branch, local, preserved)
  {
    assert WorkMoved(branch, local, preserved, why) in before + [WorkMoved(branch, local, preserved, why)];
  }

  /** The move itself, once both heads are anchored and containment is proven. */
  method MoveAndFinish(host: Host, run: Run, branch: string, ghost found: Option<Commit>, local: Commit,
                       preserved: Commit, reviewed: Option<Commit>)
    returns (o: Outcome)
    requires host.Valid() && host.log.stamps == 0 && !host.keepLocal
    requires BothAnchored(host.state, run.id, local, preserved) &&
             Backed(host.log.vouched, run.id, local, preserved, reviewed)
    requires BranchLeft(host.state, host.log.written, branch, found, local, preserved, run.id)
    modifies host
    ensures host.Progress() && host.log.stamps == if o.recovered then 1 else 0
    ensures BranchLeft(host.state, host.log.written, branch, found, local, preserved, run.id)
    ensures AdoptionLanded(old(host.log.landings), host.log.landings, branch, local, preserved, run.id, reviewed,
                           o.recovered)
    ensures o.recovered ==> Adopted(host.start, host.moves, preserved)
    ensures o.recovered <==> o.code == Ok
    ensures old(host.Quiet()) && o.recovered ==> CleanAt(host.state.work, preserved)
    ensures old(host.Quiet()) && Settled(old(host.state).work, branch, local) ==> o.recovered
    ensures old(host.Quiet()) ==> host.state.runs == AfterStamp(o.recovered, old(host.state).runs, [run.id])
  {
    hide LawfulHistory, Play, LogOf, Sound, SoundMergeBase, Held, Grows, Backed, SafeStep, Kept, Clean, Adopted,
         Happens, BranchLeft, Left, BothAnchored, Undoes, Apply, CleanAt;
    ghost var why := Carrying(run.id, reviewed);
    BothAreStored(host.state, run.id, local, preserved);
    if Settled(host.state.work, branch, local) { AdoptFromSettled(host.state, branch, local, preserved, why); }
    JustMoved(host.log.landings, branch, local, preserved, why);
    var moved := SwapBranch(host, run.id, branch, found, local, preserved, reviewed);
    if !moved { return Blocked(AssumptionsChanged); }
    var code := SwitchFiles(host, run.id, branch, found, local, preserved);
    if code != Ok { return Blocked(code); }
    ghost var s, before := host.state, host.log.written;
    o := VerifyAndFinish(host, run.id, preserved, preserved != local);
    BranchLeftAcross(s, before, host.state, host.log.written, branch, found, local, preserved, run.id);
  }
}
