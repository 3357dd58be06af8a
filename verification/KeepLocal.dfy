/**
 Keep-local custody return: the worktree is never written; the gate branch moves
 to the kept head by compare-and-swap after whatever it held is anchored, and
 custody is stamped only after the gate was read back at that head.
 */
module KeepLocal {
  import opened Options
  import opened Git
  import opened Refs
  import opened Runs
  import opened World
  import opened Classify
  import opened Machine
  import opened Adopt

  /** The row still says what the preflight saw, and nothing contradicts its anchors. */
  predicate CandidateOk(s: State, id: string, head: Commit) {
    var row := FindRun(s.runs, id);
    row.Some? && row.value.head == head && row.value.verified && Stranded(row.value) &&
    Compatible(s.work.repo, Recover(id), head) && Compatible(s.gate, Recover(id), head)
  }

  /** Nothing but anchors was added: rows, worktree, gate branches and gate-head anchors are as before. */
  ghost predicate OnlyAnchors(s: State, t: State) {
    t.runs == s.runs && SameWorktree(s, t) && s.work.repo.objects == t.work.repo.objects &&
    s.gate.objects == t.gate.objects &&
    (forall b: string :: Get(t.gate.refs, Branch(b)) == Get(s.gate.refs, Branch(b))) &&
    forall r: string :: Get(t.gate.refs, RecoverGate(r)) == Get(s.gate.refs, RecoverGate(r))
  }

  lemma AnchoringIsOnlyAnchors(s: State, t: State, side: Side, id: string, head: Commit)
    requires OnlyAnchors(s, t)
    ensures OnlyAnchors(s, Apply(t, CreateAnchor(side, Recover(id), head)))
  {}

  lemma CandidateSurvives(s: State, side: Side, id: string, head: Commit, other: string, otherHead: Commit)
    requires CandidateOk(s, id, head) && CandidateOk(s, other, otherHead)
    ensures CandidateOk(Apply(s, CreateAnchor(side, Recover(id), head)), other, otherHead)
  {}

  /** One candidate of preserveKeepLocalCandidates. */
  method PreserveCandidate(host: Host, id: string, head: Commit) returns (ok: bool)
    requires host.Valid()
    modifies host
    ensures host.Progress() && Grows(old(host.state), host.state) && host.Steady()
    ensures ok && head in old(host.state).gate.objects ==> Get(host.state.gate.refs, Recover(id)) == Some(head)
    ensures old(host.Quiet()) ==> OnlyAnchors(old(host.state), host.state)
    ensures old(host.Quiet()) ==> (ok <==> CandidateOk(old(host.state), id, head))
    ensures old(host.Quiet()) && CandidateOk(old(host.state), id, head) ==>
      forall other: string, h :: CandidateOk(old(host.state), other, h) ==> CandidateOk(host.state, other, h)
  {
    hide LawfulHistory, Play, LogOf, Sound, SoundMergeBase, Held, Stranded;
    var ok1 := host.Tick();
    var row := FindRun(host.state.runs, id);
    if !ok1 || row.None? || row.value.head != head || !row.value.verified || !Stranded(row.value) { return false; }
    ok1 := host.Tick();
    if !ok1 || !Compatible(host.state.work.repo, Recover(id), head) { return false; }
    ok1 := host.Tick();
    if !ok1 || !Compatible(host.state.gate, Recover(id), head) { return false; }
    ok := PinBoth(host, id, head);
  }

  method PinBoth(host: Host, id: string, head: Commit) returns (ok: bool)
    requires host.Valid()
    modifies host
    ensures host.Progress() && Grows(old(host.state), host.state) && host.Steady()
    ensures ok && head in old(host.state).gate.objects ==> Get(host.state.gate.refs, Recover(id)) == Some(head)
    ensures old(host.Quiet()) ==> OnlyAnchors(old(host.state), host.state)
    ensures old(host.Quiet()) && CandidateOk(old(host.state), id, head) ==> ok
    ensures old(host.Quiet()) && CandidateOk(old(host.state), id, head) ==>
      forall other: string, h :: CandidateOk(old(host.state), other, h) ==> CandidateOk(host.state, other, h)
  {
    hide LawfulHistory, Play, LogOf, Sound, SoundMergeBase, Held, Stranded, FindRun;
    ok := PinIfPresent(host, InWork, id, head);
    if ok { ok := PinIfPresent(host, InGate, id, head); }
  }

  /** objectExists, then the create-only anchor. */
  method PinIfPresent(host: Host, side: Side, id: string, head: Commit) returns (ok: bool)
    requires host.Valid()
    modifies host
    ensures host.Progress() && Grows(old(host.state), host.state) && host.Steady()
    ensures ok && head in RepoOf(old(host.state), side).objects ==>
      Get(RepoOf(host.state, side).refs, Recover(id)) == Some(head)
    ensures old(host.Quiet()) ==> OnlyAnchors(old(host.state), host.state)
    ensures old(host.Quiet()) && CandidateOk(old(host.state), id, head) ==> ok
    ensures old(host.Quiet()) && CandidateOk(old(host.state), id, head) ==>
      forall other: string, h :: CandidateOk(old(host.state), other, h) ==> CandidateOk(host.state, other, h)
  {
    hide LawfulHistory, Play, LogOf, Sound, SoundMergeBase, Held, Stranded, FindRun;
    ok := host.Tick();
    if !ok { return; }
    if head in RepoOf(host.state, side).objects {
      AnchoringIsOnlyAnchors(old(host.state), old(host.state), side, id, head);
      if CandidateOk(old(host.state), id, head) {
        forall other: string, h | CandidateOk(old(host.state), other, h)
          ensures CandidateOk(Apply(old(host.state), CreateAnchor(side, Recover(id), head)), other, h)
        {
          CandidateSurvives(old(host.state), side, id, head, other, h);
        }
      }
      ok := host.PreserveAnchor(side, Recover(id), head);
    }
  }

  lemma AnchoringNothing(s: State)
    ensures OnlyAnchors(s, s) && Grows(s, s)
  {}

  /** Anchors are never moved, so a candidate that checks out later did so before. */
  lemma CandidateWasOk(s: State, t: State, id: string, head: Commit)
    requires OnlyAnchors(s, t) && Grows(s, t)
    ensures CandidateOk(t, id, head) ==> CandidateOk(s, id, head)
  {}

  lemma PinnedOnTop(s: State, t: State, u: State, ids: seq<string>, heads: seq<Commit>, i: nat)
    requires Grows(s, t) && Grows(t, u) && i <= |ids| == |heads|
    ensures Grows(s, u)
    ensures OnlyAnchors(s, t) && OnlyAnchors(t, u) ==> OnlyAnchors(s, u)
    ensures forall j | 0 <= j < i && heads[j] in s.gate.objects &&
              Get(t.gate.refs, Recover(ids[j])) == Some(heads[j]) :: Get(u.gate.refs, Recover(ids[j])) == Some(heads[j])
    ensures s.gate.objects <= t.gate.objects
  {
    GrowsTransitive(s, t, u);
  }

  ghost predicate CandidatesOk(s: State, ids: seq<string>, heads: seq<Commit>)
    requires |ids| == |heads|
  {
    forall j | 0 <= j < |ids| :: CandidateOk(s, ids[j], heads[j])
  }

  /** preserveKeepLocalCandidates */
  method PreserveCandidates(host: Host, ids: seq<string>, heads: seq<Commit>) returns (ok: bool)
    requires host.Valid() && |ids| == |heads|
    modifies host
    ensures host.Progress() && Grows(old(host.state), host.state) && host.Steady()
    ensures ok ==> forall j | 0 <= j < |ids| && heads[j] in old(host.state).gate.objects ::
                     Get(host.state.gate.refs, Recover(ids[j])) == Some(heads[j])
    ensures old(host.Quiet()) ==> OnlyAnchors(old(host.state), host.state)
    ensures old(host.Quiet()) ==> (ok <==> CandidatesOk(old(host.state), ids, heads))
    ensures old(host.Quiet()) && ok ==> CandidatesOk(host.state, ids, heads)
  {
    hide LawfulHistory, Play, LogOf, Sound, SoundMergeBase, Held, Stranded, CandidateOk, Grows, OnlyAnchors;
    AnchoringNothing(host.state);
    for i := 0 to |ids|
      invariant host.Progress() && Grows(old(host.state), host.state) && host.Steady()
      invariant forall j | 0 <= j < i && heads[j] in old(host.state).gate.objects ::
                  Get(host.state.gate.refs, Recover(ids[j])) == Some(heads[j])
      invariant old(host.Quiet()) ==> OnlyAnchors(old(host.state), host.state)
      invariant old(host.Quiet()) && CandidatesOk(old(host.state), ids, heads) ==> CandidatesOk(host.state, ids, heads)
      invariant old(host.Quiet()) ==> forall j | 0 <= j < i :: CandidateOk(old(host.state), ids[j], heads[j])
    {
      ghost var s := host.state;
      if old(host.Quiet()) { CandidateWasOk(old(host.state), s, ids[i], heads[i]); }
      var fine := PreserveCandidate(host, ids[i], heads[i]);
      PinnedOnTop(old(host.state), s, host.state, ids, heads, i);
      if !fine { return false; }
    }
    ok := true;
  }

  // ---- Moving the gate ---------------------------------------------------------------

  /** Everything that is not the lane, the staging ref or the gate-head anchor is as before. */
  ghost predicate OnlyLane(s: State, t: State, run: string, branch: string) {
    t.runs == s.runs && SameWorktree(s, t) && s.work.repo == t.work.repo && s.gate.objects <= t.gate.objects &&
    forall r :: r != Branch(branch) && r != CustodyReturn(run) && r != RecoverGate(run) ==>
      Get(t.gate.refs, r) == Get(s.gate.refs, r)
  }

  /** Anchor an independently moved gate head before the swap can leave it. */
  method GuardGateHead(host: Host, run: string, branch: string, gateHead: Commit) returns (ok: bool)
    requires host.Valid()
    modifies host
    ensures host.Progress() && Grows(old(host.state), host.state) && host.Steady()
    ensures ok ==> Get(host.state.gate.refs, RecoverGate(run)) == Some(gateHead)
    ensures old(host.Alone()) ==> OnlyLane(old(host.state), host.state, run, branch)
    ensures old(host.Alone()) ==>
      Get(host.state.gate.refs, Branch(branch)) == Get(old(host.state).gate.refs, Branch(branch))
    ensures old(host.Quiet()) ==>
      (ok <==>
       gateHead in old(host.state).gate.objects && Compatible(old(host.state).gate, RecoverGate(run), gateHead))
  {
    hide LawfulHistory, Play, LogOf, Sound, SoundMergeBase, Held;
    ok := GateHeadFree(host, run, gateHead);
    if !ok { return; }
    ok := host.Tick();
    if !ok { return; }
    if RecoverGate(run) !in host.state.gate.refs {
      ok := host.PreserveAnchor(InGate, RecoverGate(run), gateHead);
      if !ok { return; }
    }
    ok := Get(host.state.gate.refs, RecoverGate(run)) == Some(gateHead);
  }

  /** The gate has the head, and its anchor is free or already names it. */
  method GateHeadFree(host: Host, run: string, gateHead: Commit) returns (ok: bool)
    requires host.Valid()
    modifies host
    ensures host.Progress() && Grows(old(host.state), host.state) && host.Steady()
    ensures old(host.Alone()) || old(host.Quiet()) ==> host.state == old(host.state)
    ensures old(host.Quiet()) ==>
      (ok <==> gateHead in host.state.gate.objects && Compatible(host.state.gate, RecoverGate(run), gateHead))
  {
    hide LawfulHistory, Play, LogOf, Sound, SoundMergeBase, Held;
    ok := host.Tick();
    if !ok || gateHead !in host.state.gate.objects { return false; }
    ok := host.Tick();
    ok := ok && Compatible(host.state.gate, RecoverGate(run), gateHead);
  }

  /** Nothing but the staging ref and the gate's objects changed. */
  ghost predicate OnlyStaged(s: State, t: State, run: string) {
    t == s.(gate := t.gate) && s.gate.objects <= t.gate.objects &&
    forall r :: r != CustodyReturn(run) ==> Get(t.gate.refs, r) == Get(s.gate.refs, r)
  }

  lemma StagedIsOnlyLane(s: State, t: State, run: string, branch: string)
    requires OnlyStaged(s, t, run)
    ensures OnlyLane(s, t, run, branch) && Get(t.gate.refs, Branch(branch)) == Get(s.gate.refs, Branch(branch))
    ensures Get(t.gate.refs, RecoverGate(run)) == Get(s.gate.refs, RecoverGate(run))
  {}

  lemma StagedTwice(s: State, t: State, u: State, run: string)
    requires OnlyStaged(s, t, run) && OnlyStaged(t, u, run)
    ensures OnlyStaged(s, u, run)
  {}

  lemma NothingStaged(s: State, run: string)
    ensures OnlyStaged(s, s, run)
  {}

  lemma StagingIsOnlyStaged(s: State, run: string, head: Commit)
    ensures OnlyStaged(s, Apply(s, Stage(run, head)), run)
    ensures head in s.work.repo.objects ==>
      var gate := Apply(s, Stage(run, head)).gate;
      Get(gate.refs, CustodyReturn(run)) == Some(head) && head in gate.objects
  {
    HistoryIsReach(head, head);
  }

  /** The local branch pushed to the staging ref. */
  method StageBranch(host: Host, run: string, branch: string) returns (ok: bool)
    requires host.Valid()
    modifies host
    ensures host.Progress() && Grows(old(host.state), host.state) && host.Steady()
    ensures old(host.Alone()) ==> OnlyStaged(old(host.state), host.state, run)
    ensures old(host.Quiet()) ==>
      var source := Get(old(host.state).work.repo.refs, Branch(branch));
      ok == source.Some? &&
      (ok ==> host.state == Apply(old(host.state), Stage(run, source.value)))
  {
    hide LawfulHistory, Play, LogOf, Sound, SoundMergeBase, Held, SafeStep, Apply, OnlyStaged;
    ok := host.Tick();
    var source := Get(host.state.work.repo.refs, Branch(branch));
    NothingStaged(host.state, run);
    if !ok || source.None? { return false; }
    AdditiveStepIsSafe(host.state, Stage(run, source.value));
    StagingIsOnlyStaged(host.state, run, source.value);
    host.Do(Stage(run, source.value));
  }

  /** Bring the kept head's objects into the gate through the staging ref; never a push. */
  method StageHead(host: Host, run: string, branch: string, local: Commit) returns (ok: bool)
    requires host.Valid()
    modifies host
    ensures host.Progress() && Grows(old(host.state), host.state) && host.Steady()
    ensures old(host.Alone()) ==> OnlyStaged(old(host.state), host.state, run)
    ensures old(host.Quiet()) && Get(old(host.state).work.repo.refs, Branch(branch)) == Some(local) &&
            local in old(host.state).work.repo.objects ==>
      ok && local in host.state.gate.objects
  {
    hide LawfulHistory, Play, LogOf, Sound, SoundMergeBase, Held, SafeStep, Apply, OnlyStaged;
    StagingIsOnlyStaged(host.state, run, local);
    var ok1 := StageBranch(host, run, branch);
    if !ok1 { return false; }
    ghost var s := host.state;
    ok1 := host.Tick();
    ok := ok1 && Get(host.state.gate.refs, CustodyReturn(run)) == Some(local);
    if !ok {
      DropStaging(host, run);
      if old(host.Alone()) { StagedTwice(old(host.state), s, host.state, run); }
    }
  }

  /** The best-effort removal of the staging ref. */
  method DropStaging(host: Host, run: string)
    requires host.Valid()
    modifies host
    ensures host.Progress() && Grows(old(host.state), host.state) && host.Steady()
    ensures old(host.Alone()) ==> OnlyStaged(old(host.state), host.state, run)
  {
    hide LawfulHistory, Play, LogOf, Sound, SoundMergeBase, Held, SafeStep;
    var ok := host.Tick();
    if ok {
      AdditiveStepIsSafe(host.state, Unstage(run));
      host.Do(Unstage(run));
    }
  }

  /** A gate branch swapped from what it is expected to hold, which is anchored in the gate or nothing. */
  method SwapGate(host: Host, branch: string, next: Commit, expected: Option<Commit>, ghost anchor: Ref)
    returns (moved: bool)
    requires host.Valid()
    requires expected.Some? ==> IsAnchor(anchor) && Get(host.state.gate.refs, anchor) == expected
    modifies host
    ensures host.Progress() && Grows(old(host.state), host.state) && host.log.stamps == old(host.log.stamps)
    ensures host.log.landings ==
      if moved then old(host.log.landings) + [LaneMoved(branch, expected, next)] else old(host.log.landings)
    ensures old(host.Alone()) ==> host.state == if moved
      then Apply(old(host.state), CasGate(branch, next, expected)) else old(host.state)
    ensures old(host.Alone()) && moved ==> Happens(old(host.state), CasGate(branch, next, expected))
    ensures old(host.Quiet()) && Happens(old(host.state), CasGate(branch, next, expected)) ==> moved
  {
    hide LawfulHistory, Play, LogOf, Sound, SoundMergeBase, Held, SafeStep;
    moved := host.Tick();
    if moved {
      moved := Happens(host.state, CasGate(branch, next, expected));
      AnchoredCasGateIsSafe(host.state, branch, next, expected, anchor);
      host.Do(CasGate(branch, next, expected));
    }
  }

  lemma SwappedLane(s: State, run: string, branch: string, next: Commit, expected: Option<Commit>)
    requires Happens(s, CasGate(branch, next, expected))
    ensures OnlyLane(s, Apply(s, CasGate(branch, next, expected)), run, branch)
    ensures Get(Apply(s, CasGate(branch, next, expected)).gate.refs, Branch(branch)) == Some(next) &&
            Get(s.gate.refs, Branch(branch)) == expected
  {}

  /** The compare-and-swap itself, with what the lane held anchored in the gate. */
  method SwapLane(host: Host, run: string, branch: string, local: Commit, expected: Option<Commit>, ghost anchor: Ref)
    returns (moved: bool)
    requires host.Valid()
    requires expected.Some? ==> IsAnchor(anchor) && Get(host.state.gate.refs, anchor) == expected
    modifies host
    ensures host.Progress() && Grows(old(host.state), host.state) && host.log.stamps == old(host.log.stamps)
    ensures host.log.landings ==
      if moved then old(host.log.landings) + [LaneMoved(branch, expected, local)] else old(host.log.landings)
    ensures old(host.Alone()) ==> OnlyLane(old(host.state), host.state, run, branch)
    ensures old(host.Alone()) ==>
      Get(host.state.gate.refs, Branch(branch)) ==
        if moved then Some(local) else Get(old(host.state).gate.refs, Branch(branch))
    ensures old(host.Alone()) && moved ==> Get(old(host.state).gate.refs, Branch(branch)) == expected
    ensures old(host.Quiet()) && Get(old(host.state).gate.refs, Branch(branch)) == expected &&
            local in old(host.state).gate.objects ==>
      moved
  {
    hide LawfulHistory, Play, LogOf, Sound, SoundMergeBase, Held, SafeStep, Apply;
    SameLane(host.state, run, branch);
    moved := SwapGate(host, branch, local, expected, anchor);
    ghost var s := host.state;
    if old(host.Alone()) && moved { SwappedLane(old(host.state), run, branch, local, expected); }
    DropStaging(host, run);
    if old(host.Alone()) {
      StagedIsOnlyLane(s, host.state, run, branch);
      LaneTwice(old(host.state), s, host.state, run, branch, local);
    }
  }

  lemma SameLane(s: State, run: string, branch: string)
    ensures OnlyLane(s, s, run, branch)
  {}

  /** The anchor, if any, that already keeps the gate head among the stranded heads. */
  function HeadIndex(heads: seq<Commit>, c: Commit): (i: nat)
    ensures i <= |heads| && (i < |heads| ==> heads[i] == c) && (i == |heads| ==> c !in heads)
  {
    if heads == [] then 0 else if heads[0] == c then 0 else 1 + HeadIndex(heads[1..], c)
  }

  /** What the lane holds is a stranded head pinned earlier, or gets its own anchor, or is nothing. */
  method SecureGateHead(host: Host, run: string, branch: string, gateHead: Option<Commit>, ids: seq<string>,
                        heads: seq<Commit>)
    returns (ok: bool, ghost anchor: Ref)
    requires host.Valid() && |ids| == |heads|
    requires gateHead.Some? ==>
      forall j | 0 <= j < |ids| && heads[j] == gateHead.value :: Get(host.state.gate.refs, Recover(ids[j])) == gateHead
    modifies host
    ensures host.Progress() && Grows(old(host.state), host.state) && host.Steady()
    ensures ok && gateHead.Some? ==> IsAnchor(anchor) && Get(host.state.gate.refs, anchor) == gateHead
    ensures old(host.Quiet()) ==> OnlyLane(old(host.state), host.state, run, branch)
    ensures old(host.Quiet()) ==>
      Get(host.state.gate.refs, Branch(branch)) == Get(old(host.state).gate.refs, Branch(branch))
    ensures old(host.Quiet()) ==> (ok <==> Securable(old(host.state), run, gateHead, heads))
  {
    hide LawfulHistory, Play, LogOf, Sound, SoundMergeBase, Held, SafeStep;
    ok, anchor := true, CustodyReturn(run);
    if gateHead.Some? {
      var j := HeadIndex(heads, gateHead.value);
      if j == |heads| {
        ok := GuardGateHead(host, run, branch, gateHead.value);
        anchor := RecoverGate(run);
      } else {
        anchor := Recover(ids[j]);
      }
    }
  }

  predicate Securable(s: State, run: string, gateHead: Option<Commit>, heads: seq<Commit>) {
    gateHead.Some? && gateHead.value !in heads ==>
      gateHead.value in s.gate.objects && Compatible(s.gate, RecoverGate(run), gateHead.value)
  }

  predicate AtLocal(w: Worktree, branch: string, local: Commit) {
    CurrentBranch(w) == Some(branch) && HeadSha(w) == Some(local)
  }

  /** HEAD is still the kept head, and the gate has its objects. */
  method BringHead(host: Host, run: string, branch: string, local: Commit) returns (ok: bool)
    requires host.Valid()
    modifies host
    ensures host.Progress() && Grows(old(host.state), host.state) && host.Steady()
    ensures old(host.Quiet()) ==> OnlyStaged(old(host.state), host.state, run)
    ensures old(host.Quiet()) && AtLocal(old(host.state).work, branch, local) &&
            local in old(host.state).work.repo.objects ==>
      ok && local in host.state.gate.objects
  {
    hide LawfulHistory, Play, LogOf, Sound, SoundMergeBase, Held, SafeStep;
    ok := host.Tick();
    if !ok || HeadSha(host.state.work) != Some(local) { return false; }
    ok := host.Tick();
    if ok && local in host.state.gate.objects { return true; }
    ok := StageHead(host, run, branch, local);
  }

  /** Guard, stage and swap: the middle of recoverKeepLocal, for a lane that is not yet at the kept head. */
  method MoveLane(host: Host, run: string, branch: string, local: Commit, gateHead: Option<Commit>, ids: seq<string>,
                  heads: seq<Commit>)
    returns (code: Code)
    requires host.Valid() && |ids| == |heads|
    requires gateHead.Some? ==>
      forall j | 0 <= j < |ids| && heads[j] == gateHead.value :: Get(host.state.gate.refs, Recover(ids[j])) == gateHead
    modifies host
    ensures host.Progress() && Grows(old(host.state), host.state) && host.log.stamps == old(host.log.stamps)
    ensures host.log.landings ==
      if code == Ok then old(host.log.landings) + [LaneMoved(branch, gateHead, local)] else old(host.log.landings)
    ensures old(host.Quiet()) ==> OnlyLane(old(host.state), host.state, run, branch)
    ensures old(host.Quiet()) && AtLocal(old(host.state).work, branch, local) &&
            local in old(host.state).work.repo.objects &&
            Get(old(host.state).gate.refs, Branch(branch)) == gateHead &&
            Securable(old(host.state), run, gateHead, heads) ==>
      code == Ok && Get(host.state.gate.refs, Branch(branch)) == Some(local)
    ensures old(host.Quiet()) && code == Ok ==> Securable(old(host.state), run, gateHead, heads)
  {
    hide LawfulHistory, Play, LogOf, Sound, SoundMergeBase, Held, SafeStep, OnlyLane, OnlyStaged, Securable, AtLocal;
    var ok, anchor := SecureGateHead(host, run, branch, gateHead, ids, heads);
    ghost var s1 := host.state;
    if !ok { return PreserveFailed; }
    if old(host.Quiet()) { LaneTwice(old(host.state), old(host.state), s1, run, branch, local); }
    ok := BringHead(host, run, branch, local);
    ghost var s2 := host.state;
    if old(host.Quiet()) {
      StagedIsOnlyLane(s1, s2, run, branch);
      LaneTwice(old(host.state), s1, s2, run, branch, local);
    }
    if !ok { return AssumptionsChanged; }
    var moved := SwapLane(host, run, branch, local, gateHead, anchor);
    if old(host.Quiet()) { LaneTwice(old(host.state), s2, host.state, run, branch, local); }
    code := if moved then Ok else GateRace;
  }

  lemma LaneTwice(s: State, t: State, u: State, run: string, branch: string, local: Commit)
    requires s == t || OnlyLane(s, t, run, branch)
    requires OnlyLane(t, u, run, branch)
    ensures OnlyLane(s, u, run, branch)
    ensures AtLocal(s.work, branch, local) && local in s.work.repo.objects ==>
      AtLocal(u.work, branch, local) && local in u.work.repo.objects
  {}

  predicate Returned(s: State, branch: string, local: Commit) {
    AtLocal(s.work, branch, local) && Get(s.gate.refs, Branch(branch)) == Some(local)
  }

  /** The branch and its head, one command each. */
  method StillAtLocal(host: Host, branch: string, local: Commit) returns (same: bool)
    requires host.Valid()
    modifies host
    ensures host.Progress() && Grows(old(host.state), host.state) && host.Steady()
    ensures old(host.Alone()) || old(host.Quiet()) ==> host.state == old(host.state)
    ensures old(host.Quiet()) ==> (same <==> AtLocal(host.state.work, branch, local))
  {
    hide LawfulHistory, Play, LogOf, Sound, SoundMergeBase, Held;
    var ok := host.Tick();
    var b := CurrentBranch(host.state.work);
    var ok2 := host.Tick();
    same := ok && b == Some(branch) && ok2 && HeadSha(host.state.work) == Some(local);
  }

  /** The last look before stamping: branch, HEAD, then the gate branch itself. */
  method ReadBackAndFinish(host: Host, branch: string, local: Commit, ids: seq<string>) returns (o: Outcome)
    requires host.Valid() && host.log.stamps == 0
    modifies host
    ensures host.Progress() && host.log.stamps == if o.recovered then 1 else 0
    ensures host.log.landings == old(host.log.landings)
    ensures o.recovered ==> ReadBack(host.start, host.moves, branch, local)
    ensures old(host.Quiet()) ==> (o.recovered <==> Returned(old(host.state), branch, local))
    ensures old(host.Quiet()) ==> host.state == old(host.state).(runs := host.state.runs)
    ensures old(host.Quiet()) ==> host.state.runs == AfterStamp(o.recovered, old(host.state).runs, ids)
  {
    hide LawfulHistory, Play, LogOf, Sound, SoundMergeBase, Held, Grows, OnlyStampsFrom, ReturnRuns;
    var ok := StillAtLocal(host, branch, local);
    if !ok { return Blocked(AssumptionsChanged); }
    ok := host.Tick();
    if !ok || Get(host.state.gate.refs, Branch(branch)) != Some(local) { return Blocked(GateRace); }
    ghost var i, seen := |host.moves|, host.moves;
    assert host.moves[..i] == host.moves;
    o := Finish(host, ids, false);
    assert host.moves[..i] == seen;
    SameActsOnlyStamps(host.start, host.moves, i);
  }

  lemma LaneMoveKeepsCandidates(s: State, t: State, run: string, branch: string, ids: seq<string>, heads: seq<Commit>)
    requires OnlyLane(s, t, run, branch) && |ids| == |heads| && CandidatesOk(s, ids, heads)
    ensures CandidatesOk(t, ids, heads)
  {
    forall j | 0 <= j < |ids| ensures CandidateOk(t, ids[j], heads[j]) {
      assert CandidateOk(s, ids[j], heads[j]);
      assert Get(t.gate.refs, Recover(ids[j])) == Get(s.gate.refs, Recover(ids[j]));
    }
  }

  /** What recoverKeepLocal needs to go through without interference. */
  ghost predicate Returnable(s: State, run: string, branch: string, local: Commit, gateHead: Option<Commit>,
                             ids: seq<string>, heads: seq<Commit>)
    requires |ids| == |heads|
  {
    CandidatesOk(s, ids, heads) && AtLocal(s.work, branch, local) && local in s.work.repo.objects &&
    Get(s.gate.refs, Branch(branch)) == gateHead &&
    (gateHead == Some(local) || Securable(s, run, gateHead, heads))
  }

  lemma ReturnableChecksOut(s: State, run: string, branch: string, local: Commit, gateHead: Option<Commit>,
                            ids: seq<string>, heads: seq<Commit>)
    requires |ids| == |heads| && Returnable(s, run, branch, local, gateHead, ids, heads)
    ensures CandidatesOk(s, ids, heads)
  {}

  lemma StillReturnable(s: State, t: State, run: string, branch: string, local: Commit, gateHead: Option<Commit>,
                        ids: seq<string>, heads: seq<Commit>)
    requires |ids| == |heads| && OnlyAnchors(s, t) && Returnable(s, run, branch, local, gateHead, ids, heads) &&
             CandidatesOk(t, ids, heads)
    ensures Returnable(t, run, branch, local, gateHead, ids, heads)
  {
    assert Get(t.gate.refs, Branch(branch)) == Get(s.gate.refs, Branch(branch));
    assert Get(t.gate.refs, RecoverGate(run)) == Get(s.gate.refs, RecoverGate(run));
    assert Get(t.work.repo.refs, Branch(branch)) == Get(s.work.repo.refs, Branch(branch));
  }

  lemma StillReturned(s: State, t: State, branch: string, local: Commit)
    requires OnlyAnchors(s, t)
    ensures Returned(s, branch, local) <==> Returned(t, branch, local)
  {
    assert Get(t.gate.refs, Branch(branch)) == Get(s.gate.refs, Branch(branch));
    assert Get(t.work.repo.refs, Branch(branch)) == Get(s.work.repo.refs, Branch(branch));
  }

  lemma StampKeepsReturned(s: State, t: State, branch: string, local: Commit)
    requires t == s.(runs := t.runs)
    ensures Returned(s, branch, local) <==> Returned(t, branch, local)
  {}

  /** The lane is at the kept head and every candidate still checks out. */
  ghost predicate LaneReady(s: State, branch: string, local: Commit, ids: seq<string>, heads: seq<Commit>)
    requires |ids| == |heads|
  {
    Returned(s, branch, local) && CandidatesOk(s, ids, heads)
  }

  /** The second half of recoverKeepLocal, after the lane is at the kept head. */
  method PinAgainAndFinish(host: Host, branch: string, local: Commit, ids: seq<string>, heads: seq<Commit>)
    returns (o: Outcome)
    requires host.Valid() && host.log.stamps == 0 && |ids| == |heads|
    modifies host
    ensures host.Progress() && host.log.stamps == if o.recovered then 1 else 0
    ensures host.log.landings == old(host.log.landings)
    ensures o.recovered ==> ReadBack(host.start, host.moves, branch, local)
    ensures old(host.Quiet()) && LaneReady(old(host.state), branch, local, ids, heads) ==> o.recovered
    ensures old(host.Quiet()) && o.recovered ==>
      Returned(old(host.state), branch, local) && Returned(host.state, branch, local)
    ensures old(host.Quiet()) ==> host.state.runs == AfterStamp(o.recovered, old(host.state).runs, ids)
  {
    hide LawfulHistory, Play, LogOf, Sound, SoundMergeBase, Held, ReadBack, CandidatesOk, Returned;
    var ok := PreserveCandidates(host, ids, heads);
    if !ok { return Blocked(PreserveFailed); }
    if old(host.Quiet()) { StillReturned(old(host.state), host.state, branch, local); }
    ghost var s := host.state;
    o := ReadBackAndFinish(host, branch, local, ids);
    if old(host.Quiet()) { StampKeepsReturned(s, host.state, branch, local); }
  }

  /** Move the lane unless it is already at the kept head. */
  method SettleLane(host: Host, run: string, branch: string, local: Commit, gateHead: Option<Commit>,
                    ids: seq<string>, heads: seq<Commit>)
    returns (code: Code)
    requires host.Valid() && |ids| == |heads|
    requires gateHead.Some? ==>
      forall j | 0 <= j < |ids| && heads[j] == gateHead.value :: Get(host.state.gate.refs, Recover(ids[j])) == gateHead
    modifies host
    ensures host.Progress() && host.log.stamps == old(host.log.stamps)
    ensures host.log.landings == old(host.log.landings) ||
            (code == Ok && host.log.landings == old(host.log.landings) + [LaneMoved(branch, gateHead, local)])
    ensures old(host.Quiet()) && Returnable(old(host.state), run, branch, local, gateHead, ids, heads) ==>
      code == Ok && LaneReady(host.state, branch, local, ids, heads)
    ensures old(host.Quiet()) && code == Ok ==>
      gateHead == Some(local) || Securable(old(host.state), run, gateHead, heads)
    ensures old(host.Quiet()) ==> host.state.runs == old(host.state).runs && host.state.work == old(host.state).work
  {
    hide LawfulHistory, Play, LogOf, Sound, SoundMergeBase, Held, CandidatesOk, Securable;
    if gateHead == Some(local) { return Ok; }
    code := MoveLane(host, run, branch, local, gateHead, ids, heads);
    if old(host.Quiet()) && CandidatesOk(old(host.state), ids, heads) {
      LaneMoveKeepsCandidates(old(host.state), host.state, run, branch, ids, heads);
    }
  }

  /** From the pinned candidates on: settle the lane, pin again, look, stamp. */
  method SettleAndFinish(host: Host, run: Run, branch: string, local: Commit, gateHead: Option<Commit>,
                         ids: seq<string>, heads: seq<Commit>)
    returns (o: Outcome)
    requires host.Valid() && host.log.stamps == 0 && |ids| == |heads|
    requires gateHead.Some? ==>
      forall j | 0 <= j < |ids| && heads[j] == gateHead.value :: Get(host.state.gate.refs, Recover(ids[j])) == gateHead
    modifies host
    ensures host.Progress() && host.log.stamps == if o.recovered then 1 else 0
    ensures Landed(host.start, host.moves, old(host.log.landings), host.log.landings, Goal(run.id, run.head, local),
                   o.recovered)
    ensures o.recovered ==> ReadBack(host.start, host.moves, branch, local)
    ensures old(host.Quiet()) && Returnable(old(host.state), run.id, branch, local, gateHead, ids, heads) ==>
      o.recovered
    ensures old(host.Quiet()) && o.recovered ==>
      AtLocal(old(host.state).work, branch, local) && Returned(host.state, branch, local) &&
      (gateHead == Some(local) || Securable(old(host.state), run.id, gateHead, heads))
    ensures old(host.Quiet()) ==> host.state.runs == AfterStamp(o.recovered, old(host.state).runs, ids)
  {
    hide LawfulHistory, Play, LogOf, Sound, SoundMergeBase, Held, ReadBack, CandidatesOk, AtLocal, Securable,
         LaneReady, MovedOnce, OnlyStampsFrom, ReturnRuns, Stranded, SafeStep, Apply, Happens, Returnable;
    var code := SettleLane(host, run.id, branch, local, gateHead, ids, heads);
    if code != Ok { return Blocked(code); }
    o := PinAgainAndFinish(host, branch, local, ids, heads);
    if host.log.landings != old(host.log.landings) {
      LaneIsLanded(host.start, host.moves, old(host.log.landings), branch, gateHead, Goal(run.id, run.head, local),
                   o.recovered);
    }
  }

  /** recoverKeepLocal */
  method ReturnAtLocal(host: Host, run: Run, branch: string, local: Commit, gateHead: Option<Commit>,
                       ids: seq<string>, heads: seq<Commit>)
    returns (o: Outcome)
    requires host.Valid() && host.log.stamps == 0 && |ids| == |heads|
    requires gateHead.Some? ==> gateHead.value in host.state.gate.objects
    modifies host
    ensures host.Progress() && host.log.stamps == if o.recovered then 1 else 0
    ensures Landed(host.start, host.moves, old(host.log.landings), host.log.landings, Goal(run.id, run.head, local),
                   o.recovered)
    ensures o.recovered ==> ReadBack(host.start, host.moves, branch, local)
    ensures old(host.Quiet()) && Get(old(host.state).gate.refs, Branch(branch)) == gateHead ==>
      (o.recovered <==> Returnable(old(host.state), run.id, branch, local, gateHead, ids, heads))
    ensures old(host.Quiet()) && o.recovered ==> Returned(host.state, branch, local)
    ensures old(host.Quiet()) ==> host.state.runs == AfterStamp(o.recovered, old(host.state).runs, ids)
  {
    hide LawfulHistory, Play, LogOf, Sound, SoundMergeBase, Held, ReadBack, CandidatesOk, AtLocal, Securable,
         MovedOnce, ReturnRuns, Returnable, Returned;
    if Returnable(host.state, run.id, branch, local, gateHead, ids, heads) {
      ReturnableChecksOut(host.state, run.id, branch, local, gateHead, ids, heads);
    }
    var ok := host.Tick();
    if !ok { return Blocked(GateUnavailable); }
    ok := PreserveCandidates(host, ids, heads);
    if !ok { return Blocked(PreserveFailed); }
    ghost var t := host.state;
    if old(host.Quiet()) && Returnable(old(host.state), run.id, branch, local, gateHead, ids, heads) {
      StillReturnable(old(host.state), t, run.id, branch, local, gateHead, ids, heads);
    }
    o := SettleAndFinish(host, run, branch, local, gateHead, ids, heads);
    if old(host.Quiet()) && o.recovered && Get(old(host.state).gate.refs, Branch(branch)) == gateHead {
      ReturnedWasReturnable(old(host.state), t, run.id, branch, local, gateHead, ids, heads);
    }
  }

  /** A return that went through found everything it needs. */
  lemma ReturnedWasReturnable(s: State, t: State, run: string, branch: string, local: Commit,
                              gateHead: Option<Commit>, ids: seq<string>, heads: seq<Commit>)
    requires Sound(s) && |ids| == |heads| && OnlyAnchors(s, t) && CandidatesOk(s, ids, heads)
    requires Get(s.gate.refs, Branch(branch)) == gateHead && AtLocal(t.work, branch, local)
    requires gateHead == Some(local) || Securable(t, run, gateHead, heads)
    ensures Returnable(s, run, branch, local, gateHead, ids, heads)
  {
    assert Get(t.work.repo.refs, Branch(branch)) == Get(s.work.repo.refs, Branch(branch));
    assert Get(t.gate.refs, RecoverGate(run)) == Get(s.gate.refs, RecoverGate(run));
    HeadsAreStored(s, branch, local);
  }

  lemma LaneIsLanded(start: State, moves: seq<Move>, before: seq<Landing>, branch: string, held: Option<Commit>,
                     goal: Goal, stamped: bool)
    requires stamped ==> ReadBack(start, moves, branch, goal.kept)
    ensures Landed(start, moves, before, before + [LaneMoved(branch, held, goal.kept)], goal, stamped)
  {
    hide ReadBack;
    assert Forward(LaneMoved(branch, held, goal.kept));
  }

  /** recoverKeepLocalAtCurrentHead */
  method ReturnAtCurrentHead(host: Host, run: Run, branch: string, local: Commit, ids: seq<string>, heads: seq<Commit>)
    returns (o: Outcome)
    requires host.Valid() && host.log.stamps == 0 && |ids| == |heads|
    modifies host
    ensures host.Progress() && host.log.stamps == if o.recovered then 1 else 0
    ensures Landed(host.start, host.moves, old(host.log.landings), host.log.landings, Goal(run.id, run.head, local),
                   o.recovered)
    ensures o.recovered ==> ReadBack(host.start, host.moves, branch, local)
    ensures old(host.Quiet()) ==>
      (o.recovered <==>
       host.cfg.gateConfigured &&
       Returnable(old(host.state), run.id, branch, local, Get(old(host.state).gate.refs, Branch(branch)), ids, heads))
    ensures old(host.Quiet()) && o.recovered ==> Returned(host.state, branch, local)
    ensures old(host.Quiet()) ==> host.state.runs == AfterStamp(o.recovered, old(host.state).runs, ids)
  {
    hide LawfulHistory, Play, LogOf, SoundMergeBase, Held, ReadBack, Returnable, MovedOnce;
    if !host.cfg.gateConfigured { return Blocked(GateUnavailable); }
    var ok := host.Tick();
    if !ok { return Blocked(GateUnavailable); }
    o := ReturnAtLocal(host, run, branch, local, Get(host.state.gate.refs, Branch(branch)), ids, heads);
  }

  // ---- The archive-backed return ---------------------------------------------------------

  /** What the re-read of the run row and its one archive record must still show. */
  predicate ArchiveHolds(cfg: Config, s: State, snap: Snapshot, id: string, rec: Archive) {
    var row := FindRun(s.runs, id);
    row.Some? && VerifyArchives(cfg, s, snap, row.value, ArchivesOf(s.archives, id)) == Ok &&
    ArchivesOf(s.archives, id)[0].id == rec.id
  }

  predicate ArchiveSettled(w: Worktree, rec: Archive) {
    CurrentBranch(w) == Some(rec.branch) && HeadSha(w) == Some(rec.required) && Clean(w)
  }

  /** A verified archive leaves the lane only two places to be. */
  lemma ArchiveLane(cfg: Config, s: State, snap: Snapshot, id: string, rec: Archive)
    ensures ArchiveHolds(cfg, s, snap, id, rec) ==> FindRun(s.runs, id).Some?
    ensures ArchiveHolds(cfg, s, snap, id, rec) ==>
      Get(s.gate.refs, Branch(snap.branch)) in {Some(snap.head), Some(FindRun(s.runs, id).value.head)}
  {}

  method VerifyAgain(host: Host, snap: Snapshot, id: string, rec: Archive) returns (row: Option<Run>)
    requires host.Valid()
    modifies host
    ensures host.Progress() && Grows(old(host.state), host.state) && host.Steady()
    ensures old(host.Alone()) || old(host.Quiet()) ==> host.state == old(host.state)
    ensures row.Some? ==>
      row.value.id == id && ArchivesOf(host.state.archives, id) != [] &&
      Get(host.state.gate.refs, Recover(id)) == Some(row.value.head)
    ensures old(host.Quiet()) && ArchiveHolds(host.cfg, host.state, snap, id, rec) &&
            ArchiveSettled(host.state.work, rec) ==>
      row.Some? && row == FindRun(host.state.runs, id)
  {
    hide LawfulHistory, Play, LogOf, Sound, SoundMergeBase, Held, VerifyArchives, Clean, ArchiveSettled;
    row := ReadArchive(host, snap, id, rec);
    if row.None? { return; }
    var settled := SettledForArchive(host, rec);
    if !settled { return None; }
  }

  /** The run row and its one archive record, read again and verified. */
  method ReadArchive(host: Host, snap: Snapshot, id: string, rec: Archive) returns (row: Option<Run>)
    requires host.Valid()
    modifies host
    ensures host.Progress() && Grows(old(host.state), host.state) && host.Steady()
    ensures old(host.Alone()) || old(host.Quiet()) ==> host.state == old(host.state)
    ensures row.Some? ==>
      row.value.id == id && ArchivesOf(host.state.archives, id) != [] &&
      Get(host.state.gate.refs, Recover(id)) == Some(row.value.head)
    ensures old(host.Quiet()) && ArchiveHolds(host.cfg, host.state, snap, id, rec) ==>
      row.Some? && row == FindRun(host.state.runs, id)
  {
    hide LawfulHistory, Play, LogOf, Sound, SoundMergeBase, Held, VerifyArchives;
    var ok1 := host.Tick();
    row := FindRun(host.state.runs, id);
    var ok2 := host.Tick();
    var records := ArchivesOf(host.state.archives, id);
    if !ok1 || !ok2 || row.None? || VerifyArchives(host.cfg, host.state, snap, row.value, records) != Ok {
      return None;
    }
    VerifiedIsAnchored(host.cfg, host.state, snap, row.value);
    if records[0].id != rec.id { return None; }
  }

  lemma VerifiedIsAnchored(cfg: Config, s: State, snap: Snapshot, run: Run)
    requires VerifyArchives(cfg, s, snap, run, ArchivesOf(s.archives, run.id)) == Ok
    ensures |ArchivesOf(s.archives, run.id)| == 1 && Get(s.gate.refs, Recover(run.id)) == Some(run.head)
  {}

  method SettledForArchive(host: Host, rec: Archive) returns (settled: bool)
    requires host.Valid()
    modifies host
    ensures host.Progress() && Grows(old(host.state), host.state) && host.Steady()
    ensures old(host.Alone()) || old(host.Quiet()) ==> host.state == old(host.state)
    ensures old(host.Quiet()) ==> (settled <==> ArchiveSettled(host.state.work, rec))
  {
    hide LawfulHistory, Play, LogOf, Sound, SoundMergeBase, Held, Clean;
    var ok1 := host.Tick();
    var branch := CurrentBranch(host.state.work);
    var ok2 := host.Tick();
    var head := HeadSha(host.state.work);
    var ok3 := host.Tick();
    settled := ok1 && ok2 && ok3 && branch == Some(rec.branch) && head == Some(rec.required) && Clean(host.state.work);
  }

  /** Pin a gate head that is neither the kept nor the preserved one. */
  method PinMovedGateHead(host: Host, run: Run, branch: string, gateHead: Commit) returns (ok: bool, ghost anchor: Ref)
    requires host.Valid() && Get(host.state.gate.refs, Recover(run.id)) == Some(run.head)
    modifies host
    ensures host.Progress() && Grows(old(host.state), host.state) && host.Steady()
    ensures ok ==> IsAnchor(anchor) && Get(host.state.gate.refs, anchor) == Some(gateHead)
    ensures old(host.Alone()) ==> OnlyLane(old(host.state), host.state, run.id, branch)
    ensures old(host.Alone()) ==>
      Get(host.state.gate.refs, Branch(branch)) == Get(old(host.state).gate.refs, Branch(branch))
    ensures old(host.Quiet()) && gateHead == run.head ==> ok && host.state == old(host.state)
  {
    hide LawfulHistory, Play, LogOf, Sound, SoundMergeBase, Held, SafeStep;
    if gateHead == run.head { return true, Recover(run.id); }
    anchor := RecoverGate(run.id);
    ok := host.Tick();
    if !ok || !Compatible(host.state.gate, RecoverGate(run.id), gateHead) { return false, anchor; }
    if RecoverGate(run.id) !in host.state.gate.refs {
      ok := host.PreserveAnchor(InGate, RecoverGate(run.id), gateHead);
    }
  }

  /** Pin and stage, leaving the lane where it is. */
  method PinAndStage(host: Host, run: Run, branch: string, local: Commit, gateHead: Commit)
    returns (code: Code, ghost anchor: Ref)
    requires host.Valid() && Get(host.state.gate.refs, Recover(run.id)) == Some(run.head)
    modifies host
    ensures host.Progress() && host.Steady()
    ensures code == Ok || code == PreserveFailed || code == AssumptionsChanged
    ensures code == Ok ==> IsAnchor(anchor) && Get(host.state.gate.refs, anchor) == Some(gateHead)
    ensures old(host.Alone()) ==> OnlyLane(old(host.state), host.state, run.id, branch)
    ensures old(host.Alone()) ==>
      Get(host.state.gate.refs, Branch(branch)) == Get(old(host.state).gate.refs, Branch(branch))
    ensures old(host.Quiet()) && gateHead == run.head && AtLocal(old(host.state).work, branch, local) &&
            local in old(host.state).work.repo.objects ==>
      code == Ok && local in host.state.gate.objects
  {
    hide LawfulHistory, Play, LogOf, Sound, SoundMergeBase, Held, SafeStep, OnlyLane, OnlyStaged, AtLocal;
    var ok;
    ok, anchor := PinMovedGateHead(host, run, branch, gateHead);
    ghost var s := host.state;
    if !ok { return PreserveFailed, anchor; }
    ok := StageAtLocal(host, run.id, branch, local);
    if old(host.Alone()) {
      StagedIsOnlyLane(s, host.state, run.id, branch);
      LaneTwice(old(host.state), s, host.state, run.id, branch, local);
    }
    code := if ok then Ok else AssumptionsChanged;
  }

  /** Pin, stage and swap, with every exit but the last leaving the lane where it was. */
  method MoveArchivedLane(host: Host, run: Run, branch: string, local: Commit, gateHead: Commit) returns (code: Code)
    requires host.Valid() && Get(host.state.gate.refs, Recover(run.id)) == Some(run.head)
    modifies host
    ensures host.Progress() && host.log.stamps == old(host.log.stamps)
    ensures host.log.landings ==
      if code == Ok then old(host.log.landings) + [LaneMoved(branch, Some(gateHead), local)] else old(host.log.landings)
    ensures old(host.Alone()) ==>
      Get(host.state.gate.refs, Branch(branch)) ==
        if code == Ok then Some(local) else Get(old(host.state).gate.refs, Branch(branch))
    ensures old(host.Alone()) && code == Ok ==> Get(old(host.state).gate.refs, Branch(branch)) == Some(gateHead)
    ensures old(host.Alone()) ==> OnlyLane(old(host.state), host.state, run.id, branch)
    ensures old(host.Quiet()) && gateHead == run.head && AtLocal(old(host.state).work, branch, local) &&
            local in old(host.state).work.repo.objects &&
            Get(old(host.state).gate.refs, Branch(branch)) == Some(gateHead) ==>
      code == Ok
  {
    hide LawfulHistory, Play, LogOf, Sound, SoundMergeBase, Held, SafeStep, OnlyLane, AtLocal;
    ghost var anchor;
    code, anchor := PinAndStage(host, run, branch, local, gateHead);
    ghost var s := host.state;
    if code != Ok { return; }
    var moved := SwapLane(host, run.id, branch, local, Some(gateHead), anchor);
    if old(host.Alone()) { LaneTwice(old(host.state), s, host.state, run.id, branch, local); }
    code := if moved then Ok else GateRace;
  }

  /** Unlike recoverKeepLocal, this path always stages, even when the gate has the object. */
  method StageAtLocal(host: Host, run: string, branch: string, local: Commit) returns (ok: bool)
    requires host.Valid()
    modifies host
    ensures host.Progress() && Grows(old(host.state), host.state) && host.Steady()
    ensures old(host.Alone()) ==> OnlyStaged(old(host.state), host.state, run)
    ensures old(host.Quiet()) && AtLocal(old(host.state).work, branch, local) &&
            local in old(host.state).work.repo.objects ==>
      ok && local in host.state.gate.objects
  {
    hide LawfulHistory, Play, LogOf, Sound, SoundMergeBase, Held, SafeStep;
    ok := host.Tick();
    if !ok || HeadSha(host.state.work) != Some(local) { return false; }
    ok := StageHead(host, run, branch, local);
  }

  /** Put the lane back after a failed stamp. */
  method RestoreLane(host: Host, branch: string, gateHead: Commit, local: Commit) returns (restored: bool)
    requires host.Valid() && host.state.archives != [] && LaneMoved(branch, Some(gateHead), local) in host.log.landings
    modifies host
    ensures host.Progress() && host.log.stamps == old(host.log.stamps)
    ensures host.log.landings ==
      if restored then old(host.log.landings) + [LaneRestored(branch, local, gateHead)] else old(host.log.landings)
    ensures old(host.Alone()) ==> host.state.runs == old(host.state).runs && host.state.work == old(host.state).work
    ensures old(host.Alone()) && Get(old(host.state).gate.refs, Branch(branch)) == Some(local) &&
            gateHead in old(host.state).gate.objects ==>
      Get(host.state.gate.refs, Branch(branch)) == Some(if restored then gateHead else local)
  {
    hide LawfulHistory, Play, LogOf, Sound, SoundMergeBase, Held, SafeStep;
    restored := host.Tick();
    if restored {
      restored := Happens(host.state, RestoreGate(branch, gateHead, local));
      host.Do(RestoreGate(branch, gateHead, local));
    }
  }

  lemma HeadsAreStored(s: State, branch: string, local: Commit)
    requires Sound(s)
    ensures AtLocal(s.work, branch, local) ==> local in s.work.repo.objects
    ensures Branch(branch) in s.gate.refs ==> s.gate.refs[Branch(branch)] in s.gate.objects
  {}

  lemma LaneKeepsRows(s: State, t: State, run: string, branch: string)
    requires OnlyLane(s, t, run, branch)
    ensures t.runs == s.runs && s.gate.objects <= t.gate.objects && SameWorktree(s, t)
  {}

  /** Stamp; if the stamp fails, put the lane back where it was. */
  method FinishOrRestore(host: Host, id: string, branch: string, gateHead: Commit, local: Commit)
    returns (o: Outcome, stuck: bool)
    requires host.Valid() && host.state.archives != [] && LaneMoved(branch, Some(gateHead), local) in host.log.landings
    modifies host
    ensures host.Progress() && host.log.stamps == old(host.log.stamps) + if o.recovered then 1 else 0
    ensures host.log.landings ==
      if o.recovered || stuck then old(host.log.landings)
         else old(host.log.landings) + [LaneRestored(branch, local, gateHead)]
    ensures old(host.Alone()) ==> host.state.work == old(host.state).work
    ensures old(host.Alone()) && Get(old(host.state).gate.refs, Branch(branch)) == Some(local) &&
            gateHead in old(host.state).gate.objects ==>
      Get(host.state.gate.refs, Branch(branch)) == Some(if o.recovered || stuck then local else gateHead)
    ensures old(host.Alone()) ==> host.state.runs == AfterStamp(o.recovered, old(host.state).runs, [id])
    ensures old(host.Quiet()) ==> o.recovered
  {
    hide LawfulHistory, Play, LogOf, Sound, SoundMergeBase, Held, Grows, Happens;
    stuck := false;
    o := Finish(host, [id], false);
    if !o.recovered {
      var restored := RestoreLane(host, branch, gateHead, local);
      stuck := !restored;
    }
  }

  lemma ArchivedLaneIsLanded(start: State, moves: seq<Move>, before: seq<Landing>, after: seq<Landing>,
                             branch: string, gateHead: Commit, goal: Goal, stamped: bool)
    requires ArchivesOf(start.archives, goal.run) != []
    requires after == before + [LaneMoved(branch, Some(gateHead), goal.kept)] ||
             (!stamped &&
              after ==
                before + [LaneMoved(branch, Some(gateHead), goal.kept)] + [LaneRestored(branch, goal.kept, gateHead)])
    ensures Landed(start, moves, before, after, goal, stamped)
  {
    var f, u := LaneMoved(branch, Some(gateHead), goal.kept), LaneRestored(branch, goal.kept, gateHead);
    assert Forward(f) && Reverts(u, f) && before + [f] + [u] == before + [f, u];
  }

  /** recoverKeepLocalFromArchive; stuck reports a rollback git itself refused. */
  method ReturnFromArchive(host: Host, snap: Snapshot, id: string, local: Commit, gateHead: Commit, rec: Archive,
                           ghost goal: Goal)
    returns (o: Outcome, stuck: bool)
    requires host.Valid() && host.log.stamps == 0 && snap.head == local && goal.run == id && goal.kept == local
    modifies host
    ensures host.Progress() && host.log.stamps == if o.recovered then 1 else 0
    ensures Landed(host.start, host.moves, old(host.log.landings), host.log.landings, goal, o.recovered)
    ensures old(host.Alone()) && AtLocal(old(host.state).work, snap.branch, local) ==>
      NothingDropped(old(host.state), host.state)
    ensures old(host.Alone()) && !o.recovered && !stuck ==>
      Get(host.state.gate.refs, Branch(snap.branch)) == Get(old(host.state).gate.refs, Branch(snap.branch))
    ensures old(host.Alone()) && o.recovered &&
            Get(old(host.state).gate.refs, Branch(snap.branch)) == Some(gateHead) ==>
      Get(host.state.gate.refs, Branch(snap.branch)) == Some(local)
    ensures old(host.Alone()) ==> host.state.runs == AfterStamp(o.recovered, old(host.state).runs, [id])
    ensures old(host.Quiet()) && ArchiveHolds(host.cfg, old(host.state), snap, id, rec) &&
            ArchiveSettled(old(host.state).work, rec) &&
            AtLocal(old(host.state).work, snap.branch, local) &&
            Get(old(host.state).gate.refs, Branch(snap.branch)) == Some(gateHead) ==>
      o.recovered
  {
    hide LawfulHistory, Play, LogOf, Sound, SoundMergeBase, Held, SafeStep, Clean, AtLocal, ArchiveSettled, OnlyLane,
         ArchiveHolds, Grows, Happens, MovedOnce, NothingDropped;
    o, stuck := ReturnArchived(host, snap, id, local, gateHead, rec, goal);
    if old(host.Alone()) && AtLocal(old(host.state).work, snap.branch, local) {
      CheckedOut(old(host.state).work, snap.branch, local);
      host.Later();
      host.AloneKeepsAll(local);
    }
  }

  lemma CheckedOut(w: Worktree, branch: string, local: Commit)
    requires AtLocal(w, branch, local)
    ensures HeadSha(w) == Some(local)
  {}

  method ReturnArchived(host: Host, snap: Snapshot, id: string, local: Commit, gateHead: Commit, rec: Archive,
                        ghost goal: Goal)
    returns (o: Outcome, stuck: bool)
    requires host.Valid() && host.log.stamps == 0 && snap.head == local && goal.run == id && goal.kept == local
    modifies host
    ensures host.Progress() && host.log.stamps == if o.recovered then 1 else 0
    ensures Landed(host.start, host.moves, old(host.log.landings), host.log.landings, goal, o.recovered)
    ensures old(host.Alone()) ==> SameWorktree(old(host.state), host.state)
    ensures OnlyDrops(host.log.landings[|old(host.log.landings)|..], local)
    ensures old(host.Alone()) && !o.recovered && !stuck ==>
      Get(host.state.gate.refs, Branch(snap.branch)) == Get(old(host.state).gate.refs, Branch(snap.branch))
    ensures old(host.Alone()) && o.recovered &&
            Get(old(host.state).gate.refs, Branch(snap.branch)) == Some(gateHead) ==>
      Get(host.state.gate.refs, Branch(snap.branch)) == Some(local)
    ensures old(host.Alone()) ==> host.state.runs == AfterStamp(o.recovered, old(host.state).runs, [id])
    ensures old(host.Quiet()) && ArchiveHolds(host.cfg, old(host.state), snap, id, rec) &&
            ArchiveSettled(old(host.state).work, rec) &&
            AtLocal(old(host.state).work, snap.branch, local) &&
            Get(old(host.state).gate.refs, Branch(snap.branch)) == Some(gateHead) ==>
      o.recovered
  {
    hide LawfulHistory, Play, LogOf, Sound, SoundMergeBase, Held, SafeStep, Clean, AtLocal, ArchiveSettled, OnlyLane,
         ArchiveHolds, Grows, Happens, Landed, SameWorktree;
    stuck := false;
    HeadsAreStored(host.state, snap.branch, local);
    ArchiveLane(host.cfg, host.state, snap, id, rec);
    SameWorktreeTwice(host.state, host.state, host.state);
    var row := VerifyAgain(host, snap, id, rec);
    if row.None? {
      NothingLanded(host.start, host.moves, host.log.landings, goal, false);
      return Blocked(AssumptionsChanged), false;
    }
    if gateHead == local {
      o := Finish(host, [id], false);
      NothingLanded(host.start, host.moves, host.log.landings, goal, o.recovered);
      SameWorktreeTwice(old(host.state), old(host.state), host.state);
      return;
    }
    o, stuck := MoveArchivedAndFinish(host, row.value, snap.branch, local, gateHead, goal);
  }

  /** Move the lane to the required head, stamp, and put it back if the stamp fails. */
  method MoveArchivedAndFinish(host: Host, run: Run, branch: string, local: Commit, gateHead: Commit, ghost goal: Goal)
    returns (o: Outcome, stuck: bool)
    requires goal.run == run.id && goal.kept == local
    requires host.Valid() && ArchivesOf(host.state.archives, run.id) != [] &&
             Get(host.state.gate.refs, Recover(run.id)) == Some(run.head)
    modifies host
    ensures host.Progress() && host.log.stamps == old(host.log.stamps) + if o.recovered then 1 else 0
    ensures Landed(host.start, host.moves, old(host.log.landings), host.log.landings, goal, o.recovered)
    ensures old(host.Alone()) ==> SameWorktree(old(host.state), host.state)
    ensures OnlyDrops(host.log.landings[|old(host.log.landings)|..], local)
    ensures old(host.Alone()) && !o.recovered && !stuck && (Branch(branch) in old(host.state).gate.refs ==>
            old(host.state).gate.refs[Branch(branch)] in old(host.state).gate.objects) ==>
      Get(host.state.gate.refs, Branch(branch)) == Get(old(host.state).gate.refs, Branch(branch))
    ensures old(host.Alone()) && o.recovered && Get(old(host.state).gate.refs, Branch(branch)) == Some(gateHead) &&
            gateHead in old(host.state).gate.objects ==>
      Get(host.state.gate.refs, Branch(branch)) == Some(local)
    ensures old(host.Alone()) ==> host.state.runs == AfterStamp(o.recovered, old(host.state).runs, [run.id])
    ensures old(host.Quiet()) && gateHead == run.head && AtLocal(old(host.state).work, branch, local) &&
            local in old(host.state).work.repo.objects &&
            Get(old(host.state).gate.refs, Branch(branch)) == Some(gateHead) ==>
      o.recovered
  {
    hide LawfulHistory, Play, LogOf, Sound, SoundMergeBase, Held, SafeStep, AtLocal, OnlyLane, Grows, Happens, Landed,
         SameWorktree, ReturnRuns;
    stuck := false;
    ghost var s, before := host.state, host.log.landings;
    var code := MoveArchivedLane(host, run, branch, local, gateHead);
    if old(host.Alone()) { LaneKeepsRows(s, host.state, run.id, branch); }
    if code != Ok {
      NothingLanded(host.start, host.moves, host.log.landings, goal, false);
      return Blocked(code), false;
    }
    ghost var t := host.state;
    o, stuck := FinishOrRestore(host, run.id, branch, gateHead, local);
    if old(host.Alone()) { SameWorktreeTwice(s, t, host.state); }
    ArchivedLaneIsLanded(host.start, host.moves, before, host.log.landings, branch, gateHead, goal, o.recovered);
  }

  lemma NothingLanded(start: State, moves: seq<Move>, landings: seq<Landing>, goal: Goal, stamped: bool)
    ensures Landed(start, moves, landings, landings, goal, stamped)
  {}

  lemma SameWorktreeTwice(s: State, t: State, u: State)
    ensures SameWorktree(s, t) && t.work == u.work ==> SameWorktree(s, u)
    ensures SameWorktree(s, s)
  {}
}
