/**
 Recovery from a remote branch rewritten outside the pipeline: verify the live
 head, anchor the push head about to be forgotten, look again, then move the
 push binding by compare-and-swap. No branch and no worktree file is involved.
 */
module Rebind {
  import opened Options
  import opened Git
  import opened Refs
  import opened Runs
  import opened World
  import opened Classify
  import opened Machine
  import opened Adopt

  function Branches(refs: map<Ref, Commit>): map<string, Commit> {
    map r | r in refs && r.Branch? :: r.name := refs[r]
  }

  /** Everything a user can see of the two repositories: HEAD, index, files and all branches. */
  datatype View = View(head: Head, index: Tree, files: Tree, busy: bool, work: map<string, Commit>,
                       gate: map<string, Commit>)

  function Seen(s: State): View {
    View(s.work.head, s.work.index, s.work.files, s.work.busy, Branches(s.work.repo.refs), Branches(s.gate.refs))
  }

  lemma QuietStepMovesNoBranch(s: State, step: Step)
    requires WellFormedStep(step) && (step.CreateAnchor? || step.Fetch? || step.Mirror? || step.Rebind?)
    ensures Seen(Apply(s, step)) == Seen(s)
    ensures !step.Rebind? ==> Apply(s, step).runs == s.runs
  {
    hide Branches;
    match step {
      case CreateAnchor(side, anchor, target) => NotABranch(RepoOf(s, side).refs, anchor, target);
      case Mirror(run, target) => NotABranch(s.work.repo.refs, SyncMirror(run), target);
      case _ =>
    }
  }

  lemma NotABranch(refs: map<Ref, Commit>, r: Ref, c: Commit)
    requires !r.Branch?
    ensures Branches(refs[r := c]) == Branches(refs)
  {}

  /** No row became stranded. */
  predicate StrandsNothing(before: seq<Run>, after: seq<Run>) {
    |after| == |before| && forall j | 0 <= j < |before| ::
      after[j].branch == before[j].branch && (Stranded(after[j]) ==> Stranded(before[j]))
  }

  /** Moving a binding never strands a run: a head that followed the old binding follows the new one. */
  lemma RebindStrandsNothing(runs: seq<Run>, id: string, b: Rebinding)
    ensures StrandsNothing(runs, RebindRuns(runs, id, b))
  {}

  lemma NothingStranded(runs: seq<Run>)
    ensures StrandsNothing(runs, runs)
  {}

  // ---- The fresh live check ------------------------------------------------------

  datatype Fresh = Unproven(code: Code) | BindingLive | RewrittenAt(snap: Snapshot, row: Run, live: Commit)

  predicate SameBinding(cfg: Config, seen: Run, row: Run) {
    !row.pushActive && row.generation == seen.generation && row.pushed == seen.pushed &&
    row.fingerprint == Some(cfg.target.fingerprint) && row.targetKind == Some(cfg.target.kind) &&
    row.pushRef == seen.pushRef
  }

  predicate Refreshable(cfg: Config, snap: Snapshot) {
    snap.run.Some? && KindOf(snap.run.value) == Bound &&
    (snap.run.value.retiredPR ||
     (snap.clean && snap.run.value.pushRef == Some(snap.branch) &&
      snap.run.value.fingerprint == Some(cfg.target.fingerprint) &&
      snap.run.value.targetKind == Some(cfg.target.kind)))
  }

  function RemoteHead(s: State, branch: string): Option<Commit> {
    if branch in s.remote then Some(s.remote[branch]) else None
  }

  /** The target was seen at this head at or after move i. */
  ghost predicate TargetSeen(start: State, moves: seq<Move>, i: nat, branch: string, local: Commit) {
    exists j | i <= j <= |moves| :: RemoteHead(Play(start, moves[..j]), branch) == Some(local)
  }

  lemma SeenNow(start: State, moves: seq<Move>, branch: string, local: Commit)
    requires RemoteHead(Play(start, moves), branch) == Some(local)
    ensures TargetSeen(start, moves, |moves|, branch, local)
  {
    assert moves[..|moves|] == moves;
  }

  lemma SeenLater(start: State, before: seq<Move>, after: seq<Move>, n: nat, i: nat, branch: string, local: Commit)
    requires before <= after && n <= i && TargetSeen(start, before, i, branch, local)
    ensures TargetSeen(start, after, n, branch, local)
  {
    hide Play;
    var j :| i <= j <= |before| && RemoteHead(Play(start, before[..j]), branch) == Some(local);
    assert after[..j] == before[..j];
  }

  /** The run's row as it must be for the check to mean anything: no push under way, the binding the run was seen with,
      and that for the configured target. */
  predicate BoundRow(cfg: Config, s: State, seen: Run, row: Run) {
    FindRun(s.runs, seen.id) == Some(row) && !row.pushActive && row.generation == seen.generation &&
    row.pushed == seen.pushed && row.pushRef == seen.pushRef && row.targetKind == Some(cfg.target.kind) &&
    row.fingerprint == Some(cfg.target.fingerprint)
  }

  /** What a reported rewrite rests on, whoever interferes: inspection saw snap, later the row still had that binding,
      and later still the remote branch was at live. */
  ghost predicate RewriteSeen(cfg: Config, start: State, moves: seq<Move>, n: nat, snap: Snapshot, row: Run,
                              live: Commit)
  {
    snap.run.Some? && exists i, j | n <= i <= j <= |moves| ::
      Inspect(cfg, Play(start, moves[..i])) == Some(snap) &&
      BoundRow(cfg, Play(start, moves[..j]), snap.run.value, row) && TargetSeen(start, moves, j, snap.branch, live)
  }

  /** After that the remote was at live again, then the worktree clean at the head inspection saw. */
  ghost predicate StillSeen(start: State, moves: seq<Move>, n: nat, snap: Snapshot, live: Commit) {
    exists a, c | n <= a <= c <= |moves| ::
      RemoteHead(Play(start, moves[..a]), snap.branch) == Some(live) &&
      Settled(Play(start, moves[..c]).work, snap.branch, snap.head)
  }

  /** The program made the swap, on a row that still matched. */
  ghost predicate SwapMade(start: State, moves: seq<Move>, n: nat, id: string, b: Rebinding) {
    exists m | n <= m < |moves| ::
      moves[m] == ByProgram(Rebind(id, b)) && Happens(Play(start, moves[..m]), Rebind(id, b))
  }

  /** What a rebound push rests on, whoever interferes. */
  ghost predicate ReboundOn(cfg: Config, start: State, moves: seq<Move>, n: nat, run: Run) {
    exists snap: Snapshot, row: Run, live: Commit, i: nat ::
      i <= |moves| && RewriteSeen(cfg, start, moves[..i], n, snap, row, live) && snap.run.value.id == run.id &&
      snap.run.value.pushed.Some? &&
      SwappedOn(start, moves, i, run.id, snap, live, BindingOf(cfg, snap, run, live))
  }

  /** The run's binding can be compared with a live head. */
  predicate Observable(cfg: Config, s: State, id: string) {
    Inspect(cfg, s).Some? &&
    var snap := Inspect(cfg, s).value;
    Refreshable(cfg, snap) && snap.run.value.id == id && FindRun(s.runs, id).Some? &&
    SameBinding(cfg, snap.run.value, FindRun(s.runs, id).value) &&
    snap.run.value.pushed.Some? && RemoteHead(s, snap.branch).Some?
  }

  /** What the fresh check answers for a live head: ancestry alone tells an advance from a rewrite. */
  function LiveVerdict(snap: Snapshot, row: Run, bound: Commit, live: Commit): Fresh
    requires snap.run.Some?
  {
    if bound == live then BindingLive
    else if Reaches(live, bound) then Unproven(RemoteAdvanced)
    else if snap.run.value.retiredPR then Unproven(PublishedPath)
    else if Terminal(row.status) then RewrittenAt(snap, row, live)
    else Unproven(RunActive)
  }

  function Observed(cfg: Config, s: State, id: string): Fresh
    requires Observable(cfg, s, id)
  {
    var snap := Inspect(cfg, s).value;
    LiveVerdict(snap, FindRun(s.runs, id).value, snap.run.value.pushed.value, RemoteHead(s, snap.branch).value)
  }

  /** The check leaves the live head in the private mirror ref, and changes nothing else. */
  function Mirrored(cfg: Config, s: State, id: string): State
    requires Observable(cfg, s, id)
  { Apply(s, Mirror(id, RemoteHead(s, Inspect(cfg, s).value.branch).value)) }

  lemma MirrorDecidesAncestry(s: State, id: string, branch: string, bound: Commit)
    requires RemoteHead(s, branch).Some?
    ensures var live := RemoteHead(s, branch).value; var t := Apply(s, Mirror(id, live));
            (IsAncestor(t.work.repo, bound, live) <==> Reaches(live, bound)) && t.remote == s.remote
  {
    var live := RemoteHead(s, branch).value;
    assert live in s.remote.Values;
    HistoryIsReach(live, live);
    HistoryIsReach(live, bound);
  }

  predicate IsRefusal(code: Code) { code !in {Ok, AlreadyYours, Rebound} }

  /** The run's row, if it still has the binding the run was seen with. */
  method SameRow(host: Host, seen: Run) returns (row: Option<Run>)
    requires host.Valid()
    modifies host
    ensures host.Progress() && host.Steady()
    ensures row.Some? ==> BoundRow(host.cfg, host.state, seen, row.value)
    ensures old(host.Alone()) ==> host.state == old(host.state)
    ensures old(host.Quiet()) ==>
      row == var found := FindRun(host.state.runs, seen.id);
             if found.Some? && SameBinding(host.cfg, seen, found.value) then found else None
  {
    hide LawfulHistory, Play, LogOf, Sound, SoundMergeBase, Held, Grows;
    var ok := host.Tick();
    row := FindRun(host.state.runs, seen.id);
    if !ok || row.None? || !SameBinding(host.cfg, seen, row.value) { row := None; }
  }

  /** Refresh, as far as recovery reads its answer. */
  method Refresh(host: Host, id: string) returns (answer: Fresh)
    requires host.Valid()
    modifies host
    ensures host.Progress() && host.Steady()
    ensures answer.Unproven? ==> IsRefusal(answer.code) && answer.code != OwnershipChanged
    ensures old(host.Alone()) ==> Seen(host.state) == Seen(old(host.state)) && host.state.runs == old(host.state).runs
    ensures answer.RewrittenAt? ==>
      answer.snap.run.Some? && answer.snap.run.value.id == id && Refreshable(host.cfg, answer.snap) &&
      Terminal(answer.row.status) && !answer.snap.run.value.retiredPR &&
      answer.snap.run.value.pushed != Some(answer.live)
    ensures answer.RewrittenAt? ==>
      RewriteSeen(host.cfg, host.start, host.moves, |old(host.moves)|, answer.snap, answer.row, answer.live)
    ensures old(host.Quiet()) && !Observable(host.cfg, old(host.state), id) ==> answer.Unproven?
    ensures old(host.Quiet()) && Observable(host.cfg, old(host.state), id) ==>
      answer == Observed(host.cfg, old(host.state), id)
    ensures old(host.Quiet()) && Observable(host.cfg, old(host.state), id) ==>
      host.state == Mirrored(host.cfg, old(host.state), id)
    ensures old(host.Quiet()) ==> host.state.remote == old(host.state).remote
  {
    hide LawfulHistory, Play, LogOf, Sound, SoundMergeBase, Seen, Held, Grows, SafeStep, Inspect, KindOf, LiveVerdict,
         TargetSeen, RewriteSeen, SameBinding, BoundRow, FindRun;
    var ok := host.Tick();
    var seen := Inspect(host.cfg, host.state);
    ghost var inspected := host.moves;
    if !ok || seen.None? || !Refreshable(host.cfg, seen.value) || seen.value.run.value.id != id {
      return Unproven(PublishedPath);
    }
    var row := SameRow(host, seen.value.run.value);
    if row.None? { return Unproven(BindingChanged); }
    ghost var looked := host.moves;
    answer := CompareLive(host, seen.value, row.value);
    if answer.RewrittenAt? {
      RewriteIsSeen(host.cfg, host.start, inspected, looked, host.moves, |old(host.moves)|, seen.value, row.value,
                    answer.live);
    }
  }

  lemma RewriteIsSeen(cfg: Config, start: State, inspected: seq<Move>, looked: seq<Move>, moves: seq<Move>, n: nat,
                      snap: Snapshot, row: Run, live: Commit)
    requires n <= |inspected| && inspected <= looked <= moves && snap.run.Some?
    requires Inspect(cfg, Play(start, inspected)) == Some(snap)
    requires BoundRow(cfg, Play(start, looked), snap.run.value, row)
    requires TargetSeen(start, moves, |looked|, snap.branch, live)
    ensures RewriteSeen(cfg, start, moves, n, snap, row, live)
  {
    hide Play, Inspect, BoundRow, TargetSeen;
    assert moves[..|inspected|] == inspected && moves[..|looked|] == looked;
  }

  /** Whether the live head contains the bound one. */
  method HoldsBound(host: Host, bound: Commit, live: Commit) returns (yes: bool)
    requires host.Valid()
    modifies host
    ensures host.Progress() && host.Steady()
    ensures old(host.Alone()) ==> host.state == old(host.state)
    ensures old(host.Quiet()) ==> (yes <==> IsAncestor(host.state.work.repo, bound, live))
  {
    hide LawfulHistory, Play, LogOf, Sound, SoundMergeBase, Held, Grows, IsAncestor;
    var ok := host.Tick();
    yes := ok && IsAncestor(host.state.work.repo, bound, live);
  }

  /** The network half of the fresh check. */
  method CompareLive(host: Host, snap: Snapshot, row: Run) returns (answer: Fresh)
    requires host.Valid() && snap.run.Some?
    modifies host
    ensures host.Progress() && host.Steady()
    ensures answer.Unproven? ==> IsRefusal(answer.code) && answer.code != OwnershipChanged
    ensures old(host.Alone()) ==> Seen(host.state) == Seen(old(host.state)) && host.state.runs == old(host.state).runs
    ensures answer.RewrittenAt? ==>
      answer == RewrittenAt(snap, row, answer.live) && Terminal(row.status) && !snap.run.value.retiredPR &&
      snap.run.value.pushed != Some(answer.live)
    ensures answer.RewrittenAt? ==>
      TargetSeen(host.start, host.moves, |old(host.moves)|, snap.branch, answer.live)
    ensures old(host.Quiet()) && (snap.run.value.pushed.None? || RemoteHead(old(host.state), snap.branch).None?) ==>
      answer.Unproven?
    ensures old(host.Quiet()) && snap.run.value.pushed.Some? && RemoteHead(old(host.state), snap.branch).Some? ==>
      answer == LiveVerdict(snap, row, snap.run.value.pushed.value, RemoteHead(old(host.state), snap.branch).value) &&
      host.state == Apply(old(host.state), Mirror(snap.run.value.id, RemoteHead(old(host.state), snap.branch).value))
    ensures old(host.Quiet()) ==> host.state.remote == old(host.state).remote
  {
    hide LawfulHistory, Play, LogOf, Sound, SoundMergeBase, Seen, Held, Grows, SafeStep, Apply, IsAncestor,
         TargetSeen;
    var run := snap.run.value;
    if RemoteHead(host.state, snap.branch).Some? && run.pushed.Some? {
      MirrorDecidesAncestry(host.state, run.id, snap.branch, run.pushed.value);
    }
    var code, live := ReadLive(host, run.id, snap.branch);
    if code != Ok { return Unproven(code); }
    if run.pushed == Some(live) { return BindingLive; }
    ghost var read, n := host.moves, |old(host.moves)|;
    if run.pushed.None? { return Unproven(RemoteAdvanced); }
    var advanced := HoldsBound(host, run.pushed.value, live);
    SeenLater(host.start, read, host.moves, n, n, snap.branch, live);
    if advanced { return Unproven(RemoteAdvanced); }
    answer := if run.retiredPR then Unproven(PublishedPath)
      else if Terminal(row.status) then RewrittenAt(snap, row, live) else Unproven(RunActive);
  }

  /** The fetch into the private mirror ref, of whatever the branch names by then. */
  method FetchMirror(host: Host, id: string, branch: string) returns (fetched: bool)
    requires host.Valid()
    modifies host
    ensures host.Progress() && host.Steady()
    ensures old(host.Alone()) ==> Seen(host.state) == Seen(old(host.state)) && host.state.runs == old(host.state).runs
    ensures old(host.Quiet()) ==>
      (fetched <==> RemoteHead(old(host.state), branch).Some?) && host.state.remote == old(host.state).remote
    ensures old(host.Quiet()) && fetched ==>
      host.state == Apply(old(host.state), Mirror(id, RemoteHead(old(host.state), branch).value))
    ensures old(host.Quiet()) && fetched ==>
      Get(host.state.work.repo.refs, SyncMirror(id)) == RemoteHead(old(host.state), branch)
  {
    hide LawfulHistory, Play, LogOf, Sound, SoundMergeBase, Seen, Held, Grows, SafeStep;
    fetched := host.Tick();
    var head := RemoteHead(host.state, branch);
    if !fetched || head.None? { return false; }
    AdditiveStepIsSafe(host.state, Mirror(id, head.value));
    QuietStepMovesNoBranch(host.state, Mirror(id, head.value));
    host.Do(Mirror(id, head.value));
  }

  method MirrorHolds(host: Host, id: string, live: Commit) returns (same: bool)
    requires host.Valid()
    modifies host
    ensures host.Progress() && host.Steady()
    ensures old(host.Alone()) ==> host.state == old(host.state)
    ensures old(host.Quiet()) ==> (same <==> Get(host.state.work.repo.refs, SyncMirror(id)) == Some(live))
  {
    hide LawfulHistory, Play, LogOf, Sound, SoundMergeBase, Held, Grows;
    same := host.Tick();
    same := same && Get(host.state.work.repo.refs, SyncMirror(id)) == Some(live);
  }

  /** Fetch the branch into the private mirror ref, and see whether that got the head read before. */
  method FetchAndCompare(host: Host, id: string, branch: string, live: Commit) returns (code: Code)
    requires host.Valid()
    modifies host
    ensures host.Progress() && host.Steady()
    ensures code in {Ok, Offline, RemoteMoved}
    ensures old(host.Alone()) ==> Seen(host.state) == Seen(old(host.state)) && host.state.runs == old(host.state).runs
    ensures old(host.Quiet()) && RemoteHead(old(host.state), branch) == Some(live) ==>
      code == Ok && host.state == Apply(old(host.state), Mirror(id, live)) &&
      host.state.remote == old(host.state).remote
  {
    hide LawfulHistory, Play, LogOf, Sound, SoundMergeBase, Seen, Held, Grows, SafeStep, Apply;
    var ok := FetchMirror(host, id, branch);
    if !ok { return Offline; }
    ok := MirrorHolds(host, id, live);
    code := if ok then Ok else RemoteMoved;
  }

  /** ls-remote, fetch into the private mirror ref, and compare the two. */
  method ReadLive(host: Host, id: string, branch: string) returns (code: Code, live: Commit)
    requires host.Valid()
    modifies host
    ensures host.Progress() && host.Steady()
    ensures code == Ok || (IsRefusal(code) && code != OwnershipChanged)
    ensures code == Ok ==> TargetSeen(host.start, host.moves, |old(host.moves)|, branch, live)
    ensures old(host.Alone()) ==> Seen(host.state) == Seen(old(host.state)) && host.state.runs == old(host.state).runs
    ensures old(host.Quiet()) ==>
      (code == Ok <==> branch in old(host.state).remote) && host.state.remote == old(host.state).remote
    ensures old(host.Quiet()) && code == Ok ==>
      RemoteHead(old(host.state), branch) == Some(live) && host.state == Apply(old(host.state), Mirror(id, live))
  {
    hide LawfulHistory, Play, LogOf, Sound, SoundMergeBase, Seen, Held, Grows, SafeStep, Apply, TargetSeen;
    var ok := host.Tick();
    var first := RemoteHead(host.state, branch);
    live := Commit(0, [], map[]);
    if !ok { return Offline, live; }
    if first.None? { return RemoteMissing, live; }
    live := first.value;
    ghost var read := host.moves;
    SeenNow(host.start, read, branch, live);
    code := FetchAndCompare(host, id, branch, live);
    SeenLater(host.start, read, host.moves, |old(host.moves)|, |read|, branch, live);
  }

  // ---- Anchoring the superseded head ----------------------------------------------

  /** preserveAnchorAt */
  method PinRewritten(host: Host, side: Side, id: string, generation: nat, head: Commit) returns (ok: bool)
    requires host.Valid()
    modifies host
    ensures host.Progress() && host.Steady()
    ensures old(host.Alone()) ==> OnlyPinned(old(host.state), host.state)
    ensures old(host.Quiet()) ==>
      host.state == Apply(old(host.state), CreateAnchor(side, Rewritten(id, generation), head))
    ensures old(host.Quiet()) && head in RepoOf(old(host.state), side).objects ==>
      (ok <==> Compatible(RepoOf(old(host.state), side), Rewritten(id, generation), head))
    ensures ok ==> Get(RepoOf(host.state, side).refs, Rewritten(id, generation)) == Some(head)
  {
    hide LawfulHistory, Play, LogOf, Sound, SoundMergeBase, Seen, Held, Grows, SafeStep;
    PinStep(host.state, CreateAnchor(side, Rewritten(id, generation), head));
    ok := host.PreserveAnchor(side, Rewritten(id, generation), head);
    if ok {
      ok := host.Tick();
      ok := ok && Get(RepoOf(host.state, side).refs, Rewritten(id, generation)) == Some(head);
    }
  }

  /** The gate anchor is the one that counts whenever there is a gate. */
  predicate Pinned(cfg: Config, s: State, id: string, generation: nat, head: Commit) {
    Get((if cfg.gateConfigured then s.gate else s.work.repo).refs, Rewritten(id, generation)) == Some(head)
  }

  lemma PinnedStays(cfg: Config, s: State, t: State, id: string, b: Rebinding)
    requires Grows(s, t) && Pinned(cfg, s, id, b.generation, b.pushed)
    ensures SupersededAnchored(t, id, b)
  {}

  /** Nothing stands in the way of anchoring the superseded head. */
  predicate Pinnable(cfg: Config, s: State, id: string, generation: nat, head: Commit) {
    (head in s.work.repo.objects ==> Compatible(s.work.repo, Rewritten(id, generation), head)) &&
    (head in s.work.repo.objects || (cfg.gateConfigured && head in s.gate.objects)) &&
    (cfg.gateConfigured ==> Compatible(s.gate, Rewritten(id, generation), head))
  }

  /** Only objects and this anchor were added. */
  predicate OnlyPinned(s: State, t: State) {
    Seen(t) == Seen(s) && t.runs == s.runs && t.remote == s.remote
  }

  lemma PinStep(s: State, step: Step)
    requires WellFormedStep(step) && (step.CreateAnchor? || step.Fetch?)
    ensures OnlyPinned(s, Apply(s, step)) && OnlyPinned(s, s)
    ensures step.CreateAnchor? && step.side.InWork? ==>
      Apply(s, step).gate == s.gate && Apply(s, step).work.repo.objects == s.work.repo.objects
    ensures step.Fetch? && step.side.InGate? ==>
      Apply(s, step).gate.refs == s.gate.refs && Apply(s, step).work == s.work
  {
    QuietStepMovesNoBranch(s, step);
  }

  /** The worktree half: anchor the head there if the worktree has it. */
  method PinInWorktree(host: Host, id: string, generation: nat, head: Commit) returns (ok: bool, found: bool)
    requires host.Valid()
    modifies host
    ensures host.Progress() && host.Steady()
    ensures old(host.Alone()) ==> OnlyPinned(old(host.state), host.state)
    ensures ok && found ==> Get(host.state.work.repo.refs, Rewritten(id, generation)) == Some(head)
    ensures old(host.Quiet()) ==>
      host.state.gate == old(host.state).gate && host.state.work.repo.objects == old(host.state).work.repo.objects
    ensures old(host.Quiet()) ==> (found <==> head in old(host.state).work.repo.objects)
    ensures old(host.Quiet()) ==>
      (ok <==> (found ==> Compatible(old(host.state).work.repo, Rewritten(id, generation), head)))
  {
    hide LawfulHistory, Play, LogOf, Sound, SoundMergeBase, Seen, Held, Grows, SafeStep, Apply;
    PinStep(host.state, CreateAnchor(InWork, Rewritten(id, generation), head));
    var read := host.Tick();
    found := read && head in host.state.work.repo.objects;
    ok := true;
    if found { ok := PinRewritten(host, InWork, id, generation, head); }
  }

  /** The gate half: bring the object over if needed, then anchor it. */
  method PinInGateToo(host: Host, id: string, generation: nat, head: Commit, inWork: bool) returns (ok: bool)
    requires host.Valid()
    modifies host
    ensures host.Progress() && host.Steady()
    ensures old(host.Alone()) ==> OnlyPinned(old(host.state), host.state)
    ensures ok ==> Get(host.state.gate.refs, Rewritten(id, generation)) == Some(head)
    ensures old(host.Quiet()) && (inWork <==> head in old(host.state).work.repo.objects) ==>
      (ok <==>
       (inWork || head in old(host.state).gate.objects) &&
         Compatible(old(host.state).gate, Rewritten(id, generation), head))
  {
    hide LawfulHistory, Play, LogOf, Sound, SoundMergeBase, Seen, Held, Grows, SafeStep;
    PinStep(host.state, Fetch(InGate, head));
    HistoryIsReach(head, head);
    var read := host.Tick();
    if !read || head !in host.state.gate.objects {
      if !inWork { return false; }
      var fetched := host.Tick();
      if !fetched || !Happens(host.state, Fetch(InGate, head)) { return false; }
      AdditiveStepIsSafe(host.state, Fetch(InGate, head));
      host.Do(Fetch(InGate, head));
    }
    PinStep(host.state, CreateAnchor(InGate, Rewritten(id, generation), head));
    ok := PinRewritten(host, InGate, id, generation, head);
  }

  /** anchorSupersededPushHead */
  method PinSuperseded(host: Host, id: string, generation: nat, head: Commit) returns (ok: bool)
    requires host.Valid()
    modifies host
    ensures host.Progress() && host.Steady()
    ensures old(host.Alone()) ==> OnlyPinned(old(host.state), host.state)
    ensures ok ==> Pinned(host.cfg, host.state, id, generation, head)
    ensures old(host.Quiet()) ==> (ok <==> Pinnable(host.cfg, old(host.state), id, generation, head))
  {
    hide LawfulHistory, Play, LogOf, Sound, SoundMergeBase, Seen, Held, Grows, SafeStep;
    var found: bool;
    ok, found := PinInWorktree(host, id, generation, head);
    if !ok { return false; }
    if !host.cfg.gateConfigured { return found; }
    ok := PinInGateToo(host, id, generation, head, found);
  }

  // ---- The rebind --------------------------------------------------------------------

  function BindingOf(cfg: Config, snap: Snapshot, run: Run, live: Commit): Rebinding
    requires snap.run.Some? && snap.run.value.pushed.Some?
  {
    Rebinding(run.status, snap.run.value.pushed.value, GenerationOf(snap.run.value), run.head, run.custody, cfg.target,
              live)
  }

  predicate Published(run: Run) { Terminal(run.status) && run.pushed.Some? && !Unpublished(run) }

  lemma InspectShows(cfg: Config, s: State, branch: string, head: Commit)
    ensures Settled(s.work, branch, head) <==>
      Inspect(cfg, s).Some? && Inspect(cfg, s).value.branch == branch && Inspect(cfg, s).value.head == head &&
      Inspect(cfg, s).value.clean
  {
    hide Selected, Clean;
  }

  /** The live head and the worktree are still what the fresh check saw. */
  method StillRewritten(host: Host, snap: Snapshot, live: Commit) returns (same: bool)
    requires host.Valid()
    modifies host
    ensures host.Progress() && host.Steady()
    ensures old(host.Alone()) ==> host.state == old(host.state)
    ensures old(host.Quiet()) ==>
      (same <==> RemoteHead(host.state, snap.branch) == Some(live) && Settled(host.state.work, snap.branch, snap.head))
    ensures same ==> StillSeen(host.start, host.moves, |old(host.moves)|, snap, live)
  {
    hide LawfulHistory, Play, LogOf, Sound, SoundMergeBase, Seen, Held, Grows, Inspect, Selected, Clean;
    InspectShows(host.cfg, host.state, snap.branch, snap.head);
    var ok1 := host.Tick();
    var again := RemoteHead(host.state, snap.branch);
    ghost var read := host.moves;
    var ok2 := host.Tick();
    var recheck := Inspect(host.cfg, host.state);
    InspectShows(host.cfg, host.state, snap.branch, snap.head);
    assert host.moves[..|read|] == read && host.moves[..|host.moves|] == host.moves;
    same := ok1 && ok2 && again == Some(live) && recheck.Some? && recheck.value.branch == snap.branch &&
            recheck.value.head == snap.head && recheck.value.clean;
  }

  predicate BoundTo(runs: seq<Run>, id: string, live: Commit, generation: nat) {
    FindRun(runs, id).Some? && FindRun(runs, id).value.pushed == Some(live) &&
    GenerationOf(FindRun(runs, id).value) == generation
  }

  /** The compare-and-swap of the binding, with its superseded head anchored. */
  method SwapBinding(host: Host, id: string, b: Rebinding) returns (swapped: bool)
    requires host.Valid() && SupersededAnchored(host.state, id, b)
    modifies host
    ensures host.Progress() && host.Steady()
    ensures old(host.Quiet()) ==> (swapped <==> Happens(old(host.state), Rebind(id, b)))
    ensures swapped ==> SwapMade(host.start, host.moves, |old(host.moves)|, id, b)
    ensures old(host.Alone()) ==> Seen(host.state) == Seen(old(host.state))
    ensures old(host.Alone()) ==>
      host.state.runs == if swapped then RebindRuns(old(host.state).runs, id, b) else old(host.state).runs
  {
    hide LawfulHistory, Play, LogOf, Sound, SoundMergeBase, Seen, Held, SafeStep, Happens;
    swapped := host.Tick();
    host.Later();
    swapped := swapped && Happens(host.state, Rebind(id, b));
    if swapped {
      AdditiveStepIsSafe(host.state, Rebind(id, b));
      QuietStepMovesNoBranch(host.state, Rebind(id, b));
      ghost var before := host.moves;
      host.Do(Rebind(id, b));
      assert host.moves[..|before|] == before;
    }
  }

  /** The row carries the new binding and the run still speaks for the branch. */
  method ConfirmBinding(host: Host, id: string, b: Rebinding) returns (confirmed: bool)
    requires host.Valid()
    modifies host
    ensures host.Progress() && host.Steady()
    ensures old(host.Alone()) ==> host.state == old(host.state)
    ensures confirmed && old(host.Alone()) ==> BoundTo(host.state.runs, id, b.live, b.generation + 1)
    ensures old(host.Quiet()) ==> (confirmed <==> Confirms(host.cfg, host.state, id, b))
  {
    hide LawfulHistory, Play, LogOf, Sound, SoundMergeBase, Held, Grows, Inspect, KindOf;
    var ok1 := host.Tick();
    var seen := Inspect(host.cfg, host.state);
    var ok2 := host.Tick();
    confirmed := ok1 && ok2 && BoundTo(host.state.runs, id, b.live, b.generation + 1) &&
                 seen.Some? && seen.value.run.Some? && seen.value.run.value.id == id &&
                 KindOf(seen.value.run.value) == Bound;
  }

  /** The row carries the new binding, and inspection still picks that run and finds it bound. */
  predicate Confirms(cfg: Config, s: State, id: string, b: Rebinding) {
    BoundTo(s.runs, id, b.live, b.generation + 1) && Inspect(cfg, s).Some? && Inspect(cfg, s).value.run.Some? &&
    Inspect(cfg, s).value.run.value.id == id && KindOf(Inspect(cfg, s).value.run.value) == Bound
  }

  /** The answer to an observable binding: a live one is passed on, a rewritten one is rebound exactly when
      its head can be anchored and nothing changed, and anything else is refused. */
  predicate RewriteAnswered(cfg: Config, keepLocal: bool, s: State, t: State, run: Run, o: Outcome, handled: bool)
    requires Observable(cfg, s, run.id)
  {
    match Observed(cfg, s, run.id)
    case BindingLive => !handled
    case Unproven(code) => handled && !o.recovered && o.code == code
    case RewrittenAt(snap, _, live) =>
      handled &&
      if keepLocal then o.code == KeepLocalNotApplicable && !o.recovered
      else snap.run.Some? && snap.run.value.pushed.Some? &&
           if Rebindable(cfg, Mirrored(cfg, s, run.id), snap, run, live) then
             t.runs == RebindRuns(s.runs, run.id, BindingOf(cfg, snap, run, live)) &&
             o.code == (if Confirms(cfg, t, run.id, BindingOf(cfg, snap, run, live)) then Rebound else OwnershipChanged)
           else !o.recovered && t.runs == s.runs
  }

  lemma ObservedIsPushed(cfg: Config, s: State, id: string)
    requires Observable(cfg, s, id)
    ensures Observed(cfg, s, id).RewrittenAt? ==>
              Observed(cfg, s, id).snap.run.Some? && Observed(cfg, s, id).snap.run.value.pushed.Some?
    ensures Mirrored(cfg, s, id).runs == s.runs
  {}

  /** recoverRemoteRewritten; handled is false when the ordinary recovery decides. */
  method RecoverRemoteRewritten(host: Host, run: Run) returns (o: Outcome, handled: bool)
    requires host.Valid()
    modifies host
    ensures host.Progress() && host.Steady()
    ensures !Published(run) ==>
      !handled && host.state == old(host.state) && host.clock == old(host.clock) && host.moves == old(host.moves)
    ensures o.recovered ==> handled && !host.keepLocal
    ensures o.recovered <==> o.code == Rebound
    ensures o.recovered || IsRefusal(o.code)
    ensures handled ==> Published(run)
    ensures old(host.Alone()) ==> StrandsNothing(old(host.state).runs, host.state.runs)
    ensures old(host.Alone()) ==> Seen(host.state) == Seen(old(host.state))
    ensures old(host.Alone()) && !o.recovered && o.code != OwnershipChanged ==> host.state.runs == old(host.state).runs
    ensures o.code in {Rebound, OwnershipChanged} ==>
      ReboundOn(host.cfg, host.start, host.moves, |old(host.moves)|, run)
    ensures old(host.Quiet()) && Published(run) && !Observable(host.cfg, old(host.state), run.id) ==>
      handled && !o.recovered && host.state.runs == old(host.state).runs
    ensures old(host.Quiet()) && !handled ==> host.state.runs == old(host.state).runs
    ensures old(host.Quiet()) && Published(run) && Observable(host.cfg, old(host.state), run.id) ==>
      RewriteAnswered(host.cfg, host.keepLocal, old(host.state), host.state, run, o, handled)
  {
    hide LawfulHistory, Play, LogOf, Sound, SoundMergeBase, Seen, Held, Grows, SafeStep, Unpublished, StrandsNothing,
         RewriteAnswered, Observable, IsRefusal, ReboundOn;
    o := Blocked(PublishedPath);
    NothingStranded(host.state.runs);
    PathIsRefusal();
    if !Published(run) { return o, false; }
    o, handled := CheckRewritten(host, run);
  }

  lemma PathIsRefusal()
    ensures IsRefusal(PublishedPath) && IsRefusal(KeepLocalNotApplicable)
  {}

  /** The live head of a published run's branch, and what follows from it. */
  method CheckRewritten(host: Host, run: Run) returns (o: Outcome, handled: bool)
    requires host.Valid()
    modifies host
    ensures host.Progress() && host.Steady()
    ensures o.recovered ==> handled && !host.keepLocal
    ensures o.recovered <==> o.code == Rebound
    ensures o.recovered || IsRefusal(o.code)
    ensures old(host.Alone()) ==> StrandsNothing(old(host.state).runs, host.state.runs)
    ensures old(host.Alone()) ==> Seen(host.state) == Seen(old(host.state))
    ensures old(host.Alone()) && !o.recovered && o.code != OwnershipChanged ==> host.state.runs == old(host.state).runs
    ensures o.code in {Rebound, OwnershipChanged} ==>
      ReboundOn(host.cfg, host.start, host.moves, |old(host.moves)|, run)
    ensures old(host.Quiet()) && !Observable(host.cfg, old(host.state), run.id) ==>
      handled && !o.recovered && host.state.runs == old(host.state).runs
    ensures old(host.Quiet()) && !handled ==> host.state.runs == old(host.state).runs
    ensures old(host.Quiet()) && Observable(host.cfg, old(host.state), run.id) ==>
      RewriteAnswered(host.cfg, host.keepLocal, old(host.state), host.state, run, o, handled)
  {
    hide LawfulHistory, Play, LogOf, Sound, SoundMergeBase, Seen, Held, Grows, SafeStep, Inspect, KindOf, Unpublished,
         StrandsNothing, Apply, Refreshable, Rebindable, RebindRuns, Observable, Observed, Mirrored, LiveVerdict,
         Confirms, BindingOf, Pinnable, RewriteSeen, SwappedOn, ReboundOn;
    o := Blocked(PublishedPath);
    NothingStranded(host.state.runs);
    PathIsRefusal();
    if Observable(host.cfg, host.state, run.id) { ObservedIsPushed(host.cfg, host.state, run.id); }
    var answer := Refresh(host, run.id);
    if answer.Unproven? { return Blocked(answer.code), true; }
    if answer.BindingLive? { return o, false; }
    if host.keepLocal { return Blocked(KeepLocalNotApplicable), true; }
    var superseded := answer.snap.run.value.pushed;
    if superseded.None? { return o, true; }
    ghost var seen := host.moves;
    o := RebindTo(host, run, answer.snap, answer.live);
    handled := true;
    if o.code in {Rebound, OwnershipChanged} {
      ReboundRests(host.cfg, host.start, seen, host.moves, |old(host.moves)|, run, answer.snap, answer.row,
                   answer.live);
    }
  }

  lemma ReboundRests(cfg: Config, start: State, seen: seq<Move>, moves: seq<Move>, n: nat, run: Run, snap: Snapshot,
                     row: Run, live: Commit)
    requires seen <= moves && RewriteSeen(cfg, start, seen, n, snap, row, live) && snap.run.value.id == run.id
    requires snap.run.value.pushed.Some? &&
             SwappedOn(start, moves, |seen|, run.id, snap, live, BindingOf(cfg, snap, run, live))
    ensures ReboundOn(cfg, start, moves, n, run)
  {
    hide SwappedOn, BindingOf;
    assert moves[..|seen|] == seen;
  }

  lemma ReboundEarlier(cfg: Config, start: State, moves: seq<Move>, n: nat, m: nat, run: Run)
    requires n <= m && ReboundOn(cfg, start, moves, m, run)
    ensures ReboundOn(cfg, start, moves, n, run)
  {
    hide Play, Inspect, SwappedOn, BindingOf, TargetSeen, BoundRow;
    var snap: Snapshot, row: Run, live: Commit, i: nat :|
      i <= |moves| && RewriteSeen(cfg, start, moves[..i], m, snap, row, live) && snap.run.value.id == run.id &&
      snap.run.value.pushed.Some? &&
      SwappedOn(start, moves, i, run.id, snap, live, BindingOf(cfg, snap, run, live));
    assert RewriteSeen(cfg, start, moves[..i], n, snap, row, live);
  }

  /** When the rebind goes through undisturbed. */
  predicate Rebindable(cfg: Config, s: State, snap: Snapshot, run: Run, live: Commit)
    requires snap.run.Some? && snap.run.value.pushed.Some?
  {
    var b := BindingOf(cfg, snap, run, live);
    Pinnable(cfg, s, run.id, b.generation, b.pushed) && RemoteHead(s, snap.branch) == Some(live) &&
    Settled(s.work, snap.branch, snap.head) && Happens(s, Rebind(run.id, b))
  }

  lemma PinnedSame(s: State, t: State)
    requires OnlyPinned(s, t)
    ensures Seen(t) == Seen(s) && t.runs == s.runs
  {}

  lemma PinnedStillRebindable(cfg: Config, s: State, t: State, snap: Snapshot, run: Run, live: Commit)
    requires snap.run.Some? && snap.run.value.pushed.Some? && OnlyPinned(s, t)
    ensures var b := BindingOf(cfg, snap, run, live);
            (Settled(s.work, snap.branch, snap.head) <==> Settled(t.work, snap.branch, snap.head)) &&
            (Happens(s, Rebind(run.id, b)) <==> Happens(t, Rebind(run.id, b))) &&
              RemoteHead(s, snap.branch) == RemoteHead(t, snap.branch)
  {
    forall n: string ensures Get(s.work.repo.refs, Branch(n)) == Get(t.work.repo.refs, Branch(n)) {
      assert n in Seen(s).work <==> Branch(n) in s.work.repo.refs;
      assert n in Seen(t).work <==> Branch(n) in t.work.repo.refs;
    }
  }

  method RebindTo(host: Host, run: Run, snap: Snapshot, live: Commit) returns (o: Outcome)
    requires host.Valid() && !host.keepLocal && snap.run.Some? && snap.run.value.pushed.Some?
    modifies host
    ensures host.Progress() && host.Steady()
    ensures old(host.Alone()) ==> Seen(host.state) == Seen(old(host.state))
    ensures o.recovered <==> o.code == Rebound
    ensures o.recovered || IsRefusal(o.code)
    ensures old(host.Quiet()) ==>
      if Rebindable(host.cfg, old(host.state), snap, run, live) then
        host.state.runs == RebindRuns(old(host.state).runs, run.id, BindingOf(host.cfg, snap, run, live)) &&
        o.code ==
          (if Confirms(host.cfg, host.state, run.id, BindingOf(host.cfg, snap, run, live)) then Rebound
           else OwnershipChanged)
      else !o.recovered && host.state.runs == old(host.state).runs
    ensures old(host.Alone()) ==> StrandsNothing(old(host.state).runs, host.state.runs)
    ensures old(host.Alone()) && !o.recovered && o.code != OwnershipChanged ==> host.state.runs == old(host.state).runs
    ensures o.code in {Rebound, OwnershipChanged} ==>
      SwappedOn(host.start, host.moves, |old(host.moves)|, run.id, snap, live, BindingOf(host.cfg, snap, run, live))
  {
    hide LawfulHistory, Play, LogOf, Sound, SoundMergeBase, Seen, Held, Grows, Pinned, SupersededAnchored,
         StrandsNothing, Pinnable, OnlyPinned, Happens, Settled, RebindRuns, SafeStep, Inspect, KindOf, Confirms,
         StillSeen, SwapMade, SwappedOn;
    var b := BindingOf(host.cfg, snap, run, live);
    RebindStrandsNothing(host.state.runs, run.id, b);
    NothingStranded(host.state.runs);
    var ok := PinSuperseded(host, run.id, b.generation, b.pushed);
    if old(host.Alone()) {
      PinnedStillRebindable(host.cfg, old(host.state), host.state, snap, run, live);
      PinnedSame(old(host.state), host.state);
    }
    if !ok { return Blocked(PreserveFailed); }
    label Anchored:
    ok := StillRewritten(host, snap, live);
    host.Later@Anchored();
    PinnedStays(host.cfg, old@Anchored(host.state), host.state, run.id, b);
    if !ok { return Blocked(AssumptionsChanged); }
    ghost var still := host.moves;
    o := SwapAndConfirm(host, run.id, b);
    if o.code in {Rebound, OwnershipChanged} {
      SwapRests(host.start, still, host.moves, |old(host.moves)|, |old@Anchored(host.moves)|, run.id, snap, live, b);
    }
  }

  /** The swap was made after the remote and the worktree were seen again as they were. */
  ghost predicate SwappedOn(start: State, moves: seq<Move>, n: nat, id: string, snap: Snapshot, live: Commit,
                            b: Rebinding)
  {
    exists j: nat | j <= |moves| :: StillSeen(start, moves[..j], n, snap, live) && SwapMade(start, moves, j, id, b)
  }

  lemma SwapRests(start: State, still: seq<Move>, moves: seq<Move>, n: nat, i: nat, id: string, snap: Snapshot,
                  live: Commit, b: Rebinding)
    requires still <= moves && n <= i && StillSeen(start, still, i, snap, live)
    requires SwapMade(start, moves, |still|, id, b)
    ensures SwappedOn(start, moves, n, id, snap, live, b)
  {
    hide Play, Settled, SwapMade;
    assert moves[..|still|] == still;
    assert StillSeen(start, still, n, snap, live);
  }

  lemma MadeLater(start: State, before: seq<Move>, after: seq<Move>, n: nat, i: nat, id: string, b: Rebinding)
    requires before <= after && n <= i && SwapMade(start, before, i, id, b)
    ensures SwapMade(start, after, n, id, b)
  {
    hide Play, Happens;
    var m :| i <= m < |before| && before[m] == ByProgram(Rebind(id, b)) &&
             Happens(Play(start, before[..m]), Rebind(id, b));
    assert after[..m] == before[..m];
  }

  /** The swap, and the last look that decides what is reported. */
  method SwapAndConfirm(host: Host, id: string, b: Rebinding) returns (o: Outcome)
    requires host.Valid() && SupersededAnchored(host.state, id, b)
    modifies host
    ensures host.Progress() && host.Steady()
    ensures old(host.Alone()) ==> Seen(host.state) == Seen(old(host.state))
    ensures o.recovered <==> o.code == Rebound
    ensures o.recovered || IsRefusal(o.code)
    ensures o.code in {Rebound, OwnershipChanged} ==>
      SwapMade(host.start, host.moves, |old(host.moves)|, id, b)
    ensures old(host.Alone()) && o.code !in {Rebound, OwnershipChanged} ==> host.state.runs == old(host.state).runs
    ensures old(host.Alone()) && o.code in {Rebound, OwnershipChanged} ==>
      host.state.runs == RebindRuns(old(host.state).runs, id, b)
    ensures old(host.Quiet()) ==>
      o.code == if !Happens(old(host.state), Rebind(id, b)) then AssumptionsChanged
                else if Confirms(host.cfg, host.state, id, b) then Rebound
                else OwnershipChanged
  {
    hide LawfulHistory, Play, LogOf, Sound, SoundMergeBase, Seen, Held, SupersededAnchored, Happens, RebindRuns,
         SafeStep, Confirms, SwapMade;
    var ok := SwapBinding(host, id, b);
    if !ok { return Blocked(AssumptionsChanged); }
    ghost var swapped := host.moves;
    ok := ConfirmBinding(host, id, b);
    MadeLater(host.start, swapped, host.moves, |old(host.moves)|, |old(host.moves)|, id, b);
    o := if ok then Outcome(true, Rebound, false) else Blocked(OwnershipChanged);
  }

  // ---- The history of one run's bindings ------------------------------------------------

  function Generation(s: State, id: string): nat {
    var row := FindRun(s.runs, id);
    if row.Some? then GenerationOf(row.value) else 0
  }

  predicate RowsRenumbered(before: seq<Run>, after: seq<Run>) {
    |after| == |before| &&
    forall i | 0 <= i < |before| ::
      after[i].id == before[i].id && GenerationOf(after[i]) >= GenerationOf(before[i])
  }

  lemma {:induction false} GenerationRises(before: seq<Run>, after: seq<Run>, id: string)
    requires RowsRenumbered(before, after)
    ensures FindRun(before, id).None? <==> FindRun(after, id).None?
    ensures FindRun(before, id).Some? ==>
      GenerationOf(FindRun(after, id).value) >= GenerationOf(FindRun(before, id).value)
  {
    if before != [] && before[0].id != id { GenerationRises(before[1..], after[1..], id); }
  }

  lemma StepRaisesGeneration(s: State, step: Step, id: string)
    ensures Generation(Apply(s, step), id) >= Generation(s, id)
  {
    var t := Apply(s, step);
    assert RowsRenumbered(s.runs, t.runs) by {
      forall i | 0 <= i < |s.runs| ensures t.runs[i].id == s.runs[i].id &&
        GenerationOf(t.runs[i]) >= GenerationOf(s.runs[i]) {}
    }
    GenerationRises(s.runs, t.runs, id);
  }

  /** What a rebind does to a row: it takes only the row whose whole binding, head, status and custody it was told, with
      no push under way, no retired PR and every other run of the branch over; that row gets the live head as its push,
      under the next generation, and follows it if its head was the old push. Every other row stays as it is. */
  lemma RebindTakesExact(s: State, id: string, b: Rebinding, i: nat)
    requires i < |s.runs|
    ensures var before, after := s.runs[i], Apply(s, Rebind(id, b)).runs;
            |after| == |s.runs| &&
            if before.id == id && before.status == b.status && before.pushed == Some(b.pushed) &&
               before.targetKind == Some(b.target.kind) && before.fingerprint == Some(b.target.fingerprint) &&
               before.pushRef == Some(before.branch) && GenerationOf(before) == b.generation && before.head == b.head &&
               before.custody == b.custody && !before.pushActive && !before.retiredPR &&
               (forall r | r in s.runs && r.branch == before.branch && r.id != id :: Terminal(r.status))
            then
              after[i] == before.(pushed := Some(b.live), generation := Some(b.generation + 1),
                                  head := if b.head == b.pushed then b.live else b.head)
            else after[i] == before
  {
    var before := s.runs[i];
    assert (forall r | r in s.runs && r.branch == before.branch && r.id != before.id :: Terminal(r.status)) <==>
           (forall k | 0 <= k < |s.runs| ::
              s.runs[k].branch == before.branch && s.runs[k].id != before.id ==> Terminal(s.runs[k].status));
    assert RebindMatches(s.runs, id, b, before) ==> Happens(s, Rebind(id, b));
  }

  lemma RebindRaisesGeneration(s: State, id: string, b: Rebinding)
    requires DistinctIds(s.runs) && Happens(s, Rebind(id, b))
    ensures Generation(s, id) == b.generation
    ensures Generation(Apply(s, Rebind(id, b)), id) == b.generation + 1
  {
    var i :| 0 <= i < |s.runs| && RebindMatches(s.runs, id, b, s.runs[i]);
    var t := Apply(s, Rebind(id, b));
    FindsRow(s.runs, i);
    StepKeepsTable(s, Rebind(id, b));
    FindsRow(t.runs, i);
  }

  /** A rebind of id that took effect as move k of the history. */
  predicate RebindAt(start: State, moves: seq<Move>, k: nat, id: string) {
    k < |moves| && moves[k].ByProgram? && moves[k].step.Rebind? && moves[k].step.id == id &&
    Happens(Play(start, moves[..k]), moves[k].step)
  }

  /** Whoever else writes run rows does not set this run's push generation back; every push writer raises it. */
  predicate OthersOnlyRaise(start: State, moves: seq<Move>, id: string) {
    forall k | 0 <= k < |moves| && moves[k].ByOther? ::
      Generation(Play(start, moves[..k + 1]), id) >= Generation(Play(start, moves[..k]), id)
  }

  lemma {:induction false} GenerationOverHistory(start: State, moves: seq<Move>, id: string, k: nat, l: nat)
    requires k <= l <= |moves| && OthersOnlyRaise(start, moves, id)
    ensures Generation(Play(start, moves[..l]), id) >= Generation(Play(start, moves[..k]), id)
    decreases l - k
  {
    hide Apply, Act, Happens, Generation, LogOf, Play;
    if k < l {
      GenerationOverHistory(start, moves, id, k, l - 1);
      PlayOne(start, moves, l - 1);
      if moves[l - 1].ByProgram? { StepRaisesGeneration(Play(start, moves[..l - 1]), moves[l - 1].step, id); }
    }
  }

  /** Over any lawful history, with whatever row writes of others in between that do not set its generation back,
      the generations of one run's rebinds strictly rise. */
  lemma GenerationsStrictlyRise(start: State, moves: seq<Move>, id: string, k: nat, l: nat)
    requires Sound(start) && LawfulHistory(false, start, moves) && OthersOnlyRaise(start, moves, id)
    requires k < l && RebindAt(start, moves, k, id) && RebindAt(start, moves, l, id)
    ensures moves[k].step.bind.generation < moves[l].step.bind.generation
  {
    LawfulIsSound(start, moves, k);
    LawfulIsSound(start, moves, l);
    RebindRaisesGeneration(Play(start, moves[..k]), id, moves[k].step.bind);
    PlayOne(start, moves, k);
    RebindRaisesGeneration(Play(start, moves[..l]), id, moves[l].step.bind);
    GenerationOverHistory(start, moves, id, k + 1, l);
  }

  /** A table that keeps every row, wherever it puts it, with no lower generation; new rows may join it. */
  predicate RowsKeepGeneration(before: seq<Run>, after: seq<Run>) {
    forall r | r in before :: exists q | q in after :: q.id == r.id && GenerationOf(q) >= GenerationOf(r)
  }

  lemma WrittenRows(s: State, runs: seq<Run>)
    ensures Act(s, WriteRuns(runs)).runs == if DistinctIds(runs) then runs else s.runs
  {}

  /** Pushes, status updates, custody stamps and new runs all write such tables, so none sets a generation back. */
  lemma RowWriteRaises(s: State, runs: seq<Run>, id: string)
    requires RowsKeepGeneration(s.runs, runs)
    ensures Generation(Act(s, WriteRuns(runs)), id) >= Generation(s, id)
  {
    hide Act, FindRun, DistinctIds;
    WrittenRows(s, runs);
    if DistinctIds(runs) && FindRun(s.runs, id).Some? {
      FoundIsARow(s.runs, id);
      var q :| q in runs && q.id == id && GenerationOf(q) >= GenerationOf(FindRun(s.runs, id).value);
      var i :| 0 <= i < |runs| && runs[i] == q;
      FindsRow(runs, i);
    }
  }

  lemma {:induction false} FoundIsARow(runs: seq<Run>, id: string)
    ensures FindRun(runs, id).Some? ==> FindRun(runs, id).value in runs
  {
    if runs != [] && runs[0].id != id { FoundIsARow(runs[1..], id); }
  }

  lemma LawfulIsSound(start: State, moves: seq<Move>, k: nat)
    requires Sound(start) && LawfulHistory(false, start, moves) && k <= |moves|
    ensures Sound(Play(start, moves[..k])) && Grows(Play(start, moves[..k]), Play(start, moves))
  {
    hide LogOf, LawfulHistory, Warranted;
    AllWellFormed(false, start, moves);
    HistoryGrows(start, moves, k);
    LawfulPrefix(false, start, moves, k);
    AllWellFormed(false, start, moves[..k]);
    HistoryGrows(start, moves[..k], 0);
  }

  /** Every push head a rebind ever superseded is still anchored at the end, under its own
      generation, whoever else acted in between and however often the run was rebound. */
  lemma SupersededHeadsStayAnchored(start: State, moves: seq<Move>, id: string, k: nat)
    requires Sound(start) && LawfulHistory(false, start, moves) && RebindAt(start, moves, k, id)
    ensures SupersededAnchored(Play(start, moves), id, moves[k].step.bind)
  {
    hide LogOf, Warranted;
    LawfulAt(false, start, moves, k);
    LawfulIsSound(start, moves, k);
  }
}
