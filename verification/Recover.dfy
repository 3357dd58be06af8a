/**
 Recover: inspect, decide by the evidence, preserve, move if a guarded move is
 called for, stamp custody last. The final lemmas relate it to what the status
 output offers and show that repeated recoveries drain a stranded stack.
 */
module Recovery {
  import opened Options
  import opened Git
  import opened Refs
  import opened Runs
  import opened World
  import opened Classify
  import opened Machine
  import opened Adopt
  import opened KeepLocal
  import opened Rebind

  // ---- What recovery may do to the run table ----------------------------------------

  /** Other runs' rows are as before or were given back; the recovered run's row was given back. */
  predicate RowsKept(before: seq<Run>, after: seq<Run>, id: string, recovered: bool) {
    |after| == |before| && forall j | 0 <= j < |before| ::
      after[j].id == before[j].id && after[j].branch == before[j].branch &&
      (before[j].id != id ==> after[j] == before[j] || after[j] == before[j].(custody := true)) &&
      (before[j].id == id && recovered ==> after[j].custody)
  }

  lemma RowsKeptTwice(a: seq<Run>, b: seq<Run>, c: seq<Run>, id: string, recovered: bool)
    requires RowsKept(a, b, id, false) && RowsKept(b, c, id, recovered)
    ensures RowsKept(a, c, id, recovered)
  {}

  lemma StampingKeepsRows(runs: seq<Run>, ids: seq<string>, id: string, stamped: bool)
    requires id in ids
    ensures RowsKept(runs, AfterStamp(stamped, runs, ids), id, stamped)
  {}

  // ---- Inspection ---------------------------------------------------------------------

  method InspectNow(host: Host) returns (seen: Option<Snapshot>)
    requires host.Valid()
    modifies host
    ensures host.Progress() && host.Steady()
    ensures old(host.Quiet()) ==> host.state == old(host.state) && seen == Inspect(host.cfg, host.state)
    ensures seen.Some? && seen.value.run.Some? ==>
      seen == Inspect(host.cfg, host.state) && ApprovalKnown(host.log, seen.value.run.value)
  {
    hide LawfulHistory, Play, LogOf, Sound, SoundMergeBase, Held, Grows, Clean, Selected, ApprovalKnown;
    var ok := host.Tick();
    if !ok || CurrentBranch(host.state.work).None? || HeadSha(host.state.work).None? { return None; }
    var branch := CurrentBranch(host.state.work).value;
    var run := SelectRun(EvidenceFor(host.cfg, host.state, branch), host.state.runs);
    seen := Some(Snapshot(branch, HeadSha(host.state.work).value, Clean(host.state.work), run));
    if run.Some? { PickIsKnown(host, branch, run.value); }
  }

  lemma PickIsKnown(host: Host, branch: string, run: Run)
    requires host.Valid() && Selected(EvidenceFor(host.cfg, host.state, branch), host.state.runs) == Some(run)
    ensures ApprovalKnown(host.log, run)
  {
    hide LogOf, Play, LawfulHistory, Sound, Owns, Released, ApprovalsIn;
    if run.reviewApproved.Some? { host.RowsAreApproved(run); }
  }

  /** The worktree is as the snapshot says. */
  predicate Pictured(s: State, snap: Snapshot) {
    AtLocal(s.work, snap.branch, snap.head) && snap.clean == Clean(s.work)
  }

  // ---- Verifying a head whose stamp was lost --------------------------------------------

  lemma ProvedIsStored(cfg: Config, s: State, snap: Snapshot, run: Run)
    requires Sound(s)
    ensures match ProveHead(cfg, s, snap, run)
            case Proved(verified, _, equalTree, descendant, anchored) =>
              verified in s.gate.objects &&
              (equalTree || descendant ==> GateProves(s, snap.branch, run.id, ProveHead(cfg, s, snap, run), anchored))
            case Refused(code) => code != Ok
  {}

  /** What both prepared transactions verify while they hold the gate's ref locks. */
  predicate GateProves(s: State, branch: string, run: string, proof: HeadProof, anchored: bool)
    requires proof.Proved?
  {
    Get(s.gate.refs, Branch(branch)) == Some(proof.gateHead) &&
    Get(s.gate.refs, Recover(run)) == if anchored then Some(proof.verified) else None
  }

  /** The row update a proof calls for. */
  function StampFor(run: Run, proof: HeadProof): Step
    requires proof.Proved?
  {
    if proof.equalTree then StampRewrite(run.id, run.status, run.head, proof.verified)
       else StampHead(run.id, run.status, proof.verified)
  }

  lemma StampTouchesOneRow(s: State, run: Run, proof: HeadProof)
    requires proof.Proved?
    ensures RowsKept(s.runs, Apply(s, StampFor(run, proof)).runs, run.id, false) &&
            SafeStep(s, Apply(s, StampFor(run, proof)))
    ensures Apply(s, StampFor(run, proof)) == s.(runs := Apply(s, StampFor(run, proof)).runs)
  {
    AdditiveStepIsSafe(s, StampFor(run, proof));
  }

  method StampVerified(host: Host, run: Run, proof: HeadProof) returns (ok: bool)
    requires host.Valid() && proof.Proved?
    modifies host
    ensures host.Progress() && host.Steady() && host.clock == old(host.clock)
    ensures host.state == Apply(old(host.state), StampFor(run, proof)) &&
            (ok <==> Happens(old(host.state), StampFor(run, proof)))
  {
    hide LawfulHistory, Play, LogOf, Sound, SoundMergeBase, Held, Grows, SafeStep, RowsKept;
    ok := Happens(host.state, StampFor(run, proof));
    StampTouchesOneRow(host.state, run, proof);
    host.Do(StampFor(run, proof));
  }

  /** Proving a head changes rows, and may create the run's gate anchor at the proved head. */
  ghost predicate OnlyProved(s: State, t: State, run: string, head: Commit) {
    t == s.(runs := t.runs, gate := t.gate) && t.gate.objects == s.gate.objects &&
    (forall r :: r != Recover(run) ==> Get(t.gate.refs, r) == Get(s.gate.refs, r)) &&
    (Get(t.gate.refs, Recover(run)) == Get(s.gate.refs, Recover(run)) ||
     (Get(s.gate.refs, Recover(run)).None? && Get(t.gate.refs, Recover(run)) == Some(head)))
  }

  lemma ProvedNothing(s: State, runs: seq<Run>, run: string, head: Commit)
    ensures OnlyProved(s, s.(runs := runs), run, head)
  {}

  lemma ProvedByAnchor(s: State, run: string, head: Commit)
    ensures OnlyProved(s, Apply(s, CreateAnchor(InGate, Recover(run), head)), run, head)
  {}

  lemma ProvedThenStamped(s: State, t: State, runs: seq<Run>, run: string, head: Commit)
    requires OnlyProved(s, t, run, head)
    ensures OnlyProved(s, t.(runs := runs), run, head)
  {}

  method AnchorUnderLock(host: Host, branch: string, run: string, proof: HeadProof) returns (ok: bool)
    requires host.Valid() && proof.Proved?
    modifies host
    ensures host.Progress() && host.Steady()
    ensures old(host.Quiet()) ==> host.state.runs == old(host.state).runs
    ensures old(host.Quiet()) ==> OnlyProved(old(host.state), host.state, run, proof.verified)
    ensures old(host.Quiet()) && GateProves(old(host.state), branch, run, proof, false) &&
            proof.verified in old(host.state).gate.objects ==>
      ok && GateProves(host.state, branch, run, proof, true)
  {
    hide LawfulHistory, Play, LogOf, Sound, SoundMergeBase, Held, SafeStep, Grows, OnlyProved;
    ProvedNothing(host.state, host.state.runs, run, proof.verified);
    ProvedByAnchor(host.state, run, proof.verified);
    ok := host.Tick();
    if !ok || !GateProves(host.state, branch, run, proof, false) { return false; }
    AdditiveStepIsSafe(host.state, CreateAnchor(InGate, Recover(run), proof.verified));
    host.Do(CreateAnchor(InGate, Recover(run), proof.verified));
  }

  /** Whether the row update of a proof would happen; it depends on the rows alone. */
  predicate RowTakes(runs: seq<Run>, run: Run, proof: HeadProof)
    requires proof.Proved?
  {
    proof.equalTree ==> exists i | 0 <= i < |runs| :: RewriteMatches(run.id, run.status, run.head, runs[i])
  }

  function RowsWith(runs: seq<Run>, run: Run, proof: HeadProof): seq<Run>
    requires proof.Proved?
  {
    if proof.equalTree then RewriteRuns(runs, run.id, run.status, run.head, proof.verified)
    else StampRuns(runs, run.id, run.status, proof.verified)
  }

  lemma StampIsRows(s: State, run: Run, proof: HeadProof)
    requires proof.Proved?
    ensures Happens(s, StampFor(run, proof)) <==> RowTakes(s.runs, run, proof)
    ensures RowTakes(s.runs, run, proof) ==> Apply(s, StampFor(run, proof)).runs == RowsWith(s.runs, run, proof)
  {}

  /** What the stamps do to a row: a proved head ends the push and is recorded as verified with the status it was proved
      under; a rewritten one only in a row that still has that status and the approved head, unverified and not given
      back; a return sets custody in the rows it names. Nothing else of any row changes. */
  lemma StampsExact(s: State, run: Run, proof: HeadProof, ids: seq<string>, i: nat)
    requires i < |s.runs| && proof.Proved?
    ensures var before, after := s.runs[i], Apply(s, StampFor(run, proof)).runs;
            |after| == |s.runs| &&
            after[i] ==
              if before.id != run.id then before
              else if !proof.equalTree then
                before.(status := run.status, head := proof.verified, pushActive := false, verified := true)
              else if before.status == run.status && before.head == run.head && !before.verified && !before.custody &&
                      before.reviewApproved == Some(run.head) then
                before.(head := proof.verified, pushActive := false, verified := true)
              else before
    ensures var after := Apply(s, StampCustody(ids)).runs;
            |after| == |s.runs| && after[i] == if s.runs[i].id in ids then s.runs[i].(custody := true) else s.runs[i]
  {
    if proof.equalTree && RewriteMatches(run.id, run.status, run.head, s.runs[i]) {
      assert Happens(s, StampFor(run, proof));
    }
  }

  /** Re-verify under ref locks, create the anchor if it is missing, then stamp under a second lock. */
  method StampUnderLock(host: Host, snap: Snapshot, run: Run, proof: HeadProof) returns (ok: bool)
    requires host.Valid() && proof.Proved?
    modifies host
    ensures host.Progress() && host.Steady()
    ensures old(host.Quiet()) ==> RowsKept(old(host.state).runs, host.state.runs, run.id, false)
    ensures old(host.Quiet()) ==> OnlyProved(old(host.state), host.state, run.id, proof.verified)
    ensures ok ==> Get(host.state.gate.refs, Recover(run.id)) == Some(proof.verified)
    ensures old(host.Quiet()) && GateProves(old(host.state), snap.branch, run.id, proof, proof.anchored) &&
            proof.verified in old(host.state).gate.objects && RowTakes(old(host.state).runs, run, proof) ==>
      ok && host.state.runs == RowsWith(old(host.state).runs, run, proof)
    ensures old(host.Quiet()) && (!RowTakes(old(host.state).runs, run, proof) ||
            !GateProves(old(host.state), snap.branch, run.id, proof, proof.anchored)) ==>
      !ok
  {
    hide LawfulHistory, Play, LogOf, Sound, SoundMergeBase, Held, Grows, SafeStep, RowsKept, Apply, Happens, RowTakes,
         RowsWith, OnlyProved;
    RowsUnchanged(host.state.runs, run.id);
    ProvedNothing(host.state, host.state.runs, run.id, proof.verified);
    ok := host.Tick();
    if !ok || !GateProves(host.state, snap.branch, run.id, proof, proof.anchored) { return false; }
    if !proof.anchored {
      ok := AnchorUnderLock(host, snap.branch, run.id, proof);
      if !ok { return false; }
    }
    ok := host.Tick();
    if !ok || !GateProves(host.state, snap.branch, run.id, proof, true) { return false; }
    StampTouchesOneRow(host.state, run, proof);
    StampIsRows(host.state, run, proof);
    if old(host.Quiet()) {
      ProvedThenStamped(old(host.state), host.state, Apply(host.state, StampFor(run, proof)).runs, run.id,
                        proof.verified);
    }
    ok := StampVerified(host, run, proof);
  }

  /** The block of Recover for a run whose terminal head was never verified. */
  method VerifyHead(host: Host, snap: Snapshot, run: Run) returns (code: Code, verified: Commit)
    requires host.Valid()
    modifies host
    ensures host.Progress() && host.Steady()
    ensures code == Ok ==> verified in host.state.gate.objects
    ensures code == Ok && !run.verified ==> HeadOf(host.cfg, host.start, host.moves, snap, run, verified)
    ensures old(host.Quiet()) ==> RowsKept(old(host.state).runs, host.state.runs, run.id, false)
    ensures old(host.Quiet()) ==> OnlyProved(old(host.state), host.state, run.id, verified)
    ensures old(host.Quiet()) ==>
      match ProveHead(host.cfg, old(host.state), snap, run)
      case Refused(reason) => code == reason
      case Proved(head, _, _, _, _) =>
        var proof := ProveHead(host.cfg, old(host.state), snap, run);
        (code == Ok <==> Provable(old(host.state), snap, run, proof)) &&
        (code == Ok ==> verified == head && host.state.runs == RowsWith(old(host.state).runs, run, proof))
  {
    hide LawfulHistory, Play, LogOf, Sound, SoundMergeBase, Held, Settled, ProveHead, RowsKept, RowTakes, RowsWith,
         GateProves, OnlyProved;
    verified := run.head;
    RowsUnchanged(host.state.runs, run.id);
    ProvedNothing(host.state, host.state.runs, run.id, run.head);
    var ok := host.Tick();
    var proof := ProveHead(host.cfg, host.state, snap, run);
    if !ok { return UnverifiedHead, verified; }
    ProvedIsStored(host.cfg, host.state, snap, run);
    if proof.Refused? { return proof.code, verified; }
    verified := proof.verified;
    ghost var proved := host.moves;
    assert proved[..|proved|] == proved && Proves(host.cfg, Play(host.start, proved[..|proved|]), snap, run, verified);
    label Proof:
    code := StampProof(host, snap, run, proof);
    if !run.verified { HeadOfLater(host.cfg, host.start, proved, host.moves, snap, run, verified); }
    host.Later@Proof();
    if code == Ok { assert verified in host.state.gate.objects; }
  }

  /** A proof that needs the ref locks also needs the worktree to be settled, whatever the proof itself read. */
  predicate Provable(s: State, snap: Snapshot, run: Run, proof: HeadProof)
    requires proof.Proved?
  {
    (proof.equalTree || proof.descendant ==> Settled(s.work, snap.branch, snap.head)) && RowTakes(s.runs, run, proof)
  }

  method StampProof(host: Host, snap: Snapshot, run: Run, proof: HeadProof) returns (code: Code)
    requires host.Valid() && proof.Proved?
    modifies host
    ensures host.Progress() && host.Steady()
    ensures old(host.Quiet()) ==> RowsKept(old(host.state).runs, host.state.runs, run.id, false)
    ensures old(host.Quiet()) ==> OnlyProved(old(host.state), host.state, run.id, proof.verified)
    ensures old(host.Quiet()) && Provable(old(host.state), snap, run, proof) &&
            proof.verified in old(host.state).gate.objects &&
            (proof.equalTree || proof.descendant ==>
             GateProves(old(host.state), snap.branch, run.id, proof, proof.anchored)) ==>
      code == Ok && host.state.runs == RowsWith(old(host.state).runs, run, proof)
    ensures old(host.Quiet()) && !Provable(old(host.state), snap, run, proof) ==> code != Ok
  {
    hide LawfulHistory, Play, LogOf, Sound, SoundMergeBase, Held, Grows, Settled, RowsKept, RowTakes, RowsWith,
         GateProves, Apply, Happens, OnlyProved;
    RowsUnchanged(host.state.runs, run.id);
    ProvedNothing(host.state, host.state.runs, run.id, proof.verified);
    if proof.equalTree || proof.descendant {
      var ok := StillAsObserved(host, snap.branch, snap.head);
      if !ok { return AssumptionsChanged; }
      ok := StampUnderLock(host, snap, run, proof);
      code := if ok then Ok else AssumptionsChanged;
    } else {
      var ok := host.Tick();
      if !ok { return UnverifiedHead; }
      StampTouchesOneRow(host.state, run, proof);
      StampIsRows(host.state, run, proof);
      ProvedNothing(host.state, Apply(host.state, StampFor(run, proof)).runs, run.id, proof.verified);
      ok := StampVerified(host, run, proof);
      code := if ok then Ok else UnverifiedHead;
    }
  }

  lemma RowsUnchanged(runs: seq<Run>, id: string)
    ensures RowsKept(runs, runs, id, false)
  {}

  // ---- Two offers that fail -------------------------------------------------------------------

  /** A root and an edit on top of it: two heads of the examples below. */
  const ROOT := Commit(0, [], map[])
  const EDIT := Commit(1, [ROOT], map["f" := "x"])

  function FinishedRun(head: Commit, verified: bool): Run {
    Run("r", "b", Completed, head, Some(ROOT), None, None, None, None, None, false, false, None, verified, false, false)
  }

  lemma ExampleHistory(c: Commit)
    ensures Reaches(ROOT, c) <==> c == ROOT
    ensures Reaches(EDIT, c) <==> c == EDIT || c == ROOT
  {
    OnlyParentAbove(ROOT, EDIT, c);
  }

  /** A head the run's own anchor proves, over a worktree with an uncommitted file. */
  function AnchoredButDirty(): State {
    State(Worktree(Repo(map[Branch("b") := ROOT], {ROOT}), On("b"), map[], map["draft" := "text"], false),
          Repo(map[Branch("b") := ROOT, Recover("r") := EDIT], {ROOT, EDIT}), [FinishedRun(EDIT, false)], [], map[])
  }

  /** The proof goes through there, and the head still cannot be recorded. */
  lemma DirtyTreeBlocksProvedHead(cfg: Config)
    requires cfg.gateConfigured
    ensures var s, run := AnchoredButDirty(), FinishedRun(EDIT, false);
            var snap := Snapshot("b", ROOT, false, Some(run));
            Sound(s) && Inspect(cfg, s) == Some(snap) &&
            ProveHead(cfg, s, snap, run) == Proved(EDIT, ROOT, false, true, true) &&
            !Provable(s, snap, run, ProveHead(cfg, s, snap, run))
  {
    forall c ensures Reaches(ROOT, c) <==> c == ROOT { ExampleHistory(c); }
    forall c ensures Reaches(EDIT, c) <==> c == EDIT || c == ROOT { ExampleHistory(c); }
    var s, run := AnchoredButDirty(), FinishedRun(EDIT, false);
    assert FirstOwner(EvidenceFor(cfg, s, "b"), s.runs, 0) == 0;
    assert s.work.files != s.work.index by { assert "draft" in s.work.files; }
  }

  // ---- The reachable head -----------------------------------------------------------------

  predicate BothCompatible(cfg: Config, s: State, run: Run) {
    Compatible(s.work.repo, Recover(run.id), run.head) &&
    (cfg.gateConfigured ==> Compatible(s.gate, Recover(run.id), run.head))
  }

  /** The preserved head is already in the local history: pin it and hand custody back. */
  method ReturnReachable(host: Host, run: Run) returns (o: Outcome)
    requires host.Valid() && host.log.stamps == 0
    modifies host
    ensures host.Progress() && host.log.stamps == if o.recovered then 1 else 0
    ensures host.log.landings == old(host.log.landings)
    ensures old(host.Quiet()) && run.head in old(host.state).work.repo.objects ==>
      (o.recovered <==> BothCompatible(host.cfg, old(host.state), run))
    ensures old(host.Quiet()) ==> RowsKept(old(host.state).runs, host.state.runs, run.id, o.recovered)
  {
    hide LawfulHistory, Play, LogOf, Sound, SoundMergeBase, Held, Grows, RowsKept, ReturnRuns;
    StampingKeepsRows(host.state.runs, [run.id], run.id, true);
    RowsUnchanged(host.state.runs, run.id);
    var ok := host.PreserveAnchor(InWork, Recover(run.id), run.head);
    if !ok { return Blocked(PreserveFailed); }
    ok := host.Tick();
    if !ok || Get(host.state.work.repo.refs, Recover(run.id)) != Some(run.head) { return Blocked(PreserveFailed); }
    if host.cfg.gateConfigured {
      ok := host.Tick();
      if !ok || !Compatible(host.state.gate, Recover(run.id), run.head) { return Blocked(AnchorMismatch); }
    }
    o := Finish(host, [run.id], false);
  }

  // ---- Importing the preserved head from the gate -------------------------------------------

  /** Only the run's own anchors and imported objects were added. */
  ghost predicate OnlyImported(s: State, t: State, run: string) {
    t.runs == s.runs && SameWorktree(s, t) && s.work.repo.objects <= t.work.repo.objects &&
    s.gate.objects <= t.gate.objects &&
    (forall b: string :: Get(t.gate.refs, Branch(b)) == Get(s.gate.refs, Branch(b))) &&
    Get(t.work.repo.refs, RecoverLocal(run)) == Get(s.work.repo.refs, RecoverLocal(run)) &&
    Get(t.gate.refs, RecoverGate(run)) == Get(s.gate.refs, RecoverGate(run))
  }

  lemma ImportStep(s: State, step: Step, run: string)
    requires (step.CreateAnchor? && step.anchor == Recover(run)) || (step.Fetch? && step.side == InWork)
    ensures OnlyImported(s, s, run) && OnlyImported(s, Apply(s, step), run)
    ensures Apply(s, step).gate.objects == s.gate.objects
  {}

  lemma ImportTwice(s: State, t: State, u: State, run: string)
    requires OnlyImported(s, t, run) && OnlyImported(t, u, run)
    ensures OnlyImported(s, u, run)
  {}

  lemma GateAnchorIsStored(s: State, r: Ref)
    requires Sound(s)
    ensures r in s.gate.refs ==> s.gate.refs[r] in s.gate.objects
  {}

  /** The gate's own anchor first: found, or created over an object the gate holds. */
  method PinInGate(host: Host, run: Run) returns (code: Code)
    requires host.Valid()
    modifies host
    ensures host.Progress() && host.Steady()
    ensures code == Ok ==> Get(host.state.gate.refs, Recover(run.id)) == Some(run.head)
    ensures old(host.Quiet()) ==>
      OnlyImported(old(host.state), host.state, run.id) && host.state.work == old(host.state).work
    ensures old(host.Quiet()) ==>
      (code == Ok <==>
       run.head in old(host.state).gate.objects && Compatible(old(host.state).gate, Recover(run.id), run.head))
  {
    hide LawfulHistory, Play, LogOf, Sound, SoundMergeBase, Held, Grows, OnlyImported;
    GateAnchorIsStored(host.state, Recover(run.id));
    ImportStep(host.state, CreateAnchor(InGate, Recover(run.id), run.head), run.id);
    var ok := host.Tick();
    if !ok || !Compatible(host.state.gate, Recover(run.id), run.head) { return AnchorMismatch; }
    if Recover(run.id) in host.state.gate.refs { return Ok; }
    ok := host.Tick();
    if !ok || run.head !in host.state.gate.objects { return HeadMissing; }
    ok := host.PreserveAnchor(InGate, Recover(run.id), run.head);
    code := if ok then Ok else PreserveFailed;
  }

  method FetchPreserved(host: Host, head: Commit) returns (ok: bool)
    requires host.Valid()
    modifies host
    ensures host.Progress() && host.Steady()
    ensures ok ==> head in host.state.work.repo.objects
    ensures old(host.Quiet()) ==>
      host.state == Apply(old(host.state), Fetch(InWork, head)) && (ok <==> head in old(host.state).gate.objects)
  {
    hide LawfulHistory, Play, LogOf, Sound, SoundMergeBase, Held, Grows, SafeStep;
    ok := host.Tick();
    if !ok || !Happens(host.state, Fetch(InWork, head)) { return false; }
    AdditiveStepIsSafe(host.state, Fetch(InWork, head));
    HistoryIsReach(head, head);
    host.Do(Fetch(InWork, head));
  }

  method PinInWork(host: Host, run: Run) returns (code: Code)
    requires host.Valid()
    modifies host
    ensures host.Progress() && host.Steady()
    ensures code == Ok ==> Get(host.state.work.repo.refs, Recover(run.id)) == Some(run.head)
    ensures old(host.Quiet()) ==> OnlyImported(old(host.state), host.state, run.id)
    ensures old(host.Quiet()) && run.head in old(host.state).gate.objects ==>
      (code == Ok <==> Compatible(old(host.state).work.repo, Recover(run.id), run.head))
  {
    hide LawfulHistory, Play, LogOf, Sound, SoundMergeBase, Held, Grows, SafeStep, OnlyImported;
    ImportStep(host.state, Fetch(InWork, run.head), run.id);
    var ok := host.Tick();
    if ok && Get(host.state.work.repo.refs, Recover(run.id)) == Some(run.head) { return Ok; }
    ok := FetchPreserved(host, run.head);
    if !ok { return PreserveFailed; }
    ghost var s := host.state;
    ImportStep(s, CreateAnchor(InWork, Recover(run.id), run.head), run.id);
    ok := host.PreserveAnchor(InWork, Recover(run.id), run.head);
    if old(host.Quiet()) { ImportTwice(old(host.state), s, host.state, run.id); }
    code := if ok then Ok else AnchorMismatch;
  }

  method ImportPreserved(host: Host, run: Run) returns (code: Code)
    requires host.Valid()
    modifies host
    ensures host.Progress() && host.Steady()
    ensures code == Ok ==> Get(host.state.work.repo.refs, Recover(run.id)) == Some(run.head)
    ensures old(host.Quiet()) ==> OnlyImported(old(host.state), host.state, run.id)
    ensures code == Ok ==> Get(host.state.gate.refs, Recover(run.id)) == Some(run.head)
    ensures old(host.Quiet()) && host.cfg.gateConfigured ==>
      (code == Ok <==>
       run.head in old(host.state).gate.objects && BothCompatible(host.cfg, old(host.state), run))
  {
    hide LawfulHistory, Play, LogOf, Sound, SoundMergeBase, Held, Grows, OnlyImported;
    code := PinInGate(host, run);
    ghost var s := host.state;
    if code != Ok { return; }
    label Pinned:
    if old(host.Quiet()) { ImportKeepsObjects(old(host.state), s, run.id); }
    code := PinInWork(host, run);
    host.Later@Pinned();
    AnchorStays(s, host.state, Recover(run.id));
    if old(host.Quiet()) { ImportTwice(old(host.state), s, host.state, run.id); }
  }

  lemma AnchorStays(s: State, t: State, r: Ref)
    requires Grows(s, t) && IsAnchor(r) && r in s.gate.refs
    ensures Get(t.gate.refs, r) == Get(s.gate.refs, r)
  {}

  lemma ImportKeepsObjects(s: State, t: State, run: string)
    requires OnlyImported(s, t, run)
    ensures s.work.repo.objects <= t.work.repo.objects && s.gate.objects <= t.gate.objects && t.runs == s.runs
  {}

  // ---- Equal, ahead, behind or diverged --------------------------------------------------------

  predicate NeedsAdoption(local: Commit, preserved: Commit) { !Reaches(local, preserved) && !Reaches(preserved, local) }

  /** When a plain recovery of an imported head goes through. */
  predicate GoesThrough(s: State, run: Run, local: Commit) {
    NeedsAdoption(local, run.head) ==> Compatible(s.work.repo, RecoverLocal(run.id), local)
  }

  /** What a return of custody rests on, whoever interferes: the preserved head is in the kept one's history, or the
      last look before the stamp saw the branch where it was moved - the lane at the kept head under keep-local, the
      worktree at the preserved head otherwise. */
  ghost predicate Rested(keepLocal: bool, start: State, moves: seq<Move>, branch: string, goal: Goal) {
    Reaches(goal.kept, goal.preserved) ||
    if keepLocal then ReadBack(start, moves, branch, goal.kept) else Adopted(start, moves, goal.preserved)
  }

  /** Where an undisturbed return ends that had to move something. */
  predicate Ended(keepLocal: bool, t: State, branch: string, local: Commit, preserved: Commit) {
    if keepLocal then Returned(t, branch, local) else CleanAt(t.work, preserved)
  }

  /** The dirty-or-move half of the relation switch. */
  method MoveToPreserved(host: Host, snap: Snapshot, run: Run, forward: bool, reviewed: Option<Commit>)
    returns (o: Outcome)
    requires host.Valid() && host.log.stamps == 0 && !host.keepLocal
    requires Get(host.state.work.repo.refs, Recover(run.id)) == Some(run.head)
    requires reviewed.Some? ==> Backed(host.log.vouched, run.id, snap.head, run.head, reviewed)
    modifies host
    ensures host.Progress() && host.log.stamps == if o.recovered then 1 else 0
    ensures Landed(host.start, host.moves, old(host.log.landings), host.log.landings, Goal(run.id, run.head, snap.head),
                   o.recovered)
    ensures o.recovered ==> Adopted(host.start, host.moves, run.head)
    ensures !forward ==>
      BranchLeft(host.state, host.log.written, snap.branch, Get(old(host.state).work.repo.refs, Branch(snap.branch)),
                 snap.head, run.head, run.id)
    ensures old(host.Quiet()) && snap.clean && Settled(old(host.state).work, snap.branch, snap.head) && forward &&
            IsAncestor(old(host.state).work.repo, snap.head, run.head) ==>
      o.recovered
    ensures old(host.Quiet()) && snap.clean && Settled(old(host.state).work, snap.branch, snap.head) && !forward &&
            snap.head in old(host.state).work.repo.objects &&
            (reviewed.Some? || ContainsWork(host.cfg, old(host.state).work.repo, snap.head, run.head)) ==>
      o.code == if Compatible(old(host.state).work.repo, RecoverLocal(run.id), snap.head) then Ok else PreserveFailed
    ensures !snap.clean ==> o.code == Dirty && host.moves == old(host.moves)
    ensures o.recovered <==> o.code == Ok
    ensures old(host.Quiet()) && o.recovered ==> CleanAt(host.state.work, run.head)
    ensures old(host.Quiet()) ==> RowsKept(old(host.state).runs, host.state.runs, run.id, o.recovered)
  {
    hide LawfulHistory, Play, LogOf, Sound, SoundMergeBase, Held, Grows, RowsKept, ReturnRuns, Adopted, CarriesBy,
         Settled, ContainsWork, CleanAt;
    StampingKeepsRows(host.state.runs, [run.id], run.id, true);
    RowsUnchanged(host.state.runs, run.id);
    ghost var before := host.log.landings;
    if !snap.clean { return Blocked(Dirty); }
    if forward {
      o := RecoverFastForward(host, run, snap.branch, snap.head, run.head);
    } else {
      o := AdoptPreserved(host, run, snap.branch, snap.head, run.head, reviewed);
      AdoptionIsLanded(host.start, host.moves, before, host.log.landings, snap.branch, snap.head,
                       Goal(run.id, run.head, snap.head), reviewed, o.recovered);
    }
  }

  method FinishHere(host: Host, run: Run) returns (o: Outcome)
    requires host.Valid() && host.log.stamps == 0
    modifies host
    ensures host.Progress() && host.log.stamps == if o.recovered then 1 else 0
    ensures host.log.landings == old(host.log.landings)
    ensures o.recovered <==> o.code == Ok
    ensures old(host.Quiet()) ==> o.recovered && RowsKept(old(host.state).runs, host.state.runs, run.id, true)
  {
    hide LawfulHistory, Play, LogOf, Sound, SoundMergeBase, Held, Grows, RowsKept, ReturnRuns;
    StampingKeepsRows(host.state.runs, [run.id], run.id, true);
    o := Finish(host, [run.id], false);
  }

  method KeepAtCurrentHead(host: Host, snap: Snapshot, run: Run) returns (o: Outcome)
    requires host.Valid() && host.log.stamps == 0
    modifies host
    ensures host.Progress() && host.log.stamps == if o.recovered then 1 else 0
    ensures Landed(host.start, host.moves, old(host.log.landings), host.log.landings, Goal(run.id, run.head, snap.head),
                   o.recovered)
    ensures o.recovered ==> ReadBack(host.start, host.moves, snap.branch, snap.head)
    ensures old(host.Quiet()) ==>
      (o.recovered <==>
       host.cfg.gateConfigured &&
       Returnable(old(host.state), run.id, snap.branch, snap.head,
                  Get(old(host.state).gate.refs, Branch(snap.branch)), [run.id], [run.head]))
    ensures old(host.Quiet()) && o.recovered ==> Returned(host.state, snap.branch, snap.head)
    ensures old(host.Quiet()) ==> RowsKept(old(host.state).runs, host.state.runs, run.id, o.recovered)
  {
    hide LawfulHistory, Play, LogOf, Sound, SoundMergeBase, Held, Grows, RowsKept, ReturnRuns, ReadBack, Returnable,
         Returned;
    StampingKeepsRows(host.state.runs, [run.id], run.id, true);
    StampingKeepsRows(host.state.runs, [run.id], run.id, false);
    RowsUnchanged(host.state.runs, run.id);
    o := ReturnAtCurrentHead(host, run, snap.branch, snap.head, [run.id], [run.head]);
  }

  /** The decision matrix for an unpublished head, by relation and worktree: what a plain recovery
      answers when nothing interferes. */
  function Matrix(cfg: Config, s: State, snap: Snapshot, run: Run, trusted: bool): Code {
    if Reaches(snap.head, run.head) then Ok
    else if Reaches(run.head, snap.head) then (if snap.clean then Ok else Dirty)
    else if !trusted && !ContainsWork(cfg, s.work.repo, snap.head, run.head) then DivergedHeads
    else if !snap.clean then Dirty
    else if Compatible(s.work.repo, RecoverLocal(run.id), snap.head) then Ok
    else PreserveFailed
  }

  /** The relation switch at the end of Recover. */
  method SettleHeads(host: Host, snap: Snapshot, run: Run, reviewed: Option<Commit>) returns (o: Outcome)
    requires host.Valid() && host.log.stamps == 0
    requires Get(host.state.work.repo.refs, Recover(run.id)) == Some(run.head)
    requires reviewed.Some? ==> Backed(host.log.vouched, run.id, snap.head, run.head, reviewed)
    modifies host
    ensures host.Progress() && host.log.stamps == if o.recovered then 1 else 0
    ensures Landed(host.start, host.moves, old(host.log.landings), host.log.landings, Goal(run.id, run.head, snap.head),
                   o.recovered)
    ensures old(host.Quiet()) && !host.keepLocal &&
            (snap.clean ==> Settled(old(host.state).work, snap.branch, snap.head)) &&
            snap.head in old(host.state).work.repo.objects && run.head in old(host.state).work.repo.objects ==>
      o.code == Matrix(host.cfg, old(host.state), snap, run, reviewed.Some?) && (o.recovered <==> o.code == Ok)
    ensures old(host.Quiet()) && host.keepLocal && Reaches(snap.head, run.head) &&
            snap.head in old(host.state).work.repo.objects &&
            run.head in old(host.state).work.repo.objects ==>
      o.recovered
    ensures old(host.Quiet()) && host.keepLocal && !Reaches(snap.head, run.head) ==>
      (o.recovered <==>
       host.cfg.gateConfigured &&
       Returnable(old(host.state), run.id, snap.branch, snap.head,
                  Get(old(host.state).gate.refs, Branch(snap.branch)), [run.id], [run.head]))
    ensures o.recovered ==>
      Rested(host.keepLocal, host.start, host.moves, snap.branch, Goal(run.id, run.head, snap.head))
    ensures old(host.Quiet()) && o.recovered && !Reaches(snap.head, run.head) ==>
      Ended(host.keepLocal, host.state, snap.branch, snap.head, run.head)
    ensures old(host.Quiet()) ==> RowsKept(old(host.state).runs, host.state.runs, run.id, o.recovered)
  {
    hide LawfulHistory, Play, LogOf, Sound, SoundMergeBase, Held, RowsKept, Adopted, CarriesBy, Settled, ContainsWork,
         ReadBack, Returnable, Returned, CleanAt;
    RowsUnchanged(host.state.runs, run.id);
    if snap.head == run.head { o := FinishHere(host, run); return; }
    var ok := host.Tick();
    if ok && IsAncestor(host.state.work.repo, run.head, snap.head) { o := FinishHere(host, run); return; }
    host.Later();
    o := SettleApart(host, snap, run, reviewed);
  }

  /** Behind or diverged: the rows of the matrix that may move something. */
  method SettleApart(host: Host, snap: Snapshot, run: Run, reviewed: Option<Commit>) returns (o: Outcome)
    requires host.Valid() && host.log.stamps == 0
    requires Get(host.state.work.repo.refs, Recover(run.id)) == Some(run.head)
    requires reviewed.Some? ==> Backed(host.log.vouched, run.id, snap.head, run.head, reviewed)
    modifies host
    ensures host.Progress() && host.log.stamps == if o.recovered then 1 else 0
    ensures Landed(host.start, host.moves, old(host.log.landings), host.log.landings, Goal(run.id, run.head, snap.head),
                   o.recovered)
    ensures old(host.Quiet()) && !host.keepLocal &&
            (snap.clean ==> Settled(old(host.state).work, snap.branch, snap.head)) &&
            snap.head in old(host.state).work.repo.objects && run.head in old(host.state).work.repo.objects &&
            !Reaches(snap.head, run.head) ==>
      o.code == Matrix(host.cfg, old(host.state), snap, run, reviewed.Some?) && (o.recovered <==> o.code == Ok)
    ensures old(host.Quiet()) && host.keepLocal ==>
      (o.recovered <==>
       host.cfg.gateConfigured &&
       Returnable(old(host.state), run.id, snap.branch, snap.head,
                  Get(old(host.state).gate.refs, Branch(snap.branch)), [run.id], [run.head]))
    ensures o.recovered ==>
      if host.keepLocal then ReadBack(host.start, host.moves, snap.branch, snap.head)
      else Adopted(host.start, host.moves, run.head)
    ensures old(host.Quiet()) && o.recovered ==>
      Ended(host.keepLocal, host.state, snap.branch, snap.head, run.head)
    ensures old(host.Quiet()) ==> RowsKept(old(host.state).runs, host.state.runs, run.id, o.recovered)
  {
    hide LawfulHistory, Play, LogOf, Sound, SoundMergeBase, Held, RowsKept, Adopted, CarriesBy, Settled, ContainsWork,
         ReadBack, Returnable, Returned, CleanAt;
    RowsUnchanged(host.state.runs, run.id);
    var ok := host.Tick();
    host.Later();
    var behind := ok && IsAncestor(host.state.work.repo, snap.head, run.head);
    if host.keepLocal { o := KeepAtCurrentHead(host, snap, run); return; }
    if !behind {
      ok := host.Tick();
      host.Later();
      if reviewed.None? && (!ok || !ContainsWork(host.cfg, host.state.work.repo, snap.head, run.head)) {
        return Blocked(DivergedHeads);
      }
    }
    o := MoveToPreserved(host, snap, run, behind, if behind then None else reviewed);
  }

  // ---- The evidence in front of the moves ---------------------------------------------------------

  /** The approved head the row names is on record. */
  predicate ApprovalKnown(log: Log, run: Run) {
    run.reviewApproved.Some? ==> (run.id, run.reviewApproved.value) in log.approved
  }

  /** Anchor, half-adoption and source checks; reviewed is the run's approved head when that head, of equal tree,
      carries the local work. */
  method Preflight(host: Host, snap: Snapshot, run: Run) returns (code: Code, source: Source, reviewed: Option<Commit>)
    requires host.Valid() && ApprovalKnown(host.log, run)
    modifies host
    ensures host.Progress() && host.Steady()
    ensures reviewed.Some? ==> reviewed == run.reviewApproved && CarriesVia(snap.head, run.head, reviewed.value)
    ensures reviewed.Some? ==> Backed(host.log.vouched, run.id, snap.head, run.head, reviewed)
    ensures old(host.Quiet()) ==> host.state == old(host.state)
    ensures old(host.Quiet()) ==> source == FindSource(host.cfg, host.state, snap, run)
    ensures source.FromArchive? ==> ArchivesOf(host.start.archives, run.id) != []
    ensures old(host.Quiet()) ==> (reviewed.Some? <==> Trusted(host.cfg, host.state, snap, run))
    ensures old(host.Quiet()) ==>
      (code == Ok <==>
       Compatible(host.state.work.repo, Recover(run.id), run.head) && !HalfAdopted(host.state, snap, run))
  {
    hide LawfulHistory, Play, LogOf, Sound, Held, Grows, CarriesVia, FindSource, ReviewedProves;
    var ok := host.Tick();
    host.Later();
    reviewed := if ok && Trusted(host.cfg, host.state, snap, run) then run.reviewApproved else None;
    if reviewed.Some? { Vouched(host, snap, run, reviewed.value); }
    label Judged:
    ok := host.Tick();
    var compatible := ok && Compatible(host.state.work.repo, Recover(run.id), run.head);
    ok := host.Tick();
    var half := ok && HalfAdopted(host.state, snap, run);
    ok := host.Tick();
    source := if ok then FindSource(host.cfg, host.state, snap, run) else NoSource(ArchiveStale, true);
    ArchiveIsRecorded(host.cfg, host.state, snap, run);
    code := if !compatible then AnchorMismatch else if half then IncompleteAdoption else Ok;
    host.Later@Judged();
  }

  lemma ArchiveIsRecorded(cfg: Config, s: State, snap: Snapshot, run: Run)
    ensures FindSource(cfg, s, snap, run).FromArchive? ==> ArchivesOf(s.archives, run.id) != []
    ensures ArchivesOf(s.archives, run.id) == [] ==>
      FindSource(cfg, s, snap, run) == Plain || (FindSource(cfg, s, snap, run).NoSource? &&
                                                 !FindSource(cfg, s, snap, run).claimed)
  {}

  /** A verified rewrite whose approved head has the tree of the preserved one and carries the local work. */
  predicate Trusted(cfg: Config, s: State, snap: Snapshot, run: Run) {
    run.verified && run.reviewApproved.Some? && run.reviewApproved.value != run.head &&
    ReviewedProves(cfg, s.gate, snap.head, run.reviewApproved.value, run.head)
  }

  lemma Vouched(host: Host, snap: Snapshot, run: Run, reviewed: Commit)
    requires host.Valid() && ApprovalKnown(host.log, run)
    requires Trusted(host.cfg, host.state, snap, run) && run.reviewApproved == Some(reviewed)
    ensures CarriesVia(snap.head, run.head, reviewed)
    ensures Backed(host.log.vouched, run.id, snap.head, run.head, Some(reviewed))
  {
    hide CarriesVia, LogOf, Play, LawfulHistory, Sound;
    ReviewedProofIsReal(host.cfg, host.state.gate, snap.head, reviewed, run.head);
    host.GateVouches(run.id, reviewed);
  }

  /** A verified archive authorizes keep-local at the required head and nothing else. */
  method ArchiveExit(host: Host, snap: Snapshot, run: Run, rec: Archive) returns (o: Outcome)
    requires host.Valid() && host.log.stamps == 0
    modifies host
    ensures host.Progress() && host.log.stamps == if o.recovered then 1 else 0
    ensures Landed(host.start, host.moves, old(host.log.landings), host.log.landings, Goal(run.id, run.head, snap.head),
                   o.recovered)
    ensures !host.keepLocal ==> !o.recovered && host.moves == old(host.moves)
    ensures old(host.Alone()) && AtLocal(old(host.state).work, snap.branch, snap.head) ==>
      NothingDropped(old(host.state), host.state)
    ensures old(host.Quiet()) ==> RowsKept(old(host.state).runs, host.state.runs, run.id, o.recovered)
    ensures old(host.Quiet()) && host.keepLocal && host.cfg.gateConfigured &&
            Branch(snap.branch) in old(host.state).gate.refs &&
            ArchiveHolds(host.cfg, old(host.state), snap, run.id, rec) && ArchiveSettled(old(host.state).work, rec) &&
            AtLocal(old(host.state).work, snap.branch, snap.head) ==>
      o.recovered
  {
    hide LawfulHistory, Play, LogOf, Sound, SoundMergeBase, Held, Grows, RowsKept, ReturnRuns, ArchiveHolds,
         ArchiveSettled, AtLocal;
    StampingKeepsRows(host.state.runs, [run.id], run.id, true);
    StampingKeepsRows(host.state.runs, [run.id], run.id, false);
    RowsUnchanged(host.state.runs, run.id);
    if !host.keepLocal { return Blocked(ArchiveNeedsKeepLocal); }
    if !host.cfg.gateConfigured { return Blocked(GateUnavailable); }
    var ok := host.Tick();
    var gateHead := Get(host.state.gate.refs, Branch(snap.branch));
    if !ok || gateHead.None? { return Blocked(GateUnavailable); }
    var stuck: bool;
    o, stuck := ReturnFromArchive(host, snap, run.id, snap.head, gateHead.value, rec,
                                  Goal(run.id, run.head, snap.head));
  }

  /** The gate holds a head that descends from the clean local head or contains its work. */
  predicate GateHoldsSuccessor(cfg: Config, s: State, snap: Snapshot, run: Run) {
    cfg.gateConfigured && run.head in s.gate.objects && snap.clean && snap.head in s.gate.objects &&
    (IsAncestor(s.gate, snap.head, run.head) || ContainsWork(cfg, s.gate, snap.head, run.head))
  }

  lemma PlainMeans(cfg: Config, s: State, snap: Snapshot, run: Run)
    requires FindSource(cfg, s, snap, run) == Plain
    ensures BothCompatible(cfg, s, run)
    ensures LocallyEligible(s, snap, run) || GateHoldsSuccessor(cfg, s, snap, run)
    ensures LocallyEligible(s, snap, run) ==> !HalfAdopted(s, snap, run) && Reaches(snap.head, run.head)
  {}

  /** Half an adoption is only visible where the head is locally eligible. */
  lemma HalfAdoptedIsEligible(s: State, snap: Snapshot, run: Run)
    requires Sound(s) && Pictured(s, snap) && HalfAdopted(s, snap, run)
    ensures LocallyEligible(s, snap, run)
  {}

  // ---- What an ordinary recovery needs, said of refs, objects and rows ---------------------------------

  /** The preserved head is already in the local history. */
  predicate InHistory(s: State, run: Run, local: Commit) { run.head in s.work.repo.objects && Reaches(local, run.head) }

  /** head has every change made on local since the merge base of the two. */
  ghost predicate CarriesChanges(cfg: Config, local: Commit, head: Commit) {
    local != head && cfg.mergeBase(local, head).Some? &&
    Carries(cfg.mergeBase(local, head).value.tree, local.tree, head.tree)
  }

  /** Moving the lane to the kept head leaves nothing behind that has no anchor or cannot get one. */
  predicate LaneSafe(s: State, branch: string, run: Run, local: Commit) {
    var lane := Get(s.gate.refs, Branch(branch));
    lane in {None, Some(local), Some(run.head)} || Compatible(s.gate, RecoverGate(run.id), lane.value)
  }

  /** The table has this row, with a verified head. */
  predicate RowIs(s: State, run: Run) { FindRun(s.runs, run.id) == Some(run) && run.verified }

  /** What it takes once the preserved head has to come from the gate: under keep-local that the lane may move and the
      row, its head verified, is still a stranded one; else a clean tree and a head that descends from the local one,
      or carries its changes and finds the local anchor free. */
  ghost predicate Importable(cfg: Config, keepLocal: bool, s: State, snap: Snapshot, run: Run, trusted: bool) {
    cfg.gateConfigured && run.head in s.gate.objects && BothCompatible(cfg, s, run) &&
    if keepLocal then LaneSafe(s, snap.branch, run, snap.head) && Stranded(run)
    else
      Clean(s.work) &&
      (Reaches(run.head, snap.head) ||
       ((trusted || CarriesChanges(cfg, snap.head, run.head)) &&
        Compatible(s.work.repo, RecoverLocal(run.id), snap.head)))
  }

  ghost predicate OrdinaryOpen(cfg: Config, keepLocal: bool, s: State, snap: Snapshot, run: Run, trusted: bool) {
    if InHistory(s, run, snap.head) then BothCompatible(cfg, s, run)
    else Importable(cfg, keepLocal, s, snap, run, trusted)
  }

  lemma ContainsExact(cfg: Config, repo: Repo, local: Commit, head: Commit)
    requires local in repo.objects && head in repo.objects
    ensures ContainsWork(cfg, repo, local, head) <==> CarriesChanges(cfg, local, head)
  {
    if cfg.mergeBase(local, head).Some? { ContainmentExact(cfg.mergeBase(local, head).value, local, head); }
  }

  lemma EligibleIsInHistory(s: State, snap: Snapshot, run: Run)
    requires Sound(s) && Pictured(s, snap)
    ensures snap.head in s.work.repo.objects
    ensures LocallyEligible(s, snap, run) <==> InHistory(s, run, snap.head)
  {}

  /** The state the import leaves, seen from the one it found. */
  lemma ImportedIsReady(s: State, t: State, snap: Snapshot, run: Run)
    requires Sound(t) && OnlyImported(s, t, run.id) && Pictured(s, snap)
    requires Get(t.work.repo.refs, Recover(run.id)) == Some(run.head)
    ensures snap.clean ==> Settled(t.work, snap.branch, snap.head)
    ensures snap.head in t.work.repo.objects && run.head in t.work.repo.objects
  {
    assert Get(t.work.repo.refs, Branch(snap.branch)) == Get(s.work.repo.refs, Branch(snap.branch));
  }

  lemma NotInHistoryYet(s: State, snap: Snapshot, run: Run)
    requires Sound(s) && Pictured(s, snap) && !InHistory(s, run, snap.head)
    ensures !Reaches(snap.head, run.head)
  {}

  /** After the import the return checks out exactly where the lane may move. */
  lemma ImportedIsReturnable(s: State, t: State, snap: Snapshot, run: Run)
    requires Sound(t) && OnlyImported(s, t, run.id) && Pictured(s, snap) && RowIs(s, run)
    requires Get(t.work.repo.refs, Recover(run.id)) == Some(run.head)
    requires Get(t.gate.refs, Recover(run.id)) == Some(run.head)
    ensures Returnable(t, run.id, snap.branch, snap.head, Get(t.gate.refs, Branch(snap.branch)), [run.id], [run.head])
            <==> LaneSafe(s, snap.branch, run, snap.head) && Stranded(run)
  {
    var lane := Get(t.gate.refs, Branch(snap.branch));
    assert lane == Get(s.gate.refs, Branch(snap.branch));
    assert Get(t.gate.refs, RecoverGate(run.id)) == Get(s.gate.refs, RecoverGate(run.id));
    assert Get(t.work.repo.refs, Branch(snap.branch)) == Get(s.work.repo.refs, Branch(snap.branch));
    assert [run.id][0] == run.id && [run.head][0] == run.head;
    HeadsAreStored(t, snap.branch, snap.head);
    assert forall c :: c in [run.head] <==> c == run.head;
  }

  /** After the import the decision matrix answers Ok exactly where this much holds. */
  lemma ImportedMatrix(cfg: Config, s: State, t: State, snap: Snapshot, run: Run, trusted: bool)
    requires Sound(t) && OnlyImported(s, t, run.id) && Pictured(s, snap) && !Reaches(snap.head, run.head)
    requires snap.head in t.work.repo.objects && run.head in t.work.repo.objects
    ensures Matrix(cfg, t, snap, run, trusted) == Ok <==>
      Clean(s.work) &&
      (Reaches(run.head, snap.head) ||
       ((trusted || CarriesChanges(cfg, snap.head, run.head)) &&
        Compatible(s.work.repo, RecoverLocal(run.id), snap.head)))
  {
    ContainsExact(cfg, t.work.repo, snap.head, run.head);
    assert Get(t.work.repo.refs, RecoverLocal(run.id)) == Get(s.work.repo.refs, RecoverLocal(run.id));
  }

  /** Where status offers a plain recovery, what is left to ask is the anchor for the local head. */
  lemma PlainIsOpen(cfg: Config, s: State, snap: Snapshot, run: Run, trusted: bool)
    requires Sound(s) && Pictured(s, snap) && FindSource(cfg, s, snap, run) == Plain
    ensures OrdinaryOpen(cfg, false, s, snap, run, trusted) <==> GoesThrough(s, run, snap.head)
  {
    hide FindSource, ContainsWork;
    PlainMeans(cfg, s, snap, run);
    EligibleIsInHistory(s, snap, run);
    if !InHistory(s, run, snap.head) { ContainsExact(cfg, s.gate, snap.head, run.head); }
  }

  /** Reachable locally, or imported from the gate and then settled. */
  method RecoverOrdinary(host: Host, snap: Snapshot, run: Run, reviewed: Option<Commit>) returns (o: Outcome)
    requires host.Valid() && host.log.stamps == 0
    requires reviewed.Some? ==> Backed(host.log.vouched, run.id, snap.head, run.head, reviewed)
    modifies host
    ensures host.Progress() && host.log.stamps == if o.recovered then 1 else 0
    ensures Landed(host.start, host.moves, old(host.log.landings), host.log.landings, Goal(run.id, run.head, snap.head),
                   o.recovered)
    ensures o.recovered ==>
      Rested(host.keepLocal, host.start, host.moves, snap.branch, Goal(run.id, run.head, snap.head))
    ensures old(host.Quiet()) && Pictured(old(host.state), snap) &&
            (host.keepLocal ==> RowIs(old(host.state), run)) ==>
      (o.recovered <==> OrdinaryOpen(host.cfg, host.keepLocal, old(host.state), snap, run, reviewed.Some?))
    ensures old(host.Quiet()) && Pictured(old(host.state), snap) && o.recovered &&
            !InHistory(old(host.state), run, snap.head) ==>
      Ended(host.keepLocal, host.state, snap.branch, snap.head, run.head)
    ensures old(host.Quiet()) ==> RowsKept(old(host.state).runs, host.state.runs, run.id, o.recovered)
  {
    hide LawfulHistory, Play, LogOf, Sound, SoundMergeBase, Held, Grows, RowsKept, CarriesBy, ContainsWork, Settled,
         Pictured, LocallyEligible, BothCompatible, MovedOnce, LaneSafe, RowIs, CarriesChanges, Ended, Adopted,
         ReadBack, InHistory;
    ghost var s := host.state;
    if Pictured(s, snap) { EligibleIsInHistory(s, snap, run); }
    RowsUnchanged(s.runs, run.id);
    var ok := host.Tick();
    if ok && LocallyEligible(host.state, snap, run) {
      EligibleIsStored(host.state, snap, run);
      o := ReturnReachable(host, run);
      return;
    }
    if !host.cfg.gateConfigured { return Blocked(GateUnavailable); }
    host.Later();
    o := ImportAndSettle(host, snap, run, reviewed);
  }

  /** Bring the preserved head over from the gate, then settle the two heads. */
  method ImportAndSettle(host: Host, snap: Snapshot, run: Run, reviewed: Option<Commit>) returns (o: Outcome)
    requires host.Valid() && host.log.stamps == 0 && host.cfg.gateConfigured
    requires reviewed.Some? ==> Backed(host.log.vouched, run.id, snap.head, run.head, reviewed)
    modifies host
    ensures host.Progress() && host.log.stamps == if o.recovered then 1 else 0
    ensures Landed(host.start, host.moves, old(host.log.landings), host.log.landings, Goal(run.id, run.head, snap.head),
                   o.recovered)
    ensures o.recovered ==>
      Rested(host.keepLocal, host.start, host.moves, snap.branch, Goal(run.id, run.head, snap.head))
    ensures old(host.Quiet()) && Pictured(old(host.state), snap) && !InHistory(old(host.state), run, snap.head) &&
            (host.keepLocal ==> RowIs(old(host.state), run)) ==>
      (o.recovered <==> Importable(host.cfg, host.keepLocal, old(host.state), snap, run, reviewed.Some?))
    ensures old(host.Quiet()) && Pictured(old(host.state), snap) && o.recovered &&
            !InHistory(old(host.state), run, snap.head) ==>
      Ended(host.keepLocal, host.state, snap.branch, snap.head, run.head)
    ensures old(host.Quiet()) ==> RowsKept(old(host.state).runs, host.state.runs, run.id, o.recovered)
  {
    hide LawfulHistory, Play, LogOf, Sound, SoundMergeBase, Held, Grows, RowsKept, CarriesBy, ContainsWork, Settled,
         OnlyImported, Pictured, BothCompatible, Matrix, MovedOnce, LaneSafe, RowIs, CarriesChanges, Ended, Rested,
         Returnable, InHistory, Clean;
    ghost var s := host.state;
    RowsUnchanged(s.runs, run.id);
    var code := ImportPreserved(host, run);
    if old(host.Quiet()) { ImportKeepsObjects(s, host.state, run.id); }
    if code != Ok { return Blocked(code); }
    if old(host.Quiet()) && Pictured(s, snap) && !InHistory(s, run, snap.head) {
      NotInHistoryYet(s, snap, run);
      ImportedIsReady(s, host.state, snap, run);
      ImportedMatrix(host.cfg, s, host.state, snap, run, reviewed.Some?);
      if RowIs(s, run) { ImportedIsReturnable(s, host.state, snap, run); }
    }
    host.Later();
    o := SettleHeads(host, snap, run, reviewed);
  }

  lemma EligibleIsStored(s: State, snap: Snapshot, run: Run)
    requires LocallyEligible(s, snap, run)
    ensures run.head in s.work.repo.objects && Reaches(snap.head, run.head)
  {}

  lemma ArchiveMeans(cfg: Config, s: State, snap: Snapshot, run: Run)
    requires FindSource(cfg, s, snap, run).FromArchive? && Pictured(s, snap) && FindRun(s.runs, run.id) == Some(run)
    ensures var rec := FindSource(cfg, s, snap, run).record;
            ArchiveHolds(cfg, s, snap, run.id, rec) && ArchiveSettled(s.work, rec) &&
            AtLocal(s.work, snap.branch, snap.head)
    ensures cfg.gateConfigured && Branch(snap.branch) in s.gate.refs
    ensures Compatible(s.work.repo, Recover(run.id), run.head) && !HalfAdopted(s, snap, run)
  {}

  /** What a return of custody rests on once bound archives are allowed for. */
  ghost predicate RestedOrArchived(keepLocal: bool, start: State, moves: seq<Move>, branch: string, goal: Goal) {
    Rested(keepLocal, start, moves, branch, goal) || (keepLocal && ArchivesOf(start.archives, goal.run) != [])
  }

  /** Recover from the point where the terminal head is verified. */
  method RecoverVerified(host: Host, snap: Snapshot, run: Run) returns (o: Outcome)
    requires host.Valid() && host.log.stamps == 0 && ApprovalKnown(host.log, run)
    modifies host
    ensures host.Progress() && host.log.stamps == if o.recovered then 1 else 0
    ensures Landed(host.start, host.moves, old(host.log.landings), host.log.landings, Goal(run.id, run.head, snap.head),
                   o.recovered)
    ensures o.recovered ==>
      RestedOrArchived(host.keepLocal, host.start, host.moves, snap.branch, Goal(run.id, run.head, snap.head))
    ensures old(host.Quiet()) && !host.keepLocal && FindSource(host.cfg, old(host.state), snap, run) == Plain &&
            Pictured(old(host.state), snap) ==>
      (o.recovered <==> GoesThrough(old(host.state), run, snap.head))
    ensures old(host.Quiet()) && host.keepLocal && FindSource(host.cfg, old(host.state), snap, run).FromArchive? &&
            Pictured(old(host.state), snap) && FindRun(old(host.state).runs, run.id) == Some(run) ==>
      o.recovered
    ensures old(host.Quiet()) && Pictured(old(host.state), snap) &&
            ArchivesOf(old(host.state).archives, run.id) == [] &&
            (host.keepLocal ==> RowIs(old(host.state), run)) ==>
      (o.recovered <==> VerifiedOpen(host.cfg, host.keepLocal, old(host.state), snap, run))
    ensures old(host.Quiet()) && Pictured(old(host.state), snap) &&
            ArchivesOf(old(host.state).archives, run.id) == [] &&
            o.recovered && !InHistory(old(host.state), run, snap.head) ==>
      Ended(host.keepLocal, host.state, snap.branch, snap.head, run.head)
    ensures old(host.Quiet()) ==> RowsKept(old(host.state).runs, host.state.runs, run.id, o.recovered)
  {
    hide LawfulHistory, Play, LogOf, Sound, SoundMergeBase, Held, Grows, RowsKept, CarriesBy, FindSource, HalfAdopted,
         ArchiveHolds, ArchiveSettled, AtLocal, Pictured, GoesThrough, Rested, RowIs, OrdinaryOpen, InHistory,
         Ended, MovedOnce;
    ghost var s := host.state;
    EvidenceAgrees(host.cfg, s, snap, run);
    RowsUnchanged(s.runs, run.id);
    ArchiveIsRecorded(host.cfg, s, snap, run);
    if !BothCompatible(host.cfg, s, run) { NotOpen(host.cfg, host.keepLocal, s, snap, run); }
    if Pictured(s, snap) && FindSource(host.cfg, s, snap, run) == Plain {
      PlainIsOpen(host.cfg, s, snap, run, Trusted(host.cfg, s, snap, run));
    }
    var code, source, reviewed := Preflight(host, snap, run);
    if code != Ok { return Blocked(code); }
    match source {
      case NoSource(reason, true) => o := Blocked(reason);
      case FromArchive(rec) => o := ArchiveExit(host, snap, run, rec);
      case _ => o := RecoverOrdinary(host, snap, run, reviewed);
    }
  }

  ghost predicate VerifiedOpen(cfg: Config, keepLocal: bool, s: State, snap: Snapshot, run: Run) {
    !HalfAdopted(s, snap, run) && OrdinaryOpen(cfg, keepLocal, s, snap, run, Trusted(cfg, s, snap, run))
  }

  lemma NotOpen(cfg: Config, keepLocal: bool, s: State, snap: Snapshot, run: Run)
    requires !BothCompatible(cfg, s, run)
    ensures !VerifiedOpen(cfg, keepLocal, s, snap, run)
  {}

  lemma EvidenceAgrees(cfg: Config, s: State, snap: Snapshot, run: Run)
    requires Sound(s)
    ensures FindSource(cfg, s, snap, run) == Plain && Pictured(s, snap) ==>
              Compatible(s.work.repo, Recover(run.id), run.head) && !HalfAdopted(s, snap, run)
    ensures FindSource(cfg, s, snap, run).FromArchive? && Pictured(s, snap) && FindRun(s.runs, run.id) == Some(run) ==>
              ArchiveHolds(cfg, s, snap, run.id, FindSource(cfg, s, snap, run).record) &&
              ArchiveSettled(s.work, FindSource(cfg, s, snap, run).record) && AtLocal(s.work, snap.branch, snap.head) &&
              cfg.gateConfigured && Branch(snap.branch) in s.gate.refs &&
              Compatible(s.work.repo, Recover(run.id), run.head) && !HalfAdopted(s, snap, run)
  {
    hide Compatible, HalfAdopted, AtLocal, FindSource, Sound;
    if FindSource(cfg, s, snap, run) == Plain && Pictured(s, snap) {
      PlainMeans(cfg, s, snap, run);
      if HalfAdopted(s, snap, run) { HalfAdoptedIsEligible(s, snap, run); }
    }
    if FindSource(cfg, s, snap, run).FromArchive? && Pictured(s, snap) && FindRun(s.runs, run.id) == Some(run) {
      ArchiveMeans(cfg, s, snap, run);
    }
  }

  // ---- The command itself ---------------------------------------------------------------------------

  function StackOf(cfg: Config, s: State, branch: string): seq<Run> {
    if cfg.gateConfigured then Stack(EvidenceFor(cfg, s, branch), s.runs) else []
  }

  lemma PickIsARow(cfg: Config, s: State)
    requires Sound(s) && Inspect(cfg, s).Some? && Inspect(cfg, s).value.run.Some?
    ensures var snap := Inspect(cfg, s).value; var run := snap.run.value;
            Pictured(s, snap) && run in s.runs && run.branch == snap.branch && FindRun(s.runs, run.id) == Some(run)
  {
    var snap := Inspect(cfg, s).value;
    var ev := EvidenceFor(cfg, s, snap.branch);
    var owner := FirstOwner(ev, s.runs, 0);
    var k := if owner < |s.runs| then owner else FirstReleased(ev, s.runs, 0);
    FindsRow(s.runs, k);
  }

  /** An eligible stack passes every check of the keep-local return. */
  lemma EligibleStackIsReturnable(cfg: Config, s: State, snap: Snapshot, run: Run)
    requires Sound(s) && Pictured(s, snap) && cfg.gateConfigured
    requires AllEligible(s, snap, run, StackOf(cfg, s, snap.branch))
    ensures var stack := StackOf(cfg, s, snap.branch);
            Returnable(s, run.id, snap.branch, snap.head, Get(s.gate.refs, Branch(snap.branch)), Ids(stack),
                       Heads(stack))
  {
    var stack := StackOf(cfg, s, snap.branch);
    var ev := EvidenceFor(cfg, s, snap.branch);
    forall j | 0 <= j < |stack| ensures CandidateOk(s, Ids(stack)[j], Heads(stack)[j]) {
      StackMembership(ev, s.runs, 0, stack[j]);
      var k :| 0 <= k < |s.runs| && InStack(ev, s.runs, k) && s.runs[k] == stack[j];
      FindsRow(s.runs, k);
      assert EligibleRun(s, stack[j]);
    }
  }

  /** A run that still holds its branch at the end is stranded unless its head counts as published. */
  lemma OwnedIsStranded(run: Run)
    requires KindOf(run) == PipelineOwned && Terminal(run.status)
    ensures !run.custody && (Stranded(run) <==> !Published(run))
  {}

  /** The columns of a push binding are set together or not at all. */
  predicate BindingWhole(run: Run) {
    if run.pushed.Some? then run.targetKind.Some? && run.fingerprint.Some? && run.pushRef.Some? && run.generation.Some?
    else run.targetKind.None? && run.fingerprint.None? && run.pushRef.None? && run.generation.None?
  }

  /** UpdateRunPushBinding, and UpdateRunPublication when published: one update sets the whole binding. */
  function PushBound(run: Run, head: Commit, target: Target, ref: string, published: bool): Run {
    run.(head := if published then head else run.head, pushed := Some(head), targetKind := Some(target.kind),
         fingerprint := Some(target.fingerprint), pushRef := Some(ref), generation := Some(GenerationOf(run) + 1))
  }

  lemma StepKeepsLength(s: State, step: Step)
    ensures |Apply(s, step).runs| == |s.runs|
  {}

  lemma StepKeepsRow(s: State, step: Step, i: nat)
    requires |Apply(s, step).runs| == |s.runs| && i < |s.runs|
    ensures BindingWhole(s.runs[i]) ==> BindingWhole(Apply(s, step).runs[i])
  {}

  /** No writer tears a binding apart: the push writers set it whole, and no step of a recovery breaks one. */
  lemma BindingsStayWhole(run: Run, head: Commit, target: Target, ref: string, published: bool, s: State, step: Step)
    requires forall r | r in s.runs :: BindingWhole(r)
    ensures BindingWhole(PushBound(run, head, target, ref, published))
    ensures forall r | r in Apply(s, step).runs :: BindingWhole(r)
  {
    StepKeepsLength(s, step);
    hide Apply;
    var t := Apply(s, step);
    forall r | r in t.runs ensures BindingWhole(r) {
      var i :| 0 <= i < |t.runs| && t.runs[i] == r;
      assert s.runs[i] in s.runs;
      StepKeepsRow(s, step, i);
    }
  }

  /** So of rows as the writers leave them, a terminal run that holds its branch is always stranded. */
  lemma WholeBindingIsStranded(run: Run)
    requires KindOf(run) == PipelineOwned && Terminal(run.status) && BindingWhole(run)
    ensures Stranded(run)
  {}

  method PreflightStack(host: Host, snap: Snapshot, run: Run) returns (stack: seq<Run>, missing: bool, eligible: bool)
    requires host.Valid()
    modifies host
    ensures host.Progress() && host.Steady()
    ensures old(host.Quiet()) ==> host.state == old(host.state)
    ensures missing ==> host.cfg.gateConfigured && stack == StackOf(host.cfg, host.state, snap.branch)
    ensures missing ==> (eligible <==> AllEligible(host.state, snap, run, stack))
    ensures old(host.Quiet()) ==> (missing <==> AnyMissing(host.state, StackOf(host.cfg, host.state, snap.branch)))
  {
    hide LawfulHistory, Play, LogOf, Sound, SoundMergeBase, Held, Grows, Stack, MissingHead, EligibleRun, GateHeadSafe;
    var ok := host.Tick();
    stack := [];
    if ok && host.cfg.gateConfigured {
      stack := CollectStack(EvidenceFor(host.cfg, host.state, snap.branch), host.state.runs);
    }
    missing := AnyMissing(host.state, stack);
    eligible := AllEligible(host.state, snap, run, stack);
  }

  /** The whole stranded stack at once, when some head in it no longer exists anywhere. */
  method ReturnStack(host: Host, snap: Snapshot, run: Run, stack: seq<Run>) returns (o: Outcome)
    requires host.Valid() && host.log.stamps == 0 && host.cfg.gateConfigured &&
             stack == StackOf(host.cfg, host.state, snap.branch)
    modifies host
    ensures host.Progress() && host.log.stamps == if o.recovered then 1 else 0
    ensures Landed(host.start, host.moves, old(host.log.landings), host.log.landings, Goal(run.id, run.head, snap.head),
                   o.recovered)
    ensures o.recovered ==> ReadBack(host.start, host.moves, snap.branch, snap.head)
    ensures old(host.Quiet()) && Pictured(old(host.state), snap) && AllEligible(old(host.state), snap, run, stack) ==>
      o.recovered
    ensures old(host.Quiet()) && o.recovered ==> Returned(host.state, snap.branch, snap.head)
    ensures old(host.Quiet()) && Inspect(host.cfg, old(host.state)) == Some(snap) && snap.run == Some(run) &&
            Stranded(run) ==>
      RowsKept(old(host.state).runs, host.state.runs, run.id, o.recovered)
  {
    hide LawfulHistory, Play, LogOf, SoundMergeBase, Held, Grows, Stack, AllEligible, ReadBack, Returnable, RowsKept,
         ReturnRuns, Pictured, CandidatesOk;
    var ids := Ids(stack);
    if Pictured(host.state, snap) && AllEligible(host.state, snap, run, stack) {
      EligibleStackIsReturnable(host.cfg, host.state, snap, run);
    }
    RowsUnchanged(host.state.runs, run.id);
    if Inspect(host.cfg, host.state) == Some(snap) && snap.run == Some(run) && Stranded(run) {
      StrandedPickHeadsStack(EvidenceFor(host.cfg, host.state, snap.branch), host.state.runs);
      assert ids[0] == run.id;
      StampingKeepsRows(host.state.runs, ids, run.id, true);
    }
    o := ReturnAtCurrentHead(host, run, snap.branch, snap.head, ids, Heads(stack));
  }

  // ---- What proves an unverified head ------------------------------------------------------------------

  /** The gate branch carries another commit with the tree of the approved recorded head, over a clean worktree whose
      work that head has. */
  ghost predicate RewrittenAlike(cfg: Config, s: State, snap: Snapshot, run: Run, lane: Commit) {
    run.head in s.gate.objects && run.head.tree == lane.tree && Clean(s.work) && run.reviewApproved == Some(run.head) &&
    (Reaches(run.head, snap.head) || (snap.head in s.gate.objects && CarriesChanges(cfg, snap.head, run.head)))
  }

  /** A head nobody verified is proved by the gate branch at or above it, by its own anchor above the gate branch, or by
      an approved rewrite with its tree; what is proved is the gate head, except in the second case. */
  lemma ProofExact(cfg: Config, s: State, snap: Snapshot, run: Run)
    requires Sound(s) && Pictured(s, snap)
    ensures var proof := ProveHead(cfg, s, snap, run);
            var lane, anchor := Get(s.gate.refs, Branch(snap.branch)), Get(s.gate.refs, Recover(run.id));
            if !cfg.gateConfigured || lane.None? then proof == Refused(UnverifiedHead)
            else if Reaches(lane.value, run.head) then proof.Proved? && proof.verified == lane.value
            else if anchor == Some(run.head) && Reaches(run.head, lane.value) then
              proof.Proved? && proof.verified == run.head
            else if !RewrittenAlike(cfg, s, snap, run, lane.value) then proof == Refused(UnverifiedHead)
            else if anchor !in {None, lane} then proof == Refused(AnchorMismatch)
            else proof.Proved? && proof.verified == lane.value
  {
    GateAnchorIsStored(s, Branch(snap.branch));
    GateAnchorIsStored(s, Recover(run.id));
    if snap.head in s.gate.objects && run.head in s.gate.objects { ContainsExact(cfg, s.gate, snap.head, run.head); }
  }

  // ---- What it takes to get custody back --------------------------------------------------------------

  /** A terminal run that holds its branch, on a row as the push writers leave them. */
  predicate Stuck(run: Run) { Stranded(run) && !run.pushActive && !run.pushStepBusy && BindingWhole(run) }

  lemma StuckHoldsBranch(run: Run)
    requires Stuck(run)
    ensures KindOf(run) == PipelineOwned && Terminal(run.status) && !Published(run) && !run.custody
  {}

  /** The branch is at the preserved head while its files are not: an adoption stopped half-way. */
  predicate HalfWay(s: State, run: Run, local: Commit) {
    Get(s.work.repo.refs, RecoverLocal(run.id)) !in {None, Some(run.head)} && local == run.head && !Clean(s.work)
  }

  /** Another head was approved for the run, the gate holds it with the tree of the preserved one, and it descends from
      the local head or carries its changes. */
  ghost predicate TrustedRewrite(cfg: Config, s: State, run: Run, local: Commit) {
    run.reviewApproved !in {None, Some(run.head)} &&
    var head := run.reviewApproved.value;
    head.tree == run.head.tree && {local, head, run.head} <= s.gate.objects &&
    (Reaches(head, local) || CarriesChanges(cfg, local, head))
  }

  predicate Gone(s: State, head: Commit) { head !in s.work.repo.objects && head !in s.gate.objects }

  /** Some verified head of the stranded stack exists nowhere any more. */
  predicate HeadGone(cfg: Config, s: State, branch: string) {
    exists r | r in StackOf(cfg, s, branch) :: r.verified && Gone(s, r.head)
  }

  /** The whole stack checks out, and the lane holds nothing that would be left without an anchor. */
  predicate StackOpen(cfg: Config, s: State, snap: Snapshot, run: Run) {
    var stack, lane := StackOf(cfg, s, snap.branch), Get(s.gate.refs, Branch(snap.branch));
    (forall r | r in stack :: r.verified && BothCompatible(cfg, s, r)) &&
    (lane in {None, Some(snap.head)} || (exists r | r in stack :: lane == Some(r.head)) ||
     Compatible(s.gate, RecoverGate(run.id), lane.value))
  }

  /** The head recovery preserves: the verified one, or the one that can be proved and recorded in its place. */
  ghost function HeadInHand(cfg: Config, s: State, snap: Snapshot, run: Run): Option<Commit> {
    var lane, anchor := Get(s.gate.refs, Branch(snap.branch)), Get(s.gate.refs, Recover(run.id));
    if run.verified then Some(run.head)
    else if !cfg.gateConfigured || lane.None? then None
    else if Reaches(lane.value, run.head) then lane
    else if anchor == Some(run.head) && Reaches(run.head, lane.value) then
      if Clean(s.work) then Some(run.head) else None
    else if RewrittenAlike(cfg, s, snap, run, lane.value) && anchor in {None, lane} then lane
    else None
  }

  function WithHead(run: Run, head: Commit): Run { run.(head := head, verified := true) }

  /** When this run alone, its head in hand, can be given back. */
  ghost predicate Reclaimable(cfg: Config, keepLocal: bool, s: State, snap: Snapshot, run: Run) {
    !HalfWay(s, run, snap.head) &&
    OrdinaryOpen(cfg, keepLocal, s, snap, run, TrustedRewrite(cfg, s, run, snap.head))
  }

  /** When custody of a stuck run without archive can be had back: under keep-local of the whole stack if one of its
      heads is gone, else of this run alone. */
  ghost predicate Recoverable(cfg: Config, keepLocal: bool, s: State, snap: Snapshot, run: Run) {
    if keepLocal && HeadGone(cfg, s, snap.branch) then StackOpen(cfg, s, snap, run)
    else
      HeadInHand(cfg, s, snap, run).Some? &&
      Reclaimable(cfg, keepLocal, s, snap, WithHead(run, HeadInHand(cfg, s, snap, run).value))
  }

  /** What recovery answers for a stuck run without archive, and where it ends if it had to move something. */
  ghost predicate AnsweredFor(cfg: Config, keepLocal: bool, s: State, t: State, snap: Snapshot, run: Run,
                              recovered: bool)
  {
    (recovered <==> Recoverable(cfg, keepLocal, s, snap, run)) &&
    (recovered && keepLocal && HeadGone(cfg, s, snap.branch) ==> Returned(t, snap.branch, snap.head)) &&
    (recovered && !(keepLocal && HeadGone(cfg, s, snap.branch)) ==>
     var head := HeadInHand(cfg, s, snap, run);
     head.Some? && (Ended(keepLocal, t, snap.branch, snap.head, head.value) ||
                    InHistory(s, WithHead(run, head.value), snap.head)))
  }

  lemma TrustExact(cfg: Config, s: State, snap: Snapshot, run: Run)
    requires run.verified
    ensures Trusted(cfg, s, snap, run) <==> TrustedRewrite(cfg, s, run, snap.head)
  {
    if run.reviewApproved.Some? {
      var head := run.reviewApproved.value;
      if snap.head in s.gate.objects && head in s.gate.objects { ContainsExact(cfg, s.gate, snap.head, head); }
    }
  }

  lemma VerifiedExact(cfg: Config, keepLocal: bool, s: State, snap: Snapshot, run: Run)
    requires run.verified && Pictured(s, snap)
    ensures VerifiedOpen(cfg, keepLocal, s, snap, run) <==> Reclaimable(cfg, keepLocal, s, snap, run)
  {
    hide Trusted, TrustedRewrite, OrdinaryOpen;
    TrustExact(cfg, s, snap, run);
  }

  /** The proof and its recording go through exactly for the head in hand. */
  lemma HeadExact(cfg: Config, s: State, snap: Snapshot, run: Run)
    requires Sound(s) && Pictured(s, snap) && FindRun(s.runs, run.id) == Some(run) && !run.verified && !run.custody
    ensures var proof, head := ProveHead(cfg, s, snap, run), HeadInHand(cfg, s, snap, run);
            (proof.Proved? && Provable(s, snap, run, proof) <==> head.Some?) &&
            (head.Some? ==> proof.Proved? && proof.verified == head.value)
  {
    hide RewrittenAlike, Reaches, Clean;
    ProofExact(cfg, s, snap, run);
    ProofKinds(cfg, s, snap, run);
    RowIsThere(s.runs, run.id);
  }

  lemma {:induction false} RowIsThere(runs: seq<Run>, id: string)
    ensures FindRun(runs, id).Some? ==> exists i | 0 <= i < |runs| :: runs[i] == FindRun(runs, id).value
  {
    if runs != [] && runs[0].id != id {
      RowIsThere(runs[1..], id);
      if FindRun(runs[1..], id).Some? {
        var i :| 0 <= i < |runs[1..]| && runs[1..][i] == FindRun(runs[1..], id).value;
        assert runs[i + 1] == FindRun(runs, id).value;
      }
    }
  }

  /** Which kind of proof it is: only one by descent from the gate head needs more than its premises say. */
  lemma ProofKinds(cfg: Config, s: State, snap: Snapshot, run: Run)
    requires Sound(s) && Pictured(s, snap)
    ensures var proof := ProveHead(cfg, s, snap, run);
            var lane, anchor := Get(s.gate.refs, Branch(snap.branch)), Get(s.gate.refs, Recover(run.id));
            proof.Proved? ==>
              lane.Some? &&
              (proof.equalTree ==> Clean(s.work) && run.reviewApproved == Some(run.head)) &&
              (proof.descendant <==>
               !Reaches(lane.value, run.head) && anchor == Some(run.head) && Reaches(run.head, lane.value)) &&
              (proof.equalTree <==> !Reaches(lane.value, run.head) && !proof.descendant)
  {
    GateAnchorIsStored(s, Branch(snap.branch));
    GateAnchorIsStored(s, Recover(run.id));
  }

  /** The row as the proof leaves it. */
  lemma RowAfterProof(s: State, snap: Snapshot, run: Run, proof: HeadProof)
    requires DistinctIds(s.runs) && FindRun(s.runs, run.id) == Some(run) && !run.pushActive && proof.Proved?
    requires RowTakes(s.runs, run, proof)
    ensures FindRun(RowsWith(s.runs, run, proof), run.id) == Some(WithHead(run, proof.verified))
  {
    RowIsThere(s.runs, run.id);
    var i :| 0 <= i < |s.runs| && s.runs[i] == run;
    var after := RowsWith(s.runs, run, proof);
    assert DistinctIds(after) by {
      forall j, k | 0 <= j < k < |after| ensures after[j].id != after[k].id { assert s.runs[j].id != s.runs[k].id; }
    }
    if proof.equalTree {
      var j :| 0 <= j < |s.runs| && RewriteMatches(run.id, run.status, run.head, s.runs[j]);
      assert j == i;
    }
    FindsRow(after, i);
  }

  /** What a proof changes does not bear on what comes next. */
  lemma ProvedKeepsOpen(cfg: Config, keepLocal: bool, s: State, t: State, snap: Snapshot, run: Run)
    requires OnlyProved(s, t, run.id, run.head)
    ensures Pictured(t, snap) <==> Pictured(s, snap)
    ensures VerifiedOpen(cfg, keepLocal, t, snap, run) <==> VerifiedOpen(cfg, keepLocal, s, snap, run)
    ensures InHistory(t, run, snap.head) <==> InHistory(s, run, snap.head)
  {
    hide Reaches, CarriesChanges;
    assert Get(t.gate.refs, Branch(snap.branch)) == Get(s.gate.refs, Branch(snap.branch));
    assert Get(t.gate.refs, RecoverGate(run.id)) == Get(s.gate.refs, RecoverGate(run.id));
  }

  lemma GoneExact(cfg: Config, s: State, branch: string)
    ensures AnyMissing(s, StackOf(cfg, s, branch)) <==> HeadGone(cfg, s, branch)
  {
    hide StackOf;
    if AnyMissing(s, StackOf(cfg, s, branch)) {
      var r :| r in StackOf(cfg, s, branch) && MissingHead(s, r);
      assert r.verified && Gone(s, r.head);
    }
    if HeadGone(cfg, s, branch) {
      var r :| r in StackOf(cfg, s, branch) && r.verified && Gone(s, r.head);
      assert MissingHead(s, r);
    }
  }

  /** The stack returned at once is eligible exactly where this much holds. */
  lemma StackExact(cfg: Config, s: State, snap: Snapshot, run: Run)
    requires Sound(s) && cfg.gateConfigured
    ensures AllEligible(s, snap, run, StackOf(cfg, s, snap.branch)) <==> StackOpen(cfg, s, snap, run)
  {
    hide StackOf, Compatible;
    var stack, lane := StackOf(cfg, s, snap.branch), Get(s.gate.refs, Branch(snap.branch));
    GateAnchorIsStored(s, Branch(snap.branch));
    forall r | r in stack ensures EligibleRun(s, r) <==> r.verified && BothCompatible(cfg, s, r) {}
    if lane.Some? {
      if lane.value in Heads(stack) {
        var i :| 0 <= i < |stack| && Heads(stack)[i] == lane.value;
        assert stack[i] in stack && lane == Some(stack[i].head);
      }
      if r :| r in stack && lane == Some(r.head) {
        var i :| 0 <= i < |stack| && stack[i] == r;
        assert Heads(stack)[i] == lane.value;
      }
    }
  }

  /** The answer for the whole stack. */
  lemma StackIsAnswered(cfg: Config, s: State, t: State, snap: Snapshot, run: Run, recovered: bool)
    requires HeadGone(cfg, s, snap.branch) && (recovered <==> StackOpen(cfg, s, snap, run))
    requires recovered ==> Returned(t, snap.branch, snap.head)
    ensures AnsweredFor(cfg, true, s, t, snap, run, recovered)
  {
    hide HeadGone, StackOpen, Returned, HeadInHand, Reclaimable;
  }

  /** The answer for this run alone, put together. */
  lemma AloneIsAnswered(cfg: Config, keepLocal: bool, s: State, t: State, snap: Snapshot, run: Run, recovered: bool)
    requires Sound(s) && Pictured(s, snap) && FindRun(s.runs, run.id) == Some(run) && Stuck(run)
    requires !(keepLocal && HeadGone(cfg, s, snap.branch))
    requires run.verified ==>
      (recovered <==> VerifiedOpen(cfg, keepLocal, s, snap, run)) &&
      (recovered && !InHistory(s, run, snap.head) ==> Ended(keepLocal, t, snap.branch, snap.head, run.head))
    requires !run.verified ==> UnverifiedAnswer(cfg, keepLocal, s, t, snap, run, recovered)
    ensures AnsweredFor(cfg, keepLocal, s, t, snap, run, recovered)
  {
    hide Sound, Pictured, FindRun, ProveHead, Provable, HeadGone, VerifiedOpen, Reclaimable, InHistory, Ended, Stranded,
         RewrittenAlike, Reaches;
    StuckIsStranded(run);
    if run.verified {
      VerifiedExact(cfg, keepLocal, s, snap, run);
      assert WithHead(run, run.head) == run;
    } else {
      HeadExact(cfg, s, snap, run);
      var head := HeadInHand(cfg, s, snap, run);
      if head.Some? { VerifiedExact(cfg, keepLocal, s, snap, WithHead(run, head.value)); }
    }
  }

  /** Recover, once the branch is known to be held by a terminal run. */
  method RecoverStranded(host: Host, snap: Snapshot, run: Run) returns (o: Outcome, ghost head: Commit)
    requires host.Valid() && host.log.stamps == 0 && KindOf(run) == PipelineOwned && Terminal(run.status) &&
             ApprovalKnown(host.log, run)
    modifies host
    ensures host.Progress() && host.log.stamps == if o.recovered then 1 else 0
    ensures Landed(host.start, host.moves, old(host.log.landings), host.log.landings, Goal(run.id, head, snap.head),
                   o.recovered)
    ensures HeadOf(host.cfg, host.start, host.moves, snap, run, head)
    ensures old(host.Quiet()) && Inspect(host.cfg, old(host.state)) == Some(snap) && snap.run == Some(run) &&
            Stranded(run) ==>
      RowsKept(old(host.state).runs, host.state.runs, run.id, o.recovered)
    ensures old(host.Quiet()) && Inspect(host.cfg, old(host.state)) == Some(snap) && snap.run == Some(run) &&
            run.verified &&
            !host.keepLocal && Offered(host.cfg, old(host.state)) == OfferPlain ==>
      (o.recovered <==> GoesThrough(old(host.state), run, snap.head))
    ensures old(host.Quiet()) && Inspect(host.cfg, old(host.state)) == Some(snap) && snap.run == Some(run) &&
            host.keepLocal && Offered(host.cfg, old(host.state)) == OfferKeepLocal ==>
      o.recovered
    ensures o.recovered ==>
      RestedOrArchived(host.keepLocal, host.start, host.moves, snap.branch, Goal(run.id, head, snap.head))
    ensures old(host.Quiet()) && Inspect(host.cfg, old(host.state)) == Some(snap) && snap.run == Some(run) &&
            Stuck(run) && ArchivesOf(old(host.state).archives, run.id) == [] ==>
      AnsweredFor(host.cfg, host.keepLocal, old(host.state), host.state, snap, run, o.recovered)
  {
    hide LawfulHistory, Play, LogOf, Sound, SoundMergeBase, Held, Grows, Stack, AllEligible, AnyMissing, RowsKept,
         Inspect, Pictured, Stranded, FindSource, KindOf, GoesThrough, Offered, StackOf, HeadGone, StackOpen, HalfWay,
         OrdinaryOpen, InHistory, VerifiedOpen, ReadBack, ArchivesOf, MovedOnce, AnsweredFor, UnverifiedAnswer, Ended,
         Returned, Stuck;
    ghost var s, picked := host.state, Inspect(host.cfg, host.state) == Some(snap) && snap.run == Some(run);
    head := run.head;
    StuckIsStranded(run);
    if picked {
      OfferMeans(host.cfg, s, snap, run);
      GoneExact(host.cfg, s, snap.branch);
      if host.cfg.gateConfigured { StackExact(host.cfg, s, snap, run); }
    }
    if host.keepLocal {
      var stack, missing, eligible := PreflightStack(host, snap, run);
      if missing && !eligible {
        RowsUnchanged(host.state.runs, run.id);
        if old(host.Quiet()) && picked { StackIsAnswered(host.cfg, s, host.state, snap, run, false); }
        return Blocked(ManualReconciliation), head;
      }
      if missing {
        o := ReturnStack(host, snap, run, stack);
        if old(host.Quiet()) && picked { StackIsAnswered(host.cfg, s, host.state, snap, run, o.recovered); }
        return;
      }
    }
    host.Later();
    o, head := VerifyThenRecover(host, snap, run);
    if old(host.Quiet()) && picked && Stuck(run) && ArchivesOf(s.archives, run.id) == [] {
      AloneIsAnswered(host.cfg, host.keepLocal, s, host.state, snap, run, o.recovered);
    }
  }

  method VerifyThenRecover(host: Host, snap: Snapshot, run: Run) returns (o: Outcome, ghost head: Commit)
    requires host.Valid() && host.log.stamps == 0 && ApprovalKnown(host.log, run)
    modifies host
    ensures host.Progress() && host.log.stamps == if o.recovered then 1 else 0
    ensures Landed(host.start, host.moves, old(host.log.landings), host.log.landings, Goal(run.id, head, snap.head),
                   o.recovered)
    ensures HeadOf(host.cfg, host.start, host.moves, snap, run, head)
    ensures old(host.Quiet()) && run.verified && !host.keepLocal &&
            FindSource(host.cfg, old(host.state), snap, run) == Plain && Pictured(old(host.state), snap) ==>
      (o.recovered <==> GoesThrough(old(host.state), run, snap.head))
    ensures old(host.Quiet()) && run.verified && host.keepLocal &&
            FindSource(host.cfg, old(host.state), snap, run).FromArchive? &&
            Pictured(old(host.state), snap) && FindRun(old(host.state).runs, run.id) == Some(run) ==>
      o.recovered
    ensures o.recovered ==>
      RestedOrArchived(host.keepLocal, host.start, host.moves, snap.branch, Goal(run.id, head, snap.head))
    ensures old(host.Quiet()) && run.verified && Pictured(old(host.state), snap) &&
            ArchivesOf(old(host.state).archives, run.id) == [] &&
            (host.keepLocal ==> RowIs(old(host.state), run)) ==>
      (o.recovered <==> VerifiedOpen(host.cfg, host.keepLocal, old(host.state), snap, run)) &&
      (o.recovered && !InHistory(old(host.state), run, snap.head) ==>
       Ended(host.keepLocal, host.state, snap.branch, snap.head, run.head))
    ensures old(host.Quiet()) && !run.verified && !run.pushActive && Pictured(old(host.state), snap) &&
            ArchivesOf(old(host.state).archives, run.id) == [] && FindRun(old(host.state).runs, run.id) == Some(run) ==>
      UnverifiedAnswer(host.cfg, host.keepLocal, old(host.state), host.state, snap, run, o.recovered)
    ensures old(host.Quiet()) ==> RowsKept(old(host.state).runs, host.state.runs, run.id, o.recovered)
  {
    hide LawfulHistory, Play, LogOf, Sound, SoundMergeBase, Held, Grows, RowsKept, Pictured, FindSource, GoesThrough,
         VerifiedOpen, InHistory, Ended, RestedOrArchived, ProveHead, Provable, RowsWith, ArchivesOf, OnlyProved,
         FindRun;
    head := run.head;
    if run.verified { o := RecoverVerified(host, snap, run); return; }
    ghost var s := host.state;
    ProvedIsStored(host.cfg, s, snap, run);
    var code, verified := VerifyHead(host, snap, run);
    ghost var t, middle, proved := host.state, host.state.runs, host.moves;
    if code != Ok { return Blocked(code), head; }
    head := verified;
    host.Later();
    var found := WithHead(run, verified);
    if old(host.Quiet()) {
      ProvedKeepsOpen(host.cfg, host.keepLocal, s, t, snap, found);
      if FindRun(s.runs, run.id) == Some(run) && !run.pushActive {
        ProvableTakes(host.cfg, s, snap, run);
        RowAfterProof(s, snap, run, ProveHead(host.cfg, s, snap, run));
      }
    }
    o := RecoverVerified(host, snap, found);
    HeadOfLater(host.cfg, host.start, proved, host.moves, snap, run, head);
    if old(host.Quiet()) { RowsKeptTwice(old(host.state).runs, middle, host.state.runs, run.id, o.recovered); }
  }

  lemma ProvableTakes(cfg: Config, s: State, snap: Snapshot, run: Run)
    requires Sound(s) && ProveHead(cfg, s, snap, run).Proved? && Provable(s, snap, run, ProveHead(cfg, s, snap, run))
    ensures RowTakes(s.runs, run, ProveHead(cfg, s, snap, run)) && DistinctIds(s.runs)
  {}

  /** The answer for a run whose head still has to be proved. */
  ghost predicate UnverifiedAnswer(cfg: Config, keepLocal: bool, s: State, t: State, snap: Snapshot, run: Run,
                                   recovered: bool)
  {
    var proof := ProveHead(cfg, s, snap, run);
    (recovered <==>
     proof.Proved? && Provable(s, snap, run, proof) &&
     VerifiedOpen(cfg, keepLocal, s, snap, WithHead(run, proof.verified))) &&
    (recovered && !InHistory(s, WithHead(run, proof.verified), snap.head) ==>
     Ended(keepLocal, t, snap.branch, snap.head, proof.verified))
  }

  /** What an offer tells about the evidence behind it. */
  lemma OfferMeans(cfg: Config, s: State, snap: Snapshot, run: Run)
    requires Sound(s) && Inspect(cfg, s) == Some(snap) && snap.run == Some(run)
    ensures Pictured(s, snap) && FindRun(s.runs, run.id) == Some(run)
    ensures Offered(cfg, s) == OfferPlain ==> FindSource(cfg, s, snap, run) == Plain
    ensures Offered(cfg, s) == OfferKeepLocal ==>
      if AnyMissing(s, StackOf(cfg, s, snap.branch)) then AllEligible(s, snap, run, StackOf(cfg, s, snap.branch))
      else FindSource(cfg, s, snap, run).FromArchive? && run.verified
  {
    PickIsARow(cfg, s);
    hide Inspect, Sound, Pictured, AnyMissing, AllEligible;
  }

  // ---- When status offers a command -------------------------------------------------------------

  /** What status asks of a stuck run before it offers the plain command. */
  ghost predicate PlainWorthOffering(cfg: Config, s: State, snap: Snapshot, run: Run) {
    BothCompatible(cfg, s, run) && !HalfWay(s, run, snap.head) &&
    (InHistory(s, run, snap.head) ||
     (cfg.gateConfigured && Clean(s.work) && {snap.head, run.head} <= s.gate.objects &&
      (Reaches(run.head, snap.head) || CarriesChanges(cfg, snap.head, run.head))))
  }

  lemma SourceExact(cfg: Config, s: State, snap: Snapshot, run: Run)
    requires Sound(s) && Pictured(s, snap) && ArchivesOf(s.archives, run.id) == []
    ensures FindSource(cfg, s, snap, run) == Plain <==>
      (run.verified || ProveHead(cfg, s, snap, run).Proved?) && PlainWorthOffering(cfg, s, snap, run)
    ensures !FindSource(cfg, s, snap, run).FromArchive?
  {
    hide ProveHead;
    EligibleIsInHistory(s, snap, run);
    if {snap.head, run.head} <= s.gate.objects { ContainsExact(cfg, s.gate, snap.head, run.head); }
  }

  /** For a stuck run without archive status offers the plain command, the keep-local one or none, exactly as told by
      the refs, the objects and the worktree, and for an unverified head by what proves it. */
  lemma OfferExact(cfg: Config, s: State, snap: Snapshot, run: Run)
    requires Sound(s) && Picked(cfg, s, snap, run) && Stuck(run) && ArchivesOf(s.archives, run.id) == []
    ensures Offered(cfg, s) ==
      if HeadGone(cfg, s, snap.branch) then if StackOpen(cfg, s, snap, run) then OfferKeepLocal else NoOffer
      else if (run.verified || ProveHead(cfg, s, snap, run).Proved?) && PlainWorthOffering(cfg, s, snap, run) then
        OfferPlain
      else NoOffer
  {
    hide ProveHead, Sound, Inspect, Stuck, AnyMissing, AllEligible, FindSource, PlainWorthOffering, StackOpen, HeadGone,
         Pictured, KindOf, Stranded, MissingHead, EligibleRun, GateHeadSafe;
    PickIsARow(cfg, s);
    StuckHoldsBranch(run);
    StuckIsStranded(run);
    GoneExact(cfg, s, snap.branch);
    SourceExact(cfg, s, snap, run);
    if cfg.gateConfigured { StackExact(cfg, s, snap, run); } else { NoGateNothingGone(cfg, s, snap.branch); }
  }

  lemma NoGateNothingGone(cfg: Config, s: State, branch: string)
    requires !cfg.gateConfigured
    ensures !HeadGone(cfg, s, branch)
  {}

  /** The record of a bound archive proves the later head durable and allows keep-local at the required one. */
  ghost predicate ArchiveProves(cfg: Config, s: State, snap: Snapshot, run: Run, rec: Archive) {
    rec.owner == run.id && rec.run == run.id && rec.repo == cfg.repoId && rec.branch == run.branch == snap.branch &&
    rec.preserved == run.head && rec.required == snap.head &&
    Some(snap.head) in {run.pushed, run.reviewApproved, run.submitted} &&
    Terminal(run.status) && run.verified && !run.custody && Clean(s.work) &&
    "archive/" <= rec.archiveBranch && Get(s.work.repo.refs, Branch(rec.archiveBranch)) == Some(run.head) &&
    !Reaches(snap.head, run.head) && !Reaches(run.head, snap.head) &&
    Compatible(s.work.repo, Recover(run.id), run.head) &&
    cfg.gateConfigured && Get(s.gate.refs, Recover(run.id)) == Some(run.head) &&
    Get(s.gate.refs, Branch(snap.branch)) in {Some(snap.head), Some(run.head)}
  }

  lemma ArchiveExact(cfg: Config, s: State, snap: Snapshot, run: Run, rec: Archive)
    requires Sound(s) && Pictured(s, snap)
    ensures VerifyArchive(cfg, s, snap, run, rec) == Ok <==> ArchiveProves(cfg, s, snap, run, rec)
  {
    if rec.required == snap.head && rec.preserved == run.head && snap.head in s.work.repo.objects &&
       run.head in s.work.repo.objects {
      RelationExact(s.work.repo, snap.head, run.head);
    }
  }

  /** With archive records status offers keep-local on exactly one record that proves so much, and only where nothing
      shows that the later head has the local work; several records, or one that fails, leave nothing to offer. */
  lemma ArchiveOfferExact(cfg: Config, s: State, snap: Snapshot, run: Run)
    requires Sound(s) && Picked(cfg, s, snap, run) && Stuck(run) && run.verified
    requires ArchivesOf(s.archives, run.id) != [] && !HeadGone(cfg, s, snap.branch)
    ensures var records := ArchivesOf(s.archives, run.id);
            Offered(cfg, s) ==
              if |records| != 1 || !ArchiveProves(cfg, s, snap, run, records[0]) then NoOffer
              else if snap.head in s.gate.objects && CarriesChanges(cfg, snap.head, run.head) then OfferPlain
              else OfferKeepLocal
  {
    hide Sound, Inspect, Stuck, AnyMissing, AllEligible, HeadGone, Pictured, KindOf, Stranded, FindSource,
         ArchiveProves, CarriesChanges;
    PickIsARow(cfg, s);
    StuckHoldsBranch(run);
    StuckIsStranded(run);
    GoneExact(cfg, s, snap.branch);
    ArchiveSource(cfg, s, snap, run);
  }

  lemma ArchiveSource(cfg: Config, s: State, snap: Snapshot, run: Run)
    requires Sound(s) && Pictured(s, snap) && run.verified && ArchivesOf(s.archives, run.id) != []
    ensures var records := ArchivesOf(s.archives, run.id);
            FindSource(cfg, s, snap, run) ==
              if |records| != 1 || !ArchiveProves(cfg, s, snap, run, records[0]) then
                NoSource(VerifyArchives(cfg, s, snap, run, records), true)
              else if snap.head in s.gate.objects && CarriesChanges(cfg, snap.head, run.head) then Plain
              else FromArchive(records[0])
  {
    hide VerifyArchive, CarriesChanges, ContainsWork;
    var records := ArchivesOf(s.archives, run.id);
    ArchiveExact(cfg, s, snap, run, records[0]);
    GateAnchorIsStored(s, Recover(run.id));
    if snap.head in s.gate.objects && run.head in s.gate.objects { ContainsExact(cfg, s.gate, snap.head, run.head); }
  }

  /** Where a plain recovery would go through that status does not offer: the gate does not have the local head, or only
      the head approved for the run carries the local work. */
  lemma WithheldMeans(cfg: Config, s: State, snap: Snapshot, run: Run)
    requires Sound(s) && Picked(cfg, s, snap, run) && Stuck(run) && run.verified
    requires ArchivesOf(s.archives, run.id) == []
    requires Offered(cfg, s) == NoOffer && !HeadGone(cfg, s, snap.branch) && Recoverable(cfg, false, s, snap, run)
    ensures !InHistory(s, run, snap.head) &&
            (snap.head !in s.gate.objects ||
             (TrustedRewrite(cfg, s, run, snap.head) && !Reaches(run.head, snap.head) &&
              !CarriesChanges(cfg, snap.head, run.head)))
  {
    hide Sound, Inspect, Stuck, Offered, HeadGone, TrustedRewrite, CarriesChanges, BothCompatible, HalfWay;
    OfferExact(cfg, s, snap, run);
  }

  // ---- Draining ---------------------------------------------------------------------------------

  function StrandedOn(runs: seq<Run>, branch: string): nat {
    if runs == [] then 0
    else (if runs[0].branch == branch && Stranded(runs[0]) then 1 else 0) + StrandedOn(runs[1..], branch)
  }

  lemma {:induction false} CountFalls(before: seq<Run>, after: seq<Run>, branch: string, i: nat)
    requires StrandsNothing(before, after)
    ensures StrandedOn(after, branch) <= StrandedOn(before, branch)
    ensures i < |before| && before[i].branch == branch && Stranded(before[i]) && !Stranded(after[i]) ==>
      StrandedOn(after, branch) < StrandedOn(before, branch)
  {
    if before != [] {
      CountFalls(before[1..], after[1..], branch, if i == 0 then |before| else i - 1);
    }
  }

  /** Giving a stranded run back strands nothing and takes it off the stack. */
  lemma ReturnDrains(before: seq<Run>, after: seq<Run>, run: Run, recovered: bool)
    requires DistinctIds(before) && run in before && Stranded(run) && RowsKept(before, after, run.id, recovered)
    ensures StrandsNothing(before, after)
    ensures recovered ==> StrandedOn(after, run.branch) < StrandedOn(before, run.branch)
  {
    var i :| 0 <= i < |before| && before[i] == run;
    forall j | 0 <= j < |before| ensures Stranded(after[j]) ==> Stranded(before[j]) {
      if j != i {
        assert before[j].id != run.id by { if j < i { assert before[j].id != before[i].id; } }
      }
    }
    CountFalls(before, after, run.branch, i);
  }

  // ---- An offer that cannot go through ----------------------------------------------------------

  /** A second edit on top of the first, and a preserved head with both. */
  const MORE := Commit(4, [EDIT], map["f" := "x", "h" := "z"])
  const BOTH := Commit(5, [ROOT], map["f" := "x", "h" := "z"])

  /** The preserved head imported and anchored on both sides; the local branch and its anchor where they are. */
  function AdoptingAt(local: Commit, anchored: bool, known: set<Commit>): State {
    var refs := map[Branch("b") := local, Recover("r") := BOTH];
    State(Worktree(Repo(if anchored then refs[RecoverLocal("r") := EDIT] else refs, {ROOT, EDIT, BOTH} + known),
                   On("b"), local.tree, local.tree, false),
          Repo(map[Branch("b") := BOTH, Recover("r") := BOTH], {ROOT, EDIT, BOTH} + known),
          [FinishedRun(BOTH, true)], [], map[])
  }

  /** A state in which adopting the first edit would go through, the anchor it creates before it is interrupted, and
      the second edit, committed and pushed to the gate on another branch. */
  function AnchorTaken(): State {
    var begun := Apply(AdoptingAt(EDIT, false, {}), CreateAnchor(InWork, RecoverLocal("r"), EDIT));
    Act(Act(Act(begun, WriteWork("b", MORE)), Disturb(On("b"), MORE.tree, MORE.tree, false)), Learn(InGate, MORE))
  }

  lemma MoreHistory(c: Commit)
    ensures Reaches(MORE, c) <==> c == MORE || c == EDIT || c == ROOT
    ensures Reaches(BOTH, c) <==> c == BOTH || c == ROOT
    ensures c in History(MORE) <==> c == MORE || c == EDIT || c == ROOT
  {
    ExampleHistory(c);
    OnlyParentAbove(ROOT, BOTH, c);
    HistoryIsReach(MORE, c);
    if Reaches(EDIT, c) { assert Reaches(MORE.parents[0], c); }
  }

  lemma AnchorTakenIs()
    ensures AnchorTaken() == AdoptingAt(MORE, true, {MORE})
  {
    assert {ROOT, EDIT, BOTH} + History(MORE) == {ROOT, EDIT, BOTH} + {MORE} by {
      forall c ensures c in {ROOT, EDIT, BOTH} + History(MORE) <==> c in {ROOT, EDIT, BOTH} + {MORE} { MoreHistory(c); }
    }
    AdoptionBegun();
    hide History, AnchorTaken;
    var begun := AdoptingAt(EDIT, true, {});
    assert begun.work.repo.refs[Branch("b") := MORE] == AdoptingAt(MORE, true, {MORE}).work.repo.refs;
    assert AnchorTaken() ==
           Act(Act(Act(begun, WriteWork("b", MORE)), Disturb(On("b"), MORE.tree, MORE.tree, false)),
               Learn(InGate, MORE)) by {
      AnchorTakenMeans(begun);
    }
  }

  lemma AdoptionBegun()
    ensures Apply(AdoptingAt(EDIT, false, {}), CreateAnchor(InWork, RecoverLocal("r"), EDIT)) ==
            AdoptingAt(EDIT, true, {})
  {}

  lemma AnchorTakenMeans(begun: State)
    requires begun == Apply(AdoptingAt(EDIT, false, {}), CreateAnchor(InWork, RecoverLocal("r"), EDIT))
    ensures AnchorTaken() ==
            Act(Act(Act(begun, WriteWork("b", MORE)), Disturb(On("b"), MORE.tree, MORE.tree, false)),
                Learn(InGate, MORE))
  {
    hide Apply, Act;
  }

  /** Either the first edit alone, or both edits with the second one known on both sides. */
  predicate AdoptingCase(local: Commit, known: set<Commit>) {
    (local == EDIT && known == {}) || (local == MORE && known == {MORE})
  }

  lemma AdoptingIsSound(local: Commit, anchored: bool, known: set<Commit>)
    requires AdoptingCase(local, known)
    ensures Sound(AdoptingAt(local, anchored, known))
  {
    forall c ensures Reaches(ROOT, c) <==> c == ROOT { ExampleHistory(c); }
    forall c ensures Reaches(EDIT, c) <==> c == EDIT || c == ROOT { ExampleHistory(c); }
    forall c ensures Reaches(BOTH, c) <==> c == BOTH || c == ROOT { MoreHistory(c); }
    forall c ensures Reaches(MORE, c) <==> c == MORE || c == EDIT || c == ROOT { MoreHistory(c); }
  }

  lemma AdoptingIsInspected(cfg: Config, local: Commit, anchored: bool, known: set<Commit>)
    requires AdoptingCase(local, known)
    ensures var s, run := AdoptingAt(local, anchored, known), FinishedRun(BOTH, true);
            Inspect(cfg, s) == Some(Snapshot("b", local, true, Some(run))) &&
            Stack(EvidenceFor(cfg, s, "b"), s.runs) == [run] && !MissingHead(s, run) && Stranded(run)
  {
    hide Reaches;
    var s := AdoptingAt(local, anchored, known);
    var ev := EvidenceFor(cfg, s, "b");
    assert FirstOwner(ev, s.runs, 0) == 0;
    assert StackFrom(ev, s.runs, 1) == [];
  }

  lemma AdoptingIsPlain(cfg: Config, local: Commit, anchored: bool, known: set<Commit>)
    requires cfg.gateConfigured && AdoptingCase(local, known) && cfg.mergeBase(local, BOTH) == Some(ROOT)
    ensures var s, run := AdoptingAt(local, anchored, known), FinishedRun(BOTH, true);
            FindSource(cfg, s, Snapshot("b", local, true, Some(run)), run) == Plain
  {
    MoreHistory(local);
    MoreHistory(BOTH);
    ContainmentExact(ROOT, local, BOTH);
    assert ContainsWork(cfg, AdoptingAt(local, anchored, known).gate, local, BOTH);
  }

  /** Status offers a plain recovery of the clean branch, whose work the preserved head has. */
  lemma AdoptingIsOffered(cfg: Config, local: Commit, anchored: bool, known: set<Commit>)
    requires cfg.gateConfigured && AdoptingCase(local, known) && cfg.mergeBase(local, BOTH) == Some(ROOT)
    ensures var s, run := AdoptingAt(local, anchored, known), FinishedRun(BOTH, true);
            Sound(s) && Inspect(cfg, s) == Some(Snapshot("b", local, true, Some(run))) &&
            Offered(cfg, s) == OfferPlain && Stranded(run)
  {
    hide Sound, AdoptingAt, Inspect, Stack, MissingHead, FindSource;
    AdoptingIsSound(local, anchored, known);
    AdoptingIsInspected(cfg, local, anchored, known);
    AdoptingIsPlain(cfg, local, anchored, known);
  }

  /** Before the interruption the offer goes through; after the second edit status still makes it, and it is refused. */
  lemma TakenAnchorBlocksOffer(cfg: Config)
    requires cfg.gateConfigured && cfg.mergeBase(EDIT, BOTH) == Some(ROOT) && cfg.mergeBase(MORE, BOTH) == Some(ROOT)
    ensures var s, run := AdoptingAt(EDIT, false, {}), FinishedRun(BOTH, true);
            Sound(s) && Offered(cfg, s) == OfferPlain && GoesThrough(s, run, EDIT)
    ensures var s, run := AnchorTaken(), FinishedRun(BOTH, true);
            Sound(s) && Inspect(cfg, s) == Some(Snapshot("b", MORE, true, Some(run))) &&
            Offered(cfg, s) == OfferPlain &&
            run.verified && Stranded(run) && !GoesThrough(s, run, MORE)
  {
    AnchorTakenIs();
    AdoptingIsOffered(cfg, EDIT, false, {});
    AdoptingIsOffered(cfg, MORE, true, {MORE});
    MoreHistory(BOTH);
    MoreHistory(MORE);
    hide Offered, Sound, Inspect, AnchorTaken;
  }

  // ---- Recover -------------------------------------------------------------------------------------

  /** The exits before custody is even in question: nothing is owned, or nothing is owed. */
  function EarlyExit(keepLocal: bool, run: Run): Option<Outcome> {
    if run.custody then
      if !keepLocal && Terminal(run.status) && run.pushed == Some(run.head) then Some(Blocked(PublishedPath))
      else Some(Outcome(true, AlreadyYours, false))
    else match KindOf(run)
      case UserOwned => Some(Outcome(true, AlreadyYours, false))
      case PushInProgress => Some(Blocked(if Terminal(run.status) then PushStep else NothingToRecover))
      case PipelineOwned => if Terminal(run.status) then None else Some(Blocked(RunActive))
      case _ => Some(Blocked(NothingToRecover))
  }

  /** Running exactly the command status offers: it succeeds precisely when the picked run is stranded
      (a legacy row with an incomplete binding is not) and, if its head must be adopted, the anchor for
      the local head is free. */
  predicate OfferHonoured(cfg: Config, keepLocal: bool, s: State, recovered: bool) {
    Offered(cfg, s) != NoOffer ==>
      var snap := Inspect(cfg, s).value;
      var run := snap.run.value;
      (Offered(cfg, s) == OfferPlain && !keepLocal && run.verified ==>
        (recovered <==> Stranded(run) && GoesThrough(s, run, snap.head))) &&
      (Offered(cfg, s) == OfferKeepLocal && keepLocal ==> (recovered <==> Stranded(run)))
  }

  /** What a run that owes nothing is answered, told by its row: it was given back, a push of it is under way, its
      branch is the user's already, or it still runs. */
  function Dismissed(run: Run): Option<Outcome> {
    if run.custody then Some(Outcome(true, AlreadyYours, false))
    else if run.pushActive || run.pushStepBusy then
      Some(Blocked(if Terminal(run.status) then PushStep else NothingToRecover))
    else if run.pushed.None? && run.submitted == Some(run.head) && Terminal(run.status) && run.verified then
      Some(Outcome(true, AlreadyYours, false))
    else if !Terminal(run.status) && run.submitted.Some? &&
            (run.pushed.None? || (BindingWhole(run) && run.pushed != Some(run.head))) then
      Some(Blocked(RunActive))
    else None
  }

  /** Such a run is answered so, and nothing is touched; a published one is first compared with its remote. */
  predicate AnsweredAtOnce(cfg: Config, s: State, t: State, o: Outcome) {
    Inspect(cfg, s).Some? && Inspect(cfg, s).value.run.Some? ==>
      var run := Inspect(cfg, s).value.run.value;
      !Published(run) && Dismissed(run).Some? ==> o == Dismissed(run).value && t == s
  }

  /** The binding of a published run can be compared with what its branch names in the remote: no push is under way, the
      binding is whole and to the configured target, and the worktree is clean on its branch, unless the run's PR is
      retired. */
  predicate Comparable(cfg: Config, s: State, snap: Snapshot, run: Run) {
    !run.pushActive && !run.pushStepBusy && run.submitted.Some? && run.pushed.Some? && run.pushRef.Some? &&
    run.generation.Some? && (run.custody || run.pushed == Some(run.head)) &&
    run.targetKind == Some(cfg.target.kind) && run.fingerprint == Some(cfg.target.fingerprint) &&
    (run.retiredPR || (Clean(s.work) && run.pushRef == Some(snap.branch))) && RemoteHead(s, snap.branch).Some?
  }

  lemma ComparableExact(cfg: Config, s: State, snap: Snapshot, run: Run)
    requires Sound(s) && Picked(cfg, s, snap, run)
    ensures Observable(cfg, s, run.id) <==> Comparable(cfg, s, snap, run)
    ensures Pictured(s, snap) && FindRun(s.runs, run.id) == Some(run)
  {
    PickIsARow(cfg, s);
    hide Selected, FindRun;
  }

  /** What a published run is answered: nothing about its custody if the remote cannot be compared, is ahead, or was
      rewritten while the run goes on; a rewritten remote is rebound if the old head can be pinned and the row still
      fits; a live one leaves the run as given back or as owing nothing. */
  predicate PublishedAnswer(cfg: Config, keepLocal: bool, s: State, t: State, snap: Snapshot, run: Run, code: Code)
    requires run.pushed.Some? && RemoteHead(s, snap.branch).Some?
  {
    var bound, live := run.pushed.value, RemoteHead(s, snap.branch).value;
    var b := Rebinding(run.status, bound, GenerationOf(run), run.head, run.custody, cfg.target, live);
    if live != bound && !Reaches(live, bound) && !run.retiredPR && !keepLocal &&
       Pinnable(cfg, Apply(s, Mirror(run.id, live)), run.id, b.generation, bound) &&
       Settled(s.work, snap.branch, snap.head) && Happens(s, Rebind(run.id, b)) then
      t.runs == RebindRuns(s.runs, run.id, b) &&
      code == if Confirms(cfg, t, run.id, b) then Rebound else OwnershipChanged
    else
      t.runs == s.runs &&
      if live == bound then
        code == if !run.custody then NothingToRecover
                else if !keepLocal && run.head == bound then PublishedPath else AlreadyYours
      else if Reaches(live, bound) then code == RemoteAdvanced
      else if run.retiredPR then code == PublishedPath
      else if keepLocal then code == KeepLocalNotApplicable
      else code !in {Rebound, AlreadyYours, Ok}
  }

  /** The answer to every published run: none about custody where the remote cannot be compared. */
  predicate AnsweredPublished(cfg: Config, keepLocal: bool, s: State, t: State, o: Outcome) {
    Inspect(cfg, s).Some? && Inspect(cfg, s).value.run.Some? ==>
      var snap, run := Inspect(cfg, s).value, Inspect(cfg, s).value.run.value;
      Published(run) ==>
        (o.recovered <==> o.code in {Rebound, AlreadyYours}) &&
        if Comparable(cfg, s, snap, run) then PublishedAnswer(cfg, keepLocal, s, t, snap, run, o.code)
        else !o.recovered && t.runs == s.runs
  }

  lemma MirroredIsSame(cfg: Config, s: State, snap: Snapshot, run: Run, live: Commit)
    requires snap.run == Some(run) && run.pushed.Some? && RemoteHead(s, snap.branch) == Some(live)
    ensures Rebindable(cfg, Apply(s, Mirror(run.id, live)), snap, run, live) <==>
      Pinnable(cfg, Apply(s, Mirror(run.id, live)), run.id, GenerationOf(run), run.pushed.value) &&
      Settled(s.work, snap.branch, snap.head) && Happens(s, Rebind(run.id, BindingOf(cfg, snap, run, live)))
  {
    var t := Apply(s, Mirror(run.id, live));
    assert Get(t.work.repo.refs, Branch(snap.branch)) == Get(s.work.repo.refs, Branch(snap.branch));
    assert HeadSha(t.work) == HeadSha(s.work);
  }

  lemma RewriteIsAnswered(cfg: Config, keepLocal: bool, s: State, t: State, snap: Snapshot, run: Run, o: Outcome)
    requires Sound(s) && Picked(cfg, s, snap, run) && Published(run) && (o.recovered <==> o.code == Rebound)
    requires Observable(cfg, s, run.id) ==>
      RewriteAnswered(cfg, keepLocal, s, t, run, o, true) &&
      (!o.recovered && o.code != OwnershipChanged ==> t.runs == s.runs)
    requires !Observable(cfg, s, run.id) ==> !o.recovered && t.runs == s.runs
    requires o.recovered || IsRefusal(o.code)
    ensures AnsweredPublished(cfg, keepLocal, s, t, o)
  {
    hide Inspect, Sound, Rebindable, Pinnable, Settled, Confirms, RebindRuns, Apply, KindOf, Observable, Comparable;
    ComparableExact(cfg, s, snap, run);
    if Observable(cfg, s, run.id) {
      ObservedMeans(cfg, s, snap, run);
      MirroredIsSame(cfg, s, snap, run, RemoteHead(s, snap.branch).value);
    }
  }

  lemma ObservedMeans(cfg: Config, s: State, snap: Snapshot, run: Run)
    requires Sound(s) && Picked(cfg, s, snap, run) && Published(run) && Observable(cfg, s, run.id)
    ensures run.pushed.Some? && RemoteHead(s, snap.branch).Some?
    ensures Observed(cfg, s, run.id) == LiveVerdict(snap, run, run.pushed.value, RemoteHead(s, snap.branch).value)
    ensures Mirrored(cfg, s, run.id) == Apply(s, Mirror(run.id, RemoteHead(s, snap.branch).value))
  {
    hide Inspect, Sound, Apply, KindOf;
    ComparableExact(cfg, s, snap, run);
  }

  lemma ObservableIsRefreshable(cfg: Config, s: State, snap: Snapshot, run: Run)
    requires Picked(cfg, s, snap, run) && Observable(cfg, s, run.id)
    ensures Refreshable(cfg, snap)
  {
    hide Inspect;
  }

  lemma UnpublishedIsAnswered(cfg: Config, keepLocal: bool, s: State, snap: Snapshot, run: Run)
    requires Picked(cfg, s, snap, run) && !Published(run)
    ensures forall t: State, o: Outcome :: AnsweredPublished(cfg, keepLocal, s, t, o)
  {
    hide Inspect, Published;
  }

  lemma PassedOnIsLive(cfg: Config, keepLocal: bool, s: State, t: State, run: Run, o: Outcome)
    requires Observable(cfg, s, run.id) && RewriteAnswered(cfg, keepLocal, s, t, run, o, false)
    ensures Observed(cfg, s, run.id) == BindingLive
  {
    hide Observed, Observable;
  }

  lemma LiveIsAnswered(cfg: Config, keepLocal: bool, s: State, snap: Snapshot, run: Run)
    requires Sound(s) && Picked(cfg, s, snap, run) && Published(run) && Observable(cfg, s, run.id)
    requires Observed(cfg, s, run.id) == BindingLive
    ensures EarlyExit(keepLocal, run).Some?
    ensures forall t: State | t.runs == s.runs ::
              AnsweredPublished(cfg, keepLocal, s, t, EarlyExit(keepLocal, run).value)
  {
    hide Inspect, Sound, Apply, Observable, Pinnable, Settled, Confirms, RebindRuns;
    ComparableExact(cfg, s, snap, run);
    ObservedMeans(cfg, s, snap, run);
  }

  lemma DismissalExact(keepLocal: bool, run: Run)
    requires !Published(run)
    ensures Dismissed(run).Some? ==> EarlyExit(keepLocal, run) == Dismissed(run)
  {}

  /** What recovery answers whenever the picked run is stuck and has no archive. */
  ghost predicate Answered(cfg: Config, keepLocal: bool, s: State, t: State, recovered: bool) {
    forall snap, run | Picked(cfg, s, snap, run) && Stuck(run) && ArchivesOf(s.archives, run.id) == [] ::
      AnsweredFor(cfg, keepLocal, s, t, snap, run, recovered)
  }

  lemma NothingToAnswer(cfg: Config, keepLocal: bool, s: State, t: State, recovered: bool)
    requires Inspect(cfg, s).None? || Inspect(cfg, s).value.run.None? || !Stuck(Inspect(cfg, s).value.run.value)
    ensures Answered(cfg, keepLocal, s, t, recovered)
  {
    hide Inspect, Stuck, AnsweredFor;
  }

  lemma OneAnswer(cfg: Config, keepLocal: bool, s: State, t: State, snap: Snapshot, run: Run, recovered: bool)
    requires Picked(cfg, s, snap, run)
    requires Stuck(run) && ArchivesOf(s.archives, run.id) == [] ==>
      AnsweredFor(cfg, keepLocal, s, t, snap, run, recovered)
    ensures Answered(cfg, keepLocal, s, t, recovered)
  {
    hide Inspect, Stuck, AnsweredFor;
  }

  /** The run inspection picked. */
  predicate Picked(cfg: Config, s: State, snap: Snapshot, run: Run) {
    Inspect(cfg, s) == Some(snap) && snap.run == Some(run)
  }

  lemma PickFacts(cfg: Config, s: State, snap: Snapshot, run: Run)
    requires Sound(s) && Picked(cfg, s, snap, run)
    ensures run in s.runs && CurrentBranch(s.work) == Some(run.branch)
    ensures KindOf(run) == PipelineOwned && Terminal(run.status) ==>
      !run.custody && (Stranded(run) <==> !Published(run))
    ensures KindOf(run) == PipelineOwned ==> !Refreshable(cfg, snap)
  {
    PickIsARow(cfg, s);
    if KindOf(run) == PipelineOwned && Terminal(run.status) { OwnedIsStranded(run); }
  }

  lemma UnpickedOffersNothing(cfg: Config, keepLocal: bool, s: State, recovered: bool)
    requires Inspect(cfg, s).None? || Inspect(cfg, s).value.run.None? ||
             KindOf(Inspect(cfg, s).value.run.value) != PipelineOwned ||
             !Terminal(Inspect(cfg, s).value.run.value.status)
    ensures OfferHonoured(cfg, keepLocal, s, recovered)
  {}

  lemma PublishedOfferFails(cfg: Config, keepLocal: bool, s: State, snap: Snapshot, run: Run)
    requires Picked(cfg, s, snap, run) && !Stranded(run)
    ensures OfferHonoured(cfg, keepLocal, s, false)
  {}

  lemma StrandedOfferHolds(cfg: Config, keepLocal: bool, s: State, snap: Snapshot, run: Run, recovered: bool)
    requires Picked(cfg, s, snap, run) && Stranded(run)
    requires run.verified && !keepLocal && Offered(cfg, s) == OfferPlain ==>
      (recovered <==> GoesThrough(s, run, snap.head))
    requires keepLocal && Offered(cfg, s) == OfferKeepLocal ==> recovered
    ensures OfferHonoured(cfg, keepLocal, s, recovered)
  {}

  /** The branch recovered has one stranded run fewer. */
  ghost predicate Drained(before: State, after: State) {
    CurrentBranch(before.work).Some? &&
    StrandedOn(after.runs, CurrentBranch(before.work).value) < StrandedOn(before.runs, CurrentBranch(before.work).value)
  }

  /** Recover; host.keepLocal is the flag, and stamped tells a custody return from an idempotent success. */
  method RecoverCustody(host: Host) returns (o: Outcome, stamped: bool, ghost goal: Goal)
    requires host.Valid() && host.log.stamps == 0
    modifies host
    ensures host.Progress()
    ensures host.log.stamps == if stamped then 1 else 0
    ensures Landed(host.start, host.moves, old(host.log.landings), host.log.landings, goal, stamped)
    ensures Chosen(host.cfg, host.start, host.moves, goal) ||
            (!o.recovered && host.log.landings == old(host.log.landings))
    ensures stamped ==> o.recovered
    ensures o.recovered && !stamped ==> o.code in {AlreadyYours, Rebound}
    ensures o.recovered && !stamped && o.code == Rebound ==>
      exists run: Run :: ReboundOn(host.cfg, host.start, host.moves, |old(host.moves)|, run)
    ensures forall b: string ::
            CarriedTo(Get(old(host.state).work.repo.refs, Branch(b)), Get(host.state.work.repo.refs, Branch(b)),
                      host.log, b, goal)
    ensures old(host.Quiet()) ==> StrandsNothing(old(host.state).runs, host.state.runs)
    ensures old(host.Quiet()) && stamped ==> Drained(old(host.state), host.state)
    ensures old(host.Quiet()) ==> OfferHonoured(host.cfg, host.keepLocal, old(host.state), o.recovered)
    ensures old(host.Quiet()) ==> OfferHonoured(host.cfg, host.keepLocal, old(host.state), stamped)
    ensures old(host.Quiet()) ==>
      Answered(host.cfg, host.keepLocal, old(host.state), host.state, o.recovered) &&
      Answered(host.cfg, host.keepLocal, old(host.state), host.state, stamped)
    ensures old(host.Quiet()) ==>
      AnsweredAtOnce(host.cfg, old(host.state), host.state, o) &&
      AnsweredPublished(host.cfg, host.keepLocal, old(host.state), host.state, o)
    ensures stamped ==>
      exists branch :: RestedOrArchived(host.keepLocal, host.start, host.moves, branch, goal)
  {
    hide LawfulHistory, Play, LogOf, Sound, SoundMergeBase, Carried, CarriedTo, Landed, OfferHonoured, Drained,
         StrandsNothing, AtMostOnce, Chosen, Answered, RestedOrArchived, AnsweredAtOnce,
         AnsweredPublished, ReboundOn;
    o, stamped, goal := RecoverOnce(host);
    LandedAtMostOnce(host.start, host.moves, old(host.log.landings), host.log.landings, goal, stamped);
    ghost var moved := host.log.landings[|old(host.log.landings)|..];
    forall b: string
      ensures CarriedTo(Get(old(host.state).work.repo.refs, Branch(b)), Get(host.state.work.repo.refs, Branch(b)),
                        host.log, b, goal)
    {
      host.MovedAtMostOnce(b);
      CarriedToGoal(Get(old(host.state).work.repo.refs, Branch(b)), Get(host.state.work.repo.refs, Branch(b)), host.log,
                    moved, b, goal);
    }
  }

  /** Where a worktree branch may end: where it was, where somebody else put it, or at the head preserved for the run
      recovered, which is proven to carry the work of the head left behind - and that one was there from the start or
      put there by others. */
  ghost predicate CarriedTo(before: Option<Commit>, now: Option<Commit>, log: Log, branch: string, goal: Goal) {
    now == before || (branch, now) in log.written ||
    (now == Some(goal.preserved) && exists f | f in log.landings ::
       f.WorkMoved? && f.branch == branch && f.next == goal.preserved && f.why.Carrying? && f.why.run == goal.run &&
       Backed(log.vouched, goal.run, f.was, f.next, f.why.reviewed) &&
       (Some(f.was) == before || (branch, Some(f.was)) in log.written))
  }

  lemma CarriedToGoal(before: Option<Commit>, now: Option<Commit>, log: Log, moved: seq<Landing>, branch: string,
                      goal: Goal)
    requires Carried(before, now, log, moved, branch) && forall f | f in moved && Forward(f) :: Targets(f, goal)
    requires forall f | f in moved :: f in log.landings
    ensures CarriedTo(before, now, log, branch, goal)
  {
    hide Backed;
  }

  /** The head recovery preserves: the one the row names, or one a proof put in its place while it was unverified. */
  ghost predicate HeadOf(cfg: Config, start: State, moves: seq<Move>, snap: Snapshot, run: Run, head: Commit) {
    head == run.head ||
    (!run.verified && exists j | 0 <= j <= |moves| :: Proves(cfg, Play(start, moves[..j]), snap, run, head))
  }

  predicate Proves(cfg: Config, s: State, snap: Snapshot, run: Run, head: Commit) {
    ProveHead(cfg, s, snap, run).Proved? && ProveHead(cfg, s, snap, run).verified == head
  }

  lemma HeadOfLater(cfg: Config, start: State, before: seq<Move>, after: seq<Move>, snap: Snapshot, run: Run,
                    head: Commit)
    requires before <= after && HeadOf(cfg, start, before, snap, run, head)
    ensures HeadOf(cfg, start, after, snap, run, head)
  {
    hide Play, ProveHead;
    forall j | 0 <= j <= |before| ensures before[..j] == after[..j] {}
  }

  /** Inspection picked the run, at this local head, at some point of the command. */
  ghost predicate Chosen(cfg: Config, start: State, moves: seq<Move>, goal: Goal) {
    exists i, snap, run ::
      0 <= i <= |moves| && Picked(cfg, Play(start, moves[..i]), snap, run) &&
      goal.run == run.id && goal.kept == snap.head && HeadOf(cfg, start, moves, snap, run, goal.preserved)
  }

  lemma ChosenBy(cfg: Config, start: State, seen: seq<Move>, moves: seq<Move>, snap: Snapshot, run: Run, goal: Goal)
    requires seen <= moves && Picked(cfg, Play(start, seen), snap, run)
    requires goal == Goal(run.id, goal.preserved, snap.head) && HeadOf(cfg, start, moves, snap, run, goal.preserved)
    ensures Chosen(cfg, start, moves, goal)
  {
    hide Play, HeadOf, Inspect;
    assert moves[..|seen|] == seen;
  }

  method RecoverOnce(host: Host) returns (o: Outcome, stamped: bool, ghost goal: Goal)
    requires host.Valid() && host.log.stamps == 0
    modifies host
    ensures host.Progress()
    ensures host.log.stamps == if stamped then 1 else 0
    ensures Landed(host.start, host.moves, old(host.log.landings), host.log.landings, goal, stamped)
    ensures Chosen(host.cfg, host.start, host.moves, goal) ||
            (!o.recovered && host.log.landings == old(host.log.landings))
    ensures stamped ==> o.recovered
    ensures o.recovered && !stamped ==> o.code in {AlreadyYours, Rebound}
    ensures o.recovered && !stamped && o.code == Rebound ==>
      exists run: Run :: ReboundOn(host.cfg, host.start, host.moves, |old(host.moves)|, run)
    ensures old(host.Quiet()) ==> StrandsNothing(old(host.state).runs, host.state.runs)
    ensures old(host.Quiet()) && stamped ==> Drained(old(host.state), host.state)
    ensures old(host.Quiet()) ==> OfferHonoured(host.cfg, host.keepLocal, old(host.state), o.recovered)
    ensures old(host.Quiet()) ==> OfferHonoured(host.cfg, host.keepLocal, old(host.state), stamped)
    ensures old(host.Quiet()) ==>
      Answered(host.cfg, host.keepLocal, old(host.state), host.state, o.recovered) &&
      Answered(host.cfg, host.keepLocal, old(host.state), host.state, stamped)
    ensures old(host.Quiet()) ==>
      AnsweredAtOnce(host.cfg, old(host.state), host.state, o) &&
      AnsweredPublished(host.cfg, host.keepLocal, old(host.state), host.state, o)
    ensures stamped ==>
      exists branch :: RestedOrArchived(host.keepLocal, host.start, host.moves, branch, goal)
  {
    hide LawfulHistory, Play, LogOf, Sound, SoundMergeBase, Held, Grows, RowsKept, Inspect, Stranded, KindOf,
         GoesThrough, Offered, StrandsNothing, Published, Refreshable, StrandedOn, OfferHonoured, Answered, Stuck,
         RestedOrArchived, ReboundOn;
    ghost var s := host.state;
    NothingStranded(s.runs);
    stamped, goal := false, Goal("", ROOT, ROOT);
    var seen := InspectNow(host);
    if seen.None? || seen.value.run.None? {
      if old(host.Quiet()) {
        UnpickedOffersNothing(host.cfg, host.keepLocal, s, false);
        NothingToAnswer(host.cfg, host.keepLocal, s, host.state, false);
      }
      return Blocked(NothingToRecover), false, goal;
    }
    ghost var seenAt := host.moves;
    ghost var head;
    o, stamped, head := RecoverPicked(host, seen.value, seen.value.run.value);
    goal := Goal(seen.value.run.value.id, head, seen.value.head);
    if o.recovered && !stamped && o.code == Rebound {
      ReboundEarlier(host.cfg, host.start, host.moves, |old(host.moves)|, |seenAt|, seen.value.run.value);
    }
    ChosenBy(host.cfg, host.start, seenAt, host.moves, seen.value, seen.value.run.value, goal);
  }

  /** Everything after inspection picked a run. */
  method RecoverPicked(host: Host, snap: Snapshot, run: Run) returns (o: Outcome, stamped: bool, ghost head: Commit)
    requires host.Valid() && host.log.stamps == 0 && snap.run == Some(run) && ApprovalKnown(host.log, run)
    modifies host
    ensures host.Progress()
    ensures host.log.stamps == if stamped then 1 else 0
    ensures Landed(host.start, host.moves, old(host.log.landings), host.log.landings, Goal(run.id, head, snap.head),
                   stamped)
    ensures HeadOf(host.cfg, host.start, host.moves, snap, run, head)
    ensures stamped ==> o.recovered
    ensures o.recovered && !stamped ==> o.code in {AlreadyYours, Rebound}
    ensures o.recovered && !stamped && o.code == Rebound ==>
      ReboundOn(host.cfg, host.start, host.moves, |old(host.moves)|, run)
    ensures old(host.Quiet()) && Picked(host.cfg, old(host.state), snap, run) ==>
      StrandsNothing(old(host.state).runs, host.state.runs)
    ensures old(host.Quiet()) && Picked(host.cfg, old(host.state), snap, run) && stamped ==>
      Drained(old(host.state), host.state)
    ensures old(host.Quiet()) && Picked(host.cfg, old(host.state), snap, run) ==>
      OfferHonoured(host.cfg, host.keepLocal, old(host.state), o.recovered)
    ensures old(host.Quiet()) && Picked(host.cfg, old(host.state), snap, run) ==>
      OfferHonoured(host.cfg, host.keepLocal, old(host.state), stamped)
    ensures old(host.Quiet()) && Picked(host.cfg, old(host.state), snap, run) ==>
      Answered(host.cfg, host.keepLocal, old(host.state), host.state, o.recovered) &&
      Answered(host.cfg, host.keepLocal, old(host.state), host.state, stamped)
    ensures old(host.Quiet()) && Picked(host.cfg, old(host.state), snap, run) ==>
      AnsweredAtOnce(host.cfg, old(host.state), host.state, o) &&
      AnsweredPublished(host.cfg, host.keepLocal, old(host.state), host.state, o)
    ensures stamped ==>
      RestedOrArchived(host.keepLocal, host.start, host.moves, snap.branch, Goal(run.id, head, snap.head))
  {
    hide LawfulHistory, Play, LogOf, SoundMergeBase, Held, Grows, RowsKept, Inspect, Stranded, KindOf, GoesThrough,
         Offered, StrandsNothing, Published, Refreshable, StrandedOn, OfferHonoured, Answered, AnsweredFor, Stuck,
         RestedOrArchived, Dismissed, EarlyExit, AnsweredPublished, RewriteAnswered, Observable, Observed, ReboundOn;
    ghost var s, picked := host.state, Picked(host.cfg, host.state, snap, run);
    NothingStranded(s.runs);
    if !Published(run) {
      DismissalExact(host.keepLocal, run);
      if picked { UnpublishedIsAnswered(host.cfg, host.keepLocal, s, snap, run); }
    }
    EarlyIsBrief(host.keepLocal, run);
    if picked { PickFacts(host.cfg, s, snap, run); }
    stamped, head := false, run.head;
    var handled: bool;
    o, handled := RecoverRemoteRewritten(host, run);
    if handled {
      if old(host.Quiet()) && picked {
        if Observable(host.cfg, s, run.id) { ObservableIsRefreshable(host.cfg, s, snap, run); }
        HandledOffer(host.cfg, host.keepLocal, s, snap, run, o.recovered);
        HandledOffer(host.cfg, host.keepLocal, s, snap, run, false);
        PublishedIsNotStuck(host.cfg, host.keepLocal, s, host.state, snap, run, o.recovered);
        PublishedIsNotStuck(host.cfg, host.keepLocal, s, host.state, snap, run, false);
        RewriteIsAnswered(host.cfg, host.keepLocal, s, host.state, snap, run, o);
      }
      return;
    }
    var early := EarlyExit(host.keepLocal, run);
    if old(host.Quiet()) && picked && Published(run) {
      PassedOnIsLive(host.cfg, host.keepLocal, s, host.state, run, o);
      LiveIsAnswered(host.cfg, host.keepLocal, s, snap, run);
    }
    if early.Some? {
      if old(host.Quiet()) && picked {
        EarlyOffer(host.cfg, host.keepLocal, s, snap, run, early.value.recovered);
        EarlyOffer(host.cfg, host.keepLocal, s, snap, run, false);
        EarlyIsNotStuck(host.cfg, host.keepLocal, s, host.state, snap, run, early.value.recovered);
        EarlyIsNotStuck(host.cfg, host.keepLocal, s, host.state, snap, run, false);
      }
      return early.value, false, head;
    }
    host.Later();
    o, head := RecoverStranded(host, snap, run);
    stamped := o.recovered;
    if old(host.Quiet()) && picked {
      StrandedOfferHolds(host.cfg, host.keepLocal, s, snap, run, o.recovered);
      ReturnDrains(s.runs, host.state.runs, run, o.recovered);
      StuckIsStranded(run);
      OneAnswer(host.cfg, host.keepLocal, s, host.state, snap, run, o.recovered);
    }
  }

  /** An early answer returns no custody. */
  lemma EarlyIsBrief(keepLocal: bool, run: Run)
    ensures var o := EarlyExit(keepLocal, run);
            o.Some? ==> (o.value.recovered ==> o.value.code == AlreadyYours)
    ensures EarlyExit(keepLocal, run).None? ==> KindOf(run) == PipelineOwned && Terminal(run.status) && !run.custody
  {}

  lemma StuckIsStranded(run: Run)
    ensures Stuck(run) ==> Stranded(run) && !run.pushActive && !run.custody
  {}

  lemma PublishedIsNotStuck(cfg: Config, keepLocal: bool, s: State, t: State, snap: Snapshot, run: Run,
                            recovered: bool)
    requires Picked(cfg, s, snap, run) && Published(run)
    ensures Answered(cfg, keepLocal, s, t, recovered)
  {
    hide AnsweredFor, Inspect;
    if Stuck(run) { StuckHoldsBranch(run); }
    OneAnswer(cfg, keepLocal, s, t, snap, run, recovered);
  }

  lemma EarlyIsNotStuck(cfg: Config, keepLocal: bool, s: State, t: State, snap: Snapshot, run: Run, recovered: bool)
    requires Picked(cfg, s, snap, run) && EarlyExit(keepLocal, run).Some?
    ensures Answered(cfg, keepLocal, s, t, recovered)
  {
    hide AnsweredFor, Inspect, KindOf, Stuck;
    if Stuck(run) { StuckHoldsBranch(run); }
    OneAnswer(cfg, keepLocal, s, t, snap, run, recovered);
  }

  lemma HandledOffer(cfg: Config, keepLocal: bool, s: State, snap: Snapshot, run: Run, recovered: bool)
    requires Sound(s) && Picked(cfg, s, snap, run) && Published(run)
    requires !Refreshable(cfg, snap) ==> !recovered
    ensures OfferHonoured(cfg, keepLocal, s, recovered)
  {
    PickFacts(cfg, s, snap, run);
    if KindOf(run) == PipelineOwned && Terminal(run.status) {
      PublishedOfferFails(cfg, keepLocal, s, snap, run);
    } else {
      UnpickedOffersNothing(cfg, keepLocal, s, recovered);
    }
  }

  lemma EarlyOffer(cfg: Config, keepLocal: bool, s: State, snap: Snapshot, run: Run, recovered: bool)
    requires Picked(cfg, s, snap, run) && EarlyExit(keepLocal, run).Some?
    ensures OfferHonoured(cfg, keepLocal, s, recovered)
  {
    if KindOf(run) == PipelineOwned && Terminal(run.status) { OwnedIsStranded(run); }
    UnpickedOffersNothing(cfg, keepLocal, s, recovered);
  }

  // ---- A return that is lost -----------------------------------------------------------------------

  /** A head with other changes than the local one, archived before the local branch went its own way. */
  const OTHER := Commit(3, [ROOT], map["g" := "y"])

  function ArchivedRun(): Run { FinishedRun(OTHER, true).(submitted := Some(EDIT)) }

  /** The run's diverged head under its anchor and a bound archive branch; the branch and the lane where they are. */
  function ArchivedAt(local: Commit, lane: Commit, staged: bool, brought: bool): State {
    var refs := map[Branch("b") := lane, Recover("r") := OTHER];
    State(Worktree(Repo(map[Branch("b") := local, Branch("archive/b") := OTHER], {ROOT, EDIT, OTHER}), On("b"),
                   EDIT.tree, EDIT.tree, false),
          Repo(if staged then refs[CustodyReturn("r") := EDIT] else refs,
               if brought then {ROOT, EDIT, OTHER} else {ROOT, OTHER}),
          [ArchivedRun()], [Archive(1, "r", "repo", "r", "b", EDIT, OTHER, "archive/b")], map[])
  }

  const STAGING := Stage("r", EDIT)
  const MOVING := CasGate("b", EDIT, Some(OTHER))
  const RESTORING := RestoreGate("b", OTHER, EDIT)

  /** Stage, move the lane, drop the staging ref; the user resets the branch; the stamp is refused and the lane put
      back. */
  function LosingReturn(): seq<Move> {
    [ByProgram(STAGING), ByProgram(MOVING), ByProgram(Unstage("r")), ByOther(WriteWork("b", ROOT)),
     ByProgram(RESTORING)]
  }

  lemma OtherHistory(c: Commit)
    ensures Reaches(OTHER, c) <==> c == OTHER || c == ROOT
    ensures c in History(EDIT) <==> c == EDIT || c == ROOT
    ensures c in History(ROOT) <==> c == ROOT
  {
    OnlyParentAbove(ROOT, OTHER, c);
    ExampleHistory(c);
    HistoryIsReach(EDIT, c);
    HistoryIsReach(ROOT, c);
  }

  lemma ExampleObjects()
    ensures {ROOT, OTHER} + History(EDIT) == {ROOT, EDIT, OTHER}
    ensures {ROOT, EDIT, OTHER} + History(ROOT) == {ROOT, EDIT, OTHER}
  {
    forall c
      ensures c in {ROOT, OTHER} + History(EDIT) <==> c in {ROOT, EDIT, OTHER}
      ensures c in {ROOT, EDIT, OTHER} + History(ROOT) <==> c in {ROOT, EDIT, OTHER}
    {
      OtherHistory(c);
    }
  }

  lemma ExampleStaged()
    ensures Apply(ArchivedAt(EDIT, OTHER, false, false), STAGING) == ArchivedAt(EDIT, OTHER, true, true)
  {
    ExampleObjects();
    hide History;
  }

  lemma ExampleMoved()
    ensures Apply(ArchivedAt(EDIT, OTHER, true, true), MOVING) == ArchivedAt(EDIT, EDIT, true, true)
  {
    hide History;
    assert ArchivedAt(EDIT, OTHER, true, true).gate.refs[Branch("b") := EDIT] ==
           ArchivedAt(EDIT, EDIT, true, true).gate.refs;
  }

  lemma ExampleUnstaged()
    ensures Apply(ArchivedAt(EDIT, EDIT, true, true), Unstage("r")) == ArchivedAt(EDIT, EDIT, false, true)
  {
    hide History;
    assert ArchivedAt(EDIT, EDIT, true, true).gate.refs - {CustodyReturn("r")} ==
           ArchivedAt(EDIT, EDIT, false, true).gate.refs;
  }

  lemma ExampleReset()
    ensures Act(ArchivedAt(EDIT, EDIT, false, true), WriteWork("b", ROOT)) == ArchivedAt(ROOT, EDIT, false, true)
  {
    ExampleObjects();
    hide History;
    assert ArchivedAt(EDIT, EDIT, false, true).work.repo.refs[Branch("b") := ROOT] ==
           ArchivedAt(ROOT, EDIT, false, true).work.repo.refs;
  }

  lemma ExampleRestored()
    ensures Apply(ArchivedAt(ROOT, EDIT, false, true), RESTORING) == ArchivedAt(ROOT, OTHER, false, true)
  {
    hide History;
    assert ArchivedAt(ROOT, EDIT, false, true).gate.refs[Branch("b") := OTHER] ==
           ArchivedAt(ROOT, OTHER, false, true).gate.refs;
  }

  lemma ExampleRun()
    ensures var s, m := ArchivedAt(EDIT, OTHER, false, false), LosingReturn();
            Play(s, m[..0]) == s && Play(s, m[..1]) == ArchivedAt(EDIT, OTHER, true, true) &&
            Play(s, m[..2]) == ArchivedAt(EDIT, EDIT, true, true) &&
            Play(s, m[..3]) == ArchivedAt(EDIT, EDIT, false, true) &&
            Play(s, m[..4]) == ArchivedAt(ROOT, EDIT, false, true) &&
            Play(s, m[..5]) == ArchivedAt(ROOT, OTHER, false, true)
  {
    hide LogOf, Apply, Act, ArchivedAt, Play;
    var s, m := ArchivedAt(EDIT, OTHER, false, false), LosingReturn();
    PlayNothing(s, m);
    ExampleStaged();
    PlayOne(s, m, 0);
    ExampleMoved();
    PlayOne(s, m, 1);
    ExampleUnstaged();
    PlayOne(s, m, 2);
    ExampleReset();
    PlayOne(s, m, 3);
    ExampleRestored();
    PlayOne(s, m, 4);
  }

  lemma PlayNothing(s: State, moves: seq<Move>)
    ensures Play(s, moves[..0]) == s
  {}

  lemma ExampleIsLawful()
    ensures LawfulHistory(true, ArchivedAt(EDIT, OTHER, false, false), LosingReturn())
  {
    hide Play, LogOf, ArchivedAt, SafeStep, Apply, Happens;
    var s, m := ArchivedAt(EDIT, OTHER, false, false), LosingReturn();
    ExampleRun();
    AdditiveStepIsSafe(Play(s, m[..0]), STAGING);
    ExampleAnchored();
    AnchoredCasGateIsSafe(Play(s, m[..1]), "b", EDIT, Some(OTHER), Recover("r"));
    AdditiveStepIsSafe(Play(s, m[..2]), Unstage("r"));
    ExampleRestoreIsWarranted();
  }

  lemma ExampleAnchored()
    ensures Get(ArchivedAt(EDIT, OTHER, true, true).gate.refs, Recover("r")) == Some(OTHER)
    ensures ArchivedAt(ROOT, EDIT, false, true).archives != []
  {}

  lemma ExampleRestoreIsWarranted()
    ensures var s, m := ArchivedAt(EDIT, OTHER, false, false), LosingReturn();
            LaneMoved("b", Some(OTHER), EDIT) in LogOf(s, m[..4]).landings
  {
    hide LogOf, Play;
    var s, m := ArchivedAt(EDIT, OTHER, false, false), LosingReturn();
    ExampleRun();
    assert m[..4][..1] == m[..1];
    assert LandedBy(ArchivedAt(EDIT, OTHER, true, true), MOVING) == [LaneMoved("b", Some(OTHER), EDIT)];
    StepIsLogged(s, m[..4], 1, LaneMoved("b", Some(OTHER), EDIT));
  }

  lemma ExampleLoss()
    ensures var s := ArchivedAt(ROOT, EDIT, false, true);
            DropsReturnedHead(s, RESTORING) && Kept(s, EDIT) && !Kept(ArchivedAt(ROOT, OTHER, false, true), EDIT)
  {
    forall c ensures Reaches(ROOT, c) <==> c == ROOT { ExampleHistory(c); }
    forall c ensures Reaches(EDIT, c) <==> c == EDIT || c == ROOT { ExampleHistory(c); }
    forall c ensures Reaches(OTHER, c) <==> c == OTHER || c == ROOT { OtherHistory(c); }
    var s := ArchivedAt(ROOT, EDIT, false, true);
    assert Reaches(s.gate.refs[Branch("b")], EDIT);
  }

  /** The exception is real: a sound state with a bound archive, in which status offers the keep-local return, and a
      lawful history from there in which somebody else only resets the local branch - and the edit is lost where the
      gate is put back. */
  lemma ReturnedHeadCanBeLost(cfg: Config)
    requires cfg.gateConfigured && cfg.repoId == "repo"
    ensures var s, m := ArchivedAt(EDIT, OTHER, false, false), LosingReturn();
            Sound(s) && Inspect(cfg, s) == Some(Snapshot("b", EDIT, true, Some(ArchivedRun()))) &&
            Offered(cfg, s) == OfferKeepLocal &&
            LawfulHistory(true, s, m) && LostAt(s, m, 4, EDIT) && m[3] == ByOther(WriteWork("b", ROOT))
  {
    hide Play, LawfulHistory, ArchivedAt, Kept, Inspect, Offered, Sound, DropsReturnedHead;
    ExampleOffered(cfg);
    ExampleIsLawful();
    ExampleRun();
    ExampleLoss();
    ExampleAnchored();
    assert Reaches(EDIT, EDIT);
    ArchivesFixed(ArchivedAt(EDIT, OTHER, false, false), LosingReturn()[..4]);
  }

  lemma ExampleSound()
    ensures Sound(ArchivedAt(EDIT, OTHER, false, false))
  {
    forall c ensures Reaches(ROOT, c) <==> c == ROOT { ExampleHistory(c); }
    forall c ensures Reaches(EDIT, c) <==> c == EDIT || c == ROOT { ExampleHistory(c); }
    forall c ensures Reaches(OTHER, c) <==> c == OTHER || c == ROOT { OtherHistory(c); }
  }

  lemma ExampleInspected(cfg: Config)
    ensures var s := ArchivedAt(EDIT, OTHER, false, false);
            Inspect(cfg, s) == Some(Snapshot("b", EDIT, true, Some(ArchivedRun()))) &&
            Stack(EvidenceFor(cfg, s, "b"), s.runs) == [ArchivedRun()] && !MissingHead(s, ArchivedRun())
  {
    hide Reaches;
    var s := ArchivedAt(EDIT, OTHER, false, false);
    var ev := EvidenceFor(cfg, s, "b");
    assert FirstOwner(ev, s.runs, 0) == 0;
    assert StackFrom(ev, s.runs, 1) == [];
  }

  lemma ExampleSource(cfg: Config)
    requires cfg.gateConfigured && cfg.repoId == "repo"
    ensures var s := ArchivedAt(EDIT, OTHER, false, false);
            FindSource(cfg, s, Snapshot("b", EDIT, true, Some(ArchivedRun())), ArchivedRun()).FromArchive?
  {
    var s := ArchivedAt(EDIT, OTHER, false, false);
    ExampleHistory(OTHER);
    OtherHistory(EDIT);
    assert ArchivesOf(s.archives, "r") == s.archives;
  }

  lemma ExampleOffered(cfg: Config)
    requires cfg.gateConfigured && cfg.repoId == "repo"
    ensures var s := ArchivedAt(EDIT, OTHER, false, false);
            Sound(s) && Inspect(cfg, s) == Some(Snapshot("b", EDIT, true, Some(ArchivedRun()))) &&
            Offered(cfg, s) == OfferKeepLocal
  {
    hide Sound, ArchivedAt, Inspect, Stack, MissingHead, FindSource;
    ExampleSound();
    ExampleInspected(cfg);
    ExampleSource(cfg);
  }

  // ---- Recovering until nothing is left ----------------------------------------------------------

  function StrandedHere(s: State): nat {
    match CurrentBranch(s.work)
    case None => 0
    case Some(branch) => StrandedOn(s.runs, branch)
  }

  /** Status offers nothing more, or offers a plain recovery that cannot go through as things stand: the head was
      never verified, the row is no stranded one, or the anchor for the local head names another commit. */
  predicate NothingToDo(cfg: Config, s: State) {
    Offered(cfg, s) == NoOffer ||
    var snap := Inspect(cfg, s).value;
    var run := snap.run.value;
    !Stranded(run) || (Offered(cfg, s) == OfferPlain && (!run.verified || !GoesThrough(s, run, snap.head)))
  }

  /** No stuck run with a verified head and no archive is left that a command on offer would give back. */
  ghost predicate NothingTakeable(cfg: Config, s: State) {
    forall snap, run | Picked(cfg, s, snap, run) && Stuck(run) && run.verified &&
                       ArchivesOf(s.archives, run.id) == [] ::
      if HeadGone(cfg, s, snap.branch) then !StackOpen(cfg, s, snap, run)
      else !PlainWorthOffering(cfg, s, snap, run) || !GoesThrough(s, run, snap.head)
  }

  lemma NothingLeft(cfg: Config, s: State)
    requires Sound(s) && NothingToDo(cfg, s)
    ensures NothingTakeable(cfg, s)
  {
    hide Sound, Inspect, Stuck, Offered, HeadGone, StackOpen, PlainWorthOffering, GoesThrough, Stranded;
    forall snap, run | Picked(cfg, s, snap, run) && Stuck(run) && run.verified &&
                       ArchivesOf(s.archives, run.id) == []
      ensures if HeadGone(cfg, s, snap.branch) then !StackOpen(cfg, s, snap, run)
              else !PlainWorthOffering(cfg, s, snap, run) || !GoesThrough(s, run, snap.head)
    {
      OfferExact(cfg, s, snap, run);
      StuckIsStranded(run);
    }
  }

  lemma UnhonouredOffer(cfg: Config, s: State)
    requires OfferHonoured(cfg, Offered(cfg, s) == OfferKeepLocal, s, false)
    ensures NothingToDo(cfg, s)
  {}

  /** One recovery nobody disturbs, on a machine of its own. */
  method RecoverAlone(cfg: Config, keepLocal: bool, s: State) returns (t: State, stamped: bool)
    requires Sound(s) && SoundMergeBase(cfg.mergeBase)
    ensures Sound(t) && CurrentBranch(t.work) == CurrentBranch(s.work) && StrandsNothing(s.runs, t.runs)
    ensures stamped ==> StrandedHere(t) < StrandedHere(s)
    ensures StrandedHere(t) <= StrandedHere(s)
    ensures OfferHonoured(cfg, keepLocal, s, stamped)
  {
    hide LawfulHistory, Play, LogOf, Sound, SoundMergeBase, Landed, Carried, OfferHonoured, StrandsNothing, StrandedOn;
    var host := new Host(cfg, keepLocal, [], s);
    label Fresh:
    var o: Outcome;
    ghost var goal;
    o, stamped, goal := RecoverCustody(host);
    t := host.state;
    host.AloneStaysOnBranch@Fresh();
    match CurrentBranch(s.work) {
      case None =>
      case Some(branch) => CountFalls(s.runs, t.runs, branch, |s.runs|);
    }
  }

  /** Running what status offers, again and again: every recovery that returns custody takes a run off the branch,
      none adds one, and it stops where nothing is offered or the offer cannot go through; last is that state. */
  method RecoverAll(cfg: Config, s: State) returns (last: State, returned: nat)
    requires Sound(s) && SoundMergeBase(cfg.mergeBase)
    ensures Sound(last) && CurrentBranch(last.work) == CurrentBranch(s.work)
    ensures returned + StrandedHere(last) <= StrandedHere(s)
    ensures returned == StrandedHere(s) ==> StrandedHere(last) == 0
    ensures NothingToDo(cfg, last) && NothingTakeable(cfg, last)
  {
    hide Sound, SoundMergeBase, OfferHonoured, StrandsNothing, StrandedHere, Offered, NothingToDo, NothingTakeable;
    last, returned := s, 0;
    while true
      invariant Sound(last) && CurrentBranch(last.work) == CurrentBranch(s.work)
      invariant returned + StrandedHere(last) <= StrandedHere(s)
      decreases StrandedHere(last)
    {
      var keepLocal := Offered(cfg, last) == OfferKeepLocal;
      var next, stamped := RecoverAlone(cfg, keepLocal, last);
      if !stamped {
        UnhonouredOffer(cfg, last);
        NothingLeft(cfg, last);
        return;
      }
      last, returned := next, returned + 1;
    }
  }
}
