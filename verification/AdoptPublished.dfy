/**
 AdoptPublished: move a stale custody-returned gate lane to a local head the push
 target already holds. The lane's old head is anchored in the gate before the swap;
 the worktree and the target are only read.
 */
module Publication {
  import opened Options
  import opened Git
  import opened Refs
  import opened Runs
  import opened World
  import opened Classify
  import opened Machine
  import opened Adopt
  import opened KeepLocal
  import opened Rebind

  predicate AwaitsAdoption(s: State, snap: Snapshot) {
    snap.run.Some? && KindOf(snap.run.value) == CustodyReturned && snap.run.value.custody &&
    RelationBetween(s.work.repo, snap.head, snap.run.value.head) == Diverged
  }

  /** A run given back before its head was ever published: no push is under way and no whole binding records one. */
  predicate ReturnedUnpublished(run: Run) {
    run.custody && !run.pushActive && !run.pushStepBusy && run.submitted.Some? &&
    (run.pushed.None? ||
     ((run.fingerprint.None? || run.pushRef.None? || run.generation.None?) && run.submitted != Some(run.head)))
  }

  /** The state adoption is for: the run that speaks for the branch was given back, the worktree is clean, it has the
      head the run recorded, and neither that head nor the local one reaches the other. */
  ghost predicate StaleLane(cfg: Config, s: State, branch: string, local: Commit, run: Run) {
    CurrentBranch(s.work) == Some(branch) && HeadSha(s.work) == Some(local) && Clean(s.work) &&
    Selected(EvidenceFor(cfg, s, branch), s.runs) == Some(run) && ReturnedUnpublished(run) &&
    run.head in s.work.repo.objects && !Reaches(local, run.head) && !Reaches(run.head, local)
  }

  /** What the refs must say for the move: the lane is where the run left it, the target is at the local head, and the
      anchor for the old head is free. */
  predicate LaneMovable(cfg: Config, s: State, branch: string, local: Commit, run: Run) {
    cfg.gateConfigured && Get(s.gate.refs, Branch(branch)) == Some(run.head) &&
    RemoteHead(s, branch) == Some(local) && Compatible(s.gate, Recover(run.id), run.head)
  }

  /** The test on the relation accepts diverged histories and no others. */
  lemma AwaitsExact(cfg: Config, s: State, snap: Snapshot)
    requires Sound(s) && Inspect(cfg, s) == Some(snap) && snap.run.Some?
    ensures AwaitsAdoption(s, snap) && snap.clean <==> StaleLane(cfg, s, snap.branch, snap.head, snap.run.value)
  {
    var run := snap.run.value;
    if run.head in s.work.repo.objects { RelationExact(s.work.repo, snap.head, run.head); }
  }

  lemma OnlyInspectedIsStale(cfg: Config, s: State, branch: string, local: Commit, run: Run)
    requires StaleLane(cfg, s, branch, local, run)
    ensures Inspect(cfg, s) == Some(Snapshot(branch, local, true, Some(run)))
  {
    hide Reaches;
  }

  /** The lane as adoption leaves it: the old head anchored, the published head in its place. */
  ghost predicate LaneAdopted(s: State, t: State, branch: string, run: string, was: Commit, local: Commit) {
    SameWorktree(s, t) && t.runs == s.runs && t.remote == s.remote &&
    Get(t.gate.refs, Branch(branch)) == Some(local) && Get(t.gate.refs, Recover(run)) == Some(was) &&
    forall r :: r != Branch(branch) && r != Recover(run) ==> Get(t.gate.refs, r) == Get(s.gate.refs, r)
  }

  /** The lane was stale at or after move i, for the same run. */
  ghost predicate StaleSeen(cfg: Config, start: State, moves: seq<Move>, i: nat, branch: string, local: Commit,
                            id: string)
  {
    exists k: nat, run: Run ::
      i <= k <= |moves| && run.id == id && StaleLane(cfg, Play(start, moves[..k]), branch, local, run)
  }

  lemma StaleLater(cfg: Config, start: State, before: seq<Move>, after: seq<Move>, i: nat, branch: string,
                   local: Commit, id: string)
    requires before <= after && StaleSeen(cfg, start, before, i, branch, local, id)
    ensures StaleSeen(cfg, start, after, i, branch, local, id)
  {
    hide Play, StaleLane;
    var k: nat, run: Run :| i <= k <= |before| && run.id == id &&
                            StaleLane(cfg, Play(start, before[..k]), branch, local, run);
    assert after[..k] == before[..k];
  }

  /** The target was seen at this head at or after move i, and after that the lane was still stale. */
  ghost predicate LookedAgain(cfg: Config, start: State, moves: seq<Move>, i: nat, branch: string, local: Commit,
                              id: string)
  {
    exists j | i <= j <= |moves| ::
      RemoteHead(Play(start, moves[..j]), branch) == Some(local) && StaleSeen(cfg, start, moves, j, branch, local, id)
  }

  /** What a moved lane rests on, whoever interferes: at some point the lane was stale in this sense, after that the
      target was seen at the local head, after that the lane was still stale for the same run, and it was swapped to the
      local head from the head the run recorded. */
  ghost predicate MovedAsPublished(cfg: Config, start: State, moves: seq<Move>, before: seq<Landing>,
                                   after: seq<Landing>)
  {
    exists i, branch, local, run ::
      0 <= i <= |moves| && StaleLane(cfg, Play(start, moves[..i]), branch, local, run) &&
      LookedAgain(cfg, start, moves, i, branch, local, run.id) &&
      after == before + [LaneMoved(branch, Some(run.head), local)]
  }

  lemma PublishedMove(cfg: Config, start: State, seen: seq<Move>, imported: seq<Move>, moves: seq<Move>,
                      before: seq<Landing>, snap: Snapshot, run: Run)
    requires seen <= imported <= moves && StaleLane(cfg, Play(start, seen), snap.branch, snap.head, run)
    requires TargetSeen(start, imported, |seen|, snap.branch, snap.head)
    requires StaleSeen(cfg, start, moves, |imported|, snap.branch, snap.head, run.id)
    ensures MovedAsPublished(cfg, start, moves, before,
                             before + [LaneMoved(snap.branch, Some(run.head), snap.head)])
  {
    hide Play, StaleLane;
    assert moves[..|seen|] == seen;
    var j :| |seen| <= j <= |imported| && RemoteHead(Play(start, imported[..j]), snap.branch) == Some(snap.head);
    assert moves[..j] == imported[..j];
    assert LookedAgain(cfg, start, moves, |seen|, snap.branch, snap.head, run.id);
  }

  /** The target answered with the local head, and still does after its objects were imported. */
  method ImportPublished(host: Host, branch: string, local: Commit) returns (ok: bool)
    requires host.Valid()
    modifies host
    ensures host.Progress() && host.Steady()
    ensures ok ==> local in host.state.gate.objects
    ensures ok ==> TargetSeen(host.start, host.moves, |old(host.moves)|, branch, local)
    ensures old(host.Quiet()) ==> (ok <==> RemoteHead(old(host.state), branch) == Some(local))
    ensures old(host.Quiet()) ==> host.state == if ok then Apply(old(host.state), Import(local)) else old(host.state)
  {
    hide LawfulHistory, Play, LogOf, Sound, SoundMergeBase, Held, SafeStep;
    ok := host.Tick();
    if !ok || RemoteHead(host.state, branch) != Some(local) { return false; }
    ok := host.Tick();
    if !ok || RemoteHead(host.state, branch) != Some(local) { return false; }
    assert local in host.state.remote.Values;
    AdditiveStepIsSafe(host.state, Import(local));
    HistoryIsReach(local, local);
    host.Do(Import(local));
    label Imported:
    ok := host.Tick();
    ok := ok && RemoteHead(host.state, branch) == Some(local);
    host.Later@Imported();
    assert host.moves[..|host.moves|] == host.moves;
  }

  lemma ImportChangesObjectsOnly(cfg: Config, s: State, local: Commit)
    ensures var t := Apply(s, Import(local));
            t == s.(gate := s.gate.(objects := t.gate.objects)) && s.gate.objects <= t.gate.objects
  {}

  /** Branch, HEAD, run and relation are still those of the first inspection. */
  method StillAwaits(host: Host, snap: Snapshot) returns (same: bool)
    requires host.Valid() && snap.run.Some?
    modifies host
    ensures host.Progress() && host.Steady()
    ensures old(host.Quiet()) ==> host.state == old(host.state)
    ensures old(host.Quiet()) && Inspect(host.cfg, host.state).Some? &&
            AwaitsAdoption(host.state, Inspect(host.cfg, host.state).value) &&
            Inspect(host.cfg, host.state) == Some(snap) && snap.clean ==>
      same
    ensures same ==>
      StaleSeen(host.cfg, host.start, host.moves, |old(host.moves)|, snap.branch, snap.head, snap.run.value.id)
  {
    hide LawfulHistory, Play, LogOf, Sound, SoundMergeBase, Held, Grows, Inspect, StaleLane;
    var ok := host.Tick();
    var again := Inspect(host.cfg, host.state);
    if again.Some? && again.value.run.Some? {
      AwaitsExact(host.cfg, host.state, again.value);
      assert host.moves[..|host.moves|] == host.moves;
    }
    same := ok && again.Some? && AwaitsAdoption(host.state, again.value) && again.value.clean &&
            again.value.run.value.id == snap.run.value.id && again.value.branch == snap.branch &&
            again.value.head == snap.head;
  }

  /** Anchor the lane's head, re-read the target configuration, swap. */
  method SwapPublished(host: Host, run: string, branch: string, local: Commit, was: Commit) returns (moved: bool)
    requires host.Valid()
    modifies host
    ensures host.Progress() && host.log.stamps == old(host.log.stamps)
    ensures host.log.landings ==
      if moved then old(host.log.landings) + [LaneMoved(branch, Some(was), local)] else old(host.log.landings)
    ensures old(host.Quiet()) && was in old(host.state).gate.objects && local in old(host.state).gate.objects &&
            Get(old(host.state).gate.refs, Branch(branch)) == Some(was) ==>
      (moved <==> Compatible(old(host.state).gate, Recover(run), was))
    ensures old(host.Quiet()) && moved ==> LaneAdopted(old(host.state), host.state, branch, run, was, local)
    ensures old(host.Quiet()) && !moved ==>
      Get(host.state.gate.refs, Branch(branch)) == Get(old(host.state).gate.refs, Branch(branch))
  {
    hide LawfulHistory, Play, LogOf, Sound, SoundMergeBase, Held, SafeStep;
    moved := host.PreserveAnchor(InGate, Recover(run), was);
    if !moved { return; }
    moved := host.Tick();
    if !moved { return; }
    moved := SwapGate(host, branch, local, Some(was), Recover(run));
  }

  lemma LaneStored(s: State, branch: string)
    requires Sound(s) && Branch(branch) in s.gate.refs
    ensures s.gate.refs[Branch(branch)] in s.gate.objects
  {}

  /** AdoptPublished */
  method AdoptPublished(host: Host) returns (changed: bool)
    requires host.Valid()
    modifies host
    ensures host.Progress() && host.log.stamps == old(host.log.stamps)
    ensures changed <==> host.log.landings != old(host.log.landings)
    ensures changed ==> MovedAsPublished(host.cfg, host.start, host.moves, old(host.log.landings), host.log.landings)
    ensures old(host.Quiet()) ==>
      (changed <==> exists branch, local, run ::
         StaleLane(host.cfg, old(host.state), branch, local, run) &&
         LaneMovable(host.cfg, old(host.state), branch, local, run))
    ensures old(host.Quiet()) && changed ==>
      forall branch, local, run :: StaleLane(host.cfg, old(host.state), branch, local, run) ==>
        LaneAdopted(old(host.state), host.state, branch, run.id, run.head, local)
  {
    hide LawfulHistory, Play, LogOf, Sound, SoundMergeBase, Held, Grows, Inspect, Apply, LaneAdopted, TargetSeen,
         MovedAsPublished, AwaitsAdoption, StaleLane, StaleSeen;
    var ok := host.Tick();
    var seen := Inspect(host.cfg, host.state);
    StaleIsInspected(host.cfg, host.state);
    if !ok || seen.None? || !AwaitsAdoption(host.state, seen.value) || !seen.value.clean || !host.cfg.gateConfigured {
      return false;
    }
    AwaitsMeans(host.state, seen.value);
    var snap, run := seen.value, seen.value.run.value;
    AwaitsExact(host.cfg, host.state, snap);
    ghost var looked := host.moves;
    ok := host.Tick();
    var lane := Get(host.state.gate.refs, Branch(snap.branch));
    if !ok || lane != Some(run.head) { return false; }
    LaneStored(host.state, snap.branch);
    ghost var s, asked := host.state, |host.moves|;
    ok := ImportPublished(host, snap.branch, snap.head);
    if !ok { return false; }
    ghost var t, imported := host.state, host.moves;
    if old(host.Quiet()) {
      ImportChangesObjectsOnly(host.cfg, s, snap.head);
      ImportKeepsInspection(host.cfg, s, t);
      StillAwaited(s, t, snap);
    }
    ok := StillAwaits(host, snap);
    if !ok { return false; }
    ghost var again := host.moves;
    changed := SwapPublished(host, run.id, snap.branch, snap.head, run.head);
    StaleLater(host.cfg, host.start, again, host.moves, |imported|, snap.branch, snap.head, run.id);
    SeenLater(host.start, imported, imported, |looked|, asked, snap.branch, snap.head);
    if changed {
      PublishedMove(host.cfg, host.start, looked, imported, host.moves, old(host.log.landings), snap, run);
    }
    if old(host.Quiet()) && changed {
      AdoptedAcrossImport(s, t, host.state, snap.branch, run.id, run.head, snap.head);
    }
  }

  lemma AwaitsMeans(s: State, snap: Snapshot)
    requires AwaitsAdoption(s, snap)
    ensures snap.run.Some?
  {}

  /** A stale lane is the one inspection reports. */
  lemma StaleIsInspected(cfg: Config, s: State)
    requires Sound(s)
    ensures forall branch, local, run | StaleLane(cfg, s, branch, local, run) ::
              Inspect(cfg, s) == Some(Snapshot(branch, local, true, Some(run))) &&
              AwaitsAdoption(s, Inspect(cfg, s).value)
  {
    hide Sound, StaleLane, Inspect, AwaitsAdoption;
    forall branch, local, run | StaleLane(cfg, s, branch, local, run)
      ensures Inspect(cfg, s) == Some(Snapshot(branch, local, true, Some(run))) &&
              AwaitsAdoption(s, Inspect(cfg, s).value)
    {
      OnlyInspectedIsStale(cfg, s, branch, local, run);
      AwaitsExact(cfg, s, Inspect(cfg, s).value);
    }
  }

  lemma StillAwaited(s: State, t: State, snap: Snapshot)
    requires AwaitsAdoption(s, snap) && t.work == s.work
    ensures AwaitsAdoption(t, snap)
  {}

  lemma AdoptedAcrossImport(s: State, t: State, u: State, branch: string, run: string, was: Commit, local: Commit)
    requires t == s.(gate := s.gate.(objects := t.gate.objects)) && LaneAdopted(t, u, branch, run, was, local)
    ensures LaneAdopted(s, u, branch, run, was, local)
  {}

  lemma {:induction false} BoundIgnoresGate(a: Evidence, b: Evidence, runs: seq<Run>, n: nat)
    requires n <= |runs| && a.target == b.target && a.branch == b.branch
    ensures NewestBound(a, runs, n) == NewestBound(b, runs, n)
  {
    if n > 0 { BoundIgnoresGate(a, b, runs, n - 1); }
  }

  /** More gate objects can only prove more runs superseded. */
  lemma MoreObjectsFewerOwners(a: Evidence, b: Evidence, runs: seq<Run>, i: nat)
    requires i < |runs| && b == a.(gate := b.gate) && b.gate.refs == a.gate.refs && a.gate.objects <= b.gate.objects
    ensures Owns(b, runs, i) ==> Owns(a, runs, i)
    ensures Owns(a, runs, i) && !Unpublished(runs[i]) ==> Owns(b, runs, i)
    ensures Released(a, runs, i) <==> Released(b, runs, i)
  {
    BoundIgnoresGate(a, b, runs, i);
  }

  /** Importing objects into the gate does not change which custody-returned run speaks for the branch. */
  lemma ImportKeepsInspection(cfg: Config, s: State, t: State)
    requires Sound(s) && t == s.(gate := s.gate.(objects := t.gate.objects)) && s.gate.objects <= t.gate.objects
    requires Inspect(cfg, s).Some? && AwaitsAdoption(s, Inspect(cfg, s).value)
    ensures Inspect(cfg, t) == Inspect(cfg, s)
  {
    var snap := Inspect(cfg, s).value;
    var a, b := EvidenceFor(cfg, s, snap.branch), EvidenceFor(cfg, t, snap.branch);
    forall i | 0 <= i < |s.runs|
      ensures Owns(b, s.runs, i) ==> Owns(a, s.runs, i)
      ensures Owns(a, s.runs, i) && !Unpublished(s.runs[i]) ==> Owns(b, s.runs, i)
      ensures Released(a, s.runs, i) <==> Released(b, s.runs, i)
    {
      MoreObjectsFewerOwners(a, b, s.runs, i);
    }
    var oa, ob := FirstOwner(a, s.runs, 0), FirstOwner(b, s.runs, 0);
    var ra, rb := FirstReleased(a, s.runs, 0), FirstReleased(b, s.runs, 0);
    if ra < |s.runs| { assert Released(b, s.runs, ra); }
    if rb < |s.runs| { assert Released(a, s.runs, rb); }
    if oa < |s.runs| { assert !Unpublished(s.runs[oa]) && Owns(b, s.runs, oa); }
    if ob < |s.runs| { assert Owns(a, s.runs, ob); }
  }
}
