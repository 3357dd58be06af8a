/**
 The read-only half of recovery: what inspection reports about a branch, which
 evidence makes a terminal run recoverable, and which recovery command the
 status output offers.
 */
module Classify {
  import opened Options
  import opened Git
  import opened Refs
  import opened Runs
  import opened World

  /** mergeBase stands for `git merge-base`: one best common ancestor, fixed for each pair. */
  datatype Config = Config(target: Target, gateConfigured: bool, repoId: string,
                           mergeBase: (Commit, Commit) -> Option<Commit>)

  ghost predicate SoundMergeBase(mergeBase: (Commit, Commit) -> Option<Commit>) {
    forall a, b :: mergeBase(a, b).Some? ==> Reaches(a, mergeBase(a, b).value) && Reaches(b, mergeBase(a, b).value)
  }

  /** preservedContainsLocalWork */
  predicate ContainsWork(cfg: Config, repo: Repo, local: Commit, preserved: Commit) {
    local != preserved && local in repo.objects && preserved in repo.objects &&
    cfg.mergeBase(local, preserved).Some? &&
    ContainmentProof(cfg.mergeBase(local, preserved), local, preserved).0 == Passed
  }

  /** reviewedHeadProvesEquivalentTarget */
  predicate ReviewedProves(cfg: Config, repo: Repo, local: Commit, reviewed: Commit, target: Commit) {
    reviewed in repo.objects && target in repo.objects && reviewed.tree == target.tree &&
    (IsAncestor(repo, local, reviewed) || ContainsWork(cfg, repo, local, reviewed))
  }

  /** target has every change local made since some common ancestor. */
  ghost predicate CarriesFrom(local: Commit, target: Commit, base: Commit) {
    Reaches(local, base) && Reaches(target, base) && Carries(base.tree, local.tree, target.tree)
  }

  /** target descends from local, or has every change local made since a common ancestor. */
  ghost predicate CarriesDirectly(local: Commit, target: Commit) {
    Reaches(target, local) || exists base :: CarriesFrom(local, target, base)
  }

  /** target has the exact tree of the reviewed commit, and that commit carries local's work. */
  ghost predicate CarriesVia(local: Commit, target: Commit, reviewed: Commit) {
    reviewed.tree == target.tree && CarriesDirectly(local, reviewed)
  }

  ghost predicate CarriesBy(local: Commit, target: Commit, reviewed: Option<Commit>) {
    match reviewed
    case None => CarriesDirectly(local, target)
    case Some(head) => CarriesVia(local, target, head)
  }

  lemma ContainsWorkIsReal(cfg: Config, repo: Repo, local: Commit, preserved: Commit)
    requires SoundMergeBase(cfg.mergeBase) && ContainsWork(cfg, repo, local, preserved)
    ensures exists base :: CarriesFrom(local, preserved, base)
    ensures CarriesDirectly(local, preserved)
  {
    var base := cfg.mergeBase(local, preserved).value;
    ContainmentExact(base, local, preserved);
    assert CarriesFrom(local, preserved, base);
  }

  /** Trust in a rewritten head goes through the reviewed commit itself, which the gate holds. */
  lemma ReviewedProofIsReal(cfg: Config, repo: Repo, local: Commit, reviewed: Commit, target: Commit)
    requires SoundMergeBase(cfg.mergeBase) && ReviewedProves(cfg, repo, local, reviewed, target)
    ensures CarriesVia(local, target, reviewed) && reviewed in repo.objects
  {
    if !IsAncestor(repo, local, reviewed) { ContainsWorkIsReal(cfg, repo, local, reviewed); }
  }

  /** What carrying forbids: a head with an edit is carried neither by its parent nor by a sibling
      without the edit, however the sibling was reviewed. */
  lemma DroppedEditIsNotCarried(parent: Commit, local: Commit, sibling: Commit, path: string)
    requires parent.parents == [] && local.parents == [parent] && sibling.parents == [parent]
    requires At(local.tree, path) != At(parent.tree, path) && At(sibling.tree, path) != At(local.tree, path) &&
             local != sibling
    ensures !CarriesDirectly(local, parent) && !CarriesDirectly(local, sibling)
    ensures forall reviewed :: CarriesVia(local, sibling, reviewed) ==> reviewed != parent && reviewed != sibling
  {
    OnlyParentAbove(parent, sibling, local);
    forall base | Reaches(local, base) && (Reaches(parent, base) || Reaches(sibling, base))
      ensures !CarriesFrom(local, parent, base) && !CarriesFrom(local, sibling, base)
    {
      OnlyParentAbove(parent, local, base);
      OnlyParentAbove(parent, sibling, base);
      assert base != local ==> base == parent;
    }
  }

  lemma OnlyParentAbove(parent: Commit, child: Commit, c: Commit)
    requires parent.parents == [] && child.parents == [parent]
    ensures Reaches(child, c) <==> c == child || c == parent
    ensures Reaches(parent, c) <==> c == parent
  {
    if c == parent { assert Reaches(child.parents[0], parent); }
  }

  // ---- Relation -----------------------------------------------------------------

  datatype Relation = Equal | Behind | Ahead | Diverged | Unknown

  function RelationBetween(repo: Repo, local: Commit, target: Commit): Relation {
    if target !in repo.objects then Unknown
    else if local == target then Equal
    else if IsAncestor(repo, local, target) then Behind
    else if IsAncestor(repo, target, local) then Ahead
    else Diverged
  }

  /** In a sound repository the relation is decided by ancestry alone, and the
      order in which the two ancestry questions are asked does not matter. */
  lemma RelationExact(repo: Repo, local: Commit, target: Commit)
    requires SoundRepo(repo) && local in repo.objects && target in repo.objects
    ensures RelationBetween(repo, local, target) == Behind <==> local != target && Reaches(target, local)
    ensures RelationBetween(repo, local, target) == Ahead <==> local != target && Reaches(local, target)
    ensures RelationBetween(repo, local, target) == Diverged <==> !Reaches(target, local) && !Reaches(local, target)
  {
    if Reaches(target, local) && Reaches(local, target) { ReachesAntisymmetric(local, target); }
  }

  // ---- Inspection ---------------------------------------------------------------

  datatype Kind = PushInProgress | PipelineOwned | CustodyReturned | UserOwned | LegacyUnbound | Bound

  function KindOf(r: Run): Kind {
    if r.pushActive || r.pushStepBusy then PushInProgress
    else if r.pushed.None? || r.fingerprint.None? || r.pushRef.None? || r.generation.None? || r.submitted.None? then
      if r.submitted.Some? && r.head != r.submitted.value then (if r.custody then CustodyReturned else PipelineOwned)
      else if r.submitted.Some? && r.pushed.None? then
        if r.custody then CustodyReturned
        else if Active(r.status) then PipelineOwned
        else if r.verified then UserOwned
        else PipelineOwned
      else LegacyUnbound
    else if r.head != r.pushed.value && !r.custody then PipelineOwned
    else Bound
  }

  datatype Snapshot = Snapshot(branch: string, head: Commit, clean: bool, run: Option<Run>)

  function EvidenceFor(cfg: Config, s: State, branch: string): Evidence {
    Evidence(cfg.target, cfg.gateConfigured, s.gate, branch)
  }

  function Inspect(cfg: Config, s: State): Option<Snapshot> {
    if CurrentBranch(s.work).None? || HeadSha(s.work).None? then None
    else
      var branch := CurrentBranch(s.work).value;
      Some(Snapshot(branch, HeadSha(s.work).value, Clean(s.work), Selected(EvidenceFor(cfg, s, branch), s.runs)))
  }

  // ---- Evidence -------------------------------------------------------------------

  datatype Code =
    | Ok | NoContext | NothingToRecover | RunActive | PushStep | PublishedPath | ManualReconciliation
    | UnverifiedHead | AnchorMismatch | AssumptionsChanged | IncompleteAdoption
    | ArchiveAmbiguous | ArchiveMismatch | ArchiveStale | ArchiveDirty | ArchiveMalformed | ArchiveMissing
    | ArchiveMoved | ArchiveNotDivergent | ArchiveGateInvalid | ArchiveNeedsKeepLocal
    | GateUnavailable | HeadMissing | PreserveFailed | Dirty | DivergedHeads | GateRace | ApplyFailed
    | WorktreeBusy | PostDirty | StampFailed
    | BindingChanged | Offline | RemoteMissing | RemoteMoved | RemoteAdvanced
    | KeepLocalNotApplicable | OwnershipChanged | Rebound
    | AlreadyYours

  predicate Compatible(repo: Repo, anchor: Ref, target: Commit) {
    anchor !in repo.refs || repo.refs[anchor] == target
  }

  predicate EligibleRun(s: State, r: Run) {
    r.verified && Compatible(s.work.repo, Recover(r.id), r.head) && Compatible(s.gate, Recover(r.id), r.head)
  }

  predicate MissingHead(s: State, r: Run) {
    r.verified && r.head !in s.work.repo.objects && r.head !in s.gate.objects
  }

  function Ids(stack: seq<Run>): (ids: seq<string>)
    ensures |ids| == |stack| && forall i | 0 <= i < |stack| :: ids[i] == stack[i].id
  { seq(|stack|, i requires 0 <= i < |stack| => stack[i].id) }

  function Heads(stack: seq<Run>): (heads: seq<Commit>)
    ensures |heads| == |stack| && forall i | 0 <= i < |stack| :: heads[i] == stack[i].head
  { seq(|stack|, i requires 0 <= i < |stack| => stack[i].head) }

  predicate AnyMissing(s: State, stack: seq<Run>) { exists r | r in stack :: MissingHead(s, r) }

  /** A gate branch that is neither the local head nor a stranded head needs its own anchor. */
  predicate GateHeadSafe(s: State, branch: string, local: Commit, runId: string, heads: seq<Commit>) {
    var gateHead := Get(s.gate.refs, Branch(branch));
    gateHead.Some? && gateHead.value != local && gateHead.value !in heads ==>
      gateHead.value in s.gate.objects && Compatible(s.gate, RecoverGate(runId), gateHead.value)
  }

  predicate AllEligible(s: State, snap: Snapshot, run: Run, stack: seq<Run>) {
    (forall r | r in stack :: EligibleRun(s, r)) && GateHeadSafe(s, snap.branch, snap.head, run.id, Heads(stack))
  }

  datatype HeadProof = Refused(code: Code) | Proved(verified: Commit, gateHead: Commit, equalTree: bool,
                                                    descendant: bool, anchored: bool)

  /** proveUnverifiedTerminalHead */
  function ProveHead(cfg: Config, s: State, snap: Snapshot, run: Run): HeadProof {
    var gateHead := Get(s.gate.refs, Branch(snap.branch));
    var anchor := Get(s.gate.refs, Recover(run.id));
    if !cfg.gateConfigured || gateHead.None? then Refused(UnverifiedHead)
    else if gateHead.value == run.head || IsAncestor(s.gate, run.head, gateHead.value) then
      Proved(gateHead.value, gateHead.value, false, false, false)
    else if anchor == Some(run.head) && IsAncestor(s.gate, gateHead.value, run.head) then
      Proved(run.head, gateHead.value, false, true, true)
    else if run.head !in s.gate.objects || run.head.tree != gateHead.value.tree || !snap.clean ||
            run.reviewApproved != Some(run.head) ||
            !(IsAncestor(s.gate, snap.head, run.head) || ContainsWork(cfg, s.gate, snap.head, run.head)) then
      Refused(UnverifiedHead)
    else if anchor.Some? && anchor != gateHead then Refused(AnchorMismatch)
    else Proved(gateHead.value, gateHead.value, true, false, anchor.Some?)
  }

  function ArchivesOf(archives: seq<Archive>, run: string): seq<Archive> {
    if archives == [] then []
    else (if archives[0].owner == run then [archives[0]] else []) + ArchivesOf(archives[1..], run)
  }

  predicate RequiredHead(head: Commit, run: Run) {
    Some(head) == run.pushed || Some(head) == run.reviewApproved || Some(head) == run.submitted
  }

  /** verifyRecoveryArchiveRecord: Ok, or the first check that fails. */
  function VerifyArchive(cfg: Config, s: State, snap: Snapshot, run: Run, rec: Archive): Code {
    if rec.owner != run.id || rec.repo != cfg.repoId || rec.run != run.id || rec.branch != run.branch ||
       rec.branch != snap.branch || !RequiredHead(snap.head, run) || rec.required != snap.head ||
       rec.preserved != run.head then ArchiveMismatch
    else if !Terminal(run.status) || !run.verified || run.custody then ArchiveStale
    else if !snap.clean then ArchiveDirty
    else if !("archive/" <= rec.archiveBranch) then ArchiveMalformed
    else if Branch(rec.archiveBranch) !in s.work.repo.refs then ArchiveMissing
    else if s.work.repo.refs[Branch(rec.archiveBranch)] != rec.preserved then ArchiveMoved
    else if RelationBetween(s.work.repo, rec.required, rec.preserved) != Diverged then ArchiveNotDivergent
    else if !Compatible(s.work.repo, Recover(run.id), run.head) then AnchorMismatch
    else if !cfg.gateConfigured then GateUnavailable
    else if Get(s.gate.refs, Recover(run.id)) != Some(run.head) then AnchorMismatch
    else if Branch(run.branch) !in s.gate.refs then GateUnavailable
    else if s.gate.refs[Branch(run.branch)] != rec.required && s.gate.refs[Branch(run.branch)] != rec.preserved
      then ArchiveGateInvalid
    else Ok
  }

  /** verifyBoundRecoveryArchiveRecords: exactly one record may exist. */
  function VerifyArchives(cfg: Config, s: State, snap: Snapshot, run: Run, records: seq<Archive>): Code {
    if |records| != 1 then ArchiveAmbiguous else VerifyArchive(cfg, s, snap, run, records[0])
  }

  datatype Source = NoSource(code: Code, claimed: bool) | Plain | FromArchive(record: Archive)

  predicate LocallyEligible(s: State, snap: Snapshot, run: Run) {
    run.head in s.work.repo.objects && (snap.head == run.head || IsAncestor(s.work.repo, run.head, snap.head))
  }

  predicate HalfAdopted(s: State, snap: Snapshot, run: Run) {
    var kept := Get(s.work.repo.refs, RecoverLocal(run.id));
    kept.Some? && kept.value != run.head && snap.head == run.head && !snap.clean
  }

  /** recoverySourceAvailable */
  function FindSource(cfg: Config, s: State, snap: Snapshot, run: Run): Source {
    var records := ArchivesOf(s.archives, run.id);
    var archive := if records == [] then ArchiveMissing else VerifyArchives(cfg, s, snap, run, records);
    if records != [] && archive != Ok then NoSource(archive, true)
    else if !run.verified && ProveHead(cfg, s, snap, run).Refused?
      then NoSource(ProveHead(cfg, s, snap, run).code, false)
    else if !Compatible(s.work.repo, Recover(run.id), run.head) then NoSource(AnchorMismatch, false)
    else if LocallyEligible(s, snap, run) && HalfAdopted(s, snap, run) then NoSource(IncompleteAdoption, false)
    else if cfg.gateConfigured && !Compatible(s.gate, Recover(run.id), run.head) then NoSource(AnchorMismatch, false)
    else if LocallyEligible(s, snap, run) ||
            (cfg.gateConfigured && run.head in s.gate.objects && snap.clean && snap.head in s.gate.objects &&
             (IsAncestor(s.gate, snap.head, run.head) || ContainsWork(cfg, s.gate, snap.head, run.head))) then Plain
    else if records != [] then FromArchive(records[0])
    else NoSource(ManualReconciliation, false)
  }

  // ---- The offered command -------------------------------------------------------------

  datatype Offer = NoOffer | OfferPlain | OfferKeepLocal

  /** classifyPipelineOwned, for the run inspection selected. */
  function Offered(cfg: Config, s: State): Offer {
    match Inspect(cfg, s)
    case None => NoOffer
    case Some(snap) =>
      if snap.run.None? || KindOf(snap.run.value) != PipelineOwned || !Terminal(snap.run.value.status) then NoOffer
      else
        var run := snap.run.value;
        var stack := if cfg.gateConfigured then Stack(EvidenceFor(cfg, s, snap.branch), s.runs) else [];
        if AnyMissing(s, stack) then (if AllEligible(s, snap, run, stack) then OfferKeepLocal else NoOffer)
        else match FindSource(cfg, s, snap, run)
          case NoSource(_, _) => NoOffer
          case Plain => OfferPlain
          case FromArchive(_) => OfferKeepLocal
  }
}
