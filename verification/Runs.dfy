/**
 Run records and the two selection loops over them: which run owns a branch
 (inspect), and which stack of stranded runs a keep-local recovery returns at
 once (missingHeadKeepLocalRuns).
 */
module Runs {
  import opened Options
  import opened Git
  import opened Refs

  datatype Status = Queued | Pending | Running | Completed | FailedRun | Cancelled | MonitorInterrupted

  predicate Terminal(s: Status) { s.Completed? || s.FailedRun? || s.Cancelled? || s.MonitorInterrupted? }

  /** A run is active until it is over. */
  predicate Active(s: Status)
    ensures Active(s) <==> !Terminal(s)
  { s.Queued? || s.Pending? || s.Running? }

  /** The configured push target, reduced to what identity comparisons read. */
  datatype Target = Target(kind: string, fingerprint: string)

  datatype Run = Run(
    id: string,
    branch: string,
    status: Status,
    head: Commit,
    submitted: Option<Commit>,
    pushed: Option<Commit>,
    targetKind: Option<string>,
    fingerprint: Option<string>,
    pushRef: Option<string>,
    generation: Option<nat>,
    pushActive: bool,
    pushStepBusy: bool,
    reviewApproved: Option<Commit>,
    verified: bool,
    custody: bool,
    retiredPR: bool)

  // ---- Predicates on one run -------------------------------------------------

  predicate Unpublished(r: Run) {
    r.submitted.Some? && !r.custody &&
    (if r.pushed.None? then r.head != r.submitted.value || (Terminal(r.status) && !r.verified)
     else r.head != r.pushed.value)
  }

  predicate ExactBinding(target: Target, r: Run, branch: string) {
    r.branch == branch && !r.pushActive && r.pushed == Some(r.head) &&
    r.targetKind == Some(target.kind) && r.fingerprint == Some(target.fingerprint) &&
    r.pushRef == Some(branch) && r.generation.Some?
  }

  predicate SamePushTarget(older: Run, newer: Run) {
    older.targetKind.Some? && older.targetKind == newer.targetKind &&
    older.fingerprint.Some? && older.fingerprint == newer.fingerprint &&
    older.pushRef.Some? && older.pushRef == newer.pushRef
  }

  predicate HeadUnmoved(r: Run) { r.submitted == Some(r.head) }

  predicate ReleasedSubmittedHead(r: Run) {
    Terminal(r.status) && !r.custody && r.pushed.None? && r.verified && HeadUnmoved(r)
  }

  /** A terminal run whose head was never published and never handed back. */
  predicate Stranded(r: Run) { Terminal(r.status) && Unpublished(r) }

  /** Supersession reads the gate: its branch must be at the newer pushed head,
      and that head must contain the older preserved one. */
  predicate Superseded(gate: Repo, gateConfigured: bool, older: Run, newer: Option<Run>, branch: string) {
    newer.Some? && Stranded(older) && SamePushTarget(older, newer.value) && gateConfigured &&
    newer.value.pushed.Some? && Get(gate.refs, Branch(branch)) == newer.value.pushed &&
    IsAncestor(gate, older.head, newer.value.pushed.value)
  }

  // ---- What the loops are meant to find ---------------------------------------

  /** Evidence the loops read, fixed for one inspection. */
  datatype Evidence = Evidence(target: Target, gateConfigured: bool, gate: Repo, branch: string)

  /** The newest run before index n bound to an exact successful push. */
  function NewestBound(ev: Evidence, runs: seq<Run>, n: nat): Option<Run>
    requires n <= |runs|
  {
    if n == 0 then None
    else
      var earlier := NewestBound(ev, runs, n - 1);
      if earlier.Some? then earlier
      else if ExactBinding(ev.target, runs[n - 1], ev.branch) then Some(runs[n - 1])
      else None
  }

  predicate SupersededAt(ev: Evidence, runs: seq<Run>, i: nat)
    requires i < |runs|
  {
    Superseded(ev.gate, ev.gateConfigured, runs[i], NewestBound(ev, runs, i), ev.branch)
  }

  /** Run i holds the branch: it is active, or stranded and not superseded. */
  predicate Owns(ev: Evidence, runs: seq<Run>, i: nat)
    requires i < |runs|
  {
    runs[i].branch == ev.branch &&
    (Active(runs[i].status) || (Unpublished(runs[i]) && !SupersededAt(ev, runs, i)))
  }

  /** Run i may speak for the branch when no run holds it. */
  predicate Released(ev: Evidence, runs: seq<Run>, i: nat)
    requires i < |runs|
  {
    runs[i].branch == ev.branch && !Active(runs[i].status) && !Unpublished(runs[i]) &&
    (runs[i].pushed.Some? || runs[i].custody || ReleasedSubmittedHead(runs[i]))
  }

  /** Run i belongs to the stranded stack. */
  predicate InStack(ev: Evidence, runs: seq<Run>, i: nat)
    requires i < |runs|
  {
    runs[i].branch == ev.branch && Stranded(runs[i]) && !SupersededAt(ev, runs, i)
  }

  function FirstOwner(ev: Evidence, runs: seq<Run>, i: nat): (n: nat)
    requires i <= |runs|
    ensures i <= n <= |runs|
    ensures n < |runs| ==> Owns(ev, runs, n)
    ensures forall k | i <= k < n :: !Owns(ev, runs, k)
    decreases |runs| - i
  {
    if i == |runs| || Owns(ev, runs, i) then i else FirstOwner(ev, runs, i + 1)
  }

  function FirstReleased(ev: Evidence, runs: seq<Run>, i: nat): (n: nat)
    requires i <= |runs|
    ensures i <= n <= |runs|
    ensures n < |runs| ==> Released(ev, runs, n)
    ensures forall k | i <= k < n :: !Released(ev, runs, k)
    decreases |runs| - i
  {
    if i == |runs| || Released(ev, runs, i) then i else FirstReleased(ev, runs, i + 1)
  }

  /** The run inspection reports: the newest holder, else the newest released run. */
  function Selected(ev: Evidence, runs: seq<Run>): Option<Run> {
    var owner := FirstOwner(ev, runs, 0);
    if owner < |runs| then Some(runs[owner])
    else
      var released := FirstReleased(ev, runs, 0);
      if released < |runs| then Some(runs[released]) else None
  }

  function StackFrom(ev: Evidence, runs: seq<Run>, i: nat): seq<Run>
    requires i <= |runs|
    decreases |runs| - i
  {
    if i == |runs| then []
    else (if InStack(ev, runs, i) then [runs[i]] else []) + StackFrom(ev, runs, i + 1)
  }

  function Stack(ev: Evidence, runs: seq<Run>): seq<Run> { StackFrom(ev, runs, 0) }

  /** The stack collected so far by a loop that has read n records. */
  function StackUpTo(ev: Evidence, runs: seq<Run>, n: nat): seq<Run>
    requires n <= |runs|
  {
    if n == 0 then []
    else StackUpTo(ev, runs, n - 1) + (if InStack(ev, runs, n - 1) then [runs[n - 1]] else [])
  }

  lemma {:induction false} StackSplits(ev: Evidence, runs: seq<Run>, n: nat)
    requires n <= |runs|
    ensures StackUpTo(ev, runs, n) + StackFrom(ev, runs, n) == Stack(ev, runs)
  {
    if n > 0 {
      StackSplits(ev, runs, n - 1);
      var here := if InStack(ev, runs, n - 1) then [runs[n - 1]] else [];
      assert StackFrom(ev, runs, n - 1) == here + StackFrom(ev, runs, n);
      assert (StackUpTo(ev, runs, n - 1) + here) + StackFrom(ev, runs, n)
          == StackUpTo(ev, runs, n - 1) + (here + StackFrom(ev, runs, n));
    }
  }

  // ---- The loops ----------------------------------------------------------------

  /** inspect's selection loop: newest record first, one pass, early exit on an owner. */
  method SelectRun(ev: Evidence, runs: seq<Run>) returns (run: Option<Run>)
    ensures run == Selected(ev, runs)
  {
    run := None;
    var newerPushed: Option<Run> := None;
    var i := 0;
    while i < |runs|
      invariant 0 <= i <= |runs|
      invariant forall k | 0 <= k < i :: !Owns(ev, runs, k)
      invariant newerPushed == NewestBound(ev, runs, i)
      invariant run.None? ==> forall k | 0 <= k < i :: !Released(ev, runs, k)
      invariant run.Some? ==> FirstReleased(ev, runs, 0) < |runs| && run == Some(runs[FirstReleased(ev, runs, 0)])
    {
      var candidate := runs[i];
      if candidate.branch == ev.branch {
        if Active(candidate.status) || Unpublished(candidate) {
          if !(Unpublished(candidate) && Superseded(ev.gate, ev.gateConfigured, candidate, newerPushed, ev.branch)) {
            assert Owns(ev, runs, i);
            ghost var first := FirstOwner(ev, runs, 0);
            assert first == i;
            return Some(candidate);
          }
        } else {
          if newerPushed.None? && ExactBinding(ev.target, candidate, ev.branch) {
            newerPushed := Some(candidate);
          }
          if run.None? && (candidate.pushed.Some? || candidate.custody || ReleasedSubmittedHead(candidate)) {
            assert Released(ev, runs, i);
            ghost var first := FirstReleased(ev, runs, 0);
            assert first == i;
            run := Some(candidate);
          }
        }
      }
      i := i + 1;
    }
    assert FirstOwner(ev, runs, 0) == |runs|;
  }

  /** missingHeadKeepLocalRuns' collecting loop: the stack itself. */
  method CollectStack(ev: Evidence, runs: seq<Run>) returns (stack: seq<Run>)
    ensures stack == Stack(ev, runs)
  {
    stack := [];
    var newerPushed: Option<Run> := None;
    for i := 0 to |runs|
      invariant stack == StackUpTo(ev, runs, i)
      invariant newerPushed == NewestBound(ev, runs, i)
    {
      var candidate := runs[i];
      if candidate.branch == ev.branch {
        if !(Unpublished(candidate) && Superseded(ev.gate, ev.gateConfigured, candidate, newerPushed, ev.branch)) {
          if newerPushed.None? && ExactBinding(ev.target, candidate, ev.branch) {
            newerPushed := Some(candidate);
          }
          if Terminal(candidate.status) && Unpublished(candidate) {
            stack := stack + [candidate];
          }
        }
      }
    }
    StackSplits(ev, runs, |runs|);
  }

  // ---- What the pick means ------------------------------------------------------

  /** No run holding the branch is newer than the pick, and a released run is
      picked only when none holds it. */
  lemma SelectionSpec(ev: Evidence, runs: seq<Run>, i: nat)
    requires i < |runs| && Owns(ev, runs, i)
    ensures Selected(ev, runs).Some?
    ensures exists k | 0 <= k <= i ::
              Owns(ev, runs, k) && Selected(ev, runs) == Some(runs[k]) &&
              forall j | 0 <= j < k :: !Owns(ev, runs, j)
  {
    var k := FirstOwner(ev, runs, 0);
    assert k <= i;
    assert Owns(ev, runs, k) && Selected(ev, runs) == Some(runs[k]);
  }

  lemma ReleasedOnlyWithoutOwner(ev: Evidence, runs: seq<Run>)
    requires Selected(ev, runs).Some?
    requires !Active(Selected(ev, runs).value.status) && !Unpublished(Selected(ev, runs).value)
    ensures forall i | 0 <= i < |runs| :: !Owns(ev, runs, i)
    ensures exists k | 0 <= k < |runs| ::
              Released(ev, runs, k) && Selected(ev, runs) == Some(runs[k]) &&
              forall j | 0 <= j < k :: !Released(ev, runs, j)
  {
    var k := FirstReleased(ev, runs, 0);
    assert FirstOwner(ev, runs, 0) == |runs|;
    assert Released(ev, runs, k);
  }

  lemma {:induction false} StackStartsAtOwner(ev: Evidence, runs: seq<Run>, i: nat, k: nat)
    requires i <= k < |runs| && Owns(ev, runs, k) && Stranded(runs[k])
    requires forall j | i <= j < k :: !Owns(ev, runs, j)
    ensures |StackFrom(ev, runs, i)| > 0 && StackFrom(ev, runs, i)[0] == runs[k]
    decreases k - i
  {
    if i < k {
      assert !Owns(ev, runs, i);
      StackStartsAtOwner(ev, runs, i + 1, k);
    }
  }

  /** A stranded pick is the first element of the stack keep-local returns. */
  lemma StrandedPickHeadsStack(ev: Evidence, runs: seq<Run>)
    requires Selected(ev, runs).Some? && Stranded(Selected(ev, runs).value)
    ensures |Stack(ev, runs)| > 0 && Stack(ev, runs)[0] == Selected(ev, runs).value
  {
    var k := FirstOwner(ev, runs, 0);
    StackStartsAtOwner(ev, runs, 0, k);
  }

  /** The stack is exactly the stranded, not superseded runs of the branch. */
  lemma {:induction false} StackMembership(ev: Evidence, runs: seq<Run>, i: nat, r: Run)
    requires i <= |runs|
    ensures r in StackFrom(ev, runs, i) <==> exists k | i <= k < |runs| :: InStack(ev, runs, k) && runs[k] == r
    decreases |runs| - i
  {
    if i < |runs| {
      StackMembership(ev, runs, i + 1, r);
    }
  }

  // ---- Holding, told by the rows and the gate -----------------------------------------------------

  /** The run's head was pushed to the configured target, and the push is over. */
  predicate PushedAsIs(ev: Evidence, r: Run) {
    r.branch == ev.branch && !r.pushActive && r.pushed == Some(r.head) && r.targetKind == Some(ev.target.kind) &&
    r.fingerprint == Some(ev.target.fingerprint) && r.pushRef == Some(ev.branch) && r.generation.Some?
  }

  /** The run owes its head: it was never given back, and what it has is not what was pushed last or handed in - or it
      was never pushed, and nobody verified the head it ended at. */
  predicate OwesHead(r: Run) {
    r.submitted.Some? && !r.custody &&
    match r.pushed
    case Some(pushed) => r.head != pushed
    case None => r.submitted != Some(r.head) || (Terminal(r.status) && !r.verified)
  }

  /** The newest push of a newer run went to the same target, the gate branch is where it left it, and that head
      contains the one owed. */
  ghost predicate Overtaken(ev: Evidence, runs: seq<Run>, i: nat)
    requires i < |runs|
  {
    ev.gateConfigured && exists j | 0 <= j < i ::
      PushedAsIs(ev, runs[j]) && (forall k | 0 <= k < j :: !PushedAsIs(ev, runs[k])) &&
      runs[i].targetKind == runs[j].targetKind && runs[i].fingerprint == runs[j].fingerprint &&
      runs[i].pushRef == runs[j].pushRef && Get(ev.gate.refs, Branch(ev.branch)) == Some(runs[j].head) &&
      Reaches(runs[j].head, runs[i].head)
  }

  lemma {:induction false} NewestBoundIs(ev: Evidence, runs: seq<Run>, n: nat)
    requires n <= |runs|
    ensures NewestBound(ev, runs, n).None? ==> forall k | 0 <= k < n :: !PushedAsIs(ev, runs[k])
    ensures NewestBound(ev, runs, n).Some? ==>
      exists j | 0 <= j < n ::
        NewestBound(ev, runs, n) == Some(runs[j]) && PushedAsIs(ev, runs[j]) &&
        forall k | 0 <= k < j :: !PushedAsIs(ev, runs[k])
  {
    if n > 0 {
      NewestBoundIs(ev, runs, n - 1);
      assert ExactBinding(ev.target, runs[n - 1], ev.branch) <==> PushedAsIs(ev, runs[n - 1]);
    }
  }

  lemma OvertakenExact(ev: Evidence, runs: seq<Run>, i: nat)
    requires SoundRepo(ev.gate) && i < |runs|
    ensures SupersededAt(ev, runs, i) <==> Terminal(runs[i].status) && OwesHead(runs[i]) && Overtaken(ev, runs, i)
  {
    hide Reaches;
    NewestBoundIs(ev, runs, i);
    var newer := NewestBound(ev, runs, i);
    if newer.Some? {
      var j :| 0 <= j < i && newer == Some(runs[j]) && PushedAsIs(ev, runs[j]) &&
               forall k | 0 <= k < j :: !PushedAsIs(ev, runs[k]);
      forall l | 0 <= l < i && PushedAsIs(ev, runs[l]) && (forall k | 0 <= k < l :: !PushedAsIs(ev, runs[k]))
        ensures l == j
      {}
    }
  }

  /** Who holds the branch, who may speak for it, and who belongs to the stack. */
  lemma HoldersExact(ev: Evidence, runs: seq<Run>, i: nat)
    requires SoundRepo(ev.gate) && i < |runs|
    ensures Owns(ev, runs, i) <==>
      runs[i].branch == ev.branch &&
      (Active(runs[i].status) ||
       (OwesHead(runs[i]) && !(Terminal(runs[i].status) && Overtaken(ev, runs, i))))
    ensures InStack(ev, runs, i) <==>
      runs[i].branch == ev.branch && Terminal(runs[i].status) && OwesHead(runs[i]) && !Overtaken(ev, runs, i)
    ensures Released(ev, runs, i) <==>
      runs[i].branch == ev.branch && !Active(runs[i].status) && !OwesHead(runs[i]) &&
      (runs[i].pushed.Some? || runs[i].custody || (runs[i].verified && runs[i].submitted == Some(runs[i].head)))
  {
    hide Overtaken, SupersededAt;
    OvertakenExact(ev, runs, i);
  }
}
