/**
 The machine one recovery command runs on: every git or database command is one
 tick, and before each tick any number of actions by the user or another process
 may have happened. The command itself may then fail for a reason of its own.
 */
module Machine {
  import opened Options
  import opened Git
  import opened Refs
  import opened Runs
  import opened World
  import opened Classify

  /** What happens before one command, and whether that command is then refused. */
  datatype Turn = Turn(actions: seq<Action>, refused: bool)

  // ---- What a history leaves on record ------------------------------------------

  /** A branch moved by the program: in the worktree repository, or the lane in the gate. */
  datatype Landing =
    | WorkMoved(branch: string, was: Commit, next: Commit, why: Warrant)
    | LaneMoved(branch: string, held: Option<Commit>, next: Commit)
    | LaneRestored(branch: string, dropped: Commit, next: Commit)

  /** Counts and sets over a history: program steps other than custody stamps, actions of others, stamps; what
      others wrote to worktree branches; where the program moved branches; which heads run rows ever named as
      review-approved, and those of them the gate holds. */
  datatype Log = Log(
    acts: nat, foreign: nat, stamps: nat, written: set<(string, Option<Commit>)>, landings: seq<Landing>,
    approved: set<(string, Commit)>, vouched: set<(string, Commit)>)

  function ApprovalsIn(runs: seq<Run>): set<(string, Commit)> {
    set i | 0 <= i < |runs| && runs[i].reviewApproved.Some? :: (runs[i].id, runs[i].reviewApproved.value)
  }

  function HeldBy(gate: Repo, approved: set<(string, Commit)>): set<(string, Commit)> {
    set p | p in approved && p.1 in gate.objects
  }

  function WrittenBy(m: Move): set<(string, Option<Commit>)> {
    match m
    case ByOther(WriteWork(branch, target)) => {(branch, Some(target))}
    case ByOther(DropWork(branch)) => {(branch, None)}
    case _ => {}
  }

  predicate Moves(step: Step) { step.CasWork? || step.FastForward? || step.CasGate? || step.RestoreGate? }

  /** The branch a step moves, if it takes effect. */
  function LandedBy(s: State, step: Step): seq<Landing> {
    if !Happens(s, step) then [] else
    match step
    case CasWork(branch, next, was, why) => [WorkMoved(branch, was, next, why)]
    case FastForward(to, run) =>
      (match s.work.head
       case On(branch) => [WorkMoved(branch, HeadSha(s.work).value, to, Carrying(run, None))]
       case Detached(_) => [])
    case CasGate(branch, next, expected) => [LaneMoved(branch, expected, next)]
    case RestoreGate(branch, next, was) => [LaneRestored(branch, was, next)]
    case _ => []
  }

  function Note(log: Log, s: State, m: Move): Log {
    var t := Next(s, m);
    var approved := log.approved + ApprovalsIn(t.runs);
    var acted := m.ByProgram? && !m.step.StampCustody?;
    Log(log.acts + (if acted then 1 else 0),
        log.foreign + (if m.ByOther? then 1 else 0),
        log.stamps + (if m.ByProgram? && !acted then 1 else 0),
        log.written + WrittenBy(m),
        log.landings + (if m.ByProgram? then LandedBy(s, m.step) else []),
        approved, HeldBy(t.gate, approved))
  }

  function LogOf(start: State, moves: seq<Move>): Log {
    if moves == [] then Log(0, 0, 0, {}, [], ApprovalsIn(start.runs), HeldBy(start.gate, ApprovalsIn(start.runs)))
    else Note(LogOf(start, moves[..|moves| - 1]), Play(start, moves[..|moves| - 1]), moves[|moves| - 1])
  }

  predicate Extends(before: Log, after: Log) {
    before.acts <= after.acts && before.stamps <= after.stamps && before.written <= after.written &&
    before.landings <= after.landings && before.approved <= after.approved && before.vouched <= after.vouched
  }

  // ---- What every step of a command obeys -------------------------------------------

  /** The proof a move rests on: local's work is carried, directly or by a head that was approved for the run
      and that the gate holds. */
  ghost predicate Backed(vouched: set<(string, Commit)>, run: string, local: Commit, target: Commit,
                         reviewed: Option<Commit>)
  {
    CarriesBy(local, target, reviewed) && (reviewed.Some? ==> (run, reviewed.value) in vouched)
  }

  /** An earlier move of this history took the branch from next to was. */
  ghost predicate Undoes(landings: seq<Landing>, branch: string, next: Commit, was: Commit) {
    exists l | l in landings :: l.WorkMoved? && l.why.Carrying? && l.branch == branch && l.was == next && l.next == was
  }

  /** What a move of a branch rests on, given what the history holds so far. */
  ghost predicate Warranted(log: Log, step: Step) {
    match step
    case CasWork(branch, next, was, Carrying(run, reviewed)) => Backed(log.vouched, run, was, next, reviewed)
    case CasWork(branch, next, was, Undoing) => Undoes(log.landings, branch, next, was)
    case RestoreGate(branch, next, was) => LaneMoved(branch, Some(next), was) in log.landings
    case _ => true
  }

  /** The push head a rebind stops recording is anchored under its own generation. */
  predicate SupersededAnchored(s: State, id: string, b: Rebinding) {
    Get(s.work.repo.refs, Rewritten(id, b.generation)) == Some(b.pushed) ||
    Get(s.gate.refs, Rewritten(id, b.generation)) == Some(b.pushed)
  }

  /** What every single step of a recovery command obeys in the state it meets. */
  ghost predicate LawfulStep(keepLocal: bool, s: State, step: Step) {
    WellFormedStep(step) && (step.Rebind? ==> SupersededAnchored(s, step.id, step.bind)) &&
    (keepLocal ==> SparesWorktree(step)) &&
    if step.RestoreGate? then s.archives != [] else SafeStep(s, Apply(s, step))
  }

  /** Every program step of the history was lawful in the state it met and warranted by what came before. */
  ghost predicate LawfulHistory(keepLocal: bool, start: State, moves: seq<Move>) {
    forall k | 0 <= k < |moves| && moves[k].ByProgram? ::
      LawfulStep(keepLocal, Play(start, moves[..k]), moves[k].step) &&
      Warranted(LogOf(start, moves[..k]), moves[k].step)
  }

  lemma OneMore(keepLocal: bool, start: State, moves: seq<Move>, m: Move)
    ensures Play(start, moves + [m]) == Next(Play(start, moves), m)
    ensures LogOf(start, moves + [m]) == Note(LogOf(start, moves), Play(start, moves), m)
    ensures LawfulHistory(keepLocal, start, moves) &&
            (m.ByProgram? ==>
             LawfulStep(keepLocal, Play(start, moves), m.step) && Warranted(LogOf(start, moves), m.step))
            ==> LawfulHistory(keepLocal, start, moves + [m])
  {
    hide LawfulStep, Warranted, Note, Next;
    var all := moves + [m];
    assert all[..|moves|] == moves;
    if LawfulHistory(keepLocal, start, moves) &&
       (m.ByProgram? ==> LawfulStep(keepLocal, Play(start, moves), m.step) && Warranted(LogOf(start, moves), m.step)) {
      forall k | 0 <= k < |all| && all[k].ByProgram?
        ensures LawfulStep(keepLocal, Play(start, all[..k]), all[k].step) &&
                Warranted(LogOf(start, all[..k]), all[k].step)
      {
        if k < |moves| { assert all[..k] == moves[..k]; }
      }
    }
  }

  lemma {:induction false} ArchivesFixed(start: State, moves: seq<Move>)
    ensures Play(start, moves).archives == start.archives
  {
    if moves != [] { ArchivesFixed(start, moves[..|moves| - 1]); }
  }

  lemma {:induction false} HistoryGrows(start: State, moves: seq<Move>, k: nat)
    requires k <= |moves| && forall j | 0 <= j < |moves| && moves[j].ByProgram? :: WellFormedStep(moves[j].step)
    requires Sound(start)
    ensures Sound(Play(start, moves)) && Grows(Play(start, moves[..k]), Play(start, moves))
  {
    if k == |moves| { assert moves[..k] == moves; }
    if moves != [] {
      var before := moves[..|moves| - 1];
      HistoryGrows(start, before, if k < |moves| then k else k - 1);
      var s := Play(start, before);
      match moves[|moves| - 1] {
        case ByProgram(step) => StepIsSound(s, step);
        case ByOther(action) => ActionIsSound(s, action);
      }
      if k < |moves| {
        assert before[..k] == moves[..k];
        GrowsTransitive(Play(start, moves[..k]), s, Play(start, moves));
      }
    }
  }

  lemma NoteExtends(log: Log, s: State, m: Move)
    requires Grows(s, Next(s, m)) && log.vouched == HeldBy(s.gate, log.approved)
    ensures Extends(log, Note(log, s, m))
  {}

  /** Nothing on record is ever taken back. */
  lemma {:induction false} LogExtends(start: State, moves: seq<Move>, k: nat)
    requires k <= |moves| && forall j | 0 <= j < |moves| && moves[j].ByProgram? :: WellFormedStep(moves[j].step)
    requires Sound(start)
    ensures Extends(LogOf(start, moves[..k]), LogOf(start, moves))
  {
    hide Note, Next, Sound;
    if k == |moves| {
      assert moves[..k] == moves;
    } else {
      var n := |moves| - 1;
      var before := moves[..n];
      assert before[..k] == moves[..k] && moves[..n + 1] == moves;
      LogExtends(start, before, k);
      HistoryGrows(start, moves, n);
      ApprovedRows(start, before);
      NoteExtends(LogOf(start, before), Play(start, before), moves[n]);
    }
  }

  // ---- No loss ---------------------------------------------------------------------------

  /** The one exception to the no-loss rule: the gate is put back and the head it was moved to is kept nowhere else. */
  ghost predicate DropsReturnedHead(s: State, step: Step) {
    step.RestoreGate? && Happens(s, step) && !Reaches(step.next, step.was) && !KeptElsewhere(s, step.branch, step.was)
  }

  lemma LawfulAt(keep: bool, start: State, moves: seq<Move>, k: nat)
    requires LawfulHistory(keep, start, moves) && k < |moves| && moves[k].ByProgram?
    ensures LawfulStep(keep, Play(start, moves[..k]), moves[k].step) &&
            Warranted(LogOf(start, moves[..k]), moves[k].step)
  {}

  lemma PlayOne(start: State, moves: seq<Move>, k: nat)
    requires k < |moves|
    ensures Play(start, moves[..k + 1]) == Next(Play(start, moves[..k]), moves[k])
    ensures LogOf(start, moves[..k + 1]) == Note(LogOf(start, moves[..k]), Play(start, moves[..k]), moves[k])
  {
    hide Note, Next;
    var before := moves[..k + 1];
    assert before[..|before| - 1] == moves[..k];
  }

  /** In any interleaving and with any bound archives, a step of a command loses no commit and no edit, except
      for a restore that drops the head just returned; and without bound archives there is no such restore. */
  lemma LawfulIsSafe(keepLocal: bool, start: State, moves: seq<Move>, k: nat)
    requires LawfulHistory(keepLocal, start, moves) && k < |moves| && moves[k].ByProgram?
    ensures SafeStep(Play(start, moves[..k]), Play(start, moves[..k + 1])) ||
            DropsReturnedHead(Play(start, moves[..k]), moves[k].step)
    ensures moves[k].step.RestoreGate? ==> start.archives != []
  {
    hide Play, SafeStep, LawfulHistory, Kept, KeptElsewhere, Warranted, LogOf;
    var s, step := Play(start, moves[..k]), moves[k].step;
    PlayOne(start, moves, k);
    ArchivesFixed(start, moves[..k]);
    LawfulAt(keepLocal, start, moves, k);
    if step.RestoreGate? {
      if Happens(s, step) { RestoreKeepsExactly(s, step.branch, step.next, step.was); } else { IdleIsSafe(s); }
    }
  }

  /** A commit that goes when the gate is put back lies below the dropped head. */
  lemma OnlyDroppedHeadGoes(s: State, branch: string, next: Commit, was: Commit, c: Commit)
    requires Happens(s, RestoreGate(branch, next, was)) && Kept(s, c)
    ensures Kept(Apply(s, RestoreGate(branch, next, was)), c) || Reaches(was, c)
  {
    var t := Apply(s, RestoreGate(branch, next, was));
    if KeptIn(s.gate.refs, c) {
      var r :| r in s.gate.refs && Durable(r) && Reaches(s.gate.refs[r], c);
      if r != Branch(branch) { assert Reaches(t.gate.refs[r], c); }
    }
  }

  /** Move k lost c, and it was somebody else's, or a restore that dropped a head above c kept nowhere else. */
  ghost predicate LostAt(start: State, moves: seq<Move>, k: nat, c: Commit)
    requires k < |moves|
  {
    Kept(Play(start, moves[..k]), c) && !Kept(Play(start, moves[..k + 1]), c) &&
    (moves[k].ByProgram? ==>
       DropsReturnedHead(Play(start, moves[..k]), moves[k].step) && Reaches(moves[k].step.was, c) &&
       start.archives != [])
  }

  /** The no-loss rule over whole runs: a commit kept at one point of a command is kept at every later one, unless
      some move of somebody else dropped it, or the gate was put back over a head above it kept nowhere else. */
  lemma {:induction false} NoCommitLost(keepLocal: bool, start: State, moves: seq<Move>, m: nat, n: nat, c: Commit)
    requires LawfulHistory(keepLocal, start, moves) && m <= n <= |moves| && Kept(Play(start, moves[..m]), c)
    ensures Kept(Play(start, moves[..n]), c) || exists k | m <= k < n :: LostAt(start, moves, k, c)
    decreases n
  {
    hide LawfulHistory, Kept, SafeStep, Next, LostAt;
    if m < n {
      NoCommitLost(keepLocal, start, moves, m, n - 1, c);
      PlayOne(start, moves, n - 1);
      if Kept(Play(start, moves[..n - 1]), c) && !Kept(Play(start, moves[..n]), c) {
        LossIsAccounted(keepLocal, start, moves, n - 1, c);
      }
    }
  }

  lemma LossIsAccounted(keepLocal: bool, start: State, moves: seq<Move>, k: nat, c: Commit)
    requires LawfulHistory(keepLocal, start, moves) && k < |moves|
    requires Kept(Play(start, moves[..k]), c) && !Kept(Play(start, moves[..k + 1]), c)
    ensures LostAt(start, moves, k, c)
  {
    hide LawfulHistory, Kept, Play;
    if moves[k].ByProgram? {
      var s, step := Play(start, moves[..k]), moves[k].step;
      PlayOne(start, moves, k);
      LawfulIsSafe(keepLocal, start, moves, k);
      OnlyDroppedHeadGoes(s, step.branch, step.next, step.was, c);
    }
  }

  /** Without bound archives there is no exception. */
  lemma OnlyOthersLose(keepLocal: bool, start: State, moves: seq<Move>, c: Commit)
    requires LawfulHistory(keepLocal, start, moves) && start.archives == [] && Kept(start, c)
    ensures SafeHistory(start, moves)
    ensures Kept(Play(start, moves), c) ||
            exists k | 0 <= k < |moves| :: moves[k].ByOther? && Kept(Play(start, moves[..k]), c) &&
              !Kept(Play(start, moves[..k + 1]), c)
  {
    hide LawfulHistory, Play, Kept, SafeStep;
    forall k | 0 <= k < |moves| && moves[k].ByProgram?
      ensures SafeStep(Play(start, moves[..k]), Play(start, moves[..k + 1]))
    {
      LawfulIsSafe(keepLocal, start, moves, k);
    }
    OnlyOthersLoseCommits(start, moves, c);
  }

  // ---- Commands in a row --------------------------------------------------------------------

  /** The record of two histories in a row holds what either recorded, the first one's landings first. */
  predicate Joined(all: Log, first: Log, second: Log) {
    all.landings == first.landings + second.landings && first.written <= all.written && second.written <= all.written &&
    second.approved <= all.approved && second.vouched <= all.vouched
  }

  lemma NoteJoined(all: Log, first: Log, second: Log, s: State, m: Move)
    requires Joined(all, first, second)
    ensures Joined(Note(all, s, m), first, Note(second, s, m))
  {
    hide LandedBy, Next, ApprovalsIn;
  }

  lemma {:induction false} InTwo(start: State, first: seq<Move>, second: seq<Move>)
    ensures Play(start, first + second) == Play(Play(start, first), second)
    ensures Joined(LogOf(start, first + second), LogOf(start, first), LogOf(Play(start, first), second))
  {
    hide Note, Next;
    if second == [] {
      assert first + second == first;
      ApprovedRows(start, first);
      NothingJoined(start, first);
    } else {
      var n := |second| - 1;
      var all := first + second;
      assert all[..|all| - 1] == first + second[..n];
      InTwo(start, first, second[..n]);
      NoteJoined(LogOf(start, first + second[..n]), LogOf(start, first), LogOf(Play(start, first), second[..n]),
                 Play(start, first + second[..n]), second[n]);
    }
  }

  lemma NothingJoined(start: State, first: seq<Move>)
    requires ApprovalsIn(Play(start, first).runs) <= LogOf(start, first).approved
    requires LogOf(start, first).vouched == HeldBy(Play(start, first).gate, LogOf(start, first).approved)
    ensures Joined(LogOf(start, first), LogOf(start, first), LogOf(Play(start, first), []))
  {}

  /** What a row names as approved is on record, and vouched for once the gate holds it. */
  lemma {:induction false} ApprovedRows(start: State, moves: seq<Move>)
    ensures ApprovalsIn(Play(start, moves).runs) <= LogOf(start, moves).approved
    ensures LogOf(start, moves).vouched == HeldBy(Play(start, moves).gate, LogOf(start, moves).approved)
  {
    hide LandedBy, Next, ApprovalsIn;
  }

  lemma WarrantedLater(before: Log, after: Log, prefix: seq<Landing>, step: Step)
    requires Warranted(before, step) && before.vouched <= after.vouched && after.landings == prefix + before.landings
    ensures Warranted(after, step)
  {
    hide CarriesBy;
    forall l | l in before.landings ensures l in after.landings {}
    if step.CasWork? && step.why.Undoing? {
      var l :| l in before.landings && l.WorkMoved? && l.why.Carrying? && l.branch == step.branch &&
          l.was == step.next && l.next == step.was;
      assert l in after.landings;
    }
  }

  lemma LawfulEitherWay(keep: bool, weaker: bool, s: State, step: Step)
    requires LawfulStep(keep, s, step) && (weaker ==> keep)
    ensures LawfulStep(weaker, s, step)
  {}

  lemma LawfulAtInTwo(keep1: bool, keep2: bool, start: State, first: seq<Move>, second: seq<Move>, k: nat)
    requires LawfulHistory(keep1, start, first) && LawfulHistory(keep2, Play(start, first), second)
    requires k < |first + second| && (first + second)[k].ByProgram?
    ensures LawfulStep(keep1 && keep2, Play(start, (first + second)[..k]), (first + second)[k].step)
    ensures Warranted(LogOf(start, (first + second)[..k]), (first + second)[k].step)
  {
    hide LawfulHistory, LawfulStep, Play, Warranted, LogOf;
    if k < |first| {
      assert (first + second)[..k] == first[..k];
      LawfulAt(keep1, start, first, k);
      LawfulEitherWay(keep1, keep1 && keep2, Play(start, first[..k]), first[k].step);
    } else {
      var j := k - |first|;
      assert (first + second)[..k] == first + second[..j];
      InTwo(start, first, second[..j]);
      LawfulAt(keep2, Play(start, first), second, j);
      LawfulEitherWay(keep2, keep1 && keep2, Play(Play(start, first), second[..j]), second[j].step);
      WarrantedLater(LogOf(Play(start, first), second[..j]), LogOf(start, first + second[..j]),
                     LogOf(start, first).landings, second[j].step);
    }
  }

  /** Commands compose: the history of one command after another is again lawful,
      so everything proved of one history holds of any sequence of commands. */
  lemma LawfulInTwo(keep1: bool, keep2: bool, start: State, first: seq<Move>, second: seq<Move>)
    requires LawfulHistory(keep1, start, first) && LawfulHistory(keep2, Play(start, first), second)
    ensures LawfulHistory(keep1 && keep2, start, first + second)
  {
    hide LawfulStep, Play, Warranted, LogOf;
    var all := first + second;
    forall k | 0 <= k < |all| && all[k].ByProgram?
      ensures LawfulStep(keep1 && keep2, Play(start, all[..k]), all[k].step) &&
              Warranted(LogOf(start, all[..k]), all[k].step)
    {
      LawfulAtInTwo(keep1, keep2, start, first, second, k);
    }
  }

  /** A keep-local command leaves HEAD, worktree branches, index and files to others. */
  lemma KeepLocalSparesWorktree(start: State, moves: seq<Move>, k: nat)
    requires LawfulHistory(true, start, moves) && k < |moves| && moves[k].ByProgram?
    ensures SameWorktree(Play(start, moves[..k]), Play(start, moves[..k + 1]))
  {
    hide Warranted;
    PlayOne(start, moves, k);
    LawfulAt(true, start, moves, k);
    SparingStepKeepsWorktree(Play(start, moves[..k]), moves[k].step);
  }

  // ---- Where branches end -----------------------------------------------------------------------

  /** v is what the branch named at first, what somebody else made of it, or where the program moved it. */
  ghost predicate Explained(before: Option<Commit>, log: Log, branch: string, v: Option<Commit>) {
    v == before || (branch, v) in log.written ||
    exists l | l in log.landings :: l.WorkMoved? && l.branch == branch && v == Some(l.next)
  }

  lemma StepThatMoves(s: State, step: Step, branch: string)
    requires WellFormedStep(step)
    requires Get(Apply(s, step).work.repo.refs, Branch(branch)) != Get(s.work.repo.refs, Branch(branch))
    ensures |LandedBy(s, step)| == 1
    ensures var l := LandedBy(s, step)[0];
            l.WorkMoved? && l.branch == branch && Get(Apply(s, step).work.repo.refs, Branch(branch)) == Some(l.next)
  {
    if SparesWorktree(step) { SparingStepKeepsWorktree(s, step); }
  }

  lemma ActionHolds(s: State, action: Action, branch: string)
    ensures var now := Get(Act(s, action).work.repo.refs, Branch(branch));
            now == Get(s.work.repo.refs, Branch(branch)) || (branch, now) in WrittenBy(ByOther(action))
  {}

  lemma MoveExplained(before: Option<Commit>, log: Log, s: State, m: Move, branch: string)
    requires Explained(before, log, branch, Get(s.work.repo.refs, Branch(branch))) &&
             (m.ByProgram? ==> WellFormedStep(m.step))
    ensures Explained(before, Note(log, s, m), branch, Get(Next(s, m).work.repo.refs, Branch(branch)))
  {
    hide Apply, Act, LandedBy, Happens;
    var v, now := Get(s.work.repo.refs, Branch(branch)), Get(Next(s, m).work.repo.refs, Branch(branch));
    var after := Note(log, s, m);
    match m {
      case ByProgram(step) =>
        if v != now {
          StepThatMoves(s, step, branch);
          assert LandedBy(s, step)[0] in after.landings;
        } else {
          forall l | l in log.landings ensures l in after.landings {}
        }
      case ByOther(action) =>
        ActionHolds(s, action, branch);
    }
  }

  lemma {:induction false} BranchesExplained(start: State, moves: seq<Move>, branch: string)
    requires forall k | 0 <= k < |moves| && moves[k].ByProgram? :: WellFormedStep(moves[k].step)
    ensures Explained(Get(start.work.repo.refs, Branch(branch)), LogOf(start, moves), branch,
                      Get(Play(start, moves).work.repo.refs, Branch(branch)))
  {
    hide Explained, Note, Next;
    if moves == [] {
      StartExplained(start, branch);
    } else {
      BranchesExplained(start, moves[..|moves| - 1], branch);
      MoveExplained(Get(start.work.repo.refs, Branch(branch)), LogOf(start, moves[..|moves| - 1]),
                    Play(start, moves[..|moves| - 1]),
                    moves[|moves| - 1], branch);
    }
  }

  lemma StartExplained(start: State, branch: string)
    ensures Explained(Get(start.work.repo.refs, Branch(branch)), LogOf(start, []), branch,
                      Get(start.work.repo.refs, Branch(branch)))
  {}

  predicate Forward(l: Landing) { (l.WorkMoved? && l.why.Carrying?) || l.LaneMoved? }

  /** u takes f back. */
  predicate Reverts(u: Landing, f: Landing) {
    match (f, u)
    case (WorkMoved(b, was, next, _), WorkMoved(c, gone, back, Undoing)) => b == c && gone == next && back == was
    case (LaneMoved(b, held, next), LaneRestored(c, dropped, back)) => b == c && dropped == next && held == Some(back)
    case _ => false
  }

  /** At most one branch was moved, and at most moved back again. */
  predicate AtMostOnce(landings: seq<Landing>) {
    landings == [] ||
    (Forward(landings[0]) && (|landings| == 1 || (|landings| == 2 && Reverts(landings[1], landings[0]))))
  }

  /** The branch is where it was, where somebody else put it, or at a head the program moved it to with proof that
      it carries the work of the head left behind - and that head was there from the start or put there by others. */
  ghost predicate Carried(before: Option<Commit>, now: Option<Commit>, log: Log, moved: seq<Landing>, branch: string) {
    now == before || (branch, now) in log.written ||
    exists f | f in moved :: f.WorkMoved? && f.branch == branch && now == Some(f.next) && f.why.Carrying? &&
      Backed(log.vouched, f.why.run, f.was, f.next, f.why.reviewed) &&
      (Some(f.was) == before || (branch, Some(f.was)) in log.written)
  }

  lemma StepLandsBacked(log: Log, s: State, step: Step, l: Landing)
    requires Warranted(log, step) && l in LandedBy(s, step) && l.WorkMoved? && l.why.Carrying?
    ensures Backed(log.vouched, l.why.run, l.was, l.next, l.why.reviewed)
  {}

  /** Every forward move of a worktree branch in a lawful history rests on a proof that still stands. */
  lemma {:induction false} LandingsBacked(keepLocal: bool, start: State, moves: seq<Move>, l: Landing)
    requires Sound(start) && LawfulHistory(keepLocal, start, moves)
    requires l in LogOf(start, moves).landings && l.WorkMoved? && l.why.Carrying?
    ensures Backed(LogOf(start, moves).vouched, l.why.run, l.was, l.next, l.why.reviewed)
  {
    hide CarriesBy, LawfulStep, Warranted, LandedBy, SoundRepo, Next, Extends;
    if moves != [] {
      var n := |moves| - 1;
      LawfulPrefix(keepLocal, start, moves, n);
      LogGrows(keepLocal, start, moves, n);
      if l in LogOf(start, moves[..n]).landings {
        LandingsBacked(keepLocal, start, moves[..n], l);
      } else {
        LawfulAt(keepLocal, start, moves, n);
        StepLandsBacked(LogOf(start, moves[..n]), Play(start, moves[..n]), moves[n].step, l);
      }
    }
  }

  lemma LawfulPrefix(keepLocal: bool, start: State, moves: seq<Move>, n: nat)
    requires LawfulHistory(keepLocal, start, moves) && n <= |moves|
    ensures LawfulHistory(keepLocal, start, moves[..n])
  {
    hide LawfulStep, Warranted, Play, LogOf;
    var before := moves[..n];
    forall k | 0 <= k < |before| && before[k].ByProgram?
      ensures LawfulStep(keepLocal, Play(start, before[..k]), before[k].step) &&
              Warranted(LogOf(start, before[..k]), before[k].step)
    {
      assert before[..k] == moves[..k] && before[k] == moves[k];
    }
  }

  lemma AllWellFormed(keepLocal: bool, start: State, moves: seq<Move>)
    requires LawfulHistory(keepLocal, start, moves)
    ensures forall k | 0 <= k < |moves| && moves[k].ByProgram? :: WellFormedStep(moves[k].step)
  {
    hide Warranted;
    forall k | 0 <= k < |moves| && moves[k].ByProgram?
      ensures WellFormedStep(moves[k].step)
    {
      LawfulAt(keepLocal, start, moves, k);
    }
  }

  lemma LogGrows(keepLocal: bool, start: State, moves: seq<Move>, n: nat)
    requires Sound(start) && LawfulHistory(keepLocal, start, moves) && n + 1 == |moves|
    ensures LogOf(start, moves[..n]).vouched <= LogOf(start, moves).vouched
  {
    hide LawfulHistory, Warranted, LandedBy, Next, SoundRepo, Sound;
    AllWellFormed(keepLocal, start, moves);
    HistoryGrows(start, moves, n);
    ApprovedRows(start, moves[..n]);
    ApprovedRows(start, moves);
  }

  /** The first move of a history leaves a head that was there at first or that somebody else put there. */
  lemma {:induction false} FirstMoveLeaves(start: State, moves: seq<Move>)
    requires forall k | 0 <= k < |moves| && moves[k].ByProgram? :: WellFormedStep(moves[k].step)
    requires LogOf(start, moves).landings != [] && LogOf(start, moves).landings[0].WorkMoved?
    ensures var f := LogOf(start, moves).landings[0];
            Some(f.was) == Get(start.work.repo.refs, Branch(f.branch)) ||
            (f.branch, Some(f.was)) in LogOf(start, moves).written
  {
    hide Next;
    var before := moves[..|moves| - 1];
    if LogOf(start, before).landings == [] {
      var f := LogOf(start, moves).landings[0];
      BranchesExplained(start, before, f.branch);
    } else {
      FirstMoveLeaves(start, before);
    }
  }

  /** Containment over whole commands: after a command that moved at most one branch, every worktree branch is
      where it was, where somebody else put it, or at a head proven to carry the work it left. */
  lemma OneMoveCarries(keepLocal: bool, start: State, first: seq<Move>, second: seq<Move>, branch: string)
    requires Sound(start) && LawfulHistory(keepLocal, start, first + second)
    requires AtMostOnce(LogOf(Play(start, first), second).landings)
    ensures Carried(Get(Play(start, first).work.repo.refs, Branch(branch)),
                    Get(Play(start, first + second).work.repo.refs, Branch(branch)),
                    LogOf(start, first + second), LogOf(Play(start, first), second).landings, branch)
  {
    hide LawfulHistory, Play, LogOf, Backed, Sound, SoundRepo;
    var s, log, all := Play(start, first), LogOf(Play(start, first), second), LogOf(start, first + second);
    var before, now := Get(s.work.repo.refs, Branch(branch)),
        Get(Play(start, first + second).work.repo.refs, Branch(branch));
    AllWellFormed(keepLocal, start, first + second);
    forall k | 0 <= k < |second| && second[k].ByProgram? ensures WellFormedStep(second[k].step) {
      assert (first + second)[|first| + k] == second[k];
    }
    BranchesExplained(s, second, branch);
    InTwo(start, first, second);
    if now != before && (branch, now) !in log.written {
      var l :| l in log.landings && l.WorkMoved? && l.branch == branch && now == Some(l.next);
      var f := log.landings[0];
      FirstMoveLeaves(s, second);
      assert l == f;
      assert f in all.landings && f in log.landings;
      LandingsBacked(keepLocal, start, first + second, f);
    }
  }

  /** Only somebody else changed what a worktree branch names, and what it names now is what they wrote. */
  ghost predicate Held(s: State, t: State, written: set<(string, Option<Commit>)>) {
    forall b: string :: Get(t.work.repo.refs, Branch(b)) == Get(s.work.repo.refs, Branch(b)) ||
                        (b, Get(t.work.repo.refs, Branch(b))) in written
  }

  lemma ActionIsHeld(s: State, action: Action)
    ensures Held(s, Act(s, action), WrittenBy(ByOther(action)))
  {
    hide Act, WrittenBy;
    forall b: string ensures var now := Get(Act(s, action).work.repo.refs, Branch(b));
                             now == Get(s.work.repo.refs, Branch(b)) || (b, now) in WrittenBy(ByOther(action))
    {
      ActionHolds(s, action, b);
    }
  }

  /** No commit kept before is lost. */
  ghost predicate NothingDropped(s: State, t: State) {
    forall c: Commit :: Kept(s, c) ==> Kept(t, c)
  }

  lemma HeadIsKept(s: State, t: State, head: Commit)
    requires SameWorktree(s, t) && HeadSha(s.work) == Some(head)
    ensures Kept(t, head)
  {
    if s.work.head.On? {
      assert Get(t.work.repo.refs, Branch(s.work.head.branch)) == Some(head);
      assert Reaches(t.work.repo.refs[Branch(s.work.head.branch)], head);
    }
  }

  /** Restores of the gate put it back from this head only. */
  predicate OnlyDrops(landings: seq<Landing>, local: Commit) {
    forall l | l in landings && l.LaneRestored? :: l.dropped == local
  }

  // ---- A stretch without others ------------------------------------------------------------------------

  lemma {:induction false} StepIsLogged(start: State, moves: seq<Move>, k: nat, l: Landing)
    requires k < |moves| && moves[k].ByProgram? && l in LandedBy(Play(start, moves[..k]), moves[k].step)
    ensures l in LogOf(start, moves).landings
  {
    hide LandedBy, Next;
    var n := |moves| - 1;
    if k < n {
      assert moves[..n][..k] == moves[..k];
      StepIsLogged(start, moves[..n], k, l);
    }
  }

  lemma StepStaysOnBranch(s: State, step: Step)
    ensures CurrentBranch(Apply(s, step).work) == CurrentBranch(s.work)
  {}

  lemma {:induction false} StaysOnBranch(start: State, moves: seq<Move>)
    requires forall k | 0 <= k < |moves| :: moves[k].ByProgram?
    ensures CurrentBranch(Play(start, moves).work) == CurrentBranch(start.work)
  {
    hide Apply;
    if moves != [] {
      StaysOnBranch(start, moves[..|moves| - 1]);
      StepStaysOnBranch(Play(start, moves[..|moves| - 1]), moves[|moves| - 1].step);
    }
  }

  /** When nobody else acts, a commit can only go where the gate was put back. */
  lemma OnlyRestoreLoses(keepLocal: bool, start: State, first: seq<Move>, second: seq<Move>, c: Commit)
    requires LawfulHistory(keepLocal, start, first + second) && Kept(Play(start, first), c)
    requires forall k | 0 <= k < |second| :: second[k].ByProgram?
    ensures Kept(Play(start, first + second), c) ||
            exists l | l in LogOf(Play(start, first), second).landings :: l.LaneRestored? && Reaches(l.dropped, c)
  {
    hide LawfulHistory, Kept, Play, LogOf, Apply;
    var all, m := first + second, |first|;
    assert all[..m] == first && all[..|all|] == all;
    NoCommitLost(keepLocal, start, all, m, |all|, c);
    if !Kept(Play(start, all), c) {
      var k :| m <= k < |all| && LostAt(start, all, k, c);
      assert all[..k] == first + second[..k - m] && all[k] == second[k - m];
      InTwo(start, first, second[..k - m]);
      var step := all[k].step;
      StepIsLogged(Play(start, first), second, k - m, LaneRestored(step.branch, step.was, step.next));
    }
  }

  // ---- A look that nothing but the stamp follows ----------------------------------------------------

  /** From move i on, the program only stamps custody. */
  predicate OnlyStampsFrom(moves: seq<Move>, i: nat) {
    forall k | i <= k < |moves| && moves[k].ByProgram? :: moves[k].step.StampCustody?
  }

  lemma {:induction false} SameActsOnlyStamps(start: State, moves: seq<Move>, i: nat)
    requires i <= |moves|
    ensures LogOf(start, moves[..i]).acts <= LogOf(start, moves).acts
    ensures LogOf(start, moves[..i]).acts == LogOf(start, moves).acts ==> OnlyStampsFrom(moves, i)
  {
    hide LandedBy, Next, Play, ApprovalsIn, HeldBy, WrittenBy;
    if i == |moves| {
      assert moves[..i] == moves;
    } else {
      var before := moves[..|moves| - 1];
      assert before[..i] == moves[..i];
      SameActsOnlyStamps(start, before, i);
    }
  }

  /** With no move of others, every further move is the program's own. */
  lemma {:induction false} SameForeignOnlyProgram(start: State, moves: seq<Move>, i: nat)
    requires i <= |moves|
    ensures LogOf(start, moves[..i]).foreign <= LogOf(start, moves).foreign
    ensures LogOf(start, moves[..i]).foreign == LogOf(start, moves).foreign ==>
      forall k | i <= k < |moves| :: moves[k].ByProgram?
  {
    hide LandedBy, Next;
    if i == |moves| {
      assert moves[..i] == moves;
    } else {
      var before := moves[..|moves| - 1];
      assert before[..i] == moves[..i];
      SameForeignOnlyProgram(start, before, i);
      if LogOf(start, moves[..i]).foreign == LogOf(start, moves).foreign {
        forall k | i <= k < |moves| ensures moves[k].ByProgram? { if k < |before| { assert before[k] == moves[k]; } }
      }
    }
  }

  /** How many actions of others the script holds for the first n commands. */
  function ActionsUpTo(env: seq<Turn>, n: nat): nat {
    if n == 0 then 0 else ActionsUpTo(env, n - 1) + if n <= |env| then |env[n - 1].actions| else 0
  }

  lemma {:induction false} NoActionsBetween(env: seq<Turn>, m: nat, n: nat)
    requires m <= n && forall i | m <= i < |env| :: env[i].actions == []
    ensures ActionsUpTo(env, n) == ActionsUpTo(env, m)
    decreases n
  {
    if m < n { NoActionsBetween(env, m, n - 1); }
  }

  class Host {
    const cfg: Config
    const keepLocal: bool
    const env: seq<Turn>
    var clock: nat
    var state: State
    ghost const start: State
    ghost var moves: seq<Move>
    ghost var log: Log

    /** The current state is the result of a history in which every program step was lawful. */
    ghost predicate Recorded()
      reads this
    {
      Sound(start) && Sound(state) && SoundMergeBase(cfg.mergeBase) &&
      state == Play(start, moves) && log == LogOf(start, moves) && LawfulHistory(keepLocal, start, moves) &&
      state.archives == start.archives
    }

    /** And everyone else did exactly what the script says up to this command. */
    ghost predicate Valid()
      reads this
    {
      Recorded() && log.foreign == ActionsUpTo(env, clock)
    }

    /** Nothing interferes and nothing is refused from here on. */
    ghost predicate Quiet()
      reads this
    {
      forall i | clock <= i < |env| :: env[i].actions == [] && !env[i].refused
    }

    /** Nobody else acts from here on, though commands may still be refused. */
    ghost predicate Alone()
      reads this
    {
      forall i | clock <= i < |env| :: env[i].actions == []
    }

    twostate predicate Progress()
      reads this
    {
      Valid() && old(moves) <= moves && old(clock) <= clock
    }

    /** Nothing was stamped and the program moved no branch. */
    twostate predicate Steady()
      reads this
    {
      log.stamps == old(log.stamps) && log.landings == old(log.landings)
    }

    /** Only others changed what worktree branches name. */
    twostate predicate Untouched()
      reads this
    {
      old(log.written) <= log.written && Held(old(state), state, log.written)
    }

    /** Whatever happened in between, objects only accumulated, no anchor moved and the record only grew. */
    twostate lemma Later()
      requires Valid() && old(Valid()) && old(moves) <= moves
      ensures Grows(old(state), state) && Extends(old(log), log)
    {
      hide Warranted, LogOf;
      AllWellFormed(keepLocal, start, moves);
      HistoryGrows(start, moves, |old(moves)|);
      LogExtends(start, moves, |old(moves)|);
      assert moves[..|old(moves)|] == old(moves);
    }

    /** When nobody else acts, every move since then is the program's own. */
    twostate lemma AloneMeansProgram()
      requires Valid() && old(Valid()) && old(moves) <= moves && old(clock) <= clock && old(Alone())
      ensures forall k | |old(moves)| <= k < |moves| :: moves[k].ByProgram?
    {
      hide LawfulHistory, LogOf, Play, Sound, SoundMergeBase;
      assert moves[..|old(moves)|] == old(moves);
      NoActionsBetween(env, old(clock), clock);
      SameForeignOnlyProgram(start, moves, |old(moves)|);
    }

    /** Whatever the command has done so far, only others can have lost a commit, or a restore of the gate. */
    lemma NothingLost(c: Commit)
      requires Valid() && Kept(start, c)
      ensures Kept(state, c) || exists k | 0 <= k < |moves| :: LostAt(start, moves, k, c)
    {
      hide LawfulHistory, LostAt, Kept, LogOf;
      assert moves[..0] == [] && moves[..|moves|] == moves;
      NoCommitLost(keepLocal, start, moves, 0, |moves|, c);
    }

    /** Left alone, a command never checks out another branch. */
    twostate lemma AloneStaysOnBranch()
      requires Valid() && old(Valid()) && old(moves) <= moves && old(clock) <= clock && old(Alone())
      ensures CurrentBranch(state.work) == CurrentBranch(old(state).work)
    {
      AloneMeansProgram();
      hide LawfulHistory, LogOf, Play, Sound, SoundMergeBase;
      var first, second := old(moves), moves[|old(moves)|..];
      assert moves == first + second;
      InTwo(start, first, second);
      StaysOnBranch(Play(start, first), second);
    }

    /** Left alone, a command can only lose what lies below a head it put the gate back from. */
    twostate lemma AloneKeeps(c: Commit)
      requires Valid() && old(Valid()) && old(moves) <= moves && old(clock) <= clock && old(Alone())
      requires |old(log.landings)| <= |log.landings| && Kept(old(state), c)
      ensures Kept(state, c) ||
              exists l | l in log.landings[|old(log.landings)|..] :: l.LaneRestored? && Reaches(l.dropped, c)
    {
      AloneMeansProgram();
      hide LawfulHistory, LogOf, Play, Sound, SoundMergeBase, Kept;
      var first, second := old(moves), moves[|old(moves)|..];
      assert moves == first + second;
      InTwo(start, first, second);
      assert LogOf(Play(start, first), second).landings == log.landings[|old(log.landings)|..];
      OnlyRestoreLoses(keepLocal, start, first, second, c);
    }

    /** A head that stays checked out throughout is not lost, wherever else it is dropped. */
    twostate lemma AloneKeepsAll(local: Commit)
      requires Valid() && old(Valid()) && old(moves) <= moves && old(clock) <= clock && old(Alone())
      requires |old(log.landings)| <= |log.landings| && SameWorktree(old(state), state) &&
               HeadSha(old(state).work) == Some(local)
      requires OnlyDrops(log.landings[|old(log.landings)|..], local)
      ensures NothingDropped(old(state), state)
    {
      hide LawfulHistory, LogOf, Play, Sound, SoundMergeBase;
      HeadIsKept(old(state), state, local);
      forall c | Kept(old(state), c) ensures Kept(state, c) {
        AloneKeeps(c);
        if Reaches(local, c) { KeptDownward(state, local, c); }
      }
    }

    /** Where the worktree branches are after a command that moved at most one of them. */
    twostate lemma MovedAtMostOnce(branch: string)
      requires Valid() && old(Valid()) && old(moves) <= moves && |old(log.landings)| <= |log.landings|
      requires AtMostOnce(log.landings[|old(log.landings)|..])
      ensures Carried(Get(old(state).work.repo.refs, Branch(branch)), Get(state.work.repo.refs, Branch(branch)), log,
                      log.landings[|old(log.landings)|..], branch)
    {
      hide LawfulHistory, LogOf, Play, Sound, SoundMergeBase, AtMostOnce, Carried;
      var first, second := old(moves), moves[|old(moves)|..];
      assert moves == first + second;
      InTwo(start, first, second);
      assert LogOf(Play(start, first), second).landings == log.landings[|old(log.landings)|..];
      OneMoveCarries(keepLocal, start, first, second, branch);
    }

    /** The heads the current rows name as approved are on record. */
    lemma RowsAreApproved(run: Run)
      requires Valid() && run in state.runs && run.reviewApproved.Some?
      ensures (run.id, run.reviewApproved.value) in log.approved
    {
      hide LawfulHistory, LogOf, Play, Sound, SoundMergeBase;
      ApprovedRows(start, moves);
    }

    lemma GateVouches(run: string, head: Commit)
      requires Valid() && (run, head) in log.approved && head in state.gate.objects
      ensures (run, head) in log.vouched
    {
      hide LawfulHistory, LogOf, Play, Sound, SoundMergeBase;
      ApprovedRows(start, moves);
    }

    constructor (cfg: Config, keepLocal: bool, env: seq<Turn>, state: State)
      requires Sound(state) && SoundMergeBase(cfg.mergeBase)
      ensures Valid() && this.cfg == cfg && this.keepLocal == keepLocal && this.env == env
      ensures this.state == state && start == state && moves == [] && clock == 0 && log.stamps == 0 &&
              log.landings == []
    {
      this.cfg, this.keepLocal, this.env, this.clock, this.state := cfg, keepLocal, env, 0, state;
      this.start, this.moves, this.log := state, [], LogOf(state, []);
    }

    /** One atomic step of the program. */
    method Do(step: Step)
      requires Valid() && LawfulStep(keepLocal, state, step) && Warranted(log, step)
      modifies this
      ensures Progress() && Grows(old(state), state) && clock == old(clock)
      ensures moves == old(moves) + [ByProgram(step)]
      ensures state == Apply(old(state), step)
      ensures log.written == old(log.written) && log.stamps == old(log.stamps) + (if step.StampCustody? then 1 else 0)
      ensures log.acts == old(log.acts) + (if step.StampCustody? then 0 else 1)
      ensures log.landings == if Moves(step) then old(log.landings) + LandedBy(old(state), step) else old(log.landings)
    {
      hide LawfulHistory, Play, LogOf, Sound, SoundMergeBase, SafeStep, Apply, Grows, SupersededAnchored,
           SparesWorktree, Warranted, Extends, ApprovalsIn, Happens, HeldBy;
      StepIsSound(state, step);
      OneMore(keepLocal, start, moves, ByProgram(step));
      log := Note(log, state, ByProgram(step));
      state := Apply(state, step);
      moves := moves + [ByProgram(step)];
    }

    method Suffer(action: Action)
      requires Recorded()
      modifies this
      ensures Recorded() && Grows(old(state), state) && clock == old(clock)
      ensures moves == old(moves) + [ByOther(action)]
      ensures state == Act(old(state), action) && Steady() && log.acts == old(log.acts) &&
              log.foreign == old(log.foreign) + 1
      ensures Untouched()
    {
      hide LawfulHistory, Play, LogOf, Sound, SoundMergeBase, Act, Grows, Extends, ApprovalsIn, HeldBy, LandedBy;
      ActionIsSound(state, action);
      ActionIsHeld(state, action);
      OneMore(keepLocal, start, moves, ByOther(action));
      log := Note(log, state, ByOther(action));
      state := Act(state, action);
      moves := moves + [ByOther(action)];
    }

    /** Reach the next command: let everyone else act, then learn whether it runs. */
    method Tick() returns (ok: bool)
      requires Valid()
      modifies this
      ensures Progress() && Grows(old(state), state) && Steady() && log.acts == old(log.acts)
      ensures Untouched()
      ensures old(Quiet()) ==> ok
      ensures old(Alone()) || old(Quiet()) ==> state == old(state)
    {
      hide LawfulHistory, Play, LogOf, Sound, SoundMergeBase, Act, ActionsUpTo;
      ok := true;
      if clock < |env| {
        var turn := env[clock];
        for i := 0 to |turn.actions|
          invariant Recorded() && log.foreign == old(log.foreign) + i && old(moves) <= moves && clock == old(clock)
          invariant Grows(old(state), state) && Untouched()
          invariant Steady() && log.acts == old(log.acts)
          invariant i == 0 ==> state == old(state)
        {
          Suffer(turn.actions[i]);
        }
        ok := !turn.refused;
      }
      OneMoreTurn(env, clock);
      clock := clock + 1;
    }

    /** custody.PreserveRecoveryAnchor: create the anchor, or confirm it already names target. */
    method PreserveAnchor(side: Side, anchor: Ref, target: Commit) returns (ok: bool)
      requires Valid() && IsAnchor(anchor)
      modifies this
      ensures Progress() && Grows(old(state), state) && Steady()
      ensures ok ==> Get(RepoOf(state, side).refs, anchor) == Some(target)
      ensures Untouched()
      ensures old(Alone()) ==> state == old(state) || state == Apply(old(state), CreateAnchor(side, anchor, target))
      ensures old(Quiet()) ==> state == Apply(old(state), CreateAnchor(side, anchor, target))
      ensures old(Quiet()) ==> (ok <==> Get(RepoOf(state, side).refs, anchor) == Some(target))
    {
      hide LawfulHistory, Play, LogOf, Sound, SoundMergeBase, SafeStep;
      ok := Tick();
      if ok {
        AdditiveStepIsSafe(state, CreateAnchor(side, anchor, target));
        Do(CreateAnchor(side, anchor, target));
        ok := Get(RepoOf(state, side).refs, anchor) == Some(target);
      }
    }
  }

  lemma OneMoreTurn(env: seq<Turn>, clock: nat)
    ensures ActionsUpTo(env, clock + 1) == ActionsUpTo(env, clock) + if clock < |env| then |env[clock].actions| else 0
  {}
}
