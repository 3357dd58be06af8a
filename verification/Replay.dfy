/**
 Replay safety of opencode turns through three nested re-run mechanisms: the
 prompt-only fallback inside one run, the retry loop around it, and the agent
 fallback chain around that. Whether a failed turn ran tools travels only as
 markers inside the error it returned.
 */
module Replay {
  import opened Options

  // ---- Tool evidence -------------------------------------------------------------------

  datatype Evidence = ToolsUnknown | ToolsNone | ToolsRan

  // ---- Errors ---------------------------------------------------------------------------

  datatype Err =
    | Plain(id: nat)
    | ThinkingConflict
    | ForcedToolChoice
    | ToolsAlreadyRan
    | ToolActivityUnknown
    | SetupMarker
    | RefusedMarker
    | RejectedOutput
    | MessageFailure(retryable: bool, terminal: bool, structured: bool, toolActivity: bool)
    | Wrap(cause: Err)
    | Both(first: Err, second: Err)

  /** errors.Is: the sentinel is somewhere in the tree. */
  predicate Is(e: Err, target: Err) {
    e == target || (e.Wrap? && Is(e.cause, target)) || (e.Both? && (Is(e.first, target) || Is(e.second, target)))
  }

  /** errors.As for a message failure: the first one in depth-first order. */
  function AsFailure(e: Err): (f: Option<Err>)
    ensures f.Some? ==> f.value.MessageFailure?
  {
    match e
    case MessageFailure(_, _, _, _) => Some(e)
    case Wrap(cause) => AsFailure(cause)
    case Both(first, second) => if AsFailure(first).Some? then AsFailure(first) else AsFailure(second)
    case _ => None
  }

  /** errors.As for anything that reports a rejected structured output. */
  predicate IsRejected(e: Err) {
    e.RejectedOutput? || (e.MessageFailure? && e.structured) || (e.Wrap? && IsRejected(e.cause)) ||
    (e.Both? && (IsRejected(e.first) || IsRejected(e.second)))
  }

  function Marker(evidence: Evidence): Err { if evidence.ToolsRan? then ToolsAlreadyRan else ToolActivityUnknown }

  /** opencodeTurnFailure */
  function TurnFailure(evidence: Evidence, e: Err): Err {
    if evidence.ToolsNone? then e else Both(e, Marker(evidence))
  }

  /** thinkingConflict and forcedToolChoiceConflict: only the cause's text is quoted, not its tree. */
  function ConflictError(conflict: Conflict, evidence: Evidence): Err
    requires !conflict.NoConflict?
  {
    var sentinel := if conflict.Thinking? then ThinkingConflict else ForcedToolChoice;
    if evidence.ToolsNone? then Wrap(sentinel) else Wrap(Both(sentinel, Marker(evidence)))
  }

  predicate FallbackTrigger(e: Err) { Is(e, ThinkingConflict) || Is(e, ForcedToolChoice) }

  /** opencodeReplayUnsafe */
  predicate MarkedUnsafe(e: Err) { Is(e, ToolsAlreadyRan) || Is(e, ToolActivityUnknown) }

  /** ReplayUnsafe */
  predicate ReplayUnsafe(e: Err) {
    (AsFailure(e).Some? && AsFailure(e).value.toolActivity) || MarkedUnsafe(e)
  }

  // ---- What the wordings of an error say: text rules are parameters ------------------------

  datatype Texts = Texts(transient: Err -> bool, unavailable: Err -> bool, refused: Err -> bool)

  /** classifyOpencodeTransient */
  predicate Retries(texts: Texts, e: Err) {
    if AsFailure(e).Some? then
      var f := AsFailure(e).value;
      f.retryable && !f.terminal && !f.toolActivity
    else !MarkedUnsafe(e) && texts.transient(e)
  }

  predicate Unavailable(texts: Texts, e: Err) {
    !IsRejected(e) && !MarkedUnsafe(e) && (Is(e, SetupMarker) || texts.unavailable(e))
  }

  datatype Reason = NoFallback | Refused | IsUnavailable

  /** FallbackReasonFor */
  function FallbackReason(texts: Texts, e: Err): Reason {
    if IsRejected(e) || ReplayUnsafe(e) then NoFallback
    else if Is(e, RefusedMarker) || texts.refused(e) then Refused
    else if Unavailable(texts, e) then IsUnavailable
    else NoFallback
  }

  /** The errors an error is built of, in depth-first order. */
  function Leaves(e: Err): seq<Err> {
    match e
    case Wrap(cause) => Leaves(cause)
    case Both(first, second) => Leaves(first) + Leaves(second)
    case _ => [e]
  }

  function FirstFailure(leaves: seq<Err>): (f: Option<Err>)
    ensures f.Some? ==> f.value.MessageFailure?
  {
    if leaves == [] then None else if leaves[0].MessageFailure? then Some(leaves[0]) else FirstFailure(leaves[1..])
  }

  lemma {:induction false} FirstFailureInTwo(a: seq<Err>, b: seq<Err>)
    ensures FirstFailure(a + b) == if FirstFailure(a).Some? then FirstFailure(a) else FirstFailure(b)
  {
    if a == [] {
      assert a + b == b;
    } else {
      assert (a + b)[1..] == a[1..] + b;
      FirstFailureInTwo(a[1..], b);
    }
  }

  lemma {:induction false} LeavesExact(e: Err, target: Err)
    requires !target.Wrap? && !target.Both?
    ensures Is(e, target) <==> target in Leaves(e)
    ensures AsFailure(e) == FirstFailure(Leaves(e))
    ensures IsRejected(e) <==> exists l | l in Leaves(e) :: l.RejectedOutput? || (l.MessageFailure? && l.structured)
  {
    match e {
      case Wrap(cause) => LeavesExact(cause, target);
      case Both(first, second) =>
        LeavesExact(first, target);
        LeavesExact(second, target);
        FirstFailureInTwo(Leaves(first), Leaves(second));
      case _ => assert Leaves(e) == [e]; assert e in Leaves(e);
    }
  }

  /** What decides whether an error may be retried: the first provider failure in it, which has the last word, else that
      no marker speaks against it and its text reads as transient. */
  lemma RetryExact(texts: Texts, e: Err)
    ensures var failure := FirstFailure(Leaves(e));
            Retries(texts, e) <==>
              if failure.Some? then failure.value.retryable && !failure.value.terminal && !failure.value.toolActivity
              else ToolsAlreadyRan !in Leaves(e) && ToolActivityUnknown !in Leaves(e) && texts.transient(e)
  {
    LeavesExact(e, ToolsAlreadyRan);
    LeavesExact(e, ToolActivityUnknown);
  }

  /** What decides whether the next agent takes over: nothing in the error rejects the answer or leaves tools in doubt,
      and it says the provider refused or the agent could not be set up. */
  lemma FallbackExact(texts: Texts, e: Err)
    ensures var leaves := Leaves(e);
            var failure := FirstFailure(leaves);
            var barred := (exists l | l in leaves :: l.RejectedOutput? || (l.MessageFailure? && l.structured)) ||
                          (failure.Some? && failure.value.toolActivity) ||
                          ToolsAlreadyRan in leaves || ToolActivityUnknown in leaves;
            FallbackReason(texts, e) ==
              if barred then NoFallback
              else if RefusedMarker in leaves || texts.refused(e) then Refused
              else if SetupMarker in leaves || texts.unavailable(e) then IsUnavailable
              else NoFallback
  {
    hide Is, IsRejected, AsFailure, Leaves;
    LeavesExact(e, ToolsAlreadyRan);
    LeavesExact(e, ToolActivityUnknown);
    LeavesExact(e, RefusedMarker);
    LeavesExact(e, SetupMarker);
  }

  // ---- The event streams ---------------------------------------------------------------------------

  datatype Conflict = NoConflict | Thinking | ForcedOnly

  /** What a frame of the 1.x stream means to the gate: a tool part, session.idle, session.error, anything else. */
  datatype Frame1 = ToolPart | Idle | ErrorFrame(conflict: Conflict) | OtherFrame

  /** A 2.x frame: a tool event, one of the terminal frames, anything else. */
  datatype Frame2 = ToolEvent | Finished | Failed(refused: bool) | OtherEvent

  /** How the bytes ended. Reading flushes an unfinished last frame (tail) before it reports that it broke off. */
  datatype Cut = Eof | Broken(tail: bool)

  /** What the 1.x handler made of the frames: a tool part, session.idle, or an error it stops at. */
  datatype Seen1 = Seen1(tool: bool, idle: bool, conflict: Conflict)

  predicate Stops1(f: Frame1) { f.Idle? || (f.ErrorFrame? && !f.conflict.NoConflict?) }

  function SeenIn1(frames: seq<Frame1>): Seen1 {
    if frames == [] then Seen1(false, false, NoConflict)
    else match frames[0]
      case Idle => Seen1(false, true, NoConflict)
      case ErrorFrame(conflict) => if conflict.NoConflict? then SeenIn1(frames[1..]) else Seen1(false, false, conflict)
      case ToolPart => SeenIn1(frames[1..]).(tool := true)
      case OtherFrame => SeenIn1(frames[1..])
  }

  /** The handler stopped, and not only when the unfinished tail of a broken stream was flushed. */
  predicate StopsBefore1(frames: seq<Frame1>, cut: Cut) {
    var n := if cut == Broken(true) && frames != [] then |frames| - 1 else |frames|;
    exists k | 0 <= k < n :: Stops1(frames[k])
  }

  /** parseOpencodeSSE: the loop over the frames, and the error it returns; None is a nil return. */
  method ReadEvents1(frames: seq<Frame1>, cut: Cut) returns (seen: Seen1, err: Option<Conflict>)
    ensures seen == SeenIn1(frames)
    ensures err == StreamError1(frames, cut)
  {
    seen := Seen1(false, false, NoConflict);
    var i, tool := 0, false;
    var stopped := false;
    while i < |frames| && !stopped
      invariant 0 <= i <= |frames|
      invariant !stopped ==>
        seen == Seen1(tool, false, NoConflict) && SeenIn1(frames) == Joined1(tool, SeenIn1(frames[i..]))
      invariant !stopped ==> forall k | 0 <= k < i :: !Stops1(frames[k])
      invariant stopped ==>
        i > 0 && Stops1(frames[i - 1]) && seen == SeenIn1(frames) && forall k | 0 <= k < i - 1 :: !Stops1(frames[k])
    {
      match frames[i] {
        case Idle => seen := seen.(idle := true); stopped := true;
        case ErrorFrame(conflict) => if !conflict.NoConflict? { seen := seen.(conflict := conflict); stopped := true; }
        case ToolPart => seen := seen.(tool := true); tool := true;
        case OtherFrame =>
      }
      i := i + 1;
    }
    if cut.Broken? && (!stopped || (cut.tail && i == |frames|)) { return seen, Some(NoConflict); }
    err := if seen.conflict.NoConflict? then None else Some(seen.conflict);
  }

  function Joined1(tool: bool, rest: Seen1): Seen1 { rest.(tool := tool || rest.tool) }

  function StreamError1(frames: seq<Frame1>, cut: Cut): Option<Conflict> {
    if cut.Broken? && !StopsBefore1(frames, cut) then Some(NoConflict)
    else if SeenIn1(frames).conflict.NoConflict? then None
    else Some(SeenIn1(frames).conflict)
  }

  /** A 1.x turn ran a tool exactly when the server sends a tool part before session.idle. */
  predicate RanIn1(emitted: seq<Frame1>) {
    emitted != [] && !emitted[0].Idle? && (emitted[0].ToolPart? || RanIn1(emitted[1..]))
  }

  datatype Ending = Succeeded | ExecutionFailed(refused: bool) | Dropped

  predicate Stops2(f: Frame2) { f.Finished? || f.Failed? }

  /** What the 2.x handler made of the frames: a tool event seen, and the terminal frame if one was. */
  function SeenIn2(frames: seq<Frame2>): (seen: (bool, Ending)) {
    if frames == [] then (false, Dropped)
    else match frames[0]
      case Finished => (false, Succeeded)
      case Failed(refused) => (false, ExecutionFailed(refused))
      case ToolEvent => (true, SeenIn2(frames[1..]).1)
      case OtherEvent => SeenIn2(frames[1..])
  }

  predicate StopsBefore2(frames: seq<Frame2>, cut: Cut) {
    var n := if cut == Broken(true) && frames != [] then |frames| - 1 else |frames|;
    exists k | 0 <= k < n :: Stops2(frames[k])
  }

  /** What the stream returns: a terminal frame in the unfinished tail of a broken stream is seen, but the read error
      is what is reported. */
  function StreamEnding2(frames: seq<Frame2>, cut: Cut): Ending {
    if cut.Broken? && !StopsBefore2(frames, cut) then Dropped else SeenIn2(frames).1
  }

  function Joined2(tool: bool, rest: (bool, Ending)): (bool, Ending) { (tool || rest.0, rest.1) }

  /** parseOpencodeV2SSE: the loop over the frames, what it saw and how it reports the end. */
  method ReadEvents2(frames: seq<Frame2>, cut: Cut) returns (tool: bool, terminalFrame: bool, ending: Ending)
    ensures (tool, if terminalFrame then SeenIn2(frames).1 else Dropped) == SeenIn2(frames)
    ensures terminalFrame <==> !SeenIn2(frames).1.Dropped?
    ensures ending == StreamEnding2(frames, cut)
  {
    tool, terminalFrame, ending := false, false, Dropped;
    var i := 0;
    while i < |frames| && !terminalFrame
      invariant 0 <= i <= |frames|
      invariant !terminalFrame ==> ending == Dropped && SeenIn2(frames) == Joined2(tool, SeenIn2(frames[i..]))
      invariant !terminalFrame ==> forall k | 0 <= k < i :: !Stops2(frames[k])
      invariant terminalFrame ==> !ending.Dropped? && (tool, ending) == SeenIn2(frames)
      invariant terminalFrame ==> i > 0 && Stops2(frames[i - 1]) && forall k | 0 <= k < i - 1 :: !Stops2(frames[k])
    {
      match frames[i] {
        case Finished => terminalFrame, ending := true, Succeeded;
        case Failed(refused) => terminalFrame, ending := true, ExecutionFailed(refused);
        case ToolEvent => tool := true;
        case OtherEvent =>
      }
      i := i + 1;
    }
    if cut.Broken? && (!terminalFrame || (cut.tail && i == |frames|)) { ending := Dropped; }
  }

  predicate RanIn2(emitted: seq<Frame2>) {
    emitted != [] && !emitted[0].Finished? && !emitted[0].Failed? && (emitted[0].ToolEvent? || RanIn2(emitted[1..]))
  }

  /** A tool part that was read was sent; and once session.idle was read, what was read is all there is. */
  lemma {:induction false} ReadIsSent1(read: seq<Frame1>, emitted: seq<Frame1>)
    requires read <= emitted
    ensures SeenIn1(read).tool ==> RanIn1(emitted)
    ensures SeenIn1(read).idle && !SeenIn1(read).tool ==> !RanIn1(emitted)
  {
    if read != [] { ReadIsSent1(read[1..], emitted[1..]); }
  }

  /** Without session.idle among the frames read, a tool part may be the very next one. */
  lemma {:induction false} MoreMayFollow1(read: seq<Frame1>)
    requires !SeenIn1(read).idle && SeenIn1(read).conflict.NoConflict?
    ensures RanIn1(read + [ToolPart])
  {
    if read != [] {
      assert (read + [ToolPart])[1..] == read[1..] + [ToolPart];
      MoreMayFollow1(read[1..]);
    }
  }

  lemma {:induction false} ReadIsSent2(read: seq<Frame2>, emitted: seq<Frame2>)
    requires read <= emitted
    ensures SeenIn2(read).0 ==> RanIn2(emitted)
    ensures !SeenIn2(read).1.Dropped? && !SeenIn2(read).0 ==> !RanIn2(emitted)
  {
    if read != [] { ReadIsSent2(read[1..], emitted[1..]); }
  }

  // ---- What one session does --------------------------------------------------------------------

  datatype ProviderError = ProviderError(retryable: bool, terminal: bool, structured: bool, refused: bool,
                                         conflict: Conflict)

  datatype Response = Response(structured: bool, error: Option<ProviderError>)

  /** The concurrent message request: still in flight, failed, or answered. */
  datatype Message = InFlight | RequestFailed(dial: bool, conflict: Conflict) | Answered(response: Response)

  /** What finalizeTextResult makes of the text: an answer, nothing at all, or a rejected answer. */
  datatype Outcome = Parses | NoText | Unparsed

  /** A 1.x turn: everything the server sends for it, how much of that was read and how reading ended, the
      message as far as it is known then, and the same message after the abort and the bounded wait. */
  datatype Turn1 = Turn1(emitted: seq<Frame1>, read: nat, cut: Cut, polled: Message, waited: Message, outcome: Outcome)

  /** A 2.x turn, likewise. */
  datatype Turn2 = Turn2(admission: Message, emitted: seq<Frame2>, read: nat, cut: Cut, readBack: Option<Response>,
                         outcome: Outcome)

  /** One opencode session. */
  datatype Session =
    | NotStarted(id: nat)
    | V1(turn1: Turn1)
    | V2(turn2: Turn2)

  /** What the transport guarantees: no more is read than was sent, a finished 1.x stream waited for the message,
      and a server that was never reached ran nothing. */
  predicate WellFormed1(t: Turn1) {
    t.read <= |t.emitted| && (Error1(t).None? ==> !t.waited.InFlight?) &&
    (Settled(t).RequestFailed? && Settled(t).dial ==> !RanIn1(t.emitted))
  }

  predicate WellFormed(s: Session) {
    (s.V1? ==> WellFormed1(s.turn1)) && (s.V2? ==> s.turn2.read <= |s.turn2.emitted|)
  }

  function Frames1(t: Turn1): seq<Frame1> { if t.read <= |t.emitted| then t.emitted[..t.read] else t.emitted }

  function Frames2(t: Turn2): seq<Frame2> { if t.read <= |t.emitted| then t.emitted[..t.read] else t.emitted }

  function Error1(t: Turn1): Option<Conflict> { StreamError1(Frames1(t), t.cut) }

  function Ending2(t: Turn2): Ending { StreamEnding2(Frames2(t), t.cut) }

  /** A tool was executed, which the client cannot see. */
  predicate Ran(s: Session) {
    match s
    case NotStarted(_) => false
    case V1(t) => RanIn1(t.emitted)
    case V2(t) => RanIn2(t.emitted)
  }

  /** resolveOpencodeToolEvidence; a response lists every part of its turn. */
  function Resolve(toolOnStream: bool, message: Message, toolParts: bool, streamComplete: bool): Evidence {
    if toolOnStream then ToolsRan
    else if message.Answered? then (if toolParts then ToolsRan else ToolsNone)
    else if streamComplete then ToolsNone
    else if message.RequestFailed? && message.dial then ToolsNone
    else ToolsUnknown
  }

  /** The message once the turn is over: a complete stream waits for it, a broken one aborts and waits a while. */
  function Settled(t: Turn1): Message { if Error1(t).Some? && !t.polled.InFlight? then t.polled else t.waited }

  function Evidence1(t: Turn1): Evidence {
    Resolve(SeenIn1(Frames1(t)).tool, Settled(t), RanIn1(t.emitted), Error1(t).None?)
  }

  /** v2ToolEvidence */
  function Evidence2(t: Turn2): Evidence {
    if SeenIn2(Frames2(t)).0 then ToolsRan else if !SeenIn2(Frames2(t)).1.Dropped? then ToolsNone else ToolsUnknown
  }

  function EvidenceOf(s: Session): Evidence
    requires !s.NotStarted?
  { if s.V1? then Evidence1(s.turn1) else Evidence2(s.turn2) }

  function Provider(e: ProviderError, toolActivity: bool): Err {
    var failure := MessageFailure(e.retryable, e.terminal, e.structured, toolActivity);
    if e.refused then Both(failure, RefusedMarker) else failure
  }

  const REQUEST: Err := Wrap(Plain(1))
  const EVENTS: Err := Wrap(Plain(2))
  const NO_TEXT: Err := Wrap(Plain(3))
  const NOT_ADMITTED: Err := Plain(4)
  const NO_MESSAGE: Err := Plain(5)
  const EXECUTION: Err := Plain(6)

  function Finalize(outcome: Outcome, evidence: Evidence): Option<Err> {
    match outcome
    case Parses => None
    case NoText => Some(TurnFailure(evidence, NO_TEXT))
    case Unparsed => Some(TurnFailure(evidence, Wrap(RejectedOutput)))
  }

  /** runOnceWithFormat's 1.x path, from the moment the prompt is sent. */
  function Result1(t: Turn1, native: bool): Option<Err> {
    var evidence, message := Evidence1(t), Settled(t);
    if message.RequestFailed? then
      Some(if native && !message.conflict.NoConflict? then ConflictError(message.conflict, evidence)
           else TurnFailure(evidence, REQUEST))
    else if Error1(t).Some? then
      Some(if native && !Error1(t).value.NoConflict? then ConflictError(Error1(t).value, evidence)
           else TurnFailure(evidence, EVENTS))
    else if message.Answered? && message.response.structured then None
    else if message.Answered? && message.response.error.Some? then
      var e := message.response.error.value;
      Some(if native && !e.conflict.NoConflict? then ConflictError(e.conflict, evidence)
           else Provider(e, evidence.ToolsRan?))
    else Finalize(t.outcome, evidence)
  }

  /** runOnceV2 */
  function Result2(t: Turn2): Option<Err> {
    var evidence := Evidence2(t);
    if t.admission.InFlight? then Some(TurnFailure(evidence, NOT_ADMITTED))
    else if t.admission.RequestFailed? then Some(TurnFailure(evidence, REQUEST))
    else match Ending2(t)
      case Dropped => Some(TurnFailure(evidence, EVENTS))
      case ExecutionFailed(refused) =>
        Some(TurnFailure(evidence, if refused then Both(EXECUTION, RefusedMarker) else EXECUTION))
      case Succeeded =>
        if t.readBack.None? then Some(TurnFailure(evidence, NO_MESSAGE))
        else if t.readBack.value.error.Some? then
          Some(TurnFailure(evidence, Provider(t.readBack.value.error.value, evidence.ToolsRan?)))
        else Finalize(t.outcome, evidence)
  }

  /** A 1.x turn succeeds exactly when its request was not refused, the stream did not fail, and the message brings a
      structured answer, or no provider error and a text that parses. */
  lemma SuccessExact1(t: Turn1, native: bool)
    ensures Result1(t, native).None? <==>
      !Settled(t).RequestFailed? && Error1(t).None? &&
      ((Settled(t).Answered? && Settled(t).response.structured) ||
       ((Settled(t).Answered? ==> Settled(t).response.error.None?) && t.outcome == Parses))
  {}

  /** A 2.x turn succeeds exactly when it was admitted, its stream ended as succeeded, and the message read back brings
      no provider error and a text that parses. */
  lemma SuccessExact2(t: Turn2)
    ensures Result2(t).None? <==>
      t.admission.Answered? && Ending2(t) == Succeeded && t.readBack.Some? && t.readBack.value.error.None? &&
      t.outcome == Parses
  {}

  /** What makes a native 1.x turn fail for its schema request: the request, the stream or the message says so, in this
      order of precedence. */
  predicate SchemaRefused(t: Turn1) {
    var message := Settled(t);
    if message.RequestFailed? then !message.conflict.NoConflict?
    else if Error1(t).Some? then !Error1(t).value.NoConflict?
    else message.Answered? && !message.response.structured && message.response.error.Some? &&
         !message.response.error.value.conflict.NoConflict?
  }

  /** The prompt-only turn follows exactly a native one that failed for its schema request and is proven to have run no
      tools; a turn that made no such request never asks for another. */
  lemma PromptOnlyExact(t: Turn1)
    ensures var err := Result1(t, true);
            (err.Some? && FallbackTrigger(err.value) && !MarkedUnsafe(err.value)) <==>
            SchemaRefused(t) && Evidence1(t) == ToolsNone
    ensures var err := Result1(t, false);
            err.Some? ==> !FallbackTrigger(err.value)
  {
    hide Evidence1, Settled, Error1, Is, FallbackTrigger, MarkedUnsafe, TurnFailure, ConflictError, Provider, Finalize;
    var evidence, message := Evidence1(t), Settled(t);
    PlainDoesNotTrigger(evidence);
    FinalizeDoesNotTrigger(t.outcome, evidence);
    if message.RequestFailed? && !message.conflict.NoConflict? { ConflictTriggers(message.conflict, evidence); }
    if Error1(t).Some? && !Error1(t).value.NoConflict? { ConflictTriggers(Error1(t).value, evidence); }
    if message.Answered? && message.response.error.Some? {
      var e := message.response.error.value;
      ProviderDoesNotTrigger(e, evidence.ToolsRan?);
      if !e.conflict.NoConflict? { ConflictTriggers(e.conflict, evidence); }
    }
  }

  lemma ConflictTriggers(conflict: Conflict, evidence: Evidence)
    requires !conflict.NoConflict?
    ensures FallbackTrigger(ConflictError(conflict, evidence))
    ensures MarkedUnsafe(ConflictError(conflict, evidence)) <==> evidence != ToolsNone
  {}

  lemma ProviderDoesNotTrigger(e: ProviderError, toolActivity: bool)
    ensures !FallbackTrigger(Provider(e, toolActivity))
  {
    BothTrigger(MessageFailure(e.retryable, e.terminal, e.structured, toolActivity), RefusedMarker);
  }

  lemma BothTrigger(first: Err, second: Err)
    ensures FallbackTrigger(Both(first, second)) <==> FallbackTrigger(first) || FallbackTrigger(second)
  {
    var both := Both(first, second);
    assert both.first == first && both.second == second;
  }

  lemma PlainDoesNotTrigger(evidence: Evidence)
    ensures !FallbackTrigger(TurnFailure(evidence, REQUEST)) && !FallbackTrigger(TurnFailure(evidence, EVENTS))
  {
    MarkerDoesNotTrigger(evidence, REQUEST);
    MarkerDoesNotTrigger(evidence, EVENTS);
  }

  lemma MarkerDoesNotTrigger(evidence: Evidence, e: Err)
    ensures FallbackTrigger(TurnFailure(evidence, e)) <==> FallbackTrigger(e)
  {
    BothTrigger(e, Marker(evidence));
  }

  lemma FinalizeDoesNotTrigger(outcome: Outcome, evidence: Evidence)
    ensures Finalize(outcome, evidence).Some? ==> !FallbackTrigger(Finalize(outcome, evidence).value)
  {
    MarkerDoesNotTrigger(evidence, NO_TEXT);
    MarkerDoesNotTrigger(evidence, Wrap(RejectedOutput));
  }

  /** A failed turn whose tools are proven idle is run again or handed on where the error says so: a transient stream or
      request error and a retryable provider failure are retried, a refusal goes to the next agent. */
  lemma ProvenIsRunAgain(texts: Texts, e: ProviderError)
    ensures texts.transient(EVENTS) ==> Retries(texts, TurnFailure(ToolsNone, EVENTS))
    ensures texts.transient(REQUEST) ==> Retries(texts, TurnFailure(ToolsNone, REQUEST))
    ensures e.retryable && !e.terminal ==> Retries(texts, Provider(e, false))
    ensures e.refused && !e.structured ==> FallbackReason(texts, Provider(e, false)) == Refused
    ensures FallbackReason(texts, TurnFailure(ToolsNone, Both(EXECUTION, RefusedMarker))) == Refused
  {
    hide Retries, FallbackReason;
    RetryExact(texts, EVENTS);
    RetryExact(texts, REQUEST);
    RetryExact(texts, Provider(e, false));
    FallbackExact(texts, Provider(e, false));
    FallbackExact(texts, Both(EXECUTION, RefusedMarker));
    var leaves := Leaves(Both(EXECUTION, RefusedMarker));
    assert leaves == [EXECUTION, RefusedMarker] && leaves[1] == RefusedMarker && leaves[1..] == [RefusedMarker];
    assert FirstFailure(leaves[1..]).None? && FirstFailure(leaves).None?;
  }

  // ---- When the evidence is right ------------------------------------------------------------------

  /** Nothing vouches for the turn but a stream that ended without an error and without session.idle. */
  predicate EndedUnseen(t: Turn1) {
    var seen := SeenIn1(Frames1(t));
    Error1(t).None? && !seen.idle && !seen.tool && Settled(t).RequestFailed? && !Settled(t).dial
  }

  /** The evidence claims neither more nor less than the truth. */
  predicate Right(evidence: Evidence, ran: bool) {
    (evidence == ToolsNone ==> !ran) && (evidence == ToolsRan ==> ran)
  }

  /** The client cannot tell two turns apart that read the same and answer the same. */
  predicate LooksAlike(t: Turn1, u: Turn1) {
    Frames1(t) == Frames1(u) && u.cut == t.cut && u.polled == t.polled && u.waited == t.waited &&
    u.outcome == t.outcome &&
    (Settled(t).Answered? ==> (RanIn1(t.emitted) <==> RanIn1(u.emitted)))
  }

  /** On 1.x the evidence is right whatever the server did behind the client's back, if and only if the stream did
      not end unseen - which the client could check where it returns. */
  lemma EvidenceIsRight1(t: Turn1)
    requires WellFormed1(t)
    ensures !EndedUnseen(t) <==>
      forall u :: WellFormed1(u) && LooksAlike(t, u) ==> Right(Evidence1(u), RanIn1(u.emitted))
  {
    if EndedUnseen(t) {
      var read := Frames1(t);
      var u := t.(emitted := read + [ToolPart]);
      assert u.emitted[..u.read] == read;
      MoreMayFollow1(read);
      assert WellFormed1(u) && LooksAlike(t, u) && !Right(Evidence1(u), RanIn1(u.emitted));
    } else {
      forall u | WellFormed1(u) && LooksAlike(t, u) ensures Right(Evidence1(u), RanIn1(u.emitted)) {
        ReadIsSent1(Frames1(u), u.emitted);
      }
    }
  }

  /** On 2.x it always is. */
  lemma EvidenceIsRight2(t: Turn2)
    requires t.read <= |t.emitted|
    ensures Right(Evidence2(t), RanIn2(t.emitted))
  {
    ReadIsSent2(Frames2(t), t.emitted);
  }

  /** Which message counts: where the stream failed, the one that had come back by then, else the one waited for. */
  lemma SettledExact(t: Turn1)
    ensures Error1(t).Some? && !t.polled.InFlight? ==> Settled(t) == t.polled
    ensures Error1(t).None? || t.polled.InFlight? ==> Settled(t) == t.waited
  {}

  /** The evidence, from what the client has: a tool part on the stream or in the answer, an answer without one, a
      stream that was read to its end, or a request that never reached the server. */
  lemma EvidenceExact1(t: Turn1)
    ensures var answered := Settled(t).Answered?;
            (Evidence1(t) == ToolsRan <==> SeenIn1(Frames1(t)).tool || (answered && RanIn1(t.emitted))) &&
            (Evidence1(t) == ToolsNone <==>
               !SeenIn1(Frames1(t)).tool &&
               if answered then !RanIn1(t.emitted)
               else Error1(t).None? || (Settled(t).RequestFailed? && Settled(t).dial))
  {
    hide Settled, Frames1, SeenIn1, RanIn1, Error1;
  }

  /** Servers that ran tools and servers that did not would look like this to the client. */
  ghost predicate Ambiguous1(t: Turn1) {
    exists u: Turn1, v: Turn1 ::
      WellFormed1(u) && LooksAlike(t, u) && RanIn1(u.emitted) &&
      WellFormed1(v) && LooksAlike(t, v) && !RanIn1(v.emitted)
  }

  ghost predicate SaysNothing1(frames: seq<Frame1>) { forall f | f in frames :: !f.Idle? && !f.ToolPart? }

  lemma {:induction false} RanStartsWith(read: seq<Frame1>, more: seq<Frame1>)
    ensures SaysNothing1(read) ==> (RanIn1(read + more) <==> RanIn1(more))
    ensures !SaysNothing1(read) ==> (RanIn1(read + more) <==> RanIn1(read))
  {
    if read == [] {
      assert read + more == more;
    } else {
      assert (read + more)[1..] == read[1..] + more;
      assert read == [read[0]] + read[1..];
      RanStartsWith(read[1..], more);
    }
  }

  /** The client never gives up where it could know: unknown evidence means that the server may or may not have run a
      tool, if and only if what was read has no session.idle and no tool part. */
  lemma EvidenceIsBest1(t: Turn1)
    requires WellFormed1(t) && Evidence1(t) == ToolsUnknown
    ensures Ambiguous1(t) <==> SaysNothing1(Frames1(t))
  {
    hide SaysNothing1, Settled, Error1, SeenIn1;
    var read := Frames1(t);
    if SaysNothing1(read) {
      var u, v := t.(emitted := read + [ToolPart]), t.(emitted := read);
      assert u.emitted[..u.read] == read && v.emitted[..v.read] == read;
      RanStartsWith(read, [ToolPart]);
      RanStartsWith(read, []);
      assert read + [] == read;
      SameFrames(t, u);
      SameFrames(t, v);
      assert RanIn1(u.emitted) && !RanIn1(v.emitted);
    } else {
      forall u | WellFormed1(u) && LooksAlike(t, u) ensures RanIn1(u.emitted) <==> RanIn1(read) {
        assert u.emitted == Frames1(u) + u.emitted[u.read..];
        RanStartsWith(read, u.emitted[u.read..]);
      }
    }
  }

  lemma SameFrames(t: Turn1, u: Turn1)
    requires u == t.(emitted := u.emitted) && Frames1(t) == Frames1(u)
    ensures Error1(u) == Error1(t) && Settled(u) == Settled(t)
  {}

  predicate LooksAlike2(t: Turn2, u: Turn2) { u == t.(emitted := u.emitted) && Frames2(u) == Frames2(t) }

  lemma {:induction false} NothingSeen2(frames: seq<Frame2>)
    requires !SeenIn2(frames).0 && SeenIn2(frames).1.Dropped?
    ensures RanIn2(frames + [ToolEvent]) && !RanIn2(frames)
  {
    if frames == [] {
      assert frames + [ToolEvent] == [ToolEvent];
    } else {
      assert (frames + [ToolEvent])[1..] == frames[1..] + [ToolEvent];
      NothingSeen2(frames[1..]);
    }
  }

  /** On 2.x unknown evidence always means that. */
  lemma EvidenceIsBest2(t: Turn2)
    requires t.read <= |t.emitted| && Evidence2(t) == ToolsUnknown
    ensures exists u: Turn2, v: Turn2 ::
      u.read <= |u.emitted| && LooksAlike2(t, u) && RanIn2(u.emitted) &&
      v.read <= |v.emitted| && LooksAlike2(t, v) && !RanIn2(v.emitted)
  {
    var read := Frames2(t);
    var u, v := t.(emitted := read + [ToolEvent]), t.(emitted := read);
    assert u.emitted[..u.read] == read && v.emitted[..v.read] == read;
    NothingSeen2(read);
    assert LooksAlike2(t, u) && LooksAlike2(t, v);
  }

  /** A 1.x stream that ends cleanly before session.idle and before the tool part, with a failed request behind it,
      reads as proof that nothing ran, and its error may be retried. */
  lemma MissedIdleIsRetried(texts: Texts)
    requires texts.transient(REQUEST)
    ensures var t := Turn1([OtherFrame, ToolPart, Idle], 1, Eof, InFlight, RequestFailed(false, NoConflict), NoText);
            WellFormed1(t) && EndedUnseen(t) && RanIn1(t.emitted) && Result1(t, true).Some? &&
            Retries(texts, Result1(t, true).value)
  {
    assert !MarkedUnsafe(REQUEST);
    var t := Turn1([OtherFrame, ToolPart, Idle], 1, Eof, InFlight, RequestFailed(false, NoConflict), NoText);
    assert t.emitted[..1] == [OtherFrame];
    assert [OtherFrame][1..] == [] && t.emitted[1..] == [ToolPart, Idle];
  }

  // ---- The markers do their work ------------------------------------------------------------------

  /** An error no layer will re-run past. */
  predicate Withheld(e: Err) {
    ReplayUnsafe(e) && (FallbackTrigger(e) ==> MarkedUnsafe(e)) &&
    (AsFailure(e).Some? ==> AsFailure(e).value.toolActivity)
  }

  lemma WrappedStaysWithheld(e: Err)
    ensures Withheld(Wrap(e)) <==> Withheld(e)
  {}

  /** No classifier at any layer lets a withheld error be run again. */
  lemma WithheldIsFinal(texts: Texts, e: Err)
    requires Withheld(e)
    ensures !Retries(texts, e)
    ensures FallbackReason(texts, e) == NoFallback
    ensures FallbackTrigger(e) ==> MarkedUnsafe(e)
  {}

  lemma MarkedIsWithheld(evidence: Evidence, e: Err)
    requires evidence != ToolsNone && (AsFailure(e).Some? ==> AsFailure(e).value.toolActivity)
    ensures Withheld(TurnFailure(evidence, e))
  {
    assert Is(Marker(evidence), Marker(evidence));
  }

  lemma ConflictIsWithheld(conflict: Conflict, evidence: Evidence)
    requires evidence != ToolsNone && !conflict.NoConflict?
    ensures Withheld(ConflictError(conflict, evidence))
  {
    assert Is(Marker(evidence), Marker(evidence));
  }

  lemma ProviderIsWithheld(e: ProviderError)
    ensures Withheld(Provider(e, true))
  {}

  lemma FinalizeIsWithheld(outcome: Outcome, evidence: Evidence)
    requires evidence != ToolsNone && Finalize(outcome, evidence).Some?
    ensures Withheld(Finalize(outcome, evidence).value)
  {
    MarkedIsWithheld(evidence, NO_TEXT);
    MarkedIsWithheld(evidence, Wrap(RejectedOutput));
  }

  /** Every failed turn whose tools are not proven idle returns an error every layer withholds. */
  lemma UnprovenIsWithheld(s: Session, native: bool)
    requires !s.NotStarted? && WellFormed(s) && EvidenceOf(s) != ToolsNone
    ensures s.V1? && Result1(s.turn1, native).Some? ==> Withheld(Result1(s.turn1, native).value)
    ensures s.V2? && Result2(s.turn2).Some? ==> Withheld(Result2(s.turn2).value)
  {
    hide Withheld, Provider, ConflictError, TurnFailure, Finalize;
    if s.V1? && Result1(s.turn1, native).Some? { Unproven1(s.turn1, native); }
    if s.V2? && Result2(s.turn2).Some? { Unproven2(s.turn2); }
  }

  lemma Unproven1(t: Turn1, native: bool)
    requires WellFormed1(t) && Evidence1(t) != ToolsNone && Result1(t, native).Some?
    ensures Withheld(Result1(t, native).value)
  {
    hide Withheld, Provider, ConflictError, TurnFailure, Finalize;
    var evidence, message := Evidence1(t), Settled(t);
    MarkedIsWithheld(evidence, REQUEST);
    MarkedIsWithheld(evidence, EVENTS);
    if message.RequestFailed? && !message.conflict.NoConflict? { ConflictIsWithheld(message.conflict, evidence); }
    if Error1(t).Some? && !Error1(t).value.NoConflict? { ConflictIsWithheld(Error1(t).value, evidence); }
    if message.Answered? && message.response.error.Some? {
      ProviderIsWithheld(message.response.error.value);
      if !message.response.error.value.conflict.NoConflict? {
        ConflictIsWithheld(message.response.error.value.conflict, evidence);
      }
    }
    if Finalize(t.outcome, evidence).Some? { FinalizeIsWithheld(t.outcome, evidence); }
  }

  lemma Unproven2(t: Turn2)
    requires Evidence2(t) != ToolsNone && Result2(t).Some?
    ensures Withheld(Result2(t).value)
  {
    hide Withheld, TurnFailure, Finalize;
    var evidence := Evidence2(t);
    MarkedIsWithheld(evidence, NOT_ADMITTED);
    MarkedIsWithheld(evidence, REQUEST);
    MarkedIsWithheld(evidence, EVENTS);
    MarkedIsWithheld(evidence, EXECUTION);
    MarkedIsWithheld(evidence, Both(EXECUTION, RefusedMarker));
    MarkedIsWithheld(evidence, NO_MESSAGE);
    if t.readBack.Some? && t.readBack.value.error.Some? && evidence.ToolsRan? {
      MarkedIsWithheld(evidence, Provider(t.readBack.value.error.value, true));
    }
    if Finalize(t.outcome, evidence).Some? { FinalizeIsWithheld(t.outcome, evidence); }
  }

  // ---- The three loops -------------------------------------------------------------------------------

  /** A submitted prompt: what the client could establish about its tools, and the truth. */
  datatype Entry = Opencode(evidence: Evidence, ran: bool) | OtherAgent

  /** No opencode session but the last submitted prompt can have left tools unproven. */
  predicate NothingReplayed(log: seq<Entry>) {
    forall k | 0 <= k < |log| - 1 :: log[k].Opencode? ==> log[k].evidence == ToolsNone
  }

  predicate AllProven(log: seq<Entry>) {
    forall k | 0 <= k < |log| :: log[k].Opencode? ==> log[k].evidence == ToolsNone
  }

  const MAX_RETRIES: nat := 3

  /** What the outside does: the sessions opencode yields in order, what other agents return, and
      which checks of a deadline or a cancellation fail. */
  datatype Turn = Ours(session: Session) | Theirs(submitted: bool, err: Option<Err>)

  class Harness {
    const script: seq<Turn>
    const interrupts: seq<bool>
    const texts: Texts
    var next: nat
    var clock: nat
    var log: seq<Entry>

    constructor (script: seq<Turn>, interrupts: seq<bool>, texts: Texts)
      ensures this.script == script && this.texts == texts && log == []
    {
      this.script, this.interrupts, this.texts := script, interrupts, texts;
      next, clock, log := 0, 0, [];
    }

    /** Sessions of this history obey the transport. */
    ghost predicate Sane()
      reads this
    {
      forall i | 0 <= i < |script| && script[i].Ours? :: WellFormed(script[i].session)
    }

    /** No deadline or cancellation from here on. */
    ghost predicate Calm()
      reads this
    { forall i | clock <= i < |interrupts| :: !interrupts[i] }

    /** A deadline or cancellation check. */
    method Interrupted() returns (yes: bool)
      modifies this`clock
      ensures old(Calm()) ==> !yes && Calm()
    {
      yes := clock < |interrupts| && interrupts[clock];
      clock := clock + 1;
    }

    /** One session: the script position, the log and the error after it. */
    function Attempted(next: nat, log: seq<Entry>, native: bool): (nat, seq<Entry>, Option<Err>) {
      if next >= |script| || !script[next].Ours? then (next, log, Some(Wrap(SetupMarker)))
      else
        var s := script[next].session;
        if s.NotStarted? then (next + 1, log, Some(Wrap(SetupMarker)))
        else (next + 1, log + [Opencode(EvidenceOf(s), Ran(s))], if s.V1? then Result1(s.turn1, native)
              else Result2(s.turn2))
    }

    /** A prompt-only turn follows exactly a native turn whose schema request was rejected and whose tools are proven
        idle. */
    function AttemptedTwice(next: nat, log: seq<Entry>, schema: bool): (nat, seq<Entry>, Option<Err>) {
      var (next1, log1, err1) := Attempted(next, log, true);
      if err1.None? || !schema || !FallbackTrigger(err1.value) || MarkedUnsafe(err1.value) then (next1, log1, err1)
      else
        var (next2, log2, err2) := Attempted(next1, log1, false);
        (next2, log2, if err2.None? then None else Some(Wrap(err2.value)))
    }

    /** The retry loop nobody cuts short: try n of at most four, and so on while the error may be retried. */
    function Tried(next: nat, log: seq<Entry>, schema: bool, n: nat): (nat, seq<Entry>, Option<Err>, nat)
      requires n <= MAX_RETRIES
      decreases MAX_RETRIES - n
    {
      var (next1, log1, err) := AttemptedTwice(next, log, schema);
      if err.None? || !Retries(texts, err.value) || n == MAX_RETRIES then (next1, log1, err, n + 1)
      else Tried(next1, log1, schema, n + 1)
    }

    /** Another adapter's turn, likewise. */
    function Passed(next: nat, log: seq<Entry>): (nat, seq<Entry>, Option<Err>) {
      if next >= |script| || !script[next].Theirs? then (next, log, Some(Wrap(SetupMarker)))
      else (next + 1, if script[next].submitted then log + [OtherAgent] else log, script[next].err)
    }

    /** The chain nobody cuts short: the next candidate takes over while the error lets it. */
    function Chained(next: nat, log: seq<Entry>, candidates: seq<bool>, schema: bool)
      : (nat, seq<Entry>, Option<Err>, nat)
      decreases |candidates|
    {
      if candidates == [] then (next, log, None, 0)
      else
        var (next1, log1, err, _) :=
          if candidates[0] then Tried(next, log, schema, 0)
          else
            var (n, l, e) := Passed(next, log);
            (n, l, e, 0);
        if err.None? || |candidates| == 1 || FallbackReason(texts, err.value).NoFallback? then (next1, log1, err, 1)
        else
          var (next2, log2, err2, tried) := Chained(next1, log1, candidates[1..], schema);
          (next2, log2, err2, tried + 1)
    }

    /** runOnceWithFormat: at most one prompt. */
    method Attempt(native: bool) returns (err: Option<Err>)
      requires Sane() && AllProven(log)
      modifies this`next, this`log
      ensures old(log) <= log && |log| <= |old(log)| + 1
      ensures NothingReplayed(log)
      ensures err.Some? ==> AllProven(log) || Withheld(err.value)
      ensures FromScript(old(log), log)
      ensures (next, log, err) == Attempted(old(next), old(log), native)
    {
      if next >= |script| || !script[next].Ours? { return Some(Wrap(SetupMarker)); }
      var s := script[next].session;
      next := next + 1;
      if s.NotStarted? { return Some(Wrap(SetupMarker)); }
      log := log + [Opencode(EvidenceOf(s), Ran(s))];
      err := if s.V1? then Result1(s.turn1, native) else Result2(s.turn2);
      if EvidenceOf(s) != ToolsNone { UnprovenIsWithheld(s, native); }
    }

    /** Every entry past the old ones is a session of the script, with its own evidence and truth. */
    ghost predicate FromScript(before: seq<Entry>, after: seq<Entry>) {
      forall k | |before| <= k < |after| && after[k].Opencode? ::
        exists i | 0 <= i < |script| :: script[i].Ours? && !script[i].session.NotStarted? &&
          after[k] == Opencode(EvidenceOf(script[i].session), Ran(script[i].session))
    }

    /** runOnce: the native turn, and at most one prompt-only turn in a fresh session. */
    method RunOnce(schema: bool) returns (err: Option<Err>)
      requires Sane() && AllProven(log)
      modifies this`next, this`log
      ensures old(log) <= log && |log| <= |old(log)| + 2
      ensures NothingReplayed(log)
      ensures err.Some? ==> AllProven(log) || Withheld(err.value)
      ensures FromScript(old(log), log)
      ensures (next, log, err) == AttemptedTwice(old(next), old(log), schema)
    {
      hide Withheld, Is, AsFailure, Attempted;
      err := Attempt(true);
      if err.None? || !schema || !FallbackTrigger(err.value) || MarkedUnsafe(err.value) { return; }
      if Withheld(err.value) { WithheldIsFinal(texts, err.value); }
      err := Attempt(false);
      if err.Some? {
        WrappedStaysWithheld(err.value);
        err := Some(Wrap(err.value));
      }
    }

    /** opencodeAgent.Run: runWithRetry over runOnce. */
    method RunOpencode(schema: bool) returns (err: Option<Err>, tries: nat)
      requires Sane() && AllProven(log)
      modifies this`next, this`clock, this`log
      ensures old(log) <= log && |log| <= |old(log)| + 2 * (MAX_RETRIES + 1)
      ensures NothingReplayed(log)
      ensures err.Some? ==> AllProven(log) || Withheld(err.value)
      ensures FromScript(old(log), log)
      ensures old(Calm()) ==> Calm()
      ensures old(Calm()) && err.Some? ==> !Retries(texts, err.value) || tries == MAX_RETRIES + 1
      ensures old(Calm()) ==> (next, log, err, tries) == Tried(old(next), old(log), schema, 0)
    {
      hide Withheld, Retries, AttemptedTwice;
      err, tries := None, 0;
      while tries <= MAX_RETRIES
        invariant tries <= MAX_RETRIES + 1 && (tries > 0 ==> err.Some?) && (old(Calm()) ==> Calm())
        invariant old(log) <= log && |log| <= |old(log)| + 2 * tries
        invariant AllProven(log) && FromScript(old(log), log)
        invariant old(Calm()) && tries <= MAX_RETRIES ==>
          Tried(old(next), old(log), schema, 0) == Tried(next, log, schema, tries)
        invariant old(Calm()) && tries > MAX_RETRIES ==>
          (next, log, err, tries) == Tried(old(next), old(log), schema, 0)
      {
        if tries > 0 {
          var out := Interrupted();
          if out { return Some(Wrap(err.value)), tries; }
          out := Interrupted();
          if out { return Some(Plain(0)), tries; }
          out := Interrupted();
          if out { return Some(Wrap(err.value)), tries; }
        }
        err := RunOnce(schema);
        tries := tries + 1;
        if err.None? { return; }
        if Withheld(err.value) { WithheldIsFinal(texts, err.value); }
        if !Retries(texts, err.value) { return; }
      }
    }

    /** Another adapter's turn: it may submit prompts of its own and fail in any way. */
    method RunOther() returns (err: Option<Err>)
      requires AllProven(log)
      modifies this`next, this`log
      ensures log == old(log) || log == old(log) + [OtherAgent]
      ensures (next, log, err) == Passed(old(next), old(log))
    {
      if next >= |script| || !script[next].Theirs? { return Some(Wrap(SetupMarker)); }
      if script[next].submitted { log := log + [OtherAgent]; }
      err := script[next].err;
      next := next + 1;
    }

    /** fallbackAgent.Run without an attempt seam: true stands for an opencode candidate. */
    method RunChain(candidates: seq<bool>, schema: bool) returns (err: Option<Err>, tried: nat)
      requires Sane() && log == []
      modifies this`next, this`clock, this`log
      ensures NothingReplayed(log)
      ensures |log| <= 2 * (MAX_RETRIES + 1) * |candidates|
      ensures FromScript([], log)
      ensures old(Calm()) && err.Some? ==> tried == |candidates| || FallbackReason(texts, err.value).NoFallback?
      ensures old(Calm()) && err.None? && candidates != [] ==> tried > 0
      ensures old(Calm()) ==> (next, log, err, tried) == Chained(old(next), [], candidates, schema)
    {
      hide Withheld, FallbackReason, Tried, Passed;
      err, tried := None, 0;
      assert candidates[0..] == candidates;
      while tried < |candidates|
        invariant 0 <= tried <= |candidates| && (old(Calm()) ==> Calm())
        invariant tried > 0 <==> err.Some?
        invariant AllProven(log) && FromScript([], log) && |log| <= 2 * (MAX_RETRIES + 1) * tried
        invariant tried < |candidates| || candidates == []
        invariant old(Calm()) ==>
          Chained(old(next), [], candidates, schema) ==
            (var (n, l, e, k) := Chained(next, log, candidates[tried..], schema); (n, l, e, k + tried))
      {
        var dead := Interrupted();
        if dead { return Some(Plain(0)), tried; }
        if candidates[tried] {
          var tries;
          err, tries := RunOpencode(schema);
        } else {
          err := RunOther();
        }
        assert candidates[tried..][1..] == candidates[tried + 1..];
        tried := tried + 1;
        if err.None? { return; }
        dead := Interrupted();
        if dead || tried == |candidates| { return; }
        if Withheld(err.value) { WithheldIsFinal(texts, err.value); }
        if FallbackReason(texts, err.value).NoFallback? { return; }
      }
    }
  }

  /** Read as a statement about side effects: unless some 1.x stream ended unseen, no prompt follows a turn that ran
      tools. */
  lemma NoPromptAfterTools(harness: Harness, log: seq<Entry>)
    requires NothingReplayed(log) && harness.FromScript([], log)
    requires forall i | 0 <= i < |harness.script| && harness.script[i].Ours? :: WellFormed(harness.script[i].session)
    requires forall i | 0 <= i < |harness.script| && harness.script[i].Ours? && harness.script[i].session.V1? ::
      !EndedUnseen(harness.script[i].session.turn1)
    ensures forall k | 0 <= k < |log| - 1 && log[k].Opencode? :: !log[k].ran
  {
    forall k | 0 <= k < |log| - 1 && log[k].Opencode? ensures !log[k].ran {
      var i :| 0 <= i < |harness.script| && harness.script[i].Ours? && !harness.script[i].session.NotStarted? &&
               log[k] == Opencode(EvidenceOf(harness.script[i].session), Ran(harness.script[i].session));
      match harness.script[i].session {
        case V1(t) =>
          EvidenceIsRight1(t);
          assert LooksAlike(t, t);
        case V2(t) => EvidenceIsRight2(t);
      }
    }
  }
}
