/**
 Reassembly of a streamed answer. Text parts, their messages and the messages'
 roles arrive in any order; text is emitted only once its message is known to be
 the assistant's, and each emission continues where the last one stopped.
 */
module Streaming {
  import opened Options
  import opened Text

  datatype Part = Part(message: string, text: string, phase: string, emitted: string)

  /** What the listener receives. */
  datatype Out = Separator | Chunk(part: string, message: string, text: string)

  datatype Event =
    | PartDelta(part: string, delta: string)
    | TextPart(part: string, message: string, text: string, phase: string)
    | ToolPart
    | StepFinish
    | UserMessage(message: string)
    | AssistantMessage(message: string)
    | TextStarted(part: string, message: string)
    | TextDelta(part: string, message: string, delta: string)
    | TextEnded(part: string, message: string, text: string)
    | Idle
    | Ignored

  /** The text emitted so far for one part. */
  function EmittedFor(out: seq<Out>, part: string): string {
    if out == [] then ""
    else
      var last := out[|out| - 1];
      EmittedFor(out[..|out| - 1], part) + if last.Chunk? && last.part == part then last.text else ""
  }

  /** The emissions without the separators between steps. */
  function Chunks(out: seq<Out>): seq<Out> {
    if out == [] then [] else Chunks(out[..|out| - 1]) + (if out[|out| - 1].Chunk? then [out[|out| - 1]] else [])
  }

  lemma OneMore(out: seq<Out>, o: Out, part: string)
    ensures EmittedFor(out + [o], part) == EmittedFor(out, part) + (if o.Chunk? && o.part == part then o.text else "")
    ensures Chunks(out + [o]) == Chunks(out) + (if o.Chunk? then [o] else [])
  {
    assert (out + [o])[..|out|] == out;
  }

  /** The part of the text not emitted yet; text that does not extend what was emitted goes out whole. */
  function Fresh(p: Part): string { if p.emitted <= p.text then p.text[|p.emitted|..] else p.text }

  lemma FreshExact(p: Part)
    ensures if p.emitted <= p.text then p.emitted + Fresh(p) == p.text else Fresh(p) == p.text
    ensures Fresh(p) == "" <==> p.text == "" || p.text == p.emitted
  {}

  /** What a late assistant role releases: the buffered parts of its message, in first-seen order. */
  function Flushed(parts: map<string, Part>, order: seq<string>, n: nat, message: string): seq<Out>
    requires n <= |order|
  {
    if n == 0 then []
    else
      var id := order[n - 1];
      Flushed(parts, order, n - 1, message) +
      if id in parts && parts[id].message == message && Fresh(parts[id]) != ""
         then [Chunk(id, message, Fresh(parts[id]))] else []
  }

  predicate Distinct(s: seq<string>) { forall i, j | 0 <= i < j < |s| :: s[i] != s[j] }

  ghost predicate InOrder(parts: map<string, Part>, order: seq<string>) { forall id | id in parts :: id in order }

  predicate IsAssistant(message: string, users: set<string>, assistants: set<string>) {
    message != "" && message in assistants && message !in users
  }

  /** No stored part is a user's, and an assistant's part has emitted all of its text. */
  ghost predicate UpToDate(parts: map<string, Part>, users: set<string>, assistants: set<string>) {
    forall id | id in parts :: CurrentPart(parts[id], users, assistants)
  }

  ghost predicate CurrentPart(p: Part, users: set<string>, assistants: set<string>) {
    (p.message != "" ==> p.message !in users) && (IsAssistant(p.message, users, assistants) ==> p.emitted == p.text)
  }

  ghost predicate FromAssistants(out: seq<Out>, assistants: set<string>) {
    forall o | o in out && o.Chunk? :: o.message != "" && o.message in assistants
  }

  ghost predicate AddUp(parts: map<string, Part>, out: seq<Out>, assistants: set<string>) {
    (forall id | id in parts :: FaithfulPart(parts[id], EmittedFor(out, id), assistants)) &&
    forall id: string | id !in parts :: EmittedFor(out, id) == ""
  }

  ghost predicate FaithfulPart(p: Part, sent: string, assistants: set<string>) {
    p.emitted <= p.text && sent == p.emitted && (p.emitted != "" ==> p.message != "" && p.message in assistants)
  }

  // ---- Events and what they do to the stored parts ----------------------------------------------

  /** The frames of the two protocols; tool parts, finished steps and the end are common to both. */
  predicate OfV1(e: Event) { !e.TextStarted? && !e.TextDelta? && !e.TextEnded? }

  predicate OfV2(e: Event) { !e.PartDelta? && !e.TextPart? && !e.UserMessage? && !e.AssistantMessage? }

  /** What later events depend on. */
  datatype Picture = Picture(parts: map<string, Part>, users: set<string>, assistants: set<string>,
                             filtered: set<string>)

  const NOTHING := Picture(map[], {}, {}, {})

  function KnownIn(parts: map<string, Part>, id: string): Part {
    if id in parts then parts[id] else Part("", "", "", "")
  }

  function OfMessage(parts: map<string, Part>, message: string): set<string> {
    set id | id in parts && parts[id].message == message
  }

  function Released(parts: map<string, Part>, users: set<string>, assistants: set<string>, message: string)
    : map<string, Part>
  {
    map id | id in parts :: if parts[id].message == message then Stored(parts[id], users, assistants) else parts[id]
  }

  /** One event of a 1.x stream. */
  function Step(v: Picture, e: Event): Picture {
    match e
    case PartDelta(id, delta) =>
      if delta == "" || id in v.filtered then v
      else
        var p := KnownIn(v.parts, id);
        v.(parts := v.parts[id := Stored(p.(text := p.text + delta), v.users, v.assistants)])
    case TextPart(id, message, text, phase) =>
      var p := KnownIn(v.parts, id);
      var owner := if message != "" then message else p.message;
      if owner != "" && owner in v.users then v.(parts := v.parts - {id}, filtered := v.filtered + {id})
      else v.(parts := v.parts[id := Stored(p.(text := text, phase := phase, message := owner), v.users, v.assistants)])
    case UserMessage(message) =>
      v.(users := v.users + {message}, parts := v.parts - OfMessage(v.parts, message),
         filtered := v.filtered + OfMessage(v.parts, message))
    case AssistantMessage(message) =>
      v.(assistants := v.assistants + {message}, parts := Released(v.parts, v.users, v.assistants + {message}, message))
    case _ => v
  }

  /** One event of a 2.x stream. */
  function Step2(v: Picture, e: Event): Picture {
    match e
    case TextStarted(id, message) =>
      if message == "" then v
      else v.(assistants := v.assistants + {message}, parts := v.parts[id := KnownIn(v.parts, id).(message := message)])
    case TextDelta(id, message, delta) =>
      if message == "" || delta == "" then v
      else
        var p := KnownIn(v.parts, id).(message := message, text := KnownIn(v.parts, id).text + delta);
        v.(assistants := v.assistants + {message}, parts := v.parts[id := p.(emitted := p.text)])
    case TextEnded(id, message, text) =>
      if message == "" then v
      else
        var known := KnownIn(v.parts, id);
        var p := known.(message := message, text := if text != "" then text else known.text);
        v.(assistants := v.assistants + {message}, parts := v.parts[id := p.(emitted := p.text)])
    case _ => v
  }

  function Pictured(events: seq<Event>): Picture {
    if events == [] then NOTHING else Step(Pictured(events[..|events| - 1]), events[|events| - 1])
  }

  // ---- The text of the turn -----------------------------------------------------------------------

  /** The last text an assistant's part had, and the last one marked as the final answer. */
  datatype Said = Said(last: string, final: string)

  const SILENCE := Said("", "")

  /** A part is emitted in full; blank text says nothing. */
  function Heard(said: Said, p: Part): Said {
    if Blank(p.text) then said else Said(p.text, if p.phase == "final_answer" then p.text else said.final)
  }

  function HeardIf(said: Said, p: Part, users: set<string>, assistants: set<string>): Said {
    if IsAssistant(p.message, users, assistants) then Heard(said, p) else said
  }

  /** The parts of one message in first-seen order. */
  function HeardAll(said: Said, parts: map<string, Part>, order: seq<string>, n: nat, message: string): Said
    requires n <= |order|
  {
    if n == 0 then said
    else
      var id, before := order[n - 1], HeardAll(said, parts, order, n - 1, message);
      if id in parts && parts[id].message == message then Heard(before, parts[id]) else before
  }

  function Tracked(order: seq<string>, id: string): seq<string> { if id in order then order else order + [id] }

  /** The first-seen order of parts after one event of a 1.x stream. */
  function OrderAfter(v: Picture, order: seq<string>, e: Event): seq<string> {
    match e
    case PartDelta(id, delta) => if delta == "" || id in v.filtered then order else Tracked(order, id)
    case TextPart(id, _, _, _) => Tracked(order, id)
    case _ => order
  }

  /** What one event of a 1.x stream adds to the text of the turn. */
  function SaidAfter(v: Picture, order: seq<string>, said: Said, e: Event): Said {
    match e
    case PartDelta(id, delta) =>
      if delta == "" || id in v.filtered then said
      else
        var p := KnownIn(v.parts, id);
        HeardIf(said, p.(text := p.text + delta), v.users, v.assistants)
    case TextPart(id, message, text, phase) =>
      var p := KnownIn(v.parts, id);
      var owner := if message != "" then message else p.message;
      if owner != "" && owner in v.users then said
      else HeardIf(said, p.(text := text, phase := phase, message := owner), v.users, v.assistants)
    case AssistantMessage(message) =>
      if IsAssistant(message, v.users, v.assistants + {message}) then HeardAll(said, v.parts, order, |order|, message)
      else said
    case _ => said
  }

  /** What one event of a 2.x stream adds: every block is an assistant's. */
  function SaidAfter2(v: Picture, said: Said, e: Event): Said {
    match e
    case TextDelta(id, message, delta) =>
      if message == "" || delta == "" then said
      else
        var p := KnownIn(v.parts, id);
        Heard(said, p.(message := message, text := p.text + delta))
    case TextEnded(id, message, text) =>
      if message == "" then said
      else
        var p := KnownIn(v.parts, id);
        Heard(said, p.(message := message, text := if text != "" then text else p.text))
    case _ => said
  }

  class StreamState {
    const listening: bool
    var parts: map<string, Part>
    var order: seq<string>
    var users: set<string>
    var assistants: set<string>
    var filtered: set<string>
    var out: seq<Out>
    var pendingSeparator: bool
    var hasEmitted: bool
    var toolInvoked: bool
    var lastText: string
    var lastFinal: string

    predicate Emits(message: string)
      reads this
    { IsAssistant(message, users, assistants) }

    function Now(): Picture
      reads this
    { Picture(parts, users, assistants, filtered) }

    function Spoken(): Said
      reads this
    { Said(lastText, lastFinal) }

    /** Holds after every event, whatever the events are. */
    ghost predicate Valid()
      reads this
    { Distinct(order) && InOrder(parts, order) && UpToDate(parts, users, assistants) &&
     FromAssistants(out, assistants) }

    /** Holds after every event of a well-behaved stream: the chunks of a part are its emitted text. */
    ghost predicate Faithful()
      reads this
    { listening && AddUp(parts, out, assistants) && users !! assistants }

    /** Updates extend the text, a part keeps its message, and a message keeps its role. */
    predicate WellBehaved(e: Event)
      reads this
    {
      match e
      case TextPart(id, message, text, _) =>
        id in parts ==>
          parts[id].text <= text && (message == "" || parts[id].message == "" || message == parts[id].message)
      case TextEnded(id, message, text) =>
        message != "" ==>
          message !in users &&
          (id in parts ==>
           (text == "" || parts[id].text <= text) && (parts[id].message == "" || parts[id].message == message))
      case TextStarted(id, message) =>
        message != "" ==> message !in users && (id in parts ==> parts[id].message == "" || parts[id].message == message)
      case TextDelta(id, message, _) =>
        message != "" ==> message !in users && (id in parts ==> parts[id].message == "" || parts[id].message == message)
      case UserMessage(message) => message !in assistants && message != ""
      case AssistantMessage(message) => message !in users
      case _ => true
    }

    constructor (listening: bool)
      ensures Valid() && this.listening == listening && Now() == NOTHING && out == [] && order == [] && !toolInvoked
      ensures listening ==> Faithful()
      ensures Spoken() == SILENCE
    {
      this.listening := listening;
      parts, order, users, assistants, filtered, out := map[], [], {}, {}, {}, [];
      pendingSeparator, hasEmitted, toolInvoked, lastText, lastFinal := false, false, false, "", "";
    }

    /** emitSeparatorIfNeeded */
    method EmitSeparator()
      modifies this`out, this`pendingSeparator
      ensures out == old(out) || out == old(out) + [Separator]
      ensures Chunks(out) == Chunks(old(out)) && forall id :: EmittedFor(out, id) == EmittedFor(old(out), id)
      ensures forall o | o in out && o.Chunk? :: o in old(out)
    {
      if !pendingSeparator || !listening { return; }
      if hasEmitted {
        forall id ensures EmittedFor(out + [Separator], id) == EmittedFor(out, id) { OneMore(out, Separator, id); }
        OneMore(out, Separator, "");
        out := out + [Separator];
      }
      pendingSeparator := false;
    }

    /** emitTextPartChunk */
    method EmitPart(id: string)
      requires id in parts
      modifies this`parts, this`out, this`pendingSeparator, this`hasEmitted, this`lastText, this`lastFinal
      ensures !Emits(old(parts)[id].message) ==> parts == old(parts) && out == old(out)
      ensures Emits(old(parts)[id].message) ==>
        parts == old(parts)[id := old(parts)[id].(emitted := old(parts)[id].text)]
      ensures Emits(old(parts)[id].message) ==>
        Chunks(out) == Chunks(old(out)) +
          if listening && Fresh(old(parts)[id]) != ""
             then [Chunk(id, old(parts)[id].message, Fresh(old(parts)[id]))] else []
      ensures listening ==>
        forall other: string ::
          EmittedFor(out, other) == EmittedFor(old(out), other) +
            if other == id && Emits(old(parts)[id].message) then Fresh(old(parts)[id]) else ""
      ensures forall o | o in out && o.Chunk? ::
                o in old(out) || (o.message == old(parts)[id].message && Emits(o.message))
      ensures Spoken() == HeardIf(old(Spoken()), old(parts)[id], users, assistants)
    {
      hide Fresh, Blank, EmittedFor, Chunks;
      var p := parts[id];
      if !Emits(p.message) { return; }
      var chunk := Fresh(p);
      if !Blank(p.text) {
        lastText := p.text;
        if p.phase == "final_answer" { lastFinal := p.text; }
      }
      if listening && chunk != "" {
        EmitSeparator();
        forall other
          ensures EmittedFor(out + [Chunk(id, p.message, chunk)], other) == EmittedFor(out, other) + if other == id
            then chunk else ""
        {
          OneMore(out, Chunk(id, p.message, chunk), other);
        }
        OneMore(out, Chunk(id, p.message, chunk), id);
        out := out + [Chunk(id, p.message, chunk)];
        hasEmitted := true;
      }
      parts := parts[id := p.(emitted := p.text)];
    }

    /** trackTextPart */
    method Track(id: string)
      requires Distinct(order)
      modifies this`order
      ensures Distinct(order) && id in order && order == Tracked(old(order), id)
      ensures forall other | other in order :: other in old(order) || other == id
    {
      for i := 0 to |order|
        invariant order == old(order) && Distinct(order) && forall j | 0 <= j < i :: order[j] != id
      {
        if order[i] == id { return; }
      }
      order := order + [id];
    }

    /** What is known of a part, or an empty one on first sight. */
    function Known(id: string): Part
      reads this
    { KnownIn(parts, id) }

    /** Store a part (tracking it on first sight) and emit what is due. */
    method Put(id: string, p: Part)
      requires Valid() && p.emitted == Known(id).emitted && (p.message == "" || p.message !in users)
      modifies this`parts, this`order, this`out, this`pendingSeparator, this`hasEmitted, this`lastText, this`lastFinal
      ensures Valid()
      ensures parts == old(parts)[id := if Emits(p.message) then p.(emitted := p.text) else p]
      ensures Spoken() == HeardIf(old(Spoken()), p, users, assistants) && order == Tracked(old(order), id)
      ensures old(Faithful()) && p.emitted <= p.text && (p.emitted != "" ==> p.message == old(Known(id)).message) ==>
        Faithful()
    {
      hide EmittedFor, Chunks, Distinct, UpToDate, AddUp, CurrentPart, FaithfulPart;
      if id !in parts { Track(id); }
      parts := parts[id := p];
      EmitPart(id);
      assert parts == old(parts)[id := Stored(p, users, assistants)];
      PutIsCurrent(old(parts), users, assistants, id, p);
      if old(Faithful()) && p.emitted <= p.text && (p.emitted != "" ==> p.message == old(Known(id)).message) {
        PutAddsUp(old(parts), users, assistants, old(out), out, id, p);
      }
    }

    /** message.part.delta */
    method OnDelta(id: string, delta: string)
      requires Valid()
      modifies this
      ensures toolInvoked == old(toolInvoked)
      ensures Valid() && users == old(users) && assistants == old(assistants) && filtered == old(filtered)
      ensures parts ==
        if delta == "" || id in filtered then old(parts)
        else old(parts)[id := Stored(old(Known(id)).(text := old(Known(id)).text + delta), users, assistants)]
      ensures Spoken() == SaidAfter(old(Now()), old(order), old(Spoken()), PartDelta(id, delta))
      ensures order == OrderAfter(old(Now()), old(order), PartDelta(id, delta))
      ensures old(Faithful()) ==> Faithful()
    {
      hide Valid, Faithful;
      if delta == "" || id in filtered { return; }
      KnownIsClean(id);
      var p := Known(id);
      Put(id, p.(text := p.text + delta));
    }

    lemma KnownIsClean(id: string)
      requires Valid()
      ensures Known(id).message == "" || Known(id).message !in users
      ensures Faithful() ==>
        Known(id).emitted <= Known(id).text && (Known(id).emitted != "" ==> Known(id).message != "")
      ensures Faithful() && Known(id).emitted != "" ==> Known(id).message in assistants
    {}

    /** message.part.updated for a text part */
    method OnTextPart(id: string, message: string, text: string, phase: string)
      requires Valid()
      modifies this
      ensures toolInvoked == old(toolInvoked)
      ensures Valid() && users == old(users) && assistants == old(assistants)
      ensures var owner := if message != "" then message else old(Known(id)).message;
              parts ==
                if owner != "" && owner in users then old(parts) - {id}
                else
                  var part := old(Known(id)).(text := text, phase := phase, message := owner);
                  old(parts)[id := Stored(part, users, assistants)]
      ensures var owner := if message != "" then message else old(Known(id)).message;
              filtered == if owner != "" && owner in users then old(filtered) + {id} else old(filtered)
      ensures Spoken() == SaidAfter(old(Now()), old(order), old(Spoken()), TextPart(id, message, text, phase))
      ensures order == OrderAfter(old(Now()), old(order), TextPart(id, message, text, phase))
      ensures old(Faithful()) && old(WellBehaved(TextPart(id, message, text, phase))) ==> Faithful()
    {
      hide Valid, Faithful;
      KnownIsClean(id);
      var p := Known(id);
      var owner := if message != "" then message else p.message;
      if owner != "" && owner in users {
        Forget(id, owner);
      } else {
        Put(id, p.(text := text, phase := phase, message := owner));
      }
    }

    /** A part that turns out to be a user's is dropped and filtered. */
    method Forget(id: string, owner: string)
      requires Valid() && owner in users
      modifies this`parts, this`order, this`filtered
      ensures Valid() && parts == old(parts) - {id} && filtered == old(filtered) + {id}
      ensures order == Tracked(old(order), id)
      ensures old(Faithful()) && old(Known(id)).message in {"", owner} ==> Faithful()
    {
      hide EmittedFor, Chunks, Distinct;
      Track(id);
      filtered := filtered + {id};
      parts := parts - {id};
      if old(Faithful()) && old(Known(id)).message in {"", owner} {
        if id in old(parts) { assert FaithfulPart(old(parts)[id], EmittedFor(out, id), assistants); }
        assert EmittedFor(out, id) == "";
      }
    }

    /** message.updated for a user message: its parts are forgotten and never come back through deltas. */
    method OnUserMessage(message: string)
      requires Valid()
      modifies this
      ensures toolInvoked == old(toolInvoked)
      ensures Valid() && users == old(users) + {message} && assistants == old(assistants) && out == old(out)
      ensures forall id | id in old(parts) && old(parts)[id].message == message :: id !in parts && id in filtered
      ensures parts == old(parts) - OfMessage(old(parts), message) &&
              filtered == old(filtered) + OfMessage(old(parts), message)
      ensures Spoken() == old(Spoken()) && order == old(order)
      ensures old(Faithful()) && old(WellBehaved(UserMessage(message))) ==> Faithful()
    {
      hide EmittedFor, Chunks, Heard;
      users := users + {message};
      var dropped := OfMessage(parts, message);
      filtered := filtered + dropped;
      parts := parts - dropped;
    }

    /** message.updated for an assistant message: everything buffered for it goes out, in first-seen order. */
    method OnAssistantMessage(message: string)
      requires Valid()
      modifies this
      ensures toolInvoked == old(toolInvoked)
      ensures Valid() && users == old(users) && assistants == old(assistants) + {message} && order == old(order) &&
              filtered == old(filtered)
      ensures parts.Keys == old(parts).Keys
      ensures forall id | id in parts ::
        parts[id] ==
          if old(parts)[id].message == message then Stored(old(parts)[id], users, assistants) else old(parts)[id]
      ensures Emits(message) && listening ==>
        Chunks(out) == Chunks(old(out)) + Flushed(old(parts), order, |order|, message)
      ensures Spoken() == SaidAfter(old(Now()), order, old(Spoken()), AssistantMessage(message))
      ensures old(Faithful()) && old(WellBehaved(AssistantMessage(message))) ==> Faithful()
    {
      hide EmittedFor, Chunks, Distinct;
      assistants := assistants + {message};
      ghost var before, sent, said := parts, out, Spoken();
      for n := 0 to |order|
        invariant order == old(order) && users == old(users) && assistants == old(assistants) + {message} &&
                  filtered == old(filtered)
        invariant toolInvoked == old(toolInvoked) && FlushedTo(before, order, n, message)
        invariant forall o | o in out && o.Chunk? :: o.message != "" && o.message in assistants
        invariant Emits(message) && listening ==> Chunks(out) == Chunks(sent) + Flushed(before, order, n, message)
        invariant Spoken() == if Emits(message) then HeardAll(said, before, order, n, message) else said
        invariant old(Faithful()) && old(WellBehaved(AssistantMessage(message))) ==> Faithful()
      {
        FlushOne(before, sent, said, n, message, old(Faithful()) && old(WellBehaved(AssistantMessage(message))));
      }
      FlushedAll(before, message);
    }

    /** The parts of the message among the first n of the order are emitted; nothing else changed. */
    ghost predicate FlushedTo(before: map<string, Part>, order: seq<string>, n: nat, message: string)
      requires n <= |order|
      reads this
    {
      parts.Keys == before.Keys &&
      forall id | id in parts :: parts[id] ==
        if before[id].message == message && id in order[..n] && Emits(message)
           then before[id].(emitted := before[id].text) else before[id]
    }

    lemma FlushedAll(before: map<string, Part>, message: string)
      requires FlushedTo(before, order, |order|, message) && Distinct(order)
      requires forall id | id in before :: id in order
      requires forall id | id in before && before[id].message != "" :: before[id].message !in users
      requires forall id | id in before && before[id].message != message &&
               Emits(before[id].message) :: before[id].emitted == before[id].text
      requires forall o | o in out && o.Chunk? :: o.message != "" && o.message in assistants
      ensures Valid()
    {
      assert order[..|order|] == order;
    }

    method FlushOne(ghost before: map<string, Part>, ghost sent: seq<Out>, ghost said: Said, n: nat,
                    message: string, ghost faithful: bool)
      requires n < |order| && Distinct(order) && FlushedTo(before, order, n, message)
      requires forall o | o in out && o.Chunk? :: o.message != "" && o.message in assistants
      requires Emits(message) && listening ==> Chunks(out) == Chunks(sent) + Flushed(before, order, n, message)
      requires faithful ==> Faithful()
      requires Spoken() == if Emits(message) then HeardAll(said, before, order, n, message) else said
      modifies this`parts, this`out, this`pendingSeparator, this`hasEmitted, this`lastText, this`lastFinal
      ensures FlushedTo(before, order, n + 1, message)
      ensures forall o | o in out && o.Chunk? :: o.message != "" && o.message in assistants
      ensures Emits(message) && listening ==> Chunks(out) == Chunks(sent) + Flushed(before, order, n + 1, message)
      ensures Spoken() == if Emits(message) then HeardAll(said, before, order, n + 1, message) else said
      ensures faithful ==> Faithful()
    {
      hide EmittedFor, Chunks, Distinct, AddUp, FaithfulPart, Flushed, Fresh, Heard;
      var id := order[n];
      FlushedNext(before, sent, order, n, message);
      if id in parts && parts[id].message == message {
        ghost var p := parts[id];
        EmitPart(id);
        assert parts == old(parts)[id := Stored(p, users, assistants)];
        if faithful {
          FaithfulFresh(old(parts), old(out), assistants, id);
          PutAddsUp(old(parts), users, assistants, old(out), out, id, p);
        }
      }
    }

    lemma FlushedNext(before: map<string, Part>, sent: seq<Out>, order: seq<string>, n: nat, message: string)
      requires n < |order| && Distinct(order)
      ensures forall id :: id in order[..n + 1] <==> id in order[..n] || id == order[n]
      ensures order[n] !in order[..n]
      ensures var id := order[n];
              Chunks(sent) + Flushed(before, order, n + 1, message) ==
                (Chunks(sent) + Flushed(before, order, n, message)) +
                if id in before && before[id].message == message && Fresh(before[id]) != ""
                   then [Chunk(id, message, Fresh(before[id]))] else []
    {
      assert order[..n + 1] == order[..n] + [order[n]];
    }

    /** One event of a 1.x stream, already filtered to this session; false ends the stream. */
    method Handle(e: Event) returns (more: bool)
      requires Valid()
      modifies this
      ensures Valid() && (more <==> !e.Idle?)
      ensures Now() == Step(old(Now()), e)
      ensures Spoken() == SaidAfter(old(Now()), old(order), old(Spoken()), e)
      ensures order == OrderAfter(old(Now()), old(order), e)
      ensures old(Faithful()) && old(WellBehaved(e)) ==> Faithful()
      ensures toolInvoked == (old(toolInvoked) || e.ToolPart?)
    {
      hide Valid, Faithful, OfMessage, Stored;
      more := true;
      match e {
        case PartDelta(id, delta) => OnDelta(id, delta);
        case TextPart(id, message, text, phase) => OnTextPart(id, message, text, phase);
        case ToolPart => SeeTool();
        case StepFinish => SeeStep();
        case UserMessage(message) => OnUserMessage(message);
        case AssistantMessage(message) =>
          OnAssistantMessage(message);
          assert parts == Released(old(parts), users, assistants, message);
        case Idle => more := false;
        case _ =>
      }
    }

    method SeeTool()
      requires Valid()
      modifies this`toolInvoked
      ensures Valid() && toolInvoked && (old(Faithful()) ==> Faithful())
    { toolInvoked := true; }

    method SeeStep()
      requires Valid()
      modifies this`pendingSeparator
      ensures Valid() && (old(Faithful()) ==> Faithful())
    { pendingSeparator := true; }

    // ---- The 2.x stream names its messages, and all of them are the assistant's ------------------

    ghost predicate AssistantOnly()
      reads this
    {
      users == {} && forall id | id in parts :: parts[id].message != "" && parts[id].message in assistants
    }

    /** beginV2Text */
    method Begin(id: string, message: string)
      requires Valid() && AssistantOnly()
      modifies this
      ensures Valid() && AssistantOnly() && out == old(out)
      ensures Now() == Step2(old(Now()), TextStarted(id, message)) && toolInvoked == old(toolInvoked)
      ensures Spoken() == old(Spoken())
      ensures old(Faithful()) ==> Faithful()
    {
      hide EmittedFor, Chunks, Distinct;
      if message == "" { return; }
      assistants := assistants + {message};
      if id !in parts { Track(id); }
      parts := parts[id := Known(id).(message := message)];
    }

    /** markV2Assistant: on this stream every stored part is already the assistant's. */
    method Mark(message: string)
      requires Valid() && AssistantOnly() && message != ""
      modifies this`assistants
      ensures Valid() && AssistantOnly() && assistants == old(assistants) + {message} && Emits(message)
      ensures old(Faithful()) ==> Faithful()
    {
      assistants := assistants + {message};
    }

    /** appendV2Text */
    method Append(id: string, message: string, delta: string)
      requires Valid() && AssistantOnly()
      modifies this
      ensures Valid() && AssistantOnly()
      ensures Now() == Step2(old(Now()), TextDelta(id, message, delta)) && toolInvoked == old(toolInvoked)
      ensures Spoken() == SaidAfter2(old(Now()), old(Spoken()), TextDelta(id, message, delta))
      ensures old(Faithful()) && old(WellBehaved(TextDelta(id, message, delta))) ==> Faithful()
      ensures message != "" && delta != "" ==> id in parts && parts[id].emitted == parts[id].text
      ensures message != "" && delta != "" ==>
        parts[id].text == old(Known(id)).text + delta && parts[id].message == message
    {
      hide Valid, Faithful;
      if message == "" || delta == "" { return; }
      Mark(message);
      KnownIsClean(id);
      Put(id, Known(id).(message := message, text := Known(id).text + delta));
    }

    /** endV2Text */
    method End(id: string, message: string, text: string)
      requires Valid() && AssistantOnly()
      modifies this
      ensures Valid() && AssistantOnly()
      ensures Now() == Step2(old(Now()), TextEnded(id, message, text)) && toolInvoked == old(toolInvoked)
      ensures Spoken() == SaidAfter2(old(Now()), old(Spoken()), TextEnded(id, message, text))
      ensures old(Faithful()) && old(WellBehaved(TextEnded(id, message, text))) ==> Faithful()
      ensures message != "" ==> id in parts && parts[id].emitted == parts[id].text && parts[id].message == message
      ensures message != "" ==> parts[id].text == if text != "" then text else old(Known(id)).text
    {
      hide Valid, Faithful;
      if message == "" { return; }
      Mark(message);
      KnownIsClean(id);
      Put(id, Known(id).(message := message, text := if text != "" then text else Known(id).text));
    }

    /** One event of a 2.x stream, already filtered to this session; false ends the stream. */
    method Handle2(e: Event) returns (more: bool)
      requires Valid() && AssistantOnly()
      modifies this
      ensures Valid() && AssistantOnly() && (more <==> !e.Idle?)
      ensures Now() == Step2(old(Now()), e) && Spoken() == SaidAfter2(old(Now()), old(Spoken()), e)
      ensures old(Faithful()) && old(WellBehaved(e)) ==> Faithful()
      ensures toolInvoked == (old(toolInvoked) || e.ToolPart?)
    {
      hide Valid, Faithful, Step2;
      SameStep2(Now(), e);
      more := true;
      match e {
        case TextStarted(id, message) => Begin(id, message);
        case TextDelta(id, message, delta) => Append(id, message, delta);
        case TextEnded(id, message, text) => End(id, message, text);
        case ToolPart => SeeTool();
        case StepFinish => SeeStep();
        case Idle => more := false;
        case _ =>
      }
    }
  }

  function Stored(p: Part, users: set<string>, assistants: set<string>): Part {
    if IsAssistant(p.message, users, assistants) then p.(emitted := p.text) else p
  }

  lemma SameStep2(v: Picture, e: Event)
    ensures !e.TextStarted? && !e.TextDelta? && !e.TextEnded? ==> Step2(v, e) == v
    ensures forall said: Said :: !e.TextDelta? && !e.TextEnded? ==> SaidAfter2(v, said, e) == said
  {}

  lemma PutIsCurrent(parts: map<string, Part>, users: set<string>, assistants: set<string>, id: string, p: Part)
    requires UpToDate(parts, users, assistants) && (p.message == "" || p.message !in users)
    ensures UpToDate(parts[id := Stored(p, users, assistants)], users, assistants)
  {}

  lemma FaithfulFresh(parts: map<string, Part>, out: seq<Out>, assistants: set<string>, id: string)
    requires AddUp(parts, out, assistants) && id in parts
    ensures parts[id].emitted <= parts[id].text
  {
    hide EmittedFor;
    assert FaithfulPart(parts[id], EmittedFor(out, id), assistants);
  }

  lemma PutAddsUp(parts: map<string, Part>, users: set<string>, assistants: set<string>, before: seq<Out>,
                  after: seq<Out>, id: string, p: Part)
    requires AddUp(parts, before, assistants) && p.emitted <= p.text && users !! assistants
    requires p.emitted == if id in parts then parts[id].emitted else ""
    requires p.emitted != "" ==> id in parts && p.message == parts[id].message
    requires forall other: string ::
      EmittedFor(after, other) == EmittedFor(before, other) + if other == id &&
      IsAssistant(p.message, users, assistants) then Fresh(p) else ""
    ensures AddUp(parts[id := Stored(p, users, assistants)], after, assistants)
  {
    hide EmittedFor;
    var stored := parts[id := Stored(p, users, assistants)];
    assert EmittedFor(before, id) == p.emitted;
    assert FaithfulPart(stored[id], EmittedFor(after, id), assistants);
    forall other | other in stored && other != id
      ensures FaithfulPart(stored[other], EmittedFor(after, other), assistants)
    {
      assert FaithfulPart(parts[other], EmittedFor(before, other), assistants);
      assert EmittedFor(before, other) + "" == EmittedFor(before, other);
    }
    forall other | other !in stored ensures EmittedFor(after, other) == "" {
      assert EmittedFor(before, other) + "" == EmittedFor(before, other);
    }
  }

  // ---- Over a whole stream ----------------------------------------------------------------------

  /** What one event makes of a part's text: an update replaces it, a delta extends it. */
  function TextAfter(before: string, e: Event, id: string): string {
    match e
    case PartDelta(part, delta) => if part == id then before + delta else before
    case TextPart(part, _, text, _) => if part == id then text else before
    case _ => before
  }

  /** The text of a part as its events add up. */
  function TextOf(events: seq<Event>, id: string): string {
    if events == [] then "" else TextAfter(TextOf(events[..|events| - 1], id), events[|events| - 1], id)
  }

  /** An update said whose message the part belongs to. */
  predicate Named(events: seq<Event>, id: string) {
    exists e | e in events :: e.TextPart? && e.part == id && e.message != ""
  }

  /** What a server keeps to: every part belongs to one message, every message has one role, updates extend the text. */
  predicate Keeps(events: seq<Event>, e: Event, owner: string -> string, users: set<string>) {
    match e
    case TextPart(id, message, text, _) => TextOf(events, id) <= text && (message == "" || message == owner(id))
    case UserMessage(message) => message != "" && message in users
    case AssistantMessage(message) => message !in users
    case _ => true
  }

  predicate Orderly(events: seq<Event>, owner: string -> string, users: set<string>) {
    events != [] ==>
      Orderly(events[..|events| - 1], owner, users) && Keeps(events[..|events| - 1], events[|events| - 1], owner, users)
  }

  /** The stored parts follow the events: unfiltered parts have their text, and an assistant's named part is stored. */
  predicate FollowsPart(v: Picture, events: seq<Event>, owner: string -> string, users: set<string>, id: string) {
    (id in v.parts ==> v.parts[id].message == "" || v.parts[id].message == owner(id)) &&
    (if id in v.filtered then owner(id) in users && KnownIn(v.parts, id).text <= TextOf(events, id)
     else KnownIn(v.parts, id).text == TextOf(events, id)) &&
    (Named(events, id) && owner(id) !in users ==> id in v.parts && v.parts[id].message == owner(id))
  }

  ghost predicate Follows(v: Picture, events: seq<Event>, owner: string -> string, users: set<string>) {
    v.users <= users && v.users !! v.assistants && v.assistants !! users &&
    (forall m: string :: m in v.assistants <==> AssistantMessage(m) in events) &&
    forall id: string :: FollowsPart(v, events, owner, users, id)
  }

  lemma OneMoreEvent(events: seq<Event>, e: Event, id: string)
    ensures TextOf(events + [e], id) == TextAfter(TextOf(events, id), e, id)
    ensures Named(events + [e], id) <==> Named(events, id) || (e.TextPart? && e.part == id && e.message != "")
    ensures Pictured(events + [e]) == Step(Pictured(events), e)
  {
    assert (events + [e])[..|events|] == events;
    if Named(events, id) {
      var n :| n in events && n.TextPart? && n.part == id && n.message != "";
      assert n in events + [e];
    }
    assert e in events + [e];
  }

  lemma StepFollowsPart(v: Picture, events: seq<Event>, e: Event, owner: string -> string, users: set<string>,
                        id: string)
    requires v.users <= users && FollowsPart(v, events, owner, users, id) && Keeps(events, e, owner, users)
    ensures FollowsPart(Step(v, e), events + [e], owner, users, id)
  {
    hide TextOf, Named, Pictured;
    OneMoreEvent(events, e, id);
  }

  lemma StepFollows(v: Picture, events: seq<Event>, e: Event, owner: string -> string, users: set<string>)
    requires Follows(v, events, owner, users) && Keeps(events, e, owner, users)
    ensures Follows(Step(v, e), events + [e], owner, users)
  {
    hide TextOf, FollowsPart;
    forall id: string ensures FollowsPart(Step(v, e), events + [e], owner, users, id) {
      StepFollowsPart(v, events, e, owner, users, id);
    }
  }

  lemma KeepsIsWellBehaved(s: StreamState, events: seq<Event>, e: Event, owner: string -> string, users: set<string>)
    requires Follows(s.Now(), events, owner, users) && Keeps(events, e, owner, users)
    requires OfV1(e)
    ensures s.WellBehaved(e)
  {
    hide TextOf, Named;
    if e.TextPart? { assert FollowsPart(s.Now(), events, owner, users, e.part); }
  }

  /** The first-seen order of the parts of a whole 1.x stream. */
  function OrderOf(events: seq<Event>): seq<string> {
    if events == [] then []
    else
      var before := events[..|events| - 1];
      OrderAfter(Pictured(before), OrderOf(before), events[|events| - 1])
  }

  /** The text of the turn as a whole 1.x stream leaves it. */
  function SaidBy(events: seq<Event>): Said {
    if events == [] then SILENCE
    else
      var before := events[..|events| - 1];
      SaidAfter(Pictured(before), OrderOf(before), SaidBy(before), events[|events| - 1])
  }

  lemma OneMoreSaid(events: seq<Event>, e: Event)
    ensures OrderOf(events + [e]) == OrderAfter(Pictured(events), OrderOf(events), e)
    ensures SaidBy(events + [e]) == SaidAfter(Pictured(events), OrderOf(events), SaidBy(events), e)
  {
    assert (events + [e])[..|events|] == events;
  }

  /** text is what some assistant's part says once the event took effect, with every message known by then. */
  predicate SaidIn(v: Picture, text: string) {
    exists id | id in v.parts :: v.parts[id].text == text && IsAssistant(v.parts[id].message, v.users, v.assistants)
  }

  lemma {:induction false} HeardAllIn(said: Said, v: Picture, order: seq<string>, n: nat, message: string)
    requires n <= |order|
    ensures var t := HeardAll(said, v.parts, order, n, message);
            (t.last == said.last || exists id | id in v.parts && v.parts[id].message == message ::
               v.parts[id].text == t.last && !Blank(t.last)) &&
            (t.final == said.final || exists id | id in v.parts && v.parts[id].message == message ::
               v.parts[id].text == t.final && !Blank(t.final))
  {
    if n > 0 { HeardAllIn(said, v, order, n - 1, message); }
  }

  lemma StepSays(v: Picture, order: seq<string>, said: Said, e: Event)
    ensures var t, w := SaidAfter(v, order, said, e), Step(v, e);
            (t.last == said.last || (!Blank(t.last) && SaidIn(w, t.last))) &&
            (t.final == said.final || (!Blank(t.final) && SaidIn(w, t.final)))
  {
    hide HeardAll;
    var w := Step(v, e);
    match e {
      case PartDelta(id, _) => assert id in w.parts || w == v;
      case TextPart(id, _, _, _) => assert id in w.parts || id in w.filtered;
      case AssistantMessage(message) =>
        HeardAllIn(said, v, order, |order|, message);
        assert forall id | id in v.parts ::
            id in w.parts && w.parts[id].text == v.parts[id].text && w.parts[id].message == v.parts[id].message;
      case _ =>
    }
  }

  /** The text of the turn is never anything but the text an assistant's part had at some point of the stream. */
  lemma {:induction false} SaidIsAssistantText(events: seq<Event>)
    ensures var said := SaidBy(events);
            (said.last == "" || (!Blank(said.last) &&
                                 exists k | 0 <= k <= |events| :: SaidIn(Pictured(events[..k]), said.last))) &&
            (said.final == "" || (!Blank(said.final) &&
                                  exists k | 0 <= k <= |events| :: SaidIn(Pictured(events[..k]), said.final)))
  {
    hide SaidIn, Pictured;
    if events != [] {
      var n := |events| - 1;
      var before := events[..n];
      SaidIsAssistantText(before);
      assert before + [events[n]] == events;
      OneMoreEvent(before, events[n], "");
      OneMoreSaid(before, events[n]);
      StepSays(Pictured(before), OrderOf(before), SaidBy(before), events[n]);
      assert events[..|events|] == events;
      forall k | 0 <= k <= n ensures before[..k] == events[..k] {}
    }
  }

  /** Whenever an event gives an assistant's part a text, that text becomes the text of the turn, and its final text if
      the part is marked as the final answer. */
  lemma LastPartIsSaid(events: seq<Event>, e: Event)
    requires e.TextPart? || (e.PartDelta? && e.delta != "" && e.part !in Pictured(events).filtered)
    requires var v := Pictured(events + [e]);
             e.part in v.parts && IsAssistant(v.parts[e.part].message, v.users, v.assistants) &&
             !Blank(v.parts[e.part].text)
    ensures var p, said := Pictured(events + [e]).parts[e.part], SaidBy(events + [e]);
            said.last == p.text &&
            said.final == if p.phase == "final_answer" then p.text else SaidBy(events).final
  {
    hide Pictured, SaidBy, OrderOf;
    OneMoreEvent(events, e, "");
    OneMoreSaid(events, e);
  }

  /** The frames of a 1.x session as the handler takes them, up to the one it stops at. */
  method Consume(events: seq<Event>, listening: bool, ghost owner: string -> string, ghost users: set<string>)
    returns (s: StreamState, n: nat)
    requires forall e | e in events :: OfV1(e)
    ensures n <= |events| && (n == |events| || (n > 0 && events[n - 1].Idle?))
    ensures s.Valid() && s.listening == listening && s.Now() == Pictured(events[..n])
    ensures s.Spoken() == SaidBy(events[..n])
    ensures s.toolInvoked <==> exists i | 0 <= i < n :: events[i].ToolPart?
    ensures listening && Orderly(events, owner, users) ==> s.Faithful() && Follows(s.Now(), events[..n], owner, users)
  {
    hide Follows, StreamState.Faithful, StreamState.Valid, StreamState.WellBehaved, Pictured, TextOf, SaidAfter,
         OrderAfter, SaidBy, OrderOf, Orderly, Keeps, EmittedFor;
    s := new StreamState(listening);
    n := 0;
    var more := true;
    NothingFollows(owner, users);
    while more && n < |events|
      invariant n <= |events| && s.Valid() && s.listening == listening && (!more ==> n > 0 && events[n - 1].Idle?)
      invariant s.Now() == Pictured(events[..n]) && s.order == OrderOf(events[..n]) &&
                s.Spoken() == SaidBy(events[..n])
      invariant s.toolInvoked <==> exists i | 0 <= i < n :: events[i].ToolPart?
      invariant listening && Orderly(events, owner, users) ==>
        s.Faithful() && Follows(s.Now(), events[..n], owner, users)
      decreases |events| - n
    {
      assert events[..n + 1] == events[..n] + [events[n]];
      if listening && Orderly(events, owner, users) {
        OrderlyAt(events, owner, users, n);
        KeepsIsWellBehaved(s, events[..n], events[n], owner, users);
        StepFollows(s.Now(), events[..n], events[n], owner, users);
      }
      OneMoreEvent(events[..n], events[n], "");
      OneMoreSaid(events[..n], events[n]);
      more := s.Handle(events[n]);
      n := n + 1;
    }
    assert events[..|events|] == events;
  }

  lemma NothingFollows(owner: string -> string, users: set<string>)
    ensures Follows(NOTHING, [], owner, users) && Pictured([]) == NOTHING && SaidBy([]) == SILENCE && OrderOf([]) == []
  {}

  lemma {:induction false} OrderlyAt(events: seq<Event>, owner: string -> string, users: set<string>, n: nat)
    requires Orderly(events, owner, users) && n < |events|
    ensures Keeps(events[..n], events[n], owner, users)
  {
    var last := |events| - 1;
    if n < last {
      assert events[..last][..n] == events[..n];
      OrderlyAt(events[..last], owner, users, n);
    }
  }

  /** Of an orderly stream, whatever the order of its events, the chunks of every part of an announced assistant
      message add up to the part's text, and no chunk comes from a user's message. */
  lemma ChunksAddUp(s: StreamState, events: seq<Event>, owner: string -> string, users: set<string>, id: string)
    requires s.Valid() && s.Faithful() && Follows(s.Now(), events, owner, users)
    ensures Named(events, id) && AssistantMessage(owner(id)) in events && owner(id) != "" ==>
      EmittedFor(s.out, id) == TextOf(events, id)
    ensures forall o | o in s.out && o.Chunk? :: o.message !in users && AssistantMessage(o.message) in events
  {
    hide TextOf, Named, EmittedFor;
    assert FollowsPart(s.Now(), events, owner, users, id);
    if Named(events, id) && AssistantMessage(owner(id)) in events && owner(id) != "" {
      assert owner(id) in s.assistants && owner(id) !in users;
      assert FaithfulPart(s.parts[id], EmittedFor(s.out, id), s.assistants);
      assert CurrentPart(s.parts[id], s.users, s.assistants);
    }
  }

  // ---- Over a whole 2.x stream -------------------------------------------------------------------

  function TextAfter2(before: string, e: Event, id: string): string {
    match e
    case TextDelta(part, message, delta) => if part == id && message != "" then before + delta else before
    case TextEnded(part, message, text) => if part == id && message != "" && text != "" then text else before
    case _ => before
  }

  function TextOf2(events: seq<Event>, id: string): string {
    if events == [] then "" else TextAfter2(TextOf2(events[..|events| - 1], id), events[|events| - 1], id)
  }

  /** A block belongs to one message, and its final text extends what was streamed. */
  predicate Keeps2(events: seq<Event>, e: Event, owner: string -> string) {
    match e
    case TextStarted(id, message) => message == "" || message == owner(id)
    case TextDelta(id, message, _) => message == "" || message == owner(id)
    case TextEnded(id, message, text) => (message == "" || message == owner(id)) &&
      (text == "" || TextOf2(events, id) <= text)
    case _ => true
  }

  predicate Orderly2(events: seq<Event>, owner: string -> string) {
    events != [] ==>
      Orderly2(events[..|events| - 1], owner) && Keeps2(events[..|events| - 1], events[|events| - 1], owner)
  }

  ghost predicate Follows2(v: Picture, events: seq<Event>, owner: string -> string) {
    v.users == {} && forall id: string ::
      KnownIn(v.parts, id).text == TextOf2(events, id) && (id in v.parts ==> v.parts[id].message == owner(id))
  }

  lemma StepFollows2(v: Picture, events: seq<Event>, e: Event, owner: string -> string)
    requires Follows2(v, events, owner) && Keeps2(events, e, owner)
    ensures Follows2(Step2(v, e), events + [e], owner)
  {
    assert (events + [e])[..|events|] == events;
    forall id: string ensures TextOf2(events + [e], id) == TextAfter2(TextOf2(events, id), e, id) {}
  }

  lemma {:induction false} OrderlyAt2(events: seq<Event>, owner: string -> string, n: nat)
    requires Orderly2(events, owner) && n < |events|
    ensures Keeps2(events[..n], events[n], owner)
  {
    var last := |events| - 1;
    if n < last {
      assert events[..last][..n] == events[..n];
      OrderlyAt2(events[..last], owner, n);
    }
  }

  lemma KeepsIsWellBehaved2(s: StreamState, events: seq<Event>, e: Event, owner: string -> string)
    requires Follows2(s.Now(), events, owner) && Keeps2(events, e, owner)
    requires e.TextStarted? || e.TextDelta? || e.TextEnded?
    ensures s.WellBehaved(e)
  {
    hide TextOf2;
    var id := e.part;
    assert KnownIn(s.parts, id).text == TextOf2(events, id);
  }

  /** The stored parts after a whole 2.x stream. */
  function Pictured2(events: seq<Event>): Picture {
    if events == [] then NOTHING else Step2(Pictured2(events[..|events| - 1]), events[|events| - 1])
  }

  /** The text of the turn as a whole 2.x stream leaves it. */
  function SaidBy2(events: seq<Event>): Said {
    if events == [] then SILENCE
    else
      var before := events[..|events| - 1];
      SaidAfter2(Pictured2(before), SaidBy2(before), events[|events| - 1])
  }

  lemma OneMoreEvent2(events: seq<Event>, e: Event)
    ensures Pictured2(events + [e]) == Step2(Pictured2(events), e)
    ensures SaidBy2(events + [e]) == SaidAfter2(Pictured2(events), SaidBy2(events), e)
  {
    assert (events + [e])[..|events|] == events;
  }

  lemma {:induction false} FollowsPictured2(events: seq<Event>, owner: string -> string)
    requires Orderly2(events, owner)
    ensures Follows2(Pictured2(events), events, owner)
  {
    hide Follows2, Keeps2, Step2;
    if events == [] {
      NothingFollows2(owner);
    } else {
      var before, e := events[..|events| - 1], events[|events| - 1];
      FollowsPictured2(before, owner);
      StepFollows2(Pictured2(before), before, e, owner);
      assert before + [e] == events;
    }
  }

  /** The text of an orderly 2.x turn is, after every event that gives a block text, that block's text so far. */
  lemma LastBlockIsSaid(events: seq<Event>, e: Event, owner: string -> string)
    requires Orderly2(events + [e], owner) && (e.TextDelta? || e.TextEnded?) && e.message != ""
    requires !Blank(TextOf2(events + [e], e.part)) && (e.TextDelta? ==> e.delta != "")
    ensures SaidBy2(events + [e]).last == TextOf2(events + [e], e.part)
  {
    hide Pictured2, SaidBy2, Keeps2;
    assert (events + [e])[..|events|] == events;
    OneMoreEvent2(events, e);
    FollowsPictured2(events, owner);
    assert KnownIn(Pictured2(events).parts, e.part).text == TextOf2(events, e.part);
  }

  /** The frames of a 2.x session, up to its terminal one. */
  method Consume2(events: seq<Event>, listening: bool, ghost owner: string -> string) returns (s: StreamState, n: nat)
    requires forall e | e in events :: OfV2(e)
    ensures n <= |events| && (n == |events| || (n > 0 && events[n - 1].Idle?))
    ensures s.Valid() && s.AssistantOnly() && s.listening == listening
    ensures s.Now() == Pictured2(events[..n]) && s.Spoken() == SaidBy2(events[..n])
    ensures s.toolInvoked <==> exists i | 0 <= i < n :: events[i].ToolPart?
    ensures listening && Orderly2(events, owner) ==> s.Faithful() && Follows2(s.Now(), events[..n], owner)
  {
    hide Follows2, StreamState.Faithful, StreamState.Valid, StreamState.WellBehaved, TextOf2, Step2, SaidAfter2,
         Orderly2, Keeps2, EmittedFor, Pictured2, SaidBy2;
    s := new StreamState(listening);
    n := 0;
    var more := true;
    NothingFollows2(owner);
    while more && n < |events|
      invariant n <= |events| && s.Valid() && s.AssistantOnly() && s.listening == listening &&
                (!more ==> n > 0 && events[n - 1].Idle?)
      invariant s.Now() == Pictured2(events[..n]) && s.Spoken() == SaidBy2(events[..n])
      invariant s.toolInvoked <==> exists i | 0 <= i < n :: events[i].ToolPart?
      invariant listening && Orderly2(events, owner) ==> s.Faithful() && Follows2(s.Now(), events[..n], owner)
      decreases |events| - n
    {
      assert events[..n + 1] == events[..n] + [events[n]];
      if listening && Orderly2(events, owner) {
        OrderlyAt2(events, owner, n);
        if events[n].TextStarted? || events[n].TextDelta? || events[n].TextEnded? {
          KeepsIsWellBehaved2(s, events[..n], events[n], owner);
        } else {
          assert OfV2(events[n]);
          OthersBehave2(s, events[n]);
        }
        StepFollows2(s.Now(), events[..n], events[n], owner);
      }
      OneMoreEvent2(events[..n], events[n]);
      more := s.Handle2(events[n]);
      n := n + 1;
    }
    assert events[..|events|] == events;
  }

  lemma OthersBehave2(s: StreamState, e: Event)
    requires e.ToolPart? || e.StepFinish? || e.Idle? || e.Ignored?
    ensures s.WellBehaved(e)
  {}

  lemma NothingFollows2(owner: string -> string)
    ensures Follows2(NOTHING, [], owner) && Pictured2([]) == NOTHING && SaidBy2([]) == SILENCE
  {}

  /** Of an orderly 2.x stream everything that came has gone out: the chunks of every block add up to its text. */
  lemma ChunksAddUp2(s: StreamState, events: seq<Event>, owner: string -> string, id: string)
    requires s.Valid() && s.Faithful() && s.AssistantOnly() && Follows2(s.Now(), events, owner)
    ensures EmittedFor(s.out, id) == TextOf2(events, id)
  {
    hide TextOf2, EmittedFor;
    assert KnownIn(s.parts, id).text == TextOf2(events, id);
    if id in s.parts {
      assert FaithfulPart(s.parts[id], EmittedFor(s.out, id), s.assistants);
      assert CurrentPart(s.parts[id], s.users, s.assistants);
    }
  }
}
