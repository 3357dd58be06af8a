/**
 Recording a server-sent event stream: bytes arrive in arbitrary pieces, events
 end at a blank line, and recording stops after the session goes idle.
 */
module Capturing {
  import opened Options

  /** Which events belong to the session, and which one reports it idle. */
  datatype Session = Session(matches: string -> bool, idle: string -> bool)

  /** bytes.Index(s, "\n\n"), from i on. */
  function BlankLine(s: string, i: nat): (k: Option<nat>)
    requires i <= |s|
    ensures k.Some? ==> i <= k.value && k.value + 2 <= |s| && s[k.value] == '\n' && s[k.value + 1] == '\n'
    ensures forall j: nat | i <= j < (if k.Some? then k.value else |s| - 1) :: !(s[j] == '\n' && s[j + 1] == '\n')
    decreases |s| - i
  {
    if i + 2 > |s| then None else if s[i] == '\n' && s[i + 1] == '\n' then Some(i) else BlankLine(s, i + 1)
  }

  datatype Recording = Recording(buffer: string, pending: string, idleSeen: bool)

  /** The first complete event and what follows its blank line. */
  function Split(s: string): (r: Option<(string, string)>)
    ensures r.Some? ==> |r.value.1| < |s|
  {
    var k := BlankLine(s, 0);
    if k.None? then None else Some((s[..k.value], s[k.value + 2..]))
  }

  function Kept(session: Session, event: string): string { if session.matches(event) then event + "\n\n" else "" }

  /** The whole stream read in one piece. */
  function Recorded(session: Session, s: string): Recording
    decreases |s|
  {
    match Split(s)
    case None => Recording("", s, false)
    case Some((event, rest)) =>
      if session.idle(event) then Recording(Kept(session, event), rest, true)
      else
        var later := Recorded(session, rest);
        later.(buffer := Kept(session, event) + later.buffer)
  }

  /** Continue a recording with more bytes. */
  function Continued(session: Session, r: Recording, more: string): Recording {
    if r.idleSeen then r.(pending := r.pending + more)
    else
      var later := Recorded(session, r.pending + more);
      later.(buffer := r.buffer + later.buffer)
  }

  lemma FirstBlankLineStays(a: string, b: string)
    ensures BlankLine(a, 0).Some? ==> BlankLine(a + b, 0) == BlankLine(a, 0)
  {
    var k := BlankLine(a, 0);
    if k.Some? {
      var all := a + b;
      assert all[k.value] == '\n' && all[k.value + 1] == '\n';
      forall j: nat | j < k.value ensures !(all[j] == '\n' && all[j + 1] == '\n') {
        assert all[j] == a[j] && all[j + 1] == a[j + 1];
      }
      var l := BlankLine(all, 0);
      assert l.Some? && l.value >= k.value;
    }
  }

  lemma SplitStays(a: string, b: string)
    ensures Split(a).Some? ==> Split(a + b) == Some((Split(a).value.0, Split(a).value.1 + b))
  {
    FirstBlankLineStays(a, b);
    var k := BlankLine(a, 0);
    if k.Some? { assert (a + b)[..k.value] == a[..k.value] && (a + b)[k.value + 2..] == a[k.value + 2..] + b; }
  }

  /** Where the stream is cut does not matter. */
  lemma {:induction false} CutAnywhere(session: Session, a: string, b: string)
    ensures Recorded(session, a + b) == Continued(session, Recorded(session, a), b)
    decreases |a|
  {
    hide Split, Kept;
    SplitStays(a, b);
    if Split(a).Some? {
      var (event, rest) := Split(a).value;
      if !session.idle(event) {
        CutAnywhere(session, rest, b);
        Regroup(session, Kept(session, event), Recorded(session, rest), b);
      }
    } else {
      assert "" + Recorded(session, a + b).buffer == Recorded(session, a + b).buffer;
    }
  }

  lemma Regroup(session: Session, kept: string, r: Recording, b: string)
    ensures var c := Continued(session, r, b);
            Continued(session, r.(buffer := kept + r.buffer), b) == c.(buffer := kept + c.buffer)
  {
    if !r.idleSeen {
      var later := Recorded(session, r.pending + b);
      assert (kept + r.buffer) + later.buffer == kept + (r.buffer + later.buffer);
    }
  }

  /** A recording of more bytes appended to a buffer. */
  function Onto(session: Session, buffer: string, pending: string): Recording {
    var later := Recorded(session, pending);
    later.(buffer := buffer + later.buffer)
  }

  lemma NextEvent(session: Session, buffer: string, pending: string)
    ensures Split(pending).None? ==> Onto(session, buffer, pending) == Recording(buffer + "", pending, false)
    ensures Split(pending).Some? ==>
      var (event, rest) := Split(pending).value;
      Onto(session, buffer, pending) ==
        if session.idle(event) then Recording(buffer + Kept(session, event), rest, true)
           else Onto(session, buffer + Kept(session, event), rest)
  {
    hide Split, Kept;
    if Split(pending).Some? {
      var (event, rest) := Split(pending).value;
      var later := Recorded(session, rest);
      assert buffer + (Kept(session, event) + later.buffer) == (buffer + Kept(session, event)) + later.buffer;
    }
  }

  class Capture {
    const session: Session
    var pending: string
    var buffer: string
    var idleSeen: bool
    ghost var received: string

    /** Everything stored is what one reading of all received bytes would store. */
    ghost predicate Valid()
      reads this
    { Recording(buffer, pending, idleSeen) == Recorded(session, received) }

    constructor (session: Session)
      ensures Valid() && this.session == session && received == "" && buffer == ""
    {
      this.session := session;
      pending, buffer, idleSeen, received := "", "", false, "";
    }

    method Write(p: string)
      requires Valid()
      modifies this
      ensures Valid() && received == old(received) + p
    {
      hide Split, Kept, Recorded;
      CutAnywhere(session, received, p);
      ghost var target := Recorded(session, received + p);
      received := received + p;
      pending := pending + p;
      while !idleSeen
        invariant received == old(received) + p
        invariant idleSeen ==> Recording(buffer, pending, true) == target
        invariant !idleSeen ==> Onto(session, buffer, pending) == target
        decreases if idleSeen then 0 else 1, |pending|
      {
        var cut := Split(pending);
        NextEvent(session, buffer, pending);
        if cut.None? {
          assert buffer + "" == buffer;
          return;
        }
        var (event, rest) := cut.value;
        pending := rest;
        buffer := buffer + Kept(session, event);
        idleSeen := session.idle(event);
      }
    }

    /** Any number of writes. */
    method WriteAll(pieces: seq<string>)
      requires Valid()
      modifies this
      ensures Valid() && received == old(received) + Joined(pieces)
    {
      hide Valid, Recorded, Joined;
      JoinedSoFar(pieces, 0);
      assert received + "" == received;
      for i := 0 to |pieces|
        invariant Valid() && received == old(received) + Joined(pieces[..i])
      {
        JoinedSoFar(pieces, i);
        Write(pieces[i]);
        assert (old(received) + Joined(pieces[..i])) + pieces[i] == old(received) + (Joined(pieces[..i]) + pieces[i]);
      }
      assert pieces[..|pieces|] == pieces;
    }
  }

  function Joined(pieces: seq<string>): string {
    if pieces == [] then "" else Joined(pieces[..|pieces| - 1]) + pieces[|pieces| - 1]
  }

  lemma JoinedSoFar(pieces: seq<string>, i: nat)
    requires i <= |pieces|
    ensures i == 0 ==> Joined(pieces[..i]) == ""
    ensures i < |pieces| ==> Joined(pieces[..i + 1]) == Joined(pieces[..i]) + pieces[i]
  {
    if i < |pieces| { assert pieces[..i + 1][..i] == pieces[..i]; }
  }

  /** However the same bytes were cut, two captures of one session hold the same. */
  lemma SameBytesSameCapture(a: Capture, b: Capture)
    requires a.Valid() && b.Valid() && a.session == b.session && a.received == b.received
    ensures a.buffer == b.buffer && a.pending == b.pending && a.idleSeen == b.idleSeen
  {}

  // ---- What is in the buffer -----------------------------------------------------------------

  /** All complete events of the stream. */
  function Events(s: string): seq<string>
    decreases |s|
  {
    match Split(s)
    case None => []
    case Some((event, rest)) => [event] + Events(rest)
  }

  /** The number of events up to and including the first idle one. */
  function UpToIdle(session: Session, events: seq<string>): (n: nat)
    ensures n <= |events|
    ensures forall i | 0 <= i < n - 1 :: !session.idle(events[i])
    ensures n < |events| ==> n > 0 && session.idle(events[n - 1])
  {
    if events == [] then 0 else if session.idle(events[0]) then 1 else 1 + UpToIdle(session, events[1..])
  }

  /** What is left after the last complete event. */
  function Unfinished(s: string): string
    decreases |s|
  {
    match Split(s)
    case None => s
    case Some((_, rest)) => Unfinished(rest)
  }

  /** Events written out, each with the blank line that ends it. */
  function WrittenOut(events: seq<string>): string {
    if events == [] then "" else events[0] + "\n\n" + WrittenOut(events[1..])
  }

  /** Splitting loses nothing: the events with their blank lines and the rest are the stream, and the blank line that
      ends an event is the first one there is. */
  lemma {:induction false} EventsRebuildStream(s: string)
    ensures WrittenOut(Events(s)) + Unfinished(s) == s
    ensures forall e | e in Events(s) :: BlankLine(e + "\n\n", 0) == Some(|e|)
    ensures BlankLine(Unfinished(s), 0).None?
    decreases |s|
  {
    hide Split, BlankLine, WrittenOut;
    SplitTakesFirst(s);
    if Split(s).Some? {
      var (event, rest) := Split(s).value;
      EventsRebuildStream(rest);
      WrittenFirst(event, Events(rest));
      Associates(event + "\n\n", WrittenOut(Events(rest)), Unfinished(rest));
    } else {
      NothingWritten();
      assert "" + s == s;
    }
  }

  lemma SplitTakesFirst(s: string)
    ensures Split(s).None? <==> BlankLine(s, 0).None?
    ensures Split(s).Some? ==>
      s == Split(s).value.0 + "\n\n" + Split(s).value.1 &&
      BlankLine(Split(s).value.0 + "\n\n", 0) == Some(|Split(s).value.0|)
  {
    var k := BlankLine(s, 0);
    if k.Some? { EndsAtFirstBlankLine(s, k.value); }
  }

  lemma Associates(a: string, b: string, c: string)
    ensures (a + b) + c == a + (b + c)
  {}

  lemma NothingWritten()
    ensures WrittenOut([]) == ""
  {}

  lemma WrittenFirst(event: string, events: seq<string>)
    ensures WrittenOut([event] + events) == event + "\n\n" + WrittenOut(events)
  {}

  lemma EndsAtFirstBlankLine(s: string, k: nat)
    requires BlankLine(s, 0) == Some(k)
    ensures BlankLine(s[..k] + "\n\n", 0) == Some(k)
  {
    var e := s[..k] + "\n\n";
    assert e == s[..k + 2];
    forall j: nat | j < k ensures !(e[j] == '\n' && e[j + 1] == '\n') { assert e[j] == s[j] && e[j + 1] == s[j + 1]; }
    var l := BlankLine(e, 0);
    assert e[k] == '\n' && e[k + 1] == '\n';
  }

  /** The events of the session, in their order. */
  function OfSession(session: Session, events: seq<string>): seq<string> {
    if events == [] then []
    else if session.matches(events[0]) then [events[0]] + OfSession(session, events[1..])
    else OfSession(session, events[1..])
  }

  /** Each event is there as often as before if it is the session's, and not at all if it is not. */
  lemma {:induction false} OfSessionCounts(session: Session, events: seq<string>, e: string)
    ensures multiset(OfSession(session, events))[e] == if session.matches(e) then multiset(events)[e] else 0
  {
    if events != [] {
      var first, rest := events[0], events[1..];
      assert events == [first] + rest;
      OfSessionCounts(session, rest, e);
      assert multiset(events)[e] == multiset([first])[e] + multiset(rest)[e];
    }
  }

  /** What is kept of a stream is what is kept of its parts in turn, so the order stays. */
  lemma {:induction false} OfSessionInTwo(session: Session, a: seq<string>, b: seq<string>)
    ensures OfSession(session, a + b) == OfSession(session, a) + OfSession(session, b)
  {
    if a == [] {
      assert a + b == b;
    } else {
      OfSessionInTwo(session, a[1..], b);
      assert (a + b)[0] == a[0] && (a + b)[1..] == a[1..] + b;
      var rest, more := OfSession(session, a[1..]), OfSession(session, b);
      assert ([a[0]] + rest) + more == [a[0]] + (rest + more);
    }
  }

  /** An event of the session adds itself and a blank line to what is kept, any other adds nothing. */
  lemma KeptIsOfSession(session: Session, event: string, events: seq<string>)
    ensures WrittenOut(OfSession(session, [event] + events)) ==
            Kept(session, event) + WrittenOut(OfSession(session, events))
    ensures session.matches(event) ==> Kept(session, event) == event + "\n\n"
    ensures !session.matches(event) ==> Kept(session, event) == ""
  {
    assert ([event] + events)[1..] == events;
    var rest := OfSession(session, events);
    if session.matches(event) {
      assert OfSession(session, [event] + events) == [event] + rest;
      assert ([event] + rest)[1..] == rest;
    } else {
      assert OfSession(session, [event] + events) == rest;
    }
  }

  /** The buffer is the session's events up to and including the first idle one, and nothing else. */
  lemma {:induction false} BufferIsEventsUpToIdle(session: Session, s: string)
    ensures var events := Events(s);
            var n := UpToIdle(session, events);
            Recorded(session, s).buffer == WrittenOut(OfSession(session, events[..n])) &&
            (Recorded(session, s).idleSeen <==> n > 0 && session.idle(events[n - 1]))
    decreases |s|
  {
    hide Split, Kept, OfSession, WrittenOut;
    if Split(s).Some? {
      var (event, rest) := Split(s).value;
      var events := Events(s);
      assert events[0] == event && events[1..] == Events(rest);
      var n := UpToIdle(session, events);
      if session.idle(event) {
        assert events[..1] == [event] + [];
        KeptIsOfSession(session, event, []);
        NothingOfSession(session);
      } else {
        BufferIsEventsUpToIdle(session, rest);
        var m := UpToIdle(session, Events(rest));
        assert n == m + 1;
        assert events[..n] == [event] + Events(rest)[..m];
        KeptIsOfSession(session, event, Events(rest)[..m]);
        assert n > 1 ==> events[n - 1] == Events(rest)[m - 1];
      }
    } else {
      NothingOfSession(session);
    }
  }

  lemma NothingOfSession(session: Session)
    ensures WrittenOut(OfSession(session, [])) == ""
  {}

  /** So a capture, however its bytes arrived, holds that much of the stream it received. */
  lemma CaptureHolds(capture: Capture)
    requires capture.Valid()
    ensures var events := Events(capture.received);
            var n := UpToIdle(capture.session, events);
            capture.buffer == WrittenOut(OfSession(capture.session, events[..n])) &&
            (capture.idleSeen <==> n > 0 && capture.session.idle(events[n - 1]))
  {
    hide Recorded, OfSession, WrittenOut, Events;
    BufferIsEventsUpToIdle(capture.session, capture.received);
  }
}
