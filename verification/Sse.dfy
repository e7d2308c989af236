/** Event-stream framing: what a stream says, whatever pieces it arrives in. */
module Sse {
  import opened Wrappers
  import opened Strings

  // ---- Frames ----

  predicate BlankAt(s: string, i: nat) { i + 1 < |s| && s[i] == '\n' && s[i + 1] == '\n' }

  /** `s.indexOf("\n\n")` from `from` on. */
  function BlankFrom(s: string, from: nat): (i: Option<nat>)
    requires from <= |s|
    ensures i.Some? ==> from <= i.value && BlankAt(s, i.value) && forall j :: from <= j < i.value ==> !BlankAt(s, j)
    ensures i.None? ==> forall j :: from <= j ==> !BlankAt(s, j)
    decreases |s| - from
  {
    if from + 1 >= |s| then None
    else if BlankAt(s, from) then Some(from)
    else BlankFrom(s, from + 1)
  }

  datatype Framing = Framing(frames: seq<string>, rest: string)

  /** `s.split("\n\n")`, with the last part apart: it is not a frame yet. */
  function Frames(s: string): Framing
    decreases |s|
  {
    var i := BlankFrom(s, 0);
    if i.None? then Framing([], s)
    else
      var more := Frames(s[i.value + 2..]);
      Framing([s[..i.value]] + more.frames, more.rest)
  }

  /** What is complete stays as it is; only the unfinished rest meets what comes later. */
  lemma {:induction false} FramesAppend(a: string, b: string)
    ensures var fa, fb := Frames(a), Frames(Frames(a).rest + b);
            Frames(a + b) == Framing(fa.frames + fb.frames, fb.rest)
    decreases |a|
  {
    var i := BlankFrom(a, 0);
    if i.Some? {
      var k := i.value;
      var a1 := a[k + 2..];
      FramesAppend(a1, b);
      FirstFrame(a, k);
      FirstFrameOfBoth(a, b, k);
      Regroup([a[..k]], Frames(a1).frames, Frames(Frames(a1).rest + b).frames);
    }
  }

  lemma FirstFrameOfBoth(a: string, b: string, k: nat)
    requires BlankFrom(a, 0) == Some(k)
    ensures Frames(a + b) == Framing([a[..k]] + Frames(a[k + 2..] + b).frames, Frames(a[k + 2..] + b).rest)
  {
    SameBlank(a, b, k);
    FirstFrame(a + b, k);
    assert (a + b)[..k] == a[..k] && (a + b)[k + 2..] == a[k + 2..] + b;
  }

  lemma FirstFrame(s: string, k: nat)
    requires BlankFrom(s, 0) == Some(k)
    ensures Frames(s) == Framing([s[..k]] + Frames(s[k + 2..]).frames, Frames(s[k + 2..]).rest)
  {
  }

  lemma Regroup<T>(a: seq<T>, b: seq<T>, c: seq<T>)
    ensures a + b + c == a + (b + c)
  {
  }

  lemma SameBlank(a: string, b: string, k: nat)
    requires BlankFrom(a, 0) == Some(k)
    ensures BlankFrom(a + b, 0) == Some(k)
  {
    assert BlankAt(a + b, k);
    forall j: nat | j < k ensures !BlankAt(a + b, j) {
      assert !BlankAt(a, j);
    }
  }

  lemma {:induction false} RestIsUnfinished(s: string)
    ensures Frames(Frames(s).rest) == Framing([], Frames(s).rest)
    decreases |s|
  {
    var i := BlankFrom(s, 0);
    if i.Some? { RestIsUnfinished(s[i.value + 2..]); }
  }

  function Concat(pieces: seq<string>): string {
    if pieces == [] then "" else pieces[0] + Concat(pieces[1..])
  }

  // ---- Events ----

  datatype SseEvent = SseEvent(event: string, data: string, id: Option<string>)

  predicate StartsWith(s: string, prefix: string) { prefix <= s }

  function ApplyLine(e: SseEvent, line: string): SseEvent {
    if StartsWith(line, "event: ") then e.(event := line[7..])
    else if StartsWith(line, "data: ") then e.(data := line[6..])
    else if StartsWith(line, "id: ") then e.(id := Some(line[4..]))
    else e
  }

  function ApplyLines(e: SseEvent, lines: seq<string>): SseEvent {
    if lines == [] then e else ApplyLine(ApplyLines(e, lines[..|lines| - 1]), lines[|lines| - 1])
  }

  const FRESH: SseEvent := SseEvent("message", "", None)

  function EventOf(frame: string): SseEvent { ApplyLines(FRESH, SplitOn(frame, '\n')) }

  function EventsOf(frames: seq<string>): seq<SseEvent> {
    if frames == [] then []
    else
      var before := EventsOf(frames[..|frames| - 1]);
      var last := frames[|frames| - 1];
      if last == "" then before else before + [EventOf(last)]
  }

  lemma {:induction false} EventsAppend(a: seq<string>, b: seq<string>)
    ensures EventsOf(a + b) == EventsOf(a) + EventsOf(b)
    decreases |b|
  {
    if b == [] {
      assert a + b == a;
    } else {
      assert (a + b)[..|a + b| - 1] == a + b[..|b| - 1];
      EventsAppend(a, b[..|b| - 1]);
    }
  }

  /** Everything a stream says: the events of its complete frames. An unfinished frame at the end says nothing. */
  function StreamEvents(s: string): seq<SseEvent> { EventsOf(Frames(s).frames) }

  lemma NoFrameNoEvent(s: string)
    ensures Frames(s).frames == [] ==> StreamEvents(s) == []
  {
  }

  lemma StreamEventsAppend(a: string, b: string)
    ensures StreamEvents(a + b) == StreamEvents(a) + StreamEvents(Frames(a).rest + b)
  {
    FramesAppend(a, b);
    EventsAppend(Frames(a).frames, Frames(Frames(a).rest + b).frames);
  }

  // ---- The reader ----

  class SseReader {
    /** What the body will still deliver, in the pieces it will deliver it in. */
    var pieces: seq<string>
    var buffer: string
    var pending: seq<SseEvent>
    var closed: bool

    ghost predicate Valid()
      reads this
    {
      Frames(buffer) == Framing([], buffer) && (closed ==> pieces == [])
    }

    /** The events still to come. */
    ghost function Remaining(): seq<SseEvent>
      reads this
    {
      pending + StreamEvents(buffer + Concat(pieces))
    }

    constructor (pieces: seq<string>)
      ensures Valid() && Remaining() == StreamEvents(Concat(pieces))
    {
      this.pieces, buffer, pending, closed := pieces, "", [], false;
      new;
      assert "" + Concat(pieces) == Concat(pieces);
    }

    /** Turns the buffer's complete frames into events. */
    method Drain()
      modifies this`buffer, this`pending
      ensures buffer == Frames(old(buffer)).rest
      ensures pending == old(pending) + StreamEvents(old(buffer))
    {
      var chunks := Frames(buffer).frames;
      buffer := Frames(buffer).rest;
      var i := 0;
      while i < |chunks|
        invariant 0 <= i <= |chunks| && buffer == Frames(old(buffer)).rest
        invariant pending == old(pending) + EventsOf(chunks[..i])
      {
        assert chunks[..i + 1][..i] == chunks[..i];
        if chunks[i] != "" {
          var event, data, id := "message", "", None;
          var parts := SplitOn(chunks[i], '\n');
          var k := 0;
          while k < |parts|
            invariant 0 <= k <= |parts|
            invariant SseEvent(event, data, id) == ApplyLines(FRESH, parts[..k])
          {
            assert parts[..k + 1][..k] == parts[..k];
            if StartsWith(parts[k], "event: ") {
              event := parts[k][7..];
            } else if StartsWith(parts[k], "data: ") {
              data := parts[k][6..];
            } else if StartsWith(parts[k], "id: ") {
              id := Some(parts[k][4..]);
            }
            k := k + 1;
          }
          assert parts[..k] == parts;
          pending := pending + [SseEvent(event, data, id)];
        }
        i := i + 1;
      }
      assert chunks[..i] == chunks;
    }

    /** One read of the body. */
    method Receive()
      requires Valid() && !closed && pieces != []
      modifies this`pieces, this`buffer, this`pending
      ensures Valid() && pieces == old(pieces)[1..] && Remaining() == old(Remaining())
    {
      ghost var was, buf, value, later := pending, buffer, pieces[0], Concat(pieces[1..]);
      Regroup(buf, value, later);
      StreamEventsAppend(buf + value, later);
      RestIsUnfinished(buf + value);
      buffer := buffer + pieces[0];
      pieces := pieces[1..];
      Drain();
      Regroup(was, StreamEvents(buf + value), StreamEvents(buffer + later));
    }

    /** The next event, or None once the stream has closed. */
    method Next() returns (e: Option<SseEvent>)
      requires Valid()
      modifies this
      ensures Valid()
      ensures old(Remaining()) == [] ==> e == None && Remaining() == []
      ensures old(Remaining()) != [] ==> e == Some(old(Remaining())[0]) && Remaining() == old(Remaining())[1..]
    {
      hide StreamEvents, EventsOf, Frames;
      while pending == [] && !closed
        invariant Valid() && Remaining() == old(Remaining())
        decreases |pieces|, !closed
      {
        if pieces == [] {
          closed := true;
        } else {
          Receive();
        }
      }
      if pending != [] {
        e := Some(pending[0]);
        pending := pending[1..];
      } else {
        e := None;
        assert buffer + Concat(pieces) == buffer;
        NoFrameNoEvent(buffer);
      }
    }

    /** Every remaining event. */
    method Rest() returns (all: seq<SseEvent>)
      requires Valid()
      modifies this
      ensures Valid() && all == old(Remaining()) && Remaining() == []
    {
      all := [];
      var e := Next();
      while e.Some?
        invariant Valid()
        invariant e.Some? ==> all + [e.value] + Remaining() == old(Remaining())
        invariant e.None? ==> all == old(Remaining()) && Remaining() == []
        decreases if e.Some? then 1 + |Remaining()| else 0
      {
        all := all + [e.value];
        ghost var left := Remaining();
        e := Next();
        if e.Some? { assert left == [e.value] + Remaining(); }
      }
    }
  }

  /** The cutting of a stream into pieces does not matter to what is read from it. */
  method ReadBothWays(pieces: seq<string>) returns (cut: seq<SseEvent>, whole: seq<SseEvent>)
    ensures cut == whole == StreamEvents(Concat(pieces))
  {
    var byPieces := new SseReader(pieces);
    cut := byPieces.Rest();
    var all := Concat(pieces);
    OnePiece(all);
    var atOnce := new SseReader([all]);
    whole := atOnce.Rest();
  }

  lemma OnePiece(s: string)
    ensures Concat([s]) == s
  {
  }

  // ---- What the install routes send ----

  /** A line of output, with the run's position past it if there is one, or a closing event. */
  datatype Message = Line(id: Option<string>, data: string) | Closing(event: string, data: string)

  function Encode(m: Message): string { JoinWith(Lines(m), '\n') + "\n\n" }

  function Lines(m: Message): seq<string> {
    match m
    case Line(id, data) => (if id.Some? then ["id: " + id.value] else []) + ["data: " + data]
    case Closing(event, data) => ["event: " + event, "data: " + data]
  }

  function EncodeAll(ms: seq<Message>): string {
    if ms == [] then "" else Encode(ms[0]) + EncodeAll(ms[1..])
  }

  function Meant(m: Message): SseEvent {
    match m
    case Line(id, data) => SseEvent("message", data, id)
    case Closing(event, data) => SseEvent(event, data, None)
  }

  function MeantAll(ms: seq<Message>): seq<SseEvent> { seq(|ms|, i requires 0 <= i < |ms| => Meant(ms[i])) }

  /** JSON never holds a raw line break; run ids and event names do not either. */
  predicate OneLine(m: Message) {
    match m
    case Line(id, data) => '\n' !in data && (id.Some? ==> '\n' !in id.value)
    case Closing(event, data) => '\n' !in event && '\n' !in data
  }

  /** A frame's text, followed by its blank line. */
  lemma OneFrame(frame: string, rest: string)
    requires frame != "" && frame[|frame| - 1] != '\n' && BlankFrom(frame, 0).None?
    ensures Frames(frame + "\n\n" + rest) == Framing([frame] + Frames(rest).frames, Frames(rest).rest)
  {
    var s, n := frame + "\n\n" + rest, |frame|;
    assert BlankAt(s, n);
    forall j: nat | j < n ensures !BlankAt(s, j) {
      assert !BlankAt(frame, j);
    }
    assert BlankFrom(s, 0) == Some(n);
    FirstFrame(s, n);
    assert s[..n] == frame && s[n + 2..] == rest;
  }

  lemma {:induction false} JoinedHasNoBlank(parts: seq<string>)
    requires parts != [] && forall i :: 0 <= i < |parts| ==> parts[i] != "" && '\n' !in parts[i]
    ensures var s := JoinWith(parts, '\n'); s != "" && s[0] != '\n' && s[|s| - 1] != '\n' && forall j: nat :: !BlankAt(s, j)
  {
    var s := JoinWith(parts, '\n');
    if |parts| > 1 {
      JoinedHasNoBlank(parts[1..]);
      var t, n := JoinWith(parts[1..], '\n'), |parts[0]|;
      assert s == parts[0] + ['\n'] + t;
      forall j: nat ensures !BlankAt(s, j) {
        if j < n {
          assert s[j] == parts[0][j];
        } else if j > n && j + 1 < |s| {
          assert s[j] == t[j - n - 1] && s[j + 1] == t[j - n];
          assert !BlankAt(t, j - n - 1);
        }
      }
    } else {
      forall j: nat ensures !BlankAt(s, j) {
        if j < |s| { assert s[j] in parts[0]; }
      }
    }
  }

  lemma EventOfMessage(m: Message)
    requires OneLine(m)
    ensures EventOf(JoinWith(Lines(m), '\n')) == Meant(m)
  {
    var ls := Lines(m);
    LinesArePlain(m);
    SplitJoin(ls, '\n');
    match m
    case Line(id, data) =>
      DataLine(FRESH, data);
      if id.Some? {
        IdLine(FRESH, id.value);
        DataLine(FRESH.(id := id), data);
        TwoLines(ls[0], ls[1]);
        assert ls == [ls[0], ls[1]];
      } else {
        OneLineOnly(ls[0]);
      }
    case Closing(event, data) =>
      EventLine(FRESH, event);
      DataLine(FRESH.(event := event), data);
      TwoLines(ls[0], ls[1]);
  }

  lemma OneLineOnly(a: string)
    ensures ApplyLines(FRESH, [a]) == ApplyLine(FRESH, a)
  {
  }

  lemma TwoLines(a: string, b: string)
    ensures ApplyLines(FRESH, [a, b]) == ApplyLine(ApplyLine(FRESH, a), b)
  {
    var two := [a, b];
    OneLineOnly(a);
    assert two[..1] == [a];
  }

  lemma EventLine(e: SseEvent, x: string)
    ensures ApplyLine(e, "event: " + x) == e.(event := x)
  {
  }

  lemma DataLine(e: SseEvent, x: string)
    ensures ApplyLine(e, "data: " + x) == e.(data := x)
  {
    var line := "data: " + x;
    assert line[0] == 'd' && "event: "[0] == 'e';
    assert line[6..] == x;
  }

  lemma IdLine(e: SseEvent, x: string)
    ensures ApplyLine(e, "id: " + x) == e.(id := Some(x))
  {
    var line := "id: " + x;
    assert line[0] == 'i' && "event: "[0] == 'e' && "data: "[0] == 'd';
    assert line[4..] == x;
  }

  lemma LinesArePlain(m: Message)
    requires OneLine(m)
    ensures Lines(m) != [] && forall i :: 0 <= i < |Lines(m)| ==> Lines(m)[i] != "" && '\n' !in Lines(m)[i]
  {
  }

  /** Reading is the inverse of sending. */
  lemma {:induction false} ReadBack(ms: seq<Message>)
    requires forall i :: 0 <= i < |ms| ==> OneLine(ms[i])
    ensures StreamEvents(EncodeAll(ms)) == MeantAll(ms)
  {
    if ms != [] {
      ReadBack(ms[1..]);
      var frame, rest := JoinWith(Lines(ms[0]), '\n'), EncodeAll(ms[1..]);
      LinesArePlain(ms[0]);
      JoinedHasNoBlank(Lines(ms[0]));
      OneFrame(frame, rest);
      EventsAppend([frame], Frames(rest).frames);
      EventOfMessage(ms[0]);
      assert EventsOf([frame][..0]) == [] && EventsOf([frame]) == [EventOf(frame)];
    }
  }

  // ---- The change stream of the local data server ----

  datatype Heard = Heard(comments: seq<string>, dataEvents: seq<string>)

  function Hear(h: Heard, line: string): Heard {
    if StartsWith(line, ":") then h.(comments := h.comments + [Trim(line[1..])])
    else if StartsWith(line, "data:") then h.(dataEvents := h.dataEvents + [Trim(line[5..])])
    else h
  }

  function HearLines(h: Heard, lines: seq<string>): Heard {
    if lines == [] then h else Hear(HearLines(h, lines[..|lines| - 1]), lines[|lines| - 1])
  }

  function HearFrames(h: Heard, frames: seq<string>): Heard {
    if frames == [] then h
    else HearLines(HearFrames(h, frames[..|frames| - 1]), SplitOn(frames[|frames| - 1], '\n'))
  }

  const SILENCE: Heard := Heard([], [])

  function StreamHeard(s: string): Heard { HearFrames(SILENCE, Frames(s).frames) }

  lemma {:induction false} HearAppend(h: Heard, a: seq<string>, b: seq<string>)
    ensures HearFrames(h, a + b) == HearFrames(HearFrames(h, a), b)
    decreases |b|
  {
    if b == [] {
      assert a + b == a;
    } else {
      assert (a + b)[..|a + b| - 1] == a + b[..|b| - 1];
      HearAppend(h, a, b[..|b| - 1]);
    }
  }

  /** `openSse`'s collector. */
  class SseClient {
    var buffer: string
    var comments: seq<string>
    var dataEvents: seq<string>
    ghost var fed: string

    ghost predicate Valid()
      reads this
    {
      buffer == Frames(fed).rest && Heard(comments, dataEvents) == StreamHeard(fed)
    }

    constructor ()
      ensures Valid() && fed == ""
    {
      buffer, comments, dataEvents, fed := "", [], [], "";
    }

    /** One read of the body: whatever the pieces were, what is collected is what the whole stream so far says. */
    method Feed(value: string)
      requires Valid()
      modifies this
      ensures Valid() && fed == old(fed) + value
    {
      ghost var start := Frames(fed).rest + value;
      ghost var h0 := StreamHeard(fed);
      FramesAppend(fed, value);
      HearAppend(SILENCE, Frames(fed).frames, Frames(start).frames);
      buffer := buffer + value;
      fed := fed + value;
      ghost var done: seq<string> := [];
      var idx := BlankFrom(buffer, 0);
      assert done + Frames(buffer).frames == Frames(buffer).frames;
      while idx.Some?
        invariant idx == BlankFrom(buffer, 0) && fed == old(fed) + value
        invariant done + Frames(buffer).frames == Frames(start).frames && Frames(buffer).rest == Frames(start).rest
        invariant Heard(comments, dataEvents) == HearFrames(h0, done)
        decreases |buffer|
      {
        var frame := buffer[..idx.value];
        FirstFrame(buffer, idx.value);
        buffer := buffer[idx.value + 2..];
        HearFrame(frame);
        Regroup(done, [frame], Frames(buffer).frames);
        HearAppend(h0, done, [frame]);
        done := done + [frame];
        idx := BlankFrom(buffer, 0);
      }
      assert done + [] == done;
    }

    method HearFrame(frame: string)
      modifies this`comments, this`dataEvents
      ensures Heard(comments, dataEvents) == HearLines(old(Heard(comments, dataEvents)), SplitOn(frame, '\n'))
    {
      ghost var h := Heard(comments, dataEvents);
      var parts := SplitOn(frame, '\n');
      var k := 0;
      while k < |parts|
        invariant 0 <= k <= |parts| && Heard(comments, dataEvents) == HearLines(h, parts[..k])
      {
        assert parts[..k + 1][..k] == parts[..k];
        if StartsWith(parts[k], ":") {
          comments := comments + [Trim(parts[k][1..])];
        } else if StartsWith(parts[k], "data:") {
          dataEvents := dataEvents + [Trim(parts[k][5..])];
        }
        k := k + 1;
      }
      assert parts[..k] == parts;
    }
  }

  /** What the server writes to a connected client. */
  datatype Write = Connected | Ping | Kick

  function Text(w: Write): string {
    match w
    case Connected => ": connected"
    case Ping => ": ping"
    case Kick => "data: "
  }

  function Wire(ws: seq<Write>): string {
    if ws == [] then "" else Wire(ws[..|ws| - 1]) + (Text(ws[|ws| - 1]) + "\n\n")
  }

  function Said(ws: seq<Write>): Heard {
    if ws == [] then SILENCE
    else
      var h := Said(ws[..|ws| - 1]);
      match ws[|ws| - 1]
      case Connected => h.(comments := h.comments + ["connected"])
      case Ping => h.(comments := h.comments + ["ping"])
      case Kick => h.(dataEvents := h.dataEvents + [""])
  }

  /**
   * However far the stream has come, a client has heard the writes that have arrived whole, in order, and nothing of
   * the one under way.
   */
  lemma {:induction false} ClientHearsTheWrites(ws: seq<Write>, w: Write, k: nat)
    requires k < |Text(w)| + 2
    ensures StreamHeard(Wire(ws) + (Text(w) + "\n\n")[..k]) == Said(ws)
  {
    WireFrames(ws);
    var part := (Text(w) + "\n\n")[..k];
    FramesAppend(Wire(ws), part);
    assert "" + part == part;
    TextHasNoBreak(w);
    forall j: nat ensures !BlankAt(part, j) {
    }
    assert Frames(part).frames == [];
    assert Frames(Wire(ws)).frames + [] == Frames(Wire(ws)).frames;
  }

  lemma {:induction false} WireFrames(ws: seq<Write>)
    ensures Frames(Wire(ws)).rest == "" && StreamHeard(Wire(ws)) == Said(ws)
    decreases |ws|
  {
    if ws != [] {
      var init, w := ws[..|ws| - 1], ws[|ws| - 1];
      WireFrames(init);
      OneWrite(w);
      FramesAppend(Wire(init), Text(w) + "\n\n");
      assert "" + (Text(w) + "\n\n") == Text(w) + "\n\n";
      HearAppend(SILENCE, Frames(Wire(init)).frames, [Text(w)]);
      HearText(Said(init), w);
    }
  }

  lemma OneWrite(w: Write)
    ensures Frames(Text(w) + "\n\n") == Framing([Text(w)], "")
  {
    TextHasNoBreak(w);
    OneFrame(Text(w), "");
    assert Text(w) + "\n\n" + "" == Text(w) + "\n\n";
  }

  lemma TextHasNoBreak(w: Write)
    ensures Text(w) != "" && forall i :: 0 <= i < |Text(w)| ==> Text(w)[i] != '\n'
    ensures BlankFrom(Text(w), 0).None?
  {
  }

  lemma HearText(h: Heard, w: Write)
    ensures HearFrames(h, [Text(w)]) == match w
      case Connected => h.(comments := h.comments + ["connected"])
      case Ping => h.(comments := h.comments + ["ping"])
      case Kick => h.(dataEvents := h.dataEvents + [""])
  {
    var line := Text(w);
    TextHasNoBreak(w);
    SplitPlain(line, '\n');
    var one := [line];
    assert one[..0] == [];
    assert HearLines(h, one[..0]) == h && HearFrames(h, one[..0]) == h;
    assert HearFrames(h, one) == Hear(h, line);
    TrimWords();
    match w
    case Connected => assert line[1..] == " connected";
    case Ping => assert line[1..] == " ping";
    case Kick => assert line[5..] == " ";
  }

  lemma TrimWords()
    ensures Trim(" connected") == "connected" && Trim(" ping") == "ping" && Trim(" ") == ""
  {
  }
}
