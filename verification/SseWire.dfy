/**
 The wire format of the event stream: how frames are printed, and the parser of
 sections 9.2.5 and 9.2.6 of the HTML Standard that the browser runs on them. A
 connection may be cut after any character.
 */
module SseWire {
  import opened Decimals
  import opened Options
  import opened EventStream

  // ----------------------------------------------------------------- printing

  predicate IsBreak(c: char) { c == '\n' || c == '\r' }

  predicate OneLine(s: string) {
    forall i | 0 <= i < |s| :: !IsBreak(s[i])
  }

  /** The lines of a frame; an empty line ends every frame. */
  function Lines(f: Frame): seq<string> {
    match f
    case EventFrame(e) => ["id: " + Decimal(e.id), "event: " + e.kind, "data: " + e.data, ""]
    case Heartbeat => [": heartbeat", ""]
  }

  function Join(lines: seq<string>): string {
    if lines == [] then "" else lines[0] + "\n" + Join(lines[1..])
  }

  function Print(frames: seq<Frame>): string {
    if frames == [] then "" else Join(Lines(frames[0])) + Print(frames[1..])
  }

  /** What the server may send: an event type that is not empty, and no raw line breaks. */
  predicate Sendable(f: Frame) {
    f.EventFrame? ==> OneLine(f.event.kind) && f.event.kind != "" && OneLine(f.event.data)
  }

  // ------------------------------------------------------------------ parsing

  datatype Message = Message(id: string, kind: string, data: string)

  /** The parser: the line read so far, whether it ended in a carriage return, and the buffers. */
  datatype Parser = Parser(
    line: string,
    cr: bool,
    idBuffer: string,
    kind: string,
    data: string,
    lastId: string,
    out: seq<Message>)

  /**
   The id buffer at the start of a connection. Section 9.2.6 has it empty; some
   clients carry the last event id over instead.
   */
  datatype Start = Empty | CarriedOver

  /** A parser at the start of a connection; `id` is the last event id known so far. */
  function Fresh(id: string, start: Start): Parser {
    Parser("", false, if start.CarriedOver? then id else "", "", "", id, [])
  }

  /** Section 9.2.6: an empty line dispatches the event. */
  function Dispatch(p: Parser): Parser {
    var q := p.(lastId := p.idBuffer);
    if p.data == "" then q.(kind := "", data := "")
    else
      var data := if p.data[|p.data| - 1] == '\n' then p.data[..|p.data| - 1] else p.data;
      var kind := if p.kind == "" then "message" else p.kind;
      q.(kind := "", data := "", out := p.out + [Message(p.idBuffer, kind, data)])
  }

  function Field(p: Parser, name: string, value: string): Parser {
    if name == "event" then p.(kind := value)
    else if name == "data" then p.(data := p.data + value + "\n")
    else if name == "id" && '\0' !in value then p.(idBuffer := value)
    else p
  }

  /** The position of the first colon, or the length of the line. */
  function Colon(line: string): (k: nat)
    ensures k <= |line| && (k < |line| ==> line[k] == ':')
    ensures forall i | 0 <= i < k :: line[i] != ':'
  {
    if line == [] || line[0] == ':' then 0 else 1 + Colon(line[1..])
  }

  function Line(p: Parser, line: string): Parser {
    if line == "" then Dispatch(p)
    else
      var k := Colon(line);
      if k == 0 then p
      else if k == |line| then Field(p, line, "")
      else
        var rest := line[k + 1..];
        Field(p, line[..k], if rest != "" && rest[0] == ' ' then rest[1..] else rest)
  }

  /** Section 9.2.5: lines end in a line feed, a carriage return, or the pair of them. */
  function Feed(p: Parser, c: char): Parser {
    if p.cr && c == '\n' then p.(cr := false)
    else if IsBreak(c) then Line(p, p.line).(line := "", cr := c == '\r')
    else p.(line := p.line + [c], cr := false)
  }

  function Parse(p: Parser, text: string): Parser
    decreases |text|
  {
    if text == "" then p else Parse(Feed(p, text[0]), text[1..])
  }

  lemma {:induction false} ParseAppend(p: Parser, a: string, b: string)
    ensures Parse(p, a + b) == Parse(Parse(p, a), b)
    decreases |a|
  {
    if a == "" {
      assert a + b == b;
    } else {
      assert (a + b)[1..] == a[1..] + b;
      ParseAppend(Feed(p, a[0]), a[1..], b);
    }
  }

  // -------------------------------------------------------------- round trips

  /** Between frames: no line and no event under way. */
  predicate Clean(p: Parser) {
    p.line == "" && !p.cr && p.kind == "" && p.data == ""
  }

  lemma {:induction false} ParseWord(p: Parser, word: string)
    requires OneLine(word) && !p.cr
    ensures Parse(p, word) == p.(line := p.line + word)
    decreases |word|
  {
    if word != "" {
      var q := Feed(p, word[0]);
      forall i | 0 <= i < |word[1..]| ensures !IsBreak(word[1..][i]) { assert word[1..][i] == word[i + 1]; }
      ParseWord(q, word[1..]);
      assert p.line + [word[0]] + word[1..] == p.line + word;
    } else {
      assert p.line + word == p.line;
    }
  }

  lemma ParseLine(p: Parser, line: string)
    requires OneLine(line) && p.line == "" && !p.cr
    ensures Parse(p, line + "\n") == Line(p, line)
  {
    ParseAppend(p, line, "\n");
    ParseWord(p, line);
    var q := p.(line := line);
    assert p.line + line == line;
    LineOnly(p, line);
    assert Parse(q, "\n") == Parse(Feed(q, '\n'), "");
  }

  /** A line is interpreted the same whatever is left in the line buffer. */
  lemma LineOnly(p: Parser, line: string)
    requires p.line == "" && !p.cr
    ensures Line(p.(line := line), line).(line := "", cr := false) == Line(p, line)
  {}

  function FeedLines(p: Parser, lines: seq<string>): Parser
    decreases |lines|
  {
    if lines == [] then p else FeedLines(Line(p, lines[0]), lines[1..])
  }

  lemma LineKeepsReader(p: Parser, line: string)
    ensures Line(p, line).line == p.line && Line(p, line).cr == p.cr
  {}

  lemma {:induction false} ParseLines(p: Parser, lines: seq<string>)
    requires (forall i | 0 <= i < |lines| :: OneLine(lines[i])) && p.line == "" && !p.cr
    ensures Parse(p, Join(lines)) == FeedLines(p, lines)
    decreases |lines|
  {
    if lines != [] {
      ParseAppend(p, lines[0] + "\n", Join(lines[1..]));
      ParseLine(p, lines[0]);
      LineKeepsReader(p, lines[0]);
      ParseLines(Line(p, lines[0]), lines[1..]);
    }
  }

  /** What the browser is to see of a frame: a heartbeat, too, sets the last event id to the buffer. */
  function Received(p: Parser, f: Frame): Parser {
    match f
    case Heartbeat => p.(lastId := p.idBuffer)
    case EventFrame(e) =>
      p.(idBuffer := Decimal(e.id), lastId := Decimal(e.id), out := p.out + [Message(Decimal(e.id), e.kind, e.data)])
  }

  lemma FieldLine(p: Parser, name: string, value: string)
    requires name != "" && ':' !in name
    ensures Line(p, name + ": " + value) == Field(p, name, value)
  {
    var line := name + ": " + value;
    var k := Colon(line);
    assert line[|name|] == ':';
    forall i | 0 <= i < |name| ensures line[i] != ':' { assert line[i] == name[i] && name[i] in name; }
    assert k == |name|;
    assert line[..k] == name;
    assert line[k + 1..] == " " + value;
    assert (" " + value)[1..] == value;
  }

  lemma FrameRoundTrip(p: Parser, f: Frame)
    requires Clean(p) && Sendable(f)
    ensures Parse(p, Join(Lines(f))) == Received(p, f) && Clean(Received(p, f))
  {
    match f
    case Heartbeat =>
      ParseLines(p, Lines(f));
      assert FeedLines(p, Lines(f)) == FeedLines(Line(p, ": heartbeat"), [""]);
      assert FeedLines(Line(p, ": heartbeat"), [""]) == Dispatch(p);
    case EventFrame(e) =>
      EventLines(e);
      ParseLines(p, Lines(f));
      EventRoundTrip(p, e);
  }

  lemma EventLines(e: Event)
    requires Sendable(EventFrame(e))
    ensures forall i | 0 <= i < 4 :: OneLine(Lines(EventFrame(e))[i])
    ensures forall i | 0 <= i < 3 :: Lines(EventFrame(e))[i] != ""
  {
    DecimalRoundTrip(e.id);
    assert OneLine("id: " + Decimal(e.id)) && OneLine("event: " + e.kind) && OneLine("data: " + e.data);
  }

  lemma FourLines(p: Parser, a: string, b: string, c: string, d: string)
    ensures FeedLines(p, [a, b, c, d]) == Line(Line(Line(Line(p, a), b), c), d)
  {
    hide Line;
    assert [a, b, c, d][1..] == [b, c, d] && [b, c, d][1..] == [c, d] && [c, d][1..] == [d] && [d][1..] == [];
    assert FeedLines(Line(Line(Line(Line(p, a), b), c), d), []) == Line(Line(Line(Line(p, a), b), c), d);
    assert FeedLines(Line(Line(Line(p, a), b), c), [d]) == Line(Line(Line(Line(p, a), b), c), d);
    assert FeedLines(Line(Line(p, a), b), [c, d]) == Line(Line(Line(Line(p, a), b), c), d);
    assert FeedLines(Line(p, a), [b, c, d]) == Line(Line(Line(Line(p, a), b), c), d);
  }

  lemma EventRoundTrip(p: Parser, e: Event)
    requires Clean(p) && e.kind != ""
    ensures FeedLines(p, Lines(EventFrame(e))) == Received(p, EventFrame(e))
  {
    hide Line, Decimal;
    var id := Decimal(e.id);
    DecimalRoundTrip(e.id);
    var p1 := p.(idBuffer := id);
    assert Line(p, "id: " + id) == p1 by {
      FieldLine(p, "id", id);
      assert "id" + ": " + id == "id: " + id;
    }
    var p2 := p1.(kind := e.kind);
    assert Line(p1, "event: " + e.kind) == p2 by {
      FieldLine(p1, "event", e.kind);
      assert "event" + ": " + e.kind == "event: " + e.kind;
    }
    var p3 := p2.(data := e.data + "\n");
    assert Line(p2, "data: " + e.data) == p3 by {
      FieldLine(p2, "data", e.data);
      assert "data" + ": " + e.data == "data: " + e.data;
      assert p2.data + e.data + "\n" == p3.data;
    }
    BlankLine(p3);
    assert p3.data[..|p3.data| - 1] == e.data;
    FourLines(p, "id: " + id, "event: " + e.kind, "data: " + e.data, "");
  }

  lemma BlankLine(p: Parser)
    ensures Line(p, "") == Dispatch(p)
  {}

  // ------------------------------------------- the rest of what the parser reads

  lemma ParseStep(p: Parser, c: char, rest: string)
    ensures Parse(p, [c] + rest) == Parse(Feed(p, c), rest)
  {
    assert ([c] + rest)[1..] == rest;
  }

  /** Lines may end in any of three ways: what follows is read the same. */
  lemma LineEndsAgree(p: Parser, line: string, next: string)
    requires OneLine(line) && p.line == "" && !p.cr
    ensures Parse(p, line + "\r\n" + next) == Parse(p, line + "\n" + next)
    ensures next != "" && next[0] != '\n' ==> Parse(p, line + "\r" + next) == Parse(p, line + "\n" + next)
  {
    hide Parse, Line, Feed;
    var q := p.(line := p.line + line);
    ParseWord(p, line);
    EndBehind(p, line, "\n", next);
    EndBehind(p, line, "\r", next);
    EndBehind(p, line, "\r\n", next);
    ParseStep(q, '\n', next);
    ParseStep(q, '\r', next);
    ParseStep(q, '\r', "\n" + next);
    ParseStep(Feed(q, '\r'), '\n', next);
    assert "\r\n" + next == ['\r'] + ("\n" + next);
    FeedEnds(q);
    if next != "" && next[0] != '\n' {
      ParseStep(Feed(q, '\r'), next[0], next[1..]);
      ParseStep(Feed(q, '\n'), next[0], next[1..]);
      assert [next[0]] + next[1..] == next;
    }
  }

  /** A carriage return counts as a line feed, and a line feed behind it for nothing. */
  lemma FeedEnds(q: Parser)
    requires !q.cr
    ensures Feed(Feed(q, '\r'), '\n') == Feed(q, '\n')
    ensures forall c | c != '\n' :: Feed(Feed(q, '\r'), c) == Feed(Feed(q, '\n'), c)
  {
    LineKeepsReader(q, q.line);
    var ended := Line(q, q.line).(line := "");
    EmptyLineIgnoresReader(ended.(cr := true));
    hide Line;
  }

  lemma EmptyLineIgnoresReader(p: Parser)
    ensures Line(p, "").(cr := true) == Line(p.(cr := false), "").(cr := true)
  {}

  lemma EndBehind(p: Parser, line: string, end: string, next: string)
    ensures Parse(p, line + end + next) == Parse(Parse(p, line), end + next)
  {
    assert line + end + next == line + (end + next);
    ParseAppend(p, line, end + next);
  }

  /** The data lines of an event. */
  function DataLines(values: seq<string>): seq<string> {
    if values == [] then [] else ["data: " + values[0]] + DataLines(values[1..])
  }

  /** Texts with line feeds between them. */
  function Joint(values: seq<string>): string
    requires values != []
  {
    if |values| == 1 then values[0] else values[0] + "\n" + Joint(values[1..])
  }

  lemma FeedFirst(p: Parser, line: string, rest: seq<string>)
    ensures FeedLines(p, [line] + rest) == FeedLines(Line(p, line), rest)
    ensures FeedLines(p, []) == p
  {
    assert ([line] + rest)[1..] == rest;
  }

  lemma DataLine(p: Parser, value: string)
    ensures Line(p, "data: " + value) == p.(data := p.data + value + "\n")
  {
    FieldLine(p, "data", value);
    assert "data" + ": " + value == "data: " + value;
  }

  lemma {:induction false} DataGathers(p: Parser, values: seq<string>)
    requires values != []
    ensures FeedLines(p, DataLines(values)) == p.(data := p.data + Joint(values) + "\n")
    decreases |values|
  {
    hide Line, FeedLines;
    var q := p.(data := p.data + values[0] + "\n");
    DataLine(p, values[0]);
    FeedFirst(p, "data: " + values[0], DataLines(values[1..]));
    if |values| == 1 {
      FeedFirst(q, "", []);
      assert p.data + values[0] + "\n" == p.data + Joint(values) + "\n";
    } else {
      DataGathers(q, values[1..]);
      assert q.data + Joint(values[1..]) + "\n" == p.data + Joint(values) + "\n";
    }
  }

  /** An event of several data lines and no type is a "message" with the lines joined. */
  lemma SeveralDataLines(p: Parser, values: seq<string>)
    requires Clean(p) && values != []
    ensures Line(FeedLines(p, DataLines(values)), "")
         == p.(lastId := p.idBuffer, out := p.out + [Message(p.idBuffer, "message", Joint(values))])
  {
    DataGathers(p, values);
    var q := FeedLines(p, DataLines(values));
    assert q.data[..|q.data| - 1] == Joint(values);
    BlankLine(q);
  }

  /** An id with a null character is ignored, and so is any other field. */
  lemma FieldsIgnored(p: Parser, name: string, value: string)
    requires name != "" && ':' !in name
    requires name !in {"event", "data", "id"} || (name == "id" && '\0' in value)
    ensures Line(p, name + ": " + value) == p
  {
    FieldLine(p, name, value);
  }

  function MessageOf(e: Event): Message {
    Message(Decimal(e.id), e.kind, e.data)
  }

  function Messages(events: seq<Event>): (m: seq<Message>)
    ensures |m| == |events|
  {
    seq(|events|, i requires 0 <= i < |events| => MessageOf(events[i]))
  }

  function LastId(events: seq<Event>, id: string): string {
    if events == [] then id else Decimal(events[|events| - 1].id)
  }

  /** The parser after whole frames. */
  function ReceivedAll(p: Parser, frames: seq<Frame>): Parser {
    var events := EventsOf(frames);
    var id := LastId(events, p.idBuffer);
    if frames == [] then p else p.(idBuffer := id, lastId := id, out := p.out + Messages(events))
  }

  lemma ReceivedNone(p: Parser)
    ensures ReceivedAll(p, []) == p
  {}

  lemma ReceivedFirst(p: Parser, frames: seq<Frame>)
    requires frames != []
    ensures ReceivedAll(p, frames) == ReceivedAll(Received(p, frames[0]), frames[1..])
  {
    hide Messages, Decimal;
    var one, rest := EventOf(frames[0]), EventsOf(frames[1..]);
    assert EventsOf(frames) == one + rest;
    hide EventsOf;
    MessagesOfOne(frames[0]);
    MessagesAppend(one, rest);
    assert p.out + (Messages(one) + Messages(rest)) == p.out + Messages(one) + Messages(rest);
    LastIdAppend(one, rest, p.idBuffer);
    if frames[1..] == [] { assert rest == [] by { NoFramesNoEvents(); } }
    ReceivedOne(p, frames[0]);
    assert rest == [] ==> one + rest == one && Messages(one + rest) == Messages(one);
  }

  lemma MessagesOfOne(f: Frame)
    ensures Messages(EventOf(f)) == if f.EventFrame? then [MessageOf(f.event)] else []
  {}

  lemma LastIdAppend(a: seq<Event>, b: seq<Event>, id: string)
    ensures LastId(a + b, id) == LastId(b, LastId(a, id))
  {
    hide Decimal;
    assert b == [] ==> a + b == a;
  }

  lemma ReceivedOne(p: Parser, f: Frame)
    ensures Received(p, f) == p.(idBuffer := LastId(EventOf(f), p.idBuffer), lastId := LastId(EventOf(f), p.idBuffer),
                                 out := p.out + Messages(EventOf(f)))
  {
    hide Decimal;
    MessagesOfOne(f);
    assert f.Heartbeat? ==> p.out + [] == p.out;
  }

  /**
   Parsing the concatenation of printed event frames and heartbeats gives back
   exactly the (id, event, data) triples that were sent, in order.
   */
  lemma {:induction false} WireRoundTrip(p: Parser, frames: seq<Frame>)
    requires Clean(p) && forall f | f in frames :: Sendable(f)
    ensures Parse(p, Print(frames)) == ReceivedAll(p, frames) && Clean(ReceivedAll(p, frames))
    decreases |frames|
  {
    if frames != [] {
      hide Join, Lines, Received, ReceivedAll, Clean, Sendable;
      ParseAppend(p, Join(Lines(frames[0])), Print(frames[1..]));
      FrameRoundTrip(p, frames[0]);
      WireRoundTrip(Received(p, frames[0]), frames[1..]);
      ReceivedFirst(p, frames);
    } else {
      ReceivedNone(p);
    }
  }

  // ------------------------------------------------------ a connection that is cut

  /** No empty line in the text, and no carriage return. */
  predicate NoBlankLine(text: string) {
    && (forall i | 0 <= i < |text| :: text[i] != '\r')
    && (text != "" ==> text[0] != '\n')
    && (forall i | 1 <= i < |text| && text[i] == '\n' :: text[i - 1] != '\n')
  }

  /** Without an empty line nothing is dispatched and the last event id stays. */
  lemma {:induction false} NothingDispatched(p: Parser, text: string)
    requires !p.cr && (forall i | 0 <= i < |text| :: text[i] != '\r')
    requires text != "" && text[0] == '\n' ==> p.line != ""
    requires forall i | 1 <= i < |text| && text[i] == '\n' :: text[i - 1] != '\n'
    ensures Parse(p, text).out == p.out && Parse(p, text).lastId == p.lastId
    decreases |text|
  {
    if text != "" {
      var rest := text[1..];
      var q := Feed(p, text[0]);
      forall i | 1 <= i < |rest| && rest[i] == '\n' ensures rest[i - 1] != '\n' {
        assert text[i + 1] == '\n' && rest[i - 1] == text[i];
      }
      assert rest != "" ==> rest[0] == text[1];
      NothingDispatched(q, rest);
    }
  }

  lemma {:induction false} JoinNoBlank(lines: seq<string>)
    requires forall i | 0 <= i < |lines| :: OneLine(lines[i]) && lines[i] != ""
    ensures NoBlankLine(Join(lines))
    decreases |lines|
  {
    if lines != [] {
      JoinNoBlank(lines[1..]);
      LineThenText(lines[0], Join(lines[1..]));
    }
  }

  lemma LineThenText(line: string, text: string)
    requires OneLine(line) && line != "" && NoBlankLine(text)
    ensures NoBlankLine(line + "\n" + text)
  {
    var all := line + "\n" + text;
    forall i | 0 <= i < |all| ensures all[i] != '\r' {
      assert i > |line| ==> all[i] == text[i - |line| - 1];
    }
    forall i | 1 <= i < |all| && all[i] == '\n' ensures all[i - 1] != '\n' {
      if i > |line| { assert all[i] == text[i - |line| - 1]; }
      if i > |line| + 1 { assert all[i - 1] == text[i - |line| - 2]; }
    }
  }

  lemma {:induction false} JoinLast(lines: seq<string>)
    ensures Join(lines + [""]) == Join(lines) + "\n"
    decreases |lines|
  {
    if lines == [] {
      assert [] + [""] == [""];
    } else {
      assert (lines + [""])[1..] == lines[1..] + [""];
      JoinLast(lines[1..]);
      assert lines[0] + "\n" + (Join(lines[1..]) + "\n") == lines[0] + "\n" + Join(lines[1..]) + "\n";
    }
  }

  /** Only the last character of a frame dispatches it. */
  lemma FrameCut(p: Parser, f: Frame, k: nat)
    requires Clean(p) && Sendable(f) && k < |Join(Lines(f))|
    ensures Parse(p, Join(Lines(f))[..k]).out == p.out && Parse(p, Join(Lines(f))[..k]).lastId == p.lastId
  {
    var lines := Lines(f);
    var body := lines[..|lines| - 1];
    assert body + [""] == lines;
    JoinLast(body);
    if f.EventFrame? { EventLines(f.event); }
    JoinNoBlank(body);
    var text := Join(lines)[..k];
    assert text == Join(body)[..k];
    NothingDispatched(p, text);
  }

  /** How many frames have arrived whole among the first `k` characters. */
  function Whole(frames: seq<Frame>, k: nat): (n: nat)
    ensures n <= |frames|
  {
    if frames == [] || k < |Join(Lines(frames[0]))| then 0
    else 1 + Whole(frames[1..], k - |Join(Lines(frames[0]))|)
  }

  /** A cut either falls into the first frame or behind it. */
  lemma CutFirst(frames: seq<Frame>, k: nat)
    requires frames != [] && k <= |Print(frames)|
    ensures var head, rest := Join(Lines(frames[0])), Print(frames[1..]);
      if k < |head| then Print(frames)[..k] == head[..k]
      else k - |head| <= |rest| && Print(frames)[..k] == head + rest[..k - |head|]
  {
    hide Join, Lines;
  }

  /** What the frames that arrived whole have made of a parser. */
  predicate Dispatched(q: Parser, p: Parser, frames: seq<Frame>) {
    q.out == ReceivedAll(p, frames).out && q.lastId == ReceivedAll(p, frames).lastId
  }

  lemma DispatchedNone(q: Parser, p: Parser)
    requires q.out == p.out && q.lastId == p.lastId
    ensures Dispatched(q, p, [])
  {}

  lemma DispatchedFirst(q: Parser, p: Parser, frames: seq<Frame>, n: nat)
    requires frames != [] && n < |frames| && Dispatched(q, Received(p, frames[0]), frames[1..][..n])
    ensures Dispatched(q, p, frames[..n + 1])
  {
    ReceivedFirst(p, frames[..n + 1]);
    assert frames[..n + 1][1..] == frames[1..][..n];
  }

  /**
   However a connection is cut, exactly the frames that arrived whole have been
   dispatched: the browser has their events, each once, and their last event id.
   */
  lemma {:induction false} CutConnection(p: Parser, frames: seq<Frame>, k: nat)
    requires Clean(p) && (forall f | f in frames :: Sendable(f)) && k <= |Print(frames)|
    ensures Dispatched(Parse(p, Print(frames)[..k]), p, frames[..Whole(frames, k)])
    decreases |frames|
  {
    hide *;
    if frames == [] {
      NothingSent(p, k);
    } else {
      WholeFirst(frames, k);
      var head := Join(Lines(frames[0]));
      CutFirst(frames, k);
      FrameRoundTrip(p, frames[0]);
      if k < |head| {
        FrameCut(p, frames[0], k);
        DispatchedNone(Parse(p, head[..k]), p);
      } else {
        var tail := Print(frames[1..])[..k - |head|];
        ParseAppend(p, head, tail);
        CutConnection(Received(p, frames[0]), frames[1..], k - |head|);
        DispatchedFirst(Parse(Parse(p, head), tail), p, frames, Whole(frames[1..], k - |head|));
      }
    }
  }

  lemma NothingSent(p: Parser, k: nat)
    requires k <= |Print([])|
    ensures Dispatched(Parse(p, Print([])[..k]), p, [][..Whole([], k)])
  {}

  lemma WholeFirst(frames: seq<Frame>, k: nat)
    requires frames != []
    ensures var head := |Join(Lines(frames[0]))|;
      if k < head then frames[..Whole(frames, k)] == [] else Whole(frames, k) == Whole(frames[1..], k - head) + 1
  {}

  lemma MessagesAppend(a: seq<Event>, b: seq<Event>)
    ensures Messages(a + b) == Messages(a) + Messages(b)
  {}

  // ------------------------------------------------------------ a whole session

  /** One connection: what the passes of the loop see while it lasts, and how many characters arrive. */
  datatype Connection = Connection(turns: seq<Turn>, arrived: nat)

  /** The browser: its last event id, empty before the first one, and what it was given. */
  datatype Browser = Browser(lastId: string, got: seq<Message>)

  /** What the loop sends on a connection opened with this Last-Event-ID. */
  function Sent(id: string, c: Connection): seq<Frame> {
    FramesOf(c.turns[..Lifetime(c.turns)], ReadDecimal(id))
  }

  function Arrived(id: string, c: Connection): (k: nat)
    ensures k <= |Print(Sent(id, c))|
  {
    if c.arrived <= |Print(Sent(id, c))| then c.arrived else |Print(Sent(id, c))|
  }

  /** The frames that arrived whole. */
  function ArrivedFrames(id: string, c: Connection): seq<Frame> {
    Sent(id, c)[..Whole(Sent(id, c), Arrived(id, c))]
  }

  function Connect(b: Browser, c: Connection, start: Start): Browser {
    var p := Parse(Fresh(b.lastId, start), Print(Sent(b.lastId, c))[..Arrived(b.lastId, c)]);
    Browser(p.lastId, b.got + p.out)
  }

  function Session(b: Browser, cs: seq<Connection>, start: Start): Browser {
    if cs == [] then b else Connect(Session(b, cs[..|cs| - 1], start), cs[|cs| - 1], start)
  }

  /** All connections read the same log, which grows into `final`, and all of it can be sent. */
  ghost predicate Follows(cs: seq<Connection>, final: seq<Event>) {
    && Ordered(final)
    && (forall e | e in final :: Sendable(EventFrame(e)))
    && (forall i | 0 <= i < |cs| :: Growing(cs[i].turns, final))
  }

  /** What the log still holds for a browser. */
  function Ahead(b: Browser, final: seq<Event>): seq<Event> {
    After(final, ReadDecimal(b.lastId))
  }

  /** From `b` to `d` the browser was given exactly the events between its two cursors, in order. */
  predicate OnTrack(b: Browser, d: Browser, final: seq<Event>) {
    d.got + Messages(Ahead(d, final)) == b.got + Messages(Ahead(b, final))
  }

  lemma CursorOf(events: seq<Event>, id: string)
    ensures ReadDecimal(LastId(events, id)) == Reached(events, ReadDecimal(id))
  {
    if events != [] { DecimalRoundTrip(events[|events| - 1].id); }
  }

  /** A connection gives the browser the events of the frames that arrived whole, and their last id. */
  lemma Connected(b: Browser, c: Connection, start: Start, final: seq<Event>)
    requires Follows([c], final)
    ensures var d, frames := Connect(b, c, start), ArrivedFrames(b.lastId, c);
      && EventsOf(frames) <= Ahead(b, final)
      && d.got == b.got + Messages(EventsOf(frames))
      && d.lastId == if frames == [] then b.lastId
                     else LastId(EventsOf(frames), if start.CarriedOver? then b.lastId else "")
  {
    hide Parse, Print, Whole, EventsOf, After, ReadDecimal, FramesOf, Lifetime, Dispatched, Sendable, LastId, Messages;
    var sent, n := Sent(b.lastId, c), Whole(Sent(b.lastId, c), Arrived(b.lastId, c));
    SentFollows(b.lastId, c, final);
    CutConnection(Fresh(b.lastId, start), sent, Arrived(b.lastId, c));
    DispatchedFresh(Parse(Fresh(b.lastId, start), Print(sent)[..Arrived(b.lastId, c)]), b.lastId, start, sent[..n]);
    EventsOfPrefix(sent, n);
  }

  /** What the loop sends is sendable, and a first part of what lies behind the id. */
  lemma SentFollows(id: string, c: Connection, final: seq<Event>)
    requires Follows([c], final)
    ensures (forall f | f in Sent(id, c) :: Sendable(f)) && EventsOf(Sent(id, c)) <= After(final, ReadDecimal(id))
  {
    hide After, EventsOf, ReadDecimal, FramesOf;
    var turns := c.turns[..Lifetime(c.turns)];
    assert Growing([c][0].turns, final);
    Delivers(turns, ReadDecimal(id), final);
    FramesAreEvents(turns, ReadDecimal(id), final);
  }

  lemma DispatchedFresh(q: Parser, id: string, start: Start, frames: seq<Frame>)
    requires Dispatched(q, Fresh(id, start), frames)
    ensures q.out == Messages(EventsOf(frames))
    ensures q.lastId == if frames == [] then id else LastId(EventsOf(frames), if start.CarriedOver? then id else "")
  {
    assert frames == [] ==> Messages(EventsOf(frames)) == [];
  }

  lemma EventsOfPrefix(frames: seq<Frame>, n: nat)
    requires n <= |frames|
    ensures EventsOf(frames[..n]) <= EventsOf(frames)
  {
    hide EventsOf;
    EventsOfAppend(frames[..n], frames[n..]);
    assert frames[..n] + frames[n..] == frames;
  }

  /** The browser's new id is that of the last event it was given, so it stays on track. */
  lemma PartDelivers(b: Browser, d: Browser, part: seq<Event>, final: seq<Event>)
    requires Ordered(final) && part <= Ahead(b, final)
    requires d.got == b.got + Messages(part) && ReadDecimal(d.lastId) == Reached(part, ReadDecimal(b.lastId))
    ensures OnTrack(b, d, final)
  {
    hide After, ReadDecimal, Decimal, Messages;
    PrefixAdvances(final, ReadDecimal(b.lastId), part);
    MessagesAppend(part, Ahead(d, final));
    assert b.got + (Messages(part) + Messages(Ahead(d, final))) == b.got + Messages(part) + Messages(Ahead(d, final));
  }

  lemma ConnectDelivers(b: Browser, c: Connection, final: seq<Event>)
    requires Follows([c], final)
    ensures OnTrack(b, Connect(b, c, CarriedOver), final)
  {
    hide Connect, ArrivedFrames, Ahead, OnTrack, After, EventsOf;
    Connected(b, c, CarriedOver, final);
    var part := EventsOf(ArrivedFrames(b.lastId, c));
    NoFramesNoEvents();
    CursorOf(part, b.lastId);
    PartDelivers(b, Connect(b, c, CarriedOver), part, final);
  }

  lemma NoFramesNoEvents()
    ensures EventsOf([]) == []
  {}

  lemma OnTrackTransitive(a: Browser, b: Browser, c: Browser, final: seq<Event>)
    requires OnTrack(a, b, final) && OnTrack(b, c, final)
    ensures OnTrack(a, c, final)
  {}

  lemma FollowsEach(cs: seq<Connection>, i: nat, final: seq<Event>)
    requires Follows(cs, final) && i < |cs|
    ensures Follows([cs[i]], final) && Follows(cs[..i], final)
  {}

  /**
   A session of any number of connections to the loop, cut anywhere and chained by
   Last-Event-ID, with a browser that carries its id buffer over: it has been given
   every event behind its first cursor up to its last one, each exactly once and in
   order, as on one uninterrupted stream.
   */
  lemma {:induction false} SessionDelivers(b: Browser, cs: seq<Connection>, final: seq<Event>)
    requires Follows(cs, final)
    ensures OnTrack(b, Session(b, cs, CarriedOver), final)
    decreases |cs|
  {
    hide OnTrack, Connect, Follows;
    if cs == [] {
      AlwaysOnTrack(b, final);
    } else {
      var last, init := cs[|cs| - 1], cs[..|cs| - 1];
      FollowsEach(cs, |cs| - 1, final);
      SessionDelivers(b, init, final);
      ConnectDelivers(Session(b, init, CarriedOver), last, final);
      OnTrackTransitive(b, Session(b, init, CarriedOver), Session(b, cs, CarriedOver), final);
    }
  }

  lemma AlwaysOnTrack(b: Browser, final: seq<Event>)
    ensures OnTrack(b, b, final)
  {}

  // ------------------------------------------------- a session as the standard has it

  /**
   The connection does not make a standard browser forget its place: it has none, or
   an event arrived whole, or no heartbeat did, or it has its place before the log.
   */
  predicate KeepsPlace(b: Browser, c: Connection, final: seq<Event>) {
    var frames := ArrivedFrames(b.lastId, c);
    || b.lastId == "" || EventsOf(frames) != [] || Heartbeat !in frames
    || forall e | e in final :: !Seen(e, ReadDecimal(b.lastId))
  }

  lemma {:induction false} OnlyHeartbeats(frames: seq<Frame>)
    requires EventsOf(frames) == []
    ensures forall f | f in frames :: f == Heartbeat
  {
    if frames != [] {
      assert frames[0].EventFrame? ==> |EventsOf(frames)| > 0;
      OnlyHeartbeats(frames[1..]);
      assert frames == [frames[0]] + frames[1..];
    }
  }

  /** All of the log is ahead exactly when none of it has been seen. */
  lemma AllAhead(final: seq<Event>, cursor: Option<nat>)
    requires Ordered(final)
    ensures After(final, None) == final && |After(final, cursor)| <= |final|
    ensures |After(final, cursor)| == |final| <==> forall e | e in final :: !Seen(e, cursor)
    ensures |After(final, cursor)| == |final| ==> After(final, cursor) == final
  {
    AfterAll(final, None);
    var k := AfterIsSuffix(final, cursor);
    hide After;
    forall e | e in final ensures k == 0 ==> !Seen(e, cursor) {
      var i :| 0 <= i < |final| && final[i] == e;
    }
    assert k > 0 ==> final[0] in final && Seen(final[0], cursor);
    assert k == 0 ==> final[k..] == final;
  }

  /** The messages a browser has and those still ahead of it. */
  function Account(b: Browser, final: seq<Event>): nat {
    |b.got| + |Ahead(b, final)|
  }

  /**
   With the id buffer empty at the start of a connection, as section 9.2.6 has it,
   the browser stays on track if and only if the connection keeps its place; when it
   does not, the account grows: what was given is still, or again, ahead.
   */
  lemma ConnectExactly(b: Browser, c: Connection, final: seq<Event>)
    requires Follows([c], final)
    ensures var d := Connect(b, c, Empty);
      && (OnTrack(b, d, final) <==> KeepsPlace(b, c, final))
      && Account(d, final) >= Account(b, final)
      && (Account(d, final) == Account(b, final) <==> KeepsPlace(b, c, final))
  {
    var d, frames := Connect(b, c, Empty), ArrivedFrames(b.lastId, c);
    Connected(b, c, Empty, final);
    hide Connect, ArrivedFrames, After, EventsOf;
    NoFramesNoEvents();
    var part := EventsOf(frames);
    if part != [] || frames == [] {
      CursorOf(part, b.lastId);
      CursorOf(part, "");
      PartDelivers(b, d, part, final);
      SameAccount(b, d, final);
    } else {
      OnlyHeartbeats(frames);
      assert frames[0] in frames;
      assert d.got == b.got && d.lastId == "" by { assert Messages([]) == []; }
      AllAhead(final, ReadDecimal(b.lastId));
      assert Ahead(d, final) == final;
      if KeepsPlace(b, c, final) {
        assert Ahead(b, final) == final;
      } else if OnTrack(b, d, final) {
        SameAccount(b, d, final);
        assert false;
      }
    }
  }

  lemma SameAccount(b: Browser, d: Browser, final: seq<Event>)
    requires OnTrack(b, d, final)
    ensures Account(b, final) == Account(d, final)
  {
    assert |d.got + Messages(Ahead(d, final))| == |b.got + Messages(Ahead(b, final))|;
  }

  /** Every connection of the session keeps the place of the browser as it then is. */
  predicate AllKeepPlace(b: Browser, cs: seq<Connection>, final: seq<Event>) {
    forall i | 0 <= i < |cs| :: KeepsPlace(Session(b, cs[..i], Empty), cs[i], final)
  }

  lemma AllKeepLast(b: Browser, cs: seq<Connection>, final: seq<Event>)
    requires cs != []
    ensures var last, init := cs[|cs| - 1], cs[..|cs| - 1];
      AllKeepPlace(b, cs, final) <==> AllKeepPlace(b, init, final) && KeepsPlace(Session(b, init, Empty), last, final)
  {
    hide KeepsPlace, Session;
    var init := cs[..|cs| - 1];
    assert forall i | 0 <= i < |init| :: init[..i] == cs[..i] && init[i] == cs[i];
  }

  /**
   A whole standard session is on track if and only if every one of its connections
   keeps the browser's place: a loss is never made good, the browser is given events twice.
   */
  lemma {:induction false} StandardSessionExactly(b: Browser, cs: seq<Connection>, final: seq<Event>)
    requires Follows(cs, final)
    ensures OnTrack(b, Session(b, cs, Empty), final) <==> AllKeepPlace(b, cs, final)
    ensures Account(Session(b, cs, Empty), final) >= Account(b, final)
    ensures Account(Session(b, cs, Empty), final) == Account(b, final) <==> AllKeepPlace(b, cs, final)
    decreases |cs|
  {
    hide OnTrack, Connect, Follows, KeepsPlace, Account, AllKeepPlace;
    if cs == [] {
      AlwaysOnTrack(b, final);
      assert AllKeepPlace(b, cs, final) by { NoneToKeep(b, final); }
    } else {
      var last, init := cs[|cs| - 1], cs[..|cs| - 1];
      FollowsEach(cs, |cs| - 1, final);
      AllKeepLast(b, cs, final);
      StandardSessionExactly(b, init, final);
      var at, d := Session(b, init, Empty), Session(b, cs, Empty);
      ConnectExactly(at, last, final);
      if OnTrack(b, at, final) && OnTrack(at, d, final) { OnTrackTransitive(b, at, d, final); }
      if OnTrack(b, d, final) { SameAccount(b, d, final); }
    }
  }

  lemma NoneToKeep(b: Browser, final: seq<Event>)
    ensures AllKeepPlace(b, [], final)
  {}

  // ------------------------------------------------------------ an event given twice

  lemma {:induction false} WholeAll(frames: seq<Frame>)
    ensures Whole(frames, |Print(frames)|) == |frames|
    decreases |frames|
  {
    if frames != [] {
      hide Join, Lines;
      WholeAll(frames[1..]);
    }
  }

  /** A connection of one turn of which everything arrives. */
  function OneTurnConnection(id: string, turn: Turn): Connection {
    Connection([turn], |Print(FramesOf([turn], ReadDecimal(id)))|)
  }

  lemma OneTurnArrives(id: string, turn: Turn)
    ensures ArrivedFrames(id, OneTurnConnection(id, turn)) == TurnFrames(turn, ReadDecimal(id))
  {
    var frames := FramesOf([turn], ReadDecimal(id));
    assert [turn][..0] == [] && Lifetime([turn]) == 1 && [turn][..1] == [turn];
    var cursor := CursorAfter([turn][..0], ReadDecimal(id));
    assert frames == FramesOf([turn][..0], ReadDecimal(id)) + TurnFrames(turn, cursor);
    assert frames == TurnFrames(turn, ReadDecimal(id));
    WholeAll(frames);
  }

  /** A connection on which only a heartbeat arrives makes a standard browser forget its place. */
  lemma HeartbeatForgets(e: Event, got: seq<Message>) returns (c: Connection)
    requires Sendable(EventFrame(e))
    ensures Follows([c], [e])
    ensures var b := Browser(Decimal(e.id), got);
      && Connect(b, c, Empty) == Browser("", got) && !KeepsPlace(b, c, [e])
      && Ahead(b, [e]) == [] && Ahead(Connect(b, c, Empty), [e]) == [e]
  {
    var b, id, turn := Browser(Decimal(e.id), got), Decimal(e.id), Turn([e], false, false, false);
    DecimalRoundTrip(e.id);
    assert [e][1..] == [];
    assert After([e], Some(e.id)) == [] && After([e], None) == [e];
    c := OneTurnConnection(id, turn);
    OneTurnArrives(id, turn);
    assert ArrivedFrames(id, c) == [Heartbeat] && EventsOf([Heartbeat]) == [];
    Connected(b, c, Empty, [e]);
    assert Messages([]) == [] && Heartbeat in [Heartbeat] && e in [e] && Seen(e, ReadDecimal(id));
  }

  /** A browser without a place is given the event. */
  lemma EventArrives(e: Event, got: seq<Message>) returns (c: Connection)
    requires Sendable(EventFrame(e))
    ensures Follows([c], [e]) && Connect(Browser("", got), c, Empty) == Browser(Decimal(e.id), got + [MessageOf(e)])
  {
    var b, turn := Browser("", got), Turn([e], false, true, false);
    assert [e][1..] == [];
    assert After([e], None) == [e];
    c := OneTurnConnection("", turn);
    OneTurnArrives("", turn);
    assert AsFrames([e]) == [EventFrame(e)] && [EventFrame(e)][1..] == [];
    assert ArrivedFrames("", c) == [EventFrame(e)] && EventsOf([EventFrame(e)]) == [e];
    Connected(b, c, Empty, [e]);
    assert Messages([e]) == [MessageOf(e)];
  }

  /** A standard session that gives its only event twice: the event, a heartbeat, the event again. */
  lemma DeliveredTwice(e: Event) returns (cs: seq<Connection>)
    requires Sendable(EventFrame(e))
    ensures Follows(cs, [e]) && |cs| == 3
    ensures Session(Browser("", []), cs, Empty).got == [MessageOf(e), MessageOf(e)]
  {
    hide Connect, KeepsPlace, Ahead;
    var first := EventArrives(e, []);
    var second := HeartbeatForgets(e, [] + [MessageOf(e)]);
    var third := EventArrives(e, [] + [MessageOf(e)]);
    cs := [first, second, third];
    assert Growing([first][0].turns, [e]) && Growing([second][0].turns, [e]) && Growing([third][0].turns, [e]);
    ThreeConnections(Browser("", []), first, second, third);
    assert [] + [MessageOf(e)] + [MessageOf(e)] == [MessageOf(e), MessageOf(e)];
  }

  lemma ThreeConnections(b: Browser, x: Connection, y: Connection, z: Connection)
    ensures Session(b, [x, y, z], Empty) == Connect(Connect(Connect(b, x, Empty), y, Empty), z, Empty)
  {
    hide Connect;
    assert [x, y, z][..2] == [x, y] && [x, y][..1] == [x] && [x][..0] == [];
    assert Session(b, [x], Empty) == Connect(Session(b, [], Empty), x, Empty);
    assert Session(b, [x, y], Empty) == Connect(Session(b, [x], Empty), y, Empty);
  }
}
