/** Server-sent events: what sse_write_event_locked and the keepalive put on a
    stream, and how a client reads it back by section 9.2.6 ("Interpreting an
    event stream") of the WHATWG HTML Standard. A character stands for a byte. */
module Sse {

  // ----- the writing side (src/mcp_http.c:369-389, 502) -----

  datatype Frame =
    | Keepalive
    | Event(name: string, data: string)

  predicate OneLine(s: string) {
    forall i :: 0 <= i < |s| ==> s[i] != '\r' && s[i] != '\n'
  }

  predicate Sendable(f: Frame) {
    f.Event? ==> f.name != "" && OneLine(f.name) && OneLine(f.data)
  }

  /** The separate write_full calls that make up one frame. */
  function Pieces(f: Frame): seq<string> {
    match f
    case Keepalive => [": keepalive\n\n"]
    case Event(name, data) => ["event: ", name, "\n", "data: ", data, "\n\n"]
  }

  function Flatten(pieces: seq<string>): string {
    if pieces == [] then "" else pieces[0] + Flatten(pieces[1..])
  }

  function Encode(f: Frame): string { Flatten(Pieces(f)) }

  function Wire(frames: seq<Frame>): string {
    if frames == [] then "" else Encode(frames[0]) + Wire(frames[1..])
  }

  // ----- the reading side (WHATWG HTML, 9.2.6) -----

  datatype Dispatched = Dispatched(kind: string, data: string)
  datatype Buffers = Buffers(kind: string, data: string)

  const EMPTY := Buffers("", "")

  /** Index of the first CR or LF, or the length when there is none. */
  function LineEnd(s: string): (n: nat)
    ensures n <= |s| && OneLine(s[..n])
    ensures n < |s| ==> s[n] == '\r' || s[n] == '\n'
  {
    if s == "" || s[0] == '\r' || s[0] == '\n' then 0
    else 1 + LineEnd(s[1..])
  }

  function ColonAt(line: string): (n: nat)
    ensures n <= |line| && ':' !in line[..n] && (n < |line| ==> line[n] == ':')
  {
    if line == "" || line[0] == ':' then 0 else 1 + ColonAt(line[1..])
  }

  function SetField(b: Buffers, field: string, value: string): Buffers {
    if field == "event" then b.(kind := value)
    else if field == "data" then b.(data := b.data + value + "\n")
    else b
  }

  function ProcessLine(b: Buffers, line: string): (Buffers, seq<Dispatched>) {
    if line == "" then
      if b.data == "" then (EMPTY, [])
      else (EMPTY, [Dispatched(if b.kind == "" then "message" else b.kind, b.data[..|b.data| - 1])])
    else
      var c := ColonAt(line);
      if c == 0 then (b, [])
      else if c == |line| then (SetField(b, line, ""), [])
      else
        var value := line[c + 1..];
        (SetField(b, line[..c], if value != "" && value[0] == ' ' then value[1..] else value), [])
  }

  /** Lines end in CR, LF or CRLF; an unfinished last line dispatches nothing. */
  function Interpret(b: Buffers, s: string): seq<Dispatched>
    decreases |s|
  {
    var n := LineEnd(s);
    if n == |s| then []
    else
      var rest := if s[n] == '\r' && n + 1 < |s| && s[n + 1] == '\n' then s[n + 2..] else s[n + 1..];
      var (b', events) := ProcessLine(b, s[..n]);
      events + Interpret(b', rest)
  }

  // ----- reading back what was written -----

  /** What a client should see: the events in order, keepalives invisible. */
  function Visible(frames: seq<Frame>): seq<Dispatched> {
    if frames == [] then []
    else (match frames[0]
          case Keepalive => []
          case Event(name, data) => [Dispatched(name, data)]) + Visible(frames[1..])
  }

  lemma EncodeKeepalive()
    ensures Encode(Keepalive) == ": keepalive\n\n"
  {
    assert Pieces(Keepalive)[1..] == [];
  }

  lemma FlattenCons(p: string, ps: seq<string>)
    ensures Flatten([p] + ps) == p + Flatten(ps)
  {
    assert ([p] + ps)[1..] == ps;
  }

  lemma EncodeEvent(name: string, data: string)
    ensures Encode(Event(name, data)) == ("event: " + name) + "\n" + (("data: " + data) + "\n" + ("" + "\n"))
  {
    FlattenCons("\n\n", []);
    FlattenCons(data, ["\n\n"]);
    FlattenCons("data: ", [data] + ["\n\n"]);
    FlattenCons("\n", ["data: "] + ([data] + ["\n\n"]));
    FlattenCons(name, ["\n"] + (["data: "] + ([data] + ["\n\n"])));
    FlattenCons("event: ", [name] + (["\n"] + (["data: "] + ([data] + ["\n\n"]))));
    assert Pieces(Event(name, data)) == ["event: "] + ([name] + (["\n"] + (["data: "] + ([data] + ["\n\n"]))));
    assert "\n\n" == "" + "\n" + "\n";
  }

  lemma {:induction false} LineEndOf(line: string, rest: string)
    requires OneLine(line)
    ensures LineEnd(line + "\n" + rest) == |line|
  {
    var s := line + "\n" + rest;
    if line == "" {
      assert s[0] == '\n';
    } else {
      LineEndOf(line[1..], rest);
      assert s[0] == line[0];
      assert s[1..] == line[1..] + "\n" + rest;
    }
  }

  lemma InterpretLine(b: Buffers, line: string, rest: string)
    requires OneLine(line)
    ensures var (b', events) := ProcessLine(b, line);
      Interpret(b, line + "\n" + rest) == events + Interpret(b', rest)
  {
    var s := line + "\n" + rest;
    LineEndOf(line, rest);
    assert s[..|line|] == line;
    assert s[|line| + 1..] == rest;
  }

  lemma ProcessField(b: Buffers, field: string, value: string)
    requires field != "" && ':' !in field
    ensures ProcessLine(b, field + ": " + value) == (SetField(b, field, value), [])
  {
    var line := field + ": " + value;
    ColonAfter(field, " " + value);
    assert line == field + ":" + (" " + value);
    assert line[|field| + 1..] == " " + value;
    assert line[..|field|] == field;
  }

  lemma {:induction false} ColonAfter(field: string, rest: string)
    requires ':' !in field
    ensures ColonAt(field + ":" + rest) == |field|
  {
    var line := field + ":" + rest;
    if field != "" {
      ColonAfter(field[1..], rest);
      assert line[1..] == field[1..] + ":" + rest;
      assert line[0] == field[0] && field[0] in field;
    }
  }

  lemma CommentLine(b: Buffers, text: string)
    ensures ProcessLine(b, ":" + text) == (b, [])
  {
    assert (":" + text)[0] == ':';
  }

  lemma KeepaliveLines(rest: string)
    ensures Encode(Keepalive) + rest == (":" + " keepalive") + "\n" + ("" + "\n" + rest)
  {
    EncodeKeepalive();
  }

  lemma DecodeComment(text: string, rest: string)
    requires OneLine(text)
    ensures Interpret(EMPTY, (":" + text) + "\n" + ("" + "\n" + rest)) == Interpret(EMPTY, rest)
  {
    CommentLine(EMPTY, text);
    InterpretLine(EMPTY, ":" + text, "" + "\n" + rest);
    InterpretLine(EMPTY, "", rest);
  }

  lemma EventLines(name: string, data: string, rest: string)
    ensures Encode(Event(name, data)) + rest
      == ("event: " + name) + "\n" + (("data: " + data) + "\n" + ("" + "\n" + rest))
  {
    EncodeEvent(name, data);
  }

  lemma EventLine(name: string)
    requires OneLine(name)
    ensures OneLine("event: " + name)
    ensures ProcessLine(EMPTY, "event: " + name) == (Buffers(name, ""), [])
  {
    ProcessField(EMPTY, "event", name);
    assert "event" + ": " + name == "event: " + name;
  }

  lemma DataLine(name: string, data: string)
    requires OneLine(data)
    ensures OneLine("data: " + data)
    ensures ProcessLine(Buffers(name, ""), "data: " + data) == (Buffers(name, data + "\n"), [])
  {
    ProcessField(Buffers(name, ""), "data", data);
    assert "data" + ": " + data == "data: " + data;
    assert "" + data + "\n" == data + "\n";
  }

  lemma DecodeEnd(name: string, data: string, rest: string)
    requires name != ""
    ensures Interpret(Buffers(name, data + "\n"), "" + "\n" + rest)
      == [Dispatched(name, data)] + Interpret(EMPTY, rest)
  {
    var b := Buffers(name, data + "\n");
    InterpretLine(b, "", rest);
    assert b.data[..|b.data| - 1] == data;
  }

  /** A line that dispatches nothing. */
  lemma QuietLine(b: Buffers, line: string, b': Buffers, rest: string)
    requires OneLine(line) && ProcessLine(b, line) == (b', [])
    ensures Interpret(b, line + "\n" + rest) == Interpret(b', rest)
  {
    InterpretLine(b, line, rest);
  }

  lemma DecodeEvent(name: string, data: string, rest: string, wire: string)
    requires name != "" && OneLine(name) && OneLine(data)
    requires wire == ("event: " + name) + "\n" + (("data: " + data) + "\n" + ("" + "\n" + rest))
    ensures Interpret(EMPTY, wire) == [Dispatched(name, data)] + Interpret(EMPTY, rest)
  {
    EventLine(name);
    DataLine(name, data);
    var end := "" + "\n" + rest;
    QuietLine(EMPTY, "event: " + name, Buffers(name, ""), ("data: " + data) + "\n" + end);
    QuietLine(Buffers(name, ""), "data: " + data, Buffers(name, data + "\n"), end);
    DecodeEnd(name, data, rest);
  }

  lemma DecodeEventFrame(name: string, data: string, rest: string)
    requires name != "" && OneLine(name) && OneLine(data)
    ensures Interpret(EMPTY, Encode(Event(name, data)) + rest) == [Dispatched(name, data)] + Interpret(EMPTY, rest)
  {
    EventLines(name, data, rest);
    DecodeEvent(name, data, rest, Encode(Event(name, data)) + rest);
  }

  lemma DecodeKeepalive(rest: string)
    ensures Interpret(EMPTY, Encode(Keepalive) + rest) == Interpret(EMPTY, rest)
  {
    KeepaliveLines(rest);
    DecodeComment(" keepalive", rest);
  }

  lemma DecodeFrame(f: Frame, rest: string)
    requires Sendable(f)
    ensures Interpret(EMPTY, Encode(f) + rest) == Visible([f]) + Interpret(EMPTY, rest)
  {
    assert [f][1..] == [];
    match f
    case Keepalive => DecodeKeepalive(rest);
    case Event(name, data) => DecodeEventFrame(name, data, rest);
  }

  /** An unfinished frame dispatches nothing, wherever it was cut. */
  ghost predicate Truncation(tail: string, f: Frame) {
    |tail| < |Encode(f)| && tail == Encode(f)[..|tail|]
  }

  ghost predicate NoBlankLine(s: string) {
    && '\r' !in s
    && (s != "" ==> s[0] != '\n')
    && forall i :: 0 <= i < |s| - 1 ==> !(s[i] == '\n' && s[i + 1] == '\n')
  }

  lemma {:induction false} QuietWithoutBlankLine(b: Buffers, s: string)
    requires NoBlankLine(s)
    ensures Interpret(b, s) == []
    decreases |s|
  {
    hide NoBlankLine, OneLine, ColonAt, SetField;
    var n := LineEnd(s);
    if n < |s| {
      AfterLine(s, n);
      QuietWithoutBlankLine(ProcessLine(b, s[..n]).0, s[n + 1..]);
    }
  }

  /** The first line is not empty and ends in LF, and the rest is like the whole. */
  lemma AfterLine(s: string, n: nat)
    requires NoBlankLine(s) && n == LineEnd(s) && n < |s|
    ensures n > 0 && s[n] == '\n' && NoBlankLine(s[n + 1..])
  {
    assert s[n] in s;
    var rest := s[n + 1..];
    assert forall i :: 0 <= i < |rest| ==> rest[i] == s[n + 1 + i];
  }

  lemma EncodeHasNoBlankLine(f: Frame)
    requires Sendable(f)
    ensures var e := Encode(f);
      |e| >= 2 && NoBlankLine(e[..|e| - 1])
  {
    match f {
      case Keepalive => EncodeKeepalive();
      case Event(name, data) =>
        EncodeEvent(name, data);
        EventShape("event: " + name, "data: " + data);
    }
  }

  lemma EventShape(line1: string, line2: string)
    requires line1 != "" && line2 != "" && OneLine(line1) && OneLine(line2)
    ensures NoBlankLine((line1 + "\n" + (line2 + "\n" + ("" + "\n")))[..|line1| + |line2| + 2])
  {
    assert (line1 + "\n" + (line2 + "\n" + ("" + "\n")))[..|line1| + |line2| + 2] == line1 + "\n" + line2 + "\n";
  }

  lemma TruncationIsQuiet(tail: string, f: Frame)
    requires Sendable(f) && Truncation(tail, f)
    ensures Interpret(EMPTY, tail) == []
  {
    EncodeHasNoBlankLine(f);
    var e := Encode(f);
    assert tail == e[..|e| - 1][..|tail|];
    QuietWithoutBlankLine(EMPTY, tail);
  }

  lemma DecodeCons(f: Frame, rest: seq<Frame>, s: string)
    requires Sendable(f) && Interpret(EMPTY, s) == Visible(rest)
    ensures Interpret(EMPTY, Encode(f) + s) == Visible([f] + rest)
  {
    DecodeFrame(f, s);
    assert ([f] + rest)[1..] == rest && [f][1..] == [];
  }

  lemma WireCons(frames: seq<Frame>, tail: string)
    requires frames != []
    ensures Wire(frames) + tail == Encode(frames[0]) + (Wire(frames[1..]) + tail)
  {}

  /** Reading whole frames followed by at most one unfinished frame gives
      exactly the completed events, in order. */
  lemma {:induction false} DecodeFrames(frames: seq<Frame>, tail: string, last: Frame)
    requires forall i :: 0 <= i < |frames| ==> Sendable(frames[i])
    requires Sendable(last) && Truncation(tail, last)
    ensures Interpret(EMPTY, Wire(frames) + tail) == Visible(frames)
  {
    if frames == [] {
      assert "" + tail == tail;
      TruncationIsQuiet(tail, last);
    } else {
      DecodeFrames(frames[1..], tail, last);
      WireCons(frames, tail);
      DecodeCons(frames[0], frames[1..], Wire(frames[1..]) + tail);
      assert [frames[0]] + frames[1..] == frames;
    }
  }

  lemma Assoc(a: string, b: string, c: string)
    ensures a + (b + c) == a + b + c
  {}

  lemma {:induction false} WireSnoc(frames: seq<Frame>, f: Frame)
    ensures Wire(frames + [f]) == Wire(frames) + Encode(f)
  {
    if frames == [] {
      WireOne(f);
      assert [] + [f] == [f];
    } else {
      var first, rest := frames[0], frames[1..];
      WireSnoc(rest, f);
      assert frames + [f] == [first] + (rest + [f]) && frames == [first] + rest;
      WireOf(first, rest + [f]);
      WireOf(first, rest);
      Assoc(Encode(first), Wire(rest), Encode(f));
    }
  }

  lemma WireOf(f: Frame, rest: seq<Frame>)
    ensures Wire([f] + rest) == Encode(f) + Wire(rest)
  {
    assert ([f] + rest)[1..] == rest;
  }

  lemma WireOne(f: Frame)
    ensures Wire([f]) == Encode(f)
  {
    assert [f][1..] == [];
    assert Wire([f]) == Encode(f) + "";
  }
}
