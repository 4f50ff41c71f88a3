/** Which answer or stream a request gets, by its method, its path and its fields
    (src/mcp_http.c:661-861), for a request that is written line by line. */
module Routing {
  import opened Json
  import opened CStrings
  import opened Headers
  import opened Decimal
  import opened Requests
  import opened Reception
  import Delivery
  import Responses
  import SessionId

  function RequestText(verb: string, path: string): string { verb + " " + (path + " " + "HTTP/1.1") }

  function Message(verb: string, path: string, lines: seq<string>, rest: string): string {
    Join([RequestText(verb, path)] + lines) + "\r\n" + rest
  }

  /** A word of a request line. */
  predicate Word(s: string) { s != "" && '\r' !in s && '\0' !in s && ' ' !in s }

  /** The path without its query. */
  function RouteOf(path: string): string { path[..IndexOf(path, '?')] }

  function FieldsOf(lines: seq<string>): Fields { NoteAll(Fields(None, ""), lines) }

  /** The value asks for an event stream, in any case of its letters. */
  ghost predicate WantsEvents(accept: string) {
    exists i :: 0 <= i <= |accept| && StartsWithCi(accept[i..], "text/event-stream")
  }

  lemma {:induction false} ContainsIs(s: string, t: string)
    ensures Contains(s, t) <==> exists i :: 0 <= i <= |s| && StartsWithCi(s[i..], t)
  {
    hide StartsWithCi;
    if s != "" {
      ContainsIs(s[1..], t);
      assert s[0..] == s;
      if Contains(s[1..], t) {
        var i :| 0 <= i <= |s| - 1 && StartsWithCi(s[1..][i..], t);
        assert s[1..][i..] == s[i + 1..];
      }
      if i :| 0 <= i <= |s| && StartsWithCi(s[i..], t) {
        if i > 0 { assert s[1..][i - 1..] == s[i..]; }
      }
    } else {
      assert s[0..] == s;
    }
  }

  lemma RequestParses(verb: string, path: string, tail: string)
    requires Word(verb) && Word(path)
    ensures Parse(RequestText(verb, path) + "\r\n" + tail) ==
      if |verb| < 16 && |path| < 1024 then Some(Request(verb, path, NoteAll(Fields(None, ""), Lines(tail)))) else None
  {
    hide NoteAll, RequestLine, Lines;
    var line := RequestText(verb, path);
    var head := line + "\r\n" + tail;
    LineParses(verb, path);
    IndexOfEnd(line, tail);
    assert head[..|line|] == line && head[|line| + 2..] == tail;
  }

  lemma WordsClean(verb: string, path: string)
    requires Word(verb) && Word(path)
    ensures '\r' !in RequestText(verb, path) && '\0' !in RequestText(verb, path)
  {}

  lemma LineParses(verb: string, path: string)
    requires Word(verb) && Word(path)
    ensures var line := RequestText(verb, path);
      && '\r' !in line
      && RequestLine(line) == if |verb| < 16 && |path| < 1024 then Some((verb, path)) else None
  {
    WordsClean(verb, path);
    hide IndexOf, CString;
    var tail := path + " " + "HTTP/1.1";
    var line := RequestText(verb, path);
    assert line == verb + " " + tail;
    Responses.NoNul(line);
    SessionId.IndexAfter(verb, ' ', tail);
    SessionId.IndexAfter(path, ' ', "HTTP/1.1");
    assert line[..|verb|] == verb && line[|verb| + 1..] == tail;
    assert tail[..|path|] == path;
  }

  lemma MessageParses(verb: string, path: string, lines: seq<string>, rest: string)
    requires Word(verb) && Word(path) && WellFormed(lines)
    ensures var stream := Message(verb, path, lines, rest);
      var n := |Join([RequestText(verb, path)] + lines)| + 2;
      && HeadEnd(stream) == Some(n) && n <= |stream|
      && Parse(stream[..n]) ==
           if |verb| < 16 && |path| < 1024 then Some(Request(verb, path, FieldsOf(lines))) else None
  {
    hide Parse, NoteAll, Lines, HeadEnd, IndexOf, LineHere;
    StopAtBlank();
    var all := [RequestText(verb, path)] + lines;
    var head := Join(all) + "\r\n";
    LineParses(verb, path);
    WellFormedAll(verb, path, lines);
    hide Join, RequestText;
    HeadEndOfJoin(all, rest);
    assert (head + rest)[..|head|] == head && Message(verb, path, lines, rest) == head + rest;
    JoinCons(RequestText(verb, path), lines, "\r\n");
    LinesThenStop(lines, "\r\n");
    RequestParses(verb, path, Join(lines) + "\r\n");
  }

  lemma StopAtBlank()
    ensures !LineHere("\r\n")
  {}

  lemma WellFormedAll(verb: string, path: string, lines: seq<string>)
    requires Word(verb) && Word(path) && WellFormed(lines)
    ensures WellFormed([RequestText(verb, path)] + lines)
  {
    LineParses(verb, path);
  }

  /** A request that is no POST of a message is answered by its method and path
      alone, and by what it accepts; a POST without a length between 1 and 1048576
      is refused, and so is one whose body gets no memory; any other has its body
      delivered once it is there. A method of 16 bytes or a path of 1024 is not
      answered at all, nor is a head of more than 8192 bytes. */
  lemma RequestIsRouted(verb: string, path: string, lines: seq<string>, rest: string, memory: bool)
    requires Word(verb) && Word(path) && WellFormed(lines)
    ensures var r := ReactionTo(Message(verb, path, lines, rest), memory);
      var route, accept, length := RouteOf(path), FieldsOf(lines).accept, FieldsOf(lines).length;
      if |Join([RequestText(verb, path)] + lines)| + 2 > 8192 || |verb| >= 16 || |path| >= 1024 then r == Dropped
      else if verb == "OPTIONS" then r == Answer(204)
      else if route == "/" && verb == "GET" then r == Answer(200)
      else if route == "/sse" then r == if verb == "GET" then LegacyStream else Answer(405)
      else if route != "/mcp" && route != "/message" then r == Answer(404)
      else if route == "/mcp" && verb == "GET" then
        r == if WantsEvents(accept) then KeepaliveStream else Answer(405)
      else if verb != "POST" then r == Answer(405)
      else if length == None || length.value == 0 || length.value > 1048576 then r == Answer(400)
      else if !memory then r == Answer(500)
      else if length.value > |rest| then r == Dropped
      else r == Deliver(route == "/message", path, accept, rest[..length.value])
  {
    hide Parse, HeadEnd, Contains, NoteAll, Join, WantsEvents;
    MessageParses(verb, path, lines, rest);
    Wants(FieldsOf(lines).accept);
    WordIsGet(verb);
  }

  lemma Wants(accept: string)
    ensures WantsEvents(accept) <==> Contains(accept, "text/event-stream")
  {
    ContainsIs(accept, "text/event-stream");
  }

  /** Different words. */
  lemma WordIsGet(verb: string)
    ensures !(verb == "GET" && (verb == "POST" || verb == "OPTIONS"))
  {
    assert |"GET"| == 3 && |"POST"| == 4;
  }

  // ----- what a request accepts -----

  predicate NamesAccept(line: string) { StartsWithCi(CString(line), "accept:") }

  predicate Blanks(s: string) { forall i :: 0 <= i < |s| ==> s[i] == ' ' || s[i] == '\t' }

  /** A field value, without blanks before it. */
  predicate IsValue(s: string) { '\r' !in s && '\0' !in s && (s != "" ==> s[0] != ' ' && s[0] != '\t') }

  lemma {:induction false} BlanksTrimmed(blanks: string, value: string)
    requires Blanks(blanks) && IsValue(value)
    ensures Trimmed(blanks + value) == value
    decreases |blanks|
  {
    if blanks != "" {
      assert blanks[0] == ' ' || blanks[0] == '\t';
      BlanksTrimmed(blanks[1..], value);
      assert (blanks + value)[1..] == blanks[1..] + value;
    } else {
      assert "" + value == value;
    }
  }

  lemma AcceptSeen(f: Fields, blanks: string, value: string)
    requires Blanks(blanks) && IsValue(value)
    ensures var f' := Note(f, "Accept:" + (blanks + value));
      f'.accept == (if |value| < 256 then value else value[..255]) && f'.length == f.length
  {
    var line := "Accept:" + (blanks + value);
    Responses.NoNul(line);
    AcceptName(line, blanks + value);
    NotLength(line);
    hide StartsWithCi, Trimmed;
    BlanksTrimmed(blanks, value);
    assert |ACCEPT| == 7 && line[7..] == blanks + value;
  }

  lemma NotLength(line: string)
    requires line != "" && line[0] == 'A'
    ensures !StartsWithCi(line, CONTENT_LENGTH)
  {
    assert Lower(line[0]) == 'a' && CONTENT_LENGTH[0] == 'c' && Lower('c') == 'c';
  }

  lemma AcceptName(line: string, rest: string)
    requires line == "Accept:" + rest
    ensures StartsWithCi(line, ACCEPT)
  {
    assert StartsWithCi("Accept:", ACCEPT);
    Responses.StartsWithCiSum("Accept:", rest, ACCEPT);
  }

  lemma {:induction false} AcceptKept(f: Fields, lines: seq<string>)
    requires forall i :: 0 <= i < |lines| ==> !NamesAccept(lines[i])
    ensures NoteAll(f, lines).accept == f.accept
    decreases |lines|
  {
    if lines != [] {
      assert ACCEPT == "accept:";
      AcceptKept(Note(f, lines[0]), lines[1..]);
    }
  }

  /** The value of the last Accept field, without the blanks before it, is what the
      server goes by, up to 255 bytes of it. */
  lemma AcceptIsSeen(before: seq<string>, blanks: string, value: string, after: seq<string>)
    requires Blanks(blanks) && IsValue(value)
    requires forall i :: 0 <= i < |after| ==> !NamesAccept(after[i])
    ensures FieldsOf(before + (["Accept:" + (blanks + value)] + after)).accept
      == if |value| < 256 then value else value[..255]
  {
    hide Note, NoteAll, NamesAccept;
    var f := FieldsOf(before);
    var line := "Accept:" + (blanks + value);
    Delivery.NoteInTurn(Fields(None, ""), before, [line] + after);
    Responses.Unfold(f, line, after);
    AcceptSeen(f, blanks, value);
    AcceptKept(Note(f, line), after);
  }

  /** A Content-Length without a digit in it leaves the length before it in force. */
  lemma NoNumberIsIgnored(before: seq<string>, blanks: string, value: string)
    requires Blanks(blanks) && IsValue(value) && forall i :: 0 <= i < |value| ==> !IsDigit(value[i])
    ensures FieldsOf(before + ["Content-" + "Length:" + (blanks + value)]) == FieldsOf(before)
  {
    hide Note;
    var line := "Content-" + "Length:" + (blanks + value);
    LengthIgnored(FieldsOf(before), "Content-" + "Length:", blanks, value);
    Delivery.NoteInTurn(Fields(None, ""), before, [line]);
    Responses.Unfold(FieldsOf(before), line, []);
    assert [line] + [] == [line];
  }

  lemma LengthIgnored(f: Fields, name: string, blanks: string, value: string)
    requires name == Responses.LENGTH_NAME
    requires Blanks(blanks) && IsValue(value) && forall i :: 0 <= i < |value| ==> !IsDigit(value[i])
    ensures Note(f, name + (blanks + value)) == f
  {
    hide Trimmed, Strtoul, StartsWithCi;
    var line := name + (blanks + value);
    Responses.LengthName();
    Responses.NoNul(line);
    Responses.StartsWithCiSum(name, blanks + value, CONTENT_LENGTH);
    BlanksTrimmed(blanks, value);
    NoDigitsNoNumber(value);
    assert line[|name|..] == blanks + value;
  }

  lemma NoDigitsNoNumber(value: string)
    requires forall i :: 0 <= i < |value| ==> !IsDigit(value[i])
    ensures Strtoul(value) == (0, 0)
  {
  }
}
