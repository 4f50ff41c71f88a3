/** A client's POST, written line by line, reaches its handler unchanged. */
module Delivery {
  import opened Json
  import opened CStrings
  import opened Headers
  import opened Decimal
  import opened Requests
  import opened Reception
  import Responses
  import SessionId

  const POST := "POST"
  const VERSION := "HTTP/1.1"

  function PostLine(path: string): string { POST + " " + (path + " " + VERSION) }

  /** The lines of the head: any fields may stand around the Content-Length. */
  function PostLines(path: string, before: seq<string>, length: string, after: seq<string>): seq<string> {
    [PostLine(path)] + (before + ([Responses.LengthField(length)] + after))
  }

  predicate PathText(path: string) {
    '\r' !in path && '\0' !in path && ' ' !in path && 0 < |path| < 1024
  }

  /** A POST whose last length field reads as that of its body is delivered, with
      the path and exactly the body, whatever other fields it has and whatever
      follows it on the connection. */
  lemma PostIsDelivered(legacy: bool, path: string, before: seq<string>, length: string, after: seq<string>,
                        body: string, rest: string)
    requires PathText(path) && path[..IndexOf(path, '?')] == if legacy then "/message" else "/mcp"
    requires WellFormed(before) && WellFormed(after)
    requires forall i :: 0 <= i < |after| ==> !Responses.NamesLength(after[i])
    requires 1 <= |body| <= MAX_BODY && Responses.Reads(length, |body|)
    requires |Join(PostLines(path, before, length, after))| + 2 <= MAX_HEADER
    ensures var lines := PostLines(path, before, length, after);
      ReactionTo(Join(lines) + "\r\n" + body + rest, true)
        == Deliver(legacy, path, NoteAll(Fields(None, ""), lines[1..]).accept, body)
  {
    hide Parse, NoteAll, Lines, Contains, Join, Responses.Reads;
    var lines := PostLines(path, before, length, after);
    var head := Join(lines) + "\r\n";
    PostLinesWellFormed(path, before, length, after, |body|);
    HeadEndOfJoin(lines, body + rest);
    Responses.Slices(head, body, rest, 0);
    PostHeadParses(path, before, length, after, |body|);
    assert Route(Parse(head).value) == NeedBody(legacy, |body|);
    var stream := head + body + rest;
    assert stream[|head|..] == body + rest;
    assert (body + rest)[..|body|] == body;
  }

  lemma PostHeadParses(path: string, before: seq<string>, length: string, after: seq<string>, n: nat)
    requires PathText(path) && WellFormed(before) && WellFormed(after) && Responses.Reads(length, n)
    requires forall i :: 0 <= i < |after| ==> !Responses.NamesLength(after[i])
    ensures var lines := PostLines(path, before, length, after);
      var fields := NoteAll(Fields(None, ""), lines[1..]);
      fields.length == Some(n) && Parse(Join(lines) + "\r\n") == Some(Request(POST, path, fields))
  {
    hide Note, NoteAll, Lines, Parse, Join, Responses.Reads;
    var lines := PostLines(path, before, length, after);
    PostLinesWellFormed(path, before, length, after, n);
    LengthAmongFields(before, length, after, n);
    assert lines == [PostLine(path)] + lines[1..];
    assert lines[1..] == before + ([Responses.LengthField(length)] + after);
    LinesThenStop(lines[1..], "\r\n");
    JoinCons(PostLine(path), lines[1..], "\r\n");
    PostParses(path, Join(lines[1..]) + "\r\n");
  }

  /** The first line, and the fields of the lines that are met behind it. */
  lemma PostParses(path: string, tail: string)
    requires PathText(path)
    ensures Parse(PostLine(path) + "\r\n" + tail) == Some(Request(POST, path, NoteAll(Fields(None, ""), Lines(tail))))
  {
    hide NoteAll, RequestLine, Lines;
    var line := PostLine(path);
    var head := line + "\r\n" + tail;
    PostLineParses(path);
    assert Responses.PlainLine(line);
    IndexOfEnd(line, tail);
    assert head[..|line|] == line && head[|line| + 2..] == tail;
  }

  lemma PostLinesWellFormed(path: string, before: seq<string>, length: string, after: seq<string>, n: nat)
    requires PathText(path) && WellFormed(before) && WellFormed(after) && Responses.Reads(length, n)
    ensures WellFormed(PostLines(path, before, length, after))
  {
    Responses.PlainField(length);
    assert Responses.PlainLine(PostLine(path));
  }

  lemma PostLineParses(path: string)
    requires PathText(path)
    ensures RequestLine(PostLine(path)) == Some((POST, path))
  {
    var tail := path + " " + VERSION;
    var line := PostLine(path);
    assert line == POST + " " + tail;
    Responses.NoNul(line);
    SessionId.IndexAfter(POST, ' ', tail);
    SessionId.IndexAfter(path, ' ', VERSION);
    assert line[..|POST|] == POST && line[|POST| + 1..] == tail;
    assert tail[..|path|] == path;
  }

  lemma LengthAmongFields(before: seq<string>, length: string, after: seq<string>, n: nat)
    requires Responses.Reads(length, n) && forall i :: 0 <= i < |after| ==> !Responses.NamesLength(after[i])
    ensures NoteAll(Fields(None, ""), before + ([Responses.LengthField(length)] + after)).length == Some(n)
  {
    var line := Responses.LengthField(length);
    var f := NoteAll(Fields(None, ""), before);
    NoteInTurn(Fields(None, ""), before, [line] + after);
    Responses.Unfold(f, line, after);
    Responses.NotesField(f, length, n);
    Responses.LengthKept(Note(f, line), after);
  }

  lemma {:induction false} NoteInTurn(f: Fields, a: seq<string>, b: seq<string>)
    ensures NoteAll(f, a + b) == NoteAll(NoteAll(f, a), b)
    decreases |a|
  {
    hide Note;
    if a == [] {
      assert a + b == b;
    } else {
      NoteInTurn(Note(f, a[0]), a[1..], b);
      assert (a + b)[1..] == a[1..] + b;
    }
  }

  /** A client that posts to the path of its endpoint event has its message
      delivered, and delivered for its own session. */
  lemma ClientReachesItsSession(id: string, before: seq<string>, after: seq<string>, body: string, rest: string)
    requires SessionId.IsName(id) && WellFormed(before) && WellFormed(after)
    requires forall i :: 0 <= i < |after| ==> !Responses.NamesLength(after[i])
    requires 1 <= |body| <= MAX_BODY
    requires |Join(PostLines(SessionId.ENDPOINT + id, before, Print(|body|), after))| + 2 <= MAX_HEADER
    ensures var path := SessionId.ENDPOINT + id;
      var reaction := ReactionTo(Join(PostLines(path, before, Print(|body|), after)) + "\r\n" + body + rest, true);
      && reaction.Deliver? && reaction.legacy && reaction.body == body
      && SessionId.Extract(reaction.path) == Some(id)
  {
    hide ReactionTo, Responses.Reads;
    var path := SessionId.ENDPOINT + id;
    assert path + "" == path;
    SessionId.EndpointRoundTrip(id, "");
    EndpointText(id);
    Responses.ReadsPrinted(|body|);
    PostIsDelivered(true, path, before, Print(|body|), after, body, rest);
  }

  lemma EndpointText(id: string)
    requires SessionId.IsName(id)
    ensures var path := SessionId.ENDPOINT + id;
      PathText(path) && path[..IndexOf(path, '?')] == "/message"
  {
    hide SessionId.IsName, IndexOf;
    NamePlain(id);
    EndpointPlain();
    SessionId.EndpointShape(id, "");
    assert SessionId.ENDPOINT + id + "" == SessionId.ENDPOINT + id;
  }

  lemma NamePlain(id: string)
    requires SessionId.IsName(id)
    ensures |id| == 32 && '\r' !in id && '\0' !in id && ' ' !in id
  {}

  lemma EndpointPlain()
    ensures |SessionId.ENDPOINT| == 19 && SessionId.ENDPOINT[..8] == "/message"
    ensures '\r' !in SessionId.ENDPOINT && '\0' !in SessionId.ENDPOINT && ' ' !in SessionId.ENDPOINT
  {
    assert SessionId.ENDPOINT == "/message" + "?" + "sessionId=";
  }

  // ----- a lone CR -----

  /** The lines of a head one of whose lines has a CR within it. */
  function CrLines(path: string, before: seq<string>, a: string, b: string, after: seq<string>): seq<string> {
    [PostLine(path)] + (before + ([a + "\r" + b] + after))
  }

  /** A line with a CR within it hides the lines behind it: a POST whose length
      stands there, and only there, is refused as one without a length. */
  lemma LengthBehindLoneCr(legacy: bool, path: string, before: seq<string>, a: string, b: string,
                           after: seq<string>, rest: string)
    requires PathText(path) && path[..IndexOf(path, '?')] == if legacy then "/message" else "/mcp"
    requires WellFormed(before) && forall i :: 0 <= i < |before| ==> !Responses.NamesLength(before[i])
    requires '\r' !in a && NoCrlf(a + "\r" + b) && Unbroken(after)
    requires |Join(CrLines(path, before, a, b, after))| + 2 <= MAX_HEADER
    ensures ReactionTo(Join(CrLines(path, before, a, b, after)) + "\r\n" + rest, true) == Answer(400)
  {
    hide Parse, NoteAll, Lines, Contains, Join, NoCrlf;
    var lines := CrLines(path, before, a, b, after);
    var head := Join(lines) + "\r\n";
    CrLinesUnbroken(path, before, a, b, after);
    HeadEndOfJoin(lines, rest);
    CrHeadParses(path, before, a, b, after);
    Responses.LengthKept(Fields(None, ""), before);
    var stream := head + rest;
    assert stream[..|head|] == head;
  }

  lemma CrLinesUnbroken(path: string, before: seq<string>, a: string, b: string, after: seq<string>)
    requires PathText(path) && WellFormed(before) && NoCrlf(a + "\r" + b) && Unbroken(after)
    ensures Unbroken(CrLines(path, before, a, b, after))
  {
    var line := PostLine(path);
    assert Responses.PlainLine(line) && NoCrlf(line);
    assert forall i :: 0 <= i < |before| ==> NoCrlf(before[i]);
  }

  lemma CrHeadParses(path: string, before: seq<string>, a: string, b: string, after: seq<string>)
    requires PathText(path) && WellFormed(before) && '\r' !in a && NoCrlf(a + "\r" + b)
    ensures Parse(Join(CrLines(path, before, a, b, after)) + "\r\n")
      == Some(Request(POST, path, NoteAll(Fields(None, ""), before)))
  {
    hide NoteAll, Parse, Join;
    var inside := [a + "\r" + b] + after;
    var stop := Join(inside) + "\r\n";
    StopsInside(a, b, after);
    LinesThenStop(before, stop);
    JoinSum(before, inside);
    JoinCons(PostLine(path), before + inside, "\r\n");
    assert Join(before + inside) + "\r\n" == Join(before) + stop;
    PostParses(path, Join(before) + stop);
  }

  lemma StopsInside(a: string, b: string, after: seq<string>)
    requires '\r' !in a && NoCrlf(a + "\r" + b)
    ensures !LineHere(Join([a + "\r" + b] + after) + "\r\n")
  {
    var more := Join(after) + "\r\n";
    var line := a + "\r" + b;
    JoinCons(line, after, "\r\n");
    var h := line + "\r\n" + more;
    assert h == a + ("\r" + (b + "\r\n" + more));
    IndexOfAtMost(h, '\r', |a|);
    assert forall i :: 0 <= i < |a| ==> h[i] == a[i] && a[i] in a;
    assert b != "" ==> line[|a|] == '\r' && line[|a| + 1] == b[0];
  }

  lemma {:induction false} JoinSum(a: seq<string>, b: seq<string>)
    ensures Join(a + b) == Join(a) + Join(b)
  {
    if a == [] {
      assert a + b == b;
    } else {
      JoinSum(a[1..], b);
      assert (a + b)[1..] == a[1..] + b;
    }
  }

  // ----- at an input -----

  const MCP := "/mcp"

  lemma McpPath()
    ensures PathText(MCP) && MCP[..IndexOf(MCP, '?')] == MCP
    ensures |PostLine(MCP)| == 18 && forall value :: |Responses.LengthField(value)| == 16 + |value|
  {
    assert MCP == ['/', 'm', 'c', 'p'];
    IndexOfNone(MCP, '?');
    assert MCP[..4] == MCP;
    assert |Responses.LENGTH_NAME| == 15;
  }

  lemma {:induction false} IndexOfNone(s: string, ch: char)
    requires ch !in s
    ensures IndexOf(s, ch) == |s|
  {
    if s != "" { IndexOfNone(s[1..], ch); }
  }

  lemma JoinedLength(a: string, lines: seq<string>)
    ensures |Join([a] + lines)| == |a| + 2 + |Join(lines)| && Join([]) == ""
  {
    JoinCons(a, lines, "");
  }

  lemma TwoLonger(a: string, b: string)
    ensures |Join([a, b])| == |a| + |b| + 4
  {
    JoinedLength(a, [b]);
    JoinedLength(b, []);
    assert [a] + [b] == [a, b] && [b] + [] == [b];
  }

  lemma ThreeLonger(a: string, b: string, c: string)
    ensures |Join([a, b, c])| == |a| + |b| + |c| + 6
  {
    JoinedLength(a, [b, c]);
    TwoLonger(b, c);
    assert [a] + [b, c] == [a, b, c];
  }

  /** A small body, announced by a line behind this one. */
  function SmallRequest(line: string): string {
    Join([PostLine(MCP), line, Responses.LengthField("2")]) + "\r\n" + "{}"
  }

  lemma LengthTwo()
    ensures Responses.Reads("2", 2) && Responses.PlainLine(Responses.LengthField("2"))
  {
    assert Print(2) == "2" by { assert Print(2) == [('0' as int + 2) as char]; }
    Responses.ReadsPrinted(2);
    Responses.PlainField("2");
  }

  lemma SeenBehindPlainLine()
    ensures ReactionTo(SmallRequest("X: y"), true).Deliver? && ReactionTo(SmallRequest("X: y"), true).body == "{}"
  {
    hide ReactionTo, Join, PostLine, PathText, Responses.LengthField, Responses.Reads;
    LengthTwo();
    McpPath();
    ThreeLonger(PostLine(MCP), "X: y", Responses.LengthField("2"));
    assert PostLines(MCP, ["X: y"], "2", []) == [PostLine(MCP), "X: y", Responses.LengthField("2")];
    PostIsDelivered(false, MCP, ["X: y"], "2", [], "{}", "");
    assert SmallRequest("X: y") + "" == SmallRequest("X: y");
  }

  /** The same request with a CR inside that line: the length is not seen. */
  lemma NotSeenBehindLoneCr()
    ensures ReactionTo(SmallRequest("X: " + "\r" + "y"), true) == Answer(400)
  {
    hide ReactionTo, Join, PostLine, PathText, Responses.LengthField, Responses.Reads;
    var length := Responses.LengthField("2");
    LengthTwo();
    McpPath();
    ThreeLonger(PostLine(MCP), "X: " + "\r" + "y", length);
    assert CrLines(MCP, [], "X: ", "y", [length]) == [PostLine(MCP), "X: " + "\r" + "y", length];
    LengthBehindLoneCr(false, MCP, [], "X: ", "y", [length], "{}");
  }

  const NEGATIVE := "-" + BIGGEST

  lemma NegativeReads()
    ensures Responses.Reads(NEGATIVE, 1) && |NEGATIVE| == 21
  {
    PrintBiggest();
    Responses.ReadsNegative(1);
  }

  /** A length of -18446744073709551615 is taken for 1. */
  lemma NegativeLengthIsTaken()
    ensures var r := ReactionTo(Join([PostLine(MCP), Responses.LengthField(NEGATIVE)]) + "\r\n" + "1", true);
      r.Deliver? && r.body == "1"
  {
    NegativeReads();
    OneByte(NEGATIVE);
  }

  lemma OneByte(length: string)
    requires Responses.Reads(length, 1) && |length| <= 100
    ensures var r := ReactionTo(Join([PostLine(MCP), Responses.LengthField(length)]) + "\r\n" + "1", true);
      r.Deliver? && r.body == "1"
  {
    hide ReactionTo, Join, PostLine, PathText, Responses.LengthField, Responses.Reads;
    var lines := [PostLine(MCP), Responses.LengthField(length)];
    McpPath();
    TwoLonger(lines[0], lines[1]);
    assert PostLines(MCP, [], length, []) == lines;
    PostIsDelivered(false, MCP, [], length, [], "1", "");
    assert Join(lines) + "\r\n" + "1" + "" == Join(lines) + "\r\n" + "1";
  }
}
