/** What a client reads in the head of its event stream (src/mcp_http.c:345-364). */
module StreamHead {
  import opened Json
  import opened CStrings
  import opened Headers
  import opened HeadReader
  import opened Machine
  import opened Requests
  import Responses
  import SessionId

  const STATUS_LINE := "HTTP/1.1 200 OK"
  const STREAM_TYPE := "text/event-stream"
  const TYPE := "Content-Type: " + STREAM_TYPE
  const CACHE := "Cache-Control: no-cache"
  const CLOSING := "Connection: close"
  const ORIGIN := "Access-Control-Allow-Origin: *"
  const SESSION_NAME := "Mcp-Session-Id"
  const EXPOSED := "Access-Control-" + "Expose-Headers: " + SESSION_NAME

  function SessionLine(id: string): string { SESSION_NAME + ": " + id }

  function Lines7(a: string, b: string, c: string, d: string, e: string, f: string, g: string): string {
    a + "\r\n" + b + "\r\n" + c + "\r\n" + d + "\r\n" + e + "\r\n" + f + "\r\n" + g + "\r\n" + "\r\n"
  }

  /** The head, line by line. */
  lemma HeadTextLines(id: string)
    ensures HeadText(id) == Join([STATUS_LINE, TYPE, CACHE, CLOSING, ORIGIN, EXPOSED, SessionLine(id)]) + "\r\n"
  {
    hide Join;
    JoinSeven(STATUS_LINE, TYPE, CACHE, CLOSING, ORIGIN, EXPOSED, SessionLine(id));
    HeadStartIs(id);
  }

  lemma HeadStartIs(id: string)
    ensures HeadText(id) == Lines7(STATUS_LINE, TYPE, CACHE, CLOSING, ORIGIN, EXPOSED, SessionLine(id))
  {
    var front := STATUS_LINE + "\r\n" + TYPE + "\r\n" + CACHE + "\r\n" + CLOSING + "\r\n"
      + ORIGIN + "\r\n" + EXPOSED + "\r\n";
    assert "\r\n\r\n" == "\r\n" + "\r\n";
    Regroup(front, SESSION_NAME + ": ", id, "\r\n");
  }

  lemma Regroup(front: string, name: string, id: string, end: string)
    ensures (front + name) + id + (end + end) == front + (name + id) + end + end
  {}

  lemma JoinSeven(a: string, b: string, c: string, d: string, e: string, f: string, g: string)
    ensures Join([a, b, c, d, e, f, g]) + "\r\n" == Lines7(a, b, c, d, e, f, g)
  {
    hide Join;
    JoinFirst(a, [b, c, d, e, f, g]);
    JoinFirst(b, [c, d, e, f, g]);
    JoinFirst(c, [d, e, f, g]);
    JoinFirst(d, [e, f, g]);
    JoinFirst(e, [f, g]);
    JoinFirst(f, [g]);
    JoinFirst(g, []);
    JoinNone();
    assert [a] + [b, c, d, e, f, g] == [a, b, c, d, e, f, g] && [b] + [c, d, e, f, g] == [b, c, d, e, f, g];
    assert [c] + [d, e, f, g] == [c, d, e, f, g] && [d] + [e, f, g] == [d, e, f, g] && [e] + [f, g] == [e, f, g];
    assert [f] + [g] == [f, g] && [g] + [] == [g];
    assert g + "\r\n" + "" == g + "\r\n";
  }

  lemma JoinFirst(line: string, lines: seq<string>)
    ensures Join([line] + lines) == line + "\r\n" + Join(lines)
  {
    assert ([line] + lines)[1..] == lines;
  }

  lemma JoinNone()
    ensures Join([]) == ""
  {}

  // ----- its fields -----

  lemma TypeRead()
    ensures NameOf(TYPE) == "content-type" && ValueOf(TYPE) == "text/event-stream" && '\r' !in TYPE
  {
    hide NameOf, ValueOf;
    Responses.TypeRead(STREAM_TYPE);
    assert STREAM_TYPE[0] == 't' && Trimmed(STREAM_TYPE) == STREAM_TYPE;
  }

  lemma CacheRead()
    ensures NameOf(CACHE) == "cache-control" && ValueOf(CACHE) == "no-cache" && '\r' !in CACHE
  {
    hide NameOf, ValueOf;
    assert CACHE == "Cache-Control" + ":" + " no-cache";
    FieldRead(CACHE, "Cache-Control", " no-cache");
    OneBlank("no-cache");
    assert Lowered("Cache-Control") == "cache-control";
  }

  lemma ClosingRead()
    ensures NameOf(CLOSING) == "connection" && '\r' !in CLOSING
  {
    hide NameOf, ValueOf;
    assert CLOSING == "Connection" + ":" + " close";
    FieldRead(CLOSING, "Connection", " close");
    assert Lowered("Connection") == "connection";
  }

  lemma OriginRead()
    ensures |NameOf(ORIGIN)| == 27 && '\r' !in ORIGIN
  {
    hide NameOf, ValueOf;
    assert ORIGIN == "Access-Control-Allow-Origin" + ":" + " *";
    FieldRead(ORIGIN, "Access-Control-Allow-Origin", " *");
  }

  lemma ExposedRead()
    ensures |NameOf(EXPOSED)| == 29 && '\r' !in EXPOSED
  {
    hide NameOf, ValueOf;
    var name := "Access-Control-" + "Expose-Headers";
    assert "Expose-Headers: " == "Expose-Headers" + ":" + " ";
    assert EXPOSED == name + ":" + (" " + SESSION_NAME);
    FieldRead(EXPOSED, name, " " + SESSION_NAME);
  }

  lemma SessionRead(id: string)
    requires SessionId.IsName(id)
    ensures NameOf(SessionLine(id)) == "mcp-session-id" && ValueOf(SessionLine(id)) == id && '\r' !in SessionLine(id)
  {
    hide NameOf, ValueOf;
    assert SessionLine(id) == SESSION_NAME + ":" + (" " + id);
    FieldRead(SessionLine(id), SESSION_NAME, " " + id);
    OneBlank(id);
    assert Lowered(SESSION_NAME) == "mcp-session-id";
    assert SessionId.IsHex(id[0]);
  }

  lemma StatusRead200()
    ensures StatusOf(STATUS_LINE) == Some(Status("HTTP/1.1", "200", "OK")) && '\r' !in STATUS_LINE
  {
    hide StatusOf;
    StatusRead("HTTP/1.1", "200", "OK");
    assert STATUS_LINE == "HTTP/1.1" + " " + ("200" + " " + "OK");
  }

  /** A client that opens the stream reads a successful response without a length,
      of the type of an event stream and not to be cached, that names its session;
      and what is sent behind it begins right behind the head. */
  lemma StreamHeadIsRead(id: string, more: string)
    requires SessionId.IsName(id)
    ensures var stream := HeadText(id) + more;
      && HeadEnd(stream) == Some(|HeadText(id)|)
      && StatusIn(stream) == Some(Status("HTTP/1.1", "200", "OK"))
      && FieldIn(stream, "content-type") == Some("text/event-stream")
      && FieldIn(stream, "cache-control") == Some("no-cache")
      && FieldIn(stream, "mcp-session-id") == Some(id)
      && FieldIn(stream, "content-length") == None
  {
    hide HeadText, Join, StatusOf, FieldOf, NameOf, ValueOf, HeadEnd, SessionLine;
    var lines := [STATUS_LINE, TYPE, CACHE, CLOSING, ORIGIN, EXPOSED, SessionLine(id)];
    HeadTextLines(id);
    StatusRead200();
    FieldsRead(id);
    Responses.SevenLines(STATUS_LINE, TYPE, CACHE, CLOSING, ORIGIN, EXPOSED, SessionLine(id));
    HeadEndOfJoin(lines, more);
    PartsOfJoin(lines, more);
    assert lines[1..] == [TYPE, CACHE, CLOSING, ORIGIN, EXPOSED, SessionLine(id)];
  }

  lemma FieldsRead(id: string)
    requires SessionId.IsName(id)
    ensures var lines := [TYPE, CACHE, CLOSING, ORIGIN, EXPOSED, SessionLine(id)];
      && FieldOf(lines, "content-type") == Some("text/event-stream")
      && FieldOf(lines, "cache-control") == Some("no-cache")
      && FieldOf(lines, "mcp-session-id") == Some(id) && FieldOf(lines, "content-length") == None
    ensures Responses.PlainLine(TYPE) && Responses.PlainLine(CACHE) && Responses.PlainLine(CLOSING)
    ensures Responses.PlainLine(ORIGIN) && Responses.PlainLine(EXPOSED) && Responses.PlainLine(SessionLine(id))
  {
    hide FieldOf, NameOf, ValueOf;
    TypeRead();
    CacheRead();
    ClosingRead();
    OriginRead();
    ExposedRead();
    SessionRead(id);
    var last := SessionLine(id);
    Responses.SixFields(TYPE, CACHE, CLOSING, ORIGIN, EXPOSED, last, "content-type");
    Responses.SixFields(TYPE, CACHE, CLOSING, ORIGIN, EXPOSED, last, "cache-control");
    Responses.SixFields(TYPE, CACHE, CLOSING, ORIGIN, EXPOSED, last, "mcp-session-id");
    Responses.SixFields(TYPE, CACHE, CLOSING, ORIGIN, EXPOSED, last, "content-length");
  }
}
