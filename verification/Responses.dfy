/** The answers the server writes (src/mcp_http.c:311-336), read back with the
    rules it applies to requests. */
module Responses {
  import opened Json
  import opened CStrings
  import opened Connections
  import opened Headers
  import opened Decimal
  import opened Requests
  import opened HeadReader

  const HEAD_SIZE := 512
  const LENGTH_NAME := "Content-" + "Length:"
  const ALLOW := "Access-Control-Allow-"
  const ORIGIN := ALLOW + "Origin: *"
  const METHODS := ALLOW + "Methods: " + "POST, GET, OPTIONS"
  const HEADERS := ALLOW + "Headers: " + "Content-Type, Accept, " + "Mcp-Session-Id, " + "MCP-Protocol-Version"
  const CLOSE := "Connection: close"

  function HeadLines(status: nat, reason: string, contentType: string, length: nat): seq<string> {
    ["HTTP/1.1 " + Print(status) + " " + reason,
     "Content-Type: " + contentType,
     LengthLine(length),
     ORIGIN,
     METHODS,
     HEADERS,
     CLOSE]
  }

  /** The line of a length field with this value. */
  function LengthField(value: string): string { LENGTH_NAME + (" " + value) }

  function LengthLine(length: nat): string { LengthField(Print(length)) }

  function Head(status: nat, reason: string, contentType: string, length: nat): string {
    Join(HeadLines(status, reason, contentType, length)) + "\r\n"
  }

  /** Sends the head and then the body. A head that does not fit its buffer is
      not sent at all; otherwise a failure leaves a proper prefix on the wire. */
  method SendResponse(conn: Connection, status: nat, reason: string, contentType: string, body: string)
    returns (rc: int)
    modifies conn`outgoing, conn`script, conn`broken
    ensures rc == 0 || rc == -1
    ensures var head := Head(status, reason, contentType, |body|);
      && (rc == 0 ==> |head| < 512 && conn.outgoing == old(conn.outgoing) + (head + body))
      && (rc == 0 ==> conn.broken == old(conn.broken))
      && (|head| >= 512 ==> conn.outgoing == old(conn.outgoing) && conn.broken == old(conn.broken))
      && (rc == -1 && |head| < 512 ==>
            conn.broken
            && exists k :: 0 <= k < |head + body| && conn.outgoing == old(conn.outgoing) + (head + body)[..k])
    ensures rc == 0 && '\r' !in reason && '\r' !in contentType ==>
      && old(conn.outgoing) <= conn.outgoing
      && Understood(conn.outgoing[|old(conn.outgoing)|..], status, reason, contentType, body)
  {
    hide Head, Understood;
    var head := Head(status, reason, contentType, |body|);
    if |head| >= HEAD_SIZE {
      return -1;
    }
    ghost var was := conn.outgoing;
    var sent := WriteFull(conn, head);
    if sent < 0 {
      ghost var k :| 0 <= k < |head| && conn.outgoing == was + head[..k];
      assert head[..k] == (head + body)[..k];
      return -1;
    }
    if |body| > 0 {
      sent := WriteFull(conn, body);
      if sent < 0 {
        ghost var k :| 0 <= k < |body| && conn.outgoing == was + head + body[..k];
        assert was + head + body[..k] == was + (head + body)[..|head| + k];
        return -1;
      }
      assert was + head + body == was + (head + body);
    } else {
      assert head == head + body;
    }
    assert conn.outgoing[|was|..] == head + body;
    if '\r' !in reason && '\r' !in contentType { HeadUnderstood(status, reason, contentType, body); }
    return 0;
  }

  /** What a client reads in a response: the status and its reason, the type and
      the length of the body, and the body behind the head. */
  ghost predicate Understood(stream: string, status: nat, reason: string, contentType: string, body: string) {
    && (exists code :: Numeral(code, status) && StatusIn(stream) == Some(Status("HTTP/1.1", code, reason)))
    && FieldIn(stream, "content-type") == Some(Trimmed(contentType))
    && (exists length :: Numeral(length, |body|) && FieldIn(stream, "content-length") == Some(length))
    && FieldIn(stream, "access-control-allow-origin") == Some("*")
    && FieldIn(stream, "connection") == Some("close")
    && HeadEnd(stream).Some? && stream[HeadEnd(stream).value..] == body
  }

  predicate Numeral(digits: string, n: nat) { digits != "" && AllDigits(digits) && Value(digits) == n }

  /** The head names what was to be said, for a reason and a content type without
      a CR. */
  lemma HeadUnderstood(status: nat, reason: string, contentType: string, body: string)
    requires '\r' !in reason && '\r' !in contentType
    ensures Understood(Head(status, reason, contentType, |body|) + body, status, reason, contentType, body)
  {
    hide Lines, StatusOf, FieldOf, HeadEndFrom, Join, Value;
    var lines := HeadLines(status, reason, contentType, |body|);
    var head := Head(status, reason, contentType, |body|);
    LinesWellFormed(status, reason, contentType, |body|);
    PartsOfJoin(lines, body);
    HeadEndOfJoin(lines, body);
    assert (head + body)[|head|..] == body;
    StatusLineRead(status, reason);
    FieldsRead(lines[0], contentType, |body|);
    assert Numeral(Print(status), status) && Numeral(Print(|body|), |body|);
  }

  lemma StatusLineRead(status: nat, reason: string)
    ensures StatusOf("HTTP/1.1 " + Print(status) + " " + reason) == Some(Status("HTTP/1.1", Print(status), reason))
  {
    hide StatusOf;
    var code := Print(status);
    DigitsNoBlank(code);
    StatusRead("HTTP/1.1", code, reason);
    assert "HTTP/1.1 " + code + " " + reason == "HTTP/1.1" + " " + (code + " " + reason);
  }

  lemma DigitsNoBlank(code: string)
    requires AllDigits(code)
    ensures ' ' !in code && Trimmed(code) == code
  {
    if code != "" { assert IsDigit(code[0]); }
  }

  lemma FieldsRead(first: string, contentType: string, length: nat)
    ensures var lines :=
        [first, "Content-Type: " + contentType, LengthLine(length), ORIGIN, METHODS, HEADERS, CLOSE][1..];
      && FieldOf(lines, "content-type") == Some(Trimmed(contentType))
      && FieldOf(lines, "content-length") == Some(Print(length))
      && FieldOf(lines, "access-control-allow-origin") == Some("*")
      && FieldOf(lines, "connection") == Some("close")
  {
    hide FieldOf, NameOf, ValueOf, Print;
    var a, b := "Content-Type: " + contentType, LengthLine(length);
    TypeRead(contentType);
    LengthRead(length);
    OriginRead();
    MethodsRead();
    HeadersRead();
    CloseRead();
    SixFields(a, b, ORIGIN, METHODS, HEADERS, CLOSE, "content-type");
    SixFields(a, b, ORIGIN, METHODS, HEADERS, CLOSE, "content-length");
    SixFields(a, b, ORIGIN, METHODS, HEADERS, CLOSE, "access-control-allow-origin");
    SixFields(a, b, ORIGIN, METHODS, HEADERS, CLOSE, "connection");
    assert [first, a, b, ORIGIN, METHODS, HEADERS, CLOSE][1..] == [a, b, ORIGIN, METHODS, HEADERS, CLOSE];
  }

  lemma SixFields(a: string, b: string, c: string, d: string, e: string, f: string, name: string)
    ensures FieldOf([a, b, c, d, e, f], name) ==
      if NameOf(a) == name then Some(ValueOf(a)) else if NameOf(b) == name then Some(ValueOf(b))
      else if NameOf(c) == name then Some(ValueOf(c)) else if NameOf(d) == name then Some(ValueOf(d))
      else if NameOf(e) == name then Some(ValueOf(e)) else if NameOf(f) == name then Some(ValueOf(f)) else None
  {
    hide NameOf, ValueOf;
    FieldFirst(a, [b, c, d, e, f], name);
    FieldFirst(b, [c, d, e, f], name);
    FieldFirst(c, [d, e, f], name);
    FieldFirst(d, [e, f], name);
    FieldFirst(e, [f], name);
    FieldFirst(f, [], name);
    assert [a] + [b, c, d, e, f] == [a, b, c, d, e, f] && [b] + [c, d, e, f] == [b, c, d, e, f];
    assert [c] + [d, e, f] == [c, d, e, f] && [d] + [e, f] == [d, e, f] && [e] + [f] == [e, f] && [f] + [] == [f];
  }

  lemma TypeRead(contentType: string)
    ensures var line := "Content-Type: " + contentType;
      NameOf(line) == "content-type" && ValueOf(line) == Trimmed(contentType)
  {
    hide NameOf, ValueOf, Trimmed;
    var line := "Content-Type: " + contentType;
    assert line == "Content-Type" + ":" + (" " + contentType);
    FieldRead(line, "Content-Type", " " + contentType);
    OneBlank(contentType);
    assert Lowered("Content-Type") == "content-type";
  }

  lemma LengthRead(length: nat)
    ensures NameOf(LengthLine(length)) == "content-length" && ValueOf(LengthLine(length)) == Print(length)
  {
    hide NameOf, ValueOf, Trimmed;
    var line, name := LengthLine(length), "Content-" + "Length";
    assert line == name + ":" + (" " + Print(length));
    FieldRead(line, name, " " + Print(length));
    OneBlank(Print(length));
    DigitsNoBlank(Print(length));
    assert Lowered(name) == "content-length";
  }

  lemma OriginRead()
    ensures NameOf(ORIGIN) == "access-control-allow-origin" && ValueOf(ORIGIN) == "*"
  {
    hide NameOf, ValueOf;
    AllowRead("Origin", " *", ORIGIN);
    assert Lowered("Origin") == "origin";
    OneBlank("*");
  }

  lemma MethodsRead()
    ensures |NameOf(METHODS)| == 28
  {
    hide NameOf, ValueOf, Trimmed;
    AllowRead("Methods", " POST, GET, OPTIONS", METHODS);
  }

  lemma HeadersRead()
    ensures |NameOf(HEADERS)| == 28
  {
    hide NameOf, ValueOf, Trimmed;
    var rest := " " + "Content-Type, Accept, " + "Mcp-Session-Id, " + "MCP-Protocol-Version";
    assert "Headers: " == "Headers" + ":" + " ";
    assert HEADERS == ALLOW + ("Headers" + ":" + rest);
    AllowRead("Headers", rest, HEADERS);
  }

  lemma CloseRead()
    ensures NameOf(CLOSE) == "connection" && ValueOf(CLOSE) == "close"
  {
    hide NameOf, ValueOf;
    assert CLOSE == "Connection" + ":" + " close";
    FieldRead(CLOSE, "Connection", " close");
    OneBlank("close");
    assert Lowered("Connection") == "connection";
  }

  lemma AllowRead(name: string, value: string, line: string)
    requires ':' !in name && line == ALLOW + (name + ":" + value)
    ensures NameOf(line) == "access-control-allow-" + Lowered(name) && ValueOf(line) == Trimmed(value)
  {
    hide NameOf, ValueOf, Trimmed;
    assert line == (ALLOW + name) + ":" + value;
    FieldRead(line, ALLOW + name, value);
    LoweredSum(ALLOW, name);
    AllowLowered();
  }

  lemma AllowLowered()
    ensures Lowered(ALLOW) == "access-control-allow-" && ':' !in ALLOW
  {
  }

  lemma LoweredSum(a: string, b: string)
    ensures Lowered(a + b) == Lowered(a) + Lowered(b)
  {
  }

  /** What a reader with the server's own rules takes for the body: it ends the
      head at the first blank line and believes the last Content-Length. */
  function ReadBack(stream: string): Option<string> {
    match HeadEnd(stream)
    case None => None
    case Some(e) =>
      var first := IndexOf(stream[..e], '\r');
      if first + 2 > e then None
      else match NoteAll(Fields(None, ""), Lines(stream[first + 2..e])).length
        case None => None
        case Some(n) => if e + n > |stream| then None else Some(stream[e..e + n])
  }

  /** Every body survives, whatever follows it, for a reason and a content type
      that are C strings without a CR. */
  lemma BodyReadBack(status: nat, reason: string, contentType: string, body: string, more: string)
    requires '\r' !in reason && '\r' !in contentType && |body| <= ULONG_MAX
    ensures ReadBack(Head(status, reason, contentType, |body|) + body + more) == Some(body)
  {
    LinesWellFormed(status, reason, contentType, |body|);
    LengthOfHead(status, reason, contentType, |body|);
    LinesReadBack(HeadLines(status, reason, contentType, |body|), body, more);
  }

  lemma LinesReadBack(lines: seq<string>, body: string, more: string)
    requires lines != [] && WellFormed(lines) && NoteAll(Fields(None, ""), lines[1..]).length == Some(|body|)
    ensures ReadBack(Join(lines) + "\r\n" + body + more) == Some(body)
  {
    var head := Join(lines) + "\r\n";
    HeadEndOfJoin(lines, body + more);
    AfterFirst(lines);
    Slices(head, body, more, |lines[0]| + 2);
  }

  lemma Slices(head: string, body: string, more: string, k: nat)
    requires k <= |head|
    ensures var stream := head + body + more;
      && stream == head + (body + more)
      && stream[..|head|] == head && stream[k..|head|] == head[k..]
      && stream[|head|..|head| + |body|] == body
  {
  }

  lemma LinesWellFormed(status: nat, reason: string, contentType: string, length: nat)
    requires '\r' !in reason && '\r' !in contentType
    ensures WellFormed(HeadLines(status, reason, contentType, length))
  {
    StatusLine(Print(status), reason);
    PlainSum("Content-Type: ", contentType);
    PlainLength(length);
    FixedLines();
    SevenLines("HTTP/1.1 " + Print(status) + " " + reason, "Content-Type: " + contentType, LengthLine(length),
               ORIGIN, METHODS, HEADERS, CLOSE);
  }

  lemma SevenLines(a: string, b: string, c: string, d: string, e: string, f: string, g: string)
    requires PlainLine(a) && PlainLine(b) && PlainLine(c) && PlainLine(d)
    requires PlainLine(e) && PlainLine(f) && PlainLine(g)
    ensures WellFormed([a, b, c, d, e, f, g])
  {
  }

  predicate PlainLine(s: string) { s != "" && '\r' !in s }

  lemma PlainSum(s: string, t: string)
    requires PlainLine(s) && '\r' !in t
    ensures PlainLine(s + t)
  {
  }

  lemma StatusLine(code: string, reason: string)
    requires AllDigits(code) && '\r' !in reason
    ensures PlainLine("HTTP/1.1 " + code + " " + reason)
  {
    NoCr(code);
    PlainSum("HTTP/1.1 ", code);
    PlainSum("HTTP/1.1 " + code, " ");
    PlainSum("HTTP/1.1 " + code + " ", reason);
  }

  lemma PlainLength(length: nat)
    ensures PlainLine(LengthLine(length))
  {
    NoCr(Print(length));
    PlainField(Print(length));
  }

  lemma PlainField(value: string)
    requires '\r' !in value
    ensures PlainLine(LengthField(value))
  {
    PlainSum(" ", value);
    LengthName();
    PlainSum(LENGTH_NAME, " " + value);
  }

  lemma NoCr(s: string)
    requires AllDigits(s)
    ensures '\r' !in s && '\0' !in s
  {
  }

  // Neither a CR nor a NUL.
  predicate Clean(s: string) { '\r' !in s && '\0' !in s }

  lemma CleanSum(s: string, t: string)
    requires Clean(s) && Clean(t)
    ensures Clean(s + t)
  {
  }

  lemma FixedLines()
    ensures PlainLine(ORIGIN) && PlainLine(METHODS) && PlainLine(HEADERS) && PlainLine(CLOSE)
    ensures !NamesLength(ORIGIN) && !NamesLength(METHODS) && !NamesLength(HEADERS) && !NamesLength(CLOSE)
  {
    CleanAllow();
    CleanOrigin();
    CleanMethods();
    CleanHeaders();
    OtherName(ORIGIN, 0);
    OtherName(METHODS, 0);
    OtherName(HEADERS, 0);
    CleanClose();
  }

  lemma CleanAllow()
    ensures Clean(ALLOW) && |ALLOW| > 0 && ALLOW[0] == 'A'
  {
  }

  lemma CleanOrigin()
    ensures Clean(ORIGIN) && |ORIGIN| > 0 && ORIGIN[0] == 'A'
  {
    CleanAllow();
    CleanSum(ALLOW, "Origin: *");
  }

  lemma CleanMethods()
    ensures Clean(METHODS) && |METHODS| > 0 && METHODS[0] == 'A'
  {
    CleanAllow();
    CleanSum(ALLOW, "Methods: ");
    CleanSum(ALLOW + "Methods: ", "POST, GET, OPTIONS");
  }

  lemma CleanHeaders()
    ensures Clean(HEADERS) && |HEADERS| > 0 && HEADERS[0] == 'A'
  {
    CleanAllow();
    CleanFields();
    CleanOwnFields();
    CleanSum(ALLOW, "Headers: ");
    CleanSum(ALLOW + "Headers: ", "Content-Type, Accept, ");
    CleanSum(ALLOW + "Headers: " + "Content-Type, Accept, ", "Mcp-Session-Id, ");
    CleanSum(ALLOW + "Headers: " + "Content-Type, Accept, " + "Mcp-Session-Id, ", "MCP-Protocol-Version");
  }

  lemma CleanFields()
    ensures Clean("Headers: ") && Clean("Content-Type, Accept, ")
  {
  }

  lemma CleanOwnFields()
    ensures Clean("Mcp-Session-Id, ") && Clean("MCP-Protocol-Version")
  {
  }

  lemma CleanClose()
    ensures PlainLine(CLOSE) && !NamesLength(CLOSE)
  {
    OtherName(CLOSE, 3);
  }

  /** The first line and its CR LF are the part up to the first CR, and two. */
  lemma AfterFirst(lines: seq<string>)
    requires lines != [] && WellFormed(lines)
    ensures IndexOf(Join(lines) + "\r\n", '\r') == |lines[0]|
    ensures |lines[0]| + 2 <= |Join(lines)|
    ensures Lines((Join(lines) + "\r\n")[|lines[0]| + 2..]) == lines[1..]
  {
    var tail := Join(lines[1..]) + "\r\n";
    assert Join(lines) + "\r\n" == lines[0] + "\r\n" + tail;
    IndexOfEnd(lines[0], tail);
    LinesOfJoin(lines[1..], "");
    assert tail + "" == tail;
    assert (Join(lines) + "\r\n")[|lines[0]| + 2..] == tail;
  }

  // ----- the length that the head announces -----

  predicate NamesLength(line: string) { StartsWithCi(CString(line), CONTENT_LENGTH) }

  lemma LengthOfHead(status: nat, reason: string, contentType: string, length: nat)
    requires length <= ULONG_MAX
    ensures NoteAll(Fields(None, ""), HeadLines(status, reason, contentType, length)[1..]).length == Some(length)
  {
    var first := "Content-Type: " + contentType;
    FixedLines();
    LengthAmong("HTTP/1.1 " + Print(status) + " " + reason, first, length, ORIGIN, METHODS, HEADERS, CLOSE);
  }

  lemma LengthAmong(zeroth: string, first: string, length: nat, d: string, e: string, f: string, g: string)
    requires length <= ULONG_MAX && !NamesLength(d) && !NamesLength(e) && !NamesLength(f) && !NamesLength(g)
    ensures NoteAll(Fields(None, ""), [zeroth, first, LengthLine(length), d, e, f, g][1..]).length == Some(length)
  {
    LengthThen(first, length, [d, e, f, g]);
    assert [zeroth, first, LengthLine(length), d, e, f, g][1..] == [first, LengthLine(length)] + [d, e, f, g];
  }

  lemma LengthThen(first: string, length: nat, after: seq<string>)
    requires length <= ULONG_MAX && forall i :: 0 <= i < |after| ==> !NamesLength(after[i])
    ensures NoteAll(Fields(None, ""), [first, LengthLine(length)] + after).length == Some(length)
  {
    hide Note, NoteAll, LengthLine, NamesLength;
    var line := LengthLine(length);
    var f := Note(Fields(None, ""), first);
    NotesLength(f, length);
    LengthKept(Note(f, line), after);
    Unfold(Fields(None, ""), first, [line] + after);
    Unfold(f, line, after);
    assert [first, line] + after == [first] + ([line] + after);
  }

  lemma Unfold(f: Fields, line: string, lines: seq<string>)
    ensures NoteAll(f, [line] + lines) == NoteAll(Note(f, line), lines)
  {
    assert ([line] + lines)[1..] == lines;
  }

  lemma {:induction false} LengthKept(f: Fields, lines: seq<string>)
    requires forall i :: 0 <= i < |lines| ==> !NamesLength(lines[i])
    ensures NoteAll(f, lines).length == f.length
    decreases |lines|
  {
    if lines != [] {
      LengthKept(Note(f, lines[0]), lines[1..]);
    }
  }

  /** The name differs from that of the length field at index i. */
  lemma OtherName(line: string, i: nat)
    requires i < |line| && i < |CONTENT_LENGTH| && Clean(line)
    requires Lower(line[i]) != CONTENT_LENGTH[i]
    ensures !NamesLength(line)
  {
    NoNul(line);
    StartsWithCiIs(line, CONTENT_LENGTH);
    assert Lower(CONTENT_LENGTH[i]) == CONTENT_LENGTH[i];
  }

  /** A field value that the server reads as the number n. */
  predicate Reads(value: string, n: nat) {
    && Clean(value) && value != "" && value[0] != ' ' && value[0] != '\t'
    && Strtoul(value).0 == n && Strtoul(value).1 != 0
  }

  lemma ReadsPrinted(n: nat)
    requires n <= ULONG_MAX
    ensures Reads(Print(n), n)
  {
    NoCr(Print(n));
    ParsePrinted(n);
    assert IsDigit(Print(n)[0]);
  }

  /** A minus sign in front is read modulo 2^64. */
  lemma ReadsNegative(n: nat)
    requires 1 <= n <= ULONG_MAX
    ensures Reads("-" + Print(ULONG_MAX + 1 - n), n)
  {
    var s := Print(ULONG_MAX + 1 - n);
    var t := "-" + s;
    NoCr(s);
    assert t[1..] == s && s[..|s|] == s;
    DigitsOfAll(s);
  }

  lemma NotesLength(f: Fields, length: nat)
    requires length <= ULONG_MAX
    ensures Note(f, LengthLine(length)).length == Some(length)
  {
    ReadsPrinted(length);
    NotesField(f, Print(length), length);
  }

  lemma NotesField(f: Fields, value: string, n: nat)
    requires Reads(value, n)
    ensures Note(f, LengthField(value)).length == Some(n)
  {
    LengthName();
    NotesNumber(f, LENGTH_NAME, value, n);
  }

  lemma LengthName()
    ensures StartsWithCi(LENGTH_NAME, CONTENT_LENGTH) && Clean(LENGTH_NAME)
    ensures |LENGTH_NAME| == |CONTENT_LENGTH|
  {
    NamePieces();
    CleanPieces();
    SameStart("Content-", "Length:", "content-", "length:");
    CleanSum("Content-", "Length:");
  }

  lemma NamePieces()
    ensures StartsWithCi("Content-", "content-") && StartsWithCi("Length:", "length:")
  {
    StartsWithCiIs("Content-", "content-");
    StartsWithCiIs("Length:", "length:");
  }

  lemma CleanPieces()
    ensures Clean("Content-") && Clean("Length:")
  {
  }

  lemma {:induction false} SameStart(a: string, b: string, c: string, d: string)
    requires StartsWithCi(a, c) && StartsWithCi(b, d) && |a| == |c|
    ensures StartsWithCi(a + b, c + d)
  {
    if c == "" {
      assert a + b == b && c + d == d;
    } else {
      SameStart(a[1..], b, c[1..], d);
      assert (a + b)[1..] == a[1..] + b && (c + d)[1..] == c[1..] + d;
    }
  }

  lemma NotesNumber(f: Fields, name: string, value: string, n: nat)
    requires |name| == |CONTENT_LENGTH| && StartsWithCi(name, CONTENT_LENGTH) && Clean(name)
    requires Reads(value, n)
    ensures Note(f, name + (" " + value)).length == Some(n)
  {
    var field := " " + value;
    CleanSum(" ", value);
    CleanSum(name, field);
    NoNul(name + field);
    StartsWithCiSum(name, field, CONTENT_LENGTH);
    TrimOne(value);
    assert (name + field)[|name|..] == field;
  }

  lemma StartsWithCiSum(s: string, t: string, needle: string)
    requires StartsWithCi(s, needle)
    ensures StartsWithCi(s + t, needle)
  {
    StartsWithCiIs(s, needle);
    StartsWithCiIs(s + t, needle);
  }

  lemma TrimOne(value: string)
    requires value != "" && value[0] != ' ' && value[0] != '\t'
    ensures Trimmed(" " + value) == value
  {
    assert (" " + value)[1..] == value;
  }

  lemma NoNul(s: string)
    requires '\0' !in s
    ensures CString(s) == s
  {
    CStringOf(s);
  }
}
