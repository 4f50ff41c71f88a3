/** How a client reads the head of an HTTP message (sections 4 and 5 of RFC
    9112): the three parts of the status line, and fields by their names, which
    are compared without regard to case. It shares nothing with the code that
    writes heads but the cutting into lines. */
module HeadReader {
  import opened Json
  import opened CStrings
  import opened Headers
  import opened Requests
  import SessionId

  datatype Status = Status(version: string, code: string, reason: string)

  /** The status line is cut at its first two spaces. */
  function StatusOf(line: string): Option<Status> {
    var a := IndexOf(line, ' ');
    if a == |line| then None
    else
      var rest := line[a + 1..];
      var b := IndexOf(rest, ' ');
      if b == |rest| then None else Some(Status(line[..a], rest[..b], rest[b + 1..]))
  }

  function Lowered(s: string): string { seq(|s|, i requires 0 <= i < |s| => Lower(s[i])) }

  function NameOf(line: string): string { Lowered(line[..IndexOf(line, ':')]) }

  /** The value behind the colon, without the blanks in front of it. */
  function ValueOf(line: string): string {
    var c := IndexOf(line, ':');
    if c == |line| then "" else Trimmed(line[c + 1..])
  }

  /** The value of the first field with this name. */
  function FieldOf(lines: seq<string>, name: string): Option<string> {
    if lines == [] then None
    else if NameOf(lines[0]) == name then Some(ValueOf(lines[0]))
    else FieldOf(lines[1..], name)
  }

  function StatusIn(stream: string): Option<Status> { StatusOf(stream[..IndexOf(stream, '\r')]) }

  function FieldLines(stream: string): seq<string> {
    var e := IndexOf(stream, '\r');
    if e + 2 <= |stream| then Lines(stream[e + 2..]) else []
  }

  function FieldIn(stream: string, name: string): Option<string> { FieldOf(FieldLines(stream), name) }

  // ----- reading what was written -----

  lemma StatusRead(version: string, code: string, reason: string)
    requires ' ' !in version && ' ' !in code
    ensures StatusOf(version + " " + (code + " " + reason)) == Some(Status(version, code, reason))
  {
    var rest := code + " " + reason;
    var line := version + " " + rest;
    SessionId.IndexAfter(version, ' ', rest);
    SessionId.IndexAfter(code, ' ', reason);
    assert line[..|version|] == version && line[|version| + 1..] == rest;
    assert rest[..|code|] == code && rest[|code| + 1..] == reason;
  }

  /** A field line, by the name in lower case. */
  lemma FieldRead(line: string, name: string, value: string)
    requires ':' !in name && line == name + ":" + value
    ensures NameOf(line) == Lowered(name) && ValueOf(line) == Trimmed(value)
  {
    SessionId.IndexAfter(name, ':', value);
    assert line[..|name|] == name && line[|name| + 1..] == value;
  }

  lemma FieldFirst(line: string, lines: seq<string>, name: string)
    ensures FieldOf([line] + lines, name) == if NameOf(line) == name then Some(ValueOf(line)) else FieldOf(lines, name)
  {
    assert ([line] + lines)[1..] == lines;
  }

  lemma OneBlank(value: string)
    ensures Trimmed(" " + value) == Trimmed(value)
  {
    assert (" " + value)[1..] == value;
  }

  /** The parts of a message whose head was written line by line. */
  lemma PartsOfJoin(lines: seq<string>, body: string)
    requires lines != [] && WellFormed(lines)
    ensures var stream := Join(lines) + "\r\n" + body;
      StatusIn(stream) == StatusOf(lines[0]) && FieldLines(stream) == lines[1..]
  {
    hide Lines, StatusOf;
    var tail := Join(lines[1..]) + "\r\n" + body;
    var stream := Join(lines) + "\r\n" + body;
    assert stream == lines[0] + "\r\n" + tail;
    IndexOfEnd(lines[0], tail);
    LinesOfJoin(lines[1..], body);
    assert stream[..|lines[0]|] == lines[0] && stream[|lines[0]| + 2..] == tail;
  }
}
