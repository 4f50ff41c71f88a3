/** One HTTP request, from the bytes of the connection to what the server does
    about it (src/mcp_http.c:243-259, 652-735). */
module Requests {
  import opened Json
  import opened CStrings
  import opened Connections
  import opened Headers
  import opened Decimal

  const MAX_HEADER := 8192
  const MAX_ACCEPT := 256
  const CONTENT_LENGTH := "content-" + "length:"
  const ACCEPT := "accept:"

  // ----- what a header line says -----

  function Lower(ch: char): char { if 'A' <= ch <= 'Z' then (ch as int + 32) as char else ch }

  predicate StartsWithCi(hay: string, needle: string) {
    needle == "" || (hay != "" && Lower(hay[0]) == Lower(needle[0]) && StartsWithCi(hay[1..], needle[1..]))
  }

  lemma {:induction false} StartsWithCiIs(hay: string, needle: string)
    ensures StartsWithCi(hay, needle)
      <==> |needle| <= |hay| && forall i :: 0 <= i < |needle| ==> Lower(hay[i]) == Lower(needle[i])
  {
    if needle != "" && hay != "" {
      StartsWithCiIs(hay[1..], needle[1..]);
      if StartsWithCi(hay, needle) {
        forall i | 0 <= i < |needle| ensures Lower(hay[i]) == Lower(needle[i]) {
          if i > 0 { assert hay[i] == hay[1..][i - 1] && needle[i] == needle[1..][i - 1]; }
        }
      }
    }
  }

  function Trimmed(s: string): string {
    if s != "" && (s[0] == ' ' || s[0] == '\t') then Trimmed(s[1..]) else s
  }

  datatype Fields = Fields(length: Option<nat>, accept: string)

  /** The line ends early at a NUL of its own. A Content-Length with no number
      leaves the one before it in force. */
  function Note(f: Fields, line: string): Fields {
    var text := CString(line);
    StartsWithCiIs(text, CONTENT_LENGTH);
    StartsWithCiIs(text, ACCEPT);
    if StartsWithCi(text, CONTENT_LENGTH) then
      var (n, end) := Strtoul(Trimmed(text[|CONTENT_LENGTH|..]));
      if end != 0 then f.(length := Some(n)) else f
    else if StartsWithCi(text, ACCEPT) then
      var v := Trimmed(text[|ACCEPT|..]);
      f.(accept := if |v| >= MAX_ACCEPT then v[..MAX_ACCEPT - 1] else v)
    else f
  }

  function NoteAll(f: Fields, lines: seq<string>): Fields
    decreases |lines|
  {
    if lines == [] then f else NoteAll(Note(f, lines[0]), lines[1..])
  }

  /** ci_startswith on the C string at buf + at. */
  method CiStartsWith(buf: array<char>, at: nat, end: nat, needle: string) returns (b: bool)
    requires at <= end < buf.Length && buf[end] == '\0' && '\0' !in needle
    ensures b == StartsWithCi(CString(buf[at..]), needle)
  {
    ghost var text := CString(buf[at..]);
    var i := 0;
    while i < |needle|
      invariant 0 <= i <= |needle| && i <= |text|
      invariant forall j :: 0 <= j < i ==> Lower(text[j]) == Lower(needle[j])
    {
      CharOfCString(buf[at..], i);
      CStringUpTo(buf[at..], end - at);
      var a, b := Lower(buf[at + i]), Lower(needle[i]);
      assert needle[i] in needle;
      if a != b {
        StartsWithCiIs(text, needle);
        return false;
      }
      i := i + 1;
    }
    StartsWithCiIs(text, needle);
    return true;
  }

  lemma CharOfCString(buf: seq<char>, i: nat)
    requires i <= |CString(buf)|
    ensures i <= |buf| && (i < |buf| ==> (buf[i] == '\0' <==> i == |CString(buf)|))
    ensures i < |CString(buf)| ==> i < |buf| && buf[i] == CString(buf)[i]
  {
    CStringOf(buf);
    if i < |CString(buf)| { NotBeforeIndexOf(buf, '\0', i); }
  }

  method SkipBlanks(buf: array<char>, at: nat, end: nat) returns (v: nat)
    requires at <= end < buf.Length && buf[end] == '\0'
    ensures at <= v <= end && CString(buf[v..]) == Trimmed(CString(buf[at..]))
  {
    v := at;
    while buf[v] == ' ' || buf[v] == '\t'
      invariant at <= v <= end && Trimmed(CString(buf[v..])) == Trimmed(CString(buf[at..]))
      decreases end - v
    {
      assert buf[v..][1..] == buf[v + 1..];
      assert CString(buf[v..]) == [buf[v]] + CString(buf[v + 1..]);
      v := v + 1;
    }
  }

  /** The body of the header loop: buf[at..end] is a line, with a NUL after it. */
  method NoteLine(buf: array<char>, at: nat, end: nat, fields: Fields) returns (f: Fields)
    requires at <= end < buf.Length && buf[end] == '\0'
    ensures f == Note(fields, buf[at..end])
  {
    f := fields;
    ghost var text := CString(buf[at..]);
    CStringUpTo(buf[at..], end - at);
    assert buf[at..][..end - at] == buf[at..end];
    var isLength := CiStartsWith(buf, at, end, CONTENT_LENGTH);
    if isLength {
      StartsWithCiIs(text, CONTENT_LENGTH);
      CStringDrop(buf[at..], |CONTENT_LENGTH|);
      assert buf[at..][|CONTENT_LENGTH|..] == buf[at + |CONTENT_LENGTH|..];
      var v := SkipBlanks(buf, at + |CONTENT_LENGTH|, end);
      var (n, parsed) := Strtoul(CString(buf[v..]));
      if parsed != 0 {
        f := f.(length := Some(n));
      }
    } else {
      var isAccept := CiStartsWith(buf, at, end, ACCEPT);
      if isAccept {
        StartsWithCiIs(text, ACCEPT);
        CStringDrop(buf[at..], |ACCEPT|);
        assert buf[at..][|ACCEPT|..] == buf[at + |ACCEPT|..];
        var v := SkipBlanks(buf, at + |ACCEPT|, end);
        var text := CString(buf[v..]);
        var vlen := |text|;
        if vlen >= MAX_ACCEPT {
          vlen := MAX_ACCEPT - 1;
        }
        f := f.(accept := text[..vlen]);
      }
    }
  }

  // ----- the request line and the head -----

  datatype Request = Request(verb: string, path: string, fields: Fields)

  /** METHOD SP PATH SP, with room for 15 and 1023 bytes. */
  function RequestLine(line: string): Option<(string, string)> {
    var text := CString(line);
    var sp1 := IndexOf(text, ' ');
    if sp1 == |text| || sp1 == 0 || sp1 >= 16 then None
    else
      var rest := text[sp1 + 1..];
      var sp2 := IndexOf(rest, ' ');
      if sp2 == |rest| || sp2 == 0 || sp2 >= 1024 then None
      else Some((text[..sp1], rest[..sp2]))
  }

  /** The request a complete head stands for. */
  function Parse(head: string): Option<Request> {
    var e := IndexOf(head, '\r');
    if !(e + 1 < |head| && head[e + 1] == '\n') then None
    else match RequestLine(head[..e])
      case None => None
      case Some((verb, path)) => Some(Request(verb, path, NoteAll(Fields(None, ""), Lines(head[e + 2..]))))
  }

  /** The head parsed in place, with a NUL written over the CR of every line. It
      stays inside the head, the bytes behind the head keep their values, and
      `stop`, where the line loop ends, is the blank line that ends the head
      unless the head has a CR that no LF follows. */
  method ParseHead(buf: array<char>, got: nat, hdrEnd: nat, ghost head: string)
    returns (r: Option<Request>, ghost stop: nat)
    requires hdrEnd <= got <= buf.Length && buf[..hdrEnd] == head && HeadEnd(head) == Some(hdrEnd)
    modifies buf
    ensures r == Parse(head)
    ensures forall k :: hdrEnd <= k < buf.Length ==> buf[k] == old(buf[k])
    ensures r.Some? ==> stop <= hdrEnd && (stop == hdrEnd - 2 <==> !LoneCr(head))
  {
    stop := 0;
    assert buf[..got][..hdrEnd] == head;
    FirstCr(buf[..got], hdrEnd);
    var lineCr := IndexOf(buf[..got], '\r');
    assert buf[lineCr + 1] == head[lineCr + 1];
    if lineCr == got || lineCr + 1 >= got || buf[lineCr + 1] != '\n' {
      return None, stop;
    }
    r, stop := ParseLines(buf, lineCr, hdrEnd, head);
  }

  /** The same once the request line is known to end in CR LF. */
  method ParseLines(buf: array<char>, lineCr: nat, hdrEnd: nat, ghost head: string)
    returns (r: Option<Request>, ghost stop: nat)
    requires hdrEnd <= buf.Length && buf[..hdrEnd] == head && HeadEnd(head) == Some(hdrEnd)
    requires lineCr == IndexOf(head, '\r') && lineCr + 1 < hdrEnd && head[lineCr + 1] == '\n'
    modifies buf
    ensures r == Parse(head)
    ensures forall k :: hdrEnd <= k < buf.Length ==> buf[k] == old(buf[k])
    ensures r.Some? ==> stop <= hdrEnd && (stop == hdrEnd - 2 <==> !LoneCr(head))
  {
    ghost var line, rest := head[..lineCr], head[lineCr + 2..];
    StopsTwoBefore(head, rest);
    assert buf[..lineCr] == line;
    var target := CutRequestLine(buf, lineCr, line);
    if target == None {
      return None, 0;
    }
    assert buf[lineCr + 2..hdrEnd] == rest;
    var fields: Fields;
    fields, stop := ParseFields(buf, lineCr + 2, hdrEnd, rest);
    return Some(Request(target.value.0, target.value.1, fields)), stop;
  }

  method CutRequestLine(buf: array<char>, lineCr: nat, ghost line: string) returns (r: Option<(string, string)>)
    requires lineCr < buf.Length && buf[..lineCr] == line
    modifies buf
    ensures r == RequestLine(line)
    ensures forall k :: 0 <= k < buf.Length && k != lineCr ==> buf[k] == old(buf[k])
  {
    buf[lineCr] := '\0';
    CStringUpTo(buf[..], lineCr);
    assert buf[..][..lineCr] == line;
    var hdr := CString(buf[..]);
    var sp1 := IndexOf(hdr, ' ');
    if sp1 == |hdr| || sp1 == 0 || sp1 >= 16 {
      return None;
    }
    var sp2 := IndexOf(hdr[sp1 + 1..], ' ');
    if sp2 == |hdr[sp1 + 1..]| || sp2 == 0 || sp2 >= 1024 {
      return None;
    }
    return Some((hdr[..sp1], hdr[sp1 + 1..][..sp2]));
  }

  lemma FirstCr(s: string, n: nat)
    requires 4 <= n <= |s| && HeadEnd(s[..n]) == Some(n)
    ensures IndexOf(s, '\r') == IndexOf(s[..n], '\r') <= n - 4
  {
    hide HeadEnd, HeadEndFrom, IndexOf;
    assert s[n - 4] == s[..n][n - 4] == '\r';
    IndexOfAtMost(s, '\r', n - 4);
    IndexOfPrefix(s, '\r', n);
  }

  lemma {:induction false} IndexOfPrefix(s: string, ch: char, n: nat)
    requires n <= |s| && IndexOf(s, ch) < n
    ensures IndexOf(s[..n], ch) == IndexOf(s, ch)
  {
    if s[0] != ch {
      IndexOfPrefix(s[1..], ch, n - 1);
      assert s[..n][1..] == s[1..][..n - 1];
    }
  }

  /** The header line loop. */
  method ParseFields(buf: array<char>, from: nat, hdrEnd: nat, ghost h: string)
    returns (fields: Fields, ghost stop: nat)
    requires from <= hdrEnd <= buf.Length && buf[from..hdrEnd] == h
    modifies buf
    ensures stop == hdrEnd - |Rest(h)|
    ensures fields == NoteAll(Fields(None, ""), Lines(h))
    ensures forall k :: hdrEnd <= k < buf.Length ==> buf[k] == old(buf[k])
  {
    fields := Fields(None, "");
    var p := from;
    ghost var rest, result := h, NoteAll(fields, Lines(h));
    while p < hdrEnd
      invariant from <= p <= hdrEnd && buf[p..hdrEnd] == rest
      invariant NoteAll(fields, Lines(rest)) == result && Rest(rest) == Rest(h)
      invariant forall k :: hdrEnd <= k < buf.Length ==> buf[k] == old(buf[k])
    {
      var line, e := FindLine(buf, p, hdrEnd, rest);
      if !line {
        break;
      }
      OneLine(fields, rest);
      fields, p, rest := CutLine(buf, p, p + e, hdrEnd, fields, rest);
    }
    stop := p;
  }

  /** memchr for the CR, and the three tests on what it finds. */
  method FindLine(buf: array<char>, p: nat, end: nat, ghost rest: string) returns (line: bool, e: nat)
    requires p <= end <= buf.Length && buf[p..end] == rest
    ensures line == LineHere(rest) && e == IndexOf(rest, '\r')
  {
    e := IndexOf(buf[p..end], '\r');
    assert e + 1 < |rest| ==> buf[p + e + 1] == rest[e + 1];
    if p + e == end || p + e + 1 >= end || buf[p + e + 1] != '\n' {
      return false, e;
    }
    if e == 0 {
      return false, e;
    }
    return true, e;
  }

  lemma OneLine(f: Fields, h: string)
    requires LineHere(h)
    ensures var e := IndexOf(h, '\r');
      && NoteAll(f, Lines(h)) == NoteAll(Note(f, h[..e]), Lines(h[e + 2..]))
      && Rest(h) == Rest(h[e + 2..])
  {
    var e := IndexOf(h, '\r');
    assert Lines(h)[1..] == Lines(h[e + 2..]);
  }

  /** Ends the line with a NUL and reads it. */
  method CutLine(buf: array<char>, p: nat, eol: nat, end: nat, fields: Fields, ghost rest: string)
    returns (f: Fields, next: nat, ghost rest': string)
    requires p <= eol && eol + 2 <= end <= buf.Length && buf[p..end] == rest
    modifies buf
    ensures f == Note(fields, rest[..eol - p])
    ensures next == eol + 2 && rest' == rest[eol - p + 2..] == buf[next..end]
    ensures forall k :: end <= k < buf.Length ==> buf[k] == old(buf[k])
  {
    buf[eol] := '\0';
    assert buf[p..eol] == rest[..eol - p];
    f := NoteLine(buf, p, eol, fields);
    next := eol + 2;
    rest' := buf[next..end];
  }
}
