/** Where the head of an HTTP message ends, and the lines in it
    (src/mcp_http.c:211-241, 661-735). */
module Headers {
  import opened Json
  import opened CStrings
  import opened Connections

  /** CR LF CR LF at index i. */
  predicate BlankLineAt(s: string, i: nat) {
    i + 3 < |s| && s[i] == '\r' && s[i + 1] == '\n' && s[i + 2] == '\r' && s[i + 3] == '\n'
  }

  /** Just past the first blank line: a scan of the whole string, byte by byte. */
  function HeadEnd(s: string): (r: Option<nat>)
    ensures r == None ==> forall i: nat :: i < |s| ==> !BlankLineAt(s, i)
    ensures r.Some? ==> 4 <= r.value <= |s| && BlankLineAt(s, r.value - 4)
    ensures r.Some? ==> forall i: nat :: i < r.value - 4 ==> !BlankLineAt(s, i)
  {
    HeadEndFrom(s, 0)
  }

  function HeadEndFrom(s: string, from: nat): (r: Option<nat>)
    requires from <= |s|
    ensures r == None ==> forall i: nat :: from <= i < |s| ==> !BlankLineAt(s, i)
    ensures r.Some? ==> from + 4 <= r.value <= |s| && BlankLineAt(s, r.value - 4)
    ensures r.Some? ==> forall i: nat :: from <= i < r.value - 4 ==> !BlankLineAt(s, i)
    decreases |s| - from
  {
    if from == |s| then None
    else if BlankLineAt(s, from) then Some(from + 4)
    else HeadEndFrom(s, from + 1)
  }

  lemma HeadEndIs(s: string, n: nat)
    requires 4 <= n && BlankLineAt(s, n - 4)
    requires forall i: nat :: i < n - 4 ==> !BlankLineAt(s, i)
    ensures HeadEnd(s) == Some(n)
  {
    var r := HeadEnd(s);
    assert r.Some?;
    assert !(n < r.value) && !(r.value < n);
  }

  /** Where the head ends depends on its own bytes only, not on what follows. */
  lemma HeadEndIsLocal(s: string, n: nat)
    requires n <= |s|
    ensures HeadEnd(s[..n]) == if HeadEnd(s).Some? && HeadEnd(s).value <= n then HeadEnd(s) else None
  {
    assert forall i: nat :: i + 3 < n ==> BlankLineAt(s[..n], i) == BlankLineAt(s, i);
    match HeadEnd(s) {
      case Some(e) => if e <= n { HeadEndIs(s[..n], e); }
      case None =>
    }
  }

  /** The inner loop: with nothing found in the first `from` bytes, looking again
      only from three bytes before them finds what a scan of all n bytes finds. */
  method Resume(buf: array<char>, from: nat, n: nat) returns (found: bool, end: nat)
    requires from <= n <= buf.Length && HeadEnd(buf[..from]) == None
    ensures HeadEnd(buf[..n]) == if found then Some(end) else None
  {
    ghost var s := buf[..n];
    assert buf[..from] == s[..from];
    var start := if from >= 3 then from - 3 else 0;
    forall i: nat | i < start ensures !BlankLineAt(s, i) {
      assert !BlankLineAt(s[..from], i);
    }
    if n >= 4 {
      var i := start;
      while i + 3 < n
        invariant start <= i
        invariant forall j: nat :: j < i ==> !BlankLineAt(s, j)
      {
        assert s[i] == buf[i] && s[i + 1] == buf[i + 1] && s[i + 2] == buf[i + 2] && s[i + 3] == buf[i + 3];
        if buf[i] == '\r' && buf[i + 1] == '\n' && buf[i + 2] == '\r' && buf[i + 3] == '\n' {
          HeadEndIs(s, i + 4);
          return true, i + 4;
        }
        i := i + 1;
      }
    }
    return false, 0;
  }

  /** Reads until the head is complete, and finds what one scan over the whole
      stream finds. On failure the bytes taken so far hold no blank line, and
      either they fill the buffer or the connection has failed. */
  method ReadHeaders(conn: Connection, buf: array<char>) returns (got: int, hdrEnd: nat)
    modifies conn`incoming, conn`script, conn`broken, buf
    ensures -1 <= got <= buf.Length && got <= |old(conn.incoming)|
    ensures got >= 0 ==> HeadEnd(old(conn.incoming)) == Some(hdrEnd) && hdrEnd <= got
    ensures got >= 0 ==> buf[..got] == old(conn.incoming)[..got]
    ensures forall k :: 0 <= k < got ==> buf[k] == old(conn.incoming)[k]
    ensures got >= 0 ==> conn.incoming == old(conn.incoming)[got..] && conn.broken == old(conn.broken)
    ensures got < 0 ==>
      var taken := |old(conn.incoming)| - |conn.incoming|;
      && 0 <= taken <= buf.Length && conn.incoming == old(conn.incoming)[taken..]
      && HeadEnd(old(conn.incoming)[..taken]) == None
      && (conn.broken || (taken == buf.Length && conn.broken == old(conn.broken)))
  {
    hide HeadEnd, BlankLineAt;
    var n := 0;
    ghost var stream := conn.incoming;
    while n < buf.Length
      invariant 0 <= n <= buf.Length && n <= |stream|
      invariant conn.incoming == stream[n..] && conn.broken == old(conn.broken)
      invariant buf[..n] == stream[..n] && HeadEnd(stream[..n]) == None
      decreases |conn.script|
    {
      ghost var before := buf[..n];
      var r, again := conn.Recv(buf, n, buf.Length - n);
      if r < 0 {
        if again {
          assert buf[..n] == before;
          continue;
        }
        return -1, 0;
      }
      if r == 0 {
        return -1, 0;
      }
      var scanFrom := n;
      n := n + r;
      Joined(buf, scanFrom, n, stream);
      var found, end := Resume(buf, scanFrom, n);
      if found {
        HeadEndIsLocal(stream, n);
        assert forall k :: 0 <= k < n ==> buf[k] == buf[..n][k] == stream[k];
        return n, end;
      }
    }
    return -1, 0;
  }

  lemma Joined(buf: array<char>, from: nat, n: nat, stream: string)
    requires from <= n <= buf.Length && n <= |stream|
    requires buf[..from] == stream[..from] && buf[from..n] == stream[from..][..n - from]
    ensures buf[..n] == stream[..n]
  {
    assert buf[..n] == buf[..from] + buf[from..n];
    assert stream[..n] == stream[..from] + stream[from..][..n - from];
  }

  // ----- the lines -----

  /** Does the line loop go on at this point: is the next CR the end of a line
      that is not empty? */
  predicate LineHere(h: string) {
    var e := IndexOf(h, '\r');
    0 < e && e + 1 < |h| && h[e + 1] == '\n'
  }

  /** The lines the loop meets, and what is left of the head when it stops. */
  function Lines(h: string): (lines: seq<string>)
    ensures forall i :: 0 <= i < |lines| ==> lines[i] != "" && '\r' !in lines[i]
    decreases |h|
  {
    var e := IndexOf(h, '\r');
    if LineHere(h) then [h[..e]] + Lines(h[e + 2..]) else []
  }

  function Rest(h: string): string
    decreases |h|
  {
    if LineHere(h) then Rest(h[IndexOf(h, '\r') + 2..]) else h
  }

  function Join(lines: seq<string>): string {
    if lines == [] then "" else lines[0] + "\r\n" + Join(lines[1..])
  }

  /** Nothing is skipped and nothing is met twice. */
  lemma {:induction false} LinesCover(h: string)
    ensures h == Join(Lines(h)) + Rest(h)
    decreases |h|
  {
    if LineHere(h) {
      var e := IndexOf(h, '\r');
      LinesCover(h[e + 2..]);
      SplitAt(h, e);
      JoinCons(h[..e], Lines(h[e + 2..]), Rest(h));
    }
  }

  lemma SplitAt(h: string, e: nat)
    requires e + 1 < |h| && h[e] == '\r' && h[e + 1] == '\n'
    ensures h == h[..e] + "\r\n" + h[e + 2..]
  {
  }

  lemma JoinCons(line: string, lines: seq<string>, rest: string)
    ensures Join([line] + lines) + rest == line + "\r\n" + (Join(lines) + rest)
  {
    assert ([line] + lines)[1..] == lines;
  }

  /** Is there a CR that no LF follows? */
  predicate LoneCr(h: string) {
    h != "" && ((h[0] == '\r' && !(|h| > 1 && h[1] == '\n')) || LoneCr(h[1..]))
  }

  /** Run on a complete head whose request line is in order, the loop stops
      exactly at the blank line that ends the head, unless it meets a lone CR. */
  lemma StopsAtTheBlankLine(head: string, h: string)
    requires HeadEnd(head) == Some(|head|)
    requires var e := IndexOf(head, '\r'); e + 1 < |head| && head[e + 1] == '\n' && h == head[e + 2..]
    ensures Rest(h) == "\r\n" <==> !LoneCr(head)
    ensures |h| >= 2 && h[|h| - 2] == '\r' && h[|h| - 1] == '\n'
  {
    var e := IndexOf(head, '\r');
    IndexOfAtMost(head, '\r', |head| - 4);
    StopsFrom(head, e + 2, h);
    LoneCrLater(head, e + 2, h);
  }

  /** The same, by where it stops: two bytes before the end of the head. */
  lemma StopsTwoBefore(head: string, h: string)
    requires HeadEnd(head) == Some(|head|)
    requires var e := IndexOf(head, '\r'); e + 1 < |head| && head[e + 1] == '\n' && h == head[e + 2..]
    ensures |Rest(h)| <= |h| && (|Rest(h)| == 2 <==> !LoneCr(head))
  {
    StopsAtTheBlankLine(head, h);
    RestEnds(h);
  }

  lemma RestEnds(h: string)
    ensures |Rest(h)| <= |h| && h[|h| - |Rest(h)|..] == Rest(h)
    ensures |h| >= 2 && h[|h| - 2] == '\r' && h[|h| - 1] == '\n' && |Rest(h)| == 2 ==> Rest(h) == "\r\n"
  {
    hide Lines, Rest, Join, LineHere;
    LinesCover(h);
    var r := Rest(h);
    Suffix(Join(Lines(h)), r);
    assert |r| == 2 ==> r[0] == h[|h| - 2] && r[1] == h[|h| - 1];
  }

  lemma Suffix(s: string, t: string)
    ensures (s + t)[|s|..] == t
  {
  }

  lemma {:induction false} StopsFrom(s: string, at: nat, h: string)
    requires HeadEnd(s) == Some(|s|)
    requires 2 <= at <= |s| - 2 && s[at - 2] == '\r' && s[at - 1] == '\n' && h == s[at..]
    ensures Rest(h) == "\r\n" <==> !LoneCr(h)
    decreases |s| - at
  {
    if LineHere(h) {
      var e := IndexOf(h, '\r');
      var t := h[e + 2..];
      LineEndsEarly(s, at, h);
      StopsFrom(s, at + e + 2, t);
      LoneCrLater(h, e + 2, t);
    } else {
      EndsInCr(s, at, h);
      if !LoneCrFirst(h) { EmptyLineStops(s, at, h); }
    }
  }

  /** The first CR is there and is a lone one. */
  predicate LoneCrFirst(h: string) {
    var e := IndexOf(h, '\r');
    e < |h| && !(e + 1 < |h| && h[e + 1] == '\n')
  }

  lemma EndsInCr(s: string, at: nat, h: string)
    requires HeadEnd(s) == Some(|s|) && at <= |s| - 2 && h == s[at..]
    ensures IndexOf(h, '\r') < |h|
    ensures LoneCrFirst(h) ==> LoneCr(h) && h != "\r\n"
  {
    IndexOfAtMost(h, '\r', |h| - 2);
    if LoneCrFirst(h) { LoneCrHere(h); }
  }

  /** An empty line is the blank line that ends the head: that one is the first. */
  lemma EmptyLineStops(s: string, at: nat, h: string)
    requires HeadEnd(s) == Some(|s|)
    requires 2 <= at <= |s| - 2 && s[at - 2] == '\r' && s[at - 1] == '\n' && h == s[at..]
    requires IndexOf(h, '\r') == 0 && !LoneCrFirst(h)
    ensures h == "\r\n" && !LoneCr(h)
  {
    assert BlankLineAt(s, at - 2);
    var t := h[1..];
    assert t[0] == '\n' && t[1..] == "";
    assert !LoneCr(t);
  }

  /** The head ends CR LF CR LF, so a line that is not empty ends before the last CR. */
  lemma LineEndsEarly(s: string, at: nat, h: string)
    requires HeadEnd(s) == Some(|s|)
    requires 2 <= at <= |s| - 2 && s[at - 1] == '\n' && h == s[at..]
    requires LineHere(h)
    ensures at + IndexOf(h, '\r') + 2 <= |s| - 2
  {
    var c := |s| - 4;
    assert s[c] == '\r' && s[c + 1] == '\n' && s[c + 3] == '\n';
    if at <= c {
      assert h[c - at] == s[c];
      IndexOfAtMost(h, '\r', c - at);
    }
  }

  /** A lone CR of the whole is one of the part, when the text in front ends at a
      CR LF that is its only CR. */
  lemma {:induction false} LoneCrLater(h: string, n: nat, t: string)
    requires 2 <= n <= |h| && IndexOf(h, '\r') == n - 2 && h[n - 1] == '\n' && t == h[n..]
    ensures LoneCr(h) <==> LoneCr(t)
  {
    if n > 2 {
      LoneCrLater(h[1..], n - 1, t);
    } else {
      assert h[1..][1..] == t;
    }
  }

  lemma {:induction false} LoneCrHere(h: string)
    requires LoneCrFirst(h)
    ensures LoneCr(h)
  {
    if h[0] != '\r' {
      LoneCrHere(h[1..]);
    }
  }

  // ----- a head that was written line by line -----

  ghost predicate WellFormed(lines: seq<string>) {
    forall i :: 0 <= i < |lines| ==> lines[i] != "" && '\r' !in lines[i]
  }

  /** Lines with no CR LF inside: what ends each of them is its own CR LF. */
  ghost predicate Unbroken(lines: seq<string>) {
    forall i :: 0 <= i < |lines| ==> lines[i] != "" && NoCrlf(lines[i])
  }

  ghost predicate NoCrlf(line: string) {
    forall j :: 0 <= j < |line| - 1 && line[j] == '\r' ==> line[j + 1] != '\n'
  }

  lemma {:induction false} IndexOfEnd(line: string, rest: string)
    requires '\r' !in line
    ensures IndexOf(line + "\r\n" + rest, '\r') == |line|
  {
    var h := line + "\r\n" + rest;
    if line != "" {
      IndexOfEnd(line[1..], rest);
      assert h[1..] == line[1..] + "\r\n" + rest;
    }
  }

  lemma LineThen(line: string, tail: string)
    requires line != "" && '\r' !in line
    ensures Lines(line + "\r\n" + tail) == [line] + Lines(tail) && Rest(line + "\r\n" + tail) == Rest(tail)
  {
    var h := line + "\r\n" + tail;
    IndexOfEnd(line, tail);
    assert h[..|line|] == line && h[|line| + 2..] == tail;
  }

  lemma StopsHere(h: string)
    requires !LineHere(h)
    ensures Lines(h) == [] && Rest(h) == h
  {
  }

  /** Lines without a CR are met one by one, up to where the loop stops. */
  lemma {:induction false} LinesThenStop(lines: seq<string>, rest: string)
    requires WellFormed(lines) && !LineHere(rest)
    ensures Lines(Join(lines) + rest) == lines && Rest(Join(lines) + rest) == rest
  {
    hide LineHere, Lines, Rest;
    if lines == [] {
      StopsHere(rest);
      assert Join(lines) + rest == rest;
    } else {
      hide Join;
      LineThen(lines[0], Join(lines[1..]) + rest);
      LinesThenStop(lines[1..], rest);
      JoinCons(lines[0], lines[1..], rest);
      assert [lines[0]] + lines[1..] == lines;
    }
  }

  lemma LinesOfJoin(lines: seq<string>, rest: string)
    requires WellFormed(lines)
    ensures Lines(Join(lines) + "\r\n" + rest) == lines
    ensures Rest(Join(lines) + "\r\n" + rest) == "\r\n" + rest
  {
    var stop := "\r\n" + rest;
    assert stop[0] == '\r';
    LinesThenStop(lines, stop);
    assert Join(lines) + "\r\n" + rest == Join(lines) + stop;
  }

  lemma HeadEndOfJoin(lines: seq<string>, body: string)
    requires lines != [] && Unbroken(lines)
    ensures HeadEnd(Join(lines) + "\r\n" + body) == Some(|Join(lines)| + 2)
  {
    var s := Join(lines) + "\r\n" + body;
    forall i: nat | i < |Join(lines)| - 2 ensures !BlankLineAt(s, i) { NotBlankWithin(lines, body, i); }
    EndsInCrlf(lines);
    HeadEndIs(s, |Join(lines)| + 2);
  }

  lemma {:induction false} EndsInCrlf(lines: seq<string>)
    requires lines != []
    ensures |Join(lines)| >= 2 && Join(lines)[|Join(lines)| - 2..] == "\r\n"
  {
    if |lines| > 1 {
      EndsInCrlf(lines[1..]);
    } else {
      assert Join(lines) == lines[0] + "\r\n";
    }
  }

  lemma {:induction false} NotBlankWithin(lines: seq<string>, body: string, i: nat)
    requires lines != [] && Unbroken(lines) && i < |Join(lines)| - 2
    ensures !BlankLineAt(Join(lines) + "\r\n" + body, i)
  {
    var line := lines[0];
    var tail := Join(lines[1..]) + "\r\n" + body;
    var s := Join(lines) + "\r\n" + body;
    assert s == line + "\r\n" + tail;
    if i < |line| {
      assert s[i] == line[i];
    } else if i <= |line| + 1 {
      assert |lines| > 1 ==> tail[0] == lines[1][0];
    } else if i < |line| + 2 + |Join(lines[1..])| - 2 {
      NotBlankWithin(lines[1..], body, i - |line| - 2);
    }
  }
}
