/** A TCP connection as recv and send show it, and the loops that make whole
    reads and writes of it (src/mcp_http.c:176-209). The environment decides how
    every call ends: how many bytes it takes, whether it is interrupted, whether
    the peer is gone. */
module Connections {

  datatype Outcome = Take(n: nat) | Interrupt | Hangup | Fault

  class Connection {
    var incoming: string         // what the peer will have sent and recv has not returned
    var outgoing: string         // what send has accepted
    var script: seq<Outcome>     // how the next calls end; when it is used up, with an error
    ghost var broken: bool       // a call has reported the end of the stream or an error

    constructor (incoming: string, script: seq<Outcome>)
      ensures this.incoming == incoming && this.script == script && outgoing == "" && !broken
    {
      this.incoming, this.outgoing, this.script, this.broken := incoming, "", script, false;
    }

    /** recv(fd, buf + at, room, 0); `again` stands for errno == EINTR. */
    method Recv(buf: array<char>, at: nat, room: nat) returns (r: int, again: bool)
      requires room > 0 && at + room <= buf.Length
      modifies this`incoming, this`script, this`broken, buf
      ensures -1 <= r <= room && r <= |old(incoming)| && (again ==> r == -1)
      ensures r > 0 ==> incoming == old(incoming)[r..] && buf[at..at + r] == old(incoming)[..r]
      ensures r <= 0 ==> incoming == old(incoming)
      ensures broken == (old(broken) || r == 0 || (r == -1 && !again))
      ensures forall k :: 0 <= k < buf.Length && !(at <= k < at + r) ==> buf[k] == old(buf[k])
      ensures |script| < |old(script)| || (r == -1 && !again)
    {
      if script == [] {
        broken := true;
        return -1, false;
      }
      var outcome := script[0];
      script := script[1..];
      match outcome {
        case Interrupt => return -1, true;
        case Fault => broken := true; return -1, false;
        case Hangup => broken := true; return 0, false;
        case Take(n) =>
          if incoming == "" {
            broken := true;
            return 0, false;
          }
          var k := if n == 0 then 1 else n;
          k := if k <= room then k else room;
          k := if k <= |incoming| then k else |incoming|;
          forall i | 0 <= i < k { buf[at + i] := incoming[i]; }
          incoming := incoming[k..];
          return k, false;
      }
    }

    /** send(fd, data, n, MSG_NOSIGNAL). */
    method Send(data: string) returns (w: int, again: bool)
      requires data != ""
      modifies this`outgoing, this`script, this`broken
      ensures -1 <= w <= |data| && (again ==> w == -1)
      ensures outgoing == old(outgoing) + if w > 0 then data[..w] else ""
      ensures broken == (old(broken) || (w == -1 && !again))
      ensures |script| < |old(script)| || (w == -1 && !again)
    {
      if script == [] {
        broken := true;
        return -1, false;
      }
      var outcome := script[0];
      script := script[1..];
      match outcome {
        case Interrupt => return -1, true;
        case Fault => broken := true; return -1, false;
        case Hangup => broken := true; return -1, false;
        case Take(n) =>
          var k := if n <= |data| then n else |data|;
          outgoing := outgoing + data[..k];
          return k, false;
      }
    }
  }

  /** read_full: exactly the next n bytes, or an error. */
  method ReadFull(conn: Connection, buf: array<char>, at: nat, n: nat) returns (r: int)
    requires at + n <= buf.Length
    modifies conn`incoming, conn`script, conn`broken, buf
    ensures r == n || r == -1
    ensures r == n ==> n <= |old(conn.incoming)| && buf[at..at + n] == old(conn.incoming)[..n]
    ensures r == n ==> conn.incoming == old(conn.incoming)[n..] && conn.broken == old(conn.broken)
    ensures r == -1 ==> conn.broken
    ensures forall k :: 0 <= k < buf.Length && !(at <= k < at + n) ==> buf[k] == old(buf[k])
  {
    var got := 0;
    ghost var stream := conn.incoming;
    while got < n
      invariant 0 <= got <= n && got <= |stream|
      invariant conn.incoming == stream[got..] && conn.broken == old(conn.broken)
      invariant forall k :: 0 <= k < got ==> buf[at + k] == stream[k]
      invariant forall k :: 0 <= k < buf.Length && !(at <= k < at + n) ==> buf[k] == old(buf[k])
      decreases |conn.script|
    {
      var k, again := conn.Recv(buf, at + got, n - got);
      if k < 0 {
        if again { continue; }
        return -1;
      }
      if k == 0 {
        return -1;
      }
      ghost var piece := buf[at + got..at + got + k];
      assert forall i :: 0 <= i < k ==> piece[i] == stream[got + i];
      assert forall i :: at + got <= i < at + got + k ==> buf[i] == piece[i - at - got];
      got := got + k;
    }
    assert buf[at..at + n] == stream[..n];
    return got;
  }

  /** write_full: all of the data, or a part of it and an error. */
  method WriteFull(conn: Connection, data: string) returns (rc: int)
    modifies conn`outgoing, conn`script, conn`broken
    ensures rc == 0 || rc == -1
    ensures rc == 0 ==> conn.outgoing == old(conn.outgoing) + data && conn.broken == old(conn.broken)
    ensures rc == -1 ==> conn.broken
    ensures rc == -1 ==> exists k :: 0 <= k < |data| && conn.outgoing == old(conn.outgoing) + data[..k]
  {
    var sent := 0;
    while sent < |data|
      invariant 0 <= sent <= |data|
      invariant conn.outgoing == old(conn.outgoing) + data[..sent] && conn.broken == old(conn.broken)
      decreases |conn.script|
    {
      var w, again := conn.Send(data[sent..]);
      if w < 0 {
        if again { continue; }
        return -1;
      }
      assert data[..sent] + data[sent..][..w] == data[..sent + w];
      sent := sent + w;
    }
    return 0;
  }
}
