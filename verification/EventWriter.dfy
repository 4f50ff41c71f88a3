/** The writes that put one frame of an event stream on a connection
    (src/mcp_http.c:369-389, 501-503). Every caller names its event. */
module EventWriter {
  import opened Connections
  import Sse

  /** All of the text arrived, or the call failed and a proper prefix of it did. */
  ghost predicate Written(before: string, after: string, text: string, rc: int) {
    if rc == 0 then after == before + text
    else exists k :: 0 <= k < |text| && after == before + text[..k]
  }

  lemma ThenWritten(a: string, b: string, c: string, s: string, t: string, rc: int)
    requires Written(a, b, s, 0) && Written(b, c, t, rc)
    ensures Written(a, c, s + t, rc)
  {
    if rc == 0 {
      assert a + s + t == a + (s + t);
    } else {
      var k :| 0 <= k < |t| && c == b + t[..k];
      assert a + s + t[..k] == a + (s + t)[..|s| + k];
    }
  }

  lemma CutShort(a: string, b: string, s: string, t: string)
    requires Written(a, b, s, -1)
    ensures Written(a, b, s + t, -1)
  {
    var k :| 0 <= k < |s| && b == a + s[..k];
    assert s[..k] == (s + t)[..k];
  }

  /** One of the writes, when `done` is on the wire and `rest` is yet to come. */
  method Write(conn: Connection, ghost before: string, ghost done: string, text: string, ghost rest: string)
    returns (rc: int)
    requires Written(before, conn.outgoing, done, 0)
    modifies conn`outgoing, conn`script, conn`broken
    ensures rc == 0 || rc == -1
    ensures rc == 0 ==> Written(before, conn.outgoing, done + text, 0)
    ensures rc == -1 ==> Written(before, conn.outgoing, done + text + rest, -1)
    ensures conn.broken == (old(conn.broken) || rc == -1)
  {
    ghost var here := conn.outgoing;
    rc := WriteFull(conn, text);
    ThenWritten(before, here, conn.outgoing, done, text, rc);
    if rc == -1 { CutShort(before, conn.outgoing, done + text, rest); }
  }

  /** sse_write_event_locked: six writes, and after a failure no more of them. */
  method WriteEvent(conn: Connection, name: string, data: string) returns (rc: int)
    modifies conn`outgoing, conn`script, conn`broken
    ensures rc == 0 || rc == -1
    ensures Written(old(conn.outgoing), conn.outgoing, Sse.Encode(Sse.Event(name, data)), rc)
    ensures conn.broken == (old(conn.broken) || rc == -1)
  {
    ghost var before := conn.outgoing;
    SixPieces(name, data);
    rc := Write(conn, before, "", "event: ", name + "\n" + "data: " + data + "\n\n");
    if rc < 0 { return; }
    rc := Write(conn, before, "event: ", name, "\n" + "data: " + data + "\n\n");
    if rc < 0 { return; }
    rc := Write(conn, before, "event: " + name, "\n", "data: " + data + "\n\n");
    if rc < 0 { return; }
    rc := Write(conn, before, "event: " + name + "\n", "data: ", data + "\n\n");
    if rc < 0 { return; }
    rc := Write(conn, before, "event: " + name + "\n" + "data: ", data, "\n\n");
    if rc < 0 { return; }
    rc := Write(conn, before, "event: " + name + "\n" + "data: " + data, "\n\n", "");
  }

  lemma SixPieces(name: string, data: string)
    ensures var all := Sse.Encode(Sse.Event(name, data));
      && all == "" + "event: " + (name + "\n" + "data: " + data + "\n\n")
      && all == "event: " + name + ("\n" + "data: " + data + "\n\n")
      && all == "event: " + name + "\n" + ("data: " + data + "\n\n")
      && all == "event: " + name + "\n" + "data: " + (data + "\n\n")
      && all == "event: " + name + "\n" + "data: " + data + "\n\n"
      && all == all + ""
  {
    Sse.EncodeEvent(name, data);
    Regroup("event: ", name, "\n", "data: ", data, "\n\n");
    Regroup("event: ", name, "\n", "data: ", data, "\n" + ("" + "\n"));
    assert "\n\n" == "\n" + ("" + "\n");
  }

  lemma Regroup(a: string, b: string, c: string, d: string, e: string, f: string)
    ensures var all := a + b + c + d + e + f;
      && all == "" + a + (b + c + d + e + f) && all == a + b + (c + d + e + f)
      && all == a + b + c + (d + e + f) && all == a + b + c + d + (e + f) && all == all + ""
      && all == (a + b) + c + ((d + e) + f)
  {
  }

  method WriteKeepalive(conn: Connection) returns (rc: int)
    modifies conn`outgoing, conn`script, conn`broken
    ensures rc == 0 || rc == -1
    ensures Written(old(conn.outgoing), conn.outgoing, Sse.Encode(Sse.Keepalive), rc)
    ensures conn.broken == (old(conn.broken) || rc == -1)
  {
    Sse.EncodeKeepalive();
    rc := WriteFull(conn, ": keepalive\n\n");
  }
}
