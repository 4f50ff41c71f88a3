/** What one connection makes the server do (src/mcp_http.c:652-861), and that it
    depends on the bytes sent, not on how recv cut them up. */
module Reception {
  import opened Json
  import opened CStrings
  import opened Connections
  import opened Headers
  import opened Decimal
  import opened Requests

  /** What happens once the request is read: the connection is dropped without an
      answer, a canned answer goes out, an event stream opens, or a message is
      handed to one of the two POST handlers. */
  datatype Reaction =
    | Dropped
    | Answer(status: nat)
    | KeepaliveStream
    | LegacyStream
    | Deliver(legacy: bool, path: string, accept: string, body: string)

  datatype Plan = React(now: Reaction) | NeedBody(legacy: bool, length: nat)

  /** contains_ci; an Accept value always fits its buffer. */
  predicate Contains(s: string, t: string) {
    StartsWithCi(s, t) || (s != "" && Contains(s[1..], t))
  }

  function Route(req: Request): Plan {
    var route := req.path[..IndexOf(req.path, '?')];
    if req.verb == "OPTIONS" then React(Answer(204))
    else if req.verb == "GET" && route == "/" then React(Answer(200))
    else if route == "/mcp" then
      if req.verb == "GET" then
        if Contains(req.fields.accept, "text/event-stream") then React(KeepaliveStream) else React(Answer(405))
      else if req.verb != "POST" then React(Answer(405))
      else Sized(false, req.fields.length)
    else if route == "/sse" then
      if req.verb != "GET" then React(Answer(405)) else React(LegacyStream)
    else if route == "/message" then
      if req.verb != "POST" then React(Answer(405)) else Sized(true, req.fields.length)
    else React(Answer(404))
  }

  /** A body needs a length, and a length in range. */
  function Sized(legacy: bool, length: Option<nat>): Plan {
    match length
    case Some(n) => if n == 0 || n > MAX_BODY then React(Answer(400)) else NeedBody(legacy, n)
    case None => React(Answer(400))
  }

  /** The reaction to a stream of bytes, with no buffers and no recv. `memory`
      says whether the allocation of the body succeeds. */
  function ReactionTo(stream: string, memory: bool): Reaction {
    match HeadEnd(stream)
    case None => Dropped
    case Some(e) =>
      if e > MAX_HEADER then Dropped
      else match Parse(stream[..e])
        case None => Dropped
        case Some(req) => ReactionToRequest(req, stream[e..], memory)
  }

  function ReactionToRequest(req: Request, rest: string, memory: bool): Reaction {
    match Route(req)
    case React(now) => now
    case NeedBody(legacy, n) =>
      if !memory then Answer(500)
      else if n > |rest| then Dropped
      else Deliver(legacy, req.path, req.fields.accept, rest[..n])
  }

  /** However recv splits the bytes, a connection that does not fail is answered
      by what its bytes say; one that fails first is dropped, and nothing is
      delivered. */
  method HandleConnection(conn: Connection, memory: bool) returns (r: Reaction)
    requires !conn.broken
    modifies conn`incoming, conn`script, conn`broken
    ensures r == if conn.broken then Dropped else ReactionTo(old(conn.incoming), memory)
  {
    hide Parse, ReactionToRequest;
    ghost var stream := conn.incoming;
    var hdr := new char[MAX_HEADER];
    var got, hdrEnd := ReadHeaders(conn, hdr);
    if got < 0 {
      NoHead(stream, |stream| - |conn.incoming|);
      return Dropped;
    }
    ghost var head := stream[..hdrEnd];
    HeadEndIsLocal(stream, hdrEnd);
    assert hdr[..got][..hdrEnd] == head;
    var req, _ := ParseHead(hdr, got, hdrEnd, head);
    if req == None {
      return Dropped;
    }
    r := HandleRequest(conn, req.value, hdr, got, hdrEnd, memory, stream[hdrEnd..]);
  }

  /** The routing, and the body for those routes that take one. */
  method HandleRequest(conn: Connection, req: Request, hdr: array<char>, got: nat, hdrEnd: nat, memory: bool,
                       ghost rest: string) returns (r: Reaction)
    requires hdrEnd <= got <= hdr.Length && got - hdrEnd <= |rest|
    requires forall k :: hdrEnd <= k < got ==> hdr[k] == rest[k - hdrEnd]
    requires conn.incoming == rest[got - hdrEnd..] && !conn.broken
    modifies conn`incoming, conn`script, conn`broken
    ensures r == if conn.broken then Dropped else ReactionToRequest(req, rest, memory)
  {
    match Route(req) {
      case React(now) => return now;
      case NeedBody(legacy, n) =>
        if !memory {
          return Answer(500);
        }
        var arrived, body := ReadBody(conn, hdr, got, hdrEnd, n, rest);
        if !arrived {
          return Dropped;
        }
        return Deliver(legacy, req.path, req.fields.accept, body);
    }
  }

  lemma NoHead(stream: string, taken: nat)
    requires taken <= |stream| && HeadEnd(stream[..taken]) == None
    ensures taken == MAX_HEADER ==> ReactionTo(stream, true) == ReactionTo(stream, false) == Dropped
  {
    HeadEndIsLocal(stream, taken);
  }

  /** The body: what came with the head, then the rest of it and no more. */
  method ReadBody(conn: Connection, hdr: array<char>, got: nat, hdrEnd: nat, n: nat, ghost rest: string)
    returns (arrived: bool, body: string)
    requires hdrEnd <= got <= hdr.Length && got - hdrEnd <= |rest|
    requires forall k :: hdrEnd <= k < got ==> hdr[k] == rest[k - hdrEnd]
    requires conn.incoming == rest[got - hdrEnd..] && !conn.broken
    modifies conn`incoming, conn`script, conn`broken
    ensures arrived == !conn.broken
    ensures arrived ==> n <= |rest| && body == rest[..n]
  {
    var already := got - hdrEnd;
    if already > n {
      already := n;
    }
    var buf := new char[n + 1];
    forall i | 0 <= i < already { buf[i] := hdr[hdrEnd + i]; }
    assert forall i :: 0 <= i < already ==> buf[i] == rest[i];
    if already < n {
      var r := ReadFull(conn, buf, already, n - already);
      if r < 0 {
        return false, "";
      }
      assert buf[already..n] == rest[already..][..n - already];
      assert forall k :: already <= k < n ==> buf[k] == buf[already..n][k - already] == rest[k];
    }
    buf[n] := '\0';
    body := buf[..n];
    return true, body;
  }
}
