/** What a client reads in the replies of the dispatcher, member by member: the
    result of initialize and ping, and which error answers which message. */
module ReplyLaws {
  import opened Json
  import opened Protocol
  import opened ProtocolLaws

  // ----- messages -----

  predicate InVersion(msg: Json) { msg.Obj? && Get(msg.fields, "jsonrpc") == Some(Str("2.0")) }

  /** A request, and not a notification, for this method. */
  predicate Requests(msg: Json, name: string) {
    InVersion(msg) && Get(msg.fields, "method") == Some(Str(name)) && Get(msg.fields, "id").Some?
  }

  // ----- results -----

  ghost predicate HasResult(out: Outcome, result: Json) {
    && out.reply.Some? && out.reply.value.Obj?
    && Get(out.reply.value.fields, "result") == Some(result)
  }

  /** A member of an object, or of an object in an object. */
  function Member(j: Json, key: string): Option<Json> { if j.Obj? then Get(j.fields, key) else None }

  function Inner(j: Json, outer: string, key: string): Option<Json> {
    match Member(j, outer) case Some(o) => Member(o, key) case None => None
  }

  /** initialize answers with the protocol version, with tools whose list does not
      change, and with the server's own name and version. */
  lemma InitializeShows(srv: Server, msg: Json)
    requires Requests(msg, "initialize")
    ensures exists result ::
      && HasResult(Handle(srv, msg), result)
      && Member(result, "protocolVersion") == Some(Str("2025-06-18"))
      && Inner(result, "serverInfo", "name") == Some(Str(srv.name))
      && Inner(result, "serverInfo", "version") == Some(Str(srv.version))
      && var tools := Inner(result, "capabilities", "tools");
      && tools.Some? && Member(tools.value, "listChanged") == Some(Bool(false))
  {
    var result := InitializeResult(srv);
    var fs := result.fields;
    ResultConforms(RequestId(msg), result);
    LookupInThree(fs[0], fs[1], fs[2], "protocolVersion");
    LookupInThree(fs[0], fs[1], fs[2], "capabilities");
    LookupInThree(fs[0], fs[1], fs[2], "serverInfo");
    InitializeParts(srv);
    assert HasResult(Handle(srv, msg), result);
  }

  lemma InitializeParts(srv: Server)
    ensures var fs := InitializeResult(srv).fields;
      && Member(fs[2].val, "name") == Some(Str(srv.name)) && Member(fs[2].val, "version") == Some(Str(srv.version))
      && var tools := Member(fs[1].val, "tools");
      && tools.Some? && Member(tools.value, "listChanged") == Some(Bool(false))
  {
    var info := InitializeResult(srv).fields[2].val.fields;
    LookupInTwo(info[0], info[1], "name");
    LookupInTwo(info[0], info[1], "version");
    var tools := InitializeResult(srv).fields[1].val.fields;
    LookupInOne(tools[0], "tools");
    LookupInOne(tools[0].val.fields[0], "listChanged");
  }

  /** ping answers with an empty object, before initialize and after it. */
  lemma PingShows(srv: Server, msg: Json)
    requires Requests(msg, "ping")
    ensures HasResult(Handle(srv, msg), Obj([]))
  {
    ResultConforms(RequestId(msg), Obj([]));
  }

  // ----- errors -----

  ghost predicate HasError(out: Outcome, code: int, message: string) {
    && out.reply.Some? && out.reply.value.Obj? && Get(out.reply.value.fields, "result") == None
    && var e := Get(out.reply.value.fields, "error");
    && e.Some? && e.value.Obj?
    && Get(e.value.fields, "code") == Some(Num(code as real)) && Get(e.value.fields, "message") == Some(Str(message))
  }

  ghost predicate Succeeds(out: Outcome) {
    && out.reply.Some? && out.reply.value.Obj?
    && Get(out.reply.value.fields, "result").Some? && Get(out.reply.value.fields, "error") == None
  }

  lemma ErrorShows(srv: Server, id: Option<Json>, code: int, message: string)
    ensures HasError(Replied(srv, ErrorReply(id, code, message)), code, message)
  {
    ErrorConforms(id, code, message);
  }

  lemma ResultShows(out: Outcome, id: Option<Json>, result: Json)
    requires out.reply == Some(ResultReply(id, result))
    ensures Succeeds(out)
  {
    ResultConforms(id, result);
  }

  /** A reply that memory ran out for is the internal error -32603. */
  lemma OomShows(srv: Server, id: Option<Json>)
    ensures HasError(Replied(srv, OomReply(id)), -32603, "oom")
  {
    ErrorShows(srv, id, -32603, "oom");
  }

  /** Malformed messages are -32600 with what is wrong with them. */
  lemma MalformedIsRefused(srv: Server, msg: Json)
    ensures !msg.Obj? ==> HasError(Handle(srv, msg), -32600, "message must be an object")
    ensures msg.Obj? && Get(msg.fields, "jsonrpc") != Some(Str("2.0")) ==>
      HasError(Handle(srv, msg), -32600, "jsonrpc must be \"2.0\"")
    ensures InVersion(msg) && (Get(msg.fields, "method") == None || !Get(msg.fields, "method").value.Str?) ==>
      HasError(Handle(srv, msg), -32600, "method must be a string")
  {
    hide ErrorReply, HasError, HandleRequest;
    ErrorShows(srv, None, -32600, "message must be an object");
    ErrorShows(srv, RequestId(msg), -32600, "jsonrpc must be \"2.0\"");
    ErrorShows(srv, RequestId(msg), -32600, "method must be a string");
  }

  /** A request, by its method. */
  lemma RequestIsAnswered(srv: Server, msg: Json, name: string)
    requires Requests(msg, name)
    ensures var out := Handle(srv, msg);
      if name == "initialize" || name == "ping" then Succeeds(out)
      else if !srv.initialized then HasError(out, -32600, "server not initialized")
      else if name == "tools/list" then Succeeds(out)
      else if name == "tools/call" then out == HandleCall(srv, RequestId(msg), Get(msg.fields, "params"))
      else HasError(out, -32601, name)
  {
    hide ErrorReply, ResultReply, HasError, Succeeds, HandleCall, InitializeResult, Listings;
    var id, out := RequestId(msg), Handle(srv, msg);
    assert out == HandleRequest(srv, id, name, Get(msg.fields, "params"));
    if name == "initialize" { ResultShows(out, id, InitializeResult(srv)); }
    else if name == "ping" { ResultShows(out, id, Obj([])); }
    else if !srv.initialized { ErrorShows(srv, id, -32600, "server not initialized"); }
    else if name == "tools/list" {
      ResultShows(out, id, Obj([Field("tools", Arr(Listings(srv.tools)))]));
    } else if name != "tools/call" {
      ErrorShows(srv, id, -32601, name);
    }
  }

  /** A call, by its params. */
  lemma CallIsAnswered(srv: Server, id: Option<Json>, params: Option<Json>)
    ensures var out := HandleCall(srv, id, params);
      if params == None || !params.value.Obj? then HasError(out, -32602, "params must be an object")
      else
        var name, args := Get(params.value.fields, "name"), Get(params.value.fields, "arguments");
        if name == None || !name.value.Str? then HasError(out, -32602, "params.name must be a string")
        else if name.value.s !in Names(srv.tools) then HasError(out, -32601, "unknown tool")
        else if args.Some? && !args.value.Obj? then HasError(out, -32602, "params.arguments must be an object")
        else Succeeds(out)
  {
    hide ErrorReply, ResultReply, HasError, Succeeds, CallOutcome, Find, Get;
    if params == None || !params.value.Obj? {
      ErrorShows(srv, id, -32602, "params must be an object");
    } else {
      CallObjectIsAnswered(srv, id, params.value.fields);
    }
  }

  lemma CallObjectIsAnswered(srv: Server, id: Option<Json>, fields: seq<Field>)
    ensures var out := HandleCall(srv, id, Some(Obj(fields)));
      var name, args := Get(fields, "name"), Get(fields, "arguments");
      if name == None || !name.value.Str? then HasError(out, -32602, "params.name must be a string")
      else if name.value.s !in Names(srv.tools) then HasError(out, -32601, "unknown tool")
      else if args.Some? && !args.value.Obj? then HasError(out, -32602, "params.arguments must be an object")
      else Succeeds(out)
  {
    hide ErrorReply, ResultReply, HasError, Succeeds, CallOutcome, Find, Get;
    var name, out := Get(fields, "name"), HandleCall(srv, id, Some(Obj(fields)));
    ErrorShows(srv, id, -32602, "params.name must be a string");
    ErrorShows(srv, id, -32601, "unknown tool");
    ErrorShows(srv, id, -32602, "params.arguments must be an object");
    if name.Some? && name.value.Str? {
      FindSound(srv.tools, name.value.s);
      FoundIsNamed(srv.tools, name.value.s);
      if out.ran.Some? {
        var inv := out.ran.value;
        ResultShows(out, id, CallOutcome(srv.tools[inv.tool].handler(inv.args)));
      }
    }
  }

  lemma FoundIsNamed(tools: seq<Tool>, name: string)
    ensures Find(tools, name).Some? <==> name in Names(tools)
  {
    hide Find;
    FindSound(tools, name);
    if Find(tools, name).Some? {
      assert Names(tools)[Find(tools, name).value] == name;
    } else {
      assert forall j :: 0 <= j < |tools| ==> Names(tools)[j] == tools[j].name;
    }
  }
}
