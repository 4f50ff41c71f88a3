/** Laws of the dispatcher over single messages and over whole runs, stated
    with definitions that do not mention how replies are built. */
module ProtocolLaws {
  import opened Json
  import opened Protocol

  // ----- one message -----

  /** A valid notification in the sense of JSON-RPC 2.0 section 4.1. */
  ghost predicate IsNotification(msg: Json) {
    && msg.Obj?
    && Get(msg.fields, "jsonrpc") == Some(Str("2.0"))
    && (exists name :: Get(msg.fields, "method") == Some(Str(name)))
    && Get(msg.fields, "id") == None
  }

  ghost predicate IsInitializeRequest(msg: Json) {
    && msg.Obj?
    && Get(msg.fields, "jsonrpc") == Some(Str("2.0"))
    && Get(msg.fields, "method") == Some(Str("initialize"))
    && Get(msg.fields, "id") != None
  }

  function RequestId(msg: Json): Option<Json> {
    if msg.Obj? then Get(msg.fields, "id") else None
  }

  ghost predicate HasCode(e: Json, code: int) {
    e.Obj? && Get(e.fields, "code") == Some(Num(code as real))
  }

  ghost predicate IsErrorObject(e: Json) {
    && e.Obj?
    && (exists code: int :: HasCode(e, code))
    && (exists message :: Get(e.fields, "message") == Some(Str(message)))
  }

  /** A response object in the sense of JSON-RPC 2.0 section 5, for this id. */
  ghost predicate Conforms(reply: Json, id: Option<Json>) {
    && reply.Obj?
    && Get(reply.fields, "jsonrpc") == Some(Str("2.0"))
    && Get(reply.fields, "id").Some? && IsEcho(Get(reply.fields, "id").value, id)
    && Occurrences(reply.fields, "jsonrpc") == 1
    && Occurrences(reply.fields, "id") == 1
    && Occurrences(reply.fields, "result") + Occurrences(reply.fields, "error") == 1
    && (match Get(reply.fields, "error") case Some(e) => IsErrorObject(e) case None => true)
  }

  lemma LookupInOne(a: Field, key: string)
    ensures Get([a], key) == if a.key == key then Some(a.val) else None
    ensures Occurrences([a], key) == if a.key == key then 1 else 0
  {
    assert [a][1..] == [];
  }

  lemma LookupInTwo(a: Field, b: Field, key: string)
    ensures Get([a, b], key)
      == if a.key == key then Some(a.val) else if b.key == key then Some(b.val) else None
    ensures Occurrences([a, b], key) == (if a.key == key then 1 else 0) + (if b.key == key then 1 else 0)
  {
    assert [a, b][1..] == [b];
    LookupInOne(b, key);
  }

  lemma LookupInThree(a: Field, b: Field, c: Field, key: string)
    ensures Get([a, b, c], key)
      == if a.key == key then Some(a.val) else if b.key == key then Some(b.val)
         else if c.key == key then Some(c.val) else None
    ensures Occurrences([a, b, c], key)
      == (if a.key == key then 1 else 0) + (if b.key == key then 1 else 0) + (if c.key == key then 1 else 0)
  {
    assert [a, b, c][1..] == [b, c];
    LookupInTwo(b, c, key);
  }

  lemma EnvelopeLookup(id: Option<Json>, payload: Field)
    requires payload.key == "result" || payload.key == "error"
    ensures var fs := Envelope(id, payload).fields;
      && Get(fs, "jsonrpc") == Some(Str("2.0")) && Get(fs, "id") == Some(NormalId(id))
      && Get(fs, payload.key) == Some(payload.val)
      && (forall key :: key !in {"jsonrpc", "id", payload.key} ==> Get(fs, key) == None)
      && Occurrences(fs, "jsonrpc") == 1 && Occurrences(fs, "id") == 1
      && Occurrences(fs, payload.key) == 1
      && (forall key :: key !in {"jsonrpc", "id", payload.key} ==> Occurrences(fs, key) == 0)
  {
    forall key {
      LookupInThree(Field("jsonrpc", Str("2.0")), Field("id", NormalId(id)), payload, key);
    }
  }

  lemma ResultConforms(id: Option<Json>, result: Json)
    ensures Conforms(ResultReply(id, result), id)
    ensures Get(ResultReply(id, result).fields, "result") == Some(result)
    ensures Get(ResultReply(id, result).fields, "error") == None
  {
    EnvelopeLookup(id, Field("result", result));
  }

  lemma ErrorConforms(id: Option<Json>, code: int, message: string)
    ensures Conforms(ErrorReply(id, code, message), id)
    ensures Get(ErrorReply(id, code, message).fields, "result") == None
    ensures var e := Get(ErrorReply(id, code, message).fields, "error");
      e.Some? && e.value.Obj? && Get(e.value.fields, "code") == Some(Num(code as real))
      && Get(e.value.fields, "message") == Some(Str(message))
  {
    var e := Obj([Field("code", Num(code as real)), Field("message", Str(message))]);
    EnvelopeLookup(id, Field("error", e));
    forall key { LookupInTwo(e.fields[0], e.fields[1], key); }
    assert HasCode(e, code);
    assert Get(e.fields, "message") == Some(Str(message));
  }

  /** Every message except a valid notification gets exactly one response, which
      conforms and so shows the id of the request; a notification gets none, changes
      nothing and runs nothing. */
  lemma ExactlyOneAnswer(srv: Server, msg: Json)
    ensures Handle(srv, msg).reply == None <==> IsNotification(msg)
    ensures IsNotification(msg) ==> Handle(srv, msg) == Outcome(srv, None, None)
    ensures Handle(srv, msg).reply.Some? ==> Conforms(Handle(srv, msg).reply.value, RequestId(msg))
  {
    var out := Handle(srv, msg);
    if out.reply.Some? {
      ReplyIsErrorOrResult(srv, msg);
      var id := RequestId(msg);
      if code, message :| out.reply.value == ErrorReply(id, code, message) {
        ErrorConforms(id, code, message);
      } else {
        var result :| out.reply.value == ResultReply(id, result);
        ResultConforms(id, result);
      }
    }
  }

  ghost predicate IsErrorReply(r: Json, id: Option<Json>) {
    exists code, message :: r == ErrorReply(id, code, message)
  }

  ghost predicate IsResultReply(r: Json, id: Option<Json>) {
    exists result :: r == ResultReply(id, result)
  }

  lemma CallRuns(srv: Server, id: Option<Json>, params: Option<Json>)
    ensures var out := HandleCall(srv, id, params);
      && out.server == srv && out.reply.Some?
      && (match out.ran
          case Some(inv) => inv.tool < |srv.tools| && out == RunTool(srv, id, inv.tool, inv.args)
          case None => IsErrorReply(out.reply.value, id))
  {
    if params.Some? && params.value.Obj? { CallObjectRuns(srv, id, params.value.fields); }
  }

  lemma CallObjectRuns(srv: Server, id: Option<Json>, fields: seq<Field>)
    ensures var out := HandleCall(srv, id, Some(Obj(fields)));
      && out.server == srv && out.reply.Some?
      && (match out.ran
          case Some(inv) => inv.tool < |srv.tools| && out == RunTool(srv, id, inv.tool, inv.args)
          case None => IsErrorReply(out.reply.value, id))
  {
    hide ErrorReply, Find, Get;
    var name := Get(fields, "name");
    if name.Some? && name.value.Str? { FindSound(srv.tools, name.value.s); }
  }

  lemma RequestReplies(srv: Server, id: Option<Json>, name: string, params: Option<Json>)
    ensures var out := HandleRequest(srv, id, name, params);
      out.reply.Some? && (IsErrorReply(out.reply.value, id) || IsResultReply(out.reply.value, id))
  {
    var out := HandleRequest(srv, id, name, params);
    if name == "initialize" {
      assert out.reply.value == ResultReply(id, InitializeResult(srv));
    } else if name == "ping" {
      assert out.reply.value == ResultReply(id, Obj([]));
    } else if !srv.initialized {
      assert out.reply.value == ErrorReply(id, INVALID_REQUEST, "server not initialized");
    } else if name == "tools/list" {
      assert out.reply.value == ResultReply(id, Obj([Field("tools", Arr(Listings(srv.tools)))]));
    } else if name == "tools/call" {
      CallRuns(srv, id, params);
    } else {
      assert out.reply.value == ErrorReply(id, METHOD_NOT_FOUND, name);
    }
  }

  lemma ReplyIsErrorOrResult(srv: Server, msg: Json)
    requires Handle(srv, msg).reply.Some?
    ensures var r := Handle(srv, msg).reply.value;
      IsErrorReply(r, RequestId(msg)) || IsResultReply(r, RequestId(msg))
  {
    if msg.Obj? {
      var id, name := Get(msg.fields, "id"), Get(msg.fields, "method");
      if name.Some? && name.value.Str? {
        RequestReplies(srv, id, name.value.s, Get(msg.fields, "params"));
      }
    }
  }

  /** What a message can change: nothing but `initialized`, and that only from
      false to true, by an initialize request. */
  lemma HandleFrame(srv: Server, msg: Json)
    ensures Handle(srv, msg).server == srv.(initialized := srv.initialized || IsInitializeRequest(msg))
    ensures Handle(srv, msg).ran.Some? ==> srv.initialized && !IsInitializeRequest(msg)
    ensures Handle(srv, msg).ran.Some? ==> Handle(srv, msg).ran.value.tool < |srv.tools|
  {
    if msg.Obj? { CallRuns(srv, Get(msg.fields, "id"), Get(msg.fields, "params")); }
  }

  // ----- whole runs -----

  function Run(srv: Server, msgs: seq<Json>): (outs: seq<Outcome>)
    ensures |outs| == |msgs|
    decreases |msgs|
  {
    if msgs == [] then []
    else var out := Handle(srv, msgs[0]); [out] + Run(out.server, msgs[1..])
  }

  function Final(srv: Server, msgs: seq<Json>): Server
    decreases |msgs|
  {
    if msgs == [] then srv else Final(Handle(srv, msgs[0]).server, msgs[1..])
  }

  /** After any run the server differs from the first one at most in
      `initialized`, which is set exactly when it was set or when some message
      was an initialize request. */
  lemma {:induction false} FinalState(srv: Server, msgs: seq<Json>)
    ensures Final(srv, msgs)
      == srv.(initialized := srv.initialized || exists j :: 0 <= j < |msgs| && IsInitializeRequest(msgs[j]))
    decreases |msgs|
  {
    if msgs != [] {
      HandleFrame(srv, msgs[0]);
      FinalState(Handle(srv, msgs[0]).server, msgs[1..]);
      assert forall j :: 1 <= j < |msgs| ==> msgs[j] == msgs[1..][j - 1];
      if j :| 1 <= j < |msgs| && IsInitializeRequest(msgs[j]) {
        assert IsInitializeRequest(msgs[1..][j - 1]);
      }
    }
  }

  /** Each outcome of a run is the outcome of its message in the state that the
      earlier messages lead to. */
  lemma {:induction false} RunAt(srv: Server, msgs: seq<Json>, i: nat)
    requires i < |msgs|
    ensures Run(srv, msgs)[i] == Handle(Final(srv, msgs[..i]), msgs[i])
    decreases |msgs|
  {
    if i > 0 {
      RunAt(Handle(srv, msgs[0]).server, msgs[1..], i - 1);
      assert msgs[..i][1..] == msgs[1..][..i - 1];
    }
  }

  lemma {:induction false} FinalSnoc(srv: Server, msgs: seq<Json>, msg: Json)
    ensures Final(srv, msgs + [msg]) == Handle(Final(srv, msgs), msg).server
    decreases |msgs|
  {
    if msgs != [] {
      FinalSnoc(Handle(srv, msgs[0]).server, msgs[1..], msg);
      assert (msgs + [msg])[1..] == msgs[1..] + [msg];
    } else {
      assert (msgs + [msg])[1..] == [];
    }
  }

  /** `initialized` never reverts. */
  lemma InitializedIsForever(srv: Server, msgs: seq<Json>, i: nat, j: nat)
    requires i <= j <= |msgs|
    requires Final(srv, msgs[..i]).initialized
    ensures Final(srv, msgs[..j]).initialized
  {
    FinalState(srv, msgs[..i]);
    FinalState(srv, msgs[..j]);
    if !srv.initialized {
      var k :| 0 <= k < i && IsInitializeRequest(msgs[..i][k]);
      assert msgs[..j][k] == msgs[..i][k];
    }
  }

  /** No handler runs before an initialize request has been handled. */
  lemma NoHandlerBeforeInitialize(srv: Server, msgs: seq<Json>, i: nat)
    requires !srv.initialized
    requires i < |msgs| && Run(srv, msgs)[i].ran.Some?
    ensures exists j :: 0 <= j < i && IsInitializeRequest(msgs[j])
  {
    RunAt(srv, msgs, i);
    var before := Final(srv, msgs[..i]);
    HandleFrame(before, msgs[i]);
    FinalState(srv, msgs[..i]);
    var j :| 0 <= j < i && IsInitializeRequest(msgs[..i][j]);
    assert IsInitializeRequest(msgs[j]);
  }

  /** The responses of a run, in order. */
  function Replies(outs: seq<Outcome>): seq<Json> {
    if outs == [] then []
    else (match outs[0].reply case Some(r) => [r] case None => []) + Replies(outs[1..])
  }

  /** The messages that are owed a response, in order. */
  ghost function Owed(msgs: seq<Json>): seq<Json> {
    if msgs == [] then []
    else (if IsNotification(msgs[0]) then [] else [msgs[0]]) + Owed(msgs[1..])
  }

  /** Over a whole run the responses match the messages owed one, one to one
      and in order, each conforming and carrying its own request's id. */
  lemma {:induction false} OneReplyPerOwedMessage(srv: Server, msgs: seq<Json>)
    ensures |Replies(Run(srv, msgs))| == |Owed(msgs)|
    ensures forall k :: 0 <= k < |Owed(msgs)| ==>
      Conforms(Replies(Run(srv, msgs))[k], RequestId(Owed(msgs)[k]))
    decreases |msgs|
  {
    if msgs != [] {
      var out := Handle(srv, msgs[0]);
      ExactlyOneAnswer(srv, msgs[0]);
      OneReplyPerOwedMessage(out.server, msgs[1..]);
      var rest := Run(out.server, msgs[1..]);
      assert Run(srv, msgs)[1..] == rest;
      if !IsNotification(msgs[0]) {
        assert Replies(Run(srv, msgs)) == [out.reply.value] + Replies(rest);
      }
    }
  }

  // ----- tools/list and tools/call -----

  ghost predicate DistinctNames(tools: seq<Tool>) {
    forall i, j :: 0 <= i < j < |tools| ==> tools[i].name != tools[j].name
  }

  /** mcp_server_add_tool on the registry as a value. */
  function Register(tools: seq<Tool>, t: Tool): seq<Tool> {
    if Find(tools, t.name).Some? then tools else tools + [t]
  }

  function RegisterAll(ts: seq<Tool>): seq<Tool> {
    if ts == [] then [] else Register(RegisterAll(ts[..|ts| - 1]), ts[|ts| - 1])
  }

  lemma {:induction false} RegistrationKeepsNamesDistinct(ts: seq<Tool>)
    ensures DistinctNames(RegisterAll(ts))
  {
    if ts != [] {
      RegistrationKeepsNamesDistinct(ts[..|ts| - 1]);
      FindSound(RegisterAll(ts[..|ts| - 1]), ts[|ts| - 1].name);
    }
  }

  /** What a client reads in one entry of the list. */
  ghost predicate ShowsTool(item: Json, t: Tool) {
    && item.Obj?
    && Get(item.fields, "name") == Some(Str(t.name))
    && Get(item.fields, "title") == (match t.title case Some(s) => Some(Str(s)) case None => None)
    && Get(item.fields, "description") == (match t.description case Some(s) => Some(Str(s)) case None => None)
    && Get(item.fields, "inputSchema") == Some(t.schema)
  }

  /** The tools a tools/list reply shows. */
  ghost predicate Lists(reply: Json, tools: seq<Tool>) {
    && reply.Obj?
    && var result := Get(reply.fields, "result");
    && result.Some? && result.value.Obj?
    && var list := Get(result.value.fields, "tools");
    && list.Some? && list.value.Arr? && |list.value.items| == |tools|
    && forall i :: 0 <= i < |tools| ==> ShowsTool(list.value.items[i], tools[i])
  }

  ghost function Names(tools: seq<Tool>): seq<string> {
    seq(|tools|, i requires 0 <= i < |tools| => tools[i].name)
  }

  /** tools/list shows every registered tool, in order, with its name and schema
      and with those texts that it has. */
  lemma ListShowsRegistry(srv: Server, id: Json, params: Option<Json>)
    requires srv.initialized
    ensures var out := HandleRequest(srv, Some(id), "tools/list", params);
      && out.reply.Some? && Lists(out.reply.value, srv.tools)
      && out.server == srv && out.ran == None
  {
    hide Listing, ShowsTool;
    var list := Field("tools", Arr(Listings(srv.tools)));
    ResultConforms(Some(id), Obj([list]));
    LookupInOne(list, "tools");
    forall i | 0 <= i < |srv.tools| ensures ShowsTool(Listings(srv.tools)[i], srv.tools[i]) {
      ListingShows(srv.tools[i]);
    }
  }

  lemma ListingShows(t: Tool)
    ensures ShowsTool(Listing(t), t)
  {
    ListingLookup(t, "name");
    ListingLookup(t, "title");
    ListingLookup(t, "description");
    ListingLookup(t, "inputSchema");
  }

  lemma ListingLookup(t: Tool, key: string)
    ensures Get(Listing(t).fields, key) ==
      if key == "name" then Some(Str(t.name))
      else if key == "title" && t.title.Some? then Some(Str(t.title.value))
      else if key == "description" && t.description.Some? then Some(Str(t.description.value))
      else if key == "inputSchema" then Some(t.schema) else None
  {
    var name, schema := [Field("name", Str(t.name))], [Field("inputSchema", t.schema)];
    var title, description := OptionalField("title", t.title), OptionalField("description", t.description);
    assert Listing(t).fields == name + (title + (description + schema));
    GetInSum(name, title + (description + schema), key);
    GetInSum(title, description + schema, key);
    GetInSum(description, schema, key);
    GetOptional("title", t.title, key);
    GetOptional("description", t.description, key);
    LookupInOne(name[0], key);
    LookupInOne(schema[0], key);
  }

  lemma GetOptional(key: string, value: Option<string>, k: string)
    ensures Get(OptionalField(key, value), k) == if value.Some? && k == key then Some(Str(value.value)) else None
  {
    if value.Some? { LookupInOne(Field(key, Str(value.value)), k); }
  }

  lemma {:induction false} GetInSum(a: seq<Field>, b: seq<Field>, key: string)
    ensures Get(a + b, key) == if Get(a, key).Some? then Get(a, key) else Get(b, key)
  {
    if a == [] {
      assert a + b == b;
    } else {
      GetInSum(a[1..], b, key);
      assert (a + b)[1..] == a[1..] + b;
    }
  }

  function ArgumentsOf(fields: seq<Field>): Json {
    match Get(fields, "arguments") case Some(a) => a case None => Obj([])
  }

  lemma CallDispatch(srv: Server, id: Json, params: Option<Json>)
    requires srv.initialized
    ensures HandleRequest(srv, Some(id), "tools/call", params) == HandleCall(srv, Some(id), params)
  {
    assert "tools/call"[0] == 't' && "initialize"[0] == 'i' && "ping"[0] == 'p';
    assert "tools/call"[6] == 'c' && "tools/list"[6] == 'l';
  }

  lemma CallByIndex(srv: Server, id: Option<Json>, fields: seq<Field>, i: nat)
    requires i < |srv.tools| && DistinctNames(srv.tools)
    requires Get(fields, "name") == Some(Str(srv.tools[i].name))
    requires ArgumentsOf(fields).Obj?
    ensures HandleCall(srv, id, Some(Obj(fields))) == RunTool(srv, id, i, ArgumentsOf(fields))
  {
    FindSound(srv.tools, srv.tools[i].name);
  }

  /** A call whose params and arguments are objects is refused as unknown
      exactly when tools/list does not show its name; otherwise exactly the
      entry that tools/list shows under that name runs, once, and its report is
      the reply. */
  lemma ListAndCallAgree(srv: Server, id: Json, fields: seq<Field>, name: string)
    requires srv.initialized && DistinctNames(srv.tools)
    requires Get(fields, "name") == Some(Str(name))
    requires ArgumentsOf(fields).Obj?
    ensures var out := HandleRequest(srv, Some(id), "tools/call", Some(Obj(fields)));
      var unknown := ErrorReply(Some(id), METHOD_NOT_FOUND, "unknown tool");
      && (out.reply == Some(unknown) <==> name !in Names(srv.tools))
      && (name !in Names(srv.tools) ==> out == Outcome(srv, Some(unknown), None))
      && forall i :: 0 <= i < |srv.tools| && Names(srv.tools)[i] == name ==>
          out == Outcome(srv,
            Some(ResultReply(Some(id), CallOutcome(srv.tools[i].handler(ArgumentsOf(fields))))),
            Some(Invocation(i, ArgumentsOf(fields))))
  {
    CallDispatch(srv, id, Some(Obj(fields)));
    ErrorConforms(Some(id), METHOD_NOT_FOUND, "unknown tool");
    forall i | 0 <= i < |srv.tools| && Names(srv.tools)[i] == name
      ensures HandleCall(srv, Some(id), Some(Obj(fields))) == RunTool(srv, Some(id), i, ArgumentsOf(fields))
    {
      CallByIndex(srv, Some(id), fields, i);
    }
    if name in Names(srv.tools) {
      var i :| 0 <= i < |srv.tools| && Names(srv.tools)[i] == name;
      ResultConforms(Some(id), CallOutcome(srv.tools[i].handler(ArgumentsOf(fields))));
    } else {
      FindSound(srv.tools, name);
      assert forall j :: 0 <= j < |srv.tools| ==> Names(srv.tools)[j] == srv.tools[j].name;
    }
  }

  // ----- what a handler's calls turn into -----

  datatype Call = Texted(text: string) | Failed(message: string)

  /** The builder calls a handler makes, in order, and the code it returns. */
  function Trace(script: Script): (seq<Call>, int) {
    match script
    case Return(rc) => ([], rc)
    case AddText(text, onOk, _) => var (calls, rc) := Trace(onOk); ([Texted(text)] + calls, rc)
    case SetError(message, next) => var (calls, rc) := Trace(next); ([Failed(message)] + calls, rc)
  }

  /** The texts of the add_text calls. */
  function Texts(calls: seq<Call>): seq<string> {
    if calls == [] then []
    else (if calls[0].Texted? then [calls[0].text] else []) + Texts(calls[1..])
  }

  lemma TextItemShows(text: string)
    ensures ShowsText(TextItem(text), text)
  {
    LookupInTwo(Field("type", Str("text")), Field("text", Str(text)), "type");
    LookupInTwo(Field("type", Str("text")), Field("text", Str(text)), "text");
  }

  /** `more` is `items` and, behind them, items in which a client finds the texts. */
  ghost predicate Extends(items: seq<Json>, texts: seq<string>, more: seq<Json>) {
    |items| <= |more| && more[..|items|] == items && ShowTexts(more[|items|..], texts)
  }

  lemma ExtendsWith(items: seq<Json>, text: string, texts: seq<string>, more: seq<Json>)
    requires Extends(items + [TextItem(text)], texts, more)
    ensures Extends(items, [text] + texts, more)
  {
    hide ShowsText, TextItem;
    TextItemShows(text);
    var n := |items|;
    assert more[n] == more[..n + 1][n] == TextItem(text);
    assert more[..n] == more[..n + 1][..n] == items;
    assert more[n..] == [more[n]] + more[n + 1..];
  }

  /** The message of the last set_error call. */
  function LastFailure(calls: seq<Call>): Option<string> {
    if calls == [] then None
    else match LastFailure(calls[1..])
      case Some(m) => Some(m)
      case None => if calls[0].Failed? then Some(calls[0].message) else None
  }

  lemma {:induction false} RunScriptTrace(script: Script, b: Built)
    ensures var (calls, rc) := Trace(script);
      var (done, code) := RunScript(script, b);
      && code == rc
      && Extends(b.content, Texts(calls), done.content)
      && done.isError == (b.isError || LastFailure(calls).Some?)
      && done.error == (if LastFailure(calls).Some? then LastFailure(calls) else b.error)
  {
    match script
    case Return(_) =>
    case AddText(text, onOk, _) =>
      RunScriptTrace(onOk, b.(content := b.content + [TextItem(text)]));
      var (calls, _) := Trace(onOk);
      assert ([Texted(text)] + calls)[1..] == calls;
      ExtendsWith(b.content, text, Texts(calls), RunScript(script, b).0.content);
    case SetError(message, next) =>
      RunScriptTrace(next, b.(isError := true, error := Some(message)));
      var (calls, _) := Trace(next);
      assert ([Failed(message)] + calls)[1..] == calls;
  }

  /** The result of a call as a client reads it: its flag, and its content. */
  ghost predicate Reports(result: Json, isError: bool, texts: seq<string>) {
    && result.Obj?
    && Get(result.fields, "isError") == Some(Bool(isError))
    && var content := Get(result.fields, "content");
    && content.Some? && content.value.Arr? && ShowTexts(content.value.items, texts)
  }

  /** isError exactly when set_error was called or the code is non-zero; what a
      client reads in the content is all texts in call order, preceded, when in
      error, by the last set_error message or a default for an empty or missing one. */
  lemma CallReport(script: Script)
    ensures var (calls, rc) := Trace(script);
      var failed := LastFailure(calls).Some? || rc != 0;
      var reason := match LastFailure(calls)
        case Some(m) => if m == "" then "tool error" else m
        case None => "tool handler failed";
      Reports(CallOutcome(script), failed, (if failed then [reason] else []) + Texts(calls))
  {
    hide ShowsText;
    var start := Built([], false, None);
    RunScriptTrace(script, start);
    var (b, rc) := RunScript(script, start);
    assert b.content[0..] == b.content;
    ReportOf(AfterReturn(b, rc), Texts(Trace(script).0));
  }

  /** What a finished response reports. */
  lemma ReportOf(b: Built, texts: seq<string>)
    requires ShowTexts(b.content, texts)
    ensures Reports(CallResult(b), b.isError, (if b.isError then [ErrorText(b.error)] else []) + texts)
  {
    hide ShowsText, TextItem, ErrorText;
    var fs := CallResult(b).fields;
    LookupInTwo(fs[0], fs[1], "isError");
    LookupInTwo(fs[0], fs[1], "content");
    TextItemShows(ErrorText(b.error));
    assert [] + texts == texts;
  }
}
