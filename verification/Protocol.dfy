/** What mcp_jsonrpc.c computes for one message while every allocation succeeds,
    as a function of the server state. The C code itself, with its in-place
    trees and its clean-up paths, is module Dispatcher; it is proved against
    this function. */
module Protocol {
  import opened Json

  const INVALID_REQUEST := -32600
  const METHOD_NOT_FOUND := -32601
  const INVALID_PARAMS := -32602
  const INTERNAL_ERROR := -32603
  const PARSE_ERROR := -32700
  const PROTOCOL_VERSION := "2025-06-18"

  /** A tool handler, seen from the dispatcher: the builder calls it makes and
      the code it returns. It may look at what mcp_tool_response_add_text
      returned before it decides what to do next. */
  datatype Script =
    | Return(rc: int)
    | AddText(text: string, onOk: Script, onOom: Script)
    | SetError(message: string, next: Script)

  datatype Tool = Tool(name: string, title: Option<string>, description: Option<string>,
                       schema: Json, handler: Json -> Script)

  datatype Server = Server(name: string, version: string, tools: seq<Tool>, initialized: bool)

  /** A handler that ran: which registry entry, and on which arguments. */
  datatype Invocation = Invocation(tool: nat, args: Json)

  datatype Outcome = Outcome(server: Server, reply: Option<Json>, ran: Option<Invocation>)

  // ----- replies -----

  /** What a reply has to show as its id (section 5 of JSON-RPC 2.0): the id of
      the request, when that is a string or a number, and null otherwise. */
  predicate IsEcho(shown: Json, id: Option<Json>) {
    if id.Some? && (id.value.Str? || id.value.Num?) then shown == id.value else shown == Null
  }

  function NormalId(id: Option<Json>): Json {
    match id
    case Some(Str(s)) => Str(s)
    case Some(Num(n)) => Num(n)
    case _ => Null
  }

  function Envelope(id: Option<Json>, payload: Field): Json {
    Obj([Field("jsonrpc", Str("2.0")), Field("id", NormalId(id)), payload])
  }

  function ErrorReply(id: Option<Json>, code: int, message: string): Json {
    Envelope(id, Field("error", Obj([Field("code", Num(code as real)), Field("message", Str(message))])))
  }

  function ResultReply(id: Option<Json>, result: Json): Json {
    Envelope(id, Field("result", result))
  }

  function OomReply(id: Option<Json>): Json { ErrorReply(id, INTERNAL_ERROR, "oom") }

  // ----- tool lookup and listing -----

  /** Index of the first tool with this name. */
  function Find(tools: seq<Tool>, name: string): Option<nat> {
    if tools == [] then None
    else if tools[0].name == name then Some(0)
    else match Find(tools[1..], name)
      case None => None
      case Some(i) => Some(i + 1)
  }

  function OptionalField(key: string, value: Option<string>): seq<Field> {
    match value
    case None => []
    case Some(s) => [Field(key, Str(s))]
  }

  function Listing(t: Tool): Json {
    Obj([Field("name", Str(t.name))]
        + OptionalField("title", t.title)
        + OptionalField("description", t.description)
        + [Field("inputSchema", t.schema)])
  }

  function Listings(tools: seq<Tool>): seq<Json> {
    seq(|tools|, i requires 0 <= i < |tools| => Listing(tools[i]))
  }

  function InitializeResult(srv: Server): Json {
    Obj([Field("protocolVersion", Str(PROTOCOL_VERSION)),
         Field("capabilities", Obj([Field("tools", Obj([Field("listChanged", Bool(false))]))])),
         Field("serverInfo", Obj([Field("name", Str(srv.name)), Field("version", Str(srv.version))]))])
  }

  // ----- running a handler -----

  /** The response under construction; `error` is the text of error_msg. */
  datatype Built = Built(content: seq<Json>, isError: bool, error: Option<string>)

  /** A content item in which a client finds this text. */
  predicate ShowsText(item: Json, text: string) {
    && item.Obj?
    && Get(item.fields, "type") == Some(Str("text")) && Occurrences(item.fields, "type") == 1
    && Get(item.fields, "text") == Some(Str(text)) && Occurrences(item.fields, "text") == 1
  }

  predicate ShowTexts(items: seq<Json>, texts: seq<string>) {
    |items| == |texts| && forall k :: 0 <= k < |items| ==> ShowsText(items[k], texts[k])
  }

  function TextItem(text: string): Json {
    Obj([Field("type", Str("text")), Field("text", Str(text))])
  }

  function RunScript(script: Script, b: Built): (Built, int) {
    match script
    case Return(rc) => (b, rc)
    case AddText(text, onOk, _) => RunScript(onOk, b.(content := b.content + [TextItem(text)]))
    case SetError(message, next) => RunScript(next, b.(isError := true, error := Some(message)))
  }

  /** A handler that failed without saying why gets a message of its own. */
  function AfterReturn(b: Built, rc: int): Built {
    if rc != 0 && !b.isError then b.(isError := true, error := Some("tool handler failed")) else b
  }

  function ErrorText(error: Option<string>): string {
    match error
    case Some(s) => if s == "" then "tool error" else s
    case None => "tool error"
  }

  function CallResult(b: Built): Json {
    var content := if b.isError then [TextItem(ErrorText(b.error))] + b.content else b.content;
    Obj([Field("content", Arr(content)), Field("isError", Bool(b.isError))])
  }

  function CallOutcome(script: Script): Json {
    var (b, rc) := RunScript(script, Built([], false, None));
    CallResult(AfterReturn(b, rc))
  }

  // ----- the entry point -----

  function Replied(srv: Server, reply: Json): Outcome { Outcome(srv, Some(reply), None) }

  function HandleCall(srv: Server, id: Option<Json>, params: Option<Json>): Outcome {
    match params
    case Some(Obj(fields)) =>
      (match Get(fields, "name")
       case Some(Str(name)) =>
         (match Find(srv.tools, name)
          case None => Replied(srv, ErrorReply(id, METHOD_NOT_FOUND, "unknown tool"))
          case Some(i) =>
            FindSound(srv.tools, name);
            (match Get(fields, "arguments")
             case None => RunTool(srv, id, i, Obj([]))
             case Some(Obj(args)) => RunTool(srv, id, i, Obj(args))
             case _ => Replied(srv, ErrorReply(id, INVALID_PARAMS, "params.arguments must be an object"))))
       case _ => Replied(srv, ErrorReply(id, INVALID_PARAMS, "params.name must be a string")))
    case _ => Replied(srv, ErrorReply(id, INVALID_PARAMS, "params must be an object"))
  }

  function RunTool(srv: Server, id: Option<Json>, i: nat, args: Json): Outcome
    requires i < |srv.tools|
  {
    Outcome(srv, Some(ResultReply(id, CallOutcome(srv.tools[i].handler(args)))), Some(Invocation(i, args)))
  }

  function HandleRequest(srv: Server, id: Option<Json>, name: string, params: Option<Json>): Outcome {
    if name == "initialize" then
      Replied(srv.(initialized := true), ResultReply(id, InitializeResult(srv)))
    else if name == "ping" then Replied(srv, ResultReply(id, Obj([])))
    else if !srv.initialized then Replied(srv, ErrorReply(id, INVALID_REQUEST, "server not initialized"))
    else if name == "tools/list" then
      Replied(srv, ResultReply(id, Obj([Field("tools", Arr(Listings(srv.tools)))])))
    else if name == "tools/call" then HandleCall(srv, id, params)
    else Replied(srv, ErrorReply(id, METHOD_NOT_FOUND, name))
  }

  function Handle(srv: Server, msg: Json): Outcome {
    match msg
    case Obj(fields) =>
      var id := Get(fields, "id");
      if Get(fields, "jsonrpc") != Some(Str("2.0")) then
        Replied(srv, ErrorReply(id, INVALID_REQUEST, "jsonrpc must be \"2.0\""))
      else (match Get(fields, "method")
        case Some(Str(name)) =>
          if id == None then Outcome(srv, None, None)
          else HandleRequest(srv, id, name, Get(fields, "params"))
        case _ => Replied(srv, ErrorReply(id, INVALID_REQUEST, "method must be a string")))
    case _ => Replied(srv, ErrorReply(None, INVALID_REQUEST, "message must be an object"))
  }

  lemma FindSound(tools: seq<Tool>, name: string)
    ensures match Find(tools, name)
      case Some(i) => i < |tools| && tools[i].name == name && forall j :: 0 <= j < i ==> tools[j].name != name
      case None => forall j :: 0 <= j < |tools| ==> tools[j].name != name
  {
    if tools != [] {
      FindSound(tools[1..], name);
      assert forall j :: 1 <= j < |tools| ==> tools[j] == tools[1..][j - 1];
    }
  }
}
