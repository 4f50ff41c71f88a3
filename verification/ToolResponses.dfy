/** The response a tool handler builds (src/mcp_server.c:158-193), while any of
    its allocations may fail. */
module ToolResponses {
  import opened Json
  import opened Heap
  import opened Protocol
  import opened Replies
  import ProtocolLaws

  // ----- what a handler has built, when some of its calls ran out of memory -----

  /** `oks` says of each builder call in turn whether it got its memory; calls
      beyond its end did. */
  function RunWith(script: Script, b: Built, oks: seq<bool>): (Built, int) {
    var ok := oks == [] || oks[0];
    var rest := if oks == [] then [] else oks[1..];
    match script
    case Return(rc) => (b, rc)
    case AddText(text, onOk, onOom) =>
      if ok then RunWith(onOk, b.(content := b.content + [TextItem(text)]), rest)
      else RunWith(onOom, b, rest)
    case SetError(message, next) =>
      RunWith(next, b.(isError := true, error := if ok then Some(message) else None), rest)
  }

  ghost predicate AllTrue(oks: seq<bool>) { forall i :: 0 <= i < |oks| ==> oks[i] }

  lemma {:induction false} RunWithMemory(script: Script, b: Built, oks: seq<bool>)
    requires AllTrue(oks)
    ensures RunWith(script, b, oks) == RunScript(script, b)
    decreases script
  {
    var rest := if oks == [] then [] else oks[1..];
    match script {
      case Return(_) =>
      case AddText(text, onOk, _) => RunWithMemory(onOk, b.(content := b.content + [TextItem(text)]), rest);
      case SetError(message, next) => RunWithMemory(next, b.(isError := true, error := Some(message)), rest);
    }
  }

  /** The calls a handler makes, each with what it was told, or got. */
  datatype Call = Said(text: string, ok: bool) | Failed(message: string, ok: bool)

  function Calls(script: Script, oks: seq<bool>): seq<Call> {
    var ok := oks == [] || oks[0];
    var rest := if oks == [] then [] else oks[1..];
    match script
    case Return(_) => []
    case AddText(text, onOk, onOom) => [Said(text, ok)] + Calls(if ok then onOk else onOom, rest)
    case SetError(message, next) => [Failed(message, ok)] + Calls(next, rest)
  }

  function Accepted(calls: seq<Call>): seq<string> {
    if calls == [] then []
    else (if calls[0].Said? && calls[0].ok then [calls[0].text] else []) + Accepted(calls[1..])
  }

  /** The message that the last set_error left: none if there was no such call,
      and an absent one if its copy failed. */
  function LastError(calls: seq<Call>): Option<Option<string>> {
    if calls == [] then None
    else match calls[|calls| - 1]
      case Failed(message, ok) => Some(if ok then Some(message) else None)
      case Said(_, _) => LastError(calls[..|calls| - 1])
  }

  /** `built` is what these calls make of b. */
  ghost predicate Follows(b: Built, calls: seq<Call>, built: Built) {
    && ProtocolLaws.Extends(b.content, Accepted(calls), built.content)
    && (match LastError(calls)
        case None => built.isError == b.isError && built.error == b.error
        case Some(error) => built.isError && built.error == error)
  }

  /** What one call makes of b. */
  function After(b: Built, c: Call): Built {
    match c
    case Said(text, ok) => if ok then b.(content := b.content + [TextItem(text)]) else b
    case Failed(message, ok) => b.(isError := true, error := if ok then Some(message) else None)
  }

  lemma {:induction false} LastErrorCons(c: Call, calls: seq<Call>)
    ensures LastError([c] + calls) == if LastError(calls).Some? then LastError(calls) else LastError([c])
    decreases |calls|
  {
    var all := [c] + calls;
    if calls != [] {
      assert all[|all| - 1] == calls[|calls| - 1];
      assert all[..|all| - 1] == [c] + calls[..|calls| - 1];
      LastErrorCons(c, calls[..|calls| - 1]);
    } else {
      assert all == [c];
    }
  }

  lemma FollowsCons(b: Built, c: Call, calls: seq<Call>, built: Built)
    requires Follows(After(b, c), calls, built)
    ensures Follows(b, [c] + calls, built)
  {
    hide ProtocolLaws.Extends;
    LastErrorCons(c, calls);
    assert [c][..0] == [];
    assert ([c] + calls)[1..] == calls;
    if c.Said? && c.ok {
      ProtocolLaws.ExtendsWith(b.content, c.text, Accepted(calls), built.content);
    } else {
      assert [] + Accepted(calls) == Accepted(calls);
    }
  }

  /** What a client reads in the content is exactly the texts whose add_text call reported success, in
      order; the response is an error exactly when set_error was called, with the
      message of the last such call if that call got its memory. */
  lemma {:induction false} BuiltFromCalls(script: Script, b: Built, oks: seq<bool>)
    ensures Follows(b, Calls(script, oks), RunWith(script, b, oks).0)
    decreases script
  {
    var ok := oks == [] || oks[0];
    var rest := if oks == [] then [] else oks[1..];
    match script {
      case Return(_) =>
      case AddText(text, onOk, onOom) =>
        var next := if ok then onOk else onOom;
        BuiltFromCalls(next, After(b, Said(text, ok)), rest);
        FollowsCons(b, Said(text, ok), Calls(next, rest), RunWith(script, b, oks).0);
      case SetError(message, next) =>
        BuiltFromCalls(next, After(b, Failed(message, ok)), rest);
        FollowsCons(b, Failed(message, ok), Calls(next, rest), RunWith(script, b, oks).0);
    }
  }

  // ----- mcp_tool_response_t -----

  class Response {
    var content: Ptr
    var errorMsg: Option<Ptr>
    var isError: bool

    constructor (content: Ptr)
      ensures this.content == content && errorMsg == None && !isError
    {
      this.content, errorMsg, isError := content, None, false;
    }

    /** The forest is `before` and the trees of the response, which is as `b` says. */
    ghost predicate Holds(before: map<Ptr, Json>, forest: map<Ptr, Json>, b: Built)
      reads this
    {
      && isError == b.isError && (errorMsg.Some? <==> b.error.Some?)
      && content !in before && (errorMsg.Some? ==> errorMsg.value !in before && errorMsg.value != content)
      && forest == WithError(before[content := Arr(b.content)], errorMsg, b.error)
    }

    /** mcp_tool_response_add_text. */
    method AddText(heap: Heap, text: string, ghost before: map<Ptr, Json>, ghost b: Built) returns (ok: bool)
      requires heap.Valid() && Holds(before, heap.forest, b)
      modifies heap`clock, heap`failures, heap`next, heap`forest
      ensures heap.Valid()
      ensures Holds(before, heap.forest, if ok then b.(content := b.content + [TextItem(text)]) else b)
      ensures ok ==>
        var v := heap.forest[content];
        v.Arr? && v.items != [] && ShowsText(v.items[|v.items| - 1], text)
      ensures heap.failures >= old(heap.failures) && (ok <==> heap.failures == old(heap.failures))
    {
      hide TextItem, ShowsText;
      ProtocolLaws.TextItemShows(text);
      ghost var was := heap.forest;
      var item := MakeTextItem(heap, text);
      if item == None {
        return false;
      }
      ok := heap.AddItemToArray(Ref(content, []), item.value, false);
      if ok {
        TextJoins(before, content, errorMsg, b, was, heap.forest, item.value, text);
      } else {
        heap.Delete(item);
      }
    }

    /** mcp_tool_response_set_error; the flag is set even when the copy fails. */
    method SetError(heap: Heap, message: string, ghost before: map<Ptr, Json>, ghost b: Built) returns (ghost ok: bool)
      requires heap.Valid() && Holds(before, heap.forest, b)
      modifies this`isError, this`errorMsg, heap`clock, heap`failures, heap`next, heap`forest
      ensures heap.Valid()
      ensures Holds(before, heap.forest, b.(isError := true, error := if ok then Some(message) else None))
      ensures heap.failures == old(heap.failures) + if ok then 0 else 1
    {
      isError := true;
      heap.Delete(errorMsg);
      assert heap.forest == before[content := Arr(b.content)];
      errorMsg := heap.Create(Str(message));
      ok := errorMsg.Some?;
    }

    /** A handler at work. */
    method Run(heap: Heap, script: Script, ghost before: map<Ptr, Json>, ghost b: Built)
      returns (rc: int, ghost oks: seq<bool>)
      requires heap.Valid() && Holds(before, heap.forest, b)
      modifies this`isError, this`errorMsg, heap`clock, heap`failures, heap`next, heap`forest
      ensures heap.Valid() && Holds(before, heap.forest, RunWith(script, b, oks).0)
      ensures rc == RunWith(script, b, oks).1
      ensures heap.failures >= old(heap.failures) && (AllTrue(oks) <==> heap.failures == old(heap.failures))
      decreases script
    {
      match script {
        case Return(code) => return code, [];
        case AddText(text, onOk, onOom) =>
          var ok := AddText(heap, text, before, b);
          ghost var rest;
          if ok {
            rc, rest := Run(heap, onOk, before, b.(content := b.content + [TextItem(text)]));
          } else {
            rc, rest := Run(heap, onOom, before, b);
          }
          oks := [ok] + rest;
        case SetError(message, next) =>
          ghost var ok := SetError(heap, message, before, b);
          ghost var rest;
          rc, rest := Run(heap, next, before, b.(isError := true, error := if ok then Some(message) else None));
          oks := [ok] + rest;
      }
    }
  }

  function WithError(forest: map<Ptr, Json>, p: Option<Ptr>, error: Option<string>): map<Ptr, Json> {
    if p.Some? && error.Some? then forest[p.value := Str(error.value)] else forest
  }

  lemma TextJoins(before: map<Ptr, Json>, content: Ptr, e: Option<Ptr>, b: Built,
                  was: map<Ptr, Json>, now: map<Ptr, Json>, item: Ptr, text: string)
    requires content !in before && (e.Some? ==> e.value !in before && e.value != content)
    requires (e.Some? <==> b.error.Some?) && was == WithError(before[content := Arr(b.content)], e, b.error)
    requires item !in was
    requires now == (was[item := TextItem(text)] - {item})[content := Arr(b.content + [TextItem(text)])]
    ensures now == WithError(before[content := Arr(b.content + [TextItem(text)])], e, b.error)
  {
  }

  /** The text object of an add_text, and of the error item of tools/call. */
  method MakeTextItem(heap: Heap, text: string) returns (r: Option<Ptr>)
    requires heap.Valid()
    modifies heap`clock, heap`failures, heap`next, heap`forest
    ensures heap.Valid() && Made(old(heap.forest), heap.forest, r, TextItem(text))
    ensures r.Some? ==> ShowsText(heap.forest[r.value], text)
    ensures heap.failures >= old(heap.failures) && (r.Some? <==> heap.failures == old(heap.failures))
  {
    ProtocolLaws.TextItemShows(text);
    hide ShowsText;
    ghost var before := heap.forest;
    r := heap.Create(Obj([]));
    if r == None {
      return None;
    }
    ghost var v1 := Obj([Field("type", Str("text"))]);
    assert Grown(Obj([]), [], "type", Str("text")) == v1;
    assert Grown(v1, [], "text", Str(text)) == TextItem(text);
    var ok := AddMember(heap, r.value, [], "type", Str("text"), before, Obj([]));
    if ok {
      ok := AddMember(heap, r.value, [], "text", Str(text), before, v1);
    }
    if !ok {
      heap.Delete(r);
      return None;
    }
  }
}
