/** The stdio transport (src/mcp_stdio.c): one message a line in, one reply a
    line out, dispatched in order. */
module Stdio {
  import opened Json
  import opened CStrings
  import opened Heap
  import opened Protocol
  import opened ProtocolLaws
  import R = Replies
  import Dispatcher
  import Registry
  import SessionId

  // ----- lines -----

  /** What getline takes: up to and including the first newline, or the rest. */
  function LineLength(s: string): (n: nat)
    ensures n <= |s| && (s != "" ==> n > 0)
  {
    var n := IndexOf(s, '\n');
    if n < |s| then n + 1 else n
  }

  function InputLines(s: string): seq<string>
    decreases |s|
  {
    if s == "" then [] else [s[..LineLength(s)]] + InputLines(s[LineLength(s)..])
  }

  function Trim(s: string): string {
    if s != "" && (s[|s| - 1] == '\n' || s[|s| - 1] == '\r') then Trim(s[..|s| - 1]) else s
  }

  /** The trimming loop, which writes a NUL over every byte it takes off. */
  method TrimLine(line: array<char>, length: nat) returns (n: nat)
    requires length < line.Length
    modifies line
    ensures n <= length && line[..n] == Trim(old(line[..length]))
    ensures n < length ==> line[n] == '\0'
  {
    n := length;
    while n > 0 && (line[n - 1] == '\n' || line[n - 1] == '\r')
      invariant n <= length && line[..n] == old(line[..n])
      invariant Trim(line[..n]) == Trim(old(line[..length]))
      invariant n < length ==> line[n] == '\0'
    {
      n := n - 1;
      assert line[..n + 1][..n] == line[..n];
      line[n] := '\0';
    }
  }

  // ----- what the loop says, as a function -----

  function ParseErrorReply(): Json { ErrorReply(None, PARSE_ERROR, "parse error") }

  /** What a line stands for once trimmed; blank lines stand for nothing. */
  datatype Item = Message(msg: Json) | Garbage

  function Items(lines: seq<string>, parse: string -> Option<Json>): seq<Item> {
    if lines == [] then []
    else
      var t := Trim(lines[0]);
      var rest := Items(lines[1..], parse);
      if t == "" then rest
      else match parse(t)
        case Some(m) => [Message(m)] + rest
        case None => [Garbage] + rest
  }

  /** The replies to these items in turn, and the server after them. */
  function Serve(srv: Server, items: seq<Item>): (Server, seq<Json>)
    decreases |items|
  {
    if items == [] then (srv, [])
    else match items[0]
      case Garbage =>
        var (last, replies) := Serve(srv, items[1..]);
        (last, [ParseErrorReply()] + replies)
      case Message(msg) =>
        var out := Handle(srv, msg);
        var (last, replies) := Serve(out.server, items[1..]);
        (last, (match out.reply case Some(r) => [r] case None => []) + replies)
  }

  function MessagesOf(items: seq<Item>): seq<Json> {
    if items == [] then []
    else (match items[0] case Message(m) => [m] case Garbage => []) + MessagesOf(items[1..])
  }

  /** Lines that do not parse leave the state alone: the server ends where a run
      over the messages alone ends. */
  lemma {:induction false} ServeEndsAsRun(srv: Server, items: seq<Item>)
    ensures Serve(srv, items).0 == Final(srv, MessagesOf(items))
    decreases |items|
  {
    if items != [] {
      match items[0] {
        case Garbage =>
          ServeEndsAsRun(srv, items[1..]);
          assert MessagesOf(items) == MessagesOf(items[1..]);
        case Message(msg) =>
          ServeEndsAsRun(Handle(srv, msg).server, items[1..]);
          assert MessagesOf(items)[1..] == MessagesOf(items[1..]);
      }
    }
  }

  /** When every line parses, the loop is a fold of the dispatcher. */
  lemma {:induction false} ServeIsRun(srv: Server, items: seq<Item>)
    requires forall i :: 0 <= i < |items| ==> items[i].Message?
    ensures Serve(srv, items).1 == Replies(Run(srv, MessagesOf(items)))
    decreases |items|
  {
    if items != [] {
      assert items[0].Message?;
      var out := Handle(srv, items[0].msg);
      ServeIsRun(out.server, items[1..]);
      assert MessagesOf(items)[1..] == MessagesOf(items[1..]);
      assert Run(srv, MessagesOf(items))[1..] == Run(out.server, MessagesOf(items[1..]));
    }
  }

  function Printed(replies: seq<Json>, render: Json -> string): string {
    if replies == [] then "" else render(replies[0]) + "\n" + Printed(replies[1..], render)
  }

  function Rendered(replies: seq<Json>, render: Json -> string): seq<string> {
    if replies == [] then [] else [render(replies[0])] + Rendered(replies[1..], render)
  }

  /** Compact printing puts no newline in a text. */
  ghost predicate Compact(render: Json -> string) { forall j :: '\n' !in render(j) }

  /** Cutting the output at its newlines gives back the list of replies. */
  lemma {:induction false} SplitRecovers(replies: seq<Json>, render: Json -> string)
    requires Compact(render)
    ensures SessionId.Split(Printed(replies, render), '\n') == Rendered(replies, render) + [""]
  {
    hide Compact, SessionId.Split;
    if replies != [] {
      SplitRecovers(replies[1..], render);
      CompactText(render, replies[0]);
      SplitCons(render(replies[0]), Printed(replies[1..], render));
    } else {
      SplitNothing();
    }
  }

  lemma CompactText(render: Json -> string, j: Json)
    requires Compact(render)
    ensures '\n' !in render(j)
  {
  }

  lemma SplitNothing()
    ensures SessionId.Split("", '\n') == [""]
  {
  }

  lemma SplitCons(line: string, rest: string)
    requires '\n' !in line
    ensures SessionId.Split(line + "\n" + rest, '\n') == [line] + SessionId.Split(rest, '\n')
  {
    var s := line + "\n" + rest;
    SessionId.IndexAfter(line, '\n', rest);
    assert s[..|line|] == line && s[|line| + 1..] == rest;
  }

  // ----- stdin and stdout -----

  /** What a write that fails leaves of a text. */
  function Left(s: string, k: nat): string { if k <= |s| then s[..k] else s }

  /** What the three calls that write a line leave of it, the first of them being
      the call after number c; how many calls were made; and whether all went well. */
  function LineLeft(fails: nat -> bool, taken: nat -> nat, c: nat, text: string): (string, nat, bool) {
    if fails(c + 1) then (Left(text, taken(c + 1)), c + 1, false)
    else if fails(c + 2) then (text + Left("\n", taken(c + 2)), c + 2, false)
    else (text + "\n", c + 3, !fails(c + 3))
  }

  /** It is the line or a part of it from the start. */
  lemma LineLeftIsPrefix(fails: nat -> bool, taken: nat -> nat, c: nat, text: string)
    ensures LineLeft(fails, taken, c, text).0 <= text + "\n"
    ensures LineLeft(fails, taken, c, text).2 ==> LineLeft(fails, taken, c, text).0 == text + "\n"
  {
    var line := text + "\n";
    assert Left(text, taken(c + 1)) == line[..|Left(text, taken(c + 1))|];
  }

  /** The two streams. Which reads and writes fail is decided by an arbitrary
      schedule; a write that fails may leave a part of its text behind. */
  class Terminal {
    const fails: nat -> bool
    const taken: nat -> nat
    var clock: nat
    ghost var faults: nat
    var input: string
    var output: string

    constructor (input: string, fails: nat -> bool, taken: nat -> nat)
      ensures this.input == input && this.fails == fails && this.taken == taken
      ensures output == "" && clock == 0 && faults == 0
    {
      this.input, this.fails, this.taken, clock, faults, output := input, fails, taken, 0, 0, "";
    }

    /** getline: -1 at the end of the input or on an error, which feof tells apart. */
    method GetLine() returns (n: int, line: array<char>, eof: bool)
      modifies this`clock, this`faults, this`input
      ensures fresh(line) && -1 <= n
      ensures n >= 0 ==>
        && n == LineLength(old(input)) > 0 && line.Length == n + 1 && line[..n] == old(input)[..n]
        && input == old(input)[n..] && faults == old(faults)
      ensures n < 0 ==> input == old(input) && (eof ==> input == "")
      ensures n < 0 ==> faults == old(faults) + if eof then 0 else 1
    {
      line := new char[1];
      if input == "" {
        return -1, line, true;
      }
      clock := clock + 1;
      if fails(clock) {
        faults := faults + 1;
        return -1, line, false;
      }
      n := LineLength(input);
      var text := input[..n];
      line := new char[n + 1](i => if 0 <= i < |text| then text[i] else '\0');
      input := input[n..];
      eof := false;
    }

    /** fputs, fputc and fflush. */
    method Put(s: string) returns (ok: bool)
      modifies this`clock, this`faults, this`output
      ensures clock == old(clock) + 1 && ok == !fails(old(clock) + 1)
      ensures output == old(output) + if ok then s else Left(s, taken(old(clock) + 1))
      ensures faults == old(faults) + if ok then 0 else 1
    {
      clock := clock + 1;
      ok := !fails(clock);
      output := output + if ok then s else Left(s, taken(clock));
      if !ok { faults := faults + 1; }
    }
  }

  /** write_message: the text is made, written and freed. A write that fails may
      leave a part of the line behind. */
  method WriteMessage(heap: Heap, term: Terminal, v: Json, render: Json -> string) returns (ok: bool)
    requires heap.Valid()
    modifies heap`clock, heap`failures, heap`next, heap`blocks, term`clock, term`faults, term`output
    ensures heap.Valid() && heap.blocks == old(heap.blocks)
    ensures heap.failures >= old(heap.failures) && term.faults >= old(term.faults)
    ensures ok <==> heap.failures == old(heap.failures) && term.faults == old(term.faults)
    ensures ok <==> !heap.fails(old(heap.clock)) && term.faults == old(term.faults)
    ensures if heap.fails(old(heap.clock)) then
        !ok && term.output == old(term.output) && term.clock == old(term.clock) && term.faults == old(term.faults)
      else
        var (left, clock, done) := LineLeft(term.fails, term.taken, old(term.clock), render(v));
        term.output == old(term.output) + left && term.clock == clock && ok == done
  {
    var text := heap.Malloc(Text(render(v)));
    if text == None {
      return false;
    }
    ok := WriteLine(term, render(v));
    heap.Free(text);
  }

  method WriteLine(term: Terminal, text: string) returns (ok: bool)
    modifies term`clock, term`faults, term`output
    ensures term.faults == old(term.faults) + if ok then 0 else 1
    ensures var (left, clock, done) := LineLeft(term.fails, term.taken, old(term.clock), text);
      term.output == old(term.output) + left && term.clock == clock && ok == done
  {
    ok := term.Put(text);
    if !ok {
      return;
    }
    ok := term.Put("\n");
    if !ok {
      return;
    }
    ok := term.Put("");
  }

  // ----- lines that do not parse -----

  /** Which of the adds to the parse error reply got their memory. */
  datatype Adds = Adds(version: bool, id: bool, error: bool, code: bool, message: bool)

  function IfAdded(ok: bool, f: Field): seq<Field> { if ok then [f] else [] }

  /** The reply that is written: every add that failed is simply missing. */
  function PartialReply(a: Adds): Json {
    Obj(IfAdded(a.version, Field("jsonrpc", Str("2.0")))
        + IfAdded(a.id, Field("id", Null))
        + IfAdded(a.error, Field("error", ErrorPart(a.code, a.message))))
  }

  function ErrorPart(code: bool, message: bool): Json {
    Obj(IfAdded(code, Field("code", Num(PARSE_ERROR as real))) + IfAdded(message, Field("message", Str("parse error"))))
  }

  lemma LookupReply(a: Adds, key: string)
    ensures var fields := PartialReply(a).fields;
      && Get(fields, key) ==
         (if a.version && key == "jsonrpc" then Some(Str("2.0")) else if a.id && key == "id" then Some(Null)
          else if a.error && key == "error" then Some(ErrorPart(a.code, a.message)) else None)
      && Occurrences(fields, key) ==
         (if a.version && key == "jsonrpc" then 1 else 0) + (if a.id && key == "id" then 1 else 0)
         + (if a.error && key == "error" then 1 else 0)
  {
    var jsonrpc, id := Field("jsonrpc", Str("2.0")), Field("id", Null);
    var error := Field("error", ErrorPart(a.code, a.message));
    LookupPart(a.version, jsonrpc, IfAdded(a.id, id) + IfAdded(a.error, error), key);
    LookupPart(a.id, id, IfAdded(a.error, error), key);
    LookupPart(a.error, error, [], key);
    assert PartialReply(a).fields == IfAdded(a.version, jsonrpc) + (IfAdded(a.id, id) + IfAdded(a.error, error));
    assert IfAdded(a.error, error) + [] == IfAdded(a.error, error);
  }

  lemma ErrorPartIs(code: bool, message: bool)
    ensures IsErrorObject(ErrorPart(code, message)) <==> code && message
  {
    var c, m := Field("code", Num(PARSE_ERROR as real)), Field("message", Str("parse error"));
    var e := ErrorPart(code, message);
    assert IfAdded(message, m) + [] == IfAdded(message, m);
    LookupPart(code, c, IfAdded(message, m), "code");
    LookupPart(message, m, [], "code");
    LookupPart(code, c, IfAdded(message, m), "message");
    LookupPart(message, m, [], "message");
    assert code ==> HasCode(e, PARSE_ERROR);
    assert message ==> Get(e.fields, "message") == Some(Str("parse error"));
  }

  /** The reply is a response object exactly when none is missing. */
  lemma PartialReplyConforms(a: Adds)
    requires !a.error ==> !a.code && !a.message
    ensures Conforms(PartialReply(a), None) <==> a == Adds(true, true, true, true, true)
  {
    LookupReply(a, "jsonrpc");
    LookupReply(a, "id");
    LookupReply(a, "error");
    LookupReply(a, "result");
    ErrorPartIs(a.code, a.message);
  }

  lemma WholeReply()
    ensures PartialReply(Adds(true, true, true, true, true)) == ParseErrorReply()
  {
    var code, message := Field("code", Num(PARSE_ERROR as real)), Field("message", Str("parse error"));
    assert [code] + [message] == [code, message];
    assert PartialReply(Adds(true, true, true, true, true)).fields == ParseErrorReply().fields;
  }

  lemma LookupPart(ok: bool, f: Field, rest: seq<Field>, key: string)
    ensures Get(IfAdded(ok, f) + rest, key) == if ok && f.key == key then Some(f.val) else Get(rest, key)
    ensures Occurrences(IfAdded(ok, f) + rest, key) == (if ok && f.key == key then 1 else 0) + Occurrences(rest, key)
  {
    if ok {
      assert ([f] + rest)[1..] == rest;
    } else {
      assert [] + rest == rest;
    }
  }

  /** The id of the parse error reply. When the node is made but cannot be added
      nothing frees it: it stays behind. */
  method AddNullId(heap: Heap, resp: Ptr, ghost before: map<Ptr, Json>, ghost fields: seq<Field>)
    returns (added: bool, ghost leak: Option<Ptr>)
    requires heap.Valid() && R.With(before, heap.forest, resp, Obj(fields))
    modifies heap`clock, heap`failures, heap`next, heap`forest
    ensures heap.Valid() && heap.failures == old(heap.failures) + if added then 0 else 1
    ensures leak.Some? ==> !added && leak.value !in before
    ensures R.With(WithLeak(before, leak), heap.forest, resp, Obj(fields + IfAdded(added, Field("id", Null))))
    ensures leak.Some? <==> !heap.fails(old(heap.clock)) && heap.fails(old(heap.clock) + 1)
    ensures added <==> !heap.fails(old(heap.clock)) && !heap.fails(old(heap.clock) + 1)
    ensures heap.clock == AfterId(heap.fails, old(heap.clock))
  {
    leak := None;
    added := false;
    var id := heap.Create(Null);
    if id.Some? {
      added := R.AddTree(heap, resp, [], "id", id.value, before, Obj(fields), Null);
      if !added { leak := id; }
    }
    assert fields + [] == fields;
  }

  /** The calls for the id: one that makes it and, if that succeeds, one that
      adds it. */
  function AfterId(fails: nat -> bool, c: nat): nat { if fails(c) then c + 1 else c + 2 }

  /** What the schedule leaves of the reply whose first call is number c. */
  function AddsFrom(fails: nat -> bool, c: nat): Adds {
    var e := AfterId(fails, c + 2);
    Adds(!fails(c + 1), !fails(c + 2) && !fails(c + 3),
         !fails(e), !fails(e) && !fails(e + 1), !fails(e) && !fails(e + 2))
  }

  /** The call that makes the text. */
  function PrintFrom(fails: nat -> bool, c: nat): nat {
    var e := AfterId(fails, c + 2);
    if fails(e) then e + 1 else e + 3
  }

  function WithLeak(forest: map<Ptr, Json>, leak: Option<Ptr>): map<Ptr, Json> {
    if leak.Some? then forest[leak.value := Null] else forest
  }

  /** The error object of the parse error reply, as far as memory goes. */
  method AddErrorPart(heap: Heap, resp: Ptr, ghost before: map<Ptr, Json>, ghost fields: seq<Field>)
    returns (ghost error: bool, ghost code: bool, ghost message: bool)
    requires heap.Valid() && R.With(before, heap.forest, resp, Obj(fields))
    modifies heap`clock, heap`failures, heap`forest
    ensures heap.Valid() && heap.failures >= old(heap.failures)
    ensures heap.failures == old(heap.failures) ==> error && code && message
    ensures var e := old(heap.clock);
      && error == !heap.fails(e) && code == (error && !heap.fails(e + 1)) && message == (error && !heap.fails(e + 2))
      && heap.clock == if error then e + 3 else e + 1
    ensures R.With(before, heap.forest, resp, Obj(fields + IfAdded(error, Field("error", ErrorPart(code, message)))))
  {
    error, code, message := false, false, false;
    var made, err := R.AddChild(heap, resp, [], "error", Obj([]), before, Obj(fields));
    if made {
      error := true;
      R.GrownLast(fields, "error", [], "code", Num(PARSE_ERROR as real));
      var ok := R.AddMember(heap, resp, err, "code", Num(PARSE_ERROR as real), before,
                               Obj(fields + [Field("error", Obj([]))]));
      code := ok;
      ghost var inner := IfAdded(code, Field("code", Num(PARSE_ERROR as real)));
      assert [] + inner == inner;
      R.GrownLast(fields, "error", inner, "message", Str("parse error"));
      ok := R.AddMember(heap, resp, err, "message", Str("parse error"), before,
                           Obj(fields + [Field("error", Obj(inner))]));
      message := ok;
      assert inner + [] == inner;
    } else {
      assert fields + [] == fields;
    }
  }

  /** What a turn of the loop puts on stdout: nothing, a line, or what is left of
      a line that could not be written. */
  datatype Put = Silence | Whole(reply: Json) | Broken(reply: Json, text: string)

  function PutText(put: Put, render: Json -> string): string {
    match put
    case Silence => ""
    case Whole(reply) => render(reply) + "\n"
    case Broken(_, text) => text
  }

  /** The answer to a line that does not parse, by both schedules: c is the clock
      of the heap and d that of the terminal. */
  function RefusalPut(fails: nat -> bool, c: nat, faulty: nat -> bool, taken: nat -> nat, d: nat,
                      render: Json -> string): Put
  {
    var reply := PartialReply(AddsFrom(fails, c));
    if fails(c) then Silence
    else if fails(PrintFrom(fails, c)) then Broken(reply, "")
    else
      var (left, _, done) := LineLeft(faulty, taken, d, render(reply));
      if done then Whole(reply) else Broken(reply, left)
  }

  /** The clock of the terminal after it. */
  function AfterRefusal(fails: nat -> bool, c: nat, faulty: nat -> bool, taken: nat -> nat, d: nat,
                        render: Json -> string): nat
  {
    if fails(c) || fails(PrintFrom(fails, c)) then d
    else LineLeft(faulty, taken, d, render(PartialReply(AddsFrom(fails, c)))).1
  }

  /** When one allocation alone fails, the kth after that of the reply itself, the
      text that goes out is a response exactly if all five members were made. */
  lemma OneFailure(fails: nat -> bool, c: nat, k: nat)
    requires 1 <= k && forall n :: fails(n) <==> n == c + k
    ensures Conforms(PartialReply(AddsFrom(fails, c)), None) <==> k > 6
  {
    PartialReplyConforms(AddsFrom(fails, c));
  }

  /** The answer to a line that does not parse. `made` says whether the object
      was there at all, `adds` what it holds, `leak` the node that is lost, `sent`
      whether the text went out. All of them follow from the schedule: the object
      is the first allocating call; a node is lost exactly when the null id is
      made, by the third, and adding it, the fourth, fails. */
  method SendParseError(heap: Heap, term: Terminal, render: Json -> string)
    returns (ghost made: bool, ghost adds: Adds, ghost leak: Option<Ptr>, ghost sent: bool)
    requires heap.Valid()
    modifies heap`clock, heap`failures, heap`next, heap`forest, heap`blocks, term`clock, term`faults, term`output
    ensures heap.Valid() && heap.blocks == old(heap.blocks)
    ensures heap.failures >= old(heap.failures) && term.faults >= old(term.faults)
    ensures heap.forest == WithLeak(old(heap.forest), leak) && (leak.Some? ==> leak.value !in old(heap.forest))
    ensures leak.Some? ==> heap.failures > old(heap.failures)
    ensures leak.Some? <==>
      var c := old(heap.clock); !heap.fails(c) && !heap.fails(c + 2) && heap.fails(c + 3)
    ensures made <==> !heap.fails(old(heap.clock))
    ensures made ==> adds == AddsFrom(heap.fails, old(heap.clock))
    ensures sent <==>
      made && !heap.fails(PrintFrom(heap.fails, old(heap.clock))) && term.faults == old(term.faults)
    ensures sent ==> term.output == old(term.output) + (render(PartialReply(adds)) + "\n")
    ensures var put := RefusalPut(heap.fails, old(heap.clock), term.fails, term.taken, old(term.clock), render);
      term.output == old(term.output) + PutText(put, render) && (sent <==> put.Whole?)
    ensures term.clock == AfterRefusal(heap.fails, old(heap.clock), term.fails, term.taken, old(term.clock), render)
    ensures heap.failures == old(heap.failures) ==> made && adds == Adds(true, true, true, true, true)
    ensures heap.failures == old(heap.failures) && term.faults == old(term.faults) ==> sent
  {
    hide AddsFrom, PartialReply;
    sent := false;
    var resp;
    resp, adds, leak := MakeParseError(heap);
    made := resp.Some?;
    if resp.Some? {
      LineLeftIsPrefix(term.fails, term.taken, term.clock, render(PartialReply(adds)));
      sent := WriteMessage(heap, term, heap.forest[resp.value], render);
      heap.Delete(resp);
    }
  }

  /** The object, with as much in it as memory allows. */
  method MakeParseError(heap: Heap) returns (resp: Option<Ptr>, ghost adds: Adds, ghost leak: Option<Ptr>)
    requires heap.Valid()
    modifies heap`clock, heap`failures, heap`next, heap`forest
    ensures heap.Valid() && heap.failures >= old(heap.failures) && (leak.Some? ==> leak.value !in old(heap.forest))
    ensures var c := old(heap.clock);
      && (leak.Some? <==> !heap.fails(c) && !heap.fails(c + 2) && heap.fails(c + 3))
      && (resp.Some? <==> !heap.fails(c))
      && (resp.Some? ==> adds == AddsFrom(heap.fails, c) && heap.clock == PrintFrom(heap.fails, c))
    ensures resp.Some? ==> R.With(WithLeak(old(heap.forest), leak), heap.forest, resp.value, PartialReply(adds))
    ensures resp == None ==> heap.forest == old(heap.forest) && heap.failures > old(heap.failures)
    ensures leak.Some? ==> heap.failures > old(heap.failures)
    ensures heap.failures == old(heap.failures) ==> adds == Adds(true, true, true, true, true)
  {
    adds, leak := Adds(false, false, false, false, false), None;
    ghost var before := heap.forest;
    resp := heap.Create(Obj([]));
    if resp == None {
      return;
    }
    var version := R.AddMember(heap, resp.value, [], "jsonrpc", Str("2.0"), before, Obj([]));
    ghost var f1 := IfAdded(version, Field("jsonrpc", Str("2.0")));
    assert [] + f1 == f1;
    var id;
    id, leak := AddNullId(heap, resp.value, before, f1);
    ghost var f2 := f1 + IfAdded(id, Field("id", Null));
    ghost var error, code, message := AddErrorPart(heap, resp.value, WithLeak(before, leak), f2);
    adds := Adds(version, id, error, code, message);
  }

  // ----- lines that do -----

  /** cJSON_ParseWithLength: NULL for bad text, and when memory runs out. */
  method ParseText(heap: Heap, text: string, parse: string -> Option<Json>) returns (r: Option<Ptr>)
    requires heap.Valid()
    modifies heap`clock, heap`failures, heap`next, heap`forest
    ensures heap.Valid() && heap.failures >= old(heap.failures)
    ensures r.Some? ==> parse(text).Some? && R.With(old(heap.forest), heap.forest, r.value, parse(text).value)
    ensures r == None ==> heap.forest == old(heap.forest)
    ensures heap.failures == old(heap.failures) ==> (r.Some? <==> parse(text).Some?)
    ensures parse(text) == None ==> heap.clock == old(heap.clock)
  {
    r := None;
    var v := parse(text);
    if v.Some? {
      r := heap.Create(v.value);
    }
  }

  /** A turn of the loop with a line that is not blank: the line is refused, or
      its message has this outcome. */
  datatype Turn = Refused(put: Put) | Served(msg: Json, out: Outcome, put: Put)

  /** What an outcome puts on stdout, should the write fail or not. */
  ghost predicate Answers(out: Outcome, put: Put, render: Json -> string) {
    && (put.Silence? <==> out.reply == None)
    && (!put.Silence? ==> out.reply == Some(put.reply))
    && PutOk(put, render)
  }

  ghost predicate PutOk(put: Put, render: Json -> string) {
    put.Broken? ==> put.text <= render(put.reply) + "\n"
  }

  /** No part of an error object that is not there. */
  predicate Coherent(a: Adds) { !a.error ==> !a.code && !a.message }

  ghost predicate Refusal(reply: Json) { exists a :: Coherent(a) && reply == PartialReply(a) }

  /** What a turn may do, under any failures, with a line and the server. */
  ghost predicate TurnOk(srv: Server, srv': Server, text: string, t: Turn, parse: string -> Option<Json>,
                         render: Json -> string)
  {
    match t
    case Refused(put) => srv' == srv && PutOk(put, render) && (!put.Silence? ==> Refusal(put.reply))
    case Served(msg, out, put) =>
      parse(text) == Some(msg) && Dispatcher.MayHandle(srv, msg, out) && srv' == out.server && Answers(out, put, render)
  }

  /** The reply of a dispatched message could not be written: the loop ends. */
  predicate Ends(t: Turn) { t.Served? && t.put.Broken? }

  lemma RefusalIsPut(fails: nat -> bool, c: nat, faulty: nat -> bool, taken: nat -> nat, d: nat, render: Json -> string)
    ensures var put := RefusalPut(fails, c, faulty, taken, d, render);
      PutOk(put, render) && (!put.Silence? ==> Refusal(put.reply))
  {
    LineLeftIsPrefix(faulty, taken, d, render(PartialReply(AddsFrom(fails, c))));
    assert Coherent(AddsFrom(fails, c));
  }

  function ReplyText(out: Outcome, render: Json -> string): string {
    match out.reply case Some(r) => render(r) + "\n" case None => ""
  }

  /** A message dispatched, freed, and its reply written and freed. */
  method ServeMessage(heap: Heap, srv: Registry.Server, term: Terminal, msg: Ptr, render: Json -> string)
    returns (ok: bool, ghost out: Outcome, ghost put: Put)
    requires srv.Ready(heap) && msg in heap.forest && msg !in Registry.TreesOf(srv.used)
    modifies srv`initialized, heap`clock, heap`failures, heap`next, heap`forest, heap`blocks,
             term`clock, term`faults, term`output
    ensures srv.Ready(heap) && heap.blocks == old(heap.blocks) && heap.forest == old(heap.forest) - {msg}
    ensures heap.failures >= old(heap.failures) && term.faults >= old(term.faults)
    ensures Dispatcher.MayHandle(old(srv.Model(heap)), old(heap.forest[msg]), out) && srv.Model(heap) == out.server
    ensures Answers(out, put, render) && term.output == old(term.output) + PutText(put, render)
    ensures ok <==> !put.Broken?
    ensures !ok ==> heap.failures > old(heap.failures) || term.faults > old(term.faults)
    ensures heap.failures == old(heap.failures) ==> out == Handle(old(srv.Model(heap)), old(heap.forest[msg]))
  {
    hide Registry.Sound, Registry.TreesOf, Registry.Tools, Handle, Dispatcher.MayHandle, Answers;
    var response;
    response, out := DispatchMessage(heap, srv, msg);
    ok, put := true, Silence;
    if response.Some? {
      ok, put := WriteReply(heap, srv, term, response.value, render);
    }
    AnswersWith(out, put, render);
  }

  lemma AnswersWith(out: Outcome, put: Put, render: Json -> string)
    ensures Answers(out, put, render) <==>
      if out.reply == None then put == Silence
      else !put.Silence? && put.reply == out.reply.value && PutOk(put, render)
  {}

  /** The message dispatched and freed: one new tree is there if it is answered. */
  method DispatchMessage(heap: Heap, srv: Registry.Server, msg: Ptr) returns (r: Option<Ptr>, ghost out: Outcome)
    requires srv.Ready(heap) && msg in heap.forest && msg !in Registry.TreesOf(srv.used)
    modifies srv`initialized, heap`clock, heap`failures, heap`next, heap`forest
    ensures srv.Ready(heap) && heap.failures >= old(heap.failures)
    ensures Dispatcher.MayHandle(old(srv.Model(heap)), old(heap.forest[msg]), out) && srv.Model(heap) == out.server
    ensures out.reply.Some? <==> r.Some?
    ensures match r
      case None => heap.forest == old(heap.forest) - {msg}
      case Some(p) =>
        && p !in old(heap.forest) && p !in Registry.TreesOf(srv.used)
        && heap.forest == (old(heap.forest) - {msg})[p := out.reply.value]
    ensures heap.failures == old(heap.failures) ==> out == Handle(old(srv.Model(heap)), old(heap.forest[msg]))
  {
    hide Registry.Sound, Registry.TreesOf, Registry.Tools, Handle, Dispatcher.MayReply;
    ghost var before := heap.forest;
    FreshReply(srv.Mem(), heap.blocks, before);
    ghost var ran;
    r, ran := Dispatcher.HandleMessage(heap, srv, heap.forest[msg]);
    out := Outcome(srv.Model(heap), if r.Some? then Some(heap.forest[r.value]) else None, ran);
    srv.DropTree(heap, msg);
  }

  /** The reply written, or a part of it, and freed. */
  method WriteReply(heap: Heap, srv: Registry.Server, term: Terminal, reply: Ptr, render: Json -> string)
    returns (ok: bool, ghost put: Put)
    requires srv.Ready(heap) && reply in heap.forest && reply !in Registry.TreesOf(srv.used)
    modifies heap`clock, heap`failures, heap`next, heap`forest, heap`blocks, term`clock, term`faults, term`output
    ensures srv.Ready(heap) && srv.Model(heap) == old(srv.Model(heap))
    ensures heap.blocks == old(heap.blocks) && heap.forest == old(heap.forest) - {reply}
    ensures heap.failures >= old(heap.failures) && term.faults >= old(term.faults)
    ensures !put.Silence? && put.reply == old(heap.forest[reply]) && PutOk(put, render)
    ensures term.output == old(term.output) + PutText(put, render)
    ensures ok <==> !put.Broken?
    ensures ok <==> heap.failures == old(heap.failures) && term.faults == old(term.faults)
  {
    hide Registry.Sound, Registry.TreesOf, Registry.Tools, LineLeft;
    ghost var v := heap.forest[reply];
    ghost var left := LineLeft(term.fails, term.taken, term.clock, render(v)).0;
    LineLeftIsPrefix(term.fails, term.taken, term.clock, render(v));
    ghost var lost := heap.fails(heap.clock);
    ok := WriteMessage(heap, term, heap.forest[reply], render);
    put := if ok then Whole(v) else Broken(v, if lost then "" else left);
    srv.DropTree(heap, reply);
  }

  lemma FreshReply(m: Registry.Memory, blocks: map<Ptr, Block>, before: map<Ptr, Json>)
    requires Registry.Sound(m, blocks, before)
    ensures forall p :: p !in before ==> p !in Registry.TreesOf(m.used)
  {
    Registry.OwnedIn(m.used, blocks, before);
  }

  // ----- the loop -----

  datatype Exit = Ok | Io

  /** The server and the output that are still to come: what the rest of the
      input leads to from here. */
  function Expected(srv: Server, input: string, output: string, parse: string -> Option<Json>,
                    render: Json -> string): (Server, string)
  {
    var (last, replies) := Serve(srv, Items(InputLines(input), parse));
    (last, output + Printed(replies, render))
  }

  lemma ExpectedStep(srv: Server, input: string, output: string, parse: string -> Option<Json>, render: Json -> string)
    requires input != ""
    ensures var line, rest := Trim(input[..LineLength(input)]), input[LineLength(input)..];
      Expected(srv, input, output, parse, render) ==
        if line == "" then Expected(srv, rest, output, parse, render)
        else match parse(line)
          case None => Expected(srv, rest, output + (render(ParseErrorReply()) + "\n"), parse, render)
          case Some(msg) =>
            var out := Handle(srv, msg);
            Expected(out.server, rest, output + ReplyText(out, render), parse, render)
  {
    hide ParseErrorReply, Handle, Trim;
    var line, rest := Trim(input[..LineLength(input)]), input[LineLength(input)..];
    var items := Items(InputLines(rest), parse);
    assert InputLines(input)[1..] == InputLines(rest);
    if line != "" {
      match parse(line) {
        case None =>
          assert Items(InputLines(input), parse) == [Garbage] + items;
          assert ([Garbage] + items)[1..] == items;
          PrintedCons(output, ParseErrorReply(), Serve(srv, items).1, render);
        case Some(msg) =>
          var out := Handle(srv, msg);
          assert Items(InputLines(input), parse) == [Message(msg)] + items;
          assert ([Message(msg)] + items)[1..] == items;
          var replies := Serve(out.server, items).1;
          if out.reply.Some? {
            PrintedCons(output, out.reply.value, replies, render);
          } else {
            assert [] + replies == replies && output + "" == output;
          }
      }
    }
  }

  lemma PrintedCons(output: string, reply: Json, replies: seq<Json>, render: Json -> string)
    ensures output + Printed([reply] + replies, render) == output + (render(reply) + "\n") + Printed(replies, render)
  {
    assert ([reply] + replies)[1..] == replies;
  }

  /** `now` is `was` and the lost trees: single null nodes, at most n of them. */
  ghost predicate LostOnly(was: map<Ptr, Json>, now: map<Ptr, Json>, lost: set<Ptr>, n: int) {
    && now - lost == was && lost !! was.Keys && |lost| <= n
    && forall p :: p in lost ==> p in now && now[p] == Null
  }

  /** The lines that are not blank, without their ends. */
  function Texts(lines: seq<string>): seq<string> {
    if lines == [] then []
    else (if Trim(lines[0]) == "" then [] else [Trim(lines[0])]) + Texts(lines[1..])
  }

  lemma TextsStep(input: string)
    requires input != ""
    ensures var line, rest := Trim(input[..LineLength(input)]), input[LineLength(input)..];
      Texts(InputLines(input)) == (if line == "" then [] else [line]) + Texts(InputLines(rest))
  {
    hide Trim;
    assert InputLines(input)[1..] == InputLines(input[LineLength(input)..]);
  }

  function Written(turns: seq<Turn>, render: Json -> string): string {
    if turns == [] then "" else Written(turns[..|turns| - 1], render) + PutText(turns[|turns| - 1].put, render)
  }

  /** What the loop did: a turn for each of these texts, and the servers between
      the turns. */
  datatype Trace = Trace(turns: seq<Turn>, servers: seq<Server>)

  /** Turn by turn nothing but what TurnOk allows, and only the last turn may be
      one that ends the loop. */
  ghost predicate TraceOk(t: Trace, srv: Server, last: Server, texts: seq<string>, parse: string -> Option<Json>,
                          render: Json -> string)
  {
    && |t.turns| == |texts| && |t.servers| == |texts| + 1
    && t.servers[0] == srv && t.servers[|texts|] == last
    && (forall i :: 0 <= i < |texts| ==> TurnOk(t.servers[i], t.servers[i + 1], texts[i], t.turns[i], parse, render))
    && (forall i :: 0 <= i < |texts| - 1 ==> !Ends(t.turns[i]))
  }

  lemma NoTurns(srv: Server, parse: string -> Option<Json>, render: Json -> string)
    ensures TraceOk(Trace([], [srv]), srv, srv, [], parse, render) && Written([], render) == ""
  {}

  lemma OneMoreTurn(t: Trace, srv: Server, mid: Server, last: Server, texts: seq<string>, text: string, turn: Turn,
                    parse: string -> Option<Json>, render: Json -> string)
    requires TraceOk(t, srv, mid, texts, parse, render) && TurnOk(mid, last, text, turn, parse, render)
    requires forall i :: 0 <= i < |t.turns| ==> !Ends(t.turns[i])
    ensures TraceOk(Trace(t.turns + [turn], t.servers + [last]), srv, last, texts + [text], parse, render)
    ensures Written(t.turns + [turn], render) == Written(t.turns, render) + PutText(turn.put, render)
  {
    hide TurnOk, Ends;
    var t' := Trace(t.turns + [turn], t.servers + [last]);
    assert t'.turns[..|t.turns|] == t.turns;
    forall i | 0 <= i <= |texts|
      ensures TurnOk(t'.servers[i], t'.servers[i + 1], (texts + [text])[i], t'.turns[i], parse, render)
    {
      if i < |texts| { assert TurnOk(t.servers[i], t.servers[i + 1], texts[i], t.turns[i], parse, render); }
    }
  }

  /** The loop so far, with `input` still to be read. */
  ghost predicate Sofar(t: Trace, first: Server, now: Server, lines: seq<string>, input: string, before: string,
                        output: string, parse: string -> Option<Json>, render: Json -> string)
  {
    var n := |t.turns|;
    && n <= |lines| && lines[n..] == Texts(InputLines(input))
    && TraceOk(t, first, now, lines[..n], parse, render) && output == before + Written(t.turns, render)
    && forall i :: 0 <= i < n ==> !Ends(t.turns[i])
  }

  /** The loop when it has ended, after a failed reply perhaps. */
  ghost predicate Ended(t: Trace, first: Server, now: Server, lines: seq<string>, before: string, output: string,
                        parse: string -> Option<Json>, render: Json -> string)
  {
    var n := |t.turns|;
    && n <= |lines| && TraceOk(t, first, now, lines[..n], parse, render)
    && output == before + Written(t.turns, render)
  }

  lemma SofarNothing(srv: Server, input: string, output: string, parse: string -> Option<Json>, render: Json -> string)
    ensures Sofar(Trace([], [srv]), srv, srv, Texts(InputLines(input)), input, output, output, parse, render)
  {
    NoTurns(srv, parse, render);
    var lines := Texts(InputLines(input));
    assert lines[0..] == lines && lines[..0] == [] && output + "" == output;
  }

  lemma SofarBlank(t: Trace, first: Server, now: Server, lines: seq<string>, input: string, before: string,
                   output: string, parse: string -> Option<Json>, render: Json -> string)
    requires Sofar(t, first, now, lines, input, before, output, parse, render)
    requires input != "" && Trim(input[..LineLength(input)]) == ""
    ensures Sofar(t, first, now, lines, input[LineLength(input)..], before, output, parse, render)
  {
    hide TraceOk, Texts, InputLines, Trim;
    TextsStep(input);
    assert [] + Texts(InputLines(input[LineLength(input)..])) == Texts(InputLines(input[LineLength(input)..]));
  }

  lemma SofarTurn(t: Trace, first: Server, mid: Server, now: Server, lines: seq<string>, input: string,
                  before: string, output: string, turn: Turn, parse: string -> Option<Json>, render: Json -> string)
    requires Sofar(t, first, mid, lines, input, before, output, parse, render)
    requires input != "" && Trim(input[..LineLength(input)]) != ""
    requires TurnOk(mid, now, Trim(input[..LineLength(input)]), turn, parse, render)
    ensures var t', output' := Trace(t.turns + [turn], t.servers + [now]), output + PutText(turn.put, render);
      && Ended(t', first, now, lines, before, output', parse, render)
      && (!Ends(turn) ==> Sofar(t', first, now, lines, input[LineLength(input)..], before, output', parse, render))
  {
    hide TraceOk, Texts, InputLines, Trim, TurnOk, Ends, PutText, Written;
    var n, text, rest := |t.turns|, Trim(input[..LineLength(input)]), input[LineLength(input)..];
    TextsStep(input);
    OneMoreTurn(t, first, mid, now, lines[..n], text, turn, parse, render);
    assert lines[n..] == [text] + Texts(InputLines(rest));
    assert lines[n] == text && lines[..n] + [text] == lines[..n + 1] && lines[n + 1..] == lines[n..][1..];
    assert before + Written(t.turns, render) + PutText(turn.put, render)
        == before + (Written(t.turns, render) + PutText(turn.put, render));
  }

  /** At the end of the input every line has had its turn. */
  lemma SofarAll(t: Trace, first: Server, now: Server, lines: seq<string>, input: string, before: string,
                 output: string, parse: string -> Option<Json>, render: Json -> string)
    requires Sofar(t, first, now, lines, input, before, output, parse, render)
    ensures Ended(t, first, now, lines, before, output, parse, render)
    ensures forall i :: 0 <= i < |t.turns| ==> !Ends(t.turns[i])
    ensures input == "" ==> |t.turns| == |lines|
  {
    hide TraceOk;
  }

  /** mcp_server_run_stdio. Whatever fails, the output is what the turns put
      there, one for each line that is not blank, up to the first reply of a
      message that could not be written, which ends the run; all strings are freed,
      and all trees but the nodes in `lost`: single null nodes, no more of them than
      there were failed allocations. When nothing fails, the server and the output
      are those of the sequential specification, and the input is used up. */
  method RunStdio(heap: Heap, srv: Registry.Server, term: Terminal, parse: string -> Option<Json>,
                  render: Json -> string)
    returns (rc: Exit, ghost lost: set<Ptr>, ghost trace: Trace)
    requires srv.Ready(heap)
    modifies srv`initialized, heap`clock, heap`failures, heap`next, heap`forest, heap`blocks,
             term`clock, term`faults, term`output, term`input
    ensures srv.Ready(heap) && heap.blocks == old(heap.blocks)
    ensures LostOnly(old(heap.forest), heap.forest, lost, heap.failures - old(heap.failures))
    ensures heap.failures >= old(heap.failures) && term.faults >= old(term.faults)
    ensures var lines := Texts(InputLines(old(term.input)));
      && Ended(trace, old(srv.Model(heap)), srv.Model(heap), lines, old(term.output), term.output, parse, render)
      && (rc == Ok ==> |trace.turns| == |lines| && forall i :: 0 <= i < |lines| ==> !Ends(trace.turns[i]))
    ensures rc == Ok ==> term.input == ""
    ensures heap.failures == old(heap.failures) && term.faults == old(term.faults) ==> rc == Ok
    ensures heap.failures == old(heap.failures) && term.faults == old(term.faults) ==>
      var (last, replies) := Serve(old(srv.Model(heap)), Items(InputLines(old(term.input)), parse));
      srv.Model(heap) == last && term.output == old(term.output) + Printed(replies, render)
  {
    hide Registry.Sound, Registry.Tools, Handle, Expected, Serve, Items, LostOnly, Ended, Texts, InputLines, Ends;
    ExpectedStart(srv.Model(heap), term.input, term.output, parse, render);
    rc, lost, trace := ServeAll(heap, srv, term, parse, render);
  }

  /** The loop: every turn leads to what was expected before it. */
  method ServeAll(heap: Heap, srv: Registry.Server, term: Terminal, parse: string -> Option<Json>,
                  render: Json -> string) returns (rc: Exit, ghost lost: set<Ptr>, ghost trace: Trace)
    requires srv.Ready(heap)
    modifies srv`initialized, heap`clock, heap`failures, heap`next, heap`forest, heap`blocks,
             term`clock, term`faults, term`output, term`input
    ensures srv.Ready(heap) && heap.blocks == old(heap.blocks)
    ensures LostOnly(old(heap.forest), heap.forest, lost, heap.failures - old(heap.failures))
    ensures heap.failures >= old(heap.failures) && term.faults >= old(term.faults)
    ensures var lines := Texts(InputLines(old(term.input)));
      && Ended(trace, old(srv.Model(heap)), srv.Model(heap), lines, old(term.output), term.output, parse, render)
      && (rc == Ok ==> |trace.turns| == |lines| && forall i :: 0 <= i < |lines| ==> !Ends(trace.turns[i]))
    ensures rc == Ok ==> term.input == ""
    ensures heap.failures == old(heap.failures) && term.faults == old(term.faults) ==>
      && rc == Ok
      && (srv.Model(heap), term.output) == old(Expected(srv.Model(heap), term.input, term.output, parse, render))
  {
    hide Registry.Server.Valid, Handle, Expected, Serve, Items, Trim, LostOnly, LineLength;
    hide Sofar, Ended, TurnOk, Texts, InputLines, Ends, PutText;
    NoneLost(heap.forest);
    ghost var goal := Expected(srv.Model(heap), term.input, term.output, parse, render);
    ghost var first, output, lines := srv.Model(heap), term.output, Texts(InputLines(term.input));
    SofarNothing(first, term.input, output, parse, render);
    rc, lost, trace := Ok, {}, Trace([], [first]);
    ghost var forest, failures, faults := heap.forest, heap.failures, term.faults;
    while true
      invariant srv.Ready(heap) && heap.blocks == old(heap.blocks) && rc == Ok
      invariant LostOnly(forest, heap.forest, lost, heap.failures - failures)
      invariant heap.failures >= failures && term.faults >= faults
      invariant Sofar(trace, first, srv.Model(heap), lines, term.input, output, term.output, parse, render)
      invariant heap.failures == failures && term.faults == faults ==>
        Expected(srv.Model(heap), term.input, term.output, parse, render) == goal
      decreases |term.input|
    {
      ghost var model, input, written := srv.Model(heap), term.input, term.output;
      var n, line, eof := term.GetLine();
      if n < 0 {
        ExpectedEnd(srv.Model(heap), term.output, parse, render);
        SofarAll(trace, first, srv.Model(heap), lines, input, output, term.output, parse, render);
        return if eof then Ok else Io, lost, trace;
      }
      n := TrimLine(line, n);
      if n == 0 {
        ExpectedStep(model, input, term.output, parse, render);
        SofarBlank(trace, first, model, lines, input, output, written, parse, render);
        continue;
      }
      ghost var before, n0 := heap.forest, heap.failures - failures;
      ghost var gone, turn;
      var ok;
      ok, gone, turn := ServeTurn(heap, srv, term, line[..n], parse, render, input);
      MoreLost(forest, before, heap.forest, lost, gone, n0, heap.failures - failures - n0);
      SofarTurn(trace, first, model, srv.Model(heap), lines, input, output, written, turn, parse, render);
      lost := lost + gone;
      trace := Trace(trace.turns + [turn], trace.servers + [srv.Model(heap)]);
      if !ok {
        return Io, lost, trace;
      }
    }
  }

  /** One turn, with what it leaves to expect. `input` is what there was to read
      before the line was taken. */
  method ServeTurn(heap: Heap, srv: Registry.Server, term: Terminal, text: string,
                   parse: string -> Option<Json>, render: Json -> string, ghost input: string)
    returns (ok: bool, ghost gone: set<Ptr>, ghost turn: Turn)
    requires srv.Ready(heap) && input != "" && term.input == input[LineLength(input)..]
    requires text == Trim(input[..LineLength(input)]) && text != ""
    modifies srv`initialized, heap`clock, heap`failures, heap`next, heap`forest, heap`blocks,
             term`clock, term`faults, term`output
    ensures srv.Ready(heap) && heap.blocks == old(heap.blocks)
    ensures LostOnly(old(heap.forest), heap.forest, gone, heap.failures - old(heap.failures))
    ensures heap.failures >= old(heap.failures) && term.faults >= old(term.faults)
    ensures TurnOk(old(srv.Model(heap)), srv.Model(heap), text, turn, parse, render)
    ensures term.output == old(term.output) + PutText(turn.put, render) && (ok <==> !Ends(turn))
    ensures heap.failures == old(heap.failures) && term.faults == old(term.faults) ==>
      && ok
      && Expected(srv.Model(heap), term.input, term.output, parse, render)
         == old(Expected(srv.Model(heap), input, term.output, parse, render))
  {
    hide Registry.Server.Valid, Handle, Expected, Serve, Items, Trim, LostOnly, LineLength, ParseErrorReply;
    hide TurnOk, Ends, PutText;
    ExpectedStep(srv.Model(heap), input, term.output, parse, render);
    ok, gone, turn := ServeLine(heap, srv, term, text, parse, render);
  }

  lemma LostAtMost(was: map<Ptr, Json>, now: map<Ptr, Json>, lost: set<Ptr>, n: int, m: int)
    requires LostOnly(was, now, lost, n) && n <= m
    ensures LostOnly(was, now, lost, m)
  {}

  lemma NoneLost(forest: map<Ptr, Json>)
    ensures LostOnly(forest, forest, {}, 0)
  {}

  lemma MoreLost(was: map<Ptr, Json>, mid: map<Ptr, Json>, now: map<Ptr, Json>,
                 lost: set<Ptr>, gone: set<Ptr>, n: int, m: int)
    requires LostOnly(was, mid, lost, n) && LostOnly(mid, now, gone, m)
    ensures LostOnly(was, now, lost + gone, n + m)
  {
    assert forall p :: p in lost ==> p in now - gone;
    assert now - (lost + gone) == now - gone - lost;
    assert lost !! gone && |lost + gone| == |lost| + |gone|;
  }

  lemma ExpectedStart(srv: Server, input: string, output: string, parse: string -> Option<Json>, render: Json -> string)
    ensures var (last, replies) := Serve(srv, Items(InputLines(input), parse));
      Expected(srv, input, output, parse, render) == (last, output + Printed(replies, render))
  {
  }

  lemma ExpectedEnd(srv: Server, output: string, parse: string -> Option<Json>, render: Json -> string)
    ensures Expected(srv, "", output, parse, render) == (srv, output)
  {
    assert output + "" == output;
  }

  /** A line that does not parse: at most one node is lost. */
  method Refuse(heap: Heap, srv: Registry.Server, term: Terminal, render: Json -> string)
    returns (ghost gone: set<Ptr>, ghost put: Put)
    requires srv.Ready(heap)
    modifies heap`clock, heap`failures, heap`next, heap`forest, heap`blocks, term`clock, term`faults, term`output
    ensures srv.Ready(heap) && srv.Model(heap) == old(srv.Model(heap)) && heap.blocks == old(heap.blocks)
    ensures LostOnly(old(heap.forest), heap.forest, gone, heap.failures - old(heap.failures))
    ensures heap.failures >= old(heap.failures) && term.faults >= old(term.faults)
    ensures put == RefusalPut(heap.fails, old(heap.clock), term.fails, term.taken, old(term.clock), render)
    ensures term.output == old(term.output) + PutText(put, render)
    ensures term.clock == AfterRefusal(heap.fails, old(heap.clock), term.fails, term.taken, old(term.clock), render)
    ensures heap.failures == old(heap.failures) && term.faults == old(term.faults) ==>
      term.output == old(term.output) + (render(ParseErrorReply()) + "\n")
  {
    hide Registry.Sound, Registry.TreesOf, Registry.Tools, ParseErrorReply, PartialReply, RefusalPut, AfterRefusal;
    ghost var m, blocks, forest := srv.Mem(), heap.blocks, heap.forest;
    put := RefusalPut(heap.fails, heap.clock, term.fails, term.taken, term.clock, render);
    ghost var made, adds, leak, sent := SendParseError(heap, term, render);
    WholeReply();
    gone := Opt(leak);
    if leak.Some? { Registry.Come(m, blocks, forest, heap.forest, leak.value, Null); }
  }

  /** One line that is not blank. Only the reply of a message that cannot be
      written ends the loop; what answers a line that does not parse follows from
      the two schedules. */
  method ServeLine(heap: Heap, srv: Registry.Server, term: Terminal, text: string,
                   parse: string -> Option<Json>, render: Json -> string)
    returns (ok: bool, ghost gone: set<Ptr>, ghost turn: Turn)
    requires srv.Ready(heap)
    modifies srv`initialized, heap`clock, heap`failures, heap`next, heap`forest, heap`blocks,
             term`clock, term`faults, term`output
    ensures srv.Ready(heap) && heap.blocks == old(heap.blocks)
    ensures LostOnly(old(heap.forest), heap.forest, gone, heap.failures - old(heap.failures))
    ensures heap.failures >= old(heap.failures) && term.faults >= old(term.faults)
    ensures TurnOk(old(srv.Model(heap)), srv.Model(heap), text, turn, parse, render)
    ensures term.output == old(term.output) + PutText(turn.put, render) && (ok <==> !Ends(turn))
    ensures turn.Refused? && parse(text).Some? ==> heap.failures > old(heap.failures)
    ensures parse(text) == None ==>
      && turn == Refused(RefusalPut(heap.fails, old(heap.clock), term.fails, term.taken, old(term.clock), render))
      && term.clock == AfterRefusal(heap.fails, old(heap.clock), term.fails, term.taken, old(term.clock), render)
    ensures heap.failures == old(heap.failures) && term.faults == old(term.faults) ==> ok
    ensures heap.failures == old(heap.failures) && term.faults == old(term.faults) ==>
      match parse(text)
      case None =>
        srv.Model(heap) == old(srv.Model(heap)) && term.output == old(term.output) + (render(ParseErrorReply()) + "\n")
      case Some(msg) =>
        var out := Handle(old(srv.Model(heap)), msg);
        srv.Model(heap) == out.server && term.output == old(term.output) + ReplyText(out, render)
  {
    hide Registry.Sound, Registry.TreesOf, Registry.Tools, Handle, ParseErrorReply, PartialReply;
    hide RefusalPut, AfterRefusal, Dispatcher.MayHandle, Refusal;
    hide LostOnly;
    ghost var m, blocks, forest, failures := srv.Mem(), heap.blocks, heap.forest, heap.failures;
    ok, gone := true, {};
    var msg := ParseText(heap, text, parse);
    if msg == None {
      RefusalIsPut(heap.fails, heap.clock, term.fails, term.taken, term.clock, render);
      ghost var put, mid := Silence, heap.failures;
      gone, put := Refuse(heap, srv, term, render);
      LostAtMost(forest, heap.forest, gone, heap.failures - mid, heap.failures - failures);
      turn := Refused(put);
    } else {
      Registry.Come(m, blocks, forest, heap.forest, msg.value, parse(text).value);
      ghost var out, put;
      ok, out, put := ServeMessage(heap, srv, term, msg.value, render);
      turn := Served(parse(text).value, out, put);
      NoneLost(forest);
      LostAtMost(forest, heap.forest, {}, 0, heap.failures - failures);
    }
  }
}
