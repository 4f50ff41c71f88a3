/** The tool registry (src/mcp_server.c:7-156): an array of tools that grows by
    doubling, every string and schema of which the server owns. */
module Registry {
  import opened Json
  import opened Heap
  import opened Protocol
  import ProtocolLaws

  datatype Code = Ok | Duplicate | Parse | Oom

  /** mcp_tool_t; all zero when a field is None. */
  datatype Slot = Slot(name: Option<Ptr>, title: Option<Ptr>, description: Option<Ptr>, schema: Option<Ptr>,
                       handler: Json -> Script)

  const ZERO := Slot(None, None, None, None, _ => Return(0))

  // ----- what a run of slots owns -----

  function SlotBlocks(s: Slot): set<Ptr> { Opt(s.name) + Opt(s.title) + Opt(s.description) }

  function BlocksOf(ss: seq<Slot>): set<Ptr> {
    if ss == [] then {} else BlocksOf(ss[..|ss| - 1]) + SlotBlocks(ss[|ss| - 1])
  }

  function TreesOf(ss: seq<Slot>): set<Ptr> {
    if ss == [] then {} else TreesOf(ss[..|ss| - 1]) + Opt(ss[|ss| - 1].schema)
  }

  predicate Differ(p: Option<Ptr>, q: Option<Ptr>) { p.Some? ==> p != q }

  predicate OwnNames(s: Slot) {
    Differ(s.name, s.title) && Differ(s.name, s.description) && Differ(s.title, s.description)
  }

  /** No block and no tree belongs to two fields. */
  predicate Separate(ss: seq<Slot>) {
    ss == [] ||
    var init, last := ss[..|ss| - 1], ss[|ss| - 1];
    && Separate(init) && OwnNames(last)
    && SlotBlocks(last) !! BlocksOf(init) && Opt(last.schema) !! TreesOf(init)
  }

  predicate IsText(blocks: map<Ptr, Block>, p: Ptr) { p in blocks && blocks[p].Text? }

  predicate IsTextOrNull(blocks: map<Ptr, Block>, p: Option<Ptr>) { p.Some? ==> IsText(blocks, p.value) }

  /** A slot in use. */
  predicate Live(s: Slot, blocks: map<Ptr, Block>, forest: map<Ptr, Json>) {
    && s.name.Some? && IsTextOrNull(blocks, s.name)
    && IsTextOrNull(blocks, s.title) && IsTextOrNull(blocks, s.description)
    && s.schema.Some? && s.schema.value in forest
  }

  predicate AllLive(ss: seq<Slot>, blocks: map<Ptr, Block>, forest: map<Ptr, Json>) {
    forall i :: 0 <= i < |ss| ==> Live(ss[i], blocks, forest)
  }

  function TextAt(blocks: map<Ptr, Block>, p: Option<Ptr>): Option<string>
    requires IsTextOrNull(blocks, p)
  {
    if p.Some? then Some(blocks[p.value].s) else None
  }

  function ToolAt(s: Slot, blocks: map<Ptr, Block>, forest: map<Ptr, Json>): Tool
    requires Live(s, blocks, forest)
  {
    Tool(blocks[s.name.value].s, TextAt(blocks, s.title), TextAt(blocks, s.description),
         forest[s.schema.value], s.handler)
  }

  function Tools(ss: seq<Slot>, blocks: map<Ptr, Block>, forest: map<Ptr, Json>): seq<Tool>
    requires AllLive(ss, blocks, forest)
  {
    seq(|ss|, i requires 0 <= i < |ss| => ToolAt(ss[i], blocks, forest))
  }

  lemma {:induction false} SlotApart(ss: seq<Slot>, i: nat)
    requires Separate(ss) && i < |ss|
    ensures Separate(ss[..i]) && OwnNames(ss[i])
    ensures SlotBlocks(ss[i]) !! BlocksOf(ss[..i]) && Opt(ss[i].schema) !! TreesOf(ss[..i])
    ensures ss[..i + 1][..i] == ss[..i]
    ensures BlocksOf(ss[..i + 1]) == BlocksOf(ss[..i]) + SlotBlocks(ss[i])
    ensures TreesOf(ss[..i + 1]) == TreesOf(ss[..i]) + Opt(ss[i].schema)
    decreases |ss|
  {
    assert ss[..i + 1][..i] == ss[..i];
    if i < |ss| - 1 {
      var init := ss[..|ss| - 1];
      SlotApart(init, i);
      assert init[..i] == ss[..i] && init[..i + 1] == ss[..i + 1];
    } else {
      assert ss[..i + 1] == ss;
    }
  }

  lemma Snoc(ss: seq<Slot>, s: Slot)
    ensures BlocksOf(ss + [s]) == BlocksOf(ss) + SlotBlocks(s) && TreesOf(ss + [s]) == TreesOf(ss) + Opt(s.schema)
    ensures Separate(ss + [s]) <==>
      Separate(ss) && OwnNames(s) && SlotBlocks(s) !! BlocksOf(ss) && Opt(s.schema) !! TreesOf(ss)
  {
    assert (ss + [s])[..|ss|] == ss;
  }

  lemma {:induction false} OwnedIn(ss: seq<Slot>, blocks: map<Ptr, Block>, forest: map<Ptr, Json>)
    requires AllLive(ss, blocks, forest)
    ensures BlocksOf(ss) <= blocks.Keys && TreesOf(ss) <= forest.Keys
  {
    if ss != [] {
      OwnedIn(ss[..|ss| - 1], blocks, forest);
      assert Live(ss[|ss| - 1], blocks, forest);
    }
  }

  // ----- capacity -----

  /** 4 times 2 to the k. */
  function Doubled(k: nat): nat { if k == 0 then 4 else 2 * Doubled(k - 1) }

  ghost predicate IsCapacity(cap: nat) { cap == 0 || exists k: nat :: cap == Doubled(k) }

  lemma {:induction false} SameTools(ss: seq<Slot>, blocks: map<Ptr, Block>, forest: map<Ptr, Json>,
                    blocks': map<Ptr, Block>, forest': map<Ptr, Json>)
    requires AllLive(ss, blocks, forest)
    requires forall p :: p in BlocksOf(ss) ==> p in blocks && p in blocks' && blocks'[p] == blocks[p]
    requires forall p :: p in TreesOf(ss) ==> p in forest && p in forest' && forest'[p] == forest[p]
    ensures AllLive(ss, blocks', forest') && Tools(ss, blocks', forest') == Tools(ss, blocks, forest)
  {
    forall i | 0 <= i < |ss|
      ensures Live(ss[i], blocks', forest') && ToolAt(ss[i], blocks', forest') == ToolAt(ss[i], blocks, forest)
    {
      OwnedAt(ss, i);
    }
  }

  lemma {:induction false} OwnedAt(ss: seq<Slot>, i: nat)
    requires i < |ss|
    ensures SlotBlocks(ss[i]) <= BlocksOf(ss) && Opt(ss[i].schema) <= TreesOf(ss)
    decreases |ss|
  {
    if i < |ss| - 1 { OwnedAt(ss[..|ss| - 1], i); }
  }

  lemma {:induction false} FindIs(tools: seq<Tool>, name: string, i: nat)
    requires i <= |tools| && forall j :: 0 <= j < i ==> tools[j].name != name
    requires i < |tools| ==> tools[i].name == name
    ensures Find(tools, name) == if i < |tools| then Some(i) else None
  {
    FindSound(tools, name);
  }

  // ----- what the server owns -----

  /** The server's pointers: its own block, its two strings, the block of the
      slots, and the slots in use. */
  datatype Memory = Memory(self: Ptr, name: Option<Ptr>, version: Option<Ptr>, tools: Option<Ptr>, used: seq<Slot>)

  function Header(m: Memory): set<Ptr> { {m.self} + Opt(m.name) + Opt(m.version) }

  function OwnBlocks(m: Memory): set<Ptr> { Header(m) + Opt(m.tools) }

  /** Every pointer is alive and in one place only. */
  ghost predicate Sound(m: Memory, blocks: map<Ptr, Block>, forest: map<Ptr, Json>) {
    && Separate(m.used) && AllLive(m.used, blocks, forest)
    && OwnBlocks(m) !! BlocksOf(m.used) && OwnBlocks(m) <= blocks.Keys
    && Differ(m.name, m.version) && Differ(Some(m.self), m.name) && Differ(Some(m.self), m.version)
    && Header(m) !! Opt(m.tools)
    && IsTextOrNull(blocks, m.name) && IsTextOrNull(blocks, m.version)
  }

  /** What is in the ledger and not the server's. */
  function OtherBlocks(m: Memory, blocks: map<Ptr, Block>): map<Ptr, Block> {
    blocks - (OwnBlocks(m) + BlocksOf(m.used))
  }

  function OtherTrees(m: Memory, forest: map<Ptr, Json>): map<Ptr, Json> { forest - TreesOf(m.used) }

  /** The slots move to another block. */
  lemma Moved(m: Memory, nt: Option<Ptr>, b: Block,
              blocks: map<Ptr, Block>, blocks': map<Ptr, Block>, forest: map<Ptr, Json>)
    requires Sound(m, blocks, forest)
    requires nt.Some? && nt.value !in blocks && blocks' == (blocks - Opt(m.tools))[nt.value := b]
    ensures var m' := m.(tools := nt);
      && Sound(m', blocks', forest) && Tools(m.used, blocks', forest) == Tools(m.used, blocks, forest)
      && OtherBlocks(m', blocks') == OtherBlocks(m, blocks)
  {
    OwnedIn(m.used, blocks, forest);
    SameTools(m.used, blocks, forest, blocks', forest);
  }

  /** A slot whose strings are new joins the others. */
  lemma Joined(m: Memory, s: Slot, blocks: map<Ptr, Block>, blocks': map<Ptr, Block>, forest: map<Ptr, Json>)
    requires Sound(m, blocks, forest)
    requires OwnNames(s) && SlotBlocks(s) !! blocks.Keys && Opt(s.schema) !! TreesOf(m.used)
    requires Live(s, blocks', forest) && blocks' - SlotBlocks(s) == blocks
    ensures var m' := m.(used := m.used + [s]);
      && Sound(m', blocks', forest)
      && Tools(m'.used, blocks', forest) == Tools(m.used, blocks, forest) + [ToolAt(s, blocks', forest)]
      && OtherBlocks(m', blocks') == OtherBlocks(m, blocks)
      && OtherTrees(m', forest) == OtherTrees(m, forest) - {s.schema.value}
  {
    JoinedAlive(m, s, blocks, blocks', forest);
    hide Separate, AllLive, BlocksOf, TreesOf, ToolAt, Tools;
    Snoc(m.used, s);
    assert blocks' - (OwnBlocks(m) + BlocksOf(m.used + [s]))
        == blocks' - SlotBlocks(s) - (OwnBlocks(m) + BlocksOf(m.used));
  }

  lemma JoinedAlive(m: Memory, s: Slot, blocks: map<Ptr, Block>, blocks': map<Ptr, Block>, forest: map<Ptr, Json>)
    requires Sound(m, blocks, forest)
    requires OwnNames(s) && SlotBlocks(s) !! blocks.Keys && Opt(s.schema) !! TreesOf(m.used)
    requires Live(s, blocks', forest) && blocks' - SlotBlocks(s) == blocks
    ensures var m' := m.(used := m.used + [s]);
      && Sound(m', blocks', forest)
      && Tools(m'.used, blocks', forest) == Tools(m.used, blocks, forest) + [ToolAt(s, blocks', forest)]
  {
    hide BlocksOf, TreesOf, Separate;
    OwnedIn(m.used, blocks, forest);
    Kept(blocks, blocks', SlotBlocks(s));
    SameTools(m.used, blocks, forest, blocks', forest);
    Snoc(m.used, s);
  }

  lemma Kept(blocks: map<Ptr, Block>, blocks': map<Ptr, Block>, gone: set<Ptr>)
    requires blocks' - gone == blocks
    ensures forall p :: p in blocks ==> p in blocks' && blocks'[p] == blocks[p]
  {
    forall p | p in blocks ensures p in blocks' && blocks'[p] == blocks[p] {
      assert p in blocks' - gone;
    }
  }

  /** A tree that is no slot's goes; a new one comes. */
  lemma Gone(m: Memory, blocks: map<Ptr, Block>, forest: map<Ptr, Json>, forest': map<Ptr, Json>, p: Ptr)
    requires Sound(m, blocks, forest) && forest' == forest - {p} && p !in TreesOf(m.used)
    ensures Sound(m, blocks, forest') && Tools(m.used, blocks, forest') == Tools(m.used, blocks, forest)
    ensures OtherTrees(m, forest') == OtherTrees(m, forest) - {p}
  {
    OwnedIn(m.used, blocks, forest);
    SameTools(m.used, blocks, forest, blocks, forest');
  }

  lemma Come(m: Memory, blocks: map<Ptr, Block>, forest: map<Ptr, Json>, forest': map<Ptr, Json>, p: Ptr, v: Json)
    requires Sound(m, blocks, forest) && p !in forest && forest' == forest[p := v]
    ensures Sound(m, blocks, forest') && Tools(m.used, blocks, forest') == Tools(m.used, blocks, forest)
    ensures p !in TreesOf(m.used) && OtherTrees(m, forest') == OtherTrees(m, forest)[p := v]
  {
    OwnedIn(m.used, blocks, forest);
    SameTools(m.used, blocks, forest, blocks, forest');
  }

  lemma NothingOwned()
    ensures BlocksOf([]) == {} && TreesOf([]) == {}
  {
  }

  /** A server with no tools, whose three blocks are all that is new. */
  lemma Bare(m: Memory, was: map<Ptr, Block>, blocks: map<Ptr, Block>, forest: map<Ptr, Json>)
    requires m.used == [] && m.tools == None && blocks - Header(m) == was && Header(m) <= blocks.Keys
    requires Differ(m.name, m.version) && Differ(Some(m.self), m.name) && Differ(Some(m.self), m.version)
    requires IsTextOrNull(blocks, m.name) && IsTextOrNull(blocks, m.version)
    ensures Sound(m, blocks, forest) && Tools(m.used, blocks, forest) == []
    ensures OtherBlocks(m, blocks) == was && OtherTrees(m, forest) == forest
  {
    assert OtherBlocks(m, blocks) == blocks - Header(m);
  }

  /** The next slot to free still holds all its pointers. */
  lemma NextFreed(m: Memory, blocks: map<Ptr, Block>, forest: map<Ptr, Json>, i: nat)
    requires Sound(m, blocks, forest) && i < |m.used|
    ensures OwnNames(m.used[i])
    ensures SlotBlocks(m.used[i]) <= (blocks - BlocksOf(m.used[..i])).Keys
    ensures Opt(m.used[i].schema) <= (forest - TreesOf(m.used[..i])).Keys
    ensures blocks - BlocksOf(m.used[..i + 1]) == blocks - BlocksOf(m.used[..i]) - SlotBlocks(m.used[i])
    ensures forest - TreesOf(m.used[..i + 1]) == forest - TreesOf(m.used[..i]) - Opt(m.used[i].schema)
  {
    hide Separate, BlocksOf, TreesOf;
    SlotApart(m.used, i);
    assert Live(m.used[i], blocks, forest);
  }

  // ----- the strings and the schema of one tool -----

  /** xstrdup_or_null. */
  method DupOrNull(heap: Heap, s: Option<string>) returns (r: Option<Ptr>)
    requires heap.Valid()
    modifies heap`clock, heap`failures, heap`next, heap`blocks
    ensures heap.Valid()
    ensures r.Some? ==> s.Some? && r.value !in old(heap.blocks) && r.value !in heap.forest
    ensures r.Some? ==> heap.blocks == old(heap.blocks)[r.value := Text(s.value)]
    ensures r == None ==> heap.blocks == old(heap.blocks)
    ensures heap.failures == old(heap.failures) + if s.Some? && r == None then 1 else 0
  {
    if s == None {
      return None;
    }
    r := heap.Malloc(Text(s.value));
  }

  /** The three copies that mcp_server_add_tool makes. */
  method DupStrings(heap: Heap, name: string, title: Option<string>, description: Option<string>)
    returns (n: Option<Ptr>, t: Option<Ptr>, d: Option<Ptr>)
    requires heap.Valid()
    modifies heap`clock, heap`failures, heap`next, heap`blocks
    ensures heap.Valid()
    ensures Differ(n, t) && Differ(n, d) && Differ(t, d) && (Opt(n) + Opt(t) + Opt(d)) !! old(heap.blocks).Keys
    ensures heap.blocks - (Opt(n) + Opt(t) + Opt(d)) == old(heap.blocks)
    ensures IsTextOrNull(heap.blocks, n) && IsTextOrNull(heap.blocks, t) && IsTextOrNull(heap.blocks, d)
    ensures n.Some? ==> TextAt(heap.blocks, n) == Some(name)
    ensures (title.Some? ==> t.Some?) ==> TextAt(heap.blocks, t) == title
    ensures (description.Some? ==> d.Some?) ==> TextAt(heap.blocks, d) == description
    ensures heap.failures >= old(heap.failures)
    ensures heap.failures == old(heap.failures)
      <==> n.Some? && (title.Some? ==> t.Some?) && (description.Some? ==> d.Some?)
  {
    n := heap.Malloc(Text(name));
    t := DupOrNull(heap, title);
    d := DupOrNull(heap, description);
  }

  /** tool_free: every string and the schema; NULLs are allowed. */
  method FreeTool(heap: Heap, s: Slot)
    requires heap.Valid() && OwnNames(s) && SlotBlocks(s) <= heap.blocks.Keys && Opt(s.schema) <= heap.forest.Keys
    modifies heap`blocks, heap`forest
    ensures heap.Valid()
    ensures heap.blocks == old(heap.blocks) - SlotBlocks(s) && heap.forest == old(heap.forest) - Opt(s.schema)
  {
    heap.Free(s.name);
    heap.Free(s.title);
    heap.Free(s.description);
    heap.Delete(s.schema);
  }

  /** Copies the strings; when a copy fails, all that the slot holds is freed. */
  method MakeSlot(heap: Heap, name: string, title: Option<string>, description: Option<string>, schema: Ptr,
                  handler: Json -> Script) returns (slot: Option<Slot>)
    requires heap.Valid() && schema in heap.forest
    modifies heap`clock, heap`failures, heap`next, heap`blocks, heap`forest
    ensures heap.Valid()
    ensures slot == None ==> heap.blocks == old(heap.blocks) && heap.forest == old(heap.forest) - {schema}
    ensures slot.Some? ==>
      var s := slot.value;
      && heap.forest == old(heap.forest) && s.schema == Some(schema)
      && OwnNames(s) && SlotBlocks(s) !! old(heap.blocks).Keys && heap.blocks - SlotBlocks(s) == old(heap.blocks)
      && Live(s, heap.blocks, heap.forest)
      && ToolAt(s, heap.blocks, heap.forest) == Tool(name, title, description, heap.forest[schema], handler)
    ensures heap.failures >= old(heap.failures) && (slot.Some? <==> heap.failures == old(heap.failures))
  {
    var n, t, d := DupStrings(heap, name, title, description);
    var s := Slot(n, t, d, Some(schema), handler);
    if n == None || (title.Some? && t == None) || (description.Some? && d == None) {
      FreeTool(heap, s);
      return None;
    }
    return Some(s);
  }

  /** The schema a tool gets: its own, or the default one. */
  function SchemaOf(text: Option<string>, parse: string -> Option<Json>): Option<Json> {
    if text.Some? && text.value != "" then parse(text.value) else Some(Obj([Field("type", Str("object"))]))
  }

  /** Without a text of its own a tool takes any object; an own text is parsed. */
  lemma SchemaShows(text: Option<string>, parse: string -> Option<Json>)
    ensures text == None || text == Some("") ==>
      var s := SchemaOf(text, parse);
      s.Some? && s.value.Obj? && Get(s.value.fields, "type") == Some(Str("object")) && |s.value.fields| == 1
    ensures text.Some? && text.value != "" ==> SchemaOf(text, parse) == parse(text.value)
  {}

  method MakeSchema(heap: Heap, text: Option<string>, parse: string -> Option<Json>)
    returns (code: Code, schema: Option<Ptr>)
    requires heap.Valid()
    modifies heap`clock, heap`failures, heap`next, heap`forest
    ensures heap.Valid() && heap.failures >= old(heap.failures)
    ensures schema.Some? ==> code == Ok && SchemaOf(text, parse).Some? && schema.value !in old(heap.forest)
    ensures schema.Some? ==> heap.forest == old(heap.forest)[schema.value := SchemaOf(text, parse).value]
    ensures schema == None ==> heap.forest == old(heap.forest) && (code == Parse || code == Oom)
    ensures code == Oom ==> heap.failures > old(heap.failures)
    ensures SchemaOf(text, parse) == None ==> code == Parse
    ensures SchemaOf(text, parse).Some? ==> (schema.Some? <==> heap.failures == old(heap.failures))
  {
    if text.Some? && text.value != "" {
      var parsed := parse(text.value);
      if parsed == None {
        return Parse, None;
      }
      schema := heap.Create(parsed.value);
      return if schema == None then Parse else Ok, schema;
    }
    schema := heap.Create(Obj([]));
    if schema == None {
      return Oom, None;
    }
    var added := heap.AddNew(Ref(schema.value, []), "type", Str("object"));
    if added == None {
      heap.Delete(schema);
      return Oom, None;
    }
    assert [] + [Field("type", Str("object"))] == [Field("type", Str("object"))];
    return Ok, schema;
  }

  // ----- the server -----

  class Server {
    const self: Ptr               // the block that holds the structure
    var name: Option<Ptr>
    var version: Option<Ptr>
    var tools: Option<Ptr>        // the block that holds the slots
    var slots: array<Slot>        // its contents
    var count: nat
    var cap: nat
    var initialized: bool
    ghost var used: seq<Slot>     // the slots in use
    ghost var moved: nat          // how many slots reallocations have moved

    constructor (self: Ptr)
      ensures this.self == self && name == version == tools == None && count == cap == moved == 0
      ensures slots.Length == 0 && used == [] && !initialized && fresh(slots)
    {
      this.self, name, version, tools, count, cap, initialized := self, None, None, None, 0, 0, false;
      used, moved := [], 0;
      slots := new Slot[0](_ => ZERO);
    }

    ghost function Mem(): Memory
      reads this
    {
      Memory(self, name, version, tools, used)
    }

    /** The array and its bookkeeping. Reallocations have moved fewer slots in
        all than the array now has. */
    ghost predicate Shaped()
      reads this, slots
    {
      && cap == slots.Length && count <= cap && used == slots[..count]
      && IsCapacity(cap) && (tools == None <==> cap == 0) && (cap == 0 || cap >= 4)
      && moved <= (if cap == 0 then 0 else cap - 4)
    }

    ghost predicate Base(heap: Heap)
      reads this, slots, heap
    {
      heap.Valid() && Shaped() && Sound(Mem(), heap.blocks, heap.forest)
    }

    ghost predicate Valid(heap: Heap)
      reads this, slots, heap
    {
      Base(heap) && (cap <= 4 || cap <= 2 * count)
    }

    /** The registered tools. */
    ghost function View(heap: Heap): seq<Tool>
      requires Base(heap)
      reads this, slots, heap
    {
      Tools(used, heap.blocks, heap.forest)
    }

    /** Valid, and not half made. */
    ghost predicate Ready(heap: Heap)
      reads this, slots, heap
    {
      Valid(heap) && name.Some? && version.Some?
    }

    /** The server as a value. */
    ghost function Model(heap: Heap): Protocol.Server
      requires Ready(heap)
      reads this, slots, heap
    {
      Protocol.Server(heap.blocks[name.value].s, heap.blocks[version.value].s, View(heap), initialized)
    }

    /** mcp_server_find_tool. */
    method FindTool(heap: Heap, wanted: string) returns (r: Option<nat>)
      requires Base(heap)
      ensures r == Find(View(heap), wanted) && (r.Some? ==> r.value < count)
    {
      var i := 0;
      while i < count
        invariant 0 <= i <= count
        invariant forall j :: 0 <= j < i ==> View(heap)[j].name != wanted
      {
        assert Live(used[i], heap.blocks, heap.forest);
        if heap.blocks[slots[i].name.value].s == wanted {
          FindIs(View(heap), wanted, i);
          return Some(i);
        }
        i := i + 1;
      }
      FindIs(View(heap), wanted, i);
      return None;
    }

    /** tools_reserve. A failure changes nothing; a success may move the slots to
        a larger block, by no more doublings than are needed. */
    method Reserve(heap: Heap, want: nat) returns (ok: bool)
      requires Base(heap)
      modifies this`tools, this`slots, this`cap, this`moved, heap`clock, heap`failures, heap`next, heap`blocks
      ensures Base(heap) && View(heap) == old(View(heap))
      ensures OtherBlocks(Mem(), heap.blocks) == old(OtherBlocks(Mem(), heap.blocks))
      ensures slots == old(slots) || fresh(slots)
      ensures ok ==> want <= cap
      ensures cap == old(cap) || cap == FirstTry(old(cap)) || (FirstTry(old(cap)) < want && cap < 2 * want)
      ensures cap != old(cap) ==> old(cap) < want
      ensures !ok ==> heap.blocks == old(heap.blocks) && tools == old(tools) && cap == old(cap)
      ensures heap.failures == old(heap.failures) + if ok then 0 else 1
    {
      if want <= cap {
        return true;
      }
      var newcap := NewCapacity(cap, want);
      ok := Grow(heap, newcap);
    }

    /** One slot more never takes more than one doubling. */
    method ReserveOne(heap: Heap) returns (ok: bool)
      requires Valid(heap)
      modifies this`tools, this`slots, this`cap, this`moved, heap`clock, heap`failures, heap`next, heap`blocks
      ensures Valid(heap) && View(heap) == old(View(heap)) && (ok ==> count < cap)
      ensures OtherBlocks(Mem(), heap.blocks) == old(OtherBlocks(Mem(), heap.blocks))
      ensures slots == old(slots) || fresh(slots)
      ensures heap.failures == old(heap.failures) + if ok then 0 else 1
    {
      hide Separate, AllLive, BlocksOf, TreesOf, Live, ToolAt, Tools;
      ok := Reserve(heap, count + 1);
    }

    /** The reallocation. */
    method Grow(heap: Heap, newcap: nat) returns (ok: bool)
      requires Base(heap) && IsCapacity(newcap) && newcap >= FirstTry(cap)
      modifies this`tools, this`slots, this`cap, this`moved, heap`clock, heap`failures, heap`next, heap`blocks
      ensures Base(heap) && View(heap) == old(View(heap))
      ensures OtherBlocks(Mem(), heap.blocks) == old(OtherBlocks(Mem(), heap.blocks))
      ensures slots == old(slots) || fresh(slots)
      ensures ok ==> cap == newcap
      ensures !ok ==> heap.blocks == old(heap.blocks) && tools == old(tools) && cap == old(cap)
      ensures heap.failures == old(heap.failures) + if ok then 0 else 1
    {
      hide Separate, AllLive, BlocksOf, TreesOf, Live, ToolAt, Tools;
      var nt := heap.Realloc(tools, Slots(newcap));
      if nt == None {
        return false;
      }
      Moved(Mem(), nt, Slots(newcap), old(heap.blocks), heap.blocks, heap.forest);
      Resize(newcap);
      tools := nt;
      return true;
    }

    /** mcp_server_destroy: everything the server owns is freed, each block and
        each tree once, and nothing else. */
    method Destroy(heap: Heap)
      requires Base(heap)
      modifies slots, heap`blocks, heap`forest
      ensures heap.Valid()
      ensures heap.blocks == old(OtherBlocks(Mem(), heap.blocks))
      ensures heap.forest == old(OtherTrees(Mem(), heap.forest))
    {
      hide Separate, AllLive, BlocksOf, TreesOf, Live, ToolAt, Tools;
      ghost var m, blocks := Mem(), heap.blocks;
      FreeTools(heap);
      FreeOwn(heap);
      assert heap.blocks == OtherBlocks(m, blocks);
    }

    /** The loop over the tools. */
    method FreeTools(heap: Heap)
      requires Base(heap)
      modifies slots, heap`blocks, heap`forest
      ensures heap.Valid()
      ensures heap.blocks == old(heap.blocks) - BlocksOf(used) && heap.forest == old(heap.forest) - TreesOf(used)
    {
      hide Separate, AllLive, BlocksOf, TreesOf, Live, ToolAt, Tools;
      ghost var m, blocks, forest := Mem(), heap.blocks, heap.forest;
      NothingOwned();
      assert used[..0] == [] && used[..count] == used;
      var i := 0;
      while i < count
        invariant 0 <= i <= count && heap.Valid()
        invariant forall k :: i <= k < count ==> slots[k] == used[k]
        invariant heap.blocks == blocks - BlocksOf(used[..i]) && heap.forest == forest - TreesOf(used[..i])
      {
        NextFreed(m, blocks, forest, i);
        FreeTool(heap, slots[i]);
        slots[i] := ZERO;
        i := i + 1;
      }
    }

    method FreeOwn(heap: Heap)
      requires heap.Valid() && OwnBlocks(Mem()) <= heap.blocks.Keys && Header(Mem()) !! Opt(tools)
      requires Differ(name, version) && Differ(Some(self), name) && Differ(Some(self), version)
      modifies heap`blocks
      ensures heap.Valid() && heap.blocks == old(heap.blocks) - OwnBlocks(Mem())
    {
      heap.Free(tools);
      heap.Free(name);
      heap.Free(version);
      heap.Free(Some(self));
    }

    /** The slots move with the block. */
    method Resize(newcap: nat)
      requires Shaped() && IsCapacity(newcap) && newcap >= FirstTry(cap)
      modifies this`slots, this`cap, this`moved
      ensures cap == newcap == slots.Length && used == slots[..count] && moved <= cap - 4 && fresh(slots)
    {
      NextCapacity(cap);
      var was := slots[..];
      moved := moved + |was|;
      slots := new Slot[newcap](i => if 0 <= i < |was| then was[i] else ZERO);
      cap := newcap;
    }

    /** Fills the next slot and counts it, or leaves it zero. */
    method Fill(heap: Heap, name: string, title: Option<string>, description: Option<string>, schema: Ptr,
                handler: Json -> Script) returns (ok: bool)
      requires Base(heap) && count < cap && schema in heap.forest && schema !in TreesOf(used)
      modifies this`count, this`used, slots, heap`clock, heap`failures, heap`next, heap`blocks, heap`forest
      ensures Base(heap) && OtherBlocks(Mem(), heap.blocks) == old(OtherBlocks(Mem(), heap.blocks))
      ensures OtherTrees(Mem(), heap.forest) == old(OtherTrees(Mem(), heap.forest)) - {schema}
      ensures count == old(count) + if ok then 1 else 0
      ensures var t := Tool(name, title, description, old(heap.forest[schema]), handler);
        View(heap) == old(View(heap)) + if ok then [t] else []
      ensures heap.failures >= old(heap.failures) && (ok <==> heap.failures == old(heap.failures))
    {
      hide Separate, AllLive, BlocksOf, TreesOf, Live, ToolAt, Tools;
      var slot := MakeSlot(heap, name, title, description, schema, handler);
      if slot == None {
        Gone(Mem(), heap.blocks, old(heap.forest), heap.forest, schema);
        Put(ZERO);
        return false;
      }
      Append(heap, slot.value, old(heap.blocks));
      return true;
    }

    /** mcp_server_add_tool. Any failure leaves the registry as it was; success or
        not, the ledger holds nothing more than before that is not the server's. */
    method AddTool(heap: Heap, name: string, title: Option<string>, description: Option<string>,
                   schemaText: Option<string>, parse: string -> Option<Json>, handler: Json -> Script)
      returns (code: Code)
      requires Valid(heap) && name != ""
      modifies this`tools, this`slots, this`cap, this`moved, this`count, this`used, slots, heap
      ensures Valid(heap)
      ensures OtherBlocks(Mem(), heap.blocks) == old(OtherBlocks(Mem(), heap.blocks))
      ensures OtherTrees(Mem(), heap.forest) == old(OtherTrees(Mem(), heap.forest))
      ensures slots == old(slots) || fresh(slots)
      ensures heap.failures >= old(heap.failures)
      ensures code == Duplicate <==> Find(old(View(heap)), name).Some?
      ensures code == Ok <==>
        Find(old(View(heap)), name) == None && SchemaOf(schemaText, parse).Some? && heap.failures == old(heap.failures)
      ensures code == Ok ==>
        var t := Tool(name, title, description, SchemaOf(schemaText, parse).value, handler);
        View(heap) == old(View(heap)) + [t]
      ensures code != Ok ==> View(heap) == old(View(heap))
      ensures Find(old(View(heap)), name) == None && SchemaOf(schemaText, parse) == None ==> code == Parse
      ensures code == Oom ==> heap.failures > old(heap.failures)
      ensures moved <= 2 * count
      ensures ProtocolLaws.DistinctNames(old(View(heap))) ==> ProtocolLaws.DistinctNames(View(heap))
    {
      hide Separate, AllLive, BlocksOf, TreesOf, Live, ToolAt, Tools;
      var found := FindTool(heap, name);
      if found.Some? {
        return Duplicate;
      }
      FindSound(View(heap), name);
      var schema: Option<Ptr>;
      code, schema := TakeSchema(heap, schemaText, parse);
      if schema.Some? {
        code := AddSlot(heap, name, title, description, schema.value, handler);
      }
    }

    /** The schema, while it is not yet the server's. */
    method TakeSchema(heap: Heap, text: Option<string>, parse: string -> Option<Json>)
      returns (code: Code, schema: Option<Ptr>)
      requires Valid(heap)
      modifies heap`clock, heap`failures, heap`next, heap`forest
      ensures Valid(heap) && View(heap) == old(View(heap)) && heap.failures >= old(heap.failures)
      ensures schema.Some? ==> code == Ok && schema.value in heap.forest && schema.value !in TreesOf(used)
      ensures schema.Some? ==> SchemaOf(text, parse) == Some(heap.forest[schema.value])
      ensures schema.Some? ==> OtherTrees(Mem(), heap.forest) - {schema.value} == old(OtherTrees(Mem(), heap.forest))
      ensures schema == None ==> OtherTrees(Mem(), heap.forest) == old(OtherTrees(Mem(), heap.forest))
      ensures schema == None ==> (code == Parse || code == Oom) && (code == Oom ==> heap.failures > old(heap.failures))
      ensures SchemaOf(text, parse).Some? ==> (schema.Some? <==> heap.failures == old(heap.failures))
      ensures SchemaOf(text, parse) == None ==> schema == None && code == Parse
    {
      hide Separate, AllLive, BlocksOf, TreesOf, Live, ToolAt, Tools;
      code, schema := MakeSchema(heap, text, parse);
      if schema.Some? {
        ghost var v := SchemaOf(text, parse).value;
        Come(Mem(), heap.blocks, old(heap.forest), heap.forest, schema.value, v);
        WithAndWithout(old(OtherTrees(Mem(), heap.forest)), schema.value, v);
      }
    }

    /** The part of mcp_server_add_tool that follows once the schema is there. */
    method AddSlot(heap: Heap, name: string, title: Option<string>, description: Option<string>, schema: Ptr,
                   handler: Json -> Script) returns (code: Code)
      requires Valid(heap) && schema in heap.forest && schema !in TreesOf(used)
      modifies this`tools, this`slots, this`cap, this`moved, this`count, this`used, slots, heap
      ensures Valid(heap) && (code == Ok || code == Oom)
      ensures OtherBlocks(Mem(), heap.blocks) == old(OtherBlocks(Mem(), heap.blocks))
      ensures OtherTrees(Mem(), heap.forest) == old(OtherTrees(Mem(), heap.forest)) - {schema}
      ensures slots == old(slots) || fresh(slots)
      ensures var t := Tool(name, title, description, old(heap.forest[schema]), handler);
        View(heap) == old(View(heap)) + if code == Ok then [t] else []
      ensures heap.failures >= old(heap.failures) && (code == Ok <==> heap.failures == old(heap.failures))
    {
      hide Separate, AllLive, BlocksOf, TreesOf, Live, ToolAt, Tools;
      var reserved := ReserveOne(heap);
      var filled := false;
      if !reserved {
        DropTree(heap, schema);
      } else {
        filled := Fill(heap, name, title, description, schema, handler);
      }
      return if filled then Ok else Oom;
    }

    /** cJSON_Delete of a tree that is not the server's. */
    method DropTree(heap: Heap, p: Ptr)
      requires Base(heap) && p in heap.forest && p !in TreesOf(used)
      modifies heap`forest
      ensures Base(heap) && View(heap) == old(View(heap)) && heap.forest == old(heap.forest) - {p}
      ensures OtherTrees(Mem(), heap.forest) == old(OtherTrees(Mem(), heap.forest)) - {p}
    {
      hide Separate, AllLive, BlocksOf, TreesOf, Live, ToolAt, Tools;
      heap.Delete(Some(p));
      Gone(Mem(), heap.blocks, old(heap.forest), heap.forest, p);
    }

    /** Counts a slot whose strings are new in `heap`. */
    method Append(heap: Heap, s: Slot, ghost blocks: map<Ptr, Block>)
      requires heap.Valid() && Shaped() && count < cap && Sound(Mem(), blocks, heap.forest)
      requires OwnNames(s) && SlotBlocks(s) !! blocks.Keys && Opt(s.schema) !! TreesOf(used)
      requires Live(s, heap.blocks, heap.forest) && heap.blocks - SlotBlocks(s) == blocks
      modifies this`count, this`used, slots
      ensures Base(heap) && count == old(count) + 1
      ensures View(heap) == Tools(old(used), blocks, heap.forest) + [ToolAt(s, heap.blocks, heap.forest)]
      ensures OtherBlocks(Mem(), heap.blocks) == OtherBlocks(old(Mem()), blocks)
      ensures OtherTrees(Mem(), heap.forest) == OtherTrees(old(Mem()), heap.forest) - {s.schema.value}
    {
      hide Separate, AllLive, BlocksOf, TreesOf, Live, ToolAt, Tools;
      Joined(Mem(), s, blocks, heap.blocks, heap.forest);
      Put(s);
      count, used := count + 1, used + [s];
    }

    method Put(s: Slot)
      requires Shaped() && count < cap
      modifies slots
      ensures Shaped() && slots[..count + 1] == used + [s]
    {
      slots[count] := s;
    }
  }

  lemma WithAndWithout<V>(m: map<Ptr, V>, p: Ptr, v: V)
    requires p !in m
    ensures m[p := v] - {p} == m
  {
  }

  /** The capacity that tools_reserve tries first. */
  function FirstTry(cap: nat): nat { if cap == 0 then 4 else cap * 2 }

  /** The doubling loop. */
  method NewCapacity(cap: nat, want: nat) returns (newcap: nat)
    requires IsCapacity(cap)
    ensures IsCapacity(newcap) && want <= newcap && FirstTry(cap) <= newcap
    ensures newcap == FirstTry(cap) || (FirstTry(cap) < want && newcap < 2 * want)
  {
    newcap := if cap == 0 then 4 else cap * 2;
    NextCapacity(cap);
    while newcap < want
      invariant IsCapacity(newcap) && newcap >= FirstTry(cap)
      invariant newcap == FirstTry(cap) || (FirstTry(cap) < want && newcap < 2 * want)
      decreases want - newcap
    {
      NextCapacity(newcap);
      newcap := newcap * 2;
    }
  }

  lemma NextCapacity(cap: nat)
    requires IsCapacity(cap)
    ensures IsCapacity(FirstTry(cap)) && (cap == 0 || cap >= 4)
  {
    if cap == 0 {
      assert Doubled(0) == 4;
    } else {
      var k: nat :| cap == Doubled(k);
      assert Doubled(k + 1) == cap * 2;
      AtLeastFour(k);
    }
  }

  lemma AtLeastFour(k: nat)
    ensures Doubled(k) >= 4
  {
  }

  /** mcp_server_create. */
  method Create(heap: Heap, name: string, version: string) returns (srv: Server?)
    requires heap.Valid() && name != "" && version != ""
    modifies heap`clock, heap`failures, heap`next, heap`blocks, heap`forest
    ensures heap.Valid() && heap.forest == old(heap.forest)
    ensures heap.failures >= old(heap.failures) && (srv == null <==> heap.failures > old(heap.failures))
    ensures srv == null ==> heap.blocks == old(heap.blocks)
    ensures srv != null ==> fresh(srv) && fresh(srv.slots) && srv.Ready(heap) && srv.View(heap) == []
    ensures srv != null ==> srv.name.Some? && TextAt(heap.blocks, srv.name) == Some(name)
    ensures srv != null ==> srv.version.Some? && TextAt(heap.blocks, srv.version) == Some(version)
    ensures srv != null ==> srv.Model(heap) == Protocol.Server(name, version, [], false)
    ensures srv != null ==> !srv.initialized && OtherBlocks(srv.Mem(), heap.blocks) == old(heap.blocks)
    ensures srv != null ==> OtherTrees(srv.Mem(), heap.forest) == old(heap.forest)
  {
    hide Separate, AllLive, BlocksOf, TreesOf, Live, ToolAt, Tools;
    var block, n, v := ServerBlocks(heap, name, version);
    if block == None {
      return null;
    }
    srv := new Server(block.value);
    srv.name, srv.version := n, v;
    Bare(srv.Mem(), old(heap.blocks), heap.blocks, heap.forest);
    if n == None || v == None {
      srv.Destroy(heap);
      return null;
    }
  }

  method ServerBlocks(heap: Heap, name: string, version: string)
    returns (b: Option<Ptr>, n: Option<Ptr>, v: Option<Ptr>)
    requires heap.Valid()
    modifies heap`clock, heap`failures, heap`next, heap`blocks
    ensures heap.Valid()
    ensures b == None ==> n == v == None
    ensures Differ(b, n) && Differ(b, v) && Differ(n, v)
    ensures heap.blocks - (Opt(b) + Opt(n) + Opt(v)) == old(heap.blocks)
    ensures Opt(b) + Opt(n) + Opt(v) <= heap.blocks.Keys
    ensures n.Some? ==> n.value in heap.blocks && heap.blocks[n.value] == Text(name)
    ensures v.Some? ==> v.value in heap.blocks && heap.blocks[v.value] == Text(version)
    ensures heap.failures >= old(heap.failures)
    ensures heap.failures > old(heap.failures) <==> n == None || v == None
  {
    n, v := None, None;
    b := heap.Malloc(Slots(0));
    if b.Some? {
      n := heap.Malloc(Text(name));
      v := heap.Malloc(Text(version));
    }
  }
}
