/** The shutdown walk (src/mcp_http.c:975-981) against stream owners that come
    and go while it happens. */
module Shutdown {
  import opened Json
  import opened Machine
  import opened Lifetime
  import opened LifetimeLaws
  import Sse

  /** The owner has seen g_shutdown unset and may wait in recv before it looks
      again. */
  predicate InLoop(pc: Pc) {
    pc.PollClosed? || pc.Recv? || (Writes(pc) && pc.job == Ping)
  }

  predicate Reached(se: Session) { se.closed && se.sock != Open }

  /** Where the walk is: sessions in the list that it has not passed yet. */
  predicate Ahead(pc: Pc, s: Sid, se: Session) {
    || (pc.WalkMark? && s in pc.rest)
    || (pc.WalkShut? && pc.rest != [] && (s in pc.rest[1..] || (s == pc.rest[0] && se.closed)))
  }

  predicate Walking(pc: Pc) { pc.WalkWant? || pc.WalkMark? || pc.WalkShut? }

  ghost predicate WalkStarted(st: State) {
    st.sh.walked || PcOf(st, MAIN).WalkMark? || PcOf(st, MAIN).WalkShut?
  }

  ghost predicate LoopOk(st: State, s: Sid, se: Session) {
    InLoop(PcOf(st, se.owner)) && WalkStarted(st) ==> Reached(se) || (!st.sh.walked && Ahead(PcOf(st, MAIN), s, se))
  }

  ghost predicate ShutdownOk(st: State) {
    && (st.sh.walked || Walking(PcOf(st, MAIN)) ==> st.sh.shutdown)
    && (st.sh.walked <==> PcOf(st, MAIN) == Finished)
    && (forall s :: s in st.sessions ==>
          && LoopOk(st, s, st.sessions[s])
          && (st.sessions[s].sock == Closed ==> PcOf(st, st.sessions[s].owner) == Finished))
  }

  // ----- one step -----

  /** No step takes back what the walk has done to a session. */
  ghost predicate SockLocal(st: State, th: Thread, e: Effect) {
    e.cell.Some? ==>
      var Cell(s, se) := e.cell.value;
      if s in st.sessions then
        var was := st.sessions[s];
        && se.owner == was.owner
        && (was.closed ==> se.closed) && (was.sock != Open ==> se.sock != Open)
        && (se.sock == Closed ==> was.sock == Closed || (th.pc == SockClose(s) && e.th.pc == Finished))
      else se.sock == Open
  }

  predicate FlagsLocal(st: State, th: Thread, e: Effect) {
    && e.sh.shutdown == st.sh.shutdown
    && (th.role != Main ==> e.sh.walked == st.sh.walked)
    && (th.role == Stream && InLoop(e.th.pc) && !InLoop(th.pc) ==> !st.sh.shutdown)
    && (th.role == Stream && th.pc == Finished ==> e.th.pc == Finished)
  }

  lemma StreamFlags(st: State, t: Tid, ch: Choice, e: Effect)
    requires t in st.threads && st.threads[t].role == Stream && StreamStep(st, t, ch) == Some(e)
    ensures SockLocal(st, st.threads[t], e) && FlagsLocal(st, st.threads[t], e)
  {}

  lemma MainFlags(st: State, t: Tid, e: Effect)
    requires t in st.threads && st.threads[t].role == Main && MainStep(st, t) == Some(e)
    ensures SockLocal(st, st.threads[t], e) && e.sh.shutdown == st.sh.shutdown
  {}

  lemma PostFlags(c: Config, st: State, t: Tid, sid: string, body: Option<Json>, ch: Choice, e: Effect)
    requires t in st.threads && st.threads[t].role.Post? && PostStep(c, st, t, sid, body, ch) == Some(e)
    ensures SockLocal(st, st.threads[t], e) && FlagsLocal(st, st.threads[t], e)
  {}

  lemma DispatchFlags(c: Config, st: State, t: Tid, msg: Json, e: Effect)
    requires t in st.threads && (st.threads[t].role.Post? || st.threads[t].role.Mcp?)
    requires DispatchStep(c, st, t, msg) == Some(e)
    ensures SockLocal(st, st.threads[t], e) && FlagsLocal(st, st.threads[t], e)
  {}

  lemma WriteFlags(st: State, t: Tid, ch: Choice, e: Effect)
    requires t in st.threads && Writes(st.threads[t].pc) && WriteStep(st, t, ch) == Some(e)
    requires st.threads[t].role != Main
    ensures SockLocal(st, st.threads[t], e) && FlagsLocal(st, st.threads[t], e)
  {}

  lemma ReleaseFlags(st: State, t: Tid, e: Effect)
    requires t in st.threads && Releases(st.threads[t].pc) && ReleaseStep(st, t) == Some(e)
    requires st.threads[t].role != Main
    ensures SockLocal(st, st.threads[t], e) && FlagsLocal(st, st.threads[t], e)
  {}

  lemma StepFlags(c: Config, st: State, t: Tid, ch: Choice, e: Effect)
    requires t in st.threads && ThreadStep(c, st, t, ch) == Some(e)
    requires WellTyped(st.threads[t].role, st.threads[t].pc)
    ensures SockLocal(st, st.threads[t], e)
    ensures st.threads[t].role != Main ==> FlagsLocal(st, st.threads[t], e)
    ensures st.threads[t].role == Main ==> MainStep(st, t) == Some(e)
  {
    var th := st.threads[t];
    if Releases(th.pc) { ReleaseFlags(st, t, e); }
    else if Writes(th.pc) { WriteFlags(st, t, ch, e); }
    else {
      match th.role
      case Main => MainFlags(st, t, e);
      case Stream => StreamFlags(st, t, ch, e);
      case Post(sid, body) =>
        if Dispatches(th.pc) && body.Some? { DispatchFlags(c, st, t, body.value, e); }
        else { PostFlags(c, st, t, sid, body, ch, e); }
      case Mcp(body) => DispatchFlags(c, st, t, body.value, e);
    }
  }

  // ----- a connection thread's step -----

  lemma ConnectionKeepsLoop(st: State, t: Tid, e: Effect, s: Sid)
    requires t in st.threads && t != MAIN && MAIN in st.threads && st.threads[t].role != Main
    requires SockLocal(st, st.threads[t], e) && FlagsLocal(st, st.threads[t], e) && e.th.role == st.threads[t].role
    requires st.sh.walked || Walking(PcOf(st, MAIN)) ==> st.sh.shutdown
    requires s in st.sessions && OwnerOf(st, s, st.sessions[s].owner) && LoopOk(st, s, st.sessions[s])
    ensures LoopOk(Apply(st, t, e), s, Apply(st, t, e).sessions[s])
  {}

  lemma ConnectionKeepsSock(st: State, t: Tid, e: Effect, s: Sid)
    requires t in st.threads && t != MAIN && SockLocal(st, st.threads[t], e) && FlagsLocal(st, st.threads[t], e)
    requires s in st.sessions && OwnerOf(st, s, st.sessions[s].owner)
    requires st.threads[t].pc == SockClose(s) ==> st.sessions[s].owner == t
    requires st.sessions[s].sock == Closed ==> PcOf(st, st.sessions[s].owner) == Finished
    ensures var st' := Apply(st, t, e);
      st'.sessions[s].sock == Closed ==> PcOf(st', st'.sessions[s].owner) == Finished
  {}

  lemma NewSessionNotInLoop(st: State, t: Tid, e: Effect, s: Sid)
    requires t in st.threads && CellLocal(st, t, st.threads[t], e)
    requires s !in st.sessions && s in Apply(st, t, e).sessions
    ensures var st' := Apply(st, t, e);
      LoopOk(st', s, st'.sessions[s]) && st'.sessions[s].sock == Open
  {}

  lemma OnlyStreamsClose(st: State, t: Tid, s: Sid)
    requires Owned(st) && t in st.threads && WellTyped(st.threads[t].role, st.threads[t].pc)
    requires st.threads[t].pc == SockClose(s)
    ensures s in st.sessions && st.sessions[s].owner == t
  {
    assert About(st.threads[t].pc) == Some(s);
  }

  lemma ConnectionKeepsSession(st: State, t: Tid, e: Effect, s: Sid)
    requires t in st.threads && t != MAIN && MAIN in st.threads && st.threads[t].role != Main
    requires WellTyped(st.threads[t].role, st.threads[t].pc) && Owned(st) && ShutdownOk(st)
    requires SockLocal(st, st.threads[t], e) && FlagsLocal(st, st.threads[t], e)
    requires TypedLocal(st.threads[t], e) && CellLocal(st, t, st.threads[t], e)
    requires s in Apply(st, t, e).sessions
    ensures var st' := Apply(st, t, e);
      && LoopOk(st', s, st'.sessions[s])
      && (st'.sessions[s].sock == Closed ==> PcOf(st', st'.sessions[s].owner) == Finished)
  {
    if s in st.sessions {
      if st.threads[t].pc == SockClose(s) { OnlyStreamsClose(st, t, s); }
      assert OwnerOf(st, s, st.sessions[s].owner);
      ConnectionKeepsLoop(st, t, e, s);
      ConnectionKeepsSock(st, t, e, s);
    } else {
      NewSessionNotInLoop(st, t, e, s);
    }
  }

  lemma ConnectionKeepsShutdown(c: Config, st: State, t: Tid, ch: Choice, e: Effect)
    requires Typed(st) && Owned(st) && ShutdownOk(st) && t in st.threads && t != MAIN
    requires ThreadStep(c, st, t, ch) == Some(e)
    ensures ShutdownOk(Apply(st, t, e))
  {
    var st' := Apply(st, t, e);
    assert WellTyped(st.threads[t].role, st.threads[t].pc);
    StepLocal(c, st, t, ch, e);
    StepFlags(c, st, t, ch, e);
    forall s | s in st'.sessions
      ensures LoopOk(st', s, st'.sessions[s])
      ensures st'.sessions[s].sock == Closed ==> PcOf(st', st'.sessions[s].owner) == Finished
    {
      ConnectionKeepsSession(st, t, e, s);
    }
  }

  // ----- the main thread's step -----

  lemma InLoopListed(st: State, s: Sid)
    requires Owned(st) && Listing(st) && s in st.sessions && InLoop(PcOf(st, st.sessions[s].owner))
    ensures s in st.sh.list
  {
    assert OwnerOf(st, s, st.sessions[s].owner);
    var pc := PcOf(st, st.sessions[s].owner);
    assert Listed(pc, s);
  }

  lemma MainKeepsLoop(st: State, e: Effect, s: Sid)
    requires MAIN in st.threads && st.threads[MAIN].role == Main && MainStep(st, MAIN) == Some(e)
    requires s in st.sessions && LoopOk(st, s, st.sessions[s]) && st.sessions[s].owner != MAIN
    requires st.sh.walked <==> st.threads[MAIN].pc == Finished
    requires InLoop(PcOf(st, st.sessions[s].owner)) ==> s in st.sh.list
    ensures s in Apply(st, MAIN, e).sessions
    ensures LoopOk(Apply(st, MAIN, e), s, Apply(st, MAIN, e).sessions[s])
  {
    var pc := st.threads[MAIN].pc;
    if (pc.WalkMark? || pc.WalkShut?) && pc.rest != [] {
      assert forall x :: x in pc.rest <==> x == pc.rest[0] || x in pc.rest[1..];
    }
  }

  lemma MainKeepsSock(st: State, e: Effect, s: Sid)
    requires MAIN in st.threads && st.threads[MAIN].role == Main && MainStep(st, MAIN) == Some(e)
    requires s in st.sessions && st.sessions[s].owner != MAIN && SockLocal(st, st.threads[MAIN], e)
    requires st.sessions[s].sock == Closed ==> PcOf(st, st.sessions[s].owner) == Finished
    ensures var st' := Apply(st, MAIN, e);
      s in st'.sessions && (st'.sessions[s].sock == Closed ==> PcOf(st', st'.sessions[s].owner) == Finished)
  {}

  lemma MainKeepsSession(st: State, e: Effect, s: Sid)
    requires MAIN in st.threads && st.threads[MAIN].role == Main && MainStep(st, MAIN) == Some(e)
    requires Owned(st) && Listing(st) && ShutdownOk(st) && s in Apply(st, MAIN, e).sessions
    ensures var st' := Apply(st, MAIN, e);
      && LoopOk(st', s, st'.sessions[s])
      && (st'.sessions[s].sock == Closed ==> PcOf(st', st'.sessions[s].owner) == Finished)
  {
    MainFlags(st, MAIN, e);
    assert s in st.sessions;
    assert OwnerOf(st, s, st.sessions[s].owner) && LoopOk(st, s, st.sessions[s]);
    if InLoop(PcOf(st, st.sessions[s].owner)) { InLoopListed(st, s); }
    MainKeepsLoop(st, e, s);
    MainKeepsSock(st, e, s);
  }

  lemma MainKeepsShutdown(c: Config, st: State, ch: Choice, e: Effect)
    requires Typed(st) && Owned(st) && Listing(st) && ShutdownOk(st) && MAIN in st.threads
    requires ThreadStep(c, st, MAIN, ch) == Some(e)
    ensures ShutdownOk(Apply(st, MAIN, e))
  {
    var st' := Apply(st, MAIN, e);
    assert WellTyped(st.threads[MAIN].role, st.threads[MAIN].pc);
    StepFlags(c, st, MAIN, ch, e);
    MainKeepsFlags(st, e);
    forall s | s in st'.sessions
      ensures LoopOk(st', s, st'.sessions[s])
      ensures st'.sessions[s].sock == Closed ==> PcOf(st', st'.sessions[s].owner) == Finished
    {
      MainKeepsSession(st, e, s);
    }
  }

  lemma MainKeepsFlags(st: State, e: Effect)
    requires MAIN in st.threads && st.threads[MAIN].role == Main && MainStep(st, MAIN) == Some(e)
    requires st.sh.walked || Walking(PcOf(st, MAIN)) ==> st.sh.shutdown
    requires st.sh.walked <==> PcOf(st, MAIN) == Finished
    ensures var st' := Apply(st, MAIN, e);
      && (st'.sh.walked || Walking(PcOf(st', MAIN)) ==> st'.sh.shutdown)
      && (st'.sh.walked <==> PcOf(st', MAIN) == Finished)
  {}

  // ----- runs -----

  lemma SpawnKeepsShutdown(st: State, t: Tid, role: Role)
    requires Typed(st) && Owned(st) && ShutdownOk(st) && t !in st.threads && role != Main
    ensures ShutdownOk(Spawned(st, t, role))
  {
    hide LoopOk, OwnerOf;
    var st' := Spawned(st, t, role);
    forall s | s in st'.sessions
      ensures LoopOk(st', s, st'.sessions[s])
      ensures st'.sessions[s].sock == Closed ==> PcOf(st', st'.sessions[s].owner) == Finished
    {
      assert OwnerOf(st, s, st.sessions[s].owner);
      SpawnKeepsLoop(st, t, role, s);
    }
  }

  lemma SpawnKeepsLoop(st: State, t: Tid, role: Role, s: Sid)
    requires MAIN in st.threads && t !in st.threads && s in st.sessions
    requires OwnerOf(st, s, st.sessions[s].owner) && LoopOk(st, s, st.sessions[s])
    ensures LoopOk(Spawned(st, t, role), s, st.sessions[s])
    ensures PcOf(Spawned(st, t, role), st.sessions[s].owner) == PcOf(st, st.sessions[s].owner)
  {}

  /** Setting the flag, and the clock, disturb nothing. */
  lemma ShutdownIrrelevant(st: State, st': State)
    requires ShutdownOk(st) && st'.threads == st.threads && st'.sessions == st.sessions
    requires st'.sh.walked == st.sh.walked && (st.sh.shutdown ==> st'.sh.shutdown)
    ensures ShutdownOk(st')
  {
    forall s | s in st'.sessions ensures LoopOk(st', s, st'.sessions[s]) {
      assert LoopOk(st, s, st.sessions[s]);
    }
  }

  lemma StepKeepsShutdown(c: Config, st: State, a: Action, st': State)
    requires Typed(st) && Owned(st) && Listing(st) && ShutdownOk(st) && Step(c, st, a) == Some(st')
    ensures ShutdownOk(st')
  {
    match a
    case Signal => ShutdownIrrelevant(st, st');
    case Spawn(t, role) =>
      SpawnKeepsShutdown(st, t, role);
      ShutdownIrrelevant(Spawned(st, t, role), st');
    case Go(t, ch) =>
      var e := ThreadStep(c, st, t, ch).value;
      if t == MAIN { MainKeepsShutdown(c, st, ch, e); } else { ConnectionKeepsShutdown(c, st, t, ch, e); }
      ShutdownIrrelevant(Apply(st, t, e), st');
  }

  lemma NextShutdown(c: Config, states: seq<State>, actions: seq<Action>, i: nat)
    requires |states| == |actions| + 1 && i < |actions| && StepAt(c, states, actions, i)
    requires Inv(states[i]) && ShutdownOk(states[i])
    ensures ShutdownOk(states[i + 1])
  {
    StepKeepsShutdown(c, states[i], actions[i], states[i + 1]);
  }

  lemma {:induction false} RunShutdown(c: Config, states: seq<State>, actions: seq<Action>, i: nat)
    requires IsRun(c, states, actions) && i < |states|
    ensures ShutdownOk(states[i])
  {
    if i > 0 {
      RunShutdown(c, states, actions, i - 1);
      RunInv(c, states, actions, i - 1);
      NextShutdown(c, states, actions, i - 1);
    }
  }

  /** In every run, once the walk is over, an owner that may still wait in recv
      has been marked closed and its socket shut down; any other owner is past
      its loop or has yet to look at g_shutdown, which is set, so that its next
      look makes it leave. */
  lemma NoStreamMissesShutdown(c: Config, states: seq<State>, actions: seq<Action>, i: nat, s: Sid, ch: Choice)
    requires IsRun(c, states, actions) && i < |states| && s in states[i].sessions && states[i].sh.walked
    ensures MissesNothing(c, states[i], s, ch)
  {
    RunInv(c, states, actions, i);
    RunShutdown(c, states, actions, i);
    LoopMeans(states[i], s);
    if PcOf(states[i], states[i].sessions[s].owner).PollShutdown? { PollLeaves(c, states[i], s, ch); }
  }

  ghost predicate MissesNothing(c: Config, st: State, s: Sid, ch: Choice)
    requires s in st.sessions
  {
    var o := st.sessions[s].owner;
    && o in st.threads && st.sh.shutdown
    && (InLoop(st.threads[o].pc) ==> Reached(st.sessions[s]))
    && (st.threads[o].pc.PollShutdown? ==> ThreadStep(c, st, o, ch) == Some(Goto(st, o, Leave(s))))
  }

  lemma LoopMeans(st: State, s: Sid)
    requires Owned(st) && ShutdownOk(st) && s in st.sessions && st.sh.walked
    ensures var o := st.sessions[s].owner;
      o in st.threads && st.sh.shutdown && (InLoop(st.threads[o].pc) ==> Reached(st.sessions[s]))
  {
    assert OwnerOf(st, s, st.sessions[s].owner) && LoopOk(st, s, st.sessions[s]);
  }

  lemma PollLeaves(c: Config, st: State, s: Sid, ch: Choice)
    requires Owned(st) && s in st.sessions && st.sh.shutdown
    requires PcOf(st, st.sessions[s].owner).PollShutdown?
    ensures var o := st.sessions[s].owner;
      o in st.threads && ThreadStep(c, st, o, ch) == Some(Goto(st, o, Leave(s)))
  {
    var o := st.sessions[s].owner;
    assert OwnerOf(st, s, o);
    assert About(st.threads[o].pc) == Some(s);
  }

  /** In every run, a session the walk is about to touch has not been freed and
      its socket has not been closed. */
  lemma WalkTouchesLiveSessions(c: Config, states: seq<State>, actions: seq<Action>, i: nat)
    requires IsRun(c, states, actions) && i < |states|
    requires var pc := PcOf(states[i], MAIN); (pc.WalkMark? || pc.WalkShut?) && pc.rest != []
    ensures var s := PcOf(states[i], MAIN).rest[0];
      Alive(states[i], s) && states[i].sessions[s].sock != Closed && !states[i].sessions[s].destroyed
  {
    RunInv(c, states, actions, i);
    RunShutdown(c, states, actions, i);
    assert CursorOk(PcOf(states[i], MAIN), states[i].sh.list);
    WalkedLive(states[i]);
  }

  lemma WalkedLive(st: State)
    requires Owned(st) && Counts(st) && Reaped(st) && Listing(st) && ShutdownOk(st)
    requires CursorOk(PcOf(st, MAIN), st.sh.list)
    requires var pc := PcOf(st, MAIN); (pc.WalkMark? || pc.WalkShut?) && pc.rest != []
    ensures var s := PcOf(st, MAIN).rest[0];
      Alive(st, s) && st.sessions[s].sock != Closed && !st.sessions[s].destroyed
  {
    var pc := PcOf(st, MAIN);
    var s := pc.rest[0];
    SuffixMember(pc.rest, st.sh.list, s);
    ListedAlive(st, s);
    ListedOpen(st, s);
  }

  lemma ListedOpen(st: State, s: Sid)
    requires Owned(st) && Listing(st) && ShutdownOk(st) && s in st.sh.list && s in st.sessions
    ensures st.sessions[s].sock != Closed
  {
    assert Listed(PcOf(st, st.sessions[s].owner), s);
  }

  // ----- owners run out of steps -----

  /** The bytes and the writes that are left. */
  function Cost(todo: seq<string>): nat { |Sse.Flatten(todo)| + |todo| }

  const PING_COST: nat := Cost(Pieces(UnitOf(Ping, "")))

  /** How many steps an owner has left at most once g_shutdown is set, when the
      list never has more than n nodes. `id` is its session's name. */
  function Fuel(pc: Pc, id: string, n: nat): nat {
    match pc
    case InsertWant(_) => n + PING_COST + Cost(Pieces(UnitOf(Head, id))) + 23
    case Insert(_) => n + PING_COST + Cost(Pieces(UnitOf(Head, id))) + 22
    case InsertUnlock(_) => n + PING_COST + Cost(Pieces(UnitOf(Head, id))) + 21
    case WriteWant(_, job) =>
      if job == Head then n + PING_COST + Cost(Pieces(UnitOf(Head, id))) + 20 else n + PING_COST + 14
    case WriteBegin(_, job) =>
      if job == Head then n + PING_COST + Cost(Pieces(UnitOf(Head, id))) + 19 else n + PING_COST + 13
    case Writing(_, job, _, todo) => if job == Head then n + PING_COST + Cost(todo) + 18 else n + Cost(todo) + 12
    case WriteUnlock(_, job, _) => if job == Head then n + PING_COST + 17 else n + 11
    case PollClosed(_) => n + PING_COST + 16
    case Recv(_) => n + PING_COST + 15
    case PollShutdown(_) => n + 10
    case Leave(_) => n + 9
    case UnlinkWant(_) => n + 8
    case Unlink(_, rest) => |rest| + 7
    case UnlinkUnlock(_) => 6
    case Release(_) => 5
    case Destroy(_) => 4
    case Free(_) => 3
    case SockShutdown(_) => 2
    case SockClose(_) => 1
    case _ => 0
  }

  /** A send that takes no byte is the one step that makes no progress. */
  predicate SendsNothing(st: State, pc: Pc, ch: Choice) {
    pc.Writing? && pc.todo != [] && pc.todo[0] != "" && ch.ok && ch.n == 0
    && pc.s in st.sessions && st.sessions[pc.s].sock == Open && !st.sessions[pc.s].broken
  }

  lemma SentCosts(todo: seq<string>, n: nat)
    requires todo != [] && n <= |todo[0]|
    ensures Cost([todo[0][n..]] + todo[1..]) == Cost(todo) - n
    ensures Cost(todo[1..]) == Cost(todo) - |todo[0]| - 1
  {
    assert Sse.Flatten(todo) == todo[0] + Sse.Flatten(todo[1..]);
    Sse.FlattenCons(todo[0][n..], todo[1..]);
  }

  lemma WriteBurns(st: State, t: Tid, ch: Choice, e: Effect, n: nat)
    requires t in st.threads && Writes(st.threads[t].pc) && WriteStep(st, t, ch) == Some(e)
    requires WellTyped(Stream, st.threads[t].pc) && st.threads[t].role == Stream
    requires st.threads[t].pc.s in st.sessions
    ensures var id := st.sessions[st.threads[t].pc.s].id;
      var left := Fuel(e.th.pc, id, n) + if SendsNothing(st, st.threads[t].pc, ch) then 0 else 1;
      left <= Fuel(st.threads[t].pc, id, n)
  {
    hide Cost, Pieces, UnitOf;
    var pc := st.threads[t].pc;
    if pc.WriteBegin? {
      PingCost(st.sessions[pc.s].id);
    } else if pc.Writing? {
      WritingBurns(st, t, ch, e);
    }
  }

  lemma PingCost(id: string)
    ensures Cost(Pieces(UnitOf(Ping, id))) == PING_COST
  {}

  lemma WritingBurns(st: State, t: Tid, ch: Choice, e: Effect)
    requires t in st.threads && st.threads[t].pc.Writing? && WriteStep(st, t, ch) == Some(e)
    requires st.threads[t].pc.s in st.sessions
    ensures var pc, now := st.threads[t].pc, e.th.pc;
      if now.Writing? then
        now.job == pc.job && Cost(now.todo) + (if SendsNothing(st, pc, ch) then 0 else 1) <= Cost(pc.todo)
      else now.WriteUnlock? && now.job == pc.job
  {
    hide Cost, Pieces, UnitOf;
    var pc := st.threads[t].pc;
    if pc.todo != [] { SentCosts(pc.todo, if ch.n <= |pc.todo[0]| then ch.n else |pc.todo[0]|); }
  }

  lemma StepBurns(c: Config, st: State, t: Tid, ch: Choice, e: Effect, n: nat)
    requires t in st.threads && st.threads[t].role == Stream && WellTyped(Stream, st.threads[t].pc)
    requires About(st.threads[t].pc).Some? && About(st.threads[t].pc).value in st.sessions
    requires st.sh.shutdown && |st.sh.list| <= n && ThreadStep(c, st, t, ch) == Some(e)
    ensures var id := st.sessions[About(st.threads[t].pc).value].id;
      var left := Fuel(e.th.pc, id, n) + if SendsNothing(st, st.threads[t].pc, ch) then 0 else 1;
      left <= Fuel(st.threads[t].pc, id, n)
  {
    hide Cost, Pieces, UnitOf, WriteStep;
    if Writes(st.threads[t].pc) { WriteBurns(st, t, ch, e, n); }
  }

  lemma {:induction false} NoLonger(list: seq<Sid>, keys: set<Sid>)
    requires Distinct(list) && forall i :: 0 <= i < |list| ==> list[i] in keys
    ensures |list| <= |keys|
  {
    if list != [] {
      NoLonger(list[1..], keys - {list[0]});
    }
  }

  /** The steps of thread t from state i up to state j, but for sends of no byte. */
  ghost function Progress(states: seq<State>, actions: seq<Action>, t: Tid, i: nat, j: nat): nat
    requires i <= j <= |actions| < |states|
    decreases j
  {
    if j == i then 0
    else Progress(states, actions, t, i, j - 1) + if Advances(states[j - 1], actions[j - 1], t) then 1 else 0
  }

  ghost predicate Advances(st: State, a: Action, t: Tid) {
    a.Go? && a.t == t && !SendsNothing(st, PcOf(st, t), a.ch)
  }

  /** What stays while owner t is about session s, and what a step of it costs. */
  lemma StepUsesFuel(c: Config, st: State, a: Action, st': State, s: Sid, t: Tid, n: nat)
    requires Inv(st) && Step(c, st, a) == Some(st') && st.sh.shutdown && |st.sessions| <= n
    requires s in st.sessions && st.sessions[s].owner == t
    ensures s in st'.sessions && st'.sessions[s].owner == t && st'.sessions[s].id == st.sessions[s].id
    ensures st'.sh.shutdown && st.sessions.Keys <= st'.sessions.Keys
    ensures Fuel(PcOf(st', t), st.sessions[s].id, n) + (if Advances(st, a, t) then 1 else 0)
         <= Fuel(PcOf(st, t), st.sessions[s].id, n)
  {
    hide Fuel, SendsNothing, ThreadStep, Inv;
    match a
    case Signal =>
    case Spawn(_, _) => OwnerIsThere(st, s);
    case Go(u, ch) =>
      var e := ThreadStep(c, st, u, ch).value;
      SessionStays(c, st, u, ch, e, s);
      if u == t { OwnStepUses(c, st, t, ch, e, s, n); }
  }

  lemma OwnerIsThere(st: State, s: Sid)
    requires Inv(st) && s in st.sessions
    ensures st.sessions[s].owner in st.threads
  {
    assert OwnerOf(st, s, st.sessions[s].owner);
  }

  lemma SessionStays(c: Config, st: State, t: Tid, ch: Choice, e: Effect, s: Sid)
    requires Inv(st) && t in st.threads && ThreadStep(c, st, t, ch) == Some(e) && s in st.sessions
    ensures var st' := Apply(st, t, e);
      && s in st'.sessions && st'.sessions[s].owner == st.sessions[s].owner && st'.sessions[s].id == st.sessions[s].id
      && (st.sh.shutdown ==> st'.sh.shutdown) && st.sessions.Keys <= st'.sessions.Keys
  {
    hide ThreadStep, CellLocal, FlagsLocal, SockLocal, AboutLocal, MainStep;
    assert Typed(st);
    StepLocal(c, st, t, ch, e);
    StepFlags(c, st, t, ch, e);
    CellStays(st, t, e, s);
  }

  lemma CellStays(st: State, t: Tid, e: Effect, s: Sid)
    requires t in st.threads && CellLocal(st, t, st.threads[t], e) && s in st.sessions
    requires FlagsLocal(st, st.threads[t], e) || MainStep(st, t) == Some(e)
    ensures var st' := Apply(st, t, e);
      && s in st'.sessions && st'.sessions[s].owner == st.sessions[s].owner && st'.sessions[s].id == st.sessions[s].id
      && st'.sh.shutdown == st.sh.shutdown && st.sessions.Keys <= st'.sessions.Keys
  {
    if MainStep(st, t) == Some(e) { MainFlagsStay(st, t, e); }
  }

  lemma OwnStepUses(c: Config, st: State, t: Tid, ch: Choice, e: Effect, s: Sid, n: nat)
    requires Inv(st) && t in st.threads && ThreadStep(c, st, t, ch) == Some(e) && st.sh.shutdown
    requires s in st.sessions && st.sessions[s].owner == t && |st.sessions| <= n
    ensures Fuel(e.th.pc, st.sessions[s].id, n) + (if Advances(st, Go(t, ch), t) then 1 else 0)
         <= Fuel(st.threads[t].pc, st.sessions[s].id, n)
  {
    hide Fuel, SendsNothing;
    assert OwnerOf(st, s, t);
    OwnerGoesOn(c, st, t, ch);
    NoLonger(st.sh.list, st.sessions.Keys);
    hide ThreadStep;
    StepBurns(c, st, t, ch, e, n);
  }

  lemma MainFlagsStay(st: State, t: Tid, e: Effect)
    requires t in st.threads && MainStep(st, t) == Some(e)
    ensures e.sh.shutdown == st.sh.shutdown
  {}

  lemma OwnerGoesOn(c: Config, st: State, t: Tid, ch: Choice)
    requires t in st.threads && st.threads[t].role == Stream && ThreadStep(c, st, t, ch).Some?
    ensures st.threads[t].pc != Finished
  {}

  /** In every run, once g_shutdown is set, the owner of a session takes only so
      many more steps, sends of no byte apart, whatever the others do: the bound
      grows with its program point, the opening it still has to send and the
      number of sessions there are. By NoStreamMissesShutdown its recv does not
      wait for a client. */
  lemma {:induction false} OwnersRunOut(c: Config, states: seq<State>, actions: seq<Action>, i: nat, j: nat, s: Sid)
    requires IsRun(c, states, actions) && i <= j <= |actions|
    requires states[i].sh.shutdown && s in states[i].sessions
    ensures Progress(states, actions, states[i].sessions[s].owner, i, j)
         <= Fuel(PcOf(states[i], states[i].sessions[s].owner), states[i].sessions[s].id, |states[j].sessions|)
  {
    FuelLasts(c, states, actions, i, j, s, |states[j].sessions|);
  }

  lemma {:induction false} FuelLasts(c: Config, states: seq<State>, actions: seq<Action>, i: nat, j: nat,
                                     s: Sid, n: nat)
    requires IsRun(c, states, actions) && i <= j <= |actions|
    requires states[i].sh.shutdown && s in states[i].sessions && |states[j].sessions| <= n
    ensures var t, id := states[i].sessions[s].owner, states[i].sessions[s].id;
      && states[j].sh.shutdown && s in states[j].sessions
      && states[j].sessions[s].owner == t && states[j].sessions[s].id == id
      && Progress(states, actions, t, i, j) + Fuel(PcOf(states[j], t), id, n) <= Fuel(PcOf(states[i], t), id, n)
    decreases j
  {
    hide Inv, Step, Fuel, Advances;
    if j > i {
      RunInv(c, states, actions, j - 1);
      assert StepAt(c, states, actions, j - 1);
      FewerBefore(c, states[j - 1], actions[j - 1], states[j]);
      FuelLasts(c, states, actions, i, j - 1, s, n);
      StepUsesFuel(c, states[j - 1], actions[j - 1], states[j], s, states[i].sessions[s].owner, n);
    }
  }

  /** Sessions stay in the table of the model once they are there. */
  lemma FewerBefore(c: Config, st: State, a: Action, st': State)
    requires Step(c, st, a) == Some(st')
    ensures |st.sessions| <= |st'.sessions|
  {
    hide ThreadStep;
    SubsetSize(st.sessions.Keys, st'.sessions.Keys);
  }

  lemma {:induction false} SubsetSize(a: set<Sid>, b: set<Sid>)
    requires a <= b
    ensures |a| <= |b|
  {
    if a != {} {
      var s :| s in a;
      SubsetSize(a - {s}, b - {s});
    }
  }
}
