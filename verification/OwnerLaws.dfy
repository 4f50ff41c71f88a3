/** The loop of a stream owner (src/mcp_http.c:488-519), in every run: when it
    ends, that an idle stream is kept alive, and what a finished owner leaves. */
module OwnerLaws {
  import opened Json
  import opened Machine
  import opened Lifetime
  import opened Streams
  import Sse

  /** The owner has left its loop for good. */
  predicate Left(pc: Pc) {
    || pc.UnlinkWant? || pc.Unlink? || pc.UnlinkUnlock? || pc.Release? || pc.Destroy? || pc.Free?
    || pc.SockShutdown? || pc.SockClose? || pc.Finished?
  }

  /** A writer that gives the lock back has completed its unit, or a send on the
      stream has failed, or it is a poster and the session was closed. */
  ghost predicate WriterDone(t: Tid, th: Thread, sessions: map<Sid, Session>) {
    && (th.pc.Writing? ==> EndsFull(th.pc.todo))
    && (th.pc.WriteUnlock? && th.pc.s in sessions ==>
          var se := sessions[th.pc.s];
          if th.pc.ok then se.log != [] && se.log[|se.log| - 1] == Entry(t, UnitOf(th.pc.job, se.id))
          else se.broken || (th.pc.job.Reply? && se.closed))
  }

  /** An owner that has left has closed its session, and one that is done has
      closed the socket. */
  ghost predicate OwnerDone(st: State, se: Session) {
    var pc := PcOf(st, se.owner);
    (Left(pc) ==> se.closed) && (pc.Finished? ==> se.sock == Closed)
  }

  ghost predicate OwnersDone(st: State) {
    && (forall t :: t in st.threads ==> WriterDone(t, st.threads[t], st.sessions))
    && (forall s :: s in st.sessions ==> OwnerDone(st, st.sessions[s]))
  }

  // ----- one step -----

  /** What no step does to a session that is there. */
  ghost predicate Grows(th: Thread, s: Sid, was: Session, se: Session) {
    && se.id == was.id && se.owner == was.owner
    && (was.closed ==> se.closed) && (was.broken ==> se.broken)
    && (was.sock == Closed ==> se.sock == Closed || th.pc == SockShutdown(s))
    && was.holds <= se.holds
    && (HoldsWrite(th.pc) != Some(s) ==> se.log == was.log)
  }

  ghost predicate GrowsLocal(st: State, th: Thread, e: Effect) {
    e.cell.Some? ==>
      var Cell(s, se) := e.cell.value;
      if s in st.sessions then Grows(th, s, st.sessions[s], se)
      else th.pc == Fresh && e.th.pc == InsertWant(s) && !th.role.Main?
  }

  /** How an owner leaves, and how it ends. */
  ghost predicate LeaveLocal(st: State, th: Thread, e: Effect) {
    th.role == Stream && th.pc != Fresh ==>
      && (Left(e.th.pc) && !Left(th.pc) ==> e.cell.Some? && OnItsOwn(th, e.cell.value) && e.cell.value.se.closed)
      && (e.th.pc == Finished && th.pc != Finished ==>
            e.cell.Some? && OnItsOwn(th, e.cell.value) && e.cell.value.se.sock == Closed)
  }

  predicate OnItsOwn(th: Thread, cell: Cell) { About(th.pc) == Some(cell.s) }

  ghost predicate OwnerLocal(st: State, t: Tid, e: Effect)
    requires t in st.threads
  {
    && GrowsLocal(st, st.threads[t], e) && LeaveLocal(st, st.threads[t], e)
    && WriterDone(t, e.th, Apply(st, t, e).sessions)
  }

  lemma MainOwner(st: State, t: Tid, e: Effect)
    requires t in st.threads && st.threads[t].role == Main && MainStep(st, t) == Some(e)
    ensures OwnerLocal(st, t, e)
  {}

  lemma StreamOwner(st: State, t: Tid, ch: Choice, e: Effect)
    requires t in st.threads && st.threads[t].role == Stream && StreamStep(st, t, ch) == Some(e)
    ensures OwnerLocal(st, t, e)
  {}

  lemma PostOwner(c: Config, st: State, t: Tid, sid: string, body: Option<Json>, ch: Choice, e: Effect)
    requires t in st.threads && st.threads[t].role.Post? && PostStep(c, st, t, sid, body, ch) == Some(e)
    ensures OwnerLocal(st, t, e)
  {}

  lemma DispatchOwner(c: Config, st: State, t: Tid, msg: Json, e: Effect)
    requires t in st.threads && st.threads[t].role != Stream && DispatchStep(c, st, t, msg) == Some(e)
    ensures OwnerLocal(st, t, e)
  {}

  lemma ReleaseOwner(st: State, t: Tid, e: Effect)
    requires t in st.threads && Releases(st.threads[t].pc) && ReleaseStep(st, t) == Some(e)
    ensures OwnerLocal(st, t, e)
  {}

  lemma WriteGrows(st: State, t: Tid, ch: Choice, e: Effect)
    requires t in st.threads && WellTyped(st.threads[t].role, st.threads[t].pc)
    requires Writes(st.threads[t].pc) && WriteStep(st, t, ch) == Some(e)
    ensures GrowsLocal(st, st.threads[t], e) && LeaveLocal(st, st.threads[t], e)
  {
    hide Pieces, UnitOf;
  }

  lemma WriteDone(st: State, t: Tid, ch: Choice, e: Effect)
    requires t in st.threads && Writes(st.threads[t].pc) && WriteStep(st, t, ch) == Some(e)
    requires WellTyped(st.threads[t].role, st.threads[t].pc) && WriterDone(t, st.threads[t], st.sessions)
    ensures WriterDone(t, e.th, Apply(st, t, e).sessions)
  {
    var pc := st.threads[t].pc;
    if pc.WriteBegin? { PiecesEndFull(UnitOf(pc.job, st.sessions[pc.s].id)); }
    hide Pieces, UnitOf;
    if pc.Writing? {
      if pc.todo[0] == "" {
        assert pc.todo[1..][|pc.todo| - 2] == pc.todo[|pc.todo| - 1];
      } else {
        var n := if ch.n <= |pc.todo[0]| then ch.n else |pc.todo[0]|;
        if !(n == |pc.todo[0]| && |pc.todo| == 1) { PartialSend(pc.done, pc.todo, n); }
      }
    }
  }

  lemma StepOwner(c: Config, st: State, t: Tid, ch: Choice, e: Effect)
    requires t in st.threads && ThreadStep(c, st, t, ch) == Some(e)
    requires WellTyped(st.threads[t].role, st.threads[t].pc) && WriterDone(t, st.threads[t], st.sessions)
    ensures OwnerLocal(st, t, e) && e.th.role == st.threads[t].role
  {
    StepKeepsRole(c, st, t, ch, e);
    hide GrowsLocal, LeaveLocal, WriterDone;
    var th := st.threads[t];
    if Releases(th.pc) { ReleaseOwner(st, t, e); }
    else if Writes(th.pc) { WriteGrows(st, t, ch, e); WriteDone(st, t, ch, e); }
    else {
      match th.role
      case Main => MainOwner(st, t, e);
      case Stream => StreamOwner(st, t, ch, e);
      case Post(sid, body) =>
        if Dispatches(th.pc) && body.Some? { DispatchOwner(c, st, t, body.value, e); }
        else { PostOwner(c, st, t, sid, body, ch, e); }
      case Mcp(body) => DispatchOwner(c, st, t, body.value, e);
    }
  }

  lemma StepKeepsRole(c: Config, st: State, t: Tid, ch: Choice, e: Effect)
    requires t in st.threads && ThreadStep(c, st, t, ch) == Some(e)
    ensures e.th.role == st.threads[t].role
  {}

  /** A writer holds the lock, so that nobody else adds to the log. */
  lemma WriterDoneKept(st: State, t: Tid, e: Effect, u: Tid)
    requires t in st.threads && u in st.threads && u != t && WriteLocks(st) && Exist(st)
    requires GrowsLocal(st, st.threads[t], e) && WriterDone(u, st.threads[u], st.sessions)
    ensures WriterDone(u, st.threads[u], Apply(st, t, e).sessions)
  {
    var pc := st.threads[u].pc;
    if pc.WriteUnlock? {
      assert About(pc) == Some(pc.s);
      assert st.sessions[pc.s].lock == Some(u);
      assert st.sessions[pc.s].lock == Some(t) <==> HoldsWrite(st.threads[t].pc) == Some(pc.s);
    }
  }

  lemma OwnerDoneKept(st: State, t: Tid, e: Effect, s: Sid)
    requires t in st.threads && Owned(st) && GrowsLocal(st, st.threads[t], e) && LeaveLocal(st, st.threads[t], e)
    requires WellTyped(st.threads[t].role, st.threads[t].pc)
    requires s in st.sessions && OwnerDone(st, st.sessions[s])
    ensures OwnerDone(Apply(st, t, e), Apply(st, t, e).sessions[s])
  {
    assert OwnerOf(st, s, st.sessions[s].owner);
    if st.sessions[s].owner == t { OwnDone(st, t, e, s); } else { OtherDone(st, t, e, s); }
  }

  /** A step of the owner itself. */
  lemma OwnDone(st: State, t: Tid, e: Effect, s: Sid)
    requires t in st.threads && GrowsLocal(st, st.threads[t], e) && LeaveLocal(st, st.threads[t], e)
    requires s in st.sessions && st.sessions[s].owner == t && OwnerOf(st, s, t) && OwnerDone(st, st.sessions[s])
    ensures OwnerDone(Apply(st, t, e), Apply(st, t, e).sessions[s])
  {
    hide HoldsWrite, Left;
    assert st.threads[t].pc == Finished || About(st.threads[t].pc) == Some(s);
  }

  /** A step of another thread, which does not close the socket. */
  lemma OtherDone(st: State, t: Tid, e: Effect, s: Sid)
    requires t in st.threads && Owned(st) && GrowsLocal(st, st.threads[t], e)
    requires WellTyped(st.threads[t].role, st.threads[t].pc)
    requires s in st.sessions && st.sessions[s].owner != t && OwnerDone(st, st.sessions[s])
    ensures OwnerDone(Apply(st, t, e), Apply(st, t, e).sessions[s])
  {
    hide HoldsWrite, Left, OwnerOf, Exist;
    assert st.threads[t].pc != SockShutdown(s);
  }

  lemma NewOwner(st: State, t: Tid, e: Effect, s: Sid)
    requires t in st.threads && CellLocal(st, t, st.threads[t], e)
    requires s !in st.sessions && s in Apply(st, t, e).sessions
    ensures OwnerDone(Apply(st, t, e), Apply(st, t, e).sessions[s])
  {}

  lemma EffectKeepsOwners(c: Config, st: State, t: Tid, ch: Choice, e: Effect)
    requires Typed(st) && Owned(st) && WriteLocks(st) && OwnersDone(st)
    requires t in st.threads && ThreadStep(c, st, t, ch) == Some(e)
    ensures OwnersDone(Apply(st, t, e))
  {
    hide ThreadStep, WriterDone, OwnerDone, GrowsLocal, LeaveLocal, WriteLocks, CellLocal, AboutLocal;
    var st' := Apply(st, t, e);
    StepOwner(c, st, t, ch, e);
    StepLocal(c, st, t, ch, e);
    forall u | u in st'.threads ensures WriterDone(u, st'.threads[u], st'.sessions) {
      if u != t { WriterDoneKept(st, t, e, u); }
    }
    forall s | s in st'.sessions ensures OwnerDone(st', st'.sessions[s]) {
      if s in st.sessions { OwnerDoneKept(st, t, e, s); } else { NewOwner(st, t, e, s); }
    }
  }

  lemma StepKeepsOwners(c: Config, st: State, a: Action, st': State)
    requires Inv(st) && OwnersDone(st) && Step(c, st, a) == Some(st')
    ensures OwnersDone(st')
  {
    hide ThreadStep, WriterDone;
    match a
    case Signal => OwnersIrrelevant(st, st');
    case Spawn(t, role) =>
      StartHoldsNothing(role, st.sh.now);
      SpawnKeepsOwners(st, t, role);
      OwnersIrrelevant(Spawned(st, t, role), st');
    case Go(t, ch) =>
      var e := ThreadStep(c, st, t, ch).value;
      EffectKeepsOwners(c, st, t, ch, e);
      OwnersIrrelevant(Apply(st, t, e), st');
  }

  lemma SpawnKeepsOwners(st: State, t: Tid, role: Role)
    requires Owned(st) && OwnersDone(st) && t !in st.threads && role != Main
    ensures OwnersDone(Spawned(st, t, role))
  {
    var st' := Spawned(st, t, role);
    SpawnWriter(t, role, st.sh.now, st.sessions);
    hide WriterDone;
    forall s | s in st'.sessions ensures OwnerDone(st', st'.sessions[s]) {
      assert OwnerDone(st, st.sessions[s]) && OwnerOf(st, s, st.sessions[s].owner);
    }
  }

  lemma SpawnWriter(t: Tid, role: Role, now: nat, sessions: map<Sid, Session>)
    ensures WriterDone(t, Start(role, now), sessions)
  {}

  lemma OwnersIrrelevant(st: State, st': State)
    requires OwnersDone(st) && st'.threads == st.threads && st'.sessions == st.sessions
    ensures OwnersDone(st')
  {
    forall s | s in st'.sessions ensures OwnerDone(st', st'.sessions[s]) {
      assert OwnerDone(st, st.sessions[s]);
    }
  }

  lemma NextOwners(c: Config, states: seq<State>, actions: seq<Action>, i: nat)
    requires |states| == |actions| + 1 && i < |actions| && StepAt(c, states, actions, i)
    requires Inv(states[i]) && OwnersDone(states[i])
    ensures OwnersDone(states[i + 1])
  {
    StepKeepsOwners(c, states[i], actions[i], states[i + 1]);
  }

  lemma {:induction false} RunOwners(c: Config, states: seq<State>, actions: seq<Action>, i: nat)
    requires IsRun(c, states, actions) && i < |states|
    ensures OwnersDone(states[i])
  {
    hide Inv, OwnerDone;
    if i > 0 {
      RunOwners(c, states, actions, i - 1);
      RunInv(c, states, actions, i - 1);
      NextOwners(c, states, actions, i - 1);
    }
  }

  // ----- when the loop ends -----

  /** A step that makes an owner leave its loop, and why. */
  lemma LeavesBecause(c: Config, st: State, t: Tid, ch: Choice, e: Effect, s: Sid)
    requires t in st.threads && st.threads[t].role == Stream && ThreadStep(c, st, t, ch) == Some(e)
    requires WellTyped(st.threads[t].role, st.threads[t].pc) && WriterDone(t, st.threads[t], st.sessions)
    requires e.th.pc == Leave(s)
    ensures About(st.threads[t].pc) == Some(s)
    ensures || st.sh.shutdown
            || (s in st.sessions && (st.sessions[s].closed || st.sessions[s].broken))
            || (st.threads[t].pc == Recv(s) && (ch.recv == Eof || ch.recv == Failed))
  {
    hide Pieces, UnitOf;
  }

  /** In every run an owner leaves its loop only because g_shutdown is set, its
      session is closed, recv has just returned the end of the stream or an error,
      or a send on its stream has failed. */
  lemma OwnerLeavesOnlyWhen(c: Config, states: seq<State>, actions: seq<Action>, i: nat, t: Tid, ch: Choice, s: Sid)
    requires IsRun(c, states, actions) && i < |actions| && actions[i] == Go(t, ch)
    requires t in states[i + 1].threads && states[i + 1].threads[t].pc == Leave(s)
    ensures t in states[i].threads && s in states[i].sessions && states[i].sessions[s].owner == t
    ensures || states[i].sh.shutdown || states[i].sessions[s].closed || states[i].sessions[s].broken
            || (states[i].threads[t].pc == Recv(s) && (ch.recv == Eof || ch.recv == Failed))
  {
    hide Inv, OwnersDone;
    RunInv(c, states, actions, i);
    RunOwners(c, states, actions, i);
    InvParts(states[i]);
    assert StepAt(c, states, actions, i);
    StepLeaves(c, states[i], states[i + 1], t, ch, s);
  }

  lemma InvParts(st: State)
    requires Inv(st)
    ensures Typed(st) && Exist(st) && Owned(st)
  {
    hide Typed, GlobalLocks, WriteLocks, Counts, Reaped, Listing, Cursors;
  }

  lemma StepLeaves(c: Config, st: State, st': State, t: Tid, ch: Choice, s: Sid)
    requires Typed(st) && Owned(st) && OwnersDone(st) && Step(c, st, Go(t, ch)) == Some(st')
    requires t in st'.threads && st'.threads[t].pc == Leave(s)
    ensures t in st.threads && s in st.sessions && st.sessions[s].owner == t
    ensures || st.sh.shutdown || st.sessions[s].closed || st.sessions[s].broken
            || (st.threads[t].pc == Recv(s) && (ch.recv == Eof || ch.recv == Failed))
  {
    hide ThreadStep, WriterDone, OwnerDone;
    var e := ThreadStep(c, st, t, ch).value;
    LeaverIsStream(c, st, t, ch, e, s);
    LeavesBecause(c, st, t, ch, e, s);
  }

  lemma LeaverIsStream(c: Config, st: State, t: Tid, ch: Choice, e: Effect, s: Sid)
    requires t in st.threads && ThreadStep(c, st, t, ch) == Some(e) && e.th.pc == Leave(s)
    requires WellTyped(st.threads[t].role, st.threads[t].pc)
    ensures st.threads[t].role == Stream
  {
    hide Pieces, UnitOf;
  }

  /** In every run what recv returns decides how the loop goes on: data that came
      and an interrupt lead to the next look at g_shutdown, and fifteen seconds
      without either to a keepalive; only the end of the stream and an error end
      the loop. */
  lemma LoopGoesOn(c: Config, states: seq<State>, actions: seq<Action>, i: nat, t: Tid, ch: Choice, s: Sid)
    requires IsRun(c, states, actions) && i < |actions| && actions[i] == Go(t, ch)
    requires t in states[i].threads && states[i].threads[t].pc == Recv(s)
    ensures t in states[i + 1].threads
    ensures var pc := states[i + 1].threads[t].pc;
      && (ch.recv == Data || ch.recv == Interrupted <==> pc == PollShutdown(s))
      && (ch.recv == Timeout <==> pc == WriteWant(s, Ping))
      && (ch.recv == Eof || ch.recv == Failed <==> pc == Leave(s))
  {
    hide Inv;
    RunInv(c, states, actions, i);
    InvParts(states[i]);
    assert StepAt(c, states, actions, i);
    RecvSteps(c, states[i], states[i + 1], t, ch, s);
  }

  lemma RecvSteps(c: Config, st: State, st': State, t: Tid, ch: Choice, s: Sid)
    requires Typed(st) && Step(c, st, Go(t, ch)) == Some(st') && st.threads[t].pc == Recv(s)
    ensures t in st'.threads
    ensures var pc := st'.threads[t].pc;
      && (ch.recv == Data || ch.recv == Interrupted <==> pc == PollShutdown(s))
      && (ch.recv == Timeout <==> pc == WriteWant(s, Ping))
      && (ch.recv == Eof || ch.recv == Failed <==> pc == Leave(s))
  {
    assert WellTyped(st.threads[t].role, st.threads[t].pc);
  }

  /** The two looks of the loop, and the end of a write, send an owner out exactly
      when they find what they look for. */
  lemma LoopLooks(c: Config, states: seq<State>, actions: seq<Action>, i: nat, t: Tid, ch: Choice)
    requires IsRun(c, states, actions) && i < |actions| && actions[i] == Go(t, ch)
    requires t in states[i].threads && states[i].threads[t].role == Stream
    ensures t in states[i + 1].threads
    ensures var pc, pc' := states[i].threads[t].pc, states[i + 1].threads[t].pc;
      && (pc.PollShutdown? ==> pc' == if states[i].sh.shutdown then Leave(pc.s) else PollClosed(pc.s))
      && (pc.PollClosed? ==>
            pc.s in states[i].sessions && pc' == if states[i].sessions[pc.s].closed then Leave(pc.s) else Recv(pc.s))
      && (pc.WriteUnlock? ==> pc' == if pc.ok then PollShutdown(pc.s) else Leave(pc.s))
  {
    hide Inv;
    RunInv(c, states, actions, i);
    InvParts(states[i]);
    assert StepAt(c, states, actions, i);
    StepLooks(c, states[i], states[i + 1], t, ch);
  }

  lemma StepLooks(c: Config, st: State, st': State, t: Tid, ch: Choice)
    requires Typed(st) && Step(c, st, Go(t, ch)) == Some(st') && st.threads[t].role == Stream
    ensures t in st'.threads
    ensures var pc, pc' := st.threads[t].pc, st'.threads[t].pc;
      && (pc.PollShutdown? ==> pc' == if st.sh.shutdown then Leave(pc.s) else PollClosed(pc.s))
      && (pc.PollClosed? ==>
            pc.s in st.sessions && pc' == if st.sessions[pc.s].closed then Leave(pc.s) else Recv(pc.s))
      && (pc.WriteUnlock? ==> pc' == if pc.ok then PollShutdown(pc.s) else Leave(pc.s))
  {
    hide Pieces, UnitOf;
    assert WellTyped(st.threads[t].role, st.threads[t].pc);
  }

  // ----- keepalives -----

  /** The owner is still about to take the write_lock for its keepalive, or has
      held it since for that. */
  ghost predicate KeptAlive(st: State, t: Tid, s: Sid, n: nat) {
    && t in st.threads && s in st.sessions && n <= |st.sessions[s].holds|
    && (|| st.threads[t].pc == WriteWant(s, Ping)
        || exists k :: n <= k < |st.sessions[s].holds| && st.sessions[s].holds[k] == Entry(t, Sent(Sse.Keepalive)))
  }

  lemma PingTakes(c: Config, st: State, t: Tid, ch: Choice, e: Effect, s: Sid)
    requires t in st.threads && ThreadStep(c, st, t, ch) == Some(e) && st.threads[t].pc == WriteWant(s, Ping)
    ensures s in st.sessions && e.cell.Some? && e.cell.value.s == s
    ensures e.cell.value.se.holds == st.sessions[s].holds + [Entry(t, Sent(Sse.Keepalive))]
  {}

  lemma EffectKeepsAlive(c: Config, st: State, t: Tid, ch: Choice, e: Effect, u: Tid, s: Sid, n: nat)
    requires t in st.threads && ThreadStep(c, st, t, ch) == Some(e) && GrowsLocal(st, st.threads[t], e)
    requires KeptAlive(st, u, s, n)
    ensures KeptAlive(Apply(st, t, e), u, s, n)
  {
    hide ThreadStep;
    var st' := Apply(st, t, e);
    var was, se := st.sessions[s], st'.sessions[s];
    assert was.holds <= se.holds;
    if st.threads[u].pc == WriteWant(s, Ping) {
      if t == u {
        PingTakes(c, st, t, ch, e, s);
        assert se.holds[|was.holds|] == Entry(t, Sent(Sse.Keepalive));
      }
    } else {
      var k :| n <= k < |was.holds| && was.holds[k] == Entry(u, Sent(Sse.Keepalive));
      assert se.holds[k] == was.holds[k];
    }
  }

  lemma StepKeepsAlive(c: Config, st: State, a: Action, st': State, u: Tid, s: Sid, n: nat)
    requires Typed(st) && OwnersDone(st) && Step(c, st, a) == Some(st') && KeptAlive(st, u, s, n)
    ensures KeptAlive(st', u, s, n)
  {
    hide ThreadStep, GrowsLocal, OwnerDone;
    match a
    case Signal =>
    case Spawn(t, role) =>
    case Go(t, ch) =>
      var e := ThreadStep(c, st, t, ch).value;
      StepOwner(c, st, t, ch, e);
      EffectKeepsAlive(c, st, t, ch, e, u, s, n);
  }

  lemma NextAlive(c: Config, states: seq<State>, actions: seq<Action>, i: nat, t: Tid, s: Sid, n: nat)
    requires |states| == |actions| + 1 && i < |actions| && StepAt(c, states, actions, i)
    requires Inv(states[i]) && OwnersDone(states[i]) && KeptAlive(states[i], t, s, n)
    ensures KeptAlive(states[i + 1], t, s, n)
  {
    StepKeepsAlive(c, states[i], actions[i], states[i + 1], t, s, n);
  }

  lemma {:induction false} RunAlive(c: Config, states: seq<State>, actions: seq<Action>, i: nat, j: nat,
                                    t: Tid, s: Sid, n: nat)
    requires IsRun(c, states, actions) && i <= j < |states| && KeptAlive(states[i], t, s, n)
    ensures KeptAlive(states[j], t, s, n)
  {
    hide Inv, OwnersDone, KeptAlive;
    if j > i {
      RunAlive(c, states, actions, i, j - 1, t, s, n);
      RunInv(c, states, actions, j - 1);
      RunOwners(c, states, actions, j - 1);
      assert StepAt(c, states, actions, j - 1);
      NextAlive(c, states, actions, j - 1, t, s, n);
    }
  }

  /** In every run, when recv times out in step i, the owner holds the write_lock
      for a keepalive before it does anything else: in every later state it is
      either still asking for the lock, or has had such a hold since. */
  lemma KeepaliveFollowsTimeout(c: Config, states: seq<State>, actions: seq<Action>, i: nat, j: nat,
                                t: Tid, ch: Choice, s: Sid)
    requires IsRun(c, states, actions) && i < j < |states| && actions[i] == Go(t, ch)
    requires t in states[i].threads && states[i].threads[t].pc == Recv(s) && ch.recv == Timeout
    ensures s in states[i].sessions && KeptAlive(states[j], t, s, |states[i].sessions[s].holds|)
  {
    hide Inv;
    RunInv(c, states, actions, i);
    InvParts(states[i]);
    assert StepAt(c, states, actions, i);
    TimedOut(c, states[i], states[i + 1], t, ch, s);
    RunAlive(c, states, actions, i + 1, j, t, s, |states[i].sessions[s].holds|);
  }

  lemma TimedOut(c: Config, st: State, st': State, t: Tid, ch: Choice, s: Sid)
    requires Typed(st) && Exist(st) && Step(c, st, Go(t, ch)) == Some(st')
    requires st.threads[t].pc == Recv(s) && ch.recv == Timeout
    ensures s in st.sessions && KeptAlive(st', t, s, |st.sessions[s].holds|)
  {
    assert WellTyped(st.threads[t].role, st.threads[t].pc);
    assert About(st.threads[t].pc) == Some(s);
  }

  // ----- what is left behind -----

  /** In every run a writer that gives the write_lock back has completed its unit,
      the last one on the stream, which for a poster is a message event; or a send on
      that stream has failed, or it is a poster whose session was closed. */
  lemma WritersFinish(c: Config, states: seq<State>, actions: seq<Action>, i: nat, t: Tid)
    requires IsRun(c, states, actions) && i < |states| && t in states[i].threads
    requires states[i].threads[t].pc.WriteUnlock?
    ensures var pc := states[i].threads[t].pc;
      && pc.s in states[i].sessions
      && var se := states[i].sessions[pc.s];
      if !pc.ok then se.broken || (pc.job.Reply? && se.closed)
      else
        && se.log != [] && se.log[|se.log| - 1].who == t
        && var sent := se.log[|se.log| - 1].what;
        match pc.job
        case Head => sent == Opening(se.id)
        case Ping => sent == Sent(Sse.Keepalive)
        case Reply(text) => sent == Sent(Sse.Event("message", text))
  {
    hide IsRun, Inv, Typed, Owned, OwnerDone;
    RunInv(c, states, actions, i);
    RunOwners(c, states, actions, i);
    InvParts(states[i]);
    assert About(states[i].threads[t].pc) == Some(states[i].threads[t].pc.s);
    assert WriterDone(t, states[i].threads[t], states[i].sessions);
  }

  /** In every run an owner that has left its loop has closed its session, and one
      that is done has closed its socket. */
  lemma OwnersCleanUp(c: Config, states: seq<State>, actions: seq<Action>, i: nat, s: Sid)
    requires IsRun(c, states, actions) && i < |states| && s in states[i].sessions
    ensures var se := states[i].sessions[s];
      && (Left(PcOf(states[i], se.owner)) ==> se.closed)
      && (PcOf(states[i], se.owner).Finished? ==> se.sock == Closed)
  {
    hide IsRun, WriterDone;
    RunOwners(c, states, actions, i);
    assert OwnerDone(states[i], states[i].sessions[s]);
  }
}
