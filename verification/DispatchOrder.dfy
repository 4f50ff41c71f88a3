/** Concurrent dispatch is a sequential run of the dispatcher, in the order in
    which g_dispatch_lock was taken (src/mcp_http.c:395-401). */
module DispatchOrder {
  import opened Json
  import opened Machine
  import opened Lifetime
  import Protocol

  /** The server after the first k dispatches, one after the other. */
  function After(c: Config, order: seq<Turn>, k: nat): Protocol.Server
    requires k <= |order|
    decreases k, 0
  {
    if k == 0 then c.server else OutcomeAt(c, order, k - 1).server
  }

  /** Dispatch number k of the sequential run over all messages in lock order. */
  function OutcomeAt(c: Config, order: seq<Turn>, k: nat): Protocol.Outcome
    requires k < |order|
    decreases k, 1
  {
    c.handle(After(c, order, k), order[k].msg, k)
  }

  lemma {:induction false} AfterPrefix(c: Config, order: seq<Turn>, turn: Turn, k: nat)
    requires k <= |order|
    ensures After(c, order + [turn], k) == After(c, order, k)
  {
    if k > 0 { AfterPrefix(c, order, turn, k - 1); }
  }

  // ----- the invariant -----

  /** The lock holder has not written the server yet. */
  predicate Pending(pc: Pc) { pc.DispatchRead? || pc.DispatchWrite? }

  predicate BeforeDispatch(pc: Pc) {
    pc.FindWant? || pc.Find? || pc.Count? || pc.FindUnlock? || pc.Parse? || pc.DispatchWant?
  }

  ghost predicate ServerOk(c: Config, st: State) {
    var n := |st.sh.order|;
    match st.sh.dispLock
    case None => st.sh.server == After(c, st.sh.order, n)
    case Some(t) =>
      && n > 0
      && st.sh.server == After(c, st.sh.order, if Pending(PcOf(st, t)) then n - 1 else n)
  }

  /** What a thread that has dispatched knows of its turn. */
  ghost predicate TurnOk(c: Config, sh: Shared, t: Tid, th: Thread, k: nat) {
    && k < |sh.order| && sh.order[k].tid == t && MessageOf(th.role) == Some(sh.order[k].msg)
    && th.called <= sh.order[k].at
    && !BeforeDispatch(th.pc)
    && (HoldsDispatch(th.pc) ==> k == |sh.order| - 1)
    && (!Pending(th.pc) ==> th.reply == OutcomeAt(c, sh.order, k).reply)
    && (th.returned.Some? <==> !HoldsDispatch(th.pc))
    && (th.returned.Some? ==> sh.order[k].at < th.returned.value)
  }

  ghost predicate ThreadOk(c: Config, sh: Shared, t: Tid, th: Thread) {
    && th.called <= sh.now
    && (th.returned.Some? ==> th.returned.value < sh.now)
    && (th.pc.DispatchWrite? ==> th.pc.seen == sh.server)
    && (match th.slot
        case None => !HoldsDispatch(th.pc) && th.returned.None?
        case Some(k) => TurnOk(c, sh, t, th, k))
  }

  ghost predicate OrderOk(st: State) {
    && (forall k :: 0 <= k < |st.sh.order| ==>
          && st.sh.order[k].tid in st.threads && st.threads[st.sh.order[k].tid].slot == Some(k)
          && st.sh.order[k].at < st.sh.now)
    && (forall j, k :: 0 <= j < k < |st.sh.order| ==> st.sh.order[j].at < st.sh.order[k].at)
  }

  ghost predicate DispatchOk(c: Config, st: State) {
    && ServerOk(c, st) && OrderOk(st)
    && (forall t :: t in st.threads ==> ThreadOk(c, st.sh, t, st.threads[t]))
  }

  // ----- steps that do not dispatch -----

  ghost predicate SharedAside(st: State, e: Effect) {
    && e.sh.server == st.sh.server && e.sh.order == st.sh.order && e.sh.dispLock == st.sh.dispLock
    && e.sh.now == st.sh.now
  }

  ghost predicate RecordAside(st: State, th: Thread, e: Effect) {
    && e.th.role == th.role && e.th.slot == th.slot && e.th.returned == th.returned
    && (e.th.called == th.called || (BeforeDispatch(th.pc) && e.th.called == st.sh.now))
    && e.th.reply == th.reply
  }

  /** The step leaves the server and the order alone; at most it starts a call. */
  ghost predicate Aside(st: State, th: Thread, e: Effect) {
    && SharedAside(st, e) && RecordAside(st, th, e)
    && (BeforeDispatch(e.th.pc) ==> BeforeDispatch(th.pc))
    && !HoldsDispatch(th.pc) && !HoldsDispatch(e.th.pc)
  }

  lemma MainSharedAside(st: State, t: Tid, e: Effect)
    requires t in st.threads && MainStep(st, t) == Some(e)
    ensures SharedAside(st, e)
  {}

  lemma MainRecordAside(st: State, t: Tid, e: Effect)
    requires t in st.threads && MainStep(st, t) == Some(e)
    ensures RecordAside(st, st.threads[t], e)
  {}

  lemma MainAside(st: State, t: Tid, e: Effect)
    requires t in st.threads && MainStep(st, t) == Some(e)
    ensures Aside(st, st.threads[t], e)
  {
    MainSharedAside(st, t, e);
    MainRecordAside(st, t, e);
  }

  lemma StreamSharedAside(st: State, t: Tid, ch: Choice, e: Effect)
    requires t in st.threads && StreamStep(st, t, ch) == Some(e)
    ensures SharedAside(st, e)
  {}

  lemma StreamRecordAside(st: State, t: Tid, ch: Choice, e: Effect)
    requires t in st.threads && StreamStep(st, t, ch) == Some(e)
    ensures RecordAside(st, st.threads[t], e)
  {}

  lemma StreamPcAside(st: State, t: Tid, ch: Choice, e: Effect)
    requires t in st.threads && StreamStep(st, t, ch) == Some(e)
    ensures !BeforeDispatch(e.th.pc) && !HoldsDispatch(st.threads[t].pc) && !HoldsDispatch(e.th.pc)
  {}

  lemma StreamAside(st: State, t: Tid, ch: Choice, e: Effect)
    requires t in st.threads && StreamStep(st, t, ch) == Some(e)
    ensures Aside(st, st.threads[t], e)
  {
    StreamPcAside(st, t, ch, e);
    hide StreamStep;
    StreamSharedAside(st, t, ch, e);
    StreamRecordAside(st, t, ch, e);
  }

  lemma PostSharedAside(c: Config, st: State, t: Tid, sid: string, body: Option<Json>, ch: Choice, e: Effect)
    requires t in st.threads && PostStep(c, st, t, sid, body, ch) == Some(e)
    ensures SharedAside(st, e)
  {}

  lemma PostRecordAside(c: Config, st: State, t: Tid, sid: string, body: Option<Json>, ch: Choice, e: Effect)
    requires t in st.threads && PostStep(c, st, t, sid, body, ch) == Some(e)
    ensures RecordAside(st, st.threads[t], e)
  {}

  lemma PostAside(c: Config, st: State, t: Tid, sid: string, body: Option<Json>, ch: Choice, e: Effect)
    requires t in st.threads && PostStep(c, st, t, sid, body, ch) == Some(e)
    ensures Aside(st, st.threads[t], e)
  {
    PostSharedAside(c, st, t, sid, body, ch, e);
    PostRecordAside(c, st, t, sid, body, ch, e);
  }

  lemma WriteSharedAside(st: State, t: Tid, ch: Choice, e: Effect)
    requires t in st.threads && Writes(st.threads[t].pc) && WriteStep(st, t, ch) == Some(e)
    ensures SharedAside(st, e)
  {}

  lemma WriteRecordAside(st: State, t: Tid, ch: Choice, e: Effect)
    requires t in st.threads && Writes(st.threads[t].pc) && WriteStep(st, t, ch) == Some(e)
    ensures RecordAside(st, st.threads[t], e)
  {}

  lemma WriteAside(st: State, t: Tid, ch: Choice, e: Effect)
    requires t in st.threads && Writes(st.threads[t].pc) && WriteStep(st, t, ch) == Some(e)
    ensures Aside(st, st.threads[t], e)
  {
    WriteSharedAside(st, t, ch, e);
    WriteRecordAside(st, t, ch, e);
  }

  lemma ReleaseSharedAside(st: State, t: Tid, e: Effect)
    requires t in st.threads && Releases(st.threads[t].pc) && ReleaseStep(st, t) == Some(e)
    ensures SharedAside(st, e)
  {}

  lemma ReleaseRecordAside(st: State, t: Tid, e: Effect)
    requires t in st.threads && Releases(st.threads[t].pc) && ReleaseStep(st, t) == Some(e)
    ensures RecordAside(st, st.threads[t], e)
  {}

  lemma ReleaseAside(st: State, t: Tid, e: Effect)
    requires t in st.threads && Releases(st.threads[t].pc) && ReleaseStep(st, t) == Some(e)
    ensures Aside(st, st.threads[t], e)
  {
    ReleaseSharedAside(st, t, e);
    ReleaseRecordAside(st, t, e);
  }

  lemma AsideThread(c: Config, st: State, t: Tid, e: Effect)
    requires t in st.threads && ThreadOk(c, st.sh, t, st.threads[t]) && Aside(st, st.threads[t], e)
    ensures ThreadOk(c, e.sh, t, e.th)
  {}

  /** Another thread's facts, when server, order and clock stay. */
  lemma SameSharedThread(c: Config, sh: Shared, sh': Shared, u: Tid, th: Thread)
    requires ThreadOk(c, sh, u, th)
    requires sh'.order == sh.order && sh'.now == sh.now
    requires th.pc.DispatchWrite? ==> sh'.server == sh.server
    ensures ThreadOk(c, sh', u, th)
  {}

  lemma ServerAside(c: Config, st: State, t: Tid, e: Effect)
    requires GlobalLocks(st) && ServerOk(c, st) && t in st.threads && Aside(st, st.threads[t], e)
    ensures ServerOk(c, Apply(st, t, e))
  {
    if st.sh.dispLock.Some? {
      assert st.sh.dispLock.value != t;
      assert PcOf(Apply(st, t, e), st.sh.dispLock.value) == PcOf(st, st.sh.dispLock.value);
    }
  }

  lemma OrderKept(st: State, t: Tid, e: Effect)
    requires OrderOk(st) && t in st.threads && e.th.slot == st.threads[t].slot
    requires e.sh.order == st.sh.order && e.sh.now == st.sh.now
    ensures OrderOk(Apply(st, t, e))
  {}

  lemma AsideKeeps(c: Config, st: State, t: Tid, e: Effect)
    requires GlobalLocks(st) && DispatchOk(c, st) && t in st.threads && Aside(st, st.threads[t], e)
    ensures DispatchOk(c, Apply(st, t, e))
  {
    var st' := Apply(st, t, e);
    ServerAside(c, st, t, e);
    OrderKept(st, t, e);
    AsideThread(c, st, t, e);
    forall u | u in st'.threads ensures ThreadOk(c, st'.sh, u, st'.threads[u]) {
      if u != t { SameSharedThread(c, st.sh, e.sh, u, st.threads[u]); }
    }
  }

  // ----- steps that dispatch -----

  lemma LongerOrderThread(c: Config, sh: Shared, sh': Shared, turn: Turn, u: Tid, th: Thread)
    requires ThreadOk(c, sh, u, th) && !HoldsDispatch(th.pc)
    requires sh'.order == sh.order + [turn] && sh'.now == sh.now + 1
    ensures ThreadOk(c, sh', u, th)
  {
    if th.slot.Some? { AfterPrefix(c, sh.order, turn, th.slot.value); }
  }

  lemma TakeLockOrder(c: Config, st: State, t: Tid, msg: Json, e: Effect)
    requires OrderOk(st) && t in st.threads && st.threads[t].slot == None
    requires st.threads[t].pc.DispatchWant? && DispatchStep(c, st, t, msg) == Some(e)
    ensures OrderOk(Tick(Apply(st, t, e)))
  {
    var st' := Tick(Apply(st, t, e));
    var n := |st.sh.order|;
    forall k | 0 <= k < |st'.sh.order|
      ensures && st'.sh.order[k].tid in st'.threads && st'.threads[st'.sh.order[k].tid].slot == Some(k)
              && st'.sh.order[k].at < st'.sh.now
    {
      if k < n { assert st.threads[st.sh.order[k].tid].slot == Some(k) && st'.sh.order[k] == st.sh.order[k]; }
    }
  }

  lemma TakeLockServer(c: Config, st: State, t: Tid, msg: Json, e: Effect)
    requires ServerOk(c, st) && t in st.threads
    requires st.threads[t].pc.DispatchWant? && DispatchStep(c, st, t, msg) == Some(e)
    ensures ServerOk(c, Tick(Apply(st, t, e)))
  {
    AfterPrefix(c, st.sh.order, Turn(t, msg, st.sh.now), |st.sh.order|);
  }

  lemma TakeLockKeeps(c: Config, st: State, t: Tid, msg: Json, e: Effect)
    requires GlobalLocks(st) && DispatchOk(c, st) && t in st.threads && st.threads[t].pc.DispatchWant?
    requires MessageOf(st.threads[t].role) == Some(msg) && DispatchStep(c, st, t, msg) == Some(e)
    ensures DispatchOk(c, Tick(Apply(st, t, e)))
  {
    var st' := Tick(Apply(st, t, e));
    assert ThreadOk(c, st.sh, t, st.threads[t]);
    TakeLockServer(c, st, t, msg, e);
    TakeLockOrder(c, st, t, msg, e);
    TakerThread(c, st, t, msg, e);
    hide ServerOk, OrderOk, ThreadOk;
    forall u | u in st'.threads ensures ThreadOk(c, st'.sh, u, st'.threads[u]) {
      if u != t {
        assert !HoldsDispatch(st.threads[u].pc);
        LongerOrderThread(c, st.sh, st'.sh, Turn(t, msg, st.sh.now), u, st.threads[u]);
      }
    }
  }

  /** The thread that takes the lock has the last turn. */
  lemma TakerThread(c: Config, st: State, t: Tid, msg: Json, e: Effect)
    requires t in st.threads && ThreadOk(c, st.sh, t, st.threads[t])
    requires st.threads[t].pc.DispatchWant? && MessageOf(st.threads[t].role) == Some(msg)
    requires st.threads[t].slot == None && DispatchStep(c, st, t, msg) == Some(e)
    ensures ThreadOk(c, Tick(Apply(st, t, e)).sh, t, e.th)
  {
    hide After;
  }

  lemma ReadThread(c: Config, st: State, t: Tid, msg: Json, e: Effect)
    requires GlobalLocks(st) && ServerOk(c, st) && t in st.threads && st.threads[t].pc.DispatchRead?
    requires ThreadOk(c, st.sh, t, st.threads[t]) && DispatchStep(c, st, t, msg) == Some(e)
    ensures ThreadOk(c, e.sh, t, e.th) && ServerOk(c, Apply(st, t, e))
  {
    assert st.sh.dispLock == Some(t);
  }

  lemma ReadKeeps(c: Config, st: State, t: Tid, msg: Json, e: Effect)
    requires GlobalLocks(st) && DispatchOk(c, st) && t in st.threads && st.threads[t].pc.DispatchRead?
    requires DispatchStep(c, st, t, msg) == Some(e)
    ensures DispatchOk(c, Apply(st, t, e))
  {
    var st' := Apply(st, t, e);
    ReadThread(c, st, t, msg, e);
    OrderKept(st, t, e);
    forall u | u in st'.threads ensures ThreadOk(c, st'.sh, u, st'.threads[u]) {
      if u != t { SameSharedThread(c, st.sh, e.sh, u, st.threads[u]); }
    }
  }

  lemma WriteThread(c: Config, st: State, t: Tid, msg: Json, e: Effect)
    requires GlobalLocks(st) && ServerOk(c, st) && t in st.threads && st.threads[t].pc.DispatchWrite?
    requires ThreadOk(c, st.sh, t, st.threads[t])
    requires MessageOf(st.threads[t].role) == Some(msg) && DispatchStep(c, st, t, msg) == Some(e)
    ensures ThreadOk(c, e.sh, t, e.th) && ServerOk(c, Apply(st, t, e))
  {
    assert st.sh.dispLock == Some(t);
  }

  lemma WriteKeeps(c: Config, st: State, t: Tid, msg: Json, e: Effect)
    requires GlobalLocks(st) && DispatchOk(c, st) && t in st.threads && st.threads[t].pc.DispatchWrite?
    requires MessageOf(st.threads[t].role) == Some(msg) && DispatchStep(c, st, t, msg) == Some(e)
    ensures DispatchOk(c, Apply(st, t, e))
  {
    var st' := Apply(st, t, e);
    assert st.sh.dispLock == Some(t);
    WriteThread(c, st, t, msg, e);
    OrderKept(st, t, e);
    forall u | u in st'.threads ensures ThreadOk(c, st'.sh, u, st'.threads[u]) {
      if u != t {
        assert !HoldsDispatch(st.threads[u].pc);
        SameSharedThread(c, st.sh, e.sh, u, st.threads[u]);
      }
    }
  }

  lemma UnlockThread(c: Config, st: State, t: Tid, msg: Json, e: Effect)
    requires GlobalLocks(st) && ServerOk(c, st) && t in st.threads && st.threads[t].pc.DispatchUnlock?
    requires ThreadOk(c, st.sh, t, st.threads[t]) && DispatchStep(c, st, t, msg) == Some(e)
    requires st.threads[t].slot.Some? ==> st.sh.order[st.threads[t].slot.value].at < st.sh.now
    ensures ThreadOk(c, e.sh.(now := e.sh.now + 1), t, e.th) && ServerOk(c, Tick(Apply(st, t, e)))
  {
    assert st.sh.dispLock == Some(t);
  }

  lemma LaterThread(c: Config, sh: Shared, sh': Shared, u: Tid, th: Thread)
    requires ThreadOk(c, sh, u, th) && sh'.order == sh.order && sh'.server == sh.server && sh'.now == sh.now + 1
    ensures ThreadOk(c, sh', u, th)
  {}

  lemma UnlockKeeps(c: Config, st: State, t: Tid, msg: Json, e: Effect)
    requires GlobalLocks(st) && DispatchOk(c, st) && t in st.threads && st.threads[t].pc.DispatchUnlock?
    requires DispatchStep(c, st, t, msg) == Some(e)
    ensures DispatchOk(c, Tick(Apply(st, t, e)))
  {
    var st' := Tick(Apply(st, t, e));
    assert ThreadOk(c, st.sh, t, st.threads[t]);
    UnlockThread(c, st, t, msg, e);
    OrderKept(st, t, e);
    forall u | u in st'.threads ensures ThreadOk(c, st'.sh, u, st'.threads[u]) {
      if u != t { LaterThread(c, st.sh, st'.sh, u, st.threads[u]); }
    }
  }

  /** Time passes. */
  lemma TickKeeps(c: Config, st: State)
    requires DispatchOk(c, st)
    ensures DispatchOk(c, Tick(st))
  {
    var st' := Tick(st);
    forall u | u in st'.threads ensures ThreadOk(c, st'.sh, u, st'.threads[u]) {
      LaterThread(c, st.sh, st'.sh, u, st.threads[u]);
    }
    if st.sh.dispLock.Some? { assert PcOf(st', st.sh.dispLock.value) == PcOf(st, st.sh.dispLock.value); }
  }

  lemma DispatchKeeps(c: Config, st: State, t: Tid, msg: Json, e: Effect)
    requires GlobalLocks(st) && DispatchOk(c, st) && t in st.threads
    requires MessageOf(st.threads[t].role) == Some(msg) && DispatchStep(c, st, t, msg) == Some(e)
    ensures DispatchOk(c, Tick(Apply(st, t, e)))
  {
    match st.threads[t].pc
    case DispatchWant(_) => TakeLockKeeps(c, st, t, msg, e);
    case DispatchRead(_) => ReadKeeps(c, st, t, msg, e); TickKeeps(c, Apply(st, t, e));
    case DispatchWrite(_, _) => WriteKeeps(c, st, t, msg, e); TickKeeps(c, Apply(st, t, e));
    case DispatchUnlock(_) => UnlockKeeps(c, st, t, msg, e);
  }

  lemma GoKeeps(c: Config, st: State, t: Tid, ch: Choice, e: Effect)
    requires GlobalLocks(st) && DispatchOk(c, st) && t in st.threads && ThreadStep(c, st, t, ch) == Some(e)
    ensures DispatchOk(c, Tick(Apply(st, t, e)))
  {
    var th := st.threads[t];
    var dispatches := !Releases(th.pc) && !Writes(th.pc)
      && ((th.role.Post? && Dispatches(th.pc) && th.role.body.Some?) || (th.role.Mcp? && th.role.body.Some?));
    if dispatches {
      DispatchKeeps(c, st, t, th.role.body.value, e);
    } else {
      if Releases(th.pc) { ReleaseAside(st, t, e); }
      else if Writes(th.pc) { WriteAside(st, t, ch, e); }
      else {
        match th.role
        case Main => MainAside(st, t, e);
        case Stream => StreamAside(st, t, ch, e);
        case Post(sid, body) => PostAside(c, st, t, sid, body, ch, e);
      }
      AsideKeeps(c, st, t, e);
      TickKeeps(c, Apply(st, t, e));
    }
  }

  lemma SpawnServer(c: Config, st: State, t: Tid, role: Role)
    requires GlobalLocks(st) && ServerOk(c, st) && t !in st.threads
    ensures ServerOk(c, Spawned(st, t, role))
  {
    hide After, OutcomeAt;
    if st.sh.dispLock.Some? {
      assert st.sh.dispLock.value in st.threads;
      assert PcOf(Spawned(st, t, role), st.sh.dispLock.value) == PcOf(st, st.sh.dispLock.value);
    }
  }

  lemma SpawnOrder(st: State, t: Tid, role: Role)
    requires OrderOk(st) && t !in st.threads
    ensures OrderOk(Spawned(st, t, role))
  {}

  lemma StartThread(c: Config, sh: Shared, t: Tid, role: Role)
    requires role != Main
    ensures ThreadOk(c, sh, t, Start(role, sh.now))
  {
    StartHoldsNothing(role, sh.now);
  }

  lemma SpawnKeeps(c: Config, st: State, t: Tid, role: Role)
    requires GlobalLocks(st) && DispatchOk(c, st) && t !in st.threads && role != Main
    ensures DispatchOk(c, Spawned(st, t, role))
  {
    hide ServerOk, OrderOk, ThreadOk;
    var st' := Spawned(st, t, role);
    SpawnServer(c, st, t, role);
    SpawnOrder(st, t, role);
    forall u | u in st'.threads ensures ThreadOk(c, st'.sh, u, st'.threads[u]) {
      if u == t { StartThread(c, st.sh, t, role); } else { assert ThreadOk(c, st.sh, u, st.threads[u]); }
    }
  }

  lemma StepKeepsDispatch(c: Config, st: State, a: Action, st': State)
    requires GlobalLocks(st) && DispatchOk(c, st) && Step(c, st, a) == Some(st')
    ensures DispatchOk(c, st')
  {
    match a
    case Signal => SignalKeeps(c, st);
    case Spawn(t, role) =>
      SpawnKeeps(c, st, t, role);
      TickKeeps(c, Spawned(st, t, role));
    case Go(t, ch) => GoKeeps(c, st, t, ch, ThreadStep(c, st, t, ch).value);
  }

  lemma SignalKeeps(c: Config, st: State)
    requires DispatchOk(c, st)
    ensures DispatchOk(c, Tick(st.(sh := st.sh.(shutdown := true))))
  {
    hide After, OutcomeAt, ThreadOk;
    var st' := st.(sh := st.sh.(shutdown := true));
    forall u | u in st'.threads ensures ThreadOk(c, st'.sh, u, st'.threads[u]) {
      SameSharedThread(c, st.sh, st'.sh, u, st.threads[u]);
    }
    if st.sh.dispLock.Some? { assert PcOf(st', st.sh.dispLock.value) == PcOf(st, st.sh.dispLock.value); }
    TickKeeps(c, st');
  }

  lemma NextDispatch(c: Config, states: seq<State>, actions: seq<Action>, i: nat)
    requires |states| == |actions| + 1 && i < |actions| && StepAt(c, states, actions, i)
    requires Inv(states[i]) && DispatchOk(c, states[i])
    ensures DispatchOk(c, states[i + 1])
  {
    StepKeepsDispatch(c, states[i], actions[i], states[i + 1]);
  }

  lemma {:induction false} RunDispatch(c: Config, states: seq<State>, actions: seq<Action>, i: nat)
    requires IsRun(c, states, actions) && i < |states|
    ensures DispatchOk(c, states[i])
  {
    if i > 0 {
      RunDispatch(c, states, actions, i - 1);
      RunInv(c, states, actions, i - 1);
      NextDispatch(c, states, actions, i - 1);
    }
  }

  // ----- linearizability -----

  /** The dispatch call of thread t took effect as number k of a sequential run:
      the reply it got is the one that run gives at k, for its own message, at a
      moment between the call and the return. */
  ghost predicate TookEffectAt(c: Config, st: State, t: Tid, k: nat) {
    && t in st.threads && k < |st.sh.order|
    && st.sh.order[k].tid == t && MessageOf(st.threads[t].role) == Some(st.sh.order[k].msg)
    && st.threads[t].reply == OutcomeAt(c, st.sh.order, k).reply
    && st.threads[t].returned.Some?
    && st.threads[t].called <= st.sh.order[k].at < st.threads[t].returned.value
  }

  /** In every run each completed dispatch call took effect exactly once, at its
      own place in the sequential run over all messages in lock order, and while
      nobody dispatches the server is the one that run ends with: whatever a
      dispatch computes from the server and the message, and be it different from
      one dispatch to the next, as with handlers that keep a state of their own or
      allocations that fail. */
  lemma DispatchIsSequential(c: Config, states: seq<State>, actions: seq<Action>, i: nat, t: Tid)
    requires IsRun(c, states, actions) && i < |states|
    ensures states[i].sh.dispLock == None ==>
      states[i].sh.server == After(c, states[i].sh.order, |states[i].sh.order|)
    ensures t in states[i].threads && states[i].threads[t].returned.Some? ==>
      states[i].threads[t].slot.Some? && TookEffectAt(c, states[i], t, states[i].threads[t].slot.value)
    ensures forall j, k :: 0 <= j < k < |states[i].sh.order| ==>
      states[i].sh.order[j].tid != states[i].sh.order[k].tid
  {
    RunDispatch(c, states, actions, i);
    var st := states[i];
    if t in st.threads && st.threads[t].returned.Some? {
      assert ThreadOk(c, st.sh, t, st.threads[t]);
    }
    forall j, k | 0 <= j < k < |st.sh.order| ensures st.sh.order[j].tid != st.sh.order[k].tid {
      assert st.threads[st.sh.order[j].tid].slot == Some(j);
    }
  }

  /** The sequential order respects real time: a call that returned before
      another one was made comes first. */
  lemma OrderRespectsRealTime(c: Config, states: seq<State>, actions: seq<Action>, i: nat, t: Tid, u: Tid)
    requires IsRun(c, states, actions) && i < |states|
    requires t in states[i].threads && u in states[i].threads
    requires states[i].threads[t].returned.Some? && states[i].threads[u].returned.Some?
    requires states[i].threads[t].returned.value < states[i].threads[u].called
    ensures states[i].threads[t].slot.Some? && states[i].threads[u].slot.Some?
    ensures states[i].threads[t].slot.value < states[i].threads[u].slot.value
  {
    hide IsRun, OutcomeAt, After;
    RunDispatch(c, states, actions, i);
    var st := states[i];
    assert ThreadOk(c, st.sh, t, st.threads[t]) && ThreadOk(c, st.sh, u, st.threads[u]);
  }
}
