/** What a POST may put on a stream: at most one event, on the session it
    acquired, carrying its own response; and at most one event per session is
    begun after that session was closed. */
module Posts {
  import opened Json
  import opened Machine
  import opened Lifetime
  import Sse

  /** The poster has begun its event, or will never. */
  predicate PastBegin(pc: Pc) {
    || ((pc.Writing? || pc.WriteUnlock?) && pc.job.Reply?)
    || pc.Release? || pc.Destroy? || pc.Free? || pc.Finished?
  }

  predicate PastWriting(pc: Pc) { PastBegin(pc) && !pc.Writing? }

  predicate IsMessage(u: Unit) { u.Sent? && u.frame.Event? && u.frame.name == "message" }

  /** A begun event belongs to a poster that acquired this very session. */
  ghost predicate BegunOk(st: State, s: Sid, b: Begun) {
    && b.who in st.threads
    && var th := st.threads[b.who];
    th.role.Post? && th.acquired == Some(s) && PastBegin(th.pc)
  }

  /** A completed message carries the printed response of the poster that wrote
      it, which acquired this very session. */
  ghost predicate MessageOk(c: Config, st: State, s: Sid, entry: Entry) {
    IsMessage(entry.what) ==>
      && entry.who in st.threads
      && var th := st.threads[entry.who];
      && th.role.Post? && th.acquired == Some(s) && PastWriting(th.pc)
      && th.reply.Some? && entry.what == Sent(Sse.Event("message", c.render(th.reply.value)))
  }

  ghost predicate SessionPosts(c: Config, st: State, s: Sid, se: Session) {
    && (forall i :: 0 <= i < |se.begun| ==> BegunOk(st, s, se.begun[i]))
    && (forall i, j :: 0 <= i < j < |se.begun| ==> se.begun[i].who != se.begun[j].who)
    && (forall i, j :: 0 <= i < j < |se.begun| ==> !(se.begun[i].late && se.begun[j].late))
    && (forall i :: 0 <= i < |se.begun| && se.begun[i].late ==> se.closed)
    && (forall i :: 0 <= i < |se.log| ==> MessageOk(c, st, s, se.log[i]))
    && (forall i, j :: 0 <= i < j < |se.log| && IsMessage(se.log[i].what) && IsMessage(se.log[j].what) ==>
          se.log[i].who != se.log[j].who)
  }

  /** A poster knows its session; one about to begin on a closed session is the
      first to do so; one that writes writes its own response. */
  ghost predicate PosterOk(c: Config, th: Thread, sessions: map<Sid, Session>) {
    th.role.Post? ==>
      && (Counted(th.pc).Some? ==> th.acquired == Counted(th.pc))
      && (Writes(th.pc) ==> th.reply.Some? && th.pc.job == Reply(c.render(th.reply.value)))
      && (th.pc.WriteBegin? && th.pc.s in sessions && sessions[th.pc.s].closed ==>
            forall i :: 0 <= i < |sessions[th.pc.s].begun| ==> !sessions[th.pc.s].begun[i].late)
  }

  ghost predicate PostsOk(c: Config, st: State) {
    && (forall s :: s in st.sessions ==> SessionPosts(c, st, s, st.sessions[s]))
    && (forall t :: t in st.threads ==> PosterOk(c, st.threads[t], st.sessions))
  }

  // ----- one step -----

  /** What a step may do to a session's records. */
  ghost predicate RecordLocal(t: Tid, s: Sid, th: Thread, e: Effect, was: Session, se: Session) {
    && (was.closed ==> se.closed)
    && (|| se.begun == was.begun
        || (&& th.role.Post? && th.pc.WriteBegin? && e.th.pc.Writing? && PastBegin(e.th.pc)
            && th.pc.s == s && se.closed == was.closed && e.th.acquired == th.acquired
            && se.begun == was.begun + [Begun(t, was.closed, was.stream == "" && !was.broken)]))
    && (|| se.log == was.log
        || (&& th.pc.Writing? && th.pc.s == s && e.th.pc.WriteUnlock? && e.th.pc.job == th.pc.job
            && se.log == was.log + [Entry(t, UnitOf(th.pc.job, was.id))]))
  }

  ghost predicate PostLocals(c: Config, st: State, t: Tid, th: Thread, e: Effect) {
    && (e.cell.Some? && e.cell.value.s in st.sessions ==>
          RecordLocal(t, e.cell.value.s, th, e, st.sessions[e.cell.value.s], e.cell.value.se))
    && (e.cell.Some? && e.cell.value.s !in st.sessions ==>
          e.cell.value.se.begun == [] && e.cell.value.se.log == [])
    && e.th.role == th.role
    && (th.role.Post? && PastBegin(th.pc) ==> PastBegin(e.th.pc) && e.th.acquired == th.acquired)
    && (th.role.Post? && PastWriting(th.pc) ==> PastWriting(e.th.pc) && e.th.reply == th.reply)
    && PosterOk(c, e.th, Apply(st, t, e).sessions)
  }

  lemma MainPosts(c: Config, st: State, t: Tid, e: Effect)
    requires t in st.threads && st.threads[t].role == Main && MainStep(st, t) == Some(e)
    ensures PostLocals(c, st, t, st.threads[t], e)
  {}

  lemma StreamPosts(c: Config, st: State, t: Tid, ch: Choice, e: Effect)
    requires t in st.threads && st.threads[t].role == Stream && StreamStep(st, t, ch) == Some(e)
    ensures PostLocals(c, st, t, st.threads[t], e)
  {}

  lemma PostPosts(c: Config, st: State, t: Tid, sid: string, body: Option<Json>, ch: Choice, e: Effect)
    requires t in st.threads && st.threads[t].role.Post? && PostStep(c, st, t, sid, body, ch) == Some(e)
    requires PosterOk(c, st.threads[t], st.sessions)
    ensures PostLocals(c, st, t, st.threads[t], e)
  {}

  lemma DispatchPosts(c: Config, st: State, t: Tid, msg: Json, e: Effect)
    requires t in st.threads && DispatchStep(c, st, t, msg) == Some(e)
    requires PosterOk(c, st.threads[t], st.sessions)
    ensures PostLocals(c, st, t, st.threads[t], e)
  {}

  lemma WritePosts(c: Config, st: State, t: Tid, ch: Choice, e: Effect)
    requires t in st.threads && Writes(st.threads[t].pc) && WriteStep(st, t, ch) == Some(e)
    requires WellTyped(st.threads[t].role, st.threads[t].pc)
    requires PosterOk(c, st.threads[t], st.sessions)
    ensures PostLocals(c, st, t, st.threads[t], e)
  {
    hide Pieces, UnitOf;
  }

  lemma ReleasePosts(c: Config, st: State, t: Tid, e: Effect)
    requires t in st.threads && Releases(st.threads[t].pc) && ReleaseStep(st, t) == Some(e)
    requires PosterOk(c, st.threads[t], st.sessions)
    ensures PostLocals(c, st, t, st.threads[t], e)
  {}

  lemma StepPosts(c: Config, st: State, t: Tid, ch: Choice, e: Effect)
    requires t in st.threads && ThreadStep(c, st, t, ch) == Some(e)
    requires WellTyped(st.threads[t].role, st.threads[t].pc)
    requires PosterOk(c, st.threads[t], st.sessions)
    ensures PostLocals(c, st, t, st.threads[t], e)
  {
    var th := st.threads[t];
    if Releases(th.pc) { ReleasePosts(c, st, t, e); }
    else if Writes(th.pc) { WritePosts(c, st, t, ch, e); }
    else {
      match th.role
      case Main => MainPosts(c, st, t, e);
      case Stream => StreamPosts(c, st, t, ch, e);
      case Post(sid, body) =>
        if Dispatches(th.pc) && body.Some? { DispatchPosts(c, st, t, body.value, e); }
        else { PostPosts(c, st, t, sid, body, ch, e); }
      case Mcp(body) => DispatchPosts(c, st, t, body.value, e);
    }
  }

  // ----- all sessions and posters -----

  lemma ThreadPostsKept(c: Config, st: State, t: Tid, e: Effect, s: Sid)
    requires t in st.threads && PostLocals(c, st, t, st.threads[t], e)
    ensures forall b :: BegunOk(st, s, b) ==> BegunOk(Apply(st, t, e), s, b)
    ensures forall entry :: MessageOk(c, st, s, entry) ==> MessageOk(c, Apply(st, t, e), s, entry)
  {}

  lemma BegunKept(c: Config, st: State, t: Tid, e: Effect, s: Sid)
    requires t in st.threads && PostLocals(c, st, t, st.threads[t], e) && PosterOk(c, st.threads[t], st.sessions)
    requires s in st.sessions && SessionPosts(c, st, s, st.sessions[s])
    ensures var st' := Apply(st, t, e); var se := st'.sessions[s];
      && (forall i :: 0 <= i < |se.begun| ==> BegunOk(st', s, se.begun[i]))
      && (forall i, j :: 0 <= i < j < |se.begun| ==> se.begun[i].who != se.begun[j].who)
      && (forall i, j :: 0 <= i < j < |se.begun| ==> !(se.begun[i].late && se.begun[j].late))
      && (forall i :: 0 <= i < |se.begun| && se.begun[i].late ==> se.closed)
  {
    var st' := Apply(st, t, e);
    var was, se := st.sessions[s], st'.sessions[s];
    ThreadPostsKept(c, st, t, e, s);
    assert forall i :: 0 <= i < |was.begun| ==> BegunOk(st, s, was.begun[i]);
    if se.begun != was.begun {
      assert !PastBegin(st.threads[t].pc);
      assert forall i :: 0 <= i < |was.begun| ==> was.begun[i].who != t;
      assert BegunOk(st', s, se.begun[|was.begun|]);
    }
  }

  lemma LogKept(c: Config, st: State, t: Tid, e: Effect, s: Sid)
    requires t in st.threads && PostLocals(c, st, t, st.threads[t], e) && PosterOk(c, st.threads[t], st.sessions)
    requires WellTyped(st.threads[t].role, st.threads[t].pc)
    requires s in st.sessions && SessionPosts(c, st, s, st.sessions[s])
    ensures var st' := Apply(st, t, e); var se := st'.sessions[s];
      && (forall i :: 0 <= i < |se.log| ==> MessageOk(c, st', s, se.log[i]))
      && (forall i, j :: 0 <= i < j < |se.log| && IsMessage(se.log[i].what) && IsMessage(se.log[j].what) ==>
          se.log[i].who != se.log[j].who)
  {
    var st' := Apply(st, t, e);
    var was, se := st.sessions[s], st'.sessions[s];
    ThreadPostsKept(c, st, t, e, s);
    assert forall i :: 0 <= i < |was.log| ==> MessageOk(c, st, s, was.log[i]);
    if se.log != was.log {
      var th := st.threads[t];
      assert !PastWriting(th.pc);
      assert forall i :: 0 <= i < |was.log| && IsMessage(was.log[i].what) ==> was.log[i].who != t;
      MessageIsReply(th, was.id);
      assert MessageOk(c, st', s, se.log[|was.log|]);
    }
  }

  lemma MessageIsReply(th: Thread, id: string)
    requires WellTyped(th.role, th.pc) && th.pc.Writing?
    ensures IsMessage(UnitOf(th.pc.job, id)) ==> th.role.Post? && th.pc.job.Reply?
  {}

  /** Nobody else begins an event on the session whose write_lock u holds. */
  lemma OnlyHolderBegins(c: Config, st: State, t: Tid, e: Effect, u: Tid)
    requires t in st.threads && u in st.threads && u != t && WriteLocks(st) && Exist(st)
    requires PostLocals(c, st, t, st.threads[t], e) && st.threads[u].pc.WriteBegin?
    ensures var s := st.threads[u].pc.s;
      && s in st.sessions && s in Apply(st, t, e).sessions
      && Apply(st, t, e).sessions[s].begun == st.sessions[s].begun
  {
    hide PosterOk;
    var pc := st.threads[u].pc;
    assert About(pc) == Some(pc.s);
    assert st.sessions[pc.s].lock == Some(u);
    assert st.sessions[pc.s].lock == Some(t) <==> HoldsWrite(st.threads[t].pc) == Some(pc.s);
  }

  lemma NoneLateWhileOpen(c: Config, st: State, s: Sid, se: Session)
    requires SessionPosts(c, st, s, se) && !se.closed
    ensures forall i :: 0 <= i < |se.begun| ==> !se.begun[i].late
  {}

  lemma PosterKept(c: Config, st: State, t: Tid, e: Effect, u: Tid)
    requires t in st.threads && u in st.threads && u != t && WriteLocks(st) && Exist(st)
    requires PostLocals(c, st, t, st.threads[t], e)
    requires PosterOk(c, st.threads[u], st.sessions)
    requires forall s :: s in st.sessions ==> SessionPosts(c, st, s, st.sessions[s])
    ensures PosterOk(c, st.threads[u], Apply(st, t, e).sessions)
  {
    hide PostLocals, SessionPosts, WriteLocks, Exist;
    var pc := st.threads[u].pc;
    if pc.WriteBegin? {
      OnlyHolderBegins(c, st, t, e, u);
      assert SessionPosts(c, st, pc.s, st.sessions[pc.s]);
      if !st.sessions[pc.s].closed { NoneLateWhileOpen(c, st, pc.s, st.sessions[pc.s]); }
    }
  }

  lemma EffectKeepsPosts(c: Config, st: State, t: Tid, ch: Choice, e: Effect)
    requires Typed(st) && Exist(st) && WriteLocks(st) && PostsOk(c, st)
    requires t in st.threads && ThreadStep(c, st, t, ch) == Some(e)
    ensures PostsOk(c, Apply(st, t, e))
  {
    var st' := Apply(st, t, e);
    StepPosts(c, st, t, ch, e);
    forall s | s in st'.sessions ensures SessionPosts(c, st', s, st'.sessions[s]) {
      if s in st.sessions {
        BegunKept(c, st, t, e, s);
        LogKept(c, st, t, e, s);
      }
    }
    forall u | u in st'.threads ensures PosterOk(c, st'.threads[u], st'.sessions) {
      if u != t { PosterKept(c, st, t, e, u); }
    }
  }

  lemma SpawnKeepsPosts(c: Config, st: State, t: Tid, role: Role)
    requires PostsOk(c, st) && t !in st.threads && role != Main
    ensures PostsOk(c, Spawned(st, t, role))
  {
    var st' := Spawned(st, t, role);
    StartHoldsNothing(role, st.sh.now);
    forall s | s in st'.sessions ensures SessionPosts(c, st', s, st'.sessions[s]) {
      SpawnKeepsRecords(c, st, t, role, s);
    }
  }

  lemma SpawnKeepsRecords(c: Config, st: State, t: Tid, role: Role, s: Sid)
    requires t !in st.threads && s in st.sessions && SessionPosts(c, st, s, st.sessions[s])
    ensures SessionPosts(c, Spawned(st, t, role), s, st.sessions[s])
  {
    var st' := Spawned(st, t, role);
    forall b | BegunOk(st, s, b) ensures BegunOk(st', s, b) {}
    forall entry | MessageOk(c, st, s, entry) ensures MessageOk(c, st', s, entry) {}
  }

  lemma PostsIrrelevant(c: Config, st: State, st': State)
    requires PostsOk(c, st) && st'.threads == st.threads && st'.sessions == st.sessions
    ensures PostsOk(c, st')
  {
    forall s | s in st'.sessions ensures SessionPosts(c, st', s, st'.sessions[s]) {
      assert SessionPosts(c, st, s, st.sessions[s]);
      forall b | BegunOk(st, s, b) ensures BegunOk(st', s, b) {}
      forall entry | MessageOk(c, st, s, entry) ensures MessageOk(c, st', s, entry) {}
    }
  }

  lemma StepKeepsPosts(c: Config, st: State, a: Action, st': State)
    requires Typed(st) && Exist(st) && WriteLocks(st) && PostsOk(c, st) && Step(c, st, a) == Some(st')
    ensures PostsOk(c, st')
  {
    match a
    case Signal => PostsIrrelevant(c, st, st');
    case Spawn(t, role) =>
      SpawnKeepsPosts(c, st, t, role);
      PostsIrrelevant(c, Spawned(st, t, role), st');
    case Go(t, ch) =>
      var e := ThreadStep(c, st, t, ch).value;
      EffectKeepsPosts(c, st, t, ch, e);
      PostsIrrelevant(c, Apply(st, t, e), st');
  }

  lemma NextPosts(c: Config, states: seq<State>, actions: seq<Action>, i: nat)
    requires |states| == |actions| + 1 && i < |actions| && StepAt(c, states, actions, i)
    requires Inv(states[i]) && PostsOk(c, states[i])
    ensures PostsOk(c, states[i + 1])
  {
    StepKeepsPosts(c, states[i], actions[i], states[i + 1]);
  }

  lemma {:induction false} RunPosts(c: Config, states: seq<State>, actions: seq<Action>, i: nat)
    requires IsRun(c, states, actions) && i < |states|
    ensures PostsOk(c, states[i])
  {
    if i > 0 {
      RunPosts(c, states, actions, i - 1);
      RunInv(c, states, actions, i - 1);
      NextPosts(c, states, actions, i - 1);
    }
  }

  /** In every run at most one message event per session is begun after its
      closed flag was set. */
  lemma AtMostOneLateEvent(c: Config, states: seq<State>, actions: seq<Action>, n: nat, s: Sid, i: nat, j: nat)
    requires IsRun(c, states, actions) && n < |states| && s in states[n].sessions
    requires var begun := states[n].sessions[s].begun; i < |begun| && j < |begun| && begun[i].late && begun[j].late
    ensures i == j
  {
    RunPosts(c, states, actions, n);
    assert SessionPosts(c, states[n], s, states[n].sessions[s]);
  }

  /** In every run a POST begins at most one event in all, on the session it
      acquired. */
  lemma OneEventPerPost(c: Config, states: seq<State>, actions: seq<Action>, n: nat,
                        s1: Sid, i: nat, s2: Sid, j: nat)
    requires IsRun(c, states, actions) && n < |states| && s1 in states[n].sessions && s2 in states[n].sessions
    requires i < |states[n].sessions[s1].begun| && j < |states[n].sessions[s2].begun|
    requires states[n].sessions[s1].begun[i].who == states[n].sessions[s2].begun[j].who
    ensures s1 == s2 && i == j
    ensures var t := states[n].sessions[s1].begun[i].who;
      t in states[n].threads && states[n].threads[t].role.Post? && states[n].threads[t].acquired == Some(s1)
  {
    RunPosts(c, states, actions, n);
    assert SessionPosts(c, states[n], s1, states[n].sessions[s1]);
    assert SessionPosts(c, states[n], s2, states[n].sessions[s2]);
    assert BegunOk(states[n], s1, states[n].sessions[s1].begun[i]);
    assert BegunOk(states[n], s2, states[n].sessions[s2].begun[j]);
  }

  /** In every run each completed message event is the printed response of one
      POST to this session, and no POST has two of them. */
  lemma MessagesAreResponses(c: Config, states: seq<State>, actions: seq<Action>, n: nat, s: Sid, i: nat, j: nat)
    requires IsRun(c, states, actions) && n < |states| && s in states[n].sessions
    requires i < |states[n].sessions[s].log| && IsMessage(states[n].sessions[s].log[i].what)
    ensures var entry := states[n].sessions[s].log[i];
      && entry.who in states[n].threads
      && var th := states[n].threads[entry.who];
      && th.role.Post? && th.acquired == Some(s) && th.reply.Some?
      && entry.what == Sent(Sse.Event("message", c.render(th.reply.value)))
    ensures (&& j < |states[n].sessions[s].log| && IsMessage(states[n].sessions[s].log[j].what)
             && states[n].sessions[s].log[j].who == states[n].sessions[s].log[i].who) ==> i == j
  {
    RunPosts(c, states, actions, n);
    assert SessionPosts(c, states[n], s, states[n].sessions[s]);
    assert MessageOk(c, states[n], s, states[n].sessions[s].log[i]);
  }
}
