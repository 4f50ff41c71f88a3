/** A message that was received is dispatched, and a POST that has a reply sends
    it, or there is a reason (src/mcp_http.c:571-601, 611-626). */
module PosterLaws {
  import opened Json
  import opened Machine
  import opened Lifetime
  import opened Posts
  import opened Acquiring
  import DispatchOrder
  import Sse

  /** The poster has begun its event on the session it acquired. */
  ghost predicate Began(st: State, t: Tid) {
    && t in st.threads && st.threads[t].acquired.Some? && st.threads[t].acquired.value in st.sessions
    && BeganOn(st.sessions[st.threads[t].acquired.value], t)
  }

  ghost predicate BeganOn(se: Session, t: Tid) {
    exists i :: 0 <= i < |se.begun| && se.begun[i].who == t
  }

  /** Step k of the poster found no memory to print its reply. */
  ghost predicate PrintFailsAt(states: seq<State>, actions: seq<Action>, k: nat, t: Tid)
    requires k < |states| && k < |actions|
  {
    && actions[k].Go? && actions[k].t == t && !actions[k].ch.ok
    && t in states[k].threads && states[k].threads[t].pc.Print?
  }

  /** Step k of the poster found its session closed. */
  ghost predicate SeesClosedAt(states: seq<State>, actions: seq<Action>, k: nat, t: Tid)
    requires k < |states| && k < |actions|
  {
    && actions[k].Go? && actions[k].t == t
    && t in states[k].threads && states[k].threads[t].pc.WriteCheck?
    && states[k].threads[t].pc.s in states[k].sessions && states[k].sessions[states[k].threads[t].pc.s].closed
  }

  ghost predicate Excused(states: seq<State>, actions: seq<Action>, n: nat, t: Tid)
    requires n < |states| == |actions| + 1
  {
    exists k :: 0 <= k < n && (PrintFailsAt(states, actions, k, t) || SeesClosedAt(states, actions, k, t))
  }

  /** What a poster that will not begin an event any more has to show. */
  ghost predicate Accounted(st: State, t: Tid, excused: bool) {
    t in st.threads && st.threads[t].role.Post? && st.threads[t].acquired.Some? && PastBegin(st.threads[t].pc) ==>
      Began(st, t) || st.threads[t].role.body == None || st.threads[t].reply == None || excused
  }

  // ----- one step -----

  /** How a poster comes past the beginning of its event. */
  ghost predicate PassesLocal(st: State, t: Tid, ch: Choice, e: Effect)
    requires t in st.threads
  {
    var th := st.threads[t];
    th.role.Post? ==>
      && (PastBegin(th.pc) ==> e.th.reply == th.reply && e.th.acquired == th.acquired)
      && (PastBegin(e.th.pc) && !PastBegin(th.pc) && e.th.acquired.Some? ==>
            || (th.pc.WriteBegin? && e.cell.Some? && Some(e.cell.value.s) == e.th.acquired
                && BeganOn(e.cell.value.se, t))
            || th.role.body == None || e.th.reply == None
            || (th.pc.Print? && !ch.ok)
            || (th.pc.WriteCheck? && th.pc.s in st.sessions && st.sessions[th.pc.s].closed))
  }

  lemma PostPasses(c: Config, st: State, t: Tid, sid: string, body: Option<Json>, ch: Choice, e: Effect)
    requires t in st.threads && st.threads[t].role == Post(sid, body) && PostStep(c, st, t, sid, body, ch) == Some(e)
    requires PosterOk(c, st.threads[t], st.sessions) && SearchOk(st.threads[t], st.sh.list, st.sessions)
    ensures PassesLocal(st, t, ch, e)
  {
    hide BeganOn, IsFirstNamed, NoneBefore;
  }

  lemma DispatchPasses(c: Config, st: State, t: Tid, msg: Json, ch: Choice, e: Effect)
    requires t in st.threads && DispatchStep(c, st, t, msg) == Some(e)
    requires WellTyped(st.threads[t].role, st.threads[t].pc)
    ensures PassesLocal(st, t, ch, e)
  {
    hide BeganOn;
  }

  lemma ReleasePasses(st: State, t: Tid, ch: Choice, e: Effect)
    requires t in st.threads && Releases(st.threads[t].pc) && ReleaseStep(st, t) == Some(e)
    ensures PassesLocal(st, t, ch, e)
  {
    hide BeganOn;
  }

  lemma WritePasses(c: Config, st: State, t: Tid, ch: Choice, e: Effect)
    requires t in st.threads && Writes(st.threads[t].pc) && WriteStep(st, t, ch) == Some(e)
    requires WellTyped(st.threads[t].role, st.threads[t].pc) && PosterOk(c, st.threads[t], st.sessions)
    ensures PassesLocal(st, t, ch, e)
  {
    hide Pieces, UnitOf;
    var th := st.threads[t];
    if th.role.Post? && th.pc.WriteBegin? {
      var was, se := st.sessions[th.pc.s], e.cell.value.se;
      assert se.begun[|was.begun|].who == t;
      assert BeganOn(se, t);
    }
  }

  lemma StepPasses(c: Config, st: State, t: Tid, ch: Choice, e: Effect)
    requires t in st.threads && ThreadStep(c, st, t, ch) == Some(e)
    requires WellTyped(st.threads[t].role, st.threads[t].pc) && PosterOk(c, st.threads[t], st.sessions)
    requires SearchOk(st.threads[t], st.sh.list, st.sessions)
    ensures PassesLocal(st, t, ch, e)
  {
    hide PosterOk, SearchOk, BeganOn;
    var th := st.threads[t];
    if th.role.Post? {
      if Releases(th.pc) { ReleasePasses(st, t, ch, e); }
      else if Writes(th.pc) { WritePasses(c, st, t, ch, e); }
      else if Dispatches(th.pc) && th.role.body.Some? { DispatchPasses(c, st, t, th.role.body.value, ch, e); }
      else { PostPasses(c, st, t, th.role.sid, th.role.body, ch, e); }
    }
  }

  lemma BeganKept(c: Config, st: State, t: Tid, e: Effect, u: Tid)
    requires t in st.threads && PostLocals(c, st, t, st.threads[t], e) && Began(st, u)
    requires u == t ==> e.th.acquired == st.threads[t].acquired
    ensures Began(Apply(st, t, e), u)
  {
    hide PosterOk;
    var s := st.threads[u].acquired.value;
    var was, se := st.sessions[s], Apply(st, t, e).sessions[s];
    var i :| 0 <= i < |was.begun| && was.begun[i].who == u;
    assert se.begun[i] == was.begun[i];
  }

  predicate HasExcuse(st: State, t: Tid, ch: Choice)
    requires t in st.threads
  {
    var pc := st.threads[t].pc;
    (pc.Print? && !ch.ok) || (pc.WriteCheck? && pc.s in st.sessions && st.sessions[pc.s].closed)
  }

  lemma EffectAccounts(c: Config, st: State, t: Tid, ch: Choice, e: Effect, u: Tid, was: bool, now: bool)
    requires t in st.threads && ThreadStep(c, st, t, ch) == Some(e) && u in st.threads
    requires WellTyped(st.threads[t].role, st.threads[t].pc) && PosterOk(c, st.threads[t], st.sessions)
    requires SearchOk(st.threads[t], st.sh.list, st.sessions)
    requires Accounted(st, u, was) && (was ==> now) && (u == t && HasExcuse(st, t, ch) ==> now)
    ensures Accounted(Apply(st, t, e), u, now)
  {
    StepPosts(c, st, t, ch, e);
    StepPasses(c, st, t, ch, e);
    hide ThreadStep, PosterOk, SearchOk, BeganOn;
    if Began(st, u) && (u == t ==> e.th.acquired == st.threads[t].acquired) { BeganKept(c, st, t, e, u); }
  }

  lemma StepAccounts(c: Config, states: seq<State>, actions: seq<Action>, n: nat, t: Tid)
    requires |states| == |actions| + 1 && n < |actions| && StepAt(c, states, actions, n)
    requires Typed(states[n]) && PostsOk(c, states[n]) && SearchesOk(states[n]) && t in states[n].threads
    requires Accounted(states[n], t, Excused(states, actions, n, t))
    ensures Accounted(states[n + 1], t, Excused(states, actions, n + 1, t))
  {
    var st, st' := states[n], states[n + 1];
    var was, now := Excused(states, actions, n, t), Excused(states, actions, n + 1, t);
    if was {
      var k :| 0 <= k < n && (PrintFailsAt(states, actions, k, t) || SeesClosedAt(states, actions, k, t));
      assert k < n + 1;
    }
    match actions[n]
    case Signal => assert Began(st, t) ==> Began(st', t);
    case Spawn(u, role) => assert Began(st, t) ==> Began(st', t);
    case Go(u, ch) =>
      var e := ThreadStep(c, st, u, ch).value;
      assert SeesClosedAt(states, actions, n, t) || PrintFailsAt(states, actions, n, t) ==> now;
      EffectAccounts(c, st, u, ch, e, t, was, now);
      assert Began(Apply(st, u, e), t) ==> Began(st', t);
  }

  lemma NothingYet(role: Role, now: nat)
    ensures Start(role, now).acquired == None
  {}

  /** The thread is new: it has acquired nothing. */
  lemma StartAccounts(c: Config, st: State, a: Action, st': State, t: Tid, excused: bool)
    requires Step(c, st, a) == Some(st') && t in st'.threads && t !in st.threads
    ensures Accounted(st', t, excused)
  {
    hide ThreadStep;
    if a.Spawn? { NothingYet(a.role, st.sh.now); }
  }

  lemma {:induction false} RunAccounts(c: Config, states: seq<State>, actions: seq<Action>, n: nat, t: Tid)
    requires IsRun(c, states, actions) && n < |states| && t in states[n].threads
    ensures Accounted(states[n], t, Excused(states, actions, n, t))
  {
    hide Inv, Step, PostsOk, SearchesOk, Began;
    if n > 0 {
      assert StepAt(c, states, actions, n - 1);
      if t in states[n - 1].threads {
        RunAccounts(c, states, actions, n - 1, t);
        RunInv(c, states, actions, n - 1);
        InvTyped(states[n - 1]);
        RunPosts(c, states, actions, n - 1);
        RunSearches(c, states, actions, n - 1);
        StepAccounts(c, states, actions, n - 1, t);
      } else {
        StartAccounts(c, states[n - 1], actions[n - 1], states[n], t, Excused(states, actions, n, t));
      }
    }
  }

  lemma InvTyped(st: State)
    requires Inv(st)
    ensures Typed(st)
  {
    hide Typed, Owned, GlobalLocks, WriteLocks, Counts, Reaped, Listing, Cursors;
  }

  /** In every run a POST that acquired a session, and that is done or about to
      give the session back, has begun its event there; unless its body did not
      parse, its message had no reply, the reply could not be printed, or it found
      the session closed. */
  lemma RepliesAreSent(c: Config, states: seq<State>, actions: seq<Action>, n: nat, t: Tid)
    requires IsRun(c, states, actions) && n < |states| && t in states[n].threads
    requires states[n].threads[t].role.Post? && states[n].threads[t].acquired.Some?
    requires var pc := states[n].threads[t].pc; pc.Release? || pc.Destroy? || pc.Free? || pc.Finished?
    ensures || Began(states[n], t)
            || states[n].threads[t].role.body == None || states[n].threads[t].reply == None
            || Excused(states, actions, n, t)
  {
    RunAccounts(c, states, actions, n, t);
  }

  // ----- every message is dispatched -----

  predicate OnTheWayOut(pc: Pc) { pc.Print? || Writes(pc) || Releases(pc) || pc.Finished? }

  /** A thread that will not dispatch any more, though it has a message. */
  predicate WentOn(th: Thread) {
    match th.role
    case Post(_, Some(_)) => th.acquired.Some? && OnTheWayOut(th.pc)
    case Mcp(Some(_)) => OnTheWayOut(th.pc)
    case _ => false
  }

  predicate Dispatched(th: Thread) { WentOn(th) ==> th.returned.Some? }

  lemma StepDispatches(c: Config, st: State, t: Tid, ch: Choice, e: Effect)
    requires t in st.threads && ThreadStep(c, st, t, ch) == Some(e) && Dispatched(st.threads[t])
    requires WellTyped(st.threads[t].role, st.threads[t].pc) && SearchOk(st.threads[t], st.sh.list, st.sessions)
    ensures Dispatched(e.th)
  {
    hide SearchOk;
    var th := st.threads[t];
    if Releases(th.pc) { ReleaseDispatched(st, t, e); }
    else if Writes(th.pc) { WriteDispatched(st, t, ch, e); }
    else if th.role.Post? && !Dispatches(th.pc) {
      PostDispatched(c, st, t, th.role.sid, th.role.body, ch, e);
    }
  }

  lemma ReleaseDispatched(st: State, t: Tid, e: Effect)
    requires t in st.threads && Releases(st.threads[t].pc) && ReleaseStep(st, t) == Some(e)
    requires Dispatched(st.threads[t])
    ensures Dispatched(e.th)
  {}

  lemma WriteDispatched(st: State, t: Tid, ch: Choice, e: Effect)
    requires t in st.threads && Writes(st.threads[t].pc) && WriteStep(st, t, ch) == Some(e)
    requires Dispatched(st.threads[t])
    ensures Dispatched(e.th)
  {}

  lemma PostDispatched(c: Config, st: State, t: Tid, sid: string, body: Option<Json>, ch: Choice, e: Effect)
    requires t in st.threads && st.threads[t].role == Post(sid, body) && PostStep(c, st, t, sid, body, ch) == Some(e)
    requires Dispatched(st.threads[t]) && SearchOk(st.threads[t], st.sh.list, st.sessions)
    ensures Dispatched(e.th)
  {
    hide IsFirstNamed, NoneBefore;
  }

  lemma {:induction false} RunDispatches(c: Config, states: seq<State>, actions: seq<Action>, n: nat, t: Tid)
    requires IsRun(c, states, actions) && n < |states| && t in states[n].threads
    ensures Dispatched(states[n].threads[t])
  {
    hide Inv, SearchOk;
    if n > 0 {
      assert StepAt(c, states, actions, n - 1);
      if t in states[n - 1].threads {
        RunDispatches(c, states, actions, n - 1, t);
        RunInv(c, states, actions, n - 1);
        InvTyped(states[n - 1]);
        RunSearches(c, states, actions, n - 1);
        NextDispatched(c, states[n - 1], actions[n - 1], states[n], t);
      } else {
        StartDispatched(c, states[n - 1], actions[n - 1], states[n], t);
      }
    }
  }

  lemma NextDispatched(c: Config, st: State, a: Action, st': State, t: Tid)
    requires Step(c, st, a) == Some(st') && t in st.threads && Dispatched(st.threads[t])
    requires Typed(st) && SearchesOk(st)
    ensures t in st'.threads && Dispatched(st'.threads[t])
  {
    hide ThreadStep, SearchOk, Dispatched;
    if a.Go? { if a.t == t { StepDispatches(c, st, t, a.ch, ThreadStep(c, st, t, a.ch).value); } }
  }

  lemma StartDispatched(c: Config, st: State, a: Action, st': State, t: Tid)
    requires Step(c, st, a) == Some(st') && t in st'.threads && t !in st.threads
    ensures Dispatched(st'.threads[t])
  {
    hide ThreadStep;
  }

  /** In every run a POST whose body parses, and that found its session if it names
      one, dispatches it before it prints, sends, gives its session back or ends; and
      its call took effect at its place in the sequential order. */
  lemma MessagesAreDispatched(c: Config, states: seq<State>, actions: seq<Action>, n: nat, t: Tid)
    requires IsRun(c, states, actions) && n < |states| && t in states[n].threads && WentOn(states[n].threads[t])
    ensures states[n].threads[t].slot.Some?
    ensures DispatchOrder.TookEffectAt(c, states[n], t, states[n].threads[t].slot.value)
  {
    RunDispatches(c, states, actions, n, t);
    hide IsRun, DispatchOrder.TookEffectAt;
    DispatchOrder.DispatchIsSequential(c, states, actions, n, t);
  }
}
