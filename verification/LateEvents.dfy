/** Which message events are begun on a session after it has been closed, in
    every run: exactly those of the poster that was past its check of `closed`
    (src/mcp_http.c:591-595) when `closed` was set. */
module LateEvents {
  import opened Json
  import opened Machine
  import opened Lifetime
  import opened Posts

  /** The poster holds write_lock, has seen the session open, and has not begun
      its event. */
  predicate PastCheck(st: State, u: Tid, s: Sid) {
    u in st.threads && st.threads[u].role.Post? && st.threads[u].pc.WriteBegin? && st.threads[u].pc.s == s
  }

  ghost predicate LateBy(se: Session, u: Tid) {
    exists i :: 0 <= i < |se.begun| && se.begun[i].late && se.begun[i].who == u
  }

  // ----- one step -----

  /** What a step does, on a closed session, to the posters past their check. */
  ghost predicate CheckLocal(t: Tid, s: Sid, th: Thread, e: Effect, was: Session, se: Session) {
    && se.closed
    && if th.role.Post? && th.pc.WriteBegin? && th.pc.s == s then
         && !e.th.pc.WriteBegin?
         && exists first :: se.begun == was.begun + [Begun(t, true, first)]
       else
         && (e.th.role.Post? && e.th.pc.WriteBegin? ==> e.th.pc.s != s)
         && se.begun == was.begun
  }

  function SessionAfter(st: State, t: Tid, e: Effect, s: Sid): Session
    requires t in st.threads && s in st.sessions
  {
    Apply(st, t, e).sessions[s]
  }

  lemma MainChecks(c: Config, st: State, t: Tid, e: Effect, s: Sid)
    requires t in st.threads && st.threads[t].role == Main && MainStep(st, t) == Some(e)
    requires s in st.sessions && st.sessions[s].closed
    ensures CheckLocal(t, s, st.threads[t], e, st.sessions[s], SessionAfter(st, t, e, s))
  {}

  lemma StreamChecks(c: Config, st: State, t: Tid, ch: Choice, e: Effect, s: Sid)
    requires t in st.threads && st.threads[t].role == Stream && StreamStep(st, t, ch) == Some(e)
    requires s in st.sessions && st.sessions[s].closed
    ensures CheckLocal(t, s, st.threads[t], e, st.sessions[s], SessionAfter(st, t, e, s))
  {}

  lemma PostChecks(c: Config, st: State, t: Tid, sid: string, body: Option<Json>, ch: Choice, e: Effect, s: Sid)
    requires t in st.threads && PostStep(c, st, t, sid, body, ch) == Some(e)
    requires s in st.sessions && st.sessions[s].closed
    ensures CheckLocal(t, s, st.threads[t], e, st.sessions[s], SessionAfter(st, t, e, s))
  {}

  lemma DispatchChecks(c: Config, st: State, t: Tid, msg: Json, e: Effect, s: Sid)
    requires t in st.threads && DispatchStep(c, st, t, msg) == Some(e)
    requires s in st.sessions && st.sessions[s].closed
    ensures CheckLocal(t, s, st.threads[t], e, st.sessions[s], SessionAfter(st, t, e, s))
  {}

  lemma ReleaseChecks(st: State, t: Tid, e: Effect, s: Sid)
    requires t in st.threads && ReleaseStep(st, t) == Some(e)
    requires s in st.sessions && st.sessions[s].closed
    ensures CheckLocal(t, s, st.threads[t], e, st.sessions[s], SessionAfter(st, t, e, s))
  {}

  /** A poster reaches the writing of its event through the check only, which
      sends it away from a closed session; and it leaves it by beginning. */
  lemma WriteChecks(c: Config, st: State, t: Tid, ch: Choice, e: Effect, s: Sid)
    requires t in st.threads && Writes(st.threads[t].pc) && WriteStep(st, t, ch) == Some(e)
    requires WellTyped(st.threads[t].role, st.threads[t].pc) && PosterOk(c, st.threads[t], st.sessions)
    requires s in st.sessions && st.sessions[s].closed
    ensures CheckLocal(t, s, st.threads[t], e, st.sessions[s], SessionAfter(st, t, e, s))
  {
    hide Pieces, UnitOf;
    var th := st.threads[t];
    if th.role.Post? && th.pc.WriteBegin? && th.pc.s == s {
      var was := st.sessions[s];
      assert e.cell.value.se.begun == was.begun + [Begun(t, true, was.stream == "" && !was.broken)];
    }
  }

  lemma StepChecks(c: Config, st: State, t: Tid, ch: Choice, e: Effect, s: Sid)
    requires t in st.threads && ThreadStep(c, st, t, ch) == Some(e)
    requires WellTyped(st.threads[t].role, st.threads[t].pc) && PosterOk(c, st.threads[t], st.sessions)
    requires s in st.sessions && st.sessions[s].closed
    ensures CheckLocal(t, s, st.threads[t], e, st.sessions[s], SessionAfter(st, t, e, s))
  {
    hide CheckLocal, PosterOk;
    var th := st.threads[t];
    if Releases(th.pc) { ReleaseChecks(st, t, e, s); }
    else if Writes(th.pc) { WriteChecks(c, st, t, ch, e, s); }
    else {
      match th.role
      case Main => MainChecks(c, st, t, e, s);
      case Stream => StreamChecks(c, st, t, ch, e, s);
      case Post(sid, body) =>
        if Dispatches(th.pc) && body.Some? { DispatchChecks(c, st, t, body.value, e, s); }
        else { PostChecks(c, st, t, sid, body, ch, e, s); }
      case Mcp(body) => DispatchChecks(c, st, t, body.value, e, s);
    }
  }

  lemma LateWith(was: Session, se: Session, b: Begun, u: Tid)
    requires se.begun == was.begun + [b]
    ensures LateBy(se, u) <==> LateBy(was, u) || (b.late && b.who == u)
  {
    if LateBy(was, u) {
      var i :| 0 <= i < |was.begun| && was.begun[i].late && was.begun[i].who == u;
      assert se.begun[i].late;
    }
    assert se.begun[|was.begun|] == b;
  }

  /** Of the posters past their check, each step takes one that begins late, or
      none; it never adds one. */
  ghost predicate Passes(st: State, st': State, s: Sid)
    requires s in st.sessions
  {
    && s in st'.sessions && st'.sessions[s].closed
    && (forall u :: PastCheck(st', u, s) ==> PastCheck(st, u, s))
    && (forall u :: LateBy(st'.sessions[s], u) <==>
          LateBy(st.sessions[s], u) || (PastCheck(st, u, s) && !PastCheck(st', u, s)))
  }

  lemma EffectPasses(c: Config, st: State, t: Tid, ch: Choice, e: Effect, s: Sid)
    requires t in st.threads && ThreadStep(c, st, t, ch) == Some(e)
    requires WellTyped(st.threads[t].role, st.threads[t].pc) && PosterOk(c, st.threads[t], st.sessions)
    requires s in st.sessions && st.sessions[s].closed && e.th.role == st.threads[t].role
    ensures Passes(st, Apply(st, t, e), s)
  {
    hide ThreadStep, PosterOk;
    StepChecks(c, st, t, ch, e, s);
    var st' := Apply(st, t, e);
    var was, se := st.sessions[s], st'.sessions[s];
    forall u | u != t ensures PastCheck(st', u, s) <==> PastCheck(st, u, s) {}
    forall u ensures LateBy(se, u) <==> LateBy(was, u) || (PastCheck(st, u, s) && !PastCheck(st', u, s)) {
      if PastCheck(st, t, s) {
        var first :| se.begun == was.begun + [Begun(t, true, first)];
        LateWith(was, se, Begun(t, true, first), u);
      }
    }
  }

  lemma StepPasses(c: Config, st: State, a: Action, st': State, s: Sid)
    requires Typed(st) && PostsOk(c, st) && Step(c, st, a) == Some(st')
    requires s in st.sessions && st.sessions[s].closed
    ensures Passes(st, st', s)
  {
    match a
    case Signal =>
      forall u ensures PastCheck(st', u, s) <==> PastCheck(st, u, s) {}
    case Spawn(t, role) =>
      StartHoldsNothing(role, st.sh.now);
      forall u ensures PastCheck(st', u, s) <==> PastCheck(st, u, s) {}
    case Go(t, ch) =>
      var e := ThreadStep(c, st, t, ch).value;
      StepPosts(c, st, t, ch, e);
      EffectPasses(c, st, t, ch, e, s);
      forall u ensures PastCheck(st', u, s) <==> PastCheck(Apply(st, t, e), u, s) {}
  }

  // ----- the step that closes a session -----

  lemma ClosingStep(c: Config, st: State, a: Action, st': State, s: Sid)
    requires Typed(st) && PostsOk(c, st) && Step(c, st, a) == Some(st')
    requires s in st.sessions && !st.sessions[s].closed && s in st'.sessions && st'.sessions[s].closed
    ensures forall u :: PastCheck(st', u, s) <==> PastCheck(st, u, s)
    ensures st'.sessions[s].begun == st.sessions[s].begun
  {
    assert a.Go?;
    var t, ch := a.t, a.ch;
    var e := ThreadStep(c, st, t, ch).value;
    StepPosts(c, st, t, ch, e);
    Closes(c, st, t, ch, e, s);
    hide ThreadStep;
    forall u ensures PastCheck(st', u, s) <==> PastCheck(st, u, s) {}
  }

  lemma Closes(c: Config, st: State, t: Tid, ch: Choice, e: Effect, s: Sid)
    requires t in st.threads && ThreadStep(c, st, t, ch) == Some(e)
    requires s in st.sessions && !st.sessions[s].closed && SessionAfter(st, t, e, s).closed
    ensures !st.threads[t].pc.WriteBegin? && !e.th.pc.WriteBegin?
    ensures SessionAfter(st, t, e, s).begun == st.sessions[s].begun
  {}

  // ----- every run -----

  lemma NextPasses(c: Config, states: seq<State>, actions: seq<Action>, i: nat, s: Sid)
    requires |states| == |actions| + 1 && i < |actions| && StepAt(c, states, actions, i)
    requires Inv(states[i]) && PostsOk(c, states[i]) && s in states[i].sessions && states[i].sessions[s].closed
    ensures Passes(states[i], states[i + 1], s)
  {
    StepPasses(c, states[i], actions[i], states[i + 1], s);
  }

  lemma RunStep(c: Config, states: seq<State>, actions: seq<Action>, i: nat)
    requires IsRun(c, states, actions) && i + 1 < |states|
    ensures |states| == |actions| + 1 && StepAt(c, states, actions, i)
  {}

  lemma NonePass(st: State, s: Sid)
    requires s in st.sessions && st.sessions[s].closed
    ensures Passes(st, st, s)
  {}

  lemma PassOn(st: State, mid: State, st': State, s: Sid)
    requires s in st.sessions && Passes(st, mid, s) && Passes(mid, st', s)
    ensures Passes(st, st', s)
  {
    hide LateBy, PastCheck;
  }

  /** From state k on, with the session closed, the late events are those there
      were and those of the posters that were past their check and no longer are. */
  lemma {:induction false} RunPasses(c: Config, states: seq<State>, actions: seq<Action>, k: nat, n: nat, s: Sid)
    requires IsRun(c, states, actions) && k <= n < |states|
    requires s in states[k].sessions && states[k].sessions[s].closed
    ensures Passes(states[k], states[n], s)
  {
    hide IsRun, Inv, PostsOk, LateBy, PastCheck;
    if n == k {
      NonePass(states[k], s);
    } else {
      RunPasses(c, states, actions, k, n - 1, s);
      RunInv(c, states, actions, n - 1);
      RunPosts(c, states, actions, n - 1);
      RunStep(c, states, actions, n - 1);
      NextPasses(c, states, actions, n - 1, s);
      PassOn(states[k], states[n - 1], states[n], s);
    }
  }

  lemma NextCloses(c: Config, states: seq<State>, actions: seq<Action>, k: nat, s: Sid)
    requires |states| == |actions| + 1 && k < |actions| && StepAt(c, states, actions, k)
    requires Inv(states[k]) && PostsOk(c, states[k]) && s in states[k].sessions && !states[k].sessions[s].closed
    requires s in states[k + 1].sessions && states[k + 1].sessions[s].closed
    ensures forall u :: PastCheck(states[k + 1], u, s) <==> PastCheck(states[k], u, s)
    ensures states[k + 1].sessions[s].begun == states[k].sessions[s].begun
  {
    ClosingStep(c, states[k], actions[k], states[k + 1], s);
  }

  lemma NoneLateYet(c: Config, st: State, s: Sid, u: Tid)
    requires PostsOk(c, st) && s in st.sessions && !st.sessions[s].closed
    ensures !LateBy(st.sessions[s], u)
  {
    assert SessionPosts(c, st, s, st.sessions[s]);
  }

  /** Step k sets `closed` of the session. */
  ghost predicate ClosesAt(states: seq<State>, k: nat, s: Sid) {
    && k + 1 < |states|
    && s in states[k].sessions && !states[k].sessions[s].closed
    && s in states[k + 1].sessions && states[k + 1].sessions[s].closed
  }

  /** In every run, when step k sets `closed` of a session, the message events
      begun on it afterwards are, in every later state, exactly those of the
      posters that were past their check at that moment and have gone on since. */
  lemma LateEventsExactly(c: Config, states: seq<State>, actions: seq<Action>, k: nat, n: nat, s: Sid, u: Tid)
    requires IsRun(c, states, actions) && k < n < |states| && ClosesAt(states, k, s)
    ensures s in states[n].sessions && states[n].sessions[s].closed
    ensures LateBy(states[n].sessions[s], u) <==> PastCheck(states[k], u, s) && !PastCheck(states[n], u, s)
  {
    hide IsRun, Inv, PostsOk, PastCheck;
    RunInv(c, states, actions, k);
    RunPosts(c, states, actions, k);
    RunStep(c, states, actions, k);
    NextCloses(c, states, actions, k, s);
    RunPasses(c, states, actions, k + 1, n, s);
    NoneLateYet(c, states[k], s, u);
    assert LateBy(states[k + 1].sessions[s], u) <==> LateBy(states[k].sessions[s], u);
  }

  /** A session is made open. */
  lemma MadeOpen(c: Config, st: State, a: Action, st': State, s: Sid)
    requires Step(c, st, a) == Some(st') && s !in st.sessions && s in st'.sessions
    ensures !st'.sessions[s].closed
  {
    var e := ThreadStep(c, st, a.t, a.ch).value;
    NewIsOpen(c, st, a.t, a.ch, e);
  }

  lemma NewIsOpen(c: Config, st: State, t: Tid, ch: Choice, e: Effect)
    requires t in st.threads && ThreadStep(c, st, t, ch) == Some(e)
    ensures e.cell.Some? && e.cell.value.s !in st.sessions ==> !e.cell.value.se.closed
  {}

  lemma {:induction false} ClosedByAStep(c: Config, states: seq<State>, actions: seq<Action>, n: nat, s: Sid)
    returns (k: nat)
    requires IsRun(c, states, actions) && n < |states| && s in states[n].sessions && states[n].sessions[s].closed
    ensures k < n && ClosesAt(states, k, s)
  {
    hide Step;
    RunStep(c, states, actions, n - 1);
    if s !in states[n - 1].sessions {
      MadeOpen(c, states[n - 1], actions[n - 1], states[n], s);
    } else if states[n - 1].sessions[s].closed {
      k := ClosedByAStep(c, states, actions, n - 1, s);
    } else {
      k := n - 1;
    }
  }

  /** Every late event of every run has its poster: one that was past its check
      when a step set `closed`. */
  lemma LateEventHasItsPoster(c: Config, states: seq<State>, actions: seq<Action>, n: nat, s: Sid, i: nat)
    returns (k: nat)
    requires IsRun(c, states, actions) && n < |states| && s in states[n].sessions
    requires i < |states[n].sessions[s].begun| && states[n].sessions[s].begun[i].late
    ensures k < n && ClosesAt(states, k, s) && PastCheck(states[k], states[n].sessions[s].begun[i].who, s)
  {
    hide IsRun, Inv, PastCheck;
    var b := states[n].sessions[s].begun[i];
    RunPosts(c, states, actions, n);
    LateIsClosed(c, states[n], s, i);
    k := ClosedByAStep(c, states, actions, n, s);
    assert LateBy(states[n].sessions[s], b.who);
    LateEventsExactly(c, states, actions, k, n, s, b.who);
  }

  lemma LateIsClosed(c: Config, st: State, s: Sid, i: nat)
    requires PostsOk(c, st) && s in st.sessions && i < |st.sessions[s].begun| && st.sessions[s].begun[i].late
    ensures st.sessions[s].closed
  {
    assert SessionPosts(c, st, s, st.sessions[s]);
  }

  /** So a session that is closed while no poster is between its check and its
      event never gets an event again. */
  lemma QuietWhenNoneIsPastCheck(c: Config, states: seq<State>, actions: seq<Action>, k: nat, n: nat, s: Sid, i: nat)
    requires IsRun(c, states, actions) && k < n < |states| && ClosesAt(states, k, s)
    requires forall u :: !PastCheck(states[k], u, s)
    requires s in states[n].sessions && i < |states[n].sessions[s].begun|
    ensures !states[n].sessions[s].begun[i].late
  {
    var b := states[n].sessions[s].begun[i];
    LateEventsExactly(c, states, actions, k, n, s, b.who);
  }

  lemma CheckerHoldsLock(st: State, u: Tid, s: Sid)
    requires Owned(st) && WriteLocks(st) && PastCheck(st, u, s)
    ensures s in st.sessions && st.sessions[s].lock == Some(u)
  {
    assert About(st.threads[u].pc) == Some(s);
  }

  /** There is never more than one such poster: it holds the write_lock. */
  lemma OnePosterIsPastCheck(c: Config, states: seq<State>, actions: seq<Action>, k: nat, s: Sid, u: Tid, v: Tid)
    requires IsRun(c, states, actions) && k < |states|
    requires PastCheck(states[k], u, s) && PastCheck(states[k], v, s)
    ensures u == v && s in states[k].sessions && states[k].sessions[s].lock == Some(u)
  {
    hide IsRun, Typed, Owned, GlobalLocks, WriteLocks, Counts, Reaped, Listing, Cursors;
    RunInv(c, states, actions, k);
    CheckerHoldsLock(states[k], u, s);
    CheckerHoldsLock(states[k], v, s);
  }
}
