/** Which session a POST acquires, in every run: the first one in the list that
    has the name the POST gave (src/mcp_http.c:136-148, 553-571). */
module Acquiring {
  import opened Json
  import opened Machine
  import opened Lifetime
  import Posts
  import Sse

  /** None of the first n sessions of the list has this name. */
  ghost predicate NoneBefore(list: seq<Sid>, sessions: map<Sid, Session>, name: string, n: nat) {
    forall k :: 0 <= k < n && k < |list| ==> list[k] in sessions && sessions[list[k]].id != name
  }

  /** The first session of the list with this name; None when none has it. */
  ghost predicate IsFirstNamed(list: seq<Sid>, sessions: map<Sid, Session>, name: string, found: Option<Sid>) {
    match found
    case None => NoneBefore(list, sessions, name, |list|)
    case Some(s) =>
      && s in sessions && sessions[s].id == name
      && exists k :: 0 <= k < |list| && list[k] == s && NoneBefore(list, sessions, name, k)
  }

  /** What a poster knows of the list while it searches, and of the session it
      has acquired. */
  ghost predicate SearchOk(th: Thread, list: seq<Sid>, sessions: map<Sid, Session>) {
    th.role.Post? ==>
      && (th.acquired.Some? ==> th.acquired.value in sessions && sessions[th.acquired.value].id == th.role.sid)
      && match th.pc
         case FindWant => th.acquired == None
         case Find(rest) =>
           th.acquired == None && Suffix(rest, list) && NoneBefore(list, sessions, th.role.sid, |list| - |rest|)
         case Count(s) => IsFirstNamed(list, sessions, th.role.sid, Some(s))
         case FindUnlock(found) => th.acquired == found && IsFirstNamed(list, sessions, th.role.sid, found)
         case _ => true
  }

  ghost predicate SearchesOk(st: State) {
    forall t :: t in st.threads ==> SearchOk(st.threads[t], st.sh.list, st.sessions)
  }

  // ----- one step -----

  /** Names do not change, and the list only under g_sessions_lock. */
  ghost predicate NamesLocal(st: State, th: Thread, e: Effect) {
    && (e.cell.Some? && e.cell.value.s in st.sessions ==> e.cell.value.se.id == st.sessions[e.cell.value.s].id)
    && (!HoldsSessions(th.pc) ==> e.sh.list == st.sh.list)
  }

  ghost predicate SearchLocal(st: State, t: Tid, e: Effect)
    requires t in st.threads
  {
    NamesLocal(st, st.threads[t], e) && SearchOk(e.th, e.sh.list, Apply(st, t, e).sessions)
  }

  lemma MainSearch(st: State, t: Tid, e: Effect)
    requires t in st.threads && st.threads[t].role == Main && MainStep(st, t) == Some(e)
    ensures SearchLocal(st, t, e)
  {}

  lemma StreamSearch(st: State, t: Tid, ch: Choice, e: Effect)
    requires t in st.threads && st.threads[t].role == Stream && StreamStep(st, t, ch) == Some(e)
    ensures SearchLocal(st, t, e)
  {}

  lemma PostNames(c: Config, st: State, t: Tid, sid: string, body: Option<Json>, ch: Choice, e: Effect)
    requires t in st.threads && PostStep(c, st, t, sid, body, ch) == Some(e)
    ensures NamesLocal(st, st.threads[t], e)
  {}

  /** A step of a poster at this point of its search. */
  ghost predicate PostStepsTo(c: Config, st: State, t: Tid, sid: string, body: Option<Json>, ch: Choice, e: Effect) {
    && t in st.threads && st.threads[t].role == Post(sid, body) && PostStep(c, st, t, sid, body, ch) == Some(e)
    && SearchOk(st.threads[t], st.sh.list, st.sessions)
  }

  lemma WantSearch(c: Config, st: State, t: Tid, sid: string, body: Option<Json>, ch: Choice, e: Effect)
    requires PostStepsTo(c, st, t, sid, body, ch, e) && st.threads[t].pc == FindWant
    ensures SearchOk(e.th, e.sh.list, Apply(st, t, e).sessions)
  {
    hide NoneBefore, Suffix;
    NoneYet(st.sh.list, st.sessions, sid);
  }

  lemma FindMoves(c: Config, st: State, t: Tid, sid: string, body: Option<Json>, ch: Choice, e: Effect)
    requires t in st.threads && PostStep(c, st, t, sid, body, ch) == Some(e) && st.threads[t].pc.Find?
    ensures var th, rest := st.threads[t], st.threads[t].pc.rest;
      && e.cell == None && e.sh == st.sh
      && if rest == [] then e.th == th.(pc := FindUnlock(None))
         else
           && rest[0] in st.sessions
           && e.th == th.(pc := if st.sessions[rest[0]].id == sid then Count(rest[0]) else Find(rest[1..]))
  {}

  lemma FindStepSearch(c: Config, st: State, t: Tid, sid: string, body: Option<Json>, ch: Choice, e: Effect)
    requires PostStepsTo(c, st, t, sid, body, ch, e) && st.threads[t].pc.Find?
    ensures SearchOk(e.th, e.sh.list, Apply(st, t, e).sessions)
  {
    FindMoves(c, st, t, sid, body, ch, e);
    hide NoneBefore, IsFirstNamed, Suffix, PostStep;
    FindSearch(st, sid, st.threads[t].pc.rest);
  }

  lemma CountSearch(c: Config, st: State, t: Tid, sid: string, body: Option<Json>, ch: Choice, e: Effect)
    requires PostStepsTo(c, st, t, sid, body, ch, e) && st.threads[t].pc.Count?
    ensures SearchOk(e.th, e.sh.list, Apply(st, t, e).sessions)
  {
    hide IsFirstNamed;
    SameNames(st.sh.list, st.sessions, Apply(st, t, e).sessions, sid, Some(st.threads[t].pc.s));
  }

  lemma LaterSearch(c: Config, st: State, t: Tid, sid: string, body: Option<Json>, ch: Choice, e: Effect)
    requires PostStepsTo(c, st, t, sid, body, ch, e)
    requires st.threads[t].pc.FindUnlock? || st.threads[t].pc.Parse? || st.threads[t].pc.Print?
    ensures SearchOk(e.th, e.sh.list, Apply(st, t, e).sessions)
  {
    hide NoneBefore, IsFirstNamed, Suffix;
  }

  /** The session is counted, and keeps its name; or the search goes on. */
  lemma PostSearch(c: Config, st: State, t: Tid, sid: string, body: Option<Json>, ch: Choice, e: Effect)
    requires PostStepsTo(c, st, t, sid, body, ch, e)
    ensures SearchLocal(st, t, e)
  {
    PostNames(c, st, t, sid, body, ch, e);
    PostPoints(c, st, t, sid, body, ch);
    var pc := st.threads[t].pc;
    hide PostStepsTo, SearchOk, NamesLocal;
    if pc == FindWant { WantSearch(c, st, t, sid, body, ch, e); }
    else if pc.Find? { FindStepSearch(c, st, t, sid, body, ch, e); }
    else if pc.Count? { CountSearch(c, st, t, sid, body, ch, e); }
    else { LaterSearch(c, st, t, sid, body, ch, e); }
  }

  lemma PostPoints(c: Config, st: State, t: Tid, sid: string, body: Option<Json>, ch: Choice)
    requires t in st.threads && PostStep(c, st, t, sid, body, ch).Some?
    ensures var pc := st.threads[t].pc;
      pc == FindWant || pc.Find? || pc.Count? || pc.FindUnlock? || pc.Parse? || pc.Print?
  {}

  lemma NoneYet(list: seq<Sid>, sessions: map<Sid, Session>, name: string)
    ensures Suffix(list, list) && NoneBefore(list, sessions, name, 0)
  {}

  lemma FindSearch(st: State, sid: string, rest: seq<Sid>)
    requires Suffix(rest, st.sh.list) && NoneBefore(st.sh.list, st.sessions, sid, |st.sh.list| - |rest|)
    ensures rest == [] ==> IsFirstNamed(st.sh.list, st.sessions, sid, None)
    ensures rest != [] && rest[0] in st.sessions ==>
      if st.sessions[rest[0]].id == sid then IsFirstNamed(st.sh.list, st.sessions, sid, Some(rest[0]))
      else
        var more := rest[1..];
        |more| <= |st.sh.list| && Suffix(more, st.sh.list)
        && NoneBefore(st.sh.list, st.sessions, sid, |st.sh.list| - |more|)
  {
    if rest != [] {
      var k := |st.sh.list| - |rest|;
      assert st.sh.list[k] == rest[0] && st.sh.list[k + 1..] == rest[1..];
    }
  }

  /** Only names matter. */
  lemma SameNames(list: seq<Sid>, sessions: map<Sid, Session>, sessions': map<Sid, Session>, name: string,
                  found: Option<Sid>)
    requires IsFirstNamed(list, sessions, name, found)
    requires forall s :: s in sessions ==> s in sessions' && sessions'[s].id == sessions[s].id
    ensures IsFirstNamed(list, sessions', name, found)
  {
    if found.Some? {
      var k :| 0 <= k < |list| && list[k] == found.value && NoneBefore(list, sessions, name, k);
      assert NoneBefore(list, sessions', name, k);
    }
  }

  lemma DispatchSearch(c: Config, st: State, t: Tid, msg: Json, e: Effect)
    requires t in st.threads && DispatchStep(c, st, t, msg) == Some(e)
    requires SearchOk(st.threads[t], st.sh.list, st.sessions)
    ensures SearchLocal(st, t, e)
  {}

  lemma WriteSearch(st: State, t: Tid, ch: Choice, e: Effect)
    requires t in st.threads && Writes(st.threads[t].pc) && WriteStep(st, t, ch) == Some(e)
    requires SearchOk(st.threads[t], st.sh.list, st.sessions)
    ensures SearchLocal(st, t, e)
  {
    hide Pieces, UnitOf;
  }

  lemma ReleaseSearch(st: State, t: Tid, e: Effect)
    requires t in st.threads && Releases(st.threads[t].pc) && ReleaseStep(st, t) == Some(e)
    requires SearchOk(st.threads[t], st.sh.list, st.sessions)
    ensures SearchLocal(st, t, e)
  {}

  lemma StepSearch(c: Config, st: State, t: Tid, ch: Choice, e: Effect)
    requires t in st.threads && ThreadStep(c, st, t, ch) == Some(e)
    requires SearchOk(st.threads[t], st.sh.list, st.sessions)
    ensures SearchLocal(st, t, e)
  {
    hide SearchOk, SearchLocal;
    var th := st.threads[t];
    if Releases(th.pc) { ReleaseSearch(st, t, e); }
    else if Writes(th.pc) { WriteSearch(st, t, ch, e); }
    else {
      match th.role
      case Main => MainSearch(st, t, e);
      case Stream => StreamSearch(st, t, ch, e);
      case Post(sid, body) =>
        if Dispatches(th.pc) && body.Some? { DispatchSearch(c, st, t, body.value, e); }
        else { PostSearch(c, st, t, sid, body, ch, e); }
      case Mcp(body) => DispatchSearch(c, st, t, body.value, e);
    }
  }

  /** Nobody else changes the list while a poster searches it. */
  lemma SearchKept(st: State, t: Tid, e: Effect, u: Tid)
    requires t in st.threads && u in st.threads && u != t && GlobalLocks(st)
    requires NamesLocal(st, st.threads[t], e) && SearchOk(st.threads[u], st.sh.list, st.sessions)
    ensures SearchOk(st.threads[u], e.sh.list, Apply(st, t, e).sessions)
  {
    var th, sessions' := st.threads[u], Apply(st, t, e).sessions;
    if th.role.Post? {
      if HoldsSessions(th.pc) {
        assert st.sh.sessLock == Some(u);
        assert !HoldsSessions(st.threads[t].pc);
      }
      if th.pc.Count? { SameNames(st.sh.list, st.sessions, sessions', th.role.sid, Some(th.pc.s)); }
      if th.pc.FindUnlock? { SameNames(st.sh.list, st.sessions, sessions', th.role.sid, th.pc.found); }
    }
  }

  lemma EffectKeepsSearches(c: Config, st: State, t: Tid, ch: Choice, e: Effect)
    requires GlobalLocks(st) && SearchesOk(st) && t in st.threads && ThreadStep(c, st, t, ch) == Some(e)
    ensures SearchesOk(Apply(st, t, e))
  {
    hide ThreadStep, SearchOk, NamesLocal, GlobalLocks;
    var st' := Apply(st, t, e);
    StepSearch(c, st, t, ch, e);
    forall u | u in st'.threads ensures SearchOk(st'.threads[u], st'.sh.list, st'.sessions) {
      if u != t { SearchKept(st, t, e, u); }
    }
  }

  lemma StepKeepsSearches(c: Config, st: State, a: Action, st': State)
    requires GlobalLocks(st) && SearchesOk(st) && Step(c, st, a) == Some(st')
    ensures SearchesOk(st')
  {
    hide ThreadStep;
    match a
    case Signal =>
    case Spawn(t, role) => SpawnSearch(role, st.sh.now, st.sh.list, st.sessions);
    case Go(t, ch) => EffectKeepsSearches(c, st, t, ch, ThreadStep(c, st, t, ch).value);
  }

  lemma SpawnSearch(role: Role, now: nat, list: seq<Sid>, sessions: map<Sid, Session>)
    ensures SearchOk(Start(role, now), list, sessions)
  {}

  lemma NextSearches(c: Config, states: seq<State>, actions: seq<Action>, i: nat)
    requires |states| == |actions| + 1 && i < |actions| && StepAt(c, states, actions, i)
    requires Inv(states[i]) && SearchesOk(states[i])
    ensures SearchesOk(states[i + 1])
  {
    StepKeepsSearches(c, states[i], actions[i], states[i + 1]);
  }

  lemma {:induction false} RunSearches(c: Config, states: seq<State>, actions: seq<Action>, i: nat)
    requires IsRun(c, states, actions) && i < |states|
    ensures SearchesOk(states[i])
  {
    hide SearchOk, Inv;
    if i == 0 {
      MainSearchOk(states[0].sh.list, states[0].sessions);
    } else {
      RunSearches(c, states, actions, i - 1);
      RunInv(c, states, actions, i - 1);
      NextSearches(c, states, actions, i - 1);
    }
  }

  lemma MainSearchOk(list: seq<Sid>, sessions: map<Sid, Session>)
    ensures SearchOk(Thread(Main, Accepting, None, 0, None, None, None), list, sessions)
  {}

  // ----- every run -----

  /** In every run the session a POST has acquired bears the name it gave. */
  lemma AcquiredIsNamed(c: Config, states: seq<State>, actions: seq<Action>, i: nat, t: Tid)
    requires IsRun(c, states, actions) && i < |states| && t in states[i].threads
    requires states[i].threads[t].role.Post? && states[i].threads[t].acquired.Some?
    ensures var th := states[i].threads[t];
      th.acquired.value in states[i].sessions && states[i].sessions[th.acquired.value].id == th.role.sid
  {
    hide IsRun;
    RunSearches(c, states, actions, i);
    assert SearchOk(states[i].threads[t], states[i].sh.list, states[i].sessions);
  }

  /** In every run the search ends, still under g_sessions_lock, with the first
      listed session that has the name, counted; or with none, and then no listed
      session has it. */
  lemma FindsTheFirst(c: Config, states: seq<State>, actions: seq<Action>, i: nat, t: Tid)
    requires IsRun(c, states, actions) && i < |states| && t in states[i].threads
    requires states[i].threads[t].role.Post? && states[i].threads[t].pc.FindUnlock?
    ensures var st, th := states[i], states[i].threads[t];
      && st.sh.sessLock == Some(t) && th.acquired == th.pc.found
      && IsFirstNamed(st.sh.list, st.sessions, th.role.sid, th.pc.found)
  {
    hide IsRun, IsFirstNamed, Typed, Owned, WriteLocks, Counts, Reaped, Listing, Cursors;
    RunSearches(c, states, actions, i);
    RunInv(c, states, actions, i);
    assert SearchOk(states[i].threads[t], states[i].sh.list, states[i].sessions);
  }

  /** In every run each message event on a stream, begun or complete, is the work
      of a POST that named that very session. */
  lemma EventsAreNamed(c: Config, states: seq<State>, actions: seq<Action>, n: nat, s: Sid, i: nat)
    requires IsRun(c, states, actions) && n < |states| && s in states[n].sessions
    ensures i < |states[n].sessions[s].begun| ==>
      ByItsPoster(states[n], states[n].sessions[s], states[n].sessions[s].begun[i].who)
    ensures i < |states[n].sessions[s].log| && Posts.IsMessage(states[n].sessions[s].log[i].what) ==>
      ByItsPoster(states[n], states[n].sessions[s], states[n].sessions[s].log[i].who)
  {
    var se := states[n].sessions[s];
    if i < |se.begun| {
      Posts.OneEventPerPost(c, states, actions, n, s, i, s, i);
      AcquiredIsNamed(c, states, actions, n, se.begun[i].who);
    }
    if i < |se.log| && Posts.IsMessage(se.log[i].what) {
      Posts.MessagesAreResponses(c, states, actions, n, s, i, i);
      AcquiredIsNamed(c, states, actions, n, se.log[i].who);
    }
  }

  ghost predicate ByItsPoster(st: State, se: Session, who: Tid) {
    who in st.threads && st.threads[who].role.Post? && st.threads[who].role.sid == se.id
  }
}
