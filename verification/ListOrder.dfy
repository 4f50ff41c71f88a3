/** The order of the session list, in every run: the newest session first
    (src/mcp_http.c:129-132, 158-170). */
module ListOrder {
  import opened Json
  import opened Machine
  import opened Lifetime

  /** A session is put in front, one is taken out, or the list stays. */
  ghost predicate ListMoves(list: seq<Sid>, list': seq<Sid>) {
    || list' == list
    || (list' != [] && list'[1..] == list && list'[0] !in list)
    || (exists k :: 0 <= k < |list| && list' == Drop(list, k))
  }

  lemma StreamMoves(st: State, t: Tid, ch: Choice, e: Effect)
    requires t in st.threads && st.threads[t].role == Stream && StreamStep(st, t, ch) == Some(e)
    requires Owned(st) && Listing(st)
    ensures ListMoves(st.sh.list, e.sh.list)
  {
    var pc := st.threads[t].pc;
    if pc.Insert? {
      assert About(pc) == Some(pc.s) && st.sessions[pc.s].owner == t;
    }
  }

  lemma OthersLeaveList(c: Config, st: State, t: Tid, ch: Choice, e: Effect)
    requires t in st.threads && ThreadStep(c, st, t, ch) == Some(e)
    requires st.threads[t].role != Stream || Releases(st.threads[t].pc) || Writes(st.threads[t].pc)
    ensures e.sh.list == st.sh.list
  {
    hide Pieces, UnitOf;
  }

  lemma StepMoves(c: Config, st: State, a: Action, st': State)
    requires Owned(st) && Listing(st) && Step(c, st, a) == Some(st')
    ensures ListMoves(st.sh.list, st'.sh.list)
  {
    hide Owned, Listing, ListMoves, StreamStep, MainStep, PostStep, DispatchStep, WriteStep, ReleaseStep;
    SameList(st.sh.list);
    if a.Go? {
      var th, e := st.threads[a.t], ThreadStep(c, st, a.t, a.ch).value;
      if th.role == Stream && !Releases(th.pc) && !Writes(th.pc) { StreamMoves(st, a.t, a.ch, e); }
      else { OthersLeaveList(c, st, a.t, a.ch, e); }
    }
  }

  lemma SameList(list: seq<Sid>)
    ensures ListMoves(list, list)
  {}

  /** Some earlier state has b in its list and a not. */
  ghost predicate CameBefore(states: seq<State>, i: nat, b: Sid, a: Sid)
    requires i <= |states|
  {
    exists k :: 0 <= k < i && b in states[k].sh.list && a !in states[k].sh.list
  }

  ghost predicate Newest(states: seq<State>, i: nat)
    requires i < |states|
  {
    var list := states[i].sh.list;
    forall p, q :: 0 <= p < q < |list| ==> CameBefore(states, i, list[q], list[p])
  }

  lemma CameBeforeToo(states: seq<State>, i: nat, b: Sid, a: Sid)
    requires i < |states| && CameBefore(states, i, b, a)
    ensures CameBefore(states, i + 1, b, a)
  {
    var k :| 0 <= k < i && b in states[k].sh.list && a !in states[k].sh.list;
    assert k < i + 1;
  }

  lemma MovesKeepNewest(states: seq<State>, i: nat)
    requires i + 1 < |states| && Newest(states, i) && ListMoves(states[i].sh.list, states[i + 1].sh.list)
    ensures Newest(states, i + 1)
  {
    hide CameBefore;
    var list, list' := states[i].sh.list, states[i + 1].sh.list;
    forall p, q | 0 <= p < q < |list'| ensures CameBefore(states, i + 1, list'[q], list'[p]) {
      if list' == list {
        CameBeforeToo(states, i, list[q], list[p]);
      } else if list'[1..] == list && list'[0] !in list {
        assert list'[q] == list[q - 1];
        if p > 0 {
          assert list'[p] == list[p - 1];
          CameBeforeToo(states, i, list[q - 1], list[p - 1]);
        } else {
          ThisIsBefore(states, i, list'[q], list'[0]);
        }
      } else {
        var k :| 0 <= k < |list| && list' == Drop(list, k);
        var p', q' := if p < k then p else p + 1, if q < k then q else q + 1;
        assert list'[p] == list[p'] && list'[q] == list[q'];
        CameBeforeToo(states, i, list[q'], list[p']);
      }
    }
  }

  lemma ThisIsBefore(states: seq<State>, i: nat, b: Sid, a: Sid)
    requires i < |states| && b in states[i].sh.list && a !in states[i].sh.list
    ensures CameBefore(states, i + 1, b, a)
  {}

  lemma {:induction false} RunNewest(c: Config, states: seq<State>, actions: seq<Action>, i: nat)
    requires IsRun(c, states, actions) && i < |states|
    ensures Newest(states, i)
  {
    hide Inv, Step, ListMoves, CameBefore;
    if i > 0 {
      RunNewest(c, states, actions, i - 1);
      RunInv(c, states, actions, i - 1);
      assert StepAt(c, states, actions, i - 1);
      ListParts(states[i - 1]);
      StepMoves(c, states[i - 1], actions[i - 1], states[i]);
      MovesKeepNewest(states, i - 1);
    }
  }

  lemma ListParts(st: State)
    requires Inv(st)
    ensures Owned(st) && Listing(st)
  {
    hide Typed, Owned, GlobalLocks, WriteLocks, Counts, Reaped, Listing, Cursors;
  }

  /** In every run, of two sessions in the list the one that stands in front came
      into it when the other was already there. */
  lemma NewestFirst(c: Config, states: seq<State>, actions: seq<Action>, i: nat, p: nat, q: nat)
    requires IsRun(c, states, actions) && i < |states| && p < q < |states[i].sh.list|
    ensures CameBefore(states, i, states[i].sh.list[q], states[i].sh.list[p])
  {
    hide IsRun;
    RunNewest(c, states, actions, i);
  }
}
