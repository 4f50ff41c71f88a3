/** The list of live sessions as the C code keeps it: nodes linked through their
    `next` fields from g_sessions_head (src/mcp_http.c:77-87, 112-170). Each
    operation is proved against the sequence of the nodes, which is the form in
    which the concurrent machine (module Machine) holds the list. All of this
    happens under g_sessions_lock. */
module SessionList {

  class Session {
    const id: string
    var refcount: int
    var next: Session?

    constructor (id: string)
      ensures this.id == id && refcount == 1 && next == null
    {
      this.id, refcount, next := id, 1, null;
    }
  }

  class Table {
    var head: Session?
    ghost var nodes: seq<Session>

    /** `nodes` are the nodes from head to the null link, no two the same. */
    ghost predicate Valid()
      reads this, nodes
    {
      && head == At(nodes, 0)
      && (forall i :: 0 <= i < |nodes| ==> nodes[i].next == At(nodes, i + 1))
      && (forall i, j :: 0 <= i < j < |nodes| ==> nodes[i] != nodes[j])
    }

    constructor ()
      ensures Valid() && nodes == []
    {
      head, nodes := null, [];
    }

    /** The end of session_create. */
    method Insert(s: Session)
      requires Valid() && s !in nodes
      modifies this, s`next
      ensures Valid() && nodes == [s] + old(nodes)
    {
      s.next := head;
      head := s;
      nodes := [s] + nodes;
    }

    /** session_acquire: the first session with this id, counted once more. */
    method Acquire(id: string) returns (s: Session?)
      requires Valid()
      modifies nodes
      ensures Valid() && nodes == old(nodes)
      ensures s == null <==> forall i :: 0 <= i < |nodes| ==> nodes[i].id != id
      ensures s != null ==> s.id == id
      ensures s != null ==>
        exists k :: 0 <= k < |nodes| && nodes[k] == s && forall i :: 0 <= i < k ==> nodes[i].id != id
      ensures forall n :: n in old(nodes) ==> n.refcount == old(n.refcount) + if n == s then 1 else 0
    {
      s := head;
      ghost var k := 0;
      while s != null && s.id != id
        invariant 0 <= k <= |nodes| && s == At(nodes, k)
        invariant forall i :: 0 <= i < k ==> nodes[i].id != id
        decreases |nodes| - k
      {
        s := s.next;
        k := k + 1;
      }
      if s != null {
        s.refcount := s.refcount + 1;
      }
    }

    /** session_unlink. The node that goes keeps its own link. */
    method Unlink(s: Session)
      requires Valid()
      modifies this, nodes
      ensures Valid() && nodes == Without(old(nodes), s)
      ensures forall n :: n in old(nodes) ==> n.refcount == old(n.refcount)
      ensures s.next == old(s.next)
    {
      var found, prev, k := Seek(s);
      if found {
        WithoutAt(nodes, k);
        Splice(prev, s, k);
      } else {
        WithoutAbsent(nodes, s);
      }
    }

    /** The loop over `pp`, which is &g_sessions_head when `prev` is null and
        &prev->next otherwise. */
    method Seek(s: Session) returns (found: bool, prev: Session?, ghost k: nat)
      requires Valid()
      ensures found ==> k < |nodes| && nodes[k] == s && prev == if k == 0 then null else nodes[k - 1]
      ensures found ==> forall i :: 0 <= i < k ==> nodes[i] != s
      ensures !found ==> s !in nodes
    {
      prev, k := null, 0;
      var cur := head;
      while cur != null
        invariant 0 <= k <= |nodes| && cur == At(nodes, k)
        invariant prev == if k == 0 then null else nodes[k - 1]
        invariant forall i :: 0 <= i < k ==> nodes[i] != s
        decreases |nodes| - k
      {
        if cur == s {
          return true, prev, k;
        }
        prev := cur;
        cur := cur.next;
        k := k + 1;
      }
      found := false;
    }

    /** *pp = s->next. */
    method Splice(prev: Session?, s: Session, ghost k: nat)
      requires Valid() && k < |nodes| && nodes[k] == s && prev == if k == 0 then null else nodes[k - 1]
      modifies this, nodes
      ensures Valid() && nodes == old(nodes)[..k] + old(nodes)[k + 1..]
      ensures forall n :: n in old(nodes) ==> n.refcount == old(n.refcount)
      ensures s.next == old(s.next)
    {
      if prev == null {
        head := s.next;
      } else {
        prev.next := s.next;
      }
      ghost var was := nodes;
      nodes := nodes[..k] + nodes[k + 1..];
      assert forall i :: 0 <= i < |nodes| ==> nodes[i] == was[if i < k then i else i + 1];
    }
  }

  function At(nodes: seq<Session>, i: nat): Session? { if i < |nodes| then nodes[i] else null }

  /** The sequence without the first occurrence of s. */
  function Without(nodes: seq<Session>, s: Session): seq<Session> {
    if nodes == [] then []
    else if nodes[0] == s then nodes[1..]
    else [nodes[0]] + Without(nodes[1..], s)
  }

  lemma {:induction false} WithoutAt(nodes: seq<Session>, k: nat)
    requires k < |nodes| && forall i :: 0 <= i < k ==> nodes[i] != nodes[k]
    ensures Without(nodes, nodes[k]) == nodes[..k] + nodes[k + 1..]
  {
    if k > 0 {
      WithoutAt(nodes[1..], k - 1);
      assert nodes[..k] == [nodes[0]] + nodes[1..][..k - 1];
      assert nodes[1..][k..] == nodes[k + 1..];
    }
  }

  lemma {:induction false} WithoutAbsent(nodes: seq<Session>, s: Session)
    requires s !in nodes
    ensures Without(nodes, s) == nodes
  {
    if nodes != [] {
      WithoutAbsent(nodes[1..], s);
    }
  }

  /** Once unlinked a node is not met again: every other one still is, in its place. */
  lemma {:induction false} UnlinkedIsGone(nodes: seq<Session>, s: Session)
    requires forall i, j :: 0 <= i < j < |nodes| ==> nodes[i] != nodes[j]
    ensures s !in Without(nodes, s)
    ensures forall n :: n in nodes && n != s ==> n in Without(nodes, s)
    ensures forall n :: n in Without(nodes, s) ==> n in nodes
  {
    if nodes != [] {
      if nodes[0] == s {
        assert forall i :: 0 <= i < |nodes| - 1 ==> nodes[1..][i] == nodes[i + 1];
      } else {
        UnlinkedIsGone(nodes[1..], s);
      }
    }
  }
}
