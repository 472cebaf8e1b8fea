/**
 * The C simulator's queues: singly linked lists of PCBs threaded through
 * their `proximo` field, reached through a head pointer. `spine` is the
 * list of nodes from the head, in order.
 */
module CQueue {
  import opened Wrappers
  import opened CProcess

  /** The position of the first node with the given pid. */
  function FindPid(s: seq<Pcb>, pid: int): (k: Option<nat>)
    ensures k.Some? ==> k.value < |s| && s[k.value].pid == pid
    ensures k.Some? ==> forall j :: 0 <= j < k.value ==> s[j].pid != pid
    ensures k.None? <==> forall j :: 0 <= j < |s| ==> s[j].pid != pid
  {
    if s == [] then None
    else if s[0].pid == pid then Some(0)
    else match FindPid(s[1..], pid) {
      case Some(k) => Some(k + 1)
      case None => None
    }
  }

  /** `s` without its k-th node, the others in order. */
  function Without(s: seq<Pcb>, k: nat): (r: seq<Pcb>)
    requires k < |s|
    ensures |r| == |s| - 1
    ensures forall j :: 0 <= j < k ==> r[j] == s[j]
    ensures forall j :: k <= j < |r| ==> r[j] == s[j + 1]
  {
    s[..k] + s[k + 1..]
  }

  /** Removing a node loses nothing else: the rest and the node make up the list. */
  lemma WithoutSplits(s: seq<Pcb>, k: nat)
    requires k < |s|
    ensures multiset(Without(s, k)) + multiset{s[k]} == multiset(s)
  {
    assert s == s[..k] + [s[k]] + s[k + 1..];
  }

  class Queue {
    var head: Pcb?
    ghost var spine: seq<Pcb>

    /** The head and the `next` links thread exactly `spine`, without repeats. */
    ghost predicate Valid()
      reads this, spine`next
    {
      && (forall i, j :: 0 <= i < j < |spine| ==> spine[i] != spine[j])
      && (if spine == [] then head == null else head == spine[0])
      && (forall i :: 0 <= i < |spine| - 1 ==> spine[i].next == spine[i + 1])
      && (spine != [] ==> spine[|spine| - 1].next == null)
    }

    /** A `NULL` head. */
    constructor()
      ensures Valid() && spine == []
    {
      head := null;
      spine := [];
    }

    /** `enfileirar`: `p` goes to the tail with its link cleared; the rest keep their order. */
    method Enqueue(p: Pcb)
      requires Valid() && p !in spine
      modifies this, spine`next, p`next
      ensures Valid() && spine == old(spine) + [p]
    {
      p.next := null;
      if head == null {
        head := p;
        spine := [p];
        return;
      }
      var cur := head;
      ghost var i := 0;
      while cur.next != null
        invariant 0 <= i < |spine| && cur == spine[i]
        invariant p !in spine
        invariant cur.next == (if i < |spine| - 1 then spine[i + 1] else null)
        decreases |spine| - i
      {
        cur := cur.next;
        i := i + 1;
      }
      cur.next := p;
      spine := spine + [p];
      forall j | 0 <= j < |spine| - 1
        ensures spine[j].next == spine[j + 1]
      {
        if j < i {
          assert spine[j] != cur;
        }
      }
    }

    /** `desenfileirar`: `NULL` on an empty queue, otherwise the unlinked head. */
    method Dequeue() returns (p: Pcb?)
      requires Valid()
      modifies this, spine`next
      ensures Valid()
      ensures old(spine) == [] ==> p == null && spine == []
      ensures old(spine) != [] ==> p == old(spine)[0] && spine == old(spine)[1..] && p.next == null
    {
      if head == null {
        return null;
      }
      p := head;
      head := p.next;
      p.next := null;
      spine := spine[1..];
    }

    /** `remover_da_lista`: unlink the first node with the pid; `NULL` and no change when none has it. */
    method Remove(pid: int) returns (p: Pcb?)
      requires Valid()
      modifies this, spine`next
      ensures Valid()
      ensures match FindPid(old(spine), pid)
        case None => p == null && spine == old(spine)
        case Some(k) => p == old(spine)[k] && spine == Without(old(spine), k) && p.next == null
    {
      var cur := head;
      var prev: Pcb? := null;
      ghost var i := 0;
      while cur != null && cur.pid != pid
        invariant 0 <= i <= |spine|
        invariant cur == (if i < |spine| then spine[i] else null)
        invariant prev == (if i == 0 then null else spine[i - 1])
        invariant forall j :: 0 <= j < i ==> spine[j].pid != pid
        decreases |spine| - i
      {
        prev := cur;
        cur := cur.next;
        i := i + 1;
      }
      if cur == null {
        return null;
      }
      assert FindPid(spine, pid) == Some(i);
      Unlink(prev, cur, i);
      return cur;
    }

    /** The splice: the i-th node's predecessor, or the head, takes over its link. */
    method Unlink(prev: Pcb?, cur: Pcb, ghost i: nat)
      requires Valid() && i < |spine| && cur == spine[i]
      requires prev == (if i == 0 then null else spine[i - 1])
      modifies this, spine`next
      ensures Valid() && spine == Without(old(spine), i) && cur.next == null
    {
      ghost var s := spine;
      if prev == null {
        head := cur.next;
      } else {
        prev.next := cur.next;
      }
      cur.next := null;
      spine := Without(spine, i);
      forall j | 0 <= j < |spine| - 1
        ensures spine[j].next == spine[j + 1]
      {
        if j + 1 < i {
          assert spine[j] == s[j] && s[j] != cur && s[j] != prev;
        } else if j + 1 == i {
          assert spine[j] == prev;
        } else {
          assert spine[j] == s[j + 1] && s[j + 1] != cur && s[j + 1] != prev;
        }
      }
      forall a, b | 0 <= a < b < |spine|
        ensures spine[a] != spine[b]
      {
        var a' := if a < i then a else a + 1;
        var b' := if b < i then b else b + 1;
        assert spine[a] == s[a'] && spine[b] == s[b'];
      }
    }
  }
}
