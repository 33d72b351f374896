/**
  klib/list.c: the singly linked list behind the hash table's chains and the queues. The
  nodes from head to tail are the ghost sequence `chain`; each operation is proved
  against the sequence of values.
*/
module LinkedList {
  import opened Basics

  class Node<T> {
    const val: T
    var next: Node?<T>

    constructor (val: T)
      ensures this.val == val && next == null
    {
      this.val, next := val, null;
    }
  }

  ghost predicate Distinct<T>(c: seq<Node<T>>) { forall i, j | 0 <= i < j < |c| :: c[i] != c[j] }

  ghost predicate Links<T>(c: seq<Node<T>>)
    reads c
  {
    forall i {:trigger c[i].next} | 0 <= i < |c| :: c[i].next == if i == |c| - 1 then null else c[i + 1]
  }

  function Vals<T>(c: seq<Node<T>>): (s: seq<T>)
    ensures |s| == |c| && forall i | 0 <= i < |c| :: s[i] == c[i].val
  {
    seq(|c|, i requires 0 <= i < |c| => c[i].val)
  }

  /** The first value a test accepts, or the length. */
  ghost function First<T>(s: seq<T>, test: T -> bool): (i: nat)
    ensures i <= |s| && (i < |s| ==> test(s[i])) && forall j | 0 <= j < i :: !test(s[j])
  {
    if s == [] || test(s[0]) then 0 else 1 + First(s[1..], test)
  }

  lemma FirstIs<T>(s: seq<T>, test: T -> bool, i: nat)
    requires i <= |s| && (i < |s| ==> test(s[i])) && forall j | 0 <= j < i :: !test(s[j])
    ensures First(s, test) == i
  {
  }

  class List<T> {
    var head: Node?<T>
    var tail: Node?<T>
    var size: nat
    ghost var chain: seq<Node<T>>

    ghost predicate Valid()
      reads this, chain
    {
      && size == |chain| && Distinct(chain) && Links(chain)
      && head == (if chain == [] then null else chain[0]) && tail == if chain == [] then null else chain[|chain| - 1]
    }

    ghost function Contents(): seq<T>
      requires Valid()
      reads this, chain
    {
      Vals(chain)
    }

    constructor ()
      ensures Valid() && chain == []
    {
      head, tail, size, chain := null, null, 0, [];
    }

    method PushBack(val: T)
      requires Valid()
      modifies this, chain
      ensures Valid() && Contents() == old(Contents()) + [val] && fresh(chain[|chain| - 1])
      ensures chain[..|chain| - 1] == old(chain)
    {
      var node := new Node<T>(val);
      if size == 0 {
        head := node;
      } else {
        assert tail == chain[|chain| - 1];
        tail.next := node;
      }
      tail := node;
      size := size + 1;
      ghost var c := chain;
      chain := chain + [node];
      forall i | 0 <= i < |chain| ensures chain[i].next == if i == |chain| - 1 then null else chain[i + 1] {
        if i < |c| - 1 { assert c[i].next == old(c[i].next) == c[i + 1]; }
      }
    }

    method PopFront()
      requires Valid()
      modifies this
      ensures Valid() && Contents() == if old(chain) == [] then [] else old(Contents())[1..]
    {
      if size == 0 { return; }
      assert head == chain[0] && chain[0].next == if |chain| == 1 then null else chain[1];
      head := head.next;
      size := size - 1;
      chain := chain[1..];
      if size == 0 { tail := null; }
    }

    method Front() returns (r: Option<T>)
      requires Valid()
      ensures r == if chain == [] then None else Some(Contents()[0])
    {
      r := if size == 0 then None else Some(head.val);
    }

    /** The walk of list_find and list_remove: the node of the first value the test accepts,
        and the node before it. */
    method Walk(test: T -> bool) returns (p: Node?<T>, q: Node?<T>, ghost k: nat)
      requires Valid()
      ensures k == First(Contents(), test) && p == (if k == |chain| then null else chain[k])
      ensures q == if k == 0 then null else chain[k - 1]
    {
      p, q, k := head, null, 0;
      while p != null && !test(p.val)
        invariant 0 <= k <= |chain| && p == (if k == |chain| then null else chain[k])
        invariant q == if k == 0 then null else chain[k - 1]
        invariant forall j | 0 <= j < k :: !test(Contents()[j])
        decreases |chain| - k
      {
        assert chain[k].next == if k == |chain| - 1 then null else chain[k + 1];
        q, p, k := p, p.next, k + 1;
      }
      FirstIs(Contents(), test, k);
    }

    /** list_find */
    method Find(test: T -> bool) returns (r: Option<T>)
      requires Valid()
      ensures var i := First(Contents(), test); r == if i < |Contents()| then Some(Contents()[i]) else None
    {
      var p, q, k := Walk(test);
      r := if p == null then None else Some(p.val);
    }

    /** list_remove: the first value the test accepts leaves the list. */
    method Remove(test: T -> bool) returns (r: Option<T>)
      requires Valid()
      modifies this, chain
      ensures Valid()
      ensures var s, i := old(Contents()), First(old(Contents()), test);
        r == (if i < |s| then Some(s[i]) else None) && Contents() == if i < |s| then s[..i] + s[i + 1..] else s
    {
      var p, q, k := Walk(test);
      r := None;
      if p != null {
        r := Some(p.val);
        Unlink(p, q, k);
      }
    }

    method Unlink(p: Node<T>, q: Node?<T>, ghost k: nat)
      requires Valid() && k < |chain| && p == chain[k] && q == if k == 0 then null else chain[k - 1]
      modifies this, chain
      ensures Valid() && chain == old(chain)[..k] + old(chain)[k + 1..]
      ensures Contents() == old(Contents())[..k] + old(Contents())[k + 1..]
    {
      assert p.next == if k == |chain| - 1 then null else chain[k + 1];
      if q == null { head := p.next; } else { q.next := p.next; }
      if p == tail { tail := q; }
      size := size - 1;
      chain := chain[..k] + chain[k + 1..];
      if size == 0 { tail := null; }
    }
  }
}
