/**
  thread/threadlist.c: the doubly linked list with two sentinels behind every run
  queue, wait channel and zombie list. The nodes on a list, read from the head
  sentinel to the tail sentinel, are the ghost sequence `chain`; every operation is
  proved against the sequence of threads it stands for.
*/
module ThreadList {
  import opened Basics

  class Node {
    const self: Option<Tid>
    var prev: Node?
    var next: Node?

    constructor (self: Option<Tid>)
      ensures this.self == self && Off()
    {
      this.self, prev, next := self, null, null;
    }

    /** On no list: what the insertions assert. */
    predicate Off()
      reads this
    {
      prev == null && next == null
    }
  }

  // ------------------------------------------------------------------------ chains

  ghost predicate Distinct(c: seq<Node>) { forall i, j | 0 <= i < j < |c| :: c[i] != c[j] }

  /** Each node's links are its neighbours in the sequence. */
  ghost predicate Links(c: seq<Node>)
    reads c
  {
    forall i {:trigger c[i].prev} {:trigger c[i].next} | 0 <= i < |c| ::
      c[i].prev == (if i == 0 then null else c[i - 1]) && c[i].next == (if i == |c| - 1 then null else c[i + 1])
  }

  function With(c: seq<Node>, i: nat, x: Node): seq<Node>
    requires i <= |c|
  {
    c[..i] + [x] + c[i..]
  }

  function Without(c: seq<Node>, i: nat): seq<Node>
    requires i < |c|
  {
    c[..i] + c[i + 1..]
  }

  method InsertAfterNode(onlist: Node, addee: Node, ghost c: seq<Node>, ghost i: nat)
    requires Distinct(c) && Links(c) && i < |c| - 1 && onlist == c[i] && addee !in c && addee.Off()
    modifies onlist`next, onlist.next`prev, addee
    ensures Distinct(With(c, i + 1, addee)) && Links(With(c, i + 1, addee))
  {
    addee.prev := onlist;
    addee.next := onlist.next;
    addee.prev.next := addee;
    addee.next.prev := addee;
  }

  method InsertBeforeNode(addee: Node, onlist: Node, ghost c: seq<Node>, ghost i: nat)
    requires Distinct(c) && Links(c) && 0 < i < |c| && onlist == c[i] && addee !in c && addee.Off()
    modifies onlist`prev, onlist.prev`next, addee
    ensures Distinct(With(c, i, addee)) && Links(With(c, i, addee))
  {
    addee.prev := onlist.prev;
    addee.next := onlist;
    addee.prev.next := addee;
    addee.next.prev := addee;
  }

  method RemoveNode(x: Node, ghost c: seq<Node>, ghost i: nat)
    requires Distinct(c) && Links(c) && 0 < i < |c| - 1 && x == c[i]
    modifies x.prev`next, x.next`prev, x
    ensures Distinct(Without(c, i)) && Links(Without(c, i)) && x.Off()
  {
    x.prev.next := x.next;
    x.next.prev := x.prev;
    x.prev := null;
    x.next := null;
  }

  /** Threads on the nodes between the sentinels. */
  ghost function Between(c: seq<Node>): (s: seq<Tid>)
    requires Carriers(c)
    ensures |s| == |c| - 2 && forall i | 0 < i < |c| - 1 :: s[i - 1] == c[i].self.value
  {
    seq(|c| - 2, i requires 0 <= i < |c| - 2 => c[i + 1].self.value)
  }

  ghost predicate Carriers(c: seq<Node>) { |c| >= 2 && forall i | 0 < i < |c| - 1 :: c[i].self.Some? }

  lemma BetweenWith(c: seq<Node>, i: nat, x: Node)
    requires Carriers(c) && 0 < i < |c| && x.self.Some?
    ensures Carriers(With(c, i, x))
    ensures Between(With(c, i, x)) == Between(c)[..i - 1] + [x.self.value] + Between(c)[i - 1..]
  {
    var c' := With(c, i, x);
    forall j | 0 < j < |c'| - 1
        ensures c'[j] == (if j < i then c[j] else if j == i then x else c[j - 1]) && c'[j].self.Some? {}
  }

  lemma BetweenWithout(c: seq<Node>, i: nat)
    requires Carriers(c) && 0 < i < |c| - 1
    ensures Carriers(Without(c, i)) && Between(Without(c, i)) == Between(c)[..i - 1] + Between(c)[i..]
  {
    var c' := Without(c, i);
    forall j | 0 < j < |c'| - 1 ensures c'[j] == (if j < i then c[j] else c[j + 1]) && c'[j].self.Some? {}
  }

  class List {
    const head: Node
    const tail: Node
    var count: nat
    ghost var chain: seq<Node>

    ghost predicate Valid()
      reads this, chain
    {
      && Carriers(chain) && chain[0] == head && chain[|chain| - 1] == tail && Distinct(chain) && Links(chain)
          && count == |chain| - 2
    }

    ghost function Threads(): (s: seq<Tid>)
      requires Valid()
      reads this, chain
    {
      Between(chain)
    }

    /** threadlist_init */
    constructor ()
      ensures Valid() && Threads() == [] && fresh(chain)
    {
      head := new Node(None);
      tail := new Node(None);
      count := 0;
      new;
      chain := [head, tail];
      head.next := tail;
      tail.prev := head;
    }

    method IsEmpty() returns (empty: bool)
      requires Valid()
      ensures empty == (Threads() == [])
    {
      empty := count == 0;
    }

    method AddHead(x: Node)
      requires Valid() && x.Off() && x.self.Some?
      modifies this`count, this`chain, chain, x
      ensures Valid() && chain == With(old(chain), 1, x) && Threads() == [x.self.value] + old(Threads())
    {
      BetweenWith(chain, 1, x);
      InsertAfterNode(head, x, chain, 0);
      chain := With(chain, 1, x);
      count := count + 1;
    }

    method AddTail(x: Node)
      requires Valid() && x.Off() && x.self.Some?
      modifies this`count, this`chain, chain, x
      ensures Valid() && chain == With(old(chain), |old(chain)| - 1, x) && Threads() == old(Threads()) + [x.self.value]
    {
      BetweenWith(chain, |chain| - 1, x);
      InsertBeforeNode(x, tail, chain, |chain| - 1);
      chain := With(chain, |chain| - 1, x);
      count := count + 1;
    }

    method InsertAfter(onlist: Node, x: Node, ghost i: nat)
      requires Valid() && x.Off() && x.self.Some? && 0 < i < |chain| - 1 && onlist == chain[i]
      modifies this`count, this`chain, chain, x
      ensures Valid() && chain == With(old(chain), i + 1, x)
      ensures Threads() == old(Threads())[..i] + [x.self.value] + old(Threads())[i..]
    {
      BetweenWith(chain, i + 1, x);
      InsertAfterNode(onlist, x, chain, i);
      chain := With(chain, i + 1, x);
      count := count + 1;
    }

    method InsertBefore(x: Node, onlist: Node, ghost i: nat)
      requires Valid() && x.Off() && x.self.Some? && 0 < i < |chain| - 1 && onlist == chain[i]
      modifies this`count, this`chain, chain, x
      ensures Valid() && chain == With(old(chain), i, x)
      ensures Threads() == old(Threads())[..i - 1] + [x.self.value] + old(Threads())[i - 1..]
    {
      BetweenWith(chain, i, x);
      InsertBeforeNode(x, onlist, chain, i);
      chain := With(chain, i, x);
      count := count + 1;
    }

    method Remove(x: Node, ghost i: nat)
      requires Valid() && 0 < i < |chain| - 1 && x == chain[i]
      modifies this`count, this`chain, chain
      ensures Valid() && chain == Without(old(chain), i) && x.Off()
      ensures Threads() == old(Threads())[..i - 1] + old(Threads())[i..]
    {
      BetweenWithout(chain, i);
      RemoveNode(x, chain, i);
      chain := Without(chain, i);
      count := count - 1;
    }

    method RemHead() returns (x: Node?)
      requires Valid()
      modifies this`count, this`chain, chain
      ensures Valid() && (x == null <==> old(Threads()) == [])
      ensures x == null ==> chain == old(chain) && Threads() == old(Threads())
      ensures x != null ==>
          x == old(chain)[1] && x.Off() && chain == Without(old(chain), 1) && Threads() == old(Threads())[1..]
    {
      var first := head.next;
      if first.next == null { return null; }
      BetweenWithout(chain, 1);
      RemoveNode(first, chain, 1);
      chain := Without(chain, 1);
      count := count - 1;
      x := first;
    }

    method RemTail() returns (x: Node?)
      requires Valid()
      modifies this`count, this`chain, chain
      ensures Valid() && (x == null <==> old(Threads()) == [])
      ensures x == null ==> chain == old(chain) && Threads() == old(Threads())
      ensures x != null ==>
          x == old(chain)[|old(chain)| - 2] && x.Off() && chain == Without(old(chain), |old(chain)| - 2)
                            && Threads() == old(Threads())[..|old(Threads())| - 1]
    {
      var last := tail.prev;
      if last.prev == null { return null; }
      ghost var n := |chain| - 2;
      assert last == chain[n] && n > 0;
      BetweenWithout(chain, n);
      RemoveNode(last, chain, n);
      chain := Without(chain, n);
      count := count - 1;
      x := last;
    }
  }

  ghost predicate Apart(a: seq<Node>, b: seq<Node>) { forall x | x in a :: x !in b }

  ghost predicate Within(c: seq<Node>, nodes: set<Node>) { forall x | x in c :: x in nodes }

  twostate lemma Untouched(b: List)
    requires old(b.Valid()) && b.chain == old(b.chain) && b.count == old(b.count)
    requires forall x | x in b.chain :: x.prev == old(x.prev) && x.next == old(x.next)
    ensures b.Valid() && b.Threads() == old(b.Threads())
  {
    forall i | 0 <= i < |b.chain|
      ensures b.chain[i].prev == (if i == 0 then null else b.chain[i - 1])
      ensures b.chain[i].next == (if i == |b.chain| - 1 then null else b.chain[i + 1])
    {
      assert b.chain[i].prev == old(b.chain[i].prev) && b.chain[i].next == old(b.chain[i].next);
    }
  }

  /** Moves the thread at the head of one list to the tail of another. */
  method Move(a: List, b: List, ghost nodes: set<Node>) returns (moved: bool)
    requires a.Valid() && b.Valid() && a != b && Apart(a.chain, b.chain) && Within(a.chain, nodes)
    requires Within(b.chain, nodes)
    modifies a`count, a`chain, b`count, b`chain, nodes
    ensures a.Valid() && b.Valid() && Apart(a.chain, b.chain) && moved == (old(a.Threads()) != [])
    ensures !moved ==> b.Threads() == old(b.Threads()) && a.Threads() == []
    ensures moved ==> a.Threads() == old(a.Threads())[1..] && b.Threads() == old(b.Threads()) + [old(a.Threads())[0]]
    ensures Within(a.chain, nodes) && Within(b.chain, nodes)
  {
    var x := a.RemHead();
    forall y | y in b.chain ensures y.prev == old(y.prev) && y.next == old(y.next) { assert y !in old(a.chain); }
    Untouched(b);
    if x == null { return false; }
    ghost var ca, cb := old(a.chain), b.chain;
    assert x == ca[1] && a.chain == Without(ca, 1);
    label Taken:
    b.AddTail(x);
    forall y | y in a.chain
      ensures y.prev == old@Taken(y.prev) && y.next == old@Taken(y.next)
    {
      WithoutMembers(ca, 1);
      assert y !in cb && y != x;
    }
    Untouched@Taken(a);
    moved := true;
    WithoutMembers(ca, 1);
    WithMembers(cb, |cb| - 1, x);
  }

  lemma WithoutMembers(c: seq<Node>, i: nat)
    requires i < |c| && Distinct(c)
    ensures forall x {:trigger x in Without(c, i)} :: x in Without(c, i) <==> x in c && x != c[i]
  {
    forall x | x in c && x != c[i] ensures x in Without(c, i) {
      var j :| 0 <= j < |c| && c[j] == x;
      assert Without(c, i)[if j < i then j else j - 1] == x;
    }
  }

  lemma WithMembers(c: seq<Node>, i: nat, x: Node)
    requires i <= |c|
    ensures forall y {:trigger y in With(c, i, x)} :: y in With(c, i, x) <==> y in c || y == x
  {
    assert c == c[..i] + c[i..];
  }

  /** Moves every thread, in order, to the tail of another list. */
  method Drain(a: List, b: List, ghost nodes: set<Node>)
    requires a.Valid() && b.Valid() && a != b && Apart(a.chain, b.chain) && Within(a.chain, nodes)
    requires Within(b.chain, nodes)
    modifies a`count, a`chain, b`count, b`chain, nodes
    ensures a.Valid() && b.Valid() && Apart(a.chain, b.chain)
    ensures a.Threads() == [] && b.Threads() == old(b.Threads()) + old(a.Threads())
    ensures Within(a.chain, nodes) && Within(b.chain, nodes)
  {
    var more := true;
    ghost var ta, tb := a.Threads(), b.Threads();
    ghost var n := 0;
    while more
      invariant a.Valid() && b.Valid() && Apart(a.chain, b.chain)
      invariant Within(a.chain, nodes) && Within(b.chain, nodes)
      invariant 0 <= n <= |ta| && a.Threads() == ta[n..] && b.Threads() == tb + ta[..n] && (!more ==> n == |ta|)
      decreases |ta| - n, more
    {
      more := Move(a, b, nodes);
      if more {
        assert ta[..n + 1] == ta[..n] + [ta[n]];
        n := n + 1;
      }
    }
  }

  /** A third list does not notice. */
  method DrainBeside(a: List, b: List, c: List, ghost nodes: set<Node>)
    requires a.Valid() && b.Valid() && a != b && Apart(a.chain, b.chain) && Within(a.chain, nodes)
    requires Within(b.chain, nodes)
    requires c.Valid() && c != a && c != b && forall x | x in c.chain :: x !in nodes
    modifies a`count, a`chain, b`count, b`chain, nodes
    ensures a.Valid() && b.Valid() && Apart(a.chain, b.chain) && Within(a.chain, nodes) && Within(b.chain, nodes)
    ensures a.Threads() == [] && b.Threads() == old(b.Threads()) + old(a.Threads())
    ensures c.Valid() && c.chain == old(c.chain) && c.Threads() == old(c.Threads())
  {
    Drain(a, b, nodes);
    forall x | x in c.chain ensures x.prev == old(x.prev) && x.next == old(x.next) {}
    Untouched(c);
  }

  /** wchan_wakeall: through a private list to the tail of the run queue. */
  method WakeAll(wc: List, runQueue: List, ghost nodes: set<Node>, ghost ready: set<Node>)
    requires wc.Valid() && runQueue.Valid() && wc != runQueue && nodes !! ready && Within(wc.chain, nodes)
    requires Within(runQueue.chain, ready)
    modifies wc`count, wc`chain, runQueue`count, runQueue`chain, nodes, ready
    ensures wc.Valid() && runQueue.Valid() && wc.Threads() == []
    ensures runQueue.Threads() == old(runQueue.Threads()) + old(wc.Threads())
  {
    var list := new List();
    ghost var own := set x | x in list.chain;
    DrainBeside(wc, list, runQueue, nodes + own);
    DrainBeside(list, runQueue, wc, nodes + own + ready - (set x | x in wc.chain));
  }
}
