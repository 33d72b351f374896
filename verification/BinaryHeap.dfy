/**
  klib/heap.c over klib/array.c: a binary heap in a growable array, for any strict
  weak order as comparator.
*/
module BinaryHeap {
  type Item = nat
  type Less = (Item, Item) -> bool

  /** Irreflexive, transitive, and "neither precedes the other" is transitive. */
  ghost predicate StrictWeakOrder(less: Less) {
    && (forall a :: !less(a, a))
    && (forall a, b, c {:trigger Triple(a, b, c)} ::
        (less(a, b) && less(b, c) ==> less(a, c)) && (less(a, c) ==> less(a, b) || less(b, c)))
  }

  /** Names three items to compare; always true. */
  predicate Triple(a: Item, b: Item, c: Item) { true }

  lemma Compare(less: Less, a: Item, b: Item, c: Item)
    requires StrictWeakOrder(less)
    ensures less(a, b) && less(b, c) ==> less(a, c)
    ensures less(a, c) ==> less(a, b) || less(b, c)
  {
    assert Triple(a, b, c);
  }

  function Parent(i: nat): (p: nat)
    requires i > 0
    ensures p < i
  {
    (i - 1) / 2
  }

  /** No item precedes its parent. */
  ghost predicate Ordered(less: Less, s: seq<Item>) {
    forall i {:trigger Under(less, s, i)} | 0 < i < |s| :: Under(less, s, i)
  }

  predicate Under(less: Less, s: seq<Item>, i: nat)
    requires 0 < i < |s|
  {
    !less(s[i], s[Parent(i)])
  }

  /** No child of k precedes x. */
  ghost predicate Below(less: Less, s: seq<Item>, k: nat, x: Item) {
    forall i {:trigger s[i]} | 0 < i < |s| && Parent(i) == k :: !less(s[i], x)
  }

  /** Nothing precedes the root. */
  lemma {:induction false} RootFirst(less: Less, s: seq<Item>, i: nat)
    requires StrictWeakOrder(less) && Ordered(less, s) && i < |s|
    ensures !less(s[i], s[0])
    decreases i
  {
    if i > 0 {
      assert Under(less, s, i);
      RootFirst(less, s, Parent(i));
      Compare(less, s[i], s[Parent(i)], s[0]);
    }
  }

  lemma RootFirstOfAll(less: Less, s: seq<Item>)
    requires StrictWeakOrder(less) && Ordered(less, s) && s != []
    ensures forall y | y in s :: !less(y, s[0])
  {
    forall i | 0 <= i < |s| ensures !less(s[i], s[0]) { RootFirst(less, s, i); }
  }

  function Swap(s: seq<Item>, i: nat, j: nat): (t: seq<Item>)
    requires i < |s| && j < |s|
    ensures |t| == |s|
  {
    s[i := s[j]][j := s[i]]
  }

  lemma SwapKeeps(s: seq<Item>, i: nat, j: nat)
    requires i < |s| && j < |s|
    ensures multiset(Swap(s, i, j)) == multiset(s)
  {
  }

  // ----------------------------------------------------------------------- going up

  /** Ordered but for index k, whose children do not precede its parent. */
  ghost predicate Rising(less: Less, s: seq<Item>, k: nat) {
    && k < |s|
    && (forall i {:trigger Under(less, s, i)} | 0 < i < |s| && i != k :: Under(less, s, i))
    && (k > 0 ==> Below(less, s, k, s[Parent(k)]))
  }

  lemma RisingStep(less: Less, s: seq<Item>, k: nat)
    requires StrictWeakOrder(less) && Rising(less, s, k) && k > 0 && less(s[k], s[Parent(k)])
    ensures Rising(less, Swap(s, k, Parent(k)), Parent(k))
  {
    var p, t := Parent(k), Swap(s, k, Parent(k));
    forall i | 0 < i < |t| && i != p ensures Under(less, t, i) {
      assert i != k ==> Under(less, s, i);
      Compare(less, s[i], s[k], s[p]);
      Compare(less, s[k], s[p], s[k]);
    }
    if p > 0 {
      assert Under(less, s, p);
      forall i | 0 < i < |t| && Parent(i) == p ensures !less(t[i], t[Parent(p)]) {
        assert i != k ==> Under(less, s, i);
        Compare(less, s[i], s[p], s[Parent(p)]);
      }
    }
  }

  lemma RisingEnds(less: Less, s: seq<Item>, k: nat)
    requires Rising(less, s, k) && (k > 0 ==> !less(s[k], s[Parent(k)]))
    ensures Ordered(less, s)
  {
    forall i | 0 < i < |s| ensures Under(less, s, i) {}
  }

  lemma Appended(less: Less, s: seq<Item>, x: Item)
    requires Ordered(less, s)
    ensures Rising(less, s + [x], |s|)
  {
    var t := s + [x];
    forall i | 0 < i < |t| && i != |s| ensures Under(less, t, i) { assert Under(less, s, i); }
  }

  // --------------------------------------------------------------------- going down

  /** Ordered but for the children of k, which do not precede its parent. */
  ghost predicate Sinking(less: Less, s: seq<Item>, k: nat) {
    && (forall i {:trigger Under(less, s, i)} | 0 < i < |s| && Parent(i) != k :: Under(less, s, i))
    && (0 < k < |s| ==> Below(less, s, k, s[Parent(k)]))
  }

  lemma SinkingStep(less: Less, s: seq<Item>, k: nat, j: nat)
    requires StrictWeakOrder(less) && Sinking(less, s, k) && 0 < j < |s| && Parent(j) == k && less(s[j], s[k])
    requires Below(less, s, k, s[j])
    ensures Sinking(less, Swap(s, k, j), j)
  {
    var t := Swap(s, k, j);
    forall i | 0 < i < |t| && Parent(i) != j ensures Under(less, t, i) {
      if i != k && Parent(i) != k { assert Under(less, s, i); }
      Compare(less, s[j], s[k], s[j]);
    }
    forall i | 0 < i < |t| && Parent(i) == j ensures !less(t[i], t[Parent(j)]) {
      assert Under(less, s, i);
    }
  }

  lemma SinkingEnds(less: Less, s: seq<Item>, k: nat)
    requires Sinking(less, s, k)
    requires k < |s| ==> Below(less, s, k, s[k])
    ensures Ordered(less, s)
  {
    forall i | 0 < i < |s| ensures Under(less, s, i) {}
  }

  // ---------------------------------------------------------------- klib/array.c

  /** More pointers than this do not fit the address space. */
  const MAX_ITEMS: nat := 0x1000_0000

  /** 0, or 4 times a power of two. */
  predicate Room(max: nat) { max == 0 || max == 4 || (max > 4 && max % 2 == 0 && Room(max / 2)) }

  lemma RoomDoubles(max: nat)
    requires Room(max)
    ensures Room(if max != 0 then max * 2 else 4)
  {
    assert max * 2 / 2 == max;
  }

  method Enlarged(max: nat, num: nat) returns (newmax: nat)
    requires Room(max) && max < num <= MAX_ITEMS
    ensures Room(newmax) && num <= newmax && (newmax == 4 || newmax < 2 * num)
  {
    newmax := max;
    while num > newmax
      invariant Room(newmax) && (newmax <= 4 || newmax < 2 * num)
      decreases num - newmax
    {
      RoomDoubles(newmax);
      newmax := if newmax != 0 then newmax * 2 else 4;
    }
  }

  class Array {
    var num: nat
    var max: nat
    var v: array<Item>
    ghost var s: seq<Item>

    ghost predicate Valid()
      reads this, v
    {
      num == |s| <= max == v.Length && Room(max) && v[..num] == s
    }

    constructor ()
      ensures Valid() && fresh(v) && s == []
    {
      num, max, s := 0, 0, [];
      v := new Item[0];
    }

    twostate predicate Own()
      reads this
    {
      v == old(v) || fresh(v)
    }

    method Get(i: nat) returns (x: Item)
      requires Valid() && i < |s|
      ensures x == s[i]
    {
      x := v[i];
    }

    method Set(i: nat, x: Item)
      requires Valid() && i < |s|
      modifies this`s, v
      ensures Valid() && s == old(s)[i := x]
    {
      v[i] := x;
      s := s[i := x];
    }

    /** array_setsize: what both sizes have in common stays. */
    method SetSize(n: nat)
      requires Valid() && n <= MAX_ITEMS
      modifies this
      ensures Valid() && Own() && |s| == n && forall i | 0 <= i < n && i < |old(s)| :: s[i] == old(s)[i]
    {
      if n > max {
        var newmax := Enlarged(max, n);
        var copy := new Item[newmax];
        for i := 0 to num
          invariant Valid() && v == old(v) && s == old(s) && copy[..i] == s[..i]
        {
          assert v[i] == s[i];
          copy[i] := v[i];
        }
        assert forall i | 0 <= i < num :: copy[i] == copy[..num][i] == s[i];
        v := copy;
        max := newmax;
      }
      num := n;
      s := v[..n];
    }

    method Add(x: Item) returns (i: nat)
      requires Valid() && |s| < MAX_ITEMS
      modifies this, v
      ensures Valid() && Own() && i == |old(s)| && s == old(s) + [x]
    {
      i := num;
      SetSize(i + 1);
      Set(i, x);
    }

    /** array_remove: the items behind move up by one. */
    method Remove(i: nat)
      requires Valid() && i < |s|
      modifies this, v
      ensures Valid() && v == old(v) && s == old(s)[..i] + old(s)[i + 1..]
    {
      assert forall k | 0 <= k < num :: v[k] == v[..num][k] == s[k];
      for j := i to num - 1
        invariant num == |s| == old(num) && v == old(v) && max == old(max) && s == old(s)
        invariant forall k | 0 <= k < num && (k < i || j <= k) :: v[k] == s[k]
        invariant forall k | i <= k < j :: v[k] == s[k + 1]
      {
        v[j] := v[j + 1];
      }
      num := num - 1;
      s := s[..i] + s[i + 1..];
    }
  }

  // ----------------------------------------------------------------- klib/heap.c

  class Heap {
    const less: Less
    const vals: Array

    ghost predicate Valid()
      reads this, vals, vals.v
    {
      vals.Valid() && StrictWeakOrder(less) && Ordered(less, vals.s)
    }

    constructor (less: Less)
      requires StrictWeakOrder(less)
      ensures Valid() && fresh(vals) && fresh(vals.v) && vals.s == [] && this.less == less
    {
      this.less := less;
      vals := new Array();
    }

    method Exchange(i: nat, j: nat)
      requires vals.Valid() && i < |vals.s| && j < |vals.s|
      modifies vals`s, vals.v
      ensures vals.Valid() && vals.s == Swap(old(vals.s), i, j) && multiset(vals.s) == multiset(old(vals.s))
    {
      var x := vals.Get(i);
      var y := vals.Get(j);
      vals.Set(i, y);
      vals.Set(j, x);
      SwapKeeps(old(vals.s), i, j);
    }

    method BubbleUp(start: nat)
      requires vals.Valid() && StrictWeakOrder(less) && Rising(less, vals.s, start)
      modifies vals`s, vals.v
      ensures Valid() && multiset(vals.s) == multiset(old(vals.s))
    {
      var index := start;
      while index > 0 && less(vals.v[index], vals.v[Parent(index)])
        invariant vals.Valid() && Rising(less, vals.s, index) && multiset(vals.s) == multiset(old(vals.s))
      {
        assert vals.v[index] == vals.s[index] && vals.v[Parent(index)] == vals.s[Parent(index)];
        RisingStep(less, vals.s, index);
        Exchange(index, Parent(index));
        index := Parent(index);
      }
      assert vals.v[index] == vals.s[index] && (index > 0 ==> vals.v[Parent(index)] == vals.s[Parent(index)]);
      RisingEnds(less, vals.s, index);
    }

    /** The child that trickle_down swaps with, or -1. */
    method Child(index: nat) returns (j: int)
      requires vals.Valid() && StrictWeakOrder(less) && index < |vals.s|
      ensures j == -1 || 0 < j < |vals.s|
      ensures j == -1 ==> Below(less, vals.s, index, vals.s[index])
      ensures j >= 0 ==> Parent(j) == index && less(vals.s[j], vals.s[index]) && Below(less, vals.s, index, vals.s[j])
    {
      var l, r := 2 * index + 1, 2 * index + 2;
      ghost var s := vals.s;
      assert forall i | 0 < i < |s| && Parent(i) == index :: i == l || i == r;
      j := -1;
      var x := vals.Get(index);
      if r < vals.num {
        var a, b := vals.v[l], vals.v[r];
        assert a == s[l] && b == s[r];
        Compare(less, a, b, x);
        Compare(less, a, b, a);
        Compare(less, b, a, x);
        if less(b, x) {
          j := if less(a, b) then l else r;
          return;
        }
      }
      if l < vals.num {
        var a := vals.v[l];
        assert a == s[l];
        if less(a, x) { j := l; }
      }
    }

    method TrickleDown()
      requires vals.Valid() && StrictWeakOrder(less) && Sinking(less, vals.s, 0)
      modifies vals`s, vals.v
      ensures Valid() && multiset(vals.s) == multiset(old(vals.s))
    {
      var index := 0;
      if vals.num == 0 { return; }
      while index >= 0
        invariant vals.Valid() && -1 <= index < |vals.s| == |old(vals.s)| && multiset(vals.s) == multiset(old(vals.s))
        invariant if index >= 0 then Sinking(less, vals.s, index) else Ordered(less, vals.s)
        decreases if index >= 0 then |vals.s| - index else 0
      {
        var j := Child(index);
        if j >= 0 {
          SinkingStep(less, vals.s, index, j);
          Exchange(index, j);
        } else {
          SinkingEnds(less, vals.s, index);
        }
        index := j;
      }
    }

    method Push(x: Item)
      requires Valid() && |vals.s| < MAX_ITEMS
      modifies vals, vals.v
      ensures Valid() && (vals.v == old(vals.v) || fresh(vals.v))
      ensures multiset(vals.s) == multiset(old(vals.s)) + multiset{x}
    {
      Appended(less, vals.s, x);
      var i := vals.Add(x);
      BubbleUp(vals.num - 1);
    }

    method MoveLast(last: Item)
      requires vals.Valid() && |vals.s| > 0 && last == vals.s[|vals.s| - 1]
      modifies vals`s, vals`num, vals.v
      ensures vals.Valid() && vals.s == old(vals.s)[0 := last][..|old(vals.s)| - 1]
    {
      vals.Set(0, last);
      vals.num := vals.num - 1;
      vals.s := vals.s[..vals.num];
    }

    /** heap_pop: `ok` false stands for the NULL of an empty heap. */
    method Pop() returns (x: Item, ok: bool)
      requires Valid()
      modifies vals, vals.v
      ensures Valid() && vals.v == old(vals.v) && ok == (old(vals.s) != [])
      ensures ok ==> x in old(vals.s) && multiset(vals.s) == multiset(old(vals.s)) - multiset{x}
      ensures ok ==> forall y | y in old(vals.s) :: !less(y, x)
    {
      ok := vals.num > 0;
      x := 0;
      if !ok { return; }
      x := vals.Get(0);
      var last := vals.Get(vals.num - 1);
      RootFirstOfAll(less, vals.s);
      LastToRoot(less, vals.s, vals.s[0 := last][..|vals.s| - 1]);
      MoveLast(last);
      TrickleDown();
    }
  }

  lemma Cancel(a: multiset<Item>, b: multiset<Item>, x: Item)
    requires a + multiset{x} == b + multiset{x}
    ensures a == b
  {
    assert a == (a + multiset{x}) - multiset{x} && b == (b + multiset{x}) - multiset{x};
  }

  /** The last item in place of the root. */
  lemma LastToRoot(less: Less, s: seq<Item>, t: seq<Item>)
    requires Ordered(less, s) && s != [] && t == s[0 := s[|s| - 1]][..|s| - 1]
    ensures Sinking(less, t, 0) && multiset(t) == multiset(s) - multiset{s[0]}
  {
    var n := |s| - 1;
    forall i | 0 < i < |t| && Parent(i) != 0 ensures Under(less, t, i) { assert Under(less, s, i); }
    assert s[0 := s[n]] == t + [s[n]];
    assert multiset(t) + multiset{s[n]} == multiset(s[0 := s[n]]) == multiset(s) - multiset{s[0]} + multiset{s[n]};
    Cancel(multiset(t), multiset(s) - multiset{s[0]}, s[n]);
  }

  ghost predicate Sorted(less: Less, s: seq<Item>) { forall i, j | 0 <= i < j < |s| :: !less(s[j], s[i]) }

  /** Popping to empty yields everything in order. */
  method PopAll(h: Heap) returns (out: seq<Item>)
    requires h.Valid()
    modifies h.vals, h.vals.v
    ensures h.Valid() && h.vals.s == [] && multiset(out) == multiset(old(h.vals.s)) && Sorted(h.less, out)
  {
    out := [];
    while h.vals.num > 0
      invariant h.Valid() && h.vals.v == old(h.vals.v)
      invariant multiset(out) + multiset(h.vals.s) == multiset(old(h.vals.s)) && Sorted(h.less, out)
      invariant Ahead(h.less, out, h.vals.s)
      decreases h.vals.num
    {
      ghost var before := h.vals.s;
      var x, ok := h.Pop();
      Counted(h.vals.s, before, x);
      SortedNext(h.less, out, before, x, h.vals.s);
      out := out + [x];
    }
  }

  /** Nothing in s precedes anything in out. */
  ghost predicate Ahead(less: Less, out: seq<Item>, s: seq<Item>) {
    forall i, y | 0 <= i < |out| && y in s :: !less(y, out[i])
  }

  lemma SortedNext(less: Less, out: seq<Item>, s: seq<Item>, x: Item, s': seq<Item>)
    requires Sorted(less, out) && Ahead(less, out, s) && x in s && (forall y | y in s :: !less(y, x))
    requires multiset(s') == multiset(s) - multiset{x}
    ensures Sorted(less, out + [x]) && Ahead(less, out + [x], s')
  {
    forall y | y in s' ensures y in s { assert y in multiset(s'); }
  }

  lemma Counted(s: seq<Item>, t: seq<Item>, x: Item)
    requires x in t && multiset(s) == multiset(t) - multiset{x}
    ensures |s| == |t| - 1
  {
    assert |multiset(s)| == |s| && |multiset(t)| == |t|;
  }
}
