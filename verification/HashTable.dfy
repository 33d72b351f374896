/**
  klib/hashtable.c: the chained table that doubles and halves its array. Adding may
  grow, growing rehashes, and rehashing adds; shrinking rehashes too, and that rehash
  may grow in the middle and replace the array it fills. The table is proved to be a
  finite map throughout.
*/
module HashTable {
  import opened Basics
  import opened HashModel
  import L = LinkedList

  /** An array of more chains than this, and their lists, exceed the address space. */
  const MAX_SLOTS: nat := 0x1000_0000

  // ------------------------------------------------------------- chains as linked lists

  /** key_comparator answers 0. */
  function Test(k: Key): Pair -> bool { (p: Pair) => p.key == k }

  /** The search of klib/list.c with key_comparator is the search of the chains. */
  lemma ListSearch(c: Chain, k: Key)
    ensures L.First(c, Test(k)) == Find(c, k)
  {
    L.FirstIs(c, Test(k), Find(c, k));
  }

  /** list_find as the table calls it. */
  method ListFind(list: L.List<Pair>, k: Key) returns (r: Option<Pair>)
    requires list.Valid()
    ensures var c := list.Contents(); r == if Has(c, k) then Some(c[Find(c, k)]) else None
  {
    ListSearch(list.Contents(), k);
    r := list.Find(Test(k));
  }

  /** list_remove as the table calls it. */
  method ListRemove(list: L.List<Pair>, k: Key) returns (r: Option<Pair>)
    requires list.Valid()
    modifies list, list.chain
    ensures list.Valid() && list.Contents() == Dropped(old(list.Contents()), k)
    ensures var c := old(list.Contents()); r == if Has(c, k) then Some(c[Find(c, k)]) else None
  {
    ListSearch(list.Contents(), k);
    r := list.Remove(Test(k));
  }

  // --------------------------------------------------------------------------- hash

  lemma WrapTimes33(h: int, c: int)
    ensures U32(U32(U32(U32(h) * 32) + U32(h)) + U32(c)) == U32(33 * h + c)
  {
    var q, q1 := h / TWO32, c / TWO32;
    var x := U32(h);
    assert h == q * TWO32 + x;
    var y := (x * 32) / TWO32;
    assert U32(x * 32) == x * 32 - y * TWO32;
    var z := (U32(x * 32) + x) / TWO32;
    assert U32(U32(x * 32) + x) == x * 33 - (y + z) * TWO32;
    var sum := U32(U32(x * 32) + x) + U32(c);
    assert 33 * h + c == sum + (33 * q + q1 + y + z) * TWO32;
    Shift(sum, 33 * q + q1 + y + z);
  }

  lemma Shift(x: int, k: int)
    ensures U32(x + k * TWO32) == U32(x)
  {
    assert (x + k * TWO32) / TWO32 == x / TWO32 + k;
  }

  /** hash: the wrap at every step comes to one wrap at the end. */
  method ComputeHash(key: Key) returns (h: nat)
    ensures h == Hash(key)
  {
    h := 5381;
    for i := 0 to key.len
      invariant h == U32(Djb2(key.chars[..i]))
    {
      var c := key.chars[i];
      assert key.chars[..i + 1][..i] == key.chars[..i];
      WrapTimes33(Djb2(key.chars[..i]), c);
      h := U32(U32(U32(h * 32) + h) + U32(c));
    }
  }

  method IndexOf(key: Key, n: nat) returns (i: nat)
    requires n > 0
    ensures i == Slot(key, n)
  {
    var h := ComputeHash(key);
    i := h % n;
  }

  method MustGrow(size: nat, arraysize: nat) returns (must: bool)
    requires size < 4 * MAX_SLOTS
    ensures must == (2 * (size + 1) > arraysize)
  {
    must := U32(U32(size + 1) * 2) > arraysize;
  }

  /** At 0 items, size - 1 wraps and the answer is no. */
  method MayShrink(size: nat, arraysize: nat) returns (may: bool)
    requires 2 * size <= arraysize < 4 * MAX_SLOTS
    ensures may == (arraysize > MIN_SIZE && size >= 1)
  {
    may := arraysize > MIN_SIZE && U32(U32(size - 1) * 2) < arraysize;
  }

  /** h->vals, with its contents as a ghost sequence. */
  class Slots {
    const chains: array<Chain>
    ghost var table: HashModel.Table

    ghost predicate Valid()
      reads this, chains
    {
      chains[..] == table
    }

    constructor (n: nat)
      ensures Valid() && fresh(chains) && table == Empty(n)
    {
      chains := new Chain[n](_ => []);
      table := Empty(n);
      new;
      assert chains[..] == Empty(n);
    }

    method Get(i: nat) returns (c: Chain)
      requires Valid() && i < |table|
      ensures c == table[i]
    {
      c := chains[i];
    }

    method Set(i: nat, c: Chain)
      requires Valid() && i < |table|
      modifies this, chains
      ensures Valid() && table == old(table)[i := c]
    {
      chains[i] := c;
      table := table[i := c];
    }
  }

  class Table {
    var size: nat
    var arraysize: nat
    var vals: Slots
    ghost var m: map<Key, Val>

    ghost predicate Shape()
      reads this, vals, vals.chains
    {
      vals.Valid() && |vals.table| == arraysize && Capacity(arraysize) && arraysize < 2 * MAX_SLOTS
          && Refines(vals.table, m)
    }

    ghost predicate Valid()
      reads this, vals, vals.chains
    {
      Shape() && size == |m| && 2 * size <= arraysize
    }

    method WriteChain(i: nat, c: Chain, ghost m': map<Key, Val>)
      requires Shape() && i < arraysize && Refines(vals.table[i := c], m')
      modifies this`m, vals, vals.chains
      ensures Shape() && m == m'
    {
      vals.Set(i, c);
      m := m';
    }

    /** hashtable_create */
    constructor ()
      ensures Valid() && fresh(vals) && fresh(vals.chains) && m == map[] && arraysize == MIN_SIZE
    {
      size, arraysize, m := 0, MIN_SIZE, map[];
      vals := new Slots(MIN_SIZE);
      new;
      EmptyRefines(MIN_SIZE);
    }

    /** The array is the one it was, or a new one. */
    twostate predicate Own()
      reads this, vals
    {
      (vals == old(vals)) || (fresh(vals) && fresh(vals.chains))
    }

    /** hashtable_add. `level` bounds the growing: at level 0 there is room already. */
    method Add(key: Key, val: Val, ghost level: nat)
      requires Valid() && (2 * (size + 1) > arraysize ==> level > 0 && arraysize < MAX_SLOTS)
      modifies this, vals, vals.chains
      ensures Valid() && Own() && m == old(m)[key := val] && arraysize == Roomier(old(arraysize), old(size))
      decreases level, 3
    {
      var must := MustGrow(size, arraysize);
      if must {
        Grow(level);
      }
      Insert(key, val);
    }

    method Insert(key: Key, val: Val)
      requires Valid() && 2 * (size + 1) <= arraysize
      modifies this`size, this`m, vals, vals.chains
      ensures Valid() && m == old(m)[key := val]
    {
      var index := IndexOf(key, arraysize);
      var chain := vals.Get(index);
      Answer(vals.table, m, key);
      Put(vals.table, m, key, val, vals.table[index := Dropped(chain, key) + [Pair(key, val)]]);
      WriteChain(index, Dropped(chain, key) + [Pair(key, val)], m[key := val]);
      if !Has(chain, key) { size := size + 1; }
    }

    method Grow(ghost level: nat)
      requires Valid() && level > 0 && arraysize < MAX_SLOTS
      modifies this, vals, vals.chains
      ensures Valid() && Own() && m == old(m) && arraysize == 2 * old(arraysize)
      decreases level, 2
    {
      var source, n := vals, arraysize;
      ghost var all := m;
      CapacityScales(n);
      Reset(n * 2);
      Rehash(source, 0, all);
    }

    /** An empty array in place of the old one. */
    method Reset(n: nat)
      requires Capacity(n) && n < 2 * MAX_SLOTS
      modifies this
      ensures Valid() && fresh(vals) && fresh(vals.chains) && m == map[] && arraysize == n
    {
      vals := new Slots(n);
      size := 0;
      arraysize := n;
      m := map[];
      EmptyRefines(n);
    }

    /** Moves the first pair of a source chain. */
    method MoveFirst(source: Slots, i: nat, ghost level: nat, ghost rest: map<Key, Val>)
      requires Valid() && source.Valid() && source != vals && source.chains != vals.chains
      requires i < |source.table| && source.table[i] != [] && Refines(source.table, rest)
      requires 2 * (size + 1) > arraysize ==> level > 0 && arraysize < MAX_SLOTS
      modifies this, vals, vals.chains, source, source.chains
      ensures Valid() && Own() && arraysize == Roomier(old(arraysize), old(size)) && source.Valid()
      ensures source.table == old(source.table)[i := old(source.table)[i][1..]]
      ensures var p := old(source.table)[i][0];
          m == old(m)[p.key := p.val] && p.key in rest && rest[p.key] == p.val && Refines(source.table, rest - {p.key})
      decreases level, 4
    {
      var chain := source.Get(i);
      TakeFirst(source.table, rest, i, source.table[i := chain[1..]]);
      Add(chain[0].key, chain[0].val, level);
      source.Set(i, chain[1..]);
    }

    /** Part of `all` has moved over, the rest is still in the source. */
    ghost predicate Moving(source: Slots, rest: map<Key, Val>, all: map<Key, Val>, slots: nat)
      reads this, vals, vals.chains, source, source.chains
    {
      && Valid() && source.Valid() && source != vals && source.chains != vals.chains && Refines(source.table, rest)
      && Split(m, rest, all) && arraysize == Refilled(slots, |m|)
    }

    method MoveStep(source: Slots, i: nat, ghost level: nat, ghost rest: map<Key, Val>, ghost all: map<Key, Val>,
                    ghost slots: nat)
      returns (ghost rest': map<Key, Val>)
      requires Moving(source, rest, all, slots) && Enough(level, |all|, slots, MAX_SLOTS)
      requires i < |source.table| && source.table[i] != []
      modifies this, vals, vals.chains, source, source.chains
      ensures Moving(source, rest', all, slots) && Own()
      ensures source.table == old(source.table)[i := old(source.table)[i][1..]]
      decreases level, 5
    {
      ghost var p := source.table[i][0];
      TakeFirst(source.table, rest, i, source.table[i := source.table[i][1..]]);
      SplitMove(m, rest, all, p);
      RoomFor(level, |all|, slots, MAX_SLOTS, |m|);
      MoveFirst(source, i, level, rest);
      rest' := rest - {p.key};
    }

    method MoveChain(source: Slots, i: nat, ghost level: nat, ghost rest0: map<Key, Val>, ghost all: map<Key, Val>,
                     ghost slots: nat)
      returns (ghost rest: map<Key, Val>)
      requires i < |source.table| && Moving(source, rest0, all, slots) && Enough(level, |all|, slots, MAX_SLOTS)
      modifies this, vals, vals.chains, source, source.chains
      ensures Moving(source, rest, all, slots) && Own() && source.table == old(source.table)[i := []]
      decreases level, 6
    {
      rest := rest0;
      ghost var t := source.table;
      var chain := source.Get(i);
      SetTwice(t, i, chain, chain);
      while chain != []
        invariant Moving(source, rest, all, slots) && Own() && source.table == t[i := chain]
        decreases |chain|
      {
        SetTwice(t, i, chain, chain[1..]);
        rest := MoveStep(source, i, level, rest, all, slots);
        chain := source.Get(i);
      }
    }

    /** rehash: every pair moves over, and the target grows at most once. */
    method Rehash(source: Slots, ghost level: nat, ghost all: map<Key, Val>)
      requires Valid() && source.Valid() && source != vals && source.chains != vals.chains && m == map[]
      requires Refines(source.table, all)
      requires Enough(level, |all|, arraysize, MAX_SLOTS)
      modifies this, vals, vals.chains, source, source.chains
      ensures Valid() && Own() && m == all && arraysize == Refilled(old(arraysize), |all|)
      ensures source.Valid() && Drained(source.table, |source.table|)
      decreases level, 7
    {
      ghost var rest, slots := all, arraysize;
      SplitStarts(all);
      for i := 0 to source.chains.Length
        invariant Moving(source, rest, all, slots) && Own()
        invariant Drained(source.table, i)
      {
        DrainedNext(source.table, i, source.table[i := []]);
        rest := MoveChain(source, i, level, rest, all, slots);
      }
      SplitEnds(source.table, m, rest, all);
    }

    /** hashtable_find */
    method Find(key: Key) returns (val: Val)
      requires Valid()
      ensures val == if key in m then m[key] else NULL
    {
      var index := IndexOf(key, arraysize);
      var chain := vals.Get(index);
      Answer(vals.table, m, key);
      var i := HashModel.Find(chain, key);
      val := if i < |chain| then chain[i].val else NULL;
    }

    method Shrink()
      requires Valid() && MIN_SIZE < arraysize
      modifies this, vals, vals.chains
      ensures Valid() && Own() && m == old(m) && arraysize == Refilled(old(arraysize) / 2, |m|)
    {
      var source, n := vals, arraysize;
      ghost var all := m;
      CapacityScales(n);
      Reset(n / 2);
      Rehash(source, 1, all);
    }

    /** list_remove on the key's chain. */
    method TakeOut(key: Key) returns (found: bool, val: Val)
      requires Valid()
      modifies this`size, this`m, vals, vals.chains
      ensures Valid() && m == old(m) - {key} && found == (key in old(m)) && val == (if found then old(m)[key] else NULL)
      ensures |m| == if found then |old(m)| - 1 else |old(m)|
    {
      var index := IndexOf(key, arraysize);
      var chain := vals.Get(index);
      Removal(vals.table, m, key, index, vals.table[index := Dropped(chain, key)], m - {key});
      var i := HashModel.Find(chain, key);
      found := i < |chain|;
      val := if found then chain[i].val else NULL;
      WriteChain(index, Dropped(chain, key), m - {key});
      size := if found then size - 1 else size;
    }

    /** hashtable_remove */
    method Remove(key: Key) returns (val: Val)
      requires Valid()
      modifies this, vals, vals.chains
      ensures Valid() && Own() && m == old(m) - {key} && val == if key in old(m) then old(m)[key] else NULL
      ensures arraysize == if key in old(m) then AfterRemove(old(arraysize), |m|) else old(arraysize)
    {
      var found;
      found, val := TakeOut(key);
      if !found { return; }
      var may := MayShrink(size, arraysize);
      if may {
        ShrinkLaw(arraysize, |m|);
        Shrink();
      }
    }

    ghost function Seen(): State
      reads this
    {
      State(m, arraysize)
    }

    method Serve(r: Request) returns (val: Val)
      requires Valid() && (r.Adding? ==> arraysize < MAX_SLOTS)
      modifies this, vals, vals.chains
      ensures Valid() && Own() && Seen() == After(old(Seen()), r) && val == Reply(old(Seen()), r)
    {
      val := NULL;
      match r {
        case Adding(k, v) => Add(k, v, 1);
        case Finding(k) => val := Find(k);
        case Removing(k) =>
          Cardinality(m, k);
          assert k !in m ==> m - {k} == m;
          val := Remove(k);
      }
    }
  }

  /** Any sequence of requests on a new table: the answers of a map, the slots of the
      capacity law. */
  method Run(rs: seq<Request>) returns (vals: seq<Val>, h: Table)
    requires Roomy(State(map[], MIN_SIZE), rs, MAX_SLOTS)
    ensures h.Valid() && h.Seen() == AfterAll(State(map[], MIN_SIZE), rs) && Answers(State(map[], MIN_SIZE), rs, vals)
  {
    h := new Table();
    vals := [];
    ghost var s := State(map[], MIN_SIZE);
    for i := 0 to |rs|
      invariant h.Valid() && fresh(h) && fresh(h.vals) && fresh(h.vals.chains)
      invariant h.Seen() == AfterAll(s, rs[..i]) && Answers(s, rs[..i], vals)
    {
      OneMore(s, rs[..i], vals, rs[i]);
      assert rs[..i + 1] == rs[..i] + [rs[i]];
      var v := h.Serve(rs[i]);
      vals := vals + [v];
    }
    assert rs[..|rs|] == rs;
  }
}
