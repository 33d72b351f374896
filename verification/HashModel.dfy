/**
  The hash table's chains as values: which sequences of chains stand for which finite
  map, and what adding, dropping and moving one pair does to both.
*/
module HashModel {
  import opened Basics

  /** A key is a C string (its characters, none of them 0) and a length to hash. Equal
      keys have equal strings and equal lengths. */
  datatype CString = CString(chars: seq<int>, len: nat)

  type Key = k: CString | k.len <= |k.chars| && forall i | 0 <= i < |k.chars| ::
      -128 <= k.chars[i] < 128 && k.chars[i] != 0
    witness CString([], 0)

  type Val = nat
  const NULL: Val := 0

  datatype Pair = Pair(key: Key, val: Val)

  type Chain = seq<Pair>
  type Table = seq<Chain>

  // --------------------------------------------------------------------------- hash

  /** djb2 over the integers. */
  function Djb2(s: seq<int>): int { if s == [] then 5381 else 33 * Djb2(s[..|s| - 1]) + s[|s| - 1] }

  function Hash(k: Key): nat { U32(Djb2(k.chars[..k.len])) }

  function Slot(k: Key, n: nat): (i: nat)
    requires n > 0
    ensures i < n
  {
    Hash(k) % n
  }

  // -------------------------------------------------------------------- chain and map

  predicate Fits(p: Pair, i: nat, n: nat, m: map<Key, Val>)
    requires n > 0
  {
    Slot(p.key, n) == i && p.key in m && m[p.key] == p.val
  }

  predicate Once(c: Chain) { forall i, j | 0 <= i < j < |c| :: c[i].key != c[j].key }

  predicate ChainOk(c: Chain, i: nat, n: nat, m: map<Key, Val>)
    requires n > 0
  {
    Once(c) && forall j | 0 <= j < |c| :: Fits(c[j], i, n, m)
  }

  /** The index of a key in a chain, or the chain's length. */
  function Find(c: Chain, k: Key): (i: nat)
    ensures i <= |c| && (i < |c| ==> c[i].key == k)
    ensures forall j | 0 <= j < i :: c[j].key != k
  {
    if c == [] || c[0].key == k then 0 else 1 + Find(c[1..], k)
  }

  predicate Has(c: Chain, k: Key) { Find(c, k) < |c| }

  predicate Present(t: Table, k: Key)
    requires |t| > 0
  {
    Has(t[Slot(k, |t|)], k)
  }

  /** Every pair sits once, in the chain of its hash, and the pairs are the map. */
  ghost predicate Refines(t: Table, m: map<Key, Val>) {
    && |t| > 0
    && (forall i {:trigger ChainOk(t[i], i, |t|, m)} | 0 <= i < |t| :: ChainOk(t[i], i, |t|, m))
    && (forall k {:trigger Present(t, k)} | k in m :: Present(t, k))
  }

  function Empty(n: nat): (t: Table)
    ensures |t| == n && forall i | 0 <= i < n :: t[i] == []
  {
    seq(n, _ => [])
  }

  lemma EmptyRefines(n: nat)
    requires n > 0
    ensures Refines(Empty(n), map[])
  {
  }

  function Dropped(c: Chain, k: Key): Chain {
    var i := Find(c, k);
    if i < |c| then c[..i] + c[i + 1..] else c
  }

  lemma FindUnique(c: Chain, k: Key, j: nat)
    requires j < |c| && c[j].key == k && Once(c)
    ensures Find(c, k) == j
  {
    var i := Find(c, k);
    assert i <= j && c[i].key == k;
  }

  /** What a chain answers for a key is what the map answers. */
  lemma Answer(t: Table, m: map<Key, Val>, k: Key)
    requires Refines(t, m)
    ensures var c := t[Slot(k, |t|)]; (k in m <==> Has(c, k)) && (k in m ==> c[Find(c, k)] == Pair(k, m[k]))
  {
    var c := t[Slot(k, |t|)];
    assert ChainOk(c, Slot(k, |t|), |t|, m) && (k in m ==> Present(t, k));
    if Has(c, k) { assert Fits(c[Find(c, k)], Slot(k, |t|), |t|, m); }
  }

  lemma ChainMap(c: Chain, i: nat, n: nat, m: map<Key, Val>, m': map<Key, Val>)
    requires n > 0 && ChainOk(c, i, n, m)
    requires forall j | 0 <= j < |c| :: c[j].key in m' && m'[c[j].key] == m[c[j].key]
    ensures ChainOk(c, i, n, m')
  {
    forall j | 0 <= j < |c| ensures Fits(c[j], i, n, m') { assert Fits(c[j], i, n, m); }
  }

  // ------------------------------------------------------------------------- one pair

  lemma DroppedChain(c: Chain, k: Key, k1: Key)
    requires Once(c)
    ensures Once(Dropped(c, k)) && Has(Dropped(c, k), k1) == (Has(c, k1) && k1 != k)
    ensures forall j | 0 <= j < |Dropped(c, k)| :: Dropped(c, k)[j] in c && Dropped(c, k)[j].key != k
  {
    var i, d := Find(c, k), Dropped(c, k);
    forall j | 0 <= j < |d| ensures d[j] in c && d[j].key != k {
      assert i < |c| ==> d[j] == (if j < i then c[j] else c[j + 1]);
    }
    var f := Find(c, k1);
    if f < |c| && k1 != k {
      assert d[if f < i then f else f - 1] == c[f];
      FindUnique(d, k1, if f < i then f else f - 1);
    }
  }

  lemma DropFits(c: Chain, i: nat, n: nat, m: map<Key, Val>, k: Key)
    requires n > 0 && ChainOk(c, i, n, m)
    ensures ChainOk(Dropped(c, k), i, n, m - {k})
  {
    var d := Dropped(c, k);
    DroppedChain(c, k, k);
    forall j | 0 <= j < |d| ensures Fits(d[j], i, n, m - {k}) {
      assert d[j] in c;
      var x :| 0 <= x < |c| && c[x] == d[j];
      assert Fits(c[x], i, n, m);
    }
  }

  /** Dropping a key from its chain is removing it from the map. */
  lemma Drop(t: Table, m: map<Key, Val>, k: Key, t': Table, m': map<Key, Val>)
    requires Refines(t, m) && t' == t[Slot(k, |t|) := Dropped(t[Slot(k, |t|)], k)] && m' == m - {k}
    ensures Refines(t', m')
  {
    var s := Slot(k, |t|);
    forall i | 0 <= i < |t'| ensures ChainOk(t'[i], i, |t'|, m') {
      assert ChainOk(t[i], i, |t|, m);
      if i == s {
        DropFits(t[s], s, |t|, m, k);
      } else {
        forall j | 0 <= j < |t[i]|
          ensures t[i][j].key in m' && m'[t[i][j].key] == m[t[i][j].key]
        {
          assert Fits(t[i][j], i, |t|, m);
        }
        ChainMap(t[i], i, |t|, m, m');
      }
    }
    forall k1 | k1 in m' ensures Present(t', k1) {
      assert ChainOk(t[s], s, |t|, m) && Present(t, k1);
      DroppedChain(t[s], k, k1);
    }
  }

  lemma HasAppended(c: Chain, p: Pair, k: Key)
    ensures Has(c + [p], k) == (Has(c, k) || p.key == k)
  {
    var f := Find(c + [p], k);
    if f < |c| { assert c[f].key == k; }
    if Find(c, k) < |c| { assert (c + [p])[Find(c, k)].key == k; }
    assert (c + [p])[|c|] == p;
  }

  /** Appending a new key to its chain is adding it to the map. */
  lemma Append(t: Table, m: map<Key, Val>, k: Key, v: Val, t': Table, m': map<Key, Val>)
    requires Refines(t, m) && k !in m && t' == t[Slot(k, |t|) := t[Slot(k, |t|)] + [Pair(k, v)]] && m' == m[k := v]
    ensures Refines(t', m')
  {
    var s, p := Slot(k, |t|), Pair(k, v);
    forall i | 0 <= i < |t'| ensures ChainOk(t'[i], i, |t'|, m') {
      assert ChainOk(t[i], i, |t|, m);
      forall j | 0 <= j < |t[i]| ensures t[i][j].key in m' && m'[t[i][j].key] == m[t[i][j].key] && t[i][j].key != k {
        assert Fits(t[i][j], i, |t|, m);
      }
      ChainMap(t[i], i, |t|, m, m');
      if i == s {
        forall j | 0 <= j < |t'[i]| ensures Fits(t'[i][j], i, |t|, m') {
          if j < |t[i]| { assert Fits(t[i][j], i, |t|, m'); }
        }
      }
    }
    forall k1 | k1 in m' ensures Present(t', k1) {
      HasAppended(t[s], p, k1);
      if k1 != k { assert Present(t, k1); }
    }
  }

  /** Replacing a key: out of its chain, then at the end of it. */
  lemma Put(t: Table, m: map<Key, Val>, k: Key, v: Val, t': Table)
    requires Refines(t, m) && t' == t[Slot(k, |t|) := Dropped(t[Slot(k, |t|)], k) + [Pair(k, v)]]
    ensures Refines(t', m[k := v])
  {
    var s := Slot(k, |t|);
    var t1 := t[s := Dropped(t[s], k)];
    Drop(t, m, k, t1, m - {k});
    assert (m - {k})[k := v] == m[k := v];
    assert t1[s := t1[s] + [Pair(k, v)]] == t';
    Append(t1, m - {k}, k, v, t', m[k := v]);
  }

  /** Nothing in the chains, nothing in the map. */
  lemma NothingLeft(t: Table, m: map<Key, Val>)
    requires Refines(t, m) && forall i | 0 <= i < |t| :: t[i] == []
    ensures m == map[]
  {
    forall k: Key ensures k !in m { assert !Present(t, k); }
  }

  /** The first pair of a chain, taken out. */
  lemma TakeFirst(t: Table, m: map<Key, Val>, i: nat, t': Table)
    requires Refines(t, m) && i < |t| && t[i] != [] && t' == t[i := t[i][1..]]
    ensures var p := t[i][0]; p.key in m && m[p.key] == p.val && Refines(t', m - {p.key})
  {
    var p := t[i][0];
    assert ChainOk(t[i], i, |t|, m) && Fits(p, i, |t|, m);
    assert Find(t[i], p.key) == 0;
    assert t[i][..0] + t[i][0 + 1..] == t[i][1..];
    Drop(t, m, p.key, t', m - {p.key});
  }

  /** list_remove on a key's chain. */
  lemma Removal(t: Table, m: map<Key, Val>, k: Key, s: nat, t': Table, m': map<Key, Val>)
    requires Refines(t, m) && s == Slot(k, |t|) && t' == t[s := Dropped(t[s], k)] && m' == m - {k}
    ensures Refines(t', m') && |t'| == |t| && Has(t[s], k) == (k in m) && (k in m ==> t[s][Find(t[s], k)].val == m[k])
    ensures |m'| == if k in m then |m| - 1 else |m|
  {
    Answer(t, m, k);
    Cardinality(m, k);
    Drop(t, m, k, t', m');
  }

  lemma SetTwice(t: Table, i: nat, a: Chain, b: Chain)
    requires i < |t|
    ensures t[i := a][i := b] == t[i := b] && t[i := t[i]] == t
  {
  }

  lemma Cardinality(m: map<Key, Val>, k: Key)
    ensures |m - {k}| == if k in m then |m| - 1 else |m|
  {
    assert (m - {k}).Keys == m.Keys - {k};
    if k !in m { assert m.Keys - {k} == m.Keys; }
  }

  /** Two disjoint parts of a map. */
  ghost predicate Split(m: map<Key, Val>, rest: map<Key, Val>, all: map<Key, Val>) {
    m.Keys !! rest.Keys && m + rest == all && |m| + |rest| == |all|
  }

  lemma SplitMove(m: map<Key, Val>, rest: map<Key, Val>, all: map<Key, Val>, p: Pair)
    requires Split(m, rest, all) && p.key in rest && rest[p.key] == p.val
    ensures Split(m[p.key := p.val], rest - {p.key}, all) && |m[p.key := p.val]| == |m| + 1 <= |all|
  {
    Cardinality(rest, p.key);
  }

  lemma SplitEnds(t: Table, m: map<Key, Val>, rest: map<Key, Val>, all: map<Key, Val>)
    requires Split(m, rest, all) && Refines(t, rest) && Drained(t, |t|)
    ensures m == all
  {
    NothingLeft(t, rest);
    assert m + rest == m;
  }

  lemma SplitStarts(all: map<Key, Val>)
    ensures Split(map[], all, all)
  {
    assert map[] + all == all;
  }

  ghost predicate Drained(t: Table, i: nat)
    requires i <= |t|
  {
    forall j | 0 <= j < i :: t[j] == []
  }

  lemma DrainedNext(t: Table, i: nat, t': Table)
    requires i < |t| && Drained(t, i) && t' == t[i := []]
    ensures Drained(t', i + 1)
  {
  }

  // -------------------------------------------------------------------------- capacity

  const MIN_SIZE: nat := 8

  /** MIN_SIZE times a power of two. */
  predicate Capacity(a: nat) { a == MIN_SIZE || (a > MIN_SIZE && a % 2 == 0 && Capacity(a / 2)) }

  lemma CapacityScales(a: nat)
    requires Capacity(a)
    ensures Capacity(2 * a) && a % 2 == 0 && a >= MIN_SIZE && (a > MIN_SIZE ==> Capacity(a / 2) && a / 2 >= MIN_SIZE)
  {
    assert 2 * a / 2 == a;
  }

  function Pow2(n: nat): nat { if n == 0 then 1 else 2 * Pow2(n - 1) }

  lemma {:induction false} CapacityPower(a: nat) returns (n: nat)
    requires Capacity(a)
    ensures a == MIN_SIZE * Pow2(n)
  {
    if a == MIN_SIZE {
      n := 0;
    } else {
      n := CapacityPower(a / 2);
      n := n + 1;
    }
  }

  /** Slots of a table of `a` that is given one more item than its `size`. */
  function Roomier(a: nat, size: nat): nat { if 2 * (size + 1) > a then 2 * a else a }

  /** Slots after `n` items went one by one into an empty table of `a`. */
  function Refilled(a: nat, n: nat): nat { if 2 * n > a then 2 * a else a }

  /** Room for a rehash of `n` items into `a` slots: at level 0 without growing. */
  predicate Enough(level: nat, n: nat, a: nat, max: nat) { if level == 0 then 2 * n <= a else n <= a < max }

  lemma RoomFor(level: nat, n: nat, slots: nat, max: nat, size: nat)
    requires Enough(level, n, slots, max) && size + 1 <= n
    ensures var a := Refilled(slots, size);
            (2 * (size + 1) > a ==> level > 0 && a < max) && Roomier(a, size) == Refilled(slots, size + 1)
  {
  }

  /** Slots after a remove that found its key and left `n` items. */
  function AfterRemove(a: nat, n: nat): nat { if a > MIN_SIZE && n >= 1 && 4 * n <= a then a / 2 else a }

  /** Halving and growing back at need comes to the capacity law. */
  lemma ShrinkLaw(a: nat, n: nat)
    requires Capacity(a) && a > MIN_SIZE && 1 <= n && 2 * n <= a
    ensures Refilled(a / 2, n) == AfterRemove(a, n)
  {
  }

  // ------------------------------------------------------------- a table as a map

  datatype Request = Adding(key: Key, val: Val) | Finding(key: Key) | Removing(key: Key)

  /** A map and the number of slots: all that a caller can see of a table. */
  datatype State = State(m: map<Key, Val>, slots: nat)

  function After(s: State, r: Request): State {
    match r
    case Adding(k, v) => State(s.m[k := v], Roomier(s.slots, |s.m|))
    case Finding(_) => s
    case Removing(k) => if k in s.m then State(s.m - {k}, AfterRemove(s.slots, |s.m| - 1)) else s
  }

  function Reply(s: State, r: Request): Val {
    if !r.Adding? && r.key in s.m then s.m[r.key] else NULL
  }

  function AfterAll(s: State, rs: seq<Request>): State {
    if rs == [] then s else After(AfterAll(s, rs[..|rs| - 1]), rs[|rs| - 1])
  }

  /** The table never has to grow beyond what memory can hold. */
  predicate Roomy(s: State, rs: seq<Request>, max: nat) {
    forall i | 0 <= i < |rs| && rs[i].Adding? :: AfterAll(s, rs[..i]).slots < max
  }

  /** The answers to some requests, in order. */
  ghost predicate Answers(s: State, rs: seq<Request>, vals: seq<Val>) {
    |vals| == |rs| && forall i | 0 <= i < |rs| :: vals[i] == Reply(AfterAll(s, rs[..i]), rs[i])
  }

  lemma OneMore(s: State, rs: seq<Request>, vals: seq<Val>, r: Request)
    requires Answers(s, rs, vals)
    ensures Answers(s, rs + [r], vals + [Reply(AfterAll(s, rs), r)])
    ensures AfterAll(s, rs + [r]) == After(AfterAll(s, rs), r)
  {
    assert (rs + [r])[..|rs|] == rs;
    forall i | 0 <= i < |rs| ensures (rs + [r])[..i] == rs[..i] {}
  }
}
