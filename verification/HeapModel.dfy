/**
 The kernel heap as a sequence of 4-byte words (mem/mm.c).

 An address is its word offset from mem_heap_lo(). Offset 0 is the word that
 holds FREE_LIST_HEAD, so no block starts there and 0 also stands for NULL.

 `blocks` is the set of offsets where a block starts, `epi` the offset of the
 epilogue word, `list` the free list in the order FREE_LIST_HEAD reaches it.
 */
module HeapModel {

  /** A word split at its two low bits: the value 4 * units + 2 * prev + used.
      In a header or footer, `units` is the block size in words and the bits are
      PREV_BLOCK_USED and BLOCK_USED; in a link, `units` is a word offset. */
  datatype Word = Word(units: nat, prev: bool, used: bool)

  function Link(offset: nat): Word { Word(offset, false, false) }

  const NULL: nat := 0
  const MIN_BLOCK: nat := 4 // MIN_BLOCK_SIZE: a struct block and a footer word

  type Mem = seq<Word>

  function Next(m: Mem, b: nat): nat
    requires b < |m|
  {
    b + m[b].units
  }

  // ---------------------------------------------------------------- invariant

  /** The blocks tile the words from 1 up to the epilogue, without overlap. */
  ghost predicate Tiled(m: Mem, blocks: set<nat>, epi: nat)
  {
    && 1 < epi < |m|
    && 1 in blocks
    && (forall b | b in blocks :: 1 <= b < epi && m[b].units >= MIN_BLOCK)
    && (forall b {:trigger Next(m, b)} | b in blocks :: Next(m, b) in blocks || Next(m, b) == epi)
    && (forall b, c {:trigger Next(m, b), c in blocks} | b in blocks && c in blocks && b < c :: Next(m, b) <= c)
    && m[epi].units == 0 && m[epi].used
  }

  /** The boundary tags at the end of block b: its successor's PREV bit is b's
      used bit, and a free b ends in a footer that carries its size. */
  ghost predicate TailTags(m: Mem, b: nat)
    requires b < |m|
  {
    && Next(m, b) < |m|
    && m[Next(m, b)].prev == m[b].used
    && (!m[b].used ==> Next(m, b) >= 1 && m[Next(m, b) - 1].units == m[b].units)
  }

  ghost predicate Tagged(m: Mem, blocks: set<nat>, epi: nat)
    requires Tiled(m, blocks, epi)
  {
    m[1].prev && forall b {:trigger TailTags(m, b)} | b in blocks :: TailTags(m, b)
  }

  /** No free block is followed by a free block. */
  ghost predicate Coalesced(m: Mem, blocks: set<nat>, epi: nat)
    requires Tiled(m, blocks, epi)
  {
    forall b {:trigger Next(m, b)} | b in blocks && !m[b].used :: m[Next(m, b)].used
  }

  /** `list` holds distinct blocks whose four-word prefixes do not overlap. */
  ghost predicate Spaced(list: seq<nat>)
  {
    && (forall i | 0 <= i < |list| :: 1 <= list[i])
    && (forall i, j {:trigger Apart(list[i], list[j])} | 0 <= i < |list| && 0 <= j < |list| && i != j ::
        Apart(list[i], list[j]))
  }

  ghost predicate Apart(x: nat, y: nat) { x + 4 <= y || y + 4 <= x }

  /** FREE_LIST_HEAD, the next links and, away from the head, the prev links
      spell out `list`. The head's own prev link means nothing. */
  ghost predicate Linked(m: Mem, list: seq<nat>)
  {
    && |m| > 0
    && m[0] == Link(if list == [] then NULL else list[0])
    && forall i {:trigger NodeLinks(m, list, i)} | 0 <= i < |list| :: NodeLinks(m, list, i)
  }

  ghost predicate NodeLinks(m: Mem, list: seq<nat>, i: nat)
    requires i < |list|
  {
    && list[i] + 3 < |m|
    && m[list[i] + 1] == Link(if i + 1 < |list| then list[i + 1] else NULL)
    && (i > 0 ==> m[list[i] + 2] == Link(list[i - 1]))
  }

  /** `list` is exactly the free blocks, except those in [lo, hi) other than x. */
  ghost predicate ListsFree(m: Mem, blocks: set<nat>, list: seq<nat>, lo: nat, x: nat, hi: nat)
    requires forall b | b in blocks :: b < |m|
  {
    forall b :: b in list <==> b in blocks && !m[b].used && !(lo <= b < hi && b != x)
  }

  /** The whole-heap invariant. */
  ghost predicate WellFormed(m: Mem, blocks: set<nat>, list: seq<nat>, epi: nat)
  {
    && Tiled(m, blocks, epi)
    && Tagged(m, blocks, epi)
    && Coalesced(m, blocks, epi)
    && Spaced(list)
    && Linked(m, list)
    && ListsFree(m, blocks, list, 0, 0, 0)
  }

  /** As WellFormed, but free neighbours are still allowed on both sides of x. */
  ghost predicate FormedAround(m: Mem, blocks: set<nat>, list: seq<nat>, epi: nat, x: nat)
  {
    && Tiled(m, blocks, epi)
    && Tagged(m, blocks, epi)
    && (forall b {:trigger Next(m, b)} | b in blocks && !m[b].used && b != x && Next(m, b) != x :: m[Next(m, b)].used)
    && Spaced(list)
    && Linked(m, list)
    && ListsFree(m, blocks, list, 0, 0, 0)
  }

  // ------------------------------------------------------------------- frames

  /** Block b keeps its size, its used bit and every word of its payload. */
  ghost predicate SamePayload(m: Mem, m': Mem, b: nat)
  {
    && b < |m| <= |m'| && Next(m, b) <= |m|
    && m'[b].units == m[b].units && m'[b].used == m[b].used
    && forall i | b < i < Next(m, b) :: m'[i] == m[i]
  }

  /** Every used block of `blocks` keeps its payload. */
  ghost predicate LiveKept(m: Mem, m': Mem, blocks: set<nat>)
    requires forall b | b in blocks :: b < |m|
  {
    forall b {:trigger SamePayload(m, m', b)} | b in blocks && m[b].used :: SamePayload(m, m', b)
  }

  /** The used blocks: what kmalloc has handed out and kfree has not taken back. */
  ghost function Live(m: Mem, blocks: set<nat>): set<nat>
    requires forall b | b in blocks :: b < |m|
  {
    set b | b in blocks && m[b].used
  }

  // -------------------------------------------------- the free list operations

  function Insert(m: Mem, b: nat): (r: Mem)
    requires 1 <= b && b + 3 < |m| && m[0].units + 3 < |m|
    ensures |r| == |m|
  {
    var oldHead := m[0].units;
    var m1 := m[b + 1 := Link(oldHead)];
    var m2 := if oldHead != NULL then m1[oldHead + 2 := Link(b)] else m1;
    m2[0 := Link(b)]
  }

  function Remove(m: Mem, b: nat): (r: Mem)
    requires 1 <= b && b + 3 < |m|
    requires m[b + 1].units + 3 < |m| && (b != m[0].units ==> m[b + 2].units + 3 < |m|)
    ensures |r| == |m|
  {
    var next := m[b + 1].units;
    var prev := m[b + 2].units;
    var m1 := if next != NULL then m[next + 2 := Link(prev)] else m;
    if b == m[0].units then m1[0 := Link(next)] else m1[prev + 1 := Link(next)]
  }

  /** Outside word 0 and the link words of the blocks in `list`, m and m' agree. */
  ghost predicate LinksOnly(m: Mem, m': Mem, list: seq<nat>)
  {
    && |m| == |m'|
    && forall i | 0 < i < |m| && i - 1 !in list && i - 2 !in list :: m'[i] == m[i]
  }

  lemma InsertLinks(m: Mem, list: seq<nat>, b: nat)
    requires Linked(m, list) && Spaced([b] + list) && b + 3 < |m|
    ensures 1 <= b && m[0].units + 3 < |m|
    ensures Linked(Insert(m, b), [b] + list)
    ensures LinksOnly(m, Insert(m, b), [b] + list)
  {
    var list' := [b] + list;
    assert list'[0] == b;
    if list != [] { assert NodeLinks(m, list, 0); assert list'[1] == list[0]; assert Apart(list'[0], list'[1]); }
    var m' := Insert(m, b);
    forall i | 0 <= i < |list'| ensures NodeLinks(m', list', i) {
      if i > 0 {
        assert NodeLinks(m, list, i - 1) && list'[i] == list[i - 1];
        assert Apart(list'[0], list'[i]);
        if i > 1 { assert list'[i - 1] == list[i - 2]; assert Apart(list'[1], list'[i]); }
      }
    }
    forall i | 0 < i < |m| && i - 1 !in list' && i - 2 !in list' ensures m'[i] == m[i] {
    }
  }

  function Without(list: seq<nat>, k: nat): (r: seq<nat>)
    requires k < |list|
    ensures |r| == |list| - 1
    ensures forall i | 0 <= i < |r| :: r[i] == list[if i < k then i else i + 1]
  {
    list[..k] + list[k + 1..]
  }

  lemma WithoutSpaced(list: seq<nat>, k: nat)
    requires Spaced(list) && k < |list|
    ensures Spaced(Without(list, k))
    ensures forall x :: x in Without(list, k) <==> x in list && x != list[k]
  {
    var list' := Without(list, k);
    forall i, j | 0 <= i < |list'| && 0 <= j < |list'| && i != j ensures Apart(list'[i], list'[j]) {
      assert Apart(list[if i < k then i else i + 1], list[if j < k then j else j + 1]);
    }
    forall x | x in list && x != list[k] ensures x in list' {
      var j :| 0 <= j < |list| && list[j] == x;
      assert list'[if j < k then j else j - 1] == x;
    }
    forall x | x in list' ensures x != list[k] {
      var i :| 0 <= i < |list'| && list'[i] == x;
      assert Apart(list[if i < k then i else i + 1], list[k]);
    }
  }

  lemma RemoveBounds(m: Mem, list: seq<nat>, k: nat)
    requires Linked(m, list) && Spaced(list) && k < |list|
    ensures var b := list[k];
      && 1 <= b && b + 3 < |m|
      && m[b + 1] == Link(if k + 1 < |list| then list[k + 1] else NULL) && m[b + 1].units + 3 < |m|
      && (b == m[0].units <==> k == 0)
      && (k > 0 ==> m[b + 2] == Link(list[k - 1]) && m[b + 2].units + 3 < |m|)
  {
    assert NodeLinks(m, list, k);
    if k + 1 < |list| { assert NodeLinks(m, list, k + 1); }
    if k > 0 { assert NodeLinks(m, list, k - 1); assert Apart(list[0], list[k]); }
  }

  /** Link word off of node list[j], before and after removing list[k]. */
  lemma RemoveWord(m: Mem, list: seq<nat>, k: nat, j: nat, off: nat)
    requires Linked(m, list) && Spaced(list) && k < |list| && j < |list| && j != k && 1 <= off <= 2
    requires 1 <= list[k] && list[k] + 3 < |m| && list[j] + 2 < |m|
    requires m[list[k] + 1].units + 3 < |m| && (list[k] != m[0].units ==> m[list[k] + 2].units + 3 < |m|)
    ensures Remove(m, list[k])[list[j] + off] ==
      if off == 1 && j + 1 == k then m[list[k] + 1] else if off == 2 && j == k + 1 then Link(m[list[k] + 2].units)
          else m[list[j] + off]
  {
    RemoveBounds(m, list, k);
    var x := list[j];
    if k > 0 && j != k - 1 { assert Apart(list[k - 1], x); }
    if k + 1 < |list| && j != k + 1 { assert Apart(list[k + 1], x); }
  }

  lemma RemoveNode(m: Mem, list: seq<nat>, k: nat, i: nat)
    requires Linked(m, list) && Spaced(list) && k < |list| && i < |list| - 1
    requires 1 <= list[k] && list[k] + 3 < |m|
    requires m[list[k] + 1].units + 3 < |m| && (list[k] != m[0].units ==> m[list[k] + 2].units + 3 < |m|)
    ensures NodeLinks(Remove(m, list[k]), Without(list, k), i)
  {
    var j := if i < k then i else i + 1;
    assert NodeLinks(m, list, j) && NodeLinks(m, list, k);
    RemoveWord(m, list, k, j, 1);
    RemoveWord(m, list, k, j, 2);
  }

  lemma RemoveLinks(m: Mem, list: seq<nat>, k: nat)
    requires Linked(m, list) && Spaced(list) && k < |list|
    ensures 1 <= list[k] && list[k] + 3 < |m|
    ensures m[list[k] + 1].units + 3 < |m| && (list[k] != m[0].units ==> m[list[k] + 2].units + 3 < |m|)
    ensures Linked(Remove(m, list[k]), Without(list, k))
    ensures LinksOnly(m, Remove(m, list[k]), list)
  {
    RemoveBounds(m, list, k);
    forall i | 0 <= i < |list| - 1 ensures NodeLinks(Remove(m, list[k]), Without(list, k), i) {
      RemoveNode(m, list, k, i);
    }
    if k > 0 { assert list[k - 1] in list; }
    if k + 1 < |list| { assert list[k + 1] in list; }
  }

  // ------------------------------------------------------------ tiling lemmas

  lemma SpacedBlocks(m: Mem, blocks: set<nat>, epi: nat, list: seq<nat>, x: nat)
    requires Tiled(m, blocks, epi) && Spaced(list)
    requires x in blocks && x !in list && forall y | y in list :: y in blocks
    ensures Spaced([x] + list)
  {
    var list' := [x] + list;
    forall i, j | 0 <= i < |list'| && 0 <= j < |list'| && i != j ensures Apart(list'[i], list'[j]) {
      if i > 0 && j > 0 {
        assert Apart(list[i - 1], list[j - 1]);
      } else {
        var y := if i == 0 then list[j - 1] else list[i - 1];
        assert y in list && y != x;
        assert Next(m, x) <= y || Next(m, y) <= x;
      }
    }
  }

  lemma EndsBy(m: Mem, blocks: set<nat>, epi: nat, b: nat, e: nat)
    requires Tiled(m, blocks, epi) && b in blocks && (e in blocks || e == epi) && b < e
    ensures b + MIN_BLOCK <= Next(m, b) <= e
  {
    assert Next(m, b) in blocks || Next(m, b) == epi;
  }

  /** Every block but the first, and the epilogue, has a predecessor. */
  lemma Predecessor(m: Mem, blocks: set<nat>, epi: nat, c: nat, from: nat) returns (p: nat)
    requires Tiled(m, blocks, epi)
    requires (c in blocks || c == epi) && from in blocks && from < c
    ensures p in blocks && Next(m, p) == c
    decreases c - from
  {
    assert Next(m, from) <= c;
    if Next(m, from) == c {
      p := from;
    } else {
      p := Predecessor(m, blocks, epi, c, Next(m, from));
    }
  }

  /** Rewriting link words of listed free blocks disturbs no block. */
  lemma LinksKeep(m: Mem, m': Mem, blocks: set<nat>, epi: nat, list: seq<nat>)
    requires Tiled(m, blocks, epi) && Tagged(m, blocks, epi) && LinksOnly(m, m', list)
    requires forall y | y in list :: y in blocks && !m[y].used
    ensures Tiled(m', blocks, epi) && Tagged(m', blocks, epi)
    ensures m'[epi] == m[epi] && forall b | b in blocks :: m'[b] == m[b]
    ensures LiveKept(m, m', blocks)
  {
    forall b | b in blocks ensures m'[b] == m[b] { LinksMiss(m, blocks, epi, list, b, b); }
    forall y | y in list ensures y != epi - 1 && y != epi - 2 { EndsBy(m, blocks, epi, y, epi); }
    TiledSame(m, m', blocks, epi);
    forall b | b in blocks ensures TailTags(m', b) {
      assert TailTags(m, b);
      if !m[b].used { LinksMiss(m, blocks, epi, list, b, Next(m, b) - 1); }
    }
    forall b | b in blocks && m[b].used ensures SamePayload(m, m', b) {
      assert Next(m, b) <= epi;
      forall i | b < i < Next(m, b) ensures m'[i] == m[i] { LinksMiss(m, blocks, epi, list, b, i); }
    }
  }

  /** Word i of block b is no link word, if it is b's header, b is used or i is b's footer. */
  lemma LinksMiss(m: Mem, blocks: set<nat>, epi: nat, list: seq<nat>, b: nat, i: nat)
    requires Tiled(m, blocks, epi) && b in blocks && b <= i < Next(m, b)
    requires forall y | y in list :: y in blocks && !m[y].used
    requires i == b || m[b].used || i == Next(m, b) - 1
    ensures i - 1 !in list && i - 2 !in list
  {
    forall y | y in list ensures y != i - 1 && y != i - 2 {
      if y < b { assert Next(m, y) <= b; } else if b < y { assert Next(m, b) <= y; }
    }
  }

  /** The blocks that are left when everything inside (c, e) is merged into c. */
  ghost function Merged(blocks: set<nat>, c: nat, e: nat): set<nat> {
    set b | b in blocks && !(c < b < e)
  }

  lemma MergeTiled(m: Mem, blocks: set<nat>, epi: nat, c: nat, e: nat)
    requires Tiled(m, blocks, epi) && Tagged(m, blocks, epi)
    requires c in blocks && (e in blocks || e == epi) && c < e
    requires m[c].prev && !m[e].prev
    ensures var w := Word(e - c, true, false);
      Tiled(m[c := w][e - 1 := w], Merged(blocks, c, e), epi)
  {
    var w := Word(e - c, true, false);
    var m' := m[c := w][e - 1 := w];
    var blocks' := Merged(blocks, c, e);
    forall b | b in blocks && b < e ensures b + MIN_BLOCK <= e { EndsBy(m, blocks, epi, b, e); }
    forall b | b in blocks && b != c ensures m'[b] == m[b] {}
    forall b | b in blocks' ensures Next(m', b) in blocks' || Next(m', b) == epi {
      if b != c { assert Next(m', b) == Next(m, b); }
    }
    forall b, d | b in blocks' && d in blocks' && b < d ensures Next(m', b) <= d {
      if b != c { assert Next(m', b) == Next(m, b); }
    }
  }

  lemma MergeTagged(m: Mem, blocks: set<nat>, epi: nat, c: nat, e: nat)
    requires Tiled(m, blocks, epi) && Tagged(m, blocks, epi)
    requires c in blocks && (e in blocks || e == epi) && c < e
    requires m[c].prev && !m[e].prev
    requires var w := Word(e - c, true, false);
      Tiled(m[c := w][e - 1 := w], Merged(blocks, c, e), epi)
    ensures var w := Word(e - c, true, false);
      Tagged(m[c := w][e - 1 := w], Merged(blocks, c, e), epi)
  {
    var w := Word(e - c, true, false);
    var m' := m[c := w][e - 1 := w];
    var blocks' := Merged(blocks, c, e);
    forall b | b in blocks && b < e ensures b + MIN_BLOCK <= e { EndsBy(m, blocks, epi, b, e); }
    forall b | b in blocks' ensures TailTags(m', b) {
      if b != c {
        assert TailTags(m, b);
        assert Next(m', b) == Next(m, b);
        if b < c { assert Next(m, b) <= c; } else { assert e <= b; }
      } else {
        assert m'[e] == m[e];
      }
    }
  }

  // -------------------------------------------- states inside one operation

  /** Block x has just been given a free header. Its footer, its successor's PREV
      bit and its list entry are still to be written. */
  ghost predicate Releasing(m: Mem, blocks: set<nat>, list: seq<nat>, epi: nat, x: nat)
  {
    && Tiled(m, blocks, epi) && x in blocks && !m[x].used && m[1].prev
    && (forall b {:trigger TailTags(m, b)} | b in blocks && b != x :: TailTags(m, b))
    && (forall b {:trigger Next(m, b)} | b in blocks && !m[b].used && b != x && Next(m, b) != x :: m[Next(m, b)].used)
    && Spaced(list) && Linked(m, list)
    && (forall b :: b in list <==> b in blocks && !m[b].used && b != x)
  }

  /** Block b has just been given a used header. Its successor's PREV bit is
      still to be written. */
  ghost predicate Claiming(m: Mem, blocks: set<nat>, list: seq<nat>, epi: nat, b: nat)
  {
    && Tiled(m, blocks, epi) && b in blocks && m[b].used && m[1].prev
    && (forall y {:trigger TailTags(m, y)} | y in blocks && y != b :: TailTags(m, y))
    && Coalesced(m, blocks, epi)
    && Spaced(list) && Linked(m, list)
    && ListsFree(m, blocks, list, 0, 0, 0)
  }

  lemma LinkedFrame(m: Mem, m': Mem, list: seq<nat>)
    requires Linked(m, list) && |m| <= |m'| && m'[0] == m[0]
    requires forall i | 0 <= i < |list| :: list[i] + 2 < |m| ==>
        m'[list[i] + 1] == m[list[i] + 1] && m'[list[i] + 2] == m[list[i] + 2]
    ensures Linked(m', list)
  {
    forall i | 0 <= i < |list| ensures NodeLinks(m', list, i) { assert NodeLinks(m, list, i); }
  }

  /** Writing words outside the listed blocks' bodies keeps the list. */
  lemma LinkedOutside(m: Mem, m': Mem, blocks: set<nat>, epi: nat, list: seq<nat>, lo: nat, hi: nat)
    requires Tiled(m, blocks, epi) && Linked(m, list) && |m| <= |m'| && 0 < lo
    requires forall y | y in list :: y in blocks && (hi <= y + 1 || Next(m, y) <= lo)
    requires forall i | 0 <= i < |m| && !(lo <= i < hi) :: m'[i] == m[i]
    ensures Linked(m', list)
  {
    forall i | 0 <= i < |list| && list[i] + 2 < |m|
      ensures m'[list[i] + 1] == m[list[i] + 1] && m'[list[i] + 2] == m[list[i] + 2]
    {
      var y := list[i];
      assert y in list && Next(m, y) >= y + 4;
    }
    LinkedFrame(m, m', list);
  }

  ghost function Footed(m: Mem, x: nat): Mem
    requires x < |m| && 1 <= Next(m, x) < |m|
  {
    var e := Next(m, x);
    m[e - 1 := m[x]][e := m[e].(prev := false)]
  }

  lemma FootedTiled(m: Mem, blocks: set<nat>, list: seq<nat>, epi: nat, x: nat)
    requires Releasing(m, blocks, list, epi, x)
    ensures 1 <= Next(m, x) <= epi
    ensures var m' := Footed(m, x);
      && Tiled(m', blocks, epi)
      && forall b | b in blocks || b == epi :: m'[b] == if b == Next(m, x) then m[b].(prev := false) else m[b]
  {
    EndsBy(m, blocks, epi, x, epi);
    var e, m' := Next(m, x), Footed(m, x);
    forall b | b in blocks && b < e ensures b + MIN_BLOCK <= e { EndsBy(m, blocks, epi, b, e); }
    forall b | b in blocks ensures m'[b].units == m[b].units {}
    forall b | b in blocks ensures Next(m', b) in blocks || Next(m', b) == epi { assert Next(m', b) == Next(m, b); }
    forall b, c | b in blocks && c in blocks && b < c ensures Next(m', b) <= c { assert Next(m', b) == Next(m, b); }
  }

  lemma FootedTagged(m: Mem, blocks: set<nat>, list: seq<nat>, epi: nat, x: nat)
    requires Releasing(m, blocks, list, epi, x)
    requires 1 <= Next(m, x) <= epi && Tiled(Footed(m, x), blocks, epi)
    requires forall b | b in blocks || b == epi :: Footed(m, x)[b] == if b == Next(m, x) then m[b].(prev := false)
        else m[b]
    ensures Tagged(Footed(m, x), blocks, epi)
  {
    var e, m' := Next(m, x), Footed(m, x);
    forall b | b in blocks ensures TailTags(m', b) {
      if b != x {
        assert TailTags(m, b) && Next(m', b) == Next(m, b);
        assert Next(m, b) <= x || e <= b;
      }
    }
  }

  lemma FootedLive(m: Mem, blocks: set<nat>, list: seq<nat>, epi: nat, x: nat)
    requires Releasing(m, blocks, list, epi, x)
    requires 1 <= Next(m, x) <= epi
    ensures LiveKept(m, Footed(m, x), blocks)
    ensures Linked(Footed(m, x), list)
  {
    var e, m' := Next(m, x), Footed(m, x);
    forall b | b in blocks && m[b].used ensures SamePayload(m, m', b) {
      EndsBy(m, blocks, epi, b, epi);
      assert Next(m, b) <= x || e <= b;
    }
    forall y | y in list ensures e + 1 <= y + 1 || Next(m, y) <= e - 1 {
      assert Next(m, y) <= x || e <= y;
    }
    LinkedOutside(m, m', blocks, epi, list, e - 1, e + 1);
  }

  /** All is in order, up to coalescing around x, once x is put on the list. */
  ghost predicate Unlisted(m: Mem, blocks: set<nat>, list: seq<nat>, epi: nat, x: nat)
  {
    && Tiled(m, blocks, epi)
    && Tagged(m, blocks, epi)
    && (forall b {:trigger Next(m, b)} | b in blocks && !m[b].used && b != x && Next(m, b) != x :: m[Next(m, b)].used)
    && Spaced([x] + list)
    && Linked(m, list)
    && ListsFree(m, blocks, [x] + list, 0, 0, 0)
  }

  /** (m', blocks') hands out the used blocks of (m, blocks) with their payloads. */
  ghost predicate SameLive(m: Mem, blocks: set<nat>, m': Mem, blocks': set<nat>)
  {
    && (forall b | b in blocks :: b < |m|) && (forall b | b in blocks' :: b < |m'|)
    && LiveKept(m, m', blocks) && Live(m', blocks') == Live(m, blocks)
  }

  lemma SameLiveTrans(m: Mem, blocks: set<nat>, m1: Mem, blocks1: set<nat>, m2: Mem, blocks2: set<nat>)
    requires SameLive(m, blocks, m1, blocks1) && SameLive(m1, blocks1, m2, blocks2)
    ensures SameLive(m, blocks, m2, blocks2)
  {
    forall b | b in blocks && m[b].used ensures SamePayload(m, m2, b) {
      assert b in Live(m, blocks);
      assert SamePayload(m, m1, b) && SamePayload(m1, m2, b);
    }
  }

  lemma SameLiveHeaders(m: Mem, m': Mem, blocks: set<nat>)
    requires |m| <= |m'| && forall b | b in blocks :: b < |m| && m'[b].used == m[b].used
    requires LiveKept(m, m', blocks)
    ensures SameLive(m, blocks, m', blocks)
  {
  }

  /** Putting x on the list. */
  lemma Listed(m: Mem, m': Mem, blocks: set<nat>, list: seq<nat>, epi: nat, x: nat)
    requires Unlisted(m, blocks, list, epi, x)
    requires LinksOnly(m, m', [x] + list) && Linked(m', [x] + list)
    ensures FormedAround(m', blocks, [x] + list, epi, x)
    ensures Coalesced(m, blocks, epi) ==> WellFormed(m', blocks, [x] + list, epi)
    ensures x in blocks && m'[x] == m[x] && SameLive(m, blocks, m', blocks)
  {
    assert ([x] + list)[0] == x;
    LinksKeep(m, m', blocks, epi, [x] + list);
    forall b | b in blocks ensures Next(m', b) == Next(m, b) && m'[Next(m, b)] == m[Next(m, b)] {
      assert Next(m, b) in blocks || Next(m, b) == epi;
    }
    SameLiveHeaders(m, m', blocks);
  }

  /** Footer and successor's PREV bit leave only the list entry to be written. */
  lemma ReleaseFooted(m: Mem, blocks: set<nat>, list: seq<nat>, epi: nat, x: nat)
    requires Releasing(m, blocks, list, epi, x)
    ensures 1 <= Next(m, x) <= epi && x + 3 < |m|
    ensures Unlisted(Footed(m, x), blocks, list, epi, x)
    ensures SameLive(m, blocks, Footed(m, x), blocks)
  {
    FootedTiled(m, blocks, list, epi, x);
    FootedTagged(m, blocks, list, epi, x);
    FootedLive(m, blocks, list, epi, x);
    SpacedBlocks(m, blocks, epi, list, x);
    var m' := Footed(m, x);
    forall b | b in blocks && !m'[b].used && b != x && Next(m', b) != x ensures m'[Next(m', b)].used {
      assert Next(m', b) == Next(m, b);
    }
    SameLiveHeaders(m, m', blocks);
  }

  /** Changing only the tag bits of one header h keeps tiling, list and payloads. */
  lemma Retag(m: Mem, blocks: set<nat>, list: seq<nat>, epi: nat, h: nat, w: Word)
    requires Tiled(m, blocks, epi) && Linked(m, list) && forall y | y in list :: y in blocks
    requires (h in blocks || h == epi) && w.units == m[h].units && (h == epi ==> w.used)
    ensures Tiled(m[h := w], blocks, epi) && Linked(m[h := w], list)
    ensures forall y {:trigger SamePayload(m, m[h := w], y)} | y in blocks && (y != h || w.used == m[h].used) ::
        SamePayload(m, m[h := w], y)
  {
    TiledSame(m, m[h := w], blocks, epi);
    forall y | y in list ensures h + 1 <= y + 1 || Next(m, y) <= h { if y < h { EndsBy(m, blocks, epi, y, h); } }
    LinkedOutside(m, m[h := w], blocks, epi, list, h, h + 1);
    forall y | y in blocks && (y != h || w.used == m[h].used) ensures SamePayload(m, m[h := w], y) {
      RetagPayload(m, blocks, epi, h, w, y);
    }
  }

  lemma TiledSame(m: Mem, m': Mem, blocks: set<nat>, epi: nat)
    requires Tiled(m, blocks, epi) && |m| == |m'| && m'[epi].units == 0 && m'[epi].used
    requires forall y | y in blocks :: m'[y].units == m[y].units
    ensures Tiled(m', blocks, epi)
  {
    forall y | y in blocks ensures Next(m', y) in blocks || Next(m', y) == epi { assert Next(m', y) == Next(m, y); }
    forall y, c | y in blocks && c in blocks && y < c ensures Next(m', y) <= c { assert Next(m', y) == Next(m, y); }
  }

  lemma RetagPayload(m: Mem, blocks: set<nat>, epi: nat, h: nat, w: Word, y: nat)
    requires Tiled(m, blocks, epi) && y in blocks
    requires (h in blocks || h == epi) && w.units == m[h].units
    requires y != h || w.used == m[h].used
    ensures SamePayload(m, m[h := w], y)
  {
    EndsBy(m, blocks, epi, y, epi);
    if y < h { EndsBy(m, blocks, epi, y, h); }
  }

  /** ... and only the tail tags of h and of its predecessor can change. */
  lemma RetagTails(m: Mem, blocks: set<nat>, epi: nat, h: nat, w: Word, y: nat)
    requires Tiled(m, blocks, epi) && y in blocks && TailTags(m, y)
    requires (h in blocks || h == epi) && w.units == m[h].units && (h == epi ==> w.used)
    requires h != y && (Next(m, y) == h ==> w.prev == m[h].prev)
    ensures TailTags(m[h := w], y)
  {
    EndsBy(m, blocks, epi, y, epi);
    if y < h { EndsBy(m, blocks, epi, y, h); }
  }

  /** A used block that gets a free header is being released. */
  lemma ReleaseUsed(m: Mem, blocks: set<nat>, list: seq<nat>, epi: nat, b: nat)
    requires WellFormed(m, blocks, list, epi) && b in blocks && m[b].used
    ensures Releasing(m[b := m[b].(used := false)], blocks, list, epi, b)
    ensures LiveKept(m, m[b := m[b].(used := false)], blocks - {b})
  {
    var w := m[b].(used := false);
    Retag(m, blocks, list, epi, b, w);
    var m' := m[b := w];
    forall y | y in blocks && y != b ensures TailTags(m', y) {
      assert TailTags(m, y);
      RetagTails(m, blocks, epi, b, w, y);
    }
    forall y | y in blocks && !m'[y].used && y != b && Next(m', y) != b ensures m'[Next(m', y)].used {
      assert Next(m', y) == Next(m, y);
    }
  }

  lemma ClaimWholeTail(m: Mem, blocks: set<nat>, list: seq<nat>, epi: nat, b: nat, e: nat, w: Word, y: nat)
    requires Claiming(m, blocks, list, epi, b) && e == Next(m, b) && e < |m| && w == m[e].(prev := true) && y in blocks
    ensures TailTags(m[e := w], y)
  {
    EndsBy(m, blocks, epi, b, epi);
    if y != b {
      assert TailTags(m, y);
      assert Next(m, y) <= b || e <= y;
      if y != e { RetagTails(m, blocks, epi, e, w, y); }
    }
  }

  /** Claiming a whole block ends with the successor's PREV bit. */
  lemma ClaimWhole(m: Mem, blocks: set<nat>, list: seq<nat>, epi: nat, b: nat)
    requires Claiming(m, blocks, list, epi, b)
    ensures Next(m, b) <= epi
    ensures var e := Next(m, b); var m' := m[e := m[e].(prev := true)];
      WellFormed(m', blocks, list, epi) && LiveKept(m, m', blocks) && Live(m', blocks) == Live(m, blocks)
  {
    EndsBy(m, blocks, epi, b, epi);
    var e := Next(m, b);
    var w := m[e].(prev := true);
    Retag(m, blocks, list, epi, e, w);
    var m' := m[e := w];
    forall y | y in blocks ensures TailTags(m', y) { ClaimWholeTail(m, blocks, list, epi, b, e, w, y); }
    forall y | y in blocks && !m'[y].used ensures m'[Next(m', y)].used { assert Next(m', y) == Next(m, y); }
  }

  ghost function SplitAt(m: Mem, b: nat, keep: nat): Mem
    requires b < |m| && b + keep < |m| && 0 < keep < m[b].units
  {
    m[b := Word(keep, m[b].prev, true)][b + keep := Word(m[b].units - keep, true, false)]
  }

  lemma SplitSides(m: Mem, blocks: set<nat>, epi: nat, b: nat, keep: nat, y: nat)
    requires Tiled(m, blocks, epi) && b in blocks && b + m[b].units <= epi
    requires MIN_BLOCK <= keep && keep + MIN_BLOCK <= m[b].units
    requires y in blocks && y != b
    ensures SplitAt(m, b, keep)[y] == m[y] && Next(m, y) <= epi
    ensures if y < b then Next(m, y) <= b else b + m[b].units <= y
    ensures SamePayload(m, SplitAt(m, b, keep), y)
    ensures TailTags(m, y) ==> TailTags(SplitAt(m, b, keep), y)
  {
    EndsBy(m, blocks, epi, y, epi);
    assert Next(m, y) <= b || Next(m, b) <= y;
  }

  lemma SplitTiled(m: Mem, blocks: set<nat>, epi: nat, b: nat, keep: nat)
    requires Tiled(m, blocks, epi) && b in blocks && b + m[b].units <= epi
    requires MIN_BLOCK <= keep && keep + MIN_BLOCK <= m[b].units
    ensures Tiled(SplitAt(m, b, keep), blocks + {b + keep}, epi)
  {
    var x, e, m' := b + keep, Next(m, b), SplitAt(m, b, keep);
    var blocks' := blocks + {x};
    assert Next(m', b) == x && Next(m', x) == e && m'[epi] == m[epi];
    forall y | y in blocks'
      ensures 1 <= y < epi && m'[y].units >= MIN_BLOCK && (Next(m', y) in blocks' || Next(m', y) == epi)
    {
      if y != b && y != x { SplitSides(m, blocks, epi, b, keep, y); assert Next(m', y) == Next(m, y); }
    }
    forall y, c | y in blocks' && c in blocks' && y < c ensures Next(m', y) <= c {
      if y != b && y != x { SplitSides(m, blocks, epi, b, keep, y); assert Next(m', y) == Next(m, y); }
      if c != b && c != x { SplitSides(m, blocks, epi, b, keep, c); }
    }
  }

  lemma SplitLive(m: Mem, blocks: set<nat>, epi: nat, b: nat, keep: nat)
    requires Tiled(m, blocks, epi) && b in blocks && b + m[b].units <= epi && m[b].used
    requires MIN_BLOCK <= keep && keep + MIN_BLOCK <= m[b].units
    requires Tiled(SplitAt(m, b, keep), blocks + {b + keep}, epi)
    ensures Live(SplitAt(m, b, keep), blocks + {b + keep}) == Live(m, blocks)
    ensures LiveKept(m, SplitAt(m, b, keep), blocks - {b})
  {
    forall y | y in blocks && y != b
      ensures SplitAt(m, b, keep)[y] == m[y] && y != b + keep && SamePayload(m, SplitAt(m, b, keep), y)
    {
      SplitSides(m, blocks, epi, b, keep, y);
    }
  }

  lemma SplitList(m: Mem, blocks: set<nat>, list: seq<nat>, epi: nat, b: nat, keep: nat)
    requires Claiming(m, blocks, list, epi, b) && b + m[b].units <= epi
    requires MIN_BLOCK <= keep && keep + MIN_BLOCK <= m[b].units
    ensures Linked(SplitAt(m, b, keep), list)
    ensures forall y :: y in list <==> y in blocks + {b + keep} && !SplitAt(m, b, keep)[y].used && y != b + keep
  {
    forall y | y in blocks && y != b
      ensures SplitAt(m, b, keep)[y] == m[y] && y != b + keep
      ensures b + keep + 1 <= y + 1 || Next(m, y) <= b
    {
      SplitSides(m, blocks, epi, b, keep, y);
    }
    LinkedOutside(m, SplitAt(m, b, keep), blocks, epi, list, b, b + keep + 1);
  }

  /** Claiming the first `keep` words of a block leaves its rest to be released. */
  lemma ClaimSplit(m: Mem, blocks: set<nat>, list: seq<nat>, epi: nat, b: nat, keep: nat)
    requires Claiming(m, blocks, list, epi, b)
    requires MIN_BLOCK <= keep && keep + MIN_BLOCK <= m[b].units
    ensures b + m[b].units <= epi
    ensures Releasing(SplitAt(m, b, keep), blocks + {b + keep}, list, epi, b + keep)
  {
    EndsBy(m, blocks, epi, b, epi);
    SplitTiled(m, blocks, epi, b, keep);
    SplitList(m, blocks, list, epi, b, keep);
    var x, m' := b + keep, SplitAt(m, b, keep);
    forall y | y in blocks && y != b
      ensures TailTags(m', y) && (!m'[y].used ==> m'[Next(m', y)].used)
    {
      assert TailTags(m, y);
      SplitSides(m, blocks, epi, b, keep, y);
      if !m[y].used {
        assert Next(m', y) == Next(m, y);
        if Next(m, y) != b && Next(m, y) != epi { SplitSides(m, blocks, epi, b, keep, Next(m, y)); }
      }
    }
    assert TailTags(m', b);
  }

  /** Claiming the region [p, e), whose blocks are unlinked and whose inside may
      have been overwritten. */
  lemma ClaimRegion(m: Mem, m': Mem, blocks: set<nat>, list: seq<nat>, list': seq<nat>, epi: nat, p: nat, e: nat)
    requires WellFormed(m, blocks, list, epi) && |m'| == |m|
    requires p in blocks && (e in blocks || e == epi) && p < e
    requires m'[p] == Word(e - p, m[p].prev, true)
    requires forall i | 0 < i < |m| && !(p <= i < e) && i - 1 !in list && i - 2 !in list :: m'[i] == m[i]
    requires Spaced(list') && Linked(m', list')
    requires forall y :: y in list' <==> y in list && !(p <= y < e)
    ensures Claiming(m', Merged(blocks, p, e), list', epi, p)
    ensures forall b {:trigger SamePayload(m, m', b)} | b in blocks && m[b].used && !(p <= b < e) ::
        SamePayload(m, m', b)
  {
    var blocks' := Merged(blocks, p, e);
    RegionTiled(m, m', blocks, list, epi, p, e);
    forall b | b in blocks' && b != p
      ensures TailTags(m', b) && (!m'[b].used ==> m'[Next(m', b)].used)
      ensures m[b].used ==> SamePayload(m, m', b)
    {
      RegionBlock(m, m', blocks, list, epi, p, e, b);
    }
    assert m'[1].prev;
    forall b | b in blocks' && !m'[b].used ensures m'[Next(m', b)].used { assert b != p; }
  }

  lemma RegionHeaders(m: Mem, m': Mem, blocks: set<nat>, list: seq<nat>, epi: nat, p: nat, e: nat)
    requires WellFormed(m, blocks, list, epi) && |m'| == |m|
    requires p in blocks && (e in blocks || e == epi) && p < e
    requires forall i | 0 < i < |m| && !(p <= i < e) && i - 1 !in list && i - 2 !in list :: m'[i] == m[i]
    ensures m'[epi] == m[epi]
    ensures forall b | b in blocks && !(p <= b < e) :: m'[b] == m[b]
    ensures forall b | b in blocks && b < e :: Next(m, b) <= e && b + MIN_BLOCK <= e
  {
    forall b | b in blocks && !(p <= b < e) ensures m'[b] == m[b] { LinksMiss(m, blocks, epi, list, b, b); }
    forall y | y in list ensures y != epi - 1 && y != epi - 2 { EndsBy(m, blocks, epi, y, epi); }
    forall b | b in blocks && b < e ensures Next(m, b) <= e && b + MIN_BLOCK <= e { EndsBy(m, blocks, epi, b, e); }
  }

  lemma RegionTiled(m: Mem, m': Mem, blocks: set<nat>, list: seq<nat>, epi: nat, p: nat, e: nat)
    requires WellFormed(m, blocks, list, epi) && |m'| == |m|
    requires p in blocks && (e in blocks || e == epi) && p < e
    requires m'[p] == Word(e - p, m[p].prev, true)
    requires forall i | 0 < i < |m| && !(p <= i < e) && i - 1 !in list && i - 2 !in list :: m'[i] == m[i]
    ensures Tiled(m', Merged(blocks, p, e), epi)
    ensures m'[epi] == m[epi] && forall b | b in blocks && !(p <= b < e) :: m'[b] == m[b]
  {
    RegionHeaders(m, m', blocks, list, epi, p, e);
    var blocks' := Merged(blocks, p, e);
    forall b | b in blocks'
      ensures 1 <= b < epi && m'[b].units >= MIN_BLOCK && (Next(m', b) in blocks' || Next(m', b) == epi)
    {
      if b != p { RegionNext(m, m', blocks, epi, p, e, b); }
    }
    forall b, d | b in blocks' && d in blocks' && b < d ensures Next(m', b) <= d {
      if b != p { RegionNext(m, m', blocks, epi, p, e, b); }
    }
  }

  lemma RegionNext(m: Mem, m': Mem, blocks: set<nat>, epi: nat, p: nat, e: nat, b: nat)
    requires Tiled(m, blocks, epi) && |m'| == |m|
    requires p in blocks && (e in blocks || e == epi) && p < e
    requires b in blocks && !(p <= b < e) && m'[b] == m[b]
    ensures 1 <= b < epi && m'[b].units >= MIN_BLOCK
    ensures Next(m', b) in Merged(blocks, p, e) || Next(m', b) == epi
    ensures forall d | d in blocks && b < d :: Next(m', b) <= d
  {
    assert Next(m', b) == Next(m, b);
    if b < p { assert Next(m, b) <= p; }
  }

  lemma RegionBlock(m: Mem, m': Mem, blocks: set<nat>, list: seq<nat>, epi: nat, p: nat, e: nat, b: nat)
    requires WellFormed(m, blocks, list, epi) && |m'| == |m|
    requires p in blocks && (e in blocks || e == epi) && p < e
    requires m'[p] == Word(e - p, m[p].prev, true)
    requires forall i | 0 < i < |m| && !(p <= i < e) && i - 1 !in list && i - 2 !in list :: m'[i] == m[i]
    requires m'[epi] == m[epi] && forall y | y in blocks && !(p <= y < e) :: m'[y] == m[y]
    requires b in blocks && !(p <= b < e)
    ensures TailTags(m', b) && (!m'[b].used ==> m'[Next(m', b)].used)
    ensures m[b].used ==> SamePayload(m, m', b)
  {
    assert TailTags(m, b) && Next(m', b) == Next(m, b);
    EndsBy(m, blocks, epi, b, epi);
    assert b < p ==> Next(m, b) <= p;
    if m[b].used {
      forall i | b < i < Next(m, b) ensures m'[i] == m[i] { LinksMiss(m, blocks, epi, list, b, i); }
    } else {
      LinksMiss(m, blocks, epi, list, b, Next(m, b) - 1);
    }
  }

  ghost function Extended(m: Mem, epi: nat, total: nat): Mem
    requires epi + total < |m|
  {
    m[epi := Word(total, m[epi].prev, false)][epi + total := Word(0, false, true)]
  }

  lemma ExtendBlock(m: Mem, blocks: set<nat>, epi: nat, total: nat, b: nat)
    requires Tiled(m, blocks, epi) && epi + total < |m| && 0 < total && b in blocks && TailTags(m, b)
    ensures Extended(m, epi, total)[b] == m[b] && Next(m, b) <= epi
    ensures TailTags(Extended(m, epi, total), b) && SamePayload(m, Extended(m, epi, total), b)
    ensures Next(m, b) == epi || Extended(m, epi, total)[Next(m, b)] == m[Next(m, b)]
  {
    EndsBy(m, blocks, epi, b, epi);
  }

  lemma ExtendLive(m: Mem, blocks: set<nat>, epi: nat, total: nat)
    requires Tiled(m, blocks, epi) && Tagged(m, blocks, epi) && epi + total < |m| && 0 < total
    ensures LiveKept(m, Extended(m, epi, total), blocks)
    ensures forall b | b in blocks + {epi} :: b < |m|
    ensures Live(Extended(m, epi, total), blocks + {epi}) == Live(m, blocks)
  {
    forall b | b in blocks ensures Extended(m, epi, total)[b] == m[b] && SamePayload(m, Extended(m, epi, total), b) {
      assert TailTags(m, b);
      ExtendBlock(m, blocks, epi, total, b);
    }
  }

  lemma ExtendLinked(m: Mem, blocks: set<nat>, list: seq<nat>, epi: nat, total: nat)
    requires Tiled(m, blocks, epi) && Linked(m, list) && epi + total < |m| && 0 < total
    requires forall y | y in list :: y in blocks
    ensures Linked(Extended(m, epi, total), list)
  {
    var m' := Extended(m, epi, total);
    forall i | 0 <= i < |list| && list[i] + 2 < |m|
      ensures m'[list[i] + 1] == m[list[i] + 1] && m'[list[i] + 2] == m[list[i] + 2]
    {
      assert list[i] in list;
      EndsBy(m, blocks, epi, list[i], epi);
    }
    LinkedFrame(m, m', list);
  }

  /** The old epilogue becomes the header of a free block of the new pages. */
  lemma ExtendReleasing(m: Mem, blocks: set<nat>, list: seq<nat>, epi: nat, total: nat)
    requires WellFormed(m, blocks, list, epi) && MIN_BLOCK <= total && epi + total < |m|
    ensures Releasing(Extended(m, epi, total), blocks + {epi}, list, epi + total, epi)
  {
    var m', blocks' := Extended(m, epi, total), blocks + {epi};
    ExtendTiled(m, blocks, epi, total);
    ExtendLinked(m, blocks, list, epi, total);
    forall b | b in blocks
      ensures m'[b] == m[b] && TailTags(m', b)
      ensures !m'[b].used && Next(m', b) != epi ==> m'[Next(m', b)].used
    {
      assert TailTags(m, b);
      ExtendBlock(m, blocks, epi, total, b);
    }
  }

  lemma ExtendTiled(m: Mem, blocks: set<nat>, epi: nat, total: nat)
    requires Tiled(m, blocks, epi) && MIN_BLOCK <= total && epi + total < |m|
    ensures Tiled(Extended(m, epi, total), blocks + {epi}, epi + total)
  {
    var m' := Extended(m, epi, total);
    forall b | b in blocks ensures m'[b] == m[b] && Next(m', b) == Next(m, b) <= epi { EndsBy(m, blocks, epi, b, epi); }
    forall b, d | b in blocks + {epi} && d in blocks + {epi} && b < d ensures Next(m', b) <= d {
      EndsBy(m, blocks, epi, b, d);
    }
  }

  // --------------------------------------------------------------- coalescing

  /** Inside coalesce_free_block: the blocks of [lo, hi) are all free and, x apart,
      already unlinked; m0 is the heap on entry. */
  ghost predicate Absorbing(m0: Mem, m: Mem, blocks: set<nat>, list: seq<nat>, epi: nat, lo: nat, x: nat, hi: nat)
  {
    && Tiled(m, blocks, epi) && Tagged(m, blocks, epi) && |m0| == |m|
    && (forall b | b in blocks || b == epi :: m[b] == m0[b])
    && Spaced(list) && Linked(m, list) && ListsFree(m, blocks, list, lo, x, hi)
    && lo in blocks && x in blocks && (hi in blocks || hi == epi) && lo <= x < hi
    && (forall b | b in blocks && lo <= b < hi :: !m[b].used)
    && !m[hi].prev
    && LiveKept(m0, m, blocks)
  }

  lemma AbsorbRange(m: Mem, blocks: set<nat>, epi: nat, lo: nat, hi: nat, y: nat)
    requires Tiled(m, blocks, epi) && lo in blocks && (hi in blocks || hi == epi) && lo < hi
    requires y in blocks && (Next(m, y) == lo || y == hi)
    ensures forall b | b in blocks :: (if y == hi then lo <= b < Next(m, y) else y <= b < hi) <==>
        b == y || lo <= b < hi
  {
    forall b | b in blocks && y < b ensures Next(m, y) <= b {}
  }

  /** Unlinking a free neighbour y of [lo, hi) extends the absorbed region by y. */
  lemma AbsorbOne(m0: Mem, m: Mem, m': Mem, blocks: set<nat>, list: seq<nat>, epi: nat, lo: nat, x: nat, hi: nat,
                  k: nat)
    requires Absorbing(m0, m, blocks, list, epi, lo, x, hi)
    requires k < |list| && list[k] in blocks && (Next(m, list[k]) == lo || list[k] == hi)
    requires LinksOnly(m, m', list) && Linked(m', Without(list, k))
    ensures var y := list[k];
      Absorbing(m0, m', blocks, Without(list, k), epi, if y == hi then lo else y, x, if y == hi then Next(m, y) else hi)
  {
    var y := list[k];
    LinksKeep(m, m', blocks, epi, list);
    WithoutSpaced(list, k);
    AbsorbRange(m, blocks, epi, lo, hi, y);
    assert TailTags(m, y);
    forall b | b in blocks && m0[b].used ensures SamePayload(m0, m', b) {
      assert SamePayload(m0, m, b) && SamePayload(m, m', b);
    }
  }

  ghost function Joined(m: Mem, c: nat, e: nat): Mem
    requires c + 4 <= e <= |m|
  {
    m[c := Word(e - c, true, false)][e - 1 := Word(e - c, true, false)]
  }

  /** What is known when everything in [c, e) is free and unlinked. */
  ghost predicate Absorbed(m: Mem, blocks: set<nat>, list: seq<nat>, epi: nat, c: nat, e: nat)
  {
    && Tiled(m, blocks, epi) && Tagged(m, blocks, epi)
    && c in blocks && (e in blocks || e == epi) && c + 4 <= e
    && m[c].prev && !m[e].prev && m[e].used
    && (forall b | b in blocks && c <= b < e :: !m[b].used)
    && (forall b {:trigger Next(m, b)} | b in blocks && !m[b].used && !(c <= b < e) :: m[Next(m, b)].used)
    && Spaced(list) && Linked(m, list)
    && (forall b :: b in list <==> b in blocks && !m[b].used && !(c <= b < e))
  }

  lemma JoinedKeeps(m: Mem, blocks: set<nat>, list: seq<nat>, epi: nat, c: nat, e: nat)
    requires Absorbed(m, blocks, list, epi, c, e)
    ensures Linked(Joined(m, c, e), list)
    ensures forall b | b in blocks && !(c <= b < e) :: Joined(m, c, e)[b] == m[b]
    ensures LiveKept(m, Joined(m, c, e), blocks)
  {
    forall b | b in blocks && !(c <= b < e) ensures Next(m, b) <= c || e <= b {}
    LinkedOutside(m, Joined(m, c, e), blocks, epi, list, c, e);
    forall b | b in blocks && m[b].used ensures SamePayload(m, Joined(m, c, e), b) {
      EndsBy(m, blocks, epi, b, epi);
      assert Next(m, b) <= c || e <= b;
    }
  }

  lemma JoinedFormed(m: Mem, blocks: set<nat>, list: seq<nat>, epi: nat, c: nat, e: nat)
    requires Absorbed(m, blocks, list, epi, c, e)
    ensures var m', blocks' := Joined(m, c, e), Merged(blocks, c, e);
      && Tiled(m', blocks', epi) && Tagged(m', blocks', epi) && Coalesced(m', blocks', epi)
  {
    MergeTiled(m, blocks, epi, c, e);
    MergeTagged(m, blocks, epi, c, e);
    JoinedKeeps(m, blocks, list, epi, c, e);
    var m', blocks' := Joined(m, c, e), Merged(blocks, c, e);
    forall b | b in blocks' && !m'[b].used ensures m'[Next(m', b)].used {
      if b != c {
        assert Next(m', b) == Next(m, b);
        assert TailTags(m, b);
      }
    }
  }

  /** One header and one footer over [c, e) leave only the list entry to be written. */
  lemma JoinUnlisted(m: Mem, blocks: set<nat>, list: seq<nat>, epi: nat, c: nat, e: nat)
    requires Absorbed(m, blocks, list, epi, c, e)
    ensures var m', blocks' := Joined(m, c, e), Merged(blocks, c, e);
      Unlisted(m', blocks', list, epi, c) && Coalesced(m', blocks', epi) && SameLive(m, blocks, m', blocks')
  {
    JoinedFormed(m, blocks, list, epi, c, e);
    JoinedKeeps(m, blocks, list, epi, c, e);
    SpacedBlocks(m, blocks, epi, list, c);
  }

  lemma AbsorbStart(m: Mem, blocks: set<nat>, list: seq<nat>, epi: nat, x: nat)
    requires FormedAround(m, blocks, list, epi, x) && x in list
    ensures Absorbing(m, m, blocks, list, epi, x, x, x + m[x].units)
  {
    assert TailTags(m, x);
    assert Next(m, x) in blocks || Next(m, x) == epi;
    forall b | b in blocks && x < b ensures Next(m, x) <= b {}
    forall b | b in blocks && m[b].used ensures SamePayload(m, m, b) { EndsBy(m, blocks, epi, b, epi); }
  }

  /** With x itself unlinked and used blocks on both sides, [lo, hi) is absorbed. */
  lemma AbsorbedAll(m0: Mem, m: Mem, m': Mem, blocks: set<nat>, list: seq<nat>, epi: nat, lo: nat, x: nat, hi: nat,
                    k: nat)
    requires Absorbing(m0, m, blocks, list, epi, lo, x, hi) && k < |list| && list[k] == x
    requires m[lo].prev && m[hi].used
    requires forall b {:trigger Next(m0, b)} | b in blocks && !m0[b].used && b != x && Next(m0, b) != x ::
        Next(m0, b) < |m0| && m0[Next(m0, b)].used
    requires LinksOnly(m, m', list) && Linked(m', Without(list, k))
    ensures Absorbed(m', blocks, Without(list, k), epi, lo, hi)
    ensures SameLive(m0, blocks, m', blocks)
  {
    LinksKeep(m, m', blocks, epi, list);
    WithoutSpaced(list, k);
    EndsBy(m, blocks, epi, lo, hi);
    forall b | b in blocks && !m'[b].used && !(lo <= b < hi) ensures m'[Next(m', b)].used {
      assert Next(m', b) == Next(m0, b) == Next(m, b);
      assert TailTags(m, b);
      EndsBy(m, blocks, epi, b, epi);
    }
    forall b | b in blocks && m0[b].used ensures SamePayload(m0, m', b) {
      assert SamePayload(m0, m, b) && SamePayload(m, m', b);
    }
  }

  lemma AbsorbedNone(m0: Mem, m: Mem, blocks: set<nat>, list: seq<nat>, epi: nat, x: nat, hi: nat)
    requires Absorbing(m0, m, blocks, list, epi, x, x, hi) && hi == x + m[x].units
    requires m[x].prev && m[hi].used
    requires forall b {:trigger Next(m0, b)} | b in blocks && !m0[b].used && b != x && Next(m0, b) != x ::
        Next(m0, b) < |m0| && m0[Next(m0, b)].used
    ensures WellFormed(m, blocks, list, epi) && x in list && SameLive(m0, blocks, m, blocks)
  {
    forall b | b in blocks && !m[b].used ensures m[Next(m, b)].used {
      assert Next(m, b) == Next(m0, b);
      assert TailTags(m, b);
    }
    forall b | b in blocks && x < b ensures Next(m, x) <= b {}
  }

  lemma PrecedingListed(m0: Mem, m: Mem, blocks: set<nat>, list: seq<nat>, epi: nat, lo: nat, x: nat, hi: nat)
    returns (k: nat)
    requires Absorbing(m0, m, blocks, list, epi, lo, x, hi) && !m[lo].prev
    ensures 1 < lo && 0 < m[lo - 1].units < lo && k < |list| && list[k] == lo - m[lo - 1].units
    ensures list[k] in blocks && Next(m, list[k]) == lo && list[k] != hi
  {
    var p := Predecessor(m, blocks, epi, lo, 1);
    assert TailTags(m, p);
    assert p in list;
    k :| 0 <= k < |list| && list[k] == p;
  }

  lemma FollowingListed(m0: Mem, m: Mem, blocks: set<nat>, list: seq<nat>, epi: nat, lo: nat, x: nat, hi: nat)
    returns (k: nat)
    requires Absorbing(m0, m, blocks, list, epi, lo, x, hi) && !m[hi].used
    ensures k < |list| && list[k] == hi && hi in blocks && hi < Next(m, hi) <= epi
  {
    assert hi in list;
    EndsBy(m, blocks, epi, hi, epi);
    k :| 0 <= k < |list| && list[k] == hi;
  }

  // -------------------------------------------------------------- allocations

  /** From a heap m0 whose block b is used and large enough, the heap m hands out
      at least `alloc` words at b, wasting less than a block, and nothing else
      that is used has changed; the kept words of b still have their contents. */
  ghost predicate Placed(m0: Mem, blocks0: set<nat>, m: Mem, blocks: set<nat>, b: nat, alloc: nat)
  {
    && (forall y | y in blocks0 :: y < |m0|) && (forall y | y in blocks :: y < |m|)
    && b in blocks0 && b in blocks && b + alloc <= |m0| <= |m|
    && alloc <= m[b].units < alloc + MIN_BLOCK
    && Live(m, blocks) == Live(m0, blocks0)
    && LiveKept(m0, m, blocks0 - {b})
    && forall i | b < i < b + alloc :: m[i] == m0[i]
  }

  lemma PlacedSplit(m0: Mem, m1: Mem, blocks0: set<nat>, m: Mem, blocks: set<nat>, b: nat, alloc: nat)
    requires forall y | y in blocks0 :: y < |m0|
    requires b in blocks0 && b + alloc < |m0| && 0 < alloc < m0[b].units && m1 == SplitAt(m0, b, alloc)
    requires m0[b].used && LiveKept(m0, m1, blocks0 - {b}) && Live(m1, blocks0 + {b + alloc}) == Live(m0, blocks0)
    requires SameLive(m1, blocks0 + {b + alloc}, m, blocks)
    ensures Placed(m0, blocks0, m, blocks, b, alloc)
  {
    assert SamePayload(m1, m, b);
    assert b in Live(m0, blocks0);
    forall y | y in blocks0 - {b} && m0[y].used ensures SamePayload(m0, m, y) {
      assert y in Live(m0, blocks0);
      assert SamePayload(m0, m1, y) && SamePayload(m1, m, y);
    }
  }

  lemma PlacedWhole(m0: Mem, m: Mem, blocks: set<nat>, b: nat, alloc: nat)
    requires forall y | y in blocks :: y < |m0|
    requires b in blocks && m0[b].used && Next(m0, b) < |m0| && alloc <= m0[b].units < alloc + MIN_BLOCK
    requires LiveKept(m0, m, blocks) && |m0| == |m| && Live(m, blocks) == Live(m0, blocks)
    ensures Placed(m0, blocks, m, blocks, b, alloc)
  {
    assert SamePayload(m0, m, b);
    assert b in Live(m0, blocks);
  }

  lemma ClaimedFront(m: Mem, blocks: set<nat>, list: seq<nat>, epi: nat, b: nat, alloc: nat) returns (m': Mem)
    requires Claiming(m, blocks, list, epi, b)
    requires MIN_BLOCK <= alloc && alloc + MIN_BLOCK <= m[b].units
    ensures b + m[b].units <= epi && m' == SplitAt(m, b, alloc)
    ensures Releasing(m', blocks + {b + alloc}, list, epi, b + alloc)
    ensures LiveKept(m, m', blocks - {b}) && Live(m', blocks + {b + alloc}) == Live(m, blocks)
  {
    ClaimSplit(m, blocks, list, epi, b, alloc);
    SplitLive(m, blocks, epi, b, alloc);
    m' := SplitAt(m, b, alloc);
  }

  lemma SameLiveSelf(m: Mem, blocks: set<nat>, list: seq<nat>, epi: nat)
    requires WellFormed(m, blocks, list, epi)
    ensures SameLive(m, blocks, m, blocks)
  {
    forall b | b in blocks && m[b].used ensures SamePayload(m, m, b) { EndsBy(m, blocks, epi, b, epi); }
  }

  lemma ExtendedPages(m: Mem, blocks: set<nat>, list: seq<nat>, epi: nat, total: nat) returns (m': Mem)
    requires WellFormed(m, blocks, list, epi) && MIN_BLOCK <= total && epi + total < |m|
    ensures m' == Extended(m, epi, total) && 1 <= Next(m', epi) < |m|
    ensures Unlisted(Footed(m', epi), blocks + {epi}, list, epi + total, epi)
    ensures SameLive(m, blocks, Footed(m', epi), blocks + {epi})
  {
    m' := Extended(m, epi, total);
    ExtendReleasing(m, blocks, list, epi, total);
    ExtendLive(m, blocks, epi, total);
    ReleaseFooted(m', blocks + {epi}, list, epi + total, epi);
    SameLiveTrans(m, blocks, m', blocks + {epi}, Footed(m', epi), blocks + {epi});
  }

  /** An unlinked free block that gets a used header is being claimed. */
  lemma ClaimListed(m: Mem, m1: Mem, blocks: set<nat>, list: seq<nat>, epi: nat, k: nat)
    requires WellFormed(m, blocks, list, epi) && k < |list|
    requires LinksOnly(m, m1, list) && Linked(m1, Without(list, k))
    ensures list[k] in blocks && m1[list[k]] == m[list[k]]
    ensures var b := list[k]; var m' := m1[b := Word(m[b].units, m[b].prev, true)];
      && Claiming(m', blocks, Without(list, k), epi, b)
      && LiveKept(m, m', blocks) && Live(m', blocks) == Live(m, blocks) + {b}
  {
    var b := list[k];
    assert b in list;
    LinksKeep(m, m1, blocks, epi, list);
    WithoutSpaced(list, k);
    var e, m' := Next(m, b), m1[b := Word(m[b].units, m[b].prev, true)];
    assert e in blocks || e == epi;
    forall y | y in blocks && y != b ensures Next(m, y) <= b || e <= y {}
    LinkedOutside(m1, m', blocks, epi, Without(list, k), b, b + 1);
    assert Merged(blocks, b, e) == blocks;
    ClaimRegion(m, m', blocks, list, Without(list, k), epi, b, e);
  }

  /** Block b is newly handed out; the other used blocks are as they were. */
  ghost predicate Allocated(m0: Mem, blocks0: set<nat>, m: Mem, blocks: set<nat>, b: nat, alloc: nat)
  {
    && (forall y | y in blocks0 :: y < |m0|) && (forall y | y in blocks :: y < |m|)
    && b in blocks && m[b].used && alloc <= m[b].units < alloc + MIN_BLOCK
    && b !in Live(m0, blocks0) && Live(m, blocks) == Live(m0, blocks0) + {b}
    && LiveKept(m0, m, blocks0)
  }

  lemma AllocatedFree(m: Mem, blocks: set<nat>, m1: Mem, m': Mem, blocks': set<nat>, b: nat, alloc: nat)
    requires (forall y | y in blocks :: y < |m|) && b in blocks && !m[b].used && |m1| == |m|
    requires LiveKept(m, m1, blocks) && Live(m1, blocks) == Live(m, blocks) + {b}
    requires Placed(m1, blocks, m', blocks', b, alloc)
    ensures Allocated(m, blocks, m', blocks', b, alloc)
  {
    assert b in Live(m1, blocks);
    assert b in Live(m', blocks');
    forall y | y in blocks && m[y].used ensures SamePayload(m, m', y) {
      assert y in Live(m, blocks);
      assert y in Live(m1, blocks);
      assert SamePayload(m, m1, y) && SamePayload(m1, m', y);
    }
  }

  lemma AllocatedAfter(m0: Mem, blocks0: set<nat>, m1: Mem, blocks1: set<nat>, m: Mem, blocks: set<nat>, b: nat,
                       alloc: nat)
    requires SameLive(m0, blocks0, m1, blocks1) && Allocated(m1, blocks1, m, blocks, b, alloc)
    ensures Allocated(m0, blocks0, m, blocks, b, alloc)
  {
    forall y | y in blocks0 && m0[y].used ensures SamePayload(m0, m, y) {
      assert y in Live(m0, blocks0);
      assert SamePayload(m0, m1, y) && SamePayload(m1, m, y);
    }
  }

  // ----------------------------------------------------------------- payloads

  /** m' differs from m at most in the payload of block b. */
  ghost predicate PayloadOnly(m: Mem, m': Mem, b: nat)
    requires b < |m|
  {
    |m| == |m'| && forall i | 0 <= i < |m| && !(b < i < Next(m, b)) :: m'[i] == m[i]
  }

  /** Whatever is written to the payload of a used block, the heap stays well
      formed and every other used block keeps its payload. */
  lemma PayloadWrites(m: Mem, m': Mem, blocks: set<nat>, list: seq<nat>, epi: nat, b: nat)
    requires WellFormed(m, blocks, list, epi) && b in blocks && m[b].used && PayloadOnly(m, m', b)
    ensures WellFormed(m', blocks, list, epi)
    ensures Live(m', blocks) == Live(m, blocks) && LiveKept(m, m', blocks - {b})
    ensures m'[b] == m[b]
  {
    forall y | y in blocks || y == epi ensures m'[y] == m[y] {
      if y < b { } else if y == epi { EndsBy(m, blocks, epi, b, epi); } else if b < y { assert Next(m, b) <= y; }
    }
    TiledSame(m, m', blocks, epi);
    forall y | y in blocks
      ensures TailTags(m', y) && (!m'[y].used ==> m'[Next(m', y)].used)
      ensures y != b ==> SamePayload(m, m', y)
    {
      PayloadBlock(m, m', blocks, epi, b, y);
    }
    PayloadLinks(m, m', blocks, list, epi, b);
  }

  lemma PayloadLinks(m: Mem, m': Mem, blocks: set<nat>, list: seq<nat>, epi: nat, b: nat)
    requires Tiled(m, blocks, epi) && Linked(m, list) && b in blocks && m[b].used && PayloadOnly(m, m', b)
    requires forall y | y in list :: y in blocks && !m[y].used
    ensures Linked(m', list)
  {
    forall y | y in list ensures y in blocks && (Next(m, b) <= y + 1 || Next(m, y) <= b + 1) {
      assert Next(m, b) <= y || Next(m, y) <= b;
    }
    LinkedOutside(m, m', blocks, epi, list, b + 1, Next(m, b));
  }

  lemma PayloadBlock(m: Mem, m': Mem, blocks: set<nat>, epi: nat, b: nat, y: nat)
    requires Tiled(m, blocks, epi) && Tagged(m, blocks, epi) && Coalesced(m, blocks, epi)
    requires b in blocks && m[b].used && PayloadOnly(m, m', b) && y in blocks
    requires forall z | z in blocks || z == epi :: m'[z] == m[z]
    ensures TailTags(m', y) && (!m'[y].used ==> m'[Next(m', y)].used)
    ensures y != b ==> SamePayload(m, m', y)
  {
    assert TailTags(m, y) && Next(m', y) == Next(m, y);
    EndsBy(m, blocks, epi, y, epi);
    if y != b { assert Next(m, y) <= b || Next(m, b) <= y; }
  }

  function Value(w: Word): nat {
    4 * w.units + (if w.prev then 2 else 0) + (if w.used then 1 else 0)
  }

  function WordOf(v: nat): Word {
    Word(v / 4, v % 4 >= 2, v % 4 == 1 || v % 4 == 3)
  }

  function Scale(k: nat): nat {
    if k == 0 then 1 else if k == 1 then 0x100 else if k == 2 then 0x1_0000 else 0x100_0000
  }

  /** The byte at k = 0, 1, 2, 3 of a little-endian word. */
  function Byte(w: Word, k: nat): nat { Value(w) / Scale(k) % 256 }

  /** The word with its k lowest bytes cleared. */
  function Cleared(w: Word, k: nat): Word { WordOf(Value(w) - Value(w) % Scale(k)) }

  lemma WordRoundTrip(v: nat, w: Word)
    ensures Value(WordOf(v)) == v && WordOf(Value(w)) == w
  {
  }

  lemma ScaledByte(q: nat, k: nat, j: nat)
    requires j < k <= 3
    ensures Scale(k) * q / Scale(j) % 256 == 0
  {
    var x := if k == j + 1 then q else if k == j + 2 then 0x100 * q else 0x1_0000 * q;
    assert Scale(k) * q / Scale(j) == 256 * x;
    MultipleOf256(x);
  }

  lemma MultipleOf256(x: nat)
    ensures 256 * x % 256 == 0
  {
  }

  lemma MultipleBelow(v: nat, k: nat)
    ensures v - v % Scale(k) == Scale(k) * (v / Scale(k))
  {
    if k == 0 {} else if k == 1 {} else if k == 2 {} else {}
  }

  lemma Quotient(n: nat, d: nat, q: nat)
    requires 0 < d && d * q <= n < d * q + d
    ensures n / d == q
  {
    var r := n / d;
    assert n == d * r + n % d;
    if r < q { Monotone(d, r + 1, q); } else if q < r { Monotone(d, q + 1, r); }
  }

  lemma Monotone(d: nat, x: nat, y: nat)
    requires x <= y
    ensures d * x <= d * y
  {
  }

  /** Dividing by d * c forgets the remainder by d. */
  lemma Coarser(v: nat, d: nat, c: nat, q: nat, t: nat)
    requires 0 < d && 0 < c && d * q <= v < d * q + d && c * t <= q < c * t + c
    ensures 0 < d * c && d * q / (d * c) == t == v / (d * c)
  {
    Monotone(d, c * t, q);
    Monotone(d, q + 1, c * t + c);
    assert d * (c * t) == (d * c) * t && d * (c * t + c) == (d * c) * t + d * c && d * (q + 1) == d * q + d;
    Quotient(d * q, d * c, t);
    Quotient(v, d * c, t);
  }

  /** Bytes from k on do not depend on the k lowest. */
  lemma HigherByte(v: nat, k: nat, j: nat)
    requires k <= j <= 3
    ensures Scale(k) * (v / Scale(k)) / Scale(j) == v / Scale(j)
  {
    var c := Scale(j) / Scale(k);
    assert Scale(k) * c == Scale(j) && c > 0 by {
      if k == 0 {} else if k == 1 { if j == 1 {} else if j == 2 {} else {} } else if k == 2 { if j == 2 {} else {} }
          else {}
    }
    var q := v / Scale(k);
    MultipleBelow(v, k);
    Coarser(v, Scale(k), c, q, q / c);
  }

  /** The k lowest bytes become 0, the others stay. */
  lemma ClearedBytes(w: Word, k: nat, j: nat)
    requires k <= 3 && j <= 3
    ensures Byte(Cleared(w, k), j) == if j < k then 0 else Byte(w, j)
  {
    MultipleBelow(Value(w), k);
    WordRoundTrip(Value(w) - Value(w) % Scale(k), w);
    if j < k { ScaledByte(Value(w) / Scale(k), k, j); } else { HigherByte(Value(w), k, j); }
  }

  /** The first `size` bytes from word p on are zero. */
  ghost predicate ZeroedBytes(m: Mem, p: nat, size: nat)
  {
    forall j {:trigger j / 4} | 0 <= j < size :: p + j / 4 < |m| && Byte(m[p + j / 4], j % 4) == 0
  }

  lemma ZeroedWords(m: Mem, p: nat, size: nat, last: Word)
    requires p + (size + 3) / 4 <= |m|
    requires forall i | p <= i < p + size / 4 :: m[i] == Link(0)
    requires size % 4 != 0 ==> m[p + size / 4] == Cleared(last, size % 4)
    ensures ZeroedBytes(m, p, size)
  {
    forall j | 0 <= j < size ensures p + j / 4 < |m| && Byte(m[p + j / 4], j % 4) == 0 {
      if j / 4 < size / 4 {
        assert m[p + j / 4] == Link(0);
        assert Value(Link(0)) == 0;
      } else {
        ClearedBytes(last, size % 4, j % 4);
      }
    }
  }

  lemma AllocatedWritten(m0: Mem, blocks0: set<nat>, m1: Mem, m: Mem, blocks: set<nat>, b: nat, alloc: nat)
    requires Allocated(m0, blocks0, m1, blocks, b, alloc) && |m0| <= |m1| == |m|
    requires Live(m, blocks) == Live(m1, blocks) && LiveKept(m1, m, blocks - {b}) && m[b] == m1[b]
    ensures Allocated(m0, blocks0, m, blocks, b, alloc)
  {
    forall y | y in blocks0 && m0[y].used ensures SamePayload(m0, m, y) {
      assert y in Live(m0, blocks0);
      assert y in Live(m1, blocks);
      assert SamePayload(m0, m1, y) && SamePayload(m1, m, y);
    }
  }

  /** The blocks in `gone` are no longer handed out; the others are as they were. */
  ghost predicate Freed(m0: Mem, blocks0: set<nat>, m: Mem, blocks: set<nat>, gone: set<nat>)
  {
    && (forall y | y in blocks0 :: y < |m0|) && (forall y | y in blocks :: y < |m|)
    && Live(m, blocks) == Live(m0, blocks0) - gone
    && LiveKept(m0, m, blocks0 - gone)
  }

  lemma FreedBlock(m0: Mem, m1: Mem, blocks0: set<nat>, m: Mem, blocks: set<nat>, b: nat)
    requires (forall y | y in blocks0 :: y < |m0|) && b in blocks0 && m1 == m0[b := m0[b].(used := false)]
    requires LiveKept(m0, m1, blocks0 - {b}) && SameLive(m1, blocks0, m, blocks)
    ensures Freed(m0, blocks0, m, blocks, {b})
  {
    forall y | y in blocks0 - {b} && m0[y].used ensures SamePayload(m0, m, y) {
      assert SamePayload(m0, m1, y) && SamePayload(m1, m, y);
    }
  }

  lemma ReleasedUsed(m: Mem, blocks: set<nat>, list: seq<nat>, epi: nat, b: nat) returns (m': Mem)
    requires WellFormed(m, blocks, list, epi) && b in blocks && m[b].used
    ensures b + m[b].units < |m|
    ensures m' == m[b := m[b].(used := false)] == m[b + 0 := Word(m[b].units - 0, m[b].prev, false)]
    ensures Releasing(m', blocks + {b + 0}, list, epi, b + 0) && blocks + {b + 0} == blocks
    ensures LiveKept(m, m', blocks - {b})
  {
    m' := m[b := m[b].(used := false)];
    EndsBy(m, blocks, epi, b, epi);
    ReleaseUsed(m, blocks, list, epi, b);
    assert blocks + {b + 0} == blocks;
  }

  // ------------------------------------------------------------- reallocation

  /** The blocks of `gone` have been unlinked from `list`, leaving `list'`. */
  ghost predicate Unlinked(m: Mem, m': Mem, list: seq<nat>, list': seq<nat>, gone: set<nat>)
  {
    && LinksOnly(m, m', list) && Spaced(list') && Linked(m', list')
    && forall y :: y in list' <==> y in list && y !in gone
  }

  lemma UnlinkedOne(m: Mem, m': Mem, list: seq<nat>, k: nat)
    requires Spaced(list) && k < |list| && LinksOnly(m, m', list) && Linked(m', Without(list, k))
    ensures Unlinked(m, m', list, Without(list, k), {list[k]})
  {
    WithoutSpaced(list, k);
  }

  lemma UnlinkedTwo(m: Mem, m1: Mem, m2: Mem, list: seq<nat>, list1: seq<nat>, list2: seq<nat>, x: nat, y: nat)
    requires Unlinked(m, m1, list, list1, {x}) && Unlinked(m1, m2, list1, list2, {y})
    ensures Unlinked(m, m2, list, list2, {x, y})
  {
  }

  /** Everything on the list inside [p, e) is unlinked, and besides links only
      words strictly inside (p, e) may have changed since m. */
  ghost predicate Vacated(m: Mem, m': Mem, blocks: set<nat>, list: seq<nat>, list': seq<nat>, epi: nat, p: nat, e: nat)
  {
    && WellFormed(m, blocks, list, epi) && |m'| == |m|
    && p in blocks && (e in blocks || e == epi) && p < e && m'[p] == m[p]
    && (forall i | 0 < i < |m| && !(p <= i < e) && i - 1 !in list && i - 2 !in list :: m'[i] == m[i])
    && Spaced(list') && Linked(m', list')
    && (forall y :: y in list' <==> y in list && !(p <= y < e))
  }

  lemma VacatedRegion(m: Mem, m': Mem, blocks: set<nat>, list: seq<nat>, list': seq<nat>, epi: nat, p: nat, e: nat,
                      gone: set<nat>)
    requires WellFormed(m, blocks, list, epi) && Unlinked(m, m', list, list', gone)
    requires p in blocks && (e in blocks || e == epi) && p < e
    requires forall y | y in blocks && !m[y].used :: p <= y < e <==> y in gone
    ensures Vacated(m, m', blocks, list, list', epi, p, e)
  {
    LinksKeep(m, m', blocks, epi, list);
  }

  lemma VacatedHeaders(m: Mem, m': Mem, blocks: set<nat>, list: seq<nat>, list': seq<nat>, epi: nat, p: nat, e: nat)
    requires Vacated(m, m', blocks, list, list', epi, p, e)
    ensures forall y | y in list' :: y in blocks && m'[y] == m[y] && (Next(m, y) <= p || e <= y)
  {
    RegionHeaders(m, m', blocks, list, epi, p, e);
    forall y | y in list' ensures Next(m, y) <= p || e <= y {}
  }

  /** Overwriting words strictly inside the vacated region keeps it vacated. */
  lemma VacatedWrite(m: Mem, m1: Mem, m': Mem, blocks: set<nat>, list: seq<nat>, list': seq<nat>, epi: nat, p: nat,
                     e: nat)
    requires Vacated(m, m1, blocks, list, list', epi, p, e) && |m'| == |m1|
    requires forall i | 0 <= i < |m1| && !(p < i < e) :: m'[i] == m1[i]
    ensures Vacated(m, m', blocks, list, list', epi, p, e)
  {
    VacatedHeaders(m, m1, blocks, list, list', epi, p, e);
    forall i | 0 <= i < |list'| && list'[i] + 2 < |m1|
      ensures m'[list'[i] + 1] == m1[list'[i] + 1] && m'[list'[i] + 2] == m1[list'[i] + 2]
    {
      assert list'[i] in list';
    }
    LinkedFrame(m1, m', list');
  }

  /** A used header over the vacated region claims it. */
  lemma VacatedClaim(m: Mem, m': Mem, blocks: set<nat>, list: seq<nat>, list': seq<nat>, epi: nat, p: nat, e: nat)
    requires Vacated(m, m', blocks, list, list', epi, p, e)
    ensures var m1 := m'[p := Word(e - p, m[p].prev, true)];
      && Claiming(m1, Merged(blocks, p, e), list', epi, p)
      && forall b {:trigger SamePayload(m, m1, b)} | b in blocks && m[b].used && !(p <= b < e) :: SamePayload(m, m1, b)
  {
    VacatedHeaders(m, m', blocks, list, list', epi, p, e);
    var m1 := m'[p := Word(e - p, m[p].prev, true)];
    forall i | 0 <= i < |list'| && list'[i] + 2 < |m'|
      ensures m1[list'[i] + 1] == m'[list'[i] + 1] && m1[list'[i] + 2] == m'[list'[i] + 2]
    {
      assert list'[i] in list';
    }
    LinkedFrame(m', m1, list');
    ClaimRegion(m, m1, blocks, list, list', epi, p, e);
  }

  function Smaller(x: nat, y: nat): nat { if x < y then x else y }

  /** Block b' of m starts with the first n words of block b of m0, headers apart. */
  ghost predicate SameWords(m0: Mem, b: nat, m: Mem, b': nat, n: nat)
  {
    1 <= n && b + n <= |m0| && b' + n <= |m| && m[b' + 1..b' + n] == m0[b + 1..b + n]
  }

  /** The used block b has become the used block b', with at least `alloc` words
      and its payload up to the smaller size; nothing else in use has changed. */
  ghost predicate Reallocated(m0: Mem, blocks0: set<nat>, m: Mem, blocks: set<nat>, b: nat, b': nat, alloc: nat)
  {
    && (forall y | y in blocks0 :: y < |m0|) && (forall y | y in blocks :: y < |m|)
    && b in blocks0 && b' in blocks && alloc <= m[b'].units
    && Live(m, blocks) == Live(m0, blocks0) - {b} + {b'}
    && LiveKept(m0, m, blocks0 - {b})
    && SameWords(m0, b, m, b', Smaller(m0[b].units, alloc))
  }

  lemma RegionLive(m: Mem, m': Mem, blocks: set<nat>, list: seq<nat>, list': seq<nat>, epi: nat, p: nat, e: nat,
                   b: nat, m1: Mem)
    requires Vacated(m, m', blocks, list, list', epi, p, e)
    requires b in blocks && m[b].used && p <= b < e
    requires forall y | y in blocks && m[y].used && p <= y < e :: y == b
    requires m1 == m'[p := Word(e - p, m[p].prev, true)]
    ensures forall y | y in Merged(blocks, p, e) :: y < |m1|
    ensures Live(m1, Merged(blocks, p, e)) == Live(m, blocks) - {b} + {p}
  {
    RegionHeaders(m, m', blocks, list, epi, p, e);
    var blocks1 := Merged(blocks, p, e);
    forall y | y in blocks1 ensures m1[y].used <==> y == p || m[y].used {}
    forall y | y in Live(m, blocks) && y != b ensures y in blocks1 {}
  }

  lemma RegionKept(m: Mem, m': Mem, blocks: set<nat>, list: seq<nat>, list': seq<nat>, epi: nat, p: nat, e: nat,
                   b: nat, m1: Mem, m2: Mem)
    requires Vacated(m, m', blocks, list, list', epi, p, e) && b in blocks
    requires forall y | y in blocks && m[y].used && p <= y < e :: y == b
    requires m1 == m'[p := Word(e - p, m[p].prev, true)]
    requires LiveKept(m1, m2, Merged(blocks, p, e) - {p})
    ensures LiveKept(m, m2, blocks - {b})
  {
    VacatedClaim(m, m', blocks, list, list', epi, p, e);
    forall y | y in blocks - {b} && m[y].used ensures SamePayload(m, m2, y) {
      assert SamePayload(m, m1, y);
      assert y in Merged(blocks, p, e) - {p} && m1[y].used && SamePayload(m1, m2, y);
    }
  }

  lemma ReallocatedRegion(m: Mem, m': Mem, blocks: set<nat>, list: seq<nat>, list': seq<nat>, epi: nat, p: nat, e: nat,
                          b: nat,
                          m1: Mem, m2: Mem, blocks2: set<nat>, alloc: nat)
    requires Vacated(m, m', blocks, list, list', epi, p, e)
    requires b in blocks && m[b].used && p <= b < e && MIN_BLOCK <= m[b].units <= alloc
    requires forall y | y in blocks && m[y].used && p <= y < e :: y == b
    requires SameWords(m, b, m', p, m[b].units)
    requires m1 == m'[p := Word(e - p, m[p].prev, true)]
    requires Placed(m1, Merged(blocks, p, e), m2, blocks2, p, alloc)
    ensures Reallocated(m, blocks, m2, blocks2, b, p, alloc)
  {
    RegionLive(m, m', blocks, list, list', epi, p, e, b, m1);
    RegionKept(m, m', blocks, list, list', epi, p, e, b, m1, m2);
    var n := m[b].units;
    assert m2[p + 1..p + n] == m'[p + 1..p + n];
  }

  /** Region [p, e) is vacated for the used block b, whose payload is now at q. */
  ghost predicate Moving(m: Mem, m': Mem, blocks: set<nat>, list: seq<nat>, list': seq<nat>, epi: nat, p: nat, e: nat,
                         b: nat, q: nat, alloc: nat)
  {
    && Vacated(m, m', blocks, list, list', epi, p, e)
    && b in blocks && m[b].used && p <= b < e && MIN_BLOCK <= m[b].units <= alloc <= e - p
    && (forall y | y in blocks && m[y].used && p <= y < e :: y == b)
    && SameWords(m, b, m', q, m[b].units)
  }

  /** The blocks of [x, Next(x)) are x alone. */
  lemma OneBlock(m: Mem, blocks: set<nat>, epi: nat, x: nat)
    requires Tiled(m, blocks, epi) && x in blocks
    ensures x < Next(m, x) && (Next(m, x) in blocks || Next(m, x) == epi)
    ensures forall y | y in blocks :: x <= y < Next(m, x) <==> y == x
  {
    forall y | y in blocks && x < y ensures Next(m, x) <= y {}
  }

  /** The free block before b is the one its footer points to. */
  lemma FreePredecessor(m: Mem, blocks: set<nat>, list: seq<nat>, epi: nat, b: nat) returns (k: nat)
    requires WellFormed(m, blocks, list, epi) && b in blocks && !m[b].prev
    ensures 1 <= b && m[b - 1].units <= b && k < |list| && list[k] == b - m[b - 1].units
    ensures list[k] in blocks && !m[list[k]].used && Next(m, list[k]) == b && m[list[k]].units == m[b - 1].units
  {
    var p := Predecessor(m, blocks, epi, b, 1);
    assert TailTags(m, p);
    assert p in list;
    k :| 0 <= k < |list| && list[k] == p;
  }

  lemma MovingNext(m: Mem, m': Mem, blocks: set<nat>, list: seq<nat>, list': seq<nat>, epi: nat, b: nat, alloc: nat)
    requires WellFormed(m, blocks, list, epi) && b in blocks && m[b].used
    requires Next(m, b) in blocks && !m[Next(m, b)].used && Unlinked(m, m', list, list', {Next(m, b)})
    requires m[b].units <= alloc <= Next(m, Next(m, b)) - b
    ensures Moving(m, m', blocks, list, list', epi, b, Next(m, Next(m, b)), b, b, alloc)
  {
    var n := Next(m, b);
    OneBlock(m, blocks, epi, b);
    OneBlock(m, blocks, epi, n);
    VacatedRegion(m, m', blocks, list, list', epi, b, Next(m, n), {n});
    UnlinkedPayload(m, m', blocks, list, epi, b);
  }

  lemma UnlinkedPayload(m: Mem, m': Mem, blocks: set<nat>, list: seq<nat>, epi: nat, b: nat)
    requires WellFormed(m, blocks, list, epi) && b in blocks && m[b].used && LinksOnly(m, m', list)
    ensures SameWords(m, b, m', b, m[b].units)
  {
    LinksKeep(m, m', blocks, epi, list);
    assert SamePayload(m, m', b);
    assert m'[b + 1..b + m[b].units] == m[b + 1..b + m[b].units];
  }

  lemma MovingPrev(m: Mem, m': Mem, blocks: set<nat>, list: seq<nat>, list': seq<nat>, epi: nat, p: nat, b: nat,
                   alloc: nat)
    requires WellFormed(m, blocks, list, epi) && b in blocks && m[b].used
    requires p in blocks && !m[p].used && Next(m, p) == b && Unlinked(m, m', list, list', {p})
    requires m[b].units <= alloc <= Next(m, b) - p
    ensures Moving(m, m', blocks, list, list', epi, p, Next(m, b), b, b, alloc)
  {
    OneBlock(m, blocks, epi, p);
    OneBlock(m, blocks, epi, b);
    VacatedRegion(m, m', blocks, list, list', epi, p, Next(m, b), {p});
    UnlinkedPayload(m, m', blocks, list, epi, b);
  }

  lemma MovingBoth(m: Mem, m': Mem, blocks: set<nat>, list: seq<nat>, list': seq<nat>, epi: nat, p: nat, b: nat,
                   alloc: nat)
    requires WellFormed(m, blocks, list, epi) && b in blocks && m[b].used
    requires p in blocks && !m[p].used && Next(m, p) == b
    requires Next(m, b) in blocks && !m[Next(m, b)].used && Unlinked(m, m', list, list', {Next(m, b), p})
    requires m[b].units <= alloc <= Next(m, Next(m, b)) - p
    ensures Moving(m, m', blocks, list, list', epi, p, Next(m, Next(m, b)), b, b, alloc)
  {
    var n := Next(m, b);
    OneBlock(m, blocks, epi, p);
    OneBlock(m, blocks, epi, b);
    OneBlock(m, blocks, epi, n);
    VacatedRegion(m, m', blocks, list, list', epi, p, Next(m, n), {n, p});
    UnlinkedPayload(m, m', blocks, list, epi, b);
  }

  lemma SameWordsTrans(m: Mem, b: nat, m1: Mem, b1: nat, m2: Mem, b2: nat, n: nat)
    requires SameWords(m, b, m1, b1, n) && SameWords(m1, b1, m2, b2, n)
    ensures SameWords(m, b, m2, b2, n)
  {
  }

  lemma MovingClaim(m: Mem, m': Mem, blocks: set<nat>, list: seq<nat>, list': seq<nat>, epi: nat, p: nat, e: nat,
                    b: nat, alloc: nat) returns (m1: Mem)
    requires Moving(m, m', blocks, list, list', epi, p, e, b, p, alloc)
    ensures p < e && p < |m'| && m1 == m'[p := Word(e - p, m'[p].prev, true)] && MIN_BLOCK <= alloc <= e - p
    ensures Claiming(m1, Merged(blocks, p, e), list', epi, p)
  {
    m1 := m'[p := Word(e - p, m'[p].prev, true)];
    VacatedClaim(m, m', blocks, list, list', epi, p, e);
  }

  lemma MovingDone(m: Mem, m': Mem, blocks: set<nat>, list: seq<nat>, list': seq<nat>, epi: nat, p: nat, e: nat,
                   b: nat, alloc: nat,
                   m1: Mem, m2: Mem, blocks2: set<nat>)
    requires Moving(m, m', blocks, list, list', epi, p, e, b, p, alloc)
    requires m1 == m'[p := Word(e - p, m'[p].prev, true)]
    requires Placed(m1, Merged(blocks, p, e), m2, blocks2, p, alloc)
    ensures Reallocated(m, blocks, m2, blocks2, b, p, alloc)
  {
    ReallocatedRegion(m, m', blocks, list, list', epi, p, e, b, m1, m2, blocks2, alloc);
  }

  lemma ClaimAgain(m: Mem, blocks: set<nat>, list: seq<nat>, epi: nat, b: nat)
    requires WellFormed(m, blocks, list, epi) && b in blocks && m[b].used
    ensures m[b := Word(m[b].units, m[b].prev, true)] == m && Claiming(m, blocks, list, epi, b)
  {
  }

  lemma ReallocatedShrunk(m: Mem, blocks: set<nat>, m': Mem, blocks': set<nat>, b: nat, alloc: nat)
    requires b < |m| && MIN_BLOCK <= alloc <= m[b].units && m[b].used && Placed(m, blocks, m', blocks', b, alloc)
    ensures Reallocated(m, blocks, m', blocks', b, b, alloc)
  {
    assert b in Live(m, blocks);
    assert m'[b + 1..b + alloc] == m[b + 1..b + alloc];
  }

  lemma ReallocatedSame(m: Mem, blocks: set<nat>, list: seq<nat>, epi: nat, b: nat, alloc: nat)
    requires WellFormed(m, blocks, list, epi) && b in blocks && m[b].used && MIN_BLOCK <= alloc <= m[b].units
    ensures Reallocated(m, blocks, m, blocks, b, b, alloc)
  {
    SameLiveSelf(m, blocks, list, epi);
    EndsBy(m, blocks, epi, b, epi);
    assert b in Live(m, blocks);
  }

  /** The words of block b and of its free neighbours. */
  ghost function Room(m: Mem, b: nat): nat
    requires 1 <= b < |m| && Next(m, b) < |m|
  {
    m[b].units + (if m[Next(m, b)].used then 0 else m[Next(m, b)].units) + (if m[b].prev then 0 else m[b - 1].units)
  }

  /** Block b cannot get `alloc` words from itself and its free neighbours, or it,
      or the free block after it, is the last of the heap. */
  ghost predicate Cramped(m: Mem, epi: nat, b: nat, alloc: nat)
  {
    && 1 <= b < |m| && Next(m, b) <= epi < |m|
    && m[b].units < alloc
    && var n := Next(m, b);
       n == epi || (n < |m| && !m[n].used && Next(m, n) == epi) || Room(m, b) < alloc
  }

  /** How krealloc enlarges a block in place. */
  datatype Plan = WithNext(next: nat, total: nat) | WithBoth(prev: nat, next: nat, total: nat) | WithPrev(prev: nat,
                           total: nat) | NoRoom

  ghost predicate Sound(m: Mem, blocks: set<nat>, list: seq<nat>, epi: nat, b: nat, alloc: nat, plan: Plan)
    requires WellFormed(m, blocks, list, epi) && b in blocks
  {
    match plan
    case WithNext(next, total) => next == Next(m, b) && next in list && total == m[b].units + m[next].units >= alloc
    case WithBoth(prev, next, total) =>
      && next == Next(m, b) && next in list && prev in list && Next(m, prev) == b
      && total == m[b].units + m[next].units + m[prev].units >= alloc
    case WithPrev(prev, total) => prev in list && Next(m, prev) == b && total == m[b].units + m[prev].units >= alloc
    case NoRoom => Cramped(m, epi, b, alloc)
  }

  /** Once nothing is in use, the heap is one free block between the list head
      and the epilogue. */
  lemma NothingLive(m: Mem, blocks: set<nat>, list: seq<nat>, epi: nat)
    requires WellFormed(m, blocks, list, epi) && Live(m, blocks) == {}
    ensures blocks == {1} && list == [1] && m[1].units == epi - 1
  {
    assert 1 !in Live(m, blocks);
    var e := Next(m, 1);
    assert m[e].used;
    assert e !in Live(m, blocks);
    assert e == epi;
    OneBlock(m, blocks, epi, 1);
    assert 1 in list && forall y | y in list :: y == 1;
    OneListed(list);
  }

  lemma OneListed(list: seq<nat>)
    requires Spaced(list) && 1 in list && forall y | y in list :: y == 1
    ensures list == [1]
  {
    forall i | 0 <= i < |list| ensures list[i] == 1 { assert list[i] in list; }
    assert |list| > 1 ==> Apart(list[0], list[1]);
  }

  lemma NextIn(m: Mem, blocks: set<nat>, list: seq<nat>, epi: nat, b: nat)
    requires WellFormed(m, blocks, list, epi) && b in blocks
    ensures 1 <= b && b < Next(m, b) <= epi
    ensures if m[Next(m, b)].units == 0 then Next(m, b) == epi else Next(m, b) in blocks && Next(m, Next(m, b)) <= epi
    ensures !m[Next(m, b)].used ==> Next(m, b) in list
  {
    EndsBy(m, blocks, epi, b, epi);
    assert Next(m, b) in blocks || Next(m, b) == epi;
    if Next(m, b) in blocks { EndsBy(m, blocks, epi, Next(m, b), epi); }
  }

  /** Payloads of different used blocks do not overlap, and all lie between the
      list head and the epilogue. */
  lemma PayloadsDisjoint(m: Mem, blocks: set<nat>, list: seq<nat>, epi: nat, b: nat, c: nat)
    requires WellFormed(m, blocks, list, epi) && b in Live(m, blocks) && c in Live(m, blocks) && b != c
    ensures 1 <= b < Next(m, b) <= epi && 1 <= c < Next(m, c) <= epi
    ensures Next(m, b) <= c || Next(m, c) <= b
  {
    EndsBy(m, blocks, epi, b, epi);
    EndsBy(m, blocks, epi, c, epi);
  }

  lemma FirstHeap(m: Mem, epi: nat)
    requires 5 <= epi < |m| && m[0] == Link(1) && m[1] == Word(epi - 1, true, false)
    requires m[2] == Link(NULL) && m[epi - 1].units == epi - 1 && m[epi] == Word(0, false, true)
    ensures WellFormed(m, {1}, [1], epi) && Live(m, {1}) == {}
  {
    assert Next(m, 1) == epi;
    assert TailTags(m, 1);
    assert NodeLinks(m, [1], 0);
  }

  /** Some listed block has at least so many words. */
  ghost predicate Roomy(m: Mem, list: seq<nat>, words: nat) {
    exists i {:trigger LargeAt(m, list, i, words)} :: 0 <= i < |list| && LargeAt(m, list, i, words)
  }

  ghost predicate LargeAt(m: Mem, list: seq<nat>, i: nat, words: nat)
    requires i < |list|
  {
    list[i] < |m| && m[list[i]].units >= words
  }

  lemma RoomyMember(m: Mem, list: seq<nat>, total: nat, words: nat)
    requires words <= total && exists c :: c in list && c < |m| && m[c].units >= total
    ensures Roomy(m, list, words)
  {
    var c :| c in list && c < |m| && m[c].units >= total;
    var i :| 0 <= i < |list| && list[i] == c;
    assert LargeAt(m, list, i, words);
  }

  lemma RoomyBound(m: Mem, blocks: set<nat>, list: seq<nat>, epi: nat, words: nat)
    requires WellFormed(m, blocks, list, epi) && Roomy(m, list, words)
    ensures words < |m|
  {
    var i :| 0 <= i < |list| && LargeAt(m, list, i, words);
    assert list[i] in list;
    EndsBy(m, blocks, epi, list[i], epi);
  }

  // ------------------------------------------------------------ what clients see

  /** The payload words of block b. */
  ghost function Content(m: Mem, b: nat): Mem {
    if b < |m| && m[b].units >= 1 && Next(m, b) <= |m| then m[b + 1..Next(m, b)] else []
  }

  lemma SameContent(m: Mem, m': Mem, b: nat)
    requires SamePayload(m, m', b)
    ensures Content(m', b) == Content(m, b)
  {
  }

  /** What a client does: allocate, overwrite a word of a payload it holds, or
      free one of the payloads it holds. */
  datatype Request = Malloc(size: nat) | Write(handle: nat, index: nat, word: Word) | Free(handle: nat)

  /** Done; not tried, since a size would wrap; or the kernel panics for want of memory. */
  datatype Answer = Done | Wraps | Halts

  /** The heap as its client sees it: payloads that have nothing to do with each other.
      A new one has at least the size asked for, all of its bytes 0. */
  ghost predicate Serves(data: seq<Mem>, request: Request, answer: Answer, data': seq<Mem>) {
    match request
    case Malloc(size) =>
      if size == 0 || answer != Done then data' == data
      else
        && |data'| == |data| + 1 && data'[..|data|] == data
        && size <= 4 * |data'[|data|]| && ZeroedBytes(data'[|data|], 0, size)
    case Write(k, i, w) => data' == if k < |data| && i < |data[k]| then data[k := data[k][i := w]] else data
    case Free(k) => data' == if k < |data| then data[..k] + data[k + 1..] else data
  }

  ghost predicate Entry(requests: seq<Request>, answers: seq<Answer>, log: seq<seq<Mem>>, i: nat)
    requires i < |requests| && i < |answers| && i + 1 < |log|
  {
    Serves(log[i], requests[i], answers[i], log[i + 1])
  }

  /** A client's view over a run: log[i] before request i, and the last one at the end. */
  ghost predicate Story(requests: seq<Request>, answers: seq<Answer>, log: seq<seq<Mem>>) {
    && |answers| <= |requests| && |log| == |answers| + 1 && log[0] == []
    && forall i {:trigger Entry(requests, answers, log, i)} | 0 <= i < |answers| :: Entry(requests, answers, log, i)
  }

  lemma StoryNext(requests: seq<Request>, answers: seq<Answer>, log: seq<seq<Mem>>, answer: Answer, data: seq<Mem>)
    requires Story(requests, answers, log) && |answers| < |requests|
    requires Serves(log[|answers|], requests[|answers|], answer, data)
    ensures Story(requests, answers + [answer], log + [data])
  {
    forall i | 0 <= i < |answers| + 1 ensures Entry(requests, answers + [answer], log + [data], i) {
      if i < |answers| { assert Entry(requests, answers, log, i); }
    }
  }

  lemma ZeroedContent(m: Mem, b: nat, size: nat)
    requires b < |m| && size + 4 <= 4 * m[b].units && Next(m, b) <= |m| && ZeroedBytes(m, b + 1, size)
    ensures size <= 4 * |Content(m, b)| && ZeroedBytes(Content(m, b), 0, size)
  {
    var d := Content(m, b);
    forall j {:trigger j / 4} | 0 <= j < size ensures 0 + j / 4 < |d| && Byte(d[0 + j / 4], j % 4) == 0 {
      assert d[j / 4] == m[b + 1 + j / 4];
    }
  }

  lemma WrittenContent(m: Mem, b: nat, i: nat, w: Word, m': Mem)
    requires b < |m| && i + 1 < m[b].units && Next(m, b) <= |m| && m' == m[b + 1 + i := w]
    ensures i < |Content(m, b)| && Content(m', b) == Content(m, b)[i := w]
  {
  }

  /** Payload k of the client is the content of block held[k]. */
  ghost predicate Shows(m: Mem, held: seq<nat>, data: seq<Mem>) {
    |data| == |held| && forall k | 0 <= k < |held| :: Content(m, held[k]) == data[k]
  }

  lemma ShowsKept(m: Mem, m': Mem, blocks: set<nat>, held: seq<nat>, data: seq<Mem>, gone: set<nat>)
    requires (forall b | b in blocks :: b < |m|) && LiveKept(m, m', blocks - gone) && Shows(m, held, data)
    requires forall b | b in held :: b in Live(m, blocks) && b !in gone
    ensures Shows(m', held, data)
  {
    forall k | 0 <= k < |held| ensures Content(m', held[k]) == data[k] {
      assert held[k] in held;
      assert SamePayload(m, m', held[k]);
      SameContent(m, m', held[k]);
    }
  }

  /** The blocks a client holds are exactly the live ones, with the contents it expects. */
  ghost predicate Holds(m: Mem, blocks: set<nat>, held: seq<nat>, data: seq<Mem>) {
    && (forall b | b in blocks :: b < |m|) && (forall i, j | 0 <= i < j < |held| :: held[i] != held[j])
    && (forall b {:trigger b in held} {:trigger b in Live(m, blocks)} :: b in held <==> b in Live(m, blocks))
        && Shows(m, held, data)
  }

  /** What the client holds under one name. */
  lemma HeldBlock(m: Mem, blocks: set<nat>, epi: nat, held: seq<nat>, data: seq<Mem>, k: nat)
    requires Holds(m, blocks, held, data) && Tiled(m, blocks, epi) && k < |held|
    ensures held[k] in Live(m, blocks) && held[k] < |m| && Next(m, held[k]) <= |m| && m[held[k]].units >= 1
    ensures |data[k]| == m[held[k]].units - 1
  {
    assert held[k] in held;
    EndsBy(m, blocks, epi, held[k], epi);
  }

  /** After a write to block held[k]. */
  lemma HoldsWritten(m: Mem, m': Mem, blocks: set<nat>, held: seq<nat>, data: seq<Mem>, k: nat, i: nat, w: Word)
    requires Holds(m, blocks, held, data) && k < |held| && held[k] < |m| && |m'| == |m|
    requires LiveKept(m, m', blocks - {held[k]}) && Live(m', blocks) == Live(m, blocks)
    requires i + 1 < m[held[k]].units && Next(m, held[k]) <= |m| && m' == m[held[k] + 1 + i := w]
    ensures i < |data[k]| && Holds(m', blocks, held, data[k := data[k][i := w]])
  {
    WrittenContent(m, held[k], i, w, m');
    forall x | 0 <= x < |held| && x != k ensures Content(m', held[x]) == data[x] {
      assert held[x] in held && held[x] != held[k];
      assert SamePayload(m, m', held[x]);
      SameContent(m, m', held[x]);
    }
  }

  /** After an allocation of block b. */
  lemma HoldsNew(m: Mem, blocks: set<nat>, m': Mem, blocks': set<nat>, epi: nat, held: seq<nat>, data: seq<Mem>,
                 b: nat, alloc: nat, size: nat)
    requires Allocated(m, blocks, m', blocks', b, alloc) && Tiled(m', blocks', epi) && size + 4 <= 4 * alloc
    requires ZeroedBytes(m', b + 1, size)
    requires Holds(m, blocks, held, data) && size > 0
    ensures Holds(m', blocks', held + [b], data + [Content(m', b)])
    ensures Serves(data, Malloc(size), Done, data + [Content(m', b)])
  {
    EndsBy(m', blocks', epi, b, epi);
    ZeroedContent(m', b, size);
    ShowsKept(m, m', blocks, held, data, {});
  }

  /** After block held[k] is freed. */
  lemma HoldsFreed(m: Mem, blocks: set<nat>, m': Mem, blocks': set<nat>, held: seq<nat>, data: seq<Mem>, k: nat)
    requires Holds(m, blocks, held, data) && k < |held| && Freed(m, blocks, m', blocks', {held[k]})
    ensures Holds(m', blocks', Without(held, k), data[..k] + data[k + 1..])
  {
    var held', data' := Without(held, k), data[..k] + data[k + 1..];
    forall b ensures b in held' <==> b in held && b != held[k] {
      if b in held && b != held[k] {
        var j :| 0 <= j < |held| && held[j] == b;
        assert held'[if j < k then j else j - 1] == b;
      }
    }
    ShowsKept(m, m', blocks, held', data', {held[k]});
  }
}
