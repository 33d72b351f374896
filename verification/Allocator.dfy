/**
 The kernel heap allocator (mem/mm.c over mem/mem.c): first fit over an explicit
 LIFO free list, boundary tags, splitting, two-sided coalescing, growth by pages.
 */
module Allocator {
  import opened Basics
  import opened HeapModel
  import opened Sizes

  const MAX_HEAP_WORDS: nat := 2 * 1024 * 1024 // MAX_HEAP, 8 MiB
  const INIT_WORDS: nat := 32 * 1024           // 32 pages

  datatype Reallocation = InPlace(offset: nat) | Elsewhere

  /** What kmalloc does: halt in mem_sbrk, return NULL, or return the payload at
      a word offset from mem_heap_lo(). */
  datatype Allocation = Panic | Null | Payload(offset: nat)

  /** The memory between kbrk_min and kbrk_max, as an array of words. */
  class Ram {
    const cells: array<Word>
    ghost var words: Mem

    ghost predicate Valid()
      reads this, cells
    {
      cells[..] == words
    }

    constructor (n: nat)
      ensures Valid() && |words| == n && fresh(cells)
    {
      cells := new Word[n](_ => Link(NULL));
      new;
      words := cells[..];
    }

    function Load(i: nat): (w: Word)
      requires Valid() && i < |words|
      reads this, cells
      ensures w == words[i]
    {
      cells[i]
    }

    method Store(i: nat, w: Word)
      requires Valid() && i < |words|
      modifies this, cells
      ensures Valid() && words == old(words)[i := w]
    {
      cells[i] := w;
      words := words[i := w];
    }
  }

  class Heap {
    const lo: nat // mem_heap_lo(), in bytes
    const ram: Ram
    var brk: nat  // kbrk - kbrk_min, in words
    ghost var blocks: set<nat>
    ghost var list: seq<nat>

    ghost predicate Valid()
      reads this, ram, ram.cells
    {
      && ram.Valid() && 1 < brk <= |ram.words| && brk % 1024 == 0
      && lo + 4 * |ram.words| < TWO32
      && WellFormed(ram.words, blocks, list, brk - 1)
    }

    /** init_mem and init_mm: 32 pages, one free block, an empty epilogue. */
    constructor (heapLo: nat)
      requires heapLo % PG_SIZE == 0 && heapLo + 4 * MAX_HEAP_WORDS < TWO32
      ensures Valid() && fresh(ram) && fresh(ram.cells) && lo == heapLo && |ram.words| == MAX_HEAP_WORDS
      ensures brk == INIT_WORDS && Live(ram.words, blocks) == {}
    {
      lo := heapLo;
      ram := new Ram(MAX_HEAP_WORDS);
      brk := INIT_WORDS;
      blocks, list := {1}, [1];
      new;
      var total := brk - 2;
      ram.Store(1, Word(total, true, false));
      ram.Store(2, Link(NULL));
      ram.Store(3, Link(NULL));
      ram.Store(1 + total - 1, ram.Load(1));
      ram.Store(brk - 1, Word(0, false, true));
      ram.Store(0, Link(1));
      FirstHeap(ram.words, brk - 1);
    }

    /** First fit: the first listed block of at least `size` words, or NULL. */
    method FindFreeBlock(size: nat) returns (b: nat)
      requires ram.Valid() && Linked(ram.words, list) && Spaced(list)
      ensures b == NULL ==> forall i | 0 <= i < |list| :: list[i] < |ram.words| && ram.words[list[i]].units < size
      ensures b != NULL ==> b in list && b < |ram.words| && ram.words[b].units >= size
      ensures b != NULL ==> forall i | 0 <= i < |list| && b !in list[..i + 1] ::
                  list[i] < |ram.words| && ram.words[list[i]].units < size
    {
      b := ram.Load(0).units;
      ghost var k := 0;
      while b != NULL
        invariant 0 <= k <= |list| && b == if k < |list| then list[k] else NULL
        invariant forall i | 0 <= i < k :: list[i] < |ram.words| && ram.words[list[i]].units < size
        decreases |list| - k
      {
        assert NodeLinks(ram.words, list, k);
        if ram.Load(b).units >= size {
          return;
        }
        b := ram.Load(b + 1).units;
        k := k + 1;
      }
    }

    method InsertFreeBlock(b: nat)
      requires ram.Valid() && Linked(ram.words, list) && Spaced([b] + list) && b + 3 < |ram.words|
      modifies ram, ram.cells, `list
      ensures ram.Valid() && list == [b] + old(list)
      ensures Linked(ram.words, list) && LinksOnly(old(ram.words), ram.words, list)
    {
      InsertLinks(ram.words, list, b);
      var oldHead := ram.Load(0).units;
      ram.Store(b + 1, Link(oldHead));
      if oldHead != NULL {
        ram.Store(oldHead + 2, Link(b));
      }
      ram.Store(0, Link(b));
      list := [b] + list;
    }

    method RemoveFreeBlock(b: nat, ghost k: nat)
      requires ram.Valid() && Linked(ram.words, list) && Spaced(list) && k < |list| && list[k] == b
      modifies ram, ram.cells, `list
      ensures ram.Valid() && list == Without(old(list), k) && Spaced(list)
      ensures Linked(ram.words, list) && LinksOnly(old(ram.words), ram.words, old(list))
    {
      RemoveLinks(ram.words, list, k);
      WithoutSpaced(list, k);
      var next := ram.Load(b + 1).units;
      var prev := ram.Load(b + 2).units;
      if next != NULL {
        ram.Store(next + 2, Link(prev));
      }
      if b == ram.Load(0).units {
        ram.Store(0, Link(next));
      } else {
        ram.Store(prev + 1, Link(next));
      }
      list := Without(list, k);
    }

    // ------------------------------------------------------------ coalescing

    /** Unlink list[k], a free neighbour of the region [lo, hi) around x. */
    method RemoveNeighbour(y: nat, ghost k: nat, ghost m0: Mem, ghost epi: nat, ghost lo: nat, ghost x: nat,
                           ghost hi: nat)
      requires ram.Valid() && Absorbing(m0, ram.words, blocks, list, epi, lo, x, hi)
      requires k < |list| && list[k] == y && y in blocks && (Next(ram.words, y) == lo || y == hi)
      modifies ram, ram.cells, `list
      ensures ram.Valid()
      ensures y != hi ==> Absorbing(m0, ram.words, blocks, list, epi, y, x, hi)
      ensures y == hi ==> Absorbing(m0, ram.words, blocks, list, epi, lo, x, Next(old(ram.words), y))
    {
      ghost var m, before := ram.words, list;
      RemoveFreeBlock(y, k);
      AbsorbOne(m0, m, ram.words, blocks, before, epi, lo, x, hi, k);
    }

    /** The backward loop of coalesce_free_block: unlink the free blocks that
        precede x. */
    method AbsorbPreceding(x: nat, oldSize: nat, ghost m0: Mem, ghost epi: nat) returns (newBlock: nat, newSize: nat)
      requires ram.Valid() && ram.words == m0 && Absorbing(m0, m0, blocks, list, epi, x, x, x + oldSize)
      modifies ram, ram.cells, `list
      ensures ram.Valid() && Absorbing(m0, ram.words, blocks, list, epi, newBlock, x, x + oldSize)
      ensures ram.words[newBlock].prev && newSize == x + oldSize - newBlock
    {
      newBlock, newSize := x, oldSize;
      while !ram.Load(newBlock).prev
        invariant ram.Valid() && Absorbing(m0, ram.words, blocks, list, epi, newBlock, x, x + oldSize)
        invariant newSize == x + oldSize - newBlock
        decreases newBlock
      {
        ghost var k := PrecedingListed(m0, ram.words, blocks, list, epi, newBlock, x, x + oldSize);
        var size := ram.Load(newBlock - 1).units;
        var freeBlock: nat := newBlock - size;
        RemoveNeighbour(freeBlock, k, m0, epi, newBlock, x, x + oldSize);
        newBlock, newSize := freeBlock, newSize + size;
      }
    }

    /** The forward loop of coalesce_free_block: unlink the free blocks that
        follow x. */
    method AbsorbFollowing(newBlock: nat, x: nat, oldSize: nat, size: nat, ghost m0: Mem, ghost epi: nat)
      returns (cursor: nat, newSize: nat)
      requires ram.Valid() && Absorbing(m0, ram.words, blocks, list, epi, newBlock, x, x + oldSize)
      requires size == x + oldSize - newBlock
      modifies ram, ram.cells, `list
      ensures ram.Valid() && Absorbing(m0, ram.words, blocks, list, epi, newBlock, x, cursor)
      ensures ram.words[cursor].used && newSize == cursor - newBlock
    {
      cursor, newSize := x + oldSize, size;
      while !ram.Load(cursor).used
        invariant ram.Valid() && Absorbing(m0, ram.words, blocks, list, epi, newBlock, x, cursor)
        invariant newSize == cursor - newBlock
        decreases epi - cursor
      {
        ghost var k := FollowingListed(m0, ram.words, blocks, list, epi, newBlock, x, cursor);
        var blockSize := ram.Load(cursor).units;
        RemoveNeighbour(cursor, k, m0, epi, newBlock, x, cursor);
        cursor, newSize := cursor + blockSize, newSize + blockSize;
      }
    }

    /** Merge the listed free block x with the free blocks before and after it;
        c is the block that x ends up in. */
    method CoalesceFreeBlock(x: nat, ghost epi: nat) returns (ghost c: nat)
      requires ram.Valid() && x in list && FormedAround(ram.words, blocks, list, epi, x)
      modifies ram, ram.cells, `list, `blocks
      ensures ram.Valid() && WellFormed(ram.words, blocks, list, epi)
      ensures SameLive(old(ram.words), old(blocks), ram.words, blocks)
      ensures c in list && ram.words[c].units >= old(ram.words)[x].units
    {
      ghost var m0, list0 := ram.words, list;
      var oldSize := ram.Load(x).units;
      AbsorbStart(m0, blocks, list, epi, x);
      var newBlock, size := AbsorbPreceding(x, oldSize, m0, epi);
      var cursor, newSize := AbsorbFollowing(newBlock, x, oldSize, size, m0, epi);
      c := newBlock;
      if newSize != oldSize {
        Join(newBlock, x, cursor, newSize, m0, list0, epi);
      } else {
        AbsorbedNone(m0, ram.words, blocks, list, epi, x, cursor);
      }
    }

    /** The end of coalesce_free_block: list the absorbed region as one block. */
    method Join(newBlock: nat, x: nat, cursor: nat, newSize: nat, ghost m0: Mem, ghost list0: seq<nat>, ghost epi: nat)
      requires ram.Valid() && Absorbing(m0, ram.words, blocks, list, epi, newBlock, x, cursor)
      requires FormedAround(m0, blocks, list0, epi, x)
      requires ram.words[newBlock].prev && ram.words[cursor].used && newSize == cursor - newBlock
      modifies ram, ram.cells, `list, `blocks
      ensures ram.Valid() && WellFormed(ram.words, blocks, list, epi)
      ensures SameLive(m0, old(blocks), ram.words, blocks)
      ensures newBlock in list && ram.words[newBlock].units == newSize
    {
      ghost var blocks0 := blocks;
      Unlink(newBlock, x, cursor, m0, list0, epi);
      ghost var m1 := ram.words;
      WriteJoined(newBlock, cursor, newSize, epi);
      ghost var m2 := ram.words;
      Enlist(newBlock, epi);
      SameLiveTrans(m0, blocks0, m1, blocks0, m2, blocks);
      SameLiveTrans(m0, blocks0, m2, blocks, ram.words, blocks);
    }

    method WriteJoined(c: nat, e: nat, size: nat, ghost epi: nat)
      requires ram.Valid() && Absorbed(ram.words, blocks, list, epi, c, e) && size == e - c
      modifies ram, ram.cells, `blocks
      ensures ram.Valid() && Unlisted(ram.words, blocks, list, epi, c) && Coalesced(ram.words, blocks, epi)
      ensures c + 3 < |ram.words| && ram.words[c].units == size
      ensures SameLive(old(ram.words), old(blocks), ram.words, blocks)
    {
      JoinUnlisted(ram.words, blocks, list, epi, c, e);
      ghost var m := ram.words;
      ram.Store(c, Word(size, true, false));
      ram.Store(e - 1, Word(size, true, false));
      assert ram.words == Joined(m, c, e);
      blocks := Merged(blocks, c, e);
    }

    method Unlink(ghost lo: nat, x: nat, ghost hi: nat, ghost m0: Mem, ghost list0: seq<nat>, ghost epi: nat)
      requires ram.Valid() && Absorbing(m0, ram.words, blocks, list, epi, lo, x, hi)
      requires FormedAround(m0, blocks, list0, epi, x) && ram.words[lo].prev && ram.words[hi].used
      modifies ram, ram.cells, `list
      ensures ram.Valid() && Absorbed(ram.words, blocks, list, epi, lo, hi) && SameLive(m0, blocks, ram.words, blocks)
    {
      ghost var k :| 0 <= k < |list| && list[k] == x;
      ghost var m1, before := ram.words, list;
      RemoveFreeBlock(x, k);
      AbsorbedAll(m0, m1, ram.words, blocks, before, epi, lo, x, hi, k);
    }

    method Enlist(x: nat, ghost epi: nat)
      requires ram.Valid() && Unlisted(ram.words, blocks, list, epi, x) && x + 3 < |ram.words|
      modifies ram, ram.cells, `list
      ensures ram.Valid() && list == [x] + old(list) && FormedAround(ram.words, blocks, list, epi, x)
      ensures Coalesced(old(ram.words), blocks, epi) ==> WellFormed(ram.words, blocks, list, epi)
      ensures ram.words[x] == old(ram.words)[x] && SameLive(old(ram.words), blocks, ram.words, blocks)
    {
      ghost var m, before := ram.words, list;
      InsertFreeBlock(x);
      Listed(m, ram.words, blocks, before, epi, x);
    }

    // ---------------------------------------------------- releasing, claiming

    /** Free the words of block b beyond keepSize, in a block of blockSize words. */
    method FreeBlock(b: nat, blockSize: nat, keepSize: nat, ghost epi: nat)
      requires ram.Valid() && keepSize < blockSize && b + blockSize < |ram.words|
      requires var w := Word(blockSize - keepSize, keepSize > 0 || ram.words[b].prev, false);
        Releasing(ram.words[b + keepSize := w], blocks + {b + keepSize}, list, epi, b + keepSize)
      modifies ram, ram.cells, `list, `blocks
      ensures ram.Valid() && WellFormed(ram.words, blocks, list, epi)
      ensures var w := Word(blockSize - keepSize, keepSize > 0 || old(ram.words)[b].prev, false);
        SameLive(old(ram.words)[b + keepSize := w], old(blocks) + {b + keepSize}, ram.words, blocks)
    {
      var surplus := b + keepSize;
      if keepSize > 0 {
        ram.Store(surplus, Word(blockSize - keepSize, true, false));
      } else {
        ram.Store(surplus, Word(blockSize, ram.Load(b).prev, false));
      }
      blocks := blocks + {surplus};
      Release(surplus, b + blockSize, epi);
    }

    /** Complete the release of block x, whose free header is written. */
    method Release(x: nat, next: nat, ghost epi: nat)
      requires ram.Valid() && Releasing(ram.words, blocks, list, epi, x) && next == Next(ram.words, x)
      modifies ram, ram.cells, `list, `blocks
      ensures ram.Valid() && WellFormed(ram.words, blocks, list, epi)
      ensures SameLive(old(ram.words), old(blocks), ram.words, blocks)
      ensures exists c :: c in list && ram.words[c].units >= old(ram.words)[x].units
    {
      ghost var m0, blocks0 := ram.words, blocks;
      WriteFooter(x, next, epi);
      ghost var m1 := ram.words;
      EnlistAndCoalesce(x, epi);
      SameLiveTrans(m0, blocks0, m1, blocks0, ram.words, blocks);
    }

    /** insert_free_block, then coalesce_free_block. */
    method EnlistAndCoalesce(x: nat, ghost epi: nat)
      requires ram.Valid() && Unlisted(ram.words, blocks, list, epi, x) && x + 3 < |ram.words|
      modifies ram, ram.cells, `list, `blocks
      ensures ram.Valid() && WellFormed(ram.words, blocks, list, epi)
      ensures SameLive(old(ram.words), old(blocks), ram.words, blocks)
      ensures exists c :: c in list && ram.words[c].units >= old(ram.words)[x].units
    {
      ghost var m0, blocks0 := ram.words, blocks;
      Enlist(x, epi);
      ghost var m1 := ram.words;
      ghost var c := CoalesceFreeBlock(x, epi);
      SameLiveTrans(m0, blocks0, m1, blocks0, ram.words, blocks);
    }

    method WriteFooter(x: nat, next: nat, ghost epi: nat)
      requires ram.Valid() && Releasing(ram.words, blocks, list, epi, x) && next == Next(ram.words, x)
      modifies ram, ram.cells
      ensures ram.Valid() && Unlisted(ram.words, blocks, list, epi, x) && x + 3 < |ram.words|
      ensures SameLive(old(ram.words), blocks, ram.words, blocks)
      ensures ram.words[x] == old(ram.words)[x]
    {
      ghost var m := ram.words;
      ReleaseFooted(m, blocks, list, epi, x);
      ram.Store(next - 1, ram.Load(x));
      ram.Store(next, ram.Load(next).(prev := true));               // |= PREV_BLOCK_USED
      ram.Store(next, ram.Load(next).(prev := !ram.Load(next).prev)); // ^= PREV_BLOCK_USED
      assert ram.words == Footed(m, x);
    }

    /** Hand out the first `alloc` of the `size` words at b, freeing the rest when
        it is large enough to be a block. */
    method Place(b: nat, size: nat, alloc: nat, ghost m0: Mem, ghost epi: nat)
      requires ram.Valid() && b < |ram.words| && MIN_BLOCK <= alloc <= size
      requires m0 == ram.words[b := Word(size, ram.words[b].prev, true)] && Claiming(m0, blocks, list, epi, b)
      modifies ram, ram.cells, `list, `blocks
      ensures ram.Valid() && WellFormed(ram.words, blocks, list, epi)
      ensures Placed(m0, old(blocks), ram.words, blocks, b, alloc)
    {
      if size - alloc >= MIN_BLOCK {
        PlaceFront(b, size, alloc, m0, epi);
      } else {
        PlaceWhole(b, size, alloc, m0, epi);
      }
    }

    method PlaceWhole(b: nat, size: nat, alloc: nat, ghost m0: Mem, ghost epi: nat)
      requires ram.Valid() && b < |ram.words| && alloc <= size < alloc + MIN_BLOCK
      requires m0 == ram.words[b := Word(size, ram.words[b].prev, true)] && Claiming(m0, blocks, list, epi, b)
      modifies ram, ram.cells
      ensures ram.Valid() && WellFormed(ram.words, blocks, list, epi)
      ensures Placed(m0, blocks, ram.words, blocks, b, alloc)
    {
      ClaimWhole(m0, blocks, list, epi, b);
      ram.Store(b, Word(size, ram.Load(b).prev, true));
      ram.Store(b + size, ram.Load(b + size).(prev := true));
      PlacedWhole(m0, ram.words, blocks, b, alloc);
    }

    method PlaceFront(b: nat, size: nat, alloc: nat, ghost m0: Mem, ghost epi: nat)
      requires ram.Valid() && b < |ram.words| && MIN_BLOCK <= alloc && alloc + MIN_BLOCK <= size
      requires m0 == ram.words[b := Word(size, ram.words[b].prev, true)] && Claiming(m0, blocks, list, epi, b)
      modifies ram, ram.cells, `list, `blocks
      ensures ram.Valid() && WellFormed(ram.words, blocks, list, epi)
      ensures Placed(m0, old(blocks), ram.words, blocks, b, alloc)
    {
      ghost var blocks0 := blocks;
      ghost var m1 := ClaimedFront(m0, blocks, list, epi, b, alloc);
      ram.Store(b, Word(alloc, ram.Load(b).prev, true));
      assert ram.words[b + alloc := Word(size - alloc, true, false)] == m1;
      FreeBlock(b, size, alloc, epi);
      PlacedSplit(m0, m1, blocks0, ram.words, blocks, b, alloc);
    }

    // ---------------------------------------------------------- heap growth

    /** Move the break by whole pages and list them as a free block, merged with
        the last block when that is free. */
    method IncreaseHeap(alloc: nat) returns (ok: bool)
      requires Valid() && MIN_BLOCK <= alloc && lo + 4 * brk + 4 * PageWords(alloc) < TWO32
      modifies this, ram, ram.cells
      ensures Valid() && |ram.words| == old(|ram.words|)
      ensures ok <==> old(brk) + PageWords(alloc) <= |ram.words|
      ensures !ok ==> ram.words == old(ram.words) && brk == old(brk) && blocks == old(blocks) && list == old(list)
      ensures ok ==> brk == old(brk) + PageWords(alloc)
      ensures SameLive(old(ram.words), old(blocks), ram.words, blocks)
      ensures ok ==> Roomy(ram.words, list, alloc)
    {
      GrowthExact(lo, brk, |ram.words|, alloc);
      SameLiveSelf(ram.words, blocks, list, brk - 1);
      var total := TotalSize(4 * alloc);
      ok := MemSbrk(lo + 4 * brk, lo + 4 * ram.cells.Length, total).Moves?;
      if ok {
        var newBlock := brk - 1;
        brk := brk + total / 4;
        AddPages(newBlock, total / 4);
        RoomyMember(ram.words, list, total / 4, alloc);
      }
    }

    method AddPages(newBlock: nat, total: nat)
      requires ram.Valid() && MIN_BLOCK <= total && newBlock + total < |ram.words|
      requires WellFormed(ram.words, blocks, list, newBlock)
      modifies ram, ram.cells, `list, `blocks
      ensures ram.Valid() && WellFormed(ram.words, blocks, list, newBlock + total)
      ensures SameLive(old(ram.words), old(blocks), ram.words, blocks)
      ensures exists c :: c in list && ram.words[c].units >= total
    {
      ghost var m0, blocks0 := ram.words, blocks;
      WritePages(newBlock, total);
      ghost var m1, blocks1 := ram.words, blocks;
      EnlistAndCoalesce(newBlock, newBlock + total);
      SameLiveTrans(m0, blocks0, m1, blocks1, ram.words, blocks);
    }

    method WritePages(newBlock: nat, total: nat)
      requires ram.Valid() && MIN_BLOCK <= total && newBlock + total < |ram.words|
      requires WellFormed(ram.words, blocks, list, newBlock)
      modifies ram, ram.cells, `blocks
      ensures ram.Valid() && Unlisted(ram.words, blocks, list, newBlock + total, newBlock)
      ensures SameLive(old(ram.words), old(blocks), ram.words, blocks)
      ensures newBlock + 3 < |ram.words| && ram.words[newBlock].units == total
    {
      ghost var m := ram.words;
      ghost var m1 := ExtendedPages(m, blocks, list, newBlock, total);
      ram.Store(newBlock, Word(total, ram.Load(newBlock).prev, false));
      ram.Store(newBlock + total - 1, Word(total, ram.Load(newBlock).prev, false));
      ram.Store(newBlock + total, Word(0, false, true));
      assert ram.words == Footed(m1, newBlock);
      blocks := blocks + {newBlock};
    }

    // ---------------------------------------------------------- the interface

    /** Unlink the free block b and hand out at least `alloc` words of it. */
    method Take(b: nat, alloc: nat, ghost epi: nat)
      requires ram.Valid() && WellFormed(ram.words, blocks, list, epi)
      requires b in list && MIN_BLOCK <= alloc <= ram.words[b].units
      modifies ram, ram.cells, `list, `blocks
      ensures ram.Valid() && WellFormed(ram.words, blocks, list, epi)
      ensures Allocated(old(ram.words), old(blocks), ram.words, blocks, b, alloc)
    {
      ghost var m, blocks0, list0 := ram.words, blocks, list;
      ghost var k :| 0 <= k < |list| && list[k] == b;
      RemoveFreeBlock(b, k);
      ClaimListed(m, ram.words, blocks, list0, epi, k);
      var blockSize := ram.Load(b).units;
      ghost var m1 := ram.words[b := Word(blockSize, ram.words[b].prev, true)];
      Place(b, blockSize, alloc, m1, epi);
      AllocatedFree(m, blocks0, m1, ram.words, blocks, b, alloc);
    }

    /** find_free_block, as to whether it finds a block. */
    method FindFit(alloc: nat) returns (b: nat)
      requires Valid()
      ensures b != NULL <==> Roomy(ram.words, list, alloc)
      ensures b != NULL ==> b in list && ram.words[b].units >= alloc
    {
      b := FindFreeBlock(alloc);
      if b != NULL {
        ghost var i :| 0 <= i < |list| && list[i] == b;
        assert LargeAt(ram.words, list, i, alloc);
      }
    }

    /** Find a listed block of at least `alloc` words, growing the heap if none
        is large enough; NULL if mem_sbrk panics. */
    method FindOrGrow(alloc: nat) returns (b: nat)
      requires Valid() && MIN_BLOCK <= alloc
      requires (Roomy(ram.words, list, alloc) || lo + 4 * brk + 4 * PageWords(alloc) < TWO32)
      modifies this, ram, ram.cells
      ensures Valid() && |ram.words| == old(|ram.words|)
      ensures b == NULL <==> !old(Roomy(ram.words, list, alloc)) && old(brk) + PageWords(alloc) > |ram.words|
      ensures b == NULL ==> ram.words == old(ram.words) && brk == old(brk) && blocks == old(blocks) && list == old(list)
      ensures b != NULL ==> b in list && ram.words[b].units >= alloc
      ensures b != NULL ==> brk == if old(Roomy(ram.words, list, alloc)) then old(brk) else old(brk) + PageWords(alloc)
      ensures SameLive(old(ram.words), old(blocks), ram.words, blocks)
    {
      SameLiveSelf(ram.words, blocks, list, brk - 1);
      b := FindFit(alloc);
      if b == NULL {
        var ok := IncreaseHeap(alloc);
        if ok {
          b := FindFit(alloc);
        }
      }
    }

    method KmallocWords(alloc: nat) returns (b: nat)
      requires Valid() && MIN_BLOCK <= alloc
      requires (Roomy(ram.words, list, alloc) || lo + 4 * brk + 4 * PageWords(alloc) < TWO32)
      modifies this, ram, ram.cells
      ensures Valid() && |ram.words| == old(|ram.words|)
      ensures b == NULL <==> !old(Roomy(ram.words, list, alloc)) && old(brk) + PageWords(alloc) > |ram.words|
      ensures b == NULL ==> ram.words == old(ram.words) && brk == old(brk) && blocks == old(blocks) && list == old(list)
      ensures b != NULL ==> brk == if old(Roomy(ram.words, list, alloc)) then old(brk) else old(brk) + PageWords(alloc)
      ensures b != NULL ==> Allocated(old(ram.words), old(blocks), ram.words, blocks, b, alloc)
    {
      ghost var m0, blocks0 := ram.words, blocks;
      b := FindOrGrow(alloc);
      if b != NULL {
        ghost var m1, blocks1 := ram.words, blocks;
        Take(b, alloc, brk - 1);
        AllocatedAfter(m0, blocks0, m1, blocks1, ram.words, blocks, b, alloc);
      }
    }

    /** memset(ptr, 0, size) over the payload of the used block b. */
    method ZeroPayload(b: nat, size: nat, ghost epi: nat)
      requires ram.Valid() && WellFormed(ram.words, blocks, list, epi)
      requires b in blocks && ram.words[b].used && size + 4 <= 4 * ram.words[b].units
      modifies ram, ram.cells
      ensures ram.Valid() && PayloadOnly(old(ram.words), ram.words, b)
      ensures ZeroedBytes(ram.words, b + 1, size)
    {
      ghost var m := ram.words;
      EndsBy(m, blocks, epi, b, epi);
      var n := size / 4;
      var i := 0;
      while i < n
        invariant 0 <= i <= n && ram.Valid() && PayloadOnly(m, ram.words, b)
        invariant forall j | b + 1 <= j < b + 1 + i :: ram.words[j] == Link(0)
      {
        ram.Store(b + 1 + i, Link(0));
        i := i + 1;
      }
      ghost var last := Link(0);
      if size % 4 != 0 {
        last := ram.words[b + 1 + n];
        ram.Store(b + 1 + n, Cleared(ram.Load(b + 1 + n), size % 4));
      }
      ZeroedWords(ram.words, b + 1, size, last);
    }

    method ZeroAllocated(b: nat, size: nat, ghost m0: Mem, ghost blocks0: set<nat>, ghost alloc: nat)
      requires Valid() && size + 4 <= 4 * alloc && Allocated(m0, blocks0, ram.words, blocks, b, alloc)
      requires |m0| == |ram.words|
      modifies ram, ram.cells
      ensures Valid() && Allocated(m0, blocks0, ram.words, blocks, b, alloc) && |m0| == |ram.words|
      ensures ZeroedBytes(ram.words, b + 1, size)
    {
      ghost var m1 := ram.words;
      ZeroPayload(b, size, brk - 1);
      PayloadWrites(m1, ram.words, blocks, list, brk - 1, b);
      AllocatedWritten(m0, blocks0, m1, ram.words, blocks, b, alloc);
    }

    /** The code makes the right block size of a request, and the right break if it needs
        one (see Sizes.ServedExactly). */
    ghost predicate Servable(size: nat)
      reads this, ram
    {
      size == 0 || Roomy(ram.words, list, BlockWords(size)) || Fits(lo + 4 * brk, size)
    }

    lemma ServableSize(size: nat)
      requires Valid() && Servable(size) && size > 0
      ensures size < TWO32 - 7 && ValidSize(size) / 4 == BlockWords(size) >= 4 && size + 4 <= 4 * BlockWords(size)
    {
      if Fits(lo + 4 * brk, size) {
        FitsBlock(lo + 4 * brk, size);
      } else {
        RoomyBound(ram.words, blocks, list, brk - 1, BlockWords(size));
      }
      BlockWordsExact(size);
    }

    /** kmalloc panics exactly when no listed block is large enough and the new break would
        be too far. */
    method Kmalloc(size: nat) returns (r: Allocation)
      requires Valid() && size < TWO32 && Servable(size)
      modifies this, ram, ram.cells
      ensures Valid() && |ram.words| == old(|ram.words|)
      ensures r.Null? <==> size == 0
      ensures !r.Payload? ==>
          ram.words == old(ram.words) && brk == old(brk) && blocks == old(blocks) && list == old(list)
      ensures r.Panic? <==>
          size > 0 && !old(Roomy(ram.words, list, BlockWords(size)))
          && old(brk) + PageWords(BlockWords(size)) > |ram.words|
      ensures r.Payload? ==>
          brk == if old(Roomy(ram.words, list, BlockWords(size))) then old(brk)
          else old(brk) + PageWords(BlockWords(size))
      ensures r.Payload? ==> r.offset >= 2
      ensures r.Payload? ==> Allocated(old(ram.words), old(blocks), ram.words, blocks, r.offset - 1, BlockWords(size))
      ensures r.Payload? ==> ZeroedBytes(ram.words, r.offset, size)
    {
      if size == 0 {
        return Null;
      }
      ServableSize(size);
      var alloc := ValidSize(size) / 4;
      ghost var m0, blocks0 := ram.words, blocks;
      var b := KmallocWords(alloc);
      if b == NULL {
        return Panic;
      }
      ZeroAllocated(b, size, m0, blocks0, alloc);
      r := Payload(b + 1);
    }

    method KfreeUsed(b: nat)
      requires Valid() && b in blocks && ram.words[b].used
      modifies this, ram, ram.cells
      ensures Valid() && brk == old(brk) && |ram.words| == old(|ram.words|)
      ensures Freed(old(ram.words), old(blocks), ram.words, blocks, {b})
    {
      ghost var m, blocks0 := ram.words, blocks;
      var size := ram.Load(b).units;
      ghost var m1 := ReleasedUsed(m, blocks, list, brk - 1, b);
      FreeBlock(b, size, 0, brk - 1);
      FreedBlock(m, m1, blocks0, ram.words, blocks, b);
    }

    /** kfree. A pointer is NULL or was returned by kmalloc; freeing a block that
        is already free, and not merged away, does nothing. */
    method Kfree(ptr: nat)
      requires Valid() && (ptr == NULL || ptr - 1 in blocks)
      modifies this, ram, ram.cells
      ensures Valid() && brk == old(brk) && |ram.words| == old(|ram.words|)
      ensures Freed(old(ram.words), old(blocks), ram.words, blocks, if ptr == NULL then {} else {ptr - 1})
      ensures ptr == NULL || !old(ram.words)[ptr - 1].used ==>
          ram.words == old(ram.words) && blocks == old(blocks) && list == old(list)
    {
      SameLiveSelf(ram.words, blocks, list, brk - 1);
      if ptr == NULL {
        return;
      }
      var b := ptr - 1;
      if ram.Load(b).used {
        KfreeUsed(b);
      }
    }

    /** A client writes one word of a payload it holds. */
    method WritePayload(b: nat, index: nat, word: Word)
      requires Valid() && b in Live(ram.words, blocks) && index + 1 < ram.words[b].units
      modifies ram, ram.cells
      ensures Valid() && |ram.words| == old(|ram.words|) && b + 1 + index < |ram.words|
      ensures ram.words == old(ram.words)[b + 1 + index := word]
      ensures Live(ram.words, blocks) == old(Live(ram.words, blocks))
      ensures LiveKept(old(ram.words), ram.words, blocks - {b})
    {
      EndsBy(ram.words, blocks, brk - 1, b, brk - 1);
      ghost var m := ram.words;
      ram.Store(b + 1 + index, word);
      PayloadWrites(m, ram.words, blocks, list, brk - 1, b);
    }

    // --------------------------------------------------------------- krealloc

    /** copy_payload: n - 1 payload words of src to dst, in ascending order. The
        blocks may overlap, dst before src. */
    method CopyPayload(src: nat, dst: nat, n: nat)
      requires ram.Valid() && dst < src && 1 <= n && src + n <= |ram.words|
      modifies ram, ram.cells
      ensures ram.Valid() && |ram.words| == |old(ram.words)|
      ensures forall i | 0 <= i < |ram.words| && !(dst < i < dst + n) :: ram.words[i] == old(ram.words)[i]
      ensures SameWords(old(ram.words), src, ram.words, dst, n)
    {
      ghost var m := ram.words;
      var i := 0;
      while i < n - 1
        invariant 0 <= i <= n - 1 && ram.Valid() && |ram.words| == |m|
        invariant forall j | 0 <= j < |m| && !(dst < j <= dst + i) :: ram.words[j] == m[j]
        invariant ram.words[dst + 1..dst + 1 + i] == m[src + 1..src + 1 + i]
      {
        ram.Store(dst + 1 + i, ram.Load(src + 1 + i));
        i := i + 1;
      }
    }

    /** Give block b, whose region [p, p + total) is vacated, its new size at p. */
    method Resettle(p: nat, total: nat, alloc: nat, ghost b: nat, ghost e: nat, ghost m: Mem, ghost list0: seq<nat>,
                    ghost epi: nat)
      requires ram.Valid() && e == p + total && Moving(m, ram.words, blocks, list0, list, epi, p, e, b, p, alloc)
      modifies ram, ram.cells, `list, `blocks
      ensures ram.Valid() && WellFormed(ram.words, blocks, list, epi)
      ensures Reallocated(m, old(blocks), ram.words, blocks, b, p, alloc)
    {
      ghost var m', blocks0, list' := ram.words, blocks, list;
      ghost var m1 := MovingClaim(m, m', blocks, list0, list, epi, p, e, b, alloc);
      blocks := Merged(blocks, p, e);
      Place(p, total, alloc, m1, epi);
      MovingDone(m, m', blocks0, list0, list', epi, p, e, b, alloc, m1, ram.words, blocks);
    }

    method CopyAndResettle(p: nat, b: nat, size: nat, total: nat, alloc: nat, ghost e: nat, ghost m: Mem,
                           ghost list0: seq<nat>, ghost epi: nat)
      requires ram.Valid() && e == p + total && Moving(m, ram.words, blocks, list0, list, epi, p, e, b, b, alloc)
      requires p < b && size == m[b].units
      modifies ram, ram.cells, `list, `blocks
      ensures ram.Valid() && WellFormed(ram.words, blocks, list, epi)
      ensures Reallocated(m, old(blocks), ram.words, blocks, b, p, alloc)
    {
      ghost var m1 := ram.words;
      CopyPayload(b, p, size);
      VacatedWrite(m, m1, ram.words, blocks, list0, list, epi, p, e);
      SameWordsTrans(m, b, m1, b, ram.words, p, size);
      Resettle(p, total, alloc, b, e, m, list0, epi);
    }

    method UnlinkOne(x: nat)
      requires ram.Valid() && Linked(ram.words, list) && Spaced(list) && x in list
      modifies ram, ram.cells, `list
      ensures ram.Valid() && Unlinked(old(ram.words), ram.words, old(list), list, {x})
    {
      ghost var k :| 0 <= k < |list| && list[k] == x;
      ghost var m, list0 := ram.words, list;
      RemoveFreeBlock(x, k);
      UnlinkedOne(m, ram.words, list0, k);
    }

    method UnlinkTwo(x: nat, y: nat)
      requires ram.Valid() && Linked(ram.words, list) && Spaced(list) && x in list && y in list && x != y
      modifies ram, ram.cells, `list
      ensures ram.Valid() && Unlinked(old(ram.words), ram.words, old(list), list, {x, y})
    {
      ghost var m, list0 := ram.words, list;
      UnlinkOne(x);
      ghost var m1, list1 := ram.words, list;
      UnlinkOne(y);
      UnlinkedTwo(m, m1, ram.words, list0, list1, list, x, y);
    }

    method MergeNext(b: nat, size: nat, next: nat, total: nat, alloc: nat, ghost epi: nat)
      requires ram.Valid() && WellFormed(ram.words, blocks, list, epi)
      requires b in blocks && ram.words[b].used && ram.words[b].units == size && next == b + size
      requires next in list && total == size + ram.words[next].units && size <= alloc <= total
      modifies ram, ram.cells, `list, `blocks
      ensures ram.Valid() && WellFormed(ram.words, blocks, list, epi)
      ensures Reallocated(old(ram.words), old(blocks), ram.words, blocks, b, b, alloc)
    {
      ghost var m, list0 := ram.words, list;
      UnlinkOne(next);
      MovingNext(m, ram.words, blocks, list0, list, epi, b, alloc);
      Resettle(b, total, alloc, b, Next(m, next), m, list0, epi);
    }

    method MergePrev(p: nat, b: nat, size: nat, total: nat, alloc: nat, ghost epi: nat)
      requires ram.Valid() && WellFormed(ram.words, blocks, list, epi)
      requires b in blocks && ram.words[b].used && ram.words[b].units == size
      requires p in list && Next(ram.words, p) == b && total == size + ram.words[p].units && size <= alloc <= total
      modifies ram, ram.cells, `list, `blocks
      ensures ram.Valid() && WellFormed(ram.words, blocks, list, epi)
      ensures Reallocated(old(ram.words), old(blocks), ram.words, blocks, b, p, alloc)
    {
      ghost var m, list0 := ram.words, list;
      UnlinkOne(p);
      MovingPrev(m, ram.words, blocks, list0, list, epi, p, b, alloc);
      CopyAndResettle(p, b, size, total, alloc, Next(m, b), m, list0, epi);
    }

    method MergeBoth(p: nat, b: nat, size: nat, next: nat, total: nat, alloc: nat, ghost epi: nat)
      requires ram.Valid() && WellFormed(ram.words, blocks, list, epi)
      requires b in blocks && ram.words[b].used && ram.words[b].units == size && next == b + size && next in list
      requires p in list && Next(ram.words, p) == b
      requires total == size + ram.words[next].units + ram.words[p].units && size <= alloc <= total
      modifies ram, ram.cells, `list, `blocks
      ensures ram.Valid() && WellFormed(ram.words, blocks, list, epi)
      ensures Reallocated(old(ram.words), old(blocks), ram.words, blocks, b, p, alloc)
    {
      ghost var m, list0 := ram.words, list;
      UnlinkTwo(next, p);
      MovingBoth(m, ram.words, blocks, list0, list, epi, p, b, alloc);
      CopyAndResettle(p, b, size, total, alloc, Next(m, next), m, list0, epi);
    }

    method Shrink(b: nat, size: nat, alloc: nat, ghost epi: nat)
      requires ram.Valid() && WellFormed(ram.words, blocks, list, epi)
      requires b in blocks && ram.words[b].used && ram.words[b].units == size && MIN_BLOCK <= alloc <= size
      modifies ram, ram.cells, `list, `blocks
      ensures ram.Valid() && WellFormed(ram.words, blocks, list, epi)
      ensures Reallocated(old(ram.words), old(blocks), ram.words, blocks, b, b, alloc)
    {
      ReallocatedSame(ram.words, blocks, list, epi, b, alloc);
      if size - alloc >= MIN_BLOCK {
        ghost var m, blocks0 := ram.words, blocks;
        ClaimAgain(m, blocks, list, epi, b);
        Place(b, size, alloc, m, epi);
        ReallocatedShrunk(m, blocks0, ram.words, blocks, b, alloc);
      }
    }

    /** The tests of krealloc for a block that must grow, in the source's order. */
    method PlanGrowth(b: nat, alloc: nat) returns (plan: Plan)
      requires Valid() && b in blocks && ram.words[b].units < alloc
      ensures Sound(ram.words, blocks, list, brk - 1, b, alloc, plan)
    {
      ghost var m := ram.words;
      var size := ram.Load(b).units;
      var next := b + size;
      NextIn(m, blocks, list, brk - 1, b);
      var nextHeader := ram.Load(next);
      if nextHeader.units == 0 {
        return NoRoom;
      }
      if !nextHeader.used {
        if size + nextHeader.units >= alloc {
          return WithNext(next, size + nextHeader.units);
        }
        NextIn(m, blocks, list, brk - 1, next);
        if ram.Load(next + nextHeader.units).units == 0 {
          return NoRoom;
        }
      }
      plan := PlanBackward(b, size, next, nextHeader, alloc);
    }

    method PlanBackward(b: nat, size: nat, next: nat, nextHeader: Word, alloc: nat) returns (plan: Plan)
      requires Valid() && b in blocks && size == ram.words[b].units < alloc && next == Next(ram.words, b)
      requires next in blocks
      requires nextHeader == ram.words[next] && (!nextHeader.used ==> size + nextHeader.units < alloc)
      ensures Sound(ram.words, blocks, list, brk - 1, b, alloc, plan)
    {
      ghost var m := ram.words;
      NextIn(m, blocks, list, brk - 1, b);
      if ram.Load(b).prev {
        return NoRoom;
      }
      ghost var k := FreePredecessor(m, blocks, list, brk - 1, b);
      var prevSize := ram.Load(b - 1).units;
      var prev := b - prevSize;
      if !nextHeader.used && size + nextHeader.units + prevSize >= alloc {
        return WithBoth(prev, next, size + nextHeader.units + prevSize);
      }
      if size + prevSize >= alloc {
        return WithPrev(prev, size + prevSize);
      }
      plan := NoRoom;
    }

    /** One of the three ways to grow in place. */
    method Follow(plan: Plan, b: nat, size: nat, alloc: nat, ghost epi: nat) returns (p: nat)
      requires ram.Valid() && WellFormed(ram.words, blocks, list, epi) && b in blocks && ram.words[b].used
      requires ram.words[b].units == size <= alloc
      requires Sound(ram.words, blocks, list, epi, b, alloc, plan) && !plan.NoRoom?
      modifies ram, ram.cells, `list, `blocks
      ensures ram.Valid() && WellFormed(ram.words, blocks, list, epi)
      ensures Reallocated(old(ram.words), old(blocks), ram.words, blocks, b, p, alloc)
    {
      match plan {
        case WithNext(next, total) =>
          MergeNext(b, size, next, total, alloc, epi);
          p := b;
        case WithBoth(prev, next, total) =>
          MergeBoth(prev, b, size, next, total, alloc, epi);
          p := prev;
        case WithPrev(prev, total) =>
          MergePrev(prev, b, size, total, alloc, epi);
          p := prev;
      }
    }

    method Enlarge(b: nat, size: nat, alloc: nat) returns (r: Reallocation)
      requires Valid() && b in Live(ram.words, blocks) && size == ram.words[b].units < alloc
      modifies ram, ram.cells, `list, `blocks
      ensures ram.Valid() && |ram.words| == old(|ram.words|) && WellFormed(ram.words, blocks, list, brk - 1)
      ensures r.InPlace? ==> r.offset >= 1
      ensures r.InPlace? ==> Reallocated(old(ram.words), old(blocks), ram.words, blocks, b, r.offset - 1, alloc)
      ensures r.Elsewhere? ==> ram.words == old(ram.words) && blocks == old(blocks) && list == old(list)
      ensures r.Elsewhere? ==> Cramped(ram.words, brk - 1, b, alloc)
    {
      var plan := PlanGrowth(b, alloc);
      if plan.NoRoom? { return Elsewhere; }
      var p := Follow(plan, b, size, alloc, brk - 1);
      r := InPlace(p + 1);
    }

    method Resize(b: nat, alloc: nat) returns (r: Reallocation)
      requires Valid() && b in Live(ram.words, blocks) && MIN_BLOCK <= alloc
      modifies ram, ram.cells, `list, `blocks
      ensures Valid() && |ram.words| == old(|ram.words|)
      ensures r.InPlace? ==> r.offset >= 1
      ensures r.InPlace? ==> Reallocated(old(ram.words), old(blocks), ram.words, blocks, b, r.offset - 1, alloc)
      ensures r.Elsewhere? ==> ram.words == old(ram.words) && blocks == old(blocks) && list == old(list)
      ensures r.Elsewhere? ==> Cramped(ram.words, brk - 1, b, alloc)
    {
      var size := ram.Load(b).units;
      if alloc <= size {
        Shrink(b, size, alloc, brk - 1);
        r := InPlace(b + 1);
      } else {
        r := Enlarge(b, size, alloc);
      }
    }

    /** krealloc of a live block to a nonzero size, up to the paths that move the
        break or allocate elsewhere; there the heap is as it was. */
    method KreallocInPlace(ptr: nat, size: nat) returns (r: Reallocation)
      requires Valid() && ptr >= 1 && ptr - 1 in Live(ram.words, blocks) && 0 < size < TWO32 - 7
      modifies ram, ram.cells, `list, `blocks
      ensures Valid() && |ram.words| == old(|ram.words|)
      ensures r.InPlace? ==> r.offset >= 1
      ensures r.InPlace? ==>
          Reallocated(old(ram.words), old(blocks), ram.words, blocks, ptr - 1, r.offset - 1, BlockWords(size))
      ensures r.Elsewhere? ==> ram.words == old(ram.words) && blocks == old(blocks) && list == old(list)
      ensures r.Elsewhere? ==> Cramped(ram.words, brk - 1, ptr - 1, BlockWords(size))
    {
      ValidSizeExact(size);
      r := Resize(ptr - 1, ValidSize(size) / 4);
    }

    // ------------------------------------------------------------------- runs

    /** Free every live block, in whatever order the pointers come: one free block
        of the heap size minus two words is left. */
    method FreeAll(ptrs: seq<nat>)
      requires Valid() && (forall i | 0 <= i < |ptrs| :: ptrs[i] >= 1)
      requires forall i, j | 0 <= i < j < |ptrs| :: ptrs[i] != ptrs[j]
      requires forall b :: b in Live(ram.words, blocks) <==> b + 1 in ptrs
      modifies this, ram, ram.cells
      ensures Valid() && brk == old(brk) && |ram.words| == old(|ram.words|)
      ensures blocks == {1} && list == [1] && ram.words[1].units == brk - 2
    {
      var i := 0;
      while i < |ptrs|
        invariant 0 <= i <= |ptrs| && Valid() && brk == old(brk) && |ram.words| == old(|ram.words|)
        invariant forall b :: b in Live(ram.words, blocks) <==> b + 1 in ptrs[i..]
      {
        assert ptrs[i] in ptrs[i..];
        assert ptrs[i] - 1 in Live(ram.words, blocks);
        assert ptrs[i..] == [ptrs[i]] + ptrs[i + 1..];
        Kfree(ptrs[i]);
        i := i + 1;
      }
      NothingLive(ram.words, blocks, list, brk - 1);
    }
  }

  ghost predicate Held(h: Heap, held: seq<nat>, data: seq<Mem>)
    reads h, h.ram
  {
    Holds(h.ram.words, h.blocks, held, data)
  }

  /** A size so large that the break cannot move by as much, wherever it is. */
  predicate TooLarge(lo: nat, size: nat) { lo + 4 * MAX_HEAP_WORDS + 4 * PageWords(BlockWords(size)) >= TWO32 }

  method ServeMalloc(h: Heap, held: seq<nat>, size: nat, ghost data: seq<Mem>)
    returns (held': seq<nat>, answer: Answer, ghost data': seq<Mem>)
    requires h.Valid() && Held(h, held, data)
    modifies h, h.ram, h.ram.cells
    ensures h.Valid() && |h.ram.words| == old(|h.ram.words|) && Held(h, held', data')
    ensures Serves(data, Malloc(size), answer, data')
    ensures answer == Wraps <==> !old(h.Servable(size))
    ensures answer == Halts <==>
        size > 0 && !old(Roomy(h.ram.words, h.list, BlockWords(size))) && old(Fits(h.lo + 4 * h.brk, size))
                                  && old(h.brk) + PageWords(BlockWords(size)) > |h.ram.words|
    ensures answer == Halts ==> h.ram.words == old(h.ram.words) && h.list == old(h.list) && h.brk == old(h.brk)
  {
    held', answer, data' := held, Done, data;
    var fit := h.FindFit(BlockWords(size));
    if size > 0 && fit == NULL && !Fits(h.lo + 4 * h.brk, size) {
      answer := Wraps;
    } else if size > 0 {
      h.ServableSize(size);
      held', answer, data' := ServeServable(h, held, size, data);
    }
  }

  method ServeServable(h: Heap, held: seq<nat>, size: nat, ghost data: seq<Mem>)
    returns (held': seq<nat>, answer: Answer, ghost data': seq<Mem>)
    requires h.Valid() && Held(h, held, data) && 0 < size < TWO32 && h.Servable(size)
    requires size + 4 <= 4 * BlockWords(size)
    modifies h, h.ram, h.ram.cells
    ensures h.Valid() && |h.ram.words| == old(|h.ram.words|) && Held(h, held', data')
    ensures Serves(data, Malloc(size), answer, data')
    ensures answer != Wraps
    ensures answer == Halts ==> h.ram.words == old(h.ram.words) && h.list == old(h.list) && h.brk == old(h.brk)
    ensures answer == Halts <==>
        !old(Roomy(h.ram.words, h.list, BlockWords(size))) && old(h.brk) + PageWords(BlockWords(size)) > |h.ram.words|
  {
    held', answer, data' := held, Done, data;
    ghost var m, blocks := h.ram.words, h.blocks;
    var r := h.Kmalloc(size);
    if r.Panic? {
      answer := Halts;
    } else {
      ghost var b := r.offset - 1;
      held' := held + [r.offset - 1];
      HoldsNew(m, blocks, h.ram.words, h.blocks, h.brk - 1, held, data, b, BlockWords(size), size);
      data' := data + [Content(h.ram.words, b)];
    }
  }

  method ServeWrite(h: Heap, held: seq<nat>, k: nat, index: nat, word: Word, ghost data: seq<Mem>)
    returns (ghost data': seq<Mem>)
    requires h.Valid() && Held(h, held, data) && k < |held|
    modifies h.ram, h.ram.cells
    ensures h.Valid() && |h.ram.words| == old(|h.ram.words|) && Held(h, held, data')
    ensures Serves(data, Write(k, index, word), Done, data')
  {
    data' := data;
    ghost var m := h.ram.words;
    HeldBlock(m, h.blocks, h.brk - 1, held, data, k);
    if index + 1 < h.ram.Load(held[k]).units {
      h.WritePayload(held[k], index, word);
      HoldsWritten(m, h.ram.words, h.blocks, held, data, k, index, word);
      data' := data[k := data[k][index := word]];
    }
  }

  method ServeFree(h: Heap, held: seq<nat>, k: nat, ghost data: seq<Mem>)
    returns (held': seq<nat>, ghost data': seq<Mem>)
    requires h.Valid() && Held(h, held, data) && k < |held|
    modifies h, h.ram, h.ram.cells
    ensures h.Valid() && |h.ram.words| == old(|h.ram.words|) && Held(h, held', data')
    ensures Serves(data, Free(k), Done, data')
  {
    assert held[k] in held;
    ghost var m, blocks := h.ram.words, h.blocks;
    h.Kfree(held[k] + 1);
    HoldsFreed(m, blocks, h.ram.words, h.blocks, held, data, k);
    held' := Without(held, k);
    data' := data[..k] + data[k + 1..];
  }

  /** A malloc that panics, and a heap in which it does. */
  ghost predicate Exhausted(h: Heap, request: Request)
    reads h, h.ram
  {
    request.Malloc? && !Roomy(h.ram.words, h.list, BlockWords(request.size))
        && h.brk + PageWords(BlockWords(request.size)) > |h.ram.words|
  }

  /** Serve one request. Only a malloc is refused, one whose size wraps or for which there is
      no memory. */
  method Serve(h: Heap, held: seq<nat>, request: Request, ghost data: seq<Mem>)
    returns (held': seq<nat>, answer: Answer, ghost data': seq<Mem>)
    requires h.Valid() && Held(h, held, data)
    modifies h, h.ram, h.ram.cells
    ensures h.Valid() && |h.ram.words| == old(|h.ram.words|) && Held(h, held', data')
    ensures Serves(data, request, answer, data')
    ensures answer == Wraps <==> request.Malloc? && !old(h.Servable(request.size))
    ensures answer == Halts <==>
        old(Exhausted(h, request)) && request.size > 0 && old(Fits(h.lo + 4 * h.brk, request.size))
    ensures answer == Halts ==> Exhausted(h, request)
    ensures answer == Wraps && |h.ram.words| == MAX_HEAP_WORDS ==> TooLarge(h.lo, request.size)
  {
    held', answer, data' := held, Done, data;
    match request {
      case Malloc(size) => held', answer, data' := ServeMalloc(h, held, size, data);
      case Write(k, index, word) =>
        if k < |held| { data' := ServeWrite(h, held, k, index, word, data); }
      case Free(k) =>
        if k < |held| { held', data' := ServeFree(h, held, k, data); }
    }
  }

  method Start(heapLo: nat) returns (h: Heap)
    requires heapLo % PG_SIZE == 0 && heapLo + 4 * MAX_HEAP_WORDS < TWO32
    ensures h.Valid() && Held(h, [], []) && fresh(h) && fresh(h.ram) && fresh(h.ram.cells) && h.lo == heapLo
    ensures |h.ram.words| == MAX_HEAP_WORDS
  {
    h := new Heap(heapLo);
  }

  /** Requests are put off only for sizes that are too large. */
  ghost predicate Excused(lo: nat, requests: seq<Request>, answers: seq<Answer>)
    requires |answers| <= |requests|
  {
    forall i | 0 <= i < |answers| && answers[i] == Wraps :: requests[i].Malloc? && TooLarge(lo, requests[i].size)
  }

  /** All requests have been served, or all up to one for which there was no memory. */
  ghost predicate Over(h: Heap, requests: seq<Request>, answers: seq<Answer>, halted: bool)
    requires |answers| <= |requests|
    reads h, h.ram
  {
    if halted
        then answers != [] && answers[|answers| - 1] == Halts && Halts !in answers[..|answers| - 1]
        && Exhausted(h, requests[|answers| - 1])
    else Halts !in answers
  }

  /** Any run of requests from init_mm, stopped only by a panic, keeps the whole heap
      well formed, hands out exactly the blocks the client holds, and shows the client
      payloads that behave as if each had memory of its own. */
  method Run(heapLo: nat, requests: seq<Request>)
    returns (h: Heap, held: seq<nat>, answers: seq<Answer>, halted: bool, ghost log: seq<seq<Mem>>)
    requires heapLo % PG_SIZE == 0 && heapLo + 4 * MAX_HEAP_WORDS < TWO32
    ensures Story(requests, answers, log) && h.Valid() && Held(h, held, log[|answers|])
    ensures h.lo == heapLo && |h.ram.words| == MAX_HEAP_WORDS
    ensures Excused(heapLo, requests, answers) && Over(h, requests, answers, halted)
    ensures (halted || |answers| == |requests|)
  {
    h := Start(heapLo);
    held, answers, log, halted := [], [], [[]], false;
    while |answers| < |requests| && !halted
      invariant Story(requests, answers, log) && h.Valid() && Held(h, held, log[|answers|])
      invariant fresh(h) && fresh(h.ram) && fresh(h.ram.cells) && h.lo == heapLo && |h.ram.words| == MAX_HEAP_WORDS
      invariant Excused(heapLo, requests, answers) && Over(h, requests, answers, halted)
      decreases |requests| - |answers|
    {
      ghost var data;
      var answer;
      held, answer, data := Serve(h, held, requests[|answers|], log[|answers|]);
      StoryNext(requests, answers, log, answer, data);
      log := log + [data];
      answers := answers + [answer];
      halted := answer == Halts;
    }
  }
}
