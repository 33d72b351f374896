/**
 The 32-bit size arithmetic between a request to kmalloc and the new break
 (valid_size and increase_heap in mem/mm.c, mem_sbrk in mem/mem.c).
 */
module Sizes {
  import opened Basics

  const PG_SIZE: nat := 4096
  const MIN_BLOCK_SIZE: nat := 16

  function ValidSize(size: nat): nat {
    var s := U32(size + 4);
    if s <= MIN_BLOCK_SIZE then MIN_BLOCK_SIZE else U32(4 * (U32(s + 3) / 4))
  }

  /** total_size in increase_heap. */
  function TotalSize(size: nat): nat {
    U32(U32(size + PG_SIZE - 1) / PG_SIZE * PG_SIZE)
  }

  datatype Break = Panics | Moves(to: nat)

  function MemSbrk(kbrk: nat, kbrkMax: nat, incr: nat): Break {
    var rounded := U32(incr + PG_SIZE - 1) / PG_SIZE * PG_SIZE;
    if U32(kbrk + rounded) > kbrkMax then Panics else Moves(U32(kbrk + rounded))
  }

  // The same quantities over the integers, in words.
  function BlockWords(size: nat): nat { if size <= 12 then 4 else (size + 7) / 4 }
  function PageWords(words: nat): nat { (words + 1023) / 1024 * 1024 }

  /** No intermediate result of the request reaches 2^32. A caller that knows the
      break can evaluate this before the call. */
  predicate Fits(kbrk: nat, size: nat) { kbrk + 4 * PageWords(BlockWords(size)) < TWO32 }

  lemma ValidSizeExact(size: nat)
    requires size < TWO32 - 7
    ensures ValidSize(size) == 4 * BlockWords(size) >= size + 4
  {
  }

  lemma TotalSizeExact(words: nat)
    requires 4 * PageWords(words) < TWO32
    ensures TotalSize(4 * words) == 4 * PageWords(words) >= 4 * words
  {
    var n := (words + 1023) / 1024;
    assert (4 * words + 4095) / 4096 == n;
  }

  /** The grown heap is what the request needs. */
  predicate Grown(kbrk: nat, kbrkMax: nat, size: nat) {
    var b := MemSbrk(kbrk, kbrkMax, TotalSize(ValidSize(size)));
    b == Panics || (b.to >= kbrk + ValidSize(size) && b.to <= kbrkMax)
  }

  /** What kmalloc makes of a size is enough for it: the largest free block, of `largest`
      words, is large enough, or the heap grows as it should. */
  predicate Served(largest: nat, kbrk: nat, kbrkMax: nat, size: nat) {
    ValidSize(size) >= size + 4 && (ValidSize(size) <= 4 * largest || Grown(kbrk, kbrkMax, size))
  }

  lemma PageWordsBounds(words: nat)
    ensures words <= PageWords(words) < words + 1024 && PageWords(words) % 1024 == 0
  {
  }

  lemma RoundedPages(w: nat)
    requires w % 1024 == 0
    ensures (4 * w + 4095) / 4096 * 4096 == 4 * w
  {
  }

  lemma MemSbrkExact(kbrk: nat, kbrkMax: nat, w: nat)
    requires w % 1024 == 0 && 4 * w < TWO32 && kbrk <= kbrkMax < TWO32
    ensures MemSbrk(kbrk, kbrkMax, 4 * w) ==
      if kbrk + 4 * w >= TWO32 then Moves(kbrk + 4 * w - TWO32)
      else if kbrk + 4 * w > kbrkMax then Panics else Moves(kbrk + 4 * w)
  {
    RoundedPages(w);
    assert U32(4 * w + PG_SIZE - 1) == 4 * w + 4095;
  }

  /** Growth that does not wrap: whole pages, refused only beyond the limit. */
  lemma GrowthExact(lo: nat, brk: nat, limit: nat, words: nat)
    requires lo + 4 * brk + 4 * PageWords(words) < TWO32 && brk <= limit && lo + 4 * limit < TWO32
    requires brk % 1024 == 0
    ensures TotalSize(4 * words) == 4 * PageWords(words) && TotalSize(4 * words) / 4 == PageWords(words) >= words
    ensures (brk + PageWords(words)) % 1024 == 0
    ensures MemSbrk(lo + 4 * brk, lo + 4 * limit, TotalSize(4 * words)).Moves? <==> brk + PageWords(words) <= limit
  {
    PageWordsBounds(words);
    TotalSizeExact(words);
    MemSbrkExact(lo + 4 * brk, lo + 4 * limit, PageWords(words));
  }

  lemma WrappedPages(words: nat)
    requires 4 * words < TWO32 <= 4 * PageWords(words)
    ensures TotalSize(4 * words) == 0
  {
  }

  /** A request is served, or panics, exactly when a free block is large enough for it or
      none of the sums on the way to the new break wraps. */
  lemma {:induction false} ServedExactly(largest: nat, kbrk: nat, kbrkMax: nat, size: nat)
    requires 0 < size < TWO32 && kbrk <= kbrkMax < TWO32 && 4 * largest < TWO32
    ensures Served(largest, kbrk, kbrkMax, size) <==> BlockWords(size) <= largest || Fits(kbrk, size)
  {
    var w := BlockWords(size);
    PageWordsBounds(w);
    if size < TWO32 - 7 {
      ValidSizeExact(size);
      if 4 * PageWords(w) < TWO32 {
        TotalSizeExact(w);
        MemSbrkExact(kbrk, kbrkMax, PageWords(w));
      } else {
        WrappedPages(w);
        MemSbrkExact(kbrk, kbrkMax, 0);
      }
    }
  }

  /** One byte less than 4 GiB gets the smallest block; one GiB moves a break at
      3 GiB back to 0. */
  lemma RequestsThatWrap()
    ensures ValidSize(0xFFFF_FFFF) == MIN_BLOCK_SIZE
    ensures MemSbrk(0xC000_0000, 0xC080_0000, TotalSize(ValidSize(0x4000_0000 - 4096))) == Moves(0)
  {
    assert ValidSize(0x4000_0000 - 4096) == 0x4000_0000 - 4096 + 4;
    assert TotalSize(0x4000_0000 - 4096 + 4) == 0x4000_0000;
  }

  lemma BlockWordsExact(size: nat)
    requires 0 < size && 4 * BlockWords(size) < TWO32
    ensures size < TWO32 - 7 && ValidSize(size) / 4 == BlockWords(size) >= 4 && size + 4 <= 4 * BlockWords(size)
  {
    ValidSizeExact(size);
  }

  lemma FitsBlock(kbrk: nat, size: nat)
    requires Fits(kbrk, size)
    ensures 4 * BlockWords(size) < TWO32
  {
    PageWordsBounds(BlockWords(size));
  }
}
