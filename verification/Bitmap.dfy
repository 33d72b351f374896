/**
  klib/bitmap.c: bits in an array of bytes, the padding bits of the last byte set for
  good. The bitmap is proved to be a set of indices below `bits`.
*/
module Bitmap {
  import opened Basics

  function Mask(n: nat): (m: bv8)
    requires n < 8
    ensures m == (1 as bv8) << n
  {
    match n
    case 0 => 1 case 1 => 2 case 2 => 4 case 3 => 8 case 4 => 16 case 5 => 32 case 6 => 64 case _ => 128
  }

  predicate Bit(b: bv8, n: nat)
    requires n < 8
  {
    b & Mask(n) != 0
  }

  lemma SetBit(b: bv8, n: nat, k: nat)
    requires n < 8 && k < 8
    ensures Bit(b | Mask(n), k) == (k == n || Bit(b, k))
  {
  }

  lemma ClearBit(b: bv8, n: nat, k: nat)
    requires n < 8 && k < 8
    ensures Bit(b & !Mask(n), k) == (k != n && Bit(b, k))
  {
  }

  lemma AllBits(b: bv8)
    ensures b == 0xFF <==> forall n: nat | n < 8 :: Bit(b, n)
  {
    if forall n: nat | n < 8 :: Bit(b, n) {
      assert Bit(b, 0) && Bit(b, 1) && Bit(b, 2) && Bit(b, 3) && Bit(b, 4) && Bit(b, 5) && Bit(b, 6) && Bit(b, 7);
    }
  }

  /** Bit k of a string of bytes. */
  predicate On(s: seq<bv8>, k: nat)
    requires k < 8 * |s|
  {
    Bit(s[k / 8], k % 8)
  }

  /** Writing one byte through its mask touches one bit. */
  lemma SetOn(s: seq<bv8>, i: nat, n: nat, k: nat)
    requires i < |s| && n < 8 && k < 8 * |s|
    ensures On(s[i := s[i] | Mask(n)], k) == (k == 8 * i + n || On(s, k))
  {
    SetBit(s[i], n, k % 8);
  }

  lemma ClearOn(s: seq<bv8>, i: nat, n: nat, k: nat)
    requires i < |s| && n < 8 && k < 8 * |s|
    ensures On(s[i := s[i] & !Mask(n)], k) == (k != 8 * i + n && On(s, k))
  {
    ClearBit(s[i], n, k % 8);
  }

  function ByteCount(bits: nat): nat { (bits + 7) / 8 }

  /** The bytes stand for the set; padding bits are on. */
  ghost predicate Stands(s: seq<bv8>, marked: set<nat>, bits: nat) {
    && |s| == ByteCount(bits) && (forall k | k in marked :: k < bits)
    && forall k: nat {:trigger On(s, k)} | k < 8 * |s| :: On(s, k) == (k in marked || k >= bits)
  }

  lemma Marks(s: seq<bv8>, marked: set<nat>, bits: nat, i: nat, n: nat, s': seq<bv8>)
    requires Stands(s, marked, bits) && i < |s| && n < 8 && 8 * i + n < bits && s' == s[i := s[i] | Mask(n)]
    ensures Stands(s', marked + {8 * i + n}, bits)
  {
    forall k: nat | k < 8 * |s| ensures On(s', k) == (k in marked + {8 * i + n} || k >= bits) { SetOn(s, i, n, k); }
  }

  lemma Unmarks(s: seq<bv8>, marked: set<nat>, bits: nat, i: nat, n: nat, s': seq<bv8>)
    requires Stands(s, marked, bits) && i < |s| && n < 8 && 8 * i + n < bits && s' == s[i := s[i] & !Mask(n)]
    ensures Stands(s', marked - {8 * i + n}, bits)
  {
    forall k: nat | k < 8 * |s| ensures On(s', k) == (k in marked - {8 * i + n} || k >= bits) { ClearOn(s, i, n, k); }
  }

  /** All of the bits below k are marked. */
  ghost predicate FullTo(marked: set<nat>, bits: nat, k: nat) { forall j: nat | j < k && j < bits :: j in marked }

  lemma FullByte(s: seq<bv8>, marked: set<nat>, bits: nat, i: nat)
    requires Stands(s, marked, bits) && i < |s| && s[i] == 0xFF && FullTo(marked, bits, 8 * i)
    ensures FullTo(marked, bits, 8 * i + 8)
  {
    AllBits(s[i]);
    forall j: nat | j < 8 * i + 8 && j < bits ensures j in marked {
      if j >= 8 * i { assert On(s, j); }
    }
  }

  class Bits {
    const bits: nat
    const bytes: array<bv8>
    ghost var marked: set<nat>

    ghost predicate Valid()
      reads this, bytes
    {
      Stands(bytes[..], marked, bits)
    }

    constructor (bits: nat)
      requires 0 < bits && bits + 7 < TWO32
      ensures Valid() && fresh(bytes) && marked == {} && this.bits == bits
    {
      this.bits, marked := bits, {};
      bytes := new bv8[ByteCount(bits)](_ => 0);
      new;
      if bytes.Length > bits / 8 {
        var i := bytes.Length - 1;
        for j := bits - 8 * i to 8
          invariant marked == {}
          invariant forall k: nat {:trigger On(bytes[..], k)} | k < 8 * bytes.Length ::
              On(bytes[..], k) == (bits <= k < 8 * i + j)
        {
          ghost var s := bytes[..];
          bytes[i] := bytes[i] | Mask(j);
          assert bytes[..] == s[i := s[i] | Mask(j)];
          forall k: nat | k < 8 * bytes.Length
            ensures On(bytes[..], k) == (bits <= k < 8 * i + j + 1)
          {
            SetOn(s, i, j, k);
          }
        }
      }
    }

    /** bitmap_alloc: the least clear bit, never a padding bit, or ENOSPC. */
    method Alloc() returns (r: Option<nat>)
      requires Valid()
      modifies this`marked, bytes
      ensures Valid() && (r.None? <==> FullTo(old(marked), bits, bits))
      ensures r.None? ==> marked == old(marked)
      ensures r.Some? ==>
          r.value < bits && r.value !in old(marked) && FullTo(old(marked), bits, r.value)
          && marked == old(marked) + {r.value}
    {
      for i := 0 to bytes.Length
        invariant Valid() && marked == old(marked) && FullTo(marked, bits, 8 * i)
      {
        if bytes[i] == 0xFF {
          FullByte(bytes[..], marked, bits, i);
        } else {
          var n := ClearIn(i);
          Claim(i, n);
          return Some(8 * i + n);
        }
      }
      r := None;
    }

    /** The inner loop: the first clear bit of a byte that has one. */
    method ClearIn(i: nat) returns (n: nat)
      requires Valid() && i < bytes.Length && bytes[i] != 0xFF && FullTo(marked, bits, 8 * i)
      ensures n < 8 && 8 * i + n < bits && 8 * i + n !in marked && FullTo(marked, bits, 8 * i + n)
    {
      AllBits(bytes[i]);
      ghost var clear: nat :| clear < 8 && !Bit(bytes[i], clear);
      n := 0;
      while Bit(bytes[i], n)
        invariant n <= clear && forall k: nat | k < n :: Bit(bytes[i], k)
        decreases 8 - n
      {
        n := n + 1;
      }
      forall j: nat | j < 8 * i + n && j < bits ensures j in marked {
        if j >= 8 * i { assert On(bytes[..], j); }
      }
      assert !On(bytes[..], 8 * i + n);
    }

    method Claim(i: nat, n: nat)
      requires Valid() && i < bytes.Length && n < 8 && 8 * i + n < bits
      modifies this`marked, bytes
      ensures Valid() && marked == old(marked) + {8 * i + n}
    {
      ghost var s := bytes[..];
      bytes[i] := bytes[i] | Mask(n);
      assert bytes[..] == s[i := s[i] | Mask(n)];
      Marks(s, marked, bits, i, n, bytes[..]);
      marked := marked + {8 * i + n};
    }

    method Mark(k: nat)
      requires Valid() && k < bits && k !in marked
      modifies this`marked, bytes
      ensures Valid() && marked == old(marked) + {k}
    {
      Claim(k / 8, k % 8);
    }

    method Unmark(k: nat)
      requires Valid() && k < bits && k in marked
      modifies this`marked, bytes
      ensures Valid() && marked == old(marked) - {k}
    {
      ghost var s := bytes[..];
      var i, n := k / 8, k % 8;
      bytes[i] := bytes[i] & !Mask(n);
      assert bytes[..] == s[i := s[i] & !Mask(n)];
      Unmarks(s, marked, bits, i, n, bytes[..]);
      marked := marked - {k};
    }

    method IsSet(k: nat) returns (b: bool)
      requires Valid() && k < bits
      ensures b == (k in marked)
    {
      b := Bit(bytes[k / 8], k % 8);
      assert On(bytes[..], k) == b;
    }
  }
}
