/**
  proc/pidreg.c: process ids from a counter, and from a queue of those given back. The
  bitmap marks the ids in use.
*/
module PidRegistrar {
  import opened Basics
  import B = Bitmap

  const NPID: nat := 1024
  const PID_MIN: nat := 1
  const EMPROC: nat := 6    // too many processes

  predicate Once(q: seq<nat>) { forall i, j | 0 <= i < j < |q| :: q[i] != q[j] }

  class Registrar {
    const pmap: B.Bits
    var reuse: seq<nat>
    var pcounter: nat
    var depth: nat    // lk_count of the registrar's lock, as its owner sees it

    /** Marked are the ids counted so far, except those waiting for reuse. */
    ghost predicate Valid()
      reads this, pmap, pmap.bytes
    {
      && pmap.Valid() && pmap.bits == NPID && PID_MIN <= pcounter <= NPID && Once(reuse)
      && (forall p | p in reuse :: PID_MIN <= p < pcounter)
      && (forall p: nat {:trigger p in pmap.marked} :: p in pmap.marked <==> PID_MIN <= p < pcounter && p !in reuse)
    }

    constructor ()
      ensures Valid() && fresh(pmap) && fresh(pmap.bytes) && pmap.marked == {}
    {
      pmap := new B.Bits(NPID);
      reuse, pcounter, depth := [], PID_MIN, 0;
    }

    predicate Available()
      reads this
    {
      pcounter < NPID || reuse != []
    }

    /** There is an id to give exactly while fewer than NPID - 1 are in use. */
    lemma AvailableIff()
      requires Valid()
      ensures Available() <==> exists p: nat :: PID_MIN <= p < NPID && p !in pmap.marked
    {
      if Available() {
        var p := if reuse != [] then reuse[0] else pcounter;
        assert reuse != [] ==> reuse[0] in reuse;
        assert PID_MIN <= p < NPID && p !in pmap.marked;
      }
    }

    /** An id nobody holds: the longest waiting, else the next never used. Without one the
        error number comes back, which is an id in use, and the lock stays held. */
    method GetPid() returns (pid: nat)
      requires Valid()
      modifies this`reuse, this`pcounter, this`depth, pmap, pmap.bytes
      ensures Valid() && PID_MIN <= pid < NPID && pmap.marked == old(pmap.marked) + {pid}
      ensures pid !in old(pmap.marked) <==> old(Available())
      ensures depth == if old(Available()) then old(depth) else old(depth) + 1
      ensures !old(Available()) ==> pid == EMPROC && reuse == old(reuse) && pcounter == old(pcounter)
      ensures old(reuse) != [] ==> pid == old(reuse)[0] && reuse == old(reuse)[1..] && pcounter == old(pcounter)
      ensures old(reuse) == [] && old(Available()) ==>
          pid == old(pcounter) && reuse == [] && pcounter == old(pcounter) + 1
    {
      depth := depth + 1;
      if !Available() { return EMPROC; }
      pid := Draw();
      depth := depth - 1;
    }

    method Draw() returns (pid: nat)
      requires Valid() && Available()
      modifies this`reuse, this`pcounter, pmap, pmap.bytes
      ensures Valid() && PID_MIN <= pid < NPID && pid !in old(pmap.marked) && pmap.marked == old(pmap.marked) + {pid}
      ensures old(reuse) != [] ==> pid == old(reuse)[0] && reuse == old(reuse)[1..] && pcounter == old(pcounter)
      ensures old(reuse) == [] ==> pid == old(pcounter) && reuse == [] && pcounter == old(pcounter) + 1
    {
      if reuse != [] {
        pid := reuse[0];
        assert pid in reuse && forall p | p in reuse[1..] :: p in reuse && p != pid;
        assert forall p | p in reuse && p != pid :: p in reuse[1..];
        reuse := reuse[1..];
      } else {
        pid := pcounter;
        pcounter := pcounter + 1;
      }
      pmap.Mark(pid);
    }

    method PidUsed(pid: nat) returns (used: bool)
      requires Valid() && pid < NPID
      ensures used == (pid in pmap.marked)
    {
      used := pid < pcounter;
      if used { used := pmap.IsSet(pid); }
    }

    method ReturnPid(pid: nat)
      requires Valid() && pid in pmap.marked
      modifies this`reuse, pmap, pmap.bytes
      ensures Valid() && pmap.marked == old(pmap.marked) - {pid} && reuse == old(reuse) + [pid]
    {
      pmap.Unmark(pid);
      assert forall p :: p in reuse + [pid] <==> p in reuse || p == pid;
      reuse := reuse + [pid];
    }
  }
}
