/**
  The table of all wait channels (wchan_create and wchan_destroy in synch/wchan.c): every
  channel knows its slot, and a destroyed one's slot goes to the last.
*/
module ChannelRegistry {

  class Wchan {
    var index: nat

    constructor ()
    {
      index := 0;
    }
  }

  class Registry {
    var all: seq<Wchan>

    /** Each channel in the slot it names, hence in one slot only. */
    ghost predicate Valid()
      reads this, all
    {
      forall i {:trigger all[i].index} | 0 <= i < |all| :: all[i].index == i
    }

    constructor ()
      ensures Valid() && all == []
    {
      all := [];
    }

    method Create() returns (wc: Wchan)
      requires Valid()
      modifies this
      ensures Valid() && fresh(wc) && all == old(all) + [wc]
    {
      wc := new Wchan();
      wc.index := |all|;
      all := all + [wc];
    }

    /** The assertion on the slot holds of every registered channel; the others stay
        registered, once each. */
    method Destroy(wc: Wchan)
      requires Valid() && wc in all
      modifies this, all
      ensures Valid() && |all| == |old(all)| - 1 && multiset(all) == multiset(old(all)) - multiset{wc} && wc !in all
    {
      var num := |all|;
      ghost var k, before := wc.index, all;
      ghost var j :| 0 <= j < |all| && all[j] == wc;
      assert all[j].index == j && all[k] == wc;
      if wc.index < num - 1 {
        var wc2 := all[num - 1];
        assert wc2.index == num - 1 && wc2 != wc;
        all := all[wc.index := wc2];
        wc2.index := wc.index;
      }
      ghost var moved := all;
      all := all[..num - 1];
      assert moved == all + [moved[num - 1]];
      SwapRemoved(before, k, moved, all);
    }

    static lemma SwapRemoved(s: seq<Wchan>, k: nat, moved: seq<Wchan>, t: seq<Wchan>)
      requires k < |s| && moved == s[k := s[|s| - 1]] && t == moved[..|s| - 1]
      ensures multiset(t) == multiset(s) - multiset{s[k]}
    {
      var last := s[|s| - 1];
      assert moved == t + [last];
      assert multiset(t) + multiset{last} == multiset(moved) == multiset(s) - multiset{s[k]} + multiset{last};
      assert multiset(t) == multiset(t) + multiset{last} - multiset{last};
    }
  }
}
