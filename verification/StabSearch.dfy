/**
  stab_binsearch in debug/debug.c: binary search among the entries of one type in a
  table of mixed types. On an exact match the search goes on for the next address, so
  the interval may stay as it is for one round.
*/
module StabSearch {
  import opened Basics

  datatype Stab = Stab(kind: nat, value: nat)

  type Stabs = seq<Stab>

  predicate Hit(s: Stabs, kind: nat, i: int) { 0 <= i < |s| && s[i].kind == kind }

  /** The entries of the kind have nondecreasing 32-bit values. */
  ghost predicate Sorted(s: Stabs, kind: nat) {
    && (forall i, j {:trigger Hit(s, kind, i), Hit(s, kind, j)} | Hit(s, kind, i) && Hit(s, kind, j) && i <= j ::
        s[i].value <= s[j].value)
    && (forall i {:trigger Hit(s, kind, i)} | Hit(s, kind, i) :: s[i].value < TWO32)
  }

  /** The last entry of the kind in [l, m], or l - 1. */
  function Nearest(s: Stabs, kind: nat, l: int, m: int): (r: int)
    requires 0 <= l && l - 1 <= m < |s|
    ensures l - 1 <= r <= m && (r >= l ==> Hit(s, kind, r)) && forall i | r < i <= m :: !Hit(s, kind, i)
    decreases m - l + 1
  {
    if m < l || s[m].kind == kind then m else Nearest(s, kind, l, m - 1)
  }

  /** The search's variables. */
  datatype State = State(l: int, r: int, addr: nat, left: int, right: int, any: bool)

  predicate Legal(s: Stabs, v: State) {
    0 <= v.l <= v.r + 1 && v.r < |s| && v.addr < TWO32 && 0 <= v.left && -1 <= v.right < |s|
  }

  function Probe(s: Stabs, kind: nat, v: State): int
    requires Legal(s, v) && v.l <= v.r
  {
    Nearest(s, kind, v.l, (v.l + v.r) / 2)
  }

  /** One round of the loop. */
  function Round(s: Stabs, kind: nat, v: State): (v': State)
    requires Legal(s, v) && v.l <= v.r
    ensures Legal(s, v')
  {
    var trueM, m := (v.l + v.r) / 2, Probe(s, kind, v);
    if m < v.l then v.(l := trueM + 1)
    else if s[m].value < v.addr then v.(left := m, l := trueM + 1, any := true)
    else if s[m].value > v.addr then v.(right := m - 1, r := m - 1, any := true)
    else v.(left := m, l := m, addr := U32(v.addr + 1), any := true)
  }

  /** What is left to search, and whether the next probe is exact. */
  function Measure(s: Stabs, kind: nat, v: State): nat
    requires Legal(s, v)
  {
    2 * (v.r - v.l + 1)
    + if v.l <= v.r && Probe(s, kind, v) >= v.l && s[Probe(s, kind, v)].value == v.addr then 1 else 0
  }

  /** An exact match leaves the interval but not the next round's answer. */
  lemma RoundDecreases(s: Stabs, kind: nat, v: State)
    requires Legal(s, v) && v.l <= v.r
    ensures Measure(s, kind, Round(s, kind, v)) < Measure(s, kind, v)
  {
  }

  function Bisect(s: Stabs, kind: nat, v: State): (v': State)
    requires Legal(s, v)
    ensures Legal(s, v') && v'.l == v'.r + 1
    decreases Measure(s, kind, v)
  {
    if v.l > v.r then v else RoundDecreases(s, kind, v); Bisect(s, kind, Round(s, kind, v))
  }

  /** The two ends after the final scan. */
  function Ends(s: Stabs, kind: nat, v: State): (int, int)
    requires Legal(s, v)
  {
    if !v.any then (v.left, v.left - 1)
    else if v.right <= v.left then (v.right, v.right)
    else (Nearest(s, kind, v.left + 1, v.right), v.right)
  }

  function Begin(l: int, r: int, addr: nat): State { State(l, r, addr, l, r, false) }

  // -------------------------------------------------------------------- what it finds

  ghost predicate Occurs(s: Stabs, kind: nat, l: int, r: int, x: nat) {
    exists i {:trigger Hit(s, kind, i)} :: l <= i <= r && Hit(s, kind, i) && s[i].value == x
  }

  /** A value from addr on that does not occur: counting up stops there and does not wrap. */
  ghost predicate Gap(s: Stabs, kind: nat, l: int, r: int, addr: nat, gap: nat) {
    addr <= gap < TWO32 && !Occurs(s, kind, l, r, gap)
  }

  /** Entries before l are below the address in force, those after r above the first one. */
  ghost predicate Parted(s: Stabs, kind: nat, l0: int, r0: int, addr0: nat, v: State) {
    && l0 <= v.l && v.right == v.r <= r0 && addr0 <= v.addr
    && (forall i {:trigger Hit(s, kind, i)} | l0 <= i < v.l && Hit(s, kind, i) :: s[i].value < v.addr)
    && (forall i {:trigger Hit(s, kind, i)} | v.r < i <= r0 && Hit(s, kind, i) :: s[i].value > addr0)
    && (v.r == r0 || Hit(s, kind, v.r + 1))
    && (forall x: nat | addr0 <= x < v.addr :: Occurs(s, kind, l0, r0, x))
  }

  /** `left` is still where it began, or at an entry below the address. */
  ghost predicate Noted(s: Stabs, kind: nat, l0: int, r0: int, addr0: nat, v: State) {
    && (if v.left == l0 && !(l0 <= v.r && Hit(s, kind, l0) && s[l0].value < v.addr)
        then v.addr == addr0 && forall i {:trigger Hit(s, kind, i)} | l0 <= i < v.l :: !Hit(s, kind, i)
        else l0 <= v.left <= v.r && Hit(s, kind, v.left) && s[v.left].value < v.addr)
    && (!v.any ==>
        v.left == l0 && v.r == r0 && v.addr == addr0 && forall i {:trigger Hit(s, kind, i)} | l0 <= i < v.l ::
        !Hit(s, kind, i))
    && (v.any ==> exists i {:trigger Hit(s, kind, i)} :: l0 <= i <= r0 && Hit(s, kind, i))
  }

  /** The next probe is an exact match. */
  predicate Exact(s: Stabs, kind: nat, v: State)
    requires Legal(s, v)
  {
    v.l <= v.r && Probe(s, kind, v) >= v.l && s[Probe(s, kind, v)].value == v.addr
  }

  /** A round that does not count the address over the end. */
  lemma RoundParts(s: Stabs, kind: nat, l0: int, r0: int, addr0: nat, v: State)
    requires Sorted(s, kind) && Legal(s, v) && v.l <= v.r && 0 <= l0 && Parted(s, kind, l0, r0, addr0, v)
    requires Exact(s, kind, v) ==> v.addr < TWO32 - 1
    ensures Parted(s, kind, l0, r0, addr0, Round(s, kind, v))
  {
    var m, v' := Probe(s, kind, v), Round(s, kind, v);
    if m >= v.l {
      assert Hit(s, kind, m);
      forall x: nat | addr0 <= x < v'.addr ensures Occurs(s, kind, l0, r0, x) {
        if x >= v.addr { assert s[m].value == x; }
      }
    }
  }

  lemma RoundNotes(s: Stabs, kind: nat, l0: int, r0: int, addr0: nat, v: State)
    requires Sorted(s, kind) && Legal(s, v) && v.l <= v.r && 0 <= l0
    requires Parted(s, kind, l0, r0, addr0, v) && Noted(s, kind, l0, r0, addr0, v)
    requires Exact(s, kind, v) ==> v.addr < TWO32 - 1
    ensures Noted(s, kind, l0, r0, addr0, Round(s, kind, v))
  {
    var m := Probe(s, kind, v);
    if m >= v.l { assert Hit(s, kind, m); }
  }

  lemma {:induction false} BisectParts(s: Stabs, kind: nat, l0: int, r0: int, addr0: nat, gap: nat, v: State)
    requires Sorted(s, kind) && Legal(s, v) && 0 <= l0 && Parted(s, kind, l0, r0, addr0, v)
    requires Noted(s, kind, l0, r0, addr0, v) && Gap(s, kind, l0, r0, addr0, gap) && v.addr <= gap
    ensures Parted(s, kind, l0, r0, addr0, Bisect(s, kind, v)) && Noted(s, kind, l0, r0, addr0, Bisect(s, kind, v))
    decreases Measure(s, kind, v)
  {
    if v.l <= v.r {
      if Exact(s, kind, v) { assert Hit(s, kind, Probe(s, kind, v)); }
      RoundKeeps(s, kind, l0, r0, addr0, v, Round(s, kind, v));
      RoundDecreases(s, kind, v);
      BisectParts(s, kind, l0, r0, addr0, gap, Round(s, kind, v));
    }
  }

  ghost predicate Some(s: Stabs, kind: nat, l: int, r: int) {
    exists i {:trigger Hit(s, kind, i)} :: l <= i <= r && Hit(s, kind, i)
  }

  function Search(s: Stabs, kind: nat, l: int, r: int, addr: nat): (int, int)
    requires 0 <= l <= r + 1 && r < |s| && addr < TWO32
  {
    Ends(s, kind, Bisect(s, kind, Begin(l, r, addr)))
  }

  /** The region a search comes back with. `limit` is the address in force
      at the end: it was counted up over values that all occur. Entries up to `right` are
      below it, those after `right` above addr; `left` is the last one of the former. */
  ghost predicate Found(s: Stabs, kind: nat, l: int, r: int, addr: nat, limit: nat, left: int, right: int) {
    && addr <= limit && (forall x: nat | addr <= x < limit :: Occurs(s, kind, l, r, x))
    && if !Some(s, kind, l, r) then left == l && right == l - 1
       else
         && l - 1 <= right <= r && left <= right && (right == r || Hit(s, kind, right + 1))
         && (forall i {:trigger Hit(s, kind, i)} | right < i <= r && Hit(s, kind, i) :: s[i].value > addr)
         && (forall i {:trigger Hit(s, kind, i)} | l <= i <= right && Hit(s, kind, i) ::
             i <= left && s[i].value < limit)
         && (Some(s, kind, l, right) ==> l <= left && Hit(s, kind, left))
  }

  lemma EndsFind(s: Stabs, kind: nat, l: int, r: int, addr: nat, v: State)
    requires Legal(s, v) && 0 <= l <= r + 1 && r < |s| && v.l == v.r + 1 && Parted(s, kind, l, r, addr, v)
    requires Noted(s, kind, l, r, addr, v)
    ensures Found(s, kind, l, r, addr, v.addr, Ends(s, kind, v).0, Ends(s, kind, v).1)
  {
    if v.any && v.right > v.left {
      var n := Nearest(s, kind, v.left + 1, v.right);
      assert n > v.left ==> Hit(s, kind, n);
    }
  }

  lemma SearchFinds(s: Stabs, kind: nat, l: int, r: int, addr: nat, gap: nat) returns (limit: nat)
    requires Sorted(s, kind) && 0 <= l <= r + 1 && r < |s| && Gap(s, kind, l, r, addr, gap)
    ensures Found(s, kind, l, r, addr, limit, Search(s, kind, l, r, addr).0, Search(s, kind, l, r, addr).1)
  {
    var v0 := Begin(l, r, addr);
    BisectParts(s, kind, l, r, addr, gap, v0);
    EndsFind(s, kind, l, r, addr, Bisect(s, kind, v0));
    limit := Bisect(s, kind, v0).addr;
  }

  // ------------------------------------------------- when the region is the right one

  /** The region starts at the last entry at or below addr and ends before the next one, or
      where it ended. */
  ghost predicate Brackets(s: Stabs, kind: nat, l: int, r: int, addr: nat, region: (int, int)) {
    var (left, right) := region;
    && l <= left <= right <= r && Hit(s, kind, left) && s[left].value <= addr
    && (forall i {:trigger Hit(s, kind, i)} | left < i <= r && Hit(s, kind, i) :: i > right && s[i].value > addr)
    && (right == r || Hit(s, kind, right + 1))
  }

  ghost predicate Below(s: Stabs, kind: nat, l: int, r: int, addr: nat) {
    exists i {:trigger Hit(s, kind, i)} :: l <= i <= r && Hit(s, kind, i) && s[i].value <= addr
  }

  /** An ordinary binary search: rounds until an exact match, or to the end. */
  function FirstExact(s: Stabs, kind: nat, v: State): (e: State)
    requires Legal(s, v)
    ensures Legal(s, e) && (e.l > e.r || Exact(s, kind, e)) && e.addr == v.addr && v.l <= e.l && e.r <= v.r
    ensures v.right == v.r ==> e.right == e.r
    decreases v.r - v.l + 1
  {
    if v.l > v.r || Exact(s, kind, v) then v else FirstExact(s, kind, Round(s, kind, v))
  }

  lemma {:induction false} FirstExactBisects(s: Stabs, kind: nat, v: State)
    requires Legal(s, v)
    ensures Bisect(s, kind, FirstExact(s, kind, v)) == Bisect(s, kind, v)
    decreases v.r - v.l + 1
  {
    if v.l <= v.r && !Exact(s, kind, v) {
      RoundDecreases(s, kind, v);
      FirstExactBisects(s, kind, Round(s, kind, v));
    }
  }

  lemma RoundKeeps(s: Stabs, kind: nat, l0: int, r0: int, addr0: nat, v: State, v': State)
    requires Sorted(s, kind) && Legal(s, v) && v.l <= v.r && 0 <= l0 && v' == Round(s, kind, v)
    requires Parted(s, kind, l0, r0, addr0, v) && Noted(s, kind, l0, r0, addr0, v)
    requires Exact(s, kind, v) ==> v.addr < TWO32 - 1
    ensures Parted(s, kind, l0, r0, addr0, v') && Noted(s, kind, l0, r0, addr0, v')
  {
    RoundParts(s, kind, l0, r0, addr0, v);
    RoundNotes(s, kind, l0, r0, addr0, v);
  }

  lemma {:induction false} FirstExactParts(s: Stabs, kind: nat, l0: int, r0: int, addr0: nat, v: State)
    requires Sorted(s, kind) && Legal(s, v) && 0 <= l0
    requires Parted(s, kind, l0, r0, addr0, v) && Noted(s, kind, l0, r0, addr0, v)
    ensures Parted(s, kind, l0, r0, addr0, FirstExact(s, kind, v))
    ensures Noted(s, kind, l0, r0, addr0, FirstExact(s, kind, v))
    decreases v.r - v.l + 1
  {
    if v.l <= v.r && !Exact(s, kind, v) {
      var v' := Round(s, kind, v);
      RoundKeeps(s, kind, l0, r0, addr0, v, v');
      FirstExactParts(s, kind, l0, r0, addr0, v');
      assert FirstExact(s, kind, v) == FirstExact(s, kind, v');
    } else {
      assert FirstExact(s, kind, v) == v;
    }
  }

  /** It finds the address if it is there. */
  lemma {:induction false} FirstExactFinds(s: Stabs, kind: nat, v: State)
    requires Sorted(s, kind) && Legal(s, v)
    ensures Exact(s, kind, FirstExact(s, kind, v)) <==> Occurs(s, kind, v.l, v.r, v.addr)
    decreases v.r - v.l + 1
  {
    if v.l <= v.r {
      var m := Probe(s, kind, v);
      if m >= v.l { assert Hit(s, kind, m); }
      if !Exact(s, kind, v) {
        var v' := Round(s, kind, v);
        FirstExactFinds(s, kind, v');
        if Occurs(s, kind, v.l, v.r, v.addr) {
          var i :| v.l <= i <= v.r && Hit(s, kind, i) && s[i].value == v.addr;
          assert v'.l <= i <= v'.r;
        }
      }
    }
  }

  /** With the address wrapped to 0, everything from an exact match on is too large. */
  lemma {:induction false} WrappedEnds(s: Stabs, kind: nat, top: int, v: State)
    requires Sorted(s, kind) && Legal(s, v) && Hit(s, kind, top) && s[top].value > 0
    requires v.addr == 0 && v.l == v.left == top && v.right == v.r >= top - 1 && v.any
    ensures Ends(s, kind, Bisect(s, kind, v)) == (top - 1, top - 1)
    decreases v.r
  {
    if v.l <= v.r {
      var m := Probe(s, kind, v);
      assert Hit(s, kind, m) && m >= top;
      RoundDecreases(s, kind, v);
      WrappedEnds(s, kind, top, Round(s, kind, v));
    }
  }

  /** An exact match at the largest address counts up to 0 and is lost. */
  lemma MatchWraps(s: Stabs, kind: nat, e: State)
    requires Sorted(s, kind) && Legal(s, e) && Exact(s, kind, e) && e.addr == TWO32 - 1 && e.right == e.r
    ensures var top := Probe(s, kind, e); Hit(s, kind, top) && Ends(s, kind, Bisect(s, kind, e)) == (top - 1, top - 1)
  {
    RoundDecreases(s, kind, e);
    WrappedEnds(s, kind, Probe(s, kind, e), Round(s, kind, e));
  }

  /** Once `left` is at or behind entry j, the region does not start before j. */
  lemma {:induction false} StaysBehind(s: Stabs, kind: nat, j: int, v: State)
    requires Sorted(s, kind) && Legal(s, v) && Hit(s, kind, j) && s[j].value < TWO32 - 1
    requires j <= v.left <= v.l && v.left <= v.r == v.right && v.any
    requires Hit(s, kind, v.left) && s[v.left].value < v.addr
    ensures Ends(s, kind, Bisect(s, kind, v)).0 >= j
    decreases Measure(s, kind, v)
  {
    if v.l <= v.r {
      var m := Probe(s, kind, v);
      if m >= v.l { assert Hit(s, kind, m); }
      if Exact(s, kind, v) && v.addr == TWO32 - 1 {
        MatchWraps(s, kind, v);
      } else {
        RoundDecreases(s, kind, v);
        StaysBehind(s, kind, j, Round(s, kind, v));
      }
    }
  }

  /** The match of addr + 1 that e1 is about to wrap stands just behind an entry at addr. */
  predicate Harmless(s: Stabs, kind: nat, l: int, addr: nat, e1: State)
    requires Legal(s, e1) && Exact(s, kind, e1)
  {
    var top := Probe(s, kind, e1);
    addr == TWO32 - 2 && l < top && Hit(s, kind, top - 1) && s[top - 1].value == addr
  }

  /** When the search brackets the address, in terms of ordinary binary searches: there is no
      exact match; or, the address not being the largest, the one after it is not found behind
      the match. At the last but one address finding that one too does no harm if the entry
      before it, whatever its type, has the address itself. */
  ghost predicate Good(s: Stabs, kind: nat, l: int, r: int, addr: nat)
    requires 0 <= l <= r < |s| && addr < TWO32
  {
    var e := FirstExact(s, kind, Begin(l, r, addr));
    Exact(s, kind, e) ==>
      && addr < TWO32 - 1
      && var e1 := FirstExact(s, kind, Round(s, kind, e)); Exact(s, kind, e1) ==> Harmless(s, kind, l, addr, e1)
  }

  lemma Settles(s: Stabs, kind: nat, l: int, r: int, addr: nat, e: State)
    requires Sorted(s, kind) && 0 <= l <= r < |s| && addr < TWO32 && Below(s, kind, l, r, addr)
    requires Legal(s, e) && e.l == e.r + 1 && e.addr <= addr + 1
    requires Parted(s, kind, l, r, addr, e) && Noted(s, kind, l, r, addr, e)
    ensures Brackets(s, kind, l, r, addr, Ends(s, kind, e))
  {
    EndsFind(s, kind, l, r, addr, e);
    var i :| l <= i <= r && Hit(s, kind, i) && s[i].value <= addr;
    assert i <= Ends(s, kind, e).1;
  }

  /** A search that ends without an exact match, counted up at most once, is right. */
  lemma StopsRight(s: Stabs, kind: nat, l: int, r: int, addr: nat, v: State, e: State)
    requires Sorted(s, kind) && 0 <= l <= r < |s| && addr < TWO32 && Below(s, kind, l, r, addr)
    requires Legal(s, v) && Parted(s, kind, l, r, addr, v) && Noted(s, kind, l, r, addr, v) && v.addr <= addr + 1
    requires e == FirstExact(s, kind, v) && e.l > e.r
    ensures Brackets(s, kind, l, r, addr, Ends(s, kind, e)) && Bisect(s, kind, v) == e
  {
    FirstExactBisects(s, kind, v);
    FirstExactParts(s, kind, l, r, addr, v);
    Settles(s, kind, l, r, addr, e);
  }

  lemma BeginParts(s: Stabs, kind: nat, l: int, r: int, addr: nat)
    requires 0 <= l <= r + 1 && r < |s| && addr < TWO32
    ensures Parted(s, kind, l, r, addr, Begin(l, r, addr)) && Noted(s, kind, l, r, addr, Begin(l, r, addr))
  {
  }

  lemma StopsAtOnce(s: Stabs, kind: nat, l: int, r: int, addr: nat)
    requires Sorted(s, kind) && 0 <= l <= r < |s| && addr < TWO32 && Below(s, kind, l, r, addr)
    requires !Exact(s, kind, FirstExact(s, kind, Begin(l, r, addr)))
    ensures Brackets(s, kind, l, r, addr, Search(s, kind, l, r, addr))
  {
    BeginParts(s, kind, l, r, addr);
    StopsRight(s, kind, l, r, addr, Begin(l, r, addr), FirstExact(s, kind, Begin(l, r, addr)));
  }

  lemma MatchParts(s: Stabs, kind: nat, l: int, r: int, addr: nat, e: State, n: State)
    requires Sorted(s, kind) && 0 <= l <= r < |s| && addr < TWO32 - 1
    requires e == FirstExact(s, kind, Begin(l, r, addr)) && Exact(s, kind, e) && n == Round(s, kind, e)
    ensures Parted(s, kind, l, r, addr, n) && Noted(s, kind, l, r, addr, n) && n.addr == addr + 1
  {
    BeginParts(s, kind, l, r, addr);
    FirstExactParts(s, kind, l, r, addr, Begin(l, r, addr));
    RoundKeeps(s, kind, l, r, addr, e, n);
  }

  lemma StopsAfterMatch(s: Stabs, kind: nat, l: int, r: int, addr: nat, e: State, n: State)
    requires Sorted(s, kind) && 0 <= l <= r < |s| && addr < TWO32 - 1 && Below(s, kind, l, r, addr)
    requires e == FirstExact(s, kind, Begin(l, r, addr)) && Exact(s, kind, e) && n == Round(s, kind, e)
    requires !Exact(s, kind, FirstExact(s, kind, n))
    ensures Brackets(s, kind, l, r, addr, Ends(s, kind, Bisect(s, kind, n)))
  {
    MatchParts(s, kind, l, r, addr, e, n);
    StopsRight(s, kind, l, r, addr, n, FirstExact(s, kind, n));
  }

  /** A region behind an entry above addr, or before one at addr, is wrong. */
  lemma Misses(s: Stabs, kind: nat, l: int, r: int, addr: nat, j: int, region: (int, int))
    requires Sorted(s, kind) && Hit(s, kind, j) && j <= r
    requires if s[j].value > addr then j <= region.0 else region.0 < j
    ensures !Brackets(s, kind, l, r, addr, region)
  {
  }

  lemma TopBrackets(s: Stabs, kind: nat, l: int, r: int, addr: nat, m: int, top: int)
    requires Sorted(s, kind) && 0 <= l <= m < top <= r < |s| && Hit(s, kind, m) && Hit(s, kind, top)
    requires s[m].value == addr && s[top].value == addr + 1
    ensures Brackets(s, kind, l, r, addr, (top - 1, top - 1)) <==> Hit(s, kind, top - 1) && s[top - 1].value == addr
  {
    if Brackets(s, kind, l, r, addr, (top - 1, top - 1)) { assert Hit(s, kind, top - 1); }
  }

  /** After exact matches at m for addr and at m1 for addr + 1. */
  lemma SecondMatch(s: Stabs, kind: nat, l: int, r: int, addr: nat, m: int, e1: State)
    requires Sorted(s, kind) && 0 <= l <= m <= e1.l && e1.r == e1.right <= r < |s| && addr < TWO32 - 1
    requires Hit(s, kind, m) && s[m].value == addr && Legal(s, e1) && Exact(s, kind, e1) && e1.addr == addr + 1
    ensures Brackets(s, kind, l, r, addr, Ends(s, kind, Bisect(s, kind, e1))) <==> Harmless(s, kind, l, addr, e1)
  {
    var m1 := Probe(s, kind, e1);
    assert Hit(s, kind, m1) && m < m1;
    if addr == TWO32 - 2 {
      MatchWraps(s, kind, e1);
      TopBrackets(s, kind, l, r, addr, m, m1);
    } else {
      RoundDecreases(s, kind, e1);
      StaysBehind(s, kind, m1, Round(s, kind, e1));
      Misses(s, kind, l, r, addr, m1, Ends(s, kind, Bisect(s, kind, e1)));
    }
  }

  lemma MatchFacts(s: Stabs, kind: nat, l: int, r: int, addr: nat, e: State, n: State, e1: State)
    requires 0 <= l <= r < |s| && addr < TWO32 - 1 && Legal(s, e) && Exact(s, kind, e) && n == Round(s, kind, e)
    requires l <= e.l && e.r == e.right <= r && e.addr == addr && e1 == FirstExact(s, kind, n)
    ensures l <= n.l <= e1.l && e1.r == e1.right <= r && e1.addr == addr + 1
    ensures Hit(s, kind, n.l) && s[n.l].value == addr && Bisect(s, kind, e) == Bisect(s, kind, n)
  {
    assert n.l == Probe(s, kind, e) && n.right == n.r && n.addr == addr + 1;
    RoundDecreases(s, kind, e);
  }

  /** What follows an exact match below the largest address. */
  lemma AfterMatch(s: Stabs, kind: nat, l: int, r: int, addr: nat, e: State, n: State, e1: State)
    requires Sorted(s, kind) && 0 <= l <= r < |s| && addr < TWO32 - 1 && Below(s, kind, l, r, addr)
    requires e == FirstExact(s, kind, Begin(l, r, addr)) && Exact(s, kind, e) && n == Round(s, kind, e)
    requires e1 == FirstExact(s, kind, n)
    ensures Brackets(s, kind, l, r, addr, Ends(s, kind, Bisect(s, kind, e))) <==>
              (Exact(s, kind, e1) ==> Harmless(s, kind, l, addr, e1))
  {
    MatchFacts(s, kind, l, r, addr, e, n, e1);
    FirstExactBisects(s, kind, n);
    if Exact(s, kind, e1) {
      SecondMatch(s, kind, l, r, addr, n.l, e1);
    } else {
      StopsAfterMatch(s, kind, l, r, addr, e, n);
    }
  }

  lemma AtTheTop(s: Stabs, kind: nat, l: int, r: int, e: State)
    requires Sorted(s, kind) && 0 <= l <= r < |s|
    requires e == FirstExact(s, kind, Begin(l, r, TWO32 - 1)) && Exact(s, kind, e)
    ensures var top := Probe(s, kind, e);
      && l <= top <= r && Hit(s, kind, top) && s[top].value == TWO32 - 1
      && Ends(s, kind, Bisect(s, kind, e)) == (top - 1, top - 1)
    ensures !Brackets(s, kind, l, r, TWO32 - 1, Ends(s, kind, Bisect(s, kind, e)))
  {
    MatchWraps(s, kind, e);
    var top := Probe(s, kind, e);
    Misses(s, kind, l, r, TWO32 - 1, top, (top - 1, top - 1));
  }

  /** Whenever some entry is at or below addr, the region comes back right if and only if that
      is so. */
  lemma ContainsIff(s: Stabs, kind: nat, l: int, r: int, addr: nat)
    requires Sorted(s, kind) && 0 <= l <= r < |s| && addr < TWO32 && Below(s, kind, l, r, addr)
    ensures Brackets(s, kind, l, r, addr, Search(s, kind, l, r, addr)) <==> Good(s, kind, l, r, addr)
  {
    var e := FirstExact(s, kind, Begin(l, r, addr));
    FirstExactBisects(s, kind, Begin(l, r, addr));
    if !Exact(s, kind, e) {
      StopsAtOnce(s, kind, l, r, addr);
    } else if addr == TWO32 - 1 {
      AtTheTop(s, kind, l, r, e);
    } else {
      AfterMatch(s, kind, l, r, addr, e, Round(s, kind, e), FirstExact(s, kind, Round(s, kind, e)));
    }
  }

  lemma NoSecondMatch(s: Stabs, kind: nat, l: int, r: int, n: State)
    requires Sorted(s, kind) && Legal(s, n) && l <= n.l && n.r <= r && !Occurs(s, kind, l, r, n.addr)
    ensures !Exact(s, kind, FirstExact(s, kind, n))
  {
    FirstExactFinds(s, kind, n);
  }

  /** In particular it is right unless addr occurs, and with it addr + 1, or as the largest
      address. */
  lemma Contains(s: Stabs, kind: nat, l: int, r: int, addr: nat)
    requires Sorted(s, kind) && 0 <= l <= r < |s| && addr < TWO32 && Below(s, kind, l, r, addr)
    requires !(Occurs(s, kind, l, r, addr) && (addr == TWO32 - 1 || Occurs(s, kind, l, r, addr + 1)))
    ensures Brackets(s, kind, l, r, addr, Search(s, kind, l, r, addr))
  {
    var e := FirstExact(s, kind, Begin(l, r, addr));
    FirstExactFinds(s, kind, Begin(l, r, addr));
    if Exact(s, kind, e) { NoSecondMatch(s, kind, l, r, Round(s, kind, e)); }
    ContainsIff(s, kind, l, r, addr);
  }

  /** At the largest address the search is right if and only if nothing is there; else it ends
      just before an entry of that address. */
  lemma TopWraps(s: Stabs, kind: nat, l: int, r: int) returns (top: int)
    requires Sorted(s, kind) && 0 <= l <= r < |s| && Some(s, kind, l, r)
    ensures Brackets(s, kind, l, r, TWO32 - 1, Search(s, kind, l, r, TWO32 - 1)) <==> !Occurs(s, kind, l, r, TWO32 - 1)
    ensures Occurs(s, kind, l, r, TWO32 - 1) ==>
              && l <= top <= r && Hit(s, kind, top) && s[top].value == TWO32 - 1
              && Search(s, kind, l, r, TWO32 - 1) == (top - 1, top - 1)
  {
    var e := FirstExact(s, kind, Begin(l, r, TWO32 - 1));
    top := l;
    FirstExactFinds(s, kind, Begin(l, r, TWO32 - 1));
    FirstExactBisects(s, kind, Begin(l, r, TWO32 - 1));
    if Exact(s, kind, e) {
      top := Probe(s, kind, e);
      AtTheTop(s, kind, l, r, e);
    } else {
      StopsAtOnce(s, kind, l, r, TWO32 - 1);
    }
  }

  lemma Goes(s: Stabs, kind: nat, v: State, v': State)
    requires Legal(s, v) && v.l <= v.r && Round(s, kind, v) == v'
    ensures Legal(s, v') && Bisect(s, kind, v) == Bisect(s, kind, v')
  {
    RoundDecreases(s, kind, v);
  }

  /** Entries at addr and at addr + 1 can both be taken for exact matches. */
  lemma NextTakenToo(s: Stabs)
    requires s == [Stab(1, 5), Stab(1, 6)]
    ensures Sorted(s, 1) && Search(s, 1, 0, 1, 5) == (1, 1)
  {
    assert Nearest(s, 1, 0, 0) == 0 && Nearest(s, 1, 1, 1) == 1;
    Goes(s, 1, Begin(0, 1, 5), State(0, 1, 6, 0, 1, true));
    Goes(s, 1, State(0, 1, 6, 0, 1, true), State(1, 1, 6, 0, 1, true));
    Goes(s, 1, State(1, 1, 6, 0, 1, true), State(1, 1, 7, 1, 1, true));
    Goes(s, 1, State(1, 1, 7, 1, 1, true), State(2, 1, 7, 1, 1, true));
  }

  /** But need not: here the entry at addr + 1 is passed over before addr counts up. */
  lemma NextPassed(s: Stabs)
    requires s == [Stab(1, 5), Stab(1, 6), Stab(1, 7)]
    ensures Sorted(s, 1) && Search(s, 1, 0, 2, 5) == (0, 0)
  {
    assert Nearest(s, 1, 0, 1) == 1 && Nearest(s, 1, 0, 0) == 0;
    Goes(s, 1, Begin(0, 2, 5), State(0, 0, 5, 0, 0, true));
    Goes(s, 1, State(0, 0, 5, 0, 0, true), State(0, 0, 6, 0, 0, true));
    Goes(s, 1, State(0, 0, 6, 0, 0, true), State(1, 0, 6, 0, 0, true));
  }

  /** `any` tells whether an entry of the kind has been probed. */
  ghost predicate Probed(s: Stabs, kind: nat, l: int, r: int, v: State) {
    && l <= v.l && v.r <= r
    && if v.any then Some(s, kind, l, r)
        else v.left == l && v.r == r && forall i {:trigger Hit(s, kind, i)} | l <= i < v.l :: !Hit(s, kind, i)
  }

  lemma {:induction false} BisectProbes(s: Stabs, kind: nat, l: int, r: int, v: State)
    requires Legal(s, v) && 0 <= l && Probed(s, kind, l, r, v)
    ensures Probed(s, kind, l, r, Bisect(s, kind, v))
    decreases Measure(s, kind, v)
  {
    if v.l <= v.r {
      var m := Probe(s, kind, v);
      if m >= v.l { assert Hit(s, kind, m); }
      RoundDecreases(s, kind, v);
      BisectProbes(s, kind, l, r, Round(s, kind, v));
    }
  }

  /** The region comes back empty exactly if it has no entry of the kind, whatever the
      values. */
  lemma EmptyIff(s: Stabs, kind: nat, l: int, r: int, addr: nat)
    requires 0 <= l <= r + 1 && r < |s| && addr < TWO32
    ensures Search(s, kind, l, r, addr).0 > Search(s, kind, l, r, addr).1 <==> !Some(s, kind, l, r)
  {
    BisectProbes(s, kind, l, r, Begin(l, r, addr));
  }

  /** So an empty region means that no entry is at or below addr exactly in the regions
      that have such an entry, or no entry at all. */
  lemma EmptyMeansIff(s: Stabs, kind: nat, l: int, r: int, addr: nat)
    requires 0 <= l <= r + 1 && r < |s| && addr < TWO32
    ensures (Search(s, kind, l, r, addr).0 > Search(s, kind, l, r, addr).1 <==> !Below(s, kind, l, r, addr))
            <==> (Below(s, kind, l, r, addr) || !Some(s, kind, l, r))
  {
    EmptyIff(s, kind, l, r, addr);
  }

  // ------------------------------------------------------------------------ the loops

  /** Down to the last entry of the kind, at most to l - 1. */
  method ScanDown(s: Stabs, kind: nat, l: int, from: int) returns (m: int)
    requires 0 <= l <= from + 1 && from < |s|
    ensures m == Nearest(s, kind, l, from)
  {
    m := from;
    while m >= l && s[m].kind != kind
      invariant l - 1 <= m <= from && Nearest(s, kind, l, m) == Nearest(s, kind, l, from)
    {
      m := m - 1;
    }
  }

  method Narrow(s: Stabs, kind: nat, v: State) returns (v': State)
    requires Legal(s, v) && v.l <= v.r
    ensures v' == Round(s, kind, v)
  {
    var trueM := (v.l + v.r) / 2;
    var m := ScanDown(s, kind, v.l, trueM);
    v' := v;
    if m < v.l {
      v' := v'.(l := trueM + 1);
    } else {
      v' := v'.(any := true);
      if s[m].value < v.addr {
        v' := v'.(left := m, l := trueM + 1);
      } else if s[m].value > v.addr {
        v' := v'.(right := m - 1, r := m - 1);
      } else {
        v' := v'.(left := m, l := m, addr := U32(v.addr + 1));
      }
    }
  }

  /** stab_binsearch */
  method StabBinsearch(s: Stabs, kind: nat, l: int, r: int, addr: nat) returns (left: int, right: int)
    requires 0 <= l <= r + 1 && r < |s| && addr < TWO32
    ensures (left, right) == Search(s, kind, l, r, addr)
  {
    var v := Begin(l, r, addr);
    while v.l <= v.r
      invariant Legal(s, v) && Bisect(s, kind, v) == Bisect(s, kind, Begin(l, r, addr))
      decreases Measure(s, kind, v)
    {
      Goes(s, kind, v, Round(s, kind, v));
      RoundDecreases(s, kind, v);
      v := Narrow(s, kind, v);
    }
    left, right := v.left, v.right;
    if !v.any {
      right := left - 1;
    } else if right > left {
      left := ScanDown(s, kind, left + 1, right);
    } else {
      left := right;
    }
  }
}
