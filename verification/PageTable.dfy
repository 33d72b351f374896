/**
  mem/vmm.c over mem/pmm.c: page tables built in frames that the bitmap hands out, and the
  regions that proc/proc.c maps for a process. A method answers `ok` false where the
  kernel panics for want of a frame.
*/
module PageTable {
  import opened Basics
  import opened Paging
  import B = Bitmap

  /** Of the directories only d has changed, if any. */
  ghost predicate OnlyDir(dirs: map<Dir, Table>, d: Dir, dirs': map<Dir, Table>) {
    d in dirs' && dirs' == dirs[d := dirs'[d]]
  }

  lemma OnlyTwice(dirs: map<Dir, Table>, d: Dir, dirs1: map<Dir, Table>, dirs2: map<Dir, Table>)
    requires OnlyDir(dirs, d, dirs1) && OnlyDir(dirs1, d, dirs2)
    ensures OnlyDir(dirs, d, dirs2)
  {
  }

  class Vm {
    const physmap: B.Bits
    const kpd: Dir
    var dirs: map<Dir, Table>
    var tables: map<Frame, Table>

    ghost function Now(): Space
      reads this
    {
      Space(dirs, tables)
    }

    ghost predicate Valid()
      reads this, physmap, physmap.bytes
    {
      physmap.Valid() && kpd in dirs && Closed(Now()) && Private(Now()) && tables.Keys <= physmap.marked
    }

    /** No two processes, and no process and the page tables, share a frame. */
    ghost predicate Apart()
      reads this, physmap
    {
      Exclusive(Now()) && Taken(Now(), physmap.marked)
    }

    /** No frame is free. */
    ghost predicate Full()
      reads physmap
    {
      B.FullTo(physmap.marked, physmap.bits, physmap.bits)
    }

    /** An initialised bitmap and an empty kernel directory. */
    constructor (physmap: B.Bits, kpd: Dir)
      requires physmap.Valid()
      ensures Valid() && Apart() && KernelOnly(Now()) && this.physmap == physmap && this.kpd == kpd
      ensures Now() == Blank(kpd)
    {
      this.physmap, this.kpd := physmap, kpd;
      dirs, tables := Blank(kpd).dirs, Blank(kpd).tables;
    }

    /** pp_alloc: the least free frame, zeroed. */
    method PpAlloc() returns (r: Option<Frame>)
      requires physmap.Valid()
      modifies this`tables, physmap, physmap.bytes
      ensures physmap.Valid()
      ensures r.None? ==> Full() && physmap.marked == old(physmap.marked) && tables == old(tables)
      ensures r.Some? ==>
          r.value !in old(physmap.marked) && physmap.marked == old(physmap.marked) + {r.value}
          && tables == old(tables)[r.value := Zeroed()]
    {
      r := physmap.Alloc();
      if r.Some? { tables := tables[r.value := Zeroed()]; }
    }

    /** pgdir_walk with alloc: the table and index that decide an address. */
    method PgdirWalk(d: Dir, va: nat, w: bool, u: bool) returns (ok: bool, t: Frame, x: nat)
      requires Valid() && d in dirs && va < TWO32
      modifies this`dirs, this`tables, physmap, physmap.bytes
      ensures Valid() && SameLooks(old(Now()), Now()) && Page(va) < PAGES
      ensures (!ok ==> Full() && Now() == old(Now()) && physmap.marked == old(physmap.marked))
      ensures ok ==> Walked(old(Now()), d, Page(va) / TBL_SIZE, w, u, old(physmap.marked), Now(), physmap.marked)
      ensures ok ==>
          t in tables && x == Page(va) % TBL_SIZE && Pde(Now(), d, Page(va) / TBL_SIZE).present
          && Pde(Now(), d, Page(va) / TBL_SIZE).addr == t
      ensures OnlyDir(old(dirs), d, dirs)
    {
      Split(va);
      var pdx, ptx := PDX(va), PTX(va);
      ok, t, x := true, 0, ptx;
      ghost var m := Now();
      if !dirs[d][pdx].present {
        var r := PpAlloc();
        if r.None? { return false, 0, 0; }
        var pno := r.value;
        HangKeeps(m, d, pdx, w, u, pno, Hang(m, d, pdx, w, u, pno));
        dirs := dirs[d := dirs[d][pdx := Entry(true, w, u, pno)]];
        assert Now() == Hang(m, d, pdx, w, u, pno);
      }
      t := dirs[d][pdx].addr;
      assert Pde(Now(), d, pdx).addr in tables;
    }

    /** The page table entry set, in whatever state it was. */
    method SetEntry(t: Frame, x: nat, pno: Frame, w: bool, u: bool, ghost d: Dir, ghost p: nat)
      requires Valid() && d in dirs && p < PAGES && Pde(Now(), d, p / TBL_SIZE).present
      requires t in tables && t == Pde(Now(), d, p / TBL_SIZE).addr && x == p % TBL_SIZE
      modifies this`tables
      ensures Valid() && dirs == old(dirs) && Overwritten(old(Now()), d, p, pno, w, u, Now())
      ensures Single(old(Now()), d, p, Now())
      ensures old(Look(Now(), d, p)) == None ==>
          (Inserted(old(Now()), d, p, pno, w, u, Now()) <==> Unshared(Now(), d, p))
      ensures old(Look(Now(), d, p)) == None && p < USER_PAGES ==> Inserted(old(Now()), d, p, pno, w, u, Now())
    {
      ghost var m := Now();
      var e := Entry(true, w, u, pno);
      WriteKeeps(m, t, x, e, Write(m, t, x, e));
      OverwriteLooks(m, d, p, pno, w, u, Write(m, t, x, e));
      if Look(m, d, p) == None {
        InsertIff(m, d, p, pno, w, u, Write(m, t, x, e));
        if p < USER_PAGES { PrivateUnshared(m, d, p); }
      }
      tables := tables[t := tables[t][x := e]];
      assert Now() == Write(m, t, x, e);
      assert forall d', i | d' in dirs && 0 <= i < TBL_SIZE :: Pde(Now(), d', i) == Pde(m, d', i);
      WriteSingle(m, d, p, e, Now());
    }

    /** page_insert. */
    method PageInsert(d: Dir, pno: Frame, va: nat, w: bool, u: bool) returns (ok: bool)
      requires Valid() && d in dirs && va < TWO32 && Page(va) < PAGES && Look(Now(), d, Page(va)) == None
      modifies this`dirs, this`tables, physmap, physmap.bytes
      ensures Valid() && Frozen(old(Now()), Now()) && old(physmap.marked) <= physmap.marked
      ensures OnlyDir(old(dirs), d, dirs) && (!ok ==> Full())
      ensures ok ==>
          Pde(Now(), d, Page(va) / TBL_SIZE).present && Overwritten(old(Now()), d, Page(va), pno, w, u, Now())
      ensures ok ==> (Inserted(old(Now()), d, Page(va), pno, w, u, Now()) <==> Unshared(Now(), d, Page(va)))
      ensures ok && va < UTOP ==> Inserted(old(Now()), d, Page(va), pno, w, u, Now())
      ensures ok && pno in old(physmap.marked) ==>
                old(Exclusive(Now())) && Taken(old(Now()), old(physmap.marked) - {pno}) ==> Apart()
      ensures ok ==> Stepped(old(Now()), d, Page(va), u, Now())
      ensures w && u && old(Open(Now(), d)) ==> Open(Now(), d)
      ensures ok && old(KernelOnly(Now())) ==>
          (KernelOnly(Now()) <==> va < UTOP || old(Pde(Now(), d, Page(va) / TBL_SIZE).present) || !u)
    {
      ghost var m, marked := Now(), physmap.marked;
      var t, x;
      ok, t, x := PgdirWalk(d, va, w, u);
      if !ok { return; }
      Split(va);
      ghost var p, m1 := Page(va), Now();
      SetEntry(t, x, pno, w, u, d, p);
      InsertedAfterSame(m, m1, d, p, pno, w, u, Now());
      OverwrittenAfterSame(m, m1, d, p, pno, w, u, Now());
      PageAfter(m, d, p, pno, w, u, m1, Now(), marked, physmap.marked);
      WalkedStepped(m, d, p, w, u, m1, Now(), marked, physmap.marked);
    }

    /** pgdir_create: nothing below UTOP, the kernel's slots above. */
    method PgdirCreate() returns (d: Dir)
      requires Valid()
      modifies this`dirs
      ensures Valid() && d !in old(dirs) && OnlyDir(old(dirs), d, dirs) && Open(Now(), d) && Frozen(old(Now()), Now())
      ensures (old(Apart()) ==> Apart()) && (old(KernelOnly(Now())) ==> KernelOnly(Now()))
      ensures forall d', p {:trigger Look(Now(), d', p)} | d' in dirs && 0 <= p < PAGES ::
        Look(Now(), d', p) == if d' != d then Look(old(Now()), d', p) else if p < USER_PAGES then None
            else Look(old(Now()), kpd, p)
    {
      ghost var m := Now();
      d := FreshDir();
      var t := Zeroed();
      for i := USER_SLOTS to TBL_SIZE
        invariant forall j | 0 <= j < TBL_SIZE :: t[j] == if USER_SLOTS <= j < i then dirs[kpd][j] else ABSENT
      {
        t := t[i := dirs[kpd][i]];
      }
      assert t == Copied(dirs[kpd]);
      dirs := dirs[d := t];
      CopyKeeps(m, kpd, d, Now());
      if Exclusive(m) && Taken(m, physmap.marked) { CopyExclusive(m, kpd, d, Now(), physmap.marked); }
      if KernelOnly(m) { CopyKernel(m, kpd, d, Now()); }
      forall d', p | d' in dirs && 0 <= p < PAGES
        ensures Look(Now(), d', p) == if d' != d then Look(m, d', p) else if p < USER_PAGES then None
            else Look(m, kpd, p)
      {
        CopyLooks(m, kpd, d, Now(), d', p);
      }
    }

    /** page_get: a page no directory lives in. */
    method FreshDir() returns (d: Dir)
      ensures d !in dirs
    {
      d := 0;
      var seen := dirs.Keys;
      while d in seen
        invariant forall k: nat | k in dirs :: k in seen || k < d
        decreases |seen|
      {
        seen := seen - {d};
        d := d + 1;
      }
    }

    /** One round of region_alloc: a fresh frame under page i. */
    method MapPage(d: Dir, i: nat) returns (ok: bool, ghost f: Frame)
      requires Valid() && d in dirs && i < TWO32 && Page(i) < PAGES && Look(Now(), d, Page(i)) == None
      modifies this`dirs, this`tables, physmap, physmap.bytes
      ensures Valid() && Frozen(old(Now()), Now()) && old(physmap.marked) <= physmap.marked
      ensures OnlyDir(old(dirs), d, dirs) && (!ok ==> Full())
      ensures ok ==> Extended(old(Now()), old(physmap.marked), d, Page(i), f, Now(), physmap.marked)
    {
      ghost var m, marked := Now(), physmap.marked;
      var r := PpAlloc();
      f := 0;
      if r.None? { return false, 0; }
      f := r.value;
      ghost var m1 := Now();
      FrameSame(m, f, m1, marked);
      assert physmap.marked - {f} == marked;
      ok := PageInsert(d, r.value, i, true, true);
      FrozenTwice(m, m1, Now());
      if ok {
        OverwrittenAfterSame(m, m1, d, Page(i), f, true, true, Now());
        SteppedAfterSame(m, m1, d, Page(i), true, Now());
      }
    }

    /** region_alloc: every page of the region, wherever it lies, gets a frame that nobody has,
        and processes stay apart. User mode gets into the kernel's part exactly if the region
        takes a page from UTOP on whose slot is empty. */
    method RegionAlloc(d: Dir, va: nat, len: nat) returns (ok: bool)
      requires Valid() && d in dirs && 0 < va && 0 < len && va + len + PG_SIZE - 1 < TWO32
      requires forall p | Page(va) <= p < Page(va + len + PG_SIZE - 1) && p < PAGES :: Look(Now(), d, p) == None
      modifies this`dirs, this`tables, physmap, physmap.bytes
      ensures Valid() && Frozen(old(Now()), Now()) && OnlyDir(old(dirs), d, dirs) && (!ok ==> Full())
      ensures ok ==> Allots(old(Now()), d, va, len, old(physmap.marked), Now())
      ensures ok && old(Apart()) ==> Apart()
      ensures ok && old(KernelOnly(Now())) ==>
                (KernelOnly(Now()) <==> old(Seated(Now(), d, Page(va), Pages(va, len))))
      ensures ok && old(Open(Now(), d)) ==> Open(Now(), d)
    {
      var beg := va / PG_SIZE * PG_SIZE;
      var end := U32(U32(va + len) + PG_SIZE - 1) / PG_SIZE * PG_SIZE;
      ghost var m, marked, lo, hi := Now(), physmap.marked, Page(va), Page(va + len + PG_SIZE - 1);
      RegionBounds(va, len, beg, end);
      ok := RegionPages(d, beg, end, lo, hi);
      if ok { RegionDone(m, marked, d, va, len, Now(), physmap.marked); }
    }

    method RegionPages(d: Dir, beg: nat, end: nat, ghost lo: nat, ghost hi: nat) returns (ok: bool)
      requires Valid() && d in dirs && beg == lo * PG_SIZE && end == hi * PG_SIZE && lo < hi <= PAGES
      requires forall p | lo <= p < hi :: Look(Now(), d, p) == None
      modifies this`dirs, this`tables, physmap, physmap.bytes
      ensures Valid() && Frozen(old(Now()), Now()) && OnlyDir(old(dirs), d, dirs) && (!ok ==> Full())
      ensures ok ==> Region(old(Now()), old(physmap.marked), d, lo, hi, Now(), physmap.marked)
    {
      ghost var m, marked, p := Now(), physmap.marked, lo;
      var i := beg;
      ok := true;
      PavedNone(m, d, lo, true);
      while i < end
        invariant i == p * PG_SIZE && lo <= p <= hi && OnlyDir(m.dirs, d, dirs) && Valid()
        invariant Region(m, marked, d, lo, p, Now(), physmap.marked)
      {
        assert Page(i) == p && i < TWO32;
        ok := RegionRound(d, i, m, marked, lo, p);
        if !ok { return; }
        i, p := i + PG_SIZE, p + 1;
      }
    }

    method RegionRound(d: Dir, i: nat, ghost m: Space, ghost marked: set<Frame>, ghost lo: nat, ghost p: nat)
      returns (ok: bool)
      requires Valid() && d in dirs && i < TWO32 && Page(i) == p < PAGES && Look(Now(), d, p) == None
      requires OnlyDir(m.dirs, d, dirs) && Region(m, marked, d, lo, p, Now(), physmap.marked)
      modifies this`dirs, this`tables, physmap, physmap.bytes
      ensures Valid() && Frozen(m, Now()) && OnlyDir(m.dirs, d, dirs) && (!ok ==> Full())
      ensures ok ==> Region(m, marked, d, lo, p + 1, Now(), physmap.marked)
    {
      ghost var m1, marked1 := Now(), physmap.marked;
      ghost var f;
      ok, f := MapPage(d, i);
      OnlyTwice(m.dirs, d, m1.dirs, dirs);
      FrozenTwice(m, m1, Now());
      if !ok { return; }
      RegionNext(m, marked, d, lo, p, m1, marked1, f, Now(), physmap.marked);
    }

    /** boot_map: a run of pages onto a run of frames. Both may go over the end. */
    method BootMap(d: Dir, va: nat, pa: nat, bytes: nat, w: bool, u: bool) returns (ok: bool)
      requires Valid() && d in dirs && va < TWO32 && pa < TWO32 && bytes + PG_SIZE <= TWO32
      modifies this`dirs, this`tables, physmap, physmap.bytes
      ensures Valid() && Frozen(old(Now()), Now()) && OnlyDir(old(dirs), d, dirs) && (!ok ==> Full())
      ensures ok ==> Straight(old(Now()), d, Page(va), Rounds(bytes), Page(pa), w, u, Now())
      ensures ok ==> Spread(old(Now()), d, Page(va), Rounds(bytes), Now())
      ensures ok && va >= UTOP && va + bytes <= TWO32 && old(Apart()) ==> Apart()
      ensures ok && old(KernelOnly(Now())) ==>
                (KernelOnly(Now()) <==> !u || old(Seated(Now(), d, Page(va), Rounds(bytes))))
    {
      ghost var m, marked, n := Now(), physmap.marked, 0;
      ghost var above := va >= UTOP && va + bytes <= TWO32;
      var i := 0;
      ok := true;
      PavedNone(m, d, Page(va), u);
      while i < bytes
        invariant i == n * PG_SIZE && n <= Rounds(bytes) && OnlyDir(m.dirs, d, dirs) && Valid()
        invariant Laid(m, marked, d, Page(va), n, Page(pa), w, u, above, Now(), physmap.marked)
      {
        BootBounds(va, pa, bytes, i, n);
        ok := BootRound(d, U32(va + i), U32(pa + i), w, u, m, marked, Page(va), n, Page(pa), above);
        if !ok { return; }
        i, n := i + PG_SIZE, n + 1;
      }
    }

    method BootRound(d: Dir, va: nat, pa: nat, w: bool, u: bool, ghost m: Space, ghost marked: set<Frame>,
                     ghost lo: nat, ghost n: nat, ghost f: Frame, ghost above: bool)
      returns (ok: bool)
      requires Valid() && d in dirs && va < TWO32 && n < PAGES && Page(va) == At(lo, n) && Page(pa) == At(f, n)
      requires OnlyDir(m.dirs, d, dirs) && Laid(m, marked, d, lo, n, f, w, u, above, Now(), physmap.marked)
      requires above ==> va >= UTOP
      modifies this`dirs, this`tables, physmap, physmap.bytes
      ensures Valid() && Frozen(m, Now()) && OnlyDir(m.dirs, d, dirs) && (!ok ==> Full())
      ensures ok ==> Laid(m, marked, d, lo, n + 1, f, w, u, above, Now(), physmap.marked)
    {
      ghost var m1 := Now();
      ok := BootPage(d, va, pa, w, u);
      OnlyTwice(m.dirs, d, m1.dirs, dirs);
      FrozenTwice(m, m1, Now());
      if ok {
        StraightNext(m, d, lo, n, f, w, u, m1, Now());
        PavedNext(m, d, lo, n, u, m1, Now());
      }
    }

    method BootPage(d: Dir, va: nat, pa: nat, w: bool, u: bool) returns (ok: bool)
      requires Valid() && d in dirs && va < TWO32
      modifies this`dirs, this`tables, physmap, physmap.bytes
      ensures Valid() && Frozen(old(Now()), Now()) && Page(va) < PAGES && OnlyDir(old(dirs), d, dirs)
      ensures (!ok ==> Full())
      ensures ok ==>
          Overwritten(old(Now()), d, Page(va), Page(pa), w, u, Now()) && Pde(Now(), d, Page(va) / TBL_SIZE).present
      ensures ok && va >= UTOP && old(Apart()) ==> Apart()
      ensures ok ==> Stepped(old(Now()), d, Page(va), u, Now())
    {
      ghost var m, marked := Now(), physmap.marked;
      var t, x;
      ok, t, x := PgdirWalk(d, va, w, u);
      if !ok { return; }
      Split(va);
      ghost var p, m1 := Page(va), Now();
      SetEntry(t, x, Page(pa), w, u, d, p);
      OverwrittenAfterSame(m, m1, d, p, Page(pa), w, u, Now());
WalkedStepped(m, d, p, w, u, m1, Now(), marked, physmap.marked);
      if p >= USER_PAGES && Exclusive(m) && Taken(m, marked) {
        WalkedAbove(m, d, p, Page(pa), w, u, m1, Now(), marked, physmap.marked);
      }
    }

    ghost predicate Safe()
      reads this, physmap, physmap.bytes
    {
      Valid() && Isolated(Now(), kpd, physmap.marked)
    }

    method AllFree(d: Dir, lo: nat, hi: nat) returns (free: bool)
      requires d in dirs
      ensures free <==> forall p | lo <= p < hi && p < PAGES :: Look(Now(), d, p) == None
    {
      var p := lo;
      while p < hi && p < PAGES
        invariant lo <= p && forall q | lo <= q < p && q < PAGES :: Look(Now(), d, q) == None
        decreases hi - p
      {
        var found := Look(Space(dirs, tables), d, p);
        if found != None {
          assert Look(Now(), d, p) == found;
          return false;
        }
        p := p + 1;
      }
      free := true;
    }

    /** Serve one request; `ok` false if the kernel panics for want of a frame. */
    method Serve(r: Request) returns (ok: bool)
      requires Safe()
      modifies this`dirs, this`tables, physmap, physmap.bytes
      ensures Valid() && if ok then Safe() && Does(old(Now()), kpd, r, Now()) else Full()
      ensures ok ==> Frozen(old(Now()), Now())
      ensures ok && old(KernelOnly(Now())) ==> (KernelOnly(Now()) <==> !old(Opens(Now(), kpd, r)))
    {
      ok := true;
      match r {
        case MapKernel(va, pa, bytes, w) =>
          if va >= UTOP && va + bytes <= TWO32 && va < TWO32 && pa < TWO32 { ok := ServeKernel(va, pa, bytes, w); }
        case NewDir => ServeDir();
        case MapRegion(d, va, len) =>
          if d in dirs && 0 < va && 0 < len && va + len + PG_SIZE - 1 < TWO32 { ok := ServeRegion(d, va, len); }
      }
    }

    method ServeKernel(va: nat, pa: nat, bytes: nat, w: bool) returns (ok: bool)
      requires Safe() && Legal(Now(), kpd, MapKernel(va, pa, bytes, w))
      modifies this`dirs, this`tables, physmap, physmap.bytes
      ensures Valid() && if ok then Safe() && Does(old(Now()), kpd, MapKernel(va, pa, bytes, w), Now()) else Full()
      ensures ok ==> Frozen(old(Now()), Now()) && (old(KernelOnly(Now())) ==> KernelOnly(Now()))
    {
      ghost var m := Now();
      ok := BootMap(kpd, va, pa, bytes, w, false);
      forall d | d in dirs && d != kpd ensures Open(Now(), d) { assert Open(m, d); OpenSame(m, d, Now()); }
    }

    method ServeDir()
      requires Safe()
      modifies this`dirs
      ensures Safe() && Does(old(Now()), kpd, NewDir, Now())
      ensures Frozen(old(Now()), Now()) && (old(KernelOnly(Now())) ==> KernelOnly(Now()))
    {
      ghost var m := Now();
      var d := PgdirCreate();
      assert Created(m, kpd, d, Now());
      forall d' | d' in dirs && d' != kpd ensures Open(Now(), d') {
        if d' != d { assert Open(m, d'); OpenSame(m, d', Now()); }
      }
    }

    method ServeRegion(d: Dir, va: nat, len: nat) returns (ok: bool)
      requires Safe() && d in dirs && 0 < va && 0 < len && va + len + PG_SIZE - 1 < TWO32
      modifies this`dirs, this`tables, physmap, physmap.bytes
      ensures Valid() && if ok then Safe() && Does(old(Now()), kpd, MapRegion(d, va, len), Now()) else Full()
      ensures ok ==> Frozen(old(Now()), Now())
      ensures ok && old(KernelOnly(Now())) ==> (KernelOnly(Now()) <==> !old(Opens(Now(), kpd, MapRegion(d, va, len))))
    {
      ok := true;
      ghost var m := Now();
      var free := AllFree(d, Page(va), Page(va + len + PG_SIZE - 1));
      if free {
        ok := RegionAlloc(d, va, len);
        if ok { AllotsAny(m, d, va, len, old(physmap.marked), Now()); }
        forall d' | ok && d' in dirs && d' != kpd ensures Open(Now(), d') {
          assert Open(m, d');
          if d' != d { OpenSame(m, d', Now()); }
        }
      }
    }
  }

  /** Any run of mappings, new directories and regions from an empty kernel directory, ended
      only by a shortage of frames, keeps processes apart; and it keeps user mode out of the
      kernel's part exactly until a region takes a page from UTOP on whose slot is empty. */
  method Run(physmap: B.Bits, kpd: Dir, requests: seq<Request>) returns (vm: Vm, ok: bool, ghost log: seq<Space>)
    requires physmap.Valid()
    modifies physmap, physmap.bytes
    ensures vm.physmap == physmap && vm.kpd == kpd && vm.Valid() && Logged(kpd, requests, log)
    ensures if ok then |log| == |requests| + 1 && log[|requests|] == vm.Now() && vm.Safe() else vm.Full()
  {
    vm := new Vm(physmap, kpd);
    log, ok := [vm.Now()], true;
    var n := 0;
    while n < |requests|
      invariant 0 <= n <= |requests| && |log| == n + 1 && log[n] == vm.Now() && ok
      invariant vm.physmap == physmap && vm.kpd == kpd && fresh(vm) && vm.Safe() && Logged(kpd, requests, log)
    {
      ok := vm.Serve(requests[n]);
      if !ok { return; }
      LoggedNext(kpd, requests, log, vm.Now());
      log := log + [vm.Now()];
      n := n + 1;
    }
  }

  /** What page_insert keeps. */
  lemma PageAfter(m: Space, d: Dir, p: nat, f: Frame, w: bool, u: bool, m1: Space, m2: Space,
                  marked: set<Frame>, marked1: set<Frame>)
    requires Closed(m) && Private(m) && m.tables.Keys <= marked && p < PAGES
    requires Walked(m, d, p / TBL_SIZE, w, u, marked, m1, marked1) && m2.dirs == m1.dirs
    requires Overwritten(m1, d, p, f, w, u, m2) && (p < USER_PAGES ==> Inserted(m1, d, p, f, w, u, m2))
    ensures Frozen(m, m2) && (w && u && Open(m, d) ==> Open(m2, d)) && marked <= marked1
    ensures Exclusive(m) && f in marked && Taken(m, marked - {f}) ==> Exclusive(m2) && Taken(m2, marked1)
  {
    WalkedFrozen(m, d, p / TBL_SIZE, w, u, m1, m2, marked, marked1);
    if Exclusive(m) && f in marked && Taken(m, marked - {f}) {
      if p < USER_PAGES {
        WalkedApart(m, d, p, f, w, u, m1, m2, marked, marked1);
      } else {
        WalkedAbove(m, d, p, f, w, u, m1, m2, marked, marked1);
      }
    }
    if w && u && Open(m, d) { WalkedOpen(m, d, p / TBL_SIZE, m1, m2, marked, marked1); }
  }

  /** Setting an entry changes only the pages it decides. */
  lemma WriteSingle(m: Space, d: Dir, p: nat, e: Entry, m': Space)
    requires d in m.dirs && p < PAGES && e.present && Pde(m, d, p / TBL_SIZE).present
    requires Pde(m, d, p / TBL_SIZE).addr in m.tables
    requires m' == Write(m, Pde(m, d, p / TBL_SIZE).addr, p % TBL_SIZE, e)
    ensures Single(m, d, p, m')
  {
    forall d', q | d' in m.dirs && 0 <= q < PAGES && !Alias(m', d, p, d', q) ensures Look(m', d', q) == Look(m, d', q) {
      WriteLooks(m, Pde(m, d, p / TBL_SIZE).addr, p % TBL_SIZE, e, m', d', q);
      assert Pde(m', d', q / TBL_SIZE) == Pde(m, d', q / TBL_SIZE);
    }
  }

  lemma BootBounds(va: nat, pa: nat, bytes: nat, i: nat, n: nat)
    requires va < TWO32 && pa < TWO32 && bytes + PG_SIZE <= TWO32 && i == n * PG_SIZE < bytes
    ensures n < Rounds(bytes) < PAGES && i + PG_SIZE == (n + 1) * PG_SIZE
    ensures Page(U32(va + i)) == At(Page(va), n) && Page(U32(pa + i)) == At(Page(pa), n)
    ensures va >= UTOP && va + bytes <= TWO32 ==> U32(va + i) >= UTOP
  {
    WrappedPage(va, n);
    WrappedPage(pa, n);
  }

  lemma WrappedPage(a: nat, n: nat)
    requires a < TWO32 && n < PAGES
    ensures Page(U32(a + n * PG_SIZE)) == At(Page(a), n)
  {
    assert Page(a + n * PG_SIZE) == Page(a) + n;
    assert TWO32 == PAGES * PG_SIZE;
    if a + n * PG_SIZE >= TWO32 { assert U32(a + n * PG_SIZE) == a + n * PG_SIZE - TWO32; }
  }

  lemma RegionBounds(va: nat, len: nat, beg: nat, end: nat)
    requires 0 < len && va + len + PG_SIZE - 1 < TWO32 && beg == va / PG_SIZE * PG_SIZE
    requires end == U32(U32(va + len) + PG_SIZE - 1) / PG_SIZE * PG_SIZE
    ensures beg == Page(va) * PG_SIZE && end == Page(end) * PG_SIZE
    ensures Page(end) == Page(va + len + PG_SIZE - 1) <= PAGES && beg < end
    ensures va + len <= UTOP ==> end <= UTOP && Page(end) <= USER_PAGES
  {
  }

  /** Zeroing a free frame changes no translation. */
  lemma FrameSame(m: Space, f: Frame, m1: Space, marked: set<Frame>)
    requires Closed(m) && Private(m) && m.tables.Keys <= marked && f !in marked
    requires m1 == m.(tables := m.tables[f := Zeroed()])
    ensures SameLooks(m, m1) && Closed(m1) && Private(m1) && Frozen(m, m1)
    ensures Exclusive(m) && Taken(m, marked) ==> Exclusive(m1) && Taken(m1, marked)
    ensures KernelOnly(m) ==> KernelOnly(m1)
    ensures forall d {:trigger Open(m1, d)} :: Open(m, d) ==> Open(m1, d)
  {
    forall d, i | d in m.dirs && 0 <= i < TBL_SIZE
        ensures Pde(m1, d, i) == Pde(m, d, i) && (Pde(m, d, i).present ==> Pde(m, d, i).addr in m.tables) {}
    forall d, p | d in m.dirs && 0 <= p < PAGES ensures Look(m1, d, p) == Look(m, d, p) {
      assert Pde(m, d, p / TBL_SIZE).present ==> Pde(m, d, p / TBL_SIZE).addr in m.tables;
    }
    if Exclusive(m) && Taken(m, marked) { UserSame(m, m1, marked); }
  }
}
