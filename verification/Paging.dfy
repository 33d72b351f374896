/**
  Two-level page tables as values (the format of 32-bit paging, section 4.3 of volume 3A
  of the Intel Software Developer's Manual): what a directory translates, which tables
  are nobody else's, and what writing one entry changes.
*/
module Paging {
  import opened Basics

  const TBL_SIZE: nat := 1024
  const PG_SIZE: nat := 4096
  const PT_SIZE: nat := 0x40_0000
  const KADDR: nat := 0xC000_0000
  const UTOP: nat := KADDR - 5 * PT_SIZE

  function PDX(va: nat): nat { (va / PT_SIZE) % TBL_SIZE }
  function PTX(va: nat): nat { (va / PG_SIZE) % TBL_SIZE }

  /** The page of an address, and the first page that is not a user page. */
  function Page(va: nat): nat { va / PG_SIZE }
  const USER_PAGES: nat := UTOP / PG_SIZE
  const USER_SLOTS: nat := 763

  lemma Split(va: nat)
    requires va < TWO32
    ensures PDX(va) == Page(va) / TBL_SIZE < TBL_SIZE && PTX(va) == Page(va) % TBL_SIZE
    ensures va < UTOP <==> PDX(va) < USER_SLOTS
    ensures PDX(UTOP) == USER_SLOTS && USER_PAGES == USER_SLOTS * TBL_SIZE
  {
  }

  type Frame = nat
  type Dir = nat

  datatype Entry = Entry(present: bool, write: bool, user: bool, addr: Frame)

  type Table = t: seq<Entry> | |t| == TBL_SIZE witness seq(TBL_SIZE, _ => Entry(false, false, false, 0))

  const ABSENT := Entry(false, false, false, 0)

  function Zeroed(): Table { seq(TBL_SIZE, _ => ABSENT) }

  /** The directories, and the physical frames read as tables. */
  datatype Space = Space(dirs: map<Dir, Table>, tables: map<Frame, Table>)

  /** Every present directory entry leads to an allocated frame. */
  ghost predicate Closed(m: Space) {
    forall d, i {:trigger Pde(m, d, i)} | d in m.dirs && 0 <= i < TBL_SIZE && Pde(m, d, i).present ::
        Pde(m, d, i).addr in m.tables
  }

  function Pde(m: Space, d: Dir, i: nat): Entry
    requires d in m.dirs && i < TBL_SIZE
  {
    m.dirs[d][i]
  }

  datatype Access = Access(frame: Frame, write: bool, user: bool)

  /** What the processor finds for page p: both levels must be present, and both must
      allow a write or a user access. */
  function Look(m: Space, d: Dir, p: nat): Option<Access>
    requires d in m.dirs && p < TBL_SIZE * TBL_SIZE
  {
    var pde := Pde(m, d, p / TBL_SIZE);
    if !pde.present || pde.addr !in m.tables then None
    else
      var pte := m.tables[pde.addr][p % TBL_SIZE];
      if !pte.present then None else Some(Access(pte.addr, pde.write && pte.write, pde.user && pte.user))
  }

  /** A table hangs from one slot of a directory, and below UTOP of one directory only. */
  ghost predicate Private(m: Space) {
    forall d, i, d', i' {:trigger Pde(m, d, i), Pde(m, d', i')} |
      d in m.dirs && d' in m.dirs && 0 <= i < TBL_SIZE && 0 <= i' < TBL_SIZE && (d == d' || i < USER_SLOTS)
      && Pde(m, d, i).present && Pde(m, d', i').present && Pde(m, d, i).addr == Pde(m, d', i').addr ::
          d == d' && i == i'
  }

  // ----------------------------------------------------------------- a new table

  /** pgdir_walk filling an empty slot. */
  function Hang(m: Space, d: Dir, i: nat, w: bool, u: bool, f: Frame): Space
    requires d in m.dirs && i < TBL_SIZE
  {
    Space(m.dirs[d := m.dirs[d][i := Entry(true, w, u, f)]], m.tables[f := Zeroed()])
  }

  lemma HangPde(m: Space, d: Dir, i: nat, w: bool, u: bool, f: Frame, m': Space, d': Dir, i': nat)
    requires d in m.dirs && i < TBL_SIZE && m' == Hang(m, d, i, w, u, f) && d' in m.dirs && i' < TBL_SIZE
    ensures Pde(m', d', i') == if d' == d && i' == i then Entry(true, w, u, f) else Pde(m, d', i')
  {
  }

  /** A fresh table changes no translation and keeps tables private. */
  lemma HangKeeps(m: Space, d: Dir, i: nat, w: bool, u: bool, f: Frame, m': Space)
    requires Closed(m) && Private(m) && d in m.dirs && i < TBL_SIZE && !Pde(m, d, i).present && f !in m.tables
    requires m' == Hang(m, d, i, w, u, f)
    ensures Closed(m') && Private(m')
    ensures forall d', p {:trigger Look(m', d', p)} | d' in m'.dirs && 0 <= p < TBL_SIZE * TBL_SIZE ::
        Look(m', d', p) == Look(m, d', p)
  {
    forall d', i' | d' in m'.dirs && 0 <= i' < TBL_SIZE
      ensures Pde(m', d', i') == (if d' == d && i' == i then Entry(true, w, u, f) else Pde(m, d', i'))
    {
      HangPde(m, d, i, w, u, f, m', d', i');
    }
    forall d', p | d' in m'.dirs && 0 <= p < TBL_SIZE * TBL_SIZE ensures Look(m', d', p) == Look(m, d', p) {
      var slot := p / TBL_SIZE;
      HangPde(m, d, i, w, u, f, m', d', slot);
      assert Pde(m, d', slot).present ==> Pde(m, d', slot).addr in m.tables;
    }
  }

  // -------------------------------------------------------------- one entry of a table

  function Write(m: Space, t: Frame, x: nat, e: Entry): Space
    requires t in m.tables && x < TBL_SIZE
  {
    m.(tables := m.tables[t := m.tables[t][x := e]])
  }

  /** Exactly which translations an entry of table t decides. */
  predicate Decides(m: Space, t: Frame, x: nat, d: Dir, p: nat)
    requires d in m.dirs && p < TBL_SIZE * TBL_SIZE
  {
    Pde(m, d, p / TBL_SIZE).present && Pde(m, d, p / TBL_SIZE).addr == t && p % TBL_SIZE == x
  }

  lemma WriteLooks(m: Space, t: Frame, x: nat, e: Entry, m': Space, d: Dir, p: nat)
    requires t in m.tables && x < TBL_SIZE && m' == Write(m, t, x, e) && d in m.dirs && p < TBL_SIZE * TBL_SIZE
    requires e.present
    ensures Look(m', d, p) == if Decides(m, t, x, d, p)
      then var pde := Pde(m, d, p / TBL_SIZE); Some(Access(e.addr, pde.write && e.write, pde.user && e.user))
      else Look(m, d, p)
  {
    assert Pde(m', d, p / TBL_SIZE) == Pde(m, d, p / TBL_SIZE);
  }

  lemma WriteKeeps(m: Space, t: Frame, x: nat, e: Entry, m': Space)
    requires Closed(m) && Private(m) && t in m.tables && x < TBL_SIZE && m' == Write(m, t, x, e)
    ensures Closed(m') && Private(m')
  {
    forall d, i | d in m.dirs && 0 <= i < TBL_SIZE ensures Pde(m', d, i) == Pde(m, d, i) {}
    forall d, i | d in m'.dirs && 0 <= i < TBL_SIZE && Pde(m', d, i).present ensures Pde(m', d, i).addr in m'.tables {
      assert Pde(m, d, i).addr in m.tables;
    }
  }

  // ------------------------------------------------------------------- page_insert

  const PAGES: nat := TBL_SIZE * TBL_SIZE

  ghost predicate SameLooks(m: Space, m': Space) {
    m'.dirs.Keys == m.dirs.Keys
    && forall d, p {:trigger Look(m', d, p)} | d in m.dirs && 0 <= p < PAGES :: Look(m', d, p) == Look(m, d, p)
  }

  /** Present directory entries stay what they are. */
  ghost predicate Frozen(m: Space, m': Space) {
    m.dirs.Keys <= m'.dirs.Keys
    && forall d, i {:trigger Pde(m', d, i)} | d in m.dirs && 0 <= i < TBL_SIZE && Pde(m, d, i).present ::
        Pde(m', d, i) == Pde(m, d, i)
  }

  function Granted(m: Space, d: Dir, p: nat, f: Frame, w: bool, u: bool): Option<Access>
    requires d in m.dirs && p < PAGES
  {
    var pde := Pde(m, d, p / TBL_SIZE);
    Some(Access(f, pde.write && w, pde.user && u))
  }

  /** The translation of one page of one directory, and of nothing else, is new. */
  ghost predicate Inserted(m: Space, d: Dir, p: nat, f: Frame, w: bool, u: bool, m': Space) {
    && d in m.dirs && p < PAGES && m'.dirs.Keys == m.dirs.Keys
    && forall d', p' {:trigger Look(m', d', p')} | d' in m.dirs && 0 <= p' < PAGES ::
         Look(m', d', p') == if d' == d && p' == p then Granted(m', d, p, f, w, u) else Look(m, d', p')
  }

  /** No other slot of any directory leads to the table of page p. */
  ghost predicate Unshared(m: Space, d: Dir, p: nat)
    requires d in m.dirs && p < PAGES
  {
    forall d', i {:trigger Pde(m, d', i)} |
      d' in m.dirs && 0 <= i < TBL_SIZE && Pde(m, d', i).present
          && Pde(m, d', i).addr == Pde(m, d, p / TBL_SIZE).addr :: d' == d && i == p / TBL_SIZE
  }

  lemma PrivateUnshared(m: Space, d: Dir, p: nat)
    requires Private(m) && d in m.dirs && p < USER_PAGES && Pde(m, d, p / TBL_SIZE).present
    ensures Unshared(m, d, p)
  {
    assert p / TBL_SIZE < USER_SLOTS;
  }

  /** Writing the entry of an unmapped page changes exactly that translation if and only if no
      other slot shares the table. */
  lemma InsertIff(m: Space, d: Dir, p: nat, f: Frame, w: bool, u: bool, m': Space)
    requires Closed(m) && d in m.dirs && p < PAGES && Pde(m, d, p / TBL_SIZE).present && Look(m, d, p) == None
    requires Pde(m, d, p / TBL_SIZE).addr in m.tables
    requires m' == Write(m, Pde(m, d, p / TBL_SIZE).addr, p % TBL_SIZE, Entry(true, w, u, f))
    ensures Inserted(m, d, p, f, w, u, m') <==> Unshared(m, d, p)
  {
    var t, x, e := Pde(m, d, p / TBL_SIZE).addr, p % TBL_SIZE, Entry(true, w, u, f);
    if Unshared(m, d, p) {
      forall d', p' | d' in m.dirs && 0 <= p' < PAGES
        ensures Look(m', d', p') == if d' == d && p' == p then Granted(m', d, p, f, w, u) else Look(m, d', p')
      {
        WriteLooks(m, t, x, e, m', d', p');
        assert Pde(m', d, p / TBL_SIZE) == Pde(m, d, p / TBL_SIZE);
      }
    } else {
      var d', i :| d' in m.dirs && 0 <= i < TBL_SIZE && Pde(m, d', i).present && Pde(m, d', i).addr == t
          && !(d' == d && i == p / TBL_SIZE);
      SharedSees(m, d, p, e, m', d', i);
    }
  }

  /** Through a shared slot the new page shows elsewhere. */
  lemma SharedSees(m: Space, d: Dir, p: nat, e: Entry, m': Space, d': Dir, i: nat)
    requires Closed(m) && d in m.dirs && d' in m.dirs && p < PAGES && i < TBL_SIZE && Look(m, d, p) == None && e.present
    requires Pde(m, d, p / TBL_SIZE).present && Pde(m, d', i).present
    requires Pde(m, d', i).addr == Pde(m, d, p / TBL_SIZE).addr
    requires Pde(m, d, p / TBL_SIZE).addr in m.tables && m' == Write(m, Pde(m, d, p / TBL_SIZE).addr, p % TBL_SIZE, e)
    ensures var p' := i * TBL_SIZE + p % TBL_SIZE; p' < PAGES && Look(m, d', p') == None && Look(m', d', p').Some?
  {
    var p' := i * TBL_SIZE + p % TBL_SIZE;
    assert p' / TBL_SIZE == i && p' % TBL_SIZE == p % TBL_SIZE;
    WriteLooks(m, Pde(m, d, p / TBL_SIZE).addr, p % TBL_SIZE, e, m', d', p');
  }

  // --------------------------------------------------------------- separate processes

  /** Two user pages never share a frame, and no user page is a page table. */
  ghost predicate Exclusive(m: Space) {
    && (forall d, p, d', p' {:trigger Look(m, d, p), Look(m, d', p')} |
      d in m.dirs && d' in m.dirs && 0 <= p < USER_PAGES && 0 <= p' < USER_PAGES && Look(m, d, p).Some?
          && Look(m, d', p').Some?
      && Look(m, d, p).value.frame == Look(m, d', p').value.frame :: d == d' && p == p')
    && (forall d, p, d', i {:trigger Look(m, d, p), Pde(m, d', i)} |
      d in m.dirs && d' in m.dirs && 0 <= p < USER_PAGES && 0 <= i < TBL_SIZE && Look(m, d, p).Some?
          && Pde(m, d', i).present ::
      Look(m, d, p).value.frame != Pde(m, d', i).addr)
  }

  /** Every frame a user page or a directory entry leads to is taken in the bitmap. */
  ghost predicate Taken(m: Space, marked: set<Frame>) {
    && (forall d, i {:trigger Pde(m, d, i)} | d in m.dirs && 0 <= i < TBL_SIZE && Pde(m, d, i).present ::
        Pde(m, d, i).addr in marked)
    && forall d, p {:trigger Look(m, d, p)} | d in m.dirs && 0 <= p < USER_PAGES && Look(m, d, p).Some? ::
        Look(m, d, p).value.frame in marked
  }

  /** A new table takes a frame no user page has. */
  lemma HangExclusive(m: Space, d: Dir, i: nat, w: bool, u: bool, f: Frame, m': Space, marked: set<Frame>)
    requires Closed(m) && Private(m) && Exclusive(m) && Taken(m, marked) && f !in marked && f !in m.tables
    requires d in m.dirs && i < TBL_SIZE && !Pde(m, d, i).present && m' == Hang(m, d, i, w, u, f)
    ensures Exclusive(m') && Taken(m', marked + {f})
  {
    HangKeeps(m, d, i, w, u, f, m');
    forall d', i' | d' in m'.dirs && 0 <= i' < TBL_SIZE && Pde(m', d', i').present
        ensures Pde(m', d', i').addr in marked + {f} {
      HangPde(m, d, i, w, u, f, m', d', i');
    }
    forall d1, p, d', i' | d1 in m'.dirs && d' in m'.dirs && 0 <= p < USER_PAGES && 0 <= i' < TBL_SIZE
        && Look(m', d1, p).Some? && Pde(m', d', i').present
      ensures Look(m', d1, p).value.frame != Pde(m', d', i').addr
    {
      HangPde(m, d, i, w, u, f, m', d', i');
      assert Look(m', d1, p) == Look(m, d1, p);
    }
  }

  /** A page that gets a fresh frame keeps everybody apart. */
  lemma InsertExclusive(m: Space, d: Dir, p: nat, f: Frame, w: bool, u: bool, m': Space, marked: set<Frame>)
    requires Exclusive(m) && Taken(m, marked) && f !in marked && Inserted(m, d, p, f, w, u, m') && m'.dirs == m.dirs
    ensures Exclusive(m') && Taken(m', marked + {f})
  {
    forall d', i | d' in m'.dirs && 0 <= i < TBL_SIZE && Pde(m', d', i).present
      ensures Pde(m, d', i) == Pde(m', d', i) && Pde(m', d', i).addr in marked
    {
      assert Pde(m, d', i).present;
    }
    forall d1, p1, d', i | d1 in m'.dirs && d' in m'.dirs && 0 <= p1 < USER_PAGES && 0 <= i < TBL_SIZE
        && Look(m', d1, p1).Some? && Pde(m', d', i).present
      ensures Look(m', d1, p1).value.frame != Pde(m', d', i).addr
    {
      assert Pde(m, d', i) == Pde(m', d', i);
      if !(d1 == d && p1 == p) { assert Look(m', d1, p1) == Look(m, d1, p1); }
    }
    forall d1, p1, d2, p2 | d1 in m'.dirs && d2 in m'.dirs && 0 <= p1 < USER_PAGES && 0 <= p2 < USER_PAGES
        && Look(m', d1, p1).Some? && Look(m', d2, p2).Some?
      && Look(m', d1, p1).value.frame == Look(m', d2, p2).value.frame
      ensures d1 == d2 && p1 == p2
    {
      assert (d1 == d && p1 == p) || Look(m', d1, p1) == Look(m, d1, p1);
      assert (d2 == d && p2 == p) || Look(m', d2, p2) == Look(m, d2, p2);
    }
  }

  // -------------------------------------------------------------------- pgdir_create

  /** The kernel's slots copied, the user's empty. */
  function Copied(t: Table): Table {
    seq(TBL_SIZE, i requires 0 <= i < TBL_SIZE => if i < USER_SLOTS then ABSENT else t[i])
  }

  lemma CopyKeeps(m: Space, k: Dir, d: Dir, m': Space)
    requires Closed(m) && Private(m) && k in m.dirs && d !in m.dirs && m' == m.(dirs := m.dirs[d := Copied(m.dirs[k])])
    ensures Closed(m') && Private(m') && Frozen(m, m')
  {
    forall d', i | d' in m'.dirs && 0 <= i < TBL_SIZE
      ensures Pde(m', d', i) == if d' != d then Pde(m, d', i) else if i < USER_SLOTS then ABSENT else Pde(m, k, i)
    {
    }
  }

  /** A new directory translates nothing below UTOP and what the kernel's does above. */
  lemma CopyLooks(m: Space, k: Dir, d: Dir, m': Space, d': Dir, p: nat)
    requires k in m.dirs && d !in m.dirs && m' == m.(dirs := m.dirs[d := Copied(m.dirs[k])]) && d' in m'.dirs
    requires p < PAGES
    ensures Look(m', d', p) == if d' != d then Look(m, d', p) else if p < USER_PAGES then None else Look(m, k, p)
  {
    assert p < USER_PAGES <==> p / TBL_SIZE < USER_SLOTS;
  }

  lemma CopyExclusive(m: Space, k: Dir, d: Dir, m': Space, marked: set<Frame>)
    requires Exclusive(m) && Taken(m, marked) && k in m.dirs && d !in m.dirs
    requires m' == m.(dirs := m.dirs[d := Copied(m.dirs[k])])
    ensures Exclusive(m') && Taken(m', marked)
  {
    forall d1, p | d1 in m'.dirs && 0 <= p < USER_PAGES
      ensures Look(m', d1, p) == if d1 != d then Look(m, d1, p) else None
    {
      CopyLooks(m, k, d, m', d1, p);
    }
    forall d', i | d' in m'.dirs && 0 <= i < TBL_SIZE && Pde(m', d', i).present ensures Pde(m', d', i).addr in marked {
      assert Pde(m', d', i) == Pde(m, if d' == d then k else d', i);
    }
    forall d1, p, d', i | d1 in m'.dirs && d' in m'.dirs && 0 <= p < USER_PAGES && 0 <= i < TBL_SIZE
        && Look(m', d1, p).Some? && Pde(m', d', i).present
      ensures Look(m', d1, p).value.frame != Pde(m', d', i).addr
    {
      assert Look(m', d1, p) == Look(m, d1, p);
      var from := if d' == d then k else d';
      assert Pde(m', d', i) == Pde(m, from, i);
    }
  }

  /** No slot from UTOP on has the user bit. */
  ghost predicate KernelOnly(m: Space) {
    forall d, i {:trigger Pde(m, d, i)} | d in m.dirs && USER_SLOTS <= i < TBL_SIZE && Pde(m, d, i).present ::
        !Pde(m, d, i).user
  }

  /** Then user mode has no access to any page from UTOP on, in any directory. */
  lemma NoUserAbove(m: Space, d: Dir, p: nat)
    requires KernelOnly(m) && d in m.dirs && USER_PAGES <= p < PAGES
    ensures Look(m, d, p).Some? ==> !Look(m, d, p).value.user
  {
    assert p / TBL_SIZE >= USER_SLOTS;
  }

  lemma CopyKernel(m: Space, k: Dir, d: Dir, m': Space)
    requires KernelOnly(m) && k in m.dirs && d !in m.dirs && m' == m.(dirs := m.dirs[d := Copied(m.dirs[k])])
    ensures KernelOnly(m')
  {
    forall d', i | d' in m'.dirs && USER_SLOTS <= i < TBL_SIZE && Pde(m', d', i).present ensures !Pde(m', d', i).user {
      assert Pde(m', d', i) == Pde(m, if d' == d then k else d', i);
    }
  }

  // -------------------------------------------------------------------- region_alloc

  /** The user's slots of a directory allow everything the pages behind them allow. */
  ghost predicate Open(m: Space, d: Dir) {
    d in m.dirs && forall i {:trigger Pde(m, d, i)} | 0 <= i < USER_SLOTS && Pde(m, d, i).present ::
        Pde(m, d, i).write && Pde(m, d, i).user
  }

  /** Pages lo to hi of directory d have frames from outside `marked`, open to the user; all
      other translations are the old ones. */
  ghost predicate Mapped(m: Space, d: Dir, lo: nat, hi: nat, marked: set<Frame>, m': Space) {
    && d in m.dirs && m'.dirs.Keys == m.dirs.Keys
    && forall d', p {:trigger Look(m', d', p)} | d' in m.dirs && 0 <= p < PAGES ::
         if d' == d && lo <= p < hi
             then Look(m', d', p).Some? && Look(m', d', p).value.frame !in marked && Look(m', d', p).value.write
             && Look(m', d', p).value.user
         else Look(m', d', p) == Look(m, d', p)
  }

  // ----------------------------------------------------------- walk and set, together

  /** pgdir_walk: nothing, or a fresh table in the empty slot. */
  ghost predicate Walked(m: Space, d: Dir, i: nat, w: bool, u: bool, marked: set<Frame>, m1: Space,
                         marked1: set<Frame>) {
    && d in m.dirs && i < TBL_SIZE
    && if Pde(m, d, i).present then m1 == m && marked1 == marked
       else d in m1.dirs && var t := Pde(m1, d, i).addr;
           t !in marked && marked1 == marked + {t} && m1 == Hang(m, d, i, w, u, t)
  }

  lemma WalkedApart(m: Space, d: Dir, p: nat, f: Frame, w: bool, u: bool, m1: Space, m2: Space, marked: set<Frame>,
                    marked1: set<Frame>)
    requires Closed(m) && Private(m) && m.tables.Keys <= marked && p < PAGES
    requires Walked(m, d, p / TBL_SIZE, w, u, marked, m1, marked1)
    requires Inserted(m1, d, p, f, w, u, m2) && m2.dirs == m1.dirs && Exclusive(m) && f in marked
    requires Taken(m, marked - {f})
    ensures Exclusive(m2) && Taken(m2, marked1)
  {
    var others := marked - {f};
    if Pde(m, d, p / TBL_SIZE).present {
      InsertExclusive(m, d, p, f, w, u, m2, others);
      assert others + {f} == marked1;
    } else {
      var t := Pde(m1, d, p / TBL_SIZE).addr;
      HangExclusive(m, d, p / TBL_SIZE, w, u, t, m1, others);
      InsertExclusive(m1, d, p, f, w, u, m2, others + {t});
      assert others + {t} + {f} == marked1;
    }
  }

  lemma WalkedOpen(m: Space, d: Dir, i: nat, m1: Space, m2: Space, marked: set<Frame>, marked1: set<Frame>)
    requires Walked(m, d, i, true, true, marked, m1, marked1) && m2.dirs == m1.dirs && Open(m, d)
    ensures Open(m2, d)
  {
    forall j | 0 <= j < USER_SLOTS && Pde(m2, d, j).present ensures Pde(m2, d, j).write && Pde(m2, d, j).user {
      assert j != i ==> Pde(m2, d, j) == Pde(m, d, j);
      if Pde(m, d, i).present { assert Pde(m2, d, j) == Pde(m, d, j); }
    }
  }

  lemma WalkedFrozen(m: Space, d: Dir, i: nat, w: bool, u: bool, m1: Space, m2: Space, marked: set<Frame>,
                     marked1: set<Frame>)
    requires Walked(m, d, i, w, u, marked, m1, marked1) && m2.dirs == m1.dirs
    ensures Frozen(m, m2)
  {
    forall d', j | d' in m.dirs && 0 <= j < TBL_SIZE && Pde(m, d', j).present ensures Pde(m2, d', j) == Pde(m, d', j) {}
  }

  lemma InsertedAfterSame(m: Space, m1: Space, d: Dir, p: nat, f: Frame, w: bool, u: bool, m2: Space)
    requires SameLooks(m, m1) && d in m.dirs && p < PAGES
    ensures Inserted(m1, d, p, f, w, u, m2) <==> Inserted(m, d, p, f, w, u, m2)
  {
    forall d', p' | d' in m.dirs && 0 <= p' < PAGES ensures Look(m1, d', p') == Look(m, d', p') {}
  }

  // ------------------------------------------------------------------------ boot_map

  /** Setting an entry, mapped or not, as one directory sees it and as user pages do. */
  ghost predicate Overwritten(m: Space, d: Dir, p: nat, f: Frame, w: bool, u: bool, m': Space) {
    && d in m.dirs && p < PAGES && m'.dirs.Keys == m.dirs.Keys
    && (forall p' {:trigger Look(m', d, p')} | 0 <= p' < PAGES :: Look(m', d, p') == if p' == p
        then Granted(m', d, p, f, w, u) else Look(m, d, p'))
    && (forall d', p' {:trigger Look(m', d', p')} | d' in m.dirs && d' != d && 0 <= p' < USER_PAGES ::
        Look(m', d', p') == Look(m, d', p'))
  }

  lemma OverwriteLooks(m: Space, d: Dir, p: nat, f: Frame, w: bool, u: bool, m': Space)
    requires Closed(m) && Private(m) && d in m.dirs && p < PAGES && Pde(m, d, p / TBL_SIZE).present
    requires Pde(m, d, p / TBL_SIZE).addr in m.tables
    requires m' == Write(m, Pde(m, d, p / TBL_SIZE).addr, p % TBL_SIZE, Entry(true, w, u, f))
    ensures Overwritten(m, d, p, f, w, u, m')
  {
    var t, x, e := Pde(m, d, p / TBL_SIZE).addr, p % TBL_SIZE, Entry(true, w, u, f);
    assert Pde(m', d, p / TBL_SIZE) == Pde(m, d, p / TBL_SIZE);
    forall p' | 0 <= p' < PAGES
        ensures Look(m', d, p') == if p' == p then Granted(m', d, p, f, w, u) else Look(m, d, p') {
      WriteLooks(m, t, x, e, m', d, p');
      assert Pde(m, d, p' / TBL_SIZE).present ==> Pde(m, d, p' / TBL_SIZE).addr == t ==> p' / TBL_SIZE == p / TBL_SIZE;
    }
    forall d', p' | d' in m.dirs && d' != d && 0 <= p' < USER_PAGES ensures Look(m', d', p') == Look(m, d', p') {
      WriteLooks(m, t, x, e, m', d', p');
      assert p' / TBL_SIZE < USER_SLOTS;
      assert !(Pde(m, d', p' / TBL_SIZE).present && Pde(m, d', p' / TBL_SIZE).addr == t);
    }
  }

  lemma OverwrittenAfterSame(m: Space, m1: Space, d: Dir, p: nat, f: Frame, w: bool, u: bool, m2: Space)
    requires SameLooks(m, m1) && Overwritten(m1, d, p, f, w, u, m2)
    ensures Overwritten(m, d, p, f, w, u, m2)
  {
    forall d', p' | d' in m.dirs && 0 <= p' < PAGES ensures Look(m1, d', p') == Look(m, d', p') {}
  }

  /** How far page p is from page lo on, counting over the end of the address space. */
  function Off(lo: nat, p: nat): int { if p >= lo then p - lo else p + PAGES - lo }

  /** Page p is one of the n pages from lo on. */
  predicate In(lo: nat, n: nat, p: nat) { p < PAGES && Off(lo, p) < n }

  /** The page n after lo. */
  function At(lo: nat, n: nat): nat { (lo + n) % PAGES }

  lemma InNext(lo: nat, n: nat, p: nat)
    requires lo < PAGES && n < PAGES
    ensures In(lo, n + 1, p) <==> In(lo, n, p) || p == At(lo, n)
    ensures At(lo, n) < PAGES && Off(lo, At(lo, n)) == n
  {
  }

  /** n pages from page lo on lead to n frames from f on, both over the end at need. */
  ghost predicate Straight(m: Space, d: Dir, lo: nat, n: nat, f: Frame, w: bool, u: bool, m': Space) {
    && d in m.dirs && lo < PAGES && n <= PAGES && m'.dirs.Keys == m.dirs.Keys
    && (forall p {:trigger Look(m', d, p)} | 0 <= p < PAGES ::
          Look(m', d, p) == if In(lo, n, p) then Granted(m', d, p, At(f, Off(lo, p)), w, u) else Look(m, d, p))
    && (forall d', p {:trigger Look(m', d', p)} | d' in m.dirs && d' != d && 0 <= p < USER_PAGES ::
          Look(m', d', p) == Look(m, d', p))
    && (forall p: nat {:trigger In(lo, n, p)} | In(lo, n, p) :: Pde(m', d, p / TBL_SIZE).present)
  }

  lemma StraightNext(m: Space, d: Dir, lo: nat, n: nat, f: Frame, w: bool, u: bool, m1: Space, m2: Space)
    requires Straight(m, d, lo, n, f, w, u, m1) && n < PAGES && Frozen(m1, m2)
    requires Overwritten(m1, d, At(lo, n), At(f, n), w, u, m2)
    requires Pde(m2, d, At(lo, n) / TBL_SIZE).present
    ensures Straight(m, d, lo, n + 1, f, w, u, m2)
  {
    forall p: nat | In(lo, n + 1, p)
      ensures Pde(m2, d, p / TBL_SIZE).present
      ensures (In(lo, n, p) ==> Pde(m2, d, p / TBL_SIZE) == Pde(m1, d, p / TBL_SIZE))
    {
      InNext(lo, n, p);
      if In(lo, n, p) { assert Pde(m1, d, p / TBL_SIZE).present; }
    }
    forall p | 0 <= p < PAGES
      ensures Look(m2, d, p) == if In(lo, n + 1, p) then Granted(m2, d, p, At(f, Off(lo, p)), w, u) else Look(m, d, p)
    {
      InNext(lo, n, p);
      var before := Look(m1, d, p);
    }
    forall d', p | d' in m.dirs && d' != d && 0 <= p < USER_PAGES ensures Look(m2, d', p) == Look(m, d', p) {
      var before := Look(m1, d', p);
    }
  }

  /** A walk gives user mode a kernel slot exactly if it fills an empty one from UTOP on with
      the user bit. */
  lemma WalkedKernel(m: Space, d: Dir, i: nat, w: bool, u: bool, m1: Space, m2: Space, marked: set<Frame>,
                     marked1: set<Frame>)
    requires Walked(m, d, i, w, u, marked, m1, marked1) && m2.dirs == m1.dirs && KernelOnly(m)
    ensures KernelOnly(m2) <==> i < USER_SLOTS || Pde(m, d, i).present || !u
  {
    forall d', j | d' in m.dirs && 0 <= j < TBL_SIZE && !(d' == d && j == i) ensures Pde(m2, d', j) == Pde(m, d', j) {}
    if !Pde(m, d, i).present { assert Pde(m2, d, i).present && Pde(m2, d, i).user == u; }
  }

  /** Writing entries from UTOP on leaves all user pages as they are. */
  lemma WalkedAbove(m: Space, d: Dir, p: nat, f: Frame, w: bool, u: bool, m1: Space, m2: Space, marked: set<Frame>,
                    marked1: set<Frame>)
    requires Closed(m) && Private(m) && m.tables.Keys <= marked && USER_PAGES <= p < PAGES
    requires Walked(m, d, p / TBL_SIZE, w, u, marked, m1, marked1)
    requires Overwritten(m1, d, p, f, w, u, m2) && m2.dirs == m1.dirs && Exclusive(m) && Taken(m, marked)
    ensures Exclusive(m2) && Taken(m2, marked1)
  {
    if !Pde(m, d, p / TBL_SIZE).present {
      HangExclusive(m, d, p / TBL_SIZE, w, u, Pde(m1, d, p / TBL_SIZE).addr, m1, marked);
    }
    UserSame(m1, m2, marked1);
  }

  lemma UserSame(m: Space, m': Space, marked: set<Frame>)
    requires Exclusive(m) && Taken(m, marked) && m'.dirs == m.dirs
    requires forall d, p {:trigger Look(m', d, p)} | d in m.dirs && 0 <= p < USER_PAGES ::
        Look(m', d, p) == Look(m, d, p)
    ensures Exclusive(m') && Taken(m', marked)
  {
    forall d, i | d in m.dirs && 0 <= i < TBL_SIZE ensures Pde(m', d, i) == Pde(m, d, i) {}
    forall d, p, d', i | d in m'.dirs && d' in m'.dirs && 0 <= p < USER_PAGES && 0 <= i < TBL_SIZE
        && Look(m', d, p).Some? && Pde(m', d', i).present
      ensures Look(m', d, p).value.frame != Pde(m', d', i).addr
    {
      assert Pde(m', d', i) == Pde(m, d', i) && Look(m', d, p) == Look(m, d, p);
    }
  }

  /** Page p has a frame from outside `marked`, with the rights of its directory slot. */
  ghost predicate Fresh(m: Space, d: Dir, p: nat, marked: set<Frame>)
    requires d in m.dirs && p < PAGES
  {
    && Look(m, d, p).Some? && Look(m, d, p).value.frame !in marked && Pde(m, d, p / TBL_SIZE).present
    && Look(m, d, p).value.write == Pde(m, d, p / TBL_SIZE).write
    && Look(m, d, p).value.user == Pde(m, d, p / TBL_SIZE).user
  }

  /** Pages lo to hi of directory d are fresh; the directory's other pages and all other user
      pages are as before. */
  ghost predicate Backed(m: Space, d: Dir, lo: nat, hi: nat, marked: set<Frame>, m': Space) {
    && d in m.dirs && m'.dirs.Keys == m.dirs.Keys
    && (forall p {:trigger Look(m', d, p)} | 0 <= p < PAGES ::
          if lo <= p < hi then Fresh(m', d, p, marked) else Look(m', d, p) == Look(m, d, p))
    && (forall d', p {:trigger Look(m', d', p)} | d' in m.dirs && d' != d && 0 <= p < USER_PAGES ::
          Look(m', d', p) == Look(m, d', p))
  }

  lemma BackedNext(m: Space, d: Dir, lo: nat, hi: nat, marked: set<Frame>, m1: Space, f: Frame, m2: Space)
    requires lo <= hi < PAGES && Backed(m, d, lo, hi, marked, m1) && f !in marked && Frozen(m1, m2)
    requires Overwritten(m1, d, hi, f, true, true, m2) && Pde(m2, d, hi / TBL_SIZE).present
    ensures Backed(m, d, lo, hi + 1, marked, m2)
  {
    forall p | 0 <= p < PAGES
      ensures if lo <= p < hi + 1 then Fresh(m2, d, p, marked) else Look(m2, d, p) == Look(m, d, p)
    {
      var before := Look(m1, d, p);
      if lo <= p < hi { assert Pde(m2, d, p / TBL_SIZE) == Pde(m1, d, p / TBL_SIZE); }
    }
    forall d', p | d' in m.dirs && d' != d && 0 <= p < USER_PAGES ensures Look(m2, d', p) == Look(m, d', p) {
      var before := Look(m1, d', p);
    }
  }

  // ------------------------------------------------- what a run of pages does elsewhere

  /** Page q of directory e is decided by the same entry as page p of directory d. */
  predicate Alias(m: Space, d: Dir, p: nat, e: Dir, q: nat)
    requires d in m.dirs && e in m.dirs && p < PAGES && q < PAGES
  {
    && Pde(m, d, p / TBL_SIZE).present && Pde(m, e, q / TBL_SIZE).present
    && Pde(m, e, q / TBL_SIZE).addr == Pde(m, d, p / TBL_SIZE).addr && q % TBL_SIZE == p % TBL_SIZE
  }

  /** Only the pages the entry of page p decides have changed. */
  ghost predicate Single(m: Space, d: Dir, p: nat, m': Space) {
    && d in m.dirs && p < PAGES && m'.dirs.Keys == m.dirs.Keys
    && forall e, q {:trigger Look(m', e, q)} | e in m.dirs && 0 <= q < PAGES && !Alias(m', d, p, e, q) ::
         Look(m', e, q) == Look(m, e, q)
  }

  /** One page of d has been set: at most its own slot is new, which opens the kernel's part
      exactly if it is an empty one from UTOP on that gets the user bit. */
  ghost predicate Stepped(m: Space, d: Dir, p: nat, u: bool, m': Space) {
    && Single(m, d, p, m') && Frozen(m, m')
    && (forall j {:trigger Pde(m', d, j)} | 0 <= j < TBL_SIZE && j != p / TBL_SIZE :: Pde(m', d, j) == Pde(m, d, j))
    && (KernelOnly(m) ==> (KernelOnly(m') <==> p < USER_PAGES || Pde(m, d, p / TBL_SIZE).present || !u))
  }

  lemma WalkedStepped(m: Space, d: Dir, p: nat, w: bool, u: bool, m1: Space, m2: Space,
                      marked: set<Frame>, marked1: set<Frame>)
    requires p < PAGES && Walked(m, d, p / TBL_SIZE, w, u, marked, m1, marked1) && SameLooks(m, m1)
    requires m2.dirs == m1.dirs && Single(m1, d, p, m2)
    ensures Stepped(m, d, p, u, m2)
  {
    WalkedFrozen(m, d, p / TBL_SIZE, w, u, m1, m2, marked, marked1);
    assert p < USER_PAGES <==> p / TBL_SIZE < USER_SLOTS;
    if KernelOnly(m) { WalkedKernel(m, d, p / TBL_SIZE, w, u, m1, m2, marked, marked1); }
    forall e, q | e in m.dirs && 0 <= q < PAGES && !Alias(m2, d, p, e, q) ensures Look(m2, e, q) == Look(m, e, q) {
      assert Look(m1, e, q) == Look(m, e, q);
    }
  }

  lemma SteppedAfterSame(m: Space, m1: Space, d: Dir, p: nat, u: bool, m2: Space)
    requires m1.dirs == m.dirs && SameLooks(m, m1) && Stepped(m1, d, p, u, m2)
    ensures Stepped(m, d, p, u, m2)
  {
    forall e, i | e in m.dirs && 0 <= i < TBL_SIZE ensures Pde(m1, e, i) == Pde(m, e, i) {}
    forall e, q | e in m.dirs && 0 <= q < PAGES ensures Look(m1, e, q) == Look(m, e, q) {}
  }

  /** One of the n pages from lo on decides page q of directory e. */
  ghost predicate Reached(m: Space, d: Dir, lo: nat, n: nat, e: Dir, q: nat)
    requires d in m.dirs && e in m.dirs && q < PAGES
  {
    exists p: nat {:trigger In(lo, n, p)} :: In(lo, n, p) && Alias(m, d, p, e, q)
  }

  /** Only pages that the n pages from lo on decide have changed, in any directory. */
  ghost predicate Spread(m: Space, d: Dir, lo: nat, n: nat, m': Space) {
    && d in m.dirs && m'.dirs.Keys == m.dirs.Keys
    && forall e, q {:trigger Look(m', e, q)} | e in m.dirs && 0 <= q < PAGES && !Reached(m', d, lo, n, e, q) ::
         Look(m', e, q) == Look(m, e, q)
  }

  /** Some of the n pages from lo on is in slot j. */
  ghost predicate InSlot(lo: nat, n: nat, j: nat) {
    exists p: nat {:trigger In(lo, n, p)} :: In(lo, n, p) && p / TBL_SIZE == j
  }

  /** Slots of d that are new belong to the n pages from lo on. */
  ghost predicate Hung(m: Space, d: Dir, lo: nat, n: nat, m': Space)
    requires d in m.dirs && d in m'.dirs
  {
    forall j {:trigger Pde(m', d, j)} | 0 <= j < TBL_SIZE && Pde(m', d, j).present && !Pde(m, d, j).present ::
        InSlot(lo, n, j)
  }

  /** All of the n pages from lo on that belong to the kernel have their slot. */
  ghost predicate Seated(m: Space, d: Dir, lo: nat, n: nat)
    requires d in m.dirs
  {
    forall p: nat {:trigger In(lo, n, p)} | In(lo, n, p) && p >= USER_PAGES :: Pde(m, d, p / TBL_SIZE).present
  }

  /** Setting n pages opens the kernel's part exactly if it gives the user bit to a new slot. */
  ghost predicate Paved(m: Space, d: Dir, lo: nat, n: nat, u: bool, m': Space) {
    && lo < PAGES && n <= PAGES && Spread(m, d, lo, n, m') && Frozen(m, m') && Hung(m, d, lo, n, m')
    && (KernelOnly(m) ==> (KernelOnly(m') <==> !u || Seated(m, d, lo, n)))
  }

  lemma PavedNone(m: Space, d: Dir, lo: nat, u: bool)
    requires d in m.dirs && lo < PAGES
    ensures Paved(m, d, lo, 0, u, m)
  {
  }

  lemma ReachedNext(m: Space, d: Dir, lo: nat, n: nat, e: Dir, q: nat, m': Space)
    requires lo < PAGES && n < PAGES && d in m.dirs && e in m.dirs && q < PAGES && Frozen(m, m')
    requires Reached(m, d, lo, n, e, q)
    ensures Reached(m', d, lo, n + 1, e, q)
  {
    var p: nat :| In(lo, n, p) && Alias(m, d, p, e, q);
    InNext(lo, n, p);
    assert Pde(m', d, p / TBL_SIZE) == Pde(m, d, p / TBL_SIZE);
    assert Pde(m', e, q / TBL_SIZE) == Pde(m, e, q / TBL_SIZE);
    assert In(lo, n + 1, p) && Alias(m', d, p, e, q);
  }

  lemma SpreadNext(m: Space, d: Dir, lo: nat, n: nat, m1: Space, m2: Space)
    requires lo < PAGES && n < PAGES && Spread(m, d, lo, n, m1) && Single(m1, d, At(lo, n), m2) && Frozen(m1, m2)
    ensures Spread(m, d, lo, n + 1, m2)
  {
    InNext(lo, n, At(lo, n));
    assert In(lo, n + 1, At(lo, n));
    forall e, q | e in m.dirs && 0 <= q < PAGES && Reached(m1, d, lo, n, e, q) ensures Reached(m2, d, lo, n + 1, e, q) {
      ReachedNext(m1, d, lo, n, e, q, m2);
    }
    forall e, q | e in m.dirs && 0 <= q < PAGES && !Reached(m2, d, lo, n + 1, e, q)
      ensures Look(m2, e, q) == Look(m, e, q)
    {
      assert !Reached(m1, d, lo, n, e, q) && !Alias(m2, d, At(lo, n), e, q);
      assert Look(m2, e, q) == Look(m1, e, q);
    }
  }

  lemma HungNext(m: Space, d: Dir, lo: nat, n: nat, m1: Space, u: bool, m2: Space)
    requires lo < PAGES && n < PAGES && d in m.dirs && d in m1.dirs && Hung(m, d, lo, n, m1)
    requires Stepped(m1, d, At(lo, n), u, m2)
    ensures Hung(m, d, lo, n + 1, m2)
  {
    forall j | 0 <= j < TBL_SIZE && Pde(m2, d, j).present && !Pde(m, d, j).present ensures InSlot(lo, n + 1, j) {
      InNext(lo, n, At(lo, n));
      assert In(lo, n + 1, At(lo, n));
      if j != At(lo, n) / TBL_SIZE {
        assert Pde(m1, d, j).present;
        var p: nat :| In(lo, n, p) && p / TBL_SIZE == j;
        InNext(lo, n, p);
        assert In(lo, n + 1, p);
      }
    }
  }

  lemma SeatedNext(m: Space, d: Dir, lo: nat, n: nat)
    requires d in m.dirs && lo < PAGES && n < PAGES
    ensures At(lo, n) < PAGES
    ensures Seated(m, d, lo, n + 1) <==>
            Seated(m, d, lo, n) && (At(lo, n) < USER_PAGES || Pde(m, d, At(lo, n) / TBL_SIZE).present)
  {
    InNext(lo, n, At(lo, n));
    assert In(lo, n + 1, At(lo, n));
    if Seated(m, d, lo, n + 1) {
      forall p: nat | In(lo, n, p) && p >= USER_PAGES ensures Pde(m, d, p / TBL_SIZE).present {
        InNext(lo, n, p);
        assert In(lo, n + 1, p);
      }
    }
    if Seated(m, d, lo, n) && (At(lo, n) < USER_PAGES || Pde(m, d, At(lo, n) / TBL_SIZE).present) {
      forall p: nat | In(lo, n + 1, p) && p >= USER_PAGES ensures Pde(m, d, p / TBL_SIZE).present {
        InNext(lo, n, p);
        assert p != At(lo, n) ==> In(lo, n, p);
      }
    }
  }

  /** A slot of the kernel's part that has come into being has opened it. */
  lemma NewSlotOpens(m: Space, d: Dir, lo: nat, n: nat, m1: Space, j: nat)
    requires Paved(m, d, lo, n, true, m1) && KernelOnly(m) && USER_SLOTS <= j < TBL_SIZE
    requires Pde(m1, d, j).present && !Pde(m, d, j).present
    ensures !KernelOnly(m1)
  {
    assert InSlot(lo, n, j);
    var q: nat :| In(lo, n, q) && q / TBL_SIZE == j;
    assert q >= USER_PAGES;
    assert !Seated(m, d, lo, n);
  }

  lemma PavedNext(m: Space, d: Dir, lo: nat, n: nat, u: bool, m1: Space, m2: Space)
    requires n < PAGES && Paved(m, d, lo, n, u, m1) && Stepped(m1, d, At(lo, n), u, m2)
    ensures Paved(m, d, lo, n + 1, u, m2)
  {
    var slot := At(lo, n) / TBL_SIZE;
    SpreadNext(m, d, lo, n, m1, m2);
    HungNext(m, d, lo, n, m1, u, m2);
    FrozenTwice(m, m1, m2);
    SeatedNext(m, d, lo, n);
    if !KernelOnly(m1) { StaysOpen(m1, m2); }
    if KernelOnly(m) && u && slot >= USER_SLOTS && Pde(m1, d, slot).present && !Pde(m, d, slot).present {
      NewSlotOpens(m, d, lo, n, m1, slot);
    }
    assert Pde(m, d, slot).present ==> Pde(m1, d, slot).present;
  }

  /** What boot_map has done to m, with the frames of `marked` taken, in n rounds. */
  ghost predicate Laid(m: Space, marked: set<Frame>, d: Dir, lo: nat, n: nat, f: Frame, w: bool, u: bool, above: bool,
                       m': Space, marked': set<Frame>) {
    && Straight(m, d, lo, n, f, w, u, m') && Paved(m, d, lo, n, u, m')
    && (above && Exclusive(m) && Taken(m, marked) ==> Exclusive(m') && Taken(m', marked'))
  }

  /** Below UTOP the pages of a region show nowhere else and are open to the user. */
  lemma BackedMapped(m: Space, d: Dir, lo: nat, hi: nat, marked: set<Frame>, m': Space)
    requires lo <= hi <= USER_PAGES && Backed(m, d, lo, hi, marked, m') && Spread(m, d, lo, hi - lo, m')
    requires Private(m') && Open(m', d)
    ensures Mapped(m, d, lo, hi, marked, m')
  {
    var n := hi - lo;
    forall e, q | e in m.dirs && 0 <= q < PAGES && Reached(m', d, lo, n, e, q) ensures e == d && lo <= q < hi {
      var p: nat :| In(lo, n, p) && Alias(m', d, p, e, q);
      assert p / TBL_SIZE < USER_SLOTS;
      assert e == d && q / TBL_SIZE == p / TBL_SIZE;
    }
    forall q | lo <= q < hi
      ensures Look(m', d, q).Some? && Look(m', d, q).value.frame !in marked
      ensures Look(m', d, q).value.write && Look(m', d, q).value.user
    {
      var now := Look(m', d, q);
      assert Fresh(m', d, q, marked);
    }
  }

  /** What region_alloc has done to m, with the frames of `marked` taken, from page lo to p. */
  ghost predicate Region(m: Space, marked: set<Frame>, d: Dir, lo: nat, p: nat, m': Space, marked': set<Frame>) {
    && lo <= p && Backed(m, d, lo, p, marked, m') && Paved(m, d, lo, p - lo, true, m') && marked <= marked'
    && (Exclusive(m) && Taken(m, marked) ==> Exclusive(m') && Taken(m', marked'))
    && (Open(m, d) ==> Open(m', d))
  }

  /** What one round of it does: page p of d gets frame f. */
  ghost predicate Extended(m: Space, marked: set<Frame>, d: Dir, p: nat, f: Frame, m': Space, marked': set<Frame>) {
    && f !in marked && marked <= marked' && Stepped(m, d, p, true, m')
    && Overwritten(m, d, p, f, true, true, m') && Pde(m', d, p / TBL_SIZE).present
    && (Exclusive(m) && Taken(m, marked) ==> Exclusive(m') && Taken(m', marked'))
    && (Open(m, d) ==> Open(m', d))
  }

  lemma RegionNext(m: Space, marked: set<Frame>, d: Dir, lo: nat, p: nat, m1: Space, marked1: set<Frame>, f: Frame,
                   m2: Space, marked2: set<Frame>)
    requires p < PAGES && Region(m, marked, d, lo, p, m1, marked1) && Extended(m1, marked1, d, p, f, m2, marked2)
    ensures Region(m, marked, d, lo, p + 1, m2, marked2)
  {
    assert At(lo, p - lo) == p;
    BackedNext(m, d, lo, p, marked, m1, f, m2);
    PavedNext(m, d, lo, p - lo, true, m1, m2);
  }

  lemma StaysOpen(m: Space, m': Space)
    requires !KernelOnly(m) && Frozen(m, m')
    ensures !KernelOnly(m')
  {
    var d, i :| d in m.dirs && USER_SLOTS <= i < TBL_SIZE && Pde(m, d, i).present && Pde(m, d, i).user;
    assert Pde(m', d, i) == Pde(m, d, i);
  }

  lemma FrozenTwice(m: Space, m1: Space, m2: Space)
    requires Frozen(m, m1) && Frozen(m1, m2)
    ensures Frozen(m, m2)
  {
    forall d, i | d in m.dirs && 0 <= i < TBL_SIZE && Pde(m, d, i).present ensures Pde(m2, d, i) == Pde(m, d, i) {
      assert Pde(m1, d, i) == Pde(m, d, i);
    }
  }

  // --------------------------------------------------------------------------- runs

  /** The kernel maps a range from UTOP on; a process gets a directory; a region is
      allocated in a directory. */
  datatype Request = MapKernel(va: nat, pa: nat, bytes: nat, w: bool) | NewDir | MapRegion(d: Dir, va: nat, len: nat)

  /** Neither kernel range nor region ends beyond the address space. */
  predicate Legal(m: Space, kpd: Dir, r: Request) {
    match r
    case MapKernel(va, pa, bytes, _) => kpd in m.dirs && va >= UTOP && va + bytes <= TWO32 && va < TWO32 && pa < TWO32
    case NewDir => true
    case MapRegion(d, va, len) =>
      && d in m.dirs && 0 < va && 0 < len && va + len + PG_SIZE - 1 < TWO32
      && forall p | Page(va) <= p < Page(va + len + PG_SIZE - 1) && p < PAGES :: Look(m, d, p) == None
  }

  /** The pages of a region are fresh, and in any directory only pages that they decide have
      changed: none, if the region is below UTOP. */
  ghost predicate Allots(m: Space, d: Dir, va: nat, len: nat, marked: set<Frame>, m': Space)
    requires 0 < len
  {
    && Backed(m, d, Page(va), Page(va + len + PG_SIZE - 1), marked, m')
    && Spread(m, d, Page(va), Pages(va, len), m')
    && (va + len <= UTOP && Open(m, d) ==> Mapped(m, d, Page(va), Page(va + len + PG_SIZE - 1), marked, m'))
  }

  /** How many pages a region has. */
  function Pages(va: nat, len: nat): nat
    requires 0 < len
  {
    Page(va + len + PG_SIZE - 1) - Page(va)
  }

  /** A region that takes a page from UTOP on whose slot is empty. */
  ghost predicate Opens(m: Space, kpd: Dir, r: Request) {
    r.MapRegion? && Legal(m, kpd, r) && !Seated(m, r.d, Page(r.va), Pages(r.va, r.len))
  }

  /** What a request does; one that breaks an assertion of the code does nothing here. */
  ghost predicate Does(m: Space, kpd: Dir, r: Request, m': Space)
    requires kpd in m.dirs
  {
    if !Legal(m, kpd, r) then m' == m
    else
      match r
      case MapKernel(va, pa, bytes, w) => Straight(m, kpd, Page(va), Rounds(bytes), Page(pa), w, false, m')
      case NewDir => exists d {:trigger Created(m, kpd, d, m')} :: Created(m, kpd, d, m')
      case MapRegion(d, va, len) => Allots(m, d, va, len, {}, m')
  }

  /** How often boot_map's loop goes round. */
  function Rounds(bytes: nat): nat { (bytes + PG_SIZE - 1) / PG_SIZE }

  /** One empty directory. */
  function Blank(kpd: Dir): Space { Space(map[kpd := Zeroed()], map[]) }

  /** A directory that translates nothing below UTOP and what the kernel's does above. */
  ghost predicate Created(m: Space, kpd: Dir, d: Dir, m': Space)
    requires kpd in m.dirs
  {
    && d !in m.dirs && m'.dirs.Keys == m.dirs.Keys + {d}
    && forall d', p {:trigger Look(m', d', p)} | d' in m'.dirs && 0 <= p < PAGES ::
         Look(m', d', p) == if d' != d then Look(m, d', p) else if p < USER_PAGES then None else Look(m, kpd, p)
  }

  ghost predicate Chapter(kpd: Dir, requests: seq<Request>, log: seq<Space>, i: nat)
    requires i < |requests| && i + 1 < |log|
  {
    kpd in log[i].dirs && Does(log[i], kpd, requests[i], log[i + 1])
  }

  ghost predicate Story(kpd: Dir, requests: seq<Request>, log: seq<Space>) {
    && 1 <= |log| <= |requests| + 1
    && forall i {:trigger Chapter(kpd, requests, log, i)} | 0 <= i < |log| - 1 :: Chapter(kpd, requests, log, i)
  }

  lemma StoryNext(kpd: Dir, requests: seq<Request>, log: seq<Space>, m': Space)
    requires Story(kpd, requests, log) && |log| <= |requests|
    requires var m := log[|log| - 1]; kpd in m.dirs && Does(m, kpd, requests[|log| - 1], m')
    ensures Story(kpd, requests, log + [m'])
  {
    forall i | 0 <= i < |log| ensures Chapter(kpd, requests, log + [m'], i) {
      if i < |log| - 1 { assert Chapter(kpd, requests, log, i); }
    }
  }

  /** No request before the n-th has opened the kernel's part. */
  ghost predicate Shut(kpd: Dir, requests: seq<Request>, log: seq<Space>, n: nat)
    requires n <= |log| <= |requests| + 1 && n <= |requests|
  {
    forall i {:trigger Opens(log[i], kpd, requests[i])} | 0 <= i < n :: !Opens(log[i], kpd, requests[i])
  }

  /** In each state user mode is out of the kernel's part exactly if nothing has opened it. */
  ghost predicate Watched(kpd: Dir, requests: seq<Request>, log: seq<Space>) {
    && 1 <= |log| <= |requests| + 1
    && forall n | 0 <= n < |log| :: KernelOnly(log[n]) <==> Shut(kpd, requests, log, n)
  }

  lemma WatchedNext(kpd: Dir, requests: seq<Request>, log: seq<Space>, m': Space)
    requires Watched(kpd, requests, log) && |log| <= |requests|
    requires var m, r := log[|log| - 1], requests[|log| - 1];
      Frozen(m, m') && (KernelOnly(m) ==> (KernelOnly(m') <==> !Opens(m, kpd, r)))
    ensures Watched(kpd, requests, log + [m'])
  {
    var n, log' := |log| - 1, log + [m'];
    forall k | 0 <= k <= n ensures Shut(kpd, requests, log', k) <==> Shut(kpd, requests, log, k) {
      assert forall i | 0 <= i < k :: log'[i] == log[i];
    }
    assert log'[n] == log[n] && log'[n + 1] == m';
    assert Shut(kpd, requests, log', n + 1) <==> Shut(kpd, requests, log', n) && !Opens(log'[n], kpd, requests[n]);
    if !KernelOnly(log[n]) { StaysOpen(log[n], m'); }
    forall k | 0 <= k < |log'| ensures KernelOnly(log'[k]) <==> Shut(kpd, requests, log', k) {
      if k <= n { assert log'[k] == log[k]; }
    }
  }

  /** The states of a run from an empty directory. */
  ghost predicate Logged(kpd: Dir, requests: seq<Request>, log: seq<Space>) {
    && Story(kpd, requests, log) && Watched(kpd, requests, log) && log[0] == Blank(kpd)
    && forall m | m in log :: Exclusive(m)
  }

  lemma LoggedNext(kpd: Dir, requests: seq<Request>, log: seq<Space>, m': Space)
    requires Logged(kpd, requests, log) && |log| <= |requests| && Exclusive(m')
    requires var m, r := log[|log| - 1], requests[|log| - 1];
      && kpd in m.dirs && Does(m, kpd, r, m') && Frozen(m, m')
      && (KernelOnly(m) ==> (KernelOnly(m') <==> !Opens(m, kpd, r)))
    ensures Logged(kpd, requests, log + [m'])
  {
    StoryNext(kpd, requests, log, m');
    WatchedNext(kpd, requests, log, m');
  }

  /** No two processes share a frame and no process reaches a page table. */
  ghost predicate Isolated(m: Space, kpd: Dir, marked: set<Frame>) {
    && Exclusive(m) && Taken(m, marked)
    && forall d {:trigger Open(m, d)} | d in m.dirs && d != kpd :: Open(m, d)
  }

  lemma OpenSame(m: Space, d: Dir, m': Space)
    requires Open(m, d) && d in m'.dirs && m'.dirs[d] == m.dirs[d]
    ensures Open(m', d)
  {
    forall i | 0 <= i < USER_SLOTS && Pde(m', d, i).present
      ensures Pde(m', d, i).write && Pde(m', d, i).user
    {
      assert Pde(m, d, i).present;
    }
  }

  /** A page of any directory that a page of the region decides shows a frame of the region. */
  lemma ReachedShows(m: Space, d: Dir, va: nat, len: nat, marked: set<Frame>, m': Space, e: Dir, q: nat)
    returns (p: nat)
    requires 0 < len && va + len + PG_SIZE - 1 < TWO32 && Allots(m, d, va, len, marked, m')
    requires e in m.dirs && q < PAGES && Reached(m', d, Page(va), Pages(va, len), e, q)
    ensures Page(va) <= p < Page(va + len + PG_SIZE - 1) <= PAGES && Look(m', d, p).Some? && Look(m', e, q).Some?
    ensures Look(m', e, q).value.frame == Look(m', d, p).value.frame && Look(m', e, q).value.frame !in marked
  {
    p :| In(Page(va), Pages(va, len), p) && Alias(m', d, p, e, q);
    assert Page(va) <= p < Page(va + len + PG_SIZE - 1);
    assert Fresh(m', d, p, marked) by { var now := Look(m', d, p); }
  }

  /** A region at UTOP in a directory without slots opens the kernel's part. */
  lemma RegionOpens(kpd: Dir)
    ensures KernelOnly(Blank(kpd)) && Opens(Blank(kpd), kpd, MapRegion(kpd, UTOP, PG_SIZE))
  {
    assert In(Page(UTOP), Pages(UTOP, PG_SIZE), USER_PAGES);
    assert !Pde(Blank(kpd), kpd, USER_PAGES / TBL_SIZE).present;
  }

  lemma RegionDone(m: Space, marked: set<Frame>, d: Dir, va: nat, len: nat, m': Space, marked': set<Frame>)
    requires 0 < len && va + len + PG_SIZE - 1 < TWO32 && Private(m')
    requires Region(m, marked, d, Page(va), Page(va + len + PG_SIZE - 1), m', marked')
    ensures Allots(m, d, va, len, marked, m')
  {
    if va + len <= UTOP && Open(m, d) {
      assert Page(va + len + PG_SIZE - 1) <= USER_PAGES;
      BackedMapped(m, d, Page(va), Page(va + len + PG_SIZE - 1), marked, m');
    }
  }

  lemma AllotsAny(m: Space, d: Dir, va: nat, len: nat, marked: set<Frame>, m': Space)
    requires 0 < len && Allots(m, d, va, len, marked, m')
    ensures Allots(m, d, va, len, {}, m')
  {
    forall p | 0 <= p < PAGES && Page(va) <= p < Page(va + len + PG_SIZE - 1) ensures Fresh(m', d, p, {}) {
      var now := Look(m', d, p);
    }
  }
}
