/**
 Safety of every run of the kernel: one invariant, kept by every step from boot.
 */
module KernelRuns {
  import opened Basics
  import opened Scheduler
  import opened Wakeups
  import opened Kernel
  import opened Synch
  import opened Joining

  ghost predicate Inv(k: Kernel) { Synced(k) && Children(k) && !k.fault }

  // -------------------------------------------- steps outside the handshake

  /** The step has not touched the handshake's data. */
  ghost predicate SameRecords(k: Kernel, k': Kernel)
  {
    && k'.unjoined == k.unjoined && k'.exits == k.exits && k'.joins == k.joins
    && (forall c {:trigger PSem(c)} :: PSem(c) in k'.sems <==> PSem(c) in k.sems)
    && (forall c {:trigger CSem(c)} :: CSem(c) in k'.sems <==> CSem(c) in k.sems)
    && (forall c {:trigger PSem(c)} :: PSem(c) in k.sems ==> k'.sems[PSem(c)] == k.sems[PSem(c)])
    && (forall c {:trigger CSem(c)} :: CSem(c) in k.sems ==> k'.sems[CSem(c)] == k.sems[CSem(c)])
  }

  lemma Quiet(k: Kernel, k': Kernel)
    requires Inv(k) && SameRecords(k, k') && Mild(k.sched, k'.sched, k.sched.nextTid)
    requires k'.sched.nextTid == k.sched.nextTid
    requires Synced(k') && !k'.fault
    requires forall t | t in k'.sched.threads
        && !(t in k.sched.threads && k'.sched.threads[t].pc == k.sched.threads[t].pc) :: Shape(k', t)
    ensures Inv(k')
  {
    var r := k.sched.nextTid;
    forall t ensures SameFor(k, k', t) {}
    forall t | t in k'.sched.threads ensures Shape(k', t) {
      if t in k.sched.threads && k'.sched.threads[t].pc == k.sched.threads[t].pc { assert Shape(k, t); }
    }
    assert PSem(r) in k.sems ==> ChildOk(k, r);
    assert TiesOk(k, r);
    ChildrenBut(k, k', r);
  }

  lemma YieldInv(k: Kernel)
    requires Inv(k) && !k.sched.halted
    ensures Inv(k.(sched := Yield(k.sched)))
  {
    YieldSynced(k);
    YieldMild(k.sched, k.sched.nextTid);
    YieldPcs(k.sched);
    YieldNextTid(k.sched);
    Quiet(k, k.(sched := Yield(k.sched)));
  }

  lemma YieldNextTid(s: Sched)
    ensures Yield(s).nextTid == s.nextTid
  {
  }

  lemma StartInv(k: Kernel)
    requires Inv(k) && !k.sched.halted && Me(k.sched).pc == Starting
    ensures Inv(k.(sched := SetPc(Exorcise(k.sched), User)))
  {
    StartSynced(k);
    var s1 := Exorcise(k.sched);
    ExorciseConserves(k.sched);
    ExorciseMild(k.sched, k.sched.nextTid);
    PcMild(s1, User, k.sched.nextTid);
    MildTrans(k.sched, s1, SetPc(s1, User), k.sched.nextTid);
    Quiet(k, k.(sched := SetPc(s1, User)));
  }

  lemma SleepInv(k: Kernel, s: Sem, after: After)
    requires Inv(k) && !k.sched.halted && s in k.sems && k.sems[s].count == 0 && after != ThenExit
    requires Me(k.sched).pc == User || (Me(k.sched).pc.InP? && Me(k.sched).pc.s == s && Me(k.sched).pc.after == after)
    requires match after case Return => s.UserSem? case ThenJoin(c) => s == PSem(c) && c in k.unjoined
        && k.unjoined[c] == k.sched.running case ThenExit => false
    ensures Inv(k.(sched := SleepOn(k.sched, SemChan(s), InP(s, after))))
  {
    BlockSynced(k, s, after);
    SleepMild(k.sched, SemChan(s), InP(s, after), k.sched.nextTid);
    SleepPcs(k.sched, SemChan(s), InP(s, after));
    SleepNextTid(k.sched, SemChan(s), InP(s, after));
    Quiet(k, k.(sched := SleepOn(k.sched, SemChan(s), InP(s, after))));
  }

  lemma SleepNextTid(s: Sched, ch: Chan, pc: Pc)
    ensures SleepOn(s, ch, pc).nextTid == s.nextTid
  {
  }

  lemma PInv(k: Kernel, n: nat)
    requires Inv(k) && !k.sched.halted && UserSem(n) in k.sems
    requires Me(k.sched).pc in {User, InP(UserSem(n), Return)}
    ensures Inv(TryP(k, UserSem(n), Return))
  {
    var s := UserSem(n);
    if k.sems[s].count == 0 {
      SleepInv(k, s, Return);
    } else {
      TakeSynced(k, s);
      PcMild(k.sched, User, k.sched.nextTid);
      Quiet(k, Take(k, s));
    }
  }

  lemma VInv(k: Kernel, n: nat)
    requires Inv(k) && !k.sched.halted && UserSem(n) in k.sems && k.sems[UserSem(n)].count < UINT_MAX
    ensures Inv(V(k, UserSem(n)))
  {
    VSynced(k, UserSem(n));
    WakeQuiet(k, V(k, UserSem(n)), SemChan(UserSem(n)));
  }

  lemma AcquireInv(k: Kernel, l: nat)
    requires Inv(k) && !k.sched.halted && l in k.locks && MayAcquire(Me(k.sched).pc, l)
    ensures Inv(TryAcquire(k, l))
  {
    AcquireSynced(k, l);
    var k' := TryAcquire(k, l);
    if k.locks[l].owner != Some(k.sched.running) && k.locks[l].count > 0 {
      SleepQuiet(k, k', LockChan(l), InAcquire(l));
    } else {
      PcMild(k.sched, User, k.sched.nextTid);
      Quiet(k, k');
    }
  }

  lemma SleepQuiet(k: Kernel, k': Kernel, ch: Chan, pc: Pc)
    requires Inv(k) && !k.sched.halted && WaitsOn(ch, pc) && !pc.InP? && !Exiting(k.sched, k.sched.running)
    requires SameRecords(k, k') && k'.sched == SleepOn(k.sched, ch, pc) && Synced(k') && !k'.fault
    ensures Inv(k')
  {
    SleepMild(k.sched, ch, pc, k.sched.nextTid);
    SleepPcs(k.sched, ch, pc);
    SleepNextTid(k.sched, ch, pc);
    Quiet(k, k');
  }

  lemma ReleaseInv(k: Kernel, l: nat)
    requires Inv(k) && !k.sched.halted && Owns(k, l)
    ensures Inv(Release(k, l))
  {
    ReleaseSynced(k, l);
    assert LockOk(k, l);
    var k' := Release(k, l);
    if k.locks[l].count == 1 {
      WakeQuiet(k, k', LockChan(l));
    } else {
      SelfMild(k.sched);
      Quiet(k, k');
    }
  }

  lemma WakeQuiet(k: Kernel, k': Kernel, ch: Chan)
    requires Inv(k) && (ch.SemChan? ==> ch.s.UserSem?)
    requires SameRecords(k, k') && k'.sched == WakeOne(k.sched, ch) && Synced(k') && !k'.fault
    ensures Inv(k')
  {
    WakeMild(k.sched, ch, k.sched.nextTid);
    WakeSame(k.sched, ch);
    Quiet(k, k');
  }

  lemma SelfMild(s: Sched)
    ensures Mild(s, s, s.nextTid)
  {
    forall t | t in s.threads ensures Alike(s, s, t) {}
  }

  lemma CvWaitInv(k: Kernel, cv: nat, l: nat)
    requires Inv(k) && !k.sched.halted && Owns(k, l) && Me(k.sched).pc == User
    ensures Inv(CvWait(k, cv, l))
  {
    ReleaseInv(k, l);
    ReleaseKeeps(k, l);
    var k1 := Release(k, l);
    CvWaitSynced(k, cv, l);
    SleepQuiet(k1, CvWait(k, cv, l), CvChan(cv), InCv(cv, l));
  }

  lemma CvSignalInv(k: Kernel, cv: nat, l: nat)
    requires Inv(k) && !k.sched.halted && Owns(k, l) && Me(k.sched).pc == User
    ensures Inv(CvSignal(k, cv, l))
  {
    ReleaseInv(k, l);
    ReleaseKeeps(k, l);
    var k1 := Release(k, l);
    CvSignalSynced(k, cv, l);
    WakeMild(k1.sched, CvChan(cv), k1.sched.nextTid);
    WakeSame(k1.sched, CvChan(cv));
    WakeKeepsRunning(k1.sched, CvChan(cv));
    RetestQuiet(k1, CvSignal(k, cv, l), WakeOne(k1.sched, CvChan(cv)), l);
  }

  lemma CvBroadcastInv(k: Kernel, cv: nat, l: nat)
    requires Inv(k) && !k.sched.halted && Owns(k, l) && Me(k.sched).pc == User
    ensures Inv(CvBroadcast(k, cv, l))
  {
    ReleaseInv(k, l);
    ReleaseKeeps(k, l);
    var k1 := Release(k, l);
    CvBroadcastSynced(k, cv, l);
    WakeAllMild(k1.sched, CvChan(cv), k1.sched.nextTid);
    WakeAllSame(k1.sched, CvChan(cv));
    WakeAllNextTid(k1.sched, CvChan(cv));
    RetestQuiet(k1, CvBroadcast(k, cv, l), WakeAll(k1.sched, CvChan(cv)), l);
  }

  lemma RetestQuiet(k: Kernel, k': Kernel, s: Sched, l: nat)
    requires Inv(k) && Me(k.sched).pc == User && Mild(k.sched, s, k.sched.nextTid) && s.nextTid == k.sched.nextTid
    requires s.running == k.sched.running && s.running in s.threads && Me(s) == Me(k.sched)
    requires s.threads.Keys == k.sched.threads.Keys
    requires forall t | t in s.threads :: s.threads[t].pc == k.sched.threads[t].pc
    requires SameRecords(k, k') && k'.sched == SetPc(s, Reacquiring(l)) && Synced(k') && !k'.fault
    ensures Inv(k')
  {
    PcMild(s, Reacquiring(l), k.sched.nextTid);
    MildTrans(k.sched, s, k'.sched, k.sched.nextTid);
    Quiet(k, k');
  }

  lemma {:induction false} WakeAllNextTid(s: Sched, ch: Chan)
    ensures WakeAll(s, ch).nextTid == s.nextTid
    decreases |Queue(s, ch)|
  {
    if Queue(s, ch) != [] { WakeAllNextTid(WakeOne(s, ch), ch); }
  }

  // ------------------------------------------------------------ the handshake

  lemma ForkInv(k: Kernel, joinable: bool)
    requires Inv(k) && !k.sched.halted
    ensures Inv(Fork(k, joinable)) && Fork(k, joinable).sched.ready == k.sched.ready + [k.sched.nextTid]
    ensures Fork(k, joinable).sched.running == k.sched.running
  {
    var n, k' := k.sched.nextTid, Fork(k, joinable);
    ForkSynced(k, joinable);
    SpawnMild(k.sched, if joinable then Some(k.sched.running) else None);
    ForkedChild(k, joinable, k');
    forall t | t != n ensures SameFor(k, k', t) {}
    forall t | t in k'.sched.threads ensures Shape(k', t) { if t != n { assert Shape(k, t); } }
    ChildrenBut(k, k', n);
  }

  lemma ForkedChild(k: Kernel, joinable: bool, k': Kernel)
    requires Inv(k) && !k.sched.halted && k' == Fork(k, joinable)
    ensures var n := k.sched.nextTid;
      n !in k.sched.threads && PSem(n) !in k.sems && TiesOk(k', n) && (joinable ==> ChildOk(k', n))
  {
    var n := k.sched.nextTid;
    assert n !in k.sched.threads;
    assert PSem(n) !in k.sems by { assert PSem(n) in k.sems ==> ChildOk(k, n); }
    assert TiesOk(k, n);
  }

  /** The only thread that can wait on csem of c is c, and on psem of c the thread
      that joins c. */
  lemma OnlyWaiter(k: Kernel, c: Tid, t: Tid)
    requires Inv(k) && t in k.sched.threads
    ensures WaitsOn(SemChan(CSem(c)), k.sched.threads[t].pc) ==> t == c
    ensures WaitsOn(SemChan(PSem(c)), k.sched.threads[t].pc) ==> c in k.unjoined && k.unjoined[c] == t
  {
    assert Shape(k, t);
  }

  /** A joined child that has been told so: nobody is left on its semaphores. */
  lemma Deserted(k: Kernel, c: Tid)
    requires Inv(k) && c in k.sched.threads && !k.sched.threads[c].state.Sleep? && c !in k.unjoined
    ensures Queue(k.sched, SemChan(PSem(c))) == [] && Queue(k.sched, SemChan(CSem(c))) == []
  {
    NobodyThere(k, c, SemChan(PSem(c)));
    NobodyThere(k, c, SemChan(CSem(c)));
  }

  lemma NobodyThere(k: Kernel, c: Tid, ch: Chan)
    requires Inv(k) && c in k.sched.threads && !k.sched.threads[c].state.Sleep? && c !in k.unjoined
    requires ch == SemChan(PSem(c)) || ch == SemChan(CSem(c))
    ensures Queue(k.sched, ch) == []
  {
    var q := Queue(k.sched, ch);
    assert ListOk(k.sched, q, Sleep(ch));
    forall t ensures t !in q { if t in k.sched.threads { OnlyWaiter(k, c, t); } }
    if q != [] { SomeMember(q); }
  }

  lemma RecordWaits(s: Sched, t: Tid, th: Thread)
    requires Conserved(s) && Waiters(s) && t in s.threads
    requires th.state == s.threads[t].state && th.pc == s.threads[t].pc && th.hasProc == s.threads[t].hasProc
    ensures Conserved(Put(s, t, th)) && Waiters(Put(s, t, th)) && SameWaits(s, Put(s, t, th), CvChan(0))
  {
    SameListsConserve(s, Put(s, t, th));
    forall x: Chan ensures Woken(Put(s, t, th), x) == Woken(s, x) {}
  }

  /** Rewriting what a thread records besides state, process and pc. */
  lemma RecordSynced(k: Kernel, t: Tid, th: Thread)
    requires Synced(k) && t in k.sched.threads
    requires th.state == k.sched.threads[t].state && th.pc == k.sched.threads[t].pc
    requires th.hasProc == k.sched.threads[t].hasProc
    ensures Synced(k.(sched := Put(k.sched, t, th)))
  {
    RecordWaits(k.sched, t, th);
    ObjectsSame(k, k.(sched := Put(k.sched, t, th)), CvChan(0));
  }

  lemma LeaveState(s: Sched)
    requires Conserved(s) && !s.halted
    ensures var s' := Leave(s);
        s.running in s'.threads && s'.threads[s.running] == Me(s).(state := Zombie, hasProc := false)
    ensures Leave(s).nextTid == s.nextTid
  {
    LeavingOrderly(s);
    var s1 := Put(s, s.running, Me(s).(hasProc := false));
    ExorciseConserves(s1);
    BuryOrderly(Exorcise(s1));
    var s3 := Bury(Exorcise(s1));
    if s3.ready != [] { assert s3.ready[0] in s3.ready; }
  }

  lemma SleepState(s: Sched, ch: Chan, pc: Pc)
    requires Conserved(s) && !s.halted
    ensures SleepOn(s, ch, pc).threads[s.running] == Me(s).(state := Sleep(ch), pc := pc)
  {
    ParkOrderly(s, ch, pc);
    var s1 := Park(s, ch, pc);
    if s1.ready != [] { assert s1.ready[0] in s1.ready; }
  }

  /** The first thing thread_exit does: record the value. */
  function Recorded(k: Kernel, v: int): Kernel {
    k.(sched := Put(k.sched, k.sched.running, Me(k.sched).(rval := v)), exits := k.exits[k.sched.running := v])
  }

  lemma RecordedSynced(k: Kernel, v: int)
    requires Synced(k)
    ensures Synced(Recorded(k, v))
  {
    var s1 := Put(k.sched, k.sched.running, Me(k.sched).(rval := v));
    RecordSynced(k, k.sched.running, Me(k.sched).(rval := v));
    SameObjects(k.(sched := s1), Recorded(k, v));
  }

  lemma LeftMild(k: Kernel, v: int, s1: Sched, s': Sched)
    requires Inv(k) && !k.sched.halted && Me(k.sched).pc == User && Me(k.sched).parent == None
    requires s1 == Put(k.sched, k.sched.running, Me(k.sched).(rval := v)) && Conserved(s1) && Waiters(s1)
    requires s' == Leave(s1)
    ensures Mild(k.sched, s', k.sched.running) && s'.nextTid == k.sched.nextTid && k.sched.running in s'.threads
    ensures s'.threads[k.sched.running].state == Zombie && s'.threads[k.sched.running].parent == None
    ensures forall t | t in s'.threads :: t in k.sched.threads && s'.threads[t].pc == k.sched.threads[t].pc
  {
    PutMild(k.sched, k.sched.running, Me(k.sched).(rval := v));
    LeaveMild(s1);
    MildTrans(k.sched, s1, s', k.sched.running);
    LeaveState(s1);
    LeavePcs(s1);
  }

  lemma ExitAloneChildren(k: Kernel, v: int, s1: Sched, k': Kernel)
    requires Inv(k) && !k.sched.halted && Me(k.sched).pc == User && Me(k.sched).parent == None
    requires s1 == Put(k.sched, k.sched.running, Me(k.sched).(rval := v)) && Conserved(s1) && Waiters(s1)
    requires k'.sched == Leave(s1) && k'.sems == k.sems
    requires k'.unjoined == k.unjoined && k'.joins == k.joins && k'.exits == k.exits[k.sched.running := v]
    ensures Children(k')
  {
    LeftMild(k, v, s1, k'.sched);
    GoneChildren(k, v, k', k.sched.running);
  }

  lemma GoneChildren(k: Kernel, v: int, k': Kernel, me: Tid)
    requires Inv(k) && me in k.sched.threads && k.sched.threads[me].pc == User && k.sched.threads[me].parent == None
    requires k.sched.threads[me].state == Run
    requires Mild(k.sched, k'.sched, me) && k'.sched.nextTid == k.sched.nextTid && me in k'.sched.threads
    requires k'.sched.threads[me].state == Zombie && k'.sched.threads[me].parent == None
    requires forall t | t in k'.sched.threads :: t in k.sched.threads && k'.sched.threads[t].pc == k.sched.threads[t].pc
    requires k'.sems == k.sems && k'.unjoined == k.unjoined && k'.joins == k.joins && k'.exits == k.exits[me := v]
    ensures Children(k')
  {
    assert TiesOk(k, me);
    assert PSem(me) !in k.sems by { assert PSem(me) in k.sems ==> ChildOk(k, me); }
    forall t | t != me ensures SameFor(k, k', t) {}
    forall t | t in k'.sched.threads ensures Shape(k', t) { assert Shape(k, t); }
    assert TiesOk(k', me);
    ChildrenBut(k, k', me);
  }

  /** thread_exit of a thread that nobody may join. */
  lemma ExitAloneInv(k: Kernel, v: int)
    requires Inv(k) && !k.sched.halted && Me(k.sched).pc == User && Me(k.sched).parent == None
    ensures Inv(Exit(k, v))
  {
    RecordedSynced(k, v);
    LeaveSynced(Recorded(k, v));
    ExitAloneChildren(k, v, Recorded(k, v).sched, Exit(k, v));
  }

  /** thread_exit of a joinable thread: the value is in place, the parent is told,
      and the thread sleeps until it has been read. */
  lemma ExitJoinableInv(k: Kernel, v: int)
    requires Inv(k) && !k.sched.halted && Me(k.sched).pc == User && Me(k.sched).parent.Some?
    ensures Inv(Exit(k, v))
  {
    var me, k1 := k.sched.running, Recorded(k, v);
    assert TiesOk(k, me) && ChildOk(k, me);
    RecordedSynced(k, v);
    VSynced(k1, PSem(me));
    WakeKeepsRunning(k1.sched, SemChan(PSem(me)));
    var k2 := V(k1, PSem(me));
    BlockSynced(k2, CSem(me), ThenExit);
    ExitJoinableChildren(k, v, k1, k2, Exit(k, v));
  }

  lemma ExitJoinableChildren(k: Kernel, v: int, k1: Kernel, k2: Kernel, k': Kernel)
    requires Inv(k) && !k.sched.halted && Me(k.sched).pc == User && Me(k.sched).parent.Some?
    requires Synced(k1) && Synced(k2) && k1.sched == Put(k.sched, k.sched.running, Me(k.sched).(rval := v))
    requires k2.sched == WakeOne(k1.sched, SemChan(PSem(k.sched.running)))
    requires k2.sched.running == k.sched.running && !k2.sched.halted && Me(k2.sched) == Me(k1.sched)
    requires var me := k.sched.running; k'.sched == SleepOn(k2.sched, SemChan(CSem(me)), InP(CSem(me), ThenExit))
    requires k'.unjoined == k.unjoined && k'.joins == k.joins && k'.exits == k.exits[k.sched.running := v]
    requires PSem(k.sched.running) in k.sems && PSem(k.sched.running) in k'.sems
    requires k'.sems[PSem(k.sched.running)].count == k.sems[PSem(k.sched.running)].count + 1
    requires k'.sems == k.sems[PSem(k.sched.running) := k'.sems[PSem(k.sched.running)]]
    ensures Children(k')
  {
    var me := k.sched.running;
    ExitMild(k, Me(k.sched).(rval := v), k');
    SleepState(k2.sched, SemChan(CSem(me)), InP(CSem(me), ThenExit));
    SleepNextTid(k2.sched, SemChan(CSem(me)), InP(CSem(me), ThenExit));
    ExitShapes(k, k1, k2, k');
    ExitedChildren(k, v, k', InP(CSem(me), ThenExit));
  }

  lemma ExitedChildren(k: Kernel, v: int, k': Kernel, pc: Pc)
    requires Inv(k) && !k.sched.halted && Me(k.sched).pc == User && Me(k.sched).parent.Some?
    requires Mild(k.sched, k'.sched, k.sched.running)
    requires pc == InP(CSem(k.sched.running), ThenExit) && k.sched.running in k'.sched.threads
    requires PSem(k.sched.running) in k.sems
    requires k'.sched.threads[k.sched.running] ==
        Me(k.sched).(rval := v, state := Sleep(SemChan(CSem(k.sched.running))), pc := pc)
    requires k'.unjoined == k.unjoined && k'.joins == k.joins && k'.exits == k.exits[k.sched.running := v]
    requires k'.sched.nextTid == k.sched.nextTid
    requires PSem(k.sched.running) in k'.sems
    requires k'.sems[PSem(k.sched.running)].count == k.sems[PSem(k.sched.running)].count + 1
    requires k'.sems == k.sems[PSem(k.sched.running) := k'.sems[PSem(k.sched.running)]]
    requires forall t | t in k'.sched.threads :: Shape(k', t)
    ensures Children(k')
  {
    var me := k.sched.running;
    assert TiesOk(k, me) && ChildOk(k, me);
    ExitChild(k, v, k', pc);
    ExitSameFor(k, v, k');
    ChildrenBut(k, k', me);
  }

  lemma ExitChild(k: Kernel, v: int, k': Kernel, pc: Pc)
    requires var me := k.sched.running; TiesOk(k, me) && ChildOk(k, me) && !Exiting(k.sched, me) && me !in k.exits
    requires pc == InP(CSem(k.sched.running), ThenExit) && k.sched.running in k'.sched.threads
    requires k'.sched.threads[k.sched.running] ==
        Me(k.sched).(rval := v, state := Sleep(SemChan(CSem(k.sched.running))), pc := pc)
    requires k'.unjoined == k.unjoined && k'.joins == k.joins && k'.exits == k.exits[k.sched.running := v]
    requires k.sched.running < k'.sched.nextTid
    requires PSem(k.sched.running) in k'.sems && k'.sems[PSem(k.sched.running)].count == 1
    requires k'.sems == k.sems[PSem(k.sched.running) := k'.sems[PSem(k.sched.running)]]
    ensures ChildOk(k', k.sched.running) && TiesOk(k', k.sched.running)
  {
  }

  lemma ExitSameFor(k: Kernel, v: int, k': Kernel)
    requires PSem(k.sched.running) in k.sems && PSem(k.sched.running) in k'.sems
    requires k'.unjoined == k.unjoined && k'.joins == k.joins && k'.exits == k.exits[k.sched.running := v]
    requires k'.sems == k.sems[PSem(k.sched.running) := k'.sems[PSem(k.sched.running)]]
    ensures forall t | t != k.sched.running :: SameFor(k, k', t)
  {
  }

  lemma ExitMild(k: Kernel, th: Thread, k': Kernel)
    requires Inv(k) && !k.sched.halted && th.state == Me(k.sched).state && th.pc == Me(k.sched).pc
    requires th.hasProc == Me(k.sched).hasProc
    requires var me := k.sched.running;
      k'.sched == SleepOn(WakeOne(Put(k.sched, me, th), SemChan(PSem(me))), SemChan(CSem(me)), InP(CSem(me), ThenExit))
    ensures Mild(k.sched, k'.sched, k.sched.running)
  {
    var me := k.sched.running;
    var s1 := Put(k.sched, me, th);
    PutMild(k.sched, me, th);
    RecordSynced(k, me, th);
    WakeMild(s1, SemChan(PSem(me)), me);
    var s2 := WakeOne(s1, SemChan(PSem(me)));
    WakeSame(s1, SemChan(PSem(me)));
    WakeKeepsRunning(s1, SemChan(PSem(me)));
    SleepMild(s2, SemChan(CSem(me)), InP(CSem(me), ThenExit), me);
    MildTrans(k.sched, s1, s2, me);
    MildTrans(k.sched, s2, k'.sched, me);
  }

  lemma ExitShapes(k: Kernel, k1: Kernel, k2: Kernel, k': Kernel)
    requires Inv(k) && Synced(k1) && !k1.sched.halted && k1.sched.running == k.sched.running
    requires k'.unjoined == k.unjoined
    requires k1.sched.threads.Keys == k.sched.threads.Keys
    requires forall t | t in k.sched.threads :: k1.sched.threads[t].pc == k.sched.threads[t].pc
    requires var me := k.sched.running;
        k2.sched == WakeOne(k1.sched, SemChan(PSem(me))) && k2.sched.running == me && !k2.sched.halted
    requires var me := k.sched.running; k'.sched == SleepOn(k2.sched, SemChan(CSem(me)), InP(CSem(me), ThenExit))
    ensures forall t | t in k'.sched.threads :: Shape(k', t)
  {
    var me := k.sched.running;
    WakeSame(k1.sched, SemChan(PSem(me)));
    SleepPcs(k2.sched, SemChan(CSem(me)), InP(CSem(me), ThenExit));
    forall t | t in k'.sched.threads ensures Shape(k', t) { if t != me { assert Shape(k, t); } }
  }

  // The end of thread_join.

  lemma JoinedState(k: Kernel, c: Tid)
    requires Inv(k) && PSem(c) in k.sems && k.sems[PSem(c)].count > 0
    ensures Exiting(k.sched, c) && c in k.unjoined && k.unjoined[c] != c && CSem(c) in k.sems
    ensures k.sems[PSem(c)].count == 1 && k.sems[CSem(c)].count == 0
    ensures k.sched.threads[c].state == Sleep(SemChan(CSem(c)))
    ensures c in k.exits && k.sched.threads[c].rval == k.exits[c]
    ensures Queue(k.sched, SemChan(CSem(c))) != [] && Queue(k.sched, SemChan(CSem(c)))[0] == c
  {
    assert ChildOk(k, c) && TiesOk(k, c);
    assert InPlace(k.sched, c);
    var q := Queue(k.sched, SemChan(CSem(c)));
    assert ListOk(k.sched, q, Sleep(SemChan(CSem(c))));
    assert q[0] in q;
    OnlyWaiter(k, c, q[0]);
  }

  lemma FinishJoinSynced(k: Kernel, c: Tid)
    requires Inv(k) && !k.sched.halted && PSem(c) in k.sems && k.sems[PSem(c)].count > 0
    requires Me(k.sched).pc in {User, InP(PSem(c), ThenJoin(c))}
    ensures var k' := FinishJoin(Take(k, PSem(c)), c); Synced(k') && !k'.fault
  {
    JoinedState(k, c);
    TakeSynced(k, PSem(c));
    var k1 := Take(k, PSem(c));
    VSynced(k1, CSem(c));
    var k2 := V(k1, CSem(c));
    assert k2.sched.threads[c].state == Ready;
    var th := k2.sched.threads[c].(parent := None);
    RecordSynced(k2, c, th);
    SameObjects(k2.(sched := Put(k2.sched, c, th)), FinishJoin(k1, c));
  }

  lemma FinishJoinMild(k: Kernel, c: Tid)
    requires Inv(k) && !k.sched.halted && PSem(c) in k.sems && k.sems[PSem(c)].count > 0 && CSem(c) in k.sems
    requires Me(k.sched).pc in {User, InP(PSem(c), ThenJoin(c))}
    ensures Mild(k.sched, FinishJoin(Take(k, PSem(c)), c).sched, c)
  {
    var s1 := SetPc(k.sched, User);
    PcMild(k.sched, User, c);
    assert Conserved(s1) && Waiters(s1) by { TakeSynced(k, PSem(c)); }
    WakeMild(s1, SemChan(CSem(c)), c);
    var s2 := WakeOne(s1, SemChan(CSem(c)));
    PutMild(s2, c, Get(s2, c).(parent := None));
    MildTrans(k.sched, s1, s2, c);
    MildTrans(k.sched, s2, Put(s2, c, Get(s2, c).(parent := None)), c);
  }

  lemma FinishJoinInv(k: Kernel, c: Tid)
    requires Inv(k) && !k.sched.halted && PSem(c) in k.sems && k.sems[PSem(c)].count > 0
    requires c in k.unjoined && k.unjoined[c] == k.sched.running
    requires Me(k.sched).pc in {User, InP(PSem(c), ThenJoin(c))}
    ensures Inv(FinishJoin(Take(k, PSem(c)), c))
    ensures c in k.exits && FinishJoin(Take(k, PSem(c)), c).joins[c] == k.exits[c]
  {
    var k' := FinishJoin(Take(k, PSem(c)), c);
    JoinedState(k, c);
    FinishJoinSynced(k, c);
    FinishJoinMild(k, c);
    FinishJoinThreads(k, c);
    FinishJoinChild(k, c, k');
    ChildrenBut(k, k', c);
  }

  lemma FinishJoinChild(k: Kernel, c: Tid, k': Kernel)
    requires Inv(k) && PSem(c) in k.sems && k.sems[PSem(c)].count > 0
    requires c in k.unjoined && k.unjoined[c] == k.sched.running
    requires Me(k.sched).pc in {User, InP(PSem(c), ThenJoin(c))} && c in k.sched.threads
    requires k'.sched.threads ==
        k.sched.threads[k.sched.running := Me(k.sched).(pc := User)][c := k.sched.threads[c].(state := Ready,
        parent := None)]
    requires k'.unjoined == k.unjoined - {c} && k'.joins == k.joins[c := k.sched.threads[c].rval] && k'.exits == k.exits
    requires k'.sched.nextTid == k.sched.nextTid && PSem(c) in k'.sems && CSem(c) in k'.sems
    requires k'.sems == k.sems[PSem(c) := k'.sems[PSem(c)]][CSem(c) := k'.sems[CSem(c)]]
    requires k'.sems[PSem(c)].count == 0 && k'.sems[CSem(c)].count == 1
    ensures ChildOk(k', c) && TiesOk(k', c)
    ensures forall t | t != c :: SameFor(k, k', t)
    ensures forall t | t in k'.sched.threads :: Shape(k', t)
  {
    JoinedState(k, c);
    assert TiesOk(k, c);
    forall t | t in k'.sched.threads ensures Shape(k', t) { assert Shape(k, t); }
  }

  lemma FinishJoinThreads(k: Kernel, c: Tid)
    requires Inv(k) && !k.sched.halted && PSem(c) in k.sems && k.sems[PSem(c)].count > 0 && CSem(c) in k.sems
    requires c in k.sched.threads
    requires c != k.sched.running && Queue(k.sched, SemChan(CSem(c))) != [] && Queue(k.sched, SemChan(CSem(c)))[0] == c
    ensures var k' := FinishJoin(Take(k, PSem(c)), c);
      && k'.sched.threads ==
          k.sched.threads[k.sched.running := Me(k.sched).(pc := User)][c := k.sched.threads[c].(state := Ready,
          parent := None)]
      && k'.joins == k.joins[c := k.sched.threads[c].rval]
  {
  }

  // The end of thread_exit.

  lemma DropSems(k: Kernel, c: Tid)
    requires Synced(k)
    requires forall t | t in k.sched.threads && k.sched.threads[t].pc.InP? ::
        k.sched.threads[t].pc.s !in {PSem(c), CSem(c)}
    ensures Synced(k.(sems := k.sems - {PSem(c), CSem(c)}))
  {
    var k' := k.(sems := k.sems - {PSem(c), CSem(c)});
    ObjectsSame(k, k', CvChan(0));
  }

  lemma FinishExitSynced(k: Kernel)
    requires Inv(k) && !k.sched.halted && Exiting(k.sched, k.sched.running)
    requires var me := k.sched.running; CSem(me) in k.sems && k.sems[CSem(me)].count > 0 && me !in k.unjoined
    ensures var k' := FinishExit(Take(k, CSem(k.sched.running))); Synced(k') && !k'.fault
  {
    var me := k.sched.running;
    TakeSynced(k, CSem(me));
    var k1 := Take(k, CSem(me));
    Deserted(k, me);
    forall t | t in k1.sched.threads && k1.sched.threads[t].pc.InP?
      ensures k1.sched.threads[t].pc.s !in {PSem(me), CSem(me)}
    {
      OnlyWaiter(k, me, t);
    }
    DropSems(k1, me);
    var k2 := k1.(sems := k1.sems - {PSem(me), CSem(me)});
    var th := Me(k1.sched).(parent := None);
    RecordSynced(k2, me, th);
    LeaveSynced(k2.(sched := Put(k2.sched, me, th)));
  }

  lemma FinishExitInv(k: Kernel)
    requires Inv(k) && !k.sched.halted && Exiting(k.sched, k.sched.running)
    requires var me := k.sched.running; CSem(me) in k.sems && k.sems[CSem(me)].count > 0 && me !in k.unjoined
    ensures Inv(FinishExit(Take(k, CSem(k.sched.running))))
  {
    FinishExitSynced(k);
    FinishExitRecords(k);
    FinishExitThreads(k);
    FinishExitChildren(k, FinishExit(Take(k, CSem(k.sched.running))), k.sched.running);
  }

  lemma FinishExitRecords(k: Kernel)
    requires CSem(k.sched.running) in k.sems && k.sems[CSem(k.sched.running)].count > 0
    ensures var me, s1 := k.sched.running, SetPc(k.sched, User); var k' := FinishExit(Take(k, CSem(me)));
      && k'.sems == k.sems - {PSem(me), CSem(me)} && k'.sched == Leave(Put(s1, me, Me(s1).(parent := None)))
      && k'.unjoined == k.unjoined && k'.exits == k.exits && k'.joins == k.joins
  {
  }

  lemma FinishExitChildren(k: Kernel, k': Kernel, me: Tid)
    requires Inv(k) && me in k.sched.threads && me !in k.unjoined && Mild(k.sched, k'.sched, me)
    requires k'.sems == k.sems - {PSem(me), CSem(me)} && k'.unjoined == k.unjoined && k'.exits == k.exits
    requires k'.joins == k.joins
    requires k'.sched.nextTid == k.sched.nextTid && me in k'.sched.threads
    requires k'.sched.threads[me].state == Zombie && k'.sched.threads[me].pc == User
    requires k'.sched.threads[me].parent == None
    requires forall t | t in k'.sched.threads && t != me ::
        t in k.sched.threads && k'.sched.threads[t].pc == k.sched.threads[t].pc
    ensures Children(k')
  {
    assert TiesOk(k, me);
    assert TiesOk(k', me);
    forall t | t != me ensures SameFor(k, k', t) {}
    forall t | t in k'.sched.threads ensures Shape(k', t) { assert Shape(k, t); }
    ChildrenBut(k, k', me);
  }

  lemma FinishExitThreads(k: Kernel)
    requires Synced(k) && !k.sched.halted
    ensures var me := k.sched.running;
      var s2 := Put(SetPc(k.sched, User), me, Me(SetPc(k.sched, User)).(parent := None));
      var s' := Leave(s2);
      && Mild(k.sched, s', me) && s'.nextTid == k.sched.nextTid
      && me in s'.threads && s'.threads[me].state == Zombie && s'.threads[me].pc == User
          && s'.threads[me].parent == None
      && forall t | t in s'.threads && t != me :: t in k.sched.threads && s'.threads[t].pc == k.sched.threads[t].pc
  {
    var me := k.sched.running;
    var s1 := SetPc(k.sched, User);
    var th := Me(s1).(parent := None);
    var s2 := Put(s1, me, th);
    PcMild(k.sched, User, me);
    SetPcConserves(k.sched, User);
    SetPcWoken(k.sched, User, CvChan(0));
    PutMild(s1, me, th);
    RecordWaits(s1, me, th);
    LeaveMild(s2);
    MildTrans(k.sched, s1, s2, me);
    MildTrans(k.sched, s2, Leave(s2), me);
    LeaveState(s2);
    LeavePcs(s2);
  }

  // ---------------------------------------------------------------- every run

  lemma TryPInv(k: Kernel, s: Sem, after: After)
    requires Inv(k) && !k.sched.halted && Me(k.sched).pc == InP(s, after)
    ensures Inv(TryP(k, s, after))
  {
    var me := k.sched.running;
    assert Shape(k, me);
    match after {
      case Return => PInv(k, s.id);
      case ThenJoin(c) => JoinInv(k, c);
      case ThenExit =>
        assert TiesOk(k, me) && ChildOk(k, me);
        FinishExitInv(k);
    }
  }

  lemma JoinInv(k: Kernel, c: Tid)
    requires Inv(k) && !k.sched.halted && c in k.unjoined && k.unjoined[c] == k.sched.running
    requires Me(k.sched).pc in {User, InP(PSem(c), ThenJoin(c))}
    ensures Inv(TryP(k, PSem(c), ThenJoin(c)))
  {
    assert TiesOk(k, c);
    if k.sems[PSem(c)].count == 0 {
      SleepInv(k, PSem(c), ThenJoin(c));
    } else {
      FinishJoinInv(k, c);
    }
  }

  lemma DoJoinInv(k: Kernel, c: Tid)
    requires Inv(k) && !k.sched.halted && c in k.unjoined && k.unjoined[c] == k.sched.running && Me(k.sched).pc == User
    ensures Inv(Join(k, c))
  {
    assert TiesOk(k, c);
    assert ChildOk(k, c);
    JoinInv(k, c);
  }

  lemma GoOnInv(k: Kernel)
    requires Inv(k) && !k.sched.halted
    ensures Inv(GoOn(k))
  {
    assert k.sched.running in k.sched.threads && PcOk(k, k.sched.threads[k.sched.running].pc);
    match Me(k.sched).pc {
      case Starting => StartInv(k);
      case InP(s, after) => TryPInv(k, s, after);
      case InAcquire(l) => AcquireInv(k, l);
      case InCv(_, l) => AcquireInv(k, l);
      case Reacquiring(l) => AcquireInv(k, l);
      case User =>
    }
  }

  lemma ExitInv(k: Kernel, v: int)
    requires Inv(k) && !k.sched.halted && Me(k.sched).pc == User
    ensures Inv(Exit(k, v))
    ensures Get(Exit(k, v).sched, k.sched.running).rval == v
  {
    if Me(k.sched).parent.Some? {
      ExitJoinableInv(k, v);
      assert TiesOk(k, k.sched.running) && ChildOk(k, k.sched.running);
      ExitValue(k, v, Recorded(k, v).sched);
    } else {
      ExitAloneInv(k, v);
      RecordedSynced(k, v);
      LeaveState(Recorded(k, v).sched);
    }
  }

  lemma ExitValue(k: Kernel, v: int, s1: Sched)
    requires Synced(k) && !k.sched.halted && s1 == Put(k.sched, k.sched.running, Me(k.sched).(rval := v))
    requires PSem(k.sched.running) in k.sems && CSem(k.sched.running) in k.sems
    requires k.sems[CSem(k.sched.running)].count == 0 && Me(k.sched).parent.Some?
    ensures Get(Exit(k, v).sched, k.sched.running).rval == v
  {
    var me := k.sched.running;
    SameListsConserve(k.sched, s1);
    WakeConserves(s1, SemChan(PSem(me)));
    WakeKeepsRunning(s1, SemChan(PSem(me)));
    SleepState(WakeOne(s1, SemChan(PSem(me))), SemChan(CSem(me)), InP(CSem(me), ThenExit));
  }

  lemma NewInv(k: Kernel, a: Action)
    requires Inv(k) && Enabled(k, a) && (a.NewSem? || a.NewLock?)
    ensures Inv(Step(k, a))
  {
    if a.NewSem? { NewSemSynced(k, UserSem(a.s), a.n); } else { NewLockSynced(k, a.l); }
    SelfMild(k.sched);
    Quiet(k, Step(k, a));
  }

  /** Every step of a running kernel keeps the invariant; in particular no source
      assertion fails and no destroyed object is used. */
  lemma StepInv(k: Kernel, a: Action)
    requires Inv(k) && Enabled(k, a)
    ensures Inv(Step(k, a))
  {
    match a {
      case DoYield => YieldInv(k);
      case Continue => GoOnInv(k);
      case DoP(s) => PInv(k, s);
      case DoV(s) => VInv(k, s);
      case DoAcquire(l) => AcquireInv(k, l);
      case DoRelease(l) => ReleaseInv(k, l);
      case DoWait(cv, l) => CvWaitInv(k, cv, l);
      case DoSignal(cv, l) => CvSignalInv(k, cv, l);
      case DoBroadcast(cv, l) => CvBroadcastInv(k, cv, l);
      case DoFork(joinable) => ForkInv(k, joinable);
      case DoJoin(c) => DoJoinInv(k, c);
      case DoExit(v) => ExitInv(k, v);
      case NewSem(_, _) => NewInv(k, a);
      case NewLock(_) => NewInv(k, a);
    }
  }

  lemma BootInv()
    ensures Inv(Boot())
  {
    var k := Boot();
    assert InPlace(k.sched, 0);
    forall t | t in k.sched.threads ensures Shape(k, t) {}
    forall t ensures TiesOk(k, t) {}
  }

  lemma {:induction false} RunInv(k: Kernel, actions: seq<Action>, k': Kernel)
    requires Inv(k) && Runs(k, actions, k')
    ensures Inv(k')
    decreases |actions|
  {
    if actions != [] {
      StepInv(k, actions[0]);
      RunInv(Step(k, actions[0]), actions[1..], k');
    }
  }

  // --------------------------------------------------------- what it comes to

  /** Once the semaphores of c are destroyed, nobody sleeps on them, nobody is
      inside P on them, and nobody may still call P or V on them. */
  lemma DestroyedForGood(k: Kernel, c: Tid)
    requires Inv(k) && PSem(c) !in k.sems
    ensures CSem(c) !in k.sems && c !in k.unjoined
    ensures Queue(k.sched, SemChan(PSem(c))) == [] && Queue(k.sched, SemChan(CSem(c))) == []
    ensures forall t | t in k.sched.threads && k.sched.threads[t].pc.InP? ::
        k.sched.threads[t].pc.s !in {PSem(c), CSem(c)}
    ensures c in k.sched.threads ==> k.sched.threads[c].parent == None
  {
    assert TiesOk(k, c);
    NobodySleeps(k, SemChan(PSem(c)));
    NobodySleeps(k, SemChan(CSem(c)));
  }
}
