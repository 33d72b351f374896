/**
 Semaphores and sleep locks: counts are conserved, at most one owner, and no
 wakeup is lost, whoever barges in.
 */
module Synch {
  import opened Basics
  import opened Scheduler
  import opened Wakeups
  import opened Kernel

  /** While anyone sleeps at least sem_count woken threads have yet to test again. */
  ghost predicate SemOk(k: Kernel, s: Sem)
    requires s in k.sems
  {
    Queue(k.sched, SemChan(s)) != [] ==> k.sems[s].count <= |Woken(k.sched, SemChan(s))|
  }

  /** lk_count is positive exactly when there is an owner, and a free lock with sleepers
      has a woken waiter that has yet to test again. */
  ghost predicate LockOk(k: Kernel, l: nat)
    requires l in k.locks
  {
    var lock := k.locks[l];
    && (lock.owner.Some? <==> lock.count > 0)
    && (lock.owner.None? && Queue(k.sched, LockChan(l)) != [] ==> Woken(k.sched, LockChan(l)) != {})
  }

  /** A thread inside a primitive is at an object that exists. */
  predicate PcOk(k: Kernel, pc: Pc) {
    match pc
    case InP(s, _) => s in k.sems
    case InAcquire(l) => l in k.locks
    case InCv(_, l) => l in k.locks
    case Reacquiring(l) => l in k.locks
    case Starting => true
    case User => true
  }

  ghost predicate Synced(k: Kernel) { Conserved(k.sched) && Waiters(k.sched) && Objects(k) }

  ghost predicate Objects(k: Kernel)
  {
    && (forall t | t in k.sched.threads :: PcOk(k, k.sched.threads[t].pc))
    && (forall s {:trigger SemOk(k, s)} | s in k.sems :: SemOk(k, s))
    && (forall l {:trigger LockOk(k, l)} | l in k.locks :: LockOk(k, l))
  }

  /** Channel ch apart, the same threads sleep, and the same have to test again, on
      every semaphore and lock. */
  ghost predicate SameWaits(s: Sched, s': Sched, ch: Chan)
  {
    forall x: Chan {:trigger Queue(s', x)} {:trigger Woken(s', x)} | !x.CvChan? && x != ch ::
      Queue(s', x) == Queue(s, x) && Woken(s', x) == Woken(s, x)
  }

  /** Everything but the object of channel ch is as it was. */
  lemma ObjectsSame(k: Kernel, k': Kernel, ch: Chan)
    requires Objects(k) && SameWaits(k.sched, k'.sched, ch)
    requires forall t | t in k'.sched.threads :: PcOk(k', k'.sched.threads[t].pc)
    requires forall s | s in k'.sems && ch != SemChan(s) :: s in k.sems && k'.sems[s] == k.sems[s]
    requires forall l | l in k'.locks && ch != LockChan(l) :: l in k.locks && k'.locks[l] == k.locks[l]
    requires ch.SemChan? && ch.s in k'.sems ==> SemOk(k', ch.s)
    requires ch.LockChan? && ch.l in k'.locks ==> LockOk(k', ch.l)
    ensures Objects(k')
  {
    forall s | s in k'.sems ensures SemOk(k', s) { if ch != SemChan(s) { assert SemOk(k, s); } }
    forall l | l in k'.locks ensures LockOk(k', l) { if ch != LockChan(l) { assert LockOk(k, l); } }
  }

  lemma WakeSame(s: Sched, ch: Chan)
    requires Conserved(s) && Waiters(s)
    ensures Conserved(WakeOne(s, ch)) && Waiters(WakeOne(s, ch)) && SameWaits(s, WakeOne(s, ch), ch)
    ensures Woken(s, ch) <= Woken(WakeOne(s, ch), ch)
    ensures Queue(s, ch) == [] ==> Queue(WakeOne(s, ch), ch) == []
    ensures Queue(s, ch) != [] ==> |Woken(WakeOne(s, ch), ch)| == |Woken(s, ch)| + 1
    ensures WakeOne(s, ch).threads.Keys == s.threads.Keys
    ensures forall t | t in s.threads :: WakeOne(s, ch).threads[t].pc == s.threads[t].pc
  {
    WakeConserves(s, ch);
    WakeWoken(s, ch, ch);
    forall x: Chan | !x.CvChan? && x != ch
      ensures Queue(WakeOne(s, ch), x) == Queue(s, x) && Woken(WakeOne(s, ch), x) == Woken(s, x)
    {
      WakeWoken(s, ch, x);
    }
    if Queue(s, ch) != [] {
      assert ListOk(s, Queue(s, ch), Sleep(ch));
      assert Queue(s, ch)[0] in Queue(s, ch);
    }
  }

  lemma SleepSame(s: Sched, ch: Chan, pc: Pc)
    requires Conserved(s) && !s.halted && Waiters(s) && WaitsOn(ch, pc)
    requires forall x: Chan | !x.CvChan? && WaitsOn(x, Me(s).pc) :: x == ch
    ensures var s' := SleepOn(s, ch, pc);
      && Conserved(s') && Waiters(s') && SameWaits(s, s', ch)
      && s'.threads.Keys == s.threads.Keys && s'.threads[s.running].pc == pc
      && forall t | t in s.threads && t != s.running :: s'.threads[t].pc == s.threads[t].pc
  {
    var s' := SleepOn(s, ch, pc);
    SleepConserves(s, ch, pc);
    SleepWoken(s, ch, pc, ch);
    forall x: Chan | !x.CvChan? && x != ch ensures Queue(s', x) == Queue(s, x) && Woken(s', x) == Woken(s, x) {
      SleepWoken(s, ch, pc, x);
    }
    SleepPcs(s, ch, pc);
  }

  lemma SleepPcs(s: Sched, ch: Chan, pc: Pc)
    requires Conserved(s) && !s.halted
    ensures var s' := SleepOn(s, ch, pc);
      && s'.threads.Keys == s.threads.Keys && s'.threads[s.running].pc == pc
      && forall t | t in s.threads && t != s.running :: s'.threads[t].pc == s.threads[t].pc
  {
    var s1 := Park(s, ch, pc);
    if s1.ready != [] { assert s1.ready[0] in s.ready; }
  }

  lemma PcSame(s: Sched, ch: Chan, pc: Pc)
    requires Conserved(s) && !s.halted && Waiters(s)
    requires forall x: Chan | !x.CvChan? && (WaitsOn(x, Me(s).pc) || WaitsOn(x, pc)) :: x == ch
    ensures var s' := SetPc(s, pc);
      && Conserved(s') && Waiters(s') && SameWaits(s, s', ch)
      && Queue(s', ch) == Queue(s, ch) && Woken(s', ch) >= Woken(s, ch) - {s.running}
      && |Woken(s', ch)| >= |Woken(s, ch)| - 1
      && (WaitsOn(ch, pc) ==> s.running in Woken(s', ch))
  {
    var s' := SetPc(s, pc);
    SetPcConserves(s, pc);
    SetPcWoken(s, pc, ch);
    forall x: Chan | !x.CvChan? && x != ch ensures Queue(s', x) == Queue(s, x) && Woken(s', x) == Woken(s, x) {
      SetPcWoken(s, pc, x);
    }
    Cardinality(Woken(s, ch), Woken(s', ch), s.running);
  }

  lemma Cardinality(a: set<Tid>, b: set<Tid>, t: Tid)
    requires a - {t} <= b
    ensures |b| >= |a| - 1
  {
    Subset(a - {t}, b);
  }

  lemma {:induction false} Subset(a: set<Tid>, b: set<Tid>)
    requires a <= b
    ensures |a| <= |b|
  {
    if a != {} {
      var t :| t in a;
      Subset(a - {t}, b - {t});
    }
  }

  // -------------------------------------------------------------- semaphores

  /** The thread that has slept longest on the channel is ready, and only that one. */
  ghost predicate WokeFirst(s: Sched, s': Sched, ch: Chan) {
    var q := Queue(s, ch);
    if q == [] then Queue(s', ch) == [] && s'.ready == s.ready
    else q == [q[0]] + Queue(s', ch) && s'.ready == s.ready + [q[0]]
  }

  lemma VSynced(k: Kernel, s: Sem)
    requires Synced(k) && s in k.sems
    ensures Synced(V(k, s)) && WokeFirst(k.sched, V(k, s).sched, SemChan(s))
  {
    WakeConserves(k.sched, SemChan(s));
    WakeSame(k.sched, SemChan(s));
    assert SemOk(k, s);
    VDone(k, V(k, s), s);
  }

  lemma VDone(k: Kernel, k': Kernel, s: Sem)
    requires Synced(k) && s in k.sems && s in k'.sems && SemOk(k', s) && k'.locks == k.locks
    requires k'.sched == WakeOne(k.sched, SemChan(s)) && k'.sems == k.sems[s := k'.sems[s]]
    ensures Synced(k')
  {
    WakeSame(k.sched, SemChan(s));
    forall t | t in k'.sched.threads ensures PcOk(k', k'.sched.threads[t].pc) {
      assert PcOk(k, k.sched.threads[t].pc);
    }
    ObjectsSame(k, k', SemChan(s));
  }

  lemma TakeSynced(k: Kernel, s: Sem)
    requires Synced(k) && !k.sched.halted && s in k.sems && k.sems[s].count > 0
    requires Me(k.sched).pc == User || (Me(k.sched).pc.InP? && Me(k.sched).pc.s == s)
    ensures Synced(Take(k, s)) && Take(k, s).sems[s].count + 1 == k.sems[s].count
  {
    var k' := Take(k, s);
    PcSame(k.sched, SemChan(s), User);
    assert SemOk(k', s) by { assert SemOk(k, s); }
    ObjectsSame(k, k', SemChan(s));
  }

  lemma BlockSynced(k: Kernel, s: Sem, after: After)
    requires Synced(k) && !k.sched.halted && s in k.sems && k.sems[s].count == 0
    requires Me(k.sched).pc == User || (Me(k.sched).pc.InP? && Me(k.sched).pc.s == s)
    ensures Synced(k.(sched := SleepOn(k.sched, SemChan(s), InP(s, after))))
  {
    var k' := k.(sched := SleepOn(k.sched, SemChan(s), InP(s, after)));
    SleepSame(k.sched, SemChan(s), InP(s, after));
    assert SemOk(k', s) by { assert SemOk(k, s); }
    ObjectsSame(k, k', SemChan(s));
  }

  // ------------------------------------------------------------- sleep locks

  predicate MayAcquire(pc: Pc, l: nat) { pc in {User, InAcquire(l), Reacquiring(l)} || (pc.InCv? && pc.l == l) }

  lemma AcquireSynced(k: Kernel, l: nat)
    requires Synced(k) && !k.sched.halted && l in k.locks && MayAcquire(Me(k.sched).pc, l)
    ensures Synced(TryAcquire(k, l)) && TryAcquire(k, l).fault == k.fault
  {
    assert LockOk(k, l);
    if k.locks[l].owner != Some(k.sched.running) && k.locks[l].count > 0 {
      AcquireBlocks(k, l);
    } else {
      AcquireTakes(k, l);
    }
  }

  lemma AcquireBlocks(k: Kernel, l: nat)
    requires Synced(k) && !k.sched.halted && l in k.locks && MayAcquire(Me(k.sched).pc, l) && k.locks[l].count > 0
    ensures Synced(k.(sched := SleepOn(k.sched, LockChan(l), InAcquire(l))))
  {
    var k' := k.(sched := SleepOn(k.sched, LockChan(l), InAcquire(l)));
    SleepSame(k.sched, LockChan(l), InAcquire(l));
    assert LockOk(k', l) by { assert LockOk(k, l); }
    ObjectsSame(k, k', LockChan(l));
  }

  lemma AcquireTakes(k: Kernel, l: nat)
    requires Synced(k) && !k.sched.halted && l in k.locks && MayAcquire(Me(k.sched).pc, l)
    requires k.locks[l].owner == Some(k.sched.running) || k.locks[l].count == 0
    ensures Synced(TryAcquire(k, l)) && TryAcquire(k, l).fault == k.fault
  {
    assert LockOk(k, l);
    var k' := TryAcquire(k, l);
    PcSame(k.sched, LockChan(l), User);
assert LockOk(k', l);
    ObjectsSame(k, k', LockChan(l));
  }

  lemma ReleaseSynced(k: Kernel, l: nat)
    requires Synced(k) && Owns(k, l)
    ensures Synced(Release(k, l)) && Release(k, l).fault == k.fault
    ensures if k.locks[l].count == 1 then WokeFirst(k.sched, Release(k, l).sched, LockChan(l))
            else Release(k, l).sched == k.sched
  {
    assert LockOk(k, l);
    if k.locks[l].count == 1 {
      ReleaseLast(k, l);
      WakeConserves(k.sched, LockChan(l));
    } else {
      var k' := Release(k, l);
      assert LockOk(k', l);
      ObjectsSame(k, k', LockChan(l));
    }
  }

  lemma ReleaseLast(k: Kernel, l: nat)
    requires Synced(k) && Owns(k, l) && k.locks[l].count == 1
    ensures Synced(Release(k, l))
  {
    WakeSame(k.sched, LockChan(l));
    ReleasedTo(k, l, WakeOne(k.sched, LockChan(l)), Release(k, l));
  }

  lemma ReleasedTo(k: Kernel, l: nat, s': Sched, k': Kernel)
    requires Objects(k) && Owns(k, l) && k.locks[l].count == 1 && SameWaits(k.sched, s', LockChan(l))
    requires s'.threads.Keys == k.sched.threads.Keys
    requires forall t | t in s'.threads :: s'.threads[t].pc == k.sched.threads[t].pc
    requires Queue(k.sched, LockChan(l)) == [] ==> Queue(s', LockChan(l)) == []
    requires Queue(k.sched, LockChan(l)) != [] ==> |Woken(s', LockChan(l))| > 0
    requires k' == k.(locks := k.locks[l := Lock(None, 0)], sched := s')
    ensures Objects(k')
  {
    assert LockOk(k, l);
    ReleasedLock(k, l, s', k');
    ObjectsSame(k, k', LockChan(l));
  }

  lemma ReleasedLock(k: Kernel, l: nat, s': Sched, k': Kernel)
    requires Owns(k, l) && LockOk(k, l) && k.locks[l].count == 1
    requires Queue(s', LockChan(l)) != [] ==> |Woken(s', LockChan(l))| > 0
    requires k' == k.(locks := k.locks[l := Lock(None, 0)], sched := s')
    ensures LockOk(k', l)
  {
  }

  // ------------------------------------------- condition variables, scheduling

  lemma ReleaseKeeps(k: Kernel, l: nat)
    requires Conserved(k.sched) && !k.sched.halted
    ensures Release(k, l).sched.running == k.sched.running && !Release(k, l).sched.halted
    ensures Me(Release(k, l).sched) == Me(k.sched)
  {
    WakeKeepsRunning(k.sched, LockChan(l));
  }

  lemma WakeKeepsRunning(s: Sched, ch: Chan)
    requires Conserved(s) && !s.halted
    ensures WakeOne(s, ch).running == s.running && !WakeOne(s, ch).halted && Me(WakeOne(s, ch)) == Me(s)
  {
    if Queue(s, ch) != [] {
      assert ListOk(s, Queue(s, ch), Sleep(ch));
      assert Queue(s, ch)[0] in Queue(s, ch);
    }
  }

  lemma {:induction false} WakeAllSame(s: Sched, ch: Chan)
    requires Conserved(s) && !s.halted && Waiters(s) && ch.CvChan?
    ensures var s' := WakeAll(s, ch);
      && Conserved(s') && Waiters(s') && SameWaits(s, s', ch)
      && s'.running == s.running && !s'.halted && Me(s') == Me(s)
      && s'.threads.Keys == s.threads.Keys && forall t | t in s.threads :: s'.threads[t].pc == s.threads[t].pc
    decreases |Queue(s, ch)|
  {
    if Queue(s, ch) != [] {
      WakeSame(s, ch);
      WakeKeepsRunning(s, ch);
      var s1 := WakeOne(s, ch);
      WakeAllSame(s1, ch);
      forall x: Chan | !x.CvChan? && x != ch
          ensures Queue(WakeAll(s1, ch), x) == Queue(s, x) && Woken(WakeAll(s1, ch), x) == Woken(s, x) {
        assert Queue(s1, x) == Queue(s, x) && Woken(s1, x) == Woken(s, x);
      }
    }
  }

  lemma CvWaitSynced(k: Kernel, cv: nat, l: nat)
    requires Synced(k) && !k.sched.halted && Owns(k, l) && Me(k.sched).pc == User
    ensures Synced(CvWait(k, cv, l)) && CvWait(k, cv, l).fault == k.fault
  {
    ReleaseSynced(k, l);
    ReleaseKeeps(k, l);
    CvSleepSynced(Release(k, l), cv, l);
  }

  lemma CvSleepSynced(k: Kernel, cv: nat, l: nat)
    requires Synced(k) && !k.sched.halted && l in k.locks && Me(k.sched).pc == User
    ensures Synced(k.(sched := SleepOn(k.sched, CvChan(cv), InCv(cv, l))))
  {
    SleepSame(k.sched, CvChan(cv), InCv(cv, l));
    ObjectsSame(k, k.(sched := SleepOn(k.sched, CvChan(cv), InCv(cv, l))), CvChan(cv));
  }

  /** After a wakeup on a condition variable the caller has to reacquire l. */
  lemma ReacquireSynced(k: Kernel, s: Sched, cv: nat, l: nat)
    requires Synced(k) && !k.sched.halted && l in k.locks && Me(k.sched).pc == User
    requires Conserved(s) && Waiters(s) && SameWaits(k.sched, s, CvChan(cv)) && s.running == k.sched.running
    requires !s.halted && Me(s) == Me(k.sched)
    requires s.threads.Keys == k.sched.threads.Keys
    requires forall t | t in s.threads :: s.threads[t].pc == k.sched.threads[t].pc
    ensures Synced(k.(sched := SetPc(s, Reacquiring(l))))
  {
    var k1 := k.(sched := s);
    ObjectsSame(k, k1, CvChan(cv));
    RetestSynced(k1, l);
  }

  lemma RetestSynced(k: Kernel, l: nat)
    requires Synced(k) && !k.sched.halted && l in k.locks && Me(k.sched).pc == User
    ensures Synced(k.(sched := SetPc(k.sched, Reacquiring(l))))
  {
    var k' := k.(sched := SetPc(k.sched, Reacquiring(l)));
    PcSame(k.sched, LockChan(l), Reacquiring(l));
    assert LockOk(k', l) by { assert LockOk(k, l); }
    ObjectsSame(k, k', LockChan(l));
  }

  /** The run queue after lock_release: one waiter more, if the lock has become free. */
  function Freed(k: Kernel, l: nat): seq<Tid>
    requires l in k.locks
  {
    var q := Queue(k.sched, LockChan(l));
    k.sched.ready + if k.locks[l].count == 1 && q != [] then [q[0]] else []
  }

  lemma ReleaseFrees(k: Kernel, l: nat)
    requires Synced(k) && Owns(k, l)
    ensures Release(k, l).sched.ready == Freed(k, l)
    ensures forall cv :: Queue(Release(k, l).sched, CvChan(cv)) == Queue(k.sched, CvChan(cv))
  {
    assert LockOk(k, l);
    FirstReady(k.sched, LockChan(l));
  }

  lemma FirstReady(s: Sched, ch: Chan)
    ensures WakeOne(s, ch).ready == s.ready + (if Queue(s, ch) != [] then [Queue(s, ch)[0]] else [])
    ensures forall x | x != ch :: Queue(WakeOne(s, ch), x) == Queue(s, x)
  {
  }

  /** cv_wait puts the caller behind the other sleepers of the channel. */
  lemma CvWaitSleeps(k: Kernel, cv: nat, l: nat)
    requires Synced(k) && !k.sched.halted && Owns(k, l) && Me(k.sched).pc == User
    ensures var s', ready := CvWait(k, cv, l).sched, Freed(k, l);
      && Queue(s', CvChan(cv)) == Queue(k.sched, CvChan(cv)) + [k.sched.running]
      && if ready == [] then s'.halted else s'.running == ready[0] && s'.ready == ready[1..]
  {
    ReleaseSynced(k, l);
    ReleaseKeeps(k, l);
    ReleaseFrees(k, l);
    SleepConserves(Release(k, l).sched, CvChan(cv), InCv(cv, l));
  }

  /** cv_signal makes the longest sleeper of the channel ready, and only that one. */
  lemma CvSignalWakes(k: Kernel, cv: nat, l: nat)
    requires Synced(k) && !k.sched.halted && Owns(k, l) && Me(k.sched).pc == User
    ensures var s', q := CvSignal(k, cv, l).sched, Queue(k.sched, CvChan(cv));
      if q == [] then Queue(s', CvChan(cv)) == [] && s'.ready == Freed(k, l)
      else q == [q[0]] + Queue(s', CvChan(cv)) && s'.ready == Freed(k, l) + [q[0]] && Get(s', q[0]).state == Ready
  {
    ReleaseSynced(k, l);
    ReleaseKeeps(k, l);
    ReleaseFrees(k, l);
    FirstWoken(Release(k, l).sched, CvChan(cv), Reacquiring(l));
  }

  lemma FirstWoken(s: Sched, ch: Chan, pc: Pc)
    requires Conserved(s) && !s.halted
    ensures var s', q := SetPc(WakeOne(s, ch), pc), Queue(s, ch);
      if q == [] then Queue(s', ch) == [] && s'.ready == s.ready
      else q == [q[0]] + Queue(s', ch) && s'.ready == s.ready + [q[0]] && Get(s', q[0]).state == Ready
  {
    WakeConserves(s, ch);
    assert ListOk(s, Queue(s, ch), Sleep(ch));
    if Queue(s, ch) != [] { assert Queue(s, ch)[0] in Queue(s, ch); }
  }

  /** cv_broadcast makes every sleeper of the channel ready, in their order. */
  lemma CvBroadcastWakes(k: Kernel, cv: nat, l: nat)
    requires Synced(k) && !k.sched.halted && Owns(k, l) && Me(k.sched).pc == User
    ensures var s', q := CvBroadcast(k, cv, l).sched, Queue(k.sched, CvChan(cv));
      && Queue(s', CvChan(cv)) == [] && s'.ready == Freed(k, l) + q
      && forall t | t in q :: t in s'.threads && s'.threads[t].state == Ready
  {
    var s1 := Release(k, l).sched;
    ReleaseSynced(k, l);
    ReleaseKeeps(k, l);
    ReleaseFrees(k, l);
    WakeAllConserves(s1, CvChan(cv));
    WakeAllWakes(s1, CvChan(cv));
    assert ListOk(s1, Queue(s1, CvChan(cv)), Sleep(CvChan(cv)));
  }

  lemma CvSignalSynced(k: Kernel, cv: nat, l: nat)
    requires Synced(k) && !k.sched.halted && Owns(k, l) && Me(k.sched).pc == User
    ensures Synced(CvSignal(k, cv, l)) && CvSignal(k, cv, l).fault == k.fault
  {
    ReleaseSynced(k, l);
    ReleaseKeeps(k, l);
    CvWakeSynced(Release(k, l), cv, l);
  }

  lemma CvWakeSynced(k: Kernel, cv: nat, l: nat)
    requires Synced(k) && !k.sched.halted && l in k.locks && Me(k.sched).pc == User
    ensures Synced(k.(sched := SetPc(WakeOne(k.sched, CvChan(cv)), Reacquiring(l))))
    ensures Synced(k.(sched := SetPc(WakeAll(k.sched, CvChan(cv)), Reacquiring(l))))
  {
    WakeSame(k.sched, CvChan(cv));
    WakeKeepsRunning(k.sched, CvChan(cv));
    ReacquireSynced(k, WakeOne(k.sched, CvChan(cv)), cv, l);
    WakeAllSame(k.sched, CvChan(cv));
    ReacquireSynced(k, WakeAll(k.sched, CvChan(cv)), cv, l);
  }

  lemma CvBroadcastSynced(k: Kernel, cv: nat, l: nat)
    requires Synced(k) && !k.sched.halted && Owns(k, l) && Me(k.sched).pc == User
    ensures Synced(CvBroadcast(k, cv, l)) && CvBroadcast(k, cv, l).fault == k.fault
    ensures Queue(CvBroadcast(k, cv, l).sched, CvChan(cv)) == []
  {
    CvBroadcastWakes(k, cv, l);
    ReleaseSynced(k, l);
    ReleaseKeeps(k, l);
    CvWakeSynced(Release(k, l), cv, l);
  }

  lemma YieldSynced(k: Kernel)
    requires Synced(k) && !k.sched.halted
    ensures Synced(k.(sched := Yield(k.sched)))
  {
    YieldOrderly(k.sched);
    YieldPcs(k.sched);
    forall x: Chan
        ensures Queue(Yield(k.sched), x) == Queue(k.sched, x) && Woken(Yield(k.sched), x) == Woken(k.sched, x)
        ensures Waiters(Yield(k.sched)) {
      YieldWoken(k.sched, x);
    }
    YieldWoken(k.sched, CvChan(0));
    ObjectsSame(k, k.(sched := Yield(k.sched)), CvChan(0));
  }

  lemma YieldPcs(s: Sched)
    requires Conserved(s) && !s.halted
    ensures forall t | t in Yield(s).threads :: t in s.threads && Yield(s).threads[t].pc == s.threads[t].pc
  {
    ExorciseConserves(s);
    var s1 := Exorcise(s);
    if s1.ready != [] {
      RequeueOrderly(s1);
      assert Requeue(s1).ready[0] in Requeue(s1).ready;
    }
  }

  lemma StartSynced(k: Kernel)
    requires Synced(k) && !k.sched.halted && Me(k.sched).pc == Starting
    ensures Synced(k.(sched := SetPc(Exorcise(k.sched), User)))
  {
    ExorciseConserves(k.sched);
    var s1 := Exorcise(k.sched);
    var k1 := k.(sched := s1);
    forall x: Chan
      ensures Queue(s1, x) == Queue(k.sched, x) && Woken(s1, x) == Woken(k.sched, x)
    {
      ExorciseWoken(k.sched, x);
    }
    ExorciseWoken(k.sched, CvChan(0));
    ObjectsSame(k, k1, CvChan(0));
    StartedSynced(k1);
  }

  lemma StartedSynced(k: Kernel)
    requires Synced(k) && !k.sched.halted && Me(k.sched).pc == Starting
    ensures Synced(k.(sched := SetPc(k.sched, User)))
  {
    PcSame(k.sched, CvChan(0), User);
    ObjectsSame(k, k.(sched := SetPc(k.sched, User)), CvChan(0));
  }

  lemma LeaveSynced(k: Kernel)
    requires Synced(k) && !k.sched.halted && Me(k.sched).pc == User
    ensures Synced(k.(sched := Leave(k.sched)))
  {
    LeaveOrderly(k.sched);
    LeavePcs(k.sched);
    forall x: Chan
      ensures Queue(Leave(k.sched), x) == Queue(k.sched, x) && Woken(Leave(k.sched), x) == Woken(k.sched, x)
    {
      LeaveWoken(k.sched, x);
    }
    LeaveWoken(k.sched, CvChan(0));
    ObjectsSame(k, k.(sched := Leave(k.sched)), CvChan(0));
  }

  lemma LeavePcs(s: Sched)
    requires Conserved(s) && !s.halted
    ensures forall t | t in Leave(s).threads :: t in s.threads && Leave(s).threads[t].pc == s.threads[t].pc
  {
    LeavingOrderly(s);
    var s1 := Put(s, s.running, Me(s).(hasProc := false));
    ExorciseConserves(s1);
    var s2 := Exorcise(s1);
    BuryOrderly(s2);
    var s3 := Bury(s2);
    if s3.ready != [] { assert s3.ready[0] in s3.ready; }
  }

  lemma ForkSynced(k: Kernel, joinable: bool)
    requires Synced(k) && !k.sched.halted
    ensures Synced(Fork(k, joinable)) && Fork(k, joinable).fault == k.fault
  {
    var parent := if joinable then Some(k.sched.running) else None;
    SpawnConserves(k.sched, parent);
    var k1 := k.(sched := Spawn(k.sched, parent));
    forall x: Chan
      ensures Queue(k1.sched, x) == Queue(k.sched, x) && Woken(k1.sched, x) == Woken(k.sched, x)
    {
      SpawnWoken(k.sched, parent, x);
    }
    SpawnWoken(k.sched, parent, CvChan(0));
    ObjectsSame(k, k1, CvChan(0));
    if joinable {
      NewSemSynced(k1, PSem(k.sched.nextTid), 0);
      NewSemSynced(k1.(sems := k1.sems[PSem(k.sched.nextTid) := Semaphore(0)]), CSem(k.sched.nextTid), 0);
      var k2 := k1.(sems := k1.sems[PSem(k.sched.nextTid) := Semaphore(0)][CSem(k.sched.nextTid) := Semaphore(0)]);
      SameObjects(k2, Fork(k, joinable));
    }
  }

  lemma SameObjects(k: Kernel, k': Kernel)
    requires Synced(k) && k'.sched == k.sched && k'.sems == k.sems && k'.locks == k.locks
    ensures Synced(k')
  {
    ObjectsSame(k, k', CvChan(0));
  }

  /** Nobody sleeps on the channel of an object that does not exist. */
  lemma NobodySleeps(k: Kernel, ch: Chan)
    requires Synced(k) && (ch.SemChan? ==> ch.s !in k.sems) && (ch.LockChan? ==> ch.l !in k.locks) && !ch.CvChan?
    ensures Queue(k.sched, ch) == []
  {
    var q := Queue(k.sched, ch);
    assert ListOk(k.sched, q, Sleep(ch));
    if q != [] {
      SomeMember(q);
    }
  }

  lemma SomeMember(q: seq<Tid>)
    requires q != []
    ensures exists t :: t in q
  {
    assert q[0] in q;
  }

  lemma NewSemSynced(k: Kernel, s: Sem, n: nat)
    requires Synced(k) && (n == 0 || s !in k.sems)
    ensures Synced(k.(sems := k.sems[s := Semaphore(n)]))
  {
    var k' := k.(sems := k.sems[s := Semaphore(n)]);
    assert SemOk(k', s) by {
      if s !in k.sems { NobodySleeps(k, SemChan(s)); }
    }
    ObjectsSame(k, k', SemChan(s));
  }

  lemma NewLockSynced(k: Kernel, l: nat)
    requires Synced(k) && l !in k.locks
    ensures Synced(k.(locks := k.locks[l := Lock(None, 0)]))
  {
    var k' := k.(locks := k.locks[l := Lock(None, 0)]);
    assert LockOk(k', l) by {
      NobodySleeps(k, LockChan(l));
    }
    ObjectsSame(k, k', LockChan(l));
  }
}
