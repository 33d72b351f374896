/**
 The fork, exit and join handshake: psem tells the parent that the child has its
 return value in place, csem tells the child that it has been read.
 */
module Joining {
  import opened Basics
  import opened Scheduler
  import opened Wakeups
  import opened Kernel
  import opened Synch

  /** Thread c is in thread_exit, at or before the end of P(csem). */
  predicate Exiting(s: Sched, c: Tid) { c in s.threads && s.threads[c].pc == InP(CSem(c), ThenExit) }

  /** Every P is on the semaphore its continuation is about. */
  ghost predicate Shape(k: Kernel, t: Tid)
  {
    var pc := Get(k.sched, t).pc;
    pc.InP? ==>
      match pc.after
      case Return => pc.s.UserSem?
      case ThenExit => pc.s == CSem(t)
      case ThenJoin(c) => pc.s == PSem(c) && c in k.unjoined && k.unjoined[c] == t
  }

  /** The state of the handshake for a joinable child c that still has its
      semaphores: not yet exiting; exiting and not joined, asleep on csem with its
      return value in place; or joined and awake. */
  ghost predicate ChildOk(k: Kernel, c: Tid)
  {
    && PSem(c) in k.sems && CSem(c) in k.sems && c in k.sched.threads && k.sched.threads[c].state != Zombie
    && var th := k.sched.threads[c];
       var p := k.sems[PSem(c)].count;
       var q := k.sems[CSem(c)].count;
       if !Exiting(k.sched, c) then
         p == 0 && q == 0 && c in k.unjoined && th.parent == Some(k.unjoined[c])
       else if c in k.unjoined then
         && p == 1 && q == 0 && th.parent == Some(k.unjoined[c])
         && th.state == Sleep(SemChan(CSem(c))) && c in k.exits && th.rval == k.exits[c]
       else
         p == 0 && q == 1 && th.parent == None && !th.state.Sleep?
  }

  /** What ties thread t to the protocol whether or not it is joinable. */
  ghost predicate TiesOk(k: Kernel, t: Tid)
  {
    && (CSem(t) in k.sems ==> PSem(t) in k.sems)
    && (t in k.unjoined ==> PSem(t) in k.sems && k.unjoined[t] != t)
    && (t in k.sched.threads && k.sched.threads[t].parent.Some? ==> PSem(t) in k.sems)
    && (t in k.joins ==> t in k.exits && k.joins[t] == k.exits[t] && t !in k.unjoined)
    && (t in k.exits ==> t < k.sched.nextTid)
    && (t in k.exits && t in k.sched.threads ==> Exiting(k.sched, t) || k.sched.threads[t].state == Zombie)
  }

  ghost predicate Children(k: Kernel)
  {
    && (forall t {:trigger Shape(k, t)} | t in k.sched.threads :: Shape(k, t))
    && (forall c {:trigger ChildOk(k, c)} | PSem(c) in k.sems :: ChildOk(k, c))
    && (forall t {:trigger TiesOk(k, t)} :: TiesOk(k, t))
  }

  /** Nothing the protocol says about thread t has changed. */
  ghost predicate Alike(s: Sched, s': Sched, t: Tid)
  {
    && t in s.threads && t in s'.threads
    && var a, b := s.threads[t], s'.threads[t];
    && b.parent == a.parent && b.rval == a.rval && (b.state == Zombie <==> a.state == Zombie)
    && (Exiting(s', t) <==> Exiting(s, t))
    && (Exiting(s, t) ==> if a.state.Sleep? then b.state == a.state else !b.state.Sleep?)
  }

  /** Apart from thread r, threads have not changed for the protocol, and only
      zombies have gone. */
  ghost predicate Mild(s: Sched, s': Sched, r: Tid)
  {
    && s.nextTid <= s'.nextTid
    && (forall t {:trigger Alike(s, s', t)} | t in s'.threads && t != r :: Alike(s, s', t))
    && (forall t | t in s.threads && t != r && s.threads[t].state != Zombie :: t in s'.threads)
  }

  lemma MildTrans(s: Sched, s1: Sched, s2: Sched, r: Tid)
    requires Mild(s, s1, r) && Mild(s1, s2, r)
    ensures Mild(s, s2, r)
  {
    forall t | t in s2.threads && t != r ensures Alike(s, s2, t) {
      assert Alike(s1, s2, t) && Alike(s, s1, t);
    }
    forall t | t in s.threads && t != r && s.threads[t].state != Zombie ensures t in s2.threads {
      assert Alike(s, s1, t);
    }
  }

  /** Apart from thread r, the protocol's own data have not changed either. */
  ghost predicate SameFor(k: Kernel, k': Kernel, t: Tid)
  {
    && (PSem(t) in k'.sems <==> PSem(t) in k.sems) && (CSem(t) in k'.sems <==> CSem(t) in k.sems)
    && (PSem(t) in k.sems ==> k'.sems[PSem(t)].count == k.sems[PSem(t)].count)
    && (CSem(t) in k.sems ==> k'.sems[CSem(t)].count == k.sems[CSem(t)].count)
    && (t in k'.unjoined <==> t in k.unjoined) && (t in k.unjoined ==> k'.unjoined[t] == k.unjoined[t])
    && (t in k'.exits <==> t in k.exits) && (t in k.exits ==> k'.exits[t] == k.exits[t])
    && (t in k'.joins <==> t in k.joins) && (t in k.joins ==> k'.joins[t] == k.joins[t])
  }

  lemma ChildSame(k: Kernel, k': Kernel, c: Tid, r: Tid)
    requires ChildOk(k, c) && SameFor(k, k', c) && Mild(k.sched, k'.sched, r) && c != r
    ensures ChildOk(k', c)
  {
    assert Alike(k.sched, k'.sched, c);
  }

  lemma TiesSame(k: Kernel, k': Kernel, t: Tid, r: Tid)
    requires TiesOk(k, t) && SameFor(k, k', t) && Mild(k.sched, k'.sched, r) && t != r
    ensures TiesOk(k', t)
  {
    if t in k'.sched.threads { assert Alike(k.sched, k'.sched, t); }
  }

  lemma ChildrenBut(k: Kernel, k': Kernel, r: Tid)
    requires Children(k) && Mild(k.sched, k'.sched, r)
    requires forall t {:trigger SameFor(k, k', t)} | t != r :: SameFor(k, k', t)
    requires forall t {:trigger Shape(k', t)} | t in k'.sched.threads :: Shape(k', t)
    requires (PSem(r) in k'.sems ==> ChildOk(k', r)) && TiesOk(k', r)
    ensures Children(k')
  {
    forall c | PSem(c) in k'.sems ensures ChildOk(k', c) {
      if c != r { assert SameFor(k, k', c); assert ChildOk(k, c); ChildSame(k, k', c, r); }
    }
    forall t ensures TiesOk(k', t) {
      if t != r { assert SameFor(k, k', t); assert TiesOk(k, t); TiesSame(k, k', t, r); }
    }
  }

  // ------------------------------------------------ the scheduler primitives

  predicate NotExit(pc: Pc) { !(pc.InP? && pc.after == ThenExit) }

  lemma WakeMild(s: Sched, ch: Chan, r: Tid)
    requires Conserved(s) && Waiters(s) && (ch.SemChan? && ch.s.CSem? ==> ch.s.c == r)
    ensures Mild(s, WakeOne(s, ch), r)
  {
    if Queue(s, ch) != [] {
      assert ListOk(s, Queue(s, ch), Sleep(ch));
      assert Queue(s, ch)[0] in Queue(s, ch);
    }
    forall t | t in WakeOne(s, ch).threads && t != r ensures Alike(s, WakeOne(s, ch), t) {}
  }

  lemma {:induction false} WakeAllMild(s: Sched, ch: Chan, r: Tid)
    requires Conserved(s) && Waiters(s) && ch.CvChan?
    ensures Mild(s, WakeAll(s, ch), r)
    decreases |Queue(s, ch)|
  {
    if Queue(s, ch) == [] {
      forall t | t in s.threads ensures Alike(s, s, t) {}
    } else {
      WakeMild(s, ch, r);
      WakeConserves(s, ch);
      WakeWoken(s, ch, ch);
      WakeAllMild(WakeOne(s, ch), ch, r);
      MildTrans(s, WakeOne(s, ch), WakeAll(s, ch), r);
    }
  }

  lemma DispatchMild(s: Sched, r: Tid)
    requires Parked(s) && Waiters(s)
    ensures Mild(s, Dispatch(s), r)
  {
    if s.ready != [] { assert s.ready[0] in s.ready; }
    forall t | t in Dispatch(s).threads && t != r ensures Alike(s, Dispatch(s), t) {}
  }

  lemma PutMild(s: Sched, t: Tid, th: Thread)
    ensures Mild(s, Put(s, t, th), t)
  {
    forall x | x in s.threads && x != t ensures Alike(s, Put(s, t, th), x) {}
  }

  lemma SleepMild(s: Sched, ch: Chan, pc: Pc, r: Tid)
    requires Conserved(s) && !s.halted && Waiters(s) && WaitsOn(ch, pc)
    requires r == s.running || (NotExit(pc) && !Exiting(s, s.running))
    ensures Mild(s, SleepOn(s, ch, pc), r)
  {
    var s1 := Park(s, ch, pc);
    ParkOrderly(s, ch, pc);
    forall t | t in s1.threads && t != r ensures Alike(s, s1, t) {}
    DispatchMild(s1, r);
    MildTrans(s, s1, SleepOn(s, ch, pc), r);
  }

  lemma PcMild(s: Sched, pc: Pc, r: Tid)
    requires s.running in s.threads && (r == s.running || (NotExit(pc) && !Exiting(s, s.running)))
    ensures Mild(s, SetPc(s, pc), r)
  {
    forall t | t in s.threads && t != r ensures Alike(s, SetPc(s, pc), t) {}
  }

  lemma ExorciseMild(s: Sched, r: Tid)
    requires Orderly(s)
    ensures Mild(s, Exorcise(s), r)
  {
    forall t | t in Exorcise(s).threads ensures Alike(s, Exorcise(s), t) {}
  }

  lemma YieldMild(s: Sched, r: Tid)
    requires Conserved(s) && !s.halted && Waiters(s)
    ensures Mild(s, Yield(s), r)
  {
    ExorciseMild(s, r);
    ExorciseConserves(s);
    ExorciseWoken(s, CvChan(0));
    var s1 := Exorcise(s);
    if s1.ready != [] {
      RequeueOrderly(s1);
      var s2 := Requeue(s1);
      forall t | t in s2.threads && t != r ensures Alike(s1, s2, t) {}
      DispatchMild(s2, r);
      MildTrans(s, s1, s2, r);
      MildTrans(s, s2, Yield(s), r);
    }
  }

  lemma LeaveMild(s: Sched)
    requires Conserved(s) && !s.halted && Waiters(s) && s.threads[s.running].pc == User
    ensures Mild(s, Leave(s), s.running)
  {
    var r := s.running;
    var s1 := Put(s, r, Me(s).(hasProc := false));
    PutMild(s, r, Me(s).(hasProc := false));
    LeavingOrderly(s);
    ExorciseMild(s1, r);
    ExorciseConserves(s1);
    ExorciseWoken(s1, CvChan(0));
    var s2 := Exorcise(s1);
    BuryOrderly(s2);
    BuryWoken(s2, CvChan(0));
    BuriedMild(s2);
    DispatchMild(Bury(s2), r);
    MildTrans(s, s1, s2, r);
    MildTrans(s, s2, Bury(s2), r);
    MildTrans(s, Bury(s2), Leave(s), r);
  }

  lemma BuriedMild(s: Sched)
    ensures Mild(s, Bury(s), s.running)
  {
    forall t | t in s.threads && t != s.running ensures Alike(s, Bury(s), t) {}
  }

  lemma SpawnMild(s: Sched, parent: Option<Tid>)
    ensures Mild(s, Spawn(s, parent), s.nextTid)
  {
    forall t | t in s.threads && t != s.nextTid ensures Alike(s, Spawn(s, parent), t) {}
  }
}
