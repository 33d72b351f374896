/**
 Who is asleep and who is awake but has yet to test again, and how each scheduler
 primitive changes that.
 */
module Wakeups {
  import opened Basics
  import opened Scheduler

  /** A thread at pc sleeps on, or has been woken from, channel ch. */
  predicate WaitsOn(ch: Chan, pc: Pc) {
    match ch
    case SemChan(s) => pc.InP? && pc.s == s
    case LockChan(l) => pc == InAcquire(l)
    case CvChan(cv) => pc.InCv? && pc.cv == cv
  }

  /** Sleepers are where their channel expects them; zombies are past everything. */
  ghost predicate Waiters(s: Sched)
  {
    && (forall t | t in s.threads && s.threads[t].state.Sleep? :: WaitsOn(s.threads[t].state.ch, s.threads[t].pc))
    && (forall t | t in s.threads && s.threads[t].state == Zombie :: s.threads[t].pc == User)
  }

  /** The woken threads that have yet to test again. */
  ghost function Woken(s: Sched, ch: Chan): set<Tid>
  {
    set t | t in s.threads && WaitsOn(ch, s.threads[t].pc) && !s.threads[t].state.Sleep?
  }

  lemma WakeWoken(s: Sched, ch: Chan, x: Chan)
    requires Conserved(s) && Waiters(s)
    ensures Waiters(WakeOne(s, ch))
    ensures Queue(WakeOne(s, ch), x) == if x == ch && Queue(s, ch) != [] then Queue(s, ch)[1..] else Queue(s, x)
    ensures Woken(WakeOne(s, ch), x) == Woken(s, x) + if x == ch && Queue(s, ch) != [] then {Queue(s, ch)[0]} else {}
    ensures Queue(s, ch) != [] ==> Queue(s, ch)[0] !in Woken(s, ch)
  {
    if Queue(s, ch) != [] {
      assert ListOk(s, Queue(s, ch), Sleep(ch));
      assert Queue(s, ch)[0] in Queue(s, ch);
      DifferentChannels(ch, x, Get(s, Queue(s, ch)[0]).pc);
    }
  }

  lemma DifferentChannels(ch: Chan, x: Chan, pc: Pc)
    requires WaitsOn(ch, pc)
    ensures WaitsOn(x, pc) <==> x == ch
  {
  }

  lemma SleepWoken(s: Sched, ch: Chan, pc: Pc, x: Chan)
    requires Conserved(s) && !s.halted && Waiters(s) && WaitsOn(ch, pc)
    ensures Waiters(SleepOn(s, ch, pc))
    ensures Queue(SleepOn(s, ch, pc), x) == if x == ch then Queue(s, ch) + [s.running] else Queue(s, x)
    ensures Woken(SleepOn(s, ch, pc), x) == Woken(s, x) - {s.running}
  {
    var s1 := Park(s, ch, pc);
    ParkOrderly(s, ch, pc);
    assert Woken(s1, x) == Woken(s, x) - {s.running};
    DispatchWoken(s1, x);
  }

  lemma DispatchWoken(s: Sched, x: Chan)
    requires Parked(s) && Waiters(s)
    ensures Waiters(Dispatch(s)) && Queue(Dispatch(s), x) == Queue(s, x) && Woken(Dispatch(s), x) == Woken(s, x)
  {
    if s.ready != [] { assert s.ready[0] in s.ready; }
  }

  lemma SetPcWoken(s: Sched, pc: Pc, x: Chan)
    requires Conserved(s) && !s.halted && Waiters(s)
    ensures Waiters(SetPc(s, pc)) && Queue(SetPc(s, pc), x) == Queue(s, x)
    ensures Woken(SetPc(s, pc), x) == Woken(s, x) - {s.running} + if WaitsOn(x, pc) then {s.running} else {}
  {
  }

  lemma ExorciseWoken(s: Sched, x: Chan)
    requires Orderly(s) && s.threads[s.running].state != Zombie && Waiters(s)
    ensures Waiters(Exorcise(s)) && Queue(Exorcise(s), x) == Queue(s, x) && Woken(Exorcise(s), x) == Woken(s, x)
  {
    forall t | t in s.zombies ensures t !in Woken(s, x) {}
  }

  lemma YieldWoken(s: Sched, x: Chan)
    requires Conserved(s) && !s.halted && Waiters(s)
    ensures Waiters(Yield(s)) && Queue(Yield(s), x) == Queue(s, x) && Woken(Yield(s), x) == Woken(s, x)
  {
    ExorciseConserves(s);
    ExorciseWoken(s, x);
    var s1 := Exorcise(s);
    if s1.ready != [] {
      RequeueOrderly(s1);
      var s2 := Requeue(s1);
      assert Waiters(s2) && Woken(s2, x) == Woken(s1, x);
      DispatchWoken(s2, x);
    }
  }

  lemma LeaveWoken(s: Sched, x: Chan)
    requires Conserved(s) && !s.halted && Waiters(s) && s.threads[s.running].pc == User
    ensures Waiters(Leave(s)) && Queue(Leave(s), x) == Queue(s, x) && Woken(Leave(s), x) == Woken(s, x)
  {
    var s1 := Put(s, s.running, Me(s).(hasProc := false));
    LeavingOrderly(s);
    assert Waiters(s1) && Woken(s1, x) == Woken(s, x);
    ExorciseConserves(s1);
    ExorciseWoken(s1, x);
    BuryOrderly(Exorcise(s1));
    BuryWoken(Exorcise(s1), x);
    DispatchWoken(Bury(Exorcise(s1)), x);
  }

  lemma BuryWoken(s: Sched, x: Chan)
    requires s.running in s.threads && Waiters(s) && s.threads[s.running].pc == User
    ensures Waiters(Bury(s)) && Queue(Bury(s), x) == Queue(s, x) && Woken(Bury(s), x) == Woken(s, x)
  {
  }

  lemma SpawnWoken(s: Sched, parent: Option<Tid>, x: Chan)
    requires Conserved(s) && Waiters(s)
    ensures Waiters(Spawn(s, parent)) && Queue(Spawn(s, parent), x) == Queue(s, x)
    ensures Woken(Spawn(s, parent), x) == Woken(s, x)
  {
    assert s.nextTid !in s.threads;
  }

  lemma {:induction false} WakeAllWoken(s: Sched, ch: Chan, x: Chan)
    requires Conserved(s) && Waiters(s) && x != ch
    ensures Waiters(WakeAll(s, ch)) && Queue(WakeAll(s, ch), x) == Queue(s, x)
    ensures Woken(WakeAll(s, ch), x) == Woken(s, x)
    decreases |Queue(s, ch)|
  {
    if Queue(s, ch) != [] {
      WakeConserves(s, ch);
      WakeWoken(s, ch, x);
      WakeAllWoken(WakeOne(s, ch), ch, x);
    }
  }
}
