/**
 What each action does to its caller and to everybody else, as one table: where the caller
 goes next, what happens to counts and owners, and that no other thread moves.
 */
module KernelSteps {
  import opened Basics
  import opened Scheduler
  import opened Wakeups
  import opened Kernel
  import opened Synch
  import opened Joining
  import opened KernelRuns

  // -------------------------------------------------------------------- who moves

  /** Only thread me moves, to pc; new threads start, and only finished ones go. */
  ghost predicate Moves(s: Sched, s': Sched, me: Tid, pc: Pc) {
    && me in s.threads && me in s'.threads && s'.threads[me].pc == pc
    && (forall t | t in s'.threads && t != me ::
          s'.threads[t].pc == if t in s.threads then s.threads[t].pc else Starting)
    && (forall t | t in s.threads && t !in s'.threads :: s.threads[t].pc == User)
  }

  lemma MovesThen(s: Sched, s1: Sched, s2: Sched, me: Tid, pc: Pc, pc': Pc)
    requires Moves(s, s1, me, pc) && Moves(s1, s2, me, pc') && s1.threads.Keys == s.threads.Keys
    ensures Moves(s, s2, me, pc')
  {
  }

  lemma SleepMoves(s: Sched, ch: Chan, pc: Pc)
    requires Conserved(s) && !s.halted
    ensures Moves(s, SleepOn(s, ch, pc), s.running, pc) && SleepOn(s, ch, pc).threads.Keys == s.threads.Keys
  {
    SleepPcs(s, ch, pc);
  }

  lemma SetMoves(s: Sched, pc: Pc)
    requires Conserved(s)
    ensures Moves(s, SetPc(s, pc), s.running, pc) && SetPc(s, pc).threads.Keys == s.threads.Keys
  {
  }

  /** A change of a thread's record other than its pc moves nobody. */
  lemma PutMoves(s: Sched, t: Tid, th: Thread, me: Tid)
    requires t in s.threads && me in s.threads && th.pc == s.threads[t].pc
    ensures Moves(s, Put(s, t, th), me, s.threads[me].pc) && Put(s, t, th).threads.Keys == s.threads.Keys
  {
  }

  lemma WakeMoves(s: Sched, ch: Chan)
    requires Conserved(s) && Waiters(s)
    ensures Moves(s, WakeOne(s, ch), s.running, Me(s).pc) && WakeOne(s, ch).threads.Keys == s.threads.Keys
  {
    WakeSame(s, ch);
  }

  lemma WakeAllMoves(s: Sched, ch: Chan)
    requires Conserved(s)
    ensures Moves(s, WakeAll(s, ch), s.running, Me(s).pc) && WakeAll(s, ch).threads.Keys == s.threads.Keys
  {
    WakeAllWakes(s, ch);
  }

  lemma YieldMoves(s: Sched)
    requires Conserved(s) && Waiters(s) && !s.halted
    ensures Moves(s, Yield(s), s.running, Me(s).pc)
  {
    YieldConserves(s);
    YieldPcs(s);
  }

  lemma LeaveMoves(s: Sched)
    requires Conserved(s) && Waiters(s) && !s.halted
    ensures Moves(s, Leave(s), s.running, Me(s).pc)
  {
    LeaveConserves(s);
    LeavePcs(s);
  }

  lemma StartMoves(s: Sched)
    requires Conserved(s) && Waiters(s) && !s.halted
    ensures Moves(s, SetPc(Exorcise(s), User), s.running, User)
  {
    ExorciseConserves(s);
  }

  lemma SpawnMoves(s: Sched, parent: Option<Tid>)
    requires Conserved(s) && !s.halted
    ensures Moves(s, Spawn(s, parent), s.running, Me(s).pc)
  {
    SpawnConserves(s, parent);
  }

  // -------------------------------------------------------------------- the table

  function Count(k: Kernel, s: Sem): nat { if s in k.sems then k.sems[s].count else 0 }

  /** How often thread t holds lock l. */
  function Holding(k: Kernel, l: nat, t: Tid): nat {
    if l in k.locks && k.locks[l].owner == Some(t) then k.locks[l].count else 0
  }

  /** Another thread owns the lock. */
  predicate Barred(k: Kernel, l: nat) { l in k.locks && k.locks[l].owner.Some? && !Owns(k, l) }

  /** Where the caller goes. */
  function NextPc(k: Kernel, a: Action): Pc {
    var me := k.sched.running;
    match a
    case DoYield => Me(k.sched).pc
    case Continue => Resumed(k, Me(k.sched).pc)
    case DoP(s) => if Count(k, UserSem(s)) == 0 then InP(UserSem(s), Return) else User
    case DoAcquire(l) => if Barred(k, l) then InAcquire(l) else User
    case DoWait(cv, l) => InCv(cv, l)
    case DoSignal(_, l) => Reacquiring(l)
    case DoBroadcast(_, l) => Reacquiring(l)
    case DoJoin(c) => if Count(k, PSem(c)) == 0 then InP(PSem(c), ThenJoin(c)) else User
    case DoExit(_) => if Me(k.sched).parent.Some? then InP(CSem(me), ThenExit) else User
    case _ => User
  }

  function Resumed(k: Kernel, pc: Pc): Pc {
    match pc
    case InP(s, _) => if Count(k, s) == 0 then pc else User
    case InAcquire(l) => if Barred(k, l) then InAcquire(l) else User
    case InCv(_, l) => if Barred(k, l) then InAcquire(l) else User
    case Reacquiring(l) => if Barred(k, l) then InAcquire(l) else User
    case _ => User
  }

  // ------------------------------------------------------------------------ P and V

  lemma BlockMoves(k: Kernel, s: Sem, after: After)
    requires Inv(k) && !k.sched.halted && s in k.sems && Count(k, s) == 0
    ensures Moves(k.sched, TryP(k, s, after).sched, k.sched.running, InP(s, after))
  {
    SleepMoves(k.sched, SemChan(s), InP(s, after));
  }

  lemma TakeMoves(k: Kernel, s: Sem)
    requires Inv(k) && !k.sched.halted && s in k.sems && Count(k, s) > 0
    ensures Moves(k.sched, TryP(k, s, Return).sched, k.sched.running, User)
  {
    SetMoves(k.sched, User);
  }

  lemma JoinMoves(k: Kernel, c: Tid)
    requires Inv(k) && !k.sched.halted && PSem(c) in k.sems && Count(k, PSem(c)) > 0
    requires c in k.unjoined && k.unjoined[c] == k.sched.running
    ensures Moves(k.sched, TryP(k, PSem(c), ThenJoin(c)).sched, k.sched.running, User)
  {
    var me, s1 := k.sched.running, SetPc(k.sched, User);
    JoinedState(k, c);
    SetMoves(k.sched, User);
    SetPcConserves(k.sched, User);
    SetPcWoken(k.sched, User, CvChan(0));
    WakeMoves(s1, SemChan(CSem(c)));
    var s2 := WakeOne(s1, SemChan(CSem(c)));
    MovesThen(k.sched, s1, s2, me, User, User);
    PutMoves(s2, c, Get(s2, c).(parent := None), me);
    MovesThen(k.sched, s2, Put(s2, c, Get(s2, c).(parent := None)), me, User, User);
  }

  lemma FinishExitMoves(k: Kernel)
    requires Inv(k) && !k.sched.halted && CSem(k.sched.running) in k.sems && Count(k, CSem(k.sched.running)) > 0
    ensures Moves(k.sched, TryP(k, CSem(k.sched.running), ThenExit).sched, k.sched.running, User)
  {
    var s1 := SetPc(k.sched, User);
    var s2 := Put(s1, k.sched.running, Me(s1).(parent := None));
    OrphanMoves(k, s1, s2);
    LeaveMoves(s2);
    MovesThen(k.sched, s2, Leave(s2), k.sched.running, User, User);
  }

  lemma OrphanMoves(k: Kernel, s1: Sched, s2: Sched)
    requires Inv(k) && !k.sched.halted && s1 == SetPc(k.sched, User)
    requires s2 == Put(s1, k.sched.running, Me(s1).(parent := None))
    ensures Moves(k.sched, s2, k.sched.running, User) && s2.threads.Keys == k.sched.threads.Keys
    ensures Conserved(s2) && Waiters(s2) && !s2.halted && s2.running == k.sched.running
  {
    var me := k.sched.running;
    SetMoves(k.sched, User);
    SetPcConserves(k.sched, User);
    SetPcWoken(k.sched, User, CvChan(0));
    PutMoves(s1, me, Me(s1).(parent := None), me);
    RecordWaits(s1, me, Me(s1).(parent := None));
    MovesThen(k.sched, s1, s2, me, User, User);
  }

  /** P, called or resumed. */
  lemma PMoves(k: Kernel, s: Sem, after: After)
    requires Inv(k) && !k.sched.halted && s in k.sems
    requires match after
      case Return => true
      case ThenJoin(c) => s == PSem(c) && c in k.unjoined && k.unjoined[c] == k.sched.running
      case ThenExit => s == CSem(k.sched.running)
    ensures Moves(k.sched, TryP(k, s, after).sched, k.sched.running, if Count(k, s) == 0 then InP(s, after) else User)
  {
    if Count(k, s) == 0 {
      BlockMoves(k, s, after);
    } else {
      match after {
        case Return => TakeMoves(k, s);
        case ThenJoin(c) => JoinMoves(k, c);
        case ThenExit => FinishExitMoves(k);
      }
    }
  }

  lemma VMoves(k: Kernel, s: Sem)
    requires Inv(k) && s in k.sems
    ensures Moves(k.sched, V(k, s).sched, k.sched.running, Me(k.sched).pc)
  {
    WakeMoves(k.sched, SemChan(s));
  }

  // -------------------------------------------------------- locks, condition variables

  lemma AcquireMoves(k: Kernel, l: nat)
    requires Inv(k) && !k.sched.halted && l in k.locks
    ensures Moves(k.sched, TryAcquire(k, l).sched, k.sched.running, if Barred(k, l) then InAcquire(l) else User)
  {
    assert LockOk(k, l);
    if Barred(k, l) { SleepMoves(k.sched, LockChan(l), InAcquire(l)); } else { SetMoves(k.sched, User); }
  }

  lemma ReleaseMoves(k: Kernel, l: nat)
    requires Inv(k) && Owns(k, l)
    ensures Moves(k.sched, Release(k, l).sched, k.sched.running, Me(k.sched).pc)
    ensures Release(k, l).sched.threads.Keys == k.sched.threads.Keys
  {
    assert LockOk(k, l);
    WakeMoves(k.sched, LockChan(l));
  }

  /** lock_release inside the cv calls: the caller goes on, and nothing is broken. */
  lemma Released(k: Kernel, l: nat, k1: Kernel)
    requires Inv(k) && !k.sched.halted && Owns(k, l) && Me(k.sched).pc == User && k1 == Release(k, l)
    ensures Moves(k.sched, k1.sched, k.sched.running, User) && k1.sched.threads.Keys == k.sched.threads.Keys
    ensures Conserved(k1.sched) && Waiters(k1.sched) && !k1.sched.halted && k1.sched.running == k.sched.running
  {
    ReleaseMoves(k, l);
    ReleaseSynced(k, l);
    ReleaseKeeps(k, l);
  }

  lemma CvWaitMoves(k: Kernel, cv: nat, l: nat)
    requires Inv(k) && !k.sched.halted && Owns(k, l) && Me(k.sched).pc == User
    ensures Moves(k.sched, CvWait(k, cv, l).sched, k.sched.running, InCv(cv, l))
  {
    var k1 := Release(k, l);
    Released(k, l, k1);
    SleepMoves(k1.sched, CvChan(cv), InCv(cv, l));
    MovesThen(k.sched, k1.sched, SleepOn(k1.sched, CvChan(cv), InCv(cv, l)), k.sched.running, User, InCv(cv, l));
  }

  lemma CvSignalMoves(k: Kernel, cv: nat, l: nat)
    requires Inv(k) && !k.sched.halted && Owns(k, l) && Me(k.sched).pc == User
    ensures Moves(k.sched, CvSignal(k, cv, l).sched, k.sched.running, Reacquiring(l))
  {
    var k1 := Release(k, l);
    Released(k, l, k1);
    WakeMoves(k1.sched, CvChan(cv));
    WokenMoves(k.sched, k1.sched, WakeOne(k1.sched, CvChan(cv)), l);
  }

  lemma CvBroadcastMoves(k: Kernel, cv: nat, l: nat)
    requires Inv(k) && !k.sched.halted && Owns(k, l) && Me(k.sched).pc == User
    ensures Moves(k.sched, CvBroadcast(k, cv, l).sched, k.sched.running, Reacquiring(l))
  {
    var k1 := Release(k, l);
    Released(k, l, k1);
    WakeAllMoves(k1.sched, CvChan(cv));
    WakeAllWakes(k1.sched, CvChan(cv));
    WokenMoves(k.sched, k1.sched, WakeAll(k1.sched, CvChan(cv)), l);
  }

  lemma WokenMoves(s: Sched, s1: Sched, s2: Sched, l: nat)
    requires Moves(s, s1, s.running, User) && s1.threads.Keys == s.threads.Keys
    requires Moves(s1, s2, s.running, User) && s2.threads.Keys == s1.threads.Keys && s2.running == s.running
    ensures Moves(s, SetPc(s2, Reacquiring(l)), s.running, Reacquiring(l))
  {
  }

  // --------------------------------------------------------------------- fork and exit

  lemma ExitMoves(k: Kernel, v: int)
    requires Inv(k) && !k.sched.halted && Me(k.sched).pc == User
    ensures Moves(k.sched, Exit(k, v).sched, k.sched.running,
                  if Me(k.sched).parent.Some? then InP(CSem(k.sched.running), ThenExit) else User)
  {
    var me := k.sched.running;
    var s1 := Put(k.sched, me, Me(k.sched).(rval := v));
    PutMoves(k.sched, me, Me(k.sched).(rval := v), me);
    RecordWaits(k.sched, me, Me(k.sched).(rval := v));
    if Me(k.sched).parent.Some? {
      ExitSleeps(k, v);
    } else {
      LeaveMoves(s1);
      MovesThen(k.sched, s1, Leave(s1), me, User, User);
    }
  }

  /** With a parent, thread_exit gets as far as P(csem) and sleeps. */
  lemma ExitSleeps(k: Kernel, v: int)
    requires Inv(k) && !k.sched.halted && Me(k.sched).pc == User && Me(k.sched).parent.Some?
    ensures var me := k.sched.running;
      && PSem(me) in k.sems && CSem(me) in k.sems && Count(k, CSem(me)) == 0
      && Moves(k.sched, Exit(k, v).sched, me, InP(CSem(me), ThenExit))
      && Exit(k, v).sched
         == SleepOn(WakeOne(Put(k.sched, me, Me(k.sched).(rval := v)), SemChan(PSem(me))), SemChan(CSem(me)),
             InP(CSem(me), ThenExit))
  {
    var me := k.sched.running;
    assert TiesOk(k, me) && ChildOk(k, me);
    RecordWaits(k.sched, me, Me(k.sched).(rval := v));
    ExitSleepMoves(k.sched, Put(k.sched, me, Me(k.sched).(rval := v)), v);
  }

  lemma ExitSleepMoves(s: Sched, s1: Sched, v: int)
    requires Conserved(s) && !s.halted && Me(s).pc == User && s1 == Put(s, s.running, Me(s).(rval := v))
    requires Conserved(s1) && Waiters(s1)
    ensures var me, pc := s.running, InP(CSem(s.running), ThenExit);
      Moves(s, SleepOn(WakeOne(s1, SemChan(PSem(me))), SemChan(CSem(me)), pc), me, pc)
  {
    var me, pc := s.running, InP(CSem(s.running), ThenExit);
    PutMoves(s, me, Me(s).(rval := v), me);
    WakeMoves(s1, SemChan(PSem(me)));
    WakeConserves(s1, SemChan(PSem(me)));
    WakeKeepsRunning(s1, SemChan(PSem(me)));
    var s2 := WakeOne(s1, SemChan(PSem(me)));
    MovesThen(s, s1, s2, me, User, User);
    SleepMoves(s2, SemChan(CSem(me)), pc);
    MovesThen(s, s2, SleepOn(s2, SemChan(CSem(me)), pc), me, User, pc);
  }

  lemma ResumeMoves(k: Kernel)
    requires Inv(k) && !k.sched.halted && Me(k.sched).pc != User
    ensures Moves(k.sched, GoOn(k).sched, k.sched.running, Resumed(k, Me(k.sched).pc))
  {
    var me := k.sched.running;
    assert Shape(k, me) && PcOk(k, k.sched.threads[me].pc);
    match Me(k.sched).pc {
      case Starting => StartMoves(k.sched);
      case InP(s, after) => PMoves(k, s, after);
      case InAcquire(l) => AcquireMoves(k, l);
      case InCv(_, l) => AcquireMoves(k, l);
      case Reacquiring(l) => AcquireMoves(k, l);
    }
  }

  lemma JoinCallMoves(k: Kernel, c: Tid)
    requires Inv(k) && Enabled(k, DoJoin(c))
    ensures Join(k, c) == TryP(k, PSem(c), ThenJoin(c)) && PSem(c) in k.sems
    ensures Moves(k.sched, Join(k, c).sched, k.sched.running, NextPc(k, DoJoin(c)))
  {
    assert TiesOk(k, c) && ChildOk(k, c);
    PMoves(k, PSem(c), ThenJoin(c));
  }

  /** Every action takes its caller where the table says, and nobody else anywhere. */
  lemma StepMoves(k: Kernel, a: Action)
    requires Inv(k) && Enabled(k, a)
    ensures Moves(k.sched, Step(k, a).sched, k.sched.running, NextPc(k, a))
  {
    match a {
      case DoYield => YieldMoves(k.sched);
      case Continue => ResumeMoves(k);
      case DoP(s) => PMoves(k, UserSem(s), Return);
      case DoV(s) => VMoves(k, UserSem(s));
      case DoAcquire(l) => AcquireMoves(k, l);
      case DoRelease(l) => ReleaseMoves(k, l);
      case DoWait(cv, l) => CvWaitMoves(k, cv, l);
      case DoSignal(cv, l) => CvSignalMoves(k, cv, l);
      case DoBroadcast(cv, l) => CvBroadcastMoves(k, cv, l);
      case DoFork(joinable) => SpawnMoves(k.sched, if joinable then Some(k.sched.running) else None);
      case DoJoin(c) => JoinCallMoves(k, c);
      case DoExit(v) => ExitMoves(k, v);
      case NewSem(_, _) =>
      case NewLock(_) =>
    }
  }

  // ------------------------------------------------------- who keeps the CPU and who sleeps

  /** Whether an action ends its caller's thread. */
  predicate Ends(k: Kernel, a: Action) {
    var pc := Me(k.sched).pc;
    (a.DoExit? && Me(k.sched).parent.None?) || (a == Continue && pc.InP? && pc.after == ThenExit && Count(k, pc.s) > 0)
  }

  /** A thread inside a primitive sleeps on the channel it is about; one that is not runs on. */
  ghost predicate Rests(s': Sched, me: Tid, pc: Pc, ends: bool) {
    && me in s'.threads
    && match pc
       case InP(s, _) => s'.threads[me].state == Sleep(SemChan(s))
       case InAcquire(l) => s'.threads[me].state == Sleep(LockChan(l))
       case InCv(cv, _) => s'.threads[me].state == Sleep(CvChan(cv))
       case _ => if ends then s'.threads[me].state == Zombie else s'.running == me && !s'.halted
  }

  lemma SleepRests(s: Sched, ch: Chan, pc: Pc)
    requires Conserved(s) && !s.halted
    ensures s.running in SleepOn(s, ch, pc).threads && SleepOn(s, ch, pc).threads[s.running].state == Sleep(ch)
  {
    SleepState(s, ch, pc);
    SleepPcs(s, ch, pc);
  }

  lemma PRests(k: Kernel, s: Sem, after: After)
    requires Inv(k) && !k.sched.halted && s in k.sems
    requires match after
      case Return => true
      case ThenJoin(c) => s == PSem(c) && c in k.unjoined && k.unjoined[c] == k.sched.running
      case ThenExit => s == CSem(k.sched.running)
    ensures Rests(TryP(k, s, after).sched, k.sched.running, if Count(k, s) == 0 then InP(s, after) else User,
                  after == ThenExit)
  {
    PMoves(k, s, after);
    if Count(k, s) == 0 {
      SleepRests(k.sched, SemChan(s), InP(s, after));
    } else if after == ThenExit {
      var s1 := SetPc(k.sched, User);
      OrphanMoves(k, s1, Put(s1, k.sched.running, Me(s1).(parent := None)));
      LeaveState(Put(s1, k.sched.running, Me(s1).(parent := None)));
    }
  }

  lemma CvRests(k: Kernel, cv: nat, l: nat)
    requires Inv(k) && !k.sched.halted && Owns(k, l) && Me(k.sched).pc == User
    ensures Rests(CvWait(k, cv, l).sched, k.sched.running, InCv(cv, l), false)
    ensures Rests(CvSignal(k, cv, l).sched, k.sched.running, Reacquiring(l), false)
    ensures Rests(CvBroadcast(k, cv, l).sched, k.sched.running, Reacquiring(l), false)
  {
    var s1 := Release(k, l).sched;
    Released(k, l, Release(k, l));
    SleepRests(s1, CvChan(cv), InCv(cv, l));
    WakeKeepsRunning(s1, CvChan(cv));
    WakeAllSame(s1, CvChan(cv));
  }

  lemma ExitRests(k: Kernel, v: int)
    requires Inv(k) && !k.sched.halted && Me(k.sched).pc == User
    ensures Rests(Exit(k, v).sched, k.sched.running, NextPc(k, DoExit(v)), Ends(k, DoExit(v)))
  {
    if Me(k.sched).parent.Some? { ExitWaits(k, v); } else { ExitLeaves(k, v); }
  }

  lemma ExitWaits(k: Kernel, v: int)
    requires Inv(k) && !k.sched.halted && Me(k.sched).pc == User && Me(k.sched).parent.Some?
    ensures var me := k.sched.running; Rests(Exit(k, v).sched, me, InP(CSem(me), ThenExit), false)
  {
    var me := k.sched.running;
    RecordWaits(k.sched, me, Me(k.sched).(rval := v));
    ExitSleeps(k, v);
    WakeThenRests(Put(k.sched, me, Me(k.sched).(rval := v)), SemChan(PSem(me)), SemChan(CSem(me)),
        InP(CSem(me), ThenExit));
  }

  lemma ExitLeaves(k: Kernel, v: int)
    requires Inv(k) && !k.sched.halted && Me(k.sched).pc == User && Me(k.sched).parent.None?
    ensures Rests(Exit(k, v).sched, k.sched.running, User, true)
  {
    var me := k.sched.running;
    RecordWaits(k.sched, me, Me(k.sched).(rval := v));
    LeaveState(Put(k.sched, me, Me(k.sched).(rval := v)));
  }

  lemma WakeThenRests(s: Sched, ch: Chan, ch': Chan, pc: Pc)
    requires Conserved(s) && !s.halted
    ensures var s' := SleepOn(WakeOne(s, ch), ch', pc);
      s.running in s'.threads && s'.threads[s.running].state == Sleep(ch')
  {
    WakeConserves(s, ch);
    WakeKeepsRunning(s, ch);
    SleepRests(WakeOne(s, ch), ch', pc);
  }

  lemma AcquireRests(k: Kernel, l: nat)
    requires Inv(k) && !k.sched.halted && l in k.locks
    ensures Rests(TryAcquire(k, l).sched, k.sched.running, if Barred(k, l) then InAcquire(l) else User, false)
  {
    assert LockOk(k, l);
    if Barred(k, l) { SleepRests(k.sched, LockChan(l), InAcquire(l)); }
  }

  lemma ResumeRests(k: Kernel)
    requires Inv(k) && !k.sched.halted && Me(k.sched).pc != User
    ensures Rests(GoOn(k).sched, k.sched.running, Resumed(k, Me(k.sched).pc), Ends(k, Continue))
  {
    var me := k.sched.running;
    assert Shape(k, me) && PcOk(k, k.sched.threads[me].pc);
    match Me(k.sched).pc {
      case Starting => ExorciseConserves(k.sched);
      case InP(s, after) => PRests(k, s, after);
      case InAcquire(l) => AcquireRests(k, l);
      case InCv(_, l) => AcquireRests(k, l);
      case Reacquiring(l) => AcquireRests(k, l);
    }
  }

  /** After every action but a yield: a caller that has not returned sleeps on the channel of
      what it waits for, one that has ended is a zombie, and one that has returned still runs. */
  lemma StepRests(k: Kernel, a: Action)
    requires Inv(k) && Enabled(k, a) && a != DoYield
    ensures Rests(Step(k, a).sched, k.sched.running, NextPc(k, a), Ends(k, a))
  {
    match a {
      case Continue => ResumeRests(k);
      case DoP(s) => PRests(k, UserSem(s), Return);
      case DoV(s) => WakeKeepsRunning(k.sched, SemChan(UserSem(s))); VMoves(k, UserSem(s));
      case DoAcquire(l) => AcquireRests(k, l);
      case DoRelease(l) => ReleaseKeeps(k, l); ReleaseMoves(k, l);
      case DoWait(cv, l) => CvRests(k, cv, l);
      case DoSignal(cv, l) => CvRests(k, cv, l);
      case DoBroadcast(cv, l) => CvRests(k, cv, l);
      case DoFork(joinable) =>
      case DoJoin(c) =>
        JoinCallMoves(k, c);
        PRests(k, PSem(c), ThenJoin(c));
      case DoExit(v) => ExitRests(k, v);
      case NewSem(_, _) =>
      case NewLock(_) =>
    }
  }
}
