/**
 Scheduler and wait channels on one CPU (thread/thread.c, synch/wchan.c): the
 running thread, a FIFO run queue, one FIFO per wait channel, the zombie list.
 */
module Scheduler {
  import opened Basics

  /** A joinable thread c comes with its two private semaphores psem and csem. */
  datatype Sem = UserSem(id: nat) | PSem(c: Tid) | CSem(c: Tid)

  datatype Chan = SemChan(s: Sem) | LockChan(l: nat) | CvChan(cv: nat)

  datatype State = Run | Ready | Sleep(ch: Chan) | Zombie

  /** What P continues with: its caller, the rest of thread_join or of thread_exit. */
  datatype After = Return | ThenJoin(c: Tid) | ThenExit

  /** Where a thread is: new, in its own code, or inside a primitive that may have
      to sleep and test again. */
  datatype Pc =
    | Starting
    | User
    | InP(s: Sem, after: After)
    | InAcquire(l: nat)
    | InCv(cv: nat, l: nat)
    | Reacquiring(l: nat)    // at the end of cv_signal and cv_broadcast

  datatype Thread = Thread(state: State, pc: Pc, hasProc: bool, parent: Option<Tid>, rval: int)

  datatype Sched = Sched(
    threads: map<Tid, Thread>,   // forked and not destroyed
    running: Tid,
    ready: seq<Tid>,
    zombies: seq<Tid>,
    waiting: map<Chan, seq<Tid>>,
    nextTid: nat,
    dispatches: nat,             // dispatches so far
    halted: bool,                // the run queue was empty at a dispatch
    fault: bool                  // a source assertion failed or a destroyed thread was used
  )

  function Queue(s: Sched, ch: Chan): seq<Tid> { if ch in s.waiting then s.waiting[ch] else [] }

  function Get(s: Sched, t: Tid): Thread {
    if t in s.threads then s.threads[t] else Thread(Zombie, User, false, None, 0)
  }

  function Me(s: Sched): Thread { Get(s, s.running) }

  /** Replace the record of thread t. */
  function Put(s: Sched, t: Tid, th: Thread): Sched {
    s.(threads := s.threads[t := th], fault := s.fault || t !in s.threads)
  }

  function SetPc(s: Sched, pc: Pc): Sched { Put(s, s.running, Me(s).(pc := pc)) }

  /** The end of thread_switch: take the head of the run queue and load its page
      directory; an empty run queue halts in cpu_idle. */
  function Dispatch(s: Sched): Sched {
    if s.ready == [] then s.(halted := true)
    else
      var next := s.ready[0];
      s.(threads := s.threads[next := Get(s, next).(state := Run)],
         running := next,
         ready := s.ready[1..],
         dispatches := s.dispatches + 1,
         fault := s.fault || next !in s.threads || !s.threads[next].hasProc)
  }

  /** thread_exorcise: destroy every zombie. */
  function Exorcise(s: Sched): Sched {
    s.(threads := s.threads - (set t | t in s.zombies),
       zombies := [],
       fault := s.fault || s.running in s.zombies
                || exists t | t in s.zombies :: t !in s.threads || s.threads[t].state != Zombie || s.threads[t].hasProc)
  }

  function Requeue(s: Sched): Sched {
    Put(s, s.running, Me(s).(state := Ready)).(ready := s.ready + [s.running])
  }

  /** thread_switch(S_READY). */
  function Yield(s: Sched): Sched {
    if Exorcise(s).ready == [] then Exorcise(s) else Dispatch(Requeue(Exorcise(s)))
  }

  function Park(s: Sched, ch: Chan, pc: Pc): Sched {
    Put(s, s.running, Me(s).(state := Sleep(ch), pc := pc)).(waiting := s.waiting[ch := Queue(s, ch) + [s.running]])
  }

  /** thread_switch(S_SLEEP) from inside a primitive. */
  function SleepOn(s: Sched, ch: Chan, pc: Pc): Sched { Dispatch(Park(s, ch, pc)) }

  function Bury(s: Sched): Sched {
    Put(s, s.running, Me(s).(state := Zombie)).(zombies := s.zombies + [s.running])
  }

  /** thread_switch(S_ZOMBIE). */
  function Die(s: Sched): Sched { Dispatch(Bury(Exorcise(s))) }

  /** proc_remthread, then thread_switch(S_ZOMBIE). */
  function Leave(s: Sched): Sched {
    Die(Put(s, s.running, Me(s).(hasProc := false)).(fault := s.fault || s.running !in s.threads || !Me(s).hasProc))
  }

  /** The scheduling half of thread_fork: a new thread at the end of the run queue. */
  function Spawn(s: Sched, parent: Option<Tid>): Sched {
    s.(threads := s.threads[s.nextTid := Thread(Ready, Starting, true, parent, -1)],
       nextTid := s.nextTid + 1,
       ready := s.ready + [s.nextTid],
       fault := s.fault || !Me(s).hasProc)
  }

  function WakeOne(s: Sched, ch: Chan): Sched {
    if Queue(s, ch) == [] then s
    else
      var t := Queue(s, ch)[0];
      Put(s, t, Get(s, t).(state := Ready)).(ready := s.ready + [t], waiting := s.waiting[ch := Queue(s, ch)[1..]])
  }

  function WakeAll(s: Sched, ch: Chan): Sched
    decreases |Queue(s, ch)|
  {
    if Queue(s, ch) == [] then s else WakeAll(WakeOne(s, ch), ch)
  }

  // ------------------------------------------------------------ conservation

  ghost predicate Distinct(s: seq<Tid>) { forall i, j | 0 <= i < j < |s| :: s[i] != s[j] }

  /** Thread t is on the list its state names. */
  ghost predicate InPlace(s: Sched, t: Tid)
    requires t in s.threads
  {
    match s.threads[t].state
    case Run => t == s.running && !s.halted
    case Ready => t in s.ready
    case Sleep(ch) => t in Queue(s, ch)
    case Zombie => t in s.zombies
  }

  ghost predicate ListOk(s: Sched, list: seq<Tid>, st: State)
  {
    Distinct(list) && forall t | t in list :: t in s.threads && s.threads[t].state == st
  }

  /** Apart from the running thread, every thread is in exactly one place; threads
      that can be dispatched have a process; nothing has gone wrong. */
  ghost predicate Orderly(s: Sched)
  {
    && (forall t | t in s.threads :: InPlace(s, t))
    && ListOk(s, s.ready, Ready) && ListOk(s, s.zombies, Zombie)
    && (forall ch :: ListOk(s, Queue(s, ch), Sleep(ch)))
    && s.running in s.threads
    && (forall t | t in s.threads :: t < s.nextTid)
    && (forall t | t in s.threads && t != s.running && s.threads[t].state != Zombie :: s.threads[t].hasProc)
    && (forall t | t in s.zombies :: !s.threads[t].hasProc)
    && !s.fault
  }

  /** Thread conservation: with the running thread in state S_RUN, every thread that
      is forked and not destroyed is running, on the run queue, on one wait channel
      or on the zombie list, as its state says. */
  ghost predicate Conserved(s: Sched)
  {
    && Orderly(s)
    && (!s.halted ==> s.threads[s.running].state == Run)
    && (s.threads[s.running].state != Zombie ==> s.threads[s.running].hasProc)
  }

  /** The running thread has been put on another list and Dispatch is due. */
  ghost predicate Parked(s: Sched)
  {
    && Orderly(s) && !s.halted && s.threads[s.running].state != Run
    && (s.threads[s.running].state != Zombie ==> s.threads[s.running].hasProc)
  }

  lemma DistinctAppend(s: seq<Tid>, t: Tid)
    requires Distinct(s) && t !in s
    ensures Distinct(s + [t])
  {
  }

  lemma DistinctTail(s: seq<Tid>)
    requires Distinct(s) && s != []
    ensures Distinct(s[1..]) && s[0] !in s[1..] && forall t :: t in s <==> t == s[0] || t in s[1..]
  {
    assert s == [s[0]] + s[1..];
  }

  lemma DispatchConserves(s: Sched)
    requires Parked(s)
    ensures Conserved(Dispatch(s))
  {
    if s.ready != [] {
      DistinctTail(s.ready);
      var s' := Dispatch(s);
      assert s.ready[0] in s.ready;
      forall ch ensures ListOk(s', Queue(s', ch), Sleep(ch)) { assert ListOk(s, Queue(s, ch), Sleep(ch)); }
      forall t | t in s'.threads ensures InPlace(s', t) { assert InPlace(s, t); }
    } else {
      forall t | t in s.threads ensures InPlace(s.(halted := true), t) { assert InPlace(s, t); }
    }
  }

  lemma ParkOrderly(s: Sched, ch: Chan, pc: Pc)
    requires Conserved(s) && !s.halted
    ensures Parked(Park(s, ch, pc))
  {
    var s' := Park(s, ch, pc);
    forall c ensures ListOk(s', Queue(s', c), Sleep(c)) {
      assert ListOk(s, Queue(s, c), Sleep(c));
      if c == ch { DistinctAppend(Queue(s, ch), s.running); }
    }
    forall t | t in s'.threads ensures InPlace(s', t) { assert InPlace(s, t); }
  }

  /** The head of the run queue runs and the rest moves up; without one the kernel halts. */
  ghost predicate HeadRuns(s: Sched, s': Sched) {
    if s.ready == [] then s'.halted
    else
      && s'.running == s.ready[0] && s'.ready == s.ready[1..]
      && s'.dispatches == s.dispatches + 1 && s'.halted == s.halted
  }

  lemma SleepConserves(s: Sched, ch: Chan, pc: Pc)
    requires Conserved(s) && !s.halted
    ensures Conserved(SleepOn(s, ch, pc)) && HeadRuns(s, SleepOn(s, ch, pc))
    ensures forall x :: Queue(SleepOn(s, ch, pc), x) == if x == ch then Queue(s, ch) + [s.running] else Queue(s, x)
  {
    ParkOrderly(s, ch, pc);
    DispatchConserves(Park(s, ch, pc));
  }

  lemma WakeConserves(s: Sched, ch: Chan)
    requires Conserved(s)
    ensures Conserved(WakeOne(s, ch))
    ensures Queue(s, ch) == [] ==> WakeOne(s, ch) == s
    ensures Queue(s, ch) != [] ==>
              && Queue(s, ch) == [Queue(s, ch)[0]] + Queue(WakeOne(s, ch), ch)
              && WakeOne(s, ch).ready == s.ready + [Queue(s, ch)[0]]
  {
    var q := Queue(s, ch);
    assert ListOk(s, q, Sleep(ch));
    if q != [] {
      DistinctTail(q);
      var s' := WakeOne(s, ch);
      assert q[0] in q;
      DistinctAppend(s.ready, q[0]);
      forall c ensures ListOk(s', Queue(s', c), Sleep(c)) { assert ListOk(s, Queue(s, c), Sleep(c)); }
      forall t | t in s'.threads ensures InPlace(s', t) { assert InPlace(s, t); }
    }
  }

  lemma {:induction false} WakeAllConserves(s: Sched, ch: Chan)
    requires Conserved(s)
    ensures Conserved(WakeAll(s, ch)) && Queue(WakeAll(s, ch), ch) == []
    ensures WakeAll(s, ch).ready == s.ready + Queue(s, ch)
    decreases |Queue(s, ch)|
  {
    if Queue(s, ch) != [] {
      WakeConserves(s, ch);
      WakeAllConserves(WakeOne(s, ch), ch);
    }
  }

  /** Only the sleepers of the channel change, and they become ready. */
  lemma {:induction false} WakeAllWakes(s: Sched, ch: Chan)
    requires Conserved(s)
    ensures WakeAll(s, ch).running == s.running && WakeAll(s, ch).threads.Keys == s.threads.Keys
    ensures forall x | x != ch :: Queue(WakeAll(s, ch), x) == Queue(s, x)
    ensures forall t | t in s.threads ::
              WakeAll(s, ch).threads[t] == if t in Queue(s, ch) then s.threads[t].(state := Ready) else s.threads[t]
    decreases |Queue(s, ch)|
  {
    var q := Queue(s, ch);
    assert ListOk(s, q, Sleep(ch));
    if q != [] {
      assert q[0] in q;
      WakeConserves(s, ch);
      DistinctTail(q);
      WakeAllWakes(WakeOne(s, ch), ch);
    }
  }

  lemma ExorciseConserves(s: Sched)
    requires Orderly(s) && s.threads[s.running].state != Zombie
    ensures Orderly(Exorcise(s)) && Exorcise(s).threads.Keys == (set t | t in s.threads && s.threads[t].state != Zombie)
  {
    var s' := Exorcise(s);
    forall t | t in s.threads ensures t in s.zombies <==> s.threads[t].state == Zombie { assert InPlace(s, t); }
    forall ch ensures ListOk(s', Queue(s', ch), Sleep(ch)) { assert ListOk(s, Queue(s, ch), Sleep(ch)); }
    forall t | t in s'.threads ensures InPlace(s', t) { assert InPlace(s, t); }
  }

  lemma RequeueOrderly(s: Sched)
    requires Conserved(s) && !s.halted
    ensures Parked(Requeue(s))
  {
    var s' := Requeue(s);
    DistinctAppend(s.ready, s.running);
    forall ch ensures ListOk(s', Queue(s', ch), Sleep(ch)) { assert ListOk(s, Queue(s, ch), Sleep(ch)); }
    forall t | t in s'.threads ensures InPlace(s', t) { assert InPlace(s, t); }
  }

  lemma YieldOrderly(s: Sched)
    requires Conserved(s) && !s.halted
    ensures Conserved(Yield(s))
  {
    ExorciseConserves(s);
    if Exorcise(s).ready != [] {
      RequeueOrderly(Exorcise(s));
      DispatchConserves(Requeue(Exorcise(s)));
    }
  }

  /** A yield destroys the zombies and puts the running thread behind all others. */
  lemma YieldConserves(s: Sched)
    requires Conserved(s) && !s.halted
    ensures Conserved(Yield(s)) && !Yield(s).halted
    ensures Yield(s).threads.Keys == (set t | t in s.threads && s.threads[t].state != Zombie) && Yield(s).zombies == []
    ensures s.ready != [] ==>
              && Yield(s).running == s.ready[0] && Yield(s).ready == s.ready[1..] + [s.running]
              && Yield(s).dispatches == s.dispatches + 1
    ensures s.ready == [] ==>
              Yield(s).running == s.running && Yield(s).ready == [] && Yield(s).dispatches == s.dispatches
  {
    YieldOrderly(s);
    ExorciseConserves(s);
    if s.ready != [] {
      assert s.ready[0] in s.ready && (s.ready + [s.running])[1..] == s.ready[1..] + [s.running];
    }
  }

  /** s' differs from s at most in what threads record besides state and process. */
  ghost predicate SameLists(s: Sched, s': Sched)
  {
    && s'.threads.Keys == s.threads.Keys
    && (forall t | t in s.threads ::
        s'.threads[t].state == s.threads[t].state && s'.threads[t].hasProc == s.threads[t].hasProc)
    && s' == s.(threads := s'.threads)
  }

  lemma SameListsConserve(s: Sched, s': Sched)
    requires Conserved(s) && SameLists(s, s')
    ensures Conserved(s')
  {
    forall ch ensures ListOk(s', Queue(s', ch), Sleep(ch)) { assert ListOk(s, Queue(s, ch), Sleep(ch)); }
    forall t | t in s'.threads ensures InPlace(s', t) { assert InPlace(s, t); }
  }

  lemma SetPcConserves(s: Sched, pc: Pc)
    requires Conserved(s)
    ensures Conserved(SetPc(s, pc))
  {
    SameListsConserve(s, SetPc(s, pc));
  }

  lemma SpawnConserves(s: Sched, parent: Option<Tid>)
    requires Conserved(s) && !s.halted
    ensures Conserved(Spawn(s, parent)) && s.nextTid !in s.threads
    ensures Spawn(s, parent).ready == s.ready + [s.nextTid] && Spawn(s, parent).running == s.running
  {
    var n, s' := s.nextTid, Spawn(s, parent);
    DistinctAppend(s.ready, n);
    forall ch ensures ListOk(s', Queue(s', ch), Sleep(ch)) { assert ListOk(s, Queue(s, ch), Sleep(ch)); }
    forall t | t in s'.threads ensures InPlace(s', t) { if t != n { assert InPlace(s, t); } }
  }

  lemma BuryOrderly(s: Sched)
    requires Orderly(s) && !s.halted && s.threads[s.running].state == Run && !s.threads[s.running].hasProc
    ensures Parked(Bury(s))
  {
    var s' := Bury(s);
    DistinctAppend(s.zombies, s.running);
    forall ch ensures ListOk(s', Queue(s', ch), Sleep(ch)) { assert ListOk(s, Queue(s, ch), Sleep(ch)); }
    forall t | t in s'.threads ensures InPlace(s', t) { assert InPlace(s, t); }
  }

  lemma LeavingOrderly(s: Sched)
    requires Conserved(s) && !s.halted
    ensures Orderly(Put(s, s.running, Me(s).(hasProc := false)))
  {
    var s1 := Put(s, s.running, Me(s).(hasProc := false));
    forall ch ensures ListOk(s1, Queue(s1, ch), Sleep(ch)) { assert ListOk(s, Queue(s, ch), Sleep(ch)); }
    forall t | t in s1.threads ensures InPlace(s1, t) { assert InPlace(s, t); }
  }

  lemma LeaveOrderly(s: Sched)
    requires Conserved(s) && !s.halted
    ensures Conserved(Leave(s))
  {
    var s1 := Put(s, s.running, Me(s).(hasProc := false));
    LeavingOrderly(s);
    ExorciseConserves(s1);
    BuryOrderly(Exorcise(s1));
    DispatchConserves(Bury(Exorcise(s1)));
  }

  lemma LeaveTurns(s: Sched, s1: Sched)
    requires s1 == Put(s, s.running, Me(s).(hasProc := false)) && Orderly(s1) && s.running in s.threads
    requires s.threads[s.running].state == Run && ListOk(s, s.ready, Ready)
    ensures HeadRuns(s, Leave(s)) && Leave(s).zombies == [s.running]
    ensures Leave(s).threads.Keys == (set t | t in s.threads && s.threads[t].state != Zombie)
  {
    ExorciseConserves(s1);
    assert Exorcise(s1).threads.Keys == (set t | t in s.threads && s.threads[t].state != Zombie);
    if s.ready != [] { assert s.ready[0] in s.ready; }
  }

  /** A thread that leaves is the only zombie afterwards, and the head of the run queue runs. */
  lemma LeaveConserves(s: Sched)
    requires Conserved(s) && !s.halted
    ensures Conserved(Leave(s)) && HeadRuns(s, Leave(s)) && Leave(s).zombies == [s.running]
    ensures Leave(s).threads.Keys == (set t | t in s.threads && s.threads[t].state != Zombie)
  {
    LeaveOrderly(s);
    LeavingOrderly(s);
    LeaveTurns(s, Put(s, s.running, Me(s).(hasProc := false)));
  }
}
