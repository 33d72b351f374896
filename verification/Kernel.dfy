/**
 The uniprocessor kernel as a step machine: semaphores, sleep locks and condition
 variables (synch/semaphore.c, synch/lock.c, synch/cv.c) and the fork, exit and
 join protocol (thread/thread.c), over the scheduler.

 One step is what runs between two points where another thread can be
 dispatched: spinlock regions run with interrupts off (module Interrupts), and
 thread_exit and thread_join run with interrupts off throughout.
 */
module Kernel {
  import opened Basics
  import opened Scheduler

  const UINT_MAX: nat := 0xFFFF_FFFF

  datatype Semaphore = Semaphore(count: nat)

  datatype Lock = Lock(owner: Option<Tid>, count: nat)

  /** unjoined[c] is the parent of the joinable thread c until it has joined c.
      exits and joins are the values passed to thread_exit and read by thread_join. */
  datatype Kernel = Kernel(
    sched: Sched,
    sems: map<Sem, Semaphore>,
    locks: map<nat, Lock>,
    unjoined: map<Tid, Tid>,
    exits: map<Tid, int>,
    joins: map<Tid, int>,
    fault: bool              // a source assertion failed or freed memory was used
  )

  function Fault(k: Kernel): Kernel { k.(fault := true) }

  // ---------------------------------------------------- synch/semaphore.c

  function V(k: Kernel, s: Sem): Kernel {
    if s !in k.sems then Fault(k)
    else
      var sem := k.sems[s];
      k.(sems := k.sems[s := Semaphore(sem.count + 1)],
         sched := WakeOne(k.sched, SemChan(s)),
         fault := k.fault || sem.count >= UINT_MAX)
  }

  /** P has found the count positive: take one. */
  function Take(k: Kernel, s: Sem): Kernel
    requires s in k.sems && k.sems[s].count > 0
  {
    var sem := k.sems[s];
    k.(sems := k.sems[s := Semaphore(sem.count - 1)], sched := SetPc(k.sched, User))
  }

  /** The loop test of P, on the first try and after every wakeup. */
  function TryP(k: Kernel, s: Sem, after: After): Kernel {
    if s !in k.sems then Fault(k)
    else if k.sems[s].count == 0 then k.(sched := SleepOn(k.sched, SemChan(s), InP(s, after)))
    else
      match after
      case Return => Take(k, s)
      case ThenJoin(c) => FinishJoin(Take(k, s), c)
      case ThenExit => FinishExit(Take(k, s))
  }

  // --------------------------------------------------------- synch/lock.c

  predicate Owns(k: Kernel, l: nat) { l in k.locks && k.locks[l].owner == Some(k.sched.running) }

  /** lock_acquire, from its first test on and after every wakeup. */
  function TryAcquire(k: Kernel, l: nat): Kernel {
    if l !in k.locks then Fault(k)
    else
      var lock := k.locks[l];
      var me := k.sched.running;
      if lock.owner != Some(me) && lock.count > 0 then
        k.(sched := SleepOn(k.sched, LockChan(l), InAcquire(l)))
      else
        k.(locks := k.locks[l := Lock(Some(me), lock.count + 1)],
           sched := SetPc(k.sched, User),
           fault := k.fault || (lock.owner.Some? && lock.owner != Some(me)))
  }

  function Release(k: Kernel, l: nat): Kernel {
    if !Owns(k, l) || k.locks[l].count == 0 then Fault(k)
    else
      var lock := k.locks[l];
      if lock.count == 1 then
        k.(locks := k.locks[l := Lock(None, 0)], sched := WakeOne(k.sched, LockChan(l)))
      else
        k.(locks := k.locks[l := Lock(lock.owner, lock.count - 1)])
  }

  // ----------------------------------------------------------- synch/cv.c

  function CvWait(k: Kernel, cv: nat, l: nat): Kernel {
    var k1 := Release(k, l);
    k1.(sched := SleepOn(k1.sched, CvChan(cv), InCv(cv, l)))
  }

  function CvSignal(k: Kernel, cv: nat, l: nat): Kernel {
    var k1 := Release(k, l);
    k1.(sched := SetPc(WakeOne(k1.sched, CvChan(cv)), Reacquiring(l)))
  }

  function CvBroadcast(k: Kernel, cv: nat, l: nat): Kernel {
    var k1 := Release(k, l);
    k1.(sched := SetPc(WakeAll(k1.sched, CvChan(cv)), Reacquiring(l)))
  }

  // ------------------------------------------------------ fork, exit, join

  function Fork(k: Kernel, joinable: bool): Kernel {
    var n := k.sched.nextTid;
    if joinable then
      k.(sched := Spawn(k.sched, Some(k.sched.running)),
         sems := k.sems[PSem(n) := Semaphore(0)][CSem(n) := Semaphore(0)],
         unjoined := k.unjoined[n := k.sched.running])
    else
      k.(sched := Spawn(k.sched, None))
  }

  function Exit(k: Kernel, v: int): Kernel {
    var me := k.sched.running;
    var k1 := k.(sched := Put(k.sched, me, Me(k.sched).(rval := v)), exits := k.exits[me := v]);
    if Me(k.sched).parent.Some? then TryP(V(k1, PSem(me)), CSem(me), ThenExit)
    else k1.(sched := Leave(k1.sched))
  }

  /** thread_exit after P(csem): both semaphores go, and their wait channels must be
      empty. */
  function FinishExit(k: Kernel): Kernel {
    var me := k.sched.running;
    k.(sems := k.sems - {PSem(me), CSem(me)},
       sched := Leave(Put(k.sched, me, Me(k.sched).(parent := None))),
       fault := k.fault || Queue(k.sched, SemChan(PSem(me))) != [] || Queue(k.sched, SemChan(CSem(me))) != [])
  }

  function Join(k: Kernel, c: Tid): Kernel {
    if c == k.sched.running || c !in k.sched.threads || k.sched.threads[c].parent != Some(k.sched.running) then Fault(k)
    else TryP(k, PSem(c), ThenJoin(c))
  }

  /** thread_join after P(psem): V(csem), then the child's rval is read. */
  function FinishJoin(k: Kernel, c: Tid): Kernel {
    var k1 := V(k, CSem(c));
    k1.(joins := k1.joins[c := Get(k1.sched, c).rval],
        unjoined := k1.unjoined - {c},
        sched := Put(k1.sched, c, Get(k1.sched, c).(parent := None)),
        fault := k1.fault || c !in k1.sched.threads || k1.sched.threads[c].state == Zombie)
  }

  // ------------------------------------------------------------------ steps

  datatype Action =
    | DoP(s: nat) | DoV(s: nat)
    | DoAcquire(l: nat) | DoRelease(l: nat)
    | DoWait(cv: nat, l: nat) | DoSignal(cv: nat, l: nat) | DoBroadcast(cv: nat, l: nat)
    | DoFork(joinable: bool) | DoJoin(c: Tid) | DoExit(v: int)
    | DoYield            // thread_yield, or the timer interrupt
    | Continue           // go on inside a primitive, after a wakeup or a preemption
    | NewSem(s: nat, n: nat) | NewLock(l: nat)

  /** What the running thread may do next. Of its clients the source asks this much:
      existing semaphores and locks, no V on a full semaphore, no release of a lock
      they do not hold, and a join only by the parent and only once. */
  predicate Enabled(k: Kernel, a: Action) {
    && !k.sched.halted && k.sched.running in k.sched.threads
    && var pc := Me(k.sched).pc;
       match a
       case DoYield => true
       case Continue => pc != User
       case DoP(s) => pc == User && UserSem(s) in k.sems
       case DoV(s) => pc == User && UserSem(s) in k.sems && k.sems[UserSem(s)].count < UINT_MAX
       case DoAcquire(l) => pc == User && l in k.locks
       case DoRelease(l) => pc == User && Owns(k, l)
       case DoWait(cv, l) => pc == User && Owns(k, l)
       case DoSignal(cv, l) => pc == User && Owns(k, l)
       case DoBroadcast(cv, l) => pc == User && Owns(k, l)
       case DoFork(_) => pc == User
       case DoJoin(c) => pc == User && c in k.unjoined && k.unjoined[c] == k.sched.running
       case DoExit(_) => pc == User
       case NewSem(s, _) => pc == User && UserSem(s) !in k.sems
       case NewLock(l) => pc == User && l !in k.locks
  }

  function GoOn(k: Kernel): Kernel {
    match Me(k.sched).pc
    case Starting => k.(sched := SetPc(Exorcise(k.sched), User))
    case InP(s, after) => TryP(k, s, after)
    case InAcquire(l) => TryAcquire(k, l)
    case InCv(_, l) => TryAcquire(k, l)
    case Reacquiring(l) => TryAcquire(k, l)
    case User => k
  }

  function Step(k: Kernel, a: Action): Kernel {
    match a
    case DoYield => k.(sched := Yield(k.sched))
    case Continue => GoOn(k)
    case DoP(s) => TryP(k, UserSem(s), Return)
    case DoV(s) => V(k, UserSem(s))
    case DoAcquire(l) => TryAcquire(k, l)
    case DoRelease(l) => Release(k, l)
    case DoWait(cv, l) => CvWait(k, cv, l)
    case DoSignal(cv, l) => CvSignal(k, cv, l)
    case DoBroadcast(cv, l) => CvBroadcast(k, cv, l)
    case DoFork(joinable) => Fork(k, joinable)
    case DoJoin(c) => Join(k, c)
    case DoExit(v) => Exit(k, v)
    case NewSem(s, n) => k.(sems := k.sems[UserSem(s) := Semaphore(n)])
    case NewLock(l) => k.(locks := k.locks[l := Lock(None, 0)])
  }

  /** The boot thread, alone. */
  function Boot(): Kernel {
    Kernel(Sched(map[0 := Thread(Run, User, true, None, -1)], 0, [], [], map[], 1, 0, false, false),
           map[], map[], map[], map[], map[], false)
  }

  /** A run: the actions taken from k on, each enabled when it is taken. */
  ghost predicate Runs(k: Kernel, actions: seq<Action>, k': Kernel)
    decreases |actions|
  {
    if actions == [] then k' == k
    else Enabled(k, actions[0]) && Runs(Step(k, actions[0]), actions[1..], k')
  }

  /** The state after some actions. */
  function Reach(k: Kernel, actions: seq<Action>): Kernel
    decreases |actions|
  {
    if actions == [] then k else Reach(Step(k, actions[0]), actions[1..])
  }

  /** The i-th action is a, and thread t takes it. */
  predicate Does(k: Kernel, actions: seq<Action>, i: nat, t: Tid, a: Action) {
    i < |actions| && actions[i] == a && Reach(k, actions[..i]).sched.running == t
  }

  lemma DoesLater(k: Kernel, actions: seq<Action>, i: nat, t: Tid, a: Action)
    requires actions != []
    ensures Does(Step(k, actions[0]), actions[1..], i, t, a) <==> Does(k, actions, i + 1, t, a)
  {
    if i + 1 < |actions| { assert actions[..i + 1][1..] == actions[1..][..i]; }
  }

  lemma ReachLater(k: Kernel, actions: seq<Action>, j: nat)
    requires j < |actions|
    ensures Reach(k, actions[..j + 1]) == Reach(Step(k, actions[0]), actions[1..][..j])
  {
    assert actions[..j + 1][1..] == actions[1..][..j];
  }
}
