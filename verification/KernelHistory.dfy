/**
 What every run of the kernel comes to, told of the actions and the threads that take them:
 semaphores count the calls of P and V, locks those of acquire and release, and a join reads
 what the child gave to thread_exit.
 */
module KernelHistory {
  import opened Basics
  import opened Scheduler
  import opened Wakeups
  import opened Kernel
  import opened Synch
  import opened Joining
  import opened KernelRuns
  import opened KernelSteps

  function One(b: bool): nat { if b then 1 else 0 }

  /** The objects an action is about are there. */
  ghost predicate Sane(k: Kernel, a: Action) {
    var me, pc := k.sched.running, Me(k.sched).pc;
    && me in k.sched.threads && PcOk(k, pc)
    && (pc.InP? ==>
          match pc.after
          case Return => pc.s.UserSem?
          case ThenExit => pc.s == CSem(me)
          case ThenJoin(c) => pc.s == PSem(c) && (Count(k, pc.s) > 0 ==> CSem(c) in k.sems))
    && (a.DoJoin? ==> Join(k, a.c) == TryP(k, PSem(a.c), ThenJoin(a.c)) && PSem(a.c) in k.sems)
    && (a.DoJoin? ==> Count(k, PSem(a.c)) > 0 ==> CSem(a.c) in k.sems)
    && (a.DoExit? && Me(k.sched).parent.Some? ==> PSem(me) in k.sems && CSem(me) in k.sems && Count(k, CSem(me)) == 0)
    && (forall l | l in k.locks :: k.locks[l].owner.Some? <==> k.locks[l].count > 0)
  }

  lemma InvSane(k: Kernel, a: Action)
    requires Inv(k) && Enabled(k, a)
    ensures Sane(k, a)
  {
    var me := k.sched.running;
    assert Shape(k, me) && PcOk(k, k.sched.threads[me].pc);
    forall l | l in k.locks ensures k.locks[l].owner.Some? <==> k.locks[l].count > 0 { assert LockOk(k, l); }
    if a.DoJoin? {
      JoinCallMoves(k, a.c);
      if Count(k, PSem(a.c)) > 0 { JoinedState(k, a.c); }
    }
    if Me(k.sched).pc.InP? && Me(k.sched).pc.after.ThenJoin? && Count(k, Me(k.sched).pc.s) > 0 {
      JoinedState(k, Me(k.sched).pc.after.c);
    }
    if a.DoExit? && Me(k.sched).parent.Some? { ExitSleeps(k, a.v); }
  }

  predicate SameSem(k: Kernel, k': Kernel, x: nat) {
    (UserSem(x) in k'.sems <==> UserSem(x) in k.sems) && Count(k', UserSem(x)) == Count(k, UserSem(x))
  }

  predicate SameRecord(k: Kernel, k': Kernel) {
    k'.exits == k.exits && k'.joins == k.joins && k'.unjoined == k.unjoined
  }

  /** P leaves all but its semaphore, or when it ends a join, the records, alone. */
  lemma PEffect(k: Kernel, s: Sem, after: After, x: nat)
    requires s in k.sems
    requires match after
      case Return => true
      case ThenExit => !s.UserSem?
      case ThenJoin(c) => s == PSem(c) && (Count(k, s) > 0 ==> CSem(c) in k.sems)
    ensures var k' := TryP(k, s, after);
      && k'.locks == k.locks && k'.exits == k.exits && (UserSem(x) in k'.sems <==> UserSem(x) in k.sems)
      && Count(k', UserSem(x)) + One(s == UserSem(x) && Count(k, s) > 0) == Count(k, UserSem(x))
      && (!(after.ThenJoin? && Count(k, s) > 0) ==> SameRecord(k, k'))
  {
    if Count(k, s) > 0 {
      match after {
        case Return =>
        case ThenJoin(c) => JoinEffect(k, c, x);
        case ThenExit => EndEffect(Take(k, s), x);
      }
    }
  }

  lemma EndEffect(k: Kernel, x: nat)
    ensures SameSem(k, FinishExit(k), x) && SameRecord(k, FinishExit(k)) && FinishExit(k).locks == k.locks
  {
  }

  lemma JoinEffect(k: Kernel, c: Tid, x: nat)
    requires PSem(c) in k.sems && CSem(c) in k.sems && Count(k, PSem(c)) > 0
    ensures var k' := FinishJoin(Take(k, PSem(c)), c); SameSem(k, k', x) && k'.locks == k.locks && k'.exits == k.exits
  {
  }

  lemma AcquireEffect(k: Kernel, l: nat, x: nat)
    requires l in k.locks
    ensures SameSem(k, TryAcquire(k, l), x) && SameRecord(k, TryAcquire(k, l))
  {
  }

  lemma AcquireHolds(k: Kernel, y: nat, l: nat, t: Tid)
    requires y in k.locks && (k.locks[y].owner.Some? <==> k.locks[y].count > 0)
    ensures Holding(TryAcquire(k, y), l, t)
            == Holding(k, l, t) + if t == k.sched.running && y == l && !Barred(k, l) then 1 else 0
  {
  }

  lemma ReleaseEffect(k: Kernel, l: nat, x: nat)
    requires Owns(k, l) && k.locks[l].count > 0
    ensures SameSem(k, Release(k, l), x) && SameRecord(k, Release(k, l))
  {
  }

  lemma ReleaseHolds(k: Kernel, y: nat, l: nat, t: Tid)
    requires Owns(k, y) && k.locks[y].count > 0
    ensures Holding(Release(k, y), l, t) == Holding(k, l, t) - if t == k.sched.running && y == l then 1 else 0
  {
  }

  lemma ExitEffect(k: Kernel, v: int, x: nat)
    requires Sane(k, DoExit(v))
    ensures SameSem(k, Exit(k, v), x) && Exit(k, v).locks == k.locks
    ensures Exit(k, v).exits == k.exits[k.sched.running := v]
    ensures Exit(k, v).joins == k.joins && Exit(k, v).unjoined == k.unjoined
  {
  }

  /** What the calls other than P, join and fork do to semaphores and records. */
  lemma OtherEffect(k: Kernel, a: Action, x: nat)
    requires Sane(k, a) && Enabled(k, a) && !a.DoP? && !a.DoJoin? && !a.DoFork? && !a.Continue? && !a.DoV? && !a.NewSem?
    ensures SameSem(k, Step(k, a), x) && (!a.DoExit? ==> SameRecord(k, Step(k, a)))
  {
    match a {
      case DoAcquire(l) => AcquireEffect(k, l, x);
      case DoRelease(l) => ReleaseEffect(k, l, x);
      case DoWait(_, l) => ReleaseEffect(k, l, x);
      case DoSignal(_, l) => ReleaseEffect(k, l, x);
      case DoBroadcast(_, l) => ReleaseEffect(k, l, x);
      case DoExit(v) => ExitEffect(k, v, x);
      case DoYield =>
      case NewLock(_) =>
    }
  }

  lemma ResumeEffect(k: Kernel, x: nat)
    requires Sane(k, Continue) && Enabled(k, Continue)
    ensures var k', pc := GoOn(k), Me(k.sched).pc;
      && (UserSem(x) in k'.sems <==> UserSem(x) in k.sems)
      && Count(k', UserSem(x)) + One(pc.InP? && pc.s == UserSem(x) && Count(k, pc.s) > 0) == Count(k, UserSem(x))
      && (Joined(k, Continue).None? ==> SameRecord(k, k'))
  {
    match Me(k.sched).pc {
      case InP(s, after) => PEffect(k, s, after, x);
      case InAcquire(l) => AcquireEffect(k, l, x);
      case InCv(_, l) => AcquireEffect(k, l, x);
      case Reacquiring(l) => AcquireEffect(k, l, x);
      case Starting =>
    }
  }

  // -------------------------------------------------------------------- semaphores

  /** The threads inside P on a semaphore of theirs. */
  ghost function Blocked(k: Kernel, s: nat): set<Tid> {
    set t | t in k.sched.threads && k.sched.threads[t].pc == InP(UserSem(s), Return)
  }

  lemma Member(b: set<Tid>, b': set<Tid>, t: Tid)
    requires b - {t} == b' - {t}
    ensures |b| + One(t in b') == |b'| + One(t in b)
  {
    assert t in b ==> |b| == |b - {t}| + 1;
    assert t in b' ==> |b'| == |b' - {t}| + 1;
    assert t !in b ==> b - {t} == b;
    assert t !in b' ==> b' - {t} == b';
  }

  lemma BlockedMoves(k: Kernel, k': Kernel, me: Tid, pc: Pc, s: nat)
    requires Moves(k.sched, k'.sched, me, pc)
    ensures var p := InP(UserSem(s), Return);
      |Blocked(k', s)| + One(k.sched.threads[me].pc == p) == |Blocked(k, s)| + One(pc == p)
  {
    assert Blocked(k, s) - {me} == Blocked(k', s) - {me};
    Member(Blocked(k, s), Blocked(k', s), me);
  }

  /** The count goes up by V, and down when a P that was called or resumed returns. */
  lemma CountStep(k: Kernel, a: Action, s: nat)
    requires Sane(k, a) && Enabled(k, a) && UserSem(s) in k.sems
    ensures var p, k' := InP(UserSem(s), Return), Step(k, a);
      && UserSem(s) in k'.sems && !(a.NewSem? && a.s == s)
      && Count(k', UserSem(s)) + One(a == DoP(s)) + One(Me(k.sched).pc == p)
         == Count(k, UserSem(s)) + One(a == DoV(s)) + One(NextPc(k, a) == p)
  {
    match a {
      case Continue => ResumeEffect(k, s);
      case DoP(x) => PEffect(k, UserSem(x), Return, s);
      case DoJoin(c) => PEffect(k, PSem(c), ThenJoin(c), s);
      case DoV(_) =>
      case DoFork(_) =>
      case NewSem(_, _) =>
      case _ => OtherEffect(k, a, s);
    }
  }

  lemma CountBlocked(k: Kernel, a: Action, s: nat)
    requires Inv(k) && Enabled(k, a) && UserSem(s) in k.sems
    ensures var k' := Step(k, a);
      Count(k', UserSem(s)) + One(a == DoP(s)) + |Blocked(k, s)| ==
          Count(k, UserSem(s)) + One(a == DoV(s)) + |Blocked(k', s)|
  {
    InvSane(k, a);
    CountStep(k, a, s);
    StepMoves(k, a);
    BlockedMoves(k, Step(k, a), k.sched.running, NextPc(k, a), s);
  }

  lemma FirstAndRest(actions: seq<Action>, a: Action)
    requires actions != []
    ensures multiset(actions)[a] == One(actions[0] == a) + multiset(actions[1..])[a]
  {
    assert actions == [actions[0]] + actions[1..];
  }

  lemma {:induction false} RunCount(k: Kernel, actions: seq<Action>, k': Kernel, s: nat)
    requires Inv(k) && Runs(k, actions, k') && UserSem(s) in k.sems
    ensures UserSem(s) in k'.sems && forall n :: NewSem(s, n) !in actions
    ensures Count(k', UserSem(s)) + multiset(actions)[DoP(s)] + |Blocked(k, s)|
            == Count(k, UserSem(s)) + multiset(actions)[DoV(s)] + |Blocked(k', s)|
    decreases |actions|
  {
    if actions != [] {
      StepInv(k, actions[0]);
      InvSane(k, actions[0]);
      CountStep(k, actions[0], s);
      CountBlocked(k, actions[0], s);
      RunCount(Step(k, actions[0]), actions[1..], k', s);
      FirstAndRest(actions, DoP(s));
      FirstAndRest(actions, DoV(s));
    }
  }

  /** A semaphore appears by NewSem only. */
  lemma SemAppears(k: Kernel, a: Action, s: nat)
    requires Sane(k, a) && Enabled(k, a) && UserSem(s) !in k.sems
    ensures a != DoP(s) && a != DoV(s)
    ensures UserSem(s) in Step(k, a).sems <==> a.NewSem? && a.s == s
    ensures a.NewSem? && a.s == s ==> Step(k, a).sems[UserSem(s)].count == a.n && Step(k, a).sched == k.sched
  {
    match a {
      case Continue => ResumeEffect(k, s);
      case DoP(x) => PEffect(k, UserSem(x), Return, s);
      case DoJoin(c) => PEffect(k, PSem(c), ThenJoin(c), s);
      case DoV(_) =>
      case DoFork(_) =>
      case NewSem(_, _) =>
      case _ => OtherEffect(k, a, s);
    }
  }

  lemma NobodyInside(k: Kernel, s: nat)
    requires Inv(k) && UserSem(s) !in k.sems
    ensures Blocked(k, s) == {}
  {
    forall t | t in k.sched.threads ensures k.sched.threads[t].pc != InP(UserSem(s), Return) {
      assert PcOk(k, k.sched.threads[t].pc);
    }
  }

  /** Semaphore s holds its first count n, plus the calls of V, minus those of P that have
      returned. */
  ghost predicate Counted(k: Kernel, actions: seq<Action>, s: nat, n: nat) {
    && UserSem(s) in k.sems
    && k.sems[UserSem(s)].count + multiset(actions)[DoP(s)] == n + multiset(actions)[DoV(s)] + |Blocked(k, s)|
  }

  lemma {:induction false} SemLaw(k: Kernel, actions: seq<Action>, k': Kernel, s: nat, n: nat)
    requires Inv(k) && Runs(k, actions, k') && UserSem(s) !in k.sems && NewSem(s, n) in actions
    ensures Counted(k', actions, s, n)
    decreases |actions|
  {
    var a, k1 := actions[0], Step(k, actions[0]);
    StepInv(k, a);
    InvSane(k, a);
    SemAppears(k, a, s);
    NobodyInside(k, s);
    FirstAndRest(actions, DoP(s));
    FirstAndRest(actions, DoV(s));
    if UserSem(s) in k1.sems {
      assert Blocked(k1, s) == Blocked(k, s);
      RunCount(k1, actions[1..], k', s);
    } else {
      SemLaw(k1, actions[1..], k', s, n);
    }
  }

  // -------------------------------------------------------------------------- locks

  predicate AtLock(pc: Pc, l: nat) { pc == InAcquire(l) || pc == Reacquiring(l) || (pc.InCv? && pc.l == l) }

  /** Thread t is inside lock_acquire, or inside a cv call that has to end with it. */
  function Waiting(k: Kernel, l: nat, t: Tid): nat {
    One(t in k.sched.threads && AtLock(k.sched.threads[t].pc, l))
  }

  /** The calls of lock_acquire minus those of lock_release, by one thread. */
  function Taken(k: Kernel, actions: seq<Action>, l: nat, t: Tid): int
    decreases |actions|
  {
    if actions == [] then 0 else Call(k, actions[0], l, t) + Taken(Step(k, actions[0]), actions[1..], l, t)
  }

  function Call(k: Kernel, a: Action, l: nat, t: Tid): int {
    if k.sched.running != t then 0 else if a == DoAcquire(l) then 1 else if a == DoRelease(l) then -1 else 0
  }

  /** What an action does to its caller's hold on a lock. */
  function Gain(k: Kernel, a: Action, l: nat): int {
    match a
    case DoAcquire(x) => if x == l && !Barred(k, l) then 1 else 0
    case Continue => if AtLock(Me(k.sched).pc, l) && !Barred(k, l) then 1 else 0
    case DoRelease(x) => if x == l then -1 else 0
    case DoWait(_, x) => if x == l then -1 else 0
    case DoSignal(_, x) => if x == l then -1 else 0
    case DoBroadcast(_, x) => if x == l then -1 else 0
    case _ => 0
  }

  lemma HoldStep(k: Kernel, a: Action, l: nat, t: Tid)
    requires Sane(k, a) && Enabled(k, a)
    ensures Holding(Step(k, a), l, t) == Holding(k, l, t) + if t == k.sched.running then Gain(k, a, l) else 0
  {
    match a {
      case Continue => HoldResumed(k, l, t);
      case DoP(x) => PEffect(k, UserSem(x), Return, 0);
      case DoJoin(c) => PEffect(k, PSem(c), ThenJoin(c), 0);
      case DoAcquire(y) => AcquireHolds(k, y, l, t);
      case DoRelease(y) => ReleaseHolds(k, y, l, t);
      case DoWait(_, y) => ReleaseHolds(k, y, l, t);
      case DoSignal(_, y) => ReleaseHolds(k, y, l, t);
      case DoBroadcast(_, y) => ReleaseHolds(k, y, l, t);
      case DoExit(v) => ExitEffect(k, v, 0);
      case _ =>
    }
  }

  lemma HoldResumed(k: Kernel, l: nat, t: Tid)
    requires Sane(k, Continue) && Enabled(k, Continue)
    ensures Holding(GoOn(k), l, t) == Holding(k, l, t) + if t == k.sched.running then Gain(k, Continue, l) else 0
  {
    match Me(k.sched).pc {
      case InP(s, after) => PEffect(k, s, after, 0);
      case InAcquire(y) => AcquireHolds(k, y, l, t);
      case InCv(_, y) => AcquireHolds(k, y, l, t);
      case Reacquiring(y) => AcquireHolds(k, y, l, t);
      case Starting =>
    }
  }

  lemma WaitStep(k: Kernel, a: Action, l: nat, t: Tid, k': Kernel)
    requires Enabled(k, a) && Moves(k.sched, k'.sched, k.sched.running, NextPc(k, a))
    ensures if t == k.sched.running then Gain(k, a, l) + Waiting(k', l, t) == Waiting(k, l, t) + Call(k, a, l, t)
            else Waiting(k', l, t) == Waiting(k, l, t)
  {
  }

  lemma {:induction false} RunHolds(k: Kernel, actions: seq<Action>, k': Kernel, l: nat, t: Tid)
    requires Inv(k) && Runs(k, actions, k')
    ensures Holding(k', l, t) + Waiting(k', l, t) == Holding(k, l, t) + Waiting(k, l, t) + Taken(k, actions, l, t)
    decreases |actions|
  {
    if actions != [] {
      var a, k1 := actions[0], Step(k, actions[0]);
      StepInv(k, a);
      InvSane(k, a);
      HoldStep(k, a, l, t);
      StepMoves(k, a);
      WaitStep(k, a, l, t, k1);
      RunHolds(k1, actions[1..], k', l, t);
    }
  }

  /** lock_acquire and the cv calls return to an owner of the lock. */
  lemma ReturnsOwning(k: Kernel, a: Action, l: nat)
    requires Inv(k) && Enabled(k, a) && (a == DoAcquire(l) || AtLock(Me(k.sched).pc, l)) && NextPc(k, a) == User
    ensures l in Step(k, a).locks && Step(k, a).locks[l].owner == Some(k.sched.running)
  {
    InvSane(k, a);
    HoldStep(k, a, l, k.sched.running);
  }

  // ----------------------------------------------------------------- fork, exit, join

  /** The child whose join an action completes. */
  function Joined(k: Kernel, a: Action): Option<Tid> {
    match a
    case DoJoin(c) => if Count(k, PSem(c)) > 0 then Some(c) else None
    case Continue =>
      var pc := Me(k.sched).pc;
      if pc.InP? && pc.after.ThenJoin? && Count(k, pc.s) > 0 then Some(pc.after.c) else None
    case _ => None
  }

  lemma JoinRecords(k: Kernel, c: Tid)
    requires Inv(k) && PSem(c) in k.sems && Count(k, PSem(c)) > 0
    requires c in k.unjoined && k.unjoined[c] == k.sched.running
    ensures var k' := TryP(k, PSem(c), ThenJoin(c));
      k'.exits == k.exits && c in k.exits && k'.joins == k.joins[c := k.exits[c]] && k'.unjoined == k.unjoined - {c}
  {
    var s1 := SetPc(k.sched, User);
    JoinedState(k, c);
    if Queue(s1, SemChan(CSem(c))) != [] { assert Queue(s1, SemChan(CSem(c)))[0] == c; }
  }

  /** Who is recorded as exited, joined and to be joined. */
  lemma RecordStep(k: Kernel, a: Action)
    requires Inv(k) && Enabled(k, a)
    ensures Step(k, a).exits == if a.DoExit? then k.exits[k.sched.running := a.v] else k.exits
    ensures Joined(k, a).None? ==> Step(k, a).joins == k.joins
    ensures Joined(k, a).None? ==>
              Step(k, a).unjoined
              == if a == DoFork(true) then k.unjoined[k.sched.nextTid := k.sched.running] else k.unjoined
    ensures Joined(k, a).Some? ==>
              var c := Joined(k, a).value;
              && c in k.exits && c in k.unjoined && k.unjoined[c] == k.sched.running
              && Step(k, a).joins == k.joins[c := k.exits[c]] && Step(k, a).unjoined == k.unjoined - {c}
  {
    InvSane(k, a);
    if Joined(k, a).None? {
      QuietRecords(k, a);
    } else {
      assert Shape(k, k.sched.running);
      JoinRecords(k, Joined(k, a).value);
    }
  }

  lemma QuietRecords(k: Kernel, a: Action)
    requires Sane(k, a) && Enabled(k, a) && Joined(k, a).None?
    ensures Step(k, a).exits == if a.DoExit? then k.exits[k.sched.running := a.v] else k.exits
    ensures Step(k, a).joins == k.joins
    ensures Step(k, a).unjoined
            == if a == DoFork(true) then k.unjoined[k.sched.nextTid := k.sched.running] else k.unjoined
  {
    if a.DoExit? {
      ExitEffect(k, a.v, 0);
    } else if !a.DoFork? {
      NothingRecorded(k, a);
    }
  }

  lemma NothingRecorded(k: Kernel, a: Action)
    requires Sane(k, a) && Enabled(k, a) && Joined(k, a).None? && !a.DoExit? && !a.DoFork?
    ensures SameRecord(k, Step(k, a))
  {
    if a.Continue? {
      ResumeEffect(k, 0);
    } else if a.DoP? {
      PEffect(k, UserSem(a.s), Return, 0);
    } else if a.DoJoin? {
      PEffect(k, PSem(a.c), ThenJoin(a.c), 0);
    } else if !a.DoV? && !a.NewSem? {
      OtherEffect(k, a, 0);
    }
  }

  /** A thread that has called thread_exit does not come back to its own code. */
  ghost predicate Gone(k: Kernel, c: Tid) {
    c in k.sched.threads ==> Exiting(k.sched, c) || k.sched.threads[c].state == Zombie
  }

  lemma NoSecondExit(k: Kernel, a: Action)
    requires Inv(k) && Enabled(k, a) && Me(k.sched).pc == User
    ensures k.sched.running !in k.exits
  {
    assert TiesOk(k, k.sched.running);
  }

  lemma {:induction false} ExitsStay(k: Kernel, actions: seq<Action>, k': Kernel, c: Tid)
    requires Inv(k) && Runs(k, actions, k') && c in k.exits
    ensures c in k'.exits && k'.exits[c] == k.exits[c] && Gone(k', c)
    ensures forall i: nat, v :: !Does(k, actions, i, c, DoExit(v))
    decreases |actions|
  {
    assert TiesOk(k, c);
    if actions != [] {
      var a, k1 := actions[0], Step(k, actions[0]);
      StepInv(k, a);
      RecordStep(k, a);
      if a.DoExit? { NoSecondExit(k, a); }
      ExitsStay(k1, actions[1..], k', c);
      forall i: nat, v ensures !Does(k, actions, i, c, DoExit(v)) {
        if i > 0 { DoesLater(k, actions, i - 1, c, DoExit(v)); }
      }
    }
  }

  /** The value of a thread's thread_exit is recorded, the thread is gone, and it is its only
      one. */
  lemma {:induction false} ExitLaw(k: Kernel, actions: seq<Action>, k': Kernel, i: nat, c: Tid, v: int)
    requires Inv(k) && Runs(k, actions, k') && Does(k, actions, i, c, DoExit(v))
    ensures c in k'.exits && k'.exits[c] == v && Gone(k', c)
    ensures forall j: nat, w | Does(k, actions, j, c, DoExit(w)) :: j == i
    decreases |actions|
  {
    var a, k1 := actions[0], Step(k, actions[0]);
    StepInv(k, a);
    RecordStep(k, a);
    if i == 0 {
      ExitsStay(k1, actions[1..], k', c);
    } else {
      DoesLater(k, actions, i - 1, c, DoExit(v));
      ExitLaw(k1, actions[1..], k', i - 1, c, v);
      if c in k1.exits { ExitsStay(k1, actions[1..], k', c); }
    }
    forall j: nat, w | Does(k, actions, j, c, DoExit(w)) ensures j == i {
      if j > 0 { DoesLater(k, actions, j - 1, c, DoExit(w)); }
    }
  }

  /** Every recorded value was given to thread_exit by that thread. */
  lemma {:induction false} ExitedBy(k: Kernel, actions: seq<Action>, k': Kernel, c: Tid) returns (i: nat)
    requires Inv(k) && Runs(k, actions, k') && c !in k.exits && c in k'.exits
    ensures Does(k, actions, i, c, DoExit(k'.exits[c]))
    decreases |actions|
  {
    var a, k1 := actions[0], Step(k, actions[0]);
    StepInv(k, a);
    RecordStep(k, a);
    if c in k1.exits {
      i := 0;
      ExitsStay(k1, actions[1..], k', c);
    } else {
      i := ExitedBy(k1, actions[1..], k', c);
      DoesLater(k, actions, i, c, DoExit(k'.exits[c]));
      i := i + 1;
    }
  }

  /** Thread p is inside thread_join of c. */
  predicate InJoin(k: Kernel, p: Tid, c: Tid) {
    p in k.sched.threads && k.sched.threads[p].pc == InP(PSem(c), ThenJoin(c))
  }

  lemma JoinGoesOn(k: Kernel, a: Action, p: Tid, c: Tid)
    requires Inv(k) && Enabled(k, a) && (c in k.joins || InJoin(k, p, c) || (k.sched.running == p && a == DoJoin(c)))
    ensures c in Step(k, a).joins || InJoin(Step(k, a), p, c)
  {
    RecordStep(k, a);
    StepMoves(k, a);
  }

  lemma {:induction false} JoinStays(k: Kernel, actions: seq<Action>, k': Kernel, p: Tid, c: Tid)
    requires Inv(k) && Runs(k, actions, k') && (c in k.joins || InJoin(k, p, c))
    ensures c in k'.joins || InJoin(k', p, c)
    decreases |actions|
  {
    if actions != [] {
      StepInv(k, actions[0]);
      JoinGoesOn(k, actions[0], p, c);
      JoinStays(Step(k, actions[0]), actions[1..], k', p, c);
    }
  }

  /** A thread_join has read the child's value, or is still inside. */
  lemma {:induction false} JoinLaw(k: Kernel, actions: seq<Action>, k': Kernel, i: nat, p: Tid, c: Tid)
    requires Inv(k) && Runs(k, actions, k') && Does(k, actions, i, p, DoJoin(c))
    ensures c in k'.joins || InJoin(k', p, c)
    decreases |actions|
  {
    StepInv(k, actions[0]);
    if i == 0 {
      JoinGoesOn(k, actions[0], p, c);
      JoinStays(Step(k, actions[0]), actions[1..], k', p, c);
    } else {
      DoesLater(k, actions, i - 1, p, DoJoin(c));
      JoinLaw(Step(k, actions[0]), actions[1..], k', i - 1, p, c);
    }
  }

  /** Nothing is recorded as joined that no thread has asked for. */
  lemma {:induction false} JoinedBy(k: Kernel, actions: seq<Action>, k': Kernel, c: Tid) returns (i: nat, p: Tid)
    requires Inv(k) && Runs(k, actions, k') && c !in k.joins && c in k'.joins
    ensures InJoin(k, p, c) || Does(k, actions, i, p, DoJoin(c))
    decreases |actions|
  {
    var a, k1 := actions[0], Step(k, actions[0]);
    StepInv(k, a);
    i, p := 0, k.sched.running;
    if c !in k1.joins {
      i, p := JoinedBy(k1, actions[1..], k', c);
      if Does(k1, actions[1..], i, p, DoJoin(c)) {
        DoesLater(k, actions, i, p, DoJoin(c));
        i := i + 1;
      } else {
        if !InJoin(k, p, c) { JoinEntered(k, a, p, c); }
        i := 0;
      }
    } else {
      JoinEnds(k, a, c);
    }
  }

  lemma JoinEnds(k: Kernel, a: Action, c: Tid)
    requires Inv(k) && Enabled(k, a) && c !in k.joins && c in Step(k, a).joins
    ensures InJoin(k, k.sched.running, c) || a == DoJoin(c)
  {
    RecordStep(k, a);
    assert Shape(k, k.sched.running);
  }

  lemma JoinEntered(k: Kernel, a: Action, p: Tid, c: Tid)
    requires Inv(k) && Enabled(k, a) && InJoin(Step(k, a), p, c) && !InJoin(k, p, c)
    ensures k.sched.running == p && a == DoJoin(c)
  {
    StepMoves(k, a);
  }

  /** The child of a joinable fork is to be joined by its parent, or has been. */
  lemma {:induction false} ForkLaw(k: Kernel, actions: seq<Action>, k': Kernel, c: Tid, p: Tid)
    requires Inv(k) && Runs(k, actions, k') && (c in k.joins || (c in k.unjoined && k.unjoined[c] == p))
    ensures c in k'.joins || (c in k'.unjoined && k'.unjoined[c] == p)
    decreases |actions|
  {
    if actions != [] {
      StepInv(k, actions[0]);
      RecordStep(k, actions[0]);
      assert TiesOk(k, c) && (PSem(c) in k.sems ==> ChildOk(k, c));
      ForkLaw(Step(k, actions[0]), actions[1..], k', c, p);
    }
  }

  lemma {:induction false} Rearing(k: Kernel, actions: seq<Action>, k': Kernel, i: nat, p: Tid)
    requires Inv(k) && Runs(k, actions, k') && Does(k, actions, i, p, DoFork(true))
    ensures var c := Reach(k, actions[..i]).sched.nextTid; c in k'.joins || (c in k'.unjoined && k'.unjoined[c] == p)
    decreases |actions|
  {
    StepInv(k, actions[0]);
    RecordStep(k, actions[0]);
    if i == 0 {
      ForkLaw(Step(k, actions[0]), actions[1..], k', k.sched.nextTid, p);
    } else {
      DoesLater(k, actions, i - 1, p, DoFork(true));
      Rearing(Step(k, actions[0]), actions[1..], k', i - 1, p);
      assert actions[..i][1..] == actions[1..][..i - 1];
    }
  }

  // ----------------------------------------------------------------------- every run

  /** In every state that any run from boot reaches. Every thread is in exactly one place and
      nothing has faulted. A semaphore holds what it was made with, plus the calls of V, minus
      those of P that have returned; while anyone sleeps on it, at least that many woken
      threads have yet to test. A thread holds a lock as often as it has called lock_acquire
      without lock_release, the call it is in apart; a free lock with sleepers has one woken. */
  lemma SafeRuns(actions: seq<Action>, k: Kernel)
    requires Runs(Boot(), actions, k)
    ensures Conserved(k.sched) && !k.fault && !k.sched.fault
    ensures forall s | s in k.sems :: SemOk(k, s)
    ensures forall l | l in k.locks :: LockOk(k, l)
    ensures forall s: nat, n: nat | NewSem(s, n) in actions :: Counted(k, actions, s, n)
    ensures forall l: nat, t :: Holding(k, l, t) + Waiting(k, l, t) == Taken(Boot(), actions, l, t)
  {
    BootInv();
    RunInv(Boot(), actions, k);
    forall s: nat, n: nat | NewSem(s, n) in actions ensures Counted(k, actions, s, n) {
      SemLaw(Boot(), actions, k, s, n);
    }
    forall l: nat, t ensures Holding(k, l, t) + Waiting(k, l, t) == Taken(Boot(), actions, l, t) {
      RunHolds(Boot(), actions, k, l, t);
    }
  }

  /** In every such state, of fork, exit and join. A joined value is one the child gave to
      thread_exit; a thread calls that once and is then gone for good. Every thread_join has
      its value or is still inside, and nothing is joined unasked. The child of every joinable
      fork is to be joined by its parent, or has been. No semaphore outlives its thread. */
  lemma Handshake(actions: seq<Action>, k: Kernel)
    requires Runs(Boot(), actions, k)
    ensures forall c | c in k.joins :: exists i: nat :: Does(Boot(), actions, i, c, DoExit(k.joins[c]))
    ensures forall c | c in k.joins :: exists i: nat, p :: Does(Boot(), actions, i, p, DoJoin(c))
    ensures forall i: nat, c, v | Does(Boot(), actions, i, c, DoExit(v)) :: Gone(k, c)
    ensures forall i: nat, j: nat, c, v, w | Does(Boot(), actions, i, c, DoExit(v))
        && Does(Boot(), actions, j, c, DoExit(w)) ::
              i == j
    ensures forall i: nat, p, c | Does(Boot(), actions, i, p, DoJoin(c)) :: c in k.joins || InJoin(k, p, c)
    ensures forall c {:trigger PSem(c)} {:trigger CSem(c)} | PSem(c) in k.sems || CSem(c) in k.sems ::
              c in k.sched.threads && k.sched.threads[c].state != Zombie
    ensures forall i: nat, p | Does(Boot(), actions, i, p, DoFork(true)) ::
        Reared(k, Reach(Boot(), actions[..i]).sched.nextTid, p)
  {
    BootInv();
    RunInv(Boot(), actions, k);
    forall c | c in k.joins ensures exists i: nat :: Does(Boot(), actions, i, c, DoExit(k.joins[c])) {
      var i := ReadValue(actions, k, c);
    }
    forall c | c in k.joins ensures exists i: nat, p :: Does(Boot(), actions, i, p, DoJoin(c)) {
      var i, p := JoinedBy(Boot(), actions, k, c);
    }
    forall i: nat, c, v | Does(Boot(), actions, i, c, DoExit(v))
      ensures Gone(k, c) && forall j: nat, w | Does(Boot(), actions, j, c, DoExit(w)) :: i == j
    {
      ExitLaw(Boot(), actions, k, i, c, v);
    }
    forall i: nat, p, c | Does(Boot(), actions, i, p, DoJoin(c)) ensures c in k.joins || InJoin(k, p, c) {
      JoinLaw(Boot(), actions, k, i, p, c);
    }
    forall c | PSem(c) in k.sems || CSem(c) in k.sems
      ensures c in k.sched.threads && k.sched.threads[c].state != Zombie
    {
      assert TiesOk(k, c) && ChildOk(k, c);
    }
    forall i: nat, p | Does(Boot(), actions, i, p, DoFork(true))
      ensures Reared(k, Reach(Boot(), actions[..i]).sched.nextTid, p)
    {
      Rearing(Boot(), actions, k, i, p);
    }
  }

  predicate Reared(k: Kernel, c: Tid, p: Tid) { c in k.joins || (c in k.unjoined && k.unjoined[c] == p) }

  lemma ReadValue(actions: seq<Action>, k: Kernel, c: Tid) returns (i: nat)
    requires Runs(Boot(), actions, k) && Inv(k) && c in k.joins
    ensures Does(Boot(), actions, i, c, DoExit(k.joins[c]))
  {
    BootInv();
    assert TiesOk(k, c);
    i := ExitedBy(Boot(), actions, k, c);
  }

  /** When thread_join returns to its caller, in any run: the value is the one the child gave
      to thread_exit, the child sleeps on csem, and nobody has joined it before. */
  lemma JoinReturns(actions: seq<Action>, k: Kernel, a: Action, c: Tid) returns (i: nat)
    requires Runs(Boot(), actions, k) && Enabled(k, a)
    requires a == DoJoin(c) || (a == Continue && Me(k.sched).pc == InP(PSem(c), ThenJoin(c)))
    requires Get(Step(k, a).sched, k.sched.running).pc == User
    ensures c in Step(k, a).joins && Does(Boot(), actions, i, c, DoExit(Step(k, a).joins[c])) && c !in k.joins
    ensures c in k.sched.threads && k.sched.threads[c].state == Sleep(SemChan(CSem(c)))
  {
    BootInv();
    RunInv(Boot(), actions, k);
    StepMoves(k, a);
    RecordStep(k, a);
    InvSane(k, a);
    assert TiesOk(k, c);
    JoinedState(k, c);
    i := ExitedBy(Boot(), actions, k, c);
  }
}
