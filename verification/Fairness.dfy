/**
 Bounded waiting: a thread at position i of the run queue runs at exactly the
 (i + 1)-th later dispatch, whatever the other threads do.
 */
module Fairness {
  import opened Basics
  import opened Scheduler
  import opened Wakeups
  import opened Kernel
  import opened Synch
  import opened Joining
  import opened KernelRuns
  import opened KernelSteps

  /** Without a dispatch, the run queue only grows at its end. */
  ghost predicate Appends(s: Sched, s': Sched) {
    s'.dispatches == s.dispatches && s'.running == s.running && s'.halted == s.halted && s.ready <= s'.ready
  }

  /** At most one dispatch, and it takes the thread at the head; without one the kernel halts. */
  ghost predicate Advances(s: Sched, s': Sched)
  {
    || Appends(s, s')
    || (s'.dispatches == s.dispatches + 1 && (s.ready != [] ==> s'.running == s.ready[0] && s.ready[1..] <= s'.ready))
    || (s'.dispatches == s.dispatches && s.ready == [] && s'.halted)
  }

  lemma AppendsThen(s: Sched, s1: Sched, s2: Sched)
    requires Appends(s, s1) && Advances(s1, s2)
    ensures Advances(s, s2)
  {
    if !Appends(s1, s2) && s.ready != [] {
      assert s1.ready == s.ready + s1.ready[|s.ready|..];
      assert s1.ready[1..] == s.ready[1..] + s1.ready[|s.ready|..];
    }
  }

  lemma DispatchAdvances(s: Sched)
    ensures Advances(s, Dispatch(s))
  {
  }

  lemma SleepAdvances(s: Sched, ch: Chan, pc: Pc)
    ensures Advances(s, SleepOn(s, ch, pc))
  {
    DispatchAdvances(Park(s, ch, pc));
    AppendsThen(s, Park(s, ch, pc), SleepOn(s, ch, pc));
  }

  lemma YieldAdvances(s: Sched)
    ensures Advances(s, Yield(s))
  {
    var s1 := Exorcise(s);
    if s1.ready != [] {
      DispatchAdvances(Requeue(s1));
      AppendsThen(s, Requeue(s1), Yield(s));
    }
  }

  lemma LeaveAdvances(s: Sched)
    ensures Advances(s, Leave(s))
  {
    var s1 := Bury(Exorcise(Put(s, s.running, Me(s).(hasProc := false)).(fault := s.fault || s.running !in s.threads
        || !Me(s).hasProc)));
    DispatchAdvances(s1);
    AppendsThen(s, s1, Leave(s));
  }

  lemma WakeAppends(s: Sched, ch: Chan)
    ensures Appends(s, WakeOne(s, ch))
  {
  }

  lemma {:induction false} WakeAllAppends(s: Sched, ch: Chan)
    ensures Appends(s, WakeAll(s, ch))
    decreases |Queue(s, ch)|
  {
    if Queue(s, ch) != [] {
      WakeAllAppends(WakeOne(s, ch), ch);
    }
  }

  lemma FinishExitAdvances(k: Kernel)
    ensures Advances(k.sched, FinishExit(k).sched)
  {
    var s1 := Put(k.sched, k.sched.running, Me(k.sched).(parent := None));
    LeaveAdvances(s1);
    AppendsThen(k.sched, s1, FinishExit(k).sched);
  }

  lemma VAppends(k: Kernel, s: Sem)
    ensures Appends(k.sched, V(k, s).sched)
  {
  }

  lemma FinishJoinAppends(k: Kernel, c: Tid)
    ensures Appends(k.sched, FinishJoin(k, c).sched)
  {
    VAppends(k, CSem(c));
  }

  lemma TryPAdvances(k: Kernel, s: Sem, after: After)
    ensures Advances(k.sched, TryP(k, s, after).sched)
  {
    if s in k.sems {
      if k.sems[s].count == 0 {
        SleepAdvances(k.sched, SemChan(s), InP(s, after));
      } else {
        var k1 := Take(k, s);
        match after {
          case Return =>
          case ThenJoin(c) =>
            FinishJoinAppends(k1, c);
            AppendsThen(k.sched, k1.sched, FinishJoin(k1, c).sched);
          case ThenExit =>
            FinishExitAdvances(k1);
            AppendsThen(k.sched, k1.sched, FinishExit(k1).sched);
        }
      }
    }
  }

  lemma ReleaseAppends(k: Kernel, l: nat)
    ensures Appends(k.sched, Release(k, l).sched)
  {
    WakeAppends(k.sched, LockChan(l));
  }

  lemma CvAdvances(k: Kernel, cv: nat, l: nat)
    ensures Advances(k.sched, CvWait(k, cv, l).sched)
    ensures Appends(k.sched, CvSignal(k, cv, l).sched) && Appends(k.sched, CvBroadcast(k, cv, l).sched)
  {
    ReleaseAppends(k, l);
    var k1 := Release(k, l);
    SleepAdvances(k1.sched, CvChan(cv), InCv(cv, l));
    AppendsThen(k.sched, k1.sched, CvWait(k, cv, l).sched);
    WakeAllAppends(k1.sched, CvChan(cv));
  }

  lemma ExitAdvances(k: Kernel, v: int)
    ensures Advances(k.sched, Exit(k, v).sched)
  {
    var me := k.sched.running;
    var k1 := k.(sched := Put(k.sched, me, Me(k.sched).(rval := v)), exits := k.exits[me := v]);
    if Me(k.sched).parent.Some? {
      VAppends(k1, PSem(me));
      var k2 := V(k1, PSem(me));
      TryPAdvances(k2, CSem(me), ThenExit);
      AppendsThen(k.sched, k2.sched, Exit(k, v).sched);
    } else {
      LeaveAdvances(k1.sched);
      AppendsThen(k.sched, k1.sched, Exit(k, v).sched);
    }
  }

  lemma AcquireAdvances(k: Kernel, l: nat)
    ensures Advances(k.sched, TryAcquire(k, l).sched)
  {
    if l in k.locks && k.locks[l].owner != Some(k.sched.running) && k.locks[l].count > 0 {
      SleepAdvances(k.sched, LockChan(l), InAcquire(l));
    }
  }

  lemma GoOnAdvances(k: Kernel)
    ensures Advances(k.sched, GoOn(k).sched)
  {
    match Me(k.sched).pc {
      case Starting =>
      case InP(s, after) => TryPAdvances(k, s, after);
      case InAcquire(l) => AcquireAdvances(k, l);
      case InCv(_, l) => AcquireAdvances(k, l);
      case Reacquiring(l) => AcquireAdvances(k, l);
      case User =>
    }
  }

  /** Every step appends to the run queue or dispatches its head, once, and a yield does. */
  lemma StepAdvances(k: Kernel, a: Action)
    ensures Advances(k.sched, Step(k, a).sched)
    ensures a == DoYield && k.sched.ready != [] ==> Step(k, a).sched.dispatches == k.sched.dispatches + 1
  {
    match a {
      case DoYield => YieldAdvances(k.sched);
      case Continue => GoOnAdvances(k);
      case DoP(s) => TryPAdvances(k, UserSem(s), Return);
      case DoV(s) => VAppends(k, UserSem(s));
      case DoAcquire(l) => AcquireAdvances(k, l);
      case DoRelease(l) => ReleaseAppends(k, l);
      case DoWait(cv, l) => CvAdvances(k, cv, l);
      case DoSignal(cv, l) => CvAdvances(k, cv, l);
      case DoBroadcast(cv, l) => CvAdvances(k, cv, l);
      case DoFork(_) =>
      case DoJoin(c) => TryPAdvances(k, PSem(c), ThenJoin(c));
      case DoExit(v) => ExitAdvances(k, v);
      case NewSem(_, _) =>
      case NewLock(_) =>
    }
  }

  /** After n <= i dispatches the thread at position i has moved up by n. */
  lemma {:induction false} MovesUp(k: Kernel, actions: seq<Action>, k': Kernel, i: nat)
    requires Runs(k, actions, k') && i < |k.sched.ready|
    ensures k.sched.dispatches <= k'.sched.dispatches
    ensures var n := k'.sched.dispatches - k.sched.dispatches;
      n <= i ==> i - n < |k'.sched.ready| && k'.sched.ready[i - n] == k.sched.ready[i]
    decreases |actions|
  {
    if actions != [] {
      StepAdvances(k, actions[0]);
      var k1 := Step(k, actions[0]);
      if Appends(k.sched, k1.sched) {
        MovesUp(k1, actions[1..], k', i);
      } else if i > 0 {
        assert k.sched.ready[1..][i - 1] == k.sched.ready[i];
        MovesUp(k1, actions[1..], k', i - 1);
      } else {
        DispatchesGrow(k1, actions[1..], k');
      }
    }
  }

  lemma {:induction false} DispatchesGrow(k: Kernel, actions: seq<Action>, k': Kernel)
    requires Runs(k, actions, k')
    ensures k.sched.dispatches <= k'.sched.dispatches
    decreases |actions|
  {
    if actions != [] {
      StepAdvances(k, actions[0]);
      DispatchesGrow(Step(k, actions[0]), actions[1..], k');
    }
  }

  /** ... and the (i + 1)-th dispatch makes it the running thread. */
  lemma BoundedWaiting(k: Kernel, actions: seq<Action>, k': Kernel, a: Action, i: nat)
    requires Runs(k, actions, k') && i < |k.sched.ready| && k'.sched.dispatches == k.sched.dispatches + i
    requires Step(k', a).sched.dispatches != k'.sched.dispatches
    ensures Step(k', a).sched.running == k.sched.ready[i] && Step(k', a).sched.dispatches == k.sched.dispatches + i + 1
  {
    MovesUp(k, actions, k', i);
    StepAdvances(k', a);
  }

  // ------------------------------------------------------------------ and dispatches come

  /** The running thread yields, exits, waits, or ends up asleep or a zombie. */
  predicate GivesUp(k: Kernel, a: Action) {
    a.DoYield? || a.DoExit? || a.DoWait? || Off(Get(Step(k, a).sched, k.sched.running).state)
  }

  predicate Off(state: State) { state.Sleep? || state.Zombie? }

  /** At which actions the CPU was given up. */
  function Given(k: Kernel, actions: seq<Action>): (given: seq<bool>)
    ensures |given| == |actions|
    decreases |actions|
  {
    if actions == [] then [] else [GivesUp(k, actions[0])] + Given(Step(k, actions[0]), actions[1..])
  }

  function Times(given: seq<bool>): nat { if given == [] then 0 else (if given[0] then 1 else 0) + Times(given[1..]) }

  lemma OffAdvances(k: Kernel, a: Action)
    requires Inv(k) && Enabled(k, a) && Off(Get(Step(k, a).sched, k.sched.running).state) && k.sched.ready != []
    ensures Step(k, a).sched.dispatches == k.sched.dispatches + 1
  {
    StepInv(k, a);
    StepAdvances(k, a);
    StepMoves(k, a);
  }

  lemma LeavesOff(k: Kernel, a: Action)
    requires Inv(k) && Enabled(k, a) && (a.DoExit? || a.DoWait?)
    ensures Off(Get(Step(k, a).sched, k.sched.running).state)
  {
    StepRests(k, a);
  }

  /** A thread that gives up the CPU while others are ready is followed by the first of them. */
  lemma GivesTurn(k: Kernel, a: Action)
    requires Inv(k) && Enabled(k, a) && GivesUp(k, a) && k.sched.ready != []
    ensures Step(k, a).sched.dispatches == k.sched.dispatches + 1 && Step(k, a).sched.running == k.sched.ready[0]
  {
    StepAdvances(k, a);
    if a == DoYield {
      YieldConserves(k.sched);
    } else {
      if a.DoExit? || a.DoWait? { LeavesOff(k, a); }
      OffAdvances(k, a);
    }
  }

  /** One action: the run queue grows, or the CPU goes to its head, and it does if given up. */
  ghost predicate Turned(s: Sched, s': Sched, given: bool) {
    s.ready != [] ==> if Appends(s, s') then !given else s'.running == s.ready[0] && s.ready[1..] <= s'.ready
  }

  lemma TurnStep(k: Kernel, a: Action)
    requires Inv(k) && Enabled(k, a)
    ensures Turned(k.sched, Step(k, a).sched, GivesUp(k, a))
  {
    StepAdvances(k, a);
    if GivesUp(k, a) && k.sched.ready != [] { GivesTurn(k, a); }
  }

  /** The scheduler's states along a run. */
  function Trace(k: Kernel, actions: seq<Action>): (trace: seq<Sched>)
    ensures |trace| == |actions| + 1 && trace[0] == k.sched
    decreases |actions|
  {
    if actions == [] then [k.sched] else [k.sched] + Trace(Step(k, actions[0]), actions[1..])
  }

  lemma {:induction false} TraceReaches(k: Kernel, actions: seq<Action>, j: nat)
    requires j <= |actions|
    ensures Trace(k, actions)[j] == Reach(k, actions[..j]).sched
    decreases j
  {
    if j > 0 {
      TraceReaches(Step(k, actions[0]), actions[1..], j - 1);
      ReachLater(k, actions, j - 1);
    }
  }

  ghost predicate AllTurned(trace: seq<Sched>, given: seq<bool>) {
    |trace| == |given| + 1 && forall n | 0 <= n < |given| :: Turned(trace[n], trace[n + 1], given[n])
  }

  lemma {:induction false} RunTurns(k: Kernel, actions: seq<Action>, k': Kernel)
    requires Inv(k) && Runs(k, actions, k')
    ensures AllTurned(Trace(k, actions), Given(k, actions))
    decreases |actions|
  {
    if actions != [] {
      var k1 := Step(k, actions[0]);
      StepInv(k, actions[0]);
      TurnStep(k, actions[0]);
      RunTurns(k1, actions[1..], k');
      TurnedThen(k.sched, GivesUp(k, actions[0]), Trace(k1, actions[1..]), Given(k1, actions[1..]));
    }
  }

  lemma TurnedThen(s: Sched, g: bool, trace: seq<Sched>, given: seq<bool>)
    requires AllTurned(trace, given) && Turned(s, trace[0], g)
    ensures AllTurned([s] + trace, [g] + given)
  {
    var trace', given' := [s] + trace, [g] + given;
    forall n | 0 <= n < |given'| ensures Turned(trace'[n], trace'[n + 1], given'[n]) {
      if n > 0 { assert Turned(trace[n - 1], trace[n], given[n - 1]); }
    }
  }

  lemma {:induction false} ComesUp(trace: seq<Sched>, given: seq<bool>, i: nat) returns (j: nat)
    requires AllTurned(trace, given) && i < |trace[0].ready| && i < Times(given)
    ensures j < |trace| && trace[j].running == trace[0].ready[i]
    decreases |given|
  {
    assert Turned(trace[0], trace[1], given[0]);
    assert AllTurned(trace[1..], given[1..]) by {
      forall n | 0 <= n < |given| - 1 ensures Turned(trace[1..][n], trace[1..][n + 1], given[1..][n]) {
        assert Turned(trace[n + 1], trace[n + 2], given[n + 1]);
      }
    }
    j := 0;
    if Appends(trace[0], trace[1]) {
      j := ComesUp(trace[1..], given[1..], i);
    } else if i > 0 {
      Shifted(trace[0], trace[1], i);
      j := ComesUp(trace[1..], given[1..], i - 1);
    }
    j := j + 1;
  }

  lemma Shifted(s: Sched, s': Sched, i: nat)
    requires 0 < i < |s.ready| && s.ready[1..] <= s'.ready
    ensures i - 1 < |s'.ready| && s'.ready[i - 1] == s.ready[i]
  {
    assert s.ready[1..][i - 1] == s.ready[i];
  }

  /** However long the run queue: when the CPU has been given up i + 1 times, the thread at
      position i has run. */
  lemma Served(k: Kernel, actions: seq<Action>, k': Kernel, i: nat) returns (j: nat)
    requires Inv(k) && Runs(k, actions, k') && i < |k.sched.ready| && i < Times(Given(k, actions))
    ensures j <= |actions| && Reach(k, actions[..j]).sched.running == k.sched.ready[i]
  {
    RunTurns(k, actions, k');
    j := ComesUp(Trace(k, actions), Given(k, actions), i);
    TraceReaches(k, actions, j);
  }
}
