/**
 The blocking queue (klib/queue_ts.c) over its sleep lock and condition variable,
 with cv_wait and cv_signal (synch/cv.c) taken apart into their steps. Another
 thread gets to run only when the running one sleeps, or by a preemption, which
 needs interrupts on and hence no spinlock held (module Interrupts).
 */
module BlockingQueue {
  import opened Basics

  const NULL: nat := 0

  /** The next thing a thread does. In PopTest and PopTake, `again` says that the
      consumer has slept and been woken. */
  datatype Pc =
    | Idle
    | PushLock(v: nat) | PushItem(v: nat)
    | SigSplock | SigRelease | SigWake | SigUnsplock | SigRelock
    | PushUnlock
    | PopLock | PopTest(again: bool)
    | WaitSplock | WaitRelease | WaitSleep | WaitWoken | WaitRelock
    | PopTake(again: bool) | PopUnlock(ret: nat)
    | TryLock | TryTake | TryUnlock(ret: nat)

  datatype Q = Q(
    pcs: map<Tid, Pc>,
    running: Tid,
    ready: seq<Tid>,
    lockQ: seq<Tid>,        // asleep on the lock's channel
    cvQ: seq<Tid>,          // asleep on the condition variable's channel
    owner: Option<Tid>,     // of the sleep lock
    splock: Option<Tid>,    // holder of cv_splock
    items: seq<nat>,
    halted: bool,           // the run queue was empty at a dispatch
    fault: bool             // a held spinlock was taken, or an empty queue popped
  )

  datatype Action = Preempt | DoPush(v: nat) | DoPop | DoTryPop | Next

  function PcOf(s: Q): Pc { if s.running in s.pcs then s.pcs[s.running] else Idle }

  function Goto(s: Q, pc: Pc): Q { s.(pcs := s.pcs[s.running := pc]) }

  function Dispatch(s: Q): Q {
    if s.ready == [] then s.(halted := true) else s.(running := s.ready[0], ready := s.ready[1..])
  }

  /** lock_acquire from its test on: sleep while there is an owner. */
  function Acquire(s: Q, next: Pc): Q {
    if s.owner.Some? then Dispatch(s.(lockQ := s.lockQ + [s.running]))
    else Goto(s.(owner := Some(s.running)), next)
  }

  function Release(s: Q, next: Pc): Q {
    if s.lockQ == [] then Goto(s.(owner := None), next)
    else Goto(s.(owner := None, ready := s.ready + [s.lockQ[0]], lockQ := s.lockQ[1..]), next)
  }

  function TakeSplock(s: Q, next: Pc): Q {
    Goto(s.(splock := Some(s.running), fault := s.fault || s.splock.Some?), next)
  }

  function Wake(s: Q, next: Pc): Q {
    if s.cvQ == [] then Goto(s, next) else Goto(s.(ready := s.ready + [s.cvQ[0]], cvQ := s.cvQ[1..]), next)
  }

  /** wchan_sleep: onto the channel, cv_splock released, away. */
  function SleepCv(s: Q): Q {
    Dispatch(Goto(s.(cvQ := s.cvQ + [s.running], splock := None), WaitWoken))
  }

  function Pop(s: Q, next: Pc): Q {
    if s.items == [] then s.(fault := true)
    else Goto(s.(items := s.items[1..]), next)
  }

  function Front(s: Q): nat { if s.items == [] then NULL else s.items[0] }

  function Micro(s: Q): Q {
    match PcOf(s)
    case Idle => s
    // queue_ts_push, with cv_signal
    case PushLock(v) => Acquire(s, PushItem(v))
    case PushItem(v) => Goto(s.(items := s.items + [v]), SigSplock)
    case SigSplock => TakeSplock(s, SigRelease)
    case SigRelease => Release(s, SigWake)
    case SigWake => Wake(s, SigUnsplock)
    case SigUnsplock => Goto(s.(splock := None), SigRelock)
    case SigRelock => Acquire(s, PushUnlock)
    case PushUnlock => Release(s, Idle)
    // queue_ts_pop_blocking, with cv_wait
    case PopLock => Acquire(s, PopTest(false))
    case PopTest(again) => if s.items == [] then Goto(s, WaitSplock) else Goto(s, PopTake(again))
    case WaitSplock => TakeSplock(s, WaitRelease)
    case WaitRelease => Release(s, WaitSleep)
    case WaitSleep => SleepCv(s)
    case WaitWoken => Goto(s.(fault := s.fault || s.splock.Some?), WaitRelock)
    case WaitRelock => Acquire(s, PopTest(true))
    case PopTake(_) => if Front(s) == NULL then Goto(s.(fault := s.fault || s.items == []), PopUnlock(NULL))
        else Pop(s, PopUnlock(Front(s)))
    case PopUnlock(_) => Release(s, Idle)
    // queue_ts_pop
    case TryLock => Acquire(s, TryTake)
    case TryTake => if s.items == [] then Goto(s, TryUnlock(NULL)) else Pop(s, TryUnlock(Front(s)))
    case TryUnlock(_) => Release(s, Idle)
  }

  predicate Enabled(s: Q, a: Action) {
    && !s.halted && s.running in s.pcs
    && match a
       case Preempt => s.splock == None && s.ready != []
       case DoPush(_) => PcOf(s) == Idle
       case DoPop => PcOf(s) == Idle
       case DoTryPop => PcOf(s) == Idle
       case Next => PcOf(s) != Idle
  }

  function Step(s: Q, a: Action): Q {
    match a
    case Preempt => Dispatch(s.(ready := s.ready + [s.running]))
    case DoPush(v) => Goto(s, PushLock(v))
    case DoPop => Goto(s, PopLock)
    case DoTryPop => Goto(s, TryLock)
    case Next => Micro(s)
  }

  // ------------------------------------------------------------- the invariant

  predicate HoldsLock(pc: Pc) {
    pc.PushItem? || pc.SigSplock? || pc.SigRelease? || pc.PushUnlock? || pc.PopTest? || pc.WaitSplock?
        || pc.WaitRelease?
    || pc.PopTake? || pc.PopUnlock? || pc.TryTake? || pc.TryUnlock?
  }

  predicate HoldsSplock(pc: Pc) { pc.SigRelease? || pc.SigWake? || pc.SigUnsplock? || pc.WaitRelease? || pc.WaitSleep? }

  predicate AtLock(pc: Pc) { pc.PushLock? || pc.SigRelock? || pc.PopLock? || pc.WaitRelock? || pc.TryLock? }

  /** Every thread is running, ready, or asleep on one of the two channels. */
  ghost predicate Placed(s: Q)
  {
    && multiset([s.running]) + multiset(s.ready) + multiset(s.lockQ) + multiset(s.cvQ) == multiset(s.pcs.Keys)
    && (forall t | t in s.lockQ :: t in s.pcs && AtLock(s.pcs[t]))
    && (forall t | t in s.cvQ :: t in s.pcs && s.pcs[t] == WaitWoken)
  }

  /** One owner; cv_splock is held by the running thread or by nobody. */
  ghost predicate Exclusive(s: Q)
  {
    && (forall t | t in s.pcs :: s.owner == Some(t) <==> HoldsLock(s.pcs[t]))
    && (forall t | t in s.pcs :: s.splock == Some(t) <==> HoldsSplock(s.pcs[t]))
    && (s.owner.Some? ==> s.owner.value in s.pcs)
    && (s.splock.Some? ==> s.splock.value == s.running)
  }

  /** In cv_wait, before being on the channel. */
  predicate SawEmpty(pc: Pc) { pc.WaitSplock? || pc.WaitRelease? || pc.WaitSleep? }

  /** No item is NULL, and nothing has faulted. */
  ghost predicate Ordered(s: Q)
  {
    && NULL !in s.items && !s.fault
    && (forall t | t in s.pcs :: s.pcs[t].PopTake? ==> s.items != [])
    && (forall t | t in s.pcs :: SawEmpty(s.pcs[t]) ==> s.items == [])
    && (forall t | t in s.pcs :: s.pcs[t].PushItem? || s.pcs[t].PushLock? ==> s.pcs[t].v != NULL)
  }

  /** Consumers that have been woken and have yet to look at the queue again. */
  ghost function Woken(s: Q): set<Tid> {
    set t | t in s.pcs && t !in s.cvQ && Retests(s.pcs[t])
  }

  predicate Retests(pc: Pc) { pc in {WaitWoken, WaitRelock, PopTest(true), PopTake(true)} }

  /** Pushers that have queued their item and have yet to signal. */
  ghost function Signalers(s: Q): set<Tid> {
    set t | t in s.pcs && Signals(s.pcs[t])
  }

  predicate Signals(pc: Pc) { pc in {SigSplock, SigRelease, SigWake} }

  /** No signal is lost. */
  ghost predicate NoneLost(s: Q) { s.cvQ != [] ==> |s.items| <= |Woken(s)| + |Signalers(s)| }

  /** The machine halts only when the last thread to run has found the queue empty. */
  ghost predicate Inv(s: Q) {
    Ordered(s) && if s.halted then s.items == [] else Placed(s) && Exclusive(s) && NoneLost(s)
  }

  // ------------------------------------------------------------------ placement

  lemma RunningAwake(s: Q)
    requires Placed(s)
    ensures s.running in s.pcs && s.running !in s.ready && s.running !in s.lockQ && s.running !in s.cvQ
    ensures forall t | t in s.ready :: t in s.pcs && t !in s.lockQ && t !in s.cvQ
    ensures forall t | t in s.lockQ :: t !in s.cvQ
  {
    var all := multiset([s.running]) + multiset(s.ready) + multiset(s.lockQ) + multiset(s.cvQ);
    assert all[s.running] <= 1;
    assert s.running in all;
    forall t | t in s.ready
      ensures t in s.pcs && t !in s.lockQ && t !in s.cvQ
    {
      assert t in multiset(s.ready);
      assert all[t] <= 1;
      assert t in all;
    }
    forall t | t in s.lockQ ensures t !in s.cvQ { assert t in multiset(s.lockQ); assert all[t] <= 1; }
  }

  lemma Head(q: seq<Tid>)
    requires q != []
    ensures multiset(q) == multiset([q[0]]) + multiset(q[1..]) && q[0] in q && forall t | t in q[1..] :: t in q
  {
    assert q == [q[0]] + q[1..];
  }

  /** The running thread sleeps, or is preempted, at the end of the list `to`. */
  lemma DispatchPlaced(s: Q, s': Q)
    requires s.ready != [] && s' == Dispatch(s)
    requires multiset(s.ready) + multiset(s.lockQ) + multiset(s.cvQ) == multiset(s.pcs.Keys)
    requires (forall t | t in s.lockQ :: t in s.pcs && AtLock(s.pcs[t]))
    requires (forall t | t in s.cvQ :: t in s.pcs && s.pcs[t] == WaitWoken)
    ensures Placed(s')
  {
    Head(s.ready);
  }

  lemma GotoPlaced(s: Q, pc: Pc)
    requires Placed(s)
    ensures Placed(Goto(s, pc))
  {
    RunningAwake(s);
    assert Goto(s, pc).pcs.Keys == s.pcs.Keys;
  }

  lemma AcquirePlaced(s: Q, next: Pc)
    requires Placed(s) && AtLock(PcOf(s)) && !Acquire(s, next).halted
    ensures Placed(Acquire(s, next))
  {
    RunningAwake(s);
    if s.owner.Some? {
      DispatchPlaced(s.(lockQ := s.lockQ + [s.running]), Acquire(s, next));
    } else {
      GotoPlaced(s.(owner := Some(s.running)), next);
    }
  }

  lemma ReleasePlaced(s: Q, next: Pc)
    requires Placed(s)
    ensures Placed(Release(s, next))
  {
    if s.lockQ == [] {
      GotoPlaced(s.(owner := None), next);
    } else {
      Head(s.lockQ);
      GotoPlaced(s.(owner := None, ready := s.ready + [s.lockQ[0]], lockQ := s.lockQ[1..]), next);
    }
  }

  lemma WakePlaced(s: Q, next: Pc)
    requires Placed(s)
    ensures Placed(Wake(s, next))
  {
    if s.cvQ == [] {
      GotoPlaced(s, next);
    } else {
      Head(s.cvQ);
      GotoPlaced(s.(ready := s.ready + [s.cvQ[0]], cvQ := s.cvQ[1..]), next);
    }
  }

  lemma SleepPlaced(s: Q)
    requires Placed(s) && !SleepCv(s).halted
    ensures Placed(SleepCv(s))
  {
    RunningAwake(s);
    var s1 := Goto(s.(cvQ := s.cvQ + [s.running], splock := None), WaitWoken);
    assert s1.pcs.Keys == s.pcs.Keys;
    DispatchPlaced(s1, SleepCv(s));
  }

  // --------------------------------------------------------------- mutual exclusion

  lemma GotoExclusive(s: Q, s': Q, pc: Pc)
    requires Exclusive(s) && s.running in s.pcs && s'.pcs == s.pcs[s.running := pc]
    requires s'.owner == (if HoldsLock(pc) then Some(s.running) else if HoldsLock(PcOf(s)) then None else s.owner)
    requires s'.splock == (if HoldsSplock(pc) then Some(s.running) else if HoldsSplock(PcOf(s)) then None else s.splock)
    requires HoldsLock(pc) ==> s.owner in {None, Some(s.running)}
    requires HoldsSplock(pc) ==> s.splock in {None, Some(s.running)}
    requires s'.running == s.running || s'.splock == None
    ensures Exclusive(s')
  {
  }

  /** Nobody else holds cv_splock while its holder runs. */
  lemma SplockFree(s: Q)
    requires Exclusive(s) && s.running in s.pcs && !HoldsSplock(PcOf(s))
    ensures s.splock == None
  {
  }

  lemma AcquireExclusive(s: Q, next: Pc)
    requires Placed(s) && Exclusive(s) && AtLock(PcOf(s)) && HoldsLock(next) && !HoldsSplock(next)
    requires !Acquire(s, next).halted
    ensures Exclusive(Acquire(s, next))
  {
    RunningAwake(s);
    SplockFree(s);
    if s.owner.None? { GotoExclusive(s, Acquire(s, next), next); }
  }

  lemma ReleaseExclusive(s: Q, next: Pc)
    requires Placed(s) && Exclusive(s) && HoldsLock(PcOf(s)) && !HoldsLock(next)
    requires (HoldsSplock(next) <==> HoldsSplock(PcOf(s)))
    ensures Exclusive(Release(s, next))
  {
    RunningAwake(s);
    ReleaseFields(s, Release(s, next), next);
    GotoExclusive(s, Release(s, next), next);
  }

  lemma ReleaseFields(s: Q, s': Q, next: Pc)
    requires s' == Release(s, next)
    ensures s'.pcs == s.pcs[s.running := next] && s'.owner == None && s'.splock == s.splock && s'.running == s.running
    ensures s'.cvQ == s.cvQ && s'.items == s.items
    ensures s'.fault == s.fault && s'.halted == s.halted
  {
  }

  lemma TakeSplockExclusive(s: Q, next: Pc)
    requires Placed(s) && Exclusive(s) && HoldsLock(PcOf(s)) && !HoldsSplock(PcOf(s)) && HoldsSplock(next)
    requires HoldsLock(next)
    ensures Exclusive(TakeSplock(s, next)) && TakeSplock(s, next).fault == s.fault
  {
    RunningAwake(s);
    SplockFree(s);
    GotoExclusive(s, TakeSplock(s, next), next);
  }

  /** A step that keeps both locks as they are. */
  lemma KeepExclusive(s: Q, s': Q, pc: Pc)
    requires Placed(s) && Exclusive(s) && s'.pcs == s.pcs[s.running := pc] && s'.running == s.running
    requires s'.owner == s.owner && s'.splock == s.splock
    requires (HoldsLock(pc) <==> HoldsLock(PcOf(s))) && (HoldsSplock(pc) <==> HoldsSplock(PcOf(s)))
    ensures Exclusive(s')
  {
    RunningAwake(s);
    GotoExclusive(s, s', pc);
  }

  // -------------------------------------------------------------- lost signals

  function One(b: bool): int { if b then 1 else 0 }

  lemma Moved(a: set<Tid>, b: set<Tid>, t: Tid)
    requires a - {t} == b - {t}
    ensures |b| - |a| == One(t in b) - One(t in a)
  {
    assert a == (a - {t}) + if t in a then {t} else {};
    assert b == (b - {t}) + if t in b then {t} else {};
  }

  lemma GotoCounts(s: Q, s': Q, pc: Pc)
    requires Placed(s) && s'.pcs == s.pcs[s.running := pc] && s'.cvQ == s.cvQ
    ensures |Woken(s')| - |Woken(s)| == One(Retests(pc)) - One(Retests(PcOf(s)))
    ensures |Signalers(s')| - |Signalers(s)| == One(Signals(pc)) - One(Signals(PcOf(s)))
  {
    RunningAwake(s);
    Moved(Woken(s), Woken(s'), s.running);
    Moved(Signalers(s), Signalers(s'), s.running);
  }

  lemma GotoNoneLost(s: Q, s': Q, pc: Pc)
    requires Placed(s) && NoneLost(s) && s'.pcs == s.pcs[s.running := pc] && s'.cvQ == s.cvQ
    requires s'.items == []
        || |s'.items| - |s.items| <= One(Retests(pc)) - One(Retests(PcOf(s))) + One(Signals(pc)) - One(Signals(PcOf(s)))
    ensures NoneLost(s')
  {
    GotoCounts(s, s', pc);
  }

  lemma SameNoneLost(s: Q, s': Q)
    requires NoneLost(s) && s'.pcs == s.pcs && s'.cvQ == s.cvQ && s'.items == s.items
    ensures NoneLost(s')
  {
    assert Woken(s') == Woken(s) && Signalers(s') == Signalers(s);
  }

  lemma AcquireNoneLost(s: Q, next: Pc)
    requires Placed(s) && NoneLost(s) && Retests(next) == Retests(PcOf(s)) && !Signals(next) && !Signals(PcOf(s))
    ensures NoneLost(Acquire(s, next))
  {
    var s' := Acquire(s, next);
    if s.owner.Some? { SameNoneLost(s, s'); } else { GotoNoneLost(s, s', next); }
  }

  /** cv_signal turns a pusher that has to signal into a consumer that has to look. */
  lemma WakeNoneLost(s: Q, next: Pc)
    requires Placed(s) && NoneLost(s) && PcOf(s) == SigWake && !Signals(next) && !Retests(next)
    ensures NoneLost(Wake(s, next))
  {
    RunningAwake(s);
    var s' := Wake(s, next);
    if s.cvQ != [] {
      WakeWoken(s, s', next);
      Moved(Signalers(s), Signalers(s'), s.running);
    }
  }

  lemma WakeWoken(s: Q, s': Q, next: Pc)
    requires Placed(s) && PcOf(s) == SigWake && !Retests(next) && s.cvQ != []
    requires s'.pcs == s.pcs[s.running := next] && s'.cvQ == s.cvQ[1..]
    ensures |Woken(s')| == |Woken(s)| + 1
  {
    RunningAwake(s);
    Head(s.cvQ);
    Once(s);
    var t := s.cvQ[0];
    assert t in s.pcs && t != s.running && t !in Woken(s);
    forall x ensures x in Woken(s') <==> x in Woken(s) || x == t {}
    assert Woken(s') == Woken(s) + {t};
  }

  lemma Once(s: Q)
    requires Placed(s) && s.cvQ != []
    ensures s.cvQ[0] !in s.cvQ[1..]
  {
    Head(s.cvQ);
    var all := multiset([s.running]) + multiset(s.ready) + multiset(s.lockQ) + multiset(s.cvQ);
    assert all[s.cvQ[0]] <= 1;
    assert multiset(s.cvQ[1..])[s.cvQ[0]] == 0;
  }

  /** A consumer goes to sleep only when it has seen the queue empty, under the lock
      that no pusher has had since. */
  lemma SleepNoneLost(s: Q)
    requires Placed(s) && s.items == []
    ensures NoneLost(SleepCv(s))
  {
  }

  // --------------------------------------------------------------- the queue

  lemma GotoOrdered(s: Q, s': Q, pc: Pc)
    requires Ordered(s) && s'.pcs == s.pcs[s.running := pc] && s'.items == s.items && !s'.fault
    requires (pc.PopTake? ==> s.items != []) && (SawEmpty(pc) ==> s.items == [])
    requires (pc.PushItem? || pc.PushLock? ==> pc.v != NULL)
    ensures Ordered(s')
  {
  }

  /** Only the owner of the lock changes the queue, and then nobody is between
      seeing it empty and being on the channel, or between seeing an item and
      taking it. */
  lemma OwnerAlone(s: Q, t: Tid)
    requires Placed(s) && Exclusive(s) && HoldsLock(PcOf(s)) && t in s.pcs && t != s.running
    ensures !SawEmpty(s.pcs[t]) && !s.pcs[t].PopTake?
  {
    RunningAwake(s);
    assert s.owner == Some(s.running);
  }

  lemma PushInv(s: Q)
    requires Inv(s) && !s.halted && PcOf(s).PushItem?
    ensures Inv(Micro(s))
  {
    var s' := Micro(s);
    RunningAwake(s);
    GotoPlaced(s.(items := s'.items), SigSplock);
    KeepExclusive(s, s', SigSplock);
    GotoNoneLost(s, s', SigSplock);
    forall t | t in s.pcs && t != s.running ensures !SawEmpty(s.pcs[t]) && !s.pcs[t].PopTake? { OwnerAlone(s, t); }
  }

  lemma PopInv(s: Q, next: Pc)
    requires Inv(s) && !s.halted && s.items != [] && (PcOf(s).PopTake? || PcOf(s).TryTake?)
    requires (next.PopUnlock? || next.TryUnlock?)
    ensures Inv(Pop(s, next))
  {
    var s' := Pop(s, next);
    RunningAwake(s);
    GotoPlaced(s.(items := s'.items), next);
    KeepExclusive(s, s', next);
    GotoNoneLost(s, s', next);
    forall t | t in s.pcs && t != s.running ensures !SawEmpty(s.pcs[t]) && !s.pcs[t].PopTake? { OwnerAlone(s, t); }
  }

  lemma AcquireInv(s: Q, next: Pc)
    requires Inv(s) && !s.halted && AtLock(PcOf(s)) && HoldsLock(next) && !HoldsSplock(next)
    requires Retests(next) == Retests(PcOf(s)) && !Signals(next) && !next.PopTake? && !SawEmpty(next)
    requires next.PushItem? ==> next.v != NULL
    ensures Inv(Acquire(s, next))
  {
    var s' := Acquire(s, next);
    if s.owner.None? { GotoOrdered(s, s', next); } else { OwnerReady(s); }
    AcquirePlaced(s, next);
    AcquireExclusive(s, next);
    AcquireNoneLost(s, next);
  }

  /** The owner of the lock never sleeps, so there is someone to dispatch. */
  lemma OwnerReady(s: Q)
    requires Placed(s) && Exclusive(s) && s.owner.Some? && AtLock(PcOf(s))
    ensures s.ready != []
  {
    var t := s.owner.value;
    assert t in multiset(s.pcs.Keys);
    assert t in multiset([s.running]) + multiset(s.ready) + multiset(s.lockQ) + multiset(s.cvQ);
  }

  lemma ReleaseInv(s: Q, next: Pc)
    requires Inv(s) && !s.halted && HoldsLock(PcOf(s)) && !HoldsLock(next)
    requires (HoldsSplock(next) <==> HoldsSplock(PcOf(s)))
    requires Retests(next) == Retests(PcOf(s)) && Signals(next) == Signals(PcOf(s)) && !next.PushLock?
    requires (SawEmpty(next) ==> SawEmpty(PcOf(s)))
    ensures Inv(Release(s, next))
  {
    RunningAwake(s);
    ReleasePlaced(s, next);
    ReleaseExclusive(s, next);
    ReleaseFields(s, Release(s, next), next);
    ReleasedRest(s, Release(s, next), next);
  }

  lemma ReleasedRest(s: Q, s': Q, next: Pc)
    requires Inv(s) && !s.halted && s'.pcs == s.pcs[s.running := next] && s'.cvQ == s.cvQ && s'.items == s.items
    requires s'.fault == s.fault
    requires Retests(next) == Retests(PcOf(s)) && Signals(next) == Signals(PcOf(s)) && !next.PushLock?
    requires !next.PushItem? && !next.PopTake?
    requires SawEmpty(next) ==> SawEmpty(PcOf(s))
    ensures NoneLost(s') && Ordered(s')
  {
    RunningAwake(s);
    GotoNoneLost(s, s', next);
    GotoOrdered(s, s', next);
  }

  lemma TakeSplockInv(s: Q, next: Pc)
    requires Inv(s) && !s.halted && HoldsLock(PcOf(s)) && !HoldsSplock(PcOf(s)) && HoldsSplock(next) && HoldsLock(next)
    requires Retests(next) == Retests(PcOf(s)) && Signals(next) == Signals(PcOf(s))
    requires (SawEmpty(next) ==> SawEmpty(PcOf(s)))
    ensures Inv(TakeSplock(s, next))
  {
    RunningAwake(s);
    GotoPlaced(s.(splock := Some(s.running)), next);
    TakeSplockExclusive(s, next);
    GotoNoneLost(s, TakeSplock(s, next), next);
    GotoOrdered(s, TakeSplock(s, next), next);
  }

  lemma SignalInv(s: Q)
    requires Inv(s) && !s.halted && PcOf(s) == SigWake
    ensures Inv(Wake(s, SigUnsplock))
  {
    WakePlaced(s, SigUnsplock);
    KeepExclusive(s, Wake(s, SigUnsplock), SigUnsplock);
    WakeNoneLost(s, SigUnsplock);
    GotoOrdered(s, Wake(s, SigUnsplock), SigUnsplock);
  }

  lemma SleepInv(s: Q)
    requires Inv(s) && !s.halted && PcOf(s) == WaitSleep
    ensures Inv(SleepCv(s))
  {
    RunningAwake(s);
    var s' := SleepCv(s);
    GotoOrdered(s, s', WaitWoken);
    if !s'.halted {
      SleepPlaced(s);
      SleepNoneLost(s);
      GotoExclusive(s, s', WaitWoken);
    }
  }

  /** A step that only moves on: the locks, the lists and the queue stay. */
  lemma MoveInv(s: Q, s': Q, pc: Pc)
    requires Inv(s) && !s.halted && s' == Goto(s, pc)
    requires (HoldsLock(pc) <==> HoldsLock(PcOf(s))) && (HoldsSplock(pc) <==> HoldsSplock(PcOf(s)))
    requires s.items == [] || (Retests(pc) == Retests(PcOf(s)) && Signals(pc) == Signals(PcOf(s)))
    requires (pc.PopTake? ==> s.items != []) && (SawEmpty(pc) ==> s.items == [])
    requires (pc.PushItem? || pc.PushLock? ==> pc.v != NULL)
    ensures Inv(s')
  {
    RunningAwake(s);
    GotoPlaced(s, pc);
    KeepExclusive(s, s', pc);
    GotoNoneLost(s, s', pc);
    GotoOrdered(s, s', pc);
  }

  lemma UnsplockInv(s: Q)
    requires Inv(s) && !s.halted && PcOf(s) == SigUnsplock
    ensures Inv(Goto(s.(splock := None), SigRelock))
  {
    RunningAwake(s);
    var s' := Goto(s.(splock := None), SigRelock);
    GotoPlaced(s.(splock := None), SigRelock);
    GotoExclusive(s, s', SigRelock);
    GotoNoneLost(s, s', SigRelock);
    GotoOrdered(s, s', SigRelock);
  }

  lemma PushHalf(s: Q)
    requires Inv(s) && !s.halted
    requires PcOf(s).PushLock? || PcOf(s).PushItem?
        || PcOf(s) in {SigSplock, SigRelease, SigWake, SigUnsplock, SigRelock, PushUnlock}
    ensures Inv(Micro(s))
  {
    RunningAwake(s);
    match PcOf(s) {
      case PushLock(v) => AcquireInv(s, PushItem(v));
      case PushItem(v) => PushInv(s);
      case SigSplock => TakeSplockInv(s, SigRelease);
      case SigRelease => ReleaseInv(s, SigWake);
      case SigWake => SignalInv(s);
      case SigUnsplock => UnsplockInv(s);
      case SigRelock => AcquireInv(s, PushUnlock);
      case PushUnlock => ReleaseInv(s, Idle);
    }
  }

  lemma PopHalf(s: Q)
    requires Inv(s) && !s.halted && (PcOf(s).PopTest? || PcOf(s).PopTake? || PcOf(s).PopUnlock? || PcOf(s) == PopLock)
    ensures Inv(Micro(s))
  {
    RunningAwake(s);
    match PcOf(s) {
      case PopLock => AcquireInv(s, PopTest(false));
      case PopTest(again) => MoveInv(s, Micro(s), if s.items == [] then WaitSplock else PopTake(again));
      case PopTake(_) => PopInv(s, PopUnlock(Front(s)));
      case PopUnlock(_) => ReleaseInv(s, Idle);
    }
  }

  lemma WaitHalf(s: Q)
    requires Inv(s) && !s.halted && PcOf(s) in {WaitSplock, WaitRelease, WaitSleep}
    ensures Inv(Micro(s))
  {
    RunningAwake(s);
    if PcOf(s) == WaitSplock {
      assert Micro(s) == TakeSplock(s, WaitRelease);
      TakeSplockInv(s, WaitRelease);
    } else {
      WaitEnds(s);
    }
  }

  lemma WaitEnds(s: Q)
    requires Inv(s) && !s.halted && PcOf(s) in {WaitRelease, WaitSleep}
    ensures Inv(Micro(s))
  {
    RunningAwake(s);
    if PcOf(s) == WaitSleep {
      SleepInv(s);
    } else {
      assert Micro(s) == Release(s, WaitSleep);
      ReleaseInv(s, WaitSleep);
    }
  }

  lemma WakeHalf(s: Q)
    requires Inv(s) && !s.halted && PcOf(s) in {WaitWoken, WaitRelock}
    ensures Inv(Micro(s))
  {
    RunningAwake(s);
    match PcOf(s) {
      case WaitWoken => SplockFree(s); MoveInv(s, Micro(s), WaitRelock);
      case WaitRelock => AcquireInv(s, PopTest(true));
    }
  }

  lemma TryHalf(s: Q)
    requires Inv(s) && !s.halted && (PcOf(s) in {TryLock, TryTake} || PcOf(s).TryUnlock?)
    ensures Inv(Micro(s))
  {
    RunningAwake(s);
    match PcOf(s) {
      case TryLock => AcquireInv(s, TryTake);
      case TryTake => if s.items == [] { MoveInv(s, Micro(s), TryUnlock(NULL)); }
          else { PopInv(s, TryUnlock(Front(s))); }
      case TryUnlock(_) => ReleaseInv(s, Idle);
    }
  }

  lemma PreemptInv(s: Q)
    requires Inv(s) && Enabled(s, Preempt)
    ensures Inv(Step(s, Preempt))
  {
    var s' := Step(s, Preempt);
    DispatchPlaced(s.(ready := s.ready + [s.running]), s');
    SameNoneLost(s, s');
  }

  /** Every step keeps the invariant, as long as no NULL is pushed. */
  lemma StepInv(s: Q, a: Action)
    requires Inv(s) && Enabled(s, a) && (a.DoPush? ==> a.v != NULL)
    ensures Inv(Step(s, a))
  {
    match a {
      case Preempt => PreemptInv(s);
      case DoPush(v) => MoveInv(s, Step(s, a), PushLock(v));
      case DoPop => MoveInv(s, Step(s, a), PopLock);
      case DoTryPop => MoveInv(s, Step(s, a), TryLock);
      case Next =>
        var pc := PcOf(s);
        if pc.PopTest? || pc.PopTake? || pc.PopUnlock? || pc == PopLock {
          PopHalf(s);
        } else if pc in {WaitSplock, WaitRelease, WaitSleep} {
          WaitHalf(s);
        } else if pc in {WaitWoken, WaitRelock} {
          WakeHalf(s);
        } else if pc in {TryLock, TryTake} || pc.TryUnlock? {
          TryHalf(s);
        } else {
          PushHalf(s);
        }
    }
  }
}
