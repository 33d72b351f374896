/**
 Every run of the blocking queue: what went in, in which order, is what came out, and no
 signal is lost. Both are stated of the actions that threads take and of the answers they
 get, not of a history that the queue keeps itself.
 */
module QueueRuns {
  import opened Basics
  import opened BlockingQueue

  ghost predicate Runs(s: Q, actions: seq<Action>, s': Q)
    decreases |actions|
  {
    if actions == [] then s' == s
    else Enabled(s, actions[0]) && Runs(Step(s, actions[0]), actions[1..], s')
  }

  /** Any threads, all in their own code, one of them running. */
  ghost predicate Start(s: Q)
  {
    && Placed(s) && (forall t | t in s.pcs :: s.pcs[t] == Idle)
    && s.owner == None && s.splock == None && s.items == [] && !s.halted && !s.fault
  }

  /** Every value pushed is one of `vals`. */
  ghost predicate Pushes(actions: seq<Action>, vals: set<nat>) { forall a | a in actions :: a.DoPush? ==> a.v in vals }

  lemma {:induction false} RunInv(s: Q, actions: seq<Action>, s': Q, vals: set<nat>)
    requires Inv(s) && Runs(s, actions, s') && Pushes(actions, vals) && NULL !in vals
    ensures Inv(s')
    decreases |actions|
  {
    if actions != [] {
      assert actions[0] in actions;
      StepInv(s, actions[0]);
      RunInv(Step(s, actions[0]), actions[1..], s', vals);
    }
  }

  lemma StartInv(s: Q)
    requires Start(s)
    ensures Inv(s)
  {
  }

  // ---------------------------------------------------- what goes in and what comes out

  /** A value that entered the queue, and the thread that brought it. */
  datatype Entry = Entry(t: Tid, v: nat)

  /** A value that a pop returned, and to whom. */
  datatype Answer = Answer(t: Tid, v: nat, blocking: bool)

  /** What a step adds at the end of the queue. */
  function Enters(s: Q, a: Action): seq<Entry> {
    var items := Step(s, a).items;
    if |items| > |s.items| then [Entry(s.running, items[|items| - 1])] else []
  }

  /** What a step returns to its caller. */
  function Answers(s: Q, a: Action): seq<Answer> {
    if a != Next then []
    else
      match PcOf(s)
      case PopUnlock(v) => [Answer(s.running, v, true)]
      case TryUnlock(v) => [Answer(s.running, v, false)]
      case _ => []
  }

  function Sends(s: Q, a: Action, t: Tid): seq<nat> { if a.DoPush? && s.running == t then [a.v] else [] }

  function Entered(s: Q, actions: seq<Action>): seq<Entry>
    decreases |actions|
  {
    if actions == [] then [] else Enters(s, actions[0]) + Entered(Step(s, actions[0]), actions[1..])
  }

  function Answered(s: Q, actions: seq<Action>): seq<Answer>
    decreases |actions|
  {
    if actions == [] then [] else Answers(s, actions[0]) + Answered(Step(s, actions[0]), actions[1..])
  }

  /** The values of the pushes that thread t has called for. */
  function Sent(s: Q, actions: seq<Action>, t: Tid): seq<nat>
    decreases |actions|
  {
    if actions == [] then [] else Sends(s, actions[0], t) + Sent(Step(s, actions[0]), actions[1..], t)
  }

  /** How often thread t has called a. */
  function Calls(s: Q, actions: seq<Action>, a: Action, t: Tid): nat
    decreases |actions|
  {
    if actions == [] then 0
    else (if actions[0] == a && s.running == t then 1 else 0) + Calls(Step(s, actions[0]), actions[1..], a, t)
  }

  function Values(es: seq<Entry>): seq<nat> { if es == [] then [] else [es[0].v] + Values(es[1..]) }

  function Of(es: seq<Entry>, t: Tid): seq<nat> {
    if es == [] then [] else (if es[0].t == t then [es[0].v] else []) + Of(es[1..], t)
  }

  /** The items among the answers, NULL standing for none. */
  function Received(answers: seq<Answer>): seq<nat> {
    if answers == [] then [] else (if answers[0].v != NULL then [answers[0].v] else []) + Received(answers[1..])
  }

  /** How many answers of one kind thread t has got. */
  function Got(answers: seq<Answer>, blocking: bool, t: Tid): nat {
    if answers == [] then 0
    else (if answers[0].t == t && answers[0].blocking == blocking then 1 else 0) + Got(answers[1..], blocking, t)
  }

  lemma Prefixed(es: seq<Entry>, rest: seq<Entry>, t: Tid)
    requires |es| <= 1
    ensures Values(es + rest) == Values(es) + Values(rest) && Of(es + rest, t) == Of(es, t) + Of(rest, t)
  {
    if es == [] { assert es + rest == rest; } else { assert (es + rest)[1..] == rest; }
  }

  lemma AnswersPrefixed(first: seq<Answer>, rest: seq<Answer>, blocking: bool, t: Tid)
    requires |first| <= 1
    ensures Received(first + rest) == Received(first) + Received(rest)
    ensures Got(first + rest, blocking, t) == Got(first, blocking, t) + Got(rest, blocking, t)
  {
    if first == [] { assert first + rest == rest; } else { assert (first + rest)[1..] == rest; }
  }

  /** The item a consumer has taken and not yet returned. */
  function HandOf(pc: Pc): seq<nat> {
    if (pc.PopUnlock? || pc.TryUnlock?) && pc.ret != NULL then [pc.ret] else []
  }

  function Hand(s: Q): seq<nat> {
    if s.owner.Some? && s.owner.value in s.pcs then HandOf(s.pcs[s.owner.value]) else []
  }

  /** The push that thread t has called and not yet carried out. */
  function Pending(s: Q, t: Tid): seq<nat> {
    if t in s.pcs && (s.pcs[t].PushLock? || s.pcs[t].PushItem?) then [s.pcs[t].v] else []
  }

  predicate Pops(pc: Pc) {
    || pc == PopLock || pc.PopTest? || pc.PopTake? || pc.PopUnlock?
    || pc in {WaitSplock, WaitRelease, WaitSleep, WaitWoken, WaitRelock}
  }

  predicate Tries(pc: Pc) { pc in {TryLock, TryTake} || pc.TryUnlock? }

  function Busy(s: Q, blocking: bool, t: Tid): nat {
    if t in s.pcs && (if blocking then Pops(s.pcs[t]) else Tries(s.pcs[t])) then 1 else 0
  }

  function Call(blocking: bool): Action { if blocking then DoPop else DoTryPop }

  /** A blocking pop that is about to return has an item. */
  ghost predicate Filled(s: Q) { forall t | t in s.pcs && s.pcs[t].PopUnlock? :: s.pcs[t].ret != NULL }

  // -------------------------------------------------------------- one step of the order

  /** The queue as an observer sees it: the item in hand, then the queue. */
  function Line(s: Q): seq<nat> { Hand(s) + s.items }

  lemma HandStays(s: Q, s': Q, pc: Pc)
    requires s.owner.Some? ==> s.owner.value in s.pcs
    requires s'.owner == s.owner && s'.pcs == s.pcs[s.running := pc] && s.running in s.pcs
    requires s.owner != Some(s.running) || HandOf(pc) == HandOf(PcOf(s))
    ensures Hand(s') == Hand(s)
  {
  }

  lemma AcquireLine(s: Q, next: Pc)
    requires Inv(s) && !s.halted && HandOf(next) == [] && AtLock(PcOf(s))
    ensures Line(Acquire(s, next)) == Line(s)
  {
    RunningAwake(s);
  }

  lemma ReleaseLine(s: Q, next: Pc)
    requires Inv(s) && !s.halted && HoldsLock(PcOf(s))
    ensures Line(s) == HandOf(PcOf(s)) + Line(Release(s, next)) && Release(s, next).items == s.items
  {
    RunningAwake(s);
    ReleaseFields(s, Release(s, next), next);
    assert Hand(s) == HandOf(PcOf(s)) && Hand(Release(s, next)) == [];
  }

  lemma TakeLine(s: Q)
    requires Inv(s) && !s.halted && (PcOf(s).PopTake? || PcOf(s) == TryTake)
    ensures Line(Micro(s)) == Line(s) && |Micro(s).items| <= |s.items|
  {
    RunningAwake(s);
    assert Hand(s) == [];
    if s.items != [] {
      assert s.items[0] in s.items;
      assert Hand(Micro(s)) == [s.items[0]];
      assert s.items == [s.items[0]] + s.items[1..];
    } else {
      assert Hand(Micro(s)) == [];
    }
  }

  lemma PushLine(s: Q)
    requires Inv(s) && !s.halted && PcOf(s).PushItem?
    ensures Line(Micro(s)) == Line(s) + [PcOf(s).v] && Enters(s, Next) == [Entry(s.running, PcOf(s).v)]
  {
    RunningAwake(s);
    assert Hand(s) == [] && Hand(Micro(s)) == [];
  }

  /** The other steps, which move neither item nor lock. */
  lemma MoveLine(s: Q)
    requires Inv(s) && !s.halted && !AtLock(PcOf(s)) && !PcOf(s).PopTake? && PcOf(s) != TryTake && !PcOf(s).PushItem?
    requires PcOf(s) !in {SigRelease, WaitRelease, PushUnlock} && !PcOf(s).PopUnlock? && !PcOf(s).TryUnlock?
    ensures Hand(Micro(s)) == Hand(s) && Micro(s).items == s.items
  {
    RunningAwake(s);
    var pc := if Micro(s).running in Micro(s).pcs && s.running in Micro(s).pcs then Micro(s).pcs[s.running] else Idle;
    HandStays(s, Micro(s), pc);
  }

  predicate Releases(pc: Pc) { pc in {SigRelease, WaitRelease, PushUnlock} || pc.PopUnlock? || pc.TryUnlock? }

  lemma LockLine(s: Q)
    requires Inv(s) && Enabled(s, Next) && AtLock(PcOf(s))
    ensures Line(Micro(s)) == Line(s) && Micro(s).items == s.items
  {
    match PcOf(s) {
      case PushLock(v) => AcquireLine(s, PushItem(v));
      case SigRelock => AcquireLine(s, PushUnlock);
      case PopLock => AcquireLine(s, PopTest(false));
      case WaitRelock => AcquireLine(s, PopTest(true));
      case TryLock => AcquireLine(s, TryTake);
    }
  }

  lemma UnlockLine(s: Q)
    requires Inv(s) && Enabled(s, Next) && Releases(PcOf(s))
    ensures Line(s) == HandOf(PcOf(s)) + Line(Micro(s)) && Micro(s).items == s.items
    ensures Received(Answers(s, Next)) == HandOf(PcOf(s))
  {
    match PcOf(s) {
      case SigRelease => ReleaseLine(s, SigWake);
      case WaitRelease => ReleaseLine(s, WaitSleep);
      case PushUnlock => ReleaseLine(s, Idle);
      case PopUnlock(_) => ReleaseLine(s, Idle);
      case TryUnlock(_) => ReleaseLine(s, Idle);
    }
  }

  /** What enters goes behind the line, what is answered comes off its front. */
  lemma NextLine(s: Q, s': Q, e: seq<nat>, r: seq<nat>)
    requires Inv(s) && Enabled(s, Next) && s' == Micro(s)
    requires e == Values(Enters(s, Next)) && r == Received(Answers(s, Next))
    ensures Line(s) + e == r + Line(s')
  {
    var pc := PcOf(s);
    if AtLock(pc) {
      LockLine(s);
    } else if Releases(pc) {
      UnlockLine(s);
    } else if pc.PushItem? {
      PushLine(s);
    } else {
      InnerLine(s);
    }
  }

  lemma InnerLine(s: Q)
    requires Inv(s) && Enabled(s, Next) && !AtLock(PcOf(s)) && !Releases(PcOf(s)) && !PcOf(s).PushItem?
    ensures Line(Micro(s)) == Line(s) && |Micro(s).items| <= |s.items|
  {
    if PcOf(s).PopTake? || PcOf(s) == TryTake { TakeLine(s); } else { MoveLine(s); }
  }

  lemma StepLine(s: Q, a: Action, s': Q, e: seq<nat>, r: seq<nat>)
    requires Inv(s) && Enabled(s, a) && s' == Step(s, a)
    requires e == Values(Enters(s, a)) && r == Received(Answers(s, a))
    ensures Line(s) + e == r + Line(s')
  {
    if a == Next {
      NextLine(s, s', e, r);
    } else {
      RunningAwake(s);
      if a != Preempt { HandStays(s, s', s'.pcs[s.running]); }
    }
  }

  // ------------------------------------------------------------- one step of one thread

  /** Where a thread's own step takes it. */
  function Goes(s: Q): Pc {
    var pc := PcOf(s);
    match pc
    case PushLock(v) => if s.owner.Some? then pc else PushItem(v)
    case PushItem(_) => SigSplock
    case SigSplock => SigRelease
    case SigRelease => SigWake
    case SigWake => SigUnsplock
    case SigUnsplock => SigRelock
    case SigRelock => if s.owner.Some? then pc else PushUnlock
    case PopLock => if s.owner.Some? then pc else PopTest(false)
    case PopTest(again) => if s.items == [] then WaitSplock else PopTake(again)
    case WaitSplock => WaitRelease
    case WaitRelease => WaitSleep
    case WaitSleep => WaitWoken
    case WaitWoken => WaitRelock
    case WaitRelock => if s.owner.Some? then pc else PopTest(true)
    case PopTake(_) => PopUnlock(Front(s))
    case TryLock => if s.owner.Some? then pc else TryTake
    case TryTake => TryUnlock(Front(s))
    case PushUnlock => Idle
    case PopUnlock(_) => Idle
    case TryUnlock(_) => Idle
    case Idle => Idle
  }

  function GoesBy(s: Q, a: Action): Pc {
    match a
    case Preempt => PcOf(s)
    case DoPush(v) => PushLock(v)
    case DoPop => PopLock
    case DoTryPop => TryLock
    case Next => Goes(s)
  }

  /** Only the running thread moves, and the queue grows only when it is at PushItem. */
  lemma NextMoves(s: Q)
    requires Inv(s) && Enabled(s, Next)
    ensures Micro(s).pcs == s.pcs[s.running := Goes(s)]
    ensures |Micro(s).items| > |s.items| <==> PcOf(s).PushItem?
  {
    var pc := PcOf(s);
    if AtLock(pc) {
      LockMoves(s);
    } else if Releases(pc) {
      UnlockMoves(s);
    } else if pc.PopTake? || pc == TryTake {
      if s.items != [] { assert s.items[0] in s.items; }
    } else {
      OtherMoves(s);
    }
  }

  lemma LockMoves(s: Q)
    requires Enabled(s, Next) && AtLock(PcOf(s))
    ensures Micro(s).pcs == s.pcs[s.running := Goes(s)] && Micro(s).items == s.items
  {
    assert s.pcs == s.pcs[s.running := PcOf(s)];
  }

  lemma UnlockMoves(s: Q)
    requires Enabled(s, Next) && Releases(PcOf(s))
    ensures Micro(s).pcs == s.pcs[s.running := Goes(s)] && Micro(s).items == s.items
  {
  }

  lemma OtherMoves(s: Q)
    requires Enabled(s, Next) && !AtLock(PcOf(s)) && !Releases(PcOf(s)) && !PcOf(s).PopTake? && PcOf(s) != TryTake
    ensures Micro(s).pcs == s.pcs[s.running := Goes(s)]
    ensures |Micro(s).items| > |s.items| <==> PcOf(s).PushItem?
  {
  }

  lemma Moves(s: Q, a: Action, s': Q)
    requires Inv(s) && Enabled(s, a) && s' == Step(s, a)
    ensures s'.pcs == s.pcs[s.running := GoesBy(s, a)]
    ensures Enters(s, a) == if a == Next && PcOf(s).PushItem? then [Entry(s.running, PcOf(s).v)] else []
  {
    if a == Next {
      NextMoves(s);
      if PcOf(s).PushItem? { assert s'.items == s.items + [PcOf(s).v]; }
    } else if a == Preempt {
      assert s.pcs == s.pcs[s.running := PcOf(s)];
    }
  }

  /** A thread that calls is in its own code. */
  predicate Calling(s: Q, a: Action) {
    s.running in s.pcs && (a.DoPush? || a.DoPop? || a.DoTryPop? ==> PcOf(s) == Idle)
  }

  lemma MovedPush(s: Q, a: Action, t: Tid, s': Q, e: seq<Entry>)
    requires Calling(s, a) && s'.pcs == s.pcs[s.running := GoesBy(s, a)]
    requires e == if a == Next && PcOf(s).PushItem? then [Entry(s.running, PcOf(s).v)] else []
    ensures Pending(s, t) + Sends(s, a, t) == Of(e, t) + Pending(s', t)
  {
  }

  lemma StepPush(s: Q, a: Action, t: Tid, s': Q, e: seq<Entry>)
    requires Inv(s) && Enabled(s, a) && s' == Step(s, a) && e == Enters(s, a)
    ensures Pending(s, t) + Sends(s, a, t) == Of(e, t) + Pending(s', t)
  {
    Moves(s, a, s');
    MovedPush(s, a, t, s', e);
  }

  lemma MovedPop(s: Q, a: Action, blocking: bool, t: Tid, s': Q)
    requires Calling(s, a) && s'.pcs == s.pcs[s.running := GoesBy(s, a)]
    ensures Busy(s, blocking, t) + (if a == Call(blocking) && s.running == t then 1 else 0)
            == Got(Answers(s, a), blocking, t) + Busy(s', blocking, t)
  {
  }

  lemma StepPop(s: Q, a: Action, blocking: bool, t: Tid, s': Q)
    requires Inv(s) && Enabled(s, a) && s' == Step(s, a)
    ensures Busy(s, blocking, t) + (if a == Call(blocking) && s.running == t then 1 else 0)
            == Got(Answers(s, a), blocking, t) + Busy(s', blocking, t)
  {
    Moves(s, a, s');
    MovedPop(s, a, blocking, t, s');
  }

  lemma StepFilled(s: Q, a: Action, s': Q)
    requires Inv(s) && Enabled(s, a) && Filled(s) && s' == Step(s, a)
    ensures Filled(s') && forall x | x in Answers(s, a) :: x.blocking ==> x.v != NULL
  {
    Moves(s, a, s');
    if s.items != [] { assert s.items[0] in s.items; }
  }

  // ------------------------------------------------------------ the lock's own wake-ups

  /** Thread t is awake and has yet to test the lock. */
  ghost predicate Tests(s: Q, t: Tid) { t in s.pcs && t !in s.lockQ && t !in s.cvQ && AtLock(s.pcs[t]) }

  /** While threads sleep on a free lock, one is awake to take it. */
  ghost predicate LockServed(s: Q) { s.owner == None && s.lockQ != [] ==> exists t :: Tests(s, t) }

  /** lock_release wakes the thread that has slept longest on the lock, and no other. */
  lemma ReleaseServes(s: Q, next: Pc)
    requires Placed(s) && !AtLock(PcOf(s))
    ensures LockServed(Release(s, next))
    ensures s.lockQ == [] ==> Release(s, next).lockQ == [] && Release(s, next).ready == s.ready
    ensures s.lockQ != [] ==>
              s.lockQ == [s.lockQ[0]] + Release(s, next).lockQ && Release(s, next).ready == s.ready + [s.lockQ[0]]
  {
    RunningAwake(s);
    if s.lockQ != [] {
      assert s.lockQ == [s.lockQ[0]] + s.lockQ[1..];
      assert s.lockQ[0] in s.lockQ;
      OnceEach(s, s.lockQ[0]);
      assert Tests(Release(s, next), s.lockQ[0]);
    }
  }

  lemma OnceEach(s: Q, t: Tid)
    requires Placed(s) && s.lockQ != [] && t == s.lockQ[0]
    ensures t !in s.lockQ[1..] && t !in s.cvQ && t != s.running
  {
    var all := multiset([s.running]) + multiset(s.ready) + multiset(s.lockQ) + multiset(s.cvQ);
    assert s.lockQ == [t] + s.lockQ[1..];
    assert multiset(s.lockQ) == multiset([t]) + multiset(s.lockQ[1..]);
    assert all[t] <= 1;
  }

  /** A thread that is awake and not running stays so while another takes a step. */
  lemma StaysAwake(s: Q, a: Action, s': Q, t: Tid)
    requires Inv(s) && Enabled(s, a) && s' == Step(s, a) && Tests(s, t) && t != s.running
    ensures Tests(s', t)
  {
    Moves(s, a, s');
    QueuesGrow(s, a, s', t);
  }

  /** Only the running thread joins a sleepers' list. */
  lemma QueuesGrow(s: Q, a: Action, s': Q, t: Tid)
    requires Inv(s) && Enabled(s, a) && s' == Step(s, a) && t != s.running
    ensures (t in s'.lockQ ==> t in s.lockQ) && (t in s'.cvQ ==> t in s.cvQ)
  {
    if a == Next {
      var pc := PcOf(s);
      if AtLock(pc) {
      } else if Releases(pc) {
        ReleaseQueues(s, s', t);
      } else {
        InnerQueues(s, s', t);
      }
    }
  }

  lemma ReleaseQueues(s: Q, s': Q, t: Tid)
    requires Enabled(s, Next) && s' == Micro(s) && Releases(PcOf(s))
    ensures (t in s'.lockQ ==> t in s.lockQ) && s'.cvQ == s.cvQ
  {
  }

  lemma InnerQueues(s: Q, s': Q, t: Tid)
    requires Enabled(s, Next) && s' == Micro(s) && !AtLock(PcOf(s)) && !Releases(PcOf(s)) && t != s.running
    ensures s'.lockQ == s.lockQ && (t in s'.cvQ ==> t in s.cvQ)
  {
  }

  lemma LockTaken(s: Q, s': Q)
    requires Enabled(s, Next) && s' == Micro(s) && AtLock(PcOf(s))
    ensures s'.owner.Some? && (s.owner == None ==> s'.lockQ == s.lockQ)
  {
  }

  lemma LockKept(s: Q, a: Action, s': Q)
    requires Enabled(s, a) && s' == Step(s, a) && (a == Next ==> !AtLock(PcOf(s)) && !Releases(PcOf(s)))
    ensures s'.owner == s.owner && s'.lockQ == s.lockQ
  {
  }

  lemma StepServed(s: Q, a: Action, s': Q)
    requires Inv(s) && Enabled(s, a) && s' == Step(s, a) && LockServed(s)
    ensures LockServed(s')
  {
    if a == Next && AtLock(PcOf(s)) {
      LockTaken(s, s');
    } else if a == Next && Releases(PcOf(s)) {
      UnlockServes(s);
    } else {
      LockKept(s, a, s');
      if s.owner == None && s.lockQ != [] {
        var t :| Tests(s, t);
        if t != s.running { StaysAwake(s, a, s', t); } else { PreemptedTests(s, a, s'); }
      }
    }
  }

  lemma PreemptedTests(s: Q, a: Action, s': Q)
    requires Inv(s) && Enabled(s, a) && s' == Step(s, a) && Tests(s, s.running) && (a == Next ==> !AtLock(PcOf(s)))
    ensures Tests(s', s.running)
  {
    RunningAwake(s);
  }

  lemma UnlockServes(s: Q)
    requires Inv(s) && Enabled(s, Next) && Releases(PcOf(s))
    ensures LockServed(Micro(s))
  {
    match PcOf(s) {
      case SigRelease => ReleaseServes(s, SigWake);
      case WaitRelease => ReleaseServes(s, WaitSleep);
      case PushUnlock => ReleaseServes(s, Idle);
      case PopUnlock(_) => ReleaseServes(s, Idle);
      case TryUnlock(_) => ReleaseServes(s, Idle);
    }
  }

  /** The machine halts only when the running thread goes to sleep on the condition variable
      and nobody is asleep on the lock. */
  lemma HaltsFree(s: Q, a: Action, s': Q)
    requires Inv(s) && Enabled(s, a) && s' == Step(s, a) && LockServed(s) && s'.halted
    ensures s'.lockQ == []
  {
    if a == Next && AtLock(PcOf(s)) {
      if s.owner.Some? { OwnerReady(s); }
      assert false;
    } else {
      assert PcOf(s) == WaitSleep && a == Next && s.ready == [];
      NobodyElse(s);
      LockKept(s, a, s');
    }
  }

  /** With an empty run queue, whoever is not running sleeps. */
  lemma NobodyElse(s: Q)
    requires Inv(s) && !s.halted && s.ready == [] && PcOf(s) == WaitSleep && LockServed(s)
    ensures s.lockQ == []
  {
    RunningAwake(s);
    forall t | t in s.pcs && t != s.running ensures t in s.lockQ || t in s.cvQ {
      assert t in multiset(s.pcs.Keys);
      assert t in multiset([s.running]) + multiset(s.ready) + multiset(s.lockQ) + multiset(s.cvQ);
    }
    assert s.owner == None;
  }

  // ------------------------------------------------------------------------ every run

  lemma Regroup(line: seq<nat>, e: seq<nat>, more: seq<nat>, r: seq<nat>, line1: seq<nat>, rest: seq<nat>,
                line2: seq<nat>)
    requires line + e == r + line1 && line1 + more == rest + line2
    ensures line + (e + more) == (r + rest) + line2
  {
    calc {
      line + (e + more);
      (line + e) + more;
      r + (line1 + more);
      (r + rest) + line2;
    }
  }

  lemma {:induction false} RunLine(s: Q, actions: seq<Action>, s': Q, vals: set<nat>)
    requires Inv(s) && Runs(s, actions, s') && Pushes(actions, vals) && NULL !in vals
    ensures Line(s) + Values(Entered(s, actions)) == Received(Answered(s, actions)) + Line(s')
    decreases |actions|
  {
    if actions != [] {
      assert actions[0] in actions;
      var a, s1 := actions[0], Step(s, actions[0]);
      StepInv(s, a);
      RunLine(s1, actions[1..], s', vals);
      LineThen(s, a, s1, Entered(s1, actions[1..]), Answered(s1, actions[1..]), Line(s'));
    }
  }

  lemma LineThen(s: Q, a: Action, s1: Q, more: seq<Entry>, rest: seq<Answer>, line: seq<nat>)
    requires Inv(s) && Enabled(s, a) && s1 == Step(s, a) && Line(s1) + Values(more) == Received(rest) + line
    ensures Line(s) + Values(Enters(s, a) + more) == Received(Answers(s, a) + rest) + line
  {
    StepLine(s, a, s1, Values(Enters(s, a)), Received(Answers(s, a)));
    Prefixed(Enters(s, a), more, s.running);
    AnswersPrefixed(Answers(s, a), rest, true, s.running);
    Regroup(Line(s), Values(Enters(s, a)), Values(more), Received(Answers(s, a)), Line(s1), Received(rest), line);
  }

  lemma {:induction false} RunPush(s: Q, actions: seq<Action>, s': Q, vals: set<nat>, t: Tid)
    requires Inv(s) && Runs(s, actions, s') && Pushes(actions, vals) && NULL !in vals
    ensures Pending(s, t) + Sent(s, actions, t) == Of(Entered(s, actions), t) + Pending(s', t)
    decreases |actions|
  {
    if actions != [] {
      assert actions[0] in actions;
      var a, s1 := actions[0], Step(s, actions[0]);
      StepInv(s, a);
      RunPush(s1, actions[1..], s', vals, t);
      PushThen(s, a, s1, Entered(s1, actions[1..]), Sent(s1, actions[1..], t), t, Pending(s', t));
    }
  }

  lemma PushThen(s: Q, a: Action, s1: Q, more: seq<Entry>, sent: seq<nat>, t: Tid, pending: seq<nat>)
    requires Inv(s) && Enabled(s, a) && s1 == Step(s, a) && Pending(s1, t) + sent == Of(more, t) + pending
    ensures Pending(s, t) + (Sends(s, a, t) + sent) == Of(Enters(s, a) + more, t) + pending
  {
    StepPush(s, a, t, s1, Enters(s, a));
    Prefixed(Enters(s, a), more, t);
    Regroup(Pending(s, t), Sends(s, a, t), sent, Of(Enters(s, a), t), Pending(s1, t), Of(more, t), pending);
  }

  lemma {:induction false} RunPop(s: Q, actions: seq<Action>, s': Q, vals: set<nat>, blocking: bool, t: Tid)
    requires Inv(s) && Runs(s, actions, s') && Pushes(actions, vals) && NULL !in vals
    ensures Busy(s, blocking, t) + Calls(s, actions, Call(blocking), t)
            == Got(Answered(s, actions), blocking, t) + Busy(s', blocking, t)
    decreases |actions|
  {
    if actions != [] {
      assert actions[0] in actions;
      var a, s1 := actions[0], Step(s, actions[0]);
      StepInv(s, a);
      StepPop(s, a, blocking, t, s1);
      RunPop(s1, actions[1..], s', vals, blocking, t);
      AnswersPrefixed(Answers(s, a), Answered(s1, actions[1..]), blocking, t);
    }
  }

  lemma {:induction false} RunFilled(s: Q, actions: seq<Action>, s': Q, vals: set<nat>)
    requires Inv(s) && Filled(s) && Runs(s, actions, s') && Pushes(actions, vals) && NULL !in vals
    ensures forall x | x in Answered(s, actions) :: x.blocking ==> x.v != NULL
    decreases |actions|
  {
    if actions != [] {
      assert actions[0] in actions;
      var a, s1 := actions[0], Step(s, actions[0]);
      StepInv(s, a);
      StepFilled(s, a, s1);
      RunFilled(s1, actions[1..], s', vals);
    }
  }

  lemma {:induction false} RunServed(s: Q, actions: seq<Action>, s': Q, vals: set<nat>)
    requires Inv(s) && LockServed(s) && (s.halted ==> s.lockQ == [])
    requires Runs(s, actions, s') && Pushes(actions, vals) && NULL !in vals
    ensures LockServed(s') && (s'.halted ==> s'.lockQ == [])
    decreases |actions|
  {
    if actions != [] {
      assert actions[0] in actions;
      var a, s1 := actions[0], Step(s, actions[0]);
      StepInv(s, a);
      StepServed(s, a, s1);
      if s1.halted { HaltsFree(s, a, s1); }
      RunServed(s1, actions[1..], s', vals);
    }
  }

  /** In every state of every run without NULL items. Order: the values that have entered the
      queue are, in order, those returned to callers, the one in a caller's hand, and the
      queue. Nothing forged: each thread's values have entered in the order of its pushes, all
      but the one it is at. Nothing forgotten: each thread has one answer for every pop it has
      called, all but the one it is in, and a blocking pop is never answered NULL. No signal
      and no release is lost, no assertion fails, and when everyone sleeps the queue is empty
      and nobody is after the lock. */
  lemma SafeRuns(s: Q, actions: seq<Action>, s': Q, vals: set<nat>)
    requires Start(s) && Runs(s, actions, s') && Pushes(actions, vals) && NULL !in vals
    ensures Values(Entered(s, actions)) == Received(Answered(s, actions)) + Hand(s') + s'.items
    ensures forall t :: Sent(s, actions, t) == Of(Entered(s, actions), t) + Pending(s', t)
    ensures forall t, blocking ::
      Calls(s, actions, Call(blocking), t) == Got(Answered(s, actions), blocking, t) + Busy(s', blocking, t)
    ensures forall x | x in Answered(s, actions) :: x.blocking ==> x.v != NULL
    ensures s'.cvQ != [] ==> |s'.items| <= |Woken(s')| + |Signalers(s')|
    ensures s'.owner == None && s'.lockQ != [] ==> exists t :: Tests(s', t)
    ensures !s'.fault && (s'.halted ==> s'.items == [] && s'.lockQ == [])
  {
    StartInv(s);
    RunInv(s, actions, s', vals);
    StartLine(s, actions, s', vals);
    forall t ensures Sent(s, actions, t) == Of(Entered(s, actions), t) + Pending(s', t) {
      RunPush(s, actions, s', vals, t);
      StartIdle(s, t);
    }
    forall t, blocking
      ensures Calls(s, actions, Call(blocking), t) == Got(Answered(s, actions), blocking, t) + Busy(s', blocking, t)
    {
      RunPop(s, actions, s', vals, blocking, t);
      StartIdle(s, t);
    }
    RunFilled(s, actions, s', vals);
    StartServed(s, actions, s', vals);
  }

  lemma StartServed(s: Q, actions: seq<Action>, s': Q, vals: set<nat>)
    requires Start(s) && Runs(s, actions, s') && Pushes(actions, vals) && NULL !in vals
    ensures LockServed(s') && (s'.halted ==> s'.lockQ == [])
  {
    StartInv(s);
    if s.lockQ != [] { Head(s.lockQ); }
    RunServed(s, actions, s', vals);
  }

  lemma StartIdle(s: Q, t: Tid)
    requires Start(s)
    ensures Pending(s, t) == [] && Busy(s, true, t) == Busy(s, false, t) == 0
  {
  }

  lemma StartLine(s: Q, actions: seq<Action>, s': Q, vals: set<nat>)
    requires Start(s) && Runs(s, actions, s') && Pushes(actions, vals) && NULL !in vals
    ensures Values(Entered(s, actions)) == Received(Answered(s, actions)) + Hand(s') + s'.items
  {
    StartInv(s);
    RunLine(s, actions, s', vals);
    Unfold(s, Values(Entered(s, actions)), Received(Answered(s, actions)), s');
  }

  lemma Unfold(s: Q, entered: seq<nat>, received: seq<nat>, s': Q)
    requires s.owner == None && s.items == [] && Line(s) + entered == received + Line(s')
    ensures entered == received + Hand(s') + s'.items
  {
    assert Line(s) == [] && received + Line(s') == received + Hand(s') + s'.items;
  }

  /** queue_ts_pop answers NULL exactly for the empty queue, else it takes the front. */
  lemma TryTakes(s: Q)
    requires Inv(s) && !s.halted && PcOf(s) == TryTake
    ensures var v := if s.items == [] then NULL else s.items[0];
      PcOf(Micro(s)) == TryUnlock(v) && (v == NULL <==> s.items == [])
          && (v != NULL ==> s.items == [v] + Micro(s).items)
  {
    RunningAwake(s);
    if s.items != [] { assert s.items[0] in s.items && s.items == [s.items[0]] + s.items[1..]; }
  }

  /** cv_signal wakes the thread that has slept longest, and no other. */
  lemma SignalWakesOne(s: Q)
    requires Inv(s) && !s.halted && PcOf(s) == SigWake
    ensures s.cvQ == [] ==> Micro(s).cvQ == [] && Micro(s).ready == s.ready
    ensures s.cvQ != [] ==> s.cvQ == [s.cvQ[0]] + Micro(s).cvQ && Micro(s).ready == s.ready + [s.cvQ[0]]
    ensures Micro(s).lockQ == s.lockQ && Micro(s).running == s.running
  {
    if s.cvQ != [] { assert s.cvQ == [s.cvQ[0]] + s.cvQ[1..]; }
  }

  /** Between a waiter's lock_release and its enqueueing on the channel nothing else
      runs: the only step left is the one that enqueues it. */
  lemma NoSignalBetween(s: Q, t: Tid, a: Action)
    requires Inv(s) && t in s.pcs && s.pcs[t] == WaitSleep && Enabled(s, a)
    ensures t == s.running && a == Next && Step(s, a).cvQ == s.cvQ + [t]
  {
  }

  /** Exactly when a consumer's take keeps the signals accounted for: a NULL at the
      front is returned but left in the queue, so then there must have been one
      woken consumer or signalling pusher to spare. */
  lemma TakeKeepsIff(s: Q)
    requires Placed(s) && Exclusive(s) && NoneLost(s) && PcOf(s).PopTake? && s.items != []
    ensures NoneLost(Micro(s)) <==>
      Front(s) != NULL || !PcOf(s).again || s.cvQ == [] || |s.items| < |Woken(s)| + |Signalers(s)|
    ensures Micro(s).items == (if Front(s) != NULL then s.items[1..] else s.items)
    ensures PcOf(Micro(s)) == PopUnlock(s.items[0])
  {
    var s' := Micro(s);
    RunningAwake(s);
    GotoCounts(s, s', PopUnlock(Front(s)));
  }

  // A run with a NULL item that leaves a consumer asleep beside a queued item.

  /** Some run that pushes nothing but NULL. */
  ghost predicate Reaches(s: Q, s': Q) { exists actions :: Runs(s, actions, s') && Pushes(actions, {NULL}) }

  lemma Then(s: Q, a: Action, s1: Q, s': Q)
    requires Enabled(s, a) && Step(s, a) == s1 && Reaches(s1, s') && (a.DoPush? ==> a.v == NULL)
    ensures Reaches(s, s')
  {
    var actions :| Runs(s1, actions, s') && Pushes(actions, {NULL});
    assert ([a] + actions)[1..] == actions;
    assert Runs(s, [a] + actions, s') && Pushes([a] + actions, {NULL});
  }

  lemma Here(s: Q)
    ensures Reaches(s, s)
  {
    assert Runs(s, [], s) && Pushes([], {NULL});
  }

  ghost predicate Undisturbed(s: Q) {
    !s.halted && s.running in s.pcs && s.lockQ == [] && s.splock == None && s.owner == None
  }

  function Asleep(s: Q): Q
    requires s.ready != []
  {
    s.(pcs := s.pcs[s.running := WaitWoken], cvQ := s.cvQ + [s.running], running := s.ready[0], ready := s.ready[1..])
  }

  /** cv_wait, undisturbed, up to its sleep. */
  lemma WaitSleeps(s: Q, s': Q)
    requires Undisturbed(s) && s.ready != [] && Reaches(Asleep(s), s')
    ensures Reaches(Goto(s.(owner := Some(s.running)), WaitSplock), s')
  {
    var held := s.(owner := Some(s.running));
    assert Reaches(Goto(held.(splock := Some(s.running)), WaitRelease), s') by { WaitReleases(s, s'); }
    Then(Goto(held, WaitSplock), Next, Goto(held.(splock := Some(s.running)), WaitRelease), s');
  }

  lemma WaitReleases(s: Q, s': Q)
    requires Undisturbed(s) && s.ready != [] && Reaches(Asleep(s), s')
    ensures Reaches(Goto(s.(owner := Some(s.running), splock := Some(s.running)), WaitRelease), s')
  {
    var spun := s.(splock := Some(s.running));
    Then(Goto(spun, WaitSleep), Next, Asleep(s), s');
    Then(Goto(spun.(owner := Some(s.running)), WaitRelease), Next, Goto(spun, WaitSleep), s');
  }

  /** queue_ts_pop_blocking, undisturbed, on an empty queue. */
  lemma PopBlocks(s: Q, s': Q)
    requires Undisturbed(s) && PcOf(s) == Idle && s.items == [] && s.ready != [] && Reaches(Asleep(s), s')
    ensures Reaches(s, s')
  {
    var held := s.(owner := Some(s.running));
    assert Reaches(Goto(held, WaitSplock), s') by { WaitSleeps(s, s'); }
    Then(Goto(held, PopTest(false)), Next, Goto(held, WaitSplock), s');
    Then(Goto(s, PopLock), Next, Goto(held, PopTest(false)), s');
    Then(s, DoPop, Goto(s, PopLock), s');
  }

  function Signalled(s: Q): Q
    requires s.cvQ != []
  {
    s.(ready := s.ready + [s.cvQ[0]], cvQ := s.cvQ[1..])
  }

  /** The end of queue_ts_push, undisturbed, from the wake-up on. */
  lemma SignalEnds(s: Q, s': Q)
    requires Undisturbed(s) && s.cvQ != [] && Reaches(Goto(Signalled(s), Idle), s')
    ensures Reaches(Goto(s.(splock := Some(s.running)), SigWake), s')
  {
    var woken := Signalled(s);
    Then(Goto(woken.(owner := Some(s.running)), PushUnlock), Next, Goto(woken, Idle), s');
    Then(Goto(woken, SigRelock), Next, Goto(woken.(owner := Some(s.running)), PushUnlock), s');
    Then(Goto(woken.(splock := Some(s.running)), SigUnsplock), Next, Goto(woken, SigRelock), s');
    Then(Goto(s.(splock := Some(s.running)), SigWake), Next, Goto(woken.(splock := Some(s.running)), SigUnsplock), s');
  }

  function Grown(s: Q, v: nat): Q { s.(items := s.items + [v]) }

  /** queue_ts_push, undisturbed, while someone sleeps on the channel. */
  lemma PushSignals(s: Q, v: nat, s': Q)
    requires v == NULL && Undisturbed(s) && PcOf(s) == Idle && s.cvQ != []
    requires Reaches(Goto(Signalled(Grown(s, v)), Idle), s')
    ensures Reaches(s, s')
  {
    var me, full := s.running, Grown(s, v);
    SignalEnds(full, s');
    Then(Goto(full.(owner := Some(me), splock := Some(me)), SigRelease), Next,
        Goto(full.(splock := Some(me)), SigWake), s');
    Then(Goto(full.(owner := Some(me)), SigSplock), Next,
        Goto(full.(owner := Some(me), splock := Some(me)), SigRelease), s');
    PushEnters(s, v, s');
  }

  lemma PushEnters(s: Q, v: nat, s': Q)
    requires v == NULL && Undisturbed(s) && PcOf(s) == Idle
    requires Reaches(Goto(Grown(s, v).(owner := Some(s.running)), SigSplock), s')
    ensures Reaches(s, s')
  {
    var held := s.(owner := Some(s.running));
    Then(Goto(held, PushItem(v)), Next, Goto(Grown(s, v).(owner := Some(s.running)), SigSplock), s');
    Then(Goto(s, PushLock(v)), Next, Goto(held, PushItem(v)), s');
    Then(s, DoPush(v), Goto(s, PushLock(v)), s');
  }

  /** The end of queue_ts_pop_blocking, undisturbed, with a NULL at the front. */
  lemma NullTaken(s: Q, s': Q)
    requires Undisturbed(s) && PcOf(s) == WaitWoken && s.items != [] && s.items[0] == NULL && Reaches(Goto(s, Idle), s')
    ensures Reaches(s, s')
  {
    var held := s.(owner := Some(s.running));
    assert Reaches(Goto(held, PopTest(true)), s') by { NullKept(s, s'); }
    Then(Goto(s, WaitRelock), Next, Goto(held, PopTest(true)), s');
    Then(s, Next, Goto(s, WaitRelock), s');
  }

  lemma NullKept(s: Q, s': Q)
    requires Undisturbed(s) && s.items != [] && s.items[0] == NULL && Reaches(Goto(s, Idle), s')
    ensures Reaches(Goto(s.(owner := Some(s.running)), PopTest(true)), s')
  {
    var held := s.(owner := Some(s.running));
    Then(Goto(held, PopUnlock(NULL)), Next, Goto(s, Idle), s');
    Then(Goto(held, PopTake(true)), Next, Goto(held, PopUnlock(NULL)), s');
    Then(Goto(held, PopTest(true)), Next, Goto(held, PopTake(true)), s');
  }

  function Scene(pc1: Pc, pc2: Pc, running: Tid, ready: seq<Tid>, cvQ: seq<Tid>, items: seq<nat>): Q {
    Q(map[0 := Idle, 1 := pc1, 2 := pc2], running, ready, [], cvQ, None, None, items, false, false)
  }

  lemma BothSleep(s': Q)
    requires Reaches(Scene(WaitWoken, WaitWoken, 0, [], [1, 2], []), s')
    ensures Reaches(Scene(Idle, Idle, 1, [2, 0], [], []), s')
  {
    var s1 := Scene(WaitWoken, Idle, 2, [0], [1], []);
    assert Asleep(s1) == Scene(WaitWoken, WaitWoken, 0, [], [1, 2], []);
    PopBlocks(s1, s');
    assert Asleep(Scene(Idle, Idle, 1, [2, 0], [], [])) == s1;
    PopBlocks(Scene(Idle, Idle, 1, [2, 0], [], []), s');
  }

  lemma OneTakes(s': Q)
    requires Reaches(Scene(Idle, WaitWoken, 1, [0], [2], [NULL]), s')
    ensures Reaches(Scene(WaitWoken, WaitWoken, 0, [1], [2], [NULL]), s')
  {
    var s3, s4 := Scene(WaitWoken, WaitWoken, 0, [1], [2], [NULL]), Scene(WaitWoken, WaitWoken, 1, [0], [2], [NULL]);
    assert Goto(s4, Idle) == Scene(Idle, WaitWoken, 1, [0], [2], [NULL]);
    assert Reaches(s4, s') by { NullTaken(s4, s'); }
    Then(s3, Preempt, s4, s') by { assert [1] + [0] == [1, 0] && [1, 0][1..] == [0]; }
  }

  lemma OneWakes(s': Q)
    requires Reaches(Scene(WaitWoken, WaitWoken, 0, [1], [2], [NULL]), s')
    ensures Reaches(Scene(WaitWoken, WaitWoken, 0, [], [1, 2], []), s')
  {
    var s2, s3 := Scene(WaitWoken, WaitWoken, 0, [], [1, 2], []), Scene(WaitWoken, WaitWoken, 0, [1], [2], [NULL]);
    assert Goto(Signalled(Grown(s2, NULL)), Idle) ==
        s3 by { assert [1, 2][1..] == [2] && [] + [NULL] == [NULL] && [] + [1] == [1]; }
    PushSignals(s2, NULL, s');
  }

  /** Consumers 1 and 2 sleep, 0 pushes one NULL: in the end the item is there and
      consumer 2 sleeps, with nobody left to wake it. */
  lemma NullLosesSignal() returns (s: Q, s': Q)
    ensures Start(s) && Reaches(s, s') && !s'.halted
    ensures s'.items == [NULL] && s'.cvQ == [2] && Woken(s') == {} && Signalers(s') == {} && !NoneLost(s')
  {
    s, s' := Scene(Idle, Idle, 1, [2, 0], [], []), Scene(Idle, WaitWoken, 1, [0], [2], [NULL]);
    assert Reaches(s, s') by {
      Here(s');
      OneTakes(s');
      OneWakes(s');
      BothSleep(s');
    }
    SceneStarts(s);
  }

  lemma SceneStarts(s: Q)
    requires s == Scene(Idle, Idle, 1, [2, 0], [], [])
    ensures Start(s)
  {
    assert s.pcs.Keys == {0, 1, 2};
    assert multiset([1]) + multiset([2, 0]) + multiset([]) + multiset([]) == multiset({0, 1, 2});
  }

  /** No signal is lost in any run whose pushes come from `vals`. */
  ghost predicate Reliable(vals: set<nat>) {
    forall s, actions, s' | Start(s) && Runs(s, actions, s') && Pushes(actions, vals) :: NoneLost(s')
  }

  /** Exactly the clients that never push NULL are safe from a lost signal. */
  lemma ReliableIff(vals: set<nat>)
    ensures Reliable(vals) <==> NULL !in vals
  {
    if NULL in vals {
      var s, s' := NullLosesSignal();
      var actions :| Runs(s, actions, s') && Pushes(actions, {NULL});
      assert Pushes(actions, vals);
    } else {
      forall s, actions, s' | Start(s) && Runs(s, actions, s') && Pushes(actions, vals) ensures NoneLost(s') {
        SafeRuns(s, actions, s', vals);
      }
    }
  }
}
