/**
  Interrupt discipline on one CPU. Every spinlock saves the interrupt flag into one
  static `iflag` that all spinlocks and all threads share. A thread is the list of
  flag and spinlock operations it still has to do; the machine interleaves threads
  at every switch and, while interrupts are on, at every timer tick.

  The main result is that the sharing is harmless: in every run each thread sees the
  flag, the held spinlocks and its saved flags exactly as if it ran alone.
*/
module Interrupts {
  import opened Basics

  type Lk = nat

  const RUN_QUEUE: Lk := 0    // cpu->active_threads_lock
  const MEM: Lk := 1          // mem_lock, around kmalloc and kfree
  const WCHANS: Lk := 2       // allwchans_lock
  const PROC: Lk := 3         // proc->lock
  const PAGE_REG: Lk := 4     // the spinlock of the page registrar's sleep lock

  datatype Op =
    | Save             // x = cli()
    | Restore          // ifx(x)
    | Cli
    | Trap             // entering the kernel through a gate: the flags are pushed, interrupts go off
    | Iret             // the pushed flags come back
    | Sti
    | AssertOff        // assert(cli() == false)
    | Spin(l: Lk)      // spinlock_acquire
    | Unspin(l: Lk)    // spinlock_release
    | Sole(l: Lk)      // wchan_sleep's two assertions
    | Switch           // switchframe_switch to another thread

  /** What one thread sees of the CPU. `ok`: no assertion has failed. */
  datatype View = View(on: bool, iflag: bool, held: set<Lk>, saved: seq<bool>, ok: bool)

  function Do(v: View, op: Op): View {
    match op
    case Save => v.(saved := [v.on] + v.saved, on := false)
    case Restore => if v.saved == [] then v.(ok := false) else v.(on := v.on || v.saved[0], saved := v.saved[1..])
    case Cli => v.(on := false)
    case Trap => v.(saved := [v.on] + v.saved, on := false)
    case Iret => if v.saved == [] then v.(ok := false) else v.(on := v.saved[0], saved := v.saved[1..])
    case Sti => v.(on := true)
    case AssertOff => v.(ok := v.ok && !v.on, on := false)
    case Spin(l) => v.(ok := v.ok && l !in v.held, iflag := v.on, on := false, held := v.held + {l})
    case Unspin(l) => v.(ok := v.ok && l in v.held, held := v.held - {l}, on := v.on || v.iflag)
    case Sole(l) => v.(ok := v.ok && v.held == {l})
    case Switch => v.(ok := v.ok && v.held == {} && !v.on)
  }

  /** A thread running with nobody else on the CPU. */
  function Alone(v: View, code: seq<Op>): View
    decreases |code|
  {
    if code == [] then v else Alone(Do(v, code[0]), code[1..])
  }

  /** No assertion fails, and interrupts are off while a spinlock is held. */
  predicate Safe(v: View) { v.ok && (v.held != {} ==> !v.on) }

  predicate Sound(v: View, code: seq<Op>)
    decreases |code|
  {
    Safe(v) && (code != [] ==> Sound(Do(v, code[0]), code[1..]))
  }

  // ------------------------------------------------------------------ the machine

  datatype Task = Task(code: seq<Op>, saved: seq<bool>, on: bool)

  datatype Machine = Machine(on: bool, iflag: bool, held: set<Lk>, running: Tid, tasks: map<Tid, Task>, fault: bool)

  /** A timer tick that only counts, or one that yields. */
  datatype Kind = Counting | Yielding(alone: bool, zombies: seq<Zombie>)

  function TickCode(kind: Kind): seq<Op> {
    if kind == Counting then [Trap, Iret] else YieldCode(kind.alone, kind.zombies)
  }

  datatype Action = Exec(next: Tid) | Tick(kind: Kind)

  predicate Enabled(m: Machine, a: Action) {
    && m.running in m.tasks && !m.fault
    && (a.Exec? ==> a.next in m.tasks && m.tasks[m.running].code != [])
    && (a.Tick? ==> m.on)
  }

  function ViewOf(m: Machine, t: Tid): View
    requires t in m.tasks
  {
    if t == m.running then View(m.on, m.iflag, m.held, m.tasks[t].saved, !m.fault)
    else View(m.tasks[t].on, false, {}, m.tasks[t].saved, true)
  }

  function Code(m: Machine, t: Tid): seq<Op>
    requires t in m.tasks
  {
    m.tasks[t].code
  }

  function Step(m: Machine, a: Action): Machine
    requires Enabled(m, a)
  {
    var me := m.tasks[m.running];
    match a
    case Tick(kind) => m.(tasks := m.tasks[m.running := me.(code := TickCode(kind) + me.code)])
    case Exec(next) =>
      var v := Do(ViewOf(m, m.running), me.code[0]);
      var tasks := m.tasks[m.running := Task(me.code[1..], v.saved, v.on)];
      if me.code[0] != Switch then Machine(v.on, v.iflag, v.held, m.running, tasks, !v.ok)
      else Machine(tasks[next].on, v.iflag, v.held, next, tasks, !v.ok)
  }

  ghost predicate Runs(m: Machine, actions: seq<Action>, m': Machine)
    decreases |actions|
  {
    if actions == [] then m' == m else Enabled(m, actions[0]) && Runs(Step(m, actions[0]), actions[1..], m')
  }

  // ----------------------------------------------------- iflag between critical regions

  /** Equal but for an iflag that nothing will read. */
  predicate Same(v: View, v': View) { v' == v.(iflag := v'.iflag) && (v.held != {} ==> v.iflag == v'.iflag) }

  lemma SameDo(v: View, v': View, op: Op)
    requires Same(v, v') && Do(v, op).ok
    ensures Same(Do(v, op), Do(v', op))
  {
  }

  lemma {:induction false} SameAlone(v: View, v': View, code: seq<Op>)
    requires Same(v, v') && Sound(v, code)
    ensures Same(Alone(v, code), Alone(v', code)) && Sound(v', code)
    decreases |code|
  {
    if code != [] {
      SameDo(v, v', code[0]);
      SameAlone(Do(v, code[0]), Do(v', code[0]), code[1..]);
    }
  }

  lemma Head(v: View, code: seq<Op>)
    requires Sound(v, code)
    ensures Safe(v) && (code != [] ==> Safe(Do(v, code[0])))
  {
    if code != [] { assert Sound(Do(v, code[0]), code[1..]); }
  }

  // --------------------------------------------------------------- the simulation

  ghost predicate Inv(m: Machine) {
    && m.running in m.tasks && !m.fault
    && forall t | t in m.tasks :: Sound(ViewOf(m, t), Code(m, t)) && (t != m.running ==> !m.tasks[t].on)
  }

  /** Two views of one thread, with `k` operations of its code left out, agree on the rest. */
  ghost predicate Tracks(v: View, code: seq<Op>, v': View, code': seq<Op>, k: nat) {
    |code| >= k && |code'| >= k ==> Same(Alone(v, code[..|code| - k]), Alone(v', code'[..|code'| - k]))
  }

  /** One operation of a thread's own. */
  lemma OwnStep(v: View, code: seq<Op>, v1: View, k: nat)
    requires code != [] && Sound(v, code) && Same(Do(v, code[0]), v1)
    ensures Sound(v1, code[1..]) && Tracks(v, code, v1, code[1..], k)
  {
    SameAlone(Do(v, code[0]), v1, code[1..]);
    if |code| > k {
      var pre := code[..|code| - k];
      assert pre[1..] == code[1..][..|code[1..]| - k];
      SoundPrefix(Do(v, code[0]), pre[1..], code[1..]);
      SameAlone(Do(v, code[0]), v1, pre[1..]);
    }
  }

  lemma {:induction false} SoundPrefix(v: View, pre: seq<Op>, code: seq<Op>)
    requires Sound(v, code) && pre <= code
    ensures Sound(v, pre)
    decreases |code|
  {
    if pre != [] { SoundPrefix(Do(v, pre[0]), pre[1..], code[1..]); }
  }

  // ----------------------------------------------------- code of the kernel's functions

  /** Alone, the code runs from one view to the other without a failing assertion. */
  predicate Takes(v: View, code: seq<Op>, v': View) { Sound(v, code) && Alone(v, code) == v' }

  lemma {:induction false} Chain(v: View, a: seq<Op>, v1: View, b: seq<Op>, v2: View)
    requires Takes(v, a, v1) && Takes(v1, b, v2)
    ensures Takes(v, a + b, v2)
    decreases |a|
  {
    if a == [] {
      assert a + b == b;
    } else {
      Chain(Do(v, a[0]), a[1..], v1, b, v2);
      assert (a + b)[1..] == a[1..] + b;
    }
  }

  lemma {:induction false} ChainSound(v: View, a: seq<Op>, v1: View, rest: seq<Op>)
    requires Takes(v, a, v1) && Sound(v1, rest)
    ensures Sound(v, a + rest) && Alone(v, a + rest) == Alone(v1, rest)
  {
    Chain(v, a, v1, rest, Alone(v1, rest));
  }

  lemma One(v: View, a: Op)
    requires Safe(v) && Safe(Do(v, a))
    ensures Takes(v, [a], Do(v, a))
  {
    assert [a][1..] == [];
  }

  lemma Two(v: View, a: Op, b: Op)
    requires Safe(v) && Safe(Do(v, a)) && Safe(Do(Do(v, a), b))
    ensures Takes(v, [a, b], Do(Do(v, a), b))
  {
    One(v, a);
    One(Do(v, a), b);
    Chain(v, [a], Do(v, a), [b], Do(Do(v, a), b));
    assert [a] + [b] == [a, b];
  }

  /** Outside every spinlock, or inside with interrupts off. */
  predicate Ready(v: View) { Safe(v) && RUN_QUEUE !in v.held }

  function Runnable(): seq<Op> { [Save, Spin(RUN_QUEUE)] + [Unspin(RUN_QUEUE), Restore] }

  /** thread_make_runnable gives back the caller's flag. */
  lemma RunnableTakes(v: View)
    requires Ready(v)
    ensures Takes(v, Runnable(), v.(iflag := false))
  {
    var v1 := v.(iflag := false, on := false, saved := [v.on] + v.saved, held := v.held + {RUN_QUEUE});
    Two(v, Save, Spin(RUN_QUEUE));
    assert v1.held - {RUN_QUEUE} == v.held && v1.saved[1..] == v.saved;
    Two(v1, Unspin(RUN_QUEUE), Restore);
    Chain(v, [Save, Spin(RUN_QUEUE)], v1, [Unspin(RUN_QUEUE), Restore], v.(iflag := false));
  }

  function Runnables(n: nat): seq<Op> { if n == 0 then [] else Runnable() + Runnables(n - 1) }

  lemma {:induction false} RunnablesTake(v: View, n: nat)
    requires Ready(v)
    ensures Takes(v, Runnables(n), if n == 0 then v else v.(iflag := false))
    decreases n
  {
    if n > 0 {
      RunnableTakes(v);
      RunnablesTake(v.(iflag := false), n - 1);
      Chain(v, Runnable(), v.(iflag := false), Runnables(n - 1), v.(iflag := false));
    }
  }

  /** wchan_sleep: thread_switch(S_SLEEP) behind its gate, then the spinlock again. */
  function SleepCode(l: Lk): seq<Op> {
    [Sole(l), Trap] + ([AssertOff, Spin(RUN_QUEUE)] + ([Unspin(l), Unspin(RUN_QUEUE)] + ([Switch, Iret] + [Spin(l)])))
  }

  lemma SleepTakes(v: View, l: Lk)
    requires Safe(v) && v.held == {l} && l != RUN_QUEUE
    ensures Takes(v, SleepCode(l), v.(iflag := false))
  {
    var v1 := v.(saved := [false] + v.saved);
    var v2 := v1.(iflag := false, held := {l} + {RUN_QUEUE});
    var v3 := v2.(held := {});
    var v4, v5 := v3.(saved := v.saved), v.(iflag := false);
    Two(v, Sole(l), Trap);
    Two(v1, AssertOff, Spin(RUN_QUEUE));
    assert v2.held - {l} - {RUN_QUEUE} == {};
    Two(v2, Unspin(l), Unspin(RUN_QUEUE));
    assert v1.saved[1..] == v.saved;
    Two(v3, Switch, Iret);
    assert {} + {l} == {l};
    One(v4, Spin(l));
    Chain(v3, [Switch, Iret], v4, [Spin(l)], v5);
    Chain(v2, [Unspin(l), Unspin(RUN_QUEUE)], v3, [Switch, Iret] + [Spin(l)], v5);
    Chain(v1, [AssertOff, Spin(RUN_QUEUE)], v2, [Unspin(l), Unspin(RUN_QUEUE)] + ([Switch, Iret] + [Spin(l)]), v5);
    Chain(v, [Sole(l), Trap], v1,
        [AssertOff, Spin(RUN_QUEUE)] + ([Unspin(l), Unspin(RUN_QUEUE)] + ([Switch, Iret] + [Spin(l)])), v5);
  }

  /** A wait loop that sleeps `n` times. */
  function Sleeps(l: Lk, n: nat): seq<Op> { if n == 0 then [] else SleepCode(l) + Sleeps(l, n - 1) }

  lemma {:induction false} SleepsTake(v: View, l: Lk, n: nat)
    requires Safe(v) && v.held == {l} && l != RUN_QUEUE
    ensures Takes(v, Sleeps(l, n), if n == 0 then v else v.(iflag := false))
    decreases n
  {
    if n > 0 {
      SleepTakes(v, l);
      SleepsTake(v.(iflag := false), l, n - 1);
      Chain(v, SleepCode(l), v.(iflag := false), Sleeps(l, n - 1), v.(iflag := false));
    }
  }

  function Bracket(l: Lk, body: seq<Op>): seq<Op> { [Spin(l)] + (body + [Unspin(l)]) }

  /** A critical region whose body does nothing to the flag, or forgets it. */
  lemma BracketTakes(v: View, l: Lk, body: seq<Op>, on: bool)
    requires Ready(v) && l !in v.held && (on ==> v.on)
    requires Takes(Do(v, Spin(l)), body, Do(v, Spin(l)).(iflag := on))
    ensures Takes(v, Bracket(l, body), v.(iflag := on, on := on))
  {
    var v1 := Do(v, Spin(l));
    var v2 := v1.(iflag := on);
    One(v, Spin(l));
    assert v2.held - {l} == v.held;
    One(v2, Unspin(l));
    Chain(v1, body, v2, [Unspin(l)], v.(iflag := on, on := on));
    Chain(v, [Spin(l)], v1, body + [Unspin(l)], v.(iflag := on, on := on));
  }

  function Saving(code: seq<Op>): seq<Op> { [Save] + (code + [Restore]) }

  /** `on = cli(); ...; ifx(on)` gives back the caller's flag, whatever goes on inside. */
  lemma SavingTakes(v: View, code: seq<Op>, iflag: bool)
    requires Safe(v)
    requires Takes(Do(v, Save), code, Do(v, Save).(iflag := iflag))
    ensures Takes(v, Saving(code), v.(iflag := iflag))
  {
    var v1 := Do(v, Save);
    One(v, Save);
    assert v1.saved[1..] == v.saved;
    One(v1.(iflag := iflag), Restore);
    Chain(v1, code, v1.(iflag := iflag), [Restore], v.(iflag := iflag));
    Chain(v, [Save], v1, code + [Restore], v.(iflag := iflag));
  }

  /** P with `n` sleeps: the flag comes back exactly if it was off or P did not sleep. */
  lemma DownTakes(v: View, l: Lk, n: nat)
    requires Safe(v) && v.held == {} && l != RUN_QUEUE
    ensures Takes(v, Bracket(l, Sleeps(l, n)), v.(iflag := v.on && n == 0, on := v.on && n == 0))
  {
    assert {} + {l} == {l};
    SleepsTake(Do(v, Spin(l)), l, n);
    BracketTakes(v, l, Sleeps(l, n), v.on && n == 0);
  }

  /** V waking `n` threads (at most one there, any number in a broadcast): the flag
      comes back exactly if it was off or nobody was woken. */
  lemma UpTakes(v: View, l: Lk, n: nat)
    requires Ready(v) && l !in v.held && l != RUN_QUEUE
    ensures Takes(v, Bracket(l, Runnables(n)), v.(iflag := v.on && n == 0, on := v.on && n == 0))
  {
    RunnablesTake(Do(v, Spin(l)), n);
    BracketTakes(v, l, Runnables(n), v.on && n == 0);
  }

  function AcquireCode(l: Lk, n: nat): seq<Op> { Saving(Bracket(l, Sleeps(l, n))) }

  function ReleaseCode(l: Lk, n: nat): seq<Op> { Saving(Bracket(l, Runnables(n))) }

  /** lock_acquire restores the flag however often it slept. */
  lemma AcquireTakes(v: View, l: Lk, n: nat)
    requires Safe(v) && v.held == {} && l != RUN_QUEUE
    ensures Takes(v, AcquireCode(l, n), v.(iflag := false))
  {
    var v1 := Do(v, Save);
    DownTakes(v1, l, n);
    SavingTakes(v, Bracket(l, Sleeps(l, n)), false);
  }

  /** lock_release restores the flag, inside another spinlock too. */
  lemma ReleaseTakes(v: View, l: Lk, n: nat)
    requires Ready(v) && l !in v.held && l != RUN_QUEUE
    ensures Takes(v, ReleaseCode(l, n), v.(iflag := false))
  {
    var v1 := Do(v, Save);
    UpTakes(v1, l, n);
    SavingTakes(v, Bracket(l, Runnables(n)), false);
  }

  /** `n` times kmalloc or kfree. */
  function Regions(n: nat): seq<Op> { if n == 0 then [] else Bracket(MEM, []) + Regions(n - 1) }

  lemma {:induction false} RegionsTake(v: View, n: nat)
    requires Ready(v) && !v.on && MEM !in v.held
    ensures Takes(v, Regions(n), if n == 0 then v else v.(iflag := false))
    decreases n
  {
    if n > 0 {
      assert Takes(Do(v, Spin(MEM)), [], Do(v, Spin(MEM)));
      BracketTakes(v, MEM, [], false);
      RegionsTake(v.(iflag := false), n - 1);
      Chain(v, Bracket(MEM, []), v.(iflag := false), Regions(n - 1), v.(iflag := false));
    }
  }

  // ---------------------------------------------------------------- the simple calls

  /** A call, with the number of times it happens to sleep, the number of threads it happens
      to wake, or the number of kmallocs and kfrees inside its critical region. */
  datatype Simple =
    | LockAcquire(l: Lk, sleeps: nat)
    | LockRelease(l: Lk, wakes: nat)
    | P(l: Lk, sleeps: nat)
    | V(l: Lk, wakes: nat)
    | MakeRunnable
    | Critical(l: Lk, inner: nat)
    | CliIfx    // on = cli(); straight code; ifx(on)

  predicate Fit(call: Simple) {
    match call
    case LockAcquire(l, _) => l != RUN_QUEUE
    case LockRelease(l, _) => l != RUN_QUEUE
    case P(l, _) => l != RUN_QUEUE
    case V(l, _) => l != RUN_QUEUE
    case Critical(l, n) => l != RUN_QUEUE && (l == MEM ==> n == 0)
    case MakeRunnable => true
    case CliIfx => true
  }

  function SimpleCode(call: Simple): seq<Op> {
    match call
    case LockAcquire(l, n) => AcquireCode(l, n)
    case LockRelease(l, n) => ReleaseCode(l, n)
    case P(l, n) => Bracket(l, Sleeps(l, n))
    case V(l, n) => Bracket(l, Runnables(n))
    case Critical(l, n) => Bracket(l, Regions(n))
    case MakeRunnable => Runnable()
    case CliIfx => Saving([])
  }

  /** Whether a simple call gives back a flag that is on. */
  predicate Keeps(call: Simple) {
    (call.P? ==> call.sleeps == 0) && (call.V? ==> call.wakes == 0) && (call.Critical? ==> call.inner == 0)
  }

  lemma SimpleTakes(v: View, call: Simple) returns (iflag: bool)
    requires Safe(v) && v.held == {} && Fit(call)
    ensures Takes(v, SimpleCode(call), v.(iflag := iflag, on := v.on && Keeps(call)))
  {
    iflag := Alone(v, SimpleCode(call)).iflag;
    match call {
      case LockAcquire(l, n) => AcquireTakes(v, l, n);
      case LockRelease(l, n) => ReleaseTakes(v, l, n);
      case P(l, n) => DownTakes(v, l, n);
      case V(l, n) => UpTakes(v, l, n);
      case Critical(l, n) => CriticalTakes(v, l, n);
      case MakeRunnable => RunnableTakes(v);
      case CliIfx => SavingTakes(v, [], v.iflag);
    }
  }

  /** A critical region gives back the flag exactly if it was off or nothing inside takes
      another spinlock. */
  lemma CriticalTakes(v: View, l: Lk, n: nat)
    requires Safe(v) && v.held == {} && l != RUN_QUEUE && (l == MEM ==> n == 0)
    ensures Takes(v, Bracket(l, Regions(n)), v.(iflag := v.on && n == 0, on := v.on && n == 0))
  {
    if n == 0 {
      assert Takes(Do(v, Spin(l)), [], Do(v, Spin(l)));
    } else {
      RegionsTake(Do(v, Spin(l)), n);
    }
    BracketTakes(v, l, Regions(n), v.on && n == 0);
  }

  /** kmalloc, and wchan_create once its array need not grow, give back the flag; a
      wchan_create that grows the array calls kmalloc under allwchans_lock and does not. */
  lemma GrowingLosesFlag(v: View, inner: nat)
    requires Safe(v) && v.held == {} && v.on
    ensures Alone(v, SimpleCode(Critical(WCHANS, inner))).on <==> inner == 0
    ensures Alone(v, SimpleCode(Critical(MEM, 0))).on
  {
    CriticalTakes(v, WCHANS, inner);
    CriticalTakes(v, MEM, 0);
  }

  function Simples(calls: seq<Simple>): seq<Op> {
    if calls == [] then [] else SimpleCode(calls[0]) + Simples(calls[1..])
  }

  /** With interrupts off they stay off, whatever is called. */
  lemma {:induction false} SimplesTake(v: View, calls: seq<Simple>) returns (iflag: bool)
    requires Safe(v) && v.held == {} && !v.on && forall call | call in calls :: Fit(call)
    ensures Takes(v, Simples(calls), v.(iflag := iflag))
    decreases |calls|
  {
    iflag := v.iflag;
    if calls != [] {
      var i := SimpleTakes(v, calls[0]);
      iflag := SimplesTake(v.(iflag := i), calls[1..]);
      Chain(v, SimpleCode(calls[0]), v.(iflag := i), Simples(calls[1..]), v.(iflag := iflag));
    }
  }

  // -------------------------------------------------------------------- thread_switch

  /** A thread that thread_exorcise destroys: its stack goes back under the page registrar's
      sleep lock, its name and itself to the heap. */
  datatype Zombie = Zombie(sleeps: nat, wakes: nat)

  function Exorcism(zombies: seq<Zombie>): (calls: seq<Simple>)
    ensures forall call | call in calls :: Fit(call)
  {
    if zombies == [] then []
    else
      var z := zombies[0];
      [LockAcquire(PAGE_REG, z.sleeps), Critical(MEM, 0), LockRelease(PAGE_REG, z.wakes), Critical(MEM, 0),
          Critical(MEM, 0)] + Exorcism(zombies[1..])
  }

  /** thread_switch(S_READY) behind its gate: the zombies, then taking turns, or finding no one
      else. */
  function YieldCode(alone: bool, zombies: seq<Zombie>): seq<Op> {
    [Trap, AssertOff] + (Simples(Exorcism(zombies)) + (RequeueCode(alone) + (if alone then [Iret] else [Switch, Iret])))
  }

  function RequeueCode(alone: bool): seq<Op> { Bracket(RUN_QUEUE, if alone then [] else [Save, Restore]) }

  lemma YieldTakes(v: View, alone: bool, zombies: seq<Zombie>)
    requires Safe(v) && v.held == {}
    ensures Takes(v, YieldCode(alone, zombies), v.(iflag := false))
  {
    var v1 := v.(on := false, saved := [v.on] + v.saved);
    var v2, v3 := v1.(iflag := false), v.(iflag := false);
    var last := if alone then [Iret] else [Switch, Iret];
    Two(v, Trap, AssertOff);
    var i := SimplesTake(v1, Exorcism(zombies));
    RequeueTakes(v1.(iflag := i), alone);
    assert v2.saved[1..] == v.saved;
    if alone { One(v2, Iret); } else { Two(v2, Switch, Iret); }
    Chain(v1.(iflag := i), RequeueCode(alone), v2, last, v3);
    Chain(v1, Simples(Exorcism(zombies)), v1.(iflag := i), RequeueCode(alone) + last, v3);
    Chain(v, [Trap, AssertOff], v1, Simples(Exorcism(zombies)) + (RequeueCode(alone) + last), v3);
  }

  lemma RequeueTakes(v: View, alone: bool)
    requires Safe(v) && v.held == {} && !v.on
    ensures Takes(v, RequeueCode(alone), v.(iflag := false))
  {
    var v1 := Do(v, Spin(RUN_QUEUE));
    if !alone {
      assert ([false] + v.saved)[1..] == v.saved;
      Two(v1, Save, Restore);
    }
    BracketTakes(v, RUN_QUEUE, if alone then [] else [Save, Restore], false);
  }

  /** What thread_exit does: with a parent, the handshake and the end of both semaphores; then
      out of the process, and a switch that does not come back. */
  datatype Exiting = Exiting(parent: bool, p: Lk, c: Lk, wakes: nat, sleeps: nat, zombies: seq<Zombie>)

  predicate ExitFit(e: Exiting) { e.p != RUN_QUEUE && e.c != RUN_QUEUE }

  /** semaphore_destroy: the channel, the name and the semaphore. */
  function Destroy(): seq<Simple> { [Critical(WCHANS, 0), Critical(MEM, 0), Critical(MEM, 0), Critical(MEM, 0)] }

  function ExitCalls(e: Exiting): (calls: seq<Simple>)
    requires ExitFit(e)
    ensures forall call | call in calls :: Fit(call)
  {
    (if e.parent then [V(e.p, e.wakes), P(e.c, e.sleeps)] + Destroy() + Destroy() else [])
    + [Critical(PROC, 0), CliIfx] + Exorcism(e.zombies)
  }

  function ExitCode(e: Exiting): seq<Op>
    requires ExitFit(e)
  {
    [Cli, AssertOff] + (Simples(ExitCalls(e)) + (RequeueCode(true) + [Switch]))
  }

  /** The last switch of a thread finds no spinlock held and interrupts off. */
  lemma ExitTakes(v: View, e: Exiting)
    requires Safe(v) && v.held == {} && ExitFit(e)
    ensures Takes(v, ExitCode(e), v.(on := false, iflag := false))
  {
    var v1, v2 := v.(on := false), v.(on := false, iflag := false);
    Two(v, Cli, AssertOff);
    var i := SimplesTake(v1, ExitCalls(e));
    RequeueTakes(v1.(iflag := i), true);
    One(v2, Switch);
    Chain(v1.(iflag := i), RequeueCode(true), v2, [Switch], v2);
    Chain(v1, Simples(ExitCalls(e)), v1.(iflag := i), RequeueCode(true) + [Switch], v2);
    Chain(v, [Cli, AssertOff], v1, Simples(ExitCalls(e)) + (RequeueCode(true) + [Switch]), v2);
  }

  // ----------------------------------------------------------------------- fork, join

  /** thread_fork, with how its locks and arrays happen to be. */
  datatype Forking = Forking(joinable: bool, sleeps: nat, wakes: nat, grown: nat, channels: nat)

  /** semaphore_create: kmalloc, strdup, wchan_create. */
  function Create(grown: nat): seq<Simple> {
    [Critical(MEM, 0), Critical(MEM, 0), Critical(MEM, 0), Critical(WCHANS, grown)]
  }

  function ForkCalls(f: Forking): (calls: seq<Simple>)
    ensures forall call | call in calls :: Fit(call)
  {
    [Critical(MEM, 0), Critical(MEM, 0), LockAcquire(PAGE_REG, f.sleeps), LockAcquire(PAGE_REG, 0),
        LockRelease(PAGE_REG, 0), Critical(MEM, 0),
     LockRelease(PAGE_REG, f.wakes)]
    + (if f.joinable then Create(f.channels) + Create(f.channels) else [])
    + [Critical(PROC, f.grown), CliIfx, MakeRunnable]
  }

  /** Any calls between cli and ifx. */
  lemma GuardedTakes(v: View, calls: seq<Simple>) returns (iflag: bool)
    requires Safe(v) && v.held == {} && forall call | call in calls :: Fit(call)
    ensures Takes(v, Saving(Simples(calls)), v.(iflag := iflag))
  {
    iflag := SimplesTake(Do(v, Save), calls);
    SavingTakes(v, Simples(calls), iflag);
  }

  /** thread_fork gives back the flag, although its array and channels may grow. */
  lemma ForkTakes(v: View, f: Forking) returns (iflag: bool)
    requires Safe(v) && v.held == {}
    ensures Takes(v, Saving(Simples(ForkCalls(f))), v.(iflag := iflag))
  {
    iflag := GuardedTakes(v, ForkCalls(f));
  }

  /** thread_join: P on one semaphore, V on the other, between cli and ifx. */
  function JoinCalls(p: Lk, c: Lk, n: nat, woken: nat): seq<Simple> { [P(p, n), V(c, woken)] }

  lemma JoinTakes(v: View, p: Lk, c: Lk, n: nat, woken: nat) returns (iflag: bool)
    requires Safe(v) && v.held == {} && p != RUN_QUEUE && c != RUN_QUEUE
    ensures Takes(v, Saving(Simples(JoinCalls(p, c, n, woken))), v.(iflag := iflag))
  {
    iflag := GuardedTakes(v, JoinCalls(p, c, n, woken));
  }

  /** cv_wait, cv_signal and cv_broadcast: the lock is released under the cv's spinlock,
      the body sleeps or wakes, and the lock is acquired again. */
  function CvCode(c: Lk, l: Lk, woken: nat, body: seq<Op>, n: nat): seq<Op> {
    Bracket(c, ReleaseCode(l, woken) + body) + AcquireCode(l, n)
  }

  /** They all leave interrupts off. */
  lemma CvTakes(v: View, c: Lk, l: Lk, woken: nat, body: seq<Op>, n: nat)
    requires Safe(v) && v.held == {} && c != RUN_QUEUE && l != RUN_QUEUE && c != l
    requires var v2 := View(false, false, {c}, v.saved, true); Takes(v2, body, v2)
    ensures Takes(v, CvCode(c, l, woken, body, n), v.(iflag := false, on := false))
  {
    var v1 := Do(v, Spin(c));
    var v2, v3 := v1.(iflag := false), v.(iflag := false, on := false);
    ReleaseTakes(v1, l, woken);
    assert {} + {c} == {c};
    Chain(v1, ReleaseCode(l, woken), v2, body, v2);
    BracketTakes(v, c, ReleaseCode(l, woken) + body, false);
    AcquireTakes(v3, l, n);
    Chain(v, Bracket(c, ReleaseCode(l, woken) + body), v3, AcquireCode(l, n), v3);
  }

  // ------------------------------------------------------------ what threads may run

  datatype Call =
    | Calls(s: Simple)
    | CvWait(c: Lk, l: Lk, wakes: nat, sleeps: nat)
    | CvSignal(c: Lk, l: Lk, wakes: nat, woken: nat, sleeps: nat)
    | Join(p: Lk, c: Lk, sleeps: nat, wakes: nat)
    | JoinSelf      // thread_join on the caller: the error return skips ifx
    | Fork(f: Forking)
    | Yield(alone: bool, zombies: seq<Zombie>)

  predicate Legal(call: Call) {
    match call
    case Calls(s) => Fit(s)
    case CvWait(c, l, _, _) => c != RUN_QUEUE && l != RUN_QUEUE && c != l
    case CvSignal(c, l, _, _, _) => c != RUN_QUEUE && l != RUN_QUEUE && c != l
    case Join(p, c, _, _) => p != RUN_QUEUE && c != RUN_QUEUE
    case JoinSelf => true
    case Fork(_) => true
    case Yield(_, _) => true
  }

  function CallCode(call: Call): seq<Op> {
    match call
    case Calls(s) => SimpleCode(s)
    case CvWait(c, l, k, n) => CvCode(c, l, k, SleepCode(c), n)
    case CvSignal(c, l, k, w, n) => CvCode(c, l, k, Runnables(w), n)
    case Join(p, c, n, k) => Saving(Simples(JoinCalls(p, c, n, k)))
    case JoinSelf => [Cli]
    case Fork(f) => Saving(Simples(ForkCalls(f)))
    case Yield(alone, zombies) => YieldCode(alone, zombies)
  }

  /** The flag a caller gets back. */
  predicate Given(call: Call, on: bool) {
    on && (call.Calls? ==> Keeps(call.s)) && !call.CvWait? && !call.CvSignal? && !call.JoinSelf?
  }

  lemma CallTakes(v: View, call: Call) returns (iflag: bool)
    requires Safe(v) && v.held == {} && Legal(call)
    ensures Takes(v, CallCode(call), v.(iflag := iflag, on := Given(call, v.on)))
  {
    iflag := v.iflag && call.JoinSelf?;
    match call {
      case Calls(s) => iflag := SimpleTakes(v, s);
      case CvWait(c, l, k, n) =>
        SleepTakes(View(false, false, {c}, v.saved, true), c);
        CvTakes(v, c, l, k, SleepCode(c), n);
      case CvSignal(c, l, k, w, n) =>
        RunnablesTake(View(false, false, {c}, v.saved, true), w);
        CvTakes(v, c, l, k, Runnables(w), n);
      case Join(p, c, n, k) => iflag := JoinTakes(v, p, c, n, k);
      case JoinSelf => One(v, Cli);
      case Fork(f) => iflag := ForkTakes(v, f);
      case Yield(alone, zombies) => YieldTakes(v, alone, zombies);
    }
  }

  function Program(calls: seq<Call>): seq<Op> { if calls == [] then [] else CallCode(calls[0]) + Program(calls[1..]) }

  /** A thread's life: the zombies it finds at thread_start, its calls, and then thread_exit,
      unless it never comes to that. */
  datatype Life = Life(found: seq<Zombie>, calls: seq<Call>, exit: Option<Exiting>)

  predicate Lawful(life: Life) {
    (forall call | call in life.calls :: Legal(call)) && (life.exit.Some? ==> ExitFit(life.exit.value))
  }

  function LifeCode(life: Life): seq<Op>
    requires Lawful(life)
  {
    Program(life.calls) + match life.exit case None => [] case Some(e) => ExitCode(e)
  }

  lemma {:induction false} ProgramTakes(v: View, calls: seq<Call>) returns (v': View)
    requires Safe(v) && v.held == {} && forall call | call in calls :: Legal(call)
    ensures Takes(v, Program(calls), v') && Safe(v') && v'.held == {}
    decreases |calls|
  {
    v' := v;
    if calls != [] {
      var iflag := CallTakes(v, calls[0]);
      var v1 := v.(iflag := iflag, on := Given(calls[0], v.on));
      v' := ProgramTakes(v1, calls[1..]);
      Chain(v, CallCode(calls[0]), v1, Program(calls[1..]), v');
    }
  }

  /** thread_start up to the point where interrupts go on. */
  function Birth(found: seq<Zombie>): seq<Op> { [AssertOff] + (Simples(Exorcism(found)) + [Sti]) }

  lemma BirthTakes(v: View, found: seq<Zombie>) returns (iflag: bool)
    requires Safe(v) && v.held == {} && !v.on
    ensures Takes(v, Birth(found), v.(iflag := iflag, on := true))
  {
    iflag := SimplesTake(v, Exorcism(found));
    One(v, AssertOff);
    One(v.(iflag := iflag), Sti);
    Chain(v, Simples(Exorcism(found)), v.(iflag := iflag), [Sti], v.(iflag := iflag, on := true));
    Chain(v, [AssertOff], v, Simples(Exorcism(found)) + [Sti], v.(iflag := iflag, on := true));
  }

  lemma LifeSound(v: View, life: Life)
    requires Safe(v) && v.held == {} && Lawful(life)
    ensures Sound(v, LifeCode(life))
  {
    var v' := ProgramTakes(v, life.calls);
    match life.exit {
      case None => assert Takes(v', [], v'); ChainSound(v, Program(life.calls), v', []);
      case Some(e) => ExitTakes(v', e); ChainSound(v, Program(life.calls), v', ExitCode(e));
    }
  }

  // ------------------------------------------------------------------- every run

  lemma TickTakes(v: View, kind: Kind)
    requires Safe(v) && v.held == {}
    ensures exists v1 :: Takes(v, TickCode(kind), v1) && Same(v, v1)
  {
    if kind == Counting {
      assert ([v.on] + v.saved)[1..] == v.saved;
      Two(v, Trap, Iret);
      assert Takes(v, TickCode(kind), v);
    } else {
      YieldTakes(v, kind.alone, kind.zombies);
      assert Takes(v, TickCode(kind), v.(iflag := false));
    }
  }

  /** A tick, seen by the thread it interrupts, does nothing. */
  lemma TickStep(v: View, kind: Kind, code: seq<Op>, k: nat)
    requires v.on && Sound(v, code)
    ensures Sound(v, TickCode(kind) + code) && Tracks(v, code, v, TickCode(kind) + code, k)
  {
    TickTakes(v, kind);
    var v1 :| Takes(v, TickCode(kind), v1) && Same(v, v1);
    SameAlone(v, v1, code);
    ChainSound(v, TickCode(kind), v1, code);
    if |code| >= k {
      var pre := code[..|code| - k];
      assert (TickCode(kind) + code)[..|TickCode(kind) + code| - k] == TickCode(kind) + pre;
      SoundPrefix(v, pre, code);
      SameAlone(v, v1, pre);
      ChainSound(v, TickCode(kind), v1, pre);
    }
  }

  /** One step, as thread `t` sees it. */
  lemma StepTracks(m: Machine, a: Action, t: Tid, k: nat)
    requires Inv(m) && Enabled(m, a) && t in m.tasks
    ensures t in Step(m, a).tasks && Sound(ViewOf(Step(m, a), t), Code(Step(m, a), t))
    ensures Tracks(ViewOf(m, t), Code(m, t), ViewOf(Step(m, a), t), Code(Step(m, a), t), k)
  {
    var m' := Step(m, a);
    var v, code := ViewOf(m, t), Code(m, t);
    assert Sound(v, code);
    var me := ViewOf(m, m.running);
    assert Sound(me, Code(m, m.running));
    Head(me, Code(m, m.running));
    if t == m.running {
      if a.Tick? {
        TickStep(v, a.kind, code, k);
      } else {
        OwnStep(v, code, ViewOf(m', t), k);
      }
    } else {
      SameAlone(v, ViewOf(m', t), code);
      if |code| >= k {
        SoundPrefix(v, code[..|code| - k], code);
        SameAlone(v, ViewOf(m', t), code[..|code| - k]);
      }
    }
  }

  lemma StepInv(m: Machine, a: Action)
    requires Inv(m) && Enabled(m, a)
    ensures Inv(Step(m, a))
  {
    forall t | t in m.tasks
      ensures Sound(ViewOf(Step(m, a), t), Code(Step(m, a), t))
    {
      StepTracks(m, a, t, 0);
    }
    assert Sound(ViewOf(m, m.running), Code(m, m.running));
  }

  /** No step takes `t` below its last `k` operations. */
  ghost predicate RunsAbove(m: Machine, actions: seq<Action>, m': Machine, t: Tid, k: nat)
    decreases |actions|
  {
    && t in m.tasks && |Code(m, t)| >= k
    && if actions == [] then m' == m
        else Enabled(m, actions[0]) && RunsAbove(Step(m, actions[0]), actions[1..], m', t, k)
  }

  /** The thread's view of a piece of its code, over any interleaving, is the one it
      would have alone. */
  lemma {:induction false} RunTracks(m: Machine, actions: seq<Action>, m': Machine, t: Tid, k: nat)
    requires Inv(m) && RunsAbove(m, actions, m', t, k)
    ensures Inv(m') && t in m'.tasks && |Code(m', t)| >= k
    ensures Tracks(ViewOf(m, t), Code(m, t), ViewOf(m', t), Code(m', t), k)
    decreases |actions|
  {
    if actions != [] {
      StepInv(m, actions[0]);
      StepTracks(m, actions[0], t, k);
      RunTracks(Step(m, actions[0]), actions[1..], m', t, k);
    }
  }

  lemma {:induction false} RunInv(m: Machine, actions: seq<Action>, m': Machine)
    requires Inv(m) && Runs(m, actions, m')
    ensures Inv(m')
    decreases |actions|
  {
    if actions != [] {
      StepInv(m, actions[0]);
      RunInv(Step(m, actions[0]), actions[1..], m');
    }
  }

  /** Threads with any lives before them; all but the running one wait with interrupts
      off, at thread_start. */
  ghost predicate Start(m: Machine, lives: map<Tid, Life>) {
    && m.running in m.tasks && !m.fault && m.held == {} && m.tasks.Keys == lives.Keys
    && (forall t | t in lives :: Lawful(lives[t]))
    && (forall t | t in lives && t != m.running ::
        !m.tasks[t].on && m.tasks[t].code == Birth(lives[t].found) + LifeCode(lives[t]))
    && m.tasks[m.running].code == LifeCode(lives[m.running])
  }

  lemma StartInv(m: Machine, lives: map<Tid, Life>)
    requires Start(m, lives)
    ensures Inv(m)
  {
    forall t | t in m.tasks
      ensures Sound(ViewOf(m, t), Code(m, t))
    {
      var v := ViewOf(m, t);
      if t == m.running {
        LifeSound(v, lives[t]);
      } else {
        var iflag := BirthTakes(v, lives[t].found);
        var v1 := v.(iflag := iflag, on := true);
        LifeSound(v1, lives[t]);
        ChainSound(v, Birth(lives[t].found), v1, LifeCode(lives[t]));
      }
    }
  }

  lemma InvSafe(m: Machine)
    requires Inv(m)
    ensures m.held != {} ==> !m.on
    ensures Code(m, m.running) != [] && Code(m, m.running)[0] == Switch ==> m.held == {} && !m.on
  {
    assert Sound(ViewOf(m, m.running), Code(m, m.running));
    Head(ViewOf(m, m.running), Code(m, m.running));
  }

  /** Over every run: interrupts are off in every state where a spinlock is held, no
      assertion fails, a thread about to be switched out holds no spinlock, and while one is
      held no other thread can come to run and no tick can come. */
  lemma SafeRuns(m: Machine, lives: map<Tid, Life>, actions: seq<Action>, m': Machine)
    requires Start(m, lives) && Runs(m, actions, m')
    ensures !m'.fault && (m'.held != {} ==> !m'.on)
    ensures m'.running in m'.tasks
    ensures Code(m', m'.running) != [] && Code(m', m'.running)[0] == Switch ==> m'.held == {} && !m'.on
    ensures m'.held != {} ==> forall a | Enabled(m', a) :: a.Exec? && Step(m', a).running == m'.running
  {
    StartInv(m, lives);
    RunInv(m, actions, m');
    InvSafe(m');
  }

  /** What a call does to its caller's flag, however the other threads and the timer
      interleave: only P that slept, V that woke someone, critical regions with another one
      inside, the cv calls, and a thread that joins itself lose it. */
  lemma FlagAfter(m: Machine, actions: seq<Action>, m': Machine, t: Tid, call: Call, rest: seq<Op>)
    requires Inv(m) && RunsAbove(m, actions, m', t, |rest|) && Legal(call)
    requires t == m.running && m.held == {} && Code(m, t) == CallCode(call) + rest
    requires t == m'.running && t in m'.tasks && Code(m', t) == rest
    ensures m'.on == Given(call, m.on) && m'.held == {} && m'.tasks[t].saved == m.tasks[t].saved
  {
    RunTracks(m, actions, m', t, |rest|);
    assert (CallCode(call) + rest)[..|CallCode(call) + rest| - |rest|] == CallCode(call);
    var iflag := CallTakes(ViewOf(m, t), call);
  }

  /** The shared iflag does lose the flag: P after one sleep, with interrupts on. */
  lemma SleepLosesFlag(v: View, l: Lk)
    requires Safe(v) && v.held == {} && v.on && l != RUN_QUEUE
    ensures !Alone(v, SimpleCode(P(l, 1))).on && Alone(v, SimpleCode(LockAcquire(l, 1))).on
  {
    DownTakes(v, l, 1);
    AcquireTakes(v, l, 1);
  }

  // ------------------------------------------------------------------ the spinlock

  class Spinlock {
    var locked: bool
    var owned: bool    // lk->cpu is this CPU, not NULL

    constructor ()
      ensures !locked && !owned
    {
      locked, owned := false, false;
    }

    /** xchg on `locked`. */
    method Exchange(value: bool) returns (was: bool)
      modifies this`locked
      ensures was == old(locked) && locked == value
    {
      was := locked;
      locked := value;
    }
  }

  /** The CPU's flag, the static iflag and the count of spinlocks held. */
  class Cpu {
    var on: bool
    var iflag: bool
    var spinlocks: nat
    const locks: seq<Spinlock>

    /** One CPU at start-up, over spinlocks that nobody holds. */
    constructor (locks: seq<Spinlock>)
      requires forall a, b | 0 <= a < b < |locks| :: locks[a] != locks[b]
      requires forall l | 0 <= l < |locks| :: !locks[l].locked && !locks[l].owned
      ensures Valid() && this.locks == locks && !on && Held() == {}
    {
      this.locks := locks;
      on, iflag, spinlocks := false, false, 0;
      new;
      assert Held() == {};
    }

    ghost function Held(): (h: set<Lk>)
      reads this, locks
    {
      set l: Lk | 0 <= l < |locks| && locks[l].locked
    }

    ghost predicate Valid()
      reads this, locks
    {
      && spinlocks == |Held()|
      && (forall a, b | 0 <= a < b < |locks| :: locks[a] != locks[b])
      && (forall l | 0 <= l < |locks| :: locks[l].owned == locks[l].locked)
    }

    ghost function Sees(saved: seq<bool>): (v: View)
      reads this, locks
    {
      View(on, iflag, Held(), saved, true)
    }

    /** spinlock_held, and the assertions wchan_sleep makes with it. */
    method SoleHeld(l: Lk) returns (held: bool, sole: bool)
      requires Valid() && l < |locks|
      ensures held == (l in Held()) && sole == (Held() == {l})
    {
      held := locks[l].locked && locks[l].owned;
      sole := held && spinlocks == 1;
      if held { OnlyOne(Held(), l); }
    }

    method SpinlockAcquire(l: Lk)
      requires Valid() && l < |locks| && l !in Held()
      modifies this`on, this`iflag, this`spinlocks, locks[l]
      ensures Valid() && forall saved :: Sees(saved) == Do(old(Sees(saved)), Spin(l))
    {
      ghost var before := Held();
      iflag := on;
      on := false;
      var was := true;
      while was
        invariant locks[l].locked == !was && !locks[l].owned && before == old(Held())
        invariant forall k | 0 <= k < |locks| && k != l ::
            locks[k].locked == old(locks[k].locked) && locks[k].owned == old(locks[k].owned)
        invariant spinlocks == old(spinlocks) && iflag == old(on) && !on
        decreases was
      {
        was := locks[l].Exchange(true);
      }
      locks[l].owned := true;
      spinlocks := spinlocks + 1;
      assert Held() == before + {l};
    }

    method SpinlockRelease(l: Lk)
      requires Valid() && l < |locks| && l in Held()
      modifies this`on, this`spinlocks, locks[l]
      ensures Valid() && forall saved :: Sees(saved) == Do(old(Sees(saved)), Unspin(l))
    {
      ghost var before := Held();
      spinlocks := spinlocks - 1;
      locks[l].owned := false;
      var was := locks[l].Exchange(false);
      if iflag { on := true; }
      assert Held() == before - {l};
    }
  }

  lemma OnlyOne(s: set<Lk>, l: Lk)
    requires l in s
    ensures |s| == 1 <==> s == {l}
  {
    assert s == {l} + (s - {l});
    if |s| == 1 { assert |s - {l}| == 0; }
  }
}
