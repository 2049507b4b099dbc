/** net/EventLoop: the cross-thread task queue and its eventfd wakeup. Mutex
    sections and single system calls are the atomic steps; any number of producer
    threads interleave with the loop thread. */
module EventLoops {
  import opened Text

  type Task = nat
  type Thread = nat

  /** Where the loop thread stands in `loop` and `doPendingFunctors`. */
  datatype Phase =
    | Checking                       // about to test quit_
    | Polling                        // inside Poll
    | Dispatching(wakeReady: bool)   // handling active channels, the wakeup one among them
    | Swapping                       // callingPendingFunctors_ set, queue not yet taken
    | Running                        // executing toRun
    | Stopped

  /** `log` is every functor given to `QueueInLoop`, `executed` those whose turn has
      come. `owing` are the threads between their push (or their store to quit_) and
      their write; `ownOwing` says the same of the loop thread. `mark` is the length
      of `log` at the last swap, `batches` counts finished batches. */
  datatype Loop = Loop(phase: Phase, pending: seq<Task>, toRun: seq<Task>, executed: seq<Task>, log: seq<Task>,
                       eventfd: nat, calling: bool, quit: bool, owing: set<Thread>, ownOwing: bool,
                       mark: nat, batches: nat)

  const NEW_LOOP := Loop(Checking, [], [], [], [], 0, false, false, {}, false, 0, 0)

  datatype Event =
    | Push(thread: Thread, task: Task)  // QueueInLoop from another thread, under the mutex
    | Write(thread: Thread)             // its wakeup
    | OwnPush(task: Task)               // QueueInLoop from a handler or functor
    | OwnWrite
    | StopFrom(thread: Thread)          // stop from another thread: the store; wakeup follows
    | StopOwn
    | Check
    | PollReturn(wake: bool)
    | ReadWakeup
    | EndDispatch
    | Swap
    | RunNext
    | EndBatch

  predicate Possible(s: Loop, e: Event) {
    match e
    case Push(p, _) => p !in s.owing
    case Write(p) => p in s.owing
    case OwnPush(_) => s.phase.Dispatching? || (s.phase.Running? && !s.ownOwing)
    case OwnWrite => s.ownOwing
    case StopFrom(p) => p !in s.owing
    case StopOwn => s.phase.Dispatching? || (s.phase.Running? && !s.ownOwing)
    case Check => s.phase.Checking?
    case PollReturn(wake) => s.phase.Polling? && (wake ==> s.eventfd > 0)
    case ReadWakeup => s.phase == Dispatching(true)
    case EndDispatch => s.phase == Dispatching(false)
    case Swap => s.phase.Swapping?
    case RunNext => s.phase.Running? && !s.ownOwing && s.toRun != []
    case EndBatch => s.phase.Running? && !s.ownOwing && s.toRun == []
  }

  function Step(s: Loop, e: Event): Loop
    requires Possible(s, e)
  {
    match e
    case Push(p, t) => s.(pending := s.pending + [t], log := s.log + [t], owing := s.owing + {p})
    case Write(p) => s.(eventfd := s.eventfd + 1, owing := s.owing - {p})
    case OwnPush(t) => s.(pending := s.pending + [t], log := s.log + [t], ownOwing := s.calling)
    case OwnWrite => s.(eventfd := s.eventfd + 1, ownOwing := false)
    case StopFrom(p) => s.(quit := true, owing := s.owing + {p})
    case StopOwn => s.(quit := true)
    case Check => s.(phase := if s.quit then Stopped else Polling)
    case PollReturn(wake) => s.(phase := Dispatching(wake))
    case ReadWakeup => s.(phase := Dispatching(false), eventfd := 0)
    case EndDispatch => s.(phase := Swapping, calling := true)
    case Swap => s.(phase := Running, toRun := s.pending, pending := [], mark := |s.log|)
    case RunNext => s.(executed := s.executed + [s.toRun[0]], toRun := s.toRun[1..])
    case EndBatch => s.(phase := Checking, calling := false, batches := s.batches + 1)
  }

  // ------------------------------------------------------------ every step keeps

  /** Exactly once, in order; and only what was there at the swap runs in a batch. */
  predicate LogInv(s: Loop) {
    && s.log == s.executed + s.toRun + s.pending
    && (s.toRun != [] ==> s.phase.Running?)
    && s.mark <= |s.log|
    && (s.phase.Running? ==> |s.executed| + |s.toRun| == s.mark && s.pending == s.log[s.mark..])
  }

  /** Waiting work, and a request to stop, always have a wakeup on their way, except
      where the loop is about to look; and a reported wakeup is still there to be read. */
  predicate WakeInv(s: Loop) {
    && (s.pending != [] && (s.phase.Checking? || s.phase.Polling? || s.phase.Running?)
        ==> s.eventfd > 0 || s.owing != {} || s.ownOwing)
    && (s.quit && s.phase.Polling? ==> s.eventfd > 0 || s.owing != {})
    && (s.phase == Dispatching(true) ==> s.eventfd > 0)
    && (s.ownOwing ==> s.phase.Running?)
    && (s.calling <==> s.phase.Swapping? || s.phase.Running?)
  }

  predicate Inv(s: Loop) { LogInv(s) && WakeInv(s) }

  lemma LogStep(s: Loop, e: Event)
    requires LogInv(s) && Possible(s, e)
    ensures LogInv(Step(s, e))
  {
    var s' := Step(s, e);
    match e
    case Swap => assert s.log == s.executed + s.pending; assert s'.log[s'.mark..] == [];
    case RunNext => assert s.toRun == [s.toRun[0]] + s.toRun[1..];
    case _ =>
  }

  lemma WakeStep(s: Loop, e: Event)
    requires WakeInv(s) && Possible(s, e)
    ensures WakeInv(Step(s, e))
  {
    match e
    case Push(p, _) => assert p in Step(s, e).owing;
    case StopFrom(p) => assert p in Step(s, e).owing;
    case _ =>
  }

  lemma StepKeeps(s: Loop, e: Event)
    requires Inv(s) && Possible(s, e)
    ensures Inv(Step(s, e))
  {
    LogStep(s, e);
    WakeStep(s, e);
  }

  predicate PossibleRun(s: Loop, run: seq<Event>)
    decreases |run|
  {
    run == [] || (Possible(s, run[0]) && PossibleRun(Step(s, run[0]), run[1..]))
  }

  function After(s: Loop, run: seq<Event>): Loop
    requires PossibleRun(s, run)
    decreases |run|
  {
    if run == [] then s else After(Step(s, run[0]), run[1..])
  }

  lemma {:induction false} RunKeeps(s: Loop, run: seq<Event>)
    requires Inv(s) && PossibleRun(s, run)
    ensures Inv(After(s, run))
    decreases |run|
  {
    if run != [] {
      StepKeeps(s, run[0]);
      RunKeeps(Step(s, run[0]), run[1..]);
    }
  }

  /** What the threads have given to `QueueInLoop`, in order. */
  function Given(run: seq<Event>): seq<Task> {
    if run == [] then [] else GivenNow(run[0]) + Given(run[1..])
  }

  function GivenNow(e: Event): seq<Task> {
    match e
    case Push(_, t) => [t]
    case OwnPush(t) => [t]
    case _ => []
  }

  /** The functors that have been called, in order. */
  function Ran(s: Loop, run: seq<Event>): seq<Task>
    requires PossibleRun(s, run)
    decreases |run|
  {
    if run == [] then [] else RanNow(s, run[0]) + Ran(Step(s, run[0]), run[1..])
  }

  function RanNow(s: Loop, e: Event): seq<Task>
    requires Possible(s, e)
  {
    if e.RunNext? then [s.toRun[0]] else []
  }

  /** What the eventfd has been written since it was last read. */
  function Unread(n: nat, run: seq<Event>): nat
    decreases |run|
  {
    if run == [] then n
    else Unread(if run[0].Write? || run[0].OwnWrite? then n + 1 else if run[0].ReadWakeup? then 0 else n, run[1..])
  }

  /** The threads that have pushed, or stored the stop flag, and not written since. */
  function Owed(o: set<Thread>, run: seq<Event>): set<Thread>
    decreases |run|
  {
    if run == [] then o
    else
      Owed(match run[0]
           case Push(p, _) => o + {p}
           case StopFrom(p) => o + {p}
           case Write(p) => o - {p}
           case _ => o, run[1..])
  }

  /** Some thread has called `stop`. */
  predicate Stopping(run: seq<Event>) {
    run != [] && (run[0].StopFrom? || run[0].StopOwn? || Stopping(run[1..]))
  }

  /** How many batches have ended. */
  function Batches(run: seq<Event>): nat {
    if run == [] then 0 else (if run[0].EndBatch? then 1 else 0) + Batches(run[1..])
  }

  lemma {:induction false} LogsKept(s: Loop, run: seq<Event>)
    requires PossibleRun(s, run)
    ensures After(s, run).log == s.log + Given(run)
    ensures After(s, run).executed == s.executed + Ran(s, run)
    decreases |run|
  {
    if run == [] {
      assert s.log + [] == s.log && s.executed + [] == s.executed;
    } else {
      var s', rest := Step(s, run[0]), run[1..];
      LogsKept(s', rest);
      LogsStep(s, run[0]);
      Assoc(s.log, GivenNow(run[0]), Given(rest));
      Assoc(s.executed, RanNow(s, run[0]), Ran(s', rest));
    }
  }

  lemma LogsStep(s: Loop, e: Event)
    requires Possible(s, e)
    ensures Step(s, e).log == s.log + GivenNow(e) && Step(s, e).executed == s.executed + RanNow(s, e)
  {
    assert s.log + [] == s.log && s.executed + [] == s.executed;
  }

  lemma {:induction false} CountsKept(s: Loop, run: seq<Event>)
    requires PossibleRun(s, run)
    ensures After(s, run).eventfd == Unread(s.eventfd, run) && After(s, run).owing == Owed(s.owing, run)
    ensures After(s, run).batches == s.batches + Batches(run)
    ensures After(s, run).quit <==> s.quit || Stopping(run)
    decreases |run|
  {
    if run != [] { CountsKept(Step(s, run[0]), run[1..]); }
  }

  /** Whenever the loop sleeps in `Poll` with functors given and not yet called, the
      eventfd has been written since its last read or somebody who has pushed is
      about to write it; and handling the wakeup never blocks on an empty eventfd. */
  lemma NoLostWakeup(run: seq<Event>)
    requires PossibleRun(NEW_LOOP, run)
    ensures var s := After(NEW_LOOP, run);
            && s.eventfd == Unread(0, run)
            && (s.phase.Polling? && Ran(NEW_LOOP, run) != Given(run) ==> Unread(0, run) > 0 || Owed({}, run) != {})
            && (s.phase.Polling? && Unread(0, run) > 0 ==> Possible(s, PollReturn(true)))
            && (Possible(s, ReadWakeup) ==> Unread(0, run) > 0)
  {
    RunKeeps(NEW_LOOP, run);
    CountsKept(NEW_LOOP, run);
    FunctorsAccounted(run);
    var s := After(NEW_LOOP, run);
    if s.phase.Polling? && s.pending == [] { assert Ran(NEW_LOOP, run) + [] + [] == Ran(NEW_LOOP, run); }
  }

  /** And `stop` is heard: the loop leaves at its next check exactly when somebody has
      called it, and never sleeps through the call. */
  lemma NoLostStop(run: seq<Event>)
    requires PossibleRun(NEW_LOOP, run)
    ensures var s := After(NEW_LOOP, run);
            && (Possible(s, Check) ==> (Step(s, Check).phase == Stopped <==> Stopping(run)))
            && (s.phase.Polling? && Stopping(run) ==> Unread(0, run) > 0 || Owed({}, run) != {})
  {
    RunKeeps(NEW_LOOP, run);
    CountsKept(NEW_LOOP, run);
  }

  lemma FunctorsAccounted(run: seq<Event>)
    requires PossibleRun(NEW_LOOP, run)
    ensures var s := After(NEW_LOOP, run);
            Given(run) == Ran(NEW_LOOP, run) + s.toRun + s.pending && (s.toRun != [] ==> s.phase.Running?)
  {
    RunKeeps(NEW_LOOP, run);
    LogsKept(NEW_LOOP, run);
    assert [] + Given(run) == Given(run) && [] + Ran(NEW_LOOP, run) == Ran(NEW_LOOP, run);
  }

  /** At every moment the functors given to `QueueInLoop`, in order, are those called,
      then the rest of the current batch, then those waiting. */
  lemma ExactlyOnceFifo(run: seq<Event>)
    requires PossibleRun(NEW_LOOP, run)
    ensures var s := After(NEW_LOOP, run);
            && Given(run) == Ran(NEW_LOOP, run) + s.toRun + s.pending
            && Ran(NEW_LOOP, run) <= Given(run)
  {
    FunctorsAccounted(run);
    var s := After(NEW_LOOP, run);
    Assoc(Ran(NEW_LOOP, run), s.toRun, s.pending);
  }

  /** A batch calls only what had been given before it was taken: whatever is given
      afterwards, by any thread or by its own functors, waits for the next. */
  lemma BatchIsFixed(a: seq<Event>, b: seq<Event>)
    requires PossibleRun(NEW_LOOP, a) && Possible(After(NEW_LOOP, a), Swap)
    requires PossibleRun(Step(After(NEW_LOOP, a), Swap), b) && Batches(b) == 0
    ensures Ran(NEW_LOOP, a) + Ran(Step(After(NEW_LOOP, a), Swap), b) <= Given(a)
  {
    var s := After(NEW_LOOP, a);
    FunctorsAccounted(a);
    assert s.toRun == [] && Given(a) == Ran(NEW_LOOP, a) + s.pending;
    BatchRest(Step(s, Swap), b);
    Assoc(Ran(NEW_LOOP, a), Ran(Step(s, Swap), b), After(Step(s, Swap), b).toRun);
  }

  lemma {:induction false} BatchRest(s: Loop, b: seq<Event>)
    requires s.phase.Running? && PossibleRun(s, b) && Batches(b) == 0
    ensures s.toRun == Ran(s, b) + After(s, b).toRun
    decreases |b|
  {
    if b != [] {
      var s' := Step(s, b[0]);
      BatchRest(s', b[1..]);
      assert s.toRun == RanNow(s, b[0]) + s'.toRun;
      Assoc(RanNow(s, b[0]), Ran(s', b[1..]), After(s, b).toRun);
    }
  }

  // ---------------------------------------------------------------- progress

  /** Between `s0` and `s`: how many batches may still finish before everything
      queued by `s0` has run. */
  predicate Serving(s0: Loop, s: Loop) {
    && s.batches >= s0.batches && |s.log| >= |s0.log| && |s.executed| >= |s0.executed|
    && (s.batches >= s0.batches + 2 ==> |s.executed| >= |s0.log|)
    && (s.batches == s0.batches + 1 && s.phase.Running? ==> s.mark >= |s0.log|)
  }

  lemma StepServes(s0: Loop, s: Loop, e: Event)
    requires Inv(s) && Serving(s0, s) && Possible(s, e)
    ensures Serving(s0, Step(s, e))
  {
  }

  lemma {:induction false} ServedWithinTwoBatches(s0: Loop, s: Loop, run: seq<Event>)
    requires Inv(s) && Serving(s0, s) && PossibleRun(s, run)
    ensures Serving(s0, After(s, run))
    decreases |run|
  {
    if run != [] {
      StepKeeps(s, run[0]);
      StepServes(s0, s, run[0]);
      ServedWithinTwoBatches(s0, Step(s, run[0]), run[1..]);
    }
  }

  /** Whatever the interleaving, when two more batches have ended, everything that had
      been given has been called, each functor at its place. */
  lemma QueuedFunctorsRun(before: seq<Event>, run: seq<Event>)
    requires PossibleRun(NEW_LOOP, before) && PossibleRun(After(NEW_LOOP, before), run)
    ensures Batches(run) >= 2 ==> Given(before) <= Ran(NEW_LOOP, before) + Ran(After(NEW_LOOP, before), run)
  {
    RunKeeps(NEW_LOOP, before);
    var s0 := After(NEW_LOOP, before);
    RunKeeps(s0, run);
    ServedWithinTwoBatches(s0, s0, run);
    CountsKept(s0, run);
    LogsKept(NEW_LOOP, before);
    LogsKept(s0, run);
    assert [] + Given(before) == Given(before) && [] + Ran(NEW_LOOP, before) == Ran(NEW_LOOP, before);
    var s := After(s0, run);
    Assoc(s.executed, s.toRun, s.pending);
    assert Given(before) <= s.log && s.executed <= s.log;
  }

  // ----------------------------------------------------------- implementation

  function Taken(s: Loop): Loop
    requires Possible(s, EndDispatch)
  {
    Step(Step(s, EndDispatch), Swap)
  }

  /** A whole batch without interference: `spawn` is what each functor queues. */
  function SpawnAll(s: Loop, tasks: seq<Task>): (r: Loop)
    requires s.phase.Running? && s.calling && !s.ownOwing
    ensures r.phase.Running? && r.calling && !r.ownOwing && r.toRun == s.toRun
    decreases |tasks|
  {
    if tasks == [] then s
    else SpawnAll(Step(Step(s, OwnPush(tasks[0])), OwnWrite), tasks[1..])
  }

  function RunAll(s: Loop, spawn: Task -> seq<Task>): (r: Loop)
    requires s.phase.Running? && s.calling && !s.ownOwing
    ensures Possible(r, EndBatch)
    decreases |s.toRun|
  {
    if s.toRun == [] then s
    else
      var s1 := Step(s, RunNext);
      RunAll(SpawnAll(s1, spawn(s.toRun[0])), spawn)
  }

  lemma {:induction false} SpawnKeeps(s: Loop, tasks: seq<Task>)
    requires s.phase.Running? && s.calling && !s.ownOwing
    ensures SpawnAll(s, tasks) == s.(pending := s.pending + tasks, log := s.log + tasks, eventfd := s.eventfd + |tasks|)
    decreases |tasks|
  {
    if tasks != [] {
      SpawnKeeps(Step(Step(s, OwnPush(tasks[0])), OwnWrite), tasks[1..]);
      assert s.pending + [tasks[0]] + tasks[1..] == s.pending + tasks;
      assert s.log + [tasks[0]] + tasks[1..] == s.log + tasks;
    } else {
      assert s.pending + tasks == s.pending && s.log + tasks == s.log;
    }
  }

  /** Everything the functors of a batch queue, in order. */
  function Spawned(tasks: seq<Task>, spawn: Task -> seq<Task>): seq<Task> {
    if tasks == [] then [] else spawn(tasks[0]) + Spawned(tasks[1..], spawn)
  }

  /** The first functor of the batch has run and queued `first`. */
  function AfterFirst(s: Loop, first: seq<Task>): Loop
    requires s.toRun != []
  {
    s.(executed := s.executed + [s.toRun[0]], toRun := s.toRun[1..],
       pending := s.pending + first, log := s.log + first, eventfd := s.eventfd + |first|)
  }

  /** The whole batch has run and queued `more`. */
  function AfterBatch(s: Loop, more: seq<Task>): Loop {
    s.(executed := s.executed + s.toRun, toRun := [],
       pending := s.pending + more, log := s.log + more, eventfd := s.eventfd + |more|)
  }

  lemma RunTurn(s: Loop, spawn: Task -> seq<Task>)
    requires s.phase.Running? && s.calling && !s.ownOwing && s.toRun != []
    ensures RunAll(s, spawn) == RunAll(AfterFirst(s, spawn(s.toRun[0])), spawn)
  {
    var s1, first := Step(s, RunNext), spawn(s.toRun[0]);
    assert SpawnAll(s1, first) == AfterFirst(s, first) by { SpawnKeeps(s1, first); }
    RunUnfolds(s, spawn, AfterFirst(s, first));
  }

  lemma RunUnfolds(s: Loop, spawn: Task -> seq<Task>, s': Loop)
    requires s.phase.Running? && s.calling && !s.ownOwing && s.toRun != []
    requires SpawnAll(Step(s, RunNext), spawn(s.toRun[0])) == s'
    ensures RunAll(s, spawn) == RunAll(s', spawn)
  {
  }

  lemma BatchTurn(s: Loop, first: seq<Task>, rest: seq<Task>)
    requires s.toRun != []
    ensures AfterBatch(AfterFirst(s, first), rest) == AfterBatch(s, first + rest)
  {
    assert [s.toRun[0]] + s.toRun[1..] == s.toRun;
    Assoc(s.executed, [s.toRun[0]], s.toRun[1..]);
    Assoc(s.pending, first, rest);
    Assoc(s.log, first, rest);
  }

  /** A batch executes exactly what was waiting when it was taken; what the functors
      queue stays for the next one, with one wakeup each. */
  lemma {:induction false} BatchExecutes(s: Loop, spawn: Task -> seq<Task>)
    requires s.phase.Running? && s.calling && !s.ownOwing
    ensures RunAll(s, spawn) == AfterBatch(s, Spawned(s.toRun, spawn))
    decreases |s.toRun|
  {
    if s.toRun == [] {
      assert s.executed + [] == s.executed && s.pending + [] == s.pending && s.log + [] == s.log;
    } else {
      var first := spawn(s.toRun[0]);
      RunTurn(s, spawn);
      BatchExecutes(AfterFirst(s, first), spawn);
      BatchTurn(s, first, Spawned(s.toRun[1..], spawn));
    }
  }

  class EventLoop {
    var phase: Phase
    var pendingFunctors: seq<Task>
    var toRun: seq<Task>
    var eventfd: nat
    var callingPendingFunctors: bool
    var quit: bool
    ghost var executed: seq<Task>
    ghost var log: seq<Task>
    ghost var owing: set<Thread>
    ghost var ownOwing: bool
    ghost var mark: nat
    ghost var batches: nat

    ghost function View(): Loop
      reads this
    {
      Loop(phase, pendingFunctors, toRun, executed, log, eventfd, callingPendingFunctors, quit, owing, ownOwing,
           mark, batches)
    }

    constructor ()
      ensures View() == NEW_LOOP
    {
      phase, pendingFunctors, toRun := Checking, [], [];
      eventfd, callingPendingFunctors, quit := 0, false, false;
      executed, log, owing, ownOwing, mark, batches := [], [], {}, false, 0, 0;
    }

    /** The mutex section of `QueueInLoop`. */
    method PushFunctor(task: Task)
      modifies `pendingFunctors, `log
      ensures pendingFunctors == old(pendingFunctors) + [task] && log == old(log) + [task]
    {
      pendingFunctors := pendingFunctors + [task];
      log := log + [task];
    }

    method Wakeup()
      modifies `eventfd
      ensures eventfd == old(eventfd) + 1
    {
      eventfd := eventfd + 1;
    }

    method HandleRead()
      requires Possible(View(), ReadWakeup)
      modifies `eventfd, `phase
      ensures View() == Step(old(View()), ReadWakeup)
    {
      eventfd := 0;
      phase := Dispatching(false);
    }

    /** From another thread: a push, then a write, with other steps in between in
        general and none here. */
    method QueueFromThread(ghost thread: Thread, task: Task)
      requires Possible(View(), Push(thread, task))
      modifies this
      ensures View() == Step(Step(old(View()), Push(thread, task)), Write(thread))
    {
      PushFunctor(task);
      Wakeup();
      assert owing + {thread} - {thread} == owing;
    }

    /** From the loop's own thread: the wakeup is needed only while functors run. */
    method QueueFromLoop(task: Task)
      requires Inv(View()) && Possible(View(), OwnPush(task))
      modifies this
      ensures var pushed := Step(old(View()), OwnPush(task));
              View() == if old(callingPendingFunctors) then Step(pushed, OwnWrite) else pushed
    {
      PushFunctor(task);
      if callingPendingFunctors {
        Wakeup();
      }
    }

    method StopFromThread(ghost thread: Thread)
      requires Possible(View(), StopFrom(thread))
      modifies this
      ensures View() == Step(Step(old(View()), StopFrom(thread)), Write(thread))
    {
      quit := true;
      Wakeup();
      assert owing + {thread} - {thread} == owing;
    }

    /** `doPendingFunctors` without interference. `spawn` is what each functor gives
        to `QueueInLoop`: it stays for the next batch and has its wakeups. */
    method DoPendingFunctors(spawn: Task -> seq<Task>)
      requires Possible(View(), EndDispatch) && !ownOwing
      modifies this
      ensures View() == Step(RunAll(Taken(old(View())), spawn), EndBatch)
    {
      TakeFunctors();
      RunBatch(spawn);
      FinishBatch();
    }

    method TakeFunctors()
      requires Possible(View(), EndDispatch) && !ownOwing
      modifies this
      ensures View() == Taken(old(View()))
    {
      callingPendingFunctors := true;
      phase := Swapping;
      toRun, pendingFunctors := pendingFunctors, [];
      phase := Running;
      mark := |log|;
    }

    method FinishBatch()
      requires Possible(View(), EndBatch)
      modifies this
      ensures View() == Step(old(View()), EndBatch)
    {
      callingPendingFunctors := false;
      phase := Checking;
      batches := batches + 1;
    }

    /** The `for` loop over `toRun`. */
    method RunBatch(spawn: Task -> seq<Task>)
      requires phase.Running? && callingPendingFunctors && !ownOwing
      modifies `pendingFunctors, `toRun, `executed, `log, `eventfd
      ensures View() == RunAll(old(View()), spawn)
    {
      while toRun != []
        invariant RunAll(View(), spawn) == RunAll(old(View()), spawn)
        decreases |toRun|
      {
        RunFirst(spawn);
      }
    }

    method RunFirst(spawn: Task -> seq<Task>)
      requires phase.Running? && callingPendingFunctors && !ownOwing && toRun != []
      modifies `pendingFunctors, `toRun, `executed, `log, `eventfd
      ensures View() == SpawnAll(Step(old(View()), RunNext), spawn(old(toRun)[0]))
      ensures toRun == old(toRun)[1..]
    {
      var task := toRun[0];
      toRun := toRun[1..];
      executed := executed + [task];
      QueueSpawned(spawn(task));
    }

    /** What one functor queues while it runs. */
    method QueueSpawned(tasks: seq<Task>)
      requires phase.Running? && callingPendingFunctors && !ownOwing
      modifies `pendingFunctors, `log, `eventfd
      ensures View() == SpawnAll(old(View()), tasks)
      ensures |pendingFunctors| == |old(pendingFunctors)| + |tasks| && eventfd == old(eventfd) + |tasks|
    {
      var i := 0;
      while i < |tasks|
        invariant 0 <= i <= |tasks|
        invariant pendingFunctors == old(pendingFunctors) + tasks[..i]
        invariant log == old(log) + tasks[..i]
        invariant eventfd == old(eventfd) + i
      {
        PushFunctor(tasks[i]);
        Wakeup();
        assert tasks[..i + 1] == tasks[..i] + [tasks[i]];
        i := i + 1;
      }
      assert tasks[..i] == tasks;
      SpawnKeeps(old(View()), tasks);
    }
  }
}
