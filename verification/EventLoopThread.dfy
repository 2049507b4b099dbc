/** net/EventLoopThread: the start and stop handshake between the thread that owns
    the object and the thread that runs the loop, over one mutex and one condition. */
module EventLoopThreads {

  /** `threadFunc` and, inside it, `EventLoop::loop`. */
  datatype Worker =
    | NotStarted
    | Constructed                    // the EventLoop exists on the worker's stack
    | Published                      // loop_ points to it; loop() not yet entered
    | Checking
    | Polling
    | Dispatching(wakeReady: bool)
    | Functors
    | Exited                         // loop() has returned
    | Cleared                        // loop_ is NULL again
    | Done                           // the EventLoop is destroyed

  /** `startLoop` and `stopLoop`. The mutex is held in the two `Testing` states and
      in `StopStored`; `signalled` says that a waiter has been woken. */
  datatype Owner =
    | Outside
    | Starting                       // the thread is started, the mutex not yet taken
    | StartTesting                   // about to test loop_ == NULL
    | StartWaiting(signalled: bool)
    | Started                        // startLoop has returned
    | StopTesting                    // about to test loop_ != NULL
    | StopStored                     // inside loop_->stop(): quit_ set, wakeup to come
    | StopWaiting(signalled: bool)
    | Finished

  /** `pointer` is loop_ != NULL, `launched` says that the thread has been started,
      `aborted` that the assert at the head of `loop` has failed. */
  datatype Thread = Thread(worker: Worker, owner: Owner, pointer: bool, launched: bool,
                           quit: bool, eventfd: nat, aborted: bool)

  const NEW_THREAD := Thread(NotStarted, Outside, false, false, false, 0, false)

  datatype Event =
    | Construct | Publish | Enter | Check | PollReturn(wake: bool) | ReadWakeup | EndDispatch | EndFunctors
    | Clear | Destroy                                   // the worker
    | Start | StartLock | StartTest                     // the owner, in startLoop
    | StopLock | StoreQuit | WriteWakeup | Finish       // the owner, in stopLoop
    | Spurious                                          // a wakeup nobody asked for
    | OtherWrite                                        // a producer's wakeup

  predicate Alive(s: Thread) { !s.worker.NotStarted? && !s.worker.Done? }

  predicate MutexFree(s: Thread) { !s.owner.StartTesting? && !s.owner.StopTesting? && !s.owner.StopStored? }

  /** `cond_.notify()`: heard only by a thread that is waiting. */
  function Notified(o: Owner): Owner {
    match o
    case StartWaiting(_) => StartWaiting(true)
    case StopWaiting(_) => StopWaiting(true)
    case _ => o
  }

  predicate Possible(s: Thread, e: Event) {
    !s.aborted &&
    match e
    case Construct => s.worker.NotStarted? && s.launched
    case Publish => s.worker.Constructed? && MutexFree(s)
    case Enter => s.worker.Published?
    case Check => s.worker.Checking?
    case PollReturn(wake) => s.worker.Polling? && (wake ==> s.eventfd > 0)
    case ReadWakeup => s.worker == Dispatching(true)
    case EndDispatch => s.worker == Dispatching(false)
    case EndFunctors => s.worker.Functors?
    case Clear => s.worker.Exited? && MutexFree(s)
    case Destroy => s.worker.Cleared?
    case Start => s.owner.Outside?
    case StartLock => s.owner.Starting? || s.owner == StartWaiting(true)
    case StartTest => s.owner.StartTesting?
    case StopLock => s.owner.Outside? || s.owner.Started? || s.owner == StopWaiting(true)
    case StoreQuit => s.owner.StopTesting? && s.pointer
    case WriteWakeup => s.owner.StopStored?
    case Finish => s.owner.StopTesting? && !s.pointer
    case Spurious => s.owner.StartWaiting? || s.owner.StopWaiting?
    case OtherWrite => Alive(s)
  }

  function Step(s: Thread, e: Event): Thread
    requires Possible(s, e)
  {
    match e
    case Construct => s.(worker := Constructed)
    case Publish => s.(worker := Published, pointer := true, owner := Notified(s.owner))
    case Enter => if s.quit then s.(aborted := true) else s.(worker := Checking)
    case Check => s.(worker := if s.quit then Exited else Polling)
    case PollReturn(wake) => s.(worker := Dispatching(wake))
    case ReadWakeup => s.(worker := Dispatching(false), eventfd := 0)
    case EndDispatch => s.(worker := Functors)
    case EndFunctors => s.(worker := Checking)
    case Clear => s.(worker := Cleared, pointer := false, owner := Notified(s.owner))
    case Destroy => s.(worker := Done)
    case Start => s.(owner := Starting, launched := true)
    case StartLock => s.(owner := StartTesting)
    case StartTest => s.(owner := if s.pointer then Started else StartWaiting(false))
    case StopLock => s.(owner := StopTesting)
    case StoreQuit => s.(quit := true, owner := StopStored)
    case WriteWakeup => s.(eventfd := s.eventfd + 1, owner := StopWaiting(false))
    case Finish => s.(owner := Owner.Finished)
    case Spurious => s.(owner := Notified(s.owner))
    case OtherWrite => s.(eventfd := s.eventfd + 1)
  }

  predicate Inv(s: Thread) {
    && (s.pointer <==> Alive(s) && !s.worker.Constructed? && !s.worker.Cleared?)
    && (s.owner.StopStored? ==> s.pointer)
    && (s.owner.StopStored? || s.owner.StopWaiting? ==> s.quit)
    && (s.quit ==> s.owner.StopTesting? || s.owner.StopStored? || s.owner.StopWaiting? || s.owner.Finished?)
    && (s.quit && s.worker.Polling? ==> s.eventfd > 0 || s.owner.StopStored?)
    && (s.worker == Dispatching(true) ==> s.eventfd > 0)
    && (s.owner.Finished? ==> !s.pointer)
    && (s.worker.Exited? || s.worker.Cleared? || s.worker.Done? ==> s.quit)
    // who has been waiting since before the change has been woken by it
    && (s.owner == StartWaiting(false) ==> !s.pointer)
    && (s.owner == StopWaiting(false) ==> s.pointer)
    // how far start has come
    && (!s.launched ==> s.worker.NotStarted? && (s.owner.Outside? || s.owner.StopTesting? || s.owner.Finished?))
    && (s.owner.Outside? ==> !s.launched)
    && (s.launched && (s.owner.Started? || s.owner.StopTesting? || s.owner.StopStored? || s.owner.StopWaiting?
                       || s.owner.Finished?)
        ==> !s.worker.NotStarted? && !s.worker.Constructed?)
  }

  lemma StepKeeps(s: Thread, e: Event)
    requires Inv(s) && Possible(s, e)
    ensures Inv(Step(s, e))
  {
  }

  predicate PossibleRun(s: Thread, run: seq<Event>)
    decreases |run|
  {
    run == [] || (Possible(s, run[0]) && PossibleRun(Step(s, run[0]), run[1..]))
  }

  function After(s: Thread, run: seq<Event>): Thread
    requires PossibleRun(s, run)
    decreases |run|
  {
    if run == [] then s else After(Step(s, run[0]), run[1..])
  }

  lemma {:induction false} RunKeeps(s: Thread, run: seq<Event>)
    requires Inv(s) && PossibleRun(s, run)
    ensures Inv(After(s, run))
    decreases |run|
  {
    if run != [] {
      StepKeeps(s, run[0]);
      RunKeeps(Step(s, run[0]), run[1..]);
    }
  }

  /** In every reachable state `stopLoop` only touches a living EventLoop, a stopper
      asleep on the condition never faces a loop asleep on an empty eventfd, and
      once `stopLoop` has returned nobody can reach the loop through `loop_`. */
  lemma StopHandshake(run: seq<Event>)
    requires PossibleRun(NEW_THREAD, run)
    ensures var s := After(NEW_THREAD, run);
            && (Possible(s, StoreQuit) || Possible(s, WriteWakeup) ==> Alive(s))
            && (s.owner.StopWaiting? && s.worker.Polling? ==> s.eventfd > 0)
            && (s.owner.Finished? ==> !s.pointer && (s.worker.Cleared? || s.worker.Done? || !s.launched))
            && (Possible(s, ReadWakeup) ==> s.eventfd > 0)
  {
    RunKeeps(NEW_THREAD, run);
  }

  /** No notification is lost: in every reachable state, whoever waits for `loop_` to
      be set, or to be cleared, has been woken if it is. */
  lemma NoLostNotify(run: seq<Event>)
    requires PossibleRun(NEW_THREAD, run)
    ensures var s := After(NEW_THREAD, run);
            && (s.owner.StartWaiting? && s.pointer ==> s.owner.signalled)
            && (s.owner.StopWaiting? && !s.pointer ==> s.owner.signalled)
  {
    RunKeeps(NEW_THREAD, run);
  }

  // ---------------------------------------------------------------- progress

  predicate WorkerEvent(e: Event) {
    e.Construct? || e.Publish? || e.Enter? || e.Check? || e.PollReturn? || e.ReadWakeup? || e.EndDispatch?
    || e.EndFunctors? || e.Clear? || e.Destroy?
  }

  predicate OwnerEvent(e: Event) { !WorkerEvent(e) && !e.Spurious? && !e.OtherWrite? }

  predicate Entered(s: Thread) {
    !s.aborted && !s.worker.NotStarted? && !s.worker.Constructed? && !s.worker.Published?
  }

  /** The worker's distance from the end of `threadFunc` once quit_ is set. */
  function Distance(w: Worker): nat {
    match w
    case Polling => 7
    case Dispatching(wake) => if wake then 6 else 5
    case Functors => 4
    case Checking => 3
    case Exited => 2
    case Cleared => 1
    case _ => 0
  }

  function WorkerSteps(run: seq<Event>): nat {
    if run == [] then 0 else (if WorkerEvent(run[0]) then 1 else 0) + WorkerSteps(run[1..])
  }

  /** After the stop request the worker has only so many steps left, whatever the
      others do in between. */
  lemma {:induction false} StopTerminates(s: Thread, run: seq<Event>)
    requires s.quit && Entered(s) && PossibleRun(s, run)
    ensures var s' := After(s, run);
            s'.quit && Entered(s') && Distance(s'.worker) + WorkerSteps(run) <= Distance(s.worker)
    decreases |run|
  {
    if run != [] { StopTerminates(Step(s, run[0]), run[1..]); }
  }

  /** Nobody has been woken without cause. */
  predicate Genuine(s: Thread) {
    (s.owner == StartWaiting(true) ==> s.pointer) && (s.owner == StopWaiting(true) ==> !s.pointer)
  }

  /** The owner's distance from the end of `stopLoop`, through `startLoop`. */
  function OwnerDistance(s: Thread): nat {
    match s.owner
    case Outside => 14
    case Starting => 13
    case StartTesting => if s.pointer then 9 else 12
    case StartWaiting(signalled) => if signalled then 10 else 11
    case Started => 8
    case StopTesting => if s.pointer then 7 else 2
    case StopStored => 6
    case StopWaiting(signalled) => if signalled then 4 else 5
    case Finished => 0
  }

  function OwnerSteps(run: seq<Event>): nat {
    if run == [] then 0 else (if OwnerEvent(run[0]) then 1 else 0) + OwnerSteps(run[1..])
  }

  predicate NoSpurious(run: seq<Event>) { forall i | 0 <= i < |run| :: run[i] != Spurious }

  /** Without spurious wakeups the owner needs only so many steps from the beginning
      of `startLoop` to the end of `stopLoop`: it waits at most once in each. */
  lemma {:induction false} OwnerTerminates(s: Thread, run: seq<Event>)
    requires Inv(s) && Genuine(s) && PossibleRun(s, run) && NoSpurious(run)
    ensures var s' := After(s, run);
            Inv(s') && Genuine(s') && OwnerDistance(s') + OwnerSteps(run) <= OwnerDistance(s)
    decreases |run|
  {
    if run != [] {
      StepKeeps(s, run[0]);
      forall i | 0 <= i < |run[1..]| ensures run[1..][i] != Spurious { assert run[1..][i] == run[i + 1]; }
      OwnerStep(s, run[0]);
      OwnerTerminates(Step(s, run[0]), run[1..]);
    }
  }

  lemma OwnerStep(s: Thread, e: Event)
    requires Inv(s) && Genuine(s) && Possible(s, e) && !e.Spurious?
    ensures Genuine(Step(s, e))
    ensures OwnerDistance(Step(s, e)) + (if OwnerEvent(e) then 1 else 0) <= OwnerDistance(s)
  {
  }

  /** And nobody is stuck on the way: in every reachable state in which the owner is
      inside one of the two calls, it or the worker has a step, without counting on
      spurious wakeups or on other threads; a woken waiter has one itself. */
  lemma NobodyIsStuck(s: Thread)
    requires Inv(s) && !s.aborted
    ensures !s.owner.Outside? && !s.owner.Started? && !s.owner.Finished? ==>
              exists e :: (OwnerEvent(e) || WorkerEvent(e)) && Possible(s, e)
    ensures s.owner.StartWaiting? && s.owner.signalled ==> Possible(s, StartLock)
    ensures s.owner.StopWaiting? && s.owner.signalled ==> Possible(s, StopLock)
  {
    if !s.owner.Outside? && !s.owner.Started? && !s.owner.Finished? {
      var e := match s.owner
        case StartWaiting(signalled) => if signalled then StartLock else NextOfWorker(s.worker)
        case StopWaiting(signalled) => if signalled then StopLock else NextOfWorker(s.worker)
        case Starting => StartLock
        case StartTesting => StartTest
        case StopTesting => if s.pointer then StoreQuit else Finish
        case _ => WriteWakeup;
      assert (OwnerEvent(e) || WorkerEvent(e)) && Possible(s, e);
    }
  }

  function NextOfWorker(w: Worker): Event {
    match w
    case NotStarted => Construct
    case Constructed => Publish
    case Published => Enter
    case Checking => Check
    case Polling => PollReturn(true)
    case Dispatching(wake) => if wake then ReadWakeup else EndDispatch
    case Functors => EndFunctors
    case Exited => Clear
    case _ => Destroy
  }

  // ------------------------------------------------------------- early stop

  /** The assert at the head of `loop` fails on exactly those runs in which quit_ is
      stored before the worker has entered `loop`. */
  lemma {:induction false} EarlyStopAborts(s: Thread, run: seq<Event>)
    requires !s.aborted && PossibleRun(s, run)
    ensures After(s, run).aborted <==>
            exists j | 0 <= j < |run| :: run[j] == Enter && (s.quit || StoreQuit in run[..j])
    decreases |run|
  {
    if run != [] {
      var e, rest := run[0], run[1..];
      var s' := Step(s, e);
      if s'.aborted {
        assert PossibleRun(s', rest) && rest == [];
        assert run[0] == Enter && s.quit;
      } else {
        EarlyStopAborts(s', rest);
        assert run[..0] == [];
        if After(s', rest).aborted {
          var j :| 0 <= j < |rest| && rest[j] == Enter && (s'.quit || StoreQuit in rest[..j]);
          assert run[j + 1] == Enter;
          assert run[..j + 1] == [e] + rest[..j];
        }
        if j :| 0 <= j < |run| && run[j] == Enter && (s.quit || StoreQuit in run[..j]) {
          if j > 0 {
            assert rest[j - 1] == Enter;
            assert run[..j] == [e] + rest[..j - 1];
          }
        }
      }
    }
  }

  /** Such a run: the owner may stop the loop as soon as `startLoop` has returned. */
  lemma EarlyStopHappens()
    ensures var run := [Start, Construct, Publish, StartLock, StartTest, StopLock, StoreQuit, Enter];
            PossibleRun(NEW_THREAD, run) && After(NEW_THREAD, run).aborted
  {
    var s1 := Step(NEW_THREAD, Start);
    var s2 := Step(s1, Construct);
    var s3 := Step(s2, Publish);
    var s4 := Step(s3, StartLock);
    var s5 := Step(s4, StartTest);
    var s6 := Step(s5, StopLock);
    var s7 := Step(s6, StoreQuit);
    Prepend(s7, Enter, []);
    Prepend(s6, StoreQuit, [Enter]);
    Prepend(s5, StopLock, [StoreQuit, Enter]);
    Prepend(s4, StartTest, [StopLock, StoreQuit, Enter]);
    Prepend(s3, StartLock, [StartTest, StopLock, StoreQuit, Enter]);
    Prepend(s2, Publish, [StartLock, StartTest, StopLock, StoreQuit, Enter]);
    Prepend(s1, Construct, [Publish, StartLock, StartTest, StopLock, StoreQuit, Enter]);
    Prepend(NEW_THREAD, Start, [Construct, Publish, StartLock, StartTest, StopLock, StoreQuit, Enter]);
    assert After(Step(s7, Enter), []) == Step(s7, Enter);
  }

  lemma Prepend(s: Thread, e: Event, rest: seq<Event>)
    requires Possible(s, e) && PossibleRun(Step(s, e), rest)
    ensures PossibleRun(s, [e] + rest) && After(s, [e] + rest) == After(Step(s, e), rest)
  {
    assert ([e] + rest)[1..] == rest;
  }

  // ----------------------------------------------------------- implementation

  /** The fields both threads share; each method is one mutex section. */
  class EventLoopThread {
    var loopSet: bool // loop_ != NULL
    var quit: bool
    var eventfd: nat
    ghost var worker: Worker
    ghost var owner: Owner
    ghost var launched: bool
    ghost var aborted: bool

    ghost function View(): Thread
      reads this
    {
      Thread(worker, owner, loopSet, launched, quit, eventfd, aborted)
    }

    constructor ()
      ensures View() == NEW_THREAD
    {
      loopSet, quit, eventfd := false, false, 0;
      worker, owner, launched, aborted := NotStarted, Outside, false, false;
    }

    method Notify()
      modifies `owner
      ensures owner == Notified(old(owner))
    {
      owner := Notified(owner);
    }

    /** First mutex section of `threadFunc`. */
    method PublishLoop()
      requires Possible(View(), Publish)
      modifies this
      ensures View() == Step(old(View()), Publish)
    {
      loopSet := true;
      Notify();
      worker := Published;
    }

    /** Second mutex section of `threadFunc`. */
    method ClearLoop()
      requires Possible(View(), Clear)
      modifies this
      ensures View() == Step(old(View()), Clear)
    {
      loopSet := false;
      Notify();
      worker := Cleared;
    }

    /** From taking the mutex in `startLoop` to `cond_.wait` or to its end. */
    method StartSection() returns (waits: bool)
      requires Inv(View()) && Possible(View(), StartLock)
      modifies this
      ensures waits <==> !old(loopSet)
      ensures View() == Step(Step(old(View()), StartLock), StartTest) && Inv(View())
    {
      owner := StartTesting;
      waits := !loopSet;
      owner := if waits then StartWaiting(false) else Started;
    }

    /** From taking the mutex in `stopLoop` to `cond_.wait` or to its end; producers
        may write in between, the worker cannot clear `loop_`. */
    method StopSection() returns (waits: bool)
      requires Inv(View()) && Possible(View(), StopLock)
      modifies this
      ensures waits <==> old(loopSet)
      ensures var locked := Step(old(View()), StopLock);
              View() == if waits then Step(Step(locked, StoreQuit), WriteWakeup) else Step(locked, Finish)
      ensures Inv(View())
    {
      owner := StopTesting;
      waits := loopSet;
      if loopSet {
        quit := true;
        owner := StopStored;
        eventfd := eventfd + 1;
        owner := StopWaiting(false);
      } else {
        owner := Owner.Finished;
      }
    }
  }
}
