/** Progress of the teardown in net/TcpServer: a closed connection does go away, in
    as many batches of the two loops as its removal chain crosses. */
module Removals {
  import opened Text
  import opened ConnectionStates
  import opened TcpServers

  // ------------------------------------------------------- what steps do to queues

  /** Nothing is taken from any queue, and the dispatch side is as it was. */
  predicate Grown(s: Server, s': Server) {
    && s'.posts == s.posts && |s'.queues| == |s.queues|
    && forall k | 0 <= k < |s.queues| ::
         s'.queues[k].toRun == s.queues[k].toRun && s.queues[k].pending <= s'.queues[k].pending
  }

  lemma CloseGrown(s: Server, c: ConnId)
    requires Shape(s) && c in s.conns
    ensures Grown(s, CloseNow(s, c))
  {
  }

  lemma ExecGrown(s: Server, t: Task)
    requires Shape(s) && t.conn in s.conns
    ensures Grown(s, Exec(s, t))
  {
    if t.CloseInLoop? { CloseGrown(s, t.conn); }
  }

  /** The events in which loop `l` moves its own queue. */
  predicate Moves(e: Event, l: LoopId) { e == StartBatch(l) || e == RunTask(l) || e == EndBatch(l) }

  lemma OthersGrow(s: Server, e: Event, l: LoopId)
    requires Possible(s, e) && l < |s.queues| && !Moves(e, l)
    ensures var s' := Step(s, e);
            && l < |s'.queues| && l < |s'.posts|
            && s'.queues[l].toRun == s.queues[l].toRun && s.queues[l].pending <= s'.queues[l].pending
            && (s'.posts[l].phase == Running <==> s.posts[l].phase == Running)
  {
    match e
    case PeerGone(k) => CloseGrown(s, s.posts[k].guard.value);
    case Drained(k) =>
      var c := s.posts[k].guard.value;
      CloseGrown(SetWriting(s, c, false), c);
    case RunTask(k) => ExecGrown(Pop(s, k), s.queues[k].toRun[0]);
    case _ =>
  }

  lemma TaskGrows(s: Server, l: LoopId)
    requires Possible(s, RunTask(l))
    ensures var s' := Step(s, RunTask(l));
            && l < |s'.queues| && s'.posts == s.posts
            && s'.queues[l].toRun == s.queues[l].toRun[1..] && s.queues[l].pending <= s'.queues[l].pending
  {
    ExecGrown(Pop(s, l), s.queues[l].toRun[0]);
  }

  /** How many batches loop `l` has still to finish before it has run `t`. */
  function Needs(s: Server, l: LoopId, t: Task): nat
    requires l < |s.queues| && l < |s.posts|
  {
    if t in s.queues[l].toRun then 1
    else if t !in s.queues[l].pending then 0
    else if s.posts[l].phase == Running then 2 else 1
  }

  lemma NeedsStep(s: Server, e: Event, l: LoopId, t: Task)
    requires Possible(s, e) && l < |s.queues| && Needs(s, l, t) > 0
    requires e == RunTask(l) ==> s.queues[l].toRun[0] != t
    ensures var s' := Step(s, e);
            && l < |s'.queues| && l < |s'.posts|
            && Needs(s', l, t) + (if e == EndBatch(l) then 1 else 0) <= Needs(s, l, t)
  {
    var s' := Step(s, e);
    if e == RunTask(l) {
      TaskGrows(s, l);
      assert s.queues[l].toRun == [s.queues[l].toRun[0]] + s.queues[l].toRun[1..];
    } else if !Moves(e, l) {
      OthersGrow(s, e, l);
    }
  }

  // -------------------------------------------------- what steps do to a connection

  /** Only its own functors move a closed connection. */
  predicate OwnTask(s: Server, e: Event, c: ConnId)
    requires Possible(s, e)
  {
    e.RunTask? && s.queues[e.loop].toRun[0].conn == c && !s.queues[e.loop].toRun[0].CloseInLoop?
  }

  predicate StatusKept(s: Server, s': Server, c: ConnId) {
    Shape(s) && Shape(s') && c in s.conns && c in s'.conns && s'.homes == s.homes && StatusOf(s', c) == StatusOf(s, c)
  }

  lemma CloseKept(s: Server, x: ConnId, c: ConnId)
    requires CoreInv(s) && x in s.conns && c in s.conns && !IsOpen(s.conns[c])
    ensures StatusKept(s, CloseNow(s, x), c)
  {
    if IsOpen(s.conns[x]) {
      OpenIsLive(s, x);
      CloseSound(s, x);
    }
  }

  lemma DrainKept(s: Server, x: ConnId, c: ConnId)
    requires CoreInv(s) && x in s.conns && s.conns[x].writing && c in s.conns && !IsOpen(s.conns[c])
    ensures StatusKept(s, DrainNow(s, x), c)
  {
    OpenWhileWriting(s, x);
    IdleKept(s, x, c);
    if s.conns[x].state == Disconnecting { CloseKept(SetWriting(s, x, false), x, c); }
  }

  lemma IdleKept(s: Server, x: ConnId, c: ConnId)
    requires CoreInv(s) && x in s.conns && IsOpen(s.conns[x]) && c in s.conns && !IsOpen(s.conns[c])
    ensures CoreInv(SetWriting(s, x, false)) && StatusKept(s, SetWriting(s, x, false), c)
  {
    var s1 := SetWriting(s, x, false);
    OpenIsLive(s, x);
    SetConn(s, x, s1.conns[x]);
    BackToInv(s, s1, x, Live);
  }

  lemma OpenWhileWriting(s: Server, x: ConnId)
    requires CoreInv(s) && x in s.conns && s.conns[x].writing
    ensures IsOpen(s.conns[x])
  {
    assert Fine(StatusOf(s, x));
    WritingIsOpen(StatusOf(s, x));
  }

  lemma HangUpKept(s: Server, x: ConnId, c: ConnId)
    requires CoreInv(s) && x in s.conns && IsOpen(s.conns[x]) && c in s.conns && !IsOpen(s.conns[c])
    ensures StatusKept(s, HangUp(s, x), c)
  {
    OpenIsLive(s, x);
    HangUpSound(s, x);
  }

  lemma AskKept(s: Server, x: ConnId, c: ConnId)
    requires Sound(s) && x in s.conns && c in s.conns && x != c
    ensures StatusKept(s, Enqueue(s, s.homes[x], CloseInLoop(x)), c)
  {
    QueueTask(s, s.homes[x], CloseInLoop(x));
  }

  lemma TaskKept(s: Server, l: LoopId, t: Task, c: ConnId)
    requires CoreInv(s) && Possible(s, RunTask(l)) && t == s.queues[l].toRun[0] && (t.conn == c ==> t.CloseInLoop?)
    requires c in s.conns && !IsOpen(s.conns[c])
    ensures StatusKept(s, Step(s, RunTask(l)), c)
  {
    if t.conn == c {
      assert Sound(s);
      LateAskKept(s, l, t);
    } else {
      OtherTaskKept(s, l, t, c);
    }
  }

  lemma OtherTaskKept(s: Server, l: LoopId, t: Task, c: ConnId)
    requires CoreInv(s) && Possible(s, RunTask(l)) && t == s.queues[l].toRun[0] && c in s.conns && t.conn != c
    ensures StatusKept(s, Step(s, RunTask(l)), c)
  {
    ExecStage(s, l);
  }

  /** A close functor that comes after the close does nothing. */
  lemma LateAskKept(s: Server, l: LoopId, t: Task)
    requires Sound(s) && Possible(s, RunTask(l)) && t == s.queues[l].toRun[0]
    requires t.CloseInLoop? && t.conn in s.conns && !IsOpen(s.conns[t.conn])
    ensures StatusKept(s, Step(s, RunTask(l)), t.conn)
  {
    PopTask(s, l);
    assert Step(s, RunTask(l)) == Pop(s, l);
  }

  lemma SoundOf(s: Server)
    requires Inv(s)
    ensures Sound(s) && CoreInv(s) && s.nextId !in s.conns
  {
  }

  /** `c` is where it was, on the same loop. */
  predicate Stays(s: Server, s': Server, c: ConnId) {
    && Shape(s) && Shape(s') && c in s.conns && c in s'.conns
    && s'.homes[c] == s.homes[c] && StatusOf(s', c) == StatusOf(s, c)
  }

  lemma LoopKept(s: Server, e: Event, c: ConnId)
    requires Sound(s) && Possible(s, e) && c in s.conns
    requires e.Accept? || e.Poll? || e.Begin? || e.End? || e.EndBatch? || e.StartBatch?
    ensures Stays(s, Step(s, e), c)
  {
    match e
    case Accept(l) => AcceptNew(s, l); AcceptStatus(s, l, c);
    case StartBatch(l) => SwapStatus(s, l, c);
    case _ =>
  }

  lemma HandlerKept(s: Server, e: Event, x: ConnId, c: ConnId)
    requires CoreInv(s) && Possible(s, e) && (e.PeerGone? || e.Drained? || e.HungUp?)
    requires s.posts[e.loop].guard == Some(x)
    requires e.HungUp? ==> IsOpen(s.conns[x])
    requires c in s.conns && !IsOpen(s.conns[c])
    ensures StatusKept(s, Step(s, e), c)
  {
    match e
    case PeerGone(l) => CloseKept(s, x, c);
    case Drained(l) => DrainKept(s, x, c);
    case HungUp(l) => HangUpKept(s, x, c);
  }

  lemma CallKept(s: Server, e: Event, c: ConnId)
    requires Sound(s) && Possible(s, e) && (e.Backlog? || e.AskClose?) && c in s.conns && !IsOpen(s.conns[c])
    ensures StatusKept(s, Step(s, e), c)
  {
    match e
    case Backlog(x, on) => SetConn(s, x, s.conns[x].(writing := on));
    case AskClose(x) => AskKept(s, x, c);
  }

  lemma QuietKept(s: Server, e: Event, c: ConnId)
    requires Sound(s) && Possible(s, e) && c in s.conns && !IsOpen(s.conns[c])
    requires !e.PeerGone? && !e.Drained? && !e.HungUp? && !e.RunTask?
    ensures Stays(s, Step(s, e), c)
  {
    if e.Backlog? || e.AskClose? { CallKept(s, e, c); } else { LoopKept(s, e, c); }
  }

  lemma ActiveKept(s: Server, e: Event, c: ConnId)
    requires CoreInv(s) && Possible(s, e) && HupInTime(s, e) && c in s.conns && !IsOpen(s.conns[c]) && !OwnTask(s, e, c)
    requires e.PeerGone? || e.Drained? || e.HungUp? || e.RunTask?
    ensures Stays(s, Step(s, e), c)
  {
    if e.RunTask? {
      TaskKept(s, e.loop, s.queues[e.loop].toRun[0], c);
    } else {
      HandlerKept(s, e, s.posts[e.loop].guard.value, c);
    }
  }

  /** Everything else leaves a closed connection where it is. */
  lemma ClosedStays(s: Server, e: Event, c: ConnId)
    requires CoreInv(s) && Possible(s, e) && HupInTime(s, e) && c in s.conns && !IsOpen(s.conns[c]) && !OwnTask(s, e, c)
    ensures Stays(s, Step(s, e), c)
  {
    if e.PeerGone? || e.Drained? || e.HungUp? || e.RunTask? { ActiveKept(s, e, c); } else { QuietKept(s, e, c); }
  }

  // ------------------------------------------------------------------- progress

  /** The functor that moves a connection on from a stage, and the loop it is for. */
  function NextTask(stage: Stage, c: ConnId): Task {
    match stage
    case ToErase => RemoveInLoop(c)
    case ToDestroy => Destroyed(c)
    case _ => RemoveFromMap(c)
  }

  function LoopOf(stage: Stage, home: LoopId): LoopId { if stage == ToDestroy then home else BASE }

  predicate UnderWay(stage: Stage) { stage == ToErase || stage == ToDestroy || stage == ToDrop }

  function After1(stage: Stage): Stage { if stage == ToErase then ToDestroy else Gone }

  predicate StandsAt(s: Server, c: ConnId, home: LoopId, stage: Stage) {
    Shape(s) && c in s.conns && s.homes[c] == home && AtStage(StatusOf(s, c), stage)
  }

  lemma OwnTaskMoves(s: Server, l: LoopId, c: ConnId, home: LoopId, stage: Stage)
    requires Possible(s, RunTask(l)) && OwnTask(s, RunTask(l), c) && StandsAt(s, c, home, stage) && CoreInv(s)
    ensures UnderWay(stage) && StandsAt(Step(s, RunTask(l)), c, home, After1(stage))
  {
    ExecStage(s, l);
    SameStage(StatusOf(s, c), stage, StageBefore(s.queues[l].toRun[0]));
  }

  lemma SameStage(st: Status, a: Stage, b: Stage)
    requires AtStage(st, a) && AtStage(st, b)
    ensures a == b
  {
  }

  lemma StageClosed(s: Server, c: ConnId, home: LoopId, stage: Stage)
    requires StandsAt(s, c, home, stage) && stage != Live
    ensures !IsOpen(s.conns[c])
  {
    assert StatusOf(s, c).rec == s.conns[c];
  }

  /** One step: on to the next stage, or where it was. */
  lemma StageStep(s: Server, e: Event, c: ConnId, home: LoopId, stage: Stage)
    requires Inv(s) && Possible(s, e) && HupInTime(s, e) && StandsAt(s, c, home, stage) && stage != Live
    ensures StandsAt(Step(s, e), c, home, stage) || (UnderWay(stage) && StandsAt(Step(s, e), c, home, After1(stage)))
    ensures OwnTask(s, e, c) ==> StandsAt(Step(s, e), c, home, After1(stage))
  {
    SoundOf(s);
    StageClosed(s, c, home, stage);
    if OwnTask(s, e, c) { OwnTaskMoves(s, e.loop, c, home, stage); } else { ClosedStays(s, e, c); }
  }

  lemma NeededWhileUnderWay(s: Server, c: ConnId, home: LoopId, stage: Stage)
    requires StandsAt(s, c, home, stage) && UnderWay(stage)
    ensures LoopOf(stage, home) < |s.queues| == |s.posts|
    ensures 0 < Needs(s, LoopOf(stage, home), NextTask(stage, c)) <= 2
  {
    var l, t := LoopOf(stage, home), NextTask(stage, c);
    assert Home(s.homes, t) == l;
    assert CntIn(s.queues[l], t) == 1;
  }

  /** And every batch of the loop in question brings it nearer. */
  lemma StageNearer(s: Server, e: Event, c: ConnId, home: LoopId, stage: Stage)
    requires Possible(s, e) && UnderWay(stage) && StandsAt(s, c, home, stage) && !OwnTask(s, e, c)
    ensures var s', l, t := Step(s, e), LoopOf(stage, home), NextTask(stage, c);
            && l < |s.queues| == |s.posts| && l < |s'.queues| && l < |s'.posts|
            && Needs(s', l, t) + (if e == EndBatch(l) then 1 else 0) <= Needs(s, l, t)
  {
    NeededWhileUnderWay(s, c, home, stage);
    NeedsStep(s, e, LoopOf(stage, home), NextTask(stage, c));
  }

  function Batches(run: seq<Event>, l: LoopId): nat {
    if run == [] then 0 else (if run[0] == EndBatch(l) then 1 else 0) + Batches(run[1..], l)
  }

  /** Where a connection on its way out can be after a run. */
  predicate ReachedIn(s: Server, c: ConnId, home: LoopId, stage: Stage) {
    || StandsAt(s, c, home, stage)
    || (UnderWay(stage) && (StandsAt(s, c, home, After1(stage)) || StandsAt(s, c, home, Gone)))
  }

  lemma ReachedStep(s: Server, e: Event, c: ConnId, home: LoopId, stage: Stage)
    requires Inv(s) && Possible(s, e) && HupInTime(s, e) && ReachedIn(s, c, home, stage) && stage != Live
    ensures ReachedIn(Step(s, e), c, home, stage)
  {
    if StandsAt(s, c, home, stage) {
      StageMoves(s, e, c, home, stage, stage);
    } else if StandsAt(s, c, home, After1(stage)) {
      StageMoves(s, e, c, home, After1(stage), stage);
    } else {
      StageMoves(s, e, c, home, Gone, stage);
    }
  }

  lemma StageMoves(s: Server, e: Event, c: ConnId, home: LoopId, at: Stage, stage: Stage)
    requires Inv(s) && Possible(s, e) && HupInTime(s, e) && StandsAt(s, c, home, at) && at != Live
    requires at == stage || (UnderWay(stage) && (at == After1(stage) || at == Gone))
    ensures ReachedIn(Step(s, e), c, home, stage)
  {
    StageStep(s, e, c, home, at);
    MovedIsReached(Step(s, e), c, home, at, stage);
  }

  lemma MovedIsReached(s: Server, c: ConnId, home: LoopId, at: Stage, stage: Stage)
    requires at == stage || (UnderWay(stage) && (at == After1(stage) || at == Gone))
    requires StandsAt(s, c, home, at) || (UnderWay(at) && StandsAt(s, c, home, After1(at)))
    ensures ReachedIn(s, c, home, stage)
  {
    if at == stage {
    } else {
      assert UnderWay(at) ==> at == After1(stage) && After1(at) == Gone;
    }
  }

  /** What every step keeps, a run keeps. */
  lemma {:induction false} RunPreserves(keeps: Server -> bool, s: Server, run: seq<Event>)
    requires keeps(s) && PossibleRun(s, run) && HupsInTime(s, run)
    requires forall x, e | keeps(x) && Possible(x, e) && HupInTime(x, e) :: keeps(Step(x, e))
    ensures keeps(After(s, run))
    decreases |run|
  {
    if run != [] { RunPreserves(keeps, Step(s, run[0]), run[1..]); }
  }

  /** A stage once reached stays behind. */
  lemma StaysReached(s: Server, run: seq<Event>, c: ConnId, home: LoopId, stage: Stage)
    requires Inv(s) && PossibleRun(s, run) && HupsInTime(s, run) && ReachedIn(s, c, home, stage) && stage != Live
    ensures ReachedIn(After(s, run), c, home, stage)
  {
    var keeps := (x: Server) => Inv(x) && ReachedIn(x, c, home, stage);
    forall x, e | keeps(x) && Possible(x, e) && HupInTime(x, e) ensures keeps(Step(x, e)) {
      StepKeeps(x, e);
      ReachedStep(x, e, c, home, stage);
    }
    RunPreserves(keeps, s, run);
  }

  /** A stage is left after as many batches of its loop as its functor needs. */
  lemma {:induction false} StageServed(s: Server, run: seq<Event>, c: ConnId, home: LoopId, stage: Stage, n: nat)
    requires Inv(s) && PossibleRun(s, run) && HupsInTime(s, run) && StandsAt(s, c, home, stage) && UnderWay(stage)
    requires var l := LoopOf(stage, home);
             l < |s.queues| && l < |s.posts| && Needs(s, l, NextTask(stage, c)) <= n <= Batches(run, l)
    ensures ReachedIn(After(s, run), c, home, After1(stage))
    decreases |run|
  {
    var l := LoopOf(stage, home);
    NeededWhileUnderWay(s, c, home, stage);
    var e, s' := run[0], Step(s, run[0]);
    StepKeeps(s, e);
    StageStep(s, e, c, home, stage);
    if StandsAt(s', c, home, After1(stage)) {
      StaysReached(s', run[1..], c, home, After1(stage));
    } else {
      StageNearer(s, e, c, home, stage);
      StageServed(s', run[1..], c, home, stage, if e == EndBatch(l) then n - 1 else n);
    }
  }

  lemma ServedInTwo(s: Server, run: seq<Event>, c: ConnId, home: LoopId, stage: Stage)
    requires Inv(s) && PossibleRun(s, run) && HupsInTime(s, run) && StandsAt(s, c, home, stage) && UnderWay(stage)
    requires Batches(run, LoopOf(stage, home)) >= 2
    ensures ReachedIn(After(s, run), c, home, After1(stage))
  {
    NeededWhileUnderWay(s, c, home, stage);
    StageServed(s, run, c, home, stage, 2);
  }

  // ------------------------------------------------------------- the whole way

  lemma ClosedStage(s: Server, c: ConnId)
    requires CoreInv(s) && c in s.conns && !IsOpen(s.conns[c])
    ensures exists stage :: stage != Live && StandsAt(s, c, s.homes[c], stage)
  {
    var st := StatusOf(s, c);
    assert Fine(st) && st.rec == s.conns[c];
    ClosedFine(st);
    var stage :| stage != Live && AtStage(st, stage);
    assert StandsAt(s, c, s.homes[c], stage);
  }

  lemma ClosedFine(st: Status)
    requires Fine(st) && !IsOpen(st.rec)
    ensures exists stage :: stage != Live && AtStage(st, stage)
  {
    assert AtStage(st, ToErase) || AtStage(st, ToDestroy) || AtStage(st, ToDrop) || AtStage(st, Gone);
  }

  predicate AlmostGone(s: Server, c: ConnId, home: LoopId) {
    StandsAt(s, c, home, ToDestroy) || StandsAt(s, c, home, Gone)
  }

  lemma AlmostIn(s: Server, c: ConnId, home: LoopId, stage: Stage)
    requires ReachedIn(s, c, home, stage) && (stage == ToDestroy || stage == Gone)
    ensures AlmostGone(s, c, home) && (stage == Gone ==> StandsAt(s, c, home, Gone))
  {
  }

  /** After two batches of the base loop a closed connection is at most to be
      destroyed. */
  lemma BasePart(s: Server, a: seq<Event>, c: ConnId, home: LoopId, stage: Stage)
    requires Inv(s) && PossibleRun(s, a) && HupsInTime(s, a) && Batches(a, BASE) >= 2
    requires StandsAt(s, c, home, stage) && stage != Live
    ensures AlmostGone(After(s, a), c, home)
  {
    var s' := After(s, a);
    if stage == ToErase || stage == ToDrop {
      assert ReachedIn(s', c, home, After1(stage)) by { ServedInTwo(s, a, c, home, stage); }
      AlmostIn(s', c, home, After1(stage));
    } else {
      assert ReachedIn(s', c, home, stage) by { StaysReached(s, a, c, home, stage); }
      AlmostIn(s', c, home, stage);
    }
  }

  /** And after two of its own loop it is gone. */
  lemma HomePart(s: Server, b: seq<Event>, c: ConnId, home: LoopId, stage: Stage)
    requires Inv(s) && PossibleRun(s, b) && HupsInTime(s, b) && Batches(b, home) >= 2
    requires StandsAt(s, c, home, stage) && (stage == ToDestroy || stage == Gone)
    ensures StandsAt(After(s, b), c, home, Gone)
  {
    if stage == ToDestroy { ServedInTwo(s, b, c, home, stage); } else { StaysReached(s, b, c, home, stage); }
    AlmostIn(After(s, b), c, home, Gone);
  }

  /** Whenever a connection has closed, in whatever way and on whatever loop: once the
      base loop and then the connection's own loop have each finished two more
      batches, it is gone, erased from the map and out of epoll. */
  lemma TeardownCompletes(loops: nat, before: seq<Event>, a: seq<Event>, b: seq<Event>, c: ConnId)
    requires loops > 0 && PossibleRun(NewServer(loops), before) && HupsInTime(NewServer(loops), before)
    requires var s := After(NewServer(loops), before);
             && PossibleRun(s, a) && HupsInTime(s, a) && PossibleRun(After(s, a), b) && HupsInTime(After(s, a), b)
             && c in s.conns && c in s.homes && !IsOpen(s.conns[c])
             && Batches(a, BASE) >= 2 && Batches(b, s.homes[c]) >= 2
    ensures var s' := After(After(After(NewServer(loops), before), a), b);
            && Shape(s') && c in s'.conns && AtStage(StatusOf(s', c), Gone)
            && c !in s'.connections && !s'.conns[c].registered
  {
    var s := After(NewServer(loops), before);
    RunKeeps(NewServer(loops), before);
    ClosedStage(s, c);
    var home := s.homes[c];
    var stage :| stage != Live && StandsAt(s, c, home, stage);
    BasePart(s, a, c, home, stage);
    RunKeeps(s, a);
    HomePart(After(s, a), b, c, home, if StandsAt(After(s, a), c, home, ToDestroy) then ToDestroy else Gone);
    GoneIsOut(After(After(s, a), b), c, home);
  }

  lemma GoneIsOut(s: Server, c: ConnId, home: LoopId)
    requires StandsAt(s, c, home, Gone)
    ensures c !in s.connections && !s.conns[c].registered
  {
    assert StatusOf(s, c).rec == s.conns[c];
  }
}
