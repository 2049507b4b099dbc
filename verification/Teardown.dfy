/** The whole system: the server of net/TcpServer together with the connections of
    net/TcpConnection, each with its channel and output stream. What the server
    keeps of a connection is read off the connection itself, and the server moves
    only by what the connections report and the loops run. */
module Teardowns {
  import opened Text
  import opened ConnectionStates
  import C = TcpConnections
  import S = TcpServers

  datatype System = System(server: S.Server, conns: map<S.ConnId, C.Conn>)

  datatype Event =
    | Accept(loop: S.LoopId)                       // newConnetion, with connectionEstablish
    | Reactor(step: S.Event)                       // poll, guard and batch bookkeeping of a loop
    | Call(conn: S.ConnId, what: C.Event)          // send or closeConnection
    | Handle(loop: S.LoopId, what: C.Event)        // the guarded connection's read, write or hang-up handler
    | RunTask(loop: S.LoopId)                      // the next functor of a batch

  // ------------------------------------------------------------ specification

  /** The server's record of `id`, read off the connection. */
  function Sync(s: S.Server, id: S.ConnId, c: C.Conn, destroyed: nat): (s': S.Server)
    requires S.Shape(s) && id in s.conns
    ensures S.Shape(s')
  {
    var r := s.conns[id];
    s.(conns := s.conns[id := r.(state := c.state, registered := c.channel.kernel.Some?, writing := c.channel.writing,
                                 destroyedRuns := r.destroyedRuns + destroyed)])
  }

  /** `removeConnectionFromMap`. */
  function ReportHup(s: S.Server, id: S.ConnId): S.Server
    requires S.Shape(s) && id in s.conns
  {
    if s.homes[id] == S.BASE then S.EraseNow(s, id) else S.Enqueue(s, S.BASE, S.RemoveFromMap(id))
  }

  /** The callbacks a connection has made, and the functor it has queued. */
  function Reported(s: S.Server, id: S.ConnId, c: C.Conn, c': C.Conn): S.Server
    requires S.Shape(s) && id in s.conns
  {
    if c'.closeReports > c.closeReports then S.ReportClose(s, id)
    else if c'.hupReports > c.hupReports then ReportHup(s, id)
    else if c'.queuedCloses > c.queuedCloses then S.Enqueue(s, s.homes[id], S.CloseInLoop(id))
    else s
  }

  predicate Known(j: System, id: S.ConnId) {
    S.Shape(j.server) && id in j.server.conns && id in j.conns
  }

  /** One member function of connection `id` runs. */
  function OnConn(j: System, id: S.ConnId, e: C.Event): System
    requires Known(j, id) && C.Possible(j.conns[id], e)
  {
    var c, c' := j.conns[id], C.Step(j.conns[id], e);
    System(Reported(Sync(j.server, id, c', if e.Hup? || e.Destroy? then 1 else 0), id, c, c'), j.conns[id := c'])
  }

  predicate Guarded(j: System, l: S.LoopId) {
    S.Handling(j.server, l) && j.server.posts[l].guard.value in j.conns
  }

  predicate Possible(j: System, e: Event) {
    S.Shape(j.server) && !j.server.failed && j.conns.Keys == j.server.conns.Keys &&
    match e
    case Accept(l) => S.Possible(j.server, S.Accept(l))
    case Reactor(step) =>
      (step.Poll? || step.Begin? || step.End? || step.StartBatch? || step.EndBatch?) && S.Possible(j.server, step)
    case Call(id, what) => id in j.conns && (what.Send? || what.CloseRequest?) && C.Possible(j.conns[id], what)
    case Handle(l, what) =>
      && Guarded(j, l) && (what.PeerClosed? || what.WriteReady? || what.Hup?)
      && var c := j.conns[j.server.posts[l].guard.value];
         C.Possible(c, what) && (what.Hup? ==> c.channel.kernel.Some?)
    case RunTask(l) =>
      && S.Possible(j.server, S.RunTask(l))
      && var t := j.server.queues[l].toRun[0];
         t.CloseInLoop? ==> j.conns[t.conn].queuedCloses > 0
  }

  /** A hang-up is delivered only while the connection is open. */
  predicate Timely(j: System, e: Event)
    requires Possible(j, e)
  {
    e.Handle? && e.what.Hup? ==> C.Open(j.conns[j.server.posts[e.loop].guard.value])
  }

  function Popped(j: System, l: S.LoopId): System
    requires l < |j.server.queues| && !j.server.queues[l].Empty()
  {
    j.(server := S.Pop(j.server, l))
  }

  /** A functor runs: on its connection, or on the server. */
  function Run(j: System, t: S.Task): System
    requires Known(j, t.conn) && (t.CloseInLoop? ==> j.conns[t.conn].queuedCloses > 0)
  {
    if t.CloseInLoop? then OnConn(j, t.conn, C.CloseTask)
    else if t.Destroyed? then OnConn(j, t.conn, C.Destroy)
    else j.(server := S.Exec(j.server, t))
  }

  function Step(j: System, e: Event): System
    requires Possible(j, e)
  {
    match e
    case Accept(l) =>
      System(S.Accepted(j.server, l), j.conns[j.server.nextId := C.Step(C.NEW_CONN, C.Establish)])
    case Reactor(step) => j.(server := S.Step(j.server, step))
    case Call(id, what) => OnConn(j, id, what)
    case Handle(l, what) => OnConn(j, j.server.posts[l].guard.value, what)
    case RunTask(l) => Run(Popped(j, l), j.server.queues[l].toRun[0])
  }

  // ---------------------------------------------------------------- invariant

  predicate Matches(c: C.Conn, r: S.ConnRec) {
    r.state == c.state && r.registered == c.channel.kernel.Some? && r.writing == c.channel.writing
  }

  /** How many close functors of `id` are queued. */
  function Asked(s: S.Server, id: S.ConnId): nat
    requires S.Shape(s) && id in s.conns
  {
    S.Cnt(s.homes, s.queues, S.CloseInLoop(id))
  }

  predicate Tied(j: System, id: S.ConnId)
    requires Known(j, id)
  {
    && Matches(j.conns[id], j.server.conns[id]) && C.Inv(j.conns[id]) && j.conns[id].state != Connecting
    && j.conns[id].queuedCloses == Asked(j.server, id)
  }

  predicate AllTied(j: System) {
    && S.Shape(j.server) && j.conns.Keys == j.server.conns.Keys
    && forall id | id in j.conns :: Known(j, id) && Tied(j, id)
  }

  predicate Inv(j: System) { S.Inv(j.server) && AllTied(j) }

  // ------------------------------------------- the server sees its own steps

  /** Handlers and functors of a connection are, to the server, its own steps. */
  lemma CloseSeen(j: System, id: S.ConnId)
    requires Known(j, id) && Matches(j.conns[id], j.server.conns[id]) && C.Inv(j.conns[id])
    ensures OnConn(j, id, C.PeerClosed).server == S.CloseNow(j.server, id)
  {
  }

  lemma DestroySeen(j: System, id: S.ConnId)
    requires Known(j, id) && Matches(j.conns[id], j.server.conns[id]) && C.Inv(j.conns[id])
    ensures OnConn(j, id, C.Destroy).server == S.DestroyNow(j.server, id)
  {
  }

  lemma HupSeen(j: System, id: S.ConnId)
    requires Known(j, id) && Matches(j.conns[id], j.server.conns[id]) && C.Inv(j.conns[id])
    ensures OnConn(j, id, C.Hup).server == S.HangUp(j.server, id)
  {
  }

  lemma CloseTaskSeen(j: System, id: S.ConnId)
    requires Known(j, id) && Matches(j.conns[id], j.server.conns[id]) && C.Inv(j.conns[id])
    requires j.conns[id].queuedCloses > 0 && j.conns[id].state != Connecting
    ensures OnConn(j, id, C.CloseTask).server == S.Exec(j.server, S.CloseInLoop(id))
  {
  }

  lemma CallSeen(j: System, id: S.ConnId, e: C.Event)
    requires Known(j, id) && Matches(j.conns[id], j.server.conns[id]) && C.Inv(j.conns[id])
    requires (e.Send? || e.CloseRequest?) && C.Possible(j.conns[id], e) && j.conns[id].state != Connecting
    ensures OnConn(j, id, e).server
            == if j.conns[id].state != Connected then j.server
               else if e.Send? then S.SetWriting(j.server, id, C.Step(j.conns[id], e).channel.writing)
               else S.Enqueue(j.server, j.server.homes[id], S.CloseInLoop(id))
  {
  }

  /** The write that takes the last byte. */
  predicate LastByte(c: C.Conn, result: int) { c.channel.writing && result == |c.out| }

  lemma WriteSeen(j: System, id: S.ConnId, result: int)
    requires Known(j, id) && Matches(j.conns[id], j.server.conns[id]) && C.Inv(j.conns[id])
    requires -1 <= result <= |j.conns[id].out| && j.conns[id].state != Connecting
    ensures OnConn(j, id, C.WriteReady(result)).server
            == if LastByte(j.conns[id], result) then S.DrainNow(j.server, id) else j.server
  {
    var c, s := j.conns[id], j.server;
    if !LastByte(c, result) {
      assert Sync(s, id, C.Step(c, C.WriteReady(result)), 0) == s;
    } else if c.state == Disconnecting {
      var c' := C.Step(c, C.WriteReady(result));
      assert c'.closeReports == c.closeReports + 1;
      assert Sync(s, id, c', 0) == S.Shut(S.SetWriting(s, id, false), id);
    } else {
      assert Sync(s, id, C.Step(c, C.WriteReady(result)), 0) == S.SetWriting(s, id, false);
    }
  }

  /** The server's step behind a step of the system, if there is one. */
  function Projected(j: System, e: Event): Option<S.Event>
    requires Possible(j, e)
  {
    match e
    case Accept(l) => Some(S.Accept(l))
    case Reactor(step) => Some(step)
    case Call(id, what) =>
      if j.conns[id].state != Connected then None
      else if what.Send? then Some(S.Backlog(id, C.Step(j.conns[id], what).channel.writing))
      else Some(S.AskClose(id))
    case Handle(l, what) =>
      if what.PeerClosed? then Some(S.PeerGone(l))
      else if what.Hup? then Some(S.HungUp(l))
      else if LastByte(j.conns[j.server.posts[l].guard.value], what.result) then Some(S.Drained(l))
      else None
    case RunTask(l) => Some(S.RunTask(l))
  }

  lemma TaskSeen(j: System, t: S.Task)
    requires Known(j, t.conn) && (t.CloseInLoop? ==> j.conns[t.conn].queuedCloses > 0)
    requires Matches(j.conns[t.conn], j.server.conns[t.conn]) && C.Inv(j.conns[t.conn])
    requires j.conns[t.conn].state != Connecting
    ensures Run(j, t).server == S.Exec(j.server, t)
  {
    match t
    case CloseInLoop(id) => CloseTaskSeen(j, id);
    case Destroyed(id) => DestroySeen(j, id);
    case _ =>
  }

  /** To the server, a step of the system is its own projected step, or nothing. */
  predicate Seen(j: System, e: Event)
    requires Possible(j, e)
  {
    match Projected(j, e)
    case None => Step(j, e).server == j.server
    case Some(step) => S.Possible(j.server, step) && Step(j, e).server == S.Step(j.server, step)
  }

  lemma HandleSeen(j: System, l: S.LoopId, what: C.Event, id: S.ConnId)
    requires Possible(j, Handle(l, what)) && id == j.server.posts[l].guard.value
    requires Known(j, id) && Matches(j.conns[id], j.server.conns[id]) && C.Inv(j.conns[id])
    requires j.conns[id].state != Connecting
    ensures Seen(j, Handle(l, what))
  {
    match what
    case PeerClosed => CloseSeen(j, id);
    case Hup => HupSeen(j, id);
    case WriteReady(result) => WriteSeen(j, id, result);
  }

  lemma RunTaskSeen(j: System, l: S.LoopId, t: S.Task)
    requires Possible(j, RunTask(l)) && t == j.server.queues[l].toRun[0]
    requires Known(j, t.conn) && Matches(j.conns[t.conn], j.server.conns[t.conn]) && C.Inv(j.conns[t.conn])
    requires j.conns[t.conn].state != Connecting
    ensures Seen(j, RunTask(l))
  {
    TaskSeen(Popped(j, l), t);
  }

  /** The connection an event is about, unless it is only the loop's. */
  function Subject(j: System, e: Event): Option<S.ConnId>
    requires Possible(j, e)
  {
    match e
    case Accept(_) => None
    case Reactor(_) => None
    case Call(id, _) => Some(id)
    case Handle(l, _) => Some(j.server.posts[l].guard.value)
    case RunTask(l) => Some(j.server.queues[l].toRun[0].conn)
  }

  lemma SubjectKnown(j: System, e: Event)
    requires AllTied(j) && Possible(j, e) && Subject(j, e).Some?
    ensures var id := Subject(j, e).value;
            && Known(j, id) && Matches(j.conns[id], j.server.conns[id])
            && C.Inv(j.conns[id]) && j.conns[id].state != Connecting
  {
    assert Tied(j, Subject(j, e).value);
  }

  lemma SubjectSeen(j: System, e: Event, id: S.ConnId)
    requires Possible(j, e) && Subject(j, e) == Some(id)
    requires Known(j, id) && Matches(j.conns[id], j.server.conns[id]) && C.Inv(j.conns[id])
    requires j.conns[id].state != Connecting
    ensures Seen(j, e)
  {
    match e
    case Call(_, what) => CallSeen(j, id, what);
    case Handle(l, what) => HandleSeen(j, l, what, id);
    case RunTask(l) => RunTaskSeen(j, l, j.server.queues[l].toRun[0]);
  }

  lemma LoopSeen(j: System, e: Event)
    requires Possible(j, e) && Subject(j, e).None?
    ensures Seen(j, e)
  {
  }

  lemma StepSeen(j: System, e: Event)
    requires AllTied(j) && Possible(j, e)
    ensures Seen(j, e)
  {
    if Subject(j, e).Some? {
      SubjectKnown(j, e);
      SubjectSeen(j, e, Subject(j, e).value);
    } else {
      LoopSeen(j, e);
    }
  }

  // -------------------------------------------------------- every step keeps

  /** Callbacks change the map and the queues, and count erasures, no more. */
  predicate RecordKept(s: S.Server, s': S.Server, x: S.ConnId)
    requires x in s.conns && x in s'.conns
  {
    var r, r' := s.conns[x], s'.conns[x];
    r'.state == r.state && r'.registered == r.registered && r'.writing == r.writing
  }

  lemma TaskAdded(s: S.Server, l: S.LoopId, t: S.Task, x: S.ConnId)
    requires S.Shape(s) && t.conn in s.conns && x in s.conns && S.Home(s.homes, t) == l
    ensures var s' := S.Enqueue(s, l, t);
            && S.Shape(s') && s'.conns == s.conns
            && Asked(s', x) == Asked(s, x) + (if t == S.CloseInLoop(x) then 1 else 0)
  {
    S.EnqueueCnt(s.homes, s.queues, l, t, S.CloseInLoop(x));
  }

  lemma EraseKeeps(s: S.Server, id: S.ConnId, x: S.ConnId)
    requires S.Shape(s) && id in s.conns && x in s.conns
    ensures var s' := S.EraseNow(s, id);
            && S.Shape(s') && s'.conns.Keys == s.conns.Keys && s'.homes == s.homes
            && RecordKept(s, s', x) && Asked(s', x) == Asked(s, x)
  {
  }

  lemma RemoveKeeps(s: S.Server, id: S.ConnId, x: S.ConnId)
    requires S.Shape(s) && id in s.conns && x in s.conns
    ensures var s' := S.RemoveNow(s, id);
            S.Shape(s') && s'.conns.Keys == s.conns.Keys && RecordKept(s, s', x) && Asked(s', x) == Asked(s, x)
  {
    EraseKeeps(s, id, x);
    if !S.EraseNow(s, id).failed { TaskAdded(S.EraseNow(s, id), s.homes[id], S.Destroyed(id), x); }
  }

  lemma ReportedKeeps(s: S.Server, id: S.ConnId, c: C.Conn, c': C.Conn, x: S.ConnId)
    requires S.Shape(s) && id in s.conns && x in s.conns
    ensures var s' := Reported(s, id, c, c');
            && S.Shape(s') && s'.conns.Keys == s.conns.Keys && RecordKept(s, s', x)
            && Asked(s', x) == Asked(s, x)
                               + (if x == id && c'.closeReports <= c.closeReports && c'.hupReports <= c.hupReports
                                     && c'.queuedCloses > c.queuedCloses then 1 else 0)
  {
    if c'.closeReports > c.closeReports {
      if s.homes[id] == S.BASE { RemoveKeeps(s, id, x); } else { TaskAdded(s, S.BASE, S.RemoveInLoop(id), x); }
    } else if c'.hupReports > c.hupReports {
      if s.homes[id] == S.BASE { EraseKeeps(s, id, x); } else { TaskAdded(s, S.BASE, S.RemoveFromMap(id), x); }
    } else if c'.queuedCloses > c.queuedCloses {
      TaskAdded(s, s.homes[id], S.CloseInLoop(id), x);
    }
  }

  predicate AsksNow(c: C.Conn, e: C.Event) { e.CloseRequest? && c.state == Connected }

  /** How the connection's own counts move. */
  lemma CountsMove(c: C.Conn, e: C.Event)
    requires C.Inv(c) && C.Possible(c, e) && c.state != Connecting && !e.Establish?
    ensures var c' := C.Step(c, e);
            && C.Inv(c') && c'.state != Connecting
            && c'.queuedCloses == c.queuedCloses + (if AsksNow(c, e) then 1 else 0) - (if e.CloseTask? then 1 else 0)
            && (AsksNow(c, e) ==> c'.closeReports == c.closeReports && c'.hupReports == c.hupReports)
  {
    C.StepKeeps(c, e);
  }

  lemma OnConnKeeps(j: System, id: S.ConnId, e: C.Event, x: S.ConnId)
    requires Known(j, id) && Known(j, x) && C.Possible(j.conns[id], e) && !e.Establish?
    requires C.Inv(j.conns[id]) && j.conns[id].state != Connecting && Matches(j.conns[x], j.server.conns[x])
    ensures var j' := OnConn(j, id, e);
            && Known(j', x) && j'.server.conns.Keys == j.server.conns.Keys
            && Matches(j'.conns[x], j'.server.conns[x])
            && Asked(j'.server, x) == Asked(j.server, x) + (if x == id && AsksNow(j.conns[id], e) then 1 else 0)
  {
    var c := j.conns[id];
    var c' := C.Step(c, e);
    var s1 := Sync(j.server, id, c', if e.Hup? || e.Destroy? then 1 else 0);
    CountsMove(c, e);
    ReportedKeeps(s1, id, c, c', x);
    assert Asked(s1, x) == Asked(j.server, x);
  }

  /** A member function of a connection, run with everything tied but for the close
      functor that may just have been taken off the queue. */
  lemma OnConnTied(j: System, id: S.ConnId, e: C.Event, x: S.ConnId)
    requires Known(j, id) && Known(j, x) && C.Possible(j.conns[id], e) && !e.Establish?
    requires C.Inv(j.conns[id]) && j.conns[id].state != Connecting
    requires Matches(j.conns[x], j.server.conns[x]) && C.Inv(j.conns[x]) && j.conns[x].state != Connecting
    requires j.conns[x].queuedCloses == Asked(j.server, x) + (if x == id && e.CloseTask? then 1 else 0)
    ensures Known(OnConn(j, id, e), x) && Tied(OnConn(j, id, e), x)
  {
    OnConnKeeps(j, id, e, x);
    CountsMove(j.conns[id], e);
  }

  lemma PoppedTied(j: System, l: S.LoopId, x: S.ConnId)
    requires Known(j, x) && Tied(j, x) && S.AllHome(j.server.homes, j.server.queues)
    requires l < |j.server.queues| && !j.server.queues[l].Empty()
    ensures var j', t := Popped(j, l), j.server.queues[l].Head();
            && Known(j', x) && j'.conns == j.conns && j'.server.conns == j.server.conns
            && j.conns[x].queuedCloses == Asked(j'.server, x) + (if t == S.CloseInLoop(x) then 1 else 0)
  {
    S.PopHome(j.server.homes, j.server.queues, l);
    S.PopCnt(j.server.homes, j.server.queues, l, S.CloseInLoop(x));
  }

  lemma TiedAt(j: System, x: S.ConnId)
    requires AllTied(j) && x in j.conns
    ensures Known(j, x) && Tied(j, x)
  {
  }

  /** The connection of a functor about to run is there, and a close functor in the
      queue is one that the connection has asked for: running it is always possible. */
  lemma TaskPossible(j: System, l: S.LoopId)
    requires Inv(j) && S.Possible(j.server, S.RunTask(l))
    ensures Possible(j, RunTask(l))
  {
    TiedAt(j, j.server.queues[l].toRun[0].conn);
    HomesOf(j.server);
    QueuedIsAsked(j, l, j.server.queues[l].toRun[0]);
  }

  lemma QueuedIsAsked(j: System, l: S.LoopId, t: S.Task)
    requires l < |j.server.queues| && j.server.queues[l].toRun != [] && t == j.server.queues[l].toRun[0]
    requires Known(j, t.conn) && Tied(j, t.conn) && S.AllHome(j.server.homes, j.server.queues)
    ensures t.CloseInLoop? ==> j.conns[t.conn].queuedCloses > 0
  {
    PoppedTied(j, l, t.conn);
  }

  lemma HomesOf(s: S.Server)
    requires S.Inv(s)
    ensures S.AllHome(s.homes, s.queues) && s.nextId !in s.conns
  {
  }

  lemma RunTied(j: System, t: S.Task, x: S.ConnId)
    requires Known(j, t.conn) && Known(j, x) && (t.CloseInLoop? ==> j.conns[t.conn].queuedCloses > 0)
    requires C.Inv(j.conns[t.conn]) && j.conns[t.conn].state != Connecting
    requires Matches(j.conns[x], j.server.conns[x]) && C.Inv(j.conns[x]) && j.conns[x].state != Connecting
    requires j.conns[x].queuedCloses == Asked(j.server, x) + (if t == S.CloseInLoop(x) then 1 else 0)
    ensures Known(Run(j, t), x) && Tied(Run(j, t), x)
  {
    match t
    case CloseInLoop(id) => OnConnTied(j, id, C.CloseTask, x);
    case Destroyed(id) => OnConnTied(j, id, C.Destroy, x);
    case RemoveInLoop(id) => RemoveKeeps(j.server, id, x);
    case RemoveFromMap(id) => EraseKeeps(j.server, id, x);
  }

  lemma TaskTied(j: System, l: S.LoopId, t: S.Task, x: S.ConnId)
    requires Possible(j, RunTask(l)) && t == j.server.queues[l].toRun[0] && S.AllHome(j.server.homes, j.server.queues)
    requires Known(j, x) && Tied(j, x) && Known(j, t.conn) && Tied(j, t.conn)
    ensures Known(Step(j, RunTask(l)), x) && Tied(Step(j, RunTask(l)), x)
  {
    PoppedTied(j, l, x);
    RunTied(Popped(j, l), t, x);
  }

  lemma ReactorTied(j: System, step: S.Event, x: S.ConnId)
    requires Possible(j, Reactor(step)) && Known(j, x) && Tied(j, x) && S.AllHome(j.server.homes, j.server.queues)
    ensures Known(Step(j, Reactor(step)), x) && Tied(Step(j, Reactor(step)), x)
  {
    if step.StartBatch? { S.SwapQueue(j.server.homes, j.server.queues, step.loop); }
  }

  lemma AcceptTied(j: System, l: S.LoopId, x: S.ConnId)
    requires Possible(j, Accept(l)) && S.AllHome(j.server.homes, j.server.queues)
    requires x != j.server.nextId ==> Known(j, x) && Tied(j, x)
    ensures Known(Step(j, Accept(l)), x) && Tied(Step(j, Accept(l)), x)
  {
    if x == j.server.nextId {
      S.NothingQueued(j.server.homes, j.server.queues, l, S.CloseInLoop(x));
    }
  }

  lemma StepTied(j: System, e: Event, x: S.ConnId)
    requires Possible(j, e) && S.AllHome(j.server.homes, j.server.queues)
    requires (e.Accept? && x == j.server.nextId) || (Known(j, x) && Tied(j, x))
    requires Subject(j, e).Some? ==> Known(j, Subject(j, e).value) && Tied(j, Subject(j, e).value)
    ensures Known(Step(j, e), x) && Tied(Step(j, e), x)
  {
    match e
    case Accept(l) => AcceptTied(j, l, x);
    case Reactor(step) => ReactorTied(j, step, x);
    case RunTask(l) => TaskTied(j, l, j.server.queues[l].toRun[0], x);
    case Call(id, what) => OnConnTied(j, id, what, x);
    case Handle(l, what) => OnConnTied(j, j.server.posts[l].guard.value, what, x);
  }

  lemma OnConnKeys(j: System, id: S.ConnId, e: C.Event)
    requires Known(j, id) && C.Possible(j.conns[id], e) && j.conns.Keys == j.server.conns.Keys
    ensures OnConn(j, id, e).conns.Keys == OnConn(j, id, e).server.conns.Keys == j.conns.Keys
  {
    var c := j.conns[id];
    var c' := C.Step(c, e);
    ReportedKeeps(Sync(j.server, id, c', if e.Hup? || e.Destroy? then 1 else 0), id, c, c', id);
  }

  lemma StepKeys(j: System, e: Event)
    requires Possible(j, e)
    requires Subject(j, e).Some? ==> Known(j, Subject(j, e).value)
    ensures Step(j, e).conns.Keys == Step(j, e).server.conns.Keys
            == if e.Accept? then j.conns.Keys + {j.server.nextId} else j.conns.Keys
  {
    match e
    case Accept(l) =>
    case Reactor(step) =>
    case RunTask(l) =>
      var t, j1 := j.server.queues[l].toRun[0], Popped(j, l);
      if t.CloseInLoop? { OnConnKeys(j1, t.conn, C.CloseTask); }
      else if t.Destroyed? { OnConnKeys(j1, t.conn, C.Destroy); }
      else { S.ExecShape(j1.server, t); }
    case Call(id, what) => OnConnKeys(j, id, what);
    case Handle(l, what) => OnConnKeys(j, j.server.posts[l].guard.value, what);
  }

  lemma StepAllTied(j: System, e: Event)
    requires Inv(j) && Possible(j, e) && S.Shape(Step(j, e).server)
    ensures AllTied(Step(j, e))
  {
    HomesOf(j.server);
    if Subject(j, e).Some? {
      SubjectKnown(j, e);
      TiedAt(j, Subject(j, e).value);
    }
    StepKeys(j, e);
    forall x | x in Step(j, e).conns ensures Known(Step(j, e), x) && Tied(Step(j, e), x) {
      if x in j.conns { TiedAt(j, x); }
      StepTied(j, e, x);
    }
  }

  /** Every step of the system keeps the invariant, and is a step of the server whose
      hang-up comes in time, or none. */
  lemma StepKeeps(j: System, e: Event)
    requires Inv(j) && Possible(j, e) && Timely(j, e)
    ensures Seen(j, e) && Inv(Step(j, e))
    ensures Projected(j, e).Some? ==> S.HupInTime(j.server, Projected(j, e).value)
  {
    StepSeen(j, e);
    if Subject(j, e).Some? { SubjectKnown(j, e); }
    ProjectedInTime(j, e);
    if Projected(j, e).Some? { S.StepKeeps(j.server, Projected(j, e).value); }
    StepAllTied(j, e);
  }

  lemma ProjectedInTime(j: System, e: Event)
    requires Possible(j, e) && Timely(j, e) && Seen(j, e)
    requires Subject(j, e).Some? ==>
               var id := Subject(j, e).value; Known(j, id) && Matches(j.conns[id], j.server.conns[id])
    ensures Projected(j, e).Some? ==> S.HupInTime(j.server, Projected(j, e).value)
  {
  }

  // ------------------------------------------------------------------ all runs

  predicate PossibleRun(j: System, run: seq<Event>)
    decreases |run|
  {
    run == [] || (Possible(j, run[0]) && PossibleRun(Step(j, run[0]), run[1..]))
  }

  function After(j: System, run: seq<Event>): System
    requires PossibleRun(j, run)
    decreases |run|
  {
    if run == [] then j else After(Step(j, run[0]), run[1..])
  }

  predicate TimelyRun(j: System, run: seq<Event>)
    requires PossibleRun(j, run)
    decreases |run|
  {
    run == [] || (Timely(j, run[0]) && TimelyRun(Step(j, run[0]), run[1..]))
  }

  /** The run as the server sees it. */
  function ProjectedRun(j: System, run: seq<Event>): seq<S.Event>
    requires PossibleRun(j, run)
    decreases |run|
  {
    if run == [] then []
    else
      (match Projected(j, run[0]) case None => [] case Some(step) => [step])
      + ProjectedRun(Step(j, run[0]), run[1..])
  }

  lemma {:induction false} RunProjects(j: System, run: seq<Event>)
    requires Inv(j) && PossibleRun(j, run) && TimelyRun(j, run)
    ensures Inv(After(j, run))
    ensures var steps := ProjectedRun(j, run);
            && S.PossibleRun(j.server, steps) && S.HupsInTime(j.server, steps)
            && After(j, run).server == S.After(j.server, steps)
    decreases |run|
  {
    if run != [] {
      var j', rest := Step(j, run[0]), run[1..];
      StepKeeps(j, run[0]);
      RunProjects(j', rest);
      OneMoreStep(j, run[0], rest, ProjectedRun(j', rest));
    }
  }

  lemma OneMoreStep(j: System, e: Event, rest: seq<Event>, steps: seq<S.Event>)
    requires Possible(j, e) && Seen(j, e) && PossibleRun(Step(j, e), rest)
    requires Projected(j, e).Some? ==> S.HupInTime(j.server, Projected(j, e).value)
    requires S.PossibleRun(Step(j, e).server, steps) && S.HupsInTime(Step(j, e).server, steps)
    ensures var all := (match Projected(j, e) case None => [] case Some(step) => [step]) + steps;
            && S.PossibleRun(j.server, all) && S.HupsInTime(j.server, all)
            && S.After(j.server, all) == S.After(Step(j, e).server, steps)
  {
    match Projected(j, e)
    case None => assert [] + steps == steps;
    case Some(step) => assert ([step] + steps)[1..] == steps;
  }

  function NewSystem(loops: nat): System
    requires loops > 0
  {
    System(S.NewServer(loops), map[])
  }

  /** Over every run of the whole system, with any number of connections on any
      loops, the base loop included, whose hang-ups come in time: the server goes
      through one of its own runs; no assert fails; every connection has had its
      erasure and its destruction at most once, is at exactly one stage of its
      removal and, while epoll knows it, is held by somebody; and its output stream
      is intact. */
  lemma ConnectionsSafe(loops: nat, run: seq<Event>)
    requires loops > 0 && PossibleRun(NewSystem(loops), run) && TimelyRun(NewSystem(loops), run)
    ensures var j, steps := After(NewSystem(loops), run), ProjectedRun(NewSystem(loops), run);
            && S.PossibleRun(S.NewServer(loops), steps) && S.HupsInTime(S.NewServer(loops), steps)
            && j.server == S.After(S.NewServer(loops), steps) && !j.server.failed
            && j.conns.Keys == j.server.conns.Keys
            && forall id | id in j.conns :: Known(j, id) && ConnSafe(j, id)
  {
    RunProjects(NewSystem(loops), run);
    var j := After(NewSystem(loops), run);
    forall id | id in j.conns ensures Known(j, id) && ConnSafe(j, id) { SafeAt(j, id); }
  }

  ghost predicate ConnSafe(j: System, id: S.ConnId)
    requires Known(j, id)
  {
    var c := j.conns[id];
    && Matches(c, j.server.conns[id]) && S.OneStage(S.StatusOf(j.server, id))
    && (c.channel.kernel.Some? ==> S.StronglyHeld(j.server, id))
    && c.closeReports <= 1 && c.accepted == c.written + c.out
  }

  lemma SafeAt(j: System, id: S.ConnId)
    requires Inv(j) && id in j.conns
    ensures Known(j, id) && ConnSafe(j, id)
  {
    TiedAt(j, id);
    assert S.Fine(S.StatusOf(j.server, id));
    S.FineIsOneStage(S.StatusOf(j.server, id));
    if j.conns[id].channel.kernel.Some? { S.RegisteredIsHeld(j.server, id); }
  }
}
