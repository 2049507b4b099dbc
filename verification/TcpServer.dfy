/** net/TcpServer with its connections and loops: from accepting a connection to
    tearing it down across two threads. The base loop is number 0; every other
    loop runs on its own thread, and their steps interleave. */
module TcpServers {
  import opened Text
  import opened ConnectionStates
  import ThreadPools

  type ConnId = nat
  type LoopId = ThreadPools.LoopId

  const BASE: LoopId := 0

  // ------------------------------------------------------------------- names

  /** The map key of the n-th connection. */
  function ConnName(server: string, n: nat): string {
    server + "#" + Decimal(n)
  }

  /** Connections can be identified with their numbers. */
  lemma NamesDistinct(server: string, m: nat, n: nat)
    ensures ConnName(server, m) == ConnName(server, n) <==> m == n
  {
    assert ConnName(server, m)[|server| + 1..] == Decimal(m);
    assert ConnName(server, n)[|server| + 1..] == Decimal(n);
    DecimalValue(m);
    DecimalValue(n);
  }

  // ------------------------------------------------------------ specification

  /** Functors the teardown queues; each holds a strong reference. */
  datatype Task =
    | CloseInLoop(conn: ConnId)
    | RemoveInLoop(conn: ConnId)
    | RemoveFromMap(conn: ConnId)
    | Destroyed(conn: ConnId)

  /** A loop's batch in progress and its waiting functors. */
  datatype Queue = Queue(toRun: seq<Task>, pending: seq<Task>) {
    predicate Empty() { toRun == [] && pending == [] }

    function Head(): Task
      requires !Empty()
    {
      if toRun != [] then toRun[0] else pending[0]
    }

    function Tail(): Queue
      requires !Empty()
    {
      if toRun != [] then Queue(toRun[1..], pending) else Queue([], pending[1..])
    }
  }

  datatype Phase = Idle | Dispatching | Running

  /** `active` are the channels of the current poll not yet handled, `guard` the
      connection `Channel::handleEvent` keeps alive. */
  datatype Post = Post(phase: Phase, active: set<ConnId>, guard: Option<ConnId>)

  datatype ConnRec = ConnRec(state: State, registered: bool, writing: bool, destroyedRuns: nat, erasures: nat)

  /** `homes` says which loop serves a connection, `connections` are the keys of the
      server's map; `failed` says that an assert behind its lookups has failed. */
  datatype Server = Server(homes: map<ConnId, LoopId>, conns: map<ConnId, ConnRec>, connections: set<ConnId>,
                           queues: seq<Queue>, posts: seq<Post>, nextId: nat, failed: bool)

  predicate Placed(homes: map<ConnId, LoopId>, queues: seq<Queue>) {
    |queues| > 0 && forall c | c in homes :: homes[c] < |queues|
  }

  predicate Shape(s: Server) {
    && Placed(s.homes, s.queues)
    && s.homes.Keys == s.conns.Keys
    && s.connections <= s.conns.Keys
    && |s.posts| == |s.queues|
  }

  predicate IsOpen(r: ConnRec) { r.state == Connected || r.state == Disconnecting }

  function Enqueue(s: Server, l: LoopId, t: Task): Server
    requires l < |s.queues|
  {
    s.(queues := s.queues[l := s.queues[l].(pending := s.queues[l].pending + [t])])
  }

  /** The lookup, the assert behind it, and the erasure. */
  function EraseNow(s: Server, c: ConnId): Server
    requires c in s.conns
  {
    if c !in s.connections then s.(failed := true)
    else s.(connections := s.connections - {c}, conns := s.conns[c := s.conns[c].(erasures := s.conns[c].erasures + 1)])
  }

  /** `removeConnectionInLoop`. */
  function RemoveNow(s: Server, c: ConnId): Server
    requires Shape(s) && c in s.conns
  {
    var s' := EraseNow(s, c);
    if s'.failed then s' else Enqueue(s', s.homes[c], Destroyed(c))
  }

  /** `removeConnection`: at once on the base loop, queued for it from any other. */
  function ReportClose(s: Server, c: ConnId): Server
    requires Shape(s) && c in s.conns
  {
    if s.homes[c] == BASE then RemoveNow(s, c) else Enqueue(s, BASE, RemoveInLoop(c))
  }

  function Shut(s: Server, c: ConnId): Server
    requires c in s.conns
  {
    s.(conns := s.conns[c := s.conns[c].(state := Disconnected, writing := false)])
  }

  /** `handleClose`. */
  function CloseNow(s: Server, c: ConnId): Server
    requires Shape(s) && c in s.conns
  {
    if IsOpen(s.conns[c]) then ReportClose(Shut(s, c), c) else s
  }

  /** `connectionDestroyed`. */
  function DestroyNow(s: Server, c: ConnId): Server
    requires c in s.conns
  {
    var r := s.conns[c];
    s.(conns := s.conns[c := r.(state := if IsOpen(r) then Disconnected else r.state, writing := false,
                                registered := false, destroyedRuns := r.destroyedRuns + 1)])
  }

  /** `handleHup`. */
  function HangUp(s: Server, c: ConnId): Server
    requires Shape(s) && c in s.conns
  {
    var s' := DestroyNow(s, c);
    if s.homes[c] == BASE then EraseNow(s', c) else Enqueue(s', BASE, RemoveFromMap(c))
  }

  function Exec(s: Server, t: Task): Server
    requires Shape(s) && t.conn in s.conns
  {
    match t
    case CloseInLoop(c) =>
      if s.conns[c].state != Connected then s
      else if s.conns[c].writing then s.(conns := s.conns[c := s.conns[c].(state := Disconnecting)])
      else CloseNow(s, c)
    case RemoveInLoop(c) => RemoveNow(s, c)
    case RemoveFromMap(c) => EraseNow(s, c)
    case Destroyed(c) => DestroyNow(s, c)
  }

  function Pop(s: Server, l: LoopId): Server
    requires l < |s.queues| && !s.queues[l].Empty()
  {
    s.(queues := s.queues[l := s.queues[l].Tail()])
  }

  // ----------------------------------------------------- invariant, connections

  /** The loop a task is meant for. */
  function Home(homes: map<ConnId, LoopId>, t: Task): LoopId
    requires t.conn in homes
  {
    if t.RemoveInLoop? || t.RemoveFromMap? then BASE else homes[t.conn]
  }

  function CntIn(q: Queue, t: Task): nat {
    multiset(q.toRun)[t] + multiset(q.pending)[t]
  }

  /** How often a task is queued where it belongs. */
  function Cnt(homes: map<ConnId, LoopId>, queues: seq<Queue>, t: Task): nat
    requires Placed(homes, queues) && t.conn in homes
  {
    CntIn(queues[Home(homes, t)], t)
  }

  /** All functors sit on the loops they are meant for. */
  predicate AllHome(homes: map<ConnId, LoopId>, queues: seq<Queue>) {
    forall l | 0 <= l < |queues| :: AtHome(homes, l, queues[l].toRun) && AtHome(homes, l, queues[l].pending)
  }

  predicate AtHome(homes: map<ConnId, LoopId>, l: LoopId, tasks: seq<Task>) {
    forall i | 0 <= i < |tasks| :: tasks[i].conn in homes && Home(homes, tasks[i]) == l
  }

  /** All there is to know about one connection's teardown: its record, its place in
      the map, and how many functors of each kind are under way. */
  datatype Status = Status(rec: ConnRec, mapped: bool, removes: nat, destroys: nat, drops: nat)

  function StatusOf(s: Server, c: ConnId): Status
    requires Shape(s) && c in s.conns
  {
    Status(s.conns[c], c in s.connections,
           Cnt(s.homes, s.queues, RemoveInLoop(c)),
           Cnt(s.homes, s.queues, Destroyed(c)),
           Cnt(s.homes, s.queues, RemoveFromMap(c)))
  }

  /** The stages of a connection: in use; closed and to be erased from the map;
      erased and to be destroyed; hung up and to be dropped from the map; gone. */
  datatype Stage = Live | ToErase | ToDestroy | ToDrop | Gone

  predicate AtStage(st: Status, stage: Stage) {
    && (if stage.Live? then IsOpen(st.rec) else st.rec.state == Disconnected && !st.rec.writing)
    && (st.mapped <==> stage.Live? || stage.ToErase? || stage.ToDrop?)
    && (st.rec.registered <==> stage.Live? || stage.ToErase? || stage.ToDestroy?)
    && st.removes == (if stage.ToErase? then 1 else 0)
    && st.destroys == (if stage.ToDestroy? then 1 else 0)
    && st.drops == (if stage.ToDrop? then 1 else 0)
    && st.rec.destroyedRuns == (if stage.ToDrop? || stage.Gone? then 1 else 0)
    && st.rec.erasures == (if stage.ToDestroy? || stage.Gone? then 1 else 0)
  }

  predicate Fine(st: Status) {
    AtStage(st, Live) || AtStage(st, ToErase) || AtStage(st, ToDestroy) || AtStage(st, ToDrop) || AtStage(st, Gone)
  }

  predicate Sound(s: Server) {
    && Shape(s) && !s.failed && AllHome(s.homes, s.queues)
    && (forall x | x in s.conns :: x < s.nextId)
  }

  predicate CoreInv(s: Server) {
    Sound(s) && (forall x | x in s.conns :: Fine(StatusOf(s, x)))
  }

  /** Nothing has happened to any connection but `c`. */
  predicate Same(s: Server, s': Server, c: ConnId)
    requires Shape(s) && Shape(s')
  {
    s'.homes == s.homes && forall x | x in s.conns && x != c :: StatusOf(s', x) == StatusOf(s, x)
  }

  /** The dispatch side is as it was, and no batch has begun. */
  predicate Quiet(s: Server, s': Server) {
    && s'.posts == s.posts && |s'.queues| == |s.queues|
    && (forall l | 0 <= l < |s.queues| :: s'.queues[l].toRun != [] ==> s.queues[l].toRun != [])
  }

  // -------------------------------------------------------------- small steps

  lemma EnqueueCnt(homes: map<ConnId, LoopId>, queues: seq<Queue>, l: LoopId, t: Task, u: Task)
    requires Placed(homes, queues) && l < |queues| && t.conn in homes && u.conn in homes && Home(homes, t) == l
    ensures var queues' := queues[l := queues[l].(pending := queues[l].pending + [t])];
            Cnt(homes, queues', u) == Cnt(homes, queues, u) + (if t == u then 1 else 0)
  {
  }

  lemma EnqueueHome(homes: map<ConnId, LoopId>, queues: seq<Queue>, l: LoopId, t: Task)
    requires AllHome(homes, queues) && l < |queues| && t.conn in homes && Home(homes, t) == l
    ensures AllHome(homes, queues[l := queues[l].(pending := queues[l].pending + [t])])
  {
    assert AtHome(homes, l, queues[l].pending);
    assert AtHome(homes, l, queues[l].pending + [t]);
  }

  lemma TailCnt(q: Queue, u: Task)
    requires !q.Empty()
    ensures CntIn(q, u) == CntIn(q.Tail(), u) + (if q.Head() == u then 1 else 0)
  {
    if q.toRun != [] {
      assert q.toRun == [q.toRun[0]] + q.toRun[1..];
    } else {
      assert q.pending == [q.pending[0]] + q.pending[1..];
    }
  }

  lemma PopCnt(homes: map<ConnId, LoopId>, queues: seq<Queue>, l: LoopId, u: Task)
    requires Placed(homes, queues) && l < |queues| && !queues[l].Empty() && u.conn in homes
    requires queues[l].Head().conn in homes && Home(homes, queues[l].Head()) == l
    ensures var queues' := queues[l := queues[l].Tail()];
            Cnt(homes, queues, u) == Cnt(homes, queues', u) + (if queues[l].Head() == u then 1 else 0)
  {
    TailCnt(queues[l], u);
  }

  lemma PopHome(homes: map<ConnId, LoopId>, queues: seq<Queue>, l: LoopId)
    requires AllHome(homes, queues) && l < |queues| && !queues[l].Empty()
    ensures AllHome(homes, queues[l := queues[l].Tail()])
    ensures queues[l].Head().conn in homes && Home(homes, queues[l].Head()) == l
  {
    var q := queues[l];
    assert AtHome(homes, l, q.toRun) && AtHome(homes, l, q.pending);
    assert AtHome(homes, l, q.Tail().toRun) && AtHome(homes, l, q.Tail().pending);
  }

  lemma StatusFrame(s: Server, s': Server, x: ConnId)
    requires Shape(s) && Shape(s') && x in s.conns && s'.homes == s.homes && s'.queues == s.queues
    requires s'.conns[x] == s.conns[x] && (x in s'.connections <==> x in s.connections)
    ensures StatusOf(s', x) == StatusOf(s, x)
  {
  }

  /** Changing the record of `c`, and its place in the map, alone. */
  lemma SetEntry(s: Server, s': Server, c: ConnId)
    requires Sound(s) && c in s.conns && s'.conns.Keys == s.conns.Keys && s'.connections <= s.conns.Keys
    requires s' == s.(conns := s'.conns, connections := s'.connections)
    requires forall x | x in s.conns && x != c ::
               s'.conns[x] == s.conns[x] && (x in s'.connections <==> x in s.connections)
    ensures Sound(s') && Same(s, s', c) && Quiet(s, s')
    ensures StatusOf(s', c) == StatusOf(s, c).(rec := s'.conns[c], mapped := c in s'.connections)
  {
    forall x | x in s.conns && x != c ensures StatusOf(s', x) == StatusOf(s, x) { StatusFrame(s, s', x); }
  }

  lemma SetConn(s: Server, c: ConnId, r: ConnRec)
    requires Sound(s) && c in s.conns
    ensures var s' := s.(conns := s.conns[c := r]);
            Sound(s') && Same(s, s', c) && Quiet(s, s') && StatusOf(s', c) == StatusOf(s, c).(rec := r)
  {
    SetEntry(s, s.(conns := s.conns[c := r]), c);
  }

  /** The lookup finds `c`. */
  lemma EraseFinds(s: Server, c: ConnId)
    requires Sound(s) && c in s.connections
    ensures var s' := EraseNow(s, c);
            && Sound(s') && Same(s, s', c) && Quiet(s, s')
            && StatusOf(s', c) == StatusOf(s, c).(mapped := false,
                                                  rec := s.conns[c].(erasures := s.conns[c].erasures + 1))
  {
    SetEntry(s, EraseNow(s, c), c);
  }

  function OneMore(st: Status, t: Task): Status {
    match t
    case CloseInLoop(_) => st
    case RemoveInLoop(_) => st.(removes := st.removes + 1)
    case Destroyed(_) => st.(destroys := st.destroys + 1)
    case RemoveFromMap(_) => st.(drops := st.drops + 1)
  }

  lemma QueueStatus(s: Server, l: LoopId, t: Task, x: ConnId)
    requires Shape(s) && t.conn in s.conns && Home(s.homes, t) == l && x in s.conns
    ensures StatusOf(Enqueue(s, l, t), x) == if x == t.conn then OneMore(StatusOf(s, x), t) else StatusOf(s, x)
  {
    EnqueueCnt(s.homes, s.queues, l, t, RemoveInLoop(x));
    EnqueueCnt(s.homes, s.queues, l, t, Destroyed(x));
    EnqueueCnt(s.homes, s.queues, l, t, RemoveFromMap(x));
  }

  /** Queueing a functor where it belongs. */
  lemma QueueTask(s: Server, l: LoopId, t: Task)
    requires Sound(s) && t.conn in s.conns && Home(s.homes, t) == l
    ensures var s' := Enqueue(s, l, t);
            && Sound(s') && Same(s, s', t.conn) && Quiet(s, s')
            && StatusOf(s', t.conn) == OneMore(StatusOf(s, t.conn), t)
  {
    EnqueueHome(s.homes, s.queues, l, t);
    var s' := Enqueue(s, l, t);
    assert Sound(s') && Quiet(s, s');
    forall x | x in s.conns
      ensures StatusOf(s', x) == if x == t.conn then OneMore(StatusOf(s, x), t) else StatusOf(s, x)
    {
      QueueStatus(s, l, t, x);
    }
  }

  lemma PopStatus(s: Server, l: LoopId, x: ConnId)
    requires Sound(s) && l < |s.queues| && !s.queues[l].Empty() && x in s.conns
    ensures var t, st := s.queues[l].Head(), StatusOf(Pop(s, l), x);
            StatusOf(s, x) == if x == t.conn then OneMore(st, t) else st
  {
    PopHome(s.homes, s.queues, l);
    PopCnt(s.homes, s.queues, l, RemoveInLoop(x));
    PopCnt(s.homes, s.queues, l, Destroyed(x));
    PopCnt(s.homes, s.queues, l, RemoveFromMap(x));
  }

  /** Taking the next functor off a loop. */
  lemma PopTask(s: Server, l: LoopId)
    requires Sound(s) && l < |s.queues| && !s.queues[l].Empty()
    ensures var t, s' := s.queues[l].Head(), Pop(s, l);
            && t.conn in s.conns && Home(s.homes, t) == l
            && Sound(s') && Same(s, s', t.conn) && Quiet(s, s')
            && StatusOf(s, t.conn) == OneMore(StatusOf(s', t.conn), t)
  {
    PopHome(s.homes, s.queues, l);
    var t, s' := s.queues[l].Head(), Pop(s, l);
    assert Sound(s') && Quiet(s, s');
    forall x | x in s.conns
      ensures StatusOf(s, x) == if x == t.conn then OneMore(StatusOf(s', x), t) else StatusOf(s', x)
    {
      PopStatus(s, l, x);
    }
  }

  /** If only `c` changed and `c` is at some stage, all is well again. */
  lemma BackToInv(s: Server, s': Server, c: ConnId, stage: Stage)
    requires CoreInv(s) && Sound(s') && Same(s, s', c) && c in s.conns
    requires AtStage(StatusOf(s', c), stage)
    ensures CoreInv(s')
  {
    forall x | x in s'.conns ensures Fine(StatusOf(s', x)) {
      if x != c { assert StatusOf(s', x) == StatusOf(s, x); }
    }
  }

  // ------------------------------------------- what each operation does to a stage

  lemma OpenIsLive(s: Server, c: ConnId)
    requires CoreInv(s) && c in s.conns && IsOpen(s.conns[c])
    ensures AtStage(StatusOf(s, c), Live)
  {
    assert Fine(StatusOf(s, c));
  }

  function ClosedStage(l: LoopId): Stage { if l == BASE then ToDestroy else ToErase }

  function HungStage(l: LoopId): Stage { if l == BASE then Gone else ToDrop }

  lemma CloseOnBase(s: Server, c: ConnId)
    requires Sound(s) && c in s.connections && s.homes[c] == BASE
    ensures var s' := RemoveNow(s, c);
            && Sound(s') && Same(s, s', c) && Quiet(s, s')
            && var st := StatusOf(s, c);
               StatusOf(s', c) == st.(mapped := false, rec := st.rec.(erasures := st.rec.erasures + 1),
                                      destroys := st.destroys + 1)
  {
    EraseFinds(s, c);
    QueueTask(EraseNow(s, c), BASE, Destroyed(c));
  }

  /** `s` is the state in which the connection has just been shut. */
  lemma ReportSound(s: Server, c: ConnId)
    requires Sound(s) && c in s.conns && AtStage(StatusOf(s, c).(removes := 1), ToErase) && StatusOf(s, c).removes == 0
    ensures var s' := ReportClose(s, c);
            Sound(s') && Same(s, s', c) && Quiet(s, s') && AtStage(StatusOf(s', c), ClosedStage(s.homes[c]))
  {
    if s.homes[c] == BASE {
      CloseOnBase(s, c);
    } else {
      QueueTask(s, BASE, RemoveInLoop(c));
    }
  }

  lemma CloseSound(s: Server, c: ConnId)
    requires Sound(s) && c in s.conns && AtStage(StatusOf(s, c), Live)
    ensures var s' := CloseNow(s, c);
            Sound(s') && Same(s, s', c) && Quiet(s, s') && AtStage(StatusOf(s', c), ClosedStage(s.homes[c]))
  {
    var s1 := Shut(s, c);
    SetConn(s, c, s1.conns[c]);
    ReportSound(s1, c);
    assert CloseNow(s, c) == ReportClose(s1, c);
    SameTrans(s, s1, ReportClose(s1, c), c);
  }

  lemma HangUpSound(s: Server, c: ConnId)
    requires Sound(s) && c in s.conns && AtStage(StatusOf(s, c), Live)
    ensures var s' := HangUp(s, c);
            Sound(s') && Same(s, s', c) && Quiet(s, s') && AtStage(StatusOf(s', c), HungStage(s.homes[c]))
  {
    var s1 := DestroyNow(s, c);
    SetConn(s, c, s1.conns[c]);
    DropSound(s1, c);
    SameTrans(s, s1, HangUp(s, c), c);
  }

  /** `s` is the state in which the connection has just been destroyed. */
  lemma DropSound(s: Server, c: ConnId)
    requires Sound(s) && c in s.conns && StatusOf(s, c).drops == 0 && AtStage(StatusOf(s, c).(drops := 1), ToDrop)
    ensures var s' := if s.homes[c] == BASE then EraseNow(s, c) else Enqueue(s, BASE, RemoveFromMap(c));
            Sound(s') && Same(s, s', c) && Quiet(s, s') && AtStage(StatusOf(s', c), HungStage(s.homes[c]))
  {
    if s.homes[c] == BASE { EraseFinds(s, c); } else { QueueTask(s, BASE, RemoveFromMap(c)); }
  }

  /** The stage before and after a functor of the chain. */
  function StageBefore(t: Task): Stage
    requires !t.CloseInLoop?
  {
    match t case RemoveInLoop(_) => ToErase case Destroyed(_) => ToDestroy case RemoveFromMap(_) => ToDrop
  }

  function StageAfter(t: Task): Stage
    requires !t.CloseInLoop?
  {
    if t.RemoveInLoop? then ToDestroy else Gone
  }

  /** `s` is the state with the functor already taken off its queue. */
  lemma ExecSound(s: Server, t: Task)
    requires Sound(s) && t.conn in s.conns && !t.CloseInLoop?
    requires AtStage(OneMore(StatusOf(s, t.conn), t), StageBefore(t))
    ensures var s' := Exec(s, t);
            Sound(s') && Same(s, s', t.conn) && Quiet(s, s') && AtStage(StatusOf(s', t.conn), StageAfter(t))
  {
    var c := t.conn;
    match t
    case RemoveInLoop(_) =>
      EraseFinds(s, c);
      QueueTask(EraseNow(s, c), s.homes[c], Destroyed(c));
    case RemoveFromMap(_) => EraseFinds(s, c);
    case Destroyed(_) => SetConn(s, c, DestroyNow(s, c).conns[c]);
  }

  lemma ExecClose(s: Server, c: ConnId)
    requires CoreInv(s) && c in s.conns
    ensures var s' := Exec(s, CloseInLoop(c));
            && Sound(s') && Same(s, s', c) && Quiet(s, s') && Fine(StatusOf(s', c))
            && s'.conns[c].registered == s.conns[c].registered
  {
    if s.conns[c].state == Connected {
      OpenIsLive(s, c);
      if s.conns[c].writing {
        SetConn(s, c, s.conns[c].(state := Disconnecting));
      } else {
        CloseSound(s, c);
        StageKnown(CloseNow(s, c), c, ClosedStage(s.homes[c]));
      }
    }
  }

  lemma StageKnown(s: Server, c: ConnId, stage: Stage)
    requires Shape(s) && c in s.conns && AtStage(StatusOf(s, c), stage)
    ensures Fine(StatusOf(s, c))
    ensures s.conns[c].registered <==> stage == Live || stage == ToErase || stage == ToDestroy
  {
    var st := StatusOf(s, c);
    assert st.rec == s.conns[c];
  }

  /** A functor of the chain under way fixes the stage. */
  lemma ChainStage(st: Status, t: Task)
    requires Fine(OneMore(st, t)) && !t.CloseInLoop?
    ensures AtStage(OneMore(st, t), StageBefore(t))
  {
  }

  lemma AllSame(s: Server, s': Server)
    requires CoreInv(s) && Sound(s') && s'.homes == s.homes
    requires forall x | x in s.conns :: StatusOf(s', x) == StatusOf(s, x)
    ensures CoreInv(s')
  {
    forall x | x in s'.conns ensures Fine(StatusOf(s', x)) { assert StatusOf(s', x) == StatusOf(s, x); }
  }

  lemma SameTrans(a: Server, b: Server, d: Server, c: ConnId)
    requires Shape(a) && Shape(b) && Shape(d) && Same(a, b, c) && Same(b, d, c) && Quiet(a, b) && Quiet(b, d)
    ensures Same(a, d, c) && Quiet(a, d)
  {
  }

  /** Running the next functor of a loop keeps the invariant; a functor of the chain
      moves its connection exactly one stage on. */
  lemma ExecStage(s: Server, l: LoopId)
    requires CoreInv(s) && l < |s.queues| && !s.queues[l].Empty()
    ensures var t := s.queues[l].Head();
            && t.conn in s.conns && Home(s.homes, t) == l
            && var s' := Exec(Pop(s, l), t);
            && CoreInv(s') && Same(s, s', t.conn) && Quiet(s, s')
            && (if t.CloseInLoop? then s'.conns[t.conn].registered == s.conns[t.conn].registered
                else AtStage(StatusOf(s, t.conn), StageBefore(t)) && AtStage(StatusOf(s', t.conn), StageAfter(t)))
  {
    var t, s1 := s.queues[l].Head(), Pop(s, l);
    PopTask(s, l);
    if t.CloseInLoop? {
      AllSame(s, s1);
      ExecClose(s1, t.conn);
    } else {
      assert Fine(StatusOf(s, t.conn));
      ChainStage(StatusOf(s1, t.conn), t);
      ExecSound(s1, t);
    }
    ExecEnds(s, s1, Exec(s1, t), t);
  }

  lemma ExecEnds(s: Server, s1: Server, s': Server, t: Task)
    requires CoreInv(s) && Sound(s1) && Sound(s') && t.conn in s.conns
    requires Same(s, s1, t.conn) && Same(s1, s', t.conn) && Quiet(s, s1) && Quiet(s1, s')
    requires Fine(StatusOf(s', t.conn)) || (!t.CloseInLoop? && AtStage(StatusOf(s', t.conn), StageAfter(t)))
    ensures CoreInv(s') && Same(s, s', t.conn) && Quiet(s, s')
  {
    SameTrans(s, s1, s', t.conn);
    forall x | x in s'.conns ensures Fine(StatusOf(s', x)) {
      if x != t.conn { assert StatusOf(s', x) == StatusOf(s, x); }
    }
  }

  // ------------------------------------------------------------------ the system

  datatype Event =
    | Accept(loop: LoopId)                       // newConnetion, with connectionEstablish
    | Backlog(conn: ConnId, waiting: bool)       // the output buffer fills or drains while connected
    | AskClose(conn: ConnId)                     // closeConnection
    | Poll(loop: LoopId, ready: set<ConnId>)
    | Begin(loop: LoopId, conn: ConnId)          // handleEvent takes the guard
    | PeerGone(loop: LoopId)                     // handleRead reads 0 bytes
    | Drained(loop: LoopId)                      // handleWrite writes the last byte
    | HungUp(loop: LoopId)                       // EPOLLHUP
    | End(loop: LoopId)                          // the guard is dropped
    | StartBatch(loop: LoopId)
    | RunTask(loop: LoopId)
    | EndBatch(loop: LoopId)

  predicate Handling(s: Server, l: LoopId) {
    l < |s.posts| && s.posts[l].guard.Some? && s.posts[l].guard.value in s.conns
  }

  predicate Possible(s: Server, e: Event) {
    Shape(s) && !s.failed &&
    match e
    case Accept(l) => l < |s.queues| && s.nextId !in s.conns
    case Backlog(c, _) => c in s.conns && s.conns[c].state == Connected
    case AskClose(c) => c in s.conns && s.conns[c].state == Connected
    case Poll(l, ready) =>
      && l < |s.posts| && s.posts[l].phase == Idle
      && (forall c | c in ready :: c in s.conns && s.homes[c] == l && s.conns[c].registered)
    case Begin(l, c) =>
      l < |s.posts| && s.posts[l].phase == Dispatching && s.posts[l].guard == None && c in s.posts[l].active
    case PeerGone(l) => Handling(s, l)
    case Drained(l) => Handling(s, l) && s.conns[s.posts[l].guard.value].writing
    case HungUp(l) => Handling(s, l) && s.conns[s.posts[l].guard.value].registered
    case End(l) => l < |s.posts| && s.posts[l].guard.Some?
    case StartBatch(l) =>
      l < |s.posts| && s.posts[l] == Post(Dispatching, {}, None) && s.queues[l].toRun == []
    case RunTask(l) =>
      && l < |s.posts| && s.posts[l].phase == Running && s.queues[l].toRun != []
      && s.queues[l].toRun[0].conn in s.conns
    case EndBatch(l) => l < |s.posts| && s.posts[l].phase == Running && s.queues[l].toRun == []
  }

  /** A hang-up is delivered only while the connection is open. */
  predicate HupInTime(s: Server, e: Event)
    requires Possible(s, e)
  {
    e.HungUp? ==> IsOpen(s.conns[s.posts[e.loop].guard.value])
  }

  const NEW_CONN_REC := ConnRec(Connected, true, false, 0, 0)

  function Accepted(s: Server, l: LoopId): Server {
    s.(homes := s.homes[s.nextId := l], conns := s.conns[s.nextId := NEW_CONN_REC],
       connections := s.connections + {s.nextId}, nextId := s.nextId + 1)
  }

  function SetWriting(s: Server, c: ConnId, on: bool): Server
    requires c in s.conns
  {
    s.(conns := s.conns[c := s.conns[c].(writing := on)])
  }

  function SetPost(s: Server, l: LoopId, p: Post): Server
    requires l < |s.posts|
  {
    s.(posts := s.posts[l := p])
  }

  /** `handleWrite` when the last byte goes out. */
  function DrainNow(s: Server, c: ConnId): Server
    requires Shape(s) && c in s.conns
  {
    if s.conns[c].state == Disconnecting then CloseNow(SetWriting(s, c, false), c) else SetWriting(s, c, false)
  }

  function Step(s: Server, e: Event): Server
    requires Possible(s, e)
  {
    match e
    case Accept(l) => Accepted(s, l)
    case Backlog(c, waiting) => SetWriting(s, c, waiting)
    case AskClose(c) => Enqueue(s, s.homes[c], CloseInLoop(c))
    case Poll(l, ready) => SetPost(s, l, Post(Dispatching, ready, None))
    case Begin(l, c) => SetPost(s, l, Post(Dispatching, s.posts[l].active - {c}, Some(c)))
    case PeerGone(l) => CloseNow(s, s.posts[l].guard.value)
    case Drained(l) => DrainNow(s, s.posts[l].guard.value)
    case HungUp(l) => HangUp(s, s.posts[l].guard.value)
    case End(l) => SetPost(s, l, s.posts[l].(guard := None))
    case StartBatch(l) =>
      SetPost(s.(queues := s.queues[l := Queue(s.queues[l].pending, [])]), l, Post(Running, {}, None))
    case RunTask(l) => Exec(Pop(s, l), s.queues[l].toRun[0])
    case EndBatch(l) => SetPost(s, l, Post(Idle, {}, None))
  }

  /** Channels waiting to be handled are in epoll; handlers and functors take turns. */
  predicate PostOk(s: Server, l: LoopId)
    requires Shape(s) && l < |s.posts|
  {
    var p := s.posts[l];
    && (p.phase != Dispatching ==> p.active == {} && p.guard == None)
    && (s.queues[l].toRun != [] ==> p.phase == Running)
    && (forall c | c in p.active :: c in s.conns && s.homes[c] == l && s.conns[c].registered)
    && (p.guard.Some? ==> p.guard.value in s.conns && s.homes[p.guard.value] == l && p.guard.value !in p.active)
  }

  predicate PostInv(s: Server)
    requires Shape(s)
  {
    forall l | 0 <= l < |s.posts| :: PostOk(s, l)
  }

  predicate Inv(s: Server) {
    CoreInv(s) && PostInv(s)
  }

  // ------------------------------------------------------------ every step keeps

  /** An operation on `c` that leaves the dispatch side alone. */
  lemma PostsKept(s: Server, s': Server, c: ConnId)
    requires Shape(s) && Shape(s') && PostInv(s) && c in s.conns && Same(s, s', c) && Quiet(s, s')
    requires s'.conns[c].registered || !s.conns[c].registered || c !in s.posts[s.homes[c]].active
    ensures PostInv(s')
  {
    forall l | 0 <= l < |s'.posts| ensures PostOk(s', l) {
      assert PostOk(s, l);
      forall x | x in s.posts[l].active ensures x in s'.conns && s'.homes[x] == l && s'.conns[x].registered {
        if x != c { assert StatusOf(s', x) == StatusOf(s, x); }
      }
    }
  }

  /** The common end of the operations: `c` has reached some stage. */
  lemma OpKeeps(s: Server, s': Server, c: ConnId, stage: Stage)
    requires Inv(s) && c in s.conns && Sound(s') && Same(s, s', c) && Quiet(s, s') && AtStage(StatusOf(s', c), stage)
    requires stage == Live || stage == ToErase || stage == ToDestroy || c !in s.posts[s.homes[c]].active
    ensures Inv(s')
  {
    BackToInv(s, s', c, stage);
    assert StatusOf(s', c).rec == s'.conns[c];
    PostsKept(s, s', c);
  }

  lemma CloseKeeps(s: Server, c: ConnId)
    requires Inv(s) && c in s.conns
    ensures Inv(CloseNow(s, c))
  {
    if IsOpen(s.conns[c]) {
      OpenIsLive(s, c);
      CloseSound(s, c);
      OpKeeps(s, CloseNow(s, c), c, ClosedStage(s.homes[c]));
    }
  }

  lemma SetWritingKeeps(s: Server, c: ConnId, on: bool)
    requires Inv(s) && c in s.conns && IsOpen(s.conns[c])
    ensures Inv(SetWriting(s, c, on))
  {
    OpenIsLive(s, c);
    SetConn(s, c, s.conns[c].(writing := on));
    OpKeeps(s, SetWriting(s, c, on), c, Live);
  }

  lemma HangUpKeeps(s: Server, l: LoopId)
    requires Inv(s) && Handling(s, l) && IsOpen(s.conns[s.posts[l].guard.value])
    ensures Inv(HangUp(s, s.posts[l].guard.value))
  {
    var c := s.posts[l].guard.value;
    OpenIsLive(s, c);
    HangUpSound(s, c);
    assert PostOk(s, l);
    OpKeeps(s, HangUp(s, c), c, HungStage(s.homes[c]));
  }

  lemma AskedAtStage(s: Server, c: ConnId, l: LoopId, stage: Stage)
    requires Sound(s) && c in s.conns && s.homes[c] == l && AtStage(StatusOf(s, c), stage)
    ensures var s' := Enqueue(s, l, CloseInLoop(c));
            Sound(s') && Same(s, s', c) && Quiet(s, s') && AtStage(StatusOf(s', c), stage)
  {
    QueueTask(s, l, CloseInLoop(c));
  }

  lemma AskKeeps(s: Server, c: ConnId)
    requires Inv(s) && c in s.conns && IsOpen(s.conns[c])
    ensures Inv(Enqueue(s, s.homes[c], CloseInLoop(c)))
  {
    OpenIsLive(s, c);
    AskedAtStage(s, c, s.homes[c], Live);
    OpKeeps(s, Enqueue(s, s.homes[c], CloseInLoop(c)), c, Live);
  }

  lemma SetPostKeeps(s: Server, l: LoopId, p: Post)
    requires Inv(s) && l < |s.posts|
    requires PostOk(SetPost(s, l, p), l)
    ensures Inv(SetPost(s, l, p))
  {
    var s' := SetPost(s, l, p);
    forall x | x in s'.conns ensures Fine(StatusOf(s', x)) { assert StatusOf(s', x) == StatusOf(s, x); }
    forall k | 0 <= k < |s'.posts| ensures PostOk(s', k) { assert k != l ==> PostOk(s, k); }
  }

  // accepting

  lemma MoreHomes(homes: map<ConnId, LoopId>, queues: seq<Queue>, n: ConnId, l: LoopId)
    requires AllHome(homes, queues) && n !in homes
    ensures AllHome(homes[n := l], queues)
  {
    forall k | 0 <= k < |queues|
      ensures AtHome(homes[n := l], k, queues[k].toRun) && AtHome(homes[n := l], k, queues[k].pending)
    {
      assert AtHome(homes, k, queues[k].toRun) && AtHome(homes, k, queues[k].pending);
    }
  }

  /** No functor belongs to a connection that does not exist yet. */
  lemma NothingQueued(homes: map<ConnId, LoopId>, queues: seq<Queue>, k: LoopId, t: Task)
    requires AllHome(homes, queues) && t.conn !in homes && k < |queues|
    ensures CntIn(queues[k], t) == 0
  {
    assert AtHome(homes, k, queues[k].toRun) && AtHome(homes, k, queues[k].pending);
    assert t !in queues[k].toRun && t !in queues[k].pending;
  }

  lemma AcceptStatus(s: Server, l: LoopId, x: ConnId)
    requires Sound(s) && l < |s.queues| && x in s.conns
    ensures StatusOf(Accepted(s, l), x) == StatusOf(s, x)
  {
  }

  lemma AcceptNew(s: Server, l: LoopId)
    requires Sound(s) && l < |s.queues|
    ensures Sound(Accepted(s, l)) && StatusOf(Accepted(s, l), s.nextId) == Status(NEW_CONN_REC, true, 0, 0, 0)
  {
    var n := s.nextId;
    assert n !in s.conns;
    MoreHomes(s.homes, s.queues, n, l);
    NothingQueued(s.homes, s.queues, BASE, RemoveInLoop(n));
    NothingQueued(s.homes, s.queues, BASE, RemoveFromMap(n));
    NothingQueued(s.homes, s.queues, l, Destroyed(n));
  }

  lemma AcceptCore(s: Server, l: LoopId)
    requires CoreInv(s) && l < |s.queues|
    ensures CoreInv(Accepted(s, l))
  {
    var s' := Accepted(s, l);
    AcceptNew(s, l);
    forall x | x in s'.conns ensures Fine(StatusOf(s', x)) {
      if x != s.nextId {
        AcceptStatus(s, l, x);
      } else {
        assert AtStage(StatusOf(s', x), Live);
      }
    }
  }

  lemma AcceptKeeps(s: Server, l: LoopId)
    requires Inv(s) && l < |s.queues|
    ensures Inv(Accepted(s, l))
  {
    AcceptCore(s, l);
    AcceptPosts(s, l);
  }

  lemma AcceptPosts(s: Server, l: LoopId)
    requires Shape(s) && PostInv(s) && s.nextId !in s.conns && l < |s.queues|
    ensures Shape(Accepted(s, l)) && PostInv(Accepted(s, l))
  {
    var s' := Accepted(s, l);
    forall k | 0 <= k < |s'.posts| ensures PostOk(s', k) { assert PostOk(s, k); }
  }

  // batches

  lemma SwapQueue(homes: map<ConnId, LoopId>, queues: seq<Queue>, l: LoopId)
    requires Placed(homes, queues) && AllHome(homes, queues) && l < |queues| && queues[l].toRun == []
    ensures var queues' := queues[l := Queue(queues[l].pending, [])];
            && AllHome(homes, queues')
            && (forall u: Task | u.conn in homes :: Cnt(homes, queues', u) == Cnt(homes, queues, u))
  {
    assert AtHome(homes, l, queues[l].toRun) && AtHome(homes, l, queues[l].pending);
  }

  lemma SwapStatus(s: Server, l: LoopId, x: ConnId)
    requires Sound(s) && l < |s.queues| && s.queues[l].toRun == [] && x in s.conns
    ensures var s' := s.(queues := s.queues[l := Queue(s.queues[l].pending, [])]);
            Sound(s') && StatusOf(s', x) == StatusOf(s, x)
  {
    SwapQueue(s.homes, s.queues, l);
  }

  lemma SwapCore(s: Server, l: LoopId)
    requires CoreInv(s) && l < |s.queues| && s.queues[l].toRun == []
    ensures CoreInv(s.(queues := s.queues[l := Queue(s.queues[l].pending, [])]))
  {
    var s' := s.(queues := s.queues[l := Queue(s.queues[l].pending, [])]);
    SwapQueue(s.homes, s.queues, l);
    forall x | x in s.conns ensures StatusOf(s', x) == StatusOf(s, x) { SwapStatus(s, l, x); }
    AllSame(s, s');
  }

  lemma StartBatchKeeps(s: Server, l: LoopId)
    requires Inv(s) && Possible(s, StartBatch(l))
    ensures Inv(Step(s, StartBatch(l)))
  {
    var s1 := s.(queues := s.queues[l := Queue(s.queues[l].pending, [])]);
    SwapCore(s, l);
    SetPostCore(s1, l, Post(Running, {}, None));
    StartBatchPosts(s, l);
  }

  lemma SetPostCore(s: Server, l: LoopId, p: Post)
    requires CoreInv(s) && l < |s.posts|
    ensures CoreInv(SetPost(s, l, p))
  {
    var s' := SetPost(s, l, p);
    forall x | x in s.conns ensures StatusOf(s', x) == StatusOf(s, x) {}
    AllSame(s, s');
  }

  lemma StartBatchPosts(s: Server, l: LoopId)
    requires Possible(s, StartBatch(l)) && PostInv(s)
    ensures Shape(Step(s, StartBatch(l))) && PostInv(Step(s, StartBatch(l)))
  {
    var s' := Step(s, StartBatch(l));
    forall k | 0 <= k < |s'.posts| ensures PostOk(s', k) { assert PostOk(s, k); }
  }

  lemma RunTaskKeeps(s: Server, l: LoopId)
    requires Inv(s) && Possible(s, RunTask(l))
    ensures Inv(Step(s, RunTask(l)))
  {
    var t := s.queues[l].toRun[0];
    var s' := Exec(Pop(s, l), t);
    ExecStage(s, l);
    if !t.CloseInLoop? {
      StageKnown(s, t.conn, StageBefore(t));
      StageKnown(s', t.conn, StageAfter(t));
    }
    RunTaskPosts(s, s', t.conn, l);
  }

  /** A running loop has no channels left to handle. */
  lemma RunTaskPosts(s: Server, s': Server, c: ConnId, l: LoopId)
    requires Shape(s) && Shape(s') && PostInv(s) && c in s.conns && Same(s, s', c) && Quiet(s, s')
    requires l < |s.posts| && s.posts[l].phase == Running
    requires s'.conns[c].registered || !s.conns[c].registered || s.homes[c] == l
    ensures PostInv(s')
  {
    assert PostOk(s, l);
    assert s.posts[l].active == {};
    PostsKept(s, s', c);
  }

  lemma WritingIsOpen(st: Status)
    requires Fine(st) && st.rec.writing
    ensures IsOpen(st.rec)
  {
  }

  lemma DrainKeeps(s: Server, c: ConnId)
    requires Inv(s) && c in s.conns && s.conns[c].writing
    ensures Inv(DrainNow(s, c))
  {
    var st := StatusOf(s, c);
    assert Fine(st) && st.rec == s.conns[c];
    WritingIsOpen(st);
    SetWritingKeeps(s, c, false);
    if s.conns[c].state == Disconnecting { CloseKeeps(SetWriting(s, c, false), c); }
  }

  lemma PostStepKeeps(s: Server, e: Event)
    requires Inv(s) && Possible(s, e) && (e.Poll? || e.Begin? || e.End? || e.EndBatch?)
    ensures Inv(Step(s, e))
  {
    assert PostOk(s, e.loop);
    match e
    case Poll(l, ready) => SetPostKeeps(s, l, Post(Dispatching, ready, None));
    case Begin(l, c) => SetPostKeeps(s, l, Post(Dispatching, s.posts[l].active - {c}, Some(c)));
    case End(l) => SetPostKeeps(s, l, s.posts[l].(guard := None));
    case EndBatch(l) => SetPostKeeps(s, l, Post(Idle, {}, None));
  }

  lemma StepKeeps(s: Server, e: Event)
    requires Inv(s) && Possible(s, e) && HupInTime(s, e)
    ensures Inv(Step(s, e))
  {
    match e
    case Accept(l) => AcceptKeeps(s, l);
    case Backlog(c, waiting) => SetWritingKeeps(s, c, waiting);
    case AskClose(c) => AskKeeps(s, c);
    case PeerGone(l) => CloseKeeps(s, s.posts[l].guard.value);
    case Drained(l) => DrainKeeps(s, s.posts[l].guard.value);
    case HungUp(l) => HangUpKeeps(s, l);
    case StartBatch(l) => StartBatchKeeps(s, l);
    case RunTask(l) => RunTaskKeeps(s, l);
    case _ => PostStepKeeps(s, e);
  }

  function NewServer(loops: nat): Server
    requires loops > 0
  {
    Server(map[], map[], {}, seq(loops, _ => Queue([], [])), seq(loops, _ => Post(Idle, {}, None)), 0, false)
  }

  predicate PossibleRun(s: Server, run: seq<Event>)
    decreases |run|
  {
    run == [] || (Possible(s, run[0]) && PossibleRun(Step(s, run[0]), run[1..]))
  }

  function After(s: Server, run: seq<Event>): Server
    requires PossibleRun(s, run)
    decreases |run|
  {
    if run == [] then s else After(Step(s, run[0]), run[1..])
  }

  predicate HupsInTime(s: Server, run: seq<Event>)
    requires PossibleRun(s, run)
    decreases |run|
  {
    run == [] || (HupInTime(s, run[0]) && HupsInTime(Step(s, run[0]), run[1..]))
  }

  lemma {:induction false} RunKeeps(s: Server, run: seq<Event>)
    requires Inv(s) && PossibleRun(s, run) && HupsInTime(s, run)
    ensures Inv(After(s, run))
    decreases |run|
  {
    if run != [] {
      StepKeeps(s, run[0]);
      RunKeeps(Step(s, run[0]), run[1..]);
    }
  }

  /** Erased and destroyed at most once, and at exactly one stage. */
  ghost predicate OneStage(st: Status) {
    && st.rec.erasures <= 1 && st.rec.destroyedRuns <= 1
    && (exists stage :: AtStage(st, stage) && (stage == Live <==> IsOpen(st.rec)))
    && (forall a, b :: AtStage(st, a) && AtStage(st, b) ==> a == b)
  }

  lemma FineIsOneStage(st: Status)
    requires Fine(st)
    ensures OneStage(st)
  {
    var stage := if AtStage(st, Live) then Live else if AtStage(st, ToErase) then ToErase
                 else if AtStage(st, ToDestroy) then ToDestroy else if AtStage(st, ToDrop) then ToDrop else Gone;
    assert AtStage(st, stage);
  }

  /** Over every run, with any number of connections and loops, whose hang-ups come
      in time: no assert fails; a connection is erased and destroyed at most once;
      and every disconnected one is at exactly one stage of its removal. */
  lemma LifecycleSafe(loops: nat, run: seq<Event>)
    requires loops > 0 && PossibleRun(NewServer(loops), run) && HupsInTime(NewServer(loops), run)
    ensures var s := After(NewServer(loops), run);
            !s.failed && Shape(s) && forall c | c in s.conns :: OneStage(StatusOf(s, c))
  {
    RunKeeps(NewServer(loops), run);
    var s := After(NewServer(loops), run);
    forall c | c in s.conns ensures OneStage(StatusOf(s, c)) { FineIsOneStage(StatusOf(s, c)); }
  }

  // ------------------------------------------------------------- no dangling

  /** Somebody owns the connection: the map, a queued functor, or the dispatch guard. */
  ghost predicate StronglyHeld(s: Server, c: ConnId) {
    || c in s.connections
    || (exists l, t: Task | 0 <= l < |s.queues| && t in s.queues[l].toRun + s.queues[l].pending :: t.conn == c)
    || (exists l | 0 <= l < |s.posts| :: s.posts[l].guard == Some(c))
  }

  lemma CountedIsHeld(s: Server, t: Task)
    requires Shape(s) && t.conn in s.conns && Cnt(s.homes, s.queues, t) > 0
    ensures StronglyHeld(s, t.conn)
  {
    var l := Home(s.homes, t);
    assert t in s.queues[l].toRun || t in s.queues[l].pending;
    assert t in s.queues[l].toRun + s.queues[l].pending;
  }

  lemma OwnedWhileRegistered(st: Status)
    requires Fine(st) && st.rec.registered
    ensures st.mapped || st.destroys > 0
  {
  }

  lemma RegisteredIsHeld(s: Server, c: ConnId)
    requires CoreInv(s) && c in s.conns && s.conns[c].registered
    ensures StronglyHeld(s, c)
  {
    var st := StatusOf(s, c);
    assert Fine(st) && st.rec == s.conns[c];
    OwnedWhileRegistered(st);
    if !st.mapped { CountedIsHeld(s, Destroyed(c)); }
  }

  lemma ActiveIsHeld(s: Server, l: LoopId, c: ConnId)
    requires Inv(s) && l < |s.posts| && c in s.posts[l].active
    ensures StronglyHeld(s, c)
  {
    assert PostOk(s, l);
    RegisteredIsHeld(s, c);
  }

  /** No channel in epoll, nor any still to be handled from the last poll, belongs to
      a connection that could have been deleted; so the guard is always obtained. */
  lemma NoDanglingChannel(s: Server)
    requires Inv(s)
    ensures forall c | c in s.conns && s.conns[c].registered :: StronglyHeld(s, c)
    ensures forall l, c | 0 <= l < |s.posts| && c in s.posts[l].active :: StronglyHeld(s, c)
  {
    forall c | c in s.conns && s.conns[c].registered ensures StronglyHeld(s, c) { RegisteredIsHeld(s, c); }
    forall l, c | 0 <= l < |s.posts| && c in s.posts[l].active ensures StronglyHeld(s, c) { ActiveIsHeld(s, l, c); }
  }

  /** The same in every state of every run whose hang-ups come in time. */
  lemma NoDanglingOverRuns(loops: nat, run: seq<Event>)
    requires loops > 0 && PossibleRun(NewServer(loops), run) && HupsInTime(NewServer(loops), run)
    ensures var s := After(NewServer(loops), run);
            && (forall c | c in s.conns && s.conns[c].registered :: StronglyHeld(s, c))
            && (forall l, c | 0 <= l < |s.posts| && c in s.posts[l].active :: StronglyHeld(s, c))
  {
    RunKeeps(NewServer(loops), run);
    NoDanglingChannel(After(NewServer(loops), run));
  }

  // ------------------------------------------------------------- only forward

  predicate Forward(s: Server, s': Server) {
    forall x | x in s.conns :: x in s'.conns && Rank(s.conns[x].state) <= Rank(s'.conns[x].state)
  }

  lemma ReportForward(s: Server, c: ConnId)
    requires Shape(s) && c in s.conns
    ensures forall x | x in s.conns ::
              x in ReportClose(s, c).conns && ReportClose(s, c).conns[x].state == s.conns[x].state
  {
  }

  lemma CloseForward(s: Server, c: ConnId)
    requires Shape(s) && c in s.conns
    ensures Forward(s, CloseNow(s, c))
  {
    if IsOpen(s.conns[c]) { ReportForward(Shut(s, c), c); }
  }

  lemma ExecForward(s: Server, t: Task)
    requires Shape(s) && t.conn in s.conns
    ensures Forward(s, Exec(s, t))
  {
    if t.CloseInLoop? { CloseForward(s, t.conn); }
  }

  lemma StepForward(s: Server, e: Event)
    requires Possible(s, e)
    ensures Forward(s, Step(s, e))
  {
    match e
    case PeerGone(l) => CloseForward(s, s.posts[l].guard.value);
    case Drained(l) =>
      var c := s.posts[l].guard.value;
      CloseForward(SetWriting(s, c, false), c);
    case RunTask(l) => ExecForward(Pop(s, l), s.queues[l].toRun[0]);
    case _ =>
  }

  /** A connection's state only moves forward over any run. */
  lemma {:induction false} RunForward(s: Server, run: seq<Event>)
    requires PossibleRun(s, run)
    ensures Forward(s, After(s, run))
    decreases |run|
  {
    if run != [] {
      StepForward(s, run[0]);
      RunForward(Step(s, run[0]), run[1..]);
    }
  }

  // ------------------------------------------------------------ late hang-ups

  function Flat(q: Queue): seq<Task> { q.toRun + q.pending }

  predicate AllKnown(s: Server, l: LoopId)
    requires l < |s.queues|
  {
    forall i | 0 <= i < |Flat(s.queues[l])| :: Flat(s.queues[l])[i].conn in s.conns
  }

  predicate HasNext(s: Server)
    requires Shape(s)
  {
    !s.queues[BASE].Empty() && s.queues[BASE].Head().conn in s.conns
  }

  function RunNext(s: Server): (s': Server)
    requires Shape(s) && HasNext(s)
    ensures Shape(s')
  {
    ExecShape(Pop(s, BASE), s.queues[BASE].Head());
    Exec(Pop(s, BASE), s.queues[BASE].Head())
  }

  /** The base loop runs its next `k` functors, until an assert fails. */
  function DrainBase(s: Server, k: nat): Server
    requires Shape(s)
    decreases k
  {
    if k == 0 || s.failed || !HasNext(s) then s else DrainBase(RunNext(s), k - 1)
  }

  lemma ExecShape(s: Server, t: Task)
    requires Shape(s) && t.conn in s.conns
    ensures var s' := Exec(s, t); Shape(s') && s'.conns.Keys == s.conns.Keys && |s'.queues| == |s.queues|
  {
  }

  lemma NextKeeps(s: Server)
    requires CoreInv(s) && HasNext(s)
    ensures CoreInv(RunNext(s))
  {
    ExecStage(s, BASE);
  }

  /** What every functor keeps, the whole drain keeps. */
  lemma {:induction false} DrainKeepsAll(keeps: Server -> bool, s: Server, k: nat)
    requires Shape(s) && keeps(s)
    requires forall x | Shape(x) && keeps(x) && HasNext(x) :: keeps(RunNext(x))
    ensures keeps(DrainBase(s, k))
    decreases k
  {
    if k > 0 && !s.failed && HasNext(s) { DrainKeepsAll(keeps, RunNext(s), k - 1); }
  }

  lemma HealthyDrains(s: Server, k: nat)
    requires CoreInv(s)
    ensures !DrainBase(s, k).failed
  {
    forall x | Shape(x) && CoreInv(x) && HasNext(x) ensures CoreInv(RunNext(x)) { NextKeeps(x); }
    DrainKeepsAll(CoreInv, s, k);
    var s' := DrainBase(s, k);
    assert CoreInv(s');
  }

  /** Lookups of `c` among the functors. */
  function Lookups(tasks: seq<Task>, c: ConnId): nat {
    if tasks == [] then 0
    else (if tasks[0] == RemoveInLoop(c) || tasks[0] == RemoveFromMap(c) then 1 else 0) + Lookups(tasks[1..], c)
  }

  lemma {:induction false} LookupsAppend(a: seq<Task>, b: seq<Task>, c: ConnId)
    ensures Lookups(a + b, c) == Lookups(a, c) + Lookups(b, c)
  {
    if a == [] { assert a + b == b; } else { assert (a + b)[1..] == a[1..] + b; LookupsAppend(a[1..], b, c); }
  }

  lemma {:induction false} LookupsCount(a: seq<Task>, c: ConnId)
    ensures Lookups(a, c) == multiset(a)[RemoveInLoop(c)] + multiset(a)[RemoveFromMap(c)]
  {
    if a != [] {
      assert a == [a[0]] + a[1..];
      LookupsCount(a[1..], c);
    }
  }

  /** More lookups of `c` are to come than the map has entries for it. */
  predicate Doomed(s: Server, c: ConnId, k: nat)
    requires Shape(s)
  {
    && c in s.conns && s.conns[c].state == Disconnected
    && k <= |Flat(s.queues[BASE])| && AllKnown(s, BASE)
    && Lookups(Flat(s.queues[BASE])[..k], c) > (if c in s.connections then 1 else 0)
  }

  /** Running a functor only queues behind, and touches the map for its own
      connection only. */
  lemma ExecQueues(s: Server, t: Task, c: ConnId)
    requires Shape(s) && t.conn in s.conns && c in s.conns && s.conns[c].state == Disconnected
    ensures var s' := Exec(s, t);
            && s'.conns[c].state == Disconnected
            && Flat(s.queues[BASE]) <= Flat(s'.queues[BASE])
            && (forall i | |Flat(s.queues[BASE])| <= i < |Flat(s'.queues[BASE])| ::
                  Flat(s'.queues[BASE])[i].conn == t.conn)
            && (t.conn != c || t.CloseInLoop? || t.Destroyed? ==> (c in s'.connections <==> c in s.connections))
  {
    match t
    case CloseInLoop(d) => ReportQueues(Shut(s, d), d);
    case RemoveInLoop(d) => RemoveQueues(s, d);
    case _ =>
  }

  lemma RemoveQueues(s: Server, d: ConnId)
    requires Shape(s) && d in s.conns
    ensures var f, f' := Flat(s.queues[BASE]), Flat(RemoveNow(s, d).queues[BASE]);
            f' == f || f' == f + [Destroyed(d)]
  {
  }

  lemma ReportQueues(s: Server, d: ConnId)
    requires Shape(s) && d in s.conns
    ensures var f, f' := Flat(s.queues[BASE]), Flat(ReportClose(s, d).queues[BASE]);
            f' == f || f' == f + [Destroyed(d)] || f' == f + [RemoveInLoop(d)]
  {
  }

  lemma PopFlat(q: Queue)
    requires !q.Empty()
    ensures Flat(q) == [q.Head()] + Flat(q.Tail())
  {
  }

  lemma DoomStep(s: Server, c: ConnId, k: nat)
    requires Shape(s) && !s.failed && k > 0 && Doomed(s, c, k)
    ensures HasNext(s) && (RunNext(s).failed || Doomed(RunNext(s), c, k - 1))
  {
    var q, s1 := s.queues[BASE], Pop(s, BASE);
    var t := q.Head();
    PopFlat(q);
    assert Flat(q)[0] == t;
    var s' := Exec(s1, t);
    ExecShape(s1, t);
    ExecQueues(s1, t, c);
    var before, after := Flat(q), Flat(s'.queues[BASE]);
    assert s1.queues[BASE] == q.Tail();
    assert after[..k - 1] == before[..k][1..];
    assert before[..k][0] == t;
    forall i | 0 <= i < |after| ensures after[i].conn in s'.conns {
      if i < |Flat(q.Tail())| { assert after[i] == before[i + 1]; }
    }
  }

  lemma {:induction false} DoomedDrains(s: Server, c: ConnId, k: nat)
    requires Shape(s) && (s.failed || Doomed(s, c, k))
    ensures DrainBase(s, k).failed
    decreases k
  {
    if !s.failed && k > 0 {
      DoomStep(s, c, k);
      DoomedDrains(RunNext(s), c, k - 1);
    }
  }

  /** How many functors the base loop has waiting. */
  function Waiting(s: Server): nat
    requires Shape(s)
  {
    |Flat(s.queues[BASE])|
  }

  lemma HangUpShape(s: Server, c: ConnId)
    requires Shape(s) && c in s.conns
    ensures Shape(HangUp(s, c))
  {
  }

  /** In every state that runs with timely hang-ups reach: delivering one more
      hang-up and then letting the base loop run what is queued for it trips an
      assert of the map lookup exactly when the connection had already been closed,
      the state guard that `handleHup` lacks. */
  lemma LateHangUpIsFatal(loops: nat, run: seq<Event>, l: LoopId)
    requires loops > 0 && PossibleRun(NewServer(loops), run) && HupsInTime(NewServer(loops), run)
    requires Possible(After(NewServer(loops), run), HungUp(l))
    ensures var s := After(NewServer(loops), run);
            var s' := Step(s, HungUp(l));
            Shape(s') && (DrainBase(s', Waiting(s')).failed <==> !HupInTime(s, HungUp(l)))
  {
    RunKeeps(NewServer(loops), run);
    HangUpDecides(After(NewServer(loops), run), l);
  }

  lemma HangUpDecides(s: Server, l: LoopId)
    requires Inv(s) && Possible(s, HungUp(l))
    ensures Shape(Step(s, HungUp(l)))
    ensures DrainBase(Step(s, HungUp(l)), Waiting(Step(s, HungUp(l)))).failed <==> !HupInTime(s, HungUp(l))
  {
    var c := s.posts[l].guard.value;
    HangUpShape(s, c);
    if IsOpen(s.conns[c]) {
      HangUpKeeps(s, l);
      HealthyDrains(HangUp(s, c), Waiting(HangUp(s, c)));
    } else {
      ClosedIsDisconnected(s, c);
      LateFails(s, c);
    }
  }

  lemma ClosedIsDisconnected(s: Server, c: ConnId)
    requires CoreInv(s) && c in s.conns && !IsOpen(s.conns[c])
    ensures s.conns[c].state == Disconnected
  {
    assert Fine(StatusOf(s, c));
    ClosedStatus(StatusOf(s, c));
  }

  lemma ClosedStatus(st: Status)
    requires Fine(st) && !IsOpen(st.rec)
    ensures st.rec.state == Disconnected
  {
  }

  lemma LateFails(s: Server, c: ConnId)
    requires CoreInv(s) && c in s.conns && s.conns[c].state == Disconnected && s.conns[c].registered
    ensures Shape(HangUp(s, c)) && DrainBase(HangUp(s, c), Waiting(HangUp(s, c))).failed
  {
    HangUpShape(s, c);
    LookupsQueued(s, c);
    if s.homes[c] == BASE { LateOnBase(s, c); } else { LateElsewhere(s, c); }
    DoomedDrains(HangUp(s, c), c, Waiting(HangUp(s, c)));
  }

  /** A closed connection still in epoll has exactly one lookup to come if it is in
      the map, and none if it is not. */
  lemma LookupsQueued(s: Server, c: ConnId)
    requires CoreInv(s) && c in s.conns && s.conns[c].state == Disconnected && s.conns[c].registered
    ensures Lookups(Flat(s.queues[BASE]), c) == (if c in s.connections then 1 else 0)
    ensures AllKnown(s, BASE)
  {
    assert Fine(StatusOf(s, c));
    LookupsCounted(s, c);
    FlatKnown(s);
  }

  lemma LookupsCounted(s: Server, c: ConnId)
    requires Shape(s) && c in s.conns && s.conns[c].state == Disconnected && s.conns[c].registered
    requires Fine(StatusOf(s, c))
    ensures Lookups(Flat(s.queues[BASE]), c) == (if c in s.connections then 1 else 0)
  {
    LookupsToCome(StatusOf(s, c));
    FlatLookups(s.queues[BASE], c);
  }

  lemma LookupsToCome(st: Status)
    requires Fine(st) && st.rec.state == Disconnected && st.rec.registered
    ensures st.removes + st.drops == (if st.mapped then 1 else 0)
  {
  }

  lemma FlatLookups(q: Queue, c: ConnId)
    ensures Lookups(Flat(q), c) == CntIn(q, RemoveInLoop(c)) + CntIn(q, RemoveFromMap(c))
  {
    LookupsCount(q.toRun, c);
    LookupsCount(q.pending, c);
    LookupsAppend(q.toRun, q.pending, c);
  }

  lemma FlatKnown(s: Server)
    requires Sound(s)
    ensures AllKnown(s, BASE)
  {
    var q := s.queues[BASE];
    assert AtHome(s.homes, BASE, q.toRun) && AtHome(s.homes, BASE, q.pending);
  }

  lemma LateOnBase(s: Server, c: ConnId)
    requires Shape(s) && c in s.conns && s.conns[c].state == Disconnected && s.homes[c] == BASE
    requires Lookups(Flat(s.queues[BASE]), c) == (if c in s.connections then 1 else 0) && AllKnown(s, BASE)
    ensures Shape(HangUp(s, c)) && (HangUp(s, c).failed || Doomed(HangUp(s, c), c, Waiting(HangUp(s, c))))
  {
    var f := Flat(s.queues[BASE]);
    assert f[..|f|] == f;
  }

  lemma LateElsewhere(s: Server, c: ConnId)
    requires Shape(s) && c in s.conns && s.conns[c].state == Disconnected && s.homes[c] != BASE
    requires Lookups(Flat(s.queues[BASE]), c) == (if c in s.connections then 1 else 0) && AllKnown(s, BASE)
    ensures Shape(HangUp(s, c)) && Doomed(HangUp(s, c), c, Waiting(HangUp(s, c)))
  {
    var f, f' := Flat(s.queues[BASE]), Flat(HangUp(s, c).queues[BASE]);
    assert f' == f + [RemoveFromMap(c)];
    LookupsAppend(f, [RemoveFromMap(c)], c);
    assert Lookups([RemoveFromMap(c)], c) == 1 by { assert [RemoveFromMap(c)][1..] == []; }
    assert f'[..|f'|] == f';
  }

  ghost predicate Reaches(s: Server, s': Server) {
    exists run :: PossibleRun(s, run) && After(s, run) == s'
  }

  lemma {:induction false} Extend(s: Server, run: seq<Event>, e: Event)
    requires PossibleRun(s, run) && Possible(After(s, run), e)
    ensures PossibleRun(s, run + [e]) && After(s, run + [e]) == Step(After(s, run), e)
    decreases |run|
  {
    if run == [] {
      assert [] + [e] == [e] && [e][1..] == [];
      assert PossibleRun(Step(s, e), []);
    } else {
      assert (run + [e])[1..] == run[1..] + [e];
      Extend(Step(s, run[0]), run[1..], e);
    }
  }

  lemma ReachStep(s0: Server, s: Server, e: Event)
    requires Reaches(s0, s) && Possible(s, e)
    ensures Reaches(s0, Step(s, e))
  {
    var run :| PossibleRun(s0, run) && After(s0, run) == s;
    Extend(s0, run, e);
  }

  /** One connection on an io loop, by the state of the two loops. */
  function Sample(rec: ConnRec, mapped: bool, base: Queue, basePost: Post, ioPost: Post, failed: bool): Server {
    Server(map[0 := 1], map[0 := rec], if mapped then {0} else {}, [base, Queue([], [])], [basePost, ioPost], 1, failed)
  }

  const CLOSED_REC := ConnRec(Disconnected, true, false, 0, 0)
  const HUNG_REC := ConnRec(Disconnected, false, false, 1, 0)

  /** The io loop polls the connection and takes the guard. */
  lemma BeginRound(s0: Server, rec: ConnRec, base: Queue, idle: Post)
    requires idle == Post(Idle, {}, None) && rec.registered
    requires Reaches(s0, Sample(rec, true, base, idle, idle, false))
    ensures Reaches(s0, Sample(rec, true, base, idle, Post(Dispatching, {}, Some(0)), false))
  {
    var s := Sample(rec, true, base, idle, idle, false);
    ReachStep(s0, s, Poll(1, {0}));
    var s1 := Sample(rec, true, base, idle, Post(Dispatching, {0}, None), false);
    assert Step(s, Poll(1, {0})).posts == s1.posts;
    ReachStep(s0, s1, Begin(1, 0));
    var none: set<ConnId> := {};
    assert s1.posts[1].active - {0} == none;
    assert Step(s1, Begin(1, 0)).posts == [idle, Post(Dispatching, none, Some(0))];
  }

  /** The io loop drops the guard and goes back to its poll. */
  lemma FinishRound(s0: Server, rec: ConnRec, base: Queue, idle: Post)
    requires idle == Post(Idle, {}, None)
    requires Reaches(s0, Sample(rec, true, base, idle, Post(Dispatching, {}, Some(0)), false))
    ensures Reaches(s0, Sample(rec, true, base, idle, idle, false))
  {
    var s := Sample(rec, true, base, idle, Post(Dispatching, {}, Some(0)), false);
    ReachStep(s0, s, End(1));
    assert Step(s, End(1)) == Sample(rec, true, base, idle, Post(Dispatching, {}, None), false);
    RunNothing(s0, rec, base, idle);
  }

  lemma RunNothing(s0: Server, rec: ConnRec, base: Queue, idle: Post)
    requires idle == Post(Idle, {}, None)
    requires Reaches(s0, Sample(rec, true, base, idle, Post(Dispatching, {}, None), false))
    ensures Reaches(s0, Sample(rec, true, base, idle, idle, false))
  {
    var s1 := Sample(rec, true, base, idle, Post(Dispatching, {}, None), false);
    ReachStep(s0, s1, StartBatch(1));
    var s2 := Sample(rec, true, base, idle, Post(Running, {}, None), false);
    assert Step(s1, StartBatch(1)) == s2;
    ReachStep(s0, s2, EndBatch(1));
    assert Step(s2, EndBatch(1)) == Sample(rec, true, base, idle, idle, false);
  }

  lemma AcceptReached(idle: Post, none: Queue)
    requires idle == Post(Idle, {}, None) && none == Queue([], [])
    ensures Reaches(NewServer(2), Sample(NEW_CONN_REC, true, none, idle, idle, false))
  {
    var s0 := NewServer(2);
    assert After(s0, []) == s0 && PossibleRun(s0, []);
    assert s0.queues == [none, none] && s0.posts == [idle, idle];
    ReachStep(s0, s0, Accept(1));
    assert Step(s0, Accept(1)) == Sample(NEW_CONN_REC, true, none, idle, idle, false);
  }

  lemma ClosedReached(idle: Post, none: Queue)
    requires idle == Post(Idle, {}, None) && none == Queue([], [])
    ensures Reaches(NewServer(2), Sample(CLOSED_REC, true, Queue([], [RemoveInLoop(0)]), idle, idle, false))
  {
    var s0, handling := NewServer(2), Post(Dispatching, {}, Some(0));
    AcceptReached(idle, none);
    BeginRound(s0, NEW_CONN_REC, none, idle);
    var s := Sample(NEW_CONN_REC, true, none, idle, handling, false);
    ReachStep(s0, s, PeerGone(1));
    assert [] + [RemoveInLoop(0)] == [RemoveInLoop(0)];
    assert Step(s, PeerGone(1)).queues == [Queue([], [RemoveInLoop(0)]), none];
    assert Step(s, PeerGone(1)).conns == map[0 := CLOSED_REC];
    assert Step(s, PeerGone(1)) == Sample(CLOSED_REC, true, Queue([], [RemoveInLoop(0)]), idle, handling, false);
    FinishRound(s0, CLOSED_REC, Queue([], [RemoveInLoop(0)]), idle);
  }

  lemma HungReached(idle: Post)
    requires idle == Post(Idle, {}, None)
    ensures Reaches(NewServer(2),
                    Sample(HUNG_REC, true, Queue([], [RemoveInLoop(0), RemoveFromMap(0)]), idle, idle, false))
  {
    var s0, handling := NewServer(2), Post(Dispatching, {}, Some(0));
    var one, two := Queue([], [RemoveInLoop(0)]), Queue([], [RemoveInLoop(0), RemoveFromMap(0)]);
    ClosedReached(idle, Queue([], []));
    BeginRound(s0, CLOSED_REC, one, idle);
    var s := Sample(CLOSED_REC, true, one, idle, handling, false);
    ReachStep(s0, s, HungUp(1));
    HangUpSample(one, two, idle, handling);
    FinishRound(s0, HUNG_REC, two, idle);
  }

  lemma HangUpSample(one: Queue, two: Queue, idle: Post, handling: Post)
    requires handling == Post(Dispatching, {}, Some(0))
    requires one == Queue([], [RemoveInLoop(0)]) && two == Queue([], [RemoveInLoop(0), RemoveFromMap(0)])
    ensures var s := Sample(CLOSED_REC, true, one, idle, handling, false);
            Possible(s, HungUp(1)) && Step(s, HungUp(1)) == Sample(HUNG_REC, true, two, idle, handling, false)
  {
    var s := Sample(CLOSED_REC, true, one, idle, handling, false);
    assert [RemoveInLoop(0)] + [RemoveFromMap(0)] == two.pending;
    assert Step(s, HungUp(1)).queues == [two, Queue([], [])];
    assert Step(s, HungUp(1)).conns == map[0 := HUNG_REC];
  }

  lemma BaseBatchReached(idle: Post, two: seq<Task>)
    requires idle == Post(Idle, {}, None) && two == [RemoveInLoop(0), RemoveFromMap(0)]
    ensures Reaches(NewServer(2), Sample(HUNG_REC, true, Queue(two, []), Post(Running, {}, None), idle, false))
  {
    var s0 := NewServer(2);
    HungReached(idle);
    var s := Sample(HUNG_REC, true, Queue([], two), idle, idle, false);
    ReachStep(s0, s, Poll(0, {}));
    var s1 := Sample(HUNG_REC, true, Queue([], two), Post(Dispatching, {}, None), idle, false);
    assert Step(s, Poll(0, {})) == s1;
    ReachStep(s0, s1, StartBatch(0));
    assert Step(s1, StartBatch(0)) == Sample(HUNG_REC, true, Queue(two, []), Post(Running, {}, None), idle, false);
  }

  /** A real run into the assert: the peer closes, the io loop polls again before
      the base loop has caught up, and the kernel reports the hang-up. */
  lemma LateHangUpHappens()
    ensures exists run :: PossibleRun(NewServer(2), run) && After(NewServer(2), run).failed
  {
    var s0, idle := NewServer(2), Post(Idle, {}, None);
    var two := [RemoveInLoop(0), RemoveFromMap(0)];
    BaseBatchReached(idle, two);
    var s := Sample(HUNG_REC, true, Queue(two, []), Post(Running, {}, None), idle, false);
    ReachStep(s0, s, RunTask(0));
    var s1 := Step(s, RunTask(0));
    assert two[1..] == [RemoveFromMap(0)];
    SecondLookupFails(s0, s1);
  }

  lemma SecondLookupFails(s0: Server, s: Server)
    requires Reaches(s0, s) && Shape(s) && !s.failed && s.connections == {} && 0 in s.conns
    requires s.queues[0].toRun == [RemoveFromMap(0)] && s.posts[0].phase == Running
    ensures exists run :: PossibleRun(s0, run) && After(s0, run).failed
  {
    ReachStep(s0, s, RunTask(0));
  }

  // ----------------------------------------------------------- implementation

  /** The server's map together with the per-connection and per-loop state its
      callbacks change, method by method as they run. */
  class TcpServer {
    var homes: map<ConnId, LoopId>
    var conns: map<ConnId, ConnRec>
    var connections: set<ConnId>
    var queues: seq<Queue>
    var posts: seq<Post>
    var nextConnectionId: nat
    var failed: bool

    ghost function View(): Server
      reads this
    {
      Server(homes, conns, connections, queues, posts, nextConnectionId, failed)
    }

    constructor (loops: nat)
      requires loops > 0
      ensures View() == NewServer(loops)
    {
      homes, conns, connections := map[], map[], {};
      queues := seq(loops, _ => Queue([], []));
      posts := seq(loops, _ => Post(Idle, {}, None));
      nextConnectionId, failed := 0, false;
    }

    method QueueInLoop(l: LoopId, t: Task)
      requires l < |queues|
      modifies `queues
      ensures View() == Enqueue(old(View()), l, t)
    {
      queues := queues[l := queues[l].(pending := queues[l].pending + [t])];
    }

    /** `ioLoop` is what `getNextLoop` returned. */
    method NewConnection(ioLoop: LoopId) returns (conn: ConnId)
      requires Shape(View()) && ioLoop < |queues| && nextConnectionId !in conns
      modifies this
      ensures View() == Accepted(old(View()), ioLoop) && conn == old(nextConnectionId)
    {
      conn := nextConnectionId;
      nextConnectionId := nextConnectionId + 1;
      homes := homes[conn := ioLoop];
      conns := conns[conn := ConnRec(Connected, true, false, 0, 0)];
      connections := connections + {conn};
    }

    /** The lookup both removals begin with; false stands for the failed assert. */
    method Erase(c: ConnId) returns (ok: bool)
      requires c in conns && !failed
      modifies this
      ensures View() == EraseNow(old(View()), c) && ok == !failed
    {
      if c !in connections {
        failed := true;
        return false;
      }
      connections := connections - {c};
      conns := conns[c := conns[c].(erasures := conns[c].erasures + 1)];
      ok := true;
    }

    method RemoveConnectionInLoop(c: ConnId)
      requires Shape(View()) && c in conns && !failed
      modifies this
      ensures View() == RemoveNow(old(View()), c)
    {
      var ok := Erase(c);
      if ok {
        QueueInLoop(homes[c], Destroyed(c));
      }
    }

    /** Called on the loop of `c`; `RunInLoop` of the base loop. */
    method RemoveConnection(c: ConnId)
      requires Shape(View()) && c in conns && !failed
      modifies this
      ensures View() == ReportClose(old(View()), c)
    {
      if homes[c] == BASE {
        RemoveConnectionInLoop(c);
      } else {
        QueueInLoop(BASE, RemoveInLoop(c));
      }
    }

    method HandleClose(c: ConnId)
      requires Shape(View()) && c in conns && !failed
      modifies this
      ensures View() == CloseNow(old(View()), c)
    {
      if IsOpen(conns[c]) {
        conns := conns[c := conns[c].(state := Disconnected, writing := false)];
        RemoveConnection(c);
      }
    }

    method ConnectionDestroyed(c: ConnId)
      requires c in conns
      modifies `conns
      ensures View() == DestroyNow(old(View()), c)
    {
      var r := conns[c];
      if IsOpen(r) {
        r := r.(state := Disconnected);
      }
      r := r.(writing := false, registered := false, destroyedRuns := r.destroyedRuns + 1);
      conns := conns[c := r];
    }

    method HandleHup(c: ConnId)
      requires Shape(View()) && c in conns && !failed
      modifies this
      ensures View() == HangUp(old(View()), c)
    {
      ConnectionDestroyed(c);
      if homes[c] == BASE {
        var _ := Erase(c);
      } else {
        QueueInLoop(BASE, RemoveFromMap(c));
      }
    }

    method CloseConnectionInLoop(c: ConnId)
      requires Shape(View()) && c in conns && !failed
      modifies this
      ensures View() == Exec(old(View()), CloseInLoop(c))
    {
      if conns[c].state == Connected {
        if conns[c].writing {
          conns := conns[c := conns[c].(state := Disconnecting)];
        } else {
          HandleClose(c);
        }
      }
    }

    /** One turn of the loop in `doPendingFunctors` on loop `l`. */
    method RunFunctor(l: LoopId)
      requires Possible(View(), RunTask(l))
      modifies this
      ensures View() == Step(old(View()), RunTask(l))
    {
      var t := queues[l].toRun[0];
      queues := queues[l := queues[l].Tail()];
      Call(t);
    }

    method Call(t: Task)
      requires Shape(View()) && t.conn in conns && !failed
      modifies this
      ensures View() == Exec(old(View()), t)
    {
      match t
      case CloseInLoop(c) => CloseConnectionInLoop(c);
      case RemoveInLoop(c) => RemoveConnectionInLoop(c);
      case RemoveFromMap(c) => var _ := Erase(c);
      case Destroyed(c) => ConnectionDestroyed(c);
    }
  }
}
