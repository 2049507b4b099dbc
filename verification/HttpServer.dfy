/** HTTP/HttpServer: one connection's conversation, from bytes in to bytes out. */
module HttpServers {
  import opened Text
  import opened Buffers
  import opened HttpRequests
  import opened HttpContexts
  import opened HttpRoundTrip
  import opened HttpResponses
  import opened ConnectionStates
  import opened TcpConnections
  import opened Channels

  const BAD_REQUEST: string := "HTTP/1.1 400 Bad Request\r\n\r\n"

  /** The user's callback and the iteration order of the response's header map.
      The responses are small enough for `append`, see `ResponseRoundTrip`. */
  datatype Config = Config(handler: (Request, Response) -> Response, iterate: map<string, string> -> seq<string>) {
    ghost predicate Ordered() {
      forall h :: OrderOf(iterate(h), h)
    }

    ghost predicate Valid() {
      Ordered() && forall r: Request :: |AnswerBytes(this, r)| < INT_LIMIT
    }
  }

  // ------------------------------------------------------------ specification

  /** `crashed` is set once an assert of the original has failed. */
  datatype Session = Session(ctx: Context, input: string, conn: Conn, crashed: bool)

  /** A legal result of writing `n` bytes. */
  function Clamp(result: int, n: nat): int {
    if result < -1 then -1 else if result > n then n else result
  }

  function SendAll(c: Conn, data: string, result: int): Conn {
    Step(c, Send(data, Clamp(result, |data|)))
  }

  function Lookup(headers: map<string, string>, name: string): string {
    if name in headers then headers[name] else ""
  }

  /** Close unless the client may expect the connection to stay. */
  predicate WantsClose(r: Request) {
    var connection := Lookup(r.headers, "Connection");
    connection == "close" || (r.version == Http10 && connection != "Keep-Alive")
  }

  function Answer(cfg: Config, r: Request): Response {
    cfg.handler(r, Response(map[], 0, "", WantsClose(r), ""))
  }

  function AnswerBytes(cfg: Config, r: Request): string
    requires cfg.Ordered()
  {
    var a := Answer(cfg, r);
    ResponseBytes(a, cfg.iterate(a.headers))
  }

  /** What the client gets for a request, and whether the connection is to close. */
  datatype Reply = Reply(bytes: string, close: bool)

  function Replies(cfg: Config): Request -> Reply
    requires cfg.Valid()
  {
    r => Reply(AnswerBytes(cfg, r), Answer(cfg, r).closeConnection)
  }

  /** `onRequest`. */
  function Respond(cfg: Config, c: Conn, r: Request, result: int): Conn
    requires cfg.Valid()
  {
    var c' := SendAll(c, AnswerBytes(cfg, r), result);
    if Answer(cfg, r).closeConnection then Step(c', CloseRequest) else c'
  }

  function Rest(ctx: Context): Context {
    Context(ExpectRequestLine, EMPTY_REQUEST.(version := ctx.request.version))
  }

  /** `onMessage`, when the parser has returned. */
  function Handled(cfg: Config, s: Session, o: Outcome, result: int): Session
    requires cfg.Valid()
  {
    if o.verdict == Aborted then s.(crashed := true)
    else if o.verdict == Rejected then
      Session(o.ctx, o.rest, Step(SendAll(s.conn, BAD_REQUEST, result), CloseRequest), s.crashed)
    else if o.ctx.state == GotAll then
      Session(Rest(o.ctx), o.rest, Respond(cfg, s.conn, o.ctx.request, result), s.crashed)
    else Session(o.ctx, o.rest, s.conn, s.crashed)
  }

  /** `onMessage`: nothing happens before the input ends in CRLFCRLF. */
  function Processed(cfg: Config, s: Session, time: int, result: int): (r: Session)
    requires cfg.Valid() && Parsing(s.ctx)
    ensures Parsing(r.ctx)
  {
    if !EndsBlank(s.input) then s else Handled(cfg, s, Parse(s.ctx, s.input, time), result)
  }

  /** `handleRead` with at least one byte. */
  datatype Arrival = Arrival(bytes: string, time: int, result: int)

  function Receive(cfg: Config, s: Session, a: Arrival): (r: Session)
    requires cfg.Valid() && Parsing(s.ctx)
    ensures Parsing(r.ctx)
  {
    if s.crashed then s else Processed(cfg, s.(input := s.input + a.bytes), a.time, a.result)
  }

  // -------------------------------------------------------- the loop's rounds

  /** What one round of the event loop brings a connection: bytes to read, none if
      the peer has closed; room to write, with what `write` will return; or neither. */
  datatype Round = Round(data: Option<Arrival>, room: Option<int>)

  /** epoll reports readable bytes only while read interest is on. */
  predicate Reads(s: Session, round: Round) {
    !s.crashed && round.data.Some? && s.conn.channel.events.read
  }

  function ReadTurn(cfg: Config, s: Session, round: Round): (r: Session)
    requires cfg.Valid() && Parsing(s.ctx)
    ensures Parsing(r.ctx)
  {
    if !Reads(s, round) then s
    else if round.data.value.bytes == "" then s.(conn := Step(s.conn, PeerClosed))
    else Receive(cfg, s, round.data.value)
  }

  /** `polled` is the write interest epoll went by. */
  function WriteTurn(c: Conn, polled: bool, room: Option<int>): Conn {
    if polled && room.Some? then Step(c, WriteReady(Clamp(room.value, |c.out|))) else c
  }

  /** The close functors that have been queued. */
  function RunCloses(c: Conn): Conn
    decreases c.queuedCloses
  {
    if c.queuedCloses == 0 then c else RunCloses(Step(c, CloseTask))
  }

  /** Poll, dispatch, then the functors: a close requested while handling the bytes
      is carried out before the next bytes are looked at. */
  function Turn(cfg: Config, s: Session, round: Round): (r: Session)
    requires cfg.Valid() && Parsing(s.ctx)
    ensures Parsing(r.ctx)
  {
    var read := ReadTurn(cfg, s, round);
    if read.crashed then read
    else read.(conn := RunCloses(WriteTurn(read.conn, s.conn.channel.events.write, round.room)))
  }

  function TurnAll(cfg: Config, s: Session, rounds: seq<Round>): (r: Session)
    requires cfg.Valid() && Parsing(s.ctx)
    ensures Parsing(r.ctx)
    decreases |rounds|
  {
    if rounds == [] then s else TurnAll(cfg, Turn(cfg, s, rounds[0]), rounds[1..])
  }

  /** What answering does to the connection. */
  lemma RespondAccepts(cfg: Config, c: Conn, r: Request, result: int)
    requires cfg.Valid() && Inv(c) && c.state == Connected
    ensures var c' := Respond(cfg, c, r, result);
            && Inv(c') && c'.state == Connected
            && c'.accepted == c.accepted + AnswerBytes(cfg, r)
            && c'.queuedCloses == c.queuedCloses + (if Answer(cfg, r).closeConnection then 1 else 0)
  {
    var data := AnswerBytes(cfg, r);
    StepKeeps(c, Send(data, Clamp(result, |data|)));
  }

  lemma AnswerPrinted(cfg: Config, r: Request, v: BufferView)
    requires cfg.Valid() && Printable(v) && v.live == ""
    ensures var a := Answer(cfg, r);
            var put := PutAll(v, Pieces(a, cfg.iterate(a.headers)));
            put.Some? && put.value.live == AnswerBytes(cfg, r)
  {
    var a := Answer(cfg, r);
    var pieces := Pieces(a, cfg.iterate(a.headers));
    assert |AnswerBytes(cfg, r)| < INT_LIMIT;
    PiecesConcat(a, cfg.iterate(a.headers));
    PutExact(v, pieces);
    assert "" + Concat(pieces) == Concat(pieces);
  }

  // ----------------------------------------------------------- implementation

  class HttpServer {
    const cfg: Config

    constructor (cfg: Config)
      ensures this.cfg == cfg
    {
      this.cfg := cfg;
    }

    ghost function View(conn: TcpConnection, context: HttpContext, crashed: bool): Session
      reads conn, conn.channel, conn.inBuffer, conn.outBuffer, conn.Repr(), context, context.request
      requires conn.Valid()
    {
      Session(context.View(), conn.Input(), conn.View(), crashed)
    }

    /** `crashed` stands for a failed assert. */
    method OnMessage(conn: TcpConnection, context: HttpContext, receiveTime: int, result: int)
      returns (crashed: bool)
      requires cfg.Valid() && conn.Valid() && Parsing(context.View())
      modifies conn.Repr(), context, context.request
      ensures conn.Valid()
      ensures crashed <==> Processed(cfg, old(View(conn, context, false)), receiveTime, result).crashed
      ensures !crashed ==> View(conn, context, false)
                           == Processed(cfg, old(View(conn, context, false)), receiveTime, result)
    {
      crashed := false;
      var blank := EndsWithBlank(conn.inBuffer);
      if blank {
        var verdict := ParseInput(conn, context, receiveTime);
        crashed := verdict == Aborted;
        if !crashed {
          Conclude(conn, context, verdict, result);
        }
      }
    }

    /** `onMessage`, from the return of the parser on. */
    method Conclude(conn: TcpConnection, context: HttpContext, verdict: Verdict, result: int)
      requires cfg.Valid() && conn.Valid() && verdict != Aborted
      requires verdict == Rejected ==> context.state != GotAll
      modifies conn.Repr(), context, context.request
      ensures conn.Valid()
      ensures View(conn, context, false)
              == Handled(cfg, old(View(conn, context, false)),
                         Outcome(verdict, old(context.View()), old(conn.Input())), result)
    {
      if verdict == Rejected {
        Answer400(conn, BAD_REQUEST, result);
      }
      if context.state == GotAll {
        OnRequest(conn, context.request, result);
        context.Reset();
      }
    }

    method ParseInput(conn: TcpConnection, context: HttpContext, receiveTime: int) returns (verdict: Verdict)
      requires conn.Valid() && Parsing(context.View())
      modifies context, context.request, conn.inBuffer
      ensures conn.Valid() && conn.View() == old(conn.View()) && conn.inBuffer.store == old(conn.inBuffer.store)
      ensures var o := Parse(old(context.View()), old(conn.Input()), receiveTime);
              verdict == o.verdict && (verdict != Aborted ==> context.View() == o.ctx && conn.Input() == o.rest)
    {
      verdict := context.ParseRequest(conn.inBuffer, receiveTime);
    }

    method Answer400(conn: TcpConnection, answer: string, result: int)
      requires conn.Valid()
      modifies conn, conn.channel, conn.outBuffer, conn.outBuffer.store
      ensures conn.Valid() && conn.Input() == old(conn.Input())
      ensures conn.outBuffer.store == old(conn.outBuffer.store) || fresh(conn.outBuffer.store)
      ensures conn.View() == Step(SendAll(old(conn.View()), answer, result), CloseRequest)
    {
      conn.Send(answer, Clamp(result, |answer|));
      conn.CloseConnection();
    }

    /** One connection's share of a round: `handleEventWithGuard`, then its close
        functors in `doPendingFunctors`. */
    method RunRound(conn: TcpConnection, context: HttpContext, round: Round) returns (crashed: bool)
      requires cfg.Valid() && conn.Valid() && Parsing(context.View())
      requires round.data.Some? ==> |round.data.value.bytes| <= conn.inBuffer.View().Writable() + EXTRA_SIZE
      modifies conn.Repr(), context, context.request
      ensures conn.Valid()
      ensures crashed <==> Turn(cfg, old(View(conn, context, false)), round).crashed
      ensures !crashed ==> View(conn, context, false) == Turn(cfg, old(View(conn, context, false)), round)
    {
      var polled := conn.channel.events.write;
      crashed := ReadReady(conn, context, round.data);
      if crashed { return; }
      if polled && round.room.Some? {
        var waiting := conn.outBuffer.ReadableBytes();
        conn.HandleWrite(Clamp(round.room.value, waiting));
      }
      RunFunctors(conn);
    }

    method ReadReady(conn: TcpConnection, context: HttpContext, data: Option<Arrival>) returns (crashed: bool)
      requires cfg.Valid() && conn.Valid() && Parsing(context.View())
      requires data.Some? ==> |data.value.bytes| <= conn.inBuffer.View().Writable() + EXTRA_SIZE
      modifies conn.Repr(), context, context.request
      ensures conn.Valid()
      ensures var read := ReadTurn(cfg, old(View(conn, context, false)), Round(data, None));
              crashed == read.crashed && (!crashed ==> View(conn, context, false) == read)
    {
      crashed := false;
      if data.Some? && conn.channel.events.read {
        var message := conn.HandleRead(Some(data.value.bytes));
        if message {
          crashed := OnMessage(conn, context, data.value.time, data.value.result);
        }
      }
    }

    method RunFunctors(conn: TcpConnection)
      requires conn.Valid()
      modifies conn, conn.channel
      ensures conn.Valid() && conn.View() == RunCloses(old(conn.View())) && conn.Input() == old(conn.Input())
    {
      while conn.queuedCloses > 0
        invariant conn.Valid() && conn.Input() == old(conn.Input())
        invariant RunCloses(conn.View()) == RunCloses(old(conn.View()))
        decreases conn.queuedCloses
      {
        conn.CloseConnectionInLoop();
      }
    }

    /** The comparison of the last four readable bytes; fewer never match. */
    method EndsWithBlank(buf: Buffer) returns (blank: bool)
      requires buf.Valid()
      ensures blank <==> EndsBlank(buf.Contents())
    {
      blank := buf.writeIndex - buf.readIndex >= 4
               && buf.store[buf.writeIndex - 4..buf.writeIndex] == CRLF + CRLF;
      ghost var s := buf.Contents();
      assert |s| >= 4 ==> s[|s| - 4..] == buf.store[buf.writeIndex - 4..buf.writeIndex];
    }

    method OnRequest(conn: TcpConnection, req: HttpRequest, result: int)
      requires cfg.Valid() && conn.Valid()
      modifies conn, conn.channel, conn.outBuffer, conn.outBuffer.store
      ensures conn.Valid() && conn.Input() == old(conn.Input())
      ensures conn.outBuffer.store == old(conn.outBuffer.store) || fresh(conn.outBuffer.store)
      ensures conn.View() == Respond(cfg, old(conn.View()), req.View(), result)
    {
      var bytes, close := BuildAnswer(req);
      conn.Send(bytes, Clamp(result, |bytes|));
      if close {
        conn.CloseConnection();
      }
    }

    method BuildAnswer(req: HttpRequest) returns (bytes: string, close: bool)
      requires cfg.Valid()
      ensures bytes == AnswerBytes(cfg, req.View()) && close == Answer(cfg, req.View()).closeConnection
    {
      var connection := req.GetHeader("Connection");
      close := connection == "close" || (req.version == Http10 && connection != "Keep-Alive");
      assert close <==> WantsClose(req.View());
      var response := new HttpResponse(close);
      response.Become(cfg.handler(req.View(), response.View()));
      var buf := new Buffer();
      AnswerPrinted(cfg, req.View(), buf.View());
      var _ := response.AppendToBuffer(buf, cfg.iterate(response.headers));
      bytes := buf.store[buf.readIndex..buf.writeIndex];
      close := response.closeConnection;
    }
  }
}
