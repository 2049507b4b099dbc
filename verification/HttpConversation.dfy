/** Whole conversations with the HTTP server: what a client gets for what it sends,
    however the network cuts the bytes and however slowly it takes the answers. */
module HttpConversations {
  import opened Text
  import opened Buffers
  import opened HttpRequests
  import opened HttpContexts
  import opened HttpRoundTrip
  import opened HttpResponses
  import opened ConnectionStates
  import opened TcpConnections
  import opened Channels
  import opened HttpServers

  // ---------------------------------------------------- apart from the socket

  type Handler = Request -> Reply

  /** What parser and handler make of the bytes. `sent` is what is accepted for
      sending, `closing` says that a close has been asked for. */
  datatype Reader = Reader(ctx: Context, input: string, crashed: bool, sent: string, closing: bool)

  /** Once a close has been asked for, answers are dropped. */
  function Say(r: Reader, data: string, close: bool): Reader {
    if r.closing then r else r.(sent := r.sent + data, closing := close)
  }

  function Answered(h: Handler, r: Reader, o: Outcome): Reader {
    if o.verdict == Aborted then r.(crashed := true)
    else if o.verdict == Rejected then Say(r, BAD_REQUEST, true).(ctx := o.ctx, input := o.rest)
    else if o.ctx.state == GotAll then
      var reply := h(o.ctx.request);
      Say(r, reply.bytes, reply.close).(ctx := Rest(o.ctx), input := o.rest)
    else r.(ctx := o.ctx, input := o.rest)
  }

  function Read(h: Handler, r: Reader, a: Arrival): (r': Reader)
    requires Parsing(r.ctx)
    ensures Parsing(r'.ctx)
  {
    var input := r.input + a.bytes;
    if r.crashed then r
    else if !EndsBlank(input) then r.(input := input)
    else Answered(h, r.(input := input), Parse(r.ctx, input, a.time))
  }

  function ReadAll(h: Handler, r: Reader, arrivals: seq<Arrival>): (r': Reader)
    requires Parsing(r.ctx)
    ensures Parsing(r'.ctx)
    decreases |arrivals|
  {
    if arrivals == [] then r else ReadAll(h, Read(h, r, arrivals[0]), arrivals[1..])
  }

  lemma {:induction false} ReadSplits(h: Handler, r: Reader, a: seq<Arrival>, b: seq<Arrival>)
    requires Parsing(r.ctx)
    ensures ReadAll(h, r, a + b) == ReadAll(h, ReadAll(h, r, a), b)
    decreases |a|
  {
    if a == [] {
      assert a + b == b;
    } else {
      assert (a + b)[1..] == a[1..] + b;
      ReadSplits(h, Read(h, r, a[0]), a[1..], b);
    }
  }

  /** After the request to close nothing more is accepted; a failed assert stays. */
  lemma {:induction false} ClosingStays(h: Handler, r: Reader, arrivals: seq<Arrival>)
    requires Parsing(r.ctx)
    ensures r.closing ==> ReadAll(h, r, arrivals).closing && ReadAll(h, r, arrivals).sent == r.sent
    ensures r.crashed ==> ReadAll(h, r, arrivals).crashed
    decreases |arrivals|
  {
    if arrivals != [] { ClosingStays(h, Read(h, r, arrivals[0]), arrivals[1..]); }
  }

  // ------------------------------------------------------------- on the socket

  /** Between rounds: the connection takes bytes exactly until a close is asked for,
      and once it is down everything accepted has been written. */
  predicate ConnTracks(c: Conn, sent: string, closing: bool) {
    && Inv(c) && c.accepted == sent && c.queuedCloses == 0 && c.state != Connecting
    && (c.state == Connected <==> !closing)
    && (c.state == Disconnected ==> c.out == "")
  }

  predicate Tracks(s: Session, r: Reader) {
    s.ctx == r.ctx && s.input == r.input && s.crashed == r.crashed && ConnTracks(s.conn, r.sent, r.closing)
  }

  /** Within a round a close may still be queued. */
  predicate MidTracks(c: Conn, sent: string, closing: bool) {
    && Inv(c) && c.accepted == sent && c.state != Connecting
    && (if closing then c.state != Connected || c.queuedCloses > 0 else c.state == Connected && c.queuedCloses == 0)
    && (c.state == Disconnected ==> c.out == "")
  }

  lemma SayTracks(c: Conn, r: Reader, data: string, close: bool, result: int)
    requires ConnTracks(c, r.sent, r.closing)
    ensures var c', said := SendAll(c, data, result), Say(r, data, close);
            MidTracks(if close then Step(c', CloseRequest) else c', said.sent, said.closing)
  {
    StepKeeps(c, Send(data, Clamp(result, |data|)));
  }

  lemma AnswerTracks(cfg: Config, c: Conn, r: Reader, q: Request, result: int)
    requires cfg.Valid() && ConnTracks(c, r.sent, r.closing)
    ensures var reply := Replies(cfg)(q);
            var said := Say(r, reply.bytes, reply.close);
            MidTracks(Respond(cfg, c, q, result), said.sent, said.closing)
  {
    var reply := Replies(cfg)(q);
    SayTracks(c, r, reply.bytes, reply.close, result);
  }

  /** Within a round, after the bytes have been handled. */
  predicate HalfTracks(s: Session, r: Reader) {
    && s.ctx == r.ctx && s.input == r.input && s.crashed == r.crashed
    && MidTracks(s.conn, r.sent, r.closing)
    && (s.crashed ==> Tracks(s, r))
  }

  lemma AnsweredTracks(cfg: Config, s: Session, r: Reader, o: Outcome, result: int)
    requires cfg.Valid() && Tracks(s, r) && !s.crashed
    ensures HalfTracks(Handled(cfg, s, o, result), Answered(Replies(cfg), r, o))
  {
    if o.verdict == Rejected {
      SayTracks(s.conn, r, BAD_REQUEST, true, result);
    } else if o.verdict == Accepted && o.ctx.state == GotAll {
      AnswerTracks(cfg, s.conn, r, o.ctx.request, result);
    }
  }

  lemma ReceiveTracks(cfg: Config, s: Session, r: Reader, a: Arrival)
    requires cfg.Valid() && Tracks(s, r) && Parsing(s.ctx)
    ensures HalfTracks(Receive(cfg, s, a), Read(Replies(cfg), r, a))
  {
    var input := s.input + a.bytes;
    if !s.crashed {
      AnsweredTracks(cfg, s.(input := input), r.(input := input), Parse(s.ctx, input, a.time), a.result);
    }
  }

  lemma WriteTracks(c: Conn, sent: string, closing: bool, polled: bool, room: Option<int>)
    requires MidTracks(c, sent, closing)
    ensures MidTracks(WriteTurn(c, polled, room), sent, closing)
  {
    if room.Some? { FlushedKeeps(c, Clamp(room.value, |c.out|)); }
  }

  lemma {:induction false} ClosesTrack(c: Conn, sent: string, closing: bool)
    requires MidTracks(c, sent, closing)
    ensures ConnTracks(RunCloses(c), sent, closing)
    decreases c.queuedCloses
  {
    if c.queuedCloses > 0 {
      StepKeeps(c, CloseTask);
      ClosesTrack(Step(c, CloseTask), sent, closing);
    }
  }

  predicate NoPeerClose(rounds: seq<Round>) {
    forall i | 0 <= i < |rounds| :: BytesOnly(rounds[i])
  }

  predicate BytesOnly(round: Round) { round.data.Some? ==> round.data.value.bytes != "" }

  lemma TurnTracks(cfg: Config, s: Session, r: Reader, round: Round)
    requires cfg.Valid() && Tracks(s, r) && Parsing(s.ctx) && BytesOnly(round)
    ensures Tracks(Turn(cfg, s, round), if Reads(s, round) then Read(Replies(cfg), r, round.data.value) else r)
  {
    var r' := if Reads(s, round) then Read(Replies(cfg), r, round.data.value) else r;
    var read := ReadTurn(cfg, s, round);
    if Reads(s, round) { ReceiveTracks(cfg, s, r, round.data.value); }
    if !read.crashed {
      var polled := s.conn.channel.events.write;
      WriteTracks(read.conn, r'.sent, r'.closing, polled, round.room);
      ClosesTrack(WriteTurn(read.conn, polled, round.room), r'.sent, r'.closing);
    }
  }

  /** What the network offers over the rounds, and what of it is read. */
  function Offered(rounds: seq<Round>): seq<Arrival> {
    if rounds == [] then []
    else (if rounds[0].data.Some? then [rounds[0].data.value] else []) + Offered(rounds[1..])
  }

  function Delivered(cfg: Config, s: Session, rounds: seq<Round>): seq<Arrival>
    requires cfg.Valid() && Parsing(s.ctx)
    decreases |rounds|
  {
    if rounds == [] then []
    else
      (if Reads(s, rounds[0]) then [rounds[0].data.value] else [])
      + Delivered(cfg, Turn(cfg, s, rounds[0]), rounds[1..])
  }

  lemma {:induction false} RunTracks(cfg: Config, s: Session, r: Reader, rounds: seq<Round>)
    requires cfg.Valid() && Tracks(s, r) && Parsing(s.ctx) && NoPeerClose(rounds)
    ensures Tracks(TurnAll(cfg, s, rounds), ReadAll(Replies(cfg), r, Delivered(cfg, s, rounds)))
    decreases |rounds|
  {
    if rounds != [] {
      var round, rest := rounds[0], rounds[1..];
      assert BytesOnly(round);
      NoPeerCloseLater(rounds);
      TurnTracks(cfg, s, r, round);
      var s' := Turn(cfg, s, round);
      if Reads(s, round) {
        RunTracks(cfg, s', Read(Replies(cfg), r, round.data.value), rest);
        var a := [round.data.value] + Delivered(cfg, s', rest);
        assert a[1..] == Delivered(cfg, s', rest);
      } else {
        RunTracks(cfg, s', r, rest);
        assert Delivered(cfg, s, rounds) == Delivered(cfg, s', rest);
      }
    }
  }

  lemma NoPeerCloseLater(rounds: seq<Round>)
    requires NoPeerClose(rounds) && rounds != []
    ensures NoPeerClose(rounds[1..])
  {
    forall i | 0 <= i < |rounds[1..]| ensures BytesOnly(rounds[1..][i]) { assert rounds[1..][i] == rounds[i + 1]; }
  }

  /** Nothing is read any more. */
  predicate Deaf(s: Session) { s.crashed || !s.conn.channel.events.read }

  lemma {:induction false} DeafStays(cfg: Config, s: Session, r: Reader, rounds: seq<Round>)
    requires cfg.Valid() && Tracks(s, r) && Parsing(s.ctx) && NoPeerClose(rounds) && Deaf(s)
    ensures Delivered(cfg, s, rounds) == [] && Deaf(TurnAll(cfg, s, rounds))
    decreases |rounds|
  {
    if rounds != [] {
      assert BytesOnly(rounds[0]);
      NoPeerCloseLater(rounds);
      TurnTracks(cfg, s, r, rounds[0]);
      DeafStays(cfg, Turn(cfg, s, rounds[0]), r, rounds[1..]);
    }
  }

  /** The arrivals read are the first of those offered: all of them, unless an assert
      has failed or the connection has gone down. */
  lemma {:induction false} ReadsAPrefix(cfg: Config, s: Session, r: Reader, rounds: seq<Round>)
    requires cfg.Valid() && Tracks(s, r) && Parsing(s.ctx) && NoPeerClose(rounds)
    ensures Delivered(cfg, s, rounds) <= Offered(rounds)
    ensures Delivered(cfg, s, rounds) == Offered(rounds) || Deaf(TurnAll(cfg, s, rounds))
    decreases |rounds|
  {
    if rounds != [] {
      var round := rounds[0];
      assert BytesOnly(round);
      NoPeerCloseLater(rounds);
      TurnTracks(cfg, s, r, round);
      if Deaf(s) {
        DeafStays(cfg, s, r, rounds);
      } else {
        var r' := if round.data.Some? then Read(Replies(cfg), r, round.data.value) else r;
        ReadsAPrefix(cfg, Turn(cfg, s, round), r', rounds[1..]);
      }
    }
  }

  /** What the wire decides. For any input, well-formed or not: parser, answers and
      failed asserts are those of the arrivals read, in order; these are all that
      were offered unless a close has been asked for. After that, how the socket
      takes the bytes decides how many more are read, and nothing else; when the
      connection goes down everything accepted has been written. */
  lemma WireOnlyEndsReading(cfg: Config, s: Session, r: Reader, rounds: seq<Round>)
    requires cfg.Valid() && Tracks(s, r) && Parsing(s.ctx) && NoPeerClose(rounds)
    ensures var s', heard := TurnAll(cfg, s, rounds), Delivered(cfg, s, rounds);
            var r' := ReadAll(Replies(cfg), r, heard);
            && heard <= Offered(rounds) && Tracks(s', r')
            && (heard == Offered(rounds) || s'.crashed || (r'.closing && s'.conn.written == s'.conn.accepted))
    ensures !ReadAll(Replies(cfg), r, Offered(rounds)).closing ==>
              Tracks(TurnAll(cfg, s, rounds), ReadAll(Replies(cfg), r, Offered(rounds)))
  {
    var s', heard := TurnAll(cfg, s, rounds), Delivered(cfg, s, rounds);
    RunTracks(cfg, s, r, rounds);
    ReadsAPrefix(cfg, s, r, rounds);
    if heard != Offered(rounds) {
      assert Offered(rounds) == heard + Offered(rounds)[|heard|..];
      ReadSplits(Replies(cfg), r, heard, Offered(rounds)[|heard|..]);
      ClosingStays(Replies(cfg), ReadAll(Replies(cfg), r, heard), Offered(rounds)[|heard|..]);
      if s'.crashed { CrashedReadsNothing(Replies(cfg), ReadAll(Replies(cfg), r, heard), Offered(rounds)[|heard|..]); }
      if !s'.crashed { assert s'.conn.state == Disconnected && s'.conn.written + "" == s'.conn.written; }
    }
  }

  lemma {:induction false} CrashedReadsNothing(h: Handler, r: Reader, arrivals: seq<Arrival>)
    requires Parsing(r.ctx) && r.crashed
    ensures ReadAll(h, r, arrivals) == r
    decreases |arrivals|
  {
    if arrivals != [] { CrashedReadsNothing(h, r, arrivals[1..]); }
  }

  // ----------------------------------------------------------- after a refusal

  /** Between rounds, whoever has closed. */
  predicate Between(c: Conn) { Inv(c) && c.state != Connecting && c.queuedCloses == 0 }

  lemma {:induction false} ClosesKeep(c: Conn)
    requires Inv(c) && c.state != Connecting
    ensures var c' := RunCloses(c);
            && Between(c') && Rank(c.state) <= Rank(c'.state)
            && (c.queuedCloses > 0 ==> c'.state != Connected)
    decreases c.queuedCloses
  {
    if c.queuedCloses > 0 {
      StepKeeps(c, CloseTask);
      ClosesKeep(Step(c, CloseTask));
    }
  }

  lemma HandledKeeps(cfg: Config, s: Session, o: Outcome, result: int)
    requires cfg.Valid() && Inv(s.conn) && s.conn.state != Connecting && !s.crashed
    ensures var c' := Handled(cfg, s, o, result).conn;
            && Inv(c') && Rank(s.conn.state) <= Rank(c'.state)
            && (o.verdict == Rejected && c'.state == Connected ==> c'.queuedCloses > 0)
  {
    if o.verdict == Rejected {
      StepKeeps(s.conn, Send(BAD_REQUEST, Clamp(result, |BAD_REQUEST|)));
    } else if o.verdict == Accepted && o.ctx.state == GotAll {
      var data := AnswerBytes(cfg, o.ctx.request);
      StepKeeps(s.conn, Send(data, Clamp(result, |data|)));
    }
  }

  /** This round makes the parser refuse a request. */
  predicate Refuses(s: Session, round: Round)
    requires Parsing(s.ctx)
  {
    CompletesBlank(s, round) && Refused(s, round).verdict == Rejected
  }

  /** Bytes are read, and the input then ends in a blank line. */
  predicate CompletesBlank(s: Session, round: Round) {
    Reads(s, round) && round.data.value.bytes != "" && EndsBlank(s.input + round.data.value.bytes)
  }

  function Refused(s: Session, round: Round): Outcome
    requires Parsing(s.ctx) && round.data.Some?
  {
    Parse(s.ctx, s.input + round.data.value.bytes, round.data.value.time)
  }

  /** The line refused had named a method. */
  predicate NamesMethod(s: Session, round: Round)
    requires Parsing(s.ctx)
  {
    round.data.Some? && Refused(s, round).ctx.request.verb != Invalid
  }

  lemma ReadKeepsConn(cfg: Config, s: Session, round: Round)
    requires cfg.Valid() && Parsing(s.ctx) && Between(s.conn)
    ensures var c' := ReadTurn(cfg, s, round).conn;
            && Inv(c') && Rank(s.conn.state) <= Rank(c'.state)
            && (ReadTurn(cfg, s, round).crashed ==> c' == s.conn)
            && (Refuses(s, round) && c'.state == Connected ==> c'.queuedCloses > 0)
  {
    if Reads(s, round) {
      if round.data.value.bytes == "" {
        StepKeeps(s.conn, PeerClosed);
      } else {
        var input := s.input + round.data.value.bytes;
        HandledKeeps(cfg, s.(input := input), Refused(s, round), round.data.value.result);
      }
    }
  }

  /** A refusal is always followed by the close, in the same round. */
  lemma TurnKeepsConn(cfg: Config, s: Session, round: Round)
    requires cfg.Valid() && Parsing(s.ctx) && Between(s.conn)
    ensures var c' := Turn(cfg, s, round).conn;
            && Between(c') && Rank(s.conn.state) <= Rank(c'.state)
            && (Refuses(s, round) && !Turn(cfg, s, round).crashed ==> c'.state != Connected)
  {
    var read := ReadTurn(cfg, s, round);
    ReadKeepsConn(cfg, s, round);
    if !read.crashed {
      var polled := s.conn.channel.events.write;
      if round.room.Some? { FlushedKeeps(read.conn, Clamp(round.room.value, |read.conn.out|)); }
      ClosesKeep(WriteTurn(read.conn, polled, round.room));
    }
  }

  /** A refused line still heads the input, and the context remembers its method. */
  predicate Stuck(ctx: Context, input: string) {
    && ctx.state == ExpectRequestLine
    && FindCrlf(input).Some?
    && var again := RequestLine(ctx.request, input[..FindCrlf(input).value]);
       if ctx.request.verb != Invalid then again.0 == Aborted else again == (Rejected, ctx.request)
  }

  lemma RejectedIsStuck(r: Request, line: string)
    requires r.verb == Invalid && RequestLine(r, line).0 == Rejected
    ensures var r' := RequestLine(r, line).1;
            var again := RequestLine(r', line);
            if r'.verb != Invalid then again.0 == Aborted else again == (Rejected, r')
  {
  }

  lemma StuckStays(ctx: Context, input: string, more: string)
    requires Stuck(ctx, input)
    ensures Stuck(ctx, input + more)
  {
    CrlfStable(input, more);
    var end := FindCrlf(input).value;
    assert (input + more)[..end] == input[..end];
  }

  /** What a round does to a parser at rest. */
  lemma RestingTurn(cfg: Config, s: Session, round: Round)
    requires cfg.Valid() && Resting(s.ctx) && !s.crashed
    ensures var s' := Turn(cfg, s, round);
            && !s'.crashed
            && (if Refuses(s, round)
                then Stuck(s'.ctx, s'.input) && (s'.ctx.request.verb != Invalid <==> NamesMethod(s, round))
                else Resting(s'.ctx))
  {
    if CompletesBlank(s, round) {
      var input, time := s.input + round.data.value.bytes, round.data.value.time;
      GateDecides(s.ctx, input, time);
      if Refuses(s, round) {
        RejectedAtOnce(s.ctx, input, time);
        RejectedIsStuck(s.ctx.request, input[..FindCrlf(input).value]);
      }
    }
  }

  /** And to one that is stuck. */
  lemma StuckTurn(cfg: Config, s: Session, round: Round)
    requires cfg.Valid() && Stuck(s.ctx, s.input) && !s.crashed
    ensures var s' := Turn(cfg, s, round);
            && (s'.crashed <==> CompletesBlank(s, round) && s.ctx.request.verb != Invalid)
            && (!s'.crashed ==> s'.ctx == s.ctx && Stuck(s'.ctx, s'.input))
  {
    if Reads(s, round) && round.data.value.bytes != "" {
      var input := s.input + round.data.value.bytes;
      StuckStays(s.ctx, s.input, round.data.value.bytes);
      var end := FindCrlf(input).value;
      if EndsBlank(input) { ParseStep(s.ctx, input, end, input[..end], round.data.value.time); }
    }
  }

  /** Some round still reads bytes that complete a blank line. */
  predicate BlankLater(cfg: Config, s: Session, rounds: seq<Round>)
    requires cfg.Valid() && Parsing(s.ctx)
    decreases |rounds|
  {
    rounds != [] && (CompletesBlank(s, rounds[0]) || BlankLater(cfg, Turn(cfg, s, rounds[0]), rounds[1..]))
  }

  /** The first request refused has a known method; when the close functor of that
      round has run, output still waits; and a later round completes a blank line. */
  predicate Fatal(cfg: Config, s: Session, rounds: seq<Round>)
    requires cfg.Valid() && Parsing(s.ctx)
    decreases |rounds|
  {
    rounds != [] &&
    var s', rest := Turn(cfg, s, rounds[0]), rounds[1..];
    if Refuses(s, rounds[0]) then NamesMethod(s, rounds[0]) && s'.conn.out != "" && BlankLater(cfg, s', rest)
    else Fatal(cfg, s', rest)
  }

  lemma {:induction false} CrashStays(cfg: Config, s: Session, rounds: seq<Round>)
    requires cfg.Valid() && Parsing(s.ctx) && s.crashed
    ensures TurnAll(cfg, s, rounds).crashed
    decreases |rounds|
  {
    if rounds != [] { CrashStays(cfg, Turn(cfg, s, rounds[0]), rounds[1..]); }
  }

  lemma {:induction false} StuckRun(cfg: Config, s: Session, rounds: seq<Round>)
    requires cfg.Valid() && Stuck(s.ctx, s.input) && !s.crashed
    ensures TurnAll(cfg, s, rounds).crashed <==> s.ctx.request.verb != Invalid && BlankLater(cfg, s, rounds)
    decreases |rounds|
  {
    if rounds != [] {
      var s' := Turn(cfg, s, rounds[0]);
      StuckTurn(cfg, s, rounds[0]);
      if s'.crashed { CrashStays(cfg, s', rounds[1..]); } else { StuckRun(cfg, s', rounds[1..]); }
    }
  }

  lemma DownTurn(cfg: Config, s: Session, round: Round)
    requires cfg.Valid() && Parsing(s.ctx) && Between(s.conn) && s.conn.state == Disconnected
    ensures Turn(cfg, s, round) == s
  {
  }

  /** A connection that is down reads nothing more. */
  lemma {:induction false} DownIsQuiet(cfg: Config, s: Session, rounds: seq<Round>)
    requires cfg.Valid() && Parsing(s.ctx) && Between(s.conn) && s.conn.state == Disconnected
    ensures !BlankLater(cfg, s, rounds)
    decreases |rounds|
  {
    if rounds != [] {
      DownTurn(cfg, s, rounds[0]);
      DownIsQuiet(cfg, s, rounds[1..]);
    }
  }

  /** Over any rounds, peer closes included, an assert fails exactly when the first
      request refused has a known method, output still waited when the close functor
      behind the refusal ran, and bytes read later complete a blank line. */
  lemma {:induction false} CrashesIff(cfg: Config, s: Session, rounds: seq<Round>)
    requires cfg.Valid() && Resting(s.ctx) && !s.crashed && Between(s.conn)
    ensures TurnAll(cfg, s, rounds).crashed <==> Fatal(cfg, s, rounds)
    decreases |rounds|
  {
    if rounds != [] {
      var s', rest := Turn(cfg, s, rounds[0]), rounds[1..];
      RestingTurn(cfg, s, rounds[0]);
      TurnKeepsConn(cfg, s, rounds[0]);
      if Refuses(s, rounds[0]) {
        StuckRun(cfg, s', rest);
        if s'.conn.out == "" { DownIsQuiet(cfg, s', rest); }
      } else {
        CrashesIff(cfg, s', rest);
      }
    }
  }

  predicate NeverRefuses(cfg: Config, s: Session, rounds: seq<Round>)
    requires cfg.Valid() && Parsing(s.ctx)
    decreases |rounds|
  {
    rounds == [] || (!Refuses(s, rounds[0]) && NeverRefuses(cfg, Turn(cfg, s, rounds[0]), rounds[1..]))
  }

  /** However long the conversation, up to the first refused request no assert fails
      and the parser is at rest between messages. */
  lemma {:induction false} NoCrashBeforeRejection(cfg: Config, s: Session, rounds: seq<Round>)
    requires cfg.Valid() && Resting(s.ctx) && !s.crashed && NeverRefuses(cfg, s, rounds)
    ensures Resting(TurnAll(cfg, s, rounds).ctx) && !TurnAll(cfg, s, rounds).crashed
    decreases |rounds|
  {
    if rounds != [] {
      RestingTurn(cfg, s, rounds[0]);
      NoCrashBeforeRejection(cfg, Turn(cfg, s, rounds[0]), rounds[1..]);
    }
  }

  /** A new connection, as `onConnection` leaves it. */
  const NEW_SESSION := Session(Context(ExpectRequestLine, EMPTY_REQUEST), "", Step(NEW_CONN, Establish), false)

  function Bring(bytes: string, result: int): Round { Round(Some(Arrival(bytes, 0, result)), None) }

  /** A request line that ends after the path is refused with its method set. */
  lemma ShortLineRefused(line: string, s: string)
    requires line == "GET /" && s == line + CRLF + CRLF
    ensures EndsBlank(s) && Parse(NEW_SESSION.ctx, s, 0)
            == Outcome(Rejected, Context(ExpectRequestLine, EMPTY_REQUEST.(verb := Get)), s)
  {
    NoCrLineOk(line);
    LineEnd(line, CRLF);
    AfterLine(line, CRLF);
    ParseStep(NEW_SESSION.ctx, s, |line|, line, 0);
    assert line == "GET" + [' '] + "/";
    FindAfter("GET", ' ', "/");
    assert line[..3] == "GET" && line[4..] == "/";
    FindAbsent("/", ' ');
    assert s[|s| - 4..] == CRLF + CRLF;
  }

  lemma RefusalRound(cfg: Config, get: string, result: int)
    requires cfg.Valid() && get == "GET /" + CRLF + CRLF
    ensures var s := Turn(cfg, NEW_SESSION, Bring(get, result));
            && s.ctx == Context(ExpectRequestLine, EMPTY_REQUEST.(verb := Get)) && s.input == get && !s.crashed
            && s.conn == RunCloses(Step(SendAll(NEW_SESSION.conn, BAD_REQUEST, result), CloseRequest))
            && Refuses(NEW_SESSION, Bring(get, result)) && NamesMethod(NEW_SESSION, Bring(get, result))
  {
    ShortLineRefused("GET /", get);
    assert "" + get == get;
  }

  lemma RefusalSent(c: Conn, n: nat)
    requires c == NEW_SESSION.conn && n == |BAD_REQUEST|
    ensures var sent := RunCloses(Step(SendAll(c, BAD_REQUEST, n), CloseRequest));
            sent.state == Disconnected && sent.written == BAD_REQUEST && Between(sent)
    ensures var kept := RunCloses(Step(SendAll(c, BAD_REQUEST, -1), CloseRequest));
            kept.state == Disconnecting && kept.out == BAD_REQUEST && kept.channel.events.read && Between(kept)
  {
    assert BAD_REQUEST[..n] == BAD_REQUEST && BAD_REQUEST[n..] == "";
    assert BAD_REQUEST[..0] == "" && BAD_REQUEST[0..] == BAD_REQUEST;
    SendAlone(c, n);
    SendAlone(c, -1);
  }

  lemma SendAlone(c: Conn, result: int)
    requires c == NEW_SESSION.conn && (result == -1 || result == |BAD_REQUEST|)
    ensures var asked := Step(SendAll(c, BAD_REQUEST, result), CloseRequest);
            && asked.queuedCloses == 1 && asked.state == Connected && Inv(asked)
            && asked.channel.writing == (result == -1)
            && RunCloses(asked) == CloseTaskRun(asked.(queuedCloses := 0))
  {
    StepKeeps(c, Send(BAD_REQUEST, result));
    StepKeeps(SendAll(c, BAD_REQUEST, result), CloseRequest);
  }

  lemma UnsentRefusal(cfg: Config, get: string, n: int)
    requires cfg.Valid() && get == "GET /" + CRLF + CRLF && n == -1
    ensures TurnAll(cfg, NEW_SESSION, [Bring(get, n), Bring(CRLF, 0)]).crashed
  {
    RefusalSent(NEW_SESSION.conn, |BAD_REQUEST|);
    RefusalRound(cfg, get, n);
    BlankAgain(cfg, Turn(cfg, NEW_SESSION, Bring(get, n)), get);
    TwoRounds(cfg, NEW_SESSION, Bring(get, n), Bring(CRLF, 0));
  }

  lemma SentRefusal(cfg: Config, get: string, n: int)
    requires cfg.Valid() && get == "GET /" + CRLF + CRLF && n == |BAD_REQUEST|
    ensures var s := TurnAll(cfg, NEW_SESSION, [Bring(get, n), Bring(CRLF, 0)]);
            !s.crashed && s.conn.state == Disconnected && s.conn.written == BAD_REQUEST
  {
    RefusalSent(NEW_SESSION.conn, n);
    RefusalRound(cfg, get, n);
    var s := Turn(cfg, NEW_SESSION, Bring(get, n));
    DownTurn(cfg, s, Bring(CRLF, 0));
    TwoRounds(cfg, NEW_SESSION, Bring(get, n), Bring(CRLF, 0));
  }

  /** The same bytes over the same rounds, from a new connection: if the socket takes
      the refusal at once, the connection goes down and nothing happens; if it does
      not, the next blank line fails the assert. */
  lemma WireDecidesCrash(cfg: Config, get: string, none: int, whole: int)
    requires cfg.Valid() && get == "GET /" + CRLF + CRLF && none == -1 && whole == |BAD_REQUEST|
    ensures TurnAll(cfg, NEW_SESSION, [Bring(get, none), Bring(CRLF, 0)]).crashed
    ensures var s := TurnAll(cfg, NEW_SESSION, [Bring(get, whole), Bring(CRLF, 0)]);
            !s.crashed && s.conn.state == Disconnected && s.conn.written == BAD_REQUEST
  {
    UnsentRefusal(cfg, get, none);
    SentRefusal(cfg, get, whole);
  }

  lemma TwoRounds(cfg: Config, s: Session, a: Round, b: Round)
    requires cfg.Valid() && Parsing(s.ctx)
    ensures TurnAll(cfg, s, [a, b]) == Turn(cfg, Turn(cfg, s, a), b)
  {
    var s' := Turn(cfg, s, a);
    assert [a, b][1..] == [b] && [b][1..] == [];
    assert TurnAll(cfg, s', [b]) == TurnAll(cfg, Turn(cfg, s', b), []);
  }

  lemma BlankAgain(cfg: Config, s: Session, get: string)
    requires cfg.Valid() && get == "GET /" + CRLF + CRLF && s.input == get && !s.crashed
    requires s.ctx == Context(ExpectRequestLine, EMPTY_REQUEST.(verb := Get)) && s.conn.channel.events.read
    ensures Turn(cfg, s, Bring(CRLF, 0)).crashed
  {
    var line := "GET /";
    assert get == line + CRLF + CRLF;
    NoCrLineOk(line);
    LineEnd(line, CRLF);
    AfterLine(line, CRLF);
    FindAfter("GET", ' ', "/");
    assert line == "GET" + [' '] + "/";
    assert Stuck(s.ctx, s.input);
    var input := get + CRLF;
    assert input[|input| - 4..] == CRLF + CRLF;
    StuckTurn(cfg, s, Bring(CRLF, 0));
  }

  // ------------------------------------------------------- serving a request

  function Bytes(arrivals: seq<Arrival>): string {
    if arrivals == [] then "" else arrivals[0].bytes + Bytes(arrivals[1..])
  }

  /** No proper prefix of a well-formed request passes the gate. */
  lemma PrefixWaits(ctx: Context, r: Request, fields: seq<Field>, a: string, b: string)
    requires Resting(ctx) && WellFormed(r, fields) && a + b == Render(r, fields) && b != ""
    ensures !EndsBlank(a)
  {
    if EndsBlank(a) {
      GateDecides(ctx, a, 0);
      SplitOnce(ctx, a, b, 0, 0, 0);
      assert a + b + "" == a + b;
      RequestRoundTrip(ctx, r, fields, "", 0);
      assert false;
    }
  }

  /** The arrival that completes a request. */
  lemma ReadLast(h: Handler, r: Reader, q: Request, fields: seq<Field>, a: Arrival)
    requires Resting(r.ctx) && !r.crashed && WellFormed(q, fields)
    requires r.input + a.bytes == Render(q, fields)
    ensures var seen := q.(receiveTime := a.time);
            Read(h, r, a)
            == Say(r, h(seen).bytes, h(seen).close)
               .(ctx := Rest(Context(GotAll, q)), input := "")
  {
    RequestRoundTrip(r.ctx, q, fields, "", a.time);
    assert Render(q, fields) + "" == r.input + a.bytes;
    RenderEndsBlank(q, fields);
  }

  lemma ReadsOnly(h: Handler, r: Reader, arrivals: seq<Arrival>, a: Arrival)
    requires Parsing(r.ctx) && arrivals == [a]
    ensures ReadAll(h, r, arrivals) == Read(h, r, a)
  {
    assert arrivals[1..] == [];
  }

  lemma ReadsFirst(h: Handler, r: Reader, arrivals: seq<Arrival>)
    requires Parsing(r.ctx) && !r.crashed && arrivals != [] && !EndsBlank(r.input + arrivals[0].bytes)
    ensures ReadAll(h, r, arrivals) == ReadAll(h, r.(input := r.input + arrivals[0].bytes), arrivals[1..])
  {
  }

  /** A request that arrives in any pieces is answered once, when its last byte is
      there; the handler sees exactly that request, and the parser is at rest again. */
  lemma {:induction false} ReadsRequest(h: Handler, r: Reader, q: Request, fields: seq<Field>, arrivals: seq<Arrival>)
    requires Resting(r.ctx) && !r.crashed && WellFormed(q, fields)
    requires arrivals != [] && r.input + Bytes(arrivals) == Render(q, fields)
    requires forall i | 0 <= i < |arrivals| :: arrivals[i].bytes != ""
    ensures var seen := q.(receiveTime := arrivals[|arrivals| - 1].time);
            ReadAll(h, r, arrivals)
            == Say(r, h(seen).bytes, h(seen).close)
               .(ctx := Rest(Context(GotAll, q)), input := "")
    decreases |arrivals|
  {
    var a, tail := arrivals[0], arrivals[1..];
    assert r.input + a.bytes + Bytes(tail) == r.input + Bytes(arrivals);
    if tail == [] {
      assert r.input + a.bytes + "" == r.input + a.bytes;
      ReadLast(h, r, q, fields, a);
      ReadsOnly(h, r, arrivals, a);
    } else {
      RequestWaits(h, r, q, fields, arrivals);
      ReadsRequest(h, r.(input := r.input + a.bytes), q, fields, tail);
    }
  }

  lemma RequestWaits(h: Handler, r: Reader, q: Request, fields: seq<Field>, arrivals: seq<Arrival>)
    requires Resting(r.ctx) && !r.crashed && WellFormed(q, fields) && |arrivals| > 1 && arrivals[1].bytes != ""
    requires r.input + arrivals[0].bytes + Bytes(arrivals[1..]) == Render(q, fields)
    ensures ReadAll(h, r, arrivals) == ReadAll(h, r.(input := r.input + arrivals[0].bytes), arrivals[1..])
  {
    BytesNonempty(arrivals[1..], 0);
    PrefixWaits(r.ctx, q, fields, r.input + arrivals[0].bytes, Bytes(arrivals[1..]));
    ReadsFirst(h, r, arrivals);
  }

  lemma BytesNonempty(arrivals: seq<Arrival>, i: nat)
    requires i == 0 < |arrivals| && arrivals[i].bytes != ""
    ensures Bytes(arrivals) != ""
  {
  }

  // ------------------------------------------------------------ conversations

  datatype Exchange = Exchange(request: Request, fields: seq<Field>, arrivals: seq<Arrival>)

  /** One well-formed request, cut into nonempty arrivals. */
  ghost predicate ExchangeOk(x: Exchange) {
    && WellFormed(x.request, x.fields) && x.arrivals != []
    && Bytes(x.arrivals) == Render(x.request, x.fields)
    && (forall i | 0 <= i < |x.arrivals| :: x.arrivals[i].bytes != "")
  }

  ghost predicate AllOk(xs: seq<Exchange>) {
    xs == [] || (ExchangeOk(xs[0]) && AllOk(xs[1..]))
  }

  /** The request as the handler sees it. */
  function Seen(x: Exchange): Request
  {
    if x.arrivals == [] then x.request else x.request.(receiveTime := x.arrivals[|x.arrivals| - 1].time)
  }

  function AllArrivals(xs: seq<Exchange>): seq<Arrival> {
    if xs == [] then [] else xs[0].arrivals + AllArrivals(xs[1..])
  }

  function AllAnswers(h: Handler, xs: seq<Exchange>): string {
    if xs == [] then ""
    else h(Seen(xs[0])).bytes + AllAnswers(h, xs[1..])
  }

  predicate Closes(h: Handler, x: Exchange) {
    h(Seen(x)).close
  }

  /** The exchanges up to and including the first whose answer closes. */
  function UpToClose(h: Handler, xs: seq<Exchange>): (ys: seq<Exchange>)
    ensures ys <= xs
  {
    if xs == [] then []
    else [xs[0]] + (if Closes(h, xs[0]) then [] else UpToClose(h, xs[1..]))
  }

  predicate SomeCloses(h: Handler, xs: seq<Exchange>) {
    xs != [] && (Closes(h, xs[0]) || SomeCloses(h, xs[1..]))
  }

  predicate ReaderReady(r: Reader) { Resting(r.ctx) && !r.crashed && r.input == "" }

  lemma ReadsExchange(h: Handler, r: Reader, x: Exchange)
    requires ReaderReady(r) && ExchangeOk(x)
    ensures var r' := ReadAll(h, r, x.arrivals);
            && ReaderReady(r')
            && r'.closing == (r.closing || Closes(h, x))
            && r'.sent == if r.closing then r.sent else r.sent + h(Seen(x)).bytes
  {
    assert r.input + Bytes(x.arrivals) == Bytes(x.arrivals);
    ReadsRequest(h, r, x.request, x.fields, x.arrivals);
  }

  lemma {:induction false} ReadsConversation(h: Handler, r: Reader, xs: seq<Exchange>)
    requires ReaderReady(r) && AllOk(xs)
    ensures var r' := ReadAll(h, r, AllArrivals(xs));
            && ReaderReady(r')
            && r'.closing == (r.closing || SomeCloses(h, xs))
            && r'.sent == if r.closing then r.sent else r.sent + AllAnswers(h, UpToClose(h, xs))
    decreases |xs|
  {
    if xs == [] {
      assert r.sent + "" == r.sent;
    } else {
      var x, rest := xs[0], xs[1..];
      var r1 := ReadAll(h, r, x.arrivals);
      ReadsExchange(h, r, x);
      ReadSplits(h, r, x.arrivals, AllArrivals(rest));
      ReadsConversation(h, r1, rest);
      AnswersFirst(h, r.sent, xs);
    }
  }

  lemma AnswersFirst(h: Handler, sent: string, xs: seq<Exchange>)
    requires xs != []
    ensures sent + AllAnswers(h, UpToClose(h, xs))
            == sent + h(Seen(xs[0])).bytes
               + (if Closes(h, xs[0]) then "" else AllAnswers(h, UpToClose(h, xs[1..])))
  {
    var ys := UpToClose(h, xs);
    assert ys[0] == xs[0] && ys[1..] == if Closes(h, xs[0]) then [] else UpToClose(h, xs[1..]);
  }

  /** The state in which a connection waits for its next request. */
  predicate Ready(s: Session) {
    && Resting(s.ctx) && !s.crashed && s.input == ""
    && Inv(s.conn) && s.conn.state == Connected && s.conn.queuedCloses == 0
  }

  /** A whole conversation, over any rounds that offer its bytes: the answers up to
      and including the first that closes are accepted, once each and in order, and
      nothing else ever is; what is written and what still waits are together what
      was accepted; once the connection is down all of it has been written. */
  lemma ServesConversation(cfg: Config, s: Session, xs: seq<Exchange>, rounds: seq<Round>)
    requires cfg.Valid() && Ready(s) && Offered(rounds) == AllArrivals(xs)
    requires AllOk(xs)
    ensures var s' := TurnAll(cfg, s, rounds);
            && !s'.crashed
            && s'.conn.accepted == s.conn.accepted + AllAnswers(Replies(cfg), UpToClose(Replies(cfg), xs))
            && s'.conn.written + s'.conn.out == s'.conn.accepted
            && (s'.conn.state == Connected <==> !SomeCloses(Replies(cfg), xs))
            && (s'.conn.state == Connected ==> Ready(s'))
            && (s'.conn.state == Disconnected ==> s'.conn.written == s'.conn.accepted)
  {
    var r := Reader(s.ctx, s.input, false, s.conn.accepted, false);
    var s', heard := TurnAll(cfg, s, rounds), Delivered(cfg, s, rounds);
    OfferedBytes(xs, rounds);
    RunTracks(cfg, s, r, rounds);
    ReadsAPrefix(cfg, s, r, rounds);
    ReadsConversation(Replies(cfg), r, xs);
    PrefixDecides(Replies(cfg), r, heard, AllArrivals(xs));
    assert s'.conn.out == "" ==> s'.conn.written + "" == s'.conn.written;
  }

  /** If reading has stopped before the end, it is because a close was asked for. */
  lemma PrefixDecides(h: Handler, r: Reader, heard: seq<Arrival>, all: seq<Arrival>)
    requires Parsing(r.ctx) && heard <= all && !ReadAll(h, r, all).crashed
    ensures var r', full := ReadAll(h, r, heard), ReadAll(h, r, all);
            && !r'.crashed && (r'.closing ==> full.closing && full.sent == r'.sent)
  {
    assert all == heard + all[|heard|..];
    ReadSplits(h, r, heard, all[|heard|..]);
    ClosingStays(h, ReadAll(h, r, heard), all[|heard|..]);
  }

  lemma {:induction false} ArrivalsHaveBytes(xs: seq<Exchange>)
    requires AllOk(xs)
    ensures forall i | 0 <= i < |AllArrivals(xs)| :: AllArrivals(xs)[i].bytes != ""
    decreases |xs|
  {
    if xs != [] {
      ArrivalsHaveBytes(xs[1..]);
    }
  }

  lemma OfferedBytes(xs: seq<Exchange>, rounds: seq<Round>)
    requires Offered(rounds) == AllArrivals(xs) && AllOk(xs)
    ensures NoPeerClose(rounds)
  {
    ArrivalsHaveBytes(xs);
    OfferedHaveBytes(rounds);
  }

  lemma {:induction false} OfferedHaveBytes(rounds: seq<Round>)
    requires forall i | 0 <= i < |Offered(rounds)| :: Offered(rounds)[i].bytes != ""
    ensures NoPeerClose(rounds)
  {
    if rounds != [] {
      var all, rest := Offered(rounds), Offered(rounds[1..]);
      forall i | 0 <= i < |rest| ensures rest[i].bytes != "" {
        assert rest[i] == all[|all| - |rest| + i];
      }
      OfferedHaveBytes(rounds[1..]);
      assert rounds[0].data.Some? ==> all[0] == rounds[0].data.value;
      forall i | 0 <= i < |rounds| ensures BytesOnly(rounds[i]) {
        if i > 0 { assert rounds[i] == rounds[1..][i - 1]; }
      }
    }
  }

  lemma {:induction false} RenderEndsBlank(r: Request, fields: seq<Field>)
    requires WellFormed(r, fields)
    ensures EndsBlank(Render(r, fields))
  {
    FieldsEnd(fields);
    var s := Render(r, fields);
    var body := StartLine(r) + CRLF + RenderFields(fields);
    assert s == body + CRLF;
    assert body[|body| - 2..] == CRLF by {
      if fields == [] {
        assert body == StartLine(r) + CRLF;
      } else {
        var f := RenderFields(fields);
        assert body == (StartLine(r) + CRLF + f[..|f| - 2]) + f[|f| - 2..];
      }
    }
    assert s[|s| - 4..] == body[|body| - 2..] + CRLF;
  }

  lemma {:induction false} FieldsEnd(fields: seq<Field>)
    ensures fields != [] ==> var f := RenderFields(fields); |f| >= 2 && f[|f| - 2..] == CRLF
    decreases |fields|
  {
    if fields != [] {
      FieldsEnd(fields[1..]);
      var f, rest := RenderFields(fields), RenderFields(fields[1..]);
      if fields[1..] == [] {
        assert f == FieldLine(fields[0]) + CRLF;
      } else {
        assert f == (FieldLine(fields[0]) + CRLF + rest[..|rest| - 2]) + rest[|rest| - 2..];
      }
    }
  }

  /** When the answer asks for a close, every later run without abrupt events that
      ends with the connection closed has put the whole answer on the wire, right
      behind everything accepted before it. */
  lemma ClosingAnswerDelivered(cfg: Config, c: Conn, r: Request, result: int, run: seq<Event>)
    requires cfg.Valid() && Inv(c) && c.state == Connected
    requires PossibleRun(Respond(cfg, c, r, result), run)
    requires forall i | 0 <= i < |run| :: !Abrupt(run[i])
    ensures var c' := After(Respond(cfg, c, r, result), run);
            && c.accepted + AnswerBytes(cfg, r) <= c'.accepted
            && (c'.state == Disconnected ==> c.accepted + AnswerBytes(cfg, r) <= c'.written)
  {
    RespondAccepts(cfg, c, r, result);
    AnswerDelivered(Respond(cfg, c, r, result), run);
  }

  lemma AnswerDelivered(c: Conn, run: seq<Event>)
    requires Inv(c) && c.state == Connected && PossibleRun(c, run)
    requires forall i | 0 <= i < |run| :: !Abrupt(run[i])
    ensures var c' := After(c, run);
            c.accepted <= c'.accepted && (c'.state == Disconnected ==> c.accepted <= c'.written)
  {
    RunKeeps(c, run);
    PoliteRunDrains(c, run);
  }

}
