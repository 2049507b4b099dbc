/** The server as a client meets it: text in, and what becomes of the connection,
    for whatever rounds of the loop carry the text. */
module ClientViews {
  import opened Text
  import opened Buffers
  import opened HttpRequests
  import opened HttpContexts
  import opened HttpGrammar
  import opened HttpRoundTrip
  import opened HttpResponses
  import opened ConnectionStates
  import opened TcpConnections
  import opened Channels
  import opened HttpServers
  import opened HttpConversations

  // -------------------------------------------------------------- what is answered

  /** The value of the last field of that name. */
  function LastOf(fields: seq<Field>, name: string): Option<string> {
    if fields == [] then None
    else if fields[|fields| - 1].name == name then Some(fields[|fields| - 1].value)
    else LastOf(fields[..|fields| - 1], name)
  }

  lemma {:induction false} CollectLast(headers: map<string, string>, fields: seq<Field>, name: string)
    ensures var got := Collect(headers, fields);
            match LastOf(fields, name)
            case None => (name in got <==> name in headers) && (name in got ==> got[name] == headers[name])
            case Some(value) => name in got && got[name] == value
    decreases |fields|
  {
    if fields != [] {
      var init, last := fields[..|fields| - 1], fields[|fields| - 1];
      assert fields == init + [last];
      CollectLast(headers, init, name);
      CollectAppend(headers, init, [last]);
      assert [last][1..] == [];
    }
  }

  /** The reply is the callback's response to this very request, printed; the response
      it is given is empty but for the close flag: set for "Connection: close", and
      for HTTP/1.0 without "Connection: Keep-Alive". */
  lemma ReplyMeans(cfg: Config, q: Request)
    requires cfg.Valid()
    ensures var said := if "Connection" in q.headers then Some(q.headers["Connection"]) else None;
            var close := said == Some("close") || (q.version == Http10 && said != Some("Keep-Alive"));
            var a := cfg.handler(q, Response(map[], 0, "", close, ""));
            OrderOf(cfg.iterate(a.headers), a.headers)
            && Replies(cfg)(q) == Reply(ResponseBytes(a, cfg.iterate(a.headers)), a.closeConnection)
  {
    assert "close" != "" && "Keep-Alive" != "";
  }

  // ----------------------------------------------------------- keeping the connection

  ghost predicate LeavesFlag(cfg: Config) {
    forall q, r :: cfg.handler(q, r).closeConnection == r.closeConnection
  }

  predicate Stays(protocol: string, connection: Option<string>) {
    if protocol == "HTTP/1.1" then connection != Some("close") else connection == Some("Keep-Alive")
  }

  /** The text of a request. */
  function RequestText(name: string, target: string, protocol: string, fields: seq<Field>): string {
    name + " " + target + " " + protocol + CRLF + RenderFields(fields) + CRLF
  }

  predicate TextOk(name: string, target: string, protocol: string) {
    Name(name) && ' ' !in target && '\r' !in target && Protocol(protocol)
  }

  function PathOf(target: string): string { target[..Find(target, '?')] }

  function QueryOf(target: string): string { target[Find(target, '?')..] }

  function RequestOf(name: string, target: string, protocol: string, fields: seq<Field>): Request {
    Request(MethodOf(name), VersionOf(protocol), PathOf(target), QueryOf(target), 0, Collect(map[], fields))
  }

  lemma MethodNamed(name: string)
    requires Name(name)
    ensures MethodOf(name) != Invalid && MethodName(MethodOf(name)) == name
  {
  }

  lemma ProtocolNamed(protocol: string)
    requires Protocol(protocol)
    ensures VersionOf(protocol) != Unknown && VersionName(VersionOf(protocol)) == protocol
  {
    ProtocolKnown(protocol);
  }

  lemma TargetParts(target: string)
    ensures var path, query := PathOf(target), QueryOf(target);
            && path + query == target && '?' !in path && (query == "" || query[0] == '?')
  {
    FindIsFirst(target, '?');
  }

  lemma TextIsRender(name: string, target: string, protocol: string, fields: seq<Field>)
    requires TextOk(name, target, protocol) && FieldsOk(fields)
    ensures WellFormed(RequestOf(name, target, protocol, fields), fields)
    ensures Render(RequestOf(name, target, protocol, fields), fields) == RequestText(name, target, protocol, fields)
  {
    var q := RequestOf(name, target, protocol, fields);
    MethodNamed(name);
    ProtocolNamed(protocol);
    TargetParts(target);
    assert forall c | c in q.path || c in q.query :: c in target;
    StartJoined(name, q.path, q.query, target, protocol);
  }

  lemma StartJoined(name: string, path: string, query: string, target: string, protocol: string)
    requires path + query == target
    ensures name + " " + path + query + " " + protocol == name + " " + target + " " + protocol
  {
    Assoc(name + " ", path, query);
  }

  /** The rounds offer just that text, in whatever pieces. */
  predicate Brings(rounds: seq<Round>, text: string) {
    Bytes(Offered(rounds)) == text && forall i | 0 <= i < |Offered(rounds)| :: Offered(rounds)[i].bytes != ""
  }

  /** Over any rounds that bring the text, the connection ends up staying or closing as
      protocol and last Connection field say, if the callback leaves the flag alone. */
  lemma KeptAsAsked(cfg: Config, name: string, target: string, protocol: string, fields: seq<Field>, rounds: seq<Round>)
    requires cfg.Valid() && LeavesFlag(cfg) && TextOk(name, target, protocol) && FieldsOk(fields)
    requires Brings(rounds, RequestText(name, target, protocol, fields))
    ensures var s := TurnAll(cfg, NEW_SESSION, rounds);
            !s.crashed && (s.conn.state == Connected <==> Stays(protocol, LastOf(fields, "Connection")))
  {
    var q := RequestOf(name, target, protocol, fields);
    var x := Exchange(q, fields, Offered(rounds));
    TextIsRender(name, target, protocol, fields);
    assert ExchangeOk(x) && [x][1..] == [];
    assert AllArrivals([x]) == x.arrivals + [] == Offered(rounds);
    ServesConversation(cfg, NEW_SESSION, [x], rounds);
    FlagDecided(cfg, Seen(x), protocol, fields);
    assert SomeCloses(Replies(cfg), [x]) <==> Closes(Replies(cfg), x);
  }

  lemma FlagDecided(cfg: Config, q: Request, protocol: string, fields: seq<Field>)
    requires cfg.Valid() && LeavesFlag(cfg) && Protocol(protocol)
    requires q.version == VersionOf(protocol) && q.headers == Collect(map[], fields)
    ensures Replies(cfg)(q).close <==> !Stays(protocol, LastOf(fields, "Connection"))
  {
    ReplyMeans(cfg, q);
    ProtocolKnown(protocol);
    CollectLast(map[], fields, "Connection");
  }

  ghost predicate Kept(cfg: Config, rounds: seq<Round>)
    requires cfg.Valid()
  {
    TurnAll(cfg, NEW_SESSION, rounds).conn.state == Connected
  }

  /** In plain text. */
  lemma Plain11Stays(cfg: Config, rounds: seq<Round>, text: string)
    requires cfg.Valid() && LeavesFlag(cfg) && Brings(rounds, text) && text == "GET / HTTP/1.1\r\n\r\n"
    ensures Kept(cfg, rounds)
  {
    PlainCase(cfg, text, "HTTP/1.1", rounds);
  }

  lemma Plain10Closes(cfg: Config, rounds: seq<Round>, text: string)
    requires cfg.Valid() && LeavesFlag(cfg) && Brings(rounds, text) && text == "GET / HTTP/1.0\r\n\r\n"
    ensures !Kept(cfg, rounds)
  {
    PlainCase(cfg, text, "HTTP/1.0", rounds);
  }

  lemma AskedToClose11(cfg: Config, rounds: seq<Round>, text: string)
    requires cfg.Valid() && LeavesFlag(cfg) && Brings(rounds, text)
    requires text == "GET / HTTP/1.1\r\nConnection: close\r\n\r\n"
    ensures !Kept(cfg, rounds)
  {
    Close11Pieces(text);
    FieldCase(cfg, text, "HTTP/1.1", "close", rounds);
  }

  lemma AskedToClose10(cfg: Config, rounds: seq<Round>, text: string)
    requires cfg.Valid() && LeavesFlag(cfg) && Brings(rounds, text)
    requires text == "GET / HTTP/1.0\r\nConnection: close\r\n\r\n"
    ensures !Kept(cfg, rounds)
  {
    Close10Pieces(text);
    FieldCase(cfg, text, "HTTP/1.0", "close", rounds);
  }

  lemma AskedToKeep10(cfg: Config, rounds: seq<Round>, text: string)
    requires cfg.Valid() && LeavesFlag(cfg) && Brings(rounds, text)
    requires text == "GET / HTTP/1.0\r\nConnection: Keep-Alive\r\n\r\n"
    ensures Kept(cfg, rounds)
  {
    Keep10Pieces(text);
    FieldCase(cfg, text, "HTTP/1.0", "Keep-Alive", rounds);
  }

  lemma Close11Pieces(text: string)
    requires text == "GET / HTTP/1.1\r\nConnection: close\r\n\r\n"
    ensures text == "GET / " + "HTTP/1.1" + CRLF + ("Connection: " + "close" + CRLF) + CRLF
  {
  }

  lemma Close10Pieces(text: string)
    requires text == "GET / HTTP/1.0\r\nConnection: close\r\n\r\n"
    ensures text == "GET / " + "HTTP/1.0" + CRLF + ("Connection: " + "close" + CRLF) + CRLF
  {
  }

  lemma Keep10Pieces(text: string)
    requires text == "GET / HTTP/1.0\r\nConnection: Keep-Alive\r\n\r\n"
    ensures text == "GET / " + "HTTP/1.0" + CRLF + ("Connection: " + "Keep-Alive" + CRLF) + CRLF
  {
  }

  lemma FieldText(text: string, f: Field, protocol: string)
    requires text == "GET / " + protocol + CRLF + (f.name + ": " + f.value + CRLF) + CRLF
    ensures text == RequestText("GET", "/", protocol, [f])
  {
    RenderOne(f);
  }

  lemma PlainCase(cfg: Config, text: string, protocol: string, rounds: seq<Round>)
    requires cfg.Valid() && LeavesFlag(cfg) && Brings(rounds, text) && Protocol(protocol)
    requires text == "GET / " + protocol + CRLF + CRLF
    ensures Kept(cfg, rounds) <==> Stays(protocol, None)
  {
    assert text == RequestText("GET", "/", protocol, []);
    KeptAsAsked(cfg, "GET", "/", protocol, [], rounds);
  }

  lemma FieldCase(cfg: Config, text: string, protocol: string, value: string, rounds: seq<Round>)
    requires cfg.Valid() && LeavesFlag(cfg) && Brings(rounds, text) && Protocol(protocol)
    requires value == "close" || value == "Keep-Alive"
    requires text == "GET / " + protocol + CRLF + ("Connection: " + value + CRLF) + CRLF
    ensures Kept(cfg, rounds) <==> Stays(protocol, Some(value))
  {
    var f := Field("Connection", value);
    PlainPair(f.name, value);
    assert FieldsOk([f]);
    FieldText(text, f, protocol);
    KeptAsAsked(cfg, "GET", "/", protocol, [f], rounds);
  }

  // -------------------------------------------------------- what is not yet answered

  /** What arrives nowhere completes a blank line. */
  predicate NoBlankYet(input: string, arrivals: seq<Arrival>)
    decreases |arrivals|
  {
    arrivals == []
    || (var next := input + arrivals[0].bytes;
        !(|next| >= 4 && next[|next| - 4..] == "\r\n\r\n") && NoBlankYet(next, arrivals[1..]))
  }

  /** So long the client hears nothing, refused or not, and everything is kept. */
  lemma {:induction false} SilentUntilBlank(cfg: Config, s: Session, rounds: seq<Round>)
    requires cfg.Valid() && Parsing(s.ctx) && !s.crashed && Between(s.conn) && s.conn.state == Connected
    requires NoPeerClose(rounds) && NoBlankYet(s.input, Offered(rounds))
    ensures var s' := TurnAll(cfg, s, rounds);
            && s'.ctx == s.ctx && s'.input == s.input + Bytes(Offered(rounds)) && !s'.crashed
            && s'.conn.accepted == s.conn.accepted && s'.conn.state == Connected
    decreases |rounds|
  {
    if rounds == [] {
      assert s.input + "" == s.input;
    } else {
      var s', rest := Turn(cfg, s, rounds[0]), rounds[1..];
      assert forall i | 0 <= i < |rest| :: rest[i] == rounds[i + 1];
      SilentTurn(cfg, s, rounds[0]);
      if rounds[0].data.Some? {
        var a := rounds[0].data.value;
        assert Offered(rounds) == [a] + Offered(rest) && Offered(rounds)[1..] == Offered(rest);
        Assoc(s.input, a.bytes, Bytes(Offered(rest)));
      } else {
        assert Offered(rounds) == Offered(rest);
      }
      SilentUntilBlank(cfg, s', rest);
    }
  }

  lemma SilentTurn(cfg: Config, s: Session, round: Round)
    requires cfg.Valid() && Parsing(s.ctx) && !s.crashed && Between(s.conn) && s.conn.state == Connected
    requires BytesOnly(round)
    requires var next := if round.data.Some? then s.input + round.data.value.bytes else "";
             !(|next| >= 4 && next[|next| - 4..] == "\r\n\r\n")
    ensures var s' := Turn(cfg, s, round);
            && s'.ctx == s.ctx && !s'.crashed && Between(s'.conn) && s'.conn.state == Connected
            && s'.input == (if round.data.Some? then s.input + round.data.value.bytes else s.input)
            && s'.conn.accepted == s.conn.accepted
  {
    var r := Reader(s.ctx, s.input, false, s.conn.accepted, false);
    TurnTracks(cfg, s, r, round);
    assert CRLF + CRLF == "\r\n\r\n";
  }

  // ------------------------------------------------------------------ what is refused

  /** The bytes of the next round complete a blank line behind a first line that is no
      request line. */
  ghost predicate NoRequest(s: Session, round: Round) {
    && round.data.Some? && round.data.value.bytes != ""
    && var input := s.input + round.data.value.bytes;
       EndsBlank(input) && FindCrlf(input).Some? && !HasForm(input[..FindCrlf(input).value])
  }

  /** Then the client gets a 400 and nothing else, and the connection closes, whatever
      the later rounds bring. */
  lemma RefusedGets400(cfg: Config, s: Session, rounds: seq<Round>)
    requires cfg.Valid() && Resting(s.ctx) && !s.crashed && Between(s.conn) && s.conn.state == Connected
    requires rounds != [] && NoPeerClose(rounds) && NoRequest(s, rounds[0])
    ensures var s' := TurnAll(cfg, s, rounds);
            && s'.conn.accepted == s.conn.accepted + "HTTP/1.1 400 Bad Request\r\n\r\n"
            && s'.conn.state != Connected && s'.conn.written + s'.conn.out == s'.conn.accepted
            && (s'.conn.state == Disconnected ==> s'.conn.out == "")
  {
    var r, a := Reader(s.ctx, s.input, false, s.conn.accepted, false), rounds[0].data.value;
    FirstLineDecides(s.ctx, s.input + a.bytes, a.time);
    RunTracks(cfg, s, r, rounds);
    var later := Delivered(cfg, Turn(cfg, s, rounds[0]), rounds[1..]);
    assert Delivered(cfg, s, rounds) == [a] + later && ([a] + later)[1..] == later;
    ClosingStays(Replies(cfg), Read(Replies(cfg), r, a), later);
  }

  // ------------------------------------------------------------------ how it ends

  /** A peer that closes ends the connection at once; nothing more is accepted. */
  lemma PeerCloseEnds(cfg: Config, s: Session, round: Round)
    requires cfg.Valid() && Parsing(s.ctx) && Between(s.conn)
    requires Reads(s, round) && round.data.value.bytes == ""
    ensures var s' := Turn(cfg, s, round);
            s'.conn.state == Disconnected && s'.conn.accepted == s.conn.accepted && s'.conn.closeReports == 1
  {
    StepKeeps(s.conn, PeerClosed);
  }

  predicate OnlyRoom(rounds: seq<Round>) {
    forall i | 0 <= i < |rounds| :: rounds[i].data.None? && rounds[i].room.Some? && rounds[i].room.value > 0
  }

  /** As long as there is room, every round writes, first bytes first; after as many
      as there are bytes nothing waits, and a pending close is done. */
  lemma {:induction false} RoomDrains(cfg: Config, s: Session, r: Reader, rounds: seq<Round>)
    requires cfg.Valid() && Tracks(s, r) && Parsing(s.ctx) && !s.crashed && OnlyRoom(rounds) && |rounds| >= |s.conn.out|
    ensures var s' := TurnAll(cfg, s, rounds);
            && s'.conn.out == "" && s'.conn.written == s.conn.accepted
            && (s'.conn.state == Disconnected <==> r.closing)
    decreases |rounds|
  {
    if rounds == [] {
      assert s.conn.written + "" == s.conn.written;
    } else {
      var s' := Turn(cfg, s, rounds[0]);
      assert rounds[0].data.None? && rounds[0].room.Some? && rounds[0].room.value > 0;
      assert forall i | 0 <= i < |rounds[1..]| :: rounds[1..][i] == rounds[i + 1];
      TurnTracks(cfg, s, r, rounds[0]);
      RoomWrites(cfg, s, r, rounds[0]);
      RoomDrains(cfg, s', r, rounds[1..]);
    }
  }

  lemma RoomWrites(cfg: Config, s: Session, r: Reader, round: Round)
    requires cfg.Valid() && Tracks(s, r) && Parsing(s.ctx) && !s.crashed
    requires round.data.None? && round.room.Some? && round.room.value > 0
    ensures var s' := Turn(cfg, s, round);
            var n := if round.room.value < |s.conn.out| then round.room.value else |s.conn.out|;
            && !s'.crashed && s'.conn.accepted == s.conn.accepted
            && s'.conn.written == s.conn.written + s.conn.out[..n] && s'.conn.out == s.conn.out[n..]
  {
    assert s.conn.out == "" ==> s.conn.out[..0] == "" && s.conn.out[0..] == "";
    assert s.conn.written + "" == s.conn.written;
  }
}
