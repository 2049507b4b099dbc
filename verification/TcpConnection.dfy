/** The states of net/TcpConnection, in the order they are passed through. */
module ConnectionStates {
  datatype State = Connecting | Connected | Disconnecting | Disconnected

  function Rank(s: State): nat {
    match s case Connecting => 0 case Connected => 1 case Disconnecting => 2 case Disconnected => 3
  }
}

/** net/TcpConnection: the connection's state machine and its output stream. */
module TcpConnections {
  import opened Text
  import opened Buffers
  import opened Channels
  import opened ConnectionStates

  // ------------------------------------------------------------ specification

  /** `out` is what the output buffer holds; `accepted` and `written` log the bytes
      `send` took and the socket got. The counters say how many
      `closeConnectionInLoop` functors wait, and how often the two callbacks into
      the server (normal close, hang-up) have run. */
  datatype Conn = Conn(state: State, channel: ChannelView, out: string, accepted: string, written: string,
                       queuedCloses: nat, closeReports: nat, hupReports: nat)

  const NEW_CONN := Conn(Connecting, ChannelView(NO_EVENT, false, None), "", "", "", 0, 0, 0)

  /** Results are those of `write`: -1, or how many bytes went out. */
  datatype Event =
    | Establish
    | Send(data: string, result: int)
    | WriteReady(result: int)
    | CloseRequest
    | CloseTask
    | PeerClosed
    | Hup
    | Destroy

  predicate Open(c: Conn) { c.state == Connected || c.state == Disconnecting }

  predicate Possible(c: Conn, e: Event) {
    match e
    case Establish => c.state == Connecting
    case Send(data, result) => -1 <= result <= |data|
    case WriteReady(result) => -1 <= result <= |c.out|
    case CloseTask => c.queuedCloses > 0
    case _ => true
  }

  function Quiet(c: Conn): Conn {
    c.(channel := ChannelView(NO_EVENT, false, Some(NO_EVENT)))
  }

  function WriteInterest(c: Conn, on: bool): Conn {
    var e := c.channel.events.(write := on);
    c.(channel := ChannelView(e, on, Some(e)))
  }

  function Closed(c: Conn): Conn {
    if Open(c) then Quiet(c).(state := Disconnected, closeReports := c.closeReports + 1) else c
  }

  function Sent(c: Conn, data: string, result: int): Conn
    requires -1 <= result <= |data|
  {
    var n := if !c.channel.writing && c.out == "" then Max(result, 0) else 0;
    var c' := c.(accepted := c.accepted + data, written := c.written + data[..n], out := c.out + data[n..]);
    if n < |data| && !c.channel.writing then WriteInterest(c', true) else c'
  }

  function Flushed(c: Conn, result: int): Conn
    requires -1 <= result <= |c.out|
  {
    if !c.channel.writing || result <= 0 then c
    else
      var c' := c.(written := c.written + c.out[..result], out := c.out[result..]);
      if c'.out != "" then c'
      else
        var idle := WriteInterest(c', false);
        if c.state == Disconnecting then Closed(idle) else idle
  }

  function CloseTaskRun(c: Conn): Conn {
    if c.state != Connected && c.state != Connecting then c
    else if !c.channel.writing then Closed(c)
    else c.(state := Disconnecting)
  }

  function Destroyed(c: Conn): Conn {
    c.(state := if Open(c) then Disconnected else c.state, channel := ChannelView(NO_EVENT, false, None))
  }

  function Step(c: Conn, e: Event): Conn
    requires Possible(c, e)
  {
    match e
    case Establish =>
      var i := c.channel.events.(read := true);
      c.(state := Connected, channel := ChannelView(i, c.channel.writing, Some(i)))
    case Send(data, result) => if c.state == Connected then Sent(c, data, result) else c
    case WriteReady(result) => Flushed(c, result)
    case CloseRequest =>
      if c.state == Connected || c.state == Connecting then c.(queuedCloses := c.queuedCloses + 1) else c
    case CloseTask => CloseTaskRun(c.(queuedCloses := c.queuedCloses - 1))
    case PeerClosed => Closed(c)
    case Hup => Destroyed(c).(hupReports := c.hupReports + 1)
    case Destroy => Destroyed(c)
  }

  // ------------------------------------------------------------ every step keeps

  /** Every byte accepted is written or buffered, in order; while the connection is
      open, write interest is on exactly when bytes wait, and epoll knows it. */
  predicate Inv(c: Conn) {
    && c.accepted == c.written + c.out
    && c.channel.writing == c.channel.events.write
    && (Open(c) ==> var e := Interest(true, c.out != ""); c.channel == ChannelView(e, c.out != "", Some(e)))
    && (c.state == Connecting ==> c.accepted == "" && c.channel.events == NO_EVENT && c.closeReports == 0)
    && (c.state == Disconnected ==> c.channel.events == NO_EVENT)
    && (c.state == Disconnecting ==> c.out != "")
    && c.closeReports <= (if c.state == Disconnected then 1 else 0)
  }

  lemma StepKeeps(c: Conn, e: Event)
    requires Inv(c) && Possible(c, e)
    ensures var c' := Step(c, e);
            && Inv(c')
            && Rank(c.state) <= Rank(c'.state)
            && c.accepted <= c'.accepted && c.written <= c'.written
            && (c.state == Disconnected ==> c'.accepted == c.accepted && c'.written == c.written)
  {
    match e
    case Send(data, result) => if c.state == Connected { SentKeeps(c, data, result); }
    case WriteReady(result) => FlushedKeeps(c, result);
    case _ =>
  }

  lemma SentKeeps(c: Conn, data: string, result: int)
    requires Inv(c) && c.state == Connected && -1 <= result <= |data|
    ensures var c' := Sent(c, data, result);
            Inv(c') && c'.state == Connected && c.accepted <= c'.accepted && c.written <= c'.written
  {
    var n := if !c.channel.writing && c.out == "" then Max(result, 0) else 0;
    assert data == data[..n] + data[n..];
    assert c.written + c.out + data == c.written + data[..n] + (c.out + data[n..]) by {
      if n > 0 { assert c.out == ""; }
    }
  }

  lemma FlushedKeeps(c: Conn, result: int)
    requires Inv(c) && -1 <= result <= |c.out|
    ensures var c' := Flushed(c, result);
            && Inv(c') && Rank(c.state) <= Rank(c'.state)
            && c'.accepted == c.accepted && c.written <= c'.written
            && (c.state == Disconnected ==> c' == c)
  {
    if c.channel.writing && result > 0 {
      assert c.out == c.out[..result] + c.out[result..];
      assert c.written + c.out == (c.written + c.out[..result]) + c.out[result..];
    }
  }

  predicate PossibleRun(c: Conn, run: seq<Event>)
    decreases |run|
  {
    run == [] || (Possible(c, run[0]) && PossibleRun(Step(c, run[0]), run[1..]))
  }

  function After(c: Conn, run: seq<Event>): Conn
    requires PossibleRun(c, run)
    decreases |run|
  {
    if run == [] then c else After(Step(c, run[0]), run[1..])
  }

  /** Conservation and order over any run: no byte is lost, repeated or overtaken. */
  lemma {:induction false} RunKeeps(c: Conn, run: seq<Event>)
    requires Inv(c) && PossibleRun(c, run)
    ensures var c' := After(c, run);
            && Inv(c') && c'.written + c'.out == c'.accepted
            && Rank(c.state) <= Rank(c'.state)
            && c.accepted <= c'.accepted && c.written <= c'.written
    decreases |run|
  {
    if run != [] {
      StepKeeps(c, run[0]);
      RunKeeps(Step(c, run[0]), run[1..]);
    }
  }

  // ---------------------------------------------------------------- the wire

  /** How many bytes a call of `write` that returned `result` has put on the wire. */
  function Count(result: int): nat { if result < 0 then 0 else result }

  /** What an event puts on the wire: the first bytes of what is offered to `write`,
      which is called with the new data when nothing waits, and with what waits when
      there is room. */
  function WiredNow(c: Conn, e: Event): string
    requires Possible(c, e)
  {
    match e
    case Send(data, result) =>
      if c.state == Connected && c.out == "" && !c.channel.writing then data[..Count(result)] else ""
    case WriteReady(result) => if c.channel.writing then c.out[..Count(result)] else ""
    case _ => ""
  }

  /** The bytes the kernel has taken over a run. */
  function Wire(c: Conn, run: seq<Event>): string
    requires PossibleRun(c, run)
    decreases |run|
  {
    if run == [] then "" else WiredNow(c, run[0]) + Wire(Step(c, run[0]), run[1..])
  }

  /** The bytes handed to `send` over a run while the connection was connected. */
  function Handed(c: Conn, run: seq<Event>): string
    requires PossibleRun(c, run)
    decreases |run|
  {
    if run == [] then ""
    else
      (if run[0].Send? && c.state == Connected then run[0].data else "") + Handed(Step(c, run[0]), run[1..])
  }

  lemma StepWires(c: Conn, e: Event)
    requires Inv(c) && Possible(c, e)
    ensures Step(c, e).written == c.written + WiredNow(c, e)
    ensures Step(c, e).accepted == c.accepted + (if e.Send? && c.state == Connected then e.data else "")
  {
    assert c.written + "" == c.written && c.accepted + "" == c.accepted;
    match e
    case Send(data, _) => assert data[..0] == "";
    case WriteReady(_) => assert c.out[..0] == "";
    case _ =>
  }

  lemma {:induction false} RunWires(c: Conn, run: seq<Event>)
    requires Inv(c) && PossibleRun(c, run)
    ensures After(c, run).written == c.written + Wire(c, run)
    ensures After(c, run).accepted == c.accepted + Handed(c, run)
    decreases |run|
  {
    if run == [] {
      assert c.written + "" == c.written && c.accepted + "" == c.accepted;
    } else {
      var c', rest := Step(c, run[0]), run[1..];
      StepKeeps(c, run[0]);
      StepWires(c, run[0]);
      RunWires(c', rest);
      Assoc(c.written, WiredNow(c, run[0]), Wire(c', rest));
      Assoc(c.accepted, if run[0].Send? && c.state == Connected then run[0].data else "", Handed(c', rest));
    }
  }

  /** Over any run of a connection, whatever `write` returns: the wire and then the
      output buffer are, byte for byte and in order, what was handed to `send`. */
  lemma WireConserves(run: seq<Event>)
    requires PossibleRun(NEW_CONN, run)
    ensures Wire(NEW_CONN, run) + After(NEW_CONN, run).out == Handed(NEW_CONN, run)
  {
    RunKeeps(NEW_CONN, run);
    RunWires(NEW_CONN, run);
    assert "" + Wire(NEW_CONN, run) == Wire(NEW_CONN, run) && "" + Handed(NEW_CONN, run) == Handed(NEW_CONN, run);
  }

  /** A send with nothing waiting buffers exactly what the socket did not take, and
      asks for room exactly then; one behind waiting bytes buffers all of it. */
  lemma SendBuffersRest(c: Conn, data: string, result: int)
    requires Inv(c) && c.state == Connected && -1 <= result <= |data|
    ensures var c' := Step(c, Send(data, result));
            && c'.out == (if c.out == "" then data[Count(result)..] else c.out + data)
            && (c'.channel.events.write <==> c'.out != "")
  {
    StepKeeps(c, Send(data, result));
    assert data[0..] == data;
    if c.out == "" { assert c.out + data[Count(result)..] == data[Count(result)..]; }
  }

  /** A write event takes exactly what the socket took off the front. */
  lemma WriteDropsTaken(c: Conn, result: int)
    requires Inv(c) && Open(c) && -1 <= result <= |c.out|
    ensures Step(c, WriteReady(result)).out == c.out[Count(result)..]
  {
    assert c.out[0..] == c.out;
  }

  // ------------------------------------------------------------- orderly close

  /** Closing through `closeConnectionInLoop` or `handleWrite` happens only with
      everything written; any other way of closing drains exactly when nothing was
      waiting. */
  lemma CloseDrains(c: Conn, e: Event)
    requires Inv(c) && Possible(c, e)
    requires c.state != Disconnected && Step(c, e).state == Disconnected
    ensures var c' := Step(c, e);
            && (e.CloseTask? || e.WriteReady? ==> c'.written == c'.accepted)
            && (!e.WriteReady? ==> (c'.written == c'.accepted <==> c.out == ""))
  {
    StepKeeps(c, e);
    var c' := Step(c, e);
    assert |c'.accepted| == |c'.written| + |c'.out|;
  }

  /** Events that tear the connection down without looking at the output. */
  predicate Abrupt(e: Event) { e.PeerClosed? || e.Hup? || e.Destroy? }

  /** On every run without abrupt events, a connection that has closed has written
      every byte it ever accepted. */
  lemma {:induction false} PoliteRunDrains(c: Conn, run: seq<Event>)
    requires Inv(c) && PossibleRun(c, run) && (c.state == Disconnected ==> c.out == "")
    requires forall i | 0 <= i < |run| :: !Abrupt(run[i])
    ensures var c' := After(c, run); c'.state == Disconnected ==> c'.written == c'.accepted
    decreases |run|
  {
    if run == [] {
      assert c.state == Disconnected ==> c.written + c.out == c.written;
    } else {
      StepKeeps(c, run[0]);
      var c' := Step(c, run[0]);
      if c.state != Disconnected && c'.state == Disconnected {
        CloseDrains(c, run[0]);
        assert |c'.accepted| == |c'.written| + |c'.out|;
      }
      assert !Abrupt(run[0]);
      forall i | 0 <= i < |run[1..]| ensures !Abrupt(run[1..][i]) { assert run[1..][i] == run[i + 1]; }
      PoliteRunDrains(c', run[1..]);
    }
  }

  /** Write events that the socket took bytes in. */
  function Productive(run: seq<Event>): nat {
    if run == [] then 0 else (if run[0].WriteReady? && run[0].result > 0 then 1 else 0) + Productive(run[1..])
  }

  /** Once a close is pending, each productive write shortens what is unsent and
      nothing lengthens it; after at most as many as there are bytes the connection
      closes with every byte written. */
  lemma {:induction false} DisconnectingDrains(c: Conn, run: seq<Event>)
    requires Inv(c) && PossibleRun(c, run)
    requires c.state == Disconnecting || (c.state == Disconnected && c.out == "")
    requires forall i | 0 <= i < |run| :: !Abrupt(run[i])
    ensures var c' := After(c, run);
            && c'.accepted == c.accepted
            && (c'.state == Disconnected ==> c'.written == c.accepted)
            && (c'.state != Disconnected ==> c'.state == Disconnecting && |c'.out| + Productive(run) <= |c.out|)
            && (Productive(run) >= |c.out| ==> c'.state == Disconnected)
    decreases |run|
  {
    if run == [] {
      assert c.state == Disconnected ==> c.accepted == c.written + "";
    } else {
      StepKeeps(c, run[0]);
      assert !Abrupt(run[0]);
      forall i | 0 <= i < |run[1..]| ensures !Abrupt(run[1..][i]) { assert run[1..][i] == run[i + 1]; }
      DisconnectingDrains(Step(c, run[0]), run[1..]);
      RunKeeps(c, run);
    }
  }

  // ----------------------------------------------------------- implementation

  class TcpConnection {
    var state: State
    const channel: Channel
    const inBuffer: Buffer
    const outBuffer: Buffer
    ghost var accepted: string
    ghost var written: string
    var queuedCloses: nat
    var closeReports: nat
    var hupReports: nat

    ghost predicate Valid()
      reads this, channel, inBuffer, outBuffer
    {
      && channel.Valid() && inBuffer.Exact() && outBuffer.Exact()
      && inBuffer != outBuffer && inBuffer.store != outBuffer.store
    }

    ghost function Repr(): set<object>
      reads this, inBuffer, outBuffer
    {
      {this, channel, inBuffer, outBuffer, inBuffer.store, outBuffer.store}
    }

    ghost function View(): Conn
      reads Repr()
      reads this, channel, inBuffer, outBuffer
      requires Valid()
    {
      Conn(state, channel.View(), outBuffer.Contents(), accepted, written, queuedCloses, closeReports, hupReports)
    }

    ghost function Input(): string
      reads this, channel, inBuffer, outBuffer, inBuffer.store
      requires Valid()
    {
      inBuffer.Contents()
    }

    constructor ()
      ensures Valid() && fresh(Repr() - {this})
      ensures View() == NEW_CONN && Input() == ""
    {
      state := Connecting;
      channel := new Channel();
      inBuffer := new Buffer();
      outBuffer := new Buffer();
      accepted, written := "", "";
      queuedCloses, closeReports, hupReports := 0, 0, 0;
    }

    method ConnectionEstablish()
      requires Valid() && state == Connecting
      modifies this, channel
      ensures Valid() && View() == Step(old(View()), Establish)
      ensures Input() == old(Input())
    {
      channel.EnableReading();
      state := Connected;
    }

    method HandleClose()
      requires Valid()
      modifies this, channel
      ensures Valid() && View() == Closed(old(View()))
      ensures Input() == old(Input())
    {
      if state == Disconnecting || state == Connected {
        state := Disconnected;
        channel.DisableAll();
        closeReports := closeReports + 1;
      }
    }

    method ConnectionDestroyed()
      requires Valid()
      modifies this, channel
      ensures Valid() && View() == Step(old(View()), Destroy)
      ensures Input() == old(Input())
    {
      if state == Connected || state == Disconnecting {
        state := Disconnected;
        channel.DisableAll();
      }
      channel.Remove();
    }

    method HandleHup()
      requires Valid()
      modifies this, channel
      ensures Valid() && View() == Step(old(View()), Hup)
      ensures Input() == old(Input())
    {
      ConnectionDestroyed();
      hupReports := hupReports + 1;
    }

    method CloseConnection()
      requires Valid()
      modifies this
      ensures Valid() && View() == Step(old(View()), CloseRequest)
      ensures Input() == old(Input())
    {
      if state == Connected || state == Connecting {
        queuedCloses := queuedCloses + 1;
      }
    }

    /** Runs as a functor that `CloseConnection` queued. */
    method CloseConnectionInLoop()
      requires Valid() && queuedCloses > 0
      modifies this, channel
      ensures Valid() && View() == Step(old(View()), CloseTask)
      ensures Input() == old(Input())
    {
      queuedCloses := queuedCloses - 1;
      if state == Connected || state == Connecting {
        if !channel.writing {
          HandleClose();
        } else {
          state := Disconnecting;
        }
      }
    }

    /** `result` is what `write` will return if it is called. */
    method Send(data: string, result: int)
      requires Valid() && -1 <= result <= |data|
      modifies this, channel, outBuffer, outBuffer.store
      ensures Valid() && View() == Step(old(View()), Event.Send(data, result))
      ensures outBuffer.store == old(outBuffer.store) || fresh(outBuffer.store)
      ensures Input() == old(Input())
    {
      if state == Connected {
        SendInLoop(data, result);
      }
    }

    method SendInLoop(data: string, result: int)
      requires Valid() && -1 <= result <= |data|
      modifies this, channel, outBuffer, outBuffer.store
      ensures Valid() && View() == Sent(old(View()), data, result)
      ensures outBuffer.store == old(outBuffer.store) || fresh(outBuffer.store)
      ensures Input() == old(Input())
    {
      var wroted := 0;
      var readable := outBuffer.ReadableBytes();
      if !channel.writing && readable == 0 {
        wroted := result;
        if wroted < 0 {
          wroted := 0;
        }
      }
      accepted := accepted + data;
      written := written + data[..wroted];
      if wroted < |data| {
        outBuffer.AppendExact(data[wroted..]);
        if !channel.writing {
          channel.EnableWriting();
        }
      }
    }

    /** `result` is what `write` of the whole output buffer will return. */
    method HandleWrite(result: int)
      requires Valid() && -1 <= result <= |outBuffer.Contents()|
      modifies this, channel, outBuffer
      ensures Valid() && View() == Step(old(View()), WriteReady(result))
      ensures Input() == old(Input()) && outBuffer.store == old(outBuffer.store)
    {
      if channel.writing && result > 0 {
        written := written + outBuffer.Contents()[..result];
        var _ := outBuffer.Retrieve(result);
        var left := outBuffer.ReadableBytes();
        if left == 0 {
          channel.DisableWriting();
          if state == Disconnecting {
            HandleClose();
          }
        }
      }
    }

    /** One `readFd`; the message callback is the caller's business when `message`. */
    method HandleRead(arrived: Option<string>) returns (message: bool)
      requires Valid()
      requires arrived.Some? ==> |arrived.value| <= inBuffer.View().Writable() + EXTRA_SIZE
      modifies this, channel, inBuffer, inBuffer.store
      ensures Valid() && (inBuffer.store == old(inBuffer.store) || fresh(inBuffer.store))
      ensures message <==> arrived.Some? && arrived.value != ""
      ensures View() == if arrived == Some("") then Step(old(View()), PeerClosed) else old(View())
      ensures Input() == if message then old(Input()) + arrived.value else old(Input())
    {
      ghost var op := Op.ReadFd(if arrived.Some? then arrived.value else "", 0);
      ExactStep(inBuffer.View(), op);
      StepIsQueue(inBuffer.View(), op);
      var n := inBuffer.ReadFd(arrived, 0);
      message := n > 0;
      if n == 0 {
        HandleClose();
      }
    }
  }
}
