/** HTTP/HttpContext: the incremental request parser. */
module HttpContexts {
  import opened Text
  import opened HttpRequests
  import opened Buffers

  datatype ParseState = ExpectRequestLine | ExpectHeaders | ExpectBody | GotAll

  datatype Context = Context(state: ParseState, request: Request)

  /** `parseRequest` returns true, returns false, or trips the assert of `setMethod`. */
  datatype Verdict = Accepted | Rejected | Aborted

  datatype Outcome = Outcome(verdict: Verdict, ctx: Context, rest: string)

  // ------------------------------------------------------------ specification

  function VersionOf(protocol: string): Version {
    if protocol == "HTTP/1.1" then Http11 else if protocol == "HTTP/1.0" then Http10 else Unknown
  }

  /** The query, if there is one, keeps its '?'; if not, the old query stays. */
  function WithTarget(r: Request, target: string): Request {
    var question := Find(target, '?');
    if question < |target| then r.(path := target[..question], query := target[question..])
    else r.(path := target)
  }

  /** `processRequestLine`: a rejected line may still have set some fields. */
  function RequestLine(r: Request, line: string): (Verdict, Request) {
    var space := Find(line, ' ');
    if space == |line| then (Rejected, r)
    else if r.verb != Invalid then (Aborted, r)
    else
      var named := r.(verb := MethodOf(line[..space]));
      var tail := line[space + 1..];
      var space2 := Find(tail, ' ');
      if named.verb == Invalid || space2 == |tail| then (Rejected, named)
      else
        var placed := WithTarget(named, tail[..space2]);
        var version := VersionOf(tail[space2 + 1..]);
        if version == Unknown then (Rejected, placed) else (Accepted, placed.(version := version))
  }

  /** States the parsing loop can leave. */
  predicate Parsing(ctx: Context) {
    ctx.state == ExpectRequestLine || ctx.state == ExpectHeaders
  }

  /** What one line does: the loop goes on, or ends with a verdict. */
  datatype LineStep = Next(ctx: Context) | Stop(verdict: Verdict, ctx: Context)

  /** One pass of the parsing loop over a whole line. In the header state any line
      without a colon, not only the blank one, ends the request. */
  function OneLine(ctx: Context, line: string, time: int): (step: LineStep)
    requires Parsing(ctx)
    ensures step.Next? ==> step.ctx.state == ExpectHeaders
    ensures step.Stop? ==> step.ctx.state == (if step.verdict == Accepted then GotAll else ExpectRequestLine)
    ensures ctx.state == ExpectHeaders ==> step.Next? || step.verdict == Accepted
    ensures ctx.state == ExpectRequestLine ==> step.Next? || step.verdict != Accepted
  {
    if ctx.state == ExpectRequestLine then
      var (verdict, request) := RequestLine(ctx.request, line);
      if verdict == Accepted then Next(Context(ExpectHeaders, request.(receiveTime := time)))
      else Stop(verdict, ctx.(request := request))
    else
      var colon := Find(line, ':');
      if colon < |line|
      then Next(ctx.(request := WithHeader(ctx.request, line[..colon], line[colon + 1..])))
      else Stop(Accepted, ctx.(state := GotAll))
  }

  /** `parseRequest`: consume whole lines while there are any. A line that is not
      accepted stays in the buffer. */
  function Parse(ctx: Context, input: string, time: int): (o: Outcome)
    requires Parsing(ctx)
    ensures Parsing(o.ctx) || o.ctx.state == GotAll
    ensures o.verdict != Accepted ==> o.ctx.state == ExpectRequestLine
    decreases |input|
  {
    match FindCrlf(input)
    case None => Outcome(Accepted, ctx, input)
    case Some(end) =>
      match OneLine(ctx, input[..end], time)
      case Next(ctx') => Parse(ctx', input[end + 2..], time)
      case Stop(verdict, ctx') => Outcome(verdict, ctx', if verdict == Accepted then input[end + 2..] else input)
  }

  /** The parser has used up all whole lines and asks for more bytes. */
  predicate Waiting(o: Outcome) {
    o.verdict == Accepted && o.ctx.state != GotAll
  }

  // -------------------------------------------------------- chunk independence

  function Untimed(ctx: Context): Context {
    ctx.(request := ctx.request.(receiveTime := 0))
  }

  /** Equal verdict, state, request (except the receive time) and leftover bytes. */
  predicate Same(a: Outcome, b: Outcome) {
    a.verdict == b.verdict && Untimed(a.ctx) == Untimed(b.ctx) && a.rest == b.rest
  }

  lemma LineTimeIrrelevant(c1: Context, c2: Context, line: string, t1: int, t2: int)
    requires Parsing(c1) && Parsing(c2) && Untimed(c1) == Untimed(c2)
    ensures var s1, s2 := OneLine(c1, line, t1), OneLine(c2, line, t2);
            && Untimed(s1.ctx) == Untimed(s2.ctx) && s1.Next? == s2.Next?
            && (s1.Stop? ==> s1.verdict == s2.verdict)
  {
    if c1.state == ExpectRequestLine {
      var (v1, r1) := RequestLine(c1.request, line);
      var (v2, r2) := RequestLine(c2.request, line);
      assert v1 == v2 && r1.(receiveTime := 0) == r2.(receiveTime := 0);
    }
  }

  lemma {:induction false} TimeIrrelevant(c1: Context, c2: Context, input: string, t1: int, t2: int)
    requires Parsing(c1) && Parsing(c2) && Untimed(c1) == Untimed(c2)
    ensures Same(Parse(c1, input, t1), Parse(c2, input, t2))
    decreases |input|
  {
    match FindCrlf(input)
    case None =>
    case Some(end) =>
      LineTimeIrrelevant(c1, c2, input[..end], t1, t2);
      var s1, s2 := OneLine(c1, input[..end], t1), OneLine(c2, input[..end], t2);
      if s1.Next? { TimeIrrelevant(s1.ctx, s2.ctx, input[end + 2..], t1, t2); }
  }

  /** Parsing `a`, then the leftover with `b` behind it, is parsing `a + b`. */
  lemma {:induction false} SplitOnce(ctx: Context, a: string, b: string, ta: int, tb: int, t: int)
    requires Parsing(ctx)
    ensures var p := Parse(ctx, a, ta);
            Same(Parse(ctx, a + b, t),
                 if Waiting(p) then Parse(p.ctx, p.rest + b, tb) else p.(rest := p.rest + b))
    decreases |a|
  {
    match FindCrlf(a)
    case None =>
      TimeIrrelevant(ctx, ctx, a + b, t, tb);
    case Some(end) =>
      CrlfStable(a, b);
      var line, rest := a[..end], a[end + 2..];
      assert (a + b)[..end] == line && (a + b)[end + 2..] == rest + b;
      LineTimeIrrelevant(ctx, ctx, line, ta, t);
      var sa, st := OneLine(ctx, line, ta), OneLine(ctx, line, t);
      if sa.Next? {
        SplitOnce(sa.ctx, rest, b, ta, tb, t);
        TimeIrrelevant(st.ctx, sa.ctx, rest + b, t, t);
      }
  }

  datatype Chunk = Chunk(bytes: string, time: int)

  function Joined(chunks: seq<Chunk>): string {
    if chunks == [] then "" else chunks[0].bytes + Joined(chunks[1..])
  }

  /** Parse after each chunk until a failure or kGotAll; later chunks stay unread. */
  function Feed(ctx: Context, kept: string, chunks: seq<Chunk>): Outcome
    requires Parsing(ctx)
    decreases |chunks|
  {
    if chunks == [] then Outcome(Accepted, ctx, kept)
    else
      var p := Parse(ctx, kept + chunks[0].bytes, chunks[0].time);
      if Waiting(p) then Feed(p.ctx, p.rest, chunks[1..])
      else p.(rest := p.rest + Joined(chunks[1..]))
  }

  lemma FeedOne(ctx: Context, kept: string, chunk: Chunk, t: int)
    requires Parsing(ctx)
    ensures Same(Feed(ctx, kept, [chunk]), Parse(ctx, kept + chunk.bytes, t))
  {
    var p := Parse(ctx, kept + chunk.bytes, chunk.time);
    TimeIrrelevant(ctx, ctx, kept + chunk.bytes, chunk.time, t);
    assert [chunk][1..] == [];
    assert p.rest + "" == p.rest;
  }

  lemma SameTrans(a: Outcome, b: Outcome, c: Outcome)
    requires Same(a, b) && Same(b, c)
    ensures Same(a, c) && Same(b, a)
  {
  }

  /** However TCP cuts the input, the parser ends as if it had come in one piece. */
  lemma {:induction false} ChunkIndependence(ctx: Context, kept: string, chunks: seq<Chunk>, t: int)
    requires Parsing(ctx) && chunks != []
    ensures Same(Feed(ctx, kept, chunks), Parse(ctx, kept + Joined(chunks), t))
    decreases |chunks|
  {
    var first, later := kept + chunks[0].bytes, Joined(chunks[1..]);
    assert first + later == kept + Joined(chunks);
    if |chunks| == 1 {
      assert chunks == [chunks[0]] && first + later == first;
      FeedOne(ctx, kept, chunks[0], t);
    } else {
      var p := Parse(ctx, first, chunks[0].time);
      SplitOnce(ctx, first, later, chunks[0].time, t, t);
      if Waiting(p) {
        ChunkIndependence(p.ctx, p.rest, chunks[1..], t);
        SameTrans(Feed(p.ctx, p.rest, chunks[1..]), Parse(p.ctx, p.rest + later, t), Parse(ctx, first + later, t));
      }
    }
  }

  // ------------------------------------------------------------------ the gate

  predicate EndsBlank(s: string) {
    |s| >= 4 && s[|s| - 4..] == CRLF + CRLF
  }

  /** Cutting the first line off input that ends in CRLFCRLF leaves input that
      still does, or the bare blank line. */
  lemma BlankSurvives(s: string)
    requires EndsBlank(s) || s == CRLF
    ensures FindCrlf(s).Some?
    ensures var end := FindCrlf(s).value;
            var rest := s[end + 2..];
            if s == CRLF then end == 0 else EndsBlank(rest) || rest == CRLF
  {
    if s == CRLF {
      assert CrlfAt(s, 0);
    } else {
      var n := |s|;
      var tail := s[n - 4..];
      assert s[n - 4] == tail[0] && s[n - 3] == tail[1] && s[n - 2] == tail[2] && s[n - 1] == tail[3];
      assert CrlfAt(s, n - 4);
      var end := FindCrlf(s).value;
      assert end <= n - 4;
      assert end != n - 5;
      var rest := s[end + 2..];
      if end == n - 4 {
        assert rest == CRLF;
      } else {
        assert rest[|rest| - 4..] == tail;
      }
    }
  }

  lemma {:induction false} GateHeaders(ctx: Context, s: string, t: int)
    requires ctx.state == ExpectHeaders && (EndsBlank(s) || s == CRLF)
    ensures var o := Parse(ctx, s, t); o.verdict == Accepted && o.ctx.state == GotAll
    decreases |s|
  {
    BlankSurvives(s);
    var end := FindCrlf(s).value;
    var step := OneLine(ctx, s[..end], t);
    ParseStep(ctx, s, end, s[..end], t);
    if step.Next? { GateHeaders(step.ctx, s[end + 2..], t); }
  }

  /** Between requests: nothing of the next one has been seen. The version is
      whatever the last request left, since `swap` does not exchange it. */
  predicate Resting(ctx: Context) {
    && ctx.state == ExpectRequestLine
    && ctx.request == EMPTY_REQUEST.(version := ctx.request.version, receiveTime := ctx.request.receiveTime)
  }

  /** Input that ends in CRLFCRLF is rejected or completes the request: the loop
      never waits, and the assert of `setMethod` holds. */
  lemma GateDecides(ctx: Context, s: string, t: int)
    requires Resting(ctx) && EndsBlank(s)
    ensures var o := Parse(ctx, s, t);
            || (o.verdict == Rejected && o.ctx.state == ExpectRequestLine && o.rest == s)
            || (o.verdict == Accepted && o.ctx.state == GotAll)
  {
    BlankSurvives(s);
    var end := FindCrlf(s).value;
    var step := OneLine(ctx, s[..end], t);
    if step.Next? { GateHeaders(step.ctx, s[end + 2..], t); }
  }

  /** Whatever version an earlier request left behind, a completed request is the
      one a new context would have produced. */
  lemma ResetIsFresh(c1: Context, c2: Context, s: string, t: int)
    requires Resting(c1) && Resting(c2)
    ensures var o1, o2 := Parse(c1, s, t), Parse(c2, s, t);
            && o1.verdict == o2.verdict && o1.rest == o2.rest && o1.ctx.state == o2.ctx.state
            && (o1.ctx.state != ExpectRequestLine ==> o1.ctx == o2.ctx)
  {
    match FindCrlf(s)
    case None =>
    case Some(end) =>
      var (v1, r1) := RequestLine(c1.request, s[..end]);
      var (v2, r2) := RequestLine(c2.request, s[..end]);
      assert v1 == v2 && (v1 == Accepted ==> r1.(receiveTime := t) == r2.(receiveTime := t));
      if v1 == Accepted { assert OneLine(c1, s[..end], t) == OneLine(c2, s[..end], t); }
  }

  /** After a rejection the line is still in the buffer. The next parse trips the
      assert of `setMethod` exactly when that line had named a known method;
      otherwise it is rejected again and nothing changes. */
  lemma ParsingAfterRejection(ctx: Context, s: string, more: string, t: int, t': int)
    requires Resting(ctx) && Parse(ctx, s, t).verdict == Rejected
    ensures var o := Parse(ctx, s, t);
            var again := Parse(o.ctx, s + more, t');
            && (again.verdict == Aborted <==> o.ctx.request.verb != Invalid)
            && (again.verdict != Aborted ==> again == Outcome(Rejected, o.ctx, s + more))
  {
    RejectedAtOnce(ctx, s, t);
    CrlfStable(s, more);
    var end := FindCrlf(s).value;
    assert (s + more)[..end] == s[..end];
    var (v, r) := RequestLine(ctx.request, s[..end]);
    assert r.verb != Invalid ==> Find(s[..end], ' ') < end;
  }

  /** Only the first line, as a request line, can be refused. */
  lemma {:induction false} RejectedAtOnce(ctx: Context, s: string, t: int)
    requires Parsing(ctx) && Parse(ctx, s, t).verdict != Accepted
    ensures ctx.state == ExpectRequestLine && FindCrlf(s).Some?
    ensures var (v, r) := RequestLine(ctx.request, s[..FindCrlf(s).value]);
            v != Accepted && Parse(ctx, s, t) == Outcome(v, ctx.(request := r), s)
    decreases |s|
  {
    var end := FindCrlf(s).value;
    var step := OneLine(ctx, s[..end], t);
    if step.Next? { RejectedAtOnce(step.ctx, s[end + 2..], t); }
  }

  // ----------------------------------------------------------- implementation

  class HttpContext {
    var state: ParseState
    const request: HttpRequest

    ghost function View(): Context
      reads this, request
    {
      Context(state, request.View())
    }

    constructor ()
      ensures fresh(request) && View() == Context(ExpectRequestLine, EMPTY_REQUEST)
    {
      state := ExpectRequestLine;
      request := new HttpRequest();
    }

    method Reset()
      modifies this, request
      ensures Resting(View())
      ensures View().request.version == old(View()).request.version && View().request.receiveTime == 0
    {
      state := ExpectRequestLine;
      var dummy := new HttpRequest();
      request.Swap(dummy);
    }

    method ProcessRequestLine(line: string) returns (verdict: Verdict)
      modifies request
      ensures (verdict, request.View()) == RequestLine(old(request.View()), line)
    {
      var space := Find(line, ' ');
      if space == |line| { return Rejected; }
      if request.verb != Invalid { return Aborted; }
      var named := request.SetMethod(line[..space]);
      if !named { return Rejected; }
      var tail := line[space + 1..];
      var space2 := Find(tail, ' ');
      if space2 == |tail| { return Rejected; }
      var target := tail[..space2];
      var question := Find(target, '?');
      if question < |target| {
        request.path := target[..question];
        request.query := target[question..];
      } else {
        request.path := target;
      }
      var protocol := tail[space2 + 1..];
      var succeed := |protocol| == 8 && protocol[..7] == "HTTP/1.";
      if succeed {
        assert protocol == protocol[..7] + [protocol[7]];
        if protocol[7] == '1' {
          request.version := Http11;
        } else if protocol[7] == '0' {
          request.version := Http10;
        } else {
          succeed := false;
        }
      }
      verdict := if succeed then Accepted else Rejected;
    }

    method TakeRequestLine(line: string, receiveTime: int) returns (verdict: Verdict)
      requires state == ExpectRequestLine
      modifies this, request
      ensures OneLine(old(View()), line, receiveTime)
              == if verdict == Accepted then Next(View()) else Stop(verdict, View())
    {
      verdict := ProcessRequestLine(line);
      if verdict == Accepted {
        request.receiveTime := receiveTime;
        state := ExpectHeaders;
      }
    }

    method TakeHeaderLine(line: string, ghost receiveTime: int) returns (hasMore: bool)
      requires state == ExpectHeaders
      modifies this, request
      ensures OneLine(old(View()), line, receiveTime) == if hasMore then Next(View()) else Stop(Accepted, View())
    {
      var colon := Find(line, ':');
      hasMore := colon < |line|;
      ghost var was := View();
      if hasMore {
        request.AddHeader(line, colon);
        assert View() == was.(request := WithHeader(was.request, line[..colon], line[colon + 1..]));
      } else {
        state := GotAll;
      }
    }

    /** In the two other states the original loop would never end. */
    method ParseRequest(buf: Buffer, receiveTime: int) returns (verdict: Verdict)
      requires buf.Valid() && Parsing(View())
      modifies this, request, buf
      ensures buf.Valid() && buf.store == old(buf.store) && buf.size == old(buf.size)
      ensures Outcome(verdict, View(), buf.Contents()) == Parse(old(View()), old(buf.Contents()), receiveTime)
    {
      verdict := Accepted;
      var hasMore := true;
      ghost var result := Parse(View(), buf.Contents(), receiveTime);
      while hasMore
        invariant buf.Valid() && buf.store == old(buf.store) && buf.size == old(buf.size)
        invariant hasMore ==> verdict == Accepted && Parsing(View())
        invariant hasMore ==> Parse(View(), buf.Contents(), receiveTime) == result
        invariant !hasMore ==> Outcome(verdict, View(), buf.Contents()) == result
        decreases hasMore, |buf.Contents()|
      {
        var crlf := buf.FindCrlf(buf.readIndex);
        if crlf.None? {
          hasMore := false;
        } else {
          verdict, hasMore := TakeLine(buf, crlf.value, receiveTime);
        }
      }
    }

    /** The body of the parsing loop when a whole line ends at `crlf`. */
    method TakeLine(buf: Buffer, crlf: nat, receiveTime: int) returns (verdict: Verdict, hasMore: bool)
      requires buf.Valid() && Parsing(View()) && buf.readIndex <= crlf
      requires FindCrlf(buf.Contents()) == Some(crlf - buf.readIndex)
      modifies this, request, buf
      ensures buf.Valid() && buf.store == old(buf.store) && buf.size == old(buf.size)
      ensures hasMore ==> verdict == Accepted && Parsing(View()) && |buf.Contents()| < |old(buf.Contents())|
      ensures Parse(old(View()), old(buf.Contents()), receiveTime)
              == if hasMore then Parse(View(), buf.Contents(), receiveTime)
                 else Outcome(verdict, View(), buf.Contents())
    {
      ghost var input, end := buf.Contents(), crlf - buf.readIndex;
      var line := buf.store[buf.readIndex..crlf];
      assert line == input[..end];
      ParseStep(View(), input, end, line, receiveTime);
      if state == ExpectRequestLine {
        verdict := TakeRequestLine(line, receiveTime);
        hasMore := verdict == Accepted;
      } else {
        verdict := Accepted;
        hasMore := TakeHeaderLine(line, receiveTime);
      }
      assert buf.Contents() == input;
      if verdict == Accepted {
        var _ := buf.RetrieveUntil(crlf + 2);
        assert buf.Contents() == input[end + 2..];
      }
    }
  }

  /** The defining equation of `Parse` at a line whose end is known. */
  lemma ParseStep(ctx: Context, input: string, end: nat, line: string, time: int)
    requires Parsing(ctx) && FindCrlf(input) == Some(end) && line == input[..end]
    ensures Parse(ctx, input, time) ==
            match OneLine(ctx, line, time)
            case Next(ctx') => Parse(ctx', input[end + 2..], time)
            case Stop(verdict, ctx') => Outcome(verdict, ctx', if verdict == Accepted then input[end + 2..] else input)
  {
  }
}
