/** HTTP/HttpResponse: printing a response, and reading its headers back. */
module HttpResponses {
  import opened Text
  import opened Buffers
  import opened HttpRequests
  import opened HttpContexts
  import opened HttpRoundTrip

  /** The scratch array of `appendToBuffer`. */
  const SCRATCH: nat := 32

  /** Body sizes from here on have too many digits for the scratch array. */
  const SCRATCH_LIMIT: nat := 10_000_000_000_000

  datatype Response = Response(headers: map<string, string>, statusCode: nat, statusMessage: string,
                               closeConnection: bool, body: string)

  // ------------------------------------------------------------ specification

  /** `snprintf` into the scratch array keeps room for the terminating NUL. */
  function Printed(s: string): string {
    s[..Min(|s|, SCRATCH - 1)]
  }

  /** `std::map` iterates in some fixed order over its keys. */
  ghost predicate OrderOf(order: seq<string>, headers: map<string, string>) {
    && (forall k :: k in order <==> k in headers)
    && (forall i, j | 0 <= i < j < |order| :: order[i] != order[j])
  }

  function FieldsOf(headers: map<string, string>, order: seq<string>): (fields: seq<Field>)
    requires forall k | k in order :: k in headers
    ensures |fields| == |order|
  {
    seq(|order|, i requires 0 <= i < |order| => Field(order[i], headers[order[i]]))
  }

  function StatusLine(r: Response): string {
    Printed("HTTP/1.1 " + Decimal(r.statusCode) + " ") + r.statusMessage
  }

  function LengthLine(r: Response): string {
    "Content-Length: " + Decimal(|r.body|) + CRLF
  }

  function OwnBlock(r: Response): string {
    if r.closeConnection then "Connection: close" + CRLF
    else Printed(LengthLine(r)) + ("Connection: Keep-Alive" + CRLF)
  }

  function HeaderBlock(r: Response, order: seq<string>): string
    requires OrderOf(order, r.headers)
  {
    OwnBlock(r) + RenderFields(FieldsOf(r.headers, order)) + CRLF
  }

  function ResponseBytes(r: Response, order: seq<string>): string
    requires OrderOf(order, r.headers)
  {
    StatusLine(r) + CRLF + (HeaderBlock(r, order) + r.body)
  }

  /** The headers a reader should see: the server's own, overridden by `headers`. */
  function IntendedHeaders(r: Response): map<string, string> {
    (if r.closeConnection then map["Connection" := "close"]
     else map["Content-Length" := Decimal(|r.body|), "Connection" := "Keep-Alive"])
    + r.headers
  }

  // --------------------------------------------------------------- round trip

  lemma {:induction false} CollectOverrides(base: map<string, string>, headers: map<string, string>, order: seq<string>)
    requires OrderOf(order, headers)
    ensures Collect(base, FieldsOf(headers, order)) == base + headers
  {
    var fields := FieldsOf(headers, order);
    CollectDistinct(base, fields);
    var got := Collect(base, fields);
    forall k ensures k in got <==> k in base + headers
             ensures k in got ==> got[k] == (base + headers)[k]
    {
      if k in order {
        var i :| 0 <= i < |order| && order[i] == k;
        assert fields[i].name == k;
      } else {
        assert k !in (set i | 0 <= i < |fields| :: fields[i].name);
      }
    }
  }

  lemma {:induction false} CollectAppend(base: map<string, string>, a: seq<Field>, b: seq<Field>)
    ensures Collect(base, a + b) == Collect(Collect(base, a), b)
    ensures RenderFields(a + b) == RenderFields(a) + RenderFields(b)
    decreases |a|
  {
    if a == [] {
      assert a + b == b;
    } else {
      assert (a + b)[1..] == a[1..] + b;
      CollectAppend(base[a[0].name := a[0].value], a[1..], b);
    }
  }

  /** The server's own headers. */
  function OwnFields(r: Response): seq<Field> {
    if r.closeConnection then [Field("Connection", "close")]
    else [Field("Content-Length", Decimal(|r.body|)), Field("Connection", "Keep-Alive")]
  }

  lemma LimitIsPower()
    ensures Pow10(13) == SCRATCH_LIMIT
  {
    assert Pow10(4) == 10_000;
    assert Pow10(8) == 10_000 * Pow10(4) by { assert Pow10(6) == 100 * Pow10(4); }
    assert Pow10(12) == 10_000 * Pow10(8) by { assert Pow10(10) == 100 * Pow10(8); }
  }

  lemma DecimalPlain(n: nat)
    ensures LineOk(Decimal(n)) && Trimmed(Decimal(n)) && '\r' !in Decimal(n)
  {
    NoCrLineOk(Decimal(n));
    var d := Decimal(n);
    assert d[0] in d && d[|d| - 1] in d;
  }

  /** A field whose value has no CR and no outer blanks is fine. */
  lemma PlainField(name: string, value: string)
    requires ':' !in name && '\r' !in name && '\r' !in value && Trimmed(value)
    ensures FieldOk(Field(name, value))
  {
    NoCrLineOk(FieldLine(Field(name, value)));
  }

  lemma RenderOne(f: Field)
    ensures RenderFields([f]) == FieldLine(f) + CRLF
  {
    assert [f][1..] == [];
    assert RenderFields([]) == "";
  }

  lemma RenderTwo(f: Field, g: Field)
    ensures RenderFields([f, g]) == FieldLine(f) + CRLF + (FieldLine(g) + CRLF)
  {
    assert [f, g][1..] == [g];
    RenderOne(g);
  }

  /** The scratch array holds the whole line exactly when the number has at most 13
      digits; what `snprintf` cuts off is the end of the line. */
  lemma ScratchHolds(n: nat)
    ensures var line := "Content-Length: " + Decimal(n) + CRLF;
            Printed(line) <= line && (Printed(line) == line <==> n < SCRATCH_LIMIT)
  {
    LimitIsPower();
    DecimalLength(n, 13);
  }

  lemma OwnFieldsOk(r: Response)
    ensures FieldsOk(OwnFields(r))
  {
    var own := OwnFields(r);
    if r.closeConnection {
      PlainPair(own[0].name, own[0].value);
    } else {
      PlainPair(own[1].name, own[1].value);
      DecimalPlain(|r.body|);
      PlainField(own[0].name, own[0].value);
    }
  }

  lemma PlainPair(name: string, value: string)
    requires name == "Connection" && (value == "close" || value == "Keep-Alive")
    ensures FieldOk(Field(name, value))
  {
    PlainField(name, value);
  }

  lemma WholeFieldsPrinted(r: Response)
    requires r.closeConnection || |r.body| < SCRATCH_LIMIT
    ensures RenderFields(OwnFields(r)) == OwnBlock(r)
  {
    var own := OwnFields(r);
    if r.closeConnection {
      RenderOne(own[0]);
      assert FieldLine(own[0]) == "Connection: close";
    } else {
      RenderTwo(own[0], own[1]);
      LengthLineWhole(own[0], r);
      assert FieldLine(own[1]) == "Connection: Keep-Alive";
    }
  }

  lemma LengthLineWhole(f: Field, r: Response)
    requires f == Field("Content-Length", Decimal(|r.body|)) && |r.body| < SCRATCH_LIMIT
    ensures FieldLine(f) + CRLF == Printed(LengthLine(r))
  {
    ScratchHolds(|r.body|);
    assert FieldLine(f) + CRLF == LengthLine(r);
  }

  lemma OwnFieldsPrinted(r: Response, order: seq<string>)
    requires OrderOf(order, r.headers) && |r.body| < SCRATCH_LIMIT
    ensures FieldsOk(OwnFields(r))
    ensures HeaderBlock(r, order) == RenderFields(OwnFields(r) + FieldsOf(r.headers, order)) + CRLF
  {
    CollectAppend(map[], OwnFields(r), FieldsOf(r.headers, order));
    OwnFieldsOk(r);
    WholeFieldsPrinted(r);
  }

  lemma OwnCollected(r: Response)
    ensures Collect(map[], OwnFields(r)) + r.headers == IntendedHeaders(r)
  {
    var own := OwnFields(r);
    if |own| == 1 {
      assert own[1..] == [];
    } else {
      assert own[1..] == [own[1]] && own[1..][1..] == [];
      assert Collect(map[], own) == Collect(map[own[0].name := own[0].value], [own[1]])
             == map["Content-Length" := Decimal(|r.body|), "Connection" := "Keep-Alive"];
    }
  }

  /** Read from the header state, a whole response gives back its headers and leaves
      exactly its body; a kept-alive one announces the size of that body, unless its
      own header overrides it. */
  lemma ResponseParses(ctx: Context, r: Response, order: seq<string>, t: int)
    requires ctx.state == ExpectHeaders && ctx.request.headers == map[] && |r.body| < SCRATCH_LIMIT
    requires OrderOf(order, r.headers) && FieldsOk(FieldsOf(r.headers, order))
    requires LineOk(StatusLine(r))
    ensures var bytes := ResponseBytes(r, order);
            && FindCrlf(bytes) == Some(|StatusLine(r)|)
            && var o := Parse(ctx, bytes[|StatusLine(r)| + 2..], t);
            && o.verdict == Accepted && o.ctx.state == GotAll && o.rest == r.body
            && o.ctx.request.headers == IntendedHeaders(r)
  {
    var own, fields := OwnFields(r), FieldsOf(r.headers, order);
    var block := HeaderBlock(r, order) + r.body;
    LineEnd(StatusLine(r), block);
    AfterLine(StatusLine(r), block);
    OwnFieldsPrinted(r, order);
    assert block == RenderFields(own + fields) + CRLF + r.body;
    FieldsParse(ctx, own + fields, r.body, t);
    CollectAppend(map[], own, fields);
    CollectOverrides(Collect(map[], own), r.headers, order);
    OwnCollected(r);
  }

  // -------------------------------------------------------------- the real buffer

  /** The strings `appendToBuffer` appends, one by one. */
  function OwnPieces(r: Response): seq<string> {
    if r.closeConnection then ["Connection: close" + CRLF]
    else [Printed(LengthLine(r)), "Connection: Keep-Alive" + CRLF]
  }

  function FieldPieces(fields: seq<Field>): seq<string> {
    if fields == [] then [] else PiecesOf(fields[0]) + FieldPieces(fields[1..])
  }

  function PiecesOf(f: Field): seq<string> { [f.name, ": ", f.value, CRLF] }

  function StatusPieces(r: Response): seq<string> {
    [Printed("HTTP/1.1 " + Decimal(r.statusCode) + " "), r.statusMessage, CRLF]
  }

  function Pieces(r: Response, order: seq<string>): seq<string>
    requires OrderOf(order, r.headers)
  {
    StatusPieces(r) + OwnPieces(r) + FieldPieces(FieldsOf(r.headers, order)) + [CRLF, r.body]
  }

  lemma ConcatTwo(a: string, b: string)
    ensures Concat([a]) == a && Concat([a, b]) == a + b
  {
    assert [a, b][1..] == [b] && [b][1..] == [] && [a][1..] == [];
  }

  lemma ConcatMore(pieces: seq<string>)
    requires |pieces| == 3 || |pieces| == 4
    ensures Concat(pieces) == pieces[0] + pieces[1] + pieces[2] + (if |pieces| == 4 then pieces[3] else "")
  {
    var tail := pieces[1..];
    if |pieces| == 3 {
      assert tail == [pieces[1], pieces[2]];
      ConcatTwo(pieces[1], pieces[2]);
    } else {
      assert tail[1..] == [pieces[2], pieces[3]];
      ConcatTwo(pieces[2], pieces[3]);
    }
  }

  lemma PiecesOfConcat(f: Field)
    ensures Concat(PiecesOf(f)) == FieldLine(f) + CRLF
  {
    ConcatMore(PiecesOf(f));
  }

  lemma {:induction false} FieldPiecesConcat(fields: seq<Field>)
    ensures Concat(FieldPieces(fields)) == RenderFields(fields)
    decreases |fields|
  {
    if fields != [] {
      FieldPiecesConcat(fields[1..]);
      PiecesOfConcat(fields[0]);
      PutSplits(BufferView([], 0, 0, 0), PiecesOf(fields[0]), FieldPieces(fields[1..]));
    }
  }

  lemma OwnPiecesConcat(r: Response)
    ensures Concat(OwnPieces(r)) == OwnBlock(r)
  {
    ConcatTwo(OwnPieces(r)[0], OwnPieces(r)[|OwnPieces(r)| - 1]);
  }

  lemma StatusPiecesConcat(r: Response)
    ensures Concat(StatusPieces(r)) == StatusLine(r) + CRLF
  {
    ConcatMore(StatusPieces(r));
  }

  lemma PiecesConcat(r: Response, order: seq<string>)
    requires OrderOf(order, r.headers)
    ensures Concat(Pieces(r, order)) == ResponseBytes(r, order)
  {
    var fields := FieldsOf(r.headers, order);
    StatusPiecesConcat(r);
    OwnPiecesConcat(r);
    FieldPiecesConcat(fields);
    ConcatTwo(CRLF, r.body);
    ConcatBlocks(StatusPieces(r), OwnPieces(r), FieldPieces(fields), [CRLF, r.body]);
    Assembled(StatusLine(r), OwnBlock(r), RenderFields(fields), r.body);
  }

  lemma ConcatBlocks(a: seq<string>, b: seq<string>, c: seq<string>, d: seq<string>)
    ensures Concat(a + b + c + d) == Concat(a) + Concat(b) + Concat(c) + Concat(d)
  {
    var v := BufferView([], 0, 0, 0);
    PutSplits(v, a, b);
    PutSplits(v, a + b, c);
    PutSplits(v, a + b + c, d);
  }

  lemma Assembled(status: string, own: string, fields: string, body: string)
    ensures (status + CRLF) + own + fields + (CRLF + body) == status + CRLF + (own + fields + CRLF + body)
  {
  }

  /** The buffer ends up holding exactly the response, and what is read from it is
      what was meant, exactly when the response as a whole is smaller than 2^31
      bytes: `append` takes sizes as `int`. Far below the scratch array's limit, so
      that one never bites. */
  lemma ResponseRoundTrip(v: BufferView, ctx: Context, r: Response, order: seq<string>, t: int)
    requires Printable(v) && v.live == ""
    requires ctx.state == ExpectHeaders && ctx.request.headers == map[]
    requires OrderOf(order, r.headers) && FieldsOk(FieldsOf(r.headers, order))
    requires LineOk(StatusLine(r))
    ensures var put := PutAll(v, Pieces(r, order));
            && (|ResponseBytes(r, order)| < INT_LIMIT
                <==> put.Some? && put.value.live == ResponseBytes(r, order))
            && (|ResponseBytes(r, order)| < INT_LIMIT ==>
                  && FindCrlf(put.value.live) == Some(|StatusLine(r)|)
                  && var o := Parse(ctx, put.value.live[|StatusLine(r)| + 2..], t);
                  && o.verdict == Accepted && o.ctx.state == GotAll && o.rest == r.body
                  && o.ctx.request.headers == IntendedHeaders(r))
  {
    PutExact(v, Pieces(r, order));
    PiecesConcat(r, order);
    assert "" + Concat(Pieces(r, order)) == Concat(Pieces(r, order));
    if |ResponseBytes(r, order)| < INT_LIMIT { ResponseParses(ctx, r, order, t); }
  }

  /** The status line says the code in decimal, whole for every `int`, and the text. */
  lemma StatusLineSays(r: Response)
    requires r.statusCode < INT_LIMIT
    ensures StatusLine(r) == "HTTP/1.1 " + Decimal(r.statusCode) + " " + r.statusMessage
    ensures Value(Decimal(r.statusCode)) == r.statusCode
  {
    DecimalValue(r.statusCode);
    assert Pow10(10) == 100 * Pow10(8) && Pow10(8) == 100 * Pow10(6) && Pow10(6) == 100 * Pow10(4);
    DecimalLength(r.statusCode, 10);
  }

  /** A client is told whether the connection stays, and how long the body is exactly
      when it does, unless the response's own headers say otherwise. */
  lemma ConnectionIsTold(ctx: Context, r: Response, order: seq<string>, t: int)
    requires ctx.state == ExpectHeaders && ctx.request.headers == map[] && |r.body| < SCRATCH_LIMIT
    requires OrderOf(order, r.headers) && FieldsOk(FieldsOf(r.headers, order))
    requires LineOk(StatusLine(r)) && "Connection" !in r.headers && "Content-Length" !in r.headers
    ensures var got := Parse(ctx, ResponseBytes(r, order)[|StatusLine(r)| + 2..], t).ctx.request.headers;
            && "Connection" in got && got["Connection"] == (if r.closeConnection then "close" else "Keep-Alive")
            && ("Content-Length" in got <==> !r.closeConnection)
  {
    ResponseParses(ctx, r, order, t);
  }

  /** What a client reads as Content-Length is the size of the body it then finds. */
  lemma ContentLengthIsBodySize(ctx: Context, r: Response, order: seq<string>, t: int)
    requires ctx.state == ExpectHeaders && ctx.request.headers == map[] && |r.body| < SCRATCH_LIMIT
    requires OrderOf(order, r.headers) && FieldsOk(FieldsOf(r.headers, order))
    requires LineOk(StatusLine(r)) && !r.closeConnection && "Content-Length" !in r.headers
    ensures var o := Parse(ctx, ResponseBytes(r, order)[|StatusLine(r)| + 2..], t);
            && "Content-Length" in o.ctx.request.headers
            && Value(o.ctx.request.headers["Content-Length"]) == |o.rest|
  {
    ResponseParses(ctx, r, order, t);
    DecimalValue(|r.body|);
  }

  // ----------------------------------------------------------- implementation

  class HttpResponse {
    var headers: map<string, string>
    var statusCode: nat
    var statusMessage: string
    var closeConnection: bool
    var body: string

    function View(): Response
      reads this
    {
      Response(headers, statusCode, statusMessage, closeConnection, body)
    }

    constructor (close: bool)
      ensures View() == Response(map[], 0, "", close, "")
    {
      headers, statusCode, statusMessage, closeConnection, body := map[], 0, "", close, "";
    }

    /** What the user's callback leaves in the response. */
    method Become(r: Response)
      modifies this
      ensures View() == r
    {
      headers, statusCode, statusMessage, closeConnection, body :=
        r.headers, r.statusCode, r.statusMessage, r.closeConnection, r.body;
    }

    /** `order` is the order in which the header map iterates; false stands for
        undefined behaviour. */
    method AppendToBuffer(output: Buffer, order: seq<string>) returns (ok: bool)
      requires OrderOf(order, headers) && output.Exact()
      modifies output, output.store
      ensures output.Exact() && (output.store == old(output.store) || fresh(output.store))
      ensures PutAll(old(output.View()), Pieces(View(), order)) == if ok then Some(output.View()) else None
    {
      ghost var v, fields := output.View(), FieldsOf(headers, order);
      ghost var start := StatusPieces(View()) + OwnPieces(View());
      PutSplits(v, StatusPieces(View()), OwnPieces(View()));
      PutSplits(v, start, FieldPieces(fields));
      PutSplits(v, start + FieldPieces(fields), [CRLF, body]);
      ok := AppendStatus(output);
      if !ok { return; }
      ok := AppendOwn(output);
      if !ok { return; }
      ok := AppendFields(output, order);
      if !ok { return; }
      ok := AppendTwo(output, CRLF, body);
    }

    method AppendStatus(output: Buffer) returns (ok: bool)
      requires output.Exact()
      modifies output, output.store
      ensures output.Exact() && (output.store == old(output.store) || fresh(output.store))
      ensures PutAll(old(output.View()), StatusPieces(View())) == if ok then Some(output.View()) else None
    {
      ghost var v, code := output.View(), Printed("HTTP/1.1 " + Decimal(statusCode) + " ");
      assert StatusPieces(View()) == [code] + [statusMessage, CRLF];
      PutOne(v, code, [statusMessage, CRLF]);
      ok := output.AppendString(Printed("HTTP/1.1 " + Decimal(statusCode) + " "));
      if ok {
        ok := AppendTwo(output, statusMessage, CRLF);
      }
    }

    method AppendOwn(output: Buffer) returns (ok: bool)
      requires output.Exact()
      modifies output, output.store
      ensures output.Exact() && (output.store == old(output.store) || fresh(output.store))
      ensures PutAll(old(output.View()), OwnPieces(View())) == if ok then Some(output.View()) else None
    {
      if closeConnection {
        PutOne(output.View(), "Connection: close" + CRLF, []);
        ok := output.AppendString("Connection: close" + CRLF);
      } else {
        ok := AppendTwo(output, Printed("Content-Length: " + Decimal(|body|) + CRLF), "Connection: Keep-Alive" + CRLF);
      }
    }

    static method AppendTwo(output: Buffer, first: string, second: string) returns (ok: bool)
      requires output.Exact()
      modifies output, output.store
      ensures output.Exact() && (output.store == old(output.store) || fresh(output.store))
      ensures PutAll(old(output.View()), [first, second]) == if ok then Some(output.View()) else None
    {
      PutOne(output.View(), first, [second]);
      ok := output.AppendString(first);
      if ok {
        PutOne(output.View(), second, []);
        ok := output.AppendString(second);
      }
    }

    method AppendFields(output: Buffer, order: seq<string>) returns (ok: bool)
      requires OrderOf(order, headers) && output.Exact()
      modifies output, output.store
      ensures output.Exact() && (output.store == old(output.store) || fresh(output.store))
      ensures PutAll(old(output.View()), FieldPieces(FieldsOf(headers, order)))
              == if ok then Some(output.View()) else None
    {
      var all := headers;
      ghost var fields := FieldsOf(all, order);
      ghost var result := PutAll(output.View(), FieldPieces(fields));
      ok := true;
      var i := 0;
      assert fields[0..] == fields;
      while i < |order| && ok
        invariant 0 <= i <= |order|
        invariant output.Exact() && (output.store == old(output.store) || fresh(output.store))
        invariant result == if ok then PutAll(output.View(), FieldPieces(fields[i..])) else None
      {
        assert fields[i] == Field(order[i], all[order[i]]);
        ok := AppendNext(output, fields, i, order[i], all[order[i]]);
        i := i + 1;
      }
      if ok {
        assert fields[i..] == [] && FieldPieces([]) == [];
      }
    }

    static method AppendNext(output: Buffer, ghost fields: seq<Field>, ghost i: nat, name: string, value: string)
      returns (ok: bool)
      requires output.Exact() && i < |fields| && fields[i] == Field(name, value)
      modifies output, output.store
      ensures output.Exact() && (output.store == old(output.store) || fresh(output.store))
      ensures PutAll(old(output.View()), FieldPieces(fields[i..]))
              == if ok then PutAll(output.View(), FieldPieces(fields[i + 1..])) else None
    {
      FieldFirst(output.View(), fields, i);
      ok := AppendField(output, name, value);
    }

    static method AppendField(output: Buffer, name: string, value: string) returns (ok: bool)
      requires output.Exact()
      modifies output, output.store
      ensures output.Exact() && (output.store == old(output.store) || fresh(output.store))
      ensures PutAll(old(output.View()), PiecesOf(Field(name, value))) == if ok then Some(output.View()) else None
    {
      PutSplits(output.View(), [name, ": "], [value, CRLF]);
      assert [name, ": "] + [value, CRLF] == PiecesOf(Field(name, value));
      ok := AppendTwo(output, name, ": ");
      if ok {
        ok := AppendTwo(output, value, CRLF);
      }
    }
  }

  lemma PutOne(v: BufferView, first: string, rest: seq<string>)
    ensures PutAll(v, [first] + rest) == match StringView(v, first) case None => None case Some(w) => PutAll(w, rest)
    ensures PutAll(v, [first]) == StringView(v, first)
  {
    assert ([first] + rest)[1..] == rest && [first][1..] == [];
  }

  lemma FieldFirst(v: BufferView, fields: seq<Field>, i: nat)
    requires i < |fields|
    ensures PutAll(v, FieldPieces(fields[i..]))
            == match PutAll(v, PiecesOf(fields[i]))
               case None => None
               case Some(w) => PutAll(w, FieldPieces(fields[i + 1..]))
  {
    assert fields[i..][1..] == fields[i + 1..];
    PutSplits(v, PiecesOf(fields[i]), FieldPieces(fields[i + 1..]));
  }
}
