/** Requests in the form of sections 3 and 5 of RFC 9112, and what the parser
    makes of them. */
module HttpRoundTrip {
  import opened Text
  import opened HttpRequests
  import opened HttpContexts

  datatype Field = Field(name: string, value: string)

  /** A field line: no colon in the name, no outer blanks around the value, one line. */
  ghost predicate FieldOk(f: Field) {
    ':' !in f.name && Trimmed(f.value) && LineOk(FieldLine(f))
  }

  ghost predicate FieldsOk(fields: seq<Field>) {
    forall i | 0 <= i < |fields| :: FieldOk(fields[i])
  }

  function FieldLine(f: Field): string {
    f.name + ": " + f.value
  }

  function RenderFields(fields: seq<Field>): string {
    if fields == [] then "" else FieldLine(fields[0]) + CRLF + RenderFields(fields[1..])
  }

  /** The header map after the fields, the last of equal names winning. */
  function Collect(headers: map<string, string>, fields: seq<Field>): map<string, string>
    decreases |fields|
  {
    if fields == [] then headers else Collect(headers[fields[0].name := fields[0].value], fields[1..])
  }

  /** With distinct names the map is exactly the list. */
  lemma {:induction false} CollectDistinct(headers: map<string, string>, fields: seq<Field>)
    requires forall i, j | 0 <= i < j < |fields| :: fields[i].name != fields[j].name
    ensures forall i | 0 <= i < |fields| :: fields[i].name in Collect(headers, fields)
                                            && Collect(headers, fields)[fields[i].name] == fields[i].value
    ensures forall k | k !in (set i | 0 <= i < |fields| :: fields[i].name) ::
              (k in Collect(headers, fields) <==> k in headers)
              && (k in headers ==> Collect(headers, fields)[k] == headers[k])
    decreases |fields|
  {
    if fields != [] {
      var f, rest := fields[0], fields[1..];
      CollectDistinct(headers[f.name := f.value], rest);
      var names := set i | 0 <= i < |fields| :: fields[i].name;
      var names' := set i | 0 <= i < |rest| :: rest[i].name;
      assert f.name !in names';
      forall i | 0 <= i < |fields|
        ensures fields[i].name in Collect(headers, fields)
                && Collect(headers, fields)[fields[i].name] == fields[i].value
      {
        if i > 0 { assert rest[i - 1] == fields[i]; }
      }
      forall k | k !in names ensures k !in names' && k != f.name {
        assert forall i | 0 <= i < |rest| :: rest[i] == fields[i + 1];
        assert fields[0].name in names;
      }
    }
  }

  lemma FieldLineParses(ctx: Context, f: Field, t: int)
    requires ctx.state == ExpectHeaders && FieldOk(f)
    ensures OneLine(ctx, FieldLine(f), t)
            == Next(ctx.(request := ctx.request.(headers := ctx.request.headers[f.name := f.value])))
  {
    var line := FieldLine(f);
    assert line == f.name + [':'] + ([' '] + f.value);
    FindAfter(f.name, ':', [' '] + f.value);
    assert line[|f.name| + 1..] == [' '] + f.value;
    assert line[..|f.name|] == f.name;
    TrimAfterBlank(f.value);
  }

  /** A header block followed by any bytes is read back field by field, and the
      bytes behind the blank line stay. */
  lemma {:induction false} FieldsParse(ctx: Context, fields: seq<Field>, tail: string, t: int)
    requires ctx.state == ExpectHeaders && FieldsOk(fields)
    ensures Parse(ctx, RenderFields(fields) + CRLF + tail, t)
            == Outcome(Accepted,
                       Context(GotAll, ctx.request.(headers := Collect(ctx.request.headers, fields))),
                       tail)
    decreases |fields|
  {
    var input := RenderFields(fields) + CRLF + tail;
    if fields == [] {
      assert input == "" + CRLF + tail;
      NoCrLineOk("");
      LineEnd("", tail);
      AfterLine("", tail);
      ParseStep(ctx, input, 0, "", t);
    } else {
      var line, rest := FieldLine(fields[0]), RenderFields(fields[1..]) + CRLF + tail;
      assert input == line + CRLF + rest;
      FieldLineParses(ctx, fields[0], t);
      LineEnd(line, rest);
      AfterLine(line, rest);
      ParseStep(ctx, input, |line|, line, t);
      FieldsParse(OneLine(ctx, line, t).ctx, fields[1..], tail, t);
    }
  }

  function VersionName(v: Version): string
    requires v != Unknown
  {
    if v == Http11 then "HTTP/1.1" else "HTTP/1.0"
  }

  function StartLine(r: Request): string
    requires r.verb != Invalid && r.version != Unknown
  {
    MethodName(r.verb) + " " + r.path + r.query + " " + VersionName(r.version)
  }

  /** The query keeps its '?'; the header map is what `fields` collects to. */
  ghost predicate WellFormed(r: Request, fields: seq<Field>) {
    && r.verb != Invalid && r.version != Unknown
    && ' ' !in r.path && '?' !in r.path && '\r' !in r.path
    && (r.query == "" || (r.query[0] == '?' && ' ' !in r.query && '\r' !in r.query))
    && FieldsOk(fields)
    && r.headers == Collect(map[], fields)
  }

  function Render(r: Request, fields: seq<Field>): string
    requires WellFormed(r, fields)
  {
    StartLine(r) + CRLF + RenderFields(fields) + CRLF
  }

  /** The '?' search separates path and query again. */
  lemma TargetSplits(r: Request, path: string, query: string)
    requires '?' !in path && (query == "" || query[0] == '?') && r.query == ""
    ensures WithTarget(r, path + query) == r.(path := path, query := query)
  {
    var target := path + query;
    if query == "" {
      assert target == path;
      FindAbsent(target, '?');
    } else {
      assert target == path + ['?'] + query[1..];
      FindAfter(path, '?', query[1..]);
    }
  }

  lemma WordSplits(word: string, tail: string)
    requires ' ' !in word
    ensures var line := word + " " + tail;
            Find(line, ' ') == |word| && line[..|word|] == word && line[|word| + 1..] == tail
  {
    FindAfter(word, ' ', tail);
  }

  /** Three words, two blanks: `processRequestLine` sees exactly the words. */
  lemma RequestLineSplits(r: Request, name: string, target: string, protocol: string)
    requires r.verb == Invalid && ' ' !in name && ' ' !in target
    requires MethodOf(name) != Invalid && VersionOf(protocol) != Unknown
    ensures RequestLine(r, name + " " + (target + " " + protocol))
            == (Accepted, WithTarget(r.(verb := MethodOf(name)), target).(version := VersionOf(protocol)))
  {
    WordSplits(name, target + " " + protocol);
    WordSplits(target, protocol);
  }

  lemma VersionNamed(v: Version)
    requires v != Unknown
    ensures VersionOf(VersionName(v)) == v && '\r' !in VersionName(v)
  {
    assert "HTTP/1.1"[7] != "HTTP/1.0"[7];
  }

  lemma StartLineParses(ctx: Context, r: Request, fields: seq<Field>)
    requires Resting(ctx) && WellFormed(r, fields)
    ensures LineOk(StartLine(r))
    ensures RequestLine(ctx.request, StartLine(r))
            == (Accepted, r.(headers := map[], receiveTime := ctx.request.receiveTime))
  {
    var name, target, protocol := MethodName(r.verb), r.path + r.query, VersionName(r.version);
    assert StartLine(r) == name + " " + (target + " " + protocol);
    VersionNamed(r.version);
    NoCrLineOk(StartLine(r));
    RequestLineSplits(ctx.request, name, target, protocol);
    TargetSplits(ctx.request.(verb := r.verb), r.path, r.query);
  }

  /** A rendered request followed by arbitrary bytes parses back to itself and
      leaves exactly those bytes, even in a context that served requests before. */
  lemma RequestRoundTrip(ctx: Context, r: Request, fields: seq<Field>, tail: string, t: int)
    requires Resting(ctx) && WellFormed(r, fields)
    ensures Parse(ctx, Render(r, fields) + tail, t)
            == Outcome(Accepted, Context(GotAll, r.(receiveTime := t)), tail)
  {
    var line, rest := StartLine(r), RenderFields(fields) + CRLF + tail;
    assert Render(r, fields) + tail == line + CRLF + rest;
    StartLineParses(ctx, r, fields);
    FirstLineTaken(ctx, r, line, rest, t);
    FieldsParse(Context(ExpectHeaders, r.(headers := map[], receiveTime := t)), fields, tail, t);
  }

  lemma FirstLineTaken(ctx: Context, r: Request, line: string, rest: string, t: int)
    requires ctx.state == ExpectRequestLine && LineOk(line)
    requires RequestLine(ctx.request, line) == (Accepted, r.(headers := map[], receiveTime := ctx.request.receiveTime))
    ensures Parse(ctx, line + CRLF + rest, t)
            == Parse(Context(ExpectHeaders, r.(headers := map[], receiveTime := t)), rest, t)
  {
    LineEnd(line, rest);
    AfterLine(line, rest);
    ParseStep(ctx, line + CRLF + rest, |line|, line, t);
  }

  /** The same, for every way the network may cut the bytes. */
  lemma RequestSurvivesChunks(ctx: Context, r: Request, fields: seq<Field>, tail: string, chunks: seq<Chunk>)
    requires Resting(ctx) && WellFormed(r, fields)
    requires Joined(chunks) == Render(r, fields) + tail
    ensures Same(Feed(ctx, "", chunks), Outcome(Accepted, Context(GotAll, r), tail))
  {
    RequestRoundTrip(ctx, r, fields, tail, 0);
    assert chunks != [];
    assert "" + Joined(chunks) == Joined(chunks);
    ChunkIndependence(ctx, "", chunks, 0);
  }
}
