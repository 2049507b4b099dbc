/** The lines HTTP/HttpContext understands, character by character: which request
    lines it accepts, what it takes from them, and what a header line says. */
module HttpGrammar {
  import opened Text
  import opened HttpRequests
  import opened HttpContexts

  // -------------------------------------------------------------- request lines

  predicate Name(name: string) {
    name == "GET" || name == "POST" || name == "HEAD" || name == "PUT" || name == "DELETE"
  }

  predicate Protocol(protocol: string) { protocol == "HTTP/1.1" || protocol == "HTTP/1.0" }

  /** Three words, one blank between each two. */
  predicate Form(line: string, name: string, target: string, protocol: string) {
    Name(name) && ' ' !in target && Protocol(protocol) && line == name + " " + target + " " + protocol
  }

  ghost predicate HasForm(line: string) {
    exists name, target, protocol :: Form(line, name, target, protocol)
  }

  predicate SaysName(verb: Method, name: string) {
    && (name == "GET" <==> verb == Get) && (name == "POST" <==> verb == Post) && (name == "HEAD" <==> verb == Head)
    && (name == "PUT" <==> verb == Put) && (name == "DELETE" <==> verb == Delete)
  }

  predicate SaysProtocol(version: Version, protocol: string) {
    (protocol == "HTTP/1.1" <==> version == Http11) && (protocol == "HTTP/1.0" <==> version == Http10)
  }

  /** The query begins at the first '?', if there is one, and includes it. */
  predicate SaysTarget(path: string, query: string, before: string, target: string) {
    if '?' in target then path + query == target && '?' !in path && query != "" && query[0] == '?'
    else path == target && query == before
  }

  predicate Says(r: Request, before: Request, name: string, target: string, protocol: string) {
    && SaysName(r.verb, name) && SaysProtocol(r.version, protocol)
    && SaysTarget(r.path, r.query, before.query, target)
    && r.headers == before.headers
  }

  lemma NameKnown(name: string)
    ensures MethodOf(name) != Invalid <==> Name(name)
    ensures Name(name) ==> SaysName(MethodOf(name), name) && ' ' !in name && '\r' !in name
  {
  }

  lemma ProtocolKnown(protocol: string)
    ensures VersionOf(protocol) != Unknown <==> Protocol(protocol)
    ensures Protocol(protocol) ==> SaysProtocol(VersionOf(protocol), protocol) && '\r' !in protocol
  {
    assert "HTTP/1.1"[7] == '1' && "HTTP/1.0"[7] == '0';
  }

  lemma FindSplits(s: string, c: char)
    requires Find(s, c) < |s|
    ensures var i := Find(s, c); c !in s[..i] && s == s[..i] + [c] + s[i + 1..]
  {
    FindIsFirst(s, c);
  }

  lemma {:induction false} FoundIfThere(s: string, c: char)
    ensures Find(s, c) < |s| <==> c in s
  {
    if s != [] && s[0] != c { FoundIfThere(s[1..], c); }
  }

  lemma TargetSaid(r: Request, target: string)
    ensures var r' := WithTarget(r, target);
            SaysTarget(r'.path, r'.query, r.query, target) && r' == r.(path := r'.path, query := r'.query)
  {
    FoundIfThere(target, '?');
    if '?' in target { FindSplits(target, '?'); }
  }

  /** Where the two blanks are. */
  lemma BlanksFound(line: string, name: string, target: string, protocol: string)
    requires ' ' !in name && ' ' !in target && line == name + " " + target + " " + protocol
    ensures Find(line, ' ') == |name| < |line| && line[..|name|] == name
    ensures var tail := line[|name| + 1..];
            Find(tail, ' ') == |target| < |tail| && tail[..|target|] == target && tail[|target| + 1..] == protocol
  {
    assert line == name + [' '] + (target + " " + protocol);
    FindAfter(name, ' ', target + " " + protocol);
    assert line[|name| + 1..] == target + [' '] + protocol;
    FindAfter(target, ' ', protocol);
  }

  /** A line of the form is accepted, and the request then says what the line says. */
  lemma FormAccepted(r: Request, line: string, name: string, target: string, protocol: string)
    requires r.verb == Invalid && Form(line, name, target, protocol)
    ensures RequestLine(r, line).0 == Accepted && Says(RequestLine(r, line).1, r, name, target, protocol)
    ensures RequestLine(r, line).1.receiveTime == r.receiveTime
  {
    NameKnown(name);
    ProtocolKnown(protocol);
    BlanksFound(line, name, target, protocol);
    TargetSaid(r.(verb := MethodOf(name)), target);
  }

  lemma WordsForm(line: string, name: string, tail: string, target: string, protocol: string)
    requires Find(line, ' ') == |name| < |line| && name == line[..|name|] && tail == line[|name| + 1..]
    requires Find(tail, ' ') == |target| < |tail| && target == tail[..|target|] && protocol == tail[|target| + 1..]
    requires MethodOf(name) != Invalid && VersionOf(protocol) != Unknown
    ensures HasForm(line)
  {
    FindSplits(line, ' ');
    FindSplits(tail, ' ');
    NameKnown(name);
    ProtocolKnown(protocol);
    WordsJoined(line, name, tail, target, protocol);
    assert Form(line, name, target, protocol);
  }

  /** No other line is. */
  lemma AcceptedHasForm(r: Request, line: string)
    requires r.verb == Invalid && RequestLine(r, line).0 == Accepted
    ensures HasForm(line)
  {
    AcceptedWords(r, line);
    var space := Find(line, ' ');
    var tail := line[space + 1..];
    var space2 := Find(tail, ' ');
    WordsForm(line, line[..space], tail, tail[..space2], tail[space2 + 1..]);
  }

  lemma AcceptedWords(r: Request, line: string)
    requires r.verb == Invalid && RequestLine(r, line).0 == Accepted
    ensures var space := Find(line, ' ');
            && space < |line| && MethodOf(line[..space]) != Invalid
            && var tail := line[space + 1..];
               var space2 := Find(tail, ' ');
               space2 < |tail| && VersionOf(tail[space2 + 1..]) != Unknown
  {
  }

  lemma WordsJoined(line: string, name: string, tail: string, target: string, protocol: string)
    requires line == name + [' '] + tail && tail == target + [' '] + protocol
    ensures line == name + " " + target + " " + protocol
  {
  }

  /** With no method set, exactly the lines of the form are accepted. */
  lemma LineAcceptedIff(r: Request, line: string)
    requires r.verb == Invalid
    ensures RequestLine(r, line).0 == Accepted <==> HasForm(line)
    ensures RequestLine(r, line).0 == Rejected <==> !HasForm(line)
  {
    if RequestLine(r, line).0 == Accepted {
      AcceptedHasForm(r, line);
    } else if HasForm(line) {
      var name, target, protocol :| Form(line, name, target, protocol);
      FormAccepted(r, line, name, target, protocol);
    }
  }

  ghost predicate StartsWithName(line: string) {
    exists name :: Name(name) && name + " " <= line
  }

  /** A refused line leaves a method behind exactly when it starts with one of the five
      names and a blank. */
  lemma RefusedNames(r: Request, line: string)
    requires r.verb == Invalid && RequestLine(r, line).0 == Rejected
    ensures RequestLine(r, line).1.verb != Invalid <==> StartsWithName(line)
  {
    if RequestLine(r, line).1.verb != Invalid {
      FindSplits(line, ' ');
      var name := line[..Find(line, ' ')];
      NameKnown(name);
      assert Name(name) && name + " " <= line;
    }
    if StartsWithName(line) {
      var name :| Name(name) && name + " " <= line;
      NameStarts(line, name);
    }
  }

  lemma NameStarts(line: string, name: string)
    requires Name(name) && name + " " <= line
    ensures Find(line, ' ') == |name| < |line| && MethodOf(line[..|name|]) != Invalid
  {
    NameKnown(name);
    assert line == name + [' '] + line[|name| + 1..];
    FindAfter(name, ' ', line[|name| + 1..]);
    assert line[..|name|] == name;
  }

  // ----------------------------------------------------------------- the request

  /** Headers change only the header map. */
  lemma {:induction false} HeadersKeepLine(ctx: Context, s: string, t: int)
    requires ctx.state == ExpectHeaders
    ensures Parse(ctx, s, t).ctx.request.(headers := map[]) == ctx.request.(headers := map[])
    decreases |s|
  {
    match FindCrlf(s)
    case None =>
    case Some(end) =>
      var step := OneLine(ctx, s[..end], t);
      if step.Next? { HeadersKeepLine(step.ctx, s[end + 2..], t); }
  }

  /** From rest, input that ends in CRLFCRLF is accepted exactly when its first line
      has the form; every other is refused and stays. */
  lemma FirstLineDecides(ctx: Context, s: string, t: int)
    requires Resting(ctx) && EndsBlank(s)
    ensures FindCrlf(s).Some?
    ensures var o, line := Parse(ctx, s, t), s[..FindCrlf(s).value];
            && (o.verdict == Accepted <==> HasForm(line))
            && (o.verdict == Rejected <==> !HasForm(line))
            && (!HasForm(line) ==> o.rest == s && (o.ctx.request.verb != Invalid <==> StartsWithName(line)))
  {
    BlankSurvives(s);
    var o, line := Parse(ctx, s, t), s[..FindCrlf(s).value];
    GateDecides(ctx, s, t);
    LineAcceptedIff(ctx.request, line);
    ParseStep(ctx, s, FindCrlf(s).value, line, t);
    if o.verdict == Rejected {
      RejectedAtOnce(ctx, s, t);
      RefusedNames(ctx.request, line);
    }
  }

  /** And an accepted request says what its first line says. */
  lemma RequestSays(ctx: Context, s: string, t: int, line: string, name: string, target: string, protocol: string)
    requires Resting(ctx) && FindCrlf(s) == Some(|line|) && line <= s && Form(line, name, target, protocol)
    ensures var r := Parse(ctx, s, t).ctx.request;
            && SaysName(r.verb, name) && SaysProtocol(r.version, protocol) && SaysTarget(r.path, r.query, "", target)
            && r.receiveTime == t
  {
    assert s[..|line|] == line;
    FormAccepted(ctx.request, line, name, target, protocol);
    FirstLineKept(ctx, s, t, line);
  }

  lemma FirstLineKept(ctx: Context, s: string, t: int, line: string)
    requires ctx.state == ExpectRequestLine && FindCrlf(s) == Some(|line|) && line == s[..|line|]
    requires RequestLine(ctx.request, line).0 == Accepted
    ensures Parse(ctx, s, t).ctx.request.(headers := map[])
            == RequestLine(ctx.request, line).1.(receiveTime := t, headers := map[])
  {
    ParseStep(ctx, s, |line|, line, t);
    HeadersKeepLine(OneLine(ctx, line, t).ctx, s[|line| + 2..], t);
  }

  // ---------------------------------------------------------------- header lines

  predicate Blank(c: char) {
    c == ' ' || c == '\t' || c == '\n' || c == '\U{0B}' || c == '\U{0C}' || c == '\r'
  }

  predicate AllBlank(s: string) { forall i | 0 <= i < |s| :: Blank(s[i]) }

  predicate Tight(value: string) { value != "" ==> !Blank(value[0]) && !Blank(value[|value| - 1]) }

  lemma BlankIsSpace(c: char)
    ensures Blank(c) <==> IsSpace(c)
  {
  }

  lemma {:induction false} LeftTrimmed(s: string, left: string, rest: string)
    requires s == left + rest && AllBlank(left) && (rest != "" ==> !Blank(rest[0]))
    ensures TrimLeft(s) == rest
    decreases |left|
  {
    if s != "" { BlankIsSpace(s[0]); }
    if left == "" {
      assert s == rest;
      TrimLeftStep(s);
    } else {
      FirstOff(s, left, rest);
      LeftTrimmed(s[1..], left[1..], rest);
      TrimLeftStep(s);
    }
  }

  lemma FirstOff(s: string, left: string, rest: string)
    requires s == left + rest && left != "" && AllBlank(left)
    ensures Blank(s[0]) && s[1..] == left[1..] + rest && AllBlank(left[1..])
  {
    assert s[0] == left[0];
    forall i | 0 <= i < |left[1..]| ensures Blank(left[1..][i]) { assert left[1..][i] == left[i + 1]; }
  }

  lemma {:induction false} TrimLeftStep(s: string)
    ensures TrimLeft(s) == if s != "" && IsSpace(s[0]) then TrimLeft(s[1..]) else s
  {
  }

  lemma {:induction false} RightTrimmed(rest: string, right: string)
    requires AllBlank(right) && (rest != "" ==> !Blank(rest[|rest| - 1]))
    ensures TrimRight(rest + right) == rest
    decreases |right|
  {
    var s := rest + right;
    if s != "" { BlankIsSpace(s[|s| - 1]); }
    if right == "" {
      assert s == rest;
      TrimRightStep(s);
    } else {
      var shorter := right[..|right| - 1];
      assert s[|s| - 1] == right[|right| - 1] && s[..|s| - 1] == rest + shorter;
      RightTrimmed(rest, shorter);
      TrimRightStep(s);
    }
  }

  lemma {:induction false} TrimRightStep(s: string)
    ensures TrimRight(s) == if s != "" && IsSpace(s[|s| - 1]) then TrimRight(s[..|s| - 1]) else s
  {
  }

  /** A header line: the name up to the first colon, blanks, the value, blanks. */
  lemma HeaderLineSays(ctx: Context, name: string, left: string, value: string, right: string, t: int)
    requires ctx.state == ExpectHeaders && ':' !in name
    requires AllBlank(left) && AllBlank(right) && Tight(value) && (value == "" ==> right == "")
    ensures OneLine(ctx, name + ":" + left + value + right, t)
            == Next(ctx.(request := ctx.request.(headers := ctx.request.headers[name := value])))
  {
    var rest := left + value + right;
    var line := name + ":" + left + value + right;
    assert line == name + [':'] + rest;
    FindAfter(name, ':', rest);
    assert line[..|name|] == name && line[|name| + 1..] == rest;
    ValueTrimmed(rest, left, value, right);
  }

  lemma ValueTrimmed(rest: string, left: string, value: string, right: string)
    requires rest == left + value + right && AllBlank(left) && AllBlank(right)
    requires Tight(value) && (value == "" ==> right == "")
    ensures Trim(rest) == value
  {
    Assoc(left, value, right);
    LeftTrimmed(rest, left, value + right);
    RightTrimmed(value, right);
  }

  lemma {:induction false} CutLeft(s: string) returns (left: string, rest: string)
    ensures s == left + rest && AllBlank(left) && (rest != "" ==> !Blank(rest[0]))
  {
    if s == "" || !Blank(s[0]) {
      left, rest := "", s;
    } else {
      left, rest := CutLeft(s[1..]);
      left := [s[0]] + left;
    }
  }

  lemma {:induction false} CutRight(s: string) returns (rest: string, right: string)
    ensures s == rest + right && AllBlank(right) && (rest != "" ==> !Blank(rest[|rest| - 1])) && rest <= s
  {
    if s == "" || !Blank(s[|s| - 1]) {
      rest, right := s, "";
    } else {
      rest, right := CutRight(s[..|s| - 1]);
      right := right + [s[|s| - 1]];
    }
  }

  lemma NothingLeft(inner: string, value: string, right: string)
    requires inner == value + right && (inner != "" ==> !Blank(inner[0])) && AllBlank(right)
    ensures value == "" ==> right == ""
    ensures value != "" ==> !Blank(value[0])
  {
    assert value != "" ==> inner[0] == value[0];
    assert value == "" ==> inner == right;
  }

  /** Every line with a colon is such a line. */
  lemma HeaderLineSplits(line: string) returns (name: string, left: string, value: string, right: string)
    requires ':' in line
    ensures line == name + ":" + left + value + right && ':' !in name
    ensures AllBlank(left) && AllBlank(right) && Tight(value) && (value == "" ==> right == "")
  {
    FoundIfThere(line, ':');
    FindSplits(line, ':');
    name := line[..Find(line, ':')];
    var rest, inner := line[Find(line, ':') + 1..], "";
    left, inner := CutLeft(rest);
    value, right := CutRight(inner);
    NothingLeft(inner, value, right);
    Assoc(left, value, right);
    assert line == name + ":" + (left + value + right);
  }

  /** A line without a colon, blank or not, ends the request as it is. */
  lemma ColonlessLineEnds(ctx: Context, line: string, t: int)
    requires ctx.state == ExpectHeaders && ':' !in line
    ensures OneLine(ctx, line, t) == Stop(Accepted, ctx.(state := GotAll))
  {
    FindAbsent(line, ':');
  }
}
