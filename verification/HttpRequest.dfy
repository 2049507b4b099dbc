/** HTTP/HttpRequest.h: the request a connection is being filled with. */
module HttpRequests {
  import opened Text

  datatype Method = Invalid | Get | Post | Head | Put | Delete
  datatype Version = Unknown | Http10 | Http11

  datatype Request = Request(verb: Method, version: Version, path: string, query: string,
                             receiveTime: int, headers: map<string, string>)

  const EMPTY_REQUEST := Request(Invalid, Unknown, "", "", 0, map[])

  /** The method a request-line token names; names are case-sensitive. */
  function MethodOf(token: string): Method {
    if token == "GET" then Get
    else if token == "POST" then Post
    else if token == "HEAD" then Head
    else if token == "PUT" then Put
    else if token == "DELETE" then Delete
    else Invalid
  }

  function MethodName(m: Method): (r: string)
    ensures MethodOf(r) == m && ' ' !in r && '\r' !in r
  {
    match m
    case Invalid => "UNKNOWN"
    case Get => "GET"
    case Post => "POST"
    case Head => "HEAD"
    case Put => "PUT"
    case Delete => "DELETE"
  }

  /** One header line "name:value", with the blanks around the value dropped. */
  function WithHeader(r: Request, name: string, value: string): Request {
    r.(headers := r.headers[name := Trim(value)])
  }

  class HttpRequest {
    var verb: Method
    var version: Version
    var path: string
    var query: string
    var receiveTime: int
    var headers: map<string, string>

    function View(): Request
      reads this
    {
      Request(verb, version, path, query, receiveTime, headers)
    }

    constructor ()
      ensures View() == EMPTY_REQUEST
    {
      verb, version, path, query, receiveTime, headers := Invalid, Unknown, "", "", 0, map[];
    }

    /** The original asserts that no method has been set. */
    method SetMethod(token: string) returns (ok: bool)
      requires verb == Invalid
      modifies this
      ensures View() == old(View()).(verb := MethodOf(token))
      ensures ok <==> verb != Invalid
    {
      if token == "GET" {
        verb := Get;
      } else if token == "POST" {
        verb := Post;
      } else if token == "HEAD" {
        verb := Head;
      } else if token == "PUT" {
        verb := Put;
      } else if token == "DELETE" {
        verb := Delete;
      } else {
        verb := Invalid;
      }
      ok := verb != Invalid;
    }

    /** `line[colon]` is the ':'; the trimming loops work from both ends. */
    method AddHeader(line: string, colon: nat)
      requires colon < |line|
      modifies this
      ensures View() == WithHeader(old(View()), line[..colon], line[colon + 1..])
    {
      var start := SkipSpaces(line, colon + 1);
      var value := line[start..];
      ghost var left := value;
      while value != [] && IsSpace(value[|value| - 1])
        invariant TrimRight(value) == TrimRight(left)
      {
        value := value[..|value| - 1];
      }
      headers := headers[line[..colon] := value];
    }

    static method SkipSpaces(line: string, from: nat) returns (start: nat)
      requires from <= |line|
      ensures from <= start <= |line| && line[start..] == TrimLeft(line[from..])
    {
      start := from;
      ghost var rest := line[from..];
      while start < |line| && IsSpace(line[start])
        invariant from <= start <= |line| && rest == line[start..]
        invariant TrimLeft(rest) == TrimLeft(line[from..])
      {
        rest := rest[1..];
        start := start + 1;
      }
    }

    /** An absent header reads as the empty string. */
    method GetHeader(field: string) returns (value: string)
      ensures value == if field in headers then headers[field] else ""
    {
      value := if field in headers then headers[field] else "";
    }

    /** Exchanges everything but the version; the receive time is only copied. */
    method Swap(that: HttpRequest)
      requires that != this
      modifies this, that
      ensures View() == old(that.View()).(version := old(version))
      ensures that.View() == old(View()).(version := old(that.version), receiveTime := old(that.receiveTime))
    {
      verb, that.verb := that.verb, verb;
      path, that.path := that.path, path;
      query, that.query := that.query, query;
      receiveTime := that.receiveTime;
      headers, that.headers := that.headers, headers;
    }
  }
}
