/** Byte-string helpers the HTTP code takes from the C++ library: searching,
    trimming and decimal printing. Bytes are modelled as `char`. */
module Text {

  datatype Option<T> = None | Some(value: T)

  const CRLF: string := "\r\n"

  lemma Assoc<T>(a: seq<T>, b: seq<T>, c: seq<T>)
    ensures a + b + c == a + (b + c)
  {
  }

  // ---------------------------------------------------------------- searching

  predicate CrlfAt(s: string, i: int) {
    0 <= i && i + 1 < |s| && s[i] == '\r' && s[i + 1] == '\n'
  }

  /** The first CRLF of `s`, as `std::search` finds it. */
  function FindCrlf(s: string): (r: Option<nat>)
    ensures r.Some? ==> CrlfAt(s, r.value) && forall j :: 0 <= j < r.value ==> !CrlfAt(s, j)
    ensures r.None? ==> forall j :: !CrlfAt(s, j)
  {
    if |s| < 2 then None
    else if CrlfAt(s, 0) then Some(0)
    else
      var t := s[1..];
      assert forall j :: j > 0 ==> (CrlfAt(s, j) <==> CrlfAt(t, j - 1));
      match FindCrlf(t)
      case None => None
      case Some(i) => Some(i + 1)
  }

  /** The first occurrence of `c` in `s`, or |s|, as `std::find` reports it. */
  function Find(s: string, c: char): (r: nat)
    ensures r <= |s|
    ensures r < |s| ==> s[r] == c
  {
    if s == [] || s[0] == c then 0 else 1 + Find(s[1..], c)
  }

  /** A first CRLF is the only first CRLF. */
  lemma FirstCrlf(s: string, i: nat)
    requires CrlfAt(s, i)
    requires forall j :: 0 <= j < i ==> !CrlfAt(s, j)
    ensures FindCrlf(s) == Some(i)
  {
    match FindCrlf(s)
    case None => assert false;
    case Some(k) => assert k == i;
  }

  /** Bytes that arrive later never move a CRLF that is already there. */
  lemma CrlfStable(s: string, t: string)
    requires FindCrlf(s).Some?
    ensures FindCrlf(s + t) == FindCrlf(s)
  {
    var i := FindCrlf(s).value;
    forall j | 0 <= j < i ensures !CrlfAt(s + t, j) { assert !CrlfAt(s, j); }
    FirstCrlf(s + t, i);
  }

  /** Text that cannot be mistaken for more than one line when CRLF follows it. */
  ghost predicate LineOk(line: string) {
    (forall j :: !CrlfAt(line, j)) && (line != [] ==> line[|line| - 1] != '\r')
  }

  lemma NoCrLineOk(line: string)
    requires '\r' !in line
    ensures LineOk(line)
  {
  }

  /** Such a line, followed by CRLF, ends exactly at that CRLF. */
  lemma LineEnd(line: string, rest: string)
    requires LineOk(line)
    ensures FindCrlf(line + CRLF + rest) == Some(|line|)
  {
    var s := line + CRLF + rest;
    forall j | 0 <= j < |line| ensures !CrlfAt(s, j) { assert !CrlfAt(line, j); }
    assert CrlfAt(s, |line|);
    FirstCrlf(s, |line|);
  }

  /** What is left of `s` after the line that ends at `i`. */
  lemma AfterLine(line: string, rest: string)
    ensures (line + CRLF + rest)[..|line|] == line
    ensures (line + CRLF + rest)[|line| + 2..] == rest
  {
  }

  lemma {:induction false} FindIsFirst(s: string, c: char)
    ensures forall j :: 0 <= j < Find(s, c) ==> s[j] != c
  {
    if s != [] && s[0] != c {
      FindIsFirst(s[1..], c);
      assert forall j :: 0 < j < Find(s, c) ==> s[j] == s[1..][j - 1];
    }
  }

  /** `a`, free of `c`, then `c`: the first `c` stands right after `a`. */
  lemma FindAfter(a: string, c: char, b: string)
    requires c !in a
    ensures Find(a + [c] + b, c) == |a|
  {
    var s := a + [c] + b;
    assert s[|a|] == c;
    assert forall j :: 0 <= j < |a| ==> s[j] == a[j];
    FindIsFirst(s, c);
  }

  lemma FindAbsent(a: string, c: char)
    requires c !in a
    ensures Find(a, c) == |a|
  {
  }

  // ----------------------------------------------------------------- trimming

  /** `isspace` in the C locale. */
  predicate IsSpace(c: char) {
    c == ' ' || ('\U{09}' <= c <= '\U{0D}')
  }

  function TrimLeft(s: string): (r: string)
    ensures |r| <= |s| && r == s[|s| - |r|..]
    ensures r != [] ==> !IsSpace(r[0])
  {
    if s != [] && IsSpace(s[0]) then TrimLeft(s[1..]) else s
  }

  function TrimRight(s: string): (r: string)
    ensures r <= s
    ensures r != [] ==> !IsSpace(r[|r| - 1])
  {
    if s != [] && IsSpace(s[|s| - 1]) then TrimRight(s[..|s| - 1]) else s
  }

  function Trim(s: string): string {
    TrimRight(TrimLeft(s))
  }

  predicate Trimmed(s: string) {
    s != [] ==> !IsSpace(s[0]) && !IsSpace(s[|s| - 1])
  }

  /** A trimmed value printed after one blank comes back unchanged. */
  lemma TrimAfterBlank(v: string)
    requires Trimmed(v)
    ensures Trim([' '] + v) == v
  {
    var s := [' '] + v;
    assert s[1..] == v;
    assert TrimLeft(s) == TrimLeft(v) == v;
  }

  // ----------------------------------------------------------------- decimals

  function Digit(d: nat): char
    requires d < 10
  {
    "0123456789"[d]
  }

  /** `%d` of a non-negative number. */
  function Decimal(n: nat): (r: string)
    ensures r != []
    ensures forall c :: c in r ==> '0' <= c <= '9'
  {
    if n < 10 then [Digit(n)] else Decimal(n / 10) + [Digit(n % 10)]
  }

  /** The number a string of digits denotes. */
  function Value(s: string): nat {
    if s == [] then 0
    else 10 * Value(s[..|s| - 1]) + (if '0' <= s[|s| - 1] <= '9' then s[|s| - 1] as int - '0' as int else 0)
  }

  lemma {:induction false} DecimalValue(n: nat)
    ensures Value(Decimal(n)) == n
  {
    var d := Decimal(n);
    if n >= 10 {
      DecimalValue(n / 10);
      assert d[..|d| - 1] == Decimal(n / 10);
    }
  }

  function Pow10(k: nat): (r: nat)
    ensures r > 0
  {
    if k == 0 then 1 else 10 * Pow10(k - 1)
  }

  /** A number has at most k digits exactly when it is below 10^k. */
  lemma {:induction false} DecimalLength(n: nat, k: nat)
    requires k > 0
    ensures |Decimal(n)| <= k <==> n < Pow10(k)
  {
    if n >= 10 && k > 1 {
      DecimalLength(n / 10, k - 1);
    } else if k == 1 {
      assert Pow10(1) == 10 * Pow10(0);
      assert n >= 10 ==> |Decimal(n / 10)| >= 1;
    } else {
      assert Pow10(k) == 10 * Pow10(k - 1);
      assert Pow10(k - 1) >= 1;
    }
  }
}
