/** The parsed request of src/http/http_request.h: its value, and the object that accumulates it. */
module HttpRequests {
  import opened Bytes

  datatype Method = Invalid | Get | Post | Head | Put | Delete

  datatype Version = Unknown | Http10 | Http11

  datatype Request = Request(verb: Method, version: Version, path: string, query: string,
                             headers: map<string, string>)

  const EMPTY_REQUEST := Request(Invalid, Unknown, "", "", map[])

  function MethodOf(token: string): (m: Method) {
    if token == "GET" then Get
    else if token == "POST" then Post
    else if token == "HEAD" then Head
    else if token == "PUT" then Put
    else if token == "DELETE" then Delete
    else Invalid
  }

  function MethodString(m: Method): (s: string)
    ensures ' ' !in s && CrlfFree(s)
  {
    match m
    case Get => "GET"
    case Post => "POST"
    case Head => "HEAD"
    case Put => "PUT"
    case Delete => "DELETE"
    case Invalid => "UNKNOWN"
  }

  /** The methods a request line may begin with, as they are written. */
  const TOKENS: seq<(string, Method)> :=
    [("GET", Get), ("POST", Post), ("HEAD", Head), ("PUT", Put), ("DELETE", Delete)]

  /** A token is recognised exactly when it is one of the five, as that method; and `method_string` writes
      each of them back. */
  lemma MethodsInvert(m: Method, token: string)
    ensures m != Invalid ==> ((token, m) in TOKENS <==> MethodOf(token) == m)
    ensures m != Invalid ==> (MethodString(m), m) in TOKENS && MethodOf(MethodString(m)) == m
    ensures MethodOf(token) != Invalid ==> MethodString(MethodOf(token)) == token
  {
    var five := [("GET", Get), ("POST", Post), ("HEAD", Head), ("PUT", Put), ("DELETE", Delete)];
    assert five[0] in TOKENS && five[1] in TOKENS && five[2] in TOKENS && five[3] in TOKENS && five[4] in TOKENS;
  }

  predicate IsSpace(c: char) {
    c == ' ' || '\t' <= c <= '\r'
  }

  /** White space in the C locale: space, tab, newline, vertical tab, form feed, carriage return. */
  const BLANKS := " \t\n\U{0B}\U{0C}\r"

  /** No white space at either end. */
  predicate Trimmed(s: string) {
    s != [] ==> s[0] !in BLANKS && s[|s| - 1] !in BLANKS
  }

  /** The bytes the trimming loops skip. */
  lemma SpaceIff(c: char)
    ensures IsSpace(c) <==> c in BLANKS
  {
    assert BLANKS[0] == ' ' && BLANKS[1] == '\t' && BLANKS[2] == '\n' && BLANKS[5] == '\r';
    assert BLANKS[3] as int == 11 && BLANKS[4] as int == 12;
    assert '\t' as int == 9 && '\n' as int == 10 && '\r' as int == 13;
    assert IsSpace(c) ==> c == ' ' || c as int in {9, 10, 11, 12, 13};
  }

  function TrimLeft(s: string): (r: string)
    ensures r != [] ==> !IsSpace(r[0])
  {
    if s != [] && IsSpace(s[0]) then TrimLeft(s[1..]) else s
  }

  function TrimRight(s: string): (r: string)
    ensures r <= s
    ensures r != [] ==> !IsSpace(r[|r| - 1])
  {
    if s != [] && IsSpace(s[|s| - 1]) then TrimRight(s[..|s| - 1]) else s
  }

  function WithHeader(r: Request, line: string, colon: nat): (r': Request)
    requires colon < |line|
  {
    r.(headers := r.headers[line[..colon] := TrimRight(TrimLeft(line[colon + 1..]))])
  }

  predicate Blank(s: string) {
    forall i :: 0 <= i < |s| ==> s[i] in BLANKS
  }

  /** The stored value is the text after the colon without the white space around it. */
  lemma TrimCuts(s: string) returns (left: string, right: string)
    ensures var v := TrimRight(TrimLeft(s));
            Trimmed(v) && s == left + v + right && Blank(left) && Blank(right)
  {
    left := LeftCut(s);
    right := RightCut(TrimLeft(s));
    forall c
      ensures IsSpace(c) <==> c in BLANKS
    {
      SpaceIff(c);
    }
    assert s == left + (TrimRight(TrimLeft(s)) + right);
  }

  lemma {:induction false} LeftCut(s: string) returns (left: string)
    ensures s == left + TrimLeft(s) && Blank(left)
  {
    if s != [] && IsSpace(s[0]) {
      SpaceIff(s[0]);
      var tail := LeftCut(s[1..]);
      left := [s[0]] + tail;
      assert s == [s[0]] + s[1..];
    } else {
      left := "";
    }
  }

  lemma {:induction false} RightCut(s: string) returns (right: string)
    ensures s == TrimRight(s) + right && Blank(right)
  {
    if s != [] && IsSpace(s[|s| - 1]) {
      SpaceIff(s[|s| - 1]);
      var init := RightCut(s[..|s| - 1]);
      right := init + [s[|s| - 1]];
      assert s == s[..|s| - 1] + [s[|s| - 1]];
    } else {
      right := "";
    }
  }

  /** What `get_header` answers: nothing at all is the empty string. */
  function Lookup(r: Request, field: string): (value: string) {
    if field in r.headers then r.headers[field] else ""
  }

  function NameOf(line: string): (name: string) {
    line[..Find(line, ':')]
  }

  function ValueOf(line: string): (value: string)
    requires ':' in line
  {
    TrimRight(TrimLeft(line[Find(line, ':') + 1..]))
  }

  function AddLines(r: Request, lines: seq<string>): (r': Request)
    requires forall line :: line in lines ==> ':' in line
  {
    if lines == [] then r
    else
      var init, last := lines[..|lines| - 1], lines[|lines| - 1];
      assert last in lines;
      WithHeader(AddLines(r, init), last, Find(last, ':'))
  }

  /** The line that decides what a field is: the last one of that name. */
  predicate IsLast(lines: seq<string>, field: string, i: nat) {
    i < |lines| && NameOf(lines[i]) == field && forall j :: i < j < |lines| ==> NameOf(lines[j]) != field
  }

  /** After any header lines, looking a field up gives the trimmed text of its last line. */
  lemma {:induction false} LookupIsLastLine(lines: seq<string>, field: string, i: nat)
    requires (forall line :: line in lines ==> ':' in line) && IsLast(lines, field, i)
    ensures Lookup(AddLines(EMPTY_REQUEST, lines), field) == ValueOf(lines[i])
  {
    var init := lines[..|lines| - 1];
    if i < |init| {
      LookupIsLastLine(init, field, i);
    }
  }

  /** And the empty string when it had none. */
  lemma {:induction false} LookupOfAbsent(lines: seq<string>, field: string)
    requires (forall line :: line in lines ==> ':' in line && NameOf(line) != field)
    ensures field !in AddLines(EMPTY_REQUEST, lines).headers
  {
    if lines != [] {
      LookupOfAbsent(lines[..|lines| - 1], field);
      assert lines[|lines| - 1] in lines;
    }
  }

  class HttpRequest {
    var verb: Method
    var version: Version
    var path: string
    var query: string
    var headers: map<string, string>

    ghost function View(): (r: Request)
      reads this
    {
      Request(verb, version, path, query, headers)
    }

    constructor ()
      ensures View() == EMPTY_REQUEST
    {
      verb, version, path, query, headers := Invalid, Unknown, "", "", map[];
    }

    /** The source asserts that no method has been set yet. */
    method SetMethod(token: string) returns (ok: bool)
      requires verb == Invalid
      modifies this`verb
      ensures verb == MethodOf(token)
      ensures ok <==> verb != Invalid
    {
      if token == "GET" {
        verb := Get;
      } else if token == "POST" {
        verb := Post;
      } else if token == "HEAD" {
        verb := Head;
      } else if token == "PUT" {
        verb := Put;
      } else if token == "DELETE" {
        verb := Delete;
      } else {
        verb := Invalid;
      }
      ok := verb != Invalid;
    }

    /** The two trimming loops, then an insertion that overwrites an earlier value of the field. */
    method AddHeader(line: string, colon: nat)
      requires colon < |line|
      modifies this`headers
      ensures View() == WithHeader(old(View()), line, colon)
    {
      var field := line[..colon];
      var start := colon + 1;
      while start < |line| && IsSpace(line[start])
        invariant colon + 1 <= start <= |line|
        invariant TrimLeft(line[start..]) == TrimLeft(line[colon + 1..])
      {
        assert line[start..][1..] == line[start + 1..];
        start := start + 1;
      }
      var value := line[start..];
      while value != [] && IsSpace(value[|value| - 1])
        invariant TrimRight(value) == TrimRight(line[start..])
      {
        value := value[..|value| - 1];
      }
      headers := headers[field := value];
    }

    method GetHeader(field: string) returns (value: string)
      ensures value == Lookup(View(), field)
    {
      value := if field in headers then headers[field] else "";
    }
  }
}
