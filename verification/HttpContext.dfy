/**
 The incremental request parser of src/http/http_context.cpp.

 `Turn` is one iteration of the source's loop, `Parse` the whole loop, and the class runs the same
 loop over a `Buffer`.  On top of them: the parse does not depend on how the bytes are cut, canonical
 requests come back unchanged, and the loop ends exactly when it is entered in a parsing state.
 */
module HttpParser {
  import opened Bytes
  import opened HttpRequests
  import opened ByteBuffer

  datatype Phase = ExpectRequestLine | ExpectHeaders | ExpectBody | GotAll

  datatype Context = Context(phase: Phase, request: Request)

  datatype Outcome = Outcome(ok: bool, context: Context, rest: string)

  datatype Turn = Turn(more: bool, ok: bool, context: Context, rest: string)

  const FRESH := Context(ExpectRequestLine, EMPTY_REQUEST)

  predicate Parsing(c: Context) {
    c.phase == ExpectRequestLine || c.phase == ExpectHeaders
  }

  // ---------------------------------------------------------------------------------------------
  // The loop

  /** The value built by `process_request_line`, kept even when the line is rejected half-way. */
  function RequestLine(r: Request, line: string): (res: (bool, Request)) {
    var space := Find(line, ' ');
    if space == |line| then (false, r)
    else
      var verb := MethodOf(line[..space]);
      if verb == Invalid then (false, r.(verb := Invalid))
      else
        TargetAndVersion(r.(verb := verb), line[space + 1..])
  }

  function TargetAndVersion(r: Request, tail: string): (res: (bool, Request)) {
    var space := Find(tail, ' ');
    if space == |tail| then (false, r)
    else
      var targeted := WithTarget(r, tail[..space]);
      var version := VersionOf(tail[space + 1..]);
      if version == Unknown then (false, targeted) else (true, targeted.(version := version))
  }

  /** A query includes its '?'; without one the old query is left alone. */
  function WithTarget(r: Request, target: string): (r': Request) {
    var question := Find(target, '?');
    if question < |target| then r.(path := target[..question], query := target[question..])
    else r.(path := target)
  }

  function VersionOf(text: string): (v: Version) {
    if |text| == 8 && text[..7] == "HTTP/1." then
      if text[7] == '1' then Http11 else if text[7] == '0' then Http10 else Unknown
    else Unknown
  }

  function OneTurn(c: Context, bytes: string): (t: Turn)
    ensures Parsing(c) && t.more ==> Parsing(t.context) && |t.rest| < |bytes|
  {
    match c.phase
    case ExpectRequestLine =>
      var crlf := FindCrlf(bytes);
      if crlf.None? then Turn(false, true, c, bytes)
      else
        var (ok, request) := RequestLine(c.request, bytes[..crlf.value]);
        if ok then Turn(true, true, Context(ExpectHeaders, request), bytes[crlf.value + 2..])
        else Turn(false, false, c.(request := request), bytes)
    case ExpectHeaders =>
      var crlf := FindCrlf(bytes);
      if crlf.None? then Turn(false, true, c, bytes)
      else
        var line, rest := bytes[..crlf.value], bytes[crlf.value + 2..];
        var colon := Find(line, ':');
        if colon < |line| then Turn(true, true, c.(request := WithHeader(c.request, line, colon)), rest)
        else Turn(false, true, c.(phase := GotAll), rest)
    case _ => Turn(true, true, c, bytes)
  }

  /** The whole loop. */
  function Parse(c: Context, bytes: string): (o: Outcome)
    requires Parsing(c)
    decreases |bytes|
  {
    var t := OneTurn(c, bytes);
    if t.more then Parse(t.context, t.rest) else Outcome(t.ok, t.context, t.rest)
  }

  /** The loop variables after `n` iterations, for as long as the loop asks for more. */
  function Turns(c: Context, bytes: string, n: nat): (t: Turn) {
    if n == 0 then Turn(true, true, c, bytes)
    else
      var t := Turns(c, bytes, n - 1);
      if t.more then OneTurn(t.context, t.rest) else t
  }

  /** The loop is left exactly when it is entered in one of the two implemented parsing states. */
  lemma LoopEndsIffParsing(c: Context, bytes: string)
    ensures (exists n :: !Turns(c, bytes, n).more) <==> Parsing(c)
  {
    if Parsing(c) {
      ParsingTurns(c, bytes, |bytes| + 1);
    } else {
      forall n
        ensures Turns(c, bytes, n).more
      {
        Spins(c, bytes, n);
      }
    }
  }

  lemma {:induction false} ParsingTurns(c: Context, bytes: string, n: nat)
    requires Parsing(c)
    ensures var t := Turns(c, bytes, n); t.more ==> Parsing(t.context) && |t.rest| + n <= |bytes|
  {
    if n > 0 {
      ParsingTurns(c, bytes, n - 1);
    }
  }

  lemma {:induction false} Spins(c: Context, bytes: string, n: nat)
    requires !Parsing(c)
    ensures Turns(c, bytes, n) == Turn(true, true, c, bytes)
  {
    if n > 0 {
      Spins(c, bytes, n - 1);
    }
  }

  // ---------------------------------------------------------------------------------------------
  // The assertion in set_method

  /** The next turn reaches `set_method` with a method already set. */
  predicate Trips(c: Context, bytes: string) {
    c.phase == ExpectRequestLine && c.request.verb != Invalid &&
    var crlf := FindCrlf(bytes);
    crlf.Some? && Find(bytes[..crlf.value], ' ') < crlf.value
  }

  /** Calling again after a rejected request line trips the assertion exactly when that line began
      with a supported method, whatever has arrived in the meantime. */
  lemma RetryTripsIffMethodRecognised(c: Context, bytes: string, more: string)
    requires c.phase == ExpectRequestLine && c.request.verb == Invalid
    requires !Parse(c, bytes).ok
    ensures FindCrlf(bytes).Some?
    ensures var o := Parse(c, bytes);
            var line := bytes[..FindCrlf(bytes).value];
            Trips(o.context, o.rest + more) <==>
            Find(line, ' ') < |line| && MethodOf(line[..Find(line, ' ')]) != Invalid
  {
    if OneTurn(c, bytes).more {
      HeadersAlwaysOk(OneTurn(c, bytes).context, OneTurn(c, bytes).rest);
    }
    FindCrlfPrefix(bytes, more);
    assert (bytes + more)[..FindCrlf(bytes).value] == bytes[..FindCrlf(bytes).value];
  }

  lemma {:induction false} HeadersAlwaysOk(c: Context, bytes: string)
    requires c.phase == ExpectHeaders
    ensures Parse(c, bytes).ok
    decreases |bytes|
  {
    var t := OneTurn(c, bytes);
    if t.more {
      HeadersAlwaysOk(t.context, t.rest);
    }
  }

  // ---------------------------------------------------------------------------------------------
  // Chunking independence

  /** Nothing more to do until bytes arrive. */
  predicate Waiting(o: Outcome) {
    o.ok && Parsing(o.context)
  }

  /** Pieces appended to one buffer and parsed by one retained context, stopping at a failure or at a
      complete request; bytes never fed count as unconsumed. */
  function Feed(o: Outcome, pieces: seq<string>): (o': Outcome)
    requires o.ok
    decreases |pieces|
  {
    if pieces == [] then o
    else if !Parsing(o.context) then o.(rest := o.rest + Flatten(pieces))
    else
      var next := Parse(o.context, o.rest + pieces[0]);
      if next.ok then Feed(next, pieces[1..]) else next.(rest := next.rest + Flatten(pieces[1..]))
  }

  /** A parse that has stopped is not changed by more bytes; one that waits resumes where it was. */
  lemma {:induction false} ParseThenMore(c: Context, bytes: string, more: string)
    requires Parsing(c)
    ensures var o := Parse(c, bytes);
            Parse(c, bytes + more) ==
            if Waiting(o) then Parse(o.context, o.rest + more) else o.(rest := o.rest + more)
    decreases |bytes|
  {
    if FindCrlf(bytes).Some? {
      TurnThenMore(c, bytes, more);
      var t := OneTurn(c, bytes);
      if t.more {
        ParseThenMore(t.context, t.rest, more);
      }
    }
  }

  /** A turn that finds its line does the same however the bytes go on. */
  lemma TurnThenMore(c: Context, bytes: string, more: string)
    requires Parsing(c) && FindCrlf(bytes).Some?
    ensures var t := OneTurn(c, bytes); OneTurn(c, bytes + more) == t.(rest := t.rest + more)
  {
    var at := FindCrlf(bytes).value;
    FindCrlfPrefix(bytes, more);
    assert (bytes + more)[..at] == bytes[..at];
    assert (bytes + more)[at + 2..] == bytes[at + 2..] + more;
  }

  /** Parsing leaves nothing it could still parse. */
  lemma {:induction false} ParseSettles(c: Context, bytes: string)
    requires Parsing(c)
    ensures var o := Parse(c, bytes); Waiting(o) ==> Parse(o.context, o.rest) == o
    decreases |bytes|
  {
    var t := OneTurn(c, bytes);
    if t.more {
      ParseSettles(t.context, t.rest);
    }
  }

  lemma {:induction false} FeedIsParse(o: Outcome, pieces: seq<string>)
    requires Waiting(o) && Parse(o.context, o.rest) == o
    ensures Feed(o, pieces) == Parse(o.context, o.rest + Flatten(pieces))
    decreases |pieces|
  {
    if pieces == [] {
      assert o.rest + Flatten(pieces) == o.rest;
    } else {
      var bytes, others := o.rest + pieces[0], pieces[1..];
      var next := Parse(o.context, bytes);
      ParseThenMore(o.context, bytes, Flatten(others));
      Reassociate(o.rest, pieces[0], Flatten(others));
      if Waiting(next) {
        ParseSettles(o.context, bytes);
        FeedIsParse(next, others);
      } else if others == [] {
        assert next.rest + Flatten(others) == next.rest;
      }
    }
  }

  /** Every way of cutting the bytes gives the same flag, state, request and unconsumed bytes. */
  lemma ChunkingIndependence(pieces: seq<string>)
    ensures Feed(Outcome(true, FRESH, ""), pieces) == Parse(FRESH, Flatten(pieces))
  {
    FeedIsParse(Outcome(true, FRESH, ""), pieces);
    assert "" + Flatten(pieces) == Flatten(pieces);
  }

  // ---------------------------------------------------------------------------------------------
  // Round trips

  function VersionString(v: Version): (s: string)
    requires v != Unknown
    ensures CrlfFree(s)
  {
    if v == Http11 then "HTTP/1.1" else "HTTP/1.0"
  }

  /** The canonical request line, without its CRLF. */
  function RenderLine(verb: Method, target: string, version: Version): (s: string)
    requires version != Unknown
  {
    MethodString(verb) + " " + (target + " " + VersionString(version))
  }

  /** What the request becomes when its line has a method, a space, `target`, a space and `text`. */
  function LineResult(r: Request, verb: Method, target: string, text: string): (res: (bool, Request)) {
    var targeted := WithTarget(r.(verb := verb), target);
    var version := VersionOf(text);
    if version == Unknown then (false, targeted) else (true, targeted.(version := version))
  }

  lemma LineWithParts(r: Request, token: string, target: string, text: string)
    requires ' ' !in token && ' ' !in target && MethodOf(token) != Invalid
    ensures RequestLine(r, token + " " + (target + " " + text)) == LineResult(r, MethodOf(token), target, text)
  {
    var tail := target + " " + text;
    FindJoins(token, ' ', tail);
    assert RequestLine(r, token + " " + tail) == TargetAndVersion(r.(verb := MethodOf(token)), tail);
    TailWithParts(r.(verb := MethodOf(token)), target, text);
  }

  lemma TailWithParts(r: Request, target: string, text: string)
    requires ' ' !in target
    ensures TargetAndVersion(r, target + " " + text) == LineResult(r, r.verb, target, text)
  {
    FindJoins(target, ' ', text);
  }

  /** A canonical line is accepted and yields its own parts. */
  lemma RequestLineComplete(r: Request, verb: Method, target: string, version: Version)
    requires verb != Invalid && version != Unknown && ' ' !in target
    ensures RequestLine(r, RenderLine(verb, target, version)) ==
            (true, WithTarget(r.(verb := verb), target).(version := version))
  {
    MethodsInvert(verb, "");
    VersionOfString(version);
    LineWithParts(r, MethodString(verb), target, VersionString(version));
  }

  lemma VersionOfString(version: Version)
    requires version != Unknown
    ensures VersionOf(VersionString(version)) == version
  {
  }

  lemma VersionsInvert(text: string)
    requires VersionOf(text) != Unknown
    ensures VersionString(VersionOf(text)) == text
  {
    assert text == text[..7] + [text[7]];
  }

  /** Whatever line is accepted is the canonical line of the parts it yields. */
  lemma RequestLineSound(r: Request, line: string) returns (target: string)
    requires RequestLine(r, line).0
    ensures var q := RequestLine(r, line).1;
            && q.verb != Invalid && q.version != Unknown && ' ' !in target
            && line == RenderLine(q.verb, target, q.version)
            && q == WithTarget(r.(verb := q.verb), target).(version := q.version)
  {
    var token, text;
    token, target, text := LineParts(r, line);
    LineWithParts(r, token, target, text);
    MethodsInvert(Get, token);
    VersionsInvert(text);
  }

  /** An accepted line has the three parts. */
  lemma LineParts(r: Request, line: string) returns (token: string, target: string, text: string)
    requires RequestLine(r, line).0
    ensures ' ' !in token && ' ' !in target && line == token + " " + (target + " " + text)
    ensures MethodOf(token) != Invalid && VersionOf(text) != Unknown
  {
    var space := Find(line, ' ');
    var tail := line[space + 1..];
    token, target, text := line[..space], tail[..Find(tail, ' ')], tail[Find(tail, ' ') + 1..];
    FindCuts(line, ' ');
    FindCuts(tail, ' ');
  }

  /** So a request line is accepted exactly when it is a supported method, a space, a space-free
      target, a space and a version. */
  lemma RequestLineIff(r: Request, line: string)
    ensures RequestLine(r, line).0 <==>
            exists m, t, v :: m != Invalid && v != Unknown && ' ' !in t && line == RenderLine(m, t, v)
  {
    if RequestLine(r, line).0 {
      var t := RequestLineSound(r, line);
    }
    forall m, t, v | m != Invalid && v != Unknown && ' ' !in t && line == RenderLine(m, t, v)
      ensures RequestLine(r, line).0
    {
      RequestLineComplete(r, m, t, v);
    }
  }

  type Field = (string, string)

  function RenderFields(fields: seq<Field>): (s: string) {
    if fields == [] then ""
    else fields[0].0 + ": " + fields[0].1 + "\r\n" + RenderFields(fields[1..])
  }

  predicate WellFormedField(f: Field) {
    ':' !in f.0 && CrlfFree(f.0) && CrlfFree(f.1) && Trimmed(f.1)
  }

  /** Fields written one after the other, a later one replacing an earlier one of the same name. */
  function Install(headers: map<string, string>, fields: seq<Field>): (m: map<string, string>)
    decreases |fields|
  {
    if fields == [] then headers else Install(headers[fields[0].0 := fields[0].1], fields[1..])
  }

  /** `fields` enumerates `headers`: every entry once, in some order. */
  predicate Lists(fields: seq<Field>, headers: map<string, string>) {
    && (forall i, j :: 0 <= i < j < |fields| ==> fields[i].0 != fields[j].0)
    && (forall f :: f in fields ==> f.0 in headers && headers[f.0] == f.1)
    && (forall k :: k in headers ==> (k, headers[k]) in fields)
  }

  lemma {:induction false} InstallLists(base: map<string, string>, fields: seq<Field>, headers: map<string, string>)
    requires Lists(fields, headers)
    ensures Install(base, fields) == base + headers
    decreases |fields|
  {
    if fields == [] {
      assert headers.Keys == {};
    } else {
      var (k, v) := fields[0];
      ListsTail(fields, headers);
      InstallLists(base[k := v], fields[1..], headers - {k});
      assert (k, v) in fields;
      assert base[k := v] + (headers - {k}) == base + headers;
    }
  }

  lemma ListsTail(fields: seq<Field>, headers: map<string, string>)
    requires Lists(fields, headers) && fields != []
    ensures Lists(fields[1..], headers - {fields[0].0})
  {
    var less := headers - {fields[0].0};
    forall j | j in less
      ensures (j, less[j]) in fields[1..]
    {
      var i :| 0 <= i < |fields| && fields[i] == (j, headers[j]);
      assert fields[1..][i - 1] == fields[i];
    }
    forall f | f in fields[1..]
      ensures f.0 in less && less[f.0] == f.1
    {
      var i :| 0 <= i < |fields[1..]| && fields[1..][i] == f;
      assert fields[i + 1] == f && f in fields;
    }
  }

  lemma TrimmedStays(s: string)
    requires Trimmed(s)
    ensures TrimLeft(s) == s && TrimRight(s) == s && TrimLeft(" " + s) == s
  {
    assert (" " + s)[1..] == s;
    if s != [] {
      SpaceIff(s[0]);
      SpaceIff(s[|s| - 1]);
    }
  }

  lemma FieldLine(r: Request, f: Field)
    requires WellFormedField(f)
    ensures var line := f.0 + ": " + f.1;
            && CrlfFree(line) && Find(line, ':') == |f.0|
            && WithHeader(r, line, |f.0|) == r.(headers := r.headers[f.0 := f.1])
  {
    FieldLineParts(f);
    TrimmedStays(f.1);
  }

  lemma FieldLineParts(f: Field)
    requires WellFormedField(f)
    ensures var line := f.0 + ": " + f.1;
            && CrlfFree(line) && Find(line, ':') == |f.0|
            && line[..|f.0|] == f.0 && line[|f.0| + 1..] == " " + f.1
  {
    CrlfFreeJoin(f.0, ": ");
    CrlfFreeJoin(f.0 + ": ", f.1);
    assert f.0 + ": " + f.1 == f.0 + [':'] + (" " + f.1);
    FindJoins(f.0, ':', " " + f.1);
  }

  /** The header loop undoes the field printer and leaves exactly what follows the blank line. */
  lemma {:induction false} FieldsRoundTrip(c: Context, fields: seq<Field>, body: string)
    requires c.phase == ExpectHeaders
    requires forall f :: f in fields ==> WellFormedField(f)
    ensures Parse(c, RenderFields(fields) + "\r\n" + body) ==
            Outcome(true, Context(GotAll, c.request.(headers := Install(c.request.headers, fields))), body)
    decreases |fields|
  {
    var bytes := RenderFields(fields) + "\r\n" + body;
    if fields == [] {
      FindCrlfLine("", body);
      assert bytes == "" + "\r\n" + body;
    } else {
      var f := fields[0];
      var line := f.0 + ": " + f.1;
      var rest := RenderFields(fields[1..]) + "\r\n" + body;
      FieldLine(c.request, f);
      assert bytes == line + "\r\n" + rest;
      FindCrlfLine(line, rest);
      var c' := c.(request := c.request.(headers := c.request.headers[f.0 := f.1]));
      assert OneTurn(c, bytes) == Turn(true, true, c', rest);
      FieldsRoundTrip(c', fields[1..], body);
    }
  }

  /** Any line without a colon ends the headers, not only an empty one: nothing is taken from it, and
      what follows it is left. */
  lemma AnyLineWithoutColonEnds(c: Context, line: string, rest: string)
    requires c.phase == ExpectHeaders && CrlfFree(line) && ':' !in line
    ensures Parse(c, line + "\r\n" + rest) == Outcome(true, Context(GotAll, c.request), rest)
  {
    FindCrlfLine(line, rest);
    FindIs(line, ':', |line|);
  }

  /** The canonical request: request line, fields, blank line. */
  function RenderRequest(verb: Method, target: string, version: Version, fields: seq<Field>): (s: string)
    requires version != Unknown
  {
    RenderLine(verb, target, version) + "\r\n" + RenderFields(fields) + "\r\n"
  }

  /** Parsing a canonical request gives its parts back, in whatever order its headers are written, and
      leaves every byte after the blank line alone. */
  lemma RequestRoundTrip(verb: Method, target: string, version: Version, headers: map<string, string>,
                         fields: seq<Field>, after: string)
    requires verb != Invalid && version != Unknown && ' ' !in target && CrlfFree(target)
    requires Lists(fields, headers) && forall f :: f in fields ==> WellFormedField(f)
    ensures var o := Parse(FRESH, RenderRequest(verb, target, version, fields) + after);
            && o.ok && o.context.phase == GotAll && o.rest == after
            && o.context.request.verb == verb && o.context.request.version == version
            && o.context.request.headers == headers
            && o.context.request.path + o.context.request.query == target
            && '?' !in o.context.request.path
  {
    var rest := RenderFields(fields) + "\r\n" + after;
    RequestBytes(RenderLine(verb, target, version), RenderFields(fields), after);
    var c := LineTurn(verb, target, version, rest);
    assert Parse(FRESH, RenderLine(verb, target, version) + "\r\n" + rest) == Parse(c, rest);
    FieldsRoundTrip(c, fields, after);
    InstallLists(map[], fields, headers);
    assert map[] + headers == headers;
  }

  lemma RequestBytes(line: string, fields: string, after: string)
    ensures (line + "\r\n" + fields + "\r\n") + after == line + "\r\n" + (fields + "\r\n" + after)
  {
  }

  lemma LineTurn(verb: Method, target: string, version: Version, rest: string) returns (c: Context)
    requires verb != Invalid && version != Unknown && ' ' !in target && CrlfFree(target)
    ensures OneTurn(FRESH, RenderLine(verb, target, version) + "\r\n" + rest) == Turn(true, true, c, rest)
    ensures c.phase == ExpectHeaders && c.request.headers == map[]
    ensures c.request.verb == verb && c.request.version == version
    ensures c.request.path + c.request.query == target && '?' !in c.request.path
  {
    var line := RenderLine(verb, target, version);
    CanonicalIsCrlfFree(verb, target, version);
    FindCrlfLine(line, rest);
    RequestLineComplete(EMPTY_REQUEST, verb, target, version);
    TargetParts(EMPTY_REQUEST.(verb := verb), target);
    c := Context(ExpectHeaders, RequestLine(EMPTY_REQUEST, line).1);
  }

  lemma TargetParts(r: Request, target: string)
    requires r.query == ""
    ensures var q := WithTarget(r, target); q.path + q.query == target && '?' !in q.path
  {
    FindCuts(target, '?');
    assert target + "" == target && target[..Find(target, '?')] + target[Find(target, '?')..] == target;
  }

  lemma CanonicalIsCrlfFree(verb: Method, target: string, version: Version)
    requires version != Unknown && CrlfFree(target)
    ensures CrlfFree(RenderLine(verb, target, version))
  {
    var m, v := MethodString(verb), VersionString(version);
    CrlfFreeJoin(target, " ");
    CrlfFreeJoin(target + " ", v);
    CrlfFreeJoin(m, " ");
    CrlfFreeJoin(m + " ", target + " " + v);
  }

  // ---------------------------------------------------------------------------------------------
  // The parser object

  class HttpContext {
    var phase: Phase
    var request: HttpRequest

    ghost function View(): (c: Context)
      reads this, request
    {
      Context(phase, request.View())
    }

    constructor ()
      ensures View() == FRESH && fresh(request)
    {
      phase := ExpectRequestLine;
      request := new HttpRequest();
    }

    method Reset()
      modifies this
      ensures View() == FRESH && fresh(request)
    {
      phase := ExpectRequestLine;
      request := new HttpRequest();
    }

    method ProcessRequestLine(line: string) returns (ok: bool)
      requires Find(line, ' ') < |line| ==> request.verb == Invalid
      modifies request
      ensures (ok, request.View()) == RequestLine(old(request.View()), line)
    {
      var space := Find(line, ' ');
      if space == |line| {
        return false;
      }
      ok := request.SetMethod(line[..space]);
      if !ok {
        return;
      }
      ok := ProcessTarget(line[space + 1..]);
    }

    /** The rest of the line, after the method. */
    method ProcessTarget(tail: string) returns (ok: bool)
      modifies request
      ensures (ok, request.View()) == TargetAndVersion(old(request.View()), tail)
    {
      var space := Find(tail, ' ');
      if space == |tail| {
        return false;
      }
      var target := tail[..space];
      var question := Find(target, '?');
      if question < |target| {
        request.path := target[..question];
        request.query := target[question..];
      } else {
        request.path := target;
      }
      var version := tail[space + 1..];
      ok := |version| == 8 && version[..7] == "HTTP/1.";
      if ok {
        if version[7] == '1' {
          request.version := Http11;
        } else if version[7] == '0' {
          request.version := Http10;
        } else {
          ok := false;
        }
      }
    }

    /** The source's loop.  It must not be entered where it would spin or trip its assertion. */
    method ParseRequest(buf: Buffer) returns (ok: bool)
      requires buf.Valid() && Parsing(View()) && !Trips(View(), buf.Contents())
      modifies this`phase, request, buf`reader, buf`writer
      ensures buf.Valid()
      ensures Outcome(ok, View(), buf.Contents()) == Parse(old(View()), old(buf.Contents()))
    {
      ghost var goal := Parse(View(), buf.Contents());
      ok := true;
      var more := true;
      while more
        invariant buf.Valid() && buf.buffer == old(buf.buffer) && request == old(request)
        invariant more ==> Parsing(View()) && !Trips(View(), buf.Contents())
        invariant more ==> Parse(View(), buf.Contents()) == goal
        invariant !more ==> Outcome(ok, View(), buf.Contents()) == goal
        decreases more, |buf.Contents()|
      {
        if phase == ExpectRequestLine {
          more, ok := TurnRequestLine(buf);
        } else {
          more := TurnHeaders(buf);
          ok := true;
        }
      }
    }

    method TurnRequestLine(buf: Buffer) returns (more: bool, ok: bool)
      requires buf.Valid() && phase == ExpectRequestLine && !Trips(View(), buf.Contents())
      modifies this`phase, request, buf`reader, buf`writer
      ensures buf.Valid() && (more ==> phase == ExpectHeaders)
      ensures Turn(more, ok, View(), buf.Contents()) == OneTurn(old(View()), old(buf.Contents()))
    {
      var crlf := buf.FindCRLF();
      if crlf.None? {
        return false, true;
      }
      var line := buf.Peek(crlf.value);
      ok := ProcessRequestLine(line);
      if ok {
        buf.Retrieve(crlf.value + 2);
        phase := ExpectHeaders;
      }
      more := ok;
    }

    method TurnHeaders(buf: Buffer) returns (more: bool)
      requires buf.Valid() && phase == ExpectHeaders
      modifies this`phase, request, buf`reader, buf`writer
      ensures buf.Valid() && (more ==> phase == ExpectHeaders)
      ensures Turn(more, true, View(), buf.Contents()) == OneTurn(old(View()), old(buf.Contents()))
    {
      var crlf := buf.FindCRLF();
      if crlf.None? {
        return false;
      }
      var line := buf.Peek(crlf.value);
      var colon := Find(line, ':');
      more := colon < |line|;
      if more {
        request.AddHeader(line, colon);
      } else {
        phase := GotAll;
      }
      buf.Retrieve(crlf.value + 2);
    }

    /** One read's worth of bytes. */
    method FeedOne(buf: Buffer, piece: string) returns (ok: bool)
      requires buf.Valid() && |piece| <= INT_MAX && Parsing(View())
      requires phase == ExpectRequestLine ==> request.verb == Invalid
      modifies this`phase, request, buf, buf.buffer
      ensures buf.Valid() && (buf.buffer == old(buf.buffer) || fresh(buf.buffer))
      ensures Outcome(ok, View(), buf.Contents()) == Parse(old(View()), old(buf.Contents()) + piece)
      ensures ok ==> phase != ExpectBody && (phase == ExpectRequestLine ==> request.verb == Invalid)
    {
      PhaseKept(View(), buf.Contents() + piece);
      buf.Append(piece);
      ok := ParseRequest(buf);
    }

    /** Whatever the sizes of the reads, this object and its buffer end where one read of everything
        would have left them. */
    method FeedPieces(buf: Buffer, pieces: seq<string>) returns (ok: bool, fed: nat)
      requires View() == FRESH && buf.Valid() && buf.Contents() == ""
      requires forall p :: p in pieces ==> |p| <= INT_MAX
      modifies this`phase, request, buf, buf.buffer
      ensures buf.Valid() && fed <= |pieces|
      ensures Outcome(ok, View(), buf.Contents() + Flatten(pieces[fed..])) == Parse(FRESH, Flatten(pieces))
    {
      ok, fed := true, 0;
      ghost var goal := Feed(Outcome(true, FRESH, ""), pieces);
      while fed < |pieces| && ok && phase != GotAll
        invariant fed <= |pieces| && buf.Valid() && request == old(request)
        invariant buf.buffer == old(buf.buffer) || fresh(buf.buffer)
        invariant ok ==> phase != ExpectBody
        invariant ok && phase == ExpectRequestLine ==> request.verb == Invalid
        invariant ok ==> goal == Feed(Outcome(true, View(), buf.Contents()), pieces[fed..])
        invariant !ok ==> goal == Outcome(false, View(), buf.Contents() + Flatten(pieces[fed..]))
        decreases |pieces| - fed
      {
        ok := FeedOne(buf, pieces[fed]);
        assert pieces[fed..][0] == pieces[fed] && pieces[fed..][1..] == pieces[fed + 1..];
        fed := fed + 1;
      }
      ChunkingIndependence(pieces);
      if ok && fed == |pieces| {
        assert buf.Contents() + Flatten(pieces[fed..]) == buf.Contents();
      }
    }
  }

  /** While a parse goes well the request line is either still untouched or already behind. */
  lemma {:induction false} PhaseKept(c: Context, bytes: string)
    requires Parsing(c)
    ensures var o := Parse(c, bytes);
            o.ok ==> o.context.phase != ExpectBody && (o.context.phase == ExpectRequestLine ==> o.context == c)
    decreases |bytes|
  {
    var t := OneTurn(c, bytes);
    if t.more {
      PhaseKept(t.context, t.rest);
    }
  }
}
