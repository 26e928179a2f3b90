/**
 The response printer of src/http/http_response.cpp, held to the parser's own header loop: what is
 printed after the status line reads back as the headers and exactly the body, precisely when the
 Content-Length line fits the printer's 32-byte scratch area.
 */
module HttpResponses {
  import opened Bytes
  import opened ByteBuffer
  import opened Decimal
  import opened HttpRequests
  import opened HttpParser

  const SCRATCH_SIZE: nat := 32

  datatype StatusCode = UnknownStatus | Ok | MovedPermanently | BadRequest | NotFound {
    function Code(): (n: nat) {
      match this
      case UnknownStatus => 0
      case Ok => 200
      case MovedPermanently => 301
      case BadRequest => 400
      case NotFound => 404
    }
  }

  datatype Response = Response(status: StatusCode, message: string, close: bool, version: Version,
                               headers: map<string, string>, body: string)

  /** snprintf into an area of `size` bytes: the text, cut so that a NUL still fits. */
  function Snprintf(size: nat, text: string): (s: string)
    requires size > 0
    ensures s <= text && |s| < size && (|text| < size ==> s == text)
  {
    if |text| < size then text else text[..size - 1]
  }

  function VersionNumber(v: Version): (s: string) {
    if v == Http10 then "1.0" else "1.1"
  }

  function StatusLine(r: Response): (s: string) {
    Snprintf(SCRATCH_SIZE, "HTTP/" + VersionNumber(r.version) + " " + Digits(r.status.Code()) + " ")
    + r.message + "\r\n"
  }

  /** The lines the printer adds of its own accord. */
  function FramingLines(r: Response): (s: string) {
    if r.close then "Connection: close\r\n"
    else Snprintf(SCRATCH_SIZE, "Content-Length: " + Digits(|r.body|) + "\r\n") + "Connection: Keep-Alive\r\n"
  }

  /** Everything `append_to_buffer` writes, with the headers taken in the order `fields`. */
  function Render(r: Response, fields: seq<Field>): (s: string) {
    StatusLine(r) + (FramingLines(r) + (RenderFields(fields) + "\r\n" + r.body))
  }

  /** The headers a reader is meant to see. */
  function Framed(r: Response): (m: map<string, string>) {
    (if r.close then map["Connection" := "close"]
     else map["Content-Length" := Digits(|r.body|), "Connection" := "Keep-Alive"])
    + r.headers
  }

  predicate WellFormed(r: Response, fields: seq<Field>) {
    && Lists(fields, r.headers) && (forall f :: f in fields ==> WellFormedField(f))
    && "Connection" !in r.headers && "Content-Length" !in r.headers
  }

  /** The parse of the printed response, resumed after its status line. */
  function ReadBack(r: Response, fields: seq<Field>): (o: Outcome) {
    var printed := Render(r, fields);
    Parse(Context(ExpectHeaders, EMPTY_REQUEST), printed[|StatusLine(r)|..])
  }

  /** The printed response reads back as its headers, framing headers included, and its body exactly
      when the connection is closed after it or its body is shorter than 10^13 bytes. */
  lemma ResponseRoundTripIff(r: Response, fields: seq<Field>)
    requires WellFormed(r, fields)
    ensures ReadBack(r, fields) ==
            Outcome(true, Context(GotAll, EMPTY_REQUEST.(headers := Framed(r))), r.body)
            <==> r.close || |r.body| < 10_000_000_000_000
    ensures Value(Digits(|r.body|)) == |r.body|
  {
    DigitsInvert(|r.body|);
    DigitsLength(|r.body|, 13);
    assert Pow10(13) == 10_000_000_000_000;
    var rest := RenderFields(fields) + "\r\n" + r.body;
    assert Render(r, fields)[|StatusLine(r)|..] == FramingLines(r) + rest;
    if r.close {
      CloseReadsBack(r, fields);
    } else if |Digits(|r.body|)| <= 13 {
      KeepAliveReadsBack(r, fields);
    } else {
      LongBodyLosesConnection(r, fields);
    }
  }

  /** The status line ends at the first CRLF, and says its version and code: nothing of it is cut off. */
  lemma StatusLineReadsBack(r: Response, fields: seq<Field>)
    requires CrlfFree(r.message)
    ensures var printed := Render(r, fields);
            && FindCrlf(printed) == Some(|StatusLine(r)| - 2)
            && VersionOf(printed[..8]) == (if r.version == Http10 then Http10 else Http11)
            && var code := Digits(r.status.Code());
               && |StatusLine(r)| >= 12 + |code| && Value(code) == r.status.Code()
               && printed[8..|code| + 10] == " " + code + " "
               && printed[|code| + 10..|StatusLine(r)| - 2] == r.message
  {
    var code := Digits(r.status.Code());
    var head := "HTTP/" + VersionNumber(r.version) + " " + code + " ";
    var rest := FramingLines(r) + (RenderFields(fields) + "\r\n" + r.body);
    StatusFits(r);
    HeadIsCrlfFree(r.version, code);
    CrlfFreeJoin(head, r.message);
    FindCrlfLine(head + r.message, rest);
    CutAfterHead(head, r.message, rest);
  }

  lemma CutAfterHead(head: string, message: string, rest: string)
    requires |head| >= 10
    ensures var printed := head + message + "\r\n" + rest;
            && printed[..8] == head[..8] && printed[8..|head|] == head[8..]
            && printed[|head|..|head| + |message|] == message
  {
  }

  lemma StatusFits(r: Response)
    ensures var code := Digits(r.status.Code());
            && Value(code) == r.status.Code()
            && StatusLine(r) == "HTTP/" + VersionNumber(r.version) + " " + code + " " + r.message + "\r\n"
  {
    DigitsInvert(r.status.Code());
    CodeFits(r.status);
    var code := Digits(r.status.Code());
    assert |"HTTP/" + VersionNumber(r.version) + " " + code + " "| == 10 + |code|;
  }

  lemma CodeFits(c: StatusCode)
    ensures |Digits(c.Code())| <= 3
  {
    DigitsLength(c.Code(), 3);
    TenCubed();
  }

  lemma TenCubed()
    ensures Pow10(3) == 1000
  {
  }

  lemma HeadIsCrlfFree(v: Version, code: string)
    requires AllDigits(code)
    ensures var head := "HTTP/" + VersionNumber(v) + " " + code + " ";
            CrlfFree(head) && |head| == 10 + |code| && head[|head| - 1] == ' ' && head[8..] == " " + code + " "
            && VersionOf(head[..8]) == (if v == Http10 then Http10 else Http11)
  {
    var head := "HTTP/" + VersionNumber(v) + " " + code + " ";
    forall i | 0 <= i < |head|
      ensures head[i] != '\r'
    {
      if 9 <= i < 9 + |code| {
        assert head[i] == code[i - 9];
      }
    }
    assert head[..8][..7] == "HTTP/1.";
  }

  lemma CloseReadsBack(r: Response, fields: seq<Field>)
    requires WellFormed(r, fields) && r.close
    ensures Parse(Context(ExpectHeaders, EMPTY_REQUEST), FramingLines(r) + (RenderFields(fields) + "\r\n" + r.body))
            == Outcome(true, Context(GotAll, EMPTY_REQUEST.(headers := Framed(r))), r.body)
  {
    var own: seq<Field> := [("Connection", "close")];
    CloseFields();
    OwnFieldsThenOthers(r, own, fields);
  }

  lemma CloseFields()
    ensures var own: seq<Field> := [("Connection", "close")];
            && RenderFields(own) == "Connection: close\r\n"
            && Install(map[], own) == map["Connection" := "close"]
            && forall f :: f in own ==> WellFormedField(f)
  {
    var f: Field := ("Connection", "close");
    assert [f][1..] == [];
    OneField(f);
  }

  lemma KeepAliveReadsBack(r: Response, fields: seq<Field>)
    requires WellFormed(r, fields) && !r.close && |Digits(|r.body|)| <= 13
    ensures Parse(Context(ExpectHeaders, EMPTY_REQUEST), FramingLines(r) + (RenderFields(fields) + "\r\n" + r.body))
            == Outcome(true, Context(GotAll, EMPTY_REQUEST.(headers := Framed(r))), r.body)
  {
    var length := Digits(|r.body|);
    var own: seq<Field> := [("Content-Length", length), ("Connection", "Keep-Alive")];
    KeepAliveFields(length);
    OwnFieldsThenOthers(r, own, fields);
  }

  lemma KeepAliveFields(length: string)
    requires AllDigits(length) && length != ""
    ensures var own: seq<Field> := [("Content-Length", length), ("Connection", "Keep-Alive")];
            && RenderFields(own) == "Content-Length: " + length + "\r\n" + "Connection: Keep-Alive\r\n"
            && Install(map[], own) == map["Content-Length" := length, "Connection" := "Keep-Alive"]
            && forall f :: f in own ==> WellFormedField(f)
  {
    var first: Field := ("Content-Length", length);
    var second: Field := ("Connection", "Keep-Alive");
    assert [first, second] == [first] + [second];
    OneField(first);
    OneField(second);
    RenderFieldsAppend([first], [second]);
    assert [first, second][1..] == [second] && [second][1..] == [];
    var one := map["Content-Length" := length];
    assert Install(map[], [first, second]) == Install(one, [second]) == Install(one["Connection" := "Keep-Alive"], []);
  }

  lemma OwnFieldsThenOthers(r: Response, own: seq<Field>, fields: seq<Field>)
    requires WellFormed(r, fields) && forall f :: f in own ==> WellFormedField(f)
    ensures Parse(Context(ExpectHeaders, EMPTY_REQUEST), RenderFields(own) + (RenderFields(fields) + "\r\n" + r.body))
            == Outcome(true, Context(GotAll, EMPTY_REQUEST.(headers := Install(map[], own) + r.headers)), r.body)
  {
    RenderFieldsAppend(own, fields);
    Regroup(RenderFields(own), RenderFields(fields), "\r\n", r.body);
    FieldsRoundTrip(Context(ExpectHeaders, EMPTY_REQUEST), own + fields, r.body);
    InstallAppend(map[], own, fields);
    InstallLists(Install(map[], own), fields, r.headers);
  }

  lemma Regroup(a: string, b: string, c: string, d: string)
    ensures (a + b) + c + d == a + (b + c + d)
  {
  }

  lemma {:induction false} RenderFieldsAppend(a: seq<Field>, b: seq<Field>)
    ensures RenderFields(a + b) == RenderFields(a) + RenderFields(b)
  {
    if a == [] {
      assert a + b == b;
    } else {
      assert (a + b)[0] == a[0] && (a + b)[1..] == a[1..] + b;
      RenderFieldsAppend(a[1..], b);
    }
  }

  lemma {:induction false} InstallAppend(m: map<string, string>, a: seq<Field>, b: seq<Field>)
    ensures Install(m, a + b) == Install(Install(m, a), b)
    decreases |a|
  {
    if a == [] {
      assert a + b == b;
    } else {
      assert (a + b)[0] == a[0] && (a + b)[1..] == a[1..] + b;
      InstallAppend(m[a[0].0 := a[0].1], a[1..], b);
    }
  }

  /** With fourteen digits or more the line's own CRLF is cut off, so the Connection line is swallowed
      by the Content-Length value. */
  lemma LongBodyLosesConnection(r: Response, fields: seq<Field>)
    requires WellFormed(r, fields) && !r.close && |Digits(|r.body|)| > 13
    ensures "Connection" !in
            Parse(Context(ExpectHeaders, EMPTY_REQUEST), FramingLines(r) + (RenderFields(fields) + "\r\n" + r.body))
            .context.request.headers
  {
    var c := Context(ExpectHeaders, EMPTY_REQUEST);
    var rest := RenderFields(fields) + "\r\n" + r.body;
    var full := "Content-Length: " + Digits(|r.body|) + "\r\n";
    var line := full[..31] + "Connection: Keep-Alive";
    TruncatedLine(Digits(|r.body|));
    assert FramingLines(r) + rest == line + "\r\n" + rest;
    FindCrlfLine(line, rest);
    var c' := c.(request := WithHeader(c.request, line, 14));
    assert OneTurn(c, line + "\r\n" + rest) == Turn(true, true, c', rest);
    FieldsRoundTrip(c', fields, r.body);
    InstallLists(c'.request.headers, fields, r.headers);
    assert line[..14] == "Content-Length";
  }

  lemma TruncatedLine(digits: string)
    requires AllDigits(digits) && |digits| > 13
    ensures var line := ("Content-Length: " + digits + "\r\n")[..31] + "Connection: Keep-Alive";
            CrlfFree(line) && Find(line, ':') == 14 && line[..14] == "Content-Length"
  {
    var full := "Content-Length: " + digits + "\r\n";
    var line := full[..31] + "Connection: Keep-Alive";
    assert line[..14] == "Content-Length";
    FindIs(line, ':', 14);
    forall i | 0 <= i < |line|
      ensures !CrlfAt(line, i)
    {
      if 16 <= i + 1 < 31 && i + 1 < 16 + |digits| {
        assert line[i + 1] == digits[i + 1 - 16];
      }
    }
  }

  class HttpResponse {
    var status: StatusCode
    var message: string
    var close: bool
    var version: Version
    var headers: map<string, string>
    var body: string

    ghost function View(): (r: Response)
      reads this
    {
      Response(status, message, close, version, headers, body)
    }

    constructor (close: bool)
      ensures View() == Response(UnknownStatus, "", close, Unknown, map[], "")
    {
      status, message, this.close, version, headers, body := UnknownStatus, "", close, Unknown, map[], "";
    }

    /** Appends the response piece by piece; `fields` is the order its headers were visited in. */
    method AppendToBuffer(output: Buffer) returns (fields: seq<Field>)
      requires output.Valid()
      requires |message| <= INT_MAX && |body| <= INT_MAX
      requires forall k :: k in headers ==> |k| <= INT_MAX && |headers[k]| <= INT_MAX
      modifies output, output.buffer
      ensures output.Valid() && Lists(fields, headers)
      ensures output.Contents() == old(output.Contents()) + Render(View(), fields)
    {
      ghost var before := output.Contents();
      AppendStatusLine(output);
      AppendFraming(output);
      fields := AppendFields(output);
      ghost var printed := RenderFields(fields);
      output.Append("\r\n");
      output.Append(body);
      Pieces(before, StatusLine(View()), FramingLines(View()), printed, "\r\n", body);
    }

    method AppendStatusLine(output: Buffer)
      requires output.Valid() && |message| <= INT_MAX
      modifies output, output.buffer
      ensures output.Valid() && (output.buffer == old(output.buffer) || fresh(output.buffer))
      ensures output.Contents() == old(output.Contents()) + StatusLine(View())
    {
      var scratch := Snprintf(SCRATCH_SIZE, "HTTP/" + VersionNumber(version) + " " + Digits(status.Code()) + " ");
      output.Append(scratch);
      output.Append(message);
      output.Append("\r\n");
      Regroup(old(output.Contents()), scratch, message, "\r\n");
    }

    method AppendFraming(output: Buffer)
      requires output.Valid()
      modifies output, output.buffer
      ensures output.Valid() && (output.buffer == old(output.buffer) || fresh(output.buffer))
      ensures output.Contents() == old(output.Contents()) + FramingLines(View())
    {
      if close {
        output.Append("Connection: close\r\n");
      } else {
        var scratch := Snprintf(SCRATCH_SIZE, "Content-Length: " + Digits(|body|) + "\r\n");
        output.Append(scratch);
        output.Append("Connection: Keep-Alive\r\n");
        Reassociate(old(output.Contents()), scratch, "Connection: Keep-Alive\r\n");
      }
    }

    method AppendFields(output: Buffer) returns (fields: seq<Field>)
      requires output.Valid()
      requires forall k :: k in headers ==> |k| <= INT_MAX && |headers[k]| <= INT_MAX
      modifies output, output.buffer
      ensures output.Valid() && Lists(fields, headers)
      ensures output.buffer == old(output.buffer) || fresh(output.buffer)
      ensures output.Contents() == old(output.Contents()) + RenderFields(fields)
    {
      fields := [];
      var left := headers.Keys;
      ghost var before := output.Contents();
      while left != {}
        invariant left <= headers.Keys && output.Valid()
        invariant output.buffer == old(output.buffer) || fresh(output.buffer)
        invariant Lists(fields, headers - left)
        invariant output.Contents() == before + RenderFields(fields)
        decreases left
      {
        var name :| name in left;
        AppendField(output, (name, headers[name]));
        ListsExtend(fields, headers, left, name);
        RenderFieldsAppend(fields, [(name, headers[name])]);
        Reassociate(before, RenderFields(fields), RenderFields([(name, headers[name])]));
        fields := fields + [(name, headers[name])];
        left := left - {name};
      }
      assert headers - left == headers;
    }
  }

  method AppendField(output: Buffer, f: Field)
    requires output.Valid() && |f.0| <= INT_MAX && |f.1| <= INT_MAX
    modifies output, output.buffer
    ensures output.Valid() && (output.buffer == old(output.buffer) || fresh(output.buffer))
    ensures output.Contents() == old(output.Contents()) + RenderFields([f])
  {
    output.Append(f.0);
    output.Append(": ");
    output.Append(f.1);
    output.Append("\r\n");
    OneField(f);
    Regroup(old(output.Contents()), f.0, ": ", f.1);
    Reassociate(old(output.Contents()), f.0 + ": " + f.1, "\r\n");
  }

  lemma Pieces(before: string, a: string, b: string, c: string, d: string, e: string)
    ensures before + a + b + c + d + e == before + (a + (b + (c + d + e)))
  {
  }

  lemma OneField(f: Field)
    ensures RenderFields([f]) == f.0 + ": " + f.1 + "\r\n"
  {
    assert [f][1..] == [];
  }

  lemma ListsExtend(fields: seq<Field>, headers: map<string, string>, left: set<string>, name: string)
    requires name in left && left <= headers.Keys && Lists(fields, headers - left)
    ensures Lists(fields + [(name, headers[name])], headers - (left - {name}))
  {
    var more := headers - (left - {name});
    var longer := fields + [(name, headers[name])];
    forall i, j | 0 <= i < j < |longer|
      ensures longer[i].0 != longer[j].0
    {
      assert longer[i] in fields;
    }
    forall k | k in more
      ensures (k, more[k]) in longer
    {
      if k != name {
        assert k in headers - left && (k, (headers - left)[k]) in fields;
      } else {
        assert longer[|fields|] == (k, more[k]);
      }
    }
  }
}
