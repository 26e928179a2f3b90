/**
 The fixed-size buffer of src/base/log/fixed_buffer.h and the table-driven integer formatter of
 src/base/log/log_stream.h.
 */
module LogStreams {
  import opened Bytes
  import opened Decimal

  const SMALL_BUFFER_SIZE: nat := 4000
  const MAX_NUMERIC_SIZE: nat := 48
  const INT64_MIN: int := -0x8000_0000_0000_0000
  const UINT64_MAX: int := 0xffff_ffff_ffff_ffff
  const DIGIT_TABLE := "9876543210123456789"

  /** What an append leaves in a buffer of `size` bytes: text that does not fit is dropped whole. */
  function FixedAppend(size: nat, filled: string, text: string): (r: string) {
    if |filled| + |text| < size then filled + text else filled
  }

  class FixedBuffer {
    const data: array<char>
    var cur: nat

    ghost predicate Valid()
      reads this
    {
      cur <= data.Length
    }

    ghost function Filled(): (s: string)
      requires Valid()
      reads this, data
    {
      data[..cur]
    }

    constructor (size: nat)
      ensures Valid() && Filled() == "" && data.Length == size && fresh(data)
    {
      data := new char[size];
      cur := 0;
    }

    method Append(text: string)
      requires Valid()
      modifies this`cur, data
      ensures Valid() && Filled() == FixedAppend(data.Length, old(Filled()), text)
    {
      if data.Length - cur > |text| {
        forall i | 0 <= i < |text| {
          data[cur + i] := text[i];
        }
        cur := cur + |text|;
      }
    }

    /** The source's `length()` measures the whole array, not the filled part. */
    method Length() returns (n: nat)
      requires Valid()
      ensures n == data.Length && |Filled()| <= n
    {
      n := data.Length;
    }

    method Reset()
      modifies this`cur
      ensures Valid() && Filled() == ""
    {
      cur := 0;
    }
  }

  /** Appends never fill the array to the brim, so a writer that trusts `length()` always hands over
      bytes that no append put there. */
  lemma LengthIsNeverFilled(size: nat, texts: seq<string>)
    requires size > 0
    ensures |AppendAll(size, texts)| < size
  {
    if texts != [] {
      LengthIsNeverFilled(size, texts[..|texts| - 1]);
    }
  }

  function AppendAll(size: nat, texts: seq<string>): (r: string) {
    if texts == [] then "" else FixedAppend(size, AppendAll(size, texts[..|texts| - 1]), texts[|texts| - 1])
  }

  // ---------------------------------------------------------------------------------------------
  // Integers

  /** Division and remainder that round toward zero, as C++ does. */
  function TruncDiv(a: int, b: nat): (q: int)
    requires b > 0
  {
    if a >= 0 then a / b else -((-a) / b)
  }

  function TruncMod(a: int, b: nat): (r: int)
    requires b > 0
    ensures 0 - b < r < b
  {
    if a >= 0 then a % b else -((-a) % b)
  }

  function Abs(n: int): (m: nat) {
    if n < 0 then -n else n
  }

  /** The decimal notation of an integer. */
  function Signed(n: int): (s: string) {
    if n < 0 then "-" + Digits(-n) else Digits(n)
  }

  function SignedValue(s: string): (r: Option<int>) {
    if s != [] && s[0] == '-' then
      if |s| > 1 && AllDigits(s[1..]) then Some(0 - Value(s[1..])) else None
    else if s != [] && AllDigits(s) then Some(Value(s)) else None
  }

  /** The notation reads back as the number and has no leading zero, the most negative 64-bit value
      included. */
  lemma SignedInverts(n: int)
    ensures SignedValue(Signed(n)) == Some(n)
    ensures Signed(n)[0] == '0' ==> n == 0
    ensures n < 0 ==> Signed(n)[0] == '-' && Signed(n)[1] != '0'
  {
    var digits := Digits(Abs(n));
    DigitsInvert(Abs(n));
    if n < 0 {
      assert Signed(n)[1..] == digits && Signed(n)[1] == digits[0];
    } else {
      assert Signed(n) == digits && digits[0] != '-';
    }
  }

  /** With its NUL it fits the reserved bytes, for every signed or unsigned 64-bit value. */
  lemma SignedFits(n: int)
    requires INT64_MIN <= n <= UINT64_MAX
    ensures |Signed(n)| + 1 <= MAX_NUMERIC_SIZE
  {
    TwentyDigits(Abs(n));
  }

  lemma TwentyDigits(n: nat)
    requires n <= UINT64_MAX
    ensures |Digits(n)| <= 20
  {
    DigitsLength(n, 20);
    TenToTheTwenty();
  }

  lemma TenToTheTwenty()
    ensures Pow10(20) == 100_000_000_000_000_000_000
  {
    assert Pow10(8) == 1_0000_0000;
    assert Pow10(12) == 1_0000_0000_0000;
    assert Pow10(16) == 1_0000_0000_0000_0000;
  }

  function Reversed(s: string): (r: string)
    ensures |r| == |s| && forall i :: 0 <= i < |s| ==> r[i] == s[|s| - 1 - i]
  {
    seq(|s|, i requires 0 <= i < |s| => s[|s| - 1 - i])
  }

  /** One turn of the digit loop: the table entry is the last digit, whatever the sign. */
  lemma DigitStep(n: int)
    ensures DIGIT_TABLE[9 + TruncMod(n, 10)] == DigitChar(Abs(n) % 10)
    ensures Abs(TruncDiv(n, 10)) == Abs(n) / 10
    ensures Digits(Abs(n)) == (if TruncDiv(n, 10) == 0 then "" else Digits(Abs(TruncDiv(n, 10)))) + [DigitChar(Abs(n) % 10)]
  {
    var d := Abs(n) % 10;
    assert TruncMod(n, 10) == d || TruncMod(n, 10) == -d;
    assert DIGIT_TABLE[9 + d] == DigitChar(d) && DIGIT_TABLE[9 - d] == DigitChar(d) by {
      if d == 0 {} else if d == 1 {} else if d == 2 {} else if d == 3 {} else if d == 4 {}
      else if d == 5 {} else if d == 6 {} else if d == 7 {} else if d == 8 {}
    }
  }

  /** std::reverse over `a[lo..hi]`. */
  method ReverseRange(a: array<char>, lo: nat, hi: nat)
    requires lo <= hi <= a.Length
    modifies a
    ensures a[..hi] == old(a[..lo]) + Reversed(old(a[lo..hi]))
    ensures forall k :: hi <= k < a.Length ==> a[k] == old(a[k])
  {
    var i, j := lo, hi;
    while i + 1 < j
      invariant lo <= i <= j <= hi && i - lo == hi - j
      invariant forall k :: 0 <= k < a.Length && (k < lo || hi <= k || i <= k < j) ==> a[k] == old(a[k])
      invariant forall k :: lo <= k < i || j <= k < hi ==> a[k] == old(a[lo + hi - 1 - k])
    {
      j := j - 1;
      a[i], a[j] := a[j], a[i];
      i := i + 1;
    }
  }

  class LogStream {
    const buffer: FixedBuffer

    constructor ()
      ensures buffer.Valid() && buffer.Filled() == "" && buffer.data.Length == SMALL_BUFFER_SIZE
    {
      buffer := new FixedBuffer(SMALL_BUFFER_SIZE);
    }

    /** Formats any signed or unsigned 64-bit integer, or nothing when fewer than 48 bytes are left. */
    method FormatInteger(num: int)
      requires buffer.Valid() && INT64_MIN <= num <= UINT64_MAX
      modifies buffer`cur, buffer.data
      ensures buffer.Valid()
      ensures var room := MAX_NUMERIC_SIZE <= buffer.data.Length - old(buffer.cur);
              && buffer.Filled() == old(buffer.Filled()) + (if room then Signed(num) else "")
              && (room ==> buffer.cur - old(buffer.cur) < MAX_NUMERIC_SIZE && buffer.data[buffer.cur] == '\0')
    {
      if buffer.data.Length - buffer.cur >= MAX_NUMERIC_SIZE {
        TwentyDigits(Abs(num));
        var start := buffer.cur;
        var cur := EmitDigits(num);
        cur := EmitSign(num, cur);
        ReverseRange(buffer.data, start, cur);
        buffer.cur := cur;
      }
    }

    method EmitSign(num: int, at: nat) returns (cur: nat)
      requires buffer.Valid() && buffer.cur <= at && at + 1 < buffer.data.Length
      requires buffer.data[buffer.cur..at] == Reversed(Digits(Abs(num)))
      modifies buffer.data
      ensures cur == if num < 0 then at + 1 else at
      ensures buffer.Filled() == old(buffer.Filled())
      ensures Reversed(buffer.data[buffer.cur..cur]) == Signed(num)
      ensures buffer.data[cur] == '\0'
    {
      cur := at;
      ghost var digits := buffer.data[buffer.cur..at];
      if num < 0 {
        buffer.data[cur] := '-';
        cur := cur + 1;
      }
      buffer.data[cur] := '\0';
      assert buffer.data[buffer.cur..cur] == digits + if num < 0 then "-" else "";
      SignReversed(num, buffer.data[buffer.cur..cur]);
    }

    /** The do-while loop: digits of `num` past the write position, least significant first. */
    method EmitDigits(num: int) returns (cur: nat)
      requires buffer.Valid() && MAX_NUMERIC_SIZE <= buffer.data.Length - buffer.cur
      requires |Digits(Abs(num))| + 2 <= MAX_NUMERIC_SIZE
      modifies buffer.data
      ensures cur == buffer.cur + |Digits(Abs(num))|
      ensures buffer.Filled() == old(buffer.Filled())
      ensures buffer.data[buffer.cur..cur] == Reversed(Digits(Abs(num)))
    {
      var start := buffer.cur;
      cur := start;
      var n := num;
      var again := true;
      ghost var emitted := "";
      while again
        invariant start <= cur <= start + |Digits(Abs(num))|
        invariant buffer.data[..start] == old(buffer.data[..start])
        invariant buffer.data[start..cur] == emitted
        invariant again ==> Digits(Abs(num)) == Digits(Abs(n)) + Reversed(emitted)
        invariant !again ==> Digits(Abs(num)) == Reversed(emitted)
        decreases again, Abs(n)
      {
        DigitStep(n);
        EmitStep(Digits(Abs(num)), n, emitted);
        buffer.data[cur] := DIGIT_TABLE[9 + TruncMod(n, 10)];
        emitted := emitted + [DigitChar(Abs(n) % 10)];
        cur := cur + 1;
        n := TruncDiv(n, 10);
        again := n != 0;
      }
      ReversedTwice(emitted);
    }
  }

  lemma EmitStep(goal: string, n: int, emitted: string)
    requires goal == Digits(Abs(n)) + Reversed(emitted)
    ensures var more := emitted + [DigitChar(Abs(n) % 10)];
            goal == if TruncDiv(n, 10) == 0 then Reversed(more) else Digits(Abs(TruncDiv(n, 10))) + Reversed(more)
  {
    DigitStep(n);
    var d := DigitChar(Abs(n) % 10);
    assert Reversed(emitted + [d]) == [d] + Reversed(emitted);
    assert "" + [d] == [d];
  }

  lemma ReversedTwice(s: string)
    ensures Reversed(Reversed(s)) == s
  {
  }

  lemma SignReversed(num: int, written: string)
    requires written == Reversed(Digits(Abs(num))) + if num < 0 then "-" else ""
    ensures Reversed(written) == Signed(num)
  {
    ReversedTwice(Digits(Abs(num)));
    if num < 0 {
      assert Reversed(written) == "-" + Reversed(Reversed(Digits(Abs(num))));
    } else {
      assert written == Reversed(Digits(Abs(num)));
    }
  }
}
