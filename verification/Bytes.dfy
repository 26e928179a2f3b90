/**
 Byte strings as the buffer, the HTTP parser and the logger see them.  A byte is a Dafny `char`; no
 result depends on how many distinct bytes there are.
 */
module Bytes {

  datatype Option<+T> = None | Some(value: T)

  /** The index of the first `c` in `s`, or `|s|` when there is none (std::find). */
  function Find(s: string, c: char): (i: nat)
    ensures i <= |s|
    ensures i < |s| ==> s[i] == c
    ensures forall j :: 0 <= j < i ==> s[j] != c
  {
    if s == [] || s[0] == c then 0 else 1 + Find(s[1..], c)
  }

  /** What `Find` returns is the only index it could be. */
  lemma FindIs(s: string, c: char, i: nat)
    requires i <= |s| && (i < |s| ==> s[i] == c) && c !in s[..i]
    ensures Find(s, c) == i
  {
    assert forall j :: 0 <= j < i ==> s[j] == s[..i][j];
  }

  /** A string cut at its first `c`. */
  lemma FindCuts(s: string, c: char)
    ensures var i := Find(s, c);
            c !in s[..i] && (i < |s| ==> s == s[..i] + [c] + s[i + 1..])
  {
  }

  /** Joining with a separator and cutting at it are inverse. */
  lemma FindJoins(a: string, c: char, b: string)
    requires c !in a
    ensures var s := a + [c] + b;
            Find(s, c) == |a| && s[..|a|] == a && s[|a| + 1..] == b
  {
    var s := a + [c] + b;
    assert s[..|a|] == a;
    FindIs(s, c, |a|);
  }

  predicate CrlfAt(s: string, i: int) {
    0 <= i && i + 1 < |s| && s[i] == '\r' && s[i + 1] == '\n'
  }

  predicate CrlfFree(s: string) {
    forall i :: 0 <= i < |s| ==> !CrlfAt(s, i)
  }

  lemma CrlfFreeJoin(a: string, b: string)
    requires CrlfFree(a) && CrlfFree(b)
    requires a == "" || b == "" || a[|a| - 1] != '\r' || b[0] != '\n'
    ensures CrlfFree(a + b)
  {
    forall i | 0 <= i < |a + b|
      ensures !CrlfAt(a + b, i)
    {
      if i + 1 < |a| {
        assert !CrlfAt(a, i);
      } else if |a| <= i {
        assert !CrlfAt(b, i - |a|);
      }
    }
  }

  /** The first CRLF of `s`, if it has one (std::search for "\r\n"). */
  function FindCrlf(s: string): (r: Option<nat>)
    ensures r.None? <==> CrlfFree(s)
    ensures r.Some? ==> CrlfAt(s, r.value) && forall j :: 0 <= j < r.value ==> !CrlfAt(s, j)
  {
    FindCrlfFrom(s, 0)
  }

  function FindCrlfFrom(s: string, from: nat): (r: Option<nat>)
    requires forall j :: 0 <= j < from ==> !CrlfAt(s, j)
    ensures r.None? <==> CrlfFree(s)
    ensures r.Some? ==> CrlfAt(s, r.value) && forall j :: 0 <= j < r.value ==> !CrlfAt(s, j)
    decreases |s| - from
  {
    if |s| <= from then None
    else if CrlfAt(s, from) then Some(from)
    else FindCrlfFrom(s, from + 1)
  }

  /** A CRLF already found stays the first one however the string is extended. */
  lemma FindCrlfPrefix(s: string, t: string)
    requires FindCrlf(s).Some?
    ensures FindCrlf(s + t) == FindCrlf(s)
  {
    var i := FindCrlf(s).value;
    assert CrlfAt(s + t, i);
    assert forall j :: 0 <= j < i ==> (CrlfAt(s + t, j) <==> CrlfAt(s, j));
  }

  /** A CRLF-free line followed by a CRLF is cut exactly there. */
  lemma FindCrlfLine(line: string, rest: string)
    requires CrlfFree(line)
    ensures var s := line + "\r\n" + rest;
            FindCrlf(s) == Some(|line|) && s[..|line|] == line && s[|line| + 2..] == rest
  {
    var s := line + "\r\n" + rest;
    assert CrlfAt(s, |line|);
    forall j | 0 <= j < |line|
      ensures !CrlfAt(s, j)
    {
      assert !CrlfAt(line, j);
    }
  }

  function Flatten<T>(parts: seq<seq<T>>): (r: seq<T>)
  {
    if parts == [] then [] else parts[0] + Flatten(parts[1..])
  }

  lemma {:induction false} FlattenAppend<T>(a: seq<seq<T>>, b: seq<seq<T>>)
    ensures Flatten(a + b) == Flatten(a) + Flatten(b)
  {
    if a == [] {
      assert a + b == b;
    } else {
      assert (a + b)[0] == a[0] && (a + b)[1..] == a[1..] + b;
      FlattenAppend(a[1..], b);
    }
  }

  lemma FlattenOne<T>(part: seq<T>)
    ensures Flatten([part]) == part
  {
    assert [part][1..] == [];
  }

  lemma Reassociate<T>(a: seq<T>, b: seq<T>, c: seq<T>)
    ensures (a + b) + c == a + (b + c)
  {
  }
}
