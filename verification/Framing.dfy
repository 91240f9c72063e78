/** Length framing of a list of values, `<byte length>:<value>` one after the other, and the decoder
    that shows nothing is ambiguous (src/core/interaction.ts). A string here is its UTF-8 byte text. */
module Framing {
  import opened Base

  const DIGITS := "0123456789"

  function Decimal(n: nat): (s: string)
    ensures |s| >= 1
  {
    if n < 10 then [DIGITS[n]] else Decimal(n / 10) + [DIGITS[n % 10]]
  }

  predicate IsDigit(c: char) {
    '0' <= c <= '9'
  }

  predicate AllDigits(s: string) {
    forall i :: 0 <= i < |s| ==> IsDigit(s[i])
  }

  function ParseDecimal(s: string): nat
    requires AllDigits(s)
  {
    if s == "" then 0 else 10 * ParseDecimal(s[..|s| - 1]) + (s[|s| - 1] as int - '0' as int)
  }

  lemma {:induction false} DecimalRoundTrip(n: nat)
    ensures AllDigits(Decimal(n)) && ParseDecimal(Decimal(n)) == n
  {
    if n < 10 {
      assert Decimal(n)[..0] == "";
    } else {
      DecimalRoundTrip(n / 10);
      var s := Decimal(n);
      assert s[..|s| - 1] == Decimal(n / 10);
    }
  }

  function FrameOne(v: string): string {
    Decimal(|v|) + ":" + v
  }

  function Frame(values: seq<string>): string {
    if values == [] then "" else FrameOne(values[0]) + Frame(values[1..])
  }

  /** Index of the first colon, or the length when there is none. */
  function FirstColon(s: string): (i: nat)
    ensures i <= |s|
    ensures i < |s| ==> s[i] == ':'
    ensures forall k :: 0 <= k < i ==> s[k] != ':'
  {
    if s == "" || s[0] == ':' then 0 else 1 + FirstColon(s[1..])
  }

  function Unframe(s: string): Option<seq<string>>
    decreases |s|
  {
    if s == "" then Some([])
    else
      var c := FirstColon(s);
      if c == |s| || !AllDigits(s[..c]) then None
      else
        var end := c + 1 + ParseDecimal(s[..c]);
        if end > |s| then None
        else match Unframe(s[end..])
          case None => None
          case Some(rest) => Some([s[c + 1..end]] + rest)
  }

  lemma FirstColonAt(s: string, n: nat)
    requires n < |s| && s[n] == ':' && forall k :: 0 <= k < n ==> s[k] != ':'
    ensures FirstColon(s) == n
  {
  }

  lemma FrameHead(v: string, rest: string)
    ensures var d := Decimal(|v|); var s := FrameOne(v) + rest;
      && |s| == |d| + 1 + |v| + |rest| && FirstColon(s) == |d| && s[..|d|] == d
      && s[|d| + 1..|d| + 1 + |v|] == v && s[|d| + 1 + |v|..] == rest
  {
    DecimalRoundTrip(|v|);
    HeadAround(Decimal(|v|), v, rest);
  }

  lemma HeadAround(d: string, v: string, rest: string)
    requires AllDigits(d)
    ensures var s := (d + ":" + v) + rest;
      && |s| == |d| + 1 + |v| + |rest| && FirstColon(s) == |d| && s[..|d|] == d
      && s[|d| + 1..|d| + 1 + |v|] == v && s[|d| + 1 + |v|..] == rest
  {
    var s := (d + ":" + v) + rest;
    assert s == d + (":" + (v + rest));
    HeadSlices(d, v, rest, s);
    FirstColonAt(s, |d|);
  }

  lemma HeadSlices(d: string, v: string, rest: string, s: string)
    requires s == d + (":" + (v + rest))
    ensures |s| == |d| + 1 + |v| + |rest| && s[|d|] == ':' && s[..|d|] == d
    ensures s[|d| + 1..|d| + 1 + |v|] == v && s[|d| + 1 + |v|..] == rest
    ensures forall k :: 0 <= k < |d| ==> s[k] == d[k]
  {
    assert s[|d| + 1..] == v + rest;
  }

  /** The partner of `Frame`: every framed list decodes to itself. */
  lemma {:induction false} FrameRoundTrip(values: seq<string>)
    ensures Unframe(Frame(values)) == Some(values)
  {
    if values != [] {
      FrameRoundTrip(values[1..]);
      FrameHead(values[0], Frame(values[1..]));
      DecimalRoundTrip(|values[0]|);
      assert values == [values[0]] + values[1..];
    }
  }

  lemma FrameInjective(a: seq<string>, b: seq<string>)
    ensures Frame(a) == Frame(b) <==> a == b
  {
    FrameRoundTrip(a);
    FrameRoundTrip(b);
  }

  /** The hash-update loop: feeds each length, colon and value in turn. */
  method FeedFramed(values: seq<string>) returns (fed: string)
    ensures fed == Frame(values)
  {
    fed := "";
    var i := 0;
    while i < |values|
      invariant 0 <= i <= |values|
      invariant fed + Frame(values[i..]) == Frame(values)
    {
      ghost var before := fed;
      fed := fed + Decimal(|values[i]|);
      fed := fed + ":";
      fed := fed + values[i];
      assert fed == before + FrameOne(values[i]);
      assert values[i..][1..] == values[i + 1..];
      i := i + 1;
    }
    assert values[i..] == [];
  }
}
