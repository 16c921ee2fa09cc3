/**
 * The .NET text primitives the mesh files are written and read with:
 * String.Split on a set of separator characters, decimal formatting of
 * integers, Int32.Parse and UInt64.Parse (current culture, assumed
 * to use ASCII digits and '-', integer style), and 32-bit wrap-around.
 */
module Text {
  import opened Results

  /** The .NET exceptions the mesh reader and writer can raise. */
  datatype Exception = IndexOutOfRange | Format | Overflow | Argument

  /* ---------- String.Split ---------- */

  predicate NoneOf(s: string, seps: set<char>)
  {
    forall i :: 0 <= i < |s| ==> s[i] !in seps
  }

  lemma Avoids(a: string, b: string, bad: set<char>)
    requires NoneOf(a, bad) && NoneOf(b, bad)
    ensures NoneOf(a + b, bad)
  {
    assert forall i :: 0 <= i < |a + b| ==> (a + b)[i] == (if i < |a| then a[i] else b[i - |a|]);
  }

  /** String.Split(seps): the pieces between separators, including empty
      pieces between adjacent separators and at either end. */
  function Split(s: string, seps: set<char>): (r: seq<string>)
    ensures |r| >= 1
    decreases |s|
  {
    if s == [] then [""]
    else if s[0] in seps then [""] + Split(s[1..], seps)
    else
      var rest := Split(s[1..], seps);
      [[s[0]] + rest[0]] + rest[1..]
  }

  /** No piece holds a separator. */
  lemma {:induction false} SplitPieces(s: string, seps: set<char>)
    ensures forall k :: 0 <= k < |Split(s, seps)| ==> NoneOf(Split(s, seps)[k], seps)
    decreases |s|
  {
    if s != [] {
      SplitPieces(s[1..], seps);
    }
  }

  /** A piece with no separator in it splits to itself. */
  lemma {:induction false} SplitNone(a: string, seps: set<char>)
    requires NoneOf(a, seps)
    ensures Split(a, seps) == [a]
    decreases |a|
  {
    if a != [] {
      SplitNone(a[1..], seps);
      assert [a[0]] + a[1..] == a;
    }
  }

  /** Splitting stops at the first separator. */
  lemma {:induction false} SplitAt(a: string, c: char, b: string, seps: set<char>)
    requires NoneOf(a, seps) && c in seps
    ensures Split(a + [c] + b, seps) == [a] + Split(b, seps)
    decreases |a|
  {
    if a == [] {
      assert a + [c] + b == [c] + b;
      assert ([c] + b)[1..] == b;
    } else {
      var s := a + [c] + b;
      assert s[0] == a[0] && s[1..] == a[1..] + [c] + b;
      SplitAt(a[1..], c, b, seps);
      assert [a[0]] + a[1..] == a;
    }
  }

  /** Pieces with one separator character between each neighbouring pair:
      the text a format string like "v {0} {1} {2}" produces. */
  function Glue(parts: seq<string>, gaps: string): string
    requires |parts| == |gaps| + 1
    decreases |gaps|
  {
    if gaps == [] then parts[0] else parts[0] + [gaps[0]] + Glue(parts[1..], gaps[1..])
  }

  /** Splitting glued pieces on the glue characters gives the pieces back. */
  lemma {:induction false} SplitGlue(parts: seq<string>, gaps: string, seps: set<char>)
    requires |parts| == |gaps| + 1
    requires forall k :: 0 <= k < |parts| ==> NoneOf(parts[k], seps)
    requires forall k :: 0 <= k < |gaps| ==> gaps[k] in seps
    ensures Split(Glue(parts, gaps), seps) == parts
    decreases |gaps|
  {
    if gaps == [] {
      SplitNone(parts[0], seps);
    } else {
      SplitGlue(parts[1..], gaps[1..], seps);
      SplitAt(parts[0], gaps[0], Glue(parts[1..], gaps[1..]), seps);
      assert [parts[0]] + parts[1..] == parts;
    }
  }

  /** Glued text holds no character that is in neither the pieces nor the glue. */
  lemma {:induction false} GlueAvoids(parts: seq<string>, gaps: string, bad: set<char>)
    requires |parts| == |gaps| + 1
    requires forall k :: 0 <= k < |parts| ==> NoneOf(parts[k], bad)
    requires forall k :: 0 <= k < |gaps| ==> gaps[k] !in bad
    ensures NoneOf(Glue(parts, gaps), bad)
    decreases |gaps|
  {
    if gaps != [] {
      GlueAvoids(parts[1..], gaps[1..], bad);
      var rest := Glue(parts[1..], gaps[1..]);
      var s := parts[0] + [gaps[0]] + rest;
      forall i | 0 <= i < |s|
        ensures s[i] !in bad
      {
        if i < |parts[0]| {
          assert s[i] == parts[0][i];
        } else if i > |parts[0]| {
          assert s[i] == rest[i - |parts[0]| - 1];
        }
      }
    }
  }

  /* ---------- lines ---------- */

  /** The text of a series of lines, each ended by '\n' (what a
      StringBuilder holds after appending them one by one). */
  function Lines(ls: seq<string>): string
    decreases |ls|
  {
    if ls == [] then "" else ls[0] + "\n" + Lines(ls[1..])
  }

  lemma {:induction false} LinesAppend(a: seq<string>, b: seq<string>)
    ensures Lines(a + b) == Lines(a) + Lines(b)
    decreases |a|
  {
    if a == [] {
      assert a + b == b;
    } else {
      assert (a + b)[0] == a[0];
      assert (a + b)[1..] == a[1..] + b;
      LinesAppend(a[1..], b);
      calc {
        Lines(a + b);
        a[0] + "\n" + Lines(a[1..] + b);
        a[0] + "\n" + (Lines(a[1..]) + Lines(b));
        (a[0] + "\n" + Lines(a[1..])) + Lines(b);
        Lines(a) + Lines(b);
      }
    }
  }

  lemma LinesSnoc(ls: seq<string>, l: string)
    ensures Lines(ls + [l]) == Lines(ls) + l + "\n"
  {
    LinesAppend(ls, [l]);
    assert Lines([l]) == l + "\n" + Lines([]);
  }

  /** Text made of '\n'-ended lines splits, on '\n', into those lines and
      one empty piece after the last end of line. */
  lemma {:induction false} SplitLines(ls: seq<string>)
    requires forall k :: 0 <= k < |ls| ==> NoneOf(ls[k], {'\n'})
    ensures Split(Lines(ls), {'\n'}) == ls + [""]
    decreases |ls|
  {
    if ls != [] {
      SplitLines(ls[1..]);
      SplitAt(ls[0], '\n', Lines(ls[1..]), {'\n'});
      assert [ls[0]] + (ls[1..] + [""]) == ls + [""];
    }
  }

  /* ---------- decimal integers ---------- */

  predicate IsDigit(c: char)
  {
    '0' <= c <= '9'
  }

  predicate AllDigits(s: string)
  {
    forall i :: 0 <= i < |s| ==> IsDigit(s[i])
  }

  function DigitChar(d: nat): (c: char)
    requires d < 10
    ensures IsDigit(c) && (c as int) - ('0' as int) == d
  {
    (('0' as int) + d) as char
  }

  /** The decimal digits of n, with no leading zero (UInt64.ToString()). */
  function NatToString(n: nat): (s: string)
    ensures |s| >= 1 && AllDigits(s)
    ensures |s| > 1 ==> s[0] != '0'
    decreases n
  {
    if n < 10 then [DigitChar(n)] else NatToString(n / 10) + [DigitChar(n % 10)]
  }

  /** The value of a string of decimal digits. */
  function DigitsValue(s: string): nat
    requires AllDigits(s)
    decreases |s|
  {
    if s == [] then 0
    else DigitsValue(s[..|s| - 1]) * 10 + ((s[|s| - 1] as int) - ('0' as int))
  }

  lemma {:induction false} DigitsRoundTrip(n: nat)
    ensures DigitsValue(NatToString(n)) == n
    decreases n
  {
    if n >= 10 {
      DigitsRoundTrip(n / 10);
      var s := NatToString(n);
      assert s[..|s| - 1] == NatToString(n / 10);
    }
  }

  /** Int32.ToString(): a minus sign for negative values, then the digits. */
  function IntToString(i: int): (s: string)
    ensures |s| >= 1
  {
    if i < 0 then "-" + NatToString(-i) else NatToString(i)
  }

  /* ---------- Int32.Parse / UInt64.Parse ---------- */

  /** The white space integer parsing skips: U+0009 to U+000D and U+0020. */
  predicate IsWhite(c: char)
  {
    c == ' ' || '\t' <= c <= '\r'
  }

  function TrimStart(s: string): (r: string)
    ensures |r| <= |s| && r == s[|s| - |r|..]
    ensures r == [] || !IsWhite(r[0])
    decreases |s|
  {
    if s != [] && IsWhite(s[0]) then TrimStart(s[1..]) else s
  }

  function TrimEnd(s: string): (r: string)
    ensures |r| <= |s| && r == s[..|r|]
    ensures r == [] || !IsWhite(r[|r| - 1])
    decreases |s|
  {
    if s != [] && IsWhite(s[|s| - 1]) then TrimEnd(s[..|s| - 1]) else s
  }

  /** White space, an optional sign and at least one digit, then white
      space: the sign (true for '-') and the magnitude. */
  function ParseSigned(s: string): (r: Result<(bool, nat), Exception>)
    ensures r.Err? ==> r.error == Format
  {
    var t := TrimEnd(TrimStart(s));
    if t == [] then Err(Format)
    else
      var body := if t[0] == '-' || t[0] == '+' then t[1..] else t;
      if body == [] || !AllDigits(body) then Err(Format)
      else Ok((t[0] == '-', DigitsValue(body)))
  }

  const Int32Min: int := -0x8000_0000
  const Int32Max: int := 0x7FFF_FFFF
  const UInt64Max: int := 0xFFFF_FFFF_FFFF_FFFF

  type Int32 = x: int | Int32Min <= x <= Int32Max
  type UInt64 = x: int | 0 <= x <= UInt64Max

  /** Int32.Parse. */
  function ParseInt32(s: string): (r: Result<Int32, Exception>)
    ensures r.Err? ==> r.error == Format || r.error == Overflow
  {
    match ParseSigned(s)
    case Err(e) => Err(e)
    case Ok((neg, n)) =>
      var m: int := n;
      var v := if neg then -m else m;
      if Int32Min <= v <= Int32Max then Ok(v) else Err(Overflow)
  }

  /** UInt64.Parse: a minus sign is accepted in front of a zero value only. */
  function ParseUInt64(s: string): (r: Result<UInt64, Exception>)
    ensures r.Err? ==> r.error == Format || r.error == Overflow
  {
    match ParseSigned(s)
    case Err(e) => Err(e)
    case Ok((neg, n)) =>
      if neg && n != 0 then Err(Overflow)
      else if n <= UInt64Max then Ok(n) else Err(Overflow)
  }

  lemma NoWhiteTrims(s: string)
    requires s != [] && !IsWhite(s[0]) && !IsWhite(s[|s| - 1])
    ensures TrimEnd(TrimStart(s)) == s
  {
  }

  /** A plain run of digits parses as its value. */
  lemma ParseDigitRun(t: string)
    requires t != [] && AllDigits(t)
    ensures ParseSigned(t) == Ok((false, DigitsValue(t)))
  {
    NoWhiteTrims(t);
  }

  /** A minus sign and a run of digits parse as its value, negated. */
  lemma ParseNegativeRun(t: string)
    requires t != [] && AllDigits(t)
    ensures ParseSigned("-" + t) == Ok((true, DigitsValue(t)))
  {
    var s := "-" + t;
    NoWhiteTrims(s);
    var trimmed := TrimEnd(TrimStart(s));
    assert trimmed == s && trimmed[0] == '-';
    assert trimmed[1..] == t;
  }

  /** The decimal digits of n parse back to n, unsigned. */
  lemma ParseDigits(n: nat)
    ensures ParseSigned(NatToString(n)) == Ok((false, n))
  {
    DigitsRoundTrip(n);
    ParseDigitRun(NatToString(n));
  }

  /** A minus sign followed by the decimal digits of n parses back. */
  lemma ParseNegativeDigits(n: nat, s: string)
    requires s == "-" + NatToString(n)
    ensures ParseSigned(s) == Ok((true, n))
  {
    DigitsRoundTrip(n);
    ParseNegativeRun(NatToString(n));
  }

  /** Every 32-bit integer survives formatting and Int32.Parse. */
  lemma Int32RoundTrip(i: Int32)
    ensures ParseInt32(IntToString(i)) == Ok(i)
  {
    var m: int := i;
    if m < 0 {
      ParseNegativeDigits(-m, IntToString(i));
    } else {
      ParseDigits(m);
    }
  }

  /** Every 64-bit unsigned integer survives formatting and UInt64.Parse. */
  lemma UInt64RoundTrip(n: UInt64)
    ensures ParseUInt64(NatToString(n)) == Ok(n)
  {
    ParseDigits(n);
  }

  /* ---------- unchecked 32-bit arithmetic ---------- */

  /** Unchecked C# int addition of one: Int32.MaxValue wraps to Int32.MinValue. */
  function Inc32(t: Int32): Int32
  {
    if t == Int32Max then Int32Min else t + 1
  }

  /** Unchecked C# int subtraction of one: Int32.MinValue wraps to Int32.MaxValue. */
  function Dec32(t: Int32): Int32
  {
    if t == Int32Min then Int32Max else t - 1
  }

  /** Adding one and subtracting one, each with wrap-around, undo each
      other on every 32-bit integer, the two ends of the range included. */
  lemma IncDec(t: Int32)
    ensures Dec32(Inc32(t)) == t && Inc32(Dec32(t)) == t
  {
  }
}
