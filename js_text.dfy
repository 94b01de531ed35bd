/** The JavaScript string and number conversions the mobile client relies on:
    `trim`, `Number` of a string, `String` of an integer, `padStart`, and the
    `mm:ss` rendering of a number of seconds. Only integers are modelled. */
module JsText {
  import opened Base

  // ---------------------------------------------------------------------
  // Trimming

  function TrimStart(s: string): (r: string)
    ensures |r| <= |s| && r == s[|s| - |r|..]
    ensures r == [] || !IsJsSpace(r[0])
    ensures forall i :: 0 <= i < |s| - |r| ==> IsJsSpace(s[i])
  {
    if s == [] || !IsJsSpace(s[0]) then s else TrimStart(s[1..])
  }

  function TrimEnd(s: string): (r: string)
    ensures |r| <= |s| && r == s[..|r|]
    ensures r == [] || !IsJsSpace(r[|r| - 1])
    ensures forall i :: |r| <= i < |s| ==> IsJsSpace(s[i])
  {
    if s == [] || !IsJsSpace(s[|s| - 1]) then s else TrimEnd(s[..|s| - 1])
  }

  /** `String.prototype.trim`. */
  function Trim(s: string): (r: string)
  {
    TrimEnd(TrimStart(s))
  }

  lemma {:induction false} TrimStartEmptyIffBlank(s: string)
    ensures TrimStart(s) == [] <==> IsBlank(s)
    decreases |s|
  {
    if s != [] && IsJsSpace(s[0]) {
      TrimStartEmptyIffBlank(s[1..]);
    }
  }

  /** A string trims to the empty string exactly when it is blank. */
  lemma TrimEmptyIffBlank(s: string)
    ensures Trim(s) == "" <==> IsBlank(s)
  {
    TrimStartEmptyIffBlank(s);
    var t := TrimStart(s);
    assert t != [] ==> !IsJsSpace(t[0]);
  }

  // ---------------------------------------------------------------------
  // Decimal digits

  predicate IsDigit(c: char)
  {
    '0' <= c <= '9'
  }

  predicate AllDigits(s: string)
  {
    forall i :: 0 <= i < |s| ==> IsDigit(s[i])
  }

  function DigitChar(d: int): (c: char)
    requires 0 <= d <= 9
    ensures IsDigit(c)
  {
    ['0', '1', '2', '3', '4', '5', '6', '7', '8', '9'][d]
  }

  function DigitValue(c: char): (d: int)
    requires IsDigit(c)
    ensures 0 <= d <= 9 && DigitChar(d) == c
  {
    if c == '0' then 0 else if c == '1' then 1 else if c == '2' then 2
    else if c == '3' then 3 else if c == '4' then 4 else if c == '5' then 5
    else if c == '6' then 6 else if c == '7' then 7 else if c == '8' then 8
    else 9
  }

  /** The value of a string of decimal digits, leading zeros allowed. */
  function ParseNat(s: string): nat
    requires AllDigits(s)
  {
    if s == [] then 0 else ParseNat(s[..|s| - 1]) * 10 + DigitValue(s[|s| - 1])
  }

  /** `String(n)` for a natural number: no leading zeros. */
  function NatStr(n: nat): (r: string)
    ensures |r| >= 1 && AllDigits(r)
    ensures |r| > 1 ==> r[0] != '0'
  {
    if n < 10 then [DigitChar(n)] else NatStr(n / 10) + [DigitChar(n % 10)]
  }

  /** `String(i)` for an integer. */
  function IntStr(i: int): (r: string)
    ensures |r| >= 1
    ensures i >= 0 ==> AllDigits(r)
    ensures i < 0 ==> r[0] == '-' && AllDigits(r[1..])
  {
    if i >= 0 then NatStr(i) else "-" + NatStr(-i)
  }

  /** The last digit of `String(n)` and the digits before it. */
  lemma NatStrSplit(n: nat)
    requires n >= 10
    ensures var s := NatStr(n);
      s[..|s| - 1] == NatStr(n / 10) && s[|s| - 1] == DigitChar(n % 10)
  {
  }

  lemma DigitRoundTrip(d: int)
    requires 0 <= d <= 9
    ensures DigitValue(DigitChar(d)) == d
  {
  }

  lemma {:induction false} NatStrRoundTrip(n: nat)
    ensures ParseNat(NatStr(n)) == n
    decreases n
  {
    if n < 10 {
      DigitRoundTrip(n);
    } else {
      NatStrSplit(n);
      DigitRoundTrip(n % 10);
      NatStrRoundTrip(n / 10);
    }
  }

  /** Two different numbers never render alike. */
  lemma NatStrInjective(m: nat, n: nat)
    requires NatStr(m) == NatStr(n)
    ensures m == n
  {
    NatStrRoundTrip(m);
    NatStrRoundTrip(n);
  }

  lemma {:induction false} LeadingZeroIgnored(s: string)
    requires AllDigits(s)
    ensures ParseNat("0" + s) == ParseNat(s)
    decreases |s|
  {
    if s != [] {
      var t := "0" + s;
      assert t[..|t| - 1] == "0" + s[..|s| - 1];
      LeadingZeroIgnored(s[..|s| - 1]);
    }
  }

  /** `s.padStart(2, "0")`. */
  function PadStart2(s: string): (r: string)
    ensures |r| == if |s| >= 2 then |s| else 2
  {
    if |s| >= 2 then s else if |s| == 1 then "0" + s else "00"
  }

  /** Padding puts zeros in front of the string and keeps it whole. */
  lemma PadStart2Shape(s: string)
    ensures var r := PadStart2(s);
      && r[|r| - |s|..] == s
      && forall i :: 0 <= i < |r| - |s| ==> r[i] == '0'
  {
  }

  /** Padding changes neither the digits nor the value of a number. */
  lemma PadStart2Value(n: nat)
    ensures AllDigits(PadStart2(NatStr(n)))
    ensures ParseNat(PadStart2(NatStr(n))) == n
  {
    NatStrRoundTrip(n);
    var s := NatStr(n);
    if |s| < 2 {
      LeadingZeroIgnored(s);
    }
  }

  // ---------------------------------------------------------------------
  // Number(s)

  /** `Number(s)` on the strings whose value is an integer written in decimal
      digits, with an optional sign, inside white space; `None` for every
      other string, the ones JavaScript reads as `NaN` among them. */
  function JsNumber(s: string): (r: Option<int>)
    ensures IsBlank(s) ==> r == Some(0)
  {
    TrimEmptyIffBlank(s);
    NumberOfTrimmed(Trim(s))
  }

  /** `Number` of a string without surrounding white space. */
  function NumberOfTrimmed(t: string): Option<int>
  {
    if t == "" then Some(0)
    else if AllDigits(t) then Some(ParseNat(t))
    else if |t| > 1 && t[0] == '-' && AllDigits(t[1..]) then var v: int := ParseNat(t[1..]); Some(-v)
    else if |t| > 1 && t[0] == '+' && AllDigits(t[1..]) then Some(ParseNat(t[1..]))
    else None
  }

  lemma TrimNoSpace(s: string)
    requires |s| >= 1 && !IsJsSpace(s[0]) && !IsJsSpace(s[|s| - 1])
    ensures Trim(s) == s
  {
  }

  lemma SignedTail(d: string)
    requires |d| >= 1
    ensures ("-" + d)[1..] == d && ("-" + d)[|d|] == d[|d| - 1]
  {
  }

  /** `String(i)` has no white space to trim. */
  lemma IntStrTrimmed(i: int)
    ensures Trim(IntStr(i)) == IntStr(i)
  {
    var s := IntStr(i);
    if i < 0 {
      SignedTail(NatStr(-i));
    }
    assert IsDigit(s[|s| - 1]);
    TrimNoSpace(s);
  }

  /** A minus sign followed by digits is read as the negated value. */
  lemma NumberOfSigned(t: string)
    requires |t| > 1 && t[0] == '-' && AllDigits(t[1..])
    ensures NumberOfTrimmed(t) == Some(-(ParseNat(t[1..]) as int))
  {
    assert !IsDigit(t[0]);
  }

  lemma NumberOfNegativeStr(i: int)
    requires i < 0
    ensures NumberOfTrimmed(IntStr(i)) == Some(i)
  {
    SignedTail(NatStr(-i));
    NumberOfSigned(IntStr(i));
    NatStrRoundTrip(-i);
  }

  lemma NumberOfNatStr(n: nat)
    ensures NumberOfTrimmed(IntStr(n)) == Some(n)
  {
    NatStrRoundTrip(n);
  }

  lemma NumberOfDef(s: string)
    ensures JsNumber(s) == NumberOfTrimmed(Trim(s))
  {
  }

  /** `Number(String(i)) === i`. */
  lemma NumberOfIntStr(i: int)
    ensures JsNumber(IntStr(i)) == Some(i)
  {
    IntStrTrimmed(i);
    NumberOfDef(IntStr(i));
    if i >= 0 {
      NumberOfNatStr(i);
    } else {
      NumberOfNegativeStr(i);
    }
  }

  // ---------------------------------------------------------------------
  // mm:ss

  /** `${String(Math.floor(x / 60)).padStart(2, "0")}:${String(x % 60).padStart(2, "0")}`. */
  function MmSs(x: int): string
  {
    PadStart2(IntStr(x / 60)) + ":" + PadStart2(IntStr(JsRem(x, 60)))
  }

  /** The position of the first `c` in `s`. */
  function IndexOf(s: string, c: char): (r: Option<nat>)
    ensures r.Some? ==> r.value < |s| && s[r.value] == c && c !in s[..r.value]
    ensures r.None? ==> c !in s
  {
    if s == [] then None
    else if s[0] == c then Some(0)
    else match IndexOf(s[1..], c)
      case None => None
      case Some(k) => assert s[..k + 1] == [s[0]] + s[1..][..k]; Some(k + 1)
  }

  /** Reads an `mm:ss` string back as a number of seconds. */
  function ParseMmSs(s: string): Option<int>
  {
    match IndexOf(s, ':')
    case None => None
    case Some(i) =>
      if 0 < i && i + 1 < |s| && AllDigits(s[..i]) && AllDigits(s[i + 1..])
      then Some(ParseNat(s[..i]) * 60 + ParseNat(s[i + 1..]))
      else None
  }

  lemma DigitsHaveNoColon(a: string)
    requires AllDigits(a)
    ensures ':' !in a
  {
    forall k | 0 <= k < |a|
      ensures a[k] != ':'
    {
      assert IsDigit(a[k]);
    }
  }

  /** `IndexOf` finds a character at the first place it occurs. */
  lemma {:induction false} IndexOfAt(s: string, c: char, i: nat)
    requires i < |s| && s[i] == c && c !in s[..i]
    ensures IndexOf(s, c) == Some(i)
    decreases i
  {
    if i > 0 {
      assert s[0] in s[..i];
      assert forall x :: x in s[1..][..i - 1] ==> x in s[..i];
      IndexOfAt(s[1..], c, i - 1);
    }
  }

  /** Two digit strings joined by a colon read back as minutes and seconds. */
  lemma ParseJoined(a: string, b: string)
    requires |a| > 0 && |b| > 0 && AllDigits(a) && AllDigits(b)
    ensures ParseMmSs(a + ":" + b) == Some(ParseNat(a) * 60 + ParseNat(b))
  {
    var s := a + ":" + b;
    DigitsHaveNoColon(a);
    assert s[..|a|] == a;
    assert s[|a| + 1..] == b;
    IndexOfAt(s, ':', |a|);
    assert AllDigits(s[..|a|]) && AllDigits(s[|a| + 1..]);
  }

  /** The seconds of a non-negative count render in two characters. */
  lemma SecondsWidth(x: nat)
    ensures |PadStart2(IntStr(JsRem(x, 60)))| == 2
  {
    var n := x % 60;
    if n >= 10 {
      assert NatStr(n) == NatStr(n / 10) + [DigitChar(n % 10)];
    }
  }

  /** For a non-negative count of seconds the minutes take at least two
      digits and the seconds exactly two, and their values are the quotient and
      the remainder by 60. */
  lemma MmSsShape(x: nat)
    ensures var m := PadStart2(IntStr(x / 60));
      && |m| >= 2 && AllDigits(m) && ParseNat(m) == x / 60
    ensures var sec := PadStart2(IntStr(JsRem(x, 60)));
      && |sec| == 2 && AllDigits(sec) && ParseNat(sec) == x % 60
  {
    PadStart2Value(x / 60);
    PadStart2Value(x % 60);
    SecondsWidth(x);
  }

  /** Reading the rendering of a non-negative count back gives the count. */
  lemma MmSsRoundTrip(x: nat)
    ensures ParseMmSs(MmSs(x)) == Some(x)
  {
    MmSsShape(x);
    ParseJoined(PadStart2(IntStr(x / 60)), PadStart2(IntStr(JsRem(x, 60))));
    assert (x / 60) * 60 + x % 60 == x;
  }
}
