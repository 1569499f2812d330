/** The JavaScript string operations the dashboard relies on, over `seq<char>`:
    `indexOf`, `includes`, `replace` with a string pattern, `trim`,
    `toLowerCase`/`toUpperCase` (ASCII letters only; every other character,
    Hebrew letters included, is its own case), `parseFloat` on plain decimal
    numerals, and decimal rendering of integers. */
module Text {
  import opened Wrappers

  // ---------------------------------------------------------------------------
  // Characters

  /** What `\d` matches in a regular expression without the `u` flag. */
  predicate IsDigit(c: char) { '0' <= c <= '9' }

  predicate AllDigits(s: string) { forall i :: 0 <= i < |s| ==> IsDigit(s[i]) }

  /** The white space `String.prototype.trim` strips: the ECMAScript
      WhiteSpace characters (tab, vertical tab, form feed, space, no-break
      space, the byte-order mark and the other Unicode space separators) and
      the LineTerminator characters. Tab, line feed, vertical tab, form feed
      and carriage return are the run from U+0009 to U+000D. */
  predicate IsSpace(c: char) {
    || '\t' <= c <= '\r' || c == ' ' || c == '\U{A0}' || c == '\U{1680}' || '\U{2000}' <= c <= '\U{200A}'
    || '\U{2028}' <= c <= '\U{2029}' || c == '\U{202F}' || c == '\U{205F}' || c == '\U{3000}' || c == '\U{FEFF}'
  }

  predicate NoSpace(s: string) { forall i :: 0 <= i < |s| ==> !IsSpace(s[i]) }

  predicate IsUpper(c: char) { 'A' <= c <= 'Z' }

  predicate NoUpper(s: string) { forall i :: 0 <= i < |s| ==> !IsUpper(s[i]) }

  function LowerChar(c: char): char { if IsUpper(c) then (c as int + 32) as char else c }

  function UpperChar(c: char): char { if 'a' <= c <= 'z' then (c as int - 32) as char else c }

  // ---------------------------------------------------------------------------
  // Searching

  /** `pat` occurs in `s` starting at position `i`. */
  predicate OccursAt(s: string, pat: string, i: int) {
    0 <= i && i + |pat| <= |s| && s[i..i + |pat|] == pat
  }

  function IndexOfFrom(s: string, pat: string, from: nat): (r: int)
    decreases |s| - from
    ensures r == -1 || (from <= r && OccursAt(s, pat, r))
    ensures forall j :: from <= j && (r == -1 || j < r) ==> !OccursAt(s, pat, j)
  {
    if from + |pat| > |s| then -1
    else if s[from..from + |pat|] == pat then from
    else IndexOfFrom(s, pat, from + 1)
  }

  /** `s.indexOf(pat)`: the first position at which `pat` occurs, or -1. */
  function IndexOf(s: string, pat: string): (r: int)
    ensures r == -1 || OccursAt(s, pat, r)
    ensures forall j :: 0 <= j && (r == -1 || j < r) ==> !OccursAt(s, pat, j)
  {
    IndexOfFrom(s, pat, 0)
  }

  /** `s.includes(pat)`. */
  predicate Contains(s: string, pat: string) { IndexOf(s, pat) >= 0 }

  lemma OccursContains(s: string, pat: string, i: int)
    requires OccursAt(s, pat, i)
    ensures Contains(s, pat) && 0 <= IndexOf(s, pat) <= i
  {
  }

  /** Whatever surrounds it, a string contains each of its parts. */
  lemma ContainsMiddle(a: string, b: string, c: string)
    ensures Contains(a + b + c, b)
  {
    assert (a + b + c)[|a|..|a| + |b|] == b;
    OccursContains(a + b + c, b, |a|);
  }

  lemma ContainsEnd(a: string, b: string)
    ensures Contains(a + b, b)
  {
    assert (a + b)[|a|..|a| + |b|] == b;
    OccursContains(a + b, b, |a|);
  }

  lemma ContainsSelf(s: string)
    ensures Contains(s, s)
  {
    assert s[0..|s|] == s;
    OccursContains(s, s, 0);
  }

  /** An occurrence inside a prefix is an occurrence in the whole string. */
  lemma ContainsPrefix(a: string, b: string, pat: string)
    requires Contains(a, pat)
    ensures Contains(a + b, pat)
  {
    var i := IndexOf(a, pat);
    assert (a + b)[i..i + |pat|] == a[i..i + |pat|];
    OccursContains(a + b, pat, i);
  }

  /** A string that contains `a + b` contains `a`. */
  lemma ContainsPatternPrefix(s: string, a: string, b: string)
    requires Contains(s, a + b)
    ensures Contains(s, a)
  {
    var i := IndexOf(s, a + b);
    assert s[i..i + |a|] == (a + b)[..|a|] == a;
    OccursContains(s, a, i);
  }

  /** `s.replace(pat, '')`: the first occurrence of `pat` is cut out; putting
      it back at the same place restores `s`. */
  function RemoveFirst(s: string, pat: string): (r: string)
    ensures IndexOf(s, pat) == -1 ==> r == s
    ensures IndexOf(s, pat) >= 0 ==>
      |r| == |s| - |pat| && s == r[..IndexOf(s, pat)] + pat + r[IndexOf(s, pat)..]
  {
    var k := IndexOf(s, pat);
    if k < 0 then s
    else
      var r := s[..k] + s[k + |pat|..];
      assert r[..k] == s[..k] && r[k..] == s[k + |pat|..];
      assert s == s[..k] + s[k..k + |pat|] + s[k + |pat|..];
      r
  }

  /** Index of the last `c` in `s`, or -1. */
  function LastIndexOfChar(s: string, c: char): (r: int)
    ensures -1 <= r < |s|
    ensures r >= 0 ==> s[r] == c
    ensures forall j :: r < j < |s| ==> s[j] != c
  {
    if s == [] then -1
    else if s[|s| - 1] == c then |s| - 1
    else LastIndexOfChar(s[..|s| - 1], c)
  }

  // ---------------------------------------------------------------------------
  // Trimming

  function TrimStart(s: string): (r: string)
    ensures |r| <= |s| && r == s[|s| - |r|..]
    ensures r == [] || !IsSpace(r[0])
    ensures forall i :: 0 <= i < |s| - |r| ==> IsSpace(s[i])
  {
    if s != [] && IsSpace(s[0]) then TrimStart(s[1..]) else s
  }

  function TrimEnd(s: string): (r: string)
    ensures |r| <= |s| && r == s[..|r|]
    ensures r == [] || !IsSpace(r[|r| - 1])
    ensures forall i :: |r| <= i < |s| ==> IsSpace(s[i])
  {
    if s != [] && IsSpace(s[|s| - 1]) then TrimEnd(s[..|s| - 1]) else s
  }

  /** Number of white-space characters `trim` strips at the front. */
  function LeadingSpace(s: string): nat
  {
    |s| - |TrimStart(s)|
  }

  /** `s.trim()`: the slice of `s` left once the white space at both ends is
      gone; what is left starts and ends with something else. */
  function Trim(s: string): (r: string)
    ensures LeadingSpace(s) + |r| <= |s|
    ensures r == s[LeadingSpace(s)..LeadingSpace(s) + |r|]
    ensures r == [] || (!IsSpace(r[0]) && !IsSpace(r[|r| - 1]))
  {
    var t := TrimStart(s);
    var r := TrimEnd(t);
    TrimOfTrimmed(s, t, r);
    r
  }

  /** What `trim` cuts off, at either end, is all white space. */
  lemma TrimCutsOnlySpace(s: string)
    ensures forall i :: 0 <= i < LeadingSpace(s) ==> IsSpace(s[i])
    ensures forall i :: LeadingSpace(s) + |Trim(s)| <= i < |s| ==> IsSpace(s[i])
  {
    var t := TrimStart(s);
    TrimOfTrimmed(s, t, TrimEnd(t));
  }

  /** The end trimmed off the already front-trimmed suffix `t` of `s` is the
      end of `s`. */
  lemma TrimOfTrimmed(s: string, t: string, r: string)
    requires |t| <= |s| && t == s[|s| - |t|..]
    requires |r| <= |t| && r == t[..|r|]
    requires forall i :: |r| <= i < |t| ==> IsSpace(t[i])
    ensures r == s[|s| - |t|..|s| - |t| + |r|]
    ensures forall i :: |s| - |t| + |r| <= i < |s| ==> IsSpace(s[i])
  {
    var k := |s| - |t|;
    SliceOfSlice(s, k, |s|, 0, |r|);
    forall i | k + |r| <= i < |s|
      ensures IsSpace(s[i])
    {
      assert s[i] == t[i - k];
    }
  }

  /** `!s.trim()`: a string trims to nothing exactly when it is all white space. */
  lemma TrimEmptyIff(s: string)
    ensures Trim(s) == [] <==> forall i :: 0 <= i < |s| ==> IsSpace(s[i])
  {
    TrimCutsOnlySpace(s);
    if forall i :: 0 <= i < |s| ==> IsSpace(s[i]) {
      var t := TrimStart(s);
      assert t == [];
    }
  }

  /** An occurrence of a keyword without white space lies inside the trimmed slice. */
  lemma OccurrenceInsideTrim(s: string, pat: string, i: int)
    requires pat != [] && NoSpace(pat) && OccursAt(s, pat, i)
    ensures LeadingSpace(s) <= i && i + |pat| <= LeadingSpace(s) + |Trim(s)|
  {
    TrimCutsOnlySpace(s);
    assert s[i] == pat[0];
    assert s[i + |pat| - 1] == pat[|pat| - 1];
  }

  /** A keyword without white space in it survives trimming. */
  lemma ContainsTrim(s: string, pat: string)
    requires pat != [] && NoSpace(pat) && Contains(s, pat)
    ensures Contains(Trim(s), pat)
  {
    var i := IndexOf(s, pat);
    OccursInTrim(s, pat, i);
    OccursContains(Trim(s), pat, i - LeadingSpace(s));
  }

  /** The same occurrence, counted from the start of the trimmed slice. */
  lemma OccursInTrim(s: string, pat: string, i: int)
    requires pat != [] && NoSpace(pat) && OccursAt(s, pat, i)
    ensures OccursAt(Trim(s), pat, i - LeadingSpace(s))
  {
    OccurrenceInsideTrim(s, pat, i);
    OccursInsideTrimmed(s, pat, i);
  }

  lemma OccursInsideTrimmed(s: string, pat: string, i: int)
    requires OccursAt(s, pat, i)
    requires LeadingSpace(s) <= i && i + |pat| <= LeadingSpace(s) + |Trim(s)|
    ensures OccursAt(Trim(s), pat, i - LeadingSpace(s))
  {
    TrimIsSlice(s);
    OccursInSlice(s, Trim(s), LeadingSpace(s), pat, i);
  }

  /** The trimmed text is the slice of `s` after its leading white space. */
  lemma TrimIsSlice(s: string)
    ensures LeadingSpace(s) + |Trim(s)| <= |s| && Trim(s) == s[LeadingSpace(s)..LeadingSpace(s) + |Trim(s)|]
  {
  }

  lemma SliceOfSlice(s: string, a: nat, b: nat, i: nat, j: nat)
    requires a <= b <= |s| && i <= j <= b - a
    ensures s[a..b][i..j] == s[a + i..a + j]
  {
    var x, y := s[a..b][i..j], s[a + i..a + j];
    assert |x| == |y|;
    forall n | 0 <= n < |x|
      ensures x[n] == y[n]
    {
      assert x[n] == s[a..b][i + n] == s[a + i + n];
    }
  }

  /** An occurrence that lies inside the slice `r` of `s` that starts at `a`
      is an occurrence in `r`. */
  lemma OccursInSlice(s: string, r: string, a: nat, pat: string, i: int)
    requires a + |r| <= |s| && r == s[a..a + |r|]
    requires OccursAt(s, pat, i) && a <= i && i + |pat| <= a + |r|
    ensures OccursAt(r, pat, i - a)
  {
    SliceOfSlice(s, a, a + |r|, i - a, i - a + |pat|);
  }

  // ---------------------------------------------------------------------------
  // Case

  /** `s.toLowerCase()`. */
  function ToLower(s: string): (r: string)
    ensures |r| == |s| && forall i :: 0 <= i < |s| ==> r[i] == LowerChar(s[i])
    ensures NoUpper(r)
  {
    if s == [] then [] else [LowerChar(s[0])] + ToLower(s[1..])
  }

  /** `s.toUpperCase()`. */
  function ToUpper(s: string): (r: string)
    ensures |r| == |s| && forall i :: 0 <= i < |s| ==> r[i] == UpperChar(s[i])
  {
    if s == [] then [] else [UpperChar(s[0])] + ToUpper(s[1..])
  }

  /** Text with no ASCII capital in it, Hebrew text in particular, is its
      own lower case. */
  lemma ToLowerNoUpper(s: string)
    requires NoUpper(s)
    ensures ToLower(s) == s
  {
  }

  /** Case-insensitive search finds whatever case-sensitive search finds. */
  lemma ContainsLower(s: string, pat: string)
    requires Contains(s, pat)
    ensures Contains(ToLower(s), ToLower(pat))
  {
    var i := IndexOf(s, pat);
    var ls, lp := ToLower(s), ToLower(pat);
    var window := ls[i..i + |pat|];
    forall j | 0 <= j < |pat|
      ensures window[j] == lp[j]
    {
      assert s[i..i + |pat|][j] == s[i + j];
    }
    assert window == lp;
    OccursContains(ls, lp, i);
  }

  // ---------------------------------------------------------------------------
  // Numbers

  function DigitValue(c: char): nat
    requires IsDigit(c)
  {
    c as int - '0' as int
  }

  function DigitChar(d: nat): (c: char)
    requires d < 10
    ensures IsDigit(c) && DigitValue(c) == d
  {
    ('0' as int + d) as char
  }

  /** The value of a string of decimal digits; the empty string is 0. */
  function DigitsValue(ds: string): nat
    requires AllDigits(ds)
  {
    if ds == [] then 0 else 10 * DigitsValue(ds[..|ds| - 1]) + DigitValue(ds[|ds| - 1])
  }

  /** Digits written after others shift those by a power of ten. */
  lemma {:induction false} DigitsValueAppend(a: string, b: string)
    requires AllDigits(a) && AllDigits(b)
    ensures DigitsValue(a + b) == DigitsValue(a) * Pow10(|b|) + DigitsValue(b)
  {
    if b == [] {
      assert a + b == a;
    } else {
      var init := b[..|b| - 1];
      assert (a + b)[..|a + b| - 1] == a + init;
      DigitsValueAppend(a, init);
      ShiftTen(DigitsValue(a), Pow10(|init|), DigitsValue(init));
    }
  }

  lemma ShiftTen(x: int, p: int, y: int)
    ensures 10 * (x * p + y) == x * (10 * p) + 10 * y
  {
  }

  /** Decimal rendering of a natural number, without leading zeros. */
  function NatToString(n: nat): (r: string)
    ensures |r| > 0 && AllDigits(r)
    ensures n >= 10 <==> |r| >= 2
  {
    if n < 10 then [DigitChar(n)] else NatToString(n / 10) + [DigitChar(n % 10)]
  }

  /** Reading a rendered number back gives the number. */
  lemma {:induction false} NatToStringRoundTrip(n: nat)
    ensures DigitsValue(NatToString(n)) == n
  {
    if n >= 10 {
      var r := NatToString(n);
      NatToStringRoundTrip(n / 10);
      assert r[..|r| - 1] == NatToString(n / 10);
    }
  }

  /** Different numbers render differently. */
  lemma NatToStringInjective(m: nat, n: nat)
    requires NatToString(m) == NatToString(n)
    ensures m == n
  {
    NatToStringRoundTrip(m);
    NatToStringRoundTrip(n);
  }

  /** Decimal rendering of an integer, with a leading `-` when negative. */
  function IntToString(i: int): string
  {
    if i < 0 then "-" + NatToString(-i) else NatToString(i)
  }

  /** Length of the run of digits at the front of `s`. */
  function DigitRun(s: string): (n: nat)
    ensures n <= |s|
    ensures n == |s| || !IsDigit(s[n])
  {
    if s != [] && IsDigit(s[0]) then 1 + DigitRun(s[1..]) else 0
  }

  /** The run is made of digits. */
  lemma {:induction false} DigitRunDigits(s: string)
    ensures AllDigits(s[..DigitRun(s)])
  {
    if s != [] && IsDigit(s[0]) {
      var m := DigitRun(s[1..]);
      DigitRunDigits(s[1..]);
      assert s[..1 + m] == [s[0]] + s[1..][..m];
    }
  }

  function Pow10(k: nat): (p: nat)
    ensures p >= 1
  {
    if k == 0 then 1 else 10 * Pow10(k - 1)
  }

  /** The value of the numeral `ip.fp`. */
  function DecimalValue(ip: string, fp: string): (v: real)
    requires AllDigits(ip) && AllDigits(fp)
    ensures DigitsValue(ip) as real <= v
  {
    DigitsValue(ip) as real + DigitsValue(fp) as real / Pow10(|fp|) as real
  }

  /** The unsigned part of `parseFloat`: digits, then an optional `.` and
      digits; at least one digit is needed. */
  function ParseUnsigned(u: string): (r: Option<real>)
    ensures r.Some? ==> r.value >= 0.0
    ensures u == [] || !(IsDigit(u[0]) || u[0] == '.') ==> r == None
  {
    var ip := DigitRun(u);
    DigitRunDigits(u);
    if ip < |u| && u[ip] == '.' then
      var fp := DigitRun(u[ip + 1..]);
      DigitRunDigits(u[ip + 1..]);
      if ip == 0 && fp == 0 then None
      else Some(DecimalValue(u[..ip], u[ip + 1..][..fp]))
    else if ip == 0 then None
    else Some(DecimalValue(u[..ip], ""))
  }

  /** Without white space or a sign in front, `parseFloat` reads the
      unsigned numeral. */
  lemma ParseFloatUnsigned(s: string)
    requires s != [] && IsDigit(s[0])
    ensures ParseFloat(s) == ParseUnsigned(s)
  {
    assert TrimStart(s) == s;
  }

  /** Digits, a point and digits read as a decimal. */
  lemma ParseUnsignedFraction(u: string, ip: nat, fp: nat)
    requires ip == DigitRun(u) && 0 < ip < |u| && u[ip] == '.'
    requires fp == DigitRun(u[ip + 1..])
    ensures AllDigits(u[..ip]) && AllDigits(u[ip + 1..][..fp])
    ensures ParseUnsigned(u) == Some(DecimalValue(u[..ip], u[ip + 1..][..fp]))
  {
    DigitRunDigits(u);
    DigitRunDigits(u[ip + 1..]);
  }

  /** `parseFloat(s)` on plain decimal numerals: leading white space, an
      optional sign, then what `ParseUnsigned` reads; `None` stands for NaN.
      A negative result needs a leading minus sign. */
  function ParseFloat(s: string): (r: Option<real>)
    ensures r.Some? && r.value < 0.0 ==> |TrimStart(s)| > 0 && TrimStart(s)[0] == '-'
    ensures TrimStart(s) == [] ==> r == None
  {
    var t := TrimStart(s);
    if t != [] && t[0] == '-' then
      match ParseUnsigned(t[1..])
      case Some(m) => Some(-m)
      case None => None
    else if t != [] && t[0] == '+' then ParseUnsigned(t[1..])
    else ParseUnsigned(t)
  }

  /** A string of digits parses to the number it spells. */
  lemma ParseDigits(s: string)
    requires s != [] && AllDigits(s)
    ensures ParseFloat(s) == Some(DigitsValue(s) as real)
  {
    assert IsDigit(s[0]);
    assert TrimStart(s) == s;
    assert ParseFloat(s) == ParseUnsigned(s);
    ParseUnsignedDigits(s);
  }

  lemma ParseUnsignedDigits(s: string)
    requires s != [] && AllDigits(s)
    ensures ParseUnsigned(s) == Some(DigitsValue(s) as real)
  {
    DigitRunAll(s);
    assert s[..|s|] == s;
    assert DigitsValue("") == 0;
  }

  /** A rendered natural number parses back to itself. */
  lemma ParseFloatNat(n: nat)
    ensures ParseFloat(NatToString(n)) == Some(n as real)
  {
    ParseDigits(NatToString(n));
    NatToStringRoundTrip(n);
  }

  /** A text that starts with a digit parses to a non-negative number. */
  lemma ParseFloatDigitStart(s: string)
    requires s != [] && IsDigit(s[0])
    ensures ParseFloat(s).Some? && ParseFloat(s).value >= 0.0
  {
    assert TrimStart(s) == s;
    assert DigitRun(s) >= 1;
  }

  lemma {:induction false} DigitRunAll(s: string)
    requires AllDigits(s)
    ensures DigitRun(s) == |s|
  {
    if s != [] {
      DigitRunAll(s[1..]);
    }
  }
}
