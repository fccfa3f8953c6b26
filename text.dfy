/** String operations shared by the parsers and formatters of the model:
    trimming, ASCII case folding, searching, splitting and joining, and
    decimal conversion of integers in the forms used by C# (`int.ToString`,
    `"D2"`, `int.TryParse`) and C++ (`operator<<`, `std::stoi`). */
module Text {
  import opened Wrappers

  const INT32_MIN: int := -0x8000_0000
  const INT32_MAX: int := 0x7FFF_FFFF

  predicate IsInt32(n: int) {
    INT32_MIN <= n <= INT32_MAX
  }

  /** A C# `int` / C++ `int`. */
  type Int32 = x: int | IsInt32(x)

  /** Unchecked 32-bit arithmetic: `x` modulo 2^32, read as signed. */
  function Wrap32(x: int): (r: Int32)
    ensures IsInt32(x) ==> r == x
    ensures (x - r) % 0x1_0000_0000 == 0
  {
    var m := x % 0x1_0000_0000;
    if m > INT32_MAX then m - 0x1_0000_0000 else m
  }

  /** White space as `char.IsWhiteSpace` and `isspace` agree on it in ASCII. */
  predicate IsSpace(c: char) {
    c == ' ' || c == '\t' || c == '\n' || c == '\r' || c == '\U{B}' || c == '\U{C}'
  }

  /** `string.IsNullOrWhiteSpace` on a non-null string. */
  predicate IsBlank(s: string) {
    s == [] || (IsSpace(s[0]) && IsBlank(s[1..]))
  }

  predicate IsDigit(c: char) {
    '0' <= c <= '9'
  }

  predicate AllDigits(s: string) {
    forall i :: 0 <= i < |s| ==> IsDigit(s[i])
  }

  // ---------------------------------------------------------------- trimming

  function TrimStart(s: string): (r: string)
    ensures |r| <= |s| && r == s[|s| - |r|..]
    ensures r == [] || !IsSpace(r[0])
    ensures forall i :: 0 <= i < |s| - |r| ==> IsSpace(s[i])
  {
    if s != [] && IsSpace(s[0]) then TrimStart(s[1..]) else s
  }

  function TrimEnd(s: string): (r: string)
    ensures |r| <= |s| && r == s[..|r|]
    ensures r == [] || !IsSpace(r[|r| - 1])
    ensures forall i :: |r| <= i < |s| ==> IsSpace(s[i])
  {
    if s != [] && IsSpace(s[|s| - 1]) then TrimEnd(s[..|s| - 1]) else s
  }

  /** `string.Trim()`: no white space is left at either end, and only white
      space was removed. */
  function Trim(s: string): (r: string)
    ensures r == [] || (!IsSpace(r[0]) && !IsSpace(r[|r| - 1]))
    ensures exists k :: OccursAt(s, r, k)
  {
    var t := TrimStart(s);
    var r := TrimEnd(t);
    assert r == s[|s| - |t|..|s| - |t| + |r|];
    assert OccursAt(s, r, |s| - |t|);
    r
  }

  lemma TrimOfUnpadded(s: string)
    requires s != [] && !IsSpace(s[0]) && !IsSpace(s[|s| - 1])
    ensures Trim(s) == s
  {
  }

  // ---------------------------------------------------------- case folding

  function LowerChar(c: char): char {
    if 'A' <= c <= 'Z' then (c as int + 32) as char else c
  }

  function UpperChar(c: char): char {
    if 'a' <= c <= 'z' then (c as int - 32) as char else c
  }

  /** `ToLower()` / `ToLowerInvariant()`, restricted to the ASCII letters. */
  function ToLower(s: string): (r: string)
    ensures |r| == |s|
  {
    seq(|s|, i requires 0 <= i < |s| => LowerChar(s[i]))
  }

  /** `ToUpper()`, restricted to the ASCII letters. */
  function ToUpper(s: string): (r: string)
    ensures |r| == |s|
  {
    seq(|s|, i requires 0 <= i < |s| => UpperChar(s[i]))
  }

  // ------------------------------------------------------------- searching

  /** The index of the first occurrence of `c` in `s`, as `find` / `IndexOf`. */
  function IndexOf(s: string, c: char): (r: Option<nat>)
    ensures r.None? <==> c !in s
    ensures r.Some? ==> r.value < |s| && s[r.value] == c && c !in s[..r.value]
  {
    if s == [] then None
    else if s[0] == c then Some(0)
    else
      match IndexOf(s[1..], c)
      case None => None
      case Some(k) =>
        assert s[1..][..k] == s[1..k + 1];
        Some(k + 1)
  }

  /** `s` contains `sub` as a contiguous substring (C# `Contains`, C++ `find != npos`). */
  predicate Contains(s: string, sub: string) {
    sub <= s || (s != [] && Contains(s[1..], sub))
  }

  /** `sub` occurs in `s` starting at index `k`. */
  predicate OccursAt(s: string, sub: string, k: int) {
    0 <= k <= |s| - |sub| && s[k..k + |sub|] == sub
  }

  lemma {:induction false} ContainsAt(s: string, sub: string)
    ensures Contains(s, sub) <==> exists k :: OccursAt(s, sub, k)
  {
    if sub <= s {
      assert OccursAt(s, sub, 0);
    } else if s != [] {
      ContainsAt(s[1..], sub);
      forall k | OccursAt(s[1..], sub, k)
        ensures OccursAt(s, sub, k + 1)
      {
        assert s[k + 1..k + 1 + |sub|] == s[1..][k..k + |sub|];
      }
      assert !OccursAt(s, sub, 0);
      forall k | OccursAt(s, sub, k)
        ensures k >= 1 && OccursAt(s[1..], sub, k - 1)
      {
        assert s[k..k + |sub|] == s[1..][k - 1..k - 1 + |sub|];
      }
    } else {
      assert forall k :: !OccursAt(s, sub, k);
    }
  }

  /** Containment is transitive: a string holding `mid` holds everything `mid` holds. */
  lemma ContainsTransitive(s: string, mid: string, sub: string)
    requires Contains(s, mid) && Contains(mid, sub)
    ensures Contains(s, sub)
  {
    ContainsAt(s, mid);
    ContainsAt(mid, sub);
    var i :| OccursAt(s, mid, i);
    var j :| OccursAt(mid, sub, j);
    forall t | 0 <= t < |sub|
      ensures s[i + j + t] == sub[t]
    {
      assert sub[t] == mid[j + t];
      assert mid[j + t] == s[i + j + t];
    }
    assert s[i + j..i + j + |sub|] == sub;
    assert OccursAt(s, sub, i + j);
    ContainsAt(s, sub);
  }

  // ----------------------------------------------------- splitting, joining

  /** `Split(c)` in C#: every occurrence of `c` separates two parts. */
  function Split(s: string, c: char): (r: seq<string>)
    ensures |r| >= 1
    ensures forall k :: 0 <= k < |r| ==> c !in r[k]
    decreases |s|
  {
    match IndexOf(s, c)
    case None => [s]
    case Some(i) => [s[..i]] + Split(s[i + 1..], c)
  }

  /** The parts separated by `c`: the inverse of `Split`. */
  function Join(parts: seq<string>, c: char): string
    requires |parts| >= 1
  {
    if |parts| == 1 then parts[0] else parts[0] + [c] + Join(parts[1..], c)
  }

  /** `string.Join(sep, parts)` with a string separator; the empty list joins to "". */
  function JoinWith(parts: seq<string>, sep: string): string {
    if parts == [] then "" else if |parts| == 1 then parts[0] else parts[0] + sep + JoinWith(parts[1..], sep)
  }

  /** Joining with a one-character separator string is `Join`. */
  lemma {:induction false} JoinWithChar(parts: seq<string>, c: char)
    requires |parts| >= 1
    ensures JoinWith(parts, [c]) == Join(parts, c)
  {
    if |parts| > 1 {
      JoinWithChar(parts[1..], c);
    }
  }

  lemma {:induction false} JoinSplit(s: string, c: char)
    ensures Join(Split(s, c), c) == s
    decreases |s|
  {
    match IndexOf(s, c)
    case None =>
    case Some(i) =>
      var parts := Split(s, c);
      assert parts == [s[..i]] + Split(s[i + 1..], c);
      assert parts[1..] == Split(s[i + 1..], c);
      JoinSplit(s[i + 1..], c);
      assert Join(parts, c) == s[..i] + [c] + Join(parts[1..], c);
      assert s == s[..i] + [c] + s[i + 1..];
  }

  lemma {:induction false} SplitJoin(parts: seq<string>, c: char)
    requires |parts| >= 1
    requires forall k :: 0 <= k < |parts| ==> c !in parts[k]
    ensures Split(Join(parts, c), c) == parts
  {
    if |parts| > 1 {
      var t := parts[1..];
      assert forall k :: 0 <= k < |t| ==> c !in t[k] by {
        forall k | 0 <= k < |t|
          ensures c !in t[k]
        {
          assert t[k] == parts[k + 1];
        }
      }
      SplitJoin(t, c);
      SplitStep(parts[0], c, Join(t, c));
      assert Join(parts, c) == parts[0] + [c] + Join(t, c);
      assert parts == [parts[0]] + t;
    } else {
      assert Join(parts, c) == parts[0];
    }
  }

  /** Splitting at the first delimiter after a delimiter-free part. */
  lemma SplitStep(a: string, c: char, b: string)
    requires c !in a
    ensures Split(a + [c] + b, c) == [a] + Split(b, c)
  {
    var s := a + [c] + b;
    IndexOfAfterFree(a, c, [c] + b);
    assert s == a + ([c] + b);
    assert s[..|a|] == a;
    assert s[|a| + 1..] == b;
  }

  lemma IndexOfAfterFree(a: string, c: char, b: string)
    requires c !in a && b != [] && b[0] == c
    ensures IndexOf(a + b, c) == Some(|a|)
  {
    var s := a + b;
    assert s[|a|] == c;
    assert s[..|a|] == a;
  }

  /** The tokens `std::getline(stream, token, d)` reads from `s`: the parts
      separated by `d`, where an empty last part (after a final delimiter, or
      of the empty string) is not read. */
  function GetlineTokens(s: string, d: char): (r: seq<string>)
    ensures forall k :: 0 <= k < |r| ==> d !in r[k]
  {
    var parts := Split(s, d);
    if parts[|parts| - 1] == "" then parts[..|parts| - 1] else parts
  }

  /** The text written by emitting each line followed by `d`. */
  function Unlines(lines: seq<string>, d: char): string {
    if lines == [] then "" else lines[0] + [d] + Unlines(lines[1..], d)
  }

  lemma {:induction false} SplitUnlines(lines: seq<string>, d: char)
    requires forall k :: 0 <= k < |lines| ==> d !in lines[k]
    ensures Split(Unlines(lines, d), d) == lines + [""]
  {
    if lines != [] {
      var t := lines[1..];
      assert forall k :: 0 <= k < |t| ==> d !in t[k] by {
        forall k | 0 <= k < |t|
          ensures d !in t[k]
        {
          assert t[k] == lines[k + 1];
        }
      }
      SplitUnlines(t, d);
      SplitStep(lines[0], d, Unlines(t, d));
      assert Unlines(lines, d) == lines[0] + [d] + Unlines(t, d);
      assert lines + [""] == [lines[0]] + (t + [""]);
    } else {
      assert IndexOf("", d) == None;
    }
  }

  /** Reading back line by line what was written line by line yields the
      lines, as long as none contains the delimiter. */
  lemma GetlineUnlines(lines: seq<string>, d: char)
    requires forall k :: 0 <= k < |lines| ==> d !in lines[k]
    ensures GetlineTokens(Unlines(lines, d), d) == lines
  {
    SplitUnlines(lines, d);
    var parts := lines + [""];
    assert parts[..|parts| - 1] == lines;
  }

  /** When the text holds no delimiter at the end, getline reads all its parts. */
  lemma GetlineNoTrailing(parts: seq<string>, d: char)
    requires |parts| >= 1 && parts[|parts| - 1] != ""
    requires forall k :: 0 <= k < |parts| ==> d !in parts[k]
    ensures GetlineTokens(Join(parts, d), d) == parts
  {
    SplitJoin(parts, d);
  }

  /** `s.Split(c, 2)` in C# and `find`/`substr` in C++: the text before the
      first `c` and the text after it, or None when `c` does not occur. */
  function SplitFirst(s: string, c: char): (r: Option<(string, string)>)
    ensures r.None? <==> c !in s
    ensures r.Some? ==> c !in r.value.0 && s == r.value.0 + [c] + r.value.1
  {
    match IndexOf(s, c)
    case None => None
    case Some(i) =>
      assert s == s[..i] + [c] + s[i + 1..];
      Some((s[..i], s[i + 1..]))
  }

  lemma SplitFirstOf(a: string, c: char, b: string)
    requires c !in a
    ensures SplitFirst(a + [c] + b, c) == Some((a, b))
  {
    var s := a + [c] + b;
    IndexOfAfterFree(a, c, [c] + b);
    assert s == a + ([c] + b);
    assert s[..|a|] == a;
    assert s[|a| + 1..] == b;
  }

  // --------------------------------------------------------------- decimal

  function DigitChar(d: nat): (c: char)
    requires d < 10
    ensures IsDigit(c)
  {
    ('0' as int + d) as char
  }

  function DigitValue(c: char): nat
    requires IsDigit(c)
  {
    c as int - '0' as int
  }

  /** The value of a string of decimal digits. */
  function DigitsValue(s: string): nat
    requires AllDigits(s)
  {
    if s == [] then 0 else DigitsValue(s[..|s| - 1]) * 10 + DigitValue(s[|s| - 1])
  }

  /** The shortest decimal notation of `n` (no leading zeros). */
  function NatToString(n: nat): (r: string)
    ensures |r| >= 1 && AllDigits(r)
    ensures r[0] != '0' || n == 0
  {
    if n < 10 then [DigitChar(n)] else NatToString(n / 10) + [DigitChar(n % 10)]
  }

  lemma {:induction false} NatToStringValue(n: nat)
    ensures DigitsValue(NatToString(n)) == n
  {
    if n >= 10 {
      NatToStringValue(n / 10);
      var s := NatToString(n);
      assert s[..|s| - 1] == NatToString(n / 10);
    }
  }

  /** `int.ToString()` and C++ `operator<<` on an int. */
  function IntToString(i: int): (r: string)
    ensures |r| >= 1
  {
    if i < 0 then "-" + NatToString(-i) else NatToString(i)
  }

  function Zeros(n: nat): (r: string)
    ensures |r| == n && forall k :: 0 <= k < n ==> r[k] == '0'
  {
    if n == 0 then "" else "0" + Zeros(n - 1)
  }

  /** C# `ToString("D<width>")`: the digits left-padded with zeros to the
      width, after a minus sign for a negative value. */
  function FormatD(i: int, width: nat): (r: string)
    ensures |r| >= width
  {
    var digits := NatToString(if i < 0 then -i else i);
    var padded := if |digits| < width then Zeros(width - |digits|) + digits else digits;
    if i < 0 then "-" + padded else padded
  }

  /** Sign and digits of a candidate integer: `(negative, digits)`. */
  function SplitSign(t: string): (string, bool) {
    if t != [] && t[0] == '-' then (t[1..], true)
    else if t != [] && t[0] == '+' then (t[1..], false)
    else (t, false)
  }

  /** `int.TryParse(s, out v)` with the default integer style: optional
      white space around an optional sign and at least one digit, and a result
      that fits in 32 bits. */
  function ParseInt32(s: string): (r: Option<int>)
    ensures r.Some? ==> IsInt32(r.value)
  {
    var (ds, neg) := SplitSign(Trim(s));
    if ds == [] || !AllDigits(ds) then None
    else
      var v: int := if neg then -(DigitsValue(ds) as int) else DigitsValue(ds);
      if IsInt32(v) then Some(v) else None
  }

  /** Whatever `ParseInt32` accepts ends, once trimmed, in a digit. */
  lemma ParsedEndsInDigit(s: string)
    requires ParseInt32(s).Some?
    ensures Trim(s) != [] && IsDigit(Trim(s)[|Trim(s)| - 1])
  {
    var t := Trim(s);
    var (ds, neg) := SplitSign(t);
    assert ds != [] && AllDigits(ds);
    assert ds == t || ds == t[1..];
    assert t[|t| - 1] == ds[|ds| - 1];
  }

  /** The longest prefix of `s` made of digits. */
  function DigitPrefix(s: string): (r: string)
    ensures r <= s && AllDigits(r)
    ensures |r| == |s| || !IsDigit(s[|r|])
  {
    if s != [] && IsDigit(s[0]) then [s[0]] + DigitPrefix(s[1..]) else ""
  }

  /** `std::stoi(s)`: leading white space, an optional sign and the longest
      run of digits; None where `stoi` throws (no digits, or out of range). */
  function Stoi(s: string): (r: Option<int>)
    ensures r.Some? ==> IsInt32(r.value)
  {
    var (rest, neg) := SplitSign(TrimStart(s));
    var ds := DigitPrefix(rest);
    if ds == [] then None
    else
      var v: int := if neg then -(DigitsValue(ds) as int) else DigitsValue(ds);
      if IsInt32(v) then Some(v) else None
  }

  lemma DigitPrefixOfDigits(s: string)
    requires AllDigits(s)
    ensures DigitPrefix(s) == s
  {
    if s != [] {
      DigitPrefixOfDigits(s[1..]);
    }
  }

  lemma IntToStringShape(n: int)
    ensures SplitSign(IntToString(n)) == (NatToString(if n < 0 then -n else n), n < 0)
  {
    if n < 0 {
      assert IntToString(n)[1..] == NatToString(-n);
    }
  }

  /** `IntToString` prints no surrounding white space. */
  lemma IntToStringTrimmed(n: int)
    ensures Trim(IntToString(n)) == IntToString(n)
    ensures TrimStart(IntToString(n)) == IntToString(n)
  {
    var m := if n < 0 then -n else n;
    NatToStringValue(m);
    var t := IntToString(n);
    assert !IsSpace(t[0]) && !IsSpace(t[|t| - 1]);
    TrimOfUnpadded(t);
  }

  /** Parsing what `IntToString` prints gives the number back, with both parsers. */
  lemma IntToStringParses(n: int)
    requires IsInt32(n)
    ensures ParseInt32(IntToString(n)) == Some(n)
    ensures Stoi(IntToString(n)) == Some(n)
  {
    var m := if n < 0 then -n else n;
    NatToStringValue(m);
    IntToStringTrimmed(n);
    IntToStringShape(n);
    DigitPrefixOfDigits(NatToString(m));
  }

  /** Leading zeros do not change the value of a digit string. */
  lemma {:induction false} LeadingZeros(k: nat, ds: string)
    requires AllDigits(ds)
    ensures AllDigits(Zeros(k) + ds) && DigitsValue(Zeros(k) + ds) == DigitsValue(ds)
    decreases |ds|, k
  {
    var s := Zeros(k) + ds;
    if ds == [] {
      assert s == Zeros(k);
      if k > 0 {
        assert s[..|s| - 1] == Zeros(k - 1) + [];
        LeadingZeros(k - 1, []);
      }
    } else {
      assert s[..|s| - 1] == Zeros(k) + ds[..|ds| - 1];
      LeadingZeros(k, ds[..|ds| - 1]);
    }
  }

  /** The digits `FormatD` writes after the sign, and their value. */
  function PaddedDigits(i: int, width: nat): (r: string)
    ensures |r| >= 1 && AllDigits(r)
    ensures DigitsValue(r) == if i < 0 then -i else i
  {
    var m := if i < 0 then -i else i;
    var digits := NatToString(m);
    NatToStringValue(m);
    if |digits| < width then
      LeadingZeros(width - |digits|, digits);
      Zeros(width - |digits|) + digits
    else digits
  }

  lemma FormatDShape(i: int, width: nat)
    ensures FormatD(i, width) == (if i < 0 then "-" else "") + PaddedDigits(i, width)
  {
  }

  /** `int.TryParse` on an optional minus sign followed by digits. */
  lemma ParseSignedDigits(neg: bool, ds: string)
    requires ds != [] && AllDigits(ds)
    requires IsInt32(if neg then -(DigitsValue(ds) as int) else DigitsValue(ds))
    ensures ParseInt32((if neg then "-" else "") + ds) == Some(if neg then -(DigitsValue(ds) as int) else DigitsValue(ds))
  {
    if neg {
      ParseNegativeDigits(ds);
    } else {
      assert "" + ds == ds;
      ParseUnsignedDigits(ds);
    }
  }

  lemma ParseUnsignedDigits(ds: string)
    requires ds != [] && AllDigits(ds) && IsInt32(DigitsValue(ds))
    ensures ParseInt32(ds) == Some(DigitsValue(ds))
  {
    assert IsDigit(ds[0]) && IsDigit(ds[|ds| - 1]);
    TrimOfUnpadded(ds);
    assert SplitSign(ds) == (ds, false);
  }

  lemma ParseNegativeDigits(ds: string)
    requires ds != [] && AllDigits(ds) && IsInt32(-(DigitsValue(ds) as int))
    ensures ParseInt32("-" + ds) == Some(-(DigitsValue(ds) as int))
  {
    var t := "-" + ds;
    assert t[|t| - 1] == ds[|ds| - 1] && IsDigit(ds[|ds| - 1]);
    TrimOfUnpadded(t);
    assert t[1..] == ds;
    ParseNegativeOfSplit(t, ds);
  }

  /** `ParseInt32` on a minus sign and digits, with nothing to trim. */
  lemma ParseNegativeOfSplit(t: string, ds: string)
    requires Trim(t) == t && t != [] && t[0] == '-' && t[1..] == ds
    requires ds != [] && AllDigits(ds) && IsInt32(-(DigitsValue(ds) as int))
    ensures ParseInt32(t) == Some(-(DigitsValue(ds) as int))
  {
    assert SplitSign(t) == (ds, true);
  }

  lemma SignedDigitsChars(neg: bool, ds: string)
    requires AllDigits(ds)
    ensures ' ' !in (if neg then "-" else "") + ds && ':' !in (if neg then "-" else "") + ds
  {
    var t := (if neg then "-" else "") + ds;
    forall k | 0 <= k < |t|
      ensures t[k] != ' ' && t[k] != ':'
    {
      if neg && k > 0 {
        assert t[k] == ds[k - 1];
      }
    }
  }

  /** `int.TryParse` reads back what `ToString("D<width>")` writes, and the
      text holds neither a space nor a colon. */
  lemma FormatDParses(i: int, width: nat)
    requires IsInt32(i)
    ensures ParseInt32(FormatD(i, width)) == Some(i)
    ensures ' ' !in FormatD(i, width) && ':' !in FormatD(i, width)
  {
    FormatDShape(i, width);
    ParseSignedDigits(i < 0, PaddedDigits(i, width));
    SignedDigitsChars(i < 0, PaddedDigits(i, width));
  }
}
