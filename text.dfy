/**
 * The JavaScript string operations the pages rely on, on `seq<char>`:
 * `toLowerCase` (ASCII letters only), `includes`, `trim`, `padStart`,
 * `String(n)`, `split('-')[1]`, `join` and `parseInt` (decimal only).
 */
module Text {
  import opened Wrappers

  // ---------------------------------------------------------------- case

  function LowerChar(c: char): (r: char)
    ensures 'A' <= c <= 'Z' ==> r as int == c as int + 32
    ensures !('A' <= c <= 'Z') ==> r == c
  {
    if 'A' <= c <= 'Z' then (c as int + 32) as char else c
  }

  /** `s.toLowerCase()`, restricted to ASCII letters. */
  function ToLower(s: string): (r: string)
    ensures |r| == |s|
    ensures forall i :: 0 <= i < |s| ==> r[i] == LowerChar(s[i])
  {
    if s == [] then [] else [LowerChar(s[0])] + ToLower(s[1..])
  }

  // ---------------------------------------------------------------- includes

  predicate StartsWith(s: string, p: string) {
    |p| <= |s| && s[..|p|] == p
  }

  /** `s.includes(p)`: `p` occurs somewhere in `s` (the empty string occurs everywhere). */
  predicate Includes(s: string, p: string)
    decreases |s|
  {
    StartsWith(s, p) || (|s| > 0 && Includes(s[1..], p))
  }

  /** `p` occurs in `s` at offset `i`. */
  predicate OccursAt(s: string, p: string, i: int) {
    0 <= i <= |s| - |p| && s[i..i + |p|] == p
  }

  /** `Includes` holds exactly when `p` is found at some offset of `s`. */
  lemma {:induction false} IncludesAt(s: string, p: string)
    ensures Includes(s, p) <==> exists i :: OccursAt(s, p, i)
    decreases |s|
  {
    if StartsWith(s, p) {
      assert OccursAt(s, p, 0);
    } else if |s| > 0 {
      IncludesAt(s[1..], p);
      if Includes(s[1..], p) {
        var i :| OccursAt(s[1..], p, i);
        assert s[i + 1..i + 1 + |p|] == s[1..][i..i + |p|];
        assert OccursAt(s, p, i + 1);
      }
      if exists i :: OccursAt(s, p, i) {
        var i :| OccursAt(s, p, i);
        assert i != 0;
        assert s[1..][i - 1..i - 1 + |p|] == s[i..i + |p|];
        assert OccursAt(s[1..], p, i - 1);
      }
    } else {
      assert forall i :: !OccursAt(s, p, i);
    }
  }

  /** Case-insensitive `includes`, as the search boxes apply it. */
  predicate IncludesFolded(s: string, query: string) {
    Includes(ToLower(s), ToLower(query))
  }

  // ---------------------------------------------------------------- trim

  predicate IsSpace(c: char) {
    c == ' ' || c == '\t' || c == '\n' || c == '\r' || c == '\U{B}' || c == '\U{C}'
  }

  /** `s.trimStart()`. */
  function TrimStart(s: string): string {
    if s != [] && IsSpace(s[0]) then TrimStart(s[1..]) else s
  }

  /** `s.trimEnd()`. */
  function TrimEnd(s: string): string {
    if s != [] && IsSpace(s[|s| - 1]) then TrimEnd(s[..|s| - 1]) else s
  }

  /** Trimming the start drops a prefix of white space and stops at the first other character. */
  lemma {:induction false} TrimStartSpec(s: string)
    ensures |TrimStart(s)| <= |s| && TrimStart(s) == s[|s| - |TrimStart(s)|..]
    ensures TrimStart(s) == [] || !IsSpace(TrimStart(s)[0])
    ensures forall i :: 0 <= i < |s| - |TrimStart(s)| ==> IsSpace(s[i])
  {
    if s != [] && IsSpace(s[0]) {
      TrimStartSpec(s[1..]);
    }
  }

  /** Trimming the end drops a suffix of white space and stops at the last other character. */
  lemma {:induction false} TrimEndSpec(s: string)
    ensures |TrimEnd(s)| <= |s| && TrimEnd(s) == s[..|TrimEnd(s)|]
    ensures TrimEnd(s) == [] || !IsSpace(TrimEnd(s)[|TrimEnd(s)| - 1])
    ensures forall i :: |TrimEnd(s)| <= i < |s| ==> IsSpace(s[i])
  {
    if s != [] && IsSpace(s[|s| - 1]) {
      TrimEndSpec(s[..|s| - 1]);
    }
  }

  /** `s.trim()`: drops leading and trailing white space. */
  function Trim(s: string): string {
    TrimEnd(TrimStart(s))
  }

  /** `s.trim()` is empty exactly when `s` is nothing but white space. */
  lemma TrimEmptyIffBlank(s: string)
    ensures Trim(s) == [] <==> forall i :: 0 <= i < |s| ==> IsSpace(s[i])
  {
    var t := TrimStart(s);
    TrimStartSpec(s);
    TrimEndSpec(t);
    if Trim(s) != [] {
      assert t != [] && !IsSpace(t[0]);
      assert s[|s| - |t|] == t[0];
    }
  }

  // ---------------------------------------------------------------- numbers as text

  predicate IsDigit(c: char) {
    '0' <= c <= '9'
  }

  function DigitChar(d: nat): (c: char)
    requires d < 10
    ensures IsDigit(c)
  {
    ('0' as int + d) as char
  }

  function DigitValue(c: char): (d: nat)
    requires IsDigit(c)
    ensures d < 10
  {
    c as int - '0' as int
  }

  /** `String(n)` for a non-negative integer: its decimal digits, no leading zero. */
  function NatToString(n: nat): (r: string)
    ensures |r| >= 1
    ensures forall i :: 0 <= i < |r| ==> IsDigit(r[i])
    ensures '-' !in r
  {
    if n < 10 then [DigitChar(n)] else NatToString(n / 10) + [DigitChar(n % 10)]
  }

  /** `String(i)` for any integer. */
  function IntToString(i: int): string {
    if i < 0 then "-" + NatToString(-i) else NatToString(i)
  }

  /** The number a run of decimal digits denotes. */
  function DigitsValue(d: string): nat
    requires forall i :: 0 <= i < |d| ==> IsDigit(d[i])
  {
    if d == [] then 0 else DigitsValue(d[..|d| - 1]) * 10 + DigitValue(d[|d| - 1])
  }

  function Repeat(c: char, n: nat): (r: string)
    ensures |r| == n
    ensures forall i :: 0 <= i < n ==> r[i] == c
  {
    if n == 0 then [] else [c] + Repeat(c, n - 1)
  }

  /** `s.padStart(width, c)`. */
  function PadStart(s: string, width: nat, c: char): (r: string)
    ensures |r| == if |s| >= width then |s| else width
    ensures r[|r| - |s|..] == s
    ensures forall i :: 0 <= i < |r| - |s| ==> r[i] == c
  {
    if |s| >= width then s else Repeat(c, width - |s|) + s
  }

  lemma {:induction false} DigitsOfNatToString(n: nat)
    ensures DigitsValue(NatToString(n)) == n
  {
    var s := NatToString(n);
    if n >= 10 {
      DigitsOfNatToString(n / 10);
      assert s[..|s| - 1] == NatToString(n / 10);
    }
  }

  lemma {:induction false} LeadingZerosAddNothing(k: nat, d: string)
    requires forall i :: 0 <= i < |d| ==> IsDigit(d[i])
    ensures forall i :: 0 <= i < |Repeat('0', k) + d| ==> IsDigit((Repeat('0', k) + d)[i])
    ensures DigitsValue(Repeat('0', k) + d) == DigitsValue(d)
    decreases |d|, k
  {
    var z := Repeat('0', k);
    if d == [] {
      assert z + d == z;
      if k > 0 {
        LeadingZerosAddNothing(k - 1, d);
        assert z[..|z| - 1] == Repeat('0', k - 1) + d;
      }
    } else {
      LeadingZerosAddNothing(k, d[..|d| - 1]);
      assert (z + d)[..|z + d| - 1] == z + d[..|d| - 1];
    }
  }

  // ---------------------------------------------------------------- parseInt

  /** The longest prefix of `s` made of decimal digits. */
  function DigitRun(s: string): (r: string)
    ensures |r| <= |s| && r == s[..|r|]
    ensures forall i :: 0 <= i < |r| ==> IsDigit(r[i])
    ensures |r| < |s| ==> !IsDigit(s[|r|])
  {
    if s != [] && IsDigit(s[0]) then [s[0]] + DigitRun(s[1..]) else []
  }

  /**
   * `parseInt(s)` in base ten: leading white space, an optional sign, then the
   * longest run of digits; `None` stands for `NaN` (no digit at all).
   */
  function ParseInt(s: string): Option<int> {
    ParseSigned(TrimStart(s))
  }

  function ParseSigned(t: string): Option<int> {
    if t != [] && t[0] == '-' then
      match ParseUnsigned(t[1..])
      case Some(v) => Some(-v)
      case None => None
    else if t != [] && t[0] == '+' then ParseUnsigned(t[1..])
    else ParseUnsigned(t)
  }

  function ParseUnsigned(b: string): Option<int> {
    var run := DigitRun(b);
    if run == [] then None else Some(DigitsValue(run))
  }

  lemma AllDigitsRun(s: string)
    requires forall i :: 0 <= i < |s| ==> IsDigit(s[i])
    ensures DigitRun(s) == s
  {
  }

  /** A non-empty run of digits parses to the number it denotes. */
  lemma ParseDigits(p: string)
    requires p != [] && forall i :: 0 <= i < |p| ==> IsDigit(p[i])
    ensures ParseInt(p) == Some(DigitsValue(p))
  {
    assert IsDigit(p[0]);
    assert TrimStart(p) == p;
    assert p[0] != '-' && p[0] != '+';
    assert ParseSigned(p) == ParseUnsigned(p);
    AllDigitsRun(p);
  }

  /** `parseInt` reads back a zero-padded `String(n)`: the bill-number round trip. */
  lemma ParsePadded(n: nat, width: nat)
    ensures ParseInt(PadStart(NatToString(n), width, '0')) == Some(n)
  {
    var d := NatToString(n);
    var p := PadStart(d, width, '0');
    var k: nat := if |d| >= width then 0 else width - |d|;
    var z := Repeat('0', k);
    if |d| >= width {
      assert z == [];
      assert p == z + d;
    } else {
      assert p == z + d;
    }
    LeadingZerosAddNothing(k, d);
    assert DigitsValue(p) == DigitsValue(d);
    DigitsOfNatToString(n);
    ParseDigits(p);
  }

  function Pow10(n: nat): (r: nat)
    ensures r >= 1
  {
    if n == 0 then 1 else 10 * Pow10(n - 1)
  }

  /**
   * `parseFloat(s)`: leading white space, an optional sign, then the longest
   * prefix of the form `digits[.digits]` (either run may be empty, not both);
   * `None` is `NaN`. Exponents and `Infinity` are not read.
   */
  function ParseFloat(s: string): Option<real> {
    var t := TrimStart(s);
    if t != [] && t[0] == '-' then
      match ParseDecimal(t[1..])
      case Some(v) => Some(-v)
      case None => None
    else if t != [] && t[0] == '+' then ParseDecimal(t[1..])
    else ParseDecimal(t)
  }

  function ParseDecimal(t: string): Option<real> {
    var whole := DigitRun(t);
    var rest := t[|whole|..];
    var frac := if rest != [] && rest[0] == '.' then DigitRun(rest[1..]) else [];
    if whole == [] && frac == [] then None
    else Some(DecimalValue(DigitsValue(whole), DigitsValue(frac), |frac|))
  }

  /** The number written `whole.frac`, where `frac` has `places` digits. */
  function DecimalValue(whole: nat, frac: nat, places: nat): real {
    whole as real + frac as real / Pow10(places) as real
  }

  lemma WholeDecimal(n: nat)
    ensures DecimalValue(n, 0, 0) == n as real
  {
    assert Pow10(0) == 1;
  }

  /** On a plain run of digits `parseFloat` and `parseInt` read the same number. */
  lemma ParseFloatOfDigits(p: string)
    requires p != [] && forall i :: 0 <= i < |p| ==> IsDigit(p[i])
    ensures ParseFloat(p) == Some(DigitsValue(p) as real)
    ensures ParseInt(p) == Some(DigitsValue(p))
  {
    assert IsDigit(p[0]);
    assert TrimStart(p) == p;
    assert p[0] != '-' && p[0] != '+';
    DecimalOfDigits(p);
    ParseDigits(p);
  }

  lemma DecimalOfDigits(p: string)
    requires p != [] && forall i :: 0 <= i < |p| ==> IsDigit(p[i])
    ensures ParseDecimal(p) == Some(DigitsValue(p) as real)
  {
    var whole := DigitRun(p);
    AllDigitsRun(p);
    assert whole == p;
    var rest := p[|whole|..];
    assert rest == [];
    var frac: string := [];
    assert DigitsValue(frac) == 0;
    WholeDecimal(DigitsValue(p));
  }

  // ---------------------------------------------------------------- split / join

  /** `s.split('-')[1]`: the text between the first and the second '-', if there is a first. */
  function SecondSegment(s: string, sep: char): Option<string> {
    if s == [] then None
    else if s[0] == sep then Some(FirstSegment(s[1..], sep))
    else SecondSegment(s[1..], sep)
  }

  /** `s.split(sep)[0]`. */
  function FirstSegment(s: string, sep: char): (r: string)
    ensures |r| <= |s| && r == s[..|r|]
    ensures sep !in r
  {
    if s == [] || s[0] == sep then [] else [s[0]] + FirstSegment(s[1..], sep)
  }

  lemma SegmentAfterPrefix(prefix: string, rest: string, sep: char)
    requires sep !in prefix && sep !in rest
    ensures SecondSegment(prefix + [sep] + rest, sep) == Some(rest)
  {
    if prefix == [] {
      assert (prefix + [sep] + rest)[1..] == rest;
      FirstSegmentWhole(rest, sep);
    } else {
      assert (prefix + [sep] + rest)[1..] == prefix[1..] + [sep] + rest;
      SegmentAfterPrefix(prefix[1..], rest, sep);
    }
  }

  lemma FirstSegmentWhole(s: string, sep: char)
    requires sep !in s
    ensures FirstSegment(s, sep) == s
  {
  }

  /** `parts.join(sep)`. */
  function Join(parts: seq<string>, sep: string): string {
    if parts == [] then ""
    else if |parts| == 1 then parts[0]
    else parts[0] + sep + Join(parts[1..], sep)
  }

  /** A join of parts free of `c`, with a separator free of `c`, is free of `c`. */
  lemma {:induction false} JoinAvoids(parts: seq<string>, sep: string, c: char)
    requires forall i :: 0 <= i < |parts| ==> c !in parts[i]
    requires c !in sep
    ensures c !in Join(parts, sep)
  {
    if |parts| > 1 {
      JoinAvoids(parts[1..], sep, c);
    }
  }

  /** `s.split(c)`: the pieces between occurrences of `c`. */
  function Split(s: string, c: char): (r: seq<string>)
    ensures |r| >= 1
    decreases |s|
  {
    var f := FirstSegment(s, c);
    if |f| == |s| then [s] else [f] + Split(s[|f| + 1..], c)
  }

  lemma FirstSegmentBefore(a: string, c: char, b: string)
    requires c !in a
    ensures FirstSegment(a + [c] + b, c) == a
  {
    if a != [] {
      assert (a + [c] + b)[1..] == a[1..] + [c] + b;
      FirstSegmentBefore(a[1..], c, b);
    }
  }

  /** Splitting a join of `c`-free parts on `c` gives the parts back. */
  lemma {:induction false} SplitJoin(parts: seq<string>, c: char)
    requires |parts| >= 1
    requires forall i :: 0 <= i < |parts| ==> c !in parts[i]
    ensures Split(Join(parts, [c]), c) == parts
  {
    if |parts| == 1 {
      FirstSegmentWhole(parts[0], c);
    } else {
      var rest := Join(parts[1..], [c]);
      var s := parts[0] + [c] + rest;
      assert Join(parts, [c]) == s;
      FirstSegmentBefore(parts[0], c, rest);
      assert s[|parts[0]| + 1..] == rest;
      SplitJoin(parts[1..], c);
    }
  }

  /** The number of times the character `c` occurs in `s`. */
  function CountChar(s: string, c: char): nat {
    if s == [] then 0 else (if s[0] == c then 1 else 0) + CountChar(s[1..], c)
  }

  lemma {:induction false} CountCharAppend(a: string, b: string, c: char)
    ensures CountChar(a + b, c) == CountChar(a, c) + CountChar(b, c)
  {
    if a != [] {
      assert (a + b)[1..] == a[1..] + b;
      CountCharAppend(a[1..], b, c);
    } else {
      assert a + b == b;
    }
  }

  lemma {:induction false} CountCharAbsent(s: string, c: char)
    requires c !in s
    ensures CountChar(s, c) == 0
  {
    if s != [] {
      CountCharAbsent(s[1..], c);
    }
  }

  /**
   * Joining `n` separator-free parts with a one-character separator puts
   * exactly `n - 1` separators into the text: the text has `n` lines.
   */
  lemma {:induction false} JoinCountsSeparators(parts: seq<string>, c: char)
    requires |parts| >= 1
    requires forall i :: 0 <= i < |parts| ==> c !in parts[i]
    ensures CountChar(Join(parts, [c]), c) == |parts| - 1
  {
    if |parts| == 1 {
      CountCharAbsent(parts[0], c);
    } else {
      JoinCountsSeparators(parts[1..], c);
      CountCharAbsent(parts[0], c);
      CountCharAppend(parts[0] + [c], Join(parts[1..], [c]), c);
      CountCharAppend(parts[0], [c], c);
    }
  }
}
