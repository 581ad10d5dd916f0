/**
 * The JavaScript string operations the services rely on, on strings as
 * sequences of characters: trim, split/join, prefix tests, literal
 * replace-all, decimal printing and parseInt, and lower-casing.
 */
module Strs {
  import opened Wrappers

  /** The characters String.prototype.trim removes: white space and line terminators. */
  predicate IsSpace(c: char)
  {
    c == ' ' || c == '\t' || c == '\n' || c == '\r' || c == '\U{000B}' || c == '\U{000C}'
    || c == '\U{00A0}' || c == '\U{1680}' || ('\U{2000}' <= c <= '\U{200A}')
    || c == '\U{2028}' || c == '\U{2029}' || c == '\U{202F}' || c == '\U{205F}'
    || c == '\U{3000}' || c == '\U{FEFF}'
  }

  predicate AllSpace(s: string)
  {
    forall i :: 0 <= i < |s| ==> IsSpace(s[i])
  }

  function TrimStart(s: string): (r: string)
    ensures |r| <= |s| && r == s[|s| - |r|..]
    ensures AllSpace(s[..|s| - |r|])
    ensures r != [] ==> !IsSpace(r[0])
    decreases |s|
  {
    if |s| > 0 && IsSpace(s[0]) then
      var r := TrimStart(s[1..]);
      assert s[1..][|s| - 1 - |r|..] == s[|s| - |r|..];
      SpacePrefix(s, |s| - 1 - |r|);
      r
    else s
  }

  /** A white-space character before a run of white space makes a longer run. */
  lemma SpacePrefix(s: string, k: nat)
    requires |s| > 0 && IsSpace(s[0]) && k < |s| && AllSpace(s[1..][..k])
    ensures AllSpace(s[..k + 1])
  {
    forall i | 0 <= i < k + 1 ensures IsSpace(s[i]) {
      if i > 0 { assert s[i] == s[1..][..k][i - 1]; }
    }
  }

  function TrimEnd(s: string): (r: string)
    ensures |r| <= |s| && r == s[..|r|]
    ensures AllSpace(s[|r|..])
    ensures r != [] ==> !IsSpace(r[|r| - 1])
    decreases |s|
  {
    if |s| > 0 && IsSpace(s[|s| - 1]) then
      var r := TrimEnd(s[..|s| - 1]);
      assert s[..|s| - 1][..|r|] == s[..|r|];
      SpaceSuffix(s, |r|);
      r
    else s
  }

  /** A run of white space followed by a white-space character is a longer run. */
  lemma SpaceSuffix(s: string, k: nat)
    requires |s| > 0 && IsSpace(s[|s| - 1]) && k < |s| && AllSpace(s[..|s| - 1][k..])
    ensures AllSpace(s[k..])
  {
    forall i | 0 <= i < |s| - k ensures IsSpace(s[k..][i]) {
      if i < |s| - 1 - k { assert s[k..][i] == s[..|s| - 1][k..][i]; }
    }
  }

  /**
   * String.prototype.trim: a piece of the string that neither starts nor
   * ends with white space.
   */
  function Trim(s: string): (r: string)
    ensures |r| <= |s|
    ensures r != [] ==> !IsSpace(r[0]) && !IsSpace(r[|r| - 1])
  {
    var a := TrimStart(s);
    var r := TrimEnd(a);
    assert r != [] ==> r[0] == a[0];
    r
  }

  lemma {:induction false} TrimStartAllSpace(s: string)
    requires AllSpace(s)
    ensures TrimStart(s) == ""
    decreases |s|
  {
    if |s| > 0 {
      assert AllSpace(s[1..]) by {
        forall i | 0 <= i < |s[1..]| ensures IsSpace(s[1..][i]) { assert s[1..][i] == s[i + 1]; }
      }
      TrimStartAllSpace(s[1..]);
    }
  }

  /** A string is blank (trims to "") exactly when every character is white space. */
  lemma TrimEmptyIffAllSpace(s: string)
    ensures Trim(s) == "" <==> AllSpace(s)
  {
    var a := TrimStart(s);
    if AllSpace(s) {
      TrimStartAllSpace(s);
    }
    if Trim(s) == "" {
      assert AllSpace(a[0..]);
      assert a[0..] == a;
      assert a == [];
      assert s[..|s| - |a|] == s;
    }
  }

  predicate IsBlank(s: string)
  {
    Trim(s) == ""
  }

  predicate StartsWith(s: string, p: string)
  {
    |p| <= |s| && s[..|p|] == p
  }

  predicate EndsWith(s: string, p: string)
  {
    |p| <= |s| && s[|s| - |p|..] == p
  }

  /** A string starts with itself whatever follows it. */
  lemma StartsWithAppend(a: string, b: string)
    ensures StartsWith(a + b, a)
  {
    assert (a + b)[..|a|] == a;
  }

  /** The three pieces of a concatenation read back by slicing. */
  lemma Slices3(a: string, b: string, c: string)
    ensures var s := a + b + c;
      s[..|a|] == a && s[|a|..|a| + |b|] == b && s[|a| + |b|..] == c && s[|a|..|s| - |c|] == b
  {
    var s := a + b + c;
    assert s[..|a|] == a;
    assert s[|a|..|a| + |b|] == b;
  }

  /** The five pieces of a concatenation read back by slicing. */
  lemma Slices5(a: string, b: string, c: string, d: string, e: string)
    ensures var s := a + b + c + d + e;
      |s| == |a| + |b| + |c| + |d| + |e|
      && s[..|a|] == a && s[|a|..|a| + |b|] == b && s[|a| + |b|..|a| + |b| + |c|] == c
      && s[|a| + |b| + |c|..|s| - |e|] == d && s[|s| - |e|..] == e
  {
    var s := a + b + c + d + e;
    Slices3(a + b, c, d + e);
    Slices3(a, b, c + d + e);
    Slices3(a + b + c, d, e);
    assert a + b + (c + d + e) == s;
    assert a + b + c + (d + e) == s;
  }

  /** String.prototype.includes. */
  predicate Contains(s: string, sub: string)
    decreases |s|
  {
    StartsWith(s, sub) || (|s| > 0 && Contains(s[1..], sub))
  }

  /** String.prototype.split with a one-character separator. */
  function Split(s: string, c: char): (r: seq<string>)
    ensures |r| >= 1
    ensures forall i :: 0 <= i < |r| ==> c !in r[i]
    decreases |s|
  {
    if |s| == 0 then [""]
    else if s[0] == c then [""] + Split(s[1..], c)
    else
      var rest := Split(s[1..], c);
      [[s[0]] + rest[0]] + rest[1..]
  }

  /** Array.prototype.join. */
  function Join(parts: seq<string>, sep: string): string
    decreases |parts|
  {
    if |parts| == 0 then ""
    else if |parts| == 1 then parts[0]
    else parts[0] + sep + Join(parts[1..], sep)
  }

  /** Joining the pieces of a split with the separator gives the string back. */
  lemma {:induction false} JoinSplit(s: string, c: char)
    ensures Join(Split(s, c), [c]) == s
    decreases |s|
  {
    if |s| > 0 {
      var rest := Split(s[1..], c);
      JoinSplit(s[1..], c);
      if s[0] == c {
        assert Split(s, c) == [""] + rest;
        assert Join([""] + rest, [c]) == "" + [c] + Join(rest, [c]);
      } else if |rest| == 1 {
        assert Split(s, c) == [[s[0]] + rest[0]];
      } else {
        var r := Split(s, c);
        assert r == [[s[0]] + rest[0]] + rest[1..];
        assert r[1..] == rest[1..];
        assert Join(r, [c]) == [s[0]] + rest[0] + [c] + Join(rest[1..], [c]);
      }
    }
  }

  /** The last piece of a split: what `s.split(c).pop()` returns. */
  function LastPiece(s: string, c: char): (r: string)
    ensures c !in r && EndsWith(s, r)
    ensures c !in s ==> r == s
  {
    var parts := Split(s, c);
    JoinSplit(s, c);
    JoinEndsWithLast(parts, [c]);
    NoSepSplit(s, c);
    parts[|parts| - 1]
  }

  /** A split of a string with the separator in it has at least two pieces, the last being what follows the last separator. */
  lemma {:induction false} SplitLast(a: string, c: char, b: string)
    requires c !in b
    ensures var parts := Split(a + [c] + b, c); |parts| >= 2 && parts[|parts| - 1] == b
    decreases |a|
  {
    if |a| == 0 {
      assert a + [c] + b == [c] + b;
      NoSepSplit(b, c);
      assert ([c] + b)[1..] == b;
    } else {
      assert (a + [c] + b)[1..] == a[1..] + [c] + b;
      SplitLast(a[1..], c, b);
    }
  }

  /** What follows the last separator is the last piece. */
  lemma LastPieceAfter(a: string, c: char, b: string)
    requires c !in b
    ensures LastPiece(a + [c] + b, c) == b
  {
    SplitLast(a, c, b);
  }

  lemma {:induction false} JoinEndsWithLast(parts: seq<string>, sep: string)
    requires |parts| >= 1
    ensures EndsWith(Join(parts, sep), parts[|parts| - 1])
    decreases |parts|
  {
    if |parts| > 1 {
      JoinEndsWithLast(parts[1..], sep);
      var j := Join(parts[1..], sep);
      assert Join(parts, sep) == (parts[0] + sep) + j;
    }
  }

  lemma {:induction false} NoSepSplit(s: string, c: char)
    ensures c !in s ==> Split(s, c) == [s]
    decreases |s|
  {
    if |s| > 0 && c !in s {
      NoSepSplit(s[1..], c);
      assert s == [s[0]] + s[1..];
    }
  }

  /** Splitting at a separator that the first piece does not contain peels off that piece. */
  lemma {:induction false} SplitAround(a: string, c: char, b: string)
    requires c !in a
    ensures Split(a + [c] + b, c) == [a] + Split(b, c)
    decreases |a|
  {
    var s := a + [c] + b;
    if a == [] {
      assert s == [c] + b;
      assert s[1..] == b;
    } else {
      assert s[1..] == a[1..] + [c] + b;
      SplitAround(a[1..], c, b);
      assert [a[0]] + a[1..] == a;
    }
  }

  /** Splitting a join of pieces free of the separator gives the pieces back. */
  lemma {:induction false} SplitJoin(parts: seq<string>, c: char)
    requires |parts| >= 1
    requires forall i :: 0 <= i < |parts| ==> c !in parts[i]
    ensures Split(Join(parts, [c]), c) == parts
    decreases |parts|
  {
    if |parts| == 1 {
      NoSepSplit(parts[0], c);
    } else {
      SplitJoin(parts[1..], c);
      SplitAround(parts[0], c, Join(parts[1..], [c]));
      assert [parts[0]] + parts[1..] == parts;
    }
  }

  /** A string that neither starts nor ends with white space trims to itself. */
  lemma TrimUnspaced(s: string)
    requires s != [] && !IsSpace(s[0]) && !IsSpace(s[|s| - 1])
    ensures Trim(s) == s
  {
  }

  /**
   * `s.replace(new RegExp(pat, 'g'), rep)` for a pattern with no special
   * characters: every non-overlapping occurrence, scanning left to right.
   */
  function ReplaceAll(s: string, pat: string, rep: string): (r: string)
    requires |pat| > 0
    ensures |rep| == |pat| ==> |r| == |s|
    ensures rep == pat ==> r == s
    decreases |s|
  {
    if |s| < |pat| then s
    else if s[..|pat|] == pat then rep + ReplaceAll(s[|pat|..], pat, rep)
    else [s[0]] + ReplaceAll(s[1..], pat, rep)
  }

  /** Replacing a pattern that does not occur leaves the string as it was. */
  lemma {:induction false} ReplaceAllAbsent(s: string, pat: string, rep: string)
    requires |pat| > 0 && !Contains(s, pat)
    ensures ReplaceAll(s, pat, rep) == s
    decreases |s|
  {
    if |s| >= |pat| {
      ReplaceAllAbsent(s[1..], pat, rep);
    }
  }

  lemma ReplaceAllSkip(s: string, pat: string, rep: string)
    requires |pat| > 0 && |s| > 0 && !StartsWith(s, pat)
    ensures ReplaceAll(s, pat, rep) == [s[0]] + ReplaceAll(s[1..], pat, rep)
  {
  }

  /** No occurrence of the pattern starts inside the first n characters of s. */
  predicate NoMatchBefore(s: string, pat: string, n: nat)
  {
    forall i :: 0 <= i < n && i <= |s| ==> !StartsWith(s[i..], pat)
  }

  /**
   * Replace-all substitutes the first occurrence and then carries on after
   * it: `pre + pat + post` with no occurrence starting inside `pre`.
   */
  lemma {:induction false} ReplaceAllFirst(pre: string, pat: string, post: string, rep: string)
    requires |pat| > 0 && NoMatchBefore(pre + pat + post, pat, |pre|)
    ensures ReplaceAll(pre + pat + post, pat, rep) == pre + rep + ReplaceAll(post, pat, rep)
    decreases |pre|
  {
    var s := pre + pat + post;
    if |pre| == 0 {
      assert s == pat + post;
      assert s[..|pat|] == pat && s[|pat|..] == post;
    } else {
      var rest := pre[1..];
      PeelFirst(pre, pat, post);
      ReplaceAllSkip(s, pat, rep);
      ReplaceAllFirst(rest, pat, post, rep);
      Regroup(pre[0], rest, rep, ReplaceAll(post, pat, rep));
    }
  }

  /** Dropping the first character of `pre` keeps the pattern where it was. */
  lemma PeelFirst(pre: string, pat: string, post: string)
    requires |pre| > 0 && NoMatchBefore(pre + pat + post, pat, |pre|)
    ensures var s := pre + pat + post;
      !StartsWith(s, pat) && s[0] == pre[0] && s[1..] == pre[1..] + pat + post
      && pre == [pre[0]] + pre[1..] && NoMatchBefore(pre[1..] + pat + post, pat, |pre| - 1)
  {
    var s := pre + pat + post;
    assert s[0..] == s;
    assert s[1..] == pre[1..] + pat + post;
    assert pre == [pre[0]] + pre[1..];
    forall i | 0 <= i < |pre| - 1 && i <= |s[1..]| ensures !StartsWith(s[1..][i..], pat) {
      assert s[1..][i..] == s[i + 1..];
    }
  }

  lemma Regroup(c: char, rest: string, rep: string, x: string)
    ensures [c] + (rest + rep + x) == ([c] + rest) + rep + x
  {
  }

  function DigitChar(d: nat): char
    requires d < 10
  {
    "0123456789"[d]
  }

  predicate IsDigit(c: char)
  {
    '0' <= c <= '9'
  }

  function DigitValue(c: char): nat
    requires IsDigit(c)
  {
    (c as int - '0' as int) as nat
  }

  function NatToString(n: nat): (r: string)
    ensures |r| >= 1 && forall i :: 0 <= i < |r| ==> IsDigit(r[i])
    decreases n
  {
    if n < 10 then [DigitChar(n)] else NatToString(n / 10) + [DigitChar(n % 10)]
  }

  /** String(n) for an integer. */
  function IntToString(n: int): string
  {
    if n < 0 then "-" + NatToString(-n) else NatToString(n)
  }

  /** The value of a run of decimal digits. */
  function DigitsValue(s: string): nat
    requires forall i :: 0 <= i < |s| ==> IsDigit(s[i])
    decreases |s|
  {
    if |s| == 0 then 0 else DigitsValue(s[..|s| - 1]) * 10 + DigitValue(s[|s| - 1])
  }

  /** The longest prefix of decimal digits. */
  function DigitPrefix(s: string): (r: string)
    ensures |r| <= |s| && r == s[..|r|] && forall i :: 0 <= i < |r| ==> IsDigit(r[i])
    ensures |r| < |s| ==> !IsDigit(s[|r|])
    decreases |s|
  {
    if |s| > 0 && IsDigit(s[0]) then [s[0]] + DigitPrefix(s[1..]) else ""
  }

  /**
   * parseInt(s, 10): leading white space, an optional sign, then the
   * longest run of digits; None stands for NaN (no digit at all).
   */
  function ParseInt(s: string): (r: Option<int>)
    ensures r.Some? ==> exists i :: 0 <= i < |s| && IsDigit(s[i])
    ensures r.Some? && r.value < 0 ==> '-' in s
  {
    var t := TrimStart(s);
    var neg := |t| > 0 && t[0] == '-';
    var body := if |t| > 0 && (t[0] == '-' || t[0] == '+') then t[1..] else t;
    var digits := DigitPrefix(body);
    assert digits != "" ==> body[0] == digits[0] && s[|s| - |body|] == body[0];
    assert neg ==> s[|s| - |t|] == '-';
    if digits == "" then None
    else if neg then Some(-(DigitsValue(digits) as int))
    else Some(DigitsValue(digits) as int)
  }

  lemma {:induction false} NatToStringValue(n: nat)
    ensures DigitsValue(NatToString(n)) == n
    decreases n
  {
    if n >= 10 {
      NatToStringValue(n / 10);
      var r := NatToString(n);
      assert r[..|r| - 1] == NatToString(n / 10);
    }
  }

  lemma AllDigitsPrefix(s: string)
    requires forall i :: 0 <= i < |s| ==> IsDigit(s[i])
    ensures DigitPrefix(s) == s
  {
  }

  lemma TrimStartUnspaced(s: string)
    requires |s| > 0 && !IsSpace(s[0])
    ensures TrimStart(s) == s
  {
  }

  lemma ParseDigits(d: string)
    requires |d| >= 1 && forall i :: 0 <= i < |d| ==> IsDigit(d[i])
    ensures ParseInt(d) == Some(DigitsValue(d) as int)
  {
    TrimStartUnspaced(d);
    AllDigitsPrefix(d);
    assert d[0] != '-' && d[0] != '+';
    ParseUnsigned(d, d);
  }

  lemma ParseUnsigned(s: string, digits: string)
    requires TrimStart(s) == s && (|s| == 0 || (s[0] != '-' && s[0] != '+'))
    requires DigitPrefix(s) == digits && digits != ""
    ensures ParseInt(s) == Some(DigitsValue(digits) as int)
  {
    var t := TrimStart(s);
    assert !(|t| > 0 && t[0] == '-');
    assert DigitPrefix(t) == digits;
  }

  lemma ParseNegDigits(s: string, d: string, m: nat)
    requires |d| >= 1 && forall i :: 0 <= i < |d| ==> IsDigit(d[i])
    requires s == "-" + d && DigitsValue(d) == m
    ensures ParseInt(s) == Some(-(m as int))
  {
    assert s[0] == '-' && s[1..] == d;
    TrimStartUnspaced(s);
    AllDigitsPrefix(d);
    ParseMinus(s, d, m);
  }

  lemma ParseMinus(s: string, digits: string, m: nat)
    requires TrimStart(s) == s && |s| > 0 && s[0] == '-'
    requires DigitPrefix(s[1..]) == digits && digits != "" && DigitsValue(digits) == m
    ensures ParseInt(s) == Some(-(m as int))
  {
    var t := TrimStart(s);
    assert |t| > 0 && t[0] == '-';
    assert DigitPrefix(t[1..]) == digits;
  }

  lemma ParseNegative(n: int)
    requires n < 0
    ensures ParseInt(IntToString(n)) == Some(n)
  {
    var m: nat := -n;
    var d := NatToString(m);
    NatToStringValue(m);
    ParseNegDigits(IntToString(n), d, m);
  }

  lemma ParseNonNegative(n: nat)
    ensures ParseInt(IntToString(n)) == Some(n)
  {
    var d := NatToString(n);
    NatToStringValue(n);
    ParseDigits(d);
    assert IntToString(n) == d;
  }

  /** Printing an integer and parsing it back gives the same integer. */
  lemma ParseIntOfIntToString(n: int)
    ensures ParseInt(IntToString(n)) == Some(n)
  {
    if n < 0 { ParseNegative(n); } else { ParseNonNegative(n); }
  }

  /** An integer printed before text that does not start with a digit parses back as itself. */
  lemma ParseIntBefore(n: int, rest: string)
    requires |rest| == 0 || !IsDigit(rest[0])
    ensures ParseInt(IntToString(n) + rest) == Some(n)
  {
    if n < 0 {
      var m: nat := -n;
      ParseNegBefore(m, rest);
      assert IntToString(n) + rest == "-" + NatToString(m) + rest;
    } else {
      ParseNatBefore(n, rest);
    }
  }

  lemma ParseNatBefore(n: nat, rest: string)
    requires |rest| == 0 || !IsDigit(rest[0])
    ensures ParseInt(IntToString(n) + rest) == Some(n)
  {
    var d := NatToString(n);
    assert IntToString(n) == d;
    NatToStringValue(n);
    DigitPrefixBefore(d, rest);
    assert (d + rest)[0] == d[0];
    TrimStartUnspaced(d + rest);
    ParseUnsigned(d + rest, d);
  }

  lemma ParseNegBefore(m: nat, rest: string)
    requires |rest| == 0 || !IsDigit(rest[0])
    ensures ParseInt("-" + NatToString(m) + rest) == Some(-(m as int))
  {
    var d := NatToString(m);
    NatToStringValue(m);
    DigitPrefixBefore(d, rest);
    assert "-" + d + rest == "-" + (d + rest);
    ParseMinusBefore(d + rest, d, m);
  }

  /** A '-' before text whose leading digits are `digits` parses as their negated value. */
  lemma ParseMinusBefore(t: string, digits: string, m: nat)
    requires DigitPrefix(t) == digits && digits != "" && DigitsValue(digits) == m
    ensures ParseInt("-" + t) == Some(-(m as int))
  {
    var s := "-" + t;
    assert s[0] == '-' && s[1..] == t;
    TrimStartUnspaced(s);
    ParseMinus(s, digits, m);
  }

  lemma {:induction false} DigitPrefixBefore(d: string, rest: string)
    requires forall i :: 0 <= i < |d| ==> IsDigit(d[i])
    requires |rest| == 0 || !IsDigit(rest[0])
    ensures DigitPrefix(d + rest) == d
    decreases |d|
  {
    if |d| == 0 {
      assert d + rest == rest;
    } else {
      assert (d + rest)[1..] == d[1..] + rest;
      DigitPrefixBefore(d[1..], rest);
      assert d == [d[0]] + d[1..];
    }
  }

  /**
   * Lower-casing for the Latin capitals A-Z and the Cyrillic capitals of
   * U+0400-U+042F (the basic alphabet and the letters with diacritics and
   * national letters before it).
   */
  function LowerChar(c: char): char
  {
    if 'A' <= c <= 'Z' then (c as int + 32) as char
    else if '\U{0410}' <= c <= '\U{042F}' then (c as int + 32) as char
    else if '\U{0400}' <= c <= '\U{040F}' then (c as int + 80) as char
    else c
  }

  function Lower(s: string): (r: string)
    ensures |r| == |s| && forall i :: 0 <= i < |s| ==> r[i] == LowerChar(s[i])
  {
    seq(|s|, i requires 0 <= i < |s| => LowerChar(s[i]))
  }
}
