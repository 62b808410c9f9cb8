// The Python string operations the naming conventions rely on, written out
// over `seq<char>`: prefix tests, substring search, `split`, `replace`,
// `strip`, `lower`, decimal digits, `int()` on a digit run, `str(n)` and the
// `{n:03d}` format.

module Strings {
  import opened Core

  predicate StartsWith(s: string, p: string)
  {
    |p| <= |s| && s[..|p|] == p
  }

  predicate EndsWith(s: string, p: string)
  {
    |p| <= |s| && s[|s| - |p|..] == p
  }

  /** `p` occurs in `s` starting at index `i`. */
  predicate OccursAt(s: string, p: string, i: int)
  {
    0 <= i && i + |p| <= |s| && s[i..i + |p|] == p
  }

  // ---------------------------------------------------------------------
  // Substring search (Python's `p in s`)

  function FindFrom(s: string, p: string, i: nat): (r: Option<nat>)
    requires i <= |s|
    decreases |s| - i
    ensures r.Some? ==> i <= r.value && OccursAt(s, p, r.value)
    ensures forall j :: i <= j && (r.None? || j < r.value) ==> !OccursAt(s, p, j)
  {
    if OccursAt(s, p, i) then Some(i)
    else if i == |s| then None
    else FindFrom(s, p, i + 1)
  }

  /** The first index at which `p` occurs in `s`, if any. */
  function Find(s: string, p: string): (r: Option<nat>)
    ensures r.Some? ==> OccursAt(s, p, r.value)
    ensures forall j :: 0 <= j && (r.None? || j < r.value) ==> !OccursAt(s, p, j)
  {
    FindFrom(s, p, 0)
  }

  /** Python's `p in s`. */
  predicate Contains(s: string, p: string)
  {
    Find(s, p).Some?
  }

  /** Python's `s.split(sep)[0]`: the text before the first `sep`, or all of `s`. */
  function SplitHead(s: string, sep: string): (h: string)
    requires |sep| > 0
    ensures StartsWith(s, h)
    ensures !Contains(s, sep) ==> h == s
    ensures Contains(s, sep) ==> |h| < |s| && OccursAt(s, sep, |h|)
  {
    match Find(s, sep)
    case None => s
    case Some(i) => s[..i]
  }

  lemma {:induction false} SplitHeadHasNoSeparator(s: string, sep: string)
    requires |sep| > 0
    ensures !Contains(SplitHead(s, sep), sep)
  {
    var h := SplitHead(s, sep);
    assert h == s[..|h|];
    forall j | 0 <= j && j + |sep| <= |h|
      ensures !OccursAt(h, sep, j)
    {
      SliceOfPrefix(s, |h|, j, j + |sep|);
      assert !OccursAt(s, sep, j);
    }
  }

  lemma SliceOfPrefix(s: string, n: nat, a: nat, b: nat)
    requires a <= b <= n <= |s|
    ensures s[..n][a..b] == s[a..b]
  {
    forall q | 0 <= q < b - a
      ensures s[..n][a..b][q] == s[a..b][q]
    {
    }
  }

  // ---------------------------------------------------------------------
  // Python's `s.replace(pat, rep)` for a non-empty `pat`: every
  // non-overlapping occurrence, scanning left to right.

  function ReplaceAll(s: string, pat: string, rep: string): string
    requires |pat| > 0
    decreases |s|
  {
    if |s| < |pat| then s
    else if s[..|pat|] == pat then rep + ReplaceAll(s[|pat|..], pat, rep)
    else [s[0]] + ReplaceAll(s[1..], pat, rep)
  }

  lemma {:induction false} ReplaceAllAbsent(s: string, pat: string, rep: string)
    requires |pat| > 0
    requires forall j :: !OccursAt(s, pat, j)
    ensures ReplaceAll(s, pat, rep) == s
    decreases |s|
  {
    if |s| >= |pat| {
      assert !OccursAt(s, pat, 0);
      forall j ensures !OccursAt(s[1..], pat, j) {
        if OccursAt(s[1..], pat, j) {
          assert s[1..][j..j + |pat|] == s[j + 1..j + 1 + |pat|];
          assert OccursAt(s, pat, j + 1);
        }
      }
      ReplaceAllAbsent(s[1..], pat, rep);
      assert [s[0]] + s[1..] == s;
    }
  }

  /** Removing a prefix by `replace(prefix, "")` leaves the rest untouched
      when the rest cannot contain the prefix. */
  lemma {:induction false} ReplaceAllStripsPrefix(pat: string, rest: string)
    requires |pat| > 0
    requires forall j :: !OccursAt(rest, pat, j)
    ensures ReplaceAll(pat + rest, pat, "") == rest
  {
    assert (pat + rest)[..|pat|] == pat;
    assert (pat + rest)[|pat|..] == rest;
    ReplaceAllAbsent(rest, pat, "");
  }

  // ---------------------------------------------------------------------
  // Decimal digits

  predicate IsDigit(c: char)
  {
    '0' <= c <= '9'
  }

  predicate AllDigits(s: string)
  {
    forall i :: 0 <= i < |s| ==> IsDigit(s[i])
  }

  function DigitValue(c: char): nat
    requires IsDigit(c)
  {
    c as int - '0' as int
  }

  function DigitChar(d: nat): (c: char)
    requires d < 10
    ensures IsDigit(c) && DigitValue(c) == d
  {
    ('0' as int + d) as char
  }

  /** Value of a run of decimal digits, most significant first. */
  function DecimalValue(s: string): nat
    requires AllDigits(s)
  {
    if s == [] then 0 else 10 * DecimalValue(s[..|s| - 1]) + DigitValue(s[|s| - 1])
  }

  /** Python's `int(s)` restricted to plain ASCII digit runs; `None` where
      `int` would raise `ValueError`. */
  function ParseDecimal(s: string): Option<nat>
  {
    if |s| > 0 && AllDigits(s) then Some(DecimalValue(s)) else None
  }

  /** A pattern holding a non-digit never occurs inside a digit run. */
  lemma NoOccurrenceInDigits(s: string, pat: string, k: nat)
    requires AllDigits(s) && k < |pat| && !IsDigit(pat[k])
    ensures forall j :: !OccursAt(s, pat, j)
  {
  }

  lemma {:induction false} LeadingZeroValue(s: string)
    requires AllDigits(s)
    ensures AllDigits("0" + s) && DecimalValue("0" + s) == DecimalValue(s)
    decreases |s|
  {
    if s != [] {
      var t := "0" + s;
      assert t[..|t| - 1] == "0" + s[..|s| - 1];
      LeadingZeroValue(s[..|s| - 1]);
    }
  }

  lemma {:induction false} ZerosValue(k: nat, s: string)
    requires AllDigits(s)
    ensures AllDigits(Zeros(k) + s) && DecimalValue(Zeros(k) + s) == DecimalValue(s)
  {
    if k > 0 {
      var t := Zeros(k - 1) + s;
      ZerosValue(k - 1, s);
      LeadingZeroValue(t);
      assert Zeros(k) == "0" + Zeros(k - 1);
      assert Zeros(k) + s == "0" + t;
      assert AllDigits("0" + t);
      assert DecimalValue("0" + t) == DecimalValue(s);
    } else {
      assert Zeros(k) + s == s;
    }
  }

  /** Python's `str(n)` for a non-negative integer. */
  function NatToString(n: nat): (s: string)
    ensures |s| > 0 && AllDigits(s)
    ensures DecimalValue(s) == n
    ensures s[0] == '0' ==> n == 0
  {
    if n < 10 then [DigitChar(n)]
    else
      var t := NatToString(n / 10);
      var s := t + [DigitChar(n % 10)];
      assert s[..|s| - 1] == t;
      s
  }

  /** Python's `str(i)` for any integer. */
  function IntToString(i: int): string
  {
    if i < 0 then "-" + NatToString(-i) else NatToString(i)
  }

  function Zeros(k: nat): (z: string)
    ensures |z| == k && forall i :: 0 <= i < k ==> z[i] == '0'
  {
    if k == 0 then "" else "0" + Zeros(k - 1)
  }

  /** Left-pads `s` with '0' up to `width` characters. */
  function ZeroPad(s: string, width: nat): string
  {
    if |s| >= width then s else Zeros(width - |s|) + s
  }

  /** Python's `f"{n:03d}"`: at least three characters, zero-padded after
      the sign. */
  function Format03(n: int): string
  {
    if n >= 0 then ZeroPad(NatToString(n), 3) else "-" + ZeroPad(NatToString(-n), 2)
  }

  /** The three-digit index format reads back as the index it encodes, and
      is all digits, of width at least three. */
  lemma Format03RoundTrip(n: nat)
    ensures |Format03(n)| >= 3 && AllDigits(Format03(n))
    ensures ParseDecimal(Format03(n)) == Some(n)
  {
    var t := NatToString(n);
    if |t| < 3 {
      ZerosValue(3 - |t|, t);
    }
  }

  // ---------------------------------------------------------------------
  // Trailing digit runs: `re.search(r'(\d+)$', s)`

  /** Length of the maximal run of digits at the end of `s`. */
  function TrailingDigitCount(s: string): (k: nat)
    ensures k <= |s|
    ensures AllDigits(s[|s| - k..])
    ensures k < |s| ==> !IsDigit(s[|s| - k - 1])
  {
    if s == [] || !IsDigit(s[|s| - 1]) then 0
    else
      var r := s[..|s| - 1];
      var j := TrailingDigitCount(r);
      assert s[|s| - (j + 1)..] == r[|r| - j..] + [s[|s| - 1]];
      assert j + 1 < |s| ==> s[|s| - (j + 1) - 1] == r[|r| - j - 1];
      j + 1
  }

  /** The number written by the maximal trailing digit run, if there is one. */
  function TrailingNumber(s: string): Option<nat>
  {
    var k := TrailingDigitCount(s);
    if k == 0 then None else Some(DecimalValue(s[|s| - k..]))
  }

  /** Appending a digit run after a non-digit makes that run the trailing one. */
  lemma {:induction false} TrailingDigitsOfJoin(pre: string, digits: string)
    requires AllDigits(digits)
    requires |pre| > 0 && !IsDigit(pre[|pre| - 1])
    ensures TrailingDigitCount(pre + digits) == |digits|
    decreases |digits|
  {
    var s := pre + digits;
    if digits == [] {
      assert s == pre;
    } else {
      assert s[..|s| - 1] == pre + digits[..|digits| - 1];
      TrailingDigitsOfJoin(pre, digits[..|digits| - 1]);
    }
  }

  /** `re.search(marker + r'(\d+)$', s)` for a marker ending in a non-digit:
      the number after the marker at the very end of `s`. */
  function MarkedSuffixNumber(s: string, marker: string): Option<nat>
  {
    var k := TrailingDigitCount(s);
    if k > 0 && EndsWith(s[..|s| - k], marker) then Some(DecimalValue(s[|s| - k..]))
    else None
  }

  /** A name built as `pre + marker + digits` yields exactly those digits. */
  lemma {:induction false} MarkedSuffixNumberOfJoin(pre: string, marker: string, digits: string)
    requires |marker| > 0 && !IsDigit(marker[|marker| - 1])
    requires |digits| > 0 && AllDigits(digits)
    ensures MarkedSuffixNumber(pre + marker + digits, marker) == Some(DecimalValue(digits))
  {
    var s := pre + marker + digits;
    TrailingDigitsOfJoin(pre + marker, digits);
    assert s[..|s| - |digits|] == pre + marker;
    assert s[|s| - |digits|..] == digits;
  }

  // ---------------------------------------------------------------------
  // Whitespace (Python's `str.isspace`), `strip()`, `split()`, `lower()`

  predicate IsSpace(c: char)
  {
    c in {' ', '\t', '\n', '\r', '\U{000B}', '\U{000C}', '\U{001C}', '\U{001D}', '\U{001E}',
          '\U{001F}', '\U{0085}', '\U{00A0}', '\U{1680}', '\U{2000}', '\U{2001}', '\U{2002}',
          '\U{2003}', '\U{2004}', '\U{2005}', '\U{2006}', '\U{2007}', '\U{2008}', '\U{2009}',
          '\U{200A}', '\U{2028}', '\U{2029}', '\U{202F}', '\U{205F}', '\U{3000}'}
  }

  function StripLeft(s: string): (r: string)
    ensures EndsWith(s, r)
    ensures r == [] || !IsSpace(r[0])
  {
    if |s| > 0 && IsSpace(s[0]) then
      var r := StripLeft(s[1..]);
      assert s[|s| - |r|..] == s[1..][|s[1..]| - |r|..];
      r
    else s
  }

  function StripRight(s: string): (r: string)
    ensures StartsWith(s, r)
    ensures r == [] || !IsSpace(r[|r| - 1])
  {
    if |s| > 0 && IsSpace(s[|s| - 1]) then
      var r := StripRight(s[..|s| - 1]);
      assert s[..|r|] == s[..|s| - 1][..|r|];
      r
    else s
  }

  /** Python's `s.strip()`. */
  function Strip(s: string): string
  {
    StripRight(StripLeft(s))
  }

  lemma {:induction false} StripRightKeepsHead(s: string)
    requires |s| > 0 && !IsSpace(s[0])
    ensures |StripRight(s)| > 0 && StripRight(s)[0] == s[0]
    decreases |s|
  {
    if IsSpace(s[|s| - 1]) {
      StripRightKeepsHead(s[..|s| - 1]);
    }
  }

  /** A stripped string has no whitespace at either end. */
  lemma StripTrimmed(s: string)
    ensures Strip(s) == [] || (!IsSpace(Strip(s)[0]) && !IsSpace(Strip(s)[|Strip(s)| - 1]))
  {
    var l := StripLeft(s);
    if l != [] {
      StripRightKeepsHead(l);
    }
  }

  lemma {:induction false} StripLeftNoop(s: string)
    requires s == [] || !IsSpace(s[0])
    ensures StripLeft(s) == s
  {
  }

  lemma {:induction false} StripRightNoop(s: string)
    requires s == [] || !IsSpace(s[|s| - 1])
    ensures StripRight(s) == s
  {
  }

  /** `strip()` is idempotent. */
  lemma StripIdempotent(s: string)
    ensures Strip(Strip(s)) == Strip(s)
  {
    StripTrimmed(s);
    StripLeftNoop(Strip(s));
    StripRightNoop(Strip(s));
  }

  /** Length of the run of non-space characters at the start of `s`. */
  function WordLength(s: string): (n: nat)
    ensures n <= |s|
    ensures forall i :: 0 <= i < n ==> !IsSpace(s[i])
    ensures n < |s| ==> IsSpace(s[n])
  {
    if s == [] || IsSpace(s[0]) then 0 else 1 + WordLength(s[1..])
  }

  /** Python's `s.split()` with no separator: the maximal runs of
      non-whitespace characters, in order. */
  function SplitWhitespace(s: string): (words: seq<string>)
    ensures forall w :: w in words ==> |w| > 0
    ensures forall w, i :: w in words && 0 <= i < |w| ==> !IsSpace(w[i])
    decreases |s|
  {
    var t := StripLeft(s);
    if t == [] then []
    else
      var n := WordLength(t);
      [t[..n]] + SplitWhitespace(t[n..])
  }

  /** The words laid end to end. */
  function Concat(ws: seq<string>): string
  {
    if ws == [] then [] else ws[0] + Concat(ws[1..])
  }

  /** The characters of `s` that are not whitespace, in order. */
  function NonSpace(s: string): string
  {
    if s == [] then [] else (if IsSpace(s[0]) then [] else [s[0]]) + NonSpace(s[1..])
  }

  lemma {:induction false} NonSpaceAppend(a: string, b: string)
    ensures NonSpace(a + b) == NonSpace(a) + NonSpace(b)
    decreases |a|
  {
    if a == [] {
      assert a + b == b;
    } else {
      assert (a + b)[1..] == a[1..] + b;
      NonSpaceAppend(a[1..], b);
    }
  }

  lemma {:induction false} NonSpaceOfWord(w: string)
    requires forall i :: 0 <= i < |w| ==> !IsSpace(w[i])
    ensures NonSpace(w) == w
    decreases |w|
  {
    if w != [] {
      NonSpaceOfWord(w[1..]);
    }
  }

  lemma {:induction false} StripLeftNonSpace(s: string)
    ensures NonSpace(StripLeft(s)) == NonSpace(s)
    decreases |s|
  {
    if |s| > 0 && IsSpace(s[0]) {
      StripLeftNonSpace(s[1..]);
    }
  }

  lemma {:induction false} StripLeftEmpty(s: string)
    ensures StripLeft(s) == [] <==> forall i :: 0 <= i < |s| ==> IsSpace(s[i])
    decreases |s|
  {
    if |s| > 0 && IsSpace(s[0]) {
      var r := s[1..];
      StripLeftEmpty(r);
      assert StripLeft(s) == StripLeft(r);
      forall i | 0 <= i < |r|
        ensures r[i] == s[i + 1]
      {
      }
    } else if |s| > 0 {
      assert StripLeft(s) == s;
    }
  }

  /** The words of `s.split()`, laid end to end, are exactly the
      non-whitespace characters of `s`, in order: splitting drops the
      whitespace and nothing else. */
  lemma {:induction false} SplitWhitespaceJoin(s: string)
    ensures Concat(SplitWhitespace(s)) == NonSpace(s)
    decreases |s|
  {
    var t := StripLeft(s);
    StripLeftNonSpace(s);
    if t == [] {
    } else {
      var n := WordLength(t);
      assert t == t[..n] + t[n..];
      NonSpaceAppend(t[..n], t[n..]);
      NonSpaceOfWord(t[..n]);
      SplitWhitespaceJoin(t[n..]);
      var ws := SplitWhitespace(s);
      assert ws == [t[..n]] + SplitWhitespace(t[n..]);
      assert ws[1..] == SplitWhitespace(t[n..]);
    }
  }

  /** `s.split()` is empty exactly when `s` is all whitespace. */
  lemma {:induction false} SplitWhitespaceEmpty(s: string)
    ensures SplitWhitespace(s) == [] <==> forall i :: 0 <= i < |s| ==> IsSpace(s[i])
  {
    StripLeftEmpty(s);
  }

  /** A word followed by a whitespace character is the first word of the
      split, and the rest splits on its own. */
  lemma {:induction false} SplitWhitespaceWord(w: string, c: char, rest: string)
    requires |w| > 0 && forall i :: 0 <= i < |w| ==> !IsSpace(w[i])
    requires IsSpace(c)
    ensures SplitWhitespace(w + [c] + rest) == [w] + SplitWhitespace(rest)
  {
    var s := w + [c] + rest;
    assert s[0] == w[0];
    StripLeftNoop(s);
    var n := WordLength(s);
    assert s[|w|] == c;
    assert n == |w|;
    assert s[..n] == w;
    assert s[n..] == [c] + rest;
    assert ([c] + rest)[1..] == rest;
  }

  function LowerChar(c: char): char
  {
    if 'A' <= c <= 'Z' then (c as int + 32) as char else c
  }

  /** Python's `s.lower()` on the ASCII letters. */
  function Lower(s: string): (r: string)
    ensures |r| == |s| && forall i :: 0 <= i < |s| ==> r[i] == LowerChar(s[i])
  {
    if s == [] then [] else [LowerChar(s[0])] + Lower(s[1..])
  }
}
