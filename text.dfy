/** The few string operations of Python's `str` that the bridge relies on. */
module Text {

  /** Python's `str.isspace()` for one character: the characters `str.strip()` removes. */
  predicate IsSpace(c: char) {
    || ('\t' <= c <= '\r')
    || ('\U{1C}' <= c <= ' ')
    || c == '\U{85}' || c == '\U{A0}' || c == '\U{1680}'
    || ('\U{2000}' <= c <= '\U{200A}')
    || c == '\U{2028}' || c == '\U{2029}' || c == '\U{202F}' || c == '\U{205F}' || c == '\U{3000}'
  }

  /** `s` without its leading whitespace. */
  function TrimStart(s: string): (r: string)
    ensures |r| <= |s| && r == s[|s| - |r|..]
    ensures forall i :: 0 <= i < |s| - |r| ==> IsSpace(s[i])
    ensures r == [] || !IsSpace(r[0])
  {
    if s != [] && IsSpace(s[0]) then TrimStart(s[1..]) else s
  }

  /** `s` without its trailing whitespace. */
  function TrimEnd(s: string): (r: string)
    ensures |r| <= |s| && r == s[..|r|]
    ensures forall i :: |r| <= i < |s| ==> IsSpace(s[i])
    ensures r == [] || !IsSpace(r[|r| - 1])
  {
    if s != [] && IsSpace(s[|s| - 1]) then TrimEnd(s[..|s| - 1]) else s
  }

  /** `t` sits in `s` at `lo` with only whitespace around it. */
  ghost predicate Padded(s: string, lo: int, t: string) {
    && 0 <= lo && lo + |t| <= |s| && s[lo..lo + |t|] == t
    && (forall i :: 0 <= i < lo ==> IsSpace(s[i]))
    && (forall i :: lo + |t| <= i < |s| ==> IsSpace(s[i]))
  }

  /** Python's `s.strip()`: `s` without the whitespace at either end. */
  function Strip(s: string): (r: string)
    ensures r == [] || (!IsSpace(r[0]) && !IsSpace(r[|r| - 1]))
    ensures exists lo :: Padded(s, lo, r)
  {
    StripPadded(s);
    StripEnds(s);
    TrimEnd(TrimStart(s))
  }

  /** The witness for `Strip`: what `TrimStart` drops is exactly the leading padding. */
  lemma StripPadded(s: string)
    ensures Padded(s, |s| - |TrimStart(s)|, TrimEnd(TrimStart(s)))
  {
    PaddedWithin(s, TrimStart(s), TrimEnd(TrimStart(s)));
  }

  /** Neither trimmed end is whitespace. */
  lemma StripEnds(s: string)
    ensures var r := TrimEnd(TrimStart(s));
            r == [] || (!IsSpace(r[0]) && !IsSpace(r[|r| - 1]))
  {
    var front := TrimStart(s);
    var r := TrimEnd(front);
    if r != [] {
      assert r[0] == front[0];
    }
  }

  /** Whitespace before a suffix `front` of `s` and after a prefix `r` of `front` pads `r` in `s`. */
  lemma PaddedWithin(s: string, front: string, r: string)
    requires |front| <= |s| && front == s[|s| - |front|..]
    requires forall i :: 0 <= i < |s| - |front| ==> IsSpace(s[i])
    requires |r| <= |front| && r == front[..|r|]
    requires forall i :: |r| <= i < |front| ==> IsSpace(front[i])
    ensures Padded(s, |s| - |front|, r)
  {
    var lo := |s| - |front|;
    assert s[lo..lo + |r|] == r;
    forall i | lo + |r| <= i < |s|
      ensures IsSpace(s[i])
    {
      assert s[i] == front[i - lo];
    }
  }

  /**
   * `strip()` is the only padded part without whitespace at either end:
   * whatever sits in `s` with only whitespace around it and does not
   * itself start or end with whitespace is `Strip(s)`.
   */
  lemma StripUnique(s: string, lo: int, t: string)
    requires Padded(s, lo, t)
    requires t == [] || (!IsSpace(t[0]) && !IsSpace(t[|t| - 1]))
    ensures Strip(s) == t
  {
    var r := Strip(s);
    var lo' :| Padded(s, lo', r);
    PaddedUnique(s, lo, t, lo', r);
  }

  /** Two parts of `s`, each padded by whitespace alone and neither starting nor ending with it, are equal. */
  lemma PaddedUnique(s: string, lo: int, t: string, lo': int, r: string)
    requires Padded(s, lo, t) && (t == [] || (!IsSpace(t[0]) && !IsSpace(t[|t| - 1])))
    requires Padded(s, lo', r) && (r == [] || (!IsSpace(r[0]) && !IsSpace(r[|r| - 1])))
    ensures t == r
  {
    assert r != [] ==> r[0] == s[lo'] && r[|r| - 1] == s[lo' + |r| - 1];
    assert t != [] ==> t[0] == s[lo] && t[|t| - 1] == s[lo + |t| - 1];
    if t != [] && r != [] {
      assert lo == lo';
      assert |t| == |r|;
    }
  }

  /** A string that neither starts nor ends with whitespace is its own `strip()`. */
  lemma StripUntrimmed(s: string)
    requires s == [] || (!IsSpace(s[0]) && !IsSpace(s[|s| - 1]))
    ensures Strip(s) == s
  {
  }

  /** Python's `s.rstrip(c)` for a single character `c`: every trailing `c` goes. */
  function RStrip(s: string, c: char): (r: string)
    ensures |r| <= |s| && r == s[..|r|]
    ensures forall i :: |r| <= i < |s| ==> s[i] == c
    ensures r == [] || r[|r| - 1] != c
  {
    if s != [] && s[|s| - 1] == c then RStrip(s[..|s| - 1], c) else s
  }

  /** Python's `str.upper()` on one character, for the ASCII letters. */
  function UpperChar(c: char): char {
    if 'a' <= c <= 'z' then (c as int - 32) as char else c
  }

  /**
   * Python's `s.upper()`, for the ASCII letters: each lower-case letter
   * becomes its capital, nothing else changes.
   */
  function Upper(s: string): (r: string)
    ensures |r| == |s|
    ensures forall i :: 0 <= i < |r| ==> !('a' <= r[i] <= 'z')
    ensures forall i :: 0 <= i < |s| && 'a' <= s[i] <= 'z' ==> 'A' <= r[i] <= 'Z' && r[i] as int + 32 == s[i] as int
    ensures forall i :: 0 <= i < |s| && !('a' <= s[i] <= 'z') ==> r[i] == s[i]
    ensures (forall i :: 0 <= i < |s| ==> !('a' <= s[i] <= 'z')) ==> r == s
  {
    seq(|s|, i requires 0 <= i < |s| => UpperChar(s[i]))
  }

  function DigitChar(d: nat): char
    requires d < 10
  {
    "0123456789"[d]
  }

  function Digits(n: nat): string
    decreases n
  {
    if n < 10 then [DigitChar(n)] else Digits(n / 10) + [DigitChar(n % 10)]
  }

  /** Python's `str(i)` for an integer. */
  function Decimal(i: int): string {
    if i < 0 then "-" + Digits(-i) else Digits(i)
  }

  /** Python's `sub in s` for two strings. */
  predicate Contains(s: string, sub: string)
    decreases |s|
  {
    |sub| <= |s| && (s[..|sub|] == sub || Contains(s[1..], sub))
  }
}
