/** String helpers with the meaning of the Python built-ins the source uses:
    str.replace, slicing, str.join, str.split, str.strip, str.lower/upper,
    str() of an int, and the fixed-point formats ":.0f" and ":.1f". */
module Text {

  // ---------------------------------------------------------------------------
  // str.replace
  // ---------------------------------------------------------------------------

  /** `s.replace(pat, rep)`: every non-overlapping occurrence, scanning left to
      right; an empty pattern inserts `rep` before every character and at the end. */
  function Replace(s: string, pat: string, rep: string): string
    decreases |s|
  {
    if pat == [] then
      (if s == [] then rep else rep + [s[0]] + Replace(s[1..], pat, rep))
    else if |pat| <= |s| && s[..|pat|] == pat then
      rep + Replace(s[|pat|..], pat, rep)
    else if s == [] then
      []
    else
      [s[0]] + Replace(s[1..], pat, rep)
  }

  /** Replacing a one-character pattern by a different character leaves no
      occurrence of it. */
  lemma {:induction false} ReplaceCharRemoves(s: string, c: char, d: char)
    requires c != d
    ensures c !in Replace(s, [c], [d])
  {
    if s != [] {
      ReplaceCharRemoves(s[1..], c, d);
      if s[..1] == [c] {
        assert s[1..] == s[|[c]|..];
      }
    }
  }

  /** `pat` occurs in `s` at position `i`. */
  predicate OccursAt(s: string, pat: string, i: nat) {
    i + |pat| <= |s| && s[i..i + |pat|] == pat
  }

  /** `s` holds no occurrence of `pat`. */
  predicate Absent(s: string, pat: string) {
    forall i: nat | i <= |s| :: !OccursAt(s, pat, i)
  }

  /** Replacing a pattern that does not occur changes nothing. */
  lemma {:induction false} ReplaceAbsent(s: string, pat: string, rep: string)
    requires pat != [] && Absent(s, pat)
    ensures Replace(s, pat, rep) == s
    decreases |s|
  {
    if s != [] {
      assert !OccursAt(s, pat, 0);
      forall i: nat | i <= |s[1..]|
        ensures !OccursAt(s[1..], pat, i)
      {
        assert !OccursAt(s, pat, i + 1);
        if i + |pat| <= |s[1..]| {
          assert s[1..][i..i + |pat|] == s[i + 1..i + 1 + |pat|];
        }
      }
      ReplaceAbsent(s[1..], pat, rep);
    }
  }

  /** A leading occurrence is replaced and the scan continues after it. */
  lemma ReplaceLeading(pat: string, rest: string, rep: string)
    requires pat != []
    ensures Replace(pat + rest, pat, rep) == rep + Replace(rest, pat, rep)
  {
    var s := pat + rest;
    assert s[..|pat|] == pat && s[|pat|..] == rest;
  }

  // ---------------------------------------------------------------------------
  // slicing, join, split
  // ---------------------------------------------------------------------------

  /** `s[:n]` for n >= 0. */
  function Take(s: string, n: nat): (r: string)
    ensures |r| == if |s| <= n then |s| else n
    ensures r <= s
  {
    if |s| <= n then s else s[..n]
  }

  /** `sep.join(parts)`. */
  function Join(parts: seq<string>, sep: string): string
    decreases |parts|
  {
    if |parts| == 0 then ""
    else if |parts| == 1 then parts[0]
    else parts[0] + sep + Join(parts[1..], sep)
  }

  /** The number of occurrences of `c` in `s`. */
  function Count(s: string, c: char): nat
    decreases |s|
  {
    if s == [] then 0 else (if s[0] == c then 1 else 0) + Count(s[1..], c)
  }

  /** `s.split(c)` for a one-character separator: the pieces between separators,
      empty pieces included, so "" gives [""] and "a," gives ["a", ""]. */
  function Split(s: string, c: char): (r: seq<string>)
    ensures |r| >= 1
    decreases |s|
  {
    if s == [] then [""]
    else if s[0] == c then [""] + Split(s[1..], c)
    else
      var rest := Split(s[1..], c);
      [[s[0]] + rest[0]] + rest[1..]
  }

  /** Splitting yields one more piece than there are separators. */
  lemma {:induction false} SplitCount(s: string, c: char)
    ensures |Split(s, c)| == Count(s, c) + 1
  {
    if s != [] {
      SplitCount(s[1..], c);
    }
  }

  /** No piece contains the separator. */
  lemma {:induction false} SplitPiecesFree(s: string, c: char)
    ensures forall i :: 0 <= i < |Split(s, c)| ==> c !in Split(s, c)[i]
  {
    if s != [] {
      SplitPiecesFree(s[1..], c);
      if s[0] != c {
        var rest := Split(s[1..], c);
        assert c !in rest[0];
        assert c !in [s[0]] + rest[0];
      }
    }
  }

  /** Joining the pieces with the separator gives back the string. */
  lemma {:induction false} SplitJoin(s: string, c: char)
    ensures Join(Split(s, c), [c]) == s
  {
    if s != [] {
      SplitJoin(s[1..], c);
      var rest := Split(s[1..], c);
      if s[0] == c {
        assert Split(s, c) == [""] + rest;
        assert Join([""] + rest, [c]) == "" + [c] + Join(rest, [c]);
      } else {
        var r := Split(s, c);
        assert r == [[s[0]] + rest[0]] + rest[1..];
        if |rest| == 1 {
          assert Join(rest, [c]) == rest[0];
        } else {
          assert Join(rest, [c]) == rest[0] + [c] + Join(rest[1..], [c]);
          assert r[1..] == rest[1..];
        }
      }
    }
  }

  // ---------------------------------------------------------------------------
  // strip, lower, upper
  // ---------------------------------------------------------------------------

  /** The characters Python's str.isspace() accepts. */
  predicate IsSpace(c: char) {
    ('\U{0009}' <= c <= '\U{000D}') || ('\U{001C}' <= c <= '\U{001F}') || c == ' ' ||
    c == '\U{0085}' || c == '\U{00A0}' || c == '\U{1680}' ||
    ('\U{2000}' <= c <= '\U{200A}') || c == '\U{2028}' || c == '\U{2029}' ||
    c == '\U{202F}' || c == '\U{205F}' || c == '\U{3000}'
  }

  /** The index of the first character of `s[k..]` that is not whitespace
      (`|s|` when there is none). */
  function StripStart(s: string, k: nat): (r: nat)
    requires k <= |s|
    ensures k <= r <= |s|
    ensures forall i :: k <= i < r ==> IsSpace(s[i])
    ensures r < |s| ==> !IsSpace(s[r])
    decreases |s| - k
  {
    if k < |s| && IsSpace(s[k]) then StripStart(s, k + 1) else k
  }

  /** The index just after the last character of `s[lo..j]` that is not
      whitespace (`lo` when there is none). */
  function StripEnd(s: string, lo: nat, j: nat): (r: nat)
    requires lo <= j <= |s|
    ensures lo <= r <= j
    ensures forall i :: r <= i < j ==> IsSpace(s[i])
    ensures r > lo ==> !IsSpace(s[r - 1])
    decreases j - lo
  {
    if j > lo && IsSpace(s[j - 1]) then StripEnd(s, lo, j - 1) else j
  }

  /** `s.strip()`: the slice of `s` left once the whitespace run at each end
      is removed; it neither starts nor ends with whitespace, and is `s`
      itself when `s` holds no whitespace at all. */
  function Strip(s: string): (r: string)
    ensures var i := StripStart(s, 0);
      var j := StripEnd(s, i, |s|);
      r == s[i..j] &&
      (forall k :: 0 <= k < i ==> IsSpace(s[k])) &&
      (forall k :: j <= k < |s| ==> IsSpace(s[k]))
    ensures r != [] ==> !IsSpace(r[0]) && !IsSpace(r[|r| - 1])
    ensures (forall i :: 0 <= i < |s| ==> !IsSpace(s[i])) ==> r == s
  {
    var i := StripStart(s, 0);
    var j := StripEnd(s, i, |s|);
    s[i..j]
  }

  /** ASCII lower case of one character. */
  function LowerChar(c: char): char {
    if 'A' <= c <= 'Z' then (c as int + 32) as char else c
  }

  /** ASCII upper case of one character. */
  function UpperChar(c: char): char {
    if 'a' <= c <= 'z' then (c as int - 32) as char else c
  }

  /** `s.lower()` on the ASCII letters. */
  function Lower(s: string): (r: string)
    ensures |r| == |s|
    ensures forall i :: 0 <= i < |s| ==> r[i] == LowerChar(s[i])
  {
    seq(|s|, i requires 0 <= i < |s| => LowerChar(s[i]))
  }

  /** `s.upper()` on the ASCII letters. */
  function Upper(s: string): (r: string)
    ensures |r| == |s|
    ensures forall i :: 0 <= i < |s| ==> r[i] == UpperChar(s[i])
  {
    seq(|s|, i requires 0 <= i < |s| => UpperChar(s[i]))
  }

  // ---------------------------------------------------------------------------
  // numbers to text
  // ---------------------------------------------------------------------------

  function DigitChar(d: nat): (c: char)
    requires d < 10
    ensures '0' <= c <= '9' && c as int - '0' as int == d
  {
    ('0' as int + d) as char
  }

  /** `str(n)` for a natural number. */
  function NatToString(n: nat): (r: string)
    ensures |r| >= 1
    ensures forall i :: 0 <= i < |r| ==> '0' <= r[i] <= '9'
    decreases n
  {
    if n < 10 then [DigitChar(n)] else NatToString(n / 10) + [DigitChar(n % 10)]
  }

  /** The value of a string of decimal digits, read left to right. */
  function DigitsValue(s: string): nat
    requires forall i :: 0 <= i < |s| ==> '0' <= s[i] <= '9'
    decreases |s|
  {
    if s == [] then 0
    else DigitsValue(s[..|s| - 1]) * 10 + (s[|s| - 1] as int - '0' as int)
  }

  /** Reading back the digits printed for `n` gives `n`. */
  lemma {:induction false} NatToStringRoundTrip(n: nat)
    ensures DigitsValue(NatToString(n)) == n
    decreases n
  {
    if n >= 10 {
      NatToStringRoundTrip(n / 10);
      var s := NatToString(n);
      assert s[..|s| - 1] == NatToString(n / 10);
    }
  }

  /** `str(i)` for an integer. */
  function IntToString(i: int): string {
    if i < 0 then "-" + NatToString(-i) else NatToString(i)
  }

  /** The integer nearest to `x`, ties to the even one (the rounding of
      Python's fixed-point formats). */
  function RoundHalfEven(x: real): (r: int)
    ensures x - 0.5 <= r as real <= x + 0.5
    ensures r as real == x - 0.5 || r as real == x + 0.5 ==> r % 2 == 0
  {
    var f := x.Floor;
    var frac := x - f as real;
    if frac < 0.5 then f
    else if frac > 0.5 then f + 1
    else if f % 2 == 0 then f
    else f + 1
  }

  /** `f"{x:.0f}"`; a negative value that rounds to zero prints as "-0". */
  function Fixed0(x: real): string {
    var n := RoundHalfEven(x);
    if x < 0.0 then "-" + NatToString(if n <= 0 then -n else 0) else NatToString(if n >= 0 then n else 0)
  }

  /** `f"{x:.1f}"`. */
  function Fixed1(x: real): string {
    var n := RoundHalfEven(x * 10.0);
    var m: nat := if n < 0 then -n else n;
    (if x < 0.0 then "-" else "") + NatToString(m / 10) + "." + [DigitChar(m % 10)]
  }

  /** `f"{x:.3f}"`. */
  function Fixed3(x: real): string {
    var n := RoundHalfEven(x * 1000.0);
    var m: nat := if n < 0 then -n else n;
    var f := m % 1000;
    (if x < 0.0 then "-" else "") + NatToString(m / 1000) + "." +
    [DigitChar(f / 100), DigitChar(f / 10 % 10), DigitChar(f % 10)]
  }

  /** The position of the first character that is not a decimal digit. */
  function FirstNonDigit(s: string): (r: nat)
    ensures r <= |s|
    ensures forall i :: 0 <= i < r ==> '0' <= s[i] <= '9'
    decreases |s|
  {
    if s == [] || !('0' <= s[0] <= '9') then 0 else 1 + FirstNonDigit(s[1..])
  }

  lemma {:induction false} FirstNonDigitAfter(digits: string, rest: string)
    requires forall i :: 0 <= i < |digits| ==> '0' <= digits[i] <= '9'
    requires rest != [] && !('0' <= rest[0] <= '9')
    ensures FirstNonDigit(digits + rest) == |digits|
    decreases |digits|
  {
    if digits != [] {
      assert (digits + rest)[1..] == digits[1..] + rest;
      FirstNonDigitAfter(digits[1..], rest);
    } else {
      assert digits + rest == rest;
    }
  }

  /** A number printed in front of a non-digit can be read back: equal texts
      of that shape carry equal numbers. */
  lemma NumberPrefixInjective(m: nat, n: nat, t1: string, t2: string)
    requires t1 != [] && t2 != [] && !('0' <= t1[0] <= '9') && !('0' <= t2[0] <= '9')
    requires NatToString(m) + t1 == NatToString(n) + t2
    ensures m == n
  {
    var a, b := NatToString(m), NatToString(n);
    FirstNonDigitAfter(a, t1);
    FirstNonDigitAfter(b, t2);
    assert |a| == |b|;
    assert a == (a + t1)[..|a|] == (b + t2)[..|b|] == b;
    NatToStringRoundTrip(m);
    NatToStringRoundTrip(n);
  }
}
