/**
 * The Python string operations the source relies on, over ASCII text:
 * `str.lower`, `str.split()`, `str.replace`, `str.strip`, `str.join`, `str.isalnum`,
 * and the decimal rendering of a non-negative integer (`str(int)` / f-string).
 */
module Text {

  // ---------------------------------------------------------------- case

  predicate IsUpper(c: char) { 'A' <= c <= 'Z' }

  function LowerChar(c: char): char {
    if IsUpper(c) then (c as int + 32) as char else c
  }

  /** Python's `s.lower()`, restricted to ASCII letters. */
  function Lower(s: string): (r: string)
    ensures |r| == |s|
    ensures forall i :: 0 <= i < |s| ==> r[i] == LowerChar(s[i])
  {
    seq(|s|, i requires 0 <= i < |s| => LowerChar(s[i]))
  }

  predicate IsLower(c: char) { 'a' <= c <= 'z' }

  function UpperChar(c: char): char {
    if IsLower(c) then (c as int - 32) as char else c
  }

  /** Python's `s.capitalize()` over ASCII: the first character upper-cased, the rest lower-cased. */
  function Capitalize(s: string): (r: string)
    ensures |r| == |s|
    ensures |s| > 0 ==> r[0] == UpperChar(s[0]) && r[1..] == Lower(s[1..])
  {
    if s == [] then [] else [UpperChar(s[0])] + Lower(s[1..])
  }

  predicate NoUpper(s: string) {
    forall i :: 0 <= i < |s| ==> !IsUpper(s[i])
  }

  lemma LowerHasNoUpper(s: string)
    ensures NoUpper(Lower(s))
  {
  }

  lemma LowerOfLowercase(s: string)
    requires NoUpper(s)
    ensures Lower(s) == s
  {
  }

  /** Python's `c.isalnum()`, restricted to ASCII. */
  predicate IsAlnum(c: char) {
    ('a' <= c <= 'z') || ('A' <= c <= 'Z') || ('0' <= c <= '9')
  }

  // ---------------------------------------------------------------- split()

  /** The ASCII characters Python's `str.split()` treats as whitespace. */
  predicate IsSpace(c: char) {
    c == ' ' || c == '\t' || c == '\n' || c == '\r' || c == '\U{B}' || c == '\U{C}'
    || ('\U{1C}' <= c <= '\U{1F}')
  }

  predicate NoSpace(s: string) {
    forall i :: 0 <= i < |s| ==> !IsSpace(s[i])
  }

  /** `s` without its leading whitespace. */
  function DropSpaces(s: string): (r: string)
    ensures |r| <= |s| && r == s[|s| - |r|..]
    ensures r == [] || !IsSpace(r[0])
  {
    if s != [] && IsSpace(s[0]) then DropSpaces(s[1..]) else s
  }

  /** The longest prefix of `s` that holds no whitespace. */
  function WordPrefix(s: string): (w: string)
    ensures w <= s && NoSpace(w)
    ensures |w| == |s| || IsSpace(s[|w|])
  {
    if s == [] || IsSpace(s[0]) then [] else [s[0]] + WordPrefix(s[1..])
  }

  /** Python's `s.split()`: the maximal runs of non-whitespace characters, in order. */
  function Words(s: string): seq<string>
    decreases |s|
  {
    var t := DropSpaces(s);
    if t == [] then []
    else
      var w := WordPrefix(t);
      assert |w| > 0 by { assert t[0] == w[0] || |w| == 0; }
      [w] + Words(t[|w|..])
  }

  /** Every piece `split()` returns is non-empty and holds no whitespace. */
  lemma {:induction false} WordsAreWords(s: string)
    ensures forall w :: w in Words(s) ==> w != [] && NoSpace(w)
    decreases |s|
  {
    var t := DropSpaces(s);
    if t != [] {
      var w := WordPrefix(t);
      assert w == [t[0]] + WordPrefix(t[1..]);
      var rest := t[|w|..];
      WordsAreWords(rest);
      assert Words(s) == [w] + Words(rest);
      forall x | x in Words(s) ensures x != [] && NoSpace(x) {
        if x != w {
          assert x in Words(rest);
        }
      }
    }
  }

  /** A slice of a text without upper-case letters has none either. */
  lemma NoUpperSlice(s: string, i: nat, j: nat)
    requires NoUpper(s) && i <= j <= |s|
    ensures NoUpper(s[i..j])
  {
    forall k | 0 <= k < j - i ensures !IsUpper(s[i..j][k]) {
      assert s[i..j][k] == s[i + k];
    }
  }

  /** Splitting a lower-case text gives lower-case words. */
  lemma {:induction false} WordsOfLowercase(s: string)
    requires NoUpper(s)
    ensures forall w :: w in Words(s) ==> NoUpper(w)
    decreases |s|
  {
    var t := DropSpaces(s);
    if t != [] {
      var w := WordPrefix(t);
      assert |w| > 0 by { assert t[0] == w[0] || |w| == 0; }
      var rest := t[|w|..];
      assert NoUpper(w) && NoUpper(rest) by {
        NoUpperSlice(s, |s| - |t|, |s|);
        assert t == s[|s| - |t|..|s|];
        NoUpperSlice(t, 0, |w|);
        assert w == t[0..|w|];
        NoUpperSlice(t, |w|, |t|);
        assert rest == t[|w|..|t|];
      }
      WordsOfLowercase(rest);
      assert Words(s) == [w] + Words(rest);
    }
  }

  /** A single word splits into itself. */
  lemma WordsOfWord(w: string)
    requires w != [] && NoSpace(w)
    ensures Words(w) == [w]
  {
    assert DropSpaces(w) == w;
    WordOfWordPrefix(w);
    assert w[|w|..] == [];
  }

  lemma {:induction false} WordOfWordPrefix(w: string)
    requires NoSpace(w)
    ensures WordPrefix(w) == w
  {
    if w != [] {
      WordOfWordPrefix(w[1..]);
    }
  }

  // ---------------------------------------------------------------- replace

  /** Whether the non-empty pattern `pat` occurs in `s`. */
  predicate Occurs(s: string, pat: string)
    requires |pat| > 0
    decreases |s|
  {
    |pat| <= |s| && (s[..|pat|] == pat || Occurs(s[1..], pat))
  }

  /** Python's `pat in s`: the empty pattern occurs in every string. */
  predicate Contains(s: string, pat: string) {
    pat == [] || Occurs(s, pat)
  }

  /**
   * Python's `s.replace(pat, rep)`. A non-empty pattern is replaced at every
   * non-overlapping occurrence, scanning left to right; the empty pattern matches
   * before every character and at the end (`"ab".replace("", "X") == "XaXbX"`).
   */
  function Replace(s: string, pat: string, rep: string): string {
    if pat == [] then Interleave(s, rep) else ScanReplace(s, pat, rep)
  }

  /** `rep` before every character of `s` and once more at its end. */
  function Interleave(s: string, rep: string): (r: string)
    ensures |r| == |s| + (|s| + 1) * |rep|
  {
    if s == [] then rep else rep + [s[0]] + Interleave(s[1..], rep)
  }

  function ScanReplace(s: string, pat: string, rep: string): string
    requires |pat| > 0
    decreases |s|
  {
    if |s| < |pat| then s
    else if s[..|pat|] == pat then rep + ScanReplace(s[|pat|..], pat, rep)
    else [s[0]] + ScanReplace(s[1..], pat, rep)
  }

  /** The number of occurrences `ScanReplace` rewrites. */
  function Occurrences(s: string, pat: string): nat
    requires |pat| > 0
    decreases |s|
  {
    if |s| < |pat| then 0
    else if s[..|pat|] == pat then 1 + Occurrences(s[|pat|..], pat)
    else Occurrences(s[1..], pat)
  }

  lemma {:induction false} ScanReplaceLength(s: string, pat: string, rep: string)
    requires |pat| > 0
    ensures |ScanReplace(s, pat, rep)| == |s| + Occurrences(s, pat) * (|rep| - |pat|)
    decreases |s|
  {
    if |s| < |pat| {
    } else if s[..|pat|] == pat {
      ScanReplaceLength(s[|pat|..], pat, rep);
      MulSucc(Occurrences(s[|pat|..], pat), |rep| - |pat|);
    } else {
      ScanReplaceLength(s[1..], pat, rep);
    }
  }

  lemma MulSucc(k: int, d: int)
    ensures (1 + k) * d == k * d + d
  {
  }

  /** Replacing a pattern the text does not contain leaves the text as it was. */
  lemma {:induction false} ScanReplaceAbsent(s: string, pat: string, rep: string)
    requires |pat| > 0 && !Occurs(s, pat)
    ensures ScanReplace(s, pat, rep) == s
    decreases |s|
  {
    if |s| >= |pat| {
      ScanReplaceAbsent(s[1..], pat, rep);
      assert [s[0]] + s[1..] == s;
    }
  }

  /** Replacing a pattern by itself leaves the text as it was. */
  lemma {:induction false} ScanReplaceBySelf(s: string, pat: string)
    requires |pat| > 0
    ensures ScanReplace(s, pat, pat) == s
    decreases |s|
  {
    if |s| < |pat| {
    } else if s[..|pat|] == pat {
      ScanReplaceBySelf(s[|pat|..], pat);
      assert s[..|pat|] + s[|pat|..] == s;
    } else {
      ScanReplaceBySelf(s[1..], pat);
      assert [s[0]] + s[1..] == s;
    }
  }

  /** Replacing a pattern the text contains by a different string changes the text. */
  lemma {:induction false} ScanReplacePresent(s: string, pat: string, rep: string)
    requires |pat| > 0 && Occurs(s, pat) && rep != pat
    ensures ScanReplace(s, pat, rep) != s
    decreases |s|
  {
    var r := ScanReplace(s, pat, rep);
    if s[..|pat|] == pat {
      if |rep| == |pat| {
        assert r[..|rep|] == rep;
        assert s[..|pat|] == pat;
      } else {
        ScanReplaceLength(s, pat, rep);
        assert Occurrences(s, pat) >= 1;
        assert Occurrences(s, pat) * (|rep| - |pat|) != 0;
      }
    } else {
      ScanReplacePresent(s[1..], pat, rep);
      assert r[1..] == ScanReplace(s[1..], pat, rep);
    }
  }

  /**
   * `s.replace(pat, rep) == s` exactly when `pat` does not occur in `s` or `rep` equals
   * `pat`: the test the cache's question rewrite uses to decide whether a substitution happened.
   */
  lemma ReplaceUnchangedIff(s: string, pat: string, rep: string)
    ensures Replace(s, pat, rep) == s <==> (!Contains(s, pat) || rep == pat)
  {
    if pat == [] {
      assert rep != [] ==> |Interleave(s, rep)| != |s|;
      if rep == [] {
        InterleaveEmpty(s);
      }
    } else if !Occurs(s, pat) {
      ScanReplaceAbsent(s, pat, rep);
    } else if rep == pat {
      ScanReplaceBySelf(s, pat);
    } else {
      ScanReplacePresent(s, pat, rep);
    }
  }

  lemma {:induction false} InterleaveEmpty(s: string)
    ensures Interleave(s, "") == s
  {
    if s != [] {
      InterleaveEmpty(s[1..]);
      assert [s[0]] + s[1..] == s;
    }
  }

  /** Every occurrence of the character `c` in `s` turned into `rep`, one character at a time. */
  function MapChar(s: string, c: char, rep: string): string {
    if s == [] then [] else (if s[0] == c then rep else [s[0]]) + MapChar(s[1..], c, rep)
  }

  lemma {:induction false} MapCharAppend(a: string, b: string, c: char, rep: string)
    ensures MapChar(a + b, c, rep) == MapChar(a, c, rep) + MapChar(b, c, rep)
  {
    if a == [] {
      assert a + b == b;
    } else {
      var head := if a[0] == c then rep else [a[0]];
      MapCharAppend(a[1..], b, c, rep);
      assert (a + b)[0] == a[0] && (a + b)[1..] == a[1..] + b;
      calc {
        MapChar(a + b, c, rep);
        head + MapChar(a[1..] + b, c, rep);
        head + (MapChar(a[1..], c, rep) + MapChar(b, c, rep));
        (head + MapChar(a[1..], c, rep)) + MapChar(b, c, rep);
        MapChar(a, c, rep) + MapChar(b, c, rep);
      }
    }
  }

  /** Replacing a one-character pattern rewrites the text character by character. */
  lemma {:induction false} ReplaceCharIsMap(s: string, c: char, rep: string)
    ensures Replace(s, [c], rep) == MapChar(s, c, rep)
  {
    if s != [] {
      ReplaceCharIsMap(s[1..], c, rep);
      assert s[..1] == [c] <==> s[0] == c;
    }
  }

  // ---------------------------------------------------------------- strip / join

  /** `s` without its leading characters in `cs`: exactly the characters dropped are in `cs`. */
  function StripLeft(s: string, cs: set<char>): (r: string)
    ensures r == [] || r[0] !in cs
    ensures |r| <= |s| && r == s[|s| - |r|..]
    ensures forall k :: 0 <= k < |s| - |r| ==> s[k] in cs
  {
    if s != [] && s[0] in cs then StripLeft(s[1..], cs) else s
  }

  /** `s` without its trailing characters in `cs`: exactly the characters dropped are in `cs`. */
  function StripRight(s: string, cs: set<char>): (r: string)
    ensures r == [] || r[|r| - 1] !in cs
    ensures r <= s
    ensures forall k :: |r| <= k < |s| ==> s[k] in cs
  {
    if s != [] && s[|s| - 1] in cs then StripRight(s[..|s| - 1], cs) else s
  }

  /**
   * `r` is the slice of `s` that starts at `i`, and every character of `s` outside that
   * slice is in `cs`.
   */
  predicate TrimmedAt(s: string, cs: set<char>, i: int, r: string) {
    0 <= i <= |s| - |r| && r == s[i..i + |r|]
    && (forall k :: 0 <= k < i ==> s[k] in cs)
    && (forall k :: i + |r| <= k < |s| ==> s[k] in cs)
  }

  /** Trimming a prefix of `cs` characters and then a suffix of them trims `s` at that offset. */
  lemma TrimmedInTwoSteps(s: string, cs: set<char>, l: string, r: string)
    requires |l| <= |s| && l == s[|s| - |l|..]
    requires forall k :: 0 <= k < |s| - |l| ==> s[k] in cs
    requires r <= l && forall k :: |r| <= k < |l| ==> l[k] in cs
    ensures TrimmedAt(s, cs, |s| - |l|, r)
  {
    var i := |s| - |l|;
    forall k | i + |r| <= k < |s| ensures s[k] in cs {
      assert s[k] == l[k - i];
    }
  }

  /**
   * Python's `s.strip(chars)`: the slice of `s` left once every leading and every trailing
   * character in `cs` is removed, and no more.
   */
  function Strip(s: string, cs: set<char>): (r: string)
    ensures r == [] || (r[0] !in cs && r[|r| - 1] !in cs)
    ensures exists i :: TrimmedAt(s, cs, i, r)
  {
    var l := StripLeft(s, cs);
    var r := StripRight(l, cs);
    assert r == [] || r[0] == l[0];
    TrimmedInTwoSteps(s, cs, l, r);
    r
  }

  /** Python's `sep.join(parts)`. */
  function Join(sep: string, parts: seq<string>): string {
    if parts == [] then ""
    else if |parts| == 1 then parts[0]
    else parts[0] + sep + Join(sep, parts[1..])
  }

  // ---------------------------------------------------------------- decimal numbers

  predicate IsDigit(c: char) { '0' <= c <= '9' }

  predicate AllDigits(s: string) {
    forall i :: 0 <= i < |s| ==> IsDigit(s[i])
  }

  function DigitChar(d: nat): (c: char)
    requires d < 10
    ensures IsDigit(c)
  {
    (48 + d) as char
  }

  function DigitValue(c: char): (d: nat)
    requires IsDigit(c)
    ensures d < 10
  {
    c as int - 48
  }

  /** The decimal rendering of `n`, as Python's `str(n)` gives it for `n >= 0`. */
  function Decimal(n: nat): (s: string)
    ensures |s| > 0 && AllDigits(s)
  {
    if n < 10 then [DigitChar(n)] else Decimal(n / 10) + [DigitChar(n % 10)]
  }

  /** The value of a string of decimal digits (Python's `int(s)`; 0 for the empty string). */
  function ParseDecimal(s: string): nat
    requires AllDigits(s)
  {
    if s == [] then 0 else ParseDecimal(s[..|s| - 1]) * 10 + DigitValue(s[|s| - 1])
  }

  /** Parsing a rendered number gives the number back. */
  lemma {:induction false} DecimalRoundTrip(n: nat)
    ensures ParseDecimal(Decimal(n)) == n
  {
    if n >= 10 {
      DecimalRoundTrip(n / 10);
      var s := Decimal(n);
      assert s[..|s| - 1] == Decimal(n / 10);
    }
  }

  /** Distinct numbers render differently. */
  lemma DecimalInjective(a: nat, b: nat)
    requires a != b
    ensures Decimal(a) != Decimal(b)
  {
    DecimalRoundTrip(a);
    DecimalRoundTrip(b);
  }
}
