/**
 * Small building blocks shared by the models: an Option type, the ASCII
 * character classes the source's string operations rely on, substring search,
 * whitespace splitting in the manner of a string's `split()` with no
 * argument, and decimal conversion between numbers and digit strings.
 */
module Common {

  datatype Option<T> = None | Some(value: T)

  /** A map lookup that reports a missing key as None. */
  function Get<K, V>(m: map<K, V>, key: K): (r: Option<V>)
    ensures r.Some? <==> key in m
    ensures r.Some? ==> r.value == m[key]
  {
    if key in m then Some(m[key]) else None
  }

  /** A map lookup with a default, as a dictionary's `get(key, default)`. */
  function GetOr<K, V>(m: map<K, V>, key: K, default: V): (r: V)
    ensures key in m ==> r == m[key]
    ensures key !in m ==> r == default
  {
    if key in m then m[key] else default
  }

  // ---------------------------------------------------------------------------
  // Character classes
  // ---------------------------------------------------------------------------

  predicate IsUpper(c: char) { 'A' <= c <= 'Z' }

  predicate IsLetter(c: char) { 'a' <= c <= 'z' || 'A' <= c <= 'Z' }

  predicate IsDigit(c: char) { '0' <= c <= '9' }

  /** A character of the regular-expression class `\w`, restricted to ASCII. */
  predicate IsWordChar(c: char) { IsLetter(c) || IsDigit(c) || c == '_' }

  /**
   * The whitespace characters of `str.isspace()` (and so of `str.split()` and
   * of the regular-expression class `\s`).
   */
  predicate IsSpace(c: char)
  {
    || c == ' '
    || ('\U{0009}' <= c <= '\U{000D}')
    || ('\U{001C}' <= c <= '\U{001F}')
    || c == '\U{0085}' || c == '\U{00A0}' || c == '\U{1680}'
    || ('\U{2000}' <= c <= '\U{200A}')
    || c == '\U{2028}' || c == '\U{2029}' || c == '\U{202F}'
    || c == '\U{205F}' || c == '\U{3000}'
  }

  function LowerChar(c: char): (r: char)
    ensures !IsUpper(r)
    ensures !IsUpper(c) ==> r == c
    ensures IsUpper(c) ==> r as int == c as int + 32
  {
    if IsUpper(c) then (c as int + 32) as char else c
  }

  /** `str.lower()` on the ASCII letters; every other character is kept. */
  function Lower(s: string): (r: string)
    ensures |r| == |s|
    ensures forall i :: 0 <= i < |r| ==> !IsUpper(r[i])
    ensures forall i :: 0 <= i < |s| && !IsUpper(s[i]) ==> r[i] == s[i]
    ensures forall i :: 0 <= i < |s| ==> r[i] == LowerChar(s[i])
  {
    seq(|s|, i requires 0 <= i < |s| => LowerChar(s[i]))
  }

  predicate AllDigits(s: string)
  {
    forall i :: 0 <= i < |s| ==> IsDigit(s[i])
  }

  /** `str.isdigit()` on ASCII: non-empty and made of digits only. */
  predicate IsDigitWord(s: string)
  {
    |s| > 0 && AllDigits(s)
  }

  // ---------------------------------------------------------------------------
  // Substrings
  // ---------------------------------------------------------------------------

  /** `w` occurs in `s` starting at position `i`. */
  predicate OccursAt(s: string, i: int, w: string)
  {
    0 <= i && i + |w| <= |s| && s[i..i + |w|] == w
  }

  /** The `in` operator on strings: `w` is a substring of `s`. */
  predicate Contains(s: string, w: string)
  {
    exists i :: 0 <= i <= |s| && OccursAt(s, i, w)
  }

  /** A string occurs in any string built around it. */
  lemma ContainsMiddle(front: string, w: string, back: string)
    ensures Contains(front + w + back, w)
  {
    assert OccursAt(front + w + back, |front|, w);
  }

  /** A one-hole template filled in: the hole occurs in the result. */
  function Fill1(p0: string, x: string, p1: string): (r: string)
    ensures Contains(r, x)
    ensures |r| == |p0| + |x| + |p1|
    ensures r[..|p0|] == p0
    ensures |p0| > 0 ==> r[0] == p0[0]
    ensures |p1| > 0 ==> r[|r| - 1] == p1[|p1| - 1]
  {
    ContainsMiddle(p0, x, p1);
    p0 + x + p1
  }

  /** A two-hole template filled in: both holes occur in the result. */
  function Fill2(p0: string, x: string, p1: string, y: string, p2: string): (r: string)
    ensures Contains(r, x) && Contains(r, y)
    ensures |r| == |p0| + |x| + |p1| + |y| + |p2|
    ensures r[..|p0|] == p0
    ensures |p0| > 0 ==> r[0] == p0[0]
    ensures |p2| > 0 ==> r[|r| - 1] == p2[|p2| - 1]
  {
    assert p0 + x + p1 + y + p2 == p0 + x + (p1 + y + p2);
    ContainsMiddle(p0, x, p1 + y + p2);
    ContainsMiddle(p0 + x + p1, y, p2);
    p0 + x + p1 + y + p2
  }

  /** A three-hole template filled in: all three holes occur in the result. */
  function Fill3(p0: string, x: string, p1: string, y: string, p2: string, z: string, p3: string): (r: string)
    ensures Contains(r, x) && Contains(r, y) && Contains(r, z)
    ensures |r| == |p0| + |x| + |p1| + |y| + |p2| + |z| + |p3|
    ensures r[..|p0|] == p0
    ensures |p0| > 0 ==> r[0] == p0[0]
    ensures |p3| > 0 ==> r[|r| - 1] == p3[|p3| - 1]
  {
    var s := p0 + x + p1 + y + p2 + z + p3;
    assert s == p0 + x + (p1 + y + p2 + z + p3);
    ContainsMiddle(p0, x, p1 + y + p2 + z + p3);
    assert s == p0 + x + p1 + y + (p2 + z + p3);
    ContainsMiddle(p0 + x + p1, y, p2 + z + p3);
    ContainsMiddle(p0 + x + p1 + y + p2, z, p3);
    s
  }

  /** The position of the first character at or after `i` that fails `IsSpace`. */
  function SkipSpaces(s: string, i: nat): (j: nat)
    requires i <= |s|
    ensures i <= j <= |s|
    ensures forall k :: i <= k < j ==> IsSpace(s[k])
    ensures j == |s| || !IsSpace(s[j])
    decreases |s| - i
  {
    if i == |s| || !IsSpace(s[i]) then i else SkipSpaces(s, i + 1)
  }

  /** The end of the run of digits that starts at `i`. */
  function SkipDigits(s: string, i: nat): (j: nat)
    requires i <= |s|
    ensures i <= j <= |s|
    ensures forall k :: i <= k < j ==> IsDigit(s[k])
    ensures j == |s| || !IsDigit(s[j])
    decreases |s| - i
  {
    if i == |s| || !IsDigit(s[i]) then i else SkipDigits(s, i + 1)
  }

  /** The end of the run of ASCII letters that starts at `i`. */
  function SkipLetters(s: string, i: nat): (j: nat)
    requires i <= |s|
    ensures i <= j <= |s|
    ensures forall k :: i <= k < j ==> IsLetter(s[k])
    ensures j == |s| || !IsLetter(s[j])
    decreases |s| - i
  {
    if i == |s| || !IsLetter(s[i]) then i else SkipLetters(s, i + 1)
  }

  // ---------------------------------------------------------------------------
  // Whitespace splitting
  // ---------------------------------------------------------------------------

  /** The end of the run of non-whitespace characters that starts at `i`. */
  function SkipWord(s: string, i: nat): (j: nat)
    requires i <= |s|
    ensures i <= j <= |s|
    ensures forall k :: i <= k < j ==> !IsSpace(s[k])
    ensures j == |s| || IsSpace(s[j])
    decreases |s| - i
  {
    if i == |s| || IsSpace(s[i]) then i else SkipWord(s, i + 1)
  }

  /** Every character of `s` is whitespace. */
  predicate AllSpace(s: string)
  {
    forall i :: 0 <= i < |s| ==> IsSpace(s[i])
  }

  /** A non-empty run of non-whitespace characters. */
  predicate IsWord(w: string)
  {
    |w| > 0 && forall j :: 0 <= j < |w| ==> !IsSpace(w[j])
  }

  /** The characters of `s` from `i` to `j` form a word. */
  lemma SliceIsWord(s: string, i: nat, j: nat)
    requires i < j <= |s|
    requires forall k :: i <= k < j ==> !IsSpace(s[k])
    ensures IsWord(s[i..j])
  {
    forall m | 0 <= m < j - i
      ensures !IsSpace(s[i..j][m])
    {
      assert s[i..j][m] == s[i + m];
    }
  }

  /**
   * `s.split()`: the maximal runs of non-whitespace characters, in order.
   * Every word is non-empty and free of whitespace, and there are none
   * exactly when the string is all whitespace.
   */
  function Words(s: string): (r: seq<string>)
    ensures forall k :: 0 <= k < |r| ==> IsWord(r[k])
    ensures r == [] <==> AllSpace(s)
    decreases |s|
  {
    var k := SkipSpaces(s, 0);
    if k == |s| then []
    else
      var e := SkipWord(s, k);
      SliceIsWord(s, k, e);
      [s[k..e]] + Words(s[e..])
  }

  /**
   * The first word starts at the first non-whitespace character and runs up
   * to the next whitespace character or the end; the others are the words of
   * what follows it.
   */
  lemma WordsFirst(s: string)
    requires !AllSpace(s)
    ensures var k := SkipSpaces(s, 0);
      && k < |s|
      && var e := SkipWord(s, k);
         && Words(s) == [s[k..e]] + Words(s[e..])
         && k < e
         && (e == |s| || IsSpace(s[e]))
  {
  }

  /** The concatenation of a list of strings. */
  function Concat(ws: seq<string>): string
  {
    if ws == [] then [] else ws[0] + Concat(ws[1..])
  }

  /** The non-whitespace characters of `s`, in order. */
  function NonSpace(s: string): string
    decreases |s|
  {
    if s == [] then [] else (if IsSpace(s[0]) then [] else [s[0]]) + NonSpace(s[1..])
  }

  lemma {:induction false} NonSpaceAppend(a: string, b: string)
    ensures NonSpace(a + b) == NonSpace(a) + NonSpace(b)
    decreases |a|
  {
    if a != [] {
      assert (a + b)[1..] == a[1..] + b;
      NonSpaceAppend(a[1..], b);
    } else {
      assert a + b == b;
    }
  }

  lemma {:induction false} NonSpaceOfSpaces(s: string)
    requires AllSpace(s)
    ensures NonSpace(s) == []
    decreases |s|
  {
    if s != [] {
      NonSpaceOfSpaces(s[1..]);
    }
  }

  lemma {:induction false} NonSpaceOfWord(s: string)
    requires s == [] || IsWord(s)
    ensures NonSpace(s) == s
    decreases |s|
  {
    if s != [] {
      NonSpaceOfWord(s[1..]);
      assert s == [s[0]] + s[1..];
    }
  }

  /** Around a word preceded only by whitespace, `NonSpace` keeps the word whole. */
  lemma NonSpaceAroundWord(s: string, k: nat, e: nat)
    requires k <= e <= |s|
    requires AllSpace(s[..k])
    requires k == e || IsWord(s[k..e])
    ensures NonSpace(s) == s[k..e] + NonSpace(s[e..])
  {
    var front, w, back := s[..k], s[k..e], s[e..];
    NonSpaceOfSpaces(front);
    NonSpaceOfWord(w);
    calc {
      NonSpace(s);
      { assert s == front + w + back; }
      NonSpace(front + w + back);
      { NonSpaceAppend(front + w, back); }
      NonSpace(front + w) + NonSpace(back);
      { NonSpaceAppend(front, w); }
      NonSpace(front) + NonSpace(w) + NonSpace(back);
      { assert NonSpace(front) + NonSpace(w) == w; }
      w + NonSpace(back);
    }
  }

  /**
   * Splitting loses no character but whitespace: the words, put back
   * together, are the non-whitespace characters of the input, in order.
   */
  lemma {:induction false} WordsKeepNonSpace(s: string)
    ensures Concat(Words(s)) == NonSpace(s)
    decreases |s|
  {
    if AllSpace(s) {
      NonSpaceOfSpaces(s);
    } else {
      WordsFirst(s);
      var k := SkipSpaces(s, 0);
      var e := SkipWord(s, k);
      var rest := Words(s[e..]);
      WordsKeepNonSpace(s[e..]);
      SliceIsWord(s, k, e);
      NonSpaceAroundWord(s, k, e);
      assert Words(s) == [s[k..e]] + rest;
      assert ([s[k..e]] + rest)[1..] == rest;
    }
  }

  // ---------------------------------------------------------------------------
  // Decimal numbers
  // ---------------------------------------------------------------------------

  function DigitValue(c: char): (d: nat)
    requires IsDigit(c)
    ensures d < 10
  {
    c as int - '0' as int
  }

  function DigitChar(d: nat): (c: char)
    requires d < 10
    ensures IsDigit(c) && DigitValue(c) == d
  {
    ('0' as int + d) as char
  }

  /** `int(s)` for a string of decimal digits (leading zeros allowed). */
  function DigitsValue(s: string): nat
    requires AllDigits(s)
    decreases |s|
  {
    if s == [] then 0 else DigitsValue(s[..|s| - 1]) * 10 + DigitValue(s[|s| - 1])
  }

  /** The decimal rendering of a natural number, as `str(n)` gives it. */
  function NatToString(n: nat): (r: string)
    ensures IsDigitWord(r)
    ensures |r| > 1 ==> r[0] != '0'
    decreases n
  {
    if n < 10 then [DigitChar(n)] else NatToString(n / 10) + [DigitChar(n % 10)]
  }

  /** Reading back a rendered number gives the number. */
  lemma {:induction false} NatToStringRoundTrip(n: nat)
    ensures DigitsValue(NatToString(n)) == n
    decreases n
  {
    var r := NatToString(n);
    if n >= 10 {
      var prefix := NatToString(n / 10);
      assert r[..|r| - 1] == prefix;
      NatToStringRoundTrip(n / 10);
    }
  }
}
