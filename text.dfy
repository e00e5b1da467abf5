/**
 * The JavaScript string built-ins the application relies on, restricted to
 * ASCII: `toLowerCase`, `toUpperCase`, `includes`, `trim`, `split`, `join`
 * and `Number.prototype.toString` on integers.
 */
module Text {
  import opened Wrappers

  // ---------------------------------------------------------------------------
  // Characters
  // ---------------------------------------------------------------------------

  /** ASCII white space and line terminators: what `trim()` strips and `\s` matches. */
  predicate IsSpace(c: char) {
    c == ' ' || c == '\t' || c == '\n' || c == '\r' || c == '\U{B}' || c == '\U{C}'
  }

  predicate AllSpace(s: string) {
    forall i | 0 <= i < |s| :: IsSpace(s[i])
  }

  predicate IsAsciiUpper(c: char) { 'A' <= c <= 'Z' }

  predicate IsAsciiLower(c: char) { 'a' <= c <= 'z' }

  function LowerChar(c: char): char {
    if IsAsciiUpper(c) then (c as int + 32) as char else c
  }

  function UpperChar(c: char): char {
    if IsAsciiLower(c) then (c as int - 32) as char else c
  }

  /** `s.toLowerCase()` on ASCII letters; every other character is kept. */
  function Lower(s: string): string {
    seq(|s|, i requires 0 <= i < |s| => LowerChar(s[i]))
  }

  lemma LowerIdempotent(s: string)
    ensures Lower(Lower(s)) == Lower(s)
  {
  }

  lemma LowerConcat(a: string, b: string)
    ensures Lower(a + b) == Lower(a) + Lower(b)
  {
  }

  /** `t` agrees with the lowercase form of `s` from position `k` on. */
  predicate LowerFrom(s: string, t: string, k: nat)
    requires |s| == |t| && k <= |s|
    decreases |s| - k
  {
    k == |s| || (LowerChar(s[k]) == t[k] && LowerFrom(s, t, k + 1))
  }

  lemma {:induction false} LowerFromAll(s: string, t: string, k: nat)
    requires |s| == |t| && k <= |s| && LowerFrom(s, t, k)
    ensures forall i | k <= i < |s| :: LowerChar(s[i]) == t[i]
    decreases |s| - k
  {
    if k < |s| {
      LowerFromAll(s, t, k + 1);
    }
  }

  /** `t` is the lowercase form of `s` when it agrees with it character by character. */
  lemma LowerByChars(s: string, t: string)
    requires |s| == |t| && LowerFrom(s, t, 0)
    ensures Lower(s) == t
  {
    LowerFromAll(s, t, 0);
  }

  // ---------------------------------------------------------------------------
  // Substrings: `text.includes(word)`
  // ---------------------------------------------------------------------------

  predicate OccursAt(t: string, w: string, i: int) {
    0 <= i && i + |w| <= |t| && t[i..i + |w|] == w
  }

  /** `t.includes(w)`: `w` occurs in `t` at some position. */
  predicate Contains(t: string, w: string) {
    exists i | 0 <= i <= |t| - |w| :: OccursAt(t, w, i)
  }

  /** `w` occurs at `i` when each of its characters stands at the matching place of `t`. */
  lemma OccursByChars(t: string, w: string, i: nat)
    requires i + |w| <= |t|
    requires forall k | 0 <= k < |w| :: t[i + k] == w[k]
    ensures OccursAt(t, w, i) && Contains(t, w)
  {
    assert t[i..i + |w|] == w;
    assert OccursAt(t, w, i);
  }

  /** Every character of an occurrence is a character of the text. */
  lemma CharOfOccurrence(t: string, w: string, i: int, k: nat)
    requires 0 <= i <= |t| - |w| && k < |w|
    ensures OccursAt(t, w, i) ==> t[i + k] == w[k]
  {
    if OccursAt(t, w, i) {
      assert t[i..i + |w|][k] == t[i + k];
    }
  }

  /**
   * No occurrence of `w` starts in `s..e - |w|` when its `k`-th character is
   * missing from `t[s..e]`; stretches of this kind that overlap by `|w| - 1`
   * characters cover a text in which `w` does not occur.
   */
  lemma NotOccurringWithin(t: string, w: string, s: nat, e: nat, k: nat)
    requires s <= e <= |t| && k < |w|
    requires forall j | s <= j < e :: t[j] != w[k]
    ensures forall i | s <= i <= e - |w| :: !OccursAt(t, w, i)
  {
    forall i | s <= i <= e - |w| ensures !OccursAt(t, w, i) {
      CharOfOccurrence(t, w, i, k);
    }
  }

  /** A word one of whose characters is missing from the text does not occur in it. */
  lemma NotContainsByChar(t: string, w: string, k: nat)
    requires k < |w|
    requires forall j | 0 <= j < |t| :: t[j] != w[k]
    ensures !Contains(t, w)
  {
    NotOccurringWithin(t, w, 0, |t|, k);
  }

  // ---------------------------------------------------------------------------
  // Trimming: `s.trim()`
  // ---------------------------------------------------------------------------

  /** Drops the leading white space: what is left is a suffix that does not start with a space. */
  function TrimStart(s: string): (r: string)
    ensures |r| <= |s| && r == s[|s| - |r|..]
    ensures AllSpace(s[..|s| - |r|])
    ensures r == [] || !IsSpace(r[0])
    decreases |s|
  {
    if s != [] && IsSpace(s[0]) then TrimStart(s[1..]) else s
  }

  /** Drops the trailing white space: what is left is a prefix that does not end with a space. */
  function TrimEnd(s: string): (r: string)
    ensures |r| <= |s| && r == s[..|r|]
    ensures AllSpace(s[|r|..])
    ensures r == [] || !IsSpace(r[|r| - 1])
    decreases |s|
  {
    if s != [] && IsSpace(s[|s| - 1]) then TrimEnd(s[..|s| - 1]) else s
  }

  /** `s.trim()`: the infix left after removing white space at both ends. */
  function Trim(s: string): (r: string)
    ensures r == [] || (!IsSpace(r[0]) && !IsSpace(r[|r| - 1]))
    ensures exists i :: OccursAt(s, r, i) && AllSpace(s[..i]) && AllSpace(s[i + |r|..])
  {
    var a := TrimStart(s);
    var r := TrimEnd(a);
    var i := |s| - |a|;
    assert s[i..i + |r|] == r;
    assert s[i + |r|..] == a[|r|..];
    assert OccursAt(s, r, i);
    r
  }

  /** `!s.trim()`: the string is empty once trimmed. */
  predicate IsBlank(s: string) {
    Trim(s) == ""
  }

  lemma {:induction false} BlankIffAllSpace(s: string)
    ensures IsBlank(s) <==> AllSpace(s)
  {
    var r := Trim(s);
    var i :| OccursAt(s, r, i) && AllSpace(s[..i]) && AllSpace(s[i + |r|..]);
    if r == [] {
      assert s == s[..i] + s[i..];
    } else {
      assert s[i] == r[0];
    }
  }

  /** A string that neither starts nor ends with white space is its own trim. */
  lemma TrimOfTrimmed(s: string)
    requires s == [] || (!IsSpace(s[0]) && !IsSpace(s[|s| - 1]))
    ensures Trim(s) == s
  {
  }

  /** White space in front of a string does not change its trim. */
  lemma TrimLeadingSpace(c: char, s: string)
    requires IsSpace(c)
    ensures Trim([c] + s) == Trim(s)
  {
    assert ([c] + s)[1..] == s;
  }

  /** Leading white space is dropped up to the first character that is not white space. */
  lemma {:induction false} TrimStartOfRun(run: string, rest: string)
    requires AllSpace(run)
    requires rest == [] || !IsSpace(rest[0])
    ensures TrimStart(run + rest) == rest
    decreases |run|
  {
    if run == [] {
      assert run + rest == rest;
    } else {
      assert (run + rest)[0] == run[0];
      assert (run + rest)[1..] == run[1..] + rest;
      TrimStartOfRun(run[1..], rest);
    }
  }

  // ---------------------------------------------------------------------------
  // Splitting and joining: `s.split(c)` and `xs.join(sep)`
  // ---------------------------------------------------------------------------

  /** Number of occurrences of `c` in `s`. */
  function Count(s: string, c: char): nat {
    multiset(s)[c]
  }

  /** `xs.join(sep)`. */
  function JoinWith(xs: seq<string>, sep: string): string
    decreases |xs|
  {
    if |xs| == 0 then ""
    else if |xs| == 1 then xs[0]
    else xs[0] + sep + JoinWith(xs[1..], sep)
  }

  /**
   * `s.split(c)` for a one-character separator: the pieces between the
   * separators, at least one, none holding the separator.
   */
  function Split(s: string, c: char): (r: seq<string>)
    ensures |r| >= 1
    ensures forall i | 0 <= i < |r| :: c !in r[i]
    decreases |s|
  {
    if s == [] then [""]
    else
      var rest := Split(s[1..], c);
      if s[0] == c then [""] + rest
      else [[s[0]] + rest[0]] + rest[1..]
  }

  /** There is one piece more than there are separators. */
  lemma {:induction false} SplitCount(s: string, c: char)
    ensures |Split(s, c)| == Count(s, c) + 1
    decreases |s|
  {
    if s != [] {
      SplitCount(s[1..], c);
      assert s == [s[0]] + s[1..];
      assert multiset(s) == multiset{s[0]} + multiset(s[1..]);
    }
  }

  /** Joining the pieces back with the separator gives the text. */
  lemma {:induction false} JoinOfSplit(s: string, c: char)
    ensures JoinWith(Split(s, c), [c]) == s
    decreases |s|
  {
    if s != [] {
      JoinOfSplit(s[1..], c);
      var rest := Split(s[1..], c);
      var r := Split(s, c);
      assert s == [s[0]] + s[1..];
      if s[0] == c {
        assert r[1..] == rest;
      } else {
        if |rest| > 1 {
          assert rest == [rest[0]] + rest[1..];
          assert r[1..] == rest[1..];
        }
      }
    }
  }

  /** Splitting text with no separator in it gives the text back as the only piece. */
  lemma SplitWithoutSeparator(s: string, c: char)
    requires c !in s
    ensures Split(s, c) == [s]
  {
    SplitCount(s, c);
    JoinOfSplit(s, c);
    assert multiset(s)[c] == 0;
  }

  /** Splitting `a + [c] + b`, where `a` has no separator, gives `a` and then the pieces of `b`. */
  lemma {:induction false} SplitAfterPiece(a: string, c: char, b: string)
    requires c !in a
    ensures Split(a + [c] + b, c) == [a] + Split(b, c)
    decreases |a|
  {
    var s := a + [c] + b;
    if a == [] {
      assert s[0] == c && s[1..] == b;
    } else {
      assert s[0] == a[0] && s[1..] == a[1..] + [c] + b;
      SplitAfterPiece(a[1..], c, b);
      assert [a[0]] + a[1..] == a;
    }
  }

  /** Joining separator-free pieces with `c` and splitting on `c` gives the pieces back. */
  lemma {:induction false} SplitOfJoin(xs: seq<string>, c: char)
    requires |xs| >= 1
    requires forall i | 0 <= i < |xs| :: c !in xs[i]
    ensures Split(JoinWith(xs, [c]), c) == xs
    decreases |xs|
  {
    if |xs| == 1 {
      SplitWithoutSeparator(xs[0], c);
    } else {
      SplitOfJoin(xs[1..], c);
      SplitAfterPiece(xs[0], c, JoinWith(xs[1..], [c]));
      assert xs == [xs[0]] + xs[1..];
    }
  }

  // ---------------------------------------------------------------------------
  // Decimal notation: `n.toString()` for an integer `n`
  // ---------------------------------------------------------------------------

  predicate IsDigit(c: char) { '0' <= c <= '9' }

  predicate AllDigits(s: string) {
    forall i | 0 <= i < |s| :: IsDigit(s[i])
  }

  function DigitChar(d: int): char
    requires 0 <= d < 10
  {
    ('0' as int + d) as char
  }

  /** Digits of `n` in base ten, without leading zeros. */
  function NatDigits(n: nat): (r: string)
    ensures |r| >= 1 && AllDigits(r)
    ensures r[0] == '0' ==> n == 0
    decreases n
  {
    if n < 10 then [DigitChar(n)] else NatDigits(n / 10) + [DigitChar(n % 10)]
  }

  /** The decimal string of an integer, with a leading `-` when it is negative. */
  function IntToDecimal(n: int): string {
    if n < 0 then "-" + NatDigits(-n) else NatDigits(n)
  }

  /** The value of a string of decimal digits. */
  function DigitsValue(s: string): nat
    requires AllDigits(s)
    decreases |s|
  {
    if s == [] then 0 else DigitsValue(s[..|s| - 1]) * 10 + (s[|s| - 1] as int - '0' as int)
  }

  /** Reads an optionally negative decimal integer; anything else is `None`. */
  function ParseInt(s: string): Option<int> {
    if |s| > 1 && s[0] == '-' && AllDigits(s[1..]) then Some(-(DigitsValue(s[1..]) as int))
    else if |s| > 0 && AllDigits(s) then Some(DigitsValue(s))
    else None
  }

  lemma {:induction false} DigitsRoundTrip(n: nat)
    ensures DigitsValue(NatDigits(n)) == n
    decreases n
  {
    if n >= 10 {
      DigitsRoundTrip(n / 10);
      var s := NatDigits(n);
      assert s[..|s| - 1] == NatDigits(n / 10);
    }
  }

  /** Reading back the decimal string of an integer gives the integer. */
  lemma DecimalRoundTrip(n: int)
    ensures ParseInt(IntToDecimal(n)) == Some(n)
  {
    if n < 0 {
      var d := NatDigits(-n);
      var s := "-" + d;
      DigitsRoundTrip(-n);
      assert s[0] == '-' && s[1..] == d;
      assert ParseInt(s) == Some(-(DigitsValue(d) as int));
    } else {
      var d := NatDigits(n);
      DigitsRoundTrip(n);
      assert IsDigit(d[0]);
      assert ParseInt(d) == Some(DigitsValue(d));
    }
  }
}
