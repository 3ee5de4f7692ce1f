/** The string operations the app borrows from JavaScript: `trim`, ASCII
    `toUpperCase`/`toLowerCase`, `startsWith`, `includes`,
    `split(sep).pop()` and the decimal rendering of a non-negative integer. */
module Text {

  /** The characters `String.prototype.trim` removes: the ECMAScript
      WhiteSpace and LineTerminator code points. */
  predicate IsSpace(c: char) {
    || c == '\t' || c == '\n' || c == '\U{000B}' || c == '\U{000C}' || c == '\r'
    || c == ' ' || c == '\U{00A0}' || c == '\U{1680}'
    || ('\U{2000}' <= c <= '\U{200A}')
    || c == '\U{2028}' || c == '\U{2029}' || c == '\U{202F}' || c == '\U{205F}'
    || c == '\U{3000}' || c == '\U{FEFF}'
  }

  predicate AllSpace(s: string) {
    forall i :: 0 <= i < |s| ==> IsSpace(s[i])
  }

  /** Neither end of `s` is a space. */
  predicate IsTrimmed(s: string) {
    s == [] || (!IsSpace(s[0]) && !IsSpace(s[|s| - 1]))
  }

  /** `s` without its leading spaces. */
  function TrimStart(s: string): string {
    if s != [] && IsSpace(s[0]) then TrimStart(s[1..]) else s
  }

  /** `s` without its trailing spaces. */
  function TrimEnd(s: string): string {
    if s != [] && IsSpace(s[|s| - 1]) then TrimEnd(s[..|s| - 1]) else s
  }

  /** TrimStart removes a run of spaces from the front and stops at the
      first other character. */
  lemma {:induction false} TrimStartFacts(s: string)
    ensures var r := TrimStart(s);
      && |r| <= |s| && r == s[|s| - |r|..]
      && AllSpace(s[..|s| - |r|])
      && (r == [] || !IsSpace(r[0]))
  {
    if s != [] && IsSpace(s[0]) {
      TrimStartFacts(s[1..]);
      var r := TrimStart(s[1..]);
      assert s[..|s| - |r|] == [s[0]] + s[1..][..|s| - 1 - |r|];
    }
  }

  /** TrimEnd removes a run of spaces from the back and stops at the last
      other character. */
  lemma {:induction false} TrimEndFacts(s: string)
    ensures var r := TrimEnd(s);
      && |r| <= |s| && r == s[..|r|]
      && AllSpace(s[|r|..])
      && (r == [] || !IsSpace(r[|r| - 1]))
  {
    if s != [] && IsSpace(s[|s| - 1]) {
      TrimEndFacts(s[..|s| - 1]);
      var r := TrimEnd(s[..|s| - 1]);
      assert s[|r|..] == s[..|s| - 1][|r|..] + [s[|s| - 1]];
    }
  }

  /** `s.trim()`. */
  function Trim(s: string): string {
    TrimEnd(TrimStart(s))
  }

  /** `s.trim()` removes only leading and trailing spaces: the result is
      the middle of `s` between two all-space ends, and neither of its
      ends is a space. */
  lemma {:induction false} TrimFacts(s: string)
    ensures IsTrimmed(Trim(s))
    ensures var i := |s| - |TrimStart(s)|;
      && 0 <= i && i + |Trim(s)| <= |s| && Trim(s) == s[i..i + |Trim(s)|]
      && AllSpace(s[..i]) && AllSpace(s[i + |Trim(s)|..])
  {
    var t := TrimStart(s);
    var r := TrimEnd(t);
    TrimStartFacts(s);
    TrimEndFacts(t);
    var i := |s| - |t|;
    assert r != [] ==> r[0] == t[0];
    assert t == s[i..];
    assert s[i..i + |r|] == t[..|r|];
    assert s[i + |r|..] == t[|r|..];
  }

  lemma {:induction false} TrimTrimmed(s: string)
    requires IsTrimmed(s)
    ensures Trim(s) == s
  {
    if s != [] {
      assert TrimStart(s) == s;
    }
  }

  /** `s.trim()` is empty exactly when every character of `s` is a space:
      what a "blank" scanner input means. */
  lemma {:induction false} TrimEmptyIffAllSpace(s: string)
    ensures Trim(s) == [] <==> AllSpace(s)
  {
    var t := TrimStart(s);
    TrimStartFacts(s);
    TrimEndFacts(t);
    var k := |s| - |t|;
    if Trim(s) == [] {
      assert AllSpace(t[0..]) && t[0..] == t;
      assert t == [];
      assert s[..k] == s;
    } else {
      var r := TrimEnd(t);
      assert r[0] == t[0] == s[k];
    }
  }

  function UpperChar(c: char): char {
    if 'a' <= c <= 'z' then (c as int - 32) as char else c
  }

  function LowerChar(c: char): char {
    if 'A' <= c <= 'Z' then (c as int + 32) as char else c
  }

  /** `s.toUpperCase()` restricted to ASCII letters. */
  function ToUpper(s: string): string {
    if s == [] then [] else [UpperChar(s[0])] + ToUpper(s[1..])
  }

  /** `s.toLowerCase()` restricted to ASCII letters. */
  function ToLower(s: string): string {
    if s == [] then [] else [LowerChar(s[0])] + ToLower(s[1..])
  }

  predicate HasNoLower(s: string) {
    forall i :: 0 <= i < |s| ==> !('a' <= s[i] <= 'z')
  }

  predicate HasNoUpper(s: string) {
    forall i :: 0 <= i < |s| ==> !('A' <= s[i] <= 'Z')
  }

  /** ToUpper maps each character on its own. */
  lemma {:induction false} ToUpperEach(s: string)
    ensures |ToUpper(s)| == |s|
    ensures forall i :: 0 <= i < |s| ==> ToUpper(s)[i] == UpperChar(s[i])
  {
    if s != [] {
      ToUpperEach(s[1..]);
    }
  }

  lemma {:induction false} ToLowerEach(s: string)
    ensures |ToLower(s)| == |s|
    ensures forall i :: 0 <= i < |s| ==> ToLower(s)[i] == LowerChar(s[i])
  {
    if s != [] {
      ToLowerEach(s[1..]);
    }
  }

  /** Upper-casing leaves no lower-case letter, is idempotent and keeps a
      trimmed string trimmed. */
  lemma {:induction false} ToUpperFacts(s: string)
    ensures |ToUpper(s)| == |s|
    ensures HasNoLower(ToUpper(s))
    ensures ToUpper(ToUpper(s)) == ToUpper(s)
    ensures IsTrimmed(s) ==> IsTrimmed(ToUpper(s))
  {
    var u := ToUpper(s);
    ToUpperEach(s);
    ToUpperEach(u);
    var uu := ToUpper(u);
    assert forall i :: 0 <= i < |u| ==> uu[i] == UpperChar(u[i]) == u[i];
    assert uu == u;
    if s != [] {
      assert u[0] == UpperChar(s[0]) && u[|u| - 1] == UpperChar(s[|s| - 1]);
    }
  }

  lemma {:induction false} ToLowerFacts(s: string)
    ensures |ToLower(s)| == |s|
    ensures HasNoUpper(ToLower(s))
    ensures ToLower(ToLower(s)) == ToLower(s)
    ensures IsTrimmed(s) ==> IsTrimmed(ToLower(s))
  {
    var l := ToLower(s);
    ToLowerEach(s);
    ToLowerEach(l);
    var ll := ToLower(l);
    assert forall i :: 0 <= i < |l| ==> ll[i] == LowerChar(l[i]) == l[i];
    assert ll == l;
    if s != [] {
      assert l[0] == LowerChar(s[0]) && l[|l| - 1] == LowerChar(s[|s| - 1]);
    }
  }

  /** `s.startsWith(prefix)`. */
  predicate StartsWith(s: string, prefix: string) {
    |prefix| <= |s| && s[..|prefix|] == prefix
  }

  /** `s.includes(sub)`: `sub` occurs in `s` at some position. */
  predicate Contains(s: string, sub: string)
    decreases |s|
  {
    |sub| <= |s| && (s[..|sub|] == sub || (s != [] && Contains(s[1..], sub)))
  }

  lemma {:induction false} ContainsAt(s: string, sub: string, k: nat)
    requires k + |sub| <= |s| && s[k..k + |sub|] == sub
    ensures Contains(s, sub)
    decreases k
  {
    if k > 0 {
      assert s[1..][k - 1..k - 1 + |sub|] == sub;
      ContainsAt(s[1..], sub, k - 1);
    }
  }

  /** `sub` occurs in `s` at position `k`. */
  predicate MatchesAt(s: string, sub: string, k: nat) {
    k + |sub| <= |s| && s[k..k + |sub|] == sub
  }

  /** A string that `sub` does not occur in has no window equal to it. */
  lemma {:induction false} NotContainsAt(s: string, sub: string, k: nat)
    requires !Contains(s, sub)
    ensures !MatchesAt(s, sub, k)
    decreases k
  {
    if k > 0 && k + |sub| <= |s| {
      NotContainsAt(s[1..], sub, k - 1);
      assert s[1..][k - 1..k - 1 + |sub|] == s[k..k + |sub|];
    }
  }

  /** A string with no window equal to `sub` does not contain it. */
  lemma {:induction false} ContainsNone(s: string, sub: string)
    requires forall k: nat :: !MatchesAt(s, sub, k)
    ensures !Contains(s, sub)
    decreases |s|
  {
    if |sub| <= |s| {
      assert !MatchesAt(s, sub, 0);
      if s != [] {
        forall k: nat ensures !MatchesAt(s[1..], sub, k) {
          assert !MatchesAt(s, sub, k + 1);
          if k + |sub| <= |s| - 1 {
            assert s[1..][k..k + |sub|] == s[k + 1..k + 1 + |sub|];
          }
        }
        ContainsNone(s[1..], sub);
      }
    }
  }

  /** `s.split(sep).pop()`: the text after the last `sep`, or all of `s`
      when it holds no `sep`. */
  function LastSegment(s: string, sep: char): string {
    if s == [] then []
    else if s[|s| - 1] == sep then []
    else LastSegment(s[..|s| - 1], sep) + [s[|s| - 1]]
  }

  /** The last segment is a suffix without the separator, preceded by the
      separator unless it is the whole string. */
  lemma {:induction false} LastSegmentFacts(s: string, sep: char)
    ensures sep !in LastSegment(s, sep)
    ensures |LastSegment(s, sep)| <= |s| && LastSegment(s, sep) == s[|s| - |LastSegment(s, sep)|..]
    ensures |LastSegment(s, sep)| < |s| ==> s[|s| - |LastSegment(s, sep)| - 1] == sep
  {
    if s != [] && s[|s| - 1] != sep {
      var init := s[..|s| - 1];
      LastSegmentFacts(init, sep);
      var r := LastSegment(init, sep);
      assert LastSegment(s, sep) == r + [s[|s| - 1]];
      assert s == init + [s[|s| - 1]];
    }
  }

  /** A string holding the separator is longer than its last segment. */
  lemma {:induction false} LastSegmentShorter(s: string, sep: char, k: nat)
    requires k < |s| && s[k] == sep
    ensures |LastSegment(s, sep)| < |s|
  {
    LastSegmentFacts(s, sep);
    var seg := LastSegment(s, sep);
    assert sep in s;
    assert seg != s;
    assert s[|s| - |seg|..] == seg;
  }

  /** A string without the separator is its own last segment. */
  lemma {:induction false} LastSegmentWhole(s: string, sep: char)
    requires sep !in s
    ensures LastSegment(s, sep) == s
  {
    if s != [] {
      assert s[..|s| - 1] + [s[|s| - 1]] == s;
      LastSegmentWhole(s[..|s| - 1], sep);
    }
  }

  /** The last segment is whatever follows the last separator. */
  lemma {:induction false} LastSegmentAfter(p: string, e: string, sep: char)
    requires sep !in e
    ensures LastSegment(p + [sep] + e, sep) == e
    decreases |e|
  {
    var s := p + [sep] + e;
    if e != [] {
      assert s[..|s| - 1] == p + [sep] + e[..|e| - 1];
      assert e[..|e| - 1] + [e[|e| - 1]] == e;
      LastSegmentAfter(p, e[..|e| - 1], sep);
    }
  }

  /** `String(n)` for a non-negative integer (as `Date.now()` renders in a
      template literal). */
  function NatToString(n: nat): string {
    if n < 10 then [DigitChar(n)] else NatToString(n / 10) + [DigitChar(n % 10)]
  }

  /** The decimal digit for `k`. */
  function DigitChar(k: nat): char
    requires k < 10
  {
    ('0' as int + k) as char
  }

  predicate IsDigits(s: string) {
    forall i :: 0 <= i < |s| ==> '0' <= s[i] <= '9'
  }

  /** The number a string of decimal digits denotes. */
  function DigitsValue(s: string): nat
    requires IsDigits(s)
  {
    if s == [] then 0
    else DigitsValue(s[..|s| - 1]) * 10 + (s[|s| - 1] as int - '0' as int)
  }

  /** The rendering is a non-empty string of digits denoting `n`, so
      different numbers render differently. */
  lemma {:induction false} NatToStringDigits(n: nat)
    ensures |NatToString(n)| >= 1 && IsDigits(NatToString(n))
    ensures DigitsValue(NatToString(n)) == n
  {
    var k := n % 10;
    var d := DigitChar(k);
    if n >= 10 {
      var rest := NatToString(n / 10);
      NatToStringDigits(n / 10);
      var r := rest + [d];
      assert r[..|r| - 1] == rest;
      assert NatToString(n) == r;
    }
  }

  /** No element occurs twice. */
  predicate NoDup<T(==)>(s: seq<T>) {
    forall i, j :: 0 <= i < j < |s| ==> s[i] != s[j]
  }

  /** `xs` is `ys` with some elements left out and the rest kept in order. */
  predicate IsSubseq<T(==)>(xs: seq<T>, ys: seq<T>)
    decreases |ys|
  {
    xs == [] || (ys != [] && ((xs[0] == ys[0] && IsSubseq(xs[1..], ys[1..])) || IsSubseq(xs, ys[1..])))
  }
}
