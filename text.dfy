/**
 * The parts of JavaScript's string semantics that the application relies on:
 * `trim`, `toLowerCase` on Latin letters, `includes`, `startsWith`, case-insensitive
 * matching of an ASCII regular expression, `split(c).pop()` and the UTF-16
 * `length` of a string, and the decimal text of a natural number. Strings are
 * sequences of Unicode scalar values.
 */
module Text {

  /** The WhiteSpace and LineTerminator code points that `String.prototype.trim` removes. */
  predicate IsJsSpace(c: char) {
    var n := c as int;
    n == 0x09 || n == 0x0A || n == 0x0B || n == 0x0C || n == 0x0D || n == 0x20
    || n == 0xA0 || n == 0x1680 || (0x2000 <= n <= 0x200A) || n == 0x2028
    || n == 0x2029 || n == 0x202F || n == 0x205F || n == 0x3000 || n == 0xFEFF
  }

  /** A string that `trim` reduces to the empty string. */
  predicate IsBlank(s: string) {
    forall i :: 0 <= i < |s| ==> IsJsSpace(s[i])
  }

  /** `trimStart`: drops the leading white space and nothing else. */
  function TrimStart(s: string): (r: string)
    ensures |r| <= |s| && r == s[|s| - |r|..]
    ensures forall i :: 0 <= i < |s| - |r| ==> IsJsSpace(s[i])
    ensures r != [] ==> !IsJsSpace(r[0])
  {
    if s != [] && IsJsSpace(s[0]) then TrimStart(s[1..]) else s
  }

  /** `trimEnd`: drops the trailing white space and nothing else. */
  function TrimEnd(s: string): (r: string)
    ensures |r| <= |s| && r == s[..|r|]
    ensures forall i :: |r| <= i < |s| ==> IsJsSpace(s[i])
    ensures r != [] ==> !IsJsSpace(r[|r| - 1])
  {
    if s != [] && IsJsSpace(s[|s| - 1]) then TrimEnd(s[..|s| - 1]) else s
  }

  /**
   * `trim`: the result is `s` with a blank prefix and a blank suffix cut off,
   * empty exactly for blank input, and otherwise starting and ending with a
   * non-space, so no more white space could be cut.
   */
  function Trim(s: string): (r: string)
    ensures |r| <= |s|
    ensures exists a :: TrimmedAt(s, r, a)
    ensures r == [] <==> IsBlank(s)
    ensures r != [] ==> !IsJsSpace(r[0]) && !IsJsSpace(r[|r| - 1])
  {
    TrimProperties(s);
    TrimEnd(TrimStart(s))
  }

  /** `r` is the part of `s` that starts at `a`, with only white space before and after it. */
  predicate TrimmedAt(s: string, r: string, a: int) {
    0 <= a <= |s| - |r| && r == s[a..a + |r|] && IsBlank(s[..a]) && IsBlank(s[a + |r|..])
  }

  lemma TrimProperties(s: string)
    ensures |TrimEnd(TrimStart(s))| <= |s|
    ensures TrimmedAt(s, TrimEnd(TrimStart(s)), |s| - |TrimStart(s)|)
    ensures TrimEnd(TrimStart(s)) == [] <==> IsBlank(s)
    ensures TrimEnd(TrimStart(s)) != [] ==>
      !IsJsSpace(TrimEnd(TrimStart(s))[0]) && !IsJsSpace(TrimEnd(TrimStart(s))[|TrimEnd(TrimStart(s))| - 1])
  {
    var t := TrimStart(s);
    var r := TrimEnd(t);
    TrimCutsBlankEnds(s);
    if r == [] {
      assert |t| == 0;
    } else {
      assert r[0] == t[0];
      assert t[0] == s[|s| - |t|];
    }
  }

  lemma TrimCutsBlankEnds(s: string)
    ensures TrimmedAt(s, TrimEnd(TrimStart(s)), |s| - |TrimStart(s)|)
  {
    var t := TrimStart(s);
    var r := TrimEnd(t);
    assert |t| <= |s| && t == s[|s| - |t|..];
    assert forall i :: 0 <= i < |s| - |t| ==> IsJsSpace(s[i]);
    assert |r| <= |t| && r == t[..|r|];
    assert forall i :: |r| <= i < |t| ==> IsJsSpace(t[i]);
    BlankEndsCut(s, t, r);
  }

  /** A blank prefix cut from `s`, then a blank suffix cut from what is left, leave an infix with blank ends. */
  lemma BlankEndsCut(s: string, t: string, r: string)
    requires |t| <= |s| && t == s[|s| - |t|..] && forall i :: 0 <= i < |s| - |t| ==> IsJsSpace(s[i])
    requires |r| <= |t| && r == t[..|r|] && forall i :: |r| <= i < |t| ==> IsJsSpace(t[i])
    ensures TrimmedAt(s, r, |s| - |t|)
  {
    var a := |s| - |t|;
    assert r == s[a..a + |r|];
    var prefix, suffix := s[..a], s[a + |r|..];
    forall i | 0 <= i < |prefix|
      ensures IsJsSpace(prefix[i])
    {
      assert prefix[i] == s[i];
    }
    forall i | 0 <= i < |suffix|
      ensures IsJsSpace(suffix[i])
    {
      assert suffix[i] == t[|r| + i];
    }
  }

  lemma {:induction false} TrimIdempotent(s: string)
    ensures Trim(Trim(s)) == Trim(s)
  {
    var r := Trim(s);
    if r != [] {
      assert TrimStart(r) == r;
      assert TrimEnd(r) == r;
    }
  }

  /**
   * `toLowerCase` restricted to the ASCII capitals `A`-`Z` and the full-width
   * Latin capitals U+FF21-U+FF3A, which an input method often produces; each
   * maps to the letter 0x20 code points above it. Other characters are kept.
   */
  function LowerChar(c: char): (l: char)
    ensures IsLatinCapital(c) ==> l as int == c as int + 0x20 && !IsLatinCapital(l)
    ensures !IsLatinCapital(c) ==> l == c
  {
    if IsLatinCapital(c) then (c as int + 0x20) as char else c
  }

  predicate IsLatinCapital(c: char) {
    'A' <= c <= 'Z' || '\U{FF21}' <= c <= '\U{FF3A}'
  }

  /** Lower-casing twice is lower-casing once. */
  lemma LowerIdempotent(s: string)
    ensures Lower(Lower(s)) == Lower(s)
  {
  }

  function Lower(s: string): string {
    seq(|s|, i requires 0 <= i < |s| => LowerChar(s[i]))
  }

  lemma LowerAppend(a: string, b: string)
    ensures Lower(a + b) == Lower(a) + Lower(b)
  {
  }

  /** `startsWith`. */
  predicate StartsWith(s: string, prefix: string) {
    |prefix| <= |s| && s[..|prefix|] == prefix
  }

  /** `includes`: `sub` occurs in `s` (the empty string occurs everywhere). */
  predicate Contains(s: string, sub: string)
    decreases |s|
  {
    StartsWith(s, sub) || (s != [] && Contains(s[1..], sub))
  }

  /** `sub` occurs in `s` starting at position `i`. */
  predicate OccursAt(s: string, sub: string, i: int) {
    0 <= i <= |s| - |sub| && s[i..i + |sub|] == sub
  }

  /** `Contains` means an occurrence at some position, in both directions. */
  lemma ContainsAt(s: string, sub: string)
    ensures Contains(s, sub) <==> exists i :: OccursAt(s, sub, i)
  {
    if Contains(s, sub) {
      var i := FindOccurrence(s, sub);
    }
    if exists i :: OccursAt(s, sub, i) {
      var i :| OccursAt(s, sub, i);
      OccurrenceIsContained(s, sub, i);
    }
  }

  /** The position of the first occurrence that `Contains` found. */
  lemma {:induction false} FindOccurrence(s: string, sub: string) returns (i: int)
    requires Contains(s, sub)
    ensures OccursAt(s, sub, i)
    decreases |s|
  {
    if StartsWith(s, sub) {
      i := 0;
    } else {
      var j := FindOccurrence(s[1..], sub);
      i := j + 1;
      assert s[i..i + |sub|] == s[1..][j..j + |sub|];
    }
  }

  /** An occurrence at any position is found by `Contains`. */
  lemma {:induction false} OccurrenceIsContained(s: string, sub: string, i: int)
    requires OccursAt(s, sub, i)
    ensures Contains(s, sub)
    decreases i
  {
    if i > 0 {
      assert s[1..][i - 1..i - 1 + |sub|] == s[i..i + |sub|];
      OccurrenceIsContained(s[1..], sub, i - 1);
    } else {
      assert StartsWith(s, sub);
    }
  }

  /** Every string contains itself, framed by anything. */
  lemma ContainsInfix(pre: string, sub: string, post: string)
    ensures Contains(pre + sub + post, sub)
  {
    var s := pre + sub + post;
    assert OccursAt(s, sub, |pre|);
    ContainsAt(s, sub);
  }

  /** A case-insensitive regular-expression test `/sub/i` for an ASCII pattern without metacharacters. */
  predicate ContainsIgnoreCase(s: string, sub: string) {
    Contains(Lower(s), Lower(sub))
  }

  /** Any spelling of `sub` that differs only in ASCII letter case is found, wherever it sits. */
  lemma {:induction false} ContainsIgnoreCaseInfix(pre: string, m: string, post: string, sub: string)
    requires Lower(m) == Lower(sub)
    ensures ContainsIgnoreCase(pre + m + post, sub)
  {
    LowerAppend(pre + m, post);
    LowerAppend(pre, m);
    ContainsInfix(Lower(pre), Lower(sub), Lower(post));
  }

  /** `s.split(sep).pop()`: the text after the last `sep`, or all of `s` when it has none. */
  function LastSegment(s: string, sep: char): (r: string)
    ensures |r| <= |s| && r == s[|s| - |r|..]
    ensures forall i :: 0 <= i < |r| ==> r[i] != sep
    ensures |r| < |s| ==> s[|s| - |r| - 1] == sep
  {
    if s == [] then []
    else if s[|s| - 1] == sep then []
    else LastSegment(s[..|s| - 1], sep) + [s[|s| - 1]]
  }

  /** The text after a separator that is followed by no other is the last segment. */
  lemma {:induction false} LastSegmentAfterSeparator(s: string, sep: char, t: string)
    requires forall i :: 0 <= i < |t| ==> t[i] != sep
    ensures LastSegment(s + [sep] + t, sep) == t
    decreases |t|
  {
    var name := s + [sep] + t;
    if t != [] {
      var init := t[..|t| - 1];
      assert name[..|name| - 1] == s + [sep] + init;
      LastSegmentAfterSeparator(s, sep, init);
      assert init + [t[|t| - 1]] == t;
    }
  }

  /** JavaScript's `length`: the number of UTF-16 code units. */
  function Utf16Length(s: string): (n: nat)
    ensures |s| <= n <= 2 * |s|
  {
    if s == [] then 0
    else Utf16Length(s[..|s| - 1]) + (if s[|s| - 1] as int >= 0x10000 then 2 else 1)
  }

  /** Concatenation adds the code-unit counts. */
  lemma {:induction false} Utf16LengthAppend(a: string, b: string)
    ensures Utf16Length(a + b) == Utf16Length(a) + Utf16Length(b)
    decreases |b|
  {
    if b != [] {
      var init := b[..|b| - 1];
      assert (a + b)[..|a + b| - 1] == a + init;
      Utf16LengthAppend(a, init);
      assert Utf16Length(b) == Utf16Length(init) + (if b[|b| - 1] as int >= 0x10000 then 2 else 1);
    } else {
      assert a + b == a;
    }
  }

  /** A string counts one code unit per character exactly when it has no character outside the Basic Multilingual Plane. */
  lemma {:induction false} Utf16LengthOfBmp(s: string)
    ensures Utf16Length(s) == |s| <==> forall i :: 0 <= i < |s| ==> (s[i] as int) < 0x10000
    decreases |s|
  {
    if s != [] {
      var init := s[..|s| - 1];
      Utf16LengthOfBmp(init);
      assert forall i :: 0 <= i < |init| ==> init[i] == s[i];
    }
  }

  function DigitChar(d: nat): char
    requires d < 10
  {
    ('0' as int + d) as char
  }

  /** The decimal text of a natural number, as template interpolation writes it. */
  function Decimal(n: nat): (s: string)
    ensures s != []
    ensures forall k :: 0 <= k < |s| ==> '0' <= s[k] <= '9'
    decreases n
  {
    if n < 10 then [DigitChar(n)] else Decimal(n / 10) + [DigitChar(n % 10)]
  }
}
