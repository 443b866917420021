/**
 * The few Python string operations the service relies on: `strip`,
 * `rstrip(chars)`, `startswith`, `in` on strings, `upper`, `replace(c, '')`
 * and `sep.join`.
 */
module Strings {

  /** Python's `str.isspace()` for one character: what `strip()` removes. */
  predicate IsSpace(c: char) {
    var n := c as int;
    || n == 32 || 9 <= n <= 13 || 28 <= n <= 31 || n == 0x85 || n == 0xA0
    || n == 0x1680 || 0x2000 <= n <= 0x200A || n == 0x2028 || n == 0x2029
    || n == 0x202F || n == 0x205F || n == 0x3000
  }

  /** `s.startswith(prefix)` */
  predicate StartsWith(s: string, prefix: string) {
    |prefix| <= |s| && s[..|prefix|] == prefix
  }

  /** `sub` occurs in `s` starting at index `i`. */
  predicate InfixAt(s: string, sub: string, i: int) {
    0 <= i && i + |sub| <= |s| && s[i..i + |sub|] == sub
  }

  /** `sub in s` */
  predicate Contains(s: string, sub: string) {
    exists i | 0 <= i <= |s| - |sub| :: InfixAt(s, sub, i)
  }

  /** `s.lstrip()` */
  function LStrip(s: string): (r: string)
    ensures |r| <= |s|
    ensures r == [] || !IsSpace(r[0])
    ensures s != [] && !IsSpace(s[|s| - 1]) ==> r != [] && r[|r| - 1] == s[|s| - 1]
  {
    if s != [] && IsSpace(s[0]) then LStrip(s[1..]) else s
  }

  /** `s.rstrip()` */
  function RStrip(s: string): (r: string)
    ensures |r| <= |s|
    ensures r == [] || !IsSpace(r[|r| - 1])
  {
    if s != [] && IsSpace(s[|s| - 1]) then RStrip(s[..|s| - 1]) else s
  }

  /** `s.rstrip(c)` for one character `c`. */
  function RStripChar(s: string, c: char): (r: string)
    ensures |r| <= |s| && r == s[..|r|]
    ensures r == [] || r[|r| - 1] != c
  {
    if s != [] && s[|s| - 1] == c then RStripChar(s[..|s| - 1], c) else s
  }

  /** `s.strip()`: the longest infix of `s` with no whitespace at either end. */
  function Strip(s: string): (r: string)
    ensures r == [] || (!IsSpace(r[0]) && !IsSpace(r[|r| - 1]))
  {
    LStrip(RStrip(s))
  }

  lemma {:induction false} LStripIsSuffix(s: string)
    ensures LStrip(s) == s[|s| - |LStrip(s)|..]
  {
    if s != [] && IsSpace(s[0]) {
      LStripIsSuffix(s[1..]);
    }
  }

  lemma {:induction false} RStripIsPrefix(s: string)
    ensures RStrip(s) == s[..|RStrip(s)|]
  {
    if s != [] && IsSpace(s[|s| - 1]) {
      RStripIsPrefix(s[..|s| - 1]);
    }
  }

  /** `s.strip()` is an infix of `s`. */
  lemma StripIsInfix(s: string)
    ensures Contains(s, Strip(s))
  {
    var t := RStrip(s);
    RStripIsPrefix(s);
    LStripIsSuffix(t);
    assert InfixAt(s, Strip(s), |t| - |Strip(s)|);
  }

  /** Python's `not s or not s.strip()`. */
  predicate IsBlank(s: string) {
    Strip(s) == []
  }

  /** `s.upper()` restricted to ASCII letters. */
  function UpperChar(c: char): char {
    if 'a' <= c <= 'z' then (c as int - 32) as char else c
  }

  function Upper(s: string): (r: string)
    ensures |r| == |s|
    ensures forall i | 0 <= i < |s| :: r[i] == UpperChar(s[i])
  {
    seq(|s|, i requires 0 <= i < |s| => UpperChar(s[i]))
  }

  /** `s.replace(c, '')` for one character `c`. */
  function RemoveChar(s: string, c: char): (r: string)
    ensures c !in r
    ensures forall x | x in r :: x in s
    ensures |r| <= |s|
  {
    if s == [] then [] else (if s[0] == c then [] else [s[0]]) + RemoveChar(s[1..], c)
  }

  /** `sep.join(parts)` */
  function Join(parts: seq<string>, sep: string): string {
    if |parts| == 0 then ""
    else if |parts| == 1 then parts[0]
    else parts[0] + sep + Join(parts[1..], sep)
  }

  // ---------------------------------------------------------------------
  // Lemmas

  /** A string with no whitespace at either end is its own `strip()`. */
  lemma StripOfTrimmed(s: string)
    requires s == [] || (!IsSpace(s[0]) && !IsSpace(s[|s| - 1]))
    ensures Strip(s) == s
  {
  }

  /** `strip()` is idempotent. */
  lemma StripIdempotent(s: string)
    ensures Strip(Strip(s)) == Strip(s)
  {
    StripOfTrimmed(Strip(s));
  }

  /** A string is blank exactly when every character of it is whitespace. */
  lemma BlankIffAllSpace(s: string)
    ensures IsBlank(s) <==> forall i | 0 <= i < |s| :: IsSpace(s[i])
  {
    var t := RStrip(s);
    RStripRemovesSpaces(s);
    RStripIsPrefix(s);
    if forall i | 0 <= i < |s| :: IsSpace(s[i]) {
      assert t == [];
    } else {
      var k :| 0 <= k < |s| && !IsSpace(s[k]);
      assert k < |t|;
      assert t != [] && !IsSpace(t[|t| - 1]);
      assert Strip(s) != [];
    }
  }

  /** What `rstrip()` removes is whitespace. */
  lemma {:induction false} RStripRemovesSpaces(s: string)
    ensures forall i | |RStrip(s)| <= i < |s| :: IsSpace(s[i])
  {
    if s != [] && IsSpace(s[|s| - 1]) {
      RStripRemovesSpaces(s[..|s| - 1]);
    }
  }

  /** What `lstrip()` removes is whitespace. */
  lemma {:induction false} LStripRemovesSpaces(s: string)
    ensures forall i | 0 <= i < |s| - |LStrip(s)| :: IsSpace(s[i])
  {
    if s != [] && IsSpace(s[0]) {
      LStripRemovesSpaces(s[1..]);
      forall i | 1 <= i < |s| - |LStrip(s)| ensures IsSpace(s[i]) {
        assert s[i] == s[1..][i - 1];
      }
    }
  }

  /**
   * `strip()` cuts whitespace off the two ends and nothing else: the string
   * is some whitespace, then `s.strip()`, then some whitespace.
   */
  lemma StripRemovesOnlyEndSpaces(s: string)
    ensures exists k | 0 <= k <= |s| - |Strip(s)| ::
      && InfixAt(s, Strip(s), k)
      && (forall i | 0 <= i < k :: IsSpace(s[i]))
      && (forall i | k + |Strip(s)| <= i < |s| :: IsSpace(s[i]))
  {
    var t := RStrip(s);
    RStripIsPrefix(s);
    RStripRemovesSpaces(s);
    LStripIsSuffix(t);
    LStripRemovesSpaces(t);
    var k := |t| - |Strip(s)|;
    assert InfixAt(s, Strip(s), k);
    forall i | 0 <= i < k ensures IsSpace(s[i]) {
      assert s[i] == t[i];
    }
  }

  /**
   * Trailing whitespace after a part that ends in a non-space character is
   * all `rstrip()` removes.
   */
  lemma {:induction false} RStripAppend(a: string, b: string)
    requires a != [] && !IsSpace(a[|a| - 1])
    ensures RStrip(a + b) == a + RStrip(b)
  {
    if b == [] {
      assert a + b == a;
    } else if IsSpace(b[|b| - 1]) {
      assert (a + b)[..|a + b| - 1] == a + b[..|b| - 1];
      RStripAppend(a, b[..|b| - 1]);
    } else {
      assert (a + b)[|a + b| - 1] == b[|b| - 1];
    }
  }

  /**
   * `(a + b).strip()` when `a` is a non-empty word with no whitespace at
   * either end: only the tail of `b` is stripped.
   */
  lemma StripAfterWord(a: string, b: string)
    requires a != [] && !IsSpace(a[0]) && !IsSpace(a[|a| - 1])
    ensures Strip(a + b) == a + RStrip(b)
  {
    RStripAppend(a, b);
    assert (a + RStrip(b))[0] == a[0];
  }

  lemma {:induction false} RemoveCharAppend(a: string, b: string, c: char)
    ensures RemoveChar(a + b, c) == RemoveChar(a, c) + RemoveChar(b, c)
  {
    if a == [] {
      assert a + b == b;
    } else {
      var ab := a + b;
      assert ab[0] == a[0];
      assert ab[1..] == a[1..] + b;
      RemoveCharAppend(a[1..], b, c);
      calc {
        RemoveChar(ab, c);
        (if a[0] == c then [] else [a[0]]) + RemoveChar(a[1..] + b, c);
        (if a[0] == c then [] else [a[0]]) + (RemoveChar(a[1..], c) + RemoveChar(b, c));
        ((if a[0] == c then [] else [a[0]]) + RemoveChar(a[1..], c)) + RemoveChar(b, c);
      }
    }
  }

  lemma {:induction false} RemoveAbsentChar(s: string, c: char)
    requires c !in s
    ensures RemoveChar(s, c) == s
  {
    if s != [] {
      RemoveAbsentChar(s[1..], c);
    }
  }

  /** An infix of an infix is an infix. */
  lemma InfixOfInfix(s: string, t: string, u: string, i: int)
    requires InfixAt(s, t, i) && Contains(t, u)
    ensures Contains(s, u)
  {
    var j :| 0 <= j <= |t| - |u| && InfixAt(t, u, j);
    forall k | 0 <= k < |u| ensures s[i + j + k] == u[k] {
      assert u[k] == t[j + k];
    }
    assert InfixAt(s, u, i + j);
  }

  /** Whatever the middle part contains, the whole contains. */
  lemma ContainsInMiddle(a: string, b: string, c: string, sub: string)
    requires Contains(b, sub)
    ensures Contains(a + b + c, sub)
  {
    assert (a + b + c)[|a|..|a| + |b|] == b;
    InfixOfInfix(a + b + c, b, sub, |a|);
  }

  /** Whatever a prefix contains, the whole contains. */
  lemma ContainsInPrefix(a: string, b: string, sub: string)
    requires Contains(a, sub)
    ensures Contains(a + b, sub)
  {
    assert (a + b)[..|a|] == a;
    InfixOfInfix(a + b, a, sub, 0);
  }

  /** A concatenation starts with its first two parts. */
  lemma StartsWithFirstTwo(a: string, b: string, c: string, d: string, e: string)
    ensures StartsWith(a + b + c + d + e, a + b)
  {
    assert (a + b + c + d + e)[..|a + b|] == a + b;
  }

  /** `sep.join(parts)` contains every part. */
  lemma {:induction false} JoinContainsPart(parts: seq<string>, sep: string, i: int)
    requires 0 <= i < |parts|
    ensures Contains(Join(parts, sep), parts[i])
  {
    if |parts| == 1 || i == 0 {
      assert InfixAt(Join(parts, sep), parts[0], 0);
    } else {
      assert parts[1..][i - 1] == parts[i];
      JoinContainsPart(parts[1..], sep, i - 1);
      ContainsInMiddle(parts[0] + sep, Join(parts[1..], sep), "", parts[i]);
      assert parts[0] + sep + Join(parts[1..], sep) + "" == Join(parts, sep);
    }
  }
}
