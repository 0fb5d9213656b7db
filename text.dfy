/** The string operations the scripts rely on: Python's substring test `sub in s` and
    `str.lower()`, the latter restricted to ASCII letters. */
module Text {

  /** `s` begins with `prefix` (Python's `s.startswith(prefix)`). */
  predicate StartsWith(s: string, prefix: string)
  {
    |prefix| <= |s| && s[..|prefix|] == prefix
  }

  /** `sub` occurs somewhere in `s` (Python's `sub in s`); the empty string occurs everywhere. */
  predicate Contains(s: string, sub: string)
    decreases |s|
  {
    StartsWith(s, sub) || (s != [] && Contains(s[1..], sub))
  }

  /** An occurrence in a suffix of `s` is an occurrence in `s`. */
  lemma {:induction false} ContainsInSuffix(s: string, sub: string, k: nat)
    requires k <= |s|
    requires Contains(s[k..], sub)
    ensures Contains(s, sub)
    decreases k
  {
    if k > 0 {
      assert s[1..][k - 1..] == s[k..];
      ContainsInSuffix(s[1..], sub, k - 1);
    }
  }

  /** If `s` contains `sub`, it contains every tail `sub[k..]` of `sub`. */
  lemma {:induction false} ContainsTail(s: string, sub: string, k: nat)
    requires k <= |sub|
    requires Contains(s, sub)
    ensures Contains(s, sub[k..])
    decreases |s|
  {
    if StartsWith(s, sub) {
      assert s[k..][..|sub| - k] == sub[k..];
      assert StartsWith(s[k..], sub[k..]);
      ContainsInSuffix(s, sub[k..], k);
    } else {
      ContainsTail(s[1..], sub, k);
    }
  }

  function LowerChar(c: char): char
  {
    if 'A' <= c <= 'Z' then (c as int + 32) as char else c
  }

  function UpperChar(c: char): char
  {
    if 'a' <= c <= 'z' then (c as int - 32) as char else c
  }

  /** Python's `s.lower()` on ASCII letters; every other character is kept. */
  function Lower(s: string): string
  {
    seq(|s|, i requires 0 <= i < |s| => LowerChar(s[i]))
  }

  /** Python's `s.upper()` on ASCII letters; every other character is kept. */
  function Upper(s: string): string
  {
    seq(|s|, i requires 0 <= i < |s| => UpperChar(s[i]))
  }

  /** Upper-casing first does not change the lower-cased string. */
  lemma LowerOfUpper(s: string)
    ensures Lower(Upper(s)) == Lower(s)
  {
    forall i | 0 <= i < |s|
      ensures Lower(Upper(s))[i] == Lower(s)[i]
    {
      assert Upper(s)[i] == UpperChar(s[i]);
    }
  }
}
