/**
 String operations the analysis core uses: substring tests, prefix and
 suffix tests, ASCII case mapping and character classes, `split(c)[-1]`,
 and decimal rendering of integers for messages.
 */
module Text {

  /** `sub in s`: `sub` occurs as a contiguous block of `s`. */
  predicate Contains(s: string, sub: string)
    decreases |s|
  {
    if |s| < |sub| then false
    else s[..|sub|] == sub || Contains(s[1..], sub)
  }

  /** `s.startswith(p)` */
  predicate StartsWith(s: string, p: string) {
    |p| <= |s| && s[..|p|] == p
  }

  /** `s.endswith(p)` */
  predicate EndsWith(s: string, p: string) {
    |p| <= |s| && s[|s| - |p|..] == p
  }

  /** A block found at position `i` is a substring. */
  lemma {:induction false} ContainsAt(s: string, sub: string, i: nat)
    requires i + |sub| <= |s|
    requires s[i..i + |sub|] == sub
    ensures Contains(s, sub)
    decreases i
  {
    if i > 0 {
      assert s[1..][i - 1..i - 1 + |sub|] == s[i..i + |sub|];
      ContainsAt(s[1..], sub, i - 1);
    }
  }

  /** A substring occurs at some position. */
  lemma {:induction false} ContainsWitness(s: string, sub: string) returns (i: nat)
    requires Contains(s, sub)
    ensures i + |sub| <= |s| && s[i..i + |sub|] == sub
    decreases |s|
  {
    if s[..|sub|] == sub {
      i := 0;
    } else {
      var j := ContainsWitness(s[1..], sub);
      assert s[1..][j..j + |sub|] == s[j + 1..j + 1 + |sub|];
      i := j + 1;
    }
  }

  /** A block with a character the string lacks cannot occur in it. */
  lemma {:induction false} NotContainsMissingChar(s: string, sub: string, c: char)
    requires c in sub && c !in s
    ensures !Contains(s, sub)
    decreases |s|
  {
    if |s| >= |sub| {
      assert s[..|sub|] != sub by {
        var k :| 0 <= k < |sub| && sub[k] == c;
        assert s[..|sub|][k] in s;
      }
      NotContainsMissingChar(s[1..], sub, c);
    }
  }

  /** A string contains every substring of itself, in particular itself. */
  lemma ContainsInSuperstring(pre: string, sub: string, post: string)
    ensures Contains(pre + sub + post, sub)
  {
    var s := pre + sub + post;
    assert s[|pre|..|pre| + |sub|] == sub;
    ContainsAt(s, sub, |pre|);
  }

  /** ASCII approximation of `str.lower()` on one character. */
  function LowerChar(c: char): (r: char)
    ensures 'A' <= c <= 'Z' ==> r as int == c as int + 32
    ensures !('A' <= c <= 'Z') ==> r == c
  {
    if 'A' <= c <= 'Z' then (c as int + 32) as char else c
  }

  /** ASCII approximation of `str.lower()`. */
  function Lower(s: string): (r: string)
    ensures |r| == |s|
    ensures forall i :: 0 <= i < |s| ==> r[i] == LowerChar(s[i])
  {
    if |s| == 0 then [] else [LowerChar(s[0])] + Lower(s[1..])
  }

  /** `c.isupper()` for one character, ASCII approximation. */
  predicate IsUpperChar(c: char) {
    'A' <= c <= 'Z'
  }

  /** `c.islower()` for one character, ASCII approximation. */
  predicate IsLowerChar(c: char) {
    'a' <= c <= 'z'
  }

  /** `c.isalnum()` for one character, ASCII approximation. */
  predicate IsAlnumChar(c: char) {
    IsUpperChar(c) || IsLowerChar(c) || '0' <= c <= '9'
  }

  /** `s.isalnum()`: non-empty and every character alphanumeric. */
  predicate IsAlnum(s: string) {
    |s| > 0 && forall i :: 0 <= i < |s| ==> IsAlnumChar(s[i])
  }

  /** `s.replace(c, '')`: every other character is kept, in order; only
      the occurrences of `c` go. */
  function Remove(s: string, c: char): (r: string)
    ensures c !in r
    ensures multiset(r) == multiset(s)[c := 0]
    ensures |r| == |s| - multiset(s)[c]
    ensures c !in s ==> r == s
  {
    if |s| == 0 then []
    else
      assert s == [s[0]] + s[1..];
      (if s[0] == c then [] else [s[0]]) + Remove(s[1..], c)
  }

  /** Removing from a concatenation removes from each piece in turn, so the
      kept characters keep their order. */
  lemma {:induction false} RemoveAppend(a: string, b: string, c: char)
    ensures Remove(a + b, c) == Remove(a, c) + Remove(b, c)
  {
    if |a| == 0 {
      assert a + b == b;
    } else {
      assert (a + b)[0] == a[0];
      assert (a + b)[1..] == a[1..] + b;
      RemoveAppend(a[1..], b, c);
    }
  }

  /** `s.split(c)[-1]`: the text after the last `c`, or all of `s` when it
      has no `c`. */
  function AfterLast(s: string, c: char): (r: string)
    ensures c !in r
    ensures |r| <= |s| && r == s[|s| - |r|..]
    ensures c !in s ==> r == s
    ensures r != s ==> s[|s| - |r| - 1] == c
  {
    if |s| == 0 then []
    else if s[|s| - 1] == c then []
    else AfterLast(s[..|s| - 1], c) + [s[|s| - 1]]
  }

  /** The number a string of decimal digits denotes, most significant first. */
  function DigitsValue(r: string): nat {
    if |r| == 0 then 0
    else
      var d := r[|r| - 1] as int - '0' as int;
      DigitsValue(r[..|r| - 1]) * 10 + (if 0 <= d <= 9 then d else 0)
  }

  /** Decimal digits of a natural number, as Python's `str(n)`: the digits
      denote `n`, and only zero itself starts with '0'. */
  function NatToString(n: nat): (r: string)
    ensures |r| > 0
    ensures forall i :: 0 <= i < |r| ==> '0' <= r[i] <= '9'
    ensures DigitsValue(r) == n
    ensures r[0] == '0' ==> n == 0 && r == "0"
  {
    var digit := ['0' + (n % 10) as char];
    if n < 10 then digit
    else
      var front := NatToString(n / 10);
      assert (front + digit)[..|front + digit| - 1] == front;
      front + digit
  }

  /** `str(n)` for any integer: a '-' exactly for negative numbers, followed
      by the digits of the magnitude. */
  function IntToString(n: int): (r: string)
    ensures |r| > 0
    ensures n < 0 <==> r[0] == '-'
    ensures n < 0 ==> |r| > 1 && DigitsValue(r[1..]) == -n
    ensures n >= 0 ==> DigitsValue(r) == n
    ensures forall i :: (if n < 0 then 1 else 0) <= i < |r| ==> '0' <= r[i] <= '9'
  {
    if n < 0 then
      var digits := NatToString(-n);
      assert ("-" + digits)[1..] == digits;
      "-" + digits
    else NatToString(n)
  }

  /** A suffix of a suffix is a suffix, and the character just before it is
      the one just before it in the middle string. */
  lemma SuffixOfSuffix(s: string, t: string, r: string)
    requires |t| <= |s| && t == s[|s| - |t|..]
    requires |r| <= |t| && r == t[|t| - |r|..]
    ensures r == s[|s| - |r|..]
    ensures forall c :: c in r ==> c in t
    ensures |r| < |t| ==> s[|s| - |r| - 1] == t[|t| - |r| - 1]
  {
    assert forall k :: 0 <= k < |r| ==> r[k] == t[|t| - |r| + k];
  }
}
