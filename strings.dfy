/** The two string operations the core relies on: String.prototype.includes and
    String.prototype.toLowerCase, the latter restricted to ASCII letters. */
module Strings {

  /** `sub` occurs in `s` starting at index `i`. */
  predicate OccursAt(s: string, sub: string, i: int) {
    0 <= i && i + |sub| <= |s| && s[i..i + |sub|] == sub
  }

  /** `s` starts with `p`. */
  predicate StartsWith(s: string, p: string) {
    |p| <= |s| && s[..|p|] == p
  }

  /** `s.includes(sub)`: scans `s` from the left; it finds `sub` exactly when `sub` occurs
      at some index of `s`. */
  function Contains(s: string, sub: string): (r: bool)
    ensures r <==> exists i :: OccursAt(s, sub, i)
    decreases |s|
  {
    ContainsStep(s, sub);
    StartsWith(s, sub) || (|s| > 0 && Contains(s[1..], sub))
  }

  /** An occurrence is at the front or, one character further on, in the rest. */
  lemma ContainsStep(s: string, sub: string)
    ensures (exists i :: OccursAt(s, sub, i))
      <==> StartsWith(s, sub) || (|s| > 0 && exists i :: OccursAt(s[1..], sub, i))
  {
    if StartsWith(s, sub) {
      assert OccursAt(s, sub, 0);
    } else if |s| > 0 {
      if exists i :: OccursAt(s[1..], sub, i) {
        var i :| OccursAt(s[1..], sub, i);
        assert s[1..][i..i + |sub|] == s[i + 1..i + 1 + |sub|];
        assert OccursAt(s, sub, i + 1);
      }
      if exists i :: OccursAt(s, sub, i) {
        var i :| OccursAt(s, sub, i);
        assert i != 0;
        assert s[1..][i - 1..i - 1 + |sub|] == s[i..i + |sub|];
        assert OccursAt(s[1..], sub, i - 1);
      }
    }
  }

  /** Each character of an included string is a character of the including string. */
  lemma ContainsHasChar(s: string, sub: string, j: int)
    requires Contains(s, sub) && 0 <= j < |sub|
    ensures sub[j] in s
  {
    var i :| OccursAt(s, sub, i);
    assert s[i..i + |sub|][j] == s[i + j];
  }

  /** An occurrence of `sub` begins before index `k`, at `k`, or after `k`; wherever it begins,
      the first character of `sub` is found there. */
  lemma ContainsAround(s: string, sub: string, k: int)
    requires Contains(s, sub) && |sub| > 0 && 0 <= k < |s|
    ensures sub[0] in s[..k] || StartsWith(s[k..], sub) || sub[0] in s[k + 1..]
  {
    var i :| OccursAt(s, sub, i);
    assert s[i..i + |sub|][0] == s[i];
    if i < k {
      assert s[..k][i] == s[i];
    } else if i == k {
      assert s[k..][..|sub|] == s[i..i + |sub|];
    } else {
      assert s[k + 1..][i - k - 1] == s[i];
    }
  }

  /** A string misses `sub` if it misses one of `sub`'s characters. */
  lemma NotContainsByChar(s: string, sub: string, j: int)
    requires 0 <= j < |sub| && sub[j] !in s
    ensures !Contains(s, sub)
  {
    if Contains(s, sub) {
      ContainsHasChar(s, sub, j);
    }
  }

  /** A string misses `sub` if the first character of `sub` occurs in it only at index `k`
      and `sub` does not start there. */
  lemma NotContainsAt(s: string, sub: string, k: int)
    requires 0 <= k < |s| && |sub| > 0
    requires sub[0] !in s[..k] && sub[0] !in s[k + 1..] && !StartsWith(s[k..], sub)
    ensures !Contains(s, sub)
  {
    if Contains(s, sub) {
      ContainsAround(s, sub, k);
    }
  }

  /** A string includes `sub` if `sub` occurs at some index. */
  lemma ContainsAt(s: string, sub: string, i: int)
    requires OccursAt(s, sub, i)
    ensures Contains(s, sub)
  {
  }

  /** Every string includes the empty string. */
  lemma ContainsEmpty(s: string)
    ensures Contains(s, "")
  {
    assert StartsWith(s, "");
  }

  /** Only a string of at least the same length can include `sub`. */
  lemma {:induction false} ContainsNeedsLength(s: string, sub: string)
    requires Contains(s, sub)
    ensures |sub| <= |s|
    decreases |s|
  {
    if !StartsWith(s, sub) {
      ContainsNeedsLength(s[1..], sub);
    }
  }

  /** ASCII upper-case letters become lower case; every other character is kept. */
  function LowerChar(c: char): (r: char)
    ensures 'A' <= c <= 'Z' ==> 'a' <= r <= 'z' && r as int - c as int == 32
    ensures !('A' <= c <= 'Z') ==> r == c
  {
    if 'A' <= c <= 'Z' then (c as int + 32) as char else c
  }

  /** `s.toLowerCase()` for ASCII: the character-by-character lower-casing, same length. */
  function ToLower(s: string): (r: string)
    ensures |r| == |s|
    ensures forall i :: 0 <= i < |s| ==> r[i] == LowerChar(s[i])
  {
    if s == [] then [] else [LowerChar(s[0])] + ToLower(s[1..])
  }

  /** Lower-casing twice is lower-casing once. */
  lemma ToLowerIdempotent(s: string)
    ensures ToLower(ToLower(s)) == ToLower(s)
  {
    var once := ToLower(s);
    var twice := ToLower(once);
    assert |twice| == |once|;
    forall i | 0 <= i < |s| ensures twice[i] == once[i] {
      assert twice[i] == LowerChar(once[i]) && once[i] == LowerChar(s[i]);
    }
  }
}
