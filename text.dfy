/** The string operations the pages use: `toLowerCase`, `toUpperCase` on one character,
    and `includes`. Case mapping covers ASCII letters only; every other character maps to itself. */
module Text {

  predicate IsUpperAscii(c: char) { 'A' <= c <= 'Z' }

  predicate IsLowerAscii(c: char) { 'a' <= c <= 'z' }

  /** `toLowerCase` on one character, ASCII letters only. */
  function Lower(c: char): (r: char)
    ensures !IsUpperAscii(r)
    ensures IsUpperAscii(c) ==> IsLowerAscii(r) && r as int == c as int + 32
    ensures !IsUpperAscii(c) ==> r == c
  {
    if IsUpperAscii(c) then (c as int + 32) as char else c
  }

  /** `toUpperCase` on one character, ASCII letters only. */
  function Upper(c: char): (r: char)
    ensures !IsLowerAscii(r)
    ensures IsLowerAscii(c) ==> IsUpperAscii(r) && r as int == c as int - 32
    ensures !IsLowerAscii(c) ==> r == c
  {
    if IsLowerAscii(c) then (c as int - 32) as char else c
  }

  /** `s.toLowerCase()`: the same length, each character lowered. */
  function ToLower(s: string): (r: string)
    ensures |r| == |s|
    ensures forall k :: 0 <= k < |s| ==> r[k] == Lower(s[k])
  {
    seq(|s|, k requires 0 <= k < |s| => Lower(s[k]))
  }

  /** `s.toUpperCase()`: the same length, each character raised. */
  function ToUpper(s: string): (r: string)
    ensures |r| == |s|
    ensures forall k :: 0 <= k < |s| ==> r[k] == Upper(s[k])
  {
    seq(|s|, k requires 0 <= k < |s| => Upper(s[k]))
  }

  /** Lowering twice is lowering once. */
  lemma ToLowerIdempotent(s: string)
    ensures ToLower(ToLower(s)) == ToLower(s)
  {
  }

  /** Raising then lowering gives the same as lowering: the case a string was typed in is lost. */
  lemma ToLowerOfUpper(s: string)
    ensures ToLower(ToUpper(s)) == ToLower(s)
  {
    forall k | 0 <= k < |s|
      ensures ToLower(ToUpper(s))[k] == ToLower(s)[k]
    {
      var c := s[k];
      if IsLowerAscii(c) {
        assert Lower(Upper(c)) == c;
      } else if IsUpperAscii(c) {
        assert Upper(c) == c;
      }
    }
  }

  /** `s.includes(t)`: `t` occurs in `s` as a contiguous block; the empty string occurs everywhere. */
  function Contains(s: string, t: string): bool
    decreases |s|
  {
    t <= s || (s != [] && Contains(s[1..], t))
  }

  /** A block of `s` equal to `t` at position `i` is found by `Contains`. */
  lemma {:induction false} ContainsAt(s: string, t: string, i: nat)
    requires i + |t| <= |s| && s[i..i + |t|] == t
    ensures Contains(s, t)
  {
    if i == 0 {
      assert t <= s;
    } else {
      assert s[1..][i - 1..i - 1 + |t|] == s[i..i + |t|];
      ContainsAt(s[1..], t, i - 1);
    }
  }

  /** Conversely, when `Contains` holds there is a block of `s` equal to `t`; the lemma returns
      its position. With `ContainsAt`, `Contains(s, t)` holds exactly when such a block exists. */
  lemma {:induction false} ContainsBlock(s: string, t: string) returns (i: nat)
    requires Contains(s, t)
    ensures i + |t| <= |s| && s[i..i + |t|] == t
    decreases |s|
  {
    if t <= s {
      i := 0;
      assert s[0..|t|] == t;
    } else {
      var j := ContainsBlock(s[1..], t);
      assert s[1..][j..j + |t|] == s[j + 1..j + 1 + |t|];
      i := j + 1;
    }
  }

  /** Every character of a contained string is a character of the container. */
  lemma {:induction false} ContainsChars(s: string, t: string)
    ensures Contains(s, t) ==> forall k :: 0 <= k < |t| ==> t[k] in s
    decreases |s|
  {
    if s != [] && !(t <= s) {
      ContainsChars(s[1..], t);
      assert forall c :: c in s[1..] ==> c in s;
    }
  }

  /** If some character of `t` never appears in `s`, then `s` does not contain `t`. */
  lemma NotContainsByMissingChar(s: string, t: string, c: char)
    requires c in t && c !in s
    ensures !Contains(s, t)
  {
    ContainsChars(s, t);
  }
}
