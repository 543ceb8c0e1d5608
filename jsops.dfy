/** The two JavaScript operators whose integer behaviour the pages rely on:
    `Array.prototype.slice(start, end)` and the remainder operator `%`. */
module JsOps {

  function Min(a: int, b: int): int { if a <= b then a else b }

  function Max(a: int, b: int): int { if a >= b then a else b }

  /** How `slice` turns an argument into a position: a negative argument counts back from
      the end, and the position is clamped to `[0, len]`. */
  function Clamp(k: int, len: nat): (r: nat)
    ensures r <= len
    ensures 0 <= k ==> r == Min(k, len)
    ensures k < 0 ==> r == Max(len + k, 0)
  {
    if k < 0 then Max(len + k, 0) else Min(k, len)
  }

  /** `s.slice(start, end)`: the elements from position `start` up to, not including, `end`,
      both resolved by `Clamp`; empty when the resolved end is not after the resolved start. */
  function Slice<T>(s: seq<T>, start: int, end: int): (r: seq<T>)
  {
    var from, to := Clamp(start, |s|), Clamp(end, |s|);
    if from < to then s[from..to] else []
  }

  /** For non-negative bounds the slice is the block `[start, end)` clipped to the sequence. */
  lemma SliceNonNegative<T>(s: seq<T>, start: nat, end: nat)
    requires start <= end
    ensures Slice(s, start, end) == s[Min(start, |s|)..Min(end, |s|)]
    ensures |Slice(s, start, end)| <= end - start
  {
  }

  /** `a % b` in JavaScript for a positive divisor: the sign of the result follows the dividend
      (truncating division), unlike Dafny's `%`, whose result is never negative. */
  function Rem(a: int, b: int): (r: int)
    requires b > 0
    ensures a >= 0 ==> 0 <= r < b
    ensures a < 0 ==> -b < r <= 0
  {
    if a >= 0 then a % b else -((-a) % b)
  }

  /** On a non-negative dividend and positive divisor the JavaScript remainder is Dafny's. */
  lemma RemNonNegative(a: nat, b: int)
    requires b > 0
    ensures Rem(a, b) == a % b
  {
  }

  /** Negating the dividend negates the JavaScript remainder; with `RemNonNegative` this fixes
      the value for every dividend, e.g. `-7 % 3` is `-1`. */
  lemma RemOdd(a: int, b: int)
    requires b > 0
    ensures Rem(-a, b) == -Rem(a, b)
  {
  }
}
