/**
 * The few JavaScript value semantics the tray application relies on:
 * optional (`undefined`) values, truthiness, and the two string
 * operations it calls, `indexOf` and `substr`.
 */
module Js {

  /** A JavaScript value that may be `undefined` (`None`). */
  datatype Option<T> = None | Some(value: T)

  /** Truthiness of a number that may be `undefined`: only `undefined` and 0 are falsy. */
  predicate Truthy(n: Option<int>) {
    n.Some? && n.value != 0
  }

  /** Truthiness of a string that may be `undefined`: only `undefined` and "" are falsy. */
  predicate StringTruthy(s: Option<string>) {
    s.Some? && s.value != ""
  }

  predicate StartsWith(s: string, prefix: string) {
    |prefix| <= |s| && s[..|prefix|] == prefix
  }

  /** `p` occurs in `s` at position `k`. */
  predicate OccursAt(s: string, p: string, k: nat) {
    k + |p| <= |s| && s[k..k + |p|] == p
  }

  /**
   * `s.indexOf(p, from)`: the first position at or after `from` where `p`
   * occurs in `s`, or -1 when there is none.
   */
  function IndexOf(s: string, p: string, from: nat): (r: int)
    ensures r == -1 || (from <= r && OccursAt(s, p, r))
    ensures r != -1 ==> forall k: nat :: from <= k < r ==> !OccursAt(s, p, k)
    ensures r == -1 ==> forall k: nat :: from <= k ==> !OccursAt(s, p, k)
    decreases |s| - from
  {
    if from + |p| > |s| then -1
    else if s[from..from + |p|] == p then from
    else IndexOf(s, p, from + 1)
  }

  /** `s.indexOf(p) === 0` holds exactly when `s` starts with `p`. */
  lemma IndexOfZero(s: string, p: string)
    ensures IndexOf(s, p, 0) == 0 <==> StartsWith(s, p)
  {
  }

  /** `s.substr(start, length)` for a non-negative start: at most `length` characters from `start`. */
  function Substr(s: string, start: nat, length: nat): (r: string)
    ensures |r| <= length
    ensures start <= |s| ==> start + |r| <= |s| && s[start..start + |r|] == r
    ensures start + length <= |s| ==> |r| == length
    ensures |s| < start + length ==> r == (if start <= |s| then s[start..] else "")
  {
    if start >= |s| then ""
    else if start + length <= |s| then s[start..start + length]
    else s[start..]
  }

  /** `s.substr(0, |p|) === p` is the same test as "s starts with p". */
  lemma SubstrPrefix(s: string, p: string)
    ensures Substr(s, 0, |p|) == p <==> StartsWith(s, p)
  {
  }
}
