/** Small value types and sequence helpers shared by every module of the model. */
module Util {

  /** A value that may be absent: a missing dictionary key, a `None`. */
  datatype Option<+T> = None | Some(value: T) {
    /** The value, or `default` when absent (Python's `d.get(key, default)`). */
    function GetOr(default: T): T {
      match this
      case Some(v) => v
      case None => default
    }
  }

  /** The outcome of a call that may raise: a value, or the exception it raised. */
  datatype Result<+T, +E> = Ok(value: T) | Err(error: E)

  function Min(a: int, b: int): int {
    if a <= b then a else b
  }

  /** The first `n` elements of `s`, or all of `s` when it is shorter (Python's `s[:n]`). */
  function Take<T>(s: seq<T>, n: nat): (r: seq<T>)
    ensures |r| == Min(n, |s|)
    ensures r <= s
  {
    if n <= |s| then s[..n] else s
  }

  /**
   * The index of the first element of `s` that satisfies `p`, or `|s|` when none does:
   * the position at which a left-to-right loop with an early exit stops.
   */
  function FirstWhere<T>(s: seq<T>, p: T -> bool): (k: nat)
    ensures k <= |s|
    ensures forall j :: 0 <= j < k ==> !p(s[j])
    ensures k < |s| ==> p(s[k])
  {
    if s == [] then 0
    else if p(s[0]) then 0
    else 1 + FirstWhere(s[1..], p)
  }

  /** Membership in a word list, one entry at a time: how a lookup in a small literal set of words is modelled. */
  predicate Listed(t: string, ws: seq<string>) {
    ws != [] && (ws[0] == t || Listed(t, ws[1..]))
  }

  lemma {:induction false} ListedIff(t: string, ws: seq<string>)
    ensures Listed(t, ws) <==> t in ws
  {
    if ws != [] {
      ListedIff(t, ws[1..]);
      assert ws == [ws[0]] + ws[1..];
    }
  }
}
