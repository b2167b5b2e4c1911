/**
 The "first in order" scan shared by both detectors: walk a sequence left to
 right, try each element, and stop at the first one that yields a value.
 */
module Search {
  import opened Wrappers

  /** The position of the first successful element and the value it yielded. */
  datatype Hit<U> = Hit(index: nat, value: U)

  /** `f(x)` yields a value for no element `x` of `s` before position `k`. */
  predicate NoneBefore<T, U>(s: seq<T>, f: T -> Option<U>, k: int)
    requires k <= |s|
  {
    forall j :: 0 <= j < k ==> f(s[j]).None?
  }

  /**
   Tries `f` on the elements of `s` in order and returns the first value it
   yields, with its position; every earlier element yielded nothing. None
   exactly when no element yields a value.
   */
  function FirstHit<T, U>(s: seq<T>, f: T -> Option<U>): (r: Option<Hit<U>>)
    ensures r.Some? ==> r.value.index < |s| && f(s[r.value.index]) == Some(r.value.value)
    ensures r.Some? ==> NoneBefore(s, f, r.value.index)
    ensures r.None? <==> NoneBefore(s, f, |s|)
    decreases |s|
  {
    if |s| == 0 then None
    else
      match f(s[0])
      case Some(v) => Some(Hit(0, v))
      case None =>
        match FirstHit(s[1..], f)
        case None => None
        case Some(h) => Some(Hit(h.index + 1, h.value))
  }

  /**
   The converse direction: whenever position `i` is the first that succeeds,
   the scan reports exactly position `i` and its value.
   */
  lemma FirstHitAt<T, U>(s: seq<T>, f: T -> Option<U>, i: nat)
    requires i < |s| && f(s[i]).Some? && NoneBefore(s, f, i)
    ensures FirstHit(s, f) == Some(Hit(i, f(s[i]).value))
  {
  }
}
