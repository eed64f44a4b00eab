/**
 * `Array.prototype.find` / `findIndex`: scan a sequence left to right and stop
 * at the first element the predicate accepts.
 */
module ArrayFind {
  import opened Wrappers

  /** `i` is the index at which a left-to-right scan with `p` stops. */
  predicate IsFirst<T>(s: seq<T>, p: T -> bool, i: nat) {
    i < |s| && p(s[i]) && forall j :: 0 <= j < i ==> !p(s[j])
  }

  /** The index of the first element accepted by `p`, or `None` when none is. */
  function FirstIndex<T>(s: seq<T>, p: T -> bool): (r: Option<nat>)
    ensures r.Some? ==> IsFirst(s, p, r.value)
    ensures r.None? <==> forall j :: 0 <= j < |s| ==> !p(s[j])
  {
    if |s| == 0 then None
    else if p(s[0]) then Some(0)
    else match FirstIndex(s[1..], p)
      case None => None
      case Some(i) =>
        assert s[1..][i] == s[i + 1];
        Some(i + 1)
  }

  /** A scan over `a + b` stops inside `a` if `a` has a match, and otherwise
      where a scan over `b` stops, shifted by `|a|`. */
  lemma {:induction false} FirstIndexAppend<T>(a: seq<T>, b: seq<T>, p: T -> bool)
    ensures FirstIndex(a + b, p) ==
      match FirstIndex(a, p)
      case Some(i) => Some(i)
      case None =>
        match FirstIndex(b, p)
        case Some(j) => Some(|a| + j)
        case None => None
  {
    if |a| == 0 {
      assert a + b == b;
    } else {
      assert (a + b)[0] == a[0];
      if !p(a[0]) {
        assert (a + b)[1..] == a[1..] + b;
        FirstIndexAppend(a[1..], b, p);
      }
    }
  }
}
