/** JavaScript's `Array.prototype.find` and `some`, as an index search over a sequence. */
module Search {
  import opened Wrappers

  /** `i` is the position `find(p)` stops at: `p` holds there and nowhere before it. */
  ghost predicate IsFirst<T>(s: seq<T>, p: T -> bool, i: nat)
  {
    i < |s| && p(s[i]) && forall j :: 0 <= j < i ==> !p(s[j])
  }

  /** The index of the first element satisfying `p`, or `None` when there is none. */
  function FindFirst<T>(s: seq<T>, p: T -> bool): (r: Option<nat>)
    ensures r.Some? ==> IsFirst(s, p, r.value)
    ensures r.None? <==> forall j :: 0 <= j < |s| ==> !p(s[j])
  {
    if |s| == 0 then None
    else if p(s[0]) then Some(0)
    else match FindFirst(s[1..], p)
      case None => None
      case Some(k) => Some(k + 1)
  }

  /** The first element is unique: two indices that are both first are equal. */
  lemma FirstIsUnique<T>(s: seq<T>, p: T -> bool, i: nat, j: nat)
    requires IsFirst(s, p, i) && IsFirst(s, p, j)
    ensures i == j
  {
  }
}
