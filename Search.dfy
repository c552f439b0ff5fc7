/** Linear scans over sequences: every "for each element, stop at the first that
    matches" loop of the game is an instance of `FirstIndex`, run by `Find`. */
module Search {

  datatype Option<T> = None | Some(value: T)

  /** The index of the first element of `s` that satisfies `P`, or None when no element does. */
  function FirstIndex<T>(s: seq<T>, P: T -> bool): (r: Option<nat>)
    ensures r.Some? ==> r.value < |s| && P(s[r.value])
    ensures r.Some? ==> forall j :: 0 <= j < r.value ==> !P(s[j])
    ensures r.None? ==> forall j :: 0 <= j < |s| ==> !P(s[j])
    decreases |s|
  {
    if s == [] then None
    else if P(s[0]) then Some(0)
    else match FirstIndex(s[1..], P)
      case None => None
      case Some(k) => Some(k + 1)
  }

  /** The scanning loop: walks `s` from the front and returns at the first match. */
  method Find<T>(s: seq<T>, P: T -> bool) returns (r: Option<nat>)
    ensures r == FirstIndex(s, P)
  {
    var i := 0;
    while i < |s|
      invariant 0 <= i <= |s|
      invariant forall j :: 0 <= j < i ==> !P(s[j])
    {
      if P(s[i]) {
        return Some(i);
      }
      i := i + 1;
    }
    return None;
  }
}
