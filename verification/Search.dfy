/** Linear search, as `find` and `findIndex` of an array do it. */
module Search {

  /** The first index whose element is looked for, or the length. */
  function FindIndex<T>(xs: seq<T>, wanted: T -> bool): (k: nat)
    ensures k <= |xs| && (k < |xs| ==> wanted(xs[k]))
    ensures forall i :: 0 <= i < k ==> !wanted(xs[i])
  {
    if xs == [] || wanted(xs[0]) then 0 else 1 + FindIndex(xs[1..], wanted)
  }
}
