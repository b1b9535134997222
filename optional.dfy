/** Kotlin's nullable types, as an Option, and the one library helper over them the
    app uses (listOfNotNull). */
module Optional {

  /** `T?` in Kotlin: None stands for null. */
  datatype Option<+T> = None | Some(value: T) {

    /** The elvis operator `x ?: default`. */
    function GetOr(default: T): (r: T)
      ensures Some? ==> r == value
      ensures None? ==> r == default
    {
      match this
      case Some(v) => v
      case None => default
    }
  }

  /** Kotlin's `listOfNotNull(xs...)`: the non-null elements, in order. */
  function ListOfNotNull<T>(xs: seq<Option<T>>): (r: seq<T>)
    ensures xs == [] ==> r == []
    ensures |xs| == 1 && xs[0].Some? ==> r == [xs[0].value]
    ensures |xs| == 1 && xs[0].None? ==> r == []
    ensures |r| <= |xs|
    ensures forall i :: 0 <= i < |r| ==> Some(r[i]) in xs
    ensures forall j :: 0 <= j < |xs| && xs[j].Some? ==> xs[j].value in r
    ensures (forall i :: 0 <= i < |xs| ==> xs[i].Some?) ==> |r| == |xs|
  {
    if xs == [] then []
    else
      var rest := ListOfNotNull(xs[1..]);
      assert forall j :: 1 <= j < |xs| ==> xs[j] == xs[1..][j - 1];
      match xs[0]
      case Some(x) => [x] + rest
      case None => rest
  }

  /** The result for a concatenation is the concatenation of the results: with the
      one-element cases above this fixes the result's order and multiplicity. */
  lemma {:induction false} ListOfNotNullAppend<T>(xs: seq<Option<T>>, ys: seq<Option<T>>)
    ensures ListOfNotNull(xs + ys) == ListOfNotNull(xs) + ListOfNotNull(ys)
  {
    if xs != [] {
      assert (xs + ys)[1..] == xs[1..] + ys;
      ListOfNotNullAppend(xs[1..], ys);
    } else {
      assert xs + ys == ys;
    }
  }
}
