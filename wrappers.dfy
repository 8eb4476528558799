/** Option type standing in for C# null references and for dialogs the user can cancel. */
module Wrappers {

  datatype Option<+T> = None | Some(value: T)

  /** Every element present: a list of references none of which is null, or of entries none of which was skipped. */
  function AllSome<T>(xs: seq<T>): (r: seq<Option<T>>)
    ensures |r| == |xs| && forall i :: 0 <= i < |xs| ==> r[i] == Some(xs[i])
  {
    seq(|xs|, i requires 0 <= i < |xs| => Some(xs[i]))
  }
}
