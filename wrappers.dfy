// Option and Result: a value that may be absent, and an operation that either
// completes or raises a Python exception (described by its message).
module Wrappers {

  datatype Option<+T> = None | Some(value: T)
  {
    function GetOr(default: T): T
    {
      match this
      case None => default
      case Some(v) => v
    }
  }

  datatype Result<+T> = Ok(value: T) | Raised(message: string)

  /** Two groups of output produced one after the other: the first
      exception wins, and otherwise the outputs are concatenated. */
  function Then<T>(a: Result<seq<T>>, b: Result<seq<T>>): (r: Result<seq<T>>)
    ensures r.Ok? <==> a.Ok? && b.Ok?
    ensures r.Ok? ==> r.value == a.value + b.value
    ensures a.Raised? ==> r == a
  {
    if a.Raised? then a else if b.Raised? then b else Ok(a.value + b.value)
  }

  /** A loop that computes `f(x, i)` for the i-th element and appends it,
      ending with the first exception. */
  function Collect<A, B>(xs: seq<A>, f: (A, nat) -> Result<B>): Result<seq<B>>
  {
    if xs == [] then Ok([])
    else
      var n := |xs| - 1;
      match Collect(xs[..n], f)
      case Raised(message) => Raised(message)
      case Ok(done) =>
        var y := f(xs[n], n);
        if y.Raised? then Raised(y.message) else Ok(done + [y.value])
  }

  /** The loop completes exactly when no step raises, and then holds one
      result per element, in order. */
  lemma {:induction false} CollectOk<A, B>(xs: seq<A>, f: (A, nat) -> Result<B>)
    ensures Collect(xs, f).Ok? <==> forall i :: 0 <= i < |xs| ==> f(xs[i], i).Ok?
    ensures Collect(xs, f).Ok? ==> |Collect(xs, f).value| == |xs|
    ensures Collect(xs, f).Ok? ==> forall i :: 0 <= i < |xs| ==> Collect(xs, f).value[i] == f(xs[i], i).value
  {
    if xs != [] {
      var n := |xs| - 1;
      CollectOk(xs[..n], f);
      assert forall i :: 0 <= i < n ==> xs[..n][i] == xs[i];
    }
  }

  /** Once the loop raised on a prefix, the whole loop raises the same. */
  lemma {:induction false} CollectStopsAt<A, B>(xs: seq<A>, k: nat, f: (A, nat) -> Result<B>)
    requires k <= |xs| && Collect(xs[..k], f).Raised?
    ensures Collect(xs, f) == Collect(xs[..k], f)
  {
    if k < |xs| {
      var n := |xs| - 1;
      assert xs[..n][..k] == xs[..k];
      CollectStopsAt(xs[..n], k, f);
    } else {
      assert xs[..k] == xs;
    }
  }
}
