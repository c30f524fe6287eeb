/** Option and Result, the two wrappers every other module uses. */
module Wrappers {

  /** A value that may be absent: Python's `None`. */
  datatype Option<+T> = None | Some(value: T)

  /** The outcome of a Python call: it returned a value, or an exception
      escaped with the given message (`str(e)`). */
  datatype Result<+T> = Ok(value: T) | Raised(error: string) {

    predicate IsFailure() {
      Raised?
    }

    function PropagateFailure<U>(): Result<U>
      requires Raised?
    {
      Raised(error)
    }

    function Extract(): T
      requires Ok?
    {
      value
    }
  }

  /** A loop that applies `f` to each element in order and collects the
      results; the first exception ends it and escapes. */
  function MapAll<A, B>(f: A -> Result<B>, xs: seq<A>): (r: Result<seq<B>>)
    ensures r.Ok? ==> |r.value| == |xs|
    decreases |xs|
  {
    if xs == [] then Ok([])
    else
      match MapAll(f, xs[..|xs| - 1])
      case Raised(e) => Raised(e)
      case Ok(ys) =>
        match f(xs[|xs| - 1])
        case Raised(e) => Raised(e)
        case Ok(y) => Ok(ys + [y])
  }

  /** A loop that does not raise gives each element's own result, in order. */
  lemma {:induction false} MapAllEach<A, B>(f: A -> Result<B>, xs: seq<A>)
    requires MapAll(f, xs).Ok?
    ensures forall i :: 0 <= i < |xs| ==> f(xs[i]) == Ok(MapAll(f, xs).value[i])
    decreases |xs|
  {
    if xs != [] {
      var prev := xs[..|xs| - 1];
      MapAllEach(f, prev);
      forall i | 0 <= i < |xs| ensures f(xs[i]) == Ok(MapAll(f, xs).value[i]) {
        if i < |prev| {
          assert xs[i] == prev[i];
        }
      }
    }
  }

  /** Once an element raised, the whole loop raises with that exception. */
  lemma {:induction false} MapAllSettled<A, B>(f: A -> Result<B>, xs: seq<A>, n: nat)
    requires n <= |xs| && MapAll(f, xs[..n]).Raised?
    ensures MapAll(f, xs) == MapAll(f, xs[..n])
    decreases |xs|
  {
    if n < |xs| {
      var prev := xs[..|xs| - 1];
      assert prev[..n] == xs[..n];
      MapAllSettled(f, prev, n);
    } else {
      assert xs[..n] == xs;
    }
  }

  /** When `f` never raises, neither does the loop. */
  lemma {:induction false} MapAllTotal<A, B>(f: A -> Result<B>, xs: seq<A>)
    requires forall x :: f(x).Ok?
    ensures MapAll(f, xs).Ok?
    decreases |xs|
  {
    if xs != [] {
      MapAllTotal(f, xs[..|xs| - 1]);
    }
  }
}
