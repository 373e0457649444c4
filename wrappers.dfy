/** Failure-compatible result types shared by every module of the model. */
module Wrappers {

  /** A Python value that may be absent (`None`). */
  datatype Option<+T> = None | Some(value: T) {
    predicate IsFailure() { None? }

    function PropagateFailure<U>(): Option<U>
      requires None?
    {
      None
    }

    function Extract(): T
      requires Some?
    {
      value
    }
  }

  /** The outcome of a Python call that either returns a value or raises. */
  datatype Result<+T, +E> = Success(value: T) | Failure(error: E) {
    predicate IsFailure() { Failure? }

    function PropagateFailure<U>(): Result<U, E>
      requires Failure?
    {
      Failure(error)
    }

    function Extract(): T
      requires Success?
    {
      value
    }
  }

  /** `f(xs[k])` is the first application of `f` to `xs` that fails. */
  predicate FirstFailureAt<A, B, E>(f: A -> Result<B, E>, xs: seq<A>, k: nat)
  {
    k < |xs| && f(xs[k]).Failure? && forall j :: 0 <= j < k ==> f(xs[j]).Success?
  }

  /** `out = []; for x in xs: out.append(f(x))`, where `f` may raise: the
      first exception stops the loop and propagates. */
  function MapAll<A, B, E>(f: A -> Result<B, E>, xs: seq<A>): (r: Result<seq<B>, E>)
    ensures r.Success? <==> forall k :: 0 <= k < |xs| ==> f(xs[k]).Success?
    ensures r.Success? ==> |r.value| == |xs|
    ensures r.Success? ==> forall k :: 0 <= k < |xs| ==> f(xs[k]) == Success(r.value[k])
    ensures r.Failure? ==> exists k: nat :: FirstFailureAt(f, xs, k) && f(xs[k]).error == r.error
    decreases |xs|
  {
    if xs == [] then Success([])
    else
      var init := xs[..|xs| - 1];
      match MapAll(f, init)
      case Failure(e) =>
        assert forall k: nat :: FirstFailureAt(f, init, k) ==> FirstFailureAt(f, xs, k);
        Failure(e)
      case Success(ys) =>
        match f(xs[|xs| - 1])
        case Failure(e) =>
          assert FirstFailureAt(f, xs, |xs| - 1);
          Failure(e)
        case Success(y) => Success(ys + [y])
  }

  /** One more turn of the loop that `MapAll` describes. */
  lemma MapAllStep<A, B, E>(f: A -> Result<B, E>, xs: seq<A>, i: nat)
    requires i < |xs| && MapAll(f, xs[..i]).Success?
    ensures MapAll(f, xs[..i + 1]) ==
      if f(xs[i]).Success? then Success(MapAll(f, xs[..i]).value + [f(xs[i]).value])
      else Failure(f(xs[i]).error)
  {
    assert xs[..i + 1][..i] == xs[..i];
  }

  /** The loop over two elements that both succeed. */
  lemma MapAllPair<A, B, E>(f: A -> Result<B, E>, x: A, y: A)
    requires f(x).Success? && f(y).Success?
    ensures MapAll(f, [x, y]) == Success([f(x).value, f(y).value])
  {
    var xs := [x, y];
    assert xs[..0] == [];
    assert MapAll(f, xs[..0]) == Success([]);
    MapAllStep(f, xs, 0);
    var first: seq<B> := [] + [f(x).value];
    assert first == [f(x).value];
    assert MapAll(f, xs[..1]) == Success(first);
    MapAllStep(f, xs, 1);
    assert first + [f(y).value] == [f(x).value, f(y).value];
    assert xs[..2] == xs;
  }

  /** Once a prefix of the loop raises, the whole loop raises the same exception. */
  lemma {:induction false} MapAllFailureExtends<A, B, E>(f: A -> Result<B, E>, xs: seq<A>, n: nat)
    requires n <= |xs| && MapAll(f, xs[..n]).Failure?
    ensures MapAll(f, xs) == MapAll(f, xs[..n])
    decreases |xs|
  {
    if n < |xs| {
      var init := xs[..|xs| - 1];
      assert init[..n] == xs[..n];
      MapAllFailureExtends(f, init, n);
    } else {
      assert xs[..n] == xs;
    }
  }

  /** The loop itself: apply `f` to each element in order, stopping at the
      first exception. */
  method CollectAll<A, B, E>(f: A -> Result<B, E>, xs: seq<A>) returns (r: Result<seq<B>, E>)
    ensures r == MapAll(f, xs)
  {
    var out: seq<B> := [];
    for i := 0 to |xs|
      invariant MapAll(f, xs[..i]) == Success(out)
    {
      MapAllStep(f, xs, i);
      var y := f(xs[i]);
      if y.Failure? {
        MapAllFailureExtends(f, xs, i + 1);
        return Failure(y.error);
      }
      out := out + [y.value];
    }
    assert xs[..|xs|] == xs;
    r := Success(out);
  }

  /** The concatenation of a sequence of sequences, in order. */
  function Flatten<T>(groups: seq<seq<T>>): seq<T>
  {
    if groups == [] then [] else Flatten(groups[..|groups| - 1]) + groups[|groups| - 1]
  }
}
