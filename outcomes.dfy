/** Option, and the three ways a Rust computation of this program can end:
    an `Ok` value, a returned `Err` with a static message, or a panic that
    unwinds the whole program. */
module Outcomes {

  datatype Option<+T> = None | Some(value: T)

  datatype Outcome<+T> = Ok(value: T) | Err(error: string) | Panic(message: string) {

    predicate IsFailure() {
      !Ok?
    }

    /** The same failure, at another value type. */
    function PropagateFailure<U>(): (r: Outcome<U>)
      requires IsFailure()
    {
      if Err? then Err(error) else Panic(message)
    }

    function Extract(): (v: T)
      requires Ok?
    {
      value
    }

    /** Rust's `Result::and_then`: a failure passes through, `f` is not evaluated. */
    function AndThen<U>(f: T -> Outcome<U>): (r: Outcome<U>) {
      if Ok? then f(value) else PropagateFailure()
    }

    /** Rust's `Result::map`. */
    function Map<U>(f: T -> U): (r: Outcome<U>) {
      if Ok? then Ok(f(value)) else PropagateFailure()
    }
  }

  /** Rust's `Option::ok_or`. */
  function OkOr<T>(o: Option<T>, error: string): (r: Outcome<T>) {
    match o
    case Some(v) => Ok(v)
    case None => Err(error)
  }

  /** `xs.into_iter().map(f).collect::<Result<Vec<_>, _>>()`: the elements are
      converted from left to right and the first one that fails ends the
      traversal, so no partial list is ever returned. */
  function Collect<A, B>(xs: seq<A>, f: A -> Outcome<B>): (r: Outcome<seq<B>>)
    ensures r.Ok? <==> forall i :: 0 <= i < |xs| ==> f(xs[i]).Ok?
    ensures r.Ok? ==> |r.value| == |xs| && forall i :: 0 <= i < |xs| ==> r.value[i] == f(xs[i]).value
    ensures !r.Ok? ==> exists k :: 0 <= k < |xs| && !f(xs[k]).Ok? && r == f(xs[k]).PropagateFailure()
    decreases |xs|
  {
    if xs == [] then Ok([])
    else
      var head :- f(xs[0]);
      var tail :- Collect(xs[1..], f);
      Ok([head] + tail)
  }

  /** When `xs[k]` is the first element that fails, collecting fails exactly as it does. */
  lemma {:induction false} CollectFirstFailure<A, B>(xs: seq<A>, f: A -> Outcome<B>, k: nat)
    requires k < |xs| && !f(xs[k]).Ok?
    requires forall j :: 0 <= j < k ==> f(xs[j]).Ok?
    ensures Collect(xs, f) == f(xs[k]).PropagateFailure()
  {
    if k > 0 {
      forall j | 0 <= j < k - 1 ensures f(xs[1..][j]).Ok? {
        assert xs[1..][j] == xs[j + 1];
      }
      CollectFirstFailure(xs[1..], f, k - 1);
    }
  }

  /** When every element converts, collecting yields exactly the converted elements. */
  lemma CollectAllOk<A, B>(xs: seq<A>, f: A -> Outcome<B>, ys: seq<B>)
    requires |xs| == |ys| && forall i :: 0 <= i < |xs| ==> f(xs[i]) == Ok(ys[i])
    ensures Collect(xs, f) == Ok(ys)
  {
    assert Collect(xs, f).value == ys;
  }
}
