/** A sequence mapped element by element with a step that may fail, in
    order, stopping at the first failure: the shape of a Python `for`
    loop that appends one item per iteration and whose body may raise. */
module Traversal {
  import opened Wrappers

  function Traverse<X, Y, E>(step: X -> Result<Y, E>, xs: seq<X>): (r: Result<seq<Y>, E>)
    ensures r.Success? ==> |r.value| == |xs|
    ensures r.Success? ==> forall i :: 0 <= i < |xs| ==> step(xs[i]).Success? && r.value[i] == step(xs[i]).value
    ensures r.Success? <==> forall i :: 0 <= i < |xs| ==> step(xs[i]).Success?
    ensures r.Failure? ==> exists i :: 0 <= i < |xs| && step(xs[i]).Failure? && r.error == step(xs[i]).error
    decreases |xs|
  {
    if |xs| == 0 then Success([])
    else
      var front, last := xs[..|xs| - 1], xs[|xs| - 1];
      assert forall i :: 0 <= i < |front| ==> front[i] == xs[i];
      match Traverse(step, front)
      case Failure(e) => Failure(e)
      case Success(ys) =>
        match step(last)
        case Failure(e) => Failure(e)
        case Success(y) => Success(ys + [y])
  }

  /** One more iteration: the prefix's outcome, then the last step's. */
  lemma TraverseLast<X, Y, E>(step: X -> Result<Y, E>, xs: seq<X>)
    requires |xs| > 0
    ensures var front := Traverse(step, xs[..|xs| - 1]);
      var last := step(xs[|xs| - 1]);
      Traverse(step, xs)
      == if front.Failure? then Failure(front.error)
         else if last.Failure? then Failure(last.error)
         else Success(front.value + [last.value])
  {
  }

  /** A successful prefix extended by a successful step. */
  lemma TraverseStep<X, Y, E>(step: X -> Result<Y, E>, xs: seq<X>, j: nat)
    requires j < |xs|
    requires Traverse(step, xs[..j]).Success? && step(xs[j]).Success?
    ensures Traverse(step, xs[..j + 1]) == Success(Traverse(step, xs[..j]).value + [step(xs[j]).value])
  {
    assert xs[..j + 1][..j] == xs[..j];
  }

  /** A failing step after a successful prefix is the outcome of the
      whole traversal: nothing after it runs. */
  lemma {:induction false} TraverseAbortsAt<X, Y, E>(step: X -> Result<Y, E>, xs: seq<X>, j: nat)
    requires j < |xs|
    requires Traverse(step, xs[..j]).Success? && step(xs[j]).Failure?
    ensures Traverse(step, xs) == Failure(step(xs[j]).error)
    decreases |xs|
  {
    var front := xs[..|xs| - 1];
    TraverseLast(step, xs);
    if j == |xs| - 1 {
      assert front == xs[..j];
    } else {
      assert front[..j] == xs[..j] && front[j] == xs[j];
      TraverseAbortsAt(step, front, j);
    }
  }
}
