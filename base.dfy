/** Failure-carrying values shared by every module of the model. */
module Base {

  /** Python's "value or None". */
  datatype Option<T> = None | Some(value: T)

  /**
    A return value, or the exception raised instead of returning; `:-`
    passes an exception on, as an uncaught `raise` does.
   */
  datatype Result<T, E> = Ok(value: T) | Err(error: E) {
    predicate IsFailure() {
      Err?
    }

    function PropagateFailure<U>(): Result<U, E>
      requires Err?
    {
      Err(error)
    }

    function Extract(): T
      requires Ok?
    {
      value
    }
  }

  /**
    A loop over `xs` in which iteration `i` contributes `step(i, xs[i])` to
    the output, and the first iteration that raises ends the loop with that
    exception.
   */
  function Collect<A, B, E>(xs: seq<A>, step: (nat, A) -> Result<seq<B>, E>): Result<seq<B>, E>
  {
    if xs == [] then Ok([])
    else
      var init :- Collect(xs[..|xs| - 1], step);
      var last :- step(|xs| - 1, xs[|xs| - 1]);
      Ok(init + last)
  }

  /** One more iteration: its contribution is appended, or its exception ends the loop. */
  lemma CollectSnoc<A, B, E>(xs: seq<A>, x: A, step: (nat, A) -> Result<seq<B>, E>)
    ensures Collect(xs, step).Err? ==> Collect(xs + [x], step) == Collect(xs, step)
    ensures Collect(xs, step).Ok? && step(|xs|, x).Err? ==>
      Collect(xs + [x], step) == Err(step(|xs|, x).error)
    ensures Collect(xs, step).Ok? && step(|xs|, x).Ok? ==>
      Collect(xs + [x], step) == Ok(Collect(xs, step).value + step(|xs|, x).value)
  {
    assert (xs + [x])[..|xs|] == xs;
  }

  /** An exception raised in an early iteration is the exception of the whole loop. */
  lemma {:induction false} CollectPrefixFails<A, B, E>(xs: seq<A>, k: nat, step: (nat, A) -> Result<seq<B>, E>)
    requires k <= |xs| && Collect(xs[..k], step).Err?
    ensures Collect(xs, step) == Collect(xs[..k], step)
    decreases |xs| - k
  {
    if k < |xs| {
      assert xs[..k + 1] == xs[..k] + [xs[k]];
      CollectSnoc(xs[..k], xs[k], step);
      CollectPrefixFails(xs, k + 1, step);
    } else {
      assert xs[..k] == xs;
    }
  }

  /** When no iteration raises, every contribution is kept, in order. */
  lemma {:induction false} CollectAllOk<A, B, E>(xs: seq<A>, step: (nat, A) -> Result<seq<B>, E>)
    requires forall i :: 0 <= i < |xs| ==> step(i, xs[i]).Ok?
    ensures Collect(xs, step).Ok?
    ensures xs != [] ==>
      Collect(xs, step).value == Collect(xs[..|xs| - 1], step).value + step(|xs| - 1, xs[|xs| - 1]).value
  {
    if xs != [] {
      var init := xs[..|xs| - 1];
      assert forall i :: 0 <= i < |init| ==> init[i] == xs[i];
      CollectAllOk(init, step);
    }
  }

  /** Iteration `j` of the loop, once the iterations before it have all succeeded. */
  lemma CollectNext<A, B, E>(xs: seq<A>, j: nat, step: (nat, A) -> Result<seq<B>, E>)
    requires j < |xs| && Collect(xs[..j], step).Ok?
    ensures step(j, xs[j]).Err? ==> Collect(xs, step) == Err(step(j, xs[j]).error)
    ensures step(j, xs[j]).Ok? ==>
      Collect(xs[..j + 1], step) == Ok(Collect(xs[..j], step).value + step(j, xs[j]).value)
  {
    assert xs[..j + 1] == xs[..j] + [xs[j]];
    CollectSnoc(xs[..j], xs[j], step);
    if step(j, xs[j]).Err? {
      CollectPrefixFails(xs, j + 1, step);
    }
  }

  /** Two loops whose iterations agree on every item end the same way. */
  lemma {:induction false} CollectSameSteps<A, B, E>(xs: seq<A>, s1: (nat, A) -> Result<seq<B>, E>, s2: (nat, A) -> Result<seq<B>, E>)
    requires forall i :: 0 <= i < |xs| ==> s1(i, xs[i]) == s2(i, xs[i])
    ensures Collect(xs, s1) == Collect(xs, s2)
  {
    if xs != [] {
      var init := xs[..|xs| - 1];
      assert forall i :: 0 <= i < |init| ==> init[i] == xs[i];
      CollectSameSteps(init, s1, s2);
    }
  }

  /** A loop each of whose iterations contributes exactly one item produces those items, in order. */
  lemma {:induction false} CollectSingles<A, B, E>(xs: seq<A>, ys: seq<B>, step: (nat, A) -> Result<seq<B>, E>)
    requires |ys| == |xs|
    requires forall i :: 0 <= i < |xs| ==> step(i, xs[i]) == Ok([ys[i]])
    ensures Collect(xs, step) == Ok(ys)
  {
    if xs != [] {
      var n := |xs| - 1;
      var init := xs[..n];
      assert forall i :: 0 <= i < |init| ==> init[i] == xs[i];
      CollectSingles(init, ys[..n], step);
      assert xs == init + [xs[n]];
      CollectSnoc(init, xs[n], step);
      assert ys == ys[..n] + [ys[n]];
    }
  }

  /** A loop none of whose iterations contributes anything produces nothing. */
  lemma {:induction false} CollectNothing<A, B, E>(xs: seq<A>, step: (nat, A) -> Result<seq<B>, E>)
    requires forall i :: 0 <= i < |xs| ==> step(i, xs[i]) == Ok([])
    ensures Collect(xs, step) == Ok([])
  {
    if xs != [] {
      var init := xs[..|xs| - 1];
      assert forall i :: 0 <= i < |init| ==> init[i] == xs[i];
      CollectNothing(init, step);
      assert xs == init + [xs[|xs| - 1]];
      CollectSnoc(init, xs[|xs| - 1], step);
      assert step(|xs| - 1, xs[|xs| - 1]).value + [] == [];
    }
  }

  /** A loop over one item is that item's iteration. */
  lemma CollectOne<A, B, E>(x: A, step: (nat, A) -> Result<seq<B>, E>)
    ensures Collect([x], step) == step(0, x)
  {
    assert [x][..0] == [];
    if step(0, x).Ok? {
      assert [] + step(0, x).value == step(0, x).value;
    }
  }
}
