/** Runs of any step function: from a state through a sequence of inputs. */
module Runs {

  function Fold<S, A>(step: (S, A) -> S, s: S, inputs: seq<A>): S {
    if inputs == [] then s
    else step(Fold(step, s, inputs[..|inputs| - 1]), inputs[|inputs| - 1])
  }

  /** The state after inputs a up to b of a longer list. */
  function FoldTo<S, A>(step: (S, A) -> S, s: S, inputs: seq<A>, a: nat, b: nat): S
    requires a <= b <= |inputs|
  {
    if a == b then s else step(FoldTo(step, s, inputs, a, b - 1), inputs[b - 1])
  }

  lemma {:induction false} FoldToSplit<S, A>(step: (S, A) -> S, s: S, inputs: seq<A>, a: nat, m: nat, b: nat)
    requires a <= m <= b <= |inputs|
    ensures FoldTo(step, s, inputs, a, b) == FoldTo(step, FoldTo(step, s, inputs, a, m), inputs, m, b)
  {
    if m < b {
      FoldToSplit(step, s, inputs, a, m, b - 1);
    }
  }

  lemma {:induction false} FoldToIsFold<S, A>(step: (S, A) -> S, s: S, inputs: seq<A>, b: nat)
    requires b <= |inputs|
    ensures FoldTo(step, s, inputs, 0, b) == Fold(step, s, inputs[..b])
  {
    if b > 0 {
      FoldToIsFold(step, s, inputs, b - 1);
      assert inputs[..b][..b - 1] == inputs[..b - 1];
    }
  }

  lemma FoldOne<S, A>(step: (S, A) -> S, s: S, inputs: seq<A>, input: A)
    ensures Fold(step, s, inputs + [input]) == step(Fold(step, s, inputs), input)
  {
    assert (inputs + [input])[..|inputs|] == inputs;
  }

  /** A step without inputs, taken a number of times. */
  function Iterate<S>(step: S -> S, s: S, n: nat): S {
    if n == 0 then s else step(Iterate(step, s, n - 1))
  }

  lemma {:induction false} IterateJoin<S>(step: S -> S, s: S, m: nat, n: nat)
    ensures Iterate(step, s, m + n) == Iterate(step, Iterate(step, s, m), n)
  {
    if n > 0 {
      IterateJoin(step, s, m, n - 1);
    }
  }

  lemma IterateFirst<S>(step: S -> S, s: S, n: nat)
    requires n > 0
    ensures Iterate(step, s, n) == Iterate(step, step(s), n - 1)
  {
    IterateJoin(step, s, 1, n - 1);
    assert Iterate(step, s, 1) == step(Iterate(step, s, 0));
  }

  lemma {:induction false} IterateFixed<S>(step: S -> S, s: S, n: nat)
    requires step(s) == s
    ensures Iterate(step, s, n) == s
  {
    if n > 0 {
      IterateFixed(step, s, n - 1);
    }
  }

  /** One more input at the end of a run. */
  lemma Then<S, A>(step: (S, A) -> S, s: S, inputs: seq<A>, input: A) returns (longer: seq<A>)
    ensures longer == inputs + [input] && Fold(step, s, longer) == step(Fold(step, s, inputs), input)
  {
    longer := inputs + [input];
    FoldOne(step, s, inputs, input);
  }

  /** What holds at first and is kept by every step holds in every run. */
  lemma {:induction false} FoldKeeps<S(!new), A(!new)>(step: (S, A) -> S, s: S, inputs: seq<A>, inv: S -> bool)
    requires inv(s) && forall t, a :: inv(t) ==> inv(step(t, a))
    ensures inv(Fold(step, s, inputs))
  {
    if inputs != [] {
      FoldKeeps(step, s, inputs[..|inputs| - 1], inv);
    }
  }

  lemma {:induction false} FoldJoin<S, A>(step: (S, A) -> S, s: S, xs: seq<A>, ys: seq<A>)
    ensures Fold(step, s, xs + ys) == Fold(step, Fold(step, s, xs), ys)
  {
    if ys == [] {
      assert xs + ys == xs;
    } else {
      var most, last := ys[..|ys| - 1], ys[|ys| - 1];
      FoldJoin(step, s, xs, most);
      FoldOne(step, s, xs + most, last);
      assert xs + ys == xs + most + [last];
    }
  }
}
