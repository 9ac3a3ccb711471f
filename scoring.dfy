/** The selection step the quantum and QBist agents share: `sum(scores)`,
    the scores scaled to probabilities (or a uniform list when they do not
    add up to something positive), and `np.argmax` of the result. */
module Scoring {

  /** Python `sum(xs)`, added from the left. */
  function Sum(xs: seq<real>): real
  {
    if xs == [] then 0.0 else Sum(xs[..|xs| - 1]) + xs[|xs| - 1]
  }

  /** A sum of values that are all at least zero is at least zero, and it is
      zero only when every value is. */
  lemma {:induction false} SumNonNegative(xs: seq<real>)
    requires forall k | 0 <= k < |xs| :: xs[k] >= 0.0
    ensures Sum(xs) >= 0.0
    ensures Sum(xs) == 0.0 ==> forall k | 0 <= k < |xs| :: xs[k] == 0.0
  {
    if xs != [] {
      SumNonNegative(xs[..|xs| - 1]);
    }
  }

  /** `np.argmax(xs)`: the first position of the largest value. */
  function FirstArgmax(xs: seq<real>): (i: nat)
    requires xs != []
    ensures i < |xs|
  {
    if |xs| == 1 then 0
    else
      var i := FirstArgmax(xs[..|xs| - 1]);
      if xs[|xs| - 1] > xs[i] then |xs| - 1 else i
  }

  /** Position `i` holds the largest value and no earlier position reaches it. */
  predicate IsFirstMax(xs: seq<real>, i: nat)
  {
    && i < |xs|
    && (forall j | 0 <= j < |xs| :: xs[j] <= xs[i])
    && (forall j | 0 <= j < i :: xs[j] < xs[i])
  }

  lemma {:induction false} FirstArgmaxSpec(xs: seq<real>)
    requires xs != []
    ensures IsFirstMax(xs, FirstArgmax(xs))
  {
    if |xs| > 1 {
      var init := xs[..|xs| - 1];
      FirstArgmaxSpec(init);
      var i := FirstArgmax(init);
      assert forall j | 0 <= j < |init| :: init[j] == xs[j];
    }
  }

  /** At most one position is the first maximum, so the predicate pins
      `np.argmax` down. */
  lemma FirstMaxUnique(xs: seq<real>, i: nat, j: nat)
    requires IsFirstMax(xs, i) && IsFirstMax(xs, j)
    ensures i == j
  {
    assert xs[i] == xs[j];
  }

  /** `np.argmax` is the only position that is a first maximum. */
  lemma FirstArgmaxIs(xs: seq<real>, i: nat)
    requires xs != [] && IsFirstMax(xs, i)
    ensures FirstArgmax(xs) == i
  {
    FirstArgmaxSpec(xs);
    FirstMaxUnique(xs, i, FirstArgmax(xs));
  }

  /** `[s / total for s in scores]` when the total is positive, otherwise
      `[1 / len(scores)] * len(scores)`. */
  function Normalize(scores: seq<real>): (probs: seq<real>)
    ensures |probs| == |scores|
  {
    var total := Sum(scores);
    if total > 0.0 then seq(|scores|, i requires 0 <= i < |scores| => scores[i] / total)
    else seq(|scores|, i requires 0 <= i < |scores| => 1.0 / |scores| as real)
  }

  lemma DivideKeepsOrder(a: real, b: real, c: real)
    requires c > 0.0
    ensures a < b <==> a / c < b / c
    ensures a <= b <==> a / c <= b / c
  {
  }

  /** Scaling to probabilities does not move the arg-max, and the uniform
      fallback picks the first action: the choice is the first best raw score
      when the scores add up to something positive, and position 0 otherwise. */
  lemma NormalizedArgmax(scores: seq<real>)
    requires scores != []
    ensures FirstArgmax(Normalize(scores)) == if Sum(scores) > 0.0 then FirstArgmax(scores) else 0
  {
    var probs := Normalize(scores);
    var total := Sum(scores);
    if total > 0.0 {
      var i := FirstArgmax(scores);
      FirstArgmaxSpec(scores);
      forall j | 0 <= j < |scores|
        ensures probs[j] <= probs[i] && (j < i ==> probs[j] < probs[i])
      {
        DivideKeepsOrder(scores[j], scores[i], total);
      }
      FirstArgmaxIs(probs, i);
    } else {
      FirstArgmaxIs(probs, 0);
    }
  }

  /** With scores that are never negative (the quantum agent's), the choice
      is always the first best raw score. */
  lemma NonNegativeArgmax(scores: seq<real>)
    requires scores != []
    requires forall k | 0 <= k < |scores| :: scores[k] >= 0.0
    ensures FirstArgmax(Normalize(scores)) == FirstArgmax(scores)
  {
    NormalizedArgmax(scores);
    SumNonNegative(scores);
    if Sum(scores) <= 0.0 {
      FirstArgmaxIs(scores, 0);
    }
  }
}
