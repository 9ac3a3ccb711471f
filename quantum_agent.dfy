/** The quantum agent's decision: its score is the trace of a maximally
    mixed state against the projector onto the atomic bets an action uses. */
module QuantumAgent {
  import opened Wrappers
  import opened Text
  import opened Labels
  import opened Seqs
  import opened Sorting
  import opened Payouts
  import opened Probabilities
  import opened AgentUtils
  import opened Scoring
  import AtomicActions

  // ---------------------------------------------------------------------
  // choose_action
  // ---------------------------------------------------------------------

  /** Python's `<=` on strings is a total order. */
  lemma LexLeqIsTotalOrder()
    ensures IsTotalOrder(LexLeq)
  {
    forall a: string, b: string ensures LexLeq(a, b) || LexLeq(b, a) {
      LexLessTotal(a, b);
    }
    forall a: string, b: string | LexLeq(a, b) && LexLeq(b, a) ensures a == b {
      if a != b {
        LexLessAsymmetric(a, b);
      }
    }
    forall a: string, b: string, c: string | LexLeq(a, b) && LexLeq(b, c) ensures LexLeq(a, c) {
      if a != b && b != c {
        LexLessTransitive(a, b, c);
      }
    }
  }

  /** `sorted({a for combo in legal for a in combo})` */
  function AtomicSet(legal: seq<seq<string>>): (atoms: seq<string>)
    ensures StrictlySortedBy(atoms, LexLeq)
    ensures forall a :: a in atoms <==> a in Flatten(legal)
  {
    LexLeqIsTotalOrder();
    SortedDistinct(Flatten(legal), LexLeq)
  }

  /** `min(n, max_dim or n)`: no cap, or a cap of 0, means n. */
  function QuantumDim(n: nat, maxDim: Option<int>): (d: int)
    ensures d <= n
    ensures d < 0 <==> maxDim.Some? && maxDim.value < 0
    ensures maxDim.None? || maxDim.value == 0 || maxDim.value >= n ==> d == n
  {
    var cap := if maxDim.None? || maxDim.value == 0 then n else maxDim.value;
    if n <= cap then n else cap
  }

  /** The action vector: entry k is set when the k-th atomic bet is in the
      combo (the vector has one entry per kept dimension). */
  function ActionVector(atoms: seq<string>, d: nat, combo: seq<string>): (v: seq<bool>)
    requires d <= |atoms|
    ensures |v| == d
    ensures forall k | 0 <= k < d :: v[k] == (atoms[k] in combo)
  {
    seq(d, k requires 0 <= k < d => atoms[k] in combo)
  }

  function CountSet(v: seq<bool>): (n: nat)
    ensures n <= |v|
  {
    if v == [] then 0 else CountSet(v[..|v| - 1]) + (if v[|v| - 1] then 1 else 0)
  }

  /** `Tr(rho E_A)` with `rho = I/d`: the share of the d kept atomic bets that
      the combo uses (0 for an empty space). */
  function Score(atoms: seq<string>, d: nat, combo: seq<string>): real
    requires d <= |atoms|
  {
    if d == 0 then 0.0 else CountSet(ActionVector(atoms, d, combo)) as real / d as real
  }

  lemma {:induction false} CountSetBounds(v: seq<bool>)
    ensures CountSet(v) > 0 <==> exists k :: 0 <= k < |v| && v[k]
    ensures CountSet(v) == |v| <==> forall k | 0 <= k < |v| :: v[k]
  {
    if v != [] {
      var init := v[..|v| - 1];
      CountSetBounds(init);
      assert forall k | 0 <= k < |init| :: init[k] == v[k];
      if exists k :: 0 <= k < |v| && v[k] {
        var k :| 0 <= k < |v| && v[k];
        if k < |init| {
          assert init[k];
        }
      }
    }
  }

  lemma {:induction false} CountSetMonotone(v: seq<bool>, w: seq<bool>)
    requires |v| == |w|
    requires forall k | 0 <= k < |v| :: v[k] ==> w[k]
    ensures CountSet(v) <= CountSet(w)
  {
    if v != [] {
      CountSetMonotone(v[..|v| - 1], w[..|w| - 1]);
    }
  }

  /** A score is a probability: at least 0, at most 1; it is positive exactly
      when the combo uses one of the kept atomic bets, and 1 exactly when it
      uses all of them. */
  lemma ScoreBounds(atoms: seq<string>, d: nat, combo: seq<string>)
    requires d <= |atoms|
    ensures 0.0 <= Score(atoms, d, combo) <= 1.0
    ensures Score(atoms, d, combo) > 0.0 <==> exists k :: 0 <= k < d && atoms[k] in combo
    ensures d > 0 ==> (Score(atoms, d, combo) == 1.0 <==> forall k | 0 <= k < d :: atoms[k] in combo)
  {
    var v := ActionVector(atoms, d, combo);
    CountSetBounds(v);
    if d > 0 {
      ShareBounds(CountSet(v), d);
    }
  }

  /** A count of at most d, over d, lies in [0, 1]; it is positive exactly
      when the count is, and 1 exactly when the count is d. */
  lemma ShareBounds(c: nat, d: nat)
    requires 0 < d && c <= d
    ensures 0.0 <= c as real / d as real <= 1.0
    ensures c as real / d as real > 0.0 <==> c > 0
    ensures c as real / d as real == 1.0 <==> c == d
  {
    DivideKeepsOrder(c as real, d as real, d as real);
    DivideKeepsOrder(0.0, c as real, d as real);
  }

  /** A combo using every atomic bet another combo uses scores at least as
      high. */
  lemma ScoreMonotone(atoms: seq<string>, d: nat, combo: seq<string>, larger: seq<string>)
    requires d <= |atoms|
    requires forall a | a in combo :: a in larger
    ensures Score(atoms, d, combo) <= Score(atoms, d, larger)
  {
    CountSetMonotone(ActionVector(atoms, d, combo), ActionVector(atoms, d, larger));
    if d > 0 {
      var x := CountSet(ActionVector(atoms, d, combo));
      var y := CountSet(ActionVector(atoms, d, larger));
      DivideKeepsOrder(x as real, y as real, d as real);
    }
  }

  /** One score per legal action, in order. */
  function Scores(atoms: seq<string>, d: nat, legal: seq<seq<string>>): (scores: seq<real>)
    requires d <= |atoms|
    ensures |scores| == |legal|
  {
    seq(|legal|, i requires 0 <= i < |legal| => Score(atoms, d, legal[i]))
  }

  /** `choose_action` of the quantum agent: None without legal actions; a
      negative cap makes `np.eye` raise; otherwise the legal action at the
      arg-max of the normalised scores. */
  function QuantumChoose(legal: seq<seq<string>>, maxDim: Option<int>): Result<Option<seq<string>>>
  {
    if legal == [] then Ok(None)
    else
      var atoms := AtomicSet(legal);
      var d := QuantumDim(|atoms|, maxDim);
      if d < 0 then Err(ValueError("negative dimensions are not allowed"))
      else Ok(Some(legal[FirstArgmax(Normalize(Scores(atoms, d, legal)))]))
  }

  /** The legal action at position `i` is the first that uses the most of
      the d kept atomic bets. */
  predicate ChoosesFirstBest(legal: seq<seq<string>>, d: int, i: nat)
  {
    var atoms := AtomicSet(legal);
    0 <= d <= |atoms| && IsFirstMax(Scores(atoms, d, legal), i)
  }

  /** The quantum agent takes the first legal action that uses the most of
      the d kept atomic bets (the first d in sorted order); only a negative
      cap makes it fail. */
  lemma QuantumChooseSpec(legal: seq<seq<string>>, maxDim: Option<int>)
    ensures QuantumChoose(legal, maxDim) == Ok(None) <==> legal == []
    ensures QuantumChoose(legal, maxDim).Err? <==> legal != [] && maxDim.Some? && maxDim.value < 0
    ensures legal != [] && QuantumChoose(legal, maxDim).Ok? ==>
      exists i :: 0 <= i < |legal| && ChoosesFirstBest(legal, QuantumDim(|AtomicSet(legal)|, maxDim), i)
        && QuantumChoose(legal, maxDim) == Ok(Some(legal[i]))
  {
    if legal != [] {
      var atoms := AtomicSet(legal);
      var d := QuantumDim(|atoms|, maxDim);
      if d >= 0 {
        var scores := Scores(atoms, d, legal);
        forall k | 0 <= k < |scores| ensures scores[k] >= 0.0 {
          ScoreBounds(atoms, d, legal[k]);
        }
        NonNegativeArgmax(scores);
        FirstArgmaxSpec(scores);
        assert ChoosesFirstBest(legal, d, FirstArgmax(scores));
      }
    }
  }

  /** When no cap applies, every label of every action is kept, and the
      agent picks the first action with the most distinct atomic bets. */
  lemma UncappedScoresCountLabels(legal: seq<seq<string>>, c: seq<string>)
    requires c in legal
    ensures var atoms := AtomicSet(legal);
      QuantumDim(|atoms|, None) == |atoms| &&
      forall a | a in c :: exists k :: 0 <= k < |atoms| && atoms[k] == a
  {
    var atoms := AtomicSet(legal);
    forall a | a in c ensures exists k :: 0 <= k < |atoms| && atoms[k] == a {
      FlattenMembers(legal, a);
      var j :| 0 <= j < |legal| && legal[j] == c;
      assert a in Flatten(legal);
    }
  }

  /** `atomic_set.index(a)`: the first position of `a`. */
  function Position(s: seq<string>, a: string): (i: nat)
    requires a in s
    ensures i < |s| && s[i] == a
  {
    if s[0] == a then 0 else 1 + Position(s[1..], a)
  }

  /** The loop that fills `action_vec`: each atomic bet of the combo sets the
      entry at its position when the position is below d. */
  method BuildActionVector(atoms: seq<string>, d: nat, combo: seq<string>) returns (vec: array<bool>)
    requires d <= |atoms|
    requires StrictlySortedBy(atoms, LexLeq)
    ensures fresh(vec)
    ensures vec[..] == ActionVector(atoms, d, combo)
  {
    vec := new bool[d](k => false);
    for j := 0 to |combo|
      invariant vec.Length == d
      invariant forall k | 0 <= k < d :: vec[k] == (atoms[k] in combo[..j])
    {
      assert combo[..j + 1] == combo[..j] + [combo[j]];
      var a := combo[j];
      if a in atoms {
        var idx := Position(atoms, a);
        if idx < d {
          vec[idx] := true;
        }
      }
    }
    assert combo[..|combo|] == combo;
  }

  /** `np.real(np.trace(rho @ E_A))`: add 1 for each set entry, then divide by d. */
  method TraceScore(vec: array<bool>, d: nat) returns (score: real)
    requires vec.Length == d
    ensures score == if d == 0 then 0.0 else CountSet(vec[..]) as real / d as real
  {
    var count := 0;
    for k := 0 to d
      invariant count == CountSet(vec[..k])
    {
      assert vec[..k + 1][..k] == vec[..k];
      if vec[k] {
        count := count + 1;
      }
    }
    assert vec[..d] == vec[..];
    score := if d == 0 then 0.0 else count as real / d as real;
  }

  /** The scoring loop over the legal actions. */
  method ScoreActions(atoms: seq<string>, d: nat, legal: seq<seq<string>>) returns (scores: seq<real>)
    requires d <= |atoms|
    requires StrictlySortedBy(atoms, LexLeq)
    ensures scores == Scores(atoms, d, legal)
  {
    scores := [];
    for i := 0 to |legal|
      invariant scores == Scores(atoms, d, legal[..i])
    {
      var vec := BuildActionVector(atoms, d, legal[i]);
      var s := TraceScore(vec, d);
      assert legal[..i + 1][i] == legal[i];
      scores := scores + [s];
    }
    assert legal[..|legal|] == legal;
  }

  /** `choose_action` as the agent runs it. */
  method ChooseQuantum(legal: seq<seq<string>>, maxDim: Option<int>) returns (r: Result<Option<seq<string>>>)
    ensures r == QuantumChoose(legal, maxDim)
  {
    if legal == [] {
      return Ok(None);
    }
    var atoms := AtomicSet(legal);
    var d := QuantumDim(|atoms|, maxDim);
    if d < 0 {
      return Err(ValueError("negative dimensions are not allowed"));
    }
    var scores := ScoreActions(atoms, d, legal);
    var probs := Normalize(scores);
    r := Ok(Some(legal[FirstArgmax(probs)]));
  }
}
