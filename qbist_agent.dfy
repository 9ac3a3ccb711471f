/** The QBist agent's decision: each legal action is scored by the
    urgleichung of a SIC-POVM against the maximally mixed state, times its
    classical expected value, and the agent takes the arg-max of the
    normalised scores. */
module QBistAgent {
  import opened Wrappers
  import opened Text
  import opened Seqs
  import opened Sorting
  import opened Payouts
  import opened Scoring
  import opened ClassicalValue
  import opened QuantumAgent

  /** One element H_i of the SIC-POVM, by the real parts of its entries: the
      agent only ever reads the real parts of two traces, and the action
      projector is real. */
  datatype SicElement = SicElement(re: seq<seq<real>>)

  /** A d x d matrix. */
  predicate IsSquare(m: seq<seq<real>>, d: nat)
  {
    |m| == d && forall k | 0 <= k < d :: |m[k]| == d
  }

  /** The SIC-POVM library hands back d x d elements for every dimension it
      supports. */
  predicate WellShaped(sicFor: int -> seq<SicElement>)
  {
    forall d, e | 2 <= d <= 10 && e in sicFor(d) :: IsSquare(e.re, d)
  }

  /** `load_sic(d)`: the library's SIC-POVM for 2 <= d <= 10, and
      NotImplementedError for any other dimension. */
  function LoadSic(d: int, sicFor: int -> seq<SicElement>): (r: Result<seq<SicElement>>)
    ensures r.Err? <==> d < 2 || d > 10
    ensures r.Err? ==> r.error == NotImplementedError(d)
    ensures r.Ok? ==> r.value == sicFor(d)
  {
    if 2 <= d <= 10 then Ok(sicFor(d)) else Err(NotImplementedError(d))
  }

  /** The first n diagonal entries added up. */
  function DiagSum(m: seq<seq<real>>, d: nat, n: nat): real
    requires IsSquare(m, d) && n <= d
  {
    if n == 0 then 0.0 else DiagSum(m, d, n - 1) + m[n - 1][n - 1]
  }

  /** `np.real(np.trace(rho @ H_i))` with `rho = I/d`: the trace of H_i over d. */
  function Prob(m: seq<seq<real>>, d: nat): real
    requires IsSquare(m, d) && d > 0
  {
    DiagSum(m, d, d) / d as real
  }

  /** Row j of `E_A @ H_i` on the diagonal, over the first n columns:
      `E_A[j][k] * H_i[k][j]`, where `E_A[j][k]` is 1 exactly when both
      entries of the action vector are set. */
  function RowOverlap(v: seq<bool>, m: seq<seq<real>>, d: nat, j: nat, n: nat): real
    requires IsSquare(m, d) && |v| == d && j < d && n <= d
  {
    if n == 0 then 0.0
    else RowOverlap(v, m, d, j, n - 1) + (if v[j] && v[n - 1] then m[n - 1][j] else 0.0)
  }

  /** `np.real(np.trace(E_A @ H_i))` over the first n rows. */
  function Overlap(v: seq<bool>, m: seq<seq<real>>, d: nat, n: nat): real
    requires IsSquare(m, d) && |v| == d && n <= d
  {
    if n == 0 then 0.0 else Overlap(v, m, d, n - 1) + RowOverlap(v, m, d, n - 1, d)
  }

  /** Every element of the SIC is d x d. */
  predicate AllSquare(sic: seq<SicElement>, d: nat)
  {
    forall i | 0 <= i < |sic| :: IsSquare(sic[i].re, d)
  }

  /** `[np.real(np.trace(E_A @ H)) for H in sic]` */
  function Overlaps(sic: seq<SicElement>, d: nat, v: seq<bool>): (os: seq<real>)
    requires AllSquare(sic, d) && |v| == d
    ensures |os| == |sic|
  {
    seq(|sic|, i requires 0 <= i < |sic| => Overlap(v, sic[i].re, d, d))
  }

  /** `p_H = [np.real(np.trace(rho @ H)) for H in sic]` */
  function Probs(sic: seq<SicElement>, d: nat): (ps: seq<real>)
    requires AllSquare(sic, d) && d > 0
    ensures |ps| == |sic|
  {
    seq(|sic|, i requires 0 <= i < |sic| => Prob(sic[i].re, d))
  }

  /** The urgleichung over the overlaps and the probabilities, term by term:
      the sum of `((d + 1) * overlap_i - 1 / d) * p_i`. */
  function Urgleichung(d: nat, os: seq<real>, ps: seq<real>): real
    requires |os| == |ps| && d > 0
  {
    if os == [] then 0.0
    else
      var n := |os| - 1;
      Urgleichung(d, os[..n], ps[..n]) + ((d + 1) as real * os[n] - 1.0 / d as real) * ps[n]
  }

  /** `qscore` of an action vector. */
  function QScore(sic: seq<SicElement>, d: nat, v: seq<bool>): real
    requires AllSquare(sic, d) && |v| == d && d > 0
  {
    Urgleichung(d, Overlaps(sic, d, v), Probs(sic, d))
  }

  /** The overlaps weighted by the probabilities, added up. */
  function Dot(os: seq<real>, ps: seq<real>): real
    requires |os| == |ps|
  {
    if os == [] then 0.0 else Dot(os[..|os| - 1], ps[..|ps| - 1]) + os[|os| - 1] * ps[|ps| - 1]
  }

  lemma AddSplit(q: real, w: real, pr: real, o: real, p: real, d: nat)
    requires d > 0
    requires q == (d + 1) as real * w - pr / d as real
    ensures q + ((d + 1) as real * o - 1.0 / d as real) * p == (d + 1) as real * (w + o * p) - (pr + p) / d as real
  {
    var c := (d + 1) as real;
    assert (c * o - 1.0 / d as real) * p == c * (o * p) - p / d as real;
  }

  /** The urgleichung splits into a coherence part and a normalisation part:
      (d + 1) * sum_i overlap_i * p_i - (sum_i p_i) / d. */
  lemma {:induction false} UrgleichungSplit(d: nat, os: seq<real>, ps: seq<real>)
    requires |os| == |ps| && d > 0
    ensures Urgleichung(d, os, ps) == (d + 1) as real * Dot(os, ps) - Sum(ps) / d as real
  {
    if os != [] {
      var n := |os| - 1;
      UrgleichungSplit(d, os[..n], ps[..n]);
      AddSplit(Urgleichung(d, os[..n], ps[..n]), Dot(os[..n], ps[..n]), Sum(ps[..n]), os[n], ps[n], d);
    }
  }

  /** An action vector with no entry set has no overlap with any element. */
  lemma {:induction false} RowOverlapUnset(v: seq<bool>, m: seq<seq<real>>, d: nat, j: nat, n: nat)
    requires IsSquare(m, d) && |v| == d && j < d && n <= d
    requires !v[j]
    ensures RowOverlap(v, m, d, j, n) == 0.0
  {
    if n > 0 {
      RowOverlapUnset(v, m, d, j, n - 1);
    }
  }

  lemma {:induction false} OverlapUnset(v: seq<bool>, m: seq<seq<real>>, d: nat, n: nat)
    requires IsSquare(m, d) && |v| == d && n <= d
    requires forall k | 0 <= k < d :: !v[k]
    ensures Overlap(v, m, d, n) == 0.0
  {
    if n > 0 {
      OverlapUnset(v, m, d, n - 1);
      RowOverlapUnset(v, m, d, n - 1, d);
    }
  }

  lemma {:induction false} DotZero(os: seq<real>, ps: seq<real>)
    requires |os| == |ps|
    requires forall i | 0 <= i < |os| :: os[i] == 0.0
    ensures Dot(os, ps) == 0.0
  {
    if os != [] {
      DotZero(os[..|os| - 1], ps[..|ps| - 1]);
    }
  }

  /** An action that uses none of the d kept atomic bets scores
      -(sum_i p_i) / d: only the normalisation part is left. */
  lemma UnusedActionQScore(sic: seq<SicElement>, d: nat, v: seq<bool>)
    requires AllSquare(sic, d) && |v| == d && d > 0
    requires forall k | 0 <= k < d :: !v[k]
    ensures QScore(sic, d, v) == -Sum(Probs(sic, d)) / d as real
  {
    var os := Overlaps(sic, d, v);
    var ps := Probs(sic, d);
    forall i | 0 <= i < |os| ensures os[i] == 0.0 {
      OverlapUnset(v, sic[i].re, d, d);
    }
    DotZero(os, ps);
    UrgleichungSplit(d, os, ps);
    NoCoherence(QScore(sic, d, v), Dot(os, ps), Sum(ps), d);
  }

  lemma NoCoherence(q: real, w: real, pr: real, d: nat)
    requires d > 0 && w == 0.0
    requires q == (d + 1) as real * w - pr / d as real
    ensures q == -pr / d as real
  {
  }

  /** The traces of the elements. */
  function Traces(sic: seq<SicElement>, d: nat): (ts: seq<real>)
    requires AllSquare(sic, d)
    ensures |ts| == |sic|
  {
    seq(|sic|, i requires 0 <= i < |sic| => DiagSum(sic[i].re, d, d))
  }

  /** Dividing every entry by c divides the sum by c. */
  lemma {:induction false} SumOfQuotients(ts: seq<real>, ps: seq<real>, c: real)
    requires |ts| == |ps| && c > 0.0
    requires forall i | 0 <= i < |ts| :: ps[i] == ts[i] / c
    ensures Sum(ps) == Sum(ts) / c
  {
    if ts != [] {
      var n := |ts| - 1;
      SumOfQuotients(ts[..n], ps[..n], c);
      AddQuotients(Sum(ts[..n]), ts[n], c);
    }
  }

  lemma AddQuotients(a: real, b: real, c: real)
    requires c > 0.0
    ensures a / c + b / c == (a + b) / c
  {
  }

  /** The probabilities are the traces over d; a POVM, whose elements add up
      to the identity and so have traces adding up to d, gives them a total
      of 1. */
  lemma ProbsAddUp(sic: seq<SicElement>, d: nat)
    requires AllSquare(sic, d) && d > 0
    ensures Sum(Probs(sic, d)) == Sum(Traces(sic, d)) / d as real
    ensures Sum(Traces(sic, d)) == d as real ==> Sum(Probs(sic, d)) == 1.0
  {
    SumOfQuotients(Traces(sic, d), Probs(sic, d), d as real);
    if Sum(Traces(sic, d)) == d as real {
      SelfQuotient(Sum(Traces(sic, d)), d as real);
    }
  }

  lemma SelfQuotient(a: real, c: real)
    requires c > 0.0 && a == c
    ensures a / c == 1.0
  {
  }

  /** The score of one action: `qscore * classical_ev(combo)`; the expected
      value's exception passes through. */
  function ActionScore(table: Table, currentPoint: Option<int>, atoms: seq<string>, d: nat,
                       sic: seq<SicElement>, combo: seq<string>): Result<real>
    requires AllSquare(sic, d) && 0 < d <= |atoms|
  {
    match ClassicalEv(table, currentPoint, combo)
    case Err(e) => Err(e)
    case Ok(ev) => Ok(QScore(sic, d, ActionVector(atoms, d, combo)) * ev)
  }

  /** An action's score is its qscore times its expected value. */
  lemma ActionScoreSpec(table: Table, currentPoint: Option<int>, atoms: seq<string>, d: nat,
                        sic: seq<SicElement>, combo: seq<string>)
    requires AllSquare(sic, d) && 0 < d <= |atoms|
    ensures ActionScore(table, currentPoint, atoms, d, sic, combo).Ok? <==> ClassicalEv(table, currentPoint, combo).Ok?
    ensures ActionScore(table, currentPoint, atoms, d, sic, combo).Ok? ==>
      ActionScore(table, currentPoint, atoms, d, sic, combo).value
        == QScore(sic, d, ActionVector(atoms, d, combo)) * ClassicalEv(table, currentPoint, combo).value
    ensures ClassicalEv(table, currentPoint, combo).Err? ==>
      ActionScore(table, currentPoint, atoms, d, sic, combo) == Err(ClassicalEv(table, currentPoint, combo).error)
  {
  }

  /** The score from the action's qscore and its expected value. */
  lemma ActionScoreOf(table: Table, currentPoint: Option<int>, atoms: seq<string>, d: nat,
                      sic: seq<SicElement>, combo: seq<string>, q: real, ev: Result<real>)
    requires AllSquare(sic, d) && 0 < d <= |atoms|
    requires q == QScore(sic, d, ActionVector(atoms, d, combo))
    requires ev == ClassicalEv(table, currentPoint, combo)
    ensures ActionScore(table, currentPoint, atoms, d, sic, combo) == if ev.Err? then Err(ev.error) else Ok(q * ev.value)
  {
    ActionScoreSpec(table, currentPoint, atoms, d, sic, combo);
    var r := ActionScore(table, currentPoint, atoms, d, sic, combo);
    if ev.Ok? {
      assert r.Ok? && r.value == q * ev.value;
    }
  }

  /** `ActionScore` with the state of one decision fixed. */
  function ScoreOf(table: Table, currentPoint: Option<int>, atoms: seq<string>, d: nat,
                   sic: seq<SicElement>): seq<string> -> Result<real>
    requires AllSquare(sic, d) && 0 < d <= |atoms|
  {
    combo => ActionScore(table, currentPoint, atoms, d, sic, combo)
  }

  /** A scoring loop over the actions, in order; the first action whose score
      raises ends it. */
  function ScoreAll(score: seq<string> -> Result<real>, legal: seq<seq<string>>): Result<seq<real>>
  {
    if legal == [] then Ok([])
    else
      match ScoreAll(score, legal[..|legal| - 1])
      case Err(e) => Err(e)
      case Ok(scores) =>
        match score(legal[|legal| - 1])
        case Err(e) => Err(e)
        case Ok(s) => Ok(scores + [s])
  }

  /** The loop's scores are defined exactly when every action's score is. */
  lemma {:induction false} ScoreAllDefined(score: seq<string> -> Result<real>, legal: seq<seq<string>>)
    ensures ScoreAll(score, legal).Ok? <==> forall k | 0 <= k < |legal| :: score(legal[k]).Ok?
  {
    if legal != [] {
      var init := legal[..|legal| - 1];
      ScoreAllDefined(score, init);
      assert forall k | 0 <= k < |init| :: init[k] == legal[k];
    }
  }

  /** Defined scores are, position by position, the actions' scores. */
  lemma {:induction false} ScoreAllValues(score: seq<string> -> Result<real>, legal: seq<seq<string>>)
    requires ScoreAll(score, legal).Ok?
    ensures |ScoreAll(score, legal).value| == |legal|
    ensures forall k | 0 <= k < |legal| :: score(legal[k]) == Ok(ScoreAll(score, legal).value[k])
  {
    if legal != [] {
      var init := legal[..|legal| - 1];
      ScoreAllValues(score, init);
      assert forall k | 0 <= k < |init| :: init[k] == legal[k];
    }
  }

  /** A loop that stopped on an exception stops the whole loop with the same
      exception. */
  lemma {:induction false} ScoreAllErrPrefix(score: seq<string> -> Result<real>, legal: seq<seq<string>>, j: nat)
    requires j <= |legal| && ScoreAll(score, legal[..j]).Err?
    ensures ScoreAll(score, legal) == ScoreAll(score, legal[..j])
  {
    if j == |legal| {
      assert legal[..j] == legal;
    } else {
      var init := legal[..|legal| - 1];
      assert init[..j] == legal[..j];
      ScoreAllErrPrefix(score, init, j);
    }
  }

  /** One more action scored. */
  lemma ScoreAllStep(score: seq<string> -> Result<real>, legal: seq<seq<string>>, i: nat, scores: seq<real>)
    requires i < |legal| && ScoreAll(score, legal[..i]) == Ok(scores)
    ensures score(legal[i]).Err? ==> ScoreAll(score, legal[..i + 1]) == Err(score(legal[i]).error)
    ensures score(legal[i]).Ok? ==> ScoreAll(score, legal[..i + 1]) == Ok(scores + [score(legal[i]).value])
  {
    assert legal[..i + 1][..i] == legal[..i];
  }

  /** The scoring loop of `choose_action`. */
  function QBistScores(table: Table, currentPoint: Option<int>, atoms: seq<string>, d: nat,
                       sic: seq<SicElement>, legal: seq<seq<string>>): Result<seq<real>>
    requires AllSquare(sic, d) && 0 < d <= |atoms|
  {
    ScoreAll(ScoreOf(table, currentPoint, atoms, d, sic), legal)
  }

  /** The scores are defined exactly when every action's expected value is,
      and then the k-th score is the k-th action's qscore times its expected
      value. */
  lemma QBistScoresSpec(table: Table, currentPoint: Option<int>, atoms: seq<string>, d: nat,
                        sic: seq<SicElement>, legal: seq<seq<string>>)
    requires AllSquare(sic, d) && 0 < d <= |atoms|
    ensures QBistScores(table, currentPoint, atoms, d, sic, legal).Ok? <==>
      forall k | 0 <= k < |legal| :: ClassicalEv(table, currentPoint, legal[k]).Ok?
    ensures QBistScores(table, currentPoint, atoms, d, sic, legal).Ok? ==>
      |QBistScores(table, currentPoint, atoms, d, sic, legal).value| == |legal| &&
      forall k | 0 <= k < |legal| ::
        QBistScores(table, currentPoint, atoms, d, sic, legal).value[k]
          == QScore(sic, d, ActionVector(atoms, d, legal[k])) * ClassicalEv(table, currentPoint, legal[k]).value
  {
    var score := ScoreOf(table, currentPoint, atoms, d, sic);
    ScoreAllDefined(score, legal);
    forall k | 0 <= k < |legal| {
      ActionScoreSpec(table, currentPoint, atoms, d, sic, legal[k]);
    }
    if ScoreAll(score, legal).Ok? {
      ScoreAllValues(score, legal);
    }
  }

  /** `min(len(atomic_set), self.max_dim)` */
  function QBistDim(n: nat, maxDim: int): (d: int)
    ensures d <= n && d <= maxDim && (d == n || d == maxDim)
  {
    if n <= maxDim then n else maxDim
  }

  /** `choose_action` of the QBist agent: None without legal actions; the
      SIC of dimension d = min(#atomic bets, max_dim) (NotImplementedError
      outside 2..10); an expected value's exception; otherwise the legal
      action at the arg-max of the normalised scores. */
  function QBistChoose(table: Table, currentPoint: Option<int>, legal: seq<seq<string>>, maxDim: int,
                       sicFor: int -> seq<SicElement>): Result<Option<seq<string>>>
    requires WellShaped(sicFor)
  {
    if legal == [] then Ok(None)
    else
      var atoms := AtomicSet(legal);
      var d := QBistDim(|atoms|, maxDim);
      match LoadSic(d, sicFor)
      case Err(e) => Err(e)
      case Ok(sic) =>
        assert AllSquare(sic, d);
        match QBistScores(table, currentPoint, atoms, d, sic, legal)
        case Err(e) => Err(e)
        case Ok(scores) =>
          QBistScoresLength(table, currentPoint, atoms, d, sic, legal);
          Ok(Some(legal[FirstArgmax(Normalize(scores))]))
  }

  lemma QBistScoresLength(table: Table, currentPoint: Option<int>, atoms: seq<string>, d: nat,
                          sic: seq<SicElement>, legal: seq<seq<string>>)
    requires AllSquare(sic, d) && 0 < d <= |atoms|
    ensures QBistScores(table, currentPoint, atoms, d, sic, legal).Ok? ==>
      |QBistScores(table, currentPoint, atoms, d, sic, legal).value| == |legal|
  {
    if QBistScores(table, currentPoint, atoms, d, sic, legal).Ok? {
      ScoreAllValues(ScoreOf(table, currentPoint, atoms, d, sic), legal);
    }
  }

  /** The choice is None exactly when there is no legal action, and a
      dimension outside 2..10 raises NotImplementedError before any action is
      valued. */
  lemma QBistChooseDimension(table: Table, currentPoint: Option<int>, legal: seq<seq<string>>, maxDim: int,
                             sicFor: int -> seq<SicElement>)
    requires WellShaped(sicFor)
    ensures QBistChoose(table, currentPoint, legal, maxDim, sicFor) == Ok(None) <==> legal == []
    ensures legal != [] ==>
      var d := QBistDim(|AtomicSet(legal)|, maxDim);
      (d < 2 || d > 10) ==> QBistChoose(table, currentPoint, legal, maxDim, sicFor) == Err(NotImplementedError(d))
  {
  }

  /** A sorted list without repeats has two different first entries, when
      it has two. */
  lemma FirstTwoDiffer(atoms: seq<string>)
    requires StrictlySortedBy(atoms, LexLeq)
    ensures |atoms| >= 2 ==> atoms[0] in atoms && atoms[1] in atoms && atoms[0] != atoms[1]
  {
  }

  /** With a single distinct atomic bet among the legal actions (and any
      positive cap), d is 1 and the agent raises NotImplementedError(1). */
  lemma SingleAtomicBetFails(table: Table, currentPoint: Option<int>, legal: seq<seq<string>>, maxDim: int,
                             sicFor: int -> seq<SicElement>, a: string)
    requires WellShaped(sicFor) && maxDim >= 1
    requires a in Flatten(legal)
    requires forall x | x in Flatten(legal) :: x == a
    ensures QBistChoose(table, currentPoint, legal, maxDim, sicFor) == Err(NotImplementedError(1))
  {
    var atoms := AtomicSet(legal);
    assert a in atoms;
    FirstTwoDiffer(atoms);
    assert |atoms| == 1;
    assert QBistDim(|atoms|, maxDim) == 1;
    assert LoadSic(1, sicFor) == Err(NotImplementedError(1));
    assert legal != [];
  }

  /** A successful choice is the first best score when the scores add up to
      something positive, and otherwise the first legal action. */
  lemma QBistChooseSelection(table: Table, currentPoint: Option<int>, legal: seq<seq<string>>, maxDim: int,
                             sicFor: int -> seq<SicElement>)
    requires WellShaped(sicFor)
    requires legal != [] && QBistChoose(table, currentPoint, legal, maxDim, sicFor).Ok?
    ensures var atoms := AtomicSet(legal);
      var d := QBistDim(|atoms|, maxDim);
      && 2 <= d <= 10
      && AllSquare(sicFor(d), d)
      && QBistScores(table, currentPoint, atoms, d, sicFor(d), legal).Ok?
      && var scores := QBistScores(table, currentPoint, atoms, d, sicFor(d), legal).value;
         |scores| == |legal|
         && QBistChoose(table, currentPoint, legal, maxDim, sicFor)
            == Ok(Some(legal[if Sum(scores) > 0.0 then FirstArgmax(scores) else 0]))
  {
    var atoms := AtomicSet(legal);
    var d := QBistDim(|atoms|, maxDim);
    var sic := sicFor(d);
    assert AllSquare(sic, d);
    QBistScoresLength(table, currentPoint, atoms, d, sic, legal);
    NormalizedArgmax(QBistScores(table, currentPoint, atoms, d, sic, legal).value);
  }

  /** `np.real(np.trace(rho @ H_i))`: the diagonal added up, over d. */
  method TraceOverRho(m: seq<seq<real>>, d: nat) returns (p: real)
    requires IsSquare(m, d) && d > 0
    ensures p == Prob(m, d)
  {
    var t := 0.0;
    for k := 0 to d
      invariant t == DiagSum(m, d, k)
    {
      t := t + m[k][k];
    }
    p := t / d as real;
  }

  /** `p_H`, one probability per SIC element. */
  method ComputeProbs(sic: seq<SicElement>, d: nat) returns (ps: seq<real>)
    requires AllSquare(sic, d) && d > 0
    ensures ps == Probs(sic, d)
  {
    ps := [];
    for i := 0 to |sic|
      invariant |ps| == i
      invariant forall k | 0 <= k < i :: ps[k] == Prob(sic[k].re, d)
    {
      var p := TraceOverRho(sic[i].re, d);
      ps := ps + [p];
    }
  }

  /** `np.real(np.trace(E_A @ H_i))` with `E_A` the outer product of the
      action vector with itself. */
  method ActionOverlap(vec: array<bool>, m: seq<seq<real>>, d: nat) returns (o: real)
    requires vec.Length == d && IsSquare(m, d)
    ensures o == Overlap(vec[..], m, d, d)
  {
    o := 0.0;
    for j := 0 to d
      invariant o == Overlap(vec[..], m, d, j)
    {
      var row := 0.0;
      for k := 0 to d
        invariant row == RowOverlap(vec[..], m, d, j, k)
      {
        if vec[j] && vec[k] {
          row := row + m[k][j];
        }
      }
      o := o + row;
    }
  }

  /** The urgleichung loop: `qscore += ((d + 1) * overlap - 1 / d) * p_i`
      over the SIC elements and their probabilities. */
  method Coherence(sic: seq<SicElement>, d: nat, vec: array<bool>, ps: seq<real>) returns (q: real)
    requires AllSquare(sic, d) && vec.Length == d && d > 0
    requires ps == Probs(sic, d)
    ensures q == QScore(sic, d, vec[..])
  {
    ghost var os := Overlaps(sic, d, vec[..]);
    q := 0.0;
    for i := 0 to |sic|
      invariant q == Urgleichung(d, os[..i], ps[..i])
    {
      var o := ActionOverlap(vec, sic[i].re, d);
      assert os[..i + 1][..i] == os[..i] && ps[..i + 1][..i] == ps[..i];
      q := q + ((d + 1) as real * o - 1.0 / d as real) * ps[i];
    }
    assert os[..|sic|] == os && ps[..|sic|] == ps;
  }

  /** The body of the scoring loop: the action vector, the urgleichung
      loop, then `qscore * classical_ev(combo)`. */
  method ScoreCombo(table: Table, currentPoint: Option<int>, atoms: seq<string>, d: nat,
                    sic: seq<SicElement>, ps: seq<real>, combo: seq<string>) returns (r: Result<real>)
    requires AllSquare(sic, d) && 0 < d <= |atoms| && StrictlySortedBy(atoms, LexLeq)
    requires ps == Probs(sic, d)
    ensures r == ActionScore(table, currentPoint, atoms, d, sic, combo)
  {
    var vec := BuildActionVector(atoms, d, combo);
    var q := Coherence(sic, d, vec, ps);
    var ev := ComputeClassicalEv(table, currentPoint, combo);
    ActionScoreOf(table, currentPoint, atoms, d, sic, combo, q, ev);
    r := if ev.Err? then Err(ev.error) else Ok(q * ev.value);
  }

  /** The scoring loop over the legal actions: `scores.append(qscore * ev)`,
      or the first exception `classical_ev` raises. */
  method ScoreQBist(table: Table, currentPoint: Option<int>, atoms: seq<string>, d: nat,
                    sic: seq<SicElement>, ps: seq<real>, legal: seq<seq<string>>) returns (r: Result<seq<real>>)
    requires AllSquare(sic, d) && 0 < d <= |atoms| && StrictlySortedBy(atoms, LexLeq)
    requires ps == Probs(sic, d)
    ensures r == QBistScores(table, currentPoint, atoms, d, sic, legal)
  {
    var scores := [];
    for i := 0 to |legal|
      invariant QBistScores(table, currentPoint, atoms, d, sic, legal[..i]) == Ok(scores)
    {
      var score := ScoreCombo(table, currentPoint, atoms, d, sic, ps, legal[i]);
      ScoreAllStep(ScoreOf(table, currentPoint, atoms, d, sic), legal, i, scores);
      if score.Err? {
        ScoreAllErrPrefix(ScoreOf(table, currentPoint, atoms, d, sic), legal, i + 1);
        return Err(score.error);
      }
      scores := scores + [score.value];
    }
    assert legal[..|legal|] == legal;
    r := Ok(scores);
  }

  /** `choose_action` of the QBist agent as it runs: the SIC, its
      probabilities, the scoring loop, then normalisation and arg-max. */
  method ChooseQBist(table: Table, currentPoint: Option<int>, legal: seq<seq<string>>, maxDim: int,
                     sicFor: int -> seq<SicElement>) returns (r: Result<Option<seq<string>>>)
    requires WellShaped(sicFor)
    ensures r == QBistChoose(table, currentPoint, legal, maxDim, sicFor)
  {
    if legal == [] {
      return Ok(None);
    }
    var atoms := AtomicSet(legal);
    var d := QBistDim(|atoms|, maxDim);
    var loaded := LoadSic(d, sicFor);
    if loaded.Err? {
      return Err(loaded.error);
    }
    var sic := loaded.value;
    var ps := ComputeProbs(sic, d);
    var scored := ScoreQBist(table, currentPoint, atoms, d, sic, ps, legal);
    if scored.Err? {
      return Err(scored.error);
    }
    QBistScoresLength(table, currentPoint, atoms, d, sic, legal);
    r := Ok(Some(legal[FirstArgmax(Normalize(scored.value))]));
  }
}
