/** `classical_ev`, the expected value the quantum and QBist agents both use
    (the two agents carry the same code): each label is parsed, given the
    probabilities of its bet kind, and weighed against the payout table. */
module ClassicalValue {
  import opened Wrappers
  import opened Text
  import opened Labels
  import opened Payouts
  import opened Probabilities
  import opened AgentUtils
  import AtomicActions
  import opened ClassicalChoice

  /** The inner loop for one label: each outcome's probability times what the
      label pays on it. */
  function OutcomeTerms(table: Table, probs: seq<(string, real)>, name: string): real
  {
    if probs == [] then 0.0
    else OutcomeTerms(table, probs[..|probs| - 1], name) + probs[|probs| - 1].1 * LabelPayout(table, name, probs[|probs| - 1].0)
  }

  /** One label's share of `classical_ev`: parse it, fall back to the current
      point when it names none, take the bet's probabilities and weigh the
      payouts; the parser's and the probability lookup's exceptions pass
      through. */
  function LabelEv(table: Table, currentPoint: Option<int>, name: string): Result<real>
  {
    match ParseAtomic(name)
    case Err(e) => Err(e)
    case Ok(parsed) =>
      var point := if parsed.1.Some? then parsed.1 else currentPoint;
      match GetBetProbs(parsed.0, point)
      case Err(e) => Err(e)
      case Ok(probs) => Ok(OutcomeTerms(table, probs, name))
  }

  /** Label values added up in order; the first label that fails decides the
      exception. */
  function SumValues(value: string -> Result<real>, combo: seq<string>): Result<real>
  {
    if combo == [] then Ok(0.0)
    else
      match SumValues(value, combo[..|combo| - 1])
      case Err(e) => Err(e)
      case Ok(ev) =>
        match value(combo[|combo| - 1])
        case Err(e) => Err(e)
        case Ok(v) => Ok(ev + v)
  }

  /** `classical_ev(combo)` */
  function ClassicalEv(table: Table, currentPoint: Option<int>, combo: seq<string>): Result<real>
  {
    SumValues(LabelValue(table, currentPoint), combo)
  }

  /** `LabelEv` as a function of the label alone. */
  function LabelValue(table: Table, currentPoint: Option<int>): string -> Result<real>
  {
    name => LabelEv(table, currentPoint, name)
  }

  /** Adding two values that may have failed: the first exception wins. */
  function Plus(x: Result<real>, y: Result<real>): Result<real>
  {
    if x.Err? then x else if y.Err? then y else Ok(x.value + y.value)
  }

  /** The value of a combo is the sum of its parts' values, and it fails
      exactly when a part does, with the earlier part's exception first. */
  lemma {:induction false} SumValuesAppend(value: string -> Result<real>, a: seq<string>, b: seq<string>)
    ensures SumValues(value, a + b) == Plus(SumValues(value, a), SumValues(value, b))
    decreases |b|
  {
    if b == [] {
      assert a + b == a;
    } else {
      var init := b[..|b| - 1];
      SumValuesAppend(value, a, init);
      assert (a + b)[..|a + b| - 1] == a + init;
      assert (a + b)[|a + b| - 1] == b[|b| - 1];
    }
  }

  /** Once a prefix fails, the whole sum fails with the same exception. */
  lemma {:induction false} SumValuesErrPrefix(value: string -> Result<real>, combo: seq<string>, j: nat)
    requires j <= |combo| && SumValues(value, combo[..j]).Err?
    ensures SumValues(value, combo) == SumValues(value, combo[..j])
  {
    if j == |combo| {
      assert combo[..j] == combo;
    } else {
      var init := combo[..|combo| - 1];
      assert init[..j] == combo[..j];
      SumValuesErrPrefix(value, init, j);
    }
  }

  /** The sum is defined exactly when every label's value is. */
  lemma {:induction false} SumValuesDefined(value: string -> Result<real>, combo: seq<string>)
    ensures SumValues(value, combo).Ok? <==> forall k | 0 <= k < |combo| :: value(combo[k]).Ok?
  {
    if combo != [] {
      var init := combo[..|combo| - 1];
      SumValuesDefined(value, init);
      assert forall k | 0 <= k < |init| :: init[k] == combo[k];
    }
  }

  /** `classical_ev` is additive over the labels of a combo; the first
      label that fails decides the exception. */
  lemma ClassicalEvAppend(table: Table, currentPoint: Option<int>, a: seq<string>, b: seq<string>)
    ensures ClassicalEv(table, currentPoint, a + b) == Plus(ClassicalEv(table, currentPoint, a), ClassicalEv(table, currentPoint, b))
  {
    SumValuesAppend(LabelValue(table, currentPoint), a, b);
  }

  /** `classical_ev` is defined exactly when each label parses and has
      probabilities. */
  lemma ClassicalEvDefined(table: Table, currentPoint: Option<int>, combo: seq<string>)
    ensures ClassicalEv(table, currentPoint, combo).Ok? <==>
      forall k | 0 <= k < |combo| :: LabelEv(table, currentPoint, combo[k]).Ok?
  {
    SumValuesDefined(LabelValue(table, currentPoint), combo);
  }

  /** A label's value once its parse and its probabilities are known. */
  lemma LabelEvBy(table: Table, currentPoint: Option<int>, name: string, kind: string, point: Option<int>, probs: seq<(string, real)>)
    requires ParseAtomic(name) == Ok((kind, point))
    requires GetBetProbs(kind, if point.Some? then point else currentPoint) == Ok(probs)
    ensures LabelEv(table, currentPoint, name) == Ok(OutcomeTerms(table, probs, name))
  {
  }

  /** The weighted payouts of the two-outcome tables `get_bet_probs` returns. */
  lemma WinLoseTerms(table: Table, w: real, l: real, name: string)
    ensures OutcomeTerms(table, [("win", w), ("lose", l)], name)
      == w * LabelPayout(table, name, "win") + l * LabelPayout(table, name, "lose")
  {
    var probs := [("win", w), ("lose", l)];
    assert probs[..1] == [("win", w)];
    assert probs[..1][..0] == [];
    assert OutcomeTerms(table, probs[..1], name) == w * LabelPayout(table, name, "win");
  }

  /** A label without upper-case letters is looked up as it stands. */
  lemma PayoutOfLowerCase(table: Table, name: string, outcome: string)
    requires NoUpperCase(name)
    ensures LabelPayout(table, name, outcome) == Get(table, PayoutKey([name], outcome))
  {
    LowerOfLowerCase(name);
  }

  /** The flat labels pay 1 on `win` and lose 1 on `lose`. */
  lemma FlatPayout(table: Table, name: string)
    requires table == PayoutTable()
    requires name == ComeFlat || name == PassLineFlat
    ensures LabelPayout(table, name, "win") == 1.0 && LabelPayout(table, name, "lose") == -1.0
  {
    LabelsLowerCase(0, 0);
    PayoutOfLowerCase(table, name, "win");
    PayoutOfLowerCase(table, name, "lose");
    FlatPayouts();
  }

  /** The flat labels are worth 8/36 - 4/36 = 1/9 of a unit, whatever the point. */
  lemma FlatLabelEv(table: Table, currentPoint: Option<int>, name: string)
    requires table == PayoutTable()
    requires name == ComeFlat || name == PassLineFlat
    ensures LabelEv(table, currentPoint, name) == Ok(1.0 / 9.0)
  {
    FlatLabelsParse();
    FlatPayout(table, name);
    FlatBetProbs(name, currentPoint);
    ComeOutValue(table, currentPoint, name, name, 1.0, -1.0);
  }

  /** An odds label has no plain `win` entry in the payout table (the table
      keys an odds win by `win_<point>`), so it pays nothing on `win`. */
  lemma OddsLabelsMissWin(table: Table, name: string)
    requires table == PayoutTable()
    requires name != PassLineFlat && name != ComeFlat
    requires NoUpperCase(name)
    ensures LabelPayout(table, name, "win") == 0.0
  {
    PayoutOfLowerCase(table, name, "win");
    if PayoutKey([name], "win") in table {
      PayoutSigns(PayoutKey([name], "win"));
    }
  }

  /** What a pass-line odds label of the table pays on `win` and `lose`. */
  lemma PassLineOddsPayout(table: Table, i: int, m: int, name: string)
    requires table == PayoutTable()
    requires 0 <= i < |Payouts.Points| && 1 <= m <= Payouts.MaxMultiplier
    requires name == PassLineOddsLabel(m * Payouts.Points[i].2)
    ensures LabelPayout(table, name, "win") == 0.0
    ensures LabelPayout(table, name, "lose") == -((m * Payouts.Points[i].2) as real)
  {
    var a := m * Payouts.Points[i].2;
    LabelsLowerCase(a, 0);
    LabelKindsDiffer(a, 0, "4");
    OddsLabelsMissWin(table, name);
    PayoutOfLowerCase(table, name, "lose");
    OddsLosePayouts(i, m);
  }

  /** The stake the table writes for point `i` and multiplier `m`. */
  function Stake(i: int, m: int): int
    requires 0 <= i < |Payouts.Points|
  {
    m * Payouts.Points[i].2
  }

  /** `amount` is an odds stake the payout table has entries for, on the
      point `pt` (its `"4"` .. `"10"` key read as a number). */
  predicate IsOddsStake(pt: int, amount: int)
  {
    exists i, m :: 0 <= i < |Payouts.Points| && 1 <= m <= Payouts.MaxMultiplier
      && IntToString(pt) == Payouts.Points[i].0 && amount == Stake(i, m)
  }

  /** A label the table pays nothing for on `win` and `loss` less on `lose`. */
  predicate PaysOnlyLoss(table: Table, name: string, loss: real)
  {
    LabelPayout(table, name, "win") == 0.0 && LabelPayout(table, name, "lose") == -loss
  }

  /** The payout table has no plain `win` entry for a pass-line odds label of
      one of its stakes, and takes the stake on `lose`. */
  lemma PassLineOddsFacts(pt: int, amount: int, name: string)
    requires IsOddsStake(pt, amount) && name == PassLineOddsLabel(amount)
    ensures PaysOnlyLoss(PayoutTable(), name, amount as real)
  {
    var i, m :| 0 <= i < |Payouts.Points| && 1 <= m <= Payouts.MaxMultiplier
      && IntToString(pt) == Payouts.Points[i].0 && amount == Stake(i, m);
    PassLineOddsPayout(PayoutTable(), i, m, name);
  }

  /** A pass-line odds label parses as a pass-line flat bet, so it gets the
      come-out probabilities; under a table that, like the payout table
      (`PassLineOddsFacts`), has no `win` entry for it, only its loss of
      `amount` dollars on `lose` counts: it is worth -amount/9. */
  lemma PassLineOddsLabelEv(table: Table, currentPoint: Option<int>, amount: int, name: string)
    requires name == PassLineOddsLabel(amount)
    requires PaysOnlyLoss(table, name, amount as real)
    ensures LabelEv(table, currentPoint, name) == Ok(-(amount as real) / 9.0)
  {
    PassLineOddsParsesAsFlat(amount);
    FlatBetProbs(PassLineFlat, currentPoint);
    ComeOutValue(table, currentPoint, name, PassLineFlat, 0.0, -(amount as real));
    LossOnly(amount as real);
  }

  lemma LossOnly(a: real)
    ensures (2.0 * 0.0 + -a) / 9.0 == -a / 9.0
  {
  }

  /** The value of a label parsed as a flat bet, from what it pays on `win`
      and on `lose`: the come-out odds 8/36 and 4/36 weigh them. */
  lemma ComeOutValue(table: Table, currentPoint: Option<int>, name: string, kind: string, win: real, lose: real)
    requires ParseAtomic(name) == Ok((kind, None))
    requires GetBetProbs(kind, currentPoint) == Ok([("win", 8.0 / 36.0), ("lose", 4.0 / 36.0)])
    requires LabelPayout(table, name, "win") == win && LabelPayout(table, name, "lose") == lose
    ensures LabelEv(table, currentPoint, name) == Ok((2.0 * win + lose) / 9.0)
  {
    LabelEvBy(table, currentPoint, name, kind, None, [("win", 8.0 / 36.0), ("lose", 4.0 / 36.0)]);
    WinLoseTerms(table, 8.0 / 36.0, 4.0 / 36.0, name);
  }

  /** What a come-odds label of the table pays on `win` and `lose`. */
  lemma ComeOddsPayout(table: Table, i: int, m: int, pt: int, name: string)
    requires table == PayoutTable()
    requires 0 <= i < |Payouts.Points| && 1 <= m <= Payouts.MaxMultiplier
    requires IntToString(pt) == Payouts.Points[i].0
    requires name == ComeOddsLabel(m * Payouts.Points[i].2, Payouts.Points[i].0)
    ensures LabelPayout(table, name, "win") == 0.0
    ensures LabelPayout(table, name, "lose") == -((m * Payouts.Points[i].2) as real)
  {
    var a := m * Payouts.Points[i].2;
    IntToStringShape(pt);
    LabelsLowerCase(a, pt);
    LabelKindsDiffer(0, a, IntToString(pt));
    OddsLabelsMissWin(table, name);
    PayoutOfLowerCase(table, name, "lose");
    OddsLosePayouts(i, m);
  }

  /** The points of the payout table are the points of the odds table. */
  lemma TablePoint(i: int, pt: int)
    requires 0 <= i < |Payouts.Points|
    requires IntToString(pt) == Payouts.Points[i].0
    ensures pt in OddsP() && 0.0 < OddsP()[pt] < 1.0
  {
    AtomicActions.IntToStringOfPoints();
    AtomicActions.PointKey(pt);
    OddsWinProbabilities(pt);
  }

  /** What the table says about a come-odds label of one of its stakes. */
  lemma ComeOddsFacts(table: Table, pt: int, amount: int, name: string)
    requires table == PayoutTable()
    requires IsOddsStake(pt, amount) && name == ComeOddsLabel(amount, IntToString(pt))
    ensures ParseAtomic(name) == Ok(("come_odds", Some(pt)))
    ensures pt in OddsP() && 0.0 < OddsP()[pt] < 1.0 && amount > 0
    ensures LabelPayout(table, name, "win") == 0.0
    ensures LabelPayout(table, name, "lose") == -(amount as real)
  {
    var i, m :| 0 <= i < |Payouts.Points| && 1 <= m <= Payouts.MaxMultiplier
      && IntToString(pt) == Payouts.Points[i].0 && amount == Stake(i, m);
    TablePoint(i, pt);
    ComeOddsParsesToPoint(amount, pt);
    ComeOddsPayout(table, i, m, pt, name);
    PointsFacts();
    PositiveProduct(m, Payouts.Points[i].2);
  }

  /** A come-odds label on point `pt` wins with the probability p of rolling
      the point before a 7, but with no `win` entry only its loss of
      `amount` dollars counts: it is worth -(1 - p) * amount, below zero
      although the bet pays true odds. */
  lemma ComeOddsLabelEv(table: Table, currentPoint: Option<int>, pt: int, amount: int, name: string)
    requires table == PayoutTable()
    requires IsOddsStake(pt, amount) && name == ComeOddsLabel(amount, IntToString(pt))
    ensures pt in OddsP()
    ensures LabelEv(table, currentPoint, name) == Ok(-(1.0 - OddsP()[pt]) * amount as real)
    ensures -(1.0 - OddsP()[pt]) * amount as real < 0.0
  {
    ComeOddsFacts(table, pt, amount, name);
    LosingOnlyValue(table, currentPoint, name, pt, amount);
  }

  /** The value of a come-odds label on a point of the odds table that pays
      nothing on `win` and loses `amount` on `lose`. */
  lemma LosingOnlyValue(table: Table, currentPoint: Option<int>, name: string, pt: int, amount: int)
    requires ParseAtomic(name) == Ok(("come_odds", Some(pt)))
    requires pt in OddsP() && 0.0 < OddsP()[pt] < 1.0 && amount > 0
    requires LabelPayout(table, name, "win") == 0.0 && LabelPayout(table, name, "lose") == -(amount as real)
    ensures LabelEv(table, currentPoint, name) == Ok(-(1.0 - OddsP()[pt]) * amount as real)
    ensures -(1.0 - OddsP()[pt]) * amount as real < 0.0
  {
    var w := OddsP()[pt];
    LabelEvBy(table, currentPoint, name, "come_odds", Some(pt), [("win", w), ("lose", 1.0 - w)]);
    WinLoseTerms(table, w, 1.0 - w, name);
    LossIsNegative(w, amount as real);
  }

  lemma PositiveProduct(m: int, x: int)
    requires m >= 1 && x > 0
    ensures m * x > 0
  {
  }

  lemma LossIsNegative(w: real, a: real)
    requires w < 1.0 && a > 0.0
    ensures w * 0.0 + (1.0 - w) * -a == -(1.0 - w) * a < 0.0
  {
  }

  /** `value` gives each label its `classical_ev` share. */
  ghost predicate ValuesLabels(value: string -> Result<real>, table: Table, currentPoint: Option<int>)
  {
    forall name {:trigger LabelEv(table, currentPoint, name)} :: value(name) == LabelEv(table, currentPoint, name)
  }

  /** The two loops of `classical_ev`. */
  method ComputeClassicalEv(table: Table, currentPoint: Option<int>, combo: seq<string>) returns (r: Result<real>)
    ensures r == ClassicalEv(table, currentPoint, combo)
  {
    ghost var value := LabelValue(table, currentPoint);
    forall name ensures value(name) == LabelEv(table, currentPoint, name) {
    }
    r := SumLabels(table, currentPoint, combo, value);
  }

  /** The outer loop, over the labels of the combo. */
  method SumLabels(table: Table, currentPoint: Option<int>, combo: seq<string>, ghost value: string -> Result<real>)
    returns (r: Result<real>)
    requires ValuesLabels(value, table, currentPoint)
    ensures r == SumValues(value, combo)
  {
    var ev := 0.0;
    for i := 0 to |combo|
      invariant SumValues(value, combo[..i]) == Ok(ev)
    {
      var v := ComputeLabelEv(table, currentPoint, combo[i], value);
      SumValuesStep(value, combo, i, ev, v);
      if v.Err? {
        return Err(v.error);
      }
      ev := ev + v.value;
    }
    assert combo[..|combo|] == combo;
    return Ok(ev);
  }

  /** One step of the label loop: a value extends the sum, an exception is
      the result of the whole combo. */
  lemma SumValuesStep(value: string -> Result<real>, combo: seq<string>, i: nat, ev: real, v: Result<real>)
    requires i < |combo| && SumValues(value, combo[..i]) == Ok(ev) && value(combo[i]) == v
    ensures v.Ok? ==> SumValues(value, combo[..i + 1]) == Ok(ev + v.value)
    ensures v.Err? ==> SumValues(value, combo) == Err(v.error)
  {
    assert combo[..i + 1][..i] == combo[..i];
    if v.Err? {
      SumValuesErrPrefix(value, combo, i + 1);
    }
  }

  /** The body of the outer loop for one label. */
  method ComputeLabelEv(table: Table, currentPoint: Option<int>, name: string, ghost value: string -> Result<real>)
    returns (r: Result<real>)
    requires ValuesLabels(value, table, currentPoint)
    ensures r == value(name)
  {
    assert value(name) == LabelEv(table, currentPoint, name);
    var parsed := ParseAtomic(name);
    if parsed.Err? {
      return Err(parsed.error);
    }
    var point := if parsed.value.1.Some? then parsed.value.1 else currentPoint;
    var probs := GetBetProbs(parsed.value.0, point);
    if probs.Err? {
      return Err(probs.error);
    }
    var terms := ComputeOutcomeTerms(table, probs.value, name);
    return Ok(terms);
  }

  /** The inner loop over the outcomes. */
  method ComputeOutcomeTerms(table: Table, probs: seq<(string, real)>, name: string) returns (terms: real)
    ensures terms == OutcomeTerms(table, probs, name)
  {
    terms := 0.0;
    for j := 0 to |probs|
      invariant terms == OutcomeTerms(table, probs[..j], name)
    {
      assert probs[..j + 1][..j] == probs[..j];
      var (outcome, p) := probs[j];
      terms := terms + p * Get(table, PayoutKey([Lower(name)], outcome));
    }
    assert probs[..|probs|] == probs;
  }
}
