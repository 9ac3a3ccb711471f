/** Exact dice probabilities (multiples of 1/36), the outcome table built from
    them, and the win/lose probabilities of each kind of bet. */
module Probabilities {
  import opened Wrappers
  import opened Text
  import opened Seqs
  import opened Tables

  const P2: real := 1.0 / 36.0
  const P3: real := 2.0 / 36.0
  const P4: real := 3.0 / 36.0
  const P5: real := 4.0 / 36.0
  const P6: real := 5.0 / 36.0
  const P7: real := 6.0 / 36.0
  const P8: real := 5.0 / 36.0
  const P9: real := 4.0 / 36.0
  const P10: real := 3.0 / 36.0
  const P11: real := 2.0 / 36.0
  const P12: real := 1.0 / 36.0

  /** Come-out: the pass line wins on 7 or 11 and loses on 2, 3 or 12. */
  const PWinComeOut: real := P7 + P11
  const PLoseComeOut: real := P2 + P3 + P12

  /** `POINT_PROBS` in its insertion order. */
  const PointProbs: seq<(int, real)> := [(4, P4), (5, P5), (6, P6), (8, P8), (9, P9), (10, P10)]

  /** The probability of rolling a sum on two fair dice. */
  function SumProbability(sum: int): real
  {
    if 2 <= sum <= 7 then (sum - 1) as real / 36.0
    else if 7 < sum <= 12 then (13 - sum) as real / 36.0
    else 0.0
  }

  /** The constants are the two-dice distribution, and it sums to 1. */
  lemma DiceDistribution()
    ensures P2 == SumProbability(2) && P3 == SumProbability(3) && P4 == SumProbability(4)
    ensures P5 == SumProbability(5) && P6 == SumProbability(6) && P7 == SumProbability(7)
    ensures P8 == SumProbability(8) && P9 == SumProbability(9) && P10 == SumProbability(10)
    ensures P11 == SumProbability(11) && P12 == SumProbability(12)
    ensures P2 + P3 + P4 + P5 + P6 + P7 + P8 + P9 + P10 + P11 + P12 == 1.0
  {
  }

  /** What the code computes for the come-out: 8/36 to win and 4/36 to lose
      (not the whole-game pass-line odds of about 0.4929 and 0.5071). */
  lemma ComeOutProbabilities()
    ensures PWinComeOut == 8.0 / 36.0 && PLoseComeOut == 4.0 / 36.0
    ensures 1.0 - (PWinComeOut + PLoseComeOut) == 24.0 / 36.0
  {
  }

  function PHitBefore7(pn: real): real
    requires pn + P7 != 0.0
  {
    pn / (pn + P7)
  }

  function PSevenBeforeN(pn: real): real
    requires pn + P7 != 0.0
  {
    P7 / (pn + P7)
  }

  /** Rolling the point before a 7 and a 7 before the point are complementary. */
  lemma HitOrSeven(pn: real)
    requires pn + P7 != 0.0
    ensures PHitBefore7(pn) + PSevenBeforeN(pn) == 1.0
  {
    assert (pn + P7) / (pn + P7) == 1.0;
  }

  lemma PointProbsPositive()
    ensures forall i | 0 <= i < |PointProbs| :: PointProbs[i].1 > 0.0
    ensures forall i, j | 0 <= i < |PointProbs| && 0 <= j < |PointProbs| && PointProbs[i].0 == PointProbs[j].0 :: i == j
  {
  }

  const BaseOutcomeEntries: seq<(string, real)> :=
    [("win", PWinComeOut), ("lose", PLoseComeOut), ("seven_out", 1.0 - (PWinComeOut + PLoseComeOut))]

  /** The key prefix written by each loop: 1 `point_`, 2 `win_`, 3 `seven_out_`. */
  function Prefix(form: int): string
  {
    if form == 1 then "point_" else if form == 2 then "win_" else "seven_out_"
  }

  /** The entry one loop writes for the i-th point n: establishing n, then
      rolling n before a 7, or a 7 before n. */
  function PointOutcome(form: int, i: int): (string, real)
    requires 1 <= form <= 3 && 0 <= i < |PointProbs|
  {
    var (n, pn) := PointProbs[i];
    (Prefix(form) + IntToString(n),
     if form == 1 then pn else if form == 2 then pn * PHitBefore7(pn) else pn * PSevenBeforeN(pn))
  }

  /** The first loop writes `point_<n>` for each point in turn. */
  function PointEntries(): (r: seq<(string, real)>)
    ensures |r| == |PointProbs|
  {
    seq(|PointProbs|, i requires 0 <= i < |PointProbs| => PointOutcome(1, i))
  }

  /** The second loop writes one block per point: `win_<n>` and `seven_out_<n>`. */
  function WinSevenBlocks(): (r: seq<seq<(string, real)>>)
    ensures |r| == |PointProbs|
  {
    seq(|PointProbs|, i requires 0 <= i < |PointProbs| => [PointOutcome(2, i), PointOutcome(3, i)])
  }

  function OutcomeEntries(): seq<(string, real)>
  {
    BaseOutcomeEntries + PointEntries() + Flatten(WinSevenBlocks())
  }

  /** `OUTCOME_PROBS` once the module has been loaded. */
  function OutcomeProbs(): map<string, real>
  {
    Assign(map[], OutcomeEntries())
  }

  /** Which line of the construction wrote an entry: form 0 is the literal,
      otherwise `PointOutcome(form, i)`. */
  lemma OutcomeEntryForm(e: (string, real)) returns (form: int, i: int)
    requires e in OutcomeEntries()
    ensures 0 <= form <= 3
    ensures form == 0 ==> e in BaseOutcomeEntries
    ensures form != 0 ==> 0 <= i < |PointProbs| && e == PointOutcome(form, i)
  {
    if e in BaseOutcomeEntries {
      form, i := 0, 0;
    } else if e in PointEntries() {
      form := 1;
      i :| 0 <= i < |PointProbs| && PointEntries()[i] == e;
    } else {
      FlattenMembers(WinSevenBlocks(), e);
      i :| 0 <= i < |PointProbs| && e in WinSevenBlocks()[i];
      form := if e == PointOutcome(2, i) then 2 else 3;
    }
  }

  /** A prefixed key determines its loop and its point. */
  lemma PrefixedKeysDistinct(f1: int, n1: int, f2: int, n2: int)
    requires 1 <= f1 <= 3 && 1 <= f2 <= 3
    requires Prefix(f1) + IntToString(n1) == Prefix(f2) + IntToString(n2)
    ensures f1 == f2 && n1 == n2
  {
    var k1, k2 := Prefix(f1) + IntToString(n1), Prefix(f2) + IntToString(n2);
    assert k1[0] == Prefix(f1)[0] && k2[0] == Prefix(f2)[0];
    if f1 == f2 {
      assert IntToString(n1) == k1[|Prefix(f1)|..];
      assert IntToString(n2) == k2[|Prefix(f2)|..];
      IntToStringInjective(n1, n2);
    }
  }

  /** No key of the literal is also written by a loop. */
  lemma BaseKeysFresh(e: (string, real), form: int, n: int)
    requires e in BaseOutcomeEntries && 1 <= form <= 3
    ensures e.0 != Prefix(form) + IntToString(n)
  {
    IntToStringShape(n);
    var k := Prefix(form) + IntToString(n);
    assert k[0] == Prefix(form)[0] && |k| > |Prefix(form)|;
  }

  /** No two lines of the construction write the same key with different values. */
  lemma OutcomeEntriesAgree(e1: (string, real), e2: (string, real))
    requires e1 in OutcomeEntries() && e2 in OutcomeEntries() && e1.0 == e2.0
    ensures e1 == e2
  {
    var f1, i1 := OutcomeEntryForm(e1);
    var f2, i2 := OutcomeEntryForm(e2);
    if f1 != 0 && f2 != 0 {
      PrefixedKeysDistinct(f1, PointProbs[i1].0, f2, PointProbs[i2].0);
      PointProbsPositive();
    } else if f1 != 0 {
      BaseKeysFresh(e2, f1, PointProbs[i1].0);
    } else if f2 != 0 {
      BaseKeysFresh(e1, f2, PointProbs[i2].0);
    }
  }

  lemma OutcomeEntriesConsistent()
    ensures Consistent(OutcomeEntries())
  {
    forall e1, e2 | e1 in OutcomeEntries() && e2 in OutcomeEntries() && e1.0 == e2.0
      ensures e1.1 == e2.1
    {
      OutcomeEntriesAgree(e1, e2);
    }
  }

  lemma OutcomeLookup(e: (string, real))
    requires e in OutcomeEntries()
    ensures e.0 in OutcomeProbs() && OutcomeProbs()[e.0] == e.1
  {
    OutcomeEntriesConsistent();
    var k :| 0 <= k < |OutcomeEntries()| && OutcomeEntries()[k] == e;
    TableLookup(OutcomeEntries(), k);
  }

  /** Every key of the table is one the construction wrote. */
  lemma OutcomeKeys(k: string)
    requires k in OutcomeProbs()
    ensures k in {"win", "lose", "seven_out"} || exists form, i :: 1 <= form <= 3 && 0 <= i < |PointProbs| && k == PointOutcome(form, i).0
  {
    var entries := OutcomeEntries();
    AssignDomain(map[], entries, k);
    var j :| 0 <= j < |entries| && entries[j].0 == k;
    var e := entries[j];
    var form, i := OutcomeEntryForm(e);
    if form == 0 {
      var b := BaseOutcomeEntries;
      assert e == b[0] || e == b[1] || e == b[2];
    } else {
      assert k == PointOutcome(form, i).0;
    }
  }

  /** The come-out entries: win 8/36, lose 4/36 and the aggregate
      `seven_out` 24/36. */
  lemma ComeOutOutcomes()
    ensures "win" in OutcomeProbs() && OutcomeProbs()["win"] == 8.0 / 36.0
    ensures "lose" in OutcomeProbs() && OutcomeProbs()["lose"] == 4.0 / 36.0
    ensures "seven_out" in OutcomeProbs() && OutcomeProbs()["seven_out"] == 24.0 / 36.0
  {
    var b := BaseOutcomeEntries;
    assert b[0] in OutcomeEntries() && b[1] in OutcomeEntries() && b[2] in OutcomeEntries();
    OutcomeLookup(b[0]);
    OutcomeLookup(b[1]);
    OutcomeLookup(b[2]);
  }

  lemma PointOutcomeWritten(form: int, i: int)
    requires 1 <= form <= 3 && 0 <= i < |PointProbs|
    ensures PointOutcome(form, i) in OutcomeEntries()
  {
    var e := PointOutcome(form, i);
    if form == 1 {
      assert PointEntries()[i] == e;
    } else {
      assert e in WinSevenBlocks()[i];
      FlattenMembers(WinSevenBlocks(), e);
    }
  }

  /** For each point n: `point_n` is pn, and `win_n` and `seven_out_n` split
      it between rolling n before a 7 and a 7 before n. */
  lemma PointOutcomes(i: int)
    requires 0 <= i < |PointProbs|
    ensures var (n, pn) := PointProbs[i];
      && "point_" + IntToString(n) in OutcomeProbs() && OutcomeProbs()["point_" + IntToString(n)] == pn
      && "win_" + IntToString(n) in OutcomeProbs() && "seven_out_" + IntToString(n) in OutcomeProbs()
      && OutcomeProbs()["win_" + IntToString(n)] + OutcomeProbs()["seven_out_" + IntToString(n)] == pn
  {
    var (n, pn) := PointProbs[i];
    PointProbsPositive();
    var e1, e2, e3 := PointOutcome(1, i), PointOutcome(2, i), PointOutcome(3, i);
    assert e1 == ("point_" + IntToString(n), pn);
    assert e2 == ("win_" + IntToString(n), pn * PHitBefore7(pn));
    assert e3 == ("seven_out_" + IntToString(n), pn * PSevenBeforeN(pn));
    PointOutcomeWritten(1, i);
    PointOutcomeWritten(2, i);
    PointOutcomeWritten(3, i);
    OutcomeLookup(e1);
    OutcomeLookup(e2);
    OutcomeLookup(e3);
    SplitAddsUp(pn);
  }

  /** The point's probability split between rolling it before a 7 and a 7
      before it adds back up to the point's probability. */
  lemma SplitAddsUp(pn: real)
    requires pn > 0.0
    ensures pn * PHitBefore7(pn) + pn * PSevenBeforeN(pn) == pn
  {
    HitOrSeven(pn);
    assert pn * PHitBefore7(pn) + pn * PSevenBeforeN(pn) == pn * (PHitBefore7(pn) + PSevenBeforeN(pn));
  }

  /** The body of the second loop: `win_n` and `seven_out_n` for the i-th point. */
  method WriteWinSeven(probs: map<string, real>, i: int) returns (t: map<string, real>)
    requires 0 <= i < |PointProbs|
    ensures t == Assign(probs, WinSevenBlocks()[i])
  {
    var (n, pn) := PointProbs[i];
    PointProbsPositive();
    t := probs["win_" + IntToString(n) := pn * PHitBefore7(pn)];
    t := t["seven_out_" + IntToString(n) := pn * PSevenBeforeN(pn)];
    ghost var b := WinSevenBlocks()[i];
    assert b == [PointOutcome(2, i), PointOutcome(3, i)];
    assert b[1..][1..] == [];
    assert Assign(probs, b) == Assign(probs[b[0].0 := b[0].1], b[1..]);
    assert Assign(probs[b[0].0 := b[0].1], b[1..]) == Assign(probs[b[0].0 := b[0].1][b[1].0 := b[1].1], b[1..][1..]);
  }

  /** The dictionary literal holds the three come-out entries. */
  lemma BaseTable()
    ensures Assign(map[], BaseOutcomeEntries) ==
      map["win" := PWinComeOut, "lose" := PLoseComeOut, "seven_out" := 1.0 - (PWinComeOut + PLoseComeOut)]
  {
    var b := BaseOutcomeEntries;
    var t1 := map[][b[0].0 := b[0].1];
    var t2 := t1[b[1].0 := b[1].1];
    var t3 := t2[b[2].0 := b[2].1];
    assert Assign(t3, b[3..]) == t3;
    assert Assign(t2, b[2..]) == Assign(t3, b[3..]);
    assert Assign(t1, b[1..]) == Assign(t2, b[2..]);
  }

  /** The module-level construction of `OUTCOME_PROBS`: the literal, then a
      loop writing `point_n`, then a loop writing `win_n` and `seven_out_n`. */
  method BuildOutcomeProbs() returns (probs: map<string, real>)
    ensures probs == OutcomeProbs()
  {
    probs := map["win" := PWinComeOut, "lose" := PLoseComeOut, "seven_out" := 1.0 - (PWinComeOut + PLoseComeOut)];
    BaseTable();
    probs := WritePoints(probs);
    probs := WriteWinSevens(probs);
  }

  /** The first loop: `point_n` for each point in turn. */
  method WritePoints(probs: map<string, real>) returns (t: map<string, real>)
    requires probs == Assign(map[], BaseOutcomeEntries)
    ensures t == Assign(map[], BaseOutcomeEntries + PointEntries())
  {
    ghost var base := BaseOutcomeEntries;
    assert base + PointEntries()[..0] == base;
    t := probs;
    var i := 0;
    while i < |PointProbs|
      invariant 0 <= i <= |PointProbs|
      invariant t == Assign(map[], base + PointEntries()[..i])
    {
      var (n, pn) := PointProbs[i];
      PointStep(i);
      t := t["point_" + IntToString(n) := pn];
      i := i + 1;
    }
    assert PointEntries()[..i] == PointEntries();
  }

  lemma PointStep(i: int)
    requires 0 <= i < |PointProbs|
    ensures Assign(map[], BaseOutcomeEntries + PointEntries()[..i + 1]) ==
      Assign(map[], BaseOutcomeEntries + PointEntries()[..i])["point_" + IntToString(PointProbs[i].0) := PointProbs[i].1]
  {
    var written := BaseOutcomeEntries + PointEntries()[..i];
    var e := PointEntries()[i];
    AssignAppend(map[], written, [e]);
    assert written + [e] == BaseOutcomeEntries + PointEntries()[..i + 1];
    assert [e][1..] == [];
  }

  /** The second loop: `win_n` and `seven_out_n` for each point in turn. */
  method WriteWinSevens(probs: map<string, real>) returns (t: map<string, real>)
    requires probs == Assign(map[], BaseOutcomeEntries + PointEntries())
    ensures t == OutcomeProbs()
  {
    ghost var blocks := WinSevenBlocks();
    ghost var start := BaseOutcomeEntries + PointEntries();
    assert start + Flatten(blocks[..0]) == start;
    t := probs;
    var i := 0;
    while i < |PointProbs|
      invariant 0 <= i <= |PointProbs|
      invariant t == Assign(map[], start + Flatten(blocks[..i]))
    {
      WinSevenStep(i);
      t := WriteWinSeven(t, i);
      i := i + 1;
    }
    assert blocks[..i] == blocks;
  }

  lemma WinSevenStep(i: int)
    requires 0 <= i < |PointProbs|
    ensures var start := BaseOutcomeEntries + PointEntries();
      Assign(map[], start + Flatten(WinSevenBlocks()[..i + 1])) ==
      Assign(Assign(map[], start + Flatten(WinSevenBlocks()[..i])), WinSevenBlocks()[i])
  {
    var blocks := WinSevenBlocks();
    var written := BaseOutcomeEntries + PointEntries() + Flatten(blocks[..i]);
    AssignAppend(map[], written, blocks[i]);
    FlattenStep(blocks, i);
    assert written + blocks[i] == BaseOutcomeEntries + PointEntries() + Flatten(blocks[..i + 1]);
  }

  /** `_ODDS_P`: the probability that an odds bet on n wins, keyed by the point. */
  function OddsP(): (m: map<int, real>)
    ensures forall i | 0 <= i < |PointProbs| :: PointProbs[i].0 in m
  {
    map i | 0 <= i < |PointProbs| :: PointProbs[i].0 := PointProbs[i].1 / (PointProbs[i].1 + P7)
  }

  /** `get_bet_probs(bet_type, point)` as the ordered pairs of its dictionary:
      the come-out probabilities for a flat bet, rolling the point before a 7
      for an odds bet (ValueError without a point, KeyError for a number that
      is not a point), and an even split for anything else. */
  function GetBetProbs(betType: string, point: Option<int>): (r: Result<seq<(string, real)>>)
    ensures r.Err? <==> (betType == "pass_line_odds" || betType == "come_odds") && (point.None? || point.value !in OddsP())
    ensures r.Err? && point.None? ==> r.error.ValueError?
    ensures r.Err? && point.Some? ==> r.error == KeyError(IntToString(point.value))
    ensures r.Ok? ==> |r.value| == 2 && r.value[0].0 == "win" && r.value[1].0 == "lose"
    ensures r.Ok? && (betType == "pass_line_odds" || betType == "come_odds") ==>
      r.value[0].1 == OddsP()[point.value] && r.value[1].1 == 1.0 - r.value[0].1
    ensures betType != "pass_line_flat" && betType != "come_flat" && betType != "pass_line_odds" && betType != "come_odds" ==>
      r == Ok([("win", 0.5), ("lose", 0.5)])
  {
    if betType == "pass_line_flat" || betType == "come_flat" then
      Ok([("win", PWinComeOut), ("lose", PLoseComeOut)])
    else if betType == "pass_line_odds" || betType == "come_odds" then
      if point.None? then Err(ValueError("Odds bets require a point"))
      else if point.value !in OddsP() then Err(KeyError(IntToString(point.value)))
      else
        var p := OddsP()[point.value];
        Ok([("win", p), ("lose", 1.0 - p)])
    else
      Ok([("win", 0.5), ("lose", 0.5)])
  }

  /** The odds bets win with probability 1/3 on 4 and 10, 2/5 on 5 and 9,
      5/11 on 6 and 8; no other number has an entry. */
  lemma OddsWinProbabilities(n: int)
    ensures n in OddsP() <==> n in {4, 5, 6, 8, 9, 10}
    ensures n == 4 || n == 10 ==> OddsP()[n] == 1.0 / 3.0
    ensures n == 5 || n == 9 ==> OddsP()[n] == 2.0 / 5.0
    ensures n == 6 || n == 8 ==> OddsP()[n] == 5.0 / 11.0
  {
    if n in OddsP() {
      var i :| 0 <= i < |PointProbs| && PointProbs[i].0 == n;
    }
    if n in {4, 5, 6, 8, 9, 10} {
      assert n == PointProbs[0].0 || n == PointProbs[1].0 || n == PointProbs[2].0
        || n == PointProbs[3].0 || n == PointProbs[4].0 || n == PointProbs[5].0;
    }
  }

  /** A flat bet gets the come-out probabilities, whatever the point. */
  lemma FlatBetProbs(betType: string, point: Option<int>)
    requires betType == "pass_line_flat" || betType == "come_flat"
    ensures GetBetProbs(betType, point) == Ok([("win", 8.0 / 36.0), ("lose", 4.0 / 36.0)])
  {
  }
}
