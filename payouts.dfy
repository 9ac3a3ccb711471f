/** The payout table: for a one-bet action and an outcome, the payout per
    unit of flat bet, or the dollar result of an odds bet. It starts from the
    six flat entries and is then filled in place, point by point and
    multiplier by multiplier. */
module Payouts {
  import opened Text
  import opened Labels
  import opened Seqs
  import opened Tables

  /** A key of the table: the tuple of bet labels and the outcome name. */
  datatype PayoutKey = PayoutKey(bets: seq<string>, outcome: string)

  type Table = map<PayoutKey, real>

  const FlatEntries: seq<(PayoutKey, real)> := [
    (PayoutKey([PassLineFlat], "win"), 1.0),
    (PayoutKey([PassLineFlat], "lose"), -1.0),
    (PayoutKey([ComeFlat], "win"), 1.0),
    (PayoutKey([ComeFlat], "lose"), -1.0),
    (PayoutKey([PassLineFlat], "seven_out"), -1.0),
    (PayoutKey([ComeFlat], "seven_out"), -1.0)]

  /** The points with the true-odds ratio numerator : denominator, in the
      order the table is filled. */
  const Points: seq<(string, int, int)> := [("4", 2, 1), ("5", 3, 2), ("6", 6, 5), ("8", 6, 5), ("9", 3, 2), ("10", 2, 1)]

  const MaxMultiplier: int := 3

  /** The six entries written for one point and one multiplier m: the bet
      of m * denom dollars wins m * num on `win_<point>` and loses its stake
      on `lose` and `seven_out`, as a pass-line odds and as a come-odds bet. */
  function OddsEntries(point: string, num: int, denom: int, m: int): seq<(PayoutKey, real)>
  {
    var amount := m * denom;
    var pass := PassLineOddsLabel(amount);
    var come := ComeOddsLabel(amount, point);
    [(PayoutKey([pass], "win_" + point), (m * num) as real),
     (PayoutKey([come], "win_" + point), (m * num) as real),
     (PayoutKey([pass], "lose"), -(amount as real)),
     (PayoutKey([come], "lose"), -(amount as real)),
     (PayoutKey([pass], "seven_out"), -(amount as real)),
     (PayoutKey([come], "seven_out"), -(amount as real))]
  }

  /** The blocks of entries in the order the nested loop writes them:
      block 3 * i + (m - 1) is point i with multiplier m. */
  function OddsBlocks(): (r: seq<seq<(PayoutKey, real)>>)
    ensures |r| == |Points| * MaxMultiplier
  {
    seq(|Points| * MaxMultiplier, j requires 0 <= j < |Points| * MaxMultiplier =>
      OddsEntries(Points[j / 3].0, Points[j / 3].1, Points[j / 3].2, j % 3 + 1))
  }

  function AllEntries(): seq<(PayoutKey, real)>
  {
    FlatEntries + Flatten(OddsBlocks())
  }

  /** `PAYOUT_TABLE` once the module has been loaded. */
  function PayoutTable(): Table
  {
    Assign(map[], AllEntries())
  }

  lemma PointsFacts()
    ensures forall i | 0 <= i < |Points| :: '_' !in Points[i].0 && Points[i].1 > 0 && Points[i].2 > 0
    ensures forall i, j | 0 <= i < |Points| && 0 <= j < |Points| && Points[i].0 == Points[j].0 :: i == j
  {
  }

  /** An entry of the table comes from the flat literal or from one
      (point, multiplier) step of the loop. */
  lemma EntryOrigin(e: (PayoutKey, real)) returns (i: int, m: int)
    requires e in AllEntries() && e !in FlatEntries
    ensures 0 <= i < |Points| && 1 <= m <= MaxMultiplier
    ensures e in OddsEntries(Points[i].0, Points[i].1, Points[i].2, m)
  {
    FlattenMembers(OddsBlocks(), e);
    var j :| 0 <= j < |OddsBlocks()| && e in OddsBlocks()[j];
    OddsBlockOf(j);
    i, m := j / 3, j % 3 + 1;
  }

  /** Block j is point j / 3 with multiplier j % 3 + 1. */
  lemma OddsBlockOf(j: int)
    requires 0 <= j < |Points| * MaxMultiplier
    ensures 0 <= j / 3 < |Points| && 1 <= j % 3 + 1 <= MaxMultiplier
    ensures OddsBlocks()[j] == OddsEntries(Points[j / 3].0, Points[j / 3].1, Points[j / 3].2, j % 3 + 1)
  {
  }

  /** The shape of one of the six entries written for point p and multiplier m. */
  lemma EntryForm(p: string, n: int, d: int, m: int, e: (PayoutKey, real)) returns (pass: bool, win: bool)
    requires e in OddsEntries(p, n, d, m)
    ensures e.0.bets == [if pass then PassLineOddsLabel(m * d) else ComeOddsLabel(m * d, p)]
    ensures win ==> e.0.outcome == "win_" + p && e.1 == (m * n) as real
    ensures !win ==> (e.0.outcome == "lose" || e.0.outcome == "seven_out") && e.1 == -((m * d) as real)
  {
    var es := OddsEntries(p, n, d, m);
    var f :| 0 <= f < 6 && es[f] == e;
    pass := f % 2 == 0;
    win := f < 2;
  }

  /** Two loop entries with equal keys carry equal values. */
  lemma FormsAgree(i1: int, m1: int, pass1: bool, win1: bool, e1: (PayoutKey, real),
                   i2: int, m2: int, pass2: bool, win2: bool, e2: (PayoutKey, real))
    requires 0 <= i1 < |Points| && 1 <= m1 <= MaxMultiplier && 0 <= i2 < |Points| && 1 <= m2 <= MaxMultiplier
    requires e1.0.bets == [if pass1 then PassLineOddsLabel(m1 * Points[i1].2) else ComeOddsLabel(m1 * Points[i1].2, Points[i1].0)]
    requires win1 ==> e1.0.outcome == "win_" + Points[i1].0 && e1.1 == (m1 * Points[i1].1) as real
    requires !win1 ==> (e1.0.outcome == "lose" || e1.0.outcome == "seven_out") && e1.1 == -((m1 * Points[i1].2) as real)
    requires e2.0.bets == [if pass2 then PassLineOddsLabel(m2 * Points[i2].2) else ComeOddsLabel(m2 * Points[i2].2, Points[i2].0)]
    requires win2 ==> e2.0.outcome == "win_" + Points[i2].0 && e2.1 == (m2 * Points[i2].1) as real
    requires !win2 ==> (e2.0.outcome == "lose" || e2.0.outcome == "seven_out") && e2.1 == -((m2 * Points[i2].2) as real)
    requires e1.0 == e2.0
    ensures e1.1 == e2.1
  {
    PointsFacts();
    var p1, d1, p2, d2 := Points[i1].0, Points[i1].2, Points[i2].0, Points[i2].2;
    var a1, a2 := m1 * d1, m2 * d2;
    if pass1 != pass2 {
      LabelKindsDiffer(a1, a2, p2);
      LabelKindsDiffer(a2, a1, p1);
      assert false;
    }
    if pass1 {
      PassLineOddsLabelInjective(a1, a2);
    } else {
      ComeOddsLabelInjective(a1, p1, a2, p2);
    }
    if win1 != win2 {
      assert false;
    }
    if win1 {
      assert p1 == ("win_" + p1)[4..] && p2 == ("win_" + p2)[4..];
      assert i1 == i2;
      assert m1 * d1 == m2 * d1;
    }
  }

  /** No loop entry overwrites a flat entry. */
  lemma FlatKeysFresh(i: int, m: int, e: (PayoutKey, real))
    requires 0 <= i < |Points| && 1 <= m <= MaxMultiplier
    requires e in OddsEntries(Points[i].0, Points[i].1, Points[i].2, m)
    ensures e.0.bets != [PassLineFlat] && e.0.bets != [ComeFlat]
  {
    PointsFacts();
    LabelKindsDiffer(m * Points[i].2, m * Points[i].2, Points[i].0);
  }

  /** Every key of the table is written with one value only, so the order in
      which the points are visited does not matter (the `$2` pass-line odds
      label comes from both 4 and 5, `$5` from both 6 and 8). */
  lemma FlatEntriesConsistent(e1: (PayoutKey, real), e2: (PayoutKey, real))
    requires e1 in FlatEntries && e2 in FlatEntries && e1.0 == e2.0
    ensures e1.1 == e2.1
  {
  }

  lemma EntriesAgree(e1: (PayoutKey, real), e2: (PayoutKey, real))
    requires e1 in AllEntries() && e2 in AllEntries() && e1.0 == e2.0
    ensures e1.1 == e2.1
  {
    if e1 !in FlatEntries && e2 !in FlatEntries {
      var i1, m1 := EntryOrigin(e1);
      var i2, m2 := EntryOrigin(e2);
      var pass1, win1 := EntryForm(Points[i1].0, Points[i1].1, Points[i1].2, m1, e1);
      var pass2, win2 := EntryForm(Points[i2].0, Points[i2].1, Points[i2].2, m2, e2);
      FormsAgree(i1, m1, pass1, win1, e1, i2, m2, pass2, win2, e2);
    } else if e1 !in FlatEntries {
      var i1, m1 := EntryOrigin(e1);
      FlatKeysFresh(i1, m1, e1);
    } else if e2 !in FlatEntries {
      var i2, m2 := EntryOrigin(e2);
      FlatKeysFresh(i2, m2, e2);
    } else {
      FlatEntriesConsistent(e1, e2);
    }
  }

  /** Every key of the table is written with one value only, so the order in
      which the points are visited does not matter (the `$2` pass-line odds
      label comes from both 4 and 5, `$5` from both 6 and 8). */
  lemma AllEntriesConsistent()
    ensures Consistent(AllEntries())
  {
    forall e1, e2 | e1 in AllEntries() && e2 in AllEntries() && e1.0 == e2.0
      ensures e1.1 == e2.1
    {
      EntriesAgree(e1, e2);
    }
  }

  /** Looking up the key of any written entry gives that entry's value. */
  lemma LookupEntry(e: (PayoutKey, real))
    requires e in AllEntries()
    ensures e.0 in PayoutTable() && PayoutTable()[e.0] == e.1
  {
    AllEntriesConsistent();
    var k :| 0 <= k < |AllEntries()| && AllEntries()[k] == e;
    TableLookup(AllEntries(), k);
  }

  lemma OddsBlockAt(i: int, m: int)
    requires 0 <= i < |Points| && 1 <= m <= MaxMultiplier
    ensures OddsBlocks()[3 * i + m - 1] == OddsEntries(Points[i].0, Points[i].1, Points[i].2, m)
  {
    var j := 3 * i + m - 1;
    assert j / 3 == i && j % 3 + 1 == m;
  }

  lemma OddsEntryWritten(i: int, m: int, f: int)
    requires 0 <= i < |Points| && 1 <= m <= MaxMultiplier && 0 <= f < 6
    ensures OddsEntries(Points[i].0, Points[i].1, Points[i].2, m)[f] in AllEntries()
  {
    var j := 3 * i + m - 1;
    OddsBlockAt(i, m);
    FlattenMembers(OddsBlocks(), OddsBlocks()[j][f]);
  }

  /** The flat bets pay 1 per unit on `win` and lose 1 per unit on `lose` and `seven_out`. */
  lemma FlatPayouts()
    ensures PayoutKey([PassLineFlat], "win") in PayoutTable() && PayoutTable()[PayoutKey([PassLineFlat], "win")] == 1.0
    ensures PayoutKey([PassLineFlat], "lose") in PayoutTable() && PayoutTable()[PayoutKey([PassLineFlat], "lose")] == -1.0
    ensures PayoutKey([PassLineFlat], "seven_out") in PayoutTable() && PayoutTable()[PayoutKey([PassLineFlat], "seven_out")] == -1.0
    ensures PayoutKey([ComeFlat], "win") in PayoutTable() && PayoutTable()[PayoutKey([ComeFlat], "win")] == 1.0
    ensures PayoutKey([ComeFlat], "lose") in PayoutTable() && PayoutTable()[PayoutKey([ComeFlat], "lose")] == -1.0
    ensures PayoutKey([ComeFlat], "seven_out") in PayoutTable() && PayoutTable()[PayoutKey([ComeFlat], "seven_out")] == -1.0
  {
    forall f | 0 <= f < 6 ensures FlatEntries[f] in AllEntries() {
      assert AllEntries()[f] == FlatEntries[f];
    }
    LookupEntry(FlatEntries[0]);
    LookupEntry(FlatEntries[1]);
    LookupEntry(FlatEntries[2]);
    LookupEntry(FlatEntries[3]);
    LookupEntry(FlatEntries[4]);
    LookupEntry(FlatEntries[5]);
  }

  /** The true-odds ratio paid on a point: 2 for 4 and 10, 3/2 for 5 and 9, 6/5 for 6 and 8. */
  function TrueOdds(point: string): real
  {
    if point == "4" || point == "10" then 2.0
    else if point == "5" || point == "9" then 1.5
    else if point == "6" || point == "8" then 1.2
    else 0.0
  }

  /** m units of the point's denominator times its true odds are m times its numerator. */
  lemma TrueOddsRatio(i: int, m: int)
    requires 0 <= i < |Points|
    ensures (m * Points[i].1) as real == (m * Points[i].2) as real * TrueOdds(Points[i].0)
  {
  }

  /** An odds bet of m units of the point's denominator wins m times the
      numerator on `win_<point>`, that is its stake times the true odds,
      whether it is a pass-line or a come odds bet. */
  lemma OddsWinPayouts(i: int, m: int)
    requires 0 <= i < |Points| && 1 <= m <= MaxMultiplier
    ensures var (p, n, d) := Points[i];
      && PayoutKey([PassLineOddsLabel(m * d)], "win_" + p) in PayoutTable() && PayoutTable()[PayoutKey([PassLineOddsLabel(m * d)], "win_" + p)] == (m * n) as real
      && PayoutKey([ComeOddsLabel(m * d, p)], "win_" + p) in PayoutTable() && PayoutTable()[PayoutKey([ComeOddsLabel(m * d, p)], "win_" + p)] == (m * n) as real
      && (m * n) as real == (m * d) as real * TrueOdds(p)
  {
    var (p, n, d) := Points[i];
    var es := OddsEntries(p, n, d, m);
    OddsEntryWritten(i, m, 0);
    OddsEntryWritten(i, m, 1);
    LookupEntry(es[0]);
    LookupEntry(es[1]);
    TrueOddsRatio(i, m);
  }

  /** On `lose` and `seven_out` every odds bet loses exactly its dollar
      amount, whichever point wrote the label last. */
  lemma OddsLosePayouts(i: int, m: int)
    requires 0 <= i < |Points| && 1 <= m <= MaxMultiplier
    ensures var (p, n, d) := Points[i];
      && PayoutKey([PassLineOddsLabel(m * d)], "lose") in PayoutTable() && PayoutTable()[PayoutKey([PassLineOddsLabel(m * d)], "lose")] == -((m * d) as real)
      && PayoutKey([ComeOddsLabel(m * d, p)], "lose") in PayoutTable() && PayoutTable()[PayoutKey([ComeOddsLabel(m * d, p)], "lose")] == -((m * d) as real)
      && PayoutKey([PassLineOddsLabel(m * d)], "seven_out") in PayoutTable() && PayoutTable()[PayoutKey([PassLineOddsLabel(m * d)], "seven_out")] == -((m * d) as real)
      && PayoutKey([ComeOddsLabel(m * d, p)], "seven_out") in PayoutTable() && PayoutTable()[PayoutKey([ComeOddsLabel(m * d, p)], "seven_out")] == -((m * d) as real)
  {
    var (p, n, d) := Points[i];
    forall f | 2 <= f < 6 ensures OddsEntries(p, n, d, m)[f] in AllEntries() {
      OddsEntryWritten(i, m, f);
    }
    LookupEntry(OddsEntries(p, n, d, m)[2]);
    LookupEntry(OddsEntries(p, n, d, m)[3]);
    LookupEntry(OddsEntries(p, n, d, m)[4]);
    LookupEntry(OddsEntries(p, n, d, m)[5]);
  }

  /** Every `lose` or `seven_out` value is negative, every other value
      positive, and only the flat bets have a `win` entry. */
  predicate SignRule(k: PayoutKey, v: real)
  {
    && (k.outcome == "lose" || k.outcome == "seven_out" ==> v < 0.0)
    && (k.outcome != "lose" && k.outcome != "seven_out" ==> v > 0.0)
    && (k.outcome == "win" ==> k.bets == [PassLineFlat] || k.bets == [ComeFlat])
  }

  lemma OddsEntrySign(i: int, m: int, e: (PayoutKey, real))
    requires 0 <= i < |Points| && 1 <= m <= MaxMultiplier
    requires e in OddsEntries(Points[i].0, Points[i].1, Points[i].2, m)
    ensures SignRule(e.0, e.1)
  {
    PointsFacts();
    var pass, win := EntryForm(Points[i].0, Points[i].1, Points[i].2, m, e);
    if win {
      assert e.0.outcome[..4] == "win_";
    }
  }

  lemma EntrySign(e: (PayoutKey, real))
    requires e in AllEntries()
    ensures SignRule(e.0, e.1)
  {
    if e !in FlatEntries {
      var i, m := EntryOrigin(e);
      OddsEntrySign(i, m, e);
    }
  }

  lemma PayoutSigns(k: PayoutKey)
    requires k in PayoutTable()
    ensures SignRule(k, PayoutTable()[k])
  {
    AllEntriesConsistent();
    var j := TableEntry(AllEntries(), k);
    EntrySign(AllEntries()[j]);
  }

  /** The table is the same whatever order the entries are written in, as
      long as the same entries are written. */
  lemma AnyOrderSameTable(entries: seq<(PayoutKey, real)>)
    requires forall e :: e in entries <==> e in AllEntries()
    ensures Assign(map[], entries) == PayoutTable()
  {
    AllEntriesConsistent();
    OrderIrrelevant(entries, AllEntries());
  }

  lemma {:induction false} AssignSix(table: Table, es: seq<(PayoutKey, real)>)
    requires |es| == 6
    ensures Assign(table, es) ==
      table[es[0].0 := es[0].1][es[1].0 := es[1].1][es[2].0 := es[2].1][es[3].0 := es[3].1][es[4].0 := es[4].1][es[5].0 := es[5].1]
  {
    var t1 := table[es[0].0 := es[0].1];
    var t2 := t1[es[1].0 := es[1].1];
    var t3 := t2[es[2].0 := es[2].1];
    var t4 := t3[es[3].0 := es[3].1];
    var t5 := t4[es[4].0 := es[4].1];
    var t6 := t5[es[5].0 := es[5].1];
    assert Assign(t6, es[6..]) == t6;
    assert Assign(t5, es[5..]) == Assign(t6, es[6..]);
    assert Assign(t4, es[4..]) == Assign(t5, es[5..]);
    assert Assign(t3, es[3..]) == Assign(t4, es[4..]);
    assert Assign(t2, es[2..]) == Assign(t3, es[3..]);
    assert Assign(t1, es[1..]) == Assign(t2, es[2..]);
  }

  /** The body of the inner loop: the six dictionary assignments for one
      point and one multiplier. */
  method WriteOddsEntries(table: Table, point: string, num: int, denom: int, m: int) returns (t: Table)
    ensures t == Assign(table, OddsEntries(point, num, denom, m))
  {
    var betAmount := m * denom;
    var payout := m * num;
    var dollars := "$" + IntToString(betAmount);
    var keyPassWin := PayoutKey(["pass_line_odds_" + dollars], "win_" + point);
    var keyComeWin := PayoutKey(["come_odds_" + dollars + "_" + point], "win_" + point);
    var keyPassLose := PayoutKey(["pass_line_odds_" + dollars], "lose");
    var keyComeLose := PayoutKey(["come_odds_" + dollars + "_" + point], "lose");
    var keyPassSeven := PayoutKey(["pass_line_odds_" + dollars], "seven_out");
    var keyComeSeven := PayoutKey(["come_odds_" + dollars + "_" + point], "seven_out");
    t := table;
    t := t[keyPassWin := payout as real];
    t := t[keyComeWin := payout as real];
    t := t[keyPassLose := -(betAmount as real)];
    t := t[keyComeLose := -(betAmount as real)];
    t := t[keyPassSeven := -(betAmount as real)];
    t := t[keyComeSeven := -(betAmount as real)];
    assert "pass_line_odds_" + dollars == PassLineOddsLabel(betAmount);
    assert "come_odds_" + dollars + "_" + point == ComeOddsLabel(betAmount, point);
    AssignSix(table, OddsEntries(point, num, denom, m));
  }

  /** Writing block j after the blocks before it. */
  lemma WriteBlock(j: int)
    requires 0 <= j < |Points| * MaxMultiplier
    ensures Assign(Assign(map[], FlatEntries + Flatten(OddsBlocks()[..j])), OddsBlocks()[j])
      == Assign(map[], FlatEntries + Flatten(OddsBlocks()[..j + 1]))
  {
    var blocks := OddsBlocks();
    var written := FlatEntries + Flatten(blocks[..j]);
    AssignAppend(map[], written, blocks[j]);
    FlattenStep(blocks, j);
    assert written + blocks[j] == FlatEntries + Flatten(blocks[..j + 1]);
  }

  /** The inner loop for the i-th point: the entries of multipliers 1, 2
      and 3 in turn. */
  method WritePointOdds(table: Table, i: int) returns (t: Table)
    requires 0 <= i < |Points|
    requires table == Assign(map[], FlatEntries + Flatten(OddsBlocks()[..3 * i]))
    ensures t == Assign(map[], FlatEntries + Flatten(OddsBlocks()[..3 * i + 3]))
  {
    ghost var blocks := OddsBlocks();
    var (point, num, denom) := Points[i];
    t := table;
    var m := 1;
    while m <= MaxMultiplier
      invariant 1 <= m <= MaxMultiplier + 1
      invariant t == Assign(map[], FlatEntries + Flatten(blocks[..3 * i + m - 1]))
    {
      OddsBlockAt(i, m);
      WriteBlock(3 * i + m - 1);
      t := WriteOddsEntries(t, point, num, denom, m);
      m := m + 1;
    }
  }

  /** The module-level construction of `PAYOUT_TABLE`: the flat literal, then
      for each point and each multiplier 1..3 six assignments. */
  method BuildPayoutTable() returns (table: Table)
    ensures table == PayoutTable()
  {
    table := map[
      PayoutKey([PassLineFlat], "win") := 1.0,
      PayoutKey([PassLineFlat], "lose") := -1.0,
      PayoutKey([ComeFlat], "win") := 1.0,
      PayoutKey([ComeFlat], "lose") := -1.0,
      PayoutKey([PassLineFlat], "seven_out") := -1.0,
      PayoutKey([ComeFlat], "seven_out") := -1.0];
    AssignSix(map[], FlatEntries);
    ghost var blocks := OddsBlocks();
    assert FlatEntries + Flatten(blocks[..0]) == FlatEntries;
    var i := 0;
    while i < |Points|
      invariant 0 <= i <= |Points|
      invariant table == Assign(map[], FlatEntries + Flatten(blocks[..3 * i]))
    {
      table := WritePointOdds(table, i);
      i := i + 1;
    }
    assert blocks[..3 * i] == blocks;
  }
}
