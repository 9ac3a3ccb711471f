/** The four agents. They share the base agent's bankroll, bets, point and
    come points, and differ in how they build their action space, choose an
    action, stake it and settle their bets. The agent's fields are mirrored
    by an `AgentState` value; each method is proved against a function on
    that value, and the lemmas are about those functions. */
module Agents {
  import opened Wrappers
  import opened Text
  import opened Labels
  import opened Seqs
  import opened Bets
  import opened Payouts
  import opened AtomicActions
  import opened TableState
  import opened ClassicalState
  import opened ClassicalChoice
  import opened Combinations
  import QuantumAgent
  import QBistAgent

  /** Which agent this is, with its own settings: `max_combo_size` for all
      four; the classical agent's outcome table and helpers; the quantum and
      QBist agents' `max_dim`; and the QBist agent's SIC library, given as
      the list of elements for each dimension. */
  datatype Policy =
    | RandomPolicy(maxCombo: int)
    | ClassicalPolicy(maxCombo: int, outcomeProbs: seq<(string, real)>, helpers: ClassicalHelpers)
    | QuantumPolicy(maxCombo: int, maxDim: Option<int>)
    | QBistPolicy(maxCombo: int, dimCap: int, sicFor: int -> seq<QBistAgent.SicElement>)

  /** The constructors' defaults. */
  const DefaultBankroll: real := 1000.0
  const DefaultTableMin: real := 10.0

  function DefaultRandom(): Policy { RandomPolicy(3) }

  function DefaultClassical(helpers: ClassicalHelpers, outcomeProbs: Option<seq<(string, real)>>): Policy
  {
    ClassicalPolicy(6, OutcomeProbsOrDefault(outcomeProbs), helpers)
  }

  function DefaultQuantum(): Policy { QuantumPolicy(10, None) }

  function DefaultQBist(sicFor: int -> seq<QBistAgent.SicElement>): Policy { QBistPolicy(10, 10, sicFor) }

  /** The agent's fields. */
  datatype AgentState = AgentState(
    initialBankroll: real,
    bankroll: real,
    tableMin: real,
    walkawayThreshold: Option<real>,
    bets: seq<Bet>,
    legalActions: seq<seq<string>>,
    pointEstablished: bool,
    activeComePoints: set<int>,
    currentPoint: Option<int>)

  // ---------------------------------------------------------------------
  // The base agent
  // ---------------------------------------------------------------------

  /** `start_new_game`: clear the bets, the legal actions and the come
      points, forget the point. */
  function NewGame(s: AgentState): AgentState
  {
    s.(bets := [], legalActions := [], pointEstablished := false, activeComePoints := {}, currentPoint := None)
  }

  /** A new game keeps the money and the table minimum, and starting one
      twice is the same as starting it once. */
  lemma NewGameSpec(s: AgentState)
    ensures NewGame(NewGame(s)) == NewGame(s)
    ensures var t := NewGame(s);
      && t.bankroll == s.bankroll && t.initialBankroll == s.initialBankroll && t.tableMin == s.tableMin
      && t.walkawayThreshold == s.walkawayThreshold
      && t.bets == [] && t.legalActions == [] && t.activeComePoints == {} && t.currentPoint.None? && !t.pointEstablished
  {
  }

  /** `can_continue`: the bankroll covers the table minimum; the walk-away
      threshold plays no part. */
  predicate Continues(s: AgentState)
  {
    s.bankroll >= s.tableMin
  }

  lemma WalkawayIgnored(s: AgentState, w: Option<real>)
    ensures Continues(s.(walkawayThreshold := w)) == Continues(s)
    ensures Continues(s) <==> s.bankroll >= s.tableMin
  {
  }

  /** The money the agent owns: its bankroll plus what it has on the table. */
  function AmountSum(bets: seq<Bet>): real
  {
    if bets == [] then 0.0 else AmountSum(bets[..|bets| - 1]) + bets[|bets| - 1].amount
  }

  function Holdings(s: AgentState): real
  {
    s.bankroll + AmountSum(s.bets)
  }

  lemma {:induction false} AmountSumAppend(a: seq<Bet>, b: seq<Bet>)
    ensures AmountSum(a + b) == AmountSum(a) + AmountSum(b)
  {
    if b != [] {
      AmountSumAppend(a, b[..|b| - 1]);
      assert (a + b)[..|a + b| - 1] == a + b[..|b| - 1];
      assert (a + b)[|a + b| - 1] == b[|b| - 1];
    } else {
      assert a + b == a;
    }
  }

  lemma AmountSumSingle(b: Bet)
    ensures AmountSum([b]) == b.amount
  {
    assert [b][..0] == [];
  }

  lemma AmountSumCons(b: Bet, rest: seq<Bet>)
    ensures AmountSum([b] + rest) == b.amount + AmountSum(rest)
  {
    AmountSumAppend([b], rest);
    assert [b][..0] == [];
  }

  // ---------------------------------------------------------------------
  // place_pass_line_bet (the same in all four agents)
  // ---------------------------------------------------------------------

  /** A pass-line flat bet of the table minimum when the bankroll covers it. */
  function PassLine(s: AgentState): AgentState
  {
    if s.bankroll >= s.tableMin then s.(bets := s.bets + [PlainBet(PassLineFlat, s.tableMin)], bankroll := s.bankroll - s.tableMin)
    else s
  }

  /** The bet is placed exactly when the agent can continue; placing it moves
      money from the bankroll to the table, and a bankroll that was not
      negative stays so. */
  lemma PassLineSpec(s: AgentState)
    ensures |PassLine(s).bets| == |s.bets| + (if Continues(s) then 1 else 0)
    ensures Holdings(PassLine(s)) == Holdings(s)
    ensures s.bankroll >= 0.0 ==> PassLine(s).bankroll >= 0.0
    ensures PassLine(s).tableMin == s.tableMin && PassLine(s).currentPoint == s.currentPoint
  {
    if Continues(s) {
      AmountSumAppend(s.bets, [PlainBet(PassLineFlat, s.tableMin)]);
      assert AmountSum([PlainBet(PassLineFlat, s.tableMin)]) == s.tableMin by {
        assert [PlainBet(PassLineFlat, s.tableMin)][..0] == [];
      }
    }
  }

  // ---------------------------------------------------------------------
  // place_bets of the random, quantum and QBist agents
  // ---------------------------------------------------------------------

  /** How many labels the staking loop places: it stops at the first label
      met with the bankroll below the table minimum. */
  function Placed(bankroll: real, tableMin: real, labels: seq<string>): (n: nat)
    ensures n <= |labels|
    decreases |labels|
  {
    if labels == [] || bankroll < tableMin then 0 else 1 + Placed(bankroll - tableMin, tableMin, labels[1..])
  }

  /** The first n labels as bets of the table minimum, lower-cased. */
  function FlatStakes(labels: seq<string>, n: nat, tableMin: real): (stakes: seq<Bet>)
    requires n <= |labels|
    ensures |stakes| == n
  {
    seq(n, k requires 0 <= k < n => PlainBet(Lower(labels[k]), tableMin))
  }

  /** The state after the staking loop has placed the first i labels. */
  function StakePrefix(s: AgentState, labels: seq<string>, i: nat): AgentState
    requires i <= |labels|
  {
    s.(bets := s.bets + FlatStakes(labels, i, s.tableMin), bankroll := After(s.bankroll, s.tableMin, i))
  }

  /** `place_bets(action)` of the random, quantum and QBist agents. */
  function Stake(s: AgentState, action: Option<seq<string>>): AgentState
  {
    if action.None? then s
    else
      StakePrefix(s, action.value, Placed(s.bankroll, s.tableMin, action.value))
  }

  /** The bankroll after k stakes of the table minimum. */
  function After(bankroll: real, tableMin: real, k: nat): real
  {
    bankroll - k as real * tableMin
  }

  lemma StepProduct(n: nat, t: real)
    ensures (n + 1) as real * t == t + n as real * t
  {
  }

  /** The loop places bet after bet while the bankroll covers the minimum:
      before each placed bet the bankroll covers it, after the last the
      bankroll is not negative, and if a label is left over the bankroll no
      longer covers the minimum. With a positive minimum that is
      min(len(action), bankroll div table_min) bets. */
  lemma {:induction false} PlacedSpec(bankroll: real, tableMin: real, labels: seq<string>)
    ensures var n := Placed(bankroll, tableMin, labels);
      && (forall k: nat | k < n :: After(bankroll, tableMin, k) >= tableMin)
      && (n > 0 ==> After(bankroll, tableMin, n) >= 0.0)
      && (n < |labels| ==> After(bankroll, tableMin, n) < tableMin)
    decreases |labels|
  {
    var n := Placed(bankroll, tableMin, labels);
    if n > 0 {
      var m := Placed(bankroll - tableMin, tableMin, labels[1..]);
      PlacedSpec(bankroll - tableMin, tableMin, labels[1..]);
      StepProduct(m, tableMin);
      forall k: nat | k < n ensures After(bankroll, tableMin, k) >= tableMin {
        if k > 0 {
          assert After(bankroll - tableMin, tableMin, k - 1) >= tableMin;
          StepProduct(k - 1, tableMin);
        }
      }
    }
  }

  lemma {:induction false} FlatStakesSum(labels: seq<string>, n: nat, tableMin: real)
    requires n <= |labels|
    ensures AmountSum(FlatStakes(labels, n, tableMin)) == n as real * tableMin
  {
    if n > 0 {
      FlatStakesSum(labels, n - 1, tableMin);
      assert FlatStakes(labels, n, tableMin)[..n - 1] == FlatStakes(labels, n - 1, tableMin);
      StepProduct(n - 1, tableMin);
    }
  }

  /** One more label placed at the table minimum. */
  lemma StakePrefixStep(s: AgentState, labels: seq<string>, i: nat)
    requires i < |labels|
    ensures var t := StakePrefix(s, labels, i);
      StakePrefix(s, labels, i + 1) ==
        t.(bets := t.bets + [PlainBet(Lower(labels[i]), s.tableMin)], bankroll := t.bankroll - s.tableMin)
  {
    assert FlatStakes(labels, i + 1, s.tableMin) == FlatStakes(labels, i, s.tableMin) + [PlainBet(Lower(labels[i]), s.tableMin)];
    StepProduct(i, s.tableMin);
  }

  /** Once the remaining labels place nothing, the prefix is the whole stake. */
  lemma StakePrefixDone(s: AgentState, labels: seq<string>, i: nat)
    requires i <= |labels|
    requires Placed(s.bankroll, s.tableMin, labels) == i + Placed(After(s.bankroll, s.tableMin, i), s.tableMin, labels[i..])
    requires i == |labels| || After(s.bankroll, s.tableMin, i) < s.tableMin
    ensures Stake(s, Some(labels)) == StakePrefix(s, labels, i)
  {
    if i == |labels| {
      assert labels[i..] == [];
    }
    assert Placed(After(s.bankroll, s.tableMin, i), s.tableMin, labels[i..]) == 0;
    assert Placed(s.bankroll, s.tableMin, labels) == i;
  }

  /** Placing label i when the bankroll covers the minimum. */
  lemma PlacedStep(bankroll: real, tableMin: real, labels: seq<string>, i: nat)
    requires i < |labels| && bankroll >= tableMin
    ensures Placed(bankroll, tableMin, labels[i..]) == 1 + Placed(bankroll - tableMin, tableMin, labels[i + 1..])
  {
    assert labels[i..][1..] == labels[i + 1..];
  }

  /** Staking moves money from the bankroll to the table and never makes a
      bankroll that was not negative negative; the new bets are the first
      labels, lower-cased, each at the table minimum. */
  lemma StakeSpec(s: AgentState, labels: seq<string>)
    ensures var t := Stake(s, Some(labels));
      var n := Placed(s.bankroll, s.tableMin, labels);
      && Holdings(t) == Holdings(s)
      && (s.bankroll >= 0.0 ==> t.bankroll >= 0.0)
      && t.bets[..|s.bets|] == s.bets
      && |t.bets| == |s.bets| + n
      && (forall k | 0 <= k < n :: t.bets[|s.bets| + k] == PlainBet(Lower(labels[k]), s.tableMin))
  {
    var n := Placed(s.bankroll, s.tableMin, labels);
    PlacedSpec(s.bankroll, s.tableMin, labels);
    FlatStakesSum(labels, n, s.tableMin);
    AmountSumAppend(s.bets, FlatStakes(labels, n, s.tableMin));
  }

  // ---------------------------------------------------------------------
  // place_bets of the classical agent
  // ---------------------------------------------------------------------

  /** The bet the classical agent stores for a label: lower-cased type, the
      helper's amount, and for a come-odds label the helper's point. */
  function ClassicalBet(h: ClassicalHelpers, name: string, amount: real): Bet
  {
    Bet(Lower(name), amount, (if Contains(name, "come_odds_") then h.comePoint(name) else None), None)
  }

  /** A label is skipped when it has no amount, an amount below the table
      minimum, or one the bankroll does not cover. */
  predicate Skipped(h: ClassicalHelpers, tableMin: real, bankroll: real, name: string)
  {
    var a := h.betAmount(name);
    a.None? || a.value < tableMin || bankroll < a.value
  }

  /** The bets the classical staking loop appends, label by label. */
  function ClassicalStakes(h: ClassicalHelpers, tableMin: real, bankroll: real, labels: seq<string>): seq<Bet>
    decreases |labels|
  {
    if labels == [] then []
    else if Skipped(h, tableMin, bankroll, labels[0]) then ClassicalStakes(h, tableMin, bankroll, labels[1..])
    else
      var a := h.betAmount(labels[0]).value;
      [ClassicalBet(h, labels[0], a)] + ClassicalStakes(h, tableMin, bankroll - a, labels[1..])
  }

  /** What the loop does with label i. */
  lemma ClassicalStakesStep(h: ClassicalHelpers, tableMin: real, bankroll: real, labels: seq<string>, i: nat)
    requires i < |labels|
    ensures ClassicalStakes(h, tableMin, bankroll, labels[i..]) ==
      if Skipped(h, tableMin, bankroll, labels[i]) then ClassicalStakes(h, tableMin, bankroll, labels[i + 1..])
      else
        var a := h.betAmount(labels[i]).value;
        [ClassicalBet(h, labels[i], a)] + ClassicalStakes(h, tableMin, bankroll - a, labels[i + 1..])
  {
    assert labels[i..][1..] == labels[i + 1..];
  }

  /** `place_bets(action)` of the classical agent: nothing for a missing or
      empty action or one the agent cannot afford. */
  function ClassicalPlace(s: AgentState, h: ClassicalHelpers, action: Option<seq<string>>): AgentState
  {
    if action.None? || action.value == [] || !h.canAfford(action.value) then s
    else
      var placed := ClassicalStakes(h, s.tableMin, s.bankroll, action.value);
      s.(bets := s.bets + placed, bankroll := s.bankroll - AmountSum(placed))
  }

  /** `b` is the bet stored for one of the labels, at that label's amount. */
  predicate FromLabel(h: ClassicalHelpers, labels: seq<string>, b: Bet)
  {
    exists l | l in labels :: h.betAmount(l) == Some(b.amount) && b == ClassicalBet(h, l, b.amount)
  }

  /** The bankroll never pays more than it holds. */
  lemma {:induction false} ClassicalStakesCovered(h: ClassicalHelpers, tableMin: real, bankroll: real, labels: seq<string>)
    ensures var placed := ClassicalStakes(h, tableMin, bankroll, labels);
      |placed| <= |labels| && (bankroll >= 0.0 ==> bankroll - AmountSum(placed) >= 0.0)
    decreases |labels|
  {
    if labels != [] {
      if Skipped(h, tableMin, bankroll, labels[0]) {
        ClassicalStakesCovered(h, tableMin, bankroll, labels[1..]);
      } else {
        var a := h.betAmount(labels[0]).value;
        ClassicalStakesCovered(h, tableMin, bankroll - a, labels[1..]);
        AmountSumCons(ClassicalBet(h, labels[0], a), ClassicalStakes(h, tableMin, bankroll - a, labels[1..]));
      }
    }
  }

  /** Every placed bet is one of the labels at its own amount, and that
      amount is at least the table minimum. */
  lemma {:induction false} ClassicalStakesFromLabels(h: ClassicalHelpers, tableMin: real, bankroll: real, labels: seq<string>)
    ensures forall b | b in ClassicalStakes(h, tableMin, bankroll, labels) :: b.amount >= tableMin && FromLabel(h, labels, b)
    decreases |labels|
  {
    if labels != [] {
      var rest := labels[1..];
      var a := h.betAmount(labels[0]);
      var next := if Skipped(h, tableMin, bankroll, labels[0]) then bankroll else bankroll - a.value;
      ClassicalStakesFromLabels(h, tableMin, next, rest);
      forall b | b in ClassicalStakes(h, tableMin, next, rest) ensures FromLabel(h, labels, b) {
        var l :| l in rest && h.betAmount(l) == Some(b.amount) && b == ClassicalBet(h, l, b.amount);
        assert l in labels;
      }
      if !Skipped(h, tableMin, bankroll, labels[0]) {
        assert labels[0] in labels;
      }
    }
  }

  /** The classical agent's staking moves money from the bankroll to the
      table, never overdraws a bankroll that was not negative, and rejects an
      action it cannot afford as a whole. */
  lemma ClassicalPlaceSpec(s: AgentState, h: ClassicalHelpers, action: Option<seq<string>>)
    ensures Holdings(ClassicalPlace(s, h, action)) == Holdings(s)
    ensures s.bankroll >= 0.0 ==> ClassicalPlace(s, h, action).bankroll >= 0.0
    ensures action.Some? && !h.canAfford(action.value) ==> ClassicalPlace(s, h, action) == s
    ensures ClassicalPlace(s, h, action).bets[..|s.bets|] == s.bets
  {
    if !(action.None? || action.value == [] || !h.canAfford(action.value)) {
      var placed := ClassicalStakes(h, s.tableMin, s.bankroll, action.value);
      ClassicalStakesCovered(h, s.tableMin, s.bankroll, action.value);
      AmountSumAppend(s.bets, placed);
    }
  }

  // ---------------------------------------------------------------------
  // resolve_game (the same rule in all four agents)
  // ---------------------------------------------------------------------

  /** A bet is kept unless its payout is negative. */
  function NotLost(value: Bet -> real): Bet -> bool
  {
    b => value(b) >= 0.0
  }

  /** What a bet adds to the bankroll: amount times payout when the payout
      is positive. */
  function Gain(value: Bet -> real, b: Bet): real
  {
    if value(b) > 0.0 then b.amount * value(b) else 0.0
  }

  function Credit(bets: seq<Bet>, value: Bet -> real): real
  {
    if bets == [] then 0.0 else Credit(bets[..|bets| - 1], value) + Gain(value, bets[|bets| - 1])
  }

  lemma CreditStep(bets: seq<Bet>, value: Bet -> real, i: nat)
    requires i < |bets|
    ensures Credit(bets[..i + 1], value) == Credit(bets[..i], value) + Gain(value, bets[i])
  {
    assert bets[..i + 1][..i] == bets[..i];
  }

  /** `resolve_game(outcome)` with `value(b)` the payout looked up for the
      bet's type under the outcome. */
  function Resolve(s: AgentState, value: Bet -> real): AgentState
  {
    s.(bankroll := s.bankroll + Credit(s.bets, value), bets := Filter(s.bets, NotLost(value)))
  }

  /** `PAYOUT_TABLE.get(((type,), outcome), 0)` */
  function TableValue(table: Table, outcome: string): Bet -> real
  {
    (b: Bet) => Get(table, PayoutKey([b.kind], outcome))
  }

  /** The classical agent's `lookup_payout(((type,), outcome), outcome)`. */
  function LookupValue(h: ClassicalHelpers, outcome: string): Bet -> real
  {
    (b: Bet) => h.lookupPayout(PayoutKey([b.kind], outcome), outcome)
  }

  /** The payout each agent looks up. */
  function OutcomeValue(policy: Policy, outcome: string): Bet -> real
  {
    if policy.ClassicalPolicy? then LookupValue(policy.helpers, outcome) else TableValue(PayoutTable(), outcome)
  }

  lemma {:induction false} SubseqExtend<T>(c: seq<T>, s: seq<T>, x: T)
    requires IsSubseq(c, s)
    ensures IsSubseq(c, s + [x])
    ensures IsSubseq(c + [x], s + [x])
    decreases |s|
  {
    if s == [] {
      assert c == [];
      assert ([x] + [])[1..] == [];
    } else if c == [] {
      SubseqExtend(c, s[1..], x);
      assert (s + [x])[1..] == s[1..] + [x];
      assert ([] + [x])[1..] == [];
      if IsSubseq([x], s[1..] + [x]) {
        assert IsSubseq(c + [x], s + [x]);
      }
    } else {
      assert (s + [x])[1..] == s[1..] + [x];
      assert (c + [x])[1..] == c[1..] + [x];
      if c[0] == s[0] && IsSubseq(c[1..], s[1..]) {
        SubseqExtend(c[1..], s[1..], x);
      } else {
        SubseqExtend(c, s[1..], x);
      }
    }
  }

  lemma {:induction false} FilterIsSubseq<T>(s: seq<T>, keep: T -> bool)
    ensures IsSubseq(Filter(s, keep), s)
  {
    if s != [] {
      var init := s[..|s| - 1];
      var x := s[|s| - 1];
      FilterIsSubseq(init, keep);
      SubseqExtend(Filter(init, keep), init, x);
      assert init + [x] == s;
      if keep(x) {
        assert Filter(s, keep) == Filter(init, keep) + [x];
      } else {
        assert Filter(s, keep) == Filter(init, keep);
      }
    }
  }

  lemma {:induction false} CreditNonNegative(bets: seq<Bet>, value: Bet -> real)
    requires forall k | 0 <= k < |bets| :: bets[k].amount >= 0.0
    ensures Credit(bets, value) >= 0.0
  {
    if bets != [] {
      CreditNonNegative(bets[..|bets| - 1], value);
    }
  }

  lemma {:induction false} CreditZero(bets: seq<Bet>, value: Bet -> real)
    requires forall k | 0 <= k < |bets| :: value(bets[k]) <= 0.0
    ensures Credit(bets, value) == 0.0
  {
    if bets != [] {
      CreditZero(bets[..|bets| - 1], value);
    }
  }

  /** Settling keeps exactly the bets whose payout is not negative, in their
      order; a bankroll only grows when the amounts are not negative; and a
      table with no entry for any bet changes nothing. */
  lemma ResolveSpec(s: AgentState, value: Bet -> real)
    ensures var t := Resolve(s, value);
      && (forall b :: b in t.bets <==> b in s.bets && value(b) >= 0.0)
      && IsSubseq(t.bets, s.bets)
      && ((forall k | 0 <= k < |s.bets| :: s.bets[k].amount >= 0.0) ==> t.bankroll >= s.bankroll)
      && ((forall k | 0 <= k < |s.bets| :: value(s.bets[k]) == 0.0) ==> t == s)
  {
    forall b ensures b in Filter(s.bets, NotLost(value)) <==> b in s.bets && value(b) >= 0.0 {
      FilterMembers(s.bets, NotLost(value), b);
    }
    FilterIsSubseq(s.bets, NotLost(value));
    if forall k | 0 <= k < |s.bets| :: s.bets[k].amount >= 0.0 {
      CreditNonNegative(s.bets, value);
    }
    if forall k | 0 <= k < |s.bets| :: value(s.bets[k]) == 0.0 {
      CreditZero(s.bets, value);
      FilterAll(s.bets, NotLost(value));
    }
  }

  /** A seven-out under the payout table removes exactly the bets the table
      prices for `seven_out` and pays nothing. */
  lemma SevenOutSpec(s: AgentState)
    ensures var t := Resolve(s, TableValue(PayoutTable(), "seven_out"));
      && t.bankroll == s.bankroll
      && forall b :: b in t.bets <==> b in s.bets && PayoutKey([b.kind], "seven_out") !in PayoutTable()
  {
    var value := TableValue(PayoutTable(), "seven_out");
    forall b ensures value(b) <= 0.0 && (value(b) >= 0.0 <==> PayoutKey([b.kind], "seven_out") !in PayoutTable()) {
      var k := PayoutKey([b.kind], "seven_out");
      if k in PayoutTable() {
        PayoutSigns(k);
      }
    }
    CreditZero(s.bets, value);
    ResolveSpec(s, value);
  }

  // ---------------------------------------------------------------------
  // choose_action
  // ---------------------------------------------------------------------

  /** The classical agent's `compute_expected_value`. */
  function EvOf(probs: seq<(string, real)>, h: ClassicalHelpers): seq<string> -> real
  {
    c => ExpectedValue(probs, h.payoutTable, c)
  }

  /** The classical agent's `total_wager`, with the flat bets on the table. */
  function WagerOf(h: ClassicalHelpers, bets: seq<Bet>): seq<string> -> Option<real>
  {
    c => TotalWager(h.betAmount, c, Committed(bets))
  }

  /** What `choose_action` may return: any legal action for the random
      agent, the classical, quantum or QBist choice for the others. */
  predicate Chose(policy: Policy, s: AgentState, r: Result<Option<seq<string>>>)
  {
    match policy
    case RandomPolicy(_) =>
      r.Ok? && (r.value.None? <==> s.legalActions == []) && (r.value.Some? ==> r.value.value in s.legalActions)
    case ClassicalPolicy(_, probs, h) =>
      r == ClassicalChoose(s.legalActions, h.canAfford, EvOf(probs, h), WagerOf(h, s.bets))
    case QuantumPolicy(_, maxDim) =>
      r == QuantumAgent.QuantumChoose(s.legalActions, maxDim)
    case QBistPolicy(_, maxDim, sicFor) =>
      QBistAgent.WellShaped(sicFor) && r == QBistAgent.QBistChoose(PayoutTable(), s.currentPoint, s.legalActions, maxDim, sicFor)
  }

  /** Every agent returns one of its legal actions or nothing, and nothing
      exactly when it has no legal action (or, for the classical agent, can
      afford none). */
  lemma ChoiceIsLegal(policy: Policy, s: AgentState, r: Result<Option<seq<string>>>)
    requires Chose(policy, s, r)
    ensures r.Ok? && r.value.Some? ==> r.value.value in s.legalActions
    ensures s.legalActions == [] ==> r == Ok(None)
    ensures r == Ok(None) ==>
      s.legalActions == [] || (policy.ClassicalPolicy? && forall c | c in s.legalActions :: !policy.helpers.canAfford(c))
  {
    match policy
    case RandomPolicy(_) =>
    case ClassicalPolicy(_, probs, h) =>
      var ev := EvOf(probs, h);
      var key := WagerOf(h, s.bets);
      ClassicalChooseNone(s.legalActions, h.canAfford, ev, key);
      if r.Ok? && r.value.Some? {
        ClassicalChooseBest(s.legalActions, h.canAfford, ev, key);
      }
    case QuantumPolicy(_, maxDim) =>
      QuantumAgent.QuantumChooseSpec(s.legalActions, maxDim);
    case QBistPolicy(_, maxDim, sicFor) =>
      QBistAgent.QBistChooseDimension(PayoutTable(), s.currentPoint, s.legalActions, maxDim, sicFor);
      if r.Ok? && r.value.Some? {
        QBistAgent.QBistChooseSelection(PayoutTable(), s.currentPoint, s.legalActions, maxDim, sicFor);
      }
  }

  // ---------------------------------------------------------------------
  // update_action_space
  // ---------------------------------------------------------------------

  /** The game state each agent builds: the classical agent its own
      dictionary (and it takes no `game_state` argument), the others the one
      they are given or `build_game_state(self)`. */
  function GameStateFor(policy: Policy, s: AgentState, given: Option<GameState>): Result<GameState>
  {
    if policy.ClassicalPolicy? then
      if given.Some? then Err(TypeError) else ClassicalGameState(s.bets, s.activeComePoints, s.currentPoint, s.tableMin)
    else if given.Some? then Ok(given.value)
    else BuildGameState(s.bets, s.activeComePoints, s.currentPoint, s.tableMin)
  }

  /** `update_action_space`: every combination of 1..K of the generated
      atomic actions, in `itertools` order; a failure to build the state
      leaves the agent as it was. */
  function UpdateActions(policy: Policy, s: AgentState, given: Option<GameState>): Result<AgentState>
  {
    match GameStateFor(policy, s, given)
    case Err(e) => Err(e)
    case Ok(gs) => Ok(s.(legalActions := Composites(AtomicActionsOf(gs), policy.maxCombo)))
  }

  /** The legal actions after an update are exactly the order-preserving
      selections of 1..min(n, K) generated atomic actions. */
  lemma UpdateActionsSpec(policy: Policy, s: AgentState, given: Option<GameState>, c: seq<string>)
    requires UpdateActions(policy, s, given).Ok?
    ensures var gs := GameStateFor(policy, s, given).value;
      var atomic := AtomicActionsOf(gs);
      var t := UpdateActions(policy, s, given).value;
      && t.bets == s.bets && t.bankroll == s.bankroll
      && UpdateActions(policy, t, given) == Ok(t)
      && |t.legalActions| == SumBinom(|atomic|, LargestSize(|atomic|, policy.maxCombo))
      && (c in t.legalActions <==> 1 <= |c| <= LargestSize(|atomic|, policy.maxCombo) && IsSubseq(c, atomic))
  {
    var gs := GameStateFor(policy, s, given).value;
    CompositesSpec(AtomicActionsOf(gs), policy.maxCombo);
  }

  // ---------------------------------------------------------------------
  // The agent
  // ---------------------------------------------------------------------

  class Agent {
    var initialBankroll: real
    var bankroll: real
    var tableMin: real
    var walkawayThreshold: Option<real>
    var bets: seq<Bet>
    var legalActions: seq<seq<string>>
    var pointEstablished: bool
    var activeComePoints: set<int>
    var currentPoint: Option<int>
    const policy: Policy
    const actionGen: AtomicActionGenerator

    function State(): AgentState
      reads this
    {
      AgentState(initialBankroll, bankroll, tableMin, walkawayThreshold, bets, legalActions,
                 pointEstablished, activeComePoints, currentPoint)
    }

    /** `BaseAgent.__init__` with the variant's settings. */
    constructor (startingBankroll: real, tableMinimum: real, walkawayThreshold: Option<real>, policy: Policy)
      ensures State() == AgentState(startingBankroll, startingBankroll, tableMinimum, walkawayThreshold, [], [], false, {}, None)
      ensures this.policy == policy
      ensures fresh(actionGen)
    {
      initialBankroll := startingBankroll;
      bankroll := startingBankroll;
      tableMin := tableMinimum;
      this.walkawayThreshold := walkawayThreshold;
      bets := [];
      legalActions := [];
      pointEstablished := false;
      activeComePoints := {};
      currentPoint := None;
      this.policy := policy;
      actionGen := new AtomicActionGenerator();
    }

    method StartNewGame()
      modifies this
      ensures State() == NewGame(old(State()))
    {
      bets := [];
      legalActions := [];
      pointEstablished := false;
      activeComePoints := {};
      currentPoint := None;
    }

    predicate CanContinue()
      reads this
    {
      Continues(State())
    }

    method AdjustBankroll(amount: real)
      modifies this
      ensures State() == old(State()).(bankroll := old(bankroll) + amount)
    {
      bankroll := bankroll + amount;
    }

    method PlacePassLineBet()
      modifies this
      ensures State() == PassLine(old(State()))
    {
      if bankroll >= tableMin {
        bets := bets + [PlainBet(PassLineFlat, tableMin)];
        AdjustBankroll(-tableMin);
      }
    }

    method UpdateActionSpace(given: Option<GameState>) returns (err: Option<Error>)
      modifies this, actionGen
      ensures var r := UpdateActions(policy, old(State()), given);
        && (r.Err? ==> err == Some(r.error) && State() == old(State()))
        && (r.Ok? ==> err.None? && State() == r.value)
    {
      var built: Result<GameState>;
      if policy.ClassicalPolicy? {
        if given.Some? {
          return Some(TypeError);
        }
        built := ClassicalGameState(bets, activeComePoints, currentPoint, tableMin);
      } else if given.Some? {
        built := Ok(given.value);
      } else {
        built := BuildGameStateLoop(bets, activeComePoints, currentPoint, tableMin);
      }
      if built.Err? {
        return Some(built.error);
      }
      var atomic := actionGen.GenerateAtomicActions(built.value);
      legalActions := EnumerateComposites(atomic, policy.maxCombo);
      err := None;
    }

    method ChooseAction() returns (r: Result<Option<seq<string>>>)
      requires policy.QBistPolicy? ==> QBistAgent.WellShaped(policy.sicFor)
      ensures Chose(policy, State(), r)
    {
      match policy
      case RandomPolicy(_) =>
        if legalActions == [] {
          return Ok(None);
        }
        assert legalActions[0] in legalActions;
        var c :| c in legalActions;
        r := Ok(Some(c));
      case ClassicalPolicy(_, probs, h) =>
        r := ChooseClassical(legalActions, h.canAfford, EvOf(probs, h), WagerOf(h, bets));
      case QuantumPolicy(_, maxDim) =>
        r := QuantumAgent.ChooseQuantum(legalActions, maxDim);
      case QBistPolicy(_, maxDim, sicFor) =>
        r := QBistAgent.ChooseQBist(PayoutTable(), currentPoint, legalActions, maxDim, sicFor);
    }

    method PlaceBets(action: Option<seq<string>>)
      modifies this
      ensures policy.ClassicalPolicy? ==> State() == ClassicalPlace(old(State()), policy.helpers, action)
      ensures !policy.ClassicalPolicy? ==> State() == Stake(old(State()), action)
    {
      if policy.ClassicalPolicy? {
        PlaceClassical(action);
      } else {
        PlaceStakes(action);
      }
    }

    /** The staking loop of the random, quantum and QBist agents. */
    method PlaceStakes(action: Option<seq<string>>)
      modifies this
      ensures State() == Stake(old(State()), action)
    {
      if action.None? {
        return;
      }
      var labels := action.value;
      ghost var s0 := State();
      var i := 0;
      while i < |labels|
        invariant 0 <= i <= |labels|
        invariant bankroll == After(s0.bankroll, s0.tableMin, i)
        invariant Placed(s0.bankroll, s0.tableMin, labels) == i + Placed(bankroll, tableMin, labels[i..])
        invariant State() == StakePrefix(s0, labels, i)
      {
        if bankroll < tableMin {
          break;
        }
        PlacedStep(bankroll, tableMin, labels, i);
        StakePrefixStep(s0, labels, i);
        bets := bets + [PlainBet(Lower(labels[i]), tableMin)];
        bankroll := bankroll - tableMin;
        i := i + 1;
      }
      StakePrefixDone(s0, labels, i);
    }

    /** The staking loop of the classical agent. */
    method PlaceClassical(action: Option<seq<string>>)
      modifies this
      requires policy.ClassicalPolicy?
      ensures State() == ClassicalPlace(old(State()), policy.helpers, action)
    {
      var h := policy.helpers;
      if action.None? || action.value == [] || !h.canAfford(action.value) {
        return;
      }
      var labels := action.value;
      ghost var s0 := State();
      ghost var placed: seq<Bet> := [];
      for i := 0 to |labels|
        invariant bets == s0.bets + placed
        invariant bankroll == s0.bankroll - AmountSum(placed)
        invariant State() == s0.(bets := bets, bankroll := bankroll)
        invariant ClassicalStakes(h, s0.tableMin, s0.bankroll, labels) == placed + ClassicalStakes(h, tableMin, bankroll, labels[i..])
      {
        ClassicalStakesStep(h, tableMin, bankroll, labels, i);
        var amt := h.betAmount(labels[i]);
        if amt.None? || amt.value < tableMin || bankroll < amt.value {
          continue;
        }
        var bet := ClassicalBet(h, labels[i], amt.value);
        AmountSumAppend(placed, [bet]);
        AmountSumSingle(bet);
        assert placed + ([bet] + ClassicalStakes(h, tableMin, bankroll - amt.value, labels[i + 1..]))
          == (placed + [bet]) + ClassicalStakes(h, tableMin, bankroll - amt.value, labels[i + 1..]);
        placed := placed + [bet];
        bets := bets + [bet];
        bankroll := bankroll - amt.value;
      }
      assert labels[|labels|..] == [];
      assert placed + [] == placed;
    }

    method ResolveGame(outcome: string)
      modifies this
      ensures State() == Resolve(old(State()), OutcomeValue(policy, outcome))
    {
      var value := OutcomeValue(policy, outcome);
      ResolveBy(value);
    }

    /** The loop of `resolve_game` once the outcome's multiplier for each
        bet is known. */
    method ResolveBy(value: Bet -> real)
      modifies this
      ensures State() == Resolve(old(State()), value)
    {
      ghost var s0 := State();
      var all := bets;
      var remaining: seq<Bet> := [];
      for i := 0 to |all|
        invariant remaining == Filter(all[..i], NotLost(value))
        invariant bankroll == s0.bankroll + Credit(all[..i], value)
        invariant State() == s0.(bankroll := bankroll)
      {
        FilterStep(all, NotLost(value), i);
        CreditStep(all, value, i);
        var b := all[i];
        var mult := value(b);
        if mult > 0.0 {
          AdjustBankroll(b.amount * mult);
        }
        if mult >= 0.0 {
          remaining := remaining + [b];
        }
      }
      assert all[..|all|] == all;
      bets := remaining;
    }
  }
}
