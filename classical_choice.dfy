/** How the classical agent values and picks a composite action: the expected
    value over its outcome table, the arg-max loop over the legal actions,
    and the tie-break on the smallest total wager. */
module ClassicalChoice {
  import opened Wrappers
  import opened Text
  import opened Seqs
  import opened Bets
  import opened Payouts

  /** The members the classical agent calls but that no class in the program
      defines or stores: `can_afford_action`, `_get_bet_amount`,
      `_extract_come_point`, `lookup_payout` and `self.payout_table`. They
      are taken as given functions and a given table. */
  datatype ClassicalHelpers = ClassicalHelpers(
    canAfford: seq<string> -> bool,
    betAmount: string -> Option<real>,
    comePoint: string -> Option<int>,
    lookupPayout: (PayoutKey, string) -> real,
    payoutTable: map<PayoutKey, real>)

  /** The outcome table used when none (or an empty one) is given. */
  const DefaultOutcomeProbs: seq<(string, real)> := [("win", 0.4929), ("lose", 0.5071)]

  /** `outcome_probs or {...}`: a missing or empty table falls back to the default. */
  function OutcomeProbsOrDefault(given: Option<seq<(string, real)>>): (probs: seq<(string, real)>)
    ensures probs != []
    ensures given.Some? && given.value != [] ==> probs == given.value
    ensures given.None? || given.value == [] ==> probs == DefaultOutcomeProbs
  {
    if given.Some? && given.value != [] then given.value else DefaultOutcomeProbs
  }

  /** The default table weighs a win and a loss to a total of one. */
  lemma DefaultOutcomeProbsSum()
    ensures DefaultOutcomeProbs[0].1 + DefaultOutcomeProbs[1].1 == 1.0
    ensures DefaultOutcomeProbs[1].1 > DefaultOutcomeProbs[0].1
  {
  }

  /** `dict.get(key, 0.0)` */
  function Get(table: map<PayoutKey, real>, key: PayoutKey): real
  {
    if key in table then table[key] else 0.0
  }

  /** What one label pays under one outcome: its lower-cased one-label key,
      0 when the table has no such key. */
  function LabelPayout(table: map<PayoutKey, real>, name: string, outcome: string): real
  {
    Get(table, PayoutKey([Lower(name)], outcome))
  }

  /** The inner loop: the labels' payouts under one outcome, added up. */
  function ComboPayout(table: map<PayoutKey, real>, combo: seq<string>, outcome: string): real
  {
    if combo == [] then 0.0
    else ComboPayout(table, combo[..|combo| - 1], outcome) + LabelPayout(table, combo[|combo| - 1], outcome)
  }

  /** `compute_expected_value(combo)`: for each outcome in table order, its
      probability times the combo's payout under it, added up. */
  function ExpectedValue(probs: seq<(string, real)>, table: map<PayoutKey, real>, combo: seq<string>): real
  {
    if probs == [] then 0.0
    else
      ExpectedValue(probs[..|probs| - 1], table, combo) + Weighted(probs[|probs| - 1].1, probs[|probs| - 1].0, table, combo)
  }

  /** One outcome's term: its probability times the combo's payout under it. */
  function Weighted(p: real, outcome: string, table: map<PayoutKey, real>, combo: seq<string>): real
  {
    p * ComboPayout(table, combo, outcome)
  }

  lemma WeightedAdditive(p: real, outcome: string, table: map<PayoutKey, real>, a: seq<string>, b: seq<string>)
    ensures Weighted(p, outcome, table, a + b) == Weighted(p, outcome, table, a) + Weighted(p, outcome, table, b)
  {
    ComboPayoutAppend(table, a, b, outcome);
    Distribute(p, ComboPayout(table, a, outcome), ComboPayout(table, b, outcome), ComboPayout(table, a + b, outcome));
  }

  lemma Distribute(p: real, x: real, y: real, xy: real)
    requires xy == x + y
    ensures p * xy == p * x + p * y
  {
  }

  lemma {:induction false} ComboPayoutAppend(table: map<PayoutKey, real>, a: seq<string>, b: seq<string>, outcome: string)
    ensures ComboPayout(table, a + b, outcome) == ComboPayout(table, a, outcome) + ComboPayout(table, b, outcome)
    decreases |b|
  {
    if b == [] {
      assert a + b == a;
    } else {
      var init := b[..|b| - 1];
      ComboPayoutAppend(table, a, init, outcome);
      assert (a + b)[..|a + b| - 1] == a + init;
    }
  }

  /** The expected value of a combo is the sum of the expected values of its
      parts: the agent values each label on its own and adds them up. */
  lemma {:induction false} ExpectedValueAdditive(probs: seq<(string, real)>, table: map<PayoutKey, real>, a: seq<string>, b: seq<string>)
    ensures ExpectedValue(probs, table, a + b) == ExpectedValue(probs, table, a) + ExpectedValue(probs, table, b)
  {
    if probs != [] {
      ExpectedValueAdditive(probs[..|probs| - 1], table, a, b);
      WeightedAdditive(probs[|probs| - 1].1, probs[|probs| - 1].0, table, a, b);
    }
  }

  /** The empty combo is worth nothing. */
  lemma {:induction false} ExpectedValueEmpty(probs: seq<(string, real)>, table: map<PayoutKey, real>)
    ensures ExpectedValue(probs, table, []) == 0.0
  {
    if probs != [] {
      ExpectedValueEmpty(probs[..|probs| - 1], table);
    }
  }

  /** A label the table has no key for under any outcome adds nothing. */
  lemma {:induction false} ExpectedValueMissing(probs: seq<(string, real)>, table: map<PayoutKey, real>, name: string)
    requires forall o :: PayoutKey([Lower(name)], o) !in table
    ensures ExpectedValue(probs, table, [name]) == 0.0
  {
    if probs != [] {
      ExpectedValueMissing(probs[..|probs| - 1], table, name);
      assert [name][..0] == [];
      assert ComboPayout(table, [name], probs[|probs| - 1].0) == 0.0;
    }
  }

  /** The two nested loops of `compute_expected_value`. */
  method ComputeExpectedValue(probs: seq<(string, real)>, table: map<PayoutKey, real>, combo: seq<string>) returns (ev: real)
    ensures ev == ExpectedValue(probs, table, combo)
  {
    ev := 0.0;
    var i := 0;
    while i < |probs|
      invariant 0 <= i <= |probs|
      invariant ev == ExpectedValue(probs[..i], table, combo)
    {
      var (outcome, p) := probs[i];
      var payout := 0.0;
      var j := 0;
      while j < |combo|
        invariant 0 <= j <= |combo|
        invariant payout == ComboPayout(table, combo[..j], outcome)
      {
        assert combo[..j + 1][..j] == combo[..j];
        payout := payout + Get(table, PayoutKey([Lower(combo[j])], outcome));
        j := j + 1;
      }
      assert combo[..j] == combo;
      assert probs[..i + 1][..i] == probs[..i];
      ev := ev + p * payout;
      i := i + 1;
    }
    assert probs[..i] == probs;
  }

  /** The arg-max loop of `choose_action` over the first actions: the best
      value so far (None while it is still minus infinity) and the actions
      that reach it, in order. */
  function BestActions(legal: seq<seq<string>>, ev: seq<string> -> real): (Option<real>, seq<seq<string>>)
  {
    if legal == [] then (None, [])
    else
      var (m, best) := BestActions(legal[..|legal| - 1], ev);
      var c := legal[|legal| - 1];
      if m.None? || ev(c) > m.value then (Some(ev(c)), [c])
      else if ev(c) == m.value then (m, best + [c])
      else (m, best)
  }

  /** The actions reaching value `m`. */
  function ValueIs(ev: seq<string> -> real, m: real): seq<string> -> bool
  {
    c => ev(c) == m
  }

  /** The loop ends with the largest value over all legal actions, and with
      exactly the actions that reach it, in their order. */
  lemma {:induction false} BestActionsSpec(legal: seq<seq<string>>, ev: seq<string> -> real)
    ensures BestActions(legal, ev).0.None? <==> legal == []
    ensures legal != [] ==> var m := BestActions(legal, ev).0.value;
      && (exists c :: c in legal && ev(c) == m)
      && (forall c | c in legal :: ev(c) <= m)
      && BestActions(legal, ev).1 == Filter(legal, ValueIs(ev, m))
  {
    if legal != [] {
      var init := legal[..|legal| - 1];
      var c := legal[|legal| - 1];
      BestActionsSpec(init, ev);
      assert legal == init + [c];
      var (m, best) := BestActions(init, ev);
      var m' := BestActions(legal, ev).0.value;
      FilterStep(legal, ValueIs(ev, m'), |legal| - 1);
      assert legal[..|legal| - 1] == init;
      if m.None? || ev(c) > m.value {
        forall k | 0 <= k < |init| ensures !ValueIs(ev, m')(init[k]) {
          assert init[k] in init;
        }
        FilterNone(init, ValueIs(ev, m'));
      }
    }
  }

  /** Nothing is kept by a filter that rejects every element. */
  lemma {:induction false} FilterNone<T>(s: seq<T>, keep: T -> bool)
    requires forall k | 0 <= k < |s| :: !keep(s[k])
    ensures Filter(s, keep) == []
  {
    if s != [] {
      FilterNone(s[..|s| - 1], keep);
    }
  }

  /** The amount already on the table in flat bets (`pass_line_flat` and
      `come_flat`), whatever their point. */
  function Committed(bets: seq<Bet>): real
  {
    if bets == [] then 0.0
    else
      var b := bets[|bets| - 1];
      Committed(bets[..|bets| - 1]) + (if b.kind == "pass_line_flat" || b.kind == "come_flat" then b.amount else 0.0)
  }

  /** Only flat bets count towards what is committed. */
  lemma {:induction false} CommittedFlatOnly(bets: seq<Bet>)
    requires forall k | 0 <= k < |bets| :: bets[k].kind != "pass_line_flat" && bets[k].kind != "come_flat"
    ensures Committed(bets) == 0.0
  {
    if bets != [] {
      CommittedFlatOnly(bets[..|bets| - 1]);
    }
  }

  /** The labels' amounts added up, when every label has one. */
  function SumAmounts(betAmount: string -> Option<real>, action: seq<string>): real
    requires forall l | l in action :: betAmount(l).Some?
  {
    if action == [] then 0.0
    else SumAmounts(betAmount, action[..|action| - 1]) + betAmount(action[|action| - 1]).value
  }

  /** `total_wager(action)`: the amounts of its labels plus what is already
      committed on flat bets; None for the TypeError when a label has no
      amount. */
  function TotalWager(betAmount: string -> Option<real>, action: seq<string>, committed: real): Option<real>
  {
    if action == [] then Some(committed)
    else
      match TotalWager(betAmount, action[..|action| - 1], committed)
      case None => None
      case Some(w) =>
        var a := betAmount(action[|action| - 1]);
        if a.None? then None else Some(w + a.value)
  }

  /** The wager is defined exactly when every label has an amount, and is then
      the committed amount plus the labels' amounts. */
  lemma {:induction false} TotalWagerSpec(betAmount: string -> Option<real>, action: seq<string>, committed: real)
    ensures TotalWager(betAmount, action, committed).Some? <==> forall l | l in action :: betAmount(l).Some?
    ensures TotalWager(betAmount, action, committed).Some? ==>
      TotalWager(betAmount, action, committed).value == committed + SumAmounts(betAmount, action)
  {
    if action != [] {
      var init := action[..|action| - 1];
      var last := action[|action| - 1];
      TotalWagerSpec(betAmount, init, committed);
      assert action == init + [last];
      assert forall l | l in init :: l in action;
    }
  }

  /** `min(best, key=...)`: the position of the first action with the
      smallest key, or TypeError once a key cannot be computed. */
  function MinIndex(best: seq<seq<string>>, key: seq<string> -> Option<real>): (r: Result<nat>)
    requires best != []
    ensures r.Ok? ==> r.value < |best| && key(best[r.value]).Some?
  {
    if |best| == 1 then
      if key(best[0]).None? then Err(TypeError) else Ok(0)
    else
      match MinIndex(best[..|best| - 1], key)
      case Err(e) => Err(e)
      case Ok(i) =>
        var k := key(best[|best| - 1]);
        if k.None? then Err(TypeError)
        else if k.value < key(best[i]).value then Ok(|best| - 1)
        else Ok(i)
  }

  /** `min` fails exactly when some key fails; otherwise it picks the first
      action whose key is no larger than any other. */
  lemma {:induction false} MinIndexSpec(best: seq<seq<string>>, key: seq<string> -> Option<real>)
    requires best != []
    ensures MinIndex(best, key).Err? <==> exists c :: c in best && key(c).None?
    ensures MinIndex(best, key).Err? ==> MinIndex(best, key).error == TypeError
    ensures MinIndex(best, key).Ok? ==> var i := MinIndex(best, key).value;
      && i < |best| && key(best[i]).Some?
      && (forall j | 0 <= j < |best| :: key(best[i]).value <= key(best[j]).value)
      && (forall j | 0 <= j < i :: key(best[i]).value < key(best[j]).value)
  {
    if |best| > 1 {
      var init := best[..|best| - 1];
      MinIndexSpec(init, key);
      assert best == init + [best[|best| - 1]];
      if MinIndex(init, key).Ok? {
        var i := MinIndex(init, key).value;
        assert best[i] == init[i];
        forall j | 0 <= j < |init| ensures init[j] == best[j] { }
      }
    }
  }

  /** The actions of largest expected value, in their order among the legal
      ones: what the arg-max loop leaves in `best_actions`. */
  function Best(legal: seq<seq<string>>, ev: seq<string> -> real): (best: seq<seq<string>>)
    requires legal != []
    ensures best != []
    ensures forall c :: c in best <==> IsBest(legal, ev, c)
  {
    BestMembers(legal, ev);
    BestActions(legal, ev).1
  }

  lemma BestMembers(legal: seq<seq<string>>, ev: seq<string> -> real)
    requires legal != []
    ensures BestActions(legal, ev).1 != []
    ensures forall c :: c in BestActions(legal, ev).1 <==> IsBest(legal, ev, c)
  {
    BestActionsSpec(legal, ev);
    var m := BestActions(legal, ev).0.value;
    var c0 :| c0 in legal && ev(c0) == m;
    FilterMembers(legal, ValueIs(ev, m), c0);
    forall c ensures c in BestActions(legal, ev).1 <==> IsBest(legal, ev, c) {
      FilterMembers(legal, ValueIs(ev, m), c);
    }
  }

  /** `choose_action` of the classical agent over its legal actions: None when
      there are none or none is affordable; otherwise, among all legal
      actions (affordable or not), those of largest expected value, and of
      those the first with the smallest total wager. */
  function ClassicalChoose(legal: seq<seq<string>>, canAfford: seq<string> -> bool,
                           ev: seq<string> -> real, key: seq<string> -> Option<real>): Result<Option<seq<string>>>
  {
    if legal == [] then Ok(None)
    else if Filter(legal, canAfford) == [] then Ok(None)
    else
      var best := Best(legal, ev);
      match MinIndex(best, key)
      case Err(e) => Err(e)
      case Ok(i) => Ok(Some(best[i]))
  }

  /** `c` is a legal action no other legal action beats on expected value. */
  predicate IsBest(legal: seq<seq<string>>, ev: seq<string> -> real, c: seq<string>)
  {
    c in legal && forall c' | c' in legal :: ev(c') <= ev(c)
  }

  /** The classical choice is None exactly when there is no legal action or
      none is affordable. */
  lemma ClassicalChooseNone(legal: seq<seq<string>>, canAfford: seq<string> -> bool,
                            ev: seq<string> -> real, key: seq<string> -> Option<real>)
    ensures ClassicalChoose(legal, canAfford, ev, key) == Ok(None)
      <==> legal == [] || forall c | c in legal :: !canAfford(c)
  {
    forall c ensures c in Filter(legal, canAfford) <==> c in legal && canAfford(c) {
      FilterMembers(legal, canAfford, c);
    }
    if Filter(legal, canAfford) != [] {
      assert Filter(legal, canAfford)[0] in Filter(legal, canAfford);
    }
  }

  /** A chosen action is a legal action of largest expected value whose total
      wager no other such action undercuts. */
  lemma ClassicalChooseBest(legal: seq<seq<string>>, canAfford: seq<string> -> bool,
                            ev: seq<string> -> real, key: seq<string> -> Option<real>)
    requires ClassicalChoose(legal, canAfford, ev, key).Ok?
    requires ClassicalChoose(legal, canAfford, ev, key).value.Some?
    ensures var c := ClassicalChoose(legal, canAfford, ev, key).value.value;
      && IsBest(legal, ev, c)
      && key(c).Some?
      && forall c' | IsBest(legal, ev, c') :: key(c').Some? && key(c).value <= key(c').value
  {
    var best := Best(legal, ev);
    MinIndexSpec(best, key);
    var i := MinIndex(best, key).value;
    assert best[i] in best;
    forall c' | IsBest(legal, ev, c')
      ensures key(c').Some? && key(best[i]).value <= key(c').value
    {
      assert c' in best;
      var j :| 0 <= j < |best| && best[j] == c';
    }
  }

  /** The choice fails only with the TypeError of a best action whose total
      wager cannot be summed. */
  lemma ClassicalChooseError(legal: seq<seq<string>>, canAfford: seq<string> -> bool,
                             ev: seq<string> -> real, key: seq<string> -> Option<real>)
    requires ClassicalChoose(legal, canAfford, ev, key).Err?
    ensures ClassicalChoose(legal, canAfford, ev, key).error == TypeError
    ensures exists c :: IsBest(legal, ev, c) && key(c).None?
  {
    var best := Best(legal, ev);
    MinIndexSpec(best, key);
    var c :| c in best && key(c).None?;
    assert IsBest(legal, ev, c);
  }

  /** The arg-max runs over every legal action, not only the affordable ones:
      with one affordable action worth 0 and one unaffordable action worth 1,
      the unaffordable one is chosen. */
  lemma ChoiceIgnoresAffordability()
    ensures ClassicalChoose([["a"], ["b"]], c => c == ["a"], c => if c == ["b"] then 1.0 else 0.0, c => Some(0.0))
      == Ok(Some(["b"]))
  {
    var legal := [["a"], ["b"]];
    var canAfford := (c: seq<string>) => c == ["a"];
    var ev := (c: seq<string>) => if c == ["b"] then 1.0 else 0.0;
    assert legal[..1] == [["a"]];
    assert legal[0] in Filter(legal, canAfford) by {
      FilterMembers(legal, canAfford, legal[0]);
    }
    assert BestActions(legal[..1], ev) == (Some(0.0), [["a"]]) by {
      assert legal[..1][..0] == [];
    }
  }

  /** The arg-max loop of `choose_action`, then `min` over the best actions. */
  method ChooseClassical(legal: seq<seq<string>>, canAfford: seq<string> -> bool,
                         ev: seq<string> -> real, key: seq<string> -> Option<real>) returns (r: Result<Option<seq<string>>>)
    ensures r == ClassicalChoose(legal, canAfford, ev, key)
  {
    if legal == [] {
      return Ok(None);
    }
    if Filter(legal, canAfford) == [] {
      return Ok(None);
    }
    var maxEv: Option<real> := None;
    var best: seq<seq<string>> := [];
    var i := 0;
    while i < |legal|
      invariant 0 <= i <= |legal|
      invariant (maxEv, best) == BestActions(legal[..i], ev)
    {
      assert legal[..i + 1][..i] == legal[..i];
      var value := ev(legal[i]);
      if maxEv.None? || value > maxEv.value {
        maxEv := Some(value);
        best := [legal[i]];
      } else if value == maxEv.value {
        best := best + [legal[i]];
      }
      i := i + 1;
    }
    assert legal[..i] == legal;
    BestMembers(legal, ev);
    var m := MinIndex(best, key);
    r := if m.Err? then Err(m.error) else Ok(Some(best[m.value]));
  }
}
