/** The simulator's game engine: one game of craps played by an agent. The
    dice are an input, the sequence of sums they show; a game reads them
    from the front. The random agent's picks are not a function of its state,
    so a game is specified for the sequence of answers `choose_action` gave,
    each of which must be one the agent may give. */
module SimulatorEngine {
  import opened Wrappers
  import opened Seqs
  import opened Bets
  import opened Probabilities
  import opened Agents
  import QBistAgent

  /** The sum two dice show. */
  type Roll = r: int | 2 <= r <= 12 witness 7

  predicate Natural(roll: int) { roll == 7 || roll == 11 }

  predicate CrapsRoll(roll: int) { roll == 2 || roll == 3 || roll == 12 }

  predicate PointNumber(roll: int) { roll in {4, 5, 6, 8, 9, 10} }

  // ---------------------------------------------------------------------
  // payout_pass_line_odds and payout_come_odds (the same table)
  // ---------------------------------------------------------------------

  /** `odds_table.get(point, 0)` */
  function OddsRatio(point: int): real
  {
    if point == 4 || point == 10 then 2.0
    else if point == 5 || point == 9 then 1.5
    else if point == 6 || point == 8 then 1.2
    else 0.0
  }

  /** `amount * odds_table.get(point, 0)` */
  function OddsPayout(amount: real, point: int): real
  {
    amount * OddsRatio(point)
  }

  /** The table pays true odds: for each point, the ratio times the chance
      of rolling the point before a 7 equals the chance of the 7 first, so
      an odds bet is worth nothing on average; any other number pays
      nothing. */
  lemma OddsPayTrueOdds(point: int)
    ensures point in OddsP() ==> OddsRatio(point) * OddsP()[point] == 1.0 - OddsP()[point]
    ensures OddsRatio(point) > 0.0 <==> point in OddsP()
    ensures OddsRatio(point) >= 0.0
  {
    OddsWinProbabilities(point);
  }

  // ---------------------------------------------------------------------
  // The come-out round
  // ---------------------------------------------------------------------

  /** How the come-out round ends: a point, craps, or the dice ran out. */
  datatype ComeOutEnd = PointSet(point: int) | Craps | NoMoreDice

  /** The number of naturals the pass line won, the end, and the dice used. */
  datatype ComeOut = ComeOut(wins: nat, end: ComeOutEnd, used: nat)

  /** The come-out round from die i on, after i naturals. */
  function ComeOutFrom(dice: seq<Roll>, i: nat): (c: ComeOut)
    requires i <= |dice|
    ensures i <= c.wins <= c.used <= |dice|
    decreases |dice| - i
  {
    if i == |dice| then ComeOut(i, NoMoreDice, i)
    else if Natural(dice[i]) then ComeOutFrom(dice, i + 1)
    else if CrapsRoll(dice[i]) then ComeOut(i, Craps, i + 1)
    else ComeOut(i, PointSet(dice[i]), i + 1)
  }

  function ComeOutRound(dice: seq<Roll>): ComeOut
  {
    ComeOutFrom(dice, 0)
  }

  /** The come-out round reads naturals until the first other roll: craps
      ends the game, a point number becomes the point. */
  lemma ComeOutSpec(dice: seq<Roll>)
    ensures var c := ComeOutRound(dice);
      && (forall k | 0 <= k < c.wins :: Natural(dice[k]))
      && (c.end.NoMoreDice? <==> c.wins == |dice|)
      && (c.end.NoMoreDice? ==> c.used == |dice|)
      && (!c.end.NoMoreDice? ==> c.used == c.wins + 1 && !Natural(dice[c.wins]))
      && (c.end.Craps? <==> c.wins < |dice| && CrapsRoll(dice[c.wins]))
      && (c.end.PointSet? ==> c.end.point == dice[c.wins] && PointNumber(c.end.point))
  {
    ComeOutFromSpec(dice, 0);
  }

  lemma {:induction false} ComeOutFromSpec(dice: seq<Roll>, i: nat)
    requires i <= |dice|
    requires forall k | 0 <= k < i :: Natural(dice[k])
    ensures var c := ComeOutFrom(dice, i);
      && (forall k | 0 <= k < c.wins :: Natural(dice[k]))
      && (c.end.NoMoreDice? <==> c.wins == |dice|)
      && (c.end.NoMoreDice? ==> c.used == |dice|)
      && (!c.end.NoMoreDice? ==> c.used == c.wins + 1 && !Natural(dice[c.wins]))
      && (c.end.Craps? <==> c.wins < |dice| && CrapsRoll(dice[c.wins]))
      && (c.end.PointSet? ==> c.end.point == dice[c.wins] && PointNumber(c.end.point))
    decreases |dice| - i
  {
    if i < |dice| && Natural(dice[i]) {
      ComeOutFromSpec(dice, i + 1);
    }
  }

  /** The bankroll after k pass-line wins of the table minimum. */
  function Won(bankroll: real, tableMin: real, k: nat): real
  {
    bankroll + k as real * tableMin
  }

  /** The agent after the come-out round: paid for each natural, and holding
      the point if one was set. */
  function AfterComeOut(s: AgentState, c: ComeOut): AgentState
  {
    var paid := s.(bankroll := Won(s.bankroll, s.tableMin, c.wins));
    if c.end.PointSet? then paid.(pointEstablished := true, currentPoint := Some(c.end.point)) else paid
  }

  // ---------------------------------------------------------------------
  // Settling a roll of the point round
  // ---------------------------------------------------------------------

  /** `value(b)` added up over the bets in order. */
  function SumOver(bets: seq<Bet>, value: Bet -> real): real
  {
    if bets == [] then 0.0 else SumOver(bets[..|bets| - 1], value) + value(bets[|bets| - 1])
  }

  lemma {:induction false} SumOverNonNegative(bets: seq<Bet>, value: Bet -> real)
    requires forall k | 0 <= k < |bets| :: value(bets[k]) >= 0.0
    ensures SumOver(bets, value) >= 0.0
  {
    if bets != [] {
      SumOverNonNegative(bets[..|bets| - 1], value);
    }
  }

  lemma SumOverStep(bets: seq<Bet>, value: Bet -> real, k: nat)
    requires k < |bets|
    ensures SumOver(bets[..k + 1], value) == SumOver(bets[..k], value) + value(bets[k])
  {
    assert bets[..k + 1][..k] == bets[..k];
  }

  /** What a bet typed `pass_line_odds` adds when the point is made. */
  function PassOddsWin(point: int): Bet -> real
  {
    (b: Bet) => if b.kind == "pass_line_odds" then OddsPayout(b.amount, point) else 0.0
  }

  /** `roll == agent.current_point`: the flat bet is paid 1:1 and each bet
      typed `pass_line_odds` at the point's odds; all bets stay. */
  function PointHit(s: AgentState, roll: Roll): AgentState
  {
    if s.currentPoint == Some(roll) then s.(bankroll := s.bankroll + s.tableMin + SumOver(s.bets, PassOddsWin(roll)))
    else s
  }

  /** What a come bet on the rolled number adds: 1:1 for the flat part, the
      odds for the odds part. */
  function ComeWin(roll: Roll): Bet -> real
  {
    (b: Bet) =>
      if b.kind == "come_flat" && b.point == Some(roll) then b.amount
      else if b.kind == "come_odds" && b.point == Some(roll) then OddsPayout(b.amount, roll)
      else 0.0
  }

  /** `roll in agent.active_come_points`: the come bets on it are paid and
      stay. */
  function ComeHits(s: AgentState, roll: Roll): AgentState
  {
    if roll in s.activeComePoints then s.(bankroll := s.bankroll + SumOver(s.bets, ComeWin(roll))) else s
  }

  /** What a pending come bet adds on this roll: its amount on a natural. */
  function NaturalPay(roll: Roll): Bet -> real
  {
    (b: Bet) => if PendingCome(b) && Natural(roll) then b.amount else 0.0
  }

  predicate HasPending(bets: seq<Bet>)
  {
    exists b | b in bets :: PendingCome(b)
  }

  /** What becomes of one bet: a pending come bet leaves the table on a
      natural or craps and takes the roll as its point otherwise; any other
      bet stays as it is. */
  function MoveOne(b: Bet, roll: Roll): seq<Bet>
  {
    if !PendingCome(b) then [b]
    else if Natural(roll) || CrapsRoll(roll) then []
    else [b.(point := Some(roll))]
  }

  /** The bets after the pending come bets moved, in order. */
  function Moved(bets: seq<Bet>, roll: Roll): seq<Bet>
  {
    if bets == [] then [] else Moved(bets[..|bets| - 1], roll) + MoveOne(bets[|bets| - 1], roll)
  }

  /** The come points the pending bets travel to. */
  function Traveled(bets: seq<Bet>, roll: Roll): set<int>
  {
    if bets == [] then {}
    else Traveled(bets[..|bets| - 1], roll) + (if PendingCome(bets[|bets| - 1]) && !Natural(roll) && !CrapsRoll(roll) then {roll} else {})
  }

  lemma MovedStep(bets: seq<Bet>, roll: Roll, k: nat)
    requires k < |bets|
    ensures Moved(bets[..k + 1], roll) == Moved(bets[..k], roll) + MoveOne(bets[k], roll)
    ensures Traveled(bets[..k + 1], roll) ==
      Traveled(bets[..k], roll) + (if PendingCome(bets[k]) && !Natural(roll) && !CrapsRoll(roll) then {roll} else {})
  {
    assert bets[..k + 1][..k] == bets[..k];
  }

  /** On a natural or craps the pending come bets leave and the others
      stay. */
  lemma {:induction false} MovedDrops(bets: seq<Bet>, roll: Roll, b: Bet)
    requires Natural(roll) || CrapsRoll(roll)
    ensures b in Moved(bets, roll) <==> b in bets && !PendingCome(b)
  {
    if bets != [] {
      MovedDrops(bets[..|bets| - 1], roll, b);
      assert bets == bets[..|bets| - 1] + [bets[|bets| - 1]];
    }
  }

  /** On any other number the bets keep their places and each pending one
      takes the roll as its point. */
  lemma {:induction false} MovedCarries(bets: seq<Bet>, roll: Roll)
    requires !Natural(roll) && !CrapsRoll(roll)
    ensures |Moved(bets, roll)| == |bets|
    ensures forall k | 0 <= k < |bets| :: Moved(bets, roll)[k] == if PendingCome(bets[k]) then bets[k].(point := Some(roll)) else bets[k]
  {
    if bets != [] {
      var init := bets[..|bets| - 1];
      MovedCarries(init, roll);
      forall k | 0 <= k < |bets|
        ensures Moved(bets, roll)[k] == if PendingCome(bets[k]) then bets[k].(point := Some(roll)) else bets[k]
      {
        if k < |init| {
          assert bets[k] == init[k];
        }
      }
    }
  }

  /** The roll becomes a come point exactly when it is a point number and
      some bet was pending. */
  lemma {:induction false} TraveledSpec(bets: seq<Bet>, roll: Roll)
    ensures Traveled(bets, roll) == if !Natural(roll) && !CrapsRoll(roll) && HasPending(bets) then {roll} else {}
  {
    if bets != [] {
      var init := bets[..|bets| - 1];
      TraveledSpec(init, roll);
      if HasPending(bets) && !PendingCome(bets[|bets| - 1]) {
        var b :| b in bets && PendingCome(b);
        assert bets == init + [bets[|bets| - 1]];
        assert b in init;
      }
    }
  }

  /** No bet is left pending. */
  lemma {:induction false} MovedSettles(bets: seq<Bet>, roll: Roll, b: Bet)
    requires b in Moved(bets, roll)
    ensures !PendingCome(b)
  {
    if bets != [] && b in Moved(bets[..|bets| - 1], roll) {
      MovedSettles(bets[..|bets| - 1], roll, b);
    }
  }

  lemma {:induction false} SumOverZero(bets: seq<Bet>, value: Bet -> real)
    requires forall k | 0 <= k < |bets| :: value(bets[k]) == 0.0
    ensures SumOver(bets, value) == 0.0
  {
    if bets != [] {
      SumOverZero(bets[..|bets| - 1], value);
    }
  }

  /** The pending come bets on this roll: a natural pays them 1:1 and takes
      them down, craps takes them down, any other number becomes their
      point and an active come point. */
  function MoveComeBets(s: AgentState, roll: Roll): AgentState
  {
    s.(bankroll := s.bankroll + SumOver(s.bets, NaturalPay(roll)),
       bets := Moved(s.bets, roll),
       activeComePoints := s.activeComePoints + Traveled(s.bets, roll))
  }

  /** After any roll no come bet is left without a point; the bets that were
      not pending stay, in order, and each pending one either leaves the
      table or travels to the roll; a traveling bet makes the roll an active
      come point; only a natural pays. */
  lemma MoveComeBetsSpec(s: AgentState, roll: Roll)
    ensures var t := MoveComeBets(s, roll);
      && (forall b | b in t.bets :: !PendingCome(b))
      && (Natural(roll) || CrapsRoll(roll) ==> forall b :: b in t.bets <==> b in s.bets && !PendingCome(b))
      && (!Natural(roll) && !CrapsRoll(roll) ==>
            |t.bets| == |s.bets|
            && (forall k | 0 <= k < |s.bets| :: t.bets[k] == if PendingCome(s.bets[k]) then s.bets[k].(point := Some(roll)) else s.bets[k])
            && t.activeComePoints == s.activeComePoints + (if HasPending(s.bets) then {roll} else {}))
      && (Natural(roll) || CrapsRoll(roll) ==> t.activeComePoints == s.activeComePoints)
      && (!Natural(roll) ==> t.bankroll == s.bankroll)
      && t.tableMin == s.tableMin && t.currentPoint == s.currentPoint
  {
    if Natural(roll) || CrapsRoll(roll) {
      forall b ensures b in Moved(s.bets, roll) <==> b in s.bets && !PendingCome(b) {
        MovedDrops(s.bets, roll, b);
      }
    } else {
      MovedCarries(s.bets, roll);
    }
    TraveledSpec(s.bets, roll);
    forall b | b in Moved(s.bets, roll) ensures !PendingCome(b) {
      MovedSettles(s.bets, roll, b);
    }
    if !Natural(roll) {
      SumOverZero(s.bets, NaturalPay(roll));
    }
  }

  /** Everything that happens on a roll other than 7, in the engine's order. */
  function Settle(s: AgentState, roll: Roll): AgentState
  {
    MoveComeBets(ComeHits(PointHit(s, roll), roll), roll)
  }

  /** With no negative amounts and a non-negative table minimum, a roll
      other than 7 never takes money from the bankroll; making the point
      pays at least the table minimum; and no come bet is left pending. */
  lemma SettleSpec(s: AgentState, roll: Roll)
    requires s.tableMin >= 0.0 && forall k | 0 <= k < |s.bets| :: s.bets[k].amount >= 0.0
    ensures Settle(s, roll).bankroll >= s.bankroll
    ensures s.currentPoint == Some(roll) ==> Settle(s, roll).bankroll >= s.bankroll + s.tableMin
    ensures forall b | b in Settle(s, roll).bets :: !PendingCome(b)
  {
    OddsPayTrueOdds(roll);
    var p := PointHit(s, roll);
    SumOverNonNegative(s.bets, PassOddsWin(roll));
    var h := ComeHits(p, roll);
    SumOverNonNegative(p.bets, ComeWin(roll));
    SumOverNonNegative(h.bets, NaturalPay(roll));
    MoveComeBetsSpec(h, roll);
  }

  // ---------------------------------------------------------------------
  // A turn of the point round
  // ---------------------------------------------------------------------

  /** What `choose_action` answered: an action, nothing, or an exception. */
  type Pick = Result<Option<seq<string>>>

  /** How `play_game` ends: it returns the bankroll, an exception passes
      through, or the given dice ran out. */
  datatype Outcome = Finished(bankroll: real) | Raised(error: Error) | OutOfDice

  /** A turn either leads to the next one or ends the game (after reading a
      die or not). */
  datatype Step = Next(state: AgentState) | Over(outcome: Outcome, state: AgentState, rolled: bool)

  /** A game: its outcome, the agent at its end, and the dice it used. */
  datatype Played = Played(outcome: Outcome, state: AgentState, used: nat)

  /** The rules of one turn, given the state, the answer of `choose_action`
      and the roll (none when the dice ran out). */
  type Rule = (AgentState, Pick, Option<Roll>) -> Option<Step>

  /** `place_bets(action)` of the agent's kind. */
  function Placing(policy: Policy, s: AgentState, action: Option<seq<string>>): AgentState
  {
    if policy.ClassicalPolicy? then ClassicalPlace(s, policy.helpers, action) else Stake(s, action)
  }

  /** One pass of the point-round loop: stop when the agent cannot go on;
      otherwise update the action space, take the agent's choice (None when
      it is not one the agent may make), place it when it is a non-empty
      action, and roll: a 7 settles the bets as a seven-out and ends the
      game, any other roll is settled and play goes on. */
  function Turn(policy: Policy, s: AgentState, pick: Pick, roll: Option<Roll>): Option<Step>
  {
    if !Continues(s) then Some(Over(Finished(s.bankroll), s, false))
    else
      match UpdateActions(policy, s, None)
      case Err(e) => Some(Over(Raised(e), s, false))
      case Ok(u) =>
        if !Chose(policy, u, pick) then None
        else if pick.Err? then Some(Over(Raised(pick.error), u, false))
        else
          var placed := if pick.value.Some? && pick.value.value != [] then Placing(policy, u, pick.value) else u;
          if roll.None? then Some(Over(OutOfDice, placed, false))
          else if roll.value == 7 then
            var t := Resolve(placed, OutcomeValue(policy, "seven_out"));
            Some(Over(Finished(t.bankroll), t, true))
          else Some(Next(Settle(placed, roll.value)))
  }

  function SimulatorRule(policy: Policy): Rule
  {
    (s: AgentState, p: Pick, r: Option<Roll>) => Turn(policy, s, p, r)
  }

  function RollAt(dice: seq<Roll>, k: nat): Option<Roll>
  {
    if k < |dice| then Some(dice[k]) else None
  }

  /** The turns that went on to a next turn, one per pick, each reading one
      die. */
  function Walk(rule: Rule, s: AgentState, dice: seq<Roll>, picks: seq<Pick>): (r: Option<AgentState>)
    ensures r.Some? ==> |picks| <= |dice|
    decreases |picks|
  {
    if picks == [] then Some(s)
    else
      var k := |picks| - 1;
      match Walk(rule, s, dice, picks[..k])
      case None => None
      case Some(m) =>
        match rule(m, picks[k], RollAt(dice, k))
        case Some(Next(t)) => if k < |dice| then Some(t) else None
        case _ => None
  }

  /** The point round: the turns that went on, then the turn that ended the
      game. */
  function PointRound(rule: Rule, s: AgentState, dice: seq<Roll>, picks: seq<Pick>, last: Pick): (r: Option<Played>)
    ensures r.Some? ==> r.value.used <= |dice|
  {
    match Walk(rule, s, dice, picks)
    case None => None
    case Some(m) =>
      var k := |picks|;
      match rule(m, last, RollAt(dice, k))
      case Some(Over(o, t, rolled)) =>
        if rolled && k >= |dice| then None else Some(Played(o, t, if rolled then k + 1 else k))
      case _ => None
  }

  /** `play_game` under a turn rule: a new game, the pass-line bet, the
      come-out round and, once a point is set, the point round. */
  function GameWith(rule: Rule, s: AgentState, dice: seq<Roll>, picks: seq<Pick>, last: Pick): (r: Option<Played>)
    ensures r.Some? ==> r.value.used <= |dice|
  {
    var c := ComeOutRound(dice);
    var t := AfterComeOut(PassLine(NewGame(s)), c);
    match c.end
    case Craps => Some(Played(Finished(t.bankroll), t, c.used))
    case NoMoreDice => Some(Played(OutOfDice, t, c.used))
    case PointSet(_) =>
      match PointRound(rule, t, dice[c.used..], picks, last)
      case None => None
      case Some(r) => Some(r.(used := c.used + r.used))
  }

  /** A game that ends in the come-out round. */
  lemma GameAtComeOut(rule: Rule, s: AgentState, dice: seq<Roll>, picks: seq<Pick>, last: Pick)
    requires !ComeOutRound(dice).end.PointSet?
    ensures var c := ComeOutRound(dice);
      var t := AfterComeOut(PassLine(NewGame(s)), c);
      GameWith(rule, s, dice, picks, last) == Some(Played(if c.end.Craps? then Finished(t.bankroll) else OutOfDice, t, c.used))
  {
  }

  /** A game that reaches the point round ends as the point round does. */
  lemma GameAtPoint(rule: Rule, s: AgentState, dice: seq<Roll>, picks: seq<Pick>, last: Pick, r: Played)
    requires ComeOutRound(dice).end.PointSet?
    requires var c := ComeOutRound(dice);
      PointRound(rule, AfterComeOut(PassLine(NewGame(s)), c), dice[c.used..], picks, last) == Some(r)
    ensures GameWith(rule, s, dice, picks, last) == Some(r.(used := ComeOutRound(dice).used + r.used))
  {
  }

  /** `play_game` of the simulator. */
  function Game(policy: Policy, s: AgentState, dice: seq<Roll>, picks: seq<Pick>, last: Pick): (r: Option<Played>)
    ensures r.Some? ==> r.value.used <= |dice|
  {
    GameWith(SimulatorRule(policy), s, dice, picks, last)
  }

  /** `rule` plays the simulator's turns for this agent kind. The methods
      below are stated against such a rule, so that the turn's definition is
      needed only where a turn is played. */
  ghost predicate SimulatorTurns(rule: Rule, policy: Policy)
  {
    forall s: AgentState, p: Pick, r: Option<Roll> {:trigger Turn(policy, s, p, r)} :: rule(s, p, r) == Turn(policy, s, p, r)
  }

  lemma SimulatorRuleTurns(policy: Policy)
    ensures SimulatorTurns(SimulatorRule(policy), policy)
  {
  }

  /** Two rules that agree on every turn. */
  ghost predicate SameTurns(rule: Rule, other: Rule)
  {
    forall s: AgentState, p: Pick, r: Option<Roll> :: rule(s, p, r) == other(s, p, r)
  }

  lemma {:induction false} WalkSameTurns(rule: Rule, other: Rule, s: AgentState, dice: seq<Roll>, picks: seq<Pick>)
    requires SameTurns(rule, other)
    ensures Walk(rule, s, dice, picks) == Walk(other, s, dice, picks)
    decreases |picks|
  {
    if picks != [] {
      WalkSameTurns(rule, other, s, dice, picks[..|picks| - 1]);
    }
  }

  /** Rules that agree on every turn play the same games. */
  lemma GameWithSameTurns(rule: Rule, other: Rule, s: AgentState, dice: seq<Roll>, picks: seq<Pick>, last: Pick)
    requires SameTurns(rule, other)
    ensures GameWith(rule, s, dice, picks, last) == GameWith(other, s, dice, picks, last)
  {
    var c := ComeOutRound(dice);
    WalkSameTurns(rule, other, AfterComeOut(PassLine(NewGame(s)), c), dice[c.used..], picks);
  }

  /** Any rule playing the simulator's turns plays its games. */
  lemma GameOf(rule: Rule, policy: Policy, s: AgentState, dice: seq<Roll>, picks: seq<Pick>, last: Pick)
    requires SimulatorTurns(rule, policy)
    ensures GameWith(rule, s, dice, picks, last) == Game(policy, s, dice, picks, last)
  {
    forall t: AgentState, p: Pick, r: Option<Roll> ensures rule(t, p, r) == SimulatorRule(policy)(t, p, r) {
      assert rule(t, p, r) == Turn(policy, t, p, r);
    }
    GameWithSameTurns(rule, SimulatorRule(policy), s, dice, picks, last);
  }

  // ---------------------------------------------------------------------
  // Properties of a game
  // ---------------------------------------------------------------------

  /** The turn's result does not depend on which valid pick was made. */
  ghost predicate ChoiceFixed(rule: Rule)
  {
    forall s: AgentState, p: Pick, q: Pick, r: Option<Roll> | rule(s, p, r).Some? && rule(s, q, r).Some? ::
      rule(s, p, r) == rule(s, q, r)
  }

  /** The classical, quantum and QBist agents choose as functions of their
      state, so their turns are fixed by the state and the roll. */
  lemma SimulatorChoiceFixed(policy: Policy)
    requires !policy.RandomPolicy?
    ensures ChoiceFixed(SimulatorRule(policy))
  {
  }

  lemma {:induction false} WalkPrefix(rule: Rule, s: AgentState, dice: seq<Roll>, picks: seq<Pick>, j: nat)
    requires Walk(rule, s, dice, picks).Some? && j <= |picks|
    ensures Walk(rule, s, dice, picks[..j]).Some?
    decreases |picks|
  {
    if j < |picks| {
      WalkPrefix(rule, s, dice, picks[..|picks| - 1], j);
      assert picks[..|picks| - 1][..j] == picks[..j];
    } else {
      assert picks[..j] == picks;
    }
  }

  lemma {:induction false} WalkSame(rule: Rule, s: AgentState, dice: seq<Roll>, p: seq<Pick>, q: seq<Pick>)
    requires ChoiceFixed(rule)
    requires |p| == |q| && Walk(rule, s, dice, p).Some? && Walk(rule, s, dice, q).Some?
    ensures Walk(rule, s, dice, p) == Walk(rule, s, dice, q)
    decreases |p|
  {
    if p != [] {
      var k := |p| - 1;
      WalkSame(rule, s, dice, p[..k], q[..k]);
      var m := Walk(rule, s, dice, p[..k]).value;
      assert rule(m, p[k], RollAt(dice, k)).Some? && rule(m, q[k], RollAt(dice, k)).Some?;
    }
  }

  /** A shorter walk cannot also end the game where a longer one went on. */
  lemma PointRoundLength(rule: Rule, s: AgentState, dice: seq<Roll>, p: seq<Pick>, lp: Pick, q: seq<Pick>, lq: Pick)
    requires ChoiceFixed(rule)
    requires PointRound(rule, s, dice, p, lp).Some? && PointRound(rule, s, dice, q, lq).Some?
    requires |p| <= |q|
    ensures |p| == |q|
  {
    if |p| < |q| {
      var k := |p|;
      WalkPrefix(rule, s, dice, q, k + 1);
      WalkPrefix(rule, s, dice, q, k);
      var qk := q[..k + 1];
      assert qk[..k] == q[..k];
      WalkSame(rule, s, dice, p, q[..k]);
      assert false;
    }
  }

  /** Under a rule whose turns do not depend on the valid pick, two point
      rounds from the same state and dice end the same way. */
  lemma PointRoundDeterministic(rule: Rule, s: AgentState, dice: seq<Roll>, p: seq<Pick>, lp: Pick, q: seq<Pick>, lq: Pick)
    requires ChoiceFixed(rule)
    requires PointRound(rule, s, dice, p, lp).Some? && PointRound(rule, s, dice, q, lq).Some?
    ensures PointRound(rule, s, dice, p, lp) == PointRound(rule, s, dice, q, lq)
  {
    if |p| <= |q| {
      PointRoundLength(rule, s, dice, p, lp, q, lq);
    } else {
      PointRoundLength(rule, s, dice, q, lq, p, lp);
    }
    WalkSame(rule, s, dice, p, q);
  }

  lemma GameWithDeterministic(rule: Rule, s: AgentState, dice: seq<Roll>, p: seq<Pick>, lp: Pick, q: seq<Pick>, lq: Pick)
    requires ChoiceFixed(rule)
    requires GameWith(rule, s, dice, p, lp).Some? && GameWith(rule, s, dice, q, lq).Some?
    ensures GameWith(rule, s, dice, p, lp) == GameWith(rule, s, dice, q, lq)
  {
    var c := ComeOutRound(dice);
    if c.end.PointSet? {
      PointRoundDeterministic(rule, AfterComeOut(PassLine(NewGame(s)), c), dice[c.used..], p, lp, q, lq);
    }
  }

  /** Given the dice, the classical, quantum and QBist agents play one game
      only: any two runs of `play_game` end the same way, with the same
      state, having used the same dice. */
  lemma GameDeterministic(policy: Policy, s: AgentState, dice: seq<Roll>, p: seq<Pick>, lp: Pick, q: seq<Pick>, lq: Pick)
    requires !policy.RandomPolicy?
    requires Game(policy, s, dice, p, lp).Some? && Game(policy, s, dice, q, lq).Some?
    ensures Game(policy, s, dice, p, lp) == Game(policy, s, dice, q, lq)
  {
    SimulatorChoiceFixed(policy);
    GameWithDeterministic(SimulatorRule(policy), s, dice, p, lp, q, lq);
  }

  /** How a turn of the simulator ends the game: `Finished` when the agent
      cannot go on (no die read) or after a seven-out (a 7 read), with the
      bankroll returned; `OutOfDice` only without a roll. */
  lemma TurnEnds(policy: Policy, s: AgentState, pick: Pick, roll: Option<Roll>)
    requires Turn(policy, s, pick, roll).Some? && Turn(policy, s, pick, roll).value.Over?
    ensures var st := Turn(policy, s, pick, roll).value;
      && (st.outcome.Finished? ==> st.outcome.bankroll == st.state.bankroll && (if st.rolled then roll == Some(7) else !Continues(st.state)))
      && (st.outcome.OutOfDice? ==> roll.None?)
      && (st.rolled ==> roll == Some(7))
  {
  }

  /** The way the simulator's turns end a game: `Finished` with the
      bankroll, after a 7 when a die was read and otherwise because the agent
      cannot go on; `OutOfDice` only without a roll. */
  ghost predicate EndsAsSimulator(rule: Rule)
  {
    forall s: AgentState, p: Pick, r: Option<Roll> | rule(s, p, r).Some? && rule(s, p, r).value.Over? ::
      var st := rule(s, p, r).value;
      && (st.outcome.Finished? ==> st.outcome.bankroll == st.state.bankroll && (if st.rolled then r == Some(7) else !Continues(st.state)))
      && (st.outcome.OutOfDice? ==> r.None?)
      && (st.rolled ==> r == Some(7))
  }

  lemma GameWithEnds(rule: Rule, s: AgentState, dice: seq<Roll>, picks: seq<Pick>, last: Pick)
    requires EndsAsSimulator(rule)
    requires GameWith(rule, s, dice, picks, last).Some?
    ensures var r := GameWith(rule, s, dice, picks, last).value;
      && (r.outcome.Finished? ==>
            r.outcome.bankroll == r.state.bankroll
            && (!Continues(r.state) || (0 < r.used && (dice[r.used - 1] == 7 || CrapsRoll(dice[r.used - 1])))))
      && (r.outcome.OutOfDice? ==> r.used == |dice|)
  {
    var c := ComeOutRound(dice);
    ComeOutSpec(dice);
    if c.end.PointSet? {
      var t := AfterComeOut(PassLine(NewGame(s)), c);
      var rest := dice[c.used..];
      var m := Walk(rule, t, rest, picks).value;
      var k := |picks|;
      assert rule(m, last, RollAt(rest, k)).Some?;
      var r := GameWith(rule, s, dice, picks, last).value;
      if r.outcome.Finished? && Continues(r.state) {
        assert rest[k] == dice[c.used + k];
      }
    }
  }

  /** A game ends only on a come-out craps, a seven-out, or when the bankroll
      no longer covers the table minimum, and it returns the bankroll; it
      runs out of dice only when it has used all of them. */
  lemma GameEnds(policy: Policy, s: AgentState, dice: seq<Roll>, picks: seq<Pick>, last: Pick)
    requires Game(policy, s, dice, picks, last).Some?
    ensures var r := Game(policy, s, dice, picks, last).value;
      && (r.outcome.Finished? ==>
            r.outcome.bankroll == r.state.bankroll
            && (!Continues(r.state) || (0 < r.used && (dice[r.used - 1] == 7 || CrapsRoll(dice[r.used - 1])))))
      && (r.outcome.OutOfDice? ==> r.used == |dice|)
  {
    forall t: AgentState, p: Pick, r: Option<Roll> | SimulatorRule(policy)(t, p, r).Some? && SimulatorRule(policy)(t, p, r).value.Over?
      ensures var st := SimulatorRule(policy)(t, p, r).value;
        && (st.outcome.Finished? ==> st.outcome.bankroll == st.state.bankroll && (if st.rolled then r == Some(7) else !Continues(st.state)))
        && (st.outcome.OutOfDice? ==> r.None?)
        && (st.rolled ==> r == Some(7))
    {
      TurnEnds(policy, t, p, r);
    }
    GameWithEnds(SimulatorRule(policy), s, dice, picks, last);
  }

  // ---------------------------------------------------------------------
  // The bankroll invariant
  // ---------------------------------------------------------------------

  /** The agent's money is in order: neither the table minimum nor the
      bankroll is negative, and every bet on the table is at least the
      minimum. */
  predicate Solvent(s: AgentState)
  {
    s.tableMin >= 0.0 && s.bankroll >= 0.0 && forall b | b in s.bets :: b.amount >= s.tableMin
  }

  /** A new game, its pass-line bet of the minimum and the naturals of the
      come-out round keep the money in order. */
  lemma ComeOutSolvent(s: AgentState, c: ComeOut)
    requires Solvent(s)
    ensures Solvent(AfterComeOut(PassLine(NewGame(s)), c))
  {
    PassLineSpec(NewGame(s));
    assert c.wins as real * s.tableMin >= 0.0;
  }

  /** Placing an action, by either kind of staking, adds only bets of at
      least the minimum and never overdraws. */
  lemma PlacingSolvent(policy: Policy, s: AgentState, action: Option<seq<string>>)
    requires Solvent(s)
    ensures Solvent(Placing(policy, s, action))
  {
    if policy.ClassicalPolicy? {
      var h := policy.helpers;
      ClassicalPlaceSpec(s, h, action);
      if !(action.None? || action.value == [] || !h.canAfford(action.value)) {
        ClassicalStakesFromLabels(h, s.tableMin, s.bankroll, action.value);
      }
    } else if action.Some? {
      StakeSpec(s, action.value);
      var t := Stake(s, action);
      forall b | b in t.bets ensures b.amount >= s.tableMin {
        var i :| 0 <= i < |t.bets| && t.bets[i] == b;
        if i < |s.bets| {
          assert t.bets[..|s.bets|][i] == b;
        } else {
          assert t.bets[|s.bets| + (i - |s.bets|)] == b;
        }
      }
    }
  }

  /** Resolving the bets keeps only bets that were on the table and takes no
      money from the bankroll. */
  lemma ResolveSolvent(s: AgentState, value: Bet -> real)
    requires Solvent(s)
    ensures Solvent(Resolve(s, value))
  {
    assert forall k | 0 <= k < |s.bets| :: s.bets[k] in s.bets;
    ResolveSpec(s, value);
  }

  /** Moving the come bets changes no amount, so a floor under the amounts
      stays under them. */
  lemma {:induction false} MovedKeepsAmounts(bets: seq<Bet>, roll: Roll, floor: real)
    requires forall b | b in bets :: b.amount >= floor
    ensures forall b | b in Moved(bets, roll) :: b.amount >= floor
    decreases |bets|
  {
    if bets != [] {
      var init := bets[..|bets| - 1];
      assert forall k | 0 <= k < |init| :: init[k] == bets[k];
      MovedKeepsAmounts(init, roll, floor);
      assert bets[|bets| - 1] in bets;
    }
  }

  /** Settling a roll other than 7 keeps the money in order. */
  lemma SettleSolvent(s: AgentState, roll: Roll)
    requires Solvent(s)
    ensures Solvent(Settle(s, roll))
  {
    assert forall k | 0 <= k < |s.bets| :: s.bets[k] in s.bets;
    SettleSpec(s, roll);
    MovedKeepsAmounts(s.bets, roll, s.tableMin);
  }

  /** A turn of the simulator keeps the money in order, and a game it ends as
      finished returns the agent's bankroll. */
  lemma TurnSolvent(policy: Policy, s: AgentState, pick: Pick, roll: Option<Roll>)
    requires Solvent(s)
    requires Turn(policy, s, pick, roll).Some?
    ensures var st := Turn(policy, s, pick, roll).value;
      Solvent(st.state) && (st.Over? && st.outcome.Finished? ==> st.outcome.bankroll == st.state.bankroll)
  {
    if Continues(s) && UpdateActions(policy, s, None).Ok? {
      var u := UpdateActions(policy, s, None).value;
      if Chose(policy, u, pick) && pick.Ok? {
        var placed := if pick.value.Some? && pick.value.value != [] then Placing(policy, u, pick.value) else u;
        PlacingSolvent(policy, u, pick.value);
        if roll.Some? {
          if roll.value == 7 {
            ResolveSolvent(placed, OutcomeValue(policy, "seven_out"));
          } else {
            SettleSolvent(placed, roll.value);
          }
        }
      }
    }
  }

  /** `rule`'s turns keep the money in order, and a game they end as
      finished returns the agent's bankroll. */
  ghost predicate KeepsSolvent(rule: Rule)
  {
    forall s: AgentState, p: Pick, r: Option<Roll> | Solvent(s) && rule(s, p, r).Some? ::
      var st := rule(s, p, r).value;
      Solvent(st.state) && (st.Over? && st.outcome.Finished? ==> st.outcome.bankroll == st.state.bankroll)
  }

  lemma SimulatorKeepsSolvent(policy: Policy)
    ensures KeepsSolvent(SimulatorRule(policy))
  {
    forall s: AgentState, p: Pick, r: Option<Roll> | Solvent(s) && SimulatorRule(policy)(s, p, r).Some?
      ensures var st := SimulatorRule(policy)(s, p, r).value;
        Solvent(st.state) && (st.Over? && st.outcome.Finished? ==> st.outcome.bankroll == st.state.bankroll)
    {
      TurnSolvent(policy, s, p, r);
    }
  }

  lemma {:induction false} WalkSolvent(rule: Rule, s: AgentState, dice: seq<Roll>, picks: seq<Pick>)
    requires KeepsSolvent(rule) && Solvent(s)
    requires Walk(rule, s, dice, picks).Some?
    ensures Solvent(Walk(rule, s, dice, picks).value)
    decreases |picks|
  {
    if picks != [] {
      var k := |picks| - 1;
      WalkSolvent(rule, s, dice, picks[..k]);
      var m := Walk(rule, s, dice, picks[..k]).value;
      assert rule(m, picks[k], RollAt(dice, k)).Some?;
    }
  }

  /** Played from money in order, a game ends with the money in order, and a
      finished game returns a bankroll that is not negative. */
  lemma GameWithSolvent(rule: Rule, s: AgentState, dice: seq<Roll>, picks: seq<Pick>, last: Pick)
    requires KeepsSolvent(rule) && Solvent(s)
    requires GameWith(rule, s, dice, picks, last).Some?
    ensures var r := GameWith(rule, s, dice, picks, last).value;
      Solvent(r.state) && (r.outcome.Finished? ==> r.outcome.bankroll == r.state.bankroll && r.outcome.bankroll >= 0.0)
  {
    var c := ComeOutRound(dice);
    var t := AfterComeOut(PassLine(NewGame(s)), c);
    ComeOutSolvent(s, c);
    if c.end.PointSet? {
      var rest := dice[c.used..];
      WalkSolvent(rule, t, rest, picks);
      var m := Walk(rule, t, rest, picks).value;
      assert rule(m, last, RollAt(rest, |picks|)).Some?;
    }
  }

  /** `play_game` never leaves a negative bankroll or a bet below the table
      minimum, whatever the agent's kind and choices. */
  lemma GameSolvent(policy: Policy, s: AgentState, dice: seq<Roll>, picks: seq<Pick>, last: Pick)
    requires Solvent(s)
    requires Game(policy, s, dice, picks, last).Some?
    ensures var r := Game(policy, s, dice, picks, last).value;
      Solvent(r.state) && (r.outcome.Finished? ==> r.outcome.bankroll >= 0.0)
  {
    SimulatorKeepsSolvent(policy);
    GameWithSolvent(SimulatorRule(policy), s, dice, picks, last);
  }

  // ---------------------------------------------------------------------
  // play_game
  // ---------------------------------------------------------------------

  /** The loop over the bets typed `pass_line_odds` when the point is made. */
  method PayPassLineOdds(agent: Agent, point: int)
    modifies agent
    ensures agent.State() == old(agent.State()).(bankroll := old(agent.bankroll) + SumOver(old(agent.bets), PassOddsWin(point)))
  {
    ghost var s0 := agent.State();
    for k := 0 to |agent.bets|
      invariant agent.State() == s0.(bankroll := s0.bankroll + SumOver(s0.bets[..k], PassOddsWin(point)))
    {
      SumOverStep(s0.bets, PassOddsWin(point), k);
      var bet := agent.bets[k];
      if bet.kind == "pass_line_odds" {
        agent.bankroll := agent.bankroll + OddsPayout(bet.amount, point);
      }
    }
    assert s0.bets[..|s0.bets|] == s0.bets;
  }

  /** The loop that pays the come bets on the rolled number. */
  method PayComeHits(agent: Agent, roll: Roll)
    modifies agent
    ensures agent.State() == old(agent.State()).(bankroll := old(agent.bankroll) + SumOver(old(agent.bets), ComeWin(roll)))
  {
    ghost var s0 := agent.State();
    for k := 0 to |agent.bets|
      invariant agent.State() == s0.(bankroll := s0.bankroll + SumOver(s0.bets[..k], ComeWin(roll)))
    {
      SumOverStep(s0.bets, ComeWin(roll), k);
      var bet := agent.bets[k];
      if bet.kind == "come_flat" && bet.point == Some(roll) {
        agent.bankroll := agent.bankroll + bet.amount;
      } else if bet.kind == "come_odds" && bet.point == Some(roll) {
        agent.bankroll := agent.bankroll + OddsPayout(bet.amount, bet.point.value);
      }
    }
    assert s0.bets[..|s0.bets|] == s0.bets;
  }

  /** One pass of that loop: what stays of the bet, with the natural's pay
      and the new come point. */
  method SettleComeBet(agent: Agent, bet: Bet, roll: Roll) returns (stays: seq<Bet>)
    modifies agent
    ensures stays == MoveOne(bet, roll)
    ensures agent.State() == old(agent.State()).(bankroll := old(agent.bankroll) + NaturalPay(roll)(bet),
      activeComePoints := old(agent.activeComePoints) + (if PendingCome(bet) && !Natural(roll) && !CrapsRoll(roll) then {roll} else {}))
  {
    stays := [bet];
    if bet.kind == "come_flat" && bet.point.None? {
      if roll == 7 || roll == 11 {
        agent.bankroll := agent.bankroll + bet.amount;
        stays := [];
      } else if roll == 2 || roll == 3 || roll == 12 {
        stays := [];
      } else {
        stays := [bet.(point := Some(roll))];
        agent.activeComePoints := agent.activeComePoints + {roll};
      }
    }
  }

  /** The loop over a copy of the bets that settles the pending come bets.
      Removing a bet by equality drops the bet at hand: an equal bet is
      pending too and is treated the same way on this roll. */
  method SettleComeBets(agent: Agent, roll: Roll)
    modifies agent
    ensures agent.State() == MoveComeBets(old(agent.State()), roll)
  {
    ghost var s0 := agent.State();
    var all := agent.bets;
    var kept: seq<Bet> := [];
    for k := 0 to |all|
      invariant kept == Moved(all[..k], roll)
      invariant agent.bankroll == s0.bankroll + SumOver(all[..k], NaturalPay(roll))
      invariant agent.activeComePoints == s0.activeComePoints + Traveled(all[..k], roll)
      invariant agent.State() == s0.(bankroll := agent.bankroll, activeComePoints := agent.activeComePoints)
    {
      MovedStep(all, roll, k);
      SumOverStep(all, NaturalPay(roll), k);
      var stays := SettleComeBet(agent, all[k], roll);
      kept := kept + stays;
    }
    assert all[..|all|] == all;
    agent.bets := kept;
  }

  /** The three settling steps of a roll other than 7. */
  method SettleRoll(agent: Agent, roll: Roll)
    modifies agent
    ensures agent.State() == Settle(old(agent.State()), roll)
  {
    if agent.currentPoint == Some(roll) {
      agent.bankroll := agent.bankroll + agent.tableMin;
      PayPassLineOdds(agent, roll);
    }
    if roll in agent.activeComePoints {
      PayComeHits(agent, roll);
    }
    SettleComeBets(agent, roll);
  }

  /** The come-out loop: a natural pays the table minimum and rolls again,
      craps ends the game, any other number sets the point. */
  method ComeOutPhase(agent: Agent, dice: seq<Roll>) returns (c: ComeOut)
    requires !agent.pointEstablished
    modifies agent
    ensures c == ComeOutRound(dice)
    ensures agent.State() == AfterComeOut(old(agent.State()), c)
  {
    ghost var s0 := agent.State();
    var i := 0;
    var gameOver := false;
    while !agent.pointEstablished && !gameOver && i < |dice|
      invariant 0 <= i <= |dice|
      invariant !(agent.pointEstablished && gameOver)
      invariant !agent.pointEstablished && !gameOver ==>
        ComeOutFrom(dice, i) == ComeOutRound(dice) && agent.State() == s0.(bankroll := Won(s0.bankroll, s0.tableMin, i))
      invariant agent.pointEstablished || gameOver ==>
        0 < i && ComeOutRound(dice) == ComeOut(i - 1, if gameOver then Craps else PointSet(dice[i - 1]), i)
        && agent.State() == AfterComeOut(s0, ComeOutRound(dice))
      decreases |dice| - i
    {
      var roll := dice[i];
      i := i + 1;
      if roll == 7 || roll == 11 {
        StepProduct(i - 1, agent.tableMin);
        agent.bankroll := agent.bankroll + agent.tableMin;
      } else if roll == 2 || roll == 3 || roll == 12 {
        gameOver := true;
      } else {
        agent.pointEstablished := true;
        agent.currentPoint := Some(roll);
      }
    }
    if gameOver {
      c := ComeOut(i - 1, Craps, i);
    } else if agent.pointEstablished {
      c := ComeOut(i - 1, PointSet(dice[i - 1]), i);
    } else {
      c := ComeOut(i, NoMoreDice, i);
    }
  }

  /** One pass of the point-round loop, with the roll it reads. */
  method PlayTurn(agent: Agent, roll: Option<Roll>, ghost rule: Rule) returns (over: Option<Outcome>, rolled: bool, ghost pick: Pick)
    requires agent.policy.QBistPolicy? ==> QBistAgent.WellShaped(agent.policy.sicFor)
    requires SimulatorTurns(rule, agent.policy)
    modifies agent, agent.actionGen
    ensures rule(old(agent.State()), pick, roll) ==
      Some(if over.Some? then Over(over.value, agent.State(), rolled) else Next(agent.State()))
    ensures roll.None? ==> over.Some? && !rolled
  {
    ghost var s0 := agent.State();
    pick := Ok(None);
    rolled := false;
    over := None;
    var goesOn := agent.CanContinue();
    if !goesOn {
      over := Some(Finished(agent.bankroll));
    } else {
      var err := agent.UpdateActionSpace(None);
      if err.Some? {
        over := Some(Raised(err.value));
      } else {
        var action := agent.ChooseAction();
        pick := action;
        if action.Err? {
          over := Some(Raised(action.error));
        } else {
          if action.value.Some? && action.value.value != [] {
            agent.PlaceBets(action.value);
          }
          if roll.None? {
            over := Some(OutOfDice);
          } else if roll.value == 7 {
            agent.ResolveGame("seven_out");
            over := Some(Finished(agent.bankroll));
            rolled := true;
          } else {
            SettleRoll(agent, roll.value);
          }
        }
      }
    }
    assert Turn(agent.policy, s0, pick, roll) ==
      Some(if over.Some? then Over(over.value, agent.State(), rolled) else Next(agent.State()));
  }

  /** The point-round loop: turns until one ends the game. */
  method PlayPointRound(agent: Agent, dice: seq<Roll>, ghost rule: Rule) returns (outcome: Outcome, used: nat, ghost picks: seq<Pick>, ghost last: Pick)
    requires agent.policy.QBistPolicy? ==> QBistAgent.WellShaped(agent.policy.sicFor)
    requires SimulatorTurns(rule, agent.policy)
    modifies agent, agent.actionGen
    ensures PointRound(rule, old(agent.State()), dice, picks, last) == Some(Played(outcome, agent.State(), used))
  {
    ghost var s0 := agent.State();
    picks := [];
    var i := 0;
    while true
      invariant i == |picks| <= |dice|
      invariant Walk(rule, s0, dice, picks) == Some(agent.State())
      decreases |dice| - i
    {
      var roll := if i < |dice| then Some(dice[i]) else None;
      var over, rolled, pick := PlayTurn(agent, roll, rule);
      if over.Some? {
        last := pick;
        outcome := over.value;
        used := if rolled then i + 1 else i;
        return;
      }
      assert (picks + [pick])[..i] == picks;
      picks := picks + [pick];
      i := i + 1;
    }
  }

  /** The start of `play_game`: a new game, the pass-line bet and the
      come-out loop. */
  method StartGame(agent: Agent, dice: seq<Roll>) returns (c: ComeOut)
    modifies agent
    ensures c == ComeOutRound(dice)
    ensures agent.State() == AfterComeOut(PassLine(NewGame(old(agent.State()))), c)
  {
    agent.StartNewGame();
    agent.pointEstablished := false;
    agent.currentPoint := None;
    agent.activeComePoints := {};
    agent.PlacePassLineBet();
    c := ComeOutPhase(agent, dice);
  }

  /** `play_game(agent, rng)` with the dice given, under a rule playing the
      simulator's turns (`GameOf` turns its contract into one about `Game`). */
  method PlayGame(agent: Agent, dice: seq<Roll>, ghost rule: Rule) returns (outcome: Outcome, used: nat, ghost picks: seq<Pick>, ghost last: Pick)
    requires agent.policy.QBistPolicy? ==> QBistAgent.WellShaped(agent.policy.sicFor)
    requires SimulatorTurns(rule, agent.policy)
    modifies agent, agent.actionGen
    ensures GameWith(rule, old(agent.State()), dice, picks, last) == Some(Played(outcome, agent.State(), used))
  {
    ghost var s0 := agent.State();
    var c := StartGame(agent, dice);
    picks := [];
    last := Ok(None);
    if !c.end.PointSet? {
      GameAtComeOut(rule, s0, dice, picks, last);
      outcome := if c.end.Craps? then Finished(agent.bankroll) else OutOfDice;
      used := c.used;
      return;
    }
    var rest: nat;
    outcome, rest, picks, last := PlayPointRound(agent, dice[c.used..], rule);
    GameAtPoint(rule, s0, dice, picks, last, Played(outcome, agent.State(), rest));
    used := c.used + rest;
  }
}
