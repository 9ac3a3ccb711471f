/** The earlier game engine. It plays the same come-out round and settles
    the point and the come points the same way, but a turn whose agent
    answers nothing ends the game without a roll, an empty action is still
    placed, and a pending come bet is never taken down: a natural pays it
    and leaves it pending, craps leaves it alone, a point number becomes
    its point. */
module LegacyEngine {
  import opened Wrappers
  import opened Bets
  import opened Agents
  import opened SimulatorEngine
  import QBistAgent

  // ---------------------------------------------------------------------
  // The pending come bets
  // ---------------------------------------------------------------------

  /** What becomes of one bet: a pending come bet takes a point number as
      its point; every other bet, and a pending one on any other roll, stays
      as it is. */
  function LegacyMoveOne(b: Bet, roll: Roll): Bet
  {
    if PendingCome(b) && PointNumber(roll) then b.(point := Some(roll)) else b
  }

  function LegacyMoved(bets: seq<Bet>, roll: Roll): (r: seq<Bet>)
    ensures |r| == |bets|
    ensures forall k | 0 <= k < |bets| :: r[k] == LegacyMoveOne(bets[k], roll)
  {
    seq(|bets|, k requires 0 <= k < |bets| => LegacyMoveOne(bets[k], roll))
  }

  /** The loop over the bets themselves: a natural pays each pending come
      bet its amount, a point number becomes their point and an active come
      point. */
  function LegacyMoveComeBets(s: AgentState, roll: Roll): AgentState
  {
    s.(bankroll := s.bankroll + SumOver(s.bets, NaturalPay(roll)),
       bets := LegacyMoved(s.bets, roll),
       activeComePoints := s.activeComePoints + Traveled(s.bets, roll))
  }

  /** On a natural or craps the bets and the come points are untouched, so a
      pending come bet stays pending and is paid again on the next natural;
      only a natural pays. */
  lemma LegacyPendingStays(s: AgentState, roll: Roll)
    requires Natural(roll) || CrapsRoll(roll)
    ensures var t := LegacyMoveComeBets(s, roll);
      && t.bets == s.bets && t.activeComePoints == s.activeComePoints
      && (CrapsRoll(roll) ==> t == s)
      && (Natural(roll) ==> t.bankroll == s.bankroll + SumOver(s.bets, NaturalPay(roll)))
  {
    TraveledSpec(s.bets, roll);
    if CrapsRoll(roll) {
      SumOverZero(s.bets, NaturalPay(roll));
    }
  }

  /** On a point number the earlier engine moves the come bets as the
      simulator does. */
  lemma LegacyMovesOnPoints(s: AgentState, roll: Roll)
    requires PointNumber(roll)
    ensures LegacyMoveComeBets(s, roll) == MoveComeBets(s, roll)
  {
    MovedCarries(s.bets, roll);
    assert LegacyMoved(s.bets, roll) == Moved(s.bets, roll);
  }

  /** Everything that happens on a roll other than 7, in the engine's order. */
  function LegacySettle(s: AgentState, roll: Roll): AgentState
  {
    LegacyMoveComeBets(ComeHits(PointHit(s, roll), roll), roll)
  }

  /** The engines differ only on a natural or craps with a pending come bet
      on the table: there the simulator takes the bet down and the earlier
      engine leaves it. */
  lemma LegacySettleAgrees(s: AgentState, roll: Roll)
    ensures PointNumber(roll) ==> LegacySettle(s, roll) == Settle(s, roll)
    ensures var h := ComeHits(PointHit(s, roll), roll);
      !PointNumber(roll) ==> (LegacySettle(s, roll) == Settle(s, roll) <==> !HasPending(h.bets))
  {
    var h := ComeHits(PointHit(s, roll), roll);
    if PointNumber(roll) {
      LegacyMovesOnPoints(h, roll);
    } else {
      LegacyPendingStays(h, roll);
      MoveComeBetsSpec(h, roll);
      if HasPending(h.bets) {
        var b :| b in h.bets && PendingCome(b);
        assert b !in Settle(s, roll).bets;
      } else {
        forall b ensures b in Moved(h.bets, roll) <==> b in h.bets {
          MovedDrops(h.bets, roll, b);
        }
        MovedKeeps(h.bets, roll);
      }
    }
  }

  /** With nothing pending, the simulator's move keeps the bets as they are. */
  lemma {:induction false} MovedKeeps(bets: seq<Bet>, roll: Roll)
    requires !HasPending(bets)
    ensures Moved(bets, roll) == bets
  {
    if bets != [] {
      var init := bets[..|bets| - 1];
      assert !HasPending(init) by {
        forall b | b in init ensures !PendingCome(b) {
          assert b in bets;
        }
      }
      MovedKeeps(init, roll);
      assert bets[|bets| - 1] in bets;
      assert bets == init + [bets[|bets| - 1]];
    }
  }

  // ---------------------------------------------------------------------
  // A turn of the point round
  // ---------------------------------------------------------------------

  /** One pass of the earlier point-round loop: stop when the agent cannot
      go on; otherwise update the action space and take the agent's choice;
      no choice ends the game without a roll; any other choice, empty or
      not, is placed before the roll. A 7 is a seven-out, any other roll is
      settled and play goes on. */
  function LegacyTurn(policy: Policy, s: AgentState, pick: Pick, roll: Option<Roll>): Option<Step>
  {
    if !Continues(s) then Some(Over(Finished(s.bankroll), s, false))
    else
      match UpdateActions(policy, s, None)
      case Err(e) => Some(Over(Raised(e), s, false))
      case Ok(u) =>
        if !Chose(policy, u, pick) then None
        else if pick.Err? then Some(Over(Raised(pick.error), u, false))
        else if pick.value.None? then Some(Over(Finished(u.bankroll), u, false))
        else
          var placed := Placing(policy, u, pick.value);
          if roll.None? then Some(Over(OutOfDice, placed, false))
          else if roll.value == 7 then
            var t := Resolve(placed, OutcomeValue(policy, "seven_out"));
            Some(Over(Finished(t.bankroll), t, true))
          else Some(Next(LegacySettle(placed, roll.value)))
  }

  function LegacyRule(policy: Policy): Rule
  {
    (s: AgentState, p: Pick, r: Option<Roll>) => LegacyTurn(policy, s, p, r)
  }

  /** A turn whose agent answers nothing ends the game with the bankroll and
      reads no die. */
  lemma LegacyNoActionEnds(policy: Policy, s: AgentState, roll: Option<Roll>)
    requires LegacyTurn(policy, s, Ok(None), roll).Some?
    ensures var st := LegacyTurn(policy, s, Ok(None), roll).value;
      st.Over? && !st.rolled && (st.outcome.Finished? ==> st.outcome.bankroll == st.state.bankroll)
  {
  }

  /** On a turn where the agent makes a non-empty choice (or raises) and the
      roll is a 7 or a point number, the two engines play the same turn. */
  lemma TurnsAgree(policy: Policy, s: AgentState, pick: Pick, roll: Option<Roll>)
    requires pick.Ok? ==> pick.value.Some? && pick.value.value != []
    requires roll.Some? ==> roll.value == 7 || PointNumber(roll.value)
    ensures LegacyTurn(policy, s, pick, roll) == Turn(policy, s, pick, roll)
  {
    if roll.Some? && roll.value != 7 && Continues(s) {
      var u := UpdateActions(policy, s, None);
      if u.Ok? && pick.Ok? {
        LegacySettleAgrees(Placing(policy, u.value, pick.value), roll.value);
      }
    }
  }

  /** `play_game` of the earlier engine. Placing the pass-line bet before
      the point and come points are reset makes no difference, as the bet
      reads neither: its start is the simulator's (`LegacyStart`). */
  function LegacyGame(policy: Policy, s: AgentState, dice: seq<Roll>, picks: seq<Pick>, last: Pick): (r: Option<Played>)
    ensures r.Some? ==> r.value.used <= |dice|
  {
    GameWith(LegacyRule(policy), s, dice, picks, last)
  }

  /** The resets after `place_pass_line_bet`. */
  function ClearPoint(s: AgentState): AgentState
  {
    s.(pointEstablished := false, currentPoint := None, activeComePoints := {})
  }

  lemma LegacyStart(s: AgentState)
    ensures ClearPoint(PassLine(NewGame(s))) == PassLine(NewGame(s))
    ensures !PassLine(NewGame(s)).pointEstablished
  {
  }

  /** `rule` plays the earlier engine's turns for this agent kind. */
  ghost predicate LegacyTurns(rule: Rule, policy: Policy)
  {
    forall s: AgentState, p: Pick, r: Option<Roll> {:trigger LegacyTurn(policy, s, p, r)} :: rule(s, p, r) == LegacyTurn(policy, s, p, r)
  }

  lemma LegacyRuleTurns(policy: Policy)
    ensures LegacyTurns(LegacyRule(policy), policy)
  {
  }

  /** Any rule playing the earlier engine's turns plays its games. */
  lemma LegacyGameOf(rule: Rule, policy: Policy, s: AgentState, dice: seq<Roll>, picks: seq<Pick>, last: Pick)
    requires LegacyTurns(rule, policy)
    ensures GameWith(rule, s, dice, picks, last) == LegacyGame(policy, s, dice, picks, last)
  {
    forall t: AgentState, p: Pick, r: Option<Roll> ensures rule(t, p, r) == LegacyRule(policy)(t, p, r) {
      assert rule(t, p, r) == LegacyTurn(policy, t, p, r);
    }
    GameWithSameTurns(rule, LegacyRule(policy), s, dice, picks, last);
  }

  // ---------------------------------------------------------------------
  // play_game of the earlier engine
  // ---------------------------------------------------------------------

  /** One pass of the loop over the bets: a pending come bet is paid on a
      natural and takes a point number as its point. */
  method LegacySettleComeBet(agent: Agent, bet: Bet, roll: Roll) returns (moved: Bet)
    modifies agent
    ensures moved == LegacyMoveOne(bet, roll)
    ensures agent.State() == old(agent.State()).(bankroll := old(agent.bankroll) + NaturalPay(roll)(bet),
      activeComePoints := old(agent.activeComePoints) + (if PendingCome(bet) && !Natural(roll) && !CrapsRoll(roll) then {roll} else {}))
  {
    moved := bet;
    if bet.kind == "come_flat" && bet.point.None? {
      if roll == 7 || roll == 11 {
        agent.bankroll := agent.bankroll + bet.amount;
      } else if roll == 2 || roll == 3 || roll == 12 {
      } else {
        moved := bet.(point := Some(roll));
        agent.activeComePoints := agent.activeComePoints + {roll};
      }
    }
  }

  /** The loop over the bets that gives the pending come bets their point.
      Each bet keeps its place; the updated bets are written back once the
      loop is done. */
  method LegacySettleComeBets(agent: Agent, roll: Roll)
    modifies agent
    ensures agent.State() == LegacyMoveComeBets(old(agent.State()), roll)
  {
    ghost var s0 := agent.State();
    var all := agent.bets;
    var moved: seq<Bet> := [];
    for k := 0 to |all|
      invariant moved == LegacyMoved(all[..k], roll)
      invariant agent.bankroll == s0.bankroll + SumOver(all[..k], NaturalPay(roll))
      invariant agent.activeComePoints == s0.activeComePoints + Traveled(all[..k], roll)
      invariant agent.State() == s0.(bankroll := agent.bankroll, activeComePoints := agent.activeComePoints)
    {
      MovedStep(all, roll, k);
      SumOverStep(all, NaturalPay(roll), k);
      LegacyMovedStep(all, roll, k);
      var one := LegacySettleComeBet(agent, all[k], roll);
      moved := moved + [one];
    }
    assert all[..|all|] == all;
    agent.bets := moved;
  }

  lemma LegacyMovedStep(bets: seq<Bet>, roll: Roll, k: nat)
    requires k < |bets|
    ensures LegacyMoved(bets[..k + 1], roll) == LegacyMoved(bets[..k], roll) + [LegacyMoveOne(bets[k], roll)]
  {
  }

  /** The three settling steps of a roll other than 7. */
  method LegacySettleRoll(agent: Agent, roll: Roll)
    modifies agent
    ensures agent.State() == LegacySettle(old(agent.State()), roll)
  {
    if agent.currentPoint == Some(roll) {
      agent.bankroll := agent.bankroll + agent.tableMin;
      PayPassLineOdds(agent, roll);
    }
    if roll in agent.activeComePoints {
      PayComeHits(agent, roll);
    }
    LegacySettleComeBets(agent, roll);
  }

  /** One pass of the earlier point-round loop, with the roll it reads. */
  method PlayLegacyTurn(agent: Agent, roll: Option<Roll>, ghost rule: Rule) returns (over: Option<Outcome>, rolled: bool, ghost pick: Pick)
    requires agent.policy.QBistPolicy? ==> QBistAgent.WellShaped(agent.policy.sicFor)
    requires LegacyTurns(rule, agent.policy)
    modifies agent, agent.actionGen
    ensures rule(old(agent.State()), pick, roll) ==
      Some(if over.Some? then Over(over.value, agent.State(), rolled) else Next(agent.State()))
    ensures roll.None? ==> over.Some? && !rolled
  {
    ghost var s0 := agent.State();
    pick := Ok(None);
    rolled := false;
    over := None;
    var goesOn := agent.CanContinue();
    if !goesOn {
      over := Some(Finished(agent.bankroll));
    } else {
      var err := agent.UpdateActionSpace(None);
      if err.Some? {
        over := Some(Raised(err.value));
      } else {
        var action := agent.ChooseAction();
        pick := action;
        if action.Err? {
          over := Some(Raised(action.error));
        } else if action.value.None? {
          over := Some(Finished(agent.bankroll));
        } else {
          agent.PlaceBets(action.value);
          if roll.None? {
            over := Some(OutOfDice);
          } else if roll.value == 7 {
            agent.ResolveGame("seven_out");
            over := Some(Finished(agent.bankroll));
            rolled := true;
          } else {
            LegacySettleRoll(agent, roll.value);
          }
        }
      }
    }
    assert LegacyTurn(agent.policy, s0, pick, roll) ==
      Some(if over.Some? then Over(over.value, agent.State(), rolled) else Next(agent.State()));
  }

  /** The earlier point-round loop: turns until one ends the game. */
  method PlayLegacyPointRound(agent: Agent, dice: seq<Roll>, ghost rule: Rule) returns (outcome: Outcome, used: nat, ghost picks: seq<Pick>, ghost last: Pick)
    requires agent.policy.QBistPolicy? ==> QBistAgent.WellShaped(agent.policy.sicFor)
    requires LegacyTurns(rule, agent.policy)
    modifies agent, agent.actionGen
    ensures PointRound(rule, old(agent.State()), dice, picks, last) == Some(Played(outcome, agent.State(), used))
  {
    ghost var s0 := agent.State();
    picks := [];
    var i := 0;
    while true
      invariant i == |picks| <= |dice|
      invariant Walk(rule, s0, dice, picks) == Some(agent.State())
      decreases |dice| - i
    {
      var roll := if i < |dice| then Some(dice[i]) else None;
      var over, rolled, pick := PlayLegacyTurn(agent, roll, rule);
      if over.Some? {
        last := pick;
        outcome := over.value;
        used := if rolled then i + 1 else i;
        return;
      }
      assert (picks + [pick])[..i] == picks;
      picks := picks + [pick];
      i := i + 1;
    }
  }

  /** `play_game(agent, rng)` of the earlier engine with the dice given,
      under a rule playing its turns (`LegacyGameOf` turns the contract into
      one about `LegacyGame`). */
  method PlayLegacyGame(agent: Agent, dice: seq<Roll>, ghost rule: Rule) returns (outcome: Outcome, used: nat, ghost picks: seq<Pick>, ghost last: Pick)
    requires agent.policy.QBistPolicy? ==> QBistAgent.WellShaped(agent.policy.sicFor)
    requires LegacyTurns(rule, agent.policy)
    modifies agent, agent.actionGen
    ensures GameWith(rule, old(agent.State()), dice, picks, last) == Some(Played(outcome, agent.State(), used))
  {
    ghost var s0 := agent.State();
    agent.StartNewGame();
    agent.PlacePassLineBet();
    agent.pointEstablished := false;
    agent.currentPoint := None;
    agent.activeComePoints := {};
    LegacyStart(s0);
    var c := ComeOutPhase(agent, dice);
    picks := [];
    last := Ok(None);
    if !c.end.PointSet? {
      GameAtComeOut(rule, s0, dice, picks, last);
      outcome := if c.end.Craps? then Finished(agent.bankroll) else OutOfDice;
      used := c.used;
      return;
    }
    var rest: nat;
    outcome, rest, picks, last := PlayLegacyPointRound(agent, dice[c.used..], rule);
    GameAtPoint(rule, s0, dice, picks, last, Played(outcome, agent.State(), rest));
    used := c.used + rest;
  }
}
