/** `simulate_agent`: the outer loop that plays game after game with one
    agent and one stream of dice, recording the bankroll after each game and
    stopping early once the agent can no longer cover the table minimum. */
module Simulator {
  import opened Wrappers
  import opened Agents
  import opened SimulatorEngine
  import QBistAgent

  /** The answers `choose_action` gave during one game: one per turn that
      went on, then the one of the turn that ended the game. */
  datatype GamePicks = GamePicks(picks: seq<Pick>, last: Pick)

  /** The loop so far: the bankroll history, how a game that did not return
      ended (an exception, or the dice ran out), the agent, and the dice
      used. */
  datatype Run = Run(history: seq<real>, aborted: Option<Outcome>, state: AgentState, used: nat)

  /** The loop is over: a game did not return, `num_games` games were
      played, or the last game left the agent unable to continue. */
  predicate Stopped(r: Run, numGames: int)
  {
    r.aborted.Some? || |r.history| >= numGames || (r.history != [] && !Continues(r.state))
  }

  /** One more pass of the loop after `prev`: None when the loop has
      stopped or the answers do not make a game; otherwise the game's
      bankroll is appended, or the game that did not return ends the run. */
  function Extend(rule: Rule, prev: Run, dice: seq<Roll>, g: GamePicks, numGames: int): (r: Option<Run>)
    requires prev.used <= |dice|
    ensures r.Some? ==> r.value.used <= |dice|
    ensures r.Some? ==> |r.value.history| + (if r.value.aborted.Some? then 1 else 0) == |prev.history| + 1
  {
    if Stopped(prev, numGames) then None
    else
      match GameWith(rule, prev.state, dice[prev.used..], g.picks, g.last)
      case None => None
      case Some(p) =>
        if p.outcome.Finished? then Some(Run(prev.history + [p.outcome.bankroll], None, p.state, prev.used + p.used))
        else Some(Run(prev.history, Some(p.outcome), p.state, prev.used + p.used))
  }

  /** The first |games| passes of the loop under a turn rule, game k played
      with the answers `games[k]` on the dice left by the games before it.
      None when the loop would have stopped before the last of them, or when
      those answers do not make a game. */
  function RunWith(rule: Rule, s: AgentState, dice: seq<Roll>, games: seq<GamePicks>, numGames: int): (r: Option<Run>)
    ensures r.Some? ==> r.value.used <= |dice|
    ensures r.Some? ==> |r.value.history| + (if r.value.aborted.Some? then 1 else 0) == |games|
    decreases |games|
  {
    if games == [] then Some(Run([], None, s, 0))
    else
      var k := |games| - 1;
      match RunWith(rule, s, dice, games[..k], numGames)
      case None => None
      case Some(prev) => Extend(rule, prev, dice, games[k], numGames)
  }

  /** `simulate_agent` of the simulator's engine. */
  function Simulation(policy: Policy, s: AgentState, dice: seq<Roll>, games: seq<GamePicks>, numGames: int): Option<Run>
  {
    RunWith(SimulatorRule(policy), s, dice, games, numGames)
  }

  // ---------------------------------------------------------------------
  // Properties of the loop
  // ---------------------------------------------------------------------

  /** Every prefix of a run is a run, and the loop had not stopped before
      any game it went on to play. */
  lemma {:induction false} RunPrefix(rule: Rule, s: AgentState, dice: seq<Roll>, games: seq<GamePicks>, numGames: int, j: nat)
    requires RunWith(rule, s, dice, games, numGames).Some?
    requires j <= |games|
    ensures RunWith(rule, s, dice, games[..j], numGames).Some?
    ensures j < |games| ==> !Stopped(RunWith(rule, s, dice, games[..j], numGames).value, numGames)
    decreases |games|
  {
    if j < |games| {
      var k := |games| - 1;
      assert games[..k][..j] == games[..j];
      if j < k {
        RunPrefix(rule, s, dice, games[..k], numGames, j);
      } else {
        assert games[..j] == games[..k];
      }
    } else {
      assert games[..j] == games;
    }
  }

  /** The history never holds more than `num_games` entries, and with
      `num_games <= 0` no game is played at all. */
  lemma {:induction false} HistoryBound(rule: Rule, s: AgentState, dice: seq<Roll>, games: seq<GamePicks>, numGames: int)
    requires RunWith(rule, s, dice, games, numGames).Some?
    ensures |games| <= if numGames < 0 then 0 else numGames
    ensures |RunWith(rule, s, dice, games, numGames).value.history| <= |games|
    ensures numGames <= 0 ==> games == [] && RunWith(rule, s, dice, games, numGames).value.history == []
  {
    if games != [] {
      var k := |games| - 1;
      RunPrefix(rule, s, dice, games, numGames, k);
      var prev := RunWith(rule, s, dice, games[..k], numGames).value;
      assert |prev.history| + (if prev.aborted.Some? then 1 else 0) == k;
    }
  }

  /** Entry i of the history is what the i-th `play_game` returned: under a
      rule that ends games as the simulator does, the agent's bankroll after
      game i. */
  lemma {:induction false} HistoryIsBankrolls(rule: Rule, s: AgentState, dice: seq<Roll>, games: seq<GamePicks>, numGames: int, i: nat)
    requires EndsAsSimulator(rule)
    requires RunWith(rule, s, dice, games, numGames).Some?
    requires i < |RunWith(rule, s, dice, games, numGames).value.history|
    ensures RunWith(rule, s, dice, games[..i + 1], numGames).Some?
    ensures RunWith(rule, s, dice, games, numGames).value.history[i] ==
      RunWith(rule, s, dice, games[..i + 1], numGames).value.state.bankroll
    decreases |games|
  {
    var k := |games| - 1;
    var prev := RunWith(rule, s, dice, games[..k], numGames).value;
    var g := GameWith(rule, prev.state, dice[prev.used..], games[k].picks, games[k].last).value;
    if i < |prev.history| {
      HistoryIsBankrolls(rule, s, dice, games[..k], numGames, i);
      assert games[..k][..i + 1] == games[..i + 1];
    } else {
      assert games[..i + 1] == games;
      GameWithEnds(rule, prev.state, dice[prev.used..], games[k].picks, games[k].last);
    }
  }

  /** A history shorter than `num_games` (with every game returning) means
      the last game left the agent unable to continue, and every earlier
      game left it able to. */
  lemma EarlyStop(rule: Rule, s: AgentState, dice: seq<Roll>, games: seq<GamePicks>, numGames: int, j: nat)
    requires RunWith(rule, s, dice, games, numGames).Some?
    requires var r := RunWith(rule, s, dice, games, numGames).value;
      Stopped(r, numGames) && r.aborted.None? && |r.history| < numGames
    requires 0 < j < |games|
    ensures var r := RunWith(rule, s, dice, games, numGames).value;
      r.history != [] && !Continues(r.state)
    ensures RunWith(rule, s, dice, games[..j], numGames).Some?
    ensures Continues(RunWith(rule, s, dice, games[..j], numGames).value.state)
  {
    RunPrefix(rule, s, dice, games, numGames, j);
  }

  /** Under a rule whose turns do not depend on the valid pick, two
      answers that both make the next game extend a run alike. */
  lemma ExtendSame(rule: Rule, prev: Run, dice: seq<Roll>, g: GamePicks, h: GamePicks, numGames: int)
    requires ChoiceFixed(rule)
    requires prev.used <= |dice|
    requires Extend(rule, prev, dice, g, numGames).Some? && Extend(rule, prev, dice, h, numGames).Some?
    ensures Extend(rule, prev, dice, g, numGames) == Extend(rule, prev, dice, h, numGames)
  {
    GameWithDeterministic(rule, prev.state, dice[prev.used..], g.picks, g.last, h.picks, h.last);
  }

  /** Two prefixes of the same length of two runs under a rule whose turns
      do not depend on the valid pick are the same. */
  lemma {:induction false} RunSame(rule: Rule, s: AgentState, dice: seq<Roll>, p: seq<GamePicks>, q: seq<GamePicks>, numGames: int)
    requires ChoiceFixed(rule)
    requires |p| == |q|
    requires RunWith(rule, s, dice, p, numGames).Some? && RunWith(rule, s, dice, q, numGames).Some?
    ensures RunWith(rule, s, dice, p, numGames) == RunWith(rule, s, dice, q, numGames)
    decreases |p|
  {
    if p != [] {
      var k := |p| - 1;
      RunSame(rule, s, dice, p[..k], q[..k], numGames);
      var prev := RunWith(rule, s, dice, p[..k], numGames).value;
      ExtendSame(rule, prev, dice, p[k], q[k], numGames);
    }
  }

  /** Given the dice, a finished simulation of an agent whose turns do not
      depend on the pick is unique: same history, same agent, same dice
      used. */
  lemma RunDeterministic(rule: Rule, s: AgentState, dice: seq<Roll>, p: seq<GamePicks>, q: seq<GamePicks>, numGames: int)
    requires ChoiceFixed(rule)
    requires RunWith(rule, s, dice, p, numGames).Some? && Stopped(RunWith(rule, s, dice, p, numGames).value, numGames)
    requires RunWith(rule, s, dice, q, numGames).Some? && Stopped(RunWith(rule, s, dice, q, numGames).value, numGames)
    ensures RunWith(rule, s, dice, p, numGames) == RunWith(rule, s, dice, q, numGames)
  {
    if |p| < |q| {
      RunPrefix(rule, s, dice, q, numGames, |p|);
      RunSame(rule, s, dice, p, q[..|p|], numGames);
    } else if |q| < |p| {
      RunPrefix(rule, s, dice, p, numGames, |q|);
      RunSame(rule, s, dice, q, p[..|q|], numGames);
    } else {
      RunSame(rule, s, dice, p, q, numGames);
    }
  }

  /** The classical, quantum and QBist agents have one history for given
      dice. */
  lemma SimulationDeterministic(policy: Policy, s: AgentState, dice: seq<Roll>, p: seq<GamePicks>, q: seq<GamePicks>, numGames: int)
    requires !policy.RandomPolicy?
    requires Simulation(policy, s, dice, p, numGames).Some? && Stopped(Simulation(policy, s, dice, p, numGames).value, numGames)
    requires Simulation(policy, s, dice, q, numGames).Some? && Stopped(Simulation(policy, s, dice, q, numGames).value, numGames)
    ensures Simulation(policy, s, dice, p, numGames) == Simulation(policy, s, dice, q, numGames)
  {
    SimulatorChoiceFixed(policy);
    RunDeterministic(SimulatorRule(policy), s, dice, p, q, numGames);
  }

  /** Started with its money in order, an agent keeps it in order over the
      whole run, and every bankroll the history records is not negative. */
  lemma {:induction false} RunSolvent(rule: Rule, s: AgentState, dice: seq<Roll>, games: seq<GamePicks>, numGames: int)
    requires KeepsSolvent(rule) && Solvent(s)
    requires RunWith(rule, s, dice, games, numGames).Some?
    ensures var r := RunWith(rule, s, dice, games, numGames).value;
      Solvent(r.state) && forall i | 0 <= i < |r.history| :: r.history[i] >= 0.0
    decreases |games|
  {
    if games != [] {
      var k := |games| - 1;
      RunSolvent(rule, s, dice, games[..k], numGames);
      var prev := RunWith(rule, s, dice, games[..k], numGames).value;
      GameWithSolvent(rule, prev.state, dice[prev.used..], games[k].picks, games[k].last);
    }
  }

  /** `simulate_agent` never records a negative bankroll and never leaves a
      bet below the table minimum, whatever the agent's kind and choices. */
  lemma SimulationSolvent(policy: Policy, s: AgentState, dice: seq<Roll>, games: seq<GamePicks>, numGames: int)
    requires Solvent(s)
    requires Simulation(policy, s, dice, games, numGames).Some?
    ensures var r := Simulation(policy, s, dice, games, numGames).value;
      Solvent(r.state) && forall i | 0 <= i < |r.history| :: r.history[i] >= 0.0
  {
    SimulatorKeepsSolvent(policy);
    RunSolvent(SimulatorRule(policy), s, dice, games, numGames);
  }

  // ---------------------------------------------------------------------
  // simulate_agent
  // ---------------------------------------------------------------------

  /** The run after `prev` and a game that ended as `p`: its bankroll is
      appended when it returned, otherwise the run ends with its outcome. */
  function Next(prev: Run, p: Played): Run
  {
    if p.outcome.Finished? then Run(prev.history + [p.outcome.bankroll], None, p.state, prev.used + p.used)
    else Run(prev.history, Some(p.outcome), p.state, prev.used + p.used)
  }

  /** One pass of the loop: a run that has not stopped, followed by a game
      the answers make, is the run one game longer. */
  lemma RunStep(rule: Rule, s: AgentState, dice: seq<Roll>, games: seq<GamePicks>, g: GamePicks, numGames: int, prev: Run, p: Played)
    requires RunWith(rule, s, dice, games, numGames) == Some(prev)
    requires !Stopped(prev, numGames)
    requires GameWith(rule, prev.state, dice[prev.used..], g.picks, g.last) == Some(p)
    ensures RunWith(rule, s, dice, games + [g], numGames) == Some(Next(prev, p))
  {
    RunWithSnoc(rule, s, dice, games, g, numGames);
    ExtendNext(rule, prev, dice, g, numGames, p);
  }

  /** A run one game longer extends the run before it. */
  lemma RunWithSnoc(rule: Rule, s: AgentState, dice: seq<Roll>, games: seq<GamePicks>, g: GamePicks, numGames: int)
    requires RunWith(rule, s, dice, games, numGames).Some?
    ensures RunWith(rule, s, dice, games + [g], numGames) == Extend(rule, RunWith(rule, s, dice, games, numGames).value, dice, g, numGames)
  {
    assert (games + [g])[..|games|] == games;
    assert (games + [g])[|games|] == g;
  }

  /** A game played after a run that has not stopped extends it by `Next`. */
  lemma ExtendNext(rule: Rule, prev: Run, dice: seq<Roll>, g: GamePicks, numGames: int, p: Played)
    requires prev.used <= |dice|
    requires !Stopped(prev, numGames)
    requires GameWith(rule, prev.state, dice[prev.used..], g.picks, g.last) == Some(p)
    ensures Extend(rule, prev, dice, g, numGames) == Some(Next(prev, p))
  {
  }

  /** `simulate_agent(agent, rng, num_games)` with the dice given, under a
      rule playing the simulator's turns. A game that raises or runs out of
      dice ends the loop with that outcome. */
  method SimulateAgent(agent: Agent, dice: seq<Roll>, numGames: int, ghost rule: Rule)
    returns (history: seq<real>, aborted: Option<Outcome>, used: nat, ghost games: seq<GamePicks>)
    requires agent.policy.QBistPolicy? ==> QBistAgent.WellShaped(agent.policy.sicFor)
    requires SimulatorTurns(rule, agent.policy)
    modifies agent, agent.actionGen
    ensures RunWith(rule, old(agent.State()), dice, games, numGames) == Some(Run(history, aborted, agent.State(), used))
    ensures Stopped(Run(history, aborted, agent.State(), used), numGames)
  {
    ghost var s0 := agent.State();
    history, aborted, used, games := [], None, 0, [];
    var n := 0;
    while n < numGames
      invariant n == |games| == |history|
      invariant used <= |dice|
      invariant RunWith(rule, s0, dice, games, numGames) == Some(Run(history, None, agent.State(), used))
      invariant n > 0 ==> Continues(agent.State())
      decreases numGames - n
    {
      ghost var prev := Run(history, None, agent.State(), used);
      var outcome, u, picks, last := PlayGame(agent, dice[used..], rule);
      ghost var next := Next(prev, Played(outcome, agent.State(), u));
      RunStep(rule, s0, dice, games, GamePicks(picks, last), numGames, prev, Played(outcome, agent.State(), u));
      games := games + [GamePicks(picks, last)];
      used := used + u;
      n := n + 1;
      if !outcome.Finished? {
        aborted := Some(outcome);
        assert next == Run(history, aborted, agent.State(), used);
        return;
      }
      history := history + [outcome.bankroll];
      assert next == Run(history, None, agent.State(), used);
      var goesOn := agent.CanContinue();
      if !goesOn {
        return;
      }
    }
  }
}
