# quantum_craps: the craps engine, its rule tables and its four agents

This project models the core of a craps simulator in Dafny and proves
properties of the model. The simulator plays games of craps for a betting
agent and records its bankroll after each game. A game has three phases:
come-out, point round, seven-out. There are four agents: random, classical,
quantum and QBist. They share a base agent (bankroll, bets, point, come
points). They differ in how they build the space of composite bets, pick one
and settle their bets.

The model covers:

- **Rule tables.**
  - The payout table, keyed by one-label bet tuples and an outcome, at true odds 2:1, 3:2 and 6:5.
  - The exact dice probabilities and the outcome table.
  - The win/lose probabilities of each kind of bet.
  - The legal odds amounts and the generator of atomic bet labels (`pass_line_odds_$2`, `come_flat`, `come_odds_$5_6`).
  - The label parser `parse_atomic`.
  - The alternative offer generator and the two matrix builders of the quantum utilities.
- **The game engine.**
  - Each agent is a `class` whose fields are those of the base agent. A `Policy` value says which of the four agents it is, with that agent's settings.
  - Every method is proved against a function on an `AgentState` value that mirrors the fields.
  - `play_game` runs over a finite sequence of dice sums in place of the random generator. Its loops are proved against `GameWith`, `PointRound` and `Walk`.
  - The earlier engine (`src/game_engine/game_engine.py`) is modelled beside it, with lemmas that say where the two agree and where they differ.
  - `simulate_agent` is the outer loop, proved against `RunWith`.
  - The money invariant `Solvent` holds for every agent kind and every choice. It says the table minimum and the bankroll are not negative and every bet is at least the minimum. Each step of a game keeps it (`ComeOutSolvent`, `PlacingSolvent`, `ResolveSolvent`, `SettleSolvent`, `TurnSolvent`), then the whole game (`GameSolvent`), then the whole run. So every bankroll the history records is non-negative (`SimulationSolvent`).
- **Agent operations.**
  - `update_action_space`: every combination of 1..K atomic labels, in `itertools` order.
  - `choose_action` for each agent:
    - classical: maximal expected value, ties broken by the smallest total wager;
    - random: any legal action;
    - quantum: the closed form k/d of `Tr(ρ E_A)` with ρ = I/d;
    - QBist: the urgleichung score over a given SIC-POVM, times the expected value, then the arg-max.
  - `place_bets` and `resolve_game` with the sign-of-payout rule.

Money and probabilities are exact `real`s. A Python exception is a value of
`Wrappers.Error`, returned in a `Result`.

Some behaviour is faithful to the code as written even where it looks unintended:

- `build_game_state` reads `bet['multiplier']` on bets typed exactly `pass_line_odds` and keys `come_odds_levels` by the integer point. The generator looks up the string of the point. So every come-odds amount is offered again.
- `parse_atomic` reads `pass_line_odds_$N` as a pass-line flat bet.
- The payout table has no plain `win` entry for any odds label. So the expected value of an odds label counts only its loss.
- The come-out probabilities used for flat bets are 8/36 to win and 4/36 to lose, as the code computes them. The comments next to them (≈0.4929 and ≈0.5071) describe whole-game pass-line odds, which the code does not compute.
- The earlier engine pays a pending come bet on every natural and never takes it down on craps.

## Model

| member | source | states |
|---|---|---|
| `AtomicActions.LegalOddsForPoint` | src/simulator/atomic_actions.py:5-20 | for an integer point the legal odds amounts are [d, 2d, 3d], with d = 1 for 4/10, 2 for 5/9 and 5 for 6/8, and [] for any other integer; the integer and its `str` are looked up alike |
| `AtomicActions.LegalOddsBetAmounts` | src/simulator/atomic_actions.py:16-20 | a string that is not a point gives []; the amounts are positive and strictly ascending |
| `AtomicActions.PointKey` | src/simulator/atomic_actions.py:5-12 | `str(p)` is a key of `POINT_DENOMINATORS` exactly when p is one of 4, 5, 6, 8, 9, 10 |
| `Text.IntToStringRoundTrip` | src/simulator/atomic_actions.py:18-19 | `str(p)` reads back as p, so the string lookup of a point is faithful to the point |
| `AtomicActions.PassLineOddsOffered` | src/simulator/atomic_actions.py:35-40 | `pass_line_odds_$A` is generated exactly for the legal amounts A at the current point that are not in `pass_line_odds_levels` |
| `AtomicActions.UnusedSpec` | src/simulator/atomic_actions.py:38-40 | the unused amounts are exactly the legal ones not already used, still in ascending order |
| `AtomicActions.ComeFlatOffered` | src/simulator/atomic_actions.py:42-45 | `come_flat` occurs at most once, and exactly when a point is set and `come_flat_active` is false |
| `AtomicActions.ComeOddsOffered` | src/simulator/atomic_actions.py:47-58 | `come_odds_$A_pt` is generated exactly when pt is an active come point and A is legal for it and not listed under the string key `str(pt)` |
| `AtomicActions.GeneratedLength` | src/simulator/atomic_actions.py:35-58 | the generated list has at most 4 + 3·(number of active come points) labels |
| `AtomicActions.IntKeyedLevelsIgnored` | src/simulator/atomic_actions.py:49-56 | levels stored under integer keys are never found by the string lookup, so every legal come-odds amount is offered |
| `AtomicActions.CollectPassLineOdds` | src/simulator/atomic_actions.py:36-40 | the pass-line odds loop builds the pass-line block |
| `AtomicActions.CollectComeOdds` | src/simulator/atomic_actions.py:52-58 | the inner come-odds loop builds one point's block |
| `AtomicActions.CollectAllComeOdds` | src/simulator/atomic_actions.py:48-58 | the outer loop concatenates the blocks in the order of the active come points |
| `AtomicActions.AtomicActionGenerator.constructor` | src/simulator/atomic_actions.py:24-26 | a new generator has an empty `latest_atomic_actions` |
| `AtomicActions.AtomicActionGenerator.GenerateAtomicActions` | src/simulator/atomic_actions.py:28-62 | returns the generated list; records it as `latest_atomic_actions` unless there is no point, in which case the field is unchanged and [] is returned |
| `Payouts.FlatPayouts` | src/simulator/payouts.py:3-11 | `pass_line_flat` and `come_flat` pay 1.0 on `win` and -1.0 on `lose` and `seven_out` |
| `Payouts.OddsWinPayouts` | src/simulator/payouts.py:25-43 | for point n with ratio num:denom and m in 1..3, the pass-line and come odds labels of m·denom dollars pay m·num under `win_n`, which is the stake times the true odds |
| `Payouts.TrueOddsRatio` | src/simulator/payouts.py:14-29 | the win payout over the stake is num/denom: 2 for 4/10, 3/2 for 5/9, 6/5 for 6/8 |
| `Payouts.OddsLosePayouts` | src/simulator/payouts.py:45-49 | under `lose` and `seven_out` every odds label loses exactly its dollar amount |
| `Payouts.AllEntriesConsistent` | src/simulator/payouts.py:25-49 | every key is written with a single value, though `$2` is written from both 4 and 5 and `$5` from both 6 and 8 |
| `Payouts.AnyOrderSameTable` | src/simulator/payouts.py:25-49 | writing the same entries in any order gives the same table, so the iteration order of `POINTS` does not matter |
| `Payouts.PayoutSigns` | src/simulator/payouts.py:3-49 | every `lose`/`seven_out` value is negative, every other value positive, and only the flat bets have a plain `win` entry |
| `Payouts.LookupEntry` | src/simulator/payouts.py:3-49 | looking up the key of any written entry gives that entry's value |
| `Payouts.WriteOddsEntries` | src/simulator/payouts.py:27-49 | one pass of the inner loop writes the six entries of one point and one multiplier |
| `Payouts.WritePointOdds` | src/simulator/payouts.py:26-49 | the inner loop writes the entries of multipliers 1, 2 and 3 of one point |
| `Payouts.BuildPayoutTable` | src/simulator/payouts.py:3-49 | the module-level construction yields `PayoutTable()` |
| `Probabilities.DiceDistribution` | src/simulator/probabilities.py:9-11 | P2..P12 are k/36 for k = 1,2,3,4,5,6,5,4,3,2,1 and add up to 1 |
| `Probabilities.ComeOutProbabilities` | src/simulator/probabilities.py:14-15 | the code's `P_WIN_CO` is 8/36 and `P_LOSE_CO` 4/36, leaving 24/36 |
| `Probabilities.HitOrSeven` | src/simulator/probabilities.py:28-29 | rolling the point before a 7 and a 7 before the point are complementary |
| `Probabilities.ComeOutOutcomes` | src/simulator/probabilities.py:32-38 | the outcome table maps `win` to 8/36, `lose` to 4/36 and `seven_out` to 24/36 |
| `Probabilities.PointOutcomes` | src/simulator/probabilities.py:41-47 | for each point n, `point_n` is pn, and `win_n` + `seven_out_n` = pn |
| `Probabilities.OutcomeKeys` | src/simulator/probabilities.py:32-47 | the table has no key besides `win`, `lose`, `seven_out` and the `point_n`, `win_n`, `seven_out_n` of the points |
| `Probabilities.WriteWinSeven` | src/simulator/probabilities.py:46-47 | one pass of the second loop writes `win_n` and `seven_out_n` |
| `Probabilities.WritePoints` | src/simulator/probabilities.py:41-42 | the first loop writes `point_n` for each point in turn |
| `Probabilities.WriteWinSevens` | src/simulator/probabilities.py:45-47 | the second loop completes the outcome table |
| `Probabilities.BuildOutcomeProbs` | src/simulator/probabilities.py:32-47 | the module-level construction yields `OutcomeProbs()` |
| `Probabilities.OddsWinProbabilities` | src/simulator/probabilities.py:56-59 | `_ODDS_P` has exactly the keys 4, 5, 6, 8, 9, 10, with 1/3 for 4/10, 2/5 for 5/9 and 5/11 for 6/8 |
| `Probabilities.OddsP` | src/simulator/probabilities.py:56-59 | every point of `POINT_PROBS` has an entry in `_ODDS_P` |
| `Probabilities.GetBetProbs` | src/simulator/probabilities.py:61-77 | odds bets fail exactly without a point (ValueError) or with a point not in the table (KeyError); otherwise the result is a `win`/`lose` pair, for odds bets p and 1 - p, and for any type other than the four bet kinds 0.5 and 0.5 |
| `Probabilities.FlatBetProbs` | src/simulator/probabilities.py:67-68 | flat bets get {win: 8/36, lose: 4/36} whatever the point |
| `AgentUtils.ParseFieldsSpec` | src/agents/utils.py:8-17 | the kind is decided by the first two fields in the order pl/odds, come/odds, pass/line, come/flat; only `come_odds` carries a point, the integer of the last field; a single field starting a kind raises IndexError; anything else unknown raises ValueError; every success is one of the four kinds |
| `AgentUtils.ParseAtomicCaseInsensitive` | src/agents/utils.py:8 | the lower-cased label parses to the same result, and a failing label fails with the same kind of exception |
| `AgentUtils.PassLineOddsParsesAsFlat` | src/agents/utils.py:13-14 | `pass_line_odds_$N` parses as (`pass_line_flat`, None) |
| `AgentUtils.ComeOddsParsesToPoint` | src/agents/utils.py:11-12 | `come_odds_$A_pt` parses as (`come_odds`, pt) |
| `AgentUtils.FlatLabelsParse` | src/agents/utils.py:13-16 | `come_flat` and `pass_line_flat` parse as their own kind with no point |
| `AgentUtils.ParseFieldsMessageOnly` | src/agents/utils.py:17 | only the message of the ValueError depends on the label as given; whether and how it parses does not |
| `Labels.ComeOddsLabelInjective` | src/simulator/atomic_actions.py:57 | a come-odds label determines its amount and its point string |
| `Labels.LabelKindsDiffer` | src/simulator/atomic_actions.py:40-57 | the pass-line odds, come-odds and flat labels never coincide |
| `SimulatorEngine.OddsPayTrueOdds` | src/simulator/game_engine.py:12-23 | the odds payout ratio is positive exactly on the points and 0 elsewhere; it times the chance of rolling the point first equals the chance of the 7 first |
| `SimulatorEngine.ComeOutSpec` | src/simulator/game_engine.py:84-96 | the come-out round pays the naturals it reads and stops at the first other roll: craps ends the game, a point number becomes the point |
| `SimulatorEngine.MoveComeBetsSpec` | src/simulator/game_engine.py:144-159 | after any roll no come bet is pending: on 7/11 or 2/3/12 the pending bets leave and the others stay; on any other number each pending bet takes the roll as its point, which becomes an active come point; only a natural pays |
| `SimulatorEngine.MovedDrops` | src/simulator/game_engine.py:144-155 | on a natural or craps a bet remains exactly when it was not a pending come bet |
| `SimulatorEngine.MovedCarries` | src/simulator/game_engine.py:144-159 | on a point number every bet keeps its place and each pending come bet takes the roll as its point |
| `SimulatorEngine.TraveledSpec` | src/simulator/game_engine.py:156-159 | the roll becomes an active come point exactly when it is a point number and some come bet was pending |
| `SimulatorEngine.SettleSpec` | src/simulator/game_engine.py:124-159 | with non-negative amounts a roll other than 7 never takes money from the bankroll, making the point pays at least the table minimum, and no come bet is left pending |
| `SimulatorEngine.GameEnds` | src/simulator/game_engine.py:64-161 | a game returns the bankroll and ends only after a come-out craps, a seven-out, or when the agent cannot continue; it runs out of dice only after using all of them |
| `SimulatorEngine.ComeOutSolvent` | src/simulator/game_engine.py:68-96 | a new game, the pass-line bet of the minimum and the come-out naturals keep the table minimum and the bankroll non-negative and every bet at least the minimum |
| `SimulatorEngine.PlacingSolvent` | src/agents/qbist_agent.py:101-111 | either kind of staking, the flat one or the classical agent's, adds only bets of at least the table minimum and never makes the bankroll negative |
| `SimulatorEngine.ResolveSolvent` | src/agents/random_agent.py:67-87 | resolving keeps only bets that were already on the table and does not lower the bankroll, so the invariant survives a seven-out |
| `SimulatorEngine.MovedKeepsAmounts` | src/simulator/game_engine.py:144-159 | moving the come bets changes no amount: a lower bound under the old amounts bounds the new ones |
| `SimulatorEngine.SettleSolvent` | src/simulator/game_engine.py:123-159 | settling a roll other than 7 keeps the bankroll non-negative and every bet at least the minimum |
| `SimulatorEngine.TurnSolvent` | src/simulator/game_engine.py:99-159 | one pass of the point-round loop keeps the invariant, and a pass that finishes the game returns the agent's bankroll |
| `SimulatorEngine.SimulatorKeepsSolvent` | src/simulator/game_engine.py:99-159 | the simulator's turns keep the invariant for every state, choice and roll |
| `SimulatorEngine.WalkSolvent` | src/simulator/game_engine.py:99-159 | the point-round passes that go on keep the invariant |
| `SimulatorEngine.GameWithSolvent` | src/simulator/game_engine.py:64-161 | under turns that keep the invariant a game ends with it, and a finished game returns the agent's bankroll, which is not negative |
| `SimulatorEngine.GameSolvent` | src/simulator/game_engine.py:64-161 | for every agent kind and every choice, `play_game` from a non-negative bankroll with bets of at least the minimum ends the same way and returns a non-negative bankroll |
| `SimulatorEngine.TurnEnds` | src/simulator/game_engine.py:99-121 | a turn ends the game without a roll only when the agent cannot continue, and after a roll only on a 7 |
| `SimulatorEngine.GameDeterministic` | src/simulator/game_engine.py:64-161 | given the dice, the classical, quantum and QBist agents play one game only |
| `SimulatorEngine.GameAtComeOut` | src/simulator/game_engine.py:84-96 | a game that does not set a point ends after the come-out: finished on craps with the bankroll, out of dice otherwise |
| `SimulatorEngine.GameAtPoint` | src/simulator/game_engine.py:96-121 | a game that sets a point ends as its point round does, counting the come-out dice |
| `SimulatorEngine.GameOf` | src/simulator/game_engine.py:99-159 | any rule playing the simulator's turns plays its games |
| `SimulatorEngine.PayPassLineOdds` | src/simulator/game_engine.py:127-131 | the loop adds the odds payout of each bet typed exactly `pass_line_odds` and changes nothing else |
| `SimulatorEngine.PayComeHits` | src/simulator/game_engine.py:134-141 | the loop pays `come_flat` 1:1 and `come_odds` at true odds for bets on the rolled number, keeping them |
| `SimulatorEngine.SettleComeBet` | src/simulator/game_engine.py:145-159 | one pending come bet is paid and removed on a natural, removed on craps, or given the roll as point and come point |
| `SimulatorEngine.SettleComeBets` | src/simulator/game_engine.py:144-159 | the loop over the copy of the bets moves the pending come bets |
| `SimulatorEngine.SettleRoll` | src/simulator/game_engine.py:124-159 | the three settling steps of a roll other than 7, in order |
| `SimulatorEngine.ComeOutPhase` | src/simulator/game_engine.py:82-96 | the come-out loop reads the dice of `ComeOutRound` and leaves the agent paid and holding the point |
| `SimulatorEngine.PlayTurn` | src/simulator/game_engine.py:99-159 | one pass of the point-round loop plays the rule's turn |
| `SimulatorEngine.PlayPointRound` | src/simulator/game_engine.py:99-161 | the point-round loop plays turns until one ends the game |
| `SimulatorEngine.StartGame` | src/simulator/game_engine.py:68-96 | a new game, the pass-line bet, then the come-out loop |
| `SimulatorEngine.PlayGame` | src/simulator/game_engine.py:64-161 | `play_game` with the dice given ends as `GameWith` says, with the agent in the state it gives |
| `TableState.BuildGameStateRaises` | src/simulator/game_engine.py:35-59 | `build_game_state` raises KeyError on `multiplier` exactly when a bet typed `pass_line_odds`, or typed `come_odds` on an active come point, has no multiplier |
| `TableState.BuildGameStateFields` | src/simulator/game_engine.py:29-50 | a built state holds the sorted pass-line odds multipliers, `come_flat_active` when any bet is typed `come_flat`, the come points ascending, the point and the table minimum |
| `TableState.PassLevelsSorted` | src/simulator/game_engine.py:35-38 | the pass-line odds levels are ascending, one per bet typed `pass_line_odds` |
| `TableState.PassLevelsMembers` | src/simulator/game_engine.py:35-38 | the pass-line odds levels are the multipliers of the bets typed `pass_line_odds` |
| `TableState.MultipliersSpec` | src/simulator/game_engine.py:36 | reading the multipliers fails exactly when some bet has none; otherwise one per bet, and exactly the bets' multipliers |
| `TableState.ComeLevelsMembers` | src/simulator/game_engine.py:55-59 | one point's come-odds levels are its come-odds multipliers, ascending and without repeats |
| `TableState.BuildGameStateLevels` | src/simulator/game_engine.py:54-59 | the come-odds levels are keyed by the integer point, one entry per come point |
| `TableState.BuiltStateReoffersComeOdds` | src/simulator/game_engine.py:59 | because of the integer keys, every legal come-odds amount on an active come point is offered again, whatever has been bet |
| `TableState.FillComeLevels` | src/simulator/game_engine.py:54-59 | the loop over the sorted come points fills one entry per point, stopping at the first that raises |
| `TableState.BuildGameStateLoop` | src/simulator/game_engine.py:26-61 | `build_game_state` as it runs gives `BuildGameState` |
| `LegacyEngine.LegacyPendingStays` | src/game_engine/game_engine.py:77-83 | on 7/11 or 2/3/12 the bets and come points are untouched, so a pending come bet stays; only a natural pays it |
| `LegacyEngine.LegacyMovesOnPoints` | src/game_engine/game_engine.py:84-86 | on a point number the earlier engine moves come bets as the simulator does |
| `LegacyEngine.LegacySettleAgrees` | src/game_engine/game_engine.py:62-86 | the engines settle a roll alike on a point number, and on a natural or craps exactly when no come bet is pending |
| `LegacyEngine.LegacyNoActionEnds` | src/game_engine/game_engine.py:45-48 | when the agent chooses nothing the game ends without a roll and returns the bankroll |
| `LegacyEngine.TurnsAgree` | src/game_engine/game_engine.py:40-67 | with a non-empty choice and a roll of 7 or a point number, the two engines play the same turn |
| `LegacyEngine.LegacyStart` | src/game_engine/game_engine.py:15-19 | placing the pass-line bet before resetting the point and come points gives the simulator's start |
| `LegacyEngine.LegacyGameOf` | src/game_engine/game_engine.py:14-88 | any rule playing the earlier engine's turns plays its games |
| `LegacyEngine.LegacyMoved` | src/game_engine/game_engine.py:77-86 | the earlier engine keeps every bet, in place, moving each one by itself |
| `LegacyEngine.LegacySettleComeBet` | src/game_engine/game_engine.py:78-86 | one pending come bet is paid on a natural, left alone on craps, or given a point number as point and come point |
| `LegacyEngine.LegacySettleComeBets` | src/game_engine/game_engine.py:77-86 | the loop over the bets gives `LegacyMoveComeBets`; every bet keeps its place |
| `LegacyEngine.LegacySettleRoll` | src/game_engine/game_engine.py:62-86 | the three settling steps of a roll other than 7 |
| `LegacyEngine.PlayLegacyTurn` | src/game_engine/game_engine.py:40-86 | one pass of the earlier point-round loop plays the rule's turn |
| `LegacyEngine.PlayLegacyPointRound` | src/game_engine/game_engine.py:40-88 | the earlier point-round loop plays turns until one ends the game |
| `LegacyEngine.PlayLegacyGame` | src/game_engine/game_engine.py:14-88 | the earlier `play_game` ends as `GameWith` says under its rule, returning the bankroll |
| `Simulator.HistoryBound` | src/simulator/simulator.py:8-9 | the history has at most `num_games` entries, and `num_games <= 0` plays no game |
| `Simulator.RunWith` | src/simulator/simulator.py:9-13 | a run never uses more dice than given, and plays one game per history entry plus one that did not return |
| `Simulator.HistoryIsBankrolls` | src/simulator/simulator.py:11-13 | entry i of the history is the bankroll the i-th game returned |
| `Simulator.RunSolvent` | src/simulator/simulator.py:5-19 | under turns that keep the invariant, every recorded bankroll is non-negative and the agent ends the run with a non-negative bankroll and bets of at least the minimum |
| `Simulator.SimulationSolvent` | tests/test_full_simulation.py:38-50 | for every agent kind and every choice, each entry of the history is at least 0 and every bet left on the table is at least the table minimum |
| `Simulator.EarlyStop` | src/simulator/simulator.py:9-17 | a history shorter than `num_games` means the last game left the agent unable to continue and every earlier game left it able |
| `Simulator.RunPrefix` | src/simulator/simulator.py:9-17 | every prefix of a run is a run, and the loop had not stopped before any game it played |
| `Simulator.RunStep` | src/simulator/simulator.py:9-17 | a pass of the loop after a run that has not stopped appends the returned bankroll, or ends the run with the game that did not return |
| `Simulator.RunDeterministic` | src/simulator/simulator.py:9-17 | under a rule whose turns do not depend on the pick, one dice sequence gives one history |
| `Simulator.SimulationDeterministic` | src/simulator/simulator.py:5-19 | the classical, quantum and QBist agents have one history for given dice |
| `Simulator.SimulateAgent` | src/simulator/simulator.py:5-19 | the loop threads one dice sequence through the games, appends each returned bankroll, stops after the first game that leaves the agent unable to continue, and ends in a stopped run |
| `Agents.Agent.constructor` | src/agents/base_agent.py:12-22 | bankroll and initial bankroll are the starting bankroll; no bets, legal actions or come points; no point |
| `Agents.NewGameSpec` | src/agents/base_agent.py:24-30 | `start_new_game` clears bets, legal actions and come points and the point, keeps bankroll, initial bankroll and table minimum, and is idempotent |
| `Agents.Agent.StartNewGame` | src/agents/base_agent.py:24-30 | the fields become `NewGame` of the old ones |
| `Agents.WalkawayIgnored` | src/agents/base_agent.py:62-70 | `can_continue` holds iff bankroll >= table minimum; the walk-away threshold has no effect |
| `Agents.Agent.AdjustBankroll` | src/agents/base_agent.py:73-75 | adds the amount to the bankroll and changes nothing else |
| `Agents.PassLineSpec` | src/agents/classical_agent.py:23-27 | the flat bet of the table minimum is placed exactly when the bankroll covers it; the money moves from the bankroll to the table |
| `Agents.Agent.PlacePassLineBet` | src/agents/random_agent.py:25-29 | the fields become `PassLine` of the old ones |
| `Agents.UpdateActionsSpec` | src/agents/random_agent.py:31-44 | the legal actions are exactly the order-preserving selections of 1..min(n, K) generated labels, Σ C(n, r) of them; bets and bankroll are kept, and updating a second time changes nothing |
| `Agents.Agent.UpdateActionSpace` | src/agents/quantum_agent.py:26-34 | the new state is `UpdateActions`; a state that raises leaves the agent unchanged and reports the exception |
| `Agents.ChoiceIsLegal` | src/agents/random_agent.py:46-50 | a chosen action is a legal one; no legal action gives None, and None means no legal action or, for the classical agent, none affordable |
| `Agents.Agent.ChooseAction` | src/agents/qbist_agent.py:54-99 | the answer is what `Chose` allows for the agent's kind |
| `Agents.PlacedSpec` | src/agents/random_agent.py:60-65 | the staking loop places a bet while the bankroll covers the minimum and stops at the first label it does not |
| `Agents.StakeSpec` | src/agents/qbist_agent.py:101-111 | staking moves money from the bankroll to the table, never makes a non-negative bankroll negative, and appends the first labels lower-cased at the table minimum |
| `Agents.ClassicalStakesCovered` | src/agents/classical_agent.py:92-103 | the classical staking never pays more than the bankroll holds |
| `Agents.ClassicalStakesFromLabels` | src/agents/classical_agent.py:92-103 | every placed bet is one of the labels at its own amount, at least the table minimum |
| `Agents.ClassicalPlaceSpec` | src/agents/classical_agent.py:89-103 | money moves from bankroll to table, a non-negative bankroll stays so, an unaffordable action is rejected as a whole, and the old bets stay in front |
| `Agents.Agent.PlaceBets` | src/agents/quantum_agent.py:82-90 | the classical agent's state becomes `ClassicalPlace`, the others' `Stake` |
| `Agents.Agent.PlaceStakes` | src/agents/random_agent.py:52-65 | the staking loop of the random, quantum and QBist agents gives `Stake` |
| `Agents.Agent.PlaceClassical` | src/agents/classical_agent.py:89-103 | the classical staking loop gives `ClassicalPlace` |
| `Agents.ResolveSpec` | src/agents/random_agent.py:67-87 | exactly the bets with a non-negative payout stay, in their order; with non-negative amounts the bankroll does not fall; a table with no entry for any bet changes nothing |
| `Agents.SevenOutSpec` | src/agents/quantum_agent.py:92-102 | a seven-out removes exactly the bets the payout table prices for `seven_out` and pays nothing |
| `Agents.Agent.ResolveGame` | src/agents/classical_agent.py:125-135 | the state becomes `Resolve` under the payout each agent looks up |
| `Agents.Agent.ResolveBy` | src/agents/qbist_agent.py:113-123 | the loop of `resolve_game` gives `Resolve` for the given payouts |
| `Combinations.CombosCount` | src/agents/classical_agent.py:107-111 | there are C(n, r) combinations of size r |
| `Combinations.CombosMembers` | src/agents/classical_agent.py:107-111 | the combinations of size r are exactly the order-preserving selections of size r |
| `Combinations.SubseqDistinct` | src/agents/classical_agent.py:107-111 | a selection from a list without repeats has no repeats |
| `Combinations.CompositesSpec` | src/agents/classical_agent.py:107-111 | the composite actions number Σ_{r=1..min(n,K)} C(n, r), are exactly the selections of 1..min(n, K) labels, and repeat no label when the atomic list does not |
| `Combinations.EnumerateComposites` | src/agents/classical_agent.py:107-111 | the enumeration loop yields `Composites` |
| `ClassicalState.ExtractOddsAmountOfLabel` | src/agents/classical_agent.py:113-115 | `_extract_odds_amount` reads back the amount of a pass-line odds label |
| `ClassicalState.LeadingDigitsOf` | src/agents/classical_agent.py:114 | the greedy `\d+` reads a digit run exactly up to the first non-digit |
| `ClassicalState.ParseComeOddsOfLabel` | src/agents/classical_agent.py:117-123 | `_parse_come_odds` reads back the amount and point of a come-odds label |
| `ClassicalState.ParseComeOddsParts` | src/agents/classical_agent.py:117-123 | the match is the prefix, a digit run, `_`, and the point alternation tried in order; otherwise (None, None) |
| `ClassicalState.ClassicalGameStateRaises` | src/agents/classical_agent.py:30-35 | building the classical state raises TypeError exactly when two or more bets are typed `pass_line_odds_...` and one has no readable amount |
| `ClassicalState.ClassicalGameStateFields` | src/agents/classical_agent.py:29-51 | the classical state holds the amounts read from the pass-line odds types, `come_flat_active` for a come bet without point, the come points and the levels by string key |
| `ClassicalState.ClassicalComeLevelsSpec` | src/agents/classical_agent.py:43-49 | a key is present exactly when some come-odds bet is filed under it, holding their amounts in bet order |
| `ClassicalState.UsedPassOddsNotReoffered` | src/agents/classical_agent.py:29-52 | a pass-line odds bet the agent placed is not offered again |
| `ClassicalState.UsedComeOddsNotReoffered` | src/agents/classical_agent.py:29-52 | a come-odds bet the agent placed is filed under the point's string, so it is not offered again |
| `ClassicalState.CollectComeLevels` | src/agents/classical_agent.py:43-49 | the loop over the bets fills `come_odds_levels` |
| `ClassicalChoice.OutcomeProbsOrDefault` | src/agents/classical_agent.py:13-16 | a missing or empty outcome table falls back to {win: 0.4929, lose: 0.5071} |
| `ClassicalChoice.DefaultOutcomeProbsSum` | src/agents/classical_agent.py:15 | the default probabilities add up to 1, losing more likely than winning |
| `ClassicalChoice.ExpectedValueAdditive` | src/agents/classical_agent.py:80-87 | the expected value of a combo is the sum of its parts' |
| `ClassicalChoice.ExpectedValueMissing` | src/agents/classical_agent.py:80-87 | a label with no key in the table adds nothing |
| `ClassicalChoice.ExpectedValueEmpty` | src/agents/classical_agent.py:80-87 | the empty combo is worth 0 |
| `ClassicalChoice.ComputeExpectedValue` | src/agents/classical_agent.py:80-87 | the two nested loops give `ExpectedValue` |
| `ClassicalChoice.BestActionsSpec` | src/agents/classical_agent.py:61-70 | the arg-max loop ends with the largest value and exactly the actions that reach it, in order |
| `ClassicalChoice.TotalWagerSpec` | src/agents/classical_agent.py:73-76 | the total wager is the labels' amounts plus the committed flat bets, defined exactly when every label has an amount |
| `ClassicalChoice.CommittedFlatOnly` | src/agents/classical_agent.py:75 | only flat bets count as committed |
| `ClassicalChoice.MinIndexSpec` | src/agents/classical_agent.py:78 | `min` raises TypeError exactly when a key cannot be computed, and otherwise picks the first action of smallest key |
| `ClassicalChoice.ClassicalChooseNone` | src/agents/classical_agent.py:55-59 | the choice is None exactly when there is no legal action or none is affordable |
| `ClassicalChoice.ClassicalChooseBest` | src/agents/classical_agent.py:61-78 | a chosen action has maximal expected value over all legal actions, and no other such action has a smaller total wager |
| `ClassicalChoice.ClassicalChooseError` | src/agents/classical_agent.py:73-78 | the choice fails only with the TypeError of a best action whose wager cannot be summed |
| `ClassicalChoice.ChoiceIgnoresAffordability` | src/agents/classical_agent.py:57-64 | the arg-max runs over every legal action, so an unaffordable action can be chosen |
| `ClassicalChoice.ChooseClassical` | src/agents/classical_agent.py:54-78 | the arg-max loop and `min` give `ClassicalChoose` |
| `ClassicalValue.ClassicalEvAppend` | src/agents/quantum_agent.py:37-47 | `classical_ev` adds over the labels; the first label that fails decides the exception |
| `ClassicalValue.SumValuesAppend` | src/agents/quantum_agent.py:39-46 | the sum over a concatenation is the sum of the sums, an exception of the first part winning |
| `ClassicalValue.ClassicalEvDefined` | src/agents/qbist_agent.py:21-31 | `classical_ev` is defined exactly when each label parses and has probabilities |
| `ClassicalValue.LabelEvBy` | src/agents/quantum_agent.py:40-46 | a label's value is its probabilities times its payouts, with the current point as fallback |
| `ClassicalValue.FlatLabelEv` | src/agents/quantum_agent.py:40-46 | the flat labels are worth 1/9 of a unit whatever the point |
| `ClassicalValue.PassLineOddsLabelEv` | src/agents/quantum_agent.py:40-46 | a pass-line odds label of A dollars is worth -A/9, since it parses as flat and has no `win` entry |
| `ClassicalValue.ComeOddsLabelEv` | src/agents/quantum_agent.py:40-46 | a come-odds label of A dollars on pt is worth -(1 - p)·A < 0, p the chance of rolling pt first |
| `ClassicalValue.OddsLabelsMissWin` | src/simulator/payouts.py:3-49 | no label other than the two flat ones pays anything under a plain `win` |
| `ClassicalValue.ComputeClassicalEv` | src/agents/quantum_agent.py:37-47 | the two loops of `classical_ev` give `ClassicalEv` |
| `ClassicalValue.SumLabels` | src/agents/quantum_agent.py:39-46 | the outer loop over the labels gives `SumValues` |
| `ClassicalValue.ComputeLabelEv` | src/agents/quantum_agent.py:40-46 | the body of the outer loop gives one label's value |
| `ClassicalValue.ComputeOutcomeTerms` | src/agents/quantum_agent.py:44-46 | the inner loop over the outcomes gives `OutcomeTerms` |
| `QuantumAgent.QuantumDim` | src/agents/quantum_agent.py:55-56 | d <= n; d = n when there is no cap, a cap of 0 or a cap of at least n; negative only for a negative cap |
| `QuantumAgent.AtomicSet` | src/agents/quantum_agent.py:55 | `sorted(set(...))` of the legal actions' labels: strictly ascending, exactly the labels used |
| `QuantumAgent.ActionVector` | src/agents/quantum_agent.py:62-67 | one entry per kept dimension, set exactly when that label is in the combo |
| `QuantumAgent.ScoreBounds` | src/agents/quantum_agent.py:57-71 | a score lies in [0, 1], is positive exactly when the combo uses a kept label, and is 1 exactly when it uses all |
| `QuantumAgent.ScoreMonotone` | src/agents/quantum_agent.py:57-71 | a combo using every label another uses scores at least as high |
| `QuantumAgent.QuantumChooseSpec` | src/agents/quantum_agent.py:50-80 | None exactly without legal actions, an exception only for a negative cap, otherwise the first legal action using the most of the d kept labels |
| `QuantumAgent.UncappedScoresCountLabels` | src/agents/quantum_agent.py:55-71 | with no cap every label of every action is kept |
| `QuantumAgent.BuildActionVector` | src/agents/quantum_agent.py:62-67 | the loop sets entry k exactly when the k-th kept label is in the combo |
| `QuantumAgent.TraceScore` | src/agents/quantum_agent.py:68-70 | `Tr(ρ E_A)` with ρ = I/d is the number of set entries over d |
| `QuantumAgent.ScoreActions` | src/agents/quantum_agent.py:59-71 | the scoring loop yields one score per legal action |
| `QuantumAgent.ChooseQuantum` | src/agents/quantum_agent.py:50-80 | `choose_action` as it runs gives `QuantumChoose` |
| `Scoring.NormalizedArgmax` | src/agents/quantum_agent.py:73-79 | normalising keeps the arg-max when the total is positive, and the uniform fallback picks position 0 |
| `Scoring.NonNegativeArgmax` | src/agents/quantum_agent.py:73-80 | with non-negative scores the choice is the first best raw score |
| `Scoring.FirstArgmaxSpec` | src/agents/qbist_agent.py:99 | `np.argmax` gives the first position of the largest value |
| `Scoring.FirstMaxUnique` | src/agents/quantum_agent.py:79 | there is only one first maximum |
| `QBistAgent.LoadSic` | src/utils/sic_utils.py:4-8 | NotImplementedError exactly outside 2 <= d <= 10 |
| `QBistAgent.QBistDim` | src/agents/qbist_agent.py:59-60 | d = min(number of atomic labels, `max_dim`) |
| `QBistAgent.UrgleichungSplit` | src/agents/qbist_agent.py:82-85 | the urgleichung sum is (d + 1)·Σ overlap_i·p_i - (Σ p_i)/d |
| `QBistAgent.UnusedActionQScore` | src/agents/qbist_agent.py:74-85 | an action using none of the kept labels scores -(Σ p_i)/d |
| `QBistAgent.ProbsAddUp` | src/agents/qbist_agent.py:66-69 | each p_i is the trace of H_i over d, so a POVM's probabilities add up to 1 |
| `QBistAgent.ActionScoreSpec` | src/agents/qbist_agent.py:88-90 | an action's score is its qscore times `classical_ev`, whose exception passes through |
| `QBistAgent.QBistScoresSpec` | src/agents/qbist_agent.py:71-90 | the scores are defined exactly when every expected value is, the k-th being the k-th action's qscore times its expected value |
| `QBistAgent.ScoreAllDefined` | src/agents/qbist_agent.py:71-90 | the scoring loop succeeds exactly when every action's score does |
| `QBistAgent.QBistChooseDimension` | src/agents/qbist_agent.py:55-63 | None exactly without legal actions; a dimension outside 2..10 raises NotImplementedError before any action is valued |
| `QBistAgent.SingleAtomicBetFails` | src/agents/qbist_agent.py:59-63 | with a single distinct label the agent raises NotImplementedError(1) |
| `QBistAgent.QBistChooseSelection` | src/agents/qbist_agent.py:92-99 | the choice is the first best score when the scores add up to more than 0, otherwise the first legal action |
| `QBistAgent.TraceOverRho` | src/agents/qbist_agent.py:69 | `Tr(ρ H_i)` is computed as `Prob` |
| `QBistAgent.ComputeProbs` | src/agents/qbist_agent.py:66-69 | `p_H` holds one probability per SIC element |
| `QBistAgent.ActionOverlap` | src/agents/qbist_agent.py:79-84 | `Tr(E_A H_i)` with `E_A` the outer product of the action vector |
| `QBistAgent.Coherence` | src/agents/qbist_agent.py:82-85 | the urgleichung loop gives `QScore` |
| `QBistAgent.ScoreCombo` | src/agents/qbist_agent.py:72-90 | the body of the scoring loop gives `ActionScore` |
| `QBistAgent.ScoreQBist` | src/agents/qbist_agent.py:71-90 | the scoring loop gives `QBistScores` |
| `QBistAgent.ChooseQBist` | src/agents/qbist_agent.py:54-99 | `choose_action` as it runs gives `QBistChoose` |
| `QuantumUtils.NothingWithoutPoint` | src/utils/quantum_utils.py:8-36 | without a point and without come points nothing is offered |
| `QuantumUtils.OffersLength` | src/utils/quantum_utils.py:8-36 | with m odds multipliers, at most m + 1 + m·(number of come points) offers: 4 + 3·n with the defaults |
| `QuantumUtils.PassOddsOffered` | src/utils/quantum_utils.py:11-17 | pass-line odds are offered exactly when a point is established and no `pass_line_odds` bet exists, at each multiple of the table minimum |
| `QuantumUtils.ComeFlatOffered` | src/utils/quantum_utils.py:19-24 | a come bet of the table minimum is offered exactly when a point is established, and then once |
| `QuantumUtils.ComeOddsOffered` | src/utils/quantum_utils.py:26-34 | come odds on pt are offered exactly when pt is active and not yet backed by a `come_odds` bet on it |
| `QuantumUtils.DefaultAmounts` | src/utils/quantum_utils.py:3-33 | with the default multipliers every offer is 1, 2 or 3 table minimums, hence positive |
| `QuantumUtils.OtherOffer` | src/utils/quantum_utils.py:19-24 | the only offer that is not an odds bet is the come bet of one table minimum |
| `QuantumUtils.GetLegalAtomicBets` | src/utils/quantum_utils.py:3-36 | the loops give `LegalAtomicBets` |
| `QuantumUtils.AppendOffers` | src/utils/quantum_utils.py:13-24 | one offer loop appends `Offers` of its kind |
| `QuantumUtils.AppendComeOdds` | src/utils/quantum_utils.py:27-34 | the come-odds loops append the blocks of the come points in order |
| `QuantumUtils.DensityMatrix` | src/utils/quantum_utils.py:38-42 | numpy refuses exactly a negative size; otherwise the matrix is d x d |
| `QuantumUtils.DensityMatrixIsState` | src/utils/quantum_utils.py:38-42 | the matrix has 1/d on the diagonal and 0 elsewhere, and trace 1 |
| `QuantumUtils.MixedStateProbability` | src/utils/quantum_utils.py:38-42 | under the maximally mixed state `Tr(ρ H)` is the trace of H over d |
| `QuantumUtils.PovmElementSpec` | src/utils/quantum_utils.py:44-52 | the element is diagonal with 1 exactly where an index points (negative ones from the end), and fails exactly on a negative size or an out-of-range index |
| `QuantumUtils.AxisIndex` | src/utils/quantum_utils.py:50-51 | a numpy index is valid exactly in -d..d-1, and lands on itself or itself plus d |
| `QuantumUtils.PovmDuplicate` | src/utils/quantum_utils.py:44-52 | repeating an index changes nothing |
| `QuantumUtils.ConstructPovmElement` | src/utils/quantum_utils.py:44-52 | the array after the loop holds `PovmElement`, or the same exception is raised |

## Left out

- Random numbers: `roll_dice` draws from a generator. Here the dice are an input sequence of sums in 2..12, read in order. `OutOfDice` is an outcome only because that sequence is finite.
- `random.choice` of the random agent: any legal action may be returned. No distribution is modelled.
- The SIC-POVM library (`qbism.sic_povm`) is not part of this model. The QBist agent takes its elements as a given function of the dimension, and they are assumed to be d x d real matrices. Complex entries and the `Qobj` conversion are left out.
- numpy matrices are sequences of reals or `array`/`array2` values of `real`. The quantum agent's complex vector is a vector of booleans, since its entries are only ever 0 or 1.
- Floating point: probabilities, the 1.5/1.2 odds factors, and comparisons of expected values with `==` are exact reals. Rounding, and ties that rounding would break, are not modelled.
- The classical agent's `can_afford_action`, `_get_bet_amount`, `_extract_come_point`, `lookup_payout` and `self.payout_table` are used but never defined or stored by the repository. They are fields of `ClassicalChoice.ClassicalHelpers`, given at construction, with no contract.
- Exceptions are `Result` values. `Simulator.SimulateAgent` ends with the exception as `aborted` instead of propagating it to its caller.
- Python `int()` parsing: `ParseInt` accepts an optional `-` or `+` followed by decimal digits. Surrounding whitespace, underscores and non-ASCII digits are not accepted.
- Python `str.lower()`: `Text.Lower` folds the ASCII letters A-Z only. Python folds every Unicode letter. This affects `parse_atomic` (src/agents/utils.py:8) and the payout-table lookups of the agents (src/agents/quantum_agent.py:45, src/agents/classical_agent.py:85) on labels with non-ASCII capitals. The labels the generators produce are ASCII.
- AgentUtils.ParseAtomicCaseInsensitive: the docstring examples with upper-case letters (`Come_Odds_3x_on_8`, `Come_Flat`) are covered by the general case-insensitivity lemma, not stated one by one.
- `list.remove(bet)` removes the first equal bet. The model removes the bet at hand. An equal bet earlier in the list is also pending and settles the same way on that roll, so the resulting list is the same.
- The Python dictionaries `PAYOUT_TABLE`, `OUTCOME_PROBS` and the game-state dictionary are Dafny maps and records. Insertion order is kept only where the code iterates over it: the outcome tables are ordered pairs.
- Python `set` iteration order: `get_legal_atomic_bets` iterates `active_come_points` in an order given as a parameter.
- `src/game_engine.py`, a print-driven demo, is not part of this model. Neither are the configuration, export and plotting scripts, or the tests.
- The agents' `name`, `flat_bets` and `walkaway_threshold` are stored but play no part in any decision. `walkaway_threshold` is kept and shown to have no effect.
