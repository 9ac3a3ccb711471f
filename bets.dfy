/** A bet on the table, as the agents and the engine store it. */
module Bets {
  import opened Wrappers

  /** A bet dictionary: its `type`, its `amount`, its `point` (absent until
      a come bet travels to its number) and its `multiplier` (never written
      by the agents). An absent key and a key holding `None` read the same
      through `get`. */
  datatype Bet = Bet(kind: string, amount: real, point: Option<int>, multiplier: Option<int>)

  /** `{'type': kind, 'amount': amount}` */
  function PlainBet(kind: string, amount: real): Bet
  {
    Bet(kind, amount, None, None)
  }

  /** A come bet waiting for its point: typed `come_flat`, no `point` key. */
  predicate PendingCome(b: Bet)
  {
    b.kind == "come_flat" && b.point.None?
  }
}
