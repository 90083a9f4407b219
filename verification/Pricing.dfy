// The price rule: what the next challenger of a board has to offer.
module Pricing {
  import opened Base

  /** The part of the board rules that the protocol reads. */
  datatype BoardRules = BoardRules(increment: nat, displaySeconds: nat, biddingEnabled: bool)

  function EffectiveHighBid(current: nat, pending: nat): nat {
    if current < pending then pending else current
  }

  function MinimumTakeover(current: nat, rules: BoardRules, pending: nat): nat {
    var high := EffectiveHighBid(current, pending);
    if high == 0 then rules.increment else high + rules.increment
  }

  /**
   The empty-board branch of the price rule agrees with the general one, and an amount clears the
   price exactly when it beats both the live amount and the challenger by a full increment.
   */
  lemma ClearsPriceIffBeatsBoth(amount: int, current: nat, rules: BoardRules, pending: nat)
    ensures amount >= MinimumTakeover(current, rules, pending)
       <==> amount >= current + rules.increment && amount >= pending + rules.increment
  {
  }

  /** Whole dollars become cents; anything with a fraction of a dollar is refused. */
  function DollarsToCents(amount: real): Tx<int> {
    if amount != amount.Floor as real then Abort(NotWholeDollars)
    else Commit(amount.Floor * 100)
  }

  /** Conversion is exact on every whole-dollar amount, and no other amount converts. */
  lemma CentsAreExact(amount: real, dollars: int)
    ensures DollarsToCents(dollars as real) == Commit(dollars * 100)
    ensures DollarsToCents(amount).Commit? <==> amount == amount.Floor as real
    ensures DollarsToCents(amount).Commit? ==> DollarsToCents(amount).value as real == amount * 100.0
  {
    assert (dollars as real).Floor == dollars;
  }
}
