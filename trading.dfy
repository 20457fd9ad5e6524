/** Positions and the account of the trading game: a simulated trade, the
    account it is settled into, and the profit-and-loss rule. */
module Trading {

  /** `SimTrade`: every field is public and updated in place. */
  class SimTrade {
    var entryPrice: real
    var profitLoss: real
    var isActive: bool
    /** true for a long position (buy), false for a short one (sell). */
    var tradeDirection: bool
    var contracts: int

    constructor(entryPrice: real, profitLoss: real, isActive: bool, tradeDirection: bool, contracts: int)
      ensures this.entryPrice == entryPrice && this.profitLoss == profitLoss
      ensures this.isActive == isActive && this.tradeDirection == tradeDirection
      ensures this.contracts == contracts
    {
      this.entryPrice := entryPrice;
      this.profitLoss := profitLoss;
      this.isActive := isActive;
      this.tradeDirection := tradeDirection;
      this.contracts := contracts;
    }
  }

  /** `SimAccount`: the running total of settled profit and loss. */
  class SimAccount {
    var totalPnL: real

    constructor(totalPnL: real)
      ensures this.totalPnL == totalPnL
    {
      this.totalPnL := totalPnL;
    }
  }

  /** The profit and loss of a position: `(long ? 1 : -1) * (price - entry)
      * contracts`. A long position gains when the price rises above the
      entry, a short one when it falls below; at the entry price it is zero. */
  function ProfitLoss(long: bool, price: real, entryPrice: real, contracts: int): (r: real)
    ensures price == entryPrice || contracts == 0 ==> r == 0.0
    ensures contracts > 0 ==> (r > 0.0 <==> (if long then price > entryPrice else price < entryPrice))
    ensures contracts > 0 ==> (r < 0.0 <==> (if long then price < entryPrice else price > entryPrice))
  {
    var sign := if long then 1.0 else -1.0;
    var move := sign * (price - entryPrice);
    if contracts > 0 then
      PositiveFactor(move, contracts as real);
      PositiveFactor(-move, contracts as real);
      move * contracts as real
    else
      move * contracts as real
  }

  /** Multiplying by a positive factor keeps the sign. */
  lemma PositiveFactor(a: real, c: real)
    requires c > 0.0
    ensures a * c > 0.0 <==> a > 0.0
    ensures -a * c == -(a * c)
  {
    if a > 0.0 {
      assert a * c > 0.0;
    } else if a == 0.0 {
      assert a * c == 0.0;
    } else {
      assert (-a) * c > 0.0;
    }
  }

  /** The opposite position on the same prices has the opposite profit and
      loss, and the profit and loss is additive in the number of contracts
      and moves with the price change times the contracts. */
  lemma ProfitLossSymmetries(long: bool, price: real, entryPrice: real, c1: int, c2: int, price2: real)
    ensures ProfitLoss(!long, price, entryPrice, c1) == -ProfitLoss(long, price, entryPrice, c1)
    ensures ProfitLoss(long, price, entryPrice, c1 + c2)
         == ProfitLoss(long, price, entryPrice, c1) + ProfitLoss(long, price, entryPrice, c2)
    ensures ProfitLoss(long, price2, entryPrice, c1) - ProfitLoss(long, price, entryPrice, c1)
         == ProfitLoss(long, price2, price, c1)
  {
    var s := if long then 1.0 else -1.0;
    assert (c1 + c2) as real == c1 as real + c2 as real;
    assert s * (price - entryPrice) * (c1 as real + c2 as real)
        == s * (price - entryPrice) * c1 as real + s * (price - entryPrice) * c2 as real;
    assert s * (price2 - entryPrice) * c1 as real - s * (price - entryPrice) * c1 as real
        == s * (price2 - price) * c1 as real;
  }

  /** A long position of 10 contracts entered at 100 shows 50 at 105; the
      same short position shows -50. */
  lemma ProfitLossExample()
    ensures ProfitLoss(true, 105.0, 100.0, 10) == 50.0
    ensures ProfitLoss(false, 105.0, 100.0, 10) == -50.0
  {
  }
}
