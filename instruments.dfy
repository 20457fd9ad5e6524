/** The traded instrument: a symbol and a guarded price. */
module Instruments {
  import opened Wrappers

  class Stock {
    const symbol: string
    var price: real

    /** The constructor stores the price as given: only the setter guards it. */
    constructor(symbol: string, price: real)
      ensures this.symbol == symbol && this.price == price
    {
      this.symbol := symbol;
      this.price := price;
    }

    /** The `price` setter: a negative value throws and leaves the price as
        it was. */
    method SetPrice(value: real) returns (r: Outcome)
      modifies this
      ensures r == (if value < 0.0 then Fail(NegativePrice) else Pass)
      ensures price == (if value < 0.0 then old(price) else value)
    {
      if value < 0.0 {
        return Fail(NegativePrice);
      }
      price := value;
      r := Pass;
    }

    /** `updatePrice`: adds the change through the setter, so the price
        becomes old + change exactly when that is not negative. */
    method UpdatePrice(change: real) returns (r: Outcome)
      modifies this
      ensures r.Pass? <==> old(price) + change >= 0.0
      ensures r.Fail? ==> r.error == NegativePrice && price == old(price)
      ensures r.Pass? ==> price == old(price) + change
      ensures old(price) >= 0.0 ==> price >= 0.0
    {
      r := SetPrice(price + change);
    }
  }

  /** A price of 150 and a change of -200 is refused and the price stays 150. */
  method NegativeChangeIsRefused() {
    var s := new Stock("AAPL", 150.0);
    var r := s.UpdatePrice(-200.0);
    assert r == Fail(NegativePrice) && s.price == 150.0;
  }
}
