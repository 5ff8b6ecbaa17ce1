/**
 * One holding: what it was bought for and what it is worth at the fetched price.
 * The price lookup is network code; the model takes what the lookup saw as an input.
 */
module Stocks {
  import opened Wrappers

  /** What the one-day price history lookup saw: a closing price, an empty history, or an exception. */
  datatype PriceLookup = Close(price: real) | NoData | LookupFailed

  /** The price `_fetch_current_price` returns: the close, or 0.0 whenever the lookup found nothing or failed. */
  function FetchedPrice(lookup: PriceLookup): (price: real)
    ensures lookup.Close? ==> price == lookup.price
    ensures price != 0.0 ==> lookup.Close? && price == lookup.price
    ensures !lookup.Close? ==> price == 0.0
  {
    match lookup
    case Close(p) => p
    case NoData => 0.0
    case LookupFailed => 0.0
  }

  class Stock {
    const companyName: string
    const symbol: string
    const qty: real
    const costPerShare: real
    /** The price one week back; the portfolio reads it, the source never sets it. */
    const pastPrice: real

    var costPrice: real
    var currentPrice: real
    var marketValue: Option<real>
    var totalChange: Option<real>
    var gainLoss: Option<real>
    var weeklyChange: real
    var peRatio: Option<real>

    /**
     * The valuation formulas: a zero price means "not priced" (no market value),
     * and a missing or zero market value means no total change.
     */
    ghost predicate Valid()
      reads this
    {
      && costPrice == qty * costPerShare
      && (marketValue.Some? <==> currentPrice != 0.0)
      && (marketValue.Some? ==> marketValue.value == qty * currentPrice)
      && (totalChange.Some? <==> marketValue.Some? && marketValue.value != 0.0)
      && (totalChange.Some? ==> totalChange.value == marketValue.value - costPrice)
      && gainLoss == totalChange
    }

    constructor (companyName: string, symbol: string, qty: real, costPerShare: real,
                 lookup: PriceLookup, pastPrice: real)
      ensures this.companyName == companyName && this.symbol == symbol
      ensures this.qty == qty && this.costPerShare == costPerShare && this.pastPrice == pastPrice
      ensures Valid()
      ensures currentPrice == FetchedPrice(lookup)
      ensures weeklyChange == 0.0 && peRatio == Some(0.0)
    {
      this.companyName := companyName;
      this.symbol := symbol;
      this.qty := qty;
      this.costPerShare := costPerShare;
      this.pastPrice := pastPrice;
      new;
      CalculateValues(lookup);
    }

    /** Rewrites every derived field from the stored inputs and the looked-up price. */
    method CalculateValues(lookup: PriceLookup)
      modifies this
      ensures Valid()
      ensures currentPrice == FetchedPrice(lookup)
      ensures weeklyChange == 0.0 && peRatio == Some(0.0)
    {
      var price := FetchedPrice(lookup);
      var cost := qty * costPerShare;
      var value := if price != 0.0 then Some(qty * price) else None;
      var change := if value.Some? && value.value != 0.0 then Some(value.value - cost) else None;
      costPrice, currentPrice, marketValue, totalChange := cost, price, value, change;
      gainLoss := change;
      weeklyChange, peRatio := 0.0, Some(0.0);
    }
  }

  /** A lookup that found nothing or failed leaves the stock without market value and total change. */
  lemma UnpricedStock(s: Stock, lookup: PriceLookup)
    requires s.Valid() && s.currentPrice == FetchedPrice(lookup) && !lookup.Close?
    ensures s.marketValue == None && s.totalChange == None && s.gainLoss == None
  {
  }

  /**
   * When the stock is priced, its market value is qty times the price, and the gain/loss
   * is the absolute change of value against cost, not a percentage.
   */
  lemma PricedStock(s: Stock)
    requires s.Valid() && s.currentPrice != 0.0 && s.qty != 0.0
    ensures s.marketValue == Some(s.qty * s.currentPrice)
    ensures s.gainLoss == Some(s.qty * s.currentPrice - s.qty * s.costPerShare)
  {
    assert s.qty * s.currentPrice != 0.0;
  }

  /** A priced holding of zero shares has a market value of zero and, as zero is falsy, no total change. */
  lemma ZeroQuantityStock(s: Stock)
    requires s.Valid() && s.currentPrice != 0.0 && s.qty == 0.0
    ensures s.marketValue == Some(0.0) && s.totalChange == None
  {
  }
}
