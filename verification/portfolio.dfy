/**
 * The portfolio: a list of stocks, the list of their tickers, and aggregate figures
 * rewritten from sums over the list after construction and after every add or remove.
 */
module Portfolios {
  import opened Wrappers
  import opened ListOps
  import opened Stocks

  /** The per-stock numbers the aggregation reads from a holding. */
  datatype Figures = Figures(marketValue: Option<real>, costPrice: real, totalChange: Option<real>,
                             pastMarketValue: real, peRatio: Option<real>)

  function FiguresOf(s: Stock): Figures
    reads s
  {
    Figures(s.marketValue, s.costPrice, s.totalChange, s.qty * s.pastPrice, s.peRatio)
  }

  function AllFigures(ss: seq<Stock>): seq<Figures>
    reads ss
  {
    seq(|ss|, i requires 0 <= i < |ss| reads ss => FiguresOf(ss[i]))
  }

  /** The tickers of the stocks, in list order. */
  function TickersOf(ss: seq<Stock>): seq<string>
  {
    seq(|ss|, i requires 0 <= i < |ss| => ss[i].symbol)
  }

  // The columns the aggregation sums over (the list comprehensions of the source).

  function MarketValues(fs: seq<Figures>): seq<Option<real>>
  {
    seq(|fs|, i requires 0 <= i < |fs| => fs[i].marketValue)
  }

  function CostPrices(fs: seq<Figures>): seq<real>
  {
    seq(|fs|, i requires 0 <= i < |fs| => fs[i].costPrice)
  }

  function TotalChanges(fs: seq<Figures>): seq<Option<real>>
  {
    seq(|fs|, i requires 0 <= i < |fs| => fs[i].totalChange)
  }

  function PastMarketValues(fs: seq<Figures>): seq<real>
  {
    seq(|fs|, i requires 0 <= i < |fs| => fs[i].pastMarketValue)
  }

  function PeRatios(fs: seq<Figures>): seq<Option<real>>
  {
    seq(|fs|, i requires 0 <= i < |fs| => fs[i].peRatio)
  }

  function Percent(change: real, base: real): real
    requires base != 0.0
  {
    change / base * 100.0
  }

  function Mean(xs: seq<real>): real
    requires |xs| > 0
  {
    Sum(xs) / |xs| as real
  }

  datatype Aggregates = Aggregates(marketValue: real, costPrice: real, totalChange: real,
                                   gainLoss: real, weeklyChange: real, peRatio: real)

  /** The aggregate fields before the first recomputation has written them. */
  const Unset := Aggregates(0.0, 0.0, 0.0, 0.0, 0.0, 0.0)

  /**
   * Why a recomputation stops: a stock without market value or total change
   * (summing None raises TypeError), or a division by zero.
   */
  datatype CalcError = MissingValue | ZeroCostBasis | ZeroPastMarketValue | NoPeRatios

  /** The aggregate fields after a recomputation, and the exception it raised, if any. */
  datatype Recalc = Recalc(values: Aggregates, error: Option<CalcError>)

  /**
   * One run of the recomputation from the column totals, starting from the field values prev:
   * mv and tc are the sums of market value and total change (None when a None was summed), cp
   * and pmv the summed cost basis and past market value, pes the P/E values present.
   * The fields are written one after the other; an exception leaves the fields written
   * before it with their new values and the others with their values in prev.
   */
  function Aggregated(prev: Aggregates, mv: Option<real>, cp: real, tc: Option<real>,
                      pmv: real, pes: seq<real>): Recalc
  {
    match mv
    case None => Recalc(prev, Some(MissingValue))
    case Some(m) =>
      match tc
      case None => Recalc(prev.(marketValue := m, costPrice := cp), Some(MissingValue))
      case Some(t) =>
        var a := prev.(marketValue := m, costPrice := cp, totalChange := t);
        if cp == 0.0 then Recalc(a, Some(ZeroCostBasis))
        else
          var a := a.(gainLoss := Percent(t, cp));
          if pmv == 0.0 then Recalc(a, Some(ZeroPastMarketValue))
          else
            var a := a.(weeklyChange := Percent(m - pmv, pmv));
            if |pes| == 0 then Recalc(a, Some(NoPeRatios))
            else Recalc(a.(peRatio := Mean(pes)), None)
  }

  /** One run of the recomputation over the figures fs, starting from the field values prev. */
  function Recalculate(prev: Aggregates, fs: seq<Figures>): Recalc
  {
    Aggregated(prev, OptionalSum(MarketValues(fs)), Sum(CostPrices(fs)), OptionalSum(TotalChanges(fs)),
               Sum(PastMarketValues(fs)), Present(PeRatios(fs)))
  }

  /**
   * What a recomputation that raises nothing yields: the market value, cost basis and total
   * change are the column sums; the gain/loss is the total change as a percentage of the cost
   * basis; the weekly change compares the market value with the summed past market value;
   * the P/E ratio is the mean of the P/E values present.
   */
  lemma RecalculateSuccess(prev: Aggregates, fs: seq<Figures>)
    requires Recalculate(prev, fs).error == None
    ensures AllPresent(MarketValues(fs)) && AllPresent(TotalChanges(fs))
    ensures var a := Recalculate(prev, fs).values;
      && a.marketValue == Sum(Present(MarketValues(fs)))
      && a.costPrice == Sum(CostPrices(fs)) != 0.0
      && a.totalChange == Sum(Present(TotalChanges(fs)))
      && a.gainLoss == a.totalChange / a.costPrice * 100.0
      && Sum(PastMarketValues(fs)) != 0.0
      && a.weeklyChange == (a.marketValue - Sum(PastMarketValues(fs))) / Sum(PastMarketValues(fs)) * 100.0
      && |Present(PeRatios(fs))| > 0
      && a.peRatio == Sum(Present(PeRatios(fs))) / |Present(PeRatios(fs))| as real
  {
  }

  /** Each exception is raised exactly when its cause is present and no earlier step has raised. */
  lemma RecalculateErrors(prev: Aggregates, fs: seq<Figures>)
    ensures var e := Recalculate(prev, fs).error;
      && (e == Some(MissingValue) <==> !AllPresent(MarketValues(fs)) || !AllPresent(TotalChanges(fs)))
      && (e == Some(ZeroCostBasis) <==>
            AllPresent(MarketValues(fs)) && AllPresent(TotalChanges(fs)) && Sum(CostPrices(fs)) == 0.0)
      && (e == Some(ZeroPastMarketValue) <==>
            AllPresent(MarketValues(fs)) && AllPresent(TotalChanges(fs)) && Sum(CostPrices(fs)) != 0.0
            && Sum(PastMarketValues(fs)) == 0.0)
      && (e == Some(NoPeRatios) <==>
            AllPresent(MarketValues(fs)) && AllPresent(TotalChanges(fs)) && Sum(CostPrices(fs)) != 0.0
            && Sum(PastMarketValues(fs)) != 0.0 && |Present(PeRatios(fs))| == 0)
  {
  }

  /** An empty list sums to zero everywhere and then divides by a zero cost basis. */
  lemma EmptyPortfolioFails(prev: Aggregates)
    ensures Recalculate(prev, []) ==
      Recalc(prev.(marketValue := 0.0, costPrice := 0.0, totalChange := 0.0), Some(ZeroCostBasis))
  {
    assert MarketValues([]) == [] && TotalChanges([]) == [] && CostPrices([]) == [];
  }

  /** A recomputation that succeeds overwrites every field: the result does not depend on prev. */
  lemma SuccessIgnoresPrevious(prev: Aggregates, prev': Aggregates, fs: seq<Figures>)
    requires Recalculate(prev, fs).error == None
    ensures Recalculate(prev', fs) == Recalculate(prev, fs)
  {
  }

  /** Recomputing again with nothing changed writes the same values and raises the same exception. */
  lemma RecalculateIdempotent(prev: Aggregates, fs: seq<Figures>)
    ensures Recalculate(Recalculate(prev, fs).values, fs) == Recalculate(prev, fs)
  {
  }

  /** The columns of a concatenation are the concatenations of the columns. */
  lemma ColumnsConcat(a: seq<Figures>, b: seq<Figures>)
    ensures MarketValues(a + b) == MarketValues(a) + MarketValues(b)
    ensures CostPrices(a + b) == CostPrices(a) + CostPrices(b)
    ensures TotalChanges(a + b) == TotalChanges(a) + TotalChanges(b)
    ensures PastMarketValues(a + b) == PastMarketValues(a) + PastMarketValues(b)
    ensures PeRatios(a + b) == PeRatios(a) + PeRatios(b)
  {
  }

  lemma SumSwap(a: seq<real>, b: seq<real>, c: seq<real>)
    ensures Sum(a + b + c) == Sum(a + c + b)
  {
    SumConcat(a + b, c);
    SumConcat(a, b);
    SumConcat(a + c, b);
    SumConcat(a, c);
  }

  lemma OptionalColumnSwap(a: seq<Option<real>>, b: seq<Option<real>>, c: seq<Option<real>>)
    ensures AllPresent(a + b + c) == AllPresent(a + c + b)
    ensures Sum(Present(a + b + c)) == Sum(Present(a + c + b))
    ensures |Present(a + b + c)| == |Present(a + c + b)|
  {
    PresentConcat(a + b, c);
    PresentConcat(a, b);
    PresentConcat(a + c, b);
    PresentConcat(a, c);
    SumSwap(Present(a), Present(b), Present(c));
    AllPresentConcat(a + b, c);
    AllPresentConcat(a, b);
    AllPresentConcat(a + c, b);
    AllPresentConcat(a, c);
  }

  /** Two lists whose columns have the same totals, the same presence and the same P/E count. */
  ghost predicate SameTotals(fs: seq<Figures>, gs: seq<Figures>)
  {
    && AllPresent(MarketValues(fs)) == AllPresent(MarketValues(gs))
    && Sum(Present(MarketValues(fs))) == Sum(Present(MarketValues(gs)))
    && AllPresent(TotalChanges(fs)) == AllPresent(TotalChanges(gs))
    && Sum(Present(TotalChanges(fs))) == Sum(Present(TotalChanges(gs)))
    && Sum(CostPrices(fs)) == Sum(CostPrices(gs))
    && Sum(PastMarketValues(fs)) == Sum(PastMarketValues(gs))
    && Sum(Present(PeRatios(fs))) == Sum(Present(PeRatios(gs)))
    && |Present(PeRatios(fs))| == |Present(PeRatios(gs))|
  }

  /** The recomputation reads a list only through its column totals. */
  lemma RecalculateReadsTotals(prev: Aggregates, fs: seq<Figures>, gs: seq<Figures>)
    requires SameTotals(fs, gs)
    ensures Recalculate(prev, fs) == Recalculate(prev, gs)
  {
  }

  /** Moving one stock to the end of the list keeps every column total. */
  lemma MovedTotals(fs: seq<Figures>, i: nat)
    requires i < |fs|
    ensures SameTotals(fs[..i] + fs[i + 1..] + [fs[i]], fs)
  {
    var a, b, c := fs[..i], [fs[i]], fs[i + 1..];
    assert fs == a + b + c;
    ColumnsConcat(a + b, c);
    ColumnsConcat(a, b);
    ColumnsConcat(a + c, b);
    ColumnsConcat(a, c);
    OptionalColumnSwap(MarketValues(a), MarketValues(b), MarketValues(c));
    OptionalColumnSwap(TotalChanges(a), TotalChanges(b), TotalChanges(c));
    OptionalColumnSwap(PeRatios(a), PeRatios(b), PeRatios(c));
    SumSwap(CostPrices(a), CostPrices(b), CostPrices(c));
    SumSwap(PastMarketValues(a), PastMarketValues(b), PastMarketValues(c));
  }

  /**
   * The aggregation does not depend on the position of a stock in the list:
   * moving one stock to the end changes neither the written values nor the exception.
   */
  lemma MoveToEnd(prev: Aggregates, fs: seq<Figures>, i: nat)
    requires i < |fs|
    ensures Recalculate(prev, fs[..i] + fs[i + 1..] + [fs[i]]) == Recalculate(prev, fs)
  {
    MovedTotals(fs, i);
    RecalculateReadsTotals(prev, fs[..i] + fs[i + 1..] + [fs[i]], fs);
  }

  /** Appending a value to a fully present column adds it to the column's sum. */
  lemma OptionalSumAppend(xs: seq<Option<real>>, x: Option<real>)
    requires AllPresent(xs + [x])
    ensures AllPresent(xs) && x.Some?
    ensures Sum(Present(xs + [x])) == Sum(Present(xs)) + x.value
  {
    assert x == (xs + [x])[|xs|];
    assert forall i :: 0 <= i < |xs| ==> xs[i] == (xs + [x])[i];
    PresentConcat(xs, [x]);
    assert Present([x]) == Present([]) + [x.value];
    SumConcat(Present(xs), [x.value]);
    assert Sum([x.value]) == Sum([]) + x.value;
  }

  /**
   * The market value, cost basis and total change of b are those of a plus the figures of
   * one stock that has a market value and a total change.
   */
  ghost predicate AddsFigures(a: Aggregates, b: Aggregates, f: Figures)
  {
    && f.marketValue.Some? && f.totalChange.Some?
    && b.marketValue == a.marketValue + f.marketValue.value
    && b.costPrice == a.costPrice + f.costPrice
    && b.totalChange == a.totalChange + f.totalChange.value
  }

  /** Appending one stock's figures to fully present columns adds its figures to the three sums. */
  lemma AppendColumns(fs: seq<Figures>, f: Figures)
    requires AllPresent(MarketValues(fs + [f])) && AllPresent(TotalChanges(fs + [f]))
    ensures AllPresent(MarketValues(fs)) && AllPresent(TotalChanges(fs))
    ensures f.marketValue.Some? && f.totalChange.Some?
    ensures Sum(Present(MarketValues(fs + [f]))) == Sum(Present(MarketValues(fs))) + f.marketValue.value
    ensures Sum(CostPrices(fs + [f])) == Sum(CostPrices(fs)) + f.costPrice
    ensures Sum(Present(TotalChanges(fs + [f]))) == Sum(Present(TotalChanges(fs))) + f.totalChange.value
  {
    ColumnsConcat(fs, [f]);
    assert MarketValues([f]) == [f.marketValue];
    assert TotalChanges([f]) == [f.totalChange];
    assert CostPrices([f]) == [f.costPrice];
    OptionalSumAppend(MarketValues(fs), f.marketValue);
    OptionalSumAppend(TotalChanges(fs), f.totalChange);
    SumConcat(CostPrices(fs), [f.costPrice]);
    assert Sum([f.costPrice]) == Sum([]) + f.costPrice;
  }

  /**
   * Adding a stock to a list whose aggregation succeeds: when the new aggregation succeeds
   * too, each of the three sums grows by exactly the new stock's figure.
   */
  lemma AppendFigures(prev: Aggregates, prev': Aggregates, fs: seq<Figures>, f: Figures)
    requires Recalculate(prev, fs).error == None
    requires Recalculate(prev', fs + [f]).error == None
    ensures AddsFigures(Recalculate(prev, fs).values, Recalculate(prev', fs + [f]).values, f)
  {
    AppendColumns(fs, f);
  }

  /**
   * Removing the stock at position i from a list whose aggregation succeeds: when the new
   * aggregation succeeds too, adding that stock's figures back gives the old sums, so each
   * of the three sums shrinks by exactly that stock's figure.
   */
  lemma RemoveFigures(prev: Aggregates, prev': Aggregates, fs: seq<Figures>, i: nat)
    requires i < |fs|
    requires Recalculate(prev, fs).error == None
    requires Recalculate(prev', fs[..i] + fs[i + 1..]).error == None
    ensures AddsFigures(Recalculate(prev', fs[..i] + fs[i + 1..]).values, Recalculate(prev, fs).values, fs[i])
  {
    var rest := fs[..i] + fs[i + 1..];
    MoveToEnd(prev, fs, i);
    AppendFigures(prev', prev, rest, fs[i]);
  }

  /** The figures of a stock whose fields satisfy the valuation formulas. */
  ghost predicate Valued(f: Figures)
  {
    && (f.totalChange.Some? <==> f.marketValue.Some? && f.marketValue.value != 0.0)
    && (f.totalChange.Some? ==> f.totalChange.value == f.marketValue.value - f.costPrice)
  }

  /**
   * When every stock follows the valuation formulas and has a total change, the summed
   * total change is the summed market value less the summed cost basis.
   */
  lemma {:induction false} TotalChangeIsNetOfCost(fs: seq<Figures>)
    requires forall i :: 0 <= i < |fs| ==> Valued(fs[i])
    requires AllPresent(TotalChanges(fs))
    ensures AllPresent(MarketValues(fs))
    ensures Sum(Present(TotalChanges(fs))) == Sum(Present(MarketValues(fs))) - Sum(CostPrices(fs))
  {
    if fs == [] {
      assert MarketValues(fs) == [] && TotalChanges(fs) == [] && CostPrices(fs) == [];
    } else {
      var n := |fs| - 1;
      var init, f := fs[..n], fs[n];
      assert fs == init + [f];
      ColumnsConcat(init, [f]);
      assert TotalChanges([f]) == [f.totalChange];
      assert MarketValues([f]) == [f.marketValue];
      assert CostPrices([f]) == [f.costPrice];
      assert Valued(f) && f.totalChange == TotalChanges(fs)[n];
      assert f.marketValue.Some?;
      assert forall i :: 0 <= i < n ==> TotalChanges(init)[i] == TotalChanges(fs)[i];
      TotalChangeIsNetOfCost(init);
      assert AllPresent(MarketValues(fs)) by {
        assert forall i :: 0 <= i < n ==> MarketValues(fs)[i] == MarketValues(init)[i];
      }
      OptionalSumAppend(TotalChanges(init), f.totalChange);
      OptionalSumAppend(MarketValues(init), f.marketValue);
      SumConcat(CostPrices(init), [f.costPrice]);
      assert Sum([f.costPrice]) == Sum([]) + f.costPrice;
    }
  }

  /**
   * Stocks as constructed carry a P/E of 0.0, never None: over a non-empty list the P/E
   * mean is then always computed, and it is 0.0.
   */
  lemma MeanOfConstructedPeRatios(prev: Aggregates, fs: seq<Figures>)
    requires |fs| > 0
    requires forall i :: 0 <= i < |fs| ==> fs[i].peRatio == Some(0.0)
    ensures Recalculate(prev, fs).error != Some(NoPeRatios)
    ensures Recalculate(prev, fs).error == None ==> Recalculate(prev, fs).values.peRatio == 0.0
  {
    var pes := PeRatios(fs);
    assert AllPresent(pes);
    PresentOfAllPresent(pes);
    SumOfZeros(Present(pes));
  }

  /** Figures of a list with one stock moved to the end. */
  lemma AllFiguresMoved(ss: seq<Stock>, i: nat)
    requires i < |ss|
    ensures AllFigures(ss[..i] + ss[i + 1..] + [ss[i]]) ==
      AllFigures(ss)[..i] + AllFigures(ss)[i + 1..] + [AllFigures(ss)[i]]
  {
  }

  /**
   * Removing a stock and adding it back gives the aggregation the stock list had before:
   * the same written values and the same exception.
   */
  lemma RemoveThenAdd(prev: Aggregates, ss: seq<Stock>, s: Stock)
    requires s in ss
    ensures Recalculate(prev, AllFigures(RemoveFirst(ss, s) + [s])) == Recalculate(prev, AllFigures(ss))
  {
    var i := IndexOf(ss, s);
    AllFiguresMoved(ss, i);
    MoveToEnd(prev, AllFigures(ss), i);
  }

  /** The tickers of a list with one position dropped are its tickers with that position dropped. */
  lemma TickersOfRemoveAt(ss: seq<Stock>, i: nat)
    requires i < |ss|
    ensures TickersOf(ss[..i] + ss[i + 1..]) == TickersOf(ss)[..i] + TickersOf(ss)[i + 1..]
  {
    var l, r := TickersOf(ss[..i] + ss[i + 1..]), TickersOf(ss)[..i] + TickersOf(ss)[i + 1..];
    assert |l| == |r|;
    forall k | 0 <= k < |l|
      ensures l[k] == r[k]
    {
      if k < i {
        assert l[k] == ss[k].symbol;
      } else {
        assert l[k] == ss[k + 1].symbol;
      }
    }
  }

  /** The tickers of the list after `list.remove` are the old tickers less one copy of the removed symbol. */
  lemma TickersAfterRemove(ss: seq<Stock>, s: Stock)
    requires s in ss
    ensures multiset(TickersOf(RemoveFirst(ss, s))) == multiset(TickersOf(ss)) - multiset{s.symbol}
  {
    var i := IndexOf(ss, s);
    assert RemoveFirst(ss, s) == ss[..i] + ss[i + 1..];
    TickersOfRemoveAt(ss, i);
    assert TickersOf(ss)[i] == s.symbol;
    MultisetRemoveAt(TickersOf(ss), i);
  }

  /** A stock in the list has its symbol in any list holding the same tickers. */
  lemma SymbolInTickers(ss: seq<Stock>, ts: seq<string>, s: Stock)
    requires multiset(ts) == multiset(TickersOf(ss))
    requires s in ss
    ensures s.symbol in ts
  {
    var i := IndexOf(ss, s);
    assert TickersOf(ss)[i] == s.symbol;
    assert s.symbol in multiset(TickersOf(ss));
  }

  /** Removing a stock and the first copy of its symbol keeps the tickers list in step. */
  lemma RemoveKeepsTickers(ss: seq<Stock>, ts: seq<string>, s: Stock)
    requires multiset(ts) == multiset(TickersOf(ss))
    requires s in ss
    ensures s.symbol in ts
    ensures multiset(RemoveFirst(ts, s.symbol)) == multiset(TickersOf(RemoveFirst(ss, s)))
  {
    SymbolInTickers(ss, ts, s);
    TickersAfterRemove(ss, s);
    RemoveFirstMultiset(ts, s.symbol);
  }

  /** The figures of the list after `list.remove` are the old figures less the removed position. */
  lemma FiguresAfterRemove(ss: seq<Stock>, s: Stock)
    requires s in ss
    ensures AllFigures(RemoveFirst(ss, s)) ==
      AllFigures(ss)[..IndexOf(ss, s)] + AllFigures(ss)[IndexOf(ss, s) + 1..]
  {
    var i := IndexOf(ss, s);
    var fs := AllFigures(ss);
    assert RemoveFirst(ss, s) == ss[..i] + ss[i + 1..];
    var l, r := AllFigures(ss[..i] + ss[i + 1..]), fs[..i] + fs[i + 1..];
    assert |l| == |r|;
    forall k | 0 <= k < |l|
      ensures l[k] == r[k]
    {
      if k < i {
        assert l[k] == FiguresOf(ss[k]);
      } else {
        assert l[k] == FiguresOf(ss[k + 1]);
      }
    }
  }

  /**
   * With a repeated ticker the two lists can disagree in order: removing the third of three
   * distinct stocks with tickers X, Y, X leaves tickers Y, X, while the remaining stocks have X, Y.
   */
  lemma TickerOrderCanDiverge(a: Stock, b: Stock, c: Stock)
    requires a != b && b != c && a != c
    requires a.symbol == "X" && b.symbol == "Y" && c.symbol == "X"
    ensures var ss := [a, b, c];
      && TickersOf(ss) == ["X", "Y", "X"]
      && TickersOf(RemoveFirst(ss, c)) == ["X", "Y"]
      && RemoveFirst(TickersOf(ss), c.symbol) == ["Y", "X"]
      && TickersOf(RemoveFirst(ss, c)) != RemoveFirst(TickersOf(ss), c.symbol)
  {
    var ss := [a, b, c];
    assert IndexOf(ss, c) == 2;
    assert RemoveFirst(ss, c) == [a, b];
    var ts := TickersOf(ss);
    assert ts == ["X", "Y", "X"];
    assert IndexOf(ts, "X") == 0;
    assert ["X", "Y"][0] != ["Y", "X"][0];
  }

  /**
   * The recomputation as the source performs it: each aggregate written in turn, stopping at
   * the first step that raises, with the fields written so far kept.
   */
  method Aggregate(prev: Aggregates, fs: seq<Figures>) returns (r: Recalc)
    ensures r == Recalculate(prev, fs)
  {
    var a := prev;
    var mv := OptionalSum(MarketValues(fs));
    if mv.None? {
      return Recalc(a, Some(MissingValue));
    }
    a := a.(marketValue := mv.value);
    a := a.(costPrice := Sum(CostPrices(fs)));
    var tc := OptionalSum(TotalChanges(fs));
    if tc.None? {
      return Recalc(a, Some(MissingValue));
    }
    a := a.(totalChange := tc.value);
    if a.costPrice == 0.0 {
      return Recalc(a, Some(ZeroCostBasis));
    }
    a := a.(gainLoss := Percent(a.totalChange, a.costPrice));
    var pastMarketValue := Sum(PastMarketValues(fs));
    if pastMarketValue == 0.0 {
      return Recalc(a, Some(ZeroPastMarketValue));
    }
    a := a.(weeklyChange := Percent(a.marketValue - pastMarketValue, pastMarketValue));
    var pes := Present(PeRatios(fs));
    if |pes| == 0 {
      return Recalc(a, Some(NoPeRatios));
    }
    a := a.(peRatio := Mean(pes));
    return Recalc(a, None);
  }

  /** What `remove_stock` reports: the stock was absent, or the recomputation raised. */
  datatype RemoveError = NotInPortfolio | CalcFailed(error: CalcError)

  function AsRemoveError(e: Option<CalcError>): Option<RemoveError>
  {
    match e
    case None => None
    case Some(c) => Some(CalcFailed(c))
  }

  class Portfolio {
    var stocks: seq<Stock>
    var tickers: seq<string>
    var marketValue: real
    var costPrice: real
    var totalChange: real
    var gainLoss: real
    var weeklyChange: real
    var peRatio: real

    /** The tickers list holds the symbols of the stocks list, as a multiset. */
    ghost predicate Valid()
      reads this
    {
      multiset(tickers) == multiset(TickersOf(stocks))
    }

    function Values(): Aggregates
      reads this
    {
      Aggregates(marketValue, costPrice, totalChange, gainLoss, weeklyChange, peRatio)
    }

    /** Every aggregate field equals a fresh recomputation over the current stocks. */
    ghost predicate Consistent()
      reads this, stocks
    {
      Recalculate(Values(), AllFigures(stocks)) == Recalc(Values(), None)
    }

    /** Stores the list and its tickers; Create then computes the aggregates. */
    constructor (stocks: seq<Stock>)
      ensures this.stocks == stocks && tickers == TickersOf(stocks)
      ensures Values() == Unset
      ensures Valid()
    {
      this.stocks := stocks;
      tickers := TickersOf(stocks);
      marketValue, costPrice, totalChange := 0.0, 0.0, 0.0;
      gainLoss, weeklyChange, peRatio := 0.0, 0.0, 0.0;
    }

    /** Construction: the stored lists, then a first recomputation, whose exception aborts construction. */
    static method Create(stocks: seq<Stock>) returns (r: Result<Portfolio, CalcError>)
      ensures r.Success? <==> Recalculate(Unset, AllFigures(stocks)).error == None
      ensures r.Failure? ==> Recalculate(Unset, AllFigures(stocks)).error == Some(r.error)
      ensures r.Success? ==>
        && fresh(r.value)
        && r.value.stocks == stocks && r.value.tickers == TickersOf(stocks)
        && r.value.Valid() && r.value.Consistent()
    {
      var p := new Portfolio(stocks);
      var err := p.CalculateValues();
      if err.Some? {
        return Failure(err.value);
      }
      return Success(p);
    }

    /**
     * Rewrites the aggregate fields from the current stocks. The fields hold what the
     * step-by-step recomputation left in them, including the partial writes before an exception.
     */
    method CalculateValues() returns (err: Option<CalcError>)
      modifies this
      ensures stocks == old(stocks) && tickers == old(tickers)
      ensures Recalc(Values(), err) == Recalculate(old(Values()), old(AllFigures(stocks)))
      ensures err == None ==> Consistent()
    {
      var fs := AllFigures(stocks);
      var prev := Values();
      var r := Aggregate(prev, fs);
      marketValue, costPrice, totalChange := r.values.marketValue, r.values.costPrice, r.values.totalChange;
      gainLoss, weeklyChange, peRatio := r.values.gainLoss, r.values.weeklyChange, r.values.peRatio;
      err := r.error;
      assert Values() == r.values;
      if err == None {
        SuccessIgnoresPrevious(prev, r.values, fs);
        assert AllFigures(stocks) == fs;
      }
    }

    /**
     * Appends the stock and its ticker, then recomputes. From a consistent state, a
     * recomputation that succeeds adds the stock's own figures to the three sums.
     */
    method AddStock(stock: Stock) returns (err: Option<CalcError>)
      requires Valid()
      modifies this
      ensures Valid()
      ensures stocks == old(stocks) + [stock] && tickers == old(tickers) + [stock.symbol]
      ensures Recalc(Values(), err) == Recalculate(old(Values()), old(AllFigures(stocks + [stock])))
      ensures err == None ==> Consistent()
      ensures old(Consistent()) && err == None ==> AddsFigures(old(Values()), Values(), FiguresOf(stock))
    {
      ghost var prev, before := Values(), AllFigures(stocks);
      ghost var after := before + [FiguresOf(stock)];
      assert AllFigures(stocks + [stock]) == after;
      stocks := stocks + [stock];
      tickers := tickers + [stock.symbol];
      assert TickersOf(stocks) == TickersOf(old(stocks)) + [stock.symbol];
      assert AllFigures(stocks) == after && Values() == prev;
      err := CalculateValues();
      assert FiguresOf(stock) == after[|before|];
      if old(Consistent()) && err == None {
        assert Recalculate(prev, after) == Recalc(Values(), None);
        AppendFigures(prev, prev, before, FiguresOf(stock));
      }
    }

    /**
     * Removes the first occurrence of this very stock object and the first equal ticker,
     * then recomputes. An absent stock raises before anything changes. From a consistent
     * state, a recomputation that succeeds takes the stock's own figures off the three sums.
     */
    method RemoveStock(stock: Stock) returns (err: Option<RemoveError>)
      requires Valid()
      modifies this
      ensures Valid()
      ensures stock !in old(stocks) ==>
        && err == Some(NotInPortfolio)
        && stocks == old(stocks) && tickers == old(tickers) && Values() == old(Values())
      ensures stock in old(stocks) ==>
        && stock.symbol in old(tickers)
        && stocks == RemoveFirst(old(stocks), stock)
        && tickers == RemoveFirst(old(tickers), stock.symbol)
        && var r := Recalculate(old(Values()), old(AllFigures(RemoveFirst(stocks, stock))));
           Values() == r.values && err == AsRemoveError(r.error)
      ensures err == None ==> Consistent()
      ensures old(Consistent()) && err == None ==> AddsFigures(Values(), old(Values()), FiguresOf(stock))
    {
      if stock !in stocks {
        return Some(NotInPortfolio);
      }
      ghost var prev, before := Values(), AllFigures(stocks);
      ghost var i := IndexOf(stocks, stock);
      RemoveKeepsTickers(stocks, tickers, stock);
      FiguresAfterRemove(stocks, stock);
      ghost var rest := before[..i] + before[i + 1..];
      assert before[i] == FiguresOf(stock);
      stocks := RemoveFirst(stocks, stock);
      tickers := RemoveFirst(tickers, stock.symbol);
      assert AllFigures(stocks) == rest && Values() == prev;
      var calcErr := CalculateValues();
      err := AsRemoveError(calcErr);
      assert FiguresOf(stock) == before[i];
      if old(Consistent()) && err == None {
        assert Recalculate(prev, rest) == Recalc(Values(), None);
        RemoveFigures(prev, prev, before, i);
      }
    }
  }

  /**
   * A consistent portfolio of stocks that follow the valuation formulas: its total change
   * is its market value less its cost basis.
   */
  lemma ConsistentTotalChange(p: Portfolio)
    requires p.Consistent()
    requires forall s :: s in p.stocks ==> s.Valid()
    ensures p.totalChange == p.marketValue - p.costPrice
  {
    var fs := AllFigures(p.stocks);
    forall i | 0 <= i < |fs|
      ensures Valued(fs[i])
    {
      assert p.stocks[i].Valid();
    }
    RecalculateSuccess(p.Values(), fs);
    TotalChangeIsNetOfCost(fs);
  }
}
