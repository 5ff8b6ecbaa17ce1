# Portfolio tracker: holdings, aggregation and readers

A model of the valuation core of a small stock-portfolio tracker.

- A **stock** (`Stocks.Stock`) holds a symbol, a quantity and a cost per share. From one price lookup it derives:
  - its cost basis;
  - its market value (none when the price is zero);
  - its total change (none when the market value is missing or zero);
  - a gain/loss equal to that total change;
  - a weekly change and P/E ratio fixed at zero.
- A **portfolio** (`Portfolios.Portfolio`) holds a list of stocks and the list of their tickers, plus six aggregate fields:
  - market value, cost basis and total change, each summed over the stocks;
  - gain/loss, as a percentage of cost;
  - weekly change, against the summed past market value;
  - the mean P/E over the stocks that have one.

  Construction, `add_stock` and `remove_stock` all end by recomputing these fields.
- The **readers** (`Input`) turn CSV records or Excel rows into stocks and build a portfolio from them. A row whose numbers do not parse (ValueError) is skipped. The first row that raises TypeError ends the reading.

## How the model is built

Modules:
- `Wrappers`: `Option` and `Result`, standing for Python's `None` and for raised exceptions.
- `ListOps`: Python's `sum` as a left fold, and the `is not None` filter. It also has `list.remove`: the first occurrence by equality, which for stock objects is identity.
- `Stocks`: the `Stock` class.
- `Portfolios`: the `Portfolio` class and the pure recomputation it is proved against.
- `Input`: the column-letter conversion and the two reader loops.

How the recomputation is modelled:
- `Portfolios.Recalculate(prev, figures)` is the field-by-field recomputation.
- The source writes the aggregate fields one after another. Summing a `None` raises TypeError, and a zero divisor raises ZeroDivisionError, as it does for Python numbers (see the floating-point line under "Left out" for the closing prices). Fields written before the exception keep their new values; the others keep their old ones. `Recalculate` returns exactly that state, together with the exception.
- `Portfolios.Aggregate` performs those writes in order on a local record, with the same early exits, and is proved equal to `Recalculate`.
- `Portfolio.CalculateValues` stores the record it returns in the portfolio's six fields. The source reads back only fields it has just written (portfolio.py:24, 26), and those hold the record's values, so the final state is the same.
- `Recalculate` is split in two. `Aggregated` is the step logic over the column totals, and `Recalculate` applies it to the sums of the stocks' figures.
- A portfolio is `Consistent()` when its fields are a fixed point of a fresh recomputation.

The `tickers` list:
- It is kept in step with the stocks *as a multiset* (`Portfolio.Valid`).
- It is not kept in order. `remove_stock` removes the first *equal ticker*, which need not belong to the removed stock (`TickerOrderCanDiverge`).

Where the code relies on things the stock never sets, the model reads them as follows:
- The portfolio reads `stock.ticker` (portfolio.py:14, 36, 46). `Stock` has no such attribute; the model reads the stock's `symbol`.
- The portfolio reads `stock.past_price` (portfolio.py:25), which `Stock` never sets. It is a constructor input here (`Stock.pastPrice`).
- `pe_ratio` is a float set to 0.0 (stock.py:41), while the portfolio filters out `None` values (portfolio.py:27). It is an `Option<real>` here; the constructor sets `Some(0.0)`.

The code has no lot merging and no batch price fetch, and it does not return None percentages: it divides outright, and the model takes those divisions to raise on a zero divisor as Python numbers do. The model follows the code.

## Model

| member | source | states |
|---|---|---|
| Stocks.FetchedPrice | stock.py:50-58 | the price used is the close the lookup found; an empty history or a failed lookup gives 0.0, so a non-zero price always comes from a close |
| Stocks.Stock.constructor | stock.py:9-25 | stores the four inputs, then runs the derivation: the stock satisfies the valuation formulas, its current price is the fetched one, weekly change is 0 and P/E is 0 |
| Stocks.Stock.CalculateValues | stock.py:27-41 | after the call: cost basis = qty × cost per share; there is a market value iff the price is non-zero, and it is qty × price; there is a total change iff the market value is present and non-zero, and it is market value − cost; gain/loss = total change; weekly change and P/E are 0 |
| Stocks.UnpricedStock | stock.py:34-37 | a lookup that found no data or raised (price 0.0, stock.py:50-58) leaves market value, total change and gain/loss all None |
| Stocks.PricedStock | stock.py:31-37 | a priced stock with non-zero quantity has market value qty × price and a gain/loss that is the absolute change qty × price − qty × cost per share |
| Stocks.ZeroQuantityStock | stock.py:35-36 | a priced stock with zero shares has market value 0.0 and, as 0.0 is falsy, no total change |
| ListOps.OptionalSum | portfolio.py:21-23 | definition: `sum` over a column that may hold None is None (TypeError) when any entry is None, and otherwise the sum of the values present |
| ListOps.OptionalSumValues | portfolio.py:21-23 | the sum raises exactly when the column holds a None, and otherwise equals the sum of its values taken in list order |
| ListOps.IndexOf | portfolio.py:45-46 | the position `list.remove` removes is the first occurrence: the element there equals the argument, and no earlier element does |
| ListOps.RemoveFirst | portfolio.py:45-46 | `list.remove` leaves the list without that first occurrence, everything else in order |
| ListOps.RemoveFirstMultiset | portfolio.py:45-46 | removal takes exactly one copy of the value out of the list's multiset |
| Portfolios.Aggregated | portfolio.py:21-27 | definition of one recomputation from the column totals: the six fields written in source order, each step raising where the source raises, fields written before the exception keeping their new values and the rest their old ones |
| Portfolios.Recalculate | portfolio.py:21-27 | definition: `Aggregated` applied to the sums of the stocks' market values, cost bases, total changes and past market values and to the P/E values present; the recomputation every portfolio operation is proved against |
| Portfolios.Aggregate | portfolio.py:21-27 | writing market value, cost basis, total change, gain/loss, weekly change and P/E in turn, and stopping at the first step that raises, yields exactly `Recalculate`'s fields and exception |
| Portfolios.AppendColumns | portfolio.py:21-23 | appending one stock's figures to fully present columns adds its market value, cost basis and total change to the three sums |
| Portfolios.RecalculateSuccess | portfolio.py:21-27 | a recomputation that raises nothing has every market value and total change present. Market value, cost basis and total change are the column sums. Gain/loss is total change ÷ cost × 100. Weekly change is (market value − past market value) ÷ past market value × 100. P/E is the mean of the P/E values present |
| Portfolios.RecalculateErrors | portfolio.py:21-27 | for each exception, an iff with its cause: a missing market value or total change (TypeError); zero cost basis, or zero past market value (ZeroDivisionError); no P/E values at all (ZeroDivisionError). Each applies only when no earlier step raised |
| Portfolios.EmptyPortfolioFails | portfolio.py:21-24 | an empty portfolio writes three zeros and then raises on the zero cost basis |
| Portfolios.SuccessIgnoresPrevious | portfolio.py:17-27 | a recomputation that succeeds overwrites every field, so its result does not depend on the old field values |
| Portfolios.RecalculateIdempotent | portfolio.py:17-27 | recomputing again with nothing changed gives the same fields and the same exception |
| Portfolios.RecalculateReadsTotals | portfolio.py:21-27 | the recomputation depends on the list only through its column totals and the P/E count |
| Portfolios.MoveToEnd | portfolio.py:21-27 | moving one stock to the end of the list changes neither the fields written nor the exception raised: the aggregation does not depend on list order |
| Portfolios.AppendFigures | portfolio.py:35-37 | when the aggregations before and after appending a stock both succeed, market value, cost basis and total change each grow by that stock's own figure |
| Portfolios.RemoveFigures | portfolio.py:45-47 | when the aggregations before and after removing position i both succeed, adding that stock's figures back to the new sums gives the old sums |
| Portfolios.TotalChangeIsNetOfCost | portfolio.py:21-23 | over stocks that satisfy the valuation formulas and all have a total change, the summed total change is the summed market value minus the summed cost basis |
| Portfolios.MeanOfConstructedPeRatios | portfolio.py:27 | stocks as constructed carry P/E 0.0 (stock.py:41), so a non-empty portfolio never raises for lack of P/E values, and a successful mean is 0.0 |
| Portfolios.RemoveThenAdd | portfolio.py:35-47 | removing a stock and adding it back yields the same recomputation as the original list |
| Portfolios.TickersAfterRemove | portfolio.py:45-46 | the tickers of the stocks left after removal are the old tickers less one copy of the removed stock's symbol |
| Portfolios.SymbolInTickers | portfolio.py:45-46 | a stock in the list has its symbol in the tickers list, so the second `remove` cannot raise once the first succeeded |
| Portfolios.RemoveKeepsTickers | portfolio.py:45-46 | removing the stock and the first equal ticker keeps the tickers list equal, as a multiset, to the stocks' tickers |
| Portfolios.FiguresAfterRemove | portfolio.py:45 | the figures of the list after removal are the old figures with the removed position dropped |
| Portfolios.TickerOrderCanDiverge | portfolio.py:45-46 | for three distinct stocks with tickers X, Y, X, removing the third stock leaves tickers Y, X, while the remaining stocks carry X, Y: the two lists no longer agree in order |
| Portfolios.Portfolio.constructor | portfolio.py:13-14 | stores the stock list and the list of its tickers |
| Portfolios.Portfolio.Create | portfolio.py:7-15 | construction succeeds iff the first recomputation raises nothing. Then the portfolio holds the given list and its tickers, and it is consistent. Otherwise the exception is the recomputation's |
| Portfolios.Portfolio.CalculateValues | portfolio.py:17-27 | the list is untouched, and the fields and exception are those of `Recalculate` from the old fields. After a success the portfolio is consistent |
| Portfolios.Portfolio.AddStock | portfolio.py:29-37 | appends the stock and its ticker, keeps the tickers in step, and recomputes. From a consistent state, a successful recomputation adds the stock's own figures to the three sums |
| Portfolios.Portfolio.RemoveStock | portfolio.py:39-47 | an absent stock raises (ValueError) with nothing changed. Otherwise it removes the first occurrence of that very object and the first equal ticker, keeps the tickers in step, and recomputes. From a consistent state, a successful recomputation takes the stock's own figures off the three sums |
| Portfolios.ConsistentTotalChange | portfolio.py:21-23 | in a consistent portfolio of stocks that satisfy the valuation formulas, total change = market value − cost basis |
| Input.Accepted | input.py:30-41 | definition of the row rule both readers share (the Excel loop, input.py:65-77, follows it too): a parsed row adds its stock, a ValueError row is skipped, a TypeError row ends the reading; characterised by `AcceptedIsParsedPrefix` |
| Input.StopAt | input.py:30-41 | the position of the first row that raised TypeError, or the row count if none did |
| Input.AcceptedIsParsedPrefix | input.py:30-41 | the stocks read are exactly the parsed rows before the first TypeError, in file order |
| Input.ValueErrorRowSkipped | input.py:38-39 | a row that raised ValueError can be dropped without changing the stocks read |
| Input.TypeErrorRowStops | input.py:40-41 | nothing after the first TypeError row is read, whatever follows it |
| Input.AcceptedStep | input.py:30-41 | reading one more row extends the result by that row's stock, leaves it as it is (ValueError), or ends the reading (TypeError) |
| Input.UpperString | input.py:84 | `str.upper` on ASCII keeps the length, leaves no lower-case letter, turns each lower-case letter into the upper-case letter whose lower case it is, and leaves every other character as it is |
| Input.UpperStringIdempotent | input.py:84 | upper-casing an upper-cased string changes nothing |
| Input.ColumnLetterToIndex | input.py:82-85 | a result exists iff the string is one character long. 'A'..'Z' and 'a'..'z' map to 0..25, and any other character maps to its code − 65 |
| Input.ColumnLetterRoundTrip | input.py:82-85 | the conversion and `ColumnLetter` are inverse on the 26 upper-case letters |
| Input.ColumnLetterCaseInsensitive | input.py:84 | a lower-case letter gives the same index as its upper-case form |
| Input.ExcelRow | input.py:69-73 | definition of one sheet row's outcome: the cells in columns offset + 2, + 3 and + 4 of that row, converted to a stock; a row or column below 1 is refused with ValueError |
| Input.ExcelOutcomes | input.py:65-73 | definition: the `ExcelRow` outcomes of rows start_row through max_row inclusive, in ascending order |
| Input.ReadExcelRows | input.py:65-77 | the loop over rows start_row..max_row, with its skip and its early return, returns exactly `Accepted` of `ExcelOutcomes`: the parsed rows before the first TypeError, in sheet order |
| Input.ReadStocksFromExcel | input.py:45-79 | a start column that is not a single character raises before the loop. Otherwise the portfolio is built from the stocks read, and it is returned iff its recomputation succeeds |
| Input.CsvRows | input.py:26-41 | the file ending inside the records to skip, and only that, raises (StopIteration); otherwise the stocks read are the parsed records, in order, among those after the skipped ones and before the first TypeError |
| Input.ReadCsvRows | input.py:26-41 | the loops discard the leading records, raising if the file ends first, then return the row rule applied to the rest |
| Input.CsvStartRowAsWritten | input.py:26-27 | with the code's skip count, the default start row 2 loses the record on row 2 |
| Input.CsvStartRowIntended | input.py:26-27 | with the corrected skip count, the first record read is the one on the start row |
| Input.ReadStocksFromCsv | input.py:9-43 | with the corrected skip count: raises if the file ends before the start row; otherwise builds the portfolio from the stocks read, and returns it iff its recomputation succeeds |

## Left out

- The network price lookup (stock.py:43-58) is replaced by its outcome, `PriceLookup` (a close, an empty history, or an exception). Only the rule "0.0 whenever no close was found" is kept. The printing inside it is not modelled.
- Floating point: amounts are `real`, so rounding, NaN and infinities are not modelled. The closing price the lookup returns (stock.py:51) is a numpy float, so on a non-empty list the market value and total change are numpy floats too. Their division by a zero cost basis or a zero past market value (portfolio.py:24, 26) would give inf or nan with a warning rather than raise. The model raises ZeroDivisionError there (`ZeroCostBasis`, `ZeroPastMarketValue`), as Python floats do. Only the empty list (the integer 0/0 at portfolio.py:24) and the empty P/E mean (portfolio.py:27) raise in either reading.
- Display code is not modelled: `Stock.__str__`, `print_stocks`, `summary` and `Portfolio.__str__`.
- File access is not modelled: opening files, `csv.DictReader`, `openpyxl` workbooks, sheet lookup and `sheet.max_row`. The CSV reader takes the records after the header; the Excel reader takes a cell function and the last row number.
- Building a stock from a row is an input rather than code: `float()` parsing, the `Stock(...)` call, and which exception they raise. A row arrives as its outcome: a stock, a ValueError or a TypeError. As written, the readers call `Stock` without the required `company_name`, so every row whose numbers parse raises TypeError. The row outcomes let the model cover that case as well as the intended one.
- A CSV header lacking `Symbol`, `Qty` or `Cost/share` raises KeyError out of the reader. That case is not among the row outcomes.
- Input.ColumnLetterToIndex: restricted to ASCII strings. Python's Unicode upper-casing, which can change a string's length, is not modelled.
- Input.ReadStocksFromExcel: requires an ASCII start column, for the same reason. The source also accepts other characters: 'é' upper-cases to 'É' and gives offset 136.
- Input.UpperString: models `str.upper` on ASCII only.
- Aliasing of the stock list is not modelled. `Portfolio.__init__` keeps the caller's list object (portfolio.py:13), and `add_stock` and `remove_stock` change it in place (portfolio.py:35, 45), so the caller sees those changes. The model stores a copy (a `seq` value). A caller that appends to its list puts `tickers` out of step, and `remove_stock` on that stock then removes it from `stocks` and raises ValueError at portfolio.py:46 with no recomputation; that path does not exist in the model, whose `RemoveStock` requires the tickers to be in step. The readers pass a fresh local list (input.py:21, 59), so they are unaffected.
- `stock.ticker` and `stock.past_price` raise AttributeError as written, since `Stock` never sets them. The model reads the symbol and a past-price input instead, as described above.
- Printing of errors in the readers (input.py:39, 75) is not modelled.

## Findings

| source | as written | input that shows it | evidently intended | confidence | as-written member | corrected member |
|---|---|---|---|---|---|---|
| input.py:26-27 | the reader discards `start_row - 1` records, but `csv.DictReader` has already consumed the header row | a CSV with a header and one data record on row 2, read with the default `start_row = 2`: the record is discarded and no stock is read | discard `start_row - 2` records, so that reading begins at file row `start_row` | not executed; medium | Input.CsvStartRowAsWritten | Input.CsvStartRowIntended |
