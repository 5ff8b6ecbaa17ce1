/**
 * Reading holdings from a CSV file or an Excel sheet. Opening and parsing the files is
 * library code; each data row arrives here as the outcome of building a stock from it.
 */
module Input {
  import opened Wrappers
  import opened Stocks
  import opened Portfolios

  /**
   * What building a stock from one row gave: the stock, a ValueError (a field that is not
   * a number), or a TypeError (a field that is missing).
   */
  datatype RowOutcome<T> = Parsed(value: T) | ValueErrorRow | TypeErrorRow

  /**
   * The rule both readers share: skip a row that raised ValueError, stop at the first row
   * that raised TypeError, keep the parsed rows in file order.
   */
  function Accepted<T>(rows: seq<RowOutcome<T>>): seq<T>
  {
    if rows == [] then []
    else match rows[0]
      case Parsed(v) => [v] + Accepted(rows[1..])
      case ValueErrorRow => Accepted(rows[1..])
      case TypeErrorRow => []
  }

  /** The position of the first row that raised TypeError, or the number of rows if none did. */
  function StopAt<T>(rows: seq<RowOutcome<T>>): (n: nat)
    ensures n <= |rows|
    ensures forall i :: 0 <= i < n ==> !rows[i].TypeErrorRow?
    ensures n < |rows| ==> rows[n].TypeErrorRow?
  {
    if rows == [] || rows[0].TypeErrorRow? then 0 else 1 + StopAt(rows[1..])
  }

  /** The values of the parsed rows, in order, whatever else the list holds. */
  function ParsedValues<T>(rows: seq<RowOutcome<T>>): seq<T>
  {
    if rows == [] then []
    else (if rows[0].Parsed? then [rows[0].value] else []) + ParsedValues(rows[1..])
  }

  /**
   * The result is exactly the parsed rows that come before the first TypeError, in file order:
   * ValueError rows drop out, and nothing after the first TypeError is read.
   */
  lemma {:induction false} AcceptedIsParsedPrefix<T>(rows: seq<RowOutcome<T>>)
    ensures Accepted(rows) == ParsedValues(rows[..StopAt(rows)])
  {
    if rows != [] && !rows[0].TypeErrorRow? {
      AcceptedIsParsedPrefix(rows[1..]);
      assert rows[..StopAt(rows)][1..] == rows[1..][..StopAt(rows[1..])];
    }
  }

  /** A row that raised ValueError can be dropped without changing the result. */
  lemma {:induction false} ValueErrorRowSkipped<T>(before: seq<RowOutcome<T>>, after: seq<RowOutcome<T>>)
    ensures Accepted(before + [ValueErrorRow] + after) == Accepted(before + after)
  {
    if before == [] {
      var rows: seq<RowOutcome<T>> := [ValueErrorRow] + after;
      assert before + [ValueErrorRow] + after == rows && before + after == after;
      assert rows[0] == ValueErrorRow && rows[1..] == after;
    } else {
      assert (before + [ValueErrorRow] + after)[1..] == before[1..] + [ValueErrorRow] + after;
      assert (before + after)[1..] == before[1..] + after;
      ValueErrorRowSkipped(before[1..], after);
    }
  }

  /** Rows after a TypeError are never read: whatever follows, the result is that of the rows before it. */
  lemma {:induction false} TypeErrorRowStops<T>(before: seq<RowOutcome<T>>, after: seq<RowOutcome<T>>)
    ensures Accepted(before + [TypeErrorRow] + after) == Accepted(before + [TypeErrorRow])
  {
    if before != [] {
      assert (before + [TypeErrorRow] + after)[1..] == before[1..] + [TypeErrorRow] + after;
      assert (before + [TypeErrorRow])[1..] == before[1..] + [TypeErrorRow];
      TypeErrorRowStops(before[1..], after);
    }
  }

  /** One row more, read in order: the rule applied to a prefix extends by the next row's outcome. */
  lemma {:induction false} AcceptedStep<T>(rows: seq<RowOutcome<T>>, i: nat)
    requires i < |rows|
    requires StopAt(rows[..i]) == i
    ensures StopAt(rows[..i + 1]) == i + 1 ==> rows[i].Parsed? || rows[i].ValueErrorRow?
    ensures rows[i].Parsed? ==> Accepted(rows[..i + 1]) == Accepted(rows[..i]) + [rows[i].value]
    ensures rows[i].ValueErrorRow? ==> Accepted(rows[..i + 1]) == Accepted(rows[..i])
    ensures rows[i].TypeErrorRow? ==> Accepted(rows) == Accepted(rows[..i])
  {
    if i == 0 {
      assert rows[..1] == [rows[0]];
      assert rows[..0] == [];
    } else {
      assert rows[..i + 1][1..] == rows[1..][..i];
      assert rows[..i][1..] == rows[1..][..i - 1];
      assert StopAt(rows[1..][..i - 1]) == i - 1;
      AcceptedStep(rows[1..], i - 1);
    }
  }

  /** The upper-case form of an ASCII character (`str.upper`); other characters are left alone. */
  function Upper(c: char): char
  {
    if 'a' <= c <= 'z' then (c as int - 32) as char else c
  }

  /** The lower-case form of an ASCII character; other characters are left alone. */
  function Lower(c: char): char
  {
    if 'A' <= c <= 'Z' then (c as int + 32) as char else c
  }

  /**
   * `str.upper` on an ASCII string: the length is kept, no lower-case letter remains, a
   * lower-case letter becomes the upper-case letter it is the lower case of, and every other
   * character is left as it is.
   */
  function UpperString(s: string): (u: string)
    ensures |u| == |s|
    ensures forall k :: 0 <= k < |u| ==> !('a' <= u[k] <= 'z')
    ensures forall k :: 0 <= k < |s| && 'a' <= s[k] <= 'z' ==> 'A' <= u[k] <= 'Z' && Lower(u[k]) == s[k]
    ensures forall k :: 0 <= k < |s| && !('a' <= s[k] <= 'z') ==> u[k] == s[k]
  {
    seq(|s|, k requires 0 <= k < |s| => Upper(s[k]))
  }

  /** Upper-casing twice is upper-casing once. */
  lemma UpperStringIdempotent(s: string)
    ensures UpperString(UpperString(s)) == UpperString(s)
  {
  }

  /**
   * The zero-based index of a column letter: 'A' and 'a' are 0, 'B' and 'b' are 1. Taking the
   * code of a string that is not exactly one character raises TypeError, here None.
   */
  function ColumnLetterToIndex(letter: string): (r: Option<int>)
    requires forall k :: 0 <= k < |letter| ==> letter[k] as int < 128
    ensures r.Some? <==> |letter| == 1
    ensures |letter| == 1 && 'A' <= letter[0] <= 'Z' ==> r == Some(letter[0] as int - 'A' as int)
    ensures |letter| == 1 && 'a' <= letter[0] <= 'z' ==> r == Some(letter[0] as int - 'a' as int)
    ensures |letter| == 1 && !('a' <= letter[0] <= 'z') ==> r == Some(letter[0] as int - 65)
  {
    var u := UpperString(letter);
    if |u| != 1 then None else Some(u[0] as int - 'A' as int)
  }

  /** The column letter of a zero-based index below 26. */
  function ColumnLetter(i: int): string
    requires 0 <= i < 26
  {
    [('A' as int + i) as char]
  }

  /** Letters and indexes correspond one to one: the letter of an index maps back to it, and back again. */
  lemma ColumnLetterRoundTrip(i: int, letter: string)
    requires 0 <= i < 26
    requires |letter| == 1 && 'A' <= letter[0] <= 'Z'
    ensures ColumnLetterToIndex(ColumnLetter(i)) == Some(i)
    ensures var j := ColumnLetterToIndex(letter).value; 0 <= j < 26 && ColumnLetter(j) == letter
  {
  }

  /** Column letters are case-insensitive. */
  lemma ColumnLetterCaseInsensitive(c: char)
    requires 'A' <= c <= 'Z'
    ensures ColumnLetterToIndex([Lower(c)]) == ColumnLetterToIndex([c])
  {
  }

  /**
   * The outcome for one sheet row: the symbol, the quantity and the cost per share are read
   * from the 1-based columns offset + 2, offset + 3 and offset + 4. The sheet refuses a row
   * or a column below 1 with ValueError.
   */
  function ExcelRow<C, T>(cell: (int, int) -> C, convert: (C, C, C) -> RowOutcome<T>,
                          offset: int, rowNum: int): RowOutcome<T>
  {
    if rowNum < 1 || offset + 2 < 1 then ValueErrorRow
    else convert(cell(rowNum, offset + 2), cell(rowNum, offset + 3), cell(rowNum, offset + 4))
  }

  /** The outcomes of rows startRow through maxRow inclusive, in ascending order. */
  function ExcelOutcomes<C, T>(cell: (int, int) -> C, convert: (C, C, C) -> RowOutcome<T>,
                               offset: int, startRow: int, maxRow: int): seq<RowOutcome<T>>
  {
    if maxRow < startRow then []
    else seq(maxRow - startRow + 1, k => ExcelRow(cell, convert, offset, startRow + k))
  }

  /**
   * The Excel reader's loop: rows startRow through maxRow of the sheet, the stock columns
   * placed after the column offset of the start column's letter.
   */
  method ReadExcelRows<C, T>(cell: (int, int) -> C, convert: (C, C, C) -> RowOutcome<T>,
                             startRow: int, maxRow: int, offset: int) returns (stocks: seq<T>)
    ensures stocks == Accepted(ExcelOutcomes(cell, convert, offset, startRow, maxRow))
  {
    ghost var rows := ExcelOutcomes(cell, convert, offset, startRow, maxRow);
    stocks := [];
    var rowNum := startRow;
    while rowNum < maxRow + 1
      invariant startRow <= rowNum
      invariant rowNum - startRow <= |rows|
      invariant StopAt(rows[..rowNum - startRow]) == rowNum - startRow
      invariant stocks == Accepted(rows[..rowNum - startRow])
      decreases maxRow + 1 - rowNum
    {
      var i := rowNum - startRow;
      assert rows[i] == ExcelRow(cell, convert, offset, rowNum);
      AcceptedStep(rows, i);
      var outcome := ExcelRow(cell, convert, offset, rowNum);
      if outcome.TypeErrorRow? {
        return;
      }
      if outcome.Parsed? {
        stocks := stocks + [outcome.value];
      }
      rowNum := rowNum + 1;
    }
    assert rows[..|rows|] == rows;
  }

  /**
   * Why a reader raised: the file ended inside the rows to skip, the start column is not a
   * single character, or the portfolio could not be built.
   */
  datatype ReadError = EndOfFileBeforeStartRow | StartColumnNotOneCharacter | PortfolioFailed(error: CalcError)

  /** The CSV reader's result: skip records, then apply the row rule to the rest. */
  function CsvRows<T>(records: seq<RowOutcome<T>>, skip: int): (r: Result<seq<T>, ReadError>)
    ensures r.Failure? <==> skip > |records|
    ensures r.Failure? ==> r.error == EndOfFileBeforeStartRow
    ensures r.Success? ==> var rest := records[if skip < 0 then 0 else skip..];
      r.value == ParsedValues(rest[..StopAt(rest)])
  {
    if skip > |records| then Failure(EndOfFileBeforeStartRow)
    else
      var rest := records[if skip < 0 then 0 else skip..];
      AcceptedIsParsedPrefix(rest);
      Success(Accepted(rest))
  }

  /** How many records after the header the CSV reader discards for a start row, as written. */
  function SkipAsWritten(startRow: int): int
  {
    startRow - 1
  }

  /** How many records after the header precede the 1-based file row startRow (row 1 is the header). */
  function SkipToStartRow(startRow: int): int
  {
    startRow - 2
  }

  /**
   * As written, the record on file row startRow is itself discarded: a file whose only data
   * record is on row 2 yields nothing with the default start row 2.
   */
  lemma CsvStartRowAsWritten<T>(x: T)
    ensures CsvRows([Parsed(x)], SkipAsWritten(2)) == Success([])
  {
    assert [Parsed(x)][1..] == [];
  }

  /**
   * Skipping the records before file row startRow, the first record read is the one on that row:
   * if it parses, the result starts with it.
   */
  lemma CsvStartRowIntended<T>(records: seq<RowOutcome<T>>, startRow: int)
    requires 2 <= startRow <= |records| + 1
    ensures CsvRows(records, SkipToStartRow(startRow)).Success?
    ensures startRow - 2 < |records| && records[startRow - 2].Parsed? ==>
      var r := CsvRows(records, SkipToStartRow(startRow)).value;
      |r| > 0 && r[0] == records[startRow - 2].value
  {
  }

  /**
   * The CSV reader's loops: discard skip records (the file ending first raises StopIteration),
   * then read the remaining records under the row rule.
   */
  method ReadCsvRows<T>(records: seq<RowOutcome<T>>, skip: int) returns (r: Result<seq<T>, ReadError>)
    ensures r == CsvRows(records, skip)
  {
    var next := 0;
    for k := 0 to if skip < 0 then 0 else skip
      invariant next == k <= |records|
    {
      if next == |records| {
        return Failure(EndOfFileBeforeStartRow);
      }
      next := next + 1;
    }
    ghost var rows := records[next..];
    var stocks := [];
    var j := next;
    while j < |records|
      invariant next <= j <= |records|
      invariant StopAt(rows[..j - next]) == j - next
      invariant stocks == Accepted(rows[..j - next])
    {
      assert rows[j - next] == records[j];
      AcceptedStep(rows, j - next);
      if records[j].TypeErrorRow? {
        return Success(stocks);
      }
      if records[j].Parsed? {
        stocks := stocks + [records[j].value];
      }
      j := j + 1;
    }
    assert rows[..j - next] == rows;
    return Success(stocks);
  }

  /**
   * `read_stocks_from_csv`: the records after the header, read from file row startRow on,
   * and a portfolio built from the stocks read.
   */
  method ReadStocksFromCsv(records: seq<RowOutcome<Stock>>, startRow: int)
    returns (r: Result<Portfolio, ReadError>)
    ensures CsvRows(records, SkipToStartRow(startRow)).Failure? ==> r == Failure(EndOfFileBeforeStartRow)
    ensures CsvRows(records, SkipToStartRow(startRow)).Success? ==>
      var stocks := CsvRows(records, SkipToStartRow(startRow)).value;
      && (r.Success? <==> Recalculate(Unset, AllFigures(stocks)).error == None)
      && (r.Failure? ==> r.error.PortfolioFailed? && Recalculate(Unset, AllFigures(stocks)).error == Some(r.error.error))
      && (r.Success? ==> fresh(r.value) && r.value.stocks == stocks && r.value.Valid() && r.value.Consistent())
  {
    var rows := ReadCsvRows(records, SkipToStartRow(startRow));
    if rows.Failure? {
      return Failure(rows.error);
    }
    var p := Portfolio.Create(rows.value);
    if p.Failure? {
      return Failure(PortfolioFailed(p.error));
    }
    return Success(p.value);
  }

  /**
   * `read_stocks_from_excel`: the start column's offset (its TypeError is not caught), the
   * sheet's rows read into stocks, and a portfolio built from them.
   */
  method ReadStocksFromExcel<C>(cell: (int, int) -> C, convert: (C, C, C) -> RowOutcome<Stock>,
                                startRow: int, maxRow: int, startColumn: string)
    returns (r: Result<Portfolio, ReadError>)
    requires forall k :: 0 <= k < |startColumn| ==> startColumn[k] as int < 128
    ensures |startColumn| != 1 <==> r == Failure(StartColumnNotOneCharacter)
    ensures |startColumn| == 1 ==>
      var stocks := Accepted(ExcelOutcomes(cell, convert, ColumnLetterToIndex(startColumn).value, startRow, maxRow));
      && (r.Success? <==> Recalculate(Unset, AllFigures(stocks)).error == None)
      && (r.Failure? ==> r.error.PortfolioFailed? && Recalculate(Unset, AllFigures(stocks)).error == Some(r.error.error))
      && (r.Success? ==> fresh(r.value) && r.value.stocks == stocks && r.value.Valid() && r.value.Consistent())
  {
    var offset := ColumnLetterToIndex(startColumn);
    if offset.None? {
      return Failure(StartColumnNotOneCharacter);
    }
    var stocks := ReadExcelRows(cell, convert, startRow, maxRow, offset.value);
    var p := Portfolio.Create(stocks);
    if p.Failure? {
      return Failure(PortfolioFailed(p.error));
    }
    return Success(p.value);
  }
}
