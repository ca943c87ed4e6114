/** The value types shared by the services: the raw daily record, the derived metric
    record that is cached per (symbol, date), the validated date range and the exceptions
    the services raise. Dates are day numbers (days since 1970-01-01, as
    LocalDate.toEpochDay counts them); prices are real numbers. */
module Model {
  import opened Results

  /** Java's 32-bit `int`. */
  type Int32 = x: int | -0x8000_0000 <= x < 0x8000_0000

  /** The narrowing `(int)` cast of a Java `long`: keeps the low 32 bits, two's complement. */
  function ToInt32(x: int): (r: Int32)
    ensures -0x8000_0000 <= x < 0x8000_0000 ==> r == x
    ensures (r - x) % 0x1_0000_0000 == 0
  {
    var low := x % 0x1_0000_0000;
    if low < 0x8000_0000 then low else low - 0x1_0000_0000
  }

  /** One trading day of a symbol (DailyStockRecord). */
  datatype Record = Record(symbol: string, date: int, open: real, high: real, low: real, close: real)

  /** The metrics of one symbol on one day (DailyStockMetrics); the store keys it by
      (symbol, date). A derived field is None where the Java field is null. */
  datatype Metric = Metric(
    symbol: string,
    date: int,
    close: real,
    previousCloseChange: Option<real>,
    movingAverage: Option<real>,
    volatility: Option<real>,
    momentum: Option<real>)

  /** The partition and sort key of a stored metric. */
  function KeyOf(m: Metric): (string, int) {
    (m.symbol, m.date)
  }

  /** An inclusive range of days (DateRange). */
  datatype DateRange = DateRange(startDate: int, endDate: int)

  /** Why an IllegalArgumentException was raised. */
  datatype Reason =
    | StartTooEarly(minStartDate: int)
    | EndTooLate(maxEndDate: int)
    | StartAfterEnd(startDate: int, endDate: int)
    | BadDateFormat
    | BlankSymbol
    | NegativeLimit

  /** Which part of a time-series document the parser could not read. */
  datatype ParseProblem = Unreadable | MissingField

  /** The exceptions of the core, one constructor per Java exception class. */
  datatype Failure =
    | IllegalArgument(reason: Reason)        // IllegalArgumentException
    | MetricBuilderFailure(missing: int)     // MetricBuilderException: the date is not in the history
    | ParserFailure(problem: ParseProblem)   // ParserException
    | StorageFailure                         // DynamoClientException
    | StockAnalysisFailure(cause: Failure)   // StockAnalysisException, wrapping its cause
    | DateTimeParse                          // DateTimeParseException escaping LocalDate.parse
    | IndexOutOfBounds                       // List.get(size() - 1) on an empty list
    | NoSuchElement                          // List.getFirst() on an empty list
}
