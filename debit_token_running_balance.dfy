/**
 * `getDebitTokenRunningBalance`: the balance of a transaction's debit token
 * right after that transaction, read from the running-balance table.
 *
 * The two helpers the lookup calls are not part of this model and are taken
 * as parameters: `getDebitToken` (which token, if any, leaves the tracked
 * addresses in a transaction) and `formatValue` (display formatting of a
 * raw amount).
 */
module DebitTokenRunningBalance {
  import opened Wrappers
  import opened Balances

  /** The debit token; the lookup reads only its `name`. */
  datatype Token = Token(name: string)

  /**
   * A combined transaction. The lookup itself reads only `date`; everything
   * else is `details`, which only `getDebitToken` looks at.
   */
  datatype CombinedTransaction<D> = CombinedTransaction(date: Timestamp, details: D)

  /** What the lookup hands back on success. */
  datatype SymbolData = SymbolData(
    value: int,
    valueInDecimals: string,
    valueInRoundedDecimals: string,
    decimals: int,
    symbol: string,
    name: string)

  /** The three ways the lookup fails, one constructor per thrown error. */
  datatype LookupError =
    | NoRunningBalances                                   // `validate` refused the table
    | NoTokenSeries(token: string)                        // no series for the debit token
    | NoSnapshotAtDate(token: string, date: Timestamp)    // no snapshot at exactly `date`

  /**
   * `formatValue(value, decimals, rounded)`; the third argument is either
   * passed (`Some(b)`) or omitted (`None`), in which case `formatValue`'s own
   * default applies.
   */
  type Formatter = (int, int, Option<bool>) -> string

  /** `validate(runningBalances, 'No runningBalances')`: an absent table is an error. */
  function Validate(runningBalances: Option<RunningBalances>): (r: Result<RunningBalances, LookupError>)
    ensures r.Err? <==> runningBalances.None?
    ensures r.Err? ==> r.error == NoRunningBalances
    ensures r.Ok? ==> Some(r.value) == runningBalances
  {
    match runningBalances
    case None => Err(NoRunningBalances)
    case Some(table) => Ok(table)
  }

  /** The record built from a found snapshot. */
  function ToSymbolData(snapshot: Snapshot, formatValue: Formatter): (d: SymbolData)
    ensures d.value == snapshot.value && d.decimals == snapshot.decimals
    ensures d.symbol == snapshot.symbol && d.name == snapshot.name
    ensures d.valueInDecimals == formatValue(snapshot.value, snapshot.decimals, Some(false))
    ensures d.valueInRoundedDecimals == formatValue(snapshot.value, snapshot.decimals, None)
  {
    var decimals := snapshot.decimals;
    var value := snapshot.value;
    var valueInDecimals := formatValue(value, decimals, Some(false));
    var valueInRoundedDecimals := formatValue(value, decimals, None);
    SymbolData(value, valueInDecimals, valueInRoundedDecimals, decimals, snapshot.symbol, snapshot.name)
  }

  /**
   * The lookup itself. `Ok(None)` is the source's `null`; `Err(e)` is a thrown
   * error. The steps and their order follow the source: validate the table,
   * find the debit token, find its series, find the snapshot at exactly the
   * transaction's timestamp, copy it out.
   */
  function GetDebitTokenRunningBalance<D>(
    getDebitToken: CombinedTransaction<D> -> Option<Token>,
    formatValue: Formatter,
    transaction: CombinedTransaction<D>,
    runningBalances: Option<RunningBalances>
  ): (r: Result<Option<SymbolData>, LookupError>)
    // The missing-table error is raised exactly when the table is absent,
    // whatever the transaction holds.
    ensures r == Err(NoRunningBalances) <==> runningBalances.None?
    // `null` exactly when a table is given and there is no debit token.
    ensures r == Ok(None) <==> runningBalances.Some? && getDebitToken(transaction).None?
    // The model's integrity errors carry the debit token's name, and the
    // snapshot error also carries the transaction's own timestamp.
    ensures r.Err? && r.error.NoTokenSeries? ==> Some(Token(r.error.token)) == getDebitToken(transaction)
    ensures r.Err? && r.error.NoSnapshotAtDate? ==>
      Some(Token(r.error.token)) == getDebitToken(transaction) && r.error.date == transaction.date
    // A success reports the snapshot stored under the debit token's name at
    // exactly the transaction's timestamp.
    ensures r.Ok? && r.value.Some? ==>
      && runningBalances.Some?
      && getDebitToken(transaction).Some?
      && var name := getDebitToken(transaction).value.name;
      && name in runningBalances.value
      && transaction.date in runningBalances.value[name]
      && r.value.value == ToSymbolData(runningBalances.value[name][transaction.date], formatValue)
  {
    var date := transaction.date;
    var currentRunningBalances :- Validate(runningBalances);
    match getDebitToken(transaction)
    case None => Ok(None)
    case Some(debitToken) =>
      match Locate(currentRunningBalances, debitToken.name, date)
      case NoSeries => Err(NoTokenSeries(debitToken.name))
      case NoSnapshot => Err(NoSnapshotAtDate(debitToken.name, date))
      case At(snapshot) => Ok(Some(ToSymbolData(snapshot, formatValue)))
  }

  // ---------------------------------------------------------------------
  // Properties of the lookup

  /** The table check comes first: without a table even a transaction with no debit token fails. */
  lemma MissingTableFailsFirst<D>(
    getDebitToken: CombinedTransaction<D> -> Option<Token>, formatValue: Formatter,
    transaction: CombinedTransaction<D>)
    ensures GetDebitTokenRunningBalance(getDebitToken, formatValue, transaction, None) == Err(NoRunningBalances)
  {
  }

  /** With a table, a transaction without a debit token gives `null`, never an error. */
  lemma NoDebitTokenIsNull<D>(
    getDebitToken: CombinedTransaction<D> -> Option<Token>, formatValue: Formatter,
    transaction: CombinedTransaction<D>, table: RunningBalances)
    requires getDebitToken(transaction).None?
    ensures GetDebitTokenRunningBalance(getDebitToken, formatValue, transaction, Some(table)) == Ok(None)
  {
  }

  /** A debit token without a series in the table is an integrity error naming that token. */
  lemma MissingSeriesFails<D>(
    getDebitToken: CombinedTransaction<D> -> Option<Token>, formatValue: Formatter,
    transaction: CombinedTransaction<D>, table: RunningBalances, name: string)
    requires getDebitToken(transaction) == Some(Token(name))
    requires name !in table
    ensures GetDebitTokenRunningBalance(getDebitToken, formatValue, transaction, Some(table)) == Err(NoTokenSeries(name))
  {
  }

  /**
   * A series without a snapshot at exactly the transaction's timestamp is the
   * second integrity error, however many snapshots it holds at other
   * timestamps (an empty series included).
   */
  lemma MissingSnapshotFails<D>(
    getDebitToken: CombinedTransaction<D> -> Option<Token>, formatValue: Formatter,
    transaction: CombinedTransaction<D>, table: RunningBalances, name: string)
    requires getDebitToken(transaction) == Some(Token(name))
    requires name in table && transaction.date !in table[name]
    ensures GetDebitTokenRunningBalance(getDebitToken, formatValue, transaction, Some(table))
         == Err(NoSnapshotAtDate(name, transaction.date))
  {
  }

  /**
   * Lookup exactness: for a debit transaction and a table, the lookup
   * succeeds exactly when a snapshot is stored at the token's name and the
   * transaction's exact timestamp, and is an integrity error (never `null`)
   * otherwise.
   */
  lemma DebitLookupIsExact<D>(
    getDebitToken: CombinedTransaction<D> -> Option<Token>, formatValue: Formatter,
    transaction: CombinedTransaction<D>, table: RunningBalances, name: string)
    requires getDebitToken(transaction) == Some(Token(name))
    ensures var r := GetDebitTokenRunningBalance(getDebitToken, formatValue, transaction, Some(table));
      && (r.Ok? <==> exists s :: StoredAt(table, name, transaction.date, s))
      && (r.Ok? ==> r.value.Some?)
  {
    if name in table && transaction.date in table[name] {
      assert StoredAt(table, name, transaction.date, table[name][transaction.date]);
    }
  }

  /** `s` is stored in `table` under `name` at exactly `date`. */
  ghost predicate StoredAt(table: RunningBalances, name: string, date: Timestamp, s: Snapshot) {
    name in table && date in table[name] && table[name][date] == s
  }

  /**
   * On success the raw fields are those of the snapshot at
   * `table[name][date]`, and both display strings come from that snapshot's
   * value and decimals alone.
   */
  lemma SuccessCopiesSnapshot<D>(
    getDebitToken: CombinedTransaction<D> -> Option<Token>, formatValue: Formatter,
    transaction: CombinedTransaction<D>, table: RunningBalances, d: SymbolData)
    requires GetDebitTokenRunningBalance(getDebitToken, formatValue, transaction, Some(table)) == Ok(Some(d))
    ensures getDebitToken(transaction).Some?
    ensures exists s :: (
      && StoredAt(table, getDebitToken(transaction).value.name, transaction.date, s)
      && d.value == s.value && d.decimals == s.decimals && d.symbol == s.symbol && d.name == s.name
      && d.valueInDecimals == formatValue(s.value, s.decimals, Some(false))
      && d.valueInRoundedDecimals == formatValue(s.value, s.decimals, None))
  {

  }

  /**
   * The outcome depends on the table only through where the debit token's
   * name and the transaction's timestamp land in it.
   */
  lemma DependsOnlyOnLocation<D>(
    getDebitToken: CombinedTransaction<D> -> Option<Token>, formatValue: Formatter,
    transaction: CombinedTransaction<D>, table1: RunningBalances, table2: RunningBalances, name: string)
    requires getDebitToken(transaction) == Some(Token(name))
    requires Locate(table1, name, transaction.date) == Locate(table2, name, transaction.date)
    ensures GetDebitTokenRunningBalance(getDebitToken, formatValue, transaction, Some(table1))
         == GetDebitTokenRunningBalance(getDebitToken, formatValue, transaction, Some(table2))
  {
  }

  /** Adding, replacing or removing another token's series does not change the outcome. */
  lemma OtherSeriesAreIrrelevant<D>(
    getDebitToken: CombinedTransaction<D> -> Option<Token>, formatValue: Formatter,
    transaction: CombinedTransaction<D>, table: RunningBalances, other: string, series: Series)
    requires getDebitToken(transaction).None? || getDebitToken(transaction).value.name != other
    ensures GetDebitTokenRunningBalance(getDebitToken, formatValue, transaction, Some(table[other := series]))
         == GetDebitTokenRunningBalance(getDebitToken, formatValue, transaction, Some(table))
    ensures GetDebitTokenRunningBalance(getDebitToken, formatValue, transaction, Some(table - {other}))
         == GetDebitTokenRunningBalance(getDebitToken, formatValue, transaction, Some(table))
  {

  }

  /**
   * Snapshots at other timestamps of the debit token's series are never
   * used: storing one at any other timestamp, or removing one, does not
   * change the outcome (in particular there is no nearest-before fallback).
   */
  lemma OtherTimestampsAreIrrelevant<D>(
    getDebitToken: CombinedTransaction<D> -> Option<Token>, formatValue: Formatter,
    transaction: CombinedTransaction<D>, table: RunningBalances, name: string, other: Timestamp, s: Snapshot)
    requires getDebitToken(transaction) == Some(Token(name))
    requires name in table && other != transaction.date
    ensures GetDebitTokenRunningBalance(getDebitToken, formatValue, transaction, Some(table[name := table[name][other := s]]))
         == GetDebitTokenRunningBalance(getDebitToken, formatValue, transaction, Some(table))
    ensures GetDebitTokenRunningBalance(getDebitToken, formatValue, transaction, Some(table[name := table[name] - {other}]))
         == GetDebitTokenRunningBalance(getDebitToken, formatValue, transaction, Some(table))
  {

  }

  /**
   * The display strings depend only on the snapshot's value and decimals:
   * two formatters that agree on the two calls the lookup makes give the
   * same outcome.
   */
  lemma FormattingDependsOnlyOnValueAndDecimals<D>(
    getDebitToken: CombinedTransaction<D> -> Option<Token>, format1: Formatter, format2: Formatter,
    transaction: CombinedTransaction<D>, table: RunningBalances, name: string)
    requires getDebitToken(transaction) == Some(Token(name))
    requires name in table && transaction.date in table[name]
    requires var s := table[name][transaction.date];
      && format1(s.value, s.decimals, Some(false)) == format2(s.value, s.decimals, Some(false))
      && format1(s.value, s.decimals, None) == format2(s.value, s.decimals, None)
    ensures GetDebitTokenRunningBalance(getDebitToken, format1, transaction, Some(table))
         == GetDebitTokenRunningBalance(getDebitToken, format2, transaction, Some(table))
  {
  }
}
