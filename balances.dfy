/**
 * The running-balance table that the lookup reads: for every token name, a
 * series of balance snapshots keyed by the millisecond timestamp
 * (`date.valueOf()`) of the transaction that produced them.
 */
module Balances {

  /** A millisecond timestamp, the integer `Date.valueOf()` returns. */
  type Timestamp = int

  /** One entry of a series: the balance right after one transaction. */
  datatype Snapshot = Snapshot(value: int, decimals: int, symbol: string, name: string)

  /** The snapshots of one token, keyed by transaction timestamp. */
  type Series = map<Timestamp, Snapshot>

  /** Token name to that token's series. */
  type RunningBalances = map<string, Series>

  /**
   * Where a (token name, timestamp) query lands in a table: on no series at
   * all, on a series without a snapshot at exactly that timestamp, or on a
   * stored snapshot.
   */
  datatype Location = NoSeries | NoSnapshot | At(snapshot: Snapshot)

  /** Exact-match location of a query; no nearby timestamp is ever used. */
  function Locate(table: RunningBalances, name: string, date: Timestamp): (loc: Location)
    ensures loc.NoSeries? <==> name !in table
    ensures loc.NoSnapshot? <==> name in table && date !in table[name]
    ensures loc.At? <==> name in table && date in table[name]
    ensures loc.At? ==> loc.snapshot == table[name][date]
  {
    if name !in table then NoSeries
    else if date !in table[name] then NoSnapshot
    else At(table[name][date])
  }
}
