# Debit-token running-balance lookup

This project models the monthly-statement app's lookup of a transaction's debit-side balance, `getDebitTokenRunningBalance`. The app first folds all combined transactions into a running-balance table. The table maps a token's name to a series of balance snapshots. Each snapshot is keyed by the millisecond timestamp (`date.valueOf()`) of the transaction that produced it. For one combined transaction, the lookup:

1. refuses a missing table;
2. returns `null` when the transaction has no debit token;
3. raises an integrity error when the table has no series for the debit token's name;
4. raises a second integrity error when that series has no snapshot at exactly the transaction's timestamp;
5. otherwise returns the snapshot's value, decimals, symbol and name, together with two display strings made from the value and decimals.

Files:

- `wrappers.dfy` (module `Wrappers`): `Option` and a failure-compatible `Result`.
- `balances.dfy` (module `Balances`): the table type `RunningBalances` (`map<string, map<int, Snapshot>>`) and `Locate`, the exact-match view of a (name, timestamp) query.
- `debit_token_running_balance.dfy` (module `DebitTokenRunningBalance`): the lookup and its properties.

Modelling decisions:

- The result is `Result<Option<SymbolData>, LookupError>`. `Ok(None)` is the source's `null`. Each thrown error has its own `LookupError` constructor: `NoRunningBalances`, `NoTokenSeries` and `NoSnapshotAtDate`.
- An absent table (`undefined`, or `null` as the caller's type allows) is `None`. `validate` is modelled as rejecting exactly that.
- `getDebitToken` and `formatValue` are not part of this model. They are function parameters of the lookup with no assumed behaviour. `formatValue`'s optional third argument is `Option<bool>`. `Some(false)` is the explicit `false` on line 37. `None` is the omitted argument on line 38, so `formatValue`'s own default applies.
- The lookup reads only the `date` of a combined transaction. All other fields are a type parameter that only `getDebitToken` sees.
- A series that exists but is empty is still truthy in the source. So it leads to the snapshot error, not the series error. The model does the same.
- The lookup is a Dafny function, so it reads nothing outside its arguments and writes nothing. Equal inputs always give equal outcomes.
- The lookup returns the snapshot's `value`, which is the running balance right after the transaction, not the amount debited.

## Model

| member | source | states |
|---|---|---|
| `Balances.Locate` | src/modules/transactions/getDataFromTransaction/getDebitTokenRunningBalance.ts:21-33 | A query lands on "no series" exactly when the name is absent. It lands on "no snapshot" exactly when the series exists but lacks that exact timestamp. It lands on a snapshot exactly when one is stored there, and then it is the stored one. |
| `DebitTokenRunningBalance.Validate` | src/modules/transactions/getDataFromTransaction/getDebitTokenRunningBalance.ts:13 | Fails with `NoRunningBalances` exactly when the table is absent, and otherwise passes the given table through. |
| `DebitTokenRunningBalance.ToSymbolData` | src/modules/transactions/getDataFromTransaction/getDebitTokenRunningBalance.ts:35-47 | The record carries the snapshot's value, decimals, symbol and name. Its unrounded string is `formatValue(value, decimals, false)` and its rounded string is `formatValue(value, decimals)`. |
| `DebitTokenRunningBalance.GetDebitTokenRunningBalance` | src/modules/transactions/getDataFromTransaction/getDebitTokenRunningBalance.ts:8-48 | The missing-table error happens if and only if the table is absent. `null` happens if and only if a table is given and there is no debit token. In the model both integrity errors carry the debit token's name and the snapshot error also carries the transaction's own timestamp; the program's first error message does not show the name (it interpolates the missing series). A success reports the snapshot stored under the debit token's name at exactly the transaction's timestamp. |
| `DebitTokenRunningBalance.MissingTableFailsFirst` | src/modules/transactions/getDataFromTransaction/getDebitTokenRunningBalance.ts:13-19 | With no table, the call fails for every transaction, including one with no debit token. |
| `DebitTokenRunningBalance.NoDebitTokenIsNull` | src/modules/transactions/getDataFromTransaction/getDebitTokenRunningBalance.ts:15-19 | With a table and no debit token, the result is `null`, not an error. |
| `DebitTokenRunningBalance.MissingSeriesFails` | src/modules/transactions/getDataFromTransaction/getDebitTokenRunningBalance.ts:21-25 | If the debit token's name has no series in the table, the call fails with `NoTokenSeries` for that name. |
| `DebitTokenRunningBalance.MissingSnapshotFails` | src/modules/transactions/getDataFromTransaction/getDebitTokenRunningBalance.ts:27-33 | If the series exists but has no key equal to the transaction's timestamp, the call fails with the distinct `NoSnapshotAtDate` error. Snapshots at other timestamps, or an empty series, do not help. |
| `DebitTokenRunningBalance.DebitLookupIsExact` | src/modules/transactions/getDataFromTransaction/getDebitTokenRunningBalance.ts:15-33 | For a debit transaction and a table, the result is a success exactly when some snapshot is stored at the token's name and the exact timestamp. Otherwise it is an error, never `null`. |
| `DebitTokenRunningBalance.SuccessCopiesSnapshot` | src/modules/transactions/getDataFromTransaction/getDebitTokenRunningBalance.ts:35-47 | A success has a debit token and a snapshot stored at its name and the exact timestamp. The result's value, decimals, symbol and name equal that snapshot's. Both strings are `formatValue` of that snapshot's value and decimals. |
| `DebitTokenRunningBalance.DependsOnlyOnLocation` | src/modules/transactions/getDataFromTransaction/getDebitTokenRunningBalance.ts:21-33 | Two tables on which the debit token's name and the transaction's timestamp land in the same place give the same outcome. |
| `DebitTokenRunningBalance.OtherSeriesAreIrrelevant` | src/modules/transactions/getDataFromTransaction/getDebitTokenRunningBalance.ts:21-25 | Adding, replacing or removing another token's series does not change the outcome. |
| `DebitTokenRunningBalance.OtherTimestampsAreIrrelevant` | src/modules/transactions/getDataFromTransaction/getDebitTokenRunningBalance.ts:27-33 | Storing or removing a snapshot at any other timestamp of the debit token's series does not change the outcome, so there is no nearest-before fallback. |
| `DebitTokenRunningBalance.FormattingDependsOnlyOnValueAndDecimals` | src/modules/transactions/getDataFromTransaction/getDebitTokenRunningBalance.ts:37-38 | Two formatters that agree on the two calls made with the found snapshot's value and decimals give the same outcome. |

## Left out

- `src/context/StatementContext.tsx`: React context state, hooks, local-storage persistence and default-period date arithmetic. It is UI orchestration with no algorithm to state.
- `getDebitToken`, `formatValue`, `validate`: their sources are not part of this model. The first two are uninterpreted parameters. `validate` is taken to reject only an absent value, as its message says.
- How the running-balance table is built, how transactions are combined, and the asset aggregation as of a date: their sources are not part of this model.
- Error message text: the errors are told apart by constructor. The message on line 24 interpolates the undefined series, not the token name, so the text says nothing useful.
- JavaScript details outside integer keys: an invalid `Date` (`valueOf()` is `NaN`), the number-to-string conversion of object keys, and inherited object properties (for example a token named `constructor`) are not modelled. The table is a plain finite map.
- Asynchronous fetching and fetch state (`isFetching`, `hasFetched`, `error`).
