# Finance tracker core, modelled in Dafny

This project models the logic at the centre of a personal-finance tracker web
application:

- the **in-memory transaction store** (`src/lib/store.js`): a list of
  income/expense records seeded with four January 2025 transactions, with
  `getAll`, `getById`, `create`, `update`, `delete` and the monthly expense
  report `getMonthlyExpenses`;
- the **fallback service** (`src/lib/fallbackService.js`), which forwards to
  that store, maps a failed delete to `null`, and computes the statistics
  `totalIncome`, `totalExpenses`, `balance` and `transactionCount`;
- the **API route handlers** for `GET`/`POST /api/transactions`,
  `GET /api/analytics/stats` and `GET /api/analytics/monthly-expenses`: the
  backend each route file selects once when it loads (database or in-memory),
  and the per-request rule of answering, retrying once on the fallback
  service, or failing with 500;
- the **transaction form's schema** (`src/components/TransactionForm.jsx`) and
  the amount conversion on submit.

Modules, one per source file: `Transactions` (the record), `MonthKeys` (the
`YYYY-MM` key and its order), `Store`, `FallbackService`, `Routes`,
`TransactionForm`, plus `Wrappers` (`Option`).

Modelling choices:

- Amounts are whole cents (`int`). `Math.round(x * 100) / 100` is then the
  identity, and `balance` equals `totalIncome - totalExpenses` exactly.
- Dates are already parsed: `Date(year, month, day)`. The bucket key is the
  year printed in decimal, a dash, and the month padded to two digits.
- `Date.now()` ids and today's date are parameters of `Create`.
- The store is a class whose `transactions` field is a `seq` that `Create`,
  `Update` and `Delete` reassign. `getMonthlyExpenses` is two loops: the
  `forEach` that fills the `monthlyData` dictionary (a `map`), then the
  entries placed in ascending month order.
- `localeCompare` on the keys is taken as character-code order (`StrLess`).
  The keys hold only ASCII digits and `-`, and the two orders agree on such keys.
- A route handler is a function of the load-time flag and of what each service
  call returns or throws (`Outcome`). It gives back the response (status,
  body, `X-Using-Fallback` header) and the list of service calls it made.
  Being a function, it cannot change the flag. `RouteModule` holds the flag in
  a `const` field set once by its constructor.
- `parseFloat` in the form is a parameter `string -> Option<int>`: `None`
  stands for `NaN`.

The model keeps these behaviours of the code, which a reader might not
expect:

- A `POST` that succeeds on the first try never sets the fallback header,
  even when the route runs on the in-memory backend. Only the retry path sets it.
- The description limit accepts exactly 100 characters, although its error
  message says "less than 100".
- Any non-empty category passes the schema. The list of nine categories only
  feeds the select box.
- Nothing checks that ids are unique, and nothing validates the date format.
  Lemmas that need unique ids assume them (`UniqueIds`).

## Model

| member | source | states |
|---|---|---|
| `Store.TransactionStore.constructor` | src/lib/store.js:4-33 | The store starts with the four seed records, in order. |
| `Store.SeedMonthlyReport` | src/lib/store.js:4-33 | On the seed data the monthly report is exactly one entry: `2025-01`, 1330.70. |
| `Store.TransactionStore.GetAll` | src/lib/store.js:36 | Returns the stored records in store order. |
| `Store.FindFirst` | src/lib/store.js:51 | Finds the first position whose record has the id, or nothing exactly when no record has it. |
| `Store.TransactionStore.GetById` | src/lib/store.js:38 | Returns the first record with the id. Returns nothing exactly when no record has that id. |
| `Store.TransactionStore.Create` | src/lib/store.js:40-48 | Appends one record at the end and leaves the earlier records unchanged. The record keeps amount, description and category, takes the fresh id over any supplied one, and takes the supplied date or else today. |
| `Store.AppendedIsFound` | src/lib/store.js:38-47 | A record created under an id no other record holds is what a lookup of that id then finds, at the last position. |
| `Store.TransactionStore.Update` | src/lib/store.js:50-57 | For a present id, replaces the first matching record, at the same index, by the merge of old and update fields; all other records and the length stay. For an absent id, returns nothing and changes nothing. |
| `Store.Merge` | src/lib/store.js:53 | The shallow merge `{ ...current, ...updates }`. It has no contract of its own; `Store.MergeFields`, `Store.MergeIdempotent` and `Store.MergeEmpty` state its properties. |
| `Store.MergeFields` | src/lib/store.js:53 | Under the shallow merge, each field the update supplies wins, including `id`. Every absent field keeps its stored value. |
| `Store.MergeDescriptionOnly` | src/lib/store.js:53 | Updating only the description leaves id, amount, date and category unchanged. |
| `Store.MergeIdempotent` | src/lib/store.js:53 | Applying the same update twice gives the same record as applying it once. |
| `Store.MergeEmpty` | src/lib/store.js:53 | An update with no fields leaves the record as it was. |
| `Store.TransactionStore.Delete` | src/lib/store.js:59-67 | For a present id, removes exactly the first matching record, returns it, and keeps the order of the rest. For an absent id, returns nothing and changes nothing. |
| `Store.RemovedIsGone` | src/lib/store.js:59-66 | With unique ids, once the record holding an id is removed no record holds that id, and the ids stay unique. |
| `Store.AddExpense` | src/lib/store.js:73-80 | One step of the `forEach`: an expense adds its absolute amount to its month's bucket, creating the bucket if needed. `Store.AddExpenseAt` states its effect on each key. |
| `Store.AddExpenseAt` | src/lib/store.js:73-80 | After one step, a key is present exactly when it was before or the record is an expense of that month. That month's bucket grows by the absolute amount, and every other bucket stays. |
| `Store.Bucket` | src/lib/store.js:72-82 | The dictionary after the `forEach`. Every bucket it holds is positive. `Store.BucketMeaning` states which months it holds and their totals. |
| `Store.AccumulateExpenses` | src/lib/store.js:70-82 | The `forEach` loop builds the month-key dictionary of the expense totals. |
| `Store.BucketMeaning` | src/lib/store.js:72-82 | A month key is in the dictionary exactly when some expense falls in that month. Its value is the sum of the absolute amounts of that month's expenses, and is positive. |
| `Store.InsertSorted` | src/lib/store.js:89 | Inserting an entry into a strictly ascending report keeps it strictly ascending, and adds exactly that entry. |
| `Store.SortedEntries` | src/lib/store.js:84-89 | The dictionary's entries become `{month, amount}` pairs, strictly ascending by month, one per key, with the key's amount. |
| `Store.ReportUnique` | src/lib/store.js:84-89 | A strictly ascending report of a dictionary is unique, so the sorted result does not depend on the dictionary's key order. |
| `Store.TransactionStore.GetMonthlyExpenses` | src/lib/store.js:69-90 | Returns the strictly ascending report of the expense buckets of the stored records. |
| `Store.ReportAmounts` | src/lib/store.js:72-87 | Every reported amount is that month's total of absolute expense amounts, and is positive. |
| `Store.ReportMonths` | src/lib/store.js:72-89 | A month is listed exactly when it has an expense. |
| `Store.ReportEmpty` | src/lib/store.js:69-90 | The report is empty exactly when no record has a negative amount. |
| `MonthKeys.MonthKey` | src/lib/store.js:75 | The bucket key of a date: year, dash, month padded to two digits. `MonthKeys.MonthKeyChronological` states its order and equality. |
| `MonthKeys.MonthKeyChronological` | src/lib/store.js:75 | For four-digit years, ascending key order is chronological order, and two dates share a key exactly when they share year and month. |
| `MonthKeys.StrLessTotal` | src/lib/store.js:89 | The key comparison used by the sort is total: two different keys are ordered one way or the other. |
| `MonthKeys.StrLessTransitive` | src/lib/store.js:89 | The key comparison used by the sort is transitive. |
| `FallbackService.GetAllTransactions` | src/lib/fallbackService.js:5-9 | Returns the store's records. |
| `FallbackService.CreateTransaction` | src/lib/fallbackService.js:11-14 | Forwards to the store's create, with the same result and the same new state. |
| `FallbackService.UpdateTransaction` | src/lib/fallbackService.js:16-19 | Forwards to the store's update. An unknown id gives `null`, not a failure. |
| `FallbackService.DeleteTransaction` | src/lib/fallbackService.js:21-25 | Returns `{success: true}` exactly when the store found the id, otherwise `null`, with the store's deletion as the new state. |
| `FallbackService.DeleteTwice` | src/lib/fallbackService.js:21-25 | With unique ids, deleting the same id twice answers `null` the second time. |
| `FallbackService.GetMonthlyExpenses` | src/lib/fallbackService.js:27-30 | Returns the store's monthly report. |
| `FallbackService.GetTransactionStats` | src/lib/fallbackService.js:32-50 | Returns the statistics of the current records and changes nothing. |
| `FallbackService.StatsTwice` | src/lib/fallbackService.js:32-50 | Two statistics calls with nothing in between return identical results. |
| `FallbackService.TotalIncome` | src/lib/fallbackService.js:36-38 | The income total, the sum of the positive amounts, is never negative. |
| `FallbackService.TotalExpenses` | src/lib/fallbackService.js:40-42 | The expense total, the sum of the absolute negative amounts, is never negative. |
| `FallbackService.TransactionStats` | src/lib/fallbackService.js:34-49 | The four statistics of a snapshot. `FallbackService.BalanceIsNetTotal`, `FallbackService.EmptyStats` and the `StatsAfter...` lemmas state its properties. |
| `FallbackService.TotalsOfConcat` | src/lib/fallbackService.js:36-42 | Both totals add up over the two halves of a concatenation. |
| `FallbackService.BalanceIsNetTotal` | src/lib/fallbackService.js:44-47 | The balance equals the plain sum of all amounts, and both totals are non-negative. |
| `FallbackService.EmptyStats` | src/lib/fallbackService.js:34-49 | An empty store yields zero for all four fields. |
| `FallbackService.StatsAfterAppend` | src/lib/fallbackService.js:36-48 | Creating a record raises the count by one and each total by that record's share, and moves the balance by its amount. |
| `FallbackService.ZeroAmountOnlyCounts` | src/lib/fallbackService.js:36-48 | A zero-amount record raises the count and leaves both totals and the balance unchanged. |
| `FallbackService.StatsAfterRemoval` | src/lib/fallbackService.js:36-48 | Deleting a record takes out exactly its share of each total, its amount from the balance, and one from the count. |
| `FallbackService.StatsAfterReplace` | src/lib/fallbackService.js:36-48 | Updating a record swaps its share of each total for the new record's, and keeps the count. |
| `FallbackService.SeedStats` | src/lib/fallbackService.js:34-49 | On the seed data: income 3000.00, expenses 1330.70, balance 1669.30, count 4. |
| `FallbackService.MonthlyReportSumsToExpenses` | src/lib/fallbackService.js:40-42 | The amounts of the monthly report add up to the statistics' expense total. |
| `Routes.SelectBackend` | src/app/api/transactions/route.js:4-20 | The in-memory backend is chosen exactly when `MONGODB_URI` is absent or loading the database service throws. |
| `Routes.GetWithFallback` | src/app/api/transactions/route.js:22-55 | The body shared by the three `GET` handlers. It has no contract of its own; `Routes.GetDecision` states its calls, status, data and header. |
| `Routes.GetDecision` | src/app/api/transactions/route.js:22-55 | A `GET` first calls the selected service. It calls the fallback service once more, and only after a throw in database mode. Success returns the answering service's data. The header is set exactly in fallback mode or on the retry. Any other outcome gives 500 with the route's message and no header. |
| `Routes.GetTransactions` | src/app/api/transactions/route.js:22-55 | `GET /api/transactions`: the same decision, stated for this route. It lists the exact calls, returns the answering service's list, sets the header in fallback mode or on the retry, and fails with 500 'Failed to fetch transactions'. |
| `Routes.GetStats` | src/app/api/analytics/stats/route.js:21-52 | `GET /api/analytics/stats`: the same exact calls, data and header, failing with 500 'Failed to fetch transaction statistics'. |
| `Routes.GetMonthlyExpenses` | src/app/api/analytics/monthly-expenses/route.js:21-52 | `GET /api/analytics/monthly-expenses`: the same exact calls, data and header, failing with 500 'Failed to fetch monthly expenses'. |
| `Routes.Truthy` | src/app/api/transactions/route.js:62 | JavaScript truthiness of a body field: `undefined`, `null`, `0`, `""` and `false` are falsy. A predicate; `Routes.PostRejectsZeroAmount` and `Routes.PostTransaction` state what it decides. |
| `Routes.HasRequiredFields` | src/app/api/transactions/route.js:62 | The negation of the required-fields guard. A predicate; `Routes.PostTransaction` states the 400 answer when it fails. |
| `Routes.PostTransaction` | src/app/api/transactions/route.js:57-94 | A falsy amount, description or category gives 400 'Missing required fields' with no service call. A first-try success gives 201 with the record and no header. A throw in database mode makes exactly one fallback attempt. A successful attempt gives 201 with its record and the header, a failed one gives 500. In fallback mode a throw gives 500 'Failed to create transaction'. The calls are one of none, selected, fallback, or selected then fallback. |
| `Routes.PostRejectsZeroAmount` | src/app/api/transactions/route.js:62-67 | A zero amount is refused with 400. |
| `Routes.RouteModule.constructor` | src/app/api/analytics/monthly-expenses/route.js:3-19 | The module-level flag is set once at load, to the selection's verdict, and is a constant afterwards. |
| `TransactionForm.AmountOk` | src/components/TransactionForm.jsx:15-18 | The amount entry: non-empty, a number, not zero. A predicate; `TransactionForm.Submit` states its role. |
| `TransactionForm.DescriptionOk` | src/components/TransactionForm.jsx:19 | The description entry: 1 to 100 characters. A predicate; `TransactionForm.DescriptionBoundary` states its boundary. |
| `TransactionForm.DateOk` | src/components/TransactionForm.jsx:20 | The date entry: non-empty. A predicate; `TransactionForm.EmptyFieldsRejected` states its effect. |
| `TransactionForm.CategoryOk` | src/components/TransactionForm.jsx:21 | The category entry: non-empty, with no list check. A predicate; `TransactionForm.CategoryNotRestricted` states it. |
| `TransactionForm.FailingFields` | src/components/TransactionForm.jsx:14-22 | The set of fields whose entry fails. `TransactionForm.Submit` states that a rejection names exactly these fields. |
| `TransactionForm.Submit` | src/components/TransactionForm.jsx:14-22 | Accepts exactly when the amount is non-empty, parses, and is non-zero; the description has 1 to 100 characters; and date and category are non-empty. A rejection names exactly the failing fields. An accepted form keeps every field and replaces the amount by its parsed number. |
| `TransactionForm.EmptyFieldsRejected` | src/components/TransactionForm.jsx:15-21 | An empty amount, date or category is rejected. |
| `TransactionForm.DescriptionBoundary` | src/components/TransactionForm.jsx:19 | A 100-character description passes and a 101-character one does not. |
| `TransactionForm.CategoryNotRestricted` | src/components/TransactionForm.jsx:21-34 | A category outside the select's list passes the schema. |
| `TransactionForm.AcceptedFormHasRequiredFields` | src/components/TransactionForm.jsx:58-63 | The converted submission of an accepted form passes the `POST` handler's required-fields check. |

## Left out

- `src/lib/transactionService.js` (the MongoDB service) is not part of this model. Its calls are database driver I/O. The routes see only what its calls return or throw (`Routes.Outcome`).
- `src/hooks/useTransactions.js` and the page and UI components are not part of this model. They hold network calls, React state and rendering.
- `src/app/api/transactions/[id]/route.js` (`PUT`, `DELETE`) is not part of this model.
- Floating point: amounts are whole cents, so binary rounding drift and `Math.round` ties on non-cent values are not modelled.
- Date parsing and time zones: `new Date('YYYY-MM-DD')` read with local getters can move a record into the neighbouring month. Dates here are already parsed and taken as valid.
- Clock and ids: `Date.now()` ids and today's date are parameters. Id uniqueness is not claimed, because the store never checks it.
- Runtime mechanics are left out: the 100 ms `setTimeout` latency, the dynamic `import()`, the `process.env` lookup and console logging.
- Store.TransactionStore.Create: only the five known fields are modelled. Other keys of the input object, which the object spread would copy, are not.
- Store.Patch: only the five known fields are modelled. Other keys of an update object are not.
- Store.TransactionStore.GetAll: returns the records as a value. In the source it returns the live array, which a caller could mutate.
- Routes.PostTransaction: the retry re-reads the request body, which has already been consumed. This is one abstract outcome (`retry`) that may return or throw; the model does not say which.
- Routes.PostBody: numbers are whole cents and `NaN` is not representable. Only the three checked fields are kept.
- TransactionForm.Submit: `parseFloat` is an uninterpreted parameter, so JavaScript's prefix parsing is not modelled. Lengths count characters, not UTF-16 code units.
- MonthKeys.MonthKeyChronological: proved for four-digit years and months 1 to 12 only.
- `localeCompare` collation is taken as character-code order. This holds for keys of digits and `-` only.
