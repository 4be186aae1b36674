# Customer ledger front end — a Dafny model

This project models the decision logic of a small React front end for a
customer ledger ("cuenta corriente"). The front end:

- fetches a customer's raw ledger movements;
- normalises each movement (document-type label, sign, payment method);
- reconciles them into running balances from a manually entered opening
  balance ("saldo inicial");
- shows the result in a table and exports it to a spreadsheet.

Around that pipeline sit:

- the offline cache in the browser's key/value store;
- the retry and error-message rules of the HTTP layer;
- the customer directory with its search box;
- the development proxy's path rewriting;
- the project-state snapshot;
- the connectivity flag;
- the page's selection and fetch flags.

Everything is stated as immutable datatypes and pure functions. The modules
follow the program's files:

| module | file it models |
|---|---|
| `Wrappers`, `Strings` | shared `Option`/`Result` and the JavaScript string operations used |
| `ClientTypes` | `src/types/client.ts` |
| `Dates`, `DataTransform`, `StableSort`, `Balances`, `ExcelExport` | `src/utils/dataTransform.ts` |
| `ClientDataTable` | `src/components/ClientDataTable.tsx` |
| `AmountText`, `SaldoInicialModal` | `src/components/SaldoInicialModal.tsx` |
| `Storage` | `src/services/storage.ts` |
| `ProjectStates` | `src/config/projectState.ts` |
| `Api` | `src/services/api.ts` |
| `UseClientData` | `src/hooks/useClientData.ts` |
| `UseClientes` | `src/hooks/useClientes.ts` |
| `ClienteSearch` | `src/components/ClienteSearch.tsx` |
| `ViteProxy` | `vite.config.ts` (the proxy `rewrite` only) |
| `ConnectionStatus` | `src/hooks/useConnectionStatus.ts` |
| `App` | `src/App.tsx` |

Representation choices:

- **Money** is `real`. The 0.99 display threshold and the "digits / 100"
  reading of the amount field are therefore exact.
- **Dates** are `(year, month, day)` triples read from the part of the string
  before the first `T`.
  - The source anchors that date at noon UTC-3 and compares timestamps.
  - On valid dates, the ordinal `Dates.Ordinal` orders exactly as those
    timestamps do.
- **The browser store** is a `map<string, Stored>`.
  - A record the application writes (a cache entry, the project snapshot) is
    kept as the record, which abstracts the JSON encoding.
  - Any other value is raw text.
  - An absent key and the empty string both read as nothing, as the source's
    `!cached` test does.
- **External effects are parameters**:
  - the clock is a number;
  - each HTTP attempt's reply comes from an oracle function;
  - whether a POST succeeds is a boolean;
  - whether the browser's storage accepts a cache write is a boolean (`setItem` throws when the origin's quota is full);
  - the locale date formatter is a function value.

Two behaviours of the code are worth stating up front, because the model
reproduces them as written:

- **An empty movements list is not reported as "No records found."** The
  error `validateResponse` throws for it is caught by the service's own
  `catch`. Being a plain error rather than an HTTP failure, it becomes
  "Unknown error. Please try again.", or the cached-data variant of that
  message when a cache entry exists. `Api.FetchClientData` models this.
- **A stale cache entry and a timed-out request fail with "Showing locally
  stored data due to connection issues."**, although no data is returned
  (see Findings).

## Model

| member | source | states |
|---|---|---|
| Dates.ParseDate | src/utils/dataTransform.ts:5-8 | a parsed date is a valid calendar date, and the part of the string before the first 'T' is exactly its YYYY-MM-DD form |
| Dates.ParseDateReadsDatePart | src/utils/dataTransform.ts:6 | whatever follows the first 'T' does not affect the result |
| Dates.ParseIsoDate | src/utils/dataTransform.ts:5-8 | every valid date written YYYY-MM-DD, alone or followed by a time part, parses to that (year, month, day) |
| Dates.FormatDate | src/utils/dataTransform.ts:10-30 | empty or unparseable input comes back unchanged |
| Dates.FormatDateRoundTrip | src/utils/dataTransform.ts:10-30 | the DD/MM/YYYY rendering reads back as exactly the parsed date (zero-padded day and month) |
| Dates.OrdinalMonotone | src/utils/dataTransform.ts:76-84 | the sort key orders valid dates as the calendar does, and equal keys mean equal dates |
| DataTransform.TipoComprobante | src/utils/dataTransform.ts:32-50 | the 14 short codes map to their labels; any other code passes through unchanged |
| DataTransform.TipoIsFactura | src/utils/dataTransform.ts:32-57 | a resolved label mentions "Factura" iff the code is FA/FB/FC/FE, or an unknown code that itself mentions "Factura" |
| DataTransform.TipoIdempotent | src/utils/dataTransform.ts:32-50 | resolving a label again changes nothing |
| DataTransform.TipoInjectiveOnTable | src/utils/dataTransform.ts:33-48 | distinct codes of the table have distinct labels |
| DataTransform.EfectivoOrDefault | src/utils/dataTransform.ts:65 | a null or empty payment method becomes "No especificado"; any other is kept |
| DataTransform.TransformMovement | src/utils/dataTransform.ts:52-68 | raw date kept as fechaOriginal; magnitude equals \|importe_total\|; negative only for invoice labels, never positive for them; balance 0 |
| DataTransform.TransformKeepsRawFields | src/utils/dataTransform.ts:59-67 | every raw field survives the transformation; only a missing payment method is replaced |
| DataTransform.SignRule | src/utils/dataTransform.ts:54-57 | invoice codes give -\|total\|, the other table codes +\|total\|, unknown codes by their own text |
| StableSort.SortBy | src/utils/dataTransform.ts:76-84 | the output is a permutation of the input, ordered by key, with equal-key elements in input order |
| StableSort.StableSortUnique | src/utils/dataTransform.ts:76-84 | two sequences that are sorted by key and have the same per-key subsequences are equal: the stable sort is unique |
| StableSort.SortByIsTheStableSort | src/utils/dataTransform.ts:76-84 | any stable sort of the input (the engine's included) gives exactly the modelled result |
| StableSort.Reverse | src/utils/dataTransform.ts:91 | element i of the result is element n-1-i of the input |
| StableSort.ReverseMultiset | src/utils/dataTransform.ts:91 | reversal is a permutation |
| Balances.SumMontosSort | src/utils/dataTransform.ts:76-89 | sorting does not change the total of the amounts |
| Balances.Stamp | src/utils/dataTransform.ts:86-89 | each movement gets the seed plus all amounts up to and including its own; nothing else changes |
| Balances.RunningNewestFirst | src/utils/dataTransform.ts:86-91 | after the reversal each row carries the seed plus its own amount and every amount after it in the list |
| Balances.CalculateBalances | src/utils/dataTransform.ts:70-92 | same length; a permutation of the input apart from balances; reversed, it is in stable date order with prefix-sum balances; the front carries initial + total; empty gives empty |
| ExcelExport.MovementRows | src/utils/dataTransform.ts:127-135 | one row per movement, in list order |
| ExcelExport.ExportRowsAsWritten | src/utils/dataTransform.ts:127-147 | the body as written: movement rows, then a blank and a trailer row only when an opening balance exists |
| ExcelExport.ExportDropsSaldoInicial | src/utils/dataTransform.ts:138-146 | the written trailer never carries the opening balance's amount or date |
| ExcelExport.ExportDropsSaldoInicialExample | src/utils/dataTransform.ts:143 | for a 1500.00 balance the written trailer formats `undefined`, the corrected one 1500.00 |
| ExcelExport.ExportRows | src/utils/dataTransform.ts:127-147 | the body with the trailer reading the record's own amount and date |
| ExcelExport.ExportRowsShape | src/utils/dataTransform.ts:127-147 | five cells per movement row; the amount is \|monto\|; the payment cell is blank exactly for invoices or an empty method; the balance is kept; an italic trailer only with an opening balance |
| ClientDataTable.DisplayValue | src/components/ClientDataTable.tsx:23-28 | magnitudes below 0.99 show as 0, others pass unchanged; the total shows the magnitude |
| ClientDataTable.DisplayValueRange | src/components/ClientDataTable.tsx:25-28 | the headline is never negative; a shown value is 0 or the value up to sign |
| ClientDataTable.DisplayValueIdempotent | src/components/ClientDataTable.tsx:25-28 | applying the display rule twice changes nothing |
| ClientDataTable.EsFactura | src/components/ClientDataTable.tsx:48-50 | true iff the label is defined and contains "Factura" |
| ClientDataTable.PaymentLabel | src/components/ClientDataTable.tsx:126-128 | blank for invoices; "Transferencia" for the placeholder; otherwise the stored method |
| ClientDataTable.SaldoActual | src/components/ClientDataTable.tsx:62 | the newest balance, else the opening amount, else 0 |
| ClientDataTable.DownloadFilename | src/components/ClientDataTable.tsx:16 | the name starts with "movimientos-cliente-" and ends in ".xlsx" |
| ClientDataTable.DownloadFilenameRoundTrip | src/components/ClientDataTable.tsx:16 | the customer id is recovered from the file name |
| ClientDataTable.Render | src/components/ClientDataTable.tsx:62-148 | no table iff no movements; one row per movement; a non-negative headline and amounts; balances keep their sign; the note only with an opening balance |
| ClientDataTable.HeadlineIsNewestBalance | src/components/ClientDataTable.tsx:80-82 | the headline is the magnitude of the newest movement's balance |
| ClientDataTable.TableMatchesExport | src/components/ClientDataTable.tsx:110-135 | table and spreadsheet agree on date, label, amount and balance, and on payment except for the placeholder |
| AmountText.StripSeparators | src/components/SaldoInicialModal.tsx:64 | no '.' or ',' survives |
| AmountText.Sanitize | src/components/SaldoInicialModal.tsx:92 | only digits, '.' and ',' survive |
| AmountText.RoundCents | src/components/SaldoInicialModal.tsx:14-19 | the cents value is the amount times 100, rounded to nearest |
| AmountText.FormatearMonto | src/components/SaldoInicialModal.tsx:14-19 | a non-negative amount renders with digits and separators only, at least "0,00" long |
| AmountText.ParseAmount | src/components/SaldoInicialModal.tsx:64 | a number read from the field is never negative |
| AmountText.ParseFormatRoundTrip | src/components/SaldoInicialModal.tsx:14-19 | reading a rendering back gives the amount rounded to cents |
| AmountText.ParseFormatExact | src/components/SaldoInicialModal.tsx:14-19 | an amount in whole cents reads back exactly |
| AmountText.FormattedIsReadable | src/components/SaldoInicialModal.tsx:14-19 | a rendering is never blank and always reads as a number |
| SaldoInicialModal.FormatearFecha | src/components/SaldoInicialModal.tsx:21-23 | the prefix of the date before the first 'T' |
| SaldoInicialModal.Load | src/components/SaldoInicialModal.tsx:37-47 | a balance shows its magnitude and date part and checks the box iff negative; none clears amount and box and shows today; the error is untouched |
| SaldoInicialModal.MontoChange | src/components/SaldoInicialModal.tsx:91-108 | an empty sanitised input clears amount and error; a number is re-rendered; NaN changes nothing |
| SaldoInicialModal.AmountOf | src/components/SaldoInicialModal.tsx:64-65 | the magnitude is the field's cents / 100; the sign comes only from the checkbox |
| SaldoInicialModal.Submit | src/components/SaldoInicialModal.tsx:51-89 | a blank amount or empty date sets its error with no request; a request carries the customer and the computed amount; closed iff the service accepted; a failure keeps amount, date and sign with an error |
| SaldoInicialModal.MontoTextInvariant | src/components/SaldoInicialModal.tsx:37-108 | every handler keeps the field empty or readable as a finite number, so NaN is never sent (overflow to Infinity aside, see Left out) |
| SaldoInicialModal.LoadedAmount | src/components/SaldoInicialModal.tsx:37-41 | a loaded balance is non-blank and reads as its signed amount rounded to cents |
| SaldoInicialModal.LoadThenSubmit | src/components/SaldoInicialModal.tsx:37-71 | saving a loaded balance unchanged sends its rounded signed amount and its date part |
| SaldoInicialModal.LoadThenSubmitExact | src/components/SaldoInicialModal.tsx:37-71 | with at most two decimals the stored amount comes back exactly |
| Storage.MovimientosKey | src/services/storage.ts:37-46 | the key is the prefix followed by the raw id |
| Storage.MovimientosKeysDistinct | src/services/storage.ts:11-46 | distinct ids give distinct keys; none is "clientes_cache" |
| Storage.GetItem | src/services/storage.ts:26-30 | a missing key or an empty string reads as nothing |
| Storage.GetClientes | src/services/storage.ts:26-30 | an absent slot gives null; a stored entry gives its data and timestamp |
| Storage.GetMovimientos | src/services/storage.ts:43-49 | the same, for the customer's key |
| Storage.SaveClientes | src/services/storage.ts:18-24 | get-after-save returns the data with the save time; every other key is unchanged |
| Storage.SaveMovimientos | src/services/storage.ts:32-41 | get-after-save returns the data with the save time; every other key is unchanged |
| Storage.SaveMovimientosIsolated | src/services/storage.ts:32-41 | saving one customer leaves every other customer and the directory as they read |
| Storage.SaveClientesIsolated | src/services/storage.ts:18-24 | saving the directory leaves every customer's movements as they read |
| Storage.LastWriteWins | src/services/storage.ts:18-41 | a second save overwrites the first |
| Storage.CacheValidity | src/services/storage.ts:51-53 | an entry exactly 24 h old is stale, one a millisecond younger is fresh, and freshness only decays |
| ProjectStates.SaveProjectState | src/config/projectState.ts:9-21 | version "1.0.0"; the listed keys are exactly the present keys starting with either cache prefix; only "project_state" is written |
| ProjectStates.LoadProjectState | src/config/projectState.ts:23-32 | a snapshot is returned iff one is stored; missing, empty or unparseable gives null |
| ProjectStates.ClearProjectState | src/config/projectState.ts:34-40 | clearing only removes keys and never changes a value |
| ProjectStates.LoadAfterSave | src/config/projectState.ts:9-32 | load after save returns the snapshot saved |
| ProjectStates.ClearWithoutState | src/config/projectState.ts:34-36 | without a snapshot, clearing changes nothing |
| ProjectStates.ClearRemovesListed | src/config/projectState.ts:34-40 | clear removes exactly the listed keys plus "project_state" |
| ProjectStates.LaterCacheSurvives | src/config/projectState.ts:13-40 | a cache entry written after the snapshot survives a clear |
| Api.ErrorMessage | src/services/api.ts:98-145 | connection failures, 404, 500, other statuses and non-axios errors each map to their cache-dependent pair; 401/403 to the permission message |
| Api.ErrorMessageCacheFlag | src/services/api.ts:98-145 | the cache flag matters for every error except 401/403; without it no message claims cached data |
| Api.ValidateResponse | src/services/api.ts:86-96 | a missing body or an empty list is rejected with its message; anything else is returned unchanged |
| Api.Backoff | src/services/api.ts:78-80 | the wait before retry n is 2000·2^(n-1) ms: 2000, 4000, 8000 |
| Api.Send | src/services/api.ts:44-83 | attempts run until a reply or a failure the rule does not retry; every retried failure was transient; at most 3 retries |
| Api.SendBounds | src/services/api.ts:60-80 | at most 3 retries, a first reply ends the request, and the waits before jitter total at most 14 s |
| Api.PermanentFailureNotRetried | src/services/api.ts:62-73 | a failure with a status below 500 and no transient code is not retried |
| Api.Fallback | src/services/api.ts:165-180 | a fresh entry is served with fromCache and its formatted time; otherwise the error message's cache variant follows whether any entry exists |
| Api.FetchClientes | src/services/api.ts:152-181 | a valid reply whose cache write succeeds is saved and returned with fromCache false; a valid reply whose write throws goes to the fallback with that non-axios error and the store unchanged; anything else goes to the fallback |
| Api.FetchClientData | src/services/api.ts:183-217 | a blank id fails before any request; the request uses the trimmed id and the cache the raw id; otherwise as for the directory, including a cache write that throws |
| Api.QuotaDiscardsReply | src/services/api.ts:193-216 | when the cache write throws, the reply is lost: the store is unchanged, data comes only from a fresh cache entry flagged as cached, and otherwise the unknown-error message, in its cache variant when a stale entry exists |
| Api.TrimmedRequestRawCache | src/services/api.ts:184-201 | ids that trim alike get the same answer but separate cache slots |
| Api.FetchThenFallback | src/services/api.ts:193-214 | data saved by a successful fetch is what a failed fetch within a day serves, flagged as cached |
| Api.StaleCacheClaimsCachedData | src/services/api.ts:200-215 | with a stale entry and a timeout the service fails with a message saying cached data is shown |
| Api.FallbackCorrected | src/services/api.ts:200-215 | the catch block whose failure messages never claim cached data |
| Api.FetchClientDataCorrected | src/services/api.ts:183-217 | the corrected service succeeds exactly when the original does, with the same result and store; no failure message claims cached data, and data flagged as cached comes from a fresh entry |
| Api.StaleCacheCorrected | src/services/api.ts:200-215 | corrected, a stale entry with a timeout gives "No server connection." |
| UseClientData.TransformAll | src/hooks/useClientData.ts:22 | element-wise transformation, same length |
| UseClientData.Seed | src/hooks/useClientData.ts:25-28 | the seed equals the opening amount, or 0 without a balance |
| UseClientData.QueryFn | src/hooks/useClientData.ts:12-41 | no customer gives null; errors keep their message; otherwise same count, a permutation of the transformed movements in date order with movements of equal date in their received order, every row read oldest first carrying the seed plus every amount up to its own, the front balance = seed + total, and the cache flags and balance passed through |
| UseClientData.RowBalance | src/hooks/useClientData.ts:22-28 | row i of the view, newest first, shows the opening amount plus its own amount and those of every row below it |
| UseClientData.HeadlineBalance | src/hooks/useClientData.ts:22-36 | the view's "Saldo Actual" is the opening amount plus every signed amount |
| UseClientData.EnabledQueriesFetch | src/hooks/useClientData.ts:12-42 | an enabled query never takes the no-customer shortcut |
| UseClientData.QueryRetryDelay | src/hooks/useClientData.ts:46 | the delay is 1000·2^i ms, capped at 30000 |
| UseClientData.QueryRetryDelayShape | src/hooks/useClientData.ts:46 | the delay never decreases and is 30000 from the sixth attempt on |
| UseClientes.JoinNames | src/hooks/useClientes.ts:13 | the join is empty iff both names are |
| UseClientes.FormatearCliente | src/hooks/useClientes.ts:5-15 | id is the number's text, zero-padded to 3 on the left; the full name is "Apellido, Nombre" with blanks dropped; the label is number " - " name |
| UseClientes.NumeroReadsBack | src/hooks/useClientes.ts:6-12 | the padded number reads back as the customer number |
| UseClientes.SelectClientes | src/hooks/useClientes.ts:23-28 | exactly the customers with a number and a non-blank name, formatted, in input order; each has a non-empty full name |
| UseClientes.Select | src/hooks/useClientes.ts:22-31 | fromCache and lastUpdate pass through; every listed customer has a name |
| ClienteSearch.ClientesFiltrados | src/components/ClienteSearch.tsx:37-41 | an order-preserving filter: kept iff the lower-cased query occurs in the lower-cased label or full name, or the query as typed occurs in the zero-padded number; nothing without data |
| ClienteSearch.EmptyQueryKeepsAll | src/components/ClienteSearch.tsx:37-41 | an empty query keeps every customer |
| ClienteSearch.InputChange | src/components/ClienteSearch.tsx:43-46 | typing sets the query and opens the dropdown |
| ClienteSearch.ClienteSelect | src/components/ClienteSearch.tsx:48-53 | selecting sets the query to the label, closes the dropdown and reports the id |
| ClienteSearch.SelectedStaysListed | src/components/ClienteSearch.tsx:37-53 | after a selection the chosen customer is still listed |
| ViteProxy.StripApi | vite.config.ts:91 | one leading "/api" is removed; putting it back restores the path |
| ViteProxy.Rewrite | vite.config.ts:81-95 | table paths go to their targets; other "/api" paths lose the prefix; other paths are unchanged |
| ViteProxy.TableKeysUnderApi | vite.config.ts:83-88 | every table key starts with "/api" |
| ViteProxy.RewriteTable | vite.config.ts:83-88 | the four exact rewrites |
| ViteProxy.RewriteExactOnly | vite.config.ts:88-91 | "/api/saldos/42" misses the table and becomes "/saldos/42" |
| ViteProxy.RewriteQueryString | vite.config.ts:88-91 | a query string misses the table too |
| ViteProxy.RewriteNotSegmentAware | vite.config.ts:91 | "/apiX" becomes "X", and only one "/api" is removed |
| ConnectionStatus.CheckConnection | src/hooks/useConnectionStatus.ts:9-23 | the flag follows the probe; queries are invalidated iff a probe succeeds after a failure |
| ConnectionStatus.Poll | src/hooks/useConnectionStatus.ts:9-30 | one invalidation set per probe, the first from the starting state |
| ConnectionStatus.PollInvalidatesOnReconnect | src/hooks/useConnectionStatus.ts:12-19 | over a run, probe i invalidates iff it succeeds and the state before it was disconnected |
| ConnectionStatus.FinalState | src/hooks/useConnectionStatus.ts:6-22 | after a run the flag is the last probe's outcome |
| ConnectionStatus.SteadyRunsQuiet | src/hooks/useConnectionStatus.ts:6-22 | from the initial state, all-success and all-failure runs never invalidate |
| ConnectionStatus.ReconnectMissesMovements | src/hooks/useConnectionStatus.ts:17-18 | the written filters refresh the directory query but no movements query |
| ConnectionStatus.CheckConnectionCorrected | src/hooks/useConnectionStatus.ts:9-23 | on reconnect the directory and every customer's movements query are refreshed |
| App.SelectCliente | src/App.tsx:27-30 | an empty id clears the selection; fetching always stops |
| App.Consultar | src/App.tsx:32-36 | no-op when the id is null or empty (the falsy test); otherwise raises the fetch flag and refetches |
| App.ValidSelected | src/App.tsx:27-36 | in a state the handlers reach, the falsy test on the id is just the null test |
| App.SaveSaldo | src/App.tsx:38-57 | without a customer (null or empty id): alert and no service call; refetch iff saved and fetching is on |
| App.Render | src/App.tsx:82-150 | actions iff the id is truthy (neither null nor empty); consult disabled while loading; table iff fetching and data; the dialog gets the loaded balance or null |
| App.HandlersKeepValid | src/App.tsx:27-36 | the selected id is never the empty string |
| App.QueryEnabledIffConsulted | src/App.tsx:16-25 | the data query runs iff a customer is selected and a consult was requested |
| App.SelectHidesUntilConsult | src/App.tsx:27-36 | a new selection hides the table until the next consult, which enables the query |

## Left out

- HTTP and network I/O are left out: the axios instance, request logging, real requests and timeouts. Each attempt's reply is a parameter.
- `src/services/saldoInicial.ts` is abstracted. Fetching the balance is an `Option` parameter, since the service answers null on any failure. Saving it is a boolean parameter of the dialog's submit.
- `src/services/database.ts` is not part of this model. It is a server-side connection pool the pipeline does not use.
- `src/components/ConnectionStatus.tsx`, `Logo.tsx`, `LoadingSpinner.tsx` and all styling are left out as presentation.
- Timers and scheduling are left out: `setInterval`, `setTimeout`, the query library's caching, stale times and its `retry: 2` count.
- Api.Backoff: the random jitter of [0, 1000) ms per retry is not part of the returned value, so the 14 s bound of Api.SendBounds covers the waits before jitter only.
- Locale formatting is left uninterpreted: `Intl.NumberFormat`, `Intl.DateTimeFormat` and `formatLastUpdate`. A money cell records the number handed to the formatter, and the last-update text is a function parameter.
- AmountText.FormatearMonto: it assumes es-AR renders a comma for decimals and groups thousands with '.' only from five integer digits. Those are the locale's rules, not something the source states.
- ExcelExport: the workbook, column widths, styling, the Blob and the download are left out. Only the row list is modelled.
- Dates.ParseDate: JavaScript `Date` semantics beyond the ISO date-only form are left out. That includes other accepted formats, day rollover and viewer time zones outside UTC-12..UTC+8. From UTC+9 on, the anchor instant (noon UTC-3, 15:00 UTC) already falls on the next day, so `getDate()` would render the following day.
- Balances.CalculateBalances: it requires every raw date to parse. With an unparseable date the source's comparator returns NaN and the engine's order is unspecified.
- Floating-point effects are left out: rounding of sums, -0, and NaN from `parseFloat` on text with no digits. NaN is represented as `None`.
- AmountText.ParseAmount: it models `parseFloat` only on what the field can hold after sanitising, which is leading whitespace then digits. Signs, exponents and "Infinity" are not read.
- Strings.Trim: it removes ASCII whitespace only. `String.prototype.trim` also removes Unicode spaces and line terminators.
- Strings.Lower: it lower-cases the Latin-1 range only, not the full Unicode case mapping of `toLowerCase`.
- UseClientes.FormatearCliente: the number is an integer. Fractional or exponent renderings of `toString` are left out.
- ProjectStates.LoadProjectState: any stored value other than a snapshot record reads as no snapshot. The source returns whatever `JSON.parse` yields for non-empty text, so text such as "{}" or '{"cacheKeys":["x"]}' would be returned. Clearing would then throw (no `cacheKeys`) or remove the listed keys. The application only ever writes a snapshot under "project_state".
- SaldoInicialModal.MontoTextInvariant: amounts are unbounded reals. A field of about 310 digits makes `parseFloat` return Infinity, which `isNaN` lets through and `toLocaleString` renders as "∞". Submitting that text then sends NaN. That overflow is not modelled.
- Storage.GetClientes: text under a cache key is treated as unreadable, including text such as "null" that does parse. A record of another kind stored under the key is treated the same way. The application never writes either.
- Storage.SaveClientes, Storage.SaveMovimientos: a write always succeeds here. A write that throws because the storage is full is modelled one level up, by the `fits` flag of `Api.FetchClientes` and `Api.FetchClientData`. What fills the storage (one movements entry per customer ever viewed, never evicted) is not modelled, and `ProjectStates.SaveProjectState` likewise assumes its write succeeds.
- ProjectStates.SaveProjectState: the listed keys are a set. The store's enumeration order is not modelled.
- Api.ValidateResponse, Api.FetchClientes, Api.FetchClientData: a reply body is a list or nothing. A non-array body, such as the error object of a 500 reply that `validateStatus` lets through, would pass validation unchanged, be cached and be returned as data. That case is not modelled.
- ClienteSearch: the effect that refetches the customer list whenever the connection status is true (on mounting and on each reconnect) and the click-outside handler that closes the dropdown are React effects over browser events. They are not modelled; `ConnectionStatus.CheckConnection` models the query invalidation on reconnect.
- Lookups in the document-type table and the proxy's path table are plain map lookups. JavaScript prototype keys such as "constructor" are not modelled.
- The dialog ignores its `onSave` prop and calls the save service itself, so `App.SaveSaldo` is never reached from the dialog. Both are modelled as written.
- `validateStatus` accepts every status below 600. The status branches and 5xx retries are therefore modelled as the code states them, even though real responses do not reach them.

## Findings

| source | as written | input that shows it | evidently intended | confidence | as-written member | corrected member |
|---|---|---|---|---|---|---|
| src/utils/dataTransform.ts:143-145 | the spreadsheet trailer reads `saldoInicial.Monto` and `.Fecha`, fields a `SaldoInicial` does not have | an opening balance of 1500.00 dated 2024-01-01: the trailer formats `undefined` and shows "(undefined)" | the trailer shows the balance's `monto` and `fecha` | high, not executed | ExcelExport.ExportRowsAsWritten | ExcelExport.ExportRows |
| src/services/api.ts:215 | on failure the message's cache variant is chosen by whether any cache entry exists, even a stale one (the directory fetch at line 179 does the same; the model covers the movements fetch) | a 30-hour-old movements entry and a timed-out request: the call fails with "Showing locally stored data due to connection issues." while no data is returned | a failure reports the plain connection message, because no local data is being shown | medium, not executed | Api.StaleCacheClaimsCachedData | Api.FetchClientDataCorrected |
| src/hooks/useConnectionStatus.ts:18 | on reconnect the hook invalidates the query key "movimientos" | any customer's movements query, whose key is ["clientData", id]: no filter is a prefix of it, so it is not refreshed | the movements queries are refreshed along with the directory | medium, not executed | ConnectionStatus.ReconnectMissesMovements | ConnectionStatus.CheckConnectionCorrected |
