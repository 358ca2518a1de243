# Cryptocurrency price ingestion, modelled in Dafny

This project models the ingestion core of `case-cadastra`. The core fetches
the daily price history and the market pairs of cryptocurrency assets from
the CoinCap HTTP API and stores them in two tables, `asset_history` and
`markets`. It also proves properties of that model.

- `wrappers.dfy`: `Option`, plus `Result` and `Outcome`. These stand for a call
  that either returns or raises.
- `domain.dfy`: the API records, the table rows and their primary keys.
  `Env` carries the clock, the time-zone conversions and the float cast.
- `store.dfy`: the generic repository (`BaseRepository`) as a class `Table`.
  A table is its rows in insertion order, together with its key. A commit
  that would give two rows the same primary key fails with an integrity
  error and stores nothing. `Session` and `SessionCommit` model what a failed
  commit does to the SQLAlchemy session as the code leaves it (see Findings).
- `crypto_repository.dfy`: `CryptoRepository`, with the date-range query,
  the latest stored date and the bulk inserts.
- `coincap_client.dfy`: the CoinCap client.
  - Headers and query parameters.
  - The retry loop of `_make_request`, proved against the recursive
    specification `Attempts`.
  - The check of the `{"data": [...]}` envelope.

  The network is a `Transport` whose n-th request gets the fixed answer
  `respond(n)`. That answer is a status with a body, a timeout, or a failed
  connection.
- `crypto_service.dfy`: the ingestion service.
  - The watermark (`ResolveWindow`).
  - The filter that drops fetched entries already stored (`NewRows`).
  - The market mapping (`MarketRows`).
  - What one history or market ingestion does to the tables (`HistoryEffect`,
    `MarketEffect`).
  - The loop over several assets. It carries an error boundary per asset and
    is specified by `Schedule`.

Date-times are naive `datetime` values, counted in microseconds since
1970-01-01 00:00. `Day` is `timedelta(days=1)`, and `DefaultStart` is
2018-01-01 00:00. Decimal amounts are exact reals. The float cast of a history
price is the parameter `Env.toFloat`.

The model follows the code on three points that are easy to misread:
- The history key is the full `DateTime` column, not a calendar day. Two
  entries of one asset on the same day but at different times are distinct
  rows.
- Nothing checks that the window's start is at most its end. An inverted
  window is sent to the API as it is.
- Only a 429 status and a timeout are retried. Every other HTTP status, a
  transport error, a body that is not JSON and a malformed envelope are
  raised on the first attempt.

`IngestMultipleAssets` returns a ghost report per asset where the source
returns `None`. Each report records the step results, the requests sent and
the rows appended, and the method's postcondition ties the tables and the
request log to those reports.

## Model

| member | source | states |
|---|---|---|
| Store.AdmitsIffStaysUnique | src/model/sql_models.py:13-15 | on a table whose keys are unique, a batch is admitted exactly when the table is still keyed after it |
| Store.RemoveAtKeepsOthers | src/repository/base_repository.py:41-44 | removing one row keeps the multiset of every other row and keeps the keys unique |
| Store.Table.constructor | src/repository/base_repository.py:11-14 | a repository over a table that already holds rows with unique keys sees exactly those rows, under the model's primary key |
| Store.Table.Create | src/repository/base_repository.py:16-20 | an admitted object is appended and returned; a key clash raises an integrity error and stores nothing; the key invariant is kept |
| Store.Table.CreateMany | src/repository/base_repository.py:22-26 | the whole list is appended and returned when its keys are distinct and new; otherwise an integrity error and no row stored |
| Store.Table.GetAll | src/repository/base_repository.py:28-30 | returns exactly the stored rows, whose keys are unique (in table order; see Left out) |
| Store.Table.Update | src/repository/base_repository.py:36-39 | returns the object itself and changes no table |
| Store.Table.Delete | src/repository/base_repository.py:41-44 | a stored object is removed once (multiset minus that object, others in order); an object not stored fails and the table is unchanged |
| Store.SessionCommit | src/repository/base_repository.py:22-26 | as written: a commit succeeds exactly when the session is active and the batch is admitted; a failed commit leaves the session inactive, and an inactive session fails every later commit |
| Store.ClashBlocksLaterCommits | src/repository/base_repository.py:22-26 | as written: after one clashing commit, a batch that an active session would store fails with a pending rollback |
| Store.ClashBlocksLaterCommitsExample | src/repository/base_repository.py:22-26 | a concrete clash ([1] on [1]) then a fresh row ([2]) that is refused |
| CryptoRepo.RowsInRange | src/repository/crypto_repository.py:16-27 | a row is returned exactly when it is stored, belongs to the asset and is dated within [start, end], both ends included |
| CryptoRepo.LatestDate | src/repository/crypto_repository.py:44-52 | None exactly when the asset has no rows; otherwise a stored date of the asset that no other date of the asset exceeds |
| CryptoRepo.QueriesIgnoreOtherAssets | src/repository/crypto_repository.py:16-52 | appending rows of other assets changes neither the range query nor the latest date |
| CryptoRepo.NoRowsOfAsset | src/repository/crypto_repository.py:44-52 | with no rows of the asset, the range query is empty and the latest date is None |
| CryptoRepo.CryptoRepository.constructor | src/repository/crypto_repository.py:12-14 | the history and market tables hold what the database already holds, keyed by their primary keys |
| CryptoRepo.CryptoRepository.GetAssetHistoryByDateRange | src/repository/crypto_repository.py:16-27 | a row is returned exactly when the history table holds it, it belongs to the asset and its date lies in [start, end] |
| CryptoRepo.CryptoRepository.GetLatestDate | src/repository/crypto_repository.py:44-52 | None exactly when the history table has no row of the asset; otherwise a stored date of the asset that no other date of the asset exceeds |
| CryptoRepo.CryptoRepository.InsertAssetHistory | src/repository/crypto_repository.py:29-36 | the row built from the arguments is stored exactly when no stored row has the same asset and date; otherwise an integrity error and no change |
| CryptoRepo.CryptoRepository.InsertAssetHistories | src/repository/crypto_repository.py:38-42 | all rows are appended when their (asset, date) keys are distinct and new; otherwise an integrity error and no change |
| CryptoRepo.CryptoRepository.InsertMarkets | src/repository/crypto_repository.py:68-70 | all rows are appended when their (base, quote, exchange, created_at) keys are distinct and new; otherwise an integrity error and no change |
| CoinCap.DefaultHeaders | src/client/coincap_client.py:39-47 | JSON Accept and Content-Type always; a Bearer Authorization exactly when the API key is neither None nor empty; no other header |
| CoinCap.GetHeaders | src/client/coincap_client.py:39-47 | the dictionary built by insertion equals the headers above |
| CoinCap.HistoryQuery | src/client/coincap_client.py:130-134 | `interval` always; `start` and `end` present exactly when given, with their values; no other parameter |
| CoinCap.BuildHistoryParams | src/client/coincap_client.py:130-134 | the dictionary built by insertion equals that query |
| CoinCap.MarketsQuery | src/client/coincap_client.py:164 | exactly the keys `limit` and `offset`, with the given values |
| CoinCap.Final | src/client/coincap_client.py:78-108 | an answer is returned exactly when it is 2xx with a JSON body, and then the body is returned; a non-2xx status raises that status; a 2xx body that is not JSON raises a decode error; a timeout raises a timeout; a failed connection raises a request error with its reason |
| CoinCap.Settle | src/client/coincap_client.py:76-108 | the loop tries again exactly on a 429 or a timeout before the last attempt; otherwise it stops with what the answer means |
| CoinCap.Attempts | src/client/coincap_client.py:76-108 | a call issues at least one request and at most MAX_RETRIES requests |
| CoinCap.AttemptsStopAtFirstFinal | src/client/coincap_client.py:76-108 | if every earlier answer was retryable and this one is not, or is the last attempt, the call ends here with this answer's meaning |
| CoinCap.AttemptsHaveFinalForm | src/client/coincap_client.py:76-108 | every call is of that form: retryable answers, then one final answer whose meaning it returns |
| CoinCap.AttemptsMatchPolicy | src/client/coincap_client.py:76-108 | a call from the first attempt equals the policy written out over at most three answers |
| CoinCap.HistoryData | src/model/cryptocurrency.py:69-72 | the envelope is valid exactly when every entry is a history entry, and then its entries are returned in order |
| CoinCap.MarketData | src/model/cryptocurrency.py:75-78 | the envelope is valid exactly when every entry is a market entry, and then its entries are returned in order |
| CoinCap.AsHistory | src/client/coincap_client.py:139-140 | an error of the request is passed on; the answer is accepted exactly when it is a `data` list of history entries, which are then returned in order; any other answer raises a validation error |
| CoinCap.AsMarkets | src/client/coincap_client.py:168-169 | an error of the request is passed on; the answer is accepted exactly when it is a `data` list of market entries, which are then returned in order; any other answer raises a validation error |
| CoinCap.Transport.constructor | src/client/coincap_client.py:33-37 | a fresh connection has sent nothing |
| CoinCap.Transport.Send | src/client/coincap_client.py:78 | the request gets the answer indexed by the number of requests sent so far, and it is logged |
| CoinCap.CoinCapClient.constructor | src/client/coincap_client.py:25-37 | the client keeps the key and sends the default headers for it |
| CoinCap.CoinCapClient.MakeRequest | src/client/coincap_client.py:61-108 | returns or raises what `Attempts` says, and sends the same request exactly as many times as `Attempts` issues |
| CoinCap.CoinCapClient.GetHistory | src/client/coincap_client.py:110-147 | the history path and query are sent by the retry policy; the result is the validated history envelope or the error raised |
| CoinCap.CoinCapClient.GetMarkets | src/client/coincap_client.py:149-176 | the markets path and query are sent by the retry policy; the result is the validated markets envelope or the error raised |
| Service.ResolveWindow | src/service/crypto_service.py:29-41 | a given start is kept; with no stored rows of the asset the start is 2018-01-01; otherwise the start is exactly one day after the asset's latest stored date (a stored date no other date of the asset exceeds); the end is one day before now |
| Service.StoredDates | src/service/crypto_service.py:59-62 | a date is in the set exactly when a stored row of the asset has it and it lies within the window |
| Service.ToHistoryRow | src/service/crypto_service.py:67-74 | the row is keyed by the asset and the entry's date-time from its timestamp, keeps the timestamp and stores the price through the float cast |
| Service.NewRows | src/service/crypto_service.py:64-75 | every kept row belongs to the asset, is built from a fetched entry and has a date-time not yet stored; there are at most as many as were fetched |
| Service.NewRowsKeepExactlyUnstored | src/service/crypto_service.py:66-75 | a fetched entry's row is kept exactly when its date-time is not among the stored ones |
| Service.NewRowsDistribute | src/service/crypto_service.py:65-75 | the filter on a concatenation is the concatenation of the filters, so fetched order is kept |
| Service.NewRowsEmptyIffAllStored | src/service/crypto_service.py:77-79 | nothing is left to insert exactly when every fetched date-time is already stored |
| Service.BuildHistoryRows | src/service/crypto_service.py:65-75 | the appending loop computes exactly the filter `NewRows` |
| Service.HistoryEffect | src/service/crypto_service.py:50-90 | a failed fetch raises its error and stores nothing; after a successful fetch the step succeeds exactly when the filtered rows are admitted by the key, and then it inserts exactly those rows, and otherwise it raises the integrity error of the insert; inserted rows belong to the asset and are not yet stored in the window; a failure stores nothing |
| Service.RerunInsertsNothing | src/service/crypto_service.py:29-86 | re-running with the same start and the same answer, whose entries lie in the window, inserts nothing and succeeds |
| Service.RepeatedDateInOneFetchFails | src/service/crypto_service.py:58-85 | two fetched entries with the same unstored date-time make the whole insert fail with an integrity error, storing nothing |
| Service.RepeatedDateBreaksKey | src/service/crypto_service.py:62-75 | such a batch has two rows with the same primary key |
| Service.ToMarketRow | src/service/crypto_service.py:117-126 | the row carries exactly the market's fields and the batch stamp |
| Service.MarketRowRoundTrip | src/service/crypto_service.py:116-127 | mapping a market to a row keeps every field and adds only the stamp; a row is recovered from its market and its stamp |
| Service.BuildMarketRows | src/service/crypto_service.py:115-127 | the appending loop makes one row per fetched market, in order, each carrying that market and the batch stamp |
| Service.MarketRows | src/service/crypto_service.py:115-127 | one row per fetched market, in order, with the market's fields and the stamp |
| Service.MarketEffect | src/service/crypto_service.py:108-142 | a failed fetch raises its error; an empty page does nothing; after a successful fetch the step succeeds exactly when the page's rows are admitted by the key, and then it stores one row per market in order, and otherwise it raises the integrity error of the insert; a failure stores nothing |
| Service.FreshSnapshotIsStored | src/model/sql_models.py:30-33 | a page of distinct pairs stamped at an instant no stored row has is always stored in full |
| Service.AssetStepsShape | src/service/crypto_service.py:167-173 | the steps `AssetSteps` lists for one asset: history runs exactly when enabled; market runs exactly when enabled and history did not raise; history comes first |
| Service.ScheduleSplits | src/service/crypto_service.py:166-177 | a run's steps (`Schedule`, the assets' `AssetSteps` in list order) split at any asset into the steps before it, its own steps and the steps after it |
| Service.FailureIsIsolated | src/service/crypto_service.py:166-177 | whether one asset's history step raises changes only that asset's steps |
| Service.StepsFollowSchedule | src/service/crypto_service.py:166-177 | reports whose steps follow the flags have the steps of `Schedule` for their asset list |
| Service.OwnStepsFollowFlags | src/service/crypto_service.py:167-173 | the steps one report records, history before market, are the `AssetSteps` its flags call for |
| Service.ReportsFollowSchedule | src/service/crypto_service.py:166-177 | the same for consistent reports |
| Service.ResultOf | src/service/crypto_service.py:174-177 | a step is recorded as raised exactly when it failed, with the error it raised |
| Service.HistoryStepRunShape | src/service/crypto_service.py:16-90 | the history step (`HistoryStepRun`) is never skipped once called, sends the resolved window's daily request 1 to MAX_RETRIES times and nothing else, adds nothing when it raises, and adds only rows of the asset that the key admits |
| Service.MarketStepRunShape | src/service/crypto_service.py:92-142 | the market step (`MarketStepRun`) is never skipped once called, sends the page's markets request 1 to MAX_RETRIES times and nothing else, adds nothing when it raises, and adds only rows with the batch stamp that the key admits |
| Service.AssetRunReported | src/service/crypto_service.py:167-173 | one asset's run (`AssetRun`, built from `HistoryPart` under `if ingest_history` and `MarketPart` under `if ingest_market` after a history step that did not raise) follows the flags and the error boundary, sends 1 to MAX_RETRIES requests per step that runs to that asset's paths, and adds rows only in steps that did not raise |
| Service.IngestionReported | src/service/crypto_service.py:166-177 | every report of the orchestrator's step (`Ingestion`: `AssetRun` with the i-th clock reading and stamp) is about the asset it was given and follows the flags |
| Service.RunReports | src/service/crypto_service.py:166 | a run has one report per asset |
| Service.RunReportsExtend | src/service/crypto_service.py:166-177 | running one more asset (`LastReport`) appends that asset's report, run over the tables and the request count the earlier assets left |
| Service.RunReportsPrefix | src/service/crypto_service.py:166-177 | the first k reports of a run are the run of the first k assets: a later asset never changes an earlier report |
| Service.EachAssetRunsOnWhatEarlierLeft | src/service/crypto_service.py:166-177 | the i-th asset's report is its own run over exactly the rows and requests the earlier assets left behind, so an earlier asset's error reaches it only through those |
| Service.RunReportsReported | src/service/crypto_service.py:166-177 | a run of a well-reported step has the assets' reports in list order, each consistent with the flags |
| Service.IngestionRunReported | src/service/crypto_service.py:166-177 | an ingestion run has one report per asset in list order, each following the flags, and its steps are those of `Schedule` for the raised flags |
| Service.CryptoService.constructor | src/service/crypto_service.py:13-14 | the service owns a fresh repository over what the database already holds |
| Service.CryptoService.IngestAssetHistory | src/service/crypto_service.py:16-90 | sends the daily history request for the resolved window (start and end in milliseconds) under the retry policy; the outcome and the appended rows are those of `HistoryEffect` |
| Service.CryptoService.IngestMarketData | src/service/crypto_service.py:92-142 | sends the markets request under the retry policy; the outcome and the appended rows are those of `MarketEffect` |
| Service.CryptoService.IngestOneAsset | src/service/crypto_service.py:167-173 | the report is `AssetRun` over the tables and the request count before the call: history if enabled, then markets if enabled and history did not raise; the request log and both tables grow by exactly the report's requests and rows |
| Service.CryptoService.IngestMultipleAssets | src/service/crypto_service.py:144-177 | the reports are `RunReports` of the per-asset run with the i-th clock reading and stamp, so each asset runs over what the earlier ones left; one report per asset in list order; the steps run are exactly those of `Schedule` for the raised flags; the request log and both tables grow by the reports' requests and rows, asset after asset |

## Left out

- HTTP transport: the base URL, the 30-second timeout value, connection pooling, `close`, the async context manager and `async`/`await` are not modelled. A request's answer is the parameter `Transport.respond`.
- Response parsing: pydantic field validation, aliases and decimal conversion of single entries are not modelled. Only the envelope shape is: entries of the right kind under `data`, other JSON, or text that is not JSON.
- Floating point: the `float()` cast of a history price is the parameter `Env.toFloat`. The `Numeric(20, 8)` rounding of stored prices is not modelled.
- Clock and time zone: `datetime.now()`, `timestamp()` and `fromtimestamp()` are the `Env` fields `now`, `millisOf` and `dateOf`. Each asset of a run reads the clock once, as `envOf(i)` for the i-th asset; the model does not relate the readings of different assets.
- `created_at` defaults: `Market.created_at` has the Python-side default `datetime.utcnow`, which SQLAlchemy calls once per row at flush. The model takes one stamp per market batch as a parameter (`stampOf(i)` for the i-th asset). The `created_at` of history rows is not stored, because it is not part of any key or query.
- Service.MarketEffect: every row of a page carries the same stamp, so a page that repeats a (base_id, quote_id, exchange_id) triple is always refused with an integrity error. In the source each row gets its own `utcnow()` reading, so such a page is stored whenever the readings differ. `Service.MarketRows`, `Service.BuildMarketRows` and `Service.FreshSnapshotIsStored` share this single-stamp simplification.
- Query result order: the date-range query has no `ORDER BY`. The model returns rows in table order, and the service uses only the set of their dates.
- Store.Table.GetAll: the database promises no order for `query(...).all()`; the model returns rows in insertion order, a choice the source does not promise.
- Store.Table.Create: rows are values, not ORM objects. Adding an object the session already holds, or the same object twice in one batch, is a no-op success in SQLAlchemy; the model treats the second copy as a key clash and raises an integrity error.
- Store.Table.CreateMany: the same value semantics; an object repeated in one list is a key clash here, while SQLAlchemy adds it once.
- Store.Table.Delete: deleting an object equal to a stored row but not loaded from the session raises `InvalidRequestError` in SQLAlchemy; the model compares by value and removes the stored row.
- Service sessions: the service's tables roll back after a failed commit, so one asset's failed insert does not affect the next asset. The as-written behaviour, where the session stays inactive, is modelled only at the commit level (`Store.SessionCommit`); see Findings.
- `insert_market` (crypto_repository.py:54-66) is not modelled: it passes a `market_id` the `Market` model does not have, so it can only fail.
- `get_by_id` (base_repository.py:32-34) is not modelled: it filters on an `id` column that neither table has.
- `Store.Table.Update`: the ORM's tracking of in-memory changes is not modelled. Rows are values here, so an update commits nothing new.
- Logging (`src/util/logger.py`), the database setup (`src/util/db.py`), the entry point (`src/main.py`) and the abstract client (`src/client/base_client.py`) are not part of this model.

## Findings

| source | as written | input that shows it | evidently intended | confidence | as-written member | corrected member |
|---|---|---|---|---|---|---|
| src/service/crypto_service.py:166-177 | a commit that breaks a primary key leaves the shared SQLAlchemy session inactive, and nothing calls `rollback()`, so every later asset's first database call fails too | assets [a, b]: a's fetch returns two entries with one unstored date-time, so its insert raises an integrity error; b's `get_latest_date` then raises as well, although b's rows could be stored | an error in one asset ends only that asset's steps, and the next asset runs as if nothing had failed | high on SQLAlchemy's documented session behaviour; not executed | Store.ClashBlocksLaterCommits | Service.EachAssetRunsOnWhatEarlierLeft |
