# Kripteks trading core in Dafny

Kripteks is a crypto-trading platform. Its ASP.NET backend runs trading bots against the Binance exchange, back-tests and scans strategies, and keeps a simulated wallet, alerts, an audit trail and portfolio analytics. A React client shows the bots and drives the scanners. This project models the deterministic core of that system and proves what its code promises.

- **Technical indicators** (`Indicators`, `IndicatorsBands`, `IndicatorsLevels`, `IndicatorsRsi`, `IndicatorsTrend`). SMA, EMA, RSI, Stochastic RSI, OBV and its SMA, ATR, ADX with +DI/-DI, MACD, Bollinger bands and bandwidth, swing and support levels, and EMA-cross detection. Each is a specification function that says what every entry means. Each loop of `TechnicalIndicators.cs` is a method proved to compute that function. Lemmas state the lengths, the null warm-up prefixes, the ranges and the edge cases: the RSI's extra entry for exactly `period + 1` prices, and MACD throwing on short input.
- **Strategies** (`StrategyBase`, `StrategiesSimple`, `StrategiesSma`, `StrategiesScanner`, `StrategiesMomentum`, `StrategiesVolume`). Every strategy is a class whose fields `SetParameters` updates. `Analyze` and `CalculateSignalScore` are functions of the candles and the position. Each decision is stated on a snapshot (a "view") of the indicator values it reads. Lemmas give the precedence of the exits, the buy conditions and the score bounds.
- **Wallet and bot lifecycle** (`Trading`, `BotServices`, `BotEngine`, `WalletControllers`). One mutable database of bots, wallet, transactions and system logs. Creating, entering, marking, closing, stopping and archiving bots are methods. Their contracts state the new state and whether the lock invariant `LockedBalance == what the bots account for` is kept.
- **Simulations and statistics** (`Backtest`, `MonteCarlo`, `PortfolioServices`, `AnalyticsServices`). The back-test loop, the Monte-Carlo paths with percentiles and a histogram, portfolio aggregation with concentration, beta, risk level, target weights and rebalancing, and the dashboard analytics.
- **Rule engines and utilities**:
  - alerts with cooldown (`AlertServices`);
  - the audit trail, its paged query and the compliance report (`AuditLogServices`);
  - the audit controller with RFC 4180 CSV export and a reader that proves the export reads back (`AuditLogControllers`);
  - paging DTOs (`Paging`);
  - API-key masking and settings upserts in both services (`SettingsControllers`, `LegacySettingsControllers`);
  - favorites and the market scan (`ScannerServices`);
  - Yahoo candle aggregation (`YahooFinanceServices`);
  - the ChatDev bridge (`ChatDevServices`) and the AI consensus (`AiOrchestratorServices`);
  - device registration (`DevicesControllers`);
  - exchange intervals (`Intervals`).
- **Front-end state** (`DashboardPage`, `ScannerDashboardView`, `StrategyScannerPanelView`, `BotWizardView`, `NotificationCenterView`). Component state is a class whose fields the handlers reassign. The updaters and memos are functions with their own lemmas.
- **Shared vocabulary** (`Common`, `Listing`, `Text`). Option/Result values, candles, strategy results, the LINQ operators on sequences (`Where`, `Sum`, `Count`, `OrderByDescending`, `Skip`/`Take`) and the string operations.

**Modelling conventions**
- `decimal` and `double` are `real`: no rounding and no decimal overflow.
- C# `int` arithmetic is written out (`Wrap32`) where the code relies on it.
- A thrown exception is a `Failure` carrying the exception's message.
- The exchange, the HTTP calls, the database's failure modes, the clock and the random numbers are parameters ("oracles") of the operations that use them.
- Ids (GUIDs and identity columns) are naturals.
- Times are whole minutes or seconds, as each file says.

Where the code and its comments disagree, the model follows the code. Examples:
- `StopBotAsync` computes its refund after the status has already changed.
- `CheckEntrySignal` locks a market-buy bot's amount a second time.
- The back-test deducts the position twice.
- The orchestrator's PANIC SELL branch can never be taken.
- The Divergence Detector splits its values at half the number of candles.

Each is listed under Findings with both the as-written and the corrected behaviour. Behaviour that is surprising but evidently meant is modelled as written:
- the portfolio's target weights count a major coin twice when it appears under two quote currencies (`PortfolioServices.TargetWeightsRepeatedMajor`);
- the RSI's first Wilder update starts one gain later than the textbook definition;
- MACD throws when no index has both averages.

## Model

| member | source | states |
|---|---|---|
| Backtest.InitialState | backend/src/Kripteks.Infrastructure/Services/BacktestService.cs:148-155 | the run starts flat, with no position, the whole initial balance and no trades |
| Backtest.IntervalSpan | backend/src/Kripteks.Infrastructure/Services/BacktestService.cs:258-277 | every one of the thirteen interval codes maps to its length in minutes, and any other code to 15 minutes |
| Backtest.IntervalTablesAgree | backend/src/Kripteks.Infrastructure/Services/BacktestService.cs:79-92 | the candle interval fetched agrees with the warm-up span on every code except 6h, 8h and 12h, which fetch 15-minute candles |
| Backtest.UnknownIntervals | backend/src/Kripteks.Infrastructure/Services/BacktestService.cs:79-92 | a code of no interval is 15 minutes in both tables |
| Backtest.WarmUpStart | backend/src/Kripteks.Infrastructure/Services/BacktestService.cs:59-61 | the history starts 350 spans of the interval before the requested start |
| Backtest.ExitReason | backend/src/Kripteks.Infrastructure/Services/BacktestService.cs:189-209 | a strategy sell wins over the take-profit reached by the high, which wins over the stop-loss reached by the low; no exit exactly when none applies |
| Backtest.ExitPriceOfFixedReasons | backend/src/Kripteks.Infrastructure/Services/BacktestService.cs:215-218 | a take-profit exit is priced at the target and a stop-loss exit at the stop |
| Backtest.StepTrades | backend/src/Kripteks.Infrastructure/Services/BacktestService.cs:170-238 | a step records a trade exactly when it leaves a position, and then resets the position; a flat state stays flat unless the signal buys |
| Backtest.ExitPnl | backend/src/Kripteks.Infrastructure/Services/BacktestService.cs:220-232 | a closed trade's profit is the position times the move from entry to exit, and the balance takes the whole exit value |
| Backtest.RoundTripAsWritten | backend/src/Kripteks.Infrastructure/Services/BacktestService.cs:173-184 | as written, a buy from a balance b leaves -b, and after the round trip the balance is the trade's profit alone |
| Backtest.RoundTripCorrected | backend/src/Kripteks.Infrastructure/Services/BacktestService.cs:173-184 | with the amount deducted once, a buy leaves nothing free and the round trip returns the balance plus the trade's profit |
| Backtest.FlatRoundTripLosesBalance | backend/src/Kripteks.Infrastructure/Services/BacktestService.cs:175-178 | 100 in, a break-even trade at 10: as written the balance ends at 0, corrected at 100 |
| Backtest.SimulateKeeps | backend/src/Kripteks.Infrastructure/Services/BacktestService.cs:161-239 | flat states keep a zero position throughout, and trades are only ever appended |
| Backtest.ShortHistoryNoTrades | backend/src/Kripteks.Infrastructure/Services/BacktestService.cs:159-161 | with no more candles than the 350-candle warm-up no trade is made and the state is the initial one |
| Backtest.SimulateFails | backend/src/Kripteks.Infrastructure/Services/BacktestService.cs:249-253 | an exception thrown at a candle ends the run with it |
| Backtest.Statistics | backend/src/Kripteks.Infrastructure/Services/BacktestService.cs:241-247 | the counts of winning and losing trades add up to the trades, the profit is their sum, its percentage divides by the initial balance (a zero balance throws) and the maximum drawdown stays 0 |
| Backtest.WinRate | backend/src/Kripteks.Infrastructure/Services/BacktestService.cs:247-247 | the win rate lies between 0 and 100 |
| Backtest.RunBacktest | backend/src/Kripteks.Infrastructure/Services/BacktestService.cs:20-256 | the result is the statistics of the simulation of the fetched candles with a default Golden Rose strategy whatever the request names, or its exception |
| Backtest.SimulationLoop | backend/src/Kripteks.Infrastructure/Services/BacktestService.cs:161-239 | the loop over the candles from the warm-up on computes the simulation the strategy's signals define |
| Common.ParseInt | backend/src/Kripteks.Infrastructure/Strategies/GoldenRoseStrategy.cs:17-18 | `int.TryParse` with its default style: a parsed value fits in 32 bits and the text holds a digit; a text of digits alone parses as their value |
| Common.ParseIntParts | backend/src/Kripteks.Infrastructure/Strategies/GoldenRoseStrategy.cs:17-18 | white space, an optional minus, digits and white space parse as the signed value of the digits when it fits in 32 bits and fail when it does not |
| Common.ParseIntPadded | backend/src/Kripteks.Infrastructure/Strategies/GoldenRoseStrategy.cs:17-18 | every 32-bit integer written out, with white space on either side, parses back as itself |
| Common.ParseIntRoundTrip | backend/src/Kripteks.Infrastructure/Strategies/GoldenRoseStrategy.cs:17-18 | formatting a 32-bit integer and parsing the text gives the integer back |
| Common.ParseDecimal | backend/src/Kripteks.Infrastructure/Strategies/GoldenRoseStrategy.cs:19-20 | `decimal.TryParse` with its default style: a parsed text holds a digit |
| Common.ParseDecimalParts | backend/src/Kripteks.Infrastructure/Strategies/GoldenRoseStrategy.cs:19-20 | white space, an optional minus, digits and white space parse as the signed value of the digits |
| Common.ParseDecimalPadded | backend/src/Kripteks.Infrastructure/Strategies/GoldenRoseStrategy.cs:19-20 | every integer written out, with white space on either side, parses as the same decimal |
| Common.ParseDecimalOfInt | backend/src/Kripteks.Infrastructure/Strategies/GoldenRoseStrategy.cs:19-20 | every integer written out parses as the same decimal |
| Common.ParseDecimalPoint | backend/src/Kripteks.Infrastructure/Strategies/GoldenRoseStrategy.cs:19-20 | digits, a point and digits parse as the whole part plus the fraction, also when one side of the point is empty ("5.", ".5") |
| Common.ParseDecimalGrouped | backend/src/Kripteks.Infrastructure/Strategies/GoldenRoseStrategy.cs:19-20 | a group separator after a digit is passed over, so "1,000" is a thousand |
| Common.ParseDecimalTrailingSign | backend/src/Kripteks.Infrastructure/Strategies/GoldenRoseStrategy.cs:19-20 | a sign may follow the digits instead of leading them, so "5-" is minus five |
| AuditLogControllers.ClampLogPage | backend/src/Kripteks.Api/Controllers/AuditLogController.cs:30-30 | the page is at least 1, kept when it is, 1 otherwise |
| AuditLogControllers.ClampLogPageSize | backend/src/Kripteks.Api/Controllers/AuditLogController.cs:31-31 | the page size lies in [1, 200], kept when it does, 50 otherwise |
| AuditLogControllers.GetLogsBounded | backend/src/Kripteks.Api/Controllers/AuditLogController.cs:18-47 | whatever page and size are asked for, the answer holds at most 200 matching rows and its total counts every matching row |
| AuditLogControllers.RejectCompliance | backend/src/Kripteks.Api/Controllers/AuditLogController.cs:58-66 | a request is accepted exactly when it has a target user, its end is not before its start and it spans at most 366 days; without a target it is unauthorized |
| AuditLogControllers.GetComplianceReport | backend/src/Kripteks.Api/Controllers/AuditLogController.cs:52-72 | a report for the target user over the period exactly when the checks pass, the refusal otherwise |
| AuditLogControllers.DoubleQuotes | backend/src/Kripteks.Api/Controllers/AuditLogController.cs:160-160 | doubling the quotes never shortens a value |
| AuditLogControllers.DoubleQuotesIsReplace | backend/src/Kripteks.Api/Controllers/AuditLogController.cs:160-160 | doubling the quotes is replacing every quote by two |
| AuditLogControllers.Escape | backend/src/Kripteks.Api/Controllers/AuditLogController.cs:157-162 | a value without comma, quote or line feed is written as it is; any other is enclosed in quotes |
| AuditLogControllers.EscapeReadBack | backend/src/Kripteks.Api/Controllers/AuditLogController.cs:157-162 | a reader of section 2 of RFC 4180 reads an escaped value back unchanged, leaving the delimiter after it |
| AuditLogControllers.ReadQuotedStep | backend/src/Kripteks.Api/Controllers/AuditLogController.cs:160-160 | one more character in front of a quoted value is read back, a quote from two |
| AuditLogControllers.Escaped | backend/src/Kripteks.Api/Controllers/AuditLogController.cs:104-115 | every field of a row is escaped, in order |
| AuditLogControllers.RecordReadBack | backend/src/Kripteks.Api/Controllers/AuditLogController.cs:104-115 | a line of escaped fields joined by commas reads back as the same fields |
| AuditLogControllers.DocumentReadBack | backend/src/Kripteks.Api/Controllers/AuditLogController.cs:98-117 | lines of records read back as the records' fields, line by line |
| AuditLogControllers.Records | backend/src/Kripteks.Api/Controllers/AuditLogController.cs:102-116 | one line per row, in order |
| AuditLogControllers.RowFields | backend/src/Kripteks.Api/Controllers/AuditLogController.cs:104-115 | a row has the header's eleven values |
| AuditLogControllers.Rows | backend/src/Kripteks.Api/Controllers/AuditLogController.cs:102-116 | one row per item, in order |
| AuditLogControllers.CsvReadBack | backend/src/Kripteks.Api/Controllers/AuditLogController.cs:98-117 | the export reads back as the header followed by the items' values, every row with the header's eleven columns and no value altered |
| AuditLogControllers.ExportLogs | backend/src/Kripteks.Api/Controllers/AuditLogController.cs:77-120 | the queried rows as JSON when the format is "json" in any case, as the CSV document otherwise |
| AuditLogControllers.CsvTextEmpty | backend/src/Kripteks.Api/Controllers/AuditLogController.cs:100-100 | with no items the document is the header line alone |
| AuditLogControllers.CsvTextSnoc | backend/src/Kripteks.Api/Controllers/AuditLogController.cs:102-116 | writing one more item appends its line |
| AuditLogControllers.StatsCount | backend/src/Kripteks.Api/Controllers/AuditLogController.cs:138-145 | the count the query reports for a category is the number of its rows in the period |
| AuditLogControllers.GetStats | backend/src/Kripteks.Api/Controllers/AuditLogController.cs:125-155 | one entry per category, in declaration order, with the number of its rows in the period, which defaults to the last 30 days |
| AuditLogControllers.CountCategory | backend/src/Kripteks.Api/Controllers/AuditLogController.cs:136-151 | one category's entry carries its name and the total of its query |
| AuditLogControllers.CountsPartitionPeriod | backend/src/Kripteks.Api/Controllers/AuditLogController.cs:134-151 | the per-category counts add up to the number of rows in the period, every row having exactly one category |
| AuditLogControllers.OccursOnce | backend/src/Kripteks.Api/Controllers/AuditLogController.cs:134-134 | every category is listed exactly once |
| AuditLogControllers.StatsAddUp | backend/src/Kripteks.Api/Controllers/AuditLogController.cs:134-154 | the statistics' counts add up to the number of rows in the period |
| DevicesControllers.FindByModel | backend/src/Kripteks.Api/Controllers/DevicesController.cs:35-38 | the lookup finds the first device of the user with the given type and model, and finds none exactly when no device matches all three |
| DevicesControllers.FindByToken | backend/src/Kripteks.Api/Controllers/DevicesController.cs:41-42 | the lookup finds the first device holding the token, whoever owns it, and none exactly when no device holds it |
| DevicesControllers.FindOwnedToken | backend/src/Kripteks.Api/Controllers/DevicesController.cs:94-95 | the lookup finds the first device with the token that belongs to the user, and none exactly when there is no such device |
| DevicesControllers.MatchFor | backend/src/Kripteks.Api/Controllers/DevicesController.cs:34-42 | the device a registration updates is the user's device of that type and model when there is one, and otherwise the first device holding the token |
| DevicesControllers.Refreshed | backend/src/Kripteks.Api/Controllers/DevicesController.cs:44-57 | a refreshed device keeps its id, type and registration time, and takes the user, token, model, app version and last-use time of the request, becoming active |
| DevicesControllers.DevicesNewestFirst | backend/src/Kripteks.Api/Controllers/DevicesController.cs:122-135 | the listing holds one entry per device of the user, each with a last-use time, most recently used first |
| DevicesControllers.DevicesComplete | backend/src/Kripteks.Api/Controllers/DevicesController.cs:122-124 | every device of the user appears in the listing |
| DevicesControllers.DevicesOnlyOwn | backend/src/Kripteks.Api/Controllers/DevicesController.cs:122-124 | every entry of the listing shows one of the user's own devices |
| DevicesControllers.DeviceTable.constructor | backend/src/Kripteks.Api/Controllers/DevicesController.cs:19-23 | the device table starts empty with the first id 1, and is valid (distinct ids, unique tokens) |
| DevicesControllers.DeviceTable.RegisterDevice | backend/src/Kripteks.Api/Controllers/DevicesController.cs:26-83 | without a user nothing changes and the answer is Unauthorized; a matched device is refreshed in place, unless its new token is held by another device, when the save fails and nothing changes; with no match a new active device with the next id is appended; after a success the token is registered to an active device of the user, last used now; the table stays valid |
| DevicesControllers.DeviceTable.UnregisterDevice | backend/src/Kripteks.Api/Controllers/DevicesController.cs:86-111 | without a user nothing changes (Unauthorized); a token that is not one of the user's devices is not found and nothing changes; otherwise exactly that device is removed, the rest keep their order, and the token is no longer registered |
| DevicesControllers.DeviceTable.GetUserDevices | backend/src/Kripteks.Api/Controllers/DevicesController.cs:114-138 | the answer is Unauthorized exactly without a user; otherwise it lists exactly the user's devices, one entry each, most recently used first |
| DevicesControllers.TokenHolder | backend/src/Kripteks.Api/Controllers/DevicesController.cs:41-42 | with unique tokens the lookup by a device's token finds that very device |
| DevicesControllers.RemoveAt | backend/src/Kripteks.Api/Controllers/DevicesController.cs:102-103 | removing one device keeps ids distinct and tokens unique and frees the removed device's token |
| SettingsControllers.MaskKey | backend/src/Kripteks.Api/Controllers/SettingsController.cs:45-47 | a key longer than 8 characters shows its first and last four characters around "****"; any other key shows only "****" |
| SettingsControllers.MaskHidesMiddle | backend/src/Kripteks.Api/Controllers/SettingsController.cs:45-47 | keys that share their first and last four characters are masked alike, so the middle is never revealed |
| SettingsControllers.MaskNeverWholeKey | backend/src/Kripteks.Api/Controllers/SettingsController.cs:45-47 | a key longer than 12 characters is never shown whole |
| SettingsControllers.FieldErrors | backend/src/Kripteks.Api/Controllers/SettingsController.cs:285-291 | a field has no validation message exactly when it is present, not blank and 8 to 512 characters long |
| SettingsControllers.ApiKeyDtoErrors | backend/src/Kripteks.Api/Controllers/SettingsController.cs:283-292 | a key body has no validation message exactly when both keys pass their checks |
| SettingsControllers.ValidDtoHasKeys | backend/src/Kripteks.Api/Controllers/SettingsController.cs:54-57 | a body that passes validation has two keys of 8 to 512 characters, so the action's emptiness check never fires after it |
| SettingsControllers.FindCredential | backend/src/Kripteks.Api/Controllers/SettingsController.cs:62-63 | the first of the user's Binance credentials, none when the user has none |
| SettingsControllers.FindSetting | backend/src/Kripteks.Api/Controllers/SettingsController.cs:105-106 | the first of the user's settings rows, none when the user has none |
| SettingsControllers.SavedCredential | backend/src/Kripteks.Api/Controllers/SettingsController.cs:68-85 | the saved row is the user's Binance row with the new keys; an existing row keeps its creation time and gets an update time |
| SettingsControllers.UpsertCredentialFacts | backend/src/Kripteks.Api/Controllers/SettingsController.cs:62-88 | a save leaves exactly one Binance credential for the user, holding the new keys; other users' rows are untouched and at most one row is added |
| SettingsControllers.FindCredentialFirst | backend/src/Kripteks.Api/Controllers/SettingsController.cs:62-63 | the lookup finds the first matching row |
| SettingsControllers.UpsertSettingFacts | backend/src/Kripteks.Api/Controllers/SettingsController.cs:124-144 | an upsert keeps one settings row per user, and the user's row is the updated or the inserted one |
| SettingsControllers.FindSettingFirst | backend/src/Kripteks.Api/Controllers/SettingsController.cs:105-106 | the lookup finds the first row of the user |
| SettingsControllers.SettingsDb.constructor | backend/src/Kripteks.Api/Controllers/SettingsController.cs:15-31 | the tables start empty and consistent |
| SettingsControllers.SettingsDb.GetApiKeys | backend/src/Kripteks.Api/Controllers/SettingsController.cs:33-50 | an anonymous caller is unauthorized; a user without a credential gets no key; otherwise the stored key is decrypted and masked |
| SettingsControllers.SettingsDb.SaveApiKeys | backend/src/Kripteks.Api/Controllers/SettingsController.cs:54-96 | a body failing validation or with an empty key is refused and nothing changes; an anonymous caller is unauthorized; otherwise the encrypted keys are upserted into the user's one credential |
| SettingsControllers.SettingsDb.GetGeneralSettings | backend/src/Kripteks.Api/Controllers/SettingsController.cs:100-115 | an anonymous caller is unauthorized; otherwise the user's row, or a default row for the user |
| SettingsControllers.SettingsDb.SaveGeneralSettings | backend/src/Kripteks.Api/Controllers/SettingsController.cs:119-154 | the seven general fields are copied onto the user's row, or the posted row is inserted for the user; credentials are untouched |
| SettingsControllers.SettingsDb.GetNotificationSettings | backend/src/Kripteks.Api/Controllers/SettingsController.cs:158-191 | the user's seven switches, or all of them on when the user has no row |
| SettingsControllers.SettingsDb.UpdateNotificationSettings | backend/src/Kripteks.Api/Controllers/SettingsController.cs:195-235 | the seven switches are copied onto the user's row, or a new row with them is inserted |
| SettingsControllers.SettingsDb.UpdateFcmToken | backend/src/Kripteks.Api/Controllers/SettingsController.cs:239-269 | a missing or blank token is refused before the caller is looked at; otherwise the token is stored on the user's row or on a new row |
| SettingsControllers.GetApiKeysIgnoresSecrets | backend/src/Kripteks.Api/Controllers/SettingsController.cs:33-50 | the stored secret never reaches the answer |
| SettingsControllers.SameKeysSameLookup | backend/src/Kripteks.Api/Controllers/SettingsController.cs:38-39 | the credential lookup does not depend on the stored secrets |
| SettingsControllers.SavedKeyReadsBack | backend/src/Kripteks.Api/Controllers/SettingsController.cs:54-85 | after a save, reading the keys back shows the new key, masked |
| SettingsControllers.GetAuditLogsFacts | backend/src/Kripteks.Api/Controllers/SettingsController.cs:273-280 | the audit rows newest first, as many as there are up to 200 |
| LegacySettingsControllers.CredentialTable.constructor | backend-api/src/Kripteks.Api/Controllers/SettingsController.cs:15-24 | the table starts empty, with one credential per user |
| LegacySettingsControllers.CredentialTable.GetApiKeys | backend-api/src/Kripteks.Api/Controllers/SettingsController.cs:27-44 | an anonymous caller is unauthorized; a user without a credential has no keys; otherwise the stored key is masked and the secret is never returned |
| LegacySettingsControllers.CredentialTable.SaveApiKeys | backend-api/src/Kripteks.Api/Controllers/SettingsController.cs:47-82 | an empty key or secret is refused and nothing changes; an anonymous caller is unauthorized; otherwise the keys are upserted, as given, into the user's one credential |
| LegacySettingsControllers.SavedInPlainText | backend-api/src/Kripteks.Api/Controllers/SettingsController.cs:55-78 | after a save the user's credential holds the key and the secret exactly as sent, and reading back shows the sent key masked |
| WalletControllers.GetWallet | backend/src/Kripteks.Api/Controllers/WalletController.cs:23-64 | a missing wallet is created with 10000 free and nothing locked; the locked balance is then set to what the bots account for, the difference moving to the free balance so the total is kept; an already consistent wallet is untouched; the answer reports as available the free balance (taken to be the entity's `AvailableBalance`), which is the old total less what the bots lock, the locked balance, the running bots' PnL, and as current balance available plus locked plus that PnL |
| WalletControllers.TransactionsPage | backend/src/Kripteks.Api/Controllers/WalletController.cs:66-94 | the answer repeats page and page size and counts every transaction; its items are at most a page of transactions, newest first, exactly the requested slice |
| WalletControllers.TransactionPagesCover | backend/src/Kripteks.Api/Controllers/WalletController.cs:80-85 | taken in turn the pages list every transaction once, newest first: the next page starts where this one ends |
| BotWizardView.InitialForm | frontend/src/components/wizard/BotWizard.tsx:36-54 | the wizard opens on BTC/USDT with no strategy, an amount of 100, the 1h interval, no trailing stop and a trailing distance of 2.5 |
| BotWizardView.Step2ValidIff | frontend/src/components/wizard/BotWizard.tsx:101-106 | the second step accepts the form exactly when the amount is positive, a market buy fits the available balance when there is a wallet, and a grid or DCA strategy has all three of its fields filled |
| BotWizardView.DefaultStrategy | frontend/src/components/wizard/BotWizard.tsx:57-61 | a chosen strategy is kept; with none chosen and a non-empty list the first strategy is picked; the result is empty only when nothing was chosen and there was nothing to pick |
| BotWizardView.IntervalForFacts | frontend/src/components/wizard/BotWizard.tsx:64-69 | the four strategies with a default interval set it whatever was chosen before; any other strategy leaves the interval alone; applying the default twice is applying it once |
| BotWizardView.PayloadFacts | frontend/src/components/wizard/BotWizard.tsx:74-94 | the payload carries coin, strategy, amount and interval; an empty take-profit or stop-loss is null; the trailing distance is sent exactly when the trailing stop is on; strategy parameters are present exactly for the grid and DCA strategies, with their three named fields |
| BotWizardView.BotWizard.constructor | frontend/src/components/wizard/BotWizard.tsx:31-54 | the wizard starts on step 1 with the initial form |
| BotWizardView.BotWizard.OnStrategies | frontend/src/components/wizard/BotWizard.tsx:57-61 | when the strategy list arrives only the selected strategy may change, to the default pick; the step stays |
| BotWizardView.BotWizard.SelectStrategy | frontend/src/components/wizard/BotWizard.tsx:64-69 | choosing a strategy sets it and applies its default interval; nothing else changes |
| BotWizardView.BotWizard.Next | frontend/src/components/wizard/BotWizard.tsx:223-244 | Next moves one step forward exactly when the footer is shown and the button is enabled; leaving step 1 needs a valid first step and leaving a later step a valid second step; the step stays between 1 and 4 |
| BotWizardView.BotWizard.Back | frontend/src/components/wizard/BotWizard.tsx:223-235 | Back moves one step back exactly when it is shown (between the first and the last step); the step stays between 1 and 4 |
| BotWizardView.NextThenBack | frontend/src/components/wizard/BotWizard.tsx:223-239 | after a step forward that does not reach the review, Back is offered |
| BotWizardView.ReviewNeedsValidForm | frontend/src/components/wizard/BotWizard.tsx:101-106 | the review step is reached only through a form the second step accepts, so with a positive amount |
| DashboardPage.IndexOfBot | frontend/src/app/page.tsx:127-127 | the index is the first position of a bot with the id, or -1 exactly when no bot has it |
| DashboardPage.BotUpdatedFacts | frontend/src/app/page.tsx:124-135 | after an update the list has at most one more bot; the update is the bot found under its id; the list holds only the update and earlier bots and keeps every bot with another id; a known bot is replaced in place with every other position untouched, an unknown one goes in front |
| DashboardPage.BotUpdatedIdempotent | frontend/src/app/page.tsx:124-135 | delivering the same update twice is the same as delivering it once |
| DashboardPage.AppendLogFacts | frontend/src/app/page.tsx:142-143 | the new line is last; the log is the newest lines of the old log followed by it; it grows by one below 50 lines and keeps its length from 50 on, so a log of at most 50 lines stays within 50 |
| DashboardPage.LogAddedFacts | frontend/src/app/page.tsx:138-148 | a log line changes only the logs of the bots with its id and ends their logs; every other bot is unchanged; logs within 50 lines stay within 50 |
| DashboardPage.ToastForIff | frontend/src/app/page.tsx:176-187 | a toast is shown for a bot exactly when its previous state was Running and it is now Completed or Stopped; it names the bot's symbol and is the take-profit toast exactly when the bot completed |
| DashboardPage.ToastsCount | frontend/src/app/page.tsx:176-187 | one toast per bot that earns one, in the order of the bots |
| DashboardPage.NoChangeNoToast | frontend/src/app/page.tsx:170-189 | when the list did not change (and ids are distinct) no toast is shown |
| DashboardPage.ActiveHistoryPartition | frontend/src/app/page.tsx:259-260 | the active tab (Running or WaitingForEntry) and the history tab split the bots: each bot is on exactly one, as often as in the list |
| DashboardPage.AmountByPercent | frontend/src/app/page.tsx:245-245 | without a wallet or with a zero balance the amount is left as it was; otherwise it is the whole part of that percentage of the balance |
| DashboardPage.PercentWithinBalance | frontend/src/app/page.tsx:245-245 | a percentage between 0 and 100 of a positive balance gives an amount between 0 and the balance |
| DashboardPage.DefaultIntervalFacts | frontend/src/app/page.tsx:192-196 | market buy, Golden Rose and the SMA crossover switch to 1m, 1h and 15m whatever was chosen before; any other strategy, Golden Cross included, keeps the interval; applying it twice is applying it once |
| DashboardPage.PercentAmountStartable | frontend/src/app/page.tsx:245-250 | an amount picked with a percent button never disables the start button through the balance check |
| DashboardPage.StartRequest | frontend/src/app/page.tsx:223-239 | nothing is sent exactly when the coin or strategy is missing or the amount is not positive; otherwise the request carries the coin, strategy and amount, and leaves out exactly the empty take-profit and stop-loss fields |
| DashboardPage.Dashboard.constructor | frontend/src/app/page.tsx:124-189 | the page starts with no bots, no recorded bots and an amount of 100 |
| DashboardPage.Dashboard.OnBotUpdated | frontend/src/app/page.tsx:124-135 | a `BotUpdated` message applies the updater to the list; nothing else changes |
| DashboardPage.Dashboard.OnLogAdded | frontend/src/app/page.tsx:138-148 | a `LogAdded` message applies the updater to the list and keeps logs within 50 lines |
| DashboardPage.Dashboard.CheckStatusChanges | frontend/src/app/page.tsx:170-189 | the first time the list is only recorded and no toast is shown; afterwards each bot's toast against the recorded list is shown, at most one per bot; then the current list is recorded |
| DashboardPage.Dashboard.SetAmountByPercent | frontend/src/app/page.tsx:245-245 | the amount becomes the percentage amount; the bots are unchanged |
| NotificationCenterView.MarkRead | frontend/src/components/ui/NotificationCenter.tsx:85-85 | marking one id keeps the list's length and order; exactly the notifications with that id become read, the others are untouched |
| NotificationCenterView.MarkReadCount | frontend/src/components/ui/NotificationCenter.tsx:24-24 | after marking an id the unread badge counts exactly the unread notifications with another id, so it never grows |
| NotificationCenterView.MarkAllRead | frontend/src/components/ui/NotificationCenter.tsx:94-94 | marking all keeps the list's length and order and sets every notification read |
| NotificationCenterView.MarkAllReadClears | frontend/src/components/ui/NotificationCenter.tsx:91-100 | after marking all the unread count is zero and the same notifications remain in the same positions |
| NotificationCenterView.ReceivedCount | frontend/src/components/ui/NotificationCenter.tsx:62-66 | a pushed notification goes first; the badge grows by one exactly when it is unread |
| NotificationCenterView.AppendedCount | frontend/src/components/ui/NotificationCenter.tsx:33-37 | an appended page keeps the earlier notifications as its prefix and adds its own unread ones to the badge |
| NotificationCenterView.NotificationCenter.constructor | frontend/src/components/ui/NotificationCenter.tsx:18-21 | the bell starts with no notifications, no more pages, page 1 and no fetch under way |
| NotificationCenterView.NotificationCenter.FetchNotifications | frontend/src/components/ui/NotificationCenter.tsx:26-48 | without a user nothing changes; a failed call changes nothing but clears the loading flag; otherwise the items (a page's items, a bare array, or none) are appended or replace the list, the page is the reply's or the requested one, and more pages are expected only when the reply says so |
| NotificationCenterView.NotificationCenter.OnScroll | frontend/src/components/ui/NotificationCenter.tsx:50-56 | the next page is fetched exactly when the list is present, no fetch is under way, more pages exist and the view is within 50 pixels of the bottom; then its items are appended; otherwise nothing changes |
| NotificationCenterView.NotificationCenter.OnReceive | frontend/src/components/ui/NotificationCenter.tsx:62-66 | a received notification is put in front of the list and the unread count grows by one exactly when it is unread; paging state is unchanged |
| NotificationCenterView.NotificationCenter.MarkAsRead | frontend/src/components/ui/NotificationCenter.tsx:82-89 | the list changes only when the server call succeeded, to the list with that id marked read; the unread count never grows |
| NotificationCenterView.NotificationCenter.MarkAllAsRead | frontend/src/components/ui/NotificationCenter.tsx:91-100 | the list changes only when the server call succeeded, and then nothing is unread |
| ScannerDashboardView.ToggleFacts | frontend/src/components/scanner/ScannerDashboard.tsx:71-75 | toggling flips whether that symbol is selected and leaves every other symbol as it was; a selection without repeats stays without repeats |
| ScannerDashboardView.ToggleTwice | frontend/src/components/scanner/ScannerDashboard.tsx:71-75 | toggling the same symbol twice gives back the same selected symbols, and the very same list when the symbol was not selected |
| ScannerDashboardView.FilteredCoinsMembers | frontend/src/components/scanner/ScannerDashboard.tsx:60-69 | the coin list holds the coins whose lower-cased symbol contains the lower-cased search term, each as often as it occurs, and no other coin |
| ScannerDashboardView.FilteredCoinsSelectedFirst | frontend/src/components/scanner/ScannerDashboard.tsx:62-68 | in the coin list no unselected coin comes before a selected one |
| ScannerDashboardView.EmptySearchKeepsAll | frontend/src/components/scanner/ScannerDashboard.tsx:60-61 | an empty search term hides no coin |
| ScannerDashboardView.DisplayResultsFacts | frontend/src/components/scanner/ScannerDashboard.tsx:100-105 | exactly the results whose score (camel-case score, else Pascal-case score, else 0) reaches the minimum are shown, never more often than they occur |
| ScannerDashboardView.RaisingMinScoreNarrows | frontend/src/components/scanner/ScannerDashboard.tsx:100-105 | raising the minimum score only hides more results: the stricter view is the looser view filtered again |
| ScannerDashboardView.ScanRequestFor | frontend/src/components/scanner/ScannerDashboard.tsx:81-86 | the request carries the selection, interval and strategy, and the minimum score exactly when it is positive |
| ScannerDashboardView.ScannerDashboard.constructor | frontend/src/components/scanner/ScannerDashboard.tsx:20-34 | the screen starts with no symbols, no list, no results, not scanned, and a minimum score of 50 |
| ScannerDashboardView.ScannerDashboard.ToggleSymbol | frontend/src/components/scanner/ScannerDashboard.tsx:71-75 | the selection becomes the toggled one and keeps having no repeats; nothing else changes |
| ScannerDashboardView.ScannerDashboard.SelectFavoriteList | frontend/src/components/scanner/ScannerDashboard.tsx:193-196 | clicking a favorite list marks it selected and replaces the whole selection by its symbols |
| ScannerDashboardView.ScannerDashboard.RunScanner | frontend/src/components/scanner/ScannerDashboard.tsx:77-98 | the request is built from the state; the results become the reply's results, or stay cleared when the reply has none or the call fails; the screen counts as scanned once a reply had results |
| ScannerDashboardView.ScannerDashboard.Displayed | frontend/src/components/scanner/ScannerDashboard.tsx:100-105 | the shown results over the current state are exactly the results whose score reaches the current minimum |
| StrategyScannerPanelView.NextSortConfigFacts | frontend/src/components/ui/StrategyScannerPanel.tsx:136-142 | a click always sorts by the clicked column; a new column starts descending; a click on the current column flips its direction, so two more clicks come back to the same configuration |
| StrategyScannerPanelView.SortedResultsFacts | frontend/src/components/ui/StrategyScannerPanel.tsx:124-134 | the table holds the same rows as the results, each as often; without a sort it is the results as they came; with one it is ordered on the column, non-decreasing when ascending and non-increasing when descending |
| StrategyScannerPanelView.SearchedCoinsFacts | frontend/src/components/ui/StrategyScannerPanel.tsx:77-79 | the coin list shows exactly the coins whose lower-cased symbol contains the lower-cased search term, each at most as often as it occurs; an empty term shows every coin in order |
| StrategyScannerPanelView.TopSymbolsFacts | frontend/src/components/ui/StrategyScannerPanel.tsx:87-90 | selecting the top `count` gives the symbols of the first `count` coins (all of them when there are fewer), in the coins' order |
| StrategyScannerPanelView.StrategyScannerPanel.constructor | frontend/src/components/ui/StrategyScannerPanel.tsx:61-75 | the panel starts with no symbols selected, no results and no sort |
| StrategyScannerPanelView.StrategyScannerPanel.ToggleSymbol | frontend/src/components/ui/StrategyScannerPanel.tsx:81-85 | toggling a symbol adds it when absent and removes it when present; results and sort stay |
| StrategyScannerPanelView.StrategyScannerPanel.SelectTop | frontend/src/components/ui/StrategyScannerPanel.tsx:87-90 | the selection is replaced by the top symbols; results and sort stay |
| StrategyScannerPanelView.StrategyScannerPanel.RequestSort | frontend/src/components/ui/StrategyScannerPanel.tsx:136-142 | the sort becomes the next configuration for the clicked column; selection and results stay |
| StrategyScannerPanelView.StrategyScannerPanel.RunScanner | frontend/src/components/ui/StrategyScannerPanel.tsx:92-122 | with no symbol selected no request is sent and nothing changes; otherwise the request carries the selection, the form's fields, commission 0.001 and slippage 0.0005, and the results become the reply's results, or stay cleared when the reply has none or the call fails |
| StrategyScannerPanelView.StrategyScannerPanel.Sorted | frontend/src/components/ui/StrategyScannerPanel.tsx:124-134 | the table over the current state holds the same rows as the results, and exactly the results when no sort is chosen |
| Indicators.Sma | backend/src/Kripteks.Infrastructure/Helpers/TechnicalIndicators.cs:8-29 | one entry per price |
| Indicators.CalculateSma | backend/src/Kripteks.Infrastructure/Helpers/TechnicalIndicators.cs:8-29 | the loop summing each window backwards computes the SMA: null during the warm-up, then the mean of the last period prices |
| Indicators.SmaDefinedIff | backend/src/Kripteks.Infrastructure/Helpers/TechnicalIndicators.cs:13-17 | exactly the first period - 1 entries are null |
| Indicators.SmaWithinWindow | backend/src/Kripteks.Infrastructure/Helpers/TechnicalIndicators.cs:19-25 | each SMA value lies between the lowest and the highest price of its window |
| Indicators.SmaBounds | backend/src/Kripteks.Infrastructure/Helpers/TechnicalIndicators.cs:8-29 | prices within a range give SMA values within it |
| Indicators.SmaPeriodOne | backend/src/Kripteks.Infrastructure/Helpers/TechnicalIndicators.cs:8-29 | a one-period SMA is the price series itself |
| Indicators.EmaMultiplier | backend/src/Kripteks.Infrastructure/Helpers/TechnicalIndicators.cs:35-35 | the smoothing factor 2 / (period + 1) lies in (0, 1] |
| Indicators.Ema | backend/src/Kripteks.Infrastructure/Helpers/TechnicalIndicators.cs:32-69 | one entry per price |
| Indicators.CalculateEma | backend/src/Kripteks.Infrastructure/Helpers/TechnicalIndicators.cs:32-69 | the loop computes the EMA: null during the warm-up, seeded with the SMA of the first period prices, then moved toward each price by the factor |
| Indicators.EmaStepBounds | backend/src/Kripteks.Infrastructure/Helpers/TechnicalIndicators.cs:58-58 | one EMA step stays between the previous value and the price |
| Indicators.EmaValueBounds | backend/src/Kripteks.Infrastructure/Helpers/TechnicalIndicators.cs:45-64 | every EMA value stays within the range of the prices |
| Indicators.EmaBounds | backend/src/Kripteks.Infrastructure/Helpers/TechnicalIndicators.cs:32-69 | prices within a range give EMA values within it |
| Indicators.EmaOfConstant | backend/src/Kripteks.Infrastructure/Helpers/TechnicalIndicators.cs:32-69 | a constant price series has that constant as every defined EMA value |
| Indicators.EmaSeedIsSma | backend/src/Kripteks.Infrastructure/Helpers/TechnicalIndicators.cs:45-51 | the first defined EMA value is the SMA at the same index |
| IndicatorsBands.SquaredDeviations | backend/src/Kripteks.Infrastructure/Helpers/TechnicalIndicators.cs:150-150 | one squared deviation from the window's mean per price, none negative |
| IndicatorsBands.BandVariance | backend/src/Kripteks.Infrastructure/Helpers/TechnicalIndicators.cs:148-151 | the population variance of a band's window is not negative |
| IndicatorsBands.BollingerBands | backend/src/Kripteks.Infrastructure/Helpers/TechnicalIndicators.cs:125-158 | three lines of one entry per price, the middle line being the SMA |
| IndicatorsBands.CalculateBollingerBands | backend/src/Kripteks.Infrastructure/Helpers/TechnicalIndicators.cs:125-158 | the loop computes the bands: null where the SMA is, else the SMA and the SMA plus and minus the multiplier times the standard deviation of the window |
| IndicatorsBands.BandsSymmetric | backend/src/Kripteks.Infrastructure/Helpers/TechnicalIndicators.cs:144-154 | the outer bands are symmetric around the middle one and defined exactly where it is |
| IndicatorsBands.BandsOrdered | backend/src/Kripteks.Infrastructure/Helpers/TechnicalIndicators.cs:151-154 | with a non-negative multiplier the lower band is at most the middle, and the middle at most the upper |
| IndicatorsBands.ConstantWindowVariance | backend/src/Kripteks.Infrastructure/Helpers/TechnicalIndicators.cs:148-151 | a constant window has zero variance |
| IndicatorsBands.BandwidthOf | backend/src/Kripteks.Infrastructure/Helpers/TechnicalIndicators.cs:315-335 | one bandwidth entry per band entry |
| IndicatorsBands.Bandwidth | backend/src/Kripteks.Infrastructure/Helpers/TechnicalIndicators.cs:315-335 | one bandwidth entry per price |
| IndicatorsBands.CalculateBollingerBandwidth | backend/src/Kripteks.Infrastructure/Helpers/TechnicalIndicators.cs:315-335 | the loop computes the bandwidth: null where a band is missing or the middle is zero, else the band spread over the middle in percent |
| IndicatorsBands.BandwidthNonNegative | backend/src/Kripteks.Infrastructure/Helpers/TechnicalIndicators.cs:329-330 | with a positive middle band the bandwidth is never negative |
| IndicatorsBands.TrueRanges | backend/src/Kripteks.Infrastructure/Helpers/TechnicalIndicators.cs:468-483 | one true range per candle |
| IndicatorsBands.Atr | backend/src/Kripteks.Infrastructure/Helpers/TechnicalIndicators.cs:461-504 | empty for fewer than two candles, else one entry per candle |
| IndicatorsBands.TrueRangeList | backend/src/Kripteks.Infrastructure/Helpers/TechnicalIndicators.cs:468-483 | the first loop computes the true range of every candle: the first candle's own range, then the largest of the range and the two gaps to the previous close |
| IndicatorsBands.CalculateAtr | backend/src/Kripteks.Infrastructure/Helpers/TechnicalIndicators.cs:461-504 | the ATR is the SMA of the true ranges, empty for fewer than two candles |
| IndicatorsBands.TrueRangeBounds | backend/src/Kripteks.Infrastructure/Helpers/TechnicalIndicators.cs:477-481 | past the first candle the true range is never negative and never below the candle's own range |
| IndicatorsBands.AtrNonNegative | backend/src/Kripteks.Infrastructure/Helpers/TechnicalIndicators.cs:461-504 | when the first candle's high is not below its low every ATR value is not negative |
| IndicatorsBands.PlusDm | backend/src/Kripteks.Infrastructure/Helpers/TechnicalIndicators.cs:533-536 | +DM is the rise of the high when it exceeds the fall of the low and is positive, and never negative |
| IndicatorsBands.MinusDm | backend/src/Kripteks.Infrastructure/Helpers/TechnicalIndicators.cs:533-537 | -DM is the fall of the low when it exceeds the rise of the high and is positive, and never negative |
| IndicatorsBands.DirectionalMovesExclusive | backend/src/Kripteks.Infrastructure/Helpers/TechnicalIndicators.cs:536-537 | at most one of +DM and -DM is non-zero on any candle |
| IndicatorsBands.PlusDms | backend/src/Kripteks.Infrastructure/Helpers/TechnicalIndicators.cs:531-543 | one +DM per candle after the first |
| IndicatorsBands.MinusDms | backend/src/Kripteks.Infrastructure/Helpers/TechnicalIndicators.cs:531-543 | one -DM per candle after the first |
| IndicatorsBands.MoveTrueRanges | backend/src/Kripteks.Infrastructure/Helpers/TechnicalIndicators.cs:531-543 | one true range per candle after the first |
| IndicatorsBands.SmoothedNonNegative | backend/src/Kripteks.Infrastructure/Helpers/TechnicalIndicators.cs:551-568 | Wilder smoothing of non-negative values stays non-negative |
| IndicatorsBands.DxRange | backend/src/Kripteks.Infrastructure/Helpers/TechnicalIndicators.cs:576-577 | the DX of two non-negative DIs lies in [0, 100] |
| IndicatorsBands.DiNonNegative | backend/src/Kripteks.Infrastructure/Helpers/TechnicalIndicators.cs:570-571 | a DI of a non-negative movement is not negative |
| IndicatorsBands.DxWindowOf | backend/src/Kripteks.Infrastructure/Helpers/TechnicalIndicators.cs:583-583 | the ADX averages the last period DX values |
| IndicatorsBands.DxWindow | backend/src/Kripteks.Infrastructure/Helpers/TechnicalIndicators.cs:583-583 | the ADX window of the candles holds period DX values |
| IndicatorsBands.CalculateAdxSpec | backend/src/Kripteks.Infrastructure/Helpers/TechnicalIndicators.cs:507-598 | three lines of one entry per candle |
| IndicatorsBands.DirectionalMoves | backend/src/Kripteks.Infrastructure/Helpers/TechnicalIndicators.cs:526-543 | the first loop computes +DM, -DM and the true range of every move |
| IndicatorsBands.DxTailIsWindow | backend/src/Kripteks.Infrastructure/Helpers/TechnicalIndicators.cs:578-583 | the last period DX values computed are the ADX window |
| IndicatorsBands.SmoothedPrefixStep | backend/src/Kripteks.Infrastructure/Helpers/TechnicalIndicators.cs:557-590 | one iteration appends its two DIs and its ADX entry and keeps the lists in step with their definitions |
| IndicatorsBands.SmoothMoves | backend/src/Kripteks.Infrastructure/Helpers/TechnicalIndicators.cs:545-590 | after a leading null, iteration t of the smoothing loop yields the t-th DIs and ADX entry |
| IndicatorsBands.PadFront | backend/src/Kripteks.Infrastructure/Helpers/TechnicalIndicators.cs:593-595 | inserting nulls in front until the list has n entries |
| IndicatorsBands.NullLines | backend/src/Kripteks.Infrastructure/Helpers/TechnicalIndicators.cs:514-524 | the short-series branch gives one null per candle in each line |
| IndicatorsBands.CalculateAdx | backend/src/Kripteks.Infrastructure/Helpers/TechnicalIndicators.cs:507-598 | the method computes the three ADX lines of their definition |
| IndicatorsBands.AdxLinePadded | backend/src/Kripteks.Infrastructure/Helpers/TechnicalIndicators.cs:592-595 | the padded ADX list is the ADX line |
| IndicatorsBands.DiLinePadded | backend/src/Kripteks.Infrastructure/Helpers/TechnicalIndicators.cs:592-595 | the padded DI lists are the DI lines |
| IndicatorsBands.DiValuesNonNegative | backend/src/Kripteks.Infrastructure/Helpers/TechnicalIndicators.cs:570-574 | every +DI and -DI value is not negative |
| IndicatorsBands.AdxAtRange | backend/src/Kripteks.Infrastructure/Helpers/TechnicalIndicators.cs:576-585 | the ADX of one iteration lies in [0, 100] |
| IndicatorsBands.AdxRange | backend/src/Kripteks.Infrastructure/Helpers/TechnicalIndicators.cs:507-598 | every defined ADX value lies in [0, 100] |
| IndicatorsBands.DiDefinedIff | backend/src/Kripteks.Infrastructure/Helpers/TechnicalIndicators.cs:507-598 | the DI lines are null for the first period candles and defined after, given more than period candles |
| IndicatorsBands.AdxDefinedIff | backend/src/Kripteks.Infrastructure/Helpers/TechnicalIndicators.cs:507-598 | the ADX line is defined from index 2 * period - 1 on, given more than period candles |
| IndicatorsLevels.Obv | backend/src/Kripteks.Infrastructure/Helpers/TechnicalIndicators.cs:288-312 | one OBV value per candle, none for no candles |
| IndicatorsLevels.CalculateObv | backend/src/Kripteks.Infrastructure/Helpers/TechnicalIndicators.cs:288-312 | the loop computes OBV: 0 first, then adding the volume on a higher close, subtracting it on a lower one and keeping it on an equal one |
| IndicatorsLevels.ObvBoundedByVolume | backend/src/Kripteks.Infrastructure/Helpers/TechnicalIndicators.cs:293-309 | with non-negative volumes OBV never moves further from 0 than the volume traded so far |
| IndicatorsLevels.ObvOfMonotoneCloses | backend/src/Kripteks.Infrastructure/Helpers/TechnicalIndicators.cs:296-309 | on strictly rising closes OBV is the cumulative volume, on strictly falling closes its negation |
| IndicatorsLevels.ObvSma | backend/src/Kripteks.Infrastructure/Helpers/TechnicalIndicators.cs:338-342 | one OBV average per candle |
| IndicatorsLevels.CalculateObvSma | backend/src/Kripteks.Infrastructure/Helpers/TechnicalIndicators.cs:338-342 | the OBV average is the SMA of the OBV series |
| IndicatorsLevels.ObvSmaBounds | backend/src/Kripteks.Infrastructure/Helpers/TechnicalIndicators.cs:338-342 | with non-negative volumes every OBV average lies within the total volume of the series, either way |
| IndicatorsLevels.RecentSwingExtremes | backend/src/Kripteks.Infrastructure/Helpers/TechnicalIndicators.cs:73-82 | the swing high is a high of the window above every other high, the swing low a low below every other low |
| IndicatorsLevels.RecentSwingOrdered | backend/src/Kripteks.Infrastructure/Helpers/TechnicalIndicators.cs:73-82 | when every candle's low is at most its high, the swing low is at most the swing high |
| IndicatorsLevels.SupportLevelIsLowestLow | backend/src/Kripteks.Infrastructure/Helpers/TechnicalIndicators.cs:428-434 | the support level exists exactly when there are enough candles, and is then the lowest low of the window |
| IndicatorsLevels.MinBelowIff | backend/src/Kripteks.Infrastructure/Helpers/TechnicalIndicators.cs:450-457 | one minimum is below another exactly when some element of the first is below every element of the second |
| IndicatorsLevels.BullishDivergenceMeaning | backend/src/Kripteks.Infrastructure/Helpers/TechnicalIndicators.cs:437-458 | a bullish divergence means some later low is below every earlier low and some earlier RSI is below every later RSI |
| IndicatorsRsi.Gains | backend/src/Kripteks.Infrastructure/Helpers/TechnicalIndicators.cs:97-102 | one gain per price move, never negative |
| IndicatorsRsi.Losses | backend/src/Kripteks.Infrastructure/Helpers/TechnicalIndicators.cs:97-102 | one loss per price move, never negative |
| IndicatorsRsi.GainOrLoss | backend/src/Kripteks.Infrastructure/Helpers/TechnicalIndicators.cs:99-101 | a move's gain minus its loss is the move, and one of the two is zero |
| IndicatorsRsi.WilderAverageBounds | backend/src/Kripteks.Infrastructure/Helpers/TechnicalIndicators.cs:104-115 | values within a range keep the seed and the smoothed averages within it |
| IndicatorsRsi.WilderStepBounds | backend/src/Kripteks.Infrastructure/Helpers/TechnicalIndicators.cs:114-115 | one Wilder update of values within a range stays within it |
| IndicatorsRsi.WilderAverageNonNegative | backend/src/Kripteks.Infrastructure/Helpers/TechnicalIndicators.cs:104-115 | the smoothed average of non-negative values is not negative |
| IndicatorsRsi.RsiFromAverages | backend/src/Kripteks.Infrastructure/Helpers/TechnicalIndicators.cs:109-110 | an RSI lies in [0, 100); without losses it is 100 - 100/101, with losses and no gains it is 0 |
| IndicatorsRsi.PriceMoves | backend/src/Kripteks.Infrastructure/Helpers/TechnicalIndicators.cs:94-102 | the first loop computes the gain and the loss of every move |
| IndicatorsRsi.CalculateRsi | backend/src/Kripteks.Infrastructure/Helpers/TechnicalIndicators.cs:85-122 | the method computes the RSI list of its definition |
| IndicatorsRsi.RsiValues | backend/src/Kripteks.Infrastructure/Helpers/TechnicalIndicators.cs:104-119 | the smoothing loop yields the RSI after the seed averages and after each later move, the update starting at move period + 1 |
| IndicatorsRsi.RsiValueNext | backend/src/Kripteks.Infrastructure/Helpers/TechnicalIndicators.cs:112-118 | one Wilder update of both averages gives the next RSI value |
| IndicatorsRsi.RsiFromEntries | backend/src/Kripteks.Infrastructure/Helpers/TechnicalIndicators.cs:107-119 | the warm-up nulls followed by the RSI values make up the RSI list |
| IndicatorsRsi.RsiLength | backend/src/Kripteks.Infrastructure/Helpers/TechnicalIndicators.cs:85-122 | one entry per price, except one entry more for exactly period + 1 prices |
| IndicatorsRsi.RsiDefinedIff | backend/src/Kripteks.Infrastructure/Helpers/TechnicalIndicators.cs:85-122 | exactly the first period + 1 entries are null, all of them for too few prices |
| IndicatorsRsi.RsiEntry | backend/src/Kripteks.Infrastructure/Helpers/TechnicalIndicators.cs:107-119 | past index period + 1, entry i is the RSI after i - period - 1 updates |
| IndicatorsRsi.RsiRange | backend/src/Kripteks.Infrastructure/Helpers/TechnicalIndicators.cs:85-122 | every RSI value lies in [0, 100) |
| IndicatorsRsi.RisingSeriesLosses | backend/src/Kripteks.Infrastructure/Helpers/TechnicalIndicators.cs:101-101 | a series that never falls has no losses |
| IndicatorsRsi.RsiValueWithoutLosses | backend/src/Kripteks.Infrastructure/Helpers/TechnicalIndicators.cs:109-118 | without losses every RSI value is 100 - 100/101 |
| IndicatorsRsi.RsiOfRisingSeries | backend/src/Kripteks.Infrastructure/Helpers/TechnicalIndicators.cs:85-122 | on a series that never falls every RSI value is 100 - 100/101 |
| IndicatorsRsi.StochK | backend/src/Kripteks.Infrastructure/Helpers/TechnicalIndicators.cs:352-384 | one raw %K entry per RSI entry |
| IndicatorsRsi.Realign | backend/src/Kripteks.Infrastructure/Helpers/TechnicalIndicators.cs:390-404 | one aligned entry per mark |
| IndicatorsRsi.StochasticRsi | backend/src/Kripteks.Infrastructure/Helpers/TechnicalIndicators.cs:345-425 | %K and %D have one entry per RSI entry |
| IndicatorsRsi.AlignSmoothed | backend/src/Kripteks.Infrastructure/Helpers/TechnicalIndicators.cs:390-404 | the alignment loop gives the k-th non-null mark the k-th smoothed value, null past the end |
| IndicatorsRsi.RawStochK | backend/src/Kripteks.Infrastructure/Helpers/TechnicalIndicators.cs:352-384 | the first loop computes the raw stochastic of every RSI entry: null without a full window, 50 on a flat one, else the position of the current RSI between the window's extremes in percent |
| IndicatorsRsi.CalculateStochasticRsi | backend/src/Kripteks.Infrastructure/Helpers/TechnicalIndicators.cs:345-425 | the method computes %K and %D of their definition |
| IndicatorsRsi.StochScaleRange | backend/src/Kripteks.Infrastructure/Helpers/TechnicalIndicators.cs:381-381 | a value between the window's extremes maps into [0, 100] |
| IndicatorsRsi.StochWindowHasCurrent | backend/src/Kripteks.Infrastructure/Helpers/TechnicalIndicators.cs:362-373 | the current RSI lies between the extremes of its own window |
| IndicatorsRsi.StochKRange | backend/src/Kripteks.Infrastructure/Helpers/TechnicalIndicators.cs:352-384 | every raw %K value lies in [0, 100] |
| IndicatorsRsi.StochKExtremes | backend/src/Kripteks.Infrastructure/Helpers/TechnicalIndicators.cs:375-383 | %K is 0 at the lowest RSI of a non-flat window and 100 at the highest |
| IndicatorsRsi.RealignSmaBounds | backend/src/Kripteks.Infrastructure/Helpers/TechnicalIndicators.cs:386-404 | values within a range stay within it through smoothing and realignment |
| IndicatorsRsi.StochasticRsiRange | backend/src/Kripteks.Infrastructure/Helpers/TechnicalIndicators.cs:345-425 | smoothed %K and %D both stay within [0, 100] |
| IndicatorsTrend.MacdLine | backend/src/Kripteks.Infrastructure/Helpers/TechnicalIndicators.cs:232-245 | one MACD entry per price |
| IndicatorsTrend.Histogram | backend/src/Kripteks.Infrastructure/Helpers/TechnicalIndicators.cs:255-282 | one histogram entry per MACD entry |
| IndicatorsTrend.ComputeMacdLine | backend/src/Kripteks.Infrastructure/Helpers/TechnicalIndicators.cs:226-245 | the MACD pass computes the line and collects its non-null values in order |
| IndicatorsTrend.AlignSignal | backend/src/Kripteks.Infrastructure/Helpers/TechnicalIndicators.cs:254-282 | the re-alignment pass gives the k-th non-null MACD entry the k-th signal value, and the histogram is MACD minus signal where the signal is defined |
| IndicatorsTrend.CalculateMacd | backend/src/Kripteks.Infrastructure/Helpers/TechnicalIndicators.cs:161-285 | the method computes the three MACD lines of their definition, or throws as it does |
| IndicatorsTrend.MacdLineDefinedIff | backend/src/Kripteks.Infrastructure/Helpers/TechnicalIndicators.cs:232-245 | the MACD line is defined exactly from index max(fast, slow) - 1 on, as fast EMA minus slow EMA |
| IndicatorsTrend.MacdFailsIff | backend/src/Kripteks.Infrastructure/Helpers/TechnicalIndicators.cs:194-194 | the method throws exactly when there are fewer prices than the longer EMA period |
| IndicatorsTrend.MacdShape | backend/src/Kripteks.Infrastructure/Helpers/TechnicalIndicators.cs:161-285 | the three lines have one entry per price, and the histogram is MACD minus signal |
| IndicatorsTrend.SignalDefinedIff | backend/src/Kripteks.Infrastructure/Helpers/TechnicalIndicators.cs:247-282 | the signal is defined from index max(fast, slow) + signal - 2 on |
| IndicatorsTrend.NonesThenSomes | backend/src/Kripteks.Infrastructure/Helpers/TechnicalIndicators.cs:254-282 | with nulls before a start and values from it, a prefix holds as many values as indices past the start |
| IndicatorsTrend.DetectEmaCross | backend/src/Kripteks.Infrastructure/Helpers/TechnicalIndicators.cs:601-622 | never both a golden and a death cross, and the last fast and slow EMA values are reported |
| IndicatorsTrend.GoldenCrossMeaning | backend/src/Kripteks.Infrastructure/Helpers/TechnicalIndicators.cs:601-622 | a golden cross is the fast EMA moving from below the slow one at the previous price to above it at the last, a death cross the reverse |
| Intervals.Minutes | backend/src/Kripteks.Infrastructure/Services/BacktestService.cs:258-277 | every interval has a positive length in minutes |
| Intervals.CodeInjective | backend/src/Kripteks.Infrastructure/Services/BacktestService.cs:79-92 | no two intervals share a code, so reading a code back is unambiguous |
| Listing.SortDescStable | backend/src/Kripteks.Infrastructure/Services/ScannerService.cs:179 | sorting by descending key is stable: the elements picked out by any test that sees only one key come out in the order they went in, so results with equal scores keep their scan order |
| Listing.SortAscStable | backend/src/Kripteks.Infrastructure/Services/PortfolioService.cs:248 | sorting by ascending key is stable: the elements of any one key come out in the order they went in |
| MonteCarlo.SettingsOf | backend/src/Kripteks.Infrastructure/Services/MonteCarloSimulator.cs:13-16 | the request's values; without a request 1000 runs of as many trades as the backtest made but at least 100, from 10000, ruined at a 50% drawdown |
| MonteCarlo.PnlsOf | backend/src/Kripteks.Infrastructure/Services/MonteCarloSimulator.cs:19-19 | the profits of the backtest's trades, one per trade, in order |
| MonteCarlo.Drawdown | backend/src/Kripteks.Infrastructure/Services/MonteCarloSimulator.cs:48-48 | the fall from the peak is not negative while the balance is at or below the peak |
| MonteCarlo.DrawdownOfFall | backend/src/Kripteks.Infrastructure/Services/MonteCarloSimulator.cs:48-48 | below a positive peak the drawdown is the fall over the peak, at most 1 while the balance is not negative |
| MonteCarlo.WalkAfter | backend/src/Kripteks.Infrastructure/Services/MonteCarloSimulator.cs:39-57 | a path stops only by ruin, the balance never exceeds the peak, the peak starts at the initial balance and the largest drawdown is not negative |
| MonteCarlo.WalkDrawdowns | backend/src/Kripteks.Infrastructure/Services/MonteCarloSimulator.cs:46-56 | the largest drawdown is at least the current one; a path stops only on a drawdown at the threshold and a running path is below it |
| MonteCarlo.RuinIsFinal | backend/src/Kripteks.Infrastructure/Services/MonteCarloSimulator.cs:52-56 | once a path is ruined further draws change nothing |
| MonteCarlo.PeakAndDrawdownGrow | backend/src/Kripteks.Infrastructure/Services/MonteCarloSimulator.cs:47-49 | the peak and the largest drawdown never go down |
| MonteCarlo.StopPoint | backend/src/Kripteks.Infrastructure/Services/MonteCarloSimulator.cs:52-56 | a path that stopped early is, from then on, what it was at its last draw |
| MonteCarlo.Balances | backend/src/Kripteks.Infrastructure/Services/MonteCarloSimulator.cs:37-44 | the initial balance and one balance per draw |
| MonteCarlo.CurveOf | backend/src/Kripteks.Infrastructure/Services/MonteCarloSimulator.cs:36-44 | a curve has tradesPerSim + 1 slots |
| MonteCarlo.CurvePoints | backend/src/Kripteks.Infrastructure/Services/MonteCarloSimulator.cs:36-57 | the curve starts at the initial balance, follows the path up to where it stopped, ends that part at the final balance and is zero after |
| MonteCarlo.DrawStep | backend/src/Kripteks.Infrastructure/Services/MonteCarloSimulator.cs:42-56 | one draw adds the profit, raises the peak and tracks the largest drawdown as the path's definition says |
| MonteCarlo.RunPath | backend/src/Kripteks.Infrastructure/Services/MonteCarloSimulator.cs:33-57 | the inner loop yields the path's curve, final balance, largest drawdown and ruin flag |
| MonteCarlo.Finals | backend/src/Kripteks.Infrastructure/Services/MonteCarloSimulator.cs:60-60 | one final balance per simulation |
| MonteCarlo.MaxDrawdowns | backend/src/Kripteks.Infrastructure/Services/MonteCarloSimulator.cs:61-61 | one largest drawdown per simulation |
| MonteCarlo.MaxDrawdownsNonNegative | backend/src/Kripteks.Infrastructure/Services/MonteCarloSimulator.cs:61-61 | every recorded drawdown is not negative |
| MonteCarlo.Curves | backend/src/Kripteks.Infrastructure/Services/MonteCarloSimulator.cs:59-59 | one curve per simulation |
| MonteCarlo.Ruins | backend/src/Kripteks.Infrastructure/Services/MonteCarloSimulator.cs:54-54 | at most one ruin per simulation |
| MonteCarlo.Percent | backend/src/Kripteks.Infrastructure/Services/MonteCarloSimulator.cs:86-87 | a count out of the total is between 0 and 100 percent, 0 for none and 100 for all |
| MonteCarlo.Ceiling | backend/src/Kripteks.Infrastructure/Services/MonteCarloSimulator.cs:105-105 | the ceiling is the least whole number at or above its argument |
| MonteCarlo.CeilingMonotone | backend/src/Kripteks.Infrastructure/Services/MonteCarloSimulator.cs:105-105 | the ceiling never goes down |
| MonteCarlo.PercentileIndex | backend/src/Kripteks.Infrastructure/Services/MonteCarloSimulator.cs:103-107 | the index lies in the list when it is not empty, and is 0 otherwise |
| MonteCarlo.PercentileIndexIsNearestRank | backend/src/Kripteks.Infrastructure/Services/MonteCarloSimulator.cs:103-107 | for a percentile from 1 to 100 the index is the nearest rank: at least that share of the elements lie at or before it, and fewer before it |
| MonteCarlo.PercentileIndexMonotone | backend/src/Kripteks.Infrastructure/Services/MonteCarloSimulator.cs:105-106 | a higher percentile never reads an earlier index |
| MonteCarlo.PercentileMonotone | backend/src/Kripteks.Infrastructure/Services/MonteCarloSimulator.cs:103-107 | on an ascending list a higher percentile is never a smaller value, and each lies between the minimum and the maximum |
| MonteCarlo.RoundCurve | backend/src/Kripteks.Infrastructure/Services/MonteCarloSimulator.cs:95-95 | a curve rounded to cents keeps its length |
| MonteCarlo.SampleCurves | backend/src/Kripteks.Infrastructure/Services/MonteCarloSimulator.cs:92-96 | the sample holds 20 curves, or all of them when there are fewer |
| MonteCarlo.SampledCurvesAreRounded | backend/src/Kripteks.Infrastructure/Services/MonteCarloSimulator.cs:92-96 | every sampled curve is the rounding of a simulated curve |
| MonteCarlo.CountInBucket | backend/src/Kripteks.Infrastructure/Services/MonteCarloSimulator.cs:120-120 | a bucket counts no more values than there are |
| MonteCarlo.Distribution | backend/src/Kripteks.Infrastructure/Services/MonteCarloSimulator.cs:109-129 | as many buckets as asked for, each with a percentage between 0 and 100 |
| MonteCarlo.HitsBelowLast | backend/src/Kripteks.Infrastructure/Services/MonteCarloSimulator.cs:116-120 | below the last bucket a value lies in one of the first m buckets exactly when it is below the m-th edge |
| MonteCarlo.ExactlyOneBucket | backend/src/Kripteks.Infrastructure/Services/MonteCarloSimulator.cs:116-120 | a value between the minimum and the maximum lies in exactly one bucket |
| MonteCarlo.TallyAll | backend/src/Kripteks.Infrastructure/Services/MonteCarloSimulator.cs:116-128 | counting bucket by bucket counts each value between the extremes once |
| MonteCarlo.DistributionCountsEveryValue | backend/src/Kripteks.Infrastructure/Services/MonteCarloSimulator.cs:109-129 | the bucket counts add up to the number of values |
| MonteCarlo.SummaryReturnsOrdered | backend/src/Kripteks.Infrastructure/Services/MonteCarloSimulator.cs:76-83 | worst case, the five percentiles and best case are in ascending order, with the average between the extremes |
| MonteCarlo.SummaryProbabilities | backend/src/Kripteks.Infrastructure/Services/MonteCarloSimulator.cs:86-87 | the probabilities are percentages; profit counts only final balances strictly above the initial one |
| MonteCarlo.SummaryDrawdowns | backend/src/Kripteks.Infrastructure/Services/MonteCarloSimulator.cs:88-89 | with no negative drawdown the average and the 95th percentile of the drawdowns are not negative |
| MonteCarlo.SummaryHistogramAndSample | backend/src/Kripteks.Infrastructure/Services/MonteCarloSimulator.cs:92-99 | ten buckets whose counts add up to the number of simulations, and at most twenty sampled curves |
| MonteCarlo.SummaryFacts | backend/src/Kripteks.Infrastructure/Services/MonteCarloSimulator.cs:64-100 | the summary facts together, for at most one ruin per run and no negative drawdown |
| MonteCarlo.CurveArraySize | backend/src/Kripteks.Infrastructure/Services/MonteCarloSimulator.cs:36-36 | the curve array of tradesPerSim + 1 slots in 32-bit arithmetic is empty for -1 trades and of negative size below that or at the largest int |
| MonteCarlo.SimulationFacts | backend/src/Kripteks.Infrastructure/Services/MonteCarloSimulator.cs:11-101 | a successful run is ruined at most once per simulation, so the ruin probability is a percentage, the drawdown figures are not negative and the histogram counts every simulation once |
| MonteCarlo.PlanSummaryFacts | backend/src/Kripteks.Infrastructure/Services/MonteCarloSimulator.cs:64-100 | the summary facts hold for the paths of any plan, whose drawdowns are never negative |
| MonteCarlo.RunPaths | backend/src/Kripteks.Infrastructure/Services/MonteCarloSimulator.cs:31-62 | the outer loop yields the curves, final balances, drawdowns in percent and ruins of every simulation |
| MonteCarlo.RunSimulation | backend/src/Kripteks.Infrastructure/Services/MonteCarloSimulator.cs:11-101 | without trades the answer is unsuccessful with "No trades to simulate"; with no simulation the percentile read throws, with a curve array of negative or zero size the allocation or the first write throws; otherwise the simulations are run and summarised |
| MonteCarlo.SummarisePaths | backend/src/Kripteks.Infrastructure/Services/MonteCarloSimulator.cs:25-100 | the loops over the paths followed by the statistics give the plan's summary |
| MonteCarlo.SimulationOfFacts | backend/src/Kripteks.Infrastructure/Services/MonteCarloSimulator.cs:11-101 | for any settings and draws within the trade list, a successful result has ruin and profit probabilities between 0 and 100, non-negative drawdown figures, a histogram counting every simulation once and the worst case at or below the median at or below the best case |
| Paging.PagedResult.TotalPages | backend/src/Kripteks.Core/DTOs/PagedResult.cs:13-13 | with a positive page size, the least number of pages that hold every result; none for a zero page size, whose double quotient has no defined cast |
| Paging.EmptyPage | backend/src/Kripteks.Core/DTOs/PagedResult.cs:6-14 | a new page has no items, no results and no more to come |
| Paging.HasMoreExactBeforeLastPage | backend/src/Kripteks.Core/DTOs/PagedResult.cs:12-13 | in exact arithmetic, with a positive page size, there are more results exactly when the page is before the last page |
| Paging.HasMoreBeforeLastPage | backend/src/Kripteks.Core/DTOs/PagedResult.cs:12-13 | while the product of page and page size fits in 32 bits, the wrapped test agrees with the exact one, so there are more results exactly when the page is before the last page |
| Paging.HasMoreOverflows | backend/src/Kripteks.Core/DTOs/PagedResult.cs:12-12 | page 21474837 of 100 items wraps the 32-bit product negative and reports more results in an empty list |
| Paging.ClampPage | backend/src/Kripteks.Core/DTOs/PagedResult.cs:24-28 | a stored page is at least 1, the value itself when it is |
| Paging.ClampPageSize | backend/src/Kripteks.Core/DTOs/PagedResult.cs:30-39 | a stored page size lies in [1, 100]: below 1 it is 20, above 100 it is 100 |
| Paging.ClampsIdempotent | backend/src/Kripteks.Core/DTOs/PagedResult.cs:24-39 | storing a stored value again keeps it |
| Paging.PaginationRequest.constructor | backend/src/Kripteks.Core/DTOs/PagedResult.cs:21-22 | a new request is page 1 of 20 |
| Paging.PaginationRequest.SetPage | backend/src/Kripteks.Core/DTOs/PagedResult.cs:24-28 | the page becomes the clamped value and the size is unchanged |
| Paging.PaginationRequest.SetPageSize | backend/src/Kripteks.Core/DTOs/PagedResult.cs:30-39 | the size becomes the clamped value and the page is unchanged |
| Paging.BindPagination | backend/src/Kripteks.Core/DTOs/PagedResult.cs:19-40 | whatever the client sends the bound request is valid, with the clamped values or the defaults |
| AiOrchestratorServices.Outcomes | backend/src/Kripteks.Infrastructure/Services/AiOrchestratorService.cs:20-35 | one outcome per provider, in the providers' order, holding that provider's answer to the text |
| AiOrchestratorServices.SuccessScores | backend/src/Kripteks.Infrastructure/Services/AiOrchestratorService.cs:37-37 | one score per successful answer |
| AiOrchestratorServices.FirstSuccess | backend/src/Kripteks.Infrastructure/Services/AiOrchestratorService.cs:73-73 | the first successful answer: it succeeded and none before it did |
| AiOrchestratorServices.Detail | backend/src/Kripteks.Infrastructure/Services/AiOrchestratorService.cs:46-53 | a provider's detail carries its name and the text; a successful provider's score and action, and score 0 with action ERROR for a failed one |
| AiOrchestratorServices.ConsensusAction | backend/src/Kripteks.Infrastructure/Services/AiOrchestratorService.cs:60-63 | as written the action is BUY exactly above 0.5 and SELL exactly below -0.3 |
| AiOrchestratorServices.PanicSellUnreachable | backend/src/Kripteks.Infrastructure/Services/AiOrchestratorService.cs:60-63 | no score ever gives PANIC SELL: every score below -0.7 is already a SELL |
| AiOrchestratorServices.ConsensusActionIntended | backend/src/Kripteks.Infrastructure/Services/AiOrchestratorService.cs:60-63 | with the panic test first: BUY above 0.5, PANIC SELL below -0.7, SELL from -0.7 up to -0.3, HOLD in between |
| AiOrchestratorServices.IntendedAgreesAbovePanic | backend/src/Kripteks.Infrastructure/Services/AiOrchestratorService.cs:60-63 | the written and the intended thresholds agree exactly on the scores not below -0.7 |
| AiOrchestratorServices.Consensus | backend/src/Kripteks.Infrastructure/Services/AiOrchestratorService.cs:37-43 | the consensus fails exactly when no provider succeeded, with an error that lists every provider's error joined by " \| " |
| AiOrchestratorServices.ConsensusDetails | backend/src/Kripteks.Infrastructure/Services/AiOrchestratorService.cs:45-53 | a reached consensus has one detail per provider, in order, failed providers scoring 0 with action ERROR and successful ones keeping their score |
| AiOrchestratorServices.ConsensusMean | backend/src/Kripteks.Infrastructure/Services/AiOrchestratorService.cs:55-76 | a reached consensus scores the mean of the successful scores, takes its action from that mean (never PANIC SELL), the summary of the first provider that answered, and the clock's time |
| AiOrchestratorServices.MeanScoreInRange | backend/src/Kripteks.Infrastructure/Services/AiOrchestratorService.cs:56-57 | when every successful score lies in [-1, 1] so does the consensus score |
| AiOrchestratorServices.ScoresInRange | backend/src/Kripteks.Infrastructure/Services/AiOrchestratorService.cs:37-37 | the successful scores inherit the bound of the answers |
| AiOrchestratorServices.AnalyzeText | backend/src/Kripteks.Infrastructure/Services/AiOrchestratorService.cs:18-77 | every provider is asked in turn and the outcome is the consensus of their answers; it fails exactly when no provider answered |
| AiOrchestratorServices.MarketSentiment | backend/src/Kripteks.Infrastructure/Services/AiOrchestratorService.cs:80-83 | the market sentiment is the consensus about the text "Piyasa analizi: " followed by the symbol; it is never PANIC SELL, and every detail's reasoning is that text |
| AiOrchestratorServices.NoneSucceeded | backend/src/Kripteks.Infrastructure/Services/AiOrchestratorService.cs:37-39 | the count of successes is zero exactly when no answer succeeded |
| AlertServices.ToDto | backend/src/Kripteks.Infrastructure/Services/AlertService.cs:77-89 | the answer carries the alarm's id, symbol, target and enabled flag, and its parameters only when asked for |
| AlertServices.ConditionStrict | backend/src/Kripteks.Infrastructure/Services/AlertService.cs:347-355 | only above and below can hold, both strictly, never both at once |
| AlertServices.ConditionMonotone | backend/src/Kripteks.Infrastructure/Services/AlertService.cs:347-355 | an above alarm that holds at a price holds at every higher one, a below alarm at every lower one |
| AlertServices.GetIntervalCode | backend/src/Kripteks.Infrastructure/Services/AlertService.cs:357-367 | the four known timeframes map to their own interval, every other one to one hour |
| AlertServices.TimeframeKey | backend/src/Kripteks.Infrastructure/Services/AlertService.cs:164-164 | an alarm without a timeframe is fetched under "1h", one with a timeframe under it |
| AlertServices.CheckTechnicalCondition | backend/src/Kripteks.Infrastructure/Services/AlertService.cs:262-305 | the technical check can throw only for a MACD alarm |
| AlertServices.TechnicalTriggers | backend/src/Kripteks.Infrastructure/Services/AlertService.cs:262-305 | a MACD alarm never fires, an unknown indicator never fires, and an EMA cross alarm fires exactly on the cross its condition names |
| AlertServices.CheckMarketMovementCondition | backend/src/Kripteks.Infrastructure/Services/AlertService.cs:307-345 | fewer than two candles or an unknown indicator never fire; the check throws only dividing by a zero open |
| AlertServices.VolumeSpikeIff | backend/src/Kripteks.Infrastructure/Services/AlertService.cs:312-327 | a volume spike alarm never throws and fires exactly when the last volume exceeds the average of the 20 before it by more than the target percent |
| AlertServices.PriceChangeIff | backend/src/Kripteks.Infrastructure/Services/AlertService.cs:329-342 | with a non-zero open a price change alarm fires exactly when the absolute move reaches the target percent, and it reports a rise exactly when the candle closed above its open (for a positive open) |
| AlertServices.Evaluate | backend/src/Kripteks.Infrastructure/Services/AlertService.cs:189-227 | a price alarm never throws and fires only with the price message, exactly when its condition holds at the price |
| AlertServices.Outcome | backend/src/Kripteks.Infrastructure/Services/AlertService.cs:179-245 | an alarm sends something only when it is enabled, its symbol's price was read, it is not cooling down, and its check succeeded with that message |
| AlertServices.Stamped | backend/src/Kripteks.Infrastructure/Services/AlertService.cs:236-245 | an alarm that fires records the run's time as its last trigger; otherwise its row is unchanged |
| AlertServices.NoRepeatWithinCooldown | backend/src/Kripteks.Infrastructure/Services/AlertService.cs:181-185 | an alarm that fired stays silent and unchanged in every later run before its cooldown is over, whatever the prices then |
| AlertServices.SilentAlarmsUnchanged | backend/src/Kripteks.Infrastructure/Services/AlertService.cs:139-185 | a disabled alarm, or one still cooling down, is left exactly as it was |
| AlertServices.AlertTable.constructor | backend/src/Kripteks.Infrastructure/Services/AlertService.cs:139-141 | the table holds the given alarms |
| AlertServices.Decision | backend/src/Kripteks.Infrastructure/Services/AlertService.cs:139-141 | only enabled alarms are decided on |
| AlertServices.FiredIn | backend/src/Kripteks.Infrastructure/Services/AlertService.cs:179-245 | a group sends at most one notification per alarm |
| AlertServices.FiredInFrame | backend/src/Kripteks.Infrastructure/Services/AlertService.cs:145-149 | what a symbol's group sends depends only on the alarms of that symbol |
| AlertServices.FiredInSound | backend/src/Kripteks.Infrastructure/Services/AlertService.cs:236-245 | every notification of a group comes from an alarm of that symbol that fired with that message, and goes to its owner |
| AlertServices.ProcessGroup | backend/src/Kripteks.Infrastructure/Services/AlertService.cs:179-245 | the loop over one symbol's alarms stamps exactly the ones that fire, leaves every other row as it was, and sends their notifications in order |
| AlertServices.RunGroups | backend/src/Kripteks.Infrastructure/Services/AlertService.cs:145-145 | the groups are distinct and cover the symbol of every enabled alarm |
| AlertServices.GroupsDoneStep | backend/src/Kripteks.Infrastructure/Services/AlertService.cs:147-246 | processing one more group moves it into the processed groups, and what it sends does not depend on the groups before it |
| AlertServices.GroupsDoneAll | backend/src/Kripteks.Infrastructure/Services/AlertService.cs:147-246 | once every group is processed every row is processed |
| AlertServices.ProcessNextGroup | backend/src/Kripteks.Infrastructure/Services/AlertService.cs:147-246 | one pass of the outer loop keeps the invariant that the groups so far are processed and sends what the group's alarms give |
| AlertServices.RunGroupsLoop | backend/src/Kripteks.Infrastructure/Services/AlertService.cs:147-246 | the outer loop processes every group once, every row ending processed, and sends the groups' notifications in order |
| AlertServices.ProcessAlerts | backend/src/Kripteks.Infrastructure/Services/AlertService.cs:137-249 | every row ends as its own processing gives (stamped exactly when it fires), the table keeps its size, and the notifications are those of the symbol groups in order |
| AlertServices.FindOwned | backend/src/Kripteks.Infrastructure/Services/AlertService.cs:96-99 | the first row with that id owned by that user, and none exactly when no such row exists |
| AlertServices.UpdateAlert | backend/src/Kripteks.Infrastructure/Services/AlertService.cs:93-122 | only the user's alarm with that id changes, and only its target, enabled flag, cooldown and update time; without one nothing changes and the answer is null; other users' rows are untouched |
| AlertServices.DeleteAlert | backend/src/Kripteks.Infrastructure/Services/AlertService.cs:124-135 | the answer is true exactly when the user owns an alarm with that id; only that row is removed, the others keeping their order; other users' alarms remain |
| AlertServices.CreateAlert | backend/src/Kripteks.Infrastructure/Services/AlertService.cs:58-91 | one new enabled alarm with the given fields, never triggered, is appended and answered with its parameters |
| AlertServices.AlertDtos | backend/src/Kripteks.Infrastructure/Services/AlertService.cs:42-55 | one answer per alarm, without parameters, in the same order |
| AlertServices.UserAlerts | backend/src/Kripteks.Infrastructure/Services/AlertService.cs:36-56 | one answer per alarm of the user, each from one of the user's alarms, newest first |
| AlertServices.UserAlertsOwn | backend/src/Kripteks.Infrastructure/Services/AlertService.cs:39-40 | every answer is an alarm of the user |
| AlertServices.UserAlertsNewestFirst | backend/src/Kripteks.Infrastructure/Services/AlertService.cs:41-41 | the answers are ordered by creation time, newest first, and there is one per alarm of the user |
| AnalyticsServices.ProfitAndLoss | backend/src/Kripteks.Infrastructure/Services/AnalyticsService.cs:30-31 | gains and losses are both non-negative and differ by the net result |
| AnalyticsServices.WinsAndLossesSum | backend/src/Kripteks.Infrastructure/Services/AnalyticsService.cs:28-31 | the bots with a zero result add nothing, so wins and losses make up the net result |
| AnalyticsServices.WinsAndRest | backend/src/Kripteks.Infrastructure/Services/AnalyticsService.cs:25-27 | the winning bots and the rest account for every bot |
| AnalyticsServices.ProfitFactor | backend/src/Kripteks.Infrastructure/Services/AnalyticsService.cs:32-32 | the factor is never negative, and equals the gains when there is no loss |
| AnalyticsServices.ProfitFactorRatio | backend/src/Kripteks.Infrastructure/Services/AnalyticsService.cs:32-32 | with some loss the factor is the gains per unit of loss, at least 1 exactly when the gains cover the losses |
| AnalyticsServices.WinRate | backend/src/Kripteks.Infrastructure/Services/AnalyticsService.cs:46-46 | the win rate is a percentage between 0 and 100, and 0 without trades |
| AnalyticsServices.WinRateShare | backend/src/Kripteks.Infrastructure/Services/AnalyticsService.cs:46-46 | the rate is the share of wins in hundredths: 100 when every trade won, 0 when none did |
| AnalyticsServices.Average | backend/src/Kripteks.Infrastructure/Services/AnalyticsService.cs:49-49 | the average is 0 without trades |
| AnalyticsServices.AverageTimesCount | backend/src/Kripteks.Infrastructure/Services/AnalyticsService.cs:49-49 | the average times the number of trades gives back the total |
| AnalyticsServices.PairResults | backend/src/Kripteks.Infrastructure/Services/AnalyticsService.cs:35-37 | one result per symbol group, with the group's total |
| AnalyticsServices.RankedFirstIsHighest | backend/src/Kripteks.Infrastructure/Services/AnalyticsService.cs:38-39 | the first of the ranked results is one of them and none is higher |
| AnalyticsServices.RankedKeys | backend/src/Kripteks.Infrastructure/Services/AnalyticsService.cs:35-39 | ranking the groups puts first a symbol with the highest total |
| AnalyticsServices.BestPairTraded | backend/src/Kripteks.Infrastructure/Services/AnalyticsService.cs:35-39 | the best pair of a non-empty list is a pair some bot traded |
| AnalyticsServices.BestPairHighest | backend/src/Kripteks.Infrastructure/Services/AnalyticsService.cs:35-39 | no pair's bots made more in total than the best pair's |
| AnalyticsServices.CalculateMaxDrawdown | backend/src/Kripteks.Infrastructure/Services/AnalyticsService.cs:110-128 | the loop's running equity, peak and drawdown give the largest fall of the equity |
| AnalyticsServices.PeakIsHighest | backend/src/Kripteks.Infrastructure/Services/AnalyticsService.cs:118-122 | the peak is the highest equity reached so far, starting from 0 |
| AnalyticsServices.PrefixEquities | backend/src/Kripteks.Infrastructure/Services/AnalyticsService.cs:118-120 | dropping the last result leaves the earlier equities as they were |
| AnalyticsServices.MaxDrawdownIsLargestFall | backend/src/Kripteks.Infrastructure/Services/AnalyticsService.cs:110-128 | the maximum drawdown is the largest fall of the equity from an earlier or equal point to a later one, and is never negative |
| AnalyticsServices.Pnls | backend/src/Kripteks.Infrastructure/Services/AnalyticsService.cs:51-51 | the results of the bots, in order |
| AnalyticsServices.Dashboard | backend/src/Kripteks.Infrastructure/Services/AnalyticsService.cs:25-52 | over the finished bots: every bot that did not win counts as losing, the net result is the gains less the losses, the rate is a percentage of the wins, the factor is not negative, the average is the net result per trade, the best pair is the highest group and the drawdown is the largest fall |
| AnalyticsServices.GetDashboardStats | backend/src/Kripteks.Infrastructure/Services/AnalyticsService.cs:17-53 | the default figures when no bot has finished, otherwise the figures above over the finished bots |
| AnalyticsServices.DayStart | backend/src/Kripteks.Infrastructure/Services/AnalyticsService.cs:57-57 | the start of the day a moment falls in |
| AnalyticsServices.CurveBots | backend/src/Kripteks.Infrastructure/Services/AnalyticsService.cs:58-61 | exactly the finished bots created in the window, oldest first |
| AnalyticsServices.RunningTotals | backend/src/Kripteks.Infrastructure/Services/AnalyticsService.cs:63-79 | after the starting point at 0, one point per bot holding the running total of the results so far and the bot's own result |
| AnalyticsServices.GetEquityCurve | backend/src/Kripteks.Infrastructure/Services/AnalyticsService.cs:55-81 | a starting point at 0 dated at the start of the window, then one point per finished bot of the window, oldest first, with the running total |
| AnalyticsServices.CurveEndsAtTotal | backend/src/Kripteks.Infrastructure/Services/AnalyticsService.cs:69-79 | the curve's bots add up to the net result of every finished bot in the window |
| AnalyticsServices.GroupPerformance | backend/src/Kripteks.Infrastructure/Services/AnalyticsService.cs:91-106 | a strategy's row carries its name and trade count, and a rate between 0 and 100 |
| AnalyticsServices.GroupPerformanceFacts | backend/src/Kripteks.Infrastructure/Services/AnalyticsService.cs:94-103 | a row's net result is its gains less its losses, and its profit factor is not negative |
| AnalyticsServices.GroupAverage | backend/src/Kripteks.Infrastructure/Services/AnalyticsService.cs:104-104 | a row's average trade times its trade count is its net result |
| AnalyticsServices.PerformanceOf | backend/src/Kripteks.Infrastructure/Services/AnalyticsService.cs:89-107 | one row per strategy name, in order |
| AnalyticsServices.PerformanceRow | backend/src/Kripteks.Infrastructure/Services/AnalyticsService.cs:90-106 | each row is computed over exactly the finished bots that ran its strategy |
| AnalyticsServices.GetStrategyPerformance | backend/src/Kripteks.Infrastructure/Services/AnalyticsService.cs:83-108 | one row per strategy of the finished bots, in the order the strategies first appear, each counting at least one bot |
| AnalyticsServices.RowsNotEmpty | backend/src/Kripteks.Infrastructure/Services/AnalyticsService.cs:90-91 | every row counts at least one bot |
| AnalyticsServices.GroupMember | backend/src/Kripteks.Infrastructure/Services/AnalyticsService.cs:90-91 | a bot belongs to its own strategy's group |
| AnalyticsServices.StrategyTotals | backend/src/Kripteks.Infrastructure/Services/AnalyticsService.cs:83-108 | every finished bot is counted in exactly one row, and its result in that row's total |
| AnalyticsServices.RowTotals | backend/src/Kripteks.Infrastructure/Services/AnalyticsService.cs:89-107 | the rows' trade counts and totals add up group by group |
| AuditLogServices.AllCategoriesComplete | backend/src/Kripteks.Core/Entities/AuditLog.cs:21-29 | the six categories are all listed, none twice |
| AuditLogServices.CategoryName | backend/src/Kripteks.Infrastructure/Services/AuditLogService.cs:138-138 | a category's name is never empty |
| AuditLogServices.CategoryNamesDistinct | backend/src/Kripteks.Infrastructure/Services/AuditLogService.cs:138-139 | distinct categories (and severities) have distinct names |
| AuditLogServices.InferCategory | backend/src/Kripteks.Infrastructure/Services/AuditLogService.cs:350-371 | the inferred category is sign-in when a sign-in keyword occurs, else bot when "Bot" occurs, else settings when a settings keyword occurs, else sign-in again for a user keyword, else system; never trade or wallet |
| AuditLogServices.InferCategoryIgnoresCase | backend/src/Kripteks.Infrastructure/Services/AuditLogService.cs:352-368 | the inferred category does not change when the action is written in capitals |
| AuditLogServices.StoredEmail | backend/src/Kripteks.Infrastructure/Services/AuditLogService.cs:309-318 | a given email is kept; a missing or empty one is looked up when there is a user id ("Unknown" when none is found); a missing one without a user id becomes "System" and an empty one stays empty |
| AuditLogServices.NewRow | backend/src/Kripteks.Infrastructure/Services/AuditLogService.cs:316-333 | the row carries the action, category, severity and the clock's time, the email chosen above, the serialized metadata exactly when there is metadata, and no address or agent without a request |
| AuditLogServices.AuditLogTable.constructor | backend/src/Kripteks.Infrastructure/Services/AuditLogService.cs:13-17 | the log starts empty |
| AuditLogServices.AuditLogTable.LogCore | backend/src/Kripteks.Infrastructure/Services/AuditLogService.cs:301-345 | one row as above is appended; a failed save is caught and appends nothing |
| AuditLogServices.AuditLogTable.LogWith | backend/src/Kripteks.Infrastructure/Services/AuditLogService.cs:34-53 | the looked-up email ("Unknown" without one) goes into the row appended as above |
| AuditLogServices.AuditLogTable.Log | backend/src/Kripteks.Infrastructure/Services/AuditLogService.cs:19-24 | the row has the inferred category and the Info severity |
| AuditLogServices.AuditLogTable.LogAnonymous | backend/src/Kripteks.Infrastructure/Services/AuditLogService.cs:26-31 | the row has no user, the email "Anonymous", the inferred category and the Info severity |
| AuditLogServices.AuditLogTable.LogTrade | backend/src/Kripteks.Infrastructure/Services/AuditLogService.cs:55-71 | a Trade row whose action names the trade and symbol and whose metadata holds the order |
| AuditLogServices.AuditLogTable.LogWalletChange | backend/src/Kripteks.Infrastructure/Services/AuditLogService.cs:73-88 | a Wallet row whose old and new values are the balances written with two decimals and whose metadata holds the change and description |
| AuditLogServices.ToDto | backend/src/Kripteks.Infrastructure/Services/AuditLogService.cs:131-147 | the answer carries the row's id, time and action, and the names of its category and severity |
| AuditLogServices.PipelineIsConjunction | backend/src/Kripteks.Infrastructure/Services/AuditLogService.cs:100-123 | applying the query's clauses one after another keeps exactly the rows that pass all of them |
| AuditLogServices.PipelineStep | backend/src/Kripteks.Infrastructure/Services/AuditLogService.cs:100-123 | a given clause narrows the rows by its own test; an absent one keeps all |
| AuditLogServices.FiltersConjunctive | backend/src/Kripteks.Infrastructure/Services/AuditLogService.cs:100-123 | the clauses together keep exactly the rows matching the request |
| AuditLogServices.Dtos | backend/src/Kripteks.Infrastructure/Services/AuditLogService.cs:131-147 | one answer per row, in order |
| AuditLogServices.QueryLogs | backend/src/Kripteks.Infrastructure/Services/AuditLogService.cs:91-163 | a failing query gives the empty default result; otherwise the answer repeats the requested page and page size |
| AuditLogServices.QueryLogsCount | backend/src/Kripteks.Infrastructure/Services/AuditLogService.cs:125-125 | the total is the number of matching rows, counted before paging |
| AuditLogServices.QueryLogsItems | backend/src/Kripteks.Infrastructure/Services/AuditLogService.cs:127-148 | a page holds at most a page size of matching rows, newest first, exactly the requested slice of the matching rows ordered by time |
| AuditLogServices.DtosOfPage | backend/src/Kripteks.Infrastructure/Services/AuditLogService.cs:127-148 | the answers of a page come from matching rows, newest first |
| AuditLogServices.UnfilteredQueryCountsAll | backend/src/Kripteks.Infrastructure/Services/AuditLogService.cs:100-125 | a request without any filter counts every row |
| AuditLogServices.StringProperty | backend/src/Kripteks.Infrastructure/Services/AuditLogService.cs:202-206 | a missing property reads as none and a string property as its text |
| AuditLogServices.DecimalProperty | backend/src/Kripteks.Infrastructure/Services/AuditLogService.cs:204-205 | a missing property reads as 0 and a number as its value |
| AuditLogServices.TradeEntryOf | backend/src/Kripteks.Infrastructure/Services/AuditLogService.cs:192-227 | a row without metadata is skipped; every entry's total is its price times its amount and its time the row's |
| AuditLogServices.TradeEntryFrom | backend/src/Kripteks.Infrastructure/Services/AuditLogService.cs:198-210 | an entry read from metadata totals price times amount and keeps the row's time |
| AuditLogServices.TradeEntries | backend/src/Kripteks.Infrastructure/Services/AuditLogService.cs:192-227 | at most one entry per trade row |
| AuditLogServices.BuySellSplit | backend/src/Kripteks.Infrastructure/Services/AuditLogService.cs:211-229 | every trade counts as a buy or a sell, never both, so the counts add to the number of trades and the volumes to the total traded |
| AuditLogServices.WindowLogs | backend/src/Kripteks.Infrastructure/Services/AuditLogService.cs:184-190 | exactly the rows of the category within the window, oldest first |
| AuditLogServices.TradeEntriesStep | backend/src/Kripteks.Infrastructure/Services/AuditLogService.cs:192-227 | one more trade row adds its entry when it gives one |
| AuditLogServices.TallyStep | backend/src/Kripteks.Infrastructure/Services/AuditLogService.cs:211-221 | one more trade adds one to its side's count and its total to its side's volume |
| AuditLogServices.TallyTrade | backend/src/Kripteks.Infrastructure/Services/AuditLogService.cs:192-227 | one pass of the trade loop keeps the counts and volumes those of the entries so far |
| AuditLogServices.TallyTrades | backend/src/Kripteks.Infrastructure/Services/AuditLogService.cs:192-229 | the trade loop lists exactly the entries of the trade rows, and counts and sums each side over them |
| AuditLogServices.WalletMetadataOf | backend/src/Kripteks.Infrastructure/Services/AuditLogService.cs:258-270 | a row without metadata changes by 0 with no description |
| AuditLogServices.WalletEntryOf | backend/src/Kripteks.Infrastructure/Services/AuditLogService.cs:246-273 | every wallet row gives an entry with the row's time and action |
| AuditLogServices.WalletEntries | backend/src/Kripteks.Infrastructure/Services/AuditLogService.cs:244-279 | one entry per wallet row, in order |
| AuditLogServices.Deposit | backend/src/Kripteks.Infrastructure/Services/AuditLogService.cs:275-276 | a deposit is never negative |
| AuditLogServices.Withdrawal | backend/src/Kripteks.Infrastructure/Services/AuditLogService.cs:277-278 | a withdrawal is never negative |
| AuditLogServices.NetWalletFlow | backend/src/Kripteks.Infrastructure/Services/AuditLogService.cs:275-278 | deposits and withdrawals are never negative and differ by the net change of the wallet over the entries |
| AuditLogServices.TallyWallet | backend/src/Kripteks.Infrastructure/Services/AuditLogService.cs:241-279 | the wallet loop lists one entry per row and totals the deposits and withdrawals over them |
| AuditLogServices.GenerateComplianceReport | backend/src/Kripteks.Infrastructure/Services/AuditLogService.cs:166-298 | the report holds the window's trades and wallet changes, oldest first; its counts, volumes and net profit are those of its trades, and its deposits and withdrawals those of its wallet changes |
| AuditLogServices.TradeRowReadBack | backend/src/Kripteks.Infrastructure/Services/AuditLogService.cs:55-71 | a trade logged by the trade logger is read back by the report as the same order, when the JSON reader reads back what the writer wrote |
| AuditLogServices.WalletRowReadBack | backend/src/Kripteks.Infrastructure/Services/AuditLogService.cs:73-88 | a wallet change logged by the wallet logger is read back by the report with the same change and description, likewise |
| BotServices.VisibleBots | backend/src/Kripteks.Infrastructure/Services/BotService.cs:22-24 | exactly the bots that are not archived, each one among the stored bots, newest first |
| BotServices.VisibleBotsMultiset | backend/src/Kripteks.Infrastructure/Services/BotService.cs:22-24 | the listed rows are a rearrangement of the non-archived bots |
| BotServices.NewestFront | backend/src/Kripteks.Infrastructure/Services/BotService.cs:44-46 | the front of a list sorted newest first is itself sorted, is drawn from the list, and every line cut off is no newer than every line kept |
| BotServices.RecentLogs | backend/src/Kripteks.Infrastructure/Services/BotService.cs:44-46 | at most 50 lines, all of them when there are fewer, newest first, drawn from the bot's own lines; every line left out is no newer than every line kept |
| BotServices.ListBots | backend/src/Kripteks.Infrastructure/Services/BotService.cs:20-58 | one entry per non-archived bot, newest bot first; each is the stored bot with its logs cut to the newest lines, at most 50 of them, newest first |
| BotServices.NewBot | backend/src/Kripteks.Infrastructure/Services/BotService.cs:142-169 | a new bot carries the request's symbol, strategy, amount and limits, waits for entry with no entry price and no PnL, is not archived, and has one info log |
| BotServices.CreateBot | backend/src/Kripteks.Infrastructure/Services/BotService.cs:106-181 | without a wallet the call fails and nothing changes; a market buy larger than the free balance fails and nothing changes; otherwise the bot is appended, and a market buy moves its amount from the free to the locked balance with an investment transaction while any other strategy leaves the wallet alone; the lock invariant is kept |
| BotServices.NewIdFoundAtEnd | backend/src/Kripteks.Infrastructure/Services/BotService.cs:171-180 | the created bot is found by its id at the end of the table |
| BotServices.StoppedRow | backend/src/Kripteks.Infrastructure/Services/BotService.cs:191-199 | a stopped bot has status Stopped and one warning log more, and keeps its id, amount and PnL |
| BotServices.Refund | backend/src/Kripteks.Infrastructure/Services/BotService.cs:211-232 | the refund takes the amount out of the locked balance and pays back amount plus PnL with a return transaction, so the wallet total grows by the PnL |
| BotServices.RefundRules | backend/src/Kripteks.Infrastructure/Services/BotService.cs:202-209 | as written only a waiting market-buy bot is refunded; as intended every bot holding a lock is |
| BotServices.StopBot | backend/src/Kripteks.Infrastructure/Services/BotService.cs:183-277 | an unknown or inactive bot is left alone; an active one is stopped with a warning log and refunded only when it was a waiting market buy and a wallet exists, the wallet stamp moving to the stop time (without a wallet the transactions stay as they were); a running bot with an amount leaves the lock invariant broken |
| BotServices.StopBotCorrected | backend/src/Kripteks.Infrastructure/Services/BotService.cs:183-277 | as above, but every bot holding a lock is refunded, so the lock invariant is kept |
| BotServices.StopAllReturns | backend/src/Kripteks.Infrastructure/Services/BotService.cs:225-232 | the returns stopping a list of bots writes are one BotReturn per refunded bot, stamped with the stop time |
| BotServices.StopAllReturnsTotal | backend/src/Kripteks.Infrastructure/Services/BotService.cs:220-232 | those returns add up to the refunded amounts plus their PnL, which is what the free balance gains |
| BotServices.RefundBooks | backend/src/Kripteks.Infrastructure/Services/BotService.cs:211-232 | a refunded bot moves its amount out of the locked balance, pays amount plus PnL, stamps the wallet and adds its return; any other bot leaves wallet and transactions alone |
| BotServices.StopAllBooksTotals | backend/src/Kripteks.Infrastructure/Services/BotService.cs:279-288 | stopping the bots one after another releases the refunded amounts from the lock, pays them back with their PnL and appends their returns in table order; the wallet stamp moves only if some bot was refunded |
| BotServices.LockedDemandSplit | backend/src/Kripteks.Infrastructure/Services/BotService.cs:202-209 | the locks the bots account for split into what a manual stop releases (waiting market buys) and what it strands (running bots) |
| BotServices.InactiveNoLocks | backend/src/Kripteks.Infrastructure/Services/BotService.cs:189 | once no bot is running or waiting, the bots account for no lock at all |
| BotServices.StopRowAt | backend/src/Kripteks.Infrastructure/Services/BotService.cs:285-288 | one step of the stop-all loop: the row is stopped if active and the wallet and transactions move as one refund would |
| BotServices.StopAllBots | backend/src/Kripteks.Infrastructure/Services/BotService.cs:279-297 | every active row becomes its stopped row with the manual-stop warning log and every other row is unchanged; the system log is untouched; the wallet loses the refunded amounts from the lock, gains them back with their PnL and the transactions grow by their returns (unchanged without a wallet); from a consistent wallet the locked balance ends at the running bots' amounts while the bots account for none; the count is the number of active bots |
| BotServices.ArchivedRow | backend/src/Kripteks.Infrastructure/Services/BotService.cs:308-317 | a stopped or completed bot becomes archived; no other field changes |
| BotServices.ArchiveIdempotent | backend/src/Kripteks.Infrastructure/Services/BotService.cs:306-319 | archiving twice is archiving once |
| BotServices.ArchiveHistory | backend/src/Kripteks.Infrastructure/Services/BotService.cs:306-319 | every finished bot is archived, nothing else changes, and the lock invariant is kept |
| ChatDevServices.ParseAction | backend/src/Kripteks.Infrastructure/Services/ChatDevService.cs:80-90 | the action is one of BUY, SELL, PANIC, HOLD; no text is HOLD; a text containing BUY in upper case is BUY, else one containing SELL is SELL, else one containing PANIC is PANIC, else HOLD |
| ChatDevServices.PanicSellIsSell | backend/src/Kripteks.Infrastructure/Services/ChatDevService.cs:85-87 | a text that speaks of PANIC SELL never gives PANIC: SELL is checked first and is contained in it |
| ChatDevServices.ActionIgnoresCase | backend/src/Kripteks.Infrastructure/Services/ChatDevService.cs:84-84 | the action does not depend on the case of the text |
| ChatDevServices.ParseSentiment | backend/src/Kripteks.Infrastructure/Services/ChatDevService.cs:92-101 | the sentiment is 0.8, -0.8 or 0; no text is 0; a positive or bullish word gives 0.8, else a negative or bearish word -0.8, else 0 |
| ChatDevServices.PositiveWins | backend/src/Kripteks.Infrastructure/Services/ChatDevService.cs:97-98 | a positive word wins over a negative one in the same text |
| ChatDevServices.SentimentIgnoresCase | backend/src/Kripteks.Infrastructure/Services/ChatDevService.cs:96-96 | the sentiment does not depend on the case of the text |
| ChatDevServices.FailureMessage | backend/src/Kripteks.Infrastructure/Services/ChatDevService.cs:46-61 | a reply turns into an exception exactly when it is not a successful reply with status "success" |
| ChatDevServices.RunWorkflow | backend/src/Kripteks.Infrastructure/Services/ChatDevService.cs:24-72 | disabled, the answer is HOLD with the fixed summary and the bridge is not asked; a successful reply is timed, with its text (or a fixed summary) and the parsed action; any failure gives HOLD with the summary "AI Bridge Error: " and the exception's message |
| ChatDevServices.SuccessfulReply | backend/src/Kripteks.Infrastructure/Services/ChatDevService.cs:50-59 | a successful reply's summary, action and sentiment are read from its text through the two parsers |
| ChatDevServices.DisabledAsksNothing | backend/src/Kripteks.Infrastructure/Services/ChatDevService.cs:27-34 | disabled, the answer is the same whatever the bridge would have said |
| ChatDevServices.AnalyzeMarketSentiment | backend/src/Kripteks.Infrastructure/Services/ChatDevService.cs:74-78 | the market sentiment is the sentiment workflow run on the news summary, HOLD when disabled |
| BotEngine.GetStrategy | backend/src/Kripteks.Infrastructure/Services/BotEngineService.cs:339-344 | the market-buy strategy exactly for the market-buy id; every other id falls back to Golden Rose |
| BotEngine.KlineIntervalRoundTrip | backend/src/Kripteks.Infrastructure/Services/BotEngineService.cs:346-364 | every interval of the table but the week is read back from its own code; the week's code and unknown codes give one hour |
| BotEngine.AnalyzeWith | backend/src/Kripteks.Infrastructure/Services/BotEngineService.cs:115-115 | the market-buy strategy answers as it always does; Golden Rose acts only on 350 candles or more, buys only when flat and sells only with a position |
| BotEngine.TakeProfitFrom | backend/src/Kripteks.Infrastructure/Services/BotEngineService.cs:168-168 | a signal's target sets the take-profit as its percentage above the entry price; without a target the old one is kept |
| BotEngine.StopLossFrom | backend/src/Kripteks.Infrastructure/Services/BotEngineService.cs:169-169 | a signal's stop sets the stop-loss as its percentage below the entry price; without a stop the old one is kept |
| BotEngine.ProtectionSigns | backend/src/Kripteks.Infrastructure/Services/BotEngineService.cs:168-169 | a target above a positive entry price gives a positive take-profit, a stop below it a positive stop-loss |
| BotEngine.EnteredRow | backend/src/Kripteks.Infrastructure/Services/BotEngineService.cs:161-177 | the entered bot runs at the price with no PnL yet, carries the signal's protection levels and one info log more, and keeps its id, amount and strategy |
| BotEngine.LockAmount | backend/src/Kripteks.Infrastructure/Services/BotEngineService.cs:148-159 | the amount moves from the free to the locked balance with an investment transaction; the wallet total is unchanged |
| BotEngine.EnterAtLastClose | backend/src/Kripteks.Infrastructure/Services/BotEngineService.cs:161-193 | an empty candle list is logged as an error and the bot keeps waiting; a zero close with a target or stop runs the bot without protection levels and logs the error; otherwise the bot enters at the last close |
| BotEngine.CheckEntrySignal | backend/src/Kripteks.Infrastructure/Services/BotEngineService.cs:91-194 | without candles or without a buy nothing changes; a buy without a wallet or with too little free balance adds a warning log and changes nothing else; otherwise the amount is locked and the bot enters; the wallet total never changes, and a market-buy bot is locked a second time, breaking the lock invariant |
| BotEngine.CheckEntrySignalCorrected | backend/src/Kripteks.Infrastructure/Services/BotEngineService.cs:91-194 | as above, but a market-buy bot's amount, locked at creation, is not taken again, so an entry keeps the lock invariant |
| BotEngine.PnlAmountMeaning | backend/src/Kripteks.Infrastructure/Services/BotEngineService.cs:204-206 | the PnL is the amount's share of the price change, positive exactly when the price is above the entry and zero exactly at it |
| BotEngine.ExitDecision | backend/src/Kripteks.Infrastructure/Services/BotEngineService.cs:243-263 | a strategy sell closes first (completed if the trade made money, else stopped), then the take-profit completes, then the stop-loss stops; nothing else closes |
| BotEngine.ExitStatusMeaning | backend/src/Kripteks.Infrastructure/Services/BotEngineService.cs:243-263 | a bot completes only on a profitable strategy sell or its take-profit; with non-negative levels a take-profit exit has a non-negative PnL and a stop-loss exit a non-positive one |
| BotEngine.ClosePosition | backend/src/Kripteks.Infrastructure/Services/BotEngineService.cs:294-337 | the bot takes its final status and two info logs; the wallet releases the amount and pays back amount plus PnL with a return transaction, so its total grows by the PnL; closing a running bot keeps the lock invariant |
| BotEngine.CheckExitSignalAndPnl | backend/src/Kripteks.Infrastructure/Services/BotEngineService.cs:196-292 | a zero price changes nothing; a zero entry price only logs an error; otherwise the PnL is marked to the price and the bot closes exactly as the exit rule says, the wallet total growing by the PnL; the lock invariant is kept |
| BotEngine.StrategySell | backend/src/Kripteks.Infrastructure/Services/BotEngineService.cs:218-241 | without candles there is no sell, the market-buy strategy never sells, and Golden Rose sells only from 350 candles on |
| BotEngine.MarkAndExit | backend/src/Kripteks.Infrastructure/Services/BotEngineService.cs:204-290 | the PnL is marked to the price and the exit rule decides; a bot that stays open keeps running and the wallet is untouched |
| PortfolioServices.StripQuote | backend/src/Kripteks.Infrastructure/Services/PortfolioService.cs:211-219 | the result is a prefix of the symbol, and the symbol itself when it ends in none of the quotes |
| PortfolioServices.ExtractBaseAsset | backend/src/Kripteks.Infrastructure/Services/PortfolioService.cs:206-220 | the base asset is a prefix of the symbol |
| PortfolioServices.ExtractBaseAssetSlash | backend/src/Kripteks.Infrastructure/Services/PortfolioService.cs:208-209 | with a slash the base asset is the text before the first slash, and holds no slash |
| PortfolioServices.ExtractBaseAssetUnknownQuote | backend/src/Kripteks.Infrastructure/Services/PortfolioService.cs:211-219 | a symbol without a slash that ends in none of the quotes is its own base asset |
| PortfolioServices.ExtractBaseAssetUsdt | backend/src/Kripteks.Infrastructure/Services/PortfolioService.cs:211-219 | a USDT pair gives back the coin it was built from |
| PortfolioServices.AverageCostTimesQuantity | backend/src/Kripteks.Infrastructure/Services/PortfolioService.cs:58-96 | a row's average cost times its quantity is what its bots invested |
| PortfolioServices.AverageCostBetweenEntries | backend/src/Kripteks.Infrastructure/Services/PortfolioService.cs:58-96 | the average cost is a weighted average: with every entry price in a positive range it lies in that range |
| PortfolioServices.WeightedEntryBounds | backend/src/Kripteks.Infrastructure/Services/PortfolioService.cs:58-96 | the amount over the quantity lies between the lowest and the highest entry price |
| PortfolioServices.AssetsFor | backend/src/Kripteks.Infrastructure/Services/PortfolioService.cs:58-96 | one row per symbol group |
| PortfolioServices.AssetsForInvested | backend/src/Kripteks.Infrastructure/Services/PortfolioService.cs:58-96 | the rows' investments add up to what the groups' bots put in |
| PortfolioServices.BuildAssets | backend/src/Kripteks.Infrastructure/Services/PortfolioService.cs:44-96 | the loop gives one row per symbol of the running bots, the total value of the rows, and as total investment exactly what the running bots put in |
| PortfolioServices.BuildRows | backend/src/Kripteks.Infrastructure/Services/PortfolioService.cs:58-96 | the loop over the group keys builds their rows in order, with the running totals of value and investment |
| PortfolioServices.AddRow | backend/src/Kripteks.Infrastructure/Services/PortfolioService.cs:58-96 | one round of the loop keeps the invariant that the rows and totals so far are those of the first groups |
| PortfolioServices.Allocated | backend/src/Kripteks.Infrastructure/Services/PortfolioService.cs:99-104 | one row per row, with its share |
| PortfolioServices.AssignAllocations | backend/src/Kripteks.Infrastructure/Services/PortfolioService.cs:99-104 | the allocation loop gives each row its share and changes nothing else |
| PortfolioServices.AllocatedSum | backend/src/Kripteks.Infrastructure/Services/PortfolioService.cs:99-104 | the shares sum to the values over the total, in percent |
| PortfolioServices.AllocatedKeepsValues | backend/src/Kripteks.Infrastructure/Services/PortfolioService.cs:99-104 | assigning shares changes no value |
| PortfolioServices.AllocationsSumTo100 | backend/src/Kripteks.Infrastructure/Services/PortfolioService.cs:99-104 | with a positive total the shares sum to 100; with none every share is 0 |
| PortfolioServices.AllocationsNonNegative | backend/src/Kripteks.Infrastructure/Services/PortfolioService.cs:99-104 | non-negative values give non-negative shares |
| PortfolioServices.ConcentrationBounds | backend/src/Kripteks.Infrastructure/Services/PortfolioService.cs:232-242 | shares that are non-negative and sum to 100 give a concentration index in (0, 1] |
| PortfolioServices.BetaBounds | backend/src/Kripteks.Infrastructure/Services/PortfolioService.cs:289-297 | non-negative shares summing to at most 100 keep beta within [1.0, 1.5] |
| PortfolioServices.BetaWithoutBtc | backend/src/Kripteks.Infrastructure/Services/PortfolioService.cs:289-297 | a portfolio without BTC has beta 1.5 |
| PortfolioServices.BetaAllBtc | backend/src/Kripteks.Infrastructure/Services/PortfolioService.cs:289-297 | a portfolio held entirely in BTC has beta 1.0 |
| PortfolioServices.CalculateMaxDrawdown | backend/src/Kripteks.Infrastructure/Services/PortfolioService.cs:320-336 | the loop's cumulative equity, peak and drawdown are those of the returns so far |
| PortfolioServices.DrawdownInvariant | backend/src/Kripteks.Infrastructure/Services/PortfolioService.cs:320-336 | the largest drawdown is never negative and the peak never falls below 0 nor below the equity |
| PortfolioServices.DrawdownOfGains | backend/src/Kripteks.Infrastructure/Services/PortfolioService.cs:320-336 | returns that are never negative draw nothing down |
| PortfolioServices.DrawdownAfterLoss | backend/src/Kripteks.Infrastructure/Services/PortfolioService.cs:320-336 | one loss after one gain draws down the loss's share of the peak, in percent |
| PortfolioServices.ConcentrationPoints | backend/src/Kripteks.Infrastructure/Services/PortfolioService.cs:346-348 | concentration adds between 0 and 3 points |
| PortfolioServices.VolatilityPoints | backend/src/Kripteks.Infrastructure/Services/PortfolioService.cs:350-352 | volatility adds between 0 and 3 points |
| PortfolioServices.DrawdownPoints | backend/src/Kripteks.Infrastructure/Services/PortfolioService.cs:354-358 | drawdown adds between 0 and 3 points |
| PortfolioServices.BetaPoints | backend/src/Kripteks.Infrastructure/Services/PortfolioService.cs:360-362 | beta adds between 0 and 2 points |
| PortfolioServices.RiskScore | backend/src/Kripteks.Infrastructure/Services/PortfolioService.cs:343-362 | the score lies between 0 and 11 |
| PortfolioServices.LevelOfScore | backend/src/Kripteks.Infrastructure/Services/PortfolioService.cs:364-372 | each of the five labels is given exactly for its own band of scores |
| PortfolioServices.DetermineRiskLevel | backend/src/Kripteks.Infrastructure/Services/PortfolioService.cs:341-373 | the level is one of the five labels |
| PortfolioServices.LevelMonotone | backend/src/Kripteks.Infrastructure/Services/PortfolioService.cs:364-372 | a higher score never gives a lower level |
| PortfolioServices.RiskLevelMonotoneInConcentration | backend/src/Kripteks.Infrastructure/Services/PortfolioService.cs:346-348 | a more concentrated portfolio is never rated less risky, all else equal |
| PortfolioServices.BetaAddsNoPoints | backend/src/Kripteks.Infrastructure/Services/PortfolioService.cs:289-297 | beta as computed stays within [1.0, 1.5], so it never adds to the score |
| PortfolioServices.CalculateTargetWeights | backend/src/Kripteks.Infrastructure/Services/PortfolioService.cs:428-474 | one weight per base asset of the rows, and each is the target the rules give |
| PortfolioServices.AssignAlts | backend/src/Kripteks.Infrastructure/Services/PortfolioService.cs:455-462 | every other coin gets the equal share |
| PortfolioServices.CollectMajors | backend/src/Kripteks.Infrastructure/Services/PortfolioService.cs:440-452 | the first loop gives the majors' weights, their total and the other coins |
| PortfolioServices.TargetWeightsSpec | backend/src/Kripteks.Infrastructure/Services/PortfolioService.cs:428-474 | the weights computed are the targets of the rules, for every base asset of the rows and nothing else |
| PortfolioServices.TargetWeightsSumTo100 | backend/src/Kripteks.Infrastructure/Services/PortfolioService.cs:456-462 | summed over the rows the targets are 100 as soon as one row is another coin |
| PortfolioServices.TargetWeightsRepeatedMajor | backend/src/Kripteks.Infrastructure/Services/PortfolioService.cs:440-462 | two rows of the same major coin are both counted in the majors' total, so with two BTC rows and one other coin the two coins' targets sum to 60 rather than 100 |
| PortfolioServices.CalculateRebalanceSuggestions | backend/src/Kripteks.Infrastructure/Services/PortfolioService.cs:378-422 | nothing for fewer than two rows or a worthless portfolio; otherwise the suggestions of the rows that are off target, largest deviation first |
| PortfolioServices.SuggestionsSound | backend/src/Kripteks.Infrastructure/Services/PortfolioService.cs:394-419 | a suggestion comes from a row off its target by at least 5 points, its delta is that deviation, and it sells exactly when the row is above target |
| PortfolioServices.SuggestionsComplete | backend/src/Kripteks.Infrastructure/Services/PortfolioService.cs:394-419 | every row that is off target has its suggestion |
| PortfolioServices.RebalanceSpec | backend/src/Kripteks.Infrastructure/Services/PortfolioService.cs:378-422 | the suggestions are ordered by deviation, each sound, and none of the off-target rows is missing |
| PortfolioServices.ReturnsOf | backend/src/Kripteks.Infrastructure/Services/PortfolioService.cs:253-256 | one return per closed bot with a positive amount |
| PortfolioServices.RiskMetricsOf | backend/src/Kripteks.Infrastructure/Services/PortfolioService.cs:225-303 | the metrics carry the concentration and beta of the rows, a drawdown never negative, no volatility or drawdown with fewer than two closed bots, and the level of the metrics |
| PortfolioServices.ReturnsNegativeOfLoss | backend/src/Kripteks.Infrastructure/Services/PortfolioService.cs:253-256 | a bot with an amount that lost money shows up as a negative return |
| PortfolioServices.RiskLevelWithoutHistory | backend/src/Kripteks.Infrastructure/Services/PortfolioService.cs:258-297 | without a history a portfolio whose shares sum to 100 is rated at most low risk |
| PortfolioServices.RiskLevelOfSingleAsset | backend/src/Kripteks.Infrastructure/Services/PortfolioService.cs:232-242 | a single asset has concentration 1 and is never rated very low risk |
| PortfolioServices.GetPortfolioSummary | backend/src/Kripteks.Infrastructure/Services/PortfolioService.cs:27-135 | no running bot gives the empty summary; otherwise one row per symbol, largest value first, with shares summing to 100, totals and profit figures consistent with the rows, and the risk metrics and suggestions of the rows |
| PortfolioServices.SummaryLevelOfRunning | backend/src/Kripteks.Infrastructure/Services/PortfolioService.cs:36-41 | a portfolio with running bots never reports the level of the empty one |
| PortfolioServices.SharesAtMost100 | backend/src/Kripteks.Infrastructure/Services/PortfolioService.cs:99-104 | non-negative allocation shares that sum to 100 are each at most 100 |
| ScannerServices.StoredSymbolsRoundTrip | backend/src/Kripteks.Infrastructure/Services/ScannerService.cs:38-59 | a saved list reads back with exactly the saved symbols if and only if no symbol is empty or holds a comma |
| ScannerServices.FavoritesNewestFirst | backend/src/Kripteks.Infrastructure/Services/ScannerService.cs:27-41 | the user's favorites hold one entry per list of the user, newest first |
| ScannerServices.FavoritesComplete | backend/src/Kripteks.Infrastructure/Services/ScannerService.cs:29-30 | every list of the user is among the user's favorites |
| ScannerServices.FavoritesOnlyOwn | backend/src/Kripteks.Infrastructure/Services/ScannerService.cs:29-30 | every favorite shown is one of the user's own lists |
| ScannerServices.FindOwned | backend/src/Kripteks.Infrastructure/Services/ScannerService.cs:49-49 | the lookup finds a list with that id owned by that user, and finds none exactly when there is no such list |
| ScannerServices.FavoriteTable.constructor | backend/src/Kripteks.Infrastructure/Services/ScannerService.cs:19-25 | the favorite table starts empty with the first id 1, and valid (distinct ids, all below the counter, none the empty id) |
| ScannerServices.FavoriteTable.GetUserFavorites | backend/src/Kripteks.Infrastructure/Services/ScannerService.cs:27-41 | one entry per list of the user, newest first, every list of the user included |
| ScannerServices.FavoriteTable.SaveFavoriteList | backend/src/Kripteks.Infrastructure/Services/ScannerService.cs:43-63 | with an id, only the user's list with that id is renamed and given the joined symbols, and the id is returned; when the user has no such list the call fails with "Liste bulunamadı." and nothing changes; without an id (or with the empty one) a new list of the user with a fresh id is appended; the table stays valid |
| ScannerServices.FavoriteTable.DeleteFavoriteList | backend/src/Kripteks.Infrastructure/Services/ScannerService.cs:65-73 | only a list the user owns is removed, the others keeping their order; otherwise nothing changes |
| ScannerServices.SavedListReadsBack | backend/src/Kripteks.Infrastructure/Services/ScannerService.cs:43-63 | after a save the user's favorites show a list with the given name that reads back as the given symbols when they were storable |
| ScannerServices.UpdateKeepsOthers | backend/src/Kripteks.Infrastructure/Services/ScannerService.cs:58-61 | updating a list of one user leaves every other user's favorites as they were |
| ScannerServices.InsertKeepsOthers | backend/src/Kripteks.Infrastructure/Services/ScannerService.cs:54-55 | adding a list for one user leaves every other user's favorites as they were |
| ScannerServices.DeleteKeepsOthers | backend/src/Kripteks.Infrastructure/Services/ScannerService.cs:67-72 | deleting a list of one user leaves every other user's favorites as they were, and its id is gone from the table |
| ScannerServices.GetKlineInterval | backend/src/Kripteks.Infrastructure/Services/ScannerService.cs:183-195 | the interval is one hour exactly for "1h" and for every code outside the table |
| ScannerServices.IntervalNameRoundTrip | backend/src/Kripteks.Infrastructure/Services/ScannerService.cs:183-195 | every interval of the table is reached from its own code |
| ScannerServices.ChosenPrefix | backend/src/Kripteks.Infrastructure/Services/ScannerService.cs:117-123 | the symbols picked by the scan are the first 100 (or fewer) valid tickers ordered by quote volume |
| ScannerServices.ChosenEligible | backend/src/Kripteks.Infrastructure/Services/ScannerService.cs:101-123 | the scan picks at most 100 tickers, each of a trading USDT symbol whose name is not a leveraged token or a stable or fiat pair |
| ScannerServices.ChosenByVolume | backend/src/Kripteks.Infrastructure/Services/ScannerService.cs:120-120 | the picked tickers come by quote volume, highest first |
| ScannerServices.ChosenAreTop | backend/src/Kripteks.Infrastructure/Services/ScannerService.cs:118-123 | a valid ticker left out trades no more than any ticker picked |
| ScannerServices.TargetSymbols | backend/src/Kripteks.Infrastructure/Services/ScannerService.cs:85-125 | requested symbols are scanned as given; without any, the exchange's own pick is scanned when both exchange requests succeed, else nothing |
| ScannerServices.ItemFor | backend/src/Kripteks.Infrastructure/Services/ScannerService.cs:131-170 | a symbol gives a result exactly when its candles (fetched under the cleaned name) are there and not empty and its score reaches the minimum; the result carries the symbol and its score |
| ScannerServices.Scan | backend/src/Kripteks.Infrastructure/Services/ScannerService.cs:75-181 | the loop visits every target symbol in turn and returns the results they give ordered by descending score |
| ScannerServices.ScanItemsFacts | backend/src/Kripteks.Infrastructure/Services/ScannerService.cs:129-176 | every result is for a visited symbol and none is below the minimum; every visited symbol that gives a result is present |
| ScannerServices.ScanResults | backend/src/Kripteks.Infrastructure/Services/ScannerService.cs:178-180 | the returned results are ordered by score, highest first, and are exactly the results the symbols gave |
| YahooFinanceServices.YahooInterval | backend/src/Kripteks.Infrastructure/Services/YahooFinanceService.cs:30-37 | Yahoo is asked for 15m, 1h or 1d; the requested interval is kept exactly when it is one of those, and 4h and anything unknown are fetched hourly |
| YahooFinanceServices.YahooRange | backend/src/Kripteks.Infrastructure/Services/YahooFinanceService.cs:40-40 | the range is a year exactly for daily candles, else 60 days |
| YahooFinanceServices.RowCount | backend/src/Kripteks.Infrastructure/Services/YahooFinanceService.cs:88-90 | the rows read stop at the end of the timestamps, the opens or the closes, whichever comes first |
| YahooFinanceServices.BuildCandles | backend/src/Kripteks.Infrastructure/Services/YahooFinanceService.cs:87-102 | the loop builds exactly the candles of the specification over the rows read (none when a kept row lacks a high, low or volume) |
| YahooFinanceServices.KeptRows | backend/src/Kripteks.Infrastructure/Services/YahooFinanceService.cs:91-91 | the kept rows are rows read whose open and close are both non-zero |
| YahooFinanceServices.CandlesAreKeptRows | backend/src/Kripteks.Infrastructure/Services/YahooFinanceService.cs:88-102 | when the highs, lows and volumes cover the rows, the candles are the kept rows in order, each taking time, open, high, low, close and volume from its own row, none with a zero open or close |
| YahooFinanceServices.MissingValueFails | backend/src/Kripteks.Infrastructure/Services/YahooFinanceService.cs:97-100 | a kept row beyond the highs, lows or volumes makes the whole request yield no candles (the index error is caught) |
| YahooFinanceServices.Merge | backend/src/Kripteks.Infrastructure/Services/YahooFinanceService.cs:126-134 | a merged candle opens at the time and price of the first candle of its run, closes with the last, and sums the volumes |
| YahooFinanceServices.MergeRange | backend/src/Kripteks.Infrastructure/Services/YahooFinanceService.cs:130-131 | the merged high is the highest high of the run and the merged low the lowest low, each attained by a candle of the run |
| YahooFinanceServices.AggregateCandles | backend/src/Kripteks.Infrastructure/Services/YahooFinanceService.cs:118-138 | the loop over offsets 0, chunk, 2·chunk, … builds exactly the aggregation of the specification |
| YahooFinanceServices.AggregateCount | backend/src/Kripteks.Infrastructure/Services/YahooFinanceService.cs:121-124 | n candles give ⌈n / chunk⌉ merged candles, none exactly when there are no candles |
| YahooFinanceServices.AggregateKeepsVolume | backend/src/Kripteks.Infrastructure/Services/YahooFinanceService.cs:133-133 | aggregation keeps the total volume |
| YahooFinanceServices.AggregateRun | backend/src/Kripteks.Infrastructure/Services/YahooFinanceService.cs:121-134 | the j-th merged candle merges the candles from j·chunk up to the next multiple of chunk or the end |
| YahooFinanceServices.AggregateByOne | backend/src/Kripteks.Infrastructure/Services/YahooFinanceService.cs:118-138 | runs of one candle give back the same candles |
| YahooFinanceServices.GetKlines | backend/src/Kripteks.Infrastructure/Services/YahooFinanceService.cs:25-116 | no candles when the request fails, the chart or its timestamps are missing, or a value is out of range; otherwise the chart's candles, merged four by four when 4h was asked |
| StrategiesMomentum.OrElse | backend/src/Kripteks.Infrastructure/Strategies/AlphaTrendStrategy.cs:118-120 | the value when present, else the default |
| StrategiesMomentum.AlphaTrendStrategy.constructor | backend/src/Kripteks.Infrastructure/Strategies/AlphaTrendStrategy.cs:16-20 | EMA 20 and 50, RSI 14, buy under 65 and sell over 75 |
| StrategiesMomentum.AlphaTrendStrategy.SetParameters | backend/src/Kripteks.Infrastructure/Strategies/AlphaTrendStrategy.cs:22-29 | each of the five settings changes only when present and parseable |
| StrategiesMomentum.AlphaTrendStrategy.Analyze | backend/src/Kripteks.Infrastructure/Strategies/AlphaTrendStrategy.cs:31-106 | nothing below max(slow, RSI period) + 1 candles or with a missing value; flat, a buy exactly on an EMA golden cross with the RSI under the buy threshold, target +5% and stop -3%; in a position, a sell exactly on a death cross, or over the sell threshold with a shrinking EMA gap or RSI over 80; it throws exactly when that gap divides by a zero slow EMA |
| StrategiesMomentum.AlphaTrendStrategy.Score | backend/src/Kripteks.Infrastructure/Strategies/AlphaTrendStrategy.cs:108-139 | between 0 and 100; 0 without enough candles, else the Alpha score of the EMA trend and the RSI, with missing EMAs read as 0 and a missing RSI as 50 |
| StrategiesMomentum.AlphaScore | backend/src/Kripteks.Infrastructure/Strategies/AlphaTrendStrategy.cs:122-138 | between 0 and 100, and at most 70 with the RSI over both thresholds and 50 |
| StrategiesMomentum.AlphaScoreAntitone | backend/src/Kripteks.Infrastructure/Strategies/AlphaTrendStrategy.cs:129-136 | with ordered thresholds the score never rises as the RSI rises |
| StrategiesMomentum.AlphaTrendBuyScoresHigh | backend/src/Kripteks.Infrastructure/Strategies/AlphaTrendStrategy.cs:59-131 | every buy signal scores above 70 |
| StrategiesMomentum.ScoutBreakoutStrategy.constructor | backend/src/Kripteks.Infrastructure/Strategies/ScoutBreakoutStrategy.cs:11-15 | RSI 14, a 20-candle volume average and a 1.8 spike multiplier |
| StrategiesMomentum.ScoutBreakoutStrategy.SetParameters | backend/src/Kripteks.Infrastructure/Strategies/ScoutBreakoutStrategy.cs:17-22 | each of the three settings changes only when present and parseable |
| StrategiesMomentum.ScoutBreakoutStrategy.View | backend/src/Kripteks.Infrastructure/Strategies/ScoutBreakoutStrategy.cs:32-43 | the last close and volume, and the mean of the volumes that end just before the last candle |
| StrategiesMomentum.ScoutBreakoutStrategy.Analyze | backend/src/Kripteks.Infrastructure/Strategies/ScoutBreakoutStrategy.cs:24-83 | nothing without enough candles; flat, a buy exactly on a volume spike with an RSI breakout or oversold recovery, target +3% and stop -2%, named after the breakout when there is one; in a position, a sell exactly with RSI over 75 or, without a spike, under 50 |
| StrategiesMomentum.ScoutBreakoutStrategy.Score | backend/src/Kripteks.Infrastructure/Strategies/ScoutBreakoutStrategy.cs:85-126 | between 50 and 100; 50 without enough candles |
| StrategiesMomentum.ScoutScore | backend/src/Kripteks.Infrastructure/Strategies/ScoutBreakoutStrategy.cs:98-125 | 50 plus the volume and RSI points lies between 50 and 100 |
| StrategiesMomentum.ScoutVolumePoints | backend/src/Kripteks.Infrastructure/Strategies/ScoutBreakoutStrategy.cs:101-105 | between 0 and 45, positive exactly when the volume ratio is above 1 |
| StrategiesMomentum.ScoutRsiPoints | backend/src/Kripteks.Infrastructure/Strategies/ScoutBreakoutStrategy.cs:108-123 | one of 0, 5, 10, 15, 25; at least 15 strictly between 50 and 70; nothing at exactly 70 or between 35 and 50 |
| StrategiesMomentum.ScoutBuyScores | backend/src/Kripteks.Infrastructure/Strategies/ScoutBreakoutStrategy.cs:48-112 | the readings of a buy score at least 65, and at least 80 on an RSI breakout |
| StrategiesMomentum.OversoldRecoveryStrategy.constructor | backend/src/Kripteks.Infrastructure/Strategies/OversoldRecoveryStrategy.cs:21-23 | RSI 14, stochastic RSI 14 and an oversold level of 30 |
| StrategiesMomentum.OversoldRecoveryStrategy.SetParameters | backend/src/Kripteks.Infrastructure/Strategies/OversoldRecoveryStrategy.cs:25-33 | each of the three settings changes only when present and parseable |
| StrategiesMomentum.OversoldRecoveryStrategy.View | backend/src/Kripteks.Infrastructure/Strategies/OversoldRecoveryStrategy.cs:110-125 | the readings hold the last close and volume |
| StrategiesMomentum.OversoldRecoveryStrategy.Score | backend/src/Kripteks.Infrastructure/Strategies/OversoldRecoveryStrategy.cs:106-178 | between 0 and 100; 0 below 50 candles |
| StrategiesMomentum.OversoldRecoveryStrategy.Analyze | backend/src/Kripteks.Infrastructure/Strategies/OversoldRecoveryStrategy.cs:35-104 | nothing below 50 candles; in a position with an entry, a sell exactly at +12%, at over +5% with RSI over 65, or at -5%, never a buy; otherwise a buy exactly when the score reaches 70, target +12% and stop -5%, never a sell |
| StrategiesMomentum.RecoveryPoints | backend/src/Kripteks.Infrastructure/Strategies/OversoldRecoveryStrategy.cs:134-143 | one of 0, 10, 15, 25, 30; at least 15 exactly when the RSI rises from at or below the oversold level |
| StrategiesMomentum.StochPoints | backend/src/Kripteks.Infrastructure/Strategies/OversoldRecoveryStrategy.cs:146-151 | one of 0, 10, 20, 25; positive exactly for a rising %K |
| StrategiesMomentum.SupportPoints | backend/src/Kripteks.Infrastructure/Strategies/OversoldRecoveryStrategy.cs:155-158 | one of 0, 8, 15, 20; positive exactly within 10% above the support |
| StrategiesMomentum.RecoveryVolumePoints | backend/src/Kripteks.Infrastructure/Strategies/OversoldRecoveryStrategy.cs:162-168 | one of 0, 8, 12, 15; positive exactly when the volume reaches a positive volume SMA |
| StrategiesMomentum.OversoldScore | backend/src/Kripteks.Infrastructure/Strategies/OversoldRecoveryStrategy.cs:119-177 | between 0 and 100; 0 when the RSI, %K, volume SMA or support is missing |
| StrategiesMomentum.OversoldScoreUncapped | backend/src/Kripteks.Infrastructure/Strategies/OversoldRecoveryStrategy.cs:129-177 | the parts add up to at most 100, so the cap never changes the sum; a buy needs an RSI recovery or a rising %K |
| StrategiesMomentum.TrendSurferStrategy.constructor | backend/src/Kripteks.Infrastructure/Strategies/TrendSurferStrategy.cs:21-24 | ADX 14, EMA 50 and 200 |
| StrategiesMomentum.TrendSurferStrategy.SetParameters | backend/src/Kripteks.Infrastructure/Strategies/TrendSurferStrategy.cs:26-34 | each of the three periods changes only when present and parseable |
| StrategiesMomentum.TrendSurferStrategy.View | backend/src/Kripteks.Infrastructure/Strategies/TrendSurferStrategy.cs:115-126 | the readings hold the last close |
| StrategiesMomentum.TrendSurferStrategy.Score | backend/src/Kripteks.Infrastructure/Strategies/TrendSurferStrategy.cs:111-183 | between 0 and 100; 0 below 200 candles |
| StrategiesMomentum.TrendSurferStrategy.Analyze | backend/src/Kripteks.Infrastructure/Strategies/TrendSurferStrategy.cs:36-109 | nothing below 200 candles; in a position with an entry, a sell exactly at +20%, on -DI leading with ADX over 25, on a death cross, or at -8%, each with its message, never a buy; otherwise a buy exactly when the score reaches 70, target +20% and stop -8% |
| StrategiesMomentum.AdxPoints | backend/src/Kripteks.Infrastructure/Strategies/TrendSurferStrategy.cs:135-139 | between 5 and 35, at least 25 exactly for an ADX of at least 25 |
| StrategiesMomentum.DirectionPoints | backend/src/Kripteks.Infrastructure/Strategies/TrendSurferStrategy.cs:143-150 | one of 0, 10, 15, 20, 25; positive exactly when +DI leads |
| StrategiesMomentum.EmaPoints | backend/src/Kripteks.Infrastructure/Strategies/TrendSurferStrategy.cs:154-172 | between 0 and 35 |
| StrategiesMomentum.MomentumPoints | backend/src/Kripteks.Infrastructure/Strategies/TrendSurferStrategy.cs:176-180 | one of 0, 5, 10 |
| StrategiesMomentum.TrendScore | backend/src/Kripteks.Infrastructure/Strategies/TrendSurferStrategy.cs:122-182 | between 0 and 100; 0 exactly when ADX or a DI is missing, else at least 5 |
| StrategiesMomentum.SurferBuyWithoutLeadNeedsAdx | backend/src/Kripteks.Infrastructure/Strategies/TrendSurferStrategy.cs:97-182 | a buy score without +DI leading needs an ADX of at least 25 |
| StrategiesMomentum.PhoenixMomentumStrategy.constructor | backend/src/Kripteks.Infrastructure/Strategies/PhoenixMomentumStrategy.cs:16-19 | RSI 14 and Bollinger 20 |
| StrategiesMomentum.PhoenixMomentumStrategy.SetParameters | backend/src/Kripteks.Infrastructure/Strategies/PhoenixMomentumStrategy.cs:21-26 | each of the two periods changes only when present and parseable |
| StrategiesMomentum.PhoenixMomentumStrategy.View | backend/src/Kripteks.Infrastructure/Strategies/PhoenixMomentumStrategy.cs:95-109 | the readings hold the last close and volume |
| StrategiesMomentum.PhoenixMomentumStrategy.Score | backend/src/Kripteks.Infrastructure/Strategies/PhoenixMomentumStrategy.cs:91-146 | between 0 and 100; 0 below 50 candles |
| StrategiesMomentum.PhoenixMomentumStrategy.Analyze | backend/src/Kripteks.Infrastructure/Strategies/PhoenixMomentumStrategy.cs:28-89 | nothing below 50 candles; in a position with an entry, a sell exactly at +10%, RSI over 85 or -5%, never a buy; otherwise a buy exactly when the score reaches 80, target +10% and stop -5% |
| StrategiesMomentum.SpikePoints | backend/src/Kripteks.Infrastructure/Strategies/PhoenixMomentumStrategy.cs:119-125 | one of 0, 10, 20, 30; positive exactly at 1.2 times a positive volume SMA |
| StrategiesMomentum.BandPoints | backend/src/Kripteks.Infrastructure/Strategies/PhoenixMomentumStrategy.cs:129-131 | one of 0, 20, 25; positive exactly above or within 1% under the upper band |
| StrategiesMomentum.PhoenixRsiPoints | backend/src/Kripteks.Infrastructure/Strategies/PhoenixMomentumStrategy.cs:135-138 | 25 exactly in [55, 75], 15 exactly in (75, 85), 10 exactly in [50, 55) |
| StrategiesMomentum.MacdPoints | backend/src/Kripteks.Infrastructure/Strategies/PhoenixMomentumStrategy.cs:142-143 | 20 exactly above the signal and above 0, 10 exactly above the signal at or under 0 |
| StrategiesMomentum.PhoenixScore | backend/src/Kripteks.Infrastructure/Strategies/PhoenixMomentumStrategy.cs:104-145 | between 0 and 100; 0 when any reading is missing |
| StrategiesMomentum.PhoenixBuyNeedsSpikeAndBand | backend/src/Kripteks.Infrastructure/Strategies/PhoenixMomentumStrategy.cs:77-145 | a buy score needs every reading, a volume spike of 1.2 times and a close within 1% of the upper band |
| StrategiesScanner.Sma111BreakoutAnalyze | backend/src/Kripteks.Infrastructure/Strategies/Sma111BreakoutStrategy.cs:24-81 | an empty list is invalid data and fewer than 111 candles "insufficient data"; otherwise the chart map holds SMA 111, a buy exactly when flat with the close above it, and a sell exactly for a long position with the close at or below it |
| StrategiesScanner.Sma111BreakoutScore | backend/src/Kripteks.Infrastructure/Strategies/Sma111BreakoutStrategy.cs:83-133 | the score lies between 0 and 100 and is positive only with at least 112 candles and the close at or above SMA 111 |
| StrategiesScanner.Sma111BreakoutScoreMeaning | backend/src/Kripteks.Infrastructure/Strategies/Sma111BreakoutStrategy.cs:99-132 | 100 exactly when the previous close was below the SMA and the last is at or above it; a score of 100 - 5j or less means the j candles before the last also closed at or above the SMA |
| StrategiesScanner.CalculateSma111BreakoutScore | backend/src/Kripteks.Infrastructure/Strategies/Sma111BreakoutStrategy.cs:83-133 | the backward scan computes that score, behind the base class's validation |
| StrategiesScanner.LinesStep | backend/src/Kripteks.Infrastructure/Strategies/Sma111BuySellStrategy.cs:60-63 | adding one more multiplier line keeps the lines added so far and every other key |
| StrategiesScanner.AddMultiplierLines | backend/src/Kripteks.Infrastructure/Strategies/Sma111BuySellStrategy.cs:60-63 | after the loop, every multiplier m has the key x{m} holding SMA 350 times m, other keys keep their values, and no other key appears |
| StrategiesScanner.MultiplierKeysDistinct | backend/src/Kripteks.Infrastructure/Strategies/Sma111BuySellStrategy.cs:14-14 | the eight multipliers give eight different keys, so no Add throws on a duplicate |
| StrategiesScanner.BuySellLines | backend/src/Kripteks.Infrastructure/Strategies/Sma111BuySellStrategy.cs:54-63 | the chart map holds SMA111, SMA350 and each multiple of SMA 350 |
| StrategiesScanner.Sma111BuySellAnalyze | backend/src/Kripteks.Infrastructure/Strategies/Sma111BuySellStrategy.cs:26-119 | invalid data for no candles, "insufficient data" below 112, "insufficient SMA data" until SMA 350 exists; then a buy exactly when flat on an upward crossing of SMA 111, a sell exactly in a position on a downward crossing, with the full chart map |
| StrategiesScanner.Sma111BuySellScore | backend/src/Kripteks.Infrastructure/Strategies/Sma111BuySellStrategy.cs:121-147 | one of 0, 20, 80; 0 exactly below 111 candles, 80 exactly with the close above SMA 111 |
| StrategiesScanner.SwitchedOnIsGetParameter | backend/src/Kripteks.Infrastructure/Strategies/BaseStrategy.cs:75-91 | the switch test reads the same value as GetParameter with that default |
| StrategiesScanner.GetEnabledMas | backend/src/Kripteks.Infrastructure/Strategies/BistMultiMaBreakoutStrategy.cs:33-48 | every enabled average has a period of at least 13 |
| StrategiesScanner.Sma111EnabledIff | backend/src/Kripteks.Infrastructure/Strategies/BistMultiMaBreakoutStrategy.cs:42-42 | SMA 111 is enabled exactly when its switch is missing or reads "true" |
| StrategiesScanner.DefaultEnabledMas | backend/src/Kripteks.Infrastructure/Strategies/BistMultiMaBreakoutStrategy.cs:37-45 | with no parameters SMA 111 is the only enabled average |
| StrategiesScanner.MaxPeriod | backend/src/Kripteks.Infrastructure/Strategies/BistMultiMaBreakoutStrategy.cs:59-59 | the result is the period of one of the averages and no average has a longer one |
| StrategiesScanner.MaValues | backend/src/Kripteks.Infrastructure/Strategies/BistMultiMaBreakoutStrategy.cs:74-76 | the series of an average has one entry per price |
| StrategiesScanner.CalculateMa | backend/src/Kripteks.Infrastructure/Strategies/BistMultiMaBreakoutStrategy.cs:74-76 | the EMA or SMA chosen by the average's kind is that series |
| StrategiesScanner.TriggeredNames | backend/src/Kripteks.Infrastructure/Strategies/BistMultiMaBreakoutStrategy.cs:72-87 | a name is listed exactly when its average's last value is defined and below the price |
| StrategiesScanner.ScanStep | backend/src/Kripteks.Infrastructure/Strategies/BistMultiMaBreakoutStrategy.cs:78-86 | one more average appends its name when it triggers and adds its last value to the chart map when defined |
| StrategiesScanner.ScanAverages | backend/src/Kripteks.Infrastructure/Strategies/BistMultiMaBreakoutStrategy.cs:72-87 | the loop collects exactly the triggered names and the chart map |
| StrategiesScanner.TriggeredNamesNonEmpty | backend/src/Kripteks.Infrastructure/Strategies/BistMultiMaBreakoutStrategy.cs:92-92 | some name is triggered exactly when the price is above some defined average |
| StrategiesScanner.AnalyzeAverages | backend/src/Kripteks.Infrastructure/Strategies/BistMultiMaBreakoutStrategy.cs:66-121 | a buy exactly when flat and above some average, a sell exactly for a long position above none, with the chart map and no target or stop |
| StrategiesScanner.BistMultiMaAnalyze | backend/src/Kripteks.Infrastructure/Strategies/BistMultiMaBreakoutStrategy.cs:50-122 | invalid data for no candles, "no MA selected" with none enabled, no trade below the longest period; then the decision of AnalyzeAverages |
| StrategiesScanner.MaScore | backend/src/Kripteks.Infrastructure/Strategies/BistMultiMaBreakoutStrategy.cs:144-186 | 0 or between 70 and 100, positive exactly when the average's last value is defined and at or below the close |
| StrategiesScanner.BestScore | backend/src/Kripteks.Infrastructure/Strategies/BistMultiMaBreakoutStrategy.cs:134-189 | 0 or between 70 and 100, positive exactly when some average scores |
| StrategiesScanner.BistMultiMaScore | backend/src/Kripteks.Infrastructure/Strategies/BistMultiMaBreakoutStrategy.cs:124-190 | the score is 0 or between 70 and 100 |
| StrategiesScanner.BistMultiMaScoreMeaning | backend/src/Kripteks.Infrastructure/Strategies/BistMultiMaBreakoutStrategy.cs:126-189 | the score is positive exactly when some average is enabled, there are more candles than the longest period, and the close is at or above one average's last value |
| StrategiesScanner.CalculateMaScore | backend/src/Kripteks.Infrastructure/Strategies/BistMultiMaBreakoutStrategy.cs:145-186 | the backward scan of one average computes its score |
| StrategiesScanner.BestScoreStep | backend/src/Kripteks.Infrastructure/Strategies/BistMultiMaBreakoutStrategy.cs:186-186 | one more average raises the best score to its own score when higher |
| StrategiesScanner.CalculateBestScore | backend/src/Kripteks.Infrastructure/Strategies/BistMultiMaBreakoutStrategy.cs:134-189 | the loop over the averages computes the best score |
| StrategiesScanner.CalculateBistMultiMaScore | backend/src/Kripteks.Infrastructure/Strategies/BistMultiMaBreakoutStrategy.cs:124-190 | the score behind the base class's validation |
| StrategiesSimple.LastClose | backend/src/Kripteks.Infrastructure/Strategies/SimulationStrategy.cs:27-27 | the close of the last candle, or the exception of an empty list |
| StrategiesSimple.MarketBuyAnalyze | backend/src/Kripteks.Infrastructure/Strategies/MarketBuyStrategy.cs:19-42 | a buy exactly when flat, never a sell, with no target and no stop |
| StrategiesSimple.SimulationAnalyze | backend/src/Kripteks.Infrastructure/Strategies/SimulationStrategy.cs:24-70 | a buy exactly when flat, with a 5% target and a 5% stop; in a position with a known entry, a sell at a profit or a loss of 5% or more; an empty list throws |
| StrategiesSimple.SimulationScore | backend/src/Kripteks.Infrastructure/Strategies/SimulationStrategy.cs:72-77 | 0 for no candles, else the whole number 60 plus the candle count modulo 31, between 60 and 90 |
| StrategiesSimple.SimulationScorePeriodic | backend/src/Kripteks.Infrastructure/Strategies/SimulationStrategy.cs:76-76 | the score repeats every 31 candles |
| StrategiesSimple.DcaStrategy.constructor | backend/src/Kripteks.Infrastructure/Strategies/DcaStrategy.cs:10-12 | five extra buys, a 2% deviation and a scale of 2 by default |
| StrategiesSimple.DcaStrategy.SetParameters | backend/src/Kripteks.Infrastructure/Strategies/DcaStrategy.cs:14-20 | each parsable value replaces its setting and the others are kept |
| StrategiesSimple.DcaStrategy.Analyze | backend/src/Kripteks.Infrastructure/Strategies/DcaStrategy.cs:22-85 | never a sell; the first buy is unconditional with a 1% target; a later buy needs fewer extra buys than the limit and scales the position; an empty list throws |
| StrategiesSimple.DcaBuyThreshold | backend/src/Kripteks.Infrastructure/Strategies/DcaStrategy.cs:39-71 | a follow-up buy happens exactly when the price is at or below entry * (1 - deviation/100) |
| StrategiesSimple.GridStrategy.constructor | backend/src/Kripteks.Infrastructure/Strategies/GridStrategy.cs:21-23 | ten levels and no bounds by default |
| StrategiesSimple.GridStrategy.SetParameters | backend/src/Kripteks.Infrastructure/Strategies/GridStrategy.cs:25-30 | each parsable value replaces its setting and the others are kept |
| StrategiesSimple.GridStrategy.GridStep | backend/src/Kripteks.Infrastructure/Strategies/GridStrategy.cs:59-59 | with valid bounds the distance between two levels is positive |
| StrategiesSimple.GridStrategy.CastLevel | backend/src/Kripteks.Infrastructure/Strategies/GridStrategy.cs:63-64 | the level cast to a 32-bit integer throws exactly when it does not fit, and is otherwise clamped into [0, gridCount] |
| StrategiesSimple.GridStrategy.OutsideResult | backend/src/Kripteks.Infrastructure/Strategies/GridStrategy.cs:69-93 | outside the 5% tolerance band a position is sold and a flat grid waits |
| StrategiesSimple.GridStrategy.HeldResult | backend/src/Kripteks.Infrastructure/Strategies/GridStrategy.cs:121-154 | in a position never a buy; a sell exactly when the price rose above the entry level, or fell more than one level below it and 3% below the entry |
| StrategiesSimple.GridStrategy.InvalidResult | backend/src/Kripteks.Infrastructure/Strategies/GridStrategy.cs:41-57 | invalid bounds or fewer than two levels give no trade |
| StrategiesSimple.GridStrategy.Analyze | backend/src/Kripteks.Infrastructure/Strategies/GridStrategy.cs:32-157 | an empty list throws, invalid parameters give no trade, and a price whose level does not fit 32 bits throws before the tolerance band is checked |
| StrategiesSimple.GridStrategy.ClampedLevel | backend/src/Kripteks.Infrastructure/Strategies/GridStrategy.cs:63-64 | the level clamped before the cast lies in [0, gridCount] |
| StrategiesSimple.GridStrategy.AnalyzeCorrected | backend/src/Kripteks.Infrastructure/Strategies/GridStrategy.cs:32-157 | with the level clamped before the cast the same rules hold and only an empty list throws |
| StrategiesSimple.GridStrategy.CalculateSignalScore | backend/src/Kripteks.Infrastructure/Strategies/GridStrategy.cs:159-177 | without bounds or with fewer than two levels the score is 0; a score is one of 0, 30, 50, 70, 85; it throws only when both bounds equal the price |
| StrategiesSimple.GridStrategy.CalculateSignalScoreCorrected | backend/src/Kripteks.Infrastructure/Strategies/GridStrategy.cs:159-177 | with the bound checks of the analysis the score never divides by zero |
| StrategiesSimple.ZoneScore | backend/src/Kripteks.Infrastructure/Strategies/GridStrategy.cs:171-176 | a position in the lowest 30% of the grid scores 85, and the score is one of 30, 50, 70, 85 |
| StrategiesSimple.ZoneScoreMonotone | backend/src/Kripteks.Infrastructure/Strategies/GridStrategy.cs:173-176 | a lower position never scores less |
| StrategiesSimple.GridBuyLimitIsMidpoint | backend/src/Kripteks.Infrastructure/Strategies/GridStrategy.cs:101-101 | a flat grid buys only in the lower half of the range |
| StrategiesSimple.GridLevelBrackets | backend/src/Kripteks.Infrastructure/Strategies/GridStrategy.cs:59-64 | within the grid the level k of a price brackets it: lower + k*step <= price < lower + (k+1)*step |
| StrategiesSimple.GridBuyTargetAbovePrice | backend/src/Kripteks.Infrastructure/Strategies/GridStrategy.cs:98-111 | a grid buy targets a price above the current one and stops at or below it |
| StrategiesSimple.FlatBuyBrackets | backend/src/Kripteks.Infrastructure/Strategies/GridStrategy.cs:101-110 | a flat buy targets the level above the price and stops below it |
| StrategiesSimple.TruncateClampCommute | backend/src/Kripteks.Infrastructure/Strategies/GridStrategy.cs:63-64 | casting then clamping equals clamping then casting |
| StrategiesSimple.GridCorrectedAgrees | backend/src/Kripteks.Infrastructure/Strategies/GridStrategy.cs:32-157 | where the source does not throw the corrected analysis gives the same result |
| StrategiesSimple.GridAnalyzeOverflows | backend/src/Kripteks.Infrastructure/Strategies/GridStrategy.cs:63-88 | a grid from 1 to 2 of two levels and a price of 3000000000 throws instead of selling the position |
| StrategiesSimple.GridScoreDividesByZero | backend/src/Kripteks.Infrastructure/Strategies/GridStrategy.cs:161-171 | both bounds at 100 and a price of 100 divide by zero; the corrected score is 0 |
| StrategiesSma.ViewOf | backend/src/Kripteks.Infrastructure/Strategies/GoldenRoseStrategy.cs:43-58 | the snapshot of the last two candles exists exactly when all four average values are present, and holds those values and the last two closes |
| StrategiesSma.GoldenRoseStrategy.constructor | backend/src/Kripteks.Infrastructure/Strategies/GoldenRoseStrategy.cs:11-14 | the settings start at SMA 111, SMA 350, take-profit 1.618 and cycle top 2 |
| StrategiesSma.GoldenRoseStrategy.SetParameters | backend/src/Kripteks.Infrastructure/Strategies/GoldenRoseStrategy.cs:16-23 | each of sma1, sma2, tp and cycleTop changes only when present and parseable, else keeps its old value |
| StrategiesSma.Target | backend/src/Kripteks.Infrastructure/Strategies/GoldenRoseStrategy.cs:78-81 | the target is tp times the long SMA unless that is within 2% of the price, in which case cycleTop times the long SMA |
| StrategiesSma.GoldenRoseAnalyze | backend/src/Kripteks.Infrastructure/Strategies/GoldenRoseStrategy.cs:25-120 | it throws only for a single candle with both periods 1; a signal needs enough candles and all four averages; flat, a buy exactly on the price crossing above the short SMA while above the long one, with that target and a stop 3% under the short SMA; in a position, a sell exactly at the cycle top (with its own message) or with the price 2% under the short SMA |
| StrategiesSma.GoldenRoseStopBelowPrice | backend/src/Kripteks.Infrastructure/Strategies/GoldenRoseStrategy.cs:69-85 | a buy over a positive short SMA has its stop under the entry price |
| StrategiesSma.GoldenRoseApiAnalyze | backend-api/src/Kripteks.Infrastructure/Strategies/GoldenRoseStrategy.cs:10-81 | nothing below 350 candles; flat, a buy exactly on the price crossing above SMA 111, target 1.618 times SMA 350 or 10% above the price when that is not above it, stop 3% under SMA 111; in a position, a sell exactly 2% under SMA 111; a buy's target is always above a positive price |
| StrategiesSma.GoldenCrossStrategy.constructor | backend/src/Kripteks.Infrastructure/Strategies/GoldenCrossStrategy.cs:11-12 | the periods start at 50 and 200 |
| StrategiesSma.GoldenCrossStrategy.SetParameters | backend/src/Kripteks.Infrastructure/Strategies/GoldenCrossStrategy.cs:14-23 | each period changes only when present and parseable |
| StrategiesSma.GoldenCrossStrategy.ShortSma | backend/src/Kripteks.Infrastructure/Strategies/GoldenCrossStrategy.cs:31-32 | the short SMA series has one entry per candle |
| StrategiesSma.GoldenCrossStrategy.LongSma | backend/src/Kripteks.Infrastructure/Strategies/GoldenCrossStrategy.cs:31-33 | the long SMA series has one entry per candle |
| StrategiesSma.GoldenCrossStrategy.Analyze | backend/src/Kripteks.Infrastructure/Strategies/GoldenCrossStrategy.cs:25-76 | "insufficient data" below long period + 1 candles; flat, a buy exactly on the short SMA crossing above the long one, target +10% and stop -8%; in a position, a sell exactly on the crossing below; otherwise a bull or bear label by which SMA is higher |
| StrategiesSma.GoldenCrossStrategy.Score | backend/src/Kripteks.Infrastructure/Strategies/GoldenCrossStrategy.cs:78-130 | one of 0, 70, 85, 100; 100 exactly for an upward crossing within the last three candles; 85 and 70 only with the short SMA above the long one, 85 only with the price above both |
| StrategiesSma.GoldenCrossStrategy.CalculateSignalScore | backend/src/Kripteks.Infrastructure/Strategies/GoldenCrossStrategy.cs:78-130 | the loop over the last three candles computes the score |
| StrategiesSma.GoldenCrossBuyScoresTop | backend/src/Kripteks.Infrastructure/Strategies/GoldenCrossStrategy.cs:50-116 | every buy signal scores 100 |
| StrategiesSma.Sma111Strategy.constructor | backend/src/Kripteks.Infrastructure/Strategies/SMA111Strategy.cs:16-16 | the period starts at 111 |
| StrategiesSma.Sma111Strategy.SetParameters | backend/src/Kripteks.Infrastructure/Strategies/SMA111Strategy.cs:18-22 | the period changes only when present and parseable |
| StrategiesSma.Sma111Strategy.SmaList | backend/src/Kripteks.Infrastructure/Strategies/SMA111Strategy.cs:29-30 | the SMA series has one entry per candle |
| StrategiesSma.Sma111Strategy.Analyze | backend/src/Kripteks.Infrastructure/Strategies/SMA111Strategy.cs:24-68 | "insufficient data" below period + 1 candles; flat, a buy exactly on the price crossing above the SMA, target +5% and stop -5%; in a position, a sell exactly on the crossing below; otherwise an above or below label |
| StrategiesSma.Sma111Strategy.Score | backend/src/Kripteks.Infrastructure/Strategies/SMA111Strategy.cs:70-115 | one of 0, 70, 80, 90, 100; 100 exactly for a crossing within three candles; it throws exactly when the price is above a zero SMA without a crossing; 90 exactly within 1% above a positive SMA |
| StrategiesSma.Sma111Strategy.CalculateSignalScore | backend/src/Kripteks.Infrastructure/Strategies/SMA111Strategy.cs:70-115 | the loop over the last three candles computes the score, the exception included |
| StrategiesSma.DistanceBand | backend/src/Kripteks.Infrastructure/Strategies/SMA111Strategy.cs:108-110 | a relative distance under t above a positive SMA is a price under (1 + t) times the SMA |
| StrategiesSma.Sma111BuyScoresTop | backend/src/Kripteks.Infrastructure/Strategies/SMA111Strategy.cs:43-102 | every buy signal scores 100 |
| StrategiesVolume.SplitDivergence | backend/src/Kripteks.Infrastructure/Strategies/DivergenceDetectorStrategy.cs:123-186 | as written, the detectors throw (Min of an empty list) exactly when the window has between 5 and half the lookback defined indicator values |
| StrategiesVolume.HalvesDivergenceIsBullishDivergence | backend/src/Kripteks.Infrastructure/Strategies/DivergenceDetectorStrategy.cs:123-143 | the corrected plain detector is the shared bullish-divergence indicator |
| StrategiesVolume.SplitDivergenceAgrees | backend/src/Kripteks.Infrastructure/Strategies/DivergenceDetectorStrategy.cs:127-139 | with every value of the window defined, the detector as written does not throw and agrees with the corrected one |
| StrategiesVolume.DivergencePatternsExclusive | backend/src/Kripteks.Infrastructure/Strategies/DivergenceDetectorStrategy.cs:142-164 | the plain and the hidden pattern never hold together |
| StrategiesVolume.SomesCountSuffix | backend/src/Kripteks.Infrastructure/Strategies/DivergenceDetectorStrategy.cs:128-128 | a window whose values are null up to an index keeps exactly the defined rest |
| StrategiesVolume.DivergenceDetectorStrategy.constructor | backend/src/Kripteks.Infrastructure/Strategies/DivergenceDetectorStrategy.cs:21-22 | RSI 14 and a lookback of 20 |
| StrategiesVolume.DivergenceDetectorStrategy.SetParameters | backend/src/Kripteks.Infrastructure/Strategies/DivergenceDetectorStrategy.cs:24-28 | each key is parsed in turn; a malformed value reports the error and leaves that and every later setting unchanged |
| StrategiesVolume.DivergenceDetectorStrategy.Score | backend/src/Kripteks.Infrastructure/Strategies/DivergenceDetectorStrategy.cs:52-120 | 0 below 50 candles; a score it returns lies between 0 and 100 |
| StrategiesVolume.DivergenceDetectorStrategy.ScoreCorrected | backend/src/Kripteks.Infrastructure/Strategies/DivergenceDetectorStrategy.cs:52-120 | with the corrected detectors it never throws, stays between 0 and 100, and is 0 without data or RSI |
| StrategiesVolume.DivergenceDetectorStrategy.Analyze | backend/src/Kripteks.Infrastructure/Strategies/DivergenceDetectorStrategy.cs:30-50 | nothing below 50 candles; it throws exactly when the score does; otherwise a buy exactly at a score of 70, target +12% and stop -5%, never a sell |
| StrategiesVolume.DivergenceDetectorStrategy.AnalyzeCorrected | backend/src/Kripteks.Infrastructure/Strategies/DivergenceDetectorStrategy.cs:30-50 | the same decision on the corrected score |
| StrategiesVolume.RsiDivergencePoints | backend/src/Kripteks.Infrastructure/Strategies/DivergenceDetectorStrategy.cs:75-82 | one of 0, 25, 35; positive exactly with a plain or hidden divergence |
| StrategiesVolume.OversoldPoints | backend/src/Kripteks.Infrastructure/Strategies/DivergenceDetectorStrategy.cs:92-96 | one of 0, 15, 20; positive exactly at an RSI of 40 or less |
| StrategiesVolume.ConfirmVolumePoints | backend/src/Kripteks.Infrastructure/Strategies/DivergenceDetectorStrategy.cs:99-104 | one of 0, 5, 10; positive only when the volume reaches a positive volume SMA |
| StrategiesVolume.HistogramTurnPoints | backend/src/Kripteks.Infrastructure/Strategies/DivergenceDetectorStrategy.cs:107-117 | 10 exactly for a negative histogram that rises at the last value |
| StrategiesVolume.DivergenceScore | backend/src/Kripteks.Infrastructure/Strategies/DivergenceDetectorStrategy.cs:71-119 | the capped sum lies between 0 and 100 |
| StrategiesVolume.DivergenceBuyNeedsRsiDivergence | backend/src/Kripteks.Infrastructure/Strategies/DivergenceDetectorStrategy.cs:38-119 | a buy score needs a plain or hidden RSI divergence |
| StrategiesVolume.DivergenceScoreFailsIff | backend/src/Kripteks.Infrastructure/Strategies/DivergenceDetectorStrategy.cs:69-85 | without an RSI value the score is 0; otherwise it throws exactly when the plain RSI or the MACD detector throws |
| StrategiesVolume.DivergenceScoreThrows | backend/src/Kripteks.Infrastructure/Strategies/DivergenceDetectorStrategy.cs:133-139 | with RSI period 40, lookback 20 and 50 candles the score as written throws, and the corrected score does not |
| StrategiesVolume.PriorAverage | backend/src/Kripteks.Infrastructure/Strategies/BreakoutHunterStrategy.cs:68-72 | null exactly with fewer than 5 values |
| StrategiesVolume.BreakoutHunterStrategy.constructor | backend/src/Kripteks.Infrastructure/Strategies/BreakoutHunterStrategy.cs:20-23 | Bollinger 20 and ATR 14 |
| StrategiesVolume.BreakoutHunterStrategy.SetParameters | backend/src/Kripteks.Infrastructure/Strategies/BreakoutHunterStrategy.cs:25-30 | each key is parsed in turn; a malformed value reports the error and leaves that and every later setting unchanged |
| StrategiesVolume.BreakoutHunterStrategy.View | backend/src/Kripteks.Infrastructure/Strategies/BreakoutHunterStrategy.cs:62-77 | the readings hold the last candle |
| StrategiesVolume.BreakoutHunterStrategy.Score | backend/src/Kripteks.Infrastructure/Strategies/BreakoutHunterStrategy.cs:54-145 | 0 below 50 candles, else the breakout score of the readings |
| StrategiesVolume.BreakoutHunterStrategy.Analyze | backend/src/Kripteks.Infrastructure/Strategies/BreakoutHunterStrategy.cs:32-52 | nothing below 50 candles; it throws exactly when the score does; otherwise a buy exactly at a score of 75, target +15% and stop -6%, never a sell |
| StrategiesVolume.SqueezePoints | backend/src/Kripteks.Infrastructure/Strategies/BreakoutHunterStrategy.cs:86-95 | one of 0, 10, 15, 20, 25; positive exactly for a positive prior bandwidth and a bandwidth under 8 |
| StrategiesVolume.AtrPoints | backend/src/Kripteks.Infrastructure/Strategies/BreakoutHunterStrategy.cs:98-104 | one of 0, 10, 15, 20; positive exactly at 1.1 times a positive prior ATR |
| StrategiesVolume.BreakoutBandPoints | backend/src/Kripteks.Infrastructure/Strategies/BreakoutHunterStrategy.cs:108-118 | it throws exactly on a zero close above the middle band and not above the upper one; positive exactly above the upper band or the middle band |
| StrategiesVolume.BreakoutVolumePoints | backend/src/Kripteks.Infrastructure/Strategies/BreakoutHunterStrategy.cs:121-127 | one of 0, 10, 15, 20; positive exactly at 1.2 times a positive volume SMA |
| StrategiesVolume.BodyPoints | backend/src/Kripteks.Infrastructure/Strategies/BreakoutHunterStrategy.cs:131-142 | one of 0, 5, 7, 10; positive only for a rising candle with a range |
| StrategiesVolume.BreakoutScore | backend/src/Kripteks.Infrastructure/Strategies/BreakoutHunterStrategy.cs:67-145 | 0 when a reading is missing; it throws exactly when the band part does; otherwise between 0 and 100 |
| StrategiesVolume.BreakoutBuyNeedsSqueezeAndBreak | backend/src/Kripteks.Infrastructure/Strategies/BreakoutHunterStrategy.cs:40-144 | a buy score needs every reading, a squeeze or ATR expansion, and a band break or volume spike |
| StrategiesVolume.ObvTrend | backend/src/Kripteks.Infrastructure/Strategies/WhaleAccumulationStrategy.cs:80-86 | 0 below 10 values or with a zero prior mean; otherwise positive exactly when the last 5 OBV values average above the 5 before them |
| StrategiesVolume.WhaleAccumulationStrategy.constructor | backend/src/Kripteks.Infrastructure/Strategies/WhaleAccumulationStrategy.cs:20-23 | OBV SMA 20, Bollinger 20 and a squeeze threshold of 5 |
| StrategiesVolume.WhaleAccumulationStrategy.SetParameters | backend/src/Kripteks.Infrastructure/Strategies/WhaleAccumulationStrategy.cs:25-31 | each key is parsed in turn; a malformed value reports the error and leaves that and every later setting unchanged |
| StrategiesVolume.WhaleAccumulationStrategy.View | backend/src/Kripteks.Infrastructure/Strategies/WhaleAccumulationStrategy.cs:62-114 | the readings hold the last volume and the range of the last 10 candles |
| StrategiesVolume.WhaleAccumulationStrategy.Score | backend/src/Kripteks.Infrastructure/Strategies/WhaleAccumulationStrategy.cs:55-132 | between 0 and 100; 0 below 50 candles |
| StrategiesVolume.WhaleAccumulationStrategy.Analyze | backend/src/Kripteks.Infrastructure/Strategies/WhaleAccumulationStrategy.cs:33-53 | nothing below 50 candles; a buy exactly at a score of 75, target +15% and stop -7%, never a sell |
| StrategiesVolume.TightnessPoints | backend/src/Kripteks.Infrastructure/Strategies/WhaleAccumulationStrategy.cs:95-98 | one of 0, 10, 20, 30, 35; positive exactly under 10% or under the threshold |
| StrategiesVolume.AccumulationPoints | backend/src/Kripteks.Infrastructure/Strategies/WhaleAccumulationStrategy.cs:102-108 | one of 0, 10, 20, 28, 35; positive exactly with the OBV above its SMA |
| StrategiesVolume.ConsolidationPoints | backend/src/Kripteks.Infrastructure/Strategies/WhaleAccumulationStrategy.cs:111-118 | one of 0, 8, 12, 15; positive exactly for a range under 8% |
| StrategiesVolume.QuietVolumePoints | backend/src/Kripteks.Infrastructure/Strategies/WhaleAccumulationStrategy.cs:122-129 | 15 exactly between 0.6 and 1.2 times a positive SMA; 0 exactly without a positive SMA or above 1.5 times |
| StrategiesVolume.WhaleScore | backend/src/Kripteks.Infrastructure/Strategies/WhaleAccumulationStrategy.cs:73-131 | between 0 and 100; 0 when a reading is missing |
| StrategiesVolume.WhaleBuyNeedsAccumulationAndSqueeze | backend/src/Kripteks.Infrastructure/Strategies/WhaleAccumulationStrategy.cs:41-131 | a buy score needs every reading, the OBV above its SMA and a squeeze |
| StrategyBase.GuardAnalyze | backend/src/Kripteks.Infrastructure/Strategies/BaseStrategy.cs:28-45 | an empty candle list gives no trade with the invalid-data message; an exception gives no trade with "Hata: " and its message; otherwise the strategy's own result, so any trade comes from a successful analysis of valid candles |
| StrategyBase.GuardScore | backend/src/Kripteks.Infrastructure/Strategies/BaseStrategy.cs:47-63 | an empty candle list or an exception scores 0, otherwise the strategy's own score |
| StrategyBase.BaseStrategy.constructor | backend/src/Kripteks.Infrastructure/Strategies/BaseStrategy.cs:21-21 | a new strategy has no parameters |
| StrategyBase.BaseStrategy.SetParameters | backend/src/Kripteks.Infrastructure/Strategies/BaseStrategy.cs:23-26 | the whole map is replaced; nothing of the previous one survives |
| StrategyBase.BaseStrategy.GetParameter | backend/src/Kripteks.Infrastructure/Strategies/BaseStrategy.cs:75-91 | the converted value of the key, or the default when the key is missing or the conversion fails |
| StrategyBase.ParameterOf | backend/src/Kripteks.Infrastructure/Strategies/BaseStrategy.cs:75-91 | the same lookup on a given map |
| StrategyBase.StringParameter | backend/src/Kripteks.Infrastructure/Strategies/BaseStrategy.cs:75-91 | a string parameter is the stored text itself, or the default when missing |
| StrategyBase.IntSetting | backend/src/Kripteks.Infrastructure/Strategies/GoldenRoseStrategy.cs:18-18 | a present key whose text parses as an integer sets the field to it; otherwise the field keeps its value |
| StrategyBase.DecimalSetting | backend/src/Kripteks.Infrastructure/Strategies/GoldenRoseStrategy.cs:20-20 | a present key whose text parses as a decimal sets the field to it; otherwise the field keeps its value |
| StrategyBase.IntSettingOfNumber | backend/src/Kripteks.Infrastructure/Strategies/GoldenRoseStrategy.cs:18-18 | the text of a 32-bit integer sets the field to that integer |
| StrategyBase.IntParseSetting | backend/src/Kripteks.Infrastructure/Strategies/BreakoutHunterStrategy.cs:28-28 | a missing key keeps the field; a present key sets it when its text parses and throws exactly when it does not |
| StrategyBase.DecimalParseSetting | backend/src/Kripteks.Infrastructure/Strategies/WhaleAccumulationStrategy.cs:30-30 | a missing key keeps the field; a present key sets it when its text parses as a decimal and throws exactly when it does not |
| StrategyBase.CrossingsExclusive | backend/src/Kripteks.Infrastructure/Strategies/GoldenCrossStrategy.cs:50-64 | an upward and a downward crossing exclude each other |
| StrategyBase.PnlPercent | backend/src/Kripteks.Infrastructure/Strategies/TrendSurferStrategy.cs:53-53 | the profit in percent is not negative exactly when the price is at or above the entry |
| StrategyBase.PnlThreshold | backend/src/Kripteks.Infrastructure/Strategies/TrendSurferStrategy.cs:53-53 | a profit threshold in percent is the price threshold entry * (1 + t/100), both ways |
| StrategyBase.Lift | backend/src/Kripteks.Infrastructure/Strategies/GoldenCrossStrategy.cs:31-31 | a price series as an indicator series defined everywhere |
| StrategyBase.FindRecentUpCross | backend/src/Kripteks.Infrastructure/Strategies/GoldenCrossStrategy.cs:92-114 | the loop over the last three indices finds a crossing exactly when one of them, with a predecessor and all four values defined, crosses upward |
| StrategyBase.RunAbove | backend/src/Kripteks.Infrastructure/Strategies/Sma111BreakoutStrategy.cs:105-121 | the run counts the consecutive candles back from an index whose close is at or above a defined value, and stops at an undefined value or a close below it |
| StrategyBase.CountSinceBreakout | backend/src/Kripteks.Infrastructure/Strategies/Sma111BreakoutStrategy.cs:105-121 | the backward scan counts the run above the value and reports whether it ended at a close below it |
| Trading.Wallet.constructor | backend/src/Kripteks.Infrastructure/Services/BotService.cs:108-110 | a wallet holds the given free and locked balances |
| Trading.LockOf | backend/src/Kripteks.Infrastructure/Services/BotEngineService.cs:148-159 | a bot holding a lock asks for its amount in the locked balance, any other bot for nothing |
| Trading.RunningPnl | backend/src/Kripteks.Infrastructure/Services/BotEngineService.cs:210-212 | only a running bot's PnL is open profit |
| Trading.IndexOfId | backend/src/Kripteks.Infrastructure/Services/BotService.cs:185-186 | the first row with that id, and none exactly when no row has it |
| Trading.IndexOfUniqueId | backend/src/Kripteks.Infrastructure/Services/BotService.cs:185-186 | with unique ids the lookup finds exactly the row with that id |
| Trading.TradingDb.constructor | backend/src/Kripteks.Infrastructure/Services/BotService.cs:14-18 | the tables start with the given wallet and bots, and no transactions or system logs |
| Trading.LockedDemandUpdate | backend/src/Kripteks.Infrastructure/Services/BotEngineService.cs:148-159 | changing one bot moves the locked demand by the change of its own lock |
| Trading.LockedDemandAppend | backend/src/Kripteks.Infrastructure/Services/BotService.cs:124-136 | a new bot adds its own lock to the locked demand |
| Trading.LockedDemandNonNegative | backend/src/Kripteks.Infrastructure/Services/BotService.cs:124-136 | with non-negative amounts the locked demand is never negative |

## Left out

Outside the core, by design:
- The ChatDev HTTP bridge script (`ai/chatdev_api.py`) is not part of this model. `ChatDevServices` sees its reply through the oracle `post`.
- Exchange, AI and notification clients are not part of this model: Binance market and WebSocket services, the OpenAI, Gemini and DeepSeek services, Firebase, the mail services and the news service. Their answers enter the model as parameters.
- SignalR hubs and the messages the services push to clients are not modelled. `NotificationCenterView` and `DashboardPage` receive hub messages as method calls.
- The timer loops are not modelled: `BotEngineService.ExecuteAsync` with `ProcessBotsAsync`, and the alert and sentiment jobs.
  - One engine pass over one bot is modelled, by `BotEngine.CheckEntrySignal` and `BotEngine.CheckExitSignalAndPnl`.
  - Concurrency between those loops and the HTTP actions is not modelled.
- Pass-through controllers, EF Core plumbing, AES encryption, JWT, input sanitising and the user manager are left out, because they are framework code. Encryption and JSON are functions passed in.
- Presentational front-end components are left out: modals, charts, skeletons, log drawers, the login pages and the fetch wrappers. So are toasts' visuals, the confetti and the loading spinners.
- `UserDevice.cs` and the other entity files are not part of this model. Their fields are taken from the controllers and services that use them.
- WalletControllers.GetWallet: the `Wallet` entity is not part of this model, so its `AvailableBalance` (WalletController.cs:60) is not seen. It is taken to be the free `Balance`, which is what the bot service checks a market buy against (BotService.cs:118) and what the bot wizard compares the amount with (BotWizard.tsx:103).

Numerics:
- Decimal overflow and rounding are not modelled, because `decimal` is `real`.
  - `Math.Round` to cents (`Common.Round2`, ties to the even cent) is kept where the code rounds: the Monte-Carlo output and the rebalancing amount of `PortfolioService`.
  - A decimal-to-`int` cast is checked against the 32-bit range where the code performs one.
- Square roots are parameters `sqrt`, about which nothing beyond the argument is assumed:
  - the Bollinger standard deviation;
  - the portfolio volatility.
- The Sharpe and Sortino ratios and `CalculateStdDev` of `PortfolioService` are not modelled. They need a square root and feed no other figure.
- `double` display arithmetic of the client is not modelled.
- The AI consensus score is a C# `float` in the source. `AiOrchestratorServices.ConsensusMean` computes it as an exact `real`, so single-precision rounding of the sum and the mean is not modelled.
- Common.ParseDecimal: `decimal`'s 28 to 29 significant digits and its overflow are not modelled; every digit string parses to its exact value.

Dates, text and I/O:
- Date parsing, time zones and the paginated kline fetch of `BacktestService` are left out. `Backtest` starts from the fetched candles.
- The `Price` and `Time` fields that some strategies set on their result are not part of `Common.StrategyResult`: `BistMultiMaBreakoutStrategy` and the two SMA-111 strategies fill them in, and the model does not carry them.
- Formatted dates and numbers inside messages and descriptions are left out. Only the fixed text of a description is kept.
- `Text.IsWhiteSpace` (`string.IsNullOrWhiteSpace`, `Trim`) covers the ASCII and Latin-1 white-space characters only. The other Unicode space separators, such as U+2000 to U+200A, U+2028 and U+3000, count as white space in .NET but not in the model.
- AuditLogServices.Mentions: the search term is matched as an ordinal, case-sensitive substring. In the source the database's collation decides this comparison, and it may ignore case.
- Case-insensitive matching in the backend (`Text.UpperChar`) upper-cases ASCII and the Turkish letters the services match. .NET covers all of Unicode.
- The client's `toLowerCase` (`Text.Lower`) covers ASCII only.
- Line endings of the CSV export are "\n", as `AppendLine` writes on Linux.
- The audit entries and the notifications that the settings saves write afterwards are not modelled.

Number parsing:
- Common.ParseInt: reads numbers under the invariant culture (signs `-` and `+`). The source parses under the server's current culture, which is not modelled.
- Common.ParseDecimal: reads numbers under the invariant culture (point `.`, group separator `,`). Under a culture such as tr-TR the two swap and "0.5" reads as 5; the current culture is not modelled.
- StrategyBase.IntSetting: parses under the invariant culture, as `Common.ParseInt` does.
- StrategyBase.DecimalSetting: parses under the invariant culture and without `decimal`'s precision limit, as `Common.ParseDecimal` does.
- StrategyBase.IntParseSetting: parses under the invariant culture, as `Common.ParseInt` does.
- StrategyBase.DecimalParseSetting: parses under the invariant culture and without `decimal`'s precision limit, as `Common.ParseDecimal` does.
- AuditLogServices.ParseBalance: parses under the invariant culture, as `Common.ParseDecimal` does.

Operations not modelled:
- `BotService.GetBotByIdAsync` and `BotService.ClearLogsAsync`: one is a lookup with no rule of its own, the other a bulk delete with no rule of its own.
- The page's `fetchInitialData` and `fetchLiveUpdates` in `frontend/src/app/page.tsx`: they only replace state with server answers.
- How log levels are rendered on the page.
- `StrategyScannerPanelView.SortedResults` sorts by the four numeric columns only.
  - Sorting by the symbol column, which uses JavaScript string order, is not modelled.
  - Missing (undefined) values are not modelled: every column holds a number.
- `ScannerServices.Scan` takes the strategy's `score` and `analyze` as total functions.
  - An exception a strategy throws for one symbol is caught and logged by the service, and that symbol is skipped. The model does not represent this.
  - A failed candle request is modelled.
- The Monte-Carlo random draws are the parameters `pick` and `sampleKey`. The model proves what holds for every draw, not what holds in distribution.
- Asynchronous intermediate states of the client (a request in flight) are collapsed. A handler is one step from the state before the request to the state after the answer.

Periods of at least 1 are required (weaker than the source), on the lines below.
- The source has no such guard. A period of 0, which a strategy parameter string can set, makes the indicator code divide by zero or index before the list. That exception is then thrown or swallowed, depending on the caller. The model excludes these inputs instead of representing the exception.
- The affected members are each listed on their own line:
- Indicators.CalculateSma: requires a period of at least 1; a zero period is not modelled.
- Indicators.CalculateEma: requires a period of at least 1; a zero period is not modelled.
- IndicatorsRsi.CalculateRsi: requires a period of at least 1; a zero period is not modelled.
- IndicatorsRsi.CalculateStochasticRsi: requires every period of at least 1; a zero period is not modelled.
- IndicatorsLevels.CalculateObvSma: requires a period of at least 1; a zero period is not modelled.
- IndicatorsLevels.RecentSwingExtremes and IndicatorsLevels.SupportLevelIsLowestLow: state their properties for a lookback of at least 1.
- IndicatorsBands.CalculateAtr: requires a period of at least 1; a zero period is not modelled.
- IndicatorsBands.CalculateAdx: requires a period of at least 1; a zero period is not modelled.
- IndicatorsBands.CalculateBollingerBands and IndicatorsBands.CalculateBollingerBandwidth: require a period of at least 1.
- IndicatorsTrend.CalculateMacd: requires every period of at least 1; a zero period is not modelled.
- IndicatorsTrend.DetectEmaCross: requires both periods of at least 1.
- StrategiesSma.GoldenCrossStrategy.Analyze and StrategiesSma.GoldenCrossStrategy.CalculateSignalScore: require both SMA periods of at least 1.
- StrategiesSma.Sma111Strategy.Analyze and StrategiesSma.Sma111Strategy.CalculateSignalScore: require a period of at least 1.
- StrategiesSma.GoldenRoseAnalyze: requires both SMA periods of at least 1.
- StrategiesScanner.AnalyzeAverages and StrategiesScanner.CalculateBestScore: require every enabled average's period to be at least 1.
- StrategiesMomentum.AlphaTrendStrategy.Analyze and StrategiesMomentum.AlphaTrendStrategy.Score: require the EMA and RSI periods of at least 1.
- StrategiesMomentum.ScoutBreakoutStrategy.Analyze and StrategiesMomentum.ScoutBreakoutStrategy.Score: require the RSI and volume periods of at least 1.
- StrategiesMomentum.OversoldRecoveryStrategy.Analyze and StrategiesMomentum.OversoldRecoveryStrategy.Score: require the RSI and stochastic periods of at least 1.
- StrategiesMomentum.TrendSurferStrategy.Analyze and StrategiesMomentum.TrendSurferStrategy.Score: require the ADX and EMA periods of at least 1.
- StrategiesMomentum.PhoenixMomentumStrategy.Analyze and StrategiesMomentum.PhoenixMomentumStrategy.Score: require the RSI and band periods of at least 1.
- StrategiesVolume.DivergenceDetectorStrategy.Analyze and StrategiesVolume.DivergenceDetectorStrategy.Score: require an RSI period of at least 1.
- StrategiesVolume.BreakoutHunterStrategy.Analyze and StrategiesVolume.BreakoutHunterStrategy.Score: require the band and ATR periods of at least 1.
- StrategiesVolume.WhaleAccumulationStrategy.Analyze and StrategiesVolume.WhaleAccumulationStrategy.Score: require the OBV-average and band periods of at least 1.

## Findings

| source | as written | input that shows it | evidently intended | confidence | as-written member | corrected member |
|---|---|---|---|---|---|---|
| backend/src/Kripteks.Infrastructure/Strategies/GridStrategy.cs:63-64 | the grid level is cast to `int` before it is clamped, so a price far above the grid throws an overflow | bounds 1 and 2, 2 levels, price 3000000000, in a position | clamp the level first, so the tolerance check sells the position | not executed | StrategiesSimple.GridAnalyzeOverflows | StrategiesSimple.GridStrategy.AnalyzeCorrected |
| backend/src/Kripteks.Infrastructure/Strategies/GridStrategy.cs:161-171 | the score divides by `upper - lower` without the bound checks that the analysis makes | lower and upper bounds 100, price 100 | invalid bounds score 0, as they give no trade in the analysis | not executed | StrategiesSimple.GridScoreDividesByZero | StrategiesSimple.GridStrategy.CalculateSignalScoreCorrected |
| backend/src/Kripteks.Infrastructure/Strategies/DivergenceDetectorStrategy.cs:133-139 | the defined indicator values are split at half the number of candles, so the later half can be empty and `Min()` throws | RSI period 40, lookback 20, 50 candles | split the defined values in half, as the shared bullish-divergence indicator does | not executed | StrategiesVolume.DivergenceScoreThrows | StrategiesVolume.DivergenceDetectorStrategy.ScoreCorrected |
| backend/src/Kripteks.Infrastructure/Services/BotService.cs:202-209 | the refund test reads the status after it was set to Stopped, so a running bot's locked amount is never returned | a Running bot with a positive amount, stopped by hand | refund every bot that holds a lock, as the comment says | not executed | BotServices.StopBot | BotServices.StopBotCorrected |
| backend/src/Kripteks.Infrastructure/Services/BotEngineService.cs:148-150 | entry locks the amount of a market-buy bot whose amount creation already locked | a market-buy bot of amount 100 created from a balance of 1000, then a buy signal | lock once, at creation for market buys and at entry otherwise | not executed | BotEngine.CheckEntrySignal | BotEngine.CheckEntrySignalCorrected |
| backend/src/Kripteks.Core/DTOs/PagedResult.cs:12 | `Page * PageSize` is unchecked 32-bit arithmetic and wraps negative | page 21474837, page size 100, no results | more results exactly when the page is before the last page | not executed | Paging.HasMoreOverflows | Paging.HasMoreExactBeforeLastPage |
| backend/src/Kripteks.Infrastructure/Services/BacktestService.cs:175-178 | a buy subtracts the invested balance twice, leaving minus the previous balance | 100 invested, a break-even trade at 10: the balance ends at 0 | deduct once, so a round trip returns the balance plus the profit | not executed | Backtest.RoundTripAsWritten | Backtest.RoundTripCorrected |
| backend/src/Kripteks.Infrastructure/Services/AiOrchestratorService.cs:60-63 | the PANIC SELL test comes after the SELL test, which covers every score it would catch | consensus score -0.8 gives SELL | PANIC SELL below -0.7, SELL from -0.7 up to -0.3 | not executed | AiOrchestratorServices.PanicSellUnreachable | AiOrchestratorServices.ConsensusActionIntended |
