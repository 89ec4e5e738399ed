# Bazaar Flippidy — a verified model of the flip engine

Bazaar Flippidy is a ChatTriggers module for Hypixel Skyblock. In a
simulated way, it buys items on the bazaar and sells them back at a profit.
This project models its decision and lifecycle engine in Dafny and proves
properties of that model. The engine has four parts:

- **Quote scoring (`Market`, from `bazaarAPI.js`).** For each bazaar product
  it computes the profit after the 1.25 % bazaar tax and the profit
  percentage. It keeps the flips that pass the profit thresholds, the volume
  floor and the price-gap guard. It then ranks them by profit percentage and
  keeps the first `maxItems`. The order size is rounded down to 64, 16 or
  1..15. A snapshot cache decides whether a new request is needed.
- **Budget admission and order lifecycle (`Engine`, from `index.js`).**
  - The budget test reserves the cost of every open buy order.
  - The admission loop places orders while there is room under
    `maxConcurrentFlips` and the budget allows it.
  - The order check walks the open orders backwards. It drops expired
    orders, turns filled buy orders into sell orders, and completes filled
    sell orders.
  - Start, stop and the purse refresh guard the `running` flag and the purse.
- **Profit ledger (`Ledger`, from `profitTracker.js`).** It tracks:
  - totals, the rolling one-hour history, the best flip and per-day buckets;
  - the hourly rate;
  - the session reset;
  - saving and loading the durable part of the statistics.
- **Coin strings (`Coins`, from `utils.js`).** This covers thousands
  separators, `k`/`m`/`b` coin amounts, and reading the purse from the
  scoreboard lines.

`Config` holds the settings record and its defaults. `Wrappers` holds
`Option` and `Result`.

Things outside the engine enter as parameters:

- `now` is the clock reading, one per call.
- `fills` is a fill oracle with one boolean per open order, in place of the
  random fill simulation.
- `lines` are the scoreboard lines, already stripped of formatting.
- `response` is the outcome of the HTTP request, handed to the method that
  stands for its arrival.
- `isInBazaar` is the player's bazaar status.
- The statistics file is an abstract store (`Ledger.StoredFile`), and its
  JSON encoding is opaque.

Prices are `real`. Nothing here is executed.

A run of `findAndExecuteFlips` is split where the JavaScript splits it:

- `FindAndExecuteFlips` is the synchronous part, with one `now`. It makes
  the cache test, then checks the open orders. It returns what the `.then`
  callback will receive: the cached snapshot, or a request made at `now`.
- `OnBazaarData` is the callback: it ranks the snapshot's flips and admits
  them. For a cache hit it runs as soon as the run returns.
- `OnBazaarResponse` is the answer to a request arriving, with its own
  `now`. It fills the cache and, on success, calls the callback.

Between a request and its answer any other event may run: a stop, a poll,
a start, or the next run. Each event is one method call on the engine, and
the caller decides their order.

The model follows the code as written, including:

- A first `buy_summary` entry with amount 0 sizes the order at 64.
- A failed fetch gives an error and never stale data.
- The one-hour window includes its boundary.
- The hourly rate changes only for a span strictly above 0.1 h.
- Ranking has no tie-break on profit.
- A run that finds `running` false skips the order check too.

## Model

| member | source | states |
|---|---|---|
| Market.ProfitPercentage | bazaarAPI.js:103-104 | the percentage times the buy price is 100 times the fee-adjusted profit; the percentage is non-negative exactly when the sell price covers the buy price plus the 1.25 % tax |
| Market.ProfitExampleSmall | bazaarAPI.js:103-104 | buying at 100 and selling at 105 gives a profit of 3.75 and 3.75 % |
| Market.ProfitExampleLarge | bazaarAPI.js:103-104 | buying at 1000 and selling at 1100 gives a profit of 87.5 and 8.75 % |
| Market.IsMarketManipulated | bazaarAPI.js:154-173 | a product is flagged exactly when its sell price exceeds `maxPriceGap` times its buy price |
| Market.GapAtLimitNotFlagged | bazaarAPI.js:162-166 | a sell/buy ratio exactly equal to `maxPriceGap` is not flagged |
| Market.OptimalAmount | bazaarAPI.js:180-207 | the amount is a tier (1..16 or 64); it is at most the capped depth min(depth, `maxItemAmount`, 64) unless it is 1; no larger tier fits under the cap |
| Market.OptimalAmountTiers | bazaarAPI.js:194-207 | with cap = min(depth, `maxItemAmount`, 64): 64 iff cap >= 64; otherwise 16 iff cap >= 16; otherwise max(1, floor(cap)) |
| Market.EmptySummaryGivesOne | bazaarAPI.js:182-207 | a product with an empty buy summary gets an order size of 1 |
| Market.ZeroDepthGivesFullStack | bazaarAPI.js:189-191 | a first buy-summary entry with amount 0 counts as 64, so the order is a full stack of 64 when `maxItemAmount` allows it |
| Market.Profit | bazaarAPI.js:103 | the per-item profit; `ProfitPercentage` ties it to the percentage and its sign, and `ProfitExampleSmall` and `ProfitExampleLarge` fix two values |
| Market.AvailableVolume | bazaarAPI.js:182-191 | the depth of the first buy-summary entry; `OptimalAmountTiers`, `EmptySummaryGivesOne` and `ZeroDepthGivesFullStack` characterize it through the order size |
| Market.Candidates | bazaarAPI.js:88-131 | the collected flips; `CandidatesSound` and `CandidatesComplete` state that they are exactly the snapshot's acceptable quotes |
| Market.Candidate | bazaarAPI.js:90-131 | a product yields a flip exactly when it has a quick status with positive prices and that flip passes the thresholds, the guard and the volume floor; the flip is the product's quote |
| Market.CandidatesSound | bazaarAPI.js:92-131 | every collected flip passes the profit-percentage, profit, volume and price-gap tests and is the quote of some product in the snapshot |
| Market.CandidatesComplete | bazaarAPI.js:90-131 | every product whose quote passes the tests is among the collected flips |
| Market.SortDesc | bazaarAPI.js:136 | the ranking is a permutation of the candidates, ordered by profit percentage, highest first |
| Market.NoProfitTieBreak | bazaarAPI.js:136 | two flips with equal profit percentage stay in their original order even when the later one has more profit |
| Market.Take | bazaarAPI.js:146 | the kept list is a prefix of at most n flips, and the whole list when it is short enough |
| Market.TopIsBest | bazaarAPI.js:136-146 | a candidate left out of the top n means the top n is full and every flip in it has at least that candidate's percentage |
| Market.FindBestFlips | bazaarAPI.js:84-147 | the result is the first `maxItems` of the ranked candidates; it is sorted highest percentage first, and every flip in it passes all tests and quotes a snapshot product |
| Market.SnapshotCache.constructor | bazaarAPI.js:9-10 | the cache starts empty with timestamp 0 |
| Market.SnapshotCache.CachedData | bazaarAPI.js:16-22 | the cached snapshot is served exactly when the cache is fresh: it holds data less than 0.9 scan intervals old |
| Market.SnapshotCache.StoreResponse | bazaarAPI.js:26-44 | a successful reply becomes the cached snapshot, stamped with the time of the request; a transport failure or an unsuccessful reply is an error and leaves the cache as it was |
| Market.SnapshotCache.FetchBazaarData | bazaarAPI.js:16-45 | a request is made iff the cache is empty or at least 0.9 scan intervals old; a fresh cache is returned unchanged; a success replaces data and timestamp; either failure returns an error and changes nothing |
| Market.FetchThenCacheHit | bazaarAPI.js:19-37 | right after a successful fetch, a second call within 0.9 scan intervals returns the same data with no request |
| Engine.ReservedIgnoresSelling | index.js:188-193 | sell orders reserve nothing |
| Engine.SumReserved | index.js:187-193 | the accumulated reservation is the total cost of the open buy orders |
| Engine.BudgetExample | index.js:183-200 | purse 1,000,000, reserve 100,000 and one open buy order of 200,000 admit a cost of 700,000 and refuse 700,001 |
| Engine.PurseAfter | index.js:165-176 | the purse becomes the scoreboard reading when that reading is positive and stays as it was otherwise |
| Engine.PurseAfterIdempotent | index.js:165-176 | refreshing the purse twice from the same scoreboard is the same as refreshing it once |
| Engine.NewOrder | index.js:249-264 | a new order is a buy order stamped `now` whose total cost is buy price times amount, and it reserves that cost |
| Engine.AdmitExtends | index.js:212-225 | admission only appends: the old orders stay in place and each new one is a buy order for one of the offered flips |
| Engine.AdmitCap | index.js:213 | admission never takes the number of orders past the larger of the initial count and `maxConcurrentFlips` |
| Engine.AdmitBudget | index.js:189-199 | with the budget test on and a fixed purse, the reserved cost of open buy orders stays within purse minus reserve when it started so |
| Engine.PurseAfterAdmission | index.js:212-225 | a pass leaves the purse unchanged or refreshed from the scoreboard, and unchanged when the budget test is off |
| Engine.Step | index.js:279-313 | an order older than the timeout is dropped; a filled sell order within the timeout completes with the sale less its cost; a filled buy order becomes a sell order stamped `now`; any other order is kept unchanged |
| Engine.TimeoutBoundary | index.js:279-281 | an order exactly `orderTimeout` old is kept, and is dropped one millisecond later |
| Engine.FilledBuyWaits | index.js:282-291 | a filled buy order becomes a sell order in the same step and is not completed as a sale there |
| Engine.SurvivorsFresh | index.js:272-316 | every order left after the pass is within the timeout and is one of the orders of the pass, possibly turned from buying into selling |
| Engine.PassLength | index.js:276 | each order is looked at once: the survivors and the completions together are no more than the orders scanned |
| Engine.CompletionsFromSelling | index.js:296-313 | every recorded completion comes from a sell order reported filled and within the timeout, with the sale less the total cost as profit |
| Engine.SurvivorsAppend | index.js:276-278 | the order check works order by order, so the survivors of a concatenation are the survivors of each part, in order |
| Engine.FlipEngine.constructor | index.js:12-17 | a new engine is not running, not in the bazaar, has no orders and a purse of 0 |
| Engine.FlipEngine.UpdatePlayerPurse | index.js:165-176 | the purse is refreshed from the scoreboard, keeping the old value for a reading of 0 |
| Engine.FlipEngine.Initialize | index.js:340-348 | the purse is refreshed; the tracker starts its session at `now` from the same file, holds the loaded statistics when the file has a record and its own otherwise, and has the hourly rate of its history as `ProfitTracker.Initialize` states it |
| Engine.FlipEngine.HasSufficientBudget | index.js:183-200 | after a purse refresh, the answer is yes iff the purse less the reserve less the cost of the open buy orders is at least the cost |
| Engine.FlipEngine.ExecuteFlip | index.js:241-269 | exactly one buy order for the flip, stamped `now`, is appended, and the open orders before it are unchanged |
| Engine.FlipEngine.AdmitFlips | index.js:210-225 | the orders become the admission of the ranked flips against the refreshed purse, and the purse is the one the admission's budget tests left |
| Engine.FlipEngine.CheckOrder | index.js:278-314 | checking one order replaces it by what its step leaves, and records a completed sale once, with the file saved |
| Engine.FlipEngine.CheckActiveFlips | index.js:272-316 | the orders become the survivors in their original order; the statistics gain exactly the pass's completions in scan order; the file is saved iff a flip completed |
| Engine.FlipEngine.FindAndExecuteFlips | index.js:203-238 | while not running nothing changes and nothing is pending; otherwise the orders become the survivors of the check, the ledger gains the completions, the file is saved iff one completed, and the callback is owed the cached snapshot when the cache is fresh and the answer to a request made at `now` when it is not |
| Engine.FlipEngine.OnBazaarData | index.js:209-225 | the open orders become the admission of the top `maxItems` ranked candidates of the snapshot against the refreshed purse; the purse is the one the budget tests left; `running` is not consulted |
| Engine.FlipEngine.OnBazaarResponse | index.js:209-228 | a successful answer fills the cache, stamped with the request time, and its flips are admitted as by the callback; a failure changes neither the engine nor the cache |
| Engine.FlipEngine.OnBazaarDataWhileRunning | index.js:209-225 | the callback with the stop honoured: stopped, nothing changes; running, it admits as the callback does |
| Engine.FlipEngine.OnBazaarResponseWhileRunning | index.js:209-228 | the answer fills the cache as before, but flips are admitted only while running; stopped or failed, the engine is unchanged |
| Engine.FlipEngine.StartFlipping | index.js:131-154 | it is refused while running, outside the bazaar, or with the budget test on and a refreshed purse no more than the reserve; otherwise it starts running with the refreshed purse, the first run's order check done, and the first run's snapshot pending as `FindAndExecuteFlips` states |
| Engine.FlipEngine.StopFlipping | index.js:156-159 | only `running` changes, and it becomes false |
| Engine.FlipEngine.PollBazaarStatus | index.js:319-337 | while running, on the 20 ms slot of every 5 s, it records the bazaar status, refreshes the purse and stops outside the bazaar; it does nothing otherwise, so a dormant engine stays dormant |
| Engine.FreshEngineNeverStarts | index.js:131-141 | from start-up and a poll, the start command is refused as not in the bazaar, whatever the player's status |
| Engine.FlipEngine.StartFlippingInBazaar | index.js:131-154 | with the status taken when the command is given, a free, funded player in the bazaar starts flipping with the first run's check done and its snapshot pending; a refused start leaves the orders and the ledger alone, and the purse too unless it was refused for too few coins, when the purse is the refreshed one |
| Engine.FreshEngineStartsInBazaar | index.js:131-154 | a fresh engine given a scoreboard purse above the reserve starts flipping, and its first run, finding the cache empty, requests a snapshot at `now` |
| Engine.StopDuringRequestStillBuys | index.js:156-225 | started with an empty cache, stopped before the answer, a successful answer offering an acceptable flip still places a buy order while flipping is stopped |
| Engine.StopDuringRequestBuysNothing | index.js:156-225 | the same sequence with the stop honoured by the callback ends stopped with no order |
| Engine.FirstFlipAdmitted | index.js:212-223 | with room for an order and no budget test, a snapshot with an acceptable flip gives at least one order |
| Engine.AdmitPlacesFirst | index.js:212-223 | when the first offered flip finds room and money, it becomes the first new order |
| Engine.FlipEngine.ScanOrder | index.js:276-315 | one step of the backward scan keeps its invariant: orders from `i` on are replaced by their survivors and their completions are recorded, with the file saved iff one completed |
| Engine.Reserved | index.js:188-193 | the reservation sum; `SumReserved` computes it, `ReservedAppend` makes it additive, `ReservedIgnoresSelling` and `NewOrder` fix its value on sell orders and on a new order |
| Engine.CanAfford | index.js:195-199 | the budget test; `HasSufficientBudget` answers it after the refresh and `BudgetExample` shows its boundary |
| Engine.Admit | index.js:212-225 | the admission pass; `AdmitExtends`, `AdmitCap`, `AdmitBudget` and `AdmitPlacesFirst` state what it appends, its cap, its budget and its first order, and `AdmitFlips` computes it |
| Engine.Survivors | index.js:276-316 | the orders a check leaves; `SurvivorsFresh`, `SurvivorsAppend` and `PassLength` characterize it, and `CheckActiveFlips` computes it |
| Engine.Completions | index.js:296-313 | the sales a check completes; `CompletionsFromSelling` and `PassLength` characterize it, and `CheckActiveFlips` records it |
| Ledger.WithinHourMembers | profitTracker.js:58 | the pruned history holds exactly the entries stamped at or after `now - 3600000` |
| Ledger.WithinHourAppend | profitTracker.js:58 | pruning a concatenation prunes each part, keeping the order |
| Ledger.WithinHourChronological | profitTracker.js:54-58 | pruning keeps a chronological history chronological |
| Ledger.FirstIsOldest | profitTracker.js:107-108 | in a chronological history the first entry is the oldest |
| Ledger.HourBoundaryInclusive | profitTracker.js:58 | an entry exactly one hour old is kept, and one a millisecond older is pruned |
| Ledger.BestAfter | profitTracker.js:61-66 | the best flip changes only to the new flip, and only for a strictly greater profit, so a profit no greater leaves it as it was; its profit is at least the old best and the new profit |
| Ledger.DayAfterBuckets | profitTracker.js:69-77 | today's bucket is created as zero when missing, then gains the profit and one flip; no other day changes |
| Ledger.RecordedHistory | profitTracker.js:54-58 | after recording, the history is the previous entries no older than an hour, in order, followed by the new entry |
| Ledger.RecordedChronological | profitTracker.js:54-58 | recording at a time no earlier than the history keeps it chronological |
| Ledger.RecordAllSnoc | profitTracker.js:45-91 | recording one more flip after a run is that run followed by one recording |
| Ledger.RecordAllTotals | profitTracker.js:49-51 | a run of recordings raises total and session profit by the sum of the profits and the count by the number of flips |
| Ledger.RecordAllBest | profitTracker.js:61-66 | after a run of recordings the best flip is at least the old best and every recorded profit, and is the old best or one of the run's flips |
| Ledger.SpanThreshold | profitTracker.js:107-115 | the span exceeds 0.1 h exactly when more than 360,000 ms have passed |
| Ledger.Restore | profitTracker.js:207-232 | loading sets each of the four durable fields to the stored value when present and to 0, no item or an empty map when missing, and keeps session profit, history, timestamps and rate |
| Ledger.SaveLoadRoundTrip | profitTracker.js:183-232 | loading what was saved restores total profit, flip count, best flip and daily buckets and leaves session profit and history as they were |
| Ledger.ProfitTracker.constructor | profitTracker.js:9-22 | the tracker starts from the initial statistics over the given file |
| Ledger.ProfitTracker.SaveStatistics | profitTracker.js:183-202 | the file now holds the saved record of the current statistics |
| Ledger.ProfitTracker.LoadStatistics | profitTracker.js:207-232 | it loads iff the file holds a record, restoring from it; a missing or unreadable file leaves the statistics unchanged |
| Ledger.ProfitTracker.RecordFlip | profitTracker.js:45-91 | the statistics become the recorded statistics for the flip, and the file then holds their saved record |
| Ledger.ProfitTracker.UpdateHourlyProfit | profitTracker.js:97-119 | with a non-empty history spanning more than 0.1 h, the rate times the span is the history's profit sum per hour; otherwise the rate keeps its value |
| Ledger.ProfitTracker.GetStatistics | profitTracker.js:125-138 | the summary reports the figures unchanged and the session length in hours since the start |
| Ledger.ProfitTracker.ResetSessionStats | profitTracker.js:173-178 | only session profit (to 0) and the reset time (to `now`) change |
| Ledger.ProfitTracker.Initialize | profitTracker.js:27-38 | start and reset times become `now`; the statistics file is loaded when it holds a record; then, with a non-empty history spanning more than 0.1 h, the rate times the span is the history's profit sum per hour, and otherwise the rate keeps its value |
| Ledger.WithinHour | profitTracker.js:58 | the pruning of the history; `WithinHourMembers`, `WithinHourAppend`, `WithinHourChronological` and `HourBoundaryInclusive` characterize it |
| Ledger.DayAfter | profitTracker.js:69-77 | one more flip in a day bucket; `DayAfterBuckets` characterizes it |
| Ledger.Recorded | profitTracker.js:45-91 | the statistics after one recording; `RecordedHistory`, `RecordedChronological`, `RecordAllTotals` and `RecordAllBest` characterize it, and `ProfitTracker.RecordFlip` computes it |
| Coins.DigitsValueOfDigits | utils.js:76-78 | the decimal digits of n read back as n |
| Coins.DigitsLength | utils.js:77 | n has at most k digits iff n < 10^k |
| Coins.RemoveCommasNoneLeft | utils.js:224 | deleting commas keeps exactly the characters of the string other than commas |
| Coins.RemoveCommasAppend | utils.js:224 | deleting commas works piecewise over a concatenation |
| Coins.FormatNumberDigits | utils.js:76-78 | deleting the commas from the formatted number gives its decimal digits |
| Coins.FormatNumberGroups | utils.js:76-78 | the formatted number is a group of 1-3 digits followed by comma-separated groups of exactly 3 |
| Coins.FormatNumberCommaIff | utils.js:76-78 | the formatted number has a comma iff n >= 1000 |
| Coins.ParseFloat | utils.js:237-246 | the number prefix is missing exactly when the string does not start with a digit or with a dot and a digit |
| Coins.ParseFloatDigits | utils.js:246 | a run of digits reads as its decimal value |
| Coins.ParseFloatDecimal | utils.js:237-246 | "a.b" with digit strings a and b reads as a plus b over 10^|b| |
| Coins.ParseCoinsOfDigits | utils.js:222-247 | a comma-grouped run of digits reads as the value of its digits |
| Coins.ParseCoinsFormatNumber | utils.js:222-247 | reading a formatted non-negative integer as coins gives the integer back |
| Coins.ParseCoinsCommas | utils.js:224 | "123,456" reads as 123456 |
| Coins.ParseCoinsThousands | utils.js:227-244 | "1.5k" reads as 1500 |
| Coins.ParseCoinsMillions | utils.js:227-244 | "2.3M" reads as 2,300,000 |
| Coins.ParseFloatPrefix | utils.js:237-246 | digits, a dot and digits followed by anything that is not a digit read as the decimal number of the two digit runs: the reading stops there, at a second dot too |
| Coins.ParseFloatDotGrouped | utils.js:237-246 | "1.234.567" reads as 1.234 |
| Coins.ParseCoinsDotGrouped | utils.js:189-246 | a purse written with dots between the thousands, "1.234.567", reads as 1.234 coins |
| Coins.ParseCoinsSuffix | utils.js:227-244 | for every coin string followed by k/K, m/M or b/B, the value is the number its comma-free text reads as times a thousand, a million or a billion, and 0 when it reads as no number |
| Coins.ParseCoinsNaN | utils.js:243-246 | "abc" and the empty string read as 0 |
| Coins.PurseToken | utils.js:199 | a line has no number token exactly when it contains no digit, comma or dot |
| Coins.ScoreboardPurseFirstMatch | utils.js:190-210 | the purse is the coin value of the token of the first line with a purse label and a token, and 0 when no line qualifies |
| Coins.FormatNumber | utils.js:76-78 | the thousands grouping; for n >= 0, `FormatNumberDigits`, `FormatNumberGroups`, `FormatNumberCommaIff` and `ParseCoinsFormatNumber` characterize it |
| Coins.ParseCoins | utils.js:222-247 | the coin reading; `ParseCoinsOfDigits`, `ParseCoinsFormatNumber`, `ParseCoinsSuffix`, `ParseCoinsDotGrouped` and `ParseCoinsNaN` characterize it |
| Coins.ScoreboardPurse | utils.js:182-215 | the purse scan; `ScoreboardPurseFirstMatch` characterizes it and `GetPlayerPurse` computes it |
| Coins.GetPlayerPurse | utils.js:182-215 | the scan returns the scoreboard purse of the lines |

## Left out

- Overlay rendering, dragging and tabs, chat commands, sounds, chat logging and debug output are not modelled. They are user interface, not engine logic.
- Loading and saving the settings is not modelled, because it is a stub. The settings arrive as a `Config.Settings` value.
- `requestBazaarData`, the HTTP call and the JSON parsing of the API body become the `FetchResponse` parameter. The request itself is foreign I/O.
- The `setTimeout` rescheduling of the flipping run and of the hourly rate is left out. Each run is one method call with its `now`, because timers are outside the verifier.
- The JavaScript event loop is not modelled. A run, the callback of a cache hit, the arrival of an answer, a stop, a poll and a start are separate method calls, and the order in which they happen is left to the caller. So the model does not state that the callback of a cache hit runs before any other event.
- `Date.now()` is read separately in several functions of the source. The model reads it once per modelled call, since those reads differ only by the time the code takes to run.
- The random fill simulation (`Math.random()`) becomes the `fills` oracle, since randomness cannot be modelled.
- Reading the scoreboard and `ChatLib.removeFormatting` are foreign client calls. The lines arrive already cleaned.
- `isInBazaar` and `isOnHypixelSkyblock` depend on the game client. The bazaar status is a parameter.
- FileLib reads and writes are not modelled: the file is an abstract `StoredFile`, JSON encoding is opaque, and write errors caught by the try blocks are not modelled.
- The error paths of the try/catch blocks in `findAndExecuteFlips` are not modelled beyond the fetch errors.
- Floating-point rounding is left out: all prices and profits are exact reals.
- The ISO date key of the daily buckets becomes the UTC day index `now / 86400000`. Date formatting is outside the model.
- `showStatistics` and formatting the statistics for display are not modelled. They only present figures that `GetStatistics` reports.
- `waitingForSell` and `waitingForBuy` are arrays declared at index.js:15-16 and used nowhere, so the engine has no field for them.
- `setDebugging` is not modelled, because it only switches logging.
- Coins.ParseFloat: covers digits, dots and digit fractions, a string with a second dot included, such as "1.234.567", which reads up to that dot. It does not cover signs, exponents, leading whitespace or `Infinity`, which the purse token cannot produce.
- Coins.FormatNumber: takes any integer and writes a negative one as a minus sign before the grouped digits, but its lemmas are proved for non-negative integers only. Fractional digits, which the regular expression would also group, are outside the model, whose input is an integer.
- Market.NoProfitTieBreak: relies on `Array.prototype.sort` being stable, which ECMAScript requires since its 2019 edition. `SortDesc` inserts each flip after those of equal percentage; that it keeps their order is illustrated on two flips, not proved in general.
- Market.Candidate: a volume the reply leaves out and a JSON `null` volume are the same `None`, and both keep the flip. In the source only a missing volume (`undefined < x` is false) keeps it; a `null` volume compares as 0 and drops the flip whenever `minItemVolume` is positive.

## Findings

| source | as written | input that shows it | evidently intended | confidence | as-written member | corrected member |
|---|---|---|---|---|---|---|
| index.js:137-141 | `inBazaar` starts false (index.js line 12) and is assigned only by the overlay poll (line 326), which runs only while flipping, so the bazaar test in `startFlipping` refuses every start | a freshly started module, a player standing in the bazaar, the start command: it answers "not in the bazaar" | the bazaar status is taken when the start command is given | not executed | Engine.FreshEngineNeverStarts | Engine.FlipEngine.StartFlippingInBazaar, Engine.FreshEngineStartsInBazaar |
| index.js:209-225 | the `.then` callback of `findAndExecuteFlips` admits flips without looking at `running`, so a stop given while a request is out does not keep it from placing buy orders | with the start corrected as in the row above: start with an empty cache, stop before the answer, then a successful answer with an acceptable flip; with the budget test off, one buy order is placed while flipping is stopped | the callback admits nothing once flipping is stopped | not executed | Engine.StopDuringRequestStillBuys | Engine.FlipEngine.OnBazaarResponseWhileRunning, Engine.StopDuringRequestBuysNothing |
