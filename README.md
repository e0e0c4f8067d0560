# cryptowatcher, modelled in Dafny

cryptowatcher watches cryptocurrency trading pairs. Once per cycle it fetches
each pair's OHLCV history, computes the configured technical indicators,
exposes prices and indicator outputs to user scripts (govaluate expressions
and Lua chunks), and sends a notification when a script ("watcher") starts
firing. Firing is edge-triggered: a watcher that keeps firing is reported
once per run of fired cycles.

This project models the evaluation core and proves properties of it:

- `tradeinterval.dfy` (module `TradeInterval`): the interval text parser
  `Parse`, the unit conversion `MinHourDay` and `Seconds`.
- `cryptocompare.dfy` (module `CryptoCompare`): the tick record and the five
  projections from a tick list to one price or volume series.
- `series.dfy` (module `Series`): `reverse`, the two-index swap loop into a
  fresh zeroed slice, with its quirk: the middle slot of an odd-length series
  is never written and reads 0.
- `scriptstate.dfy` (module `ScriptState`): the two-namespace variable store
  (`State`), with the expression evaluator and the Lua interpreter as
  oracles (`Interpreters`).
- `indicators.dfy` (module `Indicators`): the `processIndicators` dispatch
  table, with the technical-analysis library as an oracle (`TaLib`).
- `watchers.dfy` (module `Watchers`): `executeWatcher`, specified by the
  function `Verdict`.
- `debounce.dfy` (module `Debounce`): the edge-trigger cache of counters
  keyed by (trading pair, watcher), and what it does over consecutive cycles.
- `cycle.dfy` (module `Cycle`): `mainLoop`, split into phases. These are
  fetching, publishing the base series, publishing the indicators, the update
  notification, the pair's watchers, and then the global watchers.
- `wrappers.dfy` (module `Wrappers`): `Option`.

Foreign code and I/O are parameters. The market-data service is a `Fetcher`
function. The talib functions are a `TaLib` function. Expression parsing and
evaluation and Lua execution are functions in `Interpreters`. A Lua run is
summed up by the arguments `alert` was called with and the error it returned.
Notifications are returned in the order they are sent instead of being
written to a channel. A panic (an index out of range) or a `log.Fatal` ends
the cycle with `Crashed`.

Points where the code's behaviour may surprise; the model follows the code:

- A Lua watcher fires iff the LAST call of `alert` passed true
  (`Watchers.LastCallCounts`), not iff some call did. The Go callback
  overwrites one flag.
- The exchange is not among the values exposed to scripts. Only coin,
  currency, interval and length are bound (`main.go:330-345`).
- The indicator library receives the fetched, un-reversed series
  (`main.go:356`). Only the scripts see the reversed ones.
- For a one-sample series, scripts see 0 as the expression value and `[0]` as
  the Lua series (`Cycle.ExposedNewest`, `Series.ReversedShort`).
- The ten indicator types with no label suffix always crash the cycle at
  `labels[i]` (`main.go:363`, `Cycle.UnlabelledNeverSurvives`).
- Global names are `slug + "_" + name`. So two pairs can write the same
  global name (slug `a` with name `b_close`, slug `a_b` with `close`). The
  mirror property is therefore proved per pair, at the end of its
  publication (`Cycle.Published`).

## Model

| member | source | states |
|---|---|---|
| TradeInterval.Seconds | tradeinterval/tradeinterval.go:28-43 | the length is a whole number of minutes, and it is 0 exactly when the count is 0 or the unit is not Minute, Day, Week or Month (Hour has no case); how it relates to MinHourDay is in MinHourDayKeepsSeconds and SecondsOfHourIsZero |
| TradeInterval.MinHourDay | tradeinterval/tradeinterval.go:46-73 | the converted unit is always Minute, Hour or Day, whatever the input unit |
| TradeInterval.MinHourDayByUnit | tradeinterval/tradeinterval.go:49-70 | Minute below 60 is kept; Minute from 60 on becomes Hour with num/60 truncated; Hour and Day are kept; Week becomes 7×num days; Month becomes 30×num days |
| TradeInterval.MinHourDayIdempotent | tradeinterval/tradeinterval.go:46-73 | converting a converted interval changes nothing |
| TradeInterval.MinHourDayKeepsSeconds | tradeinterval/tradeinterval.go:28-73 | the length in seconds survives the conversion for Day, Week, Month and Minute below 60 |
| TradeInterval.SecondsOfHourIsZero | tradeinterval/tradeinterval.go:28-43 | Seconds has no Hour case: every Hour interval is 0 seconds, so 60+ minutes lose their length under MinHourDay |
| TradeInterval.NinetyMinutesIsOneHour | tradeinterval/tradeinterval.go:50-57 | 90 minutes convert to 1 hour (truncating division) |
| TradeInterval.UnitAt | tradeinterval/tradeinterval.go:77-82 | the unit table yields Minute, Day, Week or Month, never Hour |
| TradeInterval.Parse | tradeinterval/tradeinterval.go:76-97 | the parsed unit is Minute, Day, Week or Month (never Hour), and the number lies between 0 and the largest Go int |
| TradeInterval.LeadingDigitsIsLongest | tradeinterval/tradeinterval.go:86 | the captured digit group is the longest all-digit prefix of the text |
| TradeInterval.SkipSpaceIsLongest | tradeinterval/tradeinterval.go:86 | `\s*` drops whitespace only, and all of it |
| TradeInterval.ParseIgnoresCase | tradeinterval/tradeinterval.go:87 | parsing the upper-cased text gives the same interval |
| TradeInterval.ParseNum | tradeinterval/tradeinterval.go:84-92 | the number is the value of the leading digit run, 1 when there is none or it overflows |
| TradeInterval.ParseDigitsSpacesLetter | tradeinterval/tradeinterval.go:84-94 | digits, any whitespace, then D/W/M and any tail parse to the digits' value and that unit |
| TradeInterval.ParseDigitsOnly | tradeinterval/tradeinterval.go:84-94 | digits followed only by whitespace are minutes |
| TradeInterval.ParseFormat | tradeinterval/tradeinterval.go:76-97 | every interval Parse can produce is recovered from its digits followed by its unit letter |
| TradeInterval.ParseDefaults | tradeinterval/tradeinterval.go:84-94 | "" parses to 1 minute and "D" to 1 day |
| TradeInterval.ParseHourLetterIsMinutes | tradeinterval/tradeinterval.go:77-94 | an H after the number is ignored: "<n>H…" is n minutes |
| TradeInterval.ParseLowerCaseMonth | tradeinterval/tradeinterval.go:86-94 | "<n>m" is n months, not minutes |
| TradeInterval.ParseSpacedWeek | tradeinterval/tradeinterval.go:86-94 | "2 W" is 2 weeks |
| CryptoCompare.Open | cryptocompare/cryptocompare.go:61-68 | same length as the tick list; element i is tick i's open price |
| CryptoCompare.High | cryptocompare/cryptocompare.go:71-78 | same length; element i is tick i's high price |
| CryptoCompare.Low | cryptocompare/cryptocompare.go:81-88 | same length; element i is tick i's low price |
| CryptoCompare.Close | cryptocompare/cryptocompare.go:91-98 | same length; element i is tick i's close price |
| CryptoCompare.VolumeFrom | cryptocompare/cryptocompare.go:101-108 | same length; element i is tick i's volumefrom field, not volumeto |
| Series.Reverse | main.go:83-89 | same length; element k is element n-1-k of the input except a lone middle element, which is 0 |
| Series.ReversedShort | main.go:84-87 | the empty series reverses to empty, any one-element series to [0] |
| Series.ReversedFirst | main.go:85-86 | with two or more samples, element 0 of the reversal is the input's last element |
| Series.ReversedTwiceRestores | main.go:83-89 | reversing twice restores even-length series and those whose middle is already 0 |
| Series.ReversedTwiceLosesMiddle | main.go:84-87 | an odd-length series with a non-zero middle is not restored by reversing twice |
| ScriptState.State.Init | scriptstate/scriptstate.go:18-21 | both namespaces start empty |
| ScriptState.State.SetLua | scriptstate/scriptstate.go:29-31 | binds only Lua global `name`; the expression namespace is unchanged |
| ScriptState.State.SetExpr | scriptstate/scriptstate.go:34-36 | sets only expression variable `name`; the Lua globals are unchanged |
| ScriptState.State.SetAll | scriptstate/scriptstate.go:39-42 | both namespaces hold the value under `name`, all else unchanged |
| ScriptState.State.SetBoth | scriptstate/scriptstate.go:45-48 | the expression value and the Lua value are bound under `name`, all else unchanged |
| ScriptState.State.EvalExpr | scriptstate/scriptstate.go:51-61 | a parse error gives (nil, error) without reading the namespace; otherwise the evaluator's pair over the current namespace |
| ScriptState.State.EvalLua | scriptstate/scriptstate.go:64-66 | the Lua run over the current globals |
| ScriptState.ParseErrorIgnoresVariables | scriptstate/scriptstate.go:52-55 | a parse failure's outcome is the same for every namespace |
| ScriptState.ParsedIsEvaluated | scriptstate/scriptstate.go:56-60 | a parsed expression gets exactly the evaluator's value and error |
| Indicators.ClassifyKindName | main.go:195-261 | each type string selects its own library function |
| Indicators.ClassifySelectsByName | main.go:195-261 | only a function's own type string selects it |
| Indicators.ClassifyUnknown | main.go:195-262 | a type string outside the table selects nothing |
| Indicators.ProcessIndicators | main.go:191-265 | an unknown type yields no outputs and no labels; a known type that has its parameters yields one to three outputs, with either one label per output or no labels at all; each type's case is stated in the Process lemmas below |
| Indicators.ProcessUnknown | main.go:191-265 | an unknown type yields no outputs and no labels |
| Indicators.ProcessCrashes | main.go:196-260 | a known type crashes exactly when it has fewer parameters than its function reads (3 for stochrsi, stoch and macd, none for obv, 1 otherwise) |
| Indicators.ProcessCloseAverages | main.go:196-219 | sma, ema, dema, tema, wma, rsi: one output from the close series and the first parameter, labelled "" |
| Indicators.ProcessStochastics | main.go:220-227 | stochrsi (close) and stoch (high, low, close): two outputs labelled "_K", "_D" |
| Indicators.ProcessMacd | main.go:228-231 | macd: three outputs from the close series labelled "", "_Sig", "_Hist" |
| Indicators.ProcessUnlabelled | main.go:232-261 | mom, mfi, adx, roc, obv, atr, natr, linearreg, max, min: one output from their input series and no label |
| Indicators.LabelsCoverOutputs | main.go:195-264 | every output has a label iff the type is not one of those ten; for those, fewer labels than outputs |
| Indicators.ShapeIgnoresData | main.go:191-265 | the branch taken, the output count and the labels do not depend on the prices or the library |
| Indicators.OpenIsNeverRead | main.go:195-261 | the open series is never passed to the library |
| Watchers.ExecuteWatcher | main.go:154-189 | the outcome is the Verdict over the store with `alert` bound; `alert` is bound in Lua only on the Lua path; the expression namespace is unchanged |
| Watchers.VerdictMessage | main.go:157-159 | the message is the watcher's name in every case, and no source or values are set |
| Watchers.LuaTakesPrecedence | main.go:161-186 | with a Lua script, the expression text and namespace play no part |
| Watchers.LuaFires | main.go:161-174 | a Lua run without error fires iff the last `alert` argument was true |
| Watchers.LastCallCounts | main.go:162-171 | alert(true) then alert(false) does not fire; no call does not fire |
| Watchers.ExprFires | main.go:175-185 | an expression without error fires iff its value is the boolean true |
| Watchers.CodeOnlyWhenFired | main.go:171-185 | the code is empty unless it fires; then it is the Lua script if there is one, else the expression |
| Watchers.NoScriptNeverFires | main.go:155-188 | with neither script nor expression the watcher does not fire and does not fail |
| Watchers.FatalIff | main.go:165-181 | the program ends exactly when the interpreter in use reports an error |
| Debounce.Cache.constructor | main.go:73 | every key reads 0 |
| Debounce.Cache.Record | main.go:400-421 | send iff fired with the counter at 0 (a missing key reads 0); a fired verdict increments the counter, a quiet one resets it to 0; every other key keeps its count |
| Debounce.Cache.RecordAll | main.go:400-421 | recording one key's verdicts over consecutive cycles sends exactly what `Replay` says from the key's starting count, leaves the count `LastCount` gives (the length of the final run of fired cycles) and keeps every other key's count |
| Debounce.ReplaySnoc | main.go:400-421 | one more cycle appends its own send (it fired and the counter was 0) and increments or resets the final count |
| Debounce.ReplayAt | main.go:400-421 | over consecutive cycles, cycle i sends iff it fired and the cycle before did not (cycle 0: iff the counter started at 0) |
| Debounce.ReplayCountsRuns | main.go:400-421 | the number of notifications for a key equals the number of maximal runs of fired cycles |
| Debounce.ReplayQuietWhilePositive | main.go:402 | with a positive counter nothing is sent |
| Cycle.Ticks | main.go:288-299 | the history query follows the parsed interval text: n minutes below 60 ask the minute history for n, from 60 on the hour history for n/60 (truncated); n days, weeks or months ask the day history for n, 7×n or 30×n; this covers every unit Parse can yield |
| Cycle.AttachValues | main.go:386-389 | the source's loop computes Attach: one entry per key, or none when a key has no result |
| Cycle.AttachSucceeds | main.go:407-410 | values are attached iff every key has a non-empty result series (otherwise index -1 panics) |
| Cycle.AttachEntries | main.go:407-410 | the attached map has exactly the keys asked for, each mapped to the last element of its un-reversed result |
| Cycle.ExposeScalar | main.go:330-345 | SetAll of a descriptive value under the local name and under slug + "_" + name globally |
| Cycle.ExposeSeries | main.go:316-351 | results get the fetched series; expressions get element 0 of its reversal, Lua the whole reversal, locally and globally under slug + "_" + name |
| Cycle.MirrorStep | main.go:316-373 | binding x locally and slug_x globally keeps every local binding mirrored under its global name |
| Cycle.ApplyConcat | main.go:316-373 | publishing one list of bindings and then another is publishing their concatenation |
| Cycle.ApplyFrameGlobal | main.go:316-373 | a global name that no binding writes keeps its expression value, Lua value and result |
| Cycle.ApplyFrameLocal | main.go:316-373 | a local name that no binding writes keeps its expression value, Lua value and result |
| Cycle.ApplyLastWins | main.go:316-373 | the last binding of a name decides, locally under the name and globally under slug + "_" + name, the expression value, the Lua value and (for a series) the result |
| Cycle.PublishScalars | main.go:330-345 | coin, currency, interval and length are bound in that order as descriptive values, locally and globally, with no results written; the contexts are published |
| Cycle.PublishSeries | main.go:316-351 | one fetched series is appended to the bindings made so far: the results get it under its local and its global name and nothing else changes there; the contexts stay published |
| Cycle.PublishBase | main.go:316-351 | the contexts are the old global context and an empty local one with the base bindings applied in order (coin, currency, interval, length, then open, high, low, close, vol, each series as element 0 of its reversal, its reversal and itself); the local results are exactly the five fetched series; the contexts are published |
| Cycle.ExposeOutput | main.go:362-373 | one output bound under its label: the results get it un-reversed, expressions element 0 of its reversal and Lua the reversal, globally under slug + "_" + name and locally, and nothing else changes |
| Cycle.PublishOutputs | main.go:361-374 | one indicator's outputs: completes iff every output has a label and is non-empty, else crashes with MissingLabel or EmptySeries; on completion the contexts are the old ones with output i bound, in output order, under name + labels[i] (results the output, expressions element 0 of its reversal, Lua the reversal), locally and globally; the contexts stay published |
| Cycle.PublishIndicators | main.go:354-375 | completes iff every indicator has its parameters, a label per output and non-empty outputs, else crashes with BadParams, MissingLabel or EmptySeries; on completion the contexts are the old ones with every indicator's outputs bound in configuration order; the contexts stay published |
| Cycle.UnlabelledNeverSurvives | main.go:358-363 | any of the ten unlabelled types, given its parameters, crashes the indicator phase |
| Cycle.LabelledSurvives | main.go:358-363 | a labelled type with non-empty outputs passes the indicator phase |
| Cycle.ExposedNewest | main.go:309-351 | the expression value of a series of 2+ samples is its last element, the value notifications attach; of a 1-sample series it is 0 |
| Cycle.RunWatcher | main.go:395-421 | one watcher: its Verdict, the cache step for (scope, name), and the notification with source and attached values exactly when it fired with counter 0 |
| Cycle.SentFromNext | main.go:394-421 | a watcher that sends appends its notification and its index; one that does not leaves both lists as they were |
| Cycle.SteppedNext | main.go:398-421 | with distinct names, running watcher i steps its own counter and leaves the earlier watchers' counters and send decisions as they were |
| Cycle.RunWatchers | main.go:394-452 | every sent notification comes, in order, from a fired watcher at a strictly increasing index, with the scope's source and attached values; keys outside the scope are untouched; the phase crashes only at a watcher that can crash (its interpreter fails, or it fires and a value key has no result) and completes when none can; with distinct names it completes exactly when every watcher runs to completion from its starting counter, and then every watcher ran, sent iff it fired with its counter at 0, and its counter stepped as Record says |
| Cycle.PublishPair | main.go:276-375 | completes iff the fetched tick list is non-empty and every indicator survives (an empty one gives EmptySeries); on completion the global context and a fresh local one are the old global context with the pair's base and indicator bindings applied in order, and are published |
| Cycle.PairNotifiedJoin | main.go:377-421 | the update notification followed by the watchers' notifications is what the notification phase promises, and each carries the pair's source |
| Cycle.NotifyPair | main.go:377-422 | when the pair has update keys, first an "Update" notification with the pair's source and each key's newest result, or a MissingResult crash with nothing sent and no counter changed when a key has no result; then exactly the watchers' notifications, and the watcher phase ends as RunWatchers says (crash only at a watcher that can crash, completion when none can, every watcher stepped under distinct names); other keys' counters are untouched |
| Cycle.ProcessPair | main.go:276-423 | an empty tick list crashes with EmptySeries; a pair that does not publish crashes, sends nothing and changes no counter; otherwise, over the local context its bindings make on the old global context and a fresh local one, a missing update result crashes with nothing sent, and else the update notification comes first, then the watchers' notifications, with the watcher phase ending as RunWatchers says; every notification carries the pair's source; other keys' counters are untouched |
| Cycle.SourcesJoin | main.go:276-423 | appending one pair's notifications keeps every source among the configured pairs' labels |
| Cycle.SharedAfterStep | main.go:276-375 | one more publishing pair applies its bindings to the global context the earlier pairs left |
| Cycle.RunPairs | main.go:267-423 | one run per pair that ran, in configuration order: pair p ran as ProcessPair says, from the global context the pairs before it published and the counters the run before it left; every run but the last completed; a completed phase ran every pair, a crashed one stopped at the pair that crashed; the notifications are the runs' notifications one after the other and the counters those the last run left; on completion the global context and results are those all the pairs' bindings make, in order; only the pairs' watcher keys change |
| Cycle.PairCrashReason | main.go:276-423 | a pair crashes only when it can: it does not publish, an update key has no result, or one of its watchers can crash over its local context; a pair that cannot crash completes |
| Cycle.PairsCrashAt | main.go:276-423 | a crashed pair phase stopped at the last pair that ran, every earlier pair published, and that pair can crash over the global context they left |
| Cycle.PairsComplete | main.go:276-423 | when no pair can crash over the global context the pairs before it left, the pair phase completes |
| Cycle.RunsSources | main.go:276-423 | every notification of the pair runs carries the label of a configured pair |
| Cycle.RunsKeys | main.go:276-423 | the pair runs leave every key outside the pairs' watcher keys at its starting count |
| Cycle.PairsRanStep | main.go:276-423 | a run of the next pair from the global context the earlier pairs published and the counters the last run left extends the runs so far |
| Cycle.PhaseNext | main.go:276-423 | a completed run of the next pair appends its notifications, its counters and its bindings on the global context to a pair phase so far |
| Cycle.PhaseCrash | main.go:276-423 | a crashed run after completed ones ends the pair phase with the runs' notifications and counters, every source a pair's label and only the pairs' keys changed |
| Cycle.RunPair | main.go:276-423 | one turn of the pair loop: the pair's run extends the phase so far, or ends it when it crashes |
| Cycle.MainLoop | main.go:267-453 | the pair notifications come first, as the pair runs of RunPairs; the global watchers run exactly when every pair completed, over the global context all pairs published and from the counters the pairs left, and their phase ends as RunWatchers says (crash only at a global watcher that can crash, completion when none can, every global watcher stepped under distinct names); each later notification comes, in order, from a fired global watcher with an empty source and values from the global results; only the configured watcher keys' counters change |

## Left out

- The HTTP queries `query`, `Histoday`, `Histohour` and `Histominute`, and JSON decoding (cryptocompare/cryptocompare.go:43-58, 111-171). These are network I/O. The cycle gets the tick list from a `Fetcher` function of the query's arguments.
- Delivery of notifications: `sendNotification`, `notifyTelegram` (main.go:130-152) and the notifiers package. These are network and console I/O. `MainLoop` returns the notifications in send order.
- `notification.format` (main.go:91-128). It depends on float formatting, `strings.Title` and Go's random map iteration order.
- Configuration loading and `main` (main.go:455-522): file and YAML/JSON I/O, the ticker, the goroutine and the channels. The `results` channel of `mainLoop` is never written and is not modelled.
- The technical-analysis numerics (main.go:197-260). These are floating point in a foreign library. `TaLib` is an oracle indexed by function, inputs, parameters and output number. `TaLib` is total, so go-talib's own index panics (for example a period longer than the series) are not modelled.
- govaluate and gopher-lua (scriptstate/scriptstate.go:52-65). These are foreign interpreters and are oracles here. A Lua chunk cannot change globals or call anything but `alert` in this model. luar passes the series slices by reference, and the same slice is bound in the local and the global Lua state, so a local chunk that wrote into a series would change what later chunks and the global watchers see; the model treats bound series as values. The Lua standard-library globals are not modelled. The `lua` map holds only what the store binds.
- `State.Close` (scriptstate/scriptstate.go:24-26) and the deferred closes in `mainLoop` (main.go:274, 286). They only release interpreter resources, and the model has none.
- Timestamps (`time.Now`, main.go:158, 380).
- `log.Fatal` and panics are not modelled as process exit. They end the cycle with `Crashed`. On a crash, the contracts say only that every notification returned came from a fired watcher. They do not say which of the watchers before the crashing one stepped and sent, nor what partial writes the crash leaves in the cache or the contexts. In the source the process ends while the notification goroutines are still running.
- Debounce.Cache.Record: the counter is an unbounded `nat`, so the `uint64` wrap-around after 2^64 consecutive fired cycles is not modelled.
- TradeInterval.MinHourDay: `Num * 7` and `Num * 30` are unbounded; 64-bit overflow is not modelled. TradeInterval.Seconds likewise has no overflow.
- TradeInterval.Parse: upper-casing is modelled for ASCII letters only. No other character upper-cases to a digit, a `\s` character or D/W/M, so the parsed interval does not depend on this.
- Cycle.PublishBase: the model writes each global binding next to its local twin, and the descriptive values before the series. The source does the result maps first, then all global bindings, then all local ones. These are writes to distinct maps in the same per-map order, so the final contents are the same. A pair with no ticks crashes before any write. The source writes the results and the descriptive values, then panics at `rOpen[0]` (main.go:335); the difference cannot be observed once the cycle has ended.
- Cycle.ProcessPair: the local context, the local results and the indices of the sending watchers are ghost outputs. In the source they are locals of `mainLoop`.
- Cycle.MainLoop: the pair runs, the global context and results the global watchers saw, and the indices of the sending global watchers are ghost outputs.
- Cycle.RunWatchers: when two watchers of one scope share a name, one key steps twice in a cycle. The exact completion condition and the counter clause are then not stated; the crash, notification and frame clauses still hold.
- Go passes `ss.State` to `executeWatcher` by value. Its map and Lua state are references, so the binding of `alert` reaches the caller's store. The model passes the same object.
- Prices are `real`. Values are only moved and compared, never computed on, so float64 rounding does not matter.
