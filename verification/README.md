# Trading bot decision core, in Dafny

This project models the decision engine of a single-pair spot trading bot.
It covers four parts of the bot:

- **Indicators** (`TechnicalAnalysis`, `technical_analysis.dfy`): RSI, EMA, MACD, the volume-peak flag and the trend-strength score, as pure functions over `seq<real>`.
- **Position manager** (`PositionManager`, `position_manager.dfy`): the `positions`, `profitLocks` and `scaleInAttempts` maps and the seven operations on them. These are open, trailing-stop update, close, scale-in check, scale-in, scale-out check and scale-out. Each operation returns the new manager together with the source's return value.
- **Entry gate and scheduler bodies** (`TradingBot`, `trading_bot.dfy`): the checks in `executeTrade` and the fusion predicate, run in source order. Also the per-minute loop that ticks every open position, and the midnight reset of the daily counter. Exchange answers and clock readings are parameters (`Observed`).
- **Analyst text classifiers** (`AIAnalysis`, `ai_analysis.dfy`): `extractSentiment`, `extractTrend`, `extractConfidence` and `parseAnalysis`. The confidence regular expression is modelled character by character, including JavaScript's `\s` set and greedy matching.

`options.dfy` holds `Option`, which stands for the source's `null`/`false` results. `real_arith.dfy` holds small facts about real multiplication and division.

Prices, quantities and percentages are exact reals. Integers are unbounded.

## Behaviour of the code that is easy to misread

- `calculateRSI` averages the **first** `period` deltas of the array it is given (samples `0..period`). `RsiIgnoresAppendedPrices` proves that once `period + 1` samples exist, appending newer prices never changes the RSI.
- `scaleIn` does not check `maxScaleInAttempts`: a call past the cap still succeeds and the counter goes above the cap (`ScaleInIgnoresCap`). Only `canScaleIn` reads the cap.
- `scaleOut` never records the level it served, so the same level fires again on the next check (`ScaleOutRetriggers`). A scale-out of 100% leaves a position of quantity 0 in the map; it is not closed.
- `openPosition` does not reset the scale-in counter of its id.
- `calculateEMA`, `detectVolumePeak` and `calculateTrendStrength` accept inputs shorter than their window. `slice` then returns fewer samples, and the sum is still divided by the full window length (10, 20, 50 or `period`). The model keeps these short inputs.
- `executeTrade` reports nothing to its caller; each early `return` is modelled as a distinct `Reason`. A `null` analyst result reaches `ai.sentiment`, which throws; the `catch` absorbs it, and the model reports that path as `SignalUnavailable`.

## Model

| member | source | states |
|---|---|---|
| TechnicalAnalysis.Gains | src/technical_analysis.js:8-12 | the accumulated rises of the first n deltas are never negative |
| TechnicalAnalysis.Losses | src/technical_analysis.js:8-12 | the accumulated falls, counted as a positive amount, are never negative |
| TechnicalAnalysis.LossesZeroIff | src/technical_analysis.js:8-17 | the losses of the first n deltas are zero exactly when none of those deltas is negative |
| TechnicalAnalysis.CalculateRSI | src/technical_analysis.js:2-20 | RSI lies in [0,100]; it is 50 when fewer than period+1 samples exist; with enough samples it is 100 exactly when no delta among samples 0..period is a loss |
| TechnicalAnalysis.RsiIgnoresAppendedPrices | src/technical_analysis.js:3-12 | once period+1 samples exist, appending any newer prices leaves the RSI unchanged (the oldest window is used) |
| TechnicalAnalysis.RsiIsGainShare | src/technical_analysis.js:14-19 | with at least one loss, `100 - 100/(1+rs)` equals `100 * gains / (gains + losses)` |
| TechnicalAnalysis.CalculateEMA | src/technical_analysis.js:22-31 | the EMA itself (no contract of its own); its properties are stated by EmaWithinRange, EmaOfConstant, EmaSeed and EmaOfPaddedValue |
| TechnicalAnalysis.EmaWithinRange | src/technical_analysis.js:22-31 | with at least `period` samples, the EMA lies within any range that holds every sample |
| TechnicalAnalysis.EmaOfConstant | src/technical_analysis.js:22-31 | the EMA of a constant series of at least `period` samples is that constant |
| TechnicalAnalysis.EmaSeed | src/technical_analysis.js:23-24 | with exactly `period` samples the EMA is their mean; with fewer, EMA times `period` is still their sum |
| TechnicalAnalysis.CalculateMACD | src/technical_analysis.js:33-46 | no result exactly when the series is shorter than slow+signal; otherwise the MACD line is EMA(fast) - EMA(slow) of the prices and histogram = macd - signal |
| TechnicalAnalysis.MacdOfConstant | src/technical_analysis.js:33-46 | a flat series long enough for both averages gives MACD line, signal and histogram all 0 |
| TechnicalAnalysis.EmaOfPaddedValue | src/technical_analysis.js:22-31 | the EMA of n zeros followed by x is `x * 2/(p+1)` when n >= p and `x / p` otherwise |
| TechnicalAnalysis.MacdSignalClosedForm | src/technical_analysis.js:38-39 | the zero-padded signal line equals `macd * 2/(signal+1)` when slow - signal >= signal, else `macd / signal` |
| TechnicalAnalysis.MacdDefaults | src/technical_analysis.js:33-44 | with periods 12/26/9 the signal is macd/5 and the histogram 4/5 of macd |
| TechnicalAnalysis.DetectVolumePeak | src/technical_analysis.js:48-52 | for non-negative volumes, a peak exactly when the sum of the last ten volumes divided by 10 is positive and the latest volume reaches threshold times it |
| TechnicalAnalysis.CalculateTrendStrength | src/technical_analysis.js:54-65 | the score is one of 0, 0.3, 0.4, 0.6, 0.7, 1.0, and it is 1.0 exactly when price > sma20, price > sma50 and sma20 > sma50 |
| TechnicalAnalysis.TrendStrengthAboveGate | src/technical_analysis.js:59-64 | the score exceeds 0.6 exactly when price > sma20 and one of the other two checks holds |
| PositionManager.OpenPosition | src/position_manager.js:9-19 | the new position has the given size and entry, highest = entry, stop = entry*(1 - initialStopLoss/100), no levels taken; counters and other orders untouched |
| PositionManager.Ratchet | src/position_manager.js:26-30 | stop and high never decrease; a price not above the high changes nothing; a new high becomes the high, and the stop becomes the larger of the old stop and the trailing stop below the new high |
| PositionManager.UpdatePosition | src/position_manager.js:21-38 | unknown id: nothing changes, no result; a close result exactly when the price is at or below the ratcheted stop, with the position and its counters removed; otherwise the ratcheted position stays; other orders untouched |
| PositionManager.ClosePosition | src/position_manager.js:40-55 | profit = (exit - entry) * quantity; the id leaves positions, profitLocks and scaleInAttempts; unknown id: no result, nothing changes |
| PositionManager.CloseIsIdempotent | src/position_manager.js:40-42 | a second close of the same id returns nothing and changes nothing |
| PositionManager.UpdateRatchetsUp | src/position_manager.js:26-30 | a position left open by an update has a stop and high at least as large as before, and is unchanged when the price is not above the high |
| PositionManager.CanScaleIn | src/position_manager.js:57-66 | false for an unknown id or when attempts reach the cap; otherwise true exactly when the percentage change from entry is at most -scaleInDip |
| PositionManager.CanScaleInThreshold | src/position_manager.js:64-65 | for a positive entry, the percentage test is the price test `price <= entry * (1 - scaleInDip/100)` |
| PositionManager.ScaleIn | src/position_manager.js:68-80 | succeeds exactly for a known id; attempts +1, quantity is the sum, total cost entry*quantity is conserved; unknown id changes nothing |
| PositionManager.ScaleInAveragesEntry | src/position_manager.js:75-77 | with positive sizes, the new entry lies between the old entry and the added price |
| PositionManager.ScaleInIgnoresCap | src/position_manager.js:61-73 | when `canScaleIn` refuses for the cap, `scaleIn` still succeeds and the counter exceeds the cap |
| PositionManager.FirstDue | src/position_manager.js:87-88 | the first index, in configuration order, whose level is reached by the profit and not recorded as taken; none when no level qualifies |
| PositionManager.IndexOf | src/position_manager.js:92 | the first index holding the value |
| PositionManager.ShouldScaleOut | src/position_manager.js:82-94 | a signal names the first due level in configuration order, non-zero, with the percentage at the same index; unknown id gives none |
| PositionManager.ShouldScaleOutNoneIff | src/position_manager.js:86-93 | with no zero level, a known position gets no signal exactly when no level is due |
| PositionManager.ScaleOut | src/position_manager.js:96-104 | removes quantity*percentage/100; removed + remaining = original; nothing else changes, taken levels included; unknown id gives none |
| PositionManager.ScaleOutRetriggers | src/position_manager.js:82-104 | right after a scale-out, the same price yields the same scale-out signal |
| PositionManager.StopBelowWithin | src/position_manager.js:10 | for a percentage in [0,100], the stop below a non-negative price lies in [0, price] |
| PositionManager.ApplyPreservesInv | src/position_manager.js:9-104 | with both stop percentages in [0,100], every well-formed call (positive size and price for open and scale-in, a scale-out below 100%; update and close unrestricted) keeps positive size and entry, 0 <= stop <= high, and no counter without its position |
| PositionManager.RunPreservesInv | src/position_manager.js:9-104 | any sequence of well-formed calls keeps that invariant |
| PositionManager.TrailingStopScenario | src/position_manager.js:9-37 | open at 100 with 5% stop gives stop 95; tick 110 with 3% trailing gives stop 106.7; tick 105 closes with profit 5 |
| PositionManager.OpenThenStopOut | src/position_manager.js:9-37 | right after opening, a tick at or below the initial stop closes at that price with profit (price - entry) * quantity |
| AIAnalysis.SaysIff | src/ai_analysis.js:55-57 | searching the lower-cased text finds a keyword exactly when the text writes it somewhere in some ASCII letter case |
| AIAnalysis.ExtractSentiment | src/ai_analysis.js:54-59 | bullish exactly when "bullish" is written somewhere in any ASCII case; bearish exactly when "bearish" is and "bullish" is not; neutral exactly when neither is |
| AIAnalysis.ExtractTrend | src/ai_analysis.js:61-66 | up exactly when "upward" or "up trend" is written; down exactly when downward phrasing is and upward phrasing is not; sideways exactly when none of the four is |
| AIAnalysis.BullishWins | src/ai_analysis.js:54-56 | "bullish" in any letter case anywhere makes the sentiment bullish, whatever else the text says |
| AIAnalysis.BearishWithoutBullish | src/ai_analysis.js:57-58 | "bearish" in a text without "bullish" makes the sentiment bearish |
| AIAnalysis.ClassifiersIgnoreCase | src/ai_analysis.js:54-66 | ASCII upper- or lower-casing of the text changes neither sentiment nor trend |
| AIAnalysis.UpwardWins | src/ai_analysis.js:61-63 | "upward" or "up trend" anywhere makes the trend up, even next to downward phrasing |
| AIAnalysis.DownwardWithoutUpward | src/ai_analysis.js:64-65 | "downward" or "down trend" without upward phrasing makes the trend down |
| AIAnalysis.SkipSpaces | src/ai_analysis.js:69 | the greedy `\s*` stops at the first character that is not regex white space, having passed only white space |
| AIAnalysis.DigitRun | src/ai_analysis.js:69 | the greedy `\d+` stops at the first non-digit, having passed only digits |
| AIAnalysis.MatchAt | src/ai_analysis.js:69 | a match captures a non-empty run of decimal digits |
| AIAnalysis.FirstMatch | src/ai_analysis.js:69 | no result exactly when the pattern matches nowhere; otherwise the match at the leftmost index where the pattern matches, as `match` returns it |
| AIAnalysis.LeftmostMatch | src/ai_analysis.js:69 | a match at index b with no match between i and b is exactly what the search from i reports |
| AIAnalysis.FractionValue | src/ai_analysis.js:70 | `0.<digits>` lies in [0, 1) |
| AIAnalysis.FractionIsScaledNumber | src/ai_analysis.js:70 | `0.<digits>` equals the whole number spelled by the digits over 10^(number of digits) |
| AIAnalysis.ExtractConfidence | src/ai_analysis.js:68-71 | 0.5 when no `confidence: 0.<digits>` occurs; otherwise a value in [0, 1), which ConfidenceRoundTrip pins to the first stated digits |
| AIAnalysis.ConfidenceRoundTrip | src/ai_analysis.js:68-71 | in any text where the label (any case), white space, `0.` and a digit run not continued by the next character appear, with no match earlier in the text, the confidence is exactly those digits as a fraction |
| AIAnalysis.ParseAnalysis | src/ai_analysis.js:36-47 | the record holds the three extractor results on the same text and the text itself; its confidence lies in [0, 1) |
| TradingBot.ShouldTrade | src/index.js:172-176 | the fusion condition itself (no contract of its own): bullish, confidence above 0.7, trend strength above 0.6, RSI strictly between 30 and 70; its effect on the gate is stated by ExecuteTrade, GateScenario and DefaultConfidenceNeverEnters |
| TradingBot.ExecuteTrade | src/index.js:133-196 | an entry happens exactly when all admission checks pass, the analysis is present and passes the fusion predicate, the investment is at least 10 and the order is placed; it opens exactly that position, adds 1 to the daily count and sets the last trade time; every other path changes nothing |
| TradingBot.NotionalIsInvestment | src/index.js:179-182 | over exact reals the order value `investment / price * price` is the investment |
| TradingBot.ReasonsInOrder | src/index.js:133-185 | for each of the nine refusal reasons: it is reported exactly when every earlier check passed and its own check failed |
| TradingBot.DailyLimitKept | src/index.js:133-136 | starting at or below the daily limit, the counter stays at or below it |
| TradingBot.CooldownKept | src/index.js:138-142 | an entry happens only when no earlier entry exists or at least 300000 ms have passed |
| TradingBot.DefaultConfidenceNeverEnters | src/index.js:172-176 | an analyst text with no stated confidence gets 0.5, which never enters |
| TradingBot.GateScenario | src/index.js:172-176 | bullish, confidence 0.8, trend strength 0.7, RSI 50 enters when admitted; with RSI 25 it is refused as no signal |
| TradingBot.ResetDaily | src/index.js:250-253 | the daily counter becomes 0; the last trade time and positions are kept |
| TradingBot.ResetReopensGate | src/index.js:250-252 | after the reset, a positive daily limit never refuses |
| TradingBot.Closing | src/index.js:231-233 | the listed ids are exactly the ids whose position the tick closes, and any two of them appear in the same order as in the iteration order |
| TradingBot.ManagePositions | src/index.js:231-241 | one sell per closing position (no id sold twice), in iteration order, for that position's quantity; the positions left are exactly those not stopped out, each ratcheted; closed ids lose their counters; positions left open keep their scale-in attempts and profit-lock entries; the daily counters are untouched |

## Left out

- Exchange and network I/O (`syncTime`, `start`, `ping`, `exchangeInfo`, `accountInfo`, `ticker24hr`, `candles`, `prices`, `order`): their results are the `Observed` parameters. An exception from the balance or ticker calls is not modelled. A failed buy order is modelled (`OrderFailed`).
- A failing sell order in the per-minute loop aborts the remaining iterations in the source; the model assumes every sell call returns.
- Interleaving: the per-minute loop awaits each sell (src/index.js:234). During that wait the hourly job can open a position, which the running `for...of` then visits, and an overlapping per-minute run can tick the same ids. `ManagePositions` treats one run as atomic over a fixed `ids` list.
- ExecuteTrade: one run is treated as atomic, although the source awaits three exchange calls (`accountInfo`, `ticker24hr`, `order`; src/index.js:146, 155, 187) between reading `dailyTrades` and `lastTradeTime` (src/index.js:133, 139) and writing them (src/index.js:195-196). The hourly job and the midnight reset are timer callbacks that do not wait for an earlier run, so two overlapping runs can both pass the limit and cooldown checks and both count, and a reset landing mid-run can charge a pre-midnight trade to the new day. DailyLimitKept and CooldownKept hold for runs that do not overlap.
- The OpenAI call in `analyzeMarket`: nondeterministic foreign call; the gate receives its parsed result, or `None`. A `null` message content is not modelled.
- `analyzeMarket`'s assembly of indicators from candles, cron timing, signal handlers, `process.exit`, configuration loading and logging.
- Floating point: prices are exact reals. `toFixed(6)` rounding of the quantity and its string type are left out, and so are rounding artefacts such as `0.4 + 0.3` and `parseFloat` rounding. NaN and infinities are left out except in `DetectVolumePeak`, whose zero-average case follows IEEE division.
- JavaScript falsiness of `lastTradeTime = 0`: the model uses `Option`, so a recorded time of 0 still counts as a previous trade.
- Iteration order of the positions map: passed to `ManagePositions` as the duplicate-free `ids` list.
- Case folding: `ToLower` folds ASCII letters only. The keywords are ASCII. Two non-ASCII capitals lower-case to text containing an ASCII letter in JavaScript: U+0130 becomes `i` followed by a combining mark, which cannot complete a keyword, and U+212A KELVIN SIGN becomes `k`, which no keyword contains. So `toLowerCase` finds the same keywords as the model.
- ClassifiersIgnoreCase: states invariance under ASCII upper- and lower-casing only. JavaScript's `toUpperCase` also maps non-ASCII letters onto ASCII ones (U+0131 to `I`, U+017F to `S`), so "bullıſh" is neutral while its JavaScript upper case "BULLISH" is bullish; that case change is not covered.
- The regular expression's case-insensitive mode affects only the ASCII letters of `confidence:`. That matches JavaScript's non-Unicode canonicalisation.
- CalculateRSI: requires `period > 0`; the source's `period = 0` divides zero by zero (NaN).
- CalculateEMA: requires non-empty prices and `period > 0`; `reduce` without an initial value throws on an empty slice.
- CalculateMACD: requires positive periods and `slow >= signal`; `Array(slow - signal)` throws for a negative length.
- DetectVolumePeak: requires a non-empty series (`reduce` throws otherwise).
- CalculateTrendStrength: requires a non-empty series (`reduce` throws otherwise).
- CanScaleIn: requires a non-zero entry price for a known id, because division by zero gives IEEE infinities.
- ShouldScaleOut: requires a non-zero entry price, for the same reason. It also requires at least as many percentages as levels (a missing percentage is `undefined` in the source). The loaded configuration never defines these two lists, so the source call would throw; the model takes them as configuration.
- ScaleIn: requires the old plus the added quantity to be non-zero, because the weighted average divides by it.
- ExecuteTrade: requires a non-zero current price; the quantity divides by it.
