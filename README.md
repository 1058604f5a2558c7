# Trading signal bot — a Dafny model

This project models the decision core of a small trading-signal bot. In each pass the bot visits twelve instruments, then sleeps four hours before the next pass; passes are therefore four hours plus the pass's own sleeps apart. For each instrument it:

1. fetches recent bars from a quote service and normalises them into a clean, time-ordered frame (`obtener_datos`);
2. adds technical indicators to that frame (`calcular_indicadores`): a fast and a slow EMA, a 14-period RSI and a 14-period ATR;
3. decides whether to emit a BUY or SELL signal (`evaluar_estrategia`). Four gates come first: enough rows, all required columns, a breakout of the Asian, London or US session range by the last close, and the classifier's confidence. Then there are two directional rules with ATR-based stop-loss and take-profit levels.

All requests go through a rate limiter (`APIRateLimiter`). Each instrument's evaluation makes at most three attempts, that is at most two retries, when it raises (`evaluar_activo`). One pass of the monitoring loop collects the instruments without a signal and reports them (`monitorear`).

Modules, in dependency order:

| file | module | models |
|---|---|---|
| `frames.dfy` | `Frames` | the data frame: named columns, rows with a minute timestamp, cells that hold a number, NaN or unparsed text; ASCII lower-casing of column names |
| `indicators.dfy` | `Indicators` | `indicadores_tecnicos.py`: EWM recurrence, EMA, RSI, true range, ATR, and `calcular_indicadores` on frames |
| `strategy.dfy` | `Strategy` | `estrategia_trading.py`: session windows, breakouts, confidence, rules, `evaluar_estrategia` |
| `providers.dfy` | `DataProviders` | `data_providers.py`: the key check and the normalisation of a decoded reply |
| `config.dfy` | `Config` | `config_activos.py`: model path, pause, threshold, the ordered instrument list |
| `bot.dfy` | `Bot` | `bot_trading_pro_2.py`: the rate limiter (a class), the retry loop, one monitoring cycle |

Modelling choices:

- Prices are `real`. Clock readings (`time.time()`) are `real` seconds passed in as parameters. Bar timestamps are `int` minutes, and the time of day is the timestamp modulo 1440.
- `between_time` includes both ends. So a bar at 06:00 belongs to both the Asian and the London window, a bar at 12:00 belongs to London, and bars strictly between 12:00 and 13:00 belong to no window.
- The classifier is a value: its class labels plus a `predict_proba` function that either raises or gives a probability vector.
- The quote service's reply is a value:
  - `Unreadable` stands for a request or JSON-decoding exception;
  - otherwise a decoded object with an optional `status` and optional `values` records.

  Each text field is abstracted as its float reading and its datetime reading; either may fail.
- `obtener_datos` changes its frame step by step, so it is a method (`DataProviders.ObtenerDatos`). Its coercion loop is the `for` loop of `DataProviders.CoercePrices`. The method is proved equal to the function `Normalise`, and the properties the bot relies on are proved about that function.
- `APIRateLimiter` is a class with the source's four fields. `check_limit` is a method proved against the step function `LimitStep`.
- `evaluar_activo` retries by self-recursion. It is modelled twice:
  - the recursive function `Retry`, over the outcomes of the three attempts;
  - the bounded `while` loop in `RunAttempts`, proved equal to `Retry`.

  `AttemptOn` gives the outcome of one attempt: fetch, normalise, the soft checks, indicators, then the strategy. `Outcomes` lists the three outcomes for three replies. The loop and the cycle take these outcomes as inputs.
- `monitorear`'s loop body is the method `Visit`. The pass over all instruments is the method `MonitorCycle`, proved equal to the recursive function `CycleFrom`.

## Model

| member | source | states |
|---|---|---|
| Frames.TimeOfDay | estrategia_trading.py:36-46 | the hour-of-day reading of a bar's timestamp lies in [0, 1440) minutes |
| Frames.SeqMax | estrategia_trading.py:37 | the column maximum bounds every element and is one of them |
| Frames.SeqMin | estrategia_trading.py:37 | the column minimum bounds every element and is one of them |
| Frames.LowerIsLower | indicadores_tecnicos.py:32 | lower-casing a name gives a lower-case name |
| Frames.LowerOfLower | indicadores_tecnicos.py:32 | lower-casing an already lower-case name leaves it unchanged |
| Frames.LowerKeys | data_providers.py:50 | renaming keys to lower case keeps every value under the renamed key |
| Frames.LowerNamesAllLower | data_providers.py:50 | every renamed column name is lower-case |
| Frames.LowerFrame | indicadores_tecnicos.py:32 | `df.columns = [col.lower() ...]`: names become lower-case, rows and stamps are kept, each cell moves to its lower-cased column |
| Frames.WithColumn | indicadores_tecnicos.py:35-38 | assigning a column adds its name and writes its value into each row, keeping the row's stamp |
| Frames.LowerFrameOfLowerNames | indicadores_tecnicos.py:32 | lower-casing a frame whose names are already lower-case changes nothing |
| Indicators.Alpha | indicadores_tecnicos.py:4 | the smoothing factor 2/(span+1) of `ewm(span=...)` lies in (0, 1] |
| Indicators.Ewm | indicadores_tecnicos.py:4 | `ewm(adjust=False).mean()` has the input's length and starts at the first input |
| Indicators.EwmFromStep | indicadores_tecnicos.py:4 | each output is the previous output plus alpha times the input's distance from it |
| Indicators.EwmRecurrence | indicadores_tecnicos.py:4 | every later EWM value is y[t-1] + alpha*(x[t] - y[t-1]) |
| Indicators.ConvexStep | indicadores_tecnicos.py:4 | one smoothing step with alpha in [0,1] stays between bounds that hold for its two operands |
| Indicators.EwmWithin | indicadores_tecnicos.py:4 | an EWM value lies within any bounds that hold for the inputs seen so far |
| Indicators.EwmNonNegative | indicadores_tecnicos.py:28 | non-negative inputs give a non-negative EWM |
| Indicators.Ema | indicadores_tecnicos.py:3-4 | `calcular_ema` has the length of its input |
| Indicators.EmaDefinition | indicadores_tecnicos.py:3-4 | EMA starts at the first input and then follows the recurrence with alpha = 2/(periodo+1) |
| Indicators.EmaWithinSeenRange | indicadores_tecnicos.py:3-4 | each EMA value lies between the minimum and maximum of the inputs up to it |
| Indicators.EmaOfConstant | indicadores_tecnicos.py:3-4 | a constant series has a constant EMA |
| Indicators.GainLossSplit | indicadores_tecnicos.py:7-9 | gain and loss are non-negative, at most one is non-zero, both are 0 on the first bar, and gain minus loss is the price change |
| Indicators.AvgGain | indicadores_tecnicos.py:12 | the smoothed gain (alpha = 1/periodo) is non-negative |
| Indicators.AvgLoss | indicadores_tecnicos.py:13 | the smoothed loss is non-negative |
| Indicators.Rsi | indicadores_tecnicos.py:6-16 | `calcular_rsi` has the length of its input |
| Indicators.RsiQuotient | indicadores_tecnicos.py:15-16 | with a positive loss, 100 - 100/(1 + g/l) equals 100g/(g+l) and lies in [0, 100) |
| Indicators.RsiRange | indicadores_tecnicos.py:12-16 | RSI is in [0,100) when the average loss is positive, exactly 100 when only the gain is positive, and undefined (NaN) when both are 0 |
| Indicators.RsiAsShare | indicadores_tecnicos.py:12-16 | RSI is the gain's share of gain plus loss, times 100, and undefined when both are 0 |
| Indicators.RsiFirstBarUndefined | indicadores_tecnicos.py:7-16 | the first bar's RSI is NaN, since its change is filled with 0 |
| Indicators.TrueRange | indicadores_tecnicos.py:23-27 | the true range has one value per bar |
| Indicators.TrueRangeBounds | indicadores_tecnicos.py:23-27 | the first bar's true range is exactly high - low; every bar's is at least high - low and, after the first bar, at least each gap to the previous close; it is one of the three; it is non-negative when high >= low |
| Indicators.Atr | indicadores_tecnicos.py:18-28 | `calcular_atr` has one value per bar |
| Indicators.AtrFactor | indicadores_tecnicos.py:28 | ATR smooths with 2/15, not RSI's 1/14 |
| Indicators.AtrNonNegative | indicadores_tecnicos.py:18-28 | ATR is non-negative when every bar has high >= low |
| Indicators.NumCells | indicadores_tecnicos.py:35-38 | a computed series becomes one number cell per bar |
| Indicators.RsiCells | indicadores_tecnicos.py:37 | an RSI series becomes cells, NaN where RSI is undefined |
| Indicators.AddIndicators | indicadores_tecnicos.py:30-40 | `calcular_indicadores` succeeds exactly when the lower-cased names include close, high and low; then the names are the lower-cased ones plus ema_rapida, ema_lenta, rsi and atr, holding EMA(25), EMA(50), RSI(14) and ATR(14) of the price columns, and every other column keeps its values |
| Indicators.LowerFramePrices | indicadores_tecnicos.py:32 | after lower-casing, the price columns are numeric |
| Indicators.WithColumnKeeps | indicadores_tecnicos.py:35-38 | assigning one column leaves every other column's cells as they were |
| Indicators.WithColumnWrites | indicadores_tecnicos.py:35-38 | the assigned column holds the assigned series |
| Indicators.FourColumns | indicadores_tecnicos.py:35-38 | the four assignments add exactly the four indicator names and keep rows and stamps |
| Indicators.FourColumnsKeep | indicadores_tecnicos.py:35-38 | the four assignments keep every non-indicator column |
| Indicators.FourColumnsWrite | indicadores_tecnicos.py:35-38 | each indicator column holds its own series |
| Indicators.AddedColumns | indicadores_tecnicos.py:30-40 | the frame the four assignments produce has the promised names and columns |
| Indicators.AddedKeeps | indicadores_tecnicos.py:32-38 | existing columns keep their values under their lower-cased names, and the price columns are unchanged |
| Indicators.KeptColumns | indicadores_tecnicos.py:35-38 | non-indicator cells and price columns are unchanged by the assignments |
| Indicators.AddedWrites | indicadores_tecnicos.py:35-38 | the indicator columns hold EMA(25), EMA(50), RSI(14) and ATR(14) of the price columns |
| Strategy.SessionEdges | estrategia_trading.py:36-46 | 06:00 is the only time in both the Asian and London windows; 12:00 is London only; 12:01-12:59 and after 20:00 are in no window |
| Strategy.Session | estrategia_trading.py:36-46 | `between_time` keeps exactly the rows whose time of day is in the window |
| Strategy.Highs | estrategia_trading.py:37 | the high column of a session, bar by bar |
| Strategy.Lows | estrategia_trading.py:37 | the low column of a session, bar by bar |
| Strategy.BreakoutsOrdered | estrategia_trading.py:33-46 | the breakout list has at most three entries, in the order Asian, London, US, with no repeats |
| Strategy.SessionMaxMin | estrategia_trading.py:37 | the price is above the session's maximum high (below its minimum low) iff it is above every high (below every low) in the session |
| Strategy.BreakoutCharacterised | estrategia_trading.py:36-46 | a window is broken iff it has a bar and the price is above every high or below every low in it |
| Strategy.CurrentBarNeverBreaks | estrategia_trading.py:18-46 | when the last bar is in a window and its close is within its own low and high, that window is never broken |
| Strategy.IndexOf | estrategia_trading.py:66 | `list.index` gives the first position of the label |
| Strategy.ConfidenceCases | estrategia_trading.py:52-72 | confidence is 0 with no model or when `predict_proba` raises; otherwise it is the probability at the first "GANANCIA" position, or the largest probability when that label is absent |
| Strategy.RulesExclusive | estrategia_trading.py:85-103 | the BUY and SELL conditions never hold together |
| Strategy.ReadyRowsPriced | estrategia_trading.py:22-27 | once the required columns are present, every row has numeric high and low |
| Strategy.EvaluateStrategy | estrategia_trading.py:8-125 | at most one signal, and it names the evaluated instrument |
| Strategy.ShortFrameNoSignals | estrategia_trading.py:9-10 | no frame, or fewer than 50 rows, gives [] |
| Strategy.MissingColumnNoSignals | estrategia_trading.py:22-25 | a missing close, atr, ema_rapida, ema_lenta, rsi, high or low gives [] |
| Strategy.NoBreakoutNoSignals | estrategia_trading.py:48-50 | no broken window gives [], whatever the model says |
| Strategy.LowConfidenceNoSignals | estrategia_trading.py:78-80 | confidence below the threshold gives [] |
| Strategy.DecisionRules | estrategia_trading.py:8-118 | [] unless all gates pass; then BUY is emitted iff ema_rapida > ema_lenta and 40 < rsi < 70, SELL iff ema_rapida < ema_lenta and 30 < rsi < 60, at the last close, with SL/TP at p -/+ 1.5 ATR and p +/- 2 ATR |
| Strategy.LevelsBracketPrice | estrategia_trading.py:85-118 | with a non-negative ATR, BUY has SL <= price <= TP and SELL has TP <= price <= SL |
| Strategy.BreakoutBuyScenario | estrategia_trading.py:85-100 | a US breakout, a rising EMA pair, RSI 55 and confidence 0.7 give exactly one BUY |
| DataProviders.Build | data_providers.py:49 | `pd.DataFrame(valores)` has one row per record and the union of the record keys as columns; each cell is the record's field as text, or NaN where the record lacks that key |
| DataProviders.Tabulate | data_providers.py:49-50 | the table exists exactly when no two keys coincide once lower-cased; its names are the lower-cased keys, one row per record, each field under its lower-cased name and NaN where a record lacks a key |
| DataProviders.TabulateCells | data_providers.py:49-50 | every record field lands in its row under its lower-cased name, and every key a record lacks is NaN there |
| DataProviders.SynthesiseClose | data_providers.py:56-57 | the close synthesis succeeds exactly when every open/high/low reading converts to float, adding one column |
| DataProviders.EnsureClose | data_providers.py:54-60 | with close present the frame is returned unchanged; without close and without all of open, high and low there is no result; otherwise there is a result exactly when the readings convert, and each row gains close as the mean of its open, high and low |
| DataProviders.CloseIsMean | data_providers.py:57 | with numeric open, high and low, the synthesised close is their mean (o+h+l)/3 |
| DataProviders.CloseWithoutReadings | data_providers.py:57 | with all three missing, the synthesised close is NaN |
| DataProviders.SetIndex | data_providers.py:62-63 | each row keeps its other cells, loses datetime, and takes the parsed datetime as its stamp |
| DataProviders.Insert | data_providers.py:64 | inserting into sorted rows keeps them sorted and adds exactly the new row |
| DataProviders.InsertPermutes | data_providers.py:64 | insertion adds the new row to the multiset of rows |
| DataProviders.SortRows | data_providers.py:64 | `sort_index` gives sorted rows with the same members |
| DataProviders.SortPermutes | data_providers.py:64 | sorting is a permutation of the rows |
| DataProviders.SortIndex | data_providers.py:64 | the sorted frame keeps names, and its rows are sorted and a permutation (same multiset) of the input rows |
| DataProviders.IndexByDatetime | data_providers.py:62-64 | indexing succeeds exactly when datetime is present and parses on every row, giving sorted rows without the datetime column that are a permutation of the indexed input rows |
| DataProviders.ToNumeric | data_providers.py:68 | `to_numeric(errors='coerce')` turns text that reads as a float x into x and other text into NaN, and keeps numbers and NaN |
| DataProviders.CoerceColumn | data_providers.py:68 | coercing a column replaces, in each row, that column's cell by its `to_numeric` reading and changes nothing else |
| DataProviders.CoerceAll | data_providers.py:66-68 | after the loop each listed, present column holds the `to_numeric` reading of its old cell; other columns and stamps are unchanged |
| DataProviders.CoerceAllRows | data_providers.py:66-68 | the coercion loop treats each row on its own: row i becomes row i with the price columns read by `to_numeric` |
| DataProviders.CompleteRows | data_providers.py:70 | the kept rows are exactly the complete ones; sorted input gives sorted output |
| DataProviders.CompleteRowsCounts | data_providers.py:70 | each complete row is kept as many times as it occurs, and every incomplete row is dropped |
| DataProviders.DropNa | data_providers.py:70 | after `dropna` each complete input row occurs exactly as often as in the input and no incomplete row remains; sorted input stays sorted |
| DataProviders.Table | data_providers.py:49-60 | a table exists exactly when no two keys collide once lower-cased and close is a key or open, high and low are keys whose readings all convert; its names are the lower-cased keys plus close, one row per record holding every record field (NaN for gaps); a close it adds is the mean of open, high and low |
| DataProviders.TableSucceeds | data_providers.py:54-60 | after lower-casing, a close is found or synthesised exactly when close is a key, or open, high and low are keys whose readings all convert |
| DataProviders.ConvertibleReadings | data_providers.py:56-57 | `astype(float)` on open, high and low succeeds exactly when every such record field reads as a number (gaps are NaN and convert) |
| DataProviders.TableCells | data_providers.py:54-60 | adding close keeps every tabulated record field and makes each row's close the mean of its open, high and low |
| DataProviders.Indexed | data_providers.py:62-70 | indexing and cleaning succeed exactly when datetime parses; the result is sorted, complete, numeric in the coerced columns, and holds each complete input row, indexed by datetime and coerced, exactly as often as the input does |
| DataProviders.IndexedRows | data_providers.py:62-70 | after index, sort, coercion and `dropna`, the rows are, in some order and with the same multiplicities, the complete ones among the input rows indexed and coerced one by one |
| DataProviders.IndexedCounts | data_providers.py:62-68 | after indexing, sorting and coercion, each cleaned input row occurs as often as in the input |
| DataProviders.CoerceRowsPermute | data_providers.py:64-68 | coercing row by row after reordering gives a reordering of the coerced rows |
| DataProviders.CompleteCoercedNumeric | data_providers.py:66-70 | coerced columns hold only numbers once incomplete rows are dropped |
| DataProviders.Normalise | data_providers.py:17-77 | a frame results exactly when the API key is set, the reply has records, their table exists, and its datetime column parses; it has lower-case names including close, no datetime column, sorted complete rows, numeric price columns, no more rows than records, and each complete cleaned row of the table exactly as often as the table has it |
| DataProviders.CoercePrices | data_providers.py:66-68 | the coercion loop computes the coercion of open, high, low, close and volume |
| DataProviders.ObtenerDatos | data_providers.py:15-77 | a request is made exactly when the key is set, and the result is the normalised reply |
| DataProviders.BuildTable | data_providers.py:49-60 | the table-building steps compute `Table` |
| DataProviders.IndexAndClean | data_providers.py:62-70 | the index, sort, coerce and dropna steps compute `Indexed` |
| DataProviders.ErrorRepliesGiveNone | data_providers.py:17-77 | no key, an unreadable reply, status "error", or no values give None |
| DataProviders.NoCloseNoResult | data_providers.py:54-60 | records with neither close nor open give None |
| DataProviders.NormalisedFeedsIndicators | data_providers.py:66-73 | every normalised frame is a valid input to `calcular_indicadores` |
| Config.UniverseNamesDistinct | config_activos.py:7-26 | twelve instruments with distinct names |
| Bot.RateLimiter.constructor | bot_trading_pro_2.py:86-90 | a new limiter has count 0 and the current clock as last reset |
| Bot.RateLimiter.CheckLimit | bot_trading_pro_2.py:92-103 | `check_limit` updates the fields as `LimitStep` says and reports the sleep it made, or that the sleep raised |
| Bot.ResetWhenElapsed | bot_trading_pro_2.py:93-98 | once the period has elapsed, with a positive limit, the count is 0, last reset is now, and there is no sleep |
| Bot.BelowLimitAfterCheck | bot_trading_pro_2.py:98-103 | with a positive limit, a returning check leaves the count below the limit |
| Bot.WaitDuration | bot_trading_pro_2.py:99-103 | a sleep lasts period - (now - last_reset) + 1, which is at least 1 when the window had not elapsed or the period is non-negative; afterwards the count is 0 and last reset is the post-sleep clock |
| Bot.UnderLimitUnchanged | bot_trading_pro_2.py:92-103 | below the limit and inside the window, nothing changes and nothing sleeps |
| Bot.SleepFailsOnlyBelowMinusOne | bot_trading_pro_2.py:99-101 | the sleep can raise only when the period is below -1 |
| Bot.EightRequestsScenario | bot_trading_pro_2.py:98-103 | 8 requests 30 s into a 60 s window wait 31 s |
| Bot.Outcomes | bot_trading_pro_2.py:29-74 | attempt k+1's outcome is the attempt on the (k+1)-th reply |
| Bot.FirstFinishedWins | bot_trading_pro_2.py:29-74 | the result is that of the first attempt that does not raise, made after only raising attempts; three raises give [] after three attempts |
| Bot.AllRaisedGiveNothing | bot_trading_pro_2.py:67-74 | three raising attempts give [] |
| Bot.IndicatorsNeedHighLow | bot_trading_pro_2.py:47 | on a normalised frame, `calcular_indicadores` succeeds exactly when high and low are present |
| Bot.AttemptCases | bot_trading_pro_2.py:33-65 | an attempt raises exactly when it passes the soft checks but lacks high or low; with no model it returns []; with a model it returns `evaluar_estrategia`'s list |
| Bot.SoftFailureNoRetry | bot_trading_pro_2.py:35-51 | no data, no close, or fewer than 60 rows give [] on the first attempt with no retry, and so does no model when high and low are present (without them the indicators raise first, and that is retried) |
| Bot.Alerts | bot_trading_pro_2.py:55-56 | one message per signal, in order |
| Bot.LogLines | bot_trading_pro_2.py:57-63 | one results line per signal, in order, with asset, time, price, direction and model path |
| Bot.Repeat | bot_trading_pro_2.py:70 | n copies of the retry delay |
| Bot.RunAttempts | bot_trading_pro_2.py:29-74 | the retry loop computes `Retry`: at most 3 attempts, with one 5 s sleep before each retry |
| Bot.Notify | bot_trading_pro_2.py:55-63 | each signal sends its message and appends its log line, in list order |
| Bot.NotifySnoc | bot_trading_pro_2.py:55-63 | one more signal adds its message and log line at the end |
| Bot.EvaluateAsset | bot_trading_pro_2.py:29-74 | `evaluar_activo`: the retried result, its sleeps, and its messages and log lines |
| Bot.JoinAssociates | bot_trading_pro_2.py:113-124 | joining cycle stretches is associative |
| Bot.Visit | bot_trading_pro_2.py:114-124 | one loop body equals `VisitSpec` and leaves the limiter in the visit's final state |
| Bot.VisitAll | bot_trading_pro_2.py:113-124 | the loop over the instruments equals `CycleFrom`, in order |
| Bot.MonitorCycle | bot_trading_pro_2.py:106-136 | one cycle over the configured instruments; the summary is sent iff the no-signal list is non-empty; then a 4 h pause |
| Bot.VisitCountsOneRequest | bot_trading_pro_2.py:115-117 | a visit past `check_limit` adds exactly one request however many retries happened; one whose sleep raised adds none |
| Bot.VisitEnds | bot_trading_pro_2.py:113-124 | a visit whose `check_limit` raised does nothing else; any other ends with the one-second pause after its waits, and either notes the instrument and sends nothing (the evaluation returned []) or sends one message and log line per signal and notes nothing; its log lines carry that visit's own `datetime.now()` stamp |
| Bot.QuietNamesListed | bot_trading_pro_2.py:113-124 | whatever sleeps raise, the no-signal list is no longer than the instrument list, holds only instrument names, and messages match log lines one to one |
| Bot.QuietOf | bot_trading_pro_2.py:120-121 | a name is on the reference no-signal list iff some instrument with that name returned [] |
| Bot.EveryInstrumentVisited | bot_trading_pro_2.py:113-124 | when no sleep can raise, the limiter keeps its period and maximum, the no-signal list is exactly the instruments whose evaluation returned [], in order, and there are at least as many quiet instruments plus messages, and at least as many sleeps, as instruments |
| Bot.CycleEndsWithPause | bot_trading_pro_2.py:113-124 | when no sleep can raise, a pass over at least one instrument ends with the one-second pause |

## Left out

- HTTP requests, `joblib.load`, WhatsApp sending, the CSV append and all logging are I/O. The request is reduced to the `requested` flag and the reply it yields; the effects are returned as lists of messages and log lines.
- `time.time()`, `time.sleep` and `datetime.now()` are parameters or returned sleep durations; no real time passes. Each instrument's input carries its own clock readings and the `datetime.now()` stamp of its results lines.
- `request.py`, `entrenar_modelo_pro.py`, `generar_dataset_pro.py` and `whatsapp_sender.py` are not part of this model. The training script uses a fast EMA of 21 bars, while `calcular_indicadores` uses 25; the model follows the runtime value of 25.
- Floating point is modelled as exact `real` arithmetic. Message and log text formatting (`formatear_mensaje`, `.5f`, `.2%`) is left out: a message is the record of the values it shows.
- Lower-casing covers ASCII letters only.
- Frames whose column names collide after lower-casing are treated as having no result. pandas keeps duplicate columns instead.
- A missing or unparseable datetime gives no result. pandas would index by NaT or raise, and the raise is caught as None.
- Timestamps have minute resolution; seconds and time zones are left out.
- `sort_index` is modelled as a stable sort. pandas does not promise how rows with equal timestamps are ordered.
- AddIndicators: `calcular_indicadores` changes the caller's frame in place. The model returns the new frame as a value; the caller only uses the returned frame.
- AddIndicators: every row must hold floats in the price columns, as the normalised frames do; pandas' NaN skipping in `ewm` is not modelled.
- EvaluateStrategy: the `if modelo:` truthiness test is modelled as "a model is loaded".
- EvaluateStrategy: the frame copy and the added `hora` column are not modelled; they do not affect the result.
- EvaluateAsset: `enviar_whatsapp` is assumed never to raise. In the source, a raise there would also start a retry.
- MonitorCycle: the summary message is returned, not sent. In the source, `enviar_whatsapp` for the summary (bot_trading_pro_2.py:127-133) runs outside the per-instrument `try`, so a raise there would end `monitorear`; the model does not capture that.
- RunAttempts: takes the outcomes of its three attempts as inputs; `AttemptOn` and `Outcomes` define those outcomes from the replies.
- MonitorCycle: covers one pass of `monitorear`'s endless `while True` loop; the limiter carries over between passes.
- Bot.EveryInstrumentVisited: holds only when no sleep can raise (period at least -1); otherwise `Bot.QuietNamesListed` gives the weaker general statement.
