# happychartsv2 backtest-and-improve loop, modelled in Dafny

happychartsv2 tunes a trading prompt for a language model. A pass of the tuning loop does the following:

1. It takes the last few days of hourly ETH, BTC and SOL candles from the exchange. It normalises them to chronological `[time, open, high, low, close, volume]` rows.
2. It labels every ETH candle with the trade that would have paid off by the next candle: Long, Short or None.
3. For every 24-candle window it asks the model for an action. It scores the answer against the label of the window's last candle.
4. It appends `(prompt, accuracy)` to a ten-entry history ledger.
5. If any prediction was wrong, it asks a stronger model to rewrite the prompt from a meta-prompt. The meta-prompt lists the failures and the history.

The driver repeats passes until one scores at least 0.7, at most ten times.

The model covers the following, module by module:

- `Lib` holds the crate root: the model identifiers, the normaliser `candles_to_array` and the labeler `label_candles`. `ReverseInPlace` and `LabelCandles` are the source's in-place reversal and push loop.
- `PromptBuilder` is `build_data_section`. Its `format_candles` is a loop method, `FormatCandles`.
- Four modules share `src/backtest.rs`:
  - `Windows` covers which windows are scheduled.
  - `Responses` covers fence stripping and reading the model's JSON answer.
  - `Scoring` covers the aggregation loop and the accuracy.
  - `Ledger` covers the history file.
- `Improver` builds the meta-prompt `build_improvement_prompt`.
- `Backtest` is `run_backtest_and_improve` as one function, `Pass`, and one method, `RunPass`, proved equal to it.
- `Driver` is the loop in `main`. It returns the number of completed passes, where the program returns `()`.

Everything outside the process is an input:

- **Exchange data:** the three candle lists.
- **Model calls:** a function from (window, prompt) to answer or error, and a function from meta-prompt to improved prompt or error.
- **JSON decoding:** a function from text to an optional JSON value.
- **Number formatting:** `{:.2}` and `{:.6}`, as functions from reals to text.
- **Completion order:** `buffer_unordered` delivers the window results in some order. This is a sequence `arrival` of window indices, required to be a permutation of the scheduled windows.
- **Files:** the base prompt file and the history file are a value `State`, which a pass takes and returns. An unreadable prompt file is `Nothing`. The history file is missing, unreadable, or read with its JSON decoded or not.

Scheduling has a simple closed form. `EligibleIsRange` proves that the windows the filter keeps are exactly the contiguous run from 24 up to, but excluding, `min(|eth|, |btc| + 1, |sol| + 1)`.

The data-section unit test at `src/prompt_builder.rs:149-150` expects the section to contain `"action":` and `"rationale":`. `SeriesLinesQuoteFree` shows that the candle lines never contain a double quote when the number formats produce none. The header is a fixed text with no quote either. So those two expectations cannot hold, and no property is derived from them.

## Model

| member | source | states |
|---|---|---|
| Lib.ModelId | src/lib.rs:18-23 | each model's identifier starts with `o1` |
| Lib.ModelIdInjective | src/lib.rs:18-23 | two models get the same identifier exactly when they are the same model |
| Lib.ToCandle | src/lib.rs:52-53 | the row is the wire tuple's fields at positions 0, 3, 2, 1, 4, 5 |
| Lib.ReversedAt | src/lib.rs:47 | element `k` of the reversed list is element `n-1-k` of the original |
| Lib.ToCandles | src/lib.rs:49-55 | the map keeps the number of candles |
| Lib.ToCandlesAt | src/lib.rs:49-55 | row `k` is candle `k` reordered |
| Lib.Normalized | src/lib.rs:44-56 | what `candles_to_array` returns keeps one row per exchange candle; `NormalizedAt` gives each row and `CandlesToArray` ties the in-place code to it |
| Lib.NormalizedAt | src/lib.rs:44-56 | normalisation keeps the length and puts wire candle `n-1-k`, reordered, at position `k` |
| Lib.ReverseInPlace | src/lib.rs:47 | the array afterwards holds its old contents reversed |
| Lib.CandlesToArray | src/lib.rs:44-56 | reversing in place and then reordering each candle yields the normalised rows |
| Lib.PairLabels | src/lib.rs:158-178 | there is one decision per adjacent pair, so `n-1` decisions for `n >= 2` candles and none otherwise |
| Lib.Labels | src/lib.rs:147-184 | what `label_candles` returns has `max(n, 1)` labels and the last one is None; `LabelsAt` gives the others and `LabelCandles` ties the loop to it |
| Lib.LabelsAt | src/lib.rs:158-178 | label `k` of a candle with a successor is the decision for candles `k` and `k+1` |
| Lib.LabelLocality | src/lib.rs:164-169 | label `k` depends only on candle `k`'s close and candle `k+1`'s high and low |
| Lib.PairLabel | src/lib.rs:160-177 | the decision for one pair of candles: Long iff only the long condition holds; Short iff the short condition holds, which covers the tie-break; None iff neither holds |
| Lib.LabelCandles | src/lib.rs:147-184 | the push loop yields the pair decisions followed by None |
| Lib.LabelCandlesExample | src/lib.rs:190-209 | the unit test's three candles label to Short, Short, None |
| Lib.SingleCandleLabelsNone | src/lib.rs:180-183 | a single candle labels to `[None]` |
| Text.NatText | src/backtest.rs:200-204 | the window index prints as a non-empty string of digits, with a leading zero only for 0 |
| Text.NatTextRoundTrip | src/backtest.rs:200-204 | reading the printed window index back gives the index |
| PromptBuilder.CandlesText | src/prompt_builder.rs:74-89 | what `format_candles` returns is bracketed by `[` and `]`; `EntriesJoined` reads the entries between them front to back |
| PromptBuilder.FormatCandles | src/prompt_builder.rs:74-89 | the loop's string is `[`, the entries with a comma before every entry but the first, then `]` |
| PromptBuilder.EntriesJoined | src/prompt_builder.rs:76-86 | the loop's entries equal the front-to-back reading: first entry, then `,entry` for each later candle |
| PromptBuilder.CandlesTextEmpty | src/prompt_builder.rs:74-89 | an empty slice formats as `[]` |
| PromptBuilder.BuildDataSection | src/prompt_builder.rs:91-110 | the pushes yield the header, then the ETH, BTC and SOL lines |
| PromptBuilder.DataSectionHeader | src/prompt_builder.rs:96-99 | the section starts with the fixed header line |
| PromptBuilder.DataSectionLines | src/prompt_builder.rs:100-108 | with one-line number formats, exactly three lines follow the header |
| PromptBuilder.FirstEntryLeads | src/prompt_builder.rs:100-101 | a non-empty ETH series puts its first candle's entry right after `ETH: [` |
| PromptBuilder.EthLineExample | src/prompt_builder.rs:151 | under Rust's rendering of the test's numbers, the ETH line begins with the text the test expects |
| PromptBuilder.SeriesLinesQuoteFree | src/prompt_builder.rs:100-108 | with quote-free number formats, the three candle lines hold no double quote |
| Windows.EligibleIsRange | src/backtest.rs:52-55 | the scheduled windows are the contiguous run `24 .. min(|eth|, |btc|+1, |sol|+1)` |
| Windows.EligibleMembership | src/backtest.rs:52-55 | `i` is scheduled iff `24 <= i < |eth|`, `|btc| >= i` and `|sol| >= i` |
| Windows.EligibleIncreasing | src/backtest.rs:52-55 | windows are scheduled once each, in increasing order |
| Windows.ShortSeriesNoWindows | src/backtest.rs:52-55 | the scheduling filter alone admits no window when there are fewer than 24 ETH candles; the pass's length check at src/backtest.rs:44-46 fails it before scheduling is reached |
| Windows.Window | src/backtest.rs:57-59 | each window has 24 candles and ends with candle `i-1` |
| Windows.WindowLabel | src/backtest.rs:63 | `labels[i-1]` is in bounds, is never the final forced None, and is the decision for the window's last candle and the next one |
| Responses.RemoveAll | src/backtest.rs:165 | removing a pattern never lengthens the text |
| Responses.StripFencesComplete | src/backtest.rs:165 | after stripping, no three backticks in a row remain |
| Responses.StripFences | src/backtest.rs:165 | removing both fence markers never lengthens the answer; `StripFencesComplete`, `StripFencedJson` and `StripFencesPlain` state what is removed |
| Responses.StripFencedJson | src/backtest.rs:165 | an answer that is the opening `json` fence marker, a text without backticks and the closing fence marker reaches the decoder as exactly that text |
| Responses.StripFencesPlain | src/backtest.rs:165 | an answer without backticks reaches the decoder unchanged |
| Responses.ParseAction | src/backtest.rs:179-184 | `long` gives Long, `short` gives Short, and any other string gives None |
| Responses.Interpret | src/backtest.rs:162-186 | a scored answer carries its window and its label; a failed model call fails with the same error |
| Responses.MalformedAnswerAborts | src/backtest.rs:167-172 | undecodable JSON or a missing `action` string is an error, not a None prediction |
| Responses.WellFormedAnswerScored | src/backtest.rs:169-184 | a decoded answer with an `action` string is scored with that action; a present string `rationale` is carried into the result and a missing one is empty |
| Scoring.Score | src/backtest.rs:72-84 | a completed aggregation counted every result, each either correct or a failure; `ScoreOk`, `ScoreErr` and `ScorePermutation` characterise it fully |
| Scoring.Accuracy | src/backtest.rs:86-90 | the accuracy of counts with `correct <= total` lies in [0, 1]; `AccuracyBounds` adds when it is 0 or 1 |
| Scoring.Aggregate | src/backtest.rs:72-84 | the counting loop over the results computes the reference aggregation `Score` |
| Scoring.ScoreErrPersists | src/backtest.rs:76-77 | once a prefix of the results has failed, later results change nothing |
| Scoring.ScoreOk | src/backtest.rs:72-84 | a completed aggregation saw no error; its total is the number of results, its correct count the right predictions, its failures exactly the wrong ones in arrival order |
| Scoring.ScoreErr | src/backtest.rs:76-77 | any error aborts the aggregation, with the first error in arrival order |
| Scoring.ScoreErrHasError | src/backtest.rs:76-77 | only an error among the results makes the aggregation fail |
| Scoring.CountsAddUp | src/backtest.rs:78-83 | without errors, `total = correct_count + |failures|` |
| Scoring.AccuracyBounds | src/backtest.rs:86-90 | accuracy lies in [0, 1]; it is 0 with no results, and 1 iff something was scored and nothing failed |
| Scoring.MismatchesAreFailures | src/backtest.rs:79-83 | every recorded failure is a wrong prediction taken from the results |
| Scoring.HasErrorPermutation | src/backtest.rs:69-77 | two completion orders of the same results agree on whether some result failed |
| Scoring.ScorePermutation | src/backtest.rs:69-84 | two completion orders agree on the correct count and on the failures up to order |
| Ledger.Load | src/backtest.rs:96-101 | loading fails iff the file exists but cannot be read; a file whose JSON decoded yields exactly those records; a missing file or undecodable JSON yields the empty history |
| Ledger.Appended | src/backtest.rs:104-113 | the ledger after a pass has between one and ten records and ends with the new one; `AppendedShape` and `AppendAllKeepsLatest` say which |
| Ledger.AppendRecord | src/backtest.rs:104-113 | pushing the record and keeping the last ten gives `Appended` |
| Ledger.AppendedShape | src/backtest.rs:104-113 | the ledger has `min(old+1, 10)` records, its last is the new one, and it is a suffix of `old ++ [new]` |
| Ledger.AppendAllKeepsLatest | src/backtest.rs:104-113 | after any number of passes, the ledger is the last (at most ten) records in the order recorded |
| Improver.Flattened | src/backtest.rs:215 | replacing line breaks keeps the length, leaves no line break, and changes only line breaks, into spaces |
| Improver.AppendFailureLines | src/backtest.rs:199-205 | the loop appends the lines of the first `min(10, |failures|)` failures |
| Improver.AppendScoreLines | src/backtest.rs:210-217 | the loop appends one score line per ledger record |
| Improver.ImprovementPrompt | src/backtest.rs:189-232 | the meta-prompt starts with the fixed preamble and is at least as long as the preamble and the base prompt together; `OriginalPromptVerbatim`, `FailuresBeyondTenIgnored` and the line-count lemmas characterise the rest |
| Improver.BuildImprovementPrompt | src/backtest.rs:189-232 | the pushes yield the meta-prompt: fixed preamble, failure lines, history lines, goals, then the base prompt and the closing request |
| Improver.OriginalPromptVerbatim | src/backtest.rs:227-229 | the meta-prompt ends with the `Original Prompt` heading, the base prompt verbatim and the closing request |
| Improver.FailuresBeyondTenIgnored | src/backtest.rs:199 | failures after the tenth do not change the meta-prompt |
| Improver.SnippetShape | src/backtest.rs:213-215 | a snippet is the first `min(50, |prompt|)` characters with line breaks as spaces, and is one line |
| Improver.FailureLineCount | src/backtest.rs:200-204 | a failure with a one-line rationale takes exactly one line |
| Improver.ScoreLineCount | src/backtest.rs:211-216 | a ledger record takes exactly one line when its score prints on one line |
| Improver.FailureBlockLines | src/backtest.rs:199-205 | with one-line rationales, the failure block has one line per failure listed |
| Improver.HistoryBlockLines | src/backtest.rs:210-217 | the history block has one line per ledger record |
| Improver.ShownFailureCount | src/backtest.rs:199-205 | the meta-prompt lists `min(10, |failures|)` failure lines |
| Backtest.WindowOutcome | src/backtest.rs:61-65 | a window's scored result carries that window's index |
| Backtest.Outcomes | src/backtest.rs:69 | there is one result per completed window |
| Backtest.OutcomesAt | src/backtest.rs:69-77 | the `k`-th result to complete is the result of the `k`-th window to complete |
| Backtest.ArrivalSchedulable | src/backtest.rs:52-59 | every window that completes can be cut from all three series and has a label |
| Backtest.OutcomesPermutation | src/backtest.rs:69 | two completion orders of the same windows yield the same results up to order |
| Backtest.PassShortSeries | src/backtest.rs:44-46 | fewer than 24 ETH candles fail the pass and leave both files alone |
| Backtest.PassWindowFailure | src/backtest.rs:76-77 | a failing window fails the pass with the first error in arrival order, before either file is written |
| Backtest.FailedPassKeepsPrompt | src/backtest.rs:119-131 | a failed pass never replaces the base prompt |
| Backtest.PassAccuracy | src/backtest.rs:72-90 | a successful pass saw no error, and returns right predictions over scheduled windows (0 for none), a value in [0, 1] |
| Backtest.PassLedger | src/backtest.rs:95-117 | once all windows are scored and the old ledger is readable, the ledger is the last ten of old records plus `(prompt, accuracy)`, whatever the improver does; otherwise it is unchanged |
| Backtest.PassPrompt | src/backtest.rs:119-133 | after a successful pass the prompt is unchanged iff no prediction failed; otherwise it is the improver's answer to the meta-prompt built from the failures and the new ledger |
| Backtest.ArrivalOrderIrrelevant | src/backtest.rs:69-90 | completion order does not change whether all windows were scored, the accuracy, or the failures up to order |
| Backtest.ArrivalOrderLedger | src/backtest.rs:95-117 | completion order does not change the ledger a pass writes |
| Backtest.WindowTask | src/backtest.rs:57-65 | a window's task (cut windows, data section, full prompt, query, interpret) yields that window's result |
| Backtest.ScoreWindows | src/backtest.rs:52-69 | the task stream yields every window's result in arrival order |
| Backtest.RecordPass | src/backtest.rs:86-133 | the history update and improvement step compute `Record` |
| Backtest.Record | src/backtest.rs:86-133 | after scoring, a successful result is the accuracy of the counts, and the prompt is kept when nothing failed or when recording or improving failed |
| Backtest.Pass | src/backtest.rs:28-136 | a successful pass had at least 24 ETH candles and a readable prompt; `PassAccuracy`, `PassLedger`, `PassPrompt` and `PassWindowFailure` characterise its outcome |
| Backtest.RunPass | src/backtest.rs:28-136 | the whole pass computes `Pass`: its result and the files it leaves |
| Driver.PassesScoreInUnitRange | src/backtest.rs:86-90 | every score a pass returns lies in [0, 1] |
| Driver.Drive | src/main.rs:14-25 | a run from `done` completed passes records at most `10 - done` scores; `DriveCount`, `DriveStopsAtThreshold` and `RunShape` characterise it |
| Driver.DriveCount | src/main.rs:14-25 | a run that ends normally performed between one pass and the passes left, and its counter equals the passes completed |
| Driver.DriveStopsAtThreshold | src/main.rs:24 | every score but the last is below 0.7; a normal run's last score reaches 0.7 unless the limit was hit; a failed run's scores are all below 0.7 |
| Driver.DriveScoresInUnitRange | src/main.rs:15-22 | every score of a run is one a pass returned, so it lies in [0, 1] |
| Driver.RunShape | src/main.rs:14-25 | the run does 1 to 10 passes, counts them, stops right after the first score of at least 0.7, and has all scores in [0, 1] |
| Driver.FirstPassError | src/main.rs:15-21 | an error in the first pass ends the run with no score and no further pass |
| Driver.Converge | src/main.rs:14-25 | the `while` loop computes `Drive` from zero completed passes |

## Left out

- Network clients: `get_candle_data` and `analyze_data_gpt` (`src/lib.rs:58-145`). Their answers are function inputs.
- The improver's model identifier `Model::O1Preview` (`src/backtest.rs:130`). It is not a variant of `Model` in `src/lib.rs:12-15`, so the improver call is a separate input with no identifier.
- `load_or_fetch` (`src/backtest.rs:138-156`), the cache files and the `chrono` date range. A pass receives the three candle lists directly.
- Pass order: a cache or fetch failure before the length check is not modelled. A pass with enough candles reads the prompt file before anything else can fail.
- Write failures of `fs::write` (`src/backtest.rs:117`, `131`) and `create_dir_all`. The model assumes every write succeeds, so a written ledger is read back as written (the serde round trip is not modelled).
- `tracing` logging and `dotenvy` in `main`.
- Concurrency: requests still in flight when an error is returned are not modelled. Only the order of completion is modelled.
- JSON decoding: `serde_json` is a function input returning a small JSON value type. Only string fields of objects are looked into.
- `Lib.PairLabel`: prices and thresholds are exact reals, so f64 rounding of `close * 1.003` near the threshold is not modelled.
- `Backtest.PassAccuracy`: accuracy is exact real division, not f64 division.
- `PromptBuilder.FormatCandles`: `{:.2}` and `{:.6}` are function inputs, so digit-level output is not modelled. `EthLineExample` assumes what they print for the test's values.
- `Improver.ScoreLineCount`: `{:.2}%` of the score is the same function input, so the line count assumes it prints on one line.
- `PromptBuilder.SeriesLinesQuoteFree`: the header literal's freedom from quotes is stated above but not proved.
- `Driver.Converge`: every pass gets its own inputs `envs(k)`. This is more general than the program, whose cache makes later passes see the same candles.
