# Signal & Alert engine of the pharmacovigilance dashboard

This project is a Dafny model of the part of the detector dashboard that decides which drug–adverse-event pairs are "new", keeps the browser-side stores, and computes client-side alerts. As written, the alert engine and the upload flow call `api.buildPairKey`, which the `api` object does not have: on any record with both names they stop in their `catch` (see Findings). The model states both that behaviour and the intended one. The rest of the dashboard fetches data and renders it. The model covers:

- **Pair identity** (`src/services/api.js`). A pair key is the lower-cased, trimmed drug name, then `||`, then the lower-cased, trimmed event name. `computeNewPairs` diffs a batch of records against a set of known keys. `buildQueryString` drops empty parameters.
- **The persisted stores** (`src/services/api.js`). These are the baseline key set, the new-signal ledger (a count and the pairs) and the alert settings. All three live in a string-keyed store. A read falls back to a default on any failure, and a write never throws. The store is the `Storage.Store` class over a map of typed cells, with `Blank`, `Garbled` and `Json` cells.
- **The alert rule engine** (`computeClientSideAlerts`, `src/components/Alerts.js`):
  - aggregation of records into one entry per pair (count, maximum score, first names seen);
  - rule 1, new-from-upload alerts;
  - rule 2, high-risk new-pair alerts;
  - rule 3, sudden spikes over two trailing windows;
  - the severity filter;
  - the settings panel (`Alerts.AlertsPanel`).
- **The application shell** (`src/App.js`), as the `AppShell.App` class:
  - start-up seeding of an empty baseline;
  - the `loadData` refresh, which never writes the stores, and `applyFilters`, which as written empties the signal list (see Findings);
  - the upload flow, which captures the key set before the upload, reloads, and is meant to write one ledger entry per post-upload record with an unseen key and replace the baseline; as written it stops at the first record with both names.
- **The narrative highlighter** `buildHighlightedHTML` (`src/components/NLP.js` and its copy in `app.js`). It escapes the text between spans and wraps each span in a highlight element.
- **The chart counting of `loadCharts`** (`app.js`): reports per month with sorted labels, and reports per drug with the first eight drugs.

The model follows JavaScript's own semantics where they matter:
- truthiness: `""` stands for a missing name or date, and `0` for a falsy setting;
- `||` defaults;
- `String.prototype.trim` with the full JavaScript whitespace set;
- ASCII lower-casing;
- `slice` index clamping;
- the insertion order of `Set`/`Map`, as a duplicate-free sequence;
- the truncation of `Date` times toward zero.

Time is the parameter `now`, in milliseconds. Dates are `Missing`, `At(ms)` or `Unparsable`, standing for the result of `new Date(...)`. The answers of the server requests are parameters as well. The ambient `window.__latestEvents` is the field `AppShell.App.latestEvents`, passed explicitly to the rule engine.

Modules:
- `Common`
- `JsString` (trim, lower-case, slice, split)
- `Records` (the record types)
- `Api`
- `Storage`
- `PairStats` (aggregation and new pairs)
- `Alerts`
- `AppShell`
- `Highlight`
- `Charts`

Loops of the source are methods with loops, proved equal to recursive functions such as `DetailOrder`/`DetailsOf`, `KeyOrder`/`TalliesOf` and `UploadAlerts`. The store, the settings panel and the application shell are classes whose methods state their whole new state.

Where a reader might expect otherwise, the model follows the code:
- New pairs keep first-seen order and are never sorted.
- The upload ledger and `computeNewPairs` keep one entry per qualifying record, duplicates included.
- The recent spike window has no upper bound, so future dates count as recent.
- The baseline starts as the empty set.

## Model

| member | source | states |
|---|---|---|
| JsString.TrimStartSpec | src/services/api.js:80-82 | `trim`'s left half removes exactly a leading run of JavaScript whitespace: what remains is a suffix that does not start with whitespace |
| JsString.TrimEndSpec | src/services/api.js:80-82 | `trim`'s right half removes exactly a trailing run of whitespace: what remains is a prefix that does not end with whitespace |
| JsString.TrimIgnoresOuterSpace | src/services/api.js:80-82 | surrounding a string with whitespace does not change its trim |
| JsString.TrimDecompose | src/services/api.js:80-82 | every string is whitespace + its trim + whitespace |
| JsString.TrimIdempotent | src/services/api.js:80-82 | trimming twice is trimming once |
| JsString.LowerTrimCommute | src/services/api.js:80-82 | lower-casing then trimming equals trimming then lower-casing |
| JsString.SliceInBounds | src/components/NLP.js:15-16 | `slice` with in-range indices is the ordinary sub-sequence |
| JsString.SplitJoined | src/components/Alerts.js:121 | `key.split("||")` recovers both halves of `x + "||" + y` when `x` has no bar |
| Api.PairKeyIgnoresCaseAndSpace | src/services/api.js:79-83 | names equal after lower-casing and trimming give the same pair key |
| Api.PairKeyIgnoresOuterSpace | src/services/api.js:79-83 | outer whitespace on either name does not change the pair key |
| Api.PairKeyExample | src/services/api.js:79-83 | `("Aspirin", "Nausea ")` and `(" aspirin", "nausea")` share one key |
| Api.PairKeyIff | src/services/api.js:79-83 | two pair keys are equal if and only if both canonical drug names and both canonical event names are equal (drug names without a bar) |
| Api.SplitPairKey | src/services/api.js:79-83 | splitting a pair key at `||` gives back the canonical drug and event names |
| Api.KeySetMembers | src/services/api.js:88-91 | a key is in the key set of a batch exactly when some record with both names non-empty has that pair key |
| Api.KeyOrder | src/services/api.js:88-91 | the insertion order of the key set is duplicate-free and holds exactly the key set |
| Api.ComputeNewPairs | src/services/api.js:85-100 | `currentPairs` is the key set of the batch and `newPairs` is the per-record list of records whose key is not previously known |
| Api.FreshPairsAreNew | src/services/api.js:92-96 | every new pair's key is absent from the previous set and present in the batch's key set |
| Api.FreshPairsEmptyIff | src/services/api.js:85-100 | `newPairs` is empty if and only if `currentPairs` is a subset of the previous set |
| Api.FreshPairsConcat | src/services/api.js:88-98 | new pairs of a concatenated batch are the new pairs of each part in order: one entry per record, duplicates kept, input order |
| Api.BuildQueryString | src/services/api.js:22-28 | the appended entries are exactly the parameters that pass the filter, in order (the URL text itself is left out) |
| Api.SentEntriesCount | src/services/api.js:25 | each entry with a value other than undefined, null or `""` appears as often as in the input, and every other entry is dropped |
| Api.SentEntriesConcat | src/services/api.js:24-26 | filtering distributes over concatenation, so order is preserved |
| Storage.ReadFallsBack | src/services/api.js:104-112 | `get` returns the default when storage is unreadable, the item is missing or empty, or parsing fails, and returns the stored value otherwise |
| Storage.WriteThenRead | src/services/api.js:114-121 | after a successful `set` the key reads back the written value; a failing `set` changes nothing and does not throw |
| Storage.WriteFrame | src/services/api.js:114-121 | `set` leaves every other key as it was |
| Storage.Defaults | src/services/api.js:124-143 | an empty or unreadable store yields count 0, no pairs, the empty baseline, and settings {7, 50, 0.7, 5, "low"} |
| Storage.BaselineRoundTrip | src/services/api.js:130-134 | storing a baseline list and reading it back gives the same set of keys, with duplicates collapsed |
| Storage.SettersAreIndependent | src/services/api.js:124-144 | a write to any other key leaves each named getter's result unchanged |
| Storage.KeysDiffer | src/services/api.js:124-144 | the four storage keys are pairwise distinct, so each named setter writes only its own key |
| Storage.Store.constructor | src/services/api.js:103 | the store starts with the given cells and availability |
| Storage.Store.Set | src/services/api.js:114-121 | the cells become `Write` of the old cells, and availability is unchanged |
| Storage.Store.SetNewSignalsCount | src/services/api.js:125 | writes the count under `newSignalsCount` only |
| Storage.Store.SetNewSignalPairs | src/services/api.js:128 | writes the ledger under `newSignalPairs` only |
| Storage.Store.SetBaselinePairs | src/services/api.js:134 | writes the key list under `baselinePairs` only |
| Storage.Store.SetAlertSettings | src/services/api.js:144 | writes the settings under `alertsSettings` only |
| PairStats.AggregatePairs | src/components/Alerts.js:43-69 | the intended loop (buildPairKey called as exported) builds exactly `DetailOrder` and `DetailsOf`: first-seen keys and per-key details |
| PairStats.AddRecord | src/components/Alerts.js:44-67 | intended loop body: one record adds its key once, if new, and bumps that key's count and maximum score; a record with an empty trimmed name changes nothing |
| PairStats.DetailsOfSpec | src/components/Alerts.js:43-69 | the details map has exactly the keys of aggregable records, and each value holds the first such record's trimmed names, the number of matching records, and their maximum score |
| PairStats.DetailOrder | src/components/Alerts.js:50 | the key order is duplicate-free and holds exactly the keys with at least one matching record |
| PairStats.MaxScoreIsUpperBound | src/components/Alerts.js:63-66 | `maxScore` is at least 0 and at least every matching record's score (a missing score counts as 0) |
| PairStats.MaxScoreIsAttained | src/components/Alerts.js:63-66 | `maxScore` is 0 or equals some matching record's score |
| PairStats.FirstMatchIsFirst | src/components/Alerts.js:52-58 | the names of a pair come from the first matching record: no earlier record matches |
| PairStats.NoMatchBefore | src/components/Alerts.js:44-48 | a key with count 0 is matched by no record |
| PairStats.DetailsAreKeyed | src/components/Alerts.js:49-62 | each detail's trimmed names build its own key, and each count is at least 1 |
| PairStats.AggregationExample | src/components/Alerts.js:43-69 | two records differing only in case and spacing merge into one pair with count 2 and the larger score; a record with a blank event is ignored |
| PairStats.CollectNewPairs | src/components/Alerts.js:71-78 | the loop collects the details of the keys not in the baseline, in key order |
| PairStats.NewPairDetailsByKey | src/components/Alerts.js:71-78 | the new pairs are the details of the new keys, position by position |
| PairStats.NewKeysProps | src/components/Alerts.js:71-78 | the new keys are exactly the current keys with details that are not in the baseline, each once |
| PairStats.NewPairsExactlyOnce | src/components/Alerts.js:71-78 | every new pair is a current key outside the baseline, no key appears twice, every such key appears, and the list is empty if and only if every key is in the baseline |
| PairStats.DetailOrderPrefix | src/components/Alerts.js:43-50 | the key order of the first m records is a prefix of the key order of all records |
| PairStats.NewPairsFollowFirstSeen | src/components/Alerts.js:71-78 | for every m, the new pairs of the first m records are, name by name, the start of the new pairs of all records: new pairs are listed in first-seen order, never sorted |
| PairStats.NewPairsKeepFirstSeenOrder | src/components/Alerts.js:71-78 | a worked instance: for two records of different fresh pairs, the first-reported pair comes first with its own score, whatever the scores |
| Alerts.OrDefault | src/components/Alerts.js:23-24 | `x || d` keeps a non-zero setting and replaces 0 by the default |
| Alerts.FallbacksAreStoredDefaults | src/components/Alerts.js:23-24 | the fallbacks for zero settings (0.7, 5, 7, 50) are the stored defaults |
| Alerts.EmitUploadAlerts | src/components/Alerts.js:27-35 | the loop emits the rule-1 alerts |
| Alerts.UploadAlertsExact | src/components/Alerts.js:27-35 | every ledger pair tagged new-from-upload yields its `high` `new_signal_upload` alert, every rule-1 alert comes from such a pair, and there are at most as many alerts as pairs |
| Alerts.UploadAlertsConcat | src/components/Alerts.js:27-35 | the alerts of a ledger are the alerts of its parts in ledger order |
| Alerts.UploadAlertsCount | src/components/Alerts.js:27-35 | each upload alert occurs exactly as often as the ledger holds the tagged entry of its pair: one alert per tagged entry, duplicates kept |
| Alerts.EmitHighRiskAlerts | src/components/Alerts.js:80-90 | the loop emits the rule-2 alerts |
| Alerts.HighRiskAlertsExact | src/components/Alerts.js:80-90 | a new pair gets a `high` `high_risk_new_pair` alert if and only if count ≥ minCases and maxScore ≥ riskThreshold, and every such alert is about a new pair |
| Alerts.HighRiskAlertsSound | src/components/Alerts.js:80-90 | every rule-2 alert meets both thresholds and names a new pair |
| Alerts.HighRiskAlertsComplete | src/components/Alerts.js:81 | every new pair meeting both thresholds gets its alert |
| Alerts.TimeClip | src/components/Alerts.js:96-98 | a window start is the time truncated toward zero to whole milliseconds |
| Alerts.CountSpikes | src/components/Alerts.js:101-114 | the intended loop (buildPairKey called as exported) builds exactly `KeyOrder` and `TalliesOf`: the key order and per-key recent/prior tallies |
| Alerts.CountRecord | src/components/Alerts.js:103-112 | intended loop body: one record with both names counts once in `recent` if dated at or after the first window start, else in `prior` if at or after the second, else only creates its entry |
| Alerts.TalliesOfSpec | src/components/Alerts.js:101-114 | the tally map has exactly the batch's keys, and each tally is the number of matching records in the recent and the prior window |
| Alerts.NoKeyNoTally | src/components/Alerts.js:103 | a key with no record has no recent and no prior count |
| Alerts.RecentWindowOpenEnded | src/components/Alerts.js:108-111 | a missing date counts as now and is recent, future dates are recent, unparsable dates count in neither window, and no record counts in both |
| Alerts.EmitSpikeAlerts | src/components/Alerts.js:116-131 | the loop emits the rule-3 alerts |
| Alerts.SpikesCrossMultiplied | src/components/Alerts.js:118-120 | the spike test is recent ≥ minCases, prior > 0 and (recent − prior)·100 ≥ pct·prior |
| Alerts.NoPriorNoSpike | src/components/Alerts.js:118 | a pair with no prior records never spikes |
| Alerts.SpikeBoundaryExample | src/components/Alerts.js:116-131 | prior 4 and recent 6 at 50% fire; prior 5 and recent 7 (40%) and recent below minCases do not |
| Alerts.SpikeAlertsExact | src/components/Alerts.js:116-131 | every counted key that spikes yields its `medium` `sudden_spike` alert, and every alert is the alert of some counted key whose own tally spikes, with that tally's percentage |
| Alerts.SpikeAlertNames | src/components/Alerts.js:121 | the alert's drug and event are the canonical names split from the key |
| Alerts.SeverityRank | src/components/Alerts.js:133-136 | every severity ranks from 1 to 3, and unknown ones rank 1 |
| Alerts.FilterBySeverity | src/components/Alerts.js:135-137 | the loop computes the severity filter |
| Alerts.SeverityFilterExact | src/components/Alerts.js:135-137 | an alert is kept if and only if its rank is at least the minimum, and nothing is added |
| Alerts.SeverityFilterConcat | src/components/Alerts.js:135-137 | the filter distributes over concatenation, so it preserves order |
| Alerts.LowestRankKeepsAll | src/components/Alerts.js:134-137 | minimum severity "low" keeps every alert |
| Alerts.SeverityFilterExample | src/components/Alerts.js:133-137 | with minimum "medium", a low alert is dropped and a high one kept |
| Alerts.ComputeClientSideAlerts | src/components/Alerts.js:15-143 | as written: no alert when the stored ledger or baseline is a number or an object, or when a cached record has both names (the `api.buildPairKey` call throws into the catch); otherwise the severity-filtered upload alerts |
| Alerts.ComputeClientSideAlertsIntended | src/components/Alerts.js:15-143 | with buildPairKey called as exported: rule 1, then rule 2, then rule 3, severity-filtered, over the cached records, the stored ledger and the stored baseline, or no alert when those stores cannot be iterated |
| Alerts.AsWrittenAlertsAreUploadAlerts | src/components/Alerts.js:15-143 | as written, the engine raises exactly the upload alerts when no record has both names, and nothing otherwise |
| Alerts.AsWrittenIsPrefixOfIntended | src/components/Alerts.js:15-143 | the alerts as written are a prefix of the intended ones, and equal to them when no record has both names |
| Alerts.KeyCallDropsAlerts | src/components/Alerts.js:49 | one report of a pair plus one flagged ledger entry: the intended engine raises an alert, the code as written none |
| Alerts.UploadAlertsPassFilter | src/components/Alerts.js:133-137 | `high` upload alerts survive every minimum severity |
| Alerts.UploadAlertsLead | src/components/Alerts.js:27-35 | the upload alerts come first in the result, before any other alert |
| Alerts.HighMinimumDropsSpikes | src/components/Alerts.js:123-137 | with minimum "high" only high alerts remain, so no spike alert survives |
| Alerts.ApplyChangesOneField | src/components/Alerts.js:150 | an edit changes its own setting only; every other setting keeps its value |
| Alerts.AlertsPanel.constructor | src/components/Alerts.js:5-8 | the panel starts with the stored settings and no client alerts |
| Alerts.AlertsPanel.HandleSettingChange | src/components/Alerts.js:149-153 | the panel's settings take the new value, the new settings are written under `alertsSettings` only, and the alerts are untouched |
| Alerts.AlertsPanel.SaveAlertSettings | src/components/Alerts.js:155-157 | the current settings are written under `alertsSettings` only |
| Alerts.AlertsPanel.RefreshClientAlerts | src/components/Alerts.js:14-147 | the panel's alerts become the as-written client alerts of the given records under its settings and the stored ledger, or none when the stored ledger or baseline cannot be iterated |
| Alerts.EditSurvivesReload | src/components/Alerts.js:149-153 | a saved setting change is what `getAlertSettings` returns afterwards |
| AppShell.AsWrittenFiltersClearSignals | src/App.js:54-56 | as written, `loadData(true)` replaces any non-empty signals list |
| AppShell.SignalsPreserved | src/App.js:54-56 | the corrected refresh keeps the current signals when preserving and behaves as written otherwise |
| AppShell.AfterLoadFields | src/App.js:62-72 | after a load, every request that returned nothing leaves its data as it was, kpis and heatmap take the answer, an answered events request makes table and cache the same items, and a load that preserves signals leaves the signal list empty; a failed batch changes nothing |
| AppShell.AfterLoadIdempotent | src/App.js:43-80 | loading twice with the same answers is loading once |
| AppShell.SeedBaselineKeeps | src/App.js:88-91 | start-up writes an empty baseline only when no baseline item exists, otherwise leaves the store as it is, and doing it twice is doing it once |
| Api.KeyLoopAsWritten | src/App.js:128-138 | a loop that calls `api.buildPairKey` throws exactly when some record has both names |
| Api.NoKeyCallNoKeys | src/App.js:162-182 | when no record has both names the key loops find no key and no new pair |
| PairStats.NoKeyCallNoDetails | src/components/Alerts.js:43-69 | when no record has both names the aggregation finds no pair |
| AppShell.CapturePairs | src/App.js:128-138 | intended loop: the pre-upload key set is the key set of the cached records |
| AppShell.UploadDiff | src/App.js:162-182 | intended loop: the post-upload key order is the insertion order of the key set, and the ledger holds one entry per record with an unseen key |
| AppShell.UploadLedgerSound | src/App.js:166-181 | every ledger entry is tagged new-from-upload, its key is absent from the pre-upload set and present after; the ledger is empty if and only if no key is new |
| AppShell.LedgerKeepsDuplicates | src/App.js:166-181 | three copies of one new record give three ledger entries |
| AppShell.FailureMessage | src/App.js:148-149 | a rejected upload shows its server detail, or a non-empty fallback |
| AppShell.PersistUploadReadBack | src/App.js:190-194 | after the upload's writes, the count reads back as the ledger length, the ledger as itself, the baseline as the post-upload keys, and settings as before |
| AppShell.UploadAsWrittenMatchesIntended | src/App.js:162-194 | when no reloaded record has both names, the ledger is empty and the as-written writes equal the intended ones |
| AppShell.KeyCallBlocksUpload | src/App.js:132 | one cached report of a pair makes the as-written upload throw, while the intended diff would ledger that pair |
| AppShell.SecondUploadIsQuiet | src/App.js:162-194 | re-running the diff against the baseline just stored finds no new pair |
| AppShell.App.constructor | src/App.js:21-32 | the shell starts with no data, no cached records and no notification |
| AppShell.App.LoadData | src/App.js:43-80 | the shown data and the record cache become AfterLoad of the old ones, as written, signals included; the notification stays and the store is never written |
| AppShell.App.Init | src/App.js:84-94 | start-up seeds the baseline if missing, then loads fully; an unreadable store throws before both and nothing changes; the notification stays and the store changes in no other way |
| AppShell.App.ApplyFilters | src/App.js:105-107 | a reload with preserveSignals: everything else as in loadData, and the signal list, as written, becomes empty on a successful batch and stays on a failed one |
| AppShell.App.HandleCsvUpload | src/App.js:110-214 | as written: no file: nothing changes; a cached record with both names: only the error notice, before the upload; rejected: only the failure notice; accepted: the notice and a full reload, then either the error notice with the store untouched (a reloaded record has both names) or count 0, an empty ledger and an empty baseline stored |
| Highlight.ReplaceAllAppend | src/components/NLP.js:17-20 | a global replace distributes over concatenation |
| Highlight.EscapeOneChar | src/components/NLP.js:17-20 | escaping `&`, then `<`, then `>` maps each character on its own |
| Highlight.EscapeIsPerChar | app.js:223-226 | the three chained replaces equal character-by-character escaping, with no double escaping |
| Highlight.EscapedHasNoAngles | src/components/NLP.js:25-29 | escaped text contains no raw `<` or `>` |
| Highlight.EscapeRoundTrip | src/components/NLP.js:17-20 | unescaping the escaped text restores it |
| Highlight.EachRoundTrip | app.js:230-234 | unescaping the per-character escape restores the text |
| Highlight.BuildHighlightedHtml | src/components/NLP.js:8-32 | no spans: the text itself; otherwise, per span, the escaped text since the cursor and the highlight tag of the term, then the escaped tail |
| Highlight.SpanStep | src/components/NLP.js:14-23 | each span appends exactly the escaped prefix and one tag, and moves the cursor to the span's end |
| Highlight.SpanChunkAt | src/components/NLP.js:14-23 | the i-th span's tag covers exactly its text, after the text from the previous span's end |
| Highlight.RecoverSpanChunks | src/components/NLP.js:14-23 | for ordered spans, the chunk texts concatenate to the text up to the last span's end |
| Highlight.HighlightKeepsText | src/components/NLP.js:11-31 | for ordered, in-bounds spans, the plain and marked texts concatenate back to the original |
| Highlight.BackwardSliceIsEmpty | src/components/NLP.js:15 | a span starting before the cursor emits no prefix text |
| Highlight.PlainChunksAreInert | src/components/NLP.js:17-20 | a sequence made only of plain chunks renders with no raw angle brackets |
| Charts.CountKeys | app.js:80-83 | the counting loop yields the keys in first-seen order and each key's number of occurrences |
| Charts.CountByMonth | app.js:60-64 | month buckets are keyed by the first seven characters of the date, and undated records are skipped |
| Charts.SortSorts | app.js:65 | the sorted labels are ascending and a permutation of the keys |
| Charts.FirstEight | app.js:84 | the pie labels are the first eight keys of the key order, or all of them when there are at most eight |
| Charts.MonthSeries | app.js:60-66 | labels are the sorted months and each value is its month's count |
| Charts.DrugSeries | app.js:80-85 | labels are the first eight drugs and each value is its drug's count |
| Charts.LoadCharts | app.js:54-85 | both chart series, as above |
| Charts.CountsAddUp | app.js:60-85 | the counts of all keys add up to the number of counted items |
| Charts.SumOccPermutation | app.js:65-66 | reordering the labels does not change the sum of their counts |
| Charts.MonthChartProps | app.js:60-66 | month labels are sorted, non-empty, exactly the months present, and their counts add up to the number of dated records |
| Charts.DrugChartProps | app.js:80-85 | pie labels are at most eight distinct drugs, all drugs when there are at most eight, and all drug counts add up to the number of records |
| Charts.FirstSeenPrefix | app.js:82-84 | drugs seen earlier come first in the key order |

## Left out

- Network I/O is not modelled: `fetchJSON`, the endpoint calls, `uploadCSV`, the report download and `response.json()`. Their answers are parameters: `LoadResult`, `UploadResponse` and the record lists.
- An upload response whose body is not JSON, and so throws in `response.json()`, is not modelled separately from a rejected upload.
- React rendering and DOM work are not modelled: the HTML of the panels, modals, KPI colours, the heatmap grid, `alert()` dialogs, the `loading` flag and the reset of the expanded states in `handleCSVUpload`.
- `src/components/Signals.js` (the choice between persisted and server signals) is not part of this model.
- Chart.js construction and the signal-trend chart of `loadCharts` (app.js:93-106) are not modelled, because they only reshape a server series for drawing.
- Concurrency and timing are not modelled: `Promise.all`, the 60-second refresh interval, and the duplicated `loadNLP`.
- JSON serialisation in `localStorage` is not modelled. The store holds typed values, and unparsable text is the `Garbled` cell.
- Alert and notification message texts are not modelled, and neither is `toFixed` formatting. An alert keeps its kind and its numbers instead.
- Date parsing is not modelled: `new Date(text)` is given as `Missing`, `At(ms)` or `Unparsable`, and the ±8.64e15 range limit of `Date` is not modelled.
- NaN settings and NaN scores are not modelled: numbers are reals, and 0 stands for every falsy setting.
- Missing or null names are not modelled as the source keys them: they are modelled as `""`. In the source, `buildPairKey` on an undefined name gives the text "undefined". The model never reaches that case for aggregation, because the source skips such records there.
- Lower-casing covers ASCII letters only. Unicode case mapping and UTF-16 surrogate pairs are not modelled.
- `Object.keys` order is not modelled for integer-like drug names or months, which JavaScript lists first. First-seen order is modelled instead.
- `sevRank` lookups of inherited property names such as `"constructor"` are not modelled. Such a severity ranks 1, like any unknown one.
- The `catch` path of `computeClientSideAlerts` is modelled only for a stored ledger or baseline that is a number or an object. Other throws are not modelled, such as a cached record that is not an object.
- A stored value of an unexpected JSON shape is handed back by `get` as it is. The model reads it through the default instead where the engine's result is the same: an array of other items holds no flagged entry and no key string, and a settings value without the fields falls back to every default through `||`. A count of another shape only feeds the badge, which is not modelled.
- Api.BuildQueryString: does not model the URL text that `u.toString()` produces (percent-encoding, `&` joining). It models only the list of appended entries.
- The drug pie of `loadCharts` keys a record without `drug_name` as "undefined" (app.js:80-83). The model keys it as `""`.
- AggregatePairs, AddRecord, CountSpikes, CountRecord, CapturePairs and UploadDiff: model their loops with the exported buildPairKey, the intended behaviour. As written, these loops throw at the first record with both names, which `Api.KeyLoopAsWritten` models and the engine and upload use.
- The highlight term and the whole text for empty spans are emitted unescaped, as the source does.

## Findings

| source | as written | input that shows it | evidently intended | confidence | as-written member | corrected member |
|---|---|---|---|---|---|---|
| src/App.js:54-56,65 (reached from `applyFilters`, src/App.js:105-107) | with `preserveSignals` the signals slot receives the current array itself, so `signals.top_new_signals \|\| []` stores `[]` | any non-empty signals list, then apply filters | keep the current signals list | not executed | AppShell.AsWrittenFiltersClearSignals | AppShell.SignalsPreserved |
| src/components/Alerts.js:49,104 | the pair key is computed with `api.buildPairKey(...)`, but `buildPairKey` is a separate export (src/services/api.js:79), not a member of `api` (src/services/api.js:31-76), so the call throws a TypeError and the catch leaves no alert | one cached record `{drug_name: "Aspirin", adverse_event: "Nausea"}` with one flagged ledger entry: no alert at all | call the exported `buildPairKey` | not executed | Alerts.KeyCallDropsAlerts | Alerts.ComputeClientSideAlertsIntended |
| src/App.js:132,168 | the upload loops make the same `api.buildPairKey(...)` call, which throws into the catch at src/App.js:209-213 | the same record in the cache: the upload never starts and only the error notice shows | call the exported `buildPairKey` | not executed | AppShell.KeyCallBlocksUpload | AppShell.UploadDiff |

`Alerts.ComputeClientSideAlerts`, `Alerts.AlertsPanel.RefreshClientAlerts` and `AppShell.App.HandleCsvUpload` follow the code as written and stop at the missing key call; `Alerts.ClientAlerts`, `AppShell.UploadLedger` and the loops listed under "## Left out" are the intended behaviour, with their properties proved. `AppShell.App.LoadData` and `AppShell.App.ApplyFilters` follow the code as written, so a filtered reload empties the signal list. `AppShell.SignalsAfterLoad` is the intended signals slot, and `AppShell.SignalsPreserved` proves that it keeps the current list.
