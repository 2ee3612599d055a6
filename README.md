# Repo liquidity monitor: the rule and bookkeeping layer

A Dafny model of a daily US-liquidity report job. The job pulls several FRED
series:

- the Fed balance sheet (WALCL);
- the Treasury General Account (WTREGEN);
- the overnight reverse-repo facility (RRPONTSYD);
- the overnight repo volume (RPONTSYSAD);
- the 2-year and 10-year Treasury yields.

From these it derives:

- a net-liquidity year-over-year change;
- a repo stress level;
- the 2Y–10Y spread.

It turns those three numbers into a crypto-cycle stage, an "escape the top" signal, a 0–100 market risk score, BTC/ETH allocation advice, and 7-day and 30-day trend lines. The trend lines compare today with a JSON history of earlier runs. That history is then upserted and trimmed to its 400 latest records.

The model covers everything between the HTTP fetches and the chat message:

- cleaning of the observations;
- date alignment and year-ago resolution;
- the year-over-year arithmetic;
- every threshold table;
- the reference-record search;
- the history update and trim.

Modules follow the source files:

| module | source file |
|---|---|
| `Common` | shared datatypes: `Option`, `Result`, raw and cleaned observations |
| `Sorting` | Python's stable `sorted`/`list.sort` with a key, as a stable insertion sort |
| `Series` | the FRED observation pipeline shared by `rrp_monitor.py`, `tga_monitor.py` and `fed_bs_monitor.py`: the three files share the fetch, year-ago and YoY code. They differ in series ID, default lookback window, text builders and comment bands. |
| `RrpMonitor`, `TgaMonitor`, `FedBsMonitor` | the comment bands of each monitor |
| `NetLiquidity` | `net_liquidity.py` |
| `YieldCurve` | `yield_curve.py` |
| `RepoLiquidity` | `repo_liquidity.py` |
| `CdsMonitor` | `cds_monitor.py` |
| `Dashboard` | the classifiers of `main.py` |
| `History` | `main.py`'s history engine: reference lookup, upsert, trim |
| `Trends` | `main.py`'s trend sections |
| `CryptoIntegration` | `crypto_integration.py` |

Conventions:

- **Dates** are integer day numbers. ISO `YYYY-MM-DD` strings order the same way as the days they denote. The `1900-01-01` fallback key of the history trim is day -25567, counting days from 1970-01-01.
- **Observation values** are a `RawValue`:
  - `Null`, `Dot` and `Blank` stand for the provider's sentinels `None`, `"."` and `""`;
  - `Num(x)` stands for a value that `float()` parses.
- **Stored history fields** are a `Field`:
  - `Absent` is a missing JSON key;
  - `JsonNull` is a stored `null`;
  - `Present(v)` holds a value.

  The distinction matters. With `dict.get(key, default)`, an absent key takes the default. A stored null comes back as `None`.
- **Error paths** are `Result` values. Each exception class of the source becomes an error constructor.

## Model

| member | source | states |
|---|---|---|
| Series.Clean | rrp_monitor.py:40-44 | the cleaned list is no longer than the raw one |
| Series.CleanAppend | rrp_monitor.py:40-44 | cleaning distributes over concatenation, so it keeps the raw order |
| Series.CleanMembers | rrp_monitor.py:40-44 | an observation is kept iff it occurs in the raw list with a numeric value |
| Series.CleanEmpty | rrp_monitor.py:45-46 | nothing remains iff no raw value is numeric |
| Series.SortByDate | rrp_monitor.py:47 | the result is a permutation of the input sorted ascending by date |
| Series.FetchObservations | rrp_monitor.py:38-48 | error (no data) iff nothing survives the filter; otherwise a non-empty date-sorted permutation of the cleaned observations |
| Series.ScanYearAgo | rrp_monitor.py:55-61 | the scan's index: none iff the list is empty or starts after the target; otherwise every observation up to it is at or before the target and the next one (if any) is after it |
| Series.ScanYearAgoOnSorted | rrp_monitor.py:51-65 | on a date-sorted list the scan fails iff every date is after the target, and otherwise picks an observation with the greatest date at or before the target |
| Series.ScanYearAgoStopsAt | rrp_monitor.py:56-61 | the loop stops at the first date past the target: the scan result is fixed by that position |
| Series.FindYearAgo | rrp_monitor.py:51-65 | the loop with `break` returns the scanned observation, or the year-ago error when no observation is at or before latest − 365 |
| Series.YoY | rrp_monitor.py:78-80 | no YoY iff the year-ago value is 0; otherwise YoY × yearAgo = (latest − yearAgo) × 100 |
| Series.YoYSign | rrp_monitor.py:78-80 | with a positive base, YoY is positive iff the value grew and zero iff it is unchanged |
| Series.YoyString | rrp_monitor.py:98-101 | the percentage text is "N/A" exactly when YoY is missing |
| Series.GetStatus | rrp_monitor.py:68-88 | the monitor status: no-data iff nothing survives cleaning; no-year-ago iff no cleaned date is 365 days before the latest; otherwise the latest observation has the greatest date, the year-ago one has the greatest date at or before latest − 365, and yoy is `YoY` of their values. On ties the latest is the last element of the stably sorted list, and the year-ago one is the element the forward scan stops at |
| Series.LatestIsLastOfItsDate | rrp_monitor.py:47-76 | of the cleaned observations sharing the latest date, the one reported is the last in the provider's order (stable sort, then `obs[-1]`) |
| Series.YearAgoIsLastOfItsDate | rrp_monitor.py:47-61 | of the cleaned observations sharing the year-ago date, the one reported is the last in the provider's order |
| Series.ToMap | net_liquidity.py:50-55 | the map's keys are exactly the dates of the observations |
| Series.ToMapLastWins | net_liquidity.py:50-55 | on duplicate dates the map holds the value of the last observation with that date |
| Series.SetMax | yield_curve.py:52-57 | the result is an element of the set and no element exceeds it |
| Sorting.SortBy | main.py:75 | the result is a permutation of the input of the same length |
| Sorting.SortByIsSorted | main.py:75 | the result is ascending in the key |
| Sorting.SortByIsStable | main.py:75 | for every key the records with that key keep their relative order (Python's sort is stable) |
| RrpMonitor.CommentFor | rrp_monitor.py:104-113 | RRP bands: missing; < −70 strong release; [−70, 0) mild release; (50, ∞) tight; [0, 50] neutral, each as an iff |
| RrpMonitor.CommentMonotone | rrp_monitor.py:104-113 | a higher YoY never gives a looser comment |
| TgaMonitor.CommentFor | tga_monitor.py:104-113 | TGA bands in the source's order: > 20 strong drain; (0, 20] mild drain; < −20 injection; [−20, 0] neutral, each as an iff |
| TgaMonitor.CommentMonotone | tga_monitor.py:104-113 | a higher YoY never gives a smaller drain |
| FedBsMonitor.CommentFor | fed_bs_monitor.py:103-110 | balance-sheet bands: > 5 expansion; (−2, 5] flat; ≤ −2 contraction; missing YoY gives N/A, each as an iff |
| FedBsMonitor.CommentMonotone | fed_bs_monitor.py:103-110 | a higher YoY never gives a tighter comment |
| NetLiquidity.ParseSeries | net_liquidity.py:47-58 | empty raw list iff the empty-series error; non-empty but nothing valid iff the no-valid-value error; otherwise the map is `ToMap` of the cleaned observations: its keys are the cleaned dates, at least one, and each holds the last value given for it |
| NetLiquidity.FetchSeries | net_liquidity.py:47-58 | the dictionary-filling loop computes `ParseSeries` |
| NetLiquidity.CommonDates | net_liquidity.py:61-64 | the set narrowed with `&=` holds exactly the dates present in every series |
| NetLiquidity.LatestCommonDate | net_liquidity.py:61-67 | error iff no date is common to all series; otherwise the maximum common date |
| NetLiquidity.YearAgoCommonDate | net_liquidity.py:70-81 | error iff no common date is at or before latest − 365; otherwise the greatest such date |
| NetLiquidity.NetValue | net_liquidity.py:99-100 | WALCL − TGA − RRP: adding back the two drains gives the balance sheet, and with non-negative drains it never exceeds it |
| NetLiquidity.StatusFromSeries | net_liquidity.py:93-112 | `IsStatusOf` the three maps: alignment errors as iffs. The latest and year-ago dates are the greatest common date and the greatest common date at or before latest − 365. The year-ago date is strictly earlier. Both dates are keys of all three series. Each value is WALCL − TGA − RRP at that date, and yoy is `YoY` of the two. |
| NetLiquidity.GetNetLiquidityStatus | net_liquidity.py:84-112 | fetch errors surface in WALCL, TGA, RRP order; once all three parse, the result is `IsStatusOf` the three parsed maps, with every fact of `StatusFromSeries`: alignment-error iffs, both maximal dates, the net values and yoy |
| NetLiquidity.CommentFor | net_liquidity.py:127-134 | net-liquidity bands: missing gives N/A; > 5 positive; (−5, 5] neutral; ≤ −5 negative, each as an iff |
| YieldCurve.FetchFred | yield_curve.py:34-39 | the append loop keeps exactly the non-sentinel observations in their original order (`Series.Clean`), possibly none |
| YieldCurve.CommentFor | yield_curve.py:64-71 | spread bands: < −0.75 deep inversion; [−0.75, 0) inversion; [0, 0.4) normalising; ≥ 0.4 strongly normal, each as an iff |
| YieldCurve.CommentMonotone | yield_curve.py:64-71 | a wider spread never gives a more inverted comment |
| YieldCurve.GetYieldCurve | yield_curve.py:42-79 | error iff the 2Y and 10Y date sets are disjoint; otherwise the date is the greatest common date, a key of both series, the spread is 2Y − 10Y at that date and the comment is its band |
| YieldCurve.CommonDateExists | yield_curve.py:50-55 | the two series share a date iff some date has a numeric value in both raw lists |
| RepoLiquidity.AssessRepoStress | repo_liquidity.py:88-114 | stress bands < 5 → 0, [5, 15) → 1, [15, 30) → 3, [30, 50) → 4, ≥ 50 → 5, each as an iff; the level is never 2 |
| RepoLiquidity.AssessRepoStressMonotone | repo_liquidity.py:93-112 | a larger repo volume never gives a lower level |
| RepoLiquidity.FetchRepoObservations | repo_liquidity.py:45-51 | error iff no raw value is numeric; otherwise the cleaned, non-empty list |
| RepoLiquidity.SumAtMost | repo_liquidity.py:74 | a sum of values each at most m is at most n × m |
| RepoLiquidity.MeanAtMost | repo_liquidity.py:74 | a mean of values each at most m is at most m |
| RepoLiquidity.LastSeven | repo_liquidity.py:73 | the window is the suffix of length min(7, n) |
| RepoLiquidity.MaxIndex | repo_liquidity.py:77 | `max` with a key: an index whose value is at least every value, and the first such index |
| RepoLiquidity.Summarize | repo_liquidity.py:68-85 | on a date-sorted non-empty list: latest is the last observation and has the greatest date; the maximum is the observation at `MaxIndex`, the first of greatest value, and bounds every value; avg_7 is the mean of the last min(7, n) values and does not exceed the maximum |
| RepoLiquidity.GetLatestRepoInfo | repo_liquidity.py:55-85 | error iff nothing survives cleaning; otherwise the facts of `Summarize` about the cleaned observations: latest is the last and max the `MaxIndex` element of the stably date-sorted list, and avg_7 is taken over that list |
| RepoLiquidity.HintFor | repo_liquidity.py:140-159 | hint bands: ≤ 1 healthy; (1, 3] tightening; 4 high pressure; > 4 danger, each as an iff |
| RepoLiquidity.HintForValue | repo_liquidity.py:140-159 | composed with the stress bands, the hint depends on the volume by bands, and "tightening" is only ever reached through level 3 |
| CdsMonitor.InterpretCds | cds_monitor.py:45-53 | CDS bands: > 80 danger; (60, 80] above norm; (40, 60] slightly high; ≤ 40 normal. Each is an iff, so every value gets exactly one. |
| CdsMonitor.InterpretCdsMonotone | cds_monitor.py:45-53 | a higher CDS never gives a milder reading |
| CdsMonitor.RemoveCommas | cds_monitor.py:37 | no comma remains, every other character keeps its count, and comma-free text is unchanged |
| CdsMonitor.RemoveCommasAppend | cds_monitor.py:37 | removal distributes over concatenation, so the remaining characters keep their order |
| CdsMonitor.RemoveCommasChar | cds_monitor.py:37 | on one character a comma disappears and anything else stays |
| CdsMonitor.LeadingSpace | cds_monitor.py:37 | the length of the whitespace prefix that `strip` removes at the front |
| CdsMonitor.TrailingSpace | cds_monitor.py:37 | the length of the whitespace suffix that `strip` removes at the back |
| CdsMonitor.Strip | cds_monitor.py:37 | a contiguous slice of the text starting after the leading whitespace, with only whitespace after it, and both ends non-space. It is empty iff the text is all whitespace. |
| CdsMonitor.CleanRaw | cds_monitor.py:37 | the cleaned text has no comma and does not start or end with whitespace; it is the slice of the comma-free text after its leading whitespace, with only whitespace after it |
| CdsMonitor.StripKeepsOut | cds_monitor.py:37 | stripping never introduces a character that was absent |
| CdsMonitor.StripStripped | cds_monitor.py:37 | stripping text without outer whitespace changes nothing |
| CdsMonitor.CleanRawIdempotent | cds_monitor.py:37 | cleaning already cleaned text changes nothing |
| Dashboard.IndexOf | main.py:426-430 | `list.index`: none iff absent; otherwise the first position holding the value |
| Dashboard.StageRank | main.py:413-430 | a rank iff the stage is one of the nine ordered names, and that rank indexes the name |
| Dashboard.StageRankOfName | main.py:413-430 | each classifier stage other than Unknown has its bear-to-bull position as rank; Unknown has none |
| Dashboard.ClassifyCryptoCycle | main.py:156-283 | Unknown iff some input is missing. Any other stage is one of the nine ordered names, so the fallback is unreachable. YoY > 15 gives Late Bull whatever the repo level and spread. |
| Dashboard.ClassifyBands | main.py:175-276 | each of the nine stages as an iff of its YoY band and its repo or spread condition |
| Dashboard.ClassifyMonotoneInLiquidity | main.py:175-276 | at fixed repo level and spread, a higher YoY never gives an earlier stage |
| Dashboard.EscapeText | main.py:297-334 | every outcome has a non-empty message, so the section always shows it |
| Dashboard.EscapeFlags | main.py:301-317 | at most three flags fire, because YoY > 10 and YoY < 2 exclude each other; none fires iff 2 ≤ YoY ≤ 10, level < 3 and spread ≤ −0.1 |
| Dashboard.EscapeTopSignal | main.py:297-334 | insufficient signal iff an input is missing; otherwise exit iff ≥ 2 flags, watch iff exactly 1, no exit iff 0 |
| Dashboard.NoExitExactly | main.py:297-334 | "no exit" exactly when 2 ≤ YoY ≤ 10, level < 3 and spread ≤ −0.1 |
| Dashboard.LiquidityRisk | main.py:349-360 | liquidity bands: ≤ −10 → 80; (−10, −5] → 65; (−5, 0] → 55; (0, 5] → 40; (5, 15] → 30; > 15 → 60, each as an iff |
| Dashboard.RepoRisk | main.py:363-372 | repo bands: ≤ 0 → 20; 1 → 30; 2 → 45; 3 → 65; ≥ 4 → 80, each as an iff |
| Dashboard.CurveRisk | main.py:375-382 | curve bands: < −0.5 → 50; [−0.5, 0) → 55; [0, 0.5) → 65; ≥ 0.5 → 75, each as an iff |
| Dashboard.RiskComponentsShape | main.py:349-382 | liquidity risk never rises with YoY up to 15 and overheating above 15 scores at least any positive YoY; repo risk never falls as the level rises; curve risk never falls as the spread widens |
| Dashboard.RoundThird | main.py:384 | `round(total / 3)` is within 1/3 of total / 3 |
| Dashboard.ComputeMarketRiskScore | main.py:344-386 | none iff an input is missing; otherwise the score is the third of the three components rounded to the nearest integer, and lies in 33..78, so the clamp to [0, 100] never acts |
| Dashboard.RiskBandOf | main.py:389-407 | risk-line bands: missing N/A; < 35 low; [35, 60) neutral; [60, 80) high; ≥ 80 extreme, each as an iff |
| Dashboard.NoExtremeRisk | main.py:400-405 | the extreme band is unreachable from computed scores |
| Dashboard.DynamicSummary | main.py:112-150 | each of the three summary phrases as an iff of its input band, including the missing case |
| Dashboard.NoLevelTwoPhrase | main.py:130-131 | the "slightly up" stress phrase is unreachable for levels produced by the stress bands |
| Dashboard.RuleAlerts | main.py:664-674 | the pivot alert iff level ≥ 3 and YoY > 0; the QT-end alert iff level ≥ 4; pivot before QT-end |
| CryptoIntegration.StageGroupsPartition | crypto_integration.py:17-19 | the bear, transition and bull groups are disjoint and together are exactly the nine ordered stages |
| CryptoIntegration.CycleArrow | crypto_integration.py:9-27 | down iff a bear stage; up iff a transition or bull stage; sideways iff missing or unrecognised |
| CryptoIntegration.MacroRiskLabel | crypto_integration.py:30-39 | risk label bands: missing unknown; < 35 low; < 60 neutral; < 80 high; otherwise extreme, each as an iff |
| CryptoIntegration.MacroRiskLabelMatchesRiskLine | crypto_integration.py:30-39 | the section's risk label and the risk line's band agree for every score |
| CryptoIntegration.BtcEthWeight | crypto_integration.py:42-71 | balanced when a value is missing; defensive BTC iff Late Bull or score ≥ 80 (ahead of every stage branch); ETH-leaning iff Mid/Volatile Bull below 70; BTC base for early bull and transitions below 80; bear tilt for bear stages below 80 |
| CryptoIntegration.MidBullHighScoreIsBalanced | crypto_integration.py:59-71 | Mid/Volatile Bull with 70 ≤ score < 80 falls through to the balanced default |
| CryptoIntegration.OverallExposure | crypto_integration.py:74-111 | each exposure band as an iff of stage and score. Bear stages get 10–30% whatever the score. Mid/Volatile Bull at ≥ 70 is told to reduce to 40–60%. The 40–60% hold applies only to unrecognised stages below 70. |
| CryptoIntegration.SectionLines | crypto_integration.py:114-176 | 11 lines, or 12 with an escape comment; the first three are the header, cycle and risk lines and the last eight the exposure, BTC/ETH and note lines |
| CryptoIntegration.BuildBtcEthSection | crypto_integration.py:114-176 | the append sequence builds exactly `SectionLines` |
| CryptoIntegration.SectionLinesShape | crypto_integration.py:141-176 | header first; 11 lines, or 12 with an escape comment; the risk line is N/A iff no score and otherwise carries the score and its label; the escape line appears iff the comment is non-empty; exposure and BTC lines present; the last two lines are the fixed notes |
| CryptoIntegration.MacroContextOf | main.py:643-651 | the context the run builds always has a stage, a label and a non-empty escape comment |
| CryptoIntegration.PipelineAdvice | main.py:643-652 | through the run's own context: no score iff the stage is Unknown; balanced iff Unknown; defensive BTC iff Late Bull; Mid/Volatile Bull always lean to ETH with 70–90% exposure; the 40–60% hold never occurs |
| History.FieldOf | main.py:621-628 | a snapshot value is stored as a present field, or as null when it is `None`; never as an absent key |
| History.ReferenceIndex | main.py:81-106 | none iff no record has a date; otherwise a dated record at least as close to the target as every dated record and strictly closer than every earlier one (first wins on ties) |
| History.ReferenceIndexIsFirstClosest | main.py:93-104 | the first closest dated record is exactly the one chosen |
| History.FindReferenceEntry | main.py:81-106 | the `best`/`best_diff` loop returns the record `ReferenceIndex` chooses for today − lookback |
| History.DateIndex | main.py:767-771 | none iff no record has that date; otherwise the first record with it |
| History.Upserted | main.py:766-773 | the list grows by at most one record and contains today's record |
| History.UpsertedChangesOnlyToday | main.py:766-773 | the list grows by one iff no record had today's date; the record found for today's date is today's snapshot; every other record is unchanged |
| History.UpsertedIdempotent | main.py:766-773 | running the upsert twice with the same snapshot equals running it once |
| History.HistoryList.constructor | main.py:629 | the list starts as the loaded records |
| History.HistoryList.Upsert | main.py:766-773 | the in-place update or append leaves the list equal to `Upserted` of the old one |
| History.HistoryList.UpsertAndSave | main.py:766-774 | after the upsert, the list written is the trimmed list |
| History.SortKey | main.py:69-73 | the sort key of `_parse_date`: the record's day, or 1900-01-01 (day −25567) when it has none |
| History.Trimmed | main.py:65-75 | at most 400 records are kept, a list of at most 400 is unchanged, and no record is invented |
| History.TrimmedKeepsLatest | main.py:67-75 | a longer list becomes date-sorted, and every record later than the earliest kept one is kept |
| History.TrimmedKeepsLastOfEachDate | main.py:67-75 | for every date, the kept records of that date are the last ones of that date in the stable order |
| Trends.DeltaReal | main.py:463 | today minus the reference value; zero when the key is absent; the `TypeError` iff today's value is missing or the stored value is null |
| Trends.DeltaInt | main.py:472 | the same for the repo level |
| Trends.Classify | main.py:464-469 | rising iff the change exceeds the band, falling iff it is below its negative, steady otherwise |
| Trends.LiquidityTrend | main.py:463-469 | error as in the subtraction; an absent field is steady; otherwise improving iff the change > 0.1 and worsening iff < −0.1 |
| Trends.RepoTrend | main.py:472-478 | error as in the subtraction; an absent field is steady; otherwise rising iff the level went up and falling iff it went down |
| Trends.CurveTrend | main.py:481-487 | error as in the subtraction; an absent field is steady; otherwise narrowing iff the change > 0.02 and widening iff < −0.02 |
| Trends.Get | main.py:500 | `dict.get` without a default: a value iff the field is present |
| Trends.SevenDayFor | main.py:460-491 | the 7-day section fails iff one of the three subtractions meets a missing or null value; otherwise it holds the `LiquidityTrend`, `RepoTrend` and `CurveTrend` directions |
| Trends.ThirtyDayMoves | main.py:497-519 | at most three lines, in liquidity, repo, curve order; a line for an indicator iff the reference holds it and today's value is present; each line carries the reference value and today's value |
| Trends.ShiftArrowFor | main.py:526-538 | neutral iff either stage has no rank; up or down iff the rank rose or fell; level only for the same stage |
| Trends.CycleShiftFor | main.py:521-542 | a comparison iff there is a reference and today's label is non-empty; it uses the 30-day reference when there is one, else the 7-day one, and its arrow compares the two stages' ranks |
| Trends.TrendSections | main.py:436-544 | fails iff a 7-day reference exists and its section fails; "not enough history" for each period iff it has no reference; otherwise the 7-day section is `SevenDayFor`, the 30-day section is `ThirtyDayMoves` of the 30-day reference, and the shift line is `CycleShiftFor` |
| Trends.BuildTrendSections | main.py:436-544 | with both reference lookups done by the loop, the result is `TrendSections` of the records closest to today − 7 and today − 30 |
| Trends.MissingIndicatorBreaksSevenDay | main.py:463-487 | with a 7-day reference, a missing indicator today makes the section fail |
| Trends.SelfComparisonIsSteady | main.py:463-487 | a snapshot compared with its own stored record is steady on all three lines |

## Left out

- Network access is not modelled: every HTTP request to FRED, the CDS page and the chat API. A fetch result is a parameter, a list of (date, raw value) pairs. The HTTP status checks and the missing-API-key checks are not modelled either.
- `telegram_client.py` and `generate_chart.py` are not part of this model. They send messages and draw a chart.
- `get_us_5y_cds` is not modelled beyond the text cleanup at cds_monitor.py:37. The HTML parsing is left out, and so is the `float()` of the cleaned text.
- Clock reads (`date.today`, `utcnow`) are left out: today is a parameter. The `lookback_days` request window only narrows what the provider returns, so it is subsumed by the observation list given as input.
- `strptime`/`fromisoformat` are left out: dates are day numbers. So are history dates that are empty, missing or unparseable. The model has them as `None` (skipped by the lookup, key 1900-01-01 in the trim). Non-canonical spellings that still parse are not distinguished.
- Floating-point behaviour is not modelled. Values are exact reals, `float()` is abstracted into `Num`, and NaN is not represented.
- The prose and number formatting of every message is not modelled (the Chinese wording, `:.2f`, emoji arrows). Outcomes are datatype constructors. `Dashboard.EscapeText` returns fixed tags in place of the four messages.
- `build_brief_message`, the `build_*_text` report assembly, and the run's exception handling and `print` logging are not modelled. The rule alerts, the macro context and the trend sections they assemble are modelled.
- `load_history` and the JSON write in `save_history` are left out. `History.HistoryList.UpsertAndSave` returns the list that would be written.
- History records carry only the six snapshot keys. Other keys an old record may hold would survive `h.update`; the model has no place for them, so an update replaces the record with today's snapshot.
- `Series.SortByDate`, `Sorting.SortBy`: the in-place `list.sort` of rrp/tga/fed_bs/repo is modelled as a function on a sequence, not as a mutation of a shared list.
- `YieldCurve.FetchFred`: an observation without a `"value"` key raises `KeyError` in the source. The model's observations always carry a value.
- `Trends.BuildTrendSections` returns the sections as datatypes rather than lists of formatted lines.
