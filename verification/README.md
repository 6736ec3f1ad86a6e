# Minstrel rate control: a verified model

This project models the Minstrel transmit-rate controller of the W1U Wi-Fi driver and proves
how it behaves over all inputs and all runs. The driver has two controllers: one for HT/VHT
stations with eleven groups of ten rates, and one for legacy stations with a compacted array of
rates. Both keep success averages per rate, rank rates by estimated throughput, publish a retry
chain and probe other rates within a budget.

Layout, one module per file:

- `FixedPoint`: 12-bit fractions, truncating division, the moving average and variance.
- `RateStatistics`: the statistics of one rate and every event that touches them.
- `SampleTable`: linear probing into both sampling tables.
- `FrameDuration`, `RateGroups`: air times and throughput estimates.
- `TopRates`: the bounded insertion that keeps four rates, and the CCK merge.
- `Retransmit`: how many tries fit into a retry segment.
- `ProbeBudget`, `HtSampler`: pacing and order of HT probes.
- `HtCaps`, `HtTables`, `HtSpec`: supported rates, rate codes, and the HT steps on values.
- `HtRobust`, `HtRule`: what the choice of the most robust rate amounts to, and when it follows
  the announced rule.
- `HtPublished`: what a round can and cannot publish.
- `HtStation`: the HT controller as a class; every driver event is a method that keeps `Valid()`.
- `HtRuns`: runs of such a station, from its set-up on, that reach the surprising states below.
- `HtDecline`: runs in which the primary rate stops getting through.
- `LegacyBudget`, `LegacyRuns`, `LegacyRetries`, `LegacyStation`: the legacy controller; its frames
  and reports are the steps of the runs that `LegacyRuns` reasons about.

Random bytes, the clock and the signal quality are arbitrary inputs: random bytes are sequence
parameters, "the update interval is over" is a boolean, and the fitting slot and width are
parameters. Structs embedded in C arrays are datatype values; a station's tables are sequences
that its methods reassign, while the sampling tables and the rate lists under construction are
arrays changed in place. Some proofs use `hide` statements to keep definitions out of a proof
that does not need them.

Findings where the code differs from what its comments or a first reading suggest:

- The moving variance is bounded by 3069, not by 3072: the truncated recurrence stalls there.
  While nothing clears or re-seeds a rate the bound is 1027.
- The ten percent of probes that the comment at `project_w1u/vmac/rc80211_minstrel.c:733-737`
  speaks of hold over every run of a legacy station if and only if no rate in use is slower than
  any of the best rates it sends with. Completion reports of this driver drop the probe flag
  (`project_w1u/vmac/rc80211_minstrel_init.c:899-903`), so each report forgives a deferred probe
  without counting it. The sampling table limits the damage, because every column also contains
  the rates that are not slower and those probes are counted. With five rates or more of which
  only the best is not slower, and enough frames in reserve for its next draw, every second frame
  is a probe until the count restarts at 10000. Over runs of any length all but a few frames per
  restart come in such pairs. Every second frame is also the most.
- The rule announced for the most robust rate at `project_w1u/vmac/rc80211_minstrel_ht.c:453-454`
  is not always what the scan computes: a slower and less reliable rate can win when rates above
  and below 75% compete, and an old choice is compared through its average from before the update.
  `HtRule` says exactly when the rule is followed. With rates above 75%, one of them must overtake
  the choice that stands without them, no later than a fastest one of them is scanned. Without
  such rates, a most reliable rate must be the old choice, follow it, or beat its outdated average.
- The pass that looks for a robust rate with fewer streams never changes anything, because no
  group of this driver has more than one stream.
- A clearing round only clears rates that have a success history. A rate above the limit whose
  first successes fall into the current window is not cleared, and a station's primary rate can end
  above the limit: a probe at slot 3 does it in a round with limit 1. It does if and only if such a
  rate, dependable by its first window, lies above the limit in the group of the fastest rate and no
  higher than that rate.
- A stage of the chain can name an unsupported rate: a placeholder. A VHT station publishes HT
  slot 0 until a rate has its first success. A station that supports 11 Mbit/s as its only CCK rate
  publishes CCK slot 0 when that rate leads with less than 50% success.
- A probe outside start-up is supported if the mask of its group has no odd gap. MCS masks have
  none; a CCK mask of 11 Mbit/s alone has one, and under a first rate at slot 0 the unsupported CCK
  slot 1 is probed.
- With a retry limit below 3 the HT retry loop could return 3, since it tests the limit only after
  trying for a third attempt. The driver fixes the limit at 3
  (`project_w1u/vmac/rc80211_minstrel_init.c:182`), so no caller reaches this case.
- The protected retry counts of a legacy rate leave out its first try and can exceed the plain
  count by one. Where only one try fits, the reduction for rates below 10% or above 95% success
  raises the count to two.
- The redraw loop of the HT sampler runs forever if no supported group has a supported slot
  within the limit. Every non-empty HT or VHT mask this driver builds contains slot 0, and a station
  has one, so it always stops.

## Model

| member | source | states |
|---|---|---|
| `FixedPoint.Frac` | project_w1u/vmac/rc80211_minstrel.h:19-22 | a success fraction never exceeds full scale, even when the shift wraps, and is exact below 2^20 |
| `FixedPoint.EwmaBetween` | project_w1u/vmac/rc80211_minstrel.h:36-45 | the average stays between old value and sample and moves a quarter of the way, rounded toward the old value |
| `FixedPoint.VarianceClosedIff` | project_w1u/vmac/rc80211_minstrel.h:50-58 | a variance bound survives every possible update if and only if it is at least 3069 |
| `FixedPoint.CoupledStep` | project_w1u/vmac/rc80211_minstrel.h:36-58 | one joint update keeps variance below avg*(1-avg) plus rounding slack |
| `RateStatistics.ApplyKeepsSane` | project_w1u/vmac/rc80211_minstrel.c:166-191 | every event keeps success <= attempts, history ordered, average within 0..4096 and variance within 0..3069 |
| `RateStatistics.RunKeepsSane` | project_w1u/vmac/rc80211_minstrel.c:166-191 | the same over every run of reports, clears, seedings, zeroings and recalculations |
| `RateStatistics.ImplausibleReportBreaks` | project_w1u/vmac/rc80211_minstrel_ht.c:715-728 | a report with no tries and an acknowledgement breaks the bounds |
| `RateStatistics.CreditSaneIff` | project_w1u/vmac/rc80211_minstrel_ht.c:715-728 | a report keeps the bounds exactly when its successes fit into its tries plus the failures already counted |
| `RateStatistics.VarianceBoundIsReached` | project_w1u/vmac/rc80211_minstrel_ht.c:420-445 | a run from a fresh rate reaches variance 3069, so the bound is tight |
| `RateStatistics.UndisturbedVariance` | project_w1u/vmac/rc80211_minstrel.c:166-191 | runs of reports and recalculations alone keep the variance within 1027 |
| `RateStatistics.CalcTakesIn` | project_w1u/vmac/rc80211_minstrel.c:166-191 | a recalculation moves the average a quarter of the way to the success share of the window, a first window sets it, an empty one leaves it; the window joins the history and is emptied |
| `SampleTable.Probe` | project_w1u/vmac/rc80211_minstrel.c:533-535 | linear probing ends at the first free cell after the start, going round |
| `SampleTable.PlaceValue` | project_w1u/vmac/rc80211_minstrel_ht.c:1404-1409 | value i lands in the first free cell from (i + its random byte) mod n on, going round; one cell of one column changes |
| `SampleTable.FillColumn` | project_w1u/vmac/rc80211_minstrel.c:530-539 | a filled column is the linear-probing placement of all values; other columns are untouched |
| `SampleTable.PlacedIsPermutation` | project_w1u/vmac/rc80211_minstrel.c:520-539 | for 1 to 255 rates and any random bytes a filled column is a permutation |
| `SampleTable.EveryPermutationArises` | project_w1u/vmac/rc80211_minstrel_ht.c:1400-1410 | every permutation is the filled column of some random values |
| `SampleTable.InitSampleTable` | project_w1u/vmac/rc80211_minstrel.c:520-539 | every column of the table is the placement and a permutation, in both memory layouts |
| `HtSampler.InitHtTable` | project_w1u/vmac/rc80211_minstrel_ht.c:1396-1411 | the HT table consists of ten permutations of the ten slots |
| `HtSampler.NextIsTick` | project_w1u/vmac/rc80211_minstrel_ht.c:627-647 | advancing to the next supported group is a run of single group steps |
| `HtSampler.DrawsAreFair` | project_w1u/vmac/rc80211_minstrel_ht.c:627-647 | any 100*k consecutive draws over k supported groups present every slot of every supported group exactly ten times |
| `HtSampler.RedrawStops` | project_w1u/vmac/rc80211_minstrel_ht.c:931-946 | an acceptable draw comes up within 100 draws per supported group |
| `HtSampler.RedrawStopsIff` | project_w1u/vmac/rc80211_minstrel_ht.c:931-946 | the redraw loop stops if and only if some supported group has a supported slot within the limit |
| `FrameDuration.FrameTimeIsLeast` | project_w1u/vmac/rc80211_minstrel.c:799-864 | a frame fits into n symbols (or CCK microseconds) exactly when its computed time does |
| `FrameDuration.FrameTimeAntitone` | project_w1u/vmac/rc80211_minstrel.c:799-864 | within one modulation a faster rate never takes longer |
| `FrameDuration.LegacyTpMonotone` | project_w1u/vmac/rc80211_minstrel.c:82-98 | the estimate rises with bitrate and success average and is constant above 90% |
| `FrameDuration.LegacyTpIs` | project_w1u/vmac/rc80211_minstrel.c:82-98 | below 10% of 4096 the estimate is 0, else a hundred times the success share per microsecond, the share at most 90%, after two roundings |
| `RateGroups.SymbolsBounded` | project_w1u/vmac/rc80211_minstrel_ht.h:84-99 | symbol counts stay within bounds that keep the duration macros inside 32-bit signed integers |
| `RateGroups.DurationBounded` | project_w1u/vmac/rc80211_minstrel_ht.h:114-198 | every existing rate has a positive, bounded duration |
| `RateGroups.DurationZeroIff` | project_w1u/vmac/rc80211_minstrel_ht.h:114-198 | exactly the ninth and tenth entries of the HT groups and of CCK have no duration |
| `RateGroups.BitsFromModulation` | project_w1u/vmac/rc80211_minstrel_ht.h:114-185 | the bits per symbol of all thirty rates are 52, 108 or 234 carriers times bits per carrier times code rate, rounded down |
| `RateGroups.McsDurationIs` | project_w1u/vmac/rc80211_minstrel_ht.h:84-99 | a duration is a sixteenth of the time of the least number of symbols, of 4 or 3.6 microseconds, that holds the aggregate |
| `RateGroups.CckDurations` | project_w1u/vmac/rc80211_minstrel_ht.h:174-198 | the eight CCK durations in microseconds: frame, acknowledgement, and 96 less with a short preamble |
| `RateGroups.HtTpExact` | project_w1u/vmac/rc80211_minstrel_ht.c:173-200 | at existing rates the wrapping 32-bit estimate equals the exact integer formula, with the limits 409 and 3686 of 4096 and 108 microseconds of overhead shared by the aggregate |
| `RateGroups.HtTpMonotone` | project_w1u/vmac/rc80211_minstrel_ht.c:173-200 | the estimate rises with the success average and is constant above 90% |
| `TopRates.InsertInPlace` | project_w1u/vmac/rc80211_minstrel_ht.c:209-240 | the in-place insertion puts a rate behind everything that ranks at least as high and drops the last entry |
| `TopRates.TopListIsTop` | project_w1u/vmac/rc80211_minstrel_ht.c:209-240 | scanning rates in order yields the best four by throughput, average and index; what is left out ranks below the last entry |
| `TopRates.IsTopUnique` | project_w1u/vmac/rc80211_minstrel_ht.c:209-240 | exactly one list has these properties |
| `TopRates.TopListAgrees` | project_w1u/vmac/rc80211_minstrel_ht.c:489-512 | recalculating rates still ahead of the scan does not disturb a list |
| `TopRates.MergeHead` | project_w1u/vmac/rc80211_minstrel_ht.c:299-322 | after the merge the faster of the two heads leads |
| `TopRates.MergeIsBest` | project_w1u/vmac/rc80211_minstrel_ht.c:299-322 | the merged list is in order and holds listed rates only; it is the MCS list, or, under a faster CCK head, leaves out nothing of either list that ranks above its last entry |
| `TopRates.NoMixing` | project_w1u/vmac/rc80211_minstrel_ht.c:299-322 | CCK rates are listed only behind a CCK head, and no scanned rate is faster than the head |
| `Retransmit.WindowClosedForm` | project_w1u/vmac/rc80211_minstrel_ht.c:793-797 | the contention window is min(2^n*(cw_min+1)-1, cw_max) |
| `Retransmit.CountRetries` | project_w1u/vmac/rc80211_minstrel_ht.c:766-822 | each count is the largest try count whose total air time fits the segment, never below 2; with RTS/CTS never above the plain one |
| `Retransmit.WithinLimitIff` | project_w1u/vmac/rc80211_minstrel_ht.c:808-821 | the count stays within the retry limit exactly when the limit is at least 3, or is 2 and a third try does not fit |
| `Retransmit.LargestFitUnique` | project_w1u/vmac/rc80211_minstrel_ht.c:808-821 | the air times determine the counts |
| `ProbeBudget.BudgetIsConserved` | project_w1u/vmac/rc80211_minstrel_ht.c:705-710 | over any number of intervals, probes sent, refills left and refills lost at updates add up to what there was and what was granted |
| `ProbeBudget.ProbesPerInterval` | project_w1u/vmac/rc80211_minstrel_ht.c:472-487 | an interval sends at most the leftover tries plus 20 probes per supported group |
| `ProbeBudget.ProbesOverIntervals` | project_w1u/vmac/rc80211_minstrel_ht.c:472-539 | a run with any number of updates sends at most 20 probes per supported group and update on top of what was left |
| `ProbeBudget.TenFramesAfterRefill` | project_w1u/vmac/rc80211_minstrel_ht.c:966-972 | no probe among the ten frames after a refill |
| `HtCaps.VhtMaskOk` | project_w1u/vmac/rc80211_minstrel_ht.c:74-105 | a one-stream VHT mask is empty or contains slots 0..7 without gaps |
| `HtCaps.GroupMaskOk` | project_w1u/vmac/rc80211_minstrel_ht.c:1183-1258 | so is every mask the driver builds, and no mask names a slot without a duration |
| `HtCaps.HtGroups` | project_w1u/vmac/rc80211_minstrel_ht.c:1183-1230 | the masks of the HT groups and of CCK, one by one, from the announced capabilities |
| `HtCaps.VhtGroups` | project_w1u/vmac/rc80211_minstrel_ht.c:1232-1258 | the slots of each VHT group: 0 to 7, 8 or 9 by capability code, without slot 9 at 20 MHz |
| `HtCaps.EncodeDecode` | project_w1u/vmac/rc80211_minstrel_ht.c:127-161 | the hardware code of a supported rate is credited to exactly that rate |
| `HtTables.KeyIsExact` | project_w1u/vmac/rc80211_minstrel_ht.c:173-200 | in every valid table each throughput estimate is the exact formula |
| `HtTables.RecalcKeepsOk` | project_w1u/vmac/rc80211_minstrel_ht.c:482-498 | recalculating supported rates keeps averages non-zero only there and all bounds |
| `HtTables.ClearKeepsOk` | project_w1u/vmac/rc80211_minstrel_ht.c:389-418 | clearing keeps the table valid |
| `HtTables.ZeroKeepsOk` | project_w1u/vmac/rc80211_minstrel_ht.c:420-445 | zeroing averages keeps the table valid |
| `HtTables.SeedKeepsOk` | project_w1u/vmac/rc80211_minstrel_ht.c:571-602 | start-up seeding keeps the table valid although it touches slots without a support check |
| `HtTables.ScannedListIsTop` | project_w1u/vmac/rc80211_minstrel_ht.c:475-512 | each list an update builds is the top four of exactly the supported rates of its kind scanned so far |
| `HtTables.BestRatesSound` | project_w1u/vmac/rc80211_minstrel_ht.c:534-536 | no supported rate is faster than the head of the new list, and CCK is never mixed under MCS |
| `HtTables.CreditedKeepsOk` | project_w1u/vmac/rc80211_minstrel_ht.c:715-728 | crediting a report keeps the table valid |
| `HtTables.CreditedBooks` | project_w1u/vmac/rc80211_minstrel_ht.c:715-728 | each rate is booked the tries of the slots that name it, and the acknowledged frames exactly if the last slot in use names it and is not the fourth; nothing else changes |
| `HtTables.CreditsConserved` | project_w1u/vmac/rc80211_minstrel_ht.c:715-728 | a report adds exactly its tries, and its successes once unless all four slots are in use |
| `HtSpec.CompletionReport` | project_w1u/vmac/rc80211_minstrel_init.c:899-917 | a completion report is unaggregated, acknowledges at most one frame, and its used slots carry tries |
| `HtSpec.CompletionCreditable` | project_w1u/vmac/rc80211_minstrel_init.c:905-917 | such a report over slots filled in for any rates of the table, tried or not, can be credited |
| `HtSpec.ClampSupportedIff` | project_w1u/vmac/rc80211_minstrel_ht.c:1001-1004 | moving a drawn slot next to the first rate leads to a supported slot for every draw exactly when the mask has all its odd slots |
| `HtSpec.OnCountIs` | project_w1u/vmac/rc80211_minstrel_ht.c:481-487 | the groups the round robin visits are the groups the probe budget counts |
| `HtSpec.ClearedLost` | project_w1u/vmac/rc80211_minstrel_ht.c:389-418 | after clearing and recalculation a cleared rate has average 0 and cannot be the dependable primary rate |
| `HtSpec.ClearingNoted` | project_w1u/vmac/rc80211_minstrel_ht.c:517-523 | an update asks for clearing exactly when a supported rate that has worked before is below 10%, or the start-up rate below 100%, and marks exactly their widths |
| `HtSpec.NextAvgLenIs` | project_w1u/vmac/rc80211_minstrel_ht.c:465-470 | the average aggregate moves a quarter of the way to the subframes per packet |
| `HtSpec.StartIdxIs` | project_w1u/vmac/rc80211_minstrel_ht.c:571-602 | the start-up rate is slot 0 of the highest group seeded, or unchanged |
| `HtSpec.FailingIff` | project_w1u/vmac/rc80211_minstrel_ht.c:734-744 | sudden death in raw counters: more than 30 tries and 4096 times the successes below 819 times the tries |
| `HtSpec.DowngradedIs` | project_w1u/vmac/rc80211_minstrel_ht.c:649-671 | the replacement is that entry of the list of the highest supported lower group with no more streams, or the rate itself without such a group |
| `HtSpec.CostMatchesEstimate` | project_w1u/vmac/rc80211_minstrel_ht.c:784-805 | the air time of a try is the time the throughput estimate uses for all its frames, up to rounding; protection adds 120 microseconds, but not to CCK |
| `HtSpec.FortyMegahertzCounts` | project_w1u/vmac/rc80211_minstrel_ht.c:766-822 | at slot 6 of the 40 MHz group, unaggregated, both counts are three |
| `HtRobust.ChosenIsNoted` | project_w1u/vmac/rc80211_minstrel_ht.c:245-290 | the scan's robust rate is a choice among the supported rates, CCK only under a CCK head, in which the old choice counts by its old key until it is scanned |
| `HtRobust.ChosenIsGreatestIff` | project_w1u/vmac/rc80211_minstrel_ht.c:447-455 | if all competing rates lie on one side of 75%, the result is the greatest in throughput (above) or success average (below) exactly when some greatest rate is the old choice, scanned after it, or beats its outdated key |
| `HtRobust.SettledChoiceIsGreatest` | project_w1u/vmac/rc80211_minstrel_ht.c:260-263 | so it is whenever the old choice has not lost by its recalculation |
| `HtRobust.FastestReliableWins` | project_w1u/vmac/rc80211_minstrel_ht.c:453-454 | with rates on both sides, a fastest rate above 75% that is faster than all rates below wins |
| `HtRobust.OutdatedChoiceStays` | project_w1u/vmac/rc80211_minstrel_ht.c:260-263 | two scans after two windows of tries: the choice of the first stays in the second although another rate is now more reliable |
| `HtRobust.MixedScanMisses` | project_w1u/vmac/rc80211_minstrel_ht.c:453-454 | two scans after two windows of tries: the second ends at a rate slower and less reliable than one above 75% |
| `HtRule.StandingUnique` | project_w1u/vmac/rc80211_minstrel_ht.c:284-289 | the choice that stands without rates above 75% is determined: the most reliable noticed rate or the old choice |
| `HtRule.ChosenTracked` | project_w1u/vmac/rc80211_minstrel_ht.c:277-289 | the scan's choice is the standing one until a rate above 75% overtakes it, and then keeps up with every such rate scanned since |
| `HtRule.ChosenIsFastestFirmIff` | project_w1u/vmac/rc80211_minstrel_ht.c:453-454 | the result is above 75% and no slower than any rate above 75% exactly when one of them overtakes the standing choice no later than a fastest one is scanned |
| `HtRule.RuleFollowedIff` | project_w1u/vmac/rc80211_minstrel_ht.c:447-455 | exactly when the result follows the announced rule, for every table and every old choice |
| `HtPublished.SurvivesIff` | project_w1u/vmac/rc80211_minstrel_ht.c:400-416 | a rate keeps an average through clearing exactly when it has no success history and the open window gives it one |
| `HtPublished.PrimaryAboveIff` | project_w1u/vmac/rc80211_minstrel_ht.c:748-763 | the published primary rate exceeds the limit exactly when a dependable rate without history lies above it, in the head's group and no higher than the head |
| `HtPublished.LimitHeldIff` | project_w1u/vmac/rc80211_minstrel_ht.c:748-763 | a round holds the limit whatever rate is fastest exactly when it finds no such rate |
| `HtPublished.HistoryHoldsLimit` | project_w1u/vmac/rc80211_minstrel_ht.c:404-405 | it finds none if every supported rate above the limit has a success history |
| `HtPublished.RoundKeepsLimit` | project_w1u/vmac/rc80211_minstrel_ht.c:748-763 | the same condition for the whole new list; no listed rate was cleared, and those above the limit had their first successes in the last window |
| `HtPublished.BestRatesSupported` | project_w1u/vmac/rc80211_minstrel_ht.c:534-536 | every entry of the new list is the placeholder or a supported rate with a success average |
| `HtPublished.GroundedSupportedIff` | project_w1u/vmac/rc80211_minstrel_ht.c:475-479 | all rates that may be published are supported exactly when slot 0 of the first group and of a supported CCK group is |
| `HtStation.Station.constructor` | project_w1u/vmac/rc80211_minstrel_ht.c:1150-1267 | a new station is valid, published and has the masks of its capabilities; no rate has statistics and the placeholder is published |
| `HtStation.Station.SortBestTpRates` | project_w1u/vmac/rc80211_minstrel_ht.c:209-240 | the list becomes the insertion under the current keys |
| `HtStation.Station.AssignBestTpRates` | project_w1u/vmac/rc80211_minstrel_ht.c:299-322 | the MCS list becomes its merge with the CCK list |
| `HtStation.Station.ProbRateReduceStreams` | project_w1u/vmac/rc80211_minstrel_ht.c:365-387 | the pass leaves the robust rate as it is |
| `HtStation.Station.RefreshAmpduLen` | project_w1u/vmac/rc80211_minstrel_ht.c:465-470 | the average aggregate length moves a quarter of the way to the subframes per packet of the interval and stays at least one frame; without a packet it stays |
| `HtStation.Station.ScanRate` | project_w1u/vmac/rc80211_minstrel_ht.c:489-529 | one scanned rate extends table, lists and notes by exactly itself |
| `HtStation.Station.ScanGroups` | project_w1u/vmac/rc80211_minstrel_ht.c:481-532 | the full scan recalculates every supported rate and leaves one accumulated list per group |
| `HtStation.Station.UpdateStats` | project_w1u/vmac/rc80211_minstrel_ht.c:456-556 | new table, best rates, group lists, robust rates, clearing requests and probe count are those of the scan under the final keys, the robust rate the one `HtRule` describes; each supported rate takes its window in; widths of rates that worked and now hardly do are marked; only supported rates and placeholders are listed; no retry count stays marked as current |
| `HtStation.Station.LowerPrimary` | project_w1u/vmac/rc80211_minstrel_ht.c:328-339 | the primary rate drops to the highest slot with 50% success, or slot 0 |
| `HtStation.Station.LowerRobust` | project_w1u/vmac/rc80211_minstrel_ht.c:341-359 | a robust rate not below the primary slot becomes the best lower one, lowest among equals |
| `HtStation.Station.CalcRetransmit` | project_w1u/vmac/rc80211_minstrel_ht.c:766-822 | retry counts of a rate are the largest that fit; below 10% success both are 1 |
| `HtStation.Station.SetRate` | project_w1u/vmac/rc80211_minstrel_ht.c:825-868 | a stage carries the code of its rate; from 20% success on its counts are the largest whose air time fits the segment, plain and protected, below 20% both are 2; the first stage uses the plain count, later ones the protected one |
| `HtStation.Station.StagesSupported` | project_w1u/vmac/rc80211_minstrel_ht.c:892-907 | with both placeholders supported every published stage names a supported rate |
| `HtStation.Station.FillChain` | project_w1u/vmac/rc80211_minstrel_ht.c:892-907 | the stages name primary, second and robust rate with their largest fitting counts, and the list is terminated |
| `HtStation.Station.UpdateRates` | project_w1u/vmac/rc80211_minstrel_ht.c:880-909 | after every publication the primary rate is dependable or slot 0, the robust rate lies strictly below it or both are slot 0, and every stage carries the largest fitting counts of its rate |
| `HtStation.Station.ClearUnfitableRateStats` | project_w1u/vmac/rc80211_minstrel_ht.c:389-418 | exactly the supported rates above the slot with a success history lose history and window but for one failed try, and keep their averages |
| `HtStation.Station.ClearUnfitableProbEwma` | project_w1u/vmac/rc80211_minstrel_ht.c:420-445 | exactly the supported rates of the marked widths lose their average |
| `HtStation.Station.SeedGroups` | project_w1u/vmac/rc80211_minstrel_ht.c:571-602 | the fitting groups start with two successes at the given slot and one at slots 2 and 0; the highest of them gives the start-up rate |
| `HtStation.Station.InitStartStats` | project_w1u/vmac/rc80211_minstrel_ht.c:558-605 | seeding followed by a full update, with the robust rate and clearing requests of its scan |
| `HtStation.Station.CreditReport` | project_w1u/vmac/rc80211_minstrel_ht.c:715-728 | each rate gains the tries of the slots that name it, the rate of the last slot the acknowledged frames |
| `HtStation.Station.DowngradeRate` | project_w1u/vmac/rc80211_minstrel_ht.c:649-671 | the rate is replaced by the entry of the highest supported lower group with no more streams, or stays |
| `HtStation.Station.CheckSuddenDeath` | project_w1u/vmac/rc80211_minstrel_ht.c:730-746 | each of the first two rates is replaced from a lower group exactly when it has more than 30 tries of which fewer than 819 in 4096 worked; the chain is due for publication exactly then |
| `HtStation.Station.StatsRound` | project_w1u/vmac/rc80211_minstrel_ht.c:748-759 | clear above the limit if active, then update; the robust rate is the choice of the scan over the cleared table |
| `HtStation.Station.PublishRound` | project_w1u/vmac/rc80211_minstrel_ht.c:748-763 | the published rates are the best of the new table, none of them just cleared; the primary one exceeds the limit exactly under the condition above, and the robust one is the scan's choice lowered below it |
| `HtStation.Station.React` | project_w1u/vmac/rc80211_minstrel_ht.c:730-764 | between updates only a downgrade changes the chain and groups never rise; otherwise a published round; the robust rate is the old or the scan's choice, lowered below the primary slot when published |
| `HtStation.Station.CountReport` | project_w1u/vmac/rc80211_minstrel_ht.c:702-710 | aggregate counters and the refill of the probe budget |
| `HtStation.Station.TxStatus` | project_w1u/vmac/rc80211_minstrel_ht.c:673-764 | a report's whole effect, also with an unused first slot: each rate booked what its slots say, downgrade or round, robust rate and largest fitting counts published, budget across intervals, no cleared or ungrounded rate in the list; ignored reports change nothing, and without aggregation the average aggregate stays exactly one frame |
| `HtStation.Station.ChainReportAcceptable` | project_w1u/vmac/rc80211_minstrel_init.c:905-917 | a completion report about a frame sent over the published chain meets what a report must look like |
| `HtStation.Station.TickOnce` | project_w1u/vmac/rc80211_minstrel_ht.c:633-645 | one step of the round robin, advancing index and column of a supported group |
| `HtStation.Station.SetNextSampleIdx` | project_w1u/vmac/rc80211_minstrel_ht.c:627-647 | stops at the next supported group |
| `HtStation.Station.DrawSample` | project_w1u/vmac/rc80211_minstrel_ht.c:974-978 | reads the table at the group's position, then advances |
| `HtStation.Station.Redraw` | project_w1u/vmac/rc80211_minstrel_ht.c:932-945 | returns the first supported slot within the limit, within 100 draws per supported group |
| `HtStation.Station.CheckSampleIdx` | project_w1u/vmac/rc80211_minstrel_ht.c:918-950 | replaces a slot faster than a first rate below 50% success, or 90% at slots 5 and 6 of HT groups, by the first acceptable draw; requests clearing below 40% after more than 30 tries |
| `HtStation.Station.PlaceProbe` | project_w1u/vmac/rc80211_minstrel_ht.c:998-1057 | the rate probed for a slot and its stage: the second one exactly if the drawn rate succeeds above 70%, the probed slot is at least two below the first rate, its air time no shorter than that of both traffic rates, and either first rate and group have streams or it is no faster than the robust rate; the try it costs |
| `HtStation.Station.ProbeForOk` | project_w1u/vmac/rc80211_minstrel_ht.c:994-1021 | a probe is at most two slots above the first rate, not above it below 50% success, not a rate in use, and supported if its group's mask has no odd gap |
| `HtStation.Station.ProbeForIs` | project_w1u/vmac/rc80211_minstrel_ht.c:998-1037 | what a slot becomes under the first rate: no probe for a rate in use, another slot if more than one above it, the start-up rate, and the stage as above |
| `HtStation.Station.McsProbeSupported` | project_w1u/vmac/rc80211_minstrel_ht.c:1001-1004 | every MCS probe outside start-up is supported |
| `HtStation.Station.TryProbe` | project_w1u/vmac/rc80211_minstrel_ht.c:974-1058 | the probe is what the sampler position determines, from the drawn slot or another one the first rate allows, in the stage as above |
| `HtStation.Station.GetSampleRate` | project_w1u/vmac/rc80211_minstrel_ht.c:952-1059 | probes respect the budget and the bounds above and leave sampler, start-up counters and clearing request as the draw dictates |
| `HtStation.Station.GetRate` | project_w1u/vmac/rc80211_minstrel_ht.c:1061-1089 | port-control frames on single-rate hardware never probe; other frames follow the budget and probe what the sampler position determines |
| `HtStation.Station.CheckRateFitable` | project_w1u/vmac/rc80211_minstrel_init.c:584-648 | which probes are kept, which averages and statistics are cleared on the way, and when a fixed legacy rate is asked for: weak signal, the lowest HT rate leads, more than 30 tries and less than 30% success |
| `HtRuns.PublishAboveLimit` | project_w1u/vmac/rc80211_minstrel_ht.c:748-763 | a run from set-up and start-up on: an acknowledged probe of slot 3 ends the interval with limit 1, the round clears rate 2 and publishes rate 3 |
| `HtRuns.ProbeUnsupported` | project_w1u/vmac/rc80211_minstrel_ht.c:1001-1004 | a run that ends with a vetted probe of CCK slot 1, which the station does not support |
| `HtRuns.PublishUnsupportedCck` | project_w1u/vmac/rc80211_minstrel_ht.c:324-339 | a run that ends with CCK slot 0 published, which the station does not support |
| `HtRuns.PublishUnsupported` | project_w1u/vmac/rc80211_minstrel_ht.c:1250-1258 | a fresh VHT station publishes HT slot 0, which it does not support |
| `HtRuns.CckLeads` | project_w1u/vmac/rc80211_minstrel_ht.c:299-322 | if only rate 0 and the faster 11 Mbit/s rate have an average, the merged list is that CCK rate and three placeholders |
| `HtDecline.Outcome` | project_w1u/vmac/rc80211_minstrel_ht.c:730-746 | a report between updates moves a published primary rate to a lower group exactly when its window has collapsed |
| `HtDecline.Starve` | project_w1u/vmac/rc80211_minstrel_ht.c:730-764 | from any state of any station, through any frames with their probes: once enough tries of the primary rate are lost, more than 30 and enough to push it below a fifth, it is replaced from a lower group, and not before its window collapses |
| `HtDecline.DeadPrimary` | project_w1u/vmac/rc80211_minstrel_ht.c:730-764 | a 40 MHz station from set-up on whose primary rate loses 31 tries and gives way to a 20 MHz rate |
| `LegacyBudget.StepKeepsBudget` | project_w1u/vmac/rc80211_minstrel.c:413-487 | each frame and report keeps the budget invariant |
| `LegacyBudget.RunStaysInBudget` | project_w1u/vmac/rc80211_minstrel.c:413-487 | over every interleaving probes stay within a tenth of the frames plus one and the count within 10001 |
| `LegacyBudget.NoAdjacentProbes` | project_w1u/vmac/rc80211_minstrel.c:434-439 | no two consecutive frames are both probes |
| `LegacyBudget.TenPercentWithoutDeferral` | project_w1u/vmac/rc80211_minstrel.c:432-457 | without deferred probes, all probes of a run of any length stay within a tenth of its frames plus one, across restarts |
| `LegacyBudget.HalfAtMost` | project_w1u/vmac/rc80211_minstrel.c:434-439 | with deferral at most every second frame is a probe |
| `LegacyRuns.EveryRateOnce` | project_w1u/vmac/rc80211_minstrel.c:398-411 | from the top of a column, n calls return every one of n rates once |
| `LegacyRuns.NextIsSuccessor` | project_w1u/vmac/rc80211_minstrel.c:398-411 | the position moves on by one through the whole table |
| `LegacyRuns.EveryRateEvenly` | project_w1u/vmac/rc80211_minstrel.c:398-411 | from the top of any column, m*n calls return every one of n rates exactly m times |
| `LegacyRuns.RunIsTraced` | project_w1u/vmac/rc80211_minstrel.c:413-487 | a run of a station over its sampling table is a run of the budget with the picks the table dictates |
| `LegacyRuns.LimitIsSpent` | project_w1u/vmac/rc80211_minstrel.c:480-485 | between updates the direct probes of a limited rate and what is left of its limit add up to the limit |
| `LegacyRuns.HundredBetweenUpdates` | project_w1u/vmac/rc80211_minstrel.c:264-275 | a rate limited to 100 by an update gets at most 100 direct probes until the next one |
| `LegacyRuns.AtMostHalf` | project_w1u/vmac/rc80211_minstrel.c:434-439 | whatever the table, at most every second frame is a probe |
| `LegacyRuns.TenPercentAlong` | project_w1u/vmac/rc80211_minstrel.c:460-487 | a run keeps its probes within a tenth of the frames plus one if no frame meets a rate slower than the best one of its time |
| `LegacyRuns.TenPercentIff` | project_w1u/vmac/rc80211_minstrel.c:460-487 | over all runs of frames, reports and updates that send with given best rates the ten percent hold exactly when no rate is slower than one of them |
| `LegacyRuns.EverySecondFrame` | project_w1u/vmac/rc80211_minstrel.c:468-484 | with five rates or more of which only the best is not slower, and its next draw covered, every second frame is a probe until the count restarts |
| `LegacyRuns.HalfFromTheStart` | project_w1u/vmac/rc80211_minstrel.c:468-484 | so it is from the first frame on with ten rates whose best one is not among the first four draws |
| `LegacyRuns.HalfIsReached` | project_w1u/vmac/rc80211_minstrel.c:468-484 | a twelve-rate station of this kind: m probes in 2m frames for every 2m below 10000 |
| `LegacyRuns.PaceLack` | project_w1u/vmac/rc80211_minstrel.c:432-457 | a frame that may carry a probe and does not makes up for a shortfall of the column, and only a restart adds to it |
| `LegacyRuns.HalfForever` | project_w1u/vmac/rc80211_minstrel.c:432-484 | runs of any length, restarts included: all but the initial shortfall and 2n+9 frames per restart come in pairs of a probe and a plain frame, and restarts come at most once in 10000 frames |
| `LegacyRuns.HalfOverall` | project_w1u/vmac/rc80211_minstrel.c:432-484 | so k frames of a fresh station make at least (k - 10 - (2n+9)r)/2 probes with r restarts |
| `LegacyRetries.CountTries` | project_w1u/vmac/rc80211_minstrel.c:593-621 | the plain count is the largest whose air time with the first try fits the segment; protected counts are the largest without it, among the passes made |
| `LegacyRetries.CountsUnique` | project_w1u/vmac/rc80211_minstrel.c:593-621 | the times determine the counts |
| `LegacyRetries.PlainWithinLimitIff` | project_w1u/vmac/rc80211_minstrel.c:616-617 | the count stays within the limit exactly when the limit is at least 2, or is 1 and no retransmission fits |
| `LegacyRetries.ProtectedExceedsIff` | project_w1u/vmac/rc80211_minstrel.c:606-615 | a protected count exceeds the plain one, by one, exactly when the limit allows it and as many protected retransmissions as plain tries fit |
| `LegacyRetries.ReducedIsLessIff` | project_w1u/vmac/rc80211_minstrel.c:264-278 | the reduction never raises a count unless the count is one, which becomes two |
| `LegacyRetries.ProtectedTriesIff` | project_w1u/vmac/rc80211_minstrel.c:382-396 | protection raises a probe's tries exactly when there was one, to two |
| `LegacyRetries.TriesGiven` | project_w1u/vmac/rc80211_minstrel.c:382-396 | a protected probe gets the smaller of its adjusted and its protected count, but at least two; an unprotected one the adjusted count |
| `LegacyStation.CompactIs` | project_w1u/vmac/rc80211_minstrel.c:570-628 | the compacted indices are the supported ones, strictly increasing, each at least its position |
| `LegacyStation.NdxOfCompact` | project_w1u/vmac/rc80211_minstrel.c:72-79 | every supported index is found at its one place, every unsupported one is not found |
| `LegacyStation.RixToNdx` | project_w1u/vmac/rc80211_minstrel.c:72-79 | the downward search returns that place or -1 |
| `LegacyStation.BuildRates` | project_w1u/vmac/rc80211_minstrel.c:570-626 | the array holds the supported rates with their durations and retry counts in front and unused entries behind |
| `LegacyStation.CreditedOk` | project_w1u/vmac/rc80211_minstrel.c:356-369 | crediting a report keeps all statistics within bounds |
| `LegacyStation.CreditedBooks` | project_w1u/vmac/rc80211_minstrel.c:356-369 | every entry gains the tries of the leading used slots that carry its index, and the success exactly when the last of them does and is not the fourth; nothing else changes |
| `LegacyStation.RankRates` | project_w1u/vmac/rc80211_minstrel.c:301-314 | each stage is the fastest rate strictly below the stage before, highest index among equals |
| `LegacyStation.ChainFalls` | project_w1u/vmac/rc80211_minstrel.c:301-317 | the chain falls in index until rate 0, never rises in throughput, and its head beats every rate |
| `LegacyStation.ChainUnique` | project_w1u/vmac/rc80211_minstrel.c:301-314 | the throughputs determine the chain |
| `LegacyStation.RefreshedRenews` | project_w1u/vmac/rc80211_minstrel.c:166-191 | an update in plain numbers: the window is taken in, limit 100 above 3891 or below 409 of 4096 and none between, and there half the tries, at most two, two for none |
| `LegacyStation.Station.constructor` | project_w1u/vmac/rc80211_minstrel.c:552-634 | a new station is valid and published, and stands where the runs begin, also when no rate is supported |
| `LegacyStation.Station.GetNextSample` | project_w1u/vmac/rc80211_minstrel.c:398-411 | returns the entry a run draws at this position and advances |
| `LegacyStation.Station.CountFrame` | project_w1u/vmac/rc80211_minstrel.c:426-457 | a probe is due when a tenth of the frames exceeds what was spent, never twice in a row; at 10000 frames the count restarts, and no more than two probes per rate stay due |
| `LegacyStation.Station.PlaceSample` | project_w1u/vmac/rc80211_minstrel.c:459-488 | a slower rate is deferred, another one probed at once unless its limit is used up |
| `LegacyStation.Station.GetRate` | project_w1u/vmac/rc80211_minstrel.c:413-493 | a frame is one step of the run: decision, drawn rate, budget, position and limits; a protected probe gets the smaller of both counts but at least two tries |
| `LegacyStation.Station.UpdateStats` | project_w1u/vmac/rc80211_minstrel.c:243-318 | every rate takes its window in; above 3891 or below 409 of 4096 its limit is 100 and its tries are halved, at most two and two for none, otherwise it has no limit and all tries; the chain is that of the new throughputs |
| `LegacyStation.Station.UpdateRates` | project_w1u/vmac/rc80211_minstrel.c:135-161 | the published stages carry the chain's rates with their counts and end with the lowest supported rate |
| `LegacyStation.Station.StagesSupported` | project_w1u/vmac/rc80211_minstrel.c:125-154 | every stage before the last names a supported rate |
| `LegacyStation.Station.TxStatus` | project_w1u/vmac/rc80211_minstrel.c:346-380 | each entry gains the tries of the slots that name it, the entry of the last slot the success; at the end of an interval every rate is renewed as above and the chain published; each report is a step of the run |

## Left out

- HtStation.Station.TxStatus: assumes rates inside the table, no success credited to a rate without a try, acknowledged length at most sent length, and an aggregate counter below 2^20 per interval, beyond which the C shift wraps. The driver's own reports meet the first two.
- HtStation.Station.constructor: takes the HT mask as 0xff, the only value this driver sets; stations without HT or VHT groups go to the legacy controller.
- HtStation.Station.UpdateStats: does not store the per-rate throughput, which the HT controller keeps for debugging only.
- HtRobust.FastestReliableWins: is a simple sufficient condition; the exact one is that of HtRule.ChosenIsFastestFirmIff.
- HtDecline.Starve: leaves out the vetting of probes, which can clear a rate's window, and takes the reports as unaggregated.
- HtStation.Station.SetBestProbRate: also follows the most robust rate of each group, which nothing reads.
- LegacyRuns.EverySecondFrame: speaks of a run between two restarts; across restarts LegacyRuns.HalfForever bounds the frames lost instead of excluding them.
- LegacyStation.Station.constructor: with no supported rate it takes the sampling table as newly allocated, that is zeroed.
- LegacyStation.Station.TxStatus: has no probe flag, since completion reports of this driver never carry it.
- LegacyStation.Station.UpdateStats: does not compute the legacy most robust rate, which is never published.
- LegacyRetries.CountTries: counts are unbounded; the C fields hold eight bits.
- Retransmit.CountRetries: air times are unbounded integers; only the product of duration and aggregate length wraps at 32 bits.
- RateStatistics.RunKeepsSane: attempt and history counters are unbounded, so wrap-around after 2^32 attempts is not covered.
- Packet totals of the HT station, transmit flags, expected-throughput queries and A-MSDU limits: bookkeeping that feeds nothing modelled here.
- Filling a frame's rate slots from the table, vendor rate codes and fixed-rate mode: finite lookups.
- The RSSI and SNR thresholds that yield the fitting slot and width, with their remembered offset: inputs of the model.
- Aliasing of control and status rate arrays in the transmit descriptor: a probe is a returned value.
- Capability bits copied between kernel structures, memory allocation, logging, debugfs, locking.
- The rest of the driver (registers, firmware commands, MAC, crypto, bus code).
