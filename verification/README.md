# Trip pipeline: model and proofs

The backend takes trips from GPS tracking and from ride receipts, merges the two
records of one journey, prices each activity with an emission factor, and keeps
daily, weekly and monthly summaries up to date through asynchronous events. This
project models that pipeline in Dafny and proves what it guarantees over every
input, every interleaving of handlers and every run.

## How it is laid out

| file | content |
|---|---|
| Domain, Calendar | records, rounding, ISO weeks and Gregorian months |
| TripMatcher | the match score, its range, symmetry and thresholds |
| Ingestion, Tables | the service calls and repository updates as functions on a state |
| Dedup, ArrivalOrder, Redelivery | the candidate window, arrival orders, re-delivered trips |
| Emission | the factor waterfall and pricing |
| Timeline, Conservation | aggregation, roll-ups, conservation, rounding |
| Lifecycle, Pipeline, Effects | update, delete, handlers; the transition system; its five kinds of table change |
| Freshness, Pricing, Identity | invariants of single steps |
| Runs, Breakdowns, Draining | theorems about whole runs: days, prices, roll-ups, identity, breakdowns, and how handlers come to rest |
| Losses | when exactly a handler leaves a day wrong, and what pending work would still put it right |
| Limits | runs from empty tables that end with a wrong day or a superseded price |
| MatchLaws, IngestLaws, PricingLaws, LifecycleLaws, SummaryLaws | what each operation does in terms of plain columns, apart from the functions it is built of |
| Services | the bus, the tables and the services as classes, each method proved equal to its function |
| MailLog, WorkerPool, Enrichment | the mail worker pool as interleaved steps; the second attempt at unrecognised mail |
| Streak, ShortAddress, Sweep | the streak loop, the address cache, the address sweep |

Instants are seconds, days are day numbers, distances are metres, energies are
watt-hours, emissions are millionths of a kg, stored daily amounts are
ten-thousandths of a kg and confidences are thousandths. Scores are exact reals.
The distance function is a parameter that is non-negative, symmetric and zero on
equal points.

Every service call and every handler is one atomic step: the code opens no
transaction, so this is an assumption, not a result. Rows are fetched in
insertion order.

## What the code does that its comments do not say

- A handler that finds no factor, or cannot compute an amount, publishes nothing.
  If the day's summary counts an earlier version of the activity, it goes on
  counting it until something else has the day recomputed
  (`Losses.FailureLosesDayIff`, `Limits.SilentLossHappens`).
- Events run in separate goroutines in any order, and each has only the day in
  its own payload recomputed. An older event of a moved activity handled after
  the new day was summarised changes the price but not the summary, and events
  about the old day that are still pending do not help
  (`Losses.OvertakingLosesDayIff`, `Limits.OvertakingHappens`,
  `Limits.LeftoversDoNotHelp`). What is pending decides which days will be
  recomputed, in whatever order it is handled (`Losses.RepairableIsExact`).
- Without date moves, and without failures for counted activities, the summaries
  agree with the tables in any order, but the tables themselves may not be
  current: an activity keeps the price of the event handled last, whichever was
  published last (`Runs.PricesAreTheLastHandled`, `Limits.StalePriceHappens`).
- A GPS trip that is delivered again is merged again, unless a better match
  arrived meanwhile that lacks destination coordinates or a known end: then it
  becomes a second row (`Redelivery.RedeliveryIff`, `Redelivery.RivalSpoilsRedelivery`).
- A merge stores no idempotency key, so a merged receipt without a receipt id is
  not recognised on re-delivery (`Dedup.MergedReceiptRecognisedIff`,
  `Dedup.ForgottenReceiptHappens`). The one caller of IngestWithDedup, the mail
  service, always passes a receipt id (internal/gmail/service/gmail_service.go:806-827).
- The candidate window reaches 15 minutes past a trip's start when its end is
  unknown, while the matcher assumes an hour (`Dedup.WindowLosslessIffEndKnown`).
- The address sweep is described as converging. Its queue empties exactly when
  one visit would settle every row (`Sweep.SweepsEmptyIff`); rows that cannot be
  settled are picked again each time, and starve the rows behind them exactly
  when they fill the limit (`Sweep.StarvedIff`, `Sweep.StuckQueueHappens`).
- The count a sweep returns includes rows that got one of two missing addresses
  and stay in the queue (`Sweep.SweepDropsByItsCountIff`).
- Activities without a mode share the breakdown key of the literal mode "other"
  (`Conservation.BreakdownAddsUpIff`, `Breakdowns.RecomputeAddsUpIffUnmixed`).

## Model

| member | source | states |
|---|---|---|
| TripMatcher.CompatibleModes | internal/tripmatcher/matcher.go:200-226 | known modes match iff equal or two names of one vehicle; unknown modes never block |
| TripMatcher.OverlapMeaning | internal/tripmatcher/matcher.go:133-162 | overlap is the shared part of the shorter trip, positive iff the intervals meet, 1 iff one contains the other; the guards on a non-positive duration and on a ratio above 1 never act |
| TripMatcher.ProximityMeaning | internal/tripmatcher/matcher.go:167-187 | both distance signals are in [0,1], symmetric, 1 at the same point, fall evenly to 0 at 2 km or 3 km, and are one half when a coordinate is missing |
| TripMatcher.ScoreRange | internal/tripmatcher/matcher.go:67-105 | confidence and signals are in [0,1]; rounding moves the confidence by at most 0.0005 |
| TripMatcher.ScoreSymmetric | internal/tripmatcher/matcher.go:67-105 | every result field is the same for both argument orders |
| TripMatcher.ZeroOverlapScoresZero | internal/tripmatcher/matcher.go:75-83 | trips whose intervals do not meet are a definite non-match |
| TripMatcher.MergeEvidence | internal/tripmatcher/matcher.go:56-105 | an automatic merge implies an overlap of 0.12375, 0.74875 without destinations, 0.49875 with an unknown end, and 0.99875 with equal known durations when no coordinates are known |
| TripMatcher.EvidenceIsSharp | internal/tripmatcher/matcher.go:56-105 | each of those bounds is attained by some pair of trips |
| MatchLaws.ScoreLaw | internal/tripmatcher/matcher.go:67-187 | the result for an incoming trip and a stored row, from their columns alone: both gates, the four signals, the weights 0.4, 0.3, 0.2 and 0.1 with rounding, and the two flags |
| MatchLaws.ModesLaw | internal/tripmatcher/matcher.go:200-226 | the twelve known modes, and which of them may be one vehicle |
| MatchLaws.FarApartIsNoMerge | internal/tripmatcher/matcher.go:67-105 | trips of the same ten minutes score 1 at the same places and 0.5, no merge, when their places are 3 km or more apart |
| MatchLaws.ContendsLaw | internal/activity/repository/activity_repository.go:201-217 | whose rows, of which sources and how near in time may take a delivery: 15 minutes around its window, 24 hours back for open rows |
| Dedup.BestIsFirstBest | internal/activity/service/activity_service.go:195-212 | the selection loop finds the first of the highest-scoring contenders, or none iff there is none |
| Dedup.DecisionMeaning | internal/activity/service/activity_service.go:214-255 | merge from 0.65 (0.75 when a destination or an end is unknown), review from 0.45, plain iff every contender is below 0.45 |
| IngestLaws.DeliveryLaw | internal/activity/service/activity_service.go:63-108 | a new delivery with a first best contender is merged into it, stored with its confidence and a notice, or just stored, by the thresholds 0.65, 0.75 and 0.45; which columns are written, which event is published, and that nothing else changes |
| IngestLaws.LonelyDeliveryLaw | internal/activity/service/activity_service.go:140-274 | without a contender a new delivery is just stored, all its columns kept |
| IngestLaws.OtherSourcesLaw | internal/activity/service/activity_service.go:63-108 | Ingest matches only GPS trips; anything else new is just stored |
| IngestLaws.TakenKeyLaw | internal/activity/service/activity_service.go:164-173 | a taken idempotency key, given or derived from the five stable fields, is a duplicate and changes nothing |
| IngestLaws.StoredReceiptLaw | internal/activity/service/activity_service.go:142-162 | a stored receipt is a duplicate; exactly the labels of a row that had neither are filled in |
| IngestLaws.TakenReceiptLaw | internal/activity/service/activity_service.go:317-319 | storing a taken receipt id fails on the unique index and changes nothing |
| IngestLaws.MergedColumns | internal/activity/repository/activity_repository.go:243-297 | every column after a merge in either direction |
| Dedup.LeftOutScoresZero | internal/activity/repository/activity_repository.go:201-217 | a bounded row that the window query leaves out scores 0 against a trip with a known end |
| Dedup.WindowLosesNothing | internal/activity/repository/activity_repository.go:201-217 | deciding on the window's rows equals deciding on all the user's rows, target and confidence included |
| Dedup.WindowLosslessIffEndKnown | internal/activity/service/activity_service.go:175-190 | over bounded rows the window is lossless for a trip iff the trip's end is known |
| Dedup.RowNeverMissedIffBounded | internal/activity/repository/activity_repository.go:204-214 | a stored row is never missed with a positive score iff it has an end, no duration, or a duration of at most 24 h |
| Dedup.CoordinatesOnlyHelp | internal/activity/service/activity_service.go:525-538 | writing the GPS coordinates into a matched row lowers no confidence and keeps it above its threshold |
| Dedup.RedeliveryDecision | internal/activity/service/activity_service.go:451-497 | after a merge, the same trip is decided for the same row again whatever handlers did to statuses |
| Dedup.MergedReceiptRecognisedIff | internal/activity/service/activity_service.go:140-173 | a merged receipt is a duplicate on re-delivery iff it carries a non-empty receipt id |
| Dedup.ForgottenReceiptHappens | internal/activity/service/activity_service.go:140-247 | a ride whose receipt has no id: trip stored, receipt merged, and a second row when the receipt comes again |
| Redelivery.SecondDeliveryMerges | internal/activity/service/activity_service.go:427-538 | after any run of handlers, backfills and other users' calls, a re-delivered merged GPS trip creates no row: it merges into the same row, or is a duplicate if its key was taken |
| Redelivery.RedeliveryIsStable | internal/activity/service/activity_service.go:63-108 | with such runs in between, a third delivery has the same outcome and changes no row |
| Redelivery.BestOfOwn | internal/activity/service/activity_service.go:451-463 | the selection loop depends only on the user's own rows, without status, labels and display addresses |
| Redelivery.RedeliveryIff | internal/activity/service/activity_service.go:427-505 | after any calls at all, while the merged row is in place and the key free: merged into it again iff no contender rivals it; not merged iff the best contender scores below 0.75 and lacks destination coordinates or a known end |
| Redelivery.ThirdDeliveryChangesNothing | internal/activity/service/activity_service.go:507-538 | after any calls at all, a third merge into a row left in place changes no row |
| Redelivery.RivalSpoilsRedelivery | internal/activity/service/activity_service.go:427-505 | from empty tables: a trip merged at 0.69 becomes a second row when a receipt without coordinates scoring 0.70 came in between |
| ArrivalOrder.ArrivalOrdersAgree | internal/activity/service/activity_service.go:140-247 | GPS-first and receipt-first leave one merged row each with equal confidence; the rows agree on all merged columns iff each column settles |
| ArrivalOrder.ColumnsAgreeIff | internal/activity/service/activity_service.go:378-417 | the two enrichment builders commute column by column exactly under that condition |
| ArrivalOrder.SecondArrival | internal/activity/service/activity_service.go:427-497 | the second arrival finds the stored partner and merges into it |
| Emission.Query | internal/emission/repository/emission_repository.go:90-111 | one rung's query returns a matching factor, the latest one, iff any matches |
| Emission.ResolveFactor | internal/emission/repository/emission_repository.go:65-115 | the loop over the candidate list computes the waterfall |
| Emission.WaterfallIsBest | internal/emission/repository/emission_repository.go:62-115 | a factor is returned iff an eligible one exists, and it is the best by fuel match, mode match, requested region, latest start |
| Emission.FuelNeverHurts | internal/emission/repository/emission_repository.go:74-88 | supplying a fuel type turns no hit into a miss and picks nothing less specific |
| Emission.CalculateMeaning | internal/emission/calculator/calculator.go:14-41 | rate priority, exactly when pricing fails, linearity in distance, the 1.9 flight multiplier |
| PricingLaws.QuoteLaw | internal/emission/service/emission_service.go:55-78 | a payload finds no factor iff none of its type, fuel, mode and user's region is in force on the UTC day of its start; otherwise the first in precedence prices it, rounded to millionths of a kg |
| PricingLaws.HandlingLaw | internal/emission/service/emission_service.go:64-109 | handling stores the emission, marks the row processed and requests the payload's day, or marks it skipped or failed; nothing else changes |
| PricingLaws.DroppingLaw | internal/emission/service/emission_service.go:85-97 | a payload of a deleted row changes nothing but what is pending |
| Calendar.WeeksPartition | internal/timeline/aggregator/aggregator.go:153-161 | ISO weeks are the Monday windows of seven days and partition the days |
| Calendar.MonthsPartition | internal/timeline/aggregator/aggregator.go:111-113 | month windows partition the days and have the lengths of the Gregorian months |
| Calendar.MonthLengths | internal/timeline/aggregator/aggregator.go:111-113 | the twelve lengths, February by the leap rule |
| Calendar.YearLaw | internal/timeline/aggregator/aggregator.go:66-67 | January of any year starts 365 days a year and one per leap year from the epoch, in closed form |
| Calendar.MondayLaw | internal/timeline/aggregator/aggregator.go:153-161 | weeks start on the Mondays of the real calendar |
| Timeline.GroupingConserves | internal/timeline/repository/summary_repository.go:129-141 | grouping by mode loses nothing: group sums are the sums over that mode's activities, and the groups sum to the day |
| Conservation.FreshDailyMeaning | internal/timeline/aggregator/aggregator.go:20-55 | a recomputed day holds the sums over the activities counted on it, its amount rounded to 4 decimals, and per mode the sums of that mode |
| SummaryLaws.DayLaw | internal/timeline/repository/summary_repository.go:127-141 | a fresh day counts the user's processed rows of that day that have an emission: their number, distance and rounded amount, and per named mode the same |
| SummaryLaws.OtherLaw | internal/timeline/aggregator/aggregator.go:30-43 | on an unmixed day the entry "other" holds the rows without a mode, or those of the literal mode |
| SummaryLaws.RecomputeLaw | internal/timeline/aggregator/aggregator.go:20-68 | a recompute stores the fresh day, rolls up its Monday week and its calendar month, and touches nothing else |
| Conservation.BreakdownAddsUpIff | internal/timeline/aggregator/aggregator.go:30-43 | the breakdown sums to the totals iff the day does not mix NULL and literal "other" modes |
| Conservation.WindowSum | internal/timeline/aggregator/aggregator.go:82-94 | rolling up a window reads, in every measure, as the sum of the dailies stored in it |
| Conservation.RollUpsConserve | internal/timeline/aggregator/aggregator.go:70-151 | per user and measure, weeklies, dailies and monthlies have equal sums |
| Conservation.RecomputeKeepsWeeks | internal/timeline/aggregator/aggregator.go:60-64 | recomputing only the day's own week keeps every stored week right |
| Conservation.RecomputeKeepsMonths | internal/timeline/aggregator/aggregator.go:66-67 | recomputing only the day's own month keeps every stored month right |
| Conservation.WindowRounding | migrations/008_create_summaries.sql:3-16 | a roll-up of fresh dailies is off by at most 0.00005 kg a day; distance and count are exact |
| Effects.ServiceEffect | internal/activity/service/activity_service.go:556-677 | every service call is one of five table changes, each keeping identity, status and receipt discipline |
| LifecycleLaws.UpdateLaw | internal/activity/service/activity_service.go:556-643 | which columns an update changes, the type from the mode, the day from the start, the event with the call's fuel, and the old day requested iff it was left |
| LifecycleLaws.NoUpdateLaw | internal/activity/service/activity_service.go:556-577 | an empty change and a row of another user leave everything as it is |
| LifecycleLaws.DeleteLaw | internal/activity/service/activity_service.go:647-677 | exactly the owner's row and its emission go, and the row's day is requested |
| LifecycleLaws.BackfillLaw | internal/activity/repository/activity_repository.go:142-196 | labels only for a row with neither, display addresses only where missing |
| LifecycleLaws.LocalDateLaw | internal/activity/service/activity_service.go:279 | the local day, offsets east counted positive |
| Freshness.EffectKeepsFreshness | internal/activity/service/activity_service.go:612-640 | every service call leaves each stale day covered by a pending event |
| Freshness.HandlingKeepsFreshness | internal/emission/service/emission_service.go:49-109 | handling a payload that does not overtake, and fails only for uncounted rows, leaves each stale day covered |
| Freshness.RecomputeKeepsFreshness | internal/timeline/aggregator/aggregator.go:20-68 | recomputing a day makes it fresh and uncovers no other |
| Runs.NoStaleDayIsForgotten | internal/emission/service/emission_service.go:49-109 | in every sound run stale days are covered, and with no event pending every daily equals the aggregate |
| Runs.AnyOrderWorksWithoutDateMoves | platform/eventbus/inmemory.go:28-49 | when no update moves a date and pricing fails only for uncounted rows, handlers may run in any order: with nothing pending every daily is the aggregate of the stored rows and emissions |
| Runs.PricesAreTheLastHandled | platform/eventbus/inmemory.go:28-49 | in any run and order, an activity with nothing pending carries the price of the payload handled last, and so a current one iff that payload was worth what the one published last is worth |
| Runs.PricesAreCurrent | internal/emission/service/emission_service.go:64-109 | handled in publish order, an activity with nothing pending has the status and emission its current columns are worth |
| Runs.QuiescentDaysAreTrue | internal/emission/service/emission_service.go:46-109 | in a sound run with payloads handled in publish order, once no event is pending each daily is the summary of what the activities now on that day are worth, whatever happened before |
| Runs.RollUpsConserveAlways | internal/timeline/aggregator/aggregator.go:20-151 | in every reachable state, in any order, stored roll-ups are the sums of stored dailies and conserve every measure |
| Conservation.SumBreakdownMerge | internal/timeline/aggregator/aggregator.go:86-93 | adding breakdowns mode by mode adds their sums |
| Breakdowns.BreakdownsAddUpWithoutOther | internal/timeline/aggregator/aggregator.go:20-151 | in every state reached without a literal mode "other", each stored day, week and month has a breakdown that sums to its count and distance, and to its amount within 0.00005 kg a day |
| Breakdowns.BreakdownsAddUp | internal/timeline/aggregator/aggregator.go:28-43 | the same for every run that recomputes no day while it mixes NULL and literal "other" modes |
| Breakdowns.RecomputeAddsUpIffUnmixed | internal/timeline/aggregator/aggregator.go:28-43 | a recompute stores a breakdown that adds up iff the day does not mix those modes |
| Runs.QuiescentRollUpsAreExact | migrations/008_create_summaries.sql:3-51 | after a sound run has quiesced, weeks and months have exact distance and count, and amounts within 7 and 31 times 0.00005 kg |
| Draining.HandlersDrain | platform/eventbus/inmemory.go:28-49 | from any state handlers alone take at most two steps per pending payload and one per other event, and can go on until nothing is pending |
| Draining.QuiescenceIsReached | platform/eventbus/inmemory.go:28-49 | from any state some run of handlers in publish order ends with nothing pending |
| Draining.PricesBecomeCurrent | internal/emission/service/emission_service.go:46-109 | after any run in publish order, handlers alone can bring every activity to the price of its current columns |
| Runs.ReceiptCountsOnce | internal/activity/service/activity_service.go:140-173 | a stored receipt id stays on its row, on no other, and re-ingesting it is refused, over any run that does not delete the row |
| Identity.StepKeepsIdentity | internal/activity/repository/activity_repository.go:243-297 | keys and receipt ids stay unique, GPS rows have no receipt, set receipt ids never change, merged rows stay merged |
| Identity.StoredReceiptIsDuplicate | internal/activity/service/activity_service.go:142-162 | re-ingesting a stored receipt changes at most labels that were both missing |
| Losses.HandlingLosesDayIff | internal/emission/service/emission_service.go:49-109 | for any payload and any day that is right but for the payload's own row: handling it leaves the day wrong iff the summary shows the row's earlier version as something else than the row is now, and lost iff also nothing pending, the payload included, asks for the day |
| Losses.FailureLosesDayIff | internal/emission/service/emission_service.go:65-78 | a failed pricing leaves such a day wrong iff the summary counts an earlier version of the row, and lost iff also nothing else pending asks for the day; it publishes nothing |
| Limits.SilentLossHappens | internal/emission/service/emission_service.go:65-70 | a concrete run that ends with no event pending and a stale day |
| Losses.OvertakingLosesDayIff | internal/emission/service/emission_service.go:64-109 | a payload that prices a row on an up-to-date day makes the day wrong iff it does not show the row at that price already (at the same price, or in a hidden group with the same rounded total), and lost iff also the payload is about another day and nothing else pending asks for the row's day |
| Losses.ExchangedItem | internal/timeline/aggregator/aggregator.go:28-43 | exchanging one activity's share of a day leaves the summary as it is iff the shares are equal, or both are filed under "other" and neither the entry there nor the rounded total tells them apart |
| Losses.RepricedLooksAlike | internal/timeline/aggregator/aggregator.go:30-43 | an activity whose amount alone changes is told apart unless its group is hidden behind the other one filed under "other" and the rounded total stays |
| Losses.HandlingKeepsRepairable | internal/emission/service/emission_service.go:94-109 | handling a payload neither adds to nor takes from the days that pending work will have recomputed |
| Losses.RepairableIsExact | platform/eventbus/inmemory.go:28-49 | however the pending events are ordered, handling them all recomputes a day iff an event or a priced payload of an existing activity asks for it; otherwise its summary stays |
| Losses.LosingStep | internal/emission/service/emission_service.go:49-109 | a day that is wrong with nothing pending was lost at one step of the run, and stayed lost |
| Limits.OvertakingHappens | platform/eventbus/inmemory.go:30-49 | a concrete run with a date move handled newest first that ends stale |
| Limits.LeftoversDoNotHelp | platform/eventbus/inmemory.go:30-49 | a concrete run in which a day is lost while a payload of its only activity is pending, and is still wrong at the end |
| Limits.StalePriceHappens | platform/eventbus/inmemory.go:30-49 | a concrete run without date moves that ends with every summary right and an emission priced from superseded columns |
| Services.ActivityService.SelectBest | internal/activity/service/activity_service.go:202-212 | the loop computes the first best candidate |
| Services.ActivityService.CreateActivity | internal/activity/service/activity_service.go:277-336 | the new state is the specified one: row, event, notice |
| Services.ActivityService.Match | internal/activity/service/activity_service.go:427-505 | searching, merging, flagging and storing reach the specified state |
| Services.ActivityService.Ingest | internal/activity/service/activity_service.go:63-108 | state and outcome are the specified ones |
| Services.ActivityService.IngestWithDedup | internal/activity/service/activity_service.go:140-274 | state and outcome are the specified ones |
| Services.ActivityService.UpdateActivity | internal/activity/service/activity_service.go:556-643 | field-by-field changes and both events reach the specified state |
| Services.ActivityService.DeleteActivity | internal/activity/service/activity_service.go:647-677 | row and emission go, the day's recompute is requested |
| Services.EmissionService.HandleActivityIngested | internal/emission/service/emission_service.go:49-109 | resolve, calculate, persist, mark and publish reach the specified state |
| Services.Aggregator.RecomputeDay | internal/timeline/aggregator/aggregator.go:20-68 | the accumulating loop and both roll-ups reach the specified state |
| Services.Aggregator.SumDailies | internal/timeline/aggregator/aggregator.go:78-94 | the roll-up loop computes the sum of the listed dailies |
| Services.Aggregator.AddBreakdown | internal/timeline/aggregator/aggregator.go:86-93 | adding a breakdown in any map order gives the pointwise sum |
| WorkerPool.NothingPanicsOrBlocksOnSend | internal/gmail/service/gmail_service.go:464-490 | no send on or close of a closed channel, no negative wait group, room in both channels whenever something is to be sent |
| WorkerPool.NoDeadlock | internal/gmail/service/gmail_service.go:467-513 | until the call returns some goroutine can move |
| WorkerPool.StepProgress | internal/gmail/service/gmail_service.go:467-513 | every step keeps every message in exactly one place and uses up work |
| WorkerPool.EveryMessageOnce | internal/gmail/service/gmail_service.go:454-514 | for any batch and interleaving: at most 6n + 16 steps, five workers, one outcome per message id, each count the number of outcomes of its kind, known messages skipped, and a log that holds the old entries and the first collected entry of each other message, and no more |
| Enrichment.EnrichUser | internal/gmail/service/gmail_service.go:889-1022 | enriched and skipped are the numbers of listed entries with such verdicts, failed is the rest, and the log moves as the verdicts say wherever it could be written |
| Enrichment.MovesIff | internal/gmail/service/gmail_service.go:910-1013 | an entry moves iff it is listed, its verdict is not transient and the log could be written |
| Enrichment.VerdictLaw | internal/gmail/service/gmail_service.go:919-1013 | the status and activity each verdict leaves on a listed entry |
| Enrichment.ListedIff | internal/gmail/repository/log_repository.go:48-60 | an entry is listed iff it is unrecognised and fewer than 50 older ones are |
| Enrichment.Runs | internal/gmail/repository/log_repository.go:48-71 | over any number of runs an entry that left the unrecognised status never changes |
| Streak.CountConsecutiveDaysWithActivity | internal/insight/repository/insight_repository.go:71-98 | the loop returns the largest k up to 365 such that the last k days are all active |
| ShortAddress.SameCellIsNear | internal/shortaddress/resolver.go:69-74 | coordinates of one cell are less than 0.0001 degrees apart |
| ShortAddress.CellLaw | internal/shortaddress/resolver.go:69-74 | a coordinate is within 0.00005 degrees of the centre of its cell |
| ShortAddress.GeocodeCache.Put | internal/shortaddress/cache.go:46-55 | an entry is inserted only into a free cell |
| ShortAddress.Resolver.Resolve | internal/shortaddress/resolver.go:89-118 | the cell's readable entry is the answer, else the service's, which is kept if the cell is free; every entry is an answer given in its cell |
| ShortAddress.ResolveAll | internal/shortaddress/resolver.go:89-118 | a sequence of resolves gives the specified answers and leaves the specified table |
| ShortAddress.ReplyLaw | internal/shortaddress/resolver.go:89-118 | the answer to any request of a sequence: the readable entry of its cell, else the service's address if both lookups succeed |
| ShortAddress.CachedAnswersAgree | internal/shortaddress/resolver.go:89-118 | over any sequence of resolves with any cache failures, once an address was read from the cache or stored, every later cached answer in the cell is that address |
| ShortAddress.TableMeaning | internal/shortaddress/cache.go:46-55 | over any sequence, entries never change, and a cell holds the answer of the first request that could store one there |
| ShortAddress.EveryAnswerWasGiven | internal/shortaddress/resolver.go:89-118 | from an empty cache, every address returned was given by the service for that or an earlier coordinate of the cell |
| Sweep.BackfillDisplayAddressSweep | internal/activity/service/activity_service.go:698-728 | whatever the resolver answers and whichever writes fail, the loop backfills exactly the picked rows it can and counts them |
| Sweep.SweepNeverOverwrites | internal/activity/repository/activity_repository.go:176-196 | a sweep changes only missing display fields |
| Sweep.VisitLaw | internal/activity/service/activity_service.go:704-725 | a written visit gives each end that has coordinates and no address the answer for that end, and changes nothing else |
| Sweep.SweepLaw | internal/activity/repository/activity_repository.go:163-174 | a row is visited iff it lacks an address for coordinates it has and fewer than the limit of older rows do |
| Sweep.SweepDropsByItsCountIff | internal/activity/service/activity_service.go:691-728 | the queue shrinks by at most the returned count, and by exactly that iff no picked row is left with one of two addresses |
| Sweep.SweepsConverge | internal/activity/repository/activity_repository.go:158-174 | n needing rows that can be settled take exactly n/limit sweeps, rounded up |
| Sweep.AnsweringResolverConverges | internal/activity/service/activity_service.go:691-728 | with a resolver that answers every coordinate and writes that succeed, any queue is emptied so, and each sweep returns by how much it shrank |
| Sweep.SweepsEmptyIff | internal/activity/service/activity_service.go:691-728 | with unchanging answers and a positive limit, repeated sweeps empty the queue iff one visit would settle each row |
| Sweep.StarvedIff | internal/activity/repository/activity_repository.go:158-174 | a row that could be improved is never visited iff the rows before it that no visit settles number at least the limit |
| Sweep.StuckQueueHappens | internal/activity/repository/activity_repository.go:158-174 | for every limit there is a queue whose last row could be settled and never is |

## Left out

- Floating point: scores, rates and sums are exact reals and integers; the great-circle formula is a parameter.
- Interleavings inside a handler or a service call: each is one step; two concurrent roll-ups of one week are not modelled.
- Database failures: queries and writes succeed, except for unique indexes, the foreign key of emissions, and the writes the code treats as best effort in the cache, the sweep and the enrichment.
- The order in which PostgreSQL returns rows without ORDER BY: candidates come in insertion order, groups in order of first appearance.
- Values finer than a column stores: inputs come in whole metres, watt-hours, minutes and seconds.
- The region of a user and the factor table are fixed during a run; the factor date is the UTC day of the start.
- Time zone rules: an input carries the offset its zone has at that instant.
- Device ids, raw metadata, failure reasons, vehicle types and timestamps of rows.
- The insight and notification handlers; a possible-duplicate event is only published and consumed.
- Services: the methods are proved against functions of the state; the bus keeps pending events instead of spawning goroutines, whose interleavings Pipeline models.
- Mail fetching, parsing and geocoding: their results are inputs of WorkerPool, Enrichment and ShortAddress.
- Sweep.SweepsEmptyIff: like SweepsConverge and StarvedIff it is about sweeps that get the same answers for a row; a resolver that recovers starts a new series of them.
- Losses.HandlingLosesDayIff: a day on which several activities changed since it was last recomputed is not covered by it; for such a day only what is still pending is characterised (RepairableIsExact).
- Redelivery.SecondDeliveryMerges: like RedeliveryIsStable it lets the user make no calls in between; RedeliveryIff and ThirdDeliveryChangesNothing allow them.
- ShortAddress.Resolver.Resolve: the two service calls are one answer or a failure.
- HTTP handlers, authentication, devices, API keys, preferences, insight texts, impact comparisons and exports.
