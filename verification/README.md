# Verified model of the rain-alert service and its feed filter

The service plans trips in Amsterdam by bike and public transport, prices rain into them, and
warns riders whose regular bike trip is going to be wet. A script beside it cuts the national
timetable feed down to one operator. This project models the parts where a mistake would be
hard to notice, and proves what they promise.

- `Calendar`, `DueTrips`: which trip alerts a tick selects, across midnight and the week's end,
  which departure an alert then means, and how densely the worker's cron ticks cover a departure.
- `OutboxTable`, `Outbox`, `OutboxSteps`, `OutboxInvariant`, `OutboxPreservation`: a worker tick as
  a process over the shared notifications table. Every `await` is a step of its own. Up to four
  tasks share one session behind a lock, any number of ticks may overlap, each statement, commit,
  rollback and send may fail, a commit may take effect and still raise, and a tick may die at every
  step.
- `OutboxTheorems`, `OutboxSweep`, `OutboxProgress`, `OutboxDuplicates`, `OutboxSelection`,
  `OutboxScenarios`: what holds of every run. Warnings are recorded once and never lost, every
  selected alert is processed and fails only by its own doing, ticks never block each other for
  good, and how often a warning can be sent, with the exact condition for that bound.
- `Redelivery`, `TickDrain`: the serial retry pass as a program over the table, how a backlog
  drains, and the proof that a tick of the process whose sends and statements succeed drains it so.
- `Gtfs`, `GtfsFilter`, `GtfsProperties`, `GtfsOutput`: the feed filter. `Gtfs` describes the written
  feed as a relation to the source, `GtfsFilter` holds the script's loops proved against it,
  `GtfsProperties` proves integrity, the exact rush-hour repair and idempotence from the relation,
  and `GtfsOutput` tells the written rows by the source tables alone.
- `Scoring`, `Ranking`, `CostFormula`, `Advice`: the cost of a candidate, the two-pass ranking, what
  costs and waits are apart from the functions that compute them, the recommendation and the
  verdict the notifier draws from it.
- `Snap`, `Planner`: candidate generation and the ordered search that moves an endpoint off a
  pedestrian deck.
- `RainCache`: the forecast cache as one service object and as runs of overlapping requests, whose
  writes may reach the cache late and in any order.

What the code answers to the outside is left open: the planner, the forecast source, the channel
and the database answer as they like. Instants are integers, costs are real numbers of minutes.
`Wrappers` holds the option and result types, `Verdicts` the outcome of evaluating a trip.

Program and specification often share a function, such as the table of offsets or the weekday of a
date. What such a function computes is stated once more without it, in numbers, counts and source
rows: `Calendar.IsDeparture`, `CostFormula`, `GtfsOutput` and the coordinates in `Snap`.

Where the code and its own documentation differ, the model follows the code:

- `app/services/notify.py:170` says a sweep can never notify twice. One row per trip and day holds
  (`ReturnedOnceForRain`), but overlapping ticks can send one row twice without a failure
  (`OverlapSendsTwice`). They can do so exactly when a retry query answers a row that another live
  tick still has to send or to stamp (`DisciplineIsExact`).
- `app/services/notify.py:368-370` says the alerts returned were delivered. A row whose first send
  failed is returned too (`RejectedIsReturned`); the outcome `Recorded` stands for both.
- `app/services/notify.py:10-11` matches the weekday against today; the code matches the
  post-midnight part of the window against tomorrow.
- `app/services/scoring.py:86-88` says bike wins unless transit saves more than the bias; when transit
  saves exactly the bias the costs are equal and the shorter trip, transit, ranks first
  (`BikeUnlessTransitSavesMore`).
- `otp/scripts/filter_gtfs_gvb.py:36` speaks of first departure to last arrival; the code takes the
  least and the greatest of all arrival and departure times.
- `otp/scripts/filter_gtfs_gvb.py:37-39` says that times past 24:00:00 can never overlap the rush
  windows. They do not overlap those of the first day, which is what the code compares; a run from
  31:30:00 to 32:00:00 is in the next morning's rush hour and is repaired (`LateRunMeetsRush`).
  Repaired trips that end by 31:00:00 avoid the windows of every day (`RepairedTripsAvoidRush`).
- The order of writes is left open by `app/services/rain.py:108-114`, which takes the stamp before it
  writes: a late write can put an older forecast in the place of a newer one (`LateWriteGoesBack`).
- The repository's `README.md:65` gives two hours of cache retention; the default in `app/core/config.py:78` is 2700
  seconds. The retention is a parameter here.

## Model

| member | source | states |
|---|---|---|
| Calendar.WeekdaysFollow | app/services/notify.py:89-98 | Day number 1 is a Monday, and every day is followed by the next weekday, Sunday by Monday |
| Calendar.DueIsExactBelowOneDay | app/services/notify.py:80-103 | The due query selects exactly the alerts that depart inside the lead window, for all alerts at once, if and only if the lead is at least 0 and below 1440 minutes |
| Calendar.DueIsDepartsWithin | app/services/notify.py:80-99 | For a lead below a day, an alert is due exactly when some instant of the window has its time of day and a day number that differs from one of its days by whole weeks, also across midnight and from Sunday to Monday |
| Calendar.NextDepartureIsTheDeparture | app/services/notify.py:106-116 | The next departure of a due alert lies in the window and is the only departure in it |
| Calendar.NextDepartureDate | app/services/notify.py:113-116 | For any alert the next departure has the alert's time, is not past and less than a day away, so it is today or tomorrow |
| Calendar.CadenceIs | app/workers/main.py:96-109 | 300 seconds wake the worker on the minutes 0, 5, ..., 55, anything below 60 on every minute, and in general the step is the whole minutes, at least one |
| Calendar.TicksAreClose | app/workers/main.py:109 | Every stretch of min(step, 60) minutes contains a minute divisible by the step within its hour, also across the hour, and the next one is computed exactly |
| Calendar.EveryDepartureIsCovered | app/workers/main.py:96-109 | For every configured cadence, and ticks that read their clock late by any amounts up to a jitter, each departure is due at (whole minutes of lead - jitter) / (cadence in minutes, 1 to 60) different ticks or more, and all of them compute that same departure |
| Calendar.DefaultsCoverThrice | app/core/config.py:109-112 | With a lead of 15 minutes every 300 seconds, three ticks on minutes divisible by five see each departure, and two when ticks are up to five minutes late |
| Calendar.KeyIdentifiesDeparture | app/services/notify.py:211 | Two ticks give an alert the same outbox date exactly when they mean the same departure |
| DueTrips.DueKeysAreDepartures | app/services/notify.py:407-431 | The due query answers a trip and a day if and only if the trip departs on that day inside the lead window, the day being the departure's day number |
| DueTrips.SelectionFitsTheTick | app/services/notify.py:407-411 | What the query selects is a selection the process of the outbox accepts: distinct alerts, dated today or tomorrow |
| DueTrips.DueRainIsRecorded | app/services/notify.py:397-432 | In every run, when a tick that selected the due alerts has returned, each departure in the lead window has a finished task for its trip and day, with its evaluation among the events; after rain a committed row has that trip and day, unless a statement or commit of that very task failed |
| DueTrips.TasksAreDueDepartures | app/services/notify.py:407-431 | And each task of that tick is about a departure in the window |
| OutboxPreservation.StepKeeps | app/services/notify.py:228-431 | Every step of every tick keeps the invariant of the table, the sessions, the lock, the semaphore and the histories |
| OutboxTheorems.RunKeeps | app/services/notify.py:363-432 | The invariant holds along every run from every state that has it |
| OutboxTheorems.ReturnedOnceForRain | app/services/notify.py:196-247 | Over all ticks at most one call returns a notification for a trip and day; that call had seen rain, its row is committed, and no other row has that trip and day |
| OutboxTheorems.RowsComeFromRain | app/services/notify.py:196-226 | Every committed row was created by a task of some tick, for that task's trip and day, after its evaluation said rain, and dated that tick's day or the next |
| OutboxTheorems.RainIsRecorded | app/services/notify.py:228-247 | A task that saw rain and did not fail leaves a committed row for its trip and day, its own or an earlier one |
| OutboxTheorems.RunPersists | app/services/notify.py:231-310 | No run removes a row, changes its trip, day or creation time, or takes a stamp back |
| OutboxTheorems.NoWarningIsLost | app/services/notify.py:277-357 | After any run a committed row is still there; stamped, it was accepted by the channel at least once; unstamped, every retry query up to its departure day answers it, unless the limit is full of older rows |
| OutboxTheorems.SessionIsExclusive | app/services/notify.py:228-240 | In every interleaving at most four tasks are active, a queued one can start exactly when fewer are, and at most one is in the session; a free lock means an empty session; whoever rolls back finds nothing but its own statement |
| OutboxTheorems.AttemptedAtMostOncePerTick | app/services/notify.py:397-431 | No tick hands a row to the channel twice: not in the retry pass, not in the sweep, not in both |
| OutboxTheorems.PassHandsOverAll | app/services/notify.py:348-360 | A retry pass that was not abandoned has handed every row it selected to the channel, exactly once, before the sweep |
| OutboxSweep.EverySelectedAlertIsProcessed | app/services/notify.py:407-432 | In every run, a tick that selected some alerts and returned has finished one task for each, in their order, and no other task |
| OutboxSweep.FailureIsItsOwn | app/services/notify.py:412-429 | A task fails only if its own evaluation raised, its own statement failed or its own commit did not come back well, whatever happens to the others |
| OutboxSweep.RainIsRecordedOrFailed | app/services/notify.py:228-247 | A finished task's verdict is that of an evaluation in the run; after rain its key is in the table or it had a failure of its own |
| OutboxSweep.OutcomeFollowsVerdict | app/services/notify.py:200-247 | An evaluation that raised fails its task, one without rain skips it, and one with rain ends in a row of its own, an earlier one, or a failure |
| OutboxSweep.SentIsReturned | app/services/notify.py:246-310 | A task that handed over the row it created returns it when it finishes, whatever became of send and stamp, unless the rollback after a failed stamp raised |
| OutboxSweep.OnlyCrashesKill | app/services/notify.py:397-407 | A tick dies only of a crash, a failing due query or a raising rollback after its pass; the pass is abandoned only by a failing query or a raising rollback; every sweep comes after a retry query, and after a rollback if the pass was abandoned |
| OutboxSweep.PassHandsOverItsQuery | app/services/notify.py:341-358 | Every row the retry query answered is handed over exactly once before the sweep, unless a rollback of the pass raised |
| OutboxSweep.OldestIsSentFirst | app/services/notify.py:344-357 | No row of the query that still waits for its send is older than the row the pass is at |
| OutboxSweep.RowLocksExclude | app/services/notify.py:297-310 | Two ticks never hold the same row's stamp in their open transactions |
| OutboxSweep.TickMayFail | app/services/notify.py:341-407 | A live tick may crash at every step, each of its two queries and the rollback of its pass may fail, and otherwise the queries answer anything they may |
| OutboxSweep.ActorMayFail | app/services/notify.py:205-310 | An evaluation may end in any verdict or raise, and every statement, commit, rollback and send in each of its ways |
| OutboxSweep.NothingStaleIsSent | app/services/notify.py:341-347 | A row is sent only by ticks dated on or before its departure day |
| OutboxProgress.SweepStepDecreases | app/services/notify.py:409-431 | Every step of a sweep decreases its bound on remaining steps |
| OutboxProgress.SweepIsBounded | app/services/notify.py:431-432 | However other ticks interleave, a sweep takes at most that bound of steps |
| OutboxProgress.QueryAnswers | app/services/notify.py:341-347 | The retry query has an answer for every table, day and limit |
| OutboxProgress.TickIsNeverStuck | app/services/notify.py:397-432 | Every live tick, in its pass or in its sweep, can take a step in which nothing fails, or waits for exactly one other tick's open transaction; that tick can commit or roll back at once and then holds nothing, so ticks never wait in a circle |
| OutboxProgress.NeverDeadlocked | app/services/notify.py:397-432 | In every reachable state with a live tick, some tick can take a step that is neither a crash nor a failing statement |
| OutboxDuplicates.DisciplinedRunIsPaidFor | app/services/notify.py:277-358 | However ticks overlap, as long as every retry query answers only rows that no other tick still has to send or stamp, accepted sends of a row exceed its failed, lost or cut-off stamps by at most one; once no tick is live only a stamped row has that one more |
| OutboxSelection.DisciplineIsExact | app/services/notify.py:341-358 | In every state that such queries have led to, the rows of a retry query can be taken with the bound holding in every disciplined continuation if and only if no other tick carries one of them |
| OutboxSelection.UnfreeSelectionBreaksTheBound | app/services/notify.py:277-358 | After any retry query that answers a carried row, some run without a further query makes the channel accept that row once too often |
| OutboxDuplicates.DuplicatesArePaidFor | app/services/notify.py:277-310 | In particular the bound holds in every run whose ticks do not overlap |
| OutboxScenarios.OverlapSendsTwice | app/services/notify.py:341-358 | A concrete run of two overlapping ticks in which a row is accepted twice and no stamp fails |
| OutboxScenarios.RejectedIsReturned | app/services/notify.py:246-247 | A concrete run in which a tick returns a notification that the channel never accepted |
| Redelivery.Store.Deliver | app/services/notify.py:277-310 | Stamps exactly the given row, exactly when the send and the commit took effect; answers true exactly when both were confirmed |
| Redelivery.Store.RedeliverPending | app/services/notify.py:351-360 | The retry pass changes the table and reports rows as its two specification functions say |
| Redelivery.PassStampsExactly | app/services/notify.py:351-357 | A pass stamps exactly the given rows whose send and commit took effect, and changes nothing else |
| Redelivery.PassReportsExactly | app/services/notify.py:351-360 | A pass reports exactly the given rows whose send and stamp were confirmed |
| Redelivery.QueryTakesOldest | app/services/notify.py:341-347 | The retry query takes min(n, limit) of n old rows, and none younger than one it leaves |
| Redelivery.GoodTickDrains | app/services/notify.py:397-405 | A tick that stamps what its query answers and otherwise only adds younger rows clears min(n, limit) rows of a backlog of n |
| Redelivery.BacklogAfter | app/services/notify.py:341-360 | After k such ticks exactly max(0, n - k * limit) rows of the backlog are left |
| Redelivery.BacklogDrains | app/services/notify.py:52 | A backlog of n rows is empty exactly when at least ceil(n / 50) such ticks have passed |
| TickDrain.SmoothTickIsGood | app/services/notify.py:397-432 | Every run of one tick of the process, from its start to its return, whose sends, statements and commits succeed while no other tick takes a step, does to the table exactly that: it stamps the oldest pending rows up to the limit, leaves the rest alone and adds only rows as young as its inserts |
| TickDrain.BacklogAfterTicks | app/services/notify.py:341-432 | After k such runs of the process, one after the other, exactly max(0, n - 50 k) rows of a backlog that stays current are left |
| TickDrain.TicksDrainTheBacklog | app/services/notify.py:52 | From every reachable state the backlog is empty exactly when at least ceil(n / 50) such runs have passed |
| GtfsFilter.FilterFeed | otp/scripts/filter_gtfs_gvb.py:80-210 | The script succeeds exactly when an agency matches and the needed members and columns are there, and then writes a feed in the filter's relation to the source |
| GtfsFilter.CollectStopTimes | otp/scripts/filter_gtfs_gvb.py:124-143 | One streaming pass keeps the right rows, collects exactly their stops, and gives each candidate with a parseable time the least and greatest of all of them |
| GtfsFilter.NoteTime | otp/scripts/filter_gtfs_gvb.py:135-140 | Whatever times a trip's span had the extremes of, the new span has the extremes of these with the time added, if it parses; no other trip's span changes |
| GtfsFilter.PatchTrips | otp/scripts/filter_gtfs_gvb.py:148-156 | The loop over the trips repairs in place exactly the rows the specification repairs, and counts any |
| GtfsFilter.SpanDecides | otp/scripts/filter_gtfs_gvb.py:153-154 | Comparing the span with the rush windows is the same as asking of all times whether they stay on one side of each window |
| GtfsFilter.KeepStops | otp/scripts/filter_gtfs_gvb.py:165-175 | The worklist ends on every stop table, with cycles and dangling parents, and yields the least set with the referenced stops that is closed under parents |
| GtfsFilter.ListStops | otp/scripts/filter_gtfs_gvb.py:176 | Every kept stop the table knows is listed once, in whatever order the set is walked |
| GtfsProperties.TimeOfThreeParts | otp/scripts/filter_gtfs_gvb.py:44-55 | Three colon-separated numbers are a time with no limit on the hours; if a part is no number there is no time |
| GtfsProperties.RequiredMembers | otp/scripts/filter_gtfs_gvb.py:119-143 | Agencies, routes and stop times are written as the selected source rows in order, cell by cell, a missing cell as blank and a surplus one not at all; rows with exactly the header's columns are unchanged |
| GtfsProperties.OptionalMembers | otp/scripts/filter_gtfs_gvb.py:179-210 | Optional members are written as their selected source rows, or not at all when absent |
| GtfsProperties.StopMembers | otp/scripts/filter_gtfs_gvb.py:162-176 | The written stop ids are exactly the kept ids the source knows |
| GtfsProperties.TripsWritten | otp/scripts/filter_gtfs_gvb.py:146-159 | Every selected trip is written in order with all other columns unchanged; its bikes_allowed is 1 exactly when it was 1 or the repair applies |
| GtfsProperties.RepairIsExact | otp/scripts/filter_gtfs_gvb.py:40-156 | With unique trip ids the repaired trips are exactly the not-bikeable trips on routes of type 1 that have some time, all by 7:00 or all from 9:00 on, and all by 16:00 or all from 18:30 on |
| GtfsOutput.SecsIs | otp/scripts/filter_gtfs_gvb.py:44-55 | Exactly the texts of three numbers between two colons are times |
| GtfsOutput.NoAgencyMatches | otp/scripts/filter_gtfs_gvb.py:86-95 | The script stops for want of an agency exactly when no agency has the text as its id or inside its name, in lower case |
| GtfsOutput.WrittenRows | otp/scripts/filter_gtfs_gvb.py:84-210 | A row is written exactly when: its agency matches; its route is one of a matching agency; a written trip has the stop time's or frequency's id; a written trip names the calendar or shape; both ends of the transfer are kept |
| GtfsOutput.AbsentStaysAbsent | otp/scripts/filter_gtfs_gvb.py:179-210 | An optional member the source does not have is not written |
| GtfsOutput.RepairInTheOutput | otp/scripts/filter_gtfs_gvb.py:101-159 | For every feed: one written row for each trip on a route of a matching agency, all other columns untouched; it turns bikeable exactly when it has times, none across a rush window, and a served trip of its id is unmarked on a route of type 1 |
| GtfsOutput.OnlyMetroTripsAreRepaired | otp/scripts/filter_gtfs_gvb.py:40-159 | With unique trip ids a written trip goes from another value to 1 if and only if a route of a matching agency with its route id has type 1 and its times avoid the rush windows |
| GtfsOutput.TripsHeader | otp/scripts/filter_gtfs_gvb.py:157-159 | The trips' header stays, but for a bikes_allowed column if it had none and some trip is repaired |
| GtfsOutput.LastStopCounts | otp/scripts/filter_gtfs_gvb.py:164 | Of several rows with one stop id the last one counts |
| GtfsProperties.QuietIsExact | otp/scripts/filter_gtfs_gvb.py:32-40 | A span meets no rush window of any day if and only if it lies in one gap between two of them |
| GtfsProperties.RepairedTripsAvoidRush | otp/scripts/filter_gtfs_gvb.py:35-39 | The span of a repaired trip meets no rush window of any day exactly when it ends by 31:00:00 or lies in one gap |
| GtfsProperties.LateRunMeetsRush | otp/scripts/filter_gtfs_gvb.py:37-39 | A run from 31:30:00 to 32:00:00 is repaired and meets the next morning's window |
| GtfsProperties.KeptAreAncestors | otp/scripts/filter_gtfs_gvb.py:165-175 | The kept ids are exactly the referenced stops and everything reached from them by climbing parents |
| GtfsProperties.InnerReferencesResolve | otp/scripts/filter_gtfs_gvb.py:97-143 | Route to agency, trip to route, stop time to trip and frequency to trip always resolve in the output |
| GtfsProperties.ServicesAndShapesResolve | otp/scripts/filter_gtfs_gvb.py:179-188 | A written trip's service and shape resolve in the output exactly when they resolved in the source |
| GtfsProperties.StopReferencesResolve | otp/scripts/filter_gtfs_gvb.py:162-202 | Stop times, parents and transfers resolve exactly when they did in the source; every written stop is used or an ancestor of a used one |
| GtfsProperties.KeptTripsAreWhole | otp/scripts/filter_gtfs_gvb.py:128-205 | No stop time or frequency of a written trip is dropped |
| GtfsProperties.OutputIsFilterable | otp/scripts/filter_gtfs_gvb.py:23-24 | The script can be run again on its own output |
| GtfsProperties.OutputIsRectangular | otp/scripts/filter_gtfs_gvb.py:67-77 | Every written row has exactly its header's columns |
| GtfsProperties.NothingLeftToRepair | otp/scripts/filter_gtfs_gvb.py:110-156 | The second run repairs no trip |
| GtfsProperties.FilteringTwiceChangesNothing | otp/scripts/filter_gtfs_gvb.py:23-24 | The output can be filtered again; every second run repairs nothing, keeps the same stop ids and writes the same feed, every member identical but for the order of the stops |
| Scoring.Score | app/services/scoring.py:157-199 | The loop over the legs computes the score whose cost and minutes CostFormula.ScoreIs tells in full |
| CostFormula.ScoreIs | app/services/scoring.py:157-199 | The cost is, to four decimals, the minutes, the rain price of every leg, each later boarding at its price, the bias unless the kind is bike, less the ferry and the station bonus exactly where they are earned; the rain minutes are the legs' to the nearest minute |
| CostFormula.LegIsPriced | app/services/scoring.py:136-154 | A leg that is neither cycled nor walked has no rain; an exposed one has the smaller of its minutes and five per wet slot, each at the penalty of the first band above the highest wet slot |
| CostFormula.TransferPriceIs | app/services/amsterdam.py:50-64 | The price of transfers is the number of later boardings at hubs times the hub price plus the number elsewhere times the ordinary price |
| CostFormula.HandoffIs | app/services/amsterdam.py:72-86 | The station bonus looks at where the first cycled leg ends, if that is known |
| CostFormula.DefaultsAre | app/services/scoring.py:72-103 | The default bands, prices, bonuses, bias, wait factor, wait limit and threshold, in numbers |
| CostFormula.KindOfModes | app/services/scoring.py:36-53 | For every mix of modes: cycled with nothing but a ferry is bike, cycled with other vehicles is bike-and-ride, any other ride is transit, and only walking has no kind |
| CostFormula.BikeUnlessTransitSavesMore | app/services/scoring.py:86-88 | Without rain and with equal transfers and ferries, bike ranks above transit while transit saves less than the bias and below as soon as it saves more; at exactly the bias the costs are equal and the shorter trip ranks first |
| CostFormula.DryRankingFollowsBias | app/services/scoring.py:223-245 | The same of the places of the two options in a ranking, when both leave first of their kinds |
| Scoring.PenaltyMonotone | app/services/scoring.py:136-140 | With penalties that never fall and stay between 0 and the heavy one, the penalty never falls with the intensity |
| Scoring.DefaultsEscalate | app/services/scoring.py:72-78 | The default bands have that form |
| Scoring.RoundMonotone | app/services/scoring.py:194-199 | Rounding half to even, to whole numbers or four places, keeps order |
| Scoring.ScoreMonotone | app/services/scoring.py:143-199 | With the same slots and at least as much rain in each, no candidate's cost or rain minutes fall |
| Scoring.ShelteredScore | app/services/scoring.py:173-178 | A fully sheltered trip scores under any forecast as it does without one |
| Scoring.NoForecastScoresDry | app/services/scoring.py:168-178 | No forecast scores exactly like a forecast that stays below the threshold |
| Ranking.Rank | app/services/scoring.py:223-245 | The two passes and the sort return the first cheapest eligible candidate of each kind and nothing else, strictly sorted by cost, duration and kind name |
| CostFormula.WaitIsPriced | app/services/scoring.py:230-239 | A candidate competes when it leaves no later after its kind's earliest than the limit, at its score plus the factor for every minute of that, to four decimals |
| CostFormula.LaterCostsMore | app/services/scoring.py:231-239 | Of two trips of a kind that score alike, the later costs the factor more per minute, up to one unit of the fourth decimal |
| CostFormula.OptionsInOrder | app/services/scoring.py:244 | Options stand in the order of cost, then duration, then bike, bike-and-ride, transit |
| Ranking.SortWinners | app/services/scoring.py:243-244 | The sort lists each kind's winner once, in strict order |
| Ranking.EarliestIsEligible | app/services/scoring.py:225-234 | A nonnegative wait limit never rules out a kind's earliest candidate |
| Ranking.SomeoneWins | app/services/scoring.py:230-242 | A kind with an eligible candidate has a winner |
| Ranking.OneOptionPerKind | app/services/scoring.py:210-219 | There is one option for each kind of candidate, and there are options if and only if the wait limit is not negative |
| Ranking.RankingIsUnique | app/services/scoring.py:243-245 | That description determines the ranking completely |
| Ranking.CompetingMonotone | app/services/scoring.py:231-239 | With at least as much rain no candidate's wait-adjusted cost falls, and the same candidates compete |
| Ranking.WinningCostsMonotone | app/services/scoring.py:223-245 | With at least as much rain no kind's winning cost falls |
| Ranking.ShelteredStaysCheapest | app/services/scoring.py:230-245 | A sheltered cheapest option stays a cheapest option at the same cost under any forecast that is no drier |
| Ranking.NoForecastRanksDry | app/services/scoring.py:168-172 | No forecast gives exactly the ranking of a forecast below the threshold |
| Advice.WindowIsExact | app/services/scoring.py:123-133 | For an interval under a day the wrapping time-of-day test matches exactly the times that occur in it |
| Advice.WindowIsExactWhen | app/services/scoring.py:131-133 | The test is exact for all times at once if and only if the interval is not backwards and is shorter than a day or a millisecond short of whole days |
| Advice.SummaryIs | app/services/advice.py:63-84 | The banner expects rain exactly when a slot of the ride's window on the local clock reaches the threshold; its peak is that window's highest slot, or 0, to four decimals; without a forecast it is unknown |
| Advice.PlanFields | app/services/advice.py:125-144 | The first option is the recommendation; bike and transit minutes are those of the options of these kinds, to the nearest minute, or missing; the banner is about the bike option or else the first, at a threshold of 0.1 |
| Advice.PricedRainIsOnTheBanner | app/services/advice.py:78-84 | Rain priced on any leg makes the banner expect rain, with a peak no lower than the leg's, before and after rounding |
| Advice.DryBannerMeansDryScore | app/services/advice.py:78-84 | If the banner expects no rain the ride is scored as if there were no forecast |
| Advice.DryBannerMeansDryBike | app/services/advice.py:127-133 | The banner is about the winning bike option when there is one, and if it expects no rain that option competes at its no-rain cost |
| Advice.FirstOfKindFinds | app/services/advice.py:130-131 | The lookup finds an option of the kind exactly when there is one |
| Advice.Recommend | app/services/advice.py:125-144 | There is a plan exactly when there are candidates; its options are the ranking and its other fields follow from them, as Advice.PlanFields tells |
| Advice.EvaluateTrip | app/services/notify.py:131-209 | The notifier's verdict: rain exactly when the winning bike candidate meets a slot at the threshold during its ride; degraded exactly when the trip was assessable but had no forecast |
| Snap.FirstBike | app/services/snap.py:58-63 | The result is an itinerary that classifies as bike with none before it in the plan, or there is none |
| Snap.Otp.Bike | app/services/snap.py:66-86 | A query, sent once, comes to a bike trip exactly when it was answered by a plan that holds one |
| Snap.ProbeRing | app/services/snap.py:108-110 | Probing a ring in any completion order gives every offset's own answer, in offset order, each asked once |
| Snap.SnapRing | app/services/snap.py:108-119 | A ring yields the re-plan of its first pair that works, having asked exactly the ring's probes and the re-plans of the hits up to it |
| Snap.SnapOneEndpoint | app/services/snap.py:103-120 | The two rings of an endpoint yield the re-plan of the first pair that works, and no ring after it is probed |
| Snap.BikeWithSnapping | app/services/snap.py:137-147 | The result is the first bike trip of the re-plan of the first of 24 pairs, in coordinates, whose probe and re-plan both offer one; there is none exactly when no pair does; the queries sent are exactly known |
| Snap.WorksIs | app/services/snap.py:34-51 | Pair k below 12 asks from the true origin to the k-th listed place around the destination, pair 12 + k from that place around the origin to the true destination |
| Snap.NearerFirst | app/services/snap.py:34-51 | The eight places tried first are nearer, in degrees, than the four tried after them |
| Snap.TrueOriginFirst | app/services/snap.py:137-147 | If some ride from the true origin to a moved destination is offered by probe and re-plan, such a ride is returned and no ride from a moved origin is asked for |
| Snap.FirstIsUnique | app/services/snap.py:99-102 | At most one pair is first, so the result does not depend on who answers first |
| Snap.SearchIsBounded | app/services/snap.py:144-145 | A search sends at most 24 probes and 24 re-plans |
| Planner.GatherCandidates | app/services/planner.py:62-97 | Failed queries are skipped, the call fails as a planner error only if all of them failed, any other exception is raised, and the fallback's trip is added exactly when there are candidates but no bike |
| Planner.PooledMembers | app/services/planner.py:80-86 | The pool holds exactly the classifiable itineraries of the plans that arrived |
| Planner.PooledInOrder | app/services/planner.py:80-86 | Candidates stand in the order of the queries |
| Planner.ClassifiedInOrder | app/services/planner.py:81-86 | And within a plan in its order |
| Planner.CandidatesAreClassified | app/services/planner.py:92-95 | Every candidate carries its own classification, also the one from the fallback |
| RainCache.RainService.GetForecast | app/services/rain.py:56-116 | The answer and the new cache of one request, for a fresh hit, a live fetch, a stale fallback, no data and an escaping exception |
| RainCache.UndisturbedRequest | app/services/rain.py:56-116 | Left alone, the three steps of a request in a run give the same answer and the same cache |
| RainCache.ReadServesOrRefetches | app/services/rain.py:64-106 | A readable entry younger than its retention answers at once while its stamp is fresh, and otherwise is the fallback of the refetch; without one there is no fallback |
| RainCache.StepKeeps | app/services/rain.py:64-116 | Every read, end of a fetch and landing of a write, in any order, keeps the cache genuine and every answer justified |
| RainCache.RunKeeps | app/services/rain.py:56-116 | That holds along every run of overlapping requests with writes that land late, in any order or never |
| RainCache.EveryAnswerIsJustified | app/services/rain.py:64-83 | Every forecast given had been fetched for a place with the same rounded key: fresh when read, or fetched during the request, or served because the refetch was unusable; no data is the answer exactly when the refetch was unusable and the read had found nothing |
| RainCache.AgeBoundIsExact | app/services/rain.py:95-116 | A readable entry is always younger than the retention time if and only if it reached the cache in the instant of its stamp |
| RainCache.StaleNeverRejuvenates | app/services/rain.py:108-116 | In every run an entry changes only when a live fetch for its key lands, and then carries that fetch's forecast and stamp; its stamp goes back exactly when that write was stamped before the one it replaces |
| RainCache.OrderIsExact | app/services/rain.py:110-114 | After a run whose fetches ended in order, a fetch may end with no stamp going back in any orderly continuation if and only if no older write for its key is still on its way |
| RainCache.LateWriteGoesBack | app/services/rain.py:110-114 | Two requests fetch at 10 and 12, their writes land at 14 and 13, and the entry's stamp goes from 12 back to 10 |

## Left out

- OutboxDuplicates.DisciplinedRunIsPaidFor: asks for retry queries that answer no row another tick carries, because exactly those keep the bound (OutboxSelection.DisciplineIsExact); the code does not check this.
- OutboxProgress.TickIsNeverStuck: says what can happen next, not that it does: a scheduler or database that never lets a waiting tick run is not excluded (fairness).
- TickDrain.TicksDrainTheBacklog: is about ticks that run one after the other and rows whose departure day has not passed; with failing sends nothing is promised about the pace.
- CostFormula.LaterCostsMore: is exact up to one unit of the fourth decimal, because the code rounds twice.
- Calendar.EveryDepartureIsCovered: assumes that the wall clock does not jump.
- Scoring.ScoreMonotone: asks for penalties between 0 and the heavy one and legs of nonnegative duration, because with a negative penalty more rain minutes cost less.
- Advice.PricedRainIsOnTheBanner: asks for rides under a day whose legs lie inside them and one fixed UTC offset, because slots carry only a time of day.
- Snap.BikeWithSnapping: has no deadline, so giving up after `snap_timeout_seconds` is not captured, and no exception other than the planner's own error.
- RainCache.EveryAnswerIsJustified: bounds a stale answer's age from the moment the cache took the entry in, because the expiry counts from there (RainCache.AgeBoundIsExact).
- GtfsProperties.RepairIsExact: asks for unique trip ids, because the script decides by id and treats namesakes alike; GtfsOutput.RepairInTheOutput says what happens without that.
- GtfsProperties.FilteringTwiceChangesNothing: asks, like the other lemmas about whole tables, that every row has exactly its header's columns; that a cell missing from a row reads as absent and is written blank is stated in GtfsProperties.RequiredMembers only.
- Clock changes during a lead window or a ride.
- Reading and writing csv and zip files, encodings and byte-order marks; `str.lower` and `int` are parameters.
- A stop set or map is walked in an arbitrary order; no particular order is claimed for the written stops.
- Deletion of notifications when an alert or a user is deleted, and the exact time in `delivered_at`, which is modelled as stamped or not.
- Task cancellation and the object-relational mapper's identity map; a send counts as accepted when it returns normally, and a rollback empties the session whether or not it raises.
- The planner's plan cache and its key, the distance to hubs (an arbitrary predicate here), and the human-readable reason text.
- Binary floating point: costs are reals, rounded half to even where the code rounds.
- The in-memory cache without expiry.
- Routers, authentication, settings, HTTP clients, the stop import and the geocoder.
