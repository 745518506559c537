# Verification of the alerting runtime's core

Ding watches sources, decides conditions about their observations and delivers alerts. This
project models the parts of it whose correctness rests on invariants over whole runs, and proves
what they promise. `dafny verify dfyconfig.toml` checks everything.

- **The condition evaluator** (`Expression`, `Evaluator`, `Evaluation`). One observation of one
  entity turns the stored state into the next state and its events. `Evaluator` says as a function
  what one evaluation does; `Evaluation` performs it as the program does, changing a copy of the
  state step by step in loops, and is proved equal to it. What holds over every run of committed
  evaluations is proved in `SampleWindows` (a judged window is exact), `Incidents` (firing and
  recovery alternate and rest on counted evidence; unknown input holds an incident), `Dedup` (an
  event ID is new exactly when it should be), `Changes` (a change is one from the value judged
  last), `Timing` (intervals and missing-data periods), `EventLog` (source health, ordered
  evidence, bounds), `Verdicts` (what is accepted, judged and decided, and why not) and
  `TurnEvents` (everything an evaluation tells, in order). `Expression` is the AND/OR parser.
- **The log pipeline**. `LogFraming` cuts written bytes into lines and joins lines into records;
  `LogCollector` is the lossy queue between streams and worker; `LogWindow` is the ring of
  per-second counters, a fast form of the plain list of records; `LogOverwriting` says for any
  history what becomes of each record; `LogReadiness` when a summary is ready and what its ratios
  are; `LogSummary` re-assesses a published summary;
  `LogPipeline` joins them from bytes to answer. Objects are classes with the program's fields;
  ghost histories say what was written, framed, lost and analyzed.
- **Database ownership** (`Ownership`): advisory lock, owner row and share-locked fences, as a
  state machine over sessions and transactions in any interleaving.
- **Admission** (`TokenBucket`, `Admission`, `PushAdmission`): bounded registries of limiters that
  decide like registries that never forget, and slots that equal the unreleased grants.
- **Ledgers** (`PushLedger`): group commit and the planned journal over a file that may write
  short or fail to sync.
- **Transfers** (`Handoff`, `HandoffOrder`, `HandoffProgress`): the coordinator's calls over
  connections that may come to reach other instances, instances that hand a watch there and back
  any number of times, and a network that loses, delays and repeats, as a state machine.
  `OperationJournal` binds operation keys.

Conventions. Evaluator time is nanoseconds since Go's zero time, which is 0; log time is
nanoseconds since the Unix epoch, with Go's zero time as a negative constant. Numbers and token
counts are reals. A run is a sequence of committed evaluations: refused ones leave no trace.

Some properties one might expect of the code are false. Each has a concrete input and the exact
condition under which it holds.

- Evidence is not always the current row: a match that breaks off a recovery leaves its
  non-matches in front, and a level trigger then fires naming them
  (`Incidents.InterruptedRecoveryIsNamed`). It is exactly the row if and only if the row broke off
  nothing (`Incidents.EvidenceIsTheRow`).
- With a level trigger firing and recovered need not alternate: an incident can open before an
  emission is due and recover without having fired (`Incidents.SilentIncidentRecovers`). They
  alternate if and only if full rows come when due exactly when they open the incident
  (`Incidents.AlternationNeedsDueRows`).
- A ready log summary can miss records: a `Snapshot` for a time before the newest record
  (`LogWindow.StaleSnapshotUndercounts`), or one after a loss reported for a second older than the
  ring (`LogOverwriting.LateDropUndercounts`). It is exact if and only if no record of its window
  was overwritten (`LogOverwriting.ReadyIsExactUnlessOverwritten`), which the queue barrier of the
  collector guarantees.
- `Assess` gives the reason of a summary differently from `Snapshot` exactly when a gap without
  counted losses coincides with invalid records or an unfilled window
  (`LogSummary.AssessAgreesWithSnapshot`), as at the start of a window that begins with a gap
  (`LogSummary.ReasonCanChange`).
- A fence does not show that the owner's own session still lives: a session that reused its
  process ID and took the lock, but has not yet published, satisfies it
  (`Ownership.FenceMeaning`, `Ownership.ReusedPidPassesTheFence`). Commits stay in their era
  nevertheless, because the owner row cannot be updated past a share lock.

## Model

| member | source | states |
|---|---|---|
| `SampleWindows.KnownIsExact` | internal/condition/transition.go:405-453 | exact window or unknown: over every run, a known verdict on a numeric condition is the condition over exactly the in-order numeric samples offered since the last clock marker with accepted time in (now - W, now], window by window: the number of each window is the count, sum, mean, least or greatest member of those values; and no window reaches back to the marker |
| `SampleWindows.OneOperandDecides` | internal/condition/transition.go:405-453 | over every run a known verdict on `value op L` matches if and only if the offered value minus L is positive (`>`), negative (`<`), zero (`==`) and so on, and one on `f(value) over W op L` if and only if the aggregate of the values offered in (now - W, now] does |
| `SampleWindows.NumberIsJudgedInTime` | internal/condition/transition.go:417-434 | after any run a healthy, in-order number is judged if and only if a full span has passed since the last clock marker and since every sample that found the store full, and there is room for one more |
| `SampleWindows.RunMarks` | internal/condition/transition.go:417-434 | over every run the clock and overflow marks end exactly a full span after the last clock marker and after the last sample that found the store full |
| `SampleWindows.RunStores` | internal/condition/transition.go:409-434 | over every run the pruned, bounded store shows any window of the condition as the full list of offered samples does, from the moment its overflow mark has passed; it never holds more than MaxSamples |
| `SampleWindows.CompleteStoreShows` | internal/condition/transition.go:417-434 | a store that reports itself complete shows every window of the condition exactly, and the longest window lies wholly after the last clock marker |
| `SampleWindows.PruningIsSafe` | internal/condition/transition.go:409-416 | pruning with the longest window at an earlier time removes nothing a later look through a shorter window needs |
| `SampleWindows.StepStores` | internal/condition/transition.go:207-234 | which ways through an evaluation touch the sample store, and when the last accepted time advances |
| `SampleWindows.LeafAggregate` | internal/condition/transition.go:436-452 | each leaf number holds the aggregate of its own window, and is present exactly when that window has a sample |
| `SampleWindows.EmptyWindowUnreachable` | internal/condition/transition.go:443-445 | for a compiled definition the empty_window outcome cannot happen: the sample being judged lies in every window |
| `SampleWindows.KnownVerdict` | internal/condition/transition.go:405-453 | a known numeric verdict had a complete store and is the expression over that store |
| `SampleWindows.NumberIsJudgedGivenRoom` | internal/condition/transition.go:405-434 | after any run a healthy, in-order number is accepted, and its verdict is known if and only if no clock or overflow mark is pending and the samples still in the longest window leave room for one more |
| `Incidents.IncidentsAlternate` | internal/condition/transition.go:332-368 | with a transition trigger, over every run, firing and recovered events strictly alternate starting with firing, and Open holds exactly after a firing |
| `Incidents.AlternationNeedsDueRows` | internal/condition/transition.go:332-346 | for every trigger: firing and recovered alternate throughout a run, with Open exactly after a firing, if and only if every full row of a level trigger came when due exactly if it opened the incident |
| `Incidents.OpeningFiresWhenDue` | internal/condition/transition.go:333-346 | an evaluation that opens the incident announces it if and only if the trigger is a transition or an emission is due |
| `Incidents.RecoveryIsPreceded` | internal/condition/transition.go:332-368 | a recovery has a firing since the recovery before it if and only if a full row of that incident fired: it opened a transition incident, or came when due |
| `Incidents.SilentIncidentRecovers` | internal/condition/transition.go:333-346 | a concrete level run whose incident log is firing, recovered, recovered |
| `Incidents.IncidentsRestOnStreaks` | internal/condition/transition.go:327-368 | for every trigger: an evaluation fires if and only if it makes a row of at least Consecutive matches and the incident was closed (transition) or an emission is due (level), and recovers if and only if it makes the RecoverAfter-th non-match in a row of an open incident; unknown, waiting, gap and over-long silence break a row, and a firing that opens an incident rests on exactly Consecutive matches |
| `Incidents.IncidentCarriesItsStreak` | internal/condition/transition.go:164-187 | the evidence of a firing is exactly the first Consecutive matches of its row after the non-matches that row broke off, and that of a recovery exactly the non-matches of its row, with the samples in store or the last fresh observation and its own sequence; a firing that opens the incident has broken off nothing |
| `Incidents.CountersFollowTheRun` | internal/condition/transition.go:327-368 | for every trigger and at all times: Matches is the row of matches up to Consecutive, Recoveries the row of non-matches of an open incident, and Evidence the latter, or the former after the non-matches it broke off |
| `Incidents.EvidenceIsTheRow` | internal/condition/transition.go:327-368 | Evidence holds exactly the row if and only if that row did not break off a recovery |
| `Incidents.MatchInterrupts` | internal/condition/transition.go:327-332 | a match breaks off a recovery exactly when one is under way and no over-long silence lies before it; later matches of the row keep what was broken off |
| `Incidents.InterruptedRecoveryIsNamed` | internal/condition/transition.go:327-342 | a concrete run in which Evidence is not the row: match, non-match, match stores [2, 3] for the row [3], and a level trigger fires naming the non-match |
| `Incidents.UnknownHoldsIncident` | README.md:155-162 | an evaluation without a known verdict leaves Open and the incident event as they were and emits neither firing nor recovered, for every rule and trigger |
| `Incidents.StepMovesCounters` | internal/condition/transition.go:188-282 | one step moves the counters by its mark alone (match, non-match, break or skip) after a silence over maxGap clears them, and logs exactly the incident event a full row calls for |
| `Incidents.UnknownStepHolds` | internal/condition/transition.go:188-206 | the same for a single step from any state |
| `Incidents.OtherWaysLogNothing` | internal/condition/transition.go:235-299 | clock, backward, gap, unchanged, waiting, bad and filtered observations never open or close an incident |
| `Incidents.DecideMovesIncident` | internal/condition/transition.go:327-368 | a verdict moves the counters and emits the incident event the row, the trigger and the interval call for |
| `Verdicts.WaysMean` | internal/condition/transition.go:207-300 | which observations are clock markers, backward, gaps, unchanged, waiting, bad, filtered and judged, each as an if-and-only-if on the observation, whatever order the program asks in |
| `Verdicts.SilenceMeans` | internal/condition/transition.go:251-258 | a silence is reported if and only if more than maxGap passed since the last accepted time and the rule is not for missing data |
| `Verdicts.RefusalMeans` | internal/condition/transition.go:102-133 | an evaluation is refused if and only if its time, sequence, group or entity is wrong or the message of an event it would emit does not render |
| `Verdicts.EntityIsFixed` | internal/condition/transition.go:114-133 | over every run an entity, once named, stays, and no healthy observation of another entity is accepted |
| `Verdicts.ComparisonDecides` | internal/condition/transition.go:394-404 | over every run a comparison is known if and only if the observation is judged and the two values can be compared, and matches by the sign of their difference, or by equality |
| `Verdicts.ReasonsMean` | internal/condition/transition.go:207-313 | over every run a transition without a verdict says why: the reason is named by what the observation and the stored state are |
| `Changes.ChangeIsExact` | internal/condition/signals.go:10-37 | over every run an observation of a change rule matches if and only if an earlier observation was judged and the value of the latest of those differs from this one |
| `Changes.SignalIsAnnounced` | internal/condition/transition.go:314-326 | over every run `changed` or `new-event` is emitted if and only if the observation matched and an interval has passed since the last emission or clock marker; the evidence of a change is the earlier observation followed by its own, that of a new event its own |
| `Changes.RunBaseline` | internal/condition/signals.go:18-37 | over every run the stored baseline is the value and sequence of the observation judged last |
| `TurnEvents.TurnTellsAll` | internal/condition/transition.go:188-368 | over every run the events of an evaluation are, in this order and no others: a sampling gap exactly after a reported gap or a silence, the change of source health it makes, and what the verdict calls for |
| `TurnEvents.StateNamesItsEvents` | internal/condition/transition.go:188-368 | over every run the state names the firing of the open incident and the error of the unhealthy source, and drops them exactly on recovery |
| `Dedup.DedupIsExact` | internal/condition/signals.go:38-58 | over every run a judged event ID (a string of 1 to 256 characters) is new if and only if no match of it lies within the last DedupFor and it was not carried over a clock jump within DedupFor; the memory stays within MaxSamples |
| `Dedup.IdIsJudgedGivenRoom` | internal/condition/signals.go:50-58 | an ID asked about is judged if and only if it is suppressed already or fewer than MaxSamples IDs are |
| `Dedup.RunSeen` | internal/condition/signals.go:38-58 | over every run the Seen map suppresses, from the last accepted time on, exactly the IDs the history suppresses |
| `Dedup.NewIdAnswers` | internal/condition/signals.go:45-58 | one question to the memory: the answer is right when known, and what is remembered afterwards is exact |
| `Dedup.MarkerCarries` | internal/condition/transition.go:222-231 | a clock jump keeps exactly the unexpired IDs, each for a full period after it |
| `Dedup.StepSeen` | internal/condition/signals.go:38-58 | which ways through an evaluation ask the memory, and what they leave in it |
| `Timing.EmissionsAreApart` | internal/condition/transition.go:314-344 | between clock markers, any two emissions of a level, changed or new-event watch are at least the interval apart |
| `Timing.EmissionKeepsInterval` | internal/condition/transition.go:215-217 | an emission comes at least the interval after the later of the last emission and a clock marker since |
| `Timing.RunTimes` | internal/condition/transition.go:314-344 | LastFired is at all times the moment the interval is measured from |
| `Timing.MissingKeepsItsPeriod` | internal/condition/transition.go:376-393 | missing data is never reported within MissingFor of a refreshing observation or a clock marker, nor before the deadline a timer carries |
| `Timing.TimerDecides` | internal/condition/transition.go:376-393 | over every run a judged timer is known if and only if there is a deadline and it does not carry another, and then matches if and only if the time is not before MissingFor after the last sign of life |
| `Timing.SignIsNoMatch` | internal/condition/transition.go:376-393 | over every run a judged observation other than a timer is a known non-match of a missing-data rule |
| `Timing.RunDeadline` | internal/condition/transition.go:218-221 | the stored deadline is at all times MissingFor after the last sign of life, and the stored sequence that of the last fresh observation since a clock marker |
| `Timing.StepTimes` | internal/condition/transition.go:314-344 | one step: who restarts the interval, and that emissions are due |
| `EventLog.SourceEventsAlternate` | internal/condition/transition.go:188-206 | over every run source_error and source_recovered alternate starting with source_error, SourceUnhealthy holds exactly after an error, and HealthEvent is set exactly then |
| `EventLog.EvidenceIsOrdered` | internal/condition/transition.go:164-187 | over every run the evidence of every event is strictly increasing and ends at the triggering sequence |
| `EventLog.EvidenceIsBounded` | internal/condition/transition.go:327-368 | over every run Evidence holds at most Consecutive + RecoverAfter - 1 sequences, and none for change and new-event rules |
| `EventLog.StepTells` | internal/condition/transition.go:274-310 | one step announces exactly the change of source health it makes |
| `EventLog.StepNames` | internal/condition/transition.go:164-187 | one step from a state without newer sequences emits only well-ordered evidence and stores no newer sequence |
| `EventLog.EmitNamesItself` | internal/condition/transition.go:164-187 | an event emitted from such a state lists ascending evidence ending with its own observation |
| `EventLog.SignalCountsNothing` | internal/condition/transition.go:314-326 | change and new-event rules leave no counters or evidence between observations |
| `Evaluator.Aggregate` | internal/condition/transition.go:499-524 | the loop computes the number of values, their sum, a number that times their count is their sum, or a member with no member below (above) it |
| `Evaluator.TotalAdds` | internal/condition/transition.go:499-524 | the sum of a list is that of its parts, and of one value the value: which makes it the sum |
| `Evaluator.CompareMeans` | internal/condition/transition.go:475-497 | a comparison with a number is known if and only if the value is a number, and holds by the sign of the difference; any other is known only for `==` and `!=` between like types or with null, and holds by equality |
| `Evaluator.Least` | internal/condition/transition.go:499-524 | the least value is a member and no member is smaller |
| `Evaluator.Greatest` | internal/condition/transition.go:499-524 | the greatest value is a member and no member is larger |
| `Evaluator.MaxWindow` | internal/condition/transition.go:83-93 | the retained span is at least every window of the condition, and is one of them or zero |
| `Evaluator.Ascending` | internal/condition/transition.go:164-184 | the distinct members of the collected evidence in strictly increasing order |
| `Evaluator.TurnIsStep` | internal/condition/transition.go:102-133 | the last turn of a run is one step from the state the run before left, with a positive time and an increasing sequence |
| `Evaluator.RunExtends` | internal/condition/transition.go:102-133 | no run is stuck: a positive, increasing, renderable observation of the run's entity always extends it |
| `Evaluator.HoldEffect` | internal/condition/transition.go:188-206 | unknown input keeps the samples, the interval, the deadline and the signals, and advances sequence and time |
| `Evaluation.New` | internal/condition/transition.go:60-98 | a definition is refused exactly for unusable limits, a signal with a counting policy, unparsable text, a run-long window or a message template that does not parse; whatever is accepted satisfies the assumptions evaluation makes (windows positive and numbered from zero) |
| `Evaluation.Evaluate` | internal/condition/transition.go:102-133 | the imperative evaluation, refusals included, computes exactly the transition the run properties speak about |
| `Evaluation.Run` | internal/condition/transition.go:207-313 | the ways through an evaluation, in the order the program tries them |
| `Evaluation.Judged` | internal/condition/transition.go:374-454 | the predicate, updating samples, deadline and signals step by step, gives the verdict and the state of the specification |
| `Evaluation.Keep` | internal/condition/transition.go:409-434 | pruning, budget, clock and overflow marks in place |
| `Evaluation.Retain` | internal/condition/transition.go:409-415 | the filter loop keeps exactly the samples inside the window, in order |
| `Evaluation.Windowed` | internal/condition/transition.go:435-452 | the loop over windows finds every aggregate, or stops exactly when some window is empty |
| `Evaluation.DropExpired` | internal/condition/signals.go:45-49 | deleting expired IDs one by one in any order leaves exactly the unexpired ones |
| `Evaluation.RebaseSeen` | internal/condition/transition.go:224-230 | one pass over the memory at a clock jump drops the expired IDs and renews the others |
| `Evaluation.Remember` | internal/condition/signals.go:42-58 | the judgement of one event ID and the memory after it |
| `Evaluation.MarkDiscontinuity` | internal/condition/transition.go:207-232 | what a clock marker clears, renews and keeps |
| `Evaluation.HoldIncident` | internal/condition/transition.go:188-206 | unknown input in place: counters cleared, one source_error at most, incident held |
| `Evaluation.AwaitRecords` | internal/condition/transition.go:267-282 | waiting in place: counters cleared, the source recovered unless collection ended |
| `Evaluation.ApplyPolicy` | internal/condition/transition.go:304-369 | a verdict in place: source recovery, then signal, match or non-match |
| `Evaluation.Matched` | internal/condition/transition.go:327-346 | a match in place |
| `Evaluation.Unmatched` | internal/condition/transition.go:347-368 | a non-match in place |
| `Evaluation.Gather` | internal/condition/transition.go:164-184 | the deduplicating, sorting collection of evidence gives the ascending distinct list |
| `Expression.ParseExpression` | internal/condition/numeric.go:299-310 | a parse succeeds exactly when the text tokenizes and every operand is recognised, and then the tree read left to right is the whole token list with windowed operands numbered from zero |
| `Expression.EvalIsOrOfAnds` | internal/condition/numeric.go:139-147 | a parsed expression holds exactly when all operands of some OR-separated group hold |
| `Expression.OperatorsMean` | internal/condition/numeric.go:60-76 | exactly one of `<`, `==` and `>` holds; `>=`, `<=` and `!=` are what they say; `>` is upward and `<` downward closed; each holds by the sign of actual - literal |
| `Expression.TrimTakesBlanks` | internal/condition/numeric.go:168-208 | trimming an operand takes off blanks only, and all of them |
| `Expression.WindowIdsInOrder` | internal/condition/numeric.go:149-151 | window numbers are 0..k-1 from left to right |
| `Expression.WindowsOfFlat` | internal/condition/numeric.go:124-151 | Windows lists the windowed operands in text order |
| `Expression.NumberedWindowsArePositive` | internal/condition/numeric.go:41-54 | windows that do not last as long as the run are positive whenever recognition guarantees it |
| `Expression.Tokenize` | internal/condition/numeric.go:168-208 | the tokens returned are the one reading of the text (pieces and operators that glue back to it, no operator left inside a piece, operands trimmed and not blank), and a text without a reading is refused |
| `Expression.SplitFirst` | internal/condition/numeric.go:172-200 | the text is left whole only if no operator occurs in it, and otherwise cut at the very first one |
| `Expression.ScanAlternates` | internal/condition/numeric.go:168-208 | tokens alternate between non-empty operands and operators |
| `Expression.TokensGlueBack` | internal/condition/numeric.go:168-208 | tokens are a reading: untrimmed operands glued with their operators are the text, and no operator starts inside an operand |
| `Expression.TokensAreTheReading` | internal/condition/numeric.go:168-208 | a text has tokens if and only if it has a reading, and that reading is unique |
| `Expression.FirstCutIsUnique` | internal/condition/numeric.go:172-200 | a text has only one first cut |
| `Expression.GroupsOfConjunction` | internal/condition/numeric.go:251-269 | a conjunction is one group of operands and holds when all of them do |
| `Expression.GroupsAfterOr` | internal/condition/numeric.go:230-249 | OR separates groups: the groups of a whole text are those of its two sides |
| `Expression.Parser.ParseAtom` | internal/condition/numeric.go:271-294 | an operand is read, recognised and numbered, or the reason it cannot be |
| `Expression.Parser.ParseAnd` | internal/condition/numeric.go:251-269 | reads the longest AND chain; on well-formed tokens it fails only for an unrecognised operand |
| `Expression.Parser.ParseExpr` | internal/condition/numeric.go:230-249 | reads the longest OR of AND chains, left-associated; on well-formed tokens it fails only for an unrecognised operand |
| `Expression.Parser.ReadMore` | internal/condition/numeric.go:230-269 | an operator and one more operand extend what has been read, with the next window numbers |
| `LogWindow.ReadyIsExact` | internal/logs/window.go:94-197 | when losses are reported no later than the ring reaches back and the snapshot is not before the newest record, a ready summary counts exactly the records offered in [end - W, end), none of that window was reported lost, and the window starts no earlier than started |
| `LogReadiness.ReadinessMeans` | internal/logs/window.go:154-197 | over every such history a summary is ready if and only if no gap reaches the end of the window, no offered record in it is invalid, it lies after the start, and it has minEvents records, minCoverage of them classified; the ratios of a ready one, times the records offered in the window, are the warnings and the errors with the fatal records offered |
| `LogReadiness.GapMeans` | internal/logs/window.go:81-151 | over every history the gap has passed if and only if a window length has passed since each loss, reported gap, and record refused for age or for want of a counter since the last reset |
| `LogReadiness.StartMeans` | internal/logs/window.go:74-79 | over every history the window starts at its creation or the last reset |
| `LogReadiness.FacetsMean` | internal/logs/window.go:116-135 | a record counts under its own channel and level; a level that does not exist counts as invalid and unclassified |
| `LogWindow.SummaryMeans` | internal/logs/window.go:176-197 | the judgement of a summary: coverage, ratios, completeness, readiness and each reason, from the counters |
| `LogOverwriting.ReadyIsExactUnlessOverwritten` | internal/logs/window.go:110-197 | for any history and any snapshot time, a ready summary is exact if and only if no record of its window was in a bucket that another second took over |
| `LogOverwriting.ReadyIsShortByTheOverwritten` | internal/logs/window.go:110-197 | for any history and any snapshot time, every counter of a ready summary is short by exactly the overwritten records of its window; none of that window was reported lost, and it lies after the start |
| `LogOverwriting.EveryRecordIsAccountedFor` | internal/logs/window.go:94-151 | over every history each offered record is held in its bucket, overwritten, or refused and covered by the gap, and nothing else |
| `LogOverwriting.AddAccounts` | internal/logs/window.go:94-136 | an added record is held, or refused under a gap, and the bucket it displaces is accounted for |
| `LogOverwriting.DropAccounts` | internal/logs/window.go:138-151 | a reported loss displaces at most one bucket, which is accounted for |
| `LogOverwriting.LateDropUndercounts` | internal/logs/window.go:138-151 | a concrete history in which a loss reported for a second older than the ring wipes a newer bucket, and a later snapshot is ready and counts too few |
| `LogWindow.HistoryIsExact` | internal/logs/window.go:81-151 | every history keeps the ring exact for each second a later ready summary could cover; rejected, saturated and dropped records are covered by gapUntil |
| `LogWindow.StaleSnapshotUndercounts` | internal/logs/window.go:154-197 | a concrete history whose snapshot one second before its newest record is ready and counts too few |
| `LogWindow.ReadySummary` | internal/logs/window.go:154-197 | a ready summary of an exact ring counts the list, reports no drops, and lies after the start |
| `LogWindow.RingCountsTheList` | internal/logs/window.go:159-175 | each counter summed over the buckets of the window is the number of listed records in those seconds |
| `LogWindow.AddKeeps` | internal/logs/window.go:94-135 | adding a record, late, saturated or counted, keeps the ring exact |
| `LogWindow.DropKeeps` | internal/logs/window.go:138-151 | reporting a loss keeps the ring exact and covers the lost second with a gap |
| `LogWindow.GapKeeps` | internal/logs/window.go:66-88 | extending the gap keeps the ring exact |
| `LogWindow.StartedIsExact` | internal/logs/window.go:58-79 | a new or reset ring is exact for the empty list |
| `LogWindow.IndexIsFloorMod` | internal/logs/window.go:111-111 | the fixed-up truncating remainder is the floor remainder, so negative seconds have slots too |
| `LogWindow.SameSlot` | internal/logs/window.go:111-115 | two seconds of one slot are equal or at least a ring length apart |
| `LogWindow.Window.constructor` | internal/logs/window.go:58-64 | a new window is the started ring |
| `LogWindow.Window.AddFrom` | internal/logs/window.go:94-135 | the in-place add does to the bucket array what the ring operation does |
| `LogWindow.Window.Open` | internal/logs/window.go:111-115 | the bucket of a second, emptied when its slot holds another second |
| `LogWindow.Window.Lose` | internal/logs/window.go:138-151 | the in-place drop, with its saturation |
| `LogWindow.Window.MarkGap` | internal/logs/window.go:66-88 | the gap end only moves forward |
| `LogWindow.Window.Restart` | internal/logs/window.go:74-79 | reset empties every bucket and the gap |
| `LogWindow.Window.Accumulate` | internal/logs/window.go:159-175 | the loops add up exactly the buckets of the window, per level, channel, invalid and dropped |
| `LogWindow.Window.Snapshot` | internal/logs/window.go:154-197 | the summary computed by the loops is the specified one, with coverage * total == classified, ratios that times total are the warnings and the errors with the fatal records, and readiness and reason each as an if-and-only-if |
| `LogSummary.AssessAgreesWithSnapshot` | internal/logs/summary.go:11-54 | for every history in which invalid records are unclassified, a window's own summary passes Assess exactly while it is fresh, with equal readiness, ratios and counts; only the reason can differ, and exactly when an uncounted gap also hides invalid records or an unfilled window |
| `LogSummary.ReasonCanChange` | internal/logs/summary.go:33-41 | a concrete history for which Snapshot says collection_gap and Assess says warming_up |
| `LogSummary.Assess` | internal/logs/summary.go:11-54 | for any configuration, accepts exactly the fresh, consistent summaries with counts in 0..2^53-1, and recomputes coverage, readiness, ratios and reason: ratios times total are the warnings and the errors with the fatal records, and readiness is an if-and-only-if on counters, gap and start |
| `LogSummary.RecomputedMeans` | internal/logs/summary.go:27-52 | what recomputing a consistent summary means: coverage, ratios, readiness and each reason from its counters, everything else as it was |
| `LogSummary.CountedIsConsistent` | internal/logs/window.go:116-150 | saturation and the ring length keep every total of a window consistent and at most 2^53-1 |
| `LogSummary.HistoryIsSound` | internal/logs/window.go:94-151 | every bucket of every history stays within its limits with channels adding up to levels |
| `LogSummary.LimitFits` | internal/logs/window.go:116-150 | the per-bucket limits summed over a ring stay below 2^53 |
| `LogSummary.LossesFit` | internal/logs/window.go:138-151 | drop counts of a window fit because the slot of its end second never contributes |
| `LogSummary.RecomputedJudgement` | internal/logs/summary.go:33-52 | recomputing a judged summary changes at most its reason, and when |
| `LogSummary.RingAgrees` | internal/logs/summary.go:11-54 | agreement of Assess and Snapshot for any sound, placed ring |
| `LogCollector.Collector.Answer` | internal/logs/collector.go:51-55 | a ready answer to a snapshot that travelled through the queue counts exactly the non-blank current-session records framed in its window; no record of that window was dropped or is still queued |
| `LogCollector.BarrierIsExact` | internal/logs/collector.go:113-135 | the same for any state the steps can reach |
| `LogCollector.ReadySummaryIsExact` | internal/logs/collector.go:93-131 | a ready summary is exact once everything still waiting completed at or after its time |
| `LogCollector.Collector.constructor` | internal/logs/collector.go:32-48 | an empty collector satisfies the invariant |
| `LogCollector.Collector.Complete` | internal/logs/collector.go:93-109 | a completed record joins the queue exactly when bytes and slots allow, and otherwise is reported lost to the window |
| `LogCollector.Collector.Enqueue` | internal/logs/collector.go:102-104 | a queued record keeps the invariant |
| `LogCollector.Collector.Discard` | internal/logs/collector.go:97-108 | a lost record keeps the invariant: its second is covered by a gap |
| `LogCollector.Collector.RequestSnapshot` | internal/logs/collector.go:122-132 | a snapshot request enters the queue with its time, or a full queue marks a gap |
| `LogCollector.Collector.Gap` | internal/logs/collector.go:138-142 | a gap at any time keeps the invariant |
| `LogCollector.Collector.FinalSnapshot` | internal/logs/collector.go:117-121 | once the worker has finished and the queue is empty, a direct snapshot that is ready is exact |
| `LogCollector.Collector.NewSession` | internal/logs/collector.go:144-150 | reset starts a session to which nothing queued earlier belongs |
| `LogCollector.Collector.Take` | internal/logs/collector.go:51-51 | receiving an item loses nothing |
| `LogCollector.Collector.Analyze` | internal/logs/collector.go:56-80 | exactly the non-blank records of the current session enter the window and the statistics |
| `LogCollector.Collector.Count` | internal/logs/collector.go:60-80 | counting a record releases its bytes and keeps the invariant |
| `LogCollector.Collector.SetAside` | internal/logs/collector.go:60-80 | a record of an earlier session or a blank one only releases its bytes |
| `LogCollector.EnqueueKeeps` | internal/logs/collector.go:102-104 | records taken are the analyzed ones followed by the waiting ones, in order |
| `LogCollector.DiscardKeeps` | internal/logs/collector.go:97-108 | losses are counted and covered |
| `LogCollector.NewSessionKeeps` | internal/logs/collector.go:144-150 | no waiting item belongs to the new session |
| `LogCollector.CountKeeps` | internal/logs/collector.go:56-80 | moving a record from the queue into the window conserves records, bytes and statistics |
| `LogCollector.StatisticsMean` | internal/logs/collector.go:64-78 | the statistics count the analyzed records, and those of warning, of error or fatal, of no level, and the invalid ones |
| `LogCollector.SetAsideKeeps` | internal/logs/collector.go:51-81 | an item that adds nothing leaves the window exact |
| `LogPipeline.Pipeline.Answer` | internal/logs/collector.go:51-55 | end to end: a ready answer counts exactly the records the streams handed over in this session in its window, none of them lost; in line and carriage-return modes those are the lines of the bytes written to the streams, however writes were cut and streams interleaved |
| `LogPipeline.Pipeline.HandOver` | internal/logs/collector.go:93-109 | a stream hands over its records in order, each once, whatever the other streams do |
| `LogPipeline.Pipeline.Stream` | internal/logs/collector.go:86-111 | a new stream has handed over nothing |
| `LogPipeline.Pipeline.Write` | internal/logs/collector.go:86-111 | bytes written to one stream leave what all streams handed over as it was |
| `LogPipeline.Pipeline.Reset` | internal/logs/collector.go:144-150 | what streams handed over before no longer counts |
| `LogPipeline.Pipeline.HandedAreLines` | internal/logs/collector.go:93-109 | what a stream handed over in this session are consecutive lines of the bytes written to it |
| `LogPipeline.MergesNext` | internal/logs/collector.go:93-109 | the collector sees the streams merged: every count over what it framed is the count over what they handed over |
| `LogFraming.Framer.RecordsOfBytes` | internal/logs/frame.go:28-88 | in line and carriage-return modes the emitted records, oversize marks and Completed depend only on the concatenation of all bytes written, before and after Close, and equal the delimiter split of those bytes |
| `LogFraming.Framer.RecordsAreTheLines` | internal/logs/multiline.go:65-121 | in every mode, whenever timers fired: if a closed framer emitted no invalid record, splitting its records at line feeds gives back the lines of everything written, in order, none lost or repeated |
| `LogFraming.Framer.RecordsAreGrouped` | internal/logs/multiline.go:65-121 | for a closed framer on which no timer fired, the emitted records are exactly those of the maximal grouping of the lines written: every valid continuation line directly after a line of an open record is in that record, and a record ends only before a line that starts one or does not continue it, or at Close |
| `LogFraming.MaximalIsGrouped` | internal/logs/multiline.go:65-121 | that grouping is the only one whose groups are single lines or a start line with continuations, none of which could have taken the first line of the next |
| `LogFraming.SplitText` | internal/logs/multiline.go:94-105 | splitting a joined record at line feeds gives back its lines |
| `LogFraming.LinesOfJoined` | internal/logs/frame.go:28-64 | splitting undoes joining: the lines of segments joined by line ends are exactly those segments, one over 64 KiB being one invalid empty line, and the rest is the tail |
| `LogFraming.Framer.Write` | internal/logs/frame.go:28-64 | a write of any size keeps the lines, groups and records those of the bytes written so far; after Close it is refused and changes nothing |
| `LogFraming.Framer.Consume` | internal/logs/frame.go:35-62 | one round of the write loop handles the bytes up to the first line end |
| `LogFraming.Framer.FindEnd` | internal/logs/frame.go:36-41 | the end found is the first line feed or, in carriage-return mode, carriage return |
| `LogFraming.Framer.Buffer` | internal/logs/frame.go:46-53 | the buffer is the unfinished line, or empty and marked when that exceeds 64 KiB |
| `LogFraming.Framer.Extend` | internal/logs/frame.go:54-57 | bytes without a line end extend the unfinished line |
| `LogFraming.Framer.Finish` | internal/logs/frame.go:58-61 | a line end completes exactly one line |
| `LogFraming.Framer.Close` | internal/logs/frame.go:75-88 | Close emits the unfinished line, then the open record; a second Close does nothing |
| `LogFraming.Framer.Discard` | internal/logs/frame.go:92-102 | after Discard the records already emitted stay as they were and nothing follows |
| `LogFraming.Framer.CompleteIsRead` | internal/logs/frame.go:66-72 | in every mode the completed offset is at most the number of bytes read |
| `LogFraming.OffsetsInOrder` | internal/logs/frame.go:66-72 | offsets completed by successive records never decrease and never exceed what was read |
| `LogFraming.Framer.EndLine` | internal/logs/multiline.go:65-108 | every line joins the open record, opens one, or is a record of its own; the lines of the emitted records and the open one concatenate to the input lines, none lost or repeated; and no record ends early here: only a timer cuts one short |
| `LogFraming.Framer.Open` | internal/logs/multiline.go:79-92 | a start line opens a record with a timer of its own epoch |
| `LogFraming.Framer.Join` | internal/logs/multiline.go:94-105 | a continuation line joins the open record, which becomes invalid exactly over the line or byte limit or with an oversized line |
| `LogFraming.Framer.EmitSingle` | internal/logs/multiline.go:106-107 | any other line is a record of its own |
| `LogFraming.Framer.Flush` | internal/logs/multiline.go:110-121 | flushing emits exactly the open record, once |
| `LogFraming.Framer.TimerFires` | internal/logs/multiline.go:85-91 | a timer ends the very record it was armed for, or does nothing |
| `LogFraming.FlushKeeps` | internal/logs/multiline.go:110-121 | a flushed group is emitted with its joined text, valid exactly within the limits |
| `LogFraming.GrownOk` | internal/logs/multiline.go:71-105 | the assembly after a joined line is that of the longer group |
| `LogFraming.SingleKeeps` | internal/logs/multiline.go:65-78 | a single-line record extends the grouping by one group |
| `LogFraming.OpenKeeps` | internal/logs/multiline.go:79-92 | a new record leaves every earlier timer without effect |
| `LogFraming.JoinKeeps` | internal/logs/multiline.go:94-105 | a joined line extends the open group |
| `LogFraming.LineEnds` | internal/logs/frame.go:43-61 | a line end after bytes without one adds exactly one line |
| `Ownership.CommitsFallInTheirEra` | internal/database/ownership.go:45-141 | in every run with session deaths, pid reuse and replacement owners, every commit of a write-fenced transaction falls after its owner's publish and before any later publish |
| `Ownership.CommitsFormBlocks` | internal/database/quarantine.go:20-40 | between two commits of one nonce lies no commit of another and no publish |
| `Ownership.LostOwnerIsDone` | internal/database/ownership.go:92-141 | in every extension of a run, an owner found lost commits no transaction that was not past both its fences by then |
| `Ownership.RefusedNeverCommits` | internal/database/ownership.go:117-141 | in every extension of a run, a transaction that a fence refused does not commit; it can only be rolled back |
| `Ownership.FenceRefuses` | internal/database/ownership.go:117-141 | a fence passes if and only if the owner is not lost, the row carries its process ID and nonce, and a session with that process ID holds the lock |
| `Ownership.FenceMeaning` | internal/database/ownership.go:117-141 | a passing fence means the owner's session holds the lock if and only if that session lives; otherwise the holder reuses its process ID and has not published |
| `Ownership.ReusedPidPassesTheFence` | internal/database/ownership.go:124-139 | the second case happens: a run in which a dead owner commits, in its era, while a successor with the same process ID holds the lock |
| `Ownership.RunIsSafe` | internal/database/ownership.go:45-155 | the inductive invariant of the protocol holds after every run |
| `Ownership.StepKeepsInv` | internal/database/ownership.go:45-155 | every step keeps it: a transaction past a fence holds the share lock in its own era |
| `Ownership.StepKeepsLog` | internal/database/ownership.go:71-82 | every step keeps each commit in its era and each nonce published once |
| `TokenBucket.AdmitsAtMost` | internal/cloud/push_config.go:128-137 | a bucket admits, in any stretch of its requests, at most burst + rate * duration |
| `TokenBucket.NoTokenIsMade` | internal/cloud/push_config.go:128-137 | what was admitted plus what is left never exceeds what was there plus rate * duration |
| `TokenBucket.WaitingPays` | internal/cloud/push_config.go:128-137 | n tokens up to the burst are there n / rate after the last request: the bucket fills no slower than its rate |
| `TokenBucket.LevelMeans` | internal/cloud/push_config.go:128-137 | the level is what was left plus rate times the time since, up to the burst |
| `TokenBucket.NewIsFull` | internal/cloud/push_config.go:117-126 | a new bucket admits exactly up to its burst |
| `TokenBucket.FullIsFresh` | internal/cloud/push_config.go:111-115 | a full bucket cannot be told from a new one from then on |
| `TokenBucket.SameSpends` | internal/cloud/push_config.go:128-137 | buckets that cannot be told apart answer alike and stay so |
| `Admission.TrackSpend` | internal/cloud/passwords.go:31-52 | a charge to a remembered limiter is answered as by one that was never forgotten |
| `Admission.TrackEvict` | internal/cloud/passwords.go:31-52 | forgetting a full limiter loses nothing |
| `Admission.TrackNew` | internal/cloud/passwords.go:31-52 | a limiter made anew for an absent key continues its history |
| `Admission.PasswordLimits.Attempt` | internal/cloud/passwords.go:31-52 | an attempt is refused for room only when 1024 other keys still owe tokens, and is otherwise answered as by a registry that never forgets; the registry never exceeds 1024 keys |
| `Admission.PasswordLimits.Evict` | internal/cloud/passwords.go:36-44 | eviction removes exactly the full limiters |
| `Admission.PasswordLimits.Charge` | internal/cloud/passwords.go:45-52 | an attempt is charged and logged with its answer |
| `Admission.PasswordLimits.AttemptsAreBounded` | internal/cloud/passwords.go:31-52 | however keys come and go, one key gets at most 5 + 0.2 * T attempts in any stretch of T seconds |
| `Admission.PasswordLimits.AttemptComesBack` | internal/cloud/passwords.go:31-52 | five seconds after the last attempt every key affords another |
| `PushAdmission.Server.constructor` | internal/cloud/push_config.go:90-94 | an empty registry satisfies the invariant |
| `PushAdmission.Server.AdmitPush` | internal/cloud/push_config.go:98-157 | a push is refused for room only when a key of it is new and the full registry has no idle entry; any other is granted exactly when a registry that never forgets affords it for workspace and producer, the unreleased grants of the workspace are below its limit and a slot is free, and both entries are charged either way |
| `PushAdmission.Server.AdmitHook` | internal/cloud/push_config.go:161-184 | a webhook body is refused for room only when its key is new and the registry full; any other is granted exactly when its request is affordable, no body of the workspace is unreleased and a hook slot is free |
| `PushAdmission.Server.Release` | internal/cloud/push_config.go:148-156 | a release finds its entries still registered, and slot and active counts fall by exactly this grant's |
| `PushAdmission.Server.Take` | internal/cloud/push_config.go:139-147 | a grant raises slot and active counts by exactly its own, within every limit |
| `PushAdmission.Server.Evict` | internal/cloud/push_config.go:110-115 | eviction removes exactly the idle, full, inactive entries |
| `PushAdmission.Server.Ensure` | internal/cloud/push_config.go:107-126 | an entry is found or made within the cap, or the registry is full |
| `PushAdmission.Server.Charge` | internal/cloud/push_config.go:128-137 | requests and bytes are charged even when refused, and the answer is that of a registry that never forgets |
| `PushAdmission.Server.RequestsAreBounded` | internal/cloud/push_config.go:96-97 | churning keys cannot exceed, in any stretch T, workspaceBurst + workspaceRate * T requests of a workspace, producerBurst + producerRate * T of a producer, 40 + 20 * T webhook bodies |
| `PushAdmission.Server.BytesAreBounded` | internal/cloud/push_config.go:96-97 | churning keys cannot exceed in any stretch T byteBurst + bytesPerSecond * T bytes of a workspace or a producer, 2 MiB + T MiB of webhook bodies |
| `PushAdmission.Server.RequestComesBack` | internal/cloud/push_config.go:128-137 | 1 / rate seconds after the last request every key affords another |
| `PushAdmission.Server.CountsAreGrants` | internal/cloud/push_config.go:139-156 | slot and active counts are, at all times, the numbers of unreleased grants of the host, workspace, producer and webhook, within their limits |
| `PushAdmission.GrantKeeps` | internal/cloud/push_config.go:139-147 | slot occupancy and active counts equal unreleased grants after a grant |
| `PushAdmission.ReleaseKeeps` | internal/cloud/push_config.go:148-156 | and after a release |
| `PushAdmission.EvictKeeps` | internal/cloud/push_config.go:110-115 | no entry with outstanding work or debt is forgotten |
| `PushAdmission.ChargeKeeps` | internal/cloud/push_config.go:128-137 | a charge keeps every entry in step with its history |
| `PushAdmission.HeldIsPresent` | internal/cloud/push_config.go:139-156 | an entry with an unreleased grant is in the registry and active |
| `PushLedger.GroupedLedger.AckMeansDurable` | internal/cloud/push_ledger.go:21-80 | a nil acknowledgement means the caller's entry and all before it were written in order and synced, and no earlier request failed |
| `PushLedger.GroupedLedger.Serve` | internal/cloud/push_ledger.go:47-69 | every request of a group gets one acknowledgement, the same for all, and none succeeds after a failure |
| `PushLedger.GroupedLedger.ServeAll` | internal/cloud/push_ledger.go:27-73 | however requests fall into groups, each is acknowledged exactly once, in order |
| `PushLedger.GroupedLedger.Store` | internal/cloud/push_ledger.go:47-66 | success means the group is in the file and synced; failure is sticky and stops writing |
| `PushLedger.GroupedLedger.EncodeGroup` | internal/cloud/push_ledger.go:48-55 | the group encodes to the concatenation of its entries, or fails |
| `PushLedger.PlannedJournal.Record` | internal/cloud/push_journal.go:40-45 | recording queues the entry and reports a failure so far |
| `PushLedger.PlannedJournal.Work` | internal/cloud/push_journal.go:22-38 | file and buffer hold the entries handled so far, and with an empty queue everything is flushed and synced, or the failure is sticky |
| `PushLedger.PlannedJournal.Drain` | internal/cloud/push_journal.go:45-49 | a nil drain means every recorded entry was written in order and synced |
| `Handoff.NeverOnTwoInstances` | internal/watchrun/handoff_activate.go:14-172 | through any number of transfers there and back, with connections that come to reach other instances, calls and replies lost, late or repeated, actions stopped and retried, and users resuming, pausing, deleting and purging whatever nothing holds, the watch never runs on two instances, and no transfer has an active target and a released source |
| `HandoffOrder.SendsFollowReplies` | internal/mcpbridge/transfer_actions.go:67-127 | in every run, whatever the connections come to reach, a call goes only to the pinned peer it is meant for; activate goes out after, in the same action, the target was read as prepared, its test accepted, and the source answered a pause with the receipt activate carries; release after, in the same action, the target answered a cancel with the receipt release carries and the source was found; each reply is the one to that very call |
| `HandoffOrder.CallsNeedKeys` | internal/mcpbridge/transfer_actions.go:107-117 | in every run only a transfer with a saved test key is paused or activated |
| `Handoff.BeginKeepsTraffic` | internal/mcpbridge/transfer_store.go:92-106 | an action begins only when both connections reach the pinned peers, so the instances it talks to are those peers |
| `Handoff.PinsAreForGood` | internal/mcpbridge/transfer_store.go:33-53 | in every extension of a run a saved transfer is the same, and every record keeps its role and peer |
| `Handoff.RunKeepsPeers` | internal/mcpbridge/transfer_store.go:92-106 | over every run the right to run is with one instance or in flight in one transfer, only its holder has a watch that nothing holds, records exist only at pinned peers, and every call and receipt on its way is addressed to and from them |
| `Handoff.ReceiptsWereRecords` | internal/watchrun/handoff.go:64-84 | every receipt tells the truth about a moment: the record it names, phase included, was that instance's record at some point of the run |
| `Handoff.ExecuteAnswers` | internal/watchrun/handoff_activate.go:14-172 | whatever call an instance executes, however late, its reply names its own record as it stands, in the role asked for, and no record ever changes role or peer or leaves Canceled |
| `Handoff.PrepareKeeps` | internal/watchrun/handoff.go:111-143 | preparing a target, fresh or by taking over the hold of the transfer it returns, keeps one right to run |
| `Handoff.PauseKeeps` | internal/watchrun/handoff.go:182-218 | pausing the source puts the right to run in flight, once |
| `Handoff.ActivateKeeps` | internal/watchrun/handoff_activate.go:14-73 | activation on a true pause receipt hands the right to the target, once |
| `Handoff.CancelKeeps` | internal/watchrun/handoff_activate.go:77-142 | canceling a prepared target deletes its watch, or gives the hold back to the transfer it returns |
| `Handoff.ReleaseKeeps` | internal/watchrun/handoff_activate.go:146-172 | release on a true cancel receipt hands the right back to the source |
| `HandoffOrder.RunKeepsLog` | internal/mcpbridge/transfer_actions.go:62-127 | at every point the calls and replies since the action began are exactly those that lead to the next call |
| `HandoffProgress.FinishMovesTheWatch` | internal/mcpbridge/transfer_actions.go:95-127 | after any run, an undisturbed finish of a prepared transfer with a saved test key, whose source is running or has paused for it in an earlier attempt, leaves the watch running on the target |
| `HandoffProgress.CancelReleasesTheSource` | internal/mcpbridge/transfer_actions.go:67-84 | after any run, an undisturbed cancel of a prepared transfer whose source has paused for it leaves the target canceled and the source released, and the user can resume it |
| `HandoffProgress.PrepareHoldsTheTarget` | internal/mcpbridge/transfer_prepare.go:118-124 | after any run, an undisturbed preparation on a target without the watch leaves it there, held by this transfer and stopped |
| `HandoffProgress.TestSavesItsKey` | internal/mcpbridge/transfer_actions.go:45-57 | a test saves its key before the call goes out |
| `OperationJournal.Journal.Bind` | internal/mcpbridge/journal.go:26-65 | an operation key keeps its target and request once bound; an invalid key is reported exactly outside 1 to 256 characters, a conflict exactly when target or request differ, a full journal exactly over its limit |
| `LogWindow.NewWindow` | internal/logs/window.go:58-63 | a window is made exactly for the configurations within the limits, and starts as the empty ring |
| `LogFraming.NewConfiguredFramer` | internal/logs/multiline.go:28-63 | a framer is made exactly for the configurations within the limits, with their defaults |
| `LogFraming.Framer.constructor` | internal/logs/multiline.go:28-63 | a new framer has read and emitted nothing and satisfies the invariant |

## Left out

- Evaluator.Aggregate: floating-point rounding and the numeric_overflow outcome are not modelled; values are reals.
- Evaluation.Evaluate: grouping, message templates and the copying of fields through JSON happen outside; an observation carries its group key, if it has one, and the event kinds whose template fails on it. Event and revision hashes are the identities they are computed from.
- Evaluation.New: durations are already parsed, copying the definition through JSON is not modelled, and whether the message template parses is an input.
- Expression.ParseExpression: recognising a single condition is a regular expression in the program and an arbitrary function here; error texts are not modelled.
- Dedup.DedupIsExact: lengths of event IDs are counted in characters, and invalid UTF-8 cannot occur.
- LogSummary.Assess: counts are unbounded integers, so sums cannot wrap around, and a ratio of nothing to nothing is left out instead of being NaN.
- LogWindow.Window.AddFrom: locking is not modelled; each method is one atomic step.
- LogCollector.Collector.Answer: the clock does not run backwards between steps under the collector's lock, and the epoch counter does not wrap around; classification is an arbitrary function.
- LogCollector.Collector.RequestSnapshot: the direct snapshots taken when the queue is full or an answer takes over 100 ms are not claimed exact; only the gap they report is modelled.
- LogFraming.Framer.TimerFires: timers fire at arbitrary moments after being armed; their durations and Stop are not modelled. Patterns are arbitrary predicates on lines.
- Ownership.CommitsFallInTheirEra: the protocol is a state machine on values rather than objects; a step is one SQL statement, nonces are fresh, and read-only fences, migrations and errors that only end a transaction are left out.
- Admission.PasswordLimits.Attempt: a limiter's level is read at the time of the attempt rather than by a second clock reading, and time does not run backwards between attempts.
- PushAdmission.Server.AdmitPush: registry keys are structured values, so workspace and producer names containing a colon cannot collide; defaults and validation of the configuration are left out.
- PushLedger.GroupedLedger.ServeAll: how long the ledger waits for a group to fill is left open; any grouping up to the batch size is covered.
- Handoff.NeverOnTwoInstances: a state machine on values for one watch; revisions, generations, destinations and authorization are left out, so an instance here refuses less than in the program, and a watch applied by hand on another instance is not covered. A purged instance keeps its records in the model, but nothing reads them again.
- OperationJournal.Journal.Bind: file locking and unreadable files are left out; keys and request digests are compared as values instead of by hash.
- HTTP handlers, routing, sessions, single sign-on, command-line tools, process execution, file tailing, notification delivery, backups and benchmarks are plumbing or operating-system I/O.
- Routing of observations to entities, the store, plans and access tables would add easier members only.
