# Hyke scheduled system: a verified model of the dispatch engine

This project models the ledger-driven scheduler of the Hyke System (`task.py`).
Every workflow step is a `StatusEngine` row. A row has an email, a process name,
a formation type, a stage (`process_state`), an integer outcome, a data payload,
a creation time and an optional execution time. A `ProgressStatus` record per
email holds free-form status strings. One poll (`scheduled_system`) takes the
rows that are Scheduled (outcome -1) and whose formation type starts with
"Hyke Daily", and hands each one to the handler its process name selects in
`process_mapping`. Each of the thirteen handlers is a guarded transition on the
row's stage and outcome. A handler may do any of these:

- complete its own row;
- change the email's progress record;
- append rows with `create` or `get_or_create`;
- call external jobs: emails, surveys, Dropbox folders, NPS calculators, the next annual-report reminder.

Layout, one module per file:

- `Wrappers`: `Option`.
- `Constants`: the process names and formation tags of `constants.py`. The thirteen names form the `Process` enum, and any other name is `Other(name)`.
- `Models`: the `Entry` row and the `Progress` record. It also holds the ORM filters the engine issues (`Query`, `Filter`), the pure meaning of `get_or_create` (`AfterGetOrCreate`) and of completing a row (`Complete`).
- `Text`: Python's `str.split(sep)` and `str.strip()`.
- `Reports`: parsing of the annual-report payload `"Y --- N[ --- S]"` and the reminder payloads it matches.
- `Collaborators`: the external calls, as trace events. A call raises exactly when it is in a failure set `fails`, which every operation takes as a parameter.
- `Calendar`: proleptic Gregorian day numbers, used only to date the annual reminders.
- `Engine`: the `Ledger` class. Its fields `rows`, `progress` and `effects` (the trace of calls made) are updated in place by the handlers, `Dispatch` (the table) and `Poll` (the loop).

Row identity is the position in `rows`. A poll works on a snapshot: the rows
it visits are fixed when it starts, and each handler receives the row as it was
then. A handler that saves its row writes that copy back, as `item.save()` does.
A raise anywhere (a collaborator, a missing progress record, a `get_or_create`
lookup that finds two rows, a payload with fewer than two pieces) ends the poll.
Earlier changes stay, as the source has no transaction.

Some of the source's behaviour is kept as written:

- The payment-error, NPS, onboarding-survey, kickoff, transition-plan and BK-scheduled handlers never complete their own row. They therefore fire again on every poll in which that row is due.
- A stage-2 running-flow row files its reminders again on every such poll.
- A stage-3 bank-connect row completes after its first reminder. It therefore sends at most one reminder.

## Model

| member | source | states |
|---|---|---|
| Constants.ProcessOf | task.py:440-454 | the dispatch key of a name: it names the process back, and it is `Other` exactly for names outside the thirteen keys |
| Constants.ProcessOfNameOf | constants.py:2-14 | each of the thirteen process names selects its own handler |
| Models.Filter | task.py:465 | a query returns the ids of exactly the rows that satisfy it, in ledger order, each once |
| Models.DueMeans | task.py:465 | the poll selects exactly the Scheduled rows whose formation type begins with the characters of "Hyke Daily" |
| Models.FilterAppend | task.py:192-201 | appending a row keeps an earlier query answer and adds the new id only when the row qualifies |
| Models.FilterExtend | task.py:465-475 | rows appended after a query never appear in its earlier answer; new ids are all beyond the old ledger |
| Models.GetOrCreateFindsInserted | task.py:149-165 | after `get_or_create` inserts a row, the same lookup finds exactly that row |
| Models.Complete | task.py:229-231 | completing a row sets outcome 1 and the execution time, and changes no other field |
| Models.CompletedLeavesQueue | task.py:219-231 | a completed row is never selected again: neither as an open reminder nor by the poll's filter |
| Models.NewEntryMatches | task.py:96-101 | a new row is Scheduled and created now, and the row built from a lookup and agreeing defaults is found by that lookup |
| Models.AfterGetOrCreate | task.py:149-165 | `get_or_create` appends at most one row, and exactly when the lookup found none; from at most one match it leaves exactly one |
| Models.GetOrCreateIdempotent | task.py:149-165 | repeating a `get_or_create` that did not raise adds nothing |
| Models.GetOrCreateOther | task.py:149-165 | a row inserted for one lookup does not change what an unrelated query selects |
| Text.TrimLeft | task.py:211-213 | the result is a suffix of the input that does not start with white space |
| Text.TrimRight | task.py:211-213 | the result is a prefix of the input that does not end with white space |
| Text.Strip | task.py:211-213 | `strip()` leaves no white space at either end |
| Text.StripPadded | task.py:211-213 | stripping white space padding off a string without outer white space returns that string |
| Text.TrimLeftSpaces | task.py:211-213 | stripping from the left removes exactly a white-space prefix |
| Text.TrimRightSpaces | task.py:211-213 | stripping from the right removes exactly a white-space suffix |
| Text.FindFrom | task.py:210 | a reported position holds an occurrence of the separator at or after the start |
| Text.FindFromLeftmost | task.py:210 | no occurrence lies before the reported position; when nothing is reported there is none at all |
| Text.PrefixBeforeFirst | task.py:210 | the text before the first separator contains no separator |
| Text.Split | task.py:210 | `split` yields between one piece and one more than the input length |
| Text.SplitStep | task.py:210 | `split` cuts at the leftmost separator and continues on the rest |
| Text.SplitSingle | task.py:210 | there is a single piece exactly when the separator does not occur, and that piece is the input |
| Text.SplitPiecesFree | task.py:210 | no piece of a split contains the separator |
| Text.JoinSplit | task.py:210 | joining the pieces with the separator gives back the input |
| Text.SplitAtFirst | task.py:210 | when the separator first occurs after `x`, the first piece is `x` |
| Reports.ParseReport | task.py:210-213 | no report exactly when the payload has no separator (the source's IndexError); year and name have no outer white space; a state is present exactly when there are three pieces |
| Reports.ReminderKeysCases | task.py:215-217 | an upload always closes the reminder without a state, and also the one with the state exactly when the state is present and not empty |
| Reports.SplitPair | task.py:215 | a payload `"a --- b"` with separator-free parts splits into `"a "` and `" b"` |
| Reports.SplitReminderKey | task.py:215 | the reminder payload of a report without a state splits into two pieces |
| Reports.SplitNameState | task.py:217 | the tail `" N --- S"` of a reminder payload splits into two pieces |
| Reports.SplitReminderKeyWithState | task.py:217 | the reminder payload of a report with a state splits into three pieces |
| Reports.StripSpaced | task.py:211-213 | stripping removes the single spaces the payload format puts around a separator |
| Reports.ParseReminderKey | task.py:210-215 | parsing the payload `"Y --- N"` gives back year Y and name N, with no state |
| Reports.ParseReminderKeyWithState | task.py:210-217 | parsing the payload `"Y --- N --- S"` gives back Y, N and state S |
| Reports.UploadMatchesOwnPayload | task.py:215-222 | an upload whose payload has the reminder format closes the reminders that carry that same payload |
| Reports.ParseExample | task.py:210-213 | `"2023 --- StateFiling"` parses to year 2023, name StateFiling, no state |
| Collaborators.Performed | task.py:167-170 | straight-line calls run in order up to and including the first that raises, and no further |
| Collaborators.FirstRaised | task.py:167-170 | the raised call is the last call made, and there is none exactly when no call fails |
| Collaborators.FirstRaisedSingle | task.py:134-135 | a single call is made once, and it raises exactly when it fails |
| Calendar.NextDate | task.py:187-190 | the day after a valid date is a valid date |
| Calendar.EpochIsDayZero | task.py:188-190 | 1970-01-01 is day 0, and day 0 lies in 1970 |
| Calendar.MarchYearLength | task.py:187-190 | a year counted from March has 366 days exactly when the February it contains is a leap February |
| Calendar.EndOfFebruary | task.py:187-190 | the last day of February, in both leap and common years, is followed directly by March 1 |
| Calendar.EndOfMonth | task.py:187-190 | every other month end is followed directly by the next month's first day |
| Calendar.NextDateIsNextDay | task.py:187-190 | consecutive dates have consecutive day numbers, so the day number counts days since the epoch |
| Calendar.TimeOnDay | task.py:188-190 | the time hh:mm:ss on a date lies on that date's day number, hh:mm:ss into the day |
| Calendar.MonthOfDay | task.py:188-190 | the month step of the current-year formula recovers the month of every day of a March-based year |
| Calendar.EraYearOfDay | task.py:188-190 | the year step of the current-year formula recovers the year of the 400-year era for every day of that year, leap days included |
| Calendar.YearOfDayOfCivil | task.py:187-190 | the day number of any valid date lies in that date's year: the current-year formula inverts the day count |
| Calendar.YearOfTimeOn | task.py:187-190 | a time of day on a valid date lies in that date's year |
| Engine.RunStatus | task.py:129-170 | a straight-line run of calls ends Done exactly when no call in it fails; otherwise the failure names a failing call of the run |
| Engine.AppendOnlyEvolves | task.py:264-381 | a handler that only appends rows changes no earlier row |
| Engine.PollStep | task.py:472-475 | each hand-over in the poll keeps the poll's changes within completing open reminders and completing visited rows that save themselves |
| Engine.UnknownUnchanged | task.py:473-475 | after a poll, a row without a handler that is not an open annual-report reminder is unchanged |
| Engine.RunningFlowRows | task.py:149-165 | the stage-1 running flow only appends, and at most two rows |
| Engine.RunningFlowIdempotent | task.py:149-165 | after stage 1 the email has exactly one Scheduled "What's upcoming" email and exactly one stage-2 running-flow row, and repeating stage 1 adds neither |
| Engine.BankReminderCooldown | task.py:413-423 | a stage-3 reminder counts from creation when the row was never executed and from its last execution otherwise; one day later it is not due, three days later it is |
| Engine.ReminderEntryDated | task.py:187-200 | a reminder is a Scheduled stage-1 "Reminder" row of the daily queue with the template's title, due at 23:59:59 on the template's month and day of the current year |
| Engine.SetUpCallsOrder | task.py:167-170 | the onboarding-survey sequence is always scheduled first; the Dropbox folders are created only when neither survey sequence raised; the run is Done exactly when none of the three raised |
| Engine.CallsStep | task.py:167-170 | on the whole state, a run of calls keeps every existing row, the set of progress records and the calls made so far; it only appends rows and calls |
| Engine.GetOrCreateStep | task.py:149-165 | on the whole state, `get_or_create` keeps every existing row, the set of progress records and the calls made so far; it only appends rows and calls |
| Engine.MarkQuestionnaireStep | task.py:278-308 | on the whole state, the handler keeps every existing row, the set of progress records and the calls made so far; it only appends rows and calls |
| Engine.CloseEvolves | task.py:219-231 | completing the selected reminders and then the uploaded row stays within what a saving handler may do |
| Engine.ClientOnboardingSurveyStep | task.py:117-126 | on the whole state, the handler keeps every existing row, the set of progress records and the calls made so far; it only appends rows and calls |
| Engine.PaymentErrorEmailStep | task.py:129-136 | on the whole state, the handler keeps every existing row, the set of progress records and the calls made so far; it only appends rows and calls |
| Engine.RunningFlowStageOneStep | task.py:143-172 | on the whole state, the handler keeps every existing row, the set of progress records and the calls made so far; it only appends rows and calls |
| Engine.RunningFlowStep | task.py:139-201 | on the whole state, the handler keeps every existing row, the set of progress records and the calls made so far; it only appends rows and calls |
| Engine.AnnualReportUploadedStep | task.py:204-233 | the upload on the whole state keeps within `RowsEvolve` for its own row, and a Scheduled upload that does not raise ends completed |
| Engine.CompleteUploadStep | task.py:215-233 | a parsed upload keeps within `RowsEvolve` and always leaves its row completed |
| Engine.CalculateNpsStep | task.py:236-251 | on the whole state, the handler keeps every existing row, the set of progress records and the calls made so far; it only appends rows and calls |
| Engine.KickoffQuestionnaireCompletedStep | task.py:254-271 | on the whole state, the handler keeps every existing row, the set of progress records and the calls made so far; it only appends rows and calls |
| Engine.KickoffCallScheduledStep | task.py:274-290 | on the whole state, the handler keeps every existing row, the set of progress records and the calls made so far; it only appends rows and calls |
| Engine.KickoffCallCancelledStep | task.py:293-308 | on the whole state, the handler keeps every existing row, the set of progress records and the calls made so far; it only appends rows and calls |
| Engine.TransitionPlanSubmittedStep | task.py:311-337 | on the whole state, the handler keeps every existing row, the set of progress records and the calls made so far; it only appends rows and calls |
| Engine.BkTrainingCallScheduledStep | task.py:340-352 | on the whole state, the handler keeps every existing row, the set of progress records and the calls made so far; it only appends rows and calls |
| Engine.BkTrainingCallCancelledStep | task.py:355-386 | the handler keeps within `RowsEvolve` for its own row, and a Scheduled stage-1 row that does not raise ends completed |
| Engine.BankConnectStep | task.py:389-436 | the handler keeps within `RowsEvolve` for its own row, and a due row that does not raise ends completed |
| Engine.Step | task.py:440-454 | the table on the whole state: a process outside the table leaves the state as it was and does not raise, and no handler removes a row |
| Engine.StepEvolves | task.py:440-454 | whatever the handler, it only appends rows, completes open reminders and, when it saves itself, its own row; it keeps every progress record and only appends calls |
| Engine.StepCompletes | task.py:204-436 | an upload, a cancelled BK training call and a due bank-connect row that do not raise leave their row completed at `now` |
| Engine.StepKeepsRow | task.py:117-352 | a handler that does not save its row leaves it unchanged unless it is an open reminder |
| Engine.PollFrom | task.py:472-475 | the loop from the k-th due row: the rows visited are a prefix of the due rows that extends the first k; all of them when nothing raised, and at least one more when a handler raised; no row is removed |
| Engine.PollFromStep | task.py:472-475 | one iteration: a raise ends the loop with the rows visited so far; otherwise the loop goes on from the next row on the new state |
| Engine.ScheduledSystem | task.py:457-477 | a poll visits a prefix of the rows due when it starts, all of them when nothing raised, and at least one when something did |
| Engine.PollFromFrame | task.py:472-475 | the rest of a poll only completes open reminders and visited rows that save themselves, keeps every progress record and only appends calls |
| Engine.PollFrame | task.py:457-477 | a whole poll only completes open reminders and visited rows that save themselves, keeps every progress record and only appends calls |
| Engine.PollFromKeeps | task.py:472-475 | a row that is not Scheduled and that the rest of the poll does not visit keeps its value |
| Engine.PollFromCompletesHead | task.py:472-475 | a row its handler completed stays completed for the rest of the poll |
| Engine.PollFromCompletes | task.py:472-475 | every self-completing row the rest of the poll hands over without a raise ends the poll completed |
| Engine.PollFromRaised | task.py:473-475 | the loop stops only at a row that has a handler |
| Engine.PollOutcome | task.py:457-477 | a poll stops only at a row with a handler; when nothing raised, every due upload, cancelled BK training call and due bank-connect row is completed at `now`; otherwise every such row visited before the raise is |
| Engine.Ledger.constructor | task.py:72-101 | a ledger starts with the given rows and progress records and no calls made |
| Engine.Ledger.Append | task.py:192-201 | `create` and `save` of a new row append it and change nothing else |
| Engine.Ledger.Save | task.py:229-231 | `item.save()` overwrites the row under its id |
| Engine.Ledger.Invoke | task.py:134-135 | a collaborator call is recorded once and succeeds exactly when it is not in `fails` |
| Engine.Ledger.GetOrCreate | task.py:149-165 | no match: inserts and reports Created; one match: returns it; two or more: raises; the ledger follows `AfterGetOrCreate`, as `GetOrCreateStep` says |
| Engine.Ledger.HandleClientOnboardingSurvey | task.py:117-126 | a Scheduled stage-1 row sends exactly one survey; a failure is swallowed; no row or progress changes; otherwise nothing happens; the new state is what its step function gives |
| Engine.Ledger.HandlePaymentErrorEmail | task.py:129-136 | a Scheduled stage-1 row sends exactly one payment-error email and stays Scheduled; a failure raises; otherwise nothing happens; the new state is what its step function gives |
| Engine.Ledger.HandleRunningFlow | task.py:139-201 | stage 1 and stage 2 as below; any other stage or outcome changes nothing; the new state is what its step function gives |
| Engine.Ledger.RunningFlowStageOne | task.py:143-172 | a missing progress record raises with nothing changed; otherwise bookkeeping becomes "completed" and tax "completed2"; each `get_or_create` that finds two rows raises; the set-up calls run in order until one raises; the new state is what its step function gives |
| Engine.Ledger.FileReminders | task.py:184-201 | appends exactly one Scheduled stage-1 "Reminder" row per template, in order, with the template's title, due at 23:59:59 on its date this year |
| Engine.Ledger.RunSetUpCalls | task.py:167-170 | the three set-up jobs run in order; the first failure stops the rest and is reported; the new state is what its step function gives |
| Engine.Ledger.HandleAnnualReportUploaded | task.py:204-233 | a Scheduled row with an unparsable payload raises with nothing changed; a Scheduled row otherwise completes every open reminder of its email whose data matches the report, completes itself, and asks exactly once for the next reminder; other rows change nothing; the new state is what its step function gives |
| Engine.Ledger.CompleteUpload | task.py:215-233 | the matching reminders and the row are completed, every other row is unchanged, and exactly one next-reminder call `(email, name, state)` is made; the new state is what its step function gives |
| Engine.Ledger.CloseAndComplete | task.py:219-231 | completes exactly the rows the reminder filter selects, then completes the uploaded row |
| Engine.Ledger.CloseReminders | task.py:219-226 | the reminder-closing loop completes exactly the selected rows and no other |
| Engine.Ledger.HandleCalculateNpsRunning | task.py:236-242 | a Scheduled row triggers exactly one running NPS calculation and stays Scheduled; otherwise nothing happens; the new state is what its step function gives |
| Engine.Ledger.HandleCalculateNpsOnboarding | task.py:245-251 | a Scheduled row triggers exactly one onboarding NPS calculation and stays Scheduled; otherwise nothing happens; the new state is what its step function gives |
| Engine.Ledger.HandleKickoffQuestionnaireCompleted | task.py:254-271 | with a progress record: questionnaire "scheduled" and one Salesforce row carrying the payload; without one, or outside the guard, nothing changes; the new state is what its step function gives |
| Engine.Ledger.MarkQuestionnaire | task.py:278-308 | a missing progress record raises with nothing changed; otherwise the questionnaire status is set and one Salesforce row is filed; the new state is what its step function gives |
| Engine.Ledger.HandleKickoffCallScheduled | task.py:274-290 | questionnaire "scheduled" and one Salesforce row carrying the payload; a missing progress record raises; the new state is what its step function gives |
| Engine.Ledger.HandleKickoffCallCancelled | task.py:293-308 | questionnaire "reschedule" and one Salesforce row with the default payload; a missing progress record raises; the new state is what its step function gives |
| Engine.Ledger.HandleTransitionPlanSubmitted | task.py:311-337 | questionnaire "submitted", one Salesforce row, and at most one Scheduled welcome email due in one day; a missing record or two matching emails raise; the new state is what its step function gives |
| Engine.Ledger.HandleBkTrainingCallScheduled | task.py:340-352 | a Scheduled stage-1 row files exactly one Salesforce row carrying the payload; the new state is what its step function gives |
| Engine.Ledger.HandleBkTrainingCallCancelled | task.py:355-386 | bookkeeping "reschedule", a daily-queue follow-up due in two days, a Salesforce row, and the row completed; a missing progress record raises; the new state is what its step function gives |
| Engine.Ledger.HandleBankConnect | task.py:389-436 | when due (stages 1 and 2 always, stage 3 after the cooldown) exactly one stage-specific email is sent and then the row completes; a failed send leaves the row Scheduled; inside the cooldown nothing happens; the new state is what its step function gives |
| Engine.Ledger.Dispatch | task.py:440-454 | the new state and status are exactly what `Step` gives for the row's process: its own handler, or nothing and no raise for a process outside the table; any handler only appends rows, completes open reminders and completes its own row when it saves itself |
| Engine.Ledger.Poll | task.py:457-477 | the new state, status and visited rows are exactly `ScheduledSystem` of the state before: the rows due at the start are handed one by one, as they were at the start, to their handlers until the first raise; it only completes open reminders and visited rows that save themselves, never removes a progress record and only adds calls |

## Left out

- The ORM itself: managers, querysets, `Meta` and `__str__`. The ledger is an in-memory sequence indexed by row id. `db.close_old_connections()` (task.py:470) is not modelled.
- `print` and `logger` output (for example task.py:125, 136, 172). The `has_run_before` query (task.py:174-183) is left out because it only decides what is printed.
- The internals of the collaborators (task.py:28-34): each call is a trace event, and whether it raises comes from the `fails` parameter. `EmailView.objects.filter(type="annual", legacy=True)` is the `templates` parameter of `Poll`.
- The templates' `"MM-DD"` strings and their `int(...)` conversion (task.py:187-189): a template carries its month and day as integers.
- `Engine.Ledger.Poll`: requires every template date to exist in the current year, even when no stage-2 running-flow row is due. In the source an impossible date raises only when that loop runs.
- Case-insensitive email lookup (`email__iexact`, task.py:259, 279, 298, 316, 360) is modelled as an exact lookup. Progress records are a map from email to record, so `ProgressStatus.objects.get` never finds two records.
- Clock and time zones: a poll reads the clock once, as `now` in integer seconds. One day is 86400 seconds. Python reads the clock again at every `timezone.now()`.
- task.py:421 reads the clock as `datetime.datetime.now(timezone.utc)`, but the import at task.py:18 shadows the module name. The model reads it as the current time `now`.
- The field names `formationtype` and `processstate` in the lookups (for example task.py:152-153) are taken to be the fields `formation_type` and `process_state`.
- `Calendar.YearOf`: the current year comes from the published civil-from-days formula. It is proved to give back the year of every valid date's day number (`YearOfDayOfCivil`). That every day number lies between the first days of the year it returns and of the next year is not proved.
- The retry outcomes (-2, -3, -4) and the cancellation outcomes (4, 5) are declared but no handler assigns them, so they appear only as constants.
- Concurrency and overlapping polls are not modelled. The source runs one poll at a time.
- The order of a poll: the queryset at task.py:465 has no `order_by`, and `StatusEngine.Meta` (task.py:103-105) sets no `ordering`, so the database decides the order in which due rows reach their handlers. The model hands them over in id (insertion) order. Which rows run before a raise ends the poll depends on that order.
- Failures that vary: `fails` is one fixed set for a whole poll, so a given call either always raises or never raises within it. Two onboarding-survey rows of the same email, for example, fail or succeed together. A collaborator that fails on one call and succeeds on the next is not modelled.
