/**
 * The dispatch engine: the thirteen handlers, the table that routes a row to
 * its handler by process name, and the poll that runs every due row of the
 * daily queue through it. The ledger of rows, the per-email progress records
 * and the trace of collaborator calls live in one `Ledger` object whose
 * fields the handlers update in place.
 */
module Engine {
  import opened Wrappers
  import opened Constants
  import opened Models
  import opened Collaborators
  import opened Reports
  import opened Calendar

  // Email templates and subjects the handlers use.
  const PAYMENT_ERROR_TEMPLATE := "[Action required] - Please update your payment information"
  const UPCOMING_SUBJECT := "What's upcoming with Collective?"
  const WELCOME_SUBJECT := "Welcome to the Collective community!"
  const BANK_LATER_TEMPLATE := "SP.ONB.0021 - Account is created before, bank is connected later"
  const BANK_CREATED_TEMPLATE := "SP.ONB.0010 - Account is created"
  const BANK_REMINDER_TEMPLATE := "SP.BNK.0010 - Please connect your bank (remind every 3 days)"

  // Process names of rows the handlers insert that have no handler of their own.
  const SCHEDULE_EMAIL := "Schedule Email"
  const REMINDER := "Reminder"
  const FOLLOWUP_BK_TRAINING := "Followup - BK Training"

  // Durations in seconds.
  const ONE_DAY := 86400
  const TWO_DAYS := 172800
  const BANK_REMINDER_COOLDOWN := 259200

  /** Why a handler raised; a raise ends the poll. */
  datatype Failure =
      /** A collaborator call raised. */
    | CollaboratorRaised(call: Call)
    | ProgressDoesNotExist(email: string)
      /** `get_or_create` found more than one row for its lookup. */
    | MultipleObjectsReturned(lookup: Lookup)
      /** An annual-report payload with fewer than two pieces. */
    | ReportDataIndexError(data: string)

  datatype Status = Done | Raised(failure: Failure)

  /** The answer of `get_or_create`: the row found, the row created, or a raise. */
  datatype GetOrCreateResult = Got(id: nat) | Created(id: nat) | Multiple

  /** An annual email template: its date (month and day) and its title. */
  datatype Template = Template(month: int, day: int, title: string)

  /** Every template's date exists in `year`, so dating a reminder on it cannot raise. */
  predicate ValidTemplates(templates: seq<Template>, year: int) {
    forall k :: 0 <= k < |templates| ==> ValidDate(year, templates[k].month, templates[k].day)
  }

  /** The guard most handlers test: the given stage, still Scheduled. */
  predicate ScheduledAt(item: Entry, stage: int) {
    item.processState == stage && item.outcome == SCHEDULED
  }

  /**
   * How a straight-line run of collaborator calls ends: `Done` exactly when
   * none of them raises, and otherwise a failure naming one of the calls,
   * the one that raised.
   */
  function RunStatus(calls: seq<Call>, fails: set<Call>): (st: Status)
    ensures st.Done? <==> forall k :: 0 <= k < |calls| ==> calls[k] !in fails
    ensures st.Raised? ==> st.failure.CollaboratorRaised? && st.failure.call in fails && st.failure.call in calls
  {
    match FirstRaised(calls, fails)
    case None => Done
    case Some(c) => Raised(CollaboratorRaised(c))
  }

  /** The handlers that save the row they were given. */
  predicate SavesItself(p: Process) {
    p.AnnualReportUploaded? || p.BkTrainingCallCancelled? || p.BankConnect?
  }

  /**
   * What a handler may do to the rows that existed before it ran: append
   * rows, complete open annual-report reminders, and, when it saves the row
   * it was given, complete that row.
   */
  predicate RowsEvolve(before: seq<Entry>, after: seq<Entry>, now: int, saved: Option<nat>, item: Entry) {
    && |before| <= |after|
    && forall i :: 0 <= i < |before| ==>
         || after[i] == before[i]
         || (OpenReminder(before[i]) && after[i] == Complete(before[i], now))
         || (saved == Some(i) && after[i] == Complete(item, now))
  }

  /** A handler that only appends rows keeps within `RowsEvolve`. */
  lemma AppendOnlyEvolves(before: seq<Entry>, after: seq<Entry>, now: int, saved: Option<nat>, item: Entry)
    requires before <= after
    ensures RowsEvolve(before, after, now, saved, item)
  {
    forall i | 0 <= i < |before|
      ensures after[i] == before[i]
    {
      assert after[..|before|][i] == after[i];
    }
  }

  /**
   * What a poll may have done to the rows that existed when it started:
   * complete open annual-report reminders, and complete visited rows whose
   * handler saves itself; nothing else.
   */
  predicate OnlyCompleted(before: seq<Entry>, after: seq<Entry>, now: int, visited: seq<nat>) {
    && |before| <= |after|
    && forall i :: 0 <= i < |before| ==>
         || after[i] == before[i]
         || (after[i] == Complete(before[i], now)
             && (OpenReminder(before[i]) || (i in visited && SavesItself(ProcessOf(before[i].process)))))
  }

  /** Handing one more row of the snapshot to `Dispatch` keeps the poll within `OnlyCompleted`. */
  lemma PollStep(snapshot: seq<Entry>, before: seq<Entry>, after: seq<Entry>, now: int, visited: seq<nat>, id: nat)
    requires OnlyCompleted(snapshot, before, now, visited)
    requires id < |snapshot|
    requires RowsEvolve(before, after, now, if SavesItself(ProcessOf(snapshot[id].process)) then Some(id) else None, snapshot[id])
    ensures OnlyCompleted(snapshot, after, now, visited + [id])
  {
    forall i | 0 <= i < |snapshot|
      ensures || after[i] == snapshot[i]
              || (after[i] == Complete(snapshot[i], now)
                  && (OpenReminder(snapshot[i]) || (i in visited + [id] && SavesItself(ProcessOf(snapshot[i].process)))))
    {
      if after[i] != before[i] && OpenReminder(before[i]) && after[i] == Complete(before[i], now) {
        assert before[i] == snapshot[i];
      }
    }
  }

  /** After a poll, a row with no handler that is not an open annual-report reminder is as it was. */
  lemma UnknownUnchanged(before: seq<Entry>, after: seq<Entry>, now: int, visited: seq<nat>, i: nat)
    requires OnlyCompleted(before, after, now, visited)
    requires i < |before| && ProcessOf(before[i].process).Other? && !OpenReminder(before[i])
    ensures after[i] == before[i]
  {
  }

    // The rows the stage-1 running flow makes sure of.

  function ScheduleEmailLookup(email: string, subject: string): Lookup {
    Lookup(email, SCHEDULE_EMAIL, HYKE_DAILY, 1, Some(SCHEDULED), Some(subject))
  }

  /** A Scheduled "Schedule Email" row due one day from now. */
  function ScheduleEmailEntry(email: string, subject: string, now: int): Entry {
    NewEntry(email, SCHEDULE_EMAIL, HYKE_DAILY, 1, subject, now, Some(now + ONE_DAY))
  }

  /** Any stage-2 running-flow row of the email, whatever its outcome and data. */
  function RunningFlowStageTwoLookup(email: string): Lookup {
    Lookup(email, RUNNING_FLOW, HYKE_DAILY, 2, None, None)
  }

  function RunningFlowStageTwoEntry(email: string, now: int): Entry {
    NewEntry(email, RUNNING_FLOW, HYKE_DAILY, 2, DEFAULT_DATA, now, None)
  }

  /** The ledger after the two `get_or_create` calls of the stage-1 running flow. */
  function RunningFlowRows(rows: seq<Entry>, email: string, now: int): (r: seq<Entry>)
    ensures rows <= r && |r| <= |rows| + 2
  {
    var afterEmail := AfterGetOrCreate(rows, ScheduleEmailLookup(email, UPCOMING_SUBJECT),
                                       ScheduleEmailEntry(email, UPCOMING_SUBJECT, now));
    AfterGetOrCreate(afterEmail, RunningFlowStageTwoLookup(email), RunningFlowStageTwoEntry(email, now))
  }

  /**
   * The stage-1 running flow leaves the email with exactly one stage-2
   * running-flow row and exactly one Scheduled "What's upcoming" email, and
   * running it again adds neither, whenever neither lookup raised the first time.
   */
  lemma {:induction false} RunningFlowIdempotent(rows: seq<Entry>, email: string, now: int, later: int)
    requires |Filter(rows, Exact(ScheduleEmailLookup(email, UPCOMING_SUBJECT)))| <= 1
    requires |Filter(rows, Exact(RunningFlowStageTwoLookup(email)))| <= 1
    ensures |Filter(RunningFlowRows(rows, email, now), Exact(ScheduleEmailLookup(email, UPCOMING_SUBJECT)))| == 1
    ensures |Filter(RunningFlowRows(rows, email, now), Exact(RunningFlowStageTwoLookup(email)))| == 1
    ensures RunningFlowRows(RunningFlowRows(rows, email, now), email, later) == RunningFlowRows(rows, email, now)
  {
    var q1 := ScheduleEmailLookup(email, UPCOMING_SUBJECT);
    var q2 := RunningFlowStageTwoLookup(email);
    var e1 := ScheduleEmailEntry(email, UPCOMING_SUBJECT, now);
    var e2 := RunningFlowStageTwoEntry(email, now);
    var r1 := AfterGetOrCreate(rows, q1, e1);
    var r := AfterGetOrCreate(r1, q2, e2);
    GetOrCreateOther(rows, q1, e1, Exact(q2));
    GetOrCreateOther(r1, q2, e2, Exact(q1));
    assert |Filter(r, Exact(q1))| == 1;
    assert |Filter(r, Exact(q2))| == 1;
    var l1 := ScheduleEmailEntry(email, UPCOMING_SUBJECT, later);
    var l2 := RunningFlowStageTwoEntry(email, later);
    assert AfterGetOrCreate(r, q1, l1) == r;
    assert AfterGetOrCreate(r, q2, l2) == r;
  }

  /** The reminder the stage-2 running flow files for one annual template: due at 23:59:59 on its date this year. */
  function ReminderEntry(email: string, t: Template, now: int): Entry
    requires 1 <= t.month <= 12
  {
    NewEntry(email, REMINDER, HYKE_DAILY, 1, t.title, now, Some(TimeOn(YearOf(now), t.month, t.day, 23, 59, 59)))
  }

  /**
   * A reminder for template `t` is a Scheduled stage-1 "Reminder" row of the
   * daily queue carrying the template's title, due at 23:59:59 on the
   * template's month and day of the current year.
   */
  lemma ReminderEntryDated(email: string, t: Template, now: int)
    requires ValidDate(YearOf(now), t.month, t.day)
    ensures var e := ReminderEntry(email, t, now);
      && Satisfies(e, Due) && e.email == email && e.process == REMINDER && e.processState == 1
      && e.data == t.title && e.created == now && e.executed.Some?
      && YearOf(e.executed.value) == YearOf(now)
      && e.executed.value / SECONDS_PER_DAY == DaysFromCivil(YearOf(now), t.month, t.day)
      && e.executed.value % SECONDS_PER_DAY == 23 * 3600 + 59 * 60 + 59
  {
    TimeOnDay(YearOf(now), t.month, t.day, 23, 59, 59);
    YearOfTimeOn(YearOf(now), t.month, t.day, 23, 59, 59);
  }

  /** The email a scheduled bank-connect row sends at its stage. */
  function BankConnectTemplate(stage: int): string
    requires 1 <= stage <= 3
  {
    if stage == 1 then BANK_LATER_TEMPLATE
    else if stage == 2 then BANK_CREATED_TEMPLATE
    else BANK_REMINDER_TEMPLATE
  }

  /** The time the bank-connect cooldown counts from: when the row last ran, or else when it was created. */
  function CooldownStart(item: Entry): int {
    item.executed.GetOr(item.created)
  }

  /**
   * Whether a bank-connect row sends its email now: at stages 1 and 2
   * always, at stage 3 only once three days have passed since `CooldownStart`.
   */
  predicate BankConnectDue(item: Entry, now: int) {
    || ScheduledAt(item, 1)
    || ScheduledAt(item, 2)
    || (ScheduledAt(item, 3) && now - CooldownStart(item) >= BANK_REMINDER_COOLDOWN)
  }

  /**
   * A stage-3 reminder waits three days: counted from creation when the row
   * was never executed, and from the last execution otherwise, it is not due
   * a day later and is due three days later.
   */
  lemma BankReminderCooldown(item: Entry)
    requires ScheduledAt(item, 3)
    ensures item.executed.None? ==>
      !BankConnectDue(item, item.created + ONE_DAY) && BankConnectDue(item, item.created + 3 * ONE_DAY)
    ensures item.executed.Some? ==>
      !BankConnectDue(item, item.executed.value + ONE_DAY) && BankConnectDue(item, item.executed.value + 3 * ONE_DAY)
  {
  }

  // The handlers as functions of the state they act on. Each handler method
  // of `Ledger` ensures that it does what its function here says, `Dispatch`
  // that it does what `Step` says, and `Poll` what `ScheduledSystem` says.

  /** What the engine acts on: the ledger, the progress records by email, and the collaborator calls made so far. */
  datatype State = State(rows: seq<Entry>, progress: map<string, Progress>, effects: seq<Call>)

  /** The state a handler leaves behind, and how it ended. */
  datatype After = After(state: State, status: Status)

  /** Calling `calls` in order until one raises. */
  function CallsStep(calls: seq<Call>, fails: set<Call>, s: State): (r: After)
    ensures s.rows <= r.state.rows && r.state.progress.Keys == s.progress.Keys && s.effects <= r.state.effects
  {
    After(s.(effects := s.effects + Performed(calls, fails)), RunStatus(calls, fails))
  }

  /** `get_or_create(lookup, defaults)`: raises when the lookup finds two or more rows. */
  function GetOrCreateStep(q: Lookup, inserted: Entry, s: State): (r: After)
    requires Satisfies(inserted, Exact(q))
    ensures s.rows <= r.state.rows && r.state.progress.Keys == s.progress.Keys && s.effects <= r.state.effects
  {
    if |Filter(s.rows, Exact(q))| >= 2 then After(s, Raised(MultipleObjectsReturned(q)))
    else After(s.(rows := AfterGetOrCreate(s.rows, q, inserted)), Done)
  }

  /** Sets the questionnaire status of the email's progress record and files a Salesforce row; without a record, raises. */
  function MarkQuestionnaireStep(item: Entry, status: string, process: string, data: string, now: int, s: State): (r: After)
    ensures s.rows <= r.state.rows && r.state.progress.Keys == s.progress.Keys && s.effects <= r.state.effects
  {
    if item.email !in s.progress then After(s, Raised(ProgressDoesNotExist(item.email)))
    else
      After(State(s.rows + [NewEntry(item.email, process, HYKE_SALESFORCE, 1, data, now, None)],
                  s.progress[item.email := s.progress[item.email].(questionnaireStatus := status)],
                  s.effects),
            Done)
  }

  /** The reminders the stage-2 running flow files, one per template, in order. */
  function RemindersFor(email: string, templates: seq<Template>, now: int): seq<Entry>
    requires ValidTemplates(templates, YearOf(now))
  {
    seq(|templates|, k requires 0 <= k < |templates| => ReminderEntry(email, templates[k], now))
  }

  /** The ledger with every row `f` selects completed. */
  function CompleteAll(rows: seq<Entry>, f: Query, now: int): seq<Entry> {
    seq(|rows|, j requires 0 <= j < |rows| => if Satisfies(rows[j], f) then Complete(rows[j], now) else rows[j])
  }

  /** Completing the open reminders a query selects, then the row at `id`, keeps within `RowsEvolve`. */
  lemma CloseEvolves(rows: seq<Entry>, f: Query, now: int, id: nat, item: Entry)
    requires id < |rows| && f.OpenReminders?
    ensures RowsEvolve(rows, CompleteAll(rows, f, now)[id := Complete(item, now)], now, Some(id), item)
  {
    var after := CompleteAll(rows, f, now)[id := Complete(item, now)];
    forall i | 0 <= i < |rows| && i != id
      ensures after[i] == rows[i] || (OpenReminder(rows[i]) && after[i] == Complete(rows[i], now))
    {
      assert after[i] == CompleteAll(rows, f, now)[i];
    }
  }

  function ClientOnboardingSurveyStep(item: Entry, s: State): (r: After)
    ensures s.rows <= r.state.rows && r.state.progress.Keys == s.progress.Keys && s.effects <= r.state.effects
  {
    if ScheduledAt(item, 1) then After(s.(effects := s.effects + [SendClientOnboardingSurvey(item.email)]), Done)
    else After(s, Done)
  }

  function PaymentErrorEmailStep(item: Entry, fails: set<Call>, s: State): (r: After)
    ensures s.rows <= r.state.rows && r.state.progress.Keys == s.progress.Keys && s.effects <= r.state.effects
  {
    if ScheduledAt(item, 1) then CallsStep([SendTransactionalEmail(item.email, PAYMENT_ERROR_TEMPLATE)], fails, s)
    else After(s, Done)
  }

  function RunningFlowStageOneStep(email: string, now: int, fails: set<Call>, s: State): (r: After)
    ensures s.rows <= r.state.rows && r.state.progress.Keys == s.progress.Keys && s.effects <= r.state.effects
  {
    if email !in s.progress then After(s, Raised(ProgressDoesNotExist(email)))
    else
      var marked := s.(progress := s.progress[email := s.progress[email].(bookkeepingSetupStatus := "completed", taxSetupStatus := "completed2")]);
      var first := GetOrCreateStep(ScheduleEmailLookup(email, UPCOMING_SUBJECT), ScheduleEmailEntry(email, UPCOMING_SUBJECT, now), marked);
      if first.status.Raised? then first
      else
        var second := GetOrCreateStep(RunningFlowStageTwoLookup(email), RunningFlowStageTwoEntry(email, now), first.state);
        if second.status.Raised? then second
        else CallsStep(SetUpCalls(email), fails, second.state)
  }

  function RunningFlowStep(item: Entry, now: int, templates: seq<Template>, fails: set<Call>, s: State): (r: After)
    requires ScheduledAt(item, 2) ==> ValidTemplates(templates, YearOf(now))
    ensures s.rows <= r.state.rows && r.state.progress.Keys == s.progress.Keys && s.effects <= r.state.effects
  {
    if ScheduledAt(item, 1) then RunningFlowStageOneStep(item.email, now, fails, s)
    else if ScheduledAt(item, 2) then After(s.(rows := s.rows + RemindersFor(item.email, templates, now)), Done)
    else After(s, Done)
  }

  function AnnualReportUploadedStep(id: nat, item: Entry, now: int, fails: set<Call>, s: State): (r: After)
    requires id < |s.rows|
    ensures RowsEvolve(s.rows, r.state.rows, now, Some(id), item)
    ensures item.outcome == SCHEDULED && r.status.Done? ==> r.state.rows[id] == Complete(item, now)
    ensures r.state.progress.Keys == s.progress.Keys && s.effects <= r.state.effects
  {
    if item.outcome != SCHEDULED then
      AppendOnlyEvolves(s.rows, s.rows, now, Some(id), item);
      After(s, Done)
    else
      match ParseReport(item.data)
      case None =>
        AppendOnlyEvolves(s.rows, s.rows, now, Some(id), item);
        After(s, Raised(ReportDataIndexError(item.data)))
      case Some(report) => CompleteUploadStep(id, item, report, now, fails, s)
  }

  /** The upload handler once the payload has parsed into `report`. */
  function CompleteUploadStep(id: nat, item: Entry, report: Report, now: int, fails: set<Call>, s: State): (r: After)
    requires id < |s.rows|
    ensures RowsEvolve(s.rows, r.state.rows, now, Some(id), item)
    ensures r.state.rows[id] == Complete(item, now)
    ensures r.state.progress.Keys == s.progress.Keys && s.effects <= r.state.effects
  {
    var f := OpenReminders(item.email, ReminderKeys(report));
    CloseEvolves(s.rows, f, now, id, item);
    CallsStep([NextAnnualReportReminder(item.email, report.name, report.state)], fails,
              s.(rows := CompleteAll(s.rows, f, now)[id := Complete(item, now)]))
  }

  /** Both NPS handlers: the one calculation, when the row is Scheduled. */
  function CalculateNpsStep(item: Entry, c: Call, fails: set<Call>, s: State): (r: After)
    ensures s.rows <= r.state.rows && r.state.progress.Keys == s.progress.Keys && s.effects <= r.state.effects
  {
    if item.outcome == SCHEDULED then CallsStep([c], fails, s) else After(s, Done)
  }

  function KickoffQuestionnaireCompletedStep(item: Entry, now: int, s: State): (r: After)
    ensures s.rows <= r.state.rows && r.state.progress.Keys == s.progress.Keys && s.effects <= r.state.effects
  {
    if ScheduledAt(item, 1) && item.email in s.progress then
      MarkQuestionnaireStep(item, "scheduled", KICKOFF_QUESTIONNAIRE_COMPLETED, item.data, now, s)
    else After(s, Done)
  }

  function KickoffCallScheduledStep(item: Entry, now: int, s: State): (r: After)
    ensures s.rows <= r.state.rows && r.state.progress.Keys == s.progress.Keys && s.effects <= r.state.effects
  {
    if ScheduledAt(item, 1) then MarkQuestionnaireStep(item, "scheduled", KICKOFF_CALL_SCHEDULED, item.data, now, s)
    else After(s, Done)
  }

  function KickoffCallCancelledStep(item: Entry, now: int, s: State): (r: After)
    ensures s.rows <= r.state.rows && r.state.progress.Keys == s.progress.Keys && s.effects <= r.state.effects
  {
    if ScheduledAt(item, 1) then MarkQuestionnaireStep(item, "reschedule", KICKOFF_CALL_CANCELLED, DEFAULT_DATA, now, s)
    else After(s, Done)
  }

  function TransitionPlanSubmittedStep(item: Entry, now: int, s: State): (r: After)
    ensures s.rows <= r.state.rows && r.state.progress.Keys == s.progress.Keys && s.effects <= r.state.effects
  {
    if !ScheduledAt(item, 1) then After(s, Done)
    else
      var marked := MarkQuestionnaireStep(item, "submitted", TRANSITION_PLAN_SUBMITTED, DEFAULT_DATA, now, s);
      if marked.status.Raised? then marked
      else GetOrCreateStep(ScheduleEmailLookup(item.email, WELCOME_SUBJECT), ScheduleEmailEntry(item.email, WELCOME_SUBJECT, now), marked.state)
  }

  function BkTrainingCallScheduledStep(item: Entry, now: int, s: State): (r: After)
    ensures s.rows <= r.state.rows && r.state.progress.Keys == s.progress.Keys && s.effects <= r.state.effects
  {
    if ScheduledAt(item, 1) then
      After(s.(rows := s.rows + [NewEntry(item.email, BK_TRAINING_CALL_SCHEDULED, HYKE_SALESFORCE, 1, item.data, now, None)]), Done)
    else After(s, Done)
  }

  function BkTrainingCallCancelledStep(id: nat, item: Entry, now: int, s: State): (r: After)
    requires id < |s.rows|
    ensures RowsEvolve(s.rows, r.state.rows, now, Some(id), item)
    ensures ScheduledAt(item, 1) && r.status.Done? ==> r.state.rows[id] == Complete(item, now)
    ensures r.state.progress.Keys == s.progress.Keys && s.effects <= r.state.effects
  {
    if !ScheduledAt(item, 1) then After(s, Done)
    else if item.email !in s.progress then After(s, Raised(ProgressDoesNotExist(item.email)))
    else
      var filed := s.rows + [NewEntry(item.email, FOLLOWUP_BK_TRAINING, HYKE_DAILY, 1, DEFAULT_DATA, now, Some(now + TWO_DAYS)),
                             NewEntry(item.email, BK_TRAINING_CALL_CANCELLED, HYKE_SALESFORCE, 1, DEFAULT_DATA, now, None)];
      After(State(filed[id := Complete(item, now)],
                  s.progress[item.email := s.progress[item.email].(bookkeepingSetupStatus := "reschedule")],
                  s.effects),
            Done)
  }

  function BankConnectStep(id: nat, item: Entry, now: int, fails: set<Call>, s: State): (r: After)
    requires id < |s.rows|
    ensures RowsEvolve(s.rows, r.state.rows, now, Some(id), item)
    ensures BankConnectDue(item, now) && r.status.Done? ==> r.state.rows[id] == Complete(item, now)
    ensures r.state.progress.Keys == s.progress.Keys && s.effects <= r.state.effects
  {
    if !BankConnectDue(item, now) then After(s, Done)
    else
      var sent := CallsStep([SendTransactionalEmail(item.email, BankConnectTemplate(item.processState))], fails, s);
      if sent.status.Raised? then sent
      else After(sent.state.(rows := s.rows[id := Complete(item, now)]), Done)
  }

  /**
   * `process_mapping[item.process](item)` on state `s`: the handler of the
   * row's process, for the row at `id`; a process outside the table leaves
   * the state as it is and does not raise. No handler removes a row.
   */
  function Step(id: nat, item: Entry, now: int, templates: seq<Template>, fails: set<Call>, s: State): (r: After)
    requires id < |s.rows| && ValidTemplates(templates, YearOf(now))
    ensures |s.rows| <= |r.state.rows|
    ensures ProcessOf(item.process).Other? ==> r == After(s, Done)
  {
    match ProcessOf(item.process)
    case ClientOnboardingSurvey => ClientOnboardingSurveyStep(item, s)
    case PaymentErrorEmail => PaymentErrorEmailStep(item, fails, s)
    case RunningFlow => RunningFlowStep(item, now, templates, fails, s)
    case AnnualReportUploaded => AnnualReportUploadedStep(id, item, now, fails, s)
    case CalculateNpsRunning => CalculateNpsStep(item, NpsCalculatorRunning, fails, s)
    case CalculateNpsOnboarding => CalculateNpsStep(item, NpsCalculatorOnboarding, fails, s)
    case KickoffQuestionnaireCompleted => KickoffQuestionnaireCompletedStep(item, now, s)
    case KickoffCallScheduled => KickoffCallScheduledStep(item, now, s)
    case KickoffCallCancelled => KickoffCallCancelledStep(item, now, s)
    case TransitionPlanSubmitted => TransitionPlanSubmittedStep(item, now, s)
    case BkTrainingCallScheduled => BkTrainingCallScheduledStep(item, now, s)
    case BkTrainingCallCancelled => BkTrainingCallCancelledStep(id, item, now, s)
    case BankConnect => BankConnectStep(id, item, now, fails, s)
    case Other(_) => After(s, Done)
  }

  /**
   * Whatever the handler, `Step` keeps within `RowsEvolve`, keeps the set of
   * progress records, and only adds collaborator calls.
   */
  lemma StepEvolves(id: nat, item: Entry, now: int, templates: seq<Template>, fails: set<Call>, s: State)
    requires id < |s.rows| && ValidTemplates(templates, YearOf(now))
    ensures var r := Step(id, item, now, templates, fails, s).state;
      && RowsEvolve(s.rows, r.rows, now, if SavesItself(ProcessOf(item.process)) then Some(id) else None, item)
      && r.progress.Keys == s.progress.Keys
      && s.effects <= r.effects
  {
    var a := Step(id, item, now, templates, fails, s);
    match ProcessOf(item.process)
    case AnnualReportUploaded =>
      assert a == AnnualReportUploadedStep(id, item, now, fails, s);
    case BkTrainingCallCancelled =>
      assert a == BkTrainingCallCancelledStep(id, item, now, s);
    case BankConnect =>
      assert a == BankConnectStep(id, item, now, fails, s);
    case _ =>
      AppendOnlyEvolves(s.rows, a.state.rows, now, None, item);
  }

  /** The rows whose handler completes them when it does not raise. */
  predicate CompletesItself(item: Entry, now: int) {
    match ProcessOf(item.process)
    case AnnualReportUploaded => item.outcome == SCHEDULED
    case BkTrainingCallCancelled => ScheduledAt(item, 1)
    case BankConnect => BankConnectDue(item, now)
    case _ => false
  }

  /** A handler that completes its own row and does not raise leaves that row completed at `now`. */
  lemma StepCompletes(id: nat, item: Entry, now: int, templates: seq<Template>, fails: set<Call>, s: State)
    requires id < |s.rows| && ValidTemplates(templates, YearOf(now))
    ensures var r := Step(id, item, now, templates, fails, s);
      CompletesItself(item, now) && r.status.Done? ==> r.state.rows[id] == Complete(item, now)
  {
  }

  /** A handler that does not save its own row leaves it as it was, unless it is an open reminder. */
  lemma StepKeepsRow(id: nat, item: Entry, now: int, templates: seq<Template>, fails: set<Call>, s: State)
    requires id < |s.rows| && ValidTemplates(templates, YearOf(now))
    ensures var r := Step(id, item, now, templates, fails, s);
      !SavesItself(ProcessOf(item.process)) && !OpenReminder(s.rows[id]) ==> r.state.rows[id] == s.rows[id]
  {
    StepEvolves(id, item, now, templates, fails, s);
  }

  /** What a poll returns: the state it leaves, how it ended, and the ids of the rows it handed to their handlers. */
  datatype PollResult = PollResult(state: State, status: Status, visited: seq<nat>)

  /**
   * The poll from the `k`-th due row on: each row, as it was in `snapshot`
   * when the poll started, is handed to `Step`; the first raise ends the poll.
   */
  function PollFrom(due: seq<nat>, k: nat, snapshot: seq<Entry>, now: int, templates: seq<Template>,
                    fails: set<Call>, s: State): (r: PollResult)
    requires k <= |due| && |snapshot| <= |s.rows|
    requires forall j :: 0 <= j < |due| ==> due[j] < |snapshot|
    requires ValidTemplates(templates, YearOf(now))
    ensures |s.rows| <= |r.state.rows|
    ensures due[..k] <= r.visited <= due
    ensures r.status.Done? ==> r.visited == due
    ensures r.status.Raised? ==> |r.visited| > k
    decreases |due| - k
  {
    if k == |due| then PollResult(s, Done, due)
    else
      var a := Step(due[k], snapshot[due[k]], now, templates, fails, s);
      if a.status.Raised? then PollResult(a.state, a.status, due[..k + 1])
      else PollFrom(due, k + 1, snapshot, now, templates, fails, a.state)
  }

  /** One step of `PollFrom`: the `k`-th due row goes to `Step`, and the poll goes on unless it raised. */
  lemma PollFromStep(due: seq<nat>, k: nat, snapshot: seq<Entry>, now: int, templates: seq<Template>,
                     fails: set<Call>, s: State, a: After)
    requires k < |due| && |snapshot| <= |s.rows|
    requires forall j :: 0 <= j < |due| ==> due[j] < |snapshot|
    requires ValidTemplates(templates, YearOf(now))
    requires a == Step(due[k], snapshot[due[k]], now, templates, fails, s)
    ensures a.status.Raised? ==> PollFrom(due, k, snapshot, now, templates, fails, s) == PollResult(a.state, a.status, due[..k + 1])
    ensures a.status.Done? ==>
      |snapshot| <= |a.state.rows| &&
      PollFrom(due, k, snapshot, now, templates, fails, s) == PollFrom(due, k + 1, snapshot, now, templates, fails, a.state)
  {
  }

  /**
   * `scheduled_system()` on state `s`: the rows due when the poll starts, in
   * ledger order, handed one by one to their handlers until one raises.
   */
  function ScheduledSystem(now: int, templates: seq<Template>, fails: set<Call>, s: State): (r: PollResult)
    requires ValidTemplates(templates, YearOf(now))
    ensures r.visited <= Filter(s.rows, Due)
    ensures r.status.Done? ==> r.visited == Filter(s.rows, Due)
    ensures r.status.Raised? ==> r.visited != []
  {
    PollFrom(Filter(s.rows, Due), 0, s.rows, now, templates, fails, s)
  }

  /**
   * Over the rest of a poll, the rows that existed when it started change
   * only as `OnlyCompleted` allows, no progress record goes away, and
   * collaborator calls are only added.
   */
  lemma {:induction false} PollFromFrame(due: seq<nat>, k: nat, snapshot: seq<Entry>, now: int, templates: seq<Template>,
                                         fails: set<Call>, s: State)
    requires k <= |due| && |snapshot| <= |s.rows|
    requires forall j :: 0 <= j < |due| ==> due[j] < |snapshot|
    requires ValidTemplates(templates, YearOf(now))
    requires OnlyCompleted(snapshot, s.rows, now, due[..k])
    ensures var r := PollFrom(due, k, snapshot, now, templates, fails, s);
      && OnlyCompleted(snapshot, r.state.rows, now, r.visited)
      && r.state.progress.Keys == s.progress.Keys
      && s.effects <= r.state.effects
    decreases |due| - k
  {
    if k < |due| {
      var a := Step(due[k], snapshot[due[k]], now, templates, fails, s);
      PollFromStep(due, k, snapshot, now, templates, fails, s, a);
      PollFromFrameHead(due, k, snapshot, now, templates, fails, s, a);
      if a.status.Done? {
        PollFromFrame(due, k + 1, snapshot, now, templates, fails, a.state);
      }
    } else {
      assert due[..k] == due;
    }
  }

  /** One hand-over of a poll keeps within `OnlyCompleted`, keeps every progress record and only adds calls. */
  lemma PollFromFrameHead(due: seq<nat>, k: nat, snapshot: seq<Entry>, now: int, templates: seq<Template>,
                          fails: set<Call>, s: State, a: After)
    requires k < |due| && |snapshot| <= |s.rows|
    requires forall j :: 0 <= j < |due| ==> due[j] < |snapshot|
    requires ValidTemplates(templates, YearOf(now))
    requires OnlyCompleted(snapshot, s.rows, now, due[..k])
    requires a == Step(due[k], snapshot[due[k]], now, templates, fails, s)
    ensures OnlyCompleted(snapshot, a.state.rows, now, due[..k + 1])
    ensures a.state.progress.Keys == s.progress.Keys && s.effects <= a.state.effects
  {
    var id := due[k];
    StepEvolves(id, snapshot[id], now, templates, fails, s);
    PollStep(snapshot, s.rows, a.state.rows, now, due[..k], id);
    assert due[..k] + [id] == due[..k + 1];
  }

  /** A whole poll keeps within `OnlyCompleted`, keeps every progress record, and only adds calls. */
  lemma PollFrame(now: int, templates: seq<Template>, fails: set<Call>, s: State)
    requires ValidTemplates(templates, YearOf(now))
    ensures var r := ScheduledSystem(now, templates, fails, s);
      && OnlyCompleted(s.rows, r.state.rows, now, r.visited)
      && r.state.progress.Keys == s.progress.Keys
      && s.effects <= r.state.effects
  {
    PollFromFrame(Filter(s.rows, Due), 0, s.rows, now, templates, fails, s);
  }

  /** A row that is not Scheduled and that the rest of the poll does not visit keeps its value. */
  lemma {:induction false} PollFromKeeps(due: seq<nat>, k: nat, snapshot: seq<Entry>, now: int, templates: seq<Template>,
                                         fails: set<Call>, s: State, i: nat)
    requires k <= |due| && |snapshot| <= |s.rows|
    requires forall j :: 0 <= j < |due| ==> due[j] < |snapshot|
    requires ValidTemplates(templates, YearOf(now))
    requires i < |s.rows| && s.rows[i].outcome != SCHEDULED
    requires forall j :: k <= j < |due| ==> due[j] != i
    ensures PollFrom(due, k, snapshot, now, templates, fails, s).state.rows[i] == s.rows[i]
    decreases |due| - k
  {
    if k < |due| {
      var id := due[k];
      var a := Step(id, snapshot[id], now, templates, fails, s);
      StepEvolves(id, snapshot[id], now, templates, fails, s);
      assert a.state.rows[i] == s.rows[i];
      if a.status.Done? {
        PollFromKeeps(due, k + 1, snapshot, now, templates, fails, a.state, i);
      }
    }
  }

  /**
   * The row a poll step completes stays completed over the rest of the poll,
   * which visits only later rows.
   */
  lemma PollFromCompletesHead(due: seq<nat>, k: nat, snapshot: seq<Entry>, now: int, templates: seq<Template>,
                              fails: set<Call>, s: State, a: After)
    requires k < |due| && |snapshot| <= |s.rows|
    requires forall j :: 0 <= j < |due| ==> due[j] < |snapshot|
    requires forall x, y :: 0 <= x < y < |due| ==> due[x] < due[y]
    requires ValidTemplates(templates, YearOf(now))
    requires a == Step(due[k], snapshot[due[k]], now, templates, fails, s)
    requires a.status.Done? && CompletesItself(snapshot[due[k]], now)
    ensures |snapshot| <= |a.state.rows|
    ensures PollFrom(due, k + 1, snapshot, now, templates, fails, a.state).state.rows[due[k]] == Complete(snapshot[due[k]], now)
  {
    var id := due[k];
    StepCompletes(id, snapshot[id], now, templates, fails, s);
    assert forall j :: k + 1 <= j < |due| ==> due[j] != id by {
      forall j | k + 1 <= j < |due| ensures due[k] < due[j] { }
    }
    PollFromKeeps(due, k + 1, snapshot, now, templates, fails, a.state, id);
  }

  /**
   * Every row the poll visits from the `k`-th on and whose handler did not
   * raise ends the poll completed, when its handler is one that completes it.
   */
  lemma {:induction false} PollFromCompletes(due: seq<nat>, k: nat, snapshot: seq<Entry>, now: int, templates: seq<Template>,
                                             fails: set<Call>, s: State)
    requires k <= |due| && |snapshot| <= |s.rows|
    requires forall j :: 0 <= j < |due| ==> due[j] < |snapshot|
    requires forall a, b :: 0 <= a < b < |due| ==> due[a] < due[b]
    requires ValidTemplates(templates, YearOf(now))
    ensures var r := PollFrom(due, k, snapshot, now, templates, fails, s);
      forall j :: k <= j < |r.visited| && (r.status.Done? || j < |r.visited| - 1) && CompletesItself(snapshot[due[j]], now) ==>
        r.state.rows[due[j]] == Complete(snapshot[due[j]], now)
    decreases |due| - k
  {
    if k < |due| {
      var a := Step(due[k], snapshot[due[k]], now, templates, fails, s);
      PollFromStep(due, k, snapshot, now, templates, fails, s, a);
      if a.status.Done? {
        var r := PollFrom(due, k + 1, snapshot, now, templates, fails, a.state);
        PollFromCompletes(due, k + 1, snapshot, now, templates, fails, a.state);
        if CompletesItself(snapshot[due[k]], now) {
          PollFromCompletesHead(due, k, snapshot, now, templates, fails, s, a);
        }
        forall j | k <= j < |r.visited| && (r.status.Done? || j < |r.visited| - 1) && CompletesItself(snapshot[due[j]], now)
          ensures r.state.rows[due[j]] == Complete(snapshot[due[j]], now)
        {
        }
      }
    }
  }

  /** A poll only stops at a row that has a handler: a row with none never raises. */
  lemma {:induction false} PollFromRaised(due: seq<nat>, k: nat, snapshot: seq<Entry>, now: int, templates: seq<Template>,
                                          fails: set<Call>, s: State)
    requires k <= |due| && |snapshot| <= |s.rows|
    requires forall j :: 0 <= j < |due| ==> due[j] < |snapshot|
    requires ValidTemplates(templates, YearOf(now))
    ensures var r := PollFrom(due, k, snapshot, now, templates, fails, s);
      r.status.Raised? ==> !ProcessOf(snapshot[r.visited[|r.visited| - 1]].process).Other?
    decreases |due| - k
  {
    if k < |due| {
      var a := Step(due[k], snapshot[due[k]], now, templates, fails, s);
      var r := PollFrom(due, k, snapshot, now, templates, fails, s);
      if a.status.Done? {
        assert r == PollFrom(due, k + 1, snapshot, now, templates, fails, a.state);
        PollFromRaised(due, k + 1, snapshot, now, templates, fails, a.state);
      } else {
        assert !ProcessOf(snapshot[due[k]].process).Other?;
        assert r.visited == due[..k + 1];
      }
    }
  }

  /**
   * What one poll achieves: it stops only at a row that has a handler, and
   * every due row whose handler completes it (an upload, a cancelled
   * bookkeeping training call, a bank-connect row whose email is due) ends
   * the poll completed at `now`: all of them when nothing raised, and
   * otherwise all those visited before the raise.
   */
  lemma PollOutcome(now: int, templates: seq<Template>, fails: set<Call>, s: State)
    requires ValidTemplates(templates, YearOf(now))
    ensures var r := ScheduledSystem(now, templates, fails, s);
      r.status.Raised? ==> !ProcessOf(s.rows[r.visited[|r.visited| - 1]].process).Other?
    ensures var r := ScheduledSystem(now, templates, fails, s);
      r.status.Done? ==>
        forall i :: 0 <= i < |s.rows| && Satisfies(s.rows[i], Due) && CompletesItself(s.rows[i], now) ==>
          r.state.rows[i] == Complete(s.rows[i], now)
    ensures var r := ScheduledSystem(now, templates, fails, s);
      forall j :: 0 <= j < |r.visited| - 1 && CompletesItself(s.rows[r.visited[j]], now) ==>
        r.state.rows[r.visited[j]] == Complete(s.rows[r.visited[j]], now)
  {
    var due := Filter(s.rows, Due);
    var r := ScheduledSystem(now, templates, fails, s);
    PollFromRaised(due, 0, s.rows, now, templates, fails, s);
    PollFromCompletes(due, 0, s.rows, now, templates, fails, s);
    forall j | 0 <= j < |r.visited| - 1
      ensures r.visited[j] == due[j]
    {
      assert r.visited <= due;
    }
    if r.status.Done? {
      forall i | 0 <= i < |s.rows| && Satisfies(s.rows[i], Due) && CompletesItself(s.rows[i], now)
        ensures r.state.rows[i] == Complete(s.rows[i], now)
      {
        var j :| 0 <= j < |due| && due[j] == i;
      }
    }
  }

  /** The state the engine works on: the ledger, the progress records by email, and the collaborator calls made. */
  class Ledger {
    var rows: seq<Entry>
    var progress: map<string, Progress>
    var effects: seq<Call>

    constructor(rows0: seq<Entry>, progress0: map<string, Progress>)
      ensures rows == rows0 && progress == progress0 && effects == []
    {
      rows := rows0;
      progress := progress0;
      effects := [];
    }

    /** The engine's state as a value. */
    function Current(): State
      reads this
    {
      State(rows, progress, effects)
    }

    /** `create(...)` or `StatusEngine(...).save()` of a new row. */
    method Append(e: Entry)
      modifies this
      ensures rows == old(rows) + [e]
      ensures progress == old(progress) && effects == old(effects)
    {
      rows := rows + [e];
    }

    /** `item.save()`: writes the whole row back under its id. */
    method Save(id: nat, e: Entry)
      requires id < |rows|
      modifies this
      ensures rows == old(rows)[id := e]
      ensures progress == old(progress) && effects == old(effects)
    {
      rows := rows[id := e];
    }

    /** Calls a collaborator; `ok` is false when the call raised. */
    method Invoke(c: Call, fails: set<Call>) returns (ok: bool)
      modifies this
      ensures effects == old(effects) + [c]
      ensures ok <==> c !in fails
      ensures rows == old(rows) && progress == old(progress)
    {
      effects := effects + [c];
      ok := c !in fails;
    }

    /** `get_or_create(lookup, defaults)`, where `inserted` is the row built from the lookup and the defaults. */
    method GetOrCreate(q: Lookup, inserted: Entry) returns (r: GetOrCreateResult)
      requires Satisfies(inserted, Exact(q))
      modifies this
      ensures rows == AfterGetOrCreate(old(rows), q, inserted)
      ensures r.Multiple? <==> |Filter(old(rows), Exact(q))| >= 2
      ensures r.Got? <==> |Filter(old(rows), Exact(q))| == 1
      ensures r.Got? ==> r.id < |rows| && Satisfies(rows[r.id], Exact(q))
      ensures r.Created? ==> r.id == |old(rows)| && rows[r.id] == inserted
      ensures progress == old(progress) && effects == old(effects)
      ensures After(Current(), if r.Multiple? then Raised(MultipleObjectsReturned(q)) else Done) == GetOrCreateStep(q, inserted, old(Current()))
    {
      var found := Filter(rows, Exact(q));
      if |found| == 0 {
        r := Created(|rows|);
        rows := rows + [inserted];
      } else if |found| == 1 {
        r := Got(found[0]);
      } else {
        r := Multiple;
      }
    }

    /** `handle_client_onboarding_survey`: sends the survey; a raise is logged and swallowed. */
    method HandleClientOnboardingSurvey(item: Entry, fails: set<Call>) returns (st: Status)
      modifies this
      ensures After(Current(), st) == ClientOnboardingSurveyStep(item, old(Current()))
      ensures st == Done
      ensures rows == old(rows) && progress == old(progress)
      ensures effects == old(effects) + (if ScheduledAt(item, 1) then [SendClientOnboardingSurvey(item.email)] else [])
    {
      if ScheduledAt(item, 1) {
        var _ := Invoke(SendClientOnboardingSurvey(item.email), fails);
      }
      st := Done;
    }

    /** `handle_payment_error_email`: sends the payment-error email; the row stays Scheduled. */
    method HandlePaymentErrorEmail(item: Entry, fails: set<Call>) returns (st: Status)
      modifies this
      ensures After(Current(), st) == PaymentErrorEmailStep(item, fails, old(Current()))
      ensures rows == old(rows) && progress == old(progress)
      ensures ScheduledAt(item, 1) ==>
        && effects == old(effects) + [SendTransactionalEmail(item.email, PAYMENT_ERROR_TEMPLATE)]
        && st == RunStatus([SendTransactionalEmail(item.email, PAYMENT_ERROR_TEMPLATE)], fails)
      ensures !ScheduledAt(item, 1) ==> effects == old(effects) && st == Done
    {
      st := Done;
      if ScheduledAt(item, 1) {
        var c := SendTransactionalEmail(item.email, PAYMENT_ERROR_TEMPLATE);
        var ok := Invoke(c, fails);
        if !ok {
          st := Raised(CollaboratorRaised(c));
        }
      }
    }

    /**
     * `handle_running_flow`. Stage 1 marks bookkeeping and tax set-up done,
     * makes sure of the "What's upcoming" email and of a stage-2 row, and
     * calls the three set-up jobs; stage 2 files one reminder per annual
     * template. Neither stage changes the row itself.
     */
    method HandleRunningFlow(item: Entry, now: int, templates: seq<Template>, fails: set<Call>) returns (st: Status)
      requires ScheduledAt(item, 2) ==> ValidTemplates(templates, YearOf(now))
      modifies this
      ensures After(Current(), st) == RunningFlowStep(item, now, templates, fails, old(Current()))
      ensures old(rows) <= rows && progress.Keys == old(progress).Keys && old(effects) <= effects
      ensures ScheduledAt(item, 1) && item.email !in old(progress) ==>
        st == Raised(ProgressDoesNotExist(item.email)) && rows == old(rows) && progress == old(progress) && effects == old(effects)
      ensures ScheduledAt(item, 1) && item.email in old(progress) ==>
        progress == old(progress)[item.email := old(progress)[item.email].(bookkeepingSetupStatus := "completed", taxSetupStatus := "completed2")]
      ensures ScheduledAt(item, 1) && item.email in old(progress)
              && |Filter(old(rows), Exact(ScheduleEmailLookup(item.email, UPCOMING_SUBJECT)))| >= 2 ==>
        && st == Raised(MultipleObjectsReturned(ScheduleEmailLookup(item.email, UPCOMING_SUBJECT)))
        && rows == old(rows) && effects == old(effects)
      ensures ScheduledAt(item, 1) && item.email in old(progress)
              && |Filter(old(rows), Exact(ScheduleEmailLookup(item.email, UPCOMING_SUBJECT)))| <= 1
              && |Filter(old(rows), Exact(RunningFlowStageTwoLookup(item.email)))| >= 2 ==>
        && st == Raised(MultipleObjectsReturned(RunningFlowStageTwoLookup(item.email)))
        && rows == AfterGetOrCreate(old(rows), ScheduleEmailLookup(item.email, UPCOMING_SUBJECT),
                                    ScheduleEmailEntry(item.email, UPCOMING_SUBJECT, now))
        && effects == old(effects)
      ensures ScheduledAt(item, 1) && item.email in old(progress)
              && |Filter(old(rows), Exact(ScheduleEmailLookup(item.email, UPCOMING_SUBJECT)))| <= 1
              && |Filter(old(rows), Exact(RunningFlowStageTwoLookup(item.email)))| <= 1 ==>
        && rows == RunningFlowRows(old(rows), item.email, now)
        && effects == old(effects) + Performed(SetUpCalls(item.email), fails)
        && st == RunStatus(SetUpCalls(item.email), fails)
      ensures ScheduledAt(item, 2) ==>
        && |rows| == |old(rows)| + |templates| && old(rows) <= rows
        && (forall k :: 0 <= k < |templates| ==> rows[|old(rows)| + k] == ReminderEntry(item.email, templates[k], now))
        && progress == old(progress) && effects == old(effects) && st == Done
      ensures !ScheduledAt(item, 1) && !ScheduledAt(item, 2) ==>
        rows == old(rows) && progress == old(progress) && effects == old(effects) && st == Done
    {
      st := Done;
      if ScheduledAt(item, 1) {
        st := RunningFlowStageOne(item.email, now, fails);
      } else if ScheduledAt(item, 2) {
        FileReminders(item.email, now, templates);
      }
    }

    /** Stage 1 of the running flow, for a Scheduled stage-1 row of `email`. */
    method RunningFlowStageOne(email: string, now: int, fails: set<Call>) returns (st: Status)
      modifies this
      ensures After(Current(), st) == RunningFlowStageOneStep(email, now, fails, old(Current()))
      ensures old(rows) <= rows && progress.Keys == old(progress).Keys && old(effects) <= effects
      ensures email !in old(progress) ==>
        st == Raised(ProgressDoesNotExist(email)) && rows == old(rows) && progress == old(progress) && effects == old(effects)
      ensures email in old(progress) ==>
        progress == old(progress)[email := old(progress)[email].(bookkeepingSetupStatus := "completed", taxSetupStatus := "completed2")]
      ensures email in old(progress) && |Filter(old(rows), Exact(ScheduleEmailLookup(email, UPCOMING_SUBJECT)))| >= 2 ==>
        && st == Raised(MultipleObjectsReturned(ScheduleEmailLookup(email, UPCOMING_SUBJECT)))
        && rows == old(rows) && effects == old(effects)
      ensures email in old(progress)
              && |Filter(old(rows), Exact(ScheduleEmailLookup(email, UPCOMING_SUBJECT)))| <= 1
              && |Filter(old(rows), Exact(RunningFlowStageTwoLookup(email)))| >= 2 ==>
        && st == Raised(MultipleObjectsReturned(RunningFlowStageTwoLookup(email)))
        && rows == AfterGetOrCreate(old(rows), ScheduleEmailLookup(email, UPCOMING_SUBJECT),
                                    ScheduleEmailEntry(email, UPCOMING_SUBJECT, now))
        && effects == old(effects)
      ensures email in old(progress)
              && |Filter(old(rows), Exact(ScheduleEmailLookup(email, UPCOMING_SUBJECT)))| <= 1
              && |Filter(old(rows), Exact(RunningFlowStageTwoLookup(email)))| <= 1 ==>
        && rows == RunningFlowRows(old(rows), email, now)
        && effects == old(effects) + Performed(SetUpCalls(email), fails)
        && st == RunStatus(SetUpCalls(email), fails)
    {
      if email !in progress {
        st := Raised(ProgressDoesNotExist(email));
        return;
      }
      progress := progress[email := progress[email].(bookkeepingSetupStatus := "completed", taxSetupStatus := "completed2")];
      var q1 := ScheduleEmailLookup(email, UPCOMING_SUBJECT);
      var e1 := ScheduleEmailEntry(email, UPCOMING_SUBJECT, now);
      var q2 := RunningFlowStageTwoLookup(email);
      var e2 := RunningFlowStageTwoEntry(email, now);
      GetOrCreateOther(rows, q1, e1, Exact(q2));
      ghost var marked := Current();
      var r := GetOrCreate(q1, e1);
      ghost var first := After(Current(), if r.Multiple? then Raised(MultipleObjectsReturned(q1)) else Done);
      assert first == GetOrCreateStep(q1, e1, marked);
      if r.Multiple? {
        st := Raised(MultipleObjectsReturned(q1));
        return;
      }
      r := GetOrCreate(q2, e2);
      ghost var second := After(Current(), if r.Multiple? then Raised(MultipleObjectsReturned(q2)) else Done);
      assert second == GetOrCreateStep(q2, e2, first.state);
      if r.Multiple? {
        st := Raised(MultipleObjectsReturned(q2));
        return;
      }
      st := RunSetUpCalls(email, fails);
    }

    /** Stage 2 of the running flow, the template loop: one Scheduled reminder per annual template, in order. */
    method FileReminders(email: string, now: int, templates: seq<Template>)
      requires ValidTemplates(templates, YearOf(now))
      modifies this
      ensures rows == old(rows) + RemindersFor(email, templates, now)
      ensures |rows| == |old(rows)| + |templates| && old(rows) <= rows
      ensures forall k :: 0 <= k < |templates| ==> rows[|old(rows)| + k] == ReminderEntry(email, templates[k], now)
      ensures progress == old(progress) && effects == old(effects)
    {
      var k := 0;
      while k < |templates|
        invariant 0 <= k <= |templates|
        invariant |rows| == |old(rows)| + k && old(rows) <= rows
        invariant forall j :: 0 <= j < k ==> rows[|old(rows)| + j] == ReminderEntry(email, templates[j], now)
        invariant progress == old(progress) && effects == old(effects)
      {
        Append(ReminderEntry(email, templates[k], now));
        k := k + 1;
      }
    }

    /** The three set-up jobs of the stage-1 running flow, in order; the first that raises stops the rest. */
    method RunSetUpCalls(email: string, fails: set<Call>) returns (st: Status)
      modifies this
      ensures After(Current(), st) == CallsStep(SetUpCalls(email), fails, old(Current()))
      ensures effects == old(effects) + Performed(SetUpCalls(email), fails)
      ensures st == RunStatus(SetUpCalls(email), fails)
      ensures rows == old(rows) && progress == old(progress)
    {
      var calls := SetUpCalls(email);
      var ok := Invoke(calls[0], fails);
      if !ok {
        st := Raised(CollaboratorRaised(calls[0]));
        return;
      }
      assert Performed(calls, fails) == [calls[0]] + Performed(calls[1..], fails);
      ok := Invoke(calls[1], fails);
      if !ok {
        assert Performed(calls[1..], fails) == [calls[1]];
        st := Raised(CollaboratorRaised(calls[1]));
        return;
      }
      assert Performed(calls[1..], fails) == [calls[1]] + Performed(calls[2..], fails);
      ok := Invoke(calls[2], fails);
      assert Performed(calls[2..], fails) == [calls[2]];
      st := if ok then Done else Raised(CollaboratorRaised(calls[2]));
    }

    /**
     * `handle_annual_report_uploaded`: parses the payload, completes every
     * open reminder of the email for that report, completes the row, then
     * asks for the next reminder.
     */
    method HandleAnnualReportUploaded(id: nat, item: Entry, now: int, fails: set<Call>) returns (st: Status)
      requires id < |rows|
      modifies this
      ensures After(Current(), st) == AnnualReportUploadedStep(id, item, now, fails, old(Current()))
      ensures RowsEvolve(old(rows), rows, now, Some(id), item)
      ensures item.outcome != SCHEDULED ==>
        rows == old(rows) && progress == old(progress) && effects == old(effects) && st == Done
      ensures item.outcome == SCHEDULED && ParseReport(item.data).None? ==>
        && st == Raised(ReportDataIndexError(item.data))
        && rows == old(rows) && progress == old(progress) && effects == old(effects)
      ensures item.outcome == SCHEDULED && ParseReport(item.data).Some? ==>
        var report := ParseReport(item.data).value;
        var next := NextAnnualReportReminder(item.email, report.name, report.state);
        && |rows| == |old(rows)|
        && rows[id] == Complete(item, now)
        && (forall j :: 0 <= j < |rows| && j != id ==>
              rows[j] == if Satisfies(old(rows)[j], OpenReminders(item.email, ReminderKeys(report)))
                         then Complete(old(rows)[j], now) else old(rows)[j])
        && progress == old(progress)
        && effects == old(effects) + [next]
        && st == RunStatus([next], fails)
    {
      AppendOnlyEvolves(rows, rows, now, Some(id), item);
      if item.outcome != SCHEDULED {
        return Done;
      }
      var parsed := ParseReport(item.data);
      if parsed.None? {
        return Raised(ReportDataIndexError(item.data));
      }
      st := CompleteUpload(id, item, parsed.value, now, fails);
    }

    /** The body of the upload handler once the payload has parsed into `report`. */
    method CompleteUpload(id: nat, item: Entry, report: Report, now: int, fails: set<Call>) returns (st: Status)
      requires id < |rows|
      modifies this
      ensures After(Current(), st) == CompleteUploadStep(id, item, report, now, fails, old(Current()))
      ensures RowsEvolve(old(rows), rows, now, Some(id), item)
      ensures |rows| == |old(rows)| && rows[id] == Complete(item, now)
      ensures forall j :: 0 <= j < |rows| && j != id ==>
        rows[j] == if Satisfies(old(rows)[j], OpenReminders(item.email, ReminderKeys(report)))
                   then Complete(old(rows)[j], now) else old(rows)[j]
      ensures progress == old(progress)
      ensures effects == old(effects) + [NextAnnualReportReminder(item.email, report.name, report.state)]
      ensures st == RunStatus([NextAnnualReportReminder(item.email, report.name, report.state)], fails)
    {
      CloseAndComplete(id, item, OpenReminders(item.email, ReminderKeys(report)), now);
      ghost var closed := rows;
      var next := NextAnnualReportReminder(item.email, report.name, report.state);
      FirstRaisedSingle(next, fails);
      var ok := Invoke(next, fails);
      assert rows == closed;
      st := if ok then Done else Raised(CollaboratorRaised(next));
    }

    /** Completes the rows `f` selects, which are open annual-report reminders, then saves the completed `item` under `id`. */
    method CloseAndComplete(id: nat, item: Entry, f: Query, now: int)
      requires id < |rows| && f.OpenReminders?
      modifies this
      ensures rows == CompleteAll(old(rows), f, now)[id := Complete(item, now)]
      ensures |rows| == |old(rows)| && rows[id] == Complete(item, now)
      ensures forall j :: 0 <= j < |rows| && j != id ==>
        rows[j] == if Satisfies(old(rows)[j], f) then Complete(old(rows)[j], now) else old(rows)[j]
      ensures RowsEvolve(old(rows), rows, now, Some(id), item)
      ensures progress == old(progress) && effects == old(effects)
    {
      CloseReminders(Filter(rows, f), f, now);
      Save(id, Complete(item, now));
    }

    /** The reminder-closing loop: completes each listed row, which are exactly the rows matching `f`. */
    method CloseReminders(ids: seq<nat>, f: Query, now: int)
      requires ids == Filter(rows, f)
      modifies this
      ensures rows == CompleteAll(old(rows), f, now)
      ensures |rows| == |old(rows)|
      ensures forall j :: 0 <= j < |rows| ==>
        rows[j] == if Satisfies(old(rows)[j], f) then Complete(old(rows)[j], now) else old(rows)[j]
      ensures progress == old(progress) && effects == old(effects)
    {
      var k := 0;
      while k < |ids|
        invariant 0 <= k <= |ids|
        invariant |rows| == |old(rows)|
        invariant forall j :: 0 <= j < |rows| ==>
          rows[j] == if j in ids[..k] then Complete(old(rows)[j], now) else old(rows)[j]
        invariant progress == old(progress) && effects == old(effects)
      {
        var j := ids[k];
        Save(j, Complete(rows[j], now));
        k := k + 1;
      }
      assert ids[..k] == ids;
    }

    /** `handle_calculate_nps_running`: recomputes the running NPS; the row stays Scheduled. */
    method HandleCalculateNpsRunning(item: Entry, fails: set<Call>) returns (st: Status)
      modifies this
      ensures After(Current(), st) == CalculateNpsStep(item, NpsCalculatorRunning, fails, old(Current()))
      ensures rows == old(rows) && progress == old(progress)
      ensures item.outcome == SCHEDULED ==>
        effects == old(effects) + [NpsCalculatorRunning] && st == RunStatus([NpsCalculatorRunning], fails)
      ensures item.outcome != SCHEDULED ==> effects == old(effects) && st == Done
    {
      st := Done;
      if item.outcome == SCHEDULED {
        var ok := Invoke(NpsCalculatorRunning, fails);
        if !ok {
          st := Raised(CollaboratorRaised(NpsCalculatorRunning));
        }
      }
    }

    /** `handle_calculate_nps_onboarding`: recomputes the onboarding NPS; the row stays Scheduled. */
    method HandleCalculateNpsOnboarding(item: Entry, fails: set<Call>) returns (st: Status)
      modifies this
      ensures After(Current(), st) == CalculateNpsStep(item, NpsCalculatorOnboarding, fails, old(Current()))
      ensures rows == old(rows) && progress == old(progress)
      ensures item.outcome == SCHEDULED ==>
        effects == old(effects) + [NpsCalculatorOnboarding] && st == RunStatus([NpsCalculatorOnboarding], fails)
      ensures item.outcome != SCHEDULED ==> effects == old(effects) && st == Done
    {
      st := Done;
      if item.outcome == SCHEDULED {
        var ok := Invoke(NpsCalculatorOnboarding, fails);
        if !ok {
          st := Raised(CollaboratorRaised(NpsCalculatorOnboarding));
        }
      }
    }

    /**
     * `handle_kickoff_questionnaire_completed`: when the email has a progress
     * record, marks the questionnaire scheduled and files a Salesforce row
     * carrying the payload; without one it does nothing.
     */
    method HandleKickoffQuestionnaireCompleted(item: Entry, now: int) returns (st: Status)
      modifies this
      ensures After(Current(), st) == KickoffQuestionnaireCompletedStep(item, now, old(Current()))
      ensures old(rows) <= rows && progress.Keys == old(progress).Keys && old(effects) <= effects
      ensures st == Done && effects == old(effects)
      ensures ScheduledAt(item, 1) && item.email in old(progress) ==>
        && progress == old(progress)[item.email := old(progress)[item.email].(questionnaireStatus := "scheduled")]
        && rows == old(rows) + [NewEntry(item.email, KICKOFF_QUESTIONNAIRE_COMPLETED, HYKE_SALESFORCE, 1, item.data, now, None)]
      ensures !(ScheduledAt(item, 1) && item.email in old(progress)) ==>
        rows == old(rows) && progress == old(progress)
    {
      st := Done;
      if ScheduledAt(item, 1) && item.email in progress {
        progress := progress[item.email := progress[item.email].(questionnaireStatus := "scheduled")];
        Append(NewEntry(item.email, KICKOFF_QUESTIONNAIRE_COMPLETED, HYKE_SALESFORCE, 1, item.data, now, None));
      }
    }

    /**
     * The shared shape of the kickoff-call and transition-plan handlers: the
     * progress record must exist; its questionnaire status is set and a
     * Salesforce row is filed.
     */
    method MarkQuestionnaire(item: Entry, status: string, process: string, data: string, now: int) returns (st: Status)
      requires ScheduledAt(item, 1)
      modifies this
      ensures After(Current(), st) == MarkQuestionnaireStep(item, status, process, data, now, old(Current()))
      ensures old(rows) <= rows && progress.Keys == old(progress).Keys && old(effects) <= effects
      ensures item.email !in old(progress) ==>
        st == Raised(ProgressDoesNotExist(item.email)) && rows == old(rows) && progress == old(progress)
      ensures item.email in old(progress) ==>
        && st == Done
        && progress == old(progress)[item.email := old(progress)[item.email].(questionnaireStatus := status)]
        && rows == old(rows) + [NewEntry(item.email, process, HYKE_SALESFORCE, 1, data, now, None)]
      ensures effects == old(effects)
    {
      if item.email !in progress {
        st := Raised(ProgressDoesNotExist(item.email));
        return;
      }
      progress := progress[item.email := progress[item.email].(questionnaireStatus := status)];
      Append(NewEntry(item.email, process, HYKE_SALESFORCE, 1, data, now, None));
      st := Done;
    }

    /** `handle_kickoff_call_scheduled`: questionnaire "scheduled", and a Salesforce row carrying the payload. */
    method HandleKickoffCallScheduled(item: Entry, now: int) returns (st: Status)
      modifies this
      ensures After(Current(), st) == KickoffCallScheduledStep(item, now, old(Current()))
      ensures old(rows) <= rows && progress.Keys == old(progress).Keys && old(effects) <= effects
      ensures effects == old(effects)
      ensures ScheduledAt(item, 1) && item.email !in old(progress) ==>
        st == Raised(ProgressDoesNotExist(item.email)) && rows == old(rows) && progress == old(progress)
      ensures ScheduledAt(item, 1) && item.email in old(progress) ==>
        && st == Done
        && progress == old(progress)[item.email := old(progress)[item.email].(questionnaireStatus := "scheduled")]
        && rows == old(rows) + [NewEntry(item.email, KICKOFF_CALL_SCHEDULED, HYKE_SALESFORCE, 1, item.data, now, None)]
      ensures !ScheduledAt(item, 1) ==> rows == old(rows) && progress == old(progress) && st == Done
    {
      st := Done;
      if ScheduledAt(item, 1) {
        st := MarkQuestionnaire(item, "scheduled", KICKOFF_CALL_SCHEDULED, item.data, now);
      }
    }

    /** `handle_kickoff_call_cancelled`: questionnaire "reschedule", and a Salesforce row with the default payload. */
    method HandleKickoffCallCancelled(item: Entry, now: int) returns (st: Status)
      modifies this
      ensures After(Current(), st) == KickoffCallCancelledStep(item, now, old(Current()))
      ensures old(rows) <= rows && progress.Keys == old(progress).Keys && old(effects) <= effects
      ensures effects == old(effects)
      ensures ScheduledAt(item, 1) && item.email !in old(progress) ==>
        st == Raised(ProgressDoesNotExist(item.email)) && rows == old(rows) && progress == old(progress)
      ensures ScheduledAt(item, 1) && item.email in old(progress) ==>
        && st == Done
        && progress == old(progress)[item.email := old(progress)[item.email].(questionnaireStatus := "reschedule")]
        && rows == old(rows) + [NewEntry(item.email, KICKOFF_CALL_CANCELLED, HYKE_SALESFORCE, 1, DEFAULT_DATA, now, None)]
      ensures !ScheduledAt(item, 1) ==> rows == old(rows) && progress == old(progress) && st == Done
    {
      st := Done;
      if ScheduledAt(item, 1) {
        st := MarkQuestionnaire(item, "reschedule", KICKOFF_CALL_CANCELLED, DEFAULT_DATA, now);
      }
    }

    /**
     * `handle_transition_plan_submitted`: questionnaire "submitted", a
     * Salesforce row, and at most one Scheduled welcome email due tomorrow.
     */
    method HandleTransitionPlanSubmitted(item: Entry, now: int) returns (st: Status)
      modifies this
      ensures After(Current(), st) == TransitionPlanSubmittedStep(item, now, old(Current()))
      ensures old(rows) <= rows && progress.Keys == old(progress).Keys && old(effects) <= effects
      ensures effects == old(effects)
      ensures ScheduledAt(item, 1) && item.email !in old(progress) ==>
        st == Raised(ProgressDoesNotExist(item.email)) && rows == old(rows) && progress == old(progress)
      ensures ScheduledAt(item, 1) && item.email in old(progress) ==>
        var filed := old(rows) + [NewEntry(item.email, TRANSITION_PLAN_SUBMITTED, HYKE_SALESFORCE, 1, DEFAULT_DATA, now, None)];
        var q := ScheduleEmailLookup(item.email, WELCOME_SUBJECT);
        && progress == old(progress)[item.email := old(progress)[item.email].(questionnaireStatus := "submitted")]
        && (|Filter(filed, Exact(q))| >= 2 ==> st == Raised(MultipleObjectsReturned(q)) && rows == filed)
        && (|Filter(filed, Exact(q))| <= 1 ==>
              st == Done && rows == AfterGetOrCreate(filed, q, ScheduleEmailEntry(item.email, WELCOME_SUBJECT, now)))
      ensures !ScheduledAt(item, 1) ==> rows == old(rows) && progress == old(progress) && st == Done
    {
      st := Done;
      if ScheduledAt(item, 1) {
        st := MarkQuestionnaire(item, "submitted", TRANSITION_PLAN_SUBMITTED, DEFAULT_DATA, now);
        if st.Raised? {
          return;
        }
        var q := ScheduleEmailLookup(item.email, WELCOME_SUBJECT);
        var r := GetOrCreate(q, ScheduleEmailEntry(item.email, WELCOME_SUBJECT, now));
        if r.Multiple? {
          st := Raised(MultipleObjectsReturned(q));
        }
      }
    }

    /** `handle_bk_training_call_scheduled`: files a Salesforce row carrying the payload. */
    method HandleBkTrainingCallScheduled(item: Entry, now: int) returns (st: Status)
      modifies this
      ensures After(Current(), st) == BkTrainingCallScheduledStep(item, now, old(Current()))
      ensures st == Done && progress == old(progress) && effects == old(effects)
      ensures rows == old(rows) +
        (if ScheduledAt(item, 1) then [NewEntry(item.email, BK_TRAINING_CALL_SCHEDULED, HYKE_SALESFORCE, 1, item.data, now, None)] else [])
    {
      st := Done;
      if ScheduledAt(item, 1) {
        Append(NewEntry(item.email, BK_TRAINING_CALL_SCHEDULED, HYKE_SALESFORCE, 1, item.data, now, None));
      }
    }

    /**
     * `handle_bk_training_call_cancelled`: bookkeeping set-up "reschedule", a
     * follow-up on the daily queue due in two days, a Salesforce row, and the
     * row itself completed.
     */
    method HandleBkTrainingCallCancelled(id: nat, item: Entry, now: int) returns (st: Status)
      requires id < |rows|
      modifies this
      ensures After(Current(), st) == BkTrainingCallCancelledStep(id, item, now, old(Current()))
      ensures RowsEvolve(old(rows), rows, now, Some(id), item) && progress.Keys == old(progress).Keys
      ensures effects == old(effects)
      ensures ScheduledAt(item, 1) && item.email !in old(progress) ==>
        st == Raised(ProgressDoesNotExist(item.email)) && rows == old(rows) && progress == old(progress)
      ensures ScheduledAt(item, 1) && item.email in old(progress) ==>
        && st == Done
        && progress == old(progress)[item.email := old(progress)[item.email].(bookkeepingSetupStatus := "reschedule")]
        && rows == (old(rows) + [NewEntry(item.email, FOLLOWUP_BK_TRAINING, HYKE_DAILY, 1, DEFAULT_DATA, now, Some(now + TWO_DAYS)),
                                 NewEntry(item.email, BK_TRAINING_CALL_CANCELLED, HYKE_SALESFORCE, 1, DEFAULT_DATA, now, None)])
                   [id := Complete(item, now)]
      ensures !ScheduledAt(item, 1) ==> rows == old(rows) && progress == old(progress) && st == Done
    {
      st := Done;
      if ScheduledAt(item, 1) {
        if item.email !in progress {
          st := Raised(ProgressDoesNotExist(item.email));
          return;
        }
        progress := progress[item.email := progress[item.email].(bookkeepingSetupStatus := "reschedule")];
        Append(NewEntry(item.email, FOLLOWUP_BK_TRAINING, HYKE_DAILY, 1, DEFAULT_DATA, now, Some(now + TWO_DAYS)));
        Append(NewEntry(item.email, BK_TRAINING_CALL_CANCELLED, HYKE_SALESFORCE, 1, DEFAULT_DATA, now, None));
        Save(id, Complete(item, now));
      }
    }

    /**
     * `handle_bank_connect`: when `BankConnectDue`, sends the stage's one
     * email and then completes the row; a raise leaves the row as it was.
     * A stage-3 row inside its cooldown is left alone.
     */
    method HandleBankConnect(id: nat, item: Entry, now: int, fails: set<Call>) returns (st: Status)
      requires id < |rows|
      modifies this
      ensures After(Current(), st) == BankConnectStep(id, item, now, fails, old(Current()))
      ensures RowsEvolve(old(rows), rows, now, Some(id), item)
      ensures progress == old(progress)
      ensures BankConnectDue(item, now) ==>
        var c := SendTransactionalEmail(item.email, BankConnectTemplate(item.processState));
        && effects == old(effects) + [c]
        && st == RunStatus([c], fails)
        && rows == if c in fails then old(rows) else old(rows)[id := Complete(item, now)]
      ensures !BankConnectDue(item, now) ==> rows == old(rows) && effects == old(effects) && st == Done
    {
      st := Done;
      if !BankConnectDue(item, now) {
        return;
      }
      var c := SendTransactionalEmail(item.email, BankConnectTemplate(item.processState));
      var ok := Invoke(c, fails);
      if !ok {
        st := Raised(CollaboratorRaised(c));
        return;
      }
      Save(id, Complete(item, now));
    }

    /**
     * `process_mapping[item.process](item)`: routes the row to the handler of
     * its process; a name outside the table changes nothing. Whatever the
     * handler, earlier rows only ever get completed, and then only open
     * annual-report reminders and, for the three handlers that save
     * themselves, the row itself.
     */
    method Dispatch(id: nat, item: Entry, now: int, templates: seq<Template>, fails: set<Call>) returns (st: Status)
      requires id < |rows|
      requires ValidTemplates(templates, YearOf(now))
      modifies this
      ensures After(Current(), st) == Step(id, item, now, templates, fails, old(Current()))
      ensures ProcessOf(item.process).Other? ==>
        rows == old(rows) && progress == old(progress) && effects == old(effects) && st == Done
      ensures RowsEvolve(old(rows), rows, now, if SavesItself(ProcessOf(item.process)) then Some(id) else None, item)
      ensures progress.Keys == old(progress).Keys
      ensures old(effects) <= effects
    {
      ghost var s0 := Current();
      match ProcessOf(item.process) {
        case ClientOnboardingSurvey => st := HandleClientOnboardingSurvey(item, fails);
        case PaymentErrorEmail => st := HandlePaymentErrorEmail(item, fails);
        case RunningFlow => st := HandleRunningFlow(item, now, templates, fails);
        case AnnualReportUploaded => st := HandleAnnualReportUploaded(id, item, now, fails);
        case CalculateNpsRunning => st := HandleCalculateNpsRunning(item, fails);
        case CalculateNpsOnboarding => st := HandleCalculateNpsOnboarding(item, fails);
        case KickoffQuestionnaireCompleted => st := HandleKickoffQuestionnaireCompleted(item, now);
        case KickoffCallScheduled => st := HandleKickoffCallScheduled(item, now);
        case KickoffCallCancelled => st := HandleKickoffCallCancelled(item, now);
        case TransitionPlanSubmitted => st := HandleTransitionPlanSubmitted(item, now);
        case BkTrainingCallScheduled => st := HandleBkTrainingCallScheduled(item, now);
        case BkTrainingCallCancelled => st := HandleBkTrainingCallCancelled(id, item, now);
        case BankConnect => st := HandleBankConnect(id, item, now, fails);
        case Other(_) => st := Done;
      }
      StepEvolves(id, item, now, templates, fails, s0);
    }

    /**
     * `scheduled_system`: one poll. The due rows (Scheduled, on the daily
     * queue) are fixed when the poll starts and visited in ledger order,
     * each handed to `Dispatch` as it was at that moment; the first raise
     * ends the poll. `visited` lists the rows handed over.
     */
    method Poll(now: int, templates: seq<Template>, fails: set<Call>) returns (visited: seq<nat>, st: Status)
      requires ValidTemplates(templates, YearOf(now))
      modifies this
      ensures PollResult(Current(), st, visited) == ScheduledSystem(now, templates, fails, old(Current()))
      ensures OnlyCompleted(old(rows), rows, now, visited)
      ensures progress.Keys == old(progress).Keys
      ensures old(effects) <= effects
    {
      ghost var s0 := Current();
      var snapshot := rows;
      var due := Filter(snapshot, Due);
      var k := 0;
      st := Done;
      while k < |due| && st.Done?
        invariant 0 <= k <= |due| && snapshot == s0.rows && |snapshot| <= |rows|
        invariant st.Done? ==> ScheduledSystem(now, templates, fails, s0) == PollFrom(due, k, snapshot, now, templates, fails, Current())
        invariant st.Raised? ==> ScheduledSystem(now, templates, fails, s0) == PollResult(Current(), st, due[..k])
      {
        var id := due[k];
        ghost var pre := Current();
        st := Dispatch(id, snapshot[id], now, templates, fails);
        PollFromStep(due, k, snapshot, now, templates, fails, pre, After(Current(), st));
        k := k + 1;
      }
      visited := due[..k];
      if st.Done? {
        assert visited == due;
      }
      PollFrame(now, templates, fails, s0);
    }
  }

  /** The calls of the stage-1 running flow, in the order it makes them. */
  function SetUpCalls(email: string): seq<Call> {
    [ScheduleOnboardingSurveySequence(email), ScheduleNextRunningSurveySequence(email), CreateDropboxFolders(email)]
  }

  /**
   * The set-up jobs run in the source's order: the onboarding-survey
   * sequence is always scheduled, the Dropbox folders are created only when
   * neither survey sequence raised, and the run is Done exactly when none of
   * the three raised.
   */
  lemma SetUpCallsOrder(email: string, fails: set<Call>)
    ensures var made := Performed(SetUpCalls(email), fails);
      made != [] && made[0] == ScheduleOnboardingSurveySequence(email)
    ensures CreateDropboxFolders(email) in Performed(SetUpCalls(email), fails) <==>
      ScheduleOnboardingSurveySequence(email) !in fails && ScheduleNextRunningSurveySequence(email) !in fails
    ensures RunStatus(SetUpCalls(email), fails).Done? <==>
      && ScheduleOnboardingSurveySequence(email) !in fails
      && ScheduleNextRunningSurveySequence(email) !in fails
      && CreateDropboxFolders(email) !in fails
  {
    var calls := SetUpCalls(email);
    assert calls[1..][1..] == [CreateDropboxFolders(email)];
    assert Performed(calls[1..][1..], fails) == [CreateDropboxFolders(email)] by {
      assert calls[1..][1..][1..] == [];
    }
  }
}
