/**
 * The external jobs the handlers call. Their internals are not part of this
 * model: each call is recorded as an event in the engine's trace, and whether
 * it raises is decided by an oracle, the set of calls that fail.
 */
module Collaborators {
  import opened Wrappers

  datatype Call =
      /** `send_transactional_email(email, template)` */
    | SendTransactionalEmail(email: string, template: string)
      /** `send_client_onboarding_survey(email)` */
    | SendClientOnboardingSurvey(email: string)
      /** `schedule_onboarding_survey_sequence(email)` */
    | ScheduleOnboardingSurveySequence(email: string)
      /** `schedule_next_running_survey_sequence(email)` */
    | ScheduleNextRunningSurveySequence(email: string)
      /** `create_dropbox_folders(email)` */
    | CreateDropboxFolders(email: string)
      /** `nps_calculator_running()` */
    | NpsCalculatorRunning
      /** `nps_calculator_onboarding()` */
    | NpsCalculatorOnboarding
      /** `next_annualreport_reminder(email, name, state)`; a null state is `None`. */
    | NextAnnualReportReminder(email: string, reportName: string, reportState: Option<string>)

  /**
   * The calls a straight-line run of `calls` makes: each in order, up to and
   * including the first one that raises, after which nothing further runs.
   */
  function Performed(calls: seq<Call>, fails: set<Call>): (made: seq<Call>)
    ensures |made| <= |calls| && made == calls[..|made|]
    ensures forall k :: 0 <= k < |made| - 1 ==> made[k] !in fails
    ensures |made| < |calls| ==> made != [] && made[|made| - 1] in fails
  {
    if calls == [] then []
    else if calls[0] in fails then [calls[0]]
    else [calls[0]] + Performed(calls[1..], fails)
  }

  /** The call that raised during a straight-line run of `calls`, if any did. */
  function FirstRaised(calls: seq<Call>, fails: set<Call>): (r: Option<Call>)
    ensures r.None? <==> forall k :: 0 <= k < |calls| ==> calls[k] !in fails
    ensures r.Some? ==> r.value in fails && r.value in calls
    ensures r.Some? ==> Performed(calls, fails)[|Performed(calls, fails)| - 1] == r.value
  {
    var made := Performed(calls, fails);
    if made != [] && made[|made| - 1] in fails then Some(made[|made| - 1]) else None
  }

  /** A single call raises exactly when it is one of the failing calls. */
  lemma FirstRaisedSingle(c: Call, fails: set<Call>)
    ensures Performed([c], fails) == [c]
    ensures FirstRaised([c], fails) == if c in fails then Some(c) else None
  {
    assert [c][1..] == [];
  }
}
