/**
 * The process names the dispatch table is keyed by, and the formation-type
 * tags that name the queues a row belongs to. The thirteen names become the
 * constructors of `Process`; any other name is `Other(name)`.
 */
module Constants {

  const CLIENT_ONBOARDING_SURVEY := "Client Onboarding Survey"
  const PAYMENT_ERROR_EMAIL := "Payment error email"
  const RUNNING_FLOW := "Running flow"
  const ANNUAL_REPORT_UPLOADED := "Annual Report Uploaded"
  const CALCULATE_NPS_RUNNING := "Calculate NPS Running"
  const CALCULATE_NPS_ONBOARDING := "Calculate NPS Onboarding"
  const KICKOFF_QUESTIONNAIRE_COMPLETED := "Kickoff Questionnaire Completed"
  const KICKOFF_CALL_SCHEDULED := "Kickoff Call Scheduled"
  const KICKOFF_CALL_CANCELLED := "Kickoff Call Cancelled"
  const TRANSITION_PLAN_SUBMITTED := "Transition Plan Submitted"
  const BK_TRAINING_CALL_SCHEDULED := "BK Training Call Scheduled"
  const BK_TRAINING_CALL_CANCELLED := "BK Training Call Cancelled"
  const BANK_CONNECT := "Bank connect"

  const HYKE_SYSTEM := "Hyke System"
  const HYKE_DAILY := "Hyke Daily"
  const HYKE_SALESFORCE := "Hyke Salesforce"

  /** The keys of the dispatch table. */
  const KNOWN_PROCESSES: set<string> := {
    CLIENT_ONBOARDING_SURVEY, PAYMENT_ERROR_EMAIL, RUNNING_FLOW, ANNUAL_REPORT_UPLOADED,
    CALCULATE_NPS_RUNNING, CALCULATE_NPS_ONBOARDING, KICKOFF_QUESTIONNAIRE_COMPLETED,
    KICKOFF_CALL_SCHEDULED, KICKOFF_CALL_CANCELLED, TRANSITION_PLAN_SUBMITTED,
    BK_TRAINING_CALL_SCHEDULED, BK_TRAINING_CALL_CANCELLED, BANK_CONNECT
  }

  datatype Process =
    | ClientOnboardingSurvey
    | PaymentErrorEmail
    | RunningFlow
    | AnnualReportUploaded
    | CalculateNpsRunning
    | CalculateNpsOnboarding
    | KickoffQuestionnaireCompleted
    | KickoffCallScheduled
    | KickoffCallCancelled
    | TransitionPlanSubmitted
    | BkTrainingCallScheduled
    | BkTrainingCallCancelled
    | BankConnect
    | Other(name: string)

  function NameOf(p: Process): string {
    match p
    case ClientOnboardingSurvey => CLIENT_ONBOARDING_SURVEY
    case PaymentErrorEmail => PAYMENT_ERROR_EMAIL
    case RunningFlow => RUNNING_FLOW
    case AnnualReportUploaded => ANNUAL_REPORT_UPLOADED
    case CalculateNpsRunning => CALCULATE_NPS_RUNNING
    case CalculateNpsOnboarding => CALCULATE_NPS_ONBOARDING
    case KickoffQuestionnaireCompleted => KICKOFF_QUESTIONNAIRE_COMPLETED
    case KickoffCallScheduled => KICKOFF_CALL_SCHEDULED
    case KickoffCallCancelled => KICKOFF_CALL_CANCELLED
    case TransitionPlanSubmitted => TRANSITION_PLAN_SUBMITTED
    case BkTrainingCallScheduled => BK_TRAINING_CALL_SCHEDULED
    case BkTrainingCallCancelled => BK_TRAINING_CALL_CANCELLED
    case BankConnect => BANK_CONNECT
    case Other(name) => name
  }

  /**
   * The dispatch-table lookup: the handler a process name selects. A name
   * outside the table is `Other`, for which the poll does nothing.
   */
  function ProcessOf(name: string): (p: Process)
    ensures NameOf(p) == name
    ensures p.Other? <==> name !in KNOWN_PROCESSES
  {
    if name == CLIENT_ONBOARDING_SURVEY then ClientOnboardingSurvey
    else if name == PAYMENT_ERROR_EMAIL then PaymentErrorEmail
    else if name == RUNNING_FLOW then RunningFlow
    else if name == ANNUAL_REPORT_UPLOADED then AnnualReportUploaded
    else if name == CALCULATE_NPS_RUNNING then CalculateNpsRunning
    else if name == CALCULATE_NPS_ONBOARDING then CalculateNpsOnboarding
    else if name == KICKOFF_QUESTIONNAIRE_COMPLETED then KickoffQuestionnaireCompleted
    else if name == KICKOFF_CALL_SCHEDULED then KickoffCallScheduled
    else if name == KICKOFF_CALL_CANCELLED then KickoffCallCancelled
    else if name == TRANSITION_PLAN_SUBMITTED then TransitionPlanSubmitted
    else if name == BK_TRAINING_CALL_SCHEDULED then BkTrainingCallScheduled
    else if name == BK_TRAINING_CALL_CANCELLED then BkTrainingCallCancelled
    else if name == BANK_CONNECT then BankConnect
    else Other(name)
  }

  /** Every process the table knows is reached from its own name, so no handler shadows another. */
  lemma ProcessOfNameOf(p: Process)
    requires p.Other? ==> p.name !in KNOWN_PROCESSES
    ensures ProcessOf(NameOf(p)) == p
  {
    match p
    case Other(name) =>
    case _ =>
      assert NameOf(p) in KNOWN_PROCESSES;
  }
}
