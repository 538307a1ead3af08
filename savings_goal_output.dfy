/** The responses that carry a savings goal's id, and their mapping to the domain `SavingsGoal`. */
module SavingsGoalOutput {
  import opened Wrappers
  import opened Numerics
  import Models

  /** The answer to creating a savings goal. */
  datatype CreateSavingsGoalOutput = CreateSavingsGoalOutput(
    savingsGoalID: Option<Models.UUID>,
    success: Option<bool>
  )

  /** `SavingsGoal.init?(output:)`: only a confirmed success with an id gives a goal. */
  function FromCreateOutput(output: CreateSavingsGoalOutput): (r: Option<Models.SavingsGoal>)
    ensures r.Some? <==> output.success == Some(true) && output.savingsGoalID.Some?
    ensures r.Some? ==> r.value.id == output.savingsGoalID.value
  {
    if output.success != Some(true) then None
    else if output.savingsGoalID.None? then None
    else Some(Models.SavingsGoal(output.savingsGoalID.value))
  }

  /** An id alone is not enough: a missing or false `success` gives no goal. */
  lemma CreateOutputNeedsSuccess(id: Models.UUID, success: Option<bool>)
    ensures FromCreateOutput(CreateSavingsGoalOutput(Some(id), success)).Some? <==> success == Some(true)
  {
  }

  /** The state field of a listed goal; the record requires it. */
  datatype State = Creating | Active | Archiving | Archived | Restoring | Pending
  {
    function RawValue(): string {
      match this
      case Creating => "CREATING"
      case Active => "ACTIVE"
      case Archiving => "ARCHIVING"
      case Archived => "ARCHIVED"
      case Restoring => "RESTORING"
      case Pending => "PENDING"
    }
  }

  /** One element of `savingsGoalList`. */
  datatype SavingsGoalRecord = SavingsGoalRecord(
    savingsGoalID: Option<Models.UUID>,
    name: Option<string>,
    target: Option<Models.CurrencyAndAmount>,
    totalSaved: Option<Models.CurrencyAndAmount>,
    savedPercentage: Option<Int64>,
    state: State
  )

  datatype GetSavingsGoalsOutput = GetSavingsGoalsOutput(savingsGoalList: seq<SavingsGoalRecord>)

  /** `SavingsGoal.init?(goal:)`: `nil` exactly when the id is missing. */
  function FromGoalRecord(goal: SavingsGoalRecord): (r: Option<Models.SavingsGoal>)
    ensures r.Some? <==> goal.savingsGoalID.Some?
    ensures r.Some? ==> r.value.id == goal.savingsGoalID.value
  {
    if goal.savingsGoalID.None? then None
    else Some(Models.SavingsGoal(goal.savingsGoalID.value))
  }

  /**
   * Only the id is read: records with the same id map to the same goal,
   * whatever their state, so an archived goal still maps.
   */
  lemma FromGoalRecordReadsOnlyId(a: SavingsGoalRecord, b: SavingsGoalRecord)
    requires a.savingsGoalID == b.savingsGoalID
    ensures FromGoalRecord(a) == FromGoalRecord(b)
  {
  }
}
