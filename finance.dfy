/** The persisted financial document and its records (src/types/finance.ts).
    Money and percentages are exact reals; a day of month is the integer that
    parseInt produced, which nothing constrains to 1..31. */
module Finance {

  datatype Option<+T> = None | Some(value: T) {
    function GetOr(default: T): T {
      match this
      case Some(v) => v
      case None => default
    }
  }

  /** An opaque record id; the application produces it from the clock. */
  type Id = string

  /** A recurring income event. */
  datatype PaymentDay = PaymentDay(id: Id, day: int, amount: real, description: Option<string>)

  /** A named savings target. */
  datatype SavingsGoal = SavingsGoal(
    id: Id, name: string, targetAmount: real, currentAmount: real, icon: string, color: string)

  /** The root document. `numbersVisible` is declared by the type but absent from
      the default document, so it is optional here. */
  datatype FinancialData = FinancialData(
    paymentDays: seq<PaymentDay>,
    savingsPercentage: real,
    savingsGoals: seq<SavingsGoal>,
    monthlyExpenses: real,
    userName: string,
    numbersVisible: Option<bool>)

  /** A payment day without its id, as handed to addPaymentDay. */
  datatype PaymentInput = PaymentInput(day: int, amount: real, description: Option<string>)

  /** A savings goal without its id, as handed to addSavingsGoal. */
  datatype GoalInput = GoalInput(
    name: string, targetAmount: real, currentAmount: real, icon: string, color: string)

  /** The fields a caller of updatePaymentDay may supply; a None field is kept. */
  datatype PaymentDayPatch = PaymentDayPatch(
    id: Option<Id>, day: Option<int>, amount: Option<real>, description: Option<string>)

  /** `{ ...input, id }` */
  function WithId(input: PaymentInput, id: Id): PaymentDay
  {
    PaymentDay(id, input.day, input.amount, input.description)
  }

  /** `{ ...input, id }` */
  function GoalWithId(input: GoalInput, id: Id): SavingsGoal
  {
    SavingsGoal(id, input.name, input.targetAmount, input.currentAmount, input.icon, input.color)
  }
}
