/** The settings page (src/pages/Configurar.tsx): the choice lists of the
    new-goal form, the form's own fields, and the handlers that write the
    user's name, the monthly expenses and new goals to the store. */
module ConfigurarPage {
  import opened Finance
  import opened NumberText
  import opened FinancialDataHook
  import SavingsGoalCard
  import AddPaymentForm

  /** The values of `GOAL_ICONS`, in display order. */
  const GoalIcons: seq<string> := ["plane", "shield", "home", "car", "graduation", "gift", "target"]

  /** The values of `GOAL_COLORS`, in display order. */
  const GoalColors: seq<string> := ["accent", "warning", "primary"]

  const DefaultIcon: string := "target"
  const DefaultColor: string := "accent"

  /** The icon list offers exactly the keys the goal card knows, each once, and
      the colour list three distinct colours; both defaults are offered. */
  lemma ChoiceLists()
    ensures forall i, j :: 0 <= i < j < |GoalIcons| ==> GoalIcons[i] != GoalIcons[j]
    ensures forall i, j :: 0 <= i < j < |GoalColors| ==> GoalColors[i] != GoalColors[j]
    ensures (set k | k in GoalIcons) == SavingsGoalCard.IconKeys
    ensures DefaultIcon in GoalIcons && DefaultColor in GoalColors
  {
    assert (set k | k in GoalIcons) == SavingsGoalCard.IconKeys by {
      forall k | k in SavingsGoalCard.IconKeys
        ensures k in GoalIcons
      {
        assert k == GoalIcons[0] || k == GoalIcons[1] || k == GoalIcons[2] || k == GoalIcons[3]
            || k == GoalIcons[4] || k == GoalIcons[5] || k == GoalIcons[6];
      }
    }
  }

  /** Every icon the form offers shows its own card icon, so a goal created
      here falls back to the target icon only when "target" was chosen. */
  lemma OfferedIconsRender(key: string)
    requires key in GoalIcons
    ensures SavingsGoalCard.IconFor(key) == SavingsGoalCard.Target <==> key == "target"
  {
    ChoiceLists();
    SavingsGoalCard.IconKeysDistinct();
  }

  /** The goal `handleAddGoal` hands to `addSavingsGoal`: nothing saved yet. */
  function NewGoal(name: string, targetText: string, icon: string, color: string): (g: GoalInput)
    requires IsNumberText(targetText) && targetText != ""
    ensures ParseFloat(targetText) == Some(g.targetAmount)
    ensures g.currentAmount == 0.0
    ensures g.name == name && g.icon == icon && g.color == color
  {
    ParseFloatOfNumberText(targetText);
    GoalInput(name, ParseFloat(targetText).value, 0.0, icon, color)
  }

  class SettingsState {
    var showGoalForm: bool
    var goalName: string
    var goalTarget: string
    var goalIcon: string
    var goalColor: string
    var expenses: string
    var userName: string

    /** The number fields hold what a numeric input delivers, and the two
        selects hold one of their options. */
    ghost predicate Valid()
      reads this
    {
      IsNumberText(goalTarget) && IsNumberText(expenses)
      && goalIcon in GoalIcons && goalColor in GoalColors
    }

    /** The expenses field starts from `data.monthlyExpenses.toString()`,
        given here as `expensesText`: a number text that reads back as the
        stored figure. The name field starts from the stored name. */
    constructor (d: FinancialData, expensesText: string)
      requires IsNumberText(expensesText) && ParseFloat(expensesText) == Some(d.monthlyExpenses)
      ensures Valid()
      ensures !showGoalForm && goalName == "" && goalTarget == ""
      ensures goalIcon == DefaultIcon && goalColor == DefaultColor
      ensures expenses == expensesText && userName == d.userName
      ensures ParseFloatOrZero(expenses) == d.monthlyExpenses
    {
      showGoalForm := false;
      goalName, goalTarget := "", "";
      goalIcon, goalColor := DefaultIcon, DefaultColor;
      expenses := expensesText;
      userName := d.userName;
    }

    method OpenGoalForm()
      modifies this`showGoalForm
      ensures showGoalForm
    {
      showGoalForm := true;
    }

    /** The cancel button hides the form and keeps what was typed. */
    method CancelGoalForm()
      modifies this`showGoalForm
      ensures !showGoalForm
    {
      showGoalForm := false;
    }

    method SetGoalName(text: string)
      modifies this`goalName
      ensures goalName == text
    {
      goalName := text;
    }

    method SetGoalTarget(text: string)
      requires Valid() && IsNumberText(text)
      modifies this`goalTarget
      ensures Valid() && goalTarget == text
    {
      goalTarget := text;
    }

    method SetGoalIcon(key: string)
      requires Valid() && key in GoalIcons
      modifies this`goalIcon
      ensures Valid() && goalIcon == key
    {
      goalIcon := key;
    }

    method SetGoalColor(color: string)
      requires Valid() && color in GoalColors
      modifies this`goalColor
      ensures Valid() && goalColor == color
    {
      goalColor := color;
    }

    method SetExpenses(text: string)
      requires Valid() && IsNumberText(text)
      modifies this`expenses
      ensures Valid() && expenses == text
    {
      expenses := text;
    }

    method SetUserName(text: string)
      modifies this`userName
      ensures userName == text
    {
      userName := text;
    }

    /** `handleAddGoal`: with a name and a target typed in, add the goal with
        the fresh id `newId` and reset the form to its defaults; otherwise do
        nothing. The target is not checked to be positive. */
    method HandleAddGoal(store: FinancialDataStore, newId: Id)
      requires Valid()
      modifies this, store
      ensures Valid()
      ensures expenses == old(expenses) && userName == old(userName)
      ensures old(goalName) == "" || old(goalTarget) == "" ==>
        store.data == old(store.data) && store.stored == old(store.stored)
        && goalName == old(goalName) && goalTarget == old(goalTarget)
        && goalIcon == old(goalIcon) && goalColor == old(goalColor)
        && showGoalForm == old(showGoalForm)
      ensures old(goalName) != "" && old(goalTarget) != "" ==>
        store.data == old(store.data).(savingsGoals := old(store.data.savingsGoals)
          + [GoalWithId(NewGoal(old(goalName), old(goalTarget), old(goalIcon), old(goalColor)), newId)])
        && store.Persisted()
        && goalName == "" && goalTarget == "" && goalIcon == DefaultIcon && goalColor == DefaultColor
        && !showGoalForm
    {
      if goalName == "" || goalTarget == "" {
        return;
      }
      store.AddSavingsGoal(NewGoal(goalName, goalTarget, goalIcon, goalColor), newId);
      goalName := "";
      goalTarget := "";
      goalIcon := DefaultIcon;
      goalColor := DefaultColor;
      showGoalForm := false;
    }

    /** `handleExpensesBlur`: `parseFloat(expenses) || 0`, so an empty field
        stores zero. */
    method HandleExpensesBlur(store: FinancialDataStore)
      modifies store
      ensures store.data == old(store.data).(monthlyExpenses := ParseFloatOrZero(expenses))
      ensures store.Persisted()
    {
      store.UpdateMonthlyExpenses(ParseFloatOrZero(expenses));
    }

    /** `handleUserNameBlur`: the name is stored exactly as typed. */
    method HandleUserNameBlur(store: FinancialDataStore)
      modifies store
      ensures store.data == old(store.data).(userName := userName)
      ensures store.Persisted()
    {
      store.UpdateUserName(userName);
    }
  }

  /** `<AddPaymentForm onAdd={addPaymentDay} />`: submitting the form hands its
      record to the store, which appends it under the fresh id `newId`, and the
      form resets and collapses; with day or amount empty neither the form nor
      the store changes. */
  method AddPaymentFromForm(form: AddPaymentForm.FormState, store: FinancialDataStore, newId: Id)
    requires form.Valid()
    modifies form, store
    ensures form.Valid()
    ensures old(form.day) == "" || old(form.amount) == "" ==>
      form.day == old(form.day) && form.amount == old(form.amount)
      && form.description == old(form.description) && form.isExpanded == old(form.isExpanded)
      && form.added == old(form.added) && store.data == old(store.data) && store.stored == old(store.stored)
    ensures old(form.day) != "" && old(form.amount) != "" ==>
      var p := AddPaymentForm.Submitted(old(form.day), old(form.amount), old(form.description));
      form.added == old(form.added) + [p]
      && form.day == "" && form.amount == "" && form.description == "" && !form.isExpanded
      && store.data == old(store.data).(paymentDays := old(store.data.paymentDays) + [WithId(p, newId)])
      && store.Persisted()
  {
    var submitting := form.day != "" && form.amount != "";
    form.HandleSubmit();
    if submitting {
      store.AddPaymentDay(form.added[|form.added| - 1], newId);
    }
  }

  /** Leaving the expenses field untouched stores back the same whole amount,
      and clearing it stores zero. */
  lemma ExpensesBlurRoundTrip(n: int)
    ensures ParseFloatOrZero(IntToString(n)) == n as real
    ensures ParseFloatOrZero("") == 0.0
  {
    ParseFloatOfIntToString(n);
  }

  /** A created goal always starts empty, so it starts within its target
      whenever that target is not negative. */
  lemma NewGoalWithinTarget(name: string, targetText: string, icon: string, color: string, newId: Id)
    requires IsNumberText(targetText) && targetText != "" && targetText[0] != '-'
    ensures WithinTargets([GoalWithId(NewGoal(name, targetText, icon, color), newId)])
  {
    var g := NewGoal(name, targetText, icon, color);
    ParseFloatNonNegative(targetText);
  }
}
