/** The figures and label of one savings-goal card
    (src/components/SavingsGoalCard.tsx): rounded progress percentage, amount
    remaining, months to reach the goal at the current monthly savings, the
    months label, and the icon with its fallback. */
module SavingsGoalCard {
  import opened Finance
  import NumberText

  datatype Icon = Plane | Shield | Home | Car | GraduationCap | Gift | Target

  /** The keys of `iconMap`. */
  const IconKeys: set<string> := {"plane", "shield", "home", "car", "graduation", "gift", "target"}

  /** `iconMap[goal.icon] || Target` */
  function IconFor(key: string): (icon: Icon)
    ensures key !in IconKeys ==> icon == Target
    ensures icon == Target ==> key == "target" || key !in IconKeys
  {
    if key == "plane" then Plane
    else if key == "shield" then Shield
    else if key == "home" then Home
    else if key == "car" then Car
    else if key == "graduation" then GraduationCap
    else if key == "gift" then Gift
    else Target
  }

  /** `Math.round`: the nearest integer, halves rounded up. */
  function Round(x: real): (n: int)
    ensures n as real - 0.5 <= x < n as real + 0.5
  {
    (x + 0.5).Floor
  }

  /** `Math.ceil`: the least integer not below `x`. */
  function Ceil(x: real): (n: int)
    ensures n as real - 1.0 < x <= n as real
  {
    -((-x).Floor)
  }

  /** `Math.round((currentAmount / targetAmount) * 100)`: between 0 and 100
      while the saved amount is within the target, 0 with nothing saved and
      100 once the target is met. */
  function Percentage(g: SavingsGoal): (p: int)
    requires g.targetAmount > 0.0
    ensures 0.0 <= g.currentAmount <= g.targetAmount ==> 0 <= p <= 100
    ensures g.currentAmount == 0.0 ==> p == 0
    ensures g.currentAmount == g.targetAmount ==> p == 100
  {
    var q := g.currentAmount / g.targetAmount;
    assert q * g.targetAmount == g.currentAmount;
    assert g.currentAmount == g.targetAmount ==> q == 1.0;
    assert 0.0 <= g.currentAmount <= g.targetAmount ==> 0.0 <= q <= 1.0;
    Round(g.currentAmount / g.targetAmount * 100.0)
  }

  /** `targetAmount - currentAmount`: nothing is left exactly when the goal is
      met or passed, and never more than the target while something is saved. */
  function Remaining(g: SavingsGoal): (r: real)
    ensures r <= 0.0 <==> g.currentAmount >= g.targetAmount
    ensures g.currentAmount >= 0.0 ==> r <= g.targetAmount
  {
    g.targetAmount - g.currentAmount
  }

  /** A month count, or the `Infinity` the card uses when nothing is saved. */
  datatype Months = Finite(n: int) | Infinite

  /** `monthlySavings > 0 ? Math.ceil(remaining / monthlySavings) : Infinity`:
      the least number of months whose savings cover what remains. */
  function MonthsToGoal(remaining: real, monthlySavings: real): (m: Months)
    ensures m.Infinite? <==> monthlySavings <= 0.0
    ensures m.Finite? ==> m.n as real * monthlySavings >= remaining
    ensures m.Finite? ==> ((m.n - 1) as real) * monthlySavings < remaining
  {
    if monthlySavings > 0.0 then
      var n := Ceil(remaining / monthlySavings);
      CoverBounds(remaining, monthlySavings, n);
      Finite(n)
    else Infinite
  }

  lemma CoverBounds(remaining: real, s: real, n: int)
    requires s > 0.0
    requires n as real - 1.0 < remaining / s <= n as real
    ensures (n as real) * s >= remaining
    ensures ((n - 1) as real) * s < remaining
  {
    var q := remaining / s;
    assert q * s == remaining;
    MulMonotone(q, n as real, s);
    MulStrictBelow((n - 1) as real, remaining, s);
  }

  lemma MulMonotone(a: real, b: real, s: real)
    requires a <= b && s > 0.0
    ensures a * s <= b * s
  {
  }

  lemma MulStrictBelow(a: real, remaining: real, s: real)
    requires s > 0.0 && a < remaining / s
    ensures a * s < remaining
  {
    var q := remaining / s;
    assert q * s == remaining;
    assert (q - a) * s > 0.0;
  }

  datatype MonthsLabel = GoalReached | ConfigureSavings | OneMonthLeft | MonthsLeft(count: int)

  /** `getMonthsLabel`: the first matching case wins. */
  function Label(percentage: int, months: Months): (l: MonthsLabel)
    ensures l.GoalReached? <==> percentage >= 100
    ensures l.ConfigureSavings? <==> percentage < 100 && months.Infinite?
    ensures l.OneMonthLeft? <==> percentage < 100 && months == Finite(1)
    ensures l.MonthsLeft? ==> months == Finite(l.count) && l.count != 1
  {
    if percentage >= 100 then GoalReached
    else if months.Infinite? then ConfigureSavings
    else if months.n == 1 then OneMonthLeft
    else MonthsLeft(months.n)
  }

  const ReachedText: string := "Meta alcançada! \U{1F389}"
  const ConfigureText: string := "Configure sua caixinha"
  const OneMonthText: string := "1 mês restante"

  /** The label's text. The month count a reader sees at its front is the
      count of the label, and the other two texts start with no number. */
  function LabelText(l: MonthsLabel): (t: string)
    ensures l.MonthsLeft? ==> NumberText.ParseInt(t) == Some(l.count)
    ensures l.OneMonthLeft? ==> NumberText.ParseInt(t) == Some(1)
    ensures l.GoalReached? || l.ConfigureSavings? ==> NumberText.ParseInt(t).None?
  {
    match l
    case GoalReached => FixedTextsRead(); ReachedText
    case ConfigureSavings => FixedTextsRead(); ConfigureText
    case OneMonthLeft => FixedTextsRead(); OneMonthText
    case MonthsLeft(n) =>
      NumberText.ParseIntOfIntToStringThen(n, " meses restantes");
      NumberText.IntToString(n) + " meses restantes"
  }

  lemma FixedTextsRead()
    ensures NumberText.ParseInt(ReachedText).None?
    ensures NumberText.ParseInt(ConfigureText).None?
    ensures NumberText.ParseInt(OneMonthText) == Some(1)
  {
    NumberText.ParseIntOfNonDigitLead(ReachedText);
    NumberText.ParseIntOfNonDigitLead(ConfigureText);
    OneMonthTextReadsOne();
  }

  lemma OneMonthTextReadsOne()
    ensures NumberText.ParseInt(OneMonthText) == Some(1)
  {
    var tail := OneMonthText[1..];
    NumberText.ParseIntOfIntToStringThen(1, tail);
    assert NumberText.IntToString(1) == [OneMonthText[0]];
    assert [OneMonthText[0]] + tail == OneMonthText;
  }

  datatype CardView = CardView(icon: Icon, percentage: int, remaining: real, monthsLabel: MonthsLabel)

  /** One card: its icon, rounded percentage and remaining amount, and the
      label chosen from them with the months the monthly savings need. */
  function View(g: SavingsGoal, monthlySavings: real): (v: CardView)
    requires g.targetAmount > 0.0
    ensures v.icon == IconFor(g.icon) && v.percentage == Percentage(g) && v.remaining == Remaining(g)
    ensures v.monthsLabel.GoalReached? <==> v.percentage >= 100
    ensures v.monthsLabel.ConfigureSavings? <==> v.percentage < 100 && monthlySavings <= 0.0
    ensures v.monthsLabel.MonthsLeft? ==>
      v.monthsLabel.count as real * monthlySavings >= v.remaining
      && (v.monthsLabel.count - 1) as real * monthlySavings < v.remaining
  {
    var percentage := Percentage(g);
    CardView(IconFor(g.icon), percentage, Remaining(g),
             Label(percentage, MonthsToGoal(Remaining(g), monthlySavings)))
  }

  // ---------------------------------------------------------------------------
  // Properties

  /** Because of rounding, 99.5% funded already shows as reached: the label is
      "goal reached" exactly when 200 * current >= 199 * target. */
  lemma ReachedIffNinetyNineAndAHalf(g: SavingsGoal, monthlySavings: real)
    requires g.targetAmount > 0.0
    ensures View(g, monthlySavings).monthsLabel.GoalReached?
        <==> 200.0 * g.currentAmount >= 199.0 * g.targetAmount
  {
    var x := g.currentAmount / g.targetAmount * 100.0;
    assert Percentage(g) == Round(x);
    assert Round(x) >= 100 <==> x >= 99.5;
    ScaledThreshold(g.currentAmount, g.targetAmount);
  }

  /** `current / target * 100 >= 99.5`, cleared of the division. */
  lemma ScaledThreshold(c: real, t: real)
    requires t > 0.0
    ensures c / t * 100.0 >= 99.5 <==> 200.0 * c >= 199.0 * t
  {
    var q := c / t;
    assert q * t == c;
    if q * 100.0 >= 99.5 {
      assert (q * 100.0 - 99.5) * t >= 0.0;
      assert (q * 100.0 - 99.5) * t == 100.0 * c - 99.5 * t;
    } else {
      assert (99.5 - q * 100.0) * t > 0.0;
      assert (99.5 - q * 100.0) * t == 99.5 * t - 100.0 * c;
    }
  }

  /** The goal-reached label wins over the "configure" label. */
  lemma ReachedWinsOverSentinel(g: SavingsGoal)
    requires g.targetAmount > 0.0 && Percentage(g) >= 100
    ensures forall s :: View(g, s).monthsLabel == GoalReached
  {
  }

  /** Without savings an unfinished goal shows the "configure" label, never a
      division. */
  lemma NoSavingsShowsConfigure(g: SavingsGoal, monthlySavings: real)
    requires g.targetAmount > 0.0 && monthlySavings <= 0.0 && Percentage(g) < 100
    ensures View(g, monthlySavings).monthsLabel == ConfigureSavings
  {
  }

  /** 400 of 1000 saved at 200 a month: 3 months. */
  lemma ThreeMonthsExample()
    ensures View(SavingsGoal("g", "Viagem", 1000.0, 400.0, "plane", "accent"), 200.0)
         == CardView(Plane, 40, 600.0, MonthsLeft(3))
  {
    var m := MonthsToGoal(600.0, 200.0);
    assert m.n as real * 200.0 >= 600.0 && (m.n - 1) as real * 200.0 < 600.0;
    assert m == Finite(3);
    assert Round(400.0 / 1000.0 * 100.0) == 40;
  }

  /** The seven keys name seven different icons, so only "target" and unknown
      keys show the target icon. */
  lemma IconKeysDistinct()
    ensures forall k1, k2 :: k1 in IconKeys && k2 in IconKeys && k1 != k2 ==> IconFor(k1) != IconFor(k2)
    ensures forall k :: k in IconKeys && k != "target" ==> IconFor(k) != Target
    ensures |IconKeys| == 7
  {
    forall k1, k2 | k1 in IconKeys && k2 in IconKeys && k1 != k2
      ensures IconFor(k1) != IconFor(k2)
    {
      IconKeyRoundTrip(k1);
      IconKeyRoundTrip(k2);
    }
    var a: set<string> := {"plane", "shield", "home"};
    var b: set<string> := {"car", "graduation", "gift", "target"};
    assert |a| == 3 && |b| == 4;
    assert a !! b;
    assert IconKeys == a + b;
  }

  /** Every key of `iconMap` names its own icon: `KeyOf` undoes `IconFor` on them. */
  lemma IconKeyRoundTrip(k: string)
    requires k in IconKeys
    ensures KeyOf(IconFor(k)) == k
  {
  }

  /** The `iconMap` key of each icon. */
  function KeyOf(icon: Icon): string
  {
    match icon
    case Plane => "plane"
    case Shield => "shield"
    case Home => "home"
    case Car => "car"
    case GraduationCap => "graduation"
    case Gift => "gift"
    case Target => "target"
  }
}
