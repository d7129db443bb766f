/** The savings-percentage dialog (src/components/SavingsAdjustModal.tsx): a
    local percentage set by a slider, its preview amount and recommendation,
    and the callbacks that saving and closing issue. The "optimal" badge of the
    savings box (src/components/SavingsBox.tsx) is folded in here. */
module SavingsAdjustModal {
  import opened Finance
  import opened FinancialDataHook

  datatype Recommendation = MinimumWarning | GoodStart | Excellent | NaturalSaver

  /** `getRecommendation`: the bands are checked from the lowest up. */
  function Recommend(percentage: real): (r: Recommendation)
    ensures r == MinimumWarning <==> percentage < 10.0
    ensures r == GoodStart <==> 10.0 <= percentage < 15.0
    ensures r == Excellent <==> 15.0 <= percentage < 20.0
    ensures r == NaturalSaver <==> 20.0 <= percentage
  {
    if percentage < 10.0 then MinimumWarning
    else if percentage < 15.0 then GoodStart
    else if percentage < 20.0 then Excellent
    else NaturalSaver
  }

  function Text(r: Recommendation): string
  {
    match r
    case MinimumWarning => "Mínimo recomendado: 10%"
    case GoodStart => "Bom começo!"
    case Excellent => "Excelente escolha!"
    case NaturalSaver => "Você é um poupador nato!"
  }

  function Color(r: Recommendation): string
  {
    match r
    case MinimumWarning => "text-destructive"
    case GoodStart => "text-warning"
    case Excellent => "text-success"
    case NaturalSaver => "text-accent"
  }

  function Rank(r: Recommendation): nat
  {
    match r
    case MinimumWarning => 0
    case GoodStart => 1
    case Excellent => 2
    case NaturalSaver => 3
  }

  /** Saving more never earns a lower band. */
  lemma RecommendationMonotone(a: real, b: real)
    requires a <= b
    ensures Rank(Recommend(a)) <= Rank(Recommend(b))
  {
  }

  /** The preview: `(monthlyIncome * percentage) / 100`. Within the slider's
      range it is never more than half the income. */
  function SavingsPreview(monthlyIncome: real, percentage: real): (r: real)
    ensures monthlyIncome >= 0.0 && 0.0 <= percentage <= 50.0 ==> 0.0 <= r <= monthlyIncome / 2.0
  {
    monthlyIncome * percentage / 100.0
  }

  /** At the stored percentage the preview is the hook's monthly savings. */
  lemma PreviewAtStoredPercentage(d: FinancialData)
    ensures SavingsPreview(TotalMonthlyIncome(d), d.savingsPercentage) == MonthlySavings(d)
  {
  }

  /** The savings box's badge: `currentPercentage >= suggestedPercentage`, with
      15 suggested. It shows exactly in the dialog's two upper bands. */
  predicate IsOptimal(currentPercentage: real)
    ensures IsOptimal(currentPercentage) <==> Rank(Recommend(currentPercentage)) >= 2
  {
    currentPercentage >= 15.0
  }

  /** Each band has its own message and its own colour. */
  lemma BandsDistinct(a: Recommendation, b: Recommendation)
    requires a != b
    ensures Text(a) != Text(b) && Color(a) != Color(b)
  {
    match a
    case MinimumWarning => assert Text(a)[0] == 'M';
    case GoodStart => assert Text(a)[0] == 'B';
    case Excellent => assert Text(a)[0] == 'E';
    case NaturalSaver => assert Text(a)[0] == 'V';
  }

  /** A callback the dialog issues to its parent. */
  datatype Callback = Save(percentage: real) | Close

  class AdjustModalState {
    var percentage: real
    /** The callbacks issued so far, in order. */
    var calls: seq<Callback>

    /** `useState(currentPercentage)`: the dialog starts at the stored value,
        whatever it is. */
    constructor (currentPercentage: real)
      ensures percentage == currentPercentage && calls == []
    {
      percentage := currentPercentage;
      calls := [];
    }

    /** The slider reports whole numbers from 0 to 50. */
    method SlideTo(value: int)
      requires 0 <= value <= 50
      modifies this
      ensures percentage == value as real && calls == old(calls)
      ensures 0.0 <= percentage <= 50.0
    {
      percentage := value as real;
    }

    /** `handleSave`: save the local percentage, then close. */
    method HandleSave()
      modifies this
      ensures percentage == old(percentage)
      ensures calls == old(calls) + [Save(percentage), Close]
    {
      calls := calls + [Save(percentage)];
      calls := calls + [Close];
    }

    /** Cancel, the close button and the backdrop: close without saving. */
    method Dismiss()
      modifies this
      ensures percentage == old(percentage)
      ensures calls == old(calls) + [Close]
    {
      calls := calls + [Close];
    }
  }

  /** Sliding and saving hands the slider's value to `onSave`, which on the
      dashboard is the store's percentage setter; the dialog keeps the value
      and the store writes its copy back. */
  method SlideAndSave(modal: AdjustModalState, store: FinancialDataStore, value: int)
    requires 0 <= value <= 50
    modifies modal, store
    ensures modal.calls == old(modal.calls) + [Save(value as real), Close]
    ensures store.data == old(store.data).(savingsPercentage := value as real)
    ensures store.Persisted() && modal.percentage == value as real
  {
    modal.SlideTo(value);
    modal.HandleSave();
    store.UpdateSavingsPercentage(modal.percentage);
  }
}
