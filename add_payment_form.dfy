/** The add-payment form (src/components/AddPaymentForm.tsx): three text fields
    and an expanded flag; submitting checks that day and amount are filled in,
    hands one record to `onAdd`, and resets the form. */
module AddPaymentForm {
  import opened Finance
  import opened NumberText

  /** The record `handleSubmit` hands to `onAdd`. An empty description becomes
      "Pagamento dia " followed by the day exactly as typed. */
  function Submitted(day: string, amount: string, description: string): (p: PaymentInput)
    requires IsIntegralLeadText(day) && day != ""
    requires IsNumberText(amount) && amount != ""
    ensures ParseInt(day) == Some(p.day)
    ensures ParseFloat(amount) == Some(p.amount)
    ensures p.description.Some? && p.description.value != ""
    ensures description != "" ==> p.description == Some(description)
    ensures description == "" ==> p.description == Some("Pagamento dia " + day)
  {
    ParseIntOfIntegralLead(day);
    ParseFloatOfNumberText(amount);
    PaymentInput(ParseInt(day).value, ParseFloat(amount).value,
                 Some(if description == "" then "Pagamento dia " + day else description))
  }

  class FormState {
    var day: string
    var amount: string
    var description: string
    var isExpanded: bool
    /** The `onAdd` calls so far, in order. */
    var added: seq<PaymentInput>

    /** The two number fields hold what a numeric input delivers. */
    ghost predicate Valid()
      reads this
    {
      IsIntegralLeadText(day) && IsNumberText(amount)
    }

    constructor ()
      ensures Valid()
      ensures day == "" && amount == "" && description == "" && !isExpanded && added == []
    {
      day, amount, description := "", "", "";
      isExpanded := false;
      added := [];
    }

    method Expand()
      modifies this
      ensures isExpanded
      ensures day == old(day) && amount == old(amount) && description == old(description)
      ensures added == old(added)
    {
      isExpanded := true;
    }

    /** The cancel button collapses the form and keeps what was typed. */
    method Collapse()
      modifies this
      ensures !isExpanded
      ensures day == old(day) && amount == old(amount) && description == old(description)
      ensures added == old(added)
    {
      isExpanded := false;
    }

    method SetDay(text: string)
      requires Valid() && IsIntegralLeadText(text)
      modifies this`day
      ensures Valid() && day == text
    {
      day := text;
    }

    method SetAmount(text: string)
      requires Valid() && IsNumberText(text)
      modifies this`amount
      ensures Valid() && amount == text
    {
      amount := text;
    }

    method SetDescription(text: string)
      modifies this`description
      ensures description == text
    {
      description := text;
    }

    /** `handleSubmit`. The 1..31 bounds of the day field are attributes of the
        input element only: nothing here checks them. */
    method HandleSubmit()
      requires Valid()
      modifies this
      ensures Valid()
      ensures old(day) == "" || old(amount) == "" ==>
        day == old(day) && amount == old(amount) && description == old(description)
        && isExpanded == old(isExpanded) && added == old(added)
      ensures old(day) != "" && old(amount) != "" ==>
        added == old(added) + [Submitted(old(day), old(amount), old(description))]
        && day == "" && amount == "" && description == "" && !isExpanded
    {
      if day == "" || amount == "" {
        return;
      }
      added := added + [Submitted(day, amount, description)];
      day := "";
      amount := "";
      description := "";
      isExpanded := false;
    }
  }

  /** `handleSubmit` does not check the day's range: any whole number in the
      day field, 40 or -3 as much as 15, is handed on as it is, and so is the
      default description built from it. The input's `min` and `max` are the
      only guard. */
  lemma DayRangeNotEnforced(n: int, amount: string)
    requires IsNumberText(amount) && amount != ""
    ensures IsIntegralLeadText(IntToString(n))
    ensures Submitted(IntToString(n), amount, "").day == n
    ensures Submitted(IntToString(n), amount, "").description == Some("Pagamento dia " + IntToString(n))
  {
    IntToStringIsIntegralLead(n);
    ParseIntOfIntToString(n);
  }
}
