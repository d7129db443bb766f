/** The per-payment savings breakdown (src/components/SavingsPerPayday.tsx):
    one row per payment day, in stored order, with its label and the share of
    that payment to put aside. */
module SavingsPerPayday {
  import opened Finance
  import opened FinancialDataHook
  import NumberText

  datatype Row = Row(day: int, rowLabel: string, amount: real, savings: real)

  /** `payment.description || \`Dia ${payment.day}\`` */
  function RowLabel(p: PaymentDay): (s: string)
    ensures p.description.Some? && p.description.value != "" ==> s == p.description.value
    ensures p.description.None? || p.description.value == "" ==> s == "Dia " + NumberText.IntToString(p.day)
  {
    if p.description.Some? && p.description.value != "" then p.description.value
    else "Dia " + NumberText.IntToString(p.day)
  }

  /** `paymentDays.map(...)` with `(payment.amount * savingsPercentage) / 100`. */
  function Rows(ps: seq<PaymentDay>, savingsPercentage: real): (rows: seq<Row>)
    ensures |rows| == |ps|
    ensures forall i :: 0 <= i < |ps| ==>
      rows[i] == Row(ps[i].day, RowLabel(ps[i]), ps[i].amount, ps[i].amount * savingsPercentage / 100.0)
  {
    if ps == [] then []
    else [Row(ps[0].day, RowLabel(ps[0]), ps[0].amount, ps[0].amount * savingsPercentage / 100.0)]
         + Rows(ps[1..], savingsPercentage)
  }

  function SumSavings(rows: seq<Row>): real
  {
    if rows == [] then 0.0 else rows[0].savings + SumSavings(rows[1..])
  }

  /** Each row's savings is the hook's per-payment figure for that payment. */
  lemma RowsMatchPerPayment(d: FinancialData)
    ensures forall i :: 0 <= i < |d.paymentDays| ==>
      Rows(d.paymentDays, d.savingsPercentage)[i].savings
        == TotalSavingsPerPayment(d, d.paymentDays[i].amount)
  {
    var rows := Rows(d.paymentDays, d.savingsPercentage);
    forall i | 0 <= i < |d.paymentDays|
      ensures rows[i].savings == TotalSavingsPerPayment(d, d.paymentDays[i].amount)
    {
      var p := d.paymentDays[i];
      assert rows[i] == Row(p.day, RowLabel(p), p.amount, p.amount * d.savingsPercentage / 100.0);
    }
  }

  lemma {:induction false} SumOfShares(ps: seq<PaymentDay>, pct: real)
    ensures SumSavings(Rows(ps, pct)) == SumAmounts(ps) * pct / 100.0
  {
    if ps == [] {
      assert Rows(ps, pct) == [];
    } else {
      SumOfShares(ps[1..], pct);
      var rows := Rows(ps, pct);
      assert rows[1..] == Rows(ps[1..], pct);
      var a, rest := ps[0].amount, SumAmounts(ps[1..]);
      assert rows[0].savings == a * pct / 100.0;
      assert SumSavings(rows) == a * pct / 100.0 + rest * pct / 100.0;
      assert SumAmounts(ps) == a + rest;
      ShareDistributes(a, rest, pct);
    }
  }

  lemma ShareDistributes(a: real, rest: real, pct: real)
    ensures a * pct / 100.0 + rest * pct / 100.0 == (a + rest) * pct / 100.0
  {
  }

  /** Exactly computed, the rows' savings add up to the monthly savings. */
  lemma RowsSumToMonthlySavings(d: FinancialData)
    ensures SumSavings(Rows(d.paymentDays, d.savingsPercentage)) == MonthlySavings(d)
  {
    SumOfShares(d.paymentDays, d.savingsPercentage);
    assert MonthlySavings(d) == SumAmounts(d.paymentDays) * d.savingsPercentage / 100.0;
  }
}
