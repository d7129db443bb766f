/** The record store behind every page (src/hooks/useFinancialData.ts): one
    document, replaced by a transformed copy on every mutation and written back
    to storage after each change, plus the figures derived from it. */
module FinancialDataHook {
  import opened Finance

  /** The document used when nothing is stored. It has no `numbersVisible`. */
  const DefaultData := FinancialData([], 15.0, [], 0.0, "", None)

  // ---------------------------------------------------------------------------
  // Derived figures

  /** No payment has a negative amount, checked entry by entry. */
  predicate NonNegativeAmounts(ps: seq<PaymentDay>)
  {
    ps == [] || (ps[0].amount >= 0.0 && NonNegativeAmounts(ps[1..]))
  }

  /** `paymentDays.reduce((sum, p) => sum + p.amount, 0)`: with no negative
      amount the total is not negative. */
  function SumAmounts(ps: seq<PaymentDay>): (r: real)
    ensures NonNegativeAmounts(ps) ==> r >= 0.0
  {
    if ps == [] then 0.0 else ps[0].amount + SumAmounts(ps[1..])
  }

  /** `totalMonthlyIncome`: the sum of all payment amounts. */
  function TotalMonthlyIncome(d: FinancialData): (r: real)
    ensures d.paymentDays == [] ==> r == 0.0
    ensures NonNegativeAmounts(d.paymentDays) ==> r >= 0.0
  {
    SumAmounts(d.paymentDays)
  }

  /** The share of one payment that goes to savings: never more than the
      payment itself while the percentage is between 0 and 100. */
  function TotalSavingsPerPayment(d: FinancialData, amount: real): (r: real)
    ensures 0.0 <= d.savingsPercentage <= 100.0 && amount >= 0.0 ==> 0.0 <= r <= amount
  {
    amount * d.savingsPercentage / 100.0
  }

  /** `monthlySavings`: the per-payment share applied to the whole income. */
  function MonthlySavings(d: FinancialData): (r: real)
    ensures r == TotalSavingsPerPayment(d, TotalMonthlyIncome(d))
    ensures 0.0 <= d.savingsPercentage <= 100.0 && TotalMonthlyIncome(d) >= 0.0
            ==> 0.0 <= r <= TotalMonthlyIncome(d)
  {
    TotalMonthlyIncome(d) * d.savingsPercentage / 100.0
  }

  /** Not clamped: what is left is the part of the income not saved, less the
      expenses, and it is negative when they exceed that part. */
  function AvailableAfterSavings(d: FinancialData): (r: real)
    ensures r == TotalMonthlyIncome(d) * (100.0 - d.savingsPercentage) / 100.0 - d.monthlyExpenses
  {
    TotalMonthlyIncome(d) - MonthlySavings(d) - d.monthlyExpenses
  }

  lemma {:induction false} SumAppend(ps: seq<PaymentDay>, p: PaymentDay)
    ensures SumAmounts(ps + [p]) == SumAmounts(ps) + p.amount
  {
    if ps != [] {
      assert (ps + [p])[1..] == ps[1..] + [p];
      SumAppend(ps[1..], p);
    }
  }

  /** Adding a payment raises the income by exactly its amount. */
  lemma IncomeAfterAdd(d: FinancialData, input: PaymentInput, newId: Id)
    ensures TotalMonthlyIncome(d.(paymentDays := d.paymentDays + [WithId(input, newId)]))
         == TotalMonthlyIncome(d) + input.amount
  {
    SumAppend(d.paymentDays, WithId(input, newId));
  }

  // ---------------------------------------------------------------------------
  // Ids

  function PaymentIds(ps: seq<PaymentDay>): set<Id>
  {
    set p | p in ps :: p.id
  }

  function GoalIds(gs: seq<SavingsGoal>): set<Id>
  {
    set g | g in gs :: g.id
  }

  ghost predicate UniquePaymentIds(ps: seq<PaymentDay>)
  {
    forall i, j :: 0 <= i < j < |ps| ==> ps[i].id != ps[j].id
  }

  ghost predicate UniqueGoalIds(gs: seq<SavingsGoal>)
  {
    forall i, j :: 0 <= i < j < |gs| ==> gs[i].id != gs[j].id
  }

  // ---------------------------------------------------------------------------
  // removePaymentDay / removeSavingsGoal: `filter(p => p.id !== id)`

  function RemovePayment(ps: seq<PaymentDay>, id: Id): (r: seq<PaymentDay>)
    ensures forall p :: p in r <==> p in ps && p.id != id
    ensures |r| <= |ps|
    ensures id !in PaymentIds(ps) ==> r == ps
  {
    if ps == [] then []
    else (if ps[0].id != id then [ps[0]] else []) + RemovePayment(ps[1..], id)
  }

  /** The entries a removal by `id` drops. */
  function PaymentsWithId(ps: seq<PaymentDay>, id: Id): (r: seq<PaymentDay>)
    ensures forall p :: p in r <==> p in ps && p.id == id
  {
    if ps == [] then []
    else (if ps[0].id == id then [ps[0]] else []) + PaymentsWithId(ps[1..], id)
  }

  lemma {:induction false} RemovePaymentAppend(a: seq<PaymentDay>, b: seq<PaymentDay>, id: Id)
    ensures RemovePayment(a + b, id) == RemovePayment(a, id) + RemovePayment(b, id)
  {
    if a == [] {
      assert a + b == b;
    } else {
      assert (a + b)[1..] == a[1..] + b;
      RemovePaymentAppend(a[1..], b, id);
      var h := if a[0].id != id then [a[0]] else [];
      assert RemovePayment(a + b, id) == h + (RemovePayment(a[1..], id) + RemovePayment(b, id));
    }
  }

  /** Removal keeps the other entries in their original order: it commutes with
      concatenation and leaves a single foreign entry in place. */
  lemma RemovePaymentKeepsOrder(a: seq<PaymentDay>, p: PaymentDay, b: seq<PaymentDay>, id: Id)
    requires p.id != id
    ensures RemovePayment(a + [p] + b, id) == RemovePayment(a, id) + [p] + RemovePayment(b, id)
  {
    RemovePaymentAppend(a + [p], b, id);
    RemovePaymentAppend(a, [p], id);
  }

  lemma RemovePaymentIdempotent(ps: seq<PaymentDay>, id: Id)
    ensures RemovePayment(RemovePayment(ps, id), id) == RemovePayment(ps, id)
  {
    assert id !in PaymentIds(RemovePayment(ps, id));
  }

  /** Removing an id lowers the income by the sum of the removed entries. */
  lemma {:induction false} IncomeAfterRemove(ps: seq<PaymentDay>, id: Id)
    ensures SumAmounts(RemovePayment(ps, id)) == SumAmounts(ps) - SumAmounts(PaymentsWithId(ps, id))
  {
    if ps != [] {
      IncomeAfterRemove(ps[1..], id);
      if ps[0].id == id {
        assert RemovePayment(ps, id) == RemovePayment(ps[1..], id);
        assert PaymentsWithId(ps, id) == [ps[0]] + PaymentsWithId(ps[1..], id);
        assert ([ps[0]] + PaymentsWithId(ps[1..], id))[1..] == PaymentsWithId(ps[1..], id);
      } else {
        assert RemovePayment(ps, id) == [ps[0]] + RemovePayment(ps[1..], id);
        assert ([ps[0]] + RemovePayment(ps[1..], id))[1..] == RemovePayment(ps[1..], id);
        assert PaymentsWithId(ps, id) == PaymentsWithId(ps[1..], id);
      }
    }
  }

  lemma ConsKeepsUnique(x: PaymentDay, rest: seq<PaymentDay>)
    requires UniquePaymentIds(rest)
    requires forall q :: q in rest ==> q.id != x.id
    ensures UniquePaymentIds([x] + rest)
  {
    var r := [x] + rest;
    forall i, j | 0 <= i < j < |r| ensures r[i].id != r[j].id {
      if i == 0 {
        assert r[j] == rest[j - 1];
      } else {
        assert r[i] == rest[i - 1] && r[j] == rest[j - 1];
      }
    }
  }

  lemma {:induction false} RemovePaymentKeepsUnique(ps: seq<PaymentDay>, id: Id)
    requires UniquePaymentIds(ps)
    ensures UniquePaymentIds(RemovePayment(ps, id))
  {
    if ps != [] {
      var tail := ps[1..];
      assert UniquePaymentIds(tail) by {
        forall i, j | 0 <= i < j < |tail| ensures tail[i].id != tail[j].id {
          assert tail[i] == ps[i + 1] && tail[j] == ps[j + 1];
        }
      }
      RemovePaymentKeepsUnique(tail, id);
      var rest := RemovePayment(tail, id);
      if ps[0].id != id {
        forall q | q in rest ensures q.id != ps[0].id {
          var k :| 0 <= k < |tail| && tail[k] == q;
          assert ps[k + 1] == q;
        }
        ConsKeepsUnique(ps[0], rest);
      }
    }
  }

  function RemoveGoal(gs: seq<SavingsGoal>, id: Id): (r: seq<SavingsGoal>)
    ensures forall g :: g in r <==> g in gs && g.id != id
    ensures |r| <= |gs|
    ensures id !in GoalIds(gs) ==> r == gs
  {
    if gs == [] then []
    else (if gs[0].id != id then [gs[0]] else []) + RemoveGoal(gs[1..], id)
  }

  lemma {:induction false} RemoveGoalAppend(a: seq<SavingsGoal>, b: seq<SavingsGoal>, id: Id)
    ensures RemoveGoal(a + b, id) == RemoveGoal(a, id) + RemoveGoal(b, id)
  {
    if a == [] {
      assert a + b == b;
    } else {
      assert (a + b)[1..] == a[1..] + b;
      RemoveGoalAppend(a[1..], b, id);
      var h := if a[0].id != id then [a[0]] else [];
      assert RemoveGoal(a + b, id) == h + (RemoveGoal(a[1..], id) + RemoveGoal(b, id));
    }
  }

  lemma RemoveGoalKeepsOrder(a: seq<SavingsGoal>, g: SavingsGoal, b: seq<SavingsGoal>, id: Id)
    requires g.id != id
    ensures RemoveGoal(a + [g] + b, id) == RemoveGoal(a, id) + [g] + RemoveGoal(b, id)
  {
    RemoveGoalAppend(a + [g], b, id);
    RemoveGoalAppend(a, [g], id);
  }

  lemma RemoveGoalIdempotent(gs: seq<SavingsGoal>, id: Id)
    ensures RemoveGoal(RemoveGoal(gs, id), id) == RemoveGoal(gs, id)
  {
    assert id !in GoalIds(RemoveGoal(gs, id));
  }

  // ---------------------------------------------------------------------------
  // updatePaymentDay: `map(p => p.id === id ? { ...p, ...updates } : p)`

  /** `{ ...p, ...updates }`: every supplied field overrides, the rest is kept. */
  function Merge(p: PaymentDay, u: PaymentDayPatch): (r: PaymentDay)
    ensures r.id == (if u.id.Some? then u.id.value else p.id)
    ensures r.day == (if u.day.Some? then u.day.value else p.day)
    ensures r.amount == (if u.amount.Some? then u.amount.value else p.amount)
    ensures r.description == (if u.description.Some? then u.description else p.description)
  {
    PaymentDay(u.id.GetOr(p.id), u.day.GetOr(p.day), u.amount.GetOr(p.amount),
               if u.description.Some? then u.description else p.description)
  }

  function MergeById(ps: seq<PaymentDay>, id: Id, u: PaymentDayPatch): (r: seq<PaymentDay>)
    ensures |r| == |ps|
    ensures forall i :: 0 <= i < |ps| ==> r[i] == (if ps[i].id == id then Merge(ps[i], u) else ps[i])
  {
    if ps == [] then []
    else [if ps[0].id == id then Merge(ps[0], u) else ps[0]] + MergeById(ps[1..], id, u)
  }

  /** An update that supplies no amount leaves the income unchanged. */
  lemma {:induction false} IncomeAfterUpdate(ps: seq<PaymentDay>, id: Id, u: PaymentDayPatch)
    requires u.amount.None?
    ensures SumAmounts(MergeById(ps, id, u)) == SumAmounts(ps)
  {
    if ps != [] {
      IncomeAfterUpdate(ps[1..], id, u);
      var r := MergeById(ps, id, u);
      assert r[1..] == MergeById(ps[1..], id, u);
    }
  }

  /** An update that does not supply an id keeps the ids unique. */
  lemma MergeKeepsUnique(ps: seq<PaymentDay>, id: Id, u: PaymentDayPatch)
    requires u.id.None? && UniquePaymentIds(ps)
    ensures UniquePaymentIds(MergeById(ps, id, u))
  {
    var r := MergeById(ps, id, u);
    assert forall i :: 0 <= i < |ps| ==> r[i].id == ps[i].id;
  }

  // ---------------------------------------------------------------------------
  // addToGoal: `currentAmount: Math.min(g.currentAmount + amount, g.targetAmount)`

  function Min(a: real, b: real): real
  {
    if a <= b then a else b
  }

  /** One goal funded by `amount`, clamped to its target. No sign check. */
  function Fund(g: SavingsGoal, amount: real): (r: SavingsGoal)
    ensures r.currentAmount <= g.targetAmount
    ensures r.currentAmount == g.currentAmount + amount || r.currentAmount == g.targetAmount
    ensures r == g.(currentAmount := r.currentAmount)
  {
    g.(currentAmount := Min(g.currentAmount + amount, g.targetAmount))
  }

  function FundById(gs: seq<SavingsGoal>, goalId: Id, amount: real): (r: seq<SavingsGoal>)
    ensures |r| == |gs|
    ensures forall i :: 0 <= i < |gs| ==> r[i] == (if gs[i].id == goalId then Fund(gs[i], amount) else gs[i])
  {
    if gs == [] then []
    else [if gs[0].id == goalId then Fund(gs[0], amount) else gs[0]] + FundById(gs[1..], goalId, amount)
  }

  /** Funding is the least of the sum and the target. */
  lemma FundIsMin(g: SavingsGoal, amount: real)
    ensures Fund(g, amount).currentAmount <= g.currentAmount + amount
    ensures Fund(g, amount).currentAmount == g.currentAmount + amount
        <==> g.currentAmount + amount <= g.targetAmount
  {
  }

  /** A non-negative amount never lowers a goal that is within its target. */
  lemma FundNeverDecreases(g: SavingsGoal, amount: real)
    requires amount >= 0.0 && g.currentAmount <= g.targetAmount
    ensures g.currentAmount <= Fund(g, amount).currentAmount
  {
  }

  /** A negative amount is not rejected: it lowers the goal. */
  lemma FundAcceptsNegative(g: SavingsGoal, amount: real)
    requires amount < 0.0 && g.currentAmount <= g.targetAmount
    ensures Fund(g, amount).currentAmount == g.currentAmount + amount < g.currentAmount
  {
  }

  ghost predicate WithinTargets(gs: seq<SavingsGoal>)
  {
    forall g :: g in gs ==> g.currentAmount <= g.targetAmount
  }

  /** Funding keeps every goal within its target. */
  lemma FundKeepsWithinTargets(gs: seq<SavingsGoal>, goalId: Id, amount: real)
    requires WithinTargets(gs)
    ensures WithinTargets(FundById(gs, goalId, amount))
  {
    var r := FundById(gs, goalId, amount);
    forall g | g in r ensures g.currentAmount <= g.targetAmount {
      var i :| 0 <= i < |r| && r[i] == g;
      assert gs[i] in gs;
    }
  }

  // ---------------------------------------------------------------------------
  // Appends with a fresh id

  lemma AppendFreshKeepsUniquePayments(ps: seq<PaymentDay>, input: PaymentInput, newId: Id)
    requires UniquePaymentIds(ps) && newId !in PaymentIds(ps)
    ensures UniquePaymentIds(ps + [WithId(input, newId)])
  {
    var r := ps + [WithId(input, newId)];
    forall i, j | 0 <= i < j < |r| ensures r[i].id != r[j].id {
      if j == |ps| {
        assert r[i] in ps;
      }
    }
  }

  lemma AppendFreshKeepsUniqueGoals(gs: seq<SavingsGoal>, input: GoalInput, newId: Id)
    requires UniqueGoalIds(gs) && newId !in GoalIds(gs)
    ensures UniqueGoalIds(gs + [GoalWithId(input, newId)])
  {
    var r := gs + [GoalWithId(input, newId)];
    forall i, j | 0 <= i < j < |r| ensures r[i].id != r[j].id {
      if j == |gs| {
        assert r[i] in gs;
      }
    }
  }

  /** Removing the id just appended gives back the list before the append. */
  lemma RemoveUndoesFreshAdd(ps: seq<PaymentDay>, input: PaymentInput, newId: Id)
    requires newId !in PaymentIds(ps)
    ensures RemovePayment(ps + [WithId(input, newId)], newId) == ps
  {
    RemovePaymentAppend(ps, [WithId(input, newId)], newId);
    assert RemovePayment([WithId(input, newId)], newId) == [];
  }

  lemma RemoveUndoesFreshGoal(gs: seq<SavingsGoal>, input: GoalInput, newId: Id)
    requires newId !in GoalIds(gs)
    ensures RemoveGoal(gs + [GoalWithId(input, newId)], newId) == gs
  {
    RemoveGoalAppend(gs, [GoalWithId(input, newId)], newId);
    assert RemoveGoal([GoalWithId(input, newId)], newId) == [];
  }

  // ---------------------------------------------------------------------------
  // The state cell

  /** `data` and its persisted copy. Every mutation replaces `data` with a
      transformed copy and then writes it to `stored`, as the hook's effect does. */
  class FinancialDataStore {
    var data: FinancialData
    /** The storage entry holding the serialised document. */
    var stored: Option<FinancialData>

    ghost predicate Persisted()
      reads this
    {
      stored == Some(data)
    }

    /** Loads the stored document, or the default when nothing is stored. A
        stored blob is taken as it is: there is no fallback for a malformed one. */
    constructor (saved: Option<FinancialData>)
      ensures data == (if saved.Some? then saved.value else DefaultData)
      ensures Persisted()
    {
      data := saved.GetOr(DefaultData);
      stored := Some(data);
    }

    method UpdatePaymentDay(id: Id, updates: PaymentDayPatch)
      modifies this
      ensures data == old(data).(paymentDays := MergeById(old(data.paymentDays), id, updates))
      ensures Persisted()
    {
      data := data.(paymentDays := MergeById(data.paymentDays, id, updates));
      stored := Some(data);
    }

    /** Appends one record carrying `newId`, the id the clock supplies. */
    method AddPaymentDay(input: PaymentInput, newId: Id)
      modifies this
      ensures data == old(data).(paymentDays := old(data.paymentDays) + [WithId(input, newId)])
      ensures TotalMonthlyIncome(data) == TotalMonthlyIncome(old(data)) + input.amount
      ensures Persisted()
    {
      IncomeAfterAdd(data, input, newId);
      data := data.(paymentDays := data.paymentDays + [WithId(input, newId)]);
      stored := Some(data);
    }

    method RemovePaymentDay(id: Id)
      modifies this
      ensures data == old(data).(paymentDays := RemovePayment(old(data.paymentDays), id))
      ensures TotalMonthlyIncome(data)
           == TotalMonthlyIncome(old(data)) - SumAmounts(PaymentsWithId(old(data.paymentDays), id))
      ensures Persisted()
    {
      IncomeAfterRemove(data.paymentDays, id);
      data := data.(paymentDays := RemovePayment(data.paymentDays, id));
      stored := Some(data);
    }

    /** No range check: any percentage is stored. */
    method UpdateSavingsPercentage(percentage: real)
      modifies this
      ensures data == old(data).(savingsPercentage := percentage)
      ensures Persisted()
    {
      data := data.(savingsPercentage := percentage);
      stored := Some(data);
    }

    method UpdateMonthlyExpenses(amount: real)
      modifies this
      ensures data == old(data).(monthlyExpenses := amount)
      ensures Persisted()
    {
      data := data.(monthlyExpenses := amount);
      stored := Some(data);
    }

    method AddToGoal(goalId: Id, amount: real)
      modifies this
      ensures data == old(data).(savingsGoals := FundById(old(data.savingsGoals), goalId, amount))
      ensures WithinTargets(old(data.savingsGoals)) ==> WithinTargets(data.savingsGoals)
      ensures Persisted()
    {
      if WithinTargets(data.savingsGoals) {
        FundKeepsWithinTargets(data.savingsGoals, goalId, amount);
      }
      data := data.(savingsGoals := FundById(data.savingsGoals, goalId, amount));
      stored := Some(data);
    }

    method AddSavingsGoal(goal: GoalInput, newId: Id)
      modifies this
      ensures data == old(data).(savingsGoals := old(data.savingsGoals) + [GoalWithId(goal, newId)])
      ensures Persisted()
    {
      data := data.(savingsGoals := data.savingsGoals + [GoalWithId(goal, newId)]);
      stored := Some(data);
    }

    method RemoveSavingsGoal(id: Id)
      modifies this
      ensures data == old(data).(savingsGoals := RemoveGoal(old(data.savingsGoals), id))
      ensures Persisted()
    {
      data := data.(savingsGoals := RemoveGoal(data.savingsGoals, id));
      stored := Some(data);
    }

    method UpdateUserName(name: string)
      modifies this
      ensures data == old(data).(userName := name)
      ensures Persisted()
    {
      data := data.(userName := name);
      stored := Some(data);
    }
  }

  /** Reloading from what a store wrote reproduces its document. Storage is
      the document value itself here, so this holds by that abstraction: the
      JSON text round trip is not modelled. */
  method ReloadRoundTrip(s: FinancialDataStore) returns (t: FinancialDataStore)
    requires s.Persisted()
    ensures t.data == s.data && t.Persisted()
  {
    t := new FinancialDataStore(s.stored);
  }

  /** The scalar setters are idempotent: a second identical call changes nothing. */
  method SetScalarsTwice(s: FinancialDataStore, percentage: real, expenses: real, name: string)
    modifies s
    ensures s.data == old(s.data).(savingsPercentage := percentage, monthlyExpenses := expenses, userName := name)
    ensures s.Persisted()
  {
    s.UpdateSavingsPercentage(percentage);
    var once := s.data;
    s.UpdateSavingsPercentage(percentage);
    assert s.data == once;
    s.UpdateMonthlyExpenses(expenses);
    once := s.data;
    s.UpdateMonthlyExpenses(expenses);
    assert s.data == once;
    s.UpdateUserName(name);
    once := s.data;
    s.UpdateUserName(name);
    assert s.data == once;
  }
}
