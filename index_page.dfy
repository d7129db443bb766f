/** The dashboard's own logic (src/pages/Index.tsx): the payday notification
    gate over the "seen" markers, the dismiss and simulate handlers, and the
    small conditions the page derives from the document. */
module IndexPage {
  import opened Finance
  import opened Calendar
  import opened FinancialDataHook

  /** The storage entry `payday-seen-<year>-<month>-<day>` (month 0-based). */
  datatype Marker = Marker(year: int, month: int, day: int)

  /** A payment the gate may surface today: its day has come this month and
      its marker for this month is not set. */
  predicate Eligible(p: PaymentDay, today: CalendarDate, seen: set<Marker>)
    ensures Eligible(p, today, seen) ==> (IsUpcoming(p, today.day) <==> p.day == today.day)
  {
    p.day <= today.day && Marker(today.year, today.month, p.day) !in seen
  }

  /** The gate: the first payment, in stored order, that is eligible today. */
  function FirstUnseen(ps: seq<PaymentDay>, today: CalendarDate, seen: set<Marker>): (r: Option<PaymentDay>)
    ensures r.Some? ==> exists i :: 0 <= i < |ps| && ps[i] == r.value && Eligible(ps[i], today, seen)
                                    && forall j :: 0 <= j < i ==> !Eligible(ps[j], today, seen)
    ensures r.None? <==> forall p :: p in ps ==> !Eligible(p, today, seen)
  {
    if ps == [] then None
    else if Eligible(ps[0], today, seen) then Some(ps[0])
    else
      var r := FirstUnseen(ps[1..], today, seen);
      if r.Some? then
        var i :| 0 <= i < |ps[1..]| && ps[1..][i] == r.value && Eligible(ps[1..][i], today, seen)
                 && forall j :: 0 <= j < i ==> !Eligible(ps[1..][j], today, seen);
        assert ps[i + 1] == r.value;
        r
      else
        assert forall p :: p in ps ==> p == ps[0] || p in ps[1..];
        r
  }

  /** The page state the gate drives, and the markers in storage. */
  class IndexState {
    var showPaydayModal: bool
    var activePaymentDay: Option<PaymentDay>
    var seen: set<Marker>

    /** `useState(data.paymentDays[0])`: the first payment, if any. */
    constructor (ps: seq<PaymentDay>, stored: set<Marker>)
      ensures !showPaydayModal && seen == stored
      ensures activePaymentDay == (if |ps| > 0 then Some(ps[0]) else None)
    {
      showPaydayModal := false;
      activePaymentDay := if |ps| > 0 then Some(ps[0]) else None;
      seen := stored;
    }

    /** The effect run when the payment days change: open the modal on the
        first unseen payment, or leave everything as it is. */
    method CheckUnseenPayments(ps: seq<PaymentDay>, today: CalendarDate)
      modifies this
      ensures seen == old(seen)
      ensures FirstUnseen(ps, today, seen).Some? ==>
                activePaymentDay == FirstUnseen(ps, today, seen) && showPaydayModal
      ensures FirstUnseen(ps, today, seen).None? ==>
                activePaymentDay == old(activePaymentDay) && showPaydayModal == old(showPaydayModal)
    {
      var unseen := FirstUnseen(ps, today, seen);
      if unseen.Some? {
        activePaymentDay := unseen;
        showPaydayModal := true;
      }
    }

    /** `handleClosePaydayModal`: mark the active payment's day as seen for the
        month of `now`, then close. */
    method ClosePaydayModal(now: CalendarDate)
      modifies this
      ensures activePaymentDay == old(activePaymentDay) && !showPaydayModal
      ensures seen == if activePaymentDay.Some?
                      then old(seen) + {Marker(now.year, now.month, activePaymentDay.value.day)}
                      else old(seen)
    {
      if activePaymentDay.Some? {
        seen := seen + {Marker(now.year, now.month, activePaymentDay.value.day)};
      }
      showPaydayModal := false;
    }

    /** `handleSimulatePayday`: show the first payment whatever the markers say. */
    method SimulatePayday(ps: seq<PaymentDay>)
      modifies this
      ensures seen == old(seen) && showPaydayModal
      ensures activePaymentDay == (if |ps| > 0 then Some(ps[0]) else None)
    {
      activePaymentDay := if |ps| > 0 then Some(ps[0]) else None;
      showPaydayModal := true;
    }
  }

  /** Simulating and then dismissing writes the first payment's marker, and
      nothing at all when there are no payment days; the first payment stays
      the active one. */
  method SimulateThenClose(st: IndexState, ps: seq<PaymentDay>, now: CalendarDate)
    modifies st
    ensures !st.showPaydayModal
    ensures st.activePaymentDay == if |ps| > 0 then Some(ps[0]) else None
    ensures st.seen == if |ps| > 0 then old(st.seen) + {Marker(now.year, now.month, ps[0].day)}
                       else old(st.seen)
  {
    st.SimulatePayday(ps);
    st.ClosePaydayModal(now);
  }

  // ---------------------------------------------------------------------------
  // Gate properties

  /** A payment whose day is still to come this month is never surfaced. */
  lemma NeverSelectsLaterDay(ps: seq<PaymentDay>, today: CalendarDate, seen: set<Marker>)
    requires FirstUnseen(ps, today, seen).Some?
    ensures FirstUnseen(ps, today, seen).value.day <= today.day
    ensures FirstUnseen(ps, today, seen).value in ps
  {
  }

  /** After a dismissal in a month the gate never surfaces a payment on that
      day again that month; markers are per day, so every payment sharing the
      day is silenced together. */
  lemma DismissSilencesDay(ps: seq<PaymentDay>, today: CalendarDate, seen: set<Marker>, day: int)
    requires Marker(today.year, today.month, day) in seen
    ensures forall p :: p in ps && p.day == day ==> !Eligible(p, today, seen)
    ensures FirstUnseen(ps, today, seen).Some? ==> FirstUnseen(ps, today, seen).value.day != day
  {
  }

  /** A marker for one month does not silence the same day in another month. */
  lemma {:induction false} OtherMonthUnaffected(ps: seq<PaymentDay>, today: CalendarDate,
                                                seen: set<Marker>, m: Marker)
    requires (m.year, m.month) != (today.year, today.month)
    ensures FirstUnseen(ps, today, seen + {m}) == FirstUnseen(ps, today, seen)
  {
    if ps != [] {
      assert Eligible(ps[0], today, seen + {m}) == Eligible(ps[0], today, seen);
      OtherMonthUnaffected(ps[1..], today, seen, m);
    }
  }

  /** A dismissal in one month leaves next month's gate exactly as it was. */
  lemma DismissThenNextMonth(ps: seq<PaymentDay>, seen: set<Marker>, now: CalendarDate,
                             day: int, later: CalendarDate)
    requires (later.year, later.month) != (now.year, now.month)
    ensures FirstUnseen(ps, later, seen + {Marker(now.year, now.month, day)})
         == FirstUnseen(ps, later, seen)
  {
    OtherMonthUnaffected(ps, later, seen, Marker(now.year, now.month, day));
  }

  // ---------------------------------------------------------------------------
  // Conditions the page derives from the document

  /** The welcome screen shows when nothing relevant is stored; the name alone
      does not count. */
  predicate IsFirstAccess(d: FinancialData)
    ensures IsFirstAccess(d) ==>
      TotalMonthlyIncome(d) == 0.0 && MonthlySavings(d) == 0.0 && AvailableAfterSavings(d) == 0.0
  {
    |d.paymentDays| == 0 && |d.savingsGoals| == 0 && d.monthlyExpenses == 0.0
  }

  lemma FirstAccessIgnoresName(d: FinancialData, name: string)
    ensures IsFirstAccess(d.(userName := name)) == IsFirstAccess(d)
  {
  }

  lemma DefaultIsFirstAccess()
    ensures IsFirstAccess(DefaultData)
  {
  }

  lemma AddedPaymentEndsFirstAccess(d: FinancialData, input: PaymentInput, newId: Id)
    ensures !IsFirstAccess(d.(paymentDays := d.paymentDays + [WithId(input, newId)]))
  {
  }

  datatype Trend = Up | Down

  /** `availableAfterSavings > 0 ? 'up' : 'down'`: up exactly when expenses
      stay below what is left of the income after savings; a balance of
      exactly zero is down. */
  function TrendOf(d: FinancialData): (t: Trend)
    ensures t == Up
        <==> d.monthlyExpenses < TotalMonthlyIncome(d) * (100.0 - d.savingsPercentage) / 100.0
    ensures AvailableAfterSavings(d) == 0.0 ==> t == Down
  {
    if AvailableAfterSavings(d) > 0.0 then Up else Down
  }

  /** The per-fortnight card: shown only with more than one payment day, with
      half the monthly income. */
  function PerFortnight(d: FinancialData): (r: Option<real>)
    ensures r.Some? <==> |d.paymentDays| > 1
    ensures r.Some? ==> 2.0 * r.value == TotalMonthlyIncome(d)
  {
    if |d.paymentDays| > 1 then Some(TotalMonthlyIncome(d) / 2.0) else None
  }

  /** A chip is highlighted as upcoming from its day onwards. */
  predicate IsUpcoming(p: PaymentDay, todayDay: int)
  {
    p.day >= todayDay
  }

  /** A payment dated today is both an upcoming chip and, until dismissed,
      eligible for the gate. */
  lemma TodayIsUpcomingAndEligible(p: PaymentDay, today: CalendarDate, seen: set<Marker>)
    requires p.day == today.day && Marker(today.year, today.month, today.day) !in seen
    ensures IsUpcoming(p, today.day) && Eligible(p, today, seen)
  {
  }

  /** The payday modal's savings: `totalSavingsPerPayment(activePaymentDay?.amount || 0)`. */
  function ModalSavingsAmount(d: FinancialData, active: Option<PaymentDay>): (r: real)
    ensures active.None? ==> r == 0.0
    ensures active.Some? ==> r == TotalSavingsPerPayment(d, active.value.amount)
  {
    TotalSavingsPerPayment(d, if active.Some? then active.value.amount else 0.0)
  }
}
