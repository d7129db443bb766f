/** The next-payday countdown (src/components/NextPaydayCountdown.tsx): sort a
    copy of the payment days by day, take the first one later this month, or
    else wrap to the earliest day of next month; separately, tell whether some
    payment falls today. */
module NextPaydayCountdown {
  import opened Finance
  import opened Calendar

  ghost predicate SortedByDay(s: seq<PaymentDay>)
  {
    forall i, j :: 0 <= i < j < |s| ==> s[i].day <= s[j].day
  }

  /** Inserts `p` before the first entry whose day is not smaller, so entries
      with equal days keep their order. */
  function InsertByDay(p: PaymentDay, s: seq<PaymentDay>): (r: seq<PaymentDay>)
    ensures multiset(r) == multiset(s) + multiset{p}
  {
    if s == [] || p.day <= s[0].day then [p] + s
    else
      assert s == [s[0]] + s[1..];
      [s[0]] + InsertByDay(p, s[1..])
  }

  lemma ConsSorted(h: PaymentDay, s: seq<PaymentDay>)
    requires SortedByDay(s)
    requires forall q :: q in s ==> h.day <= q.day
    ensures SortedByDay([h] + s)
  {
    var r := [h] + s;
    forall i, j | 0 <= i < j < |r|
      ensures r[i].day <= r[j].day
    {
      assert r[j] == s[j - 1];
      if i > 0 {
        assert r[i] == s[i - 1];
      }
    }
  }

  /** Inserting into a sorted list keeps it sorted. */
  lemma {:induction false} InsertKeepsSorted(p: PaymentDay, s: seq<PaymentDay>)
    requires SortedByDay(s)
    ensures SortedByDay(InsertByDay(p, s))
  {
    if s == [] || p.day <= s[0].day {
      ConsSorted(p, s);
    } else {
      var tail := s[1..];
      assert SortedByDay(tail) by {
        forall i, j | 0 <= i < j < |tail| ensures tail[i].day <= tail[j].day {
          assert tail[i] == s[i + 1] && tail[j] == s[j + 1];
        }
      }
      InsertKeepsSorted(p, tail);
      var rest := InsertByDay(p, tail);
      forall q | q in rest
        ensures s[0].day <= q.day
      {
        assert q in multiset(rest);
        if q != p {
          var k :| 0 <= k < |tail| && tail[k] == q;
          assert s[k + 1] == q;
        }
      }
      ConsSorted(s[0], rest);
    }
  }

  /** `[...paymentDays].sort((a, b) => a.day - b.day)`: a sorted copy with the
      same entries. */
  function SortByDay(ps: seq<PaymentDay>): (r: seq<PaymentDay>)
    ensures SortedByDay(r)
    ensures multiset(r) == multiset(ps)
    ensures |r| == |ps|
  {
    if ps == [] then []
    else
      assert ps == [ps[0]] + ps[1..];
      var sortedTail := SortByDay(ps[1..]);
      InsertKeepsSorted(ps[0], sortedTail);
      InsertByDay(ps[0], sortedTail)
  }

  /** The index of the first entry later than `currentDay`, or `|s|`. */
  function FirstLaterIndex(s: seq<PaymentDay>, currentDay: int): (i: nat)
    ensures i <= |s|
    ensures forall j :: 0 <= j < i ==> s[j].day <= currentDay
    ensures i < |s| ==> s[i].day > currentDay
  {
    if s == [] || s[0].day > currentDay then 0
    else 1 + FirstLaterIndex(s[1..], currentDay)
  }

  /** `find(p => p.day > currentDay)` */
  function FindLater(s: seq<PaymentDay>, currentDay: int): (r: Option<PaymentDay>)
    ensures r.Some? ==> r.value in s && r.value.day > currentDay
    ensures r.Some? ==> exists i :: 0 <= i < |s| && s[i] == r.value
                                    && forall j :: 0 <= j < i ==> s[j].day <= currentDay
    ensures r.None? <==> forall p :: p in s ==> p.day <= currentDay
  {
    var i := FirstLaterIndex(s, currentDay);
    if i < |s| then Some(s[i]) else None
  }

  datatype Countdown = Countdown(next: PaymentDay, daysUntil: int, isPayday: bool)

  /** The countdown for `today`, or None when there are no payment days. The
      payment chosen is always a stored one, and the payday flag says whether
      any stored payment falls today. In the wrap branch the distance is
      `new Date(y, m + 1, day)` minus today, counted in whole calendar days. */
  function Compute(ps: seq<PaymentDay>, today: CalendarDate): (r: Option<Countdown>)
    ensures r.None? <==> |ps| == 0
    ensures r.Some? ==> r.value.next in ps
    ensures r.Some? ==> (r.value.isPayday <==> exists p :: p in ps && p.day == today.day)
  {
    if |ps| == 0 then None
    else
      var sorted := SortByDay(ps);
      SameEntries(ps);
      var c := today.day;
      var later := FindLater(sorted, c);
      var next := if later.Some? then later.value else sorted[0];
      var daysUntil :=
        if later.Some? then next.day - c
        else WrapDays(today, next.day);
      Some(Countdown(next, daysUntil, HasDay(sorted, c)))
  }

  /** Some entry falls on `day`. */
  predicate HasDay(s: seq<PaymentDay>, day: int)
    ensures HasDay(s, day) <==> exists p :: p in s && p.day == day
  {
    exists i :: 0 <= i < |s| && s[i].day == day
  }

  /** `new Date(y, m + 1, day)` minus today in days: the rest of this month
      plus `day`, across a year's end too. */
  function WrapDays(today: CalendarDate, day: int): (n: int)
    ensures 0 <= today.month < 12 ==> n == DaysInMonth(today.year, today.month) - today.day + day
  {
    var n := DayNumber(today.year, today.month + 1, day) - DayNumber(today.year, today.month, today.day);
    if 0 <= today.month < 12 then
      NextMonthDistance(today.year, today.month, today.day, day);
      n
    else n
  }

  /** What the card shows: the payday message, or the count with its word. */
  datatype Message = PaydayToday | DaysLeft(count: int, word: string, day: int)

  function Render(cd: Countdown): (m: Message)
    ensures m.PaydayToday? <==> cd.isPayday
    ensures m.DaysLeft? ==> m.count == cd.daysUntil && m.day == cd.next.day
    ensures m.DaysLeft? ==> (m.word == "dia" <==> cd.daysUntil == 1)
  {
    if cd.isPayday then PaydayToday
    else DaysLeft(cd.daysUntil, if cd.daysUntil == 1 then "dia" else "dias", cd.next.day)
  }

  // ---------------------------------------------------------------------------
  // Properties

  lemma SortedHead(s: seq<PaymentDay>)
    requires SortedByDay(s) && |s| > 0
    ensures forall p :: p in s ==> s[0].day <= p.day
  {
  }

  lemma SameEntries(ps: seq<PaymentDay>)
    ensures forall p :: p in SortByDay(ps) <==> p in ps
  {
    var r := SortByDay(ps);
    forall p ensures p in r <==> p in ps {
      assert p in r <==> p in multiset(r);
      assert p in ps <==> p in multiset(ps);
    }
  }

  /** On a sorted list the first later entry has the least later day. */
  lemma FindLaterIsLeast(sorted: seq<PaymentDay>, c: int)
    requires SortedByDay(sorted)
    requires FindLater(sorted, c).Some?
    ensures forall p :: p in sorted && p.day > c ==> FindLater(sorted, c).value.day <= p.day
  {
    var r := FindLater(sorted, c).value;
    var i :| 0 <= i < |sorted| && sorted[i] == r
             && forall j :: 0 <= j < i ==> sorted[j].day <= c;
    forall p | p in sorted && p.day > c ensures r.day <= p.day {
      var k :| 0 <= k < |sorted| && sorted[k] == p;
      if k < i {
        assert false;
      } else if i < k {
        assert sorted[i].day <= sorted[k].day;
      }
    }
  }

  /** When some payment is later this month, next is the least such day and the
      countdown is the plain difference, at least one. */
  lemma LaterBranch(ps: seq<PaymentDay>, today: CalendarDate, q: PaymentDay)
    requires q in ps && q.day > today.day
    ensures Compute(ps, today).Some?
    ensures var cd := Compute(ps, today).value;
      && cd.next.day > today.day
      && (forall p :: p in ps && p.day > today.day ==> cd.next.day <= p.day)
      && cd.daysUntil == cd.next.day - today.day >= 1
  {
    SameEntries(ps);
    var sorted := SortByDay(ps);
    assert q in sorted;
    FindLaterIsLeast(sorted, today.day);
  }

  /** When no payment is later this month, next is the smallest day overall and
      the countdown runs to that day of the following month: the rest of this
      month plus the day, rolling over as `Date` does. */
  lemma WrapBranch(ps: seq<PaymentDay>, today: CalendarDate)
    requires |ps| > 0 && 0 <= today.month < 12
    requires forall p :: p in ps ==> p.day <= today.day
    ensures var cd := Compute(ps, today).value;
      && (forall p :: p in ps ==> cd.next.day <= p.day)
      && cd.daysUntil == DaysInMonth(today.year, today.month) - today.day + cd.next.day
  {
    SameEntries(ps);
    var sorted := SortByDay(ps);
    SortedHead(sorted);
    var c := today.day;
    assert forall p :: p in sorted ==> p.day <= c;
    ComputeWrap(ps, today);
  }

  /** The wrap branch of `Compute`, unfolded. */
  lemma ComputeWrap(ps: seq<PaymentDay>, today: CalendarDate)
    requires |ps| > 0
    requires FindLater(SortByDay(ps), today.day).None?
    ensures Compute(ps, today).value.next == SortByDay(ps)[0]
    ensures Compute(ps, today).value.daysUntil == WrapDays(today, SortByDay(ps)[0].day)
  {
  }

  /** With a real date and every stored day at least 1, the countdown is at
      least one day in either branch. */
  lemma DaysUntilPositive(ps: seq<PaymentDay>, today: CalendarDate)
    requires |ps| > 0 && ValidDate(today)
    requires forall p :: p in ps ==> p.day >= 1
    ensures Compute(ps, today).value.daysUntil >= 1
  {
    if exists q :: q in ps && q.day > today.day {
      var q :| q in ps && q.day > today.day;
      LaterBranch(ps, today, q);
    } else {
      WrapBranch(ps, today);
    }
  }
}
