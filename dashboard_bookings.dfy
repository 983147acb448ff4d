/** Booking-level rules of the management dashboard (dashboard.js): the quick
    statistics over the loaded bookings and stadiums, the per-day booking
    counts behind the bookings chart, and which action buttons a booking row
    offers to a role. */
module DashboardBookings {
  import opened Base
  import opened DashboardRoles

  /** A booking as the backend returns it; `amount` and `deposit_amount` may
      be missing. Money is in whole currency units. */
  datatype Booking = Booking(
    id: string,
    status: string,
    date: string,
    amount: Option<int>,
    depositAmount: Option<int>)

  /** A stadium as the dashboard uses it. */
  datatype Stadium = Stadium(id: int, name: string, isActive: bool)

  // ---------------------------------------------------------------------
  // calculateQuickStats
  // ---------------------------------------------------------------------

  datatype QuickStats = QuickStats(
    totalBookings: nat,
    totalRevenue: int,
    activeStadiums: nat,
    pendingBookings: nat,
    todayBookings: nat)

  /** The bookings whose amount is counted as revenue. */
  predicate IsPaidStatus(status: string)
  {
    status == "confirmed" || status == "completed"
  }

  /** `b.amount || 0`. */
  function AmountOrZero(b: Booking): int
  {
    if b.amount.Some? then b.amount.value else 0
  }

  /** `filter(b => b.status === status).length`. */
  function CountStatus(bs: seq<Booking>, status: string): (n: nat)
    ensures n <= |bs|
    decreases |bs|
  {
    if bs == [] then 0
    else (if bs[0].status == status then 1 else 0) + CountStatus(bs[1..], status)
  }

  /** `filter(b => b.date === date).length`. */
  function CountOnDate(bs: seq<Booking>, date: string): (n: nat)
    ensures n <= |bs|
    decreases |bs|
  {
    if bs == [] then 0
    else (if bs[0].date == date then 1 else 0) + CountOnDate(bs[1..], date)
  }

  /** `filter(s => s.is_active).length`. */
  function CountActive(ss: seq<Stadium>): (n: nat)
    ensures n <= |ss|
    decreases |ss|
  {
    if ss == [] then 0 else (if ss[0].isActive then 1 else 0) + CountActive(ss[1..])
  }

  /** The revenue reduction: amounts (missing as 0) of confirmed or completed bookings. */
  function Revenue(bs: seq<Booking>): int
    decreases |bs|
  {
    if bs == [] then 0
    else (if IsPaidStatus(bs[0].status) then AmountOrZero(bs[0]) else 0) + Revenue(bs[1..])
  }

  /** `calculateQuickStats()`, with today's ISO date passed in. */
  function CalculateQuickStats(bookings: seq<Booking>, stadiums: seq<Stadium>, today: string): (s: QuickStats)
    ensures s.totalBookings == |bookings|
    ensures s.pendingBookings <= s.totalBookings
    ensures s.todayBookings <= s.totalBookings
    ensures s.activeStadiums <= |stadiums|
  {
    QuickStats(
      |bookings|,
      Revenue(bookings),
      CountActive(stadiums),
      CountStatus(bookings, "pending"),
      CountOnDate(bookings, today))
  }

  /** The statuses of the bookings, in order. */
  function Statuses(bs: seq<Booking>): seq<string>
  {
    seq(|bs|, i requires 0 <= i < |bs| => bs[i].status)
  }

  /** A status count is the number of times the status occurs among the bookings. */
  lemma {:induction false} CountStatusIsMultiplicity(bs: seq<Booking>, status: string)
    ensures CountStatus(bs, status) == multiset(Statuses(bs))[status]
    decreases |bs|
  {
    if bs != [] {
      CountStatusIsMultiplicity(bs[1..], status);
      assert Statuses(bs) == [bs[0].status] + Statuses(bs[1..]);
    }
  }

  /** Two different statuses never count the same booking. */
  lemma {:induction false} DistinctStatusCountsBounded(bs: seq<Booking>, s1: string, s2: string)
    requires s1 != s2
    ensures CountStatus(bs, s1) + CountStatus(bs, s2) <= |bs|
    decreases |bs|
  {
    if bs != [] {
      DistinctStatusCountsBounded(bs[1..], s1, s2);
    }
  }

  /** Revenue adds up over concatenated booking lists. */
  lemma {:induction false} RevenueAppend(a: seq<Booking>, b: seq<Booking>)
    ensures Revenue(a + b) == Revenue(a) + Revenue(b)
    decreases |a|
  {
    if a == [] {
      assert a + b == b;
    } else {
      assert (a + b)[1..] == a[1..] + b;
      RevenueAppend(a[1..], b);
    }
  }

  /** One booking contributes its amount (missing as 0) exactly when it is
      confirmed or completed. */
  lemma RevenueSingle(b: Booking)
    ensures Revenue([b]) == if IsPaidStatus(b.status) then AmountOrZero(b) else 0
  {
    assert [b][1..] == [];
  }

  /** Bookings that are neither confirmed nor completed add no revenue. */
  lemma {:induction false} RevenueOfUnpaid(bs: seq<Booking>)
    requires forall i :: 0 <= i < |bs| ==> !IsPaidStatus(bs[i].status)
    ensures Revenue(bs) == 0
    decreases |bs|
  {
    if bs != [] {
      RevenueOfUnpaid(bs[1..]);
    }
  }

  // ---------------------------------------------------------------------
  // getBookingsByDate
  // ---------------------------------------------------------------------

  /** `dates.map(date => bookings on that date)`. */
  function BookingsByDate(bs: seq<Booking>, dates: seq<string>): (counts: seq<nat>)
    ensures |counts| == |dates|
    ensures forall i :: 0 <= i < |dates| ==> counts[i] <= |bs|
  {
    seq(|dates|, i requires 0 <= i < |dates| => CountOnDate(bs, dates[i]))
  }

  function Sum(xs: seq<nat>): nat
    decreases |xs|
  {
    if xs == [] then 0 else xs[0] + Sum(xs[1..])
  }

  predicate Distinct(dates: seq<string>)
  {
    forall i, j :: 0 <= i < j < |dates| ==> dates[i] != dates[j]
  }

  /** How many of the chart's dates equal `d`. */
  function Occurrences(dates: seq<string>, d: string): nat
    decreases |dates|
  {
    if dates == [] then 0 else (if dates[0] == d then 1 else 0) + Occurrences(dates[1..], d)
  }

  lemma {:induction false} OccurrencesOfDistinct(dates: seq<string>, d: string)
    requires Distinct(dates)
    ensures Occurrences(dates, d) <= 1
    decreases |dates|
  {
    if dates != [] {
      OccurrencesOfDistinct(dates[1..], d);
      if dates[0] == d {
        OccurrencesAbsent(dates[1..], d);
      }
    }
  }

  lemma {:induction false} OccurrencesAbsent(dates: seq<string>, d: string)
    requires d !in dates
    ensures Occurrences(dates, d) == 0
    decreases |dates|
  {
    if dates != [] {
      OccurrencesAbsent(dates[1..], d);
    }
  }

  /** Adding one booking in front raises the chart total by the number of
      chart dates equal to its date. */
  lemma {:induction false} ChartTotalCons(b: Booking, rest: seq<Booking>, dates: seq<string>)
    ensures Sum(BookingsByDate([b] + rest, dates))
      == Occurrences(dates, b.date) + Sum(BookingsByDate(rest, dates))
    decreases |dates|
  {
    if dates != [] {
      ChartTotalCons(b, rest, dates[1..]);
      assert ([b] + rest)[1..] == rest;
      assert BookingsByDate([b] + rest, dates)[1..] == BookingsByDate([b] + rest, dates[1..]);
      assert BookingsByDate(rest, dates)[1..] == BookingsByDate(rest, dates[1..]);
    }
  }

  /** Over distinct dates the chart never shows more bookings than were loaded. */
  lemma {:induction false} ChartTotalBounded(bs: seq<Booking>, dates: seq<string>)
    requires Distinct(dates)
    ensures Sum(BookingsByDate(bs, dates)) <= |bs|
    decreases |bs|
  {
    if bs == [] {
      ChartOfNoBookings(dates);
    } else {
      assert [bs[0]] + bs[1..] == bs;
      ChartTotalCons(bs[0], bs[1..], dates);
      OccurrencesOfDistinct(dates, bs[0].date);
      ChartTotalBounded(bs[1..], dates);
    }
  }

  lemma {:induction false} ChartOfNoBookings(dates: seq<string>)
    ensures Sum(BookingsByDate([], dates)) == 0
    decreases |dates|
  {
    if dates != [] {
      assert BookingsByDate([], dates)[1..] == BookingsByDate([], dates[1..]);
      ChartOfNoBookings(dates[1..]);
    }
  }

  /** The chart's bar for today agrees with the "today" statistic. */
  lemma ChartAgreesWithStats(bs: seq<Booking>, ss: seq<Stadium>, dates: seq<string>, i: nat)
    requires i < |dates|
    ensures BookingsByDate(bs, dates)[i] == CalculateQuickStats(bs, ss, dates[i]).todayBookings
  {
  }

  // ---------------------------------------------------------------------
  // getBookingActions
  // ---------------------------------------------------------------------

  /** The buttons of a booking row, in the order they are rendered. */
  datatype BookingAction = Confirm | Cancel | CheckIn | Details

  function Position(a: BookingAction): nat
  {
    match a
    case Confirm => 0
    case Cancel => 1
    case CheckIn => 2
    case Details => 3
  }

  /** `getBookingActions(booking)`: appends one button per rule that applies.
      `deposit_amount === 0` holds only for a present zero deposit. */
  method GetBookingActions(role: string, b: Booking) returns (actions: seq<BookingAction>)
    ensures |actions| > 0 && actions[|actions| - 1] == Details
    ensures Confirm in actions <==>
      role != Employee && b.status == "pending" && b.depositAmount == Some(0)
    ensures Cancel in actions <==>
      role != Employee && (b.status == "confirmed" || b.status == "pending")
    ensures CheckIn in actions <==> role == Employee && b.status == "booked_confirmed"
    ensures forall i, j :: 0 <= i < j < |actions| ==> Position(actions[i]) < Position(actions[j])
  {
    actions := [];
    if role != Employee {
      if b.status == "pending" && b.depositAmount == Some(0) {
        actions := actions + [Confirm];
      }
      if b.status == "confirmed" || b.status == "pending" {
        actions := actions + [Cancel];
      }
    }
    if role == Employee && b.status == "booked_confirmed" {
      actions := actions + [CheckIn];
    }
    actions := actions + [Details];
  }
}
