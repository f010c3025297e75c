/** The appointment calendar (`ServiceCalendar`): booking one-hour
    appointments, status changes and deletes by id, day/week/month navigation
    and the view window that picks the appointments shown.

    Dates are proleptic Gregorian calendar dates in local time, as `date-fns`
    sees them; a moment is a date plus the milliseconds since its midnight,
    and `Stamp` turns a moment into one integer timestamp. */
module ServiceCalendar {
  import opened Common
  import opened UiCommon

  const DayMs := 86_400_000
  const HourMs := 3_600_000

  type Month = m: int | 1 <= m <= 12 witness 1

  predicate IsLeap(y: int) { y % 4 == 0 && (y % 100 != 0 || y % 400 == 0) }

  function DaysIn(y: int, m: Month): int
  {
    if m == 2 then (if IsLeap(y) then 29 else 28)
    else if m == 4 || m == 6 || m == 9 || m == 11 then 30
    else 31
  }

  function YearLength(y: int): int { if IsLeap(y) then 366 else 365 }

  /** Days of year `y` before the first of month `m`; `m == 13` gives the
      whole year. */
  function DaysBeforeMonth(y: int, m: int): int
    requires 1 <= m <= 13
  {
    var leap := if IsLeap(y) && m >= 3 then 1 else 0;
    [0, 31, 59, 90, 120, 151, 181, 212, 243, 273, 304, 334, 365][m - 1] + leap
  }

  /** Days from 0001-01-01 to the first of January of year `y`. */
  function DaysBeforeYear(y: int): int
  {
    365 * (y - 1) + (y - 1) / 4 - (y - 1) / 100 + (y - 1) / 400
  }

  lemma DivStep4(y: int)
    ensures y / 4 - (y - 1) / 4 == if y % 4 == 0 then 1 else 0
  {
  }

  lemma DivStep100(y: int)
    ensures y / 100 - (y - 1) / 100 == if y % 100 == 0 then 1 else 0
  {
  }

  lemma DivStep400(y: int)
    ensures y / 400 - (y - 1) / 400 == if y % 400 == 0 then 1 else 0
  {
  }

  /** Consecutive years are as far apart as the first one is long. */
  lemma YearStep(y: int)
    ensures DaysBeforeYear(y + 1) == DaysBeforeYear(y) + YearLength(y)
  {
    DivStep4(y);
    DivStep100(y);
    DivStep400(y);
    DivisorsOfCenturies(y);
  }

  /** A multiple of 400 is a multiple of 100, and a multiple of 100 one of 4. */
  lemma DivisorsOfCenturies(y: int)
    ensures y % 400 == 0 ==> y % 100 == 0
    ensures y % 100 == 0 ==> y % 4 == 0
  {
    if y % 400 == 0 {
      var q := y / 400;
      assert y == 400 * q;
      assert y == 100 * (4 * q);
    }
    if y % 100 == 0 {
      var q := y / 100;
      assert y == 100 * q;
      assert y == 4 * (25 * q);
    }
  }

  lemma {:induction false} YearsIncrease(y1: int, y2: int)
    requires y1 < y2
    ensures DaysBeforeYear(y1) + YearLength(y1) <= DaysBeforeYear(y2)
    decreases y2 - y1
  {
    YearStep(y1);
    if y1 + 1 < y2 {
      YearsIncrease(y1 + 1, y2);
    }
  }

  datatype Civil = Civil(year: int, month: Month, day: int)

  predicate ValidDate(c: Civil) { 1 <= c.day <= DaysIn(c.year, c.month) }

  /** Day number counted from 0001-01-01 (a Monday), which is 0. */
  function Ordinal(c: Civil): int
  {
    DaysBeforeYear(c.year) + DaysBeforeMonth(c.year, c.month) + c.day - 1
  }

  /** `y * 12 + (m - 1)`: months counted from the start of year 0. */
  function MonthIndex(c: Civil): int { c.year * 12 + (c.month - 1) }

  /** Calendar order. */
  predicate Before(a: Civil, b: Civil)
  {
    a.year < b.year || (a.year == b.year && (a.month < b.month || (a.month == b.month && a.day < b.day)))
  }

  lemma OrdinalMonotone(a: Civil, b: Civil)
    requires ValidDate(a) && ValidDate(b) && Before(a, b)
    ensures Ordinal(a) < Ordinal(b)
  {
    if a.year < b.year {
      YearsIncrease(a.year, b.year);
      MonthsIncrease(a.year, a.month, 13);
    } else if a.month < b.month {
      MonthsIncrease(a.year, a.month + 1, b.month);
    }
  }

  lemma {:induction false} MonthsIncrease(y: int, m1: int, m2: int)
    requires 1 <= m1 <= m2 <= 13
    ensures m1 <= 12 ==> DaysBeforeMonth(y, m1) + DaysIn(y, m1) <= DaysBeforeMonth(y, m2) || m1 == m2
    ensures DaysBeforeMonth(y, m1) <= DaysBeforeMonth(y, m2)
    decreases m2 - m1
  {
    if m1 < m2 {
      MonthsIncrease(y, m1 + 1, m2);
    }
  }

  /** Distinct dates have distinct day numbers. */
  lemma OrdinalInjective(a: Civil, b: Civil)
    requires ValidDate(a) && ValidDate(b) && Ordinal(a) == Ordinal(b)
    ensures a == b
  {
    if Before(a, b) {
      OrdinalMonotone(a, b);
    } else if Before(b, a) {
      OrdinalMonotone(b, a);
    }
  }

  /** `addDays(date, 1)`. */
  function NextDay(c: Civil): (r: Civil)
    requires ValidDate(c)
    ensures ValidDate(r) && Ordinal(r) == Ordinal(c) + 1
  {
    if c.day < DaysIn(c.year, c.month) then c.(day := c.day + 1)
    else if c.month < 12 then
      Civil(c.year, c.month + 1, 1)
    else
      YearStep(c.year);
      Civil(c.year + 1, 1, 1)
  }

  /** `subDays(date, 1)`. */
  function PrevDay(c: Civil): (r: Civil)
    requires ValidDate(c)
    ensures ValidDate(r) && Ordinal(r) == Ordinal(c) - 1
  {
    if c.day > 1 then c.(day := c.day - 1)
    else if c.month > 1 then
      Civil(c.year, c.month - 1, DaysIn(c.year, c.month - 1))
    else
      YearStep(c.year - 1);
      Civil(c.year - 1, 12, 31)
  }

  /** `addDays(date, n)` for any whole `n`, negative going back. */
  function AddDays(c: Civil, n: int): (r: Civil)
    requires ValidDate(c)
    ensures ValidDate(r) && Ordinal(r) == Ordinal(c) + n
    decreases if n < 0 then -n else n
  {
    if n == 0 then c
    else if n > 0 then AddDays(NextDay(c), n - 1)
    else AddDays(PrevDay(c), n + 1)
  }

  /** `addMonths(date, n)`: the same day of the month `n` months on, clamped
      to the last day of a shorter month. */
  function AddMonths(c: Civil, n: int): (r: Civil)
    requires ValidDate(c)
    ensures ValidDate(r) && MonthIndex(r) == MonthIndex(c) + n
    ensures r.day == Min(c.day, DaysIn(r.year, r.month))
  {
    var idx := MonthIndex(c) + n;
    var y, m := idx / 12, idx % 12 + 1;
    Civil(y, m, Min(c.day, DaysIn(y, m)))
  }

  /** A local date and the milliseconds since its midnight. */
  datatype Moment = Moment(date: Civil, ms: int)

  predicate ValidMoment(t: Moment) { ValidDate(t.date) && 0 <= t.ms < DayMs }

  /** Milliseconds since 0001-01-01T00:00 local time. */
  function Stamp(t: Moment): int { Ordinal(t.date) * DayMs + t.ms }

  /** `new Date(start.getTime() + 60 * 60 * 1000)`. */
  function AddHour(t: Moment): (r: Moment)
    requires ValidMoment(t)
    ensures ValidMoment(r) && Stamp(r) == Stamp(t) + HourMs
  {
    if t.ms + HourMs < DayMs then t.(ms := t.ms + HourMs)
    else Moment(NextDay(t.date), t.ms + HourMs - DayMs)
  }

  // ---------------------------------------------------------------------------
  // Navigation
  // ---------------------------------------------------------------------------

  datatype View = DayView | WeekView | MonthView

  datatype Direction = Back | Next

  /** `handleNavigate`: one day, one week or one month back or forward; the
      time of day is kept. */
  function Navigate(t: Moment, view: View, dir: Direction): (r: Moment)
    requires ValidMoment(t)
    ensures ValidMoment(r) && r.ms == t.ms
    ensures view == DayView ==> Ordinal(r.date) == Ordinal(t.date) + (if dir == Next then 1 else -1)
    ensures view == WeekView ==> Ordinal(r.date) == Ordinal(t.date) + (if dir == Next then 7 else -7)
    ensures view == MonthView ==> MonthIndex(r.date) == MonthIndex(t.date) + (if dir == Next then 1 else -1)
    ensures view == MonthView ==> r.date.day == Min(t.date.day, DaysIn(r.date.year, r.date.month))
  {
    var step := if dir == Next then 1 else -1;
    match view
    case DayView => t.(date := AddDays(t.date, step))
    case WeekView => t.(date := AddDays(t.date, 7 * step))
    case MonthView => t.(date := AddMonths(t.date, step))
  }

  function Opposite(dir: Direction): Direction { if dir == Next then Back else Next }

  /** In the day and week views a step forward and a step back return to
      the same moment. */
  lemma DayWeekRoundTrip(t: Moment, view: View, dir: Direction)
    requires ValidMoment(t) && view != MonthView
    ensures Navigate(Navigate(t, view, dir), view, Opposite(dir)) == t
  {
    var u := Navigate(Navigate(t, view, dir), view, Opposite(dir));
    OrdinalInjective(u.date, t.date);
  }

  lemma MonthIndexInjective(a: Civil, b: Civil)
    requires MonthIndex(a) == MonthIndex(b)
    ensures a.year == b.year && a.month == b.month
  {
    assert a.year < b.year ==> MonthIndex(a) < b.year * 12;
    assert b.year < a.year ==> MonthIndex(b) < a.year * 12;
  }

  /** In the month view the round trip returns to the same moment exactly
      when the day of the month survives the step, that is when the month
      stepped to has that day. */
  lemma MonthRoundTrip(t: Moment, dir: Direction)
    requires ValidMoment(t)
    ensures var there := Navigate(t, MonthView, dir);
            (Navigate(there, MonthView, Opposite(dir)) == t <==> t.date.day <= DaysIn(there.date.year, there.date.month))
  {
    var there := Navigate(t, MonthView, dir);
    var back := Navigate(there, MonthView, Opposite(dir));
    MonthIndexInjective(back.date, t.date);
  }

  /** The clamp shows: from 31 January 2025 a month forward and back lands
      on 28 January. */
  lemma MonthRoundTripClamps()
    ensures var t := Moment(Civil(2025, 1, 31), 0);
            Navigate(Navigate(t, MonthView, Next), MonthView, Back) == Moment(Civil(2025, 1, 28), 0)
  {
    var t := Moment(Civil(2025, 1, 31), 0);
    assert Navigate(t, MonthView, Next).date == Civil(2025, 2, 28);
  }

  // ---------------------------------------------------------------------------
  // View windows
  // ---------------------------------------------------------------------------

  /** Weeks start on Sunday (`startOfWeek`'s default); 0001-01-01 was a
      Monday, so day number `o` lies in week `(o + 1) / 7`. */
  function WeekIndex(c: Civil): int { (Ordinal(c) + 1) / 7 }

  /** The filter of `filteredAppointments`: the same day, the same Sunday-
      to-Saturday week, or the same month as the cursor. */
  predicate InWindow(view: View, start: Moment, cursor: Moment)
  {
    match view
    case DayView => start.date == cursor.date
    case WeekView => WeekIndex(start.date) == WeekIndex(cursor.date)
    case MonthView => start.date.year == cursor.date.year && start.date.month == cursor.date.month
  }

  /** Each window is the closed interval of timestamps `isSameDay` and
      `isWithinInterval` test: midnight of its first day to the last
      millisecond of its last day. */
  lemma DayWindowIsInterval(start: Moment, cursor: Moment)
    requires ValidMoment(start) && ValidMoment(cursor)
    ensures InWindow(DayView, start, cursor) <==>
              Ordinal(cursor.date) * DayMs <= Stamp(start) <= (Ordinal(cursor.date) + 1) * DayMs - 1
  {
    if Ordinal(cursor.date) * DayMs <= Stamp(start) <= (Ordinal(cursor.date) + 1) * DayMs - 1 {
      assert Ordinal(start.date) == Ordinal(cursor.date);
      OrdinalInjective(start.date, cursor.date);
    }
  }

  lemma WeekWindowIsInterval(start: Moment, cursor: Moment)
    requires ValidMoment(start) && ValidMoment(cursor)
    ensures var first := 7 * WeekIndex(cursor.date) - 1;
            InWindow(WeekView, start, cursor) <==> first * DayMs <= Stamp(start) <= (first + 7) * DayMs - 1
  {
    var first := 7 * WeekIndex(cursor.date) - 1;
    var o := Ordinal(start.date);
    assert InWindow(WeekView, start, cursor) <==> first <= o <= first + 6;
  }

  lemma MonthWindowIsInterval(start: Moment, cursor: Moment)
    requires ValidMoment(start) && ValidMoment(cursor)
    ensures var y, m := cursor.date.year, cursor.date.month;
            InWindow(MonthView, start, cursor) <==>
              Ordinal(Civil(y, m, 1)) * DayMs <= Stamp(start) <= (Ordinal(Civil(y, m, DaysIn(y, m))) + 1) * DayMs - 1
  {
    var y, m := cursor.date.year, cursor.date.month;
    var first, last := Civil(y, m, 1), Civil(y, m, DaysIn(y, m));
    var s := start.date;
    if Before(s, first) {
      OrdinalMonotone(s, first);
    } else if Before(last, s) {
      OrdinalMonotone(last, s);
    }
  }

  // ---------------------------------------------------------------------------
  // Appointments
  // ---------------------------------------------------------------------------

  datatype Appointment = Appointment(id: int, title: string, start: Moment, end: Moment, customer: string, status: string)

  /** The booking form; `date` and `time` are the raw input texts. */
  datatype BookingForm = BookingForm(title: string, customer: string, date: string, time: string)

  datatype Request =
    | PostAppointment(title: string, customer: string, start: Moment, end: Moment, status: string)
    | PatchStatus(id: int, status: string)
    | DeleteAppointment(id: int)

  datatype Outcome = Rejected | Failed | Done

  function ApptId(a: Appointment): int { a.id }
  function ApptStamp(a: Appointment): int { Stamp(a.start) }

  /** `filteredAppointments`: the appointments starting inside the view's
      window, earliest first. */
  function Visible(appts: seq<Appointment>, view: View, cursor: Moment): (r: seq<Appointment>)
    ensures forall a :: a in r <==> a in appts && InWindow(view, a.start, cursor)
    ensures forall i, j :: 0 <= i < j < |r| ==> Stamp(r[i].start) <= Stamp(r[j].start)
    ensures multiset(r) == multiset(Filter(appts, (a: Appointment) => InWindow(view, a.start, cursor)))
  {
    var inside := Filter(appts, (a: Appointment) => InWindow(view, a.start, cursor));
    var r := OldestFirst(inside, ApptStamp);
    assert forall a :: a in r <==> a in multiset(r);
    assert forall a :: a in inside <==> a in multiset(inside);
    r
  }

  /** `handleSave`'s guard: every field filled in. */
  predicate Complete(f: BookingForm)
  {
    Truthy(f.title) && Truthy(f.customer) && Truthy(f.date) && Truthy(f.time)
  }

  /** The calendar's React state; `sent` logs the HTTP writes. */
  class Calendar {
    var appointments: seq<Appointment>
    var view: View
    var cursor: Moment
    var form: BookingForm
    var sent: seq<Request>

    /** `today` is the moment the page opens and `todayText` its
        `yyyy-MM-dd` form. */
    constructor(today: Moment, todayText: string)
      requires ValidMoment(today)
      ensures appointments == [] && view == WeekView && cursor == today && sent == []
      ensures form == BookingForm("", "", todayText, "09:00")
    {
      appointments := [];
      view := WeekView;
      cursor := today;
      form := BookingForm("", "", todayText, "09:00");
      sent := [];
    }

    /** `fetchAppointments`. */
    method Load(rows: seq<Appointment>)
      modifies this`appointments
      ensures appointments == rows
    {
      appointments := rows;
    }

    /** `handleSave`; `start` is `new Date(date + "T" + time)`, `None` when
        that is an invalid date (its `toISOString` throws); `ok` says whether
        the post succeeds, and `reload` is the server's appointments for the
        refetch that follows a booking (`None` when it fails and the list
        stays).  The booking lasts one hour and is SCHEDULED; a booked form
        keeps its date and time. */
    method Save(start: Option<Moment>, ok: bool, reload: Option<seq<Appointment>>) returns (outcome: Outcome)
      requires start.Some? ==> ValidMoment(start.value)
      modifies this`form, this`sent, this`appointments
      ensures outcome == Rejected <==> !Complete(old(form))
      ensures outcome == Rejected || (outcome == Failed && start.None?) ==> sent == old(sent) && form == old(form)
      ensures outcome != Rejected && start.Some? ==>
                sent == old(sent) + [PostAppointment(old(form).title, old(form).customer, start.value, AddHour(start.value), "SCHEDULED")] &&
                Stamp(AddHour(start.value)) == Stamp(start.value) + HourMs
      ensures outcome == Done <==> Complete(old(form)) && start.Some? && ok
      ensures outcome == Done ==> form == old(form).(title := "", customer := "")
      ensures outcome == Failed ==> form == old(form)
      ensures outcome == Done && reload.Some? ==> appointments == reload.value
      ensures outcome != Done || reload.None? ==> appointments == old(appointments)
    {
      if !Complete(form) {
        return Rejected;
      }
      if start.None? {
        return Failed;
      }
      var end := AddHour(start.value);
      sent := sent + [PostAppointment(form.title, form.customer, start.value, end, "SCHEDULED")];
      if !ok {
        return Failed;
      }
      form := form.(title := "", customer := "");
      if reload.Some? {
        Load(reload.value);
      }
      outcome := Done;
    }

    /** `handleStatusChange`: rewrite locally, then patch. */
    method ChangeStatus(id: int, newStatus: string)
      modifies this`appointments, this`sent
      ensures appointments == MapWhere(old(appointments), ApptId, id, (a: Appointment) => a.(status := newStatus))
      ensures sent == old(sent) + [PatchStatus(id, newStatus)]
    {
      appointments := MapWhere(appointments, ApptId, id, (a: Appointment) => a.(status := newStatus));
      sent := sent + [PatchStatus(id, newStatus)];
    }

    /** `handleDelete`; `confirmed` answers the dialog and `ok` says whether
        the delete succeeds; only then is the appointment dropped. */
    method Delete(id: int, confirmed: bool, ok: bool)
      modifies this`appointments, this`sent
      ensures !confirmed ==> appointments == old(appointments) && sent == old(sent)
      ensures confirmed ==> sent == old(sent) + [DeleteAppointment(id)]
      ensures appointments == if confirmed && ok then Without(old(appointments), ApptId, id) else old(appointments)
    {
      if !confirmed {
        return;
      }
      sent := sent + [DeleteAppointment(id)];
      if ok {
        appointments := Without(appointments, ApptId, id);
      }
    }

    /** `handleNavigate` on the current view. */
    method Step(dir: Direction)
      requires ValidMoment(cursor)
      modifies this`cursor
      ensures cursor == Navigate(old(cursor), view, dir) && ValidMoment(cursor)
    {
      cursor := Navigate(cursor, view, dir);
    }

    /** `setView`. */
    method SetView(v: View)
      modifies this`view
      ensures view == v
    {
      view := v;
    }
  }
}
