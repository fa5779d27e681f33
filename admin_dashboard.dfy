/**
 * The administrator's dashboard (src/pages/AdminDashboard.tsx): the month's
 * bookings, the per-day filter behind the calendar, the status colours and
 * icons, the month grid's leading placeholders, and the status update with
 * its confirmation e-mail.
 */
module AdminDashboard {
  import opened Basics
  import opened Text
  import opened Calendar
  import opened BookingRecord
  import opened SlotPartition
  import opened ClientApi

  // ------------------------------------------------------ getBookingsForDate

  /**
   * The day a booking is listed under: a string date up to its first `T`, a
   * `Date` through `FormatDateYMD`; none for a missing or empty date.
   */
  function BookingDay(b: BookingType): Option<string>
  {
    match b.date
    case None => None
    case Some(DateStr(s)) => if s == "" then None else Some(BeforeFirst(s, 'T'))
    case Some(DateObj(d)) => Some(FormatDateYMD(d))
  }

  /** The filter's test for the calendar day `day`. */
  function OnDay(day: JsDate): BookingType -> bool
  {
    b => BookingDay(b) == Some(FormatDateYMD(day))
  }

  /** `getBookingsForDate`: in their original order, exactly the bookings listed under `day`. */
  function GetBookingsForDate(bookings: seq<BookingType>, day: JsDate): (r: seq<BookingType>)
    ensures forall b :: b in r <==> b in bookings && BookingDay(b) == Some(FormatDateYMD(day))
    ensures forall b :: multiset(r)[b] == (if OnDay(day)(b) then multiset(bookings)[b] else 0)
    ensures SubsequenceOf(r, bookings)
  {
    KeepCounts(bookings, OnDay(day));
    KeepIsSubsequence(bookings, OnDay(day));
    KeepMembers(bookings, OnDay(day));
    Keep(bookings, OnDay(day))
  }

  /** A booking without a date, or with an empty one, is listed under no day. */
  lemma UndatedBookingsNeverListed(bookings: seq<BookingType>, day: JsDate, b: BookingType)
    requires b.date == None || b.date == Some(DateStr(""))
    ensures b !in GetBookingsForDate(bookings, day)
  {
  }

  /** A server timestamp is listed under the day written before its `T`. */
  lemma TimestampListedUnderItsDay(bookings: seq<BookingType>, day: JsDate, b: BookingType, rest: string)
    requires b in bookings
    requires b.date == Some(DateStr(FormatDateYMD(day) + "T" + rest))
    ensures b in GetBookingsForDate(bookings, day)
  {
    var ymd := FormatDateYMD(day);
    NoTInDateText(day);
    IndexAfterPrefix(ymd, 'T', rest);
    assert ymd + "T" + rest == ymd + ['T'] + rest;
    assert (ymd + ['T'] + rest)[..|ymd|] == ymd;
  }

  /** `FormatDateYMD` never writes a `T`. */
  lemma NoTInDateText(day: JsDate)
    ensures 'T' !in FormatDateYMD(day)
  {
    var y, m, d := IntToString(day.year), Pad2(day.month + 1), Pad2(day.day);
    NoLetterInNumeral(if day.year < 0 then -day.year else day.year);
    NoLetterInNumeral(day.month + 1);
    NoLetterInNumeral(day.day);
    assert FormatDateYMD(day) == y + "-" + m + "-" + d;
  }

  lemma {:induction false} NoLetterInNumeral(n: nat)
    ensures 'T' !in NatToString(n) && 'T' !in Pad2(n)
    decreases n
  {
    if n >= 10 {
      NoLetterInNumeral(n / 10);
    }
  }

  /** Among years from 100 on, a `Date` booking is listed under its own day and no other. */
  lemma DateBookingListedOnlyOnItsDay(b: BookingType, d: JsDate, day: JsDate)
    requires b.date == Some(DateObj(d))
    requires d.year >= 100 && day.year >= 100
    ensures OnDay(day)(b) <==> d == day
  {
    if FormatDateYMD(d) == FormatDateYMD(day) {
      ParseFormatRoundTrip(d);
      ParseFormatRoundTrip(day);
    }
  }

  // ------------------------------------------------------ getStatusColor / getStatusIcon

  /** `booking.status || 'pending'`: what the dashboard shows for a booking's status. */
  function ShownStatus(b: BookingType): string
  {
    if b.status.Some? && b.status.value != "" then b.status.value else "pending"
  }

  const Green := "text-green-500"
  const Red := "text-red-500"
  const Yellow := "text-yellow-500"

  /** `getStatusColor`. */
  function StatusColor(status: string): (c: string)
    ensures c in {Green, Red, Yellow}
    ensures c == Green <==> status == "confirmed"
    ensures c == Red <==> status == "cancelled"
  {
    match status
    case "confirmed" => "text-green-500"
    case "cancelled" => "text-red-500"
    case _ => "text-yellow-500"
  }

  datatype IconShape = CheckCircle | XCircle | Clock

  /** The icon `getStatusIcon` draws: a shape in a colour. */
  datatype Icon = Icon(shape: IconShape, colour: string)

  /** `getStatusIcon`. */
  function StatusIcon(status: string): Icon
  {
    match status
    case "confirmed" => Icon(CheckCircle, "text-green-500")
    case "cancelled" => Icon(XCircle, "text-red-500")
    case _ => Icon(Clock, "text-yellow-500")
  }

  /** The icon always wears the status colour, and each colour has its own shape. */
  lemma IconFollowsColour(status: string)
    ensures StatusIcon(status).colour == StatusColor(status)
    ensures StatusIcon(status).shape == match StatusColor(status)
      case "text-green-500" => CheckCircle
      case "text-red-500" => XCircle
      case _ => Clock
  {
  }

  /** Each stored status has its own colour; a booking without one shows as pending. */
  lemma StatusColours(b: BookingType)
    ensures StatusColor(StatusName(Pending)) == Yellow
    ensures StatusColor(StatusName(Confirmed)) == Green
    ensures StatusColor(StatusName(Cancelled)) == Red
    ensures b.status.None? ==> StatusColor(ShownStatus(b)) == Yellow
  {
  }

  // ------------------------------------------------------ the month grid

  /** `startOfMonth(currentMonth)`. */
  function FirstDay(year: int, month: int): JsDate
    requires 0 <= month < 12
  {
    CalendarDate(year, month, 1)
  }

  /** `endOfMonth(currentMonth)`, as a day. */
  function LastDay(year: int, month: int): JsDate
    requires 0 <= month < 12
  {
    CalendarDate(year, month, DaysInMonth(year, month))
  }

  /** `days[0].getDay()`: the number of empty cells before the 1st. */
  function Placeholders(year: int, month: int): (n: nat)
    requires 0 <= month < 12
    ensures n < 7
  {
    DayOfWeek(FirstDay(year, month))
  }

  /** The grid in cell order, Sunday first: the placeholders, then the days of the month. */
  function MonthCells(year: int, month: int): seq<Option<nat>>
    requires 0 <= month < 12
  {
    seq(Placeholders(year, month), _ => None) + seq(DaysInMonth(year, month), i => Some(i + 1))
  }

  /** Counting on from the 1st of a month. */
  lemma {:induction false} WeekdayFromFirst(year: int, month: int, d: nat)
    requires 0 <= month < 12 && d >= 1
    ensures DayOfWeek(CalendarDate(year, month, d)) == (Placeholders(year, month) + d - 1) % 7
    decreases d
  {
    if d > 1 {
      WeekdayFromFirst(year, month, d - 1);
      DayOfWeekStep(year, month, d - 1);
      ModSevenStep(Placeholders(year, month) + d - 2);
    }
  }

  lemma ModSevenStep(x: int)
    ensures (x % 7 + 1) % 7 == (x + 1) % 7
  {
  }

  /** Every day of the month lands in the column of its weekday. */
  lemma GridColumns(year: int, month: int)
    requires 0 <= month < 12
    ensures var cells := MonthCells(year, month);
      && |cells| == Placeholders(year, month) + DaysInMonth(year, month)
      && (forall p | 0 <= p < Placeholders(year, month) :: cells[p].None?)
      && (forall p | Placeholders(year, month) <= p < |cells| ::
            cells[p].Some? && p % 7 == DayOfWeek(CalendarDate(year, month, cells[p].value)))
  {
    var cells := MonthCells(year, month);
    var lead := Placeholders(year, month);
    forall p | lead <= p < |cells|
      ensures cells[p].Some? && p % 7 == DayOfWeek(CalendarDate(year, month, cells[p].value))
    {
      assert cells[p] == Some(p - lead + 1);
      WeekdayFromFirst(year, month, p - lead + 1);
    }
  }

  // ------------------------------------------------------ the dashboard's state

  const UpdateFailedMessage := "Failed to update booking status. Please try again."

  class Dashboard {
    var year: int
    var month: int
    var bookings: seq<BookingType>
    var loading: bool
    var error: Option<string>
    var selectedDate: Option<JsDate>
    var selectedBooking: Option<BookingType>
    var isSendingEmail: bool
    var emailSuccess: Option<bool>
    /** Every booking handed to `sendConfirmationEmail`, in order. */
    var emailsSent: seq<BookingType>
    /** How many times the month's bookings were asked for again after an update. */
    var refreshes: nat

    predicate Valid()
      reads this
    {
      0 <= month < 12
    }

    /** The dashboard as first rendered, on the month of `today`. */
    constructor (today: JsDate)
      ensures Valid() && year == today.year && month == today.month
      ensures bookings == [] && loading && error == None && selectedDate == None
      ensures selectedBooking == None && !isSendingEmail && emailSuccess == None
      ensures emailsSent == [] && refreshes == 0
    {
      year, month := today.year, today.month;
      bookings := [];
      loading := true;
      error := None;
      selectedDate := None;
      selectedBooking := None;
      isSendingEmail := false;
      emailSuccess := None;
      emailsSent := [];
      refreshes := 0;
    }

    /** `fetchBookingsForMonth`: the bookings from the 1st to the last day of the shown month. */
    method FetchBookingsForMonth(token: Option<string>, fetch: RangeQuery -> Response<seq<BookingType>>)
      requires Valid()
      modifies this`bookings, this`loading
      ensures bookings == GetBookingsInRange(FirstDay(year, month), LastDay(year, month), token, fetch)
      ensures !loading
    {
      loading := true;
      bookings := GetBookingsInRange(FirstDay(year, month), LastDay(year, month), token, fetch);
      loading := false;
    }

    /** `handleDateClick`: a new day closes the open booking. */
    method HandleDateClick(date: JsDate)
      modifies this`selectedDate, this`selectedBooking
      ensures selectedDate == Some(date) && selectedBooking == None
    {
      selectedDate := Some(date);
      selectedBooking := None;
    }

    /** `handleViewBooking`: opens a booking and forgets the last e-mail result. */
    method HandleViewBooking(b: BookingType)
      modifies this`selectedBooking, this`emailSuccess
      ensures selectedBooking == Some(b) && emailSuccess == None
    {
      selectedBooking := Some(b);
      emailSuccess := None;
    }

    /** The bookings of the selected day, or none when no day is selected. */
    function SelectedDateBookings(): (r: seq<BookingType>)
      reads this
      ensures selectedDate.None? ==> r == []
      ensures selectedDate.Some? ==>
        forall b :: b in r <==> b in bookings && BookingDay(b) == Some(FormatDateYMD(selectedDate.value))
    {
      if selectedDate.Some? then GetBookingsForDate(bookings, selectedDate.value) else []
    }

    /**
     * `handleUpdateStatus`: the status change first; only when it went
     * through, and only for `confirmed` with a booking open, one e-mail
     * attempt, whose failure is recorded but undoes nothing; then a refresh,
     * and the open booking takes the new status when its id matches.
     */
    method HandleUpdateStatus(id: string, status: Status, token: Option<string>,
                              fetch: StatusRequest -> Response<BookingType>, email: Outcome<bool>)
      modifies this`error, this`selectedBooking, this`isSendingEmail, this`emailSuccess,
               this`emailsSent, this`refreshes
      ensures var r := UpdateBookingStatus(id, status, token, fetch);
        r.Throws? ==>
          && error == Some(UpdateFailedMessage)
          && selectedBooking == old(selectedBooking) && emailSuccess == old(emailSuccess)
          && emailsSent == old(emailsSent) && refreshes == old(refreshes)
          && isSendingEmail == old(isSendingEmail)
      ensures var r := UpdateBookingStatus(id, status, token, fetch);
        r.Returns? ==>
          && error == old(error)
          && refreshes == old(refreshes) + 1
          && selectedBooking ==
               (if old(selectedBooking).Some? && old(selectedBooking).value.id == Some(id)
                then Some(old(selectedBooking).value.(status := Some(StatusName(status))))
                else old(selectedBooking))
      ensures var attempted := UpdateBookingStatus(id, status, token, fetch).Returns? &&
                               status == Confirmed && old(selectedBooking).Some?;
        && (attempted ==>
              && emailsSent == old(emailsSent) + [old(selectedBooking).value.(status := Some("confirmed"))]
              && emailSuccess == Some(email == Returns(true))
              && !isSendingEmail)
        && (!attempted ==>
              emailsSent == old(emailsSent) && emailSuccess == old(emailSuccess) && isSendingEmail == old(isSendingEmail))
    {
      var updated := UpdateBookingStatus(id, status, token, fetch);
      if updated.Throws? {
        error := Some(UpdateFailedMessage);
        return;
      }
      var selected := selectedBooking;
      if status == Confirmed && selected.Some? {
        isSendingEmail := true;
        emailsSent := emailsSent + [selected.value.(status := Some("confirmed"))];
        match email {
          case Returns(sent) => emailSuccess := Some(sent);
          case Throws(_) => emailSuccess := Some(false);
        }
        isSendingEmail := false;
      }
      refreshes := refreshes + 1;
      if selected.Some? && selected.value.id == Some(id) {
        selectedBooking := Some(selected.value.(status := Some(StatusName(status))));
      }
    }
  }
}
