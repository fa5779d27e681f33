/**
 * The client and the server together: the browser's `fetch` answered by the
 * server's route functions, so that what the booking screens and the
 * dashboard conclude can be checked against the collection itself.
 */
module EndToEnd {
  import opened Basics
  import opened Text
  import opened Calendar
  import opened BookingRecord
  import opened Wire
  import opened BookingRoutes
  import opened ClientApi
  import BookingFormComponent
  import BookingPage
  import AdminDashboard

  /** A server reply as `fetch` delivers it: the status, and the value or the `{ error }` object. */
  function Delivered<T>(r: Reply<T>): Response<T>
  {
    match r
    case Success(status, v) => Http(status, Data(v))
    case Failure(status, e) => Http(status, ErrorObject(e))
  }

  /** `fetch` for the availability route over the collection `bs`. */
  function ServerAvailability(bs: seq<Booking>, reformat: string -> string): AvailabilityQuery -> Response<bool>
  {
    (q: AvailabilityQuery) => Delivered(AvailabilityReply(bs, Some(q.date), Some(q.time), reformat))
  }

  /**
   * For four-digit years the client's answer is the server's: a slot reads as
   * free exactly when no active booking holds that day and time.
   */
  lemma ClientSeesServerAvailability(bs: seq<Booking>, date: JsDate, time: string, reformat: string -> string)
    requires 1000 <= date.year <= 9999 && time != ""
    ensures CheckAvailability(date, time, ServerAvailability(bs, reformat)) <==>
      SlotFree(bs, FormatDateYMD(date), time)
  {
    FormatDateYMDIsYMD(date);
  }

  /** An empty time is refused by the server, so the client reads the slot as taken. */
  lemma EmptyTimeReadsAsTaken(bs: seq<Booking>, date: JsDate, reformat: string -> string)
    ensures !CheckAvailability(date, "", ServerAvailability(bs, reformat))
  {
  }

  /** Whatever the form component's schema accepts, the server's schema accepts as posted. */
  lemma FormPayloadPassesServerSchema(v: BookingFormComponent.FormValues, isEmail: string -> bool)
    requires BookingFormComponent.ParseForm(v, isEmail).Some?
    ensures var data := BookingFormComponent.ParseForm(v, isEmail).value;
      SchemaAccepts(PayloadOf(BookingFormComponent.BookingOf(data)), isEmail)
  {
    var data := BookingFormComponent.ParseForm(v, isEmail).value;
    ServiceIdRoundTrip(data.serviceId);
  }

  /** The page's own checks are looser than the server's: a one-letter name passes them and is refused. */
  lemma PageChecksLooserThanServer(isEmail: string -> bool)
    ensures var form := BookingPage.PageForm("A", "a@b.c", "123456", Some(CalendarDate(2025, 3, 10)),
                                             "10:00", "", "daily");
      && BookingPage.PageAccepts(form)
      && !SchemaAccepts(PayloadOf(BookingPage.SubmittedBooking(form)), isEmail)
  {
    var email := "a@b.c";
    assert BookingPage.EmailShapeAt(email, 1, 3);
    assert !IsBlank("A") by { assert !IsJsSpace("A"[0]); }
    assert !IsBlank(email) by { assert !IsJsSpace(email[0]); }
    assert !IsBlank("123456") by { assert !IsJsSpace("123456"[0]); }
  }

  /** Once the form component's booking is stored, the same slot reads as taken to every client. */
  lemma BookedSlotReadsAsTaken(bs: seq<Booking>, nextId: nat, data: BookingFormComponent.FormData, now: int,
                               reformat: string -> string, isEmail: string -> bool)
    requires 1000 <= data.date.year <= 9999
    requires CreateStep(bs, nextId, PayloadOf(BookingFormComponent.BookingOf(data)), now, reformat, isEmail).0.Success?
    ensures var bs' := CreateStep(bs, nextId, PayloadOf(BookingFormComponent.BookingOf(data)), now, reformat, isEmail).1;
      !CheckAvailability(data.date, data.time, ServerAvailability(bs', reformat))
  {
    var p := PayloadOf(BookingFormComponent.BookingOf(data));
    FormatDateYMDIsYMD(data.date);
    CreateSuccessAddsOnePendingBooking(bs, nextId, p, now, reformat, isEmail);
  }

  /** A stored booking as the browser receives it: its date is the stored string. */
  function ClientView(b: Booking): BookingType
  {
    BookingType(Some(NatToString(b.id)), ServiceIdName(b.serviceId), Some(DateStr(b.date)), b.time,
                b.clientName, b.clientEmail, b.clientPhone, Some(b.notes), Some(StatusName(b.status)))
  }

  /** A booking stored for a day the page chose shows up under that day on the dashboard. */
  lemma StoredBookingShownOnItsDay(bs: seq<Booking>, nextId: nat, data: BookingFormComponent.FormData, now: int,
                                   reformat: string -> string, isEmail: string -> bool)
    requires 1000 <= data.date.year <= 9999
    requires CreateStep(bs, nextId, PayloadOf(BookingFormComponent.BookingOf(data)), now, reformat, isEmail).0.Success?
    ensures var b := CreateStep(bs, nextId, PayloadOf(BookingFormComponent.BookingOf(data)), now, reformat, isEmail).0.value;
      && b.date == FormatDateYMD(data.date)
      && AdminDashboard.OnDay(data.date)(ClientView(b))
  {
    var p := PayloadOf(BookingFormComponent.BookingOf(data));
    var ymd := FormatDateYMD(data.date);
    FormatDateYMDIsYMD(data.date);
    CreateSuccessAddsOnePendingBooking(bs, nextId, p, now, reformat, isEmail);
    AdminDashboard.NoTInDateText(data.date);
    assert IndexOf(ymd, 'T').None?;
  }
}
