/**
 * The booking document of server/models/Booking.js: two enumerations, six
 * required strings, `notes` defaulting to the empty string, `status`
 * defaulting to `pending`, and the `createdAt`/`updatedAt` timestamps.
 * `date` and `time` are strings, never timestamps.
 */
module BookingRecord {
  import opened Basics

  datatype ServiceId = Bridal | Evening | Daily

  datatype Status = Pending | Confirmed | Cancelled

  function ServiceIdName(s: ServiceId): string
  {
    match s
    case Bridal => "bridal"
    case Evening => "evening"
    case Daily => "daily"
  }

  /** The enum check `serviceId` gets from the schema. */
  function ParseServiceId(s: string): (r: Option<ServiceId>)
    ensures r.Some? ==> ServiceIdName(r.value) == s
    ensures r.None? <==> s != "bridal" && s != "evening" && s != "daily"
  {
    if s == "bridal" then Some(Bridal)
    else if s == "evening" then Some(Evening)
    else if s == "daily" then Some(Daily)
    else None
  }

  function StatusName(s: Status): string
  {
    match s
    case Pending => "pending"
    case Confirmed => "confirmed"
    case Cancelled => "cancelled"
  }

  /** The enum check `status` gets from the schema (and the status route repeats). */
  function ParseStatus(s: string): (r: Option<Status>)
    ensures r.Some? ==> StatusName(r.value) == s
    ensures r.None? <==> s != "pending" && s != "confirmed" && s != "cancelled"
  {
    if s == "pending" then Some(Pending)
    else if s == "confirmed" then Some(Confirmed)
    else if s == "cancelled" then Some(Cancelled)
    else None
  }

  lemma ServiceIdRoundTrip(s: ServiceId)
    ensures ParseServiceId(ServiceIdName(s)) == Some(s)
  {
  }

  lemma StatusRoundTrip(s: Status)
    ensures ParseStatus(StatusName(s)) == Some(s)
  {
  }

  /** Bookings that hold their slot. */
  predicate IsActive(s: Status) { s == Pending || s == Confirmed }

  /** A stored booking. `id` stands for the document's ObjectId. */
  datatype Booking = Booking(
    id: nat,
    serviceId: ServiceId,
    date: string,
    time: string,
    clientName: string,
    clientEmail: string,
    clientPhone: string,
    notes: string,
    status: Status,
    createdAt: int,
    updatedAt: int)

  /** What the document constructor is given: everything but id, status and timestamps; notes may be missing. */
  datatype BookingFields = BookingFields(
    serviceId: ServiceId,
    date: string,
    time: string,
    clientName: string,
    clientEmail: string,
    clientPhone: string,
    notes: Option<string>)

  /** Mongoose's `required` check on a string path: present and not empty. */
  predicate Present(s: string) { s != "" }

  /** The paths a document built from `f` fails `required` on. */
  function MissingPaths(f: BookingFields): (paths: set<string>)
    ensures paths <= {"date", "time", "clientName", "clientEmail", "clientPhone"}
    ensures paths == {} <==>
      Present(f.date) && Present(f.time) && Present(f.clientName) &&
      Present(f.clientEmail) && Present(f.clientPhone)
  {
    (if Present(f.date) then {} else {"date"}) +
    (if Present(f.time) then {} else {"time"}) +
    (if Present(f.clientName) then {} else {"clientName"}) +
    (if Present(f.clientEmail) then {} else {"clientEmail"}) +
    (if Present(f.clientPhone) then {} else {"clientPhone"})
  }

  /** A stored document satisfies the schema's required paths. */
  predicate WellFormed(b: Booking)
  {
    Present(b.date) && Present(b.time) && Present(b.clientName) &&
    Present(b.clientEmail) && Present(b.clientPhone)
  }

  /**
   * `new Booking(fields)` followed by the validation `save()` runs: either the
   * paths that fail `required`, or the document with the schema's defaults
   * (status `pending`, notes `''`) and both timestamps set to `now`.
   */
  function NewDocument(id: nat, f: BookingFields, now: int): (r: Result<Booking, set<string>>)
    ensures r.Err? <==> MissingPaths(f) != {}
    ensures r.Err? ==> r.error == MissingPaths(f)
    ensures r.Ok? ==> WellFormed(r.value)
    ensures r.Ok? ==>
      && r.value.id == id && r.value.status == Pending
      && r.value.serviceId == f.serviceId && r.value.date == f.date && r.value.time == f.time
      && r.value.clientName == f.clientName && r.value.clientEmail == f.clientEmail
      && r.value.clientPhone == f.clientPhone
      && r.value.notes == (if f.notes.Some? then f.notes.value else "")
      && r.value.createdAt == now && r.value.updatedAt == now
  {
    var missing := MissingPaths(f);
    if missing != {} then Err(missing)
    else
      var notes := match f.notes case Some(n) => n case None => "";
      Ok(Booking(id, f.serviceId, f.date, f.time, f.clientName, f.clientEmail, f.clientPhone,
                 notes, Pending, now, now))
  }
}
