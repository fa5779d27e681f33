/**
 * The booking routes of server/routes/bookings.ts over an in-memory
 * collection. Each route has a specification function (what it answers and,
 * for the two writes, what the collection becomes) and a method of
 * `BookingStore` proved against it. The date fallback of `ensureYMDFormat`
 * (JavaScript `Date` parsing in the server's time zone) and zod's `.email()`
 * are functions the store is given.
 */
module BookingRoutes {
  import opened Basics
  import opened Text
  import opened Calendar
  import opened BookingRecord
  import opened BookingOrder
  import opened Wire

  // ------------------------------------------------------ ensureYMDFormat

  /**
   * `ensureYMDFormat`: a plain `YYYY-MM-DD` string is kept; a string with a
   * `T` is cut before its first `T`; anything else goes to `reformat`, which
   * stands for `new Date(s)` printed back as year-month-day.
   */
  function EnsureYMDFormat(s: string, reformat: string -> string): string
  {
    if IsYMD(s) then s
    else if 'T' in s then BeforeFirst(s, 'T')
    else reformat(s)
  }

  lemma PlainDateUnchanged(s: string, reformat: string -> string)
    requires IsYMD(s)
    ensures EnsureYMDFormat(s, reformat) == s
  {
  }

  /** An ISO timestamp `YYYY-MM-DDT…` is cut to its date, and cutting again changes nothing. */
  lemma IsoTimestampCutToDate(p: string, rest: string, reformat: string -> string)
    requires IsYMD(p)
    ensures EnsureYMDFormat(p + "T" + rest, reformat) == p
    ensures EnsureYMDFormat(EnsureYMDFormat(p + "T" + rest, reformat), reformat) == p
  {
    var s := p + "T" + rest;
    assert s[10] == 'T';
    forall i | 0 <= i < |p| ensures p[i] != 'T' {
      if i < 4 { assert p[i] == p[..4][i]; }
      else if 4 < i < 7 { assert p[i] == p[5..7][i - 5]; }
      else if 7 < i { assert p[i] == p[8..][i - 8]; }
    }
    BeforeFirstOfPrefix(p, 'T', rest);
  }

  /** Whatever came out in the plain shape is a fixed point. */
  lemma NormalisedDateIsStable(s: string, reformat: string -> string)
    requires IsYMD(EnsureYMDFormat(s, reformat))
    ensures EnsureYMDFormat(EnsureYMDFormat(s, reformat), reformat) == EnsureYMDFormat(s, reformat)
  {
  }

  /**
   * The `T` test runs before any parsing, so a text date such as
   * `Date.prototype.toString()` writes ("Thu Apr 10 2025 …") is cut to what
   * precedes its first `T`, here the empty string.
   */
  lemma TextDateCutAtFirstT(reformat: string -> string)
    ensures EnsureYMDFormat("Thu Apr 10 2025", reformat) == ""
  {
    var s := "Thu Apr 10 2025";
    assert !IsYMD(s) by { assert s[4] != '-'; }
    assert s[0] == 'T';
    BeforeFirstOfPrefix("", 'T', "hu Apr 10 2025");
    assert [] + ['T'] + "hu Apr 10 2025" == s;
  }

  // ------------------------------------------------------ BookingSchema

  /** The zod `BookingSchema` rules for a request body. */
  predicate SchemaAccepts(p: BookingPayload, isEmail: string -> bool)
  {
    && p.serviceId.Str? && ParseServiceId(p.serviceId.s).Some?
    && p.date.Str?
    && p.time.Str?
    && p.clientName.Str? && Utf16Length(p.clientName.s) >= 2
    && p.clientEmail.Str? && isEmail(p.clientEmail.s)
    && p.clientPhone.Str? && Utf16Length(p.clientPhone.s) >= 6
    && !p.notes.NonString?
  }

  /** `BookingSchema.parse(body)`: the validated fields, or `None` where zod throws. */
  function ParseBookingPayload(p: BookingPayload, isEmail: string -> bool): (r: Option<BookingFields>)
    ensures r.Some? <==> SchemaAccepts(p, isEmail)
    ensures r.Some? ==>
      && ServiceIdName(r.value.serviceId) == p.serviceId.s
      && r.value.date == p.date.s && r.value.time == p.time.s
      && r.value.clientName == p.clientName.s && r.value.clientEmail == p.clientEmail.s
      && r.value.clientPhone == p.clientPhone.s
      && r.value.notes == (if p.notes.Str? then Some(p.notes.s) else None)
  {
    if !p.serviceId.Str? || ParseServiceId(p.serviceId.s).None? then None
    else if !p.date.Str? || !p.time.Str? then None
    else if !p.clientName.Str? || Utf16Length(p.clientName.s) < 2 then None
    else if !p.clientEmail.Str? || !isEmail(p.clientEmail.s) then None
    else if !p.clientPhone.Str? || Utf16Length(p.clientPhone.s) < 6 then None
    else match p.notes
      case NonString => None
      case Absent =>
        Some(BookingFields(ParseServiceId(p.serviceId.s).value, p.date.s, p.time.s,
                           p.clientName.s, p.clientEmail.s, p.clientPhone.s, None))
      case Str(n) =>
        Some(BookingFields(ParseServiceId(p.serviceId.s).value, p.date.s, p.time.s,
                           p.clientName.s, p.clientEmail.s, p.clientPhone.s, Some(n)))
  }

  // ------------------------------------------------------ occupancy

  /** `b` holds the slot (`date`, `time`): same strings and a pending or confirmed status. */
  predicate Occupies(b: Booking, date: string, time: string)
  {
    b.date == date && b.time == time && IsActive(b.status)
  }

  predicate SlotFree(bs: seq<Booking>, date: string, time: string)
  {
    forall i | 0 <= i < |bs| :: !Occupies(bs[i], date, time)
  }

  /** The slot invariant: no two active bookings share a (date, time). */
  predicate NoDoubleBooking(bs: seq<Booking>)
  {
    forall i, j | 0 <= i < j < |bs| :: !Occupies(bs[j], bs[i].date, bs[i].time) || !IsActive(bs[i].status)
  }

  predicate UniqueIds(bs: seq<Booking>)
  {
    forall i, j | 0 <= i < j < |bs| :: bs[i].id != bs[j].id
  }

  /** `Booking.findOne({ date, time, status: { $in: ['pending', 'confirmed'] } })`: the first match. */
  function FindActive(bs: seq<Booking>, date: string, time: string): (r: Option<nat>)
    ensures r.Some? ==> r.value < |bs| && Occupies(bs[r.value], date, time)
    ensures r.None? <==> SlotFree(bs, date, time)
  {
    if bs == [] then None
    else if Occupies(bs[0], date, time) then Some(0)
    else match FindActive(bs[1..], date, time)
      case None =>
        assert forall i | 1 <= i < |bs| :: bs[i] == bs[1..][i - 1];
        None
      case Some(i) => Some(i + 1)
  }

  /** `Booking.findById(id)`: the position of the booking with that id. */
  function FindById(bs: seq<Booking>, id: nat): (r: Option<nat>)
    ensures r.Some? ==> r.value < |bs| && bs[r.value].id == id
    ensures r.None? <==> forall i | 0 <= i < |bs| :: bs[i].id != id
  {
    if bs == [] then None
    else if bs[0].id == id then Some(0)
    else match FindById(bs[1..], id)
      case None =>
        assert forall i | 1 <= i < |bs| :: bs[i] == bs[1..][i - 1];
        None
      case Some(i) => Some(i + 1)
  }

  /** `!date`: a query parameter that is absent or empty. */
  predicate Missing(q: Option<string>) { q.None? || q.value == "" }

  // ------------------------------------------------------ route answers

  /** `GET /availability?date&time`. */
  function AvailabilityReply(bs: seq<Booking>, date: Option<string>, time: Option<string>,
                             reformat: string -> string): Reply<bool>
  {
    if Missing(date) || Missing(time) then Failure(400, "Date and time parameters are required")
    else Success(200, SlotFree(bs, EnsureYMDFormat(date.value, reformat), time.value))
  }

  /** A cancelled booking never makes a slot unavailable. */
  lemma CancelledBookingsNeverBlock(bs: seq<Booking>, b: Booking, date: Option<string>,
                                    time: Option<string>, reformat: string -> string)
    requires b.status == Cancelled
    ensures AvailabilityReply(bs + [b], date, time, reformat) == AvailabilityReply(bs, date, time, reformat)
  {
    if !Missing(date) && !Missing(time) {
      var d := EnsureYMDFormat(date.value, reformat);
      assert SlotFree(bs + [b], d, time.value) == SlotFree(bs, d, time.value) by {
        assert forall i | 0 <= i < |bs| :: (bs + [b])[i] == bs[i];
        assert (bs + [b])[|bs|] == b;
      }
    }
  }

  /** The bookings `GET /range` selects: active, with `start <= date <= end` in string order. */
  predicate InRange(b: Booking, start: string, end: string)
  {
    IsActive(b.status) && LexLe(start, b.date) && LexLe(b.date, end)
  }

  function RangeMatches(bs: seq<Booking>, start: string, end: string): (r: seq<Booking>)
    ensures forall b :: b in r <==> b in bs && InRange(b, start, end)
    ensures multiset(r) <= multiset(bs)
    ensures forall b :: multiset(r)[b] == (if InRange(b, start, end) then multiset(bs)[b] else 0)
  {
    if bs == [] then []
    else
      assert bs == [bs[0]] + bs[1..];
      (if InRange(bs[0], start, end) then [bs[0]] else []) + RangeMatches(bs[1..], start, end)
  }

  /** `GET /range?start&end`: a reference answer, sorted by (date, time). */
  function RangeReply(bs: seq<Booking>, start: Option<string>, end: Option<string>,
                      reformat: string -> string): Reply<seq<Booking>>
  {
    if Missing(start) || Missing(end) then Failure(400, "Start and end date parameters are required")
    else Success(200, Sort(ByDateTime, RangeMatches(bs, EnsureYMDFormat(start.value, reformat),
                                                    EnsureYMDFormat(end.value, reformat))))
  }

  /** The range answer holds every active booking in range, each exactly as often as stored, and nothing else. */
  lemma RangeReplyExact(bs: seq<Booking>, start: Option<string>, end: Option<string>,
                        reformat: string -> string)
    requires !Missing(start) && !Missing(end)
    ensures var r := RangeReply(bs, start, end, reformat);
      var s, e := EnsureYMDFormat(start.value, reformat), EnsureYMDFormat(end.value, reformat);
      && r.Success? && r.status == 200
      && Sorted(ByDateTime, r.value)
      && (forall b :: b in r.value <==> b in bs && InRange(b, s, e))
      && multiset(r.value) <= multiset(bs)
      && (forall b :: multiset(r.value)[b] == (if InRange(b, s, e) then multiset(bs)[b] else 0))
  {
    var s, e := EnsureYMDFormat(start.value, reformat), EnsureYMDFormat(end.value, reformat);
    var m := RangeMatches(bs, s, e);
    var r := Sort(ByDateTime, m);
    forall b ensures b in r <==> b in m {
      assert b in r <==> b in multiset(r);
      assert b in m <==> b in multiset(m);
    }
  }

  const InvalidData := "Invalid booking data"
  const SlotTaken := "This time slot is already booked."
  const NotFoundMessage := "Booking not found"

  /** `POST /bookings`: the answer and the collection afterwards. */
  function CreateStep(bs: seq<Booking>, nextId: nat, p: BookingPayload, now: int,
                      reformat: string -> string, isEmail: string -> bool): (Reply<Booking>, seq<Booking>)
  {
    match ParseBookingPayload(p, isEmail)
    case None => (Failure(400, InvalidData), bs)
    case Some(data) =>
      var date := EnsureYMDFormat(data.date, reformat);
      if !SlotFree(bs, date, data.time) then (Failure(409, SlotTaken), bs)
      else match NewDocument(nextId, data.(date := date), now)
        case Err(_) => (Failure(400, InvalidData), bs)
        case Ok(b) => (Success(201, b), bs + [b])
  }

  /** A body the schema refuses gives 400 and writes nothing. */
  lemma CreateInvalidPayloadWritesNothing(bs: seq<Booking>, nextId: nat, p: BookingPayload, now: int,
                                          reformat: string -> string, isEmail: string -> bool)
    requires !SchemaAccepts(p, isEmail)
    ensures CreateStep(bs, nextId, p, now, reformat, isEmail) == (Failure(400, InvalidData), bs)
  {
  }

  /** A taken slot gives 409 and writes nothing. */
  lemma CreateConflictWritesNothing(bs: seq<Booking>, nextId: nat, p: BookingPayload, now: int,
                                    reformat: string -> string, isEmail: string -> bool)
    requires SchemaAccepts(p, isEmail)
    requires !SlotFree(bs, EnsureYMDFormat(p.date.s, reformat), p.time.s)
    ensures CreateStep(bs, nextId, p, now, reformat, isEmail) == (Failure(409, SlotTaken), bs)
  {
  }

  /**
   * Create succeeds exactly when the body passes the schema, the slot is free
   * and the required paths are non-empty; it then appends one pending booking
   * with the normalised date, and that slot stops being available.
   */
  lemma CreateSuccessAddsOnePendingBooking(bs: seq<Booking>, nextId: nat, p: BookingPayload, now: int,
                                           reformat: string -> string, isEmail: string -> bool)
    ensures var (r, bs') := CreateStep(bs, nextId, p, now, reformat, isEmail);
      r.Success? <==>
        && SchemaAccepts(p, isEmail)
        && SlotFree(bs, EnsureYMDFormat(p.date.s, reformat), p.time.s)
        && EnsureYMDFormat(p.date.s, reformat) != "" && p.time.s != ""
        && p.clientEmail.s != ""
    ensures var (r, bs') := CreateStep(bs, nextId, p, now, reformat, isEmail);
      r.Success? ==>
        && r.status == 201 && bs' == bs + [r.value]
        && r.value.id == nextId && r.value.status == Pending
        && r.value.date == EnsureYMDFormat(p.date.s, reformat) && r.value.time == p.time.s
        && !SlotFree(bs', r.value.date, r.value.time)
        && (p.date.s != "" ==> AvailabilityReply(bs', Some(p.date.s), Some(p.time.s), reformat) == Success(200, false))
    ensures var (r, bs') := CreateStep(bs, nextId, p, now, reformat, isEmail);
      r.Failure? ==> bs' == bs && r.status in {400, 409}
  {
    var (r, bs') := CreateStep(bs, nextId, p, now, reformat, isEmail);
    if r.Success? {
      assert bs'[|bs|] == r.value;
    }
  }

  /** Create never puts a second active booking into an occupied slot. */
  lemma CreateKeepsSlotsExclusive(bs: seq<Booking>, nextId: nat, p: BookingPayload, now: int,
                                  reformat: string -> string, isEmail: string -> bool)
    requires NoDoubleBooking(bs)
    ensures NoDoubleBooking(CreateStep(bs, nextId, p, now, reformat, isEmail).1)
  {
    var (r, bs') := CreateStep(bs, nextId, p, now, reformat, isEmail);
    if r.Success? {
      var b := r.value;
      assert SlotFree(bs, b.date, b.time);
      forall i, j | 0 <= i < j < |bs'|
        ensures !Occupies(bs'[j], bs'[i].date, bs'[i].time) || !IsActive(bs'[i].status)
      {
        if j == |bs| {
          assert bs'[j] == b && bs'[i] == bs[i];
          assert !Occupies(bs[i], b.date, b.time);
        } else {
          assert bs'[i] == bs[i] && bs'[j] == bs[j];
        }
      }
    }
  }

  /** `PATCH /bookings/:id/status`: the answer and the collection afterwards. */
  function UpdateStatusStep(bs: seq<Booking>, id: nat, status: Field, now: int): (Reply<Booking>, seq<Booking>)
  {
    if !status.Str? || ParseStatus(status.s).None? then (Failure(400, "Invalid status"), bs)
    else match FindById(bs, id)
      case None => (Failure(404, NotFoundMessage), bs)
      case Some(k) =>
        var b := bs[k].(status := ParseStatus(status.s).value, updatedAt := now);
        (Success(200, b), bs[k := b])
  }

  /**
   * A status outside the enumeration gives 400, an unknown id 404, both with
   * no change; otherwise only that booking's status (and update time) change,
   * and nothing checks the slot.
   */
  lemma UpdateStatusChangesOnlyThatBooking(bs: seq<Booking>, id: nat, status: Field, now: int)
    requires UniqueIds(bs)
    ensures var (r, bs') := UpdateStatusStep(bs, id, status, now);
      && (!status.Str? || ParseStatus(status.s).None? ==> r == Failure(400, "Invalid status") && bs' == bs)
      && (status.Str? && ParseStatus(status.s).Some? && (forall i | 0 <= i < |bs| :: bs[i].id != id)
          ==> r == Failure(404, NotFoundMessage) && bs' == bs)
      && (r.Success? ==>
            && r.status == 200 && |bs'| == |bs| && UniqueIds(bs')
            && forall i | 0 <= i < |bs| ::
                 bs'[i] == if bs[i].id == id then bs[i].(status := r.value.status, updatedAt := now) else bs[i])
      && (r.Success? ==> StatusName(r.value.status) == status.s && r.value.id == id)
  {
    var (r, bs') := UpdateStatusStep(bs, id, status, now);
    if r.Success? {
      var k := FindById(bs, id).value;
      forall i | 0 <= i < |bs| && i != k ensures bs[i].id != id {
        if i < k { assert bs[i].id != bs[k].id; } else { assert bs[k].id != bs[i].id; }
      }
    }
  }

  /**
   * The status route does no slot check: moving a cancelled booking back to
   * pending or confirmed while another booking holds its slot leaves two
   * active bookings in one slot.
   */
  lemma ReactivationCanDoubleBook(bs: seq<Booking>, k: nat, other: nat, s: string, now: int)
    requires UniqueIds(bs) && k < |bs| && other < |bs|
    requires bs[k].status == Cancelled && Occupies(bs[other], bs[k].date, bs[k].time)
    requires s == "pending" || s == "confirmed"
    ensures UpdateStatusStep(bs, bs[k].id, Str(s), now).0.Success?
    ensures !NoDoubleBooking(UpdateStatusStep(bs, bs[k].id, Str(s), now).1)
  {
    var bs' := UpdateStatusStep(bs, bs[k].id, Str(s), now).1;
    assert k != other;
    assert bs'[other] == bs[other];
    assert Occupies(bs'[k], bs[k].date, bs[k].time);
    var i, j := if k < other then k else other, if k < other then other else k;
    assert Occupies(bs'[j], bs'[i].date, bs'[i].time) && IsActive(bs'[i].status);
  }

  /** With the slot invariant in place, cancelling the booking that holds a slot frees it. */
  lemma CancelFreesSlot(bs: seq<Booking>, k: nat, now: int)
    requires NoDoubleBooking(bs) && UniqueIds(bs) && k < |bs| && IsActive(bs[k].status)
    ensures var bs' := UpdateStatusStep(bs, bs[k].id, Str("cancelled"), now).1;
      SlotFree(bs', bs[k].date, bs[k].time)
  {
    var bs' := UpdateStatusStep(bs, bs[k].id, Str("cancelled"), now).1;
    forall i | 0 <= i < |bs'| ensures !Occupies(bs'[i], bs[k].date, bs[k].time) {
      if i < k {
        assert !Occupies(bs[k], bs[i].date, bs[i].time) || !IsActive(bs[i].status);
      } else if i > k {
        assert !Occupies(bs[i], bs[k].date, bs[k].time);
      }
    }
  }

  // ------------------------------------------------------ the store

  /** The `Booking` collection behind the routes. */
  class BookingStore {
    var bookings: seq<Booking>
    var nextId: nat
    const reformat: string -> string
    const isEmail: string -> bool

    ghost predicate Valid()
      reads this
    {
      && UniqueIds(bookings)
      && forall i | 0 <= i < |bookings| :: bookings[i].id < nextId && WellFormed(bookings[i])
    }

    constructor (reformat: string -> string, isEmail: string -> bool)
      ensures Valid() && bookings == [] && nextId == 0
      ensures this.reformat == reformat && this.isEmail == isEmail
    {
      bookings := [];
      nextId := 0;
      this.reformat := reformat;
      this.isEmail := isEmail;
    }

    /** `GET /availability`. */
    method Availability(date: Option<string>, time: Option<string>) returns (r: Reply<bool>)
      ensures r == AvailabilityReply(bookings, date, time, reformat)
      ensures r.Failure? <==> Missing(date) || Missing(time)
      ensures r.Success? ==>
        (r.value <==> forall i | 0 <= i < |bookings| ::
           !Occupies(bookings[i], EnsureYMDFormat(date.value, reformat), time.value))
    {
      if Missing(date) || Missing(time) {
        return Failure(400, "Date and time parameters are required");
      }
      var formattedDate := EnsureYMDFormat(date.value, reformat);
      var existing := FindActive(bookings, formattedDate, time.value);
      r := Success(200, existing.None?);
    }

    /** `GET /range`. */
    method Range(start: Option<string>, end: Option<string>) returns (r: Reply<seq<Booking>>)
      ensures r.Failure? <==> Missing(start) || Missing(end)
      ensures r.Failure? ==> r == Failure(400, "Start and end date parameters are required")
      ensures r.Success? ==>
        var s, e := EnsureYMDFormat(start.value, reformat), EnsureYMDFormat(end.value, reformat);
        && r.status == 200
        && Sorted(ByDateTime, r.value)
        && multiset(r.value) == multiset(RangeMatches(bookings, s, e))
      ensures r == RangeReply(bookings, start, end, reformat)
    {
      if Missing(start) || Missing(end) {
        return Failure(400, "Start and end date parameters are required");
      }
      var startDate := EnsureYMDFormat(start.value, reformat);
      var endDate := EnsureYMDFormat(end.value, reformat);
      var found := RangeMatches(bookings, startDate, endDate);
      r := Success(200, Sort(ByDateTime, found));
    }

    /** `POST /bookings`. */
    method Create(body: BookingPayload, now: int) returns (r: Reply<Booking>)
      requires Valid()
      modifies this
      ensures Valid()
      ensures (r, bookings) == CreateStep(old(bookings), old(nextId), body, now, reformat, isEmail)
      ensures nextId == if r.Success? then old(nextId) + 1 else old(nextId)
      ensures NoDoubleBooking(old(bookings)) ==> NoDoubleBooking(bookings)
    {
      if NoDoubleBooking(bookings) {
        CreateKeepsSlotsExclusive(bookings, nextId, body, now, reformat, isEmail);
      }
      var validated := ParseBookingPayload(body, isEmail);
      if validated.None? {
        return Failure(400, InvalidData);
      }
      var formattedDate := EnsureYMDFormat(validated.value.date, reformat);
      var bookingData := validated.value.(date := formattedDate);
      var existing := FindActive(bookings, formattedDate, bookingData.time);
      if existing.Some? {
        return Failure(409, SlotTaken);
      }
      var saved := NewDocument(nextId, bookingData, now);
      if saved.Err? {
        return Failure(400, InvalidData);
      }
      bookings := bookings + [saved.value];
      nextId := nextId + 1;
      r := Success(201, saved.value);
    }

    /** `GET /bookings`. */
    method ListAll() returns (r: Reply<seq<Booking>>)
      ensures r.Success? && r.status == 200
      ensures Sorted(ByDate, r.value) && multiset(r.value) == multiset(bookings)
    {
      r := Success(200, Sort(ByDate, bookings));
    }

    /** `GET /bookings/:id`. */
    method GetById(id: nat) returns (r: Reply<Booking>)
      ensures r.Failure? <==> forall i | 0 <= i < |bookings| :: bookings[i].id != id
      ensures r.Failure? ==> r == Failure(404, NotFoundMessage)
      ensures r.Success? ==> r.status == 200 && r.value in bookings && r.value.id == id
    {
      var k := FindById(bookings, id);
      if k.None? {
        return Failure(404, NotFoundMessage);
      }
      r := Success(200, bookings[k.value]);
    }

    /** `PATCH /bookings/:id/status`. */
    method UpdateStatus(id: nat, status: Field, now: int) returns (r: Reply<Booking>)
      requires Valid()
      modifies this`bookings
      ensures Valid()
      ensures (r, bookings) == UpdateStatusStep(old(bookings), id, status, now)
    {
      UpdateStatusChangesOnlyThatBooking(bookings, id, status, now);
      if !status.Str? || ParseStatus(status.s).None? {
        return Failure(400, "Invalid status");
      }
      var k := FindById(bookings, id);
      if k.None? {
        return Failure(404, NotFoundMessage);
      }
      var updated := bookings[k.value].(status := ParseStatus(status.s).value, updatedAt := now);
      bookings := bookings[k.value := updated];
      r := Success(200, updated);
    }
  }
}
