/**
 * The booking form component (src/components/BookingForm.tsx): its ten
 * hourly slots, its zod form schema, the loop that sorts the slots of a day
 * into free and taken, the calendar's disabled days and the submit gate.
 * The availability answers come from `ClientApi.CheckAvailability` over a
 * `fetch` the methods are given; the current time is a parameter.
 */
module BookingFormComponent {
  import opened Basics
  import opened Calendar
  import opened BookingRecord
  import opened Wire
  import opened SlotPartition
  import opened ClientApi
  import opened Text
  import opened Slots

  /** `AVAILABLE_TIMES`: the hours 9 to 18. */
  const AvailableTimes: seq<string> := seq(10, i requires 0 <= i < 10 => SlotLabel(9 + i))

  /** The list as the component spells it out. */
  lemma AvailableTimesListed()
    ensures AvailableTimes ==
      ["09:00", "10:00", "11:00", "12:00", "13:00", "14:00", "15:00", "16:00", "17:00", "18:00"]
  {
    forall i | 0 <= i < 10
      ensures AvailableTimes[i] == [DigitChar((9 + i) / 10), DigitChar((9 + i) % 10), ':', '0', '0']
    {
      SlotLabelDigits(9 + i);
    }
    assert DigitChar(0) == '0' && DigitChar(1) == '1' && DigitChar(2) == '2' && DigitChar(3) == '3';
    assert DigitChar(4) == '4' && DigitChar(5) == '5' && DigitChar(6) == '6';
    assert DigitChar(7) == '7' && DigitChar(8) == '8' && DigitChar(9) == '9';
  }

  lemma AvailableTimesDistinct()
    ensures Distinct(AvailableTimes)
  {
    forall i, j | 0 <= i < j < |AvailableTimes| ensures AvailableTimes[i] != AvailableTimes[j] {
      SlotLabelsDiffer(9 + i, 9 + j);
    }
  }

  // ------------------------------------------------------ formSchema

  /** The form's values as react-hook-form holds them; a field never touched is `None`. */
  datatype FormValues = FormValues(
    serviceId: Option<string>,
    date: Option<JsDate>,
    time: Option<string>,
    clientName: Option<string>,
    clientEmail: Option<string>,
    clientPhone: Option<string>,
    notes: Option<string>)

  /** `defaultValues`: service `daily`, empty notes. */
  const DefaultValues := FormValues(Some("daily"), None, None, None, None, None, Some(""))

  /** What `formSchema` hands to `onSubmit`. */
  datatype FormData = FormData(
    serviceId: ServiceId,
    date: JsDate,
    time: string,
    clientName: string,
    clientEmail: string,
    clientPhone: string,
    notes: Option<string>)

  predicate FormSchemaAccepts(v: FormValues, isEmail: string -> bool)
  {
    && v.serviceId.Some? && ParseServiceId(v.serviceId.value).Some?
    && v.date.Some?
    && v.time.Some?
    && v.clientName.Some? && Utf16Length(v.clientName.value) >= 2
    && v.clientEmail.Some? && isEmail(v.clientEmail.value)
    && v.clientPhone.Some? && Utf16Length(v.clientPhone.value) >= 6
  }

  /** `formSchema.parse`: the checked values, or `None` when a rule fails. */
  function ParseForm(v: FormValues, isEmail: string -> bool): (r: Option<FormData>)
    ensures r.Some? <==> FormSchemaAccepts(v, isEmail)
    ensures r.Some? ==>
      && ServiceIdName(r.value.serviceId) == v.serviceId.value
      && r.value.date == v.date.value && r.value.time == v.time.value
      && r.value.clientName == v.clientName.value && r.value.clientEmail == v.clientEmail.value
      && r.value.clientPhone == v.clientPhone.value && r.value.notes == v.notes
  {
    match (v.serviceId, v.date, v.time, v.clientName, v.clientEmail, v.clientPhone)
    case (Some(s), Some(d), Some(t), Some(n), Some(e), Some(p)) =>
      var service := ParseServiceId(s);
      if service.None? || Utf16Length(n) < 2 || !isEmail(e) || Utf16Length(p) < 6 then None
      else Some(FormData(service.value, d, t, n, e, p, v.notes))
    case _ => None
  }

  /** The booking `onSubmit` passes to `createBooking`: the form data with its `Date`. */
  function BookingOf(data: FormData): BookingType
  {
    BookingType(None, ServiceIdName(data.serviceId), Some(DateObj(data.date)), data.time,
                data.clientName, data.clientEmail, data.clientPhone, data.notes, None)
  }

  // ------------------------------------------------------ isDateDisabled

  /** `isDateDisabled`: past days (today excepted), Sundays and December 25. */
  predicate IsDateDisabled(date: Instant, now: Instant)
  {
    if InstantBefore(date, now) && !SameDay(date, now) then true
    else if DayOfWeek(date.date) == 0 then true
    else if date.date.month == 11 && date.date.day == 25 then true
    else false
  }

  /** The same rule day by day: the time of day never matters. */
  lemma DateDisabledByDay(date: Instant, now: Instant)
    ensures IsDateDisabled(date, now) <==>
      DayBefore(date.date, now.date) || DayOfWeek(date.date) == 0 ||
      (date.date.month == 11 && date.date.day == 25)
  {
    if DayBefore(date.date, now.date) {
      assert date.date != now.date;
    }
  }

  /** The free slots under an availability answer. */
  function Availability(date: JsDate, fetch: AvailabilityQuery -> Response<bool>): string -> bool
  {
    t => CheckAvailability(date, t, fetch)
  }

  /**
   * The copy-then-`splice` loop of `checkAvailableTimesForDate` over a list
   * of distinct slots: each refused slot is looked up in the copy, cut out of
   * it and pushed onto the refused list.
   */
  method PartitionTimes(times: seq<string>, isAvailable: string -> bool)
    returns (available: seq<string>, unavailable: seq<string>)
    requires Distinct(times)
    ensures available == Keep(times, isAvailable)
    ensures unavailable == Drop(times, isAvailable)
  {
    available := times;
    unavailable := [];
    var i := 0;
    assert times[..0] == [] && times[0..] == times;
    while i < |times|
      invariant 0 <= i <= |times|
      invariant available == Keep(times[..i], isAvailable) + times[i..]
      invariant unavailable == Drop(times[..i], isAvailable)
    {
      var time := times[i];
      SpliceStep(times, i, isAvailable, available);
      if !isAvailable(time) {
        var index := Position(available, time);
        if index.Some? {
          available := available[..index.value] + available[index.value + 1..];
          unavailable := unavailable + [time];
        }
      }
      assert available == Keep(times[..i + 1], isAvailable) + times[i + 1..];
      assert unavailable == Drop(times[..i + 1], isAvailable);
      i := i + 1;
    }
    assert times[..i] == times;
  }

  /** `useForm` with the component's other state. */
  class BookingForm {
    var availableTimes: seq<string>
    var loading: bool
    var success: bool
    var error: Option<string>
    var values: FormValues
    /** Every body `createBooking` has posted, in order. */
    var posted: seq<BookingPayload>

    constructor ()
      ensures availableTimes == [] && !loading && !success && error == None
      ensures values == DefaultValues && posted == []
    {
      availableTimes := [];
      loading := false;
      success := false;
      error := None;
      values := DefaultValues;
      posted := [];
    }

    /**
     * `checkAvailableTimesForDate`: the free slots in list order; a selected
     * time that is no longer free is reset to the empty string.
     */
    method CheckAvailableTimesForDate(date: JsDate, fetch: AvailabilityQuery -> Response<bool>)
      modifies this`availableTimes, this`values, this`loading
      ensures availableTimes == Keep(AvailableTimes, Availability(date, fetch))
      ensures var t := old(values.time);
        values == if t.Some? && t.value != "" && t.value !in availableTimes
                  then old(values).(time := Some("")) else old(values)
      ensures !loading
    {
      loading := true;
      AvailableTimesDistinct();
      var available, unavailable := PartitionTimes(AvailableTimes, Availability(date, fetch));
      availableTimes := available;
      var selectedTime := values.time;
      if selectedTime.Some? && selectedTime.value != "" && selectedTime.value !in available {
        values := values.(time := Some(""));
      }
      loading := false;
    }

    /**
     * `onSubmit`: re-checks the slot first and posts nothing when it is
     * taken; otherwise posts the booking, then resets the form on success or
     * shows the rejection's message.
     */
    method OnSubmit(data: FormData, checkFetch: AvailabilityQuery -> Response<bool>,
                    createFetch: BookingPayload -> Response<BookingType>)
      modifies this`loading, this`error, this`success, this`values, this`posted
      ensures !loading
      ensures !CheckAvailability(data.date, data.time, checkFetch) ==>
        && posted == old(posted) && values == old(values) && success == old(success)
        && error == Some(SlotGoneMessage)
      ensures CheckAvailability(data.date, data.time, checkFetch) ==>
        && posted == old(posted) + [PayloadOf(BookingOf(data))]
        && match CreateBooking(BookingOf(data), createFetch)
           case Returns(_) => values == DefaultValues && success && error == None
           case Throws(m) => values == old(values) && success == old(success) && error == Some(m)
    {
      loading := true;
      error := None;
      var isAvailable := CheckAvailability(data.date, data.time, checkFetch);
      if !isAvailable {
        error := Some(SlotGoneMessage);
        loading := false;
        return;
      }
      var booking := BookingOf(data);
      posted := posted + [PayloadOf(booking)];
      var response := CreateBooking(booking, createFetch);
      match response {
        case Returns(_) =>
          values := DefaultValues;
          success := true;
        case Throws(message) =>
          error := Some(message);
      }
      loading := false;
    }

    /** `handleSubmit(onSubmit, handleError)`: `onSubmit` runs only on values the schema accepts. */
    method Submit(isEmail: string -> bool, checkFetch: AvailabilityQuery -> Response<bool>,
                  createFetch: BookingPayload -> Response<BookingType>)
      modifies this`loading, this`error, this`success, this`values, this`posted
      ensures !FormSchemaAccepts(old(values), isEmail) ==>
        && posted == old(posted) && values == old(values) && error == old(error) && success == old(success)
        && loading == old(loading)
      ensures |posted| <= |old(posted)| + 1
      ensures |posted| == |old(posted)| + 1 ==>
        var data := ParseForm(old(values), isEmail);
        data.Some? && CheckAvailability(data.value.date, data.value.time, checkFetch) &&
        posted == old(posted) + [PayloadOf(BookingOf(data.value))]
      ensures var data := ParseForm(old(values), isEmail);
        data.Some? && !CheckAvailability(data.value.date, data.value.time, checkFetch) ==>
          && !loading && posted == old(posted) && values == old(values) && success == old(success)
          && error == Some(SlotGoneMessage)
      ensures var data := ParseForm(old(values), isEmail);
        data.Some? && CheckAvailability(data.value.date, data.value.time, checkFetch) ==>
          && !loading && posted == old(posted) + [PayloadOf(BookingOf(data.value))]
          && match CreateBooking(BookingOf(data.value), createFetch)
             case Returns(_) => values == DefaultValues && success && error == None
             case Throws(m) => values == old(values) && success == old(success) && error == Some(m)
    {
      var data := ParseForm(values, isEmail);
      if data.Some? {
        OnSubmit(data.value, checkFetch, createFetch);
      }
    }
  }

  const SlotGoneMessage := "Този час вече не е свободен. Моля, изберете друг час."
}
