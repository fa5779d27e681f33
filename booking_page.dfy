/**
 * The booking page (src/pages/Booking.tsx): its twelve hourly slots, the
 * loop that sorts them into available and occupied, the form state and its
 * field-by-field validation, and the submit sequence with its last-moment
 * availability check. Translations are left as their keys.
 */
module BookingPage {
  import opened Basics
  import opened Text
  import opened Calendar
  import opened Wire
  import opened SlotPartition
  import opened ClientApi
  import opened Slots
  import BookingFormComponent

  // ------------------------------------------------------ timeSlots

  /** `timeSlots`: the hours 9 to 20, two digits each, followed by `:00`. */
  function TimeSlots(): seq<string>
  {
    seq(12, i requires 0 <= i < 12 => SlotLabel(9 + i))
  }

  /** Twelve labels `09:00` to `20:00`, strictly increasing, each five characters. */
  lemma TimeSlotsShape()
    ensures |TimeSlots()| == 12
    ensures TimeSlots()[0] == "09:00" && TimeSlots()[11] == "20:00"
    ensures forall i | 0 <= i < 12 :: |TimeSlots()[i]| == 5
    ensures forall i, j | 0 <= i < j < 12 :: LexLt(TimeSlots()[i], TimeSlots()[j])
  {
    var ts := TimeSlots();
    assert Pad2(9) == "09";
    assert NatToString(20) == NatToString(2) + [DigitChar(0)];
    forall i | 0 <= i < 12 ensures |ts[i]| == 5 {
      Pad2Digits(9 + i);
    }
    forall i, j | 0 <= i < j < 12 ensures LexLt(ts[i], ts[j]) {
      SlotLabelOrder(9 + i, 9 + j);
    }
  }

  /** The form component offers the first ten of these slots and never 19:00 or 20:00. */
  lemma SlotListsDisagree()
    ensures BookingFormComponent.AvailableTimes == TimeSlots()[..10]
    ensures TimeSlots()[10..] == ["19:00", "20:00"]
  {
    var ts := TimeSlots();
    SlotLabelDigits(19);
    SlotLabelDigits(20);
    assert DigitChar(0) == '0' && DigitChar(1) == '1' && DigitChar(2) == '2' && DigitChar(9) == '9';
    assert ts[10..] == [ts[10], ts[11]];
  }

  // ------------------------------------------------------ the form

  /** The page's `BookingForm` state. */
  datatype PageForm = PageForm(
    name: string,
    email: string,
    phone: string,
    date: Option<JsDate>,
    time: string,
    notes: string,
    service: string)

  /** The keys of `formErrors`: the form's field names. */
  datatype FieldName = NameField | EmailField | PhoneField | DateField | TimeField | ServiceField | NotesField

  /** The text inputs `handleChange` serves, by their `name` attribute. */
  datatype TextField = NameInput | EmailInput | PhoneInput | NotesInput

  function FieldKey(f: TextField): FieldName
  {
    match f
    case NameInput => NameField
    case EmailInput => EmailField
    case PhoneInput => PhoneField
    case NotesInput => NotesField
  }

  function WithField(form: PageForm, f: TextField, value: string): PageForm
  {
    match f
    case NameInput => form.(name := value)
    case EmailInput => form.(email := value)
    case PhoneInput => form.(phone := value)
    case NotesInput => form.(notes := value)
  }

  /**
   * `/\S+@\S+\.\S+/.test(s)`: somewhere in `s` a non-space character, an
   * `@`, one or more non-space characters, a `.`, and a non-space character.
   */
  predicate HasEmailPattern(s: string)
  {
    exists i, j | 1 <= i && i + 2 <= j && j + 1 < |s| :: EmailShapeAt(s, i, j)
  }

  /** The `@` at `i` and the `.` at `j` of a match of the pattern. */
  predicate EmailShapeAt(s: string, i: nat, j: nat)
    requires 1 <= i && i + 2 <= j && j + 1 < |s|
  {
    && s[i] == '@' && s[j] == '.'
    && !IsJsSpace(s[i - 1]) && !IsJsSpace(s[j + 1])
    && forall k | i < k < j :: !IsJsSpace(s[k])
  }

  /** The rules `validateForm` checks, all at once. */
  predicate PageAccepts(form: PageForm)
  {
    && !IsBlank(form.name)
    && !IsBlank(form.email) && HasEmailPattern(form.email)
    && !IsBlank(form.phone)
    && form.date.Some? && form.time != "" && form.service != ""
  }

  /** The page's error messages, by their translation keys under `booking.errors`. */
  datatype ErrorKey =
    | NameRequired | EmailRequired | EmailInvalid | PhoneRequired | DateRequired
    | TimeRequired | ServiceRequired | TimeSlotTaken | SubmissionFailed

  function TranslationKey(e: ErrorKey): string
  {
    "booking.errors." +
    match e
    case NameRequired => "nameRequired"
    case EmailRequired => "emailRequired"
    case EmailInvalid => "emailInvalid"
    case PhoneRequired => "phoneRequired"
    case DateRequired => "dateRequired"
    case TimeRequired => "timeRequired"
    case ServiceRequired => "serviceRequired"
    case TimeSlotTaken => "timeSlotTaken"
    case SubmissionFailed => "submissionFailed"
  }

  /** A `formErrors` entry: a message, or the empty string `handleChange` leaves behind. */
  datatype FieldError = Cleared | Shown(key: ErrorKey)

  /** Whether `validateForm` records an error for field `f`; the notes are never checked. */
  predicate FieldFails(f: FieldName, form: PageForm)
  {
    match f
    case NameField => IsBlank(form.name)
    case EmailField => IsBlank(form.email) || !HasEmailPattern(form.email)
    case PhoneField => IsBlank(form.phone)
    case DateField => form.date.None?
    case TimeField => form.time == ""
    case ServiceField => form.service == ""
    case NotesField => false
  }

  /** The message `validateForm` records for a failing field. */
  function RequiredKey(f: FieldName, form: PageForm): ErrorKey
    requires FieldFails(f, form)
  {
    match f
    case NameField => NameRequired
    case EmailField => if IsBlank(form.email) then EmailRequired else EmailInvalid
    case PhoneField => PhoneRequired
    case DateField => DateRequired
    case TimeField => TimeRequired
    case ServiceField => ServiceRequired
  }

  /** Field `f`'s entry in `errs` is what `validateForm` records: its message when the check fails, none otherwise. */
  predicate EntryFor(form: PageForm, errs: map<FieldName, FieldError>, f: FieldName)
  {
    if FieldFails(f, form) then f in errs && errs[f] == Shown(RequiredKey(f, form)) else f !in errs
  }

  /** `errs` is what `validateForm` records for `form`: one shown message per failing field, nothing else. */
  predicate ErrorsFor(form: PageForm, errs: map<FieldName, FieldError>)
  {
    && EntryFor(form, errs, NameField) && EntryFor(form, errs, EmailField)
    && EntryFor(form, errs, PhoneField) && EntryFor(form, errs, DateField)
    && EntryFor(form, errs, TimeField) && EntryFor(form, errs, ServiceField)
    && EntryFor(form, errs, NotesField)
  }

  /** What `ErrorsFor` says about each field, one clause per field. */
  lemma ErrorsForFields(form: PageForm, errs: map<FieldName, FieldError>)
    requires ErrorsFor(form, errs)
    ensures errs == map[] <==> PageAccepts(form)
    ensures NameField in errs <==> IsBlank(form.name)
    ensures PhoneField in errs <==> IsBlank(form.phone)
    ensures EmailField in errs <==> IsBlank(form.email) || !HasEmailPattern(form.email)
    ensures DateField in errs <==> form.date.None?
    ensures TimeField in errs <==> form.time == ""
    ensures ServiceField in errs <==> form.service == ""
    ensures NotesField !in errs
    ensures EmailField in errs ==>
      errs[EmailField] == Shown(if IsBlank(form.email) then EmailRequired else EmailInvalid)
  {
    ErrorsForEmptyIffAccepted(form, errs);
    assert FieldFails(NameField, form) == IsBlank(form.name);
    assert FieldFails(PhoneField, form) == IsBlank(form.phone);
    assert FieldFails(EmailField, form) == (IsBlank(form.email) || !HasEmailPattern(form.email));
    assert FieldFails(DateField, form) == form.date.None?;
    assert FieldFails(TimeField, form) == (form.time == "");
    assert FieldFails(ServiceField, form) == (form.service == "");
    assert !FieldFails(NotesField, form);
  }

  /** The checks of `validateForm`, in its order, each recording its field's message when it fails. */
  method CollectErrors(form: PageForm) returns (errors: map<FieldName, FieldError>)
    ensures ErrorsFor(form, errors)
  {
    var name, email, phone := form.name, form.email, form.phone;
    TrimEmptyIffBlank(name);
    TrimEmptyIffBlank(email);
    TrimEmptyIffBlank(phone);
    errors := map[];
    errors := if Trim(name) == "" then errors[NameField := Shown(NameRequired)] else errors;
    errors := if Trim(email) == "" then errors[EmailField := Shown(EmailRequired)]
              else if !HasEmailPattern(email) then errors[EmailField := Shown(EmailInvalid)]
              else errors;
    errors := if Trim(phone) == "" then errors[PhoneField := Shown(PhoneRequired)] else errors;
    errors := if form.date.None? then errors[DateField := Shown(DateRequired)] else errors;
    errors := if form.time == "" then errors[TimeField := Shown(TimeRequired)] else errors;
    errors := if form.service == "" then errors[ServiceField := Shown(ServiceRequired)] else errors;
  }

  /** `ErrorsFor` pins the entry of every field. */
  lemma EntryOf(form: PageForm, errs: map<FieldName, FieldError>, f: FieldName)
    requires ErrorsFor(form, errs)
    ensures EntryFor(form, errs, f)
  {
    match f
    case NameField =>
    case EmailField =>
    case PhoneField =>
    case DateField =>
    case TimeField =>
    case ServiceField =>
    case NotesField =>
  }

  /** The recorded errors are determined by the form. */
  lemma ErrorsForDetermined(form: PageForm, a: map<FieldName, FieldError>, b: map<FieldName, FieldError>)
    requires ErrorsFor(form, a) && ErrorsFor(form, b)
    ensures a == b
  {
    forall f: FieldName
      ensures f in a <==> f in b
      ensures f in a ==> a[f] == b[f]
    {
      EntryOf(form, a, f);
      EntryOf(form, b, f);
    }
    assert a.Keys == b.Keys;
  }

  /** No error is recorded exactly when the form passes every rule. */
  lemma ErrorsForEmptyIffAccepted(form: PageForm, errs: map<FieldName, FieldError>)
    requires ErrorsFor(form, errs)
    ensures errs == map[] <==> PageAccepts(form)
  {
    if !PageAccepts(form) {
      var f :=
        if IsBlank(form.name) then NameField
        else if IsBlank(form.email) || !HasEmailPattern(form.email) then EmailField
        else if IsBlank(form.phone) then PhoneField
        else if form.date.None? then DateField
        else if form.time == "" then TimeField
        else ServiceField;
      assert FieldFails(f, form);
      assert f in errs;
    } else {
      forall f: FieldName
        ensures f !in errs
      {
        EntryOf(form, errs, f);
      }
      assert errs.Keys == {};
    }
  }

  /** One slot's answer: `api.checkAvailability` resolving to a value, or throwing. */
  function OpenSlots(check: string -> Outcome<bool>): string -> bool
  {
    t => check(t) == Returns(true)
  }

  /** `api.checkAvailability(date, time)` for each slot of one day; it never throws. */
  function SlotCheck(date: JsDate, fetch: AvailabilityQuery -> Response<bool>): string -> Outcome<bool>
  {
    t => Returns(CheckAvailability(date, t, fetch))
  }

  /** The push loop of `loadAvailableTimeSlots`: answers of `true` go to `available`, the rest (errors too) to `occupied`. */
  method SplitSlots(slots: seq<string>, check: string -> Outcome<bool>)
    returns (available: seq<string>, occupied: seq<string>)
    ensures available == Keep(slots, OpenSlots(check))
    ensures occupied == Drop(slots, OpenSlots(check))
  {
    available := [];
    occupied := [];
    for i := 0 to |slots|
      invariant available == Keep(slots[..i], OpenSlots(check))
      invariant occupied == Drop(slots[..i], OpenSlots(check))
    {
      var time := slots[i];
      assert slots[..i + 1] == slots[..i] + [time];
      KeepSnoc(slots[..i], time, OpenSlots(check));
      match check(time) {
        case Returns(isAvailable) =>
          if isAvailable {
            available := available + [time];
          } else {
            occupied := occupied + [time];
          }
        case Throws(_) =>
          occupied := occupied + [time];
      }
    }
    assert slots[..|slots|] == slots;
  }

  /** The booking `handleSubmit` passes to `createBooking` for a form with a date. */
  function SubmittedBooking(form: PageForm): BookingType
    requires form.date.Some?
  {
    BookingType(None, form.service, Some(DateObj(form.date.value)), form.time, form.name, form.email,
                form.phone, Some(form.notes), None)
  }

  class BookingPageState {
    var form: PageForm
    var availableTimeSlots: seq<string>
    var occupiedTimeSlots: seq<string>
    var loading: bool
    var success: bool
    var error: Option<ErrorKey>
    var formErrors: map<FieldName, FieldError>
    /** Every body `createBooking` has posted, in order. */
    var posted: seq<BookingPayload>

    /** The page as first rendered: the service from the navigation state, or `bridal`. */
    constructor (locationService: Option<string>)
      ensures form == PageForm("", "", "", None, "", "",
                               if locationService.Some? && locationService.value != "" then locationService.value else "bridal")
      ensures availableTimeSlots == TimeSlots() && occupiedTimeSlots == []
      ensures !loading && !success && error == None && formErrors == map[] && posted == []
    {
      var service := if locationService.Some? && locationService.value != "" then locationService.value else "bridal";
      form := PageForm("", "", "", None, "", "", service);
      availableTimeSlots := TimeSlots();
      occupiedTimeSlots := [];
      loading := false;
      success := false;
      error := None;
      formErrors := map[];
      posted := [];
    }

    /** `loadAvailableTimeSlots`: both lists in slot order; a selected time that is not free is cleared. */
    method LoadAvailableTimeSlots(check: string -> Outcome<bool>)
      modifies this`availableTimeSlots, this`occupiedTimeSlots, this`form, this`loading
      ensures availableTimeSlots == Keep(TimeSlots(), OpenSlots(check))
      ensures occupiedTimeSlots == Drop(TimeSlots(), OpenSlots(check))
      ensures form == if old(form.time) != "" && old(form.time) !in availableTimeSlots
                      then old(form).(time := "") else old(form)
      ensures !loading
    {
      loading := true;
      availableTimeSlots := [];
      occupiedTimeSlots := [];
      var available, occupied := SplitSlots(TimeSlots(), check);
      availableTimeSlots := available;
      occupiedTimeSlots := occupied;
      if form.time != "" && form.time !in available {
        form := form.(time := "");
      }
      loading := false;
    }

    /** `handleChange`: sets the field; clears that field's error only, and only when one is shown. */
    method HandleChange(field: TextField, value: string)
      modifies this`form, this`formErrors
      ensures form == WithField(old(form), field, value)
      ensures var key := FieldKey(field);
        formErrors == if key in old(formErrors) && old(formErrors)[key] != Cleared
                      then old(formErrors)[key := Cleared] else old(formErrors)
      ensures forall k | k != FieldKey(field) ::
        (k in formErrors <==> k in old(formErrors)) && (k in formErrors ==> formErrors[k] == old(formErrors)[k])
    {
      form := WithField(form, field, value);
      var key := FieldKey(field);
      if key in formErrors && formErrors[key] != Cleared {
        formErrors := formErrors[key := Cleared];
      }
    }

    /** `handleDateSelect`: a new date always clears the selected time. */
    method HandleDateSelect(date: Option<JsDate>)
      modifies this`form
      ensures form == old(form).(date := date, time := "")
    {
      form := form.(date := date, time := "");
    }

    /** `validateForm`: records one error per failing field and succeeds when none was recorded. */
    method ValidateForm() returns (ok: bool)
      modifies this`formErrors
      ensures ok <==> formErrors == map[]
      ensures ok <==> PageAccepts(form)
      ensures NameField in formErrors <==> IsBlank(form.name)
      ensures PhoneField in formErrors <==> IsBlank(form.phone)
      ensures EmailField in formErrors <==> IsBlank(form.email) || !HasEmailPattern(form.email)
      ensures DateField in formErrors <==> form.date.None?
      ensures TimeField in formErrors <==> form.time == ""
      ensures ServiceField in formErrors <==> form.service == ""
      ensures NotesField !in formErrors
      ensures EmailField in formErrors ==>
        formErrors[EmailField] == Shown(if IsBlank(form.email) then EmailRequired else EmailInvalid)
      ensures ErrorsFor(form, formErrors)
    {
      var errors := CollectErrors(form);
      formErrors := errors;
      ErrorsForFields(form, formErrors);
      ok := errors.Keys == {};
    }

    /**
     * `handleSubmit`: validation first, and an invalid form changes nothing
     * else; then the last-moment check, which on `false` posts nothing,
     * clears the time, reloads the slots and reports the slot as taken;
     * otherwise one post, whose outcome decides between success and the
     * submission error.
     */
    method HandleSubmit(checkFetch: AvailabilityQuery -> Response<bool>,
                        createFetch: BookingPayload -> Response<BookingType>)
      modifies this
      ensures formErrors == map[] <==> PageAccepts(old(form))
      ensures ErrorsFor(old(form), formErrors)
      ensures !PageAccepts(old(form)) ==>
        && posted == old(posted) && form == old(form) && loading == old(loading) && error == old(error)
        && success == old(success)
        && availableTimeSlots == old(availableTimeSlots) && occupiedTimeSlots == old(occupiedTimeSlots)
      ensures PageAccepts(old(form)) ==> !loading
      ensures |posted| <= |old(posted)| + 1
      ensures |posted| == |old(posted)| + 1 ==>
        PageAccepts(old(form)) && CheckAvailability(old(form).date.value, old(form).time, checkFetch)
      ensures PageAccepts(old(form)) && CheckAvailability(old(form).date.value, old(form).time, checkFetch) ==>
        && posted == old(posted) + [PayloadOf(SubmittedBooking(old(form)))]
        && form == old(form)
        && availableTimeSlots == old(availableTimeSlots) && occupiedTimeSlots == old(occupiedTimeSlots)
        && (CreateBooking(SubmittedBooking(old(form)), createFetch).Returns? ==> success && error == None)
        && (CreateBooking(SubmittedBooking(old(form)), createFetch).Throws? ==>
              success == old(success) && error == Some(SubmissionFailed))
      ensures PageAccepts(old(form)) && !CheckAvailability(old(form).date.value, old(form).time, checkFetch) ==>
        var reloaded := OpenSlots(SlotCheck(old(form).date.value, checkFetch));
        && posted == old(posted) && form == old(form).(time := "") && error == Some(TimeSlotTaken)
        && success == old(success)
        && availableTimeSlots == Keep(TimeSlots(), reloaded)
        && occupiedTimeSlots == Drop(TimeSlots(), reloaded)
    {
      var valid := ValidateForm();
      if !valid {
        return;
      }
      loading := true;
      error := None;
      var date := form.date.value;
      var isAvailable := CheckAvailability(date, form.time, checkFetch);
      if !isAvailable {
        RejectTakenSlot(date, checkFetch);
        return;
      }
      Post(SubmittedBooking(form), createFetch);
    }

    /** The `false` branch of the last-moment check: report the slot taken, clear the time, reload the slots. */
    method RejectTakenSlot(date: JsDate, checkFetch: AvailabilityQuery -> Response<bool>)
      modifies this`error, this`form, this`availableTimeSlots, this`occupiedTimeSlots, this`loading
      ensures error == Some(TimeSlotTaken) && form == old(form).(time := "") && !loading
      ensures availableTimeSlots == Keep(TimeSlots(), OpenSlots(SlotCheck(date, checkFetch)))
      ensures occupiedTimeSlots == Drop(TimeSlots(), OpenSlots(SlotCheck(date, checkFetch)))
    {
      error := Some(TimeSlotTaken);
      form := form.(time := "");
      LoadAvailableTimeSlots(SlotCheck(date, checkFetch));
      loading := false;
    }

    /** The post: one more body sent, and its outcome decides between success and the submission error. */
    method Post(booking: BookingType, createFetch: BookingPayload -> Response<BookingType>)
      requires error == None
      modifies this`posted, this`success, this`error, this`loading
      ensures posted == old(posted) + [PayloadOf(booking)] && !loading
      ensures CreateBooking(booking, createFetch).Returns? ==> success && error == None
      ensures CreateBooking(booking, createFetch).Throws? ==> success == old(success) && error == Some(SubmissionFailed)
    {
      posted := posted + [PayloadOf(booking)];
      var outcome := CreateBooking(booking, createFetch);
      if outcome.Returns? {
        success := true;
      } else {
        error := Some(SubmissionFailed);
      }
      loading := false;
    }
  }
}
