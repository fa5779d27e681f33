/**
 * The browser's side of the booking API (src/services/api.ts): the
 * year-month-day helpers, how each call turns a `fetch` outcome into its
 * result, and the built-in administrator sign-in. `fetch` is a function
 * parameter from the request the client builds to the response it receives.
 */
module ClientApi {
  import opened Basics
  import opened Text
  import opened Calendar
  import opened BookingRecord
  import opened Wire

  // ------------------------------------------------------ formatDateYMD

  /** `formatDateYMD`: the local year, the one-based month and the day, month and day padded to two digits. */
  function FormatDateYMD(d: JsDate): string
  {
    IntToString(d.year) + "-" + Pad2(d.month + 1) + "-" + Pad2(d.day)
  }

  /**
   * For a non-negative year the text reads: the year's decimal digits, a
   * dash, two digits holding the month plus one, a dash, two digits holding
   * the day.
   */
  lemma FormatDateYMDShape(d: JsDate)
    requires d.year >= 0
    ensures var s, n := FormatDateYMD(d), |NatToString(d.year)|;
      && n >= 1 && |s| == n + 6
      && AllDigits(s[..n]) && DecimalValue(s[..n]) == d.year
      && s[n] == '-' && s[n + 3] == '-'
      && AllDigits(s[n + 1..n + 3]) && DecimalValue(s[n + 1..n + 3]) == d.month + 1
      && AllDigits(s[n + 4..]) && DecimalValue(s[n + 4..]) == d.day
  {
    var y, m, dd := NatToString(d.year), Pad2(d.month + 1), Pad2(d.day);
    NatToStringShape(d.year);
    ValueOfNatToString(d.year);
    Pad2Digits(d.month + 1);
    Pad2Digits(d.day);
    var s := FormatDateYMD(d);
    assert s == y + "-" + m + "-" + dd;
    assert s[..|y|] == y;
    assert s[|y| + 1..|y| + 3] == m;
    assert s[|y| + 4..] == dd;
  }

  /** Four-digit years give exactly the server's `YYYY-MM-DD` shape. */
  lemma FormatDateYMDIsYMD(d: JsDate)
    requires 1000 <= d.year <= 9999
    ensures IsYMD(FormatDateYMD(d))
  {
    FormatDateYMDShape(d);
    FourDigitYear(d.year);
  }

  // ------------------------------------------------------ parseYMDString

  /** What `new Date(year, month - 1, day, 12, 0, 0)` holds. */
  datatype ParsedDate =
    | Parsed(date: JsDate)
    /** Some part was `NaN`: an Invalid Date. */
    | InvalidDate
    /** Month or day out of range; JavaScript rolls these over into a neighbouring month or year. */
    | Overflow(year: int, month: int, day: int)

  /** `Number(s)` for the inputs it reads as decimal integers: the blank string is 0, otherwise the trimmed digits. */
  function NumberOf(s: string): Option<nat>
  {
    var t := Trim(s);
    if t == "" then Some(0)
    else if AllDigits(t) then Some(DecimalValue(t))
    else None
  }

  /** `parseYMDString`: split on `-`, read three numbers, build the date; years 0 to 99 are taken as 1900 to 1999. */
  function ParseYMDString(s: string): ParsedDate
  {
    var parts := Split(s, '-');
    if |parts| < 3 then InvalidDate
    else match (NumberOf(parts[0]), NumberOf(parts[1]), NumberOf(parts[2]))
      case (Some(y), Some(m), Some(d)) =>
        var year := if y <= 99 then 1900 + y else y;
        var month := m as int - 1;
        var c := CalendarDate(year, month, d);
        if ValidDate(c) then Parsed(c) else Overflow(year, month, d)
      case _ => InvalidDate
  }

  lemma NoDashInDigits(s: string)
    requires AllDigits(s)
    ensures '-' !in s
  {
    assert forall i | 0 <= i < |s| :: s[i] != '-';
  }

  /** The three parts of `y-m-d` when none of them holds a dash. */
  lemma SplitThree(y: string, m: string, d: string)
    requires '-' !in y && '-' !in m && '-' !in d
    ensures Split(y + "-" + m + "-" + d, '-') == [y, m, d]
  {
    assert y + "-" + m + "-" + d == y + ['-'] + (m + ['-'] + d);
    SplitOfPrefix(y, '-', m + ['-'] + d);
    SplitOfPrefix(m, '-', d);
  }

  /** How a string of the server's `YYYY-MM-DD` shape is read. */
  lemma ParseOfYMD(s: string)
    requires IsYMD(s)
    ensures var y, m, d := DecimalValue(s[..4]), DecimalValue(s[5..7]), DecimalValue(s[8..]);
      var year := if y <= 99 then 1900 + y else y;
      ParseYMDString(s) ==
        if ValidDate(CalendarDate(year, m - 1, d)) then Parsed(CalendarDate(year, m - 1, d))
        else Overflow(year, m - 1, d)
  {
    var a, b, c := s[..4], s[5..7], s[8..];
    assert s == a + "-" + b + "-" + c;
    NoDashInDigits(a);
    NoDashInDigits(b);
    NoDashInDigits(c);
    SplitThree(a, b, c);
    TrimDigits(a);
    TrimDigits(b);
    TrimDigits(c);
  }

  /** Reading back what `FormatDateYMD` wrote gives the same date, for every year from 100 on. */
  lemma ParseFormatRoundTrip(d: JsDate)
    requires d.year >= 100
    ensures ParseYMDString(FormatDateYMD(d)) == Parsed(d)
  {
    var y, m, dd := NatToString(d.year), Pad2(d.month + 1), Pad2(d.day);
    NatToStringShape(d.year);
    ValueOfNatToString(d.year);
    Pad2Digits(d.month + 1);
    Pad2Digits(d.day);
    NoDashInDigits(y);
    NoDashInDigits(m);
    NoDashInDigits(dd);
    SplitThree(y, m, dd);
    TrimDigits(y);
    TrimDigits(m);
    TrimDigits(dd);
  }

  lemma ShortNumeral(v: nat)
    requires v < 100
    ensures |NatToString(v)| <= 2
  {
    if v >= 10 {
      assert NatToString(v) == NatToString(v / 10) + [DigitChar(v % 10)];
    }
  }

  /**
   * A `YYYY-MM-DD` string with a year from 1000 on and a real month and day
   * survives parsing and formatting unchanged.
   */
  lemma FormatParseRoundTrip(s: string)
    requires IsYMD(s) && s[0] != '0'
    requires ValidDate(CalendarDate(DecimalValue(s[..4]), DecimalValue(s[5..7]) - 1, DecimalValue(s[8..])))
    ensures ParseYMDString(s).Parsed?
    ensures FormatDateYMD(ParseYMDString(s).date) == s
  {
    var a, b, c := s[..4], s[5..7], s[8..];
    var y := DecimalValue(a);
    NatToStringOfValue(a);
    if y < 100 { ShortNumeral(y); }
    ParseOfYMD(s);
    Pad2OfValue(b);
    Pad2OfValue(c);
    assert s == a + "-" + b + "-" + c;
  }

  /**
   * The round trip needs the leading digit: `0025-01-01` is read as the year
   * 1925, because the `Date` constructor maps years 0 to 99 into the 1900s.
   */
  lemma TwoDigitYearShift()
    ensures ParseYMDString("0025-01-01") == Parsed(CalendarDate(1925, 0, 1))
    ensures FormatDateYMD(CalendarDate(1925, 0, 1)) != "0025-01-01"
  {
    var s := "0025-01-01";
    assert IsYMD(s);
    assert s[..4] == "0025" && s[5..7] == "01" && s[8..] == "01";
    assert DecimalValue("0") == 0;
    assert DecimalValue("00") == 0 by { assert "00"[..1] == "0"; }
    assert DecimalValue("002") == 2 by { assert "002"[..2] == "00"; }
    assert DecimalValue("0025") == 25 by { assert "0025"[..3] == "002"; }
    assert DecimalValue("01") == 1 by { assert "01"[..1] == "0"; }
    ParseOfYMD(s);
    var d: JsDate := CalendarDate(1925, 0, 1);
    FormatDateYMDShape(d);
    FourDigitYear(1925);
  }

  // ------------------------------------------------------ isSameYMDDate

  /** A date as the client holds it: a `Date` object or a string. */
  datatype DateValue = DateObj(d: JsDate) | DateStr(s: string)

  /** `isSameYMDDate`: both sides as text, `Date` objects through `FormatDateYMD`, then compared. */
  predicate IsSameYMDDate(a: DateValue, b: DateValue)
  {
    var s1 := match a case DateObj(d) => FormatDateYMD(d) case DateStr(s) => s;
    var s2 := match b case DateObj(d) => FormatDateYMD(d) case DateStr(s) => s;
    s1 == s2
  }

  lemma IsSameYMDDateEquivalence(a: DateValue, b: DateValue, c: DateValue)
    ensures IsSameYMDDate(a, a)
    ensures IsSameYMDDate(a, b) == IsSameYMDDate(b, a)
    ensures IsSameYMDDate(a, b) && IsSameYMDDate(b, c) ==> IsSameYMDDate(a, c)
  {
  }

  /** Two `Date` objects (years from 100 on) are the same day exactly when they hold the same date. */
  lemma SameDateObjects(d1: JsDate, d2: JsDate)
    requires d1.year >= 100 && d2.year >= 100
    ensures IsSameYMDDate(DateObj(d1), DateObj(d2)) <==> d1 == d2
  {
    if FormatDateYMD(d1) == FormatDateYMD(d2) {
      ParseFormatRoundTrip(d1);
      ParseFormatRoundTrip(d2);
    }
  }

  /** A stored ISO timestamp never matches a `Date` object: the helper does not cut at `T`. */
  lemma IsoStringNeverSame(d: JsDate, rest: string)
    ensures !IsSameYMDDate(DateObj(d), DateStr(FormatDateYMD(d) + "T" + rest))
  {
    assert |FormatDateYMD(d) + "T" + rest| > |FormatDateYMD(d)|;
  }

  // ------------------------------------------------------ responses

  /** What `response.json()` yields: a parse failure, the expected value, or an `{ error }` object. */
  datatype Body<+B> = Malformed(reason: string) | Data(value: B) | ErrorObject(error: string)

  /** What `fetch` yields: a rejection, or an HTTP status with its body. */
  datatype Response<+B> = NetworkFailure(reason: string) | Http(status: int, body: Body<B>)

  /** `response.ok`. */
  predicate IsOk<B>(r: Response<B>) { r.Http? && 200 <= r.status <= 299 }

  /** A promise that resolves with a value or rejects with an `Error` message. */
  datatype Outcome<+T> = Returns(value: T) | Throws(message: string)

  /** A booking as the browser holds it; everything but the strings the forms fill is optional. */
  datatype BookingType = BookingType(
    id: Option<string>,
    serviceId: string,
    date: Option<DateValue>,
    time: string,
    clientName: string,
    clientEmail: string,
    clientPhone: string,
    notes: Option<string>,
    status: Option<string>)

  /** The JSON `createBooking` posts: the booking with a `Date` written as `FormatDateYMD`, a string date as it is. */
  function PayloadOf(b: BookingType): BookingPayload
  {
    var date := match b.date
      case None => Absent
      case Some(DateObj(d)) => Str(FormatDateYMD(d))
      case Some(DateStr(s)) => Str(s);
    BookingPayload(Str(b.serviceId), date, Str(b.time), Str(b.clientName), Str(b.clientEmail),
                   Str(b.clientPhone), if b.notes.Some? then Str(b.notes.value) else Absent)
  }

  /** `createBooking`. */
  function CreateBooking<B>(b: BookingType, fetch: BookingPayload -> Response<B>): (r: Outcome<B>)
    ensures var resp := fetch(PayloadOf(b));
      && (r.Returns? <==> IsOk(resp) && resp.body.Data?)
      && (r.Returns? ==> resp.body == Data(r.value))
      && (resp.Http? && !IsOk(resp) && resp.body.ErrorObject? && resp.body.error != "" ==>
            r == Throws(resp.body.error))
      && (resp.Http? && !IsOk(resp) && !(resp.body.ErrorObject? && resp.body.error != "") ==>
            r.Throws? && r.message in {"Unknown error", "Failed to create booking"})
  {
    match fetch(PayloadOf(b))
    case NetworkFailure(reason) => Throws(reason)
    case Http(status, body) =>
      if !(200 <= status <= 299) then
        match body
        case Malformed(_) => Throws("Unknown error")
        case ErrorObject(e) => Throws(if e != "" then e else "Failed to create booking")
        case Data(_) => Throws("Failed to create booking")
      else
        match body
        case Data(v) => Returns(v)
        case Malformed(reason) => Throws(reason)
        case ErrorObject(e) => Throws(e)
  }

  datatype AvailabilityQuery = AvailabilityQuery(date: string, time: string)

  /** `checkAvailability`: fail-closed; only a successful answer saying so makes a slot free. */
  function CheckAvailability(date: JsDate, time: string, fetch: AvailabilityQuery -> Response<bool>): (available: bool)
    ensures var resp := fetch(AvailabilityQuery(FormatDateYMD(date), time));
      available <==> IsOk(resp) && resp.body == Data(true)
  {
    match fetch(AvailabilityQuery(FormatDateYMD(date), time))
    case NetworkFailure(_) => false
    case Http(status, body) =>
      if !(200 <= status <= 299) then false
      else match body
        case Malformed(_) => false
        case ErrorObject(_) => false
        case Data(v) => v
  }

  /** `getBookings`: the list on success, the empty list on any failure. */
  function GetBookings<B>(response: Response<seq<B>>): (r: seq<B>)
    ensures IsOk(response) && response.body.Data? ==> r == response.body.value
    ensures !(IsOk(response) && response.body.Data?) ==> r == []
  {
    match response
    case Http(status, Data(v)) => if 200 <= status <= 299 then v else []
    case _ => []
  }

  /** The `Authorization` header: sent only when a non-empty token is stored. */
  function AuthorizationHeader(token: Option<string>): (h: Option<string>)
    ensures h.Some? <==> token.Some? && token.value != ""
    ensures h.Some? ==> h.value == "Bearer " + token.value
  {
    match token
    case Some(t) => if t != "" then Some("Bearer " + t) else None
    case None => None
  }

  datatype RangeQuery = RangeQuery(start: string, end: string, authorization: Option<string>)

  /** `getBookingsInRange`: asks for both days as `FormatDateYMD`; the empty list on any failure. */
  function GetBookingsInRange<B>(start: JsDate, end: JsDate, token: Option<string>,
                                 fetch: RangeQuery -> Response<seq<B>>): (r: seq<B>)
    ensures var resp := fetch(RangeQuery(FormatDateYMD(start), FormatDateYMD(end), AuthorizationHeader(token)));
      && (IsOk(resp) && resp.body.Data? ==> r == resp.body.value)
      && (!(IsOk(resp) && resp.body.Data?) ==> r == [])
  {
    var response := fetch(RangeQuery(FormatDateYMD(start), FormatDateYMD(end), AuthorizationHeader(token)));
    if response.Http? && 200 <= response.status <= 299 && response.body.Data? then response.body.value
    else []
  }

  datatype StatusRequest = StatusRequest(id: string, status: string, authorization: Option<string>)

  /** `updateBookingStatus`: the updated booking, or a rejection. */
  function UpdateBookingStatus<B>(id: string, status: Status, token: Option<string>,
                                  fetch: StatusRequest -> Response<B>): (r: Outcome<B>)
    ensures var resp := fetch(StatusRequest(id, StatusName(status), AuthorizationHeader(token)));
      && (r.Returns? <==> IsOk(resp) && resp.body.Data?)
      && (r.Returns? ==> resp.body == Data(r.value))
      && (resp.Http? && !IsOk(resp) ==> r == Throws("Failed to update booking status"))
  {
    match fetch(StatusRequest(id, StatusName(status), AuthorizationHeader(token)))
    case NetworkFailure(reason) => Throws(reason)
    case Http(code, body) =>
      if !(200 <= code <= 299) then Throws("Failed to update booking status")
      else match body
        case Data(v) => Returns(v)
        case Malformed(reason) => Throws(reason)
        case ErrorObject(e) => Throws(e)
  }

  // ------------------------------------------------------ sign-in

  datatype User = User(id: string, email: string, name: Option<string>, role: string)

  const AdminEmail := "admin@makeupstudio.com"
  const AdminPassword := "admin123"

  datatype LoginResult = LoginOk(user: User, token: string) | LoginFailed(error: string)

  /** `login`: only the built-in administrator credentials succeed. */
  function Login(email: string, password: string): (r: LoginResult)
    ensures r.LoginOk? <==> email == AdminEmail && password == AdminPassword
    ensures r.LoginOk? ==> r.user.role == "admin" && r.user.email == AdminEmail && r.token != ""
    ensures r.LoginFailed? ==> r.error == "Invalid credentials"
  {
    if email == "admin@makeupstudio.com" && password == "admin123" then
      LoginOk(User("admin123", "admin@makeupstudio.com", Some("Admin User"), "admin"), "demo-admin-jwt-token")
    else
      LoginFailed("Invalid credentials")
  }

  const TokenKey := "auth_token"
  const UserKey := "user"

  /** `localStorage.getItem(key)` is a non-empty string. */
  predicate Stored(storage: map<string, string>, key: string)
  {
    key in storage && storage[key] != ""
  }

  /** `{ success: true, user }` or `{ success: false }`. */
  datatype SessionLookup = SignedIn(user: Option<User>) | NotSignedIn

  /**
   * `getCurrentUser`: trusts the stored user when both keys hold text and the
   * text parses. `parse` stands for `JSON.parse`: an exception, a falsy value
   * (`None`), or a user object.
   */
  function GetCurrentUser(storage: map<string, string>, parse: string -> Result<Option<User>, string>): (r: SessionLookup)
    ensures r.SignedIn? <==> Stored(storage, TokenKey) && Stored(storage, UserKey) && parse(storage[UserKey]).Ok?
    ensures r.SignedIn? ==> r.user == parse(storage[UserKey]).value
  {
    var token := if TokenKey in storage then storage[TokenKey] else "";
    var storedUser := if UserKey in storage then storage[UserKey] else "";
    if token == "" || storedUser == "" then NotSignedIn
    else match parse(storedUser)
      case Ok(u) => SignedIn(u)
      case Err(_) => NotSignedIn
  }
}
