# Beauty studio booking: the appointment-slot logic in Dafny

This project models the booking core of a make-up studio's web application.
A client picks a service, a day and an hourly slot. The Express server stores
bookings in MongoDB and refuses a second active booking for a slot that is
already held. An administrator signs in, sees the month's bookings day by
day, and confirms or cancels them.

The model covers the following parts of the application:

- **Server routes** (`server/routes/bookings.ts`, `server/models/Booking.js`):
  - the request schema and `ensureYMDFormat`;
  - the availability, range, create, list, get-by-id and status-update handlers;
  - each handler is a method of `BookingStore` over an in-memory sequence of
    booking records;
  - `Availability`, `Range`, `Create` and `UpdateStatus` are proved equal to
    specification functions (`AvailabilityReply`, `RangeReply`, `CreateStep`,
    `UpdateStatusStep`), and the lemmas are stated about those functions;
  - `ListAll` states that its reply is a sorted permutation of the store, and
    `GetById` that it answers 404 exactly when the id is absent and otherwise a
    stored booking with that id.
- **Client API** (`src/services/api.ts`):
  - the year-month-day helpers;
  - how each call turns what `fetch` returned into a value or a rejection;
  - the built-in administrator sign-in and the stored-session lookup.
- **Booking screens** (`src/components/BookingForm.tsx`, `src/pages/Booking.tsx`):
  - the two hourly slot lists, which differ;
  - the loops that split them into free and taken slots;
  - the calendar's disabled days;
  - field validation;
  - the submit sequence with its last-moment availability check.
- **Admin dashboard** (`src/pages/AdminDashboard.tsx`):
  - the per-day filter;
  - the status colours and icons;
  - the month grid's leading blanks;
  - the status update with its confirmation e-mail.
- **Error replies** (`server/middleware/errorMiddleware.js`,
  `server/utils/ApiError.js`): the error value and the chain of rules that
  turns a thrown error into a JSON reply.
- **Session and route guard** (`src/context/AuthContext.tsx`,
  `src/components/ProtectedRoute.tsx`): the sign-in state over a
  `localStorage` map, and the three-way access decision.

The module `EndToEnd` connects the client functions to the server functions:
the browser's `fetch` is answered by the server's route functions. This lets
the model prove, for example, that a slot the client reads as free is one that
no active booking holds.

External effects are parameters of the model:

- `fetch` is a function from request to response;
- the clock is a `now` value;
- the e-mail outcome is an `Outcome` value;
- `JSON.parse`/`JSON.stringify` are functions;
- the `Date` fallback of `ensureYMDFormat` and zod's `.email()` are functions
  the store is given.

| file | module | models |
|---|---|---|
| basics.dfy | Basics | `Option`, `Result` |
| text.dfy | Text | decimal digits, `padStart`, JavaScript `.length` and `trim`, `split`, string order |
| calendar.dfy | Calendar | the fields of a JavaScript `Date`, `getDay`, the `YYYY-MM-DD` shape |
| booking_record.dfy | BookingRecord | `server/models/Booking.js` |
| booking_order.dfy | BookingOrder | the `sort` orders the routes ask for |
| wire.dfy | Wire | request bodies and HTTP replies |
| booking_routes.dfy | BookingRoutes | `server/routes/bookings.ts` |
| client_api.dfy | ClientApi | `src/services/api.ts` |
| slot_partition.dfy | SlotPartition | splitting a slot list by an availability answer |
| slots.dfy | Slots | the `HH:00` slot labels |
| booking_form.dfy | BookingFormComponent | `src/components/BookingForm.tsx` |
| booking_page.dfy | BookingPage | `src/pages/Booking.tsx` |
| admin_dashboard.dfy | AdminDashboard | `src/pages/AdminDashboard.tsx` |
| api_error.dfy | ApiErrors | `server/utils/ApiError.js` |
| error_middleware.dfy | ErrorMiddleware | `server/middleware/errorMiddleware.js` |
| auth_context.dfy | AuthSession | `src/context/AuthContext.tsx` |
| protected_route.dfy | RouteGuard | `src/components/ProtectedRoute.tsx` |
| end_to_end.dfy | EndToEnd | client against server |

## Model

| member | source | states |
|---|---|---|
| BookingRecord.ParseServiceId | server/models/Booking.js:4-8 | a service id is accepted exactly when it is `bridal`, `evening` or `daily`, and names the value it becomes |
| BookingRecord.ServiceIdRoundTrip | server/models/Booking.js:4-8 | every service's name parses back to that service |
| BookingRecord.ParseStatus | server/models/Booking.js:33-37 | a status is accepted exactly when it is `pending`, `confirmed` or `cancelled`, and names the value it becomes |
| BookingRecord.StatusRoundTrip | server/models/Booking.js:33-37 | every status's name parses back to that status |
| BookingRecord.MissingPaths | server/models/Booking.js:9-28 | the required string paths that are empty; none exactly when date, time, name, e-mail and phone are all non-empty |
| BookingRecord.NewDocument | server/models/Booking.js:3-38 | building and saving a document fails exactly when a required path is empty, naming those paths; otherwise every given field is kept, status is `pending`, missing notes become `''`, and both timestamps are the save time |
| BookingRoutes.PlainDateUnchanged | server/routes/bookings.ts:21-23 | a `YYYY-MM-DD` string is returned unchanged |
| BookingRoutes.IsoTimestampCutToDate | server/routes/bookings.ts:19-28 | `YYYY-MM-DDT…` becomes its ten-character date, and normalising again changes nothing |
| BookingRoutes.NormalisedDateIsStable | server/routes/bookings.ts:19-41 | whenever the result has the plain shape, normalising it again returns it unchanged |
| BookingRoutes.TextDateCutAtFirstT | server/routes/bookings.ts:26-28 | the `T` test runs before any parsing: a date text that starts with `Thu` becomes the empty string |
| BookingRoutes.ParseBookingPayload | server/routes/bookings.ts:8-16 | a body is accepted exactly when the schema's rules hold (service enum, string date and time, name of at least 2 and phone of at least 6 UTF-16 code units as JavaScript's `.length` counts them, e-mail check, notes optional string); the accepted fields are the body's |
| Text.AstralCharacterLength | server/routes/bookings.ts:12 | a character outside the Basic Multilingual Plane counts 2 towards zod's `.min`, so a one-character name like U+20000 meets `.min(2)` |
| Text.Utf16LengthOfBmp | server/routes/bookings.ts:12-14 | for text in the Basic Multilingual Plane, `.length` is the number of characters |
| BookingRoutes.FindActive | server/routes/bookings.ts:58-62 | the position of a pending or confirmed booking with that date and time; none exactly when the slot is free |
| BookingRoutes.FindById | server/routes/bookings.ts:160 | the position of a booking with that id; none exactly when no booking has it |
| BookingRoutes.CancelledBookingsNeverBlock | server/routes/bookings.ts:58-65 | adding a cancelled booking never changes any availability answer |
| BookingRoutes.RangeMatches | server/routes/bookings.ts:92-94 | a booking is selected exactly when it is stored, active and `start <= date <= end` in string order; nothing is duplicated |
| BookingRoutes.RangeReplyExact | server/routes/bookings.ts:86-95 | the range answer is 200, sorted by (date, time), and holds exactly the active in-range bookings, each exactly as often as stored |
| BookingRoutes.CreateInvalidPayloadWritesNothing | server/routes/bookings.ts:112 | a body the schema refuses gets 400 and the collection is unchanged |
| BookingRoutes.CreateConflictWritesNothing | server/routes/bookings.ts:124-133 | a body for an occupied slot gets 409 and the collection is unchanged |
| BookingRoutes.CreateSuccessAddsOnePendingBooking | server/routes/bookings.ts:115-140 | create succeeds exactly when the schema accepts, the normalised slot is free and the required paths are non-empty; it then appends one pending booking with the normalised date and answers 201, after which availability for that slot is false; a failure is 400 or 409 and writes nothing |
| BookingRoutes.CreateKeepsSlotsExclusive | server/routes/bookings.ts:124-137 | if no slot has two active bookings before a create, none has after it |
| BookingRoutes.UpdateStatusChangesOnlyThatBooking | server/routes/bookings.ts:174-186 | a status outside the enumeration gets 400 and an unknown id 404, both with no change; otherwise only that booking's status and update time change, and the reply carries the new status |
| BookingRoutes.ReactivationCanDoubleBook | server/routes/bookings.ts:178-182 | setting a cancelled booking back to pending or confirmed while another booking holds its slot succeeds and leaves two active bookings in one slot |
| BookingRoutes.CancelFreesSlot | server/routes/bookings.ts:171-188 | when no slot is double-booked, cancelling the booking that holds a slot makes that slot free |
| BookingRoutes.BookingStore.constructor | server/models/Booking.js:40 | the collection starts empty |
| BookingRoutes.BookingStore.Availability | server/routes/bookings.ts:44-74 | 400 exactly when date or time is missing or empty; otherwise 200 with `true` exactly when no active booking has the normalised date and the time |
| BookingRoutes.BookingStore.Range | server/routes/bookings.ts:77-104 | equal to `RangeReply` on the store: 400 exactly when start or end is missing or empty; otherwise 200, sorted by (date, time), a permutation of the in-range active bookings |
| BookingRoutes.BookingStore.Create | server/routes/bookings.ts:107-145 | answer and new collection as `CreateStep` states; ids stay unique, and no slot gets a second active booking |
| BookingRoutes.BookingStore.ListAll | server/routes/bookings.ts:148-155 | 200 with every stored booking, each as often as stored, sorted by date |
| BookingRoutes.BookingStore.GetById | server/routes/bookings.ts:158-168 | 404 exactly when no booking has the id; otherwise 200 with a stored booking having that id |
| BookingRoutes.BookingStore.UpdateStatus | server/routes/bookings.ts:171-192 | answer and new collection as `UpdateStatusStep` states; ids stay unique |
| BookingOrder.Sort | server/routes/bookings.ts:95 | the result is sorted by the requested key and is a permutation of the input |
| Text.TrimEmptyIffBlank | src/pages/Booking.tsx:151 | `s.trim()` is empty exactly when every character of `s` is JavaScript white space |
| ClientApi.FormatDateYMDShape | src/services/api.ts:25-30 | the text is the year's digits, `-`, two digits holding the month plus one, `-`, two digits holding the day |
| ClientApi.FormatDateYMDIsYMD | src/services/api.ts:25-30 | for four-digit years the text has the server's `YYYY-MM-DD` shape |
| ClientApi.ParseOfYMD | src/services/api.ts:33-36 | how a `YYYY-MM-DD` string is read, including the 1900 shift for years 0–99, and `Overflow` for a month or day out of range |
| ClientApi.ParseFormatRoundTrip | src/services/api.ts:25-36 | parsing what `formatDateYMD` wrote gives back the same date, for years from 100 on |
| ClientApi.FormatParseRoundTrip | src/services/api.ts:25-36 | a `YYYY-MM-DD` string with a four-digit year and a real date is reproduced by formatting what parsing gives |
| ClientApi.TwoDigitYearShift | src/services/api.ts:33-36 | `0025-01-01` is read as 1925, so the round trip fails for years below 100 |
| ClientApi.IsSameYMDDateEquivalence | src/services/api.ts:39-45 | `isSameYMDDate` is reflexive, symmetric and transitive |
| ClientApi.SameDateObjects | src/services/api.ts:39-45 | two `Date`s with years from 100 on are the same day exactly when they hold the same date |
| ClientApi.IsoStringNeverSame | src/services/api.ts:39-45 | an ISO timestamp string never matches a `Date`, because the helper does not cut at `T` |
| ClientApi.CreateBooking | src/services/api.ts:85-118 | the posted body carries a `Date` as `formatDateYMD` and a string date as it is; the call resolves exactly on a 2xx answer with a value; a non-2xx answer rejects with the server's `error`, or with `Failed to create booking` / `Unknown error` |
| ClientApi.CheckAvailability | src/services/api.ts:121-151 | fail-closed: true exactly when the answer is 2xx and says `available: true` |
| ClientApi.GetBookings | src/services/api.ts:69-82 | the list on a 2xx answer with a list, the empty list otherwise |
| ClientApi.AuthorizationHeader | src/services/api.ts:163-170 | a `Bearer` header is sent exactly when a non-empty token is stored |
| ClientApi.GetBookingsInRange | src/services/api.ts:154-186 | both days are sent as `formatDateYMD`; the list on a 2xx answer with a list, the empty list otherwise |
| ClientApi.UpdateBookingStatus | src/services/api.ts:189-216 | the status name and token header are sent; the call resolves exactly on a 2xx answer with a value, otherwise rejects |
| ClientApi.Login | src/services/api.ts:278-298 | succeeds exactly for `admin@makeupstudio.com` / `admin123`, with an `admin` user and a token; otherwise `Invalid credentials` |
| ClientApi.GetCurrentUser | src/services/api.ts:381-395 | signed in exactly when both entries are stored non-empty and the stored user parses; the user is the parsed one |
| SlotPartition.KeepDropMembers | src/pages/Booking.tsx:91-104 | a slot ends in the free list exactly when it is in the list and answered true, and in the taken list exactly when it is in the list and was not answered true |
| SlotPartition.KeepDropPartition | src/pages/Booking.tsx:91-104 | together the two lists hold every slot exactly as often as the input |
| SlotPartition.KeepCounts | src/pages/AdminDashboard.tsx:121-139 | a filter keeps each element that passes exactly as often as the input holds it, and no other element |
| SlotPartition.KeepDropDisjoint | src/pages/Booking.tsx:91-104 | no slot is in both lists |
| SlotPartition.KeepIsSubsequence | src/components/BookingForm.tsx:82-95 | both lists keep the input's order |
| SlotPartition.SpliceStep | src/components/BookingForm.tsx:88-93 | with distinct slots, a refused slot is found right after the free ones kept so far, and cutting it out keeps the copy equal to the free slots followed by the unchecked ones |
| Slots.SlotLabelOrder | src/pages/Booking.tsx:22-25 | labels of two hours below 100 compare in string order as the hours do |
| Slots.SlotLabelsDiffer | src/pages/Booking.tsx:22-25 | different hours have different labels |
| BookingFormComponent.AvailableTimesListed | src/components/BookingForm.tsx:31-34 | the form component's list is `09:00` to `18:00`, ten slots |
| BookingFormComponent.AvailableTimesDistinct | src/components/BookingForm.tsx:31-34 | no slot is listed twice |
| BookingFormComponent.ParseForm | src/components/BookingForm.tsx:14-26 | values are accepted exactly when a service in the enumeration, a date, a time, a name of at least 2 and a phone of at least 6 UTF-16 code units, and an e-mail are all present; the data are the values |
| BookingFormComponent.DateDisabledByDay | src/components/BookingForm.tsx:116-133 | a day is disabled exactly when it is before today's day, a Sunday or December 25; the time of day never matters |
| BookingFormComponent.PartitionTimes | src/components/BookingForm.tsx:82-95 | the copy-and-splice loop leaves exactly the free slots in list order, and the refused slots in list order |
| BookingFormComponent.BookingForm.constructor | src/components/BookingForm.tsx:44-64 | no slots, not loading, no error, service `daily`, notes empty |
| BookingFormComponent.BookingForm.CheckAvailableTimesForDate | src/components/BookingForm.tsx:77-113 | the component's slots become the free ones in list order; a selected time no longer free is reset to `''`; loading ends |
| BookingFormComponent.BookingForm.OnSubmit | src/components/BookingForm.tsx:136-175 | a false re-check posts nothing and shows the slot-gone message; otherwise one post, then on success the form resets, and on rejection the rejection's message is shown |
| BookingFormComponent.BookingForm.Submit | src/components/BookingForm.tsx:219 | values the schema refuses change nothing, `loading` included; accepted values are posted exactly when their slot re-checks free, and then the create outcome decides between the reset form with success and the rejection's message; a taken slot posts nothing and shows the slot-gone message |
| BookingPage.TimeSlotsShape | src/pages/Booking.tsx:22-25 | twelve labels from `09:00` to `20:00`, five characters each, strictly increasing |
| BookingPage.SlotListsDisagree | src/pages/Booking.tsx:22-25 | the form component offers the page's first ten slots and never `19:00` or `20:00` |
| BookingPage.SplitSlots | src/pages/Booking.tsx:86-104 | the push loop puts slots answered true in `available` and the rest, failures included, in `occupied`, both in slot order |
| BookingPage.BookingPageState.constructor | src/pages/Booking.tsx:31-52 | empty fields, every slot offered, the service from the navigation state or `bridal` |
| BookingPage.BookingPageState.LoadAvailableTimeSlots | src/pages/Booking.tsx:78-122 | both lists as the split states; a selected time not free is cleared; loading ends |
| BookingPage.BookingPageState.HandleChange | src/pages/Booking.tsx:124-131 | the field takes the value; that field's error, if shown, is cleared; every other field's error is unchanged |
| BookingPage.BookingPageState.HandleDateSelect | src/pages/Booking.tsx:133-136 | the date is set and the time cleared |
| BookingPage.BookingPageState.ValidateForm | src/pages/Booking.tsx:148-179 | `formErrors` becomes exactly what `ErrorsFor` prescribes for the form: each failing field with its own message (name, e-mail required or invalid, phone, date, time, service), nothing for a passing field or the notes; true exactly when nothing was recorded, and exactly when the form passes every rule |
| BookingPage.CollectErrors | src/pages/Booking.tsx:149-176 | the checks of `validateForm` record, for each field, its own message when its check fails and no entry when it passes (`ErrorsFor`): name and phone when blank after trimming, e-mail required when blank and invalid without a `\S+@\S+\.\S+` match, date, time and service when missing, the notes never |
| BookingPage.ErrorsForFields | src/pages/Booking.tsx:148-179 | what a record satisfying `ErrorsFor` says field by field, and that it is empty exactly when the form passes every rule |
| BookingPage.ErrorsForEmptyIffAccepted | src/pages/Booking.tsx:177-178 | no error is recorded exactly when the form passes every rule, which is the value `validateForm` returns |
| BookingPage.ErrorsForDetermined | src/pages/Booking.tsx:149-176 | the recorded errors are determined by the form: two records that both satisfy `ErrorsFor` are the same map |
| BookingPage.BookingPageState.HandleSubmit | src/pages/Booking.tsx:181-230 | the field errors become exactly `validateForm`'s per-field messages for the submitted form (`ErrorsFor`), so they are empty exactly when the form is valid; an invalid form changes nothing but the field errors; a valid form is posted exactly when the re-check is true, keeping the form and slot lists, and success or the submission error (with `success` unchanged) follows the create outcome; a false re-check posts nothing, keeps `success`, clears the time, reports the slot taken and reloads both slot lists for that day |
| BookingPage.BookingPageState.RejectTakenSlot | src/pages/Booking.tsx:198-203 | slot-taken error, time cleared, both slot lists reloaded for the day, loading ends |
| BookingPage.BookingPageState.Post | src/pages/Booking.tsx:207-226 | one more posted body; success on resolve, the submission error with `success` unchanged on rejection |
| AdminDashboard.GetBookingsForDate | src/pages/AdminDashboard.tsx:116-140 | in original order, exactly the bookings whose day equals `formatDateYMD(day)`, each as often as in the input |
| AdminDashboard.UndatedBookingsNeverListed | src/pages/AdminDashboard.tsx:123-126 | a booking without a date is listed under no day |
| AdminDashboard.TimestampListedUnderItsDay | src/pages/AdminDashboard.tsx:129-131 | a string date `YYYY-MM-DDT…` is listed under its day |
| AdminDashboard.NoTInDateText | src/pages/AdminDashboard.tsx:129-133 | `formatDateYMD` never writes a `T` |
| AdminDashboard.DateBookingListedOnlyOnItsDay | src/pages/AdminDashboard.tsx:129-138 | a `Date` booking (years from 100 on) is listed under its own day and no other |
| AdminDashboard.StatusColor | src/pages/AdminDashboard.tsx:145-151 | green exactly for `confirmed`, red exactly for `cancelled`, yellow otherwise |
| AdminDashboard.IconFollowsColour | src/pages/AdminDashboard.tsx:153-159 | the icon wears the status colour, with one shape per colour |
| AdminDashboard.StatusColours | src/pages/AdminDashboard.tsx:291-293 | pending is yellow, confirmed green, cancelled red, and a booking without a status shows yellow |
| AdminDashboard.Placeholders | src/pages/AdminDashboard.tsx:219-223 | fewer than seven leading blanks, the weekday of the 1st |
| AdminDashboard.WeekdayFromFirst | src/pages/AdminDashboard.tsx:219-223 | day `d` of the month falls on weekday (blanks + d − 1) mod 7 |
| AdminDashboard.GridColumns | src/pages/AdminDashboard.tsx:219-223 | after the blanks, every day sits in the column of its own weekday |
| AdminDashboard.Dashboard.constructor | src/pages/AdminDashboard.tsx:9-17 | the month of today, loading, nothing selected |
| AdminDashboard.Dashboard.FetchBookingsForMonth | src/pages/AdminDashboard.tsx:23-37 | the bookings are the range answer from the month's first to last day; loading ends |
| AdminDashboard.Dashboard.HandleDateClick | src/pages/AdminDashboard.tsx:51-54 | the day is selected and the open booking closed |
| AdminDashboard.Dashboard.HandleViewBooking | src/pages/AdminDashboard.tsx:56-61 | the booking is opened and the e-mail result forgotten |
| AdminDashboard.Dashboard.SelectedDateBookings | src/pages/AdminDashboard.tsx:142 | none without a selected day, otherwise exactly that day's bookings |
| AdminDashboard.Dashboard.HandleUpdateStatus | src/pages/AdminDashboard.tsx:63-107 | a failed update sets the error and changes nothing else; without an e-mail attempt the sent list, `emailSuccess` and `isSendingEmail` stay as they were; one e-mail attempt exactly for `confirmed` with a booking open, whose failure only sets `emailSuccess` false; a refresh; the open booking takes the status exactly when its id matches |
| ApiErrors.NewApiError | server/utils/ApiError.js:6-14 | message, status and errors (default none) as given, `success` false |
| ApiErrors.BadRequest | server/utils/ApiError.js:22-24 | status 400, the given message and field errors, `success` false |
| ApiErrors.Unauthorized | server/utils/ApiError.js:31-33 | status 401, the given message, no field errors, `success` false |
| ApiErrors.Forbidden | server/utils/ApiError.js:40-42 | status 403, the given message, no field errors, `success` false |
| ApiErrors.NotFound | server/utils/ApiError.js:49-51 | status 404, the given message, no field errors, `success` false |
| ApiErrors.Conflict | server/utils/ApiError.js:58-60 | status 409, the given message, no field errors, `success` false |
| ApiErrors.Internal | server/utils/ApiError.js:67-69 | status 500, the given message, no field errors, `success` false |
| ApiErrors.FactoryDefaults | server/utils/ApiError.js:22-69 | each factory's default message and status |
| ApiErrors.OnlyBadRequestCarriesErrors | server/utils/ApiError.js:22-69 | only `badRequest` carries field errors; every factory sets `success` false |
| ErrorMiddleware.ValidationMessages | server/middleware/errorMiddleware.js:35-39 | the `TypeError` exactly when an entry is `undefined`; otherwise the same keys as `err.errors`, each with its entry's message |
| ErrorMiddleware.HandleError | server/middleware/errorMiddleware.js:26-79 | the reassigning chain gives the reply `ErrorResponseFor` states, or the crash |
| ErrorMiddleware.RepliesNeverSucceed | server/middleware/errorMiddleware.js:73-78 | `success` is false and the stack is left out exactly in production |
| ErrorMiddleware.PlainErrorDefaults | server/middleware/errorMiddleware.js:27-29 | without a special name or code: the error's status or 500, its message or `Something went wrong`, its errors |
| ErrorMiddleware.ValidationIsBadRequest | server/middleware/errorMiddleware.js:32-40 | a validation error whose entries are all defined gives 400 `Validation Error` with one message per field |
| ErrorMiddleware.DuplicateKeyIsConflict | server/middleware/errorMiddleware.js:43-50 | code 11000 gives 409 with one error under the first duplicated field, overriding validation |
| ErrorMiddleware.TokenErrorsAreUnauthorized | server/middleware/errorMiddleware.js:53-62 | token errors give 401 and their message whatever else the error carries |
| ErrorMiddleware.CrashesExactly | server/middleware/errorMiddleware.js:32-50 | the handler throws exactly when a rule reads a missing `errors` or `keyValue`, or the `message` of an `undefined` entry of `errors` |
| ErrorMiddleware.UndefinedEntryCrashes | server/middleware/errorMiddleware.js:37-38 | a validation error with an `undefined` entry makes the handler throw |
| ErrorMiddleware.ApiErrorRoundTrip | server/middleware/errorMiddleware.js:27-29 | a thrown `ApiError` leaves with its own status, message and field errors |
| ErrorMiddleware.FactoryStatuses | server/utils/ApiError.js:22-69 | each factory's error is answered with the factory's status |
| ErrorMiddleware.NotFoundError | server/middleware/errorMiddleware.js:14-17 | a 404 error whose message is `Not found - ` and the URL |
| ErrorMiddleware.UnknownRouteReply | server/middleware/errorMiddleware.js:14-17 | an unknown route is answered 404 with its URL in the message |
| AuthSession.AdminIsAuthenticated | src/context/AuthContext.tsx:103-109 | an administrator is signed in; a signed-in user with role `admin` is an administrator |
| AuthSession.Forget | src/context/AuthContext.tsx:97-98 | both session entries removed, every other entry kept |
| AuthSession.LoginSucceedsExactly | src/context/AuthContext.tsx:69-93 | login answers true exactly for the administrator's credentials, signing in an administrator; otherwise nothing changes |
| AuthSession.LogoutIdempotent | src/context/AuthContext.tsx:96-100 | logging out twice is logging out once |
| AuthSession.NoSessionAfterLogout | src/context/AuthContext.tsx:44-63 | after a logout the startup check finds nobody |
| AuthSession.LoginSurvivesReload | src/context/AuthContext.tsx:44-82 | after a login, a reload signs the same user in again, provided parsing reverses stringifying |
| AuthSession.AuthProvider.constructor | src/context/AuthContext.tsx:39-40 | nobody signed in, loading |
| AuthSession.AuthProvider.CheckAuth | src/context/AuthContext.tsx:44-63 | a stored, parsable user is signed in; otherwise both entries are removed; loading ends |
| AuthSession.AuthProvider.Login | src/context/AuthContext.tsx:69-93 | user and storage as `AfterLogin` states; loading ends on every path |
| AuthSession.AuthProvider.Logout | src/context/AuthContext.tsx:96-100 | both entries removed and nobody signed in |
| RouteGuard.Decide | src/components/ProtectedRoute.tsx:10-40 | spinner while loading, `/admin` when signed out, `/` for a non-administrator on an administrator page, the page exactly otherwise; `requiresAdmin` defaults to false |
| RouteGuard.AdminPageOpensForAdminsOnly | src/components/ProtectedRoute.tsx:27-39 | over a session, an administrator page opens exactly for a signed-in administrator, any other page for anyone signed in |
| RouteGuard.GuardFollowsSession | src/components/ProtectedRoute.tsx:27-39 | after the administrator's login the administrator pages open; after a logout they redirect to `/admin` |
| EndToEnd.ClientSeesServerAvailability | src/services/api.ts:121-151 | for four-digit years the client reads a slot as free exactly when no active stored booking holds that day and time |
| EndToEnd.EmptyTimeReadsAsTaken | server/routes/bookings.ts:48-50 | the server refuses an empty time, so the client reads that slot as taken |
| EndToEnd.FormPayloadPassesServerSchema | src/components/BookingForm.tsx:14-26 | whatever the component's schema accepts, the server's schema accepts as posted |
| EndToEnd.PageChecksLooserThanServer | src/pages/Booking.tsx:148-179 | a one-letter name passes the page's checks and is refused by the server |
| EndToEnd.BookedSlotReadsAsTaken | server/routes/bookings.ts:136-140 | once the component's booking is stored, its slot reads as taken to every client |
| EndToEnd.StoredBookingShownOnItsDay | src/pages/AdminDashboard.tsx:121-139 | a booking stored for a day the client chose is listed under that day on the dashboard |

## Left out

- MongoDB and HTTP. The collection is a sequence, and `fetch` is a function from request to response.
- The 500 replies of the routes' `catch` blocks. Without a database there is nothing that can fail there.
- An ObjectId that does not parse. Ids are natural numbers; a malformed id would give 500 in the source.
- Concurrency. The check-then-insert in create is sequential here. The model does not claim that two clients racing for one slot are kept apart.
- The `Date` fallback of `ensureYMDFormat` (server/routes/bookings.ts:31-40). It is a function `reformat` the store is given, because it depends on JavaScript date parsing and the server's time zone. `new Date` never throws, so its `catch` is not modelled.
- zod's `.email()` check. It is a function `isEmail`.
- BookingOrder.Sort: MongoDB leaves the order of equal keys open, so `ListAll` and `Range` promise "sorted and a permutation", not one particular order.
- String order is character-code order, which is what MongoDB's binary comparison gives for these strings.
- ClientApi.ParseYMDString: `Number` is modelled for blank and decimal-digit text only. Other forms (`0x…`, exponents, signs, fractions) give `InvalidDate`.
- ClientApi.ParseYMDString: a month or day out of range gives `Overflow`, not the rolled-over date JavaScript builds.
- ClientApi.ParseYMDString: years beyond JavaScript's `Date` range (above 275760) give `Parsed`, where the source builds an Invalid Date.
- ClientApi.CreateBooking, ClientApi.UpdateBookingStatus: on a 2xx reply whose body is an `{ error }` object, the model rejects with that text, where the source resolves with the object. The server sends `{ error }` bodies only with 4xx and 5xx statuses. A 2xx reply whose body does not parse rejects with the parse error, as in the source.
- ClientApi.GetBookings, ClientApi.GetBookingsInRange: on a 2xx reply whose body is an `{ error }` object, the model returns the empty list, where the source returns the object. The server never sends such a body with a 2xx status.
- `formatDateForEmail` and `registerAdmin` (src/services/api.ts). The first depends on locale formatting; the second is not part of the booking logic.
- `sendConfirmationEmail`. Its result is the `email` parameter of `HandleUpdateStatus`.
- `setTimeout` redirects, `navigate`, and `console` output.
- The `loadSlotsFailed` catch in `loadAvailableTimeSlots` (src/pages/Booking.tsx) and the `catch` in `checkAvailableTimesForDate` (src/components/BookingForm.tsx:107-110). No step inside either can throw once each check is caught.
- The dead `catch` in `fetchBookingsForMonth`. `getBookingsInRange` never rejects.
- AdminDashboard.Dashboard.HandleUpdateStatus: the refetch it starts is not awaited. The model counts it in `refreshes` and does not model the bookings it will load.
- Month navigation (`handlePreviousMonth`, `handleNextMonth`). It is `Date` arithmetic on the shown month.
- `handleTimeSelect`, `handleServiceSelect`, and the picker and modal visibility flags. They are display state only.
- BookingPage.BookingPageState.RejectTakenSlot: the source's `loadAvailableTimeSlots` still sees the old `form.time` through its closure. Both orders end with the time cleared, so the model clears it first.
- Translations. The page's error messages are kept as their `booking.errors.*` keys.
- `localStorage` throwing (for example a full quota).
- `JSON.parse` and `JSON.stringify` of the stored user. They are function parameters.
- ApiErrors: `errors` is limited to maps from field to message text.
- The `TypeError` of `errorHandler` is the result `Crashes`, not a reply. It happens on a validation error without `errors` or with an `undefined` entry, and on a duplicate-key error without `keyValue`.
- `server/models/Booking.ts`, `src/types.ts`, the presentation components, and the i18n tables. The booking logic does not use them.
- BookingFormComponent.PartitionTimes: it requires distinct slots, which `AVAILABLE_TIMES` has (`AvailableTimesDistinct`). With a repeated slot, `indexOf` would cut the first copy, not the one being checked.
