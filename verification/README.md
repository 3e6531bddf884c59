# Holidaze client core in Dafny

This project models the client-side logic of Holidaze, a React app for booking venues. The user-facing parts are:

- the booking calendar of a venue: which days are already taken, the guest selector, the booking request and the message shown after it;
- the two venue forms, "create venue" and the shared create/edit form: their validation schema, initial values, media URL list, rating selector, the request they send and how they react to the server's answer;
- the registration and login forms;
- the "become a venue manager" panel;
- the profile page.

Underneath these sit the API helper and the localStorage helpers:

- The API helper covers the `useApiHelper` session hook, `apiRequest` and `logout`.
- The localStorage helpers are `load`, `save` and `remove`.

## Modelling choices

- **JavaScript values.** `Js.Value` is undefined, null, a boolean, an integer, NaN, a string, an array or an object. Property reads that throw on null or undefined return `None`. `Js` also models truthiness, `parseInt`, `String.prototype.trim` and template-literal text.
- **localStorage.** `Storage.LocalStore` is a class holding a map from keys to stored text. It is seen through `JSON.parse`: `Encoded(v)` is text that parses to `v`, and `Unparseable(raw)` is text that does not. `JsonImage` is what survives `JSON.stringify` followed by `JSON.parse`.
- **The session hook.** `ApiHelper.SessionHook` is a class with the user and token state over a shared store.
- **Stateful components.** Components that update state are classes whose methods change their fields:
  - `Calendar.BookingCalendar`
  - `VenueFormik.VenueFormState`, the formik values
  - `Login.LoginForm`
  - `UpdateProfile.ProfileUpdates`
  - `Profile.ProfilePage`
- **Server replies.** The server's reply (`ApiHelper.Reply`) is an input: a rejected `fetch`, or a response with its `ok` flag, status and body text.
- **Inputs instead of constants.** The current time, the URL and email format tests of yup (`isUrl`, `isEmail`) and the endpoint URLs are parameters.
- **formik preparation.** Before validating, formik turns every empty string, at any depth, into undefined (`VenueSchema.Prepared`). The venue schema therefore judges `VenueSchema.FormErrors`, the schema's errors on prepared values, while the submit handler receives the raw values.
- **String lengths.** yup and JavaScript count a string's length in UTF-16 code units (`Js.Utf16Length`). A character above U+FFFF counts twice.
- **Calendar days.** Dates in the calendar are UTC day numbers. `toISOString().split('T')[0]` is built from the proleptic Gregorian calendar.

## Model

| member | source | states |
|---|---|---|
| Storage.LocalStore.Load | src/jsx/Storage.jsx:2-9 | a missing key reads as null, text that does not parse reads as undefined, otherwise the parsed value |
| Storage.Stringify | src/jsx/Storage.jsx:12 | undefined gives no JSON text; every other value gives JSON text of a JSON value, and a JSON value is written as itself |
| Storage.LocalStore.Save | src/jsx/Storage.jsx:11-13 | only the named key changes; reading it back gives the value as JSON keeps it |
| Storage.LocalStore.Remove | src/jsx/Storage.jsx:15-17 | only the named key is removed; it then reads as null |
| Storage.LoadAfterSave | src/jsx/Storage.jsx:2-13 | `load` after `save` returns every JSON value unchanged (NaN and undefined members are what JSON drops) |
| Storage.JsonImageOfJson | src/jsx/Storage.jsx:11-13 | stringify then parse is the identity on values with no undefined and no NaN |
| Storage.JsonImageIsJson | src/jsx/Storage.jsx:11-13 | what stringify then parse yields is itself a JSON value |
| Storage.OtherKeysUnchanged | src/jsx/Storage.jsx:11-17 | `save` and `remove` leave every other key reading as before |
| ApiHelper.RequestHeaders | src/jsx/ApiHelper.jsx:41-47 | always a JSON content type; a bearer header exactly when the token is truthy, holding that token |
| ApiHelper.RequestInit | src/jsx/ApiHelper.jsx:49-52 | every caller option is kept except `headers`, which is replaced by the built headers, key for key and value for value |
| ApiHelper.ApiRequest | src/jsx/ApiHelper.jsx:54-63 | not ok throws 'API request failed'; an empty ok body gives null; otherwise the parsed body or the parse error; returns exactly for ok replies with an empty or JSON body |
| ApiHelper.JsonBody | src/jsx/ApiHelper.jsx:59 | parsing returns exactly when the body is JSON text |
| ApiHelper.SessionHook.Mount | src/jsx/ApiHelper.jsx:10-21 | user and token each take the stored value when it is truthy and keep their state otherwise |
| ApiHelper.SessionHook.SaveUserAndToken | src/jsx/ApiHelper.jsx:23-28 | both keys are written and the state takes both values |
| ApiHelper.SessionHook.ClearUserAndToken | src/jsx/ApiHelper.jsx:30-35 | both keys are removed and both states are null |
| ApiHelper.SessionHook.constructor | src/jsx/ApiHelper.jsx:7-8 | user and token start as null |
| ApiHelper.SavedSessionReloads | src/jsx/ApiHelper.jsx:10-28 | a session saved with JSON values is exactly what the next mount reads, and no other key changes |
| ApiHelper.ClearedSessionMountsEmpty | src/jsx/ApiHelper.jsx:10-35 | after a clear both keys read as null and the next mount keeps both states null |
| ApiHelper.Logout | src/jsx/ApiHelper.jsx:67-74 | removes token and profile, nothing else, and goes to "/" |
| ApiHelper.HookApiRequestAlwaysThrows | src/jsx/ApiHelper.jsx:37 | the hook returns no `apiRequest`, so calling one taken from it always throws a TypeError, unlike the module's `apiRequest` on any response |
| Calendar.GetBookedDates | src/jsx/components/Calendar.jsx:27-37 | the loop over bookings and days yields exactly `BookedDates`, each booking's days from dateFrom to dateTo in order |
| Calendar.BookedDatesMembership | src/jsx/components/Calendar.jsx:27-37 | a day is excluded exactly when some booking covers it |
| Calendar.BookedDatesLength | src/jsx/components/Calendar.jsx:27-37 | one entry per covered day of each booking, overlaps counted twice |
| Calendar.BookedDatesLayout | src/jsx/components/Calendar.jsx:29-35 | booking k's days follow those of earlier bookings, ascending from its dateFrom |
| Calendar.BookedDatesConcat | src/jsx/components/Calendar.jsx:29-35 | the dates of concatenated booking lists are the concatenated dates |
| Calendar.DaysOfEdgeCases | src/jsx/components/Calendar.jsx:32 | a one-day booking blocks that day; an inverted one blocks none |
| Calendar.DateText | src/jsx/components/Calendar.jsx:41-42 | the date part of an ISO string holds only digits, signs and dashes |
| Calendar.IsoDatePart | src/jsx/components/Calendar.jsx:41-42 | `toISOString().split('T')[0]` is exactly the date part of the instant |
| Calendar.GuestOptionsParse | src/jsx/components/Calendar.jsx:128-130 | every offered option parses back to its own count, in 1..maxGuests |
| Calendar.BookingPayload | src/jsx/components/Calendar.jsx:39-45 | a request exists exactly when both dates are set; it carries their ISO dates and the venue id |
| Calendar.PayloadGuestsFromOptions | src/jsx/components/Calendar.jsx:43 | a guest count chosen in the selector reaches the request as that number |
| Calendar.SaveMessage | src/jsx/components/Calendar.jsx:49-81 | "Booking Successful" exactly for an ok reply whose body parses, the error message otherwise |
| Calendar.AlertVariantOfOutcome | src/jsx/components/Calendar.jsx:148-151 | the alert is 'danger' exactly when the booking failed |
| Calendar.BookingCalendar.constructor | src/jsx/components/Calendar.jsx:12-16 | check-in is now, no check-out, one guest, nothing booked, no message |
| Calendar.BookingCalendar.RefreshBookedDates | src/jsx/components/Calendar.jsx:18-21 | the booked dates become `BookedDates(bookings)`, nothing else changes |
| Calendar.BookingCalendar.HandleGuestChange | src/jsx/components/Calendar.jsx:23-25 | the guest state becomes the selected value |
| Calendar.BookingCalendar.SelectDates | src/jsx/components/Calendar.jsx:99 | the pickers set the start and end dates |
| Calendar.BookingCalendar.SaveBooking | src/jsx/components/Calendar.jsx:49-81 | the message becomes `SaveMessage(reply)` |
| Calendar.BookingCalendar.HandleBookClick | src/jsx/components/Calendar.jsx:39-47 | sends `BookingPayload` when both dates are set and then sets the message; otherwise nothing is sent and the message stays |
| Js.Utf16Length | src/jsx/pages/Register.jsx:18 | between one and two units per character, one per character below U+10000 |
| Js.ParseIntOfNatToString | src/jsx/components/Calendar.jsx:43 | `parseInt` of a count's decimal text gives the count back |
| Js.TrimLeavesNoSpace | src/jsx/pages/CreateVenue.jsx:50 | `trim()` is never longer than its input and leaves no white space at either end |
| Js.TrimEmptyIffBlank | src/jsx/pages/CreateVenue.jsx:50 | `trim()` gives "" exactly for white-space-only text |
| VenueSchema.SchemaErrors | src/jsx/pages/CreateVenue.jsx:8-31 | on the values yup sees, each top-level field and each coordinate is reported exactly when it breaks its rule, and only schema paths are reported |
| VenueSchema.Prepared | src/jsx/pages/CreateVenue.jsx:112 | formik's preparation: "" becomes undefined at any depth, every other value keeps its kind and truthiness |
| VenueSchema.PreparedRemovesEmptyText | src/jsx/pages/CreateVenue.jsx:112 | prepared values hold no empty text, and values without one are left as they are |
| VenueSchema.PreparedIdempotent | src/jsx/pages/CreateVenue.jsx:112 | preparing twice is preparing once |
| VenueSchema.PreparedChecks | src/jsx/pages/CreateVenue.jsx:9-14 | required text and required numbers judge prepared values as the raw ones; an optional number also passes as "" |
| VenueSchema.FormErrors | src/jsx/pages/CreateVenue.jsx:8-31 | the errors of the formik-prepared values: on the raw values each field fails exactly under its rule, except that an empty rating or coordinate passes |
| VenueSchema.PreparationAddsNoError | src/jsx/pages/CreateVenue.jsx:112 | preparation never adds an error to those of the raw values |
| VenueSchema.AcceptedBounds | src/jsx/pages/VenueForm.jsx:8-31 | values formik accepts have a name and description, price ≥ 0, maxGuests in 1..100, a rating that is absent, null, "" or in 0..5, valid media, and coordinates on the globe or "" |
| VenueSchema.OutOfRangeReported | src/jsx/pages/CreateVenue.jsx:8-31 | each out-of-range number is reported, after formik's preparation, under its own path |
| VenueFormik.AddMediaUrl | src/jsx/pages/VenueForm.jsx:143-147 | offered exactly below five entries; appends one empty entry and keeps the others |
| VenueFormik.RemoveMediaUrl | src/jsx/pages/VenueForm.jsx:128-138 | offered exactly when more than one entry is shown; drops exactly entry `index` |
| VenueFormik.MediaLengthBounded | src/jsx/pages/VenueForm.jsx:128-147 | any sequence of clicks keeps the list between one and five entries, or the starting length if that lies outside |
| VenueFormik.CreatePageMediaBounded | src/jsx/pages/CreateVenue.jsx:152-168 | on the create page, which has no remove button, the list never shrinks and never exceeds five |
| VenueFormik.RatingOptionsAccepted | src/jsx/pages/VenueForm.jsx:197-202 | options "1".."5" store those numbers, and the rating is then not reported whatever the other fields hold |
| VenueFormik.EmptyRatingSelectionAccepted | src/jsx/pages/CreateVenue.jsx:116-119 | going back to "Select Rating" stores "", which formik prepares to undefined: the rating is then never reported and no other error changes |
| VenueFormik.SubmitEffectOf | src/jsx/pages/VenueForm.jsx:51-68 | navigates to `/venue/<id>` exactly for a truthy id; else alerts the first error or the generic message; anything thrown does nothing |
| VenueFormik.NavigatesToCreatedVenue | src/jsx/pages/CreateVenue.jsx:74-76 | a reply with a non-empty string id navigates to that venue's page |
| VenueFormik.AlertsFirstError | src/jsx/pages/CreateVenue.jsx:77-78 | a reply with a falsy id and a non-empty errors list whose first entry is an object alerts that entry's message |
| VenueFormik.RawTokenHeaders | src/jsx/pages/VenueForm.jsx:39-46 | the headers as written: the raw stored token text, or "null", after "Bearer " |
| VenueFormik.SessionHeaders | src/jsx/pages/CreateVenue.jsx:38-45 | the intended headers: the bearer header exactly when the loaded token is truthy |
| VenueFormik.RawTokenHeaderDiffers | src/jsx/pages/VenueForm.jsx:39-46 | after a login the raw header is `Bearer "t"` where `Bearer t` is meant; logged out, it is `Bearer null` |
| VenueFormik.SessionHeadersAfterLogin | src/jsx/pages/VenueForm.jsx:44-47 | the intended headers carry exactly the token the last login saved |
| VenueFormik.VenueFormState.AddMedia | src/jsx/pages/VenueForm.jsx:143-147 | the media list becomes `AddMediaUrl`'s; no other value changes |
| VenueFormik.VenueFormState.RemoveMedia | src/jsx/pages/VenueForm.jsx:128-138 | the media list becomes `RemoveMediaUrl`'s; no other value changes |
| VenueFormik.VenueFormState.EditMedia | src/jsx/pages/VenueForm.jsx:119-127 | typing changes only that media entry |
| VenueFormik.VenueFormState.HandleRatingChange | src/jsx/pages/CreateVenue.jsx:116-119 | only the rating changes, to `RatingFromSelection` |
| VenueFormik.VenueFormState.ApplySubmitReply | src/jsx/pages/VenueForm.jsx:54-56 | the form is reset to its initial values exactly when it navigates |
| VenueForm.SubmitVerb | src/jsx/pages/VenueForm.jsx:38 | PUT exactly in edit mode, POST otherwise |
| VenueForm.SubmitUrl | src/jsx/pages/VenueForm.jsx:37 | the collection URL, or in edit mode the record's URL |
| VenueForm.EditUrlIdentifiesRecord | src/jsx/pages/VenueForm.jsx:37 | the edit URL ends in the record id, and two records share a URL exactly when their ids are equal |
| VenueForm.EditWithoutIdTargetsUndefined | src/jsx/pages/VenueForm.jsx:33-37 | an edit form opened without an id sends to `.../undefined` |
| VenueForm.InitialValues | src/jsx/pages/VenueForm.jsx:71-77 | every record field is kept; falsy media, location and meta get `[""]`, `{}` and `{}` |
| VenueForm.InitialValuesOfRecord | src/jsx/pages/VenueForm.jsx:72-77 | editing a stored venue starts from that venue unchanged |
| VenueForm.BlankFormRejected | src/jsx/pages/VenueForm.jsx:8-33 | the blank create form fails exactly name, description, price and maxGuests |
| VenueForm.MountForm | src/jsx/pages/VenueForm.jsx:71-80 | the form starts from `InitialValues` |
| VenueForm.OnSubmitHandler | src/jsx/pages/VenueForm.jsx:36-69 | sends all values with the mode's verb and URL, then applies `SubmitEffectOf` to the form |
| CreateVenue.InitialValuesRejected | src/jsx/pages/CreateVenue.jsx:88-111 | the untouched form fails exactly name, description and maxGuests (0 guests is below 1) |
| CreateVenue.InitialLocationAndMetaAccepted | src/jsx/pages/CreateVenue.jsx:96-110 | the initial location and amenities pass their sub-schemas |
| CreateVenue.FilterBlank | src/jsx/pages/CreateVenue.jsx:50 | never longer than the list; every kept entry is from the list and does not trim to "" |
| CreateVenue.FilterBlankMembership | src/jsx/pages/CreateVenue.jsx:50 | an entry is kept exactly when it is in the list and not blank |
| CreateVenue.FilterBlankConcat | src/jsx/pages/CreateVenue.jsx:50 | filtering preserves order: it distributes over concatenation |
| CreateVenue.FilterBlankLength | src/jsx/pages/CreateVenue.jsx:50 | never longer, and equally long exactly when no entry is blank |
| CreateVenue.MediaStrings | src/jsx/pages/CreateVenue.jsx:50 | succeeds exactly when every entry is a string, and then gives those strings |
| CreateVenue.Pick | src/jsx/pages/CreateVenue.jsx:54-68 | fails exactly on null or undefined; otherwise an object with exactly the listed keys read from the source |
| CreateVenue.CreatePayload | src/jsx/pages/CreateVenue.jsx:47-69 | built exactly when media is an array of strings and location and meta exist; exactly eight keys, each read from the form: the non-blank media, rating defaulting to 0 only when undefined, the seven location keys and four meta keys of the form's objects |
| CreateVenue.PayloadMedia | src/jsx/pages/CreateVenue.jsx:50 | a URL is sent exactly when the form holds it and it is not blank |
| CreateVenue.InitialPayload | src/jsx/pages/CreateVenue.jsx:88-111 | the untouched form sends no media and rating 0 |
| CreateVenue.EmptiedRatingSent | src/jsx/pages/CreateVenue.jsx:53 | a rating emptied in the selector is sent as "", not replaced by 0, and the payload is built exactly when it would be otherwise |
| CreateVenue.OnSubmitHandler | src/jsx/pages/CreateVenue.jsx:36-86 | POSTs the payload when it can be built, then applies the reply; nothing is sent when building it throws |
| Register.DomainPatternIsSuffix | src/jsx/pages/Register.jsx:17 | the pattern accepts exactly addresses ending in "@noroff.no" or "@stud.noroff.no" |
| Register.SubdomainRejected | src/jsx/pages/Register.jsx:17 | "a@x.noroff.no" is rejected |
| Register.StudentAddressAccepted | src/jsx/pages/Register.jsx:17 | "a@stud.noroff.no" is accepted |
| Register.RegisterErrors | src/jsx/pages/Register.jsx:11-21 | each field fails exactly under its rule: required name, required well-formed noroff email, password of 8 or more UTF-16 units, optional URL avatar |
| Register.InitialValuesRejected | src/jsx/pages/Register.jsx:24-30 | the empty form fails name, email and password, not the avatar |
| Register.AcceptedRegistration | src/jsx/pages/Register.jsx:11-21 | an accepted registration has a name, a noroff address, a password of 8 or more UTF-16 units and an empty or URL avatar |
| Register.AstralPasswordAccepted | src/jsx/pages/Register.jsx:18 | four emoji, four characters but eight UTF-16 units, pass the eight-character minimum |
| Register.ValuesObject | src/jsx/pages/Register.jsx:38 | the body holds exactly the five form fields and is JSON |
| Register.RegisterOutcome | src/jsx/pages/Register.jsx:41-49 | saves exactly for a truthy response, its userData and authToken |
| Register.RegistrationNeverSavesAsWritten | src/jsx/pages/Register.jsx:9 | as written, nothing is ever saved |
| Register.SuccessfulRegistrationSaved | src/jsx/pages/Register.jsx:36-43 | with the module's `apiRequest`, a successful reply is saved, unlike as written |
| Register.FailedRegistrationNotSaved | src/jsx/pages/Register.jsx:41-46 | a failed, empty or null reply saves nothing |
| Register.OnSubmit | src/jsx/pages/Register.jsx:32-50 | posts the values with no bearer header; the session changes exactly as `RegisterOutcome` says |
| Login.FormObject | src/jsx/pages/Login.jsx:35 | the body holds exactly the form fields as strings |
| Login.LoginOutcome | src/jsx/pages/Login.jsx:38-52 | saves exactly for an ok reply with a parsable non-null body: the four profile fields and accessToken |
| Login.LoginSessionReloads | src/jsx/pages/Login.jsx:40-44 | the session then reads back exactly the profile fields the server sent and its token |
| Login.FailedLoginSavesNothing | src/jsx/pages/Login.jsx:38-49 | a failed status or unparsable body saves nothing |
| Login.LoginForm.constructor | src/jsx/pages/Login.jsx:9-12 | email and password start empty |
| Login.LoginForm.HandleChange | src/jsx/pages/Login.jsx:16-22 | only the named field changes |
| Login.LoginForm.HandleSubmit | src/jsx/pages/Login.jsx:24-53 | posts the whole form data; the session changes exactly as `LoginOutcome` says |
| UpdateProfile.UpgradedUser | src/jsx/components/UpdateProfile.jsx:15-18 | all fields of the user with venueManager true |
| UpdateProfile.UpgradeIdempotent | src/jsx/components/UpdateProfile.jsx:15-18 | upgrading twice equals upgrading once |
| UpdateProfile.UpgradeOutcome | src/jsx/components/UpdateProfile.jsx:25-34 | an error is shown exactly when the call threw; nothing is saved exactly for a falsy response; otherwise userData and authToken are saved |
| UpdateProfile.UpgradeAlwaysFailsAsWritten | src/jsx/components/UpdateProfile.jsx:7 | as written, every click shows the TypeError |
| UpdateProfile.UpgradeOutcomeFixedCases | src/jsx/components/UpdateProfile.jsx:20-34 | with the module's `apiRequest`: saved on success, the request error on failure, nothing for an empty body |
| UpdateProfile.OffersUpgradeAsWritten | src/jsx/components/UpdateProfile.jsx:39-45 | throws exactly when user is null or undefined; otherwise offers the upgrade exactly when venueManager is falsy |
| UpdateProfile.FirstRenderThrows | src/jsx/components/UpdateProfile.jsx:39 | with the initial null user the render throws |
| UpdateProfile.OffersUpgrade | src/jsx/components/UpdateProfile.jsx:39-45 | never throws, agrees with the written render wherever that renders |
| UpdateProfile.UpgradedUserNotOffered | src/jsx/components/UpdateProfile.jsx:39-42 | an upgraded user is not offered the upgrade again |
| UpdateProfile.ProfileUpdates.BecomeManager | src/jsx/components/UpdateProfile.jsx:11-35 | posts the upgraded user; saves, sets the error, or changes nothing, as the outcome says |
| Profile.StoredName | src/jsx/pages/Profile.jsx:13-19 | the stored profile's truthy name; the not-found error without one; a SyntaxError for unparsable text |
| Profile.StatusErrorNamesStatus | src/jsx/pages/Profile.jsx:29-35 | 500 has the "trouble processing" message; every other status can be read back from its message |
| Profile.StatusErrorInjective | src/jsx/pages/Profile.jsx:29-35 | different statuses give different errors |
| Profile.FetchedUser | src/jsx/pages/Profile.jsx:23-39 | a network error, the status error, or the parsed body |
| Profile.LoggedInNameFound | src/jsx/pages/Profile.jsx:13-19 | after a login with a name, that name is found |
| Profile.LoggedOutNameMissing | src/jsx/pages/Profile.jsx:13-19 | after a logout the not-found error is set |
| Profile.AvatarSource | src/jsx/pages/Profile.jsx:74 | the avatar when truthy, the blank picture otherwise; never empty |
| Profile.Render | src/jsx/pages/Profile.jsx:51-84 | error first, then loading for a falsy user, then the card with name and email |
| Profile.ProfilePage.constructor | src/jsx/pages/Profile.jsx:6-7 | starts with no user and no error, showing the loading text |
| Profile.ProfilePage.FetchUser | src/jsx/pages/Profile.jsx:10-44 | no request without a stored name; otherwise requests that name's profile and keeps the user or the error |
| Profile.FetchThenRender | src/jsx/pages/Profile.jsx:51-58 | after a fetch the page shows the failure's message, or the card for an object body |

## Left out

- getTotalPrice: Calendar.jsx imports it from ApiHelper.jsx, which does not define it, so the price total is not modelled.
- Time zones: the calendar reads booking dates and steps days in local time, while `toISOString` is UTC, so a date can shift by one day. The model uses UTC day numbers throughout.
- Calendar.GetBookedDates: the source collects `Date` objects; the model collects day numbers.
- Calendar.BookingCalendar.HandleBookClick: the booking request's headers are not modelled. The page reads the raw token like the venue pages do (see Findings).
- Calendar.BookingCalendar.constructor: the guest state starts as the number 1. The model holds the selector's text "1", which `parseInt` reads the same way.
- Js.Element: indexes a string by character, not by UTF-16 unit. No modelled code indexes a string that holds a character above U+FFFF.
- Js.ParseInt: models `parseInt(s, 10)`. Calendar.jsx:43 calls `parseInt(guests)` without a radix, which would read "0x…" as hexadecimal. The guest selector only offers decimal counts, where both agree.
- Numbers: only integers are modelled. Fractional prices and coordinates, and yup's casting of numeric strings, are not.
- yup: the URL and email formats are the parameters `isUrl` and `isEmail`. Errors are modelled as field paths, not message texts.
- JSON text: stored and received text is abstract (`Storage.Text`). The raw text of an object or array is not modelled.
- Storage.QuotedJson: escapes quotes and backslashes only. Control characters are not escaped.
- Error messages: the engine-specific text of a JSON `SyntaxError` is one fixed constant.
- EndPoints.jsx is not part of this model. The URLs are the parameters `collectionUrl` and `profileBase`.
- Login.LoginForm: Login.jsx imports `ApiHelper`, which the module does not export, so the component throws on its first render. The model wires the form to the `useApiHelper` session, as the code plainly means.
- Register.OnSubmit, UpdateProfile.ProfileUpdates.BecomeManager: these use the module's `apiRequest`. The code as written calls an undefined name (see Findings).
- VenueForm.OnSubmitHandler, CreateVenue.OnSubmitHandler, Profile.ProfilePage.FetchUser: these send the bearer token as the session reads it. The code as written sends the raw stored text (see Findings).
- UpdateProfile.UpgradedUser: spreading a string or array user would copy its indexed elements. The model adds nothing for them.
- VenueForm.MountForm: requires a truthy `media` to be an array. Any other truthy value makes `media.map` throw during the render.
- formik display state is not modelled: touched flags, error messages, `resetForm`'s touched reset, the DOM and navigation history. Alerts and navigation are returned as values.
- Asynchrony is not modelled: a double submit, an unmount before the reply, and React's batching of state updates. Console logging is left out too.

## Findings

| source | as written | input that shows it | evidently intended | confidence | as-written member | corrected member |
|---|---|---|---|---|---|---|
| src/jsx/pages/Register.jsx:9 | `apiRequest` is destructured from `useApiHelper()`, which returns no such member, so `onSubmit` throws a TypeError and never saves | any submit, e.g. an ok reply `{userData, authToken}` | call the module's exported `apiRequest` | high, not executed | Register.RegistrationNeverSavesAsWritten | Register.SuccessfulRegistrationSaved |
| src/jsx/components/UpdateProfile.jsx:7 | the same destructuring, so every click shows "apiRequest is not a function" | any click of "Become a Venue Manager" | call the module's exported `apiRequest` | high, not executed | UpdateProfile.UpgradeAlwaysFailsAsWritten | UpdateProfile.UpgradeOutcomeFixedCases |
| src/jsx/components/UpdateProfile.jsx:39 | reads `user.venueManager` while the hook's user is still null on the first render, so the render throws | first render, user = null | a guarded read, `user?.venueManager` | high, not executed | UpdateProfile.FirstRenderThrows | UpdateProfile.OffersUpgrade |
| src/jsx/pages/VenueForm.jsx:39-46 | the bearer token is the raw `localStorage` text. `save` wrote it with `JSON.stringify`, so it is quoted. CreateVenue.jsx:38-45, Profile.jsx:12-25 and Calendar.jsx:51-58 do the same | after logging in with token t, the header is `Bearer "t"`; logged out, it is `Bearer null` | read the token through `load`, as `apiRequest` users do, giving `Bearer t` | medium, not executed | VenueFormik.RawTokenHeaderDiffers | VenueFormik.SessionHeadersAfterLogin |
