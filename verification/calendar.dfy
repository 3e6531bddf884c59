/**
 * The booking calendar of a venue page: the list of already-booked days
 * that the date pickers exclude, the booking request built from the picked
 * dates and guest count, and the message the booking attempt leaves behind.
 *
 * Dates are whole UTC days counted from 1970-01-01; an instant is a day and
 * the milliseconds elapsed in it.
 */
module Calendar {
  import opened Js
  import opened Storage
  import opened ApiHelper

  /** An existing booking, by the day numbers of its first and last day. */
  datatype Booking = Booking(dateFrom: int, dateTo: int)

  /** The milliseconds in one day. */
  const DayLength := 86400000

  /** A time of day, in milliseconds since midnight UTC. */
  type DayMillis = m: nat | m < DayLength

  /** A point in time: a UTC day number and the milliseconds into that day. */
  datatype Instant = Instant(day: int, millis: DayMillis)

  // ---------------------------------------------------------------------
  // Booked dates

  /** The days from `first` through `last` inclusive, ascending; none when
      `first` is after `last`. */
  function Span(first: int, last: int): (r: seq<int>)
    ensures |r| == if last < first then 0 else last - first + 1
    ensures forall k :: 0 <= k < |r| ==> r[k] == first + k
  {
    seq(if last < first then 0 else last - first + 1, k => first + k)
  }

  /** The days one booking blocks. */
  function DaysOf(b: Booking): seq<int> {
    Span(b.dateFrom, b.dateTo)
  }

  /** Reference definition of `getBookedDates`: each booking's days, booking
      by booking in input order, with no de-duplication. */
  function BookedDates(bookings: seq<Booking>): seq<int> {
    if bookings == [] then [] else DaysOf(bookings[0]) + BookedDates(bookings[1..])
  }

  /** How many days the bookings block, counted with repetition. */
  function TotalSpan(bookings: seq<Booking>): nat {
    if bookings == [] then 0
    else |DaysOf(bookings[0])| + TotalSpan(bookings[1..])
  }

  /** `getBookedDates(bookings)`: walks every booking day by day from its
      first through its last day and appends each day to the result. */
  method GetBookedDates(bookings: seq<Booking>) returns (dates: seq<int>)
    ensures dates == BookedDates(bookings)
  {
    dates := [];
    var i := 0;
    while i < |bookings|
      invariant 0 <= i <= |bookings|
      invariant dates == BookedDates(bookings[..i])
    {
      var start := bookings[i].dateFrom;
      var end := bookings[i].dateTo;
      var d := start;
      while d <= end
        invariant start <= d <= (if start <= end then end + 1 else start)
        invariant dates == BookedDates(bookings[..i]) + Span(start, d - 1)
        decreases end - d
      {
        assert Span(start, d) == Span(start, d - 1) + [d];
        dates := dates + [d];
        d := d + 1;
      }
      if start <= end {
        assert d == end + 1;
      }
      ghost var done := Span(start, d - 1);
      assert |done| == |DaysOf(bookings[i])|;
      assert forall k :: 0 <= k < |done| ==> done[k] == DaysOf(bookings[i])[k];
      assert done == DaysOf(bookings[i]);
      BookedDatesConcat(bookings[..i], [bookings[i]]);
      assert bookings[..i + 1] == bookings[..i] + [bookings[i]];
      i := i + 1;
    }
    assert bookings[..i] == bookings;
  }

  lemma {:induction false} BookedDatesConcat(a: seq<Booking>, b: seq<Booking>)
    ensures BookedDates(a + b) == BookedDates(a) + BookedDates(b)
  {
    if a == [] {
      assert a + b == b;
    } else {
      assert (a + b)[1..] == a[1..] + b;
      BookedDatesConcat(a[1..], b);
    }
  }

  /** With no bookings nothing is excluded. */
  lemma NoBookingsNoDates()
    ensures BookedDates([]) == []
  {
  }

  /** A one-day booking blocks exactly that day; an inverted one blocks none. */
  lemma DaysOfEdgeCases(b: Booking)
    ensures b.dateFrom == b.dateTo ==> DaysOf(b) == [b.dateFrom]
    ensures b.dateFrom > b.dateTo ==> DaysOf(b) == []
  {
  }

  /** A day is in the result exactly when some booking covers it. */
  lemma {:induction false} BookedDatesMembership(bookings: seq<Booking>, day: int)
    ensures day in BookedDates(bookings) <==>
      exists j :: 0 <= j < |bookings| && bookings[j].dateFrom <= day <= bookings[j].dateTo
  {
    if bookings != [] {
      BookedDatesMembership(bookings[1..], day);
      var b := bookings[0];
      assert day in DaysOf(b) <==> b.dateFrom <= day <= b.dateTo by {
        if b.dateFrom <= day <= b.dateTo {
          assert DaysOf(b)[day - b.dateFrom] == day;
        }
      }
      if exists j :: 0 <= j < |bookings| && bookings[j].dateFrom <= day <= bookings[j].dateTo {
        var j :| 0 <= j < |bookings| && bookings[j].dateFrom <= day <= bookings[j].dateTo;
        if j > 0 {
          assert bookings[1..][j - 1] == bookings[j];
        }
      }
      if exists j :: 0 <= j < |bookings[1..]| && bookings[1..][j].dateFrom <= day <= bookings[1..][j].dateTo {
        var j :| 0 <= j < |bookings[1..]| && bookings[1..][j].dateFrom <= day <= bookings[1..][j].dateTo;
        assert bookings[j + 1] == bookings[1..][j];
      }
    }
  }

  /** The result has one entry per covered day of each booking: the sum over
      bookings of max(0, dateTo - dateFrom + 1), overlaps counted twice. */
  lemma {:induction false} BookedDatesLength(bookings: seq<Booking>)
    ensures |BookedDates(bookings)| == TotalSpan(bookings)
  {
    if bookings != [] {
      BookedDatesLength(bookings[1..]);
    }
  }

  /** Booking k's days sit right after those of the bookings before it, in
      ascending order: position TotalSpan(bookings[..k]) + n holds its
      first day plus n. */
  lemma BookedDatesLayout(bookings: seq<Booking>, k: nat, n: nat)
    requires k < |bookings| && n < |DaysOf(bookings[k])|
    ensures TotalSpan(bookings[..k]) + n < |BookedDates(bookings)|
    ensures BookedDates(bookings)[TotalSpan(bookings[..k]) + n] == bookings[k].dateFrom + n
  {
    var before, rest := bookings[..k], bookings[k..];
    assert bookings == before + rest;
    BookedDatesConcat(before, rest);
    BookedDatesLength(before);
    assert rest[0] == bookings[k];
  }

  // ---------------------------------------------------------------------
  // ISO date strings

  /** The proleptic Gregorian (year, month, day) of a UTC day number. */
  function CivilDate(days: int): (int, int, int) {
    var z := days + 719468;
    var era := z / 146097;
    var doe := z - era * 146097;
    var yoe := (doe - doe / 1460 + doe / 36524 - doe / 146096) / 365;
    var doy := doe - (365 * yoe + yoe / 4 - yoe / 100);
    var mp := (5 * doy + 2) / 153;
    var d := doy - (153 * mp + 2) / 5 + 1;
    var m := if mp < 10 then mp + 3 else mp - 9;
    var y := yoe + era * 400;
    (if m <= 2 then y + 1 else y, m, d)
  }

  predicate DateChar(c: char) {
    IsDigit(c) || c == '-' || c == '+'
  }

  /** n written in decimal with at least `width` digits. */
  function Pad(n: nat, width: nat): (s: string)
    ensures AllDigits(s)
    decreases width
  {
    var digits := NatToString(n);
    if |digits| >= width then digits else "0" + Pad(n, width - 1)
  }

  /** A field of the date, in the form `toISOString` gives it. */
  function PadInt(n: int, width: nat): (s: string)
    ensures forall i :: 0 <= i < |s| ==> DateChar(s[i])
  {
    if n < 0 then "-" + Pad(-n, width) else Pad(n, width)
  }

  /** The date part of `toISOString()`: YYYY-MM-DD, or a signed six-digit year
      outside 0000..9999. */
  function DateText(day: int): (s: string)
    ensures forall i :: 0 <= i < |s| ==> DateChar(s[i])
  {
    var (y, m, d) := CivilDate(day);
    var year := if 0 <= y <= 9999 then Pad(y, 4) else if y < 0 then "-" + Pad(-y, 6) else "+" + Pad(y, 6);
    year + "-" + PadInt(m, 2) + "-" + PadInt(d, 2)
  }

  /** The time part of `toISOString()`: HH:MM:SS.sssZ. */
  function TimeText(millis: DayMillis): string {
    Pad(millis / 3600000, 2) + ":" + Pad(millis / 60000 % 60, 2) + ":"
      + Pad(millis / 1000 % 60, 2) + "." + Pad(millis % 1000, 3) + "Z"
  }

  /** `instant.toISOString()`. */
  function IsoString(t: Instant): string {
    DateText(t.day) + "T" + TimeText(t.millis)
  }

  /** `s.split(sep)[0]`: everything before the first `sep`, or all of s. */
  function BeforeFirst(s: string, sep: char): (r: string)
    ensures |r| <= |s| && r == s[..|r|]
  {
    if s == [] || s[0] == sep then [] else [s[0]] + BeforeFirst(s[1..], sep)
  }

  lemma {:induction false} BeforeFirstOfJoin(a: string, sep: char, b: string)
    requires forall i :: 0 <= i < |a| ==> a[i] != sep
    ensures BeforeFirst(a + [sep] + b, sep) == a
  {
    if a != [] {
      assert (a + [sep] + b)[1..] == a[1..] + [sep] + b;
      BeforeFirstOfJoin(a[1..], sep, b);
    }
  }

  /** `toISOString().split('T')[0]` is exactly the date part of the instant. */
  lemma IsoDatePart(t: Instant)
    ensures BeforeFirst(IsoString(t), 'T') == DateText(t.day)
  {
    var date := DateText(t.day);
    assert forall i :: 0 <= i < |date| ==> date[i] != 'T' by {
      forall i | 0 <= i < |date| ensures date[i] != 'T' {
        assert DateChar(date[i]);
      }
    }
    assert IsoString(t) == date + ['T'] + TimeText(t.millis);
    BeforeFirstOfJoin(date, 'T', TimeText(t.millis));
  }

  // ---------------------------------------------------------------------
  // Guests and the booking request

  /** The option values the guest selector offers: "1" through maxGuests,
      since `Array.from({length: n})` has max(0, n) slots. */
  function GuestOptions(maxGuests: int): seq<string> {
    var n := if maxGuests < 0 then 0 else maxGuests;
    seq(n, i requires 0 <= i < n => NatToString(i + 1))
  }

  /** Every offered option parses back to its own guest count, so a guest
      number chosen from the selector lies in 1..maxGuests. */
  lemma GuestOptionsParse(maxGuests: int, i: nat)
    requires i < |GuestOptions(maxGuests)|
    ensures ParseInt(GuestOptions(maxGuests)[i]) == Some(i + 1)
    ensures 1 <= i + 1 <= maxGuests
  {
    ParseIntOfNatToString(i + 1);
  }

  /** The request body `handleBookClick` builds. */
  datatype BookingData = BookingData(dateFrom: string, dateTo: string, guests: Value, venueId: Value)

  /** `parseInt(guests)` as a JavaScript value. */
  function GuestsValue(guests: string): Value {
    match ParseInt(guests)
    case Some(n) => Num(n)
    case None => NaN
  }

  /** The booking request, or None when a date is still unset and
      `toISOString` throws before anything is sent. */
  function BookingPayload(startDate: Option<Instant>, endDate: Option<Instant>, guests: string, venueId: Value)
    : (r: Option<BookingData>)
    ensures r.Some? <==> startDate.Some? && endDate.Some?
    ensures r.Some? ==>
      && r.value.dateFrom == DateText(startDate.value.day)
      && r.value.dateTo == DateText(endDate.value.day)
      && r.value.venueId == venueId
  {
    match (startDate, endDate)
    case (Some(s), Some(e)) =>
      IsoDatePart(s);
      IsoDatePart(e);
      Some(BookingData(BeforeFirst(IsoString(s), 'T'), BeforeFirst(IsoString(e), 'T'),
                       GuestsValue(guests), venueId))
    case _ => None
  }

  /** A guest count picked from the selector reaches the request as that
      number, within 1..maxGuests. */
  lemma PayloadGuestsFromOptions(s: Instant, e: Instant, maxGuests: int, i: nat, venueId: Value)
    requires i < |GuestOptions(maxGuests)|
    ensures BookingPayload(Some(s), Some(e), GuestOptions(maxGuests)[i], venueId).value.guests == Num(i + 1)
    ensures 1 <= i + 1 <= maxGuests
  {
    GuestOptionsParse(maxGuests, i);
  }

  // ---------------------------------------------------------------------
  // Outcome of saveBooking

  const BookingSuccessful := "Booking Successful"
  const BookingFailed := "Error: Unable to book. Please try again."

  /** sub occurs in s starting at position i. */
  predicate OccursAt(s: string, sub: string, i: int) {
    0 <= i && i + |sub| <= |s| && s[i..i + |sub|] == sub
  }

  /** `s.includes(sub)`. */
  predicate Contains(s: string, sub: string) {
    exists i :: 0 <= i <= |s| && OccursAt(s, sub, i)
  }

  /** Whether the booking went through: an ok response whose body parses.
      A non-ok status, a rejected fetch and a body `response.json()` cannot
      parse all end in the catch-all error message. */
  predicate BookingSucceeded(reply: Reply) {
    reply.Response? && reply.ok && reply.body.Encoded?
  }

  /** The message `saveBooking` leaves in `bookingMessage`. */
  function SaveMessage(reply: Reply): (msg: string)
    ensures msg == BookingSuccessful <==> BookingSucceeded(reply)
    ensures msg == BookingFailed <==> !BookingSucceeded(reply)
  {
    match reply
    case NetworkFailure(_) => BookingFailed
    case Response(ok, _, body) =>
      if !ok then BookingFailed                          // error body read, then the error message
      else if JsonBody(body).Threw? then BookingFailed   // thrown from response.json(), caught
      else BookingSuccessful
  }

  /** The alert style for a booking message: 'danger' when it mentions Error. */
  function AlertVariant(message: string): string {
    if Contains(message, "Error") then "danger" else "success"
  }

  /** The alert is red exactly when the booking failed. */
  lemma AlertVariantOfOutcome(reply: Reply)
    ensures AlertVariant(SaveMessage(reply)) == (if BookingSucceeded(reply) then "success" else "danger")
  {
    if BookingSucceeded(reply) {
      var s := BookingSuccessful;
      forall i
        ensures !OccursAt(s, "Error", i)
      {
        if 0 <= i && i + 5 <= |s| {
          assert s[i..i + 5][0] == s[i] != 'E';
        }
      }
    } else {
      var m := BookingFailed;
      assert m[0] == 'E' && m[1] == 'r' && m[2] == 'r' && m[3] == 'o' && m[4] == 'r';
      assert m[0..5] == "Error";
      assert OccursAt(BookingFailed, "Error", 0);
    }
  }

  // ---------------------------------------------------------------------
  // Component state

  /** The state of `BookingCalendar`. */
  class BookingCalendar {
    var startDate: Option<Instant>
    var endDate: Option<Instant>
    var guests: string
    var bookedDates: seq<int>
    var bookingMessage: Option<string>

    /** Initial state: the check-in date is now, no check-out date, one guest
        (held as the text the selector uses), nothing booked yet, no message. */
    constructor (now: Instant)
      ensures startDate == Some(now) && endDate == None
      ensures guests == "1" && ParseInt(guests) == Some(1)
      ensures bookedDates == [] && bookingMessage == None
    {
      startDate := Some(now);
      endDate := None;
      guests := "1";
      bookedDates := [];
      bookingMessage := None;
      ParseIntOfNatToString(1);
    }

    /** The effect that recomputes the excluded days when the bookings change. */
    method RefreshBookedDates(bookings: seq<Booking>)
      modifies this
      ensures bookedDates == BookedDates(bookings)
      ensures startDate == old(startDate) && endDate == old(endDate)
      ensures guests == old(guests) && bookingMessage == old(bookingMessage)
    {
      bookedDates := GetBookedDates(bookings);
    }

    /** `handleGuestChange`: the selector's value becomes the guest state. */
    method HandleGuestChange(value: string)
      modifies this`guests
      ensures guests == value
    {
      guests := value;
    }

    /** The two date pickers' change handlers. */
    method SelectDates(start: Option<Instant>, end: Option<Instant>)
      modifies this`startDate, this`endDate
      ensures startDate == start && endDate == end
    {
      startDate := start;
      endDate := end;
    }

    /** `saveBooking`: the reply decides the message; nothing else changes. */
    method SaveBooking(reply: Reply)
      modifies this`bookingMessage
      ensures bookingMessage == Some(SaveMessage(reply))
    {
      match reply
      case NetworkFailure(_) =>
        bookingMessage := Some(BookingFailed);
      case Response(ok, _, body) =>
        if !ok {
          bookingMessage := Some(BookingFailed);
        } else {
          var parsed := JsonBody(body);
          if parsed.Threw? {
            bookingMessage := Some(BookingFailed);
          } else {
            bookingMessage := Some(BookingSuccessful);
          }
        }
    }

    /** `handleBookClick`: builds the request and, when both dates are set,
        sends it; `sent` is the request that went out. */
    method HandleBookClick(venueId: Value, reply: Reply) returns (sent: Option<BookingData>)
      modifies this`bookingMessage
      ensures sent == BookingPayload(startDate, endDate, guests, venueId)
      ensures sent.Some? ==> bookingMessage == Some(SaveMessage(reply))
      ensures sent.None? ==> bookingMessage == old(bookingMessage)
    {
      sent := BookingPayload(startDate, endDate, guests, venueId);
      if sent.Some? {
        SaveBooking(reply);
      }
    }
  }
}
