/**
 * The logic of a business card: the phone number formatter, the title and Yelp link
 * derived from the record, and the one-shot booking of a mock slot.
 */
module EntityCard {
  import opened Wrappers
  import opened Strings
  import opened Yelp

  /* ---------- Phone numbers ---------- */

  /** `phone.replace(/\D/g, '')`: the ASCII digits of `s`, in order. */
  function Digits(s: string): (r: string)
    ensures |r| <= |s|
    ensures forall i :: 0 <= i < |r| ==> IsDigit(r[i])
  {
    if s == [] then [] else (if IsDigit(s[0]) then [s[0]] else []) + Digits(s[1..])
  }

  lemma {:induction false} DigitsAppend(a: string, b: string)
    ensures Digits(a + b) == Digits(a) + Digits(b)
  {
    if a != [] {
      assert (a + b)[0] == a[0] && (a + b)[1..] == a[1..] + b;
      DigitsAppend(a[1..], b);
      assert Digits(a + b) == (if IsDigit(a[0]) then [a[0]] else []) + (Digits(a[1..]) + Digits(b));
    } else {
      assert a + b == b;
    }
  }

  /** A string of digits is its own digits. */
  lemma {:induction false} DigitsOfDigits(s: string)
    requires forall i :: 0 <= i < |s| ==> IsDigit(s[i])
    ensures Digits(s) == s
  {
    if s != [] {
      DigitsOfDigits(s[1..]);
    }
  }

  /** "(ddd) ddd-dddd" from ten digits. */
  function UsLayout(ten: string): (r: string)
    requires |ten| == 10
  {
    "(" + ten[..3] + ") " + ten[3..6] + "-" + ten[6..]
  }

  /**
   * `formatPhone`: null for a missing or empty number; eleven digits starting with 1, or ten
   * digits, laid out as "(ddd) ddd-dddd" from the last ten; any other number as it was given.
   */
  function FormatPhone(phone: Option<string>): (r: Option<string>)
    ensures r.None? <==> !Truthy(phone)
  {
    if !Truthy(phone) then None
    else
      var cleaned := Digits(phone.value);
      if |cleaned| == 11 && cleaned[0] == '1' then Some(UsLayout(cleaned[1..]))
      else if |cleaned| == 10 then Some(UsLayout(cleaned))
      else phone
  }

  /** The layout keeps the ten digits, in order, and nothing else that is a digit. */
  lemma UsLayoutDigits(ten: string)
    requires |ten| == 10 && forall i :: 0 <= i < 10 ==> IsDigit(ten[i])
    ensures |UsLayout(ten)| == 14
    ensures Digits(UsLayout(ten)) == ten
  {
    var a, b, c := ten[..3], ten[3..6], ten[6..];
    DigitsOfDigits(a);
    DigitsOfDigits(b);
    DigitsOfDigits(c);
    DigitsAppend("(" + a + ") " + b + "-", c);
    DigitsAppend("(" + a + ") " + b, "-");
    DigitsAppend("(" + a + ") ", b);
    DigitsAppend("(" + a, ") ");
    DigitsAppend("(", a);
    assert Digits("(") == [] && Digits(") ") == [] && Digits("-") == [];
    assert a + b + c == ten;
  }

  /**
   * A reformatted number is fourteen characters long and carries the national ten digits:
   * the digits without the leading 1 of an eleven-digit number. Every other number is
   * returned unchanged.
   */
  lemma FormatPhoneDigits(phone: Option<string>)
    requires Truthy(phone)
    ensures var cleaned := Digits(phone.value);
      var r := FormatPhone(phone).value;
      && (|cleaned| == 11 && cleaned[0] == '1' ==> |r| == 14 && Digits(r) == cleaned[1..])
      && (|cleaned| == 10 ==> |r| == 14 && Digits(r) == cleaned)
      && (|cleaned| != 10 && !(|cleaned| == 11 && cleaned[0] == '1') ==> r == phone.value)
  {
    var cleaned := Digits(phone.value);
    if |cleaned| == 11 && cleaned[0] == '1' {
      UsLayoutDigits(cleaned[1..]);
    } else if |cleaned| == 10 {
      UsLayoutDigits(cleaned);
    }
  }

  /** Formatting a formatted number changes nothing. */
  lemma FormatPhoneIdempotent(phone: Option<string>)
    requires Truthy(phone)
    ensures FormatPhone(FormatPhone(phone)) == FormatPhone(phone)
  {
    var cleaned := Digits(phone.value);
    FormatPhoneDigits(phone);
    var r := FormatPhone(phone).value;
    if (|cleaned| == 11 && cleaned[0] == '1') || |cleaned| == 10 {
      var ten := if |cleaned| == 10 then cleaned else cleaned[1..];
      assert r == UsLayout(ten);
      assert Digits(r) == ten;
    }
  }

  /* ---------- Title and link ---------- */

  /** `entity.name || entity.id || 'Recommended spot'`. */
  function Title(e: Entity): (r: string)
    ensures r != ""
    ensures Truthy(e.name) ==> r == e.name.value
    ensures !Truthy(e.name) && Truthy(e.id) ==> r == e.id.value
    ensures !Truthy(e.name) && !Truthy(e.id) ==> r == "Recommended spot"
  {
    if Truthy(e.name) then e.name.value else if Truthy(e.id) then e.id.value else "Recommended spot"
  }

  /** The Yelp link: the url as given, shown only when it is not blank. */
  function YelpUrl(e: Entity): (r: Option<string>)
    ensures r.Some? <==> e.url.Some? && !Blank(e.url.value)
    ensures r.Some? ==> r == e.url
  {
    if Truthy(e.url) && |Trim(e.url.value)| > 0 then e.url else None
  }

  /** The booking row is shown for a reservable record with at least one mock slot. */
  predicate ShowsBooking(e: Entity) {
    HasReservation(e) && e.mockSlots.Some? && |e.mockSlots.value| > 0
  }

  /* ---------- One-shot booking ---------- */

  /** `handleBookSlot` on the state cell: a tap books its slot unless a slot is already booked. */
  function AfterTap(booked: Option<string>, slot: string): (r: Option<string>)
    ensures Truthy(booked) ==> r == booked
    ensures !Truthy(booked) ==> r == Some(slot)
  {
    if Truthy(booked) then booked else Some(slot)
  }

  /** The state after a series of taps, from the first. */
  function AfterTaps(booked: Option<string>, taps: seq<string>): Option<string>
    decreases |taps|
  {
    if taps == [] then booked else AfterTaps(AfterTap(booked, taps[0]), taps[1..])
  }

  /** Once a slot is booked, no series of taps changes it. */
  lemma {:induction false} BookedSlotNeverChanges(booked: Option<string>, taps: seq<string>)
    requires Truthy(booked)
    ensures AfterTaps(booked, taps) == booked
  {
    if taps != [] {
      BookedSlotNeverChanges(AfterTap(booked, taps[0]), taps[1..]);
    }
  }

  /** From an unbooked card, the first tap on a (non-empty) slot decides the booking for good. */
  lemma FirstTapWins(taps: seq<string>)
    requires taps != [] && taps[0] != ""
    ensures AfterTaps(None, taps) == Some(taps[0])
  {
    BookedSlotNeverChanges(Some(taps[0]), taps[1..]);
  }

  /** The card's `bookedSlot` state. */
  class BookingCard {
    var bookedSlot: Option<string>

    constructor()
      ensures bookedSlot == None
    {
      bookedSlot := None;
    }

    /** The chips are disabled once any slot is booked. */
    predicate SlotsDisabled()
      reads this
    {
      bookedSlot.Some?
    }

    /** `handleBookSlot(slot)`. */
    method BookSlot(slot: string)
      modifies this
      ensures bookedSlot == AfterTap(old(bookedSlot), slot)
    {
      if Truthy(bookedSlot) {
        return;
      }
      bookedSlot := Some(slot);
    }

    /** The heading over the chips. */
    function Heading(): (r: string)
      reads this
      ensures r == "Booking Confirmed" <==> Truthy(bookedSlot)
    {
      if Truthy(bookedSlot) then "Booking Confirmed" else "Instant Booking"
    }
  }
}
