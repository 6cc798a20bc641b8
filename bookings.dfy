/**
  `Booking`: a reservation of one customer on one operational flight, with
  its state (0 pending, 1 confirmed, 2 cancelled).  The schedule id is kept
  beside the flight id for the database's seat bookkeeping.
 */
module Bookings {
  import opened JavaLang

  class Booking {
    var bookingNumber: int32
    var state: int32
    var customerId: Option<string>
    var flightId: int32
    var generalFlightId: int32
    var bookingDate: Option<Timestamp>

    /** `Booking()`: every field keeps Java's default. */
    constructor Default()
      ensures bookingNumber == 0 && state == 0 && customerId == None
      ensures flightId == 0 && generalFlightId == 0 && bookingDate == None
    {
      bookingNumber, state, customerId := 0, 0, None;
      flightId, generalFlightId, bookingDate := 0, 0, None;
    }

    /**
      The constructor used to create a booking: four fields copied; the
      booking number stays 0 and the booking date stays null.
     */
    constructor Create(st: int32, customer: Option<string>, flight: int32, schedule: int32)
      ensures state == st && customerId == customer
      ensures flightId == flight && generalFlightId == schedule
      ensures bookingNumber == 0 && bookingDate == None
    {
      bookingNumber, bookingDate := 0, None;
      state, customerId := st, customer;
      flightId, generalFlightId := flight, schedule;
    }

    /** The full constructor stores all six arguments. */
    constructor Full(number: int32, st: int32, customer: Option<string>, flight: int32,
                     schedule: int32, date: Option<Timestamp>)
      ensures bookingNumber == number && state == st && customerId == customer
      ensures flightId == flight && generalFlightId == schedule && bookingDate == date
    {
      bookingNumber, state, customerId := number, st, customer;
      flightId, generalFlightId, bookingDate := flight, schedule, date;
    }

    method SetBookingNumber(n: int32)
      modifies this`bookingNumber
      ensures bookingNumber == n
    {
      bookingNumber := n;
    }

    method SetState(st: int32)
      modifies this`state
      ensures state == st
    {
      state := st;
    }

    method SetCustomerId(id: Option<string>)
      modifies this`customerId
      ensures customerId == id
    {
      customerId := id;
    }

    method SetFlightId(id: int32)
      modifies this`flightId
      ensures flightId == id
    {
      flightId := id;
    }

    method SetGeneralFlightId(id: int32)
      modifies this`generalFlightId
      ensures generalFlightId == id
    {
      generalFlightId := id;
    }

    method SetBookingDate(d: Option<Timestamp>)
      modifies this`bookingDate
      ensures bookingDate == d
    {
      bookingDate := d;
    }

    /** `getStateString()` */
    function StateString(): (r: string)
      reads this
      ensures r == "Unknown" <==> !(0 <= state <= 2)
    {
      BookingStateName(state)
    }

    /**
      `"Booking #: <number> - Cust: <customer> - Flight: <flight> (<state name>)"`:
      the number reads back from the text, which ends with the state name.
     */
    function ToString(): (t: string)
      reads this
      ensures |t| > |"Booking #: "| && t[..|"Booking #: "|] == "Booking #: "
      ensures ReadIntBefore(t[|"Booking #: "|..], ' ') == Some(bookingNumber)
      ensures EndsWith(t, " (" + StateString() + ")")
    {
      BookingTextReadsBack(bookingNumber, StringOrNull(customerId), flightId, StateString());
      BookingText(bookingNumber, StringOrNull(customerId), flightId, StateString())
    }
  }

  /** The display name of a booking state. */
  function BookingStateName(state: int): (r: string)
    ensures r == "Unknown" <==> !(0 <= state <= 2)
  {
    match state
    case 0 => "Pending"
    case 1 => "Confirmed"
    case 2 => "Cancelled"
    case _ => "Unknown"
  }

  /** The three known states have three different names. */
  lemma BookingStateNamesDistinct(a: int, b: int)
    requires 0 <= a <= 2 && 0 <= b <= 2
    requires BookingStateName(a) == BookingStateName(b)
    ensures a == b
  {
  }

  function BookingText(number: int32, customer: string, flight: int32, stateName: string): string {
    "Booking #: " + (IntToString(number) + (" - Cust: " + (customer + (" - Flight: " + (IntToString(flight)
      + (" (" + stateName + ")"))))))
  }

  lemma BookingTextReadsBack(number: int32, customer: string, flight: int32, stateName: string)
    ensures var t := BookingText(number, customer, flight, stateName);
      && |t| > |"Booking #: "| && t[..|"Booking #: "|] == "Booking #: "
      && ReadIntBefore(t[|"Booking #: "|..], ' ') == Some(number)
      && EndsWith(t, " (" + stateName + ")")
  {
    var a := IntToString(number);
    var tail := " (" + stateName + ")";
    var v := IntToString(flight) + tail;
    var u := " - Flight: " + v;
    var z := customer + u;
    var y := " - Cust: " + z;
    var x := a + y;
    DropPrefix("Booking #: ", x);
    ReadIntBeforePrinted(number, ' ', y);
    EndsWithItself(tail);
    EndsWithPrepend(IntToString(flight), tail, tail);
    EndsWithPrepend(" - Flight: ", v, tail);
    EndsWithPrepend(customer, u, tail);
    EndsWithPrepend(" - Cust: ", z, tail);
    EndsWithPrepend(a, y, tail);
    EndsWithPrepend("Booking #: ", x, tail);
  }
}
