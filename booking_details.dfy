/**
  `BookingDetail`: the flat record of one booking as the database's booking
  details procedure returns it, joining the booking, its customer, its flight,
  the flight's schedule, both airports and cities, the airline and the
  optional aircraft.  Each field has its own setter; the two state codes have
  their own display texts, which name unknown codes with the code itself.
 */
module BookingDetails {
  import opened JavaLang
  import Bookings
  import Flights

  class BookingDetail {
    var bookingNumber: int32
    var bookingState: int32
    var bookingDate: Option<Timestamp>
    var customerId: Option<string>
    var customerFirstName: Option<string>
    var customerLastName: Option<string>
    var customerEmail: Option<string>
    var customerAddress: Option<string>
    var customerPhone: Option<string>
    var flightId: int32
    var flightTakeOffDate: Option<Date>
    var flightArrivalDate: Option<Date>
    var flightState: int32
    var generalFlightId: int32
    var generalFlightScheduledDeparture: Option<string>
    var generalFlightScheduledArrival: Option<string>
    var numberSeats: int32
    var seatsBooked: int32
    var departureAirport: Option<string>
    var departureCity: Option<string>
    var arrivalAirport: Option<string>
    var arrivalCity: Option<string>
    var airlineName: Option<string>
    var aircraftName: Option<string>

    /** `BookingDetail()`: every field keeps Java's default until a setter fills it. */
    constructor ()
      ensures bookingNumber == 0 && bookingState == 0 && bookingDate == None && customerId == None
      ensures customerFirstName == None && customerLastName == None && customerEmail == None && customerAddress == None
      ensures customerPhone == None && flightId == 0 && flightTakeOffDate == None && flightArrivalDate == None
      ensures flightState == 0 && generalFlightId == 0 && generalFlightScheduledDeparture == None && generalFlightScheduledArrival == None
      ensures numberSeats == 0 && seatsBooked == 0 && departureAirport == None && departureCity == None
      ensures arrivalAirport == None && arrivalCity == None && airlineName == None && aircraftName == None
    {
      bookingNumber := 0;
      bookingState := 0;
      bookingDate := None;
      customerId := None;
      customerFirstName := None;
      customerLastName := None;
      customerEmail := None;
      customerAddress := None;
      customerPhone := None;
      flightId := 0;
      flightTakeOffDate := None;
      flightArrivalDate := None;
      flightState := 0;
      generalFlightId := 0;
      generalFlightScheduledDeparture := None;
      generalFlightScheduledArrival := None;
      numberSeats := 0;
      seatsBooked := 0;
      departureAirport := None;
      departureCity := None;
      arrivalAirport := None;
      arrivalCity := None;
      airlineName := None;
      aircraftName := None;
    }

    method SetBookingNumber(v: int32)
      modifies this`bookingNumber
      ensures bookingNumber == v
    {
      bookingNumber := v;
    }

    method SetBookingState(v: int32)
      modifies this`bookingState
      ensures bookingState == v
    {
      bookingState := v;
    }

    method SetBookingDate(v: Option<Timestamp>)
      modifies this`bookingDate
      ensures bookingDate == v
    {
      bookingDate := v;
    }

    method SetCustomerId(v: Option<string>)
      modifies this`customerId
      ensures customerId == v
    {
      customerId := v;
    }

    method SetCustomerFirstName(v: Option<string>)
      modifies this`customerFirstName
      ensures customerFirstName == v
    {
      customerFirstName := v;
    }

    method SetCustomerLastName(v: Option<string>)
      modifies this`customerLastName
      ensures customerLastName == v
    {
      customerLastName := v;
    }

    method SetCustomerEmail(v: Option<string>)
      modifies this`customerEmail
      ensures customerEmail == v
    {
      customerEmail := v;
    }

    method SetCustomerAddress(v: Option<string>)
      modifies this`customerAddress
      ensures customerAddress == v
    {
      customerAddress := v;
    }

    method SetCustomerPhone(v: Option<string>)
      modifies this`customerPhone
      ensures customerPhone == v
    {
      customerPhone := v;
    }

    method SetFlightId(v: int32)
      modifies this`flightId
      ensures flightId == v
    {
      flightId := v;
    }

    method SetFlightTakeOffDate(v: Option<Date>)
      modifies this`flightTakeOffDate
      ensures flightTakeOffDate == v
    {
      flightTakeOffDate := v;
    }

    method SetFlightArrivalDate(v: Option<Date>)
      modifies this`flightArrivalDate
      ensures flightArrivalDate == v
    {
      flightArrivalDate := v;
    }

    method SetFlightState(v: int32)
      modifies this`flightState
      ensures flightState == v
    {
      flightState := v;
    }

    method SetGeneralFlightId(v: int32)
      modifies this`generalFlightId
      ensures generalFlightId == v
    {
      generalFlightId := v;
    }

    method SetGeneralFlightScheduledDeparture(v: Option<string>)
      modifies this`generalFlightScheduledDeparture
      ensures generalFlightScheduledDeparture == v
    {
      generalFlightScheduledDeparture := v;
    }

    method SetGeneralFlightScheduledArrival(v: Option<string>)
      modifies this`generalFlightScheduledArrival
      ensures generalFlightScheduledArrival == v
    {
      generalFlightScheduledArrival := v;
    }

    method SetNumberSeats(v: int32)
      modifies this`numberSeats
      ensures numberSeats == v
    {
      numberSeats := v;
    }

    method SetSeatsBooked(v: int32)
      modifies this`seatsBooked
      ensures seatsBooked == v
    {
      seatsBooked := v;
    }

    method SetDepartureAirport(v: Option<string>)
      modifies this`departureAirport
      ensures departureAirport == v
    {
      departureAirport := v;
    }

    method SetDepartureCity(v: Option<string>)
      modifies this`departureCity
      ensures departureCity == v
    {
      departureCity := v;
    }

    method SetArrivalAirport(v: Option<string>)
      modifies this`arrivalAirport
      ensures arrivalAirport == v
    {
      arrivalAirport := v;
    }

    method SetArrivalCity(v: Option<string>)
      modifies this`arrivalCity
      ensures arrivalCity == v
    {
      arrivalCity := v;
    }

    method SetAirlineName(v: Option<string>)
      modifies this`airlineName
      ensures airlineName == v
    {
      airlineName := v;
    }

    method SetAircraftName(v: Option<string>)
      modifies this`aircraftName
      ensures aircraftName == v
    {
      aircraftName := v;
    }

    /** `getBookingStateString()` */
    function BookingStateString(): (r: string)
      reads this
      ensures 0 <= bookingState <= 2 ==> r == Bookings.BookingStateName(bookingState)
      ensures !(0 <= bookingState <= 2) ==> r == UnknownText(bookingState)
    {
      BookingStateText(bookingState)
    }

    /** `getFlightStateString()` */
    function FlightStateString(): (r: string)
      reads this
      ensures flightState == 0 ==> r == Flights.FlightStateName(0)
      ensures flightState == 1 ==> r == "On-going"
      ensures (flightState == 2 || flightState == 3) ==> r == Flights.FlightStateName(5 - flightState)
      ensures !(0 <= flightState <= 3) ==> r == UnknownText(flightState)
    {
      FlightStateText(flightState)
    }
  }
  /** `"Unknown (<code>)"`, the text of a code that has no name. */
  function UnknownText(code: int32): string {
    "Unknown (" + (IntToString(code) + ")")
  }

  /** The booking state as the booking details show it. */
  function BookingStateText(state: int32): (r: string)
    ensures 0 <= state <= 2 ==> r == Bookings.BookingStateName(state)
    ensures !(0 <= state <= 2) ==> r == UnknownText(state)
  {
    match state
    case 0 => "Pending"
    case 1 => "Confirmed"
    case 2 => "Cancelled"
    case _ => UnknownText(state)
  }

  /**
    The flight state as the booking details show it.  Codes 2 and 3 read here
    as "Cancelled" and "Completed", the other way round from `Flight`.
   */
  function FlightStateText(state: int32): (r: string)
    ensures state == 0 ==> r == Flights.FlightStateName(0)
    ensures state == 1 ==> r == "On-going"
    ensures (state == 2 || state == 3) ==> r == Flights.FlightStateName(5 - state)
    ensures !(0 <= state <= 3) ==> r == UnknownText(state)
  {
    match state
    case 0 => "Scheduled"
    case 1 => "On-going"
    case 2 => "Cancelled"
    case 3 => "Completed"
    case _ => UnknownText(state)
  }

  /** An unknown code's text carries the code, which reads back from it. */
  lemma UnknownTextCarriesCode(code: int32)
    ensures var t := UnknownText(code);
      t[..|"Unknown ("|] == "Unknown (" && ReadIntBefore(t[|"Unknown ("|..], ')') == Some(code)
  {
    DropPrefix("Unknown (", IntToString(code) + ")");
    ReadIntBeforePrinted(code, ')', ")");
  }

  lemma UnknownTextInjective(a: int32, b: int32)
    requires UnknownText(a) == UnknownText(b)
    ensures a == b
  {
    UnknownTextCarriesCode(a);
    UnknownTextCarriesCode(b);
  }

  /** No named state reads as the text of an unknown code. */
  lemma UnknownTextIsNoName(code: int32)
    ensures UnknownText(code) !in {"Pending", "Confirmed", "Cancelled", "Scheduled", "On-going", "Completed"}
  {
    var t := UnknownText(code);
    assert t[0] == 'U';
  }

  /** Different booking states, known or not, always show different texts. */
  lemma BookingStateTextInjective(a: int32, b: int32)
    requires BookingStateText(a) == BookingStateText(b)
    ensures a == b
  {
    UnknownTextIsNoName(a);
    UnknownTextIsNoName(b);
    if !(0 <= a <= 2) && !(0 <= b <= 2) {
      UnknownTextInjective(a, b);
    }
  }

  /** Different flight states, known or not, always show different texts. */
  lemma FlightStateTextInjective(a: int32, b: int32)
    requires FlightStateText(a) == FlightStateText(b)
    ensures a == b
  {
    UnknownTextIsNoName(a);
    UnknownTextIsNoName(b);
    if !(0 <= a <= 3) && !(0 <= b <= 3) {
      UnknownTextInjective(a, b);
    }
  }

  /** The booking details name the known booking states as `Booking` does; unknown codes differ. */
  lemma BookingStateTextAgreesWithBooking(state: int32)
    ensures 0 <= state <= 2 ==> BookingStateText(state) == Bookings.BookingStateName(state)
    ensures !(0 <= state <= 2) ==>
      Bookings.BookingStateName(state) == "Unknown" && BookingStateText(state) != "Unknown"
  {
    UnknownTextCarriesCode(state);
  }

  /**
    The booking details and `Flight` agree only on code 0: code 1 is
    "On-going" against "In Progress", and codes 2 and 3 are swapped.
   */
  lemma FlightStateTextDisagreesWithFlight()
    ensures FlightStateText(0) == Flights.FlightStateName(0)
    ensures FlightStateText(1) != Flights.FlightStateName(1)
    ensures FlightStateText(2) == Flights.FlightStateName(3)
    ensures FlightStateText(3) == Flights.FlightStateName(2)
  {
  }
}
