# Travel agency: records and booking rules

A model of the Java Swing travel-agency application (MainAppFrame plus the
record classes GeneralFlight, Flight, Booking, BookingDetail and City), and
proofs about that model. The application manages three things:

- flight schedules, which carry a seat capacity and a booked-seat count;
- operational flights, which are instances of a schedule with a state
  (scheduled, in progress, completed, cancelled);
- bookings, which have a state (pending, confirmed, cancelled).

The database and its seat-count triggers are outside the model. What the
model covers is the logic that the application itself runs.

## Modules

- `JavaLang` (`java_lang.dfy`): the Java library behaviour the code relies on.
  - A nullable reference is `Option`.
  - `int` is a 32-bit subset type, and `Sub32` models Java's wrapping subtraction.
  - Dates, times and timestamps are their milliseconds.
  - `Integer.toString` and `Integer.parseInt`, with `IntToString` and
    `ParseInt` proved to round-trip.
  - `String.trim`, `toLowerCase` (ASCII), `contains` (proved equal to "occurs
    at some offset") and `indexOf`.
- `Cities`, `GeneralFlights`, `Flights`, `Bookings`, `BookingDetails`: one
  class per record.
  - Each field is a class field, and each setter may write only its own field.
  - Each constructor states every field it leaves behind.
  - The `switch` state names and the `toString` texts are functions.
  - The contracts of the `toString` of `GeneralFlight`, `Flight` and
    `Booking` read the id (and, for a schedule, the seat numbers) back out of
    the text. For a flight or a booking they also show that the text ends
    with the state name. `City.toString` is the name alone; its lemma says
    that the id plays no part in it.
- `MainFrame` (`main_frame.dfy`): the rules of the main window.
  - The operational-flight combo box is filled in place from the bookable
    flights. `BookableFlights` is the specification of its loop.
    - A bookable flight without a take-off date makes the date formatting
      throw. The loop stops there: the box keeps the flights listed before it
      and gets no placeholder.
  - The city combo box is filled the same way.
  - The input checks of these forms are modelled:
    - add city, airline and aircraft (`CheckNameForm`), add airport
      (`CheckAirportForm`) and add customer (`CheckCustomerForm`);
    - add schedule, add flight and add booking;
    - the two booking-number fields (`CheckBookingNumber`);
    - the city search, the period search, the flight update and the
      booking-state update.
  - A state is decoded from a `"N - Name"` label.
  - A storage error is classified as "no available seats" or generic, and the
    resulting report and list refresh are decided.
  - Schedule-search rows fall back to `AirlineID:<id>` / `AirportID:<id>` when
    a name lookup finds nothing.
    - A name cell is a `NameCell`: either the looked-up name or the prefix and
      the id. `Text()` is the string the table shows.
    - A schedule with no takeoff time, arrival time or day makes the time
      formatting throw. The loop stops there, and the table keeps the rows
      added before it.

## How the database is replaced by inputs

- A data-access call that can throw `SQLException` becomes an `Option` input,
  where `None` is the exception.
- A lookup by id is a map. An id missing from the map stands for a lookup
  that returned `null` or failed; the window treats these two cases the same.
- A parsed date or time is an `Option` of its milliseconds.
- The current time of a new booking is a parameter.
- A storage outcome is `Stored`, `NoRowsAffected` or a `StorageError(code, message)`.

## Behaviour of the code worth knowing

The model follows the code in each case.

- The booking form rejects a customer whose id is `"-1"`, but it accepts a
  customer whose id is `null`. `CheckBookingForm` states this.
- The name fallbacks are the literal prefixes `AirlineID:` and `AirportID:`,
  each followed by the id.
- `BookingDetail` names flight states differently from `Flight`:
  - `Flight` names codes 2 and 3 "Completed" and "Cancelled";
  - `BookingDetail` names them "Cancelled" and "Completed";
  - for code 1, `BookingDetail` says "On-going" where `Flight` says "In Progress".

  Both mappings are modelled as written, and `FlightStateTextDisagreesWithFlight`
  records the difference.

## Model

| member | source | states |
|---|---|---|
| Cities.City.Default | src/com/travelagency/model/City.java:7-8 | both fields keep their defaults: id 0, name null |
| Cities.City.Named | src/com/travelagency/model/City.java:10-12 | the name is stored and the id stays 0 |
| Cities.City.Create | src/com/travelagency/model/City.java:14-17 | both the id and the name are stored |
| Cities.City.SetCityId | src/com/travelagency/model/City.java:19-25 | the id getter then returns the new id; the name is unchanged |
| Cities.City.SetCityName | src/com/travelagency/model/City.java:27-33 | the name getter then returns the new name; the id is unchanged |
| Cities.City.Equals | src/com/travelagency/model/City.java:43-48 | the same object, or another City with the same id; its meaning is stated by the lemmas below |
| Cities.ToStringShowsNameOnly | src/com/travelagency/model/City.java:36-39 | two cities with the same name show the same text, whatever their ids |
| Cities.EqualsIffSameId | src/com/travelagency/model/City.java:43-48 | equal exactly when the other object is a City with the same id; names are ignored |
| Cities.EqualsReflexive | src/com/travelagency/model/City.java:44 | every city equals itself |
| Cities.EqualsNullIsFalse | src/com/travelagency/model/City.java:45 | no city equals null |
| Cities.EqualsSymmetricTransitive | src/com/travelagency/model/City.java:43-48 | equality is symmetric and transitive |
| Cities.HashCodeAgreesWithEquals | src/com/travelagency/model/City.java:42-53 | equal cities have equal hash codes |
| GeneralFlights.GeneralFlight.Default | src/com/travelagency/model/GeneralFlight.java:17-18 | all nine fields keep their defaults |
| GeneralFlights.GeneralFlight.Create | src/com/travelagency/model/GeneralFlight.java:21-30 | the seven given fields are copied; seatsBooked is 0 and the id keeps its default 0 |
| GeneralFlights.GeneralFlight.Full | src/com/travelagency/model/GeneralFlight.java:34-44 | all nine arguments are stored |
| GeneralFlights.GeneralFlight.SetGeneralFlightId | src/com/travelagency/model/GeneralFlight.java:47-48 | only this field changes (write frame of one field), and its getter then returns the new value |
| GeneralFlights.GeneralFlight.SetTakeoffTime | src/com/travelagency/model/GeneralFlight.java:49-50 | only this field changes (write frame of one field), and its getter then returns the new value |
| GeneralFlights.GeneralFlight.SetArrivalTime | src/com/travelagency/model/GeneralFlight.java:51-52 | only this field changes (write frame of one field), and its getter then returns the new value |
| GeneralFlights.GeneralFlight.SetFDay | src/com/travelagency/model/GeneralFlight.java:53-54 | only this field changes (write frame of one field), and its getter then returns the new value |
| GeneralFlights.GeneralFlight.SetDepAirportId | src/com/travelagency/model/GeneralFlight.java:55-56 | only this field changes (write frame of one field), and its getter then returns the new value |
| GeneralFlights.GeneralFlight.SetArrAirportId | src/com/travelagency/model/GeneralFlight.java:57-58 | only this field changes (write frame of one field), and its getter then returns the new value |
| GeneralFlights.GeneralFlight.SetAirlineId | src/com/travelagency/model/GeneralFlight.java:59-60 | only this field changes (write frame of one field), and its getter then returns the new value |
| GeneralFlights.GeneralFlight.SetNumberSeats | src/com/travelagency/model/GeneralFlight.java:61-62 | only this field changes (write frame of one field), and its getter then returns the new value |
| GeneralFlights.GeneralFlight.SetSeatsBooked | src/com/travelagency/model/GeneralFlight.java:63-64 | only this field changes (write frame of one field), and its getter then returns the new value |
| GeneralFlights.GeneralFlight.AvailableSeats | src/com/travelagency/model/GeneralFlight.java:70 | free seats are numberSeats - seatsBooked in 32-bit arithmetic; whenever 0 <= seatsBooked <= numberSeats this is the true, non-negative difference |
| GeneralFlights.GeneralFlight.ToString | src/com/travelagency/model/GeneralFlight.java:70 | the text starts with "GFID: " and the id, available seats and capacity each read back from it |
| GeneralFlights.ScheduleTextReadsBack | src/com/travelagency/model/GeneralFlight.java:70 | the id, the available seats and the capacity of the schedule text all read back |
| Flights.Flight.Default | src/com/travelagency/model/Flight.java:13-14 | all six fields keep their defaults, aircraft id null |
| Flights.Flight.Create | src/com/travelagency/model/Flight.java:17-23 | the five given fields are copied, aircraft id possibly null; flightId stays 0 |
| Flights.Flight.Full | src/com/travelagency/model/Flight.java:26-33 | all six arguments are stored |
| Flights.Flight.SetFlightId | src/com/travelagency/model/Flight.java:36-37 | only this field changes (write frame of one field), and its getter then returns the new value |
| Flights.Flight.SetTakeOffDate | src/com/travelagency/model/Flight.java:38-39 | only this field changes (write frame of one field), and its getter then returns the new value |
| Flights.Flight.SetArrivalDate | src/com/travelagency/model/Flight.java:40-41 | only this field changes (write frame of one field), and its getter then returns the new value |
| Flights.Flight.SetState | src/com/travelagency/model/Flight.java:42-43 | only this field changes (write frame of one field), and its getter then returns the new value |
| Flights.Flight.SetGeneralFlightId | src/com/travelagency/model/Flight.java:44-45 | only this field changes (write frame of one field), and its getter then returns the new value |
| Flights.Flight.SetAircraftId | src/com/travelagency/model/Flight.java:46-47 | only this field changes (write frame of one field), and its getter then returns the new value |
| Flights.FlightStateName | src/com/travelagency/model/Flight.java:50-58 | the name is "Unknown" exactly for the codes outside 0..3 |
| Flights.FlightStateNamesDistinct | src/com/travelagency/model/Flight.java:51-55 | the four known codes have four different names |
| Flights.Flight.StateString | src/com/travelagency/model/Flight.java:50-58 | a flight's state name is "Unknown" exactly when its state is outside 0..3 |
| Flights.Flight.ToString | src/com/travelagency/model/Flight.java:61-64 | the text starts with "Flight ID: " and the id reads back from it; it ends with " (State: <state name>)" |
| Flights.FlightTextReadsBack | src/com/travelagency/model/Flight.java:63 | the id reads back from the flight text, which ends with the state part |
| Bookings.Booking.Default | src/com/travelagency/model/Booking.java:13-14 | all six fields keep their defaults |
| Bookings.Booking.Create | src/com/travelagency/model/Booking.java:17-23 | state, customer, flight and schedule are stored; the number stays 0 and the date null |
| Bookings.Booking.Full | src/com/travelagency/model/Booking.java:27-34 | all six arguments are stored |
| Bookings.Booking.SetBookingNumber | src/com/travelagency/model/Booking.java:37-38 | only this field changes (write frame of one field), and its getter then returns the new value |
| Bookings.Booking.SetState | src/com/travelagency/model/Booking.java:39-40 | only this field changes (write frame of one field), and its getter then returns the new value |
| Bookings.Booking.SetCustomerId | src/com/travelagency/model/Booking.java:41-42 | only this field changes (write frame of one field), and its getter then returns the new value |
| Bookings.Booking.SetFlightId | src/com/travelagency/model/Booking.java:43-44 | only this field changes (write frame of one field), and its getter then returns the new value |
| Bookings.Booking.SetGeneralFlightId | src/com/travelagency/model/Booking.java:45-46 | only this field changes (write frame of one field), and its getter then returns the new value |
| Bookings.Booking.SetBookingDate | src/com/travelagency/model/Booking.java:47-48 | only this field changes (write frame of one field), and its getter then returns the new value |
| Bookings.BookingStateName | src/com/travelagency/model/Booking.java:50-57 | the name is "Unknown" exactly for the codes outside 0..2 |
| Bookings.BookingStateNamesDistinct | src/com/travelagency/model/Booking.java:51-54 | the three known codes have three different names |
| Bookings.Booking.StateString | src/com/travelagency/model/Booking.java:50-57 | a booking's state name is "Unknown" exactly when its state is outside 0..2 |
| Bookings.Booking.ToString | src/com/travelagency/model/Booking.java:60-62 | the text starts with "Booking #: " and the number reads back from it; it ends with " (<state name>)" |
| Bookings.BookingTextReadsBack | src/com/travelagency/model/Booking.java:61 | the number reads back from the booking text, which ends with the state part |
| BookingDetails.BookingDetail.constructor | src/com/travelagency/model/BookingDetail.java:33 | all 24 fields keep their defaults |
| BookingDetails.BookingDetail.SetBookingNumber | src/com/travelagency/model/BookingDetail.java:36-37 | only this field changes (write frame of one field), and its getter then returns the new value |
| BookingDetails.BookingDetail.SetBookingState | src/com/travelagency/model/BookingDetail.java:38-39 | only this field changes (write frame of one field), and its getter then returns the new value |
| BookingDetails.BookingDetail.SetBookingDate | src/com/travelagency/model/BookingDetail.java:40-41 | only this field changes (write frame of one field), and its getter then returns the new value |
| BookingDetails.BookingDetail.SetCustomerId | src/com/travelagency/model/BookingDetail.java:42-43 | only this field changes (write frame of one field), and its getter then returns the new value |
| BookingDetails.BookingDetail.SetCustomerFirstName | src/com/travelagency/model/BookingDetail.java:44-45 | only this field changes (write frame of one field), and its getter then returns the new value |
| BookingDetails.BookingDetail.SetCustomerLastName | src/com/travelagency/model/BookingDetail.java:46-47 | only this field changes (write frame of one field), and its getter then returns the new value |
| BookingDetails.BookingDetail.SetCustomerEmail | src/com/travelagency/model/BookingDetail.java:48-49 | only this field changes (write frame of one field), and its getter then returns the new value |
| BookingDetails.BookingDetail.SetCustomerAddress | src/com/travelagency/model/BookingDetail.java:50-51 | only this field changes (write frame of one field), and its getter then returns the new value |
| BookingDetails.BookingDetail.SetCustomerPhone | src/com/travelagency/model/BookingDetail.java:52-53 | only this field changes (write frame of one field), and its getter then returns the new value |
| BookingDetails.BookingDetail.SetFlightId | src/com/travelagency/model/BookingDetail.java:54-55 | only this field changes (write frame of one field), and its getter then returns the new value |
| BookingDetails.BookingDetail.SetFlightTakeOffDate | src/com/travelagency/model/BookingDetail.java:56-57 | only this field changes (write frame of one field), and its getter then returns the new value |
| BookingDetails.BookingDetail.SetFlightArrivalDate | src/com/travelagency/model/BookingDetail.java:58-59 | only this field changes (write frame of one field), and its getter then returns the new value |
| BookingDetails.BookingDetail.SetFlightState | src/com/travelagency/model/BookingDetail.java:60-61 | only this field changes (write frame of one field), and its getter then returns the new value |
| BookingDetails.BookingDetail.SetGeneralFlightId | src/com/travelagency/model/BookingDetail.java:62-63 | only this field changes (write frame of one field), and its getter then returns the new value |
| BookingDetails.BookingDetail.SetGeneralFlightScheduledDeparture | src/com/travelagency/model/BookingDetail.java:64-65 | only this field changes (write frame of one field), and its getter then returns the new value |
| BookingDetails.BookingDetail.SetGeneralFlightScheduledArrival | src/com/travelagency/model/BookingDetail.java:66-67 | only this field changes (write frame of one field), and its getter then returns the new value |
| BookingDetails.BookingDetail.SetNumberSeats | src/com/travelagency/model/BookingDetail.java:68-69 | only this field changes (write frame of one field), and its getter then returns the new value |
| BookingDetails.BookingDetail.SetSeatsBooked | src/com/travelagency/model/BookingDetail.java:70-71 | only this field changes (write frame of one field), and its getter then returns the new value |
| BookingDetails.BookingDetail.SetDepartureAirport | src/com/travelagency/model/BookingDetail.java:72-73 | only this field changes (write frame of one field), and its getter then returns the new value |
| BookingDetails.BookingDetail.SetDepartureCity | src/com/travelagency/model/BookingDetail.java:74-75 | only this field changes (write frame of one field), and its getter then returns the new value |
| BookingDetails.BookingDetail.SetArrivalAirport | src/com/travelagency/model/BookingDetail.java:76-77 | only this field changes (write frame of one field), and its getter then returns the new value |
| BookingDetails.BookingDetail.SetArrivalCity | src/com/travelagency/model/BookingDetail.java:78-79 | only this field changes (write frame of one field), and its getter then returns the new value |
| BookingDetails.BookingDetail.SetAirlineName | src/com/travelagency/model/BookingDetail.java:80-81 | only this field changes (write frame of one field), and its getter then returns the new value |
| BookingDetails.BookingDetail.SetAircraftName | src/com/travelagency/model/BookingDetail.java:82-83 | only this field changes (write frame of one field), and its getter then returns the new value |
| BookingDetails.BookingStateText | src/com/travelagency/model/BookingDetail.java:86-93 | codes 0..2 are named as Booking names them; any other code shows as "Unknown (<code>)" |
| BookingDetails.FlightStateText | src/com/travelagency/model/BookingDetail.java:95-102 | code 0 is named as Flight names it, code 1 is "On-going", codes 2 and 3 take each other's Flight names; any other code shows as "Unknown (<code>)" |
| BookingDetails.BookingDetail.BookingStateString | src/com/travelagency/model/BookingDetail.java:86-93 | the detail's booking state reads as Booking names it for 0..2, and as "Unknown (<code>)" otherwise |
| BookingDetails.BookingDetail.FlightStateString | src/com/travelagency/model/BookingDetail.java:95-102 | the detail's flight state reads as Flight names code 0, "On-going" for code 1, with Flight's names for 2 and 3 swapped, and as "Unknown (<code>)" outside 0..3 |
| BookingDetails.UnknownTextCarriesCode | src/com/travelagency/model/BookingDetail.java:91 | the text of an unknown code carries it: the code reads back from "Unknown (<code>)" |
| BookingDetails.UnknownTextInjective | src/com/travelagency/model/BookingDetail.java:91 | different unknown codes show differently |
| BookingDetails.UnknownTextIsNoName | src/com/travelagency/model/BookingDetail.java:86-102 | no unknown code shows as the name of a known state |
| BookingDetails.BookingStateTextInjective | src/com/travelagency/model/BookingDetail.java:86-93 | different booking codes always show differently, known or not |
| BookingDetails.FlightStateTextInjective | src/com/travelagency/model/BookingDetail.java:95-102 | different flight codes always show differently, known or not |
| BookingDetails.BookingStateTextAgreesWithBooking | src/com/travelagency/model/BookingDetail.java:86-93 | codes 0..2 are named as Booking names them; other codes differ, since Booking shows them all as plain "Unknown" |
| BookingDetails.FlightStateTextDisagreesWithFlight | src/com/travelagency/model/BookingDetail.java:95-102 | only code 0 is named as Flight names it; code 1 differs and codes 2 and 3 are swapped |
| MainFrame.FlightComboBox.RemoveAllItems | src/com/travelagency/ui/MainAppFrame.java:1332 | the box is emptied |
| MainFrame.FlightComboBox.AddItem | src/com/travelagency/ui/MainAppFrame.java:1351 | the entry is appended at the end |
| MainFrame.IsBookable | src/com/travelagency/ui/MainAppFrame.java:1339-1343 | state 0 or 1, a schedule that is found, and NumberSeats - seatsBooked > 0 in 32-bit arithmetic; its meaning for the filter is stated by the lemmas below |
| MainFrame.BookableFlights | src/com/travelagency/ui/MainAppFrame.java:1337-1354 | the bookable flights of the input, in order; the specification of the loop, with its properties stated by the lemmas below |
| MainFrame.BookableFlightsAppend | src/com/travelagency/ui/MainAppFrame.java:1337-1354 | the filter works piece by piece: filtering a concatenation concatenates the filtered parts, so input order is kept |
| MainFrame.BookableFlightsSingle | src/com/travelagency/ui/MainAppFrame.java:1339-1350 | a single flight is kept exactly when its state is 0 or 1 and its schedule exists with NumberSeats - seatsBooked > 0 |
| MainFrame.BookableFlightsCount | src/com/travelagency/ui/MainAppFrame.java:1337-1354 | a bookable flight is kept as often as it occurs in the input, and a flight that is not bookable never is |
| MainFrame.BookableFlightsMembership | src/com/travelagency/ui/MainAppFrame.java:1337-1354 | a flight is offered iff it is in the input and bookable |
| MainFrame.BookableFlightsEmpty | src/com/travelagency/ui/MainAppFrame.java:1356 | nothing is offered exactly when no flight is bookable |
| MainFrame.NewPlaceholderFlight | src/com/travelagency/ui/MainAppFrame.java:1335 | a fresh Flight with default fields and id -1 |
| MainFrame.FlightsBeforeNullDate | src/com/travelagency/ui/MainAppFrame.java:1337-1349 | the position of the first bookable flight without a take-off date, or the length of the input; never beyond the input |
| MainFrame.FlightsBeforeNullDateAt | src/com/travelagency/ui/MainAppFrame.java:1337-1349 | up to that position, a flight is bookable and undated exactly at that position |
| MainFrame.FlightsBeforeNullDateIsFirst | src/com/travelagency/ui/MainAppFrame.java:1337-1349 | every flight before the position can be shown, and the flight at it cannot |
| MainFrame.FlightsBeforeNullDateAll | src/com/travelagency/ui/MainAppFrame.java:1337-1349 | the position is the end of the input exactly when every bookable flight has a take-off date |
| MainFrame.PopulateOperationalFlightComboBox | src/com/travelagency/ui/MainAppFrame.java:1329-1363 | a failed load leaves the box as it was; it aborts exactly when some bookable flight has no take-off date, and then lists exactly the bookable flights before the first such one; otherwise the box lists exactly the bookable flights in order, or, when there are none, exactly one fresh placeholder with id -1: "no operational flights" for an empty input, "no bookable flights" for a non-empty one |
| MainFrame.AddBookableFlights | src/com/travelagency/ui/MainAppFrame.java:1337-1355 | the loop lists exactly the bookable flights before the first undated bookable one, in order, aborts exactly when there is such a flight, and its flag says whether any was added |
| MainFrame.CityComboBox.RemoveAllItems | src/com/travelagency/ui/MainAppFrame.java:1253 | the box is emptied |
| MainFrame.CityComboBox.AddItem | src/com/travelagency/ui/MainAppFrame.java:1255 | the city is appended at the end |
| MainFrame.PopulateCityComboBox | src/com/travelagency/ui/MainAppFrame.java:1250-1257 | a failed load leaves the box as it was; otherwise the box lists every city in order, or exactly one fresh placeholder city with id -1 when there are none |
| MainFrame.DecodeStateLabel | src/com/travelagency/ui/MainAppFrame.java:467 | a label without a space has no state |
| MainFrame.DecodeStateLabelOfPrinted | src/com/travelagency/ui/MainAppFrame.java:467 | a label "<n> - <name>" decodes to n, whatever the name |
| MainFrame.FlightStateLabelsDecode | src/com/travelagency/ui/MainAppFrame.java:412 | each flight state label is "<k> - " followed by Flight's name for state k, and decodes to k |
| MainFrame.BookingStateLabelsDecode | src/com/travelagency/ui/MainAppFrame.java:1016 | each booking state label is "<k> - " followed by Booking's name for state k, and decodes to k |
| MainFrame.NewBookingStateLabelsArePrefix | src/com/travelagency/ui/MainAppFrame.java:493 | a new booking is offered only the pending and confirmed labels, the first two of the full list |
| MainFrame.SeatCount | src/com/travelagency/ui/MainAppFrame.java:380-385 | a seat count, when there is one, is positive and is the trimmed text parsed as an int |
| MainFrame.SeatCountOfPrinted | src/com/travelagency/ui/MainAppFrame.java:380-385 | a number printed by Integer.toString is accepted as the seat count exactly when it is positive |
| MainFrame.CheckGeneralFlightForm | src/com/travelagency/ui/MainAppFrame.java:369-386 | refused as missing exactly when a value is missing, the seat text is blank or a selection is the -1 placeholder; accepted exactly when complete, the two airports differ, takeoff is strictly before arrival and the seats are a positive int; otherwise refused for equal airports first, then for an arrival not after takeoff, then for the seats; an accepted draft carries the form's values |
| MainFrame.NewGeneralFlight | src/com/travelagency/ui/MainAppFrame.java:388 | the schedule is built with the form's values, nothing booked and id 0 |
| MainFrame.CheckFlightForm | src/com/travelagency/ui/MainAppFrame.java:455-467 | refused as missing exactly when the schedule is absent or the placeholder, or a date or the state is missing; accepted exactly when also takeoff <= arrival (the same date is allowed) and the label decodes; otherwise refused for an arrival before takeoff, then for an unreadable label; the aircraft is dropped for the -1 placeholder |
| MainFrame.NewFlight | src/com/travelagency/ui/MainAppFrame.java:469 | the flight is built with the form's values and id 0 |
| MainFrame.CheckBookingForm | src/com/travelagency/ui/MainAppFrame.java:528-539 | refused as missing exactly when no customer is chosen, the customer id is "-1", no flight is chosen, the flight id is -1 or no state is chosen; accepted exactly when none of these holds and the state label decodes; an accepted draft carries the customer id and the flight's FlightID and GeneralFlightID |
| MainFrame.BookingFormRefusesPlaceholder | src/com/travelagency/ui/MainAppFrame.java:530 | no placeholder entry of the operational-flight box can be booked |
| MainFrame.NewBooking | src/com/travelagency/ui/MainAppFrame.java:540-543 | the booking carries the draft's state, customer, flight and schedule, number 0 and the given time as its date |
| MainFrame.CheckCitySearch | src/com/travelagency/ui/MainAppFrame.java:607-613 | accepted exactly when each city field has a non-blank character; the query holds the trimmed names |
| MainFrame.CheckPeriodSearch | src/com/travelagency/ui/MainAppFrame.java:702-713 | refused as missing exactly when the city is blank or a date is missing; accepted exactly when also start <= end (the same date is allowed); refused for an end before the start exactly when everything is given and end < start |
| MainFrame.CheckFlightUpdate | src/com/travelagency/ui/MainAppFrame.java:1205-1224 | refused for nothing loaded exactly when no flight is loaded; refused as missing exactly when a loaded flight lacks a date or a state; then refused for an arrival before takeoff, then for an unreadable label; accepted exactly when both dates and a state are given, takeoff <= arrival and the label decodes |
| MainFrame.ApplyFlightUpdate | src/com/travelagency/ui/MainAppFrame.java:1227-1229 | the loaded flight takes the new dates and state; nothing else changes |
| MainFrame.CheckBookingStateUpdate | src/com/travelagency/ui/MainAppFrame.java:1094-1101 | refused for nothing loaded exactly when no booking is loaded; accepted exactly when the label decodes, with its state; a loaded booking with no selection or an undecodable label is the unreadable-label refusal |
| MainFrame.CheckNameForm | src/com/travelagency/ui/MainAppFrame.java:171-175 | accepted exactly when the name has a character that trim keeps; the accepted name is the trimmed text; a refusal is "missing input" (the same check guards airlines at 236-237, aircraft at 260-261 and the airlines-in-city search at 962-966) |
| MainFrame.NameFormIdempotent | src/com/travelagency/ui/MainAppFrame.java:171-175 | an accepted name is accepted again unchanged |
| MainFrame.CheckAirportForm | src/com/travelagency/ui/MainAppFrame.java:209-214 | refused as missing exactly when the trimmed name is empty; otherwise refused for the city exactly when none is selected or it is the -1 placeholder; accepted exactly when the trimmed name is non-empty and a city other than the placeholder is selected; an accepted draft holds the trimmed name and the city's id |
| MainFrame.AirportFormRefusesPlaceholderCity | src/com/travelagency/ui/MainAppFrame.java:212 | the placeholder shown for an empty city list can never be chosen |
| MainFrame.CheckCustomerForm | src/com/travelagency/ui/MainAppFrame.java:300-306 | accepted exactly when id, first name, last name and email are non-empty once trimmed; the accepted customer has every field trimmed |
| MainFrame.CustomerFormOptionalFields | src/com/travelagency/ui/MainAppFrame.java:303 | the address and phone never decide whether a customer is accepted |
| MainFrame.CustomerFormIdempotent | src/com/travelagency/ui/MainAppFrame.java:300-306 | an accepted customer is accepted again unchanged |
| MainFrame.CheckBookingNumber | src/com/travelagency/ui/MainAppFrame.java:806-817 | refused as missing exactly when the trimmed text is empty; accepted exactly when the trimmed text parses as an int, with that number; any other text is refused as not a number |
| MainFrame.BookingNumberOfPrinted | src/com/travelagency/ui/MainAppFrame.java:1021-1033 | a number printed by Integer.toString is looked up as that number |
| MainFrame.IsNoAvailableSeats | src/com/travelagency/ui/MainAppFrame.java:562-563 | code 1644 and a message whose lower-cased text contains "no available seats"; its meaning is stated by the two lemmas below |
| MainFrame.NoAvailableSeatsIff | src/com/travelagency/ui/MainAppFrame.java:562-563 | an error is the seat error iff its code is 1644, it has a message and the lower-cased message contains "no available seats" at some offset |
| MainFrame.NoAvailableSeatsAnywhere | src/com/travelagency/ui/MainAppFrame.java:562-563 | text around the notice in the message does not stop the seat error being recognised |
| MainFrame.CustomerWriteReport | src/com/travelagency/ui/MainAppFrame.java:307-317 | success iff a row was written, "not changed" iff none was, the duplicate-entry report iff the storage error has code 1062; any other error is the generic failure |
| MainFrame.BookingWriteReport | src/com/travelagency/ui/MainAppFrame.java:545-568 | success iff a row was written, "not changed" iff none was, a seat error (with its message) iff the storage error is the seat error; the generic failure iff the storage error is any other |
| MainFrame.AddBookingRefreshesFlights | src/com/travelagency/ui/MainAppFrame.java:545-571 | after adding a booking the flight list is reloaded unless no row was written |
| MainFrame.FlightUpdateReport | src/com/travelagency/ui/MainAppFrame.java:1231-1243 | every storage error is a generic failure; the flight list is reloaded only on success |
| MainFrame.DisplayName | src/com/travelagency/ui/MainAppFrame.java:632-647 | the name cell of an id: the looked-up name when the lookup returns a record, else the fallback prefix with the id |
| MainFrame.DisplayNameShows | src/com/travelagency/ui/MainAppFrame.java:632-647 | a found id shows its looked-up name; a missing one shows a text that starts with the prefix and is followed by the id, which parses back |
| MainFrame.ScheduleRowOf | src/com/travelagency/ui/MainAppFrame.java:632-658 | the row of one schedule, with each name cell from DisplayName; its content is stated by ScheduleRowShows |
| MainFrame.ScheduleRowShows | src/com/travelagency/ui/MainAppFrame.java:632-658 | a row shows the schedule id, each name looked up or else the id after its prefix, the times and day, and NumberSeats - seatsBooked as the free seats |
| MainFrame.ScheduleTable.SetRowCount0 | src/com/travelagency/ui/MainAppFrame.java:615 | the table is emptied |
| MainFrame.ScheduleTable.AddRow | src/com/travelagency/ui/MainAppFrame.java:650 | the row is appended at the end |
| MainFrame.RowsOf | src/com/travelagency/ui/MainAppFrame.java:627-659 | one row per schedule |
| MainFrame.RowsOfAt | src/com/travelagency/ui/MainAppFrame.java:627-659 | row k is the row of schedule k |
| MainFrame.SchedulesBeforeNullTime | src/com/travelagency/ui/MainAppFrame.java:627-657 | the position of the first schedule with no takeoff time, arrival time or day, or the length of the input; never beyond it |
| MainFrame.SchedulesBeforeNullTimeAt | src/com/travelagency/ui/MainAppFrame.java:627-657 | up to that position, a schedule lacks a time or day exactly at that position |
| MainFrame.SchedulesBeforeNullTimeIsFirst | src/com/travelagency/ui/MainAppFrame.java:627-657 | every schedule before the position can be shown, and the one at it cannot |
| MainFrame.SearchSchedulesByCities | src/com/travelagency/ui/MainAppFrame.java:606-663 | the form result is that of CheckCitySearch; a refused form leaves the table unchanged; otherwise it is cleared, and when the search succeeds it holds exactly one row per schedule, in order, up to the first schedule with a missing time or day, where it aborts; it aborts exactly when there is such a schedule |
| MainFrame.ShowSchedules | src/com/travelagency/ui/MainAppFrame.java:615-659 | the table is cleared and then holds the rows of the schedules before the first one with a missing time or day; it aborts exactly when there is one |
| MainFrame.AddScheduleRows | src/com/travelagency/ui/MainAppFrame.java:627-659 | the loop appends exactly one row per schedule, in order, up to the first schedule with a missing time or day, and aborts exactly when there is one |

## Left out

- The DAO classes, the JDBC statements and the MySQL schema. Their results are inputs to the model.
- The seat-count trigger and the booking-details stored procedure are not part of this model, because they are not in the repository. Storage errors are opaque `(code, message)` inputs.
- `DatabaseConnection`, `MainApplication`, all Swing layout, dialogs, log output and event-thread dispatch. This is I/O and UI plumbing.
- `parseSqlDate` / `parseSqlTime`. `SimpleDateFormat`'s acceptance rules are library behaviour; each parse result is an `Option` input.
- The `String.format` display texts of the combo-box entries, and the date and time formatting of table cells. This is library formatting.
  - `FlightEntry.Listed` does not hold the entry's text.
  - A schedule row holds the raw time and date values.
- How `java.sql.Date` prints inside `Flight.toString`. It is the parameter `renderDate` of the model's `ToString`.
- `System.currentTimeMillis` for a new booking's date. It is nondeterministic and becomes the parameter `now`.
- Getters. In the model they are field reads, and each setter's ensures and write frame say what the getter returns afterwards.
- The airport lookups that `populateOperationalFlightComboBox` makes for its display text. Their exceptions are ignored and they only affect the text.
- `populateAirportComboBox`, `populateAirlineComboBox`, `populateAircraftComboBox`, `populateCustomerComboBox` and `populateGeneralFlightComboBox`. They follow the pattern of `PopulateCityComboBox` over record classes that are not part of this core (Airport, Airline, Aircraft, Customer), and the last one only builds display text.
- The row building of the period search (MainAppFrame.java:715-779) and of the other search panels. Only the period search's input check, `CheckPeriodSearch`, is modelled. Those rows use the same best-effort lookups as `AddScheduleRows`.
- The unreachable last branch of `populateOperationalFlightComboBox`, which adds "-- No Operational Flights --" again for an empty list. It cannot be taken inside the non-empty branch, so the model has no code for it.
- A `null` flight inside a selected combo-box entry. Every entry is built with a flight, so a selected entry's flight is `None` only when nothing is selected.
- The `NumberFormatException` or `StringIndexOutOfBoundsException` that ends a handler whose state label does not decode, and the `NullPointerException` when the booking-state update runs with nothing selected in the state box (MainAppFrame.java:1100-1101). Each is the `UnreadableStateLabel` rejection; the window's fixed labels always decode, as the label lemmas show.
- `ParseInt` and `ToLower` are ASCII only. This is a simplification, and it makes the model differ from the code on some inputs:
  - `Integer.parseInt` also accepts non-ASCII decimal digits, so a seat count or booking number such as "١٢" is 12 in the code but refused by the model;
  - `toLowerCase()` follows the default locale. Under a Turkish locale "NO AVAILABLE SEATS" lowers with a dotless ı, so the code misses a seat error that the model recognises;
  - supplementary characters are single `char`s in the model, not surrogate pairs.
- What the two booking-number panels do with an accepted number: the DAO lookup, and the text they show for the booking or booking details. This is storage and display.
- The dialog texts of the add forms and the lists cleared after a successful add. This is UI plumbing; each check's outcome is an `InputError` or a `Report`.
