/**
  The decision rules of the travel agency's main window: which operational
  flights are offered for booking, how each form is checked before anything
  is stored, how a state is read back from its combo-box label, how a storage
  error is told apart as "no available seats", and how a schedule row falls
  back to ids when a name cannot be looked up.

  The database is replaced by inputs: a query that may fail is an `Option`
  (`None` is the `SQLException`), a lookup by id is a map (an id that is
  absent is a lookup that returned `null` or failed, both of which the window
  treats alike), and a parsed date or time is an `Option` of its milliseconds.
 */
module MainFrame {
  import opened JavaLang
  import opened GeneralFlights
  import opened Flights
  import opened Bookings
  import opened Cities

  // ---------------------------------------------------------------------------
  // Bookable flights

  /** An entry of the operational-flight combo box: a flight and what the box shows for it. */
  datatype FlightEntry =
    | Listed(flight: Flight)                   // a bookable flight, shown with its details
    | Placeholder(flight: Flight, text: string)  // a stand-in whose flight has id -1

  const NoOperationalFlights: string := "-- No Operational Flights --"
  const NoBookableFlights: string := "-- No Bookable Flights Available --"

  /** The entries of a combo box, in display order. */
  class FlightComboBox {
    var items: seq<FlightEntry>

    constructor ()
      ensures items == []
    {
      items := [];
    }

    method RemoveAllItems()
      modifies this`items
      ensures items == []
    {
      items := [];
    }

    method AddItem(e: FlightEntry)
      modifies this`items
      ensures items == old(items) + [e]
    {
      items := items + [e];
    }
  }

  /**
    A flight can be booked when it is scheduled (0) or in progress (1) and its
    schedule exists and still has seats left, the difference being taken in
    Java's `int` arithmetic.
   */
  predicate IsBookable(f: Flight, schedules: map<int32, GeneralFlight>)
    reads f, schedules.Values
  {
    (f.state == 0 || f.state == 1)
    && f.generalFlightId in schedules
    && Sub32(schedules[f.generalFlightId].numberSeats, schedules[f.generalFlightId].seatsBooked) > 0
  }

  /** The bookable flights of `flights`, in their order. */
  function BookableFlights(flights: seq<Flight>, schedules: map<int32, GeneralFlight>): seq<Flight>
    reads flights, schedules.Values
  {
    if flights == [] then []
    else
      var last := flights[|flights| - 1];
      var kept := BookableFlights(flights[..|flights| - 1], schedules);
      if IsBookable(last, schedules) then kept + [last] else kept
  }

  /** The filter works piece by piece: filtering a concatenation concatenates the filtered parts. */
  lemma {:induction false} BookableFlightsAppend(a: seq<Flight>, b: seq<Flight>, schedules: map<int32, GeneralFlight>)
    ensures BookableFlights(a + b, schedules) == BookableFlights(a, schedules) + BookableFlights(b, schedules)
  {
    if b == [] {
      assert a + b == a;
    } else {
      var b' := b[..|b| - 1];
      assert (a + b)[..|a + b| - 1] == a + b';
      assert (a + b)[|a + b| - 1] == b[|b| - 1];
      BookableFlightsAppend(a, b', schedules);
    }
  }

  /** A single flight is kept exactly when it is bookable. */
  lemma BookableFlightsSingle(f: Flight, schedules: map<int32, GeneralFlight>)
    ensures BookableFlights([f], schedules) == if IsBookable(f, schedules) then [f] else []
  {
    assert [f][..0] == [];
  }

  /**
    Each flight is kept as many times as it occurs in the input when it is
    bookable, and never otherwise.
   */
  lemma {:induction false} BookableFlightsCount(flights: seq<Flight>, schedules: map<int32, GeneralFlight>, f: Flight)
    ensures multiset(BookableFlights(flights, schedules))[f]
      == if IsBookable(f, schedules) then multiset(flights)[f] else 0
  {
    if flights != [] {
      var init := flights[..|flights| - 1];
      assert flights == init + [flights[|flights| - 1]];
      BookableFlightsCount(init, schedules, f);
    }
  }

  /** A flight is offered iff it is one of the flights and it is bookable. */
  lemma BookableFlightsMembership(flights: seq<Flight>, schedules: map<int32, GeneralFlight>, f: Flight)
    ensures f in BookableFlights(flights, schedules) <==> f in flights && IsBookable(f, schedules)
  {
    BookableFlightsCount(flights, schedules, f);
  }

  /** Nothing is offered iff no flight is bookable. */
  lemma BookableFlightsEmpty(flights: seq<Flight>, schedules: map<int32, GeneralFlight>)
    ensures BookableFlights(flights, schedules) == [] <==> forall k :: 0 <= k < |flights| ==> !IsBookable(flights[k], schedules)
  {
    var r := BookableFlights(flights, schedules);
    if r != [] {
      BookableFlightsMembership(flights, schedules, r[0]);
    }
    forall k | 0 <= k < |flights| && IsBookable(flights[k], schedules)
      ensures r != []
    {
      BookableFlightsMembership(flights, schedules, flights[k]);
    }
  }

  /** The flight of every entry listed for booking. */
  predicate ListsExactly(items: seq<FlightEntry>, flights: seq<Flight>) {
    |items| == |flights| && forall k :: 0 <= k < |items| ==> items[k] == Listed(flights[k])
  }

  /** A fresh placeholder flight: Java's defaults with the id set to -1. */
  method NewPlaceholderFlight() returns (f: Flight)
    ensures fresh(f)
    ensures f.flightId == -1 && f.state == 0 && f.takeOffDate == None && f.arrivalDate == None
    ensures f.generalFlightId == 0 && f.aircraftId == None
  {
    f := new Flight.Default();
    f.SetFlightId(-1);
  }

  /**
    A bookable flight without a takeoff date: formatting its entry text
    (`dateFormat.format(null)`) throws, and the exception, which is not an
    `SQLException`, ends the filling of the box.
   */
  predicate CannotShow(f: Flight, schedules: map<int32, GeneralFlight>)
    reads f, schedules.Values
  {
    IsBookable(f, schedules) && f.takeOffDate.None?
  }

  /** How many flights are handled before the first one that cannot be shown. */
  function FlightsBeforeNullDate(fs: seq<Flight>, schedules: map<int32, GeneralFlight>): (k: nat)
    reads fs, schedules.Values
    ensures k <= |fs|
  {
    if fs == [] then 0
    else if CannotShow(fs[0], schedules) then 0
    else 1 + FlightsBeforeNullDate(fs[1..], schedules)
  }

  /** Up to the stopping point, a flight cannot be shown exactly when it is the one there. */
  lemma {:induction false} FlightsBeforeNullDateAt(fs: seq<Flight>, schedules: map<int32, GeneralFlight>, i: nat)
    requires i < |fs| && i <= FlightsBeforeNullDate(fs, schedules)
    ensures CannotShow(fs[i], schedules) <==> i == FlightsBeforeNullDate(fs, schedules)
  {
    if i > 0 {
      assert fs[1..][i - 1] == fs[i];
      FlightsBeforeNullDateAt(fs[1..], schedules, i - 1);
    }
  }

  /** The box stops at the first flight that cannot be shown, and only there. */
  lemma FlightsBeforeNullDateIsFirst(fs: seq<Flight>, schedules: map<int32, GeneralFlight>)
    ensures var k := FlightsBeforeNullDate(fs, schedules);
      && (forall j :: 0 <= j < k ==> !CannotShow(fs[j], schedules))
      && (k < |fs| ==> CannotShow(fs[k], schedules))
  {
    var k := FlightsBeforeNullDate(fs, schedules);
    forall j | 0 <= j < k
      ensures !CannotShow(fs[j], schedules)
    {
      FlightsBeforeNullDateAt(fs, schedules, j);
    }
    if k < |fs| {
      FlightsBeforeNullDateAt(fs, schedules, k);
    }
  }

  /** The box is filled to the end exactly when every bookable flight has a takeoff date. */
  lemma FlightsBeforeNullDateAll(fs: seq<Flight>, schedules: map<int32, GeneralFlight>)
    ensures FlightsBeforeNullDate(fs, schedules) == |fs| <==>
      forall j :: 0 <= j < |fs| && IsBookable(fs[j], schedules) ==> fs[j].takeOffDate.Some?
  {
    FlightsBeforeNullDateIsFirst(fs, schedules);
  }

  /**
    `populateOperationalFlightComboBox`: refill `box` with the bookable
    flights.  `flights` is the result of loading every flight (`None` when
    loading fails, in which case the box is left as it was).  A placeholder
    with id -1 takes the place of an empty list: "no operational flights"
    when there are no flights at all, "no bookable flights" when there are
    some but none can be booked.  A bookable flight without a takeoff date
    aborts the method (`aborted`): the box keeps the flights listed before
    it and gets no placeholder.
   */
  method PopulateOperationalFlightComboBox(box: FlightComboBox, flights: Option<seq<Flight>>,
                                           schedules: map<int32, GeneralFlight>)
    returns (aborted: bool)
    modifies box`items
    ensures flights.None? ==> box.items == old(box.items) && !aborted
    ensures flights.Some? ==> (aborted <==> old(FlightsBeforeNullDate(flights.value, schedules)) < |flights.value|)
    ensures flights.Some? && aborted ==>
      ListsExactly(box.items, old(BookableFlights(flights.value[..FlightsBeforeNullDate(flights.value, schedules)], schedules)))
    ensures flights.Some? && !aborted && old(BookableFlights(flights.value, schedules)) != [] ==>
      ListsExactly(box.items, old(BookableFlights(flights.value, schedules)))
    ensures flights.Some? && !aborted && old(BookableFlights(flights.value, schedules)) == [] ==>
      |box.items| == 1 && box.items[0].Placeholder? && fresh(box.items[0].flight)
      && box.items[0].flight.flightId == -1
      && box.items[0].text == (if flights.value == [] then NoOperationalFlights else NoBookableFlights)
  {
    aborted := false;
    if flights.None? {
      return;
    }
    var fs := flights.value;
    box.RemoveAllItems();
    if |fs| == 0 {
      var p := NewPlaceholderFlight();
      box.AddItem(Placeholder(p, NoOperationalFlights));
    } else {
      var addedBookable;
      addedBookable, aborted := AddBookableFlights(box, fs, schedules);
      if aborted {
        return;
      }
      assert fs[..|fs|] == fs;
      if !addedBookable && |fs| != 0 {
        var p := NewPlaceholderFlight();
        box.AddItem(Placeholder(p, NoBookableFlights));
      }
    }
  }

  /**
    The loop of `populateOperationalFlightComboBox`: each flight that can be
    booked is added to the emptied box, in order, until one cannot be shown;
    the results say whether any was added and whether the loop was cut short.
   */
  method AddBookableFlights(box: FlightComboBox, fs: seq<Flight>, schedules: map<int32, GeneralFlight>)
    returns (addedBookable: bool, aborted: bool)
    requires box.items == []
    modifies box`items
    ensures aborted <==> old(FlightsBeforeNullDate(fs, schedules)) < |fs|
    ensures ListsExactly(box.items, old(BookableFlights(fs[..FlightsBeforeNullDate(fs, schedules)], schedules)))
    ensures addedBookable <==> old(BookableFlights(fs[..FlightsBeforeNullDate(fs, schedules)], schedules)) != []
  {
    addedBookable, aborted := false, false;
    ghost var n := FlightsBeforeNullDate(fs, schedules);
    FlightsBeforeNullDateIsFirst(fs, schedules);
    var i := 0;
    while i < |fs|
      invariant 0 <= i <= n
      invariant ListsExactly(box.items, old(BookableFlights(fs[..i], schedules)))
      invariant addedBookable <==> old(BookableFlights(fs[..i], schedules)) != []
    {
      var f := fs[i];
      assert fs[..i + 1][..i] == fs[..i];
      if f.state == 0 || f.state == 1 {
        var gf: Option<GeneralFlight> := if f.generalFlightId in schedules then Some(schedules[f.generalFlightId]) else None;
        if gf.Some? && Sub32(gf.value.numberSeats, gf.value.seatsBooked) > 0 {
          if f.takeOffDate.None? {
            aborted := true;
            return;
          }
          box.AddItem(Listed(f));
          addedBookable := true;
        }
      }
      i := i + 1;
    }
  }


  /** The entries of a city combo box, in display order. */
  class CityComboBox {
    var items: seq<City>

    constructor ()
      ensures items == []
    {
      items := [];
    }

    method RemoveAllItems()
      modifies this`items
      ensures items == []
    {
      items := [];
    }

    method AddItem(c: City)
      modifies this`items
      ensures items == old(items) + [c]
    {
      items := items + [c];
    }
  }

  const NoCities: string := "-- No Cities --"

  /**
    `populateCityComboBox`: refill `box` with every city, in order, or with a
    fresh placeholder city of id -1 when there are none.  `cities` is `None`
    when loading them fails, and the box is then left as it was.
   */
  method PopulateCityComboBox(box: CityComboBox, cities: Option<seq<City>>)
    modifies box`items
    ensures cities.None? ==> box.items == old(box.items)
    ensures cities.Some? && cities.value != [] ==> box.items == cities.value
    ensures cities.Some? && cities.value == [] ==>
      |box.items| == 1 && fresh(box.items[0])
      && box.items[0].cityId == -1 && box.items[0].cityName == Some(NoCities)
  {
    if cities.None? {
      return;
    }
    var cs := cities.value;
    box.RemoveAllItems();
    if |cs| == 0 {
      var placeholder := new City.Create(-1, Some(NoCities));
      box.AddItem(placeholder);
    } else {
      var i := 0;
      while i < |cs|
        invariant 0 <= i <= |cs|
        invariant box.items == cs[..i]
      {
        box.AddItem(cs[i]);
        assert cs[..i + 1] == cs[..i] + [cs[i]];
        i := i + 1;
      }
      assert cs[..|cs|] == cs;
    }
  }

  // ---------------------------------------------------------------------------
  // State labels

  /** The state labels offered when a flight is created or updated. */
  const FlightStateLabels: seq<string> := ["0 - Scheduled", "1 - In Progress", "2 - Completed", "3 - Cancelled"]

  /** The state labels offered when a booking is created. */
  const NewBookingStateLabels: seq<string> := ["0 - Pending", "1 - Confirmed"]

  /** The state labels offered when a booking's state is changed. */
  const BookingStateLabels: seq<string> := ["0 - Pending", "1 - Confirmed", "2 - Cancelled"]

  /**
    The state a label stands for: the number in front of the first space.
    `None` when the label has no space or that prefix is not a number, where
    the window's handler ends with an uncaught exception.
   */
  function DecodeStateLabel(text: string): (r: Option<int32>)
    ensures ' ' !in text ==> r == None
  {
    ReadIntBefore(text, ' ')
  }

  /** The label of state `n` called `name`: `"<n> - <name>"`. */
  function StateLabel(n: int32, name: string): string {
    IntToString(n) + (" - " + name)
  }

  /** A label written as `"<n> - <name>"` decodes to `n`, whatever the name. */
  lemma DecodeStateLabelOfPrinted(n: int32, name: string)
    ensures DecodeStateLabel(StateLabel(n, name)) == Some(n)
  {
    ReadIntBeforePrinted(n, ' ', " - " + name);
  }

  /** Each flight state label decodes to its position, and names that state as `Flight` does. */
  lemma FlightStateLabelsDecode()
    ensures forall k :: 0 <= k < |FlightStateLabels| ==>
      FlightStateLabels[k] == StateLabel(k, FlightStateName(k)) && DecodeStateLabel(FlightStateLabels[k]) == Some(k)
  {
    forall k | 0 <= k < |FlightStateLabels|
      ensures FlightStateLabels[k] == StateLabel(k, FlightStateName(k)) && DecodeStateLabel(FlightStateLabels[k]) == Some(k)
    {
      if k == 0 {
        FlightStateLabel0();
      } else if k == 1 {
        FlightStateLabel1();
      } else if k == 2 {
        FlightStateLabel2();
      } else {
        FlightStateLabel3();
      }
      DecodeStateLabelOfPrinted(k, FlightStateName(k));
    }
  }

  /** Each booking state label decodes to its position, and names that state as `Booking` does. */
  lemma BookingStateLabelsDecode()
    ensures forall k :: 0 <= k < |BookingStateLabels| ==>
      BookingStateLabels[k] == StateLabel(k, BookingStateName(k)) && DecodeStateLabel(BookingStateLabels[k]) == Some(k)
  {
    forall k | 0 <= k < |BookingStateLabels|
      ensures BookingStateLabels[k] == StateLabel(k, BookingStateName(k)) && DecodeStateLabel(BookingStateLabels[k]) == Some(k)
    {
      if k == 0 {
        BookingStateLabel0();
      } else if k == 1 {
        BookingStateLabel1();
      } else {
        BookingStateLabel2();
      }
      DecodeStateLabelOfPrinted(k, BookingStateName(k));
    }
  }

  /** A new booking is offered the first two states, pending and confirmed. */
  lemma NewBookingStateLabelsArePrefix()
    ensures NewBookingStateLabels == BookingStateLabels[..2]
  {
    assert BookingStateLabels[..2] == [BookingStateLabels[0], BookingStateLabels[1]];
  }

  lemma FlightStateLabel0()
    ensures FlightStateLabels[0] == StateLabel(0, FlightStateName(0))
  {
    assert IntToString(0) == "0";
  }

  lemma FlightStateLabel1()
    ensures FlightStateLabels[1] == StateLabel(1, FlightStateName(1))
  {
    assert IntToString(1) == "1";
  }

  lemma FlightStateLabel2()
    ensures FlightStateLabels[2] == StateLabel(2, FlightStateName(2))
  {
    assert IntToString(2) == "2";
  }

  lemma FlightStateLabel3()
    ensures FlightStateLabels[3] == StateLabel(3, FlightStateName(3))
  {
    assert IntToString(3) == "3";
  }

  lemma BookingStateLabel0()
    ensures BookingStateLabels[0] == StateLabel(0, BookingStateName(0))
  {
    assert IntToString(0) == "0";
  }

  lemma BookingStateLabel1()
    ensures BookingStateLabels[1] == StateLabel(1, BookingStateName(1))
  {
    assert IntToString(1) == "1";
  }

  lemma BookingStateLabel2()
    ensures BookingStateLabels[2] == StateLabel(2, BookingStateName(2))
  {
    assert IntToString(2) == "2";
  }

  // ---------------------------------------------------------------------------
  // Form checks

  /** Why a form is refused; each is one error dialog of the window. */
  datatype InputError =
    | MissingInput             // a required value is empty, unparsable or a placeholder
    | SameAirports
    | ArrivalNotAfterTakeoff
    | SeatsNotPositive
    | ArrivalBeforeTakeoff
    | EndBeforeStart
    | NothingLoaded            // no booking or flight has been loaded for update
    | UnreadableStateLabel     // the state label does not decode (an uncaught exception)
    | NoValidCity              // no city, or the placeholder city, is selected for a new airport
    | NotANumber               // a booking number that is not an `int`

  datatype FormResult<T> = Accepted(value: T) | Rejected(error: InputError)

  /**
    The inputs of the general-flight form: the parsed day and times, the ids
    of the selected airports and airline (`None` when nothing is selected,
    -1 for the placeholder entry) and the seat field's raw text.
   */
  datatype GeneralFlightForm = GeneralFlightForm(
    day: Option<Date>, takeoff: Option<Time>, arrival: Option<Time>,
    depAirport: Option<int32>, arrAirport: Option<int32>, airline: Option<int32>,
    seatsText: string)

  datatype GeneralFlightDraft = GeneralFlightDraft(
    day: Date, takeoff: Time, arrival: Time,
    depAirport: int32, arrAirport: int32, airline: int32, seats: int32)

  /** Every value is given, no selection is a placeholder, and the trimmed seat text is not empty. */
  predicate GeneralFlightFormComplete(f: GeneralFlightForm) {
    f.day.Some? && f.takeoff.Some? && f.arrival.Some?
    && f.depAirport.Some? && f.arrAirport.Some? && f.airline.Some?
    && Trim(f.seatsText) != []
    && f.depAirport.value != -1 && f.arrAirport.value != -1 && f.airline.value != -1
  }

  /** The number of seats written in `text`, when it is a positive `int`. */
  function SeatCount(text: string): (r: Option<int32>)
    ensures r.Some? ==> r.value > 0 && ParseInt(Trim(text)) == r
  {
    var n := ParseInt(Trim(text));
    if n.Some? && n.value > 0 then n else None
  }

  /** The checks made before a flight schedule is created, in the window's order. */
  function CheckGeneralFlightForm(f: GeneralFlightForm): (r: FormResult<GeneralFlightDraft>)
    ensures r == Rejected(MissingInput) <==> !GeneralFlightFormComplete(f)
    ensures r.Accepted? <==>
      GeneralFlightFormComplete(f) && f.depAirport != f.arrAirport
      && f.takeoff.value < f.arrival.value && SeatCount(f.seatsText).Some?
    ensures r == Rejected(SameAirports) <==> GeneralFlightFormComplete(f) && f.depAirport == f.arrAirport
    ensures r == Rejected(ArrivalNotAfterTakeoff) <==>
      GeneralFlightFormComplete(f) && f.depAirport != f.arrAirport && f.arrival.value <= f.takeoff.value
    ensures r == Rejected(SeatsNotPositive) <==>
      GeneralFlightFormComplete(f) && f.depAirport != f.arrAirport
      && f.takeoff.value < f.arrival.value && SeatCount(f.seatsText).None?
    ensures r.Accepted? ==>
      r.value == GeneralFlightDraft(f.day.value, f.takeoff.value, f.arrival.value,
        f.depAirport.value, f.arrAirport.value, f.airline.value, SeatCount(f.seatsText).value)
  {
    if !GeneralFlightFormComplete(f) then Rejected(MissingInput)
    else if f.depAirport.value == f.arrAirport.value then Rejected(SameAirports)
    else if f.arrival.value < f.takeoff.value || f.arrival.value == f.takeoff.value then Rejected(ArrivalNotAfterTakeoff)
    else
      match SeatCount(f.seatsText)
      case None => Rejected(SeatsNotPositive)
      case Some(n) =>
        Accepted(GeneralFlightDraft(f.day.value, f.takeoff.value, f.arrival.value,
          f.depAirport.value, f.arrAirport.value, f.airline.value, n))
  }

  /** A seat count written by `Integer.toString` is read back, whenever it is positive. */
  lemma SeatCountOfPrinted(n: int32)
    ensures SeatCount(IntToString(n)) == if n > 0 then Some(n) else None
  {
    var s := IntToString(n);
    assert !IsTrimmed(s[0]) && !IsTrimmed(s[|s| - 1]);
    assert TrimStart(s) == s;
    assert Trim(s) == s;
    ParseIntOfIntToString(n);
  }

  /** The schedule is created with the airports, airline and seat count of the form, and nothing booked. */
  method NewGeneralFlight(d: GeneralFlightDraft) returns (gf: GeneralFlight)
    ensures fresh(gf)
    ensures gf.takeoffTime == Some(d.takeoff) && gf.arrivalTime == Some(d.arrival) && gf.fDay == Some(d.day)
    ensures gf.depAirportId == d.depAirport && gf.arrAirportId == d.arrAirport && gf.airlineId == d.airline
    ensures gf.numberSeats == d.seats && gf.seatsBooked == 0 && gf.generalFlightId == 0
  {
    gf := new GeneralFlight.Create(Some(d.takeoff), Some(d.arrival), Some(d.day),
                                   d.depAirport, d.arrAirport, d.airline, d.seats);
  }

  /**
    The inputs of the operational-flight form: the selected schedule's id,
    the parsed dates, the selected aircraft's id (optional) and the state label.
   */
  datatype FlightForm = FlightForm(
    schedule: Option<int32>, takeOff: Option<Date>, arrival: Option<Date>,
    aircraft: Option<int32>, stateLabel: Option<string>)

  datatype FlightDraft = FlightDraft(
    takeOff: Date, arrival: Date, state: int32, schedule: int32, aircraft: Option<int32>)

  predicate FlightFormComplete(f: FlightForm) {
    f.schedule.Some? && f.schedule.value != -1
    && f.takeOff.Some? && f.arrival.Some? && f.stateLabel.Some?
  }

  /**
    The checks made before an operational flight is created.  An arrival on
    the takeoff date is allowed; the aircraft is left unset when none, or the
    placeholder, is selected.
   */
  function CheckFlightForm(f: FlightForm): (r: FormResult<FlightDraft>)
    ensures r == Rejected(MissingInput) <==> !FlightFormComplete(f)
    ensures r.Accepted? <==>
      FlightFormComplete(f) && f.takeOff.value <= f.arrival.value && DecodeStateLabel(f.stateLabel.value).Some?
    ensures r == Rejected(ArrivalBeforeTakeoff) <==> FlightFormComplete(f) && f.arrival.value < f.takeOff.value
    ensures r == Rejected(UnreadableStateLabel) <==>
      FlightFormComplete(f) && f.takeOff.value <= f.arrival.value && DecodeStateLabel(f.stateLabel.value).None?
    ensures r.Accepted? ==>
      r.value.takeOff == f.takeOff.value && r.value.arrival == f.arrival.value
      && r.value.schedule == f.schedule.value
      && Some(r.value.state) == DecodeStateLabel(f.stateLabel.value)
      && r.value.aircraft == (if f.aircraft == Some(-1) then None else f.aircraft)
  {
    if !FlightFormComplete(f) then Rejected(MissingInput)
    else if f.arrival.value < f.takeOff.value then Rejected(ArrivalBeforeTakeoff)
    else
      var aircraft := if f.aircraft.Some? && f.aircraft.value != -1 then f.aircraft else None;
      match DecodeStateLabel(f.stateLabel.value)
      case None => Rejected(UnreadableStateLabel)
      case Some(state) =>
        Accepted(FlightDraft(f.takeOff.value, f.arrival.value, state, f.schedule.value, aircraft))
  }

  /** The operational flight is created from the form, with no id yet. */
  method NewFlight(d: FlightDraft) returns (fl: Flight)
    ensures fresh(fl)
    ensures fl.takeOffDate == Some(d.takeOff) && fl.arrivalDate == Some(d.arrival) && fl.state == d.state
    ensures fl.generalFlightId == d.schedule && fl.aircraftId == d.aircraft && fl.flightId == 0
  {
    fl := new Flight.Create(Some(d.takeOff), Some(d.arrival), d.state, d.schedule, d.aircraft);
  }

  datatype BookingDraft = BookingDraft(state: int32, customerId: Option<string>, flightId: int32, generalFlightId: int32)

  /**
    The checks made before a booking is created.  `customer` is the selected
    customer's id (`None` when no customer is selected; the id itself may be
    `null`), `flight` the flight of the selected entry.  The placeholder
    customer has id "-1" and the placeholder flight id -1; a customer whose id
    is `null` is let through.
   */
  function CheckBookingForm(customer: Option<Option<string>>, flight: Option<Flight>, stateLabel: Option<string>)
    : (r: FormResult<BookingDraft>)
    reads if flight.Some? then {flight.value} else {}
    ensures r == Rejected(MissingInput) <==>
      customer.None? || customer.value == Some("-1") || flight.None? || flight.value.flightId == -1 || stateLabel.None?
    ensures r.Accepted? <==>
      !(customer.None? || customer.value == Some("-1") || flight.None? || flight.value.flightId == -1 || stateLabel.None?)
      && DecodeStateLabel(stateLabel.value).Some?
    ensures r.Accepted? ==>
      && customer.Some? && r.value.customerId == customer.value && r.value.customerId != Some("-1")
      && flight.Some? && r.value.flightId == flight.value.flightId != -1
      && r.value.generalFlightId == flight.value.generalFlightId
      && stateLabel.Some? && Some(r.value.state) == DecodeStateLabel(stateLabel.value)
    ensures r.Rejected? ==> r.error in {MissingInput, UnreadableStateLabel}
  {
    if customer.None? || (customer.value.Some? && customer.value.value == "-1")
       || flight.None? || flight.value.flightId == -1 || stateLabel.None? then
      Rejected(MissingInput)
    else
      match DecodeStateLabel(stateLabel.value)
      case None => Rejected(UnreadableStateLabel)
      case Some(state) =>
        Accepted(BookingDraft(state, customer.value, flight.value.flightId, flight.value.generalFlightId))
  }

  /** No placeholder of the operational-flight combo box can be booked. */
  lemma BookingFormRefusesPlaceholder(customer: Option<Option<string>>, e: FlightEntry, stateLabel: Option<string>)
    requires e.Placeholder? && e.flight.flightId == -1
    ensures CheckBookingForm(customer, Some(e.flight), stateLabel) == Rejected(MissingInput)
  {
  }

  /** The booking is created from the form, dated `now`, with no number yet. */
  method NewBooking(d: BookingDraft, now: Timestamp) returns (b: Booking)
    ensures fresh(b)
    ensures b.state == d.state && b.customerId == d.customerId
    ensures b.flightId == d.flightId && b.generalFlightId == d.generalFlightId
    ensures b.bookingNumber == 0 && b.bookingDate == Some(now)
  {
    b := new Booking.Create(d.state, d.customerId, d.flightId, d.generalFlightId);
    b.SetBookingDate(Some(now));
  }

  datatype CityQuery = CityQuery(departureCity: string, arrivalCity: string)

  /** Both city names are required once trimmed, and are searched for trimmed. */
  function CheckCitySearch(depText: string, arrText: string): (r: FormResult<CityQuery>)
    ensures r.Accepted? <==> exists k, m :: 0 <= k < |depText| && 0 <= m < |arrText| && !IsTrimmed(depText[k]) && !IsTrimmed(arrText[m])
    ensures r.Accepted? ==> r.value == CityQuery(Trim(depText), Trim(arrText))
    ensures r.Rejected? ==> r.error == MissingInput
  {
    var dep, arr := Trim(depText), Trim(arrText);
    if dep == [] || arr == [] then Rejected(MissingInput) else Accepted(CityQuery(dep, arr))
  }

  datatype PeriodQuery = PeriodQuery(departureCity: string, start: Date, end: Date)

  /** The period search needs a city, a start and an end; an end on the start date is allowed. */
  function CheckPeriodSearch(depText: string, start: Option<Date>, end: Option<Date>): (r: FormResult<PeriodQuery>)
    ensures r == Rejected(MissingInput) <==> Trim(depText) == [] || start.None? || end.None?
    ensures r.Accepted? <==> Trim(depText) != [] && start.Some? && end.Some? && start.value <= end.value
    ensures r == Rejected(EndBeforeStart) <==> Trim(depText) != [] && start.Some? && end.Some? && end.value < start.value
    ensures r.Accepted? ==> r.value == PeriodQuery(Trim(depText), start.value, end.value)
  {
    var dep := Trim(depText);
    if dep == [] || start.None? || end.None? then Rejected(MissingInput)
    else if end.value < start.value then Rejected(EndBeforeStart)
    else Accepted(PeriodQuery(dep, start.value, end.value))
  }

  datatype FlightUpdate = FlightUpdate(takeOff: Date, arrival: Date, state: int32)

  /**
    The checks made before a loaded flight's dates and state are changed: a
    flight must have been loaded, both dates and a state given, and the
    arrival may not come before the takeoff.
   */
  function CheckFlightUpdate(loaded: bool, takeOff: Option<Date>, arrival: Option<Date>, stateLabel: Option<string>)
    : (r: FormResult<FlightUpdate>)
    ensures r == Rejected(NothingLoaded) <==> !loaded
    ensures r.Accepted? <==>
      loaded && takeOff.Some? && arrival.Some? && stateLabel.Some?
      && takeOff.value <= arrival.value && DecodeStateLabel(stateLabel.value).Some?
    ensures r == Rejected(MissingInput) <==> loaded && (takeOff.None? || arrival.None? || stateLabel.None?)
    ensures r == Rejected(ArrivalBeforeTakeoff) <==>
      loaded && takeOff.Some? && arrival.Some? && stateLabel.Some? && arrival.value < takeOff.value
    ensures r == Rejected(UnreadableStateLabel) <==>
      loaded && takeOff.Some? && arrival.Some? && stateLabel.Some?
      && takeOff.value <= arrival.value && DecodeStateLabel(stateLabel.value).None?
    ensures r.Accepted? ==>
      r.value.takeOff == takeOff.value && r.value.arrival == arrival.value
      && Some(r.value.state) == DecodeStateLabel(stateLabel.value)
  {
    if !loaded then Rejected(NothingLoaded)
    else if takeOff.None? || arrival.None? || stateLabel.None? then Rejected(MissingInput)
    else if arrival.value < takeOff.value then Rejected(ArrivalBeforeTakeoff)
    else
      match DecodeStateLabel(stateLabel.value)
      case None => Rejected(UnreadableStateLabel)
      case Some(state) => Accepted(FlightUpdate(takeOff.value, arrival.value, state))
  }

  /** The accepted update is applied to the loaded flight before it is stored; its other fields stay. */
  method ApplyFlightUpdate(fl: Flight, u: FlightUpdate)
    modifies fl`takeOffDate, fl`arrivalDate, fl`state
    ensures fl.takeOffDate == Some(u.takeOff) && fl.arrivalDate == Some(u.arrival) && fl.state == u.state
  {
    fl.SetTakeOffDate(Some(u.takeOff));
    fl.SetArrivalDate(Some(u.arrival));
    fl.SetState(u.state);
  }

  /** The checks made before a loaded booking's state is changed: the new state, or why not. */
  function CheckBookingStateUpdate(loaded: bool, stateLabel: Option<string>): (r: FormResult<int32>)
    ensures r == Rejected(NothingLoaded) <==> !loaded
    ensures r.Accepted? <==> loaded && stateLabel.Some? && DecodeStateLabel(stateLabel.value).Some?
    ensures r == Rejected(UnreadableStateLabel) <==> loaded && (stateLabel.None? || DecodeStateLabel(stateLabel.value).None?)
    ensures r.Accepted? ==> Some(r.value) == DecodeStateLabel(stateLabel.value)
  {
    if !loaded then Rejected(NothingLoaded)
    else if stateLabel.None? then Rejected(UnreadableStateLabel)
    else
      match DecodeStateLabel(stateLabel.value)
      case None => Rejected(UnreadableStateLabel)
      case Some(state) => Accepted(state)
  }

  /**
    The one field of the add-city, add-airline and add-aircraft forms, and of
    the airlines-in-city search: the name is required once trimmed, and is
    used trimmed.
   */
  function CheckNameForm(text: string): (r: FormResult<string>)
    ensures r.Accepted? <==> exists k :: 0 <= k < |text| && !IsTrimmed(text[k])
    ensures r.Accepted? ==> r.value == Trim(text)
    ensures r.Rejected? ==> r.error == MissingInput
  {
    var name := Trim(text);
    if name == [] then Rejected(MissingInput) else Accepted(name)
  }

  /** An accepted name is accepted again unchanged: it has nothing left to trim. */
  lemma NameFormIdempotent(text: string)
    requires CheckNameForm(text).Accepted?
    ensures CheckNameForm(CheckNameForm(text).value) == CheckNameForm(text)
  {
    TrimIdempotent(text);
  }

  datatype AirportDraft = AirportDraft(name: string, cityId: int32)

  /**
    The checks made before an airport is added: a name once trimmed, then a
    selected city that is not the placeholder of id -1.
   */
  function CheckAirportForm(nameText: string, city: Option<City>): (r: FormResult<AirportDraft>)
    reads if city.Some? then {city.value} else {}
    ensures r == Rejected(MissingInput) <==> Trim(nameText) == []
    ensures r == Rejected(NoValidCity) <==> Trim(nameText) != [] && (city.None? || city.value.cityId == -1)
    ensures r.Accepted? <==> Trim(nameText) != [] && city.Some? && city.value.cityId != -1
    ensures r.Accepted? ==>
      city.Some? && city.value.cityId != -1 && r.value == AirportDraft(Trim(nameText), city.value.cityId)
  {
    var name := Trim(nameText);
    if name == [] then Rejected(MissingInput)
    else if city.None? || city.value.cityId == -1 then Rejected(NoValidCity)
    else Accepted(AirportDraft(name, city.value.cityId))
  }

  /** The placeholder that stands for an empty city list can never be chosen for an airport. */
  lemma AirportFormRefusesPlaceholderCity(nameText: string, c: City)
    requires c.cityId == -1 && c.cityName == Some(NoCities)
    ensures CheckAirportForm(nameText, Some(c)).Rejected?
  {
  }

  /** The six text fields of the add-customer form. */
  datatype CustomerForm = CustomerForm(
    customerId: string, firstName: string, lastName: string, address: string, email: string, phone: string)

  /** The id, first name, last name and email are required once trimmed; address and phone may be empty. */
  predicate CustomerFormComplete(f: CustomerForm) {
    Trim(f.customerId) != [] && Trim(f.firstName) != [] && Trim(f.lastName) != [] && Trim(f.email) != []
  }

  /** Every field trimmed. */
  function TrimmedCustomer(f: CustomerForm): CustomerForm {
    CustomerForm(Trim(f.customerId), Trim(f.firstName), Trim(f.lastName), Trim(f.address), Trim(f.email), Trim(f.phone))
  }

  /** The check made before a customer is added; the customer is stored with every field trimmed. */
  function CheckCustomerForm(f: CustomerForm): (r: FormResult<CustomerForm>)
    ensures r.Accepted? <==> CustomerFormComplete(f)
    ensures r.Accepted? ==> r.value == TrimmedCustomer(f)
    ensures r.Rejected? ==> r.error == MissingInput
  {
    var t := TrimmedCustomer(f);
    if t.customerId == [] || t.firstName == [] || t.lastName == [] || t.email == [] then Rejected(MissingInput)
    else Accepted(t)
  }

  /** Whether the address and phone are given never decides whether a customer is accepted. */
  lemma CustomerFormOptionalFields(f: CustomerForm, address: string, phone: string)
    ensures CheckCustomerForm(f.(address := address, phone := phone)).Accepted? <==> CheckCustomerForm(f).Accepted?
  {
  }

  /** An accepted customer is accepted again unchanged: its fields have nothing left to trim. */
  lemma CustomerFormIdempotent(f: CustomerForm)
    requires CheckCustomerForm(f).Accepted?
    ensures CheckCustomerForm(CheckCustomerForm(f).value) == CheckCustomerForm(f)
  {
    TrimIdempotent(f.customerId);
    TrimIdempotent(f.firstName);
    TrimIdempotent(f.lastName);
    TrimIdempotent(f.address);
    TrimIdempotent(f.email);
    TrimIdempotent(f.phone);
  }

  /**
    The booking number typed to look a booking up: required once trimmed,
    and it must then parse as an `int`.
   */
  function CheckBookingNumber(text: string): (r: FormResult<int32>)
    ensures r == Rejected(MissingInput) <==> Trim(text) == []
    ensures r.Accepted? <==> ParseInt(Trim(text)).Some?
    ensures r.Accepted? ==> Some(r.value) == ParseInt(Trim(text))
    ensures r.Rejected? ==> r.error in {MissingInput, NotANumber}
  {
    var t := Trim(text);
    if t == [] then Rejected(MissingInput)
    else
      match ParseInt(t)
      case None => Rejected(NotANumber)
      case Some(n) => Accepted(n)
  }

  /** A booking number printed by `Integer.toString` is looked up as that number. */
  lemma BookingNumberOfPrinted(n: int32)
    ensures CheckBookingNumber(IntToString(n)) == Accepted(n)
  {
    var s := IntToString(n);
    assert !IsTrimmed(s[0]) && !IsTrimmed(s[|s| - 1]);
    assert TrimStart(s) == s;
    assert Trim(s) == s;
    ParseIntOfIntToString(n);
  }

  // ---------------------------------------------------------------------------
  // Storage outcomes

  /** What an insert or update returned: rows written, none written, or an `SQLException`. */
  datatype StorageOutcome = Stored | NoRowsAffected | StorageError(code: int, message: Option<string>)

  const NoSeatsNotice: string := "no available seats"

  /** The error the seat trigger raises: code 1644 with a message mentioning "no available seats" in any case. */
  predicate IsNoAvailableSeats(code: int, message: Option<string>) {
    code == 1644 && message.Some? && Contains(ToLower(message.value), NoSeatsNotice)
  }

  /** The seat error is recognised iff the lowered message has the notice at some offset. */
  lemma NoAvailableSeatsIff(code: int, message: Option<string>)
    ensures IsNoAvailableSeats(code, message) <==>
      code == 1644 && message.Some? && OccursIn(NoSeatsNotice, ToLower(message.value))
  {
    if message.Some? {
      ContainsIsOccurrence(ToLower(message.value), NoSeatsNotice);
    }
  }

  /** Whatever surrounds the notice in the message, the error is still recognised. */
  lemma NoAvailableSeatsAnywhere(before: string, m: string, after: string)
    requires IsNoAvailableSeats(1644, Some(m))
    ensures IsNoAvailableSeats(1644, Some(before + m + after))
  {
    NoAvailableSeatsIff(1644, Some(m));
    ToLowerConcat(before, m);
    ToLowerConcat(before + m, after);
    OccursInMiddle(NoSeatsNotice, ToLower(before), ToLower(m), ToLower(after));
    NoAvailableSeatsIff(1644, Some(before + m + after));
  }

  /** What the window reports after a write. */
  datatype Report = Succeeded | NotChanged | SeatsUnavailable(message: string) | DuplicateEntry | GenericFailure

  /** The duplicate-key error code of MySQL. */
  const DuplicateKey: int := 1062

  /** The report for adding a customer: a duplicate id or email is told apart from other errors. */
  function CustomerWriteReport(o: StorageOutcome): (r: Report)
    ensures r == Succeeded <==> o == Stored
    ensures r == NotChanged <==> o == NoRowsAffected
    ensures r == DuplicateEntry <==> o.StorageError? && o.code == DuplicateKey
    ensures r == GenericFailure <==> o.StorageError? && o.code != DuplicateKey
  {
    match o
    case Stored => Succeeded
    case NoRowsAffected => NotChanged
    case StorageError(code, _) => if code == DuplicateKey then DuplicateEntry else GenericFailure
  }

  /**
    The report for adding a booking or changing a booking's state: a seat
    error shows its own message, every other error the generic one.
   */
  function BookingWriteReport(o: StorageOutcome): (r: Report)
    ensures r == Succeeded <==> o == Stored
    ensures r == NotChanged <==> o == NoRowsAffected
    ensures r.SeatsUnavailable? <==> o.StorageError? && IsNoAvailableSeats(o.code, o.message)
    ensures r.SeatsUnavailable? ==> Some(r.message) == o.message
    ensures r == GenericFailure <==> o.StorageError? && !IsNoAvailableSeats(o.code, o.message)
  {
    match o
    case Stored => Succeeded
    case NoRowsAffected => NotChanged
    case StorageError(code, message) =>
      if IsNoAvailableSeats(code, message) then SeatsUnavailable(message.value) else GenericFailure
  }

  /** After adding a booking, the flight list is reloaded unless no row was written. */
  function AddBookingRefreshesFlights(o: StorageOutcome): (r: bool)
    ensures r <==> !o.NoRowsAffected?
  {
    match o
    case Stored => true
    case NoRowsAffected => false
    case StorageError(_, _) => true
  }

  /** Changing a flight reports every error generically, and reloads the flight list only on success. */
  function FlightUpdateReport(o: StorageOutcome): (r: (Report, bool))
    ensures r.0 == Succeeded <==> o == Stored
    ensures r.0 == NotChanged <==> o == NoRowsAffected
    ensures r.0 == GenericFailure <==> o.StorageError?
    ensures r.1 <==> o == Stored
  {
    match o
    case Stored => (Succeeded, true)
    case NoRowsAffected => (NotChanged, false)
    case StorageError(_, _) => (GenericFailure, false)
  }

  // ---------------------------------------------------------------------------
  // Schedule search rows

  /**
    What a name cell of a schedule row holds: the name that the lookup
    returned (itself possibly `null`), or, when the lookup found nothing,
    the fallback text made of `prefix` and the id.
   */
  datatype NameCell = Looked(name: Option<string>) | ById(prefix: string, id: int32)
  {
    /** The text the cell shows. */
    function Text(): Option<string> {
      match this
      case Looked(name) => name
      case ById(prefix, id) => Some(prefix + IntToString(id))
    }
  }

  /** The name cell for an airline or airport with the given id. */
  function DisplayName(prefix: string, id: int32, names: map<int32, Option<string>>): NameCell {
    if id in names then Looked(names[id]) else ById(prefix, id)
  }

  const AirlineFallback: string := "AirlineID:"
  const AirportFallback: string := "AirportID:"

  /**
    A cell shows the looked-up name when there is one; otherwise it shows the
    prefix followed by the id, which reads back from the text after the prefix.
   */
  lemma DisplayNameShows(prefix: string, id: int32, names: map<int32, Option<string>>)
    ensures var t := DisplayName(prefix, id, names).Text();
      && (id in names ==> t == names[id])
      && (id !in names ==> t.Some? && |t.value| > |prefix| && t.value[..|prefix|] == prefix
                           && ParseInt(t.value[|prefix|..]) == Some(id))
  {
    if id !in names {
      DropPrefix(prefix, IntToString(id));
      ParseIntOfIntToString(id);
    }
  }

  /** One row of the schedule search table. */
  datatype ScheduleRow = ScheduleRow(
    scheduleId: int32, airline: NameCell, departure: NameCell, arrival: NameCell,
    takeoff: Option<Time>, landing: Option<Time>, day: Option<Date>, seatsAvailable: int32)

  /** The row shown for schedule `gf`, names looked up in `airlines` and `airports`. */
  function ScheduleRowOf(gf: GeneralFlight, airlines: map<int32, Option<string>>, airports: map<int32, Option<string>>)
    : ScheduleRow
    reads gf
  {
    ScheduleRow(gf.generalFlightId,
      DisplayName(AirlineFallback, gf.airlineId, airlines),
      DisplayName(AirportFallback, gf.depAirportId, airports),
      DisplayName(AirportFallback, gf.arrAirportId, airports),
      gf.takeoffTime, gf.arrivalTime, gf.fDay, gf.AvailableSeats())
  }

  /**
    A schedule's row shows its id, each name looked up or else the id after
    its prefix, its times and day, and, for a consistent count, the seats
    that are still free.
   */
  lemma ScheduleRowShows(gf: GeneralFlight, airlines: map<int32, Option<string>>, airports: map<int32, Option<string>>)
    ensures var r := ScheduleRowOf(gf, airlines, airports);
      && r.scheduleId == gf.generalFlightId
      && (gf.airlineId in airlines ==> r.airline.Text() == airlines[gf.airlineId])
      && (gf.airlineId !in airlines ==> ParseInt(r.airline.Text().value[|AirlineFallback|..]) == Some(gf.airlineId))
      && (gf.depAirportId in airports ==> r.departure.Text() == airports[gf.depAirportId])
      && (gf.depAirportId !in airports ==> ParseInt(r.departure.Text().value[|AirportFallback|..]) == Some(gf.depAirportId))
      && (gf.arrAirportId in airports ==> r.arrival.Text() == airports[gf.arrAirportId])
      && (gf.arrAirportId !in airports ==> ParseInt(r.arrival.Text().value[|AirportFallback|..]) == Some(gf.arrAirportId))
      && r.takeoff == gf.takeoffTime && r.landing == gf.arrivalTime && r.day == gf.fDay
      && (0 <= gf.seatsBooked <= gf.numberSeats ==> 0 <= r.seatsAvailable == gf.numberSeats - gf.seatsBooked)
  {
    DisplayNameShows(AirlineFallback, gf.airlineId, airlines);
    DisplayNameShows(AirportFallback, gf.depAirportId, airports);
    DisplayNameShows(AirportFallback, gf.arrAirportId, airports);
  }

  /** The rows of a results table. */
  class ScheduleTable {
    var rows: seq<ScheduleRow>

    constructor ()
      ensures rows == []
    {
      rows := [];
    }

    method SetRowCount0()
      modifies this`rows
      ensures rows == []
    {
      rows := [];
    }

    method AddRow(row: ScheduleRow)
      modifies this`rows
      ensures rows == old(rows) + [row]
    {
      rows := rows + [row];
    }
  }

  /** The rows of `schedules`, one per schedule and in their order. */
  function RowsOf(schedules: seq<GeneralFlight>,
                  airlines: map<int32, Option<string>>, airports: map<int32, Option<string>>): (rows: seq<ScheduleRow>)
    reads schedules
    ensures |rows| == |schedules|
  {
    if schedules == [] then [] else
      RowsOf(schedules[..|schedules| - 1], airlines, airports) + [ScheduleRowOf(schedules[|schedules| - 1], airlines, airports)]
  }

  /** The row at each position is the row of the schedule at that position. */
  lemma {:induction false} RowsOfAt(schedules: seq<GeneralFlight>,
                                    airlines: map<int32, Option<string>>, airports: map<int32, Option<string>>)
    ensures forall k :: 0 <= k < |schedules| ==>
      RowsOf(schedules, airlines, airports)[k] == ScheduleRowOf(schedules[k], airlines, airports)
  {
    if schedules != [] {
      var init := schedules[..|schedules| - 1];
      RowsOfAt(init, airlines, airports);
      assert forall k :: 0 <= k < |init| ==> init[k] == schedules[k];
    }
  }

  /**
    A schedule whose row cannot be formatted: a `null` takeoff time, arrival
    time or day makes `format` throw, and the exception, which is not an
    `SQLException`, ends the search.
   */
  predicate RowCannotShow(gf: GeneralFlight)
    reads gf
  {
    gf.takeoffTime.None? || gf.arrivalTime.None? || gf.fDay.None?
  }

  /** How many schedules get their row before the first one that cannot be shown. */
  function SchedulesBeforeNullTime(schedules: seq<GeneralFlight>): (k: nat)
    reads schedules
    ensures k <= |schedules|
  {
    if schedules == [] then 0
    else if RowCannotShow(schedules[0]) then 0
    else 1 + SchedulesBeforeNullTime(schedules[1..])
  }

  /** Up to the stopping point, a row cannot be shown exactly when it is the one there. */
  lemma {:induction false} SchedulesBeforeNullTimeAt(schedules: seq<GeneralFlight>, i: nat)
    requires i < |schedules| && i <= SchedulesBeforeNullTime(schedules)
    ensures RowCannotShow(schedules[i]) <==> i == SchedulesBeforeNullTime(schedules)
  {
    if i > 0 {
      assert schedules[1..][i - 1] == schedules[i];
      SchedulesBeforeNullTimeAt(schedules[1..], i - 1);
    }
  }

  /** The search stops at the first schedule with a `null` time or day, and only there. */
  lemma SchedulesBeforeNullTimeIsFirst(schedules: seq<GeneralFlight>)
    ensures var k := SchedulesBeforeNullTime(schedules);
      && (forall j :: 0 <= j < k ==> !RowCannotShow(schedules[j]))
      && (k < |schedules| ==> RowCannotShow(schedules[k]))
  {
    var k := SchedulesBeforeNullTime(schedules);
    forall j | 0 <= j < k
      ensures !RowCannotShow(schedules[j])
    {
      SchedulesBeforeNullTimeAt(schedules, j);
    }
    if k < |schedules| {
      SchedulesBeforeNullTimeAt(schedules, k);
    }
  }

  /**
    The schedule search by departure and arrival city.  A refused form leaves
    the table as it was; otherwise the table is cleared and, when the search
    (`found`) succeeds, holds one row per schedule found, in order, up to the
    first schedule with a `null` time or day, which aborts the search
    (`aborted`).
   */
  method SearchSchedulesByCities(table: ScheduleTable, depText: string, arrText: string,
                                 found: Option<seq<GeneralFlight>>,
                                 airlines: map<int32, Option<string>>, airports: map<int32, Option<string>>)
    returns (r: FormResult<CityQuery>, aborted: bool)
    modifies table`rows
    ensures r == CheckCitySearch(depText, arrText)
    ensures r.Rejected? ==> table.rows == old(table.rows)
    ensures r.Accepted? && found.None? ==> table.rows == []
    ensures aborted <==> r.Accepted? && found.Some? && old(SchedulesBeforeNullTime(found.value)) < |found.value|
    ensures r.Accepted? && found.Some? ==>
      table.rows == old(RowsOf(found.value[..SchedulesBeforeNullTime(found.value)], airlines, airports))
  {
    r := CheckCitySearch(depText, arrText);
    aborted := false;
    if r.Accepted? {
      if found.Some? {
        aborted := ShowSchedules(table, found.value, airlines, airports);
      } else {
        table.SetRowCount0();
      }
    }
  }

  /** The table is cleared, then filled with the rows of `schedules`. */
  method ShowSchedules(table: ScheduleTable, schedules: seq<GeneralFlight>,
                       airlines: map<int32, Option<string>>, airports: map<int32, Option<string>>)
    returns (aborted: bool)
    modifies table`rows
    ensures aborted <==> old(SchedulesBeforeNullTime(schedules)) < |schedules|
    ensures table.rows == old(RowsOf(schedules[..SchedulesBeforeNullTime(schedules)], airlines, airports))
  {
    ghost var n := SchedulesBeforeNullTime(schedules);
    ghost var rows := RowsOf(schedules[..n], airlines, airports);
    table.SetRowCount0();
    assert SchedulesBeforeNullTime(schedules) == n;
    assert RowsOf(schedules[..n], airlines, airports) == rows;
    aborted := AddScheduleRows(table, schedules, airlines, airports);
  }

  /**
    One row per schedule is appended to the emptied table, each with its
    names looked up, until a schedule's row cannot be shown.
   */
  method AddScheduleRows(table: ScheduleTable, schedules: seq<GeneralFlight>,
                         airlines: map<int32, Option<string>>, airports: map<int32, Option<string>>)
    returns (aborted: bool)
    requires table.rows == []
    modifies table`rows
    ensures aborted <==> old(SchedulesBeforeNullTime(schedules)) < |schedules|
    ensures table.rows == old(RowsOf(schedules[..SchedulesBeforeNullTime(schedules)], airlines, airports))
  {
    aborted := false;
    ghost var n := SchedulesBeforeNullTime(schedules);
    SchedulesBeforeNullTimeIsFirst(schedules);
    var i := 0;
    while i < |schedules|
      invariant 0 <= i <= n
      invariant table.rows == old(RowsOf(schedules[..i], airlines, airports))
    {
      var gf := schedules[i];
      if gf.takeoffTime.None? || gf.arrivalTime.None? || gf.fDay.None? {
        aborted := true;
        return;
      }
      table.AddRow(ScheduleRowOf(gf, airlines, airports));
      assert schedules[..i + 1][..i] == schedules[..i];
      i := i + 1;
    }
  }
}
