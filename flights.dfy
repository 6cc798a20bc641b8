/**
  `Flight`: one operational occurrence of a flight schedule, with its own
  dates, its state (0 scheduled, 1 in progress, 2 completed, 3 cancelled) and
  an optional aircraft.
 */
module Flights {
  import opened JavaLang

  class Flight {
    var flightId: int32
    var takeOffDate: Option<Date>
    var arrivalDate: Option<Date>
    var state: int32
    var generalFlightId: int32
    var aircraftId: Option<int32>   // an `Integer`, so it may be null

    /** `Flight()`: every field keeps Java's default. */
    constructor Default()
      ensures flightId == 0 && takeOffDate == None && arrivalDate == None
      ensures state == 0 && generalFlightId == 0 && aircraftId == None
    {
      flightId, takeOffDate, arrivalDate := 0, None, None;
      state, generalFlightId, aircraftId := 0, 0, None;
    }

    /** The constructor used to create a flight: five fields copied, the id stays 0. */
    constructor Create(takeOff: Option<Date>, arrival: Option<Date>, st: int32,
                       schedule: int32, aircraft: Option<int32>)
      ensures takeOffDate == takeOff && arrivalDate == arrival && state == st
      ensures generalFlightId == schedule && aircraftId == aircraft
      ensures flightId == 0
    {
      flightId := 0;
      takeOffDate, arrivalDate, state := takeOff, arrival, st;
      generalFlightId, aircraftId := schedule, aircraft;
    }

    /** The full constructor stores all six arguments. */
    constructor Full(id: int32, takeOff: Option<Date>, arrival: Option<Date>, st: int32,
                     schedule: int32, aircraft: Option<int32>)
      ensures flightId == id
      ensures takeOffDate == takeOff && arrivalDate == arrival && state == st
      ensures generalFlightId == schedule && aircraftId == aircraft
    {
      flightId := id;
      takeOffDate, arrivalDate, state := takeOff, arrival, st;
      generalFlightId, aircraftId := schedule, aircraft;
    }

    method SetFlightId(id: int32)
      modifies this`flightId
      ensures flightId == id
    {
      flightId := id;
    }

    method SetTakeOffDate(d: Option<Date>)
      modifies this`takeOffDate
      ensures takeOffDate == d
    {
      takeOffDate := d;
    }

    method SetArrivalDate(d: Option<Date>)
      modifies this`arrivalDate
      ensures arrivalDate == d
    {
      arrivalDate := d;
    }

    method SetState(st: int32)
      modifies this`state
      ensures state == st
    {
      state := st;
    }

    method SetGeneralFlightId(id: int32)
      modifies this`generalFlightId
      ensures generalFlightId == id
    {
      generalFlightId := id;
    }

    method SetAircraftId(id: Option<int32>)
      modifies this`aircraftId
      ensures aircraftId == id
    {
      aircraftId := id;
    }

    /** `getStateString()` */
    function StateString(): (r: string)
      reads this
      ensures r == "Unknown" <==> !(0 <= state <= 3)
    {
      FlightStateName(state)
    }

    /**
      `"Flight ID: <id> on <takeOffDate> (State: <state name>)"`; how a
      `java.sql.Date` prints is given by `renderDate`. The id reads back from
      the text, which ends with the state name.
     */
    function ToString(renderDate: Date -> string): (t: string)
      reads this
      ensures |t| > |"Flight ID: "| && t[..|"Flight ID: "|] == "Flight ID: "
      ensures ReadIntBefore(t[|"Flight ID: "|..], ' ') == Some(flightId)
      ensures EndsWith(t, " (State: " + StateString() + ")")
    {
      var date := if takeOffDate.None? then "null" else renderDate(takeOffDate.value);
      FlightTextReadsBack(flightId, date, StateString());
      FlightText(flightId, date, StateString())
    }
  }

  /** The display name of a flight state. */
  function FlightStateName(state: int): (r: string)
    ensures r == "Unknown" <==> !(0 <= state <= 3)
  {
    match state
    case 0 => "Scheduled"
    case 1 => "In Progress"
    case 2 => "Completed"
    case 3 => "Cancelled"
    case _ => "Unknown"
  }

  /** The four known states have four different names. */
  lemma FlightStateNamesDistinct(a: int, b: int)
    requires 0 <= a <= 3 && 0 <= b <= 3
    requires FlightStateName(a) == FlightStateName(b)
    ensures a == b
  {
  }

  function FlightText(id: int32, date: string, stateName: string): string {
    "Flight ID: " + (IntToString(id) + (" on " + (date + (" (State: " + stateName + ")"))))
  }

  lemma FlightTextReadsBack(id: int32, date: string, stateName: string)
    ensures var t := FlightText(id, date, stateName);
      && |t| > |"Flight ID: "| && t[..|"Flight ID: "|] == "Flight ID: "
      && ReadIntBefore(t[|"Flight ID: "|..], ' ') == Some(id)
      && EndsWith(t, " (State: " + stateName + ")")
  {
    var a := IntToString(id);
    var tail := " (State: " + stateName + ")";
    var z := date + tail;
    var y := " on " + z;
    var x := a + y;
    DropPrefix("Flight ID: ", x);
    ReadIntBeforePrinted(id, ' ', y);
    EndsWithItself(tail);
    EndsWithPrepend(date, tail, tail);
    EndsWithPrepend(" on ", z, tail);
    EndsWithPrepend(a, y, tail);
    EndsWithPrepend("Flight ID: ", x, tail);
  }
}
