/**
  `GeneralFlight`: a flight schedule, the recurring template of a flight, with
  its seat capacity (`numberSeats`) and the number of seats already booked
  (`seatsBooked`, kept up to date by the database).
 */
module GeneralFlights {
  import opened JavaLang

  class GeneralFlight {
    var generalFlightId: int32
    var takeoffTime: Option<Time>
    var arrivalTime: Option<Time>
    var fDay: Option<Date>        // reference day of the schedule
    var depAirportId: int32
    var arrAirportId: int32
    var airlineId: int32
    var numberSeats: int32
    var seatsBooked: int32

    /** `GeneralFlight()`: every field keeps Java's default. */
    constructor Default()
      ensures generalFlightId == 0 && takeoffTime == None && arrivalTime == None && fDay == None
      ensures depAirportId == 0 && arrAirportId == 0 && airlineId == 0
      ensures numberSeats == 0 && seatsBooked == 0
    {
      generalFlightId, takeoffTime, arrivalTime, fDay := 0, None, None, None;
      depAirportId, arrAirportId, airlineId := 0, 0, 0;
      numberSeats, seatsBooked := 0, 0;
    }

    /**
      The constructor used to create a schedule: the seven given fields are
      copied, nothing is booked yet, and the id keeps its default 0 until the
      database assigns one.
     */
    constructor Create(takeoff: Option<Time>, arrival: Option<Time>, day: Option<Date>,
                       depAirport: int32, arrAirport: int32, airline: int32, seats: int32)
      ensures takeoffTime == takeoff && arrivalTime == arrival && fDay == day
      ensures depAirportId == depAirport && arrAirportId == arrAirport && airlineId == airline
      ensures numberSeats == seats
      ensures seatsBooked == 0 && generalFlightId == 0
    {
      generalFlightId := 0;
      takeoffTime, arrivalTime, fDay := takeoff, arrival, day;
      depAirportId, arrAirportId, airlineId := depAirport, arrAirport, airline;
      numberSeats, seatsBooked := seats, 0;
    }

    /** The full constructor stores all nine arguments. */
    constructor Full(id: int32, takeoff: Option<Time>, arrival: Option<Time>, day: Option<Date>,
                     depAirport: int32, arrAirport: int32, airline: int32, seats: int32, booked: int32)
      ensures generalFlightId == id
      ensures takeoffTime == takeoff && arrivalTime == arrival && fDay == day
      ensures depAirportId == depAirport && arrAirportId == arrAirport && airlineId == airline
      ensures numberSeats == seats && seatsBooked == booked
    {
      generalFlightId := id;
      takeoffTime, arrivalTime, fDay := takeoff, arrival, day;
      depAirportId, arrAirportId, airlineId := depAirport, arrAirport, airline;
      numberSeats, seatsBooked := seats, booked;
    }

    method SetGeneralFlightId(id: int32)
      modifies this`generalFlightId
      ensures generalFlightId == id
    {
      generalFlightId := id;
    }

    method SetTakeoffTime(t: Option<Time>)
      modifies this`takeoffTime
      ensures takeoffTime == t
    {
      takeoffTime := t;
    }

    method SetArrivalTime(t: Option<Time>)
      modifies this`arrivalTime
      ensures arrivalTime == t
    {
      arrivalTime := t;
    }

    method SetFDay(d: Option<Date>)
      modifies this`fDay
      ensures fDay == d
    {
      fDay := d;
    }

    method SetDepAirportId(id: int32)
      modifies this`depAirportId
      ensures depAirportId == id
    {
      depAirportId := id;
    }

    method SetArrAirportId(id: int32)
      modifies this`arrAirportId
      ensures arrAirportId == id
    {
      arrAirportId := id;
    }

    method SetAirlineId(id: int32)
      modifies this`airlineId
      ensures airlineId == id
    {
      airlineId := id;
    }

    method SetNumberSeats(n: int32)
      modifies this`numberSeats
      ensures numberSeats == n
    {
      numberSeats := n;
    }

    method SetSeatsBooked(n: int32)
      modifies this`seatsBooked
      ensures seatsBooked == n
    {
      seatsBooked := n;
    }

    /** `numberSeats - seatsBooked` in Java's `int` arithmetic. */
    function AvailableSeats(): (r: int32)
      reads this
      ensures 0 <= seatsBooked <= numberSeats ==> 0 <= r == numberSeats - seatsBooked
    {
      Sub32(numberSeats, seatsBooked)
    }

    /**
      `"GFID: <id> (Seats: <available>/<capacity>)"`: the id, the available
      seats and the capacity can each be read back from the text.
     */
    function ToString(): (t: string)
      reads this
      ensures |t| > |"GFID: "| && t[..|"GFID: "|] == "GFID: "
      ensures ReadIntBefore(t[|"GFID: "|..], ' ') == Some(generalFlightId)
      ensures |t| >= |"GFID: "| + |IntToString(generalFlightId)| + |" (Seats: "|
      ensures var seats := t[|"GFID: "| + |IntToString(generalFlightId)| + |" (Seats: "|..];
        && ReadIntBefore(seats, '/') == Some(AvailableSeats())
        && |seats| >= |IntToString(AvailableSeats())| + 1
        && ReadIntBefore(seats[|IntToString(AvailableSeats())| + 1..], ')') == Some(numberSeats)
    {
      ScheduleTextReadsBack(generalFlightId, AvailableSeats(), numberSeats);
      ScheduleText(generalFlightId, AvailableSeats(), numberSeats)
    }
  }

  function ScheduleText(id: int32, available: int32, capacity: int32): string {
    "GFID: " + (IntToString(id) + (" (Seats: " + (IntToString(available) + ("/" + (IntToString(capacity) + ")")))))
  }

  lemma ScheduleTextReadsBack(id: int32, available: int32, capacity: int32)
    ensures var t := ScheduleText(id, available, capacity);
      && |t| > |"GFID: "| && t[..|"GFID: "|] == "GFID: "
      && ReadIntBefore(t[|"GFID: "|..], ' ') == Some(id)
      && |t| >= |"GFID: "| + |IntToString(id)| + |" (Seats: "|
      && var seats := t[|"GFID: "| + |IntToString(id)| + |" (Seats: "|..];
      && ReadIntBefore(seats, '/') == Some(available)
      && |seats| >= |IntToString(available)| + 1
      && ReadIntBefore(seats[|IntToString(available)| + 1..], ')') == Some(capacity)
  {
    var a, b, c := IntToString(id), IntToString(available), IntToString(capacity);
    var w := c + ")";
    var v := "/" + w;
    var u := b + v;
    var y := " (Seats: " + u;
    var x := a + y;
    var t := "GFID: " + x;
    DropPrefix("GFID: ", x);
    ReadIntBeforePrinted(id, ' ', y);
    DropPrefix(a, y);
    DropPrefix(" (Seats: ", u);
    assert t[|"GFID: "| + |a| + |" (Seats: "|..] == u;
    ReadIntBeforePrinted(available, '/', v);
    DropPrefix(b, v);
    DropPrefix("/", w);
    assert u[|b| + 1..] == w;
    ReadIntBeforePrinted(capacity, ')', ")");
  }
}
