/** The ticket enrichment workflow (EmailProcessingService): one message names
    a trip and carries a travel document; the extractor turns the document into
    leg records, and each leg becomes a ticket after its operator and both
    endpoint locations are resolved. The external calls are the fields of `Env`.

    Each operation is given as a specification function over the store value
    `Db` and as a method over the in-memory `Repository` proved equal to it. */
module EmailProcessingService {
  import opened Base
  import opened Store
  import FlightOperatorService

  /** One leg record as the extractor returns it. */
  datatype GptTicketData = GptTicketData(
    departureCity: string,
    departureCountry: string,
    arrivalCity: string,
    arrivalCountry: string,
    departAt: string,
    arriveAt: Option<string>,
    flightNumber: Option<string>,
    reservationNumber: Option<string>,
    flightOperator: string,
    airlineCarrierCode: string,
    departureAirportCode: string,
    arrivalAirportCode: string,
    tripLeg: string)

  /** The extractor throws, returns null, or returns a list of possibly-null legs. */
  datatype ExtractorReply = ExtractorThrew | ExtractedNull | Extracted(legs: seq<Option<GptTicketData>>)

  /** The geocoder throws (or gives a null list), or gives its ordered results. */
  datatype GeocodeReply = GeocoderThrew | Places(results: seq<Option<Place>>)

  datatype EmailProcessingMessage = EmailProcessingMessage(tripId: int, base64Text: string)

  /** The external calls the workflow makes, as functions of their arguments:
      base-64 decoding, the extractor, the geocoder, the logo request (see
      FlightOperatorService), DateTime.Parse, and TimeZoneInfo.ConvertTimeToUtc
      as the times it accepts (it throws on an invalid local time) and the
      result it gives. */
  datatype Env = Env(
    base64Decode: string -> Option<string>,
    extract: (string, Location) -> ExtractorReply,
    geocode: string -> GeocodeReply,
    logoBase: string,
    fetchLogo: string -> Option<string>,
    parseDate: string -> Option<DateTime>,
    convertible: DateTime -> bool,
    toUtc: DateTime -> DateTime)

  /** How a call of ProcessEmail that does not throw ends. */
  datatype EmailExit = NoArrivalLocation | NoTicketData | DuplicateLeg | Completed

  // ---------------------------------------------------------------------
  // Pure parts
  // ---------------------------------------------------------------------

  /** The digit characters of s, in order. */
  function Digits(s: string): (r: string)
    ensures AllDigits(r) && |r| <= |s|
    ensures AllDigits(s) ==> r == s
  {
    if s == [] then []
    else
      assert s == [s[0]] + s[1..];
      (if IsDigit(s[0]) then [s[0]] else []) + Digits(s[1..])
  }

  /** FormatFlightNumber: null gives the empty string; otherwise keep the
      digits and drop one leading '0' if there is one. */
  function FormatFlightNumber(flightNumber: Option<string>): (r: string)
    ensures AllDigits(r)
    ensures flightNumber.None? ==> r == ""
    ensures flightNumber.Some? ==>
              var digits := Digits(flightNumber.value);
              && (digits == r || digits == "0" + r)
              && (digits == "0" + r <==> |digits| > 0 && digits[0] == '0')
  {
    if flightNumber.None? then ""
    else
      var digits := Digits(flightNumber.value);
      if |digits| > 0 && digits[0] == '0' then digits[1..] else digits
  }

  /** LegFromString: exactly the tag "outbound" is an outbound leg. */
  function LegFromString(leg: string): (r: TicketLeg)
    ensures r == Outbound <==> leg == "outbound"
  {
    if leg == "outbound" then Outbound else Inbound
  }

  /** CanSaveTicket: every stored ticket of the trip has another leg. */
  function CanSaveTicket(tickets: seq<Ticket>, leg: TicketLeg, tripId: int): (r: bool)
    ensures r <==> forall t :: t in tickets && t.tripId == tripId ==> t.leg != leg
  {
    forall t :: t in TicketsForTrip(tickets, tripId) ==> t.leg != leg
  }

  /** The data map of the completion push. */
  function CompletionData(tripId: int): map<string, string> {
    map["type" := "TicketProcessingComplete", "tripId" := IntToString(tripId)]
  }

  /** The timestamp parses and its conversion to UTC does not throw. */
  predicate ConvertsToUtc(env: Env, s: string) {
    env.parseDate(s).Some? && env.convertible(env.parseDate(s).value)
  }

  /** DateTime.Parse followed by TimeZoneInfo.ConvertTimeToUtc; the parse
      fails first, the conversion second. */
  function ParseUtc(env: Env, s: string): (r: Result<DateTime>)
    ensures r.Ok? <==> ConvertsToUtc(env, s)
    ensures r.Ok? ==> r.value == env.toUtc(env.parseDate(s).value)
    ensures r == Err(DateParseFailed) <==> env.parseDate(s).None?
    ensures r.Err? ==> r.error in {DateParseFailed, TimeConversionFailed}
  {
    match env.parseDate(s)
    case None => Err(DateParseFailed)
    case Some(d) => if env.convertible(d) then Ok(env.toUtc(d)) else Err(TimeConversionFailed)
  }

  // ---------------------------------------------------------------------
  // Specification of each step, as a transition of the store
  // ---------------------------------------------------------------------

  /** FindOrCreateLocation. */
  function FindOrCreateLocationSpec(db: Db, city: string, country: string, env: Env): Resolved<Location> {
    match FindLocation(db.locations, city, country)
    case Some(l) => Resolved(db, Ok(l))
    case None =>
      match env.geocode(city + " " + country)
      case GeocoderThrew => Resolved(db, Err(GeocoderFailed))
      case Places(results) =>
        if |results| == 0 || results[0].None? then Resolved(db, Err(LocationNotFound))
        else
          var p := results[0].value;
          Resolved(Saved(AddLocation(db, p)), Ok(Location(db.nextId, p.city, p.country)))
  }

  /** The ticket CreateTicketFromGptData builds once everything is resolved. */
  function NewTicket(trip: Trip, data: GptTicketData, operatorId: int, departure: Location,
                     arrival: Location, departAt: DateTime, arriveAt: Option<DateTime>): Ticket
  {
    Ticket(0, trip.id, LegFromString(data.tripLeg), departAt, arriveAt,
      Some(FormatFlightNumber(data.flightNumber)), data.reservationNumber,
      data.departureAirportCode, data.arrivalAirportCode,
      operatorId, departure.id, arrival.id)
  }

  /** The last part of CreateTicketFromGptData: both timestamps are parsed and
      converted, then the ticket is stored and saved. */
  function StoreTicketSpec(db: Db, trip: Trip, data: GptTicketData, env: Env, operatorId: int,
                           departure: Location, arrival: Location): Resolved<Option<Ticket>>
  {
    var departAt := ParseUtc(env, data.departAt);
    if departAt.Err? then Resolved(db, Err(departAt.error))
    else
      var arriveAt := if data.arriveAt.None? then Ok(None) else
                        match ParseUtc(env, data.arriveAt.value)
                        case Err(e) => Err(e)
                        case Ok(a) => Ok(Some(a));
      if arriveAt.Err? then Resolved(db, Err(arriveAt.error))
      else
        var t := NewTicket(trip, data, operatorId, departure, arrival, departAt.value, arriveAt.value);
        Resolved(Saved(AddTicket(db, t)), Ok(Some(t.(id := db.nextId))))
  }

  /** CreateTicketFromGptData: Ok(Some(t)) when ticket t was stored, Ok(None)
      when the operator came back null, Err when a step threw. */
  function CreateTicketSpec(db: Db, trip: Trip, data: GptTicketData, env: Env): Resolved<Option<Ticket>> {
    var op := FlightOperatorService.FindOrCreateOperatorSpec(
                db, data.flightOperator, data.airlineCarrierCode, env.logoBase, env.fetchLogo);
    if op.result.Err? then Resolved(op.db, Err(op.result.error))
    else if op.result.value.None? then Resolved(op.db, Ok(None))
    else
      var dep := FindOrCreateLocationSpec(op.db, data.departureCity, data.departureCountry, env);
      if dep.result.Err? then Resolved(dep.db, Err(dep.result.error))
      else
        var arr := FindOrCreateLocationSpec(dep.db, data.arrivalCity, data.arrivalCountry, env);
        if arr.result.Err? then Resolved(arr.db, Err(arr.result.error))
        else StoreTicketSpec(arr.db, trip, data, env, op.result.value.value.id, dep.result.value, arr.result.value)
  }

  /** The state of the leg loop: the store, the destination city seen so far,
      and whether the duplicate guard has returned from the workflow. */
  datatype LoopState = LoopState(db: Db, destinationCity: string, duplicate: bool)

  /** The store after CreateTicketFromGptData has run for one leg record,
      whether it returned or threw. */
  function TicketCreation(trip: Trip, env: Env): (Db, GptTicketData) -> Db {
    (db: Db, data: GptTicketData) => CreateTicketSpec(db, trip, data, env).db
  }

  /** One iteration of the leg loop, given the store transition of the ticket
      creation. Once the guard has returned nothing more happens. An exception
      of the creation is caught: its writes stay and the loop goes on. */
  function LegStep(s: LoopState, trip: Trip, leg: Option<GptTicketData>, create: (Db, GptTicketData) -> Db): LoopState {
    if s.duplicate || leg.None? then s
    else
      var data := leg.value;
      var kind := LegFromString(data.tripLeg);
      var city := if kind == Outbound then data.arrivalCity else s.destinationCity;
      if !CanSaveTicket(s.db.tickets, kind, trip.id) then LoopState(s.db, city, true)
      else LoopState(create(s.db, data), city, false)
  }

  /** The leg loop over a whole list, from an empty destination city. */
  function LegsSpec(db: Db, trip: Trip, legs: seq<Option<GptTicketData>>, create: (Db, GptTicketData) -> Db): LoopState
    decreases |legs|
  {
    if legs == [] then LoopState(db, "", false)
    else LegStep(LegsSpec(db, trip, legs[..|legs| - 1], create), trip, legs[|legs| - 1], create)
  }

  /** SendTicketProcessingCompleteNotification: a push only when the user has a device token. */
  function NotifySpec(db: Db, trip: Trip, destinationCity: string, user: User): Db {
    if user.deviceToken.None? then db
    else AddPush(db, Push(user.deviceToken.value, destinationCity, CompletionData(trip.id)))
  }

  /** ProcessEmail. */
  function ProcessEmailSpec(db: Db, message: EmailProcessingMessage, env: Env): Resolved<EmailExit> {
    match env.base64Decode(message.base64Text)
    case None => Resolved(db, Err(InvalidBase64))
    case Some(text) =>
      if message.tripId !in db.trips then Resolved(db, Err(TripNotFound))
      else
        var trip := db.trips[message.tripId];
        if trip.arrivalLocation.None? then Resolved(db, Ok(NoArrivalLocation))
        else
          match env.extract(text, trip.arrivalLocation.value)
          case ExtractorThrew => Resolved(db, Err(ExtractorFailed))
          case ExtractedNull => Resolved(db, Ok(NoTicketData))
          case Extracted(legs) =>
            var s := LegsSpec(db, trip, legs, TicketCreation(trip, env));
            if s.duplicate then Resolved(s.db, Ok(DuplicateLeg))
            else if trip.userId !in s.db.users then Resolved(s.db, Err(UserNotFound))
            else
              var user := s.db.users[trip.userId];
              var notified := NotifySpec(s.db, trip, s.destinationCity, user);
              Resolved(Saved(PutUser(notified, user.(isSyncingTickets := false))), Ok(Completed))
  }

  /** After the guard has returned, later legs change nothing. */
  lemma {:induction false} DuplicateIsFinal(db: Db, trip: Trip, legs: seq<Option<GptTicketData>>, k: nat,
                                           create: (Db, GptTicketData) -> Db)
    requires k <= |legs|
    requires LegsSpec(db, trip, legs[..k], create).duplicate
    ensures LegsSpec(db, trip, legs, create) == LegsSpec(db, trip, legs[..k], create)
    decreases |legs| - k
  {
    if k < |legs| {
      assert legs[..|legs| - 1][..k] == legs[..k];
      DuplicateIsFinal(db, trip, legs[..|legs| - 1], k, create);
    } else {
      assert legs[..k] == legs;
    }
  }

  // ---------------------------------------------------------------------
  // The workflow over the repository
  // ---------------------------------------------------------------------

  method FindOrCreateLocation(repo: Repository, city: string, country: string, env: Env) returns (r: Result<Location>)
    modifies repo
    ensures Resolved(repo.State(), r) == FindOrCreateLocationSpec(old(repo.State()), city, country, env)
  {
    var existing := FindLocation(repo.locations, city, country);
    if existing.Some? {
      return Ok(existing.value);
    }
    var reply := env.geocode(city + " " + country);
    if reply.GeocoderThrew? {
      return Err(GeocoderFailed);
    }
    if |reply.results| == 0 || reply.results[0].None? {
      return Err(LocationNotFound);
    }
    var stored := repo.CreateLocation(reply.results[0].value);
    repo.Save();
    r := Ok(stored);
  }

  method CreateTicketFromGptData(repo: Repository, trip: Trip, data: GptTicketData, env: Env)
    returns (r: Result<Option<Ticket>>)
    modifies repo
    ensures Resolved(repo.State(), r) == CreateTicketSpec(old(repo.State()), trip, data, env)
  {
    var op := FlightOperatorService.FindOrCreateOperator(
                repo, data.flightOperator, data.airlineCarrierCode, env.logoBase, env.fetchLogo);
    if op.Err? {
      return Err(op.error);
    }
    if op.value.None? {
      return Ok(None);
    }
    var departure := FindOrCreateLocation(repo, data.departureCity, data.departureCountry, env);
    if departure.Err? {
      return Err(departure.error);
    }
    var arrival := FindOrCreateLocation(repo, data.arrivalCity, data.arrivalCountry, env);
    if arrival.Err? {
      return Err(arrival.error);
    }
    var departAt := ParseUtc(env, data.departAt);
    if departAt.Err? {
      return Err(departAt.error);
    }
    var arriveAt: Option<DateTime> := None;
    if data.arriveAt.Some? {
      var parsed := ParseUtc(env, data.arriveAt.value);
      if parsed.Err? {
        return Err(parsed.error);
      }
      arriveAt := Some(parsed.value);
    }
    var ticket := NewTicket(trip, data, op.value.value.id, departure.value, arrival.value, departAt.value, arriveAt);
    var stored := repo.CreateTicket(ticket);
    repo.Save();
    r := Ok(Some(stored));
  }

  method SendTicketProcessingCompleteNotification(repo: Repository, trip: Trip, destinationCity: string, user: User)
    modifies repo
    ensures repo.State() == NotifySpec(old(repo.State()), trip, destinationCity, user)
  {
    if user.deviceToken.None? {
      return;
    }
    repo.SendPushNotification(Push(user.deviceToken.value, destinationCity, CompletionData(trip.id)));
  }

  method ProcessEmail(repo: Repository, message: EmailProcessingMessage, env: Env) returns (r: Result<EmailExit>)
    modifies repo
    ensures Resolved(repo.State(), r) == ProcessEmailSpec(old(repo.State()), message, env)
  {
    var text := env.base64Decode(message.base64Text);
    if text.None? {
      return Err(InvalidBase64);
    }
    if message.tripId !in repo.trips {
      return Err(TripNotFound);
    }
    var trip := repo.trips[message.tripId];
    if trip.arrivalLocation.None? {
      return Ok(NoArrivalLocation);
    }
    var data := env.extract(text.value, trip.arrivalLocation.value);
    if data.ExtractorThrew? {
      return Err(ExtractorFailed);
    }
    if data.ExtractedNull? {
      return Ok(NoTicketData);
    }
    var legs := data.legs;
    ghost var start := repo.State();
    var destinationCity := "";
    var i := 0;
    while i < |legs|
      invariant 0 <= i <= |legs|
      invariant LegsSpec(start, trip, legs[..i], TicketCreation(trip, env)) == LoopState(repo.State(), destinationCity, false)
    {
      assert legs[..i + 1][..i] == legs[..i];
      var leg := legs[i];
      if leg.Some? {
        var kind := LegFromString(leg.value.tripLeg);
        if kind == Outbound {
          destinationCity := leg.value.arrivalCity;
        }
        if !CanSaveTicket(repo.tickets, kind, trip.id) {
          DuplicateIsFinal(start, trip, legs, i + 1, TicketCreation(trip, env));
          return Ok(DuplicateLeg);
        }
        var created := CreateTicketFromGptData(repo, trip, leg.value, env);
        // An exception while processing this leg is logged; the loop goes on.
      }
      i := i + 1;
    }
    assert legs[..i] == legs;
    if trip.userId !in repo.users {
      return Err(UserNotFound);
    }
    var user := repo.users[trip.userId];
    SendTicketProcessingCompleteNotification(repo, trip, destinationCity, user);
    user := user.(isSyncingTickets := false);
    repo.UpdateUser(user);
    repo.Save();
    r := Ok(Completed);
  }
}
