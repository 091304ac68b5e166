/** Properties of the ticket enrichment workflow: flight-number formatting,
    the duplicate-leg guard and the one-ticket-per-leg invariant it keeps, the
    ticket and location steps, and the ways ProcessEmail can end. */
module EmailProperties {
  import opened Base
  import opened Store
  import FlightOperatorService
  import opened EmailProcessingService

  // ---------------------------------------------------------------------
  // Flight numbers
  // ---------------------------------------------------------------------

  /** The digits of a string without digits are empty. */
  lemma {:induction false} NoDigits(s: string)
    requires forall i :: 0 <= i < |s| ==> !IsDigit(s[i])
    ensures Digits(s) == ""
  {
    if s != [] {
      NoDigits(s[1..]);
    }
  }

  lemma {:induction false} DigitsAppend(a: string, b: string)
    ensures Digits(a + b) == Digits(a) + Digits(b)
  {
    if a == [] {
      assert a + b == b;
    } else {
      assert (a + b)[1..] == a[1..] + b;
      DigitsAppend(a[1..], b);
    }
  }

  /** A carrier prefix without digits does not change the formatted number. */
  lemma CarrierPrefixIgnored(prefix: string, number: string)
    requires forall i :: 0 <= i < |prefix| ==> !IsDigit(prefix[i])
    ensures FormatFlightNumber(Some(prefix + number)) == FormatFlightNumber(Some(number))
  {
    DigitsAppend(prefix, number);
    NoDigits(prefix);
    assert Digits(prefix + number) == Digits(number);
  }

  /** The carrier letters go and one of the two leading zeros is dropped. */
  lemma FormatDropsCarrierAndOneZero()
    ensures FormatFlightNumber(Some("BA0007")) == "007"
  {
  }

  /** Only one leading zero is dropped. */
  lemma FormatDropsOnlyOneZero()
    ensures FormatFlightNumber(Some("0042")) == "042"
  {
  }

  /** Without a leading zero the digits are kept as they are. */
  lemma FormatKeepsDigitsWithoutZero()
    ensures FormatFlightNumber(Some("AA123")) == "123"
  {
  }

  /** Null and the empty string both give the empty string. */
  lemma FormatOfEmptyOrNull()
    ensures FormatFlightNumber(Some("")) == "" && FormatFlightNumber(None) == ""
  {
  }

  /** A leading zero does not change the value of a numeral. */
  lemma {:induction false} LeadingZeroValue(s: string)
    requires AllDigits(s)
    ensures AllDigits("0" + s) && DecimalValue("0" + s) == DecimalValue(s)
    decreases |s|
  {
    var z := "0" + s;
    assert forall i :: 0 <= i < |z| ==> IsDigit(z[i]) by {
      forall i | 0 <= i < |z|
        ensures IsDigit(z[i])
      {
        if i > 0 {
          assert z[i] == s[i - 1];
        }
      }
    }
    if s == [] {
      assert z[..|z| - 1] == [];
    } else {
      var init := s[..|s| - 1];
      assert z[..|z| - 1] == "0" + init;
      LeadingZeroValue(init);
    }
  }

  /** The formatted flight number denotes the same number as all its digits. */
  lemma FormatKeepsNumber(flightNumber: string)
    ensures DecimalValue(FormatFlightNumber(Some(flightNumber))) == DecimalValue(Digits(flightNumber))
  {
    var digits := Digits(flightNumber);
    var r := FormatFlightNumber(Some(flightNumber));
    if digits == "0" + r {
      LeadingZeroValue(r);
    }
  }

  // ---------------------------------------------------------------------
  // The duplicate-leg guard
  // ---------------------------------------------------------------------

  /** On a table with one ticket per (trip, leg), appending a ticket keeps that
      property exactly when CanSaveTicket allows the ticket. */
  lemma CanSaveTicketIsExactGuard(tickets: seq<Ticket>, t: Ticket)
    requires OneTicketPerLeg(tickets)
    ensures OneTicketPerLeg(tickets + [t]) <==> CanSaveTicket(tickets, t.leg, t.tripId)
  {
    var all := tickets + [t];
    if CanSaveTicket(tickets, t.leg, t.tripId) {
      forall i, j | 0 <= i < j < |all|
        ensures all[i].tripId != all[j].tripId || all[i].leg != all[j].leg
      {
        if j == |tickets| {
          assert all[i] in tickets;
        }
      }
    } else {
      var u :| u in tickets && u.tripId == t.tripId && u.leg == t.leg;
      var i :| 0 <= i < |tickets| && tickets[i] == u;
      assert all[i] == u && all[|tickets|] == t;
    }
  }

  // ---------------------------------------------------------------------
  // FindOrCreateLocation
  // ---------------------------------------------------------------------

  /** A stored location with this city and country is returned without a
      write; otherwise either nothing is written (an error) or exactly one
      location, the geocoder's first result, is stored under a new identity
      and saved. */
  lemma LocationOutcomes(db: Db, city: string, country: string, env: Env)
    requires IdsFresh(db)
    ensures var r := FindOrCreateLocationSpec(db, city, country, env);
            && (FindLocation(db.locations, city, country).Some? ==>
                  r == Resolved(db, Ok(FindLocation(db.locations, city, country).value)))
            && (r.result.Err? ==> r.db == db)
            && (r.result.Ok? ==> r.result.value in r.db.locations)
            && (r.db == db || r.db == db.(locations := db.locations + [r.result.value],
                                          nextId := db.nextId + 1, saves := db.saves + 1))
            && IdsFresh(r.db)
  {
  }

  /** When the geocoder gives no usable first result, LocationNotFound is
      raised and nothing is written. */
  lemma UnusableGeocodeFails(db: Db, city: string, country: string, env: Env)
    requires FindLocation(db.locations, city, country).None?
    requires env.geocode(city + " " + country).Places?
    requires var results := env.geocode(city + " " + country).results;
             |results| == 0 || results[0].None?
    ensures FindOrCreateLocationSpec(db, city, country, env) == Resolved(db, Err(LocationNotFound))
  {
  }

  /** A usable first geocoder result is stored as a new location under the
      next identity, saved once, and returned. */
  lemma UsableGeocodeCreatesLocation(db: Db, city: string, country: string, env: Env)
    requires FindLocation(db.locations, city, country).None?
    requires env.geocode(city + " " + country).Places?
    requires var results := env.geocode(city + " " + country).results;
             |results| > 0 && results[0].Some?
    ensures var p := env.geocode(city + " " + country).results[0].value;
            var created := Location(db.nextId, p.city, p.country);
            FindOrCreateLocationSpec(db, city, country, env)
            == Resolved(db.(locations := db.locations + [created], nextId := db.nextId + 1, saves := db.saves + 1),
                        Ok(created))
  {
  }

  /** The geocoder is asked one question only, "city country": two geocoders
      that answer it alike give the same outcome. */
  lemma GeocodeQueryIsCityAndCountry(db: Db, city: string, country: string, env: Env,
                                     geocode: string -> GeocodeReply)
    requires geocode(city + " " + country) == env.geocode(city + " " + country)
    ensures FindOrCreateLocationSpec(db, city, country, env.(geocode := geocode))
            == FindOrCreateLocationSpec(db, city, country, env)
  {
  }

  // ---------------------------------------------------------------------
  // CreateTicketFromGptData
  // ---------------------------------------------------------------------

  /** The last step stores exactly one ticket, built from the leg record, the
      resolved identities and the converted timestamps, or raises and writes nothing. */
  lemma StoreTicketOutcome(db: Db, trip: Trip, data: GptTicketData, env: Env, operatorId: int,
                           departure: Location, arrival: Location)
    ensures var r := StoreTicketSpec(db, trip, data, env, operatorId, departure, arrival);
            && (r.result.Err? ==> r.db == db)
            && (r.result.Ok? ==>
                  && r.result.value.Some?
                  && var t := r.result.value.value;
                  && r.db == db.(tickets := db.tickets + [t], nextId := db.nextId + 1, saves := db.saves + 1)
                  && t.id == db.nextId && t.tripId == trip.id && t.leg == LegFromString(data.tripLeg)
                  && t.flightNumber == Some(FormatFlightNumber(data.flightNumber))
                  && t.reservationNumber == data.reservationNumber
                  && t.departureAirportCode == data.departureAirportCode
                  && t.arrivalAirportCode == data.arrivalAirportCode
                  && t.flightOperatorId == operatorId
                  && t.departureLocationId == departure.id && t.arrivalLocationId == arrival.id
                  && ConvertsToUtc(env, data.departAt)
                  && t.departAt == env.toUtc(env.parseDate(data.departAt).value)
                  && (t.arriveAt.Some? <==> data.arriveAt.Some?)
                  && (t.arriveAt.Some? ==> ConvertsToUtc(env, data.arriveAt.value)
                                           && t.arriveAt.value == env.toUtc(env.parseDate(data.arriveAt.value).value)))
  {
  }

  /** The last step raises exactly when a timestamp does not parse or its
      conversion to UTC throws: the departure time, or the arrival time when
      there is one. */
  lemma StoreTicketFailsIffDateFails(db: Db, trip: Trip, data: GptTicketData, env: Env, operatorId: int,
                                     departure: Location, arrival: Location)
    ensures StoreTicketSpec(db, trip, data, env, operatorId, departure, arrival).result.Err?
            <==> (!ConvertsToUtc(env, data.departAt)
                  || (data.arriveAt.Some? && !ConvertsToUtc(env, data.arriveAt.value)))
  {
  }

  /** A ticket is created exactly when the operator step yields an operator,
      both location steps succeed and the timestamps parse and convert. */
  lemma TicketCreatedIffStepsSucceed(db: Db, trip: Trip, data: GptTicketData, env: Env)
    ensures var op := FlightOperatorService.FindOrCreateOperatorSpec(
                        db, data.flightOperator, data.airlineCarrierCode, env.logoBase, env.fetchLogo);
            var dep := FindOrCreateLocationSpec(op.db, data.departureCity, data.departureCountry, env);
            var arr := FindOrCreateLocationSpec(dep.db, data.arrivalCity, data.arrivalCountry, env);
            var r := CreateTicketSpec(db, trip, data, env).result;
            (r.Ok? && r.value.Some?)
            <==> (&& op.result.Ok? && op.result.value.Some?
                  && dep.result.Ok? && arr.result.Ok?
                  && ConvertsToUtc(env, data.departAt)
                  && (data.arriveAt.Some? ==> ConvertsToUtc(env, data.arriveAt.value)))
  {
    var op := FlightOperatorService.FindOrCreateOperatorSpec(
                db, data.flightOperator, data.airlineCarrierCode, env.logoBase, env.fetchLogo);
    if op.result.Ok? && op.result.value.Some? {
      var dep := FindOrCreateLocationSpec(op.db, data.departureCity, data.departureCountry, env);
      if dep.result.Ok? {
        var arr := FindOrCreateLocationSpec(dep.db, data.arrivalCity, data.arrivalCountry, env);
        if arr.result.Ok? {
          StoreTicketFailsIffDateFails(arr.db, trip, data, env, op.result.value.value.id,
                                       dep.result.value, arr.result.value);
          StoreTicketOutcome(arr.db, trip, data, env, op.result.value.value.id, dep.result.value, arr.result.value);
        }
      }
    }
  }

  /** The operator step writes at most one operator and keeps identities fresh. */
  lemma OperatorStepFrame(db: Db, name: string, code: string, logoBase: string, fetch: string -> Option<string>)
    requires IdsFresh(db)
    ensures var r := FlightOperatorService.FindOrCreateOperatorSpec(db, name, code, logoBase, fetch);
            && IdsFresh(r.db) && db.nextId <= r.db.nextId
            && r.db.(operators := db.operators, nextId := db.nextId, saves := db.saves) == db
            && (r.result.Ok? && r.result.value.Some? ==> r.result.value.value in r.db.operators)
  {
  }

  /** CreateTicketFromGptData writes operators, locations and at most one
      ticket, of this trip and leg; everything else is untouched. */
  lemma CreateTicketFrame(db: Db, trip: Trip, data: GptTicketData, env: Env)
    requires IdsFresh(db)
    ensures var r := CreateTicketSpec(db, trip, data, env);
            && r.db.trips == db.trips && r.db.users == db.users && r.db.pushes == db.pushes
            && r.db.flightStatuses == db.flightStatuses
            && IdsFresh(r.db) && db.nextId <= r.db.nextId
            && (if r.result.Ok? && r.result.value.Some?
                then r.db.tickets == db.tickets + [r.result.value.value]
                     && r.result.value.value.tripId == trip.id
                     && r.result.value.value.leg == LegFromString(data.tripLeg)
                else r.db.tickets == db.tickets)
  {
    var op := FlightOperatorService.FindOrCreateOperatorSpec(
                db, data.flightOperator, data.airlineCarrierCode, env.logoBase, env.fetchLogo);
    OperatorStepFrame(db, data.flightOperator, data.airlineCarrierCode, env.logoBase, env.fetchLogo);
    if op.result.Ok? && op.result.value.Some? {
      LocationOutcomes(op.db, data.departureCity, data.departureCountry, env);
      var dep := FindOrCreateLocationSpec(op.db, data.departureCity, data.departureCountry, env);
      if dep.result.Ok? {
        LocationOutcomes(dep.db, data.arrivalCity, data.arrivalCountry, env);
        var arr := FindOrCreateLocationSpec(dep.db, data.arrivalCity, data.arrivalCountry, env);
        if arr.result.Ok? {
          StoreTicketOutcome(arr.db, trip, data, env, op.result.value.value.id, dep.result.value, arr.result.value);
        }
      }
    }
  }

  /** With fresh identities the operator step never yields null, so the
      null-operator exit of CreateTicketFromGptData is not taken. */
  lemma OperatorNeverNull(db: Db, trip: Trip, data: GptTicketData, env: Env)
    requires IdsFresh(db)
    ensures CreateTicketSpec(db, trip, data, env).result != Ok(None)
  {
    var code := data.airlineCarrierCode;
    if FindOperatorByName(db.operators, data.flightOperator).None?
       && env.fetchLogo(FlightOperatorService.LogoCandidateUrl(env.logoBase, code)).Some?
    {
      FlightOperatorService.NewOperatorCreated(db, data.flightOperator, code, env.logoBase, env.fetchLogo);
    }
    var op := FlightOperatorService.FindOrCreateOperatorSpec(db, data.flightOperator, code, env.logoBase, env.fetchLogo);
    if op.result.Ok? {
      var dep := FindOrCreateLocationSpec(op.db, data.departureCity, data.departureCountry, env);
      if dep.result.Ok? {
        var arr := FindOrCreateLocationSpec(dep.db, data.arrivalCity, data.arrivalCountry, env);
        if arr.result.Ok? {
          StoreTicketOutcome(arr.db, trip, data, env, op.result.value.value.id, dep.result.value, arr.result.value);
        }
      }
    }
  }

  /** A stored ticket carries the leg record's fields, the converted
      timestamps, and identities of an operator with the record's name and of
      two stored locations. */
  lemma CreatedTicketFields(db: Db, trip: Trip, data: GptTicketData, env: Env, t: Ticket)
    requires IdsFresh(db)
    requires CreateTicketSpec(db, trip, data, env).result == Ok(Some(t))
    ensures var r := CreateTicketSpec(db, trip, data, env);
            && r.db.tickets == db.tickets + [t]
            && (forall u :: u in db.tickets ==> u.id != t.id)
            && t.tripId == trip.id && t.leg == LegFromString(data.tripLeg)
            && t.flightNumber == Some(FormatFlightNumber(data.flightNumber))
            && t.reservationNumber == data.reservationNumber
            && t.departureAirportCode == data.departureAirportCode
            && t.arrivalAirportCode == data.arrivalAirportCode
            && ConvertsToUtc(env, data.departAt)
            && t.departAt == env.toUtc(env.parseDate(data.departAt).value)
            && (t.arriveAt.Some? <==> data.arriveAt.Some?)
            && (t.arriveAt.Some? ==> ConvertsToUtc(env, data.arriveAt.value)
                                     && t.arriveAt.value == env.toUtc(env.parseDate(data.arriveAt.value).value))
            && (exists o :: o in r.db.operators && o.id == t.flightOperatorId && o.name == data.flightOperator)
            && (exists l :: l in r.db.locations && l.id == t.departureLocationId)
            && (exists l :: l in r.db.locations && l.id == t.arrivalLocationId)
  {
    var name, code := data.flightOperator, data.airlineCarrierCode;
    CreationSteps(db, trip, data, env);
    var op := FlightOperatorService.FindOrCreateOperatorSpec(db, name, code, env.logoBase, env.fetchLogo);
    if FindOperatorByName(db.operators, name).None? {
      FlightOperatorService.NewOperatorCreated(db, name, code, env.logoBase, env.fetchLogo);
    }
    var o := op.result.value.value;
    assert o in op.db.operators && o.name == name;
    OperatorStepFrame(db, name, code, env.logoBase, env.fetchLogo);
    LocationOutcomes(op.db, data.departureCity, data.departureCountry, env);
    var dep := FindOrCreateLocationSpec(op.db, data.departureCity, data.departureCountry, env);
    LocationOutcomes(dep.db, data.arrivalCity, data.arrivalCountry, env);
    var arr := FindOrCreateLocationSpec(dep.db, data.arrivalCity, data.arrivalCountry, env);
    assert dep.result.value in arr.db.locations;
    StoreTicketOutcome(arr.db, trip, data, env, o.id, dep.result.value, arr.result.value);
    var r := StoreTicketSpec(arr.db, trip, data, env, o.id, dep.result.value, arr.result.value);
    assert o in r.db.operators;
    assert dep.result.value in r.db.locations && arr.result.value in r.db.locations;
  }

  /** A created ticket went through every step: an operator and both
      locations were resolved, and the last step stored it. */
  lemma CreationSteps(db: Db, trip: Trip, data: GptTicketData, env: Env)
    requires CreateTicketSpec(db, trip, data, env).result.Ok?
    requires CreateTicketSpec(db, trip, data, env).result.value.Some?
    ensures var op := FlightOperatorService.FindOrCreateOperatorSpec(
                        db, data.flightOperator, data.airlineCarrierCode, env.logoBase, env.fetchLogo);
            && op.result.Ok? && op.result.value.Some?
            && var dep := FindOrCreateLocationSpec(op.db, data.departureCity, data.departureCountry, env);
            && dep.result.Ok?
            && var arr := FindOrCreateLocationSpec(dep.db, data.arrivalCity, data.arrivalCountry, env);
            && arr.result.Ok?
            && CreateTicketSpec(db, trip, data, env)
               == StoreTicketSpec(arr.db, trip, data, env, op.result.value.value.id, dep.result.value, arr.result.value)
  {
  }

  // ---------------------------------------------------------------------
  // The leg loop
  // ---------------------------------------------------------------------

  /** What the leg loop keeps, relative to the store it started from: fresh
      identities, one ticket per (trip, leg), the same trips, users and pushes,
      and the old tickets followed only by tickets of this trip. */
  ghost predicate LoopKeeps(start: Db, trip: Trip, db: Db) {
    && IdsFresh(db) && OneTicketPerLeg(db.tickets)
    && db.trips == start.trips && db.users == start.users && db.pushes == start.pushes
    && start.tickets <= db.tickets
    && (forall k :: |start.tickets| <= k < |db.tickets| ==> db.tickets[k].tripId == trip.id)
  }

  /** One iteration keeps LoopKeeps. */
  lemma LegStepKeeps(start: Db, trip: Trip, p: LoopState, leg: Option<GptTicketData>, env: Env)
    requires LoopKeeps(start, trip, p.db)
    ensures LoopKeeps(start, trip, LegStep(p, trip, leg, TicketCreation(trip, env)).db)
  {
    if !p.duplicate && leg.Some? && CanSaveTicket(p.db.tickets, LegFromString(leg.value.tripLeg), trip.id) {
      CreateTicketFrame(p.db, trip, leg.value, env);
      var c := CreateTicketSpec(p.db, trip, leg.value, env);
      if c.result.Ok? && c.result.value.Some? {
        CanSaveTicketIsExactGuard(p.db.tickets, c.result.value.value);
      }
      assert TicketCreation(trip, env)(p.db, leg.value) == c.db;
    }
  }

  /** The loop keeps identities fresh and one ticket per (trip, leg); it only
      appends tickets of this trip and touches no trip, user or push. */
  lemma {:induction false} LegsKeepInvariants(db: Db, trip: Trip, legs: seq<Option<GptTicketData>>, env: Env)
    requires IdsFresh(db) && OneTicketPerLeg(db.tickets)
    ensures LoopKeeps(db, trip, LegsSpec(db, trip, legs, TicketCreation(trip, env)).db)
    decreases |legs|
  {
    if legs != [] {
      var init := legs[..|legs| - 1];
      LegsKeepInvariants(db, trip, init, env);
      LegStepKeeps(db, trip, LegsSpec(db, trip, init, TicketCreation(trip, env)), legs[|legs| - 1], env);
    }
  }

  /** The non-null legs, in order. */
  function NonNullLegs<T>(legs: seq<Option<T>>): seq<Option<T>> {
    if legs == [] then [] else (if legs[0].Some? then [legs[0]] else []) + NonNullLegs(legs[1..])
  }

  lemma {:induction false} NonNullLegsAppend<T>(legs: seq<Option<T>>, x: Option<T>)
    ensures NonNullLegs(legs + [x]) == NonNullLegs(legs) + (if x.Some? then [x] else [])
  {
    if legs == [] {
      assert legs + [x] == [x];
      assert [x][1..] == [];
    } else {
      var tail := legs[1..];
      assert (legs + [x])[0] == legs[0];
      assert (legs + [x])[1..] == tail + [x];
      NonNullLegsAppend(tail, x);
    }
  }

  /** The loop over a list extended by one leg is one more step. */
  lemma LegsSpecSnoc(db: Db, trip: Trip, init: seq<Option<GptTicketData>>, x: Option<GptTicketData>,
                     create: (Db, GptTicketData) -> Db)
    ensures LegsSpec(db, trip, init + [x], create) == LegStep(LegsSpec(db, trip, init, create), trip, x, create)
  {
    assert (init + [x])[..|init|] == init;
  }

  /** Null legs are skipped: the loop does the same over the non-null legs alone. */
  lemma {:induction false} NullLegsSkipped(db: Db, trip: Trip, legs: seq<Option<GptTicketData>>, create: (Db, GptTicketData) -> Db)
    ensures LegsSpec(db, trip, legs, create) == LegsSpec(db, trip, NonNullLegs(legs), create)
    decreases |legs|
  {
    if legs != [] {
      var init, x := legs[..|legs| - 1], legs[|legs| - 1];
      assert legs == init + [x];
      NullLegsSkipped(db, trip, init, create);
      NonNullLegsAppend(init, x);
      LegsSpecSnoc(db, trip, init, x, create);
      if x.Some? {
        assert NonNullLegs(legs) == NonNullLegs(init) + [x];
        LegsSpecSnoc(db, trip, NonNullLegs(init), x, create);
      } else {
        assert NonNullLegs(legs) == NonNullLegs(init);
      }
    }
  }

  /** The arrival cities of the outbound legs, in order. */
  function OutboundCities(legs: seq<Option<GptTicketData>>): seq<string> {
    if legs == [] then []
    else
      (if legs[0].Some? && legs[0].value.tripLeg == "outbound" then [legs[0].value.arrivalCity] else [])
      + OutboundCities(legs[1..])
  }

  /** The destination the completion push names: the last outbound leg's arrival city, or "". */
  function LastOutboundCity(legs: seq<Option<GptTicketData>>): string {
    var cities := OutboundCities(legs);
    if cities == [] then "" else cities[|cities| - 1]
  }

  lemma {:induction false} OutboundCitiesAppend(legs: seq<Option<GptTicketData>>, x: Option<GptTicketData>)
    ensures OutboundCities(legs + [x]) == OutboundCities(legs)
              + (if x.Some? && x.value.tripLeg == "outbound" then [x.value.arrivalCity] else [])
  {
    if legs == [] {
      assert legs + [x] == [x];
      assert [x][1..] == [];
    } else {
      var tail := legs[1..];
      assert (legs + [x])[0] == legs[0];
      assert (legs + [x])[1..] == tail + [x];
      OutboundCitiesAppend(tail, x);
    }
  }

  /** When the loop runs to the end, its destination city is that of the last outbound leg. */
  lemma {:induction false} DestinationIsLastOutbound(db: Db, trip: Trip, legs: seq<Option<GptTicketData>>, create: (Db, GptTicketData) -> Db)
    requires !LegsSpec(db, trip, legs, create).duplicate
    ensures LegsSpec(db, trip, legs, create).destinationCity == LastOutboundCity(legs)
    decreases |legs|
  {
    if legs != [] {
      var init, x := legs[..|legs| - 1], legs[|legs| - 1];
      assert legs == init + [x];
      DestinationIsLastOutbound(db, trip, init, create);
      OutboundCitiesAppend(init, x);
    }
  }

  /** The guard fails at leg k: it is present, and the table as the loop left
      it before k already has a ticket of this trip and leg. */
  ghost predicate GuardFailsAt(db: Db, trip: Trip, legs: seq<Option<GptTicketData>>, k: int, create: (Db, GptTicketData) -> Db) {
    && 0 <= k < |legs| && legs[k].Some?
    && !CanSaveTicket(LegsSpec(db, trip, legs[..k], create).db.tickets, LegFromString(legs[k].value.tripLeg), trip.id)
  }

  /** The loop returns from the workflow exactly when the guard fails at some
      leg; a leg whose processing throws never stops it. */
  lemma {:induction false} DuplicateIffGuardFails(db: Db, trip: Trip, legs: seq<Option<GptTicketData>>, create: (Db, GptTicketData) -> Db)
    ensures LegsSpec(db, trip, legs, create).duplicate <==> exists k :: GuardFailsAt(db, trip, legs, k, create)
    decreases |legs|
  {
    if legs != [] {
      var n := |legs| - 1;
      var init := legs[..n];
      DuplicateIffGuardFails(db, trip, init, create);
      forall k | 0 <= k < n
        ensures GuardFailsAt(db, trip, legs, k, create) <==> GuardFailsAt(db, trip, init, k, create)
      {
        assert legs[..k] == init[..k];
      }
      if LegsSpec(db, trip, legs, create).duplicate && !LegsSpec(db, trip, init, create).duplicate {
        assert GuardFailsAt(db, trip, legs, n, create);
      }
    }
  }

  // ---------------------------------------------------------------------
  // ProcessEmail
  // ---------------------------------------------------------------------

  /** The exits before the leg loop write nothing. */
  lemma ExitsBeforeLoop(db: Db, message: EmailProcessingMessage, env: Env)
    ensures var r := ProcessEmailSpec(db, message, env);
            var text := env.base64Decode(message.base64Text);
            && (text.None? ==> r == Resolved(db, Err(InvalidBase64)))
            && (text.Some? && message.tripId !in db.trips ==> r == Resolved(db, Err(TripNotFound)))
            && (text.Some? && message.tripId in db.trips && db.trips[message.tripId].arrivalLocation.None? ==>
                  r == Resolved(db, Ok(NoArrivalLocation)))
            && (text.Some? && message.tripId in db.trips && db.trips[message.tripId].arrivalLocation.Some? ==>
                  var reply := env.extract(text.value, db.trips[message.tripId].arrivalLocation.value);
                  && (reply.ExtractorThrew? ==> r == Resolved(db, Err(ExtractorFailed)))
                  && (reply.ExtractedNull? ==> r == Resolved(db, Ok(NoTicketData))))
  {
  }

  /** The legs ProcessEmail loops over, when it reaches the loop. */
  ghost predicate ReachesLoop(db: Db, message: EmailProcessingMessage, env: Env, legs: seq<Option<GptTicketData>>) {
    && env.base64Decode(message.base64Text).Some?
    && message.tripId in db.trips
    && db.trips[message.tripId].arrivalLocation.Some?
    && env.extract(env.base64Decode(message.base64Text).value, db.trips[message.tripId].arrivalLocation.value)
       == Extracted(legs)
  }

  /** A first leg that is already stored for this trip ends the workflow at
      once: nothing is written, the user keeps its syncing flag, and no push is sent. */
  lemma DuplicateFirstLegChangesNothing(db: Db, message: EmailProcessingMessage, env: Env,
                                        legs: seq<Option<GptTicketData>>)
    requires ReachesLoop(db, message, env, legs)
    requires |legs| > 0 && legs[0].Some?
    requires !CanSaveTicket(db.tickets, LegFromString(legs[0].value.tripLeg), db.trips[message.tripId].id)
    ensures ProcessEmailSpec(db, message, env) == Resolved(db, Ok(DuplicateLeg))
  {
    var trip := db.trips[message.tripId];
    assert legs[..1][..0] == [];
    DuplicateIsFinal(db, trip, legs, 1, TicketCreation(trip, env));
  }

  /** A duplicate leg returns before the completion: the users and the pushes
      are as they were, and the tickets stored before the duplicate remain. */
  lemma DuplicateSkipsCompletion(db: Db, message: EmailProcessingMessage, env: Env)
    requires IdsFresh(db) && OneTicketPerLeg(db.tickets)
    requires ProcessEmailSpec(db, message, env).result == Ok(DuplicateLeg)
    ensures var r := ProcessEmailSpec(db, message, env);
            r.db.users == db.users && r.db.pushes == db.pushes && db.tickets <= r.db.tickets
  {
    var text := env.base64Decode(message.base64Text).value;
    var trip := db.trips[message.tripId];
    LegsKeepInvariants(db, trip, env.extract(text, trip.arrivalLocation.value).legs, env);
  }

  /** Every run keeps identities fresh and at most one ticket per (trip, leg),
      so a redelivered message stores no second ticket for a leg. */
  lemma ProcessEmailKeepsInvariants(db: Db, message: EmailProcessingMessage, env: Env)
    requires IdsFresh(db) && OneTicketPerLeg(db.tickets)
    ensures var r := ProcessEmailSpec(db, message, env);
            IdsFresh(r.db) && OneTicketPerLeg(r.db.tickets) && r.db.trips == db.trips
  {
    var text := env.base64Decode(message.base64Text);
    if text.Some? && message.tripId in db.trips && db.trips[message.tripId].arrivalLocation.Some? {
      var trip := db.trips[message.tripId];
      var reply := env.extract(text.value, trip.arrivalLocation.value);
      if reply.Extracted? {
        LegsKeepInvariants(db, trip, reply.legs, env);
      }
    }
  }

  /** A run that gets through every leg sends the completion push to a user
      with a device token, naming the last outbound destination, clears the
      user's syncing flag and saves once; a missing user is an error raised
      after the tickets were stored. */
  lemma CompletedRun(db: Db, message: EmailProcessingMessage, env: Env, legs: seq<Option<GptTicketData>>)
    requires IdsFresh(db) && OneTicketPerLeg(db.tickets)
    requires ReachesLoop(db, message, env, legs)
    requires !LegsSpec(db, db.trips[message.tripId], legs, TicketCreation(db.trips[message.tripId], env)).duplicate
    ensures var trip := db.trips[message.tripId];
            var s := LegsSpec(db, trip, legs, TicketCreation(trip, env));
            var r := ProcessEmailSpec(db, message, env);
            if trip.userId in db.users then
              var user := db.users[trip.userId];
              && r.result == Ok(Completed)
              && r.db.tickets == s.db.tickets
              && r.db.users == db.users[user.id := user.(isSyncingTickets := false)]
              && r.db.pushes == db.pushes
                   + (if user.deviceToken.Some?
                      then [Push(user.deviceToken.value, LastOutboundCity(legs), CompletionData(trip.id))]
                      else [])
              && r.db.saves == s.db.saves + 1
            else
              r == Resolved(s.db, Err(UserNotFound)) && r.db.users == db.users && r.db.pushes == db.pushes
  {
    var trip := db.trips[message.tripId];
    LegsKeepInvariants(db, trip, legs, env);
    DestinationIsLastOutbound(db, trip, legs, TicketCreation(trip, env));
  }
  /** With users stored under their own identities, a completed run clears
      the syncing flag of the trip's user and keeps users keyed by identity. */
  lemma CompletionClearsSyncingFlag(db: Db, message: EmailProcessingMessage, env: Env,
                                    legs: seq<Option<GptTicketData>>)
    requires IdsFresh(db) && OneTicketPerLeg(db.tickets) && UsersKeyedById(db.users)
    requires ReachesLoop(db, message, env, legs)
    requires !LegsSpec(db, db.trips[message.tripId], legs, TicketCreation(db.trips[message.tripId], env)).duplicate
    requires db.trips[message.tripId].userId in db.users
    ensures var userId := db.trips[message.tripId].userId;
            var r := ProcessEmailSpec(db, message, env);
            && r.result == Ok(Completed)
            && userId in r.db.users && !r.db.users[userId].isSyncingTickets
            && r.db.users[userId] == db.users[userId].(isSyncingTickets := false)
            && UsersKeyedById(r.db.users)
  {
    CompletedRun(db, message, env, legs);
  }

  /** With trips stored under their own identities, a run only appends
      tickets of the message's trip, and its push names that trip. */
  lemma RunStaysOnMessageTrip(db: Db, message: EmailProcessingMessage, env: Env)
    requires IdsFresh(db) && OneTicketPerLeg(db.tickets) && TripsKeyedById(db.trips)
    ensures var r := ProcessEmailSpec(db, message, env).db;
            && db.tickets <= r.tickets && db.pushes <= r.pushes
            && (forall k :: |db.tickets| <= k < |r.tickets| ==> r.tickets[k].tripId == message.tripId)
            && (forall k :: |db.pushes| <= k < |r.pushes| ==> r.pushes[k].data == CompletionData(message.tripId))
  {
    var text := env.base64Decode(message.base64Text);
    if text.Some? && message.tripId in db.trips && db.trips[message.tripId].arrivalLocation.Some? {
      var trip := db.trips[message.tripId];
      var reply := env.extract(text.value, trip.arrivalLocation.value);
      if reply.Extracted? {
        LegsKeepInvariants(db, trip, reply.legs, env);
      }
    }
  }
}
