/** The flight-status provider's record and the stored snapshot, and the pure
    structural transform between them (FlightStatusMapper). Nullable reference
    fields of either side are `Option`s; a nullable string is `Text`. Time-zone
    conversion to UTC is the uninterpreted parameter `toUtc`; `convertible`
    says which times it accepts (it throws on an invalid local time). */
module FlightStatusMapper {
  import opened Base

  type Text = Option<string>

  // ---------------------------------------------------------------------
  // The provider's side
  // ---------------------------------------------------------------------

  datatype ApiCarrier = ApiCarrier(
    fs: Text, iata: Text, icao: Text, name: Text, phoneNumber: Text,
    active: bool, category: Text)

  datatype ApiAirport = ApiAirport(
    iata: Text, icao: Text, faa: Text, name: Text, street1: Text, street2: Text,
    city: Text, district: Text, stateCode: Text, postalCode: Text,
    countryCode: Text, countryName: Text, regionName: Text,
    timeZoneRegionName: Text, weatherZone: Text, localTime: Text,
    utcOffsetHours: real, latitude: real, longitude: real, elevationFeet: real,
    classification: int, active: bool, delayIndexUrl: Text, weatherUrl: Text)

  datatype DateUtcAndLocal = DateUtcAndLocal(dateLocal: Option<DateTime>, dateUtc: Option<DateTime>)

  datatype ApiSchedule = ApiSchedule(flightType: Text, serviceClasses: Text, restrictions: Text)

  datatype ApiOperationalTimes = ApiOperationalTimes(
    publishedDeparture: Option<DateUtcAndLocal>,
    publishedArrival: Option<DateUtcAndLocal>,
    scheduledGateDeparture: Option<DateUtcAndLocal>,
    scheduledRunwayDeparture: Option<DateUtcAndLocal>,
    estimatedGateDeparture: Option<DateUtcAndLocal>,
    actualGateDeparture: Option<DateUtcAndLocal>,
    flightPlanPlannedDeparture: Option<DateUtcAndLocal>,
    estimatedRunwayDeparture: Option<DateUtcAndLocal>,
    actualRunwayDeparture: Option<DateUtcAndLocal>,
    scheduledRunwayArrival: Option<DateUtcAndLocal>,
    scheduledGateArrival: Option<DateUtcAndLocal>,
    estimatedGateArrival: Option<DateUtcAndLocal>,
    actualGateArrival: Option<DateUtcAndLocal>,
    flightPlanPlannedArrival: Option<DateUtcAndLocal>,
    estimatedRunwayArrival: Option<DateUtcAndLocal>,
    actualRunwayArrival: Option<DateUtcAndLocal>)

  datatype ApiDelays = ApiDelays(
    departureGateDelayMinutes: Option<int>, departureRunwayDelayMinutes: Option<int>,
    arrivalGateDelayMinutes: Option<int>, arrivalRunwayDelayMinutes: Option<int>)

  datatype ApiFlightDurations = ApiFlightDurations(
    scheduledBlockMinutes: Option<int>, blockMinutes: Option<int>,
    scheduledAirMinutes: Option<int>, airMinutes: Option<int>,
    scheduledTaxiOutMinutes: Option<int>, taxiOutMinutes: Option<int>,
    scheduledTaxiInMinutes: Option<int>, taxiInMinutes: Option<int>)

  datatype ApiAirportResources = ApiAirportResources(
    departureTerminal: Text, departureGate: Text, arrivalTerminal: Text,
    arrivalGate: Text, baggage: Text)

  datatype ApiFlightStatus = ApiFlightStatus(
    flightId: int,
    carrier: Option<ApiCarrier>,
    carrierFsCode: Text,
    flightNumber: Text,
    departureAirport: Option<ApiAirport>,
    departureAirportFsCode: Text,
    arrivalAirport: Option<ApiAirport>,
    arrivalAirportFsCode: Text,
    divertedAirport: Option<ApiAirport>,
    divertedAirportFsCode: Text,
    departureDate: Option<DateUtcAndLocal>,
    arrivalDate: Option<DateUtcAndLocal>,
    status: Text,
    schedule: Option<ApiSchedule>,
    operationalTimes: Option<ApiOperationalTimes>,
    delays: Option<ApiDelays>,
    flightDurations: Option<ApiFlightDurations>,
    airportResources: Option<ApiAirportResources>,
    lastDataAcquiredDate: Option<DateTime>)

  // ---------------------------------------------------------------------
  // The stored snapshot
  // ---------------------------------------------------------------------

  datatype Airline = Airline(
    fs: Text, iata: Text, icao: Text, name: Text, phoneNumber: Text,
    active: bool, category: Text)

  datatype Airport = Airport(
    iata: Text, icao: Text, faa: Text, name: Text, street1: Text, street2: Text,
    city: Text, district: Text, stateCode: Text, postalCode: Text,
    countryCode: Text, countryName: Text, regionName: Text,
    timeZoneRegionName: Text, weatherZone: Text, localTime: Text,
    utcOffsetHours: real, latitude: real, longitude: real, elevationFeet: real,
    classification: int, active: bool, delayIndexUrl: Text, weatherUrl: Text)

  datatype LocalisedDate = LocalisedDate(local: Option<DateTime>, utc: Option<DateTime>)

  datatype FlightSchedule = FlightSchedule(flightType: Text, serviceClasses: Text, restrictions: Text)

  datatype FlightOperationalTimes = FlightOperationalTimes(
    publishedDeparture: LocalisedDate,
    publishedArrival: LocalisedDate,
    scheduledGateDeparture: LocalisedDate,
    scheduledRunwayDeparture: LocalisedDate,
    estimatedGateDeparture: LocalisedDate,
    actualGateDeparture: LocalisedDate,
    flightPlanPlannedDeparture: LocalisedDate,
    estimatedRunwayDeparture: LocalisedDate,
    actualRunwayDeparture: LocalisedDate,
    scheduledRunwayArrival: LocalisedDate,
    scheduledGateArrival: LocalisedDate,
    estimatedGateArrival: LocalisedDate,
    actualGateArrival: LocalisedDate,
    flightPlanPlannedArrival: LocalisedDate,
    estimatedRunwayArrival: LocalisedDate,
    actualRunwayArrival: LocalisedDate)

  datatype FlightDelays = FlightDelays(
    departureGateDelayMinutes: Option<int>, departureRunwayDelayMinutes: Option<int>,
    arrivalGateDelayMinutes: Option<int>, arrivalRunwayDelayMinutes: Option<int>)

  datatype FlightDurations = FlightDurations(
    scheduledBlockMinutes: Option<int>, blockMinutes: Option<int>,
    scheduledAirMinutes: Option<int>, airMinutes: Option<int>,
    scheduledTaxiOutMinutes: Option<int>, taxiOutMinutes: Option<int>,
    scheduledTaxiInMinutes: Option<int>, taxiInMinutes: Option<int>)

  datatype AirportResources = AirportResources(
    departureTerminal: Text, departureGate: Text, arrivalTerminal: Text,
    arrivalGate: Text, baggage: Text)

  datatype FlightStatus = FlightStatus(
    flightId: int,
    airline: Option<Airline>,
    carrierFsCode: Text,
    flightNumber: Text,
    departureAirport: Option<Airport>,
    departureAirportFsCode: Text,
    arrivalAirport: Option<Airport>,
    arrivalAirportFsCode: Text,
    divertedAirport: Option<Airport>,
    divertedAirportFsCode: Text,
    departureDate: Option<LocalisedDate>,
    arrivalDate: Option<LocalisedDate>,
    status: Text,
    schedule: Option<FlightSchedule>,
    operationalTimes: FlightOperationalTimes,
    delays: Option<FlightDelays>,
    durations: Option<FlightDurations>,
    airportResources: Option<AirportResources>,
    lastDataAcquiredDate: Option<DateTime>,
    ticketId: int)

  // ---------------------------------------------------------------------
  // Reading a stored sub-record back in the provider's shape. These are the
  // reference the mapping is checked against: mapping then reading back
  // gives the provider's record again, so no field is dropped or swapped.
  // ---------------------------------------------------------------------

  function CarrierOf(a: Airline): ApiCarrier {
    ApiCarrier(a.fs, a.iata, a.icao, a.name, a.phoneNumber, a.active, a.category)
  }

  function ApiAirportOf(a: Airport): ApiAirport {
    ApiAirport(a.iata, a.icao, a.faa, a.name, a.street1, a.street2, a.city, a.district,
      a.stateCode, a.postalCode, a.countryCode, a.countryName, a.regionName,
      a.timeZoneRegionName, a.weatherZone, a.localTime, a.utcOffsetHours, a.latitude,
      a.longitude, a.elevationFeet, a.classification, a.active, a.delayIndexUrl, a.weatherUrl)
  }

  function ScheduleOf(s: FlightSchedule): ApiSchedule {
    ApiSchedule(s.flightType, s.serviceClasses, s.restrictions)
  }

  function DelaysOf(d: FlightDelays): ApiDelays {
    ApiDelays(d.departureGateDelayMinutes, d.departureRunwayDelayMinutes,
      d.arrivalGateDelayMinutes, d.arrivalRunwayDelayMinutes)
  }

  function DurationsOf(d: FlightDurations): ApiFlightDurations {
    ApiFlightDurations(d.scheduledBlockMinutes, d.blockMinutes, d.scheduledAirMinutes,
      d.airMinutes, d.scheduledTaxiOutMinutes, d.taxiOutMinutes,
      d.scheduledTaxiInMinutes, d.taxiInMinutes)
  }

  function ResourcesOf(r: AirportResources): ApiAirportResources {
    ApiAirportResources(r.departureTerminal, r.departureGate, r.arrivalTerminal,
      r.arrivalGate, r.baggage)
  }

  /** The sixteen named operational timestamps. */
  datatype TimeSlot =
    | PublishedDeparture | PublishedArrival
    | ScheduledGateDeparture | ScheduledRunwayDeparture
    | EstimatedGateDeparture | ActualGateDeparture
    | FlightPlanPlannedDeparture | EstimatedRunwayDeparture | ActualRunwayDeparture
    | ScheduledRunwayArrival | ScheduledGateArrival
    | EstimatedGateArrival | ActualGateArrival
    | FlightPlanPlannedArrival | EstimatedRunwayArrival | ActualRunwayArrival

  /** The provider's timestamp pair of the given name. */
  function ApiTime(t: ApiOperationalTimes, slot: TimeSlot): Option<DateUtcAndLocal> {
    match slot
    case PublishedDeparture => t.publishedDeparture
    case PublishedArrival => t.publishedArrival
    case ScheduledGateDeparture => t.scheduledGateDeparture
    case ScheduledRunwayDeparture => t.scheduledRunwayDeparture
    case EstimatedGateDeparture => t.estimatedGateDeparture
    case ActualGateDeparture => t.actualGateDeparture
    case FlightPlanPlannedDeparture => t.flightPlanPlannedDeparture
    case EstimatedRunwayDeparture => t.estimatedRunwayDeparture
    case ActualRunwayDeparture => t.actualRunwayDeparture
    case ScheduledRunwayArrival => t.scheduledRunwayArrival
    case ScheduledGateArrival => t.scheduledGateArrival
    case EstimatedGateArrival => t.estimatedGateArrival
    case ActualGateArrival => t.actualGateArrival
    case FlightPlanPlannedArrival => t.flightPlanPlannedArrival
    case EstimatedRunwayArrival => t.estimatedRunwayArrival
    case ActualRunwayArrival => t.actualRunwayArrival
  }

  /** The stored timestamp pair of the given name. */
  function StoredTime(t: FlightOperationalTimes, slot: TimeSlot): LocalisedDate {
    match slot
    case PublishedDeparture => t.publishedDeparture
    case PublishedArrival => t.publishedArrival
    case ScheduledGateDeparture => t.scheduledGateDeparture
    case ScheduledRunwayDeparture => t.scheduledRunwayDeparture
    case EstimatedGateDeparture => t.estimatedGateDeparture
    case ActualGateDeparture => t.actualGateDeparture
    case FlightPlanPlannedDeparture => t.flightPlanPlannedDeparture
    case EstimatedRunwayDeparture => t.estimatedRunwayDeparture
    case ActualRunwayDeparture => t.actualRunwayDeparture
    case ScheduledRunwayArrival => t.scheduledRunwayArrival
    case ScheduledGateArrival => t.scheduledGateArrival
    case EstimatedGateArrival => t.estimatedGateArrival
    case ActualGateArrival => t.actualGateArrival
    case FlightPlanPlannedArrival => t.flightPlanPlannedArrival
    case EstimatedRunwayArrival => t.estimatedRunwayArrival
    case ActualRunwayArrival => t.actualRunwayArrival
  }

  // ---------------------------------------------------------------------
  // The mapping
  // ---------------------------------------------------------------------

  /** A possibly-null provider timestamp pair becomes a stored pair that is
      always present; each half is converted when present and absent otherwise. */
  function MapToLocalisedDate(date: Option<DateUtcAndLocal>, toUtc: DateTime -> DateTime): (r: LocalisedDate)
    ensures r.local.Some? <==> date.Some? && date.value.dateLocal.Some?
    ensures r.utc.Some? <==> date.Some? && date.value.dateUtc.Some?
    ensures r.local.Some? ==> r.local.value == toUtc(date.value.dateLocal.value)
    ensures r.utc.Some? ==> r.utc.value == toUtc(date.value.dateUtc.value)
  {
    LocalisedDate(
      if date.None? || date.value.dateLocal.None? then None else Some(toUtc(date.value.dateLocal.value)),
      if date.None? || date.value.dateUtc.None? then None else Some(toUtc(date.value.dateUtc.value)))
  }

  /** Every airport field is carried over unchanged. */
  function MapToAirport(a: ApiAirport): (r: Airport)
    ensures ApiAirportOf(r) == a
  {
    Airport(a.iata, a.icao, a.faa, a.name, a.street1, a.street2, a.city, a.district,
      a.stateCode, a.postalCode, a.countryCode, a.countryName, a.regionName,
      a.timeZoneRegionName, a.weatherZone, a.localTime, a.utcOffsetHours, a.latitude,
      a.longitude, a.elevationFeet, a.classification, a.active, a.delayIndexUrl, a.weatherUrl)
  }

  /** Every carrier field is carried over unchanged. */
  function MapToAirline(c: ApiCarrier): (r: Airline)
    ensures CarrierOf(r) == c
  {
    Airline(c.fs, c.iata, c.icao, c.name, c.phoneNumber, c.active, c.category)
  }

  function MapToSchedule(s: ApiSchedule): (r: FlightSchedule)
    ensures ScheduleOf(r) == s
  {
    FlightSchedule(s.flightType, s.serviceClasses, s.restrictions)
  }

  function MapToDelays(d: ApiDelays): (r: FlightDelays)
    ensures DelaysOf(r) == d
  {
    FlightDelays(d.departureGateDelayMinutes, d.departureRunwayDelayMinutes,
      d.arrivalGateDelayMinutes, d.arrivalRunwayDelayMinutes)
  }

  function MapToDurations(d: ApiFlightDurations): (r: FlightDurations)
    ensures DurationsOf(r) == d
  {
    FlightDurations(d.scheduledBlockMinutes, d.blockMinutes, d.scheduledAirMinutes,
      d.airMinutes, d.scheduledTaxiOutMinutes, d.taxiOutMinutes,
      d.scheduledTaxiInMinutes, d.taxiInMinutes)
  }

  function MapToResources(r: ApiAirportResources): (m: AirportResources)
    ensures ResourcesOf(m) == r
  {
    AirportResources(r.departureTerminal, r.departureGate, r.arrivalTerminal,
      r.arrivalGate, r.baggage)
  }

  /** All sixteen stored timestamps, each the localised form of the provider
      timestamp of the same name. */
  function MapToOperationalTimes(t: ApiOperationalTimes, toUtc: DateTime -> DateTime): (r: FlightOperationalTimes)
    ensures forall slot :: StoredTime(r, slot) == MapToLocalisedDate(ApiTime(t, slot), toUtc)
  {
    FlightOperationalTimes(
      MapToLocalisedDate(t.publishedDeparture, toUtc),
      MapToLocalisedDate(t.publishedArrival, toUtc),
      MapToLocalisedDate(t.scheduledGateDeparture, toUtc),
      MapToLocalisedDate(t.scheduledRunwayDeparture, toUtc),
      MapToLocalisedDate(t.estimatedGateDeparture, toUtc),
      MapToLocalisedDate(t.actualGateDeparture, toUtc),
      MapToLocalisedDate(t.flightPlanPlannedDeparture, toUtc),
      MapToLocalisedDate(t.estimatedRunwayDeparture, toUtc),
      MapToLocalisedDate(t.actualRunwayDeparture, toUtc),
      MapToLocalisedDate(t.scheduledRunwayArrival, toUtc),
      MapToLocalisedDate(t.scheduledGateArrival, toUtc),
      MapToLocalisedDate(t.estimatedGateArrival, toUtc),
      MapToLocalisedDate(t.actualGateArrival, toUtc),
      MapToLocalisedDate(t.flightPlanPlannedArrival, toUtc),
      MapToLocalisedDate(t.estimatedRunwayArrival, toUtc),
      MapToLocalisedDate(t.actualRunwayArrival, toUtc))
  }

  /** The null-propagating conditional `x == null ? null : f(x)`. */
  function MapOptional<A, B>(x: Option<A>, f: A -> B): (r: Option<B>)
    ensures r.Some? <==> x.Some?
    ensures r.Some? ==> r.value == f(x.value)
  {
    if x.None? then None else Some(f(x.value))
  }

  /** A null timestamp pair stays null; a present one is localised. */
  function MapOptionalDate(d: Option<DateUtcAndLocal>, toUtc: DateTime -> DateTime): (r: Option<LocalisedDate>)
    ensures r.Some? <==> d.Some?
    ensures r.Some? ==> r.value == MapToLocalisedDate(d, toUtc)
  {
    if d.None? then None else Some(MapToLocalisedDate(d, toUtc))
  }

  /** The stored snapshot of one provider record. The provider's
      OperationalTimes is dereferenced without a null test, so it must be present. */
  function MapToDbFlightStatus(s: ApiFlightStatus, ticketId: int, toUtc: DateTime -> DateTime): (r: FlightStatus)
    requires s.operationalTimes.Some?
    ensures r.ticketId == ticketId
    ensures r.flightId == s.flightId && r.carrierFsCode == s.carrierFsCode
    ensures r.flightNumber == s.flightNumber && r.status == s.status
    ensures r.departureAirportFsCode == s.departureAirportFsCode
    ensures r.arrivalAirportFsCode == s.arrivalAirportFsCode
    ensures r.divertedAirportFsCode == s.divertedAirportFsCode
    ensures r.airline.Some? <==> s.carrier.Some?
    ensures r.airline.Some? ==> CarrierOf(r.airline.value) == s.carrier.value
    ensures r.departureAirport.Some? <==> s.departureAirport.Some?
    ensures r.departureAirport.Some? ==> ApiAirportOf(r.departureAirport.value) == s.departureAirport.value
    ensures r.arrivalAirport.Some? <==> s.arrivalAirport.Some?
    ensures r.arrivalAirport.Some? ==> ApiAirportOf(r.arrivalAirport.value) == s.arrivalAirport.value
    ensures r.divertedAirport.Some? <==> s.divertedAirport.Some?
    ensures r.divertedAirport.Some? ==> ApiAirportOf(r.divertedAirport.value) == s.divertedAirport.value
    ensures r.departureDate.Some? <==> s.departureDate.Some?
    ensures r.departureDate.Some? ==> r.departureDate.value == MapToLocalisedDate(s.departureDate, toUtc)
    ensures r.arrivalDate.Some? <==> s.arrivalDate.Some?
    ensures r.arrivalDate.Some? ==> r.arrivalDate.value == MapToLocalisedDate(s.arrivalDate, toUtc)
    ensures r.schedule.Some? <==> s.schedule.Some?
    ensures r.schedule.Some? ==> ScheduleOf(r.schedule.value) == s.schedule.value
    ensures r.delays.Some? <==> s.delays.Some?
    ensures r.delays.Some? ==> DelaysOf(r.delays.value) == s.delays.value
    ensures r.durations.Some? <==> s.flightDurations.Some?
    ensures r.durations.Some? ==> DurationsOf(r.durations.value) == s.flightDurations.value
    ensures r.airportResources.Some? <==> s.airportResources.Some?
    ensures r.airportResources.Some? ==> ResourcesOf(r.airportResources.value) == s.airportResources.value
    ensures forall slot :: StoredTime(r.operationalTimes, slot)
                             == MapToLocalisedDate(ApiTime(s.operationalTimes.value, slot), toUtc)
    ensures r.lastDataAcquiredDate.Some? <==> s.lastDataAcquiredDate.Some?
    ensures r.lastDataAcquiredDate.Some? ==> r.lastDataAcquiredDate.value == toUtc(s.lastDataAcquiredDate.value)
  {
    FlightStatus(
      s.flightId, MapOptional(s.carrier, MapToAirline), s.carrierFsCode, s.flightNumber,
      MapOptional(s.departureAirport, MapToAirport), s.departureAirportFsCode,
      MapOptional(s.arrivalAirport, MapToAirport), s.arrivalAirportFsCode,
      MapOptional(s.divertedAirport, MapToAirport), s.divertedAirportFsCode,
      MapOptionalDate(s.departureDate, toUtc), MapOptionalDate(s.arrivalDate, toUtc),
      s.status,
      MapOptional(s.schedule, MapToSchedule),
      MapToOperationalTimes(s.operationalTimes.value, toUtc),
      MapOptional(s.delays, MapToDelays),
      MapOptional(s.flightDurations, MapToDurations),
      MapOptional(s.airportResources, MapToResources),
      MapOptional(s.lastDataAcquiredDate, toUtc),
      ticketId)
  }

  /** Two provider records that map to the same snapshot agree on every field
      the mapper passes through without time conversion: nothing is lost. */
  lemma MappingKeepsUnconvertedFields(s1: ApiFlightStatus, s2: ApiFlightStatus, ticketId: int, toUtc: DateTime -> DateTime)
    requires s1.operationalTimes.Some? && s2.operationalTimes.Some?
    requires MapToDbFlightStatus(s1, ticketId, toUtc) == MapToDbFlightStatus(s2, ticketId, toUtc)
    ensures s1.flightId == s2.flightId && s1.carrier == s2.carrier && s1.status == s2.status
    ensures s1.carrierFsCode == s2.carrierFsCode && s1.flightNumber == s2.flightNumber
    ensures s1.departureAirport == s2.departureAirport && s1.arrivalAirport == s2.arrivalAirport
    ensures s1.divertedAirport == s2.divertedAirport
    ensures s1.departureAirportFsCode == s2.departureAirportFsCode
    ensures s1.arrivalAirportFsCode == s2.arrivalAirportFsCode
    ensures s1.divertedAirportFsCode == s2.divertedAirportFsCode
    ensures s1.schedule == s2.schedule && s1.delays == s2.delays
    ensures s1.flightDurations == s2.flightDurations && s1.airportResources == s2.airportResources
  {
    var r := MapToDbFlightStatus(s1, ticketId, toUtc);
    assert s1.carrier.Some? ==> s1.carrier.value == CarrierOf(r.airline.value) == s2.carrier.value;
  }

  // ---------------------------------------------------------------------
  // The conversions the mapping performs, and how it fails
  // ---------------------------------------------------------------------

  /** The times MapToLocalisedDate converts: the local time, then the UTC
      time, each when present. */
  function LocalisedInputs(date: Option<DateUtcAndLocal>): (ds: seq<DateTime>)
    ensures forall d :: d in ds <==> date.Some? && (date.value.dateLocal == Some(d) || date.value.dateUtc == Some(d))
  {
    if date.None? then []
    else (if date.value.dateLocal.Some? then [date.value.dateLocal.value] else [])
         + (if date.value.dateUtc.Some? then [date.value.dateUtc.value] else [])
  }

  /** The slots in the order the mapper fills the operational times. */
  const Slots: seq<TimeSlot> := [
    PublishedDeparture, PublishedArrival, ScheduledGateDeparture, ScheduledRunwayDeparture,
    EstimatedGateDeparture, ActualGateDeparture, FlightPlanPlannedDeparture, EstimatedRunwayDeparture,
    ActualRunwayDeparture, ScheduledRunwayArrival, ScheduledGateArrival, EstimatedGateArrival,
    ActualGateArrival, FlightPlanPlannedArrival, EstimatedRunwayArrival, ActualRunwayArrival]

  function SlotInputs(t: ApiOperationalTimes, slots: seq<TimeSlot>): seq<DateTime> {
    if slots == [] then [] else LocalisedInputs(ApiTime(t, slots[0])) + SlotInputs(t, slots[1..])
  }

  /** The times converted before the operational times are read: those of the
      departure date, then those of the arrival date. */
  function InputsBeforeOperationalTimes(s: ApiFlightStatus): seq<DateTime> {
    LocalisedInputs(s.departureDate) + LocalisedInputs(s.arrivalDate)
  }

  /** The times converted from the operational times on: every slot's, then
      the last-acquired date. */
  function InputsFromOperationalTimes(t: ApiOperationalTimes, lastDataAcquired: Option<DateTime>): seq<DateTime> {
    SlotInputs(t, Slots) + (if lastDataAcquired.Some? then [lastDataAcquired.value] else [])
  }

  predicate AllConvertible(ds: seq<DateTime>, convertible: DateTime -> bool) {
    forall i :: 0 <= i < |ds| ==> convertible(ds[i])
  }

  /** The mapping goes through: every time it converts is accepted and the
      operational times are present. */
  predicate Mappable(s: ApiFlightStatus, convertible: DateTime -> bool) {
    && AllConvertible(InputsBeforeOperationalTimes(s), convertible)
    && s.operationalTimes.Some?
    && AllConvertible(InputsFromOperationalTimes(s.operationalTimes.value, s.lastDataAcquiredDate), convertible)
  }

  /** MapToDbFlightStatus with its exceptions: a time conversion that throws,
      or the dereference of missing operational times, in the order the
      mapper meets them. */
  function MapOrFail(s: ApiFlightStatus, ticketId: int, convertible: DateTime -> bool,
                     toUtc: DateTime -> DateTime): (r: Result<FlightStatus>)
    ensures r.Ok? <==> Mappable(s, convertible)
    ensures r.Ok? ==> r.value == MapToDbFlightStatus(s, ticketId, toUtc)
    ensures r == Err(MissingOperationalTimes)
            <==> AllConvertible(InputsBeforeOperationalTimes(s), convertible) && s.operationalTimes.None?
    ensures r.Err? ==> r.error in {MissingOperationalTimes, TimeConversionFailed}
  {
    if !AllConvertible(InputsBeforeOperationalTimes(s), convertible) then Err(TimeConversionFailed)
    else if s.operationalTimes.None? then Err(MissingOperationalTimes)
    else if !AllConvertible(InputsFromOperationalTimes(s.operationalTimes.value, s.lastDataAcquiredDate), convertible)
    then Err(TimeConversionFailed)
    else Ok(MapToDbFlightStatus(s, ticketId, toUtc))
  }

  lemma {:induction false} SlotInputsMember(t: ApiOperationalTimes, slots: seq<TimeSlot>, d: DateTime)
    ensures d in SlotInputs(t, slots) <==> exists i :: 0 <= i < |slots| && d in LocalisedInputs(ApiTime(t, slots[i]))
    decreases |slots|
  {
    if slots != [] {
      SlotInputsMember(t, slots[1..], d);
      if d in SlotInputs(t, slots[1..]) {
        var i :| 0 <= i < |slots[1..]| && d in LocalisedInputs(ApiTime(t, slots[1..][i]));
        assert slots[i + 1] == slots[1..][i];
      }
      if exists i :: 0 <= i < |slots| && d in LocalisedInputs(ApiTime(t, slots[i])) {
        var i :| 0 <= i < |slots| && d in LocalisedInputs(ApiTime(t, slots[i]));
        if i > 0 {
          assert slots[1..][i - 1] == slots[i];
        }
      }
    }
  }

  /** The conversions listed are exactly those the mapping performs: a time is
      listed when, and only when, it is the local or UTC time of the departure
      date, of the arrival date or of some slot, or the last-acquired date. */
  lemma ConvertedInputsExact(s: ApiFlightStatus, d: DateTime)
    requires s.operationalTimes.Some?
    ensures var t := s.operationalTimes.value;
            (d in InputsBeforeOperationalTimes(s) || d in InputsFromOperationalTimes(t, s.lastDataAcquiredDate))
            <==> (|| (s.departureDate.Some? && (s.departureDate.value.dateLocal == Some(d) || s.departureDate.value.dateUtc == Some(d)))
                  || (s.arrivalDate.Some? && (s.arrivalDate.value.dateLocal == Some(d) || s.arrivalDate.value.dateUtc == Some(d)))
                  || (exists slot :: ApiTime(t, slot).Some?
                                     && (ApiTime(t, slot).value.dateLocal == Some(d) || ApiTime(t, slot).value.dateUtc == Some(d)))
                  || s.lastDataAcquiredDate == Some(d))
  {
    var t := s.operationalTimes.value;
    SlotInputsMember(t, Slots, d);
    if exists slot :: ApiTime(t, slot).Some?
                      && (ApiTime(t, slot).value.dateLocal == Some(d) || ApiTime(t, slot).value.dateUtc == Some(d))
    {
      var slot :| ApiTime(t, slot).Some?
                  && (ApiTime(t, slot).value.dateLocal == Some(d) || ApiTime(t, slot).value.dateUtc == Some(d));
      var i := SlotIndex(slot);
      assert d in LocalisedInputs(ApiTime(t, Slots[i]));
    }
  }

  /** The position of each slot in Slots. */
  function SlotIndex(slot: TimeSlot): (i: nat)
    ensures i < |Slots| && Slots[i] == slot
  {
    match slot
    case PublishedDeparture => 0
    case PublishedArrival => 1
    case ScheduledGateDeparture => 2
    case ScheduledRunwayDeparture => 3
    case EstimatedGateDeparture => 4
    case ActualGateDeparture => 5
    case FlightPlanPlannedDeparture => 6
    case EstimatedRunwayDeparture => 7
    case ActualRunwayDeparture => 8
    case ScheduledRunwayArrival => 9
    case ScheduledGateArrival => 10
    case EstimatedGateArrival => 11
    case ActualGateArrival => 12
    case FlightPlanPlannedArrival => 13
    case EstimatedRunwayArrival => 14
    case ActualRunwayArrival => 15
  }
}
