# TouristarConsumer, modelled in Dafny

TouristarConsumer is a background worker. It reads messages from two broker
queues and enriches a trip-planning store with them:

- An e-mail message names a trip and carries a base-64 travel document. An
  extractor turns the document into leg records. Each leg becomes a ticket
  once its flight operator and both endpoint locations are found or created.
  When the legs are done, the trip's user gets a completion push and their
  "syncing tickets" flag is cleared.
- A flight-status message names a ticket. The service asks a flight-status
  provider about that flight and stores the first status it returns as a new
  snapshot.

Each delivery is acked when its handler completes. It is nacked, without
requeue, when the handler throws.

This project models that core and proves properties of the model:

| file | module | what it holds |
|---|---|---|
| `base.dfy` | `Base` | `Option`, `Result`, the exception kinds as `Error`, `DateTime`, ASCII digit and lower-case helpers, substring search, decimal rendering |
| `store.dfy` | `Store` | the entities, the store as the value `Db`, its queries, and each write, given twice: as a `Db` transition and as a method of the class `Repository` |
| `flight_status_mapper.dfy` | `FlightStatusMapper` | the provider's record, the stored snapshot, and the null-propagating mapping between them |
| `flight_operator_service.dfy` | `FlightOperatorService` | the logo-address decision; find-or-create of an operator |
| `email_processing_service.dfy` | `EmailProcessingService` | the pure helpers; a specification function per workflow step; the imperative workflow over a `Repository`, proved equal to those functions |
| `email_properties.dfy` | `EmailProperties` | lemmas about the e-mail workflow |
| `flight_status_service.dfy` | `FlightStatusService` | the guarded refresh, as a specification and as a method, with its lemmas |
| `consumer_service.dfy` | `ConsumerService` | the handlers' `ProcessMessage`; the channel as a class; the `Received` handler; a sequential run over deliveries; the ack/nack lemmas |

How it is built:

- Every external call is a parameter: base-64 decoding, the extractor, the
  geocoder, the logo HTTP request, `DateTime.Parse`,
  `TimeZoneInfo.ConvertTimeToUtc`, the flight-status provider, JSON
  deserialisation of the envelopes, and UTF-8 decoding.
- An exception is an `Err` carrying its kind. Writes made before an exception
  stay in the store, as they do in the source: `Resolved` pairs the new store
  with the result.
- The broker's set of unacknowledged deliveries is ghost state of
  `ConsumerService.Channel`.
- Each imperative method ensures that its final state (and its result) equal
  a specification function applied to the old state. The properties are then
  proved as lemmas about those functions.

## Model

| member | source | states |
|---|---|---|
| `Base.ToLower` | TouristarConsumer/Services/FlightOperatorService.cs:42 | the lower-cased body has the same length, and each character is the ASCII lower case of the original |
| `Base.ContainsIff` | TouristarConsumer/Services/FlightOperatorService.cs:42 | `Contains` holds exactly when the text occurs at some position |
| `Base.NatToString` | TouristarConsumer/Services/FlightStatusService.cs:61 | the numeral is non-empty, all digits, and has no leading zero |
| `Base.NatToStringRoundTrip` | TouristarConsumer/Services/FlightStatusService.cs:61 | reading the rendered year back gives the year |
| `Base.NatToStringInjective` | TouristarConsumer/Services/EmailProcessingService.cs:153 | distinct naturals render differently |
| `Base.IntToStringInjective` | TouristarConsumer/Services/EmailProcessingService.cs:153 | the trip id in the push data determines the trip id |
| `Store.TicketsForTrip` | TouristarConsumer/Services/EmailProcessingService.cs:165 | a ticket is in the result exactly when it is stored with this trip id |
| `Store.FindTicket` | TouristarConsumer/Services/FlightStatusService.cs:33 | a found ticket is stored and has this id; none is found exactly when no stored ticket has it |
| `Store.FindOperatorByName` | TouristarConsumer/Services/FlightOperatorService.cs:21 | a found operator is stored with this exact name; none is found exactly when no operator has the name |
| `Store.FindOperatorById` | TouristarConsumer/Services/FlightOperatorService.cs:34 | a found operator is stored with this id; none is found exactly when no operator has it |
| `Store.FindLocation` | TouristarConsumer/Services/EmailProcessingService.cs:172 | a found location is stored with this city and country; none is found exactly when no location matches both |
| `Store.FindAppendedOperator` | TouristarConsumer/Services/FlightOperatorService.cs:32-34 | re-reading by a fresh id just after appending finds the appended operator |
| `Store.Repository.constructor` | TouristarConsumer/Services/EmailProcessingService.cs:23 | the repository starts with the given tables |
| `Store.Repository.CreateTicket` | TouristarConsumer/Services/EmailProcessingService.cs:129 | the ticket is appended under the next identity, which is returned |
| `Store.Repository.CreateLocation` | TouristarConsumer/Services/EmailProcessingService.cs:184-187 | the geocoded place is appended as a location under the next identity, which is returned |
| `Store.Repository.CreateOperator` | TouristarConsumer/Services/FlightOperatorService.cs:32 | the operator is appended under the next identity, which is returned |
| `Store.Repository.CreateFlightStatus` | TouristarConsumer/Services/FlightStatusService.cs:73 | the snapshot is appended; earlier snapshots stay |
| `Store.Repository.UpdateUser` | TouristarConsumer/Services/EmailProcessingService.cs:83 | the user row is replaced by the given one |
| `Store.Repository.SendPushNotification` | TouristarConsumer/Services/EmailProcessingService.cs:156-161 | the push is recorded as sent |
| `Store.Repository.Save` | TouristarConsumer/Services/EmailProcessingService.cs:84 | one commit is counted; the tables are unchanged |
| `FlightStatusMapper.MapToLocalisedDate` | TouristarConsumer/Utils/FlightStatusMapper.cs:153-162 | an object is always returned; `local` is present iff the input and its `DateLocal` are, `utc` iff the input and its `DateUtc` are; each present value is the UTC conversion of its source |
| `FlightStatusMapper.MapToAirport` | TouristarConsumer/Utils/FlightStatusMapper.cs:124-151 | every airport field, including the numeric ones, is carried over unchanged |
| `FlightStatusMapper.MapToAirline` | TouristarConsumer/Utils/FlightStatusMapper.cs:10-21 | all seven carrier fields are copied unchanged |
| `FlightStatusMapper.MapToSchedule` | TouristarConsumer/Utils/FlightStatusMapper.cs:33-40 | the three schedule fields are copied unchanged |
| `FlightStatusMapper.MapToDelays` | TouristarConsumer/Utils/FlightStatusMapper.cs:62-70 | every delay field is copied unchanged |
| `FlightStatusMapper.MapToDurations` | TouristarConsumer/Utils/FlightStatusMapper.cs:72-84 | every duration field is copied unchanged |
| `FlightStatusMapper.MapToResources` | TouristarConsumer/Utils/FlightStatusMapper.cs:86-95 | every airport-resource field is copied unchanged |
| `FlightStatusMapper.MapToOperationalTimes` | TouristarConsumer/Utils/FlightStatusMapper.cs:42-60 | each of the sixteen stored timestamps is the localised form of the provider's timestamp of the same name |
| `FlightStatusMapper.MapOptional` | TouristarConsumer/Utils/FlightStatusMapper.cs:10-12 | `x == null ? null : f(x)`: present exactly when the input is, with value `f` of it |
| `FlightStatusMapper.MapOptionalDate` | TouristarConsumer/Utils/FlightStatusMapper.cs:23-31 | a null date pair stays null; a present one is localised |
| `FlightStatusMapper.MapToDbFlightStatus` | TouristarConsumer/Utils/FlightStatusMapper.cs:8-122 | requires the operational times the source dereferences. The ticket id is the argument, and the top-level codes and status are copied. Each sub-object (airline, three airports, two dates, schedule, delays, durations, resources, last-acquired date) is present iff its source is, and then it is the mapping of it. All sixteen operational times are localised |
| `FlightStatusMapper.MappingKeepsUnconvertedFields` | TouristarConsumer/Utils/FlightStatusMapper.cs:97-121 | the mapping loses nothing outside the time conversion: two records with the same snapshot agree on every copied field, the three airport codes included |
| `FlightStatusMapper.MapOrFail` | TouristarConsumer/Utils/FlightStatusMapper.cs:8-162 | the mapping succeeds exactly when every time it converts is accepted and the operational times are present, and then it is `MapToDbFlightStatus`. It fails on the missing operational times exactly when the departure and arrival dates, converted first, are accepted; every other failure is a rejected conversion |
| `FlightStatusMapper.ConvertedInputsExact` | TouristarConsumer/Utils/FlightStatusMapper.cs:29-162 | the times the mapping is taken to convert are exactly the local and UTC times of the departure date, the arrival date and the sixteen slots, and the last-acquired date |
| `FlightOperatorService.LogoUrlFromBody` | TouristarConsumer/Services/FlightOperatorService.cs:39-42 | no logo exactly when the lower-cased body contains "not found" at some position; otherwise `base + "/" + code + ".svg"` |
| `FlightOperatorService.ContainsNotFoundIff` | TouristarConsumer/Services/FlightOperatorService.cs:42 | the `Contains` test agrees with the positional "not found" predicate |
| `FlightOperatorService.GetAirlineLogoUrl` | TouristarConsumer/Services/FlightOperatorService.cs:37-43 | the request goes to `base + "/" + code + ".svg"`; it fails exactly when that request throws; otherwise the body decides |
| `FlightOperatorService.NotFoundInAnyCase` | TouristarConsumer/Services/FlightOperatorService.cs:42 | a body containing "Not Found" or "NOT FOUND" gives no logo |
| `FlightOperatorService.FindOrCreateOperator` | TouristarConsumer/Services/FlightOperatorService.cs:19-35 | the method's final store and result are those of the find-or-create specification |
| `FlightOperatorService.ExistingOperatorReturned` | TouristarConsumer/Services/FlightOperatorService.cs:21-22 | an operator with this name is returned unchanged; nothing is written; the logo response is irrelevant |
| `FlightOperatorService.LogoFailureWritesNothing` | TouristarConsumer/Services/FlightOperatorService.cs:25-33 | a failing logo request raises before any creation: the store is unchanged |
| `FlightOperatorService.NewOperatorCreated` | TouristarConsumer/Services/FlightOperatorService.cs:25-34 | otherwise exactly one operator is appended, under the next id, with this name, code and logo decision. One save is made and nothing else changes. The row read back by the new id is the created operator |
| `FlightOperatorService.ResolutionKeepsOperatorsUnique` | TouristarConsumer/Services/FlightOperatorService.cs:19-35 | fresh ids and one operator per name are kept; stored operators are never altered; tickets, locations and users are untouched |
| `EmailProcessingService.Digits` | TouristarConsumer/Services/EmailProcessingService.cs:194 | the kept characters are all digits and no more than the input; a string of digits is kept whole |
| `EmailProcessingService.FormatFlightNumber` | TouristarConsumer/Services/EmailProcessingService.cs:190-201 | null gives "". Otherwise the result is all digits, and the digit string is the result itself or "0" followed by it. The "0" is dropped exactly when the digits start with '0' |
| `EmailProcessingService.LegFromString` | TouristarConsumer/Services/EmailProcessingService.cs:167-168 | outbound exactly when the tag is "outbound" |
| `EmailProcessingService.CanSaveTicket` | TouristarConsumer/Services/EmailProcessingService.cs:164-165 | true exactly when no stored ticket of the trip has this leg |
| `EmailProcessingService.ParseUtc` | TouristarConsumer/Services/EmailProcessingService.cs:115-119 | succeeds exactly when the text parses and the conversion accepts the parsed time, and then gives its conversion. A failed parse is reported first |
| `EmailProcessingService.DuplicateIsFinal` | TouristarConsumer/Services/EmailProcessingService.cs:62-68 | once the guard has returned, no later leg changes the outcome |
| `EmailProcessingService.FindOrCreateLocation` | TouristarConsumer/Services/EmailProcessingService.cs:170-188 | the method's final store and result are those of the location specification |
| `EmailProcessingService.CreateTicketFromGptData` | TouristarConsumer/Services/EmailProcessingService.cs:87-131 | the method's final store and result are those of the ticket-creation specification, including the writes left by a step that throws |
| `EmailProcessingService.SendTicketProcessingCompleteNotification` | TouristarConsumer/Services/EmailProcessingService.cs:133-162 | a push with the completion data map is sent exactly when the user has a device token |
| `EmailProcessingService.ProcessEmail` | TouristarConsumer/Services/EmailProcessingService.cs:27-85 | the method's final store and exit equal the workflow specification; the leg loop's invariant ties every prefix of the legs to that specification |
| `EmailProperties.FormatDropsCarrierAndOneZero` | TouristarConsumer/Services/EmailProcessingService.cs:190-201 | "BA0007" gives "007" |
| `EmailProperties.FormatDropsOnlyOneZero` | TouristarConsumer/Services/EmailProcessingService.cs:190-201 | "0042" gives "042": one leading zero is dropped, not all |
| `EmailProperties.FormatKeepsDigitsWithoutZero` | TouristarConsumer/Services/EmailProcessingService.cs:190-201 | "AA123" gives "123" |
| `EmailProperties.FormatOfEmptyOrNull` | TouristarConsumer/Services/EmailProcessingService.cs:190-201 | "" and null both give "" |
| `EmailProperties.NoDigits` | TouristarConsumer/Services/EmailProcessingService.cs:194 | a string without digits keeps nothing |
| `EmailProperties.DigitsAppend` | TouristarConsumer/Services/EmailProcessingService.cs:194 | digit filtering distributes over concatenation |
| `EmailProperties.CarrierPrefixIgnored` | TouristarConsumer/Services/EmailProcessingService.cs:190-201 | a digit-free carrier prefix does not change the formatted number |
| `EmailProperties.LeadingZeroValue` | TouristarConsumer/Services/EmailProcessingService.cs:195-198 | prefixing a zero keeps a numeral's value |
| `EmailProperties.FormatKeepsNumber` | TouristarConsumer/Services/EmailProcessingService.cs:190-201 | the formatted number denotes the same number as all the digits of the input |
| `EmailProperties.CanSaveTicketIsExactGuard` | TouristarConsumer/Services/EmailProcessingService.cs:62-69 | on a table with one ticket per (trip, leg), appending a ticket keeps that property iff `CanSaveTicket` allows it |
| `EmailProperties.LocationOutcomes` | TouristarConsumer/Services/EmailProcessingService.cs:170-188 | an existing location is returned without a write. An error writes nothing. Otherwise exactly one location, the returned one, is appended and saved, with the id counter advanced. Ids stay fresh |
| `EmailProperties.UnusableGeocodeFails` | TouristarConsumer/Services/EmailProcessingService.cs:177-183 | an empty or null first geocoder result raises LocationNotFound and writes nothing |
| `EmailProperties.UsableGeocodeCreatesLocation` | TouristarConsumer/Services/EmailProcessingService.cs:184-187 | a usable first geocoder result is stored as a location with its city and country under the next id, saved once, and returned |
| `EmailProperties.GeocodeQueryIsCityAndCountry` | TouristarConsumer/Services/EmailProcessingService.cs:177 | the geocoder is consulted only about `city + " " + country` |
| `EmailProperties.StoreTicketOutcome` | TouristarConsumer/Services/EmailProcessingService.cs:111-130 | either the step raises and writes nothing, or exactly one ticket is appended and saved. Its fields come from the leg record, the resolved ids and the converted timestamps; `ArriveAt` is absent iff the record's is |
| `EmailProperties.StoreTicketFailsIffDateFails` | TouristarConsumer/Services/EmailProcessingService.cs:115-119 | the last step raises exactly when the departure time, or an arrival time that is present, does not parse or is rejected by the UTC conversion |
| `EmailProperties.TicketCreatedIffStepsSucceed` | TouristarConsumer/Services/EmailProcessingService.cs:92-130 | a ticket is created exactly when the operator step yields an operator, both location steps succeed and the timestamps parse and convert |
| `EmailProperties.CreationSteps` | TouristarConsumer/Services/EmailProcessingService.cs:92-130 | a created ticket went through every step: an operator and both locations were resolved, and the last step stored it |
| `EmailProperties.OperatorStepFrame` | TouristarConsumer/Services/EmailProcessingService.cs:92-95 | the operator step changes only operators, the id counter and the save count; a returned operator is stored |
| `EmailProperties.CreateTicketFrame` | TouristarConsumer/Services/EmailProcessingService.cs:87-131 | trips, users, pushes and flight statuses are untouched; ids stay fresh. Tickets gain exactly the returned ticket, of this trip and leg, and otherwise stay the same (a null operator included) |
| `EmailProperties.OperatorNeverNull` | TouristarConsumer/Services/EmailProcessingService.cs:96-102 | with fresh ids, the operator step never yields null, so that exit is not taken |
| `EmailProperties.CreatedTicketFields` | TouristarConsumer/Services/EmailProcessingService.cs:104-130 | a created ticket has a new id, the trip's id, the leg from the tag, the formatted flight number, the copied codes and the converted timestamps. It references an operator with the record's name and two stored locations |
| `EmailProperties.LegStepKeeps` | TouristarConsumer/Services/EmailProcessingService.cs:49-76 | one iteration of the leg loop keeps the loop invariant |
| `EmailProperties.LegsKeepInvariants` | TouristarConsumer/Services/EmailProcessingService.cs:46-77 | the loop keeps fresh ids and one ticket per (trip, leg). It only appends tickets of this trip, and touches no trip, user or push |
| `EmailProperties.NonNullLegsAppend` | TouristarConsumer/Services/EmailProcessingService.cs:51-55 | the non-null legs of a list extended by one are those of the list plus that leg, if it is non-null |
| `EmailProperties.LegsSpecSnoc` | TouristarConsumer/Services/EmailProcessingService.cs:47 | the loop over a list extended by one leg is one more iteration |
| `EmailProperties.NullLegsSkipped` | TouristarConsumer/Services/EmailProcessingService.cs:51-55 | the loop over all legs ends as the loop over the non-null legs alone |
| `EmailProperties.OutboundCitiesAppend` | TouristarConsumer/Services/EmailProcessingService.cs:57-60 | the outbound arrival cities of a list extended by one leg gain that leg's, if it is outbound |
| `EmailProperties.DestinationIsLastOutbound` | TouristarConsumer/Services/EmailProcessingService.cs:46-60 | when the loop runs to the end, the destination city is the arrival city of the last outbound leg, or "" |
| `EmailProperties.DuplicateIffGuardFails` | TouristarConsumer/Services/EmailProcessingService.cs:62-76 | the loop returns from the workflow exactly when the guard fails at some leg; a leg whose processing throws never stops it |
| `EmailProperties.ExitsBeforeLoop` | TouristarConsumer/Services/EmailProcessingService.cs:29-42 | bad base-64, a missing trip and a throwing extractor raise, writing nothing. A trip without an arrival location, and a null extractor reply, return silently, writing nothing |
| `EmailProperties.DuplicateFirstLegChangesNothing` | TouristarConsumer/Services/EmailProcessingService.cs:62-68 | a first leg already stored for the trip ends the run with nothing written, no push and no flag reset |
| `EmailProperties.DuplicateSkipsCompletion` | TouristarConsumer/Services/EmailProcessingService.cs:62-84 | after the duplicate return, users and pushes are as before and earlier tickets remain |
| `EmailProperties.ProcessEmailKeepsInvariants` | TouristarConsumer/Services/EmailProcessingService.cs:27-85 | every run keeps fresh ids, at most one ticket per (trip, leg), and the trips |
| `EmailProperties.RunStaysOnMessageTrip` | TouristarConsumer/Services/EmailProcessingService.cs:27-85 | with trips stored under their own ids, a run keeps the old tickets and pushes, and appends only tickets of the message's trip and pushes naming it |
| `EmailProperties.CompletedRun` | TouristarConsumer/Services/EmailProcessingService.cs:79-84 | after all legs, a known user's flag is cleared and saved, and a push naming the last outbound destination with the completion data map is sent iff they have a device token. An unknown user raises, after the tickets were stored |
| `EmailProperties.CompletionClearsSyncingFlag` | TouristarConsumer/Services/EmailProcessingService.cs:79-84 | with users stored under their own ids, a completed run clears the syncing flag of the trip's own user and keeps users keyed by id |
| `FlightStatusService.RelevantDate` | TouristarConsumer/Services/FlightStatusService.cs:47-57 | the arrival time when there is one, otherwise the departure time |
| `FlightStatusService.FetchAndSaveFlightStatus` | TouristarConsumer/Services/FlightStatusService.cs:28-82 | the method's final store and outcome are those of the refresh specification; it never raises |
| `FlightStatusService.QueryUsesArrivalElseDeparture` | TouristarConsumer/Services/FlightStatusService.cs:57-63 | the request is in JSON, with the carrier code, the flight number, and the year (as its numeral), month and day of the arrival time, or of the departure time when there is no arrival time |
| `FlightStatusService.RefreshWritesOnlyWhenStored` | TouristarConsumer/Services/FlightStatusService.cs:65-74 | nothing is written unless a status is stored. Then the request got a non-empty list whose first status can be mapped, and exactly the mapping of that status, tied to the ticket, is appended with one save |
| `FlightStatusService.NonEmptyAnswerIsStored` | TouristarConsumer/Services/FlightStatusService.cs:65-74 | a known ticket with an operator and a flight number whose request gets a non-empty list, the first with operational times and only accepted times, is stored: exactly that status's mapping is appended with one save |
| `FlightStatusService.ReplyStoredIffMappable` | TouristarConsumer/Services/FlightStatusService.cs:65-74 | a reply is stored exactly when it is a non-empty list whose first status can be mapped; then that mapping is appended with one save, and otherwise nothing changes |
| `FlightStatusService.UnmappableAnswerIsSwallowed` | TouristarConsumer/Services/FlightStatusService.cs:72-81 | a first status that cannot be mapped is swallowed without a write, as the missing operational times when the dates converted before them are accepted, otherwise as a rejected conversion |
| `FlightStatusService.GuardsSkipRequest` | TouristarConsumer/Services/FlightStatusService.cs:33-45 | an unknown ticket, a missing operator or a missing flight number ends the refresh without a write and without consulting the provider |
| `FlightStatusService.OnlyTheRequestMatters` | TouristarConsumer/Services/FlightStatusService.cs:60-63 | only the provider's answer to the ticket's own request affects the outcome |
| `FlightStatusService.OnlyFirstStatusStored` | TouristarConsumer/Services/FlightStatusService.cs:72 | statuses after the first are ignored |
| `FlightStatusService.RefreshTwiceAppendsTwice` | TouristarConsumer/Services/FlightStatusService.cs:72-74 | snapshots are appended, never replaced: two refreshes with the same answer store two equal snapshots |
| `ConsumerService.ProcessMessage` | TouristarConsumer/Services/EmailConsumerService.cs:23-32 | the handler's final store and outcome are those of its specification: the default fails; a null envelope raises; otherwise the service runs |
| `ConsumerService.Remaining` | TouristarConsumer/Services/ConsumerService.cs:64-72 | settling a tag removes it and adds nothing |
| `ConsumerService.Channel.constructor` | TouristarConsumer/Services/ConsumerService.cs:36 | a new channel has no queue declared, no consumer and nothing in flight |
| `ConsumerService.Channel.StartAsync` | TouristarConsumer/Services/ConsumerService.cs:37-43 | the queue is declared non-durable and the prefetch limit is 1 |
| `ConsumerService.Channel.BasicConsume` | TouristarConsumer/Services/ConsumerService.cs:76 | consumption starts with manual acknowledgement |
| `ConsumerService.Channel.Deliver` | TouristarConsumer/Services/ConsumerService.cs:43-76 | the broker delivers only while the prefetch limit allows; the delivery becomes unacknowledged |
| `ConsumerService.Channel.BasicAck` | TouristarConsumer/Services/ConsumerService.cs:64 | the ack is recorded, and with `multiple` every tag up to this one is settled |
| `ConsumerService.Channel.BasicNack` | TouristarConsumer/Services/ConsumerService.cs:72 | the nack is recorded and the tag settled |
| `ConsumerService.OnReceived` | TouristarConsumer/Services/ConsumerService.cs:55-74 | the UTF-8 text goes to ProcessMessage unchanged, and the store is the handler's. The one reply is the settlement of its outcome. Settling removes the tag |
| `ConsumerService.ConsumeAll` | TouristarConsumer/Services/ConsumerService.cs:25-79 | after start-up and consumption of the deliveries in order, the store and replies are those of the run specification. No delivery is left unacknowledged, prefetch is 1 and auto-ack is off |
| `ConsumerService.SettlementAcksIffCompleted` | TouristarConsumer/Services/ConsumerService.cs:63-73 | the reply is `Ack(tag, true)` exactly when ProcessMessage completed, and `Nack(tag, false, false)` exactly when it threw |
| `ConsumerService.OneReplyPerDelivery` | TouristarConsumer/Services/ConsumerService.cs:55-74 | a run replies once per delivery, in order, each reply the settlement of that delivery's own outcome |
| `ConsumerService.NeverRequeues` | TouristarConsumer/Services/ConsumerService.cs:72 | no reply of a run asks for requeue |
| `ConsumerService.PrefetchOneMakesMultipleSingle` | TouristarConsumer/Services/ConsumerService.cs:43-64 | with one delivery in flight, an ack with `multiple` settles just as a single ack |
| `ConsumerService.DefaultHandlerNacksAll` | TouristarConsumer/Services/ConsumerService.cs:81-84 | a consumer with the default ProcessMessage writes nothing and nacks every delivery |
| `ConsumerService.StatusConsumerAcksWellFormed` | TouristarConsumer/Services/FlightStatusConsumerService.cs:23-32 | the flight-status consumer acks every delivery whose envelope deserialises, because the refresh never raises |
| `ConsumerService.MalformedEnvelopeIsNacked` | TouristarConsumer/Services/EmailConsumerService.cs:25-29 | an envelope that does not deserialise writes nothing and is nacked |
| `ConsumerService.EmailFailureIsNacked` | TouristarConsumer/Services/EmailConsumerService.cs:31 | an exception of the e-mail workflow is nacked, and its earlier writes stay |

## Left out

- I/O is not modelled: logging, configuration, the HTTP clients, and the extraction, geocoding and flight-status services. Their answers are parameters, so every property holds for every answer.
- Push failure is not modelled: `Store.Repository.SendPushNotification` always succeeds. In the source a throwing push send, or the messaging accessor's credential-file read, at `EmailProcessingService.cs:80` propagates. It skips the flag reset and the save at lines 82-84, and the delivery is nacked.
- `EmailProperties.CompletedRun`: its "flag is cleared" and "push sent" hold because the push send cannot fail in the model (see the line above).
- The `ticket.FlightOperator` navigation (`FlightStatusService.cs:34`) is modelled as a `FindOperatorById` lookup of the ticket's `flightOperatorId`.
- Nullable leg-record fields are not modelled: `TripLeg`, `ArrivalCity`, `DepartAt` and the other non-optional `GptTicketData` fields are non-null strings. In the source a null `TripLeg` makes the leg inbound. A null `DepartAt` makes `DateTime.Parse` throw, caught for that leg. A null city reaches the `FindByCountryAndCity` lookup as null, and interpolation renders it as the empty string in the geocoder query.
- The extractor's own reply handling (`GptRepository.cs`) is not modelled. Its reply is a parameter that can throw, be null, or be a list of possibly-null legs.
- The relational store and its unit of work are left out. `RepositoryManager.cs` is not part of this model; it is replaced by the in-memory `Store.Repository`. Rows are visible and get their identity as soon as they are created, not at save. A save only counts commits.
- The title and body of the completion push are not modelled. They come from a class outside this model, so `Store.Push` keeps only the destination city they are built from.
- Concurrency is not modelled: one message is processed at a time. The check-then-act races of parallel consumers on tickets, operators and locations are out of scope.
- The `?? trip.DepartureLocation` and `?? trip.ArrivalLocation` fallbacks are not modelled. `FindOrCreateLocation` returns a location or throws, so these fallbacks are unreachable.
- `StopAsync` and the connection set-up are not modelled. They only create and close the broker connection.
- `Models/ConsumerService.cs` is not modelled. It is a console reader that the application never registers.
- The JSON envelope parsers, `Convert.FromBase64String` and UTF-8 decoding are parameters.
- `Base.IsDigit`: covers ASCII '0'..'9' only, not every Unicode decimal digit that `char.IsDigit` accepts.
- `Base.ToLower`: lower-cases ASCII letters only, not Unicode letters.
- `DateTime` keeps the time of day as one opaque number. `TimeZoneInfo.ConvertTimeToUtc` is two uninterpreted parameters: the result `toUtc` it gives and the times `convertible` it accepts. Which local times are invalid, such as a daylight-saving gap, is not modelled.
- Broker redelivery is not modelled: after a nack without requeue the message is dropped.
- Three behaviours of the code are kept as written, though they look unintended:
  - The queue is declared non-durable.
  - A null extractor reply ends the workflow silently, not as an error.
  - The duplicate-leg return skips the flag reset and the final save.
