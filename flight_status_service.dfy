/** FlightStatusService: for one stored ticket, ask the flight-status provider
    for the flight's status on its arrival day (or its departure day when the
    arrival time is unknown) and store the first status returned as a new
    snapshot tied to the ticket. The service never lets an exception escape. */
module FlightStatusService {
  import opened Base
  import opened Store
  import opened FlightStatusMapper

  /** The arguments of the provider's by-flight, by-arrival-date request. */
  datatype StatusQuery = StatusQuery(
    format: string, carrierCode: string, flightNumber: string, year: string, month: int, day: int)

  /** The provider throws, or answers with a possibly-null list of statuses. */
  datatype ProviderReply = ProviderThrew | Response(flightStatuses: Option<seq<ApiFlightStatus>>)

  /** How a refresh ends; each ending is logged, none escapes the service. */
  datatype RefreshOutcome =
    | MissingOperator
    | MissingFlightNumber
    | NoStatuses
    | Stored
    | Swallowed(error: Error)

  datatype Refresh = Refresh(db: Db, outcome: RefreshOutcome)

  /** The day the status is asked for: the arrival time when there is one,
      otherwise the departure time. */
  function RelevantDate(ticket: Ticket): (d: DateTime)
    ensures ticket.arriveAt.Some? ==> d == ticket.arriveAt.value
    ensures ticket.arriveAt.None? ==> d == ticket.departAt
  {
    ticket.arriveAt.GetOr(ticket.departAt)
  }

  /** The request for a ticket whose operator has this carrier code. */
  function QueryFor(carrierCode: string, flightNumber: string, ticket: Ticket): StatusQuery {
    var date := RelevantDate(ticket);
    StatusQuery("json", carrierCode, flightNumber, IntToString(date.year), date.month, date.day)
  }

  /** FetchAndSaveFlightStatus, as a transition of the store. `provider` is
      the status API, and `convertible` and `toUtc` the time-zone conversion
      the mapper applies. */
  function FetchAndSaveSpec(db: Db, ticketId: int, provider: StatusQuery -> ProviderReply,
                            convertible: DateTime -> bool, toUtc: DateTime -> DateTime): Refresh
  {
    match FindTicket(db.tickets, ticketId)
    case None => Refresh(db, Swallowed(TicketNotFound))
    case Some(ticket) =>
      match FindOperatorById(db.operators, ticket.flightOperatorId)
      case None => Refresh(db, MissingOperator)
      case Some(operator) =>
        if ticket.flightNumber.None? then Refresh(db, MissingFlightNumber)
        else
          HandleReply(db, ticketId, provider(QueryFor(operator.carrierCode, ticket.flightNumber.value, ticket)),
                      convertible, toUtc)
  }

  /** The refresh once the request is made: the provider's reply decides it. */
  function HandleReply(db: Db, ticketId: int, reply: ProviderReply,
                       convertible: DateTime -> bool, toUtc: DateTime -> DateTime): Refresh
  {
    match reply
    case ProviderThrew => Refresh(db, Swallowed(StatusProviderFailed))
    case Response(statuses) =>
      if statuses.None? || |statuses.value| == 0 then Refresh(db, NoStatuses)
      else
        match MapOrFail(statuses.value[0], ticketId, convertible, toUtc)
        case Err(e) => Refresh(db, Swallowed(e))
        case Ok(status) => Refresh(Saved(AddFlightStatus(db, status)), Stored)
  }

  method FetchAndSaveFlightStatus(repo: Repository, ticketId: int, provider: StatusQuery -> ProviderReply,
                                  convertible: DateTime -> bool, toUtc: DateTime -> DateTime)
    returns (outcome: RefreshOutcome)
    modifies repo
    ensures Refresh(repo.State(), outcome) == FetchAndSaveSpec(old(repo.State()), ticketId, provider, convertible, toUtc)
  {
    var ticket := FindTicket(repo.tickets, ticketId);
    if ticket.None? {
      return Swallowed(TicketNotFound);
    }
    var operator := FindOperatorById(repo.operators, ticket.value.flightOperatorId);
    if operator.None? {
      return MissingOperator;
    }
    if ticket.value.flightNumber.None? {
      return MissingFlightNumber;
    }
    // A missing arrival time is only a warning: RelevantDate falls back to the departure time.
    var reply := provider(QueryFor(operator.value.carrierCode, ticket.value.flightNumber.value, ticket.value));
    if reply.ProviderThrew? {
      return Swallowed(StatusProviderFailed);
    }
    if reply.flightStatuses.None? || |reply.flightStatuses.value| == 0 {
      return NoStatuses;
    }
    var mapped := MapOrFail(reply.flightStatuses.value[0], ticketId, convertible, toUtc);
    if mapped.Err? {
      return Swallowed(mapped.error);
    }
    repo.CreateFlightStatus(mapped.value);
    repo.Save();
    outcome := Stored;
  }

  // ---------------------------------------------------------------------
  // Properties
  // ---------------------------------------------------------------------

  /** The request names the operator's carrier code and the ticket's flight
      number, in JSON format, for the calendar day of the arrival time, or of
      the departure time when the arrival time is missing. */
  lemma QueryUsesArrivalElseDeparture(carrierCode: string, flightNumber: string, ticket: Ticket)
    ensures var q := QueryFor(carrierCode, flightNumber, ticket);
            var date := if ticket.arriveAt.Some? then ticket.arriveAt.value else ticket.departAt;
            && q.format == "json" && q.carrierCode == carrierCode && q.flightNumber == flightNumber
            && q.month == date.month && q.day == date.day
            && (date.year >= 0 ==> AllDigits(q.year) && DecimalValue(q.year) == date.year)
  {
    var date := RelevantDate(ticket);
    if date.year >= 0 {
      NatToStringRoundTrip(date.year);
    }
  }

  /** The reply is stored exactly when it is a non-empty list whose first
      status the mapper can map; then that mapping is appended and saved once,
      and otherwise nothing changes. */
  lemma ReplyStoredIffMappable(db: Db, ticketId: int, reply: ProviderReply,
                               convertible: DateTime -> bool, toUtc: DateTime -> DateTime)
    ensures var r := HandleReply(db, ticketId, reply, convertible, toUtc);
            && (r.outcome == Stored
                <==> reply.Response? && reply.flightStatuses.Some? && |reply.flightStatuses.value| > 0
                     && Mappable(reply.flightStatuses.value[0], convertible))
            && (r.outcome != Stored ==> r.db == db)
            && (r.outcome == Stored ==>
                  r.db == db.(flightStatuses := db.flightStatuses
                                                + [MapToDbFlightStatus(reply.flightStatuses.value[0], ticketId, toUtc)],
                              saves := db.saves + 1))
  {
    if reply.Response? && reply.flightStatuses.Some? && |reply.flightStatuses.value| > 0 {
      var first := reply.flightStatuses.value[0];
      var mapped := MapOrFail(first, ticketId, convertible, toUtc);
      assert HandleReply(db, ticketId, reply, convertible, toUtc)
             == if mapped.Ok? then Refresh(Saved(AddFlightStatus(db, mapped.value)), Stored)
                else Refresh(db, Swallowed(mapped.error));
    }
  }

  /** A refresh writes exactly when it stores: then it appends one snapshot,
      the mapping of the first status the provider returned for the ticket's
      request, tied to the ticket, and saves once; otherwise nothing changes. */
  lemma RefreshWritesOnlyWhenStored(db: Db, ticketId: int, provider: StatusQuery -> ProviderReply,
                                    convertible: DateTime -> bool, toUtc: DateTime -> DateTime)
    ensures var r := FetchAndSaveSpec(db, ticketId, provider, convertible, toUtc);
            && (r.outcome != Stored ==> r.db == db)
            && (r.outcome == Stored ==>
                  && FindTicket(db.tickets, ticketId).Some?
                  && var ticket := FindTicket(db.tickets, ticketId).value;
                  && FindOperatorById(db.operators, ticket.flightOperatorId).Some?
                  && ticket.flightNumber.Some?
                  && var operator := FindOperatorById(db.operators, ticket.flightOperatorId).value;
                  && var reply := provider(QueryFor(operator.carrierCode, ticket.flightNumber.value, ticket));
                  && reply.Response? && reply.flightStatuses.Some? && |reply.flightStatuses.value| > 0
                  && var first := reply.flightStatuses.value[0];
                  && Mappable(first, convertible)
                  && r.db == db.(flightStatuses := db.flightStatuses + [MapToDbFlightStatus(first, ticketId, toUtc)],
                                 saves := db.saves + 1)
                  && r.db.flightStatuses[|db.flightStatuses|].ticketId == ticketId)
  {
    var ticket := FindTicket(db.tickets, ticketId);
    if ticket.Some? && FindOperatorById(db.operators, ticket.value.flightOperatorId).Some?
       && ticket.value.flightNumber.Some?
    {
      var operator := FindOperatorById(db.operators, ticket.value.flightOperatorId).value;
      var reply := provider(QueryFor(operator.carrierCode, ticket.value.flightNumber.value, ticket.value));
      ReplyStoredIffMappable(db, ticketId, reply, convertible, toUtc);
    }
  }

  /** Conversely, a known ticket with an operator and a flight number whose
      request is answered with a non-empty list, the first status carrying
      operational times and only convertible times, is stored: exactly that
      status's mapping is appended. */
  lemma NonEmptyAnswerIsStored(db: Db, ticketId: int, provider: StatusQuery -> ProviderReply,
                               convertible: DateTime -> bool, toUtc: DateTime -> DateTime)
    requires FindTicket(db.tickets, ticketId).Some?
    requires var ticket := FindTicket(db.tickets, ticketId).value;
             && FindOperatorById(db.operators, ticket.flightOperatorId).Some?
             && ticket.flightNumber.Some?
             && var operator := FindOperatorById(db.operators, ticket.flightOperatorId).value;
             && var reply := provider(QueryFor(operator.carrierCode, ticket.flightNumber.value, ticket));
             && reply.Response? && reply.flightStatuses.Some? && |reply.flightStatuses.value| > 0
             && Mappable(reply.flightStatuses.value[0], convertible)
    ensures var r := FetchAndSaveSpec(db, ticketId, provider, convertible, toUtc);
            var ticket := FindTicket(db.tickets, ticketId).value;
            var operator := FindOperatorById(db.operators, ticket.flightOperatorId).value;
            var first := provider(QueryFor(operator.carrierCode, ticket.flightNumber.value, ticket)).flightStatuses.value[0];
            && r.outcome == Stored
            && r.db == db.(flightStatuses := db.flightStatuses + [MapToDbFlightStatus(first, ticketId, toUtc)],
                           saves := db.saves + 1)
  {
    var ticket := FindTicket(db.tickets, ticketId).value;
    var operator := FindOperatorById(db.operators, ticket.flightOperatorId).value;
    ReplyStoredIffMappable(db, ticketId, provider(QueryFor(operator.carrierCode, ticket.flightNumber.value, ticket)),
                           convertible, toUtc);
  }

  /** A first status the mapper cannot map is swallowed and nothing is
      stored: the error is the failed time conversion when a time is rejected
      (the departure and arrival dates are converted before the operational
      times are read), and the missing operational times otherwise. */
  lemma UnmappableAnswerIsSwallowed(db: Db, ticketId: int, provider: StatusQuery -> ProviderReply,
                                    convertible: DateTime -> bool, toUtc: DateTime -> DateTime)
    requires FindTicket(db.tickets, ticketId).Some?
    requires var ticket := FindTicket(db.tickets, ticketId).value;
             && FindOperatorById(db.operators, ticket.flightOperatorId).Some?
             && ticket.flightNumber.Some?
             && var operator := FindOperatorById(db.operators, ticket.flightOperatorId).value;
             && var reply := provider(QueryFor(operator.carrierCode, ticket.flightNumber.value, ticket));
             && reply.Response? && reply.flightStatuses.Some? && |reply.flightStatuses.value| > 0
             && !Mappable(reply.flightStatuses.value[0], convertible)
    ensures var r := FetchAndSaveSpec(db, ticketId, provider, convertible, toUtc);
            var ticket := FindTicket(db.tickets, ticketId).value;
            var operator := FindOperatorById(db.operators, ticket.flightOperatorId).value;
            var first := provider(QueryFor(operator.carrierCode, ticket.flightNumber.value, ticket)).flightStatuses.value[0];
            && r.db == db
            && (r.outcome == Swallowed(MissingOperationalTimes)
                <==> AllConvertible(InputsBeforeOperationalTimes(first), convertible) && first.operationalTimes.None?)
            && (r.outcome != Swallowed(MissingOperationalTimes) ==> r.outcome == Swallowed(TimeConversionFailed))
  {
  }

  /** A ticket without an operator or without a flight number is skipped
      before the provider is asked; an unknown ticket is swallowed as an error. */
  lemma GuardsSkipRequest(db: Db, ticketId: int, provider: StatusQuery -> ProviderReply,
                          otherProvider: StatusQuery -> ProviderReply, convertible: DateTime -> bool,
                          toUtc: DateTime -> DateTime)
    ensures var r := FetchAndSaveSpec(db, ticketId, provider, convertible, toUtc);
            var ticket := FindTicket(db.tickets, ticketId);
            && (ticket.None? ==> r == Refresh(db, Swallowed(TicketNotFound)))
            && (ticket.Some? && FindOperatorById(db.operators, ticket.value.flightOperatorId).None? ==>
                  r == Refresh(db, MissingOperator))
            && ((ticket.Some? && FindOperatorById(db.operators, ticket.value.flightOperatorId).Some?
                 && ticket.value.flightNumber.None?) ==> r == Refresh(db, MissingFlightNumber))
            && (r.outcome in {Swallowed(TicketNotFound), MissingOperator, MissingFlightNumber} ==>
                  r == FetchAndSaveSpec(db, ticketId, otherProvider, convertible, toUtc))
  {
  }

  /** Only the answer to the ticket's own request matters. */
  lemma OnlyTheRequestMatters(db: Db, ticketId: int, p: StatusQuery -> ProviderReply,
                              q: StatusQuery -> ProviderReply, convertible: DateTime -> bool,
                              toUtc: DateTime -> DateTime)
    requires FindTicket(db.tickets, ticketId).Some?
    requires var ticket := FindTicket(db.tickets, ticketId).value;
             var operator := FindOperatorById(db.operators, ticket.flightOperatorId);
             operator.Some? && ticket.flightNumber.Some? &&
             var query := QueryFor(operator.value.carrierCode, ticket.flightNumber.value, ticket);
             p(query) == q(query)
    ensures FetchAndSaveSpec(db, ticketId, p, convertible, toUtc) == FetchAndSaveSpec(db, ticketId, q, convertible, toUtc)
  {
  }

  /** Only the first returned status is stored; later ones are ignored. */
  lemma OnlyFirstStatusStored(db: Db, ticketId: int, first: ApiFlightStatus, rest: seq<ApiFlightStatus>,
                              other: seq<ApiFlightStatus>, convertible: DateTime -> bool,
                              toUtc: DateTime -> DateTime)
    ensures FetchAndSaveSpec(db, ticketId, _ => Response(Some([first] + rest)), convertible, toUtc)
            == FetchAndSaveSpec(db, ticketId, _ => Response(Some([first] + other)), convertible, toUtc)
  {
  }

  /** Refreshing twice with the same answer stores two snapshots: snapshots
      are appended, never replaced. */
  lemma RefreshTwiceAppendsTwice(db: Db, ticketId: int, provider: StatusQuery -> ProviderReply,
                                 convertible: DateTime -> bool, toUtc: DateTime -> DateTime)
    requires FetchAndSaveSpec(db, ticketId, provider, convertible, toUtc).outcome == Stored
    ensures var once := FetchAndSaveSpec(db, ticketId, provider, convertible, toUtc);
            var twice := FetchAndSaveSpec(once.db, ticketId, provider, convertible, toUtc);
            && twice.outcome == Stored
            && |twice.db.flightStatuses| == |db.flightStatuses| + 2
            && twice.db.flightStatuses[|db.flightStatuses|] == twice.db.flightStatuses[|db.flightStatuses| + 1]
  {
    RefreshWritesOnlyWhenStored(db, ticketId, provider, convertible, toUtc);
    var once := FetchAndSaveSpec(db, ticketId, provider, convertible, toUtc);
    assert once.db.tickets == db.tickets && once.db.operators == db.operators;
    RefreshWritesOnlyWhenStored(once.db, ticketId, provider, convertible, toUtc);
  }
}
