/** The entities the services read and write, the repository facade's queries
    over them, and an in-memory repository standing for the relational store
    (RepositoryManager and its sub-repositories) together with the outgoing
    push-notification channel it also exposes.

    Every write of the repository is given twice: as a transition on the value
    `Db` (AddTicket, AddLocation, ...) that the workflow specifications use,
    and as a method of `Repository` whose postcondition is that transition. */
module Store {
  import opened Base
  import FlightStatusMapper

  datatype TicketLeg = Outbound | Inbound

  /** A stored location; `Place` is a geocoder result before it is stored. */
  datatype Location = Location(id: int, city: string, country: string)
  datatype Place = Place(city: string, country: string)

  datatype Trip = Trip(
    id: int, userId: int,
    departureLocation: Option<Location>, arrivalLocation: Option<Location>)

  datatype User = User(id: int, deviceToken: Option<string>, isSyncingTickets: bool)

  datatype FlightOperator = FlightOperator(id: int, name: string, carrierCode: string, logoUrl: Option<string>)

  datatype Ticket = Ticket(
    id: int,
    tripId: int,
    leg: TicketLeg,
    departAt: DateTime,
    arriveAt: Option<DateTime>,
    flightNumber: Option<string>,
    reservationNumber: Option<string>,
    departureAirportCode: string,
    arrivalAirportCode: string,
    flightOperatorId: int,
    departureLocationId: int,
    arrivalLocationId: int)

  /** A push notification handed to the messaging service. The title and body
      texts are derived from `destinationCity` by a class outside this model. */
  datatype Push = Push(deviceToken: string, destinationCity: string, data: map<string, string>)

  /** The whole state behind the repository facade. `nextId` is the identity
      the store gives to the next created row; `saves` counts unit-of-work commits. */
  datatype Db = Db(
    trips: map<int, Trip>,
    users: map<int, User>,
    tickets: seq<Ticket>,
    locations: seq<Location>,
    operators: seq<FlightOperator>,
    flightStatuses: seq<FlightStatusMapper.FlightStatus>,
    pushes: seq<Push>,
    nextId: int,
    saves: nat)

  /** What a store-writing step leaves behind: the new state, and its value or
      the exception it raised (writes made before the exception persist). */
  datatype Resolved<T> = Resolved(db: Db, result: Result<T>)

  // ---------------------------------------------------------------------
  // The store's own invariants
  // ---------------------------------------------------------------------

  /** Every stored identity is below `nextId`, so a freshly given one is unique. */
  ghost predicate IdsFresh(db: Db) {
    && (forall t :: t in db.tickets ==> t.id < db.nextId)
    && (forall l :: l in db.locations ==> l.id < db.nextId)
    && (forall o :: o in db.operators ==> o.id < db.nextId)
  }

  /** Every user is stored under its own identity, as FindById's key. */
  ghost predicate UsersKeyedById(users: map<int, User>) {
    forall k :: k in users ==> users[k].id == k
  }

  /** Every trip is stored under its own identity, as FindTrip's key. */
  ghost predicate TripsKeyedById(trips: map<int, Trip>) {
    forall k :: k in trips ==> trips[k].id == k
  }

  /** The ticket table holds at most one ticket per (trip, leg). */
  ghost predicate OneTicketPerLeg(tickets: seq<Ticket>) {
    forall i, j :: 0 <= i < j < |tickets| ==>
      tickets[i].tripId != tickets[j].tripId || tickets[i].leg != tickets[j].leg
  }

  // ---------------------------------------------------------------------
  // Queries (the repository facade's finders)
  // ---------------------------------------------------------------------

  /** FindTicketsForTrip: the trip's tickets, in table order. */
  function TicketsForTrip(tickets: seq<Ticket>, tripId: int): (r: seq<Ticket>)
    ensures forall t :: t in r <==> t in tickets && t.tripId == tripId
  {
    if tickets == [] then []
    else (if tickets[0].tripId == tripId then [tickets[0]] else []) + TicketsForTrip(tickets[1..], tripId)
  }

  /** FindTicket: the first ticket with this identity. */
  function FindTicket(tickets: seq<Ticket>, id: int): (r: Option<Ticket>)
    ensures r.Some? ==> r.value in tickets && r.value.id == id
    ensures r.None? <==> forall t :: t in tickets ==> t.id != id
  {
    if tickets == [] then None
    else if tickets[0].id == id then Some(tickets[0])
    else FindTicket(tickets[1..], id)
  }

  /** FindOperatorByName: the first operator with exactly this name. */
  function FindOperatorByName(operators: seq<FlightOperator>, name: string): (r: Option<FlightOperator>)
    ensures r.Some? ==> r.value in operators && r.value.name == name
    ensures r.None? <==> forall o :: o in operators ==> o.name != name
  {
    if operators == [] then None
    else if operators[0].name == name then Some(operators[0])
    else FindOperatorByName(operators[1..], name)
  }

  /** FindOperatorById: the first operator with this identity. */
  function FindOperatorById(operators: seq<FlightOperator>, id: int): (r: Option<FlightOperator>)
    ensures r.Some? ==> r.value in operators && r.value.id == id
    ensures r.None? <==> forall o :: o in operators ==> o.id != id
  {
    if operators == [] then None
    else if operators[0].id == id then Some(operators[0])
    else FindOperatorById(operators[1..], id)
  }

  /** FindByCountryAndCity: the first location with exactly this city and country. */
  function FindLocation(locations: seq<Location>, city: string, country: string): (r: Option<Location>)
    ensures r.Some? ==> r.value in locations && r.value.city == city && r.value.country == country
    ensures r.None? <==> forall l :: l in locations ==> l.city != city || l.country != country
  {
    if locations == [] then None
    else if locations[0].city == city && locations[0].country == country then Some(locations[0])
    else FindLocation(locations[1..], city, country)
  }

  /** Looking an identity up after appending a row with a new identity finds that row. */
  lemma {:induction false} FindAppendedOperator(operators: seq<FlightOperator>, o: FlightOperator)
    requires forall p :: p in operators ==> p.id != o.id
    ensures FindOperatorById(operators + [o], o.id) == Some(o)
  {
    if operators != [] {
      assert (operators + [o])[1..] == operators[1..] + [o];
      FindAppendedOperator(operators[1..], o);
    }
  }

  // ---------------------------------------------------------------------
  // Writes, as transitions of the value Db
  // ---------------------------------------------------------------------

  /** CreateTicket: the ticket is stored under the next identity. */
  function AddTicket(db: Db, t: Ticket): Db {
    db.(tickets := db.tickets + [t.(id := db.nextId)], nextId := db.nextId + 1)
  }

  /** CreateLocations of one geocoded place, stored under the next identity. */
  function AddLocation(db: Db, p: Place): Db {
    db.(locations := db.locations + [Location(db.nextId, p.city, p.country)], nextId := db.nextId + 1)
  }

  /** CreateOperator: the operator is stored under the next identity. */
  function AddOperator(db: Db, o: FlightOperator): Db {
    db.(operators := db.operators + [o.(id := db.nextId)], nextId := db.nextId + 1)
  }

  /** CreateFlightStatus: a new snapshot row; earlier ones are kept. */
  function AddFlightStatus(db: Db, s: FlightStatusMapper.FlightStatus): Db {
    db.(flightStatuses := db.flightStatuses + [s])
  }

  /** UpdateUser: the user row is replaced by the given one. */
  function PutUser(db: Db, u: User): Db {
    db.(users := db.users[u.id := u])
  }

  /** SendPushNotification: the push is handed to the messaging service. */
  function AddPush(db: Db, p: Push): Db {
    db.(pushes := db.pushes + [p])
  }

  /** Save: one unit-of-work commit. */
  function Saved(db: Db): Db {
    db.(saves := db.saves + 1)
  }

  /** The in-memory repository. Its fields are the tables of `Db`; each method
      is one call of the repository facade. */
  class Repository {
    var trips: map<int, Trip>
    var users: map<int, User>
    var tickets: seq<Ticket>
    var locations: seq<Location>
    var operators: seq<FlightOperator>
    var flightStatuses: seq<FlightStatusMapper.FlightStatus>
    var pushes: seq<Push>
    var nextId: int
    var saves: nat

    /** The value the tables hold now. */
    function State(): Db
      reads this
    {
      Db(trips, users, tickets, locations, operators, flightStatuses, pushes, nextId, saves)
    }

    constructor (db: Db)
      ensures State() == db
    {
      trips, users, tickets, locations := db.trips, db.users, db.tickets, db.locations;
      operators, flightStatuses, pushes := db.operators, db.flightStatuses, db.pushes;
      nextId, saves := db.nextId, db.saves;
    }

    method CreateTicket(t: Ticket) returns (stored: Ticket)
      modifies this
      ensures State() == AddTicket(old(State()), t)
      ensures stored == t.(id := old(nextId))
    {
      stored := t.(id := nextId);
      tickets := tickets + [stored];
      nextId := nextId + 1;
    }

    method CreateLocation(p: Place) returns (stored: Location)
      modifies this
      ensures State() == AddLocation(old(State()), p)
      ensures stored == Location(old(nextId), p.city, p.country)
    {
      stored := Location(nextId, p.city, p.country);
      locations := locations + [stored];
      nextId := nextId + 1;
    }

    method CreateOperator(o: FlightOperator) returns (id: int)
      modifies this
      ensures State() == AddOperator(old(State()), o)
      ensures id == old(nextId)
    {
      id := nextId;
      operators := operators + [o.(id := id)];
      nextId := nextId + 1;
    }

    method CreateFlightStatus(s: FlightStatusMapper.FlightStatus)
      modifies this
      ensures State() == AddFlightStatus(old(State()), s)
    {
      flightStatuses := flightStatuses + [s];
    }

    method UpdateUser(u: User)
      modifies this
      ensures State() == PutUser(old(State()), u)
    {
      users := users[u.id := u];
    }

    method SendPushNotification(p: Push)
      modifies this
      ensures State() == AddPush(old(State()), p)
    {
      pushes := pushes + [p];
    }

    method Save()
      modifies this
      ensures State() == Saved(old(State()))
    {
      saves := saves + 1;
    }
  }
}
