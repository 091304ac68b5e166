/** ConsumerService: the background consumer of one queue. It declares the
    queue, limits the channel to one unacknowledged delivery, consumes with
    manual acknowledgement, and for each delivery decodes the body as UTF-8,
    runs the subclass's ProcessMessage, and acks on success or nacks without
    requeue on any exception. The two subclasses (the e-mail and the
    flight-status consumers) are the `Handler` cases: each deserialises its
    envelope, raises on a null one, and hands it to its service.

    The broker's record of unacknowledged deliveries is ghost state of `Channel`. */
module ConsumerService {
  import opened Base
  import opened Store
  import EmailProcessingService
  import FlightStatusService

  newtype byte = x: int | 0 <= x < 256

  /** A message as the broker hands it to the consumer. */
  datatype Delivery = Delivery(deliveryTag: nat, body: seq<byte>)

  /** What the consumer sends back for a delivery. */
  datatype ChannelOp = Ack(tag: nat, multiple: bool) | Nack(tag: nat, multiple: bool, requeue: bool)

  /** The ProcessMessage in force: the base class's, or one of the two overrides
      with the envelope deserialiser and the service's external calls. */
  datatype Handler =
    | DefaultHandler
    | EmailHandler(parseEmail: string -> Option<EmailProcessingService.EmailProcessingMessage>,
                   env: EmailProcessingService.Env)
    | FlightStatusHandler(parseTicketId: string -> Option<int>,
                          provider: FlightStatusService.StatusQuery -> FlightStatusService.ProviderReply,
                          convertible: DateTime -> bool, toUtc: DateTime -> DateTime)

  // ---------------------------------------------------------------------
  // ProcessMessage
  // ---------------------------------------------------------------------

  /** ProcessMessage, as a transition of the store: Ok when it completes, Err
      with the exception it raises otherwise. */
  function ProcessMessageSpec(handler: Handler, db: Db, text: string): Resolved<()> {
    match handler
    case DefaultHandler => Resolved(db, Err(NotImplemented))
    case EmailHandler(parse, env) =>
      (match parse(text)
       case None => Resolved(db, Err(MalformedEnvelope))
       case Some(message) =>
         var r := EmailProcessingService.ProcessEmailSpec(db, message, env);
         Resolved(r.db, if r.result.Err? then Err(r.result.error) else Ok(())))
    case FlightStatusHandler(parse, provider, convertible, toUtc) =>
      match parse(text)
      case None => Resolved(db, Err(MalformedEnvelope))
      case Some(ticketId) => Resolved(FlightStatusService.FetchAndSaveSpec(db, ticketId, provider, convertible, toUtc).db, Ok(()))
  }

  method ProcessMessage(handler: Handler, repo: Repository, text: string) returns (r: Result<()>)
    modifies repo
    ensures Resolved(repo.State(), r) == ProcessMessageSpec(handler, old(repo.State()), text)
  {
    match handler
    case DefaultHandler =>
      r := Err(NotImplemented);
    case EmailHandler(parse, env) =>
      var message := parse(text);
      if message.None? {
        return Err(MalformedEnvelope);
      }
      var exit := EmailProcessingService.ProcessEmail(repo, message.value, env);
      r := if exit.Err? then Err(exit.error) else Ok(());
    case FlightStatusHandler(parse, provider, convertible, toUtc) =>
      var ticketId := parse(text);
      if ticketId.None? {
        return Err(MalformedEnvelope);
      }
      var _ := FlightStatusService.FetchAndSaveFlightStatus(repo, ticketId.value, provider, convertible, toUtc);
      r := Ok(());
  }

  // ---------------------------------------------------------------------
  // Acknowledgement
  // ---------------------------------------------------------------------

  /** The reply to a delivery whose ProcessMessage ended with `outcome`. */
  function Settlement(tag: nat, outcome: Result<()>): ChannelOp {
    if outcome.Ok? then Ack(tag, true) else Nack(tag, false, false)
  }

  /** The broker's unacknowledged tags after an ack or nack of `tag`: with
      `multiple` it settles every tag up to and including `tag`. */
  function Remaining(unacked: set<nat>, tag: nat, multiple: bool): (r: set<nat>)
    ensures r <= unacked && tag !in r
  {
    if multiple then set t | t in unacked && t > tag else unacked - {tag}
  }

  /** The channel of one consumer. */
  class Channel {
    const queueName: string
    var declared: bool
    var durable: bool
    var prefetchCount: nat  // 0: no limit
    var autoAck: bool
    var consuming: bool
    /** Every ack and nack sent, in order. */
    var ops: seq<ChannelOp>
    /** The broker's tags delivered to this consumer and not yet settled. */
    ghost var unacked: set<nat>

    constructor (queueName: string)
      ensures this.queueName == queueName
      ensures !declared && prefetchCount == 0 && !consuming && ops == [] && unacked == {}
    {
      this.queueName := queueName;
      declared, durable, prefetchCount, autoAck, consuming := false, false, 0, true, false;
      ops := [];
      unacked := {};
    }

    /** StartAsync: declare the queue (not durable) and set QoS to prefetch 1. */
    method StartAsync()
      modifies this
      ensures declared && !durable && prefetchCount == 1
      ensures consuming == old(consuming) && autoAck == old(autoAck)
      ensures ops == old(ops) && unacked == old(unacked)
    {
      declared, durable := true, false;
      prefetchCount := 1;
    }

    /** BasicConsume as ExecuteAsync calls it: manual acknowledgement. */
    method BasicConsume()
      requires declared
      modifies this
      ensures consuming && !autoAck
      ensures declared && durable == old(durable) && prefetchCount == old(prefetchCount)
      ensures ops == old(ops) && unacked == old(unacked)
    {
      consuming, autoAck := true, false;
    }

    /** The broker hands over a delivery, as the prefetch limit allows. */
    ghost method Deliver(d: Delivery)
      requires consuming && !autoAck
      requires prefetchCount == 0 || |unacked| < prefetchCount
      modifies this
      ensures unacked == old(unacked) + {d.deliveryTag}
      ensures declared == old(declared) && durable == old(durable) && prefetchCount == old(prefetchCount)
      ensures autoAck == old(autoAck) && consuming == old(consuming) && ops == old(ops)
    {
      unacked := unacked + {d.deliveryTag};
    }

    method BasicAck(tag: nat, multiple: bool)
      modifies this
      ensures ops == old(ops) + [Ack(tag, multiple)]
      ensures unacked == Remaining(old(unacked), tag, multiple)
      ensures declared == old(declared) && durable == old(durable) && prefetchCount == old(prefetchCount)
      ensures autoAck == old(autoAck) && consuming == old(consuming)
    {
      ops := ops + [Ack(tag, multiple)];
      unacked := Remaining(unacked, tag, multiple);
    }

    /** A nack without requeue drops the delivery; the broker does not redeliver it. */
    method BasicNack(tag: nat, multiple: bool, requeue: bool)
      modifies this
      ensures ops == old(ops) + [Nack(tag, multiple, requeue)]
      ensures unacked == Remaining(old(unacked), tag, multiple)
      ensures declared == old(declared) && durable == old(durable) && prefetchCount == old(prefetchCount)
      ensures autoAck == old(autoAck) && consuming == old(consuming)
    {
      ops := ops + [Nack(tag, multiple, requeue)];
      unacked := Remaining(unacked, tag, multiple);
    }
  }

  /** The Received handler: decode, process, then ack (multiple) on success or
      nack without requeue on an exception. `utf8` is Encoding.UTF8.GetString. */
  method OnReceived(channel: Channel, repo: Repository, handler: Handler, d: Delivery, utf8: seq<byte> -> string)
    modifies channel, repo
    ensures var r := ProcessMessageSpec(handler, old(repo.State()), utf8(d.body));
            && repo.State() == r.db
            && channel.ops == old(channel.ops) + [Settlement(d.deliveryTag, r.result)]
            && channel.unacked == Remaining(old(channel.unacked), d.deliveryTag, r.result.Ok?)
    ensures channel.declared == old(channel.declared) && channel.durable == old(channel.durable)
    ensures channel.prefetchCount == old(channel.prefetchCount)
    ensures channel.autoAck == old(channel.autoAck) && channel.consuming == old(channel.consuming)
  {
    var text := utf8(d.body);
    var outcome := ProcessMessage(handler, repo, text);
    if outcome.Ok? {
      channel.BasicAck(d.deliveryTag, true);
    } else {
      channel.BasicNack(d.deliveryTag, false, false);
    }
  }

  // ---------------------------------------------------------------------
  // A run of the consumer over a sequence of deliveries
  // ---------------------------------------------------------------------

  /** ProcessMessage of a handler, as a function value. */
  function ProcessOf(handler: Handler): (Db, string) -> Resolved<()> {
    (db: Db, text: string) => ProcessMessageSpec(handler, db, text)
  }

  /** The store and the replies after handling `ds` in order. */
  datatype Run = Run(db: Db, ops: seq<ChannelOp>)

  /** A run over `ds`, given ProcessMessage as the function `process`. */
  function ConsumeSpec(db: Db, process: (Db, string) -> Resolved<()>, ds: seq<Delivery>,
                       utf8: seq<byte> -> string): Run
    decreases |ds|
  {
    if ds == [] then Run(db, [])
    else
      var before := ConsumeSpec(db, process, ds[..|ds| - 1], utf8);
      var d := ds[|ds| - 1];
      var r := process(before.db, utf8(d.body));
      Run(r.db, before.ops + [Settlement(d.deliveryTag, r.result)])
  }

  /** Start the consumer and handle the deliveries one at a time; after each
      one the broker holds no unacknowledged delivery. */
  method ConsumeAll(channel: Channel, repo: Repository, handler: Handler, ds: seq<Delivery>,
                    utf8: seq<byte> -> string)
    requires channel.unacked == {}
    modifies channel, repo
    ensures var run := ConsumeSpec(old(repo.State()), ProcessOf(handler), ds, utf8);
            repo.State() == run.db && channel.ops == old(channel.ops) + run.ops
    ensures channel.prefetchCount == 1 && !channel.autoAck && !channel.durable && channel.unacked == {}
  {
    channel.StartAsync();
    channel.BasicConsume();
    ghost var db0 := repo.State();
    ghost var ops0 := channel.ops;
    var i := 0;
    while i < |ds|
      invariant 0 <= i <= |ds|
      invariant channel.declared && channel.consuming && !channel.autoAck && !channel.durable
      invariant channel.prefetchCount == 1 && channel.unacked == {}
      invariant var run := ConsumeSpec(db0, ProcessOf(handler), ds[..i], utf8);
                repo.State() == run.db && channel.ops == ops0 + run.ops
    {
      assert ds[..i + 1][..i] == ds[..i];
      ghost var before := repo.State();
      assert ProcessOf(handler)(before, utf8(ds[i].body)) == ProcessMessageSpec(handler, before, utf8(ds[i].body));
      channel.Deliver(ds[i]);
      OnReceived(channel, repo, handler, ds[i], utf8);
      i := i + 1;
    }
    assert ds[..i] == ds;
  }

  // ---------------------------------------------------------------------
  // Properties
  // ---------------------------------------------------------------------

  /** How ProcessMessage ended for the i-th delivery, in the store the earlier ones left. */
  ghost function OutcomeAt(db: Db, process: (Db, string) -> Resolved<()>, ds: seq<Delivery>,
                           utf8: seq<byte> -> string, i: int): Result<()>
    requires 0 <= i < |ds|
  {
    process(ConsumeSpec(db, process, ds[..i], utf8).db, utf8(ds[i].body)).result
  }

  /** A completed ProcessMessage is acked with multiple set; any exception is
      nacked for this delivery alone and without requeue. */
  lemma SettlementAcksIffCompleted(tag: nat, outcome: Result<()>)
    ensures Settlement(tag, outcome) == Ack(tag, true) <==> outcome.Ok?
    ensures Settlement(tag, outcome) == Nack(tag, false, false) <==> outcome.Err?
    ensures Settlement(tag, outcome).tag == tag
  {
  }

  /** Each delivery gets exactly one reply, in delivery order: the
      settlement of that delivery's own outcome. */
  lemma {:induction false} OneReplyPerDelivery(db: Db, process: (Db, string) -> Resolved<()>, ds: seq<Delivery>,
                                               utf8: seq<byte> -> string)
    ensures var ops := ConsumeSpec(db, process, ds, utf8).ops;
            && |ops| == |ds|
            && forall i :: 0 <= i < |ds| ==>
                 ops[i] == Settlement(ds[i].deliveryTag, OutcomeAt(db, process, ds, utf8, i))
    decreases |ds|
  {
    if ds != [] {
      var init := ds[..|ds| - 1];
      OneReplyPerDelivery(db, process, init, utf8);
      var ops := ConsumeSpec(db, process, ds, utf8).ops;
      var initOps := ConsumeSpec(db, process, init, utf8).ops;
      assert ops == initOps + [Settlement(ds[|init|].deliveryTag, OutcomeAt(db, process, ds, utf8, |init|))] by {
        assert ds[..|init|] == init;
      }
      forall i | 0 <= i < |init|
        ensures ops[i] == Settlement(ds[i].deliveryTag, OutcomeAt(db, process, ds, utf8, i))
      {
        assert ds[..i] == init[..i];
        assert ops[i] == initOps[i];
      }
    }
  }

  /** The consumer never asks for a delivery to be requeued. */
  lemma NeverRequeues(db: Db, process: (Db, string) -> Resolved<()>, ds: seq<Delivery>, utf8: seq<byte> -> string)
    ensures forall op :: op in ConsumeSpec(db, process, ds, utf8).ops ==> op.Nack? ==> !op.requeue
  {
    OneReplyPerDelivery(db, process, ds, utf8);
    var ops := ConsumeSpec(db, process, ds, utf8).ops;
    forall op | op in ops && op.Nack?
      ensures !op.requeue
    {
      var i :| 0 <= i < |ops| && ops[i] == op;
      assert ops[i] == Settlement(ds[i].deliveryTag, OutcomeAt(db, process, ds, utf8, i));
    }
  }

  /** With one delivery in flight, an ack with multiple settles exactly that
      delivery, as a single ack would. */
  lemma PrefetchOneMakesMultipleSingle(tag: nat)
    ensures Remaining({tag}, tag, true) == Remaining({tag}, tag, false) == {}
  {
  }

  /** A consumer that does not override ProcessMessage nacks every delivery
      and writes nothing. */
  lemma {:induction false} DefaultHandlerNacksAll(db: Db, ds: seq<Delivery>, utf8: seq<byte> -> string)
    ensures var run := ConsumeSpec(db, ProcessOf(DefaultHandler), ds, utf8);
            && run.db == db
            && run.ops == seq(|ds|, i requires 0 <= i < |ds| => Nack(ds[i].deliveryTag, false, false))
    decreases |ds|
  {
    if ds != [] {
      DefaultHandlerNacksAll(db, ds[..|ds| - 1], utf8);
    }
  }

  /** The flight-status consumer acks every delivery whose envelope
      deserialises, since the service swallows every failure. */
  lemma {:induction false} StatusConsumerAcksWellFormed(db: Db, handler: Handler, ds: seq<Delivery>,
                                                        utf8: seq<byte> -> string)
    requires handler.FlightStatusHandler?
    requires forall i :: 0 <= i < |ds| ==> handler.parseTicketId(utf8(ds[i].body)).Some?
    ensures ConsumeSpec(db, ProcessOf(handler), ds, utf8).ops
            == seq(|ds|, i requires 0 <= i < |ds| => Ack(ds[i].deliveryTag, true))
    decreases |ds|
  {
    if ds != [] {
      StatusConsumerAcksWellFormed(db, handler, ds[..|ds| - 1], utf8);
    }
  }

  /** An envelope that does not deserialise is an exception: nothing is
      written and the delivery is nacked. */
  lemma MalformedEnvelopeIsNacked(db: Db, handler: Handler, d: Delivery, utf8: seq<byte> -> string)
    requires handler.EmailHandler? ==> handler.parseEmail(utf8(d.body)).None?
    requires handler.FlightStatusHandler? ==> handler.parseTicketId(utf8(d.body)).None?
    ensures ConsumeSpec(db, ProcessOf(handler), [d], utf8) == Run(db, [Nack(d.deliveryTag, false, false)])
  {
    assert [d][..0] == [];
  }

  /** An exception of the e-mail workflow reaches the consumer and the
      delivery is nacked; its writes before the exception stay. */
  lemma EmailFailureIsNacked(db: Db, parse: string -> Option<EmailProcessingService.EmailProcessingMessage>,
                             env: EmailProcessingService.Env, d: Delivery, utf8: seq<byte> -> string)
    requires parse(utf8(d.body)).Some?
    requires EmailProcessingService.ProcessEmailSpec(db, parse(utf8(d.body)).value, env).result.Err?
    ensures ConsumeSpec(db, ProcessOf(EmailHandler(parse, env)), [d], utf8)
            == Run(EmailProcessingService.ProcessEmailSpec(db, parse(utf8(d.body)).value, env).db,
                   [Nack(d.deliveryTag, false, false)])
  {
    assert [d][..0] == [];
  }
}
