/**
 * The option records the broker client passes to RabbitMQ, with the
 * constructors that fill in the defaults (account/internal/utility/amqp.opts.go).
 * An `amqp091.Table` of arguments is a string map; Go's nil table is `None`.
 */
module AmqpOpts {
  import opened Wrappers

  type Table = Option<map<string, string>>

  datatype QueueOpts = QueueOpts(name: string, durable: bool, autoDelete: bool, exclusive: bool, noWait: bool, args: Table)
  {
    /** A transient, shared, waited-for declaration without arguments. */
    predicate IsPlain() { !durable && !autoDelete && !exclusive && !noWait && args.None? }
  }

  datatype ConsumeOpts = ConsumeOpts(queue: string, consumer: string, autoAck: bool, exclusive: bool,
                                     noLocal: bool, noWait: bool, args: Table, requeueNack: bool)
  {
    /** Every delivery waits for an explicit Ack or Nack from the handler loop. */
    predicate ManualAck() { !autoAck }
    /** The broker picks the consumer tag; no exclusivity, local or no-wait flags. */
    predicate IsPlain() { consumer == "" && !exclusive && !noLocal && !noWait && args.None? }
  }

  datatype PublishOpts = PublishOpts(exchange: string, key: string, mandatory: bool, immediate: bool, contentType: string)

  datatype QueueBindOpts = QueueBindOpts(name: string, key: string, exchange: string, noWait: bool, args: Table)

  /** `NewDefaultAmqpQueueOpts`. */
  function NewDefaultQueueOpts(name: string): (o: QueueOpts)
    ensures o.name == name && o.IsPlain()
  {
    QueueOpts(name, false, false, false, false, None)
  }

  /** `NewDefaultAmqpConsumeOpts`: manual acknowledgement; Nack requeues as asked. */
  function NewDefaultConsumeOpts(queue: string, requeueOnNack: bool): (o: ConsumeOpts)
    ensures o.queue == queue && o.ManualAck() && o.IsPlain()
    ensures o.requeueNack == requeueOnNack
  {
    ConsumeOpts(queue, "", false, false, false, false, None, requeueOnNack)
  }

  /** `NewDefaultAmqpPublishOpts`: neither mandatory nor immediate delivery. */
  function NewDefaultPublishOpts(exchange: string, key: string, contentType: string): (o: PublishOpts)
    ensures o.exchange == exchange && o.key == key && o.contentType == contentType
    ensures !o.mandatory && !o.immediate
  {
    PublishOpts(exchange, key, false, false, contentType)
  }

  /** `NewDefaultAmqpQueueBindOpts`. */
  function NewDefaultQueueBindOpts(name: string, key: string, exchange: string): (o: QueueBindOpts)
    ensures o.name == name && o.key == key && o.exchange == exchange
    ensures !o.noWait && o.args.None?
  {
    QueueBindOpts(name, key, exchange, false, None)
  }
}
