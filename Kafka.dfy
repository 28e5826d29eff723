/** The two broker-client objects the pipeline touches: a producer whose
    `send` either hands a record over or throws synchronously, and the
    consumer-side `Acknowledgment` that commits an offset. */
module Kafka {
  import opened Wrappers
  import opened ErrorClassifier

  /** `new ProducerRecord<>(topic, key, value)`. */
  datatype Record<V> = Record(topic: string, key: string, value: V)

  /** A `KafkaProducer`. Every call to `Send` is recorded in `sent`, including
      the ones that throw, in call order. Whether the n-th call throws, and
      with what, is decided by the `outcome` oracle, which stands for the
      broker, the client's buffer and whatever a test stubs. Asynchronous
      delivery and the completion callback are not modelled: the callback
      only logs. */
  class Producer<V> {
    const outcome: (nat, Record<V>) -> Option<JavaException>
    var sent: seq<Record<V>>

    constructor (outcome: (nat, Record<V>) -> Option<JavaException>)
      ensures this.outcome == outcome && sent == []
    {
      this.outcome := outcome;
      sent := [];
    }

    /** `producer.send(record[, callback])`: returns the exception the call
        throws, if any. */
    method Send(r: Record<V>) returns (thrown: Option<JavaException>)
      modifies this
      ensures sent == old(sent) + [r]
      ensures thrown == outcome(|old(sent)|, r)
    {
      thrown := outcome(|sent|, r);
      sent := sent + [r];
    }
  }

  /** The listener's manual `Acknowledgment`; `count` is the number of
      `acknowledge()` calls made on it. `sendsAtAck` records, for each call,
      how many records the republishing producer had been handed by then,
      read from that producer itself, so that a contract can place an
      acknowledgement after a publish. */
  class Acknowledgment {
    var count: nat
    ghost var sendsAtAck: seq<nat>

    constructor ()
      ensures count == 0 && sendsAtAck == []
    {
      count := 0;
      sendsAtAck := [];
    }

    /** `acknowledge()`; the ghost `producer` is the one the listener
        republishes through, whose log length at this moment is recorded. */
    method Acknowledge<V>(ghost producer: Producer<V>)
      modifies this
      ensures count == old(count) + 1
      ensures sendsAtAck == old(sendsAtAck) + [|producer.sent|]
    {
      count := count + 1;
      sendsAtAck := sendsAtAck + [|producer.sent|];
    }
  }
}
