/** The generic publisher with failure routing. A `publish` makes one send to
    the main topic; when that send throws, the classifier picks the retry topic
    (retryable) or the fail topic (anything else); a throwing retry-topic send
    falls through to the fail topic once; a throwing fail-topic send is
    swallowed. The whole behaviour is a statement about the producer's send
    log, given by the `*Trace` functions below, which the methods of
    `DomainEventPublisher` are proved against. */
module DomainEventPublisher {
  import opened Wrappers
  import opened JavaText
  import opened ErrorClassifier
  import opened Kafka
  import opened Events

  /** The three topics a concrete publisher binds. */
  datatype Topics = Topics(main: string, fail: string, retry: string)

  /** The topic names of the service's configuration. */
  datatype TopicConfiguration = TopicConfiguration(
    productUpsert: string, productUpsertFail: string, productUpsertRetryFail: string,
    productDelete: string, productDeleteFail: string, productDeleteRetryFail: string)

  /** The topics of the upsert publisher. */
  function UpsertTopics(c: TopicConfiguration): Topics {
    Topics(c.productUpsert, c.productUpsertFail, c.productUpsertRetryFail)
  }

  /** The topics of the delete publisher. */
  function DeleteTopics(c: TopicConfiguration): Topics {
    Topics(c.productDelete, c.productDeleteFail, c.productDeleteRetryFail)
  }

  /** What one operation does: the records it hands to the producer, in order
      (throwing sends included), and the reasons it passes to `publishFailed`. */
  datatype Trace<V> = Trace(sends: seq<Record<V>>, reasons: seq<string>)

  /** `sends` is preceded by one more send. */
  function Then<V>(r: Record<V>, t: Trace<V>): Trace<V> {
    Trace([r] + t.sends, t.reasons)
  }

  type Outcome<!V> = (nat, Record<V>) -> Option<JavaException>

  /** `publishFailed`: one fail-topic send, whatever it does. */
  function FailedTrace<V>(topics: Topics, key: string, ev: V, reason: string): (t: Trace<V>)
    ensures t.sends == [Record(topics.fail, key, ev)] && t.reasons == [reason]
  {
    Trace([Record(topics.fail, key, ev)], [reason])
  }

  /** `publishRetry` when `n` sends preceded it. */
  function RetryTrace<V>(outcome: Outcome<V>, n: nat, topics: Topics, key: string, ev: V): Trace<V> {
    var r := Record(topics.retry, key, ev);
    match outcome(n, r)
    case None => Trace([r], [])
    case Some(x) => Then(r, FailedTrace(topics, key, ev, "Retry failed: " + Show(x.message)))
  }

  /** `handleFailure` for the exception `x` of the main send. */
  function FailureTrace<V>(outcome: Outcome<V>, n: nat, topics: Topics, key: string, ev: V, x: JavaException): Trace<V> {
    if IsRetryable(Some(x)) then RetryTrace(outcome, n, topics, key, ev)
    else FailedTrace(topics, key, ev, "Non-retryable error: " + Show(x.message))
  }

  /** `publish` when `n` sends preceded it. */
  function PublishTrace<V>(outcome: Outcome<V>, n: nat, topics: Topics, key: string, ev: V): Trace<V> {
    var r := Record(topics.main, key, ev);
    match outcome(n, r)
    case None => Trace([r], [])
    case Some(x) => Then(r, FailureTrace(outcome, n + 1, topics, key, ev, x))
  }

  /** `eventIdSafe`: the event's id, or "<unknown>" when the `eventId` hook
      throws (`None`). It only feeds log lines. */
  function EventIdSafe<V>(eventId: V -> Option<string>, ev: V): (r: string)
    ensures eventId(ev).Some? ==> r == eventId(ev).value
    ensures eventId(ev).None? ==> r == "<unknown>"
  {
    match eventId(ev)
    case Some(id) => id
    case None => "<unknown>"
  }

  /** The concrete publishers' hooks never fall back to "<unknown>": their id
      is the event's own id, "null" when it has none. */
  lemma ConcreteEventIdsAreSafe(u: ProductUpsertedEvent, d: ProductDeletedEvent)
    ensures EventIdSafe(UpsertEventId, u) == Show(u.id)
    ensures EventIdSafe(DeleteEventId, d) == Show(d.id)
  {
  }

  /** Every publish makes one to three sends, all with the caller's key and
      event, the first to the main topic; it passes at most one reason to
      `publishFailed`, and only when its last send went to the fail topic. */
  lemma PublishShape<V>(outcome: Outcome<V>, n: nat, topics: Topics, key: string, ev: V)
    ensures var t := PublishTrace(outcome, n, topics, key, ev);
      && 1 <= |t.sends| <= 3
      && t.sends[0] == Record(topics.main, key, ev)
      && (forall i :: 0 <= i < |t.sends| ==> t.sends[i].key == key && t.sends[i].value == ev)
      && |t.reasons| <= 1
      && (|t.reasons| == 1 ==> |t.sends| > 1 && t.sends[|t.sends| - 1].topic == topics.fail)
  {
  }

  /** A main send that does not throw is the only send: to the main topic,
      with the given key and event, and nothing reaches `publishFailed`. */
  lemma MainSendSucceeds<V>(outcome: Outcome<V>, n: nat, topics: Topics, key: string, ev: V)
    requires outcome(n, Record(topics.main, key, ev)).None?
    ensures PublishTrace(outcome, n, topics, key, ev) == Trace([Record(topics.main, key, ev)], [])
  {
  }

  /** A retryable main failure and a retry send that goes through: exactly
      two sends, main then retry, with the same key and value, and the fail
      topic is never used. */
  lemma RetryableFailureThenRetryOk<V>(outcome: Outcome<V>, n: nat, topics: Topics, key: string, ev: V, x: JavaException)
    requires outcome(n, Record(topics.main, key, ev)) == Some(x) && IsRetryable(Some(x))
    requires outcome(n + 1, Record(topics.retry, key, ev)).None?
    ensures PublishTrace(outcome, n, topics, key, ev)
         == Trace([Record(topics.main, key, ev), Record(topics.retry, key, ev)], [])
  {
  }

  /** A retryable main failure and a throwing retry send: exactly three sends,
      main, retry, fail, and the reason names the retry send's message. */
  lemma RetryableFailureThenRetryFails<V>(outcome: Outcome<V>, n: nat, topics: Topics, key: string, ev: V,
                                          x: JavaException, y: JavaException)
    requires outcome(n, Record(topics.main, key, ev)) == Some(x) && IsRetryable(Some(x))
    requires outcome(n + 1, Record(topics.retry, key, ev)) == Some(y)
    ensures PublishTrace(outcome, n, topics, key, ev)
         == Trace([Record(topics.main, key, ev), Record(topics.retry, key, ev), Record(topics.fail, key, ev)],
                  ["Retry failed: " + Show(y.message)])
  {
    assert [Record(topics.main, key, ev)] + ([Record(topics.retry, key, ev)] + [Record(topics.fail, key, ev)])
        == [Record(topics.main, key, ev), Record(topics.retry, key, ev), Record(topics.fail, key, ev)];
  }

  /** A non-retryable main failure: exactly one more send, to the fail topic,
      with the reason naming the main send's message; the retry topic is
      never used, and what the fail-topic send does changes nothing. */
  lemma NonRetryableFailure<V>(outcome: Outcome<V>, n: nat, topics: Topics, key: string, ev: V, x: JavaException)
    requires outcome(n, Record(topics.main, key, ev)) == Some(x) && !IsRetryable(Some(x))
    ensures PublishTrace(outcome, n, topics, key, ev)
         == Trace([Record(topics.main, key, ev), Record(topics.fail, key, ev)],
                  ["Non-retryable error: " + Show(x.message)])
  {
  }

  /** The retry topic is used iff the main send threw a retryable exception,
      and then it is the second send. */
  lemma RetryTopicUsedIffRetryable<V>(outcome: Outcome<V>, n: nat, topics: Topics, key: string, ev: V)
    requires topics.retry != topics.main && topics.retry != topics.fail
    ensures var t := PublishTrace(outcome, n, topics, key, ev);
      (exists i :: 0 <= i < |t.sends| && t.sends[i].topic == topics.retry)
      <==> IsRetryable(outcome(n, Record(topics.main, key, ev)))
  {
    var t := PublishTrace(outcome, n, topics, key, ev);
    var main := Record(topics.main, key, ev);
    if IsRetryable(outcome(n, main)) {
      assert t.sends[1].topic == topics.retry;
    } else {
      PublishShape(outcome, n, topics, key, ev);
      assert forall i :: 0 <= i < |t.sends| ==> t.sends[i].topic != topics.retry;
    }
  }

  /** The fail topic is used iff the main send threw and then either the
      error was not retryable or the retry send threw too. */
  lemma FailTopicUsedIffUnrecovered<V>(outcome: Outcome<V>, n: nat, topics: Topics, key: string, ev: V)
    requires topics.fail != topics.main && topics.fail != topics.retry
    ensures var t := PublishTrace(outcome, n, topics, key, ev);
      var first := outcome(n, Record(topics.main, key, ev));
      (exists i :: 0 <= i < |t.sends| && t.sends[i].topic == topics.fail)
      <==> first.Some? && (!IsRetryable(first) || outcome(n + 1, Record(topics.retry, key, ev)).Some?)
  {
    var t := PublishTrace(outcome, n, topics, key, ev);
    var first := outcome(n, Record(topics.main, key, ev));
    PublishShape(outcome, n, topics, key, ev);
    if first.Some? && (!IsRetryable(first) || outcome(n + 1, Record(topics.retry, key, ev)).Some?) {
      assert t.sends[|t.sends| - 1].topic == topics.fail;
    } else {
      assert forall i :: 0 <= i < |t.sends| ==> t.sends[i].topic != topics.fail;
    }
  }

  /** A concrete publisher: a producer handle, its three topics and its
      `eventId` hook. `failReasons` records every reason handed to
      `publishFailed`, which the source only logs. */
  class DomainEventPublisher<V> {
    const producer: Producer<V>
    const topics: Topics
    const eventId: V -> Option<string>
    var failReasons: seq<string>

    constructor (producer: Producer<V>, topics: Topics, eventId: V -> Option<string>)
      ensures this.producer == producer && this.topics == topics && this.eventId == eventId
      ensures failReasons == []
    {
      this.producer := producer;
      this.topics := topics;
      this.eventId := eventId;
      failReasons := [];
    }

    /** `doSend`: one record to `topic`; returns what the producer threw. The
        completion callback only logs and is not modelled. */
    method DoSend(topic: string, key: string, value: V) returns (thrown: Option<JavaException>)
      modifies producer
      ensures producer.sent == old(producer.sent) + [Record(topic, key, value)]
      ensures thrown == producer.outcome(|old(producer.sent)|, Record(topic, key, value))
    {
      thrown := producer.Send(Record(topic, key, value));
    }

    /** `publishFailed`: one fail-topic send; whatever it throws is swallowed. */
    method PublishFailed(key: string, ev: V, reason: string) returns (thrown: Option<JavaException>)
      modifies this, producer
      ensures var t := FailedTrace(topics, key, ev, reason);
        producer.sent == old(producer.sent) + t.sends && failReasons == old(failReasons) + t.reasons
      ensures thrown == None
    {
      failReasons := failReasons + [reason];
      var sendError := DoSend(topics.fail, key, ev);
      thrown := None;
    }

    /** `publishRetry`: one retry-topic send; if it throws, `publishFailed`
        with "Retry failed: " and the exception's message. */
    method PublishRetry(key: string, ev: V) returns (thrown: Option<JavaException>)
      modifies this, producer
      ensures var t := RetryTrace(producer.outcome, |old(producer.sent)|, topics, key, ev);
        producer.sent == old(producer.sent) + t.sends && failReasons == old(failReasons) + t.reasons
      ensures thrown == None
    {
      var sendError := DoSend(topics.retry, key, ev);
      thrown := None;
      if sendError.Some? {
        thrown := PublishFailed(key, ev, "Retry failed: " + Show(sendError.value.message));
      }
    }

    /** `handleFailure`: retry when the classifier says so, fail otherwise. */
    method HandleFailure(key: string, ev: V, x: JavaException) returns (thrown: Option<JavaException>)
      modifies this, producer
      ensures var t := FailureTrace(producer.outcome, |old(producer.sent)|, topics, key, ev, x);
        producer.sent == old(producer.sent) + t.sends && failReasons == old(failReasons) + t.reasons
      ensures thrown == None
    {
      if IsRetryable(Some(x)) {
        thrown := PublishRetry(key, ev);
        return;
      }
      thrown := PublishFailed(key, ev, "Non-retryable error: " + Show(x.message));
    }

    /** `publish`: the main send, and `handleFailure` on what it throws. No
        exception ever reaches the caller. */
    method Publish(key: string, ev: V) returns (thrown: Option<JavaException>)
      modifies this, producer
      ensures var t := PublishTrace(producer.outcome, |old(producer.sent)|, topics, key, ev);
        producer.sent == old(producer.sent) + t.sends && failReasons == old(failReasons) + t.reasons
      ensures thrown == None
    {
      var sendError := DoSend(topics.main, key, ev);
      thrown := None;
      if sendError.Some? {
        thrown := HandleFailure(key, ev, sendError.value);
      }
    }
  }
}
