/** The two retry-topic listeners. Each consumes a message from its publisher's
    retry topic, decodes the payload, resolves a key and republishes through
    the generic publisher, acknowledging afterwards; once the retry policy's
    attempts are used up, `recover` sends a decodable message to the fail
    topic, drops an undecodable one, and acknowledges whatever happens. The annotation-driven retry is written out
    as the bounded loop `Consume`, with the backoff delays it would wait. */
module RetryListener {
  import opened Wrappers
  import opened JavaText
  import opened ErrorClassifier
  import opened Kafka
  import opened Events
  import opened KeyResolver
  import opened DomainEventPublisher

  /** Spring Retry's default number of attempts, first call included; the
      listeners do not set another. */
  const MAX_ATTEMPTS: nat := 3
  /** `@Backoff(delay = 300L, multiplier = 2.0)`. */
  const INITIAL_DELAY_MS: nat := 300
  const MULTIPLIER: nat := 2
  /** The default ceiling of an exponential back-off policy. */
  const MAX_DELAY_MS: nat := 30000

  function Pow(b: nat, e: nat): (r: nat)
    ensures b >= 1 ==> r >= 1
    decreases e
  {
    if e == 0 then 1 else b * Pow(b, e - 1)
  }

  /** The pause after the `n`-th failed attempt: 300 ms doubled n-1 times,
      never above the ceiling. */
  function BackoffDelay(n: nat): (d: nat)
    requires n >= 1
    ensures INITIAL_DELAY_MS <= d <= MAX_DELAY_MS
  {
    var raw := INITIAL_DELAY_MS * Pow(MULTIPLIER, n - 1);
    if raw < MAX_DELAY_MS then raw else MAX_DELAY_MS
  }

  /** The delay starts at 300 ms and doubles until it reaches the ceiling. */
  lemma BackoffDoubles(n: nat)
    requires n >= 1
    ensures BackoffDelay(1) == INITIAL_DELAY_MS
    ensures BackoffDelay(n + 1) == if MULTIPLIER * BackoffDelay(n) < MAX_DELAY_MS then MULTIPLIER * BackoffDelay(n) else MAX_DELAY_MS
  {
    var raw := INITIAL_DELAY_MS * Pow(MULTIPLIER, n - 1);
    assert INITIAL_DELAY_MS * Pow(MULTIPLIER, n) == MULTIPLIER * raw;
  }

  /** The delays waited between `attempts` attempts. */
  function BackoffSchedule(attempts: nat): (s: seq<nat>)
    ensures |s| == if attempts == 0 then 0 else attempts - 1
    ensures forall i :: 0 <= i < |s| ==> s[i] == BackoffDelay(i + 1)
    decreases attempts
  {
    if attempts <= 1 then [] else BackoffSchedule(attempts - 1) + [BackoffDelay(attempts - 1)]
  }

  /** With the listeners' settings, a message that keeps failing is retried
      after 300 ms and again after 600 ms. */
  lemma DefaultSchedule()
    ensures BackoffSchedule(MAX_ATTEMPTS) == [300, 600]
  {
    assert BackoffDelay(1) == 300;
    assert BackoffDelay(2) == 600;
  }

  /** A `ConsumerRecord<String, String>`: the message key (possibly null) and
      its JSON payload. */
  datatype ConsumerRecord = ConsumerRecord(key: Option<string>, value: string)

  /** A listener: the publisher it republishes through, the JSON decoder
      (`objectMapper.readValue`, `None` when Jackson fails), where the event's
      key fields are, and the event class's simple name for the error text.
      The upsert listener is `RetryListener(upsertPublisher, decode,
      UpsertKeyFields, "ProductUpsertedEvent")`, the delete listener the same
      with `DeleteKeyFields` and "ProductDeletedEvent". */
  class RetryListener<V> {
    const publisher: DomainEventPublisher<V>
    const decode: string -> Option<V>
    const keyFields: V -> KeyFields
    const eventType: string

    constructor (publisher: DomainEventPublisher<V>, decode: string -> Option<V>,
                 keyFields: V -> KeyFields, eventType: string)
      ensures this.publisher == publisher && this.decode == decode
      ensures this.keyFields == keyFields && this.eventType == eventType
    {
      this.publisher := publisher;
      this.decode := decode;
      this.keyFields := keyFields;
      this.eventType := eventType;
    }

    /** `toEvent`: the decoded event, or the `IllegalArgumentException` that
        reports an undecodable payload. */
    function ToEvent(payload: string): (r: Result<V, JavaException>)
      ensures decode(payload).Some? <==> r.Success?
      ensures r.Success? ==> r.value == decode(payload).value
      ensures r.Failure? ==>
        r.error.kind == IllegalArgument && r.error.message == Some("Cannot deserialize " + eventType + " from payload")
    {
      match decode(payload)
      case Some(ev) => Success(ev)
      case None => Failure(JavaException(IllegalArgument, Some("Cannot deserialize " + eventType + " from payload"), None))
    }

    /** The key a decoded event is republished under. */
    function PublishKey(rec: ConsumerRecord, ev: V, now: int): string {
      ResolveKafkaKey(rec.key, Some(keyFields(ev)), now)
    }

    /** One `retry` attempt at clock reading `now`. A payload that does not
        decode throws before anything is published or acknowledged; otherwise
        the event is published once under the resolved key and then the
        message is acknowledged once, after every send of that publish. */
    method Retry(rec: ConsumerRecord, ack: Acknowledgment, now: int) returns (thrown: Option<JavaException>)
      modifies publisher, publisher.producer, ack
      ensures ToEvent(rec.value).Failure? ==>
        && thrown == Some(ToEvent(rec.value).error)
        && unchanged(publisher, publisher.producer, ack)
      ensures ToEvent(rec.value).Success? ==>
        var ev := ToEvent(rec.value).value;
        var t := PublishTrace(publisher.producer.outcome, |old(publisher.producer.sent)|, publisher.topics,
                              PublishKey(rec, ev, now), ev);
        && thrown == None
        && publisher.producer.sent == old(publisher.producer.sent) + t.sends
        && publisher.failReasons == old(publisher.failReasons) + t.reasons
        && ack.count == old(ack.count) + 1
        && ack.sendsAtAck == old(ack.sendsAtAck) + [|publisher.producer.sent|]
    {
      var decoded := ToEvent(rec.value);
      if decoded.Failure? {
        return Some(decoded.error);
      }
      var ev := decoded.value;
      var publishKey := ResolveKafkaKey(rec.key, Some(keyFields(ev)), now);
      thrown := publisher.Publish(publishKey, ev);
      if thrown.None? {
        ack.Acknowledge(publisher.producer);
      }
    }

    /** `recover` after the last attempt failed with `cause`: the decoded
        event goes to the fail topic with "Retry exhausted: " and the cause's
        message; a payload that does not decode publishes nothing; the
        message is acknowledged exactly once either way, after the fail-topic
        send, and nothing escapes. */
    method Recover(cause: JavaException, rec: ConsumerRecord, ack: Acknowledgment, now: int) returns (thrown: Option<JavaException>)
      modifies publisher, publisher.producer, ack
      ensures thrown == None
      ensures ack.count == old(ack.count) + 1
      ensures ack.sendsAtAck == old(ack.sendsAtAck) + [|publisher.producer.sent|]
      ensures ToEvent(rec.value).Failure? ==> unchanged(publisher, publisher.producer)
      ensures ToEvent(rec.value).Success? ==>
        var ev := ToEvent(rec.value).value;
        var t := FailedTrace(publisher.topics, PublishKey(rec, ev, now), ev, "Retry exhausted: " + Show(cause.message));
        && publisher.producer.sent == old(publisher.producer.sent) + t.sends
        && publisher.failReasons == old(publisher.failReasons) + t.reasons
    {
      var decoded := ToEvent(rec.value);
      if decoded.Success? {
        var ev := decoded.value;
        var publishKey := ResolveKafkaKey(rec.key, Some(keyFields(ev)), now);
        var publishError := publisher.PublishFailed(publishKey, ev, "Retry exhausted: " + Show(cause.message));
      }
      ack.Acknowledge(publisher.producer);
      thrown := None;
    }

    /** The retry policy around `retry`: up to `MAX_ATTEMPTS` attempts, attempt
        `i` made at clock reading `clock(i)`, any exception leading to another
        attempt after the back-off delay, and `recover` with the last
        exception when none is left. `delays` are the pauses taken. Because
        `publish` never throws, a decodable payload succeeds on the first
        attempt; an undecodable one uses every attempt and then publishes
        nothing. Either way the message is acknowledged exactly once, after
        every send. `recover` reads the clock afresh, at `clock(MAX_ATTEMPTS)`. */
    method Consume(rec: ConsumerRecord, ack: Acknowledgment, clock: nat -> int) returns (attempts: nat, delays: seq<nat>)
      modifies publisher, publisher.producer, ack
      ensures 1 <= attempts <= MAX_ATTEMPTS
      ensures delays == BackoffSchedule(attempts)
      ensures ack.count == old(ack.count) + 1
      ensures ack.sendsAtAck == old(ack.sendsAtAck) + [|publisher.producer.sent|]
      ensures ToEvent(rec.value).Success? ==>
        var ev := ToEvent(rec.value).value;
        var t := PublishTrace(publisher.producer.outcome, |old(publisher.producer.sent)|, publisher.topics,
                              PublishKey(rec, ev, clock(0)), ev);
        && attempts == 1
        && publisher.producer.sent == old(publisher.producer.sent) + t.sends
        && publisher.failReasons == old(publisher.failReasons) + t.reasons
      ensures ToEvent(rec.value).Failure? ==>
        attempts == MAX_ATTEMPTS && unchanged(publisher, publisher.producer)
    {
      attempts := 0;
      delays := [];
      var lastError: Option<JavaException> := None;
      var done := false;
      while !done
        invariant 0 <= attempts <= MAX_ATTEMPTS
        invariant done ==> 1 <= attempts
        invariant !done && attempts > 0 ==> ToEvent(rec.value).Failure? && lastError == Some(ToEvent(rec.value).error)
        invariant !done ==> unchanged(publisher, publisher.producer, ack)
        invariant !done ==> delays == BackoffSchedule(attempts)
        invariant done ==> delays == BackoffSchedule(attempts) && ack.count == old(ack.count) + 1
        invariant done ==> ack.sendsAtAck == old(ack.sendsAtAck) + [|publisher.producer.sent|]
        invariant done && ToEvent(rec.value).Success? ==>
          var ev := ToEvent(rec.value).value;
          var t := PublishTrace(publisher.producer.outcome, |old(publisher.producer.sent)|, publisher.topics,
                                PublishKey(rec, ev, clock(0)), ev);
          && attempts == 1
          && publisher.producer.sent == old(publisher.producer.sent) + t.sends
          && publisher.failReasons == old(publisher.failReasons) + t.reasons
        invariant done && ToEvent(rec.value).Failure? ==>
          attempts == MAX_ATTEMPTS && unchanged(publisher, publisher.producer)
        decreases MAX_ATTEMPTS - attempts, if done then 0 else 1
      {
        if attempts == MAX_ATTEMPTS {
          var recoverError := Recover(lastError.value, rec, ack, clock(attempts));
          done := true;
        } else {
          if attempts > 0 {
            delays := delays + [BackoffDelay(attempts)];
          }
          var attemptError := Retry(rec, ack, clock(attempts));
          attempts := attempts + 1;
          if attemptError.None? {
            done := true;
          } else {
            lastError := attemptError;
          }
        }
      }
    }
  }
}
