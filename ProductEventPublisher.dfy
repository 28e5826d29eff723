/** The older product publisher. It holds the upsert producer and the delete
    producer itself and repeats the generic publisher's routing for upserted
    events over the upsert topics; deleted events get a single send and no
    routing. Its upsert path is proved against the same `PublishTrace` as the
    generic publisher, so the two agree send for send. */
module ProductEventPublisher {
  import opened Wrappers
  import opened JavaText
  import opened ErrorClassifier
  import opened Kafka
  import opened Events
  import opened DomainEventPublisher

  class ProductEventPublisher {
    const topicConfiguration: TopicConfiguration
    const kafkaProducer: Producer<ProductUpsertedEvent>
    const kafkaDeletedProducer: Producer<ProductDeletedEvent>
    /** The reasons handed to `publishProductUpsertFailed`, which the source only logs. */
    var failReasons: seq<string>

    constructor (topicConfiguration: TopicConfiguration,
                 kafkaProducer: Producer<ProductUpsertedEvent>,
                 kafkaDeletedProducer: Producer<ProductDeletedEvent>)
      ensures this.topicConfiguration == topicConfiguration
      ensures this.kafkaProducer == kafkaProducer && this.kafkaDeletedProducer == kafkaDeletedProducer
      ensures failReasons == []
    {
      this.topicConfiguration := topicConfiguration;
      this.kafkaProducer := kafkaProducer;
      this.kafkaDeletedProducer := kafkaDeletedProducer;
      failReasons := [];
    }

    /** `publishProductUpserted`: never throws; sends exactly as the generic
        publisher does over the upsert topics; the delete producer is untouched. */
    method PublishProductUpserted(key: string, ev: ProductUpsertedEvent) returns (thrown: Option<JavaException>)
      modifies this, kafkaProducer
      ensures var t := PublishTrace(kafkaProducer.outcome, |old(kafkaProducer.sent)|, UpsertTopics(topicConfiguration), key, ev);
        kafkaProducer.sent == old(kafkaProducer.sent) + t.sends && failReasons == old(failReasons) + t.reasons
      ensures unchanged(kafkaDeletedProducer)
      ensures thrown == None
    {
      var sendError := SendUpsertedToKafka(key, ev);
      thrown := None;
      if sendError.Some? {
        thrown := HandlePublishFailure(key, ev, sendError.value);
      }
    }

    /** `publishProductUpsertFailed`: one send to the upsert fail topic; its
        errors are swallowed. */
    method PublishProductUpsertFailed(key: string, ev: ProductUpsertedEvent, reason: string) returns (thrown: Option<JavaException>)
      modifies this, kafkaProducer
      ensures kafkaProducer.sent == old(kafkaProducer.sent) + [Record(topicConfiguration.productUpsertFail, key, ev)]
      ensures failReasons == old(failReasons) + [reason]
      ensures unchanged(kafkaDeletedProducer)
      ensures thrown == None
    {
      failReasons := failReasons + [reason];
      var sendError := kafkaProducer.Send(Record(topicConfiguration.productUpsertFail, key, ev));
      thrown := None;
    }

    /** `publishProductDeleted`: one send to the delete topic on the delete
        producer; a failure is only logged, with no retry or fail routing. */
    method PublishProductDeleted(key: string, ev: ProductDeletedEvent) returns (thrown: Option<JavaException>)
      modifies kafkaDeletedProducer
      ensures kafkaDeletedProducer.sent == old(kafkaDeletedProducer.sent) + [Record(topicConfiguration.productDelete, key, ev)]
      ensures unchanged(kafkaProducer) && unchanged(this)
      ensures thrown == None
    {
      var sendError := SendDeletedToKafka(key, ev);
      thrown := None;
    }

    /** `sendMessageToKafka` for an upserted event. */
    method SendUpsertedToKafka(key: string, ev: ProductUpsertedEvent) returns (thrown: Option<JavaException>)
      modifies kafkaProducer
      ensures var r := Record(topicConfiguration.productUpsert, key, ev);
        kafkaProducer.sent == old(kafkaProducer.sent) + [r] && thrown == kafkaProducer.outcome(|old(kafkaProducer.sent)|, r)
      ensures unchanged(kafkaDeletedProducer)
    {
      thrown := kafkaProducer.Send(Record(topicConfiguration.productUpsert, key, ev));
    }

    /** `sendMessageToKafka` for a deleted event. */
    method SendDeletedToKafka(key: string, ev: ProductDeletedEvent) returns (thrown: Option<JavaException>)
      modifies kafkaDeletedProducer
      ensures var r := Record(topicConfiguration.productDelete, key, ev);
        kafkaDeletedProducer.sent == old(kafkaDeletedProducer.sent) + [r]
        && thrown == kafkaDeletedProducer.outcome(|old(kafkaDeletedProducer.sent)|, r)
      ensures unchanged(kafkaProducer)
    {
      thrown := kafkaDeletedProducer.Send(Record(topicConfiguration.productDelete, key, ev));
    }

    /** `handlePublishFailure`: the same classifier as the generic publisher. */
    method HandlePublishFailure(key: string, ev: ProductUpsertedEvent, x: JavaException) returns (thrown: Option<JavaException>)
      modifies this, kafkaProducer
      ensures var t := FailureTrace(kafkaProducer.outcome, |old(kafkaProducer.sent)|, UpsertTopics(topicConfiguration), key, ev, x);
        kafkaProducer.sent == old(kafkaProducer.sent) + t.sends && failReasons == old(failReasons) + t.reasons
      ensures unchanged(kafkaDeletedProducer)
      ensures thrown == None
    {
      if IsRetryable(Some(x)) {
        thrown := PublishProductUpsertRetry(key, ev);
        return;
      }
      thrown := PublishProductUpsertFailed(key, ev, "Non-retryable error: " + Show(x.message));
    }

    /** `publishProductUpsertRetry`: one send to the upsert retry topic, and a
        "Retry failed: " fail-topic send if that throws. */
    method PublishProductUpsertRetry(key: string, ev: ProductUpsertedEvent) returns (thrown: Option<JavaException>)
      modifies this, kafkaProducer
      ensures var t := RetryTrace(kafkaProducer.outcome, |old(kafkaProducer.sent)|, UpsertTopics(topicConfiguration), key, ev);
        kafkaProducer.sent == old(kafkaProducer.sent) + t.sends && failReasons == old(failReasons) + t.reasons
      ensures unchanged(kafkaDeletedProducer)
      ensures thrown == None
    {
      var sendError := kafkaProducer.Send(Record(topicConfiguration.productUpsertRetryFail, key, ev));
      thrown := None;
      if sendError.Some? {
        thrown := PublishProductUpsertFailed(key, ev, "Retry failed: " + Show(sendError.value.message));
      }
    }
  }
}
