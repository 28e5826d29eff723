/** The exceptions a producer `send` can throw, and the classifier
    (`isRetryable`) that routes a failed main-topic send either to the retry
    topic or straight to the fail topic. The abstract publisher and the legacy
    product publisher carry identical copies of the rule; it is defined once. */
module ErrorClassifier {
  import opened Wrappers
  import opened JavaText

  /** The part of the Java class hierarchy the classifier looks at.
      `KafkaRetriable` is any `org.apache.kafka.common.errors.RetriableException`
      (Kafka's own `TimeoutException` is one); `KafkaOther` is any other
      `KafkaException`; `JdkTimeout` is `java.util.concurrent.TimeoutException`. */
  datatype ExceptionKind = JdkTimeout | KafkaRetriable | KafkaOther | IllegalArgument | Other

  /** A thrown exception: its class, `getMessage()` (possibly null) and
      `getCause()` (possibly null). */
  datatype JavaException = JavaException(kind: ExceptionKind, message: Option<string>, cause: Option<JavaException>)

  predicate IsKafkaException(k: ExceptionKind) {
    k == KafkaRetriable || k == KafkaOther
  }

  /** The throwable the classifier inspects: the cause when there is one,
      otherwise the exception itself. */
  function RootOf(e: JavaException): (r: JavaException)
    ensures e.cause.Some? ==> r == e.cause.value
    ensures e.cause.None? ==> r == e
  {
    if e.cause.Some? then e.cause.value else e
  }

  /** The message mentions "retryable" in any letter case. */
  predicate MentionsRetryable(message: Option<string>) {
    message.Some? && ContainsText(ToLowerAscii(message.value), "retryable")
  }

  /** `isRetryable`: false for null; otherwise the root (one level of cause at
      most) is a JDK timeout, a Kafka retriable exception, or a Kafka exception
      whose lower-cased message contains "retryable". */
  function IsRetryable(e: Option<JavaException>): (r: bool)
    ensures e.None? ==> !r
    ensures e.Some? ==>
      (r <==> var root := RootOf(e.value);
                root.kind == JdkTimeout || root.kind == KafkaRetriable
                || (IsKafkaException(root.kind) && MentionsRetryable(root.message)))
  {
    match e
    case None => false
    case Some(ex) =>
      var root := if ex.cause.Some? then ex.cause.value else ex;
      || root.kind == JdkTimeout
      || root.kind == KafkaRetriable
      || (root.kind == KafkaOther && MentionsRetryable(root.message))
  }

  /** Only one level of cause is unwrapped: whatever the cause itself wraps
      never changes the verdict, and a wrapper with a cause is judged by the
      cause alone, whatever its own class. */
  lemma ClassifierLooksOneLevelDeep(k: ExceptionKind, m: Option<string>, c: JavaException)
    ensures IsRetryable(Some(JavaException(k, m, Some(c))))
         == IsRetryable(Some(JavaException(c.kind, c.message, None)))
  {
  }

  /** A `KafkaException("non-retryable")` counts as retryable, because the
      lower-cased message contains "retryable". The publish-failure integration
      test relies on this when it expects two sends (main, then retry). */
  lemma NonRetryableKafkaMessageIsRetryable()
    ensures IsRetryable(Some(JavaException(KafkaOther, Some("non-retryable"), None)))
  {
    var lowered := ToLowerAscii("non-retryable");
    assert lowered == "non-retryable";
    assert lowered[4..][..9] == "retryable";
    assert ContainsText(lowered[4..], "retryable");
    assert ContainsText(lowered[3..], "retryable");
    assert ContainsText(lowered[2..], "retryable");
    assert ContainsText(lowered[1..], "retryable");
  }

  /** The upper-case "Retryable" of the legacy publisher's test is found too. */
  lemma CapitalisedRetryableIsRetryable()
    ensures IsRetryable(Some(JavaException(KafkaOther, Some("Retryable"), None)))
  {
    assert ToLowerAscii("Retryable") == "retryable";
  }

  /** A plain `RuntimeException` is never retryable, whatever its message says. */
  lemma PlainRuntimeExceptionIsTerminal(m: Option<string>)
    ensures !IsRetryable(Some(JavaException(Other, m, None)))
  {
  }

  /** A retriable exception that wraps a non-Kafka cause is classified by the
      cause, so it is routed to the fail topic. */
  lemma RetriableWrappingPlainCauseIsTerminal(m: Option<string>, cm: Option<string>)
    ensures !IsRetryable(Some(JavaException(KafkaRetriable, m, Some(JavaException(Other, cm, None)))))
  {
  }

  /** A Kafka message mentioning retryable in no letter case is terminal. */
  lemma KafkaMessageWithoutRetryableIsTerminal(msg: string)
    requires forall i :: !OccursAt(ToLowerAscii(msg), "retryable", i)
    ensures !IsRetryable(Some(JavaException(KafkaOther, Some(msg), None)))
  {
    ContainsTextIff(ToLowerAscii(msg), "retryable");
  }
}
