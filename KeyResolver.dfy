/** How the service builds Kafka message keys: the resolver used when an event
    is first published (`tenantId-productId`, nulls rejected), and the
    listeners' fallback chain when a retry-topic message is republished. */
module KeyResolver {
  import opened Wrappers
  import opened JavaText
  import opened ErrorClassifier
  import opened Events

  const EVENT_KEY_SEPARATOR: string := "-"
  const NULL_IDS_MESSAGE: string := "Tenant ID and product ID must not be null"

  /** `resolveProductKey`: an `IllegalArgumentException` when either id is
      null, otherwise the two ids joined by the separator. Blank ids are not
      rejected. */
  function ResolveProductKey(tenantId: Option<string>, productId: Option<string>): (r: Result<string, JavaException>)
    ensures r.Failure? <==> tenantId.None? || productId.None?
    ensures r.Failure? ==> r.error == JavaException(IllegalArgument, Some(NULL_IDS_MESSAGE), None)
    ensures r.Success? ==>
      && |r.value| == |tenantId.value| + 1 + |productId.value|
      && r.value[..|tenantId.value| + 1] == tenantId.value + EVENT_KEY_SEPARATOR
      && r.value[|tenantId.value| + 1..] == productId.value
  {
    if tenantId.None? || productId.None? then
      Failure(JavaException(IllegalArgument, Some(NULL_IDS_MESSAGE), None))
    else
      Success(tenantId.value + EVENT_KEY_SEPARATOR + productId.value)
  }

  /** The key splits back into its two ids once the tenant id's length is
      known: two keys with equal tenant-id lengths are equal only for equal
      ids. */
  lemma ProductKeyDeterminesIds(t1: string, p1: string, t2: string, p2: string)
    requires |t1| == |t2|
    requires ResolveProductKey(Some(t1), Some(p1)) == ResolveProductKey(Some(t2), Some(p2))
    ensures t1 == t2 && p1 == p2
  {
    var k := ResolveProductKey(Some(t1), Some(p1)).value;
    assert t1 == k[..|t1|];
    assert t2 == k[..|t2|];
  }

  /** Without the length the key does not determine the ids: the separator
      may itself occur inside either id. */
  lemma ProductKeysCanCollide()
    ensures ResolveProductKey(Some("a-b"), Some("c")) == ResolveProductKey(Some("a"), Some("b-c"))
  {
    assert "a-b" + EVENT_KEY_SEPARATOR + "c" == "a-b-c" == "a" + EVENT_KEY_SEPARATOR + "b-c";
  }

  /** Two resolved keys: the resolver's example, tenant "Event-tenant" and
      product "product-1"; and two empty ids, which pass the null guard and
      give the bare separator. */
  lemma ExampleProductKeys()
    ensures ResolveProductKey(Some("Event-tenant"), Some("product-1")) == Success("Event-tenant-product-1")
    ensures ResolveProductKey(Some(""), Some("")) == Success("-")
  {
    assert "Event-tenant" + EVENT_KEY_SEPARATOR + "product-1" == "Event-tenant-product-1";
    assert "" + EVENT_KEY_SEPARATOR + "" == "-";
  }

  /** The listeners' `resolveKafkaKey`: the incoming key when it is non-null
      and not blank; else `tenantId-id` of the decoded event when both are
      non-null; else "unknown-" and the clock reading `now` in milliseconds. */
  function ResolveKafkaKey(incomingKey: Option<string>, event: Option<KeyFields>, now: int): (r: string)
    ensures incomingKey.Some? && !IsBlank(incomingKey.value) ==> r == incomingKey.value
    ensures (incomingKey.None? || IsBlank(incomingKey.value)) && event.Some?
            && event.value.tenantId.Some? && event.value.id.Some?
            ==> r == event.value.tenantId.value + "-" + event.value.id.value
    ensures (incomingKey.None? || IsBlank(incomingKey.value))
            && (event.None? || event.value.tenantId.None? || event.value.id.None?)
            ==> r == "unknown-" + IntToDecimal(now)
  {
    if incomingKey.Some? && !IsBlank(incomingKey.value) then incomingKey.value
    else if event.Some? && event.value.tenantId.Some? && event.value.id.Some? then
      event.value.tenantId.value + "-" + event.value.id.value
    else "unknown-" + IntToDecimal(now)
  }

  /** A republished message always has a non-empty key. */
  lemma KafkaKeyNeverEmpty(incomingKey: Option<string>, event: Option<KeyFields>, now: int)
    ensures |ResolveKafkaKey(incomingKey, event, now)| > 0
  {
    if incomingKey.Some? && !IsBlank(incomingKey.value) {
      assert incomingKey.value != [];
    }
  }

  /** The listeners' second step builds the same key the resolver would have
      built for the event's tenant and id. */
  lemma FallbackKeyAgreesWithResolver(incomingKey: Option<string>, fields: KeyFields, now: int)
    requires incomingKey.None? || IsBlank(incomingKey.value)
    requires fields.tenantId.Some? && fields.id.Some?
    ensures Success(ResolveKafkaKey(incomingKey, Some(fields), now)) == ResolveProductKey(fields.tenantId, fields.id)
  {
  }

  /** An "unknown-" key carries the clock reading it was made from, and the
      reading can be read back from it. */
  lemma UnknownKeyEncodesClock(incomingKey: Option<string>, event: Option<KeyFields>, now: int)
    requires incomingKey.None? || IsBlank(incomingKey.value)
    requires event.None? || event.value.tenantId.None? || event.value.id.None?
    ensures var r := ResolveKafkaKey(incomingKey, event, now);
      && |r| > 8 && r[..8] == "unknown-"
      && var digits := r[8..];
         digits == IntToDecimal(now) && ParseInt(digits) == now
  {
    var r := ResolveKafkaKey(incomingKey, event, now);
    assert r[8..] == IntToDecimal(now);
    IntDecimalRoundTrip(now);
  }

  /** Two republishes of the same blank-keyed, id-less message at different
      instants get different keys. */
  lemma UnknownKeysDifferByClock(incomingKey: Option<string>, now1: int, now2: int)
    requires incomingKey.None? || IsBlank(incomingKey.value)
    requires now1 != now2
    ensures ResolveKafkaKey(incomingKey, None, now1) != ResolveKafkaKey(incomingKey, None, now2)
  {
    UnknownKeyEncodesClock(incomingKey, None, now1);
    UnknownKeyEncodesClock(incomingKey, None, now2);
  }
}
