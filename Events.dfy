/** The two domain events the service publishes. Only the fields the pipeline
    reads are kept; the rest of the payload (category, unit, description,
    timestamp) travels unchanged and is irrelevant here. Both events carry an
    optional `tenantId`, which the listeners read. */
module Events {
  import opened Wrappers
  import opened JavaText

  datatype ProductAction = Created | Updated | Deleted

  datatype ProductUpsertedEvent = ProductUpsertedEvent(
    id: Option<string>,
    name: Option<string>,
    articleNumber: Option<string>,
    priceCents: int,
    action: ProductAction,
    tenantId: Option<string>)

  datatype ProductDeletedEvent = ProductDeletedEvent(
    id: Option<string>,
    action: ProductAction,
    tenantId: Option<string>)

  /** The two fields a fallback publish key is built from. */
  datatype KeyFields = KeyFields(tenantId: Option<string>, id: Option<string>)

  function UpsertKeyFields(e: ProductUpsertedEvent): KeyFields {
    KeyFields(e.tenantId, e.id)
  }

  function DeleteKeyFields(e: ProductDeletedEvent): KeyFields {
    KeyFields(e.tenantId, e.id)
  }

  /** The `eventId` hook of both concrete publishers: `event.id()`, which
      cannot throw on a non-null event (`None` would mean the hook threw). */
  function UpsertEventId(e: ProductUpsertedEvent): Option<string> {
    Some(Show(e.id))
  }

  function DeleteEventId(e: ProductDeletedEvent): Option<string> {
    Some(Show(e.id))
  }
}
