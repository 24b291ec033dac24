/** The Redis wire format of one delivery request (internal/stream/message.go). */
module Message {
  import opened Common
  import opened Uuids

  const EVENT_TYPE_NOTIFICATION_DELIVERY := "notification.delivery_requested"
  const FIELD_OUTBOX_EVENT_ID := "outbox_event_id"
  const FIELD_NOTIFICATION_ID := "notification_id"
  const FIELD_EVENT_TYPE := "event_type"

  /** An outbox event as the relay hands it to the publisher. */
  datatype Event = Event(id: Uuid, nid: Uuid, eventType: string, scheduledAt: Time)

  /** A field value: Redis hands back text, but the Go map can hold anything. */
  datatype Value = Text(text: string) | Opaque

  type Values = map<string, Value>

  datatype DeliveryMessage = DeliveryMessage(outboxEventId: Uuid, nid: Uuid, eventType: string)

  datatype FieldError = Missing(field: string) | NotAString(field: string) | NotAUuid(field: string)

  datatype Parsed<+T> = Good(value: T) | Malformed(error: FieldError)

  function BuildDeliveryMessage(event: Event): Values {
    map[FIELD_OUTBOX_EVENT_ID := Text(UuidText(event.id)),
        FIELD_NOTIFICATION_ID := Text(UuidText(event.nid)),
        FIELD_EVENT_TYPE := Text(event.eventType)]
  }

  function ParseUuidField(values: Values, field: string): Parsed<Uuid> {
    if field !in values then Malformed(Missing(field))
    else if values[field].Opaque? || values[field].text == "" then Malformed(NotAString(field))
    else
      match ParseUuid(values[field].text)
      case None => Malformed(NotAUuid(field))
      case Some(id) => Good(id)
  }

  function ParseDeliveryMessage(values: Values): Parsed<DeliveryMessage> {
    match ParseUuidField(values, FIELD_OUTBOX_EVENT_ID)
    case Malformed(error) => Malformed(error)
    case Good(outboxId) =>
      match ParseUuidField(values, FIELD_NOTIFICATION_ID)
      case Malformed(error) => Malformed(error)
      case Good(nid) =>
        var text := if FIELD_EVENT_TYPE in values && values[FIELD_EVENT_TYPE].Text?
                    then values[FIELD_EVENT_TYPE].text else "";
        Good(DeliveryMessage(outboxId, nid,
                             if text == "" then EVENT_TYPE_NOTIFICATION_DELIVERY else text))
  }

  /** What is on the wire: three text fields, the ids in their 36-character form. */
  lemma WireFormat(event: Event)
    ensures BuildDeliveryMessage(event) ==
            map["outbox_event_id" := Text(UuidText(event.id)),
                "notification_id" := Text(UuidText(event.nid)),
                "event_type" := Text(event.eventType)]
  {
  }

  /** Whatever the message, what is parsed are its own fields. */
  lemma ParsedFields(values: Values)
    requires ParseDeliveryMessage(values).Good?
    ensures var message := ParseDeliveryMessage(values).value;
            && "outbox_event_id" in values && values["outbox_event_id"].Text?
            && ParseUuid(values["outbox_event_id"].text) == Some(message.outboxEventId)
            && "notification_id" in values && values["notification_id"].Text?
            && ParseUuid(values["notification_id"].text) == Some(message.nid)
            && message.eventType != ""
            && ("event_type" in values && values["event_type"].Text? && values["event_type"].text != "" ==>
                  message.eventType == values["event_type"].text)
            && (!("event_type" in values && values["event_type"].Text? && values["event_type"].text != "") ==>
                  message.eventType == "notification.delivery_requested")
  {
  }

  /**
   * What the relay publishes, the worker reads back: both ids exactly, and the
   * event type except that an empty one becomes the default.
   */
  lemma ParseInvertsBuild(event: Event)
    ensures ParseDeliveryMessage(BuildDeliveryMessage(event)) ==
            Good(DeliveryMessage(event.id, event.nid,
                                 if event.eventType == "" then EVENT_TYPE_NOTIFICATION_DELIVERY
                                 else event.eventType))
  {
    ParseUuidText(event.id);
    ParseUuidText(event.nid);
    FieldNamesDiffer();
  }

  lemma FieldNamesDiffer()
    ensures FIELD_OUTBOX_EVENT_ID != FIELD_NOTIFICATION_ID
    ensures FIELD_OUTBOX_EVENT_ID != FIELD_EVENT_TYPE
    ensures FIELD_NOTIFICATION_ID != FIELD_EVENT_TYPE
  {
    assert |FIELD_OUTBOX_EVENT_ID| == |FIELD_NOTIFICATION_ID| == 15;
    assert FIELD_OUTBOX_EVENT_ID[0] != FIELD_NOTIFICATION_ID[0];
  }

  predicate IsUuidField(values: Values, field: string) {
    field in values && values[field].Text? && ParseUuid(values[field].text).Some?
  }

  /** A message is poison exactly when one of its two id fields is not UUID text. */
  lemma PoisonIffBadId(values: Values)
    ensures ParseDeliveryMessage(values).Malformed? <==>
            !IsUuidField(values, FIELD_OUTBOX_EVENT_ID) || !IsUuidField(values, FIELD_NOTIFICATION_ID)
  {
  }
}
