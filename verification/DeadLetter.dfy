/**
  The two dead-letter formats and the one reader of both: the outbox worker wraps the
  message it could not publish, the Kafka consumer wraps the message it could not handle,
  and the replay tool has to recover the original from either.
 */
module DeadLetter {
  import opened Common
  import opened Text

  /** Object keys: the ones the formats use, named after their spelling, and all others. */
  datatype Name =
    | Id | AggregateType | AggregateId | EventType | PayloadField | PublishedAt
    | OutboxId | PublishError | DlqPublishedAt
    | OriginalTopic | OriginalPartition | OriginalOffset | OriginalKey | OriginalValue
    | ErrorMessage | FailedAt | RetryCount
    | Other(name: string)

  /** JSON documents, with text left out: encoding and decoding are taken as inverse. */
  datatype Json = Null | Bool(b: bool) | Num(n: int) | Str(s: string) | Arr(elements: seq<Json>)
    | Obj(fields: map<Name, Json>)

  /** Bytes read as UTF-8: characters, and bytes that are part of none. */
  datatype Unit = Char(c: char) | BadByte(b: int)

  type Bytes = seq<Unit>

  const REPLACEMENT: char := '\U{FFFD}'

  /** What JSON encoding makes of bytes: every bad byte becomes the replacement character. */
  function Sanitize(b: Bytes): string {
    seq(|b|, i requires 0 <= i < |b| => if b[i].Char? then b[i].c else REPLACEMENT)
  }

  function Encode(s: string): Bytes {
    seq(|s|, i requires 0 <= i < |s| => Char(s[i]))
  }

  predicate ValidUtf8(b: Bytes) {
    forall i | 0 <= i < |b| :: b[i].Char?
  }

  lemma SanitizeLossless(b: Bytes)
    ensures Encode(Sanitize(b)) == b <==> ValidUtf8(b)
  {
    if Encode(Sanitize(b)) == b {
      forall i | 0 <= i < |b| ensures b[i].Char? { assert Encode(Sanitize(b))[i].Char?; }
    } else {
      assert exists i :: 0 <= i < |b| && Encode(Sanitize(b))[i] != b[i];
    }
  }

  // -------------------------------------------------------- publishing an outbox message

  /** The raw payload of an outbox message: absent, not JSON, or a document. */
  datatype Payload = NoPayload | NotJson | Document(json: Json)

  datatype Event = Event(id: string, aggregateType: string, aggregateId: string, eventType: string, payload: Payload)

  /** A raw message is copied into the encoding; nil is written as null, bad JSON is an error. */
  function Raw(p: Payload): Option<Json> {
    match p
    case NoPayload => Some(Null)
    case NotJson => None
    case Document(j) => Some(j)
  }

  function EnvelopeFields(
    id: string, aggregateType: string, aggregateId: string, eventType: string, payload: Json, at: string)
    : map<Name, Json>
  {
    map[Id := Str(id), AggregateType := Str(aggregateType), AggregateId := Str(aggregateId),
        EventType := Str(eventType), PayloadField := payload, PublishedAt := Str(at)]
  }

  /** The envelope and key under which the publisher sends an event. */
  function Envelope(e: Event, at: string): Option<Json> {
    match Raw(e.payload)
    case None => None
    case Some(payload) => Some(Obj(EnvelopeFields(e.id, e.aggregateType, e.aggregateId, e.eventType, payload, at)))
  }

  function Key(e: Event): string {
    if e.aggregateId == "" then e.id else e.aggregateId
  }

  /** What the worker sends to the dead-letter topic through the same publisher. */
  function OutboxDeadLetter(e: Event, error: string, dlqAt: string, at: string): Option<Json> {
    match Raw(e.payload)
    case None => None
    case Some(payload) =>
      var wrapped := Obj(map[
        OutboxId := Str(e.id), AggregateType := Str(e.aggregateType), AggregateId := Str(e.aggregateId),
        EventType := Str(e.eventType), PayloadField := payload, PublishError := Str(error),
        DlqPublishedAt := Str(dlqAt)]);
      Envelope(e.(payload := Document(wrapped)), at)
  }

  // --------------------------------------------------------- a message the consumer gave up on

  datatype KafkaMessage = KafkaMessage(
    topic: string, partition: int, offset: int, key: Bytes, value: Bytes, retries: int)

  function ConsumerDeadLetter(m: KafkaMessage, error: string, at: string): Json {
    Obj(map[
      OriginalTopic := Str(m.topic), OriginalPartition := Num(m.partition), OriginalOffset := Num(m.offset),
      OriginalKey := Str(Sanitize(m.key)), OriginalValue := Str(Sanitize(m.value)),
      ErrorMessage := Str(error), FailedAt := Str(at), RetryCount := Num(m.retries)])
  }

  // ------------------------------------------------------------------------- the reader

  predicate IsStruct(j: Json) {
    j.Obj? || j.Null?
  }

  /** A string field of a decoded struct: null and absence leave it empty, other types are an error. */
  function StringField(j: Json, name: Name): Option<string> {
    if !j.Obj? || name !in j.fields || j.fields[name].Null? then Some("")
    else if j.fields[name].Str? then Some(j.fields[name].s)
    else None
  }

  /** A raw field keeps whatever JSON stands there; it is empty only when absent. */
  function RawField(j: Json, name: Name): Option<Json> {
    if j.Obj? && name in j.fields then Some(j.fields[name]) else None
  }

  function FirstNonEmpty(a: string, b: string): string {
    if TrimSpace(a) != "" then a else if TrimSpace(b) != "" then b else ""
  }

  datatype Value = RawBytes(bytes: Bytes) | Enveloped(json: Json)

  datatype Extracted =
    | Replay(topic: string, key: string, value: Value)
    | Skip
    | Unsupported

  /** The string fields a struct declares are absent, null or strings. */
  predicate DecodesConsumer(j: Json) {
    && IsStruct(j) && StringField(j, OriginalTopic).Some? && StringField(j, OriginalKey).Some?
    && StringField(j, OriginalValue).Some?
  }

  predicate DecodesEvent(j: Json, id: Name) {
    && IsStruct(j) && StringField(j, id).Some? && StringField(j, AggregateType).Some?
    && StringField(j, AggregateId).Some? && StringField(j, EventType).Some?
  }

  function ExtractOutbox(j: Json, defaultTopic: string, at: string): Extracted {
    if !DecodesEvent(j, Id) then Skip
    else
      match RawField(j, PayloadField)
      case None => Skip
      case Some(p) =>
        if !DecodesEvent(p, OutboxId) then Unsupported
        else
          match RawField(p, PayloadField)
          case None => Unsupported
          case Some(original) => Rewrapped(j, p, original, defaultTopic, at)
  }

  /** A fresh envelope around the original payload. */
  function Rewrapped(j: Json, p: Json, original: Json, topic: string, at: string): Extracted {
    var id := FirstNonEmpty(Field(p, OutboxId), Field(j, Id));
    var aggregateType := FirstNonEmpty(Field(p, AggregateType), Field(j, AggregateType));
    var aggregateId := FirstNonEmpty(Field(p, AggregateId), Field(j, AggregateId));
    var eventType := FirstNonEmpty(Field(p, EventType), Field(j, EventType));
    Replay(topic, if aggregateId == "" then id else aggregateId,
           Enveloped(Obj(EnvelopeFields(id, aggregateType, aggregateId, eventType, original, at))))
  }

  function Field(j: Json, name: Name): string {
    var f := StringField(j, name);
    if f.Some? then f.value else ""
  }

  /** Reads a dead letter; `wire` is None when the bytes are not JSON. */
  function Extract(wire: Option<Json>, defaultTopic: string, at: string): Extracted {
    if wire.None? then Skip
    else
      var j := wire.value;
      if DecodesConsumer(j) && Field(j, OriginalValue) != "" then
        var topic := TrimSpace(Field(j, OriginalTopic));
        Replay(if topic == "" then defaultTopic else topic, Field(j, OriginalKey),
               RawBytes(Encode(Field(j, OriginalValue))))
      else ExtractOutbox(j, defaultTopic, at)
  }

  // --------------------------------------------------------------- what is on the wire

  /** An object with exactly the fields of an envelope. */
  predicate IsEnvelope(
    j: Json, id: string, aggregateType: string, aggregateId: string, eventType: string, payload: Json, at: string) {
    && j.Obj? && j.fields.Keys == {Id, AggregateType, AggregateId, EventType, PayloadField, PublishedAt}
    && j.fields[Id] == Str(id) && j.fields[AggregateType] == Str(aggregateType)
    && j.fields[AggregateId] == Str(aggregateId) && j.fields[EventType] == Str(eventType)
    && j.fields[PayloadField] == payload && j.fields[PublishedAt] == Str(at)
  }

  /** What stands for a payload: its document, or null when there is none. */
  predicate StandsFor(j: Json, p: Payload) {
    (p == NoPayload && j == Null) || p == Document(j)
  }

  /** An event travels under its aggregate, or under its own id without one, and only with a JSON payload. */
  lemma EnvelopeIs(e: Event, at: string)
    ensures Envelope(e, at) == None <==> e.payload == NotJson
    ensures e.payload != NotJson ==>
              exists p :: StandsFor(p, e.payload)
                          && IsEnvelope(Envelope(e, at).value, e.id, e.aggregateType, e.aggregateId, e.eventType, p, at)
    ensures (e.aggregateId != "" ==> Key(e) == e.aggregateId) && (e.aggregateId == "" ==> Key(e) == e.id)
  {
    if e.payload != NotJson { assert StandsFor(Raw(e.payload).value, e.payload); }
  }

  /** The worker's dead letter is an envelope around the event and the reason it was given up for. */
  lemma OutboxDeadLetterIs(e: Event, error: string, dlqAt: string, at: string)
    requires e.payload != NotJson
    ensures OutboxDeadLetter(e, error, dlqAt, at).Some?
    ensures var j := OutboxDeadLetter(e, error, dlqAt, at).value;
            && j.Obj? && PayloadField in j.fields && j.fields[PayloadField].Obj?
            && var p := j.fields[PayloadField];
               && IsEnvelope(j, e.id, e.aggregateType, e.aggregateId, e.eventType, p, at)
               && p.fields.Keys == {OutboxId, AggregateType, AggregateId, EventType, PayloadField, PublishError,
                                    DlqPublishedAt}
               && p.fields[OutboxId] == Str(e.id) && p.fields[AggregateType] == Str(e.aggregateType)
               && p.fields[AggregateId] == Str(e.aggregateId) && p.fields[EventType] == Str(e.eventType)
               && StandsFor(p.fields[PayloadField], e.payload) && p.fields[PublishError] == Str(error)
               && p.fields[DlqPublishedAt] == Str(dlqAt)
  {
  }

  /** The consumer's dead letter names where the message came from, why it failed and after how many retries. */
  lemma ConsumerDeadLetterIs(m: KafkaMessage, error: string, at: string)
    ensures var j := ConsumerDeadLetter(m, error, at);
            && j.Obj?
            && j.fields.Keys == {OriginalTopic, OriginalPartition, OriginalOffset, OriginalKey, OriginalValue,
                                 ErrorMessage, FailedAt, RetryCount}
            && j.fields[OriginalTopic] == Str(m.topic) && j.fields[OriginalPartition] == Num(m.partition)
            && j.fields[OriginalOffset] == Num(m.offset) && j.fields[OriginalKey] == Str(Sanitize(m.key))
            && j.fields[OriginalValue] == Str(Sanitize(m.value)) && j.fields[ErrorMessage] == Str(error)
            && j.fields[FailedAt] == Str(at) && j.fields[RetryCount] == Num(m.retries)
  {
  }

  /** The inner text unless it is blank, then the outer one unless it is blank too. */
  predicate Prefers(r: string, inner: string, outer: string) {
    r == if !Blank(inner) then inner else if !Blank(outer) then outer else ""
  }

  /** A document with an inner one that carries a payload, both with text where text belongs. */
  predicate Nested(j: Json) {
    && DecodesEvent(j, Id) && RawField(j, PayloadField).Some?
    && DecodesEvent(RawField(j, PayloadField).value, OutboxId)
    && RawField(RawField(j, PayloadField).value, PayloadField).Some?
  }

  /** A fresh envelope around the original, with these fields, under the aggregate or else the id. */
  predicate Wraps(
    x: Extracted, id: string, kind: string, agg: string, event: string, original: Json, topic: string, at: string) {
    && x.Replay? && x.topic == topic && x.key == (if agg == "" then id else agg) && x.value.Enveloped?
    && IsEnvelope(x.value.json, id, kind, agg, event, original, at)
  }

  ghost predicate ReadFrom(x: Extracted, j: Json, p: Json, original: Json, topic: string, at: string) {
    exists id, kind, agg, event ::
      && Wraps(x, id, kind, agg, event, original, topic, at)
      && Prefers(id, Field(p, OutboxId), Field(j, Id))
      && Prefers(kind, Field(p, AggregateType), Field(j, AggregateType))
      && Prefers(agg, Field(p, AggregateId), Field(j, AggregateId))
      && Prefers(event, Field(p, EventType), Field(j, EventType))
  }

  lemma EnvelopeHasFields(
    id: string, kind: string, agg: string, event: string, payload: Json, at: string)
    ensures IsEnvelope(Obj(EnvelopeFields(id, kind, agg, event, payload, at)), id, kind, agg, event, payload, at)
  {
  }

  lemma RewrappedIs(j: Json, p: Json, original: Json, topic: string, at: string)
    ensures ReadFrom(Rewrapped(j, p, original, topic, at), j, p, original, topic, at)
  {
    var id := PreferInner(Field(p, OutboxId), Field(j, Id));
    var kind := PreferInner(Field(p, AggregateType), Field(j, AggregateType));
    var agg := PreferInner(Field(p, AggregateId), Field(j, AggregateId));
    var event := PreferInner(Field(p, EventType), Field(j, EventType));
    EnvelopeHasFields(id, kind, agg, event, original, at);
    assert Wraps(Rewrapped(j, p, original, topic, at), id, kind, agg, event, original, topic, at);
  }

  /**
    How any document without an original value is read: skipped without a payload of its
    own, unsupported without an inner one, and otherwise replayed with the inner fields
    preferred over the outer ones.
   */
  lemma OutboxIsRead(j: Json, topic: string, at: string)
    requires DecodesConsumer(j) ==> Field(j, OriginalValue) == ""
    ensures var x := Extract(Some(j), topic, at);
            && (x.Skip? <==> !DecodesEvent(j, Id) || RawField(j, PayloadField).None?)
            && (x.Replay? <==> Nested(j))
            && (Nested(j) ==>
                  var p := RawField(j, PayloadField).value;
                  ReadFrom(x, j, p, RawField(p, PayloadField).value, topic, at))
  {
    if Nested(j) {
      var p := RawField(j, PayloadField).value;
      RewrappedIs(j, p, RawField(p, PayloadField).value, topic, at);
    }
  }

  /** Any document with an original value is replayed as that value, to its own topic if it names one. */
  lemma ConsumerIsRead(j: Json, topic: string, at: string)
    requires DecodesConsumer(j) && Field(j, OriginalValue) != ""
    ensures var own := Field(j, OriginalTopic);
            Extract(Some(j), topic, at) == Replay(if Blank(own) then topic else TrimSpace(own), Field(j, OriginalKey),
              RawBytes(Encode(Field(j, OriginalValue))))
  {
  }

  lemma PreferInner(inner: string, outer: string) returns (r: string)
    ensures r == FirstNonEmpty(inner, outer) && Prefers(r, inner, outer)
  {
    r := FirstNonEmpty(inner, outer);
  }

  // --------------------------------------------------------------------- round trips

  /** Empty, or not made of white space only. */
  predicate Clean(s: string) {
    s == "" || !Blank(s)
  }

  predicate CleanEvent(e: Event) {
    Clean(e.id) && Clean(e.aggregateType) && Clean(e.aggregateId) && Clean(e.eventType)
  }

  lemma FirstNonEmptyTwice(s: string)
    ensures FirstNonEmpty(s, s) == s <==> Clean(s)
  {
  }

  /** What the reader makes of the worker's dead letter, field by field. */
  lemma OutboxExtracted(e: Event, payload: Json, error: string, dlqAt: string, at: string, topic: string, now: string)
    requires Raw(e.payload) == Some(payload)
    ensures OutboxDeadLetter(e, error, dlqAt, at).Some?
    ensures var x := Extract(OutboxDeadLetter(e, error, dlqAt, at), topic, now);
            var id, agg := FirstNonEmpty(e.id, e.id), FirstNonEmpty(e.aggregateId, e.aggregateId);
            x == Replay(topic, if agg == "" then id else agg,
                        Enveloped(Obj(EnvelopeFields(id, FirstNonEmpty(e.aggregateType, e.aggregateType), agg,
                                                    FirstNonEmpty(e.eventType, e.eventType), payload, now))))
  {
    var j := OutboxDeadLetter(e, error, dlqAt, at).value;
    var p := j.fields[PayloadField];
    assert OriginalValue !in j.fields;
    HasFields(j, Id, e, p);
    HasFields(p, OutboxId, e, payload);
  }

  /** Reading an object that carries an event's fields gives them back. */
  lemma HasFields(j: Json, id: Name, e: Event, payload: Json)
    requires j.Obj? && id in j.fields && j.fields[id] == Str(e.id)
    requires AggregateType in j.fields && j.fields[AggregateType] == Str(e.aggregateType)
    requires AggregateId in j.fields && j.fields[AggregateId] == Str(e.aggregateId)
    requires EventType in j.fields && j.fields[EventType] == Str(e.eventType)
    requires PayloadField in j.fields && j.fields[PayloadField] == payload
    ensures DecodesEvent(j, id) && RawField(j, PayloadField) == Some(payload)
    ensures Field(j, id) == e.id && Field(j, AggregateType) == e.aggregateType
    ensures Field(j, AggregateId) == e.aggregateId && Field(j, EventType) == e.eventType
  {
  }

  predicate SameFields(a: Event, id: string, aggregateType: string, aggregateId: string, eventType: string) {
    a.id == id && a.aggregateType == aggregateType && a.aggregateId == aggregateId && a.eventType == eventType
  }

  lemma FieldsEqual(
    a: Event, id: string, aggregateType: string, aggregateId: string, eventType: string, payload: Json, at: string)
    ensures EnvelopeFields(a.id, a.aggregateType, a.aggregateId, a.eventType, payload, at)
              == EnvelopeFields(id, aggregateType, aggregateId, eventType, payload, at)
            <==> SameFields(a, id, aggregateType, aggregateId, eventType)
  {
    var x := EnvelopeFields(a.id, a.aggregateType, a.aggregateId, a.eventType, payload, at);
    var y := EnvelopeFields(id, aggregateType, aggregateId, eventType, payload, at);
    if x == y {
      assert x[Id] == y[Id] && x[AggregateType] == y[AggregateType];
      assert x[AggregateId] == y[AggregateId] && x[EventType] == y[EventType];
    }
  }

  /**
    Replaying what the worker dead-lettered sends the very envelope the publisher would
    have sent now, exactly when no field is blank without being empty; then the key is
    the publisher's key too.  Without a JSON payload there is no dead letter at all.
   */
  lemma OutboxRoundTrip(e: Event, error: string, dlqAt: string, at: string, topic: string, now: string)
    ensures OutboxDeadLetter(e, error, dlqAt, at).None? <==> e.payload.NotJson?
    ensures e.payload.NotJson? ==> !Extract(OutboxDeadLetter(e, error, dlqAt, at), topic, now).Replay?
    ensures !e.payload.NotJson? ==>
              var x := Extract(OutboxDeadLetter(e, error, dlqAt, at), topic, now);
              && x.Replay? && x.topic == topic && x.value.Enveloped?
              && (Some(x.value.json) == Envelope(e, now) <==> CleanEvent(e))
              && (CleanEvent(e) ==> x.key == Key(e))
  {
    if !e.payload.NotJson? {
      var payload := Raw(e.payload).value;
      var id, kind := FirstNonEmpty(e.id, e.id), FirstNonEmpty(e.aggregateType, e.aggregateType);
      var agg, event := FirstNonEmpty(e.aggregateId, e.aggregateId), FirstNonEmpty(e.eventType, e.eventType);
      OutboxExtracted(e, payload, error, dlqAt, at, topic, now);
      FieldsEqual(e, id, kind, agg, event, payload, now);
      assert CleanEvent(e) <==> SameFields(e, id, kind, agg, event) by {
        FirstNonEmptyTwice(e.id);
        FirstNonEmptyTwice(e.aggregateType);
        FirstNonEmptyTwice(e.aggregateId);
        FirstNonEmptyTwice(e.eventType);
      }
    }
  }

  /** The topic a consumer dead letter is replayed to is the original one. */
  predicate TopicSurvives(topic: string, defaultTopic: string) {
    if Blank(topic) then topic == defaultTopic else TrimSpace(topic) == topic
  }

  /**
    Replaying what the consumer dead-lettered sends the same topic, key and value exactly
    when the value is not empty, key and value are UTF-8 and the topic survives trimming;
    a dead letter with an empty value is skipped.
   */
  lemma ConsumerRoundTrip(m: KafkaMessage, error: string, at: string, defaultTopic: string, now: string)
    ensures var x := Extract(Some(ConsumerDeadLetter(m, error, at)), defaultTopic, now);
            && (x.Skip? <==> m.value == []) && (x.Replay? <==> m.value != []) && (x.Replay? ==> x.value.RawBytes?)
            && (x.Replay? && x.topic == m.topic && Encode(x.key) == m.key && x.value == RawBytes(m.value)
                <==> m.value != [] && ValidUtf8(m.key) && ValidUtf8(m.value) && TopicSurvives(m.topic, defaultTopic))
  {
    var j := ConsumerDeadLetter(m, error, at);
    assert DecodesConsumer(j);
    assert Field(j, OriginalValue) == Sanitize(m.value) && Field(j, OriginalKey) == Sanitize(m.key);
    assert RawField(j, PayloadField) == None;
    SanitizeLossless(m.key);
    SanitizeLossless(m.value);
    assert |Sanitize(m.value)| == |m.value|;
  }

  /** The reader never takes one format for the other. */
  lemma FormatsAreTold(e: Event, m: KafkaMessage, error: string, dlqAt: string, at: string, topic: string, now: string)
    ensures var x := Extract(OutboxDeadLetter(e, error, dlqAt, at), topic, now); x.Replay? ==> x.value.Enveloped?
    ensures var x := Extract(Some(ConsumerDeadLetter(m, error, at)), topic, now); x.Replay? ==> x.value.RawBytes?
  {
    var x := Extract(OutboxDeadLetter(e, error, dlqAt, at), topic, now);
    assert x.Replay? ==> x.value.Enveloped? by { OutboxRoundTrip(e, error, dlqAt, at, topic, now); }
    var y := Extract(Some(ConsumerDeadLetter(m, error, at)), topic, now);
    assert y.Replay? ==> y.value.RawBytes? by { ConsumerRoundTrip(m, error, at, topic, now); }
  }
}
