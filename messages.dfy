/** The frame-sample message the page script posts to the content script, and the
    guard `isFrameSampleEvent` of src/shared/messages.ts that admits it. */
module Messages {
  import opened Common
  import opened Js

  const MESSAGE_SOURCE: string := "soccerhud"
  const FRAME_SAMPLE: string := "frame-sample"

  datatype Status = Ok | Error

  /** The typed event: the optional `errorMessage` is `None` when the property is absent. */
  datatype FrameSampleEvent = FrameSampleEvent(
    timestamp: Num, width: Num, height: Num, status: Status, errorMessage: Option<string>)

  function StatusName(status: Status): string
  {
    match status
    case Ok => "ok"
    case Error => "error"
  }

  /** The six properties every frame-sample event carries. */
  predicate IsRequiredKey(key: string)
  {
    key in {"source", "type", "timestamp", "width", "height", "status"}
  }

  /** The object literal the page script builds for an event. */
  function ToValue(e: FrameSampleEvent): (v: Value)
    ensures v.Object?
    ensures forall key :: key in v.properties <==> IsRequiredKey(key) || (key == "errorMessage" && e.errorMessage.Some?)
  {
    var required := map[
      "source" := Str(MESSAGE_SOURCE), "type" := Str(FRAME_SAMPLE),
      "timestamp" := Number(e.timestamp), "width" := Number(e.width), "height" := Number(e.height),
      "status" := Str(StatusName(e.status))];
    Object(if e.errorMessage.Some? then required["errorMessage" := Str(e.errorMessage.value)] else required)
  }

  /** `isFrameSampleEvent(value)`. Only a plain object holding all six required
      properties can pass: null, arrays and primitives are turned away. The `errorMessage` property is never inspected. */
  predicate IsFrameSampleEvent(value: Value)
    ensures IsFrameSampleEvent(value) ==> value.Object?
    ensures IsFrameSampleEvent(value) ==> forall key :: IsRequiredKey(key) ==> key in value.properties
  {
    && IsNonNullObject(value)
    && Get(value, "source") == Str(MESSAGE_SOURCE)
    && Get(value, "type") == Str(FRAME_SAMPLE)
    && Get(value, "timestamp").Number?
    && Get(value, "width").Number?
    && Get(value, "height").Number?
    && (Get(value, "status") == Str("ok") || Get(value, "status") == Str("error"))
  }

  /** The typed event the guard's narrowing promises for an admitted value. The type
      allows only a string `errorMessage`, so a non-string one reads as absent here,
      although the guard lets it through unchanged. */
  function ReadEvent(value: Value): (e: FrameSampleEvent)
    requires IsFrameSampleEvent(value)
    ensures e.timestamp == Get(value, "timestamp").n
    ensures e.width == Get(value, "width").n && e.height == Get(value, "height").n
    ensures Get(value, "status") == Str(StatusName(e.status))
    ensures e.errorMessage.Some? <==> Get(value, "errorMessage").Str?
    ensures e.errorMessage.Some? ==> Get(value, "errorMessage") == Str(e.errorMessage.value)
  {
    var message := Get(value, "errorMessage");
    FrameSampleEvent(
      Get(value, "timestamp").n, Get(value, "width").n, Get(value, "height").n,
      if Get(value, "status") == Str("ok") then Ok else Error,
      if message.Str? then Some(message.s) else None)
  }

  /** Every event the page script posts passes the guard, and reading it back gives
      the event that was posted. */
  lemma PostedEventRoundTrip(e: FrameSampleEvent)
    ensures IsFrameSampleEvent(ToValue(e))
    ensures ReadEvent(ToValue(e)) == e
  {
    var v := ToValue(e);
    assert Get(v, "source") == Str(MESSAGE_SOURCE);
    assert Get(v, "status") == Str(StatusName(e.status));
    assert e.errorMessage.Some? ==> Get(v, "errorMessage") == Str(e.errorMessage.value);
  }

  /** Values that are not objects, and null, are rejected; so is an array, which
      has none of the required properties. */
  lemma RejectsNonObjects(value: Value)
    requires !value.Object?
    ensures !IsFrameSampleEvent(value)
  {
    assert Get(value, "source") == Undefined;
  }

  /** An object is accepted exactly when its six required properties have the
      required source, type, numeric timestamp and size, and an 'ok' or 'error' status. */
  lemma AcceptanceConditions(properties: map<string, Value>)
    ensures IsFrameSampleEvent(Object(properties)) <==>
      && "source" in properties && properties["source"] == Str(MESSAGE_SOURCE)
      && "type" in properties && properties["type"] == Str(FRAME_SAMPLE)
      && "timestamp" in properties && properties["timestamp"].Number?
      && "width" in properties && properties["width"].Number?
      && "height" in properties && properties["height"].Number?
      && "status" in properties && properties["status"] in {Str("ok"), Str("error")}
  {
  }

  /** The required properties are the only ones inspected: two objects that agree on
      them are both accepted or both rejected, whatever `errorMessage` and any extra
      properties hold. */
  lemma OnlyRequiredKeysMatter(p: map<string, Value>, q: map<string, Value>)
    requires forall key :: IsRequiredKey(key) ==> (key in p <==> key in q)
    requires forall key :: IsRequiredKey(key) && key in p ==> p[key] == q[key]
    ensures IsFrameSampleEvent(Object(p)) == IsFrameSampleEvent(Object(q))
  {
    assert IsRequiredKey("source") && IsRequiredKey("type") && IsRequiredKey("timestamp");
    assert IsRequiredKey("width") && IsRequiredKey("height") && IsRequiredKey("status");
  }

  /** A posted event stays accepted when the object gains properties of any value
      outside the required six. */
  lemma ExtraPropertiesAccepted(e: FrameSampleEvent, extra: map<string, Value>)
    requires forall key :: key in extra ==> !IsRequiredKey(key)
    ensures IsFrameSampleEvent(Object(ToValue(e).properties + extra))
  {
    PostedEventRoundTrip(e);
    OnlyRequiredKeysMatter(ToValue(e).properties, ToValue(e).properties + extra);
  }

  /** The guard admits an `errorMessage` that is not a string, and any number,
      NaN and the infinities included, for timestamp and size. */
  lemma GuardExamples()
    ensures IsFrameSampleEvent(Object(map[
      "source" := Str("soccerhud"), "type" := Str("frame-sample"), "timestamp" := Number(NaN),
      "width" := Number(PosInf), "height" := Number(Finite(0.0)), "status" := Str("error"),
      "errorMessage" := Number(Finite(42.0))]))
    ensures !IsFrameSampleEvent(Object(map[
      "source" := Str("soccerhud"), "type" := Str("frame-sample"), "timestamp" := Str("1"),
      "width" := Number(Finite(640.0)), "height" := Number(Finite(360.0)), "status" := Str("ok")]))
    ensures !IsFrameSampleEvent(Object(map[
      "source" := Str("soccerhud"), "type" := Str("frame-sample"), "timestamp" := Number(Finite(1.0)),
      "width" := Number(Finite(640.0)), "height" := Number(Finite(360.0)), "status" := Str("OK")]))
    ensures !IsFrameSampleEvent(Null) && !IsFrameSampleEvent(Array([]))
  {
  }
}
