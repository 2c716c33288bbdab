/**
 * `RegistryEventTransformStream`: turns each history event into CSV rows.
 *
 * Every row of one event carries the same eight base columns (event id,
 * user id, user name, time, record id, record name, event type, aspect id)
 * and four JSON columns. An event without a patch gives one summary row
 * holding the serialised aspect (or payload); an event with a patch of n
 * operations gives n rows, one per operation, in patch order.
 */
module RowEnricher {
  import opened JsValues
  import opened HistoryApi
  import opened NameCaches

  /** The readable high-water mark used when none (or a falsy one) is configured. */
  const DefaultHighWaterMark: int := 50

  /** `JSON.stringify` and the template-string coercion `${value}`, both left uninterpreted. */
  datatype JsonCodec = JsonCodec(stringify: Json -> string, coerce: Json -> string)

  /**
   * The outside world of the enricher: `process.env`, `signJwtToken`, the
   * user and record lookups, and the JSON codec.
   */
  datatype EnricherIo = EnricherIo(
    env: map<string, string>,
    sign: string -> Result<string, string>,
    userLookup: UserRequest -> Lookup,
    recordLookup: RecordRequest -> Lookup,
    codec: JsonCodec)

  /** The columns every row of one event shares. The user name is undefined when the lookup gave none. */
  datatype BaseColumns = BaseColumns(
    eventId: int,
    userId: string,
    userName: Option<string>,
    time: string,
    recordId: string,
    recordName: string,
    eventType: string,
    aspectId: string)

  /** One output row: the base columns, then "JSON Patch Operation", "JSON Path", "JSON Path Value" and "JSON Value". */
  datatype Row = Row(
    base: BaseColumns,
    patchOperation: string,
    jsonPath: string,
    jsonPathValue: string,
    jsonValue: string)

  /** A string property's column text: the property when truthy, otherwise "". */
  function TextOr(v: Option<string>): string {
    if TruthyString(v) then v.value else ""
  }

  /** The base columns of an event, given the two names looked up for it. */
  function Base(event: Event, userName: Option<string>, recordName: string): BaseColumns {
    BaseColumns(event.id, event.userId, userName, event.eventTime, event.data.recordId,
                recordName, event.eventType, TextOr(event.data.aspectId))
  }

  /** The two event types whose rows carry no JSON payload. */
  predicate IsDeletion(eventType: string) {
    eventType == "DeleteRecord" || eventType == "DeleteRecordAspect"
  }

  /** The serialised payload: the aspect when truthy, otherwise the whole `data`; nothing for deletions. */
  function JsonPayload(event: Event, codec: JsonCodec): string {
    if IsDeletion(event.eventType) then ""
    else if TruthyJson(event.data.aspect) then codec.stringify(event.data.aspect.value)
    else codec.stringify(event.data.raw)
  }

  /** The event's patch, or no operations when it has none. */
  function PatchOf(event: Event): seq<PatchOp> {
    if event.data.patch.Some? then event.data.patch.value else []
  }

  /** The single row of an event without patch operations. */
  function SummaryRow(base: BaseColumns, payload: string): Row {
    Row(base, "", "", "", payload)
  }

  /** The row of one patch operation; an undefined value gives "", any other is coerced. */
  function PatchRow(base: BaseColumns, p: PatchOp, codec: JsonCodec): Row {
    Row(base, TextOr(p.op), TextOr(p.path), if p.value.Some? then codec.coerce(p.value.value) else "", "")
  }

  /** The rows of a sequence of patch operations, as pushed one after another. */
  function PatchRows(base: BaseColumns, ops: seq<PatchOp>, codec: JsonCodec): (rows: seq<Row>)
    decreases |ops|
  {
    if ops == [] then [] else PatchRows(base, ops[..|ops| - 1], codec) + [PatchRow(base, ops[|ops| - 1], codec)]
  }

  /** The i-th patch row is the row of the i-th operation: one row per operation, in patch order. */
  lemma {:induction false} PatchRowsAt(base: BaseColumns, ops: seq<PatchOp>, codec: JsonCodec)
    ensures |PatchRows(base, ops, codec)| == |ops|
    ensures forall i :: 0 <= i < |ops| ==> PatchRows(base, ops, codec)[i] == PatchRow(base, ops[i], codec)
    decreases |ops|
  {
    if ops != [] {
      PatchRowsAt(base, ops[..|ops| - 1], codec);
    }
  }

  /** All rows `_transform` pushes for one event, given the two names looked up for it. */
  function EventRows(event: Event, userName: Option<string>, recordName: string, codec: JsonCodec): seq<Row> {
    var base := Base(event, userName, recordName);
    if |PatchOf(event)| == 0 then [SummaryRow(base, JsonPayload(event, codec))]
    else PatchRows(base, PatchOf(event), codec)
  }

  /**
   * The rows of one event: exactly one when the patch is missing or empty,
   * otherwise one per operation in patch order; all share the event's base
   * columns (the aspect id column is the truthy aspect id or ""); the
   * summary row carries the payload with empty patch columns, and each
   * operation's row carries its op, path and coerced value with an empty
   * JSON Value.
   */
  lemma EventRowsShape(event: Event, userName: Option<string>, recordName: string, codec: JsonCodec)
    ensures var rows := EventRows(event, userName, recordName, codec);
      var ops := PatchOf(event);
      && |rows| == (if |ops| == 0 then 1 else |ops|)
      && (forall r :: r in rows ==> r.base == Base(event, userName, recordName))
      && (forall r :: r in rows ==>
            r.base.eventId == event.id && r.base.userId == event.userId && r.base.userName == userName
            && r.base.time == event.eventTime && r.base.recordId == event.data.recordId
            && r.base.recordName == recordName && r.base.eventType == event.eventType
            && (r.base.aspectId == if TruthyString(event.data.aspectId) then event.data.aspectId.value else ""))
      && (|ops| == 0 ==>
            rows[0].patchOperation == "" && rows[0].jsonPath == "" && rows[0].jsonPathValue == ""
            && rows[0].jsonValue == JsonPayload(event, codec))
      && (forall i :: 0 <= i < |ops| ==>
            rows[i].jsonValue == ""
            && rows[i].patchOperation == (if TruthyString(ops[i].op) then ops[i].op.value else "")
            && rows[i].jsonPath == (if TruthyString(ops[i].path) then ops[i].path.value else "")
            && rows[i].jsonPathValue == (if ops[i].value.Some? then codec.coerce(ops[i].value.value) else ""))
  {
    var base := Base(event, userName, recordName);
    PatchRowsAt(base, PatchOf(event), codec);
  }

  /**
   * The JSON Value of an event's summary row: empty for the two deletion
   * types, otherwise the serialised aspect when it is truthy, else the
   * serialised `data`.
   */
  lemma JsonPayloadCases(event: Event, codec: JsonCodec)
    ensures IsDeletion(event.eventType) ==> JsonPayload(event, codec) == ""
    ensures !IsDeletion(event.eventType) && TruthyJson(event.data.aspect) ==>
      JsonPayload(event, codec) == codec.stringify(event.data.aspect.value)
    ensures !IsDeletion(event.eventType) && !TruthyJson(event.data.aspect) ==>
      JsonPayload(event, codec) == codec.stringify(event.data.raw)
  {
  }

  /** The error the constructor throws, if any: the registry URL is checked before the auth URL. */
  function EnricherConstructionError(registryApiUrl: string, authApiUrl: string): (e: Option<string>)
    ensures e.None? <==> registryApiUrl != "" && authApiUrl != ""
    ensures registryApiUrl == "" ==> e == Some("RegistryEventTransformStream: registryApiUrl cannot be empty!")
  {
    if registryApiUrl == "" then Some("RegistryEventTransformStream: registryApiUrl cannot be empty!")
    else if authApiUrl == "" then Some("RegistryEventTransformStream: authApiUrl cannot be empty!")
    else None
  }

  /** The readable high-water mark: the configured one when truthy, otherwise the default. */
  function ReadableHighWaterMark(highwaterMark: Option<int>): (h: int)
    ensures highwaterMark.Some? && highwaterMark.value != 0 ==> h == highwaterMark.value
    ensures !(highwaterMark.Some? && highwaterMark.value != 0) ==> h == DefaultHighWaterMark
    ensures h != 0
  {
    if highwaterMark.Some? && highwaterMark.value != 0 then highwaterMark.value else DefaultHighWaterMark
  }

  class RegistryEventTransformStream {
    const registryApiUrl: string
    const authApiUrl: string
    const userId: Option<string>
    const readableHighWaterMark: int
    const writableHighWaterMark: int

    // What the Transform has handed on: the rows pushed, and each callback
    // call (`None` for `callback()`, `Some(e)` for `callback(e)`).
    var pushed: seq<Row>
    var callbacks: seq<Option<JsError>>

    /** Stores the configuration; the argument checks are in `Create`. */
    constructor (registryApiUrl: string, authApiUrl: string, highwaterMark: Option<int>, userId: Option<string>)
      requires EnricherConstructionError(registryApiUrl, authApiUrl).None?
      ensures this.registryApiUrl == registryApiUrl && this.authApiUrl == authApiUrl && this.userId == userId
      ensures readableHighWaterMark == ReadableHighWaterMark(highwaterMark)
      ensures writableHighWaterMark == 2 * readableHighWaterMark
      ensures pushed == [] && callbacks == []
    {
      this.registryApiUrl := registryApiUrl;
      this.authApiUrl := authApiUrl;
      this.userId := userId;
      readableHighWaterMark := ReadableHighWaterMark(highwaterMark);
      writableHighWaterMark := 2 * ReadableHighWaterMark(highwaterMark);
      pushed := [];
      callbacks := [];
    }

    /** `new RegistryEventTransformStream(...)`, which throws on an empty registry or auth URL. */
    static method Create(registryApiUrl: string, authApiUrl: string, highwaterMark: Option<int>, userId: Option<string>)
      returns (r: Result<RegistryEventTransformStream, string>)
      ensures r.Failure? <==> EnricherConstructionError(registryApiUrl, authApiUrl).Some?
      ensures r.Failure? ==> r.error == EnricherConstructionError(registryApiUrl, authApiUrl).value
      ensures r.Success? ==>
        fresh(r.value)
        && r.value.registryApiUrl == registryApiUrl && r.value.authApiUrl == authApiUrl && r.value.userId == userId
        && r.value.readableHighWaterMark == ReadableHighWaterMark(highwaterMark)
        && r.value.writableHighWaterMark == 2 * r.value.readableHighWaterMark
        && r.value.pushed == [] && r.value.callbacks == []
    {
      if registryApiUrl == "" {
        return Failure("RegistryEventTransformStream: registryApiUrl cannot be empty!");
      }
      if authApiUrl == "" {
        return Failure("RegistryEventTransformStream: authApiUrl cannot be empty!");
      }
      var t := new RegistryEventTransformStream(registryApiUrl, authApiUrl, highwaterMark, userId);
      return Success(t);
    }

    /**
     * `_transform`: looks up the user name, then the record name (through
     * the shared caches), pushes the event's rows in order, then calls back
     * once without an error.
     */
    method Transform(event: Event, caches: NameCaches, io: EnricherIo)
      modifies this, caches
      ensures var u := UserNameLookup(old(caches.userNames), authApiUrl, event.userId, io.env, io.userLookup);
        var n := RecordNameLookup(old(caches.recordNames), registryApiUrl, event.data.recordId, userId,
                                  io.env, io.sign, io.recordLookup);
        && caches.userNames == u.cache && caches.userLookups == old(caches.userLookups) + Made(u.request)
        && caches.recordNames == n.cache && caches.recordLookups == old(caches.recordLookups) + Made(n.request)
        && pushed == old(pushed) + EventRows(event, u.name, n.name, io.codec)
      ensures callbacks == old(callbacks) + [None]
    {
      var userName := caches.GetUserName(authApiUrl, event.userId, io.env, io.userLookup);
      var recordName := caches.GetRecordName(registryApiUrl, event.data.recordId, userId, io.env, io.sign, io.recordLookup);
      var base := Base(event, userName, recordName);
      var patch := PatchOf(event);
      if |patch| == 0 {
        pushed := pushed + [SummaryRow(base, JsonPayload(event, io.codec))];
      } else {
        PushPatchRows(base, patch, io.codec);
      }
      callbacks := callbacks + [None];
    }

    /** The `jsonPatch.forEach` loop: one row pushed per operation, in patch order. */
    method PushPatchRows(base: BaseColumns, patch: seq<PatchOp>, codec: JsonCodec)
      modifies this
      ensures pushed == old(pushed) + PatchRows(base, patch, codec)
      ensures callbacks == old(callbacks)
    {
      var i := 0;
      while i < |patch|
        invariant 0 <= i <= |patch|
        invariant pushed == old(pushed) + PatchRows(base, patch[..i], codec)
        invariant callbacks == old(callbacks)
      {
        assert patch[..i + 1][..i] == patch[..i];
        pushed := pushed + [PatchRow(base, patch[i], codec)];
        i := i + 1;
      }
      assert patch[..|patch|] == patch;
    }
  }
}
