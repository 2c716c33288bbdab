/**
 * The exporter's entry point: picks the record id (the query string wins
 * over the body), checks it and the configuration in a fixed order,
 * resolves the requesting user, builds the event stream and the row
 * enricher, and names the download. Every error goes through one handler,
 * which rethrows when there is no HTTP response to write to and otherwise
 * answers 200 with the error as the body.
 */
module Entry {
  import opened JsValues
  import opened HistoryApi
  import opened EventStream
  import opened Secrets
  import opened RowEnricher

  /**
   * The parts of an Express request the entry point reads: whether it has a
   * `header` function, its X-Magda-Session header, and `query.recordId`.
   */
  datatype Request = Request(hasHeader: bool, sessionHeader: Option<string>, queryRecordId: Option<Json>)

  /** The claim of a verified session token the entry point reads. */
  datatype JwtPayload = JwtPayload(userId: Option<string>)

  /**
   * The outside world of the entry point: `process.env`, the secret files
   * and `JSON.parse`, and `jwt.verify` (given the session header, which may
   * be absent, and the secret).
   */
  datatype EntryIo = EntryIo(
    env: map<string, string>,
    secrets: SecretIo,
    verify: (Option<string>, Json) -> Result<JwtPayload, JsError>)

  /** How one call of the entry point ends. */
  datatype Outcome =
    | Rejected(error: JsError)
    | Responded(status: int, body: string)
    | Exporting(events: RegistryEventStream, rows: RegistryEventTransformStream, disposition: Option<string>)

  // ---------------------------------------------------------------------
  // Error handling

  /** `handleError`: without a response the error is rethrown; with one, it is sent with status 200. */
  function HandleError(e: JsError, hasResponse: bool): (o: Outcome)
    ensures o.Rejected? <==> !hasResponse
    ensures o.Rejected? ==> o.error == e
    ensures o.Responded? ==> o.status == 200 && o.body == "Error: " + ErrorString(e)
    ensures !o.Exporting?
  {
    if !hasResponse then Rejected(e) else Responded(200, "Error: " + ErrorString(e))
  }

  // ---------------------------------------------------------------------
  // The download file name

  /** The characters a download file name keeps: ASCII digits, letters and "-". */
  predicate IsFilenameChar(c: char) {
    ('0' <= c <= '9') || ('a' <= c <= 'z') || ('A' <= c <= 'Z') || c == '-'
  }

  /** The replacement of `/[^\da-zA-Z\-]/g` by "-". */
  function SanitizeFilename(s: string): (r: string)
    ensures |r| == |s|
    ensures forall i :: 0 <= i < |r| ==> IsFilenameChar(r[i])
    ensures forall i :: 0 <= i < |s| ==> r[i] == (if IsFilenameChar(s[i]) then s[i] else '-')
    decreases |s|
  {
    if s == [] then []
    else [if IsFilenameChar(s[0]) then s[0] else '-'] + SanitizeFilename(s[1..])
  }

  /** Sanitising a sanitised name changes nothing, and a name that is already clean is kept as it is. */
  lemma SanitizeFilenameIdempotent(s: string)
    ensures SanitizeFilename(SanitizeFilename(s)) == SanitizeFilename(s)
    ensures (forall i :: 0 <= i < |s| ==> IsFilenameChar(s[i])) ==> SanitizeFilename(s) == s
  {
  }

  /** The Content-Disposition header of the download, with its `filename-` spelled as the source has it. */
  function ContentDisposition(recordId: string): string {
    "attachment; filename-\"history-" + SanitizeFilename(recordId) + ".csv\""
  }

  /**
   * The header holds exactly two double quotes: the record id cannot break
   * out of the quoted file name, which is the sanitised id between
   * `history-` and `.csv`.
   */
  lemma ContentDispositionQuoted(recordId: string)
    ensures var d := ContentDisposition(recordId);
      var prefix := "attachment; filename-\"history-";
      && |d| == |prefix| + |recordId| + 5
      && d[..|prefix|] == prefix && d[|prefix|..|prefix| + |recordId|] == SanitizeFilename(recordId)
      && d[|d| - 5..] == ".csv\""
      && (forall i :: 0 <= i < |d| ==> (d[i] == '"' <==> i == 21 || i == |d| - 1))
  {
    var prefix := "attachment; filename-\"history-";
    var name := SanitizeFilename(recordId);
    var d := ContentDisposition(recordId);
    assert d == prefix + name + ".csv\"";
    forall i | 0 <= i < |d|
      ensures d[i] == '"' <==> i == 21 || i == |d| - 1
    {
      if i < |prefix| {
        assert d[i] == prefix[i];
      } else if i < |prefix| + |name| {
        assert d[i] == name[i - |prefix|];
        assert IsFilenameChar(name[i - |prefix|]);
      } else {
        assert d[i] == ".csv\""[i - |prefix| - |name|];
      }
    }
  }

  // ---------------------------------------------------------------------
  // Input and configuration checks

  /** The record id input: `req.query.recordId` when truthy, otherwise the function input. */
  function RecordIdInput(input: Option<Json>, req: Option<Request>): Option<Json> {
    if req.Some? && TruthyJson(req.value.queryRecordId) then req.value.queryRecordId else input
  }

  /**
   * A truthy `recordId` in the query string wins over the function input;
   * otherwise the request plays no part in the checks.
   */
  lemma QueryRecordIdWins(input: Option<Json>, req: Option<Request>, env: map<string, string>)
    ensures req.Some? && TruthyJson(req.value.queryRecordId) ==>
      Validate(input, req, env) == Validate(req.value.queryRecordId, None, env)
    ensures !(req.Some? && TruthyJson(req.value.queryRecordId)) ==>
      Validate(input, req, env) == Validate(input, None, env)
  {
  }

  /** What the checks let through: the record id and the two API base URLs. */
  datatype Settings = Settings(recordId: string, registryApiUrl: string, authApiUrl: string)

  /** An environment variable's value when it is defined and non-empty. */
  function EnvValue(env: map<string, string>, name: string): Option<string> {
    if name in env && env[name] != "" then Some(env[name]) else None
  }

  /**
   * The checks in the order the entry point makes them: a record id that is
   * not a string first, then a missing registry URL, then a missing auth URL.
   */
  function Validate(input: Option<Json>, req: Option<Request>, env: map<string, string>): (r: Result<Settings, JsError>)
    ensures var id := RecordIdInput(input, req);
      && (!(id.Some? && id.value.JString?) ==> r == Failure(PlainError("Expect record ID as input.")))
      && (id.Some? && id.value.JString? && EnvValue(env, "registryApiUrl").None? ==>
            r == Failure(PlainError("Cannot locate registryApiUrl")))
      && (id.Some? && id.value.JString? && EnvValue(env, "registryApiUrl").Some? && EnvValue(env, "authApiUrl").None? ==>
            r == Failure(PlainError("Cannot locate authApiUrl")))
      && (r.Success? <==>
            id.Some? && id.value.JString? && EnvValue(env, "registryApiUrl").Some? && EnvValue(env, "authApiUrl").Some?)
      && (r.Success? ==>
            r.value.recordId == id.value.s
            && r.value.registryApiUrl == env["registryApiUrl"] != ""
            && r.value.authApiUrl == env["authApiUrl"] != "")
  {
    var id := RecordIdInput(input, req);
    if !(id.Some? && id.value.JString?) then Failure(PlainError("Expect record ID as input."))
    else
      match EnvValue(env, "registryApiUrl")
      case None => Failure(PlainError("Cannot locate registryApiUrl"))
      case Some(registryApiUrl) =>
        match EnvValue(env, "authApiUrl")
        case None => Failure(PlainError("Cannot locate authApiUrl"))
        case Some(authApiUrl) => Success(Settings(id.value.s, registryApiUrl, authApiUrl))
  }

  // ---------------------------------------------------------------------
  // The requesting user

  /** What resolving the user does: the secret lookup it made, if any, and the user id or error. */
  datatype UserIdOutcome = UserIdOutcome(secret: Option<ValueOutcome>, result: Result<Option<string>, JsError>)

  /** Whether a request is answered "no user" before any secret is read. */
  predicate ReturnsEarly(req: Option<Request>) {
    req.None? || !req.value.hasHeader || TruthyString(req.value.sessionHeader)
  }

  /**
   * `getUserIdFromReq`, with the session check as written: no request or no
   * header function gives no user, and so does a non-empty X-Magda-Session
   * header; only without one is the JWT secret looked up (an empty one
   * throws "Invalud empty jwtSecret") and the absent header verified, a
   * truthy `userId` claim being the user.
   */
  function UserIdFromRequest(
    req: Option<Request>, secrets: map<string, SecretContent>, values: map<string, Json>, io: EntryIo): (r: UserIdOutcome)
    ensures r.secret.None? <==> ReturnsEarly(req)
    ensures r.secret.None? ==> r.result == Success(None)
    ensures r.secret.Some? ==>
      r.secret.value == SecretValueLookup(secrets, values, "auth-secrets", "jwt-secret", true, io.env, io.secrets)
    ensures r.secret.Some? && r.secret.value.result.Failure? ==> r.result == Failure(r.secret.value.result.error)
    ensures r.secret.Some? && r.secret.value.result.Success? && !TruthyJson(r.secret.value.result.value) ==>
      r.result == Failure(PlainError("Invalud empty jwtSecret"))
    ensures r.secret.Some? && r.secret.value.result.Success? && TruthyJson(r.secret.value.result.value) ==>
      var payload := io.verify(req.value.sessionHeader, r.secret.value.result.value.value);
      && (payload.Failure? ==> r.result == Failure(payload.error))
      && (payload.Success? ==> r.result == Success(if TruthyString(payload.value.userId) then payload.value.userId else None))
    ensures r.result.Success? && r.result.value.Some? ==> r.result.value.value != "" && !ReturnsEarly(req)
  {
    if ReturnsEarly(req) then UserIdOutcome(None, Success(None))
    else
      var s := SecretValueLookup(secrets, values, "auth-secrets", "jwt-secret", true, io.env, io.secrets);
      var result: Result<Option<string>, JsError> :=
        match s.result
        case Failure(e) => Failure(e)
        case Success(secret) =>
          if !TruthyJson(secret) then Failure(PlainError("Invalud empty jwtSecret"))
          else
            match io.verify(req.value.sessionHeader, secret.value)
            case Failure(e) => Failure(e)
            case Success(payload) => Success(if TruthyString(payload.userId) then payload.userId else None);
      UserIdOutcome(Some(s), result)
  }

  /**
   * A request that presents a session token never yields a user: as
   * written, the token's presence is what skips verification.
   */
  lemma SessionTokenGivesNoUser(req: Option<Request>, secrets: map<string, SecretContent>, values: map<string, Json>, io: EntryIo)
    requires req.Some? && TruthyString(req.value.sessionHeader)
    ensures UserIdFromRequest(req, secrets, values, io) == UserIdOutcome(None, Success(None))
  {
  }

  /**
   * The token handed to `jwt.verify` is never a non-empty one: with a
   * verifier that rejects a missing or empty token (as `jsonwebtoken` does),
   * no request ever yields a user.
   */
  lemma NoUserWhenVerifyRejectsMissingToken(
    req: Option<Request>, secrets: map<string, SecretContent>, values: map<string, Json>, io: EntryIo)
    requires forall secret :: io.verify(None, secret).Failure? && io.verify(Some(""), secret).Failure?
    ensures var r := UserIdFromRequest(req, secrets, values, io).result;
      !(r.Success? && r.value.Some?)
  {
    var r := UserIdFromRequest(req, secrets, values, io);
    if r.secret.Some? && r.secret.value.result.Success? && TruthyJson(r.secret.value.result.value) {
      var secret := r.secret.value.result.value.value;
      assert req.value.sessionHeader == None || req.value.sessionHeader == Some("");
      assert io.verify(req.value.sessionHeader, secret).Failure?;
    }
  }

  /** `getUserIdFromReq`, reading the JWT secret through the shared secret store. */
  method GetUserIdFromReq(req: Option<Request>, store: SecretStore, io: EntryIo) returns (r: Result<Option<string>, JsError>)
    modifies store
    ensures var u := UserIdFromRequest(req, old(store.secretCache), old(store.secretValueCache), io);
      && r == u.result
      && (u.secret.None? ==>
            store.secretCache == old(store.secretCache) && store.secretValueCache == old(store.secretValueCache)
            && store.fileReads == old(store.fileReads))
      && (u.secret.Some? ==>
            store.secretCache == u.secret.value.secrets && store.secretValueCache == u.secret.value.values
            && store.fileReads == old(store.fileReads) + (if u.secret.value.read then ["auth-secrets"] else []))
  {
    if req.None? || !req.value.hasHeader {
      return Success(None);
    }
    var jwtToken := req.value.sessionHeader;
    if TruthyString(jwtToken) {
      return Success(None);
    }
    var jwtSecret := store.GetSecretValue("auth-secrets", "jwt-secret", true, io.env, io.secrets);
    if jwtSecret.Failure? {
      return Failure(jwtSecret.error);
    }
    if !TruthyJson(jwtSecret.value) {
      return Failure(PlainError("Invalud empty jwtSecret"));
    }
    var payload := io.verify(jwtToken, jwtSecret.value.value);
    if payload.Failure? {
      return Failure(payload.error);
    }
    if TruthyString(payload.value.userId) {
      return Success(payload.value.userId);
    }
    return Success(None);
  }

  // ---------------------------------------------------------------------
  // The entry point

  /**
   * `myFunction`: validates, resolves the user, builds the event stream
   * (default page size) and the row enricher for that user, and names the
   * download when there is a response. Every error, including the stream's
   * rejection of an empty record id, goes through `HandleError`.
   */
  method MyFunction(input: Option<Json>, req: Option<Request>, hasResponse: bool, store: SecretStore, io: EntryIo)
    returns (o: Outcome)
    modifies store
    ensures var v := Validate(input, req, io.env);
      v.Failure? ==>
        o == HandleError(v.error, hasResponse)
        && store.secretCache == old(store.secretCache) && store.secretValueCache == old(store.secretValueCache)
        && store.fileReads == old(store.fileReads)
    ensures var v := Validate(input, req, io.env);
      var u := UserIdFromRequest(req, old(store.secretCache), old(store.secretValueCache), io);
      v.Success? ==>
        && (u.secret.None? ==>
              store.secretCache == old(store.secretCache) && store.secretValueCache == old(store.secretValueCache)
              && store.fileReads == old(store.fileReads))
        && (u.secret.Some? ==>
              store.secretCache == u.secret.value.secrets && store.secretValueCache == u.secret.value.values
              && store.fileReads == old(store.fileReads) + (if u.secret.value.read then ["auth-secrets"] else []))
    ensures var v := Validate(input, req, io.env);
      var u := UserIdFromRequest(req, old(store.secretCache), old(store.secretValueCache), io);
      v.Success? ==>
        && (u.result.Failure? ==> o == HandleError(u.result.error, hasResponse))
        && (u.result.Success? && v.value.recordId == "" ==>
              o == HandleError(PlainError("RegistryEventStream: Invalid empty recordId"), hasResponse))
        && (o.Exporting? <==> u.result.Success? && v.value.recordId != "")
    ensures o.Exporting? ==>
      var v := Validate(input, req, io.env).value;
      var userId := UserIdFromRequest(req, old(store.secretCache), old(store.secretValueCache), io).result.value;
      && fresh(o.events) && fresh(o.rows)
      && o.events.Config() == StreamConfig(v.registryApiUrl, v.recordId, userId, DefaultLimit)
      && o.events.State() == InitialState() && !o.events.isPushing
      && o.rows.registryApiUrl == v.registryApiUrl && o.rows.authApiUrl == v.authApiUrl && o.rows.userId == userId
      && o.rows.readableHighWaterMark == DefaultHighWaterMark
      && o.rows.pushed == [] && o.rows.callbacks == []
      && (o.disposition.Some? <==> hasResponse)
      && (hasResponse ==> o.disposition.value == ContentDisposition(v.recordId))
  {
    var v := Validate(input, req, io.env);
    if v.Failure? {
      return HandleError(v.error, hasResponse);
    }
    var settings := v.value;
    var userId := GetUserIdFromReq(req, store, io);
    if userId.Failure? {
      return HandleError(userId.error, hasResponse);
    }
    var events := RegistryEventStream.Create(settings.registryApiUrl, settings.recordId, userId.value, None);
    if events.Failure? {
      return HandleError(PlainError(events.error), hasResponse);
    }
    var rows := RegistryEventTransformStream.Create(settings.registryApiUrl, settings.authApiUrl, None, userId.value);
    // Both URLs passed the checks, so the enricher's constructor accepts them.
    assert rows.Success?;
    var disposition := if hasResponse then Some(ContentDisposition(settings.recordId)) else None;
    return Exporting(events.value, rows.value, disposition);
  }
}
