/**
 * The two module-level name caches of the row enricher: user display names
 * keyed by user id, and record names, which are looked up by record id but
 * stored under the key of the requesting user's id.
 *
 * Each lookup is one HTTP request, given here as an oracle that answers
 * with the name found in a 2xx response (absent when the response has no
 * such property), a non-2xx status, or a thrown error. The functions
 * `UserNameLookup` and `RecordNameLookup` state what one call does to a
 * cache; the class `NameCaches` holds both dictionaries and is proved to
 * do exactly that.
 */
module NameCaches {
  import opened JsValues
  import opened HistoryApi

  /** What a name lookup's response gives: a name (maybe absent), a non-2xx status, or an exception. */
  datatype Lookup = LookupOk(name: Option<string>) | LookupNotOk | LookupThrew

  /** A GET of `{authApiUrl}/public/users/{userId}`. */
  datatype UserRequest = UserRequest(authApiUrl: string, userId: string, headers: Headers)

  /** A GET of `{registryApiUrl}/records/{recordId}`. */
  datatype RecordRequest = RecordRequest(registryApiUrl: string, recordId: string, headers: Headers)

  /** The name used whenever a lookup fails. */
  const NotAvailable: string := "N/A"

  /** The property key JavaScript uses for a `string | null` value. */
  function JsKey(userId: Option<string>): string {
    if userId.Some? then userId.value else "null"
  }

  /** The request made, as a log entry: one or none. */
  function Made<T>(request: Option<T>): (log: seq<T>)
    ensures |log| <= 1 && (request.Some? <==> |log| == 1)
    ensures request.Some? ==> log[0] == request.value
  {
    if request.Some? then [request.value] else []
  }

  /** What one `getUserName` call leaves in the cache, what it returns, and the request it makes. */
  datatype UserNameOutcome = UserNameOutcome(cache: map<string, string>, name: Option<string>, request: Option<UserRequest>)

  /**
   * `getUserName`: a cached name is returned without a request; otherwise a
   * non-2xx answer caches "N/A", a 2xx answer caches its `displayName` (an
   * absent one is returned as undefined and leaves the key unset), and an
   * exception returns "N/A" without caching.
   */
  function UserNameLookup(
    cache: map<string, string>, authApiUrl: string, userId: string,
    env: map<string, string>, lookup: UserRequest -> Lookup): (r: UserNameOutcome)
    ensures userId in cache ==> r == UserNameOutcome(cache, Some(cache[userId]), None)
    ensures userId !in cache ==> r.request == Some(UserRequest(authApiUrl, userId, RequestHeaders(env, None)))
    ensures var answer := lookup(UserRequest(authApiUrl, userId, RequestHeaders(env, None)));
      userId !in cache ==>
        && (answer.LookupNotOk? ==> r.cache == cache[userId := NotAvailable] && r.name == Some(NotAvailable))
        && (answer.LookupOk? && answer.name.Some? ==> r.cache == cache[userId := answer.name.value] && r.name == answer.name)
        && (answer == LookupOk(None) ==> r.cache == cache && r.name == None)
        && (answer.LookupThrew? ==> r.cache == cache && r.name == Some(NotAvailable))
    ensures forall k :: k in cache ==> k in r.cache && r.cache[k] == cache[k]
    ensures forall k :: k in r.cache ==> k in cache || k == userId
    ensures userId in r.cache ==> r.name == Some(r.cache[userId])
    ensures userId !in r.cache ==> r.name == None || r.name == Some(NotAvailable)
  {
    if userId in cache then UserNameOutcome(cache, Some(cache[userId]), None)
    else
      var request := UserRequest(authApiUrl, userId, RequestHeaders(env, None));
      match lookup(request)
      case LookupNotOk => UserNameOutcome(cache[userId := NotAvailable], Some(NotAvailable), Some(request))
      case LookupOk(Some(name)) => UserNameOutcome(cache[userId := name], Some(name), Some(request))
      case LookupOk(None) => UserNameOutcome(cache, None, Some(request))
      case LookupThrew => UserNameOutcome(cache, Some(NotAvailable), Some(request))
  }

  /**
   * A user id is cached after a call exactly when it was cached before, or
   * the request was answered non-2xx, or answered 2xx with a display name;
   * from then on every call for that user returns the same name and makes
   * no request, whatever the oracle would answer.
   */
  lemma UserNameMemoised(
    cache: map<string, string>, authApiUrl: string, userId: string, env: map<string, string>,
    lookup: UserRequest -> Lookup,
    authApiUrl2: string, env2: map<string, string>, lookup2: UserRequest -> Lookup)
    ensures var r := UserNameLookup(cache, authApiUrl, userId, env, lookup);
      var answer := lookup(UserRequest(authApiUrl, userId, RequestHeaders(env, None)));
      && (userId in r.cache <==>
            userId in cache || answer.LookupNotOk? || (answer.LookupOk? && answer.name.Some?))
      && (userId in r.cache ==>
            UserNameLookup(r.cache, authApiUrl2, userId, env2, lookup2) == UserNameOutcome(r.cache, r.name, None))
  {
    var r := UserNameLookup(cache, authApiUrl, userId, env, lookup);
    var answer := lookup(UserRequest(authApiUrl, userId, RequestHeaders(env, None)));
    if userId !in cache && answer == LookupOk(None) {
      assert r.cache == cache;
    }
  }

  /** What one `getRecordName` call leaves in the cache, what it returns, and the request it makes. */
  datatype RecordNameOutcome = RecordNameOutcome(cache: map<string, string>, name: string, request: Option<RecordRequest>)

  /**
   * `getRecordName`: a name cached under the record id is returned without
   * a request. Otherwise a token is signed for a non-empty user id (signing
   * can throw), the record is fetched, and the result — "N/A" for a non-2xx
   * answer or a falsy name, the name otherwise — is stored under the user
   * id's key and returned. An exception returns "N/A" without caching.
   */
  function RecordNameLookup(
    cache: map<string, string>, registryApiUrl: string, recordId: string, userId: Option<string>,
    env: map<string, string>, sign: string -> Result<string, string>,
    lookup: RecordRequest -> Lookup): (r: RecordNameOutcome)
    ensures recordId in cache ==> r == RecordNameOutcome(cache, cache[recordId], None)
    ensures forall k :: k in r.cache ==> k in cache || k == JsKey(userId)
    ensures recordId !in cache && r.cache != cache ==> r.cache == cache[JsKey(userId) := r.name]
    ensures r.request.Some? ==> r.request.value.recordId == recordId
    ensures r.request.Some? && TruthyString(userId) ==> sign(userId.value).Success?
    ensures r.request.Some? ==>
      r.request.value.headers == RequestHeaders(env, if TruthyString(userId) then Some(sign(userId.value).value) else None)
    ensures r.request.Some? && !TruthyString(userId) ==> r.request.value.headers.session.None?
    ensures recordId !in cache && TruthyString(userId) && sign(userId.value).Failure? ==>
      r == RecordNameOutcome(cache, NotAvailable, None)
    ensures recordId !in cache && !(TruthyString(userId) && sign(userId.value).Failure?) ==>
      var jwt := if TruthyString(userId) then Some(sign(userId.value).value) else None;
      var request := RecordRequest(registryApiUrl, recordId, RequestHeaders(env, jwt));
      var k := JsKey(userId);
      && r.request == Some(request)
      && (lookup(request).LookupNotOk? ==> r.cache == cache[k := NotAvailable] && r.name == NotAvailable)
      && (lookup(request).LookupOk? ==>
            var n := lookup(request).name;
            r.cache == cache[k := if TruthyString(n) then n.value else NotAvailable] && r.name == r.cache[k])
      && (lookup(request).LookupThrew? ==> r.cache == cache && r.name == NotAvailable)
  {
    if recordId in cache then RecordNameOutcome(cache, cache[recordId], None)
    else
      var token: Result<Option<string>, string> :=
        if TruthyString(userId) then
          match sign(userId.value)
          case Success(jwt) => Success(Some(jwt))
          case Failure(e) => Failure(e)
        else Success(None);
      match token
      case Failure(_) => RecordNameOutcome(cache, NotAvailable, None)
      case Success(jwt) =>
        var request := RecordRequest(registryApiUrl, recordId, RequestHeaders(env, jwt));
        match lookup(request)
        case LookupNotOk => RecordNameOutcome(cache[JsKey(userId) := NotAvailable], NotAvailable, Some(request))
        case LookupOk(name) =>
          var stored := if TruthyString(name) then name.value else NotAvailable;
          RecordNameOutcome(cache[JsKey(userId) := stored], stored, Some(request))
        case LookupThrew => RecordNameOutcome(cache, NotAvailable, Some(request))
  }

  /** Every cached record name is non-empty. */
  predicate NamesNonEmpty(cache: map<string, string>) {
    forall k :: k in cache ==> cache[k] != ""
  }

  /**
   * Record names are never empty: a cache holding only non-empty names
   * keeps doing so, and the name returned is non-empty.
   */
  lemma RecordNameNonEmpty(
    cache: map<string, string>, registryApiUrl: string, recordId: string, userId: Option<string>,
    env: map<string, string>, sign: string -> Result<string, string>, lookup: RecordRequest -> Lookup)
    requires NamesNonEmpty(cache)
    ensures var r := RecordNameLookup(cache, registryApiUrl, recordId, userId, env, sign, lookup);
      NamesNonEmpty(r.cache) && r.name != ""
  {
  }

  /**
   * The key mismatch: a record whose id is not the user id's key is never
   * cached under its own id, so a second call for it makes a request again
   * (unless signing throws first).
   */
  lemma RecordNameNotMemoised(
    cache: map<string, string>, registryApiUrl: string, recordId: string, userId: Option<string>,
    env: map<string, string>, sign: string -> Result<string, string>, lookup: RecordRequest -> Lookup)
    requires recordId !in cache && recordId != JsKey(userId)
    ensures var r := RecordNameLookup(cache, registryApiUrl, recordId, userId, env, sign, lookup);
      && recordId !in r.cache
      && (!(TruthyString(userId) && sign(userId.value).Failure?) ==>
            r.request.Some?
            && RecordNameLookup(r.cache, registryApiUrl, recordId, userId, env, sign, lookup).request == r.request)
  {
  }

  /**
   * The dictionaries `userNameCache` and `recordNameCache`, shared by every
   * row enricher, with a log of the lookups made.
   */
  class NameCaches {
    var userNames: map<string, string>
    var recordNames: map<string, string>
    var userLookups: seq<UserRequest>
    var recordLookups: seq<RecordRequest>

    /** Both caches start empty. */
    constructor ()
      ensures userNames == map[] && recordNames == map[]
      ensures userLookups == [] && recordLookups == []
    {
      userNames := map[];
      recordNames := map[];
      userLookups := [];
      recordLookups := [];
    }

    /** `getUserName`. */
    method GetUserName(authApiUrl: string, userId: string, env: map<string, string>, lookup: UserRequest -> Lookup)
      returns (name: Option<string>)
      modifies this
      ensures var r := UserNameLookup(old(userNames), authApiUrl, userId, env, lookup);
        userNames == r.cache && name == r.name && userLookups == old(userLookups) + Made(r.request)
      ensures recordNames == old(recordNames) && recordLookups == old(recordLookups)
    {
      if userId in userNames {
        return Some(userNames[userId]);
      }
      var request := UserRequest(authApiUrl, userId, RequestHeaders(env, None));
      userLookups := userLookups + [request];
      var answer := lookup(request);
      if answer.LookupThrew? {
        return Some(NotAvailable);
      }
      if answer.LookupNotOk? {
        userNames := userNames[userId := NotAvailable];
      } else if answer.name.Some? {
        userNames := userNames[userId := answer.name.value];
      }
      if userId in userNames {
        name := Some(userNames[userId]);
      } else {
        name := None;
      }
    }

    /** `getRecordName`. */
    method GetRecordName(
      registryApiUrl: string, recordId: string, userId: Option<string>, env: map<string, string>,
      sign: string -> Result<string, string>, lookup: RecordRequest -> Lookup)
      returns (name: string)
      modifies this
      ensures var r := RecordNameLookup(old(recordNames), registryApiUrl, recordId, userId, env, sign, lookup);
        recordNames == r.cache && name == r.name && recordLookups == old(recordLookups) + Made(r.request)
      ensures userNames == old(userNames) && userLookups == old(userLookups)
    {
      if recordId in recordNames {
        return recordNames[recordId];
      }
      var jwt: Option<string> := None;
      if TruthyString(userId) {
        var signed := sign(userId.value);
        if signed.Failure? {
          return NotAvailable;
        }
        jwt := Some(signed.value);
      }
      var request := RecordRequest(registryApiUrl, recordId, RequestHeaders(env, jwt));
      recordLookups := recordLookups + [request];
      var answer := lookup(request);
      if answer.LookupThrew? {
        return NotAvailable;
      }
      var key := JsKey(userId);
      if answer.LookupNotOk? {
        recordNames := recordNames[key := NotAvailable];
      } else {
        recordNames := recordNames[key := if TruthyString(answer.name) then answer.name.value else NotAvailable];
      }
      name := recordNames[key];
    }
  }
}
