/**
 * `RegistryEventStream`: a readable object stream of one record's history
 * events, paging lazily through the history endpoint.
 *
 * The stream's mutable state is the cursor (`hasMore`, `pageToken`), the
 * prefetch buffer `dataCache`, the re-entrancy flag `isPushing`, and what
 * the Readable side has seen: the events pushed, the end-of-stream mark and
 * the error the stream was destroyed with. The functions `FetchStep`,
 * `PushStep` and `Drain` state what `fetchMore`, one round of the push loop
 * and a whole `pushTillFull` call do to that state; the class's methods are
 * proved to do exactly that.
 */
module EventStream {
  import opened JsValues
  import opened HistoryApi

  /** The page size used when no positive limit is configured. */
  const DefaultLimit: int := 50

  /**
   * The outside world of one stream: `process.env`, `signJwtToken`, the HTTP
   * transport, and `Readable.push`, which reports, given every event pushed
   * so far, whether the consumer wants more.
   */
  datatype StreamIo = StreamIo(
    env: map<string, string>,
    sign: string -> Result<string, string>,
    fetch: HistoryRequest -> HistoryResponse,
    push: seq<Event> -> bool)

  /** The fields a stream never changes after construction. */
  datatype StreamConfig = StreamConfig(
    registryApiUrl: string,
    recordId: string,
    userId: Option<string>,
    limit: int)

  /**
   * The fields a stream changes: the cursor, the buffer, the events pushed,
   * whether end-of-stream was pushed, the error it was destroyed with, and
   * the options of every history request it made.
   */
  datatype StreamState = StreamState(
    hasMore: bool,
    pageToken: string,
    cache: seq<Event>,
    emitted: seq<Event>,
    ended: bool,
    failure: Option<FetchError>,
    calls: seq<HistoryOptions>)

  /** The page size: the configured limit when it is positive, otherwise the default. */
  function EffectiveLimit(limit: Option<int>): (l: int)
    ensures l > 0
    ensures limit.Some? && limit.value > 0 ==> l == limit.value
    ensures !(limit.Some? && limit.value > 0) ==> l == DefaultLimit
  {
    if limit.Some? && limit.value > 0 then limit.value else DefaultLimit
  }

  /** The error the constructor throws, if any: the URL is checked before the record id. */
  function ConstructionError(registryApiUrl: string, recordId: string): (e: Option<string>)
    ensures e.None? <==> registryApiUrl != "" && recordId != ""
    ensures registryApiUrl == "" ==> e == Some("RegistryEventStream: Invalid empty registryApiUrl")
  {
    if registryApiUrl == "" then Some("RegistryEventStream: Invalid empty registryApiUrl")
    else if recordId == "" then Some("RegistryEventStream: Invalid empty recordId")
    else None
  }

  /** A freshly constructed stream: more to read, no token, nothing buffered or pushed. */
  function InitialState(): StreamState {
    StreamState(true, "", [], [], false, None, [])
  }

  /**
   * The options `fetchMore` passes to `getRecordHistory`: the page size, the
   * token only when non-empty, and a freshly signed token iff there is a
   * (non-empty) user id. Signing can throw.
   */
  function PageOptions(cfg: StreamConfig, io: StreamIo, pageToken: string): (r: Result<HistoryOptions, FetchError>)
    ensures r.Failure? <==> TruthyString(cfg.userId) && io.sign(cfg.userId.value).Failure?
    ensures r.Success? ==> r.value.start.None? && r.value.limit == Some(cfg.limit)
    ensures r.Success? ==> (r.value.pageToken.Some? <==> pageToken != "")
    ensures r.Success? && pageToken != "" ==> r.value.pageToken == Some(pageToken)
    ensures r.Success? ==> (r.value.jwtToken.Some? <==> TruthyString(cfg.userId))
  {
    var token := if pageToken != "" then Some(pageToken) else None;
    if TruthyString(cfg.userId) then
      match io.sign(cfg.userId.value)
      case Success(jwt) => Success(HistoryOptions(None, token, Some(cfg.limit), Some(jwt)))
      case Failure(e) => Failure(SigningFailed(e))
    else
      Success(HistoryOptions(None, token, Some(cfg.limit), None))
  }

  /**
   * The session token of a page request is the one `signJwtToken` gives
   * for the stream's user, and a signing failure is what fails the request.
   */
  lemma PageOptionsSignsUser(cfg: StreamConfig, io: StreamIo, pageToken: string)
    ensures var r := PageOptions(cfg, io, pageToken);
      && (r.Success? && TruthyString(cfg.userId) ==> r.value.jwtToken == Some(io.sign(cfg.userId.value).value))
      && (r.Failure? ==> TruthyString(cfg.userId) && r.error == SigningFailed(io.sign(cfg.userId.value).error))
  {
  }

  /** `data.nextPageToken` when it is a non-empty string, otherwise "". */
  function NextToken(page: Page): string {
    if TruthyString(page.nextPageToken) then page.nextPageToken.value else ""
  }

  /** The cursor is the page's token exactly when that token is non-empty, and "" otherwise. */
  lemma NextTokenOfPage(page: Page)
    ensures NextToken(page) != "" <==> TruthyString(page.nextPageToken)
    ensures NextToken(page) != "" ==> page.nextPageToken == Some(NextToken(page))
  {
  }

  /** What `fetchMore` does to the state, and what it returns. */
  function FetchStep(st: StreamState, cfg: StreamConfig, io: StreamIo): (StreamState, bool)
  {
    if !st.hasMore then (st, false)
    else
      match PageOptions(cfg, io, st.pageToken)
      case Failure(e) => (st.(failure := Some(e)), false)
      case Success(opts) =>
        var st1 := st.(calls := st.calls + [opts]);
        match GetRecordHistory(cfg.registryApiUrl, cfg.recordId, opts, io.env, io.fetch)
        case Failure(e) => (st1.(failure := Some(e)), false)
        case Success(page) =>
          var st2 := st1.(hasMore := page.hasMore, pageToken := NextToken(page));
          if st2.hasMore && st2.pageToken == "" then (st2.(failure := Some(InvalidResponse(page))), false)
          else if |page.events| > 0 then (st2.(cache := st2.cache + page.events), true)
          else (st2, false)
  }

  /** Take the buffer's last element (`dataCache.pop()`) and push it. */
  function Emit(st: StreamState, io: StreamIo): (StreamState, bool)
    requires st.cache != []
  {
    var e := st.cache[|st.cache| - 1];
    var st1 := st.(cache := st.cache[..|st.cache| - 1], emitted := st.emitted + [e]);
    (st1, io.push(st1.emitted))
  }

  /** One round of the `pushTillFull` loop, and whether the loop goes on. */
  function PushStep(st: StreamState, cfg: StreamConfig, io: StreamIo): (StreamState, bool)
  {
    if st.cache != [] then Emit(st, io)
    else
      var f := FetchStep(st, cfg, io);
      if !f.1 then (f.0.(ended := true), false)
      else Emit(f.0, io)
  }

  /**
   * `fetchMore` without `hasMore` changes nothing and returns false.
   * Otherwise it makes at most one request, pushes nothing, and either
   * extends the buffer at its end (returning true, with a consistent
   * cursor) or leaves the buffer as it was (returning false).
   */
  lemma FetchStepShape(st: StreamState, cfg: StreamConfig, io: StreamIo)
    ensures var r := FetchStep(st, cfg, io);
      && (!st.hasMore ==> r == (st, false))
      && r.0.emitted == st.emitted && r.0.ended == st.ended
      && (r.0.calls == st.calls || (st.hasMore && |r.0.calls| == |st.calls| + 1 && r.0.calls[..|st.calls|] == st.calls))
      && (r.1 ==> |r.0.cache| > |st.cache| && r.0.cache[..|st.cache|] == st.cache)
      && (r.1 ==> r.0.failure == st.failure && (r.0.hasMore ==> r.0.pageToken != ""))
      && (!r.1 ==> r.0.cache == st.cache)
  {
  }

  /**
   * One round of the push loop: a non-empty buffer pushes its last event
   * without fetching and changes nothing else; a round pushes at most one
   * event and goes on only when it pushed and `push` asked for more; a
   * round that pushes nothing ends the stream.
   */
  lemma PushStepShape(st: StreamState, cfg: StreamConfig, io: StreamIo)
    ensures var r := PushStep(st, cfg, io);
      && (st.cache != [] ==>
            r.0 == st.(cache := st.cache[..|st.cache| - 1], emitted := st.emitted + [st.cache[|st.cache| - 1]])
            && r.1 == io.push(r.0.emitted))
      && (st.cache != [] ==> r.0.calls == st.calls && r.0.hasMore == st.hasMore)
      && (st.cache != [] ==> r.0.emitted == st.emitted + [st.cache[|st.cache| - 1]])
      && st.emitted <= r.0.emitted && |r.0.emitted| <= |st.emitted| + 1
      && (r.1 ==> |r.0.emitted| == |st.emitted| + 1 && r.1 == io.push(r.0.emitted))
      && (|r.0.emitted| == |st.emitted| ==> r.0.ended && !r.1)
  {
    FetchStepShape(st, cfg, io);
  }

  /**
   * A whole `pushTillFull` loop: rounds until one says stop, or until `fuel`
   * rounds have run.
   */
  function Drain(st: StreamState, cfg: StreamConfig, io: StreamIo, fuel: nat): StreamState
    decreases fuel
  {
    if fuel == 0 then st
    else
      var s := PushStep(st, cfg, io);
      if s.1 then Drain(s.0, cfg, io, fuel - 1) else s.0
  }

  /** A `pushTillFull` call only appends to what was pushed, at most one event per round. */
  lemma {:induction false} DrainOnlyAppends(st: StreamState, cfg: StreamConfig, io: StreamIo, fuel: nat)
    ensures var r := Drain(st, cfg, io, fuel);
      st.emitted <= r.emitted && |r.emitted| <= |st.emitted| + fuel
    decreases fuel
  {
    if fuel > 0 {
      var s := PushStep(st, cfg, io);
      PushStepShape(st, cfg, io);
      if s.1 {
        DrainOnlyAppends(s.0, cfg, io, fuel - 1);
      }
    }
  }

  class RegistryEventStream {
    const registryApiUrl: string
    const recordId: string
    const userId: Option<string>
    const limit: int

    var hasMore: bool
    var pageToken: string
    var dataCache: seq<Event>
    var isPushing: bool

    // What the Readable side has seen.
    var emitted: seq<Event>
    var ended: bool
    var failure: Option<FetchError>
    var calls: seq<HistoryOptions>

    function Config(): StreamConfig {
      StreamConfig(registryApiUrl, recordId, userId, limit)
    }

    function State(): StreamState
      reads this
    {
      StreamState(hasMore, pageToken, dataCache, emitted, ended, failure, calls)
    }

    /** Stores the configuration; the argument checks are in `Create`. */
    constructor (registryApiUrl: string, recordId: string, userId: Option<string>, limit: Option<int>)
      requires ConstructionError(registryApiUrl, recordId).None?
      ensures Config() == StreamConfig(registryApiUrl, recordId, userId, EffectiveLimit(limit))
      ensures State() == InitialState() && !isPushing
    {
      this.registryApiUrl := registryApiUrl;
      this.recordId := recordId;
      this.userId := userId;
      this.limit := EffectiveLimit(limit);
      hasMore := true;
      pageToken := "";
      dataCache := [];
      isPushing := false;
      emitted := [];
      ended := false;
      failure := None;
      calls := [];
    }

    /** `new RegistryEventStream(...)`, which throws on an empty URL or record id. */
    static method Create(registryApiUrl: string, recordId: string, userId: Option<string>, limit: Option<int>)
      returns (r: Result<RegistryEventStream, string>)
      ensures r.Failure? <==> ConstructionError(registryApiUrl, recordId).Some?
      ensures r.Failure? ==> r.error == ConstructionError(registryApiUrl, recordId).value
      ensures r.Success? ==> fresh(r.value)
      ensures r.Success? ==> r.value.Config() == StreamConfig(registryApiUrl, recordId, userId, EffectiveLimit(limit))
      ensures r.Success? ==> r.value.State() == InitialState() && !r.value.isPushing
    {
      if registryApiUrl == "" {
        return Failure("RegistryEventStream: Invalid empty registryApiUrl");
      }
      if recordId == "" {
        return Failure("RegistryEventStream: Invalid empty recordId");
      }
      var s := new RegistryEventStream(registryApiUrl, recordId, userId, limit);
      return Success(s);
    }

    /** `fetchMore`: fetch one page and append its events to the buffer. */
    method FetchMore(io: StreamIo) returns (more: bool)
      modifies this
      ensures (State(), more) == FetchStep(old(State()), Config(), io)
      ensures isPushing == old(isPushing)
    {
      if !hasMore {
        return false;
      }
      var opts := PageOptions(Config(), io, pageToken);
      if opts.Failure? {
        failure := Some(opts.error);
        return false;
      }
      calls := calls + [opts.value];
      var data := GetRecordHistory(registryApiUrl, recordId, opts.value, io.env, io.fetch);
      if data.Failure? {
        failure := Some(data.error);
        return false;
      }
      var page := data.value;
      hasMore := page.hasMore;
      pageToken := NextToken(page);
      if hasMore && pageToken == "" {
        failure := Some(InvalidResponse(page));
        return false;
      }
      if |page.events| > 0 {
        dataCache := dataCache + page.events;
        return true;
      }
      return false;
    }

    /**
     * One round of `pushTillFull`'s loop: refill the buffer if it is empty
     * (pushing end-of-stream when nothing came), then pop the buffer's last
     * event and push it.
     */
    method PushRound(io: StreamIo) returns (pushMore: bool)
      modifies this
      ensures (State(), pushMore) == PushStep(old(State()), Config(), io)
      ensures isPushing == old(isPushing)
    {
      if dataCache == [] {
        var result := FetchMore(io);
        if !result {
          ended := true;
          return false;
        }
      }
      ghost var s1 := State();
      var event := dataCache[|dataCache| - 1];
      dataCache := dataCache[..|dataCache| - 1];
      emitted := emitted + [event];
      pushMore := io.push(emitted);
      assert (State(), pushMore) == Emit(s1, io);
    }

    /**
     * `pushTillFull`: a no-op while a previous call is still pushing;
     * otherwise pushes buffered events, refilling the buffer only when it is
     * empty, until the consumer says stop or the stream ends.
     */
    method PushTillFull(io: StreamIo, fuel: nat)
      modifies this
      ensures old(isPushing) ==> State() == old(State()) && isPushing
      ensures !old(isPushing) ==> State() == Drain(old(State()), Config(), io, fuel) && !isPushing
    {
      if isPushing {
        return;
      }
      isPushing := true;
      var pushMore := true;
      var n := fuel;
      while pushMore && n > 0
        invariant isPushing
        invariant pushMore ==> Drain(State(), Config(), io, n) == Drain(old(State()), Config(), io, fuel)
        invariant !pushMore ==> State() == Drain(old(State()), Config(), io, fuel)
        decreases n
      {
        pushMore := PushRound(io);
        n := n - 1;
      }
      isPushing := false;
    }

    /** `_read`: the Readable's request for more data. */
    method Read(io: StreamIo, fuel: nat)
      modifies this
      ensures old(isPushing) ==> State() == old(State()) && isPushing
      ensures !old(isPushing) ==> State() == Drain(old(State()), Config(), io, fuel) && !isPushing
    {
      PushTillFull(io, fuel);
    }
  }
}
