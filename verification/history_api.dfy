/**
 * The registry's record-history endpoint as the exporter calls it: the event
 * and page shapes, the query string and headers of one history request, and
 * the request itself with the HTTP transport replaced by an oracle.
 */
module HistoryApi {
  import opened JsValues

  /** The aspects every history request asks the registry to dereference, in their listed order. */
  const DefaultFetchAspects: seq<string> := [
    "dcat-dataset-strings",
    "dcat-distribution-strings",
    "dataset-distributions",
    "temporal-coverage",
    "usage",
    "access",
    "dataset-publisher",
    "source",
    "source-link-status",
    "dataset-quality-rating",
    "spatial-coverage",
    "publishing",
    "dataset-access-control",
    "organization-details",
    "provenance",
    "information-security",
    "currency",
    "ckan-export",
    "version"
  ]

  /** One JSON-patch operation of a Patch* event; each field may be absent. */
  datatype PatchOp = PatchOp(op: Option<string>, path: Option<string>, value: Option<Json>)

  /**
   * The `data` payload of an event. `raw` is the payload object itself, the
   * value `JSON.stringify(event.data)` serialises; the other fields are the
   * properties of it that the exporter reads.
   */
  datatype EventData = EventData(
    recordId: string,
    aspectId: Option<string>,
    aspect: Option<Json>,
    patch: Option<seq<PatchOp>>,
    raw: Json)

  /** One audit event of a record's history. */
  datatype Event = Event(
    id: int,
    eventTime: string,
    eventType: string,
    tenantId: int,
    userId: string,
    data: EventData)

  /** One page of the history endpoint's JSON response. */
  datatype Page = Page(hasMore: bool, nextPageToken: Option<string>, events: seq<Event>)

  /** The options of one history request; `None` is an option left undefined. */
  datatype HistoryOptions = HistoryOptions(
    start: Option<int>,
    pageToken: Option<string>,
    limit: Option<int>,
    jwtToken: Option<string>)

  /** `X-Magda-Tenant-Id` and, when present, `X-Magda-Session`. */
  datatype Headers = Headers(tenantId: string, session: Option<string>)

  /**
   * A GET of `{registryUrl}/records/{recordId}/history?{query joined by "&"}`,
   * described by what it is built from: its query entries are `Query()`.
   */
  datatype HistoryRequest = HistoryRequest(
    registryUrl: string,
    recordId: string,
    options: HistoryOptions,
    headers: Headers)
  {
    function Query(): seq<string> {
      QueryParameters(options)
    }
  }

  /** What the transport can answer: a 2xx page, a non-2xx status with its body text, or a thrown error. */
  datatype HistoryResponse =
    | HistoryOk(page: Page)
    | HistoryNotOk(status: int, details: string)
    | HistoryUnreachable(reason: string)

  /** The errors that end an event stream. */
  datatype FetchError =
    | HistoryFailed(status: int, details: string)
    | TransportFailed(reason: string)
    | SigningFailed(reason: string)
    | InvalidResponse(page: Page)

  // ---------------------------------------------------------------------
  // Query string

  function DigitChar(d: nat): char
    requires d < 10
  {
    "0123456789"[d]
  }

  /** Decimal text of a natural number, as a template string renders it. */
  function NatText(n: nat): string
    decreases n
  {
    if n < 10 then [DigitChar(n)] else NatText(n / 10) + [DigitChar(n % 10)]
  }

  /** Decimal text of an integer, as a template string renders it. */
  function IntText(n: int): string {
    if n < 0 then "-" + NatText(-n) else NatText(n)
  }

  predicate IsDigit(c: char) {
    '0' <= c <= '9'
  }

  /** The number a string of decimal digits denotes. */
  function DecimalValue(s: string): int
    requires forall i :: 0 <= i < |s| ==> IsDigit(s[i])
    decreases |s|
  {
    if s == [] then 0 else DecimalValue(s[..|s| - 1]) * 10 + (s[|s| - 1] as int - '0' as int)
  }

  /** The text of a natural number is non-empty decimal digits without a leading zero, denoting the number. */
  lemma {:induction false} NatTextValue(n: nat)
    ensures |NatText(n)| > 0
    ensures forall i :: 0 <= i < |NatText(n)| ==> IsDigit(NatText(n)[i])
    ensures DecimalValue(NatText(n)) == n
    ensures NatText(n)[0] == '0' ==> n == 0
    decreases n
  {
    if n >= 10 {
      var t := NatText(n / 10);
      NatTextValue(n / 10);
      var d := DigitChar(n % 10);
      assert NatText(n) == t + [d];
      assert (t + [d])[..|t|] == t;
      assert d as int - '0' as int == n % 10;
    } else {
      assert NatText(n) == [DigitChar(n)];
    }
  }

  /**
   * Decimal text reads back: a leading "-" exactly for a negative number,
   * followed by digits without a leading zero that denote its magnitude.
   */
  lemma IntTextValue(n: int)
    ensures var t := IntText(n);
      var digits := if n < 0 then t[1..] else t;
      && |t| > 0 && (t[0] == '-' <==> n < 0)
      && |digits| > 0 && (forall i :: 0 <= i < |digits| ==> IsDigit(digits[i]))
      && DecimalValue(digits) == (if n < 0 then -n else n)
      && (digits[0] == '0' ==> n == 0)
  {
    if n < 0 {
      NatTextValue(-n);
      assert IntText(n)[1..] == NatText(-n);
    } else {
      NatTextValue(n);
      assert IsDigit(NatText(n)[0]);
    }
  }

  /** The `name=value` entry of a defined option, and "" for an undefined one. */
  function OptionalEntry(name: string, value: Option<string>): string {
    if value.Some? then name + "=" + value.value else ""
  }

  /** `items.filter(item => !!item)`: the non-empty entries, in order. */
  function NonEmptyEntries(items: seq<string>): (r: seq<string>)
    ensures |r| <= |items|
    ensures forall e :: e in r <==> e in items && e != ""
  {
    if items == [] then []
    else (if items[0] != "" then [items[0]] else []) + NonEmptyEntries(items[1..])
  }

  /** `aspects.map(aspect => "aspect=" + aspect)`. */
  function AspectEntries(aspects: seq<string>): (r: seq<string>)
    ensures |r| == |aspects|
    ensures forall i :: 0 <= i < |aspects| ==> r[i] == "aspect=" + aspects[i]
  {
    if aspects == [] then [] else ["aspect=" + aspects[0]] + AspectEntries(aspects[1..])
  }

  /** The option rendered as text, if defined. */
  function IntOption(v: Option<int>): Option<string> {
    if v.Some? then Some(IntText(v.value)) else None
  }

  /** The leading entries: dereferencing and the defined options, empty ones filtered out. */
  function OptionEntries(opts: HistoryOptions): seq<string> {
    NonEmptyEntries([
      "dereference=true",
      OptionalEntry("start", IntOption(opts.start)),
      OptionalEntry("pageToken", opts.pageToken),
      OptionalEntry("limit", IntOption(opts.limit))
    ])
  }

  /** The query parameters of one history request, in the order the source builds them. */
  function QueryParameters(opts: HistoryOptions): seq<string> {
    OptionEntries(opts) + AspectEntries(DefaultFetchAspects)
  }

  /** A defined option as a one-entry list, an undefined one as the empty list. */
  function Listed(name: string, value: Option<string>): seq<string> {
    if value.Some? then [name + "=" + value.value] else []
  }

  /** Whether a query entry is an `aspect=` entry. */
  predicate IsAspectEntry(e: string) {
    |e| >= 7 && e[..7] == "aspect="
  }

  /** The values of the `aspect=` entries of a query, in order. */
  function AspectValues(q: seq<string>): seq<string> {
    if q == [] then []
    else (if IsAspectEntry(q[0]) then [q[0][7..]] else []) + AspectValues(q[1..])
  }

  lemma {:induction false} AspectValuesAppend(a: seq<string>, b: seq<string>)
    ensures AspectValues(a + b) == AspectValues(a) + AspectValues(b)
  {
    if a != [] {
      var head := if IsAspectEntry(a[0]) then [a[0][7..]] else [];
      assert (a + b)[0] == a[0];
      assert (a + b)[1..] == a[1..] + b;
      AspectValuesAppend(a[1..], b);
      calc {
        AspectValues(a + b);
        head + AspectValues(a[1..] + b);
        head + (AspectValues(a[1..]) + AspectValues(b));
        (head + AspectValues(a[1..])) + AspectValues(b);
        AspectValues(a) + AspectValues(b);
      }
    } else {
      assert a + b == b;
    }
  }

  /** Reading the aspect entries back gives the aspect list itself. */
  lemma {:induction false} AspectValuesOfEntries(aspects: seq<string>)
    ensures AspectValues(AspectEntries(aspects)) == aspects
  {
    if aspects != [] {
      var e := "aspect=" + aspects[0];
      assert e[..7] == "aspect=" && e[7..] == aspects[0];
      assert AspectEntries(aspects) == [e] + AspectEntries(aspects[1..]);
      assert (AspectEntries(aspects))[1..] == AspectEntries(aspects[1..]);
      AspectValuesOfEntries(aspects[1..]);
    }
  }

  /** An entry whose name does not start with 'a' is not an `aspect=` entry. */
  lemma NotAspectEntry(name: string, value: string)
    requires name != [] && name[0] != 'a'
    ensures !IsAspectEntry(name + "=" + value)
  {
    var e := name + "=" + value;
    assert e[0] == name[0];
    if |e| >= 7 {
      assert e[..7][0] == e[0];
    }
  }

  /** Filtering a list with a known first entry. */
  lemma NonEmptyEntriesCons(x: string, rest: seq<string>)
    ensures NonEmptyEntries([x] + rest) == (if x != "" then [x] else []) + NonEmptyEntries(rest)
  {
    assert ([x] + rest)[0] == x;
    assert ([x] + rest)[1..] == rest;
  }

  /** A single entry is kept exactly when it is non-empty. */
  lemma NonEmptyEntriesSingle(x: string)
    ensures NonEmptyEntries([x]) == if x != "" then [x] else []
  {
    NonEmptyEntriesCons(x, []);
  }

  /**
   * Filtering keeps order and multiplicity: the filter of a concatenation is
   * the concatenation of the filters.
   */
  lemma {:induction false} NonEmptyEntriesAppend(a: seq<string>, b: seq<string>)
    ensures NonEmptyEntries(a + b) == NonEmptyEntries(a) + NonEmptyEntries(b)
    decreases |a|
  {
    if a == [] {
      assert a + b == b;
    } else {
      var head := if a[0] != "" then [a[0]] else [];
      NonEmptyEntriesAppend(a[1..], b);
      assert a + b == [a[0]] + (a[1..] + b);
      NonEmptyEntriesCons(a[0], a[1..] + b);
      assert a == [a[0]] + a[1..];
      NonEmptyEntriesCons(a[0], a[1..]);
      calc {
        NonEmptyEntries(a + b);
        head + NonEmptyEntries(a[1..] + b);
        head + (NonEmptyEntries(a[1..]) + NonEmptyEntries(b));
        (head + NonEmptyEntries(a[1..])) + NonEmptyEntries(b);
        NonEmptyEntries(a) + NonEmptyEntries(b);
      }
    }
  }

  /**
   * The query is "dereference=true", then `start`, `pageToken` and `limit`,
   * each only when defined and in that order, then one `aspect=` entry per
   * default aspect.
   */
  lemma QueryParametersLayout(opts: HistoryOptions)
    ensures QueryParameters(opts) ==
      ["dereference=true"]
      + Listed("start", IntOption(opts.start))
      + Listed("pageToken", opts.pageToken)
      + Listed("limit", IntOption(opts.limit))
      + AspectEntries(DefaultFetchAspects)
  {
    OptionEntriesLayout(opts);
  }

  lemma OptionEntriesLayout(opts: HistoryOptions)
    ensures OptionEntries(opts) ==
      ["dereference=true"]
      + Listed("start", IntOption(opts.start))
      + Listed("pageToken", opts.pageToken)
      + Listed("limit", IntOption(opts.limit))
  {
    var s := OptionalEntry("start", IntOption(opts.start));
    var t := OptionalEntry("pageToken", opts.pageToken);
    var l := OptionalEntry("limit", IntOption(opts.limit));
    var items := ["dereference=true", s, t, l];
    assert s != "" <==> IntOption(opts.start).Some? by {
      if IntOption(opts.start).Some? { assert |s| >= 6; }
    }
    assert t != "" <==> opts.pageToken.Some? by {
      if opts.pageToken.Some? { assert |t| >= 10; }
    }
    assert l != "" <==> IntOption(opts.limit).Some? by {
      if IntOption(opts.limit).Some? { assert |l| >= 6; }
    }
    assert items == ["dereference=true"] + ([s] + ([t] + ([l] + [])));
    NonEmptyEntriesCons(l, []);
    NonEmptyEntriesCons(t, [l]);
    assert [t] + [l] == [t, l];
    NonEmptyEntriesCons(s, [t, l]);
    assert [s] + [t, l] == [s, t, l];
    NonEmptyEntriesCons("dereference=true", [s, t, l]);
  }

  /**
   * Every history query asks for dereferencing first and requests exactly the
   * default aspects, each once and in their listed order.
   */
  lemma QueryRequestsDefaultAspects(opts: HistoryOptions)
    ensures QueryParameters(opts)[0] == "dereference=true"
    ensures AspectValues(QueryParameters(opts)) == DefaultFetchAspects
    ensures |QueryParameters(opts)| ==
      1 + |Listed("start", IntOption(opts.start))| + |Listed("pageToken", opts.pageToken)|
        + |Listed("limit", IntOption(opts.limit))| + |DefaultFetchAspects|
  {
    OptionEntriesLayout(opts);
    QueryRequestsAspects(opts, DefaultFetchAspects);
  }

  lemma QueryRequestsAspects(opts: HistoryOptions, aspects: seq<string>)
    ensures AspectValues(OptionEntries(opts) + AspectEntries(aspects)) == aspects
  {
    OptionEntriesLayout(opts);
    var st := Listed("start", IntOption(opts.start));
    var pt := Listed("pageToken", opts.pageToken);
    var li := Listed("limit", IntOption(opts.limit));
    assert !IsAspectEntry("dereference=true") by {
      assert "dereference=true"[..7] == "derefer";
    }
    assert AspectValues(["dereference=true"]) == [];
    if IntOption(opts.start).Some? { NotAspectEntry("start", IntOption(opts.start).value); }
    if opts.pageToken.Some? { NotAspectEntry("pageToken", opts.pageToken.value); }
    if IntOption(opts.limit).Some? { NotAspectEntry("limit", IntOption(opts.limit).value); }
    assert AspectValues(st) == [] && AspectValues(pt) == [] && AspectValues(li) == [];
    AspectValuesAppend(["dereference=true"], st);
    AspectValuesAppend(["dereference=true"] + st, pt);
    AspectValuesAppend(["dereference=true"] + st + pt, li);
    AspectValuesAppend(OptionEntries(opts), AspectEntries(aspects));
    AspectValuesOfEntries(aspects);
  }

  // ---------------------------------------------------------------------
  // Headers

  /** `X-Magda-Tenant-Id`: the configured `tenantId` when it is non-empty, otherwise "0". */
  function TenantHeader(env: map<string, string>): (t: string)
    ensures t != ""
    ensures "tenantId" in env && env["tenantId"] != "" ==> t == env["tenantId"]
    ensures !("tenantId" in env && env["tenantId"] != "") ==> t == "0"
  {
    if "tenantId" in env && env["tenantId"] != "" then env["tenantId"] else "0"
  }

  /** The request headers: the tenant header always, the session header iff a non-empty token was supplied. */
  function RequestHeaders(env: map<string, string>, jwtToken: Option<string>): (h: Headers)
    ensures h.tenantId == TenantHeader(env)
    ensures h.session.Some? <==> TruthyString(jwtToken)
    ensures h.session.Some? ==> h.session == jwtToken
  {
    Headers(TenantHeader(env), if TruthyString(jwtToken) then jwtToken else None)
  }

  // ---------------------------------------------------------------------
  // The request

  /**
   * The request `getRecordHistory` sends for the given options goes to the
   * record's history, carries the laid-out query, the tenant header, and the
   * session header exactly when the options hold a non-empty token.
   */
  lemma HistoryRequestLayout(registryUrl: string, recordId: string, opts: HistoryOptions, env: map<string, string>)
    ensures var r := RecordHistoryRequest(registryUrl, recordId, opts, env);
      && r.registryUrl == registryUrl && r.recordId == recordId
      && r.Query() ==
           ["dereference=true"]
           + Listed("start", IntOption(opts.start))
           + Listed("pageToken", opts.pageToken)
           + Listed("limit", IntOption(opts.limit))
           + AspectEntries(DefaultFetchAspects)
      && r.headers.tenantId == TenantHeader(env)
      && (r.headers.session.Some? <==> TruthyString(opts.jwtToken))
      && (r.headers.session.Some? ==> r.headers.session == opts.jwtToken)
  {
    QueryParametersLayout(opts);
  }

  /** The request `getRecordHistory` sends for the given options. */
  function RecordHistoryRequest(
    registryUrl: string, recordId: string, opts: HistoryOptions, env: map<string, string>): HistoryRequest
  {
    HistoryRequest(registryUrl, recordId, opts, RequestHeaders(env, opts.jwtToken))
  }

  /**
   * `getRecordHistory`: sends one request through the `fetch` oracle. A 2xx
   * answer yields its page; a non-2xx answer or a transport error throws.
   */
  function GetRecordHistory(
    registryUrl: string, recordId: string, opts: HistoryOptions,
    env: map<string, string>, fetch: HistoryRequest -> HistoryResponse): (r: Result<Page, FetchError>)
    ensures var resp := fetch(RecordHistoryRequest(registryUrl, recordId, opts, env));
      && (r.Success? <==> resp.HistoryOk?)
      && (resp.HistoryOk? ==> r.value == resp.page)
      && (resp.HistoryNotOk? ==> r.error == HistoryFailed(resp.status, resp.details))
      && (resp.HistoryUnreachable? ==> r.error == TransportFailed(resp.reason))
  {
    match fetch(RecordHistoryRequest(registryUrl, recordId, opts, env))
    case HistoryOk(page) => Success(page)
    case HistoryNotOk(status, details) => Failure(HistoryFailed(status, details))
    case HistoryUnreachable(reason) => Failure(TransportFailed(reason))
  }
}
