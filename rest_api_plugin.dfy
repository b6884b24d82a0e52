/** The request-assembly core of the REST API integration plugin: `execute`
    builds the transport options from the datasource and action
    configurations, `getRequest` gathers the arguments of the cURL renderer,
    and two constant lists name the dynamic and the escaped fields. */
module RestApiPlugin {
  import opened Wrappers
  import opened KeyValue

  /** Connection-level settings shared by many actions. */
  datatype DatasourceConfiguration = DatasourceConfiguration(
    urlBase: Option<string>,
    headers: Option<seq<Entry>>,
    params: Option<seq<Entry>>)

  /** Per-call settings layered on top of the datasource. The body fields are
      only passed through, so their payloads are kept as strings. */
  datatype ActionConfiguration = ActionConfiguration(
    httpMethod: Option<string>,
    urlPath: Option<string>,
    headers: Option<seq<Entry>>,
    params: Option<seq<Entry>>,
    bodyType: Option<string>,
    body: Option<string>,
    formData: Option<seq<Entry>>,
    fileName: Option<string>,
    fileFormKey: Option<string>)

  /** The process-wide limits the plugin reads. */
  datatype PluginConfiguration = PluginConfiguration(
    restApiExecutionTimeoutMs: nat,
    restApiMaxContentLengthBytes: nat)

  /** The error the plugin throws, distinguished only by its message. */
  datatype IntegrationError = IntegrationError(message: string)

  /** A parsed URL: everything but the query (scheme, host, path, fragment)
      as one opaque string, and the query as its list of pairs. */
  datatype UrlRecord = UrlRecord(location: string, query: seq<QueryPair>)

  /** The transport descriptor handed to body injection and execution. */
  datatype RequestOptions = RequestOptions(
    url: UrlRecord,
    responseType: string,
    httpMethod: string,
    headers: HeaderMap,
    timeout: nat,
    maxBodyLength: nat,
    maxContentLength: nat)

  /** The arguments `getRequest` passes to the cURL renderer. */
  datatype CurlRequest = CurlRequest(
    reqMethod: string,
    reqUrl: string,
    reqHeaders: seq<Entry>,
    reqParams: seq<Entry>,
    reqBody: Option<string>,
    reqFormData: Option<seq<Entry>>,
    reqBodyType: Option<string>,
    reqFileName: Option<string>,
    reqFileFormKey: Option<string>)

  const NoMethodMessage: string := "No HTTP method specified for REST API step"
  const MethodNotSpecifiedMessage: string := "HTTP method not specified"
  const InvalidUrlPrefix: string := "URL is not valid, "
  const ArrayBuffer: string := "arraybuffer"

  /** JavaScript truthiness of an optional string. */
  predicate IsFalsy(s: Option<string>) {
    s.None? || s.value == ""
  }

  /** The URL text: `${urlBase}${urlPath ?? ''}`. */
  function RequestUrl(ds: DatasourceConfiguration, act: ActionConfiguration): string {
    Stringify(ds.urlBase) + act.urlPath.GetOr("")
  }

  /** Datasource parameters followed by action parameters, unfiltered. */
  function MergedParams(ds: DatasourceConfiguration, act: ActionConfiguration): seq<Entry> {
    ds.params.GetOr([]) + act.params.GetOr([])
  }

  /** Datasource headers followed by action headers, unfiltered. */
  function MergedHeaders(ds: DatasourceConfiguration, act: ActionConfiguration): seq<Entry> {
    ds.headers.GetOr([]) + act.headers.GetOr([])
  }

  /** A URL object whose search-parameter list is appended to in place. */
  class Url {
    const location: string
    var query: seq<QueryPair>

    constructor (parsed: UrlRecord)
      ensures location == parsed.location && query == parsed.query
    {
      location := parsed.location;
      query := parsed.query;
    }

    /** `url.searchParams.append(name, value)`. */
    method Append(name: string, value: string)
      modifies this
      ensures query == old(query) + [QueryPair(name, value)]
    {
      query := query + [QueryPair(name, value)];
    }
  }

  /** `execute` up to the hand-over to body injection: the method guard, URL
      parsing, the query merge, the header fold and the User-Agent default.
      `parse` is the URL parser (its error is the parser's message),
      `valid` is the parameter validity predicate. */
  method Execute(
    ds: DatasourceConfiguration,
    act: ActionConfiguration,
    parse: string -> Result<UrlRecord, string>,
    valid: Property -> bool,
    defaultUserAgent: string,
    config: PluginConfiguration)
    returns (r: Result<RequestOptions, IntegrationError>)
    ensures IsFalsy(act.httpMethod) ==> r == Failure(IntegrationError(NoMethodMessage))
    ensures !IsFalsy(act.httpMethod) && parse(RequestUrl(ds, act)).Failure? ==>
              r == Failure(IntegrationError(InvalidUrlPrefix + parse(RequestUrl(ds, act)).error))
    ensures !IsFalsy(act.httpMethod) && parse(RequestUrl(ds, act)).Success? ==>
              var parsed := parse(RequestUrl(ds, act)).value;
              r == Success(RequestOptions(
                     UrlRecord(parsed.location, parsed.query + EffectiveParams(valid, MergedParams(ds, act))),
                     ArrayBuffer,
                     act.httpMethod.value,
                     WithDefaultUserAgent(FoldHeaders(MergedHeaders(ds, act)), defaultUserAgent),
                     config.restApiExecutionTimeoutMs,
                     config.restApiMaxContentLengthBytes,
                     config.restApiMaxContentLengthBytes))
  {
    if IsFalsy(act.httpMethod) {
      return Failure(IntegrationError(NoMethodMessage));
    }

    var parsed := parse(RequestUrl(ds, act));
    if parsed.Failure? {
      return Failure(IntegrationError(InvalidUrlPrefix + parsed.error));
    }
    var url := new Url(parsed.value);

    var params := MergedParams(ds, act);
    var i := 0;
    while i < |params|
      invariant 0 <= i <= |params|
      invariant url.query == parsed.value.query + EffectiveParams(valid, params[..i])
    {
      var param := params[i];
      if IsEffective(valid, param) {
        url.Append(Stringify(param.value.key), Stringify(param.value.value));
      }
      assert params[..i + 1][..i] == params[..i];
      i := i + 1;
    }
    assert params[..i] == params;

    var headerList := MergedHeaders(ds, act);
    var headers: HeaderMap := map[];
    var j := 0;
    while j < |headerList|
      invariant 0 <= j <= |headerList|
      invariant headers == FoldHeaders(headerList[..j])
    {
      var p := headerList[j];
      if !IsSkipped(p) {
        headers := headers[p.value.key.value := p.value.value];
      }
      assert headerList[..j + 1][..j] == headerList[..j];
      j := j + 1;
    }
    assert headerList[..j] == headerList;

    if !HasUserAgent(headers) {
      headers := headers[UserAgentHeader := Some(defaultUserAgent)];
    }

    r := Success(RequestOptions(
      UrlRecord(url.location, url.query),
      ArrayBuffer,
      act.httpMethod.value,
      headers,
      config.restApiExecutionTimeoutMs,
      config.restApiMaxContentLengthBytes,
      config.restApiMaxContentLengthBytes));
  }

  /** `getRequest`: the method guard, then the raw concatenations handed to
      the cURL renderer, without filtering, URL parsing or User-Agent
      default. */
  function GetRequest(act: ActionConfiguration, ds: DatasourceConfiguration): (r: Result<CurlRequest, IntegrationError>)
    ensures r.Failure? <==> IsFalsy(act.httpMethod)
    ensures r.Failure? ==> r.error == IntegrationError(MethodNotSpecifiedMessage)
    ensures r.Success? ==>
              && r.value.reqMethod == act.httpMethod.value
              && r.value.reqUrl == Stringify(ds.urlBase) + act.urlPath.GetOr("")
              && |r.value.reqHeaders| == |ds.headers.GetOr([])| + |act.headers.GetOr([])|
              && r.value.reqHeaders[..|ds.headers.GetOr([])|] == ds.headers.GetOr([])
              && r.value.reqHeaders[|ds.headers.GetOr([])|..] == act.headers.GetOr([])
              && |r.value.reqParams| == |ds.params.GetOr([])| + |act.params.GetOr([])|
              && r.value.reqParams[..|ds.params.GetOr([])|] == ds.params.GetOr([])
              && r.value.reqParams[|ds.params.GetOr([])|..] == act.params.GetOr([])
              && r.value.reqBody == act.body
              && r.value.reqFormData == act.formData
              && r.value.reqBodyType == act.bodyType
              && r.value.reqFileName == act.fileName
              && r.value.reqFileFormKey == act.fileFormKey
  {
    if IsFalsy(act.httpMethod) then
      Failure(IntegrationError(MethodNotSpecifiedMessage))
    else
      Success(CurlRequest(
        act.httpMethod.value,
        RequestUrl(ds, act),
        MergedHeaders(ds, act),
        MergedParams(ds, act),
        act.body,
        act.formData,
        act.bodyType,
        act.fileName,
        act.fileFormKey))
  }

  /** What `getRequest` displays against what `execute` applies. The first
      clause restates `GetRequest`'s own guard: it fails exactly on the
      falsy method that `Execute` also rejects first; `execute` alone goes on
      to reject a URL text that does not parse, which `getRequest` passes on
      unchecked. The URL text shown is the text `execute` parses; the query
      pairs `execute` appends are the effective pairs of the displayed
      parameters (datasource first), and its header object folds the
      displayed headers, action keys overriding datasource keys. */
  lemma GetRequestMatchesExecute(ds: DatasourceConfiguration, act: ActionConfiguration, valid: Property -> bool)
    ensures GetRequest(act, ds).Failure? <==> IsFalsy(act.httpMethod)
    ensures GetRequest(act, ds).Success? ==>
              && GetRequest(act, ds).value.reqUrl == RequestUrl(ds, act)
              && EffectiveParams(valid, GetRequest(act, ds).value.reqParams)
                   == EffectiveParams(valid, ds.params.GetOr([])) + EffectiveParams(valid, act.params.GetOr([]))
              && FoldHeaders(GetRequest(act, ds).value.reqHeaders)
                   == FoldHeaders(ds.headers.GetOr([])) + FoldHeaders(act.headers.GetOr([]))
  {
    EffectiveParamsConcat(valid, ds.params.GetOr([]), act.params.GetOr([]));
    FoldHeadersConcat(ds.headers.GetOr([]), act.headers.GetOr([]));
  }

  // ---------------------------------------------------------------------
  // Field lists
  // ---------------------------------------------------------------------

  /** The configuration fields the plugin reads. */
  datatype ConfigField =
    | UrlBase | UrlPath | Params | Headers | BodyType | Body
    | FormData | FileName | FileFormKey | HttpMethod | ResponseType

  /** The fields whose values are template-evaluated: every field except
      the HTTP method and the response type, each listed once. */
  function DynamicProperties(): (r: seq<ConfigField>)
    ensures |r| == 9
    ensures forall i, j :: 0 <= i < j < |r| ==> r[i] != r[j]
    ensures forall f :: f in r <==> !f.HttpMethod? && !f.ResponseType?
  {
    [UrlBase, UrlPath, Params, Headers, BodyType, Body, FormData, FileName, FileFormKey]
  }

  /** The only field whose evaluated value is string-escaped is the body. */
  function EscapeStringProperties(): (r: seq<ConfigField>)
    ensures |r| == 1
    ensures forall f :: f in r <==> f.Body?
  {
    [Body]
  }

  /** Every escaped field is also a dynamic field. */
  lemma EscapedFieldsAreDynamic()
    ensures forall f :: f in EscapeStringProperties() ==> f in DynamicProperties()
  {
  }
}
