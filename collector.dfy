/** The collector side as the emitter sees it: the endpoint URI it builds,
    the requests it issues and the rule that says which responses count as
    delivered. */
module Collector {
  import opened Wrappers
  import opened Decimal
  import opened Payloads

  const GET_PATH := "/i"
  const POST_PATH := "/com.snowplowanalytics.snowplow/tp2"
  const PAYLOAD_DATA_SCHEMA := "iglu:com.snowplowanalytics.snowplow/payload_data/jsonschema/1-0-4"

  datatype UriError = NoEndpoint

  /** The route: `/i` for `get`, the tp2 route for every other method text. */
  function RoutePath(httpMethod: string): (path: string)
    ensures path == GET_PATH <==> httpMethod == "get"
    ensures httpMethod != "get" ==> path == POST_PATH
  {
    if httpMethod == "get" then GET_PATH else POST_PATH
  }

  /** `":" + str(port)` when a port is given, nothing otherwise. */
  function PortPart(port: Option<int>): (part: string)
    ensures port.None? <==> part == ""
  {
    match port
    case None => ""
    case Some(p) => ":" + IntToString(p)
  }

  /** `as_collector_uri`: rejects an empty endpoint, otherwise
      `protocol://endpoint[:port]path`. */
  function AsCollectorUri(endpoint: string, protocol: string, port: Option<int>, httpMethod: string): (r: Result<string, UriError>)
    ensures r.Failure? <==> endpoint == ""
    ensures r.Success? ==>
      var prefix := protocol + "://" + endpoint;
      var path := RoutePath(httpMethod);
      && |r.value| == |prefix| + |PortPart(port)| + |path|
      && r.value[..|prefix|] == prefix
      && r.value[|prefix|..|r.value| - |path|] == PortPart(port)
      && r.value[|r.value| - |path|..] == path
  {
    if |endpoint| < 1 then Failure(NoEndpoint)
    else Success(protocol + "://" + endpoint + PortPart(port) + RoutePath(httpMethod))
  }

  /** Distinct ports, or a port against none, give distinct URIs; so do the
      GET route and the POST route. */
  lemma CollectorUriInjective(endpoint: string, protocol: string, port1: Option<int>, httpMethod1: string,
                              port2: Option<int>, httpMethod2: string)
    requires endpoint != ""
    requires AsCollectorUri(endpoint, protocol, port1, httpMethod1) == AsCollectorUri(endpoint, protocol, port2, httpMethod2)
    ensures port1 == port2
    ensures httpMethod1 == "get" <==> httpMethod2 == "get"
  {
    var u := AsCollectorUri(endpoint, protocol, port1, httpMethod1).value;
    var prefix := protocol + "://" + endpoint;
    var path := RoutePath(httpMethod1);
    var path2 := RoutePath(httpMethod2);
    assert u[|u| - 1] == path[|path| - 1] && u[|u| - 1] == path2[|path2| - 1];
    assert GET_PATH[|GET_PATH| - 1] == 'i' && POST_PATH[|POST_PATH| - 1] == '2';
    assert path2 == path;
    assert PortPart(port1) == u[|prefix|..|u| - |path|] == PortPart(port2);
    match port1
    case None =>
    case Some(p1) =>
      var p2 := port2.value;
      assert IntToString(p1) == PortPart(port1)[1..];
      assert IntToString(p2) == PortPart(port2)[1..];
      IntToStringInjective(p1, p2);
  }

  /** The default collector URI: plain HTTP, no port, GET route. */
  lemma CollectorUriDefault()
    ensures AsCollectorUri("0.0.0.0", "http", None, "get") == Success("http://0.0.0.0/i")
  {
    assert "http" + "://" + "0.0.0.0" == "http://0.0.0.0";
    assert "http://0.0.0.0" + "" + GET_PATH == "http://0.0.0.0/i";
  }

  /** The protocol text goes in front unchanged, whatever it is. */
  lemma CollectorUriProtocol(protocol: string)
    ensures AsCollectorUri("0.0.0.0", protocol, None, "get") == Success(protocol + "://0.0.0.0/i")
  {
    assert protocol + "://" + "0.0.0.0" == protocol + "://0.0.0.0";
    assert protocol + "://0.0.0.0" + "" + GET_PATH == protocol + "://0.0.0.0/i";
  }

  /** POST without a port: the tp2 route right after the host. */
  lemma CollectorUriPost()
    ensures AsCollectorUri("0.0.0.0", "http", None, "post") == Success("http://0.0.0.0" + POST_PATH)
  {
    assert "http" + "://" + "0.0.0.0" == "http://0.0.0.0";
    assert "http://0.0.0.0" + "" == "http://0.0.0.0";
  }

  /** POST with a port: `:9090` between the host and the route. */
  lemma CollectorUriPostPort()
    ensures AsCollectorUri("0.0.0.0", "http", Some(9090), "post") == Success("http://0.0.0.0:9090" + POST_PATH)
  {
    PortText9090();
    assert "http" + "://" + "0.0.0.0" == "http://0.0.0.0";
    assert PortPart(Some(9090)) == ":9090";
    assert "http://0.0.0.0" + ":9090" == "http://0.0.0.0:9090";
    assert RoutePath("post") == POST_PATH;
  }

  lemma PortText9090()
    ensures IntToString(9090) == "9090"
  {
    assert NatToString(9) == "9";
    assert NatToString(90) == "90";
    assert NatToString(909) == "909";
  }

  /** `is_good_status_code`. */
  function IsGoodStatusCode(code: int): (good: bool)
    ensures good ==> code / 100 == 2 || code / 100 == 3
    ensures code >= 0 && (code / 100 == 2 || code / 100 == 3) ==> good
  {
    200 <= code < 400
  }

  /** The good codes are exactly the 2xx (success) and 3xx (redirection)
      classes of HTTP status codes. */
  lemma GoodStatusIsSuccessOrRedirect(code: nat)
    ensures IsGoodStatusCode(code) <==> code / 100 == 2 || code / 100 == 3
  {
  }

  /** What one HTTP request yields: a status code, or an `aiohttp.ClientError`
      (refused connection, timeout, ...). */
  datatype Response = Status(code: int) | ClientError

  /** `http_get` / `http_post` return value: a good status code; a client error
      reads as not delivered. */
  function Delivered(r: Response): (ok: bool)
    ensures ok ==> r.Status?
    ensures r.Status? ==> (ok <==> 200 <= r.code < 400)
  {
    r.Status? && IsGoodStatusCode(r.code)
  }

  /** One request to the collector: a POST carrying the whole batch in a
      self-describing `payload_data` envelope, or a GET carrying one event as
      query parameters. */
  datatype Request =
    | PostRequest(uri: string, schema: string, data: seq<Payload>)
    | GetRequest(uri: string, params: Payload)
}
