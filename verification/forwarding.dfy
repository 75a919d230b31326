/** `forward_request`: resolve the service, check the method, make one backend call and sort its
    outcome into exactly one gateway result. The call itself is not modelled: its outcome is an
    input. */
module Forwarding {
  import opened Wrappers
  import opened JsonModel
  import opened Errors

  /** Service name to base URL, in declaration order (a Python dict keeps insertion order). */
  type Registry = seq<(string, string)>

  const Services: Registry := [("student", "http://localhost:8001"), ("course", "http://localhost:8002")]

  /** `list(SERVICES.keys())`. */
  function ServiceNames(reg: Registry): (names: seq<string>)
    ensures |names| == |reg|
    ensures forall k :: 0 <= k < |reg| ==> names[k] == reg[k].0
  {
    if |reg| == 0 then [] else [reg[0].0] + ServiceNames(reg[1..])
  }

  /** `SERVICES[service]` when `service in SERVICES`: the first entry with that name. */
  function Lookup(reg: Registry, name: string): (r: Option<string>)
    ensures r.None? <==> name !in ServiceNames(reg)
    ensures r.Some? ==>
      exists k :: 0 <= k < |reg| && reg[k] == (name, r.value) && forall j :: 0 <= j < k ==> reg[j].0 != name
  {
    if |reg| == 0 then None
    else if reg[0].0 == name then Some(reg[0].1)
    else Lookup(reg[1..], name)
  }

  predicate SupportedMethod(verb: string) {
    verb == "GET" || verb == "POST" || verb == "PUT" || verb == "DELETE"
  }

  /** The HTTP client's `get` and `delete` have no `json` parameter: passing one raises a
      `TypeError` before anything is sent, and `forward_request` does not catch it. */
  predicate AcceptsBody(verb: string) {
    verb == "POST" || verb == "PUT"
  }

  /** The body of a backend response as the gateway reads it: `response.text` empty, valid
      JSON, or text `response.json()` cannot decode. */
  datatype BackendBody = NoContent | JsonText(value: Json) | NotJson

  /** What the single backend call produced: a response, or one of the transport faults the
      gateway tells apart (`httpx.ConnectError`, `httpx.TimeoutException`, any other
      `httpx.RequestError`). */
  datatype BackendOutcome =
    | Responded(status: int, body: BackendBody)
    | ConnectFailure
    | Timeout
    | OtherRequestError

  /** The request actually sent to a backend. */
  datatype Outbound = Outbound(verb: string, url: string, json: Option<Json>)

  /** One gateway call: the backend request it issued, if any, and its result. */
  datatype Exchange = Exchange(sent: Option<Outbound>, result: GatewayResult)

  /** `response.json() if response.text else None`, for a body that decodes. `None` (an empty
      body) and `Some(JNull)` (a body that is literally `null`) are the same Python `None` and
      are both sent to the client as `null`; the model keeps them apart only to say where the
      value came from. */
  function BodyValue(body: BackendBody): Option<Json>
    requires !body.NotJson?
  {
    if body.NoContent? then None else Some(body.value)
  }

  /** Sorting a backend outcome into a gateway result. */
  function Classify(baseUrl: string, path: string, backend: BackendOutcome): (r: GatewayResult)
    // a pass-through keeps the backend's status, and never a 404, a 422 or a 5xx
    ensures r.Ok? ==> backend.Responded? && r.status == backend.status
    ensures r.Ok? ==> r.status != 404 && r.status != 422 && r.status < 500
    // every envelope carries the status its code stands for
    ensures r.Err? ==> WellFormed(r.error)
    // a gateway-side 5xx is always one of the gateway statuses
    ensures r.Err? && r.error.status >= 500 ==> r.error.status in {502, 503, 504}
    // only an undecodable body that the gateway tries to read escapes unhandled
    ensures r.Unhandled? <==> backend.Responded? && backend.body.NotJson? && backend.status != 404 && backend.status < 500
    // transport faults are never passed through
    ensures !backend.Responded? ==> r.Err? && r.error.status in {503, 504}
  {
    match backend
    case Responded(status, body) =>
      if status == 404 then
        Err(Envelope(ResourceNotFound, 404, RequestedPath(path)))
      else if status == 422 then
        if body.NotJson? then Unhandled
        else Err(Envelope(ValidationError, 422, ValidationDetails(BodyValue(body))))
      else if status >= 500 then
        Err(Envelope(ServiceError, 502, NoDetail))
      else if body.NotJson? then Unhandled
      else Ok(status, BodyValue(body))
    case ConnectFailure =>
      Err(Envelope(ServiceUnavailable, 503, ServiceUrl(baseUrl)))
    case Timeout =>
      Err(Envelope(GatewayTimeout, 504, NoDetail))
    case OtherRequestError =>
      Err(Envelope(RequestFailed, 503, NoDetail))
  }

  /** `forward_request(service, path, method, json=...)`, with `backend` standing for what the
      backend call would produce if it were made. */
  function Forward(reg: Registry, service: string, path: string, verb: string, json: Option<Json>, backend: BackendOutcome): (x: Exchange)
    // an unknown service is rejected first, whatever the path, method or backend
    ensures service !in ServiceNames(reg) ==>
      x == Exchange(None, Err(Envelope(ServiceNotFound, 404, AvailableServices(ServiceNames(reg)))))
    // a known service with any other method is rejected without a backend call
    ensures service in ServiceNames(reg) && !SupportedMethod(verb) ==>
      x == Exchange(None, Err(Envelope(MethodNotAllowed, 405, NoDetail)))
    // a body given to GET or DELETE makes the client call itself fail, with nothing sent
    ensures service in ServiceNames(reg) && SupportedMethod(verb) && json.Some? && !AcceptsBody(verb) ==>
      x == Exchange(None, Unhandled)
    // otherwise the backend is called exactly when both checks pass, at base URL + path
    ensures x.sent.Some? <==>
      service in ServiceNames(reg) && SupportedMethod(verb) && (json.Some? ==> AcceptsBody(verb))
    ensures x.sent.Some? ==>
      && Lookup(reg, service).Some?
      && x.sent.value == Outbound(verb, Lookup(reg, service).value + path, json)
      && x.result == Classify(Lookup(reg, service).value, path, backend)
    ensures x.result.Err? ==> WellFormed(x.result.error)
  {
    match Lookup(reg, service)
    case None =>
      Exchange(None, Err(Envelope(ServiceNotFound, 404, AvailableServices(ServiceNames(reg)))))
    case Some(base) =>
      if !SupportedMethod(verb) then Exchange(None, Err(Envelope(MethodNotAllowed, 405, NoDetail)))
      else if json.Some? && !AcceptsBody(verb) then Exchange(None, Unhandled)
      else Exchange(Some(Outbound(verb, base + path, json)), Classify(base, path, backend))
  }

  /** Each gateway result kind arises from exactly one kind of backend outcome. */
  lemma ClassifyKinds(baseUrl: string, path: string, backend: BackendOutcome)
    ensures Classify(baseUrl, path, backend) == Err(Envelope(ResourceNotFound, 404, RequestedPath(path)))
      <==> backend.Responded? && backend.status == 404
    ensures var r := Classify(baseUrl, path, backend);
      r.Err? && r.error.code == ValidationError <==> backend.Responded? && backend.status == 422 && !backend.body.NotJson?
    ensures Classify(baseUrl, path, backend) == Err(Envelope(ValidationError, 422, ValidationDetails(None)))
      <==> backend == Responded(422, NoContent)
    ensures forall j :: (Classify(baseUrl, path, backend) == Err(Envelope(ValidationError, 422, ValidationDetails(Some(j))))
      <==> backend == Responded(422, JsonText(j)))
    ensures Classify(baseUrl, path, backend) == Err(Envelope(ServiceError, 502, NoDetail))
      <==> backend.Responded? && backend.status >= 500
    ensures var r := Classify(baseUrl, path, backend);
      r.Ok? <==> backend.Responded? && backend.status != 404 && backend.status != 422 && backend.status < 500 && !backend.body.NotJson?
    ensures var r := Classify(baseUrl, path, backend);
      r.Ok? ==> (backend.body.NoContent? ==> r.body == None) && (backend.body.JsonText? ==> r.body == Some(backend.body.value))
    ensures Classify(baseUrl, path, backend) == Err(Envelope(ServiceUnavailable, 503, ServiceUrl(baseUrl)))
      <==> backend.ConnectFailure?
    ensures Classify(baseUrl, path, backend) == Err(Envelope(GatewayTimeout, 504, NoDetail)) <==> backend.Timeout?
    ensures Classify(baseUrl, path, backend) == Err(Envelope(RequestFailed, 503, NoDetail)) <==> backend.OtherRequestError?
  {
  }

  /** The two rejections before the backend call do not depend on what the backend would do. */
  lemma RejectionIgnoresBackend(reg: Registry, service: string, path: string, verb: string, json: Option<Json>, b1: BackendOutcome, b2: BackendOutcome)
    requires !(service in ServiceNames(reg) && SupportedMethod(verb))
    ensures Forward(reg, service, path, verb, json, b1) == Forward(reg, service, path, verb, json, b2)
    ensures Forward(reg, service, path, verb, json, b1).sent == None
  {
  }

  /** Whatever the request and the backend do, the gateway never answers with a 5xx other than
      502, 503 or 504, and a pass-through never carries a 5xx. */
  lemma GatewayServerErrors(reg: Registry, service: string, path: string, verb: string, json: Option<Json>, backend: BackendOutcome)
    ensures var r := Forward(reg, service, path, verb, json, backend).result;
      (r.Ok? ==> r.status < 500) && (r.Err? && r.error.status >= 500 ==> r.error.status in {502, 503, 504})
  {
  }

  /** The registry as configured: two services, in this order, at these addresses. */
  lemma ConfiguredServices()
    ensures ServiceNames(Services) == ["student", "course"]
    ensures Lookup(Services, "student") == Some("http://localhost:8001")
    ensures Lookup(Services, "course") == Some("http://localhost:8002")
  {
  }
}
