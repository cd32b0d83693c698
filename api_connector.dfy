/** The generic HTTP helper (src/services/apiConnector.js): default arguments, the header
    merge, the success projection and the normalisation of failures into a thrown value. */
module ApiConnector {
  import opened JsValue
  import opened Http
  import opened Browser

  const JsonContentType: Value := Str("application/json")
  const EmptyObject: Value := Obj(map[])

  /** `{...v}` inside an object literal: the own fields of an object; null and undefined
      contribute nothing. */
  function Spread(v: Value): map<string, Value>
  {
    if v.Obj? then v.fields else map[]
  }

  /** `{"Content-Type": "application/json", ...headers}`: the caller's headers win key by key,
      and JSON is the content type whenever the caller names none. */
  function MergeHeaders(headers: Value): (h: map<string, Value>)
    ensures h.Keys == Spread(headers).Keys + {"Content-Type"}
    ensures forall k :: k in Spread(headers) ==> h[k] == Spread(headers)[k]
    ensures "Content-Type" !in Spread(headers) ==> h["Content-Type"] == JsonContentType
  {
    map["Content-Type" := JsonContentType] + Spread(headers)
  }

  /** The axios configuration built from `apiConnector(method, url, bodyData = {}, headers = {},
      params = {})`: only an omitted (undefined) argument takes its default, an explicit null
      is forwarded, and credentials are always included. */
  function BuildRequest(verb: HttpMethod, url: string, bodyData: Value, headers: Value, params: Value): (r: Request)
    ensures r.verb == verb && r.url == url && r.withCredentials
    ensures bodyData != Undefined ==> r.data == bodyData
    ensures bodyData == Undefined ==> r.data == EmptyObject
    ensures params != Undefined ==> r.params == params
    ensures params == Undefined ==> r.params == EmptyObject
    ensures r.headers == MergeHeaders(Default(headers, EmptyObject))
  {
    Request(verb, url, Default(bodyData, EmptyObject), MergeHeaders(Default(headers, EmptyObject)),
            Default(params, EmptyObject), true)
  }

  /** `error?.response?.data`: the body of an error response, undefined when there was none. */
  function ResponseData(error: Value): Value
  {
    Get(Get(error, "response"), "data")
  }

  /** How `apiConnector`'s promise settles: with `response.data` on success; on failure it
      throws the error response's body when that is truthy and the raw error otherwise. */
  function Settle(o: AxiosOutcome): (c: Completion)
    ensures o.Responded? ==> c == Resolved(Get(o.response, "data"))
    ensures o.Failed? ==> c.Rejected?
    ensures o.Failed? && Truthy(ResponseData(o.error)) ==> c.thrown == ResponseData(o.error)
    ensures o.Failed? && !Truthy(ResponseData(o.error)) ==> c.thrown == o.error
    ensures o.Failed? ==> Truthy(c.thrown)
  {
    match o
    case Responded(response) => Resolved(Get(response, "data"))
    case Failed(error) => Rejected(Or(ResponseData(error), error))
  }

  /** `error.response?.data?.message || fallback`: the message the operations read from a
      value they caught. */
  function CaughtMessage(caught: Value, fallback: string): (m: Value)
    ensures Truthy(Get(ResponseData(caught), "message")) ==> m == Get(ResponseData(caught), "message")
    ensures !Truthy(Get(ResponseData(caught), "message")) ==> m == Str(fallback)
  {
    Or(Get(ResponseData(caught), "message"), Str(fallback))
  }

  /** The operations look for the message one level deeper than `apiConnector` leaves it: a
      caught value shows `response.data.message` of the backend's BODY, so an error body
      without a `response` field of its own (such as `{message: "Unauthorized"}`) always
      yields the fallback text, and so does a failure that carries no truthy body. */
  lemma BackendMessageLost(error: Value, fallback: string)
    requires error.Obj?
    ensures CaughtMessage(Settle(Failed(error)).thrown, fallback)
         == Or(Get(ResponseData(ResponseData(error)), "message"), Str(fallback))
    ensures "response" !in Spread(ResponseData(error))
         ==> CaughtMessage(Settle(Failed(error)).thrown, fallback) == Str(fallback)
  {
    var body := ResponseData(error);
    if !Truthy(body) {
      assert !body.Obj?;
      assert ResponseData(body) == Undefined;
    }
  }

  /** A 401 whose body reads `{message: "Unauthorized"}` is shown with the fallback text. */
  lemma UnauthorizedShowsFallback(fallback: string)
    ensures var body := Obj(map["message" := Str("Unauthorized")]);
            var error := Obj(map["response" := Obj(map["status" := Num(401), "data" := body])]);
            Settle(Failed(error)) == Rejected(body)
            && CaughtMessage(Settle(Failed(error)).thrown, fallback) == Str(fallback)
  {
    var body := Obj(map["message" := Str("Unauthorized")]);
    BackendMessageLost(Obj(map["response" := Obj(map["status" := Num(401), "data" := body])]), fallback);
  }

  /** `apiConnector(method, url, bodyData, headers, params)`: sends the request once and
      settles as `Settle` says; storage is not touched. */
  method Call(env: Env, verb: HttpMethod, url: string, bodyData: Value, headers: Value, params: Value,
              outcome: AxiosOutcome) returns (c: Completion)
    modifies env
    ensures env.storage == old(env.storage)
    ensures env.effects == old(env.effects) + [Sent(BuildRequest(verb, url, bodyData, headers, params))]
    ensures c == Settle(outcome)
  {
    env.Send(BuildRequest(verb, url, bodyData, headers, params));
    c := Settle(outcome);
  }
}
