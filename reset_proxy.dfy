/** The `DELETE /api/reset` proxy route (my-app/pages/api/reset/route.ts):
    forwards to the configured Python backend and chooses the reply's status
    and JSON body from what the backend did. The backend's behaviour is an
    input: what the one request the route sends came back with. */
module ResetProxy {

  datatype Option<T> = None | Some(value: T)

  /** The request the route sends upstream. */
  datatype UpstreamRequest = UpstreamRequest(httpMethod: string, url: string)

  /** What the upstream request produced: `fetch` threw, or a response came
      back whose body either parsed as JSON or made `response.json()` throw. */
  datatype Upstream<J> =
    | FetchThrew(reason: string)
    | Responded(status: int, body: ParsedBody<J>)

  datatype ParsedBody<J> = Parsed(json: J) | Unparsable(reason: string)

  /** The JSON body the route replies with. */
  datatype Body<J> =
    | Passthrough(json: J)
    | ErrorBody(error: string, details: Option<string>)

  datatype Reply<J> = Reply(status: int, body: Body<J>)

  /** What the route did: the upstream request it sent, if any, and its reply. */
  datatype Exchange<J> = Exchange(sent: Option<UpstreamRequest>, reply: Reply<J>)

  const NotConfigured := "Python backend URL is not configured."
  const CallFailed := "Error calling the Python backend."

  /** `response.ok` of the Fetch standard: a status in the range 200-299. */
  predicate Ok(status: int) {
    200 <= status <= 299
  }

  /** The route's decision. `backendUrl` is PYTHON_BACKEND_URL (None when
      unset); `upstream` is what the request it sends would come back with. */
  function Delete<J>(backendUrl: Option<string>, upstream: Upstream<J>): (x: Exchange<J>)
    // No (or an empty) URL: 500 with the configuration error and no upstream call.
    ensures (backendUrl == None || backendUrl == Some("")) <==>
            (x.sent == None && x == Exchange(None, Reply(500, ErrorBody(NotConfigured, None))))
    // Otherwise exactly one DELETE to the URL with "/reset" appended.
    ensures x.sent.Some? ==> x.sent == Some(UpstreamRequest("DELETE", backendUrl.value + "/reset"))
    // An ok upstream answer becomes 200, whatever 2xx code it had, with its body.
    ensures x.sent.Some? && upstream.Responded? && upstream.body.Parsed? && Ok(upstream.status) ==>
            x.reply == Reply(200, Passthrough(upstream.body.json))
    // Any other answer passes its status and body through.
    ensures x.sent.Some? && upstream.Responded? && upstream.body.Parsed? && !Ok(upstream.status) ==>
            x.reply == Reply(upstream.status, Passthrough(upstream.body.json))
    // A throw from fetch or from parsing the body becomes 500 with the details.
    ensures x.sent.Some? && upstream.FetchThrew? ==>
            x.reply == Reply(500, ErrorBody(CallFailed, Some(upstream.reason)))
    ensures x.sent.Some? && upstream.Responded? && upstream.body.Unparsable? ==>
            x.reply == Reply(500, ErrorBody(CallFailed, Some(upstream.body.reason)))
  {
    match backendUrl
    case None => Exchange(None, Reply(500, ErrorBody(NotConfigured, None)))
    case Some(base) =>
      if base == "" then Exchange(None, Reply(500, ErrorBody(NotConfigured, None)))
      else
        var sent := Some(UpstreamRequest("DELETE", base + "/reset"));
        match upstream
        case FetchThrew(reason) => Exchange(sent, Reply(500, ErrorBody(CallFailed, Some(reason))))
        case Responded(status, body) =>
          match body
          case Unparsable(reason) => Exchange(sent, Reply(500, ErrorBody(CallFailed, Some(reason))))
          case Parsed(json) =>
            if Ok(status) then Exchange(sent, Reply(200, Passthrough(json)))
            else Exchange(sent, Reply(status, Passthrough(json)))
  }

  /** The route never answers with a success code other than 200, and it
      forwards the backend's body exactly when that body parsed; every error
      reply it makes up itself is a 500. */
  lemma ReplyShape<J>(backendUrl: Option<string>, upstream: Upstream<J>)
    ensures var r := Delete(backendUrl, upstream).reply;
            && (Ok(r.status) ==> r.status == 200)
            && (r.body.Passthrough? <==>
                  (backendUrl.Some? && backendUrl.value != "" && upstream.Responded? && upstream.body.Parsed?))
            && (r.body.ErrorBody? ==> r.status == 500)
            && (r.body.Passthrough? ==> r.status == 200 || r.status == upstream.status)
  {
  }
}
