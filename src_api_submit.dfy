/** The relay function at src/api/submit.js: the same dispatch as the other
    relay with wider CORS headers, but a POST is forwarded as
    `JSON.stringify(req.body)` with no raw-stream fallback, and the
    service's status and text are passed back unchanged. */
module SrcApiSubmit {

  import opened Wrappers
  import opened JsonValue
  import opened Http

  const AllowOrigin := "*"
  const AllowMethods := "GET,POST,OPTIONS"
  const AllowHeaders := "Content-Type,Authorization"

  const Cors: seq<Call> := [
    HeaderSet("Access-Control-Allow-Origin", AllowOrigin),
    HeaderSet("Access-Control-Allow-Methods", AllowMethods),
    HeaderSet("Access-Control-Allow-Headers", AllowHeaders)]

  /** The request body as sent on: `JSON.stringify(req.body)`; an absent
      body stringifies to `undefined`, which `fetch` sends as an empty
      body. */
  function Forward(body: Option<Json>, stringify: Json -> string): (r: string)
    ensures body.None? ==> r == ""
    ensures body.Some? ==> r == stringify(body.value)
  {
    match body
    case Some(v) => stringify(v)
    case None => ""
  }

  /** The handler's behaviour for one request. */
  function Reply(req: Request, stringify: Json -> string, upstream: string -> Upstream): Exchange
  {
    if req.verb == "OPTIONS" then Exchange(Cors + [StatusSet(204), Ended], None)
    else if req.verb != "POST" then
      Exchange(Cors + [StatusSet(405), JsonSent(ErrorBody("Method not allowed"))], None)
    else
      var sent := Forward(req.body, stringify);
      match upstream(sent)
      case Failed(_) => Exchange(Cors + [StatusSet(500), JsonSent(ErrorBody("Server error"))], Some(sent))
      case Replied(status, text) => Exchange(Cors + [StatusSet(status), TextSent(text)], Some(sent))
  }

  /** The exported handler, run against `res`. */
  method Handle(req: Request, res: ServerResponse, stringify: Json -> string,
                upstream: string -> Upstream)
    returns (forwarded: Option<string>)
    modifies res
    ensures res.calls == old(res.calls) + Reply(req, stringify, upstream).calls
    ensures forwarded == Reply(req, stringify, upstream).forwarded
  {
    res.SetHeader("Access-Control-Allow-Origin", AllowOrigin);
    res.SetHeader("Access-Control-Allow-Methods", AllowMethods);
    res.SetHeader("Access-Control-Allow-Headers", AllowHeaders);
    if req.verb == "OPTIONS" {
      res.Status(204);
      res.End();
      return None;
    }
    if req.verb != "POST" {
      res.Status(405);
      res.SendJson(ErrorBody("Method not allowed"));
      return None;
    }
    var sent := Forward(req.body, stringify);
    forwarded := Some(sent);
    match upstream(sent)
    case Replied(status, text) =>
      res.Status(status);
      res.Send(text);
    case Failed(_) =>
      res.Status(500);
      res.SendJson(ErrorBody("Server error"));
  }

  /** Every response starts with the three CORS headers. */
  lemma CorsFirst(req: Request, stringify: Json -> string, upstream: string -> Upstream)
    ensures var calls := Reply(req, stringify, upstream).calls;
      |calls| >= |Cors| && calls[..|Cors|] == Cors
  {
  }

  /** A preflight gets 204 with no body. Every other method but POST gets
      405, GET included although the Allow-Methods header lists it; neither
      calls the service. */
  lemma MethodDispatch(req: Request, stringify: Json -> string, upstream: string -> Upstream)
    requires req.verb != "POST"
    ensures "GET" <= AllowMethods
    ensures var x := Reply(req, stringify, upstream);
      && x.forwarded == None
      && Finished(x.calls)
      && StatusSeen(x.calls) == (if req.verb == "OPTIONS" then 204 else 405)
      && (req.verb == "OPTIONS" ==> x.calls == Cors + [StatusSet(204), Ended])
  {
    var x := Reply(req, stringify, upstream);
    if req.verb == "OPTIONS" {
      StatusThenBody(Cors, 204, Ended);
      assert x.calls[|x.calls| - 1].Ended?;
    } else {
      StatusThenBody(Cors, 405, JsonSent(ErrorBody("Method not allowed")));
      assert x.calls[|x.calls| - 1].JsonSent?;
    }
  }

  /** A POST forwards `JSON.stringify(req.body)` and answers with exactly
      the service's status and its text, verbatim. */
  lemma Passthrough(req: Request, stringify: Json -> string, upstream: string -> Upstream,
                    s: int, text: string)
    requires req.verb == "POST"
    requires upstream(Forward(req.body, stringify)) == Replied(s, text)
    ensures var x := Reply(req, stringify, upstream);
      && x.forwarded == Some(Forward(req.body, stringify))
      && Finished(x.calls)
      && StatusSeen(x.calls) == s
      && x.calls[|x.calls| - 1] == TextSent(text)
  {
    StatusThenBody(Cors, s, TextSent(text));
  }

  /** A failed service call is answered 500 with `{error: 'Server error'}`. */
  lemma FailureIs500(req: Request, stringify: Json -> string, upstream: string -> Upstream)
    requires req.verb == "POST"
    requires upstream(Forward(req.body, stringify)).Failed?
    ensures var x := Reply(req, stringify, upstream);
      && StatusSeen(x.calls) == 500
      && x.calls[|x.calls| - 1] == JsonSent(ErrorBody("Server error"))
  {
    StatusThenBody(Cors, 500, JsonSent(ErrorBody("Server error")));
  }
}
