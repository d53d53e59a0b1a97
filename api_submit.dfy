/** The relay function at api/submit.js: it answers CORS preflights,
    refuses methods other than POST, and forwards the body of a POST to the
    recording service, answering with the service's reply wrapped in
    `{ok: true, result}`. `JSON.parse`, `JSON.stringify` and the outgoing
    `fetch` are parameters. */
module ApiSubmit {

  import opened Wrappers
  import opened JsonValue
  import opened Http

  const AllowOrigin := "*"
  const AllowMethods := "POST, OPTIONS"
  const AllowHeaders := "Content-Type"

  /** The three CORS headers, set first on every response. */
  const Cors: seq<Call> := [
    HeaderSet("Access-Control-Allow-Origin", AllowOrigin),
    HeaderSet("Access-Control-Allow-Methods", AllowMethods),
    HeaderSet("Access-Control-Allow-Headers", AllowHeaders)]

  /** `try { JSON.parse(text) } catch { text }`: the parsed value, or the
      text itself as a string. */
  function ParseOrRaw(text: string, parse: string -> Option<Json>): (r: Json)
    ensures parse(text).Some? ==> r == parse(text).value
    ensures parse(text).None? ==> r == JStr(text)
  {
    match parse(text)
    case Some(v) => v
    case None => JStr(text)
  }

  /** What `getRawBody` resolves with once the stream has ended: `{}` for
      no data, otherwise the data parsed or, failing that, raw. */
  function EndValue(data: string, parse: string -> Option<Json>): (r: Json)
    ensures data == "" ==> r == JObj([])
    ensures data != "" && parse(data).Some? ==> r == parse(data).value
    ensures data != "" && parse(data).None? ==> r == JStr(data)
  {
    if data == "" then JObj([]) else ParseOrRaw(data, parse)
  }

  /** The state of a promise. */
  datatype Settled = Pending | Resolved(value: Json) | Rejected(details: string)

  /** The promise of `getRawBody` fed the remaining `events` after `data`
      has been accumulated: the first `end` resolves, the first `error`
      rejects, and a stream that does neither leaves it pending. */
  function ReadStream(events: seq<StreamEvent>, data: string, parse: string -> Option<Json>): Settled
    decreases |events|
  {
    if events == [] then Pending
    else match events[0]
      case Data(chunk) => ReadStream(events[1..], data + chunk, parse)
      case EndOfStream => Resolved(EndValue(data, parse))
      case StreamError(message) => Rejected(message)
  }

  /** `getRawBody(req)`: accumulate `data += chunk` over the stream's
      events and settle on the first `end` or `error`. */
  method GetRawBody(events: seq<StreamEvent>, parse: string -> Option<Json>) returns (r: Settled)
    ensures r == ReadStream(events, "", parse)
  {
    var data := "";
    var i := 0;
    while i < |events|
      invariant 0 <= i <= |events|
      invariant ReadStream(events[i..], data, parse) == ReadStream(events, "", parse)
    {
      assert events[i..][1..] == events[i + 1..];
      match events[i] {
        case Data(chunk) =>
          data := data + chunk;
        case EndOfStream =>
          return Resolved(EndValue(data, parse));
        case StreamError(message) =>
          return Rejected(message);
      }
      i := i + 1;
    }
    return Pending;
  }

  /** The concatenation of the chunks. */
  function Concat(chunks: seq<string>): string
  {
    if chunks == [] then "" else chunks[0] + Concat(chunks[1..])
  }

  function DataEvents(chunks: seq<string>): (events: seq<StreamEvent>)
    ensures |events| == |chunks|
    ensures forall k :: 0 <= k < |chunks| ==> events[k] == Data(chunks[k])
  {
    if chunks == [] then [] else [Data(chunks[0])] + DataEvents(chunks[1..])
  }

  /** Chunks followed by `end` resolve with `{}` when together they are
      empty, with the parsed JSON when they parse, and with the raw text
      otherwise; a parse failure never rejects. Later events are ignored. */
  lemma {:induction false} ChunksThenEnd(chunks: seq<string>, data: string,
                                         rest: seq<StreamEvent>, parse: string -> Option<Json>)
    ensures var all := data + Concat(chunks);
      ReadStream(DataEvents(chunks) + [EndOfStream] + rest, data, parse) ==
        Resolved(if all == "" then JObj([])
                 else if parse(all).Some? then parse(all).value
                 else JStr(all))
  {
    var events := DataEvents(chunks) + [EndOfStream] + rest;
    if chunks != [] {
      assert events[0] == Data(chunks[0]);
      assert events[1..] == DataEvents(chunks[1..]) + [EndOfStream] + rest;
      ChunksThenEnd(chunks[1..], data + chunks[0], rest, parse);
      assert data + chunks[0] + Concat(chunks[1..]) == data + Concat(chunks);
    } else {
      assert events[0] == EndOfStream;
      assert data + Concat(chunks) == data;
    }
  }

  /** Reading the body stream rejects exactly when an `error` event arrives
      before any `end`; the body's contents never cause a rejection. */
  lemma {:induction false} RejectsOnlyOnStreamError(events: seq<StreamEvent>, data: string,
                                                    parse: string -> Option<Json>)
    ensures ReadStream(events, data, parse).Rejected? <==>
              exists i :: 0 <= i < |events| && events[i].StreamError?
                && forall j :: 0 <= j < i ==> events[j].Data?
    decreases |events|
  {
    if events != [] {
      match events[0]
      case Data(chunk) =>
        RejectsOnlyOnStreamError(events[1..], data + chunk, parse);
        if exists i :: 0 <= i < |events| && events[i].StreamError?
             && forall j :: 0 <= j < i ==> events[j].Data? {
          var i :| 0 <= i < |events| && events[i].StreamError?
             && forall j :: 0 <= j < i ==> events[j].Data?;
          assert events[1..][i - 1].StreamError?;
          assert forall j :: 0 <= j < i - 1 ==> events[1..][j].Data?;
        }
        if exists i :: 0 <= i < |events[1..]| && events[1..][i].StreamError?
             && forall j :: 0 <= j < i ==> events[1..][j].Data? {
          var i :| 0 <= i < |events[1..]| && events[1..][i].StreamError?
             && forall j :: 0 <= j < i ==> events[1..][j].Data?;
          assert events[i + 1].StreamError?;
          assert forall j :: 0 <= j < i + 1 ==> events[j].Data? by {
            forall j | 0 <= j < i + 1
              ensures events[j].Data?
            {
              if j > 0 {
                assert events[j] == events[1..][j - 1];
              }
            }
          }
        }
      case EndOfStream =>
      case StreamError(_) =>
        assert events[0].StreamError?;
    }
  }

  /** JavaScript truthiness of a parsed value. */
  predicate Truthy(v: Json)
  {
    match v
    case JNull => false
    case JBool(b) => b
    case JNum(x) => x != 0.0
    case JStr(s) => s != ""
    case _ => true
  }

  /** `Object.keys(v).length`: one key per member, element or character;
      numbers, booleans and null have none. */
  function OwnKeyCount(v: Json): nat
  {
    match v
    case JObj(members) => |members|
    case JArr(items) => |items|
    case JStr(s) => |s|
    case _ => 0
  }

  /** `req.body && Object.keys(req.body).length`: a truthy parsed body with
      at least one own key, so a non-empty object, array or string. */
  predicate HasOwnKeys(body: Option<Json>)
    ensures HasOwnKeys(body) <==> body.Some? && Truthy(body.value) && OwnKeyCount(body.value) > 0
  {
    match body
    case Some(JObj(members)) => |members| > 0
    case Some(JArr(items)) => |items| > 0
    case Some(JStr(s)) => |s| > 0
    case _ => false
  }

  /** The body to forward: the platform's parsed body when it has keys,
      else whatever `getRawBody` settles with. */
  function BodyChoice(req: Request, parse: string -> Option<Json>): Settled
  {
    if HasOwnKeys(req.body) then Resolved(req.body.value) else ReadStream(req.stream, "", parse)
  }

  /** The relay's own status for the service's status. */
  function ReplyStatus(status: int): (r: int)
    ensures r == 200 <==> 200 <= status < 400
    ensures r == 502 <==> !(200 <= status < 400)
  {
    if status >= 200 && status < 400 then 200 else 502
  }

  /** The 500 body for anything thrown inside the `try`. */
  function ProxyFailed(details: string): Json
  {
    JObj([("error", JStr("Proxy failed")), ("details", JStr(details))])
  }

  /** The handler's behaviour for one request. */
  function Reply(req: Request, parse: string -> Option<Json>, stringify: Json -> string,
                 upstream: string -> Upstream): Exchange
  {
    if req.verb == "OPTIONS" then Exchange(Cors + [StatusSet(204), Ended], None)
    else if req.verb != "POST" then
      Exchange(Cors + [StatusSet(405), JsonSent(ErrorBody("Method not allowed"))], None)
    else match BodyChoice(req, parse)
      case Pending => Exchange(Cors, None)
      case Rejected(details) => Exchange(Cors + [StatusSet(500), JsonSent(ProxyFailed(details))], None)
      case Resolved(body) =>
        var sent := stringify(body);
        match upstream(sent)
        case Failed(details) =>
          Exchange(Cors + [StatusSet(500), JsonSent(ProxyFailed(details))], Some(sent))
        case Replied(status, text) =>
          Exchange(Cors + [StatusSet(ReplyStatus(status)),
                           JsonSent(JObj([("ok", JBool(true)), ("result", ParseOrRaw(text, parse))]))],
                   Some(sent))
  }

  /** The exported handler, run against `res`. */
  method Handle(req: Request, res: ServerResponse, parse: string -> Option<Json>,
                stringify: Json -> string, upstream: string -> Upstream)
    returns (forwarded: Option<string>)
    modifies res
    ensures res.calls == old(res.calls) + Reply(req, parse, stringify, upstream).calls
    ensures forwarded == Reply(req, parse, stringify, upstream).forwarded
  {
    res.SetHeader("Access-Control-Allow-Origin", AllowOrigin);
    res.SetHeader("Access-Control-Allow-Methods", AllowMethods);
    res.SetHeader("Access-Control-Allow-Headers", AllowHeaders);
    if req.verb == "OPTIONS" {
      res.Status(204);
      res.End();
      return None;
    }
    if req.verb != "POST" {
      res.Status(405);
      res.SendJson(ErrorBody("Method not allowed"));
      return None;
    }
    var body: Settled;
    if HasOwnKeys(req.body) {
      body := Resolved(req.body.value);
    } else {
      body := GetRawBody(req.stream, parse);
    }
    match body
    case Pending =>
      return None;
    case Rejected(details) =>
      res.Status(500);
      res.SendJson(ProxyFailed(details));
      return None;
    case Resolved(value) =>
      var sent := stringify(value);
      forwarded := Some(sent);
      match upstream(sent)
      case Failed(details) =>
        res.Status(500);
        res.SendJson(ProxyFailed(details));
      case Replied(status, text) =>
        var parsed := ParseOrRaw(text, parse);
        res.Status(if status >= 200 && status < 400 then 200 else 502);
        res.SendJson(JObj([("ok", JBool(true)), ("result", parsed)]));
  }

  /** Every response starts with the three CORS headers, whatever the
      method and whatever happens afterwards. */
  lemma CorsFirst(req: Request, parse: string -> Option<Json>, stringify: Json -> string,
                  upstream: string -> Upstream)
    ensures var calls := Reply(req, parse, stringify, upstream).calls;
      |calls| >= |Cors| && calls[..|Cors|] == Cors
  {
  }

  /** A preflight gets 204 with no body; any other method but POST gets 405
      with the error body; neither calls the service. */
  lemma MethodDispatch(req: Request, parse: string -> Option<Json>, stringify: Json -> string,
                       upstream: string -> Upstream)
    requires req.verb != "POST"
    ensures var x := Reply(req, parse, stringify, upstream);
      && x.forwarded == None
      && Finished(x.calls)
      && StatusSeen(x.calls) == (if req.verb == "OPTIONS" then 204 else 405)
      && (req.verb == "OPTIONS" ==> x.calls == Cors + [StatusSet(204), Ended])
      && (req.verb != "OPTIONS" ==>
            x.calls == Cors + [StatusSet(405), JsonSent(ErrorBody("Method not allowed"))])
  {
    var x := Reply(req, parse, stringify, upstream);
    if req.verb == "OPTIONS" {
      StatusThenBody(Cors, 204, Ended);
      assert x.calls[|x.calls| - 1].Ended?;
    } else {
      StatusThenBody(Cors, 405, JsonSent(ErrorBody("Method not allowed")));
      assert x.calls[|x.calls| - 1].JsonSent?;
    }
  }

  /** A POST whose service call returned status `s` is answered 200 iff
      `200 <= s < 400` and 502 otherwise, in both cases with
      `{ok: true, result}` where `result` is the reply parsed, or its raw
      text when it does not parse; the body forwarded is the chosen body
      serialised. */
  lemma UpstreamReply(req: Request, parse: string -> Option<Json>, stringify: Json -> string,
                      upstream: string -> Upstream, body: Json, s: int, text: string)
    requires req.verb == "POST" && BodyChoice(req, parse) == Resolved(body)
    requires upstream(stringify(body)) == Replied(s, text)
    ensures var x := Reply(req, parse, stringify, upstream);
      && x.forwarded == Some(stringify(body))
      && Finished(x.calls)
      && (StatusSeen(x.calls) == 200 <==> 200 <= s < 400)
      && (StatusSeen(x.calls) == 502 <==> !(200 <= s < 400))
      && x.calls[|x.calls| - 1] ==
           JsonSent(JObj([("ok", JBool(true)),
                          ("result", if parse(text).Some? then parse(text).value else JStr(text))]))
  {
    var x := Reply(req, parse, stringify, upstream);
    var last := x.calls[|x.calls| - 1];
    StatusThenBody(Cors, ReplyStatus(s), last);
  }

  /** Anything thrown — the body stream failing or the service call
      failing — is answered 500 with `{error: 'Proxy failed', details}`. */
  lemma ThrownIs500(req: Request, parse: string -> Option<Json>, stringify: Json -> string,
                    upstream: string -> Upstream, details: string)
    requires req.verb == "POST"
    requires || BodyChoice(req, parse) == Rejected(details)
             || (BodyChoice(req, parse).Resolved?
                 && upstream(stringify(BodyChoice(req, parse).value)) == Failed(details))
    ensures var x := Reply(req, parse, stringify, upstream);
      && StatusSeen(x.calls) == 500
      && x.calls[|x.calls| - 1] == JsonSent(ProxyFailed(details))
  {
    StatusThenBody(Cors, 500, JsonSent(ProxyFailed(details)));
  }

  /** The body forwarded is the platform's parsed body when it has own
      keys; otherwise the raw stream is read, and a stream that never ends
      leaves the request unanswered after the headers. */
  lemma ForwardedBody(req: Request, parse: string -> Option<Json>, stringify: Json -> string,
                      upstream: string -> Upstream)
    requires req.verb == "POST"
    ensures HasOwnKeys(req.body) ==>
              Reply(req, parse, stringify, upstream).forwarded == Some(stringify(req.body.value))
    ensures !HasOwnKeys(req.body) && ReadStream(req.stream, "", parse) == Pending ==>
              Reply(req, parse, stringify, upstream) == Exchange(Cors, None)
    ensures !HasOwnKeys(req.body) && ReadStream(req.stream, "", parse).Resolved? ==>
              Reply(req, parse, stringify, upstream).forwarded ==
                Some(stringify(ReadStream(req.stream, "", parse).value))
  {
  }
}
