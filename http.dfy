/** The request and response of a serverless HTTP function. The response
    object is modelled by the calls made on it, in order; what the client
    receives is read off that record. */
module Http {

  import opened Wrappers
  import opened JsonValue

  /** One event of the request body stream (`data`, `end`, `error`). */
  datatype StreamEvent = Data(chunk: string) | EndOfStream | StreamError(message: string)

  /** An incoming request: its method (`req.method`), the body the platform parsed for it
      (absent when it did not), and the events of its raw body stream. */
  datatype Request = Request(verb: string, body: Option<Json>, stream: seq<StreamEvent>)

  /** How the `fetch` to the recording service ended: an HTTP answer whose
      text was read, or a thrown error with its message. */
  datatype Upstream = Replied(status: int, text: string) | Failed(details: string)

  /** One call on the response object. */
  datatype Call =
    | HeaderSet(name: string, value: string)
    | StatusSet(code: int)
    | JsonSent(body: Json)
    | TextSent(text: string)
    | Ended

  /** What a handler invocation does: the calls it makes on `res`, and the
      body it forwarded to the service, if it called it. */
  datatype Exchange = Exchange(calls: seq<Call>, forwarded: Option<string>)

  /** `res` with its calls recorded in order. */
  class ServerResponse {
    var calls: seq<Call>

    constructor ()
      ensures calls == []
    {
      calls := [];
    }

    /** `res.setHeader(name, value)`. */
    method SetHeader(name: string, value: string)
      modifies this
      ensures calls == old(calls) + [HeaderSet(name, value)]
    {
      calls := calls + [HeaderSet(name, value)];
    }

    /** `res.status(code)`. */
    method Status(code: int)
      modifies this
      ensures calls == old(calls) + [StatusSet(code)]
    {
      calls := calls + [StatusSet(code)];
    }

    /** `res.json(body)`. */
    method SendJson(body: Json)
      modifies this
      ensures calls == old(calls) + [JsonSent(body)]
    {
      calls := calls + [JsonSent(body)];
    }

    /** `res.send(text)`. */
    method Send(text: string)
      modifies this
      ensures calls == old(calls) + [TextSent(text)]
    {
      calls := calls + [TextSent(text)];
    }

    /** `res.end()`. */
    method End()
      modifies this
      ensures calls == old(calls) + [Ended]
    {
      calls := calls + [Ended];
    }
  }

  /** The status line the client receives: the last status set, or Node's
      default 200 when none was. */
  function StatusSeen(calls: seq<Call>): int
  {
    if calls == [] then 200
    else if calls[|calls| - 1].StatusSet? then calls[|calls| - 1].code
    else StatusSeen(calls[..|calls| - 1])
  }

  /** Whether the response was completed, so that the client's `fetch`
      settles. */
  predicate Finished(calls: seq<Call>)
  {
    exists k :: 0 <= k < |calls| && (calls[k].JsonSent? || calls[k].TextSent? || calls[k].Ended?)
  }

  /** The last status set before a completing call is what the client sees. */
  lemma StatusThenBody(prefix: seq<Call>, code: int, last: Call)
    requires !last.StatusSet?
    ensures StatusSeen(prefix + [StatusSet(code), last]) == code
  {
    var calls := prefix + [StatusSet(code), last];
    assert calls[..|calls| - 1] == prefix + [StatusSet(code)];
  }
}
