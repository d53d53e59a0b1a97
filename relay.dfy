/** The submission path end to end: the form posts, a relay answers, and
    the form decides between thanks and "try again" on `res.ok`. The two
    relays disagree on which service statuses reach the user as success. */
module Relay {

  import opened Wrappers
  import opened JsonValue
  import opened Http
  import Rsvp
  import ApiSubmit
  import SrcApiSubmit

  /** Through api/submit.js, a form awaiting a reply thanks the user iff
      the service answered with a status in 200..399: a 3xx from the
      service, which `res.ok` would reject, is relayed as 200 and shown as
      success, and everything else is relayed as 502 and shown as failure. */
  lemma ApiRelaySuccessRange(f: Rsvp.Form, req: Request, parse: string -> Option<Json>,
                             stringify: Json -> string, upstream: string -> Upstream,
                             body: Json, s: int, text: string)
    requires req.verb == "POST" && ApiSubmit.BodyChoice(req, parse) == ApiSubmit.Resolved(body)
    requires upstream(stringify(body)) == Replied(s, text)
    ensures var status := StatusSeen(ApiSubmit.Reply(req, parse, stringify, upstream).calls);
      Rsvp.SubmitEnd(f, Rsvp.Responded(status)).message == Some(Rsvp.ThankYou) <==> 200 <= s < 400
  {
    ApiSubmit.UpstreamReply(req, parse, stringify, upstream, body, s, text);
  }

  /** The cross-file discrepancy made concrete: an upstream 302 counts as a
      successful RSVP through api/submit.js. */
  lemma RedirectShownAsSuccess(f: Rsvp.Form, req: Request, parse: string -> Option<Json>,
                               stringify: Json -> string, upstream: string -> Upstream,
                               body: Json, text: string)
    requires req.verb == "POST" && ApiSubmit.BodyChoice(req, parse) == ApiSubmit.Resolved(body)
    requires upstream(stringify(body)) == Replied(302, text)
    ensures !Rsvp.IsOk(302)
    ensures var status := StatusSeen(ApiSubmit.Reply(req, parse, stringify, upstream).calls);
      Rsvp.IsOk(status) && Rsvp.SubmitEnd(f, Rsvp.Responded(status)).entry == Rsvp.Cleared
  {
    ApiSubmit.UpstreamReply(req, parse, stringify, upstream, body, 302, text);
  }

  /** Through src/api/submit.js the service's status reaches the form
      unchanged, so the user is thanked iff the service answered 2xx. */
  lemma SrcRelaySuccessRange(f: Rsvp.Form, req: Request, stringify: Json -> string,
                             upstream: string -> Upstream, s: int, text: string)
    requires req.verb == "POST"
    requires upstream(SrcApiSubmit.Forward(req.body, stringify)) == Replied(s, text)
    ensures var status := StatusSeen(SrcApiSubmit.Reply(req, stringify, upstream).calls);
      Rsvp.SubmitEnd(f, Rsvp.Responded(status)).message == Some(Rsvp.ThankYou) <==> 200 <= s <= 299
  {
    SrcApiSubmit.Passthrough(req, stringify, upstream, s, text);
  }

  /** A relay's own failure (500) is never shown as success, and the
      entry is kept for a retry. */
  lemma RelayFailureKeepsEntry(f: Rsvp.Form, req: Request, stringify: Json -> string,
                               upstream: string -> Upstream)
    requires req.verb == "POST"
    requires upstream(SrcApiSubmit.Forward(req.body, stringify)).Failed?
    ensures var status := StatusSeen(SrcApiSubmit.Reply(req, stringify, upstream).calls);
      && Rsvp.SubmitEnd(f, Rsvp.Responded(status)).message == Some(Rsvp.TryAgain)
      && Rsvp.SubmitEnd(f, Rsvp.Responded(status)).entry == f.entry
  {
    SrcApiSubmit.FailureIs500(req, stringify, upstream);
  }
}
