# Wedding invitation: countdown, gallery, RSVP and relay, in Dafny

This project models the logic of a single-page wedding invitation (a React
page plus two serverless relay functions). Four parts are modelled:

- **Countdown** (`countdown.dfy`). An interval callback splits the integer
  millisecond distance to the wedding into days, hours, minutes and
  seconds. Once the distance is zero or less it shows zeros and clears the
  interval for good. The page's state is the class `Countdown.Countdown`.
  Its behaviour is specified by the pure `Tick`/`Run`, and the lemmas are
  stated about those.
- **Gallery viewer** (`gallery.dfy`). A closed/open modal steps circularly
  through the page's four images. The keys Escape, ArrowLeft and ArrowRight
  close it, go back and go forward. Opening it saves the page body's
  `overflow` style and locks scrolling; closing it restores the saved
  value. The class `GalleryViewer` holds the state and a separate
  `PageBody` object holds the locked style. Each method is specified by the
  pure state machine `Step`.
- **RSVP form** (`rsvp.dfy`, `text.dfy`). It has an ordered validator where
  the first failing rule wins, a digit filter on the phone field and a
  honeypot field. Submitting posts the trimmed entry once. The form
  succeeds only on `res.ok`: it then clears the seven fields, and otherwise
  keeps them. `handleSubmit` is modelled in two phases, split at its
  `await`: `Submit` (up to the fetch) and `Settle` (after it). The
  `trim` whitespace set is ECMAScript's.
- **Relays** (`api_submit.dfy`, `src_api_submit.dfy`, `http.dfy`). Both
  handlers set CORS headers and then dispatch on the method. api/submit.js
  falls back to reading the raw body stream. It maps the service's status
  to 200 or 502 and wraps the reply in `{ok: true, result}`, with
  parse-or-raw fallbacks. src/api/submit.js passes the status and text
  through unchanged. A response is modelled as the ordered record of calls
  made on `res`.
- `relay.dfy` connects the form to each relay. The form posts to the
  relative path `/api` (src/App.tsx:611). The development server forwards
  `/api` straight to the service (vite.config.ts:8-14), and no file routes
  it to either handler, so the `Relay` lemmas assume that the request
  reaches the relay they name.
  Through api/submit.js, a 3xx from the recording service reaches the user
  as success. Through src/api/submit.js it does not.

The clock, `JSON.parse`, `JSON.stringify`, the outgoing `fetch`, the
request's body stream and the number conversion of the guests input are
parameters.

In these places the model follows the code exactly:

- `Number(guests)` does not round to an integer, so guests are reals.
- Only the phone input's `maxLength` caps the phone length. The code itself
  does not truncate.
- api/submit.js answers `{ok: true, ...}` even with status 502.
- api/submit.js answers 200 for any service status in 200..399, not only
  2xx.
- The honeypot rejects only when it is non-blank after `trim`, not merely
  when it is non-empty.
- Neither relay sets a timeout on its outgoing call, and both post to a
  fixed destination URL.

## Model

| member | source | states |
|---|---|---|
| `Text.TrimStartShape` | src/App.tsx:571-572 | `trim`'s leading cut: the kept part is a suffix, everything cut is whitespace, and the kept part starts with non-whitespace |
| `Text.IsWhitespace` | src/App.tsx:571 | the characters `trim` removes include space, tab, LF and CR; each lies in the Basic Multilingual Plane (one UTF-16 code unit) and none is a digit |
| `Text.Trim` | src/App.tsx:571-572 | `trim` never lengthens a string, and a non-empty result neither starts nor ends with whitespace |
| `Text.TrimEndShape` | src/App.tsx:571-572 | `trim`'s trailing cut: the kept part is a prefix, everything cut is whitespace, and the kept part ends with non-whitespace |
| `Text.TrimIsMiddle` | src/App.tsx:601-607 | `trim` keeps a contiguous middle slice of the string and cuts away only whitespace on either side |
| `Text.TrimEmptyIffBlank` | src/App.tsx:571 | `!s.trim()` holds exactly when every character is whitespace |
| `Text.TrimIdempotent` | src/App.tsx:601-607 | trimming a trimmed value changes nothing |
| `Text.KeepDigits` | src/App.tsx:662 | the filtered phone holds only ASCII digits and is no longer than the input |
| `Text.KeepDigitsAppend` | src/App.tsx:662 | filtering distributes over concatenation, so each character is kept or dropped on its own, in order |
| `Text.KeepDigitsOfDigits` | src/App.tsx:662 | an all-digit value passes through unchanged, so the filter is idempotent |
| `Text.KeepDigitsOfNonDigits` | src/App.tsx:662 | a value without digits filters to the empty string: non-digits are dropped, not replaced (with the two rows above, the result is exactly the input's digits in order) |
| `Text.DigitsAreTrimmed` | src/App.tsx:572 | a stored phone of digits is its own `trim` |
| `Countdown.Split` | src/App.tsx:49-54 | for a positive distance, days ≥ 0, hours < 24, minutes and seconds < 60, and the shown span r satisfies r ≤ distance < r + 1000 |
| `Countdown.SplitUnique` | src/App.tsx:49-54 | any in-range display whose span is the distance rounded down to a second equals the split |
| `Countdown.SplitExample` | src/App.tsx:49-54 | 90,061,001 ms shows 1 day, 1 hour, 1 minute, 1 second |
| `Countdown.TickConsistent` | src/App.tsx:39-55 | a tick keeps the display in range and keeps zeros once stopped |
| `Countdown.TickOutcome` | src/App.tsx:41-54 | before the wedding a tick shows the split and keeps counting; at or after it shows zeros and stops |
| `Countdown.StoppedIsFinal` | src/App.tsx:43-47 | after the interval is cleared, no run of later ticks changes anything |
| `Countdown.RunConsistent` | src/App.tsx:39-55 | any run of ticks stays consistent, and a run containing a tick at or after the wedding ends stopped at zeros |
| `Countdown.Countdown.constructor` | src/App.tsx:29-34 | the countdown starts at all zeros, counting |
| `Countdown.Countdown.OnInterval` | src/App.tsx:39-55 | the interval callback updates `timeLeft` and the stop flag exactly as `Tick` does, keeping the display consistent |
| `Gallery.Next` | src/App.tsx:476-478 | next stays in [0, n) and wraps from n-1 to 0 |
| `Gallery.Prev` | src/App.tsx:472-474 | prev stays in [0, n) and wraps from 0 to n-1 |
| `Gallery.PrevNextInverse` | src/App.tsx:472-478 | prev(next(i)) = i and next(prev(i)) = i |
| `Gallery.AdvanceIsModular` | src/App.tsx:476-478 | k presses of next move to (i + k) mod n |
| `Gallery.FullCircle` | src/App.tsx:476-478 | n presses of next return to the starting image |
| `Gallery.FourImagesExample` | src/App.tsx:283 | with the page's four images: 0 → 1 → 2 → 3 → 0 under next, and prev(0) = 3 |
| `Gallery.KeyAction` | src/App.tsx:480-485 | Escape closes, ArrowLeft goes back, ArrowRight goes forward, each iff the key is that name; anything else is ignored |
| `Gallery.Step` | src/App.tsx:436-492 | every gallery event keeps the index in range while the modal is open |
| `Gallery.ScrollLockRestored` | src/App.tsx:463-470 | over any event sequence the lock invariant holds, so whenever the modal is closed the page's overflow is exactly its value before the first open |
| `Gallery.OpenStartsAtFirst` | src/App.tsx:444-461 | opening the gallery always shows the first image |
| `Gallery.GalleryViewer.constructor` | src/App.tsx:437-438 | the gallery starts closed |
| `Gallery.GalleryViewer.ViewGallery` | src/App.tsx:443-466 | opening resets the index to 0, saves the body's overflow and sets it to hidden; pressing it while already open changes nothing |
| `Gallery.GalleryViewer.Dismiss` | src/App.tsx:467-469 | closing restores the saved overflow |
| `Gallery.GalleryViewer.PrevImage` | src/App.tsx:472-474 | the previous-image button applies `Prev` while open |
| `Gallery.GalleryViewer.NextImage` | src/App.tsx:476-478 | the next-image button applies `Next` while open |
| `Gallery.GalleryViewer.OnKey` | src/App.tsx:480-492 | the key listener acts only while mounted and does what `KeyAction` says |
| `Rsvp.FirstFailing` | src/App.tsx:570-578 | the index of the first failing rule: all earlier rules pass and that one fails |
| `Rsvp.Validate` | src/App.tsx:570-578 | the validator returns the message of the first failing rule, or null when none fails |
| `Rsvp.ValidateAcceptsIffAllPass` | src/App.tsx:570-578 | null exactly when all six rules pass |
| `Rsvp.ValidateReportsFirstFailure` | src/App.tsx:570-578 | rule k's message is returned iff rule k fails and every earlier rule passes |
| `Rsvp.PayloadShape` | src/App.tsx:599-608 | the posted object has exactly the eight payload members in order and no honeypot member |
| `Rsvp.MakePayload` | src/App.tsx:599-608 | the payload carries the submit time; name and wishes come out empty exactly when the entry's were blank; name, phone and wishes are never longer than typed; attending, side and arrival are copied; guests is `Number(guests)` |
| `Rsvp.PayloadTrimsEntry` | src/App.tsx:601-602 | the posted name, phone and wishes are the typed name, phone and wishes with only leading and trailing whitespace cut, and they neither start nor end with whitespace |
| `Rsvp.AcceptedPayload` | src/App.tsx:590-608 | an accepted entry's payload has a non-blank trimmed name, a trimmed phone of ≥ 10 characters, trimmed wishes, ≥ 1 guest and all three choices made |
| `Rsvp.PhoneRuleOnStoredPhone` | src/App.tsx:572 | on a digits-only phone, as the input filter keeps it, the phone rule passes iff the phone has at least ten digits |
| `Rsvp.HoneypotRejects` | src/App.tsx:582-588 | a non-blank honeypot gives 'Submission rejected.', whatever the entry, with no post and nothing else changed |
| `Rsvp.InvalidEntryNotPosted` | src/App.tsx:590-594 | with a blank honeypot, the first failing rule's message is shown, with no post and nothing else changed |
| `Rsvp.SubmitPending` | src/App.tsx:582-596 | when the post goes out, the form differs from before only in `loading` set and the message cleared; when it does not, `loading` is left as it was |
| `Rsvp.PostedSubmission` | src/App.tsx:580-641 | one post iff the honeypot is blank and all rules pass; the post carries the entry's payload; afterwards loading is false, and the fields are cleared with thanks iff the answer is 2xx, otherwise kept with the retry message; the honeypot is never cleared |
| `Rsvp.RsvpForm.constructor` | src/App.tsx:557-568 | all fields empty, not loading, no message |
| `Rsvp.RsvpForm.InputText` | src/App.tsx:653-688 | a text input or select stores its value in its own field only |
| `Rsvp.RsvpForm.InputPhone` | src/App.tsx:662 | the phone stores the input's digits only; within `maxLength` input it stays within 10 |
| `Rsvp.RsvpForm.InputGuests` | src/App.tsx:673 | the guests field is blank for empty text, else the number typed |
| `Rsvp.RsvpForm.Submit` | src/App.tsx:580-615 | the synchronous part of `handleSubmit`, as `SubmitStart` states |
| `Rsvp.RsvpForm.Settle` | src/App.tsx:618-640 | the continuation after the fetch, as `SubmitEnd` states |
| `Rsvp.RsvpForm.HandleSubmit` | src/App.tsx:580-641 | a whole submission ends not loading and agrees with `Submission` |
| `ApiSubmit.GetRawBody` | api/submit.js:46-62 | accumulating chunks over the stream's events settles exactly as `ReadStream` says |
| `ApiSubmit.ParseOrRaw` | api/submit.js:35 | the reply text parsed when it is JSON, otherwise the text itself as a string |
| `ApiSubmit.EndValue` | api/submit.js:51-57 | at the end of the stream: `{}` for no data, the parsed value for JSON data, the raw data string otherwise |
| `ApiSubmit.ChunksThenEnd` | api/submit.js:50-58 | chunks then end resolve with `{}` for no data, the parsed value when the data parses, and the raw string otherwise |
| `ApiSubmit.RejectsOnlyOnStreamError` | api/submit.js:52-60 | reading rejects iff an error event arrives before any end; a parse failure never rejects |
| `ApiSubmit.Handle` | api/submit.js:7-43 | the handler makes exactly the calls on `res`, and the upstream call, that `Reply` states |
| `ApiSubmit.CorsFirst` | api/submit.js:9-11 | every response begins with the three CORS headers |
| `ApiSubmit.MethodDispatch` | api/submit.js:14-20 | OPTIONS gets 204 and `end()`; any other non-POST gets 405 with `{error:'Method not allowed'}`; neither calls the service |
| `ApiSubmit.HasOwnKeys` | api/submit.js:24 | the parsed body is used iff it is truthy and has at least one own key (`Object.keys`), judged against separate definitions of truthiness and key count |
| `ApiSubmit.ForwardedBody` | api/submit.js:24 | the forwarded body is `req.body` when it has own keys, else what the raw stream settles with; a stream that never ends leaves only the headers |
| `ApiSubmit.UpstreamReply` | api/submit.js:26-38 | the reply status is 200 iff the service status is in 200..399, and 502 otherwise; the body is `{ok: true, result}` with result parsed or raw |
| `ApiSubmit.ReplyStatus` | api/submit.js:38 | the relay answers 200 iff the service status is in 200..399, and 502 iff it is not |
| `ApiSubmit.ThrownIs500` | api/submit.js:39-41 | a stream error or failed service call gives 500 with `{error:'Proxy failed', details}` |
| `SrcApiSubmit.Handle` | src/api/submit.js:4-32 | the handler makes exactly the calls on `res`, and the upstream call, that `Reply` states |
| `SrcApiSubmit.CorsFirst` | src/api/submit.js:5-7 | every response begins with the three CORS headers |
| `SrcApiSubmit.MethodDispatch` | src/api/submit.js:9-17 | OPTIONS gets 204; every other non-POST, GET included though advertised, gets 405; neither calls the service |
| `SrcApiSubmit.Forward` | src/api/submit.js:23 | the forwarded text is `JSON.stringify(req.body)`, and empty when there is no body |
| `SrcApiSubmit.Passthrough` | src/api/submit.js:19-27 | a POST forwards `JSON.stringify(req.body)` and answers with the service's exact status and text |
| `SrcApiSubmit.FailureIs500` | src/api/submit.js:28-31 | a failed service call gives 500 with `{error:'Server error'}` |
| `Relay.ApiRelaySuccessRange` | api/submit.js:38 | through this relay the form thanks the user iff the service status is in 200..399 |
| `Relay.RedirectShownAsSuccess` | src/App.tsx:618-634 | a service 302, not ok by itself, becomes 200 at the relay and clears the form as a success |
| `Relay.SrcRelaySuccessRange` | src/api/submit.js:27 | through this relay the form thanks the user iff the service status is 2xx |
| `Relay.RelayFailureKeepsEntry` | src/App.tsx:618-637 | a relay 500 shows the retry message and keeps the entry |

## Left out

- Presentation: the markup, styling, event cards, the mobile menu,
  `scrollToSection` and the image imports.
- The build configuration (vite.config.js, vite.config.ts). These are
  development-server proxy settings.
- React's hook scheduling and re-rendering. Each event handler is one
  atomic method. The countdown effect's cleanup on unmount (src/App.tsx:57)
  is not modelled.
- `setInterval` timing and the parsing of the wedding date. The wedding
  timestamp and each tick's `Date.now()` are integer parameters.
- Countdown.Split: `Math.floor` is applied to a floating-point quotient in
  the source. The model uses exact integer division, which agrees with it
  for any realistic distance.
- Rsvp.Guests: `Number(...)` of text that is not a number (NaN) is not
  modelled. The number conversion is a parameter returning a real.
- Text: JavaScript measures string length in UTF-16 code units and the
  model counts characters. They agree on the phone field, which holds only
  ASCII digits.
- Rsvp.RsvpForm.Submit: it requires that no submission is pending, because
  the submit button is disabled while `loading` (src/App.tsx:690).
- Rsvp.RsvpForm.HandleSubmit: the fields may be edited while the fetch is
  pending. This method does not model that; `Submit` followed by `Settle`
  does.
- The `submittedAt` timestamp (`toISOString`) is an opaque string
  parameter.
- Logging (`console.error`) and the failure path's `res.text()` read,
  which only feeds the log.
- `fetch`, the HTTP transport, redirect following, `JSON.parse` and
  `JSON.stringify` are parameters. The service status seen is the one after
  redirects.
- The destination URL constants. The service is opaque.
- Thrown errors in the relays: api/submit.js:41 reports
  `err.message || String(err)`, which the model keeps as one opaque details
  string. src/api/submit.js:28-31 drops the error and answers a fixed
  `{error: 'Server error'}`, which is modelled as written.
- Bodies that the platform parses into something other than a JSON value,
  such as a Buffer.
- Gallery.Next and Gallery.Prev: they require at least one image. The page
  always passes four, and an empty list would make the index NaN.
- Gallery.GalleryViewer.OnKey: the listener's re-registration when its
  callback changes is modelled as "the listener is present iff the modal is
  open".
