/** The RSVP form: controlled fields, a hidden honeypot, an ordered
    validator whose first failing rule is shown, and a submit handler that
    posts the trimmed entry once and reports success only on an HTTP 2xx
    answer. The clock (`new Date().toISOString()`) and the network are
    parameters. */
module Rsvp {

  import opened Wrappers
  import opened Text
  import opened JsonValue

  /** The attendee count field: `''` until something is typed, then
      `Number(value)`. */
  datatype Guests = Blank | Count(n: real)

  /** `Number(guests)`: `Number('')` is 0. */
  function GuestNumber(g: Guests): real
  {
    match g
    case Blank => 0.0
    case Count(n) => n
  }

  /** `!guests`: the empty string and the number 0 are falsy. */
  predicate GuestsFalsy(g: Guests)
  {
    g == Blank || g == Count(0.0)
  }

  /** The seven visible fields of the form. */
  datatype Entry = Entry(
    name: string,
    phone: string,
    attending: string,
    guests: Guests,
    side: string,
    arrival: string,
    wishes: string)

  const Cleared := Entry("", "", "", Blank, "", "", "")

  /** The browser's `maxLength` on the phone input. */
  const MaxPhoneLength: nat := 10
  const MinPhoneLength: nat := 10

  const NameMissing := "Please enter your name."
  const PhoneInvalid := "Enter a valid mobile number."
  const AttendingMissing := "Select attending status."
  const GuestsInvalid := "Enter number of attendees (min 1)."
  const SideMissing := "Pick a side."
  const ArrivalMissing := "Select arrival date."
  const Rejected := "Submission rejected."
  const ThankYou := "Thank you! Your confirmation has been received."
  const TryAgain := "Something went wrong. Please try again or contact us directly."

  /** The validator's messages, one per rule, in the order the rules are
      checked. */
  const Messages: seq<string> :=
    [NameMissing, PhoneInvalid, AttendingMissing, GuestsInvalid, SideMissing, ArrivalMissing]

  /** Rule `k`, stated on its own: the name is not blank; the trimmed phone
      has at least ten characters; an attending status, a positive number
      of guests, a side and an arrival date are chosen. */
  predicate Passes(e: Entry, k: nat)
    requires k < |Messages|
  {
    match k
    case 0 => !AllWhitespace(e.name)
    case 1 => |Trim(e.phone)| >= MinPhoneLength
    case 2 => e.attending != ""
    case 3 => GuestNumber(e.guests) >= 1.0
    case 4 => e.side != ""
    case _ => e.arrival != ""
  }

  /** The first rule at or after `from` that fails, or `|Messages|` when
      none does. */
  function FirstFailing(e: Entry, from: nat): (k: nat)
    requires from <= |Messages|
    ensures from <= k <= |Messages|
    ensures forall j :: from <= j < k ==> Passes(e, j)
    ensures k < |Messages| ==> !Passes(e, k)
    decreases |Messages| - from
  {
    if from == |Messages| || !Passes(e, from) then from else FirstFailing(e, from + 1)
  }

  /** `validate()`: the message of the first failing rule, or null. */
  function Validate(e: Entry): (r: Option<string>)
    ensures var k := FirstFailing(e, 0);
            r == if k < |Messages| then Some(Messages[k]) else None
  {
    TrimEmptyIffBlank(e.name);
    TrimEmptyIffBlank(e.phone);
    if Trim(e.name) == "" then Some(NameMissing)
    else if Trim(e.phone) == "" || |Trim(e.phone)| < MinPhoneLength then Some(PhoneInvalid)
    else if e.attending == "" then Some(AttendingMissing)
    else if GuestsFalsy(e.guests) || GuestNumber(e.guests) < 1.0 then Some(GuestsInvalid)
    else if e.side == "" then Some(SideMissing)
    else if e.arrival == "" then Some(ArrivalMissing)
    else None
  }

  /** The validator accepts exactly the entries that pass every rule. */
  lemma ValidateAcceptsIffAllPass(e: Entry)
    ensures Validate(e) == None <==> forall k :: 0 <= k < |Messages| ==> Passes(e, k)
  {
    var k := FirstFailing(e, 0);
    if k < |Messages| {
      assert !Passes(e, k);
    }
  }

  /** First failure wins: the validator reports rule `k` exactly when rule
      `k` fails and every earlier rule passes. */
  lemma ValidateReportsFirstFailure(e: Entry, k: nat)
    requires k < |Messages|
    ensures Validate(e) == Some(Messages[k]) <==>
              !Passes(e, k) && forall j :: 0 <= j < k ==> Passes(e, j)
  {
    var f := FirstFailing(e, 0);
    if Validate(e) == Some(Messages[k]) {
      assert f < |Messages| && Messages[f] == Messages[k];
      assert f == k;
    }
  }

  /** The JSON body the form posts: the honeypot is not part of it. */
  datatype Payload = Payload(
    submittedAt: string,
    name: string,
    phone: string,
    attending: string,
    guests: real,
    side: string,
    arrival: string,
    wishes: string)

  /** The payload object built from the entry at submit time `now`. */
  function MakePayload(now: string, e: Entry): (r: Payload)
    ensures r.submittedAt == now
    ensures r.name == "" <==> AllWhitespace(e.name)
    ensures r.wishes == "" <==> AllWhitespace(e.wishes)
    ensures |r.name| <= |e.name| && |r.phone| <= |e.phone| && |r.wishes| <= |e.wishes|
    ensures r.attending == e.attending && r.side == e.side && r.arrival == e.arrival
    ensures r.guests == GuestNumber(e.guests)
  {
    TrimEmptyIffBlank(e.name);
    TrimEmptyIffBlank(e.wishes);
    Payload(now, Trim(e.name), Trim(e.phone), e.attending, GuestNumber(e.guests),
            e.side, e.arrival, Trim(e.wishes))
  }

  /** The payload as the JSON object `JSON.stringify` receives, members in
      source order. */
  function PayloadJson(p: Payload): Json
  {
    JObj([
      ("submittedAt", JStr(p.submittedAt)),
      ("name", JStr(p.name)),
      ("phone", JStr(p.phone)),
      ("attending", JStr(p.attending)),
      ("guests", JNum(p.guests)),
      ("side", JStr(p.side)),
      ("arrival", JStr(p.arrival)),
      ("wishes", JStr(p.wishes))])
  }

  const PayloadKeys: seq<string> :=
    ["submittedAt", "name", "phone", "attending", "guests", "side", "arrival", "wishes"]

  /** The posted object has exactly the eight payload members, in order, and
      no honeypot member. */
  lemma PayloadShape(now: string, e: Entry)
    ensures PayloadJson(MakePayload(now, e)).JObj?
    ensures Keys(PayloadJson(MakePayload(now, e)).members) == PayloadKeys
    ensures "website" !in PayloadKeys
  {
    var ks := Keys(PayloadJson(MakePayload(now, e)).members);
    assert ks == PayloadKeys;
  }

  /** A payload built from an accepted entry carries a non-blank trimmed
      name, a phone of at least ten characters with no surrounding
      whitespace, at least one guest, and the three choices made; the text
      fields are already trimmed and the submit time is the one given. */
  lemma AcceptedPayload(now: string, e: Entry)
    requires Validate(e) == None
    ensures var p := MakePayload(now, e);
      && p.submittedAt == now
      && p.name != "" && Trim(p.name) == p.name
      && |p.phone| >= MinPhoneLength && Trim(p.phone) == p.phone
      && Trim(p.wishes) == p.wishes
      && p.guests >= 1.0
      && p.attending != "" && p.side != "" && p.arrival != ""
  {
    TrimIdempotent(e.name);
    TrimIdempotent(e.phone);
    TrimIdempotent(e.wishes);
  }

  /** The posted name, phone and wishes are what was typed into those fields
      with only the surrounding whitespace cut. */
  lemma PayloadTrimsEntry(now: string, e: Entry)
    ensures var p := MakePayload(now, e);
      && IsTrimOf(p.name, e.name)
      && IsTrimOf(p.phone, e.phone)
      && IsTrimOf(p.wishes, e.wishes)
  {
    TrimIsMiddle(e.name);
    TrimIsMiddle(e.phone);
    TrimIsMiddle(e.wishes);
  }

  /** On a phone the input filter has reduced to digits, the phone rule is
      simply "at least ten digits": there is nothing for `trim` to cut. */
  lemma PhoneRuleOnStoredPhone(e: Entry)
    requires AllDigits(e.phone)
    ensures Passes(e, 1) <==> |e.phone| >= MinPhoneLength
  {
    DigitsAreTrimmed(e.phone);
  }

  /** How the `fetch` to the relay ended: an HTTP answer with its status, or
      a thrown error. */
  datatype FetchOutcome = Responded(status: int) | Threw

  /** `res.ok`. */
  predicate IsOk(status: int)
  {
    200 <= status <= 299
  }

  /** The form's whole state. */
  datatype Form = Form(entry: Entry, website: string, loading: bool, message: Option<string>)

  /** The state after the synchronous part of `handleSubmit`, and the
      payload posted, if any. */
  datatype Started = Started(form: Form, posted: Option<Payload>)

  /** `handleSubmit` up to its `await fetch`: clear the message; a filled
      honeypot rejects; a failing rule shows its message; otherwise set
      `loading` and post the payload. */
  function SubmitStart(f: Form, now: string): Started
  {
    var f := f.(message := None);
    if Trim(f.website) != "" then Started(f.(message := Some(Rejected)), None)
    else match Validate(f.entry)
      case Some(m) => Started(f.(message := Some(m)), None)
      case None => Started(f.(loading := true), Some(MakePayload(now, f.entry)))
  }

  /** The rest of `handleSubmit` once the fetch settles: an ok answer clears
      the seven fields and thanks; anything else keeps them and asks to try
      again; `loading` is reset either way. */
  function SubmitEnd(f: Form, outcome: FetchOutcome): Form
  {
    if outcome.Responded? && IsOk(outcome.status) then
      Form(Cleared, f.website, false, Some(ThankYou))
    else
      f.(loading := false, message := Some(TryAgain))
  }

  /** A whole submission with no edits while the fetch is pending. */
  function Submission(f: Form, now: string, outcome: FetchOutcome): Started
  {
    var s := SubmitStart(f, now);
    if s.posted.Some? then Started(SubmitEnd(s.form, outcome), s.posted) else s
  }

  /** The honeypot comes first: filled, it rejects without a post and
      without touching the fields or `loading`, whatever the entry. */
  lemma HoneypotRejects(f: Form, now: string, outcome: FetchOutcome)
    requires !AllWhitespace(f.website)
    ensures Submission(f, now, outcome) ==
              Started(f.(message := Some(Rejected)), None)
  {
    TrimEmptyIffBlank(f.website);
  }

  /** With an empty honeypot, an entry the validator refuses shows the
      first failing rule's message, with no post and nothing else changed. */
  lemma InvalidEntryNotPosted(f: Form, now: string, outcome: FetchOutcome, k: nat)
    requires AllWhitespace(f.website)
    requires k < |Messages| && !Passes(f.entry, k)
    requires forall j :: 0 <= j < k ==> Passes(f.entry, j)
    ensures Submission(f, now, outcome) ==
              Started(f.(message := Some(Messages[k])), None)
  {
    TrimEmptyIffBlank(f.website);
    ValidateReportsFirstFailure(f.entry, k);
  }

  /** While the post is pending, the form differs from the one submitted
      only in `loading` being set and the message being cleared: the entry
      and the honeypot are untouched. */
  lemma SubmitPending(f: Form, now: string)
    ensures var s := SubmitStart(f, now);
      s.posted.Some? ==> s.form == f.(loading := true, message := None)
    ensures var s := SubmitStart(f, now);
      s.posted.None? ==> s.form.loading == f.loading
  {
  }

  /** Exactly one post happens iff the honeypot is blank and every rule
      passes; it carries the payload of the entry as it was at submit time.
      Afterwards `loading` is false, and the fields are cleared with the
      thank-you message iff the relay answered with a 2xx status; otherwise
      the entry is kept and the retry message shown. The honeypot itself is
      never cleared. */
  lemma PostedSubmission(f: Form, now: string, outcome: FetchOutcome)
    ensures var s := Submission(f, now, outcome);
      s.posted.Some? <==>
        AllWhitespace(f.website) && forall k :: 0 <= k < |Messages| ==> Passes(f.entry, k)
    ensures var s := Submission(f, now, outcome);
      s.posted.Some? ==>
        && s.posted.value == MakePayload(now, f.entry)
        && !s.form.loading
        && s.form.website == f.website
        && (if outcome.Responded? && IsOk(outcome.status)
            then s.form.entry == Cleared && s.form.message == Some(ThankYou)
            else s.form.entry == f.entry && s.form.message == Some(TryAgain))
  {
    TrimEmptyIffBlank(f.website);
    ValidateAcceptsIffAllPass(f.entry);
  }

  /** The text inputs other than the phone. */
  datatype TextField = Name | Attending | Side | Arrival | Wishes | Website

  /** `RSVPForm`'s state: one field per `useState`. */
  class RsvpForm {
    var name: string
    var phone: string
    var attending: string
    var guests: Guests
    var side: string
    var arrival: string
    var wishes: string
    var website: string
    var loading: bool
    var message: Option<string>

    /** The phone field only ever holds digits. */
    predicate Valid()
      reads this
    {
      AllDigits(phone)
    }

    function Current(): Entry
      reads this
    {
      Entry(name, phone, attending, guests, side, arrival, wishes)
    }

    function State(): Form
      reads this
    {
      Form(Current(), website, loading, message)
    }

    constructor ()
      ensures Valid() && State() == Form(Cleared, "", false, None)
    {
      name, phone, attending, guests := "", "", "", Blank;
      side, arrival, wishes, website := "", "", "", "";
      loading, message := false, None;
    }

    /** `onChange` of a plain text input or select: store the value. */
    method InputText(field: TextField, value: string)
      requires Valid()
      modifies this
      ensures Valid()
      ensures State() == (match field
        case Name => old(State()).(entry := old(Current()).(name := value))
        case Attending => old(State()).(entry := old(Current()).(attending := value))
        case Side => old(State()).(entry := old(Current()).(side := value))
        case Arrival => old(State()).(entry := old(Current()).(arrival := value))
        case Wishes => old(State()).(entry := old(Current()).(wishes := value))
        case Website => old(State()).(website := value))
    {
      match field
      case Name => name := value;
      case Attending => attending := value;
      case Side => side := value;
      case Arrival => arrival := value;
      case Wishes => wishes := value;
      case Website => website := value;
    }

    /** `onChange` of the phone input: keep only the digits. Within the
        input's `maxLength` the stored phone stays within it too. */
    method InputPhone(value: string)
      requires Valid()
      modifies this
      ensures Valid()
      ensures State() == old(State()).(entry := old(Current()).(phone := KeepDigits(value)))
      ensures |value| <= MaxPhoneLength ==> |phone| <= MaxPhoneLength
    {
      phone := KeepDigits(value);
    }

    /** `onChange` of the guests input: `''` when empty, else `Number` of
        the text, with the number conversion as a parameter. */
    method InputGuests(value: string, toNumber: string -> real)
      requires Valid()
      modifies this
      ensures Valid()
      ensures State() == old(State()).(entry := old(Current()).(
        guests := if value != "" then Count(toNumber(value)) else Blank))
    {
      guests := if value != "" then Count(toNumber(value)) else Blank;
    }

    /** `handleSubmit` up to the `await fetch`, run at time `now`; returns
        the payload posted, if any. The submit button is disabled while
        `loading`, so a submission never starts while one is pending. */
    method Submit(now: string) returns (posted: Option<Payload>)
      requires Valid() && !loading
      modifies this
      ensures Valid()
      ensures Started(State(), posted) == SubmitStart(old(State()), now)
    {
      message := None;
      if Trim(website) != "" {
        message := Some(Rejected);
        return None;
      }
      var err := Validate(Current());
      if err.Some? {
        message := err;
        return None;
      }
      loading := true;
      posted := Some(MakePayload(now, Current()));
    }

    /** The continuation of `handleSubmit` once the fetch settles. */
    method Settle(outcome: FetchOutcome)
      requires Valid() && loading
      modifies this
      ensures Valid()
      ensures State() == SubmitEnd(old(State()), outcome)
    {
      if outcome.Responded? && IsOk(outcome.status) {
        message := Some(ThankYou);
        name, phone, attending, guests := "", "", "", Blank;
        side, arrival, wishes := "", "", "";
      } else {
        message := Some(TryAgain);
      }
      loading := false;
    }

    /** A whole `handleSubmit` with no edits while the fetch is pending. */
    method HandleSubmit(now: string, outcome: FetchOutcome) returns (posted: Option<Payload>)
      requires Valid() && !loading
      modifies this
      ensures Valid() && !loading
      ensures Started(State(), posted) == Submission(old(State()), now, outcome)
    {
      posted := Submit(now);
      if posted.Some? {
        Settle(outcome);
      }
    }
  }
}
