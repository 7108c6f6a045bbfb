/** The three ways a hotel reservation is pushed to a hotel (an ICS event
    posted over HTTP, a JSON document posted over HTTP, an e-mail sent over
    SMTP), the factory that picks one by name, and the outcome each returns:
    (success, error message, response data). The network, the mail server,
    the process environment and the clock are parameters. */
module PushAdapter {
  import opened Common
  import opened HotelModels

  datatype Adapter = IcsAdapter | JsonAdapter | EmailAdapter

  // ---------------------------------------------------------------------
  // The world outside the process
  // ---------------------------------------------------------------------

  datatype Headers = Headers(contentType: string, authorization: Option<string>)

  /** What is posted: the reservation rendered as a VEVENT (with the hotel's
      name as location), or as the JSON payload. */
  datatype Body = IcsBody(reservation: HotelReservation, location: string) | JsonBody(reservation: HotelReservation)

  datatype Request = Request(endpoint: string, headers: Headers, body: Body)

  /** How a response body reads as JSON. */
  datatype JsonParse = Parsed(value: string) | NotJson(message: string)

  /** The HTTP client: a response, or an exception (timeout, refused
      connection) with its message. */
  datatype HttpOutcome = Reply(status: int, text: string, json: JsonParse) | Raised(message: string)

  datatype Mail = Mail(host: string, port: int, from: string, to: string, subject: string, reservation: HotelReservation)

  /** `SMTP_HOST`, `SMTP_PORT`, `SMTP_USER`, `SMTP_PASSWORD`, `SMTP_FROM`. */
  datatype SmtpEnv = SmtpEnv(host: Option<string>, port: Option<string>, user: Option<string>,
                             password: Option<string>, from: Option<string>)

  /** `http` answers each request; `smtp` delivers a mail (None) or raises
      (Some(message)); `nowIso` is the clock read after a delivery. */
  datatype World = World(http: Request -> HttpOutcome, smtp: Mail -> Option<string>, env: SmtpEnv, nowIso: string)

  // ---------------------------------------------------------------------
  // Results
  // ---------------------------------------------------------------------

  datatype ResponseData =
    | HttpData(statusCode: int, response: Option<string>)
    | MailData(email: string, sentAt: string)

  datatype PushResult = PushResult(success: bool, error: Option<string>, response: Option<ResponseData>)

  /** What a call of an adapter ends in: a returned triple, or an exception
      that escapes it. */
  datatype AdapterOutcome = Returned(result: PushResult) | Escaped(message: string)

  function Failure(message: string): PushResult {
    PushResult(false, Some(message), None)
  }

  /** The error text of a non-2xx reply: status and the first 200 characters. */
  function HttpErrorText(status: int, text: string): string {
    "HTTP " + IntToString(status) + ": " + Take(text, 200)
  }

  predicate Accepted(status: int) {
    status == 200 || status == 201
  }

  /** The request headers: the content type, and a bearer token exactly
      when an API key is configured and non-empty. */
  function AuthHeaders(contentType: string, apiKey: Option<string>): (h: Headers)
    ensures h.contentType == contentType
    ensures h.authorization.Some? <==> Truthy(apiKey)
    ensures Truthy(apiKey) ==> h.authorization.value == "Bearer " + apiKey.value
  {
    Headers(contentType, if Truthy(apiKey) then Some("Bearer " + apiKey.value) else None)
  }

  // ---------------------------------------------------------------------
  // The adapters
  // ---------------------------------------------------------------------

  /** The message of the `ValueError` that `datetime` raises for a date
      that is not in the calendar. */
  function DateError(d: Date): (m: string)
    ensures m != ""
  {
    if !(1 <= d.year <= 9999) then "year " + IntToString(d.year) + " is out of range"
    else if !(1 <= d.month <= 12) then "month must be in 1..12"
    else "day is out of range for month"
  }

  /** `ICSAdapter.push_reservation`.  Building the event converts check-in
      and then check-out with `datetime.fromisoformat` inside the try, so an
      impossible date fails before any request is sent. */
  function IcsPush(h: Hotel, r: HotelReservation, w: World): (res: PushResult)
    ensures res.success <==> res.error.None?
    ensures res.success ==> res.response.Some? && res.response.value.HttpData? && Accepted(res.response.value.statusCode)
    ensures res.success ==> ValidDate(r.checkin) && ValidDate(r.checkout)
    ensures !Truthy(h.pushEndpoint) ==> res == Failure("Push endpoint not configured")
  {
    if !Truthy(h.pushEndpoint) then Failure("Push endpoint not configured")
    else if !ValidDate(r.checkin) then Failure(DateError(r.checkin))
    else if !ValidDate(r.checkout) then Failure(DateError(r.checkout))
    else
      var req := Request(h.pushEndpoint.value, AuthHeaders("text/calendar", h.pushApiKey), IcsBody(r, h.name));
      match w.http(req)
      case Raised(m) => Failure(m)
      case Reply(status, text, _) =>
        if Accepted(status) then PushResult(true, None, Some(HttpData(status, Some(Take(text, 500)))))
        else PushResult(false, Some(HttpErrorText(status, text)), Some(HttpData(status, None)))
  }

  /** `JSONAdapter.push_reservation`. An accepted reply whose non-empty body
      is not JSON makes `response.json()` raise inside the try: a failure. */
  function JsonPush(h: Hotel, r: HotelReservation, w: World): (res: PushResult)
    ensures res.success <==> res.error.None?
    ensures res.success ==> res.response.Some? && res.response.value.HttpData? && Accepted(res.response.value.statusCode)
    ensures !Truthy(h.pushEndpoint) ==> res == Failure("Push endpoint not configured")
  {
    if !Truthy(h.pushEndpoint) then Failure("Push endpoint not configured")
    else
      var req := Request(h.pushEndpoint.value, AuthHeaders("application/json", h.pushApiKey), JsonBody(r));
      match w.http(req)
      case Raised(m) => Failure(m)
      case Reply(status, text, json) =>
        if Accepted(status) then
          if text == "" then PushResult(true, None, Some(HttpData(status, Some("{}"))))
          else match json
            case Parsed(v) => PushResult(true, None, Some(HttpData(status, Some(v))))
            case NotJson(m) => Failure(m)
        else PushResult(false, Some(HttpErrorText(status, text)), Some(HttpData(status, None)))
  }

  function DigitsValue(s: string): nat
    requires AllDigits(s)
  {
    if s == [] then 0 else DigitsValue(s[..|s| - 1]) * 10 + (s[|s| - 1] as int - '0' as int)
  }

  /** `int(...)` of the port setting, for a plain decimal literal. */
  function ParsePort(s: string): Option<int> {
    if s != [] && AllDigits(s) then Some(DigitsValue(s)) else None
  }

  /** `EmailAdapter.push_reservation`. The port is converted before the
      try, so an unreadable `SMTP_PORT` escapes the adapter, ahead of
      every other check. */
  function EmailPush(h: Hotel, r: HotelReservation, w: World): (out: AdapterOutcome)
    ensures out.Escaped? <==> ParsePort(w.env.port.GetOr("587")).None?
    ensures out.Returned? ==> (out.result.success <==> out.result.error.None?)
    ensures out.Returned? && out.result.success ==> Truthy(h.pushEmail) && out.result.response == Some(MailData(h.pushEmail.value, w.nowIso))
  {
    var env := w.env;
    var port := ParsePort(env.port.GetOr("587"));
    if port.None? then Escaped("invalid literal for int() with base 10")
    else if !Truthy(h.pushEmail) then Returned(Failure("Push email not configured"))
    else if !Truthy(env.user) || !Truthy(env.password) then Returned(Failure("SMTP credentials not configured"))
    else
      var mail := Mail(env.host.GetOr("smtp.gmail.com"), port.value, env.from.GetOr(env.user.value),
                       h.pushEmail.value, "New Reservation: " + r.customerName.GetOr("None"), r);
      match w.smtp(mail)
      case Some(m) => Returned(Failure(m))
      case None => Returned(PushResult(true, None, Some(MailData(h.pushEmail.value, w.nowIso))))
  }

  /** `get_push_adapter`: the name compared in lower case, JSON for every
      name it does not know. */
  function GetPushAdapter(name: string): (a: Adapter)
    ensures a == IcsAdapter <==> Lower(name) == "ics"
    ensures a == EmailAdapter <==> Lower(name) == "email"
  {
    var key := Lower(name);
    if key == "ics" then IcsAdapter else if key == "email" then EmailAdapter else JsonAdapter
  }

  /** `push_reservation`: the hotel's method, "json" when it has none. */
  function PushReservation(h: Hotel, r: HotelReservation, w: World): (out: AdapterOutcome)
    ensures out.Escaped? ==> GetPushAdapter(h.pushMethod.GetOr("json")) == EmailAdapter
    ensures out.Returned? && out.result.success && GetPushAdapter(h.pushMethod.GetOr("json")) != EmailAdapter ==>
      Truthy(h.pushEndpoint)
  {
    match GetPushAdapter(h.pushMethod.GetOr("json"))
    case IcsAdapter => Returned(IcsPush(h, r, w))
    case JsonAdapter => Returned(JsonPush(h, r, w))
    case EmailAdapter => EmailPush(h, r, w)
  }

  // ---------------------------------------------------------------------
  // Properties
  // ---------------------------------------------------------------------

  lemma LowerIdempotent(s: string)
    ensures Lower(Lower(s)) == Lower(s)
  {
    var l := Lower(s);
    assert forall i | 0 <= i < |l| :: Lower(l)[i] == LowerChar(LowerChar(s[i])) == l[i];
  }

  /** The factory ignores case: a name and its lower-case form select the
      same adapter, and only "ics" and "email" (in any case) select
      something other than JSON. */
  lemma {:induction false} AdapterChoiceIgnoresCase(name: string)
    ensures GetPushAdapter(name) == GetPushAdapter(Lower(name))
    ensures GetPushAdapter(name) == IcsAdapter <==> Lower(name) == "ics"
    ensures GetPushAdapter(name) == EmailAdapter <==> Lower(name) == "email"
  {
    LowerIdempotent(name);
  }

  /** The factory ignores case: "ICS" selects the ICS adapter. */
  lemma IcsNameSelectsIcs()
    ensures GetPushAdapter("ICS") == IcsAdapter
  {
    assert Lower("ICS") == "ics";
  }

  /** "Email" selects the e-mail adapter. */
  lemma EmailNameSelectsEmail()
    ensures GetPushAdapter("Email") == EmailAdapter
  {
    assert Lower("Email") == "email";
  }

  /** An unknown name such as "webhook" falls back to JSON. */
  lemma UnknownNameSelectsJson()
    ensures GetPushAdapter("webhook") == JsonAdapter
  {
    assert Lower("webhook") == "webhook";
  }

  /** Every returned triple is consistent: success exactly when there is
      no error message. Only the e-mail adapter lets an exception escape,
      and only when the port setting is not a number. */
  lemma PushOutcomeIsConsistent(h: Hotel, r: HotelReservation, w: World)
    ensures var out := PushReservation(h, r, w);
      && (out.Returned? ==> (out.result.success <==> out.result.error.None?))
      && (out.Escaped? <==> GetPushAdapter(h.pushMethod.GetOr("json")) == EmailAdapter
                            && ParsePort(w.env.port.GetOr("587")).None?)
  {
    match GetPushAdapter(h.pushMethod.GetOr("json"))
    case IcsAdapter => HttpAdaptersConsistent(h, r, w);
    case JsonAdapter => HttpAdaptersConsistent(h, r, w);
    case EmailAdapter => EmailOutcomeConsistent(h, r, w);
  }

  lemma HttpAdaptersConsistent(h: Hotel, r: HotelReservation, w: World)
    ensures IcsPush(h, r, w).success <==> IcsPush(h, r, w).error.None?
    ensures JsonPush(h, r, w).success <==> JsonPush(h, r, w).error.None?
  {
  }

  lemma EmailOutcomeConsistent(h: Hotel, r: HotelReservation, w: World)
    ensures var out := EmailPush(h, r, w);
      && (out.Returned? ==> (out.result.success <==> out.result.error.None?))
      && (out.Escaped? <==> ParsePort(w.env.port.GetOr("587")).None?)
  {
  }

  /** Without an endpoint the HTTP adapters fail with the same message
      whatever the network would have said: nothing is sent. */
  lemma NoEndpointSendsNothing(h: Hotel, r: HotelReservation, w1: World, w2: World)
    requires !Truthy(h.pushEndpoint)
    ensures IcsPush(h, r, w1) == IcsPush(h, r, w2) == Failure("Push endpoint not configured")
    ensures JsonPush(h, r, w1) == JsonPush(h, r, w2) == Failure("Push endpoint not configured")
  {
  }

  /** With an endpoint, the ICS adapter succeeds exactly when both dates are
      calendar dates and the server answers 200 or 201, and then keeps at
      most 500 characters of the body. */
  lemma IcsSuccessIff(h: Hotel, r: HotelReservation, w: World)
    requires Truthy(h.pushEndpoint)
    ensures var req := Request(h.pushEndpoint.value, AuthHeaders("text/calendar", h.pushApiKey), IcsBody(r, h.name));
      var res := IcsPush(h, r, w);
      && (res.success <==> ValidDate(r.checkin) && ValidDate(r.checkout) && w.http(req).Reply? && Accepted(w.http(req).status))
      && (res.success ==> res.response.Some? && |res.response.value.response.value| <= 500)
  {
  }

  /** A reservation with an impossible check-in or check-out date fails in
      the ICS adapter whatever the network would have said: nothing is sent,
      and the error is the date's `ValueError`. */
  lemma ImpossibleDateSendsNothing(h: Hotel, r: HotelReservation, w1: World, w2: World)
    requires Truthy(h.pushEndpoint) && !(ValidDate(r.checkin) && ValidDate(r.checkout))
    ensures IcsPush(h, r, w1) == IcsPush(h, r, w2)
    ensures IcsPush(h, r, w1) == Failure(if ValidDate(r.checkin) then DateError(r.checkout) else DateError(r.checkin))
  {
  }

  /** With an endpoint, the JSON adapter succeeds exactly when the server
      answers 200 or 201 with an empty or a JSON body. */
  lemma JsonSuccessIff(h: Hotel, r: HotelReservation, w: World)
    requires Truthy(h.pushEndpoint)
    ensures var req := Request(h.pushEndpoint.value, AuthHeaders("application/json", h.pushApiKey), JsonBody(r));
      var out := w.http(req);
      JsonPush(h, r, w).success <==> out.Reply? && Accepted(out.status) && (out.text == "" || out.json.Parsed?)
  {
  }

  /** Any non-2xx reply is reported with its status code, in the error text
      and in the response data. */
  lemma RejectedReplyIsReported(h: Hotel, r: HotelReservation, w: World, status: int, text: string, json: JsonParse)
    requires Truthy(h.pushEndpoint)
    requires !Accepted(status)
    requires w.http(Request(h.pushEndpoint.value, AuthHeaders("application/json", h.pushApiKey), JsonBody(r))) == Reply(status, text, json)
    ensures JsonPush(h, r, w) == PushResult(false, Some(HttpErrorText(status, text)), Some(HttpData(status, None)))
    ensures |HttpErrorText(status, text)| <= 7 + |IntToString(status)| + 200
  {
  }

  /** The e-mail adapter's guards, in order: the recipient before the
      credentials, both before anything is sent. */
  lemma EmailGuardOrder(h: Hotel, r: HotelReservation, w1: World, w2: World)
    requires w1.env == w2.env && ParsePort(w1.env.port.GetOr("587")).Some?
    requires !Truthy(h.pushEmail) || !Truthy(w1.env.user) || !Truthy(w1.env.password)
    ensures EmailPush(h, r, w1) == EmailPush(h, r, w2)
    ensures !Truthy(h.pushEmail) ==> EmailPush(h, r, w1) == Returned(Failure("Push email not configured"))
    ensures Truthy(h.pushEmail) ==> EmailPush(h, r, w1) == Returned(Failure("SMTP credentials not configured"))
  {
  }

  /** A delivered mail reports the recipient and the send time; the sender
      is `SMTP_FROM`, or the SMTP user when that is unset. */
  lemma EmailDelivery(h: Hotel, r: HotelReservation, w: World)
    requires ParsePort(w.env.port.GetOr("587")).Some?
    requires Truthy(h.pushEmail) && Truthy(w.env.user) && Truthy(w.env.password)
    ensures var mail := Mail(w.env.host.GetOr("smtp.gmail.com"), ParsePort(w.env.port.GetOr("587")).value,
                             w.env.from.GetOr(w.env.user.value), h.pushEmail.value,
                             "New Reservation: " + r.customerName.GetOr("None"), r);
      && (w.smtp(mail).None? ==> EmailPush(h, r, w) == Returned(PushResult(true, None, Some(MailData(h.pushEmail.value, w.nowIso)))))
      && (w.smtp(mail).Some? ==> EmailPush(h, r, w) == Returned(Failure(w.smtp(mail).value)))
      && (w.env.from.None? ==> mail.from == w.env.user.value)
  {
  }

  /** The default port setting reads as 587. */
  lemma DefaultPortIs587()
    ensures ParsePort("587") == Some(587)
  {
    assert AllDigits("587");
    assert "587"[..2] == "58" && "58"[..1] == "5" && "5"[..0] == "";
  }
}
