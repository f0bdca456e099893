/**
 * The Telegram webhook handler and the booking call it makes (main.py).
 * An update's text is stripped and dispatched on the command prefixes
 * `/start`, `/services` and `/book`, in that order; any other text is split
 * on commas into service, date, time, name and phone, and four or more
 * parts make a booking request for YCLIENTS. Replies are queued, not sent:
 * the handler's result is the list of replies and the booking request it
 * issues, and the answer YCLIENTS gives to that request is a parameter.
 */
module Webhook {
  import opened Wrappers
  import opened PyStr
  import opened JsonValues

  /** A Telegram message: the chat it came from and its text, which may be absent. */
  datatype Message = Message(chatId: int, text: Option<string>)

  /**
   * The value under "message" or "edited_message": absent or null, an empty
   * object (which Python treats as false), or a message.
   */
  datatype Slot = Missing | EmptyObject | Present(msg: Message)

  datatype Update = Update(message: Slot, editedMessage: Slot)

  /** The fields of a booking request, in message order. */
  datatype BookingRequest = BookingRequest(
    service: string, date: string, time: string, clientName: string, clientPhone: string)

  /** How the handler reads the stripped text. */
  datatype Command = Start | Services | Book | Booking(req: BookingRequest) | Other

  const StartCommand := "/start"
  const ServicesCommand := "/services"
  const BookCommand := "/book"

  /** `data.get("message") or data.get("edited_message")`; None when both are false. */
  function Incoming(u: Update): Option<Message> {
    if u.message.Present? then Some(u.message.msg)
    else if u.editedMessage.Present? then Some(u.editedMessage.msg)
    else None
  }

  /** `[p.strip() for p in text.split(",")]` */
  function Parts(t: string): seq<string> {
    var raw := Split(t, ',');
    seq(|raw|, i requires 0 <= i < |raw| => Strip(raw[i]))
  }

  /** No two of the command prefixes can start the same text. */
  lemma CommandsExclusive(t: string)
    ensures !(StartsWith(t, StartCommand) && StartsWith(t, ServicesCommand))
    ensures !(StartsWith(t, StartCommand) && StartsWith(t, BookCommand))
    ensures !(StartsWith(t, ServicesCommand) && StartsWith(t, BookCommand))
  {
    if StartsWith(t, StartCommand) {
      assert t[1] == StartCommand[1] && t[2] == StartCommand[2];
    } else if StartsWith(t, ServicesCommand) {
      assert t[1] == ServicesCommand[1];
    }
  }

  /**
   * The dispatch on the stripped text `t`: each command exactly when its
   * prefix starts the text, otherwise a booking request exactly when the
   * text has at least four comma-separated parts, each field the stripped
   * part and the phone the fifth part or "".
   */
  function Dispatch(t: string): (r: Command)
    ensures r == Start <==> StartsWith(t, StartCommand)
    ensures r == Services <==> StartsWith(t, ServicesCommand)
    ensures r == Book <==> StartsWith(t, BookCommand)
    ensures r.Booking? <==>
      !StartsWith(t, StartCommand) && !StartsWith(t, ServicesCommand) &&
      !StartsWith(t, BookCommand) && |Split(t, ',')| >= 4
    ensures r.Booking? ==>
      var raw := Split(t, ',');
      && r.req.service == Strip(raw[0]) && r.req.date == Strip(raw[1])
      && r.req.time == Strip(raw[2]) && r.req.clientName == Strip(raw[3])
      && r.req.clientPhone == (if |raw| >= 5 then Strip(raw[4]) else "")
  {
    CommandsExclusive(t);
    if StartsWith(t, StartCommand) then Start
    else if StartsWith(t, ServicesCommand) then Services
    else if StartsWith(t, BookCommand) then Book
    else
      var parts := Parts(t);
      if |parts| >= 4 then
        Booking(BookingRequest(parts[0], parts[1], parts[2], parts[3],
                               if |parts| >= 5 then parts[4] else ""))
      else Other
  }

  /** How the handler reads a message's raw text: stripped, then dispatched. */
  function Classify(raw: string): Command {
    Dispatch(Strip(raw))
  }

  /**
   * A command prefix wins over comma parsing: a message that starts with a
   * command is that command whatever follows, so "/book, a, b, c" is `/book`.
   */
  lemma CommandsWin(rest: string)
    ensures Classify(StartCommand + rest) == Start
    ensures Classify(ServicesCommand + rest) == Services
    ensures Classify(BookCommand + rest) == Book
  {
    StripKeepsPrefix(StartCommand + rest, StartCommand);
    StripKeepsPrefix(ServicesCommand + rest, ServicesCommand);
    StripKeepsPrefix(BookCommand + rest, BookCommand);
  }

  /**
   * A message "f0,f1,f2,f3[,f4,...]" whose fields hold no comma, whose ends
   * carry no white space and that does not start with '/' is a booking
   * request for the stripped fields; parts after the fifth are dropped.
   */
  lemma {:induction false} ParseBookingMessage(fields: seq<string>)
    requires |fields| >= 4
    requires forall i :: 0 <= i < |fields| ==> Lacks(fields[i], ',')
    requires Trimmed(Join(fields, ','))
    requires fields[0] == "" || fields[0][0] != '/'
    ensures Classify(Join(fields, ',')) == Booking(BookingRequest(
      Strip(fields[0]), Strip(fields[1]), Strip(fields[2]), Strip(fields[3]),
      if |fields| >= 5 then Strip(fields[4]) else ""))
  {
    var t := Join(fields, ',');
    StripTrimmed(t);
    SplitJoin(fields, ',');
    JoinFirstChar(fields);
    SlashlessIsNoCommand(t);
    ClassifySplit(t, fields);
  }

  /** Every command starts with '/', so text starting otherwise is none of them. */
  lemma SlashlessIsNoCommand(t: string)
    requires |t| > 0 && t[0] != '/'
    ensures !StartsWith(t, StartCommand) && !StartsWith(t, ServicesCommand) && !StartsWith(t, BookCommand)
  {
    FirstCharMismatch(t, StartCommand);
    FirstCharMismatch(t, ServicesCommand);
    FirstCharMismatch(t, BookCommand);
  }

  /** A comma-joined list of two or more fields starts with the first field's first character, or ','. */
  lemma {:induction false} JoinFirstChar(fields: seq<string>)
    requires |fields| >= 2
    ensures Join(fields, ',')[0] == if fields[0] == "" then ',' else fields[0][0]
  {
    assert Join(fields, ',') == fields[0] + [','] + Join(fields[1..], ',');
  }

  /** Stripped text that starts with no command and splits into `fields` is a booking request for them. */
  lemma {:induction false} ClassifySplit(t: string, fields: seq<string>)
    requires |fields| >= 4 && Split(t, ',') == fields
    requires !StartsWith(t, StartCommand) && !StartsWith(t, ServicesCommand) && !StartsWith(t, BookCommand)
    requires Strip(t) == t
    ensures Classify(t) == Booking(BookingRequest(
      Strip(fields[0]), Strip(fields[1]), Strip(fields[2]), Strip(fields[3]),
      if |fields| >= 5 then Strip(fields[4]) else ""))
  {
    var r := Dispatch(t);
    assert r.Booking?;
    assert Classify(t) == r;
  }

  /** YCLIENTS credentials and endpoint, from the environment. */
  datatype Credentials = Credentials(userToken: Option<string>, companyId: Option<string>, apiBase: string)

  /** An HTTP POST with a JSON body. */
  datatype HttpRequest = HttpRequest(url: string, headers: seq<(string, string)>, body: Json)

  /**
   * What the POST gave: a status, the raw text and the decoded body; or an
   * exception. A reply whose body does not decode as JSON raises inside the
   * `try` before its status is looked at, so it is a `Raised` outcome.
   */
  datatype HttpOutcome = Replied(status: int, text: string, body: Json) | Raised(error: string)

  const CredentialsError := "YCLIENTS credentials not set"

  /** The booking body: client name and phone, service name, and "date time". */
  function BookingBody(req: BookingRequest): (r: Json)
    ensures r.JObject? && r.fields.Keys == {"client", "service", "datetime"}
    ensures r.fields["datetime"] == JString(req.date + " " + req.time)
    ensures r.fields["client"] == JObject(map["name" := JString(req.clientName), "phone" := JString(req.clientPhone)])
    ensures r.fields["service"] == JObject(map["name" := JString(req.service)])
  {
    JObject(map[
      "client" := JObject(map["name" := JString(req.clientName), "phone" := JString(req.clientPhone)]),
      "service" := JObject(map["name" := JString(req.service)]),
      "datetime" := JString(req.date + " " + req.time)])
  }

  /**
   * The request `create_yclients_booking` sends: none without both a user
   * token and a company id, otherwise a POST to the company's bookings with
   * the bearer token.
   */
  function BookingCall(cred: Credentials, req: BookingRequest): (r: Option<HttpRequest>)
    ensures r.None? <==> !Truthy(cred.userToken) || !Truthy(cred.companyId)
    ensures r.Some? ==>
      && r.value.url == cred.apiBase + "/api/v1/companies/" + cred.companyId.value + "/bookings"
      && ("Authorization", "Bearer " + cred.userToken.value) in r.value.headers
      && r.value.body == BookingBody(req)
  {
    if !(Truthy(cred.userToken) && Truthy(cred.companyId)) then None
    else
      var headers := [("Authorization", "Bearer " + cred.userToken.value),
                      ("Content-Type", "application/json")];
      assert headers[0] in headers;
      Some(HttpRequest(cred.apiBase + "/api/v1/companies/" + cred.companyId.value + "/bookings",
                       headers, BookingBody(req)))
  }

  /**
   * The (success, response) pair `create_yclients_booking` returns: success
   * exactly when a request went out and was answered 200 or 201, with the
   * decoded body; otherwise an error record saying why.
   */
  function BookingResult(cred: Credentials, req: BookingRequest, outcome: HttpOutcome): (r: (bool, Json))
    ensures r.0 <==> BookingCall(cred, req).Some? && outcome.Replied? && (outcome.status == 200 || outcome.status == 201)
    ensures r.0 ==> r.1 == outcome.body
    ensures BookingCall(cred, req).None? ==> r.1 == JObject(map["error" := JString(CredentialsError)])
    ensures BookingCall(cred, req).Some? && outcome.Replied? && !r.0 ==>
      r.1 == JObject(map["status" := JNumber(outcome.status), "text" := JString(outcome.text), "json" := outcome.body])
    ensures BookingCall(cred, req).Some? && outcome.Raised? ==>
      r.1 == JObject(map["exception" := JString(outcome.error)])
  {
    if !(Truthy(cred.userToken) && Truthy(cred.companyId)) then
      (false, JObject(map["error" := JString(CredentialsError)]))
    else match outcome
      case Replied(status, text, body) =>
        if status == 200 || status == 201 then (true, body)
        else (false, JObject(map["status" := JNumber(status), "text" := JString(text), "json" := body]))
      case Raised(e) => (false, JObject(map["exception" := JString(e)]))
  }

  /** Where a reply goes: the user's chat or the administrator's. */
  datatype Target = ToChat(chatId: int) | ToAdmin(adminChatId: string)

  /** The replies, by meaning; their Russian wording is not modelled. */
  datatype Reply =
    | Greeting
    | ServiceList
    | BookingPrompt
    | Booked(service: string, date: string, time: string)
    | AdminNotice(req: BookingRequest, response: Json)
    | BookingFailed
    | Acknowledged

  datatype Send = Send(to: Target, reply: Reply)

  /** The environment the handler reads. */
  datatype Config = Config(cred: Credentials, adminChatId: Option<string>)

  /** What handling one update does: the replies queued, in order, and the booking request sent. */
  datatype Handled = Handled(sends: seq<Send>, request: Option<HttpRequest>)

  /** The replies to a booking request once YCLIENTS has answered. */
  function BookingReplies(chatId: int, req: BookingRequest, result: (bool, Json), adminChatId: Option<string>): (r: seq<Send>)
    ensures 1 <= |r| <= 2 && r[0].to == ToChat(chatId)
    ensures r[0].reply == (if result.0 then Booked(req.service, req.date, req.time) else BookingFailed)
    ensures |r| == 2 <==> result.0 && Truthy(adminChatId)
    ensures |r| == 2 ==> r[1] == Send(ToAdmin(adminChatId.value), AdminNotice(req, result.1))
  {
    if !result.0 then [Send(ToChat(chatId), BookingFailed)]
    else if Truthy(adminChatId) then
      [Send(ToChat(chatId), Booked(req.service, req.date, req.time)),
       Send(ToAdmin(adminChatId.value), AdminNotice(req, result.1))]
    else [Send(ToChat(chatId), Booked(req.service, req.date, req.time))]
  }

  /**
   * `telegram_webhook`: no reply without a message; otherwise one reply to
   * the sender, chosen by `Classify`, and for a booking request a copy to
   * the administrator when the booking succeeded and an admin chat is set.
   */
  function HandleUpdate(u: Update, cfg: Config, outcome: HttpOutcome): (r: Handled)
    ensures Incoming(u).None? ==> r == Handled([], None)
    ensures Incoming(u).Some? ==> 1 <= |r.sends| <= 2 && r.sends[0].to == ToChat(Incoming(u).value.chatId)
    ensures r.request.Some? <==>
      Incoming(u).Some? && Classify(Incoming(u).value.text.GetOr("")).Booking? &&
      Truthy(cfg.cred.userToken) && Truthy(cfg.cred.companyId)
    ensures |r.sends| == 2 <==>
      Incoming(u).Some? && Classify(Incoming(u).value.text.GetOr("")).Booking? &&
      BookingResult(cfg.cred, Classify(Incoming(u).value.text.GetOr("")).req, outcome).0 &&
      Truthy(cfg.adminChatId)
    ensures |r.sends| == 2 ==> r.sends[1].to == ToAdmin(cfg.adminChatId.value)
    ensures Incoming(u).Some? ==>
      var m := Incoming(u).value;
      var c := Classify(m.text.GetOr(""));
      (c == Start ==> r == Handled([Send(ToChat(m.chatId), Greeting)], None)) &&
      (c == Services ==> r == Handled([Send(ToChat(m.chatId), ServiceList)], None)) &&
      (c == Book ==> r == Handled([Send(ToChat(m.chatId), BookingPrompt)], None)) &&
      (c == Other ==> r == Handled([Send(ToChat(m.chatId), Acknowledged)], None)) &&
      (c.Booking? ==> r == Handled(
        BookingReplies(m.chatId, c.req, BookingResult(cfg.cred, c.req, outcome), cfg.adminChatId),
        BookingCall(cfg.cred, c.req)))
  {
    match Incoming(u)
    case None => Handled([], None)
    case Some(m) =>
      var chat := ToChat(m.chatId);
      match Classify(m.text.GetOr(""))
      case Start => Handled([Send(chat, Greeting)], None)
      case Services => Handled([Send(chat, ServiceList)], None)
      case Book => Handled([Send(chat, BookingPrompt)], None)
      case Other => Handled([Send(chat, Acknowledged)], None)
      case Booking(req) =>
        var result := BookingResult(cfg.cred, req, outcome);
        Handled(BookingReplies(m.chatId, req, result, cfg.adminChatId), BookingCall(cfg.cred, req))
  }

  /** An update whose message slots are both empty or absent gets no reply. */
  lemma NoMessageNoReply(u: Update, cfg: Config, outcome: HttpOutcome)
    requires !u.message.Present? && !u.editedMessage.Present?
    ensures HandleUpdate(u, cfg, outcome) == Handled([], None)
  {
  }

  /** A new message takes precedence over an edited one. */
  lemma MessageBeforeEdit(u: Update, cfg: Config, outcome: HttpOutcome)
    requires u.message.Present?
    ensures HandleUpdate(u, cfg, outcome) == HandleUpdate(Update(u.message, Missing), cfg, outcome)
  {
  }

  /** Without credentials a booking request fails, sends nothing to YCLIENTS and is reported to the user. */
  lemma MissingCredentialsFail(m: Message, cfg: Config, outcome: HttpOutcome)
    requires Classify(m.text.GetOr("")).Booking?
    requires !Truthy(cfg.cred.userToken) || !Truthy(cfg.cred.companyId)
    ensures HandleUpdate(Update(Present(m), Missing), cfg, outcome)
      == Handled([Send(ToChat(m.chatId), BookingFailed)], None)
  {
  }

  /** A successful booking confirms the service, date and time to the user. */
  lemma SuccessConfirms(m: Message, cfg: Config, status: int, text: string, body: Json)
    requires Classify(m.text.GetOr("")).Booking?
    requires Truthy(cfg.cred.userToken) && Truthy(cfg.cred.companyId)
    requires status == 200 || status == 201
    ensures var req := Classify(m.text.GetOr("")).req;
      HandleUpdate(Update(Present(m), Missing), cfg, Replied(status, text, body)).sends[0]
        == Send(ToChat(m.chatId), Booked(req.service, req.date, req.time))
  {
  }
}
