/** `POST /api/send-email` (app/api/send-email/route.ts): validate the three
    fields, check the Brevo configuration, send one transactional email whose
    HTML embeds the subject and message as they are, and relay the result. */
module EmailApi {
  import opened Wrappers
  import Text

  const BrevoUrl: string := "https://api.brevo.com/v3/smtp/email"
  const MissingFields: string := "Missing required fields: to, subject, message"
  const NotConfigured: string := "Email service not configured"
  const SendFailed: string := "Failed to send email"
  const SentMessage: string := "Email sent successfully"

  /** The parsed request body; a field is `None` when absent. */
  datatype EmailRequest = EmailRequest(to: Option<string>, subject: Option<string>, message: Option<string>)

  /** BREVO_API_KEY, BREVO_SENDER_EMAIL and BREVO_SENDER_NAME. */
  datatype BrevoEnv = BrevoEnv(apiKey: Option<string>, senderEmail: Option<string>, senderName: Option<string>)

  datatype Sender = Sender(name: string, email: string)
  datatype BrevoPayload = BrevoPayload(sender: Sender, to: seq<string>, subject: string, htmlContent: string)

  /** The one POST the handler makes: its URL, the `api-key` header and the JSON body. */
  datatype BrevoRequest = BrevoRequest(url: string, apiKey: string, payload: BrevoPayload)

  /** A vendor body that parsed as JSON: its `messageId` field and the whole
      value (forwarded as `details`), written as JSON text. The value may be
      `null`, written "null": reading `messageId` from it throws. */
  datatype BrevoJson = BrevoJson(messageId: Option<string>, value: string)

  /** What `fetch` did: threw, or answered with a status and a body (`None`
      when it is not JSON, which makes `response.json()` throw). */
  datatype BrevoOutcome = BrevoThrew | BrevoReplied(status: int, body: Option<BrevoJson>)

  datatype EmailBody =
    | Sent(messageId: Option<string>, message: string)
    | Failed(error: string, details: Option<string>)
  datatype EmailResponse = EmailResponse(status: int, body: EmailBody)

  /** The fixed parts of the HTML template around the three insertions (the
      style sheet and the static text are not reproduced). */
  const HtmlStart: string := "<!DOCTYPE html><html lang=\"en\"><head><meta charset=\"UTF-8\">"
  const HtmlBeforeHeading: string := "</head><body><div class=\"container\">"
  const HtmlBeforeMessage: string := "<div class=\"message-section\">"
  const MessageOpen: string := "<div class=\"message-content\">"
  const HtmlEnd: string := "</div></div></body></html>"

  function TitleElement(subject: string): string { "<title>" + subject + "</title>" }
  function HeadingElement(subject: string): string { "<h1>" + subject + "</h1>" }
  function MessageElement(message: string): string { MessageOpen + message + "</div>" }

  /** The HTML body: the subject in the title and the heading, the message in
      the message block, none of them escaped. */
  function HtmlContent(subject: string, message: string): (h: string)
    ensures Text.Contains(h, TitleElement(subject))
    ensures Text.Contains(h, HeadingElement(subject))
    ensures Text.Contains(h, MessageElement(message))
  {
    var tail := HtmlBeforeMessage + (MessageElement(message) + HtmlEnd);
    var fromHeading := HeadingElement(subject) + tail;
    var fromTitle := TitleElement(subject) + (HtmlBeforeHeading + fromHeading);
    var h := HtmlStart + fromTitle;
    Text.ContainsPrefix(TitleElement(subject), HtmlBeforeHeading + fromHeading);
    Text.ContainsAfter(HtmlStart, fromTitle, TitleElement(subject));
    Text.ContainsPrefix(HeadingElement(subject), tail);
    Text.ContainsAfter(HtmlBeforeHeading, fromHeading, HeadingElement(subject));
    Text.ContainsAfter(TitleElement(subject), HtmlBeforeHeading + fromHeading, HeadingElement(subject));
    Text.ContainsAfter(HtmlStart, fromTitle, HeadingElement(subject));
    Text.ContainsPrefix(MessageElement(message), HtmlEnd);
    Text.ContainsAfter(HtmlBeforeMessage, MessageElement(message) + HtmlEnd, MessageElement(message));
    Text.ContainsAfter(HeadingElement(subject), tail, MessageElement(message));
    Text.ContainsAfter(HtmlBeforeHeading, fromHeading, MessageElement(message));
    Text.ContainsAfter(TitleElement(subject), HtmlBeforeHeading + fromHeading, MessageElement(message));
    Text.ContainsAfter(HtmlStart, fromTitle, MessageElement(message));
    h
  }

  /** Lines 4-41: an unparsable body is an exception (500); a missing or
      empty field is 400, before the configuration is looked at; missing
      configuration is 500 with no request made; otherwise one request with
      the configured sender, the single recipient `to` and the subject as
      given. */
  function Plan(req: Option<EmailRequest>, env: BrevoEnv): (s: Step<BrevoRequest, EmailResponse>)
    ensures req.None? ==> s == Respond(EmailResponse(500, Failed(SendFailed, None)))
    ensures req.Some? && !(Truthy(req.value.to) && Truthy(req.value.subject) && Truthy(req.value.message)) ==>
      s == Respond(EmailResponse(400, Failed(MissingFields, None)))
    ensures s.Call? <==>
      && req.Some? && Truthy(req.value.to) && Truthy(req.value.subject) && Truthy(req.value.message)
      && Truthy(env.apiKey) && Truthy(env.senderEmail) && Truthy(env.senderName)
    ensures s.Respond? && s.response.status == 500 && req.Some? ==> s.response.body == Failed(NotConfigured, None)
    ensures && req.Some? && Truthy(req.value.to) && Truthy(req.value.subject) && Truthy(req.value.message)
            && !(Truthy(env.apiKey) && Truthy(env.senderEmail) && Truthy(env.senderName)) ==>
      s == Respond(EmailResponse(500, Failed(NotConfigured, None)))
    ensures s.Call? ==>
      && s.request.url == BrevoUrl && s.request.apiKey == env.apiKey.value
      && s.request.payload.sender == Sender(env.senderName.value, env.senderEmail.value)
      && s.request.payload.to == [req.value.to.value]
      && s.request.payload.subject == req.value.subject.value
      && s.request.payload.htmlContent == HtmlContent(req.value.subject.value, req.value.message.value)
  {
    match req
    case None => Respond(EmailResponse(500, Failed(SendFailed, None)))
    case Some(r) =>
      if !Truthy(r.to) || !Truthy(r.subject) || !Truthy(r.message) then
        Respond(EmailResponse(400, Failed(MissingFields, None)))
      else if !Truthy(env.apiKey) || !Truthy(env.senderEmail) || !Truthy(env.senderName) then
        Respond(EmailResponse(500, Failed(NotConfigured, None)))
      else
        Call(BrevoRequest(BrevoUrl, env.apiKey.value,
          BrevoPayload(Sender(env.senderName.value, env.senderEmail.value), [r.to.value],
                       r.subject.value, HtmlContent(r.subject.value, r.message.value))))
  }

  /** Lines 175-195: a non-ok answer keeps the vendor's status and forwards
      its body as `details`; success answers with the vendor's `messageId`;
      an exception (the fetch, or a body that is not JSON) is 500. */
  function Finish(o: BrevoOutcome): (r: EmailResponse)
    ensures o.BrevoReplied? && !IsOk(o.status) && o.body.Some? ==>
      r == EmailResponse(o.status, Failed(SendFailed, Some(o.body.value.value)))
    ensures o.BrevoReplied? && IsOk(o.status) && o.body.Some? && o.body.value.value != "null" ==>
      r == EmailResponse(200, Sent(o.body.value.messageId, SentMessage))
    ensures o.BrevoThrew? || o.body.None? || (IsOk(o.status) && o.body.value.value == "null") ==>
      r == EmailResponse(500, Failed(SendFailed, None))
  {
    match o
    case BrevoThrew => EmailResponse(500, Failed(SendFailed, None))
    case BrevoReplied(status, body) =>
      if body.None? then EmailResponse(500, Failed(SendFailed, None))
      else if !IsOk(status) then EmailResponse(status, Failed(SendFailed, Some(body.value.value)))
      else if body.value.value == "null" then EmailResponse(500, Failed(SendFailed, None))
      else EmailResponse(200, Sent(body.value.messageId, SentMessage))
  }

  /** The whole handler; `vendor` answers the one request it makes. */
  function Post(req: Option<EmailRequest>, env: BrevoEnv, vendor: BrevoRequest -> BrevoOutcome): (r: EmailResponse)
    ensures r == EmailResponse(400, Failed(MissingFields, None)) <==>
      req.Some? && !(Truthy(req.value.to) && Truthy(req.value.subject) && Truthy(req.value.message))
    ensures r == EmailResponse(500, Failed(NotConfigured, None)) <==>
      && req.Some? && Truthy(req.value.to) && Truthy(req.value.subject) && Truthy(req.value.message)
      && !(Truthy(env.apiKey) && Truthy(env.senderEmail) && Truthy(env.senderName))
  {
    match Plan(req, env)
    case Respond(r) => r
    case Call(request) => Finish(vendor(request))
  }

  /** Success is reported exactly when the vendor accepted the message, and
      then with status 200; every failure carries "Failed to send email"
      unless the input or the configuration was at fault. */
  lemma SentIffVendorAccepted(req: Option<EmailRequest>, env: BrevoEnv, vendor: BrevoRequest -> BrevoOutcome)
    ensures var r := Post(req, env, vendor);
      && (r.body.Sent? <==>
          Plan(req, env).Call? && var o := vendor(Plan(req, env).request);
          o.BrevoReplied? && IsOk(o.status) && o.body.Some? && o.body.value.value != "null")
      && (r.body.Sent? ==> r.status == 200)
      && (r.body.Failed? && r.status != 400 && r.body.error != NotConfigured ==> r.body.error == SendFailed)
  {
  }
}
