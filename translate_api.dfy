/** `POST /api/translate` (app/api/translate/route.ts): check the two fields,
    call `translateText`, and flatten its first translation. */
module TranslateApi {
  import opened Wrappers
  import Translator

  const MissingFields: string := "Missing text or targetLanguage"
  const Unknown: string := "unknown"

  /** The parsed request body; a field is `None` when absent. */
  datatype TranslateRequest = TranslateRequest(text: Option<string>, targetLanguage: Option<string>)

  datatype TranslateBody =
    | Translated(translatedText: string, detectedLanguage: string, targetLanguage: string)
    | TranslateError(error: ErrorText)
  datatype TranslateResponse = TranslateResponse(status: int, body: TranslateBody)

  /** The arguments `translateText` is called with, if it is called. */
  datatype TranslateCall = TranslateCall(text: string, targetLanguage: string)

  /** Lines 6-15: an unparsable body throws a `SyntaxError` (500 with its
      message); a missing or empty field is 400 and the translator is not
      called. */
  function Plan(req: Option<TranslateRequest>): (s: Step<TranslateCall, TranslateResponse>)
    ensures req.None? ==> s == Respond(TranslateResponse(500, TranslateError(EngineText)))
    ensures req.Some? && !(Truthy(req.value.text) && Truthy(req.value.targetLanguage)) ==>
      s == Respond(TranslateResponse(400, TranslateError(Text(MissingFields))))
    ensures s.Call? <==> req.Some? && Truthy(req.value.text) && Truthy(req.value.targetLanguage)
    ensures s.Call? ==> s.request == TranslateCall(req.value.text.value, req.value.targetLanguage.value)
  {
    match req
    case None => Respond(TranslateResponse(500, TranslateError(EngineText)))
    case Some(r) =>
      if !Truthy(r.text) || !Truthy(r.targetLanguage) then
        Respond(TranslateResponse(400, TranslateError(Text(MissingFields))))
      else Call(TranslateCall(r.text.value, r.targetLanguage.value))
  }

  /** `result.detectedLanguage?.language || "unknown"`. */
  function DetectedOrUnknown(d: Option<Translator.DetectedLanguage>): (lang: string)
    ensures lang != ""
    ensures d.Some? && Truthy(d.value.language) ==> lang == d.value.language.value
    ensures !(d.Some? && Truthy(d.value.language)) ==> lang == Unknown
  {
    if d.Some? && Truthy(d.value.language) then d.value.language.value else Unknown
  }

  /** Lines 17-31: a rejection becomes 500 with its message; a result
      becomes exactly the three fields, the text and the language from the
      first translation (the vendor's `to`, not the request's), and reading
      a missing result or an empty translation list throws a `TypeError`. */
  function Finish(settled: Translator.Settled): (r: TranslateResponse)
    ensures settled.Threw? ==> r == TranslateResponse(500, TranslateError(settled.message))
    ensures r.body.Translated? <==>
      settled.Returned? && settled.result.Some? && |settled.result.value.translations| > 0
    ensures r.body.Translated? ==>
      var first := settled.result.value.translations[0];
      r == TranslateResponse(200, Translated(first.text,
             DetectedOrUnknown(settled.result.value.detectedLanguage), first.to))
    ensures r.body.TranslateError? ==> r.status == 500
  {
    match settled
    case Threw(message) => TranslateResponse(500, TranslateError(message))
    case Returned(result) =>
      if result.None? || |result.value.translations| == 0 then
        TranslateResponse(500, TranslateError(EngineText))
      else
        var first := result.value.translations[0];
        TranslateResponse(200, Translated(first.text, DetectedOrUnknown(result.value.detectedLanguage), first.to))
  }

  /** The whole handler; `vendor` answers the translator's request. */
  function Post(req: Option<TranslateRequest>, env: Translator.TranslatorEnv,
                vendor: Translator.TranslatorRequest -> Translator.AzureOutcome): (r: TranslateResponse)
    ensures r.body.Translated? ==>
      && req.Some? && Truthy(req.value.text) && Truthy(req.value.targetLanguage)
      && Truthy(env.apiKey) && Truthy(env.region) && Truthy(env.endpoint)
    ensures r.body.TranslateError? ==> r.status != 200
    ensures Plan(req).Call? ==>
      r == Finish(Translator.TranslateText(Plan(req).request.text, Plan(req).request.targetLanguage, env, vendor))
  {
    match Plan(req)
    case Respond(r) => r
    case Call(c) => Finish(Translator.TranslateText(c.text, c.targetLanguage, env, vendor))
  }

  /** With valid fields but a missing credential the answer is 500 carrying
      the credential message, and the vendor is never asked. */
  lemma MissingCredentialsReachTheClient(text: string, targetLanguage: string, env: Translator.TranslatorEnv,
                                         vendor: Translator.TranslatorRequest -> Translator.AzureOutcome)
    requires text != "" && targetLanguage != ""
    requires !Truthy(env.apiKey) || !Truthy(env.region) || !Truthy(env.endpoint)
    ensures Post(Some(TranslateRequest(Some(text), Some(targetLanguage))), env, vendor)
      == TranslateResponse(500, TranslateError(Text(Translator.MissingCredentials)))
    ensures Translator.Plan(text, targetLanguage, env).Respond?
  {
  }

  /** Missing input is answered 400, never 500: the only 400 is for missing
      fields and the only successful status is 200. */
  lemma StatusCodes(req: Option<TranslateRequest>, env: Translator.TranslatorEnv,
                    vendor: Translator.TranslatorRequest -> Translator.AzureOutcome)
    ensures var r := Post(req, env, vendor);
      && r.status in {200, 400, 500}
      && (r.status == 400 <==> req.Some? && !(Truthy(req.value.text) && Truthy(req.value.targetLanguage)))
      && (r.status == 200 <==> r.body.Translated?)
  {
  }
}
