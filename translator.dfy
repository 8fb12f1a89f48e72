/** `translateText` (lib/translator.ts): one call to the Azure Translator
    `translate` operation, version 3.0. */
module Translator {
  import opened Wrappers
  import Text

  const MissingCredentials: string := "Azure Translator API credentials are missing"

  /** NEXT_PUBLIC_TRANSLATOR_API_KEY, _REGION and _ENDPOINT. */
  datatype TranslatorEnv = TranslatorEnv(apiKey: Option<string>, region: Option<string>, endpoint: Option<string>)

  /** One element of the JSON array sent: `{ text }`. */
  datatype TextItem = TextItem(text: string)

  /** The one POST the function makes: the URL, the two credential headers
      and the JSON body. */
  datatype TranslatorRequest = TranslatorRequest(url: string, apiKey: string, region: string, body: seq<TextItem>)

  datatype DetectedLanguage = DetectedLanguage(language: Option<string>, score: real)
  datatype Translation = Translation(text: string, to: string)

  /** One element of the vendor's answer. */
  datatype AzureResult = AzureResult(detectedLanguage: Option<DetectedLanguage>, translations: seq<Translation>)

  /** A vendor body that parsed as JSON: its text as `JSON.stringify`
      writes it again ("null" for `null`), and `data[0]` read as a result
      object; `data[0]` throws on `null`. `first` is `None` when `data[0]` is undefined or is not an
      object with a `translations` array (the first character of a string
      body, say); the translate route fails alike on all of those, since
      reading `translations[0]` from them throws. */
  datatype AzureJson = AzureJson(serialized: string, first: Option<AzureResult>)

  /** What `fetch` did: threw, or answered with a status and a body (`None`
      when it is not JSON). */
  datatype AzureOutcome = AzureThrew | AzureReplied(status: nat, body: Option<AzureJson>)

  /** How the async function settles: rejected with an error message, or
      resolved with `data[0]`, `None` standing for `undefined`. */
  datatype Settled = Threw(message: ErrorText) | Returned(result: Option<AzureResult>)

  /** Lines 11-25: all three credentials must be non-empty or nothing is
      sent; the target language goes into the URL without encoding and the
      body is a one-element array holding the text. */
  function Plan(text: string, targetLanguage: string, env: TranslatorEnv): (s: Step<TranslatorRequest, Settled>)
    ensures s.Respond? <==> !(Truthy(env.apiKey) && Truthy(env.region) && Truthy(env.endpoint))
    ensures s.Respond? ==> s.response == Threw(Text(MissingCredentials))
    ensures s.Call? ==>
      && s.request.url == env.endpoint.value + "/translate?api-version=3.0&to=" + targetLanguage
      && s.request.apiKey == env.apiKey.value && s.request.region == env.region.value
      && s.request.body == [TextItem(text)]
  {
    if !Truthy(env.apiKey) || !Truthy(env.region) || !Truthy(env.endpoint) then
      Respond(Threw(Text(MissingCredentials)))
    else
      Call(TranslatorRequest(env.endpoint.value + "/translate?api-version=3.0&to=" + targetLanguage,
                             env.apiKey.value, env.region.value, [TextItem(text)]))
  }

  /** "Translation failed: <status> - <JSON of the error body>", with "{}"
      when the body is not JSON. */
  function FailureMessage(status: nat, body: Option<AzureJson>): (m: string)
    ensures var details := if body.Some? then body.value.serialized else "{}";
      && |m| == 20 + |Text.Decimal(status)| + 3 + |details|
      && m[..20] == "Translation failed: "
      && m[20..20 + |Text.Decimal(status)|] == Text.Decimal(status)
      && m[20 + |Text.Decimal(status)|..23 + |Text.Decimal(status)|] == " - "
      && m[|m| - |details|..] == details
  {
    "Translation failed: " + Text.Decimal(status) + " - " + (if body.Some? then body.value.serialized else "{}")
  }

  /** Lines 27-35: a non-ok answer rejects with `FailureMessage`; an ok one
      resolves with the first element of the array. */
  function Finish(o: AzureOutcome): (r: Settled)
    ensures o.AzureReplied? && !IsOk(o.status) ==> r == Threw(Text(FailureMessage(o.status, o.body)))
    ensures o.AzureReplied? && IsOk(o.status) && o.body.Some? && o.body.value.serialized != "null" ==>
      r == Returned(o.body.value.first)
    ensures o.AzureThrew? || (IsOk(o.status) && (o.body.None? || o.body.value.serialized == "null")) ==>
      r == Threw(EngineText)
  {
    match o
    case AzureThrew => Threw(EngineText)
    case AzureReplied(status, body) =>
      if !IsOk(status) then Threw(Text(FailureMessage(status, body)))
      else if body.None? || body.value.serialized == "null" then Threw(EngineText)
      else Returned(body.value.first)
  }

  /** The whole function; `vendor` answers the one request it makes. */
  function TranslateText(text: string, targetLanguage: string, env: TranslatorEnv,
                         vendor: TranslatorRequest -> AzureOutcome): (r: Settled)
    ensures r == Threw(Text(MissingCredentials)) <==> !(Truthy(env.apiKey) && Truthy(env.region) && Truthy(env.endpoint))
    ensures r.Returned? ==> Truthy(env.apiKey) && Truthy(env.region) && Truthy(env.endpoint)
    ensures Plan(text, targetLanguage, env).Call? ==> r == Finish(vendor(Plan(text, targetLanguage, env).request))
  {
    match Plan(text, targetLanguage, env)
    case Respond(settled) => settled
    case Call(request) =>
      var o := vendor(request);
      assert o.AzureReplied? ==> FailureMessage(o.status, o.body)[0] == 'T' != MissingCredentials[0];
      Finish(o)
  }

  /** Failure messages name the status, so two different non-ok statuses
      never give the same message. */
  lemma FailureMessagesNameTheStatus(s1: nat, s2: nat, body: Option<AzureJson>)
    requires s1 != s2
    ensures FailureMessage(s1, body) != FailureMessage(s2, body)
  {
    var d1, d2 := Text.Decimal(s1), Text.Decimal(s2);
    Text.DecimalInjective(s1, s2);
    if |d1| == |d2| {
      assert FailureMessage(s1, body)[20..20 + |d1|] == d1;
      assert FailureMessage(s2, body)[20..20 + |d2|] == d2;
    }
  }
}
