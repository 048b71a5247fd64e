/** The provider adapter: `translate` short-circuits blank text and dispatches
    to DeepL or Google Translate; each provider call runs its pre-checks,
    shapes a request body, interprets the HTTP reply, and coerces every error
    raised in its try block that does not carry the provider's tag into one
    generic connectivity message.

    The network is a parameter: `transport` maps the request the adapter
    sends to the reply it gets back. The API keys are parameters too. */
module TranslationService {
  import opened JsText

  datatype Provider = DeepL | Google

  /** The two API keys as the process environment holds them
      (DEEPL_API_KEY and GOOGLE_API_KEY). */
  datatype Keys = Keys(deepl: Option<string>, google: Option<string>)

  /** The outcome of a provider call: the translated text, or the message of
      the error it throws. */
  datatype Result = Ok(text: string) | Err(message: string)

  // ---------------------------------------------------------------------------
  // Requests

  /** DeepL's JSON body: `text`, `target_lang` and the optional `source_lang`. */
  datatype DeepLBody = DeepLBody(text: seq<string>, targetLang: string, sourceLang: Option<string>)

  /** Google's JSON body: `q`, `target`, the optional `source` and `format`. */
  datatype GoogleBody = GoogleBody(q: string, target: string, source: Option<string>, format: string)

  /** What goes on the wire: the body, and the key that authenticates it (a
      DeepL authorization header, a Google `key` query parameter). */
  datatype Request =
    | DeepLPost(authKey: string, deepl: DeepLBody)
    | GooglePost(apiKey: string, google: GoogleBody)

  // ---------------------------------------------------------------------------
  // Replies

  /** What `fetch` gives back: it rejects, or it resolves to a response. */
  datatype Reply = NetworkFailure | Response(status: nat, body: Json)

  /** What `response.json()` makes of the body: it rejects, it yields `null`,
      or it yields an object. */
  datatype Json = Unparseable | Null | Parsed(doc: Doc)

  /** The members of a response object that the two providers read. An
      `Option<string>` is `None` when the member is absent, `null` or another
      falsy non-string value. */
  datatype Doc = Doc(
    message: Option<string>,                // DeepL error body: `message`
    translations: Option<seq<DeepLEntry>>,  // DeepL success body: `translations`
    error: Option<GoogleError>,             // Google error body: `error`
    data: Option<GoogleData>)               // Google success body: `data`

  datatype DeepLEntry = DeepLEntry(text: Option<string>)
  datatype GoogleError = GoogleError(message: Option<string>)
  datatype GoogleData = GoogleData(translations: Option<seq<GoogleEntry>>)
  datatype GoogleEntry = GoogleEntry(translatedText: Option<string>)

  /** `response.ok`: a status in the range 200 to 299. */
  predicate IsOkStatus(status: nat)
  {
    200 <= status <= 299
  }

  // ---------------------------------------------------------------------------
  // The try block and its catch

  /** What a thrown value is: an Error the adapter raised with its own
      message, or a TypeError, SyntaxError or fetch rejection raised by the
      runtime, whose message is the engine's and never starts with a provider
      tag. */
  datatype Thrown = Raised(message: string) | EngineError

  /** The common openings of the invalid-response and the generic messages. */
  const InvalidResponseHead := "Translation failed: "
  const GenericHead := "Failed to communicate with the "

  /** How a try block completes. */
  datatype Completion = Returned(text: string) | Threw(thrown: Thrown)

  /** The catch block of both providers: an error whose message starts with
      `prefix` is rethrown as it is, any other is replaced by `generic`. */
  function CatchAndRethrow(prefix: string, generic: string, c: Completion): (r: Result)
    ensures c.Returned? ==> r == Ok(c.text)
    ensures c.Threw? ==> r.Err?
    ensures r.Err? ==> prefix <= r.message || r.message == generic
    ensures c.Threw? && c.thrown.Raised? && prefix <= c.thrown.message ==> r == Err(c.thrown.message)
    ensures c.Threw? && !(c.thrown.Raised? && prefix <= c.thrown.message) ==> r == Err(generic)
  {
    match c
    case Returned(text) => Ok(text)
    case Threw(Raised(m)) => if prefix <= m then Err(m) else Err(generic)
    case Threw(EngineError) => Err(generic)
  }

  // ---------------------------------------------------------------------------
  // Google Translate

  const GoogleMissingKey := "Google Translate API key is not configured. Please set the GOOGLE_API_KEY environment variable."
  const GooglePrefix := "Google Translate API Error"
  const GoogleInvalidResponse := InvalidResponseHead + "The Google Translate API returned an invalid response."
  const GoogleGeneric := GenericHead + "Google Translate service. Check your connection or API key."

  /** Google's request body: the text and codes as given, plain-text format,
      and a source code only when the source is not `auto`. */
  function GoogleRequestBody(text: string, src: string, tgt: string): (b: GoogleBody)
    ensures b.q == text && b.target == tgt && b.format == "text"
    ensures b.source.None? <==> src == "auto"
    ensures b.source.Some? ==> b.source.value == src
  {
    var body := GoogleBody(text, tgt, None, "text");
    if src != "auto" then body.(source := Some(src)) else body
  }

  /** "Google Translate API Error (<status>)", followed by ": <detail>" when
      the error body carries a message. */
  function GoogleHttpErrorMessage(status: nat, detail: Option<string>): (m: string)
    ensures GooglePrefix <= m
    ensures Truthy(detail) ==> m == GooglePrefix + " (" + NatToDecimal(status) + "): " + detail.value
    ensures !Truthy(detail) ==> m == GooglePrefix + " (" + NatToDecimal(status) + ")"
  {
    var errorMessage := GooglePrefix + " (" + NatToDecimal(status) + ")";
    if Truthy(detail) then errorMessage + ": " + detail.value else errorMessage
  }

  /** `data?.error?.message`: the error member's message of a parsed body,
      and nothing for a `null` body or one without an error member. */
  function GoogleErrorDetail(body: Json): (d: Option<string>)
    ensures d.Some? ==> body.Parsed? && body.doc.error.Some? && d == body.doc.error.value.message
    ensures body.Parsed? && body.doc.error.Some? ==> d == body.doc.error.value.message
  {
    if body.Parsed? && body.doc.error.Some? then body.doc.error.value.message else None
  }

  /** `data?.data?.translations?.[0]?.translatedText`: the first entry's text
      when the chain of members up to it is present and the list is not empty,
      and nothing otherwise. */
  function GoogleTranslatedText(body: Json): (t: Option<string>)
    ensures t.Some? ==>
      && body.Parsed? && body.doc.data.Some? && body.doc.data.value.translations.Some?
      && |body.doc.data.value.translations.value| > 0
      && t == body.doc.data.value.translations.value[0].translatedText
    ensures body.Parsed? && body.doc.data.Some? && body.doc.data.value.translations.Some?
            && |body.doc.data.value.translations.value| > 0 ==>
      t == body.doc.data.value.translations.value[0].translatedText
  {
    if body.Parsed? && body.doc.data.Some? && body.doc.data.value.translations.Some?
       && |body.doc.data.value.translations.value| > 0
    then body.doc.data.value.translations.value[0].translatedText
    else None
  }

  /** The try block of the Google call, from the reply. The body is parsed
      before the status is looked at. */
  function GoogleExchange(reply: Reply): (c: Completion)
    ensures c == Threw(EngineError) <==> reply.NetworkFailure? || reply.body.Unparseable?
    ensures c.Returned? ==>
      reply.Response? && IsOkStatus(reply.status) && GoogleTranslatedText(reply.body) == Some(c.text) && c.text != ""
    ensures c.Threw? && c.thrown.Raised? ==>
      reply.Response? && !reply.body.Unparseable? &&
      c.thrown.message == if IsOkStatus(reply.status) then GoogleInvalidResponse
                          else GoogleHttpErrorMessage(reply.status, GoogleErrorDetail(reply.body))
    ensures reply.Response? && !reply.body.Unparseable? && IsOkStatus(reply.status) ==>
      (c.Returned? <==> Truthy(GoogleTranslatedText(reply.body)))
  {
    match reply
    case NetworkFailure => Threw(EngineError)
    case Response(status, body) =>
      if body.Unparseable? then Threw(EngineError)
      else if !IsOkStatus(status) then Threw(Raised(GoogleHttpErrorMessage(status, GoogleErrorDetail(body))))
      else
        var translatedText := GoogleTranslatedText(body);
        if !Truthy(translatedText) then Threw(Raised(GoogleInvalidResponse))
        else Returned(translatedText.value)
  }

  /** Google's contract: a missing key fails before anything is sent;
      otherwise an unparseable body or a network failure gives the generic
      message, an error status gives the tagged HTTP error, and a success
      status gives the first translated text or, when that is missing or
      empty, the generic message (the invalid-response text never escapes). */
  function TranslateWithGoogle(text: string, src: string, tgt: string, apiKey: Option<string>,
                               transport: Request -> Reply): (r: Result)
    ensures !Truthy(apiKey) ==> r == Err(GoogleMissingKey)
    ensures Truthy(apiKey) ==>
      var reply := transport(GooglePost(apiKey.value, GoogleRequestBody(text, src, tgt)));
      && (reply.NetworkFailure? ==> r == Err(GoogleGeneric))
      && (reply.Response? && reply.body.Unparseable? ==> r == Err(GoogleGeneric))
      && (reply.Response? && !reply.body.Unparseable? && !IsOkStatus(reply.status) ==>
            r == Err(GoogleHttpErrorMessage(reply.status, GoogleErrorDetail(reply.body))))
      && (reply.Response? && !reply.body.Unparseable? && IsOkStatus(reply.status) ==>
            r == if Truthy(GoogleTranslatedText(reply.body)) then Ok(GoogleTranslatedText(reply.body).value)
                 else Err(GoogleGeneric))
    ensures r.Ok? ==> r.text != ""
    ensures r.Err? ==> r.message == GoogleMissingKey || r.message == GoogleGeneric || GooglePrefix <= r.message
    ensures r != Err(GoogleInvalidResponse)
  {
    if !Truthy(apiKey) then Err(GoogleMissingKey)
    else
      var body := GoogleRequestBody(text, src, tgt);
      var reply := transport(GooglePost(apiKey.value, body));
      InvalidResponseIsUntagged();
      CatchAndRethrow(GooglePrefix, GoogleGeneric, GoogleExchange(reply))
  }

  // ---------------------------------------------------------------------------
  // DeepL

  /** The codes the free DeepL API rejects: Arabic and Hindi. */
  const DeepLUnsupportedCodes := ["ar", "hi"]
  const DeepLUnsupportedLanguage := "DeepL does not support the selected language (Arabic/Hindi). Please choose another language or provider."
  const DeepLMissingKey := "DeepL API key is not configured. Please set the DEEPL_API_KEY environment variable."
  const DeepLPrefix := "DeepL API Error"
  const DeepLInvalidResponse := InvalidResponseHead + "The DeepL API returned an invalid response."
  const DeepLGeneric := GenericHead + "DeepL translation service. Check your connection or API key."

  predicate IsUnsupportedByDeepL(src: string, tgt: string)
  {
    src in DeepLUnsupportedCodes || tgt in DeepLUnsupportedCodes
  }

  /** DeepL rejects a request exactly when Arabic or Hindi is on either side. */
  lemma UnsupportedIsArabicOrHindi(src: string, tgt: string)
    ensures IsUnsupportedByDeepL(src, tgt) <==> src == "ar" || src == "hi" || tgt == "ar" || tgt == "hi"
  {
  }

  /** DeepL's request body: the text as a one-element list, upper-cased codes,
      and a source code only when the source is not `auto`. */
  function DeepLRequestBody(text: string, src: string, tgt: string): (b: DeepLBody)
    ensures b.text == [text]
    ensures b.targetLang == ToUpperAscii(tgt)
    ensures b.sourceLang.None? <==> src == "auto"
    ensures b.sourceLang.Some? ==> b.sourceLang.value == ToUpperAscii(src)
  {
    var body := DeepLBody([text], ToUpperAscii(tgt), None);
    if src != "auto" then body.(sourceLang := Some(ToUpperAscii(src))) else body
  }

  /** "DeepL API Error (<status>):" followed by " <message>", " Unknown error."
      when the error body has no message, or " Could not parse error
      response." when reading the body's `message` fails. */
  function DeepLHttpErrorMessage(status: nat, body: Json): (m: string)
    ensures DeepLPrefix <= m
    ensures var head := DeepLPrefix + " (" + NatToDecimal(status) + "):";
      && (body.Parsed? && Truthy(body.doc.message) ==> m == head + " " + body.doc.message.value)
      && (body.Parsed? && !Truthy(body.doc.message) ==> m == head + " Unknown error.")
      && (!body.Parsed? ==> m == head + " Could not parse error response.")
  {
    var errorMessage := DeepLPrefix + " (" + NatToDecimal(status) + "):";
    match body
    case Parsed(doc) => errorMessage + " " + (if Truthy(doc.message) then doc.message.value else "Unknown error.")
    case _ => errorMessage + " Could not parse error response."  // response.json() rejected, or `null.message`
  }

  /** `data.translations[0].text`, when `translations` is present and not
      empty, and nothing otherwise. */
  function DeepLTranslatedText(doc: Doc): (t: Option<string>)
    ensures t.Some? ==>
      doc.translations.Some? && |doc.translations.value| > 0 && t == doc.translations.value[0].text
    ensures doc.translations.Some? && |doc.translations.value| > 0 ==> t == doc.translations.value[0].text
  {
    if doc.translations.None? || |doc.translations.value| == 0 then None
    else doc.translations.value[0].text
  }

  /** The try block of the DeepL call, from the reply. The status is looked
      at before the body is parsed. */
  function DeepLExchange(reply: Reply): (c: Completion)
    ensures c == Threw(EngineError) <==>
      reply.NetworkFailure? || (IsOkStatus(reply.status) && !reply.body.Parsed?)
    ensures c.Returned? ==>
      reply.Response? && IsOkStatus(reply.status) && reply.body.Parsed?
      && DeepLTranslatedText(reply.body.doc) == Some(c.text) && c.text != ""
    ensures c.Threw? && c.thrown.Raised? ==>
      reply.Response? &&
      c.thrown.message == if IsOkStatus(reply.status) then DeepLInvalidResponse
                          else DeepLHttpErrorMessage(reply.status, reply.body)
    ensures reply.Response? && IsOkStatus(reply.status) && reply.body.Parsed? ==>
      (c.Returned? <==> Truthy(DeepLTranslatedText(reply.body.doc)))
  {
    match reply
    case NetworkFailure => Threw(EngineError)
    case Response(status, body) =>
      if !IsOkStatus(status) then Threw(Raised(DeepLHttpErrorMessage(status, body)))
      else match body
        case Unparseable => Threw(EngineError)   // response.json() rejects
        case Null => Threw(EngineError)          // `null.translations` is a TypeError
        case Parsed(doc) =>
          if !Truthy(DeepLTranslatedText(doc)) then Threw(Raised(DeepLInvalidResponse))
          else Returned(DeepLTranslatedText(doc).value)
  }

  /** DeepL's contract: Arabic or Hindi on either side fails first, whatever
      the key and the network; then a missing key fails; otherwise an error
      status gives the tagged HTTP error, a success status gives the first
      translation's text, and everything else (network failure, unreadable
      body, missing or empty translation) gives the generic message. */
  function TranslateWithDeepL(text: string, src: string, tgt: string, apiKey: Option<string>,
                              transport: Request -> Reply): (r: Result)
    ensures IsUnsupportedByDeepL(src, tgt) ==> r == Err(DeepLUnsupportedLanguage)
    ensures !IsUnsupportedByDeepL(src, tgt) && !Truthy(apiKey) ==> r == Err(DeepLMissingKey)
    ensures !IsUnsupportedByDeepL(src, tgt) && Truthy(apiKey) ==>
      var reply := transport(DeepLPost(apiKey.value, DeepLRequestBody(text, src, tgt)));
      && (reply.NetworkFailure? ==> r == Err(DeepLGeneric))
      && (reply.Response? && !IsOkStatus(reply.status) ==> r == Err(DeepLHttpErrorMessage(reply.status, reply.body)))
      && (reply.Response? && IsOkStatus(reply.status) && !reply.body.Parsed? ==> r == Err(DeepLGeneric))
      && (reply.Response? && IsOkStatus(reply.status) && reply.body.Parsed? ==>
            r == if Truthy(DeepLTranslatedText(reply.body.doc)) then Ok(DeepLTranslatedText(reply.body.doc).value)
                 else Err(DeepLGeneric))
    ensures r.Ok? ==> r.text != ""
    ensures r.Err? ==> r.message == DeepLUnsupportedLanguage || r.message == DeepLMissingKey
                       || r.message == DeepLGeneric || DeepLPrefix <= r.message
    ensures r != Err(DeepLInvalidResponse)
  {
    if IsUnsupportedByDeepL(src, tgt) then Err(DeepLUnsupportedLanguage)
    else if !Truthy(apiKey) then Err(DeepLMissingKey)
    else
      var body := DeepLRequestBody(text, src, tgt);
      var reply := transport(DeepLPost(apiKey.value, body));
      InvalidResponseIsUntagged();
      CatchAndRethrow(DeepLPrefix, DeepLGeneric, DeepLExchange(reply))
  }

  /** The invalid-response errors start with "Translation failed", not with a
      provider tag, so the catch blocks turn them into the generic message. */
  lemma InvalidResponseIsUntagged()
    ensures !(DeepLPrefix <= DeepLInvalidResponse) && DeepLInvalidResponse != DeepLGeneric
    ensures !(GooglePrefix <= GoogleInvalidResponse) && GoogleInvalidResponse != GoogleGeneric
    ensures CatchAndRethrow(DeepLPrefix, DeepLGeneric, Threw(Raised(DeepLInvalidResponse))) == Err(DeepLGeneric)
    ensures CatchAndRethrow(GooglePrefix, GoogleGeneric, Threw(Raised(GoogleInvalidResponse))) == Err(GoogleGeneric)
  {
    assert DeepLInvalidResponse[0] == GoogleInvalidResponse[0] == InvalidResponseHead[0] == 'T';
    assert DeepLGeneric[0] == GoogleGeneric[0] == GenericHead[0] == 'F';
  }

  // ---------------------------------------------------------------------------
  // translate

  /** The messages a call of `provider` can fail with. */
  predicate IsProviderError(provider: Provider, m: string)
  {
    match provider
    case DeepL => m == DeepLUnsupportedLanguage || m == DeepLMissingKey || m == DeepLGeneric || DeepLPrefix <= m
    case Google => m == GoogleMissingKey || m == GoogleGeneric || GooglePrefix <= m
  }

  /** `translate`: blank text gives the empty string without consulting the
      keys or the network; otherwise `deepl` goes to DeepL and every other
      provider to Google. */
  function Translate(text: string, src: string, tgt: string, provider: Provider, keys: Keys,
                     transport: Request -> Reply): (r: Result)
    ensures IsBlank(text) ==> r == Ok("")
    ensures !IsBlank(text) && provider == DeepL ==> r == TranslateWithDeepL(text, src, tgt, keys.deepl, transport)
    ensures !IsBlank(text) && provider != DeepL ==> r == TranslateWithGoogle(text, src, tgt, keys.google, transport)
    ensures r.Ok? ==> (r.text == "" <==> IsBlank(text))
    ensures r.Err? ==> !IsBlank(text) && IsProviderError(provider, r.message)
  {
    if IsBlank(text) then Ok("")
    else if provider == DeepL then TranslateWithDeepL(text, src, tgt, keys.deepl, transport)
    else TranslateWithGoogle(text, src, tgt, keys.google, transport)
  }

  // ---------------------------------------------------------------------------
  // Properties across calls

  /** A transport that answers every DeepL request with status 200 and its
      own text as the translation. */
  ghost predicate EchoesDeepL(transport: Request -> Reply)
  {
    forall key, body :: transport(DeepLPost(key, body)) ==
      Response(200, Parsed(Doc(None, Some([DeepLEntry(if |body.text| > 0 then Some(body.text[0]) else None)]), None, None)))
  }

  /** Against an echoing server a DeepL translation returns the text itself:
      the text is sent unchanged and the first translation is returned as it is. */
  lemma DeepLEchoRoundTrip(text: string, src: string, tgt: string, keys: Keys, transport: Request -> Reply)
    requires EchoesDeepL(transport)
    requires !IsBlank(text) && Truthy(keys.deepl) && !IsUnsupportedByDeepL(src, tgt)
    ensures Translate(text, src, tgt, DeepL, keys, transport) == Ok(text)
  {
  }

  /** A transport that answers every Google request with status 200 and its
      own text as the translation. */
  ghost predicate EchoesGoogle(transport: Request -> Reply)
  {
    forall key, body :: transport(GooglePost(key, body)) ==
      Response(200, Parsed(Doc(None, None, None, Some(GoogleData(Some([GoogleEntry(Some(body.q))]))))))
  }

  /** Against an echoing server a Google translation returns the text itself:
      the text is sent unchanged as `q` and the first `translatedText` is
      returned as it is. */
  lemma GoogleEchoRoundTrip(text: string, src: string, tgt: string, keys: Keys, transport: Request -> Reply)
    requires EchoesGoogle(transport)
    requires !IsBlank(text) && Truthy(keys.google)
    ensures Translate(text, src, tgt, Google, keys, transport) == Ok(text)
  {
  }

  /** English to Spanish through DeepL sends `target_lang: "ES"`, and
      `source_lang: "EN"` unless the source is auto-detected. */
  lemma DeepLBodyExample(text: string)
    ensures DeepLRequestBody(text, "auto", "es") == DeepLBody([text], "ES", None)
    ensures DeepLRequestBody(text, "en", "es") == DeepLBody([text], "ES", Some("EN"))
  {
    assert ToUpperAscii("es") == "ES" by {
      assert UpperChar('e') == 'E' && UpperChar('s') == 'S';
    }
    assert ToUpperAscii("en") == "EN" by {
      assert UpperChar('e') == 'E' && UpperChar('n') == 'N';
    }
  }

  /** A 403 whose body says "Quota exceeded" surfaces as a DeepL error naming
      both. */
  lemma DeepLQuotaExample()
    ensures DeepLHttpErrorMessage(403, Parsed(Doc(Some("Quota exceeded"), None, None, None)))
            == DeepLPrefix + " (" + "403" + "): " + "Quota exceeded"
  {
  }

  /** A success status whose body has no translations at all fails with the
      provider's generic connectivity message, for both providers: the
      invalid-response text raised in the try block is replaced by its catch. */
  lemma EmptySuccessBodyIsGeneric(text: string, src: string, tgt: string, provider: Provider, keys: Keys,
                                  transport: Request -> Reply)
    requires forall request :: transport(request) == Response(200, Parsed(Doc(None, None, None, None)))
    requires !IsBlank(text)
    requires provider == DeepL ==> !IsUnsupportedByDeepL(src, tgt) && Truthy(keys.deepl)
    requires provider == Google ==> Truthy(keys.google)
    ensures Translate(text, src, tgt, provider, keys, transport)
            == Err(if provider == DeepL then DeepLGeneric else GoogleGeneric)
  {
  }

  /** When the text is blank or a pre-check fails, the result does not depend
      on the network at all: no request is needed to produce it. */
  lemma PreChecksIgnoreTransport(text: string, src: string, tgt: string, provider: Provider, keys: Keys,
                                 t1: Request -> Reply, t2: Request -> Reply)
    requires IsBlank(text)
          || (provider == DeepL && (IsUnsupportedByDeepL(src, tgt) || !Truthy(keys.deepl)))
          || (provider == Google && !Truthy(keys.google))
    ensures Translate(text, src, tgt, provider, keys, t1) == Translate(text, src, tgt, provider, keys, t2)
  {
  }
}
