# Scrate translation front-end, modelled in Dafny

Scrate is a small browser front-end over two remote translation APIs.
`TranslationService.translate` takes a text, a source and a target language
code, and a provider, `deepl` or `google`. It returns the empty string for
blank text. Otherwise it calls the chosen provider over HTTP and returns the
translated text, or throws an error whose message is meant to be shown as it
is. `AppComponent` holds the UI state in signals. Its handlers truncate the
input, swap the languages, run a translation, and pick the counter and border
colours.

The project has three modules:

- `JsText` (`js_text.dfy`) holds the JavaScript conventions the code relies on:
  - optional values and their truthiness;
  - `String.prototype.trim` over the ECMA-262 white-space set;
  - `toUpperCase` on ASCII language codes;
  - the decimal text of an HTTP status inside a template literal.
- `TranslationService` (`translation_service.dfy`) is the provider adapter, as pure functions:
  - `fetch` becomes a parameter `transport: Request -> Reply`. The request the adapter builds goes into it, and a network failure, an unparseable body, a `null` body or a parsed document comes back.
  - The API keys become a `Keys` parameter.
  - Each try block is a function returning a `Completion`: it returns, or it throws an adapter error or a runtime error.
  - `CatchAndRethrow` is the shared catch block that lets only provider-tagged errors through.
  - "Does not touch the network" means the result does not depend on `transport`.
- `App` (`app_component.dfy`) is the component:
  - The class `AppComponent` has one field per signal.
  - Each handler is a method. Its postcondition says that the whole new state, `Snapshot()`, is a pure transition of the old one: `Truncated`, `Swapped` or `AfterTranslate`.
  - The lemmas are stated about those transitions.
  - `translateText` takes the translation service as a function parameter. `Connected(keys, transport)` is the adapter of this model.

Two consequences of the code are worth stating:

- **Invalid responses.** A success status with a badly shaped body raises an "invalid response" error. That error starts with "Translation failed", not with the provider tag, so each catch block replaces it with the generic "Failed to communicate…" message. `InvalidResponseIsUntagged`, `EmptySuccessBodyIsGeneric` and the `r != Err(...InvalidResponse)` clauses of both provider functions prove that the invalid-response text never reaches a caller.
- **Requests per call.** No request is sent when the text is blank or a pre-check fails (`PreChecksIgnoreTransport`).

## Model

| member | source | states |
|---|---|---|
| JsText.TrimStart | src/services/translation.service.ts:159 | The first half of `trim` keeps a suffix of its input. Everything it cuts off is white space, and what it keeps does not start with white space. |
| JsText.TrimEnd | src/services/translation.service.ts:159 | The second half of `trim` keeps a prefix of its input. Everything it cuts off is white space, and what it keeps does not end with white space. |
| JsText.Trim | src/services/translation.service.ts:159 | `trim` keeps the substring between a white-space prefix and a white-space suffix of its input. When that substring is not empty, it starts and ends with a non-space. |
| JsText.TrimEmptyIffBlank | src/services/translation.service.ts:159-161 | `text.trim()` is empty exactly when every character of `text` is white space. This is what the blank checks of `translate` and `translateText` test. |
| JsText.ToUpperAscii | src/services/translation.service.ts:108-112 | `toUpperCase` on language codes keeps the length and upper-cases each character, so no lower-case ASCII letter is left. |
| JsText.UpperIdempotent | src/services/translation.service.ts:108-112 | Upper-casing an upper-cased code changes nothing. |
| JsText.NatToDecimal | src/services/translation.service.ts:62 | `${response.status}` is a non-empty string of decimal digits with no leading zero. |
| JsText.DecimalRoundTrip | src/services/translation.service.ts:126 | Reading the status text back as a number gives the status, so the message carries the status exactly. |
| TranslationService.CatchAndRethrow | src/services/translation.service.ts:75-80 | A returned text passes through. A thrown error whose message starts with the provider prefix is rethrown unchanged. Every other thrown value, including runtime errors, becomes the generic message. Every error that comes out is tagged or generic. |
| TranslationService.GoogleRequestBody | src/services/translation.service.ts:35-48 | The Google body carries the text and the target code as given, with `format` set to `text`. It has a `source` field exactly when the source is not `auto`, and that field is the code as given. |
| TranslationService.GoogleHttpErrorMessage | src/services/translation.service.ts:61-66 | A Google HTTP error reads "Google Translate API Error (<status>)", followed by ": <error.message>" exactly when that message is truthy. |
| TranslationService.GoogleErrorDetail | src/services/translation.service.ts:63 | `data?.error?.message` is the error member's message of a parsed body. For a `null` body, an unparseable body or a body with no error member it is nothing. |
| TranslationService.GoogleTranslatedText | src/services/translation.service.ts:69 | `data?.data?.translations?.[0]?.translatedText` is the first entry's `translatedText` exactly when `data.translations` is present and not empty, and nothing otherwise. |
| TranslationService.GoogleExchange | src/services/translation.service.ts:50-74 | The Google try block raises a runtime error exactly for a network failure or an unparseable body, whatever the status. It raises the HTTP error for any other error status, and the invalid-response error for a success status with text that is missing or empty. Otherwise it returns that first `translatedText`. |
| TranslationService.TranslateWithGoogle | src/services/translation.service.ts:23-82 | See the four bullets after this table. |
| TranslationService.UnsupportedIsArabicOrHindi | src/services/translation.service.ts:90-91 | DeepL rejects a request exactly when the source or the target is `ar` or `hi`. |
| TranslationService.DeepLRequestBody | src/services/translation.service.ts:102-113 | The DeepL body has the text as a one-element list and the upper-cased target code. It has a `source_lang` field exactly when the source is not `auto`, and that field is the upper-cased source code. |
| TranslationService.DeepLHttpErrorMessage | src/services/translation.service.ts:125-133 | A DeepL HTTP error starts "DeepL API Error (<status>):". It goes on with the body's `message`, or "Unknown error." when the message is falsy. When the body cannot be read or is `null`, it goes on with "Could not parse error response." instead. |
| TranslationService.DeepLTranslatedText | src/services/translation.service.ts:138-142 | `data.translations[0].text` is read exactly when `translations` is present and not empty. |
| TranslationService.DeepLExchange | src/services/translation.service.ts:115-142 | The DeepL try block raises the HTTP error for any error status, whatever the body. It raises a runtime error exactly for a network failure, or for a success status whose body is unparseable or `null`. It raises the invalid-response error for a success with text that is missing or empty. Otherwise it returns that first `text`. |
| TranslationService.TranslateWithDeepL | src/services/translation.service.ts:84-151 | See the four bullets after this table. |
| TranslationService.InvalidResponseIsUntagged | src/services/translation.service.ts:69-80 | Neither invalid-response message starts with its provider prefix, and neither equals its generic message. Each catch block therefore turns the invalid-response error into the generic message. |
| TranslationService.Translate | src/services/translation.service.ts:153-168 | See the three bullets after this table. |
| TranslationService.DeepLEchoRoundTrip | src/services/translation.service.ts:102-142 | Against a server that echoes the text it was sent, a DeepL translation of a non-blank text with a key and supported languages returns the text unchanged. |
| TranslationService.GoogleEchoRoundTrip | src/services/translation.service.ts:35-74 | Against a server that echoes the text it was sent, a Google translation of a non-blank text with a key returns the text unchanged. |
| TranslationService.DeepLBodyExample | src/services/translation.service.ts:106-113 | English to Spanish sends target `ES`. The source is omitted for `auto` and is `EN` for `en`. |
| TranslationService.DeepLQuotaExample | src/services/translation.service.ts:125-133 | A DeepL 403 whose body says "Quota exceeded" fails with "DeepL API Error (403): Quota exceeded". |
| TranslationService.EmptySuccessBodyIsGeneric | src/services/translation.service.ts:136-149 | For both providers, a 200 reply whose body has no translations fails with the generic message, not with the invalid-response text. |
| TranslationService.PreChecksIgnoreTransport | src/services/translation.service.ts:90-98 | A blank text, a DeepL language rejection or a missing key gives the same result whatever the network does. |
| App.Truncated | src/app.component.ts:64-73 | The kept source text is a prefix of the typed value and at most 1000 characters long. It equals the value exactly when the value fits, and it is exactly 1000 characters long otherwise. |
| App.TruncatedIdempotent | src/app.component.ts:66-72 | Truncating kept text again changes nothing. |
| App.Swapped | src/app.component.ts:100-114 | With source `auto` nothing changes. Otherwise the two languages change places, and the texts change places exactly when there is a translated text. Loading, error, copied and the provider stay the same. |
| App.SwapTwice | src/app.component.ts:100-114 | Two swaps restore the state exactly when the source is `auto`, or when the target is not `auto` and no non-empty translation was swapped with an empty source. |
| App.SwapAndLimit | src/app.component.ts:109-113 | A swap keeps the source within 1000 characters when the translation is within it. It moves a longer translation into the source untruncated. |
| App.AfterTranslate | src/app.component.ts:75-98 | See the three bullets after this table. |
| App.TranslateShowsOneOutcome | src/app.component.ts:85-97 | With this model's adapter, after a translation exactly one of a translated text and an error is shown. The error is one that the selected provider raises. A shown text is what the adapter returned. |
| App.TransitionsKeepSettled | src/app.component.ts:64-98 | The initial state is settled, meaning the source is within the limit and nothing is loading. Input and translation keep a settled state settled. |
| App.CharCountColorClass | src/app.component.ts:28-37 | The counter is red exactly at 1000 characters or more, amber exactly from 901 to 999, and slate exactly at 900 or fewer. |
| App.TextareaBorderClass | src/app.component.ts:39-43 | The border is red exactly at 1000 characters or more, and plain otherwise. |
| App.BorderFollowsCounter | src/app.component.ts:28-43 | The border is red exactly when the counter is red. After input it is red exactly when the typed value had 1000 characters or more. |
| App.AppComponent.constructor | src/app.component.ts:19-26 | The signals start as `''`, `''`, `auto`, `en`, not loading, no error, not copied, `deepl`. |
| App.AppComponent.UpdateSourceText | src/app.component.ts:64-73 | The new state is the old one with the source text replaced by `Truncated(value)`. |
| App.AppComponent.SwapLanguages | src/app.component.ts:100-114 | The new state is `Swapped` of the old one. |
| App.AppComponent.TranslateText | src/app.component.ts:75-98 | The new state is `AfterTranslate` of the old one, with the given service. |
| App.AppComponent.CopyToClipboard | src/app.component.ts:116-125 | With no translated text nothing changes. Otherwise `copied` becomes true when the clipboard write succeeds, and nothing else changes. |
| App.AppComponent.SetSourceLanguage | src/app.component.ts:127-129 | Only the source language changes, to the selected value. |
| App.AppComponent.SetTargetLanguage | src/app.component.ts:131-133 | Only the target language changes, to the selected value. |

`TranslationService.TranslateWithGoogle` states:

- A falsy key fails with the configuration error.
- Otherwise, for the reply to the body it builds:
  - a network failure or an unparseable body gives the generic message;
  - another error status gives the HTTP error;
  - a success gives the first `translatedText`, or the generic message when that is falsy.
- A success is never empty.
- An error is the configuration error, the generic message or a tagged message, and never the invalid-response text.

`TranslationService.TranslateWithDeepL` states:

- Arabic or Hindi on either side fails first, whatever the key and the network.
- Otherwise a falsy key fails with the configuration error.
- Otherwise, for the reply to the body it builds:
  - an error status gives the HTTP error;
  - a success with an object body gives the first translation's `text`, or the generic message when that is falsy;
  - everything else gives the generic message.
- A success is never empty.
- An error is never the invalid-response text.

`TranslationService.Translate` states:

- Blank text gives `""`.
- Otherwise `deepl` returns DeepL's result and `google` returns Google's.
- A result is empty exactly when the text is blank, and every error is one the selected provider raises.

`App.AfterTranslate` states:

- A blank source or a translation in flight leaves the state unchanged.
- Otherwise, after the call, nothing is loading and nothing is copied:
  - on success the translated text is the result and there is no error;
  - on failure the error is the message and the translated text is empty.
- The source text, the languages and the provider stay the same.

## Left out

- `fetch`, the endpoint URLs, the headers and `JSON.stringify`: the model keeps only the request's key and body (translation.service.ts:33, :51-57, :100, :116-123). They are replaced by the `transport` parameter.
- `response.json()` internals: a body is unparseable, `null`, or an object holding only the members the code reads. A body that parses to a number, string, boolean or array is covered as the object with none of those members, because every member read on it is `undefined`. The model does not cover:
  - non-string truthy values in those members;
  - non-object entries in `translations`.
- Runtime errors (TypeError, SyntaxError, a rejected `fetch`) are modelled as one `EngineError` whose message never starts with a provider prefix.
- `process.env` reads and the constructor warnings (translation.service.ts:14-21): the keys are a parameter.
- `console.error` and `console.warn`: logging only.
- `languageMap` (translation.service.ts:7-12) and the component's `languages` list (app.component.ts:45-62): constant data that the modelled logic never reads.
- Angular dependency injection, the signal machinery and `computed` reactivity: signals are plain fields, and the two computed classes are functions of the source text.
- DOM event targets (app.component.ts:65, :70, :128, :132): handlers receive the value as a string. Writing the truncated value back into the text area is not modelled.
- CopyToClipboard: the browser clipboard and the two-second `setTimeout` reset of `copied` are I/O and timers. The method receives the outcome of the write instead.
- TranslateText: is one atomic step. `async` interleaving between the start and the end of a translation is not modelled.
- TranslateText: the `'An unknown error occurred.'` branch (app.component.ts:94) is unreachable, because the adapter only ever throws `Error` objects.
- ToUpperAscii: upper-cases ASCII letters only, not the whole of Unicode's `toUpperCase`. The language codes are ASCII.
- Truncated, CharCountColorClass, TextareaBorderClass: count Dafny characters, while JavaScript's `length` and `substring` count UTF-16 code units. For example, 500 emoji have length 1000 in JavaScript and show red, but have length 500 here and show slate.
- CharCountColorClass: the floating-point `MAX_CHARS * 0.9` is the integer 900, which is exactly what the double product rounds to.
- Translate: the provider is a two-valued datatype. The code's "every other value goes to Google" becomes `Google`.
- The local mutation of `body` (translation.service.ts:46-48, :111-113) and of `errorMessage` (:62-65, :126-132) is written as functional record update and string concatenation.
