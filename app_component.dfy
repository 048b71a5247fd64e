/** The root UI component: its signals are plain fields of a class, and each
    of its handlers is a method whose effect on the whole state is a pure
    transition on `UiState`, about which the lemmas below are stated. */
module App {
  import opened JsText
  import opened TranslationService

  /** Longest source text the text area keeps. */
  const MaxChars: nat := 1000

  /** `MAX_CHARS * 0.9`: the double product 1000 * 0.9 rounds to exactly 900. */
  const AmberThreshold: nat := 900

  /** The values of the component's signals. */
  datatype UiState = UiState(
    sourceText: string,
    translatedText: string,
    sourceLanguage: string,
    targetLanguage: string,
    isLoading: bool,
    error: Option<string>,
    copied: bool,
    selectedProvider: Provider)

  /** The signals' initial values. */
  const Initial := UiState("", "", "auto", "en", false, None, false, DeepL)

  /** The source text is within the limit and no translation is in flight. */
  predicate Settled(s: UiState)
  {
    |s.sourceText| <= MaxChars && !s.isLoading
  }

  // ---------------------------------------------------------------------------
  // updateSourceText

  /** What `updateSourceText` keeps of a typed value: the value itself when it
      fits, otherwise its first `MaxChars` characters. */
  function Truncated(value: string): (r: string)
    ensures r <= value && |r| <= MaxChars
    ensures r == value <==> |value| <= MaxChars
    ensures |value| > MaxChars ==> |r| == MaxChars
  {
    if |value| <= MaxChars then value else value[..MaxChars]
  }

  /** Truncating what is already truncated changes nothing. */
  lemma TruncatedIdempotent(value: string)
    ensures Truncated(Truncated(value)) == Truncated(value)
  {
  }

  // ---------------------------------------------------------------------------
  // swapLanguages

  /** `swapLanguages`: nothing happens while the source is `auto`; otherwise
      the two languages change places, and the two texts change places only
      when there is a translated text. */
  function Swapped(s: UiState): (t: UiState)
    ensures s.sourceLanguage == "auto" ==> t == s
    ensures s.sourceLanguage != "auto" ==>
      t.sourceLanguage == s.targetLanguage && t.targetLanguage == s.sourceLanguage
    ensures s.sourceLanguage != "auto" && s.translatedText != "" ==>
      t.sourceText == s.translatedText && t.translatedText == s.sourceText
    ensures s.translatedText == "" ==> t.sourceText == s.sourceText && t.translatedText == ""
    ensures t.isLoading == s.isLoading && t.error == s.error && t.copied == s.copied
    ensures t.selectedProvider == s.selectedProvider
  {
    if s.sourceLanguage == "auto" then s
    else
      var languagesSwapped := s.(sourceLanguage := s.targetLanguage, targetLanguage := s.sourceLanguage);
      if s.translatedText != "" then
        languagesSwapped.(sourceText := s.translatedText, translatedText := s.sourceText)
      else languagesSwapped
  }

  /** Swapping twice restores the state exactly when the first swap happened
      and can be undone: the target was not `auto`, and a translation that
      moved into the source did not leave an empty translated text behind. */
  lemma SwapTwice(s: UiState)
    ensures Swapped(Swapped(s)) == s <==>
      s.sourceLanguage == "auto" ||
      (s.targetLanguage != "auto" && (s.translatedText == "" || s.sourceText != ""))
  {
  }

  /** A swap keeps the source text within the limit when the translated text
      is within it too; a longer translation moves into the source as it is. */
  lemma SwapAndLimit(s: UiState)
    requires Settled(s)
    ensures |s.translatedText| <= MaxChars ==> Settled(Swapped(s))
    ensures s.sourceLanguage != "auto" && |s.translatedText| > MaxChars ==>
      |Swapped(s).sourceText| > MaxChars
  {
  }

  // ---------------------------------------------------------------------------
  // translateText

  /** The service as the component calls it: source text, source language,
      target language and provider in, translated text or error message out. */
  type Service = (string, string, string, Provider) -> Result

  /** The translation service of this model, wired to the environment's keys
      and to the network. */
  function Connected(keys: Keys, transport: Request -> Reply): Service
  {
    (text, src, tgt, provider) => Translate(text, src, tgt, provider, keys, transport)
  }

  /** `translateText` as one step in which the service call completes: a
      blank source or a translation in flight leaves everything as it is;
      otherwise the call's text lands in `translatedText` with no error, or
      its message lands in `error` with an empty translation, and the step
      ends not loading and not copied. */
  function AfterTranslate(s: UiState, service: Service): (t: UiState)
    ensures IsBlank(s.sourceText) || s.isLoading ==> t == s
    ensures !(IsBlank(s.sourceText) || s.isLoading) ==>
      var r := service(s.sourceText, s.sourceLanguage, s.targetLanguage, s.selectedProvider);
      && !t.isLoading && !t.copied
      && (r.Ok? ==> t.translatedText == r.text && t.error == None)
      && (r.Err? ==> t.translatedText == "" && t.error == Some(r.message))
    ensures t.sourceText == s.sourceText && t.sourceLanguage == s.sourceLanguage
    ensures t.targetLanguage == s.targetLanguage && t.selectedProvider == s.selectedProvider
  {
    if IsBlank(s.sourceText) || s.isLoading then s
    else
      var started := s.(isLoading := true, error := None, translatedText := "", copied := false);
      var finished :=
        match service(s.sourceText, s.sourceLanguage, s.targetLanguage, s.selectedProvider)
        case Ok(text) => started.(translatedText := text)
        case Err(message) => started.(error := Some(message));
      finished.(isLoading := false)
  }

  /** After a translation step that ran against this model's service, exactly
      one of a translated text and an error is shown, that error is one the
      selected provider raises, and the text is what the provider returned. */
  lemma TranslateShowsOneOutcome(s: UiState, keys: Keys, transport: Request -> Reply)
    requires !IsBlank(s.sourceText) && !s.isLoading
    ensures var t := AfterTranslate(s, Connected(keys, transport));
      var r := Translate(s.sourceText, s.sourceLanguage, s.targetLanguage, s.selectedProvider, keys, transport);
      && (t.translatedText != "" <==> t.error.None?)
      && (t.error.Some? ==> IsProviderError(s.selectedProvider, t.error.value))
      && (t.error.None? ==> r == Ok(t.translatedText))
  {
  }

  /** Input and translation keep a settled state settled, and the initial
      state is settled (swaps are the subject of SwapAndLimit). */
  lemma TransitionsKeepSettled(s: UiState, value: string, service: Service)
    requires Settled(s)
    ensures Settled(s.(sourceText := Truncated(value)))
    ensures Settled(AfterTranslate(s, service))
    ensures Settled(Initial)
  {
  }

  // ---------------------------------------------------------------------------
  // charCountColorClass and textareaBorderClass

  const RedCountClass := "text-red-400 font-semibold"
  const AmberCountClass := "text-amber-400"
  const SlateCountClass := "text-slate-500"
  const RedBorderClass := "border-red-500/80 focus:ring-red-500"
  const PlainBorderClass := "border-slate-700 focus:ring-indigo-500"

  /** The counter's colour: red at the limit or beyond, amber in the last
      tenth below it, slate otherwise. */
  function CharCountColorClass(sourceText: string): (c: string)
    ensures c == RedCountClass <==> |sourceText| >= MaxChars
    ensures c == AmberCountClass <==> AmberThreshold < |sourceText| < MaxChars
    ensures c == SlateCountClass <==> |sourceText| <= AmberThreshold
  {
    var length := |sourceText|;
    if length >= MaxChars then RedCountClass
    else if length > AmberThreshold then AmberCountClass
    else SlateCountClass
  }

  /** The text area's border: red exactly at the limit or beyond. */
  function TextareaBorderClass(sourceText: string): (c: string)
    ensures c == RedBorderClass <==> |sourceText| >= MaxChars
    ensures c == RedBorderClass || c == PlainBorderClass
  {
    if |sourceText| >= MaxChars then RedBorderClass else PlainBorderClass
  }

  /** The border turns red together with the counter, and text kept by
      `updateSourceText` turns it red only when it fills the limit. */
  lemma BorderFollowsCounter(sourceText: string, value: string)
    ensures TextareaBorderClass(sourceText) == RedBorderClass <==> CharCountColorClass(sourceText) == RedCountClass
    ensures TextareaBorderClass(Truncated(value)) == RedBorderClass <==> |value| >= MaxChars
  {
  }

  // ---------------------------------------------------------------------------
  // The component

  class AppComponent {
    var sourceText: string
    var translatedText: string
    var sourceLanguage: string
    var targetLanguage: string
    var isLoading: bool
    var error: Option<string>
    var copied: bool
    var selectedProvider: Provider

    /** The current values of all signals. */
    function Snapshot(): UiState
      reads this
    {
      UiState(sourceText, translatedText, sourceLanguage, targetLanguage, isLoading, error, copied, selectedProvider)
    }

    constructor ()
      ensures Snapshot() == Initial
    {
      sourceText := "";
      translatedText := "";
      sourceLanguage := "auto";
      targetLanguage := "en";
      isLoading := false;
      error := None;
      copied := false;
      selectedProvider := DeepL;
    }

    /** `updateSourceText`, given the text area's value. */
    method UpdateSourceText(value: string)
      modifies this
      ensures Snapshot() == old(Snapshot()).(sourceText := Truncated(value))
    {
      if |value| <= MaxChars {
        sourceText := value;
      } else {
        var truncatedValue := value[..MaxChars];
        sourceText := truncatedValue;
      }
    }

    /** `swapLanguages`. */
    method SwapLanguages()
      modifies this
      ensures Snapshot() == Swapped(old(Snapshot()))
    {
      if sourceLanguage == "auto" {
        return;
      }
      var currentSource := sourceLanguage;
      var currentTarget := targetLanguage;
      sourceLanguage := currentTarget;
      targetLanguage := currentSource;
      if translatedText != "" {
        var currentSourceText := sourceText;
        sourceText := translatedText;
        translatedText := currentSourceText;
      }
    }

    /** `translateText`, with the injected service given. */
    method TranslateText(service: Service)
      modifies this
      ensures Snapshot() == AfterTranslate(old(Snapshot()), service)
    {
      if IsBlank(sourceText) || isLoading {
        return;
      }
      isLoading := true;
      error := None;
      translatedText := "";
      copied := false;
      var result := service(sourceText, sourceLanguage, targetLanguage, selectedProvider);
      match result {
        case Ok(text) => translatedText := text;
        case Err(message) => error := Some(message);
      }
      isLoading := false;
    }

    /** `copyToClipboard`, given whether the clipboard write succeeded: with no
        translated text nothing happens, otherwise a successful write marks the
        text as copied. */
    method CopyToClipboard(writeSucceeded: bool)
      modifies this
      ensures Snapshot() == old(Snapshot()).(copied := old(copied) || (old(translatedText) != "" && writeSucceeded))
    {
      if translatedText == "" {
        return;
      }
      if writeSucceeded {
        copied := true;
      }
    }

    /** `setSourceLanguage`, given the selected option's value. */
    method SetSourceLanguage(value: string)
      modifies this
      ensures Snapshot() == old(Snapshot()).(sourceLanguage := value)
    {
      sourceLanguage := value;
    }

    /** `setTargetLanguage`, given the selected option's value. */
    method SetTargetLanguage(value: string)
      modifies this
      ensures Snapshot() == old(Snapshot()).(targetLanguage := value)
    {
      targetLanguage := value;
    }
  }
}
