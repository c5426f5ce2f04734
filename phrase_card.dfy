/** The phrase card of src/components/PhraseCard.tsx: it shows one phrase in the selected
    language and plays its translation through the shared speech engine. */
module PhraseCardModel {
  import opened Options
  import opened Speech
  import opened PhraseData

  /** `languageMap`: the locale each registered language is spoken in. */
  const LanguageMap: map<string, string> := map[
    "es" := "es-ES",
    "fr" := "fr-FR",
    "de" := "de-DE",
    "it" := "it-IT",
    "ja" := "ja-JP"
  ]

  /** The locale used for a code the map does not know. */
  const FallbackLocale := "en-US"

  /** The slowed-down speaking rate used for learners. */
  const LearningRate: real := 0.8

  /** `languageMap[selectedLanguage] || 'en-US'`. */
  function Locale(code: string): string
  {
    if code in LanguageMap then LanguageMap[code] else FallbackLocale
  }

  /** The locale table, entry by entry, with its fallback. */
  lemma LocaleTable(code: string)
    ensures Locale(code) ==
      if code == "es" then "es-ES"
      else if code == "fr" then "fr-FR"
      else if code == "de" then "de-DE"
      else if code == "it" then "it-IT"
      else if code == "ja" then "ja-JP"
      else "en-US"
  {
  }

  /** The locale table covers exactly the language registry, and each registered language
      is spoken in a locale of its own language, never in the fallback. */
  lemma LocalesMatchRegistry()
    ensures LanguageMap.Keys == set l | l in Languages :: l.code
    ensures forall l :: l in Languages ==> l.code + "-" <= Locale(l.code) && Locale(l.code) != FallbackLocale
  {
    RegistryCodes();
    forall l | l in Languages ensures l.code + "-" <= Locale(l.code) && Locale(l.code) != FallbackLocale {
      assert l.code in set l' | l' in Languages :: l'.code;
      OwnLocale(l.code);
    }
  }

  lemma OwnLocale(code: string)
    requires code in {"es", "fr", "de", "it", "ja"}
    ensures code + "-" <= Locale(code) && Locale(code) != FallbackLocale
  {
    assert Locale(code) == LanguageMap[code];
    assert Locale(code)[..3] == code + "-";
  }

  /** `phrase.translations[selectedLanguage]`. */
  function TranslationFor(phrase: Phrase, lang: string): Option<Translation>
  {
    if lang in phrase.translations then Some(phrase.translations[lang]) else None
  }

  /** What a rendered card shows: category, English text, translation, and the pronunciation between slashes. */
  datatype CardView = CardView(category: string, english: string, text: string, pronunciation: string)

  /** The card's render: nothing when the phrase has no translation for the selected language. */
  function Render(phrase: Phrase, lang: string): (v: Option<CardView>)
    ensures v.None? <==> lang !in phrase.translations
    ensures v.Some? ==> v.value.text == phrase.translations[lang].text && v.value.english == phrase.english &&
                        v.value.category == phrase.category
  {
    match TranslationFor(phrase, lang)
    case None => None
    case Some(t) => Some(CardView(phrase.category, phrase.english, t.text, "/" + t.pronunciation + "/"))
  }

  /** Every shipped phrase renders a card in every registered language. */
  lemma ShippedCardsRender()
    ensures forall p, l :: p in Phrases && l in Languages ==> Render(p, l.code).Some?
  {
    ShippedTranslationsComplete();
  }

  // ---------------------------------------------------------------------------
  // Playback as transitions over the card's flag and the engine's queue

  /** The observable playback state: the card's `isPlaying` flag and the engine's pending utterances. */
  datatype CardState = CardState(isPlaying: bool, pending: seq<Utterance>)

  /** The utterance `playAudio` speaks for a translation in the selected language. */
  function PlaybackUtterance(t: Translation, lang: string): Utterance
  {
    Utterance(t.text, Locale(lang), None, LearningRate)
  }

  /** `playAudio`: without speech or a translation nothing happens; otherwise the flag is
      raised, the engine is cancelled and the new utterance is queued. */
  function AfterPlay(speechAvailable: bool, translation: Option<Translation>, lang: string, st: CardState): (r: CardState)
    ensures !(speechAvailable && translation.Some?) ==> r == st
    ensures speechAvailable && translation.Some? ==> r.isPlaying && r.pending == [PlaybackUtterance(translation.value, lang)]
  {
    if speechAvailable && translation.Some? then
      var cancelled := [];
      CardState(true, cancelled + [PlaybackUtterance(translation.value, lang)])
    else st
  }

  /** `stopAudio`: the engine is cancelled and the flag lowered. */
  function AfterStop(st: CardState): (r: CardState)
    ensures !r.isPlaying && r.pending == []
  {
    CardState(false, [])
  }

  /** The `onend` and `onerror` callbacks: the flag is lowered and nothing else changes. */
  function AfterCallback(st: CardState): (r: CardState)
    ensures !r.isPlaying && r.pending == st.pending
  {
    st.(isPlaying := false)
  }

  /** The play/stop button: inert without speech, `stopAudio` while playing, `playAudio` otherwise. */
  function AfterClick(speechAvailable: bool, translation: Option<Translation>, lang: string, st: CardState): CardState
  {
    if !speechAvailable then st
    else if st.isPlaying then AfterStop(st)
    else AfterPlay(speechAvailable, translation, lang, st)
  }

  /** The flag is only ever raised by a successful `playAudio`. */
  predicate CardInvariant(speechAvailable: bool, translation: Option<Translation>, isPlaying: bool)
  {
    isPlaying ==> speechAvailable && translation.Some?
  }

  /** Every transition keeps the invariant. */
  lemma TransitionsKeepInvariant(speechAvailable: bool, translation: Option<Translation>, lang: string, st: CardState)
    requires CardInvariant(speechAvailable, translation, st.isPlaying)
    ensures CardInvariant(speechAvailable, translation, AfterPlay(speechAvailable, translation, lang, st).isPlaying)
    ensures CardInvariant(speechAvailable, translation, AfterStop(st).isPlaying)
    ensures CardInvariant(speechAvailable, translation, AfterCallback(st).isPlaying)
    ensures CardInvariant(speechAvailable, translation, AfterClick(speechAvailable, translation, lang, st).isPlaying)
  {
  }

  /** A second play before the first one ends leaves exactly one utterance, the second, and the flag raised. */
  lemma PlayTwiceKeepsOnlySecond(t1: Translation, lang1: string, t2: Translation, lang2: string, st: CardState)
    ensures AfterPlay(true, Some(t2), lang2, AfterPlay(true, Some(t1), lang1, st)) ==
            CardState(true, [PlaybackUtterance(t2, lang2)])
  {
  }

  /** Stopping twice is the same as stopping once. */
  lemma StopIdempotent(st: CardState)
    ensures AfterStop(AfterStop(st)) == AfterStop(st)
  {
  }

  /** With speech and a translation, the button flips the flag, and two presses from idle
      end silent with nothing pending. */
  lemma ClickToggles(translation: Translation, lang: string, st: CardState)
    ensures AfterClick(true, Some(translation), lang, st).isPlaying == !st.isPlaying
    ensures !st.isPlaying ==>
      AfterClick(true, Some(translation), lang, AfterClick(true, Some(translation), lang, st)) == CardState(false, [])
  {
  }

  /** One card: its props, the shared engine, and its `isPlaying` state. */
  class PhraseCard {
    const phrase: Phrase
    const selectedLanguage: string
    const speechAvailable: bool
    const engine: SpeechEngine
    var isPlaying: bool

    ghost predicate Valid()
      reads this
    {
      speechAvailable == engine.available &&
      CardInvariant(speechAvailable, TranslationFor(phrase, selectedLanguage), isPlaying)
    }

    function State(): CardState
      reads this, engine
    {
      CardState(isPlaying, engine.pending)
    }

    constructor (phrase: Phrase, selectedLanguage: string, engine: SpeechEngine)
      ensures this.phrase == phrase && this.selectedLanguage == selectedLanguage
      ensures this.speechAvailable == engine.available && this.engine == engine
      ensures !isPlaying && Valid()
    {
      this.phrase := phrase;
      this.selectedLanguage := selectedLanguage;
      this.speechAvailable := engine.available;
      this.engine := engine;
      isPlaying := false;
    }

    /** `playAudio`. */
    method PlayAudio()
      requires Valid()
      modifies this, engine
      ensures Valid()
      ensures State() == AfterPlay(speechAvailable, TranslationFor(phrase, selectedLanguage), selectedLanguage, old(State()))
      ensures speechAvailable && selectedLanguage in phrase.translations ==>
        isPlaying && |engine.pending| == 1 &&
        engine.Current() == Some(PlaybackUtterance(phrase.translations[selectedLanguage], selectedLanguage))
    {
      var translation := TranslationFor(phrase, selectedLanguage);
      if speechAvailable && translation.Some? {
        isPlaying := true;
        engine.Cancel();
        var utterance := Utterance(translation.value.text, DefaultLang, None, DefaultRate);
        var lang := if selectedLanguage in LanguageMap then LanguageMap[selectedLanguage] else FallbackLocale;
        utterance := utterance.(lang := lang, rate := LearningRate);
        engine.Speak(utterance);
      }
    }

    /** `stopAudio`. It calls the engine unguarded, so speech must exist; the button runs it
        only while playing, and the invariant says a playing card has speech. */
    method StopAudio()
      requires Valid() && (isPlaying || speechAvailable)
      modifies this, engine
      ensures Valid()
      ensures State() == AfterStop(old(State()))
      ensures !isPlaying && engine.Current() == None
    {
      engine.Cancel();
      isPlaying := false;
    }

    /** `utterance.onend`. */
    method OnEnd()
      requires Valid()
      modifies this
      ensures Valid()
      ensures State() == AfterCallback(old(State()))
    {
      isPlaying := false;
    }

    /** `utterance.onerror`. */
    method OnError()
      requires Valid()
      modifies this
      ensures Valid()
      ensures State() == AfterCallback(old(State()))
    {
      isPlaying := false;
    }

    /** The play/stop button; it is disabled when speech is unavailable. */
    method Click()
      requires Valid()
      modifies this, engine
      ensures Valid()
      ensures State() == AfterClick(speechAvailable, TranslationFor(phrase, selectedLanguage), selectedLanguage, old(State()))
    {
      if speechAvailable {
        if isPlaying {
          StopAudio();
        } else {
          PlayAudio();
        }
      }
    }
  }
}
