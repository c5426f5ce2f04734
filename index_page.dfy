/** The phrasebook page of src/pages/Index.tsx: its own phrase table keyed by language,
    the category and search filter, the favourites set, and the "Listen" speech request. */
module IndexPage {
  import opened Options
  import opened Text
  import opened Lists
  import opened Speech

  /** A phrase of the page's own table: the translation is already that of one language. */
  datatype Phrase = Phrase(id: string, english: string, translation: string, pronunciation: string, category: string)

  const SamplePhrases: map<string, seq<Phrase>> := map[
    "es" := [
      Phrase("1", "Hello", "Hola", "OH-lah", "greetings"),
      Phrase("2", "Thank you", "Gracias", "GRAH-see-ahs", "greetings"),
      Phrase("3", "Where is the bathroom?", "¿Dónde está el baño?", "DOHN-deh ehs-TAH ehl BAH-nyoh", "emergency"),
      Phrase("4", "How much does this cost?", "¿Cuánto cuesta esto?", "KWAN-toh KWEH-stah EH-stoh", "dining"),
      Phrase("5", "I need a taxi", "Necesito un taxi", "neh-seh-SEE-toh oon TAHK-see", "transportation")],
    "fr" := [
      Phrase("1", "Hello", "Bonjour", "bone-ZHOOR", "greetings"),
      Phrase("2", "Thank you", "Merci", "mer-SEE", "greetings"),
      Phrase("3", "Where is the bathroom?", "Où sont les toilettes?", "oo son lay twa-LET", "emergency"),
      Phrase("4", "How much does this cost?", "Combien ça coûte?", "kom-bee-AHN sah koot", "dining"),
      Phrase("5", "I need a taxi", "J'ai besoin d'un taxi", "zhay buh-ZWAN duhn tahk-SEE", "transportation")],
    "de" := [
      Phrase("1", "Hello", "Hallo", "HAH-loh", "greetings"),
      Phrase("2", "Thank you", "Danke", "DAHN-keh", "greetings"),
      Phrase("3", "Where is the bathroom?", "Wo ist die Toilette?", "voh ist dee toy-LET-teh", "emergency"),
      Phrase("4", "How much does this cost?", "Wie viel kostet das?", "vee feel KOS-tet dahs", "dining"),
      Phrase("5", "I need a taxi", "Ich brauche ein Taxi", "ikh BROW-kheh ine TAHK-see", "transportation")],
    "it" := [
      Phrase("1", "Hello", "Ciao", "chah-oh", "greetings"),
      Phrase("2", "Thank you", "Grazie", "GRAHT-see-ay", "greetings"),
      Phrase("3", "Where is the bathroom?", "Dov'è il bagno?", "doh-VEH eel BAH-nyoh", "emergency"),
      Phrase("4", "How much does this cost?", "Quanto costa questo?", "KWAN-toh KOS-tah KWEH-stoh", "dining"),
      Phrase("5", "I need a taxi", "Ho bisogno di un taxi", "oh bee-SOH-nyoh dee oon TAHK-see", "transportation")],
    "pt" := [
      Phrase("1", "Hello", "Olá", "oh-LAH", "greetings"),
      Phrase("2", "Thank you", "Obrigado", "oh-bree-GAH-doh", "greetings"),
      Phrase("3", "Where is the bathroom?", "Onde fica o banheiro?", "ON-deh FEE-kah oh ban-YAY-roh", "emergency"),
      Phrase("4", "How much does this cost?", "Quanto custa isto?", "KWAN-toh KOO-stah EE-stoh", "dining"),
      Phrase("5", "I need a taxi", "Preciso de um taxi", "preh-SEE-zoh dee oom TAHK-see", "transportation")]
  ]

  /** The category value that disables the category filter. */
  const AllCategories := "all"

  /** The language code the "Listen" button passes for voice selection. */
  const ListenCode := "es"

  // ---------------------------------------------------------------------------
  // Current phrases and the filter

  /** `SAMPLE_PHRASES[selectedLanguage] || []`. */
  function CurrentPhrases(lang: string): (r: seq<Phrase>)
    ensures r == [] <==> lang !in SamplePhrases
    ensures lang in SamplePhrases ==> r == SamplePhrases[lang]
  {
    if lang in SamplePhrases then SamplePhrases[lang] else []
  }

  predicate MatchesCategory(selectedCategory: string, p: Phrase)
  {
    selectedCategory == AllCategories || p.category == selectedCategory
  }

  predicate MatchesSearch(query: string, p: Phrase)
  {
    query == "" || Includes(Lower(p.english), Lower(query)) || Includes(Lower(p.translation), Lower(query))
  }

  predicate Shown(selectedCategory: string, query: string, p: Phrase)
  {
    MatchesCategory(selectedCategory, p) && MatchesSearch(query, p)
  }

  function CategoryTest(selectedCategory: string): Phrase -> bool
  {
    p => MatchesCategory(selectedCategory, p)
  }

  function SearchTest(query: string): Phrase -> bool
  {
    p => MatchesSearch(query, p)
  }

  function ShownTest(selectedCategory: string, query: string): Phrase -> bool
  {
    p => Shown(selectedCategory, query, p)
  }

  function FavoriteTest(favorites: set<string>): Phrase -> bool
  {
    (p: Phrase) => p.id in favorites
  }

  /** `filteredPhrases`. */
  function FilteredPhrases(current: seq<Phrase>, selectedCategory: string, query: string): seq<Phrase>
  {
    Filter(current, ShownTest(selectedCategory, query))
  }

  /** `favoritePhrases`. */
  function FavoritePhrases(current: seq<Phrase>, favorites: set<string>): seq<Phrase>
  {
    Filter(current, FavoriteTest(favorites))
  }

  /** The filtered list is an order-preserving sub-list of the current phrases that holds
      exactly the phrases passing both the category and the search test, each with all of
      its occurrences. */
  lemma FilteredPhrasesSpec(current: seq<Phrase>, selectedCategory: string, query: string)
    ensures IsSubseq(FilteredPhrases(current, selectedCategory, query), current)
    ensures forall p :: p in FilteredPhrases(current, selectedCategory, query) <==>
      p in current && (selectedCategory == "all" || p.category == selectedCategory) &&
      (query == "" || Includes(Lower(p.english), Lower(query)) || Includes(Lower(p.translation), Lower(query)))
    ensures forall p :: multiset(FilteredPhrases(current, selectedCategory, query))[p] ==
                        if Shown(selectedCategory, query, p) then multiset(current)[p] else 0
  {
    var f := ShownTest(selectedCategory, query);
    FilterIsSubseq(current, f);
    forall p ensures multiset(Filter(current, f))[p] == if f(p) then multiset(current)[p] else 0 {
      FilterMultiplicity(current, f, p);
    }
  }

  /** The search test in terms of occurrences: an empty query, or the lower-cased query
      occurring in the lower-cased English text or translation. */
  lemma MatchesSearchIff(query: string, p: Phrase)
    ensures MatchesSearch(query, p) <==>
      query == "" ||
      Occurs(Lower(p.english), Lower(query)) || Occurs(Lower(p.translation), Lower(query))
  {
    IncludesIff(Lower(p.english), Lower(query));
    IncludesIff(Lower(p.translation), Lower(query));
  }

  /** The search ignores the case of the query. */
  lemma SearchIgnoresQueryCase(current: seq<Phrase>, selectedCategory: string, query: string)
    ensures FilteredPhrases(current, selectedCategory, Lower(query)) == FilteredPhrases(current, selectedCategory, query)
  {
    LowerIdempotent(query);
    assert (Lower(query) == "") == (query == "");
    FilterCongruent(current, ShownTest(selectedCategory, Lower(query)), ShownTest(selectedCategory, query));
  }

  /** With every category and an empty query, nothing is filtered out. */
  lemma NoFilterShowsAll(current: seq<Phrase>)
    ensures FilteredPhrases(current, "all", "") == current
  {
    FilterKeepsAll(current, ShownTest("all", ""));
  }

  /** Both tests together are the search test applied to the result of the category test. */
  lemma FilterComposes(current: seq<Phrase>, selectedCategory: string, query: string)
    ensures FilteredPhrases(current, selectedCategory, query) ==
      Filter(Filter(current, CategoryTest(selectedCategory)), SearchTest(query))
  {
    FilterFilter(current, CategoryTest(selectedCategory), SearchTest(query), ShownTest(selectedCategory, query));
  }

  /** The page's table has phrases for es, fr, de, it and pt only. */
  lemma SampleLanguages()
    ensures SamplePhrases.Keys == {"es", "fr", "de", "it", "pt"}
  {
  }

  /** For a language without sample phrases, every list the page shows is empty. */
  lemma UnknownLanguageShowsNothing(lang: string, selectedCategory: string, query: string, favorites: set<string>)
    requires lang !in SamplePhrases
    ensures CurrentPhrases(lang) == []
    ensures FilteredPhrases(CurrentPhrases(lang), selectedCategory, query) == []
    ensures FavoritePhrases(CurrentPhrases(lang), favorites) == []
  {
  }

  // ---------------------------------------------------------------------------
  // Favourites

  /** The set after `toggleFavorite(id)`: `id` is removed if present and added otherwise. */
  function Toggled(favorites: set<string>, id: string): (r: set<string>)
    ensures id in r <==> id !in favorites
    ensures forall x :: x != id ==> (x in r <==> x in favorites)
  {
    if id in favorites then favorites - {id} else favorites + {id}
  }

  /** Toggling the same id twice restores the set. */
  lemma ToggleTwice(favorites: set<string>, id: string)
    ensures Toggled(Toggled(favorites, id), id) == favorites
  {
  }

  /** The favourites view is the order-preserving sub-list of the current phrases whose id is a favourite. */
  lemma FavoritePhrasesSpec(current: seq<Phrase>, favorites: set<string>)
    ensures IsSubseq(FavoritePhrases(current, favorites), current)
    ensures forall p :: p in FavoritePhrases(current, favorites) <==> p in current && p.id in favorites
    ensures forall p :: multiset(FavoritePhrases(current, favorites))[p] ==
                        if p.id in favorites then multiset(current)[p] else 0
    ensures favorites == {} ==> FavoritePhrases(current, favorites) == []
  {
    FilterIsSubseq(current, FavoriteTest(favorites));
    forall p ensures multiset(FavoritePhrases(current, favorites))[p] ==
                     if p.id in favorites then multiset(current)[p] else 0 {
      FilterMultiplicity(current, FavoriteTest(favorites), p);
    }
  }

  /** Toggling each id of `ids` in turn. */
  function ToggleEach(favorites: set<string>, ids: seq<string>): set<string>
    decreases |ids|
  {
    if ids == [] then favorites else ToggleEach(Toggled(favorites, ids[0]), ids[1..])
  }

  function Ids(ps: seq<Phrase>): (ids: seq<string>)
    ensures |ids| == |ps| && forall i :: 0 <= i < |ps| ==> ids[i] == ps[i].id
  {
    if ps == [] then [] else [ps[0].id] + Ids(ps[1..])
  }

  /** Toggling distinct ids that are not favourites adds exactly those ids. */
  lemma {:induction false} ToggleEachFresh(favorites: set<string>, ids: seq<string>)
    requires Distinct(ids)
    requires forall i :: 0 <= i < |ids| ==> ids[i] !in favorites
    ensures ToggleEach(favorites, ids) == favorites + set x | x in ids
    decreases |ids|
  {
    if ids != [] {
      ToggleEachFresh(favorites + {ids[0]}, ids[1..]);
      assert (set x | x in ids) == {ids[0]} + set x | x in ids[1..];
    }
  }

  /** Starting from no favourites and toggling every phrase id once (ids being distinct)
      makes the favourites view the whole list, in order. */
  lemma ToggleAllFavoritesAll(current: seq<Phrase>)
    requires Distinct(Ids(current))
    ensures FavoritePhrases(current, ToggleEach({}, Ids(current))) == current
  {
    ToggleEachFresh({}, Ids(current));
    var favorites := ToggleEach({}, Ids(current));
    forall p | p in current ensures p.id in favorites {
      var k :| 0 <= k < |current| && current[k] == p;
      assert Ids(current)[k] == p.id;
    }
    FilterKeepsAll(current, FavoriteTest(favorites));
  }

  /** The ids of each language's sample phrases are distinct. */
  lemma SampleIdsDistinct(lang: string)
    ensures Distinct(Ids(CurrentPhrases(lang)))
  {
    if lang in SamplePhrases {
      var ps := SamplePhrases[lang];
      SampleIdsNumbered(lang);
      forall i, j | 0 <= i < j < |Ids(ps)| ensures Ids(ps)[i] != Ids(ps)[j] {
        assert Ids(ps)[i] == ps[i].id && Ids(ps)[j] == ps[j].id;
      }
    }
  }

  /** Each sample list numbers its phrases "1" to "5". */
  lemma SampleIdsNumbered(lang: string)
    requires lang in SamplePhrases
    ensures |SamplePhrases[lang]| == 5
    ensures forall i :: 0 <= i < 5 ==> SamplePhrases[lang][i].id == ["1", "2", "3", "4", "5"][i]
  {
    assert lang in {"es", "fr", "de", "it", "pt"};
  }

  /** The page's own state: the selections and the favourites set. */
  class Page {
    var selectedLanguage: string
    var selectedCategory: string
    var searchQuery: string
    var favorites: set<string>

    constructor ()
      ensures selectedLanguage == "es" && selectedCategory == AllCategories && searchQuery == ""
      ensures favorites == {}
    {
      selectedLanguage := "es";
      selectedCategory := AllCategories;
      searchQuery := "";
      favorites := {};
    }

    /** `toggleFavorite(phraseId)`: copies the set, deletes or adds the id, stores the copy. */
    method ToggleFavorite(phraseId: string)
      modifies this
      ensures favorites == Toggled(old(favorites), phraseId)
      ensures selectedLanguage == old(selectedLanguage) && selectedCategory == old(selectedCategory)
      ensures searchQuery == old(searchQuery)
      ensures Filtered() == old(Filtered())
      ensures forall p :: p in CurrentPhrases(selectedLanguage) && p.id == phraseId ==>
                (p in Favorites() <==> phraseId !in old(favorites))
    {
      var newFavorites := favorites;
      if phraseId in newFavorites {
        newFavorites := newFavorites - {phraseId};
      } else {
        newFavorites := newFavorites + {phraseId};
      }
      favorites := newFavorites;
    }

    /** The "Listen" request with the voice chosen for the selected language, as the
        page evidently intends (the button passes "es" instead, see `Listen`). */
    method ListenInSelectedLanguage(engine: SpeechEngine, voices: seq<Voice>, phrase: Phrase)
      modifies engine
      ensures engine.pending == if engine.available then old(engine.pending) + [SpokenUtterance(voices, phrase.translation, selectedLanguage)]
                                else old(engine.pending)
    {
      SpeakText(engine, voices, phrase.translation, selectedLanguage);
    }

    /** The "All Phrases" tab: the page's current phrases under its category and search selections. */
    function Filtered(): (r: seq<Phrase>)
      reads this
      ensures IsSubseq(r, CurrentPhrases(selectedLanguage))
      ensures forall p :: p in r <==> p in CurrentPhrases(selectedLanguage) && Shown(selectedCategory, searchQuery, p)
      ensures selectedLanguage !in SamplePhrases ==> r == []
    {
      FilteredPhrasesSpec(CurrentPhrases(selectedLanguage), selectedCategory, searchQuery);
      FilteredPhrases(CurrentPhrases(selectedLanguage), selectedCategory, searchQuery)
    }

    /** The "Favorites" tab: the page's current phrases whose id is a favourite. */
    function Favorites(): (r: seq<Phrase>)
      reads this
      ensures IsSubseq(r, CurrentPhrases(selectedLanguage))
      ensures forall p :: p in r <==> p in CurrentPhrases(selectedLanguage) && p.id in favorites
      ensures favorites == {} || selectedLanguage !in SamplePhrases ==> r == []
    {
      FavoritePhrasesSpec(CurrentPhrases(selectedLanguage), favorites);
      FavoritePhrases(CurrentPhrases(selectedLanguage), favorites)
    }
  }

  // ---------------------------------------------------------------------------
  // Speech

  /** `voices.find(voice => voice.lang.startsWith(lang))`. */
  function FindVoice(voices: seq<Voice>, lang: string): (r: Option<Voice>)
    ensures r.None? <==> forall i :: 0 <= i < |voices| ==> !(lang <= voices[i].lang)
    ensures r.Some? ==> exists k :: (0 <= k < |voices| && voices[k] == r.value && lang <= r.value.lang &&
                                     forall i :: 0 <= i < k ==> !(lang <= voices[i].lang))
  {
    if voices == [] then None
    else if lang <= voices[0].lang then Some(voices[0])
    else
      var r := FindVoice(voices[1..], lang);
      assert r.Some? ==> exists k :: (0 <= k < |voices[1..]| && voices[1..][k] == r.value && lang <= r.value.lang &&
                                      forall i :: 0 <= i < k ==> !(lang <= voices[1..][i].lang));
      r
  }

  /** The utterance `speakText(text, lang)` builds: the text, with the first matching voice if there is one. */
  function SpokenUtterance(voices: seq<Voice>, text: string, lang: string): (u: Utterance)
    ensures u.text == text && u.lang == DefaultLang && u.rate == DefaultRate
    ensures u.voice.Some? ==> u.voice.value in voices && lang <= u.voice.value.lang
    ensures u.voice.None? ==> forall v :: v in voices ==> !(lang <= v.lang)
  {
    Utterance(text, DefaultLang, FindVoice(voices, lang), DefaultRate)
  }

  /** `speakText(text, lang)`: queues an utterance when speech synthesis exists; there is no cancel. */
  method SpeakText(engine: SpeechEngine, voices: seq<Voice>, text: string, lang: string)
    modifies engine
    ensures engine.pending == if engine.available then old(engine.pending) + [SpokenUtterance(voices, text, lang)]
                              else old(engine.pending)
  {
    if engine.available {
      var langVoice := FindVoice(voices, lang);
      var utterance := Utterance(text, DefaultLang, langVoice, DefaultRate);
      engine.Speak(utterance);
    }
  }

  /** The "Listen" button of a card: speaks the translation, choosing the voice with "es"
      whatever language is selected. */
  method Listen(engine: SpeechEngine, voices: seq<Voice>, phrase: Phrase)
    modifies engine
    ensures engine.pending == if engine.available then old(engine.pending) + [SpokenUtterance(voices, phrase.translation, "es")]
                              else old(engine.pending)
  {
    SpeakText(engine, voices, phrase.translation, ListenCode);
  }

  /** As written, a French phrase is voiced by a Spanish voice even when a French one is available. */
  lemma ListenPicksSpanishVoiceForFrench()
    ensures var voices := [Voice("Amelie", "fr-FR"), Voice("Monica", "es-ES")];
            var phrase := SamplePhrases["fr"][0];
            SpokenUtterance(voices, phrase.translation, ListenCode).voice == Some(Voice("Monica", "es-ES"))
  {
    var voices := [Voice("Amelie", "fr-FR"), Voice("Monica", "es-ES")];
    assert !("es" <= voices[0].lang) by { assert voices[0].lang[0] == 'f'; }
    assert voices[1..] == [Voice("Monica", "es-ES")];
  }

  /** With the selected language, the chosen voice always speaks that language when one is available. */
  lemma SelectedLanguageVoiceMatches(voices: seq<Voice>, text: string, lang: string, k: nat)
    requires k < |voices| && lang <= voices[k].lang
    ensures SpokenUtterance(voices, text, lang).voice.Some?
    ensures lang <= SpokenUtterance(voices, text, lang).voice.value.lang
  {
  }
}
