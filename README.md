# Travel phrasebook — a verified model

This project models the logic of a small browser phrasebook. The user picks a target language and a phrase category, searches a static list of English phrases with their translations, marks favourites, and has a translation spoken by the browser's speech synthesis. The model covers three files: the page `src/pages/Index.tsx`, the dataset `src/data/phrases.ts` and the card `src/components/PhraseCard.tsx`. The card is modelled as a component on its own, together with the dataset it reads; the screen that would mount it is not part of this model (see "Left out").

- `src/pages/Index.tsx` keeps its own phrase table keyed by language (`SAMPLE_PHRASES`). It filters the table by category and by a case-insensitive search. It keeps a favourites set that a heart button toggles. Its "Listen" button queues an utterance with a voice chosen by language prefix. Module `IndexPage` models it (`index_page.dfy`).
- `src/data/phrases.ts` is the shared dataset: a language registry, a phrase table with one translation per language code, and `categories`, the first-occurrence dedup of the phrases' categories. Module `PhraseData` models it (`phrase_data.dfy`).
- `src/components/PhraseCard.tsx` is a card with an `isPlaying` flag. It plays its translation through the shared speech engine, with cancel-then-speak semantics and a language-to-locale table. It renders nothing when the selected language has no translation. Module `PhraseCardModel` models it (`phrase_card.dfy`).

The supporting modules are:

- `Text` (`text.dfy`): ASCII `toLowerCase` and `includes`, with `includes` proved equal to "occurs at some position".
- `Lists` (`lists.dfy`): `filter` and the subsequence relation.
- `Speech` (`speech.dfy`): the speech engine. It is a class holding the queue of pending utterances. `speak` appends to the queue. `cancel` empties it. Its head is the utterance being spoken.
- `Options` (`options.dfy`): an optional-value type.

The browser's speech API is an injected collaborator. Whether `speechSynthesis` exists is the engine's constant `available`; `Cancel` and `Speak` require it, as the real calls throw without an engine. The voice list (`getVoices()`) is a sequence parameter. The `onend`/`onerror` callbacks are explicit method calls on the card. The card's transitions are also pure functions over `CardState(isPlaying, pending)` (`AfterPlay`, `AfterStop`, `AfterCallback`, `AfterClick`). Each class method is proved to produce exactly the state its function gives. The lemmas about playback are stated over those functions.

## Model

| member | source | states |
|---|---|---|
| `Text.Includes` | src/pages/Index.tsx:134-135 | `String.prototype.includes` as a scan of the haystack's suffixes; `Text.IncludesIff` and `Text.IncludesEmpty` state what it means |
| `Text.Lower` | src/pages/Index.tsx:134-135 | lower-casing keeps the length, maps each character by the ASCII case map and leaves no upper-case ASCII letter |
| `Text.LowerIdempotent` | src/pages/Index.tsx:134-135 | lower-casing twice is lower-casing once |
| `Text.IncludesIff` | src/pages/Index.tsx:134-135 | `includes` holds exactly when the needle occurs at some position of the haystack |
| `Text.IncludesEmpty` | src/pages/Index.tsx:133-135 | the empty query is included in every string |
| `Lists.Filter` | src/pages/Index.tsx:131-139 | the result is no longer than the input; every kept element is in the input and passes the predicate; every input element that passes is kept |
| `Lists.FilterIsSubseq` | src/pages/Index.tsx:131-139 | the filtered list is a subsequence of the input, so relative order is preserved |
| `Lists.FilterMultiplicity` | src/pages/Index.tsx:131-139 | each value keeps all of its occurrences if it passes and none otherwise |
| `Lists.FilterKeepsAll` | src/pages/Index.tsx:132-133 | a predicate true of every element returns the input unchanged |
| `Lists.FilterFilter` | src/pages/Index.tsx:131-137 | filtering by two predicates in turn equals filtering once by their conjunction |
| `Lists.FilterCongruent` | src/pages/Index.tsx:131-137 | two predicates that agree on every value filter alike |
| `IndexPage.CurrentPhrases` | src/pages/Index.tsx:129 | the current list is empty iff the language has no entry in the page's table, and otherwise is that entry |
| `IndexPage.MatchesCategory` | src/pages/Index.tsx:132 | the category test: `'all'` or an equal category; stated inside `IndexPage.FilteredPhrasesSpec` |
| `IndexPage.MatchesSearch` | src/pages/Index.tsx:133-135 | the search test; `IndexPage.MatchesSearchIff` states it in terms of occurrences |
| `IndexPage.FilteredPhrases` | src/pages/Index.tsx:131-137 | `filteredPhrases` as a filter by both tests; `IndexPage.FilteredPhrasesSpec`, `IndexPage.FilterComposes`, `IndexPage.SearchIgnoresQueryCase` and `IndexPage.NoFilterShowsAll` state its properties |
| `IndexPage.FavoritePhrases` | src/pages/Index.tsx:139 | `favoritePhrases` as a filter by favourite id; `IndexPage.FavoritePhrasesSpec` states its properties |
| `IndexPage.FilteredPhrasesSpec` | src/pages/Index.tsx:131-137 | `filteredPhrases` is a subsequence of the current phrases; a phrase is in it iff it is current, the category is `'all'` or equal to its category, and the query is empty or included in its lower-cased English text or translation; multiplicities are kept |
| `IndexPage.MatchesSearchIff` | src/pages/Index.tsx:133-135 | the search test holds iff the query is empty or the lower-cased query occurs in the lower-cased English text or translation |
| `IndexPage.SearchIgnoresQueryCase` | src/pages/Index.tsx:134-135 | lower-casing the query beforehand does not change the filtered list |
| `IndexPage.NoFilterShowsAll` | src/pages/Index.tsx:132-133 | with category `'all'` and an empty query the filtered list is the current list |
| `IndexPage.FilterComposes` | src/pages/Index.tsx:131-137 | the combined filter equals the search filter applied after the category filter |
| `IndexPage.SampleLanguages` | src/pages/Index.tsx:35-71 | the page's table has phrases for `es`, `fr`, `de`, `it` and `pt` only |
| `IndexPage.UnknownLanguageShowsNothing` | src/pages/Index.tsx:129-139 | for a language missing from the table the current, filtered and favourite lists are all empty |
| `IndexPage.SampleIdsDistinct` | src/pages/Index.tsx:35-71 | within each language of the page's table the ids are distinct |
| `IndexPage.SampleIdsNumbered` | src/pages/Index.tsx:35-71 | each language's list in the page's table has five phrases with ids "1" to "5" in order |
| `IndexPage.Toggled` | src/pages/Index.tsx:141-149 | after a toggle, `id` is a member iff it was not before; every other id keeps its membership |
| `IndexPage.ToggleTwice` | src/pages/Index.tsx:141-149 | toggling the same id twice restores the set |
| `IndexPage.FavoritePhrasesSpec` | src/pages/Index.tsx:139 | `favoritePhrases` is a subsequence of the current phrases holding exactly those whose id is a favourite, each with all of its occurrences in the current list; it is empty for an empty set |
| `IndexPage.ToggleEachFresh` | src/pages/Index.tsx:141-149 | toggling distinct ids that are not favourites adds exactly those ids |
| `IndexPage.ToggleAllFavoritesAll` | src/pages/Index.tsx:139-149 | from no favourites, toggling every id of a list with distinct ids once makes the favourites view the whole list, in order |
| `IndexPage.Page.Filtered` | src/pages/Index.tsx:131-137 | the "All Phrases" tab (listed at lines 222 and 246) is a subsequence of the current phrases holding exactly those the page's category and search selections show; empty for a language without phrases |
| `IndexPage.Page.Favorites` | src/pages/Index.tsx:139 | the "Favorites" tab (listed at lines 225 and 271) is a subsequence of the current phrases holding exactly those whose id is a favourite; empty without favourites or phrases |
| `IndexPage.Page.constructor` | src/pages/Index.tsx:124-127 | the page starts with language `es`, category `'all'`, an empty query and no favourites |
| `IndexPage.Page.ToggleFavorite` | src/pages/Index.tsx:141-149 | the stored set becomes the toggled set and the selections are unchanged; the "All Phrases" tab is unchanged, and a current phrase with that id is on the "Favorites" tab iff its id was not a favourite before |
| `IndexPage.FindVoice` | src/pages/Index.tsx:77-79 | no voice is found iff no voice's language tag starts with the code; a found voice is the first whose tag starts with it |
| `IndexPage.SpokenUtterance` | src/pages/Index.tsx:76-79 | the utterance carries the text, the default language hint and rate, and a voice whose tag starts with the code, or none when no voice matches |
| `IndexPage.SpeakText` | src/pages/Index.tsx:74-82 | when the engine is available the utterance is queued behind the pending ones (no cancel); otherwise the engine is untouched |
| `IndexPage.Listen` | src/pages/Index.tsx:107-115 | "Listen" queues the phrase's translation with the voice chosen for `'es'`, whatever language is selected |
| `IndexPage.ListenPicksSpanishVoiceForFrench` | src/pages/Index.tsx:110 | with a French and a Spanish voice, a French phrase is given the Spanish voice |
| `IndexPage.Page.ListenInSelectedLanguage` | src/pages/Index.tsx:110 | the corrected request chooses the voice with the selected language |
| `IndexPage.SelectedLanguageVoiceMatches` | src/pages/Index.tsx:77-79 | when some voice matches the code, a voice is chosen and its tag starts with the code |
| `PhraseData.CategoryColumn` | src/data/phrases.ts:84 | `phrases.map(p => p.category)` has one entry per phrase, in order |
| `PhraseData.DedupAfter` | src/data/phrases.ts:84 | every emitted element is in the input and was not seen before; every unseen input element is emitted |
| `PhraseData.DedupFreshRun` | src/data/phrases.ts:84 | a duplicate-free sequence none of whose elements was seen is emitted unchanged |
| `PhraseData.Dedup` | src/data/phrases.ts:84 | `[...new Set(s)]` is the dedup from an empty seen-set; the contract of `PhraseData.DedupAfter` and the lemmas `PhraseData.DedupAfterDistinct` and `PhraseData.DedupAfterOrder` state what it keeps |
| `PhraseData.Categories` | src/data/phrases.ts:84 | `categories` is the dedup of the category column; `PhraseData.CategoriesDistinct`, `PhraseData.CategoriesExact` and `PhraseData.CategoriesFirstOccurrenceOrder` state its properties |
| `PhraseData.DedupAfterDistinct` | src/data/phrases.ts:84 | the dedup emits no element twice |
| `PhraseData.DedupAfterOrder` | src/data/phrases.ts:84 | the dedup emits elements in strictly increasing order of their first occurrence in the input |
| `PhraseData.CategoriesDistinct` | src/data/phrases.ts:84 | `categories` has no duplicates |
| `PhraseData.CategoriesExact` | src/data/phrases.ts:84 | every listed category is some phrase's category, and every phrase's category is listed |
| `PhraseData.CategoriesFirstOccurrenceOrder` | src/data/phrases.ts:84 | `categories` is ordered by first occurrence among the phrases |
| `PhraseData.ShippedCategories` | src/data/phrases.ts:21-84 | for the shipped table `categories` is Greetings, Basic Needs, Food & Drink, Directions |
| `PhraseData.ShippedIdsDistinct` | src/data/phrases.ts:21-82 | the shipped phrase ids are pairwise distinct |
| `PhraseData.RegistryCodes` | src/data/phrases.ts:13-19 | the registry's codes are exactly es, fr, de, it and ja |
| `PhraseData.ShippedTranslationsComplete` | src/data/phrases.ts:13-82 | every shipped phrase has a translation for every registered language (es, fr, de, it, ja) |
| `Speech.SpeechEngine.Current` | src/components/PhraseCard.tsx:22-41 | the utterance being spoken is the head of the queue, and there is none iff nothing is pending |
| `Speech.SpeechEngine.Cancel` | src/components/PhraseCard.tsx:22 | cancelling, which needs an available engine, leaves nothing pending |
| `Speech.SpeechEngine.Speak` | src/components/PhraseCard.tsx:41 | speaking, which needs an available engine, appends the utterance to the pending queue |
| `PhraseCardModel.LocaleTable` | src/components/PhraseCard.tsx:27-35 | es→es-ES, fr→fr-FR, de→de-DE, it→it-IT, ja→ja-JP, and en-US for every other code |
| `PhraseCardModel.LocalesMatchRegistry` | src/components/PhraseCard.tsx:27-35 | the locale table's codes are exactly the registered languages, and each registered code gets a locale of its own language, never the fallback |
| `PhraseCardModel.Locale` | src/components/PhraseCard.tsx:27-35 | `languageMap[selectedLanguage] \|\| 'en-US'`; `PhraseCardModel.LocaleTable` and `PhraseCardModel.LocalesMatchRegistry` state its values |
| `PhraseCardModel.TranslationFor` | src/components/PhraseCard.tsx:15 | the selected language's translation, or none; `PhraseCardModel.Render` states the card's behaviour in terms of it |
| `PhraseCardModel.PlaybackUtterance` | src/components/PhraseCard.tsx:24-36 | the utterance `playAudio` builds: the translation text, the mapped locale, the learning rate 0.8 and no explicit voice; `PhraseCardModel.PhraseCard.PlayAudio` states it is the one spoken |
| `PhraseCardModel.Render` | src/components/PhraseCard.tsx:50-71 | the card renders nothing iff the phrase has no translation for the selected language; otherwise it shows the phrase's category, English text and translation |
| `PhraseCardModel.ShippedCardsRender` | src/components/PhraseCard.tsx:50-52 | every shipped phrase renders a card in every registered language |
| `PhraseCardModel.AfterPlay` | src/components/PhraseCard.tsx:17-43 | without speech or a translation nothing changes; otherwise the flag is raised and exactly one utterance is pending, the translation in the mapped locale |
| `PhraseCardModel.AfterStop` | src/components/PhraseCard.tsx:45-48 | after stopping the flag is down and nothing is pending |
| `PhraseCardModel.AfterCallback` | src/components/PhraseCard.tsx:38-39 | the end and error callbacks lower the flag and leave the engine alone |
| `PhraseCardModel.AfterClick` | src/components/PhraseCard.tsx:77-78 | the button's transition; `PhraseCardModel.ClickToggles` and `PhraseCardModel.TransitionsKeepInvariant` state its effect |
| `PhraseCardModel.TransitionsKeepInvariant` | src/components/PhraseCard.tsx:17-48 | every transition keeps "playing implies speech available and a translation present" |
| `PhraseCardModel.PlayTwiceKeepsOnlySecond` | src/components/PhraseCard.tsx:19-24 | a second play before the first ends leaves only the second utterance pending, with the flag raised |
| `PhraseCardModel.StopIdempotent` | src/components/PhraseCard.tsx:45-48 | stopping twice equals stopping once |
| `PhraseCardModel.ClickToggles` | src/components/PhraseCard.tsx:77 | with speech and a translation the button flips the flag, and two presses from idle end silent with nothing pending |
| `PhraseCardModel.PhraseCard.constructor` | src/components/PhraseCard.tsx:12-13 | a card starts not playing, with its props and the shared engine, and takes speech availability from the engine |
| `PhraseCardModel.PhraseCard.PlayAudio` | src/components/PhraseCard.tsx:17-43 | the card's flag and the engine queue become `AfterPlay` of the old ones; the invariant is kept; with speech and a translation the card is playing and the engine is speaking exactly the translation in the mapped locale at rate 0.8 |
| `PhraseCardModel.PhraseCard.StopAudio` | src/components/PhraseCard.tsx:45-48 | callable while playing or with speech available; the flag and queue become `AfterStop` of the old ones, so the card is idle and the engine speaks nothing |
| `PhraseCardModel.PhraseCard.OnEnd` | src/components/PhraseCard.tsx:38 | the end callback lowers the flag only |
| `PhraseCardModel.PhraseCard.OnError` | src/components/PhraseCard.tsx:39 | the error callback lowers the flag only |
| `PhraseCardModel.PhraseCard.Click` | src/components/PhraseCard.tsx:77-78 | the button is inert without speech, runs stop while playing and play otherwise |

## Findings

| source | as written | input that shows it | evidently intended | confidence | as-written member | corrected member |
|---|---|---|---|---|---|---|
| src/pages/Index.tsx:110 | the "Listen" button always passes `'es'` to voice selection | language `fr`, voices `fr-FR` then `es-ES`: "Bonjour" gets the `es-ES` voice | choose the voice with the selected language | high (not executed) | `IndexPage.ListenPicksSpanishVoiceForFrench` | `IndexPage.Page.ListenInSelectedLanguage` |

## Left out

- JSX layout, styling, icons, and the Card/Button/Select/Tabs/Badge components.
- `LanguageSelector.tsx` and `CategoryFilter.tsx`. They only map static lists to buttons.
- The screen that mounts `PhraseCard` with `CategoryFilter` (whose "all categories" value is `null`, not `'all'`) and `LanguageSelector` over the dataset of `src/data/phrases.ts`. That screen is not part of this model, and neither is its own category and search filter; the category filter modelled here is the one of `src/pages/Index.tsx`.
- The page's `LANGUAGES` and `CATEGORIES` lists, the `selectedLang` header lookup, and the capitalised category labels. They feed only the display. The selection setters are direct field assignments on `IndexPage.Page`.
- The optional `audioUrl` field of the page's phrase shape. It is never set and never read.
- Unicode case mapping. `Text.Lower` maps only ASCII `A`–`Z`, so a query such as "É" does not match "é" as it would in the browser.
- Keys inherited by JavaScript objects (such as `constructor`), in `SAMPLE_PHRASES[selectedLanguage]` (src/pages/Index.tsx:129), `phrase.translations[selectedLanguage]` (src/components/PhraseCard.tsx:15) and `languageMap[selectedLanguage]` (src/components/PhraseCard.tsx:35). `IndexPage.CurrentPhrases`, `PhraseCardModel.TranslationFor` and `PhraseCardModel.Locale` treat every absent key as absent. The language selectors only offer codes of their own lists, so an inherited key is never selected.
- The real speech engine. It is modelled only by its queue and its `available` constant; `getVoices()` is a parameter, and the platform's progress through the queue is not modelled.
- The timing of the `onend`/`onerror` callbacks and React's batching of state updates. Callbacks are explicit method calls. Nothing ties a callback to the utterance it belongs to. For example, a card whose utterance another card cancelled is reset only when its callback is called.
- The speaking rate is the exact real `0.8`, not a floating-point number.
- Changes to a card's props during its lifetime. A `PhraseCardModel.PhraseCard` keeps its phrase and language fixed.
- `PhraseCardModel.PhraseCard.StopAudio` requires the card to be playing or speech to be available. The source calls the engine unguarded, which would throw without it; the button runs it only while playing, and the card's invariant says a playing card has speech.
