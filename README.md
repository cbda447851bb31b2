# RAG-online chat widget: keyword router, answer formatter and language state

The widget in `script.js` presents itself as a retrieval-augmented assistant,
but its answers come from a mock retrieval step, `simulateAIResponse`:

1. The query is lower-cased.
2. It is tested with `includes` against three fixed keyword lists, in a fixed
   priority order: vacation, then remote work, then HR.
3. The reply is the current language's canned answer for the first list that
   matches. When no list matches, the reply is the fallback text followed by
   a static knowledge-base excerpt (`mockFallbackData`).

The answer is then shown as HTML. `typeWriterEffect` chains two
regular-expression replacements:

- `**text**` becomes `<strong>text</strong>`, matched lazily and never across
  a line;
- every line feed becomes `<br>`.

The current language, `currentLang`, starts as `ru`. `setLanguage` changes it
only when `translations[lang]` is truthy.

The model has six modules:

- `Text`: the string primitives. `toLowerCase` covers ASCII, Latin-1 and
  basic Cyrillic capitals; `includes` is a left-to-right substring search, proved
  equal to "occurs at some position".
- `Translations`: the localized string table (`ru`, `en`, `pt`) with the
  exact texts, and `mockFallbackData`.
- `Router`: `simulateAIResponse` as the functions `Classify` and `Respond`,
  with the priority, case-insensitivity and fallback properties.
- `Scenarios`: the router applied to the source's own suggestion chips, and
  to a query where an HR keyword hides inside another word.
- `Formatter`: the replacement chain. The first regular expression is
  modelled by `Close` (the lazy `(.*?)` followed by `**`) and `Bold` (the
  global left-to-right scan). The second is `Br`.
- `Language`: a class holding `currentLang`, with the guarded setter and the
  lookup `translations[currentLang]`. It also models the guard as written in
  JavaScript, whose truthiness test also accepts inherited property names
  (see Findings).

## Model

| member | source | states |
|---|---|---|
| Text.LowerChar | script.js:258 | the lowered character is never a capital; a character that is not a capital is left unchanged |
| Text.Lower | script.js:258 | `toLowerCase` keeps the length and lowers each character independently |
| Text.LowerIdempotent | script.js:258 | lower-casing an already lower-cased string changes nothing |
| Text.LowerAppend | script.js:258 | lower-casing distributes over concatenation |
| Text.IncludesIff | script.js:262-264 | `includes` holds exactly when the word occurs at some position of the string |
| Text.IncludesInside | script.js:262-264 | a word is found whatever text surrounds it |
| Text.NotIncludesMissingChar | script.js:262-264 | a word containing a character that the string lacks is not found |
| Text.NotIncludesNoPair | script.js:264 | a two-letter word such as "hr" is not found when its first letter is never followed by its second |
| Translations.TableKeys | script.js:19-82 | `translations` has a bundle for exactly `ru`, `en` and `pt` |
| Router.Classify | script.js:262-275 | vacation iff a vacation keyword occurs; remote iff no vacation keyword occurs and a remote one does; HR iff neither of those occurs and an HR keyword does; fallback iff no keyword occurs |
| Router.Respond | script.js:257-278 | the reply is the answer of the first keyword list, in priority order, that matches the lower-cased query; otherwise it is the fallback text followed by `mockFallbackData` |
| Router.KeywordsAreLowerCase | script.js:262-264 | every keyword is already lower case, so it can match a lower-cased query |
| Router.VacationKeywordWins | script.js:262-268 | a query containing a vacation keyword written in any letter case, whatever else it contains, receives the vacation answer |
| Router.RemoteOnlyWithoutVacation | script.js:263-271 | the remote answer is given exactly when there is a remote keyword and no vacation keyword |
| Router.HROnlyWithoutOthers | script.js:264-274 | the HR answer is given exactly when an HR keyword occurs, possibly inside another word, and neither a vacation nor a remote keyword does |
| Router.FallbackHasPrefix | script.js:277 | the fallback reply is the fallback text followed by the excerpt: it has the fallback text as prefix and the sum of both lengths |
| Router.CaseInsensitive | script.js:258 | a query and its lower-cased form receive the same reply |
| Scenarios.ThreeGetsHRAnswer | script.js:264 | "Three" receives the HR answer, because "hr" occurs inside it |
| Scenarios.NoneOutsideAlphabet | script.js:262-264 | no keyword of a list occurs in a query written only with letters that each keyword partly lacks |
| Scenarios.RuVacationChip | script.js:25 | "Как оформить отпуск?" is classified as vacation |
| Scenarios.EnVacationChip | script.js:46 | "How to apply for leave?" is classified as vacation |
| Scenarios.PtVacationChip | script.js:66 | "Como pedir férias?" is classified as vacation |
| Scenarios.HRChipQueries | script.js:262-264 | each of "Контакты HR", "HR Contacts" and "Contatos de RH" is classified as HR |
| Scenarios.RuScheduleChip | script.js:26 | "График работы" matches no keyword and gets the fallback |
| Scenarios.EnScheduleChip | script.js:47 | "Work schedule" matches no keyword and gets the fallback |
| Scenarios.PtScheduleChip | script.js:67 | "Horário de trabalho" is classified as remote work, through "trabalho" |
| Scenarios.RussianChips | script.js:25-27 | the Russian chips lead to the vacation, fallback and HR answers |
| Scenarios.EnglishChips | script.js:46-48 | the English chips lead to the vacation, fallback and HR answers |
| Scenarios.PortugueseChips | script.js:66-68 | the Portuguese chips lead to the vacation, remote-work and HR answers |
| Formatter.Close | script.js:285 | a successful lazy match ends at a "**" with no line terminator before it |
| Formatter.CloseExact | script.js:285 | a lazy match closes at the first "**"; a failed match means every "**" has a line terminator before it |
| Formatter.CloseAfter | script.js:285 | after an opening "**", text on one line without '*' is captured whole |
| Formatter.BoldNoDoubleStar | script.js:285 | text without "**" passes through the first replacement unchanged |
| Formatter.BoldPlainPrefix | script.js:285 | text without '*' passes through unchanged whatever follows it |
| Formatter.BoldSpan | script.js:285 | "**x**", with `x` on one line and holding no '*', after text without '*', becomes `<strong>x</strong>`; the rest is formatted on its own |
| Formatter.BoldKeepsLineFeeds | script.js:285 | the first replacement neither adds nor removes a line feed |
| Formatter.Br | script.js:286 | the output holds no line feed; its length is the input length plus 3 per line feed; text without a line feed is unchanged |
| Formatter.UnBrBr | script.js:286 | the line-feed replacement can be undone on text without '<' of its own |
| Formatter.Format | script.js:284-286 | the formatted answer holds no line feed |
| Formatter.FormatPlain | script.js:284-286 | text with no '*' and no line feed is shown exactly as it is |
| Formatter.FormatLength | script.js:284-286 | for text without "**", the output is as long as the input plus 3 per line feed |
| Formatter.FormatLineFeeds | script.js:284-286 | the output is as long as the bold-replaced text plus 3 per line feed of the input |
| Language.LanguageState.constructor | script.js:96 | `currentLang` starts as `ru`, which has a bundle in the table |
| Language.LanguageState.SetLanguage | script.js:99-101 | a code with a bundle becomes the current language; any other code leaves the state unchanged; the invariant is kept |
| Language.LanguageState.Respond | script.js:258-259 | `translations[currentLang]` always finds a bundle of the source table, and the reply is the router's reply for it |
| Language.SetLanguages | script.js:99-101 | after any sequence of `setLanguage` calls, `currentLang` is `ru`, `en` or `pt`, and is either unchanged or one of the codes passed |
| Language.SetLanguageAsWritten | script.js:100 | the guard as written sets `currentLang` to the new code or leaves it as it was |
| Language.GuardAgreesOutsideInherited | script.js:100 | apart from names inherited from `Object.prototype`, the guard as written accepts exactly `ru`, `en` and `pt` |
| Language.AsWrittenLeavesTable | script.js:100 | as written, `setLanguage('constructor')` sets `currentLang` to a code that has no bundle |

## Left out

- The DOM side of `setLanguage` is left out (script.js:102-142): the `lang` attribute, the text, placeholder, title and aria updates, and the active-button toggle.
- Event wiring, timers, auto-resize, the typewriter's opacity transition and the assignment to `innerHTML` are user-interface plumbing, and are left out.
- The status lines `translations[currentLang].status_*` (script.js:236, 240) use the same lookup as `LanguageState.Respond` and are not modelled separately.
- server.py is not part of this model. It is an HTTP proxy to an external language-model service, with no logic of its own to state.
- Text.LowerChar: lowers only ASCII, Latin-1 and basic Cyrillic capitals. Other scripts, and mappings that change the length (such as U+0130), are left as they are. Every keyword and chip text of the source lies within the covered range.
- Formatter.Bold: it has no contract of its own. Its behaviour is stated by the lemmas `BoldNoDoubleStar`, `BoldPlainPrefix`, `BoldSpan` and `BoldKeepsLineFeeds`. The length of its output when spans are replaced is not stated.
- The regular-expression engine in general is not modelled, only the two fixed patterns. The `$1` substitution is the captured text inserted verbatim.
- The behaviour of the widget after the as-written guard accepts an inherited name is not modelled: the replies would then read `undefined` properties.

## Findings

| source | as written | input that shows it | evidently intended | confidence | as-written member | corrected member |
|---|---|---|---|---|---|---|
| script.js:100 | `if (!translations[lang]) return;` is a truthiness test. A property read also finds the names `translations` inherits from `Object.prototype`. | `setLanguage('constructor')`, reachable through a `data-lang` attribute, sets `currentLang` to `'constructor'`, which has no bundle. | Accept only the table's own keys, so that `currentLang` is always `ru`, `en` or `pt`. | low: reachable only if a `.lang-btn` element carries an inherited name as its `data-lang`; not executed | Language.AsWrittenLeavesTable | Language.LanguageState.SetLanguage |
