/**
 * The widget's language state (script.js:96, 99-101): `currentLang` starts
 * as "ru" and `setLanguage(lang)` assigns it only when the guard
 * `translations[lang]` holds. With the guard read as a test of the table's
 * own keys, as `LanguageState.SetLanguage` models it, the lookup
 * `translations[currentLang]` (script.js:236, 240, 259) always finds a
 * bundle; the truthiness test as written also lets inherited names through
 * (`AsWrittenLeavesTable`).
 */
module Language {
  import opened Translations
  import opened Router

  /**
   * The module-level `currentLang` variable together with its guarded
   * setter; `translations` is the table the closure reads.
   */
  class LanguageState {
    const translations: map<string, Bundle>
    var currentLang: string

    /**
     * The table is the source's `translations`, which knows the three
     * language codes, and `translations[currentLang]` is one of its bundles.
     */
    predicate Valid()
      reads this
    {
      translations == Table && translations.Keys == Languages && currentLang in translations
    }

    /** `let currentLang = 'ru'`, followed by the initial `setLanguage('ru')`. */
    constructor ()
      ensures translations == Table
      ensures currentLang == "ru"
      ensures Valid()
    {
      translations := Table;
      currentLang := "ru";
      TableKeys();
    }

    /**
     * `setLanguage(lang)`: a code without a bundle leaves the state as it
     * is; any other code becomes the current language.
     */
    method SetLanguage(lang: string)
      modifies this
      ensures lang in translations ==> currentLang == lang
      ensures lang !in translations ==> currentLang == old(currentLang)
      ensures old(Valid()) ==> Valid()
    {
      if lang !in translations {
        return;
      }
      currentLang := lang;
    }

    /** `simulateAIResponse(query)`: the lookup `translations[currentLang]` always succeeds. */
    method Respond(query: string) returns (r: string)
      requires Valid()
      ensures r == Router.Respond(translations[currentLang], query)
    {
      var t := translations[currentLang];
      r := Router.Respond(t, query);
    }
  }

  /**
   * Names every JavaScript object inherits from `Object.prototype`; reading
   * any of them from the table yields a function or an object, which is
   * truthy.
   */
  const InheritedNames: set<string> := {
    "constructor", "hasOwnProperty", "isPrototypeOf", "propertyIsEnumerable",
    "toLocaleString", "toString", "valueOf", "__proto__",
    "__defineGetter__", "__defineSetter__", "__lookupGetter__", "__lookupSetter__"
  }

  /**
   * The guard `!translations[lang]` as written: a property read is truthy for
   * the table's own keys and also for the names inherited from
   * `Object.prototype`.
   */
  predicate GuardPassesAsWritten(lang: string)
  {
    lang in Languages || lang in InheritedNames
  }

  /** `currentLang` after `setLanguage(lang)` as written. */
  function SetLanguageAsWritten(current: string, lang: string): (r: string)
    ensures r == current || r == lang
  {
    if GuardPassesAsWritten(lang) then lang else current
  }

  /**
   * The guard as written agrees with a test of the table's keys on every
   * code except the inherited names.
   */
  lemma GuardAgreesOutsideInherited(lang: string)
    requires lang !in InheritedNames
    ensures GuardPassesAsWritten(lang) <==> lang in Languages
  {
  }

  /**
   * As written, `setLanguage('constructor')` passes the guard and leaves
   * `currentLang` naming no bundle of the table.
   */
  lemma AsWrittenLeavesTable()
    ensures SetLanguageAsWritten("ru", "constructor") == "constructor"
    ensures "constructor" !in Languages
  {
  }

  /**
   * Any sequence of `setLanguage` calls keeps `currentLang` one of "ru",
   * "en", "pt", and leaves it either unchanged or equal to one of the codes
   * that were passed.
   */
  method SetLanguages(st: LanguageState, langs: seq<string>)
    requires st.Valid()
    modifies st
    ensures st.Valid() && st.currentLang in Languages
    ensures st.currentLang == old(st.currentLang) || st.currentLang in langs
  {
    var i := 0;
    while i < |langs|
      invariant 0 <= i <= |langs|
      invariant st.Valid()
      invariant st.currentLang == old(st.currentLang) || st.currentLang in langs[..i]
    {
      st.SetLanguage(langs[i]);
      i := i + 1;
    }
    assert langs[..i] == langs;
  }
}
