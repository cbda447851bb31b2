/**
 * The mock retrieval step `simulateAIResponse` (script.js:257-278): the
 * query is lower-cased, tested against three fixed keyword lists in
 * priority order (vacation, remote work, HR), and answered with the current
 * language's canned response for the first list that matches, or with the
 * fallback text followed by the static knowledge-base excerpt.
 */
module Router {
  import opened Text
  import opened Translations

  /** Which canned answer a query receives. */
  datatype Topic = Vacation | Remote | HR | Fallback

  const VacationKeywords: seq<string> := ["отпуск", "vacation", "leave", "férias"]
  const RemoteKeywords: seq<string> := ["удален", "remote", "home", "trabalho"]
  const HRKeywords: seq<string> := ["hr", "кадр", "rh", "contact"]

  /** Some word of `words` is a substring of `q` (the `||` chain of `includes`). */
  predicate MentionsAny(q: string, words: seq<string>)
  {
    exists k :: 0 <= k < |words| && Includes(q, words[k])
  }

  /**
   * The topic of an already lower-cased query: the first keyword list, in
   * priority order, that has a word occurring in it.
   */
  function Classify(q: string): (t: Topic)
    ensures t == Vacation <==> MentionsAny(q, VacationKeywords)
    ensures t == Remote <==> !MentionsAny(q, VacationKeywords) && MentionsAny(q, RemoteKeywords)
    ensures t == HR <==>
      !MentionsAny(q, VacationKeywords) && !MentionsAny(q, RemoteKeywords) && MentionsAny(q, HRKeywords)
    ensures t == Fallback <==>
      !MentionsAny(q, VacationKeywords) && !MentionsAny(q, RemoteKeywords) && !MentionsAny(q, HRKeywords)
  {
    if MentionsAny(q, VacationKeywords) then Vacation
    else if MentionsAny(q, RemoteKeywords) then Remote
    else if MentionsAny(q, HRKeywords) then HR
    else Fallback
  }

  /** The text shown for a topic in the language of bundle `b`. */
  function Answer(b: Bundle, t: Topic): string
  {
    match t
    case Vacation => b.responseVacation
    case Remote => b.responseRemote
    case HR => b.responseHr
    case Fallback => b.responseFallback + MockFallbackData
  }

  /** `simulateAIResponse(query)` with `translations[currentLang]` being `b`. */
  function Respond(b: Bundle, query: string): (r: string)
    ensures MentionsAny(Lower(query), VacationKeywords) ==> r == b.responseVacation
    ensures !MentionsAny(Lower(query), VacationKeywords) && MentionsAny(Lower(query), RemoteKeywords)
            ==> r == b.responseRemote
    ensures !MentionsAny(Lower(query), VacationKeywords) && !MentionsAny(Lower(query), RemoteKeywords)
            && MentionsAny(Lower(query), HRKeywords)
            ==> r == b.responseHr
    ensures !MentionsAny(Lower(query), VacationKeywords) && !MentionsAny(Lower(query), RemoteKeywords)
            && !MentionsAny(Lower(query), HRKeywords)
            ==> r == b.responseFallback + MockFallbackData
  {
    Answer(b, Classify(Lower(query)))
  }

  /** Every keyword list is written in lower case. */
  lemma KeywordsAreLowerCase(words: seq<string>, k: nat)
    requires words in {VacationKeywords, RemoteKeywords, HRKeywords}
    requires k < |words|
    ensures Lower(words[k]) == words[k]
  {
    LowerOfLowerCase(words[k]);
  }

  /**
   * A query that contains a vacation keyword, written in any letter case, is
   * answered with the vacation text, whatever else it contains.
   */
  lemma {:induction false} VacationKeywordWins(b: Bundle, pre: string, w: string, k: nat, post: string)
    requires k < |VacationKeywords| && Lower(w) == VacationKeywords[k]
    ensures Respond(b, pre + w + post) == b.responseVacation
  {
    LowerAppend(pre, w);
    LowerAppend(pre + w, post);
    IncludesInside(Lower(pre), VacationKeywords[k], Lower(post));
  }

  /**
   * The remote-work text is given exactly to queries with a remote keyword
   * and no vacation keyword.
   */
  lemma RemoteOnlyWithoutVacation(b: Bundle, query: string)
    requires b.responseRemote != b.responseVacation
    requires b.responseRemote != b.responseHr
    requires b.responseRemote != b.responseFallback + MockFallbackData
    ensures Respond(b, query) == b.responseRemote <==>
      !MentionsAny(Lower(query), VacationKeywords) && MentionsAny(Lower(query), RemoteKeywords)
  {
  }

  /**
   * The HR text is given exactly to queries with an HR keyword anywhere
   * (even inside another word) and neither a vacation nor a remote keyword.
   */
  lemma HROnlyWithoutOthers(b: Bundle, query: string)
    requires b.responseHr != b.responseVacation
    requires b.responseHr != b.responseRemote
    requires b.responseHr != b.responseFallback + MockFallbackData
    ensures Respond(b, query) == b.responseHr <==>
      !MentionsAny(Lower(query), VacationKeywords) && !MentionsAny(Lower(query), RemoteKeywords)
      && MentionsAny(Lower(query), HRKeywords)
  {
  }

  /** The fallback answer always starts with the localized fallback text. */
  lemma FallbackHasPrefix(b: Bundle, query: string)
    requires Classify(Lower(query)) == Fallback
    ensures |Respond(b, query)| == |b.responseFallback| + |MockFallbackData|
    ensures Respond(b, query)[..|b.responseFallback|] == b.responseFallback
  {
  }

  /** Letter case does not matter: a query and its lower-cased form get the same answer. */
  lemma CaseInsensitive(b: Bundle, query: string)
    ensures Respond(b, query) == Respond(b, Lower(query))
  {
    LowerIdempotent(query);
  }
}
