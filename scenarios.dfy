/**
 * The router applied to the source's own data: the suggestion chips of each
 * language (script.js:25-27, 46-48, 66-68) and a query in which a keyword
 * hides inside another word.
 *
 * Each chip is handled in steps so that the solver never unfolds the
 * substring search over a literal string: the lower-cased chip is first
 * described by the letters it is written with, and the keyword lists are
 * then ruled out from that description alone.
 */
module Scenarios {
  import opened Text
  import opened Translations
  import opened Router

  /** "hr" is found inside an unrelated word: "Three" gets the HR answer. */
  lemma ThreeGetsHRAnswer(b: Bundle, q: string)
    requires q == "Three"
    ensures Respond(b, q) == b.responseHr
  {
    LowerIs(q, "three");
    ThreeLetters(Lower(q));
  }

  /** "three" mentions "hr" and, having only these letters, nothing of higher priority. */
  lemma ThreeLetters(l: string)
    requires l == "three"
    ensures Classify(l) == HR
  {
    MentionedInside(l, HRKeywords, 0, "t", "ee");
    NoneOutsideAlphabet(l, {'t', 'h', 'r', 'e'}, VacationKeywords, 0, 0, 0, 0);
    NoneOutsideAlphabet(l, {'t', 'h', 'r', 'e'}, RemoteKeywords, 0, 2, 1, 2);
  }

  /** Every character of `q` is in `alphabet`. */
  predicate Within(q: string, alphabet: set<char>)
  {
    forall i :: 0 <= i < |q| ==> q[i] in alphabet
  }

  /** A query made of a keyword with text around it mentions that keyword's list. */
  lemma MentionedInside(q: string, words: seq<string>, k: nat, pre: string, post: string)
    requires k < |words| && q == pre + words[k] + post
    ensures MentionsAny(q, words)
  {
    IncludesInside(pre, words[k], post);
  }

  /**
   * No word of a four-word list occurs in a query written with letters from
   * `alphabet` when each word has a letter (the one at the given index)
   * outside it.
   */
  lemma NoneOutsideAlphabet(q: string, alphabet: set<char>, words: seq<string>, i0: nat, i1: nat, i2: nat, i3: nat)
    requires Within(q, alphabet)
    requires |words| == 4
    requires i0 < |words[0]| && words[0][i0] !in alphabet
    requires i1 < |words[1]| && words[1][i1] !in alphabet
    requires i2 < |words[2]| && words[2][i2] !in alphabet
    requires i3 < |words[3]| && words[3][i3] !in alphabet
    ensures !MentionsAny(q, words)
  {
    NotIncludesMissingChar(q, words[0], i0);
    NotIncludesMissingChar(q, words[1], i1);
    NotIncludesMissingChar(q, words[2], i2);
    NotIncludesMissingChar(q, words[3], i3);
  }

  /** The texts of the Russian suggestion chips. */
  lemma RuChipTexts()
    ensures RU.suggestion1 == "Как оформить отпуск?" && RU.suggestion2 == "График работы"
    ensures RU.suggestion3 == "Контакты HR"
  {
  }

  /** The texts of the English suggestion chips. */
  lemma EnChipTexts()
    ensures EN.suggestion1 == "How to apply for leave?" && EN.suggestion2 == "Work schedule"
    ensures EN.suggestion3 == "HR Contacts"
  {
  }

  /** The texts of the Portuguese suggestion chips. */
  lemma PtChipTexts()
    ensures PT.suggestion1 == "Como pedir férias?" && PT.suggestion2 == "Horário de trabalho"
    ensures PT.suggestion3 == "Contatos de RH"
  {
  }

  /** The lower-cased vacation chip texts each contain a vacation keyword. */
  lemma LoweredVacationChips(l: string)
    requires l in {"как оформить отпуск?", "how to apply for leave?", "como pedir férias?"}
    ensures MentionsAny(l, VacationKeywords)
  {
    if l == "как оформить отпуск?" {
      MentionedInside(l, VacationKeywords, 0, "как оформить ", "?");
    } else if l == "how to apply for leave?" {
      MentionedInside(l, VacationKeywords, 2, "how to apply for ", "?");
    } else {
      MentionedInside(l, VacationKeywords, 3, "como pedir ", "?");
    }
  }

  /** The Russian vacation chip reaches the vacation answer. */
  lemma RuVacationChip(q: string)
    requires q == "Как оформить отпуск?"
    ensures Classify(Lower(q)) == Vacation
  {
    LowerIs(q, "как оформить отпуск?");
    LoweredVacationChips(Lower(q));
  }

  /** The English vacation chip reaches the vacation answer. */
  lemma EnVacationChip(q: string)
    requires q == "How to apply for leave?"
    ensures Classify(Lower(q)) == Vacation
  {
    LowerIs(q, "how to apply for leave?");
    LoweredVacationChips(Lower(q));
  }

  /** The Portuguese vacation chip reaches the vacation answer. */
  lemma PtVacationChip(q: string)
    requires q == "Como pedir férias?"
    ensures Classify(Lower(q)) == Vacation
  {
    LowerIs(q, "como pedir férias?");
    LoweredVacationChips(Lower(q));
  }

  // The letters each lower-cased chip text is written with.
  const RuHRLetters: set<char> := {'к', 'о', 'н', 'т', 'а', 'ы', ' ', 'h', 'r'}
  const EnHRLetters: set<char> := {'h', 'r', ' ', 'c', 'o', 'n', 't', 'a', 's'}
  const PtHRLetters: set<char> := {'c', 'o', 'n', 't', 'a', 's', ' ', 'd', 'e', 'r', 'h'}
  const PtScheduleLetters: set<char> := {'h', 'o', 'r', 'á', 'i', ' ', 'd', 'e', 't', 'a', 'b', 'l'}
  const RuScheduleLetters: set<char> := {'г', 'р', 'а', 'ф', 'и', 'к', ' ', 'б', 'о', 'т', 'ы'}
  const EnScheduleLetters: set<char> := {'w', 'o', 'r', 'k', ' ', 's', 'c', 'h', 'e', 'd', 'u', 'l'}

  /** The lower-cased HR chip texts: their letters, and an HR keyword in each. */
  lemma LoweredHRChips(l: string)
    requires l in {"контакты hr", "hr contacts", "contatos de rh"}
    ensures l == "контакты hr" ==> Within(l, RuHRLetters)
    ensures l == "hr contacts" ==> Within(l, EnHRLetters)
    ensures l == "contatos de rh" ==> Within(l, PtHRLetters)
    ensures MentionsAny(l, HRKeywords)
  {
    if l == "контакты hr" {
      MentionedInside(l, HRKeywords, 0, "контакты ", "");
    } else if l == "hr contacts" {
      MentionedInside(l, HRKeywords, 0, "", " contacts");
    } else {
      MentionedInside(l, HRKeywords, 2, "contatos de ", "");
    }
  }

  /** A query written with the letters of "контакты hr" that mentions an HR keyword is an HR query. */
  lemma RuHRLettersClassify(l: string)
    requires Within(l, RuHRLetters) && MentionsAny(l, HRKeywords)
    ensures Classify(l) == HR
  {
    NoneOutsideAlphabet(l, RuHRLetters, VacationKeywords, 2, 0, 0, 0);
    NoneOutsideAlphabet(l, RuHRLetters, RemoteKeywords, 0, 1, 1, 0);
  }

  /** A query written with the letters of "hr contacts" that mentions an HR keyword is an HR query. */
  lemma EnHRLettersClassify(l: string)
    requires Within(l, EnHRLetters) && MentionsAny(l, HRKeywords)
    ensures Classify(l) == HR
  {
    NoneOutsideAlphabet(l, EnHRLetters, VacationKeywords, 0, 0, 0, 0);
    NoneOutsideAlphabet(l, EnHRLetters, RemoteKeywords, 0, 1, 2, 3);
  }

  /** A query written with the letters of "contatos de rh" that mentions an HR keyword is an HR query. */
  lemma PtHRLettersClassify(l: string)
    requires Within(l, PtHRLetters) && MentionsAny(l, HRKeywords)
    ensures Classify(l) == HR
  {
    NoneOutsideAlphabet(l, PtHRLetters, VacationKeywords, 0, 0, 0, 0);
    NoneOutsideAlphabet(l, PtHRLetters, RemoteKeywords, 0, 2, 2, 3);
  }

  /** The HR chip texts reach the HR answer. */
  lemma HRChipQueries(q: string)
    requires q in {"Контакты HR", "HR Contacts", "Contatos de RH"}
    ensures Classify(Lower(q)) == HR
  {
    if q == "Контакты HR" {
      LowerIs(q, "контакты hr");
      LoweredHRChips(Lower(q));
      RuHRLettersClassify(Lower(q));
    } else if q == "HR Contacts" {
      LowerIs(q, "hr contacts");
      LoweredHRChips(Lower(q));
      EnHRLettersClassify(Lower(q));
    } else {
      LowerIs(q, "contatos de rh");
      LoweredHRChips(Lower(q));
      PtHRLettersClassify(Lower(q));
    }
  }

  /** "horário de trabalho": its letters, and the keyword "trabalho". */
  lemma LoweredPtScheduleChip(l: string)
    requires l == "horário de trabalho"
    ensures Within(l, PtScheduleLetters) && MentionsAny(l, RemoteKeywords)
  {
    MentionedInside(l, RemoteKeywords, 3, "horário de ", "");
  }

  /** "график работы": its letters. */
  lemma LoweredRuScheduleChip(l: string)
    requires l == "график работы"
    ensures Within(l, RuScheduleLetters)
  {
  }

  /** "work schedule": its letters, and neither "hr" nor "rh" although both letters occur. */
  lemma LoweredEnScheduleChip(l: string)
    requires l == "work schedule"
    ensures Within(l, EnScheduleLetters) && !Includes(l, "hr") && !Includes(l, "rh")
  {
    assert forall i :: 0 <= i < |l| - 1 && l[i] == 'h' ==> l[i + 1] != 'r';
    assert forall i :: 0 <= i < |l| - 1 && l[i] == 'r' ==> l[i + 1] != 'h';
    NotIncludesNoPair(l, "hr");
    NotIncludesNoPair(l, "rh");
  }

  /** A query written with the letters of "horário de trabalho" that mentions a remote keyword is a remote query. */
  lemma PtScheduleLettersClassify(l: string)
    requires Within(l, PtScheduleLetters) && MentionsAny(l, RemoteKeywords)
    ensures Classify(l) == Remote
  {
    NoneOutsideAlphabet(l, PtScheduleLetters, VacationKeywords, 0, 0, 3, 0);
  }

  /** A query written with the letters of "график работы" matches no keyword. */
  lemma RuScheduleLettersClassify(l: string)
    requires Within(l, RuScheduleLetters)
    ensures Classify(l) == Fallback
  {
    NoneOutsideAlphabet(l, RuScheduleLetters, VacationKeywords, 2, 0, 0, 0);
    NoneOutsideAlphabet(l, RuScheduleLetters, RemoteKeywords, 0, 0, 0, 0);
    NoneOutsideAlphabet(l, RuScheduleLetters, HRKeywords, 0, 2, 0, 0);
  }

  /**
   * A query written with the letters of "work schedule" in which neither
   * "hr" nor "rh" occurs matches no keyword.
   */
  lemma EnScheduleLettersClassify(l: string)
    requires Within(l, EnScheduleLetters)
    requires !Includes(l, "hr") && !Includes(l, "rh")
    ensures Classify(l) == Fallback
  {
    NoneOutsideAlphabet(l, EnScheduleLetters, VacationKeywords, 0, 0, 2, 0);
    NoneOutsideAlphabet(l, EnScheduleLetters, RemoteKeywords, 0, 2, 2, 0);
    NotIncludesMissingChar(l, "кадр", 0);
    NotIncludesMissingChar(l, "contact", 2);
  }

  /** The Portuguese "work schedule" chip reaches the remote-work answer through "trabalho". */
  lemma PtScheduleChip(q: string)
    requires q == "Horário de trabalho"
    ensures Classify(Lower(q)) == Remote
  {
    LowerIs(q, "horário de trabalho");
    LoweredPtScheduleChip(Lower(q));
    PtScheduleLettersClassify(Lower(q));
  }

  /** The Russian "work schedule" chip matches no keyword. */
  lemma RuScheduleChip(q: string)
    requires q == "График работы"
    ensures Classify(Lower(q)) == Fallback
  {
    LowerIs(q, "график работы");
    LoweredRuScheduleChip(Lower(q));
    RuScheduleLettersClassify(Lower(q));
  }

  /** The English "work schedule" chip matches no keyword. */
  lemma EnScheduleChip(q: string)
    requires q == "Work schedule"
    ensures Classify(Lower(q)) == Fallback
  {
    LowerIs(q, "work schedule");
    LoweredEnScheduleChip(Lower(q));
    EnScheduleLettersClassify(Lower(q));
  }

  /**
   * The Russian chips: "Как оформить отпуск?" reaches the vacation answer,
   * "График работы" the fallback (no keyword is a substring of it) and
   * "Контакты HR" the HR answer.
   */
  lemma RussianChips(b: Bundle)
    requires b == RU
    ensures Classify(Lower(b.suggestion1)) == Vacation
    ensures Classify(Lower(b.suggestion2)) == Fallback
    ensures Classify(Lower(b.suggestion3)) == HR
  {
    RuChipTexts();
    RuVacationChip(b.suggestion1);
    RuScheduleChip(b.suggestion2);
    HRChipQueries(b.suggestion3);
  }

  /**
   * The English chips: "How to apply for leave?" reaches the vacation
   * answer, "Work schedule" the fallback and "HR Contacts" the HR answer.
   */
  lemma EnglishChips(b: Bundle)
    requires b == EN
    ensures Classify(Lower(b.suggestion1)) == Vacation
    ensures Classify(Lower(b.suggestion2)) == Fallback
    ensures Classify(Lower(b.suggestion3)) == HR
  {
    EnChipTexts();
    EnVacationChip(b.suggestion1);
    EnScheduleChip(b.suggestion2);
    HRChipQueries(b.suggestion3);
  }

  /**
   * The Portuguese chips: "Como pedir férias?" reaches the vacation answer,
   * "Horário de trabalho" the remote-work answer (through "trabalho") and
   * "Contatos de RH" the HR answer.
   */
  lemma PortugueseChips(b: Bundle)
    requires b == PT
    ensures Classify(Lower(b.suggestion1)) == Vacation
    ensures Classify(Lower(b.suggestion2)) == Remote
    ensures Classify(Lower(b.suggestion3)) == HR
  {
    PtChipTexts();
    PtVacationChip(b.suggestion1);
    PtScheduleChip(b.suggestion2);
    HRChipQueries(b.suggestion3);
  }
}
