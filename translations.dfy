/**
 * The localized string table of the chat widget (script.js:19-82) and the
 * static document appended to the fallback answer (script.js:85-94).
 */
module Translations {

  /** One language's strings, one field per key of the source's table. */
  datatype Bundle = Bundle(
    titleMain: string,
    minimizeBtnTitle: string,
    inputPlaceholder: string,
    suggestion1: string,
    suggestion2: string,
    suggestion3: string,
    sourceLabel: string,
    sendBtnAria: string,
    clearBtnTitle: string,
    copyBtnTitle: string,
    statusAnalyzing: string,
    statusGenerating: string,
    responseVacation: string,
    responseRemote: string,
    responseHr: string,
    responseFallback: string
  )

  /** The `ru` bundle (script.js:20-41). */
  const RU: Bundle := Bundle(
    titleMain := "AI Knowledge Base",
    minimizeBtnTitle := "Свернуть",
    inputPlaceholder := "Задайте вопрос по базе знаний...",
    suggestion1 := "Как оформить отпуск?",
    suggestion2 := "График работы",
    suggestion3 := "Контакты HR",
    sourceLabel := "Источник: Внутренняя документация",
    sendBtnAria := "Отправить",
    clearBtnTitle := "Очистить",
    copyBtnTitle := "Копировать",
    statusAnalyzing := "Анализирую базу знаний...",
    statusGenerating := "Формирую ответ...",
    responseVacation := "Согласно графику отпусков, вы можете брать **28 календарных дней** в году. \n\nВажно: одна из частей отпуска должна быть не менее 14 дней. Заявление нужно подать за 2 недели до начала.",
    responseRemote := "Политика компании позволяет работать удаленно **до 3 дней в неделю**. \n\nЭто нужно согласовать с вашим руководителем. Если хотите перейти на полную удаленку, потребуется доп. соглашение.",
    responseHr := "Вы можете связаться с HR-отделом по почте **hr@company.com**.\nТакже доступен внутренний номер 1024 (Мария Иванова).",
    responseFallback := "Я поискал это в базе знаний, но не нашел точного совпадения. \n\nВот что есть общего:\n"
  )

  /** The `en` bundle (script.js:42-61). */
  const EN: Bundle := Bundle(
    titleMain := "AI Knowledge Base",
    minimizeBtnTitle := "Minimize",
    inputPlaceholder := "Ask a question...",
    suggestion1 := "How to apply for leave?",
    suggestion2 := "Work schedule",
    suggestion3 := "HR Contacts",
    sourceLabel := "Source: Internal Documentation",
    sendBtnAria := "Send",
    clearBtnTitle := "Clear",
    copyBtnTitle := "Copy",
    statusAnalyzing := "Analyzing knowledge base...",
    statusGenerating := "Generating answer...",
    responseVacation := "According to the vacation schedule, you can take **28 calendar days** per year. \n\nImportant: one part of the vacation must be at least 14 days. You need to apply 2 weeks in advance.",
    responseRemote := "Company policy allows remote work **up to 3 days a week**. \n\nThis must be agreed with your manager. If you want to switch to full remote work, an additional agreement is required.",
    responseHr := "You can contact the HR department via email **hr@company.com**.\nInternal extension 1024 (Maria Ivanova) is also available.",
    responseFallback := "I searched the knowledge base but couldn't find an exact match. \n\nHere is what I found:\n"
  )

  /** The `pt` bundle (script.js:62-81). */
  const PT: Bundle := Bundle(
    titleMain := "Base de Conhecimento IA",
    minimizeBtnTitle := "Minimizar",
    inputPlaceholder := "Faça uma pergunta...",
    suggestion1 := "Como pedir férias?",
    suggestion2 := "Horário de trabalho",
    suggestion3 := "Contatos de RH",
    sourceLabel := "Fonte: Documentação Interna",
    sendBtnAria := "Enviar",
    clearBtnTitle := "Limpar",
    copyBtnTitle := "Copiar",
    statusAnalyzing := "Analisando base de conhecimento...",
    statusGenerating := "Gerando resposta...",
    responseVacation := "De acordo com o cronograma de férias, você pode tirar **28 dias corridos** por ano. \n\nImportante: uma das partes das férias deve ter pelo menos 14 dias. Você precisa solicitar com 2 semanas de antecedência.",
    responseRemote := "A política da empresa permite trabalho remoto **até 3 dias por semana**. \n\nIsso deve ser acordado com seu gerente. Se quiser mudar para trabalho remoto total, é necessário um acordo adicional.",
    responseHr := "Você pode entrar em contato com o departamento de RH pelo e-mail **hr@company.com**.\nO ramal interno 1024 (Maria Ivanova) também está disponível.",
    responseFallback := "Pesquisei na base de conhecimento, mas não encontrei uma correspondência exata. \n\nAqui está o que encontrei:\n"
  )

  /** The table `translations`, keyed by language code. */
  const Table: map<string, Bundle> := map["ru" := RU, "en" := EN, "pt" := PT]

  /** The language codes the widget knows: the table's own keys. */
  const Languages: set<string> := {"ru", "en", "pt"}

  /** The knowledge-base excerpt `mockFallbackData`, a template literal. */
  const MockFallbackData: string := "\n**Remote Work / Удаленная работа / Trabalho Remoto**\nPolicy: up to 3 days/week. / Политика: до 3 дней. / Política: até 3 dias.\n\n**Vacation / Отпуск / Férias**\n28 days/year. / 28 дней в году. / 28 dias/ano.\n\n**HR / Кадры / RH**\nEmail: hr@company.com\n    "

  /** The table has a bundle for exactly the three known language codes. */
  lemma TableKeys()
    ensures Table.Keys == Languages
  {
  }
}
