/** The records the analyser exchanges: one explained line, the whole
    result, and the per-language rule table. */
module Types {
  import opened Patterns

  /** The category of an explained line. The field is called `type` in
      the analyser; `type` is a keyword here, so it is `kind`. */
  datatype LineType =
    | Comment
    | Variable
    | Function
    | Loop
    | Condition
    | Class
    | Import
    | Return
    | Other

  /** One non-blank input line: its 1-based position in the input, the
      line as written (not trimmed), the sentence explaining it and its
      category. */
  datatype CodeLine = CodeLine(lineNumber: nat, code: string, explanation: string, kind: LineType)

  /** What the analyser returns: the explained lines in input order, the
      summary paragraph, and the language twice (the analyser fills both
      fields from its argument). */
  datatype ExplanationResult = ExplanationResult(
    lines: seq<CodeLine>,
    summary: string,
    language: string,
    detectedLanguage: string)

  /** The rules of one language: its display name, the keywords the
      detector counts, and one list of patterns per category. */
  datatype LanguageConfig = LanguageConfig(
    name: string,
    keywords: seq<string>,
    commentPatterns: seq<Pattern>,
    functionPatterns: seq<Pattern>,
    variablePatterns: seq<Pattern>,
    loopPatterns: seq<Pattern>,
    conditionPatterns: seq<Pattern>,
    classPatterns: seq<Pattern>)
}
