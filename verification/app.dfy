/** The analysis step of the application: the language the user picked,
    or the detector's guess when they picked automatic detection, is
    handed with the code to the line explainer. */
module App {
  import opened Options
  import opened Text
  import opened Types
  import opened LanguageDetector
  import opened CodeParser

  /** The choices of the language selector. */
  datatype SupportedLanguage = Python | JavaScript | Java | Cpp | C | Html | Css | Auto

  /** The selector's value as the application passes it on. */
  function Key(l: SupportedLanguage): string {
    match l
    case Python => "python"
    case JavaScript => "javascript"
    case Java => "java"
    case Cpp => "cpp"
    case C => "c"
    case Html => "html"
    case Css => "css"
    case Auto => "auto"
  }

  /** Every choice has its own key, so the key determines the choice. */
  lemma KeysDistinct(a: SupportedLanguage, b: SupportedLanguage)
    ensures Key(a) == Key(b) <==> a == b
  {
  }

  /** The language the explainer is run with. */
  function Resolve(code: string, selected: SupportedLanguage): string {
    if selected == Auto then DetectLanguage(code) else Key(selected)
  }

  /** The handler's work once its delay has passed. */
  function Analyze(code: string, selected: SupportedLanguage): ExplanationResult {
    ParseAndExplainCode(code, Resolve(code, selected))
  }

  /** The explainer runs with the picked language, or under automatic
      detection with one of the four registered languages; never with
      `auto` itself. */
  lemma ResolveLanguage(code: string, selected: SupportedLanguage)
    ensures selected != Auto ==> Resolve(code, selected) == Key(selected)
    ensures selected == Auto ==>
      Resolve(code, selected) == DetectLanguage(code) && Resolve(code, selected) in LanguageNames
    ensures Resolve(code, selected) != "auto"
  {
    if selected == Auto {
      DetectLanguageIsRegistered(code);
    }
  }

  /** The table the lines are explained with: the resolved language's own
      table when it has one, which is always the case under automatic
      detection; the JavaScript table for C, HTML and CSS. */
  lemma ResolvedTable(code: string, selected: SupportedLanguage)
    ensures selected in {C, Html, Css} ==> GetLanguageConfig(Resolve(code, selected)) == JavaScriptConfig
    ensures selected !in {C, Html, Css} ==>
      exists k :: 0 <= k < |LanguageConfigs| && LanguageConfigs[k].0 == Resolve(code, selected)
        && GetLanguageConfig(Resolve(code, selected)) == LanguageConfigs[k].1
  {
    var language := Resolve(code, selected);
    ResolveLanguage(code, selected);
    if selected in {C, Html, Css} {
      GetLanguageConfigFallback(language);
    } else if selected == Auto {
      var k :| 0 <= k < |LanguageNames| && LanguageNames[k] == language;
      GetLanguageConfigKnown(k);
    } else {
      var k := match selected
        case Python => 0
        case JavaScript => 1
        case Java => 2
        case _ => 3;
      GetLanguageConfigKnown(k);
    }
  }

  /** The result names the resolved language in both fields, lists the
      code's non-blank lines in order, each explained with the resolved
      language's table, and its summary reads back as the clauses of the
      records. */
  lemma AnalyzeResult(code: string, selected: SupportedLanguage)
    ensures var r := Analyze(code, selected);
      var language := Resolve(code, selected);
      && r.language == language && r.detectedLanguage == language
      && Codes(r.lines) == DetectionLines(code)
      && r.lines == ExplainLines(Split(code, '\n'), GetLanguageConfig(language))
      && ReadSummary(r.summary, language) == Some(ClausesOf(r.lines))
  {
    var language := Resolve(code, selected);
    ParseAndExplainCodeLines(code, language);
    SummaryReadsBack(Analyze(code, selected).lines, language);
  }
}
