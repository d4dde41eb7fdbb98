# CodeExplainer analyser, modelled in Dafny

CodeExplainer is a small web application. You paste source code into it.
It guesses the language, or takes the language you chose, and returns
three things:

- one plain-English sentence per non-blank line;
- a category for each of those lines (comment, function, class, loop,
  condition, variable, return, import or other);
- a one-paragraph summary of the code.

This project models the analysis behind that page as pure Dafny functions
and proves properties of it. The model has four parts.

- **The language tables and the detector** (`LanguageDetector`). There are
  four rule tables: Python, JavaScript, Java and C++. Each holds a keyword
  list and six lists of regular expressions. The registry lists them in key
  order, and an unknown name falls back to the JavaScript table. The
  detector splits the code on `'\n'` and drops the lines that trim to
  nothing. For each language, each remaining line scores one point per
  keyword it contains. The reduce over the registry keeps the later
  language on a tie. When every score is zero, the detector answers
  `"javascript"`.
- **The patterns** (`Patterns`, `Regex`, `PatternSemantics`). Every regular
  expression in the tables is a hand-written matcher. It returns what
  `line.match(re)` returns, with the capture groups. Each matcher is proved
  to accept exactly the strings its regular expression accepts, under a
  reference semantics of the regular-expression fragment used (`Regex`).
- **The line explainer and the summariser** (`CodeParser`). One chain of
  checks gives each trimmed line its category and sentence, and the first
  check that succeeds wins. The chain is:
  1. comment, function, class, loop, condition, variable;
  2. `return`;
  3. import;
  4. output;
  5. the generic sentences.

  Then come the name extractors, the numbering of the non-blank lines, and
  the summary built from the categories and sentences.
- **The analysis step of the page** (`App`). When the choice is "auto",
  the detected language is used; otherwise the chosen one is. The code is
  then explained under that language.

Strings are `seq<char>`. Text operations (`split`, `trim`, `includes`) are
in `Text`, and the records are in `Types`. `DetectorExamples` and
`ParserExamples` check the definitions on concrete inputs.

Three behaviours of the analyser are stated as proved facts:

- The Java function pattern captures the access modifier as its first group.
  So a Java method is never named after itself: its name is always
  `public`, `private`, `protected` or `unknown` (`CodeParser.JavaFunctionNames`).
- The "else if" sentence is unreachable. Any line containing `elif` or
  `else if` also contains `if`, so the earlier "if" sentence is chosen
  (`CodeParser.ElseIfNeverChosen`).
- The output clause of the summary looks at the sentences, not at the
  categories. A function whose name contains "output" turns it on
  (`CodeParser.OutputInNameClaimsOutput`).

## Model

| member | source | states |
|---|---|---|
| LanguageDetector.TablesWellFormed | project/src/utils/languageDetector.ts:3-44 | The registry holds exactly the keys python, javascript, java and cpp, in that order. Each table has a non-empty keyword list and six non-empty pattern lists. |
| LanguageDetector.LookupFinds | project/src/utils/languageDetector.ts:72 | Looking up a key yields the table of the first registry entry with that key. |
| LanguageDetector.LookupMisses | project/src/utils/languageDetector.ts:72 | Looking up a name that no entry carries yields nothing, the case where the fallback to the JavaScript table applies. |
| LanguageDetector.GetLanguageConfigKnown | project/src/utils/languageDetector.ts:71-73 | Each registered key yields its own table. |
| LanguageDetector.GetLanguageConfigFallback | project/src/utils/languageDetector.ts:71-73 | Every name outside the registry yields the JavaScript table. |
| LanguageDetector.GetLanguageConfigIsTable | project/src/utils/languageDetector.ts:71-73 | Every name, known or not, yields one of the four registered tables, so always a well-formed one. |
| LanguageDetector.GetLanguageConfigUnsupported | project/src/utils/languageDetector.ts:71-73 | The page's choices "c", "html" and "css", and "auto", are explained with the JavaScript table. |
| LanguageDetector.HitsCounts | project/src/utils/languageDetector.ts:56-60 | A line's keyword points equal the number of keyword positions whose keyword occurs in the line. Each keyword counts once, however often it occurs. |
| LanguageDetector.HitsAppend | project/src/utils/languageDetector.ts:56-60 | The points for a keyword list split in two are the sum of the points for its halves. |
| LanguageDetector.HitsNone | project/src/utils/languageDetector.ts:56-60 | A line that contains none of the keywords scores nothing. |
| LanguageDetector.HitsOne | project/src/utils/languageDetector.ts:56-60 | A line that contains exactly one keyword of the list scores one point. |
| LanguageDetector.ScoreAppend | project/src/utils/languageDetector.ts:54-62 | A language's score over two runs of lines is the sum of its scores over each run. |
| LanguageDetector.ScoresInOrder | project/src/utils/languageDetector.ts:48-62 | The score vector holds, in registry order, the Python, JavaScript, Java and C++ scores of the lines. |
| LanguageDetector.LineHits | project/src/utils/languageDetector.ts:56-60 | The loop over the keywords counts exactly the line's keyword points. |
| LanguageDetector.CountScores | project/src/utils/languageDetector.ts:48-62 | The nested loops over lines and languages, starting from all zeros, compute exactly the score vector. |
| LanguageDetector.ReduceMaxIsLastArgMax | project/src/utils/languageDetector.ts:64-66 | The reduce picks an index holding the highest score. Every later index scores strictly less, so a tie goes to the language listed later. |
| LanguageDetector.LastArgMaxUnique | project/src/utils/languageDetector.ts:64-66 | At most one index is the last position of the maximum. |
| LanguageDetector.ReduceMaxIff | project/src/utils/languageDetector.ts:64-66 | The reduce returns an index if and only if that index is the last position of the maximum. |
| LanguageDetector.NonBlankAppend | project/src/utils/languageDetector.ts:47 | Filtering out blank lines distributes over concatenation. |
| LanguageDetector.DetectLanguageIsRegistered | project/src/utils/languageDetector.ts:46-69 | The detector always names one of the four registered languages. |
| LanguageDetector.DetectLanguageDefault | project/src/utils/languageDetector.ts:68 | When no language scores a point, the answer is "javascript". |
| LanguageDetector.NonBlankAllBlank | project/src/utils/languageDetector.ts:47 | A list made only of blank lines keeps no line after the filter. |
| LanguageDetector.DetectBlank | project/src/utils/languageDetector.ts:46-69 | A text whose lines are all blank is detected as "javascript". |
| LanguageDetector.DetectEmpty | project/src/utils/languageDetector.ts:46-69 | The empty text is detected as "javascript". |
| LanguageDetector.DetectLanguageWinner | project/src/utils/languageDetector.ts:64-68 | When a language holds the last position of a positive maximum, the detector names that language. |
| LanguageDetector.DetectionLinesOfJoin | project/src/utils/languageDetector.ts:47 | Splitting a newline-joined list of newline-free lines and filtering it gives the non-blank lines of the list. |
| LanguageDetector.NonBlankSkipsBlank | project/src/utils/languageDetector.ts:47 | Removing a blank line from a list does not change its non-blank lines. |
| LanguageDetector.DetectLanguageIgnoresBlankLines | project/src/utils/languageDetector.ts:46-69 | Inserting a blank line anywhere in the code never changes the detected language. |
| Text.SplitSeparatorFree | project/src/utils/codeParser.ts:6 | No piece of `split('\n')` contains a newline. |
| Text.SplitJoinsBack | project/src/utils/codeParser.ts:6 | Joining the pieces of a split with the separator rebuilds the original text. |
| Text.SplitJoin | project/src/utils/codeParser.ts:6 | Splitting the join of a non-empty list of separator-free lines gives back that list. |
| Text.SpanUnique | project/src/utils/languageDetector.ts:7-42 | A greedy `\s*` or `\w+` run ends exactly at the first character outside its class. |
| Text.TrimSpec | project/src/utils/codeParser.ts:10-11 | `trim` removes exactly the leading and trailing white space. It leaves nothing precisely when the line is all white space, which is when the loop skips it. |
| Text.TrimUnique | project/src/utils/codeParser.ts:10 | A string has exactly one trim, so `Trim` is the trim. |
| Patterns.MatchShaped | project/src/utils/codeParser.ts:96-124 | Every match array has the matched text plus one entry per capture group, and the matched text is a prefix of the line. |
| PatternSemantics.LeadLitAgrees | project/src/utils/languageDetector.ts:17 | The comment matchers (`//`, `/*`, `*`, and Python's `#`) accept exactly the lines that start with optional white space and then the literal. |
| PatternSemantics.NameAfterAgrees | project/src/utils/languageDetector.ts:8 | The `^\s*kw\s+(\w+)` matchers (`def`, `function`, `class`) accept exactly the lines their regular expression accepts. |
| PatternSemantics.NameAfterAltAgrees | project/src/utils/languageDetector.ts:19 | The matchers of a keyword alternative followed by a name (JavaScript `var`/`let`/`const` declarations, C++ typed declarations) accept exactly the lines their regular expression accepts. |
| PatternSemantics.AssignAgrees | project/src/utils/languageDetector.ts:9 | The Python assignment matcher accepts exactly the lines `^\s*(\w+)\s*=` accepts. |
| PatternSemantics.FunctionExprAgrees | project/src/utils/languageDetector.ts:18 | The `name = function` matcher accepts exactly the lines its regular expression accepts. |
| PatternSemantics.ArrowAgrees | project/src/utils/languageDetector.ts:18 | The `const name = (` matcher accepts exactly the lines its regular expression accepts. |
| PatternSemantics.LoopAgrees | project/src/utils/languageDetector.ts:20 | The loop matchers, Python's (a loop keyword then white space) and the C-style one (a loop keyword, optional white space, then `(`), accept exactly the lines their regular expressions accept. |
| PatternSemantics.PyConditionAgrees | project/src/utils/languageDetector.ts:11 | The Python condition matcher accepts exactly the lines its regular expression accepts (`if`, `elif` or `else` after optional white space). |
| PatternSemantics.CStyleConditionAgrees | project/src/utils/languageDetector.ts:21 | The C-style condition matcher accepts exactly the lines its regular expression accepts (`if`, `else if` or `else` after optional white space). |
| PatternSemantics.CppFunctionAgrees | project/src/utils/languageDetector.ts:38 | The C++ function matcher accepts exactly the lines `^\s*\w+\s+(\w+)\s*\(` accepts. |
| PatternSemantics.JavaClassAgrees | project/src/utils/languageDetector.ts:32 | The Java class matcher accepts exactly the lines `^\s*(public\s+)?class\s+(\w+)` accepts. |
| PatternSemantics.JavaMethodAgrees | project/src/utils/languageDetector.ts:28 | The Java method matcher, with its optional modifier and `static`, accepts exactly the lines its regular expression accepts. |
| PatternSemantics.JavaFieldAgrees | project/src/utils/languageDetector.ts:29 | The Java field matcher accepts exactly the lines its regular expression accepts. |
| PatternSemantics.TestAgreesWithSource | project/src/utils/languageDetector.ts:3-44 | For every pattern of every table, `test` holds on a line if and only if the pattern's regular expression accepts the line. |
| CodeParser.FirstMatchFound | project/src/utils/codeParser.ts:107-113 | The extractors' loop finds a match if and only if some pattern of the list tests true, the same condition as the `some` test that chose the category. |
| CodeParser.FirstMatchIndex | project/src/utils/codeParser.ts:107-113 | The match found comes from the first pattern that tests true. No earlier pattern matches. |
| CodeParser.FunctionNameAt | project/src/utils/codeParser.ts:96-104 | The function name is the first capture of the first pattern whose first group is defined. |
| CodeParser.FunctionNameUnknown | project/src/utils/codeParser.ts:96-104 | When no pattern yields a first group, the function name is "unknown". |
| CodeParser.FunctionNameIsWord | project/src/utils/codeParser.ts:96-104 | For tables whose function patterns capture only the name, a matching line's function name is a non-empty run of word characters in the line. |
| CodeParser.LastCaptureIsWord | project/src/utils/codeParser.ts:106-124 | The last capture of the first match of a name-capturing list is a word of the line. There is no match exactly when no pattern tests true. |
| CodeParser.ClassNameIsWord | project/src/utils/codeParser.ts:106-114 | A class line's class name is a word of the line. A line no class pattern matches gets "unknown". |
| CodeParser.VariableNameIsWord | project/src/utils/codeParser.ts:116-124 | A variable line's variable name is a word of the line. A line no variable pattern matches gets "unknown". |
| CodeParser.JavaFunctionNames | project/src/utils/codeParser.ts:96-104 | With the Java table the function name is always "public", "private", "protected" or "unknown". A modifier name is the one written after the leading white space. |
| CodeParser.GenericSentenceIff | project/src/utils/codeParser.ts:126-143 | Each of the six generic sentences is returned if and only if its own test holds and every earlier test fails (assignment, `++`/`--`, `{`, `}`, a call, anything else). |
| CodeParser.SentencesName | project/src/utils/codeParser.ts:29-61 | The function, class and variable sentences can be read back: the text between the template's prefix and suffix is the inserted name. |
| CodeParser.DescribeKind | project/src/utils/codeParser.ts:20-81 | A line gets each category if and only if its own check holds and every earlier check in the chain fails. |
| CodeParser.TemplateKinds | project/src/utils/codeParser.ts:29-61 | The function, class and variable sentences are read back as their own category, whatever name was inserted. |
| CodeParser.StatementSentenceKinds | project/src/utils/codeParser.ts:20-71 | The comment, return and import sentences are each read back as their own category. |
| CodeParser.LoopSentenceKinds | project/src/utils/codeParser.ts:38-45 | Both loop sentences are read back as "loop". |
| CodeParser.ConditionSentenceKinds | project/src/utils/codeParser.ts:47-56 | All three condition sentences, the unreachable "else if" one included, are read back as "condition". |
| CodeParser.OtherSentenceKinds | project/src/utils/codeParser.ts:74-81 | The output sentence and each generic sentence are read back as "other". |
| CodeParser.DescribeSentenceKind | project/src/utils/codeParser.ts:20-81 | Under any table of the registry, the explanation alone tells the category: reading back the sentence the chain assigns gives the category it assigns. |
| CodeParser.SameSentenceSameKind | project/src/utils/codeParser.ts:20-81 | Two lines with the same explanation, under tables of the registry, have the same category. |
| CodeParser.LoopPatternKeyword | project/src/utils/codeParser.ts:38-45 | A line that passes a loop pattern contains "for" or "while", so a loop line never keeps the empty explanation. |
| CodeParser.ConditionPatternKeyword | project/src/utils/codeParser.ts:47-56 | A line that passes a condition pattern contains "if" or "else", so a condition line never keeps the empty explanation. |
| CodeParser.TablesFit | project/src/utils/languageDetector.ts:7-42 | The four tables use only loop patterns and condition patterns. Their class and variable patterns capture a name. |
| CodeParser.SentenceNotEmpty | project/src/utils/codeParser.ts:20-81 | Under any table whose loop, condition, class and variable patterns fit (all four do), every line gets a non-empty explanation. |
| CodeParser.ElseIfNeverChosen | project/src/utils/codeParser.ts:47-56 | The "else if" sentence is never produced. The "else" sentence is produced exactly when the line lacks "if" and contains "else". |
| CodeParser.LoopSentenceIff | project/src/utils/codeParser.ts:40-44 | A loop line gets the "for" sentence if and only if it contains "for". It gets the "while" sentence if and only if it contains "while" but not "for". |
| CodeParser.TablesNameFunctions | project/src/utils/languageDetector.ts:8-38 | The Python, JavaScript and C++ function patterns capture just the name. The Java pattern does not: its first group is the modifier. |
| CodeParser.SentenceNamesWord | project/src/utils/codeParser.ts:26-62 | A class or variable sentence names a word that occurs in the line. So does a function sentence, under a table whose function patterns capture the name. |
| CodeParser.NumberedNonBlank | project/src/utils/codeParser.ts:9-11 | The lines the loop keeps are exactly the non-blank lines, in order. |
| CodeParser.NumberedAt | project/src/utils/codeParser.ts:9-14 | The kept line at any one position carries a number between 1 and the number of lines, and the line at that number is the kept line. |
| CodeParser.NumberedPositions | project/src/utils/codeParser.ts:9-14 | Each kept line carries a line number between 1 and the number of lines, and that number points back at the line itself. |
| CodeParser.NumberedNotBlank | project/src/utils/codeParser.ts:10-11 | No kept line is blank. |
| CodeParser.NumberedIncreasing | project/src/utils/codeParser.ts:9-14 | Line numbers strictly increase and never exceed the number of input lines. |
| CodeParser.NumberedComplete | project/src/utils/codeParser.ts:9-14 | Every non-blank input line is kept under its 1-based index. |
| CodeParser.ExplainLinesCodes | project/src/utils/codeParser.ts:9-18 | The `code` fields of the records are the non-blank lines as written, in order. |
| CodeParser.ExplainLinesNumbers | project/src/utils/codeParser.ts:9-84 | Record i is the explanation of input line n under number n, where n is the i-th kept line number. |
| CodeParser.ParseAndExplainCodeLines | project/src/utils/codeParser.ts:4-94 | The result reports the given language in both fields. Its records are the explained non-blank lines under the language's table (the lines the detector sees), and its summary describes those records. |
| CodeParser.RecordsReadBack | project/src/utils/codeParser.ts:4-94 | The category of each record of an analysis can be read back from its explanation. |
| CodeParser.BlankRecords | project/src/utils/codeParser.ts:9-11 | A text whose lines are all blank yields no records. |
| CodeParser.SummaryOfNothing | project/src/utils/codeParser.ts:145-180 | With no records, the summary is "This <language> code " followed directly by the closing sentence. |
| CodeParser.BlankAnalysis | project/src/utils/codeParser.ts:4-94 | A text whose lines are all blank is analysed into no records, the opening-and-closing summary, and the given language in both fields. |
| CodeParser.EmptyAnalysis | project/src/utils/codeParser.ts:4-94 | The empty text is analysed into no records and the opening-and-closing summary. |
| CodeParser.ReadLead | project/src/utils/codeParser.ts:155-159 | The opening clause reads back as "class", "functions" or neither. |
| CodeParser.ReadVariables | project/src/utils/codeParser.ts:161-163 | The variables clause reads back exactly when it was written. |
| CodeParser.ReadLoops | project/src/utils/codeParser.ts:165-167 | The loops clause reads back exactly when it was written. |
| CodeParser.ReadConditions | project/src/utils/codeParser.ts:169-171 | The conditions clause reads back exactly when it was written. |
| CodeParser.ReadOutput | project/src/utils/codeParser.ts:173-177 | The output clause reads back exactly when it was written, and the closing sentence follows it. |
| CodeParser.ReadSummaryInverts | project/src/utils/codeParser.ts:145-180 | Reading a summary paragraph back recovers exactly the set of clauses it was written from. |
| CodeParser.SummaryReadsBack | project/src/utils/codeParser.ts:145-180 | A summary starts with "This <language> code " and ends with the closing sentence. It reads back as exactly the flags of its records: class present; functions without class; variables, loops and conditions present; a sentence mentioning output. |
| CodeParser.SummaryEndsWithClosing | project/src/utils/codeParser.ts:177 | Every summary ends with the closing sentence. |
| CodeParser.OutputLineClaimsOutput | project/src/utils/codeParser.ts:173-175 | A record carrying the output sentence turns on the output clause. |
| CodeParser.OutputInNameClaimsOutput | project/src/utils/codeParser.ts:173-175 | A function record whose name contains "output" also turns on the output clause. |
| App.KeysDistinct | project/src/types/index.ts:15 | The eight choices of the language menu have pairwise distinct keys. |
| App.ResolveLanguage | project/src/App.tsx:18 | A concrete choice is used as given. "auto" is replaced by the detected language, one of the four registered ones, so the analyser is never handed "auto". |
| App.ResolvedTable | project/src/App.tsx:18-19 | Choosing C, HTML or CSS explains the code with the JavaScript table. Any other choice uses the registry's own table for the resolved key. |
| App.AnalyzeResult | project/src/App.tsx:18-19 | Both language fields of the result are the resolved language. The records are the non-blank lines explained under its table, and the summary reads back as the flags of those records. |
| ParserExamples.CommentBeatsDefinition | project/src/utils/codeParser.ts:21-30 | A commented-out Python definition is explained as a comment, because the comment check comes first. |
| ParserExamples.DefinitionName | project/src/utils/codeParser.ts:96-104 | The Python line `def greet(name):` is named "greet". |
| ParserExamples.AssignmentName | project/src/utils/codeParser.ts:116-124 | The Python line `x = 5` is named "x": the capture before `=`, not the value. |
| ParserExamples.DeclarationName | project/src/utils/codeParser.ts:116-124 | The JavaScript line `let y = 2` is named "y": the last capture, not the keyword the first group holds. |
| ParserExamples.CallLine | project/src/utils/codeParser.ts:20-81 | Under the Python table, `greet("Ajay")` passes no category check and no return, import or output test, and gets the call sentence with category "other". |
| ParserExamples.ExampleCodeLines | project/src/components/CodeInput.tsx:37-40 | The input panel's example program splits into its four lines, the third of them empty. |
| ParserExamples.BlankLinesKeepNumbers | project/src/utils/codeParser.ts:9-14 | In the input panel's example, the empty third line is dropped and the remaining lines keep their numbers 1, 2 and 4. |
| ParserExamples.ExampleRecords | project/src/utils/codeParser.ts:4-94 | Analysed as Python, the example yields three records numbered 1, 2 and 4. The last record is the call line as written, explained as a call, with category "other". |
| DetectorExamples.HitsByEvidence | project/src/utils/languageDetector.ts:56-60 | Given evidence for each keyword (a position where the line holds it, or one of its characters the line lacks), the line's points are the number of keywords held. |
| DetectorExamples.IfScores | project/src/utils/languageDetector.ts:54-62 | The one-line code `if` scores one point for each of the four languages. |
| DetectorExamples.DetectTie | project/src/utils/languageDetector.ts:64-66 | An all-way tie is resolved for the last language, cpp. |
| DetectorExamples.DetectIf | project/src/utils/languageDetector.ts:46-69 | The code `if` is detected as cpp. |
| DetectorExamples.DefScores | project/src/utils/languageDetector.ts:54-62 | The code `def` scores one point for Python and none for the others. |
| DetectorExamples.DetectPythonOnly | project/src/utils/languageDetector.ts:64-68 | When only Python scores, Python is detected. |
| DetectorExamples.DetectDef | project/src/utils/languageDetector.ts:46-69 | The code `def` is detected as python. |
| DetectorExamples.TwoLines | project/src/utils/languageDetector.ts:47 | Two non-blank, newline-free lines joined by a newline are seen as exactly those two lines. |
| DetectorExamples.DetectTwoLines | project/src/utils/languageDetector.ts:46-69 | Two lines scoring 2, 0, 1, 1 in total are detected as python. |
| DetectorExamples.DetectSample | project/src/utils/languageDetector.ts:46-69 | A two-line Python greeting scores 2, 0, 1, 1 and is detected as python. |

## Left out

- The page itself is not modelled: the React components, the loading state
  and the one-second `setTimeout` delay before the analysis runs. Only the
  analysis step inside the timer is modelled.
- The registry lookup is modelled as a lookup over the four entries only.
  JavaScript would also find names inherited from `Object.prototype` (for
  example `"toString"`); such names are outside this model.
- White space for `\s` and `trim` is ASCII only: space, tab, newline,
  carriage return, vertical tab and form feed. The Unicode spaces that
  JavaScript also strips are not modelled, and neither are non-ASCII word
  characters.
- No general regular-expression engine is modelled. Each pattern of the
  tables is a hand-written matcher that follows the backtracking order. Its
  accept/reject behaviour is proved equal to a reference semantics. That
  semantics says nothing about captures, so which capture a matcher reports
  rests on the matcher's code, not on a proof against the reference.
- `explainGenericLine` takes a language argument that it never uses, so
  the model's `CodeParser.ExplainGenericLine` takes only the line.
- The `type` field of a record is named `kind`, because `type` is a Dafny
  keyword.
- The `forEach` with its early return and `push` is modelled as the list of
  numbered non-blank lines, followed by a comprehension over it.
- An output line is recorded with category "other", as the analyser does.
  The model has no separate output category.
- The Java method with a modifier is not checked on a concrete line. The
  general statement `CodeParser.JavaFunctionNames` covers it.
- The summary has a reading-back inverse (`CodeParser.ReadSummary`). A line
  explanation has one too: `CodeParser.SentenceKind` reads the category
  back from the sentence (`CodeParser.DescribeSentenceKind`). It needs the
  tables of the registry: under a table whose loop pattern could match a
  line without "for" or "while", the loop sentence would be empty.
- CodeParser.ReadSummaryInverts: requires that the class and function
  flags are not both set. `generateSummary` never writes both clauses, so
  every summary the analyser produces meets this.
- This model follows the code on empty input: an empty text splits into
  one empty line, which is dropped. The result has no records and the
  summary has only its opening and closing sentences
  (`CodeParser.EmptyAnalysis`). The detector answers "javascript"
  (`LanguageDetector.DetectEmpty`).
