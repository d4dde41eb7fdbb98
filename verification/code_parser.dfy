/** The line classifier, explainer and summariser: every non-blank line
    of the input goes through a fixed cascade of tests, gets a category
    and a sentence, and the categories present decide the summary. */
module CodeParser {
  import opened Options
  import opened Text
  import opened Patterns
  import opened Types
  import opened LanguageDetector

  // ---------------------------------------------------------------------
  // Pattern lists.

  /** `patterns.some(pattern => pattern.test(line))`. */
  predicate AnyTest(patterns: seq<Pattern>, line: string) {
    exists i :: 0 <= i < |patterns| && Test(patterns[i], line)
  }

  /** The loop of `extractClassName` and `extractVariableName`: the match
      array of the first pattern that matches the line. */
  function FirstMatch(patterns: seq<Pattern>, line: string): Option<Groups>
  {
    if |patterns| == 0 then None
    else if Match(patterns[0], line).Some? then Match(patterns[0], line)
    else FirstMatch(patterns[1..], line)
  }

  /** Some pattern of a non-empty list matches exactly when the first one
      does or some later one does. */
  lemma AnyTestUnfold(patterns: seq<Pattern>, line: string)
    requires |patterns| > 0
    ensures AnyTest(patterns, line) <==> Test(patterns[0], line) || AnyTest(patterns[1..], line)
  {
    if AnyTest(patterns, line) && !Test(patterns[0], line) {
      var m :| 0 <= m < |patterns| && Test(patterns[m], line);
      assert Test(patterns[1..][m - 1], line);
    }
    if AnyTest(patterns[1..], line) {
      var m :| 0 <= m < |patterns| - 1 && Test(patterns[1..][m], line);
      assert Test(patterns[m + 1], line);
    }
  }

  /** `FirstMatch` finds a match exactly when some pattern matches. */
  lemma {:induction false} FirstMatchFound(patterns: seq<Pattern>, line: string)
    ensures FirstMatch(patterns, line).Some? <==> AnyTest(patterns, line)
  {
    if |patterns| > 0 {
      AnyTestUnfold(patterns, line);
      FirstMatchFound(patterns[1..], line);
    }
  }

  /** The match `FirstMatch` finds is that of the first pattern that
      matches. */
  lemma {:induction false} FirstMatchIndex(patterns: seq<Pattern>, line: string) returns (i: nat)
    requires FirstMatch(patterns, line).Some?
    ensures i < |patterns| && FirstMatch(patterns, line) == Match(patterns[i], line)
    ensures forall j :: 0 <= j < i ==> !Test(patterns[j], line)
  {
    if Match(patterns[0], line).Some? {
      i := 0;
    } else {
      var k := FirstMatchIndex(patterns[1..], line);
      i := k + 1;
      forall j | 0 <= j < i
        ensures !Test(patterns[j], line)
      {
        if j > 0 {
          assert patterns[j] == patterns[1..][j - 1];
        }
      }
    }
  }

  // ---------------------------------------------------------------------
  // Names.

  /** `w` is a non-empty run of word characters that occurs in `line`: what
      a `(\w+)` group captures. */
  predicate WordOf(line: string, w: string) {
    w != [] && (forall k :: 0 <= k < |w| ==> IsWordChar(w[k])) && Includes(line, w)
  }

  /** The word characters `Span` passes over form a word of the line. */
  lemma WordRun(s: string, b: nat)
    requires b <= |s| && b < Span(Word, s, b)
    ensures WordOf(s, s[b..Span(Word, s, b)])
  {
    var c := Span(Word, s, b);
    SpanAllIn(Word, s, b);
    IncludesAt(s, s[b..c], b);
    forall k | 0 <= k < c - b
      ensures IsWordChar(s[b..c][k])
    {
      assert InClass(Word, s[b + k]);
    }
  }

  /** `kw\s+(\w+)` captures a word. */
  lemma KeywordNameWord(s: string, i: nat, kw: string)
    requires i <= |s| && KeywordName(s, i, kw).Some?
    ensures var (b, c) := KeywordName(s, i, kw).value; WordOf(s, s[b..c])
  {
    var (b, c) := KeywordName(s, i, kw).value;
    WordRun(s, b);
  }

  /** The patterns whose last group is the name of what the line defines. */
  predicate Named(p: Pattern) {
    p.PyDef? || p.ClassDecl? || p.JsFunction? || p.PyAssign? || p.JsFunctionExpr? || p.JsArrow?
    || p.JsDecl? || p.CppDecl? || p.CppFunction? || p.JavaClass? || p.JavaField?
  }

  /** The last group of a named pattern's match took part and captured a word. */
  lemma LastGroupIsWord(p: Pattern, s: string)
    requires Named(p) && Match(p, s).Some?
    ensures var g := Match(p, s).value;
      |g| == GroupCount(p) + 1 && g[|g| - 1].Some? && WordOf(s, g[|g| - 1].value)
  {
    MatchShaped(p, s);
    var a := Span(Space, s, 0);
    match p
    case PyDef => KeywordNameWord(s, a, "def");
    case ClassDecl => KeywordNameWord(s, a, "class");
    case JsFunction => KeywordNameWord(s, a, "function");
    case JsArrow => KeywordNameWord(s, a, "const");
    case PyAssign => WordRun(s, a);
    case JsFunctionExpr => WordRun(s, a);
    case JsDecl =>
      KeywordAltNameFound(s, a, DeclKeywords, 0);
      KeywordNameWord(s, a, KeywordAltName(s, a, DeclKeywords, 0).value.0);
    case CppDecl =>
      KeywordAltNameFound(s, a, CppTypes, 0);
      KeywordNameWord(s, a, KeywordAltName(s, a, CppTypes, 0).value.0);
    case CppFunction => WordWordParenWord(s, a);
    case JavaClass => JavaClassWord(s);
    case JavaField => JavaFieldWord(s);
  }

  lemma WordWordParenWord(s: string, q: nat)
    requires q <= |s| && WordWordParen(s, q).Some?
    ensures var (b, c, _) := WordWordParen(s, q).value; WordOf(s, s[b..c])
  {
    var (b, c, _) := WordWordParen(s, q).value;
    WordRun(s, b);
  }

  lemma JavaClassWord(s: string)
    requires JavaClassMatch(s).Some?
    ensures var g := JavaClassMatch(s).value; |g| == 3 && g[2].Some? && WordOf(s, g[2].value)
  {
    var a := Span(Space, s, 0);
    var t := if LitAt(s, a, "public") then Span(Space, s, a + 6) else a;
    if LitAt(s, a, "public") && t > a + 6 && KeywordName(s, t, "class").Some? {
      KeywordNameWord(s, t, "class");
    } else {
      KeywordNameWord(s, a, "class");
    }
  }

  lemma JavaFieldWord(s: string)
    requires JavaFieldMatch(s).Some?
    ensures var g := JavaFieldMatch(s).value; |g| == 5 && g[4].Some? && WordOf(s, g[4].value)
  {
    FieldRestWord(s, FieldStart(s));
  }

  lemma FieldRestWord(s: string, p: nat)
    requires p <= |s| && FieldRest(s, p).Some?
    ensures var (_, _, b, c) := FieldRest(s, p).value; WordOf(s, s[b..c])
  {
    var q := Span(Space, s, p);
    var t := if LitAt(s, q, "static") then Span(Space, s, q + 6) else q;
    if LitAt(s, q, "static") && t > q + 6 && KeywordAltName(s, t, JavaTypes, 0).Some? {
      KeywordAltNameFound(s, t, JavaTypes, 0);
      KeywordNameWord(s, t, KeywordAltName(s, t, JavaTypes, 0).value.0);
    } else {
      KeywordAltNameFound(s, q, JavaTypes, 0);
      KeywordNameWord(s, q, KeywordAltName(s, q, JavaTypes, 0).value.0);
    }
  }

  /** `match && match[1]`: group 1 of a match, when it took part and is not
      empty; JavaScript reads a missing index as `undefined`. */
  function FirstGroup(m: Option<Groups>): Option<string>
  {
    if m.Some? && |m.value| > 1 && m.value[1].Some? && m.value[1].value != "" then m.value[1] else None
  }

  /** The loop of `extractFunctionName` over the patterns from the first. */
  function FunctionNameFrom(patterns: seq<Pattern>, line: string): string
  {
    if |patterns| == 0 then "unknown"
    else match FirstGroup(Match(patterns[0], line))
      case Some(name) => name
      case None => FunctionNameFrom(patterns[1..], line)
  }

  /** `extractFunctionName(line, config)`. */
  function ExtractFunctionName(line: string, config: LanguageConfig): string
  {
    FunctionNameFrom(config.functionPatterns, line)
  }

  /** The name comes from the first pattern whose group 1 is a non-empty
      capture. */
  lemma {:induction false} FunctionNameAt(patterns: seq<Pattern>, line: string, i: nat)
    requires i < |patterns| && FirstGroup(Match(patterns[i], line)).Some?
    requires forall j :: 0 <= j < i ==> FirstGroup(Match(patterns[j], line)).None?
    ensures FunctionNameFrom(patterns, line) == FirstGroup(Match(patterns[i], line)).value
  {
    if i > 0 {
      assert FirstGroup(Match(patterns[0], line)).None?;
      forall j | 0 <= j < i - 1
        ensures FirstGroup(Match(patterns[1..][j], line)).None?
      {
        assert patterns[1..][j] == patterns[j + 1];
      }
      FunctionNameAt(patterns[1..], line, i - 1);
    }
  }

  /** Without such a pattern the name is `unknown`. */
  lemma {:induction false} FunctionNameUnknown(patterns: seq<Pattern>, line: string)
    requires forall j :: 0 <= j < |patterns| ==> FirstGroup(Match(patterns[j], line)).None?
    ensures FunctionNameFrom(patterns, line) == "unknown"
  {
    if |patterns| > 0 {
      assert FirstGroup(Match(patterns[0], line)).None?;
      forall j | 0 <= j < |patterns| - 1
        ensures FirstGroup(Match(patterns[1..][j], line)).None?
      {
        assert patterns[1..][j] == patterns[j + 1];
      }
      FunctionNameUnknown(patterns[1..], line);
    }
  }

  /** When every pattern of the list is named and has one group, the
      function name of a line some pattern matches is a word of the line. */
  lemma {:induction false} FunctionNameIsWord(patterns: seq<Pattern>, line: string)
    requires forall p :: p in patterns ==> Named(p) && GroupCount(p) == 1
    requires AnyTest(patterns, line)
    ensures WordOf(line, FunctionNameFrom(patterns, line))
  {
    AnyTestUnfold(patterns, line);
    assert patterns[0] in patterns;
    if Test(patterns[0], line) {
      LastGroupIsWord(patterns[0], line);
    } else {
      assert forall p :: p in patterns[1..] ==> p in patterns;
      FunctionNameIsWord(patterns[1..], line);
    }
  }

  /** `match[match.length - 1]` as a template literal prints it: a group
      that took no part, or an index before the start, prints `undefined`. */
  function LastCapture(g: Groups): string
  {
    if |g| == 0 then "undefined"
    else match g[|g| - 1]
      case Some(v) => v
      case None => "undefined"
  }

  /** `extractClassName(line, config)`. */
  function ExtractClassName(line: string, config: LanguageConfig): string
  {
    match FirstMatch(config.classPatterns, line)
    case Some(g) => LastCapture(g)
    case None => "unknown"
  }

  /** `extractVariableName(line, config)`. */
  function ExtractVariableName(line: string, config: LanguageConfig): string
  {
    match FirstMatch(config.variablePatterns, line)
    case Some(g) => LastCapture(g)
    case None => "unknown"
  }

  /** The last group of the first matching pattern, among named patterns,
      is a word of the line; `unknown` when no pattern matches. */
  lemma LastCaptureIsWord(patterns: seq<Pattern>, line: string)
    requires forall p :: p in patterns ==> Named(p)
    ensures FirstMatch(patterns, line).Some? ==> WordOf(line, LastCapture(FirstMatch(patterns, line).value))
    ensures FirstMatch(patterns, line).None? <==> !AnyTest(patterns, line)
  {
    FirstMatchFound(patterns, line);
    if FirstMatch(patterns, line).Some? {
      var i := FirstMatchIndex(patterns, line);
      LastGroupIsWord(patterns[i], line);
    }
  }

  lemma ClassNameIsWord(line: string, config: LanguageConfig)
    requires forall p :: p in config.classPatterns ==> Named(p)
    ensures AnyTest(config.classPatterns, line) ==> WordOf(line, ExtractClassName(line, config))
    ensures !AnyTest(config.classPatterns, line) ==> ExtractClassName(line, config) == "unknown"
  {
    LastCaptureIsWord(config.classPatterns, line);
  }

  lemma VariableNameIsWord(line: string, config: LanguageConfig)
    requires forall p :: p in config.variablePatterns ==> Named(p)
    ensures AnyTest(config.variablePatterns, line) ==> WordOf(line, ExtractVariableName(line, config))
    ensures !AnyTest(config.variablePatterns, line) ==> ExtractVariableName(line, config) == "unknown"
  {
    LastCaptureIsWord(config.variablePatterns, line);
  }

  /** Under the Java table group 1 is the access modifier, so the function
      name is `public`, `private`, `protected` or `unknown`, and a
      modifier is reported only when the line starts with it. */
  lemma JavaFunctionNames(line: string)
    ensures ExtractFunctionName(line, JavaConfig) in ["public", "private", "protected", "unknown"]
    ensures ExtractFunctionName(line, JavaConfig) != "unknown" ==>
      LitAt(line, Span(Space, line, 0), ExtractFunctionName(line, JavaConfig))
  {
    var ps := JavaConfig.functionPatterns;
    assert ps == [JavaMethod];
    var a := Span(Space, line, 0);
    var g := FirstGroup(JavaMethodMatch(line));
    assert g == FirstGroup(Match(ps[0], line));
    if g.Some? {
      assert g == Modifier(line, a);
      ModifierFound(line, a);
      FunctionNameAt(ps, line, 0);
      assert ExtractFunctionName(line, JavaConfig) == g.value;
    } else {
      FunctionNameUnknown(ps, line);
      assert ExtractFunctionName(line, JavaConfig) == "unknown";
    }
  }

  // ---------------------------------------------------------------------
  // The generic sub-cascade.

  // Each sentence is written as its first seven characters and the rest,
  // so that proofs can read the opening of a sentence cheaply.
  const AssignSentence: string := "This as" + "signs a value to a variable or property."
  const StepSentence: string := "This in" + "creases or decreases a number by 1."
  const OpenSentence: string := "This op" + "ens a block of code - the following lines belong together."
  const CloseSentence: string := "This cl" + "oses a block of code."
  const CallSentence: string := "This ca" + "lls a function or method - it runs a specific piece of code."
  const OperationSentence: string := "This li" + "ne performs an operation or executes code."

  /** An `=` that is not part of `==` or `!=` anywhere in the line. */
  predicate IsAssignment(line: string) {
    Includes(line, "=") && !Includes(line, "==") && !Includes(line, "!=")
  }

  /** `explainGenericLine(line, language)`; the language argument is not
      used. */
  function ExplainGenericLine(line: string): string
  {
    if IsAssignment(line) then AssignSentence
    else if Includes(line, "++") || Includes(line, "--") then StepSentence
    else if Includes(line, "{") then OpenSentence
    else if Includes(line, "}") then CloseSentence
    else if Includes(line, "(") && Includes(line, ")") then CallSentence
    else OperationSentence
  }

  /** Each generic sentence comes out exactly when its test holds and no
      earlier test does; the default exactly when none holds. */
  lemma GenericSentenceIff(line: string)
    ensures var r := ExplainGenericLine(line);
      var assign := IsAssignment(line);
      var step := Includes(line, "++") || Includes(line, "--");
      var open := Includes(line, "{");
      var close := Includes(line, "}");
      var call := Includes(line, "(") && Includes(line, ")");
      && (r == AssignSentence <==> assign)
      && (r == StepSentence <==> !assign && step)
      && (r == OpenSentence <==> !assign && !step && open)
      && (r == CloseSentence <==> !assign && !step && !open && close)
      && (r == CallSentence <==> !assign && !step && !open && !close && call)
      && (r == OperationSentence <==> !assign && !step && !open && !close && !call)
  {
    assert |AssignSentence| == 47 && |StepSentence| == 42 && |OpenSentence| == 65;
    assert |CloseSentence| == 28 && |CallSentence| == 67 && |OperationSentence| == 49;
  }

  // ---------------------------------------------------------------------
  // The line cascade.

  const CommentSentence: string := "This is" + " a comment - it's a note for humans and doesn't affect how the program runs."
  const FunctionPrefix: string := "This defines a function called '"
  const FunctionSuffix: string := "' - a reusable block of code that performs a specific task."
  const ClassPrefix: string := "This defines a class called '"
  const ClassSuffix: string := "' - a blueprint for creating objects with similar properties and methods."
  const ForSentence: string := "This st" + "arts a 'for' loop - it repeats a block of code a specific number of times or for each item in a collection."
  const WhileSentence: string := "This st" + "arts a 'while' loop - it repeats a block of code as long as a condition remains true."
  const IfSentence: string := "This is" + " an 'if' statement - it runs code only when a specific condition is true."
  const ElseIfSentence: string := "This is" + " an 'else if' statement - it checks another condition if the previous 'if' was false."
  const ElseSentence: string := "This is" + " an 'else' statement - it runs when all previous conditions were false."
  const VariablePrefix: string := "This creates a variable called '"
  const VariableSuffix: string := "' and assigns it a value - variables store data that can be used later."
  const ReturnSentence: string := "This re" + "turns a value from the function - it's like the function's answer or result."
  const ImportSentence: string := "This im" + "ports external code or libraries - it brings in pre-written functions and tools from elsewhere."
  const OutputSentence: string := "This displays output" + " - it shows text or values to the user."

  function FunctionSentence(name: string): string { FunctionPrefix + name + FunctionSuffix }
  function ClassSentence(name: string): string { ClassPrefix + name + ClassSuffix }
  function VariableSentence(name: string): string { VariablePrefix + name + VariableSuffix }

  /** The text between the two fixed parts of a templated sentence. */
  function Filling(s: string, prefix: string, suffix: string): Option<string>
  {
    if |prefix| + |suffix| <= |s| && s[..|prefix|] == prefix && s[|s| - |suffix|..] == suffix
    then Some(s[|prefix|..|s| - |suffix|])
    else None
  }

  lemma FillingOfTemplate(prefix: string, name: string, suffix: string)
    ensures Filling(prefix + name + suffix, prefix, suffix) == Some(name)
  {
    var s := prefix + name + suffix;
    assert s[..|prefix|] == prefix;
    assert s[|s| - |suffix|..] == suffix;
    assert s[|prefix|..|s| - |suffix|] == name;
  }

  /** Each templated sentence can be read back to the name it was given. */
  lemma SentencesName(name: string)
    ensures Filling(FunctionSentence(name), FunctionPrefix, FunctionSuffix) == Some(name)
    ensures Filling(ClassSentence(name), ClassPrefix, ClassSuffix) == Some(name)
    ensures Filling(VariableSentence(name), VariablePrefix, VariableSuffix) == Some(name)
  {
    FillingOfTemplate(FunctionPrefix, name, FunctionSuffix);
    FillingOfTemplate(ClassPrefix, name, ClassSuffix);
    FillingOfTemplate(VariablePrefix, name, VariableSuffix);
  }

  /** The sentence of a loop: chosen by substring, empty when neither
      keyword occurs. */
  function LoopSentence(t: string): string
  {
    if Includes(t, "for") then ForSentence
    else if Includes(t, "while") then WhileSentence
    else ""
  }

  /** The sentence of a condition: chosen by substring, empty when no
      keyword occurs. */
  function ConditionSentence(t: string): string
  {
    if Includes(t, "if") then IfSentence
    else if Includes(t, "elif") || Includes(t, "else if") then ElseIfSentence
    else if Includes(t, "else") then ElseSentence
    else ""
  }

  /** The output idioms of the four languages. */
  predicate PrintsOutput(t: string) {
    Includes(t, "print(") || Includes(t, "console.log") || Includes(t, "cout") || Includes(t, "System.out.println")
  }

  predicate Imports(t: string) {
    Includes(t, "import") || Includes(t, "#include")
  }

  /** The `if ... else if ...` chain of `parseAndExplainCode` on a trimmed
      line: the category and the sentence it assigns. */
  function Describe(t: string, config: LanguageConfig): (LineType, string)
  {
    if AnyTest(config.commentPatterns, t) then (Comment, CommentSentence)
    else if AnyTest(config.functionPatterns, t) then (Function, FunctionSentence(ExtractFunctionName(t, config)))
    else if AnyTest(config.classPatterns, t) then (Class, ClassSentence(ExtractClassName(t, config)))
    else if AnyTest(config.loopPatterns, t) then (Loop, LoopSentence(t))
    else if AnyTest(config.conditionPatterns, t) then (Condition, ConditionSentence(t))
    else if AnyTest(config.variablePatterns, t) then (Variable, VariableSentence(ExtractVariableName(t, config)))
    else if Includes(t, "return") then (Return, ReturnSentence)
    else if Imports(t) then (Import, ImportSentence)
    else if PrintsOutput(t) then (Other, OutputSentence)
    else (Other, ExplainGenericLine(t))
  }

  /** The record of one non-blank line: the tests run on the trimmed line,
      the record keeps the line as written. */
  function ExplainLine(line: string, number: nat, config: LanguageConfig): CodeLine
  {
    var d := Describe(Trim(line), config);
    CodeLine(number, line, d.1, d.0)
  }

  /** A line gets a category exactly when that category's test holds and
      no earlier test does, and `other` when none of the category tests
      holds (an output line is `other` too). So a comment that mentions
      `def` is a comment, and a `return` inside an `if` is a condition. */
  lemma DescribeKind(t: string, config: LanguageConfig)
    ensures var k := Describe(t, config).0;
      var comment := AnyTest(config.commentPatterns, t);
      var func := AnyTest(config.functionPatterns, t);
      var cls := AnyTest(config.classPatterns, t);
      var loop := AnyTest(config.loopPatterns, t);
      var cond := AnyTest(config.conditionPatterns, t);
      var variable := AnyTest(config.variablePatterns, t);
      var ret := Includes(t, "return");
      var imp := Imports(t);
      && (k == Comment <==> comment)
      && (k == Function <==> !comment && func)
      && (k == Class <==> !comment && !func && cls)
      && (k == Loop <==> !comment && !func && !cls && loop)
      && (k == Condition <==> !comment && !func && !cls && !loop && cond)
      && (k == Variable <==> !comment && !func && !cls && !loop && !cond && variable)
      && (k == Return <==> !comment && !func && !cls && !loop && !cond && !variable && ret)
      && (k == Import <==> !comment && !func && !cls && !loop && !cond && !variable && !ret && imp)
      && (k == Other <==> !comment && !func && !cls && !loop && !cond && !variable && !ret && !imp)
  {
  }

  /** A loop pattern of the tables only matches a line that starts with
      `for` or `while`. */
  lemma LoopPatternKeyword(p: Pattern, t: string)
    requires (p.PyLoop? || p.CStyleLoop?) && Test(p, t)
    ensures Includes(t, "for") || Includes(t, "while")
  {
    var a := Span(Space, t, 0);
    if LitAt(t, a, "for") {
      IncludesAt(t, "for", a);
    } else {
      IncludesAt(t, "while", a);
    }
  }

  /** A condition pattern of the tables only matches a line that starts
      with `if`, `elif` or `else`. */
  lemma ConditionPatternKeyword(p: Pattern, t: string)
    requires (p.PyCondition? || p.CStyleCondition?) && Test(p, t)
    ensures Includes(t, "if") || Includes(t, "else")
  {
    var a := Span(Space, t, 0);
    if LitAt(t, a, "if") {
      IncludesAt(t, "if", a);
    } else if LitAt(t, a, "elif") {
      OccursWithin(t, "elif", a, "if", 2);
      IncludesAt(t, "if", a + 2);
    } else {
      IncludesAt(t, "else", a);
    }
  }

  /** The tables use only the shipped loop and condition patterns, and
      name patterns for classes and variables. */
  predicate Fits(config: LanguageConfig) {
    (forall p :: p in config.loopPatterns ==> p.PyLoop? || p.CStyleLoop?)
    && (forall p :: p in config.conditionPatterns ==> p.PyCondition? || p.CStyleCondition?)
    && (forall p :: p in config.classPatterns ==> Named(p))
    && (forall p :: p in config.variablePatterns ==> Named(p))
  }

  lemma TablesFit()
    ensures Fits(PythonConfig) && Fits(JavaScriptConfig) && Fits(JavaConfig) && Fits(CppConfig)
  {
  }

  /** Under a table of the registry every line gets a non-empty sentence:
      a line a loop pattern matches contains `for` or `while`, one a
      condition pattern matches contains `if` or `else`. */
  lemma SentenceNotEmpty(t: string, config: LanguageConfig)
    requires Fits(config)
    ensures Describe(t, config).1 != ""
  {
    if !AnyTest(config.commentPatterns, t) && !AnyTest(config.functionPatterns, t)
      && !AnyTest(config.classPatterns, t)
    {
      if AnyTest(config.loopPatterns, t) {
        var i :| 0 <= i < |config.loopPatterns| && Test(config.loopPatterns[i], t);
        LoopPatternKeyword(config.loopPatterns[i], t);
      } else if AnyTest(config.conditionPatterns, t) {
        var i :| 0 <= i < |config.conditionPatterns| && Test(config.conditionPatterns[i], t);
        ConditionPatternKeyword(config.conditionPatterns[i], t);
      }
    }
  }

  /** The `else if` sentence is never chosen: `elif` and `else if` both
      contain `if`, which is checked first. */
  lemma ElseIfNeverChosen(t: string)
    ensures ConditionSentence(t) != ElseIfSentence
    ensures ConditionSentence(t) == ElseSentence <==> !Includes(t, "if") && Includes(t, "else")
  {
    if Includes(t, "elif") {
      assert OccursAt("elif", "if", 2);
      IncludesWithin(t, "elif", "if");
    }
    if Includes(t, "else if") {
      assert OccursAt("else if", "if", 5);
      IncludesWithin(t, "else if", "if");
    }
    assert |IfSentence| != |ElseIfSentence| && |IfSentence| != |ElseSentence|;
  }

  /** A loop line is a `for` loop whenever `for` occurs anywhere in it, even
      inside a word of a `while` loop. */
  lemma LoopSentenceIff(t: string)
    ensures LoopSentence(t) == ForSentence <==> Includes(t, "for")
    ensures LoopSentence(t) == WhileSentence <==> !Includes(t, "for") && Includes(t, "while")
  {
    assert |ForSentence| != |WhileSentence|;
  }

  /** Reading an explanation back to its category: a filled template
      names its category, each fixed sentence belongs to one category, and
      everything else (the output and the generic sentences) is `other`. */
  function SentenceKind(s: string): LineType
  {
    if Filling(s, FunctionPrefix, FunctionSuffix).Some? then Function
    else if Filling(s, ClassPrefix, ClassSuffix).Some? then Class
    else if Filling(s, VariablePrefix, VariableSuffix).Some? then Variable
    else if s == CommentSentence then Comment
    else if s == ForSentence || s == WhileSentence then Loop
    else if s == IfSentence || s == ElseIfSentence || s == ElseSentence then Condition
    else if s == ReturnSentence then Return
    else if s == ImportSentence then Import
    else Other
  }

  /** A sentence that differs from a template's prefix at `k` does not fill it. */
  lemma NoFilling(s: string, prefix: string, suffix: string, k: nat)
    requires k < |prefix| && k < |s| && s[k] != prefix[k]
    ensures Filling(s, prefix, suffix) == None
  {
    if |prefix| + |suffix| <= |s| {
      assert s[..|prefix|][k] != prefix[k];
    }
  }

  /** A sentence that does not open with "This de" or "This cr" fills none
      of the three templates. */
  lemma NoTemplate(s: string)
    requires 7 <= |s| && (s[5] != 'd' || s[6] != 'e') && (s[5] != 'c' || s[6] != 'r')
    ensures Filling(s, FunctionPrefix, FunctionSuffix) == None
    ensures Filling(s, ClassPrefix, ClassSuffix) == None
    ensures Filling(s, VariablePrefix, VariableSuffix) == None
  {
    var k := if s[5] != 'd' then 5 else 6;
    var j := if s[5] != 'c' then 5 else 6;
    NoFilling(s, FunctionPrefix, FunctionSuffix, k);
    NoFilling(s, ClassPrefix, ClassSuffix, k);
    NoFilling(s, VariablePrefix, VariableSuffix, j);
  }

  /** Each template is read back to its own category, whatever the name. */
  lemma TemplateKinds(name: string)
    ensures SentenceKind(FunctionSentence(name)) == Function
    ensures SentenceKind(ClassSentence(name)) == Class
    ensures SentenceKind(VariableSentence(name)) == Variable
  {
    SentencesName(name);
    NoFilling(ClassSentence(name), FunctionPrefix, FunctionSuffix, 15);
    NoFilling(VariableSentence(name), FunctionPrefix, FunctionSuffix, 5);
    NoFilling(VariableSentence(name), ClassPrefix, ClassSuffix, 5);
  }

  /** The lengths of the fixed sentences of the line chain. */
  lemma ChainLengths()
    ensures |CommentSentence| == 83 && |ReturnSentence| == 83 && |ImportSentence| == 102
    ensures |ForSentence| == 114 && |WhileSentence| == 92
    ensures |IfSentence| == 80 && |ElseIfSentence| == 92 && |ElseSentence| == 78
  {
  }

  /** The comment, return and import sentences, read back. */
  lemma StatementSentenceKinds()
    ensures SentenceKind(CommentSentence) == Comment
    ensures SentenceKind(ReturnSentence) == Return
    ensures SentenceKind(ImportSentence) == Import
  {
    ChainLengths();
    assert CommentSentence[5] == 'i';
    NoTemplate(CommentSentence);
    assert ReturnSentence[5] == 'r';
    NoTemplate(ReturnSentence);
    assert ImportSentence[5] == 'i';
    NoTemplate(ImportSentence);
  }

  /** The two loop sentences, read back. */
  lemma LoopSentenceKinds()
    ensures SentenceKind(ForSentence) == Loop && SentenceKind(WhileSentence) == Loop
  {
    ChainLengths();
    assert ForSentence[5] == 's';
    NoTemplate(ForSentence);
    assert WhileSentence[5] == 's';
    NoTemplate(WhileSentence);
  }

  /** The three condition sentences, read back. */
  lemma ConditionSentenceKinds()
    ensures SentenceKind(IfSentence) == Condition && SentenceKind(ElseIfSentence) == Condition
    ensures SentenceKind(ElseSentence) == Condition
  {
    ChainLengths();
    assert IfSentence[5] == 'i';
    NoTemplate(IfSentence);
    assert ElseIfSentence[5] == 'i' && WhileSentence[5] == 's';
    NoTemplate(ElseIfSentence);
    assert ElseSentence[5] == 'i';
    NoTemplate(ElseSentence);
  }

  /** A sentence that fills no template and has none of the chain's
      lengths is read back as `other`. */
  lemma OtherByLength(s: string)
    requires 7 <= |s| && (s[5] != 'd' || s[6] != 'e') && (s[5] != 'c' || s[6] != 'r')
    requires |s| !in {78, 80, 83, 92, 102, 114}
    ensures SentenceKind(s) == Other
  {
    NoTemplate(s);
    ChainLengths();
  }

  /** The sentence of an output line and every generic sentence read back
      as `other`. */
  lemma OtherSentenceKinds(t: string)
    ensures SentenceKind(OutputSentence) == Other
    ensures SentenceKind(ExplainGenericLine(t)) == Other
  {
    assert OutputSentence[5] == 'd' && OutputSentence[6] == 'i' && |OutputSentence| == 59;
    OtherByLength(OutputSentence);
    var g := ExplainGenericLine(t);
    if g == AssignSentence {
      assert g[5] == 'a' && |g| == 47;
    } else if g == StepSentence {
      assert g[5] == 'i' && |g| == 42;
    } else if g == OpenSentence {
      assert g[5] == 'o' && |g| == 65;
    } else if g == CloseSentence {
      assert g[5] == 'c' && g[6] == 'l' && |g| == 28;
    } else if g == CallSentence {
      assert g[5] == 'c' && g[6] == 'a' && |g| == 67;
    } else {
      assert g == OperationSentence;
      assert g[5] == 'l' && |g| == 49;
    }
    OtherByLength(g);
  }

  /** The explanation alone tells the category: reading back the sentence
      `Describe` assigns gives the category it assigns, under every table
      of the registry. So no two categories ever share an explanation. */
  lemma DescribeSentenceKind(t: string, config: LanguageConfig)
    requires Fits(config)
    ensures SentenceKind(Describe(t, config).1) == Describe(t, config).0
  {
    if AnyTest(config.commentPatterns, t) {
      StatementSentenceKinds();
    } else if AnyTest(config.functionPatterns, t) {
      TemplateKinds(ExtractFunctionName(t, config));
    } else if AnyTest(config.classPatterns, t) {
      TemplateKinds(ExtractClassName(t, config));
    } else if AnyTest(config.loopPatterns, t) {
      SentenceNotEmpty(t, config);
      assert Describe(t, config) == (Loop, LoopSentence(t));
      LoopSentenceKinds();
    } else if AnyTest(config.conditionPatterns, t) {
      SentenceNotEmpty(t, config);
      assert Describe(t, config) == (Condition, ConditionSentence(t));
      ConditionSentenceKinds();
    } else if AnyTest(config.variablePatterns, t) {
      TemplateKinds(ExtractVariableName(t, config));
    } else if Includes(t, "return") || Imports(t) {
      StatementSentenceKinds();
    } else {
      OtherSentenceKinds(t);
    }
  }

  /** Two lines with the same explanation, under tables of the registry,
      have the same category. */
  lemma SameSentenceSameKind(t: string, config: LanguageConfig, u: string, other: LanguageConfig)
    requires Fits(config) && Fits(other)
    ensures Describe(t, config).1 == Describe(u, other).1 ==> Describe(t, config).0 == Describe(u, other).0
  {
    DescribeSentenceKind(t, config);
    DescribeSentenceKind(u, other);
  }

  /** Function patterns that capture the name in group 1, as those of the
      Python, JavaScript and C++ tables do; the Java pattern captures the
      modifier there. */
  predicate NamesFunctions(config: LanguageConfig) {
    forall p :: p in config.functionPatterns ==> Named(p) && GroupCount(p) == 1
  }

  lemma TablesNameFunctions()
    ensures NamesFunctions(PythonConfig) && NamesFunctions(JavaScriptConfig) && NamesFunctions(CppConfig)
    ensures !NamesFunctions(JavaConfig)
  {
    assert JavaMethod in JavaConfig.functionPatterns;
  }

  /** A function, class or variable sentence names a word of the line,
      when the table's patterns capture names. */
  lemma SentenceNamesWord(t: string, config: LanguageConfig)
    requires Fits(config)
    ensures var (kind, sentence) := Describe(t, config);
      && (kind == Function && NamesFunctions(config) ==>
            exists w :: WordOf(t, w) && sentence == FunctionSentence(w))
      && (kind == Class ==> exists w :: WordOf(t, w) && sentence == ClassSentence(w))
      && (kind == Variable ==> exists w :: WordOf(t, w) && sentence == VariableSentence(w))
  {
    var (kind, sentence) := Describe(t, config);
    if kind == Function && NamesFunctions(config) {
      FunctionNameIsWord(config.functionPatterns, t);
      assert WordOf(t, ExtractFunctionName(t, config));
    } else if kind == Class {
      ClassNameIsWord(t, config);
      assert WordOf(t, ExtractClassName(t, config));
    } else if kind == Variable {
      VariableNameIsWord(t, config);
      assert WordOf(t, ExtractVariableName(t, config));
    }
  }

  // ---------------------------------------------------------------------
  // The loop over the lines.

  /** The non-blank lines with their 1-based positions among all lines:
      what survives the `if (!trimmedLine) return;` of the loop. */
  function Numbered(lines: seq<string>): seq<(nat, string)>
  {
    if |lines| == 0 then []
    else
      var line := lines[|lines| - 1];
      Numbered(lines[..|lines| - 1]) + (if IsBlank(line) then [] else [(|lines|, line)])
  }

  /** `code.split('\n').forEach(...)` with its pushes: one record per
      numbered line, in order. */
  function ExplainLines(lines: seq<string>, config: LanguageConfig): seq<CodeLine>
  {
    var numbered := Numbered(lines);
    seq(|numbered|, i requires 0 <= i < |numbered| => ExplainLine(numbered[i].1, numbered[i].0, config))
  }

  /** The `code` fields of a list of records. */
  function Codes(records: seq<CodeLine>): seq<string>
  {
    seq(|records|, i requires 0 <= i < |records| => records[i].code)
  }

  /** The numbered lines are exactly the non-blank lines, in order. */
  lemma {:induction false} NumberedNonBlank(lines: seq<string>)
    ensures |Numbered(lines)| == |NonBlank(lines)|
    ensures forall i :: 0 <= i < |Numbered(lines)| ==> Numbered(lines)[i].1 == NonBlank(lines)[i]
  {
    if |lines| > 0 {
      NumberedNonBlank(lines[..|lines| - 1]);
    }
  }

  /** The entry at `i` points at its non-blank line. */
  lemma {:induction false} NumberedAt(lines: seq<string>, i: nat)
    requires i < |Numbered(lines)|
    ensures 1 <= Numbered(lines)[i].0 <= |lines| && lines[Numbered(lines)[i].0 - 1] == Numbered(lines)[i].1
  {
    var init := lines[..|lines| - 1];
    var blank := IsBlank(lines[|lines| - 1]);
    var entry: (nat, string) := (|lines|, lines[|lines| - 1]);
    assert Numbered(lines) == Numbered(init) + (if blank then [] else [entry]);
    if i < |Numbered(init)| {
      NumberedAt(init, i);
      var e := Numbered(init)[i];
      assert Numbered(lines)[i] == e;
      assert init[e.0 - 1] == lines[e.0 - 1];
    } else {
      assert !blank && Numbered(lines)[i] == entry;
    }
  }

  /** Every number points at its non-blank line. */
  lemma {:induction false} NumberedPositions(lines: seq<string>)
    ensures forall i :: 0 <= i < |Numbered(lines)| ==>
      1 <= Numbered(lines)[i].0 <= |lines| && lines[Numbered(lines)[i].0 - 1] == Numbered(lines)[i].1
  {
    forall i | 0 <= i < |Numbered(lines)|
      ensures 1 <= Numbered(lines)[i].0 <= |lines| && lines[Numbered(lines)[i].0 - 1] == Numbered(lines)[i].1
    {
      NumberedAt(lines, i);
    }
  }

  /** The numbered lines are not blank. */
  lemma {:induction false} NumberedNotBlank(lines: seq<string>)
    ensures forall i :: 0 <= i < |Numbered(lines)| ==> !IsBlank(Numbered(lines)[i].1)
  {
    if |lines| > 0 {
      NumberedNotBlank(lines[..|lines| - 1]);
    }
  }

  /** The numbers strictly increase. */
  lemma {:induction false} NumberedIncreasing(lines: seq<string>)
    ensures forall i :: 0 <= i < |Numbered(lines)| ==> Numbered(lines)[i].0 <= |lines|
    ensures forall i, j :: 0 <= i < j < |Numbered(lines)| ==> Numbered(lines)[i].0 < Numbered(lines)[j].0
  {
    if |lines| > 0 {
      var init := lines[..|lines| - 1];
      NumberedIncreasing(init);
      var before := Numbered(init);
      assert forall i :: 0 <= i < |before| ==> Numbered(lines)[i] == before[i];
    }
  }

  /** Every non-blank line is numbered. */
  lemma {:induction false} NumberedComplete(lines: seq<string>, k: nat)
    requires k < |lines| && !IsBlank(lines[k])
    ensures exists i :: 0 <= i < |Numbered(lines)| && Numbered(lines)[i].0 == k + 1
  {
    var init := lines[..|lines| - 1];
    var before := Numbered(init);
    if k == |lines| - 1 {
      assert Numbered(lines)[|before|].0 == k + 1;
    } else {
      NumberedComplete(init, k);
      var i :| 0 <= i < |before| && before[i].0 == k + 1;
      assert Numbered(lines)[i] == before[i];
    }
  }

  /** The records hold exactly the non-blank lines, in input order. */
  lemma ExplainLinesCodes(lines: seq<string>, config: LanguageConfig)
    ensures Codes(ExplainLines(lines, config)) == NonBlank(lines)
  {
    var r := ExplainLines(lines, config);
    NumberedNonBlank(lines);
    forall i | 0 <= i < |r|
      ensures r[i].code == NonBlank(lines)[i]
    {
    }
  }

  /** Each record carries the number of a non-blank line and is the
      explanation of that line; by `NumberedPositions` the numbers strictly
      increase, and by `NumberedComplete` every non-blank line has one. */
  lemma ExplainLinesNumbers(lines: seq<string>, config: LanguageConfig)
    ensures var r := ExplainLines(lines, config);
      && |r| == |Numbered(lines)|
      && forall i :: 0 <= i < |r| ==>
        var n := Numbered(lines)[i].0;
        && 1 <= n <= |lines| && r[i].lineNumber == n
        && r[i] == ExplainLine(lines[n - 1], n, config)
  {
    var r := ExplainLines(lines, config);
    var numbered := Numbered(lines);
    NumberedPositions(lines);
    forall i | 0 <= i < |r|
      ensures var n := numbered[i].0;
        && 1 <= n <= |lines| && r[i].lineNumber == n
        && r[i] == ExplainLine(lines[n - 1], n, config)
    {
      var n := numbered[i].0;
      assert lines[n - 1] == numbered[i].1;
      assert r[i] == ExplainLine(numbered[i].1, n, config);
    }
  }

  /** `parseAndExplainCode(code, language)`: the language is reported twice
      as given, whether or not the registry knows it. */
  function ParseAndExplainCode(code: string, language: string): ExplanationResult
  {
    var explained := ExplainLines(Split(code, '\n'), GetLanguageConfig(language));
    ExplanationResult(explained, GenerateSummary(explained, language), language, language)
  }

  /** The result lists the non-blank lines of the code, in order, each
      explained under the language's table and numbered by its line; the
      summary describes these records. */
  lemma ParseAndExplainCodeLines(code: string, language: string)
    ensures var r := ParseAndExplainCode(code, language);
      var lines := Split(code, '\n');
      && r.language == language && r.detectedLanguage == language
      && Codes(r.lines) == DetectionLines(code)
      && r.lines == ExplainLines(lines, GetLanguageConfig(language))
      && r.summary == GenerateSummary(r.lines, language)
  {
    ExplainLinesCodes(Split(code, '\n'), GetLanguageConfig(language));
  }

  /** Every table the analyser can pick fits. */
  lemma ChosenTableFits(language: string)
    ensures Fits(GetLanguageConfig(language))
  {
    GetLanguageConfigIsTable(language);
    TablesFit();
  }

  /** Each record's category can be read back from its explanation. */
  lemma RecordsReadBack(code: string, language: string)
    ensures var r := ParseAndExplainCode(code, language);
      forall i :: 0 <= i < |r.lines| ==> SentenceKind(r.lines[i].explanation) == r.lines[i].kind
  {
    var config := GetLanguageConfig(language);
    var numbered := Numbered(Split(code, '\n'));
    ChosenTableFits(language);
    forall i | 0 <= i < |numbered|
      ensures SentenceKind(ExplainLine(numbered[i].1, numbered[i].0, config).explanation)
        == ExplainLine(numbered[i].1, numbered[i].0, config).kind
    {
      DescribeSentenceKind(Trim(numbered[i].1), config);
    }
  }

  /** A text of blank lines gives no records. */
  lemma BlankRecords(code: string, language: string)
    requires forall k :: 0 <= k < |Split(code, '\n')| ==> IsBlank(Split(code, '\n')[k])
    ensures ParseAndExplainCode(code, language).lines == []
  {
    NonBlankAllBlank(Split(code, '\n'));
    NumberedNonBlank(Split(code, '\n'));
  }

  /** With no records, the summary is the opening and the closing sentence
      alone. */
  lemma SummaryOfNothing(language: string)
    ensures GenerateSummary([], language) == Opening(language) + ClosingSentence
  {
    assert ClausesOf([]) == Clauses(false, false, false, false, false, false);
  }

  /** A text of blank lines, the empty text among them, is analysed into
      no records and a summary of the opening and the closing sentence
      alone. */
  lemma BlankAnalysis(code: string, language: string)
    requires forall k :: 0 <= k < |Split(code, '\n')| ==> IsBlank(Split(code, '\n')[k])
    ensures var r := ParseAndExplainCode(code, language);
      && r.lines == []
      && r.summary == Opening(language) + ClosingSentence
      && r.language == language && r.detectedLanguage == language
  {
    BlankRecords(code, language);
    SummaryOfNothing(language);
  }

  /** The empty text in particular. */
  lemma EmptyAnalysis(language: string)
    ensures var r := ParseAndExplainCode("", language);
      && r.lines == []
      && r.summary == Opening(language) + ClosingSentence
  {
    assert Split("", '\n') == [""];
    assert IsBlank("");
    BlankAnalysis("", language);
  }

  // ---------------------------------------------------------------------
  // The summary.

  // The clauses of the summary paragraph, in the order they appear. The
  // longer texts are written in pieces, which keeps their letters within
  // the verifier's reach; joined, they are the analyser's wording.
  const ClassClause: string := "defines a class with " + "properties and methods. "
  const FunctionClause: string :=
    "defines one or more functions that " + "can be called to perform specific " + "tasks. "
  const VariableClause: string := "It creates variables to store data. "
  const LoopClause: string := "It uses loops to repeat " + "certain operations. "
  const ConditionClause: string :=
    "It uses conditional statements to " + "make decisions based on different " + "scenarios. "
  const OutputClause: string := "It produces output that " + "the user can see. "
  const ClosingSentence: string :=
    "Overall, this code is designed to " + "accomplish a specific programming " + "task through a series of logical " + "steps."

  function Opening(language: string): string { "This " + language + " code " }

  /** Some record has the category. */
  predicate HasKind(records: seq<CodeLine>, kind: LineType) {
    exists i :: 0 <= i < |records| && records[i].kind == kind
  }

  /** Some sentence mentions output: the output clause looks at the
      explanations, not at the categories. */
  predicate MentionsOutput(records: seq<CodeLine>) {
    exists i :: 0 <= i < |records|
      && (Includes(records[i].explanation, "output") || Includes(records[i].explanation, "displays"))
  }

  /** The clauses a summary carries. */
  datatype Clauses = Clauses(classes: bool, functions: bool, variables: bool, loops: bool, conditions: bool, output: bool)

  /** The flags of `generateSummary`; the class clause takes the place of
      the function clause. */
  function ClausesOf(records: seq<CodeLine>): Clauses
  {
    var hasClass := HasKind(records, Class);
    Clauses(hasClass, !hasClass && HasKind(records, Function), HasKind(records, Variable),
            HasKind(records, Loop), HasKind(records, Condition), MentionsOutput(records))
  }

  function Clause(present: bool, text: string): string {
    if present then text else ""
  }

  /** The first clause: the class clause takes the place of the function
      clause. */
  function Lead(c: Clauses): string {
    if c.classes then ClassClause else if c.functions then FunctionClause else ""
  }

  /** What follows the first clause. */
  function AfterLead(c: Clauses): string {
    Clause(c.variables, VariableClause) + AfterVariables(c)
  }

  function AfterVariables(c: Clauses): string {
    Clause(c.loops, LoopClause) + AfterLoops(c)
  }

  function AfterLoops(c: Clauses): string {
    Clause(c.conditions, ConditionClause) + AfterConditions(c)
  }

  function AfterConditions(c: Clauses): string {
    Clause(c.output, OutputClause) + ClosingSentence
  }

  /** The summary text for a set of clauses: the opening, the clauses that
      are present in their fixed order, and the closing sentence. */
  function SummaryText(c: Clauses, language: string): string {
    Opening(language) + (Lead(c) + AfterLead(c))
  }

  /** `generateSummary(explanations, language)`. */
  function GenerateSummary(records: seq<CodeLine>, language: string): string
  {
    SummaryText(ClausesOf(records), language)
  }

  /** `s` with `w` taken off its front, and whether it was there. */
  function Take(s: string, w: string): (bool, string)
  {
    if |w| <= |s| && s[..|w|] == w then (true, s[|w|..]) else (false, s)
  }

  /** Reads a summary back into the clauses it carries; `None` when the text
      is not a summary for the language. */
  function ReadSummary(s: string, language: string): Option<Clauses>
  {
    var (started, r0) := Take(s, Opening(language));
    var (classes, r1) := Take(r0, ClassClause);
    var (functions, r2) := Take(r1, FunctionClause);
    var (variables, r3) := Take(r2, VariableClause);
    var (loops, r4) := Take(r3, LoopClause);
    var (conditions, r5) := Take(r4, ConditionClause);
    var (output, r6) := Take(r5, OutputClause);
    if started && r6 == ClosingSentence
    then Some(Clauses(classes, functions, variables, loops, conditions, output))
    else None
  }

  lemma TakeFront(w: string, rest: string)
    ensures Take(w + rest, w) == (true, rest)
  {
    assert (w + rest)[..|w|] == w;
    assert (w + rest)[|w|..] == rest;
  }

  /** A text that differs from `w` at some position does not start with it. */
  lemma TakeMiss(s: string, w: string, k: nat)
    requires k < |s| && k < |w| && s[k] != w[k]
    ensures Take(s, w) == (false, s)
  {
    if |w| <= |s| {
      assert s[..|w|] != w by { assert s[..|w|][k] != w[k]; }
    }
  }

  /** An optional clause followed by a text that does not start with it is
      taken exactly when present. */
  lemma TakeClause(present: bool, w: string, rest: string)
    requires Take(rest, w).0 == false
    ensures Take(Clause(present, w) + rest, w) == (present, rest)
  {
    if present {
      TakeFront(w, rest);
    } else {
      assert Clause(present, w) + rest == rest;
    }
  }

  /** The letters that tell the clauses apart. */
  lemma ClauseLetters()
    ensures |ClassClause| > 8 && ClassClause[0] == 'd' && ClassClause[8] == 'a'
    ensures |FunctionClause| > 8 && FunctionClause[0] == 'd' && FunctionClause[8] == 'o'
    ensures |VariableClause| > 8 && VariableClause[0] == 'I' && VariableClause[3] == 'c'
    ensures |LoopClause| > 8 && LoopClause[0] == 'I' && LoopClause[3] == 'u' && LoopClause[8] == 'l'
    ensures |ConditionClause| > 8 && ConditionClause[0] == 'I' && ConditionClause[3] == 'u' && ConditionClause[8] == 'c'
    ensures |OutputClause| > 8 && OutputClause[0] == 'I' && OutputClause[3] == 'p'
    ensures |ClosingSentence| > 8 && ClosingSentence[0] == 'O'
  {
  }

  lemma ReadOutput(c: Clauses)
    ensures Take(AfterConditions(c), OutputClause) == (c.output, ClosingSentence)
    ensures !Take(AfterConditions(c), ConditionClause).0
  {
    ClauseLetters();
    TakeMiss(ClosingSentence, OutputClause, 0);
    TakeClause(c.output, OutputClause, ClosingSentence);
    if c.output {
      TakeMiss(AfterConditions(c), ConditionClause, 3);
    } else {
      TakeMiss(AfterConditions(c), ConditionClause, 0);
    }
  }

  lemma ReadConditions(c: Clauses)
    ensures Take(AfterLoops(c), ConditionClause) == (c.conditions, AfterConditions(c))
    ensures !Take(AfterLoops(c), LoopClause).0
  {
    ClauseLetters();
    ReadOutput(c);
    TakeClause(c.conditions, ConditionClause, AfterConditions(c));
    if c.conditions {
      TakeMiss(AfterLoops(c), LoopClause, 8);
    } else if c.output {
      TakeMiss(AfterLoops(c), LoopClause, 3);
    } else {
      TakeMiss(AfterLoops(c), LoopClause, 0);
    }
  }

  lemma ReadLoops(c: Clauses)
    ensures Take(AfterVariables(c), LoopClause) == (c.loops, AfterLoops(c))
    ensures !Take(AfterVariables(c), VariableClause).0
  {
    ClauseLetters();
    ReadConditions(c);
    TakeClause(c.loops, LoopClause, AfterLoops(c));
    if c.loops || c.conditions || c.output {
      TakeMiss(AfterVariables(c), VariableClause, 3);
    } else {
      TakeMiss(AfterVariables(c), VariableClause, 0);
    }
  }

  lemma ReadVariables(c: Clauses)
    ensures Take(AfterLead(c), VariableClause) == (c.variables, AfterVariables(c))
    ensures !Take(AfterLead(c), FunctionClause).0 && !Take(AfterLead(c), ClassClause).0
  {
    ClauseLetters();
    ReadLoops(c);
    TakeClause(c.variables, VariableClause, AfterVariables(c));
    assert AfterLead(c)[0] == 'I' || AfterLead(c)[0] == 'O';
    TakeMiss(AfterLead(c), FunctionClause, 0);
    TakeMiss(AfterLead(c), ClassClause, 0);
  }

  lemma ReadLead(c: Clauses)
    requires !(c.classes && c.functions)
    ensures var r1 := Clause(c.functions, FunctionClause) + AfterLead(c);
      && Take(Lead(c) + AfterLead(c), ClassClause) == (c.classes, r1)
      && Take(r1, FunctionClause) == (c.functions, AfterLead(c))
  {
    ClauseLetters();
    ReadVariables(c);
    var r1 := Clause(c.functions, FunctionClause) + AfterLead(c);
    TakeClause(c.functions, FunctionClause, AfterLead(c));
    if c.functions {
      TakeMiss(r1, ClassClause, 8);
    } else {
      TakeMiss(r1, ClassClause, 0);
    }
    TakeClause(c.classes, ClassClause, r1);
    assert Lead(c) + AfterLead(c) == Clause(c.classes, ClassClause) + r1;
  }

  /** Reading a summary gives back the clauses it was written with; the
      function clause can only be read when the class clause is absent. */
  lemma ReadSummaryInverts(c: Clauses, language: string)
    requires !(c.classes && c.functions)
    ensures ReadSummary(SummaryText(c, language), language) == Some(c)
  {
    TakeFront(Opening(language), Lead(c) + AfterLead(c));
    ReadLead(c);
    ReadVariables(c);
    ReadLoops(c);
    ReadConditions(c);
    ReadOutput(c);
  }

  /** The summary starts with the opening and ends with the closing
      sentence, and it carries exactly the clauses the records call for. */
  lemma SummaryReadsBack(records: seq<CodeLine>, language: string)
    ensures var s := GenerateSummary(records, language);
      && Opening(language) <= s
      && EndsWith(s, ClosingSentence)
      && ReadSummary(s, language) == Some(ClausesOf(records))
  {
    var c := ClausesOf(records);
    ReadSummaryInverts(c, language);
    SummaryEndsWithClosing(c, language);
    var s := SummaryText(c, language);
    assert s[..|Opening(language)|] == Opening(language);
  }

  predicate EndsWith(s: string, w: string) {
    |w| <= |s| && s[|s| - |w|..] == w
  }

  lemma EndsWithSelf(w: string)
    ensures EndsWith(w, w)
  {
    assert w[|w| - |w|..] == w;
  }

  lemma EndsBehind(front: string, s: string, w: string)
    requires EndsWith(s, w)
    ensures EndsWith(front + s, w)
  {
    assert (front + s)[|front + s| - |w|..] == s[|s| - |w|..];
  }

  lemma SummaryEndsWithClosing(c: Clauses, language: string)
    ensures EndsWith(SummaryText(c, language), ClosingSentence)
  {
    var w := ClosingSentence;
    EndsWithSelf(w);
    EndsBehind(Clause(c.output, OutputClause), w, w);
    EndsBehind(Clause(c.conditions, ConditionClause), AfterConditions(c), w);
    EndsBehind(Clause(c.loops, LoopClause), AfterLoops(c), w);
    EndsBehind(Clause(c.variables, VariableClause), AfterVariables(c), w);
    EndsBehind(Lead(c), AfterLead(c), w);
    EndsBehind(Opening(language), Lead(c) + AfterLead(c), w);
  }

  /** A printing line always brings in the output clause. */
  lemma OutputLineClaimsOutput(records: seq<CodeLine>, i: nat)
    requires i < |records| && records[i].explanation == OutputSentence
    ensures ClausesOf(records).output
  {
    assert OutputSentence[14..20] == "output";
    IncludesAt(records[i].explanation, "output", 14);
  }

  /** So does a definition whose name contains `output`, although it
      prints nothing. */
  lemma OutputInNameClaimsOutput(records: seq<CodeLine>, i: nat, name: string)
    requires i < |records| && records[i].explanation == FunctionSentence(name)
    requires Includes(name, "output")
    ensures ClausesOf(records).output
  {
    var k :| 0 <= k <= |name| - 6 && OccursAt(name, "output", k);
    assert FunctionSentence(name)[|FunctionPrefix| + k..|FunctionPrefix| + k + 6] == name[k..k + 6];
    IncludesAt(records[i].explanation, "output", |FunctionPrefix| + k);
  }
}
