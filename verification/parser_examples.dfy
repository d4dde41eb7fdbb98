/** Worked examples of the line explainer on concrete lines. */
module ParserExamples {
  import opened Options
  import opened Text
  import opened Patterns
  import opened Types
  import opened LanguageDetector
  import opened CodeParser

  /** A comment that mentions `def` is still a comment: the comment test
      comes first. */
  lemma CommentBeatsDefinition()
    ensures Describe("# def foo():", PythonConfig) == (Comment, CommentSentence)
  {
    assert Test(PythonConfig.commentPatterns[0], "# def foo():");
  }

  /** The name of a Python definition is the word after `def`. */
  lemma DefinitionName()
    ensures ExtractFunctionName("def greet(name):", PythonConfig) == "greet"
  {
    var line := "def greet(name):";
    assert Span(Space, line, 0) == 0;
    assert line[0..3] == "def";
    assert Span(Space, line, 3) == 4 by { assert Span(Space, line, 4) == 4; }
    assert AllIn(Word, line, 4, 9);
    SpanUnique(Word, line, 4, 9);
    assert line[4..9] == "greet";
    assert KeywordName(line, 0, "def") == Some((4, 9));
    FunctionNameAt(PythonConfig.functionPatterns, line, 0);
  }

  /** A Python assignment is named by the word before `=`. */
  lemma AssignmentName()
    ensures ExtractVariableName("x = 5", PythonConfig) == "x"
  {
    var line := "x = 5";
    assert Span(Space, line, 0) == 0;
    assert Span(Word, line, 0) == 1 by { assert Span(Word, line, 1) == 1; }
    assert Span(Space, line, 1) == 2 by { assert Span(Space, line, 2) == 2; }
    assert line[2..3] == "=";
    assert AssignMatch(line) == Some([Some(line[..3]), Some(line[0..1])]);
    assert line[0..1] == "x";
  }

  /** A JavaScript declaration is named by the word after its keyword, not
      by the keyword the first group captures. */
  lemma DeclarationName()
    ensures ExtractVariableName("let y = 2", JavaScriptConfig) == "y"
  {
    var line := "let y = 2";
    assert Span(Space, line, 0) == 0;
    assert !LitAt(line, 0, "var") by { assert line[0..3] == "let"; }
    assert line[0..3] == "let";
    assert Span(Space, line, 3) == 4 by { assert Span(Space, line, 4) == 4; }
    assert Span(Word, line, 4) == 5 by { assert Span(Word, line, 5) == 5; }
    assert KeywordName(line, 0, "var") == None;
    assert KeywordName(line, 0, "let") == Some((4, 5));
    assert KeywordAltName(line, 0, DeclKeywords, 0) == Some(("let", 4, 5));
    assert NameAfterAlt(line, DeclKeywords) == Some([Some(line[..5]), Some("let"), Some(line[4..5])]);
    assert line[4..5] == "y";
  }

  const CallExample: string := "greet(\"Ajay\")"

  /** The call line has none of the characters the earlier generic tests
      look for. */
  lemma CallExampleExcludes()
    ensures !Includes(CallExample, "=") && !Includes(CallExample, "++") && !Includes(CallExample, "--")
    ensures !Includes(CallExample, "{") && !Includes(CallExample, "}")
  {
    var line := CallExample;
    MissingCharExcludes(line, "=", 0);
    MissingCharExcludes(line, "++", 0);
    MissingCharExcludes(line, "--", 0);
    MissingCharExcludes(line, "{", 0);
    MissingCharExcludes(line, "}", 0);
  }

  /** It has both parentheses. */
  lemma CallExampleIncludes()
    ensures Includes(CallExample, "(") && Includes(CallExample, ")")
  {
    var line := CallExample;
    assert |line| == 13 && line[5] == '(' && line[12] == ')';
    assert line[5..6] == "(" && line[12..13] == ")";
    IncludesAt(line, "(", 5);
    IncludesAt(line, ")", 12);
  }

  /** Nor any of the words the return, import and output checks look for. */
  lemma CallExampleMisses()
    ensures !Includes(CallExample, "return") && !Imports(CallExample) && !PrintsOutput(CallExample)
  {
    var line := CallExample;
    MissingCharExcludes(line, "return", 5);
    MissingCharExcludes(line, "import", 0);
    MissingCharExcludes(line, "#include", 0);
    MissingCharExcludes(line, "print(", 0);
    MissingCharExcludes(line, "console.log", 0);
    MissingCharExcludes(line, "cout", 0);
    MissingCharExcludes(line, "System.out.println", 0);
  }

  /** No Python comment, definition or class pattern takes the call line. */
  lemma CallExampleNoDefinition()
    ensures !AnyTest(PythonConfig.commentPatterns, CallExample)
    ensures !AnyTest(PythonConfig.functionPatterns, CallExample)
    ensures !AnyTest(PythonConfig.classPatterns, CallExample)
  {
    assert Span(Space, CallExample, 0) == 0 && CallExample[0] == 'g';
  }

  /** Nor a loop or condition pattern. */
  lemma CallExampleNoControl()
    ensures !AnyTest(PythonConfig.loopPatterns, CallExample)
    ensures !AnyTest(PythonConfig.conditionPatterns, CallExample)
  {
    assert Span(Space, CallExample, 0) == 0 && CallExample[0] == 'g';
  }

  /** Nor the assignment pattern: the word `greet` is followed by `(`. */
  lemma CallExampleNoAssignment()
    ensures !AnyTest(PythonConfig.variablePatterns, CallExample)
  {
    var line := CallExample;
    assert Span(Space, line, 0) == 0;
    assert line[5] == '(';
    assert AllIn(Word, line, 0, 5);
    SpanUnique(Word, line, 0, 5);
    assert Span(Space, line, 5) == 5;
  }

  /** A call with no assignment, step or brace falls through the whole
      chain to the generic sentences, and is explained as a call. */
  lemma CallLine()
    ensures Describe(CallExample, PythonConfig) == (Other, CallSentence)
  {
    CallExampleExcludes();
    CallExampleIncludes();
    CallExampleMisses();
    CallExampleNoDefinition();
    CallExampleNoControl();
    CallExampleNoAssignment();
    GenericSentenceIff(CallExample);
  }

  /** The example program of the input panel, line by line. */
  const ExampleLines: seq<string> := ["def greet(name):", "    print(\"Hello, \" + name)", "", CallExample]

  /** The same program as the one text the panel loads. */
  const ExampleCode: string := "def greet(name):" + "\n" + "    print(\"Hello, \" + name)" + "\n" + "\n" + CallExample

  lemma ExampleCodeLines()
    ensures Split(ExampleCode, '\n') == ExampleLines
  {
    var l := ExampleLines;
    MissingCharExcludes(l[0], "\n", 0);
    MissingCharExcludes(l[1], "\n", 0);
    MissingCharExcludes(l[3], "\n", 0);
    assert l[1..][1..][1..] == [CallExample];
    assert Join(l[2..], '\n') == "" + "\n" + CallExample;
    assert Join(l[1..], '\n') == l[1] + "\n" + Join(l[2..], '\n');
    assert Join(l, '\n') == l[0] + "\n" + Join(l[1..], '\n');
    assert Join(l, '\n') == ExampleCode;
    SplitJoin(l, '\n');
  }

  /** Which lines of the example are blank: only the third. */
  lemma ExampleBlanks()
    ensures !IsBlank(ExampleLines[0]) && !IsBlank(ExampleLines[1])
    ensures IsBlank(ExampleLines[2]) && !IsBlank(ExampleLines[3])
  {
    var lines := ExampleLines;
    assert Span(Space, lines[0], 0) == 0;
    assert lines[1][0] == ' ' && lines[1][1] == ' ' && lines[1][2] == ' ' && lines[1][3] == ' ' && lines[1][4] == 'p';
    assert AllIn(Space, lines[1], 0, 4);
    SpanUnique(Space, lines[1], 0, 4);
    assert IsBlank("");
    assert Span(Space, CallExample, 0) == 0;
  }

  /** Blank lines get no record, but the numbering counts them: the
      example's records are numbered 1, 2 and 4. */
  lemma BlankLinesKeepNumbers()
    ensures Numbered(Split(ExampleCode, '\n')) == [(1, ExampleLines[0]), (2, ExampleLines[1]), (4, CallExample)]
  {
    ExampleCodeLines();
    ExampleBlanks();
    var lines := ExampleLines;
    assert lines[..3][..2][..1][..0] == [];
    assert Numbered(lines[..1]) == [(1, lines[0])];
    assert lines[..2][..1] == lines[..1] && lines[..2][1] == lines[1];
    assert Numbered(lines[..2]) == [(1, lines[0]), (2, lines[1])];
    assert lines[..3][..2] == lines[..2] && lines[..3][2] == lines[2];
    assert Numbered(lines[..3]) == [(1, lines[0]), (2, lines[1])];
    assert lines[..3] == lines[..|lines| - 1] && lines[3] == CallExample;
  }

  /** The call line has nothing to trim. */
  lemma CallExampleTrimmed()
    ensures Trim(CallExample) == CallExample
  {
    var line := CallExample;
    assert |line| == 13 && line[0] == 'g' && line[12] == ')';
    TrimWitness(line, 0, 13);
    assert line[0..13] == line;
  }

  /** Analysed as Python, the example yields three records, numbered 1, 2
      and 4; the last is the call line, explained as a call. */
  lemma ExampleRecords()
    ensures var r := ParseAndExplainCode(ExampleCode, "python");
      && |r.lines| == 3
      && r.lines[0].lineNumber == 1 && r.lines[1].lineNumber == 2
      && r.lines[2] == CodeLine(4, CallExample, CallSentence, Other)
  {
    BlankLinesKeepNumbers();
    GetLanguageConfigKnown(0);
    assert GetLanguageConfig("python") == PythonConfig;
    CallExampleTrimmed();
    CallLine();
    var r := ParseAndExplainCode(ExampleCode, "python");
    assert r.lines == ExplainLines(Split(ExampleCode, '\n'), PythonConfig);
    assert r.lines[2] == ExplainLine(CallExample, 4, PythonConfig);
  }
}
