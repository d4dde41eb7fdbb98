/** Worked examples of the detector on concrete inputs. */
module DetectorExamples {
  import opened Text
  import opened LanguageDetector

  /** A list of keywords, each with the evidence that settles whether a
      line includes it: the index of a character of the keyword that the
      line lacks, or the index at which the line holds the keyword. */
  datatype Witnessed =
    | Done
    | Lacks(keyword: string, missing: nat, rest: Witnessed)
    | Found(keyword: string, at: nat, rest: Witnessed)

  function Keywords(ws: Witnessed): seq<string> {
    match ws
    case Done => []
    case Lacks(w, _, rest) => [w] + Keywords(rest)
    case Found(w, _, rest) => [w] + Keywords(rest)
  }

  /** The number of keywords the evidence says the line holds. */
  function Tally(ws: Witnessed): nat {
    match ws
    case Done => 0
    case Lacks(_, _, rest) => Tally(rest)
    case Found(_, _, rest) => 1 + Tally(rest)
  }

  /** The evidence is right about `line`, whose characters all lie in
      `chars`. */
  predicate Valid(line: string, chars: set<char>, ws: Witnessed) {
    match ws
    case Done => true
    case Lacks(w, k, rest) => k < |w| && w[k] !in chars && Valid(line, chars, rest)
    case Found(w, k, rest) => OccursAt(line, w, k) && Valid(line, chars, rest)
  }

  lemma HitsSingle(line: string, w: string)
    ensures Hits(line, [w]) == (if Includes(line, w) then 1 else 0)
  {
    assert [w][..0] == [];
  }

  /** Valid evidence counts the keywords a line includes. */
  lemma {:induction false} HitsByEvidence(line: string, chars: set<char>, ws: Witnessed)
    requires forall c :: c in line ==> c in chars
    requires Valid(line, chars, ws)
    ensures Hits(line, Keywords(ws)) == Tally(ws)
  {
    match ws
    case Done =>
    case Lacks(w, k, rest) =>
      MissingCharExcludes(line, w, k);
      HitsSingle(line, w);
      HitsByEvidence(line, chars, rest);
      HitsAppend(line, [w], Keywords(rest));
    case Found(w, k, rest) =>
      IncludesAt(line, w, k);
      HitsSingle(line, w);
      HitsByEvidence(line, chars, rest);
      HitsAppend(line, [w], Keywords(rest));
  }

  lemma ScoreOfOne(line: string, keywords: seq<string>)
    ensures Score([line], keywords) == Hits(line, keywords)
  {
    assert [line][..0] == [];
  }

  const IfLine: string := "if"
  const DefLine: string := "def"
  const SampleDefLine: string := "def greet(name):"
  const SamplePrintLine: string := "    print(\"hi\")"
  const SampleCode: string := "def greet(name):\n    print(\"hi\")"

  lemma IfChars()
    ensures forall c :: c in "if" ==> c in {'i', 'f'}
  {
  }

  lemma IfPython1()
    ensures Hits("if", ["def", "class", "import"]) == 0
  {
    IfChars();
    assert Keywords(Lacks("def", 0, Lacks("class", 0, Lacks("import", 1, Done)))) == ["def", "class", "import"];
    HitsByEvidence("if", {'i', 'f'}, Lacks("def", 0, Lacks("class", 0, Lacks("import", 1, Done))));
  }

  lemma IfPython2()
    ensures Hits("if", ["from", "if", "elif"]) == 1
  {
    IfChars();
    assert "if"[0..2] == "if";
    assert Keywords(Lacks("from", 1, Found("if", 0, Lacks("elif", 0, Done)))) == ["from", "if", "elif"];
    HitsByEvidence("if", {'i', 'f'}, Lacks("from", 1, Found("if", 0, Lacks("elif", 0, Done))));
  }

  lemma IfPython3()
    ensures Hits("if", ["else", "for", "while"]) == 0
  {
    IfChars();
    assert Keywords(Lacks("else", 0, Lacks("for", 1, Lacks("while", 0, Done)))) == ["else", "for", "while"];
    HitsByEvidence("if", {'i', 'f'}, Lacks("else", 0, Lacks("for", 1, Lacks("while", 0, Done))));
  }

  lemma IfPython4()
    ensures Hits("if", ["try", "except", "return"]) == 0
  {
    IfChars();
    assert Keywords(Lacks("try", 0, Lacks("except", 0, Lacks("return", 0, Done)))) == ["try", "except", "return"];
    HitsByEvidence("if", {'i', 'f'}, Lacks("try", 0, Lacks("except", 0, Lacks("return", 0, Done))));
  }

  lemma IfPython5()
    ensures Hits("if", ["print", "len", "range"]) == 0
  {
    IfChars();
    assert Keywords(Lacks("print", 0, Lacks("len", 0, Lacks("range", 0, Done)))) == ["print", "len", "range"];
    HitsByEvidence("if", {'i', 'f'}, Lacks("print", 0, Lacks("len", 0, Lacks("range", 0, Done))));
  }

  lemma IfHitsPython()
    ensures Hits(IfLine, PythonConfig.keywords) == 1
  {
    IfPython1();
    IfPython2();
    IfPython3();
    IfPython4();
    IfPython5();
    assert PythonConfig.keywords == ["def", "class", "import"] + ["from", "if", "elif"] + ["else", "for", "while"] + ["try", "except", "return"] + ["print", "len", "range"];
    HitsAppend("if", ["def", "class", "import"], ["from", "if", "elif"]);
    HitsAppend("if", ["def", "class", "import"] + ["from", "if", "elif"], ["else", "for", "while"]);
    HitsAppend("if", ["def", "class", "import"] + ["from", "if", "elif"] + ["else", "for", "while"], ["try", "except", "return"]);
    HitsAppend("if", ["def", "class", "import"] + ["from", "if", "elif"] + ["else", "for", "while"] + ["try", "except", "return"], ["print", "len", "range"]);
  }

  lemma IfJavaScript1()
    ensures Hits("if", ["function", "var", "let"]) == 0
  {
    IfChars();
    assert Keywords(Lacks("function", 1, Lacks("var", 0, Lacks("let", 0, Done)))) == ["function", "var", "let"];
    HitsByEvidence("if", {'i', 'f'}, Lacks("function", 1, Lacks("var", 0, Lacks("let", 0, Done))));
  }

  lemma IfJavaScript2()
    ensures Hits("if", ["const", "if", "else"]) == 1
  {
    IfChars();
    assert "if"[0..2] == "if";
    assert Keywords(Lacks("const", 0, Found("if", 0, Lacks("else", 0, Done)))) == ["const", "if", "else"];
    HitsByEvidence("if", {'i', 'f'}, Lacks("const", 0, Found("if", 0, Lacks("else", 0, Done))));
  }

  lemma IfJavaScript3()
    ensures Hits("if", ["for", "while", "return"]) == 0
  {
    IfChars();
    assert Keywords(Lacks("for", 1, Lacks("while", 0, Lacks("return", 0, Done)))) == ["for", "while", "return"];
    HitsByEvidence("if", {'i', 'f'}, Lacks("for", 1, Lacks("while", 0, Lacks("return", 0, Done))));
  }

  lemma IfJavaScript4()
    ensures Hits("if", ["class", "console.log", "document"]) == 0
  {
    IfChars();
    assert Keywords(Lacks("class", 0, Lacks("console.log", 0, Lacks("document", 0, Done)))) == ["class", "console.log", "document"];
    HitsByEvidence("if", {'i', 'f'}, Lacks("class", 0, Lacks("console.log", 0, Lacks("document", 0, Done))));
  }

  lemma IfJavaScript5()
    ensures Hits("if", ["window"]) == 0
  {
    IfChars();
    assert Keywords(Lacks("window", 0, Done)) == ["window"];
    HitsByEvidence("if", {'i', 'f'}, Lacks("window", 0, Done));
  }

  lemma IfHitsJavaScript()
    ensures Hits(IfLine, JavaScriptConfig.keywords) == 1
  {
    IfJavaScript1();
    IfJavaScript2();
    IfJavaScript3();
    IfJavaScript4();
    IfJavaScript5();
    assert JavaScriptConfig.keywords == ["function", "var", "let"] + ["const", "if", "else"] + ["for", "while", "return"] + ["class", "console.log", "document"] + ["window"];
    HitsAppend("if", ["function", "var", "let"], ["const", "if", "else"]);
    HitsAppend("if", ["function", "var", "let"] + ["const", "if", "else"], ["for", "while", "return"]);
    HitsAppend("if", ["function", "var", "let"] + ["const", "if", "else"] + ["for", "while", "return"], ["class", "console.log", "document"]);
    HitsAppend("if", ["function", "var", "let"] + ["const", "if", "else"] + ["for", "while", "return"] + ["class", "console.log", "document"], ["window"]);
  }

  lemma IfJava1()
    ensures Hits("if", ["public", "private", "protected"]) == 0
  {
    IfChars();
    assert Keywords(Lacks("public", 0, Lacks("private", 0, Lacks("protected", 0, Done)))) == ["public", "private", "protected"];
    HitsByEvidence("if", {'i', 'f'}, Lacks("public", 0, Lacks("private", 0, Lacks("protected", 0, Done))));
  }

  lemma IfJava2()
    ensures Hits("if", ["class", "interface", "void"]) == 0
  {
    IfChars();
    assert Keywords(Lacks("class", 0, Lacks("interface", 1, Lacks("void", 0, Done)))) == ["class", "interface", "void"];
    HitsByEvidence("if", {'i', 'f'}, Lacks("class", 0, Lacks("interface", 1, Lacks("void", 0, Done))));
  }

  lemma IfJava3()
    ensures Hits("if", ["int", "String", "if"]) == 1
  {
    IfChars();
    assert "if"[0..2] == "if";
    assert Keywords(Lacks("int", 1, Lacks("String", 0, Found("if", 0, Done)))) == ["int", "String", "if"];
    HitsByEvidence("if", {'i', 'f'}, Lacks("int", 1, Lacks("String", 0, Found("if", 0, Done))));
  }

  lemma IfJava4()
    ensures Hits("if", ["else", "for", "while"]) == 0
  {
    IfChars();
    assert Keywords(Lacks("else", 0, Lacks("for", 1, Lacks("while", 0, Done)))) == ["else", "for", "while"];
    HitsByEvidence("if", {'i', 'f'}, Lacks("else", 0, Lacks("for", 1, Lacks("while", 0, Done))));
  }

  lemma IfJava5()
    ensures Hits("if", ["return", "System.out.println"]) == 0
  {
    IfChars();
    assert Keywords(Lacks("return", 0, Lacks("System.out.println", 0, Done))) == ["return", "System.out.println"];
    HitsByEvidence("if", {'i', 'f'}, Lacks("return", 0, Lacks("System.out.println", 0, Done)));
  }

  lemma IfHitsJava()
    ensures Hits(IfLine, JavaConfig.keywords) == 1
  {
    IfJava1();
    IfJava2();
    IfJava3();
    IfJava4();
    IfJava5();
    assert JavaConfig.keywords == ["public", "private", "protected"] + ["class", "interface", "void"] + ["int", "String", "if"] + ["else", "for", "while"] + ["return", "System.out.println"];
    HitsAppend("if", ["public", "private", "protected"], ["class", "interface", "void"]);
    HitsAppend("if", ["public", "private", "protected"] + ["class", "interface", "void"], ["int", "String", "if"]);
    HitsAppend("if", ["public", "private", "protected"] + ["class", "interface", "void"] + ["int", "String", "if"], ["else", "for", "while"]);
    HitsAppend("if", ["public", "private", "protected"] + ["class", "interface", "void"] + ["int", "String", "if"] + ["else", "for", "while"], ["return", "System.out.println"]);
  }

  lemma IfCpp1()
    ensures Hits("if", ["#include", "using", "namespace"]) == 0
  {
    IfChars();
    assert Keywords(Lacks("#include", 0, Lacks("using", 0, Lacks("namespace", 0, Done)))) == ["#include", "using", "namespace"];
    HitsByEvidence("if", {'i', 'f'}, Lacks("#include", 0, Lacks("using", 0, Lacks("namespace", 0, Done))));
  }

  lemma IfCpp2()
    ensures Hits("if", ["int", "main", "cout"]) == 0
  {
    IfChars();
    assert Keywords(Lacks("int", 1, Lacks("main", 0, Lacks("cout", 0, Done)))) == ["int", "main", "cout"];
    HitsByEvidence("if", {'i', 'f'}, Lacks("int", 1, Lacks("main", 0, Lacks("cout", 0, Done))));
  }

  lemma IfCpp3()
    ensures Hits("if", ["cin", "if", "else"]) == 1
  {
    IfChars();
    assert "if"[0..2] == "if";
    assert Keywords(Lacks("cin", 0, Found("if", 0, Lacks("else", 0, Done)))) == ["cin", "if", "else"];
    HitsByEvidence("if", {'i', 'f'}, Lacks("cin", 0, Found("if", 0, Lacks("else", 0, Done))));
  }

  lemma IfCpp4()
    ensures Hits("if", ["for", "while", "return"]) == 0
  {
    IfChars();
    assert Keywords(Lacks("for", 1, Lacks("while", 0, Lacks("return", 0, Done)))) == ["for", "while", "return"];
    HitsByEvidence("if", {'i', 'f'}, Lacks("for", 1, Lacks("while", 0, Lacks("return", 0, Done))));
  }

  lemma IfCpp5()
    ensures Hits("if", ["class", "public", "private"]) == 0
  {
    IfChars();
    assert Keywords(Lacks("class", 0, Lacks("public", 0, Lacks("private", 0, Done)))) == ["class", "public", "private"];
    HitsByEvidence("if", {'i', 'f'}, Lacks("class", 0, Lacks("public", 0, Lacks("private", 0, Done))));
  }

  lemma IfHitsCpp()
    ensures Hits(IfLine, CppConfig.keywords) == 1
  {
    IfCpp1();
    IfCpp2();
    IfCpp3();
    IfCpp4();
    IfCpp5();
    assert CppConfig.keywords == ["#include", "using", "namespace"] + ["int", "main", "cout"] + ["cin", "if", "else"] + ["for", "while", "return"] + ["class", "public", "private"];
    HitsAppend("if", ["#include", "using", "namespace"], ["int", "main", "cout"]);
    HitsAppend("if", ["#include", "using", "namespace"] + ["int", "main", "cout"], ["cin", "if", "else"]);
    HitsAppend("if", ["#include", "using", "namespace"] + ["int", "main", "cout"] + ["cin", "if", "else"], ["for", "while", "return"]);
    HitsAppend("if", ["#include", "using", "namespace"] + ["int", "main", "cout"] + ["cin", "if", "else"] + ["for", "while", "return"], ["class", "public", "private"]);
  }

  lemma DefChars()
    ensures forall c :: c in "def" ==> c in {'d', 'e', 'f'}
  {
  }

  lemma DefPython1()
    ensures Hits("def", ["def", "class", "import"]) == 1
  {
    DefChars();
    assert "def"[0..3] == "def";
    assert Keywords(Found("def", 0, Lacks("class", 0, Lacks("import", 0, Done)))) == ["def", "class", "import"];
    HitsByEvidence("def", {'d', 'e', 'f'}, Found("def", 0, Lacks("class", 0, Lacks("import", 0, Done))));
  }

  lemma DefPython2()
    ensures Hits("def", ["from", "if", "elif"]) == 0
  {
    DefChars();
    assert Keywords(Lacks("from", 1, Lacks("if", 0, Lacks("elif", 1, Done)))) == ["from", "if", "elif"];
    HitsByEvidence("def", {'d', 'e', 'f'}, Lacks("from", 1, Lacks("if", 0, Lacks("elif", 1, Done))));
  }

  lemma DefPython3()
    ensures Hits("def", ["else", "for", "while"]) == 0
  {
    DefChars();
    assert Keywords(Lacks("else", 1, Lacks("for", 1, Lacks("while", 0, Done)))) == ["else", "for", "while"];
    HitsByEvidence("def", {'d', 'e', 'f'}, Lacks("else", 1, Lacks("for", 1, Lacks("while", 0, Done))));
  }

  lemma DefPython4()
    ensures Hits("def", ["try", "except", "return"]) == 0
  {
    DefChars();
    assert Keywords(Lacks("try", 0, Lacks("except", 1, Lacks("return", 0, Done)))) == ["try", "except", "return"];
    HitsByEvidence("def", {'d', 'e', 'f'}, Lacks("try", 0, Lacks("except", 1, Lacks("return", 0, Done))));
  }

  lemma DefPython5()
    ensures Hits("def", ["print", "len", "range"]) == 0
  {
    DefChars();
    assert Keywords(Lacks("print", 0, Lacks("len", 0, Lacks("range", 0, Done)))) == ["print", "len", "range"];
    HitsByEvidence("def", {'d', 'e', 'f'}, Lacks("print", 0, Lacks("len", 0, Lacks("range", 0, Done))));
  }

  lemma DefHitsPython()
    ensures Hits(DefLine, PythonConfig.keywords) == 1
  {
    DefPython1();
    DefPython2();
    DefPython3();
    DefPython4();
    DefPython5();
    assert PythonConfig.keywords == ["def", "class", "import"] + ["from", "if", "elif"] + ["else", "for", "while"] + ["try", "except", "return"] + ["print", "len", "range"];
    HitsAppend("def", ["def", "class", "import"], ["from", "if", "elif"]);
    HitsAppend("def", ["def", "class", "import"] + ["from", "if", "elif"], ["else", "for", "while"]);
    HitsAppend("def", ["def", "class", "import"] + ["from", "if", "elif"] + ["else", "for", "while"], ["try", "except", "return"]);
    HitsAppend("def", ["def", "class", "import"] + ["from", "if", "elif"] + ["else", "for", "while"] + ["try", "except", "return"], ["print", "len", "range"]);
  }

  lemma DefJavaScript1()
    ensures Hits("def", ["function", "var", "let"]) == 0
  {
    DefChars();
    assert Keywords(Lacks("function", 1, Lacks("var", 0, Lacks("let", 0, Done)))) == ["function", "var", "let"];
    HitsByEvidence("def", {'d', 'e', 'f'}, Lacks("function", 1, Lacks("var", 0, Lacks("let", 0, Done))));
  }

  lemma DefJavaScript2()
    ensures Hits("def", ["const", "if", "else"]) == 0
  {
    DefChars();
    assert Keywords(Lacks("const", 0, Lacks("if", 0, Lacks("else", 1, Done)))) == ["const", "if", "else"];
    HitsByEvidence("def", {'d', 'e', 'f'}, Lacks("const", 0, Lacks("if", 0, Lacks("else", 1, Done))));
  }

  lemma DefJavaScript3()
    ensures Hits("def", ["for", "while", "return"]) == 0
  {
    DefChars();
    assert Keywords(Lacks("for", 1, Lacks("while", 0, Lacks("return", 0, Done)))) == ["for", "while", "return"];
    HitsByEvidence("def", {'d', 'e', 'f'}, Lacks("for", 1, Lacks("while", 0, Lacks("return", 0, Done))));
  }

  lemma DefJavaScript4()
    ensures Hits("def", ["class", "console.log", "document"]) == 0
  {
    DefChars();
    assert Keywords(Lacks("class", 0, Lacks("console.log", 0, Lacks("document", 1, Done)))) == ["class", "console.log", "document"];
    HitsByEvidence("def", {'d', 'e', 'f'}, Lacks("class", 0, Lacks("console.log", 0, Lacks("document", 1, Done))));
  }

  lemma DefJavaScript5()
    ensures Hits("def", ["window"]) == 0
  {
    DefChars();
    assert Keywords(Lacks("window", 0, Done)) == ["window"];
    HitsByEvidence("def", {'d', 'e', 'f'}, Lacks("window", 0, Done));
  }

  lemma DefHitsJavaScript()
    ensures Hits(DefLine, JavaScriptConfig.keywords) == 0
  {
    DefJavaScript1();
    DefJavaScript2();
    DefJavaScript3();
    DefJavaScript4();
    DefJavaScript5();
    assert JavaScriptConfig.keywords == ["function", "var", "let"] + ["const", "if", "else"] + ["for", "while", "return"] + ["class", "console.log", "document"] + ["window"];
    HitsAppend("def", ["function", "var", "let"], ["const", "if", "else"]);
    HitsAppend("def", ["function", "var", "let"] + ["const", "if", "else"], ["for", "while", "return"]);
    HitsAppend("def", ["function", "var", "let"] + ["const", "if", "else"] + ["for", "while", "return"], ["class", "console.log", "document"]);
    HitsAppend("def", ["function", "var", "let"] + ["const", "if", "else"] + ["for", "while", "return"] + ["class", "console.log", "document"], ["window"]);
  }

  lemma DefJava1()
    ensures Hits("def", ["public", "private", "protected"]) == 0
  {
    DefChars();
    assert Keywords(Lacks("public", 0, Lacks("private", 0, Lacks("protected", 0, Done)))) == ["public", "private", "protected"];
    HitsByEvidence("def", {'d', 'e', 'f'}, Lacks("public", 0, Lacks("private", 0, Lacks("protected", 0, Done))));
  }

  lemma DefJava2()
    ensures Hits("def", ["class", "interface", "void"]) == 0
  {
    DefChars();
    assert Keywords(Lacks("class", 0, Lacks("interface", 0, Lacks("void", 0, Done)))) == ["class", "interface", "void"];
    HitsByEvidence("def", {'d', 'e', 'f'}, Lacks("class", 0, Lacks("interface", 0, Lacks("void", 0, Done))));
  }

  lemma DefJava3()
    ensures Hits("def", ["int", "String", "if"]) == 0
  {
    DefChars();
    assert Keywords(Lacks("int", 0, Lacks("String", 0, Lacks("if", 0, Done)))) == ["int", "String", "if"];
    HitsByEvidence("def", {'d', 'e', 'f'}, Lacks("int", 0, Lacks("String", 0, Lacks("if", 0, Done))));
  }

  lemma DefJava4()
    ensures Hits("def", ["else", "for", "while"]) == 0
  {
    DefChars();
    assert Keywords(Lacks("else", 1, Lacks("for", 1, Lacks("while", 0, Done)))) == ["else", "for", "while"];
    HitsByEvidence("def", {'d', 'e', 'f'}, Lacks("else", 1, Lacks("for", 1, Lacks("while", 0, Done))));
  }

  lemma DefJava5()
    ensures Hits("def", ["return", "System.out.println"]) == 0
  {
    DefChars();
    assert Keywords(Lacks("return", 0, Lacks("System.out.println", 0, Done))) == ["return", "System.out.println"];
    HitsByEvidence("def", {'d', 'e', 'f'}, Lacks("return", 0, Lacks("System.out.println", 0, Done)));
  }

  lemma DefHitsJava()
    ensures Hits(DefLine, JavaConfig.keywords) == 0
  {
    DefJava1();
    DefJava2();
    DefJava3();
    DefJava4();
    DefJava5();
    assert JavaConfig.keywords == ["public", "private", "protected"] + ["class", "interface", "void"] + ["int", "String", "if"] + ["else", "for", "while"] + ["return", "System.out.println"];
    HitsAppend("def", ["public", "private", "protected"], ["class", "interface", "void"]);
    HitsAppend("def", ["public", "private", "protected"] + ["class", "interface", "void"], ["int", "String", "if"]);
    HitsAppend("def", ["public", "private", "protected"] + ["class", "interface", "void"] + ["int", "String", "if"], ["else", "for", "while"]);
    HitsAppend("def", ["public", "private", "protected"] + ["class", "interface", "void"] + ["int", "String", "if"] + ["else", "for", "while"], ["return", "System.out.println"]);
  }

  lemma DefCpp1()
    ensures Hits("def", ["#include", "using", "namespace"]) == 0
  {
    DefChars();
    assert Keywords(Lacks("#include", 0, Lacks("using", 0, Lacks("namespace", 0, Done)))) == ["#include", "using", "namespace"];
    HitsByEvidence("def", {'d', 'e', 'f'}, Lacks("#include", 0, Lacks("using", 0, Lacks("namespace", 0, Done))));
  }

  lemma DefCpp2()
    ensures Hits("def", ["int", "main", "cout"]) == 0
  {
    DefChars();
    assert Keywords(Lacks("int", 0, Lacks("main", 0, Lacks("cout", 0, Done)))) == ["int", "main", "cout"];
    HitsByEvidence("def", {'d', 'e', 'f'}, Lacks("int", 0, Lacks("main", 0, Lacks("cout", 0, Done))));
  }

  lemma DefCpp3()
    ensures Hits("def", ["cin", "if", "else"]) == 0
  {
    DefChars();
    assert Keywords(Lacks("cin", 0, Lacks("if", 0, Lacks("else", 1, Done)))) == ["cin", "if", "else"];
    HitsByEvidence("def", {'d', 'e', 'f'}, Lacks("cin", 0, Lacks("if", 0, Lacks("else", 1, Done))));
  }

  lemma DefCpp4()
    ensures Hits("def", ["for", "while", "return"]) == 0
  {
    DefChars();
    assert Keywords(Lacks("for", 1, Lacks("while", 0, Lacks("return", 0, Done)))) == ["for", "while", "return"];
    HitsByEvidence("def", {'d', 'e', 'f'}, Lacks("for", 1, Lacks("while", 0, Lacks("return", 0, Done))));
  }

  lemma DefCpp5()
    ensures Hits("def", ["class", "public", "private"]) == 0
  {
    DefChars();
    assert Keywords(Lacks("class", 0, Lacks("public", 0, Lacks("private", 0, Done)))) == ["class", "public", "private"];
    HitsByEvidence("def", {'d', 'e', 'f'}, Lacks("class", 0, Lacks("public", 0, Lacks("private", 0, Done))));
  }

  lemma DefHitsCpp()
    ensures Hits(DefLine, CppConfig.keywords) == 0
  {
    DefCpp1();
    DefCpp2();
    DefCpp3();
    DefCpp4();
    DefCpp5();
    assert CppConfig.keywords == ["#include", "using", "namespace"] + ["int", "main", "cout"] + ["cin", "if", "else"] + ["for", "while", "return"] + ["class", "public", "private"];
    HitsAppend("def", ["#include", "using", "namespace"], ["int", "main", "cout"]);
    HitsAppend("def", ["#include", "using", "namespace"] + ["int", "main", "cout"], ["cin", "if", "else"]);
    HitsAppend("def", ["#include", "using", "namespace"] + ["int", "main", "cout"] + ["cin", "if", "else"], ["for", "while", "return"]);
    HitsAppend("def", ["#include", "using", "namespace"] + ["int", "main", "cout"] + ["cin", "if", "else"] + ["for", "while", "return"], ["class", "public", "private"]);
  }

  lemma SampleDefChars()
    ensures forall c :: c in "def greet(name):" ==> c in {'d', 'e', 'f', ' ', 'g', 'r', 't', '(', 'n', 'a', 'm', ')', ':'}
  {
  }

  lemma SampleDefPython1()
    ensures Hits("def greet(name):", ["def", "class", "import"]) == 1
  {
    SampleDefChars();
    assert "def greet(name):"[0..3] == "def";
    assert Keywords(Found("def", 0, Lacks("class", 0, Lacks("import", 0, Done)))) == ["def", "class", "import"];
    HitsByEvidence("def greet(name):", {'d', 'e', 'f', ' ', 'g', 'r', 't', '(', 'n', 'a', 'm', ')', ':'}, Found("def", 0, Lacks("class", 0, Lacks("import", 0, Done))));
  }

  lemma SampleDefPython2()
    ensures Hits("def greet(name):", ["from", "if", "elif"]) == 0
  {
    SampleDefChars();
    assert Keywords(Lacks("from", 2, Lacks("if", 0, Lacks("elif", 1, Done)))) == ["from", "if", "elif"];
    HitsByEvidence("def greet(name):", {'d', 'e', 'f', ' ', 'g', 'r', 't', '(', 'n', 'a', 'm', ')', ':'}, Lacks("from", 2, Lacks("if", 0, Lacks("elif", 1, Done))));
  }

  lemma SampleDefPython3()
    ensures Hits("def greet(name):", ["else", "for", "while"]) == 0
  {
    SampleDefChars();
    assert Keywords(Lacks("else", 1, Lacks("for", 1, Lacks("while", 0, Done)))) == ["else", "for", "while"];
    HitsByEvidence("def greet(name):", {'d', 'e', 'f', ' ', 'g', 'r', 't', '(', 'n', 'a', 'm', ')', ':'}, Lacks("else", 1, Lacks("for", 1, Lacks("while", 0, Done))));
  }

  lemma SampleDefPython4()
    ensures Hits("def greet(name):", ["try", "except", "return"]) == 0
  {
    SampleDefChars();
    assert Keywords(Lacks("try", 2, Lacks("except", 1, Lacks("return", 3, Done)))) == ["try", "except", "return"];
    HitsByEvidence("def greet(name):", {'d', 'e', 'f', ' ', 'g', 'r', 't', '(', 'n', 'a', 'm', ')', ':'}, Lacks("try", 2, Lacks("except", 1, Lacks("return", 3, Done))));
  }

  lemma SampleDefPython5()
    ensures Hits("def greet(name):", ["print", "len"]) == 0
  {
    SampleDefChars();
    assert Keywords(Lacks("print", 0, Lacks("len", 0, Done))) == ["print", "len"];
    HitsByEvidence("def greet(name):", {'d', 'e', 'f', ' ', 'g', 'r', 't', '(', 'n', 'a', 'm', ')', ':'}, Lacks("print", 0, Lacks("len", 0, Done)));
  }

  lemma SampleDefPython6()
    ensures Hits("def greet(name):", ["range"]) == 0
  {
    var line := "def greet(name):";
    assert line[..5] == "def g" && line[6..] == "eet(name):";
    assert line[5..10] == "reet(";
    OnlyAtExcludes(line, "range", 0, 5);
    HitsSingle(line, "range");
  }

  lemma SampleDefHitsPython()
    ensures Hits(SampleDefLine, PythonConfig.keywords) == 1
  {
    SampleDefPython1();
    SampleDefPython2();
    SampleDefPython3();
    SampleDefPython4();
    SampleDefPython5();
    SampleDefPython6();
    assert PythonConfig.keywords == ["def", "class", "import"] + ["from", "if", "elif"] + ["else", "for", "while"] + ["try", "except", "return"] + ["print", "len"] + ["range"];
    HitsAppend("def greet(name):", ["def", "class", "import"], ["from", "if", "elif"]);
    HitsAppend("def greet(name):", ["def", "class", "import"] + ["from", "if", "elif"], ["else", "for", "while"]);
    HitsAppend("def greet(name):", ["def", "class", "import"] + ["from", "if", "elif"] + ["else", "for", "while"], ["try", "except", "return"]);
    HitsAppend("def greet(name):", ["def", "class", "import"] + ["from", "if", "elif"] + ["else", "for", "while"] + ["try", "except", "return"], ["print", "len"]);
    HitsAppend("def greet(name):", ["def", "class", "import"] + ["from", "if", "elif"] + ["else", "for", "while"] + ["try", "except", "return"] + ["print", "len"], ["range"]);
  }

  lemma SampleDefJavaScript1()
    ensures Hits("def greet(name):", ["function", "var", "let"]) == 0
  {
    SampleDefChars();
    assert Keywords(Lacks("function", 1, Lacks("var", 0, Lacks("let", 0, Done)))) == ["function", "var", "let"];
    HitsByEvidence("def greet(name):", {'d', 'e', 'f', ' ', 'g', 'r', 't', '(', 'n', 'a', 'm', ')', ':'}, Lacks("function", 1, Lacks("var", 0, Lacks("let", 0, Done))));
  }

  lemma SampleDefJavaScript2()
    ensures Hits("def greet(name):", ["const", "if", "else"]) == 0
  {
    SampleDefChars();
    assert Keywords(Lacks("const", 0, Lacks("if", 0, Lacks("else", 1, Done)))) == ["const", "if", "else"];
    HitsByEvidence("def greet(name):", {'d', 'e', 'f', ' ', 'g', 'r', 't', '(', 'n', 'a', 'm', ')', ':'}, Lacks("const", 0, Lacks("if", 0, Lacks("else", 1, Done))));
  }

  lemma SampleDefJavaScript3()
    ensures Hits("def greet(name):", ["for", "while", "return"]) == 0
  {
    SampleDefChars();
    assert Keywords(Lacks("for", 1, Lacks("while", 0, Lacks("return", 3, Done)))) == ["for", "while", "return"];
    HitsByEvidence("def greet(name):", {'d', 'e', 'f', ' ', 'g', 'r', 't', '(', 'n', 'a', 'm', ')', ':'}, Lacks("for", 1, Lacks("while", 0, Lacks("return", 3, Done))));
  }

  lemma SampleDefJavaScript4()
    ensures Hits("def greet(name):", ["class", "console.log", "document"]) == 0
  {
    SampleDefChars();
    assert Keywords(Lacks("class", 0, Lacks("console.log", 0, Lacks("document", 1, Done)))) == ["class", "console.log", "document"];
    HitsByEvidence("def greet(name):", {'d', 'e', 'f', ' ', 'g', 'r', 't', '(', 'n', 'a', 'm', ')', ':'}, Lacks("class", 0, Lacks("console.log", 0, Lacks("document", 1, Done))));
  }

  lemma SampleDefJavaScript5()
    ensures Hits("def greet(name):", ["window"]) == 0
  {
    SampleDefChars();
    assert Keywords(Lacks("window", 0, Done)) == ["window"];
    HitsByEvidence("def greet(name):", {'d', 'e', 'f', ' ', 'g', 'r', 't', '(', 'n', 'a', 'm', ')', ':'}, Lacks("window", 0, Done));
  }

  lemma SampleDefHitsJavaScript()
    ensures Hits(SampleDefLine, JavaScriptConfig.keywords) == 0
  {
    SampleDefJavaScript1();
    SampleDefJavaScript2();
    SampleDefJavaScript3();
    SampleDefJavaScript4();
    SampleDefJavaScript5();
    assert JavaScriptConfig.keywords == ["function", "var", "let"] + ["const", "if", "else"] + ["for", "while", "return"] + ["class", "console.log", "document"] + ["window"];
    HitsAppend("def greet(name):", ["function", "var", "let"], ["const", "if", "else"]);
    HitsAppend("def greet(name):", ["function", "var", "let"] + ["const", "if", "else"], ["for", "while", "return"]);
    HitsAppend("def greet(name):", ["function", "var", "let"] + ["const", "if", "else"] + ["for", "while", "return"], ["class", "console.log", "document"]);
    HitsAppend("def greet(name):", ["function", "var", "let"] + ["const", "if", "else"] + ["for", "while", "return"] + ["class", "console.log", "document"], ["window"]);
  }

  lemma SampleDefJava1()
    ensures Hits("def greet(name):", ["public", "private", "protected"]) == 0
  {
    SampleDefChars();
    assert Keywords(Lacks("public", 0, Lacks("private", 0, Lacks("protected", 0, Done)))) == ["public", "private", "protected"];
    HitsByEvidence("def greet(name):", {'d', 'e', 'f', ' ', 'g', 'r', 't', '(', 'n', 'a', 'm', ')', ':'}, Lacks("public", 0, Lacks("private", 0, Lacks("protected", 0, Done))));
  }

  lemma SampleDefJava2()
    ensures Hits("def greet(name):", ["class", "interface", "void"]) == 0
  {
    SampleDefChars();
    assert Keywords(Lacks("class", 0, Lacks("interface", 0, Lacks("void", 0, Done)))) == ["class", "interface", "void"];
    HitsByEvidence("def greet(name):", {'d', 'e', 'f', ' ', 'g', 'r', 't', '(', 'n', 'a', 'm', ')', ':'}, Lacks("class", 0, Lacks("interface", 0, Lacks("void", 0, Done))));
  }

  lemma SampleDefJava3()
    ensures Hits("def greet(name):", ["int", "String", "if"]) == 0
  {
    SampleDefChars();
    assert Keywords(Lacks("int", 0, Lacks("String", 0, Lacks("if", 0, Done)))) == ["int", "String", "if"];
    HitsByEvidence("def greet(name):", {'d', 'e', 'f', ' ', 'g', 'r', 't', '(', 'n', 'a', 'm', ')', ':'}, Lacks("int", 0, Lacks("String", 0, Lacks("if", 0, Done))));
  }

  lemma SampleDefJava4()
    ensures Hits("def greet(name):", ["else", "for", "while"]) == 0
  {
    SampleDefChars();
    assert Keywords(Lacks("else", 1, Lacks("for", 1, Lacks("while", 0, Done)))) == ["else", "for", "while"];
    HitsByEvidence("def greet(name):", {'d', 'e', 'f', ' ', 'g', 'r', 't', '(', 'n', 'a', 'm', ')', ':'}, Lacks("else", 1, Lacks("for", 1, Lacks("while", 0, Done))));
  }

  lemma SampleDefJava5()
    ensures Hits("def greet(name):", ["return", "System.out.println"]) == 0
  {
    SampleDefChars();
    assert Keywords(Lacks("return", 3, Lacks("System.out.println", 0, Done))) == ["return", "System.out.println"];
    HitsByEvidence("def greet(name):", {'d', 'e', 'f', ' ', 'g', 'r', 't', '(', 'n', 'a', 'm', ')', ':'}, Lacks("return", 3, Lacks("System.out.println", 0, Done)));
  }

  lemma SampleDefHitsJava()
    ensures Hits(SampleDefLine, JavaConfig.keywords) == 0
  {
    SampleDefJava1();
    SampleDefJava2();
    SampleDefJava3();
    SampleDefJava4();
    SampleDefJava5();
    assert JavaConfig.keywords == ["public", "private", "protected"] + ["class", "interface", "void"] + ["int", "String", "if"] + ["else", "for", "while"] + ["return", "System.out.println"];
    HitsAppend("def greet(name):", ["public", "private", "protected"], ["class", "interface", "void"]);
    HitsAppend("def greet(name):", ["public", "private", "protected"] + ["class", "interface", "void"], ["int", "String", "if"]);
    HitsAppend("def greet(name):", ["public", "private", "protected"] + ["class", "interface", "void"] + ["int", "String", "if"], ["else", "for", "while"]);
    HitsAppend("def greet(name):", ["public", "private", "protected"] + ["class", "interface", "void"] + ["int", "String", "if"] + ["else", "for", "while"], ["return", "System.out.println"]);
  }

  lemma SampleDefCpp1()
    ensures Hits("def greet(name):", ["#include", "using", "namespace"]) == 0
  {
    SampleDefChars();
    assert Keywords(Lacks("#include", 0, Lacks("using", 0, Lacks("namespace", 4, Done)))) == ["#include", "using", "namespace"];
    HitsByEvidence("def greet(name):", {'d', 'e', 'f', ' ', 'g', 'r', 't', '(', 'n', 'a', 'm', ')', ':'}, Lacks("#include", 0, Lacks("using", 0, Lacks("namespace", 4, Done))));
  }

  lemma SampleDefCpp2()
    ensures Hits("def greet(name):", ["int", "main", "cout"]) == 0
  {
    SampleDefChars();
    assert Keywords(Lacks("int", 0, Lacks("main", 2, Lacks("cout", 0, Done)))) == ["int", "main", "cout"];
    HitsByEvidence("def greet(name):", {'d', 'e', 'f', ' ', 'g', 'r', 't', '(', 'n', 'a', 'm', ')', ':'}, Lacks("int", 0, Lacks("main", 2, Lacks("cout", 0, Done))));
  }

  lemma SampleDefCpp3()
    ensures Hits("def greet(name):", ["cin", "if", "else"]) == 0
  {
    SampleDefChars();
    assert Keywords(Lacks("cin", 0, Lacks("if", 0, Lacks("else", 1, Done)))) == ["cin", "if", "else"];
    HitsByEvidence("def greet(name):", {'d', 'e', 'f', ' ', 'g', 'r', 't', '(', 'n', 'a', 'm', ')', ':'}, Lacks("cin", 0, Lacks("if", 0, Lacks("else", 1, Done))));
  }

  lemma SampleDefCpp4()
    ensures Hits("def greet(name):", ["for", "while", "return"]) == 0
  {
    SampleDefChars();
    assert Keywords(Lacks("for", 1, Lacks("while", 0, Lacks("return", 3, Done)))) == ["for", "while", "return"];
    HitsByEvidence("def greet(name):", {'d', 'e', 'f', ' ', 'g', 'r', 't', '(', 'n', 'a', 'm', ')', ':'}, Lacks("for", 1, Lacks("while", 0, Lacks("return", 3, Done))));
  }

  lemma SampleDefCpp5()
    ensures Hits("def greet(name):", ["class", "public", "private"]) == 0
  {
    SampleDefChars();
    assert Keywords(Lacks("class", 0, Lacks("public", 0, Lacks("private", 0, Done)))) == ["class", "public", "private"];
    HitsByEvidence("def greet(name):", {'d', 'e', 'f', ' ', 'g', 'r', 't', '(', 'n', 'a', 'm', ')', ':'}, Lacks("class", 0, Lacks("public", 0, Lacks("private", 0, Done))));
  }

  lemma SampleDefHitsCpp()
    ensures Hits(SampleDefLine, CppConfig.keywords) == 0
  {
    SampleDefCpp1();
    SampleDefCpp2();
    SampleDefCpp3();
    SampleDefCpp4();
    SampleDefCpp5();
    assert CppConfig.keywords == ["#include", "using", "namespace"] + ["int", "main", "cout"] + ["cin", "if", "else"] + ["for", "while", "return"] + ["class", "public", "private"];
    HitsAppend("def greet(name):", ["#include", "using", "namespace"], ["int", "main", "cout"]);
    HitsAppend("def greet(name):", ["#include", "using", "namespace"] + ["int", "main", "cout"], ["cin", "if", "else"]);
    HitsAppend("def greet(name):", ["#include", "using", "namespace"] + ["int", "main", "cout"] + ["cin", "if", "else"], ["for", "while", "return"]);
    HitsAppend("def greet(name):", ["#include", "using", "namespace"] + ["int", "main", "cout"] + ["cin", "if", "else"] + ["for", "while", "return"], ["class", "public", "private"]);
  }

  lemma SamplePrintChars()
    ensures forall c :: c in "    print(\"hi\")" ==> c in {' ', 'p', 'r', 'i', 'n', 't', '(', '"', 'h', ')'}
  {
  }

  lemma SamplePrintPython1()
    ensures Hits("    print(\"hi\")", ["def", "class", "import"]) == 0
  {
    SamplePrintChars();
    assert Keywords(Lacks("def", 0, Lacks("class", 0, Lacks("import", 1, Done)))) == ["def", "class", "import"];
    HitsByEvidence("    print(\"hi\")", {' ', 'p', 'r', 'i', 'n', 't', '(', '"', 'h', ')'}, Lacks("def", 0, Lacks("class", 0, Lacks("import", 1, Done))));
  }

  lemma SamplePrintPython2()
    ensures Hits("    print(\"hi\")", ["from", "if", "elif"]) == 0
  {
    SamplePrintChars();
    assert Keywords(Lacks("from", 0, Lacks("if", 1, Lacks("elif", 0, Done)))) == ["from", "if", "elif"];
    HitsByEvidence("    print(\"hi\")", {' ', 'p', 'r', 'i', 'n', 't', '(', '"', 'h', ')'}, Lacks("from", 0, Lacks("if", 1, Lacks("elif", 0, Done))));
  }

  lemma SamplePrintPython3()
    ensures Hits("    print(\"hi\")", ["else", "for", "while"]) == 0
  {
    SamplePrintChars();
    assert Keywords(Lacks("else", 0, Lacks("for", 0, Lacks("while", 0, Done)))) == ["else", "for", "while"];
    HitsByEvidence("    print(\"hi\")", {' ', 'p', 'r', 'i', 'n', 't', '(', '"', 'h', ')'}, Lacks("else", 0, Lacks("for", 0, Lacks("while", 0, Done))));
  }

  lemma SamplePrintPython4()
    ensures Hits("    print(\"hi\")", ["try", "except", "return"]) == 0
  {
    SamplePrintChars();
    assert Keywords(Lacks("try", 2, Lacks("except", 0, Lacks("return", 1, Done)))) == ["try", "except", "return"];
    HitsByEvidence("    print(\"hi\")", {' ', 'p', 'r', 'i', 'n', 't', '(', '"', 'h', ')'}, Lacks("try", 2, Lacks("except", 0, Lacks("return", 1, Done))));
  }

  lemma SamplePrintPython5()
    ensures Hits("    print(\"hi\")", ["print", "len", "range"]) == 1
  {
    SamplePrintChars();
    assert "    print(\"hi\")"[4..9] == "print";
    assert Keywords(Found("print", 4, Lacks("len", 0, Lacks("range", 1, Done)))) == ["print", "len", "range"];
    HitsByEvidence("    print(\"hi\")", {' ', 'p', 'r', 'i', 'n', 't', '(', '"', 'h', ')'}, Found("print", 4, Lacks("len", 0, Lacks("range", 1, Done))));
  }

  lemma SamplePrintHitsPython()
    ensures Hits(SamplePrintLine, PythonConfig.keywords) == 1
  {
    SamplePrintPython1();
    SamplePrintPython2();
    SamplePrintPython3();
    SamplePrintPython4();
    SamplePrintPython5();
    assert PythonConfig.keywords == ["def", "class", "import"] + ["from", "if", "elif"] + ["else", "for", "while"] + ["try", "except", "return"] + ["print", "len", "range"];
    HitsAppend("    print(\"hi\")", ["def", "class", "import"], ["from", "if", "elif"]);
    HitsAppend("    print(\"hi\")", ["def", "class", "import"] + ["from", "if", "elif"], ["else", "for", "while"]);
    HitsAppend("    print(\"hi\")", ["def", "class", "import"] + ["from", "if", "elif"] + ["else", "for", "while"], ["try", "except", "return"]);
    HitsAppend("    print(\"hi\")", ["def", "class", "import"] + ["from", "if", "elif"] + ["else", "for", "while"] + ["try", "except", "return"], ["print", "len", "range"]);
  }

  lemma SamplePrintJavaScript1()
    ensures Hits("    print(\"hi\")", ["function", "var", "let"]) == 0
  {
    SamplePrintChars();
    assert Keywords(Lacks("function", 0, Lacks("var", 0, Lacks("let", 0, Done)))) == ["function", "var", "let"];
    HitsByEvidence("    print(\"hi\")", {' ', 'p', 'r', 'i', 'n', 't', '(', '"', 'h', ')'}, Lacks("function", 0, Lacks("var", 0, Lacks("let", 0, Done))));
  }

  lemma SamplePrintJavaScript2()
    ensures Hits("    print(\"hi\")", ["const", "if", "else"]) == 0
  {
    SamplePrintChars();
    assert Keywords(Lacks("const", 0, Lacks("if", 1, Lacks("else", 0, Done)))) == ["const", "if", "else"];
    HitsByEvidence("    print(\"hi\")", {' ', 'p', 'r', 'i', 'n', 't', '(', '"', 'h', ')'}, Lacks("const", 0, Lacks("if", 1, Lacks("else", 0, Done))));
  }

  lemma SamplePrintJavaScript3()
    ensures Hits("    print(\"hi\")", ["for", "while", "return"]) == 0
  {
    SamplePrintChars();
    assert Keywords(Lacks("for", 0, Lacks("while", 0, Lacks("return", 1, Done)))) == ["for", "while", "return"];
    HitsByEvidence("    print(\"hi\")", {' ', 'p', 'r', 'i', 'n', 't', '(', '"', 'h', ')'}, Lacks("for", 0, Lacks("while", 0, Lacks("return", 1, Done))));
  }

  lemma SamplePrintJavaScript4()
    ensures Hits("    print(\"hi\")", ["class", "console.log", "document"]) == 0
  {
    SamplePrintChars();
    assert Keywords(Lacks("class", 0, Lacks("console.log", 0, Lacks("document", 0, Done)))) == ["class", "console.log", "document"];
    HitsByEvidence("    print(\"hi\")", {' ', 'p', 'r', 'i', 'n', 't', '(', '"', 'h', ')'}, Lacks("class", 0, Lacks("console.log", 0, Lacks("document", 0, Done))));
  }

  lemma SamplePrintJavaScript5()
    ensures Hits("    print(\"hi\")", ["window"]) == 0
  {
    SamplePrintChars();
    assert Keywords(Lacks("window", 0, Done)) == ["window"];
    HitsByEvidence("    print(\"hi\")", {' ', 'p', 'r', 'i', 'n', 't', '(', '"', 'h', ')'}, Lacks("window", 0, Done));
  }

  lemma SamplePrintHitsJavaScript()
    ensures Hits(SamplePrintLine, JavaScriptConfig.keywords) == 0
  {
    SamplePrintJavaScript1();
    SamplePrintJavaScript2();
    SamplePrintJavaScript3();
    SamplePrintJavaScript4();
    SamplePrintJavaScript5();
    assert JavaScriptConfig.keywords == ["function", "var", "let"] + ["const", "if", "else"] + ["for", "while", "return"] + ["class", "console.log", "document"] + ["window"];
    HitsAppend("    print(\"hi\")", ["function", "var", "let"], ["const", "if", "else"]);
    HitsAppend("    print(\"hi\")", ["function", "var", "let"] + ["const", "if", "else"], ["for", "while", "return"]);
    HitsAppend("    print(\"hi\")", ["function", "var", "let"] + ["const", "if", "else"] + ["for", "while", "return"], ["class", "console.log", "document"]);
    HitsAppend("    print(\"hi\")", ["function", "var", "let"] + ["const", "if", "else"] + ["for", "while", "return"] + ["class", "console.log", "document"], ["window"]);
  }

  lemma SamplePrintJava1()
    ensures Hits("    print(\"hi\")", ["public", "private", "protected"]) == 0
  {
    SamplePrintChars();
    assert Keywords(Lacks("public", 1, Lacks("private", 3, Lacks("protected", 2, Done)))) == ["public", "private", "protected"];
    HitsByEvidence("    print(\"hi\")", {' ', 'p', 'r', 'i', 'n', 't', '(', '"', 'h', ')'}, Lacks("public", 1, Lacks("private", 3, Lacks("protected", 2, Done))));
  }

  lemma SamplePrintJava2()
    ensures Hits("    print(\"hi\")", ["class", "interface", "void"]) == 0
  {
    SamplePrintChars();
    assert Keywords(Lacks("class", 0, Lacks("interface", 3, Lacks("void", 0, Done)))) == ["class", "interface", "void"];
    HitsByEvidence("    print(\"hi\")", {' ', 'p', 'r', 'i', 'n', 't', '(', '"', 'h', ')'}, Lacks("class", 0, Lacks("interface", 3, Lacks("void", 0, Done))));
  }

  lemma SamplePrintJava3()
    ensures Hits("    print(\"hi\")", ["int", "String", "if"]) == 1
  {
    SamplePrintChars();
    assert "    print(\"hi\")"[6..9] == "int";
    assert Keywords(Found("int", 6, Lacks("String", 0, Lacks("if", 1, Done)))) == ["int", "String", "if"];
    HitsByEvidence("    print(\"hi\")", {' ', 'p', 'r', 'i', 'n', 't', '(', '"', 'h', ')'}, Found("int", 6, Lacks("String", 0, Lacks("if", 1, Done))));
  }

  lemma SamplePrintJava4()
    ensures Hits("    print(\"hi\")", ["else", "for", "while"]) == 0
  {
    SamplePrintChars();
    assert Keywords(Lacks("else", 0, Lacks("for", 0, Lacks("while", 0, Done)))) == ["else", "for", "while"];
    HitsByEvidence("    print(\"hi\")", {' ', 'p', 'r', 'i', 'n', 't', '(', '"', 'h', ')'}, Lacks("else", 0, Lacks("for", 0, Lacks("while", 0, Done))));
  }

  lemma SamplePrintJava5()
    ensures Hits("    print(\"hi\")", ["return", "System.out.println"]) == 0
  {
    SamplePrintChars();
    assert Keywords(Lacks("return", 1, Lacks("System.out.println", 0, Done))) == ["return", "System.out.println"];
    HitsByEvidence("    print(\"hi\")", {' ', 'p', 'r', 'i', 'n', 't', '(', '"', 'h', ')'}, Lacks("return", 1, Lacks("System.out.println", 0, Done)));
  }

  lemma SamplePrintHitsJava()
    ensures Hits(SamplePrintLine, JavaConfig.keywords) == 1
  {
    SamplePrintJava1();
    SamplePrintJava2();
    SamplePrintJava3();
    SamplePrintJava4();
    SamplePrintJava5();
    assert JavaConfig.keywords == ["public", "private", "protected"] + ["class", "interface", "void"] + ["int", "String", "if"] + ["else", "for", "while"] + ["return", "System.out.println"];
    HitsAppend("    print(\"hi\")", ["public", "private", "protected"], ["class", "interface", "void"]);
    HitsAppend("    print(\"hi\")", ["public", "private", "protected"] + ["class", "interface", "void"], ["int", "String", "if"]);
    HitsAppend("    print(\"hi\")", ["public", "private", "protected"] + ["class", "interface", "void"] + ["int", "String", "if"], ["else", "for", "while"]);
    HitsAppend("    print(\"hi\")", ["public", "private", "protected"] + ["class", "interface", "void"] + ["int", "String", "if"] + ["else", "for", "while"], ["return", "System.out.println"]);
  }

  lemma SamplePrintCpp1()
    ensures Hits("    print(\"hi\")", ["#include", "using", "namespace"]) == 0
  {
    SamplePrintChars();
    assert Keywords(Lacks("#include", 0, Lacks("using", 0, Lacks("namespace", 1, Done)))) == ["#include", "using", "namespace"];
    HitsByEvidence("    print(\"hi\")", {' ', 'p', 'r', 'i', 'n', 't', '(', '"', 'h', ')'}, Lacks("#include", 0, Lacks("using", 0, Lacks("namespace", 1, Done))));
  }

  lemma SamplePrintCpp2()
    ensures Hits("    print(\"hi\")", ["int", "main", "cout"]) == 1
  {
    SamplePrintChars();
    assert "    print(\"hi\")"[6..9] == "int";
    assert Keywords(Found("int", 6, Lacks("main", 0, Lacks("cout", 0, Done)))) == ["int", "main", "cout"];
    HitsByEvidence("    print(\"hi\")", {' ', 'p', 'r', 'i', 'n', 't', '(', '"', 'h', ')'}, Found("int", 6, Lacks("main", 0, Lacks("cout", 0, Done))));
  }

  lemma SamplePrintCpp3()
    ensures Hits("    print(\"hi\")", ["cin", "if", "else"]) == 0
  {
    SamplePrintChars();
    assert Keywords(Lacks("cin", 0, Lacks("if", 1, Lacks("else", 0, Done)))) == ["cin", "if", "else"];
    HitsByEvidence("    print(\"hi\")", {' ', 'p', 'r', 'i', 'n', 't', '(', '"', 'h', ')'}, Lacks("cin", 0, Lacks("if", 1, Lacks("else", 0, Done))));
  }

  lemma SamplePrintCpp4()
    ensures Hits("    print(\"hi\")", ["for", "while", "return"]) == 0
  {
    SamplePrintChars();
    assert Keywords(Lacks("for", 0, Lacks("while", 0, Lacks("return", 1, Done)))) == ["for", "while", "return"];
    HitsByEvidence("    print(\"hi\")", {' ', 'p', 'r', 'i', 'n', 't', '(', '"', 'h', ')'}, Lacks("for", 0, Lacks("while", 0, Lacks("return", 1, Done))));
  }

  lemma SamplePrintCpp5()
    ensures Hits("    print(\"hi\")", ["class", "public", "private"]) == 0
  {
    SamplePrintChars();
    assert Keywords(Lacks("class", 0, Lacks("public", 1, Lacks("private", 3, Done)))) == ["class", "public", "private"];
    HitsByEvidence("    print(\"hi\")", {' ', 'p', 'r', 'i', 'n', 't', '(', '"', 'h', ')'}, Lacks("class", 0, Lacks("public", 1, Lacks("private", 3, Done))));
  }

  lemma SamplePrintHitsCpp()
    ensures Hits(SamplePrintLine, CppConfig.keywords) == 1
  {
    SamplePrintCpp1();
    SamplePrintCpp2();
    SamplePrintCpp3();
    SamplePrintCpp4();
    SamplePrintCpp5();
    assert CppConfig.keywords == ["#include", "using", "namespace"] + ["int", "main", "cout"] + ["cin", "if", "else"] + ["for", "while", "return"] + ["class", "public", "private"];
    HitsAppend("    print(\"hi\")", ["#include", "using", "namespace"], ["int", "main", "cout"]);
    HitsAppend("    print(\"hi\")", ["#include", "using", "namespace"] + ["int", "main", "cout"], ["cin", "if", "else"]);
    HitsAppend("    print(\"hi\")", ["#include", "using", "namespace"] + ["int", "main", "cout"] + ["cin", "if", "else"], ["for", "while", "return"]);
    HitsAppend("    print(\"hi\")", ["#include", "using", "namespace"] + ["int", "main", "cout"] + ["cin", "if", "else"] + ["for", "while", "return"], ["class", "public", "private"]);
  }

  /** A one-line text without white space is its own only detection line. */
  lemma SingleLine(line: string)
    requires line != [] && '\n' !in line
    requires !IsSpace(line[0])
    ensures DetectionLines(line) == [line]
  {
    assert SeparatorFree([line]);
    assert Join([line], '\n') == line;
    DetectionLinesOfJoin([line]);
    TrimSpec(line);
    assert !InClass(Space, line[0]);
    assert [line][..0] == [];
  }

  /** `if` scores one point with every language. */
  lemma IfScores()
    ensures Scores(DetectionLines(IfLine)) == [1, 1, 1, 1]
  {
    SingleLine(IfLine);
    ScoresInOrder([IfLine]);
    IfHitsPython(); IfHitsJavaScript(); IfHitsJava(); IfHitsCpp();
    ScoreOfOne(IfLine, PythonConfig.keywords);
    ScoreOfOne(IfLine, JavaScriptConfig.keywords);
    ScoreOfOne(IfLine, JavaConfig.keywords);
    ScoreOfOne(IfLine, CppConfig.keywords);
  }

  /** On a tie the language visited last wins: a text that scores one
      point with every language is detected as C++. */
  lemma DetectTie(code: string)
    requires Scores(DetectionLines(code)) == [1, 1, 1, 1]
    ensures DetectLanguage(code) == "cpp"
  {
    assert LastArgMax([1, 1, 1, 1], 3);
    DetectLanguageWinner(code, 3);
  }

  lemma DetectIf()
    ensures DetectLanguage(IfLine) == "cpp"
  {
    IfScores();
    DetectTie(IfLine);
  }

  /** `def` is a keyword of Python alone. */
  lemma DefScores()
    ensures Scores(DetectionLines(DefLine)) == [1, 0, 0, 0]
  {
    SingleLine(DefLine);
    ScoresInOrder([DefLine]);
    DefHitsPython(); DefHitsJavaScript(); DefHitsJava(); DefHitsCpp();
    ScoreOfOne(DefLine, PythonConfig.keywords);
    ScoreOfOne(DefLine, JavaScriptConfig.keywords);
    ScoreOfOne(DefLine, JavaConfig.keywords);
    ScoreOfOne(DefLine, CppConfig.keywords);
  }

  /** A text that scores only with Python is detected as Python. */
  lemma DetectPythonOnly(code: string, n: nat)
    requires n > 0 && Scores(DetectionLines(code)) == [n, 0, 0, 0]
    ensures DetectLanguage(code) == "python"
  {
    assert LastArgMax([n, 0, 0, 0], 0);
    DetectLanguageWinner(code, 0);
  }

  lemma DetectDef()
    ensures DetectLanguage(DefLine) == "python"
  {
    DefScores();
    DetectPythonOnly(DefLine, 1);
  }

  lemma SamplePrintNotBlank()
    ensures !IsBlank(SamplePrintLine)
  {
    TrimSpec(SamplePrintLine);
    assert !InClass(Space, SamplePrintLine[4]);
  }

  lemma SampleDefNotBlank()
    ensures !IsBlank(SampleDefLine)
  {
    TrimSpec(SampleDefLine);
    assert !InClass(Space, SampleDefLine[0]);
  }

  /** Two non-blank lines joined by a line break are the detector's two
      lines. */
  lemma TwoLines(a: string, b: string)
    requires '\n' !in a && '\n' !in b
    requires !IsBlank(a) && !IsBlank(b)
    ensures DetectionLines(a + "\n" + b) == [a, b]
  {
    var lines := [a, b];
    JoinTwo(a, b);
    DetectionLinesOfJoin(lines);
    assert [a][..0] == [];
    assert NonBlank([a]) == [a];
    assert lines[..1] == [a];
    assert NonBlank(lines) == NonBlank([a]) + [b];
  }

  lemma JoinTwo(a: string, b: string)
    requires '\n' !in a && '\n' !in b
    ensures Join([a, b], '\n') == a + "\n" + b
    ensures SeparatorFree([a, b])
  {
    assert [a, b][1..] == [b];
  }

  /** The sample's lines, as the detector sees them. */
  lemma SampleLines()
    ensures DetectionLines(SampleCode) == [SampleDefLine, SamplePrintLine]
  {
    assert SampleCode == SampleDefLine + "\n" + SamplePrintLine;
    SampleDefNotBlank();
    SamplePrintNotBlank();
    TwoLines(SampleDefLine, SamplePrintLine);
  }

  lemma ScoresOfTwo(a: string, b: string)
    ensures |Scores([a, b])| == 4
    ensures Scores([a, b])[0] == Hits(a, PythonConfig.keywords) + Hits(b, PythonConfig.keywords)
    ensures Scores([a, b])[1] == Hits(a, JavaScriptConfig.keywords) + Hits(b, JavaScriptConfig.keywords)
    ensures Scores([a, b])[2] == Hits(a, JavaConfig.keywords) + Hits(b, JavaConfig.keywords)
    ensures Scores([a, b])[3] == Hits(a, CppConfig.keywords) + Hits(b, CppConfig.keywords)
  {
    ScoresInOrder([a, b]);
    PythonScoreOfTwo(a, b);
    JavaScriptScoreOfTwo(a, b);
    JavaScoreOfTwo(a, b);
    CppScoreOfTwo(a, b);
  }

  lemma PythonScoreOfTwo(a: string, b: string)
    ensures Score([a, b], PythonConfig.keywords) == Hits(a, PythonConfig.keywords) + Hits(b, PythonConfig.keywords)
  {
    ScoreOfTwo(a, b, PythonConfig.keywords);
  }

  lemma JavaScriptScoreOfTwo(a: string, b: string)
    ensures Score([a, b], JavaScriptConfig.keywords) == Hits(a, JavaScriptConfig.keywords) + Hits(b, JavaScriptConfig.keywords)
  {
    ScoreOfTwo(a, b, JavaScriptConfig.keywords);
  }

  lemma JavaScoreOfTwo(a: string, b: string)
    ensures Score([a, b], JavaConfig.keywords) == Hits(a, JavaConfig.keywords) + Hits(b, JavaConfig.keywords)
  {
    ScoreOfTwo(a, b, JavaConfig.keywords);
  }

  lemma CppScoreOfTwo(a: string, b: string)
    ensures Score([a, b], CppConfig.keywords) == Hits(a, CppConfig.keywords) + Hits(b, CppConfig.keywords)
  {
    ScoreOfTwo(a, b, CppConfig.keywords);
  }

  lemma ScoreOfTwo(a: string, b: string, keywords: seq<string>)
    ensures Score([a, b], keywords) == Hits(a, keywords) + Hits(b, keywords)
  {
    assert [a, b][..1] == [a];
    ScoreOfOne(a, keywords);
  }

  /** A text of two lines that score Python 2, JavaScript 0, Java 1 and
      C++ 1 between them is detected as Python. */
  lemma DetectTwoLines(code: string, a: string, b: string)
    requires DetectionLines(code) == [a, b]
    requires Hits(a, PythonConfig.keywords) + Hits(b, PythonConfig.keywords) == 2
    requires Hits(a, JavaScriptConfig.keywords) + Hits(b, JavaScriptConfig.keywords) == 0
    requires Hits(a, JavaConfig.keywords) + Hits(b, JavaConfig.keywords) == 1
    requires Hits(a, CppConfig.keywords) + Hits(b, CppConfig.keywords) == 1
    ensures Scores(DetectionLines(code)) == [2, 0, 1, 1]
    ensures DetectLanguage(code) == "python"
  {
    ScoresOfTwo(a, b);
    DetectPythonLead(code);
  }

  lemma DetectPythonLead(code: string)
    requires Scores(DetectionLines(code)) == [2, 0, 1, 1]
    ensures DetectLanguage(code) == "python"
  {
    assert LastArgMax([2, 0, 1, 1], 0);
    DetectLanguageWinner(code, 0);
  }

  /** The sample scores Python 2 (`def`, `print`), JavaScript 0, Java 1
      and C++ 1 (both `int`, inside `print`), and is detected as Python. */
  lemma DetectSample()
    ensures Scores(DetectionLines(SampleCode)) == [2, 0, 1, 1]
    ensures DetectLanguage(SampleCode) == "python"
  {
    SampleLines();
    SampleDefHitsPython(); SampleDefHitsJavaScript(); SampleDefHitsJava(); SampleDefHitsCpp();
    SamplePrintHitsPython(); SamplePrintHitsJavaScript(); SamplePrintHitsJava(); SamplePrintHitsCpp();
    DetectTwoLines(SampleCode, SampleDefLine, SamplePrintLine);
  }
}
