/** The four language rule tables, their lookup with its JavaScript
    fallback, and the keyword-counting language detector. */
module LanguageDetector {
  import opened Options
  import opened Text
  import opened Patterns
  import opened Types

  // ---------------------------------------------------------------------
  // The rule tables.

  const PythonConfig: LanguageConfig := LanguageConfig(
    "Python",
    ["def", "class", "import", "from", "if", "elif", "else", "for", "while", "try", "except", "return", "print", "len", "range"],
    [HashComment], [PyDef], [PyAssign], [PyLoop], [PyCondition], [ClassDecl])

  const JavaScriptConfig: LanguageConfig := LanguageConfig(
    "JavaScript",
    ["function", "var", "let", "const", "if", "else", "for", "while", "return", "class", "console.log", "document", "window"],
    [SlashComment, BlockComment, StarComment], [JsFunction, JsFunctionExpr, JsArrow], [JsDecl],
    [CStyleLoop], [CStyleCondition], [ClassDecl])

  const JavaConfig: LanguageConfig := LanguageConfig(
    "Java",
    ["public", "private", "protected", "class", "interface", "void", "int", "String", "if", "else", "for", "while", "return", "System.out.println"],
    [SlashComment, BlockComment, StarComment], [JavaMethod], [JavaField],
    [CStyleLoop], [CStyleCondition], [JavaClass])

  const CppConfig: LanguageConfig := LanguageConfig(
    "C++",
    ["#include", "using", "namespace", "int", "main", "cout", "cin", "if", "else", "for", "while", "return", "class", "public", "private"],
    [SlashComment, BlockComment, StarComment], [CppFunction], [CppDecl],
    [CStyleLoop], [CStyleCondition], [ClassDecl])

  /** The registry, in the order its keys are enumerated: the order the
      detector visits the languages in, and so the order its tie-break
      depends on. */
  const LanguageConfigs: seq<(string, LanguageConfig)> := [
    ("python", PythonConfig),
    ("javascript", JavaScriptConfig),
    ("java", JavaConfig),
    ("cpp", CppConfig)]

  /** The keys of the registry. */
  const LanguageNames: seq<string> := ["python", "javascript", "java", "cpp"]

  /** A table defines a keyword list and all six pattern lists, none empty. */
  predicate WellFormed(c: LanguageConfig) {
    |c.keywords| > 0 && |c.commentPatterns| > 0 && |c.functionPatterns| > 0
    && |c.variablePatterns| > 0 && |c.loopPatterns| > 0
    && |c.conditionPatterns| > 0 && |c.classPatterns| > 0
  }

  lemma TablesWellFormed()
    ensures |LanguageConfigs| == |LanguageNames| == 4
    ensures forall k :: 0 <= k < |LanguageConfigs| ==>
      LanguageConfigs[k].0 == LanguageNames[k] && WellFormed(LanguageConfigs[k].1)
  {
  }

  // ---------------------------------------------------------------------
  // Looking a language up.

  /** `registry[name]`: the table of the first entry whose key is `name`. */
  function Lookup(registry: seq<(string, LanguageConfig)>, name: string): Option<LanguageConfig>
  {
    if |registry| == 0 then None
    else if registry[0].0 == name then Some(registry[0].1)
    else Lookup(registry[1..], name)
  }

  /** The lookup finds the entry of the first key equal to `name`. */
  lemma {:induction false} LookupFinds(registry: seq<(string, LanguageConfig)>, name: string, k: nat)
    requires k < |registry| && registry[k].0 == name
    requires forall j :: 0 <= j < k ==> registry[j].0 != name
    ensures Lookup(registry, name) == Some(registry[k].1)
  {
    if k > 0 {
      assert registry[0].0 != name;
      LookupFinds(registry[1..], name, k - 1);
    }
  }

  /** The lookup of a name that is no key finds nothing. */
  lemma {:induction false} LookupMisses(registry: seq<(string, LanguageConfig)>, name: string)
    requires forall j :: 0 <= j < |registry| ==> registry[j].0 != name
    ensures Lookup(registry, name) == None
  {
    if |registry| > 0 {
      assert registry[0].0 != name;
      LookupMisses(registry[1..], name);
    }
  }

  /** `languageConfigs[language] || languageConfigs.javascript`: a table is
      never falsy, so the fallback applies exactly when the lookup fails. */
  function GetLanguageConfig(language: string): LanguageConfig
  {
    Lookup(LanguageConfigs, language).GetOr(JavaScriptConfig)
  }

  /** A registered name gets its own table. */
  lemma GetLanguageConfigKnown(k: nat)
    requires k < |LanguageConfigs|
    ensures GetLanguageConfig(LanguageNames[k]) == LanguageConfigs[k].1
  {
    LookupFinds(LanguageConfigs, LanguageNames[k], k);
  }

  /** Any other name gets the JavaScript table. */
  lemma GetLanguageConfigFallback(language: string)
    requires language !in LanguageNames
    ensures GetLanguageConfig(language) == JavaScriptConfig
  {
    assert forall j :: 0 <= j < |LanguageConfigs| ==> LanguageConfigs[j].0 == LanguageNames[j];
    LookupMisses(LanguageConfigs, language);
  }

  /** Whatever the name, the table is one of the four, and so well formed. */
  lemma GetLanguageConfigIsTable(language: string)
    ensures exists k :: 0 <= k < |LanguageConfigs| && GetLanguageConfig(language) == LanguageConfigs[k].1
    ensures WellFormed(GetLanguageConfig(language))
  {
    if k :| 0 <= k < |LanguageNames| && LanguageNames[k] == language {
      GetLanguageConfigKnown(k);
    } else {
      GetLanguageConfigFallback(language);
      assert LanguageConfigs[1].1 == JavaScriptConfig;
    }
  }

  /** The selector's other choices have no table of their own. */
  lemma GetLanguageConfigUnsupported()
    ensures GetLanguageConfig("c") == JavaScriptConfig
    ensures GetLanguageConfig("html") == JavaScriptConfig
    ensures GetLanguageConfig("css") == JavaScriptConfig
    ensures GetLanguageConfig("auto") == JavaScriptConfig
  {
    GetLanguageConfigFallback("c");
    GetLanguageConfigFallback("html");
    GetLanguageConfigFallback("css");
    GetLanguageConfigFallback("auto");
  }

  // ---------------------------------------------------------------------
  // Keyword scores.

  /** The number of entries of `keywords` that occur in `line`. */
  function Hits(line: string, keywords: seq<string>): nat
  {
    if |keywords| == 0 then 0
    else Hits(line, keywords[..|keywords| - 1]) + (if Includes(line, keywords[|keywords| - 1]) then 1 else 0)
  }

  /** The positions of the keywords that occur in `line`. */
  ghost function HitSet(line: string, keywords: seq<string>): set<nat>
  {
    set j: nat | j < |keywords| && Includes(line, keywords[j])
  }

  /** `Hits` counts the keywords that occur in the line, once each, with
      no regard for word boundaries. */
  lemma {:induction false} HitsCounts(line: string, keywords: seq<string>)
    ensures Hits(line, keywords) == |HitSet(line, keywords)|
    decreases |keywords|
  {
    if |keywords| > 0 {
      var n := |keywords| - 1;
      var init := keywords[..n];
      HitsCounts(line, init);
      if Includes(line, keywords[n]) {
        assert HitSet(line, keywords) == HitSet(line, init) + {n};
      } else {
        assert HitSet(line, keywords) == HitSet(line, init);
      }
    } else {
      assert HitSet(line, keywords) == {};
    }
  }

  lemma {:induction false} HitsAppend(line: string, a: seq<string>, b: seq<string>)
    ensures Hits(line, a + b) == Hits(line, a) + Hits(line, b)
    decreases |b|
  {
    if |b| > 0 {
      assert (a + b)[..|a + b| - 1] == a + b[..|b| - 1];
      assert (a + b)[|a + b| - 1] == b[|b| - 1];
      HitsAppend(line, a, b[..|b| - 1]);
    } else {
      assert a + b == a;
    }
  }

  /** No keyword of the list occurs in the line. */
  lemma {:induction false} HitsNone(line: string, keywords: seq<string>)
    requires forall w :: w in keywords ==> !Includes(line, w)
    ensures Hits(line, keywords) == 0
  {
    if |keywords| > 0 {
      assert keywords[|keywords| - 1] in keywords;
      HitsNone(line, keywords[..|keywords| - 1]);
    }
  }

  /** Exactly the keyword between `a` and `b` occurs in the line. */
  lemma HitsOne(line: string, a: seq<string>, w: string, b: seq<string>)
    requires Includes(line, w)
    requires forall v :: v in a ==> !Includes(line, v)
    requires forall v :: v in b ==> !Includes(line, v)
    ensures Hits(line, a + [w] + b) == 1
  {
    HitsNone(line, a);
    HitsNone(line, b);
    assert Hits(line, [w]) == 1 by {
      assert [w][..0] == [];
    }
    HitsAppend(line, a, [w]);
    HitsAppend(line, a + [w], b);
  }

  /** A language's score: the keyword hits summed over the lines. */
  function Score(lines: seq<string>, keywords: seq<string>): nat
  {
    if |lines| == 0 then 0
    else Score(lines[..|lines| - 1], keywords) + Hits(lines[|lines| - 1], keywords)
  }

  lemma {:induction false} ScoreAppend(a: seq<string>, b: seq<string>, keywords: seq<string>)
    ensures Score(a + b, keywords) == Score(a, keywords) + Score(b, keywords)
    decreases |b|
  {
    if |b| > 0 {
      assert (a + b)[..|a + b| - 1] == a + b[..|b| - 1];
      assert (a + b)[|a + b| - 1] == b[|b| - 1];
      ScoreAppend(a, b[..|b| - 1], keywords);
    } else {
      assert a + b == a;
    }
  }

  /** The scores of all languages, in registry order. */
  function Scores(lines: seq<string>): (scores: seq<nat>)
    ensures |scores| == |LanguageConfigs|
  {
    seq(|LanguageConfigs|, k requires 0 <= k < |LanguageConfigs| => Score(lines, LanguageConfigs[k].1.keywords))
  }

  /** The scores come in registry order: Python, JavaScript, Java, C++. */
  lemma ScoresInOrder(lines: seq<string>)
    ensures Scores(lines) == [Score(lines, PythonConfig.keywords), Score(lines, JavaScriptConfig.keywords),
                              Score(lines, JavaConfig.keywords), Score(lines, CppConfig.keywords)]
  {
  }

  /** The innermost counting loop: one point for each keyword the line
      includes. */
  method LineHits(line: string, keywords: seq<string>) returns (n: nat)
    ensures n == Hits(line, keywords)
  {
    n := 0;
    for j := 0 to |keywords|
      invariant n == Hits(line, keywords[..j])
    {
      assert keywords[..j + 1][..j] == keywords[..j];
      if Includes(line, keywords[j]) {
        n := n + 1;
      }
    }
    assert keywords[..|keywords|] == keywords;
  }

  /** The detector's counting loops: for each line, for each language, the
      points the line earns with that language's keywords. */
  method CountScores(lines: seq<string>) returns (scores: seq<nat>)
    ensures scores == Scores(lines)
  {
    scores := seq(|LanguageConfigs|, _ => 0);
    for i := 0 to |lines|
      invariant |scores| == |LanguageConfigs|
      invariant forall k :: 0 <= k < |scores| ==> scores[k] == Score(lines[..i], LanguageConfigs[k].1.keywords)
    {
      assert lines[..i + 1][..i] == lines[..i];
      for k := 0 to |LanguageConfigs|
        invariant |scores| == |LanguageConfigs|
        invariant forall m :: 0 <= m < k ==> scores[m] == Score(lines[..i + 1], LanguageConfigs[m].1.keywords)
        invariant forall m :: k <= m < |scores| ==> scores[m] == Score(lines[..i], LanguageConfigs[m].1.keywords)
      {
        var points := LineHits(lines[i], LanguageConfigs[k].1.keywords);
        scores := scores[k := scores[k] + points];
      }
    }
    assert lines[..|lines|] == lines;
  }

  // ---------------------------------------------------------------------
  // Picking the winner.

  /** `entries.reduce((a, b) => score(a) > score(b) ? a : b)` from the
      accumulator `acc`, visiting the entries from `b` on: the accumulator
      survives only when it is strictly greater. */
  function ReduceFrom(scores: seq<nat>, acc: nat, b: nat): (i: nat)
    requires acc < b <= |scores|
    ensures i < |scores|
    decreases |scores| - b
  {
    if b == |scores| then acc
    else ReduceFrom(scores, if scores[acc] > scores[b] then acc else b, b + 1)
  }

  /** The reduce without an initial value: it starts from the first entry. */
  function ReduceMax(scores: seq<nat>): (i: nat)
    requires |scores| > 0
    ensures i < |scores|
  {
    ReduceFrom(scores, 0, 1)
  }

  /** `i` holds the greatest score and every later entry is strictly smaller:
      the last position of the maximum. */
  ghost predicate LastArgMax(scores: seq<nat>, i: nat) {
    i < |scores|
    && (forall j :: 0 <= j < |scores| ==> scores[j] <= scores[i])
    && (forall j :: i < j < |scores| ==> scores[j] < scores[i])
  }

  lemma {:induction false} ReduceFromLastArgMax(scores: seq<nat>, acc: nat, b: nat)
    requires acc < b <= |scores| && LastArgMax(scores[..b], acc)
    ensures ReduceFrom(scores, acc, b) < |scores|
    ensures LastArgMax(scores, ReduceFrom(scores, acc, b))
    decreases |scores| - b
  {
    if b == |scores| {
      assert scores[..b] == scores;
    } else {
      var next := if scores[acc] > scores[b] then acc else b;
      assert LastArgMax(scores[..b + 1], next) by {
        assert forall j :: 0 <= j < b ==> scores[..b + 1][j] == scores[..b][j];
      }
      ReduceFromLastArgMax(scores, next, b + 1);
    }
  }

  /** The reduce picks the last position of the greatest score. */
  lemma ReduceMaxIsLastArgMax(scores: seq<nat>)
    requires |scores| > 0
    ensures ReduceMax(scores) < |scores| && LastArgMax(scores, ReduceMax(scores))
  {
    ReduceFromLastArgMax(scores, 0, 1);
  }

  /** There is only one last position of the maximum. */
  lemma LastArgMaxUnique(scores: seq<nat>, i: nat, j: nat)
    requires LastArgMax(scores, i) && LastArgMax(scores, j)
    ensures i == j
  {
    assert scores[i] <= scores[j] && scores[j] <= scores[i];
  }

  /** The reduce picks `i` exactly when `i` is the last position of the maximum. */
  lemma ReduceMaxIff(scores: seq<nat>, i: nat)
    requires |scores| > 0
    ensures ReduceMax(scores) == i <==> LastArgMax(scores, i)
  {
    ReduceMaxIsLastArgMax(scores);
    if LastArgMax(scores, i) {
      LastArgMaxUnique(scores, i, ReduceMax(scores));
    }
  }

  // ---------------------------------------------------------------------
  // Detection.

  /** `lines.filter(line => line.trim())`. */
  function NonBlank(lines: seq<string>): seq<string>
  {
    if |lines| == 0 then []
    else NonBlank(lines[..|lines| - 1]) + (if IsBlank(lines[|lines| - 1]) then [] else [lines[|lines| - 1]])
  }

  lemma {:induction false} NonBlankAppend(a: seq<string>, b: seq<string>)
    ensures NonBlank(a + b) == NonBlank(a) + NonBlank(b)
    decreases |b|
  {
    if |b| > 0 {
      assert (a + b)[..|a + b| - 1] == a + b[..|b| - 1];
      assert (a + b)[|a + b| - 1] == b[|b| - 1];
      NonBlankAppend(a, b[..|b| - 1]);
    } else {
      assert a + b == a;
    }
  }

  /** The non-blank lines of a text, as the detector sees them. */
  function DetectionLines(code: string): seq<string> {
    NonBlank(Split(code, '\n'))
  }

  /** `detectLanguage(code)`. */
  function DetectLanguage(code: string): string
  {
    var scores := Scores(DetectionLines(code));
    var i := ReduceMax(scores);
    if scores[i] > 0 then LanguageConfigs[i].0 else "javascript"
  }

  /** The detector names one of the four registered languages. */
  lemma DetectLanguageIsRegistered(code: string)
    ensures DetectLanguage(code) in LanguageNames
  {
    var scores := Scores(DetectionLines(code));
    ReduceMaxIsLastArgMax(scores);
    TablesWellFormed();
  }

  /** When no keyword occurs anywhere, the answer is JavaScript. */
  lemma DetectLanguageDefault(code: string)
    requires forall k :: 0 <= k < |LanguageConfigs| ==> Scores(DetectionLines(code))[k] == 0
    ensures DetectLanguage(code) == "javascript"
  {
    ReduceMaxIsLastArgMax(Scores(DetectionLines(code)));
  }

  /** A list of blank lines has no non-blank lines. */
  lemma {:induction false} NonBlankAllBlank(lines: seq<string>)
    requires forall k :: 0 <= k < |lines| ==> IsBlank(lines[k])
    ensures NonBlank(lines) == []
  {
    if |lines| > 0 {
      NonBlankAllBlank(lines[..|lines| - 1]);
    }
  }

  /** A text whose lines are all blank, the empty text among them, is
      detected as JavaScript: no line is left to score. */
  lemma DetectBlank(code: string)
    requires forall k :: 0 <= k < |Split(code, '\n')| ==> IsBlank(Split(code, '\n')[k])
    ensures DetectLanguage(code) == "javascript"
  {
    NonBlankAllBlank(Split(code, '\n'));
    DetectLanguageDefault(code);
  }

  /** The empty text is detected as JavaScript. */
  lemma DetectEmpty()
    ensures DetectLanguage("") == "javascript"
  {
    assert Split("", '\n') == [""];
    assert IsBlank("");
    DetectBlank("");
  }

  /** Otherwise the answer is the language at the last position of the
      greatest score: every language scores at most as much, and every
      language after it in the registry scores strictly less. */
  lemma DetectLanguageWinner(code: string, i: nat)
    requires LastArgMax(Scores(DetectionLines(code)), i)
    requires Scores(DetectionLines(code))[i] > 0
    ensures DetectLanguage(code) == LanguageNames[i]
  {
    ReduceMaxIff(Scores(DetectionLines(code)), i);
    TablesWellFormed();
  }

  /** The text of separator-free lines, once split, gives the lines back;
      the empty list joins to the empty text, which splits into one blank line. */
  lemma DetectionLinesOfJoin(lines: seq<string>)
    requires SeparatorFree(lines)
    ensures DetectionLines(Join(lines, '\n')) == NonBlank(lines)
  {
    if |lines| == 0 {
      assert Split("", '\n') == [""];
      assert IsBlank("");
      assert NonBlank([""]) == NonBlank([]) + [];
    } else {
      SplitJoin(lines, '\n');
    }
  }

  /** No line of the list holds a line separator. */
  ghost predicate SeparatorFree(lines: seq<string>) {
    forall k :: 0 <= k < |lines| ==> '\n' !in lines[k]
  }

  lemma SeparatorFreeAppend(a: seq<string>, b: seq<string>)
    requires SeparatorFree(a) && SeparatorFree(b)
    ensures SeparatorFree(a + b)
  {
    forall k | 0 <= k < |a + b| ensures '\n' !in (a + b)[k] {
      if k < |a| { assert (a + b)[k] == a[k]; } else { assert (a + b)[k] == b[k - |a|]; }
    }
  }

  /** A blank line drops out of the non-blank lines wherever it stands. */
  lemma NonBlankSkipsBlank(before: seq<string>, blank: string, after: seq<string>)
    requires IsBlank(blank)
    ensures NonBlank(before + [blank] + after) == NonBlank(before + after)
  {
    var x := NonBlank(before);
    var y := NonBlank(after);
    NonBlankAppend(before + [blank], after);
    NonBlankAppend(before, [blank]);
    NonBlankAppend(before, after);
    NonBlankOfBlank(blank);
    assert x + [] + y == x + y;
  }

  lemma NonBlankOfBlank(blank: string)
    requires IsBlank(blank)
    ensures NonBlank([blank]) == []
  {
    assert [blank][..0] == [];
  }

  /** Inserting a blank line anywhere never changes the detected language
      (and so neither does removing one). */
  lemma DetectLanguageIgnoresBlankLines(before: seq<string>, blank: string, after: seq<string>)
    requires SeparatorFree(before) && SeparatorFree(after)
    requires '\n' !in blank && IsBlank(blank)
    ensures DetectLanguage(Join(before + [blank] + after, '\n')) == DetectLanguage(Join(before + after, '\n'))
  {
    assert SeparatorFree([blank]);
    SeparatorFreeAppend(before, [blank]);
    SeparatorFreeAppend(before + [blank], after);
    SeparatorFreeAppend(before, after);
    DetectionLinesOfJoin(before + [blank] + after);
    DetectionLinesOfJoin(before + after);
    NonBlankSkipsBlank(before, blank, after);
  }
}
