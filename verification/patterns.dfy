/** The regular expressions of the rule tables, each one hand-coded as a
    matcher over `seq<char>`, and each paired with its source form as a
    `Regex.Re` term.

    A matcher returns what JavaScript's `line.match(re)` returns: `None` for
    `null`, otherwise the match array, with the matched text at index 0 and
    one entry per capture group after it. A group that did not take part in
    the match is `None`, which JavaScript reports as `undefined`. Every
    pattern is anchored by `^` and has no `g` flag, so `re.test(line)` is
    `Match(p, line).Some?` and keeps no state between calls. Quantifiers are
    greedy and alternatives are tried from left to right. The matchers
    follow that backtracking order, so the captures they report are the
    ones JavaScript reports. */
module Patterns {
  import opened Options
  import opened Text
  import opened Regex

  /** One constructor per distinct regular expression of the four tables. */
  datatype Pattern =
    | HashComment        // /^\s*#/
    | SlashComment       // /^\s*\/\//
    | BlockComment       // /^\s*\/\*/
    | StarComment        // /^\s*\*/
    | PyDef              // /^\s*def\s+(\w+)/
    | PyAssign           // /^\s*(\w+)\s*=/
    | PyLoop             // /^\s*(for|while)\s+/
    | PyCondition        // /^\s*(if|elif|else)/
    | ClassDecl          // /^\s*class\s+(\w+)/
    | JsFunction         // /^\s*function\s+(\w+)/
    | JsFunctionExpr     // /^\s*(\w+)\s*=\s*function/
    | JsArrow            // /^\s*const\s+(\w+)\s*=\s*\(/
    | JsDecl             // /^\s*(var|let|const)\s+(\w+)/
    | CStyleLoop         // /^\s*(for|while)\s*\(/
    | CStyleCondition    // /^\s*(if|else\s+if|else)/
    | JavaMethod         // /^\s*(public|private|protected)?\s*(static\s+)?\w+\s+(\w+)\s*\(/
    | JavaField          // /^\s*(public|private|protected)?\s*(static\s+)?(int|String|double|float|boolean|char)\s+(\w+)/
    | JavaClass          // /^\s*(public\s+)?class\s+(\w+)/
    | CppFunction        // /^\s*\w+\s+(\w+)\s*\(/
    | CppDecl            // /^\s*(int|float|double|char|string|bool)\s+(\w+)/

  /** A match array: the matched text, then one entry per capture group. */
  type Groups = seq<Option<string>>

  const Modifiers: seq<string> := ["public", "private", "protected"]
  const JavaTypes: seq<string> := ["int", "String", "double", "float", "boolean", "char"]
  const CppTypes: seq<string> := ["int", "float", "double", "char", "string", "bool"]
  const DeclKeywords: seq<string> := ["var", "let", "const"]

  /** The number of capture groups of each pattern. */
  function GroupCount(p: Pattern): nat {
    if p.HashComment? || p.SlashComment? || p.BlockComment? || p.StarComment? then 0
    else if p.JsDecl? || p.JavaClass? || p.CppDecl? then 2
    else if p.JavaMethod? then 3
    else if p.JavaField? then 4
    else 1
  }

  // ---------------------------------------------------------------------
  // The patterns as written, in the reference syntax.

  const Ws0: Re := Many(Space, 0)   // \s*
  const Ws1: Re := Many(Space, 1)   // \s+
  const Word1: Re := Many(Word, 1)  // \w+

  /** `w1|w2|...|wn`. */
  function Alts(ws: seq<string>): Re
    requires |ws| > 0
    decreases |ws|
  {
    if |ws| == 1 then Lit(ws[0]) else Alt(Lit(ws[0]), Alts(ws[1..]))
  }

  /** The regular expression each pattern is, written out term by term. */
  function Source(p: Pattern): Re {
    match p
    case HashComment => HashCommentRe
    case SlashComment => SlashCommentRe
    case BlockComment => BlockCommentRe
    case StarComment => StarCommentRe
    case PyDef => PyDefRe
    case PyAssign => PyAssignRe
    case PyLoop => PyLoopRe
    case PyCondition => PyConditionRe
    case ClassDecl => ClassDeclRe
    case JsFunction => JsFunctionRe
    case JsFunctionExpr => JsFunctionExprRe
    case JsArrow => JsArrowRe
    case JsDecl => JsDeclRe
    case CStyleLoop => CStyleLoopRe
    case CStyleCondition => CStyleConditionRe
    case JavaMethod => JavaMethodRe
    case JavaField => JavaFieldRe
    case JavaClass => JavaClassRe
    case CppFunction => CppFunctionRe
    case CppDecl => CppDeclRe
  }

  const HashCommentRe: Re := Cat(Ws0, Lit("#"))
  const SlashCommentRe: Re := Cat(Ws0, Lit("//"))
  const BlockCommentRe: Re := Cat(Ws0, Lit("/*"))
  const StarCommentRe: Re := Cat(Ws0, Lit("*"))
  const PyDefRe: Re := Cat(Ws0, Cat(Lit("def"), Cat(Ws1, Group(Word1))))
  const PyAssignRe: Re := Cat(Ws0, Cat(Group(Word1), Cat(Ws0, Lit("="))))
  const PyLoopRe: Re := Cat(Ws0, Cat(Group(Alts(["for", "while"])), Ws1))
  const PyConditionRe: Re := Cat(Ws0, Group(Alts(["if", "elif", "else"])))
  const ClassDeclRe: Re := Cat(Ws0, Cat(Lit("class"), Cat(Ws1, Group(Word1))))
  const JsFunctionRe: Re := Cat(Ws0, Cat(Lit("function"), Cat(Ws1, Group(Word1))))
  const JsFunctionExprRe: Re := Cat(Ws0, Cat(Group(Word1), Cat(Ws0, Cat(Lit("="), Cat(Ws0, Lit("function"))))))
  const JsArrowRe: Re := Cat(Ws0, Cat(Lit("const"), Cat(Ws1, Cat(Group(Word1), Cat(Ws0, Cat(Lit("="), Cat(Ws0, Lit("("))))))))
  const JsDeclRe: Re := Cat(Ws0, Cat(Group(Alts(DeclKeywords)), Cat(Ws1, Group(Word1))))
  const CStyleLoopRe: Re := Cat(Ws0, Cat(Group(Alts(["for", "while"])), Cat(Ws0, Lit("("))))
  const CStyleConditionRe: Re := Cat(Ws0, Group(Alt(Lit("if"), Alt(Cat(Lit("else"), Cat(Ws1, Lit("if"))), Lit("else")))))
  const JavaMethodRe: Re := Cat(Ws0, Cat(Opt(Group(Alts(Modifiers))), Cat(Ws0, Cat(Opt(Group(Cat(Lit("static"), Ws1))), Cat(Word1, Cat(Ws1, Cat(Group(Word1), Cat(Ws0, Lit("(")))))))))
  const JavaFieldRe: Re := Cat(Ws0, Cat(Opt(Group(Alts(Modifiers))), Cat(Ws0, Cat(Opt(Group(Cat(Lit("static"), Ws1))), Cat(Group(Alts(JavaTypes)), Cat(Ws1, Group(Word1)))))))
  const JavaClassRe: Re := Cat(Ws0, Cat(Opt(Group(Cat(Lit("public"), Ws1))), Cat(Lit("class"), Cat(Ws1, Group(Word1)))))
  const CppFunctionRe: Re := Cat(Ws0, Cat(Word1, Cat(Ws1, Cat(Group(Word1), Cat(Ws0, Lit("("))))))
  const CppDeclRe: Re := Cat(Ws0, Cat(Group(Alts(CppTypes)), Cat(Ws1, Group(Word1))))

  // ---------------------------------------------------------------------
  // The hand-coded matchers. `Span(Space, s, i)` is what a greedy `\s*`
  // consumes from `i`, `Span(Word, s, i)` what a greedy `\w+` consumes.

  /** `kw\s+(\w+)` from position `i`: the bounds of the captured word. */
  function KeywordName(s: string, i: nat, kw: string): (r: Option<(nat, nat)>)
    requires i <= |s|
    ensures r.Some? ==> i + |kw| < r.value.0 < r.value.1 <= |s|
  {
    if !LitAt(s, i, kw) then None
    else
      var b := Span(Space, s, i + |kw|);
      if b == i + |kw| then None
      else
        var c := Span(Word, s, b);
        if c == b then None else Some((b, c))
  }

  /** `(kws[0]|kws[1]|...)\s+(\w+)` from position `i`, trying the alternatives
      from `kws[k]` on, in order: the alternative taken and the bounds of
      the captured word. */
  function KeywordAltName(s: string, i: nat, kws: seq<string>, k: nat): (r: Option<(string, nat, nat)>)
    requires i <= |s| && k <= |kws|
    ensures r.Some? ==> i + |r.value.0| < r.value.1 < r.value.2 <= |s|
    decreases |kws| - k
  {
    if k >= |kws| then None
    else match KeywordName(s, i, kws[k])
      case Some((b, c)) => Some((kws[k], b, c))
      case None => KeywordAltName(s, i, kws, k + 1)
  }

  /** The alternative `KeywordAltName` takes is one of `kws[k..]`, and
      `KeywordName` finds the same word after it. */
  lemma {:induction false} KeywordAltNameFound(s: string, i: nat, kws: seq<string>, k: nat)
    requires i <= |s| && k <= |kws| && KeywordAltName(s, i, kws, k).Some?
    ensures var r := KeywordAltName(s, i, kws, k).value;
      r.0 in kws[k..] && KeywordName(s, i, r.0) == Some((r.1, r.2))
    decreases |kws| - k
  {
    if KeywordName(s, i, kws[k]).None? {
      KeywordAltNameFound(s, i, kws, k + 1);
      assert kws[k..] == [kws[k]] + kws[k + 1..];
    }
  }

  /** `\w+\s+(\w+)\s*\(` from position `q`: the bounds of the captured word
      and the end of the match. */
  function WordWordParen(s: string, q: nat): (r: Option<(nat, nat, nat)>)
    requires q <= |s|
    ensures r.Some? ==> q < r.value.0 < r.value.1 < r.value.2 <= |s|
  {
    var w1 := Span(Word, s, q);
    var b := Span(Space, s, w1);
    var c := Span(Word, s, b);
    var e := Span(Space, s, c);
    if w1 > q && b > w1 && c > b && LitAt(s, e, "(") then Some((b, c, e + 1)) else None
  }

  /** The first of `public`, `private`, `protected` at position `i`. */
  function Modifier(s: string, i: nat): (r: Option<string>)
    ensures r.Some? ==> i + |r.value| <= |s|
  {
    if LitAt(s, i, "public") then Some("public")
    else if LitAt(s, i, "private") then Some("private")
    else if LitAt(s, i, "protected") then Some("protected")
    else None
  }

  /** The modifier `Modifier` reports is one of the three and occurs at `i`. */
  lemma ModifierFound(s: string, i: nat)
    requires Modifier(s, i).Some?
    ensures Modifier(s, i).value in Modifiers && LitAt(s, i, Modifier(s, i).value)
  {
  }

  /** `\s*(static\s+)?\w+\s+(\w+)\s*\(` from position `p`: the `static`
      group, the bounds of the captured name and the end of the match. The
      optional group is tried first. */
  function MethodRest(s: string, p: nat): (r: Option<(Option<string>, nat, nat, nat)>)
    requires p <= |s|
    ensures r.Some? ==> p < r.value.1 < r.value.2 < r.value.3 <= |s|
  {
    var q := Span(Space, s, p);
    var t := if LitAt(s, q, "static") then Span(Space, s, q + 6) else q;
    if LitAt(s, q, "static") && t > q + 6 && WordWordParen(s, t).Some? then
      var (b, c, e) := WordWordParen(s, t).value;
      Some((Some(s[q..t]), b, c, e))
    else
      match WordWordParen(s, q)
      case Some((b, c, e)) => Some((None, b, c, e))
      case None => None
  }

  /** `\s*(static\s+)?(int|String|...)\s+(\w+)` from position `p`: the
      `static` group, the type and the bounds of the captured name. */
  function FieldRest(s: string, p: nat): (r: Option<(Option<string>, string, nat, nat)>)
    requires p <= |s|
    ensures r.Some? ==> p < r.value.2 < r.value.3 <= |s|
  {
    var q := Span(Space, s, p);
    var t := if LitAt(s, q, "static") then Span(Space, s, q + 6) else q;
    if LitAt(s, q, "static") && t > q + 6 && KeywordAltName(s, t, JavaTypes, 0).Some? then
      var (ty, b, c) := KeywordAltName(s, t, JavaTypes, 0).value;
      Some((Some(s[q..t]), ty, b, c))
    else
      match KeywordAltName(s, q, JavaTypes, 0)
      case Some((ty, b, c)) => Some((None, ty, b, c))
      case None => None
  }

  /** A match array of a pattern with `n` groups whose match starts at the
      beginning of `s`, as every `^`-anchored match does. */
  predicate Shaped(r: Option<Groups>, n: nat, s: string) {
    r.Some? ==> |r.value| == n + 1 && r.value[0].Some? && r.value[0].value <= s
  }

  /** `line.match(re)` for the pattern `p`. */
  function Match(p: Pattern, s: string): Option<Groups>
  {
    match p
    case HashComment => LeadLitMatch(s, "#")
    case SlashComment => LeadLitMatch(s, "//")
    case BlockComment => LeadLitMatch(s, "/*")
    case StarComment => LeadLitMatch(s, "*")
    case PyDef => NameAfter(s, "def")
    case ClassDecl => NameAfter(s, "class")
    case JsFunction => NameAfter(s, "function")
    case PyAssign => AssignMatch(s)
    case JsFunctionExpr => FunctionExprMatch(s)
    case JsArrow => ArrowMatch(s)
    case PyLoop => LoopMatch(s, false)
    case CStyleLoop => LoopMatch(s, true)
    case PyCondition => PyConditionMatch(s)
    case CStyleCondition => CStyleConditionMatch(s)
    case JsDecl => NameAfterAlt(s, DeclKeywords)
    case CppDecl => NameAfterAlt(s, CppTypes)
    case CppFunction => CppFunctionMatch(s)
    case JavaClass => JavaClassMatch(s)
    case JavaMethod => JavaMethodMatch(s)
    case JavaField => JavaFieldMatch(s)
  }

  /** `^\s*w`, for the comment patterns. */
  function LeadLitMatch(s: string, w: string): (r: Option<Groups>)
  {
    var a := Span(Space, s, 0);
    if LitAt(s, a, w) then Some([Some(s[..a + |w|])]) else None
  }

  /** `^\s*kw\s+(\w+)`. */
  function NameAfter(s: string, kw: string): (r: Option<Groups>)
  {
    match KeywordName(s, Span(Space, s, 0), kw)
    case Some((b, c)) => Some([Some(s[..c]), Some(s[b..c])])
    case None => None
  }

  /** `^\s*(kw1|kw2|...)\s+(\w+)`. */
  function NameAfterAlt(s: string, kws: seq<string>): (r: Option<Groups>)
  {
    match KeywordAltName(s, Span(Space, s, 0), kws, 0)
    case Some((kw, b, c)) => Some([Some(s[..c]), Some(kw), Some(s[b..c])])
    case None => None
  }

  /** `^\s*(\w+)\s*=`. */
  function AssignMatch(s: string): (r: Option<Groups>)
  {
    var a := Span(Space, s, 0);
    var b := Span(Word, s, a);
    var c := Span(Space, s, b);
    if b > a && LitAt(s, c, "=") then Some([Some(s[..c + 1]), Some(s[a..b])]) else None
  }

  /** `^\s*(\w+)\s*=\s*function`. */
  function FunctionExprMatch(s: string): (r: Option<Groups>)
  {
    var a := Span(Space, s, 0);
    var b := Span(Word, s, a);
    var c := Span(Space, s, b);
    if b > a && LitAt(s, c, "=") then
      var d := Span(Space, s, c + 1);
      if LitAt(s, d, "function") then Some([Some(s[..d + 8]), Some(s[a..b])]) else None
    else None
  }

  /** `^\s*const\s+(\w+)\s*=\s*\(`. */
  function ArrowMatch(s: string): (r: Option<Groups>)
  {
    match KeywordName(s, Span(Space, s, 0), "const")
    case Some((b, c)) =>
      var d := Span(Space, s, c);
      if LitAt(s, d, "=") then
        var e := Span(Space, s, d + 1);
        if LitAt(s, e, "(") then Some([Some(s[..e + 1]), Some(s[b..c])]) else None
      else None
    case None => None
  }

  /** `^\s*(for|while)\s+` when `paren` is false, `^\s*(for|while)\s*\(`
      when it is true. */
  function LoopMatch(s: string, paren: bool): (r: Option<Groups>)
  {
    var a := Span(Space, s, 0);
    if LitAt(s, a, "for") && LoopTail(s, a + 3, paren).Some? then
      Some([Some(s[..LoopTail(s, a + 3, paren).value]), Some("for")])
    else if LitAt(s, a, "while") && LoopTail(s, a + 5, paren).Some? then
      Some([Some(s[..LoopTail(s, a + 5, paren).value]), Some("while")])
    else None
  }

  /** `\s+` or `\s*\(` from `i`: the end of the match. */
  function LoopTail(s: string, i: nat, paren: bool): (r: Option<nat>)
    requires i <= |s|
    ensures r.Some? ==> i <= r.value <= |s|
  {
    var e := Span(Space, s, i);
    if !paren then (if e > i then Some(e) else None)
    else if LitAt(s, e, "(") then Some(e + 1) else None
  }

  /** `^\s*(if|elif|else)`. */
  function PyConditionMatch(s: string): (r: Option<Groups>)
  {
    var a := Span(Space, s, 0);
    if LitAt(s, a, "if") then Some([Some(s[..a + 2]), Some("if")])
    else if LitAt(s, a, "elif") then Some([Some(s[..a + 4]), Some("elif")])
    else if LitAt(s, a, "else") then Some([Some(s[..a + 4]), Some("else")])
    else None
  }

  /** `^\s*(if|else\s+if|else)`. */
  function CStyleConditionMatch(s: string): (r: Option<Groups>)
  {
    var a := Span(Space, s, 0);
    if LitAt(s, a, "if") then Some([Some(s[..a + 2]), Some("if")])
    else if LitAt(s, a, "else") && Span(Space, s, a + 4) > a + 4 && LitAt(s, Span(Space, s, a + 4), "if") then
      var e := Span(Space, s, a + 4) + 2;
      Some([Some(s[..e]), Some(s[a..e])])
    else if LitAt(s, a, "else") then Some([Some(s[..a + 4]), Some("else")])
    else None
  }

  /** `^\s*\w+\s+(\w+)\s*\(`. */
  function CppFunctionMatch(s: string): (r: Option<Groups>)
  {
    match WordWordParen(s, Span(Space, s, 0))
    case Some((b, c, e)) => Some([Some(s[..e]), Some(s[b..c])])
    case None => None
  }

  /** `^\s*(public\s+)?class\s+(\w+)`: the optional group is tried first. */
  function JavaClassMatch(s: string): (r: Option<Groups>)
  {
    var a := Span(Space, s, 0);
    var t := if LitAt(s, a, "public") then Span(Space, s, a + 6) else a;
    if LitAt(s, a, "public") && t > a + 6 && KeywordName(s, t, "class").Some? then
      var (b, c) := KeywordName(s, t, "class").value;
      Some([Some(s[..c]), Some(s[a..t]), Some(s[b..c])])
    else
      match KeywordName(s, a, "class")
      case Some((b, c)) => Some([Some(s[..c]), None, Some(s[b..c])])
      case None => None
  }

  /** `^\s*(public|private|protected)?\s*(static\s+)?\w+\s+(\w+)\s*\(`: the
      modifier group is tried first, and skipped only when the rest of the
      pattern fails after it. */
  function JavaMethodMatch(s: string): (r: Option<Groups>)
  {
    var a := Span(Space, s, 0);
    var p := MethodStart(s);
    match MethodRest(s, p)
    case Some((st, b, c, e)) => Some([Some(s[..e]), if p == a then None else Modifier(s, a), st, Some(s[b..c])])
    case None => None
  }

  /** Where the rest of a Java member pattern is matched from: after the
      modifier group when the rest is `found` there, since the optional
      group is tried first, and right after the leading spaces otherwise. */
  function MemberStart(s: string, found: nat -> bool): (p: nat)
    ensures p <= |s|
  {
    var a := Span(Space, s, 0);
    var m := Modifier(s, a);
    if m.Some? && found(a + |m.value|) then a + |m.value| else a
  }

  function MethodRestFound(s: string): nat -> bool {
    (q: nat) => q <= |s| && MethodRest(s, q).Some?
  }

  function MethodStart(s: string): nat {
    MemberStart(s, MethodRestFound(s))
  }

  /** `^\s*(public|private|protected)?\s*(static\s+)?(int|String|double|float|boolean|char)\s+(\w+)`. */
  function JavaFieldMatch(s: string): (r: Option<Groups>)
  {
    var a := Span(Space, s, 0);
    var p := FieldStart(s);
    match FieldRest(s, p)
    case Some((st, ty, b, c)) => Some([Some(s[..c]), if p == a then None else Modifier(s, a), st, Some(ty), Some(s[b..c])])
    case None => None
  }

  function FieldRestFound(s: string): nat -> bool {
    (q: nat) => q <= |s| && FieldRest(s, q).Some?
  }

  function FieldStart(s: string): nat {
    MemberStart(s, FieldRestFound(s))
  }

  /** Every match array has one entry per group plus the matched text, and
      the matched text is a prefix of the line. */
  lemma MatchShaped(p: Pattern, s: string)
    ensures Shaped(Match(p, s), GroupCount(p), s)
  {
    match p
    case HashComment => LeadLitShaped(s, "#");
    case SlashComment => LeadLitShaped(s, "//");
    case BlockComment => LeadLitShaped(s, "/*");
    case StarComment => LeadLitShaped(s, "*");
    case PyDef => NameAfterShaped(s, "def");
    case ClassDecl => NameAfterShaped(s, "class");
    case JsFunction => NameAfterShaped(s, "function");
    case PyAssign => AssignShaped(s);
    case JsFunctionExpr => FunctionExprShaped(s);
    case JsArrow => ArrowShaped(s);
    case PyLoop => LoopShaped(s, false);
    case CStyleLoop => LoopShaped(s, true);
    case PyCondition => PyConditionShaped(s);
    case CStyleCondition => CStyleConditionShaped(s);
    case JsDecl => NameAfterAltShaped(s, DeclKeywords);
    case CppDecl => NameAfterAltShaped(s, CppTypes);
    case CppFunction => CppFunctionShaped(s);
    case JavaClass => JavaClassShaped(s);
    case JavaMethod => JavaMethodShaped(s);
    case JavaField => JavaFieldShaped(s);
  }

  lemma LeadLitShaped(s: string, w: string) ensures Shaped(LeadLitMatch(s, w), 0, s) {}
  lemma NameAfterShaped(s: string, kw: string) ensures Shaped(NameAfter(s, kw), 1, s) {}
  lemma NameAfterAltShaped(s: string, kws: seq<string>) ensures Shaped(NameAfterAlt(s, kws), 2, s) {}
  lemma AssignShaped(s: string) ensures Shaped(AssignMatch(s), 1, s) {}
  lemma FunctionExprShaped(s: string) ensures Shaped(FunctionExprMatch(s), 1, s) {}
  lemma ArrowShaped(s: string) ensures Shaped(ArrowMatch(s), 1, s) {}
  lemma LoopShaped(s: string, paren: bool) ensures Shaped(LoopMatch(s, paren), 1, s) {}
  lemma PyConditionShaped(s: string) ensures Shaped(PyConditionMatch(s), 1, s) {}
  lemma CStyleConditionShaped(s: string) ensures Shaped(CStyleConditionMatch(s), 1, s) {}
  lemma CppFunctionShaped(s: string) ensures Shaped(CppFunctionMatch(s), 1, s) {}
  lemma JavaClassShaped(s: string) ensures Shaped(JavaClassMatch(s), 2, s) {}
  lemma JavaMethodShaped(s: string) ensures Shaped(JavaMethodMatch(s), 3, s) {}
  lemma JavaFieldShaped(s: string) ensures Shaped(JavaFieldMatch(s), 4, s) {}

  /** `re.test(s)`. */
  predicate Test(p: Pattern, s: string) {
    Match(p, s).Some?
  }
}
