/** Each hand-coded matcher accepts exactly the lines its regular expression
    accepts: `Test(p, s) <==> Accepts(Source(p), s)`.

    The proofs go tail by tail. For each tail of a pattern, a predicate
    `...At` says in terms of greedy runs (`Span`) and literal occurrences
    (`LitAt`) when the tail can match from a position; a `...Sound` lemma
    builds the match from it, a `...Complete` lemma recovers it from any
    match, and an `...Iff` lemma ties it to the matcher of `Patterns`. */
module PatternSemantics {
  import opened Options
  import opened Text
  import opened Regex
  import opened Patterns

  // ---------------------------------------------------------------------
  // Alternations of words.

  lemma AltsMatch(ws: seq<string>, s: string, i: int, j: int)
    requires |ws| > 0
    ensures Matches(Alts(ws), s, i, j) <==> 0 <= i <= j <= |s| && s[i..j] in ws
    decreases |ws|
  {
    if |ws| > 1 {
      AltsMatch(ws[1..], s, i, j);
      assert ws == [ws[0]] + ws[1..];
    }
  }

  /** Every word of `ws` is non-empty and starts with a `\w` character. */
  predicate WordStart(ws: seq<string>) {
    forall k :: 0 <= k < |ws| ==> |ws[k]| > 0 && IsWordChar(ws[k][0])
  }

  lemma {:induction false} AltsFirst(ws: seq<string>)
    requires |ws| > 0 && WordStart(ws)
    ensures Stops(Alts(ws), Space)
    decreases |ws|
  {
    assert |ws[0]| > 0 && IsWordChar(ws[0][0]);
    if |ws| > 1 {
      assert WordStart(ws[1..]) by {
        forall k | 0 <= k < |ws| - 1 ensures |ws[1..][k]| > 0 && IsWordChar(ws[1..][k][0]) {
          assert ws[1..][k] == ws[k + 1];
        }
      }
      AltsFirst(ws[1..]);
    }
  }

  const LoopKeywords: seq<string> := ["for", "while"]
  const PyConditionKeywords: seq<string> := ["if", "elif", "else"]

  lemma KeywordListsStartWithWords()
    ensures WordStart(Modifiers) && WordStart(JavaTypes) && WordStart(CppTypes) && WordStart(DeclKeywords)
    ensures WordStart(LoopKeywords) && WordStart(PyConditionKeywords)
  {
  }

  // ---------------------------------------------------------------------
  // The leading `^\s*` of every pattern.

  lemma LeadSound(r: Re, s: string, e: int)
    requires Matches(r, s, Span(Space, s, 0), e)
    ensures Accepts(Cat(Ws0, r), s)
  {
    SpanThen(Space, 0, r, s, 0, e);
  }

  lemma LeadComplete(r: Re, s: string) returns (j: int)
    requires Stops(r, Space) && Accepts(Cat(Ws0, r), s)
    ensures Matches(r, s, Span(Space, s, 0), j)
  {
    j := AcceptsEnd(Cat(Ws0, r), s);
    GreedyStep(Space, 0, r, s, 0, j);
  }

  // ---------------------------------------------------------------------
  // `\s*w` and `w1\s*w2`.

  function SpacedLit(w: string): Re {
    Cat(Ws0, Lit(w))
  }

  lemma SpacedLitSound(w: string, s: string, i: nat) returns (e: int)
    requires i <= |s| && LitAt(s, Span(Space, s, i), w)
    ensures e == Span(Space, s, i) + |w| && Matches(SpacedLit(w), s, i, e)
  {
    e := Span(Space, s, i) + |w|;
    LitAtMatches(w, s, Span(Space, s, i));
    SpanThen(Space, 0, Lit(w), s, i, e);
  }

  lemma SpacedLitComplete(w: string, s: string, i: int, j: int)
    requires |w| > 0 && !IsSpace(w[0]) && Matches(SpacedLit(w), s, i, j)
    ensures 0 <= i <= |s| && LitAt(s, Span(Space, s, i), w) && j == Span(Space, s, i) + |w|
  {
    assert Stops(Lit(w), Space);
    GreedyStep(Space, 0, Lit(w), s, i, j);
    LitMatch(w, s, Span(Space, s, i), j);
  }

  function LitSpacedLit(w1: string, w2: string): Re {
    Cat(Lit(w1), SpacedLit(w2))
  }

  lemma LitSpacedLitSound(w1: string, w2: string, s: string, i: nat) returns (e: int)
    requires LitAt(s, i, w1) && LitAt(s, Span(Space, s, i + |w1|), w2)
    ensures Matches(LitSpacedLit(w1, w2), s, i, e)
  {
    e := SpacedLitSound(w2, s, i + |w1|);
    LitThen(w1, SpacedLit(w2), s, i, e);
  }

  lemma LitSpacedLitComplete(w1: string, w2: string, s: string, i: int, j: int)
    requires |w2| > 0 && !IsSpace(w2[0]) && Matches(LitSpacedLit(w1, w2), s, i, j)
    ensures 0 <= i && LitAt(s, i, w1) && LitAt(s, Span(Space, s, i + |w1|), w2)
  {
    LitStep(w1, SpacedLit(w2), s, i, j);
    SpacedLitComplete(w2, s, i + |w1|, j);
  }

  // ---------------------------------------------------------------------
  // Comments: `^\s*w`.

  lemma LeadLitAgrees(s: string, w: string)
    requires |w| > 0 && !IsSpace(w[0])
    ensures LitAt(s, Span(Space, s, 0), w) <==> Accepts(SpacedLit(w), s)
  {
    if LitAt(s, Span(Space, s, 0), w) {
      var e := SpacedLitSound(w, s, 0);
    }
    if Accepts(SpacedLit(w), s) {
      var j := AcceptsEnd(SpacedLit(w), s);
      SpacedLitComplete(w, s, 0, j);
    }
  }

  // ---------------------------------------------------------------------
  // `kw\s+(\w+)`.

  const WordGroupAfterSpace: Re := Cat(Ws1, Group(Word1))

  function KeywordNameRe(kw: string): Re {
    Cat(Lit(kw), WordGroupAfterSpace)
  }

  lemma KeywordNameStops(kw: string)
    requires |kw| > 0 && !IsSpace(kw[0])
    ensures Stops(KeywordNameRe(kw), Space)
  {
  }

  lemma KeywordNameSound(s: string, i: nat, kw: string) returns (e: int)
    requires i <= |s| && KeywordName(s, i, kw).Some?
    ensures Matches(KeywordNameRe(kw), s, i, e)
  {
    var (b, c) := KeywordName(s, i, kw).value;
    SpanMatches(Word, 1, s, b);
    SpanThen(Space, 1, Group(Word1), s, i + |kw|, c);
    LitThen(kw, WordGroupAfterSpace, s, i, c);
    e := c;
  }

  lemma KeywordNameComplete(s: string, i: int, kw: string, j: int)
    requires Matches(KeywordNameRe(kw), s, i, j)
    ensures 0 <= i <= |s| && KeywordName(s, i, kw).Some?
  {
    assert Stops(Group(Word1), Space);
    LitStep(kw, WordGroupAfterSpace, s, i, j);
    GreedyStep(Space, 1, Group(Word1), s, i + |kw|, j);
    SpanCovers(Word, s, Span(Space, s, i + |kw|), j);
  }

  /** Where `KeywordName` places the name it finds. */
  lemma KeywordNameShape(s: string, i: nat, kw: string)
    requires i <= |s|
    ensures KeywordName(s, i, kw).Some? <==>
      LitAt(s, i, kw) && Span(Space, s, i + |kw|) > i + |kw| && Span(Word, s, Span(Space, s, i + |kw|)) > Span(Space, s, i + |kw|)
    ensures KeywordName(s, i, kw).Some? ==>
      KeywordName(s, i, kw).value == (Span(Space, s, i + |kw|), Span(Word, s, Span(Space, s, i + |kw|)))
  {
  }

  lemma NameAfterAgrees(s: string, kw: string)
    requires |kw| > 0 && !IsSpace(kw[0])
    ensures KeywordName(s, Span(Space, s, 0), kw).Some? <==> Accepts(Cat(Ws0, KeywordNameRe(kw)), s)
  {
    var a := Span(Space, s, 0);
    if KeywordName(s, a, kw).Some? {
      var e := KeywordNameSound(s, a, kw);
      LeadSound(KeywordNameRe(kw), s, e);
    }
    if Accepts(Cat(Ws0, KeywordNameRe(kw)), s) {
      KeywordNameStops(kw);
      var j := LeadComplete(KeywordNameRe(kw), s);
      KeywordNameComplete(s, a, kw, j);
    }
  }

  // ---------------------------------------------------------------------
  // `(kw1|kw2|...)\s+(\w+)`.

  function AltNameRe(kws: seq<string>): Re
    requires |kws| > 0
  {
    Cat(Group(Alts(kws)), WordGroupAfterSpace)
  }

  lemma AltNameStops(kws: seq<string>)
    requires |kws| > 0 && WordStart(kws)
    ensures Stops(AltNameRe(kws), Space)
  {
    AltsFirst(kws);
  }

  lemma AltNameSound(s: string, i: nat, kws: seq<string>) returns (e: int)
    requires |kws| > 0 && i <= |s| && KeywordAltName(s, i, kws, 0).Some?
    ensures Matches(AltNameRe(kws), s, i, e)
  {
    var kw := KeywordAltName(s, i, kws, 0).value.0;
    KeywordAltNameFound(s, i, kws, 0);
    e := KeywordNameSound(s, i, kw);
    LitStep(kw, WordGroupAfterSpace, s, i, e);
    AltsMatch(kws, s, i, i + |kw|);
    CatOf(Group(Alts(kws)), WordGroupAfterSpace, s, i, i + |kw|, e);
  }

  lemma AltNameFrom(s: string, i: nat, kws: seq<string>, k: nat, idx: nat)
    requires i <= |s| && k <= idx < |kws| && KeywordName(s, i, kws[idx]).Some?
    ensures KeywordAltName(s, i, kws, k).Some?
    decreases idx - k
  {
    if k < idx && KeywordName(s, i, kws[k]).None? {
      AltNameFrom(s, i, kws, k + 1, idx);
    }
  }

  lemma AltNameComplete(s: string, i: int, kws: seq<string>, j: int)
    requires |kws| > 0 && Matches(AltNameRe(kws), s, i, j)
    ensures 0 <= i <= |s| && KeywordAltName(s, i, kws, 0).Some?
  {
    var k := CatSplit(Group(Alts(kws)), WordGroupAfterSpace, s, i, j);
    AltsMatch(kws, s, i, k);
    var w := s[i..k];
    var idx :| 0 <= idx < |kws| && kws[idx] == w;
    LitAtMatches(w, s, i);
    CatOf(Lit(w), WordGroupAfterSpace, s, i, k, j);
    KeywordNameComplete(s, i, w, j);
    AltNameFrom(s, i, kws, 0, idx);
  }

  lemma NameAfterAltAgrees(s: string, kws: seq<string>)
    requires |kws| > 0 && WordStart(kws)
    ensures KeywordAltName(s, Span(Space, s, 0), kws, 0).Some? <==> Accepts(Cat(Ws0, AltNameRe(kws)), s)
  {
    var a := Span(Space, s, 0);
    if KeywordAltName(s, a, kws, 0).Some? {
      var e := AltNameSound(s, a, kws);
      LeadSound(AltNameRe(kws), s, e);
    }
    if Accepts(Cat(Ws0, AltNameRe(kws)), s) {
      AltNameStops(kws);
      var j := LeadComplete(AltNameRe(kws), s);
      AltNameComplete(s, a, kws, j);
    }
  }

  // ---------------------------------------------------------------------
  // `(\w+)\s*=`, the tail of `^\s*(\w+)\s*=`.

  const NameEqualsRe: Re := Cat(Group(Word1), SpacedLit("="))

  predicate NameEqualsAt(s: string, a: nat)
    requires a <= |s|
  {
    Span(Word, s, a) > a && LitAt(s, Span(Space, s, Span(Word, s, a)), "=")
  }

  lemma NameEqualsSound(s: string, a: nat) returns (e: int)
    requires a <= |s| && NameEqualsAt(s, a)
    ensures Matches(NameEqualsRe, s, a, e)
  {
    e := SpacedLitSound("=", s, Span(Word, s, a));
    SpanThen(Word, 1, SpacedLit("="), s, a, e);
  }

  lemma NameEqualsComplete(s: string, a: int, j: int)
    requires Matches(NameEqualsRe, s, a, j)
    ensures 0 <= a <= |s| && NameEqualsAt(s, a)
  {
    assert Stops(SpacedLit("="), Word);
    GreedyGroupStep(Word, 1, SpacedLit("="), s, a, j);
    SpacedLitComplete("=", s, Span(Word, s, a), j);
  }

  lemma AssignAgrees(s: string)
    ensures NameEqualsAt(s, Span(Space, s, 0)) <==> Accepts(PyAssignRe, s)
  {
    var a := Span(Space, s, 0);
    if NameEqualsAt(s, a) {
      var e := NameEqualsSound(s, a);
      LeadSound(NameEqualsRe, s, e);
    }
    if Accepts(PyAssignRe, s) {
      assert Stops(NameEqualsRe, Space);
      var j := LeadComplete(NameEqualsRe, s);
      NameEqualsComplete(s, a, j);
    }
  }

  lemma AssignIff(s: string)
    ensures AssignMatch(s).Some? <==> NameEqualsAt(s, Span(Space, s, 0))
  {
  }

  // ---------------------------------------------------------------------
  // `(\w+)\s*=\s*w`, the tail of `^\s*(\w+)\s*=\s*function` and of
  // `^\s*const\s+(\w+)\s*=\s*\(`.

  function NameEqualsThen(w: string): Re {
    Cat(Group(Word1), Cat(Ws0, LitSpacedLit("=", w)))
  }

  /** The name ends at `Span(Word, s, b)`, the `=` sits after the spaces
      that follow it, and `w` after the spaces that follow the `=`. */
  predicate NameEqualsThenAt(s: string, b: nat, w: string)
    requires b <= |s|
  {
    var c := Span(Word, s, b);
    var d := Span(Space, s, c);
    c > b && LitAt(s, d, "=") && LitAt(s, Span(Space, s, d + 1), w)
  }

  lemma NameEqualsThenStops(w: string)
    requires |w| > 0 && !IsSpace(w[0])
    ensures Stops(Cat(Ws0, LitSpacedLit("=", w)), Word) && Stops(LitSpacedLit("=", w), Space)
    ensures Stops(NameEqualsThen(w), Space)
  {
    assert Stops(Lit("="), Word) && Stops(Lit("="), Space);
    assert Stops(LitSpacedLit("=", w), Word);
    assert FirstAvoids(Ws0, Word) && Nullable(Ws0);
  }

  lemma NameEqualsThenSound(w: string, s: string, b: nat) returns (e: int)
    requires b <= |s| && NameEqualsThenAt(s, b, w)
    ensures Matches(NameEqualsThen(w), s, b, e)
  {
    var c := Span(Word, s, b);
    e := LitSpacedLitSound("=", w, s, Span(Space, s, c));
    SpanThen(Space, 0, LitSpacedLit("=", w), s, c, e);
    SpanThen(Word, 1, Cat(Ws0, LitSpacedLit("=", w)), s, b, e);
  }

  lemma NameEqualsThenComplete(w: string, s: string, b: int, j: int)
    requires |w| > 0 && !IsSpace(w[0]) && Matches(NameEqualsThen(w), s, b, j)
    ensures 0 <= b <= |s| && NameEqualsThenAt(s, b, w)
  {
    NameEqualsThenStops(w);
    GreedyGroupStep(Word, 1, Cat(Ws0, LitSpacedLit("=", w)), s, b, j);
    var c := Span(Word, s, b);
    GreedyStep(Space, 0, LitSpacedLit("=", w), s, c, j);
    LitSpacedLitComplete("=", w, s, Span(Space, s, c), j);
  }

  lemma FunctionExprAgrees(s: string)
    ensures NameEqualsThenAt(s, Span(Space, s, 0), "function") <==> Accepts(JsFunctionExprRe, s)
  {
    var a := Span(Space, s, 0);
    if NameEqualsThenAt(s, a, "function") {
      var e := NameEqualsThenSound("function", s, a);
      LeadSound(NameEqualsThen("function"), s, e);
    }
    if Accepts(JsFunctionExprRe, s) {
      NameEqualsThenStops("function");
      var j := LeadComplete(NameEqualsThen("function"), s);
      NameEqualsThenComplete("function", s, a, j);
    }
  }

  lemma FunctionExprIff(s: string)
    ensures FunctionExprMatch(s).Some? <==> NameEqualsThenAt(s, Span(Space, s, 0), "function")
  {
  }

  const ConstNameRe: Re := Cat(Lit("const"), Cat(Ws1, NameEqualsThen("(")))

  predicate ConstNameAt(s: string, a: nat)
    requires a <= |s|
  {
    LitAt(s, a, "const") && Span(Space, s, a + 5) > a + 5 && NameEqualsThenAt(s, Span(Space, s, a + 5), "(")
  }

  lemma ConstNameSound(s: string, a: nat) returns (e: int)
    requires a <= |s| && ConstNameAt(s, a)
    ensures Matches(ConstNameRe, s, a, e)
  {
    e := NameEqualsThenSound("(", s, Span(Space, s, a + 5));
    SpanThen(Space, 1, NameEqualsThen("("), s, a + 5, e);
    LitThen("const", Cat(Ws1, NameEqualsThen("(")), s, a, e);
  }

  lemma ConstNameComplete(s: string, a: int, j: int)
    requires Matches(ConstNameRe, s, a, j)
    ensures 0 <= a <= |s| && ConstNameAt(s, a)
  {
    NameEqualsThenStops("(");
    LitStep("const", Cat(Ws1, NameEqualsThen("(")), s, a, j);
    GreedyStep(Space, 1, NameEqualsThen("("), s, a + 5, j);
    NameEqualsThenComplete("(", s, Span(Space, s, a + 5), j);
  }

  lemma ArrowAgrees(s: string)
    ensures ConstNameAt(s, Span(Space, s, 0)) <==> Accepts(JsArrowRe, s)
  {
    var a := Span(Space, s, 0);
    if ConstNameAt(s, a) {
      var e := ConstNameSound(s, a);
      LeadSound(ConstNameRe, s, e);
    }
    if Accepts(JsArrowRe, s) {
      ArrowComplete(s);
    }
  }

  lemma ConstNameStops()
    ensures Stops(ConstNameRe, Space)
  {
  }

  lemma ArrowComplete(s: string)
    requires Accepts(JsArrowRe, s)
    ensures ConstNameAt(s, Span(Space, s, 0))
  {
    ConstNameStops();
    var j := LeadComplete(ConstNameRe, s);
    ConstNameComplete(s, Span(Space, s, 0), j);
  }

  lemma ArrowIff(s: string)
    ensures ArrowMatch(s).Some? <==> ConstNameAt(s, Span(Space, s, 0))
  {
    var a := Span(Space, s, 0);
    KeywordNameShape(s, a, "const");
  }

  // ---------------------------------------------------------------------
  // Loops: `^\s*(for|while)\s+` and `^\s*(for|while)\s*\(`.

  function LoopTailRe(paren: bool): Re {
    if paren then SpacedLit("(") else Ws1
  }

  function LoopRestRe(paren: bool): Re {
    Cat(Group(Alts(LoopKeywords)), LoopTailRe(paren))
  }

  predicate LoopAt(s: string, a: nat, paren: bool)
    requires a <= |s|
  {
    (LitAt(s, a, "for") && LoopTail(s, a + 3, paren).Some?)
    || (LitAt(s, a, "while") && LoopTail(s, a + 5, paren).Some?)
  }

  lemma LoopTailSound(s: string, i: nat, paren: bool) returns (e: int)
    requires i <= |s| && LoopTail(s, i, paren).Some?
    ensures Matches(LoopTailRe(paren), s, i, e)
  {
    if paren {
      e := SpacedLitSound("(", s, i);
    } else {
      SpanMatches(Space, 1, s, i);
      e := Span(Space, s, i);
    }
  }

  lemma LoopTailComplete(s: string, i: int, paren: bool, j: int)
    requires Matches(LoopTailRe(paren), s, i, j)
    ensures 0 <= i <= |s| && LoopTail(s, i, paren).Some?
  {
    if paren {
      SpacedLitComplete("(", s, i, j);
    } else {
      SpanCovers(Space, s, i, j);
    }
  }

  lemma LoopRestSound(s: string, a: nat, paren: bool) returns (e: int)
    requires a <= |s| && LoopAt(s, a, paren)
    ensures Matches(LoopRestRe(paren), s, a, e)
  {
    var w := if LitAt(s, a, "for") && LoopTail(s, a + 3, paren).Some? then "for" else "while";
    e := LoopTailSound(s, a + |w|, paren);
    AltsMatch(LoopKeywords, s, a, a + |w|);
    CatOf(Group(Alts(LoopKeywords)), LoopTailRe(paren), s, a, a + |w|, e);
  }

  lemma LoopRestComplete(s: string, a: int, paren: bool, j: int)
    requires Matches(LoopRestRe(paren), s, a, j)
    ensures 0 <= a <= |s| && LoopAt(s, a, paren)
  {
    var k := CatSplit(Group(Alts(LoopKeywords)), LoopTailRe(paren), s, a, j);
    AltsMatch(LoopKeywords, s, a, k);
    LoopTailComplete(s, k, paren, j);
    assert s[a..k] == "for" || s[a..k] == "while";
  }

  lemma LoopRestStops(paren: bool)
    ensures Stops(LoopRestRe(paren), Space)
  {
    KeywordListsStartWithWords();
    AltsFirst(LoopKeywords);
  }

  lemma LoopAgrees(s: string, paren: bool)
    ensures LoopAt(s, Span(Space, s, 0), paren) <==> Accepts(Cat(Ws0, LoopRestRe(paren)), s)
  {
    var a := Span(Space, s, 0);
    if LoopAt(s, a, paren) {
      var e := LoopRestSound(s, a, paren);
      LeadSound(LoopRestRe(paren), s, e);
    }
    if Accepts(Cat(Ws0, LoopRestRe(paren)), s) {
      LoopRestStops(paren);
      var j := LeadComplete(LoopRestRe(paren), s);
      LoopRestComplete(s, a, paren, j);
    }
  }

  lemma LoopIff(s: string, paren: bool)
    ensures LoopMatch(s, paren).Some? <==> LoopAt(s, Span(Space, s, 0), paren)
  {
  }

  // ---------------------------------------------------------------------
  // Conditions: `^\s*(if|elif|else)` and `^\s*(if|else\s+if|else)`.

  predicate PyConditionAt(s: string, a: nat) {
    LitAt(s, a, "if") || LitAt(s, a, "elif") || LitAt(s, a, "else")
  }

  lemma PyConditionAgrees(s: string)
    ensures PyConditionAt(s, Span(Space, s, 0)) <==> Accepts(PyConditionRe, s)
  {
    var a := Span(Space, s, 0);
    if PyConditionAt(s, a) {
      var w := if LitAt(s, a, "if") then "if" else if LitAt(s, a, "elif") then "elif" else "else";
      AltsMatch(PyConditionKeywords, s, a, a + |w|);
      LeadSound(Group(Alts(PyConditionKeywords)), s, a + |w|);
    }
    if Accepts(PyConditionRe, s) {
      PyConditionComplete(s);
    }
  }

  lemma PyConditionComplete(s: string)
    requires Accepts(PyConditionRe, s)
    ensures PyConditionAt(s, Span(Space, s, 0))
  {
    KeywordListsStartWithWords();
    AltsFirst(PyConditionKeywords);
    var j := LeadComplete(Group(Alts(PyConditionKeywords)), s);
    var a := Span(Space, s, 0);
    AltsMatch(PyConditionKeywords, s, a, j);
    var w := s[a..j];
    assert LitAt(s, a, w);
    assert w == "if" || w == "elif" || w == "else";
  }

  lemma PyConditionIff(s: string)
    ensures PyConditionMatch(s).Some? <==> PyConditionAt(s, Span(Space, s, 0))
  {
  }

  const ElseIfRe: Re := Cat(Lit("else"), Cat(Ws1, Lit("if")))
  const CStyleConditionAlts: Re := Alt(Lit("if"), Alt(ElseIfRe, Lit("else")))

  predicate CStyleConditionAt(s: string, a: nat) {
    LitAt(s, a, "if") || LitAt(s, a, "else")
  }

  lemma CStyleAltsComplete(s: string, a: int, j: int)
    requires Matches(CStyleConditionAlts, s, a, j)
    ensures 0 <= a && CStyleConditionAt(s, a)
  {
    if Matches(Lit("if"), s, a, j) {
      LitMatch("if", s, a, j);
    } else if Matches(ElseIfRe, s, a, j) {
      LitStep("else", Cat(Ws1, Lit("if")), s, a, j);
    } else {
      LitMatch("else", s, a, j);
    }
  }

  lemma CStyleConditionAgrees(s: string)
    ensures CStyleConditionAt(s, Span(Space, s, 0)) <==> Accepts(CStyleConditionRe, s)
  {
    var a := Span(Space, s, 0);
    if CStyleConditionAt(s, a) {
      var e := CStyleAltsSound(s, a);
      LeadSound(Group(CStyleConditionAlts), s, e);
    }
    if Accepts(CStyleConditionRe, s) {
      CStyleConditionComplete(s);
    }
  }

  lemma CStyleAltsSound(s: string, a: nat) returns (e: int)
    requires CStyleConditionAt(s, a)
    ensures Matches(Group(CStyleConditionAlts), s, a, e)
  {
    if LitAt(s, a, "if") {
      LitAtMatches("if", s, a);
      e := a + 2;
    } else {
      LitAtMatches("else", s, a);
      e := a + 4;
    }
  }

  lemma CStyleConditionStops()
    ensures Stops(Group(CStyleConditionAlts), Space)
  {
  }

  lemma CStyleConditionComplete(s: string)
    requires Accepts(CStyleConditionRe, s)
    ensures CStyleConditionAt(s, Span(Space, s, 0))
  {
    CStyleConditionStops();
    var j := LeadComplete(Group(CStyleConditionAlts), s);
    CStyleAltsComplete(s, Span(Space, s, 0), j);
  }

  lemma CStyleConditionIff(s: string)
    ensures CStyleConditionMatch(s).Some? <==> CStyleConditionAt(s, Span(Space, s, 0))
  {
  }

  // ---------------------------------------------------------------------
  // `\w+\s+(\w+)\s*\(`, shared by C++ functions and Java methods.

  const NameParenRe: Re := Cat(Group(Word1), SpacedLit("("))
  const TailRe: Re := Cat(Word1, Cat(Ws1, NameParenRe))

  predicate NameParenAt(s: string, b: nat)
    requires b <= |s|
  {
    Span(Word, s, b) > b && LitAt(s, Span(Space, s, Span(Word, s, b)), "(")
  }

  /** Two words, the second followed by `(` after optional spaces. */
  predicate TailAt(s: string, q: nat)
    requires q <= |s|
  {
    var w1 := Span(Word, s, q);
    w1 > q && Span(Space, s, w1) > w1 && NameParenAt(s, Span(Space, s, w1))
  }

  lemma TailIff(s: string, q: nat)
    requires q <= |s|
    ensures WordWordParen(s, q).Some? <==> TailAt(s, q)
  {
  }

  lemma NameParenSound(s: string, b: nat) returns (e: int)
    requires b <= |s| && NameParenAt(s, b)
    ensures Matches(NameParenRe, s, b, e)
  {
    e := SpacedLitSound("(", s, Span(Word, s, b));
    SpanThen(Word, 1, SpacedLit("("), s, b, e);
  }

  lemma NameParenComplete(s: string, b: int, j: int)
    requires Matches(NameParenRe, s, b, j)
    ensures 0 <= b <= |s| && NameParenAt(s, b)
  {
    assert Stops(SpacedLit("("), Word);
    GreedyGroupStep(Word, 1, SpacedLit("("), s, b, j);
    SpacedLitComplete("(", s, Span(Word, s, b), j);
  }

  lemma TailSound(s: string, q: nat) returns (e: int)
    requires q <= |s| && TailAt(s, q)
    ensures Matches(TailRe, s, q, e)
  {
    var w1 := Span(Word, s, q);
    e := NameParenSound(s, Span(Space, s, w1));
    SpanThen(Space, 1, NameParenRe, s, w1, e);
    SpanThen(Word, 1, Cat(Ws1, NameParenRe), s, q, e);
  }

  lemma TailComplete(s: string, q: int, j: int)
    requires Matches(TailRe, s, q, j)
    ensures 0 <= q <= |s| && TailAt(s, q)
  {
    assert Stops(Cat(Ws1, NameParenRe), Word);
    assert Stops(NameParenRe, Space);
    GreedyStep(Word, 1, Cat(Ws1, NameParenRe), s, q, j);
    var w1 := Span(Word, s, q);
    GreedyStep(Space, 1, NameParenRe, s, w1, j);
    NameParenComplete(s, Span(Space, s, w1), j);
  }

  lemma TailStops()
    ensures Stops(TailRe, Space)
  {
  }

  lemma CppFunctionAgrees(s: string)
    ensures TailAt(s, Span(Space, s, 0)) <==> Accepts(CppFunctionRe, s)
  {
    var a := Span(Space, s, 0);
    if TailAt(s, a) {
      var e := TailSound(s, a);
      LeadSound(TailRe, s, e);
    }
    if Accepts(CppFunctionRe, s) {
      TailStops();
      var j := LeadComplete(TailRe, s);
      TailComplete(s, a, j);
    }
  }

  lemma CppFunctionIff(s: string)
    ensures CppFunctionMatch(s).Some? <==> TailAt(s, Span(Space, s, 0))
  {
    TailIff(s, Span(Space, s, 0));
  }

  // ---------------------------------------------------------------------
  // Optional `w\s+` groups: `(public\s+)?` and `(static\s+)?`.

  function WordSpace(w: string): Re {
    Cat(Lit(w), Ws1)
  }

  function OptWordSpace(w: string): Re {
    Opt(Group(WordSpace(w)))
  }

  /** `w` followed by at least one space at `q`: the group ends where the
      run of spaces ends. */
  predicate WordSpaceAt(s: string, q: nat, w: string)
    requires q <= |s|
  {
    LitAt(s, q, w) && Span(Space, s, q + |w|) > q + |w|
  }

  /** When the optional group is taken, it ends where the spaces after `w`
      end, since what follows cannot begin with a space. */
  lemma WordSpaceEnd(w: string, r: Re, s: string, q: int, k: int, j: int)
    requires Matches(WordSpace(w), s, q, k) && Matches(r, s, k, j) && Stops(r, Space)
    ensures 0 <= q <= |s| && WordSpaceAt(s, q, w) && k == Span(Space, s, q + |w|)
  {
    LitStep(w, Ws1, s, q, k);
    NonEmpty(r, s, k, j);
    FirstChar(r, Space, s, k, j);
    ManyEnd(Space, 1, s, q + |w|, k);
  }

  lemma WordSpaceSound(w: string, s: string, q: nat)
    requires q <= |s| && WordSpaceAt(s, q, w)
    ensures Matches(OptWordSpace(w), s, q, Span(Space, s, q + |w|))
  {
    SpanMatches(Space, 1, s, q + |w|);
    LitThen(w, Ws1, s, q, Span(Space, s, q + |w|));
    assert Matches(Group(WordSpace(w)), s, q, Span(Space, s, q + |w|));
  }

  /** Either the optional group is skipped, or it is `w` and the spaces after it. */
  lemma OptWordSpaceEnd(w: string, r: Re, s: string, q: int, k: int, j: int)
    requires Matches(OptWordSpace(w), s, q, k) && Matches(r, s, k, j) && Stops(r, Space)
    ensures k == q || (0 <= q <= |s| && WordSpaceAt(s, q, w) && k == Span(Space, s, q + |w|))
  {
    if k != q {
      WordSpaceEnd(w, r, s, q, k, j);
    }
  }

  /** How the optional group can end: skipped, or after `w` and its spaces. */
  predicate OptWordSpaceEnds(s: string, q: int, k: int, w: string) {
    k == q || (0 <= q <= |s| && WordSpaceAt(s, q, w) && k == Span(Space, s, q + |w|))
  }

  // ---------------------------------------------------------------------
  // `(public\s+)?class\s+(\w+)`.

  const PublicClassRe: Re := Cat(OptWordSpace("public"), KeywordNameRe("class"))

  predicate PublicClassAt(s: string, a: nat)
    requires a <= |s|
  {
    (WordSpaceAt(s, a, "public") && KeywordName(s, Span(Space, s, a + 6), "class").Some?)
    || KeywordName(s, a, "class").Some?
  }

  lemma PublicClassSound(s: string, a: nat) returns (e: int)
    requires a <= |s| && PublicClassAt(s, a)
    ensures Matches(PublicClassRe, s, a, e)
  {
    if WordSpaceAt(s, a, "public") && KeywordName(s, Span(Space, s, a + 6), "class").Some? {
      var t := Span(Space, s, a + 6);
      e := KeywordNameSound(s, t, "class");
      WordSpaceSound("public", s, a);
      CatOf(OptWordSpace("public"), KeywordNameRe("class"), s, a, t, e);
    } else {
      e := KeywordNameSound(s, a, "class");
      CatOf(OptWordSpace("public"), KeywordNameRe("class"), s, a, a, e);
    }
  }

  lemma PublicClassComplete(s: string, a: int, j: int)
    requires Matches(PublicClassRe, s, a, j)
    ensures 0 <= a <= |s| && PublicClassAt(s, a)
  {
    var k := CatSplit(OptWordSpace("public"), KeywordNameRe("class"), s, a, j);
    KeywordNameComplete(s, k, "class", j);
    KeywordNameStops("class");
    OptWordSpaceEnd("public", KeywordNameRe("class"), s, a, k, j);
    PublicClassFrom(s, a, k);
  }

  lemma PublicClassFrom(s: string, a: int, k: int)
    requires 0 <= k <= |s| && KeywordName(s, k, "class").Some? && OptWordSpaceEnds(s, a, k, "public")
    ensures 0 <= a <= |s| && PublicClassAt(s, a)
  {
  }

  lemma PublicClassStops()
    ensures Stops(PublicClassRe, Space)
  {
    KeywordNameStops("class");
  }

  lemma JavaClassAgrees(s: string)
    ensures PublicClassAt(s, Span(Space, s, 0)) <==> Accepts(JavaClassRe, s)
  {
    var a := Span(Space, s, 0);
    if PublicClassAt(s, a) {
      var e := PublicClassSound(s, a);
      LeadSound(PublicClassRe, s, e);
    }
    if Accepts(JavaClassRe, s) {
      JavaClassComplete(s);
    }
  }

  lemma JavaClassComplete(s: string)
    requires Accepts(JavaClassRe, s)
    ensures PublicClassAt(s, Span(Space, s, 0))
  {
    PublicClassStops();
    var j := LeadComplete(PublicClassRe, s);
    PublicClassComplete(s, Span(Space, s, 0), j);
  }

  lemma JavaClassIff(s: string)
    ensures JavaClassMatch(s).Some? <==> PublicClassAt(s, Span(Space, s, 0))
  {
  }

  // ---------------------------------------------------------------------
  // Java methods and fields: `(public|private|protected)?\s*(static\s+)?...`.

  const StaticTailRe: Re := Cat(OptWordSpace("static"), TailRe)
  const MethodRestRe: Re := Cat(Ws0, StaticTailRe)
  const StaticTypeNameRe: Re := Cat(OptWordSpace("static"), AltNameRe(JavaTypes))
  const FieldRestRe: Re := Cat(Ws0, StaticTypeNameRe)
  const ModifierRe: Re := Opt(Group(Alts(Modifiers)))

  predicate StaticTailAt(s: string, q: nat)
    requires q <= |s|
  {
    (WordSpaceAt(s, q, "static") && TailAt(s, Span(Space, s, q + 6))) || TailAt(s, q)
  }

  /** When `MethodRest` succeeds, in terms of `WordWordParen`. */
  lemma MethodRestSome(s: string, p: nat)
    requires p <= |s|
    ensures var q := Span(Space, s, p);
      MethodRest(s, p).Some? <==>
        (WordSpaceAt(s, q, "static") && WordWordParen(s, Span(Space, s, q + 6)).Some?) || WordWordParen(s, q).Some?
  {
    var q := Span(Space, s, p);
    if WordSpaceAt(s, q, "static") && WordWordParen(s, Span(Space, s, q + 6)).Some? {
      var r := WordWordParen(s, Span(Space, s, q + 6)).value;
      assert MethodRest(s, p) == Some((Some(s[q..Span(Space, s, q + 6)]), r.0, r.1, r.2));
    } else if WordWordParen(s, q).Some? {
      var r := WordWordParen(s, q).value;
      assert MethodRest(s, p) == Some((None, r.0, r.1, r.2));
    }
  }

  lemma MethodRestIff(s: string, p: nat)
    requires p <= |s|
    ensures MethodRest(s, p).Some? <==> StaticTailAt(s, Span(Space, s, p))
  {
    var q := Span(Space, s, p);
    MethodRestSome(s, p);
    TailIff(s, q);
    if LitAt(s, q, "static") {
      TailIff(s, Span(Space, s, q + 6));
    }
  }

  lemma StaticTailSound(s: string, q: nat) returns (e: int)
    requires q <= |s| && StaticTailAt(s, q)
    ensures Matches(StaticTailRe, s, q, e)
  {
    if WordSpaceAt(s, q, "static") && TailAt(s, Span(Space, s, q + 6)) {
      var t := Span(Space, s, q + 6);
      e := TailSound(s, t);
      WordSpaceSound("static", s, q);
      CatOf(OptWordSpace("static"), TailRe, s, q, t, e);
    } else {
      e := TailSound(s, q);
      CatOf(OptWordSpace("static"), TailRe, s, q, q, e);
    }
  }

  lemma StaticTailComplete(s: string, q: int, j: int)
    requires Matches(StaticTailRe, s, q, j)
    ensures 0 <= q <= |s| && StaticTailAt(s, q)
  {
    var k := CatSplit(OptWordSpace("static"), TailRe, s, q, j);
    TailComplete(s, k, j);
    TailStops();
    OptWordSpaceEnd("static", TailRe, s, q, k, j);
    StaticTailFrom(s, q, k);
  }

  lemma StaticTailFrom(s: string, q: int, k: int)
    requires 0 <= k <= |s| && TailAt(s, k) && OptWordSpaceEnds(s, q, k, "static")
    ensures 0 <= q <= |s| && StaticTailAt(s, q)
  {
  }

  lemma StaticTailStops()
    ensures Stops(StaticTailRe, Space)
  {
    TailStops();
  }

  lemma MethodRestSound(s: string, p: nat) returns (e: int)
    requires p <= |s| && StaticTailAt(s, Span(Space, s, p))
    ensures Matches(MethodRestRe, s, p, e)
  {
    e := StaticTailSound(s, Span(Space, s, p));
    SpanThen(Space, 0, StaticTailRe, s, p, e);
  }

  lemma MethodRestComplete(s: string, p: int, j: int)
    requires Matches(MethodRestRe, s, p, j)
    ensures 0 <= p <= |s| && StaticTailAt(s, Span(Space, s, p))
  {
    StaticTailStops();
    GreedyStep(Space, 0, StaticTailRe, s, p, j);
    StaticTailComplete(s, Span(Space, s, p), j);
  }

  predicate StaticTypeNameAt(s: string, q: nat)
    requires q <= |s|
  {
    (WordSpaceAt(s, q, "static") && KeywordAltName(s, Span(Space, s, q + 6), JavaTypes, 0).Some?)
    || KeywordAltName(s, q, JavaTypes, 0).Some?
  }

  lemma FieldRestIff(s: string, p: nat)
    requires p <= |s|
    ensures FieldRest(s, p).Some? <==> StaticTypeNameAt(s, Span(Space, s, p))
  {
    var q := Span(Space, s, p);
    if WordSpaceAt(s, q, "static") && KeywordAltName(s, Span(Space, s, q + 6), JavaTypes, 0).Some? {
      var r := KeywordAltName(s, Span(Space, s, q + 6), JavaTypes, 0).value;
      assert FieldRest(s, p) == Some((Some(s[q..Span(Space, s, q + 6)]), r.0, r.1, r.2));
    } else if KeywordAltName(s, q, JavaTypes, 0).Some? {
      var r := KeywordAltName(s, q, JavaTypes, 0).value;
      assert FieldRest(s, p) == Some((None, r.0, r.1, r.2));
    }
  }

  lemma StaticTypeNameSound(s: string, q: nat) returns (e: int)
    requires q <= |s| && StaticTypeNameAt(s, q)
    ensures Matches(StaticTypeNameRe, s, q, e)
  {
    if WordSpaceAt(s, q, "static") && KeywordAltName(s, Span(Space, s, q + 6), JavaTypes, 0).Some? {
      var t := Span(Space, s, q + 6);
      e := AltNameSound(s, t, JavaTypes);
      WordSpaceSound("static", s, q);
      CatOf(OptWordSpace("static"), AltNameRe(JavaTypes), s, q, t, e);
    } else {
      e := AltNameSound(s, q, JavaTypes);
      CatOf(OptWordSpace("static"), AltNameRe(JavaTypes), s, q, q, e);
    }
  }

  lemma StaticTypeNameComplete(s: string, q: int, j: int)
    requires Matches(StaticTypeNameRe, s, q, j)
    ensures 0 <= q <= |s| && StaticTypeNameAt(s, q)
  {
    var k := CatSplit(OptWordSpace("static"), AltNameRe(JavaTypes), s, q, j);
    AltNameComplete(s, k, JavaTypes, j);
    KeywordListsStartWithWords();
    AltNameStops(JavaTypes);
    OptWordSpaceEnd("static", AltNameRe(JavaTypes), s, q, k, j);
    StaticTypeNameFrom(s, q, k);
  }

  lemma StaticTypeNameFrom(s: string, q: int, k: int)
    requires 0 <= k <= |s| && KeywordAltName(s, k, JavaTypes, 0).Some? && OptWordSpaceEnds(s, q, k, "static")
    ensures 0 <= q <= |s| && StaticTypeNameAt(s, q)
  {
  }

  lemma StaticTypeNameStops()
    ensures Stops(StaticTypeNameRe, Space)
  {
    KeywordListsStartWithWords();
    AltNameStops(JavaTypes);
  }

  lemma FieldRestSound(s: string, p: nat) returns (e: int)
    requires p <= |s| && StaticTypeNameAt(s, Span(Space, s, p))
    ensures Matches(FieldRestRe, s, p, e)
  {
    e := StaticTypeNameSound(s, Span(Space, s, p));
    SpanThen(Space, 0, StaticTypeNameRe, s, p, e);
  }

  lemma FieldRestComplete(s: string, p: int, j: int)
    requires Matches(FieldRestRe, s, p, j)
    ensures 0 <= p <= |s| && StaticTypeNameAt(s, Span(Space, s, p))
  {
    StaticTypeNameStops();
    GreedyStep(Space, 0, StaticTypeNameRe, s, p, j);
    StaticTypeNameComplete(s, Span(Space, s, p), j);
  }

  /** The modifier that occurs is the one `Modifier` reports. */
  lemma ModifierExact(s: string, i: nat, w: string)
    requires w in Modifiers && LitAt(s, i, w)
    ensures Modifier(s, i) == Some(w)
  {
    assert s[i + 1] == s[i..i + |w|][1] == w[1];
    assert s[i + 2] == s[i..i + |w|][2] == w[2];
  }

  /** The leading `\s*` of the Java patterns may stop short of the greedy
      run, since the `\s*` after the optional modifier takes the rest: the
      rest of the pattern then sees the same greedy run. */
  lemma LeadingSpaces(s: string, k: int)
    requires Matches(Ws0, s, 0, k)
    ensures k <= Span(Space, s, 0) && Span(Space, s, k) == Span(Space, s, 0)
  {
    SpanCovers(Space, s, 0, k);
    SpanAllIn(Space, s, 0);
    SpanUnique(Space, s, k, Span(Space, s, 0));
  }

  /** A modifier matched right after the leading spaces is the one
      `Modifier` reports there. */
  lemma ModifierAt(s: string, k1: int, k2: int)
    requires Matches(Ws0, s, 0, k1) && Matches(Group(Alts(Modifiers)), s, k1, k2)
    ensures k1 == Span(Space, s, 0) && Modifier(s, k1).Some? && k2 == k1 + |Modifier(s, k1).value|
  {
    KeywordListsStartWithWords();
    AltsFirst(Modifiers);
    AltsMatch(Modifiers, s, k1, k2);
    NonEmpty(Alts(Modifiers), s, k1, k2);
    FirstChar(Alts(Modifiers), Space, s, k1, k2);
    ManyEnd(Space, 0, s, 0, k1);
    ModifierExact(s, k1, s[k1..k2]);
  }

  /** The modifier reported at `a` matches the modifier group. */
  lemma ModifierSound(s: string, a: nat)
    requires Modifier(s, a).Some?
    ensures Matches(ModifierRe, s, a, a + |Modifier(s, a).value|)
  {
    ModifierFound(s, a);
    AltsMatch(Modifiers, s, a, a + |Modifier(s, a).value|);
  }


  /** The three pieces of a Java member pattern after `^`: the leading
      spaces end at `k1`, the optional modifier at `k2`. */
  lemma ModifierSplit(rest: Re, s: string) returns (k1: int, k2: int, j: int)
    requires Accepts(Cat(Ws0, Cat(ModifierRe, rest)), s)
    ensures Matches(Ws0, s, 0, k1) && Matches(ModifierRe, s, k1, k2) && Matches(rest, s, k2, j)
    ensures k1 == k2 || Matches(Group(Alts(Modifiers)), s, k1, k2)
  {
    j := AcceptsEnd(Cat(Ws0, Cat(ModifierRe, rest)), s);
    k1 := CatSplit(Ws0, Cat(ModifierRe, rest), s, 0, j);
    k2 := CatSplit(ModifierRe, rest, s, k1, j);
  }

  /** After the leading spaces, either straight away or after the modifier
      `Modifier` reports there, the greedy run of spaces from `p` ends
      where the rest of a Java member pattern starts. */
  predicate ModifierStart(s: string, p: int) {
    var a := Span(Space, s, 0);
    0 <= p <= |s| &&
    ((Span(Space, s, p) == a) || (Modifier(s, a).Some? && p == a + |Modifier(s, a).value|))
  }

  /** Where the rest of a Java member pattern starts, given how the
      leading spaces and the optional modifier were matched. */
  lemma ModifierEnd(s: string, k1: int, k2: int)
    requires Matches(Ws0, s, 0, k1) && Matches(ModifierRe, s, k1, k2)
    requires k1 == k2 || Matches(Group(Alts(Modifiers)), s, k1, k2)
    ensures ModifierStart(s, k2)
  {
    if k2 == k1 {
      LeadingSpaces(s, k1);
    } else {
      ModifierAt(s, k1, k2);
    }
  }

  /** `MemberStart` is right after the leading spaces or right after the modifier. */
  lemma MemberStartCases(s: string, found: nat -> bool)
    ensures var a := Span(Space, s, 0);
      MemberStart(s, found) == a || (Modifier(s, a).Some? && MemberStart(s, found) == a + |Modifier(s, a).value|)
  {
  }

  /** If `found` tells where the rest holds, a start picked that way is
      one the rest holds from whenever some allowed start is. */
  lemma StartBest(s: string, p: int, rest: nat -> bool, found: nat -> bool)
    requires ModifierStart(s, p) && rest(Span(Space, s, p))
    requires forall q: nat :: q <= |s| ==> (found(q) <==> rest(Span(Space, s, q)))
    ensures rest(Span(Space, s, MemberStart(s, found)))
  {
    var a := Span(Space, s, 0);
    SpanUnique(Space, s, a, a);
    if Modifier(s, a).Some? {
      assert found(a + |Modifier(s, a).value|) <==> rest(Span(Space, s, a + |Modifier(s, a).value|));
    }
  }

  /** The rest of the Java method pattern holds from where the matcher
      tries it. */
  predicate JavaMethodAt(s: string) {
    StaticTailAt(s, Span(Space, s, MethodStart(s)))
  }

  /** If the rest holds from some place the pattern allows, it holds from
      the place the matcher tries. */
  function MethodTailAt(s: string): nat -> bool {
    (q: nat) => q <= |s| && StaticTailAt(s, q)
  }

  lemma MethodRestFoundIff(s: string)
    ensures forall q: nat :: q <= |s| ==> (MethodRestFound(s)(q) <==> MethodTailAt(s)(Span(Space, s, q)))
  {
    forall q: nat | q <= |s|
      ensures MethodRestFound(s)(q) <==> MethodTailAt(s)(Span(Space, s, q))
    {
      MethodRestIff(s, q);
    }
  }

  lemma MethodStartBest(s: string, p: int)
    requires ModifierStart(s, p) && StaticTailAt(s, Span(Space, s, p))
    ensures JavaMethodAt(s)
  {
    MethodRestFoundIff(s);
    StartBest(s, p, MethodTailAt(s), MethodRestFound(s));
  }

  lemma JavaMethodSoundAt(s: string, p: nat, e: int, withModifier: bool)
    requires Matches(MethodRestRe, s, p, e)
    requires withModifier ==> Modifier(s, Span(Space, s, 0)).Some? && p == Span(Space, s, 0) + |Modifier(s, Span(Space, s, 0)).value|
    requires !withModifier ==> p == Span(Space, s, 0)
    ensures Accepts(JavaMethodRe, s)
  {
    var a := Span(Space, s, 0);
    if withModifier {
      ModifierSound(s, a);
    }
    CatOf(ModifierRe, MethodRestRe, s, a, p, e);
    LeadSound(Cat(ModifierRe, MethodRestRe), s, e);
  }

  lemma JavaMethodSound(s: string)
    requires JavaMethodAt(s)
    ensures Accepts(JavaMethodRe, s)
  {
    MemberStartCases(s, MethodRestFound(s));
    var e := MethodRestSound(s, MethodStart(s));
    JavaMethodSoundAt(s, MethodStart(s), e, MethodStart(s) != Span(Space, s, 0));
  }

  lemma JavaMethodComplete(s: string)
    requires Accepts(JavaMethodRe, s)
    ensures JavaMethodAt(s)
  {
    var k1, k2, j := ModifierSplit(MethodRestRe, s);
    MethodRestComplete(s, k2, j);
    ModifierEnd(s, k1, k2);
    MethodStartBest(s, k2);
  }

  lemma JavaMethodAgrees(s: string)
    ensures JavaMethodAt(s) <==> Accepts(JavaMethodRe, s)
  {
    if JavaMethodAt(s) {
      JavaMethodSound(s);
    }
    if Accepts(JavaMethodRe, s) {
      JavaMethodComplete(s);
    }
  }

  lemma JavaMethodMatchSome(s: string)
    ensures JavaMethodMatch(s).Some? <==> MethodRest(s, MethodStart(s)).Some?
  {
  }

  lemma JavaMethodIff(s: string)
    ensures JavaMethodMatch(s).Some? <==> JavaMethodAt(s)
  {
    JavaMethodMatchSome(s);
    MethodRestIff(s, MethodStart(s));
  }

  /** The rest of the Java field pattern holds from where the matcher
      tries it. */
  predicate JavaFieldAt(s: string) {
    StaticTypeNameAt(s, Span(Space, s, FieldStart(s)))
  }

  /** If the rest holds from some place the pattern allows, it holds from
      the place the matcher tries. */
  function FieldTailAt(s: string): nat -> bool {
    (q: nat) => q <= |s| && StaticTypeNameAt(s, q)
  }

  lemma FieldRestFoundIff(s: string)
    ensures forall q: nat :: q <= |s| ==> (FieldRestFound(s)(q) <==> FieldTailAt(s)(Span(Space, s, q)))
  {
    forall q: nat | q <= |s|
      ensures FieldRestFound(s)(q) <==> FieldTailAt(s)(Span(Space, s, q))
    {
      FieldRestIff(s, q);
    }
  }

  lemma FieldStartBest(s: string, p: int)
    requires ModifierStart(s, p) && StaticTypeNameAt(s, Span(Space, s, p))
    ensures JavaFieldAt(s)
  {
    FieldRestFoundIff(s);
    StartBest(s, p, FieldTailAt(s), FieldRestFound(s));
  }

  lemma JavaFieldSoundAt(s: string, p: nat, e: int, withModifier: bool)
    requires Matches(FieldRestRe, s, p, e)
    requires withModifier ==> Modifier(s, Span(Space, s, 0)).Some? && p == Span(Space, s, 0) + |Modifier(s, Span(Space, s, 0)).value|
    requires !withModifier ==> p == Span(Space, s, 0)
    ensures Accepts(JavaFieldRe, s)
  {
    var a := Span(Space, s, 0);
    if withModifier {
      ModifierSound(s, a);
    }
    CatOf(ModifierRe, FieldRestRe, s, a, p, e);
    LeadSound(Cat(ModifierRe, FieldRestRe), s, e);
  }

  lemma JavaFieldSound(s: string)
    requires JavaFieldAt(s)
    ensures Accepts(JavaFieldRe, s)
  {
    MemberStartCases(s, FieldRestFound(s));
    var e := FieldRestSound(s, FieldStart(s));
    JavaFieldSoundAt(s, FieldStart(s), e, FieldStart(s) != Span(Space, s, 0));
  }

  lemma JavaFieldComplete(s: string)
    requires Accepts(JavaFieldRe, s)
    ensures JavaFieldAt(s)
  {
    var k1, k2, j := ModifierSplit(FieldRestRe, s);
    FieldRestComplete(s, k2, j);
    ModifierEnd(s, k1, k2);
    FieldStartBest(s, k2);
  }

  lemma JavaFieldAgrees(s: string)
    ensures JavaFieldAt(s) <==> Accepts(JavaFieldRe, s)
  {
    if JavaFieldAt(s) {
      JavaFieldSound(s);
    }
    if Accepts(JavaFieldRe, s) {
      JavaFieldComplete(s);
    }
  }

  lemma JavaFieldMatchSome(s: string)
    ensures JavaFieldMatch(s).Some? <==> FieldRest(s, FieldStart(s)).Some?
  {
  }

  lemma JavaFieldIff(s: string)
    ensures JavaFieldMatch(s).Some? <==> JavaFieldAt(s)
  {
    JavaFieldMatchSome(s);
    FieldRestIff(s, FieldStart(s));
  }

  // ---------------------------------------------------------------------

  /** The hand-coded matcher of every pattern accepts exactly the lines that
      the pattern's regular expression accepts. */
  lemma TestAgreesWithSource(p: Pattern, s: string)
    ensures Test(p, s) <==> Accepts(Source(p), s)
  {
    KeywordListsStartWithWords();
    match p
    case HashComment => LeadLitAgrees(s, "#");
    case SlashComment => LeadLitAgrees(s, "//");
    case BlockComment => LeadLitAgrees(s, "/*");
    case StarComment => LeadLitAgrees(s, "*");
    case PyDef => NameAfterAgrees(s, "def");
    case ClassDecl => NameAfterAgrees(s, "class");
    case JsFunction => NameAfterAgrees(s, "function");
    case JsDecl => NameAfterAltAgrees(s, DeclKeywords);
    case CppDecl => NameAfterAltAgrees(s, CppTypes);
    case PyAssign => AssignAgrees(s); AssignIff(s);
    case JsFunctionExpr => FunctionExprAgrees(s); FunctionExprIff(s);
    case JsArrow => ArrowAgrees(s); ArrowIff(s);
    case PyLoop => LoopAgrees(s, false); LoopIff(s, false);
    case CStyleLoop => LoopAgrees(s, true); LoopIff(s, true);
    case PyCondition => PyConditionAgrees(s); PyConditionIff(s);
    case CStyleCondition => CStyleConditionAgrees(s); CStyleConditionIff(s);
    case CppFunction => CppFunctionAgrees(s); CppFunctionIff(s);
    case JavaClass => JavaClassAgrees(s); JavaClassIff(s);
    case JavaMethod => JavaMethodAgrees(s); JavaMethodIff(s);
    case JavaField => JavaFieldAgrees(s); JavaFieldIff(s);
  }
}
