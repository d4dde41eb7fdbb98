/** A reference semantics for the fragment of JavaScript regular-expression
    syntax that the rule tables use. It says which strings a pattern accepts
    and serves as the yardstick for the hand-written matchers. It is not an
    engine: it does not say which match backtracking finds first, and it
    ignores captures. */
module Regex {
  import opened Text

  datatype Re =
    | Lit(text: string)              // literal characters, e.g. `def` or `\(`
    | Many(cls: CharClass, min: nat) // `\s*` (min 0), `\s+` and `\w+` (min 1)
    | Cat(first: Re, second: Re)     // juxtaposition
    | Alt(left: Re, right: Re)       // `a|b`
    | Opt(body: Re)                  // `(...)?`
    | Group(body: Re)                // `(...)`: a capture does not change what matches

  /** `s[i..j]` is in the language of `r`. */
  ghost predicate Matches(r: Re, s: string, i: int, j: int)
    decreases r
  {
    0 <= i <= j <= |s| &&
    match r
    case Lit(w) => s[i..j] == w
    case Many(c, m) => j - i >= m && AllIn(c, s, i, j)
    case Cat(a, b) => exists k :: i <= k <= j && Matches(a, s, i, k) && Matches(b, s, k, j)
    case Alt(a, b) => Matches(a, s, i, j) || Matches(b, s, i, j)
    case Opt(a) => i == j || Matches(a, s, i, j)
    case Group(a) => Matches(a, s, i, j)
  }

  /** `re.test(s)` for a pattern anchored by `^`, without the `g` flag (so
      the test keeps no state between calls): some prefix of `s` is in the
      language of `r`. */
  ghost predicate Accepts(r: Re, s: string) {
    exists j :: 0 <= j <= |s| && Matches(r, s, 0, j)
  }

  /** Picks the split point of a concatenation match. */
  lemma CatSplit(a: Re, b: Re, s: string, i: int, j: int) returns (k: int)
    requires Matches(Cat(a, b), s, i, j)
    ensures i <= k <= j && Matches(a, s, i, k) && Matches(b, s, k, j)
  {
    k :| i <= k <= j && Matches(a, s, i, k) && Matches(b, s, k, j);
  }

  /** Picks the end of an accepted prefix. */
  lemma AcceptsEnd(r: Re, s: string) returns (j: int)
    requires Accepts(r, s)
    ensures 0 <= j <= |s| && Matches(r, s, 0, j)
  {
    j :| 0 <= j <= |s| && Matches(r, s, 0, j);
  }

  /** A repetition followed by a character outside its class ends where
      the greedy run ends. */
  lemma ManyEnd(c: CharClass, m: nat, s: string, i: int, k: int)
    requires Matches(Many(c, m), s, i, k)
    requires k < |s| ==> !InClass(c, s[k])
    ensures k == Span(c, s, i)
  {
    SpanUnique(c, s, i, k);
  }

  /** The greedy run of `c` from `i` matches `Many(c, m)` when it is long enough. */
  lemma SpanMatches(c: CharClass, m: nat, s: string, i: nat)
    requires i <= |s| && Span(c, s, i) - i >= m
    ensures Matches(Many(c, m), s, i, Span(c, s, i))
  {
    SpanAllIn(c, s, i);
  }

  /** Joins two adjacent matches into a match of their concatenation. */
  lemma CatOf(a: Re, b: Re, s: string, i: int, k: int, j: int)
    requires Matches(a, s, i, k) && Matches(b, s, k, j)
    ensures Matches(Cat(a, b), s, i, j)
  {
  }

  /** A literal matches exactly where it occurs. */
  lemma LitMatch(w: string, s: string, i: int, j: int)
    requires Matches(Lit(w), s, i, j)
    ensures j == i + |w| && LitAt(s, i, w)
  {
  }

  lemma LitAtMatches(w: string, s: string, i: nat)
    requires LitAt(s, i, w)
    ensures Matches(Lit(w), s, i, i + |w|)
  {
  }

  /** `r` can match the empty string. */
  function Nullable(r: Re): bool {
    match r
    case Lit(w) => w == []
    case Many(_, m) => m == 0
    case Cat(a, b) => Nullable(a) && Nullable(b)
    case Alt(a, b) => Nullable(a) || Nullable(b)
    case Opt(_) => true
    case Group(a) => Nullable(a)
  }

  /** No non-empty match of `r` starts with a character of class `c`. */
  function FirstAvoids(r: Re, c: CharClass): bool {
    match r
    case Lit(w) => w == [] || !InClass(c, w[0])
    case Many(d, _) => d != c
    case Cat(a, b) => FirstAvoids(a, c) && (!Nullable(a) || FirstAvoids(b, c))
    case Alt(a, b) => FirstAvoids(a, c) && FirstAvoids(b, c)
    case Opt(a) => FirstAvoids(a, c)
    case Group(a) => FirstAvoids(a, c)
  }

  /** `r` neither matches the empty string nor starts with a character of
      class `c`, so a greedy run of `c` before it cannot give anything back. */
  predicate Stops(r: Re, c: CharClass) {
    FirstAvoids(r, c) && !Nullable(r)
  }

  lemma {:induction false} EmptyMatch(r: Re, s: string, i: int)
    requires Matches(r, s, i, i)
    ensures Nullable(r)
  {
    match r
    case Lit(_) =>
    case Many(_, _) =>
    case Cat(a, b) =>
      var k := CatSplit(a, b, s, i, i);
      EmptyMatch(a, s, i);
      EmptyMatch(b, s, i);
    case Alt(a, b) =>
      if Matches(a, s, i, i) {
        EmptyMatch(a, s, i);
      } else {
        EmptyMatch(b, s, i);
      }
    case Opt(_) =>
    case Group(a) => EmptyMatch(a, s, i);
  }

  lemma {:induction false} NonEmpty(r: Re, s: string, i: int, j: int)
    requires Matches(r, s, i, j) && !Nullable(r)
    ensures i < j
  {
    match r
    case Lit(_) =>
    case Many(_, _) =>
    case Cat(a, b) =>
      var k := CatSplit(a, b, s, i, j);
      if Nullable(a) {
        NonEmpty(b, s, k, j);
      } else {
        NonEmpty(a, s, i, k);
      }
    case Alt(a, b) =>
      if Matches(a, s, i, j) {
        NonEmpty(a, s, i, j);
      } else {
        NonEmpty(b, s, i, j);
      }
    case Group(a) => NonEmpty(a, s, i, j);
  }

  lemma {:induction false} FirstChar(r: Re, c: CharClass, s: string, i: int, j: int)
    requires Matches(r, s, i, j) && i < j && FirstAvoids(r, c)
    ensures !InClass(c, s[i])
  {
    match r
    case Lit(w) =>
      assert s[i..j][0] == s[i];
    case Many(d, _) =>
      assert InClass(d, s[i]);
    case Cat(a, b) =>
      var k := CatSplit(a, b, s, i, j);
      if k > i {
        FirstChar(a, c, s, i, k);
      } else {
        EmptyMatch(a, s, i);
        FirstChar(b, c, s, i, j);
      }
    case Alt(a, b) =>
      if Matches(a, s, i, j) {
        FirstChar(a, c, s, i, j);
      } else {
        FirstChar(b, c, s, i, j);
      }
    case Opt(a) => FirstChar(a, c, s, i, j);
    case Group(a) => FirstChar(a, c, s, i, j);
  }

  /** A greedy repetition followed by a part that can neither be empty nor
      begin with a character of the repeated class: the repetition is the
      whole run, and the rest matches after it. */
  lemma GreedyStep(c: CharClass, m: nat, rest: Re, s: string, i: int, j: int)
    requires Matches(Cat(Many(c, m), rest), s, i, j)
    requires Stops(rest, c)
    ensures 0 <= i <= |s| && Span(c, s, i) - i >= m && Matches(rest, s, Span(c, s, i), j)
  {
    var k := CatSplit(Many(c, m), rest, s, i, j);
    NonEmpty(rest, s, k, j);
    FirstChar(rest, c, s, k, j);
    ManyEnd(c, m, s, i, k);
  }

  /** `GreedyStep` for a repetition inside a capture group. */
  lemma GreedyGroupStep(c: CharClass, m: nat, rest: Re, s: string, i: int, j: int)
    requires Matches(Cat(Group(Many(c, m)), rest), s, i, j)
    requires Stops(rest, c)
    ensures 0 <= i <= |s| && Span(c, s, i) - i >= m && Matches(rest, s, Span(c, s, i), j)
  {
    var k := CatSplit(Group(Many(c, m)), rest, s, i, j);
    CatOf(Many(c, m), rest, s, i, k, j);
    GreedyStep(c, m, rest, s, i, j);
  }

  /** The greedy run followed by a match of `rest` matches the repetition
      followed by `rest`, with or without a capture group. */
  lemma SpanThen(c: CharClass, m: nat, rest: Re, s: string, i: nat, j: int)
    requires i <= |s| && Span(c, s, i) - i >= m && Matches(rest, s, Span(c, s, i), j)
    ensures Matches(Cat(Many(c, m), rest), s, i, j)
    ensures Matches(Cat(Group(Many(c, m)), rest), s, i, j)
  {
    SpanMatches(c, m, s, i);
    CatOf(Many(c, m), rest, s, i, Span(c, s, i), j);
    CatOf(Group(Many(c, m)), rest, s, i, Span(c, s, i), j);
  }

  /** A literal at the front of a concatenation. */
  lemma LitStep(w: string, rest: Re, s: string, i: int, j: int)
    requires Matches(Cat(Lit(w), rest), s, i, j)
    ensures 0 <= i && LitAt(s, i, w) && Matches(rest, s, i + |w|, j)
  {
    var k := CatSplit(Lit(w), rest, s, i, j);
    LitMatch(w, s, i, k);
  }

  lemma LitThen(w: string, rest: Re, s: string, i: nat, j: int)
    requires LitAt(s, i, w) && Matches(rest, s, i + |w|, j)
    ensures Matches(Cat(Lit(w), rest), s, i, j)
  {
    LitAtMatches(w, s, i);
    CatOf(Lit(w), rest, s, i, i + |w|, j);
  }

  /** A run of class `c` from `i` never reaches past the greedy run. */
  lemma SpanCovers(c: CharClass, s: string, i: int, k: int)
    requires 0 <= i <= k <= |s| && AllIn(c, s, i, k)
    ensures k <= Span(c, s, i)
  {
  }
}
