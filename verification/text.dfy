/** The string primitives the analyser relies on, over `seq<char>`:
    the `\s` and `\w` character classes of JavaScript regular expressions
    (restricted to ASCII), `String.prototype.includes`, `trim` and
    `split('\n')`. */
module Text {

  /** JavaScript `\s`, restricted to ASCII: space, tab, line feed,
      vertical tab, form feed and carriage return. `trim` strips the same set. */
  predicate IsSpace(c: char) {
    c == ' ' || c == '\t' || c == '\n' || c == '\U{000B}' || c == '\U{000C}' || c == '\r'
  }

  /** JavaScript `\w`: `[A-Za-z0-9_]`. */
  predicate IsWordChar(c: char) {
    ('a' <= c <= 'z') || ('A' <= c <= 'Z') || ('0' <= c <= '9') || c == '_'
  }

  /** The two character classes the shipped patterns repeat. */
  datatype CharClass = Space | Word

  predicate InClass(cls: CharClass, c: char) {
    match cls
    case Space => IsSpace(c)
    case Word => IsWordChar(c)
  }

  /** Every character of `s[i..j]` belongs to `cls`. */
  ghost predicate AllIn(cls: CharClass, s: string, i: int, j: int)
    requires 0 <= i <= j <= |s|
  {
    forall k :: i <= k < j ==> InClass(cls, s[k])
  }

  /** The end of the longest run of `cls` characters starting at `i`:
      what a greedy `\s*` or `\w+` consumes from position `i`. */
  function Span(cls: CharClass, s: string, i: nat): (j: nat)
    requires i <= |s|
    ensures i <= j <= |s|
    ensures j < |s| ==> !InClass(cls, s[j])
    decreases |s| - i
  {
    if i < |s| && InClass(cls, s[i]) then Span(cls, s, i + 1) else i
  }

  /** Every character `Span` passes over belongs to the class. */
  lemma {:induction false} SpanAllIn(cls: CharClass, s: string, i: nat)
    requires i <= |s|
    ensures AllIn(cls, s, i, Span(cls, s, i))
    decreases |s| - i
  {
    if i < |s| && InClass(cls, s[i]) {
      SpanAllIn(cls, s, i + 1);
    }
  }

  /** A run of `cls` characters that cannot be extended is the one `Span` finds. */
  lemma SpanUnique(cls: CharClass, s: string, i: nat, j: nat)
    requires i <= j <= |s|
    requires AllIn(cls, s, i, j)
    requires j < |s| ==> !InClass(cls, s[j])
    ensures Span(cls, s, i) == j
    decreases j - i
  {
    if i < j {
      SpanUnique(cls, s, i + 1, j);
    }
  }

  /** `w` occurs in `s` at position `i`. */
  predicate OccursAt(s: string, w: string, i: int) {
    0 <= i && i + |w| <= |s| && s[i..i + |w|] == w
  }

  /** JavaScript `s.includes(w)`: case-sensitive substring containment. */
  predicate Includes(s: string, w: string) {
    exists i | 0 <= i <= |s| - |w| :: OccursAt(s, w, i)
  }

  /** `s.startsWith(w)`: `w` occurs at position `i` of `s`; the regular
      expression matchers use it for their literal parts. */
  predicate LitAt(s: string, i: nat, w: string) {
    OccursAt(s, w, i)
  }

  lemma IncludesAt(s: string, w: string, i: int)
    requires OccursAt(s, w, i)
    ensures Includes(s, w)
  {
  }

  /** An occurrence inside an occurrence is an occurrence. */
  lemma OccursWithin(s: string, w: string, i: int, v: string, k: int)
    requires OccursAt(s, w, i) && OccursAt(w, v, k)
    ensures OccursAt(s, v, i + k)
  {
    forall j | 0 <= j < |v|
      ensures s[i + k + j] == v[j]
    {
      assert w[k..k + |v|][j] == w[k + j];
      assert s[i..i + |w|][k + j] == s[i + k + j];
    }
    assert s[i + k..i + k + |v|] == v;
  }

  /** Containment is transitive. */
  lemma IncludesWithin(s: string, w: string, v: string)
    requires Includes(s, w) && Includes(w, v)
    ensures Includes(s, v)
  {
    var i :| 0 <= i <= |s| - |w| && OccursAt(s, w, i);
    var k :| 0 <= k <= |w| - |v| && OccursAt(w, v, k);
    OccursWithin(s, w, i, v, k);
  }

  lemma IncludesLeft(a: string, b: string, w: string)
    requires Includes(a, w)
    ensures Includes(a + b, w)
  {
    var i :| 0 <= i <= |a| - |w| && OccursAt(a, w, i);
    assert (a + b)[i..i + |w|] == a[i..i + |w|];
    IncludesAt(a + b, w, i);
  }

  lemma IncludesRight(a: string, b: string, w: string)
    requires Includes(b, w)
    ensures Includes(a + b, w)
  {
    var i :| 0 <= i <= |b| - |w| && OccursAt(b, w, i);
    assert (a + b)[|a| + i..|a| + i + |w|] == b[i..i + |w|];
    IncludesAt(a + b, w, |a| + i);
  }

  /** A string missing one of the characters of `w` does not include `w`. */
  lemma MissingCharExcludes(s: string, w: string, k: nat)
    requires k < |w| && w[k] !in s
    ensures !Includes(s, w)
  {
    forall i | 0 <= i <= |s| - |w|
      ensures !OccursAt(s, w, i)
    {
      assert s[i + k] in s;
    }
  }

  /** A string in which one of the characters of `w` appears only once, at
      a position where `w` does not start its occurrence, does not include `w`. */
  lemma OnlyAtExcludes(s: string, w: string, k: nat, j: nat)
    requires k < |w| && j < |s|
    requires w[k] !in s[..j] && w[k] !in s[j + 1..]
    requires j >= k ==> !OccursAt(s, w, j - k)
    ensures !Includes(s, w)
  {
    forall i | 0 <= i <= |s| - |w|
      ensures !OccursAt(s, w, i)
    {
      assert s[i..i + |w|][k] == s[i + k];
      if i + k < j {
        assert s[..j][i + k] == s[i + k];
      } else if i + k > j {
        assert s[j + 1..][i + k - j - 1] == s[i + k];
      }
    }
  }

  /** The position of the first `c` in `s`. */
  function IndexOf(s: string, c: char): (i: nat)
    requires c in s
    ensures i < |s| && s[i] == c && c !in s[..i]
  {
    if s[0] == c then 0 else 1 + IndexOf(s[1..], c)
  }

  /** The lines of `s`, as JavaScript `s.split(sep)` returns them: a text
      with n separators has n + 1 pieces, the empty text has one empty piece. */
  function Split(s: string, sep: char): (lines: seq<string>)
    ensures |lines| >= 1
    decreases |s|
  {
    if sep !in s then [s]
    else
      var i := IndexOf(s, sep);
      [s[..i]] + Split(s[i + 1..], sep)
  }

  /** The pieces hold no separator. */
  lemma {:induction false} SplitSeparatorFree(s: string, sep: char)
    ensures forall k :: 0 <= k < |Split(s, sep)| ==> sep !in Split(s, sep)[k]
    decreases |s|
  {
    if sep in s {
      var i := IndexOf(s, sep);
      var rest := Split(s[i + 1..], sep);
      SplitSeparatorFree(s[i + 1..], sep);
      var lines := [s[..i]] + rest;
      assert Split(s, sep) == lines;
      forall k | 0 <= k < |lines|
        ensures sep !in lines[k]
      {
        if k > 0 {
          assert lines[k] == rest[k - 1];
        }
      }
    }
  }

  /** Joining the pieces gives the text back. */
  lemma {:induction false} SplitJoinsBack(s: string, sep: char)
    ensures Join(Split(s, sep), sep) == s
    decreases |s|
  {
    if sep in s {
      var i := IndexOf(s, sep);
      var rest := Split(s[i + 1..], sep);
      SplitJoinsBack(s[i + 1..], sep);
      var lines := [s[..i]] + rest;
      assert Split(s, sep) == lines;
      assert lines[0] == s[..i] && lines[1..] == rest;
      assert Join(lines, sep) == s[..i] + [sep] + Join(rest, sep);
      assert s == s[..i] + [sep] + s[i + 1..];
    }
  }

  /** `lines.join(sep)`. */
  function Join(lines: seq<string>, sep: char): string
  {
    if |lines| == 0 then ""
    else if |lines| == 1 then lines[0]
    else lines[0] + [sep] + Join(lines[1..], sep)
  }

  /** The first `c` in `a + [c] + b` is the one after `a`, when `a` has none. */
  lemma IndexOfAfter(a: string, c: char, b: string)
    requires c !in a
    ensures c in a + [c] + b && IndexOf(a + [c] + b, c) == |a|
  {
    var s := a + [c] + b;
    assert s[|a|] == c;
  }

  /** Splitting the join of separator-free lines gives the lines back. */
  lemma {:induction false} SplitJoin(lines: seq<string>, sep: char)
    requires |lines| >= 1
    requires forall k :: 0 <= k < |lines| ==> sep !in lines[k]
    ensures Split(Join(lines, sep), sep) == lines
    decreases |lines|
  {
    if |lines| == 1 {
      assert Join(lines, sep) == lines[0];
    } else {
      var tail := Join(lines[1..], sep);
      var s := lines[0] + [sep] + tail;
      assert Join(lines, sep) == s;
      IndexOfAfter(lines[0], sep, tail);
      assert s[..|lines[0]|] == lines[0];
      assert s[|lines[0]| + 1..] == tail;
      assert Split(s, sep) == [lines[0]] + Split(tail, sep);
      SplitJoin(lines[1..], sep);
      assert lines == [lines[0]] + lines[1..];
    }
  }

  /** The start of the longest run of spaces that ends at position `j`
      and does not reach below `lo`. */
  function SpanBackSpace(s: string, lo: nat, j: nat): (i: nat)
    requires lo <= j <= |s|
    ensures lo <= i <= j
    ensures i > lo ==> !IsSpace(s[i - 1])
    decreases j
  {
    if j > lo && IsSpace(s[j - 1]) then SpanBackSpace(s, lo, j - 1) else j
  }

  /** Every character `SpanBackSpace` passes over is a space. */
  lemma {:induction false} SpanBackAllIn(s: string, lo: nat, j: nat)
    requires lo <= j <= |s|
    ensures AllIn(Space, s, SpanBackSpace(s, lo, j), j)
    decreases j
  {
    if j > lo && IsSpace(s[j - 1]) {
      SpanBackAllIn(s, lo, j - 1);
    }
  }

  /** `t` is `s` with its leading and trailing spaces removed. */
  ghost predicate IsTrimOf(t: string, s: string) {
    exists a: nat, b: nat :: TrimAt(t, s, a, b)
  }

  /** `t` is `s[a..b]`, with only spaces outside it and none at its ends. */
  ghost predicate TrimAt(t: string, s: string, a: nat, b: nat) {
    a <= b <= |s| && t == s[a..b]
      && AllIn(Space, s, 0, a) && AllIn(Space, s, b, |s|)
      && (t != [] ==> !IsSpace(t[0]) && !IsSpace(t[|t| - 1]))
  }

  /** JavaScript `s.trim()` over ASCII white space. */
  function Trim(s: string): string
  {
    var a := Span(Space, s, 0);
    if a == |s| then [] else s[a..SpanBackSpace(s, a, |s|)]
  }

  /** `Trim` removes exactly the leading and trailing spaces, and empties
      precisely the strings made of spaces alone. */
  lemma TrimSpec(s: string)
    ensures IsTrimOf(Trim(s), s)
    ensures Trim(s) == [] <==> AllIn(Space, s, 0, |s|)
  {
    var a := Span(Space, s, 0);
    SpanAllIn(Space, s, 0);
    SpanBackAllIn(s, a, |s|);
    if a == |s| {
      assert TrimAt([], s, |s|, |s|);
    } else {
      var b := SpanBackSpace(s, a, |s|);
      var t := s[a..b];
      assert t[0] == s[a] && t[|t| - 1] == s[b - 1];
      assert TrimAt(t, s, a, b);
      assert !IsSpace(s[a]);
    }
  }

  /** A line that `trim` empties: JavaScript treats its trim as falsy. */
  predicate IsBlank(line: string) {
    Trim(line) == []
  }

  /** The trim of a string is unique: a string has exactly one trim. */
  lemma TrimUnique(t1: string, t2: string, s: string)
    requires IsTrimOf(t1, s) && IsTrimOf(t2, s)
    ensures t1 == t2
  {
    if t1 != [] && t2 != [] {
      TrimBounds(t1, s);
      TrimBounds(t2, s);
    } else if t1 != [] || t2 != [] {
      var e := if t1 == [] then t1 else t2;
      var n := if t1 == [] then t2 else t1;
      TrimEmptyAllSpace(e, s);
      SpanUnique(Space, s, 0, |s|);
      TrimBounds(n, s);
      assert false;
    }
  }

  /** A non-empty trim starts where the leading spaces end and stops where
      the trailing spaces start. */
  lemma TrimBounds(t: string, s: string)
    requires IsTrimOf(t, s) && t != []
    ensures Span(Space, s, 0) < |s|
    ensures t == s[Span(Space, s, 0)..SpanBackSpace(s, Span(Space, s, 0), |s|)]
  {
    var a: nat, b: nat :| TrimAt(t, s, a, b);
    assert a < b;
    assert s[a] == t[0] && s[b - 1] == t[|t| - 1];
    TrimWitness(s, a, b);
  }

  lemma TrimWitness(s: string, a: nat, b: nat)
    requires a < b <= |s| && AllIn(Space, s, 0, a) && AllIn(Space, s, b, |s|)
    requires !IsSpace(s[a]) && !IsSpace(s[b - 1])
    ensures Span(Space, s, 0) == a && SpanBackSpace(s, a, |s|) == b
  {
    SpanUnique(Space, s, 0, a);
    SpanBackUnique(s, a, |s|, b);
  }

  /** A run of spaces ending at `j` that cannot be extended to the left is
      the one `SpanBackSpace` finds. */
  lemma SpanBackUnique(s: string, lo: nat, j: nat, i: nat)
    requires lo <= i <= j <= |s| && AllIn(Space, s, i, j) && (i > lo ==> !IsSpace(s[i - 1]))
    ensures SpanBackSpace(s, lo, j) == i
    decreases j - i
  {
    if i < j {
      SpanBackUnique(s, lo, j - 1, i);
    }
  }

  /** An empty trim leaves nothing but spaces behind. */
  lemma TrimEmptyAllSpace(t: string, s: string)
    requires IsTrimOf(t, s) && t == []
    ensures AllIn(Space, s, 0, |s|)
  {
    var a: nat, b: nat :| TrimAt(t, s, a, b);
  }
}
