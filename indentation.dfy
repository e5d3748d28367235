/**
 * Kotlin's `String.trimIndent()` (that is, `replaceIndent("")`), with the
 * pieces it is made of: `lines()`, the common indent of the non-blank lines,
 * the dropping of a blank first and a blank last line, and
 * `joinToString("\n")`.
 */
module Indentation {
  import opened Wrappers
  import opened KotlinCore

  predicate IsLineBreak(c: char) {
    c == '\n' || c == '\r'
  }

  predicate NoLineBreak(s: string) {
    '\n' !in s && '\r' !in s
  }

  predicate EndsWithCarriageReturn(s: string) {
    |s| > 0 && s[|s| - 1] == '\r'
  }

  /** `t` occurs in `s` as a contiguous substring. */
  predicate Contains(s: string, t: string) {
    exists i, j :: 0 <= i <= j <= |s| && s[i..j] == t
  }

  /** The index of the first '\n' or '\r' in `s`, or `|s|` when there is none. */
  function FirstBreak(s: string): (i: nat)
    ensures i <= |s|
    ensures forall j :: 0 <= j < i ==> !IsLineBreak(s[j])
    ensures i < |s| ==> IsLineBreak(s[i])
    decreases |s|
  {
    if s == [] then 0 else if IsLineBreak(s[0]) then 0 else 1 + FirstBreak(s[1..])
  }

  /** A line break is "\r\n", "\n" or "\r"; the two-character one is preferred. */
  function BreakWidth(s: string, i: nat): nat
    requires i < |s|
  {
    if s[i] == '\r' && i + 1 < |s| && s[i + 1] == '\n' then 2 else 1
  }

  /** Kotlin's `CharSequence.lines()`: the text between line breaks, in order. */
  function Lines(s: string): (ls: seq<string>)
    ensures |ls| >= 1
    decreases |s|
  {
    var i := FirstBreak(s);
    if i == |s| then [s] else [s[..i]] + Lines(s[i + BreakWidth(s, i)..])
  }

  /** `joinToString("\n")`. */
  function JoinLines(ls: seq<string>): string
    decreases |ls|
  {
    if |ls| == 0 then "" else if |ls| == 1 then ls[0] else ls[0] + "\n" + JoinLines(ls[1..])
  }

  /** The number of leading whitespace characters (the whole length for a blank line). */
  function IndentWidth(line: string): (w: nat)
    ensures w <= |line|
    ensures forall j :: 0 <= j < w ==> IsWhitespace(line[j])
    ensures w < |line| ==> !IsWhitespace(line[w])
    decreases |line|
  {
    if line == [] then 0 else if IsWhitespace(line[0]) then 1 + IndentWidth(line[1..]) else 0
  }

  /** The smallest indent among the non-blank lines; `null` when every line is blank. */
  function MinCommonIndent(ls: seq<string>): (m: Option<nat>)
    ensures m.None? <==> forall k :: 0 <= k < |ls| ==> IsBlank(ls[k])
    ensures m.Some? ==> forall k :: 0 <= k < |ls| && !IsBlank(ls[k]) ==> m.value <= IndentWidth(ls[k])
    ensures m.Some? ==> exists k :: 0 <= k < |ls| && !IsBlank(ls[k]) && m.value == IndentWidth(ls[k])
    decreases |ls|
  {
    if |ls| == 0 then None
    else
      var rest := MinCommonIndent(ls[1..]);
      if IsBlank(ls[0]) then rest
      else
        var w := IndentWidth(ls[0]);
        match rest
        case None => Some(w)
        case Some(m) => Some(if w < m then w else m)
  }

  /** Kotlin's `String.drop(n)`. */
  function Drop(line: string, n: nat): string {
    if n <= |line| then line[n..] else ""
  }

  function DropEach(ls: seq<string>, n: nat): (r: seq<string>)
    ensures |r| == |ls|
  {
    seq(|ls|, k requires 0 <= k < |ls| => Drop(ls[k], n))
  }

  /**
   * `reindent`: a blank first line and a blank last line are removed; every
   * other line loses its first `n` characters.
   */
  function Reindent(ls: seq<string>, n: nat): seq<string> {
    if |ls| == 0 then []
    else if |ls| == 1 then KeptEnd(ls[0], n)
    else KeptEnd(ls[0], n) + DropEach(ls[1..|ls| - 1], n) + KeptEnd(ls[|ls| - 1], n)
  }

  /** A first or last line: removed when blank, otherwise shortened by `n`. */
  function KeptEnd(line: string, n: nat): seq<string> {
    if IsBlank(line) then [] else [Drop(line, n)]
  }

  /** Kotlin's `String.trimIndent()`. */
  function TrimIndent(s: string): (r: string)
    ensures NoLineBreak(s) ==> r == if IsBlank(s) then "" else s[IndentWidth(s)..]
  {
    var ls := Lines(s);
    assert NoLineBreak(s) ==> ls == [s] by {
      if NoLineBreak(s) { LinesOfSingleLine(s); }
    }
    JoinLines(Reindent(ls, MinCommonIndent(ls).GetOr(0)))
  }

  /**
   * The lines of a block indented by `prefix`: empty lines stay empty, as
   * they do in a source file.
   */
  function Indented(ls: seq<string>, prefix: string): (r: seq<string>)
    ensures |r| == |ls|
  {
    seq(|ls|, k requires 0 <= k < |ls| => if ls[k] == "" then "" else prefix + ls[k])
  }

  // ---------------------------------------------------------------------
  // Lines

  /** A text without line breaks is a single line. */
  lemma LinesOfSingleLine(s: string)
    requires NoLineBreak(s)
    ensures Lines(s) == [s]
  {
  }

  lemma {:induction false} FirstBreakAppend(a: string, b: string)
    ensures FirstBreak(a + b) == if FirstBreak(a) < |a| then FirstBreak(a) else |a| + FirstBreak(b)
    decreases |a|
  {
    if a != [] {
      assert (a + b)[1..] == a[1..] + b;
      FirstBreakAppend(a[1..], b);
    } else {
      assert a + b == b;
    }
  }

  /** `lines()` takes off the text before the first break, and the break itself. */
  lemma LinesUnfold(s: string, i: nat, w: nat)
    requires i == FirstBreak(s) < |s| && w == BreakWidth(s, i)
    ensures Lines(s) == [s[..i]] + Lines(s[i + w..])
  {
  }

  /** A break inside `a` that does not end it is the first break of `a + c` too. */
  lemma BreakInPrefix(a: string, c: string, i: nat, w: nat)
    requires i == FirstBreak(a) < |a| && w == BreakWidth(a, i)
    requires !EndsWithCarriageReturn(a)
    ensures i + w <= |a|
    ensures FirstBreak(a + c) == i && BreakWidth(a + c, i) == w
    ensures (a + c)[..i] == a[..i] && (a + c)[i + w..] == a[i + w..] + c
  {
    FirstBreakAppend(a, c);
    assert (a + c)[i] == a[i];
    if i + 1 < |a| {
      assert (a + c)[i + 1] == a[i + 1];
    }
    assert i + w <= |a|;
    assert (a + c)[..i] == a[..i];
    assert (a + c)[i + w..] == a[i + w..] + c;
  }

  /**
   * The three line breaks: "\n", "\r\n", and a "\r" not followed by "\n".
   * Each is one break.
   */
  predicate IsBreakBefore(d: string, b: string) {
    d == "\n" || d == "\r\n" || (d == "\r" && (b == [] || b[0] != '\n'))
  }

  /** A break right after a break-free `a` splits off `a` and consumes exactly `d`. */
  lemma LinesAppendBreakBase(a: string, d: string, b: string)
    requires FirstBreak(a) == |a| && IsBreakBefore(d, b)
    ensures Lines(a + d + b) == [a] + Lines(b)
  {
    var s := a + d + b;
    BreakAfterText(a, d, b);
    LinesUnfold(s, |a|, |d|);
    assert s[..|a|] == a;
    assert s[|a| + |d|..] == b;
  }

  lemma BreakAfterText(a: string, d: string, b: string)
    requires FirstBreak(a) == |a| && IsBreakBefore(d, b)
    ensures |a| < |a + d + b|
    ensures FirstBreak(a + d + b) == |a| && BreakWidth(a + d + b, |a|) == |d|
  {
    var s := a + d + b;
    FirstBreakAppend(a, d + b);
    assert s == a + (d + b);
    assert s[|a|] == d[0];
    if |d| == 2 {
      assert s[|a| + 1] == '\n';
    } else if |a| + 1 < |s| {
      assert s[|a| + 1] == b[0];
    }
  }

  lemma LinesAppendBreakStep(a: string, d: string, b: string, i: nat, w: nat)
    requires i == FirstBreak(a) < |a| && w == BreakWidth(a, i)
    requires !EndsWithCarriageReturn(a)
    ensures i + w <= |a|
    ensures Lines(a + d + b) == [a[..i]] + Lines(a[i + w..] + d + b)
    ensures !EndsWithCarriageReturn(a[i + w..])
  {
    var c := d + b;
    BreakInPrefix(a, c, i, w);
    assert a + d + b == a + c;
    LinesUnfold(a + c, i, w);
    assert a[i + w..] + c == a[i + w..] + d + b;
    var rest := a[i + w..];
    if |rest| > 0 { assert rest[|rest| - 1] == a[|a| - 1]; }
  }

  /**
   * Any one of the three line breaks, set after a text that does not end
   * with "\r", splits the lines of the whole in two.
   */
  lemma {:induction false} LinesAppendBreak(a: string, d: string, b: string)
    requires !EndsWithCarriageReturn(a) && IsBreakBefore(d, b)
    ensures Lines(a + d + b) == Lines(a) + Lines(b)
    decreases |a|
  {
    var i := FirstBreak(a);
    if i == |a| {
      LinesAppendBreakBase(a, d, b);
    } else {
      var w := BreakWidth(a, i);
      LinesAppendBreakStep(a, d, b, i, w);
      LinesAppendBreak(a[i + w..], d, b);
      LinesUnfold(a, i, w);
      AppendAssociative([a[..i]], Lines(a[i + w..]), Lines(b));
    }
  }

  /** Splitting at a "\n" that does not complete a "\r\n" splits the lines. */
  lemma LinesAppend(a: string, b: string)
    requires !EndsWithCarriageReturn(a)
    ensures Lines(a + "\n" + b) == Lines(a) + Lines(b)
  {
    LinesAppendBreak(a, "\n", b);
  }

  /** "\r\n" is one break. */
  lemma LinesOfCrLf()
    ensures Lines("a\r\nb") == ["a", "b"]
  {
    LinesAppendBreak("a", "\r\n", "b");
    assert "a" + "\r\n" + "b" == "a\r\nb";
    LinesOfSingleLine("a");
    LinesOfSingleLine("b");
  }

  /** Two "\r" in a row are two breaks, with an empty line between them. */
  lemma LinesOfTwoCr()
    ensures Lines("a\r\rb") == ["a", "", "b"]
  {
    LinesOfLeadingCr();
    LinesAppendBreak("a", "\r", "\rb");
    assert "a" + "\r" + "\rb" == "a\r\rb";
    LinesOfSingleLine("a");
  }

  lemma LinesOfLeadingCr()
    ensures Lines("\rb") == ["", "b"]
  {
    LinesAppendBreak("", "\r", "b");
    assert "" + "\r" + "b" == "\rb";
    LinesOfSingleLine("");
    LinesOfSingleLine("b");
  }

  /** Lines joined by "\n" split back into the same lines. */
  lemma {:induction false} LinesOfJoinLines(ls: seq<string>)
    requires |ls| >= 1
    requires forall x :: x in ls ==> NoLineBreak(x)
    ensures Lines(JoinLines(ls)) == ls
    decreases |ls|
  {
    assert ls[0] in ls;
    if |ls| == 1 {
      LinesOfSingleLine(ls[0]);
    } else {
      assert forall x :: x in ls[1..] ==> x in ls;
      assert !EndsWithCarriageReturn(ls[0]) by {
        if |ls[0]| > 0 { assert !IsLineBreak(ls[0][|ls[0]| - 1]); }
      }
      LinesAppend(ls[0], JoinLines(ls[1..]));
      LinesOfSingleLine(ls[0]);
      LinesOfJoinLines(ls[1..]);
      assert ls == [ls[0]] + ls[1..];
    }
  }

  // ---------------------------------------------------------------------
  // Joining

  lemma {:induction false} JoinLinesAppend(xs: seq<string>, ys: seq<string>)
    requires |xs| >= 1 && |ys| >= 1
    ensures JoinLines(xs + ys) == JoinLines(xs) + "\n" + JoinLines(ys)
    decreases |xs|
  {
    if |xs| == 1 {
      assert (xs + ys)[1..] == ys;
    } else {
      assert (xs + ys)[1..] == xs[1..] + ys;
      JoinLinesAppend(xs[1..], ys);
    }
  }

  lemma ContainsTransitive(s: string, t: string, u: string)
    requires Contains(s, t) && Contains(t, u)
    ensures Contains(s, u)
  {
    var i, j :| 0 <= i <= j <= |s| && s[i..j] == t;
    var k, l :| 0 <= k <= l <= |t| && t[k..l] == u;
    forall m | 0 <= m < |u|
      ensures s[i + k..i + l][m] == u[m]
    {
      assert u[m] == t[k + m];
      assert t[k + m] == s[i + k + m];
    }
    assert s[i + k..i + l] == u;
  }

  /** Dropping no more than the first piece keeps the middle one. */
  lemma DropKeepsMiddle(a: string, t: string, b: string, n: nat)
    requires n <= |a|
    ensures Contains(Drop(a + t + b, n), t)
  {
    var d := Drop(a + t + b, n);
    assert d == a[n..] + t + b;
    assert d[|a| - n..|a| - n + |t|] == t;
  }

  /** Every line is a substring of the joined text. */
  lemma {:induction false} JoinLinesContains(ls: seq<string>, k: nat)
    requires k < |ls|
    ensures Contains(JoinLines(ls), ls[k])
    decreases |ls|
  {
    var s := JoinLines(ls);
    if |ls| == 1 {
      assert s[0..|ls[0]|] == ls[0];
    } else if k == 0 {
      assert s[0..|ls[0]|] == ls[0];
    } else {
      JoinLinesContains(ls[1..], k - 1);
      var rest := JoinLines(ls[1..]);
      var i, j :| 0 <= i <= j <= |rest| && rest[i..j] == ls[k];
      var off := |ls[0]| + 1;
      assert s[off + i..off + j] == rest[i..j];
    }
  }

  // ---------------------------------------------------------------------
  // Indents

  lemma IndentWidthAfterPrefix(prefix: string, x: string)
    requires IsBlank(prefix)
    requires x != "" && !IsWhitespace(x[0])
    ensures IndentWidth(prefix + x) == |prefix|
  {
    var s := prefix + x;
    var w := IndentWidth(s);
    assert s[|prefix|] == x[0];
    assert forall j :: 0 <= j < |prefix| ==> s[j] == prefix[j];
  }

  /** A non-blank line bounds the common indent from above. */
  lemma {:induction false} MinCommonIndentAtMost(ls: seq<string>, k: nat)
    requires k < |ls| && !IsBlank(ls[k])
    ensures MinCommonIndent(ls).Some? && MinCommonIndent(ls).value <= IndentWidth(ls[k])
    decreases |ls|
  {
    if k > 0 {
      MinCommonIndentAtMost(ls[1..], k - 1);
    }
  }

  /** When every non-blank line has the same indent `w`, that is the common indent. */
  lemma {:induction false} MinCommonIndentUniform(ls: seq<string>, w: nat)
    requires forall x :: x in ls ==> IsBlank(x) || IndentWidth(x) == w
    ensures MinCommonIndent(ls) == None || MinCommonIndent(ls) == Some(w)
    ensures (exists x :: x in ls && !IsBlank(x)) ==> MinCommonIndent(ls) == Some(w)
    decreases |ls|
  {
    if |ls| > 0 {
      assert ls[0] in ls;
      assert forall x :: x in ls[1..] ==> x in ls;
      MinCommonIndentUniform(ls[1..], w);
      if exists x :: x in ls && !IsBlank(x) {
        var x :| x in ls && !IsBlank(x);
        if IsBlank(ls[0]) {
          assert x in ls[1..];
        }
      }
    }
  }

  // ---------------------------------------------------------------------
  // trimIndent

  /** The lines of a raw string literal written the usual way (see TrimIndentOfIndentedBlock). */
  function BlockLines(body: seq<string>, prefix: string, closing: string): seq<string> {
    [""] + Indented(body, prefix) + [closing]
  }

  lemma BlockLineFacts(body: seq<string>, prefix: string, closing: string)
    requires IsBlank(prefix) && NoLineBreak(prefix)
    requires IsBlank(closing) && NoLineBreak(closing)
    requires forall x :: x in body ==> NoLineBreak(x) && (x == "" || !IsWhitespace(x[0]))
    ensures forall x :: x in BlockLines(body, prefix, closing) ==>
      NoLineBreak(x) && (IsBlank(x) || IndentWidth(x) == |prefix|)
  {
    var middle := Indented(body, prefix);
    forall x | x in BlockLines(body, prefix, closing)
      ensures NoLineBreak(x) && (IsBlank(x) || IndentWidth(x) == |prefix|)
    {
      if x in middle {
        var k :| 0 <= k < |middle| && middle[k] == x;
        assert body[k] in body;
        if body[k] != "" {
          IndentWidthAfterPrefix(prefix, body[k]);
          assert forall i :: 0 <= i < |prefix| ==> x[i] == prefix[i];
          assert forall i :: |prefix| <= i < |x| ==> x[i] == body[k][i - |prefix|];
        }
      }
    }
  }

  lemma ReindentBlock(body: seq<string>, prefix: string, closing: string)
    requires IsBlank(closing)
    ensures Reindent(BlockLines(body, prefix, closing), |prefix|) == body
  {
    var ls, n := BlockLines(body, prefix, closing), |prefix|;
    var middle := Indented(body, prefix);
    assert ls[0] == "" && ls[|ls| - 1] == closing;
    assert KeptEnd(ls[0], n) == [] && KeptEnd(ls[|ls| - 1], n) == [];
    assert ls[1..|ls| - 1] == middle;
    DropEachIndented(body, prefix);
    assert Reindent(ls, n) == [] + DropEach(middle, n) + [];
  }

  /** Cutting the prefix from every indented line gives back the lines. */
  lemma DropEachIndented(body: seq<string>, prefix: string)
    ensures DropEach(Indented(body, prefix), |prefix|) == body
  {
    var middle := Indented(body, prefix);
    forall k | 0 <= k < |body|
      ensures Drop(middle[k], |prefix|) == body[k]
    {
      if body[k] != "" {
        assert (prefix + body[k])[|prefix|..] == body[k];
      }
    }
  }

  /**
   * When every line is free of breaks and is blank or indented by exactly `w`,
   * and some line is not blank, `trimIndent` drops `w` characters.
   */
  lemma TrimIndentUniform(ls: seq<string>, w: nat, k: nat)
    requires |ls| >= 1
    requires forall x :: x in ls ==> NoLineBreak(x) && (IsBlank(x) || IndentWidth(x) == w)
    requires k < |ls| && !IsBlank(ls[k])
    ensures TrimIndent(JoinLines(ls)) == JoinLines(Reindent(ls, w))
  {
    LinesOfJoinLines(ls);
    assert ls[k] in ls;
    MinCommonIndentUniform(ls, w);
  }

  /**
   * `trimIndent` of a raw string literal written the usual way: an opening
   * line break, a body whose lines are all indented by the same `prefix`
   * (empty lines left empty), and a closing line of whitespace only. The
   * result is the body without its indent, lines joined by "\n".
   */
  lemma TrimIndentOfIndentedBlock(body: seq<string>, prefix: string, closing: string)
    requires IsBlank(prefix) && NoLineBreak(prefix)
    requires IsBlank(closing) && NoLineBreak(closing)
    requires forall x :: x in body ==> NoLineBreak(x) && (x == "" || !IsWhitespace(x[0]))
    requires |body| >= 1 && body[0] != ""
    ensures TrimIndent(JoinLines(BlockLines(body, prefix, closing))) == JoinLines(body)
  {
    var ls := BlockLines(body, prefix, closing);
    BlockLineFacts(body, prefix, closing);
    BlockFirstLineNotBlank(body, prefix, closing);
    TrimIndentUniform(ls, |prefix|, 1);
    ReindentBlock(body, prefix, closing);
  }

  lemma BlockFirstLineNotBlank(body: seq<string>, prefix: string, closing: string)
    requires |body| >= 1 && body[0] != "" && !IsWhitespace(body[0][0])
    ensures |BlockLines(body, prefix, closing)| > 1
    ensures !IsBlank(BlockLines(body, prefix, closing)[1])
  {
    var ls := BlockLines(body, prefix, closing);
    assert ls[1] == prefix + body[0];
    assert (prefix + body[0])[|prefix|] == body[0][0];
  }

  lemma JoinLinesCons(x: string, rest: seq<string>)
    requires |rest| >= 1
    ensures JoinLines([x] + rest) == x + "\n" + JoinLines(rest)
  {
    assert ([x] + rest)[1..] == rest;
  }

  /** The last line of a joined text ends it. */
  lemma {:induction false} JoinLinesLast(ls: seq<string>)
    requires |ls| >= 2
    ensures JoinLines(ls) == JoinLines(ls[..|ls| - 1]) + "\n" + ls[|ls| - 1]
    decreases |ls|
  {
    var init := ls[..|ls| - 1];
    if |ls| == 2 {
      assert init == [ls[0]];
    } else {
      var tail := ls[1..];
      JoinLinesLast(tail);
      assert tail[..|tail| - 1] == init[1..];
      assert tail[|tail| - 1] == ls[|ls| - 1];
      assert JoinLines(ls) == ls[0] + "\n" + JoinLines(tail);
      assert JoinLines(init) == ls[0] + "\n" + JoinLines(init[1..]);
    }
  }

  /** A joined text starts with its first line and ends with its last. */
  lemma JoinLinesEnds(ls: seq<string>)
    requires |ls| >= 1
    ensures StartsWith(JoinLines(ls), ls[0])
    ensures EndsWith(JoinLines(ls), ls[|ls| - 1])
  {
    var s, first, last := JoinLines(ls), ls[0], ls[|ls| - 1];
    if |ls| >= 2 {
      assert s == first + "\n" + JoinLines(ls[1..]);
      assert forall j :: 0 <= j < |first| ==> s[j] == first[j];
      assert s[..|first|] == first;
      JoinLinesLast(ls);
      assert forall j :: 0 <= j < |last| ==> s[|s| - |last| + j] == last[j];
      assert s[|s| - |last|..] == last;
    }
  }

  /** Every line strictly inside, with `n` characters dropped, is a line of `reindent`'s result. */
  lemma ReindentAt(ls: seq<string>, k: nat, n: nat) returns (idx: nat)
    requires 0 < k < |ls| - 1
    ensures idx < |Reindent(ls, n)| && Reindent(ls, n)[idx] == Drop(ls[k], n)
  {
    var first, middle, final := KeptEnd(ls[0], n), DropEach(ls[1..|ls| - 1], n), KeptEnd(ls[|ls| - 1], n);
    assert Reindent(ls, n) == first + middle + final;
    assert middle[k - 1] == Drop(ls[k], n);
    IndexOfMiddle(first, middle, final, k - 1);
    idx := |first| + (k - 1);
  }

  lemma IndexOfMiddle<T>(xs: seq<T>, ys: seq<T>, zs: seq<T>, j: nat)
    requires j < |ys|
    ensures (xs + ys + zs)[|xs| + j] == ys[j]
  {
  }

  lemma ReindentKeepsInner(ls: seq<string>, k: nat, n: nat)
    requires 0 < k < |ls| - 1
    ensures Contains(JoinLines(Reindent(ls, n)), Drop(ls[k], n))
  {
    var idx := ReindentAt(ls, k, n);
    JoinLinesContains(Reindent(ls, n), idx);
  }

  /**
   * A non-blank line of `ls` that is neither its first nor its last line
   * survives `trimIndent` of the text whose lines are `ls`, with at most its
   * own indent removed.
   */
  lemma TrimIndentKeepsInnerLine(s: string, ls: seq<string>, k: nat)
    requires Lines(s) == ls
    requires 0 < k < |ls| - 1
    requires !IsBlank(ls[k])
    ensures exists n: nat :: n <= IndentWidth(ls[k]) && Contains(TrimIndent(s), Drop(ls[k], n))
  {
    MinCommonIndentAtMost(ls, k);
    var m := MinCommonIndent(ls).value;
    assert TrimIndent(s) == JoinLines(Reindent(ls, m));
    ReindentKeepsInner(ls, k, m);
  }

  /** A joined text ends with a carriage return only if its last line does. */
  lemma JoinLinesEndsWithCarriageReturn(ls: seq<string>)
    requires |ls| >= 1
    ensures EndsWithCarriageReturn(JoinLines(ls)) ==> EndsWithCarriageReturn(ls[|ls| - 1])
  {
    if |ls| >= 2 {
      JoinLinesLast(ls);
    }
  }

  lemma AppendAssociative<T>(xs: seq<T>, ys: seq<T>, zs: seq<T>)
    ensures xs + (ys + zs) == xs + ys + zs
  {
  }

  lemma SplitAt<T>(xs: seq<T>, k: nat)
    requires k < |xs|
    ensures xs == xs[..k] + ([xs[k]] + xs[k + 1..])
  {
  }

  /** A joined text around its `k`-th line. */
  lemma JoinLinesAround(ls: seq<string>, k: nat)
    requires 0 < k < |ls| - 1
    ensures JoinLines(ls) == JoinLines(ls[..k]) + "\n" + (ls[k] + "\n" + JoinLines(ls[k + 1..]))
  {
    SplitAt(ls, k);
    JoinLinesAppend(ls[..k], [ls[k]] + ls[k + 1..]);
    JoinLinesCons(ls[k], ls[k + 1..]);
  }

  /** The lines of a text with one break-free line set between two others. */
  lemma LinesAround(a: string, line: string, b: string)
    requires !EndsWithCarriageReturn(a) && NoLineBreak(line)
    ensures Lines(a + "\n" + (line + "\n" + b)) == Lines(a) + [line] + Lines(b)
  {
    LinesAppend(a, line + "\n" + b);
    LinesAppend(line, b);
    LinesOfSingleLine(line);
  }

  /** Splitting a joined text around one of its break-free lines. */
  lemma LinesAroundJoinedLine(ls: seq<string>, k: nat)
    requires 0 < k < |ls| - 1
    requires NoLineBreak(ls[k]) && !EndsWithCarriageReturn(ls[k - 1])
    ensures Lines(JoinLines(ls)) == Lines(JoinLines(ls[..k])) + [ls[k]] + Lines(JoinLines(ls[k + 1..]))
  {
    JoinLinesAround(ls, k);
    JoinLinesEndsWithCarriageReturn(ls[..k]);
    LinesAround(JoinLines(ls[..k]), ls[k], JoinLines(ls[k + 1..]));
  }

  /**
   * A non-blank, break-free line of a joined text that is neither its first
   * nor its last line survives `trimIndent` with at most its own indent removed.
   */
  lemma TrimIndentKeepsJoinedLine(ls: seq<string>, k: nat)
    requires 0 < k < |ls| - 1
    requires NoLineBreak(ls[k]) && !IsBlank(ls[k]) && !EndsWithCarriageReturn(ls[k - 1])
    ensures exists n: nat :: n <= IndentWidth(ls[k]) && Contains(TrimIndent(JoinLines(ls)), Drop(ls[k], n))
  {
    var before, after := Lines(JoinLines(ls[..k])), Lines(JoinLines(ls[k + 1..]));
    LinesAroundJoinedLine(ls, k);
    assert (before + [ls[k]] + after)[|before|] == ls[k];
    TrimIndentKeepsInnerLine(JoinLines(ls), before + [ls[k]] + after, |before|);
  }

  /** No line that `lines()` returns holds a line break. */
  lemma {:induction false} LinesHaveNoBreaks(s: string)
    ensures forall x :: x in Lines(s) ==> NoLineBreak(x)
    decreases |s|
  {
    var i := FirstBreak(s);
    if i < |s| {
      LinesHaveNoBreaks(s[i + BreakWidth(s, i)..]);
      assert forall j :: 0 <= j < i ==> s[..i][j] == s[j];
      assert Lines(s) == [s[..i]] + Lines(s[i + BreakWidth(s, i)..]);
    }
  }

  // ---------------------------------------------------------------------
  // Carriage returns

  lemma DropHasNoCr(line: string, n: nat)
    requires '\r' !in line
    ensures '\r' !in Drop(line, n)
  {
    if n <= |line| {
      assert forall i :: 0 <= i < |line| - n ==> line[n..][i] == line[n + i];
    }
  }

  lemma DropEachHasNoCr(ls: seq<string>, n: nat)
    requires forall x :: x in ls ==> '\r' !in x
    ensures forall y :: y in DropEach(ls, n) ==> '\r' !in y
  {
    forall k | 0 <= k < |ls|
      ensures '\r' !in DropEach(ls, n)[k]
    {
      assert ls[k] in ls;
      DropHasNoCr(ls[k], n);
    }
  }

  lemma KeptEndHasNoCr(line: string, n: nat)
    requires '\r' !in line
    ensures forall y :: y in KeptEnd(line, n) ==> '\r' !in y
  {
    DropHasNoCr(line, n);
  }

  lemma ReindentHasNoCr(ls: seq<string>, n: nat)
    requires forall x :: x in ls ==> '\r' !in x
    ensures forall y :: y in Reindent(ls, n) ==> '\r' !in y
  {
    if |ls| == 1 {
      assert ls[0] in ls;
      KeptEndHasNoCr(ls[0], n);
    } else if |ls| >= 2 {
      assert ls[0] in ls && ls[|ls| - 1] in ls;
      KeptEndHasNoCr(ls[0], n);
      KeptEndHasNoCr(ls[|ls| - 1], n);
      var middle := ls[1..|ls| - 1];
      assert forall x :: x in middle ==> x in ls;
      DropEachHasNoCr(middle, n);
    }
  }

  lemma {:induction false} JoinLinesHasNoCr(ls: seq<string>)
    requires forall x :: x in ls ==> '\r' !in x
    ensures '\r' !in JoinLines(ls)
    decreases |ls|
  {
    if |ls| >= 2 {
      assert ls[0] in ls;
      assert forall x :: x in ls[1..] ==> x in ls;
      JoinLinesHasNoCr(ls[1..]);
    } else if |ls| == 1 {
      assert ls[0] in ls;
    }
  }

  /** `trimIndent` rejoins its lines with "\n": no "\r" is left in its result. */
  lemma TrimIndentHasNoCr(s: string)
    ensures '\r' !in TrimIndent(s)
  {
    var ls := Lines(s);
    LinesHaveNoBreaks(s);
    ReindentHasNoCr(ls, MinCommonIndent(ls).GetOr(0));
    JoinLinesHasNoCr(Reindent(ls, MinCommonIndent(ls).GetOr(0)));
  }

  /** A text holding a character that `s` lacks is not contained in `s`. */
  lemma MissingCharNotContained(s: string, t: string, c: char)
    requires c !in s && c in t
    ensures !Contains(s, t)
  {
    forall i, j | 0 <= i <= j <= |s|
      ensures c !in s[i..j]
    {
      assert forall k :: 0 <= k < j - i ==> s[i..j][k] == s[i + k];
    }
  }
}
