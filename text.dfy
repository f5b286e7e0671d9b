/** Searching and replacing in strings, as `String.prototype.indexOf` and
    `String.prototype.replace` do when the pattern is a string. */
module Text {
  import opened Bags

  predicate StartsWith(s: string, p: string) {
    |p| <= |s| && s[..|p|] == p
  }

  predicate EndsWith(s: string, p: string) {
    |p| <= |s| && s[|s| - |p|..] == p
  }

  /** `p` occurs in `s` starting at index `i`. */
  predicate OccursAt(s: string, p: string, i: int) {
    0 <= i && i + |p| <= |s| && s[i..i + |p|] == p
  }

  predicate Contains(s: string, p: string) {
    exists i :: 0 <= i <= |s| && OccursAt(s, p, i)
  }

  /** `i` is where `p` first occurs in `s`. */
  predicate FirstOccurrence(s: string, p: string, i: int) {
    OccursAt(s, p, i) && forall j :: 0 <= j < i ==> !OccursAt(s, p, j)
  }

  /** The first index at or after `from` where `p` occurs in `s`. */
  function FindFrom(s: string, p: string, from: nat): (r: Option<nat>)
    requires from <= |s|
    ensures r.Some? ==> from <= r.value && OccursAt(s, p, r.value)
    ensures r.Some? ==> forall j :: from <= j < r.value ==> !OccursAt(s, p, j)
    ensures r.None? ==> forall j :: from <= j ==> !OccursAt(s, p, j)
    decreases |s| - from
  {
    if OccursAt(s, p, from) then Some(from)
    else if from == |s| then None
    else FindFrom(s, p, from + 1)
  }

  /** `s.indexOf(p)`, with `None` for -1. */
  function IndexOf(s: string, p: string): (r: Option<nat>)
    ensures r.Some? <==> Contains(s, p)
    ensures r.Some? ==> FirstOccurrence(s, p, r.value)
  {
    FindFrom(s, p, 0)
  }

  /** `s.replace(p, rep)` for a string pattern `p`: only the first occurrence
      is replaced. The `$` patterns of the replacement text are not
      interpreted; the replacements this model uses contain no `$`. */
  function ReplaceFirst(s: string, p: string, rep: string): (r: string)
    ensures !Contains(s, p) ==> r == s
    ensures forall i :: FirstOccurrence(s, p, i) ==> r == s[..i] + rep + s[i + |p|..]
  {
    match IndexOf(s, p)
    case None => s
    case Some(i) =>
      assert forall j :: FirstOccurrence(s, p, j) ==> j == i;
      s[..i] + rep + s[i + |p|..]
  }

  /** A pattern at the very start of the text is the one that gets replaced. */
  lemma ReplaceFirstAtStart(s: string, p: string, rep: string)
    requires StartsWith(s, p)
    ensures ReplaceFirst(s, p, rep) == rep + s[|p|..]
  {
    assert OccursAt(s, p, 0);
    ReplaceAt(s, p, rep, 0);
    assert s[..0] + rep == rep;
  }

  /** An occurrence past the prefix `a` is an occurrence in `b`, shifted. */
  lemma OccursShift(a: string, b: string, p: string, j: int)
    requires |a| <= j
    ensures OccursAt(a + b, p, j) <==> OccursAt(b, p, j - |a|)
  {
    if j + |p| <= |a + b| {
      assert (a + b)[j..j + |p|] == b[j - |a|..j - |a| + |p|];
    }
  }

  /** No occurrence starts inside a prefix that lacks the pattern's first character. */
  lemma NoOccurrenceIn(a: string, b: string, p: string, j: int)
    requires |p| > 0 && p[0] !in a && 0 <= j < |a|
    ensures !OccursAt(a + b, p, j)
  {
    assert (a + b)[j] == a[j];
  }

  /** The first occurrence in `b` is the first occurrence in `a + b` when
      none starts inside `a`. */
  lemma FirstOccurrenceAfter(a: string, b: string, p: string, i: nat)
    requires |p| > 0 && p[0] !in a
    requires FirstOccurrence(b, p, i)
    ensures FirstOccurrence(a + b, p, |a| + i)
  {
    forall j | 0 <= j < |a| + i ensures !OccursAt(a + b, p, j) {
      if j < |a| { NoOccurrenceIn(a, b, p, j); } else { OccursShift(a, b, p, j); }
    }
    OccursShift(a, b, p, |a| + i);
  }

  lemma NotContainsAfter(a: string, b: string, p: string)
    requires |p| > 0 && p[0] !in a
    requires !Contains(b, p)
    ensures !Contains(a + b, p)
  {
    forall j | 0 <= j <= |a + b| ensures !OccursAt(a + b, p, j) {
      if j < |a| {
        NoOccurrenceIn(a, b, p, j);
      } else {
        OccursShift(a, b, p, j);
        assert !OccursAt(b, p, j - |a|);
      }
    }
  }

  /** Replacing at the first occurrence, which lies past the prefix `a`. */
  lemma ReplaceFirstAfterAt(a: string, b: string, p: string, rep: string, i: nat)
    requires |p| > 0 && p[0] !in a
    requires FirstOccurrence(b, p, i)
    ensures ReplaceFirst(a + b, p, rep) == a + (b[..i] + rep + b[i + |p|..])
  {
    ReplaceShifted(a, b, p, rep, i);
    SpliceOfConcat(a, b, rep, i, i + |p|);
  }

  lemma ReplaceShifted(a: string, b: string, p: string, rep: string, i: nat)
    requires |p| > 0 && p[0] !in a
    requires FirstOccurrence(b, p, i)
    ensures |a| + i + |p| <= |a + b|
    ensures ReplaceFirst(a + b, p, rep) == (a + b)[..|a| + i] + rep + (a + b)[|a| + i + |p|..]
  {
    FirstOccurrenceAfter(a, b, p, i);
    ReplaceAt(a + b, p, rep, |a| + i);
  }

  lemma SpliceOfConcat(a: string, b: string, rep: string, i: nat, j: nat)
    requires i <= j <= |b|
    ensures (a + b)[..|a| + i] + rep + (a + b)[|a| + j..] == a + (b[..i] + rep + b[j..])
  {
    SlicesOfConcat(a, b, i, j);
  }

  lemma ReplaceAt(s: string, p: string, rep: string, i: nat)
    requires FirstOccurrence(s, p, i)
    ensures ReplaceFirst(s, p, rep) == s[..i] + rep + s[i + |p|..]
  {
  }

  lemma SlicesOfConcat(a: string, b: string, i: nat, j: nat)
    requires i <= j <= |b|
    ensures (a + b)[..|a| + i] == a + b[..i]
    ensures (a + b)[|a| + j..] == b[j..]
  {
  }

  /** A prefix in which the pattern's first character never appears is
      passed over: the replacement happens in what follows it. */
  lemma ReplaceFirstAfter(a: string, b: string, p: string, rep: string)
    requires |p| > 0 && p[0] !in a
    ensures ReplaceFirst(a + b, p, rep) == a + ReplaceFirst(b, p, rep)
  {
    if Contains(b, p) {
      var i := IndexOf(b, p).value;
      ReplaceFirstAfterAt(a, b, p, rep, i);
    } else {
      NotContainsAfter(a, b, p);
    }
  }

  /** Two successive replacements where the first pattern opens the text
      and the second pattern cannot start inside the first replacement. */
  lemma ReplaceTwiceAtStart(s: string, p1: string, r1: string, p2: string, r2: string)
    requires StartsWith(s, p1)
    requires |p2| > 0 && p2[0] !in r1
    ensures ReplaceFirst(ReplaceFirst(s, p1, r1), p2, r2) == r1 + ReplaceFirst(s[|p1|..], p2, r2)
  {
    ReplaceFirstAtStart(s, p1, r1);
    ReplaceFirstAfter(r1, s[|p1|..], p2, r2);
  }

  lemma OccursInPrefix(s: string, t: string, p: string, j: int)
    requires 0 <= j && j + |p| <= |s|
    ensures OccursAt(s + t, p, j) <==> OccursAt(s, p, j)
  {
    assert (s + t)[j..j + |p|] == s[j..j + |p|];
  }

  /** Replacing a pattern whose first occurrence is right after `body`. */
  lemma ReplaceAfterBody(body: string, p: string, tail: string, rep: string)
    requires forall j :: 0 <= j < |body| ==> !OccursAt(body + p, p, j)
    ensures ReplaceFirst(body + p + tail, p, rep) == body + rep + tail
  {
    var s := body + p + tail;
    assert s == (body + p) + tail;
    forall j | 0 <= j < |body| ensures !OccursAt(s, p, j) {
      OccursInPrefix(body + p, tail, p, j);
    }
    assert s[|body|..|body| + |p|] == p;
    assert FirstOccurrence(s, p, |body|);
    ReplaceAt(s, p, rep, |body|);
    assert s[..|body|] == body;
    assert s[|body| + |p|..] == tail;
  }

  /** A prefix of `a` is a prefix of `a + b`. */
  lemma PrefixOfConcat(a: string, b: string, p: string)
    requires StartsWith(a, p)
    ensures StartsWith(a + b, p)
  {
    assert (a + b)[..|p|] == a[..|p|];
  }

  lemma OpeningOfConcat(a: string, b: string, c: string)
    ensures StartsWith(a + b + c, a)
  {
    assert (a + b + c)[..|a|] == a;
  }

  /** A concatenation starts with its first part and ends with its second. */
  lemma ConcatEnds(a: string, b: string)
    ensures StartsWith(a + b, a) && EndsWith(a + b, b)
  {
    assert (a + b)[..|a|] == a;
    assert (a + b)[|a + b| - |b|..] == b;
  }

  /** `p` occurs in `a + p + b` right after `a`. */
  lemma OccursBetween(a: string, p: string, b: string)
    ensures OccursAt(a + p + b, p, |a|)
  {
    assert (a + p + b)[|a|..|a| + |p|] == p;
  }

  /** Between a fixed opening and closing, the text in the middle is all
      that can differ. */
  lemma MiddleDetermined(p: string, x: string, y: string, q: string)
    ensures p + x + q == p + y + q <==> x == y
  {
    if p + x + q == p + y + q {
      assert |x| == |y|;
      assert (p + x + q)[|p|..|p| + |x|] == x;
      assert (p + y + q)[|p|..|p| + |y|] == y;
    }
  }
}
