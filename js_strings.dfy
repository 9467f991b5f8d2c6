/** The JavaScript string and array built-ins the editor uses, with the edge
    cases JavaScript gives them: `String.prototype.split` (on a single character
    or on a character class), `Array.prototype.join`, `Array.prototype.slice`
    with a negative start, and `String.prototype.trim`. */
module JsStrings {

  predicate IsPrefix(p: string, s: string) {
    |p| <= |s| && s[..|p|] == p
  }

  predicate IsSuffix(t: string, s: string) {
    |t| <= |s| && s[|s| - |t|..] == t
  }

  /** No character of `s` is one of `seps`. */
  predicate Free(s: string, seps: set<char>) {
    forall i | 0 <= i < |s| :: s[i] !in seps
  }

  // ---------------------------------------------------------------------------
  // split / join

  /** `s.split(sep)` for a one-character separator, or `s.split(/[…]/)` for a
      character class: the maximal separator-free pieces between separators.
      Like JavaScript, the empty string splits into one empty piece. */
  function Split(s: string, seps: set<char>): (parts: seq<string>)
    ensures |parts| >= 1
    ensures forall k | 0 <= k < |parts| :: Free(parts[k], seps)
    decreases |s|
  {
    if |s| == 0 then [""]
    else
      var rest := Split(s[1..], seps);
      if s[0] in seps then [""] + rest
      else
        assert Free(rest[0], seps);
        [[s[0]] + rest[0]] + rest[1..]
  }

  /** `parts.join(sep)` for a one-character separator. */
  function Join(parts: seq<string>, sep: char): string
    decreases |parts|
  {
    if |parts| == 0 then ""
    else if |parts| == 1 then parts[0]
    else parts[0] + [sep] + Join(parts[1..], sep)
  }

  /** Joining the pieces of a split on the same character gives back the text. */
  lemma {:induction false} JoinSplit(s: string, sep: char)
    ensures Join(Split(s, {sep}), sep) == s
    decreases |s|
  {
    if |s| > 0 {
      var rest := Split(s[1..], {sep});
      JoinSplit(s[1..], sep);
      if s[0] == sep {
        assert ([""] + rest)[1..] == rest;
      } else {
        var parts := [[s[0]] + rest[0]] + rest[1..];
        if |rest| > 1 {
          assert parts[1..] == rest[1..];
        }
      }
    }
  }

  /** A separator-free text splits into itself alone. */
  lemma {:induction false} SplitFree(a: string, seps: set<char>)
    requires Free(a, seps)
    ensures Split(a, seps) == [a]
    decreases |a|
  {
    if |a| > 0 {
      SplitFree(a[1..], seps);
      assert [a[0]] + a[1..] == a;
    }
  }

  /** Whatever precedes a separator, the last piece is the last piece of what
      follows it. */
  lemma {:induction false} SplitLastAfter(x: string, sep: char, b: string, seps: set<char>)
    requires sep in seps
    ensures var parts := Split(x + [sep] + b, seps);
            var tail := Split(b, seps);
            |parts| >= 2 && parts[|parts| - 1] == tail[|tail| - 1]
    decreases |x|
  {
    var s := x + [sep] + b;
    if |x| == 0 {
      assert s[1..] == b;
    } else {
      assert s[1..] == x[1..] + [sep] + b;
      SplitLastAfter(x[1..], sep, b, seps);
    }
  }

  lemma {:induction false} SplitCons(a: string, b: string, sep: char)
    requires Free(a, {sep})
    ensures Split(a + [sep] + b, {sep}) == [a] + Split(b, {sep})
    decreases |a|
  {
    var s := a + [sep] + b;
    if |a| == 0 {
      assert s[1..] == b;
    } else {
      assert s[1..] == a[1..] + [sep] + b;
      SplitCons(a[1..], b, sep);
      assert [a[0]] + a[1..] == a;
    }
  }

  /** Splitting a join of separator-free pieces gives back the pieces. */
  lemma {:induction false} SplitJoin(parts: seq<string>, sep: char)
    requires |parts| >= 1
    requires forall k | 0 <= k < |parts| :: Free(parts[k], {sep})
    ensures Split(Join(parts, sep), {sep}) == parts
    decreases |parts|
  {
    if |parts| == 1 {
      SplitFree(parts[0], {sep});
    } else {
      SplitJoin(parts[1..], sep);
      SplitCons(parts[0], Join(parts[1..], sep), sep);
    }
  }

  lemma SuffixTransitive(a: string, b: string, c: string)
    requires IsSuffix(a, b) && IsSuffix(b, c)
    ensures IsSuffix(a, c)
  {
    assert c[|c| - |a|..] == c[|c| - |b|..][|b| - |a|..];
  }

  /** The join of any tail of the pieces is a suffix of the join of all of them. */
  lemma {:induction false} JoinTailIsSuffix(parts: seq<string>, sep: char, k: nat)
    requires k <= |parts|
    ensures IsSuffix(Join(parts[k..], sep), Join(parts, sep))
    decreases k
  {
    if k > 0 {
      JoinTailIsSuffix(parts[1..], sep, k - 1);
      assert parts[1..][k - 1..] == parts[k..];
      var whole := Join(parts, sep);
      var tail := Join(parts[1..], sep);
      if |parts| >= 2 {
        assert whole == (parts[0] + [sep]) + tail;
        assert IsSuffix(tail, whole);
      } else {
        assert tail == "";
      }
      SuffixTransitive(Join(parts[k..], sep), tail, whole);
    }
  }

  /** The last piece of a split is what follows the last separator: a suffix
      of the text, preceded by a separator unless it is the whole text. */
  predicate LastPieceFollowsLastSeparator(s: string, seps: set<char>) {
    var parts := Split(s, seps);
    var last := parts[|parts| - 1];
    && IsSuffix(last, s)
    && (|parts| == 1 ==> last == s)
    && (|parts| >= 2 ==> |last| < |s| && s[|s| - |last| - 1] in seps)
  }

  lemma {:induction false} SplitLast(s: string, seps: set<char>)
    ensures LastPieceFollowsLastSeparator(s, seps)
    decreases |s|
  {
    if |s| > 0 {
      SplitLast(s[1..], seps);
      if s[0] in seps {
        SplitLastAfterLeadingSeparator(s, seps);
      } else {
        SplitLastAfterLeadingChar(s, seps);
      }
    }
  }

  lemma SplitLastAfterLeadingSeparator(s: string, seps: set<char>)
    requires |s| > 0 && s[0] in seps
    requires LastPieceFollowsLastSeparator(s[1..], seps)
    ensures LastPieceFollowsLastSeparator(s, seps)
  {
    var rest := Split(s[1..], seps);
    var restLast := rest[|rest| - 1];
    assert Split(s, seps) == [""] + rest;
    assert IsSuffix(s[1..], s);
    SuffixTransitive(restLast, s[1..], s);
    if |rest| >= 2 {
      assert s[1..][|s| - 1 - |restLast| - 1] == s[|s| - |restLast| - 1];
    }
  }

  lemma SplitLastAfterLeadingChar(s: string, seps: set<char>)
    requires |s| > 0 && s[0] !in seps
    requires LastPieceFollowsLastSeparator(s[1..], seps)
    ensures LastPieceFollowsLastSeparator(s, seps)
  {
    var rest := Split(s[1..], seps);
    var restLast := rest[|rest| - 1];
    var parts := [[s[0]] + rest[0]] + rest[1..];
    assert Split(s, seps) == parts;
    if |rest| == 1 {
      assert parts[0] == [s[0]] + s[1..] == s;
    } else {
      assert parts[|parts| - 1] == restLast;
      assert IsSuffix(s[1..], s);
      SuffixTransitive(restLast, s[1..], s);
      assert s[1..][|s| - 1 - |restLast| - 1] == s[|s| - |restLast| - 1];
    }
  }

  // ---------------------------------------------------------------------------
  // slice

  function Min(a: int, b: int): int { if a < b then a else b }
  function Max(a: int, b: int): int { if a < b then b else a }

  /** `xs.slice(start)`: a negative start counts back from the end, clamped to the
      beginning; a non-negative start counts from the front, clamped to the end. */
  function SliceFrom<T>(xs: seq<T>, start: int): (r: seq<T>)
    ensures start < 0 ==> |r| == Min(-start, |xs|)
    ensures start >= 0 ==> |r| == Max(|xs| - start, 0)
    ensures r == xs[|xs| - |r|..]
  {
    var from :=
      if start < 0 then Max(|xs| + start, 0)
      else Min(start, |xs|);
    xs[from..]
  }

  // ---------------------------------------------------------------------------
  // trim

  /** The characters `String.prototype.trim` removes: ECMAScript WhiteSpace
      (tab, vertical tab, form feed, space, no-break space, byte order mark and
      the Unicode space separators) and LineTerminator (LF, CR, LS, PS). */
  predicate IsWhitespace(c: char) {
    || ('\t' <= c <= '\r')            // tab, LF, vertical tab, form feed, CR
    || c == ' ' || c == '\U{00A0}' || c == '\U{1680}'
    || ('\U{2000}' <= c <= '\U{200A}')
    || c == '\U{2028}' || c == '\U{2029}'
    || c == '\U{202F}' || c == '\U{205F}' || c == '\U{3000}' || c == '\U{FEFF}'
  }

  predicate AllWhitespace(s: string) {
    forall i | 0 <= i < |s| :: IsWhitespace(s[i])
  }

  function TrimStart(s: string): (r: string)
    ensures IsSuffix(r, s)
    ensures AllWhitespace(s[..|s| - |r|])
    ensures r == "" || !IsWhitespace(r[0])
    decreases |s|
  {
    if |s| > 0 && IsWhitespace(s[0]) then
      var r := TrimStart(s[1..]);
      assert s[..|s| - |r|] == [s[0]] + s[1..][..|s| - 1 - |r|];
      r
    else s
  }

  function TrimEnd(s: string): (r: string)
    ensures IsPrefix(r, s)
    ensures AllWhitespace(s[|r|..])
    ensures r == "" || !IsWhitespace(r[|r| - 1])
    decreases |s|
  {
    if |s| > 0 && IsWhitespace(s[|s| - 1]) then
      var r := TrimEnd(s[..|s| - 1]);
      assert s[|r|..] == s[..|s| - 1][|r|..] + [s[|s| - 1]];
      r
    else s
  }

  /** `s.trim()`: the text without leading and trailing whitespace. It is empty
      exactly when the text is whitespace only. */
  function Trim(s: string): (r: string)
    ensures r == "" <==> AllWhitespace(s)
    ensures r != "" ==> !IsWhitespace(r[0]) && !IsWhitespace(r[|r| - 1])
  {
    TrimEmptyExactlyWhenBlank(s);
    TrimEnd(TrimStart(s))
  }

  lemma BlankSuffix(t: string, s: string)
    requires IsSuffix(t, s) && AllWhitespace(s)
    ensures AllWhitespace(t)
  {
    forall i | 0 <= i < |t| ensures IsWhitespace(t[i]) {
      assert t[i] == s[|s| - |t| + i];
    }
  }

  lemma TrimEmptyExactlyWhenBlank(s: string)
    ensures var t := TrimStart(s);
            var r := TrimEnd(t);
            && (r == "" <==> AllWhitespace(s))
            && (r != "" ==> !IsWhitespace(r[0]))
  {
    var t := TrimStart(s);
    var r := TrimEnd(t);
    if AllWhitespace(s) {
      BlankSuffix(t, s);
    }
    if r == "" {
      assert t[|r|..] == t;
      assert s[..|s|] == s;
    }
    if r != "" {
      assert r[0] == t[0];
    }
  }
}
