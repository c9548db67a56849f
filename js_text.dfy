/** The JavaScript string built-ins the core relies on: `includes`,
    `indexOf`, `split` with a string separator, `trim`, and the character
    classes of regular expressions. Searches are written over indices into
    the searched string. */
module JsText {
  import opened Results

  /** JavaScript's WhiteSpace and LineTerminator code points: the set
      matched by `\s`, removed by `String.prototype.trim` and skipped by
      `parseInt`. */
  predicate IsWhitespace(c: char)
  {
    var n := c as int;
    n == 0x09 || n == 0x0A || n == 0x0B || n == 0x0C || n == 0x0D || n == 0x20
    || n == 0xA0 || n == 0x1680 || (0x2000 <= n <= 0x200A) || n == 0x2028
    || n == 0x2029 || n == 0x202F || n == 0x205F || n == 0x3000 || n == 0xFEFF
  }

  /** The code points that a regular-expression `.` does not match. */
  predicate IsLineTerminator(c: char)
  {
    var n := c as int;
    n == 0x0A || n == 0x0D || n == 0x2028 || n == 0x2029
  }

  /** `pat` occurs in `s` starting at index `i`. */
  predicate OccursAt(s: string, pat: string, i: int)
  {
    0 <= i && i + |pat| <= |s| && s[i..i + |pat|] == pat
  }

  /** `s.includes(pat)`. */
  predicate Contains(s: string, pat: string)
  {
    exists i :: 0 <= i <= |s| && OccursAt(s, pat, i)
  }

  predicate StartsWith(s: string, prefix: string)
  {
    |prefix| <= |s| && s[..|prefix|] == prefix
  }

  predicate EndsWith(s: string, suffix: string)
  {
    |suffix| <= |s| && s[|s| - |suffix|..] == suffix
  }

  /** A one-character pattern occurs exactly where that character is. */
  lemma OccursChar(s: string, c: char, i: int)
    ensures OccursAt(s, [c], i) <==> 0 <= i < |s| && s[i] == c
  {
    if 0 <= i < |s| {
      assert s[i..i + 1] == [s[i]];
    }
  }

  /** A pattern does not occur where one of its characters is missing. */
  lemma Mismatch(s: string, pat: string, m: int, j: int)
    requires 0 <= m && 0 <= j < |pat| && m + j < |s| && s[m + j] != pat[j]
    ensures !OccursAt(s, pat, m)
  {
    assert m + |pat| <= |s| ==> s[m..m + |pat|][j] == s[m + j];
  }

  /** A pattern with a character that `s` lacks does not occur in `s`. */
  lemma MissingCharNotContained(s: string, pat: string, j: nat)
    requires j < |pat| && pat[j] !in s
    ensures !Contains(s, pat)
  {
    forall i | 0 <= i <= |s| ensures !OccursAt(s, pat, i) {
      if i + j < |s| {
        assert s[i + j] in s;
        Mismatch(s, pat, i, j);
      }
    }
  }

  /** `p` occurs in `a + p + b` right after `a`. */
  lemma OccursInMiddle(a: string, p: string, b: string)
    ensures OccursAt(a + p + b, p, |a|)
  {
    var s := a + p + b;
    assert forall t :: 0 <= t < |p| ==> s[|a| + t] == p[t];
    assert s[|a|..|a| + |p|] == p;
  }

  /** An occurrence inside the slice `s[k..e]` is an occurrence in `s`. */
  lemma OccursInSlice(s: string, pat: string, k: nat, e: nat, j: int)
    requires k <= e <= |s| && OccursAt(s[k..e], pat, j)
    ensures OccursAt(s, pat, k + j) && k + j + |pat| <= e
  {
    var w := s[k..e];
    assert j + |pat| <= |w|;
    var x, y := w[j..j + |pat|], s[k + j..k + j + |pat|];
    assert forall t :: 0 <= t < |pat| ==> x[t] == y[t];
    assert x == y;
  }

  /** The first index at or after `k` where `pat` occurs, if any. */
  function IndexFrom(s: string, pat: string, k: nat): (r: Option<nat>)
    ensures r.Some? ==> k <= r.value && r.value + |pat| <= |s|
    decreases |s| - k
  {
    if |s| < k + |pat| then None
    else if OccursAt(s, pat, k) then Some(k)
    else IndexFrom(s, pat, k + 1)
  }

  /** `IndexFrom` finds the first occurrence at or after `k`, and finds
      none only when there is none. */
  lemma {:induction false} IndexFromMeaning(s: string, pat: string, k: nat)
    ensures var r := IndexFrom(s, pat, k);
      && (r.Some? ==> OccursAt(s, pat, r.value))
      && (r.Some? ==> forall m :: k <= m < r.value ==> !OccursAt(s, pat, m))
      && (r.None? ==> forall m :: k <= m ==> !OccursAt(s, pat, m))
    decreases |s| - k
  {
    if |s| >= k + |pat| && !OccursAt(s, pat, k) {
      IndexFromMeaning(s, pat, k + 1);
    }
  }

  /** What `IndexFrom` finds is an occurrence. */
  lemma IndexFromFound(s: string, pat: string, k: nat)
    ensures IndexFrom(s, pat, k).Some? ==> OccursAt(s, pat, IndexFrom(s, pat, k).value)
  {
    IndexFromMeaning(s, pat, k);
  }

  /** `s.indexOf(pat)`. */
  function IndexOf(s: string, pat: string): (r: Option<nat>)
    ensures r.Some? <==> Contains(s, pat)
  {
    IndexFromMeaning(s, pat, 0);
    IndexFrom(s, pat, 0)
  }

  /** The pieces of `s[k..]` between occurrences of `sep`. */
  function SplitFrom(s: string, sep: string, k: nat): (parts: seq<string>)
    requires |sep| > 0 && k <= |s|
    ensures |parts| >= 1
    decreases |s| - k
  {
    match IndexFrom(s, sep, k)
    case None => [s[k..]]
    case Some(i) => [s[k..i]] + SplitFrom(s, sep, i + |sep|)
  }

  /** `s.split(sep)` for a non-empty string separator. */
  function Split(s: string, sep: string): (parts: seq<string>)
    requires |sep| > 0
    ensures |parts| >= 1
  {
    SplitFrom(s, sep, 0)
  }

  /** `parts.join(sep)`. */
  function Join(parts: seq<string>, sep: string): string
  {
    if |parts| == 0 then ""
    else if |parts| == 1 then parts[0]
    else parts[0] + sep + Join(parts[1..], sep)
  }

  /** `parts[i]`, which is `undefined` past the end. */
  function Segment(parts: seq<string>, i: nat): (r: Option<string>)
    ensures r.Some? <==> i < |parts|
    ensures r.Some? ==> r.value == parts[i]
  {
    if i < |parts| then Some(parts[i]) else None
  }

  lemma JoinCons(x: string, tail: seq<string>, sep: string)
    requires |tail| >= 1
    ensures Join([x] + tail, sep) == x + sep + Join(tail, sep)
  {
    assert ([x] + tail)[1..] == tail;
  }

  lemma SliceThree(s: string, k: nat, i: nat, j: nat)
    requires k <= i <= j <= |s|
    ensures s[k..] == s[k..i] + s[i..j] + s[j..]
  {
  }

  lemma {:induction false} SplitFromJoin(s: string, sep: string, k: nat)
    requires |sep| > 0 && k <= |s|
    ensures Join(SplitFrom(s, sep, k), sep) == s[k..]
    decreases |s| - k
  {
    match IndexFrom(s, sep, k)
    case None =>
    case Some(i) =>
      IndexFromFound(s, sep, k);
      var j := i + |sep|;
      var tail := SplitFrom(s, sep, j);
      SplitFromJoin(s, sep, j);
      assert SplitFrom(s, sep, k) == [s[k..i]] + tail;
      JoinCons(s[k..i], tail, sep);
      SliceThree(s, k, i, j);
      assert s[i..j] == sep;
  }

  /** Joining the pieces of a split with the separator gives back the string. */
  lemma SplitJoin(s: string, sep: string)
    requires |sep| > 0
    ensures Join(Split(s, sep), sep) == s
  {
    SplitFromJoin(s, sep, 0);
  }

  lemma {:induction false} SplitFromPiecesAvoidSeparator(s: string, sep: string, k: nat)
    requires |sep| > 0 && k <= |s|
    ensures forall n :: 0 <= n < |SplitFrom(s, sep, k)| ==> !Contains(SplitFrom(s, sep, k)[n], sep)
    decreases |s| - k
  {
    var parts := SplitFrom(s, sep, k);
    IndexFromMeaning(s, sep, k);
    match IndexFrom(s, sep, k)
    case None =>
      if Contains(s[k..], sep) {
        assert s[k..] == s[k..|s|];
        var j :| 0 <= j <= |s[k..|s|]| && OccursAt(s[k..|s|], sep, j);
        OccursInSlice(s, sep, k, |s|, j);
      }
    case Some(i) =>
      SplitFromPiecesAvoidSeparator(s, sep, i + |sep|);
      var tail := SplitFrom(s, sep, i + |sep|);
      assert parts == [s[k..i]] + tail;
      if Contains(s[k..i], sep) {
        var j :| 0 <= j <= |s[k..i]| && OccursAt(s[k..i], sep, j);
        OccursInSlice(s, sep, k, i, j);
      }
      forall n | 0 <= n < |parts|
        ensures !Contains(parts[n], sep)
      {
        if n > 0 {
          assert parts[n] == tail[n - 1];
        }
      }
  }

  /** No piece of a split contains the separator. */
  lemma SplitPiecesAvoidSeparator(s: string, sep: string)
    requires |sep| > 0
    ensures forall n :: 0 <= n < |Split(s, sep)| ==> !Contains(Split(s, sep)[n], sep)
  {
    SplitFromPiecesAvoidSeparator(s, sep, 0);
  }

  /** The number of occurrences of `c` in `s[k..]`. */
  function CountFrom(s: string, c: char, k: nat): nat
    decreases |s| - k
  {
    if k >= |s| then 0 else (if s[k] == c then 1 else 0) + CountFrom(s, c, k + 1)
  }

  /** The number of occurrences of `c` in `s`. */
  function CountChar(s: string, c: char): nat
  {
    CountFrom(s, c, 0)
  }

  lemma {:induction false} CountFromSkip(s: string, c: char, k: nat, i: nat)
    requires k <= i <= |s|
    requires forall m :: k <= m < i ==> s[m] != c
    ensures CountFrom(s, c, k) == CountFrom(s, c, i)
    decreases i - k
  {
    if k < i {
      CountFromSkip(s, c, k + 1, i);
    }
  }

  lemma {:induction false} SplitFromCharCount(s: string, c: char, k: nat)
    requires k <= |s|
    ensures |SplitFrom(s, [c], k)| == CountFrom(s, c, k) + 1
    decreases |s| - k
  {
    IndexFromMeaning(s, [c], k);
    match IndexFrom(s, [c], k)
    case None =>
      forall m | k <= m < |s| ensures s[m] != c {
        OccursChar(s, c, m);
      }
      CountFromSkip(s, c, k, |s|);
    case Some(i) =>
      SplitFromCharCount(s, c, i + 1);
      forall m | k <= m < i ensures s[m] != c {
        OccursChar(s, c, m);
      }
      CountFromSkip(s, c, k, i);
      OccursChar(s, c, i);
  }

  /** Splitting on one character gives one more piece than there are
      occurrences of it: `text.split('\n').length` counts lines. */
  lemma SplitCharCount(s: string, c: char)
    ensures |Split(s, [c])| == CountChar(s, c) + 1
  {
    SplitFromCharCount(s, c, 0);
  }

  /** At the first occurrence of `c` at or after `k`, the split cuts. */
  lemma SplitFromCharCut(s: string, c: char, k: nat, i: nat)
    requires k <= i < |s| && s[i] == c
    requires forall m :: k <= m < i ==> s[m] != c
    ensures SplitFrom(s, [c], k) == [s[k..i]] + SplitFrom(s, [c], i + 1)
  {
    OccursChar(s, c, i);
    forall m | k <= m < i ensures !OccursAt(s, [c], m) {
      OccursChar(s, c, m);
    }
    IndexFromMeaning(s, [c], k);
    assert IndexFrom(s, [c], k) == Some(i);
  }

  /** Without `c` at or after `k`, the rest is the last piece. */
  lemma SplitFromCharEnd(s: string, c: char, k: nat)
    requires k <= |s|
    requires forall m :: k <= m < |s| ==> s[m] != c
    ensures SplitFrom(s, [c], k) == [s[k..]]
  {
    forall m | k <= m ensures !OccursAt(s, [c], m) {
      OccursChar(s, c, m);
    }
    IndexFromMeaning(s, [c], k);
    assert IndexFrom(s, [c], k).None?;
  }

  /** Splitting on `c` undoes joining with `c` pieces that contain no `c`. */
  lemma {:induction false} JoinSplitChar(parts: seq<string>, c: char)
    requires |parts| >= 1
    requires forall i :: 0 <= i < |parts| ==> c !in parts[i]
    ensures Split(Join(parts, [c]), [c]) == parts
    decreases |parts|
  {
    if |parts| == 1 {
      SplitFromCharEnd(parts[0], c, 0);
      assert parts[0][0..] == parts[0];
    } else {
      JoinSplitChar(parts[1..], c);
      SplitCharPrefix(parts[0], c, Join(parts[1..], [c]));
      assert parts == [parts[0]] + parts[1..];
    }
  }

  /** Joining one more piece appends the separator and the piece. */
  lemma {:induction false} JoinSnoc(parts: seq<string>, sep: string, x: string)
    requires |parts| >= 1
    ensures Join(parts + [x], sep) == Join(parts, sep) + sep + x
    decreases |parts|
  {
    var ps := parts + [x];
    if |parts| > 1 {
      JoinSnoc(parts[1..], sep, x);
      assert ps[1..] == parts[1..] + [x];
    } else {
      assert ps[1..] == [x];
    }
  }

  /** An occurrence in `y` is an occurrence in `x + y`, shifted by `|x|`. */
  lemma OccursShift(x: string, y: string, pat: string, m: nat)
    ensures OccursAt(x + y, pat, |x| + m) <==> OccursAt(y, pat, m)
  {
    if m + |pat| <= |y| {
      var u, v := (x + y)[|x| + m..|x| + m + |pat|], y[m..m + |pat|];
      assert forall t :: 0 <= t < |pat| ==> u[t] == v[t];
      assert u == v;
    }
  }

  lemma {:induction false} IndexFromShift(x: string, y: string, pat: string, k: nat)
    ensures var a, b := IndexFrom(x + y, pat, |x| + k), IndexFrom(y, pat, k);
      && (a.None? <==> b.None?)
      && (a.Some? ==> a.value == b.value + |x|)
    decreases |y| - k
  {
    OccursShift(x, y, pat, k);
    if |y| >= k + |pat| && !OccursAt(y, pat, k) {
      IndexFromShift(x, y, pat, k + 1);
    }
  }

  /** A slice of the tail `y` of `x + y`. */
  lemma SliceOfAppend(x: string, y: string, a: nat, b: nat)
    requires a <= b <= |y|
    ensures (x + y)[|x| + a..|x| + b] == y[a..b]
  {
    var u, v := (x + y)[|x| + a..|x| + b], y[a..b];
    assert forall t :: 0 <= t < b - a ==> u[t] == v[t];
  }

  /** Splitting the tail `y` of `x + y` does not depend on `x`. */
  lemma {:induction false} SplitFromShift(x: string, y: string, sep: string, k: nat)
    requires |sep| > 0 && k <= |y|
    ensures SplitFrom(x + y, sep, |x| + k) == SplitFrom(y, sep, k)
    decreases |y| - k
  {
    var s := x + y;
    IndexFromShift(x, y, sep, k);
    var b := IndexFrom(y, sep, k);
    if b.None? {
      assert IndexFrom(s, sep, |x| + k).None?;
      assert SplitFrom(s, sep, |x| + k) == [s[|x| + k..]];
      SliceOfAppend(x, y, k, |y|);
      assert s[|x| + k..] == s[|x| + k..|x| + |y|];
      assert y[k..] == y[k..|y|];
    } else {
      var i := b.value;
      var j := i + |sep|;
      assert IndexFrom(s, sep, |x| + k) == Some(|x| + i);
      assert SplitFrom(s, sep, |x| + k) == [s[|x| + k..|x| + i]] + SplitFrom(s, sep, |x| + j);
      assert SplitFrom(y, sep, k) == [y[k..i]] + SplitFrom(y, sep, j);
      SplitFromShift(x, y, sep, j);
      SliceOfAppend(x, y, k, i);
    }
  }

  /** Splitting `a + [c] + b` on `c`, where `a` has no `c`, cuts after `a`. */
  lemma SplitCharPrefix(a: string, c: char, b: string)
    requires forall i :: 0 <= i < |a| ==> a[i] != c
    ensures Split(a + [c] + b, [c]) == [a] + Split(b, [c])
  {
    var s := a + [c] + b;
    SplitFromCharCut(s, c, 0, |a|);
    assert s == (a + [c]) + b;
    SplitFromShift(a + [c], b, [c], 0);
    assert s[..|a|] == a;
  }

  /** The first piece of `SplitFrom(s, sep, k)` runs from `k` up to the
      next separator or the end. */
  lemma SplitFromFirstPiece(s: string, sep: string, k: nat)
    requires |sep| > 0 && k <= |s|
    ensures var p := SplitFrom(s, sep, k)[0];
      && k + |p| <= |s| && p == s[k..k + |p|]
      && (k + |p| == |s| || OccursAt(s, sep, k + |p|))
      && forall m :: k <= m < k + |p| ==> !OccursAt(s, sep, m)
  {
    IndexFromMeaning(s, sep, k);
    match IndexFrom(s, sep, k)
    case None =>
    case Some(i) =>
      assert SplitFrom(s, sep, k)[0] == s[k..i];
  }

  /** What `split(sep)[1]` is: the text after the first occurrence of the
      separator up to its next occurrence or the end. */
  lemma SplitSecondPiece(s: string, sep: string)
    requires |sep| > 0 && Contains(s, sep)
    ensures |Split(s, sep)| >= 2
    ensures var start := IndexOf(s, sep).value + |sep|; var p := Split(s, sep)[1];
      && start + |p| <= |s|
      && p == s[start..start + |p|]
      && (start + |p| == |s| || OccursAt(s, sep, start + |p|))
      && forall m :: start <= m < start + |p| ==> !OccursAt(s, sep, m)
  {
    IndexFromMeaning(s, sep, 0);
    var i := IndexOf(s, sep).value;
    var start := i + |sep|;
    assert Split(s, sep) == [s[..i]] + SplitFrom(s, sep, start);
    SplitFromFirstPiece(s, sep, start);
  }

  /** The first index at or after `k` that is not whitespace. */
  function SkipSpace(s: string, k: nat): (r: nat)
    requires k <= |s|
    ensures k <= r <= |s|
    ensures forall m :: k <= m < r ==> IsWhitespace(s[m])
    ensures r < |s| ==> !IsWhitespace(s[r])
    decreases |s| - k
  {
    if k < |s| && IsWhitespace(s[k]) then SkipSpace(s, k + 1) else k
  }

  /** The end of `s[..e]` once trailing whitespace is dropped. */
  function DropTrailingSpace(s: string, e: nat): (r: nat)
    requires e <= |s|
    ensures r <= e
    ensures forall m :: r <= m < e ==> IsWhitespace(s[m])
    ensures r > 0 ==> !IsWhitespace(s[r - 1])
  {
    if e > 0 && IsWhitespace(s[e - 1]) then DropTrailingSpace(s, e - 1) else e
  }

  /** `s.trimStart()`. */
  function TrimStart(s: string): string
  {
    s[SkipSpace(s, 0)..]
  }

  /** `s.trimEnd()`. */
  function TrimEnd(s: string): string
  {
    s[..DropTrailingSpace(s, |s|)]
  }

  /** `s.trim()`: a slice of `s` with only whitespace outside it and no
      whitespace at either end of it. */
  function Trim(s: string): (r: string)
    ensures exists a :: TrimmedAt(s, r, a)
    ensures r == [] || (!IsWhitespace(r[0]) && !IsWhitespace(r[|r| - 1]))
  {
    var t := TrimStart(s);
    var a := SkipSpace(s, 0);
    var r := TrimEnd(t);
    assert |r| <= |t|;
    assert forall m :: a + |r| <= m < |s| ==> s[m] == t[m - a];
    assert TrimmedAt(s, r, a);
    r
  }

  /** `r` is `s[a..a + |r|]` with only whitespace around it. */
  predicate TrimmedAt(s: string, r: string, a: int)
  {
    && 0 <= a && a + |r| <= |s|
    && r == s[a..a + |r|]
    && (forall m :: 0 <= m < a ==> IsWhitespace(s[m]))
    && (forall m :: a + |r| <= m < |s| ==> IsWhitespace(s[m]))
  }

  /** A string with no whitespace at either end is its own trim, so
      trimming twice is trimming once. */
  lemma TrimClean(s: string)
    requires s == [] || (!IsWhitespace(s[0]) && !IsWhitespace(s[|s| - 1]))
    ensures Trim(s) == s
  {
  }

  lemma TrimIdempotent(s: string)
    ensures Trim(Trim(s)) == Trim(s)
  {
    TrimClean(Trim(s));
  }
}
