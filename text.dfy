/**
 * The handful of Go `strings` functions the gateway relies on: HasPrefix, Index,
 * Contains, TrimSpace and ReplaceAll, over strings modelled as sequences of
 * characters.
 */
module Text {
  import opened Wrappers

  /** Go's `unicode.IsSpace`, the test `strings.TrimSpace` trims by. */
  predicate IsSpace(c: char) {
    || c == '\t' || c == '\n' || c == '\U{000B}' || c == '\U{000C}' || c == '\r' || c == ' '
    || c == '\U{0085}' || c == '\U{00A0}' || c == '\U{1680}'
    || ('\U{2000}' <= c <= '\U{200A}')
    || c == '\U{2028}' || c == '\U{2029}' || c == '\U{202F}' || c == '\U{205F}' || c == '\U{3000}'
  }

  /** The element at index `k` and the elements after it. */
  lemma NextOfSuffix<T>(s: seq<T>, k: nat)
    requires k < |s|
    ensures s[k..][0] == s[k] && s[k..][1..] == s[k + 1..]
  {
  }

  /** Appending in two steps is appending once. */
  lemma AppendAssoc<T>(a: seq<T>, b: seq<T>, c: seq<T>)
    ensures (a + b) + c == a + (b + c)
  {
  }

  /** A non-empty sequence appended is its front appended, then its last element. */
  lemma AppendSnoc<T>(a: seq<T>, b: seq<T>)
    requires b != []
    ensures a + b == (a + b[..|b| - 1]) + [b[|b| - 1]]
  {
    assert b == b[..|b| - 1] + [b[|b| - 1]];
    AppendAssoc(a, b[..|b| - 1], [b[|b| - 1]]);
  }

  /** A non-empty sequence is its front followed by its last element. */
  lemma FrontLast<T>(s: seq<T>)
    requires s != []
    ensures s == s[..|s| - 1] + [s[|s| - 1]]
  {
  }

  /** Appending nothing changes nothing. */
  lemma AppendNil<T>(s: seq<T>)
    ensures s + [] == s
  {
  }

  /** `strings.HasPrefix(s, prefix)`. */
  predicate HasPrefix(s: string, prefix: string) {
    |prefix| <= |s| && s[..|prefix|] == prefix
  }

  /** `t` occurs in `s` starting at index `i`. */
  predicate OccursAt(s: string, t: string, i: int) {
    0 <= i && i + |t| <= |s| && s[i..i + |t|] == t
  }

  /** `strings.Index(s, t)`: the first index at which `t` occurs in `s`, if any. */
  function IndexOf(s: string, t: string): (r: Option<nat>)
    ensures r.Some? ==> OccursAt(s, t, r.value)
    ensures r.Some? ==> forall i :: 0 <= i < r.value ==> !OccursAt(s, t, i)
    ensures r.None? ==> forall i :: !OccursAt(s, t, i)
    decreases |s|
  {
    if HasPrefix(s, t) then Some(0)
    else if s == [] then None
    else
      assert !OccursAt(s, t, 0) by {
        if |t| <= |s| {
          assert s[0..|t|] == s[..|t|];
        }
      }
      match IndexOf(s[1..], t)
      case None =>
        assert forall i :: !OccursAt(s, t, i) by {
          forall i | 1 <= i
            ensures !OccursAt(s, t, i)
          {
            ShiftOccurrence(s, t, i - 1);
          }
        }
        None
      case Some(k) =>
        ShiftOccurrence(s, t, k);
        assert forall i :: 0 <= i < k + 1 ==> !OccursAt(s, t, i) by {
          forall i | 1 <= i < k + 1
            ensures !OccursAt(s, t, i)
          {
            ShiftOccurrence(s, t, i - 1);
          }
        }
        Some(k + 1)
  }

  /** An occurrence in `s[1..]` is an occurrence in `s` one place further on. */
  lemma ShiftOccurrence(s: string, t: string, i: nat)
    requires s != []
    ensures OccursAt(s[1..], t, i) <==> OccursAt(s, t, i + 1)
  {
    if i + |t| <= |s[1..]| {
      assert s[1..][i..i + |t|] == s[i + 1..i + 1 + |t|];
    }
  }

  /** `strings.Contains(s, t)`. */
  predicate Contains(s: string, t: string) {
    IndexOf(s, t).Some?
  }

  lemma OccursAtContains(s: string, t: string, i: int)
    requires OccursAt(s, t, i)
    ensures Contains(s, t)
  {
  }

  /** Leading part of `strings.TrimSpace`. */
  function TrimLeft(s: string): (r: string)
    ensures |r| <= |s| && r == s[|s| - |r|..]
    ensures forall k :: 0 <= k < |s| - |r| ==> IsSpace(s[k])
    ensures r != [] ==> !IsSpace(r[0])
    decreases |s|
  {
    if s != [] && IsSpace(s[0]) then TrimLeft(s[1..]) else s
  }

  /** Trailing part of `strings.TrimSpace`. */
  function TrimRight(s: string): (r: string)
    ensures |r| <= |s| && r == s[..|r|]
    ensures forall k :: |r| <= k < |s| ==> IsSpace(s[k])
    ensures r != [] ==> !IsSpace(r[|r| - 1])
    decreases |s|
  {
    if s != [] && IsSpace(s[|s| - 1]) then TrimRight(s[..|s| - 1]) else s
  }

  /**
   * `strings.TrimSpace(s)`: `s` without its leading and trailing white space.
   * The result is empty exactly when `s` is all white space, and otherwise
   * starts and ends with a character that is not white space.
   */
  function TrimSpace(s: string): (r: string)
    ensures |r| <= |s|
    ensures r != [] ==> !IsSpace(r[0]) && !IsSpace(r[|r| - 1])
    ensures r == [] <==> forall k :: 0 <= k < |s| ==> IsSpace(s[k])
  {
    var left := TrimLeft(s);
    var r := TrimRight(left);
    assert left != [] ==> r != [] && r[0] == left[0];
    assert (forall k :: 0 <= k < |s| ==> IsSpace(s[k])) ==> left == [] by {
      if left != [] {
        assert left[0] == s[|s| - |left|];
      }
    }
    assert r == [] ==> left == [];
    r
  }

  /**
   * `strings.TrimSpace` removes white space at the two ends only: the result
   * is the slice of `s` between a run of leading and a run of trailing white
   * space.
   */
  lemma TrimSpaceIsSlice(s: string)
    ensures exists i :: 0 <= i <= |s| && HasPrefix(s[i..], TrimSpace(s))
                        && (forall k :: 0 <= k < i ==> IsSpace(s[k]))
                        && (forall k :: i + |TrimSpace(s)| <= k < |s| ==> IsSpace(s[k]))
  {
    var left := TrimLeft(s);
    var r := TrimSpace(s);
    var i := |s| - |left|;
    assert r == TrimRight(left);
    assert left == s[i..];
    assert HasPrefix(s[i..], r);
    forall k | i + |r| <= k < |s|
      ensures IsSpace(s[k])
    {
      assert s[k] == left[k - i];
    }
  }

  /** Trimming twice trims nothing more. */
  lemma TrimSpaceIdempotent(s: string)
    ensures TrimSpace(TrimSpace(s)) == TrimSpace(s)
  {
    var r := TrimSpace(s);
    if r != [] {
      assert TrimLeft(r) == r;
      assert TrimRight(r) == r;
    }
  }

  /** Trimming a trimmed, non-empty string followed by one white-space character gives the string back. */
  lemma TrimSpaceDropsTrailing(t: string, c: char)
    requires t != [] && TrimSpace(t) == t && IsSpace(c)
    ensures TrimSpace(t + [c]) == t
  {
    assert TrimLeft(t + [c]) == t + [c];
    assert (t + [c])[..|t|] == t;
    assert TrimRight(t + [c]) == TrimRight(t);
    assert TrimRight(t) == t;
  }

  /** A string that contains a character other than white space does not trim to nothing. */
  lemma {:induction false} TrimSpaceKeepsVisible(s: string, t: string)
    requires Contains(s, t) && t != [] && !IsSpace(t[0])
    ensures TrimSpace(s) != []
  {
    var i := IndexOf(s, t).value;
    assert s[i] == s[i..i + |t|][0];
  }

  /**
   * `strings.ReplaceAll(s, pattern, replacement)` for a non-empty pattern:
   * replaces the non-overlapping occurrences of `pattern`, found from left to
   * right, by `replacement`.
   */
  function ReplaceAll(s: string, pattern: string, replacement: string): (r: string)
    requires pattern != []
    ensures !Contains(s, pattern) ==> r == s
    decreases |s|
  {
    match IndexOf(s, pattern)
    case None => s
    case Some(j) => s[..j] + replacement + ReplaceAll(s[j + |pattern|..], pattern, replacement)
  }

  /**
   * No occurrence of `pattern` can be formed by `replacement` on its own, nor
   * across either of its borders with the text around it.
   */
  predicate ReplacementIsClean(pattern: string, replacement: string) {
    && !Contains(replacement, pattern)
    && (forall d :: 0 < d < |pattern| ==>
          !HasPrefix(replacement, pattern[d..]) && !HasPrefix(pattern[d..], replacement))
    && (forall e :: 0 <= e < |replacement| ==> !HasPrefix(pattern, replacement[e..]))
  }

  /** With a clean replacement, ReplaceAll leaves no occurrence of the pattern behind. */
  lemma ReplaceAllRemoves(s: string, pattern: string, replacement: string)
    requires pattern != [] && ReplacementIsClean(pattern, replacement)
    ensures !Contains(ReplaceAll(s, pattern, replacement), pattern)
  {
    forall q
      ensures !OccursAt(ReplaceAll(s, pattern, replacement), pattern, q)
    {
      ReplaceAllNotAt(s, pattern, replacement, q);
    }
    NowhereNotContained(ReplaceAll(s, pattern, replacement), pattern);
  }

  /** The same, position by position: the pattern does not occur at `q` in the result. */
  lemma {:induction false} ReplaceAllNotAt(s: string, pattern: string, replacement: string, q: int)
    requires pattern != [] && ReplacementIsClean(pattern, replacement)
    ensures !OccursAt(ReplaceAll(s, pattern, replacement), pattern, q)
    decreases |s|
  {
    if IndexOf(s, pattern).Some? {
      var j := IndexOf(s, pattern).value;
      var tail := s[j + |pattern|..];
      var rest := ReplaceAll(tail, pattern, replacement);
      ReplaceAllUnfold(s, pattern, replacement, j, rest);
      if q < j + |replacement| {
        NoOccurrenceAround(s, pattern, replacement, rest, j, q);
      } else {
        ReplaceAllNotAt(tail, pattern, replacement, q - j - |replacement|);
        NoOccurrenceAfter(s[..j] + replacement, rest, pattern, q);
      }
    }
  }

  /**
   * ReplaceAll at the first occurrence: the text before it, the replacement,
   * then `rest`, the text after it with every occurrence replaced.
   */
  lemma ReplaceAllUnfold(s: string, pattern: string, replacement: string, j: nat, rest: string)
    requires pattern != [] && IndexOf(s, pattern).Some? && j == IndexOf(s, pattern).value && j + |pattern| <= |s|
    requires rest == ReplaceAll(s[j + |pattern|..], pattern, replacement)
    ensures ReplaceAll(s, pattern, replacement) == s[..j] + replacement + rest
  {
    ReplaceAllFirst(s, pattern, replacement, rest);
  }

  /** The same, with the first occurrence written as `IndexOf` finds it. */
  lemma ReplaceAllFirst(s: string, pattern: string, replacement: string, rest: string)
    requires pattern != [] && IndexOf(s, pattern).Some? && IndexOf(s, pattern).value + |pattern| <= |s|
    requires rest == ReplaceAll(s[IndexOf(s, pattern).value + |pattern|..], pattern, replacement)
    ensures ReplaceAll(s, pattern, replacement) == s[..IndexOf(s, pattern).value] + replacement + rest
  {
  }

  /** A string in which `t` occurs at no position does not contain it. */
  lemma NowhereNotContained(s: string, t: string)
    requires forall q :: !OccursAt(s, t, q)
    ensures !Contains(s, t)
  {
  }

  /**
   * After the first occurrence of the pattern, at `j`, is replaced, no
   * occurrence starts at a `q` before the end of the replacement.
   */
  lemma NoOccurrenceAround(s: string, p: string, n: string, rest: string, j: nat, q: int)
    requires p != [] && ReplacementIsClean(p, n) && q < j + |n|
    requires OccursAt(s, p, j) && forall i :: 0 <= i < j ==> !OccursAt(s, p, i)
    ensures !OccursAt(s[..j] + n + rest, p, q)
  {
    var r := s[..j] + n + rest;
    if OccursAt(r, p, q) {
      if q + |p| <= j {
        OccurrenceBefore(s[..j], n + rest, s, p, q);
      } else if q < j {
        StraddleIntoReplacement(r, p, n, j, q);
      } else {
        StraddleOutOfReplacement(r, p, n, j, q);
        if q + |p| <= j + |n| {
          OccursAtContains(n, p, q - j);
        }
      }
    }
  }

  /** An occurrence that lies within `front` is one in any string that starts with `front`. */
  lemma OccurrenceBefore(front: string, rest: string, whole: string, p: string, q: int)
    requires OccursAt(front + rest, p, q) && q + |p| <= |front|
    requires |front| <= |whole| && whole[..|front|] == front
    ensures OccursAt(whole, p, q)
  {
    assert forall i :: q <= i < q + |p| ==> (front + rest)[i] == front[i] == whole[i];
    assert (front + rest)[q..q + |p|] == whole[q..q + |p|];
  }

  /** An occurrence that lies past `front` is an occurrence in what follows it. */
  lemma OccurrenceAfter(front: string, rest: string, p: string, q: int)
    requires OccursAt(front + rest, p, q) && |front| <= q
    ensures OccursAt(rest, p, q - |front|)
  {
    var d := q - |front|;
    assert forall i :: q <= i < q + |p| ==> (front + rest)[i] == rest[i - |front|];
    assert rest[d..d + |p|] == (front + rest)[q..q + |p|];
  }

  /** Past `front`, an occurrence can only be one in what follows it. */
  lemma NoOccurrenceAfter(front: string, rest: string, p: string, q: int)
    requires |front| <= q && !OccursAt(rest, p, q - |front|)
    ensures !OccursAt(front + rest, p, q)
  {
    if OccursAt(front + rest, p, q) {
      OccurrenceAfter(front, rest, p, q);
    }
  }

  /** A slice of a slice is a slice of the original. */
  lemma SliceWithin(a: string, lo: nat, hi: nat, k: nat, m: nat)
    requires lo <= hi <= |a| && k <= m <= hi - lo
    ensures a[lo..hi][k..m] == a[lo + k..lo + m]
  {
    assert forall i :: 0 <= i < m - k ==> a[lo..hi][k..m][i] == a[lo + k + i];
  }

  /**
   * An occurrence of `p` at `q` that starts before, and reaches into, the
   * text `n` at `j` either ends inside `n` or spans all of it.
   */
  lemma StraddleIntoReplacement(r: string, p: string, n: string, j: nat, q: nat)
    requires q < j < q + |p| && j + |n| <= |r| && r[j..j + |n|] == n
    requires OccursAt(r, p, q)
    ensures q + |p| <= j + |n| ==> HasPrefix(n, p[j - q..])
    ensures q + |p| > j + |n| ==> HasPrefix(p[j - q..], n)
  {
    var d := j - q;
    SliceWithin(r, q, q + |p|, d, |p|);
    if q + |p| <= j + |n| {
      SliceWithin(r, j, j + |n|, 0, |p| - d);
    } else {
      SliceWithin(r, q, q + |p|, d, d + |n|);
      assert p[d..][..|n|] == p[d..d + |n|];
    }
  }

  /**
   * An occurrence of `p` at `q` that starts inside the text `n` at `j` either
   * lies inside `n` or runs on past its end.
   */
  lemma StraddleOutOfReplacement(r: string, p: string, n: string, j: nat, q: nat)
    requires j <= q < j + |n| && j + |n| <= |r| && r[j..j + |n|] == n
    requires OccursAt(r, p, q)
    ensures q + |p| <= j + |n| ==> OccursAt(n, p, q - j)
    ensures q + |p| > j + |n| ==> HasPrefix(p, n[q - j..])
  {
    var e := q - j;
    if q + |p| <= j + |n| {
      SliceWithin(r, j, j + |n|, e, e + |p|);
    } else {
      SliceWithin(r, j, j + |n|, e, |n|);
      SliceWithin(r, q, q + |p|, 0, |n| - e);
    }
  }

  /** Neither string can overlap an occurrence of the other. */
  predicate Disjoint(a: string, b: string) {
    && !Contains(a, b) && !Contains(b, a)
    && (forall d :: 0 < d < |a| ==> !HasPrefix(b, a[d..]))
    && (forall d :: 0 < d < |b| ==> !HasPrefix(a, b[d..]))
  }

  /** ReplaceAll keeps every other string that cannot overlap the pattern. */
  lemma ReplaceAllKeeps(s: string, pattern: string, replacement: string, t: string)
    requires pattern != [] && Disjoint(pattern, t) && Contains(s, t)
    ensures Contains(ReplaceAll(s, pattern, replacement), t)
  {
    var q := ReplaceAllKeepsAt(s, pattern, replacement, t, IndexOf(s, t).value);
    OccursAtContains(ReplaceAll(s, pattern, replacement), t, q);
  }

  /** The same, position by position: an occurrence of `t` at `q` moves to `q'`. */
  lemma {:induction false} ReplaceAllKeepsAt(s: string, pattern: string, replacement: string, t: string, q: nat)
    returns (q': nat)
    requires pattern != [] && Disjoint(pattern, t) && OccursAt(s, t, q)
    ensures OccursAt(ReplaceAll(s, pattern, replacement), t, q')
    decreases |s|
  {
    q' := q;
    if IndexOf(s, pattern).Some? {
      var j := IndexOf(s, pattern).value;
      OutsideOccurrence(s, pattern, t, j, q);
      if q + |t| <= j {
        KeptBeforeFirst(s, pattern, replacement, t, j, q);
      } else {
        OccursInTail(s, j + |pattern|, t, q);
        var k := ReplaceAllKeepsAt(s[j + |pattern|..], pattern, replacement, t, q - (j + |pattern|));
        q' := KeptAfterFirst(s, pattern, replacement, t, j, k);
      }
    }
  }

  /** An occurrence that ends before the first occurrence of the pattern, at `j`, stays where it is. */
  lemma KeptBeforeFirst(s: string, pattern: string, replacement: string, t: string, j: nat, q: nat)
    requires pattern != [] && IndexOf(s, pattern).Some? && j == IndexOf(s, pattern).value
    requires OccursAt(s, t, q) && q + |t| <= j
    ensures OccursAt(ReplaceAll(s, pattern, replacement), t, q)
  {
    var rest := ReplaceAll(s[j + |pattern|..], pattern, replacement);
    ReplaceAllUnfold(s, pattern, replacement, j, rest);
    KeptBefore(s, replacement, rest, t, j, q);
    OccursInEqual(ReplaceAll(s, pattern, replacement), s[..j] + replacement + rest, t, q);
  }

  /** An occurrence at `k` in the replaced tail is one in the whole result, past the replacement. */
  lemma KeptAfterFirst(s: string, pattern: string, replacement: string, t: string, j: nat, k: nat)
    returns (q': nat)
    requires pattern != [] && IndexOf(s, pattern).Some? && j == IndexOf(s, pattern).value && j + |pattern| <= |s|
    requires OccursAt(ReplaceAll(s[j + |pattern|..], pattern, replacement), t, k)
    ensures OccursAt(ReplaceAll(s, pattern, replacement), t, q')
  {
    var rest := ReplaceAll(s[j + |pattern|..], pattern, replacement);
    ReplaceAllUnfold(s, pattern, replacement, j, rest);
    KeptAfter(s[..j] + replacement, rest, t, k);
    q' := |s[..j] + replacement| + k;
    OccursInEqual(ReplaceAll(s, pattern, replacement), s[..j] + replacement + rest, t, q');
  }

  /** An occurrence in a string is one in any string equal to it. */
  lemma OccursInEqual(a: string, b: string, t: string, q: int)
    requires a == b && OccursAt(b, t, q)
    ensures OccursAt(a, t, q)
  {
  }

  /** An occurrence past `k` is one in `s[k..]`. */
  lemma OccursInTail(s: string, k: nat, t: string, q: nat)
    requires k <= q && OccursAt(s, t, q)
    ensures OccursAt(s[k..], t, q - k)
  {
    assert s[k..][q - k..q - k + |t|] == s[q..q + |t|];
  }

  /** An occurrence that ends by `j` stays put when everything from `j` on is replaced. */
  lemma KeptBefore(s: string, n: string, rest: string, t: string, j: nat, q: nat)
    requires j <= |s| && OccursAt(s, t, q) && q + |t| <= j
    ensures OccursAt(s[..j] + n + rest, t, q)
  {
    var r := s[..j] + n + rest;
    assert r[q..q + |t|] == s[q..q + |t|] by {
      assert forall i :: 0 <= i < j ==> r[i] == s[i];
    }
  }

  /** An occurrence in `rest` is one in `front + rest`, `|front|` places on. */
  lemma KeptAfter(front: string, rest: string, t: string, q: nat)
    requires OccursAt(rest, t, q)
    ensures OccursAt(front + rest, t, |front| + q)
  {
    var r := front + rest;
    assert r[|front| + q..|front| + q + |t|] == rest[q..q + |t|] by {
      assert r[|front|..] == rest;
    }
  }

  /** An occurrence of `t` lies wholly before or wholly after an occurrence of a string disjoint from it. */
  lemma OutsideOccurrence(s: string, p: string, t: string, j: nat, q: nat)
    requires Disjoint(p, t) && OccursAt(s, p, j) && OccursAt(s, t, q)
    ensures q + |t| <= j || j + |p| <= q
  {
    if q < j < q + |t| {
      StraddleIntoReplacement(s, t, p, j, q);
      if q + |t| > j + |p| {
        assert t[j - q..][..|p|] == t[j - q..j - q + |p|];
        OccursAtContains(t, p, j - q);
      }
    } else if j <= q < j + |p| {
      StraddleOutOfReplacement(s, t, p, j, q);
      if q + |t| <= j + |p| {
        OccursAtContains(p, t, q - j);
      }
    }
  }

  /** A string that starts with the pattern once and never again has just its head replaced. */
  lemma ReplaceAllLeading(pattern: string, replacement: string, rest: string)
    requires pattern != [] && !Contains(rest, pattern)
    ensures ReplaceAll(pattern + rest, pattern, replacement) == replacement + rest
  {
    var s := pattern + rest;
    assert HasPrefix(s, pattern);
    assert s[|pattern|..] == rest;
  }

  /** Searching for a one-character string finds the first occurrence of that character. */
  lemma CharIndex(s: string, c: char)
    ensures IndexOf(s, [c]).Some? <==> c in s
    ensures IndexOf(s, [c]).Some? ==>
      var i := IndexOf(s, [c]).value; s[i] == c && forall k :: 0 <= k < i ==> s[k] != c
  {
    forall k | 0 <= k < |s|
      ensures OccursAt(s, [c], k) <==> s[k] == c
    {
      assert s[k..k + 1] == [s[k]];
    }
    if c in s {
      var k :| 0 <= k < |s| && s[k] == c;
      assert OccursAt(s, [c], k);
    }
  }

  /** Every character of the result comes from the input or from the replacement. */
  lemma {:induction false} ReplaceAllChars(s: string, pattern: string, replacement: string, c: char)
    requires pattern != []
    ensures c in ReplaceAll(s, pattern, replacement) ==> c in s || c in replacement
    decreases |s|
  {
    if IndexOf(s, pattern).Some? {
      var j := IndexOf(s, pattern).value;
      var tail := s[j + |pattern|..];
      ReplaceAllUnfold(s, pattern, replacement, j, ReplaceAll(tail, pattern, replacement));
      ReplaceAllChars(tail, pattern, replacement, c);
      CharsOfSlices(s, j, j + |pattern|, c);
    }
  }

  /** The characters of a prefix or a suffix of `s` are characters of `s`. */
  lemma CharsOfSlices(s: string, lo: nat, hi: nat, c: char)
    requires lo <= hi <= |s|
    ensures c in s[..lo] ==> c in s
    ensures c in s[hi..] ==> c in s
  {
    if c in s[..lo] {
      var k :| 0 <= k < lo && s[..lo][k] == c;
      assert s[k] == c;
    }
    if c in s[hi..] {
      var k :| 0 <= k < |s| - hi && s[hi..][k] == c;
      assert s[hi + k] == c;
    }
  }

  /** Every character of a string that `s` contains is a character of `s`. */
  lemma ContainedChars(s: string, t: string, c: char)
    requires c in t
    ensures Contains(s, t) ==> c in s
  {
    if Contains(s, t) {
      var i := IndexOf(s, t).value;
      var k :| 0 <= k < |t| && t[k] == c;
      assert s[i + k] == s[i..i + |t|][k];
    }
  }

  /** A string that starts with `b` agrees with `b` wherever `b` has a character. */
  lemma PrefixAgrees(a: string, b: string, k: nat)
    requires k < |b|
    ensures HasPrefix(a, b) ==> k < |a| && a[k] == b[k]
  {
    if HasPrefix(a, b) {
      assert a[..|b|][k] == a[k];
    }
  }
}
