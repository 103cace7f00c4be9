/**
 * The two string operations the annual-report handler applies to a row's
 * payload: Python's `str.split(sep)` with an explicit separator and
 * `str.strip()` without arguments.
 */
module Text {
  import opened Wrappers

  /** The characters `str.strip()` removes: those for which Python's `str.isspace` holds. */
  predicate IsSpace(c: char) {
    || c == ' '
    || ('\t' <= c <= '\r')
    || ('\U{1C}' <= c <= '\U{1F}')
    || c == '\U{85}'
    || c == '\U{A0}'
    || c == '\U{1680}'
    || ('\U{2000}' <= c <= '\U{200A}')
    || c == '\U{2028}'
    || c == '\U{2029}'
    || c == '\U{202F}'
    || c == '\U{205F}'
    || c == '\U{3000}'
  }

  predicate AllSpace(s: string) {
    forall k :: 0 <= k < |s| ==> IsSpace(s[k])
  }

  /** A string that `strip()` leaves as it is. */
  predicate Trimmed(s: string) {
    s == [] || (!IsSpace(s[0]) && !IsSpace(s[|s| - 1]))
  }

  /** Removes leading white space: what is left is a suffix that does not start with any. */
  function TrimLeft(s: string): (r: string)
    ensures |r| <= |s| && r == s[|s| - |r|..]
    ensures r == [] || !IsSpace(r[0])
  {
    if s != [] && IsSpace(s[0]) then TrimLeft(s[1..]) else s
  }

  /** Removes trailing white space: what is left is a prefix that does not end with any. */
  function TrimRight(s: string): (r: string)
    ensures |r| <= |s| && r == s[..|r|]
    ensures r == [] || !IsSpace(r[|r| - 1])
  {
    if s != [] && IsSpace(s[|s| - 1]) then TrimRight(s[..|s| - 1]) else s
  }

  /**
   * Python's `s.strip()`: white space removed from both ends. With
   * `StripPadded`, this pins the result down: every string is white space,
   * then a trimmed string, then white space, and `Strip` returns the middle part.
   */
  function Strip(s: string): (r: string)
    ensures Trimmed(r)
    ensures |r| <= |s|
  {
    TrimRight(TrimLeft(s))
  }

  lemma {:induction false} TrimLeftSpaces(a: string, u: string)
    requires AllSpace(a)
    requires u == [] || !IsSpace(u[0])
    ensures TrimLeft(a + u) == u
    decreases |a|
  {
    if a != [] {
      assert (a + u)[1..] == a[1..] + u;
      TrimLeftSpaces(a[1..], u);
    } else {
      assert a + u == u;
    }
  }

  lemma {:induction false} TrimRightSpaces(u: string, b: string)
    requires AllSpace(b)
    requires u == [] || !IsSpace(u[|u| - 1])
    ensures TrimRight(u + b) == u
    decreases |b|
  {
    if b != [] {
      assert (u + b)[..|u + b| - 1] == u + b[..|b| - 1];
      TrimRightSpaces(u, b[..|b| - 1]);
    } else {
      assert u + b == u;
    }
  }

  /** Stripping white-space padding off a trimmed string gives the string back. */
  lemma {:induction false} StripPadded(a: string, t: string, b: string)
    requires AllSpace(a) && AllSpace(b) && Trimmed(t)
    ensures Strip(a + t + b) == t
  {
    if t == [] {
      assert a + t + b == (a + b) + [];
      TrimLeftSpaces(a + b, []);
    } else {
      assert a + t + b == a + (t + b);
      TrimLeftSpaces(a, t + b);
      TrimRightSpaces(t, b);
    }
  }

  /** `pat` occurs in `s` starting at index `i`. */
  predicate OccursAt(s: string, pat: string, i: nat) {
    i + |pat| <= |s| && s[i..i + |pat|] == pat
  }

  predicate Contains(s: string, pat: string) {
    exists i: nat :: i <= |s| && OccursAt(s, pat, i)
  }

  /** The leftmost occurrence of `pat` in `s` at or after `from`, as Python's `str.find` reports it. */
  function FindFrom(s: string, pat: string, from: nat): (r: Option<nat>)
    requires from <= |s|
    ensures r.Some? ==> from <= r.value && OccursAt(s, pat, r.value)
    decreases |s| - from
  {
    if from + |pat| > |s| then None
    else if OccursAt(s, pat, from) then Some(from)
    else FindFrom(s, pat, from + 1)
  }

  /** `FindFrom` misses no occurrence: none lies between `from` and what it reports. */
  lemma {:induction false} FindFromLeftmost(s: string, pat: string, from: nat)
    requires from <= |s|
    ensures FindFrom(s, pat, from).Some? ==>
      forall i: nat :: from <= i < FindFrom(s, pat, from).value ==> !OccursAt(s, pat, i)
    ensures FindFrom(s, pat, from).None? ==> forall i: nat :: from <= i ==> !OccursAt(s, pat, i)
    decreases |s| - from
  {
    if from + |pat| <= |s| && !OccursAt(s, pat, from) {
      FindFromLeftmost(s, pat, from + 1);
    }
  }

  /** Nothing before the first occurrence of `pat` contains `pat`. */
  lemma PrefixBeforeFirst(s: string, pat: string, i: nat)
    requires |pat| > 0 && i <= |s|
    requires forall j: nat :: j < i ==> !OccursAt(s, pat, j)
    ensures !Contains(s[..i], pat)
  {
    forall j: nat | j <= i
      ensures !OccursAt(s[..i], pat, j)
    {
      if j + |pat| <= i {
        assert s[..i][j..j + |pat|] == s[j..j + |pat|];
        assert !OccursAt(s, pat, j);
      }
    }
  }

  /**
   * Python's `s.split(sep)`: the pieces of `s` between the non-overlapping
   * occurrences of `sep`, found from left to right.
   */
  function Split(s: string, sep: string): (r: seq<string>)
    requires |sep| > 0
    ensures 1 <= |r| <= |s| + 1
    decreases |s|
  {
    var f := FindFrom(s, sep, 0);
    if f.None? then [s]
    else
      [s[..f.value]] + Split(s[f.value + |sep|..], sep)
  }

  /** One step of `Split`: the piece before the first separator, then the split of the rest. */
  lemma SplitStep(s: string, sep: string, i: nat)
    requires |sep| > 0 && i <= |s|
    requires FindFrom(s, sep, 0) == Some(i)
    ensures i + |sep| <= |s| && s[i..i + |sep|] == sep
    ensures Split(s, sep) == [s[..i]] + Split(s[i + |sep|..], sep)
  {
    assert OccursAt(s, sep, i);
  }

  /** A string splits into more than one piece exactly when it contains the separator. */
  lemma SplitSingle(s: string, sep: string)
    requires |sep| > 0
    ensures |Split(s, sep)| == 1 <==> !Contains(s, sep)
    ensures !Contains(s, sep) ==> Split(s, sep) == [s]
  {
    var f := FindFrom(s, sep, 0);
    FindFromLeftmost(s, sep, 0);
    if f.Some? {
      SplitStep(s, sep, f.value);
      assert OccursAt(s, sep, f.value);
    }
  }

  /** No piece of a split contains the separator. */
  lemma {:induction false} SplitPiecesFree(s: string, sep: string)
    requires |sep| > 0
    ensures forall k :: 0 <= k < |Split(s, sep)| ==> !Contains(Split(s, sep)[k], sep)
    decreases |s|
  {
    var f := FindFrom(s, sep, 0);
    FindFromLeftmost(s, sep, 0);
    if f.Some? {
      var i := f.value;
      SplitStep(s, sep, i);
      PrefixBeforeFirst(s, sep, i);
      SplitPiecesFree(s[i + |sep|..], sep);
    } else {
      SplitSingle(s, sep);
    }
  }

  /** Python's `sep.join(parts)`. */
  function Join(parts: seq<string>, sep: string): string
    requires |parts| >= 1
  {
    if |parts| == 1 then parts[0] else parts[0] + sep + Join(parts[1..], sep)
  }

  lemma JoinCons(head: string, tail: seq<string>, sep: string)
    requires |tail| >= 1
    ensures Join([head] + tail, sep) == head + sep + Join(tail, sep)
  {
    assert ([head] + tail)[1..] == tail;
  }

  /** Splitting loses nothing: joining the pieces with the separator restores the string. */
  lemma {:induction false} JoinSplit(s: string, sep: string)
    requires |sep| > 0
    ensures Join(Split(s, sep), sep) == s
    decreases |s|
  {
    var f := FindFrom(s, sep, 0);
    if f.Some? {
      var i := f.value;
      var rest := s[i + |sep|..];
      SplitStep(s, sep, i);
      JoinSplit(rest, sep);
      JoinCons(s[..i], Split(rest, sep), sep);
      assert s == s[..i] + s[i..i + |sep|] + rest;
    }
  }

  /** When the first occurrence of `sep` in `x + sep + y` is the one after `x`, the first piece is `x`. */
  lemma SplitAtFirst(x: string, sep: string, y: string)
    requires |sep| > 0
    requires forall j: nat :: j < |x| ==> !OccursAt(x + sep + y, sep, j)
    ensures Split(x + sep + y, sep) == [x] + Split(y, sep)
  {
    var s := x + sep + y;
    assert s[|x|..|x| + |sep|] == sep;
    assert OccursAt(s, sep, |x|);
    var f := FindFrom(s, sep, 0);
    FindFromLeftmost(s, sep, 0);
    assert f == Some(|x|);
    SplitStep(s, sep, |x|);
    assert s[..|x|] == x;
    assert s[|x| + |sep|..] == y;
  }
}
