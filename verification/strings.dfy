/**
 * The pieces of Python's `str` that the hint texts are built from:
 * `s.split(sep)` for a non-empty separator, `sep.join(pieces)` and the
 * slice `s[:n]`, written on `string` (a sequence of code points).
 */
module Strings {

  /** `sep` occurs in `s` starting at index `i`. */
  predicate OccursAt(s: string, sep: string, i: nat)
  {
    i + |sep| <= |s| && s[i..i + |sep|] == sep
  }

  /** `sep` occurs somewhere in `s` (Python's `sep in s`). */
  predicate Occurs(s: string, sep: string)
  {
    exists i: nat | i <= |s| :: OccursAt(s, sep, i)
  }

  /**
   * Python's `s.split(sep)`: the pieces between the non-overlapping
   * occurrences of `sep`, found from the left. Python raises on an empty
   * separator, hence the precondition. There is always at least one piece.
   */
  function Split(s: string, sep: string): (pieces: seq<string>)
    requires |sep| > 0
    ensures |pieces| >= 1
    decreases |s|
  {
    if |s| < |sep| then [s]
    else if s[..|sep|] == sep then [""] + Split(s[|sep|..], sep)
    else
      var rest := Split(s[1..], sep);
      [[s[0]] + rest[0]] + rest[1..]
  }

  /** Python's `sep.join(pieces)` for a non-empty list of pieces. */
  function Join(pieces: seq<string>, sep: string): (s: string)
    requires |pieces| >= 1
    decreases |pieces|
  {
    if |pieces| == 1 then pieces[0] else pieces[0] + sep + Join(pieces[1..], sep)
  }

  /** Splitting and joining again gives back the original text. */
  lemma {:induction false} JoinSplit(s: string, sep: string)
    requires |sep| > 0
    ensures Join(Split(s, sep), sep) == s
    decreases |s|
  {
    if |s| < |sep| {
    } else if s[..|sep|] == sep {
      var rest := Split(s[|sep|..], sep);
      JoinSplit(s[|sep|..], sep);
      assert Split(s, sep)[1..] == rest;
      assert s == s[..|sep|] + s[|sep|..];
    } else {
      var rest := Split(s[1..], sep);
      JoinSplit(s[1..], sep);
      var pieces := Split(s, sep);
      assert pieces[0] == [s[0]] + rest[0];
      if |rest| == 1 {
        assert s == [s[0]] + s[1..];
      } else {
        assert pieces[1..] == rest[1..];
        assert Join(rest, sep) == rest[0] + sep + Join(rest[1..], sep);
        assert s == [s[0]] + s[1..];
      }
    }
  }

  /**
   * `p` is the text of `s` before the first occurrence of `sep`: a prefix of
   * `s` with no occurrence of `sep` starting inside it, followed either by
   * the end of `s` or by an occurrence of `sep`.
   */
  predicate IsFirstPiece(s: string, sep: string, p: string)
  {
    && p <= s
    && (forall i: nat :: i < |p| ==> !OccursAt(s, sep, i))
    && (p == s || OccursAt(s, sep, |p|))
  }

  lemma OccursAtTail(s: string, sep: string, i: nat)
    requires 1 <= i && 1 <= |s|
    ensures OccursAt(s, sep, i) <==> OccursAt(s[1..], sep, i - 1)
  {
    if i + |sep| <= |s| {
      assert s[1..][i - 1..i - 1 + |sep|] == s[i..i + |sep|];
    }
  }

  /** The first piece of `s.split(sep)` is the text before the first `sep`. */
  lemma {:induction false} SplitFirstPiece(s: string, sep: string)
    requires |sep| > 0
    ensures IsFirstPiece(s, sep, Split(s, sep)[0])
    decreases |s|
  {
    if |s| < |sep| {
    } else if s[..|sep|] == sep {
      assert OccursAt(s, sep, 0);
    } else {
      var rest := Split(s[1..], sep);
      SplitFirstPiece(s[1..], sep);
      var q := rest[0];
      var p := [s[0]] + q;
      assert Split(s, sep)[0] == p;
      assert p <= s by {
        assert s == [s[0]] + s[1..];
      }
      forall i: nat | i < |p|
        ensures !OccursAt(s, sep, i)
      {
        if i == 0 {
          assert s[0..|sep|] == s[..|sep|];
        } else {
          OccursAtTail(s, sep, i);
        }
      }
      if q != s[1..] {
        OccursAtTail(s, sep, |p|);
      }
    }
  }

  /** At most one text is the first piece of `s`. */
  lemma FirstPieceUnique(s: string, sep: string, p: string, q: string)
    requires IsFirstPiece(s, sep, p) && IsFirstPiece(s, sep, q)
    ensures p == q
  {
    assert p == s[..|p|] && q == s[..|q|];
  }

  /**
   * `s.split(sep)[0]`: the shortest split prefix, which never contains
   * `sep`, and which is the whole text when `sep` does not occur in it.
   */
  function FirstPiece(s: string, sep: string): (p: string)
    requires |sep| > 0
    ensures IsFirstPiece(s, sep, p)
    ensures !Occurs(p, sep)
    ensures !Occurs(s, sep) ==> p == s
  {
    SplitFirstPiece(s, sep);
    var p := Split(s, sep)[0];
    assert !Occurs(p, sep) by {
      forall i: nat | i <= |p| && OccursAt(p, sep, i)
        ensures false
      {
        assert s[i..i + |sep|] == p[i..i + |sep|];
        assert OccursAt(s, sep, i);
      }
    }
    p
  }

  /**
   * When the first character of `sep` does not occur in `p`, the text
   * `p + sep + r` splits first into `p`.
   */
  lemma FirstPieceBeforeSeparator(p: string, sep: string, r: string)
    requires |sep| > 0 && sep[0] !in p
    ensures FirstPiece(p + sep + r, sep) == p
  {
    var s := p + sep + r;
    forall i: nat | i < |p|
      ensures !OccursAt(s, sep, i)
    {
      assert s[i] == p[i];
    }
    assert s[|p|..|p| + |sep|] == sep;
    assert p <= s;
    FirstPieceUnique(s, sep, p, FirstPiece(s, sep));
  }

  /** Python's slice `s[:n]`, including its meaning for a negative `n`. */
  function Take(s: string, n: int): (r: string)
    ensures r <= s
    ensures 0 <= n ==> |r| == (if n < |s| then n else |s|)
    ensures n < 0 ==> |r| == (if |s| + n < 0 then 0 else |s| + n)
  {
    if n >= |s| then s
    else if n >= 0 then s[..n]
    else if |s| + n >= 0 then s[..|s| + n]
    else []
  }
}
