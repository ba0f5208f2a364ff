/** The few JavaScript string operations the worker relies on, over `seq<char>`. */
module Strings {
  import opened Common

  /** `s.startsWith(prefix)` */
  predicate StartsWith(s: string, prefix: string)
  {
    |prefix| <= |s| && s[..|prefix|] == prefix
  }

  /** `pat` occurs in `s` starting at index `i`. */
  predicate OccursAt(s: string, pat: string, i: nat)
  {
    i + |pat| <= |s| && s[i..i + |pat|] == pat
  }

  lemma OccursAtTail(s: string, pat: string, k: nat)
    requires |s| > 0
    ensures OccursAt(s[1..], pat, k) <==> OccursAt(s, pat, k + 1)
  {
    if k + 1 + |pat| <= |s| {
      assert s[1..][k..k + |pat|] == s[k + 1..k + 1 + |pat|];
    }
  }

  /** `s.indexOf(pat)`, as an optional index: the first position where `pat` occurs. */
  function IndexOf(s: string, pat: string): (r: Option<nat>)
    ensures r.Some? ==> OccursAt(s, pat, r.value)
    ensures r.Some? ==> forall j: nat :: j < r.value ==> !OccursAt(s, pat, j)
    ensures r.None? ==> forall j: nat :: !OccursAt(s, pat, j)
    decreases |s|
  {
    if |s| < |pat| then None
    else if s[..|pat|] == pat then Some(0)
    else
      var tail := IndexOf(s[1..], pat);
      assert forall k: nat :: OccursAt(s[1..], pat, k) <==> OccursAt(s, pat, k + 1) by {
        forall k: nat ensures OccursAt(s[1..], pat, k) <==> OccursAt(s, pat, k + 1) {
          OccursAtTail(s, pat, k);
        }
      }
      assert !OccursAt(s, pat, 0);
      assert forall j: nat :: j > 0 ==> (OccursAt(s, pat, j) <==> OccursAt(s[1..], pat, j - 1)) by {
        forall j: nat | j > 0 ensures OccursAt(s, pat, j) <==> OccursAt(s[1..], pat, j - 1) {
          OccursAtTail(s, pat, j - 1);
        }
      }
      match tail
      case None => None
      case Some(k) => Some(k + 1)
  }

  /** `s.replace(pat, "")` with a string pattern: only the first occurrence is removed. */
  function RemoveFirst(s: string, pat: string): (r: string)
    ensures IndexOf(s, pat).None? ==> r == s
    ensures IndexOf(s, pat).Some? ==>
              var i := IndexOf(s, pat).value; r == s[..i] + s[i + |pat|..]
    ensures IndexOf(s, pat).Some? ==> |r| == |s| - |pat|
  {
    match IndexOf(s, pat)
    case None => s
    case Some(i) => s[..i] + s[i + |pat|..]
  }

  /** `s.split(c)` for a one-character separator: the pieces between the separators. */
  function Split(s: string, c: char): (pieces: seq<string>)
    ensures |pieces| >= 1
    ensures forall i :: 0 <= i < |pieces| ==> c !in pieces[i]
    ensures c !in s <==> |pieces| == 1
    ensures c !in s ==> pieces == [s]
    decreases |s|
  {
    if s == [] then [""]
    else
      var rest := Split(s[1..], c);
      if s[0] == c then [""] + rest
      else
        assert c in s ==> c in s[1..];
        assert c !in s ==> c !in s[1..] && rest == [s[1..]] && [s[0]] + s[1..] == s;
        [[s[0]] + rest[0]] + rest[1..]
  }

  /** `pieces.join(c)`, the inverse of `Split`. */
  function Join(pieces: seq<string>, c: char): string
    requires |pieces| >= 1
  {
    if |pieces| == 1 then pieces[0] else pieces[0] + [c] + Join(pieces[1..], c)
  }

  /** Joining the pieces of a split gives back the original string. */
  lemma {:induction false} JoinSplit(s: string, c: char)
    ensures Join(Split(s, c), c) == s
    decreases |s|
  {
    if s != [] {
      var rest := Split(s[1..], c);
      JoinSplit(s[1..], c);
      if s[0] == c {
        assert ([""] + rest)[1..] == rest;
      } else if |rest| > 1 {
        var pieces := [[s[0]] + rest[0]] + rest[1..];
        assert pieces[1..] == rest[1..];
      }
    }
  }

  /** Splitting at a separator placed between two strings splits each side separately. */
  lemma {:induction false} SplitAppend(x: string, y: string, c: char)
    ensures Split(x + [c] + y, c) == Split(x, c) + Split(y, c)
    decreases |x|
  {
    var s := x + [c] + y;
    if x == [] {
      assert s[1..] == y;
    } else {
      assert s[1..] == x[1..] + [c] + y;
      SplitAppend(x[1..], y, c);
    }
  }

  /** Splitting a join of separator-free pieces gives back the pieces. */
  lemma {:induction false} SplitJoin(pieces: seq<string>, c: char)
    requires |pieces| >= 1
    requires forall i :: 0 <= i < |pieces| ==> c !in pieces[i]
    ensures Split(Join(pieces, c), c) == pieces
    decreases |pieces|
  {
    if |pieces| > 1 {
      SplitJoin(pieces[1..], c);
      SplitAppend(pieces[0], Join(pieces[1..], c), c);
      assert c !in pieces[0];
    }
  }

  /** `s.split(c).pop()`: the text after the last separator. */
  function LastSegment(s: string, c: char): (r: string)
    ensures c !in r
  {
    var pieces := Split(s, c);
    pieces[|pieces| - 1]
  }

  /** Whatever precedes the last separator, the last segment is the separator-free text after it. */
  lemma LastSegmentAfter(x: string, y: string, c: char)
    requires c !in y
    ensures LastSegment(x + [c] + y, c) == y
  {
    SplitAppend(x, y, c);
  }

  /** The last segment is a suffix of `s` that is either all of `s` or follows a separator. */
  lemma {:induction false} LastSegmentIsSuffix(s: string, c: char)
    ensures var r := LastSegment(s, c);
            && |r| <= |s| && s[|s| - |r|..] == r
            && (|r| == |s| || s[|s| - |r| - 1] == c)
    decreases |s|
  {
    if s != [] {
      var rest := Split(s[1..], c);
      LastSegmentIsSuffix(s[1..], c);
      var t := s[1..];
      var r := LastSegment(t, c);
      if s[0] == c {
        assert Split(s, c) == [""] + rest;
        assert LastSegment(s, c) == r;
        assert s[|s| - |r|..] == t[|t| - |r|..];
      } else if |rest| == 1 {
        assert c !in t;
        assert c !in s;
        assert LastSegment(s, c) == s;
      } else {
        assert c in t;
        assert LastSegment(s, c) == r;
        assert |r| != |t|;
        assert s[|s| - |r|..] == t[|t| - |r|..];
        assert s[|s| - |r| - 1] == t[|t| - |r| - 1];
      }
    }
  }
}
