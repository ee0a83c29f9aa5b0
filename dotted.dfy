/** Dotted names as the view provider splits and rebuilds them: Python's
    `s.split(".")` and `".".join(parts)`. */
module Dotted {

  const Dot: char := '.'

  /** The segments of s between dots, in order; like Python's split on a separator,
      the empty string has one (empty) segment and consecutive dots give empty ones.
      The first segment is the longest dot-free prefix of s. */
  function Split(s: string): (parts: seq<string>)
    ensures |parts| >= 1
    ensures forall p :: p in parts ==> Dot !in p
    ensures |parts[0]| <= |s| && parts[0] == s[..|parts[0]|]
    ensures Dot in s ==> |parts[0]| < |s| && s[|parts[0]|] == Dot
  {
    if s == [] then [""]
    else
      var tail := Split(s[1..]);
      if s[0] == Dot then [""] + tail
      else [[s[0]] + tail[0]] + tail[1..]
  }

  /** The segments glued back together with a dot between neighbours. */
  function Join(parts: seq<string>): string
  {
    if |parts| == 0 then ""
    else if |parts| == 1 then parts[0]
    else parts[0] + [Dot] + Join(parts[1..])
  }

  /** Joining the segments of a name gives back the name. */
  lemma {:induction false} JoinSplit(s: string)
    ensures Join(Split(s)) == s
  {
    if s != [] {
      var tail := Split(s[1..]);
      JoinSplit(s[1..]);
      if s[0] == Dot {
        assert Split(s) == [""] + tail;
        assert ([""] + tail)[1..] == tail;
      } else if |tail| == 1 {
        assert Split(s) == [[s[0]] + tail[0]];
      } else {
        var parts := [[s[0]] + tail[0]] + tail[1..];
        assert parts[1..] == tail[1..];
        assert Join(tail) == tail[0] + [Dot] + Join(tail[1..]);
        calc {
          Join(parts);
          [s[0]] + tail[0] + [Dot] + Join(tail[1..]);
          [s[0]] + Join(tail);
          [s[0]] + s[1..];
        }
      }
    }
  }

  /** A name without dots is a single segment. */
  lemma {:induction false} SplitNoDot(p: string)
    requires Dot !in p
    ensures Split(p) == [p]
  {
    if p != [] {
      SplitNoDot(p[1..]);
      assert [p[0]] + p[1..] == p;
    }
  }

  /** A dot-free first segment followed by a dot splits off as the first segment. */
  lemma {:induction false} SplitPrefix(p: string, t: string)
    requires Dot !in p
    ensures Split(p + [Dot] + t) == [p] + Split(t)
  {
    var s := p + [Dot] + t;
    if p == [] {
      assert s[1..] == t;
    } else {
      assert s[1..] == p[1..] + [Dot] + t;
      SplitPrefix(p[1..], t);
      assert [p[0]] + p[1..] == p;
    }
  }

  /** Splitting a join of dot-free segments gives back the segments. */
  lemma {:induction false} SplitJoin(parts: seq<string>)
    requires |parts| >= 1
    requires forall p :: p in parts ==> Dot !in p
    ensures Split(Join(parts)) == parts
  {
    if |parts| == 1 {
      SplitNoDot(parts[0]);
    } else {
      SplitPrefix(parts[0], Join(parts[1..]));
      SplitJoin(parts[1..]);
      assert [parts[0]] + parts[1..] == parts;
    }
  }

  /** The first segment is empty exactly when the name is empty or starts with a dot;
      the name is its first segment alone when it has no dot, and otherwise the first
      segment, a dot and the join of the remaining segments. So the join of the
      remaining segments is the name with its first segment and that dot removed,
      or empty when the name has no dot. */
  lemma {:induction false} FirstSegment(s: string)
    ensures Split(s)[0] == "" <==> s == "" || s[0] == Dot
    ensures |Split(s)| == 1 <==> Dot !in s
    ensures |Split(s)| == 1 ==> Split(s)[0] == s
    ensures |Split(s)| > 1 ==> s == Split(s)[0] + [Dot] + Join(Split(s)[1..])
    ensures Join(Split(s)[1..]) == if Dot in s then s[|Split(s)[0]| + 1..] else ""
  {
    var parts := Split(s);
    JoinSplit(s);
    if |parts| == 1 {
      assert Dot !in parts[0];
      assert parts[1..] == [];
    } else {
      assert s == parts[0] + [Dot] + Join(parts[1..]);
      assert s[|parts[0]|] == Dot;
      assert s[|parts[0]| + 1..] == Join(parts[1..]);
    }
  }
}
