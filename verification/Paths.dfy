/** Workspace paths, and overlap of the subtrees they name. */
module Paths {
  import opened Basics

  /** One more character: a slash opens a new segment. */
  function Extend(segments: seq<string>, c: char): (extended: seq<string>)
    requires |segments| > 0
    ensures |extended| > 0
  {
    var n := |segments| - 1;
    if c == '/' then segments + [""] else segments[..n] + [segments[n] + [c]]
  }

  /** `path.split('/')`. */
  function Segments(path: Path): (segments: seq<string>)
    ensures |segments| > 0
  {
    if path == "" then [""] else Extend(Segments(path[..|path| - 1]), path[|path| - 1])
  }

  /** `pathsOverlap`: equal, or one lies below the other. */
  predicate Overlaps(a: Path, b: Path) {
    a == b || b + "/" <= a || a + "/" <= b
  }

  predicate Intersects(left: set<Path>, right: set<Path>) {
    exists a, b | a in left && b in right :: Overlaps(a, b)
  }

  lemma ExtendInjective(s: seq<string>, c: char, t: seq<string>, d: char)
    requires |s| > 0 && |t| > 0 && Extend(s, c) == Extend(t, d)
    ensures s == t && c == d
  {
    var x, y := Extend(s, c), Extend(t, d);
    assert c == '/' <==> x[|x| - 1] == "";
    assert d == '/' <==> y[|y| - 1] == "";
    if c == '/' {
      assert x[..|x| - 1] == s && y[..|y| - 1] == t;
    } else {
      var m, n := s[|s| - 1], t[|t| - 1];
      assert m + [c] == n + [d];
      assert m == (m + [c])[..|m|] && n == (n + [d])[..|n|];
      assert (m + [c])[|m|] == c && (n + [d])[|n|] == d;
      assert s == x[..|x| - 1] + [m] && t == y[..|y| - 1] + [n];
    }
  }

  /** Splitting loses nothing. */
  lemma {:induction false} SegmentsInjective(a: Path, b: Path)
    requires Segments(a) == Segments(b)
    ensures a == b
  {
    if a == "" || b == "" {
      EmptySegments(a);
      EmptySegments(b);
    } else {
      var s, t := a[..|a| - 1], b[..|b| - 1];
      ExtendInjective(Segments(s), a[|a| - 1], Segments(t), b[|b| - 1]);
      SegmentsInjective(s, t);
      assert a == s + [a[|a| - 1]] && b == t + [b[|b| - 1]];
    }
  }

  lemma EmptySegments(path: Path)
    ensures Segments(path) == [""] <==> path == ""
  {
    if path != "" {
      var s := Segments(path[..|path| - 1]);
      assert path[|path| - 1] != '/' ==> Segments(path)[|s| - 1] != "";
    }
  }

  lemma ExtendConcat(s: seq<string>, t: seq<string>, c: char)
    requires |t| > 0
    ensures Extend(s + t, c) == s + Extend(t, c)
  {
  }

  lemma SegmentsSnoc(path: Path, c: char)
    ensures Segments(path + [c]) == Extend(Segments(path), c)
  {
    assert (path + [c])[..|path|] == path;
  }

  lemma {:induction false} SegmentsSlash(a: Path, b: Path)
    ensures Segments(a + "/" + b) == Segments(a) + Segments(b)
  {
    if b == "" {
      SegmentsSnoc(a, '/');
      assert a + "/" + b == a + "/";
    } else {
      var front, last := b[..|b| - 1], b[|b| - 1];
      SegmentsSlash(a, front);
      SegmentsSnoc(a + "/" + front, last);
      assert a + "/" + b == a + "/" + front + [last];
      ExtendConcat(Segments(a), Segments(front), last);
    }
  }

  /** A proper segment prefix names a directory above the path. */
  lemma {:induction false} ProperPrefixIsAbove(a: Path, b: Path)
    requires Segments(b) < Segments(a)
    ensures b + "/" <= a
  {
    if a != "" {
      var front, c := a[..|a| - 1], a[|a| - 1];
      var s := Segments(front);
      assert front <= a;
      if c == '/' && Segments(b) == s {
        SegmentsInjective(b, front);
        assert a == front + "/";
      } else {
        assert Segments(b) == Segments(a)[..|Segments(b)|];
        assert Segments(b) < s by {
          if c == '/' {
            assert Segments(a) == s + [""];
          } else {
            assert Segments(a)[..|s| - 1] == s[..|s| - 1];
          }
        }
        ProperPrefixIsAbove(front, b);
      }
    }
  }

  /** `a.startsWith(b + '/')` is "the segments of b are a proper prefix of those of a". */
  lemma BelowIsProperPrefix(a: Path, b: Path)
    ensures b + "/" <= a <==> Segments(b) < Segments(a)
  {
    if b + "/" <= a {
      PrefixSplits(b + "/", a);
      SegmentsSlash(b, a[|b + "/"|..]);
    }
    if Segments(b) < Segments(a) {
      ProperPrefixIsAbove(a, b);
    }
  }

  lemma PrefixSplits<T>(prefix: seq<T>, whole: seq<T>)
    requires prefix <= whole
    ensures whole == prefix + whole[|prefix|..]
  {
  }

  /** Overlap holds exactly when one segment list is a prefix of the other, for every two strings. */
  lemma OverlapIsSegmentPrefix(a: Path, b: Path)
    ensures Overlaps(a, b) <==> Segments(a) <= Segments(b) || Segments(b) <= Segments(a)
  {
    BelowIsProperPrefix(a, b);
    BelowIsProperPrefix(b, a);
    if Segments(a) == Segments(b) {
      SegmentsInjective(a, b);
    }
  }

  /** `path` lies in the subtree named by `root`. */
  ghost predicate InSubtree(path: Path, root: Path) {
    Segments(root) <= Segments(path)
  }

  /** Two paths overlap exactly when some path lies in both subtrees. */
  lemma OverlapIsSharedSubtree(a: Path, b: Path)
    ensures Overlaps(a, b) <==> exists path :: InSubtree(path, a) && InSubtree(path, b)
  {
    OverlapIsSegmentPrefix(a, b);
    if Overlaps(a, b) {
      assert InSubtree(a, a) && InSubtree(b, b);
      if Segments(b) <= Segments(a) {
        assert InSubtree(a, b);
      } else {
        assert InSubtree(b, a);
      }
    }
    if exists path :: InSubtree(path, a) && InSubtree(path, b) {
      var path :| InSubtree(path, a) && InSubtree(path, b);
      if |Segments(a)| <= |Segments(b)| {
        assert Segments(a) == Segments(path)[..|Segments(a)|] == Segments(b)[..|Segments(a)|];
      } else {
        assert Segments(b) == Segments(path)[..|Segments(b)|] == Segments(a)[..|Segments(b)|];
      }
    }
  }

  lemma IntersectsSymmetric(left: set<Path>, right: set<Path>)
    ensures Intersects(left, right) == Intersects(right, left)
  {
    if Intersects(left, right) {
      var a, b :| a in left && b in right && Overlaps(a, b);
      assert Overlaps(b, a);
    }
    if Intersects(right, left) {
      var a, b :| a in right && b in left && Overlaps(a, b);
      assert Overlaps(b, a);
    }
  }
}
