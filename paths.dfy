/**
 * The path helpers the drive calls, stated as operations on the segments
 * between '/' characters: `String.prototype.split('/')` and its inverse,
 * `URLExt.join`, `PathExt.join`, `PathExt.basename` and `PathExt.dirname`.
 * The joins drop empty segments, which is how they collapse repeated and
 * leading/trailing slashes; `.` and `..` are ordinary segments here.
 */
module Paths {

  /** A single non-empty path segment. */
  predicate IsSegment(n: string)
  {
    n != "" && '/' !in n
  }

  /** `s.split('/')`: never empty, and no piece contains '/'. */
  function Split(s: string): (r: seq<string>)
    ensures |r| >= 1
    ensures forall i :: 0 <= i < |r| ==> '/' !in r[i]
  {
    if s == [] then [""]
    else
      var rest := Split(s[1..]);
      if s[0] == '/' then [""] + rest
      else [[s[0]] + rest[0]] + rest[1..]
  }

  /** `pieces.join('/')`. */
  function Join(pieces: seq<string>): string
  {
    if pieces == [] then ""
    else if |pieces| == 1 then pieces[0]
    else pieces[0] + "/" + Join(pieces[1..])
  }

  /** The pieces of `pieces` that are not "". */
  function NonEmpty(pieces: seq<string>): (r: seq<string>)
    ensures forall i :: 0 <= i < |r| ==> r[i] != "" && r[i] in pieces
  {
    if pieces == [] then []
    else if pieces[0] == "" then NonEmpty(pieces[1..])
    else [pieces[0]] + NonEmpty(pieces[1..])
  }

  /** The segments of one path. */
  function Segments(p: string): (r: seq<string>)
    ensures forall i :: 0 <= i < |r| ==> IsSegment(r[i])
  {
    NonEmpty(Split(p))
  }

  /** The segments of several paths, in order. */
  function SegmentsOf(parts: seq<string>): (r: seq<string>)
    ensures forall i :: 0 <= i < |r| ==> IsSegment(r[i])
  {
    if parts == [] then [] else Segments(parts[0]) + SegmentsOf(parts[1..])
  }

  /**
   * `URLExt.join(...parts)`. The result is already normalised: its segments
   * are those of its parts, in order.
   */
  function UrlJoin(parts: seq<string>): (r: string)
    ensures Segments(r) == SegmentsOf(parts)
  {
    SegmentsOfJoin(SegmentsOf(parts));
    Join(SegmentsOf(parts))
  }

  /** `PathExt.join(a, b)`: the segments of `a`, then those of `b`. */
  function PathJoin(a: string, b: string): (r: string)
    ensures Segments(r) == Segments(a) + Segments(b)
  {
    SegmentsOfPair(a, b);
    UrlJoin([a, b])
  }

  /** `PathExt.basename(p)`: the last segment, or "" when there is none. */
  function Basename(p: string): (r: string)
    ensures '/' !in r
    ensures r == "" <==> Segments(p) == []
    ensures r != "" ==> r == Segments(p)[|Segments(p)| - 1]
  {
    var segs := Segments(p);
    if segs == [] then "" else segs[|segs| - 1]
  }

  /** `PathExt.dirname(p)`: all segments but the last, or "" when there are none. */
  function Dirname(p: string): (r: string)
    ensures Segments(p) == [] ==> r == ""
    ensures Segments(p) != [] ==> Segments(r) == Segments(p)[..|Segments(p)| - 1]
  {
    var segs := Segments(p);
    if segs == [] then "" else SegmentsOfJoin(segs[..|segs| - 1]); Join(segs[..|segs| - 1])
  }

  /** Joining the pieces of a split gives the string back. */
  lemma {:induction false} JoinSplit(s: string)
    ensures Join(Split(s)) == s
  {
    if s != [] {
      var rest := Split(s[1..]);
      JoinSplit(s[1..]);
      if s[0] == '/' {
        assert Split(s) == [""] + rest;
        assert Join(Split(s)) == "" + "/" + Join(rest);
        assert s == "/" + s[1..];
      } else if |rest| == 1 {
        assert Split(s) == [[s[0]] + rest[0]];
        assert s == [s[0]] + s[1..];
      } else {
        assert Split(s) == [[s[0]] + rest[0]] + rest[1..];
        assert Join(rest) == rest[0] + "/" + Join(rest[1..]);
        assert Join(Split(s)) == [s[0]] + rest[0] + "/" + Join(rest[1..]);
        assert s == [s[0]] + s[1..];
      }
    }
  }

  /** Splitting a string that starts with a slash-free prefix. */
  lemma {:induction false} SplitPrefix(a: string, t: string)
    requires '/' !in a
    ensures Split(a + t) == [a + Split(t)[0]] + Split(t)[1..]
  {
    var st := Split(t);
    if a == [] {
      assert a + t == t;
      assert a + st[0] == st[0];
      assert [st[0]] + st[1..] == st;
    } else {
      SplitPrefix(a[1..], t);
      assert a[0] != '/';
      assert (a + t)[0] == a[0];
      assert (a + t)[1..] == a[1..] + t;
      var rest := Split(a[1..] + t);
      assert rest[0] == a[1..] + st[0];
      assert Split(a + t) == [[a[0]] + rest[0]] + rest[1..];
      assert [a[0]] + (a[1..] + st[0]) == a + st[0];
    }
  }

  /** Splitting a join of slash-free pieces gives the pieces back. */
  lemma {:induction false} SplitJoin(pieces: seq<string>)
    requires |pieces| >= 1
    requires forall i :: 0 <= i < |pieces| ==> '/' !in pieces[i]
    ensures Split(Join(pieces)) == pieces
  {
    var a := pieces[0];
    if |pieces| == 1 {
      SplitPrefix(a, "");
      assert a + "" == a;
    } else {
      var tail := Join(pieces[1..]);
      var st := Split("/" + tail);
      assert st == [""] + pieces[1..] by {
        assert ("/" + tail)[1..] == tail;
        SplitJoin(pieces[1..]);
      }
      assert Join(pieces) == a + ("/" + tail);
      calc {
        Split(Join(pieces));
        Split(a + ("/" + tail));
        { SplitPrefix(a, "/" + tail); }
        [a + st[0]] + st[1..];
        { assert a + "" == a; assert st[1..] == pieces[1..]; }
        [a] + pieces[1..];
        pieces;
      }
    }
  }

  /** Dropping empty pieces leaves a list without empty pieces as it is. */
  lemma {:induction false} NonEmptyOfSegments(segs: seq<string>)
    requires forall i :: 0 <= i < |segs| ==> segs[i] != ""
    ensures NonEmpty(segs) == segs
  {
    if segs != [] {
      NonEmptyOfSegments(segs[1..]);
      assert segs == [segs[0]] + segs[1..];
    }
  }

  /** A join of segments has exactly those segments. */
  lemma SegmentsOfJoin(segs: seq<string>)
    requires forall i :: 0 <= i < |segs| ==> IsSegment(segs[i])
    ensures Segments(Join(segs)) == segs
  {
    if segs == [] {
      assert Split("") == [""];
    } else {
      SplitJoin(segs);
      NonEmptyOfSegments(segs);
    }
  }

  /** A single segment is its own only segment. */
  lemma SegmentsOfSegment(n: string)
    requires IsSegment(n)
    ensures Segments(n) == [n] && Basename(n) == n
  {
    SegmentsOfJoin([n]);
  }

  /** Joining two lists of pieces puts one slash between them. */
  lemma {:induction false} JoinAppend(a: seq<string>, b: seq<string>)
    requires a != [] && b != []
    ensures Join(a + b) == Join(a) + "/" + Join(b)
  {
    if |a| == 1 {
      assert a + b == [a[0]] + b;
    } else {
      JoinAppend(a[1..], b);
      assert (a + b)[1..] == a[1..] + b;
    }
  }

  /** The segments of two lists of paths are those of the first, then those of the second. */
  lemma {:induction false} SegmentsOfAppend(a: seq<string>, b: seq<string>)
    ensures SegmentsOf(a + b) == SegmentsOf(a) + SegmentsOf(b)
  {
    if a == [] {
      assert a + b == b;
    } else {
      var ab := a + b;
      assert ab[0] == a[0] && ab[1..] == a[1..] + b;
      SegmentsOfAppend(a[1..], b);
      var h, t, u := Segments(a[0]), SegmentsOf(a[1..]), SegmentsOf(b);
      assert SegmentsOf(ab) == h + (t + u);
      assert SegmentsOf(a) == h + t;
      assert h + (t + u) == (h + t) + u;
    }
  }

  /** Paths that are single segments are their own segments. */
  lemma {:induction false} SegmentsOfSegments(parts: seq<string>)
    requires forall i :: 0 <= i < |parts| ==> IsSegment(parts[i])
    ensures SegmentsOf(parts) == parts
  {
    if parts != [] {
      SegmentsOfSegment(parts[0]);
      SegmentsOfSegments(parts[1..]);
      assert [parts[0]] + parts[1..] == parts;
    }
  }

  /** A join of pieces is never empty when its first piece is not. */
  lemma JoinNonEmpty(pieces: seq<string>)
    requires pieces != [] && pieces[0] != ""
    ensures Join(pieces) != ""
  {
    if |pieces| > 1 {
      assert Join(pieces) == pieces[0] + "/" + Join(pieces[1..]);
      assert |Join(pieces)| >= |pieces[0]|;
    }
  }

  /** The segments of some segments followed by a joined path: the segments, then the path's. */
  lemma SegmentsThenPath(head: seq<string>, rest: seq<string>)
    requires forall i :: 0 <= i < |head| ==> IsSegment(head[i])
    requires forall i :: 0 <= i < |rest| ==> IsSegment(rest[i])
    ensures SegmentsOf(head + [Join(rest)]) == head + rest
  {
    var p := Join(rest);
    assert SegmentsOf([p]) == rest by {
      SegmentsOfJoin(rest);
      assert SegmentsOf([p]) == Segments(p) + SegmentsOf([]);
    }
    assert SegmentsOf(head) == head by {
      SegmentsOfSegments(head);
    }
    SegmentsOfAppend(head, [p]);
  }

  /** Joining segments followed by a path that is already joined: one slash between, none when the path is empty. */
  lemma UrlJoinThenPath(head: seq<string>, rest: seq<string>)
    requires head != []
    requires forall i :: 0 <= i < |head| ==> IsSegment(head[i])
    requires forall i :: 0 <= i < |rest| ==> IsSegment(rest[i])
    ensures UrlJoin(head + [Join(rest)]) == Join(head) + (if rest == [] then "" else "/" + Join(rest))
  {
    var joined := head + rest;
    assert UrlJoin(head + [Join(rest)]) == Join(joined) by {
      SegmentsThenPath(head, rest);
    }
    if rest == [] {
      assert head + rest == head;
      assert Join(head) + "" == Join(head);
    } else {
      JoinAppend(head, rest);
    }
  }

  /** `UrlJoinThenPath` for four leading segments. */
  lemma UrlJoinFourThenPath(a: string, b: string, c: string, d: string, rest: seq<string>)
    requires IsSegment(a) && IsSegment(b) && IsSegment(c) && IsSegment(d)
    requires forall i :: 0 <= i < |rest| ==> IsSegment(rest[i])
    ensures UrlJoin([a, b, c, d, Join(rest)])
      == a + "/" + b + "/" + c + "/" + d + (if rest == [] then "" else "/" + Join(rest))
  {
    UrlJoinFourThenPathAsJoin(a, b, c, d, rest);
    JoinFour(a, b, c, d);
  }

  /** `UrlJoinFourThenPath` for a last part given as a path: it contributes its normalised form. */
  lemma UrlJoinFourThenAnyPath(a: string, b: string, c: string, d: string, p: string)
    requires IsSegment(a) && IsSegment(b) && IsSegment(c) && IsSegment(d)
    ensures UrlJoin([a, b, c, d, p])
      == a + "/" + b + "/" + c + "/" + d + (if Segments(p) == [] then "" else "/" + Join(Segments(p)))
  {
    var rest := Segments(p);
    var head := [a, b, c, d];
    assert SegmentsOf([a, b, c, d, p]) == SegmentsOf([a, b, c, d, Join(rest)]) by {
      assert SegmentsOf([p]) == rest + SegmentsOf([]);
      assert SegmentsOf([Join(rest)]) == rest by {
        SegmentsOfJoin(rest);
        assert SegmentsOf([Join(rest)]) == Segments(Join(rest)) + SegmentsOf([]);
      }
      assert [a, b, c, d, p] == head + [p];
      assert [a, b, c, d, Join(rest)] == head + [Join(rest)];
      SegmentsOfAppend(head, [p]);
      SegmentsOfAppend(head, [Join(rest)]);
    }
    UrlJoinFourThenPath(a, b, c, d, rest);
  }

  /** `UrlJoinFourThenPath` before the four leading segments are joined out. */
  lemma UrlJoinFourThenPathAsJoin(a: string, b: string, c: string, d: string, rest: seq<string>)
    requires IsSegment(a) && IsSegment(b) && IsSegment(c) && IsSegment(d)
    requires forall i :: 0 <= i < |rest| ==> IsSegment(rest[i])
    ensures UrlJoin([a, b, c, d, Join(rest)]) == Join([a, b, c, d]) + (if rest == [] then "" else "/" + Join(rest))
  {
    var head := [a, b, c, d];
    FourSegments(a, b, c, d);
    assert [a, b, c, d, Join(rest)] == head + [Join(rest)];
    UrlJoinThenPath(head, rest);
  }

  /** The URL of three segments puts a slash between each. */
  lemma UrlJoinThree(a: string, b: string, c: string)
    requires IsSegment(a) && IsSegment(b) && IsSegment(c)
    ensures UrlJoin([a, b, c]) == a + "/" + b + "/" + c
  {
    assert UrlJoin([a, b, c]) == Join([a, b, c]) by {
      ThreeSegments(a, b, c);
      SegmentsOfSegments([a, b, c]);
    }
    JoinAppend([a], [b]);
    assert [a] + [b] == [a, b];
    JoinAppend([a, b], [c]);
    assert [a, b] + [c] == [a, b, c];
  }

  /** The URL of six segments puts a slash between each. */
  lemma UrlJoinSix(a: string, b: string, c: string, d: string, e: string, f: string)
    requires IsSegment(a) && IsSegment(b) && IsSegment(c) && IsSegment(d) && IsSegment(e) && IsSegment(f)
    ensures UrlJoin([a, b, c, d, e, f]) == a + "/" + b + "/" + c + "/" + d + "/" + e + "/" + f
  {
    assert UrlJoin([a, b, c, d, e, f]) == Join([a, b, c, d, e, f]) by {
      SixSegments(a, b, c, d, e, f);
      SegmentsOfSegments([a, b, c, d, e, f]);
    }
    JoinFour(a, b, c, d);
    JoinAppend([a, b, c, d], [e]);
    assert [a, b, c, d] + [e] == [a, b, c, d, e];
    JoinAppend([a, b, c, d, e], [f]);
    assert [a, b, c, d, e] + [f] == [a, b, c, d, e, f];
  }

  /** Six single segments, as a list of single segments. */
  lemma SixSegments(a: string, b: string, c: string, d: string, e: string, f: string)
    requires IsSegment(a) && IsSegment(b) && IsSegment(c) && IsSegment(d) && IsSegment(e) && IsSegment(f)
    ensures forall i :: 0 <= i < |[a, b, c, d, e, f]| ==> IsSegment([a, b, c, d, e, f][i])
  {
  }

  /** Three single segments, as a list of single segments. */
  lemma ThreeSegments(a: string, b: string, c: string)
    requires IsSegment(a) && IsSegment(b) && IsSegment(c)
    ensures forall i :: 0 <= i < |[a, b, c]| ==> IsSegment([a, b, c][i])
  {
  }

  /** Four single segments, as a list of single segments. */
  lemma FourSegments(a: string, b: string, c: string, d: string)
    requires IsSegment(a) && IsSegment(b) && IsSegment(c) && IsSegment(d)
    ensures forall i :: 0 <= i < |[a, b, c, d]| ==> IsSegment([a, b, c, d][i])
  {
  }

  /** Joining four pieces puts a slash between each. */
  lemma JoinFour(a: string, b: string, c: string, d: string)
    ensures Join([a, b, c, d]) == a + "/" + b + "/" + c + "/" + d
  {
    JoinAppend([a], [b]);
    assert [a] + [b] == [a, b];
    JoinAppend([a, b], [c]);
    assert [a, b] + [c] == [a, b, c];
    JoinAppend([a, b, c], [d]);
    assert [a, b, c] + [d] == [a, b, c, d];
  }

  /** The segments of two paths are those of the first, then those of the second. */
  lemma SegmentsOfPair(a: string, b: string)
    ensures SegmentsOf([a, b]) == Segments(a) + Segments(b)
  {
    assert SegmentsOf([b]) == Segments(b) + SegmentsOf([]);
    assert [a, b][1..] == [b];
  }

  /** Appending a segment: the result's last segment is it, and the rest is the parent. */
  lemma BasenameOfPathJoin(p: string, n: string)
    requires IsSegment(n)
    ensures Segments(PathJoin(p, n)) == Segments(p) + [n]
    ensures Basename(PathJoin(p, n)) == n
    ensures Dirname(PathJoin(p, n)) == Join(Segments(p))
  {
    SegmentsOfSegment(n);
    SegmentsOfPair(p, n);
    var segs := Segments(PathJoin(p, n));
    assert segs[..|segs| - 1] == Segments(p);
  }

  /** `PathExt.join(PathExt.dirname(p), PathExt.basename(p))` is `p` normalised. */
  lemma DirnameBasename(p: string)
    requires Segments(p) != []
    ensures PathJoin(Dirname(p), Basename(p)) == Join(Segments(p))
  {
    var segs := Segments(p);
    var k := |segs| - 1;
    var d, b := Dirname(p), Basename(p);
    assert Segments(d) == segs[..k] && b == segs[k];
    assert SegmentsOf([d, b]) == segs by {
      SegmentsOfSegment(b);
      SegmentsOfPair(d, b);
      assert segs[..k] + [b] == segs;
    }
    assert PathJoin(d, b) == Join(SegmentsOf([d, b]));
  }
}
