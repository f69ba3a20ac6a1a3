/** `compute_shoreline`: the contours traced at sea level are scaled to model units,
    the first half of the list is examined, closed contours are closed explicitly
    and measured, short or degenerate ones are dropped, and the kept ones are
    returned in order together with their concatenation. */
module Shoreline {
  import opened Numerics
  import opened Outcomes

  /** A contour is closed when its first vertex is its last. */
  predicate IsClosed(p: Polyline)
  {
    p[0] == p[|p| - 1]
  }

  /** `np.fliplr(contour * sdx)`: scale both coordinates and swap them. */
  function ScaleFlip(p: Polyline, sdx: real): (q: Polyline)
    ensures |q| == |p|
    ensures forall i :: 0 <= i < |p| ==> q[i] == Point(p[i].y * sdx, p[i].x * sdx)
  {
    seq(|p|, i requires 0 <= i < |p| => Point(p[i].y * sdx, p[i].x * sdx))
  }

  /** Scaling and swapping keeps a closed contour closed. */
  lemma ScaleFlipKeepsClosed(p: Polyline, sdx: real)
    requires IsClosed(p)
    ensures IsClosed(ScaleFlip(p, sdx))
  {
  }

  /** Scaled contours, in the order traced. */
  function ScaleAll(cs: seq<Polyline>, sdx: real): (r: seq<Polyline>)
    ensures |r| == |cs|
    ensures forall c :: 0 <= c < |cs| ==> r[c] == ScaleFlip(cs[c], sdx)
  {
    seq(|cs|, c requires 0 <= c < |cs| => ScaleFlip(cs[c], sdx))
  }

  /** The contours `compute_shoreline` looks at: the first `len // 2` of the scaled list. */
  function Examined(traced: seq<Polyline>, sdx: real): (r: seq<Polyline>)
    ensures |r| == |traced| / 2
    ensures forall c :: 0 <= c < |r| ==> r[c] == ScaleFlip(traced[c], sdx)
  {
    ScaleAll(traced, sdx)[..|traced| / 2]
  }

  /** A closed contour with its first vertex appended once more. */
  function Close(p: Polyline): (q: Polyline)
    ensures |q| == |p| + 1 && q[..|p|] == p && q[|p|] == p[0]
    ensures IsClosed(q)
  {
    p + [p[0]]
  }

  /** Sum of the lengths of the segments between consecutive vertices. */
  function PathLength(k: Kernels, p: seq<Point>): real
  {
    if |p| < 2 then 0.0
    else
      var a, b := p[|p| - 2], p[|p| - 1];
      PathLength(k, p[..|p| - 1]) + k.hypot(a.x - b.x, a.y - b.y)
  }

  /** The length given to an open contour. */
  const OpenLength: real := 100000000.0

  /** A contour as the filter sees it: its vertices and its length. */
  datatype Measured = Measured(pts: Polyline, length: real)

  function Measure(k: Kernels, p: Polyline): (m: Measured)
    ensures IsClosed(p) ==> m.pts == Close(p) && m.length == PathLength(k, Close(p))
    ensures !IsClosed(p) ==> m.pts == p && m.length == OpenLength
  {
    if IsClosed(p) then
      var c := Close(p);
      Measured(c, PathLength(k, c))
    else Measured(p, OpenLength)
  }

  /** The filter: more than two vertices and a length above `mlen`. */
  predicate Kept(k: Kernels, p: Polyline, mlen: real)
  {
    var m := Measure(k, p);
    |m.pts| > 2 && m.length > mlen
  }

  /** The kept contours, prepared, in the order examined (the loop's `contourList`). */
  function KeptContours(k: Kernels, cs: seq<Polyline>, mlen: real): seq<Polyline>
  {
    if cs == [] then []
    else
      var last := cs[|cs| - 1];
      KeptContours(k, cs[..|cs| - 1], mlen) + (if Kept(k, last, mlen) then [Measure(k, last).pts] else [])
  }

  /** All vertices of a list of contours, one after the other. */
  function Concat(ps: seq<Polyline>): seq<Point>
  {
    if ps == [] then [] else Concat(ps[..|ps| - 1]) + ps[|ps| - 1]
  }

  /** The result of `compute_shoreline` on the traced contours. */
  function ShorelineOf(k: Kernels, traced: seq<Polyline>, sdx: real, mlen: real): Result<(seq<Point>, seq<Polyline>)>
  {
    var kept := KeptContours(k, Examined(traced, sdx), mlen);
    if kept == [] then Failure(UnboundContourPts) else Success((Concat(kept), kept))
  }

  /** Filtering distributes over concatenation, so the kept contours keep their order. */
  lemma {:induction false} KeptContoursAppend(k: Kernels, a: seq<Polyline>, b: seq<Polyline>, mlen: real)
    ensures KeptContours(k, a + b, mlen) == KeptContours(k, a, mlen) + KeptContours(k, b, mlen)
    decreases |b|
  {
    if b != [] {
      var n := |b| - 1;
      assert (a + b)[..|a + b| - 1] == a + b[..n];
      assert (a + b)[|a + b| - 1] == b[n];
      KeptContoursAppend(k, a, b[..n], mlen);
    } else {
      assert a + b == a;
    }
  }

  /** Concatenation of vertex lists distributes over concatenation of contour lists. */
  lemma {:induction false} ConcatAppend(a: seq<Polyline>, b: seq<Polyline>)
    ensures Concat(a + b) == Concat(a) + Concat(b)
    decreases |b|
  {
    if b != [] {
      var n := |b| - 1;
      assert (a + b)[..|a + b| - 1] == a + b[..n];
      assert (a + b)[|a + b| - 1] == b[n];
      ConcatAppend(a, b[..n]);
    } else {
      assert a + b == a;
    }
  }

  /** A contour is in the result exactly when some examined contour passes the
      filter and prepares to it. */
  lemma {:induction false} KeptContoursMembers(k: Kernels, cs: seq<Polyline>, mlen: real, q: Polyline)
    ensures q in KeptContours(k, cs, mlen) <==>
      exists c :: 0 <= c < |cs| && Kept(k, cs[c], mlen) && q == Measure(k, cs[c]).pts
  {
    if cs != [] {
      var n := |cs| - 1;
      var pre := cs[..n];
      KeptContoursMembers(k, pre, mlen, q);
      var rest := KeptContours(k, pre, mlen);
      var tail := if Kept(k, cs[n], mlen) then [Measure(k, cs[n]).pts] else [];
      assert KeptContours(k, cs, mlen) == rest + tail;
      if q in rest {
        var c :| 0 <= c < n && Kept(k, pre[c], mlen) && q == Measure(k, pre[c]).pts;
        assert pre[c] == cs[c];
      } else if q in tail {
        assert Kept(k, cs[n], mlen) && q == Measure(k, cs[n]).pts;
      } else {
        forall c | 0 <= c < |cs| && Kept(k, cs[c], mlen)
          ensures q != Measure(k, cs[c]).pts
        {
          if c < n {
            assert pre[c] == cs[c];
          }
        }
      }
    }
  }

  /** Every kept contour has more than two vertices, and it is closed exactly when
      the contour it came from was traced closed, in which case its last vertex
      repeats its first. */
  lemma {:induction false} KeptContoursShape(k: Kernels, cs: seq<Polyline>, mlen: real)
    ensures forall q :: q in KeptContours(k, cs, mlen) ==> |q| > 2
    ensures forall q :: q in KeptContours(k, cs, mlen) ==>
      exists c :: 0 <= c < |cs| && q == Measure(k, cs[c]).pts && (IsClosed(q) <==> IsClosed(cs[c]))
  {
    if cs != [] {
      var n := |cs| - 1;
      KeptContoursShape(k, cs[..n], mlen);
      forall q | q in KeptContours(k, cs, mlen)
        ensures |q| > 2
        ensures exists c :: 0 <= c < |cs| && q == Measure(k, cs[c]).pts && (IsClosed(q) <==> IsClosed(cs[c]))
      {
        if q in KeptContours(k, cs[..n], mlen) {
          var c :| 0 <= c < n && q == Measure(k, cs[..n][c]).pts && (IsClosed(q) <==> IsClosed(cs[..n][c]));
          assert cs[..n][c] == cs[c];
        } else {
          assert q == Measure(k, cs[n]).pts && Kept(k, cs[n], mlen);
          OpenStaysOpen(k, cs[n]);
        }
      }
    }
  }

  /** Preparing a contour makes it closed exactly when it was traced closed. */
  lemma OpenStaysOpen(k: Kernels, p: Polyline)
    ensures IsClosed(Measure(k, p).pts) <==> IsClosed(p)
  {
  }

  /** The shoreline fails exactly when no examined contour passes the filter; on
      success the vertex list is the concatenation of the kept contours. */
  lemma ShorelineFailsIffNothingKept(k: Kernels, traced: seq<Polyline>, sdx: real, mlen: real)
    ensures ShorelineOf(k, traced, sdx, mlen).Failure? <==>
      forall c :: 0 <= c < |traced| / 2 ==> !Kept(k, ScaleFlip(traced[c], sdx), mlen)
    ensures ShorelineOf(k, traced, sdx, mlen).Failure? ==> ShorelineOf(k, traced, sdx, mlen).error == UnboundContourPts
  {
    var ex := Examined(traced, sdx);
    if KeptContours(k, ex, mlen) == [] {
      forall c | 0 <= c < |traced| / 2
        ensures !Kept(k, ScaleFlip(traced[c], sdx), mlen)
      {
        KeptContoursMembers(k, ex, mlen, Measure(k, ex[c]).pts);
      }
    } else {
      var q := KeptContours(k, ex, mlen)[0];
      KeptContoursMembers(k, ex, mlen, q);
    }
  }

  /** Only the first half of the traced list matters: the second half may be anything. */
  lemma ShorelineIgnoresSecondHalf(k: Kernels, t1: seq<Polyline>, t2: seq<Polyline>, sdx: real, mlen: real)
    requires |t1| == |t2| && t1[..|t1| / 2] == t2[..|t2| / 2]
    ensures ShorelineOf(k, t1, sdx, mlen) == ShorelineOf(k, t2, sdx, mlen)
  {
    var e1, e2 := Examined(t1, sdx), Examined(t2, sdx);
    forall c | 0 <= c < |e1| ensures e1[c] == e2[c] {
      assert t1[..|t1| / 2][c] == t2[..|t2| / 2][c];
    }
    assert e1 == e2;
  }
}
