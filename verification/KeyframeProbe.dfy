/** Grouping keyframes into Segment Boundaries (internal/streaming/keyframe_probe.go). */
module KeyframeProbe {
  import opened SegmentTable

  /** The keyframes a greedy cutter standing at cur takes: each time the first one at least
      target further on. */
  function Cuts(kf: seq<real>, cur: real, target: real): seq<real> {
    if kf == [] then []
    else if kf[0] - cur >= target then [kf[0]] + Cuts(kf[1..], kf[0], target)
    else Cuts(kf[1..], cur, target)
  }

  /** The distance from one point to the next. */
  function Step(points: seq<real>, i: nat): real
    requires i + 1 < |points|
  {
    points[i + 1] - points[i]
  }

  /** The segments between consecutive points. */
  function Pieces(points: seq<real>): (segs: seq<SegmentBoundary>)
    requires |points| > 0
    ensures |segs| == |points| - 1
    ensures forall i :: 0 <= i < |segs| ==> segs[i] == SegmentBoundary(points[i], Step(points, i))
  {
    seq(|points| - 1, i requires 0 <= i < |points| - 1 => SegmentBoundary(points[i], Step(points, i)))
  }

  /** The segment starts that remain once a tail shorter than a second is merged away. */
  function Kept(cuts: seq<real>, total: real): (points: seq<real>)
    ensures |points| > 0
  {
    var points := [0.0] + cuts;
    if total - points[|cuts|] >= 1.0 || cuts == [] then points else points[..|cuts|]
  }

  /** The table of a video with keyframes kf; empty for one without a duration. */
  function Grouped(kf: seq<real>, total: real, target: real): seq<SegmentBoundary> {
    if total <= 0.0 then [] else Pieces(Kept(Cuts(kf, 0.0, target), total) + [total])
  }

  method GroupSegments(kfPts: seq<real>, total: real, target: real) returns (segs: seq<SegmentBoundary>)
    ensures segs == Grouped(kfPts, total, target)
  {
    segs := [];
    if total <= 0.0 {
      return;
    }
    var cur := 0.0;
    ghost var points := [0.0];
    for i := 0 to |kfPts|
      invariant |points| > 0 && cur == points[|points| - 1]
      invariant segs == Pieces(points)
      invariant [0.0] + Cuts(kfPts, 0.0, target) == points + Cuts(kfPts[i..], cur, target)
    {
      var pts := kfPts[i];
      CutsStep(kfPts, i, cur, target, points);
      if pts - cur >= target {
        PiecesAppend(points, pts);
        segs := segs + [SegmentBoundary(cur, pts - cur)];
        cur := pts;
        points := points + [pts];
      }
    }
    assert points == [0.0] + Cuts(kfPts, 0.0, target);
    assert Cuts(kfPts, 0.0, target) == points[1..];
    if total - cur >= 1.0 || |segs| == 0 {
      PiecesAppend(points, total);
      segs := segs + [SegmentBoundary(cur, total - cur)];
    } else {
      PiecesMerge(points, total);
      var last := |segs| - 1;
      segs := segs[last := segs[last].(duration := total - segs[last].start)];
    }
  }

  lemma CutsStep(kf: seq<real>, i: nat, cur: real, target: real, points: seq<real>)
    requires i < |kf|
    ensures points + Cuts(kf[i..], cur, target) ==
            if kf[i] - cur >= target then points + [kf[i]] + Cuts(kf[i + 1..], kf[i], target)
            else points + Cuts(kf[i + 1..], cur, target)
  {
    assert kf[i..][1..] == kf[i + 1..];
  }

  lemma PiecesAppend(points: seq<real>, p: real)
    requires |points| > 0
    ensures var last := points[|points| - 1];
            Pieces(points + [p]) == Pieces(points) + [SegmentBoundary(last, p - last)]
  {
  }

  lemma PiecesMerge(points: seq<real>, p: real)
    requires |points| > 1
    ensures var segs := Pieces(points);
            var last := |segs| - 1;
            segs[last := segs[last].(duration := p - segs[last].start)] == Pieces(points[..|points| - 1] + [p])
  {
  }

  // ----- Tiling -----

  /** Consecutive points are at least target apart. */
  ghost predicate Spaced(points: seq<real>, target: real) {
    forall i: nat :: i + 1 < |points| ==> Step(points, i) >= target
  }

  lemma SpacedCons(p: real, rest: seq<real>, target: real)
    requires Spaced(rest, target)
    requires rest != [] ==> rest[0] - p >= target
    ensures Spaced([p] + rest, target)
  {
    forall i: nat | i + 1 < |[p] + rest| ensures Step([p] + rest, i) >= target {
      if i > 0 { assert Step([p] + rest, i) == Step(rest, i - 1); }
    }
  }

  lemma SpacedTail(points: seq<real>, target: real)
    requires Spaced(points, target) && points != []
    ensures Spaced(points[1..], target)
  {
    forall i: nat | i + 1 < |points[1..]| ensures Step(points[1..], i) >= target {
      assert Step(points[1..], i) == Step(points, i + 1);
    }
  }

  lemma {:induction false} CutsAreSpacedKeyframes(kf: seq<real>, cur: real, target: real)
    ensures Spaced([cur] + Cuts(kf, cur, target), target)
    ensures forall c :: c in Cuts(kf, cur, target) ==> c in kf
  {
    if kf != [] {
      if kf[0] - cur >= target {
        CutsAreSpacedKeyframes(kf[1..], kf[0], target);
        SpacedCons(cur, [kf[0]] + Cuts(kf[1..], kf[0], target), target);
      } else {
        CutsAreSpacedKeyframes(kf[1..], cur, target);
      }
    }
  }

  lemma {:induction false} SpacedRises(points: seq<real>, target: real, i: nat, j: nat)
    requires Spaced(points, target) && target > 0.0
    requires i < j < |points|
    ensures points[i] + target <= points[j]
  {
    assert Step(points, j - 1) >= target;
    if i < j - 1 {
      SpacedRises(points, target, i, j - 1);
    }
  }

  /** What the tail merge leaves of the starts of a spaced cut list. */
  lemma KeptStarts(cuts: seq<real>, total: real, target: real)
    requires Spaced([0.0] + cuts, target) && target >= 1.0 && total > 0.0
    ensures Kept(cuts, total)[0] == 0.0
    ensures Kept(cuts, total) <= [0.0] + cuts
    ensures Spaced(Kept(cuts, total), target)
    ensures Kept(cuts, total)[|Kept(cuts, total)| - 1] < total <==> (|cuts| >= 2 ==> cuts[|cuts| - 2] < total)
  {
    var all := [0.0] + cuts;
    var starts := Kept(cuts, total);
    forall i: nat | i + 1 < |starts| ensures Step(starts, i) >= target {
      assert Step(starts, i) == Step(all, i);
    }
    if |cuts| >= 1 {
      assert Step(all, |cuts| - 1) >= target;
    }
  }

  /** Spaced starts make a tiling exactly when the last of them lies before total. */
  lemma StartsTile(starts: seq<real>, total: real, target: real)
    requires |starts| > 0 && starts[0] == 0.0 && target > 0.0
    requires Spaced(starts, target)
    ensures Tiles(Pieces(starts + [total]), total) <==> starts[|starts| - 1] < total
    ensures forall i :: 0 <= i < |starts| - 1 ==> Pieces(starts + [total])[i].duration >= target
  {
    var points := starts + [total];
    var segs := Pieces(points);
    forall i | 0 <= i < |starts| - 1 ensures segs[i].duration >= target {
      assert Step(points, i) == Step(starts, i);
    }
    var last := |starts| - 1;
    assert segs[last].duration == Step(points, last) == total - starts[last];
    if starts[last] < total {
      forall i | 0 <= i < |segs| ensures segs[i].duration > 0.0 {
        if i == last {} else { assert segs[i].duration >= target; }
      }
    }
  }

  /** For keyframes in any order, even past the end, the table tiles [0, total) exactly when at
      most one cut lies at or past total: only one such cut can be merged away. */
  lemma TilesIffOneCutPastTotal(kf: seq<real>, total: real, target: real)
    requires total > 0.0 && target >= 1.0
    ensures var cuts := Cuts(kf, 0.0, target);
            Tiles(Grouped(kf, total, target), total) <==> (|cuts| >= 2 ==> cuts[|cuts| - 2] < total)
  {
    var cuts := Cuts(kf, 0.0, target);
    CutsAreSpacedKeyframes(kf, 0.0, target);
    KeptStarts(cuts, total, target);
    var starts := Kept(cuts, total);
    StartsTile(starts, total, target);
    assert Grouped(kf, total, target) == Pieces(starts + [total]);
  }

  /** Three keyframes past the end of an 8 s file leave a last segment of negative duration. */
  lemma KeyframesPastTotalBreakTiling()
    ensures !Tiles(Grouped([7.0, 14.0, 21.0], 8.0, 6.0), 8.0)
  {
    assert Cuts([7.0, 14.0, 21.0], 0.0, 6.0) == [7.0, 14.0, 21.0] by {
      assert Cuts([21.0], 14.0, 6.0) == [21.0];
      assert Cuts([14.0, 21.0], 7.0, 6.0) == [14.0, 21.0];
    }
    TilesIffOneCutPastTotal([7.0, 14.0, 21.0], 8.0, 6.0);
  }

  lemma GroupedIsCuttable(kf: seq<real>, total: real, target: real)
    requires total > 0.0 && target >= 1.0
    requires forall k :: k in kf ==> k <= total
    ensures Cuttable(Grouped(kf, total, target), kf, total, target)
  {
    var cuts := Cuts(kf, 0.0, target);
    CutsAreSpacedKeyframes(kf, 0.0, target);
    KeptStarts(cuts, total, target);
    var starts := Kept(cuts, total);
    LastKeptLeavesASecond(cuts, total, target, kf);
    StartsTile(starts, total, target);
    var segs := Pieces(starts + [total]);
    forall i | 0 < i < |segs| ensures segs[i].start in kf {
      assert segs[i].start == starts[i] == cuts[i - 1];
    }
    assert segs[|segs| - 1].duration == total - starts[|starts| - 1];
  }

  lemma LastKeptLeavesASecond(cuts: seq<real>, total: real, target: real, kf: seq<real>)
    requires Spaced([0.0] + cuts, target) && target >= 1.0 && total > 0.0
    requires forall c :: c in cuts ==> c in kf
    requires forall k :: k in kf ==> k <= total
    ensures var starts := Kept(cuts, total);
            var left := total - starts[|starts| - 1];
            left > 0.0 && (|starts| > 1 || cuts != [] ==> left >= 1.0)
  {
    if cuts != [] {
      assert cuts[|cuts| - 1] in cuts;
      assert Step([0.0] + cuts, |cuts| - 1) >= target;
    }
  }

  // ----- Greedy stays ahead -----

  ghost predicate Sorted(kf: seq<real>) {
    forall i, j :: 0 <= i < j < |kf| ==> kf[i] <= kf[j]
  }

  /** Whatever chain walks through keyframes from a point at or past cur in steps of at least
      target, the greedy cutter at cur makes at least as many cuts, none later than the chain's. */
  lemma {:induction false} CutsStayAhead(kf: seq<real>, cur: real, target: real, from: real, chain: seq<real>)
    requires Sorted(kf) && target > 0.0 && cur <= from
    requires Spaced([from] + chain, target)
    requires forall c :: c in chain ==> c in kf
    ensures |chain| <= |Cuts(kf, cur, target)|
    ensures forall k :: 0 <= k < |chain| ==> Cuts(kf, cur, target)[k] <= chain[k]
    decreases |kf|
  {
    if chain != [] {
      var path := [from] + chain;
      var first := chain[0];
      assert first in chain;
      assert first in kf;
      assert kf != [];
      if kf[0] - cur >= target {
        var rest := chain[1..];
        SpacedTail(path, target);
        assert path[1..] == [chain[0]] + rest;
        ChainLeavesHead(kf, target, chain[0], rest);
        CutsStayAhead(kf[1..], kf[0], target, chain[0], rest);
        assert chain == [chain[0]] + rest;
      } else {
        ChainLeavesHead(kf, target, from, chain);
        CutsStayAhead(kf[1..], cur, target, from, chain);
      }
    }
  }

  /** A chain every cut of which is past the first keyframe walks through the others. */
  lemma ChainLeavesHead(kf: seq<real>, target: real, from: real, chain: seq<real>)
    requires Sorted(kf) && target > 0.0 && kf != []
    requires Spaced([from] + chain, target)
    requires from + target > kf[0]
    requires forall c :: c in chain ==> c in kf
    ensures forall c :: c in chain ==> c in kf[1..]
  {
    forall c | c in chain ensures c in kf[1..] {
      var k :| 0 <= k < |chain| && chain[k] == c;
      SpacedRises([from] + chain, target, 0, k + 1);
      assert c in kf && c != kf[0];
      assert kf == [kf[0]] + kf[1..];
    }
  }

  /** No table that could be cut from the same keyframes has more segments, and none of its
      boundaries comes earlier than the corresponding one of GroupSegments. */
  lemma GroupedIsFinest(kf: seq<real>, total: real, target: real, other: seq<SegmentBoundary>)
    requires Sorted(kf) && target >= 1.0 && total > 0.0
    requires Cuttable(other, kf, total, target)
    ensures |other| <= |Grouped(kf, total, target)|
    ensures forall k :: 0 <= k < |other| ==> Grouped(kf, total, target)[k].start <= other[k].start
  {
    var chain := Starts(other)[1..];
    assert [0.0] + chain == Starts(other);
    StartsAreSpaced(other, kf, total, target);
    CutsStayAhead(kf, 0.0, target, 0.0, chain);
    OtherLeavesASecond(other, kf, total, target);
    EarlierCutsMakeMore(Cuts(kf, 0.0, target), chain, total);
    var points := Kept(Cuts(kf, 0.0, target), total) + [total];
    forall k | 0 <= k < |other| ensures Pieces(points)[k].start <= other[k].start {
      assert Starts(other)[k] == other[k].start;
    }
  }

  lemma OtherLeavesASecond(other: seq<SegmentBoundary>, kf: seq<real>, total: real, target: real)
    requires Cuttable(other, kf, total, target)
    ensures |other| > 1 ==> Starts(other)[1..][|other| - 2] <= total - 1.0
  {
    var last := other[|other| - 1];
    assert last.End() == last.start + last.duration;
  }

  /** Cuts that come no later than those of a chain leaving a full last second survive the merge. */
  lemma EarlierCutsMakeMore(cuts: seq<real>, chain: seq<real>, total: real)
    requires |chain| <= |cuts|
    requires forall k :: 0 <= k < |chain| ==> cuts[k] <= chain[k]
    requires chain != [] ==> chain[|chain| - 1] <= total - 1.0
    ensures |chain| + 1 <= |Kept(cuts, total)|
    ensures forall k :: 0 <= k <= |chain| ==> Kept(cuts, total)[k] <= ([0.0] + chain)[k]
  {
    if |chain| == |cuts| && chain != [] {
      assert cuts[|chain| - 1] <= chain[|chain| - 1];
    }
  }

  function Starts(segs: seq<SegmentBoundary>): (points: seq<real>)
    ensures |points| == |segs|
    ensures forall i :: 0 <= i < |segs| ==> points[i] == segs[i].start
  {
    seq(|segs|, i requires 0 <= i < |segs| => segs[i].start)
  }

  lemma StartsAreSpaced(segs: seq<SegmentBoundary>, kf: seq<real>, total: real, target: real)
    requires Cuttable(segs, kf, total, target)
    ensures Spaced(Starts(segs), target)
    ensures forall c :: c in Starts(segs)[1..] ==> c in kf
  {
    forall i: nat | i + 1 < |segs| ensures Step(Starts(segs), i) >= target {
      assert Follows(segs, i + 1);
    }
    forall c | c in Starts(segs)[1..] ensures c in kf {
      var k :| 0 <= k < |segs| - 1 && Starts(segs)[1..][k] == c;
      assert segs[k + 1].start in kf;
    }
  }

  // ----- Segments are short -----

  /** No keyframe is more than gap after the one before it (seen, for the first). */
  ghost predicate GapsWithin(kf: seq<real>, seen: real, gap: real)
    decreases |kf|
  {
    kf == [] || (kf[0] - seen <= gap && GapsWithin(kf[1..], kf[0], gap))
  }

  /** Every segment but the last is shorter than target plus the widest keyframe gap, 0 counting
      as a keyframe. */
  lemma SegmentsAreShort(kf: seq<real>, total: real, target: real, gap: real, i: nat)
    requires target > 0.0
    requires GapsWithin(kf, 0.0, gap)
    requires i + 1 < |Grouped(kf, total, target)|
    ensures Grouped(kf, total, target)[i].duration < target + gap
  {
    var cuts := Cuts(kf, 0.0, target);
    var all := [0.0] + cuts;
    CutStepsAreShort(kf, 0.0, 0.0, target, gap, i);
    var points := Kept(cuts, total) + [total];
    assert Step(points, i) == Step(all, i);
  }

  lemma {:induction false} CutStepsAreShort(kf: seq<real>, cur: real, seen: real, target: real, gap: real, i: nat)
    requires target > 0.0 && seen - cur < target
    requires GapsWithin(kf, seen, gap)
    requires i < |Cuts(kf, cur, target)|
    ensures Step([cur] + Cuts(kf, cur, target), i) < target + gap
    decreases |kf|
  {
    if kf[0] - cur >= target {
      if i > 0 {
        CutStepsAreShort(kf[1..], kf[0], kf[0], target, gap, i - 1);
        assert Step([cur] + Cuts(kf, cur, target), i) == Step([kf[0]] + Cuts(kf[1..], kf[0], target), i - 1);
      }
    } else {
      CutStepsAreShort(kf[1..], cur, kf[0], target, gap, i);
    }
  }
}
