/** Cutting every segment of a table on its own still yields the whole content once
    (internal/streaming/segment_generator.go with internal/streaming/keyframe_probe.go). */
module ContentCover {
  import opened SegmentTable
  import opened SegmentParts
  import KeyframeProbe

  /** A video's content is a run of GOPs, the j-th starting at keyframe kf[j]. Below, a part is
      named by the GOP it holds. */
  ghost predicate GopStarts(kf: seq<real>) {
    && |kf| > 0 && kf[0] == 0.0
    && forall i, j :: 0 <= i < j < |kf| ==> kf[i] < kf[j]
  }

  /** The list the muxer writes for the segment [start, end): it lands on a keyframe at or before
      the backed-off seek, reads past end, gives every GOP its keyframe's time within tol (the
      first row always 0) and leaves no hole. */
  ghost predicate Delivers(rows: seq<Part<nat>>, kf: seq<real>, start: real, end: real, tol: real, lo: nat) {
    && |rows| > 0 && lo + |rows| <= |kf|
    && kf[lo] <= (if start > SEEK_BACKOFF then start - SEEK_BACKOFF else 0.0)
    && (forall j :: 0 <= j < |kf| && kf[j] < end + READ_MARGIN ==> j < lo + |rows|)
    && (forall i :: 0 <= i < |rows| ==> rows[i].name == lo + i)
    && rows[0].start == 0.0
    && (forall i :: 0 < i < |rows| ==> kf[lo + i] - tol <= rows[i].start <= kf[lo + i] + tol)
    && AllJoined(rows)
  }

  /** How many GOPs start before t. */
  function Before(kf: seq<real>, t: real): (n: nat)
    ensures n <= |kf|
  {
    if kf == [] || kf[0] >= t then 0 else 1 + Before(kf[1..], t)
  }

  lemma {:induction false} BeforeSplits(kf: seq<real>, t: real)
    requires forall i, j :: 0 <= i < j < |kf| ==> kf[i] < kf[j]
    ensures forall j :: 0 <= j < |kf| ==> (j < Before(kf, t) <==> kf[j] < t)
  {
    if kf != [] {
      BeforeSplits(kf[1..], t);
      forall j | 0 <= j < |kf| ensures j < Before(kf, t) <==> kf[j] < t {
        if j > 0 { assert kf[1..][j - 1] == kf[j]; }
      }
    }
  }

  lemma {:induction false} BeforeAt(kf: seq<real>, k: nat)
    requires forall i, j :: 0 <= i < j < |kf| ==> kf[i] < kf[j]
    requires k < |kf|
    ensures Before(kf, kf[k]) == k
  {
    if k > 0 {
      BeforeAt(kf[1..], k - 1);
    }
  }

  lemma {:induction false} BeforeGrows(kf: seq<real>, t: real, u: real)
    requires t <= u
    ensures Before(kf, t) <= Before(kf, u)
  {
    if kf != [] {
      BeforeGrows(kf[1..], t, u);
    }
  }

  /** The GOPs a, a + 1, ..., b - 1. */
  function Range(a: nat, b: nat): seq<nat>
    requires a <= b
  {
    seq(b - a, i requires 0 <= i < b - a => a + i)
  }

  /** Rows in the window exactly when their GOP is in [a, b) are selected as Range(a, b). */
  lemma WindowIsRange(rows: seq<Part<nat>>, lo: nat, start: real, end: real, a: nat, b: nat)
    requires forall i :: 0 <= i < |rows| ==> rows[i].name == lo + i
    requires forall i :: 0 <= i < |rows| ==> (InWindow(rows[i], start, end) <==> a <= lo + i < b)
    requires lo <= a < b <= lo + |rows|
    ensures Window(rows, start, end) == rows[a - lo..b - lo]
  {
    WindowOfThree(rows[..a - lo], rows[a - lo..b - lo], rows[b - lo..], start, end);
    assert rows == rows[..a - lo] + rows[a - lo..b - lo] + rows[b - lo..];
  }

  lemma WindowOfThree<N>(before: seq<Part<N>>, inside: seq<Part<N>>, behind: seq<Part<N>>, start: real, end: real)
    requires forall i :: 0 <= i < |before| ==> !InWindow(before[i], start, end)
    requires forall i :: 0 <= i < |inside| ==> InWindow(inside[i], start, end)
    requires forall i :: 0 <= i < |behind| ==> !InWindow(behind[i], start, end)
    ensures Window(before + inside + behind, start, end) == inside
  {
    WindowConcat(before + inside, behind, start, end);
    WindowConcat(before, inside, start, end);
    WindowNone(before, start, end);
    WindowAll(inside, start, end);
    WindowNone(behind, start, end);
  }

  lemma {:induction false} WindowNone<N>(rows: seq<Part<N>>, start: real, end: real)
    requires forall i :: 0 <= i < |rows| ==> !InWindow(rows[i], start, end)
    ensures Window(rows, start, end) == []
  {
    if rows != [] { WindowNone(rows[1..], start, end); }
  }

  lemma {:induction false} WindowAll<N>(rows: seq<Part<N>>, start: real, end: real)
    requires forall i :: 0 <= i < |rows| ==> InWindow(rows[i], start, end)
    ensures Window(rows, start, end) == rows
  {
    if rows != [] { WindowAll(rows[1..], start, end); }
  }

  // ----- One segment -----

  /** Times within tol of kf's: the first n are before t, the others are not. */
  ghost predicate Parted(kf: seq<real>, t: real, tol: real, n: nat) {
    && n <= |kf|
    && (forall j :: 0 <= j < n ==> kf[j] + tol < t)
    && (forall j :: n <= j < |kf| ==> kf[j] - tol >= t)
  }

  /** If jitter cannot move a GOP over either end of its window, a segment takes the GOPs between. */
  lemma TimesSelect(rows: seq<Part<nat>>, kf: seq<real>, start: real, end: real, tol: real, lo: nat, a: nat, b: nat)
    requires GopStarts(kf) && Delivers(rows, kf, start, end, tol, lo) && 0.0 <= tol <= BOUNDARY_TOL
    requires start in kf && (start == 0.0 || start >= 1.0) && start < end - BOUNDARY_TOL + tol
    requires Parted(kf, start - MAX_START_DRIFT, tol, a) && Parted(kf, end - BOUNDARY_TOL, tol, b)
    ensures a < b && Selects(rows, start, end, Ok(Range(a, b)))
  {
    var k :| 0 <= k < |kf| && kf[k] == start;
    assert a <= k < b;
    assert lo <= a;
    assert b <= lo + |rows| by {
      assert kf[b - 1] < end + READ_MARGIN;
    }
    forall i | 0 <= i < |rows| ensures InWindow(rows[i], start, end) <==> a <= lo + i < b {
      if i == 0 && start > 0.0 { assert lo < a; }
    }
    assert rows[a - lo].start <= start + tol;
    SelectedRange(rows, lo, start, end, a, b);
  }

  /** With list times equal to keyframe times, a segment takes the GOPs from MAX_START_DRIFT
      before its start to BOUNDARY_TOL before its end. */
  lemma ExactTimesSelect(rows: seq<Part<nat>>, kf: seq<real>, start: real, end: real, lo: nat)
    requires GopStarts(kf) && Delivers(rows, kf, start, end, 0.0, lo)
    requires start in kf && (start == 0.0 || start >= 1.0) && start < end - BOUNDARY_TOL
    ensures var a, b := Before(kf, start - MAX_START_DRIFT), Before(kf, end - BOUNDARY_TOL);
            a < b && Selects(rows, start, end, Ok(Range(a, b)))
  {
    BeforeSplits(kf, start - MAX_START_DRIFT);
    BeforeSplits(kf, end - BOUNDARY_TOL);
    TimesSelect(rows, kf, start, end, 0.0, lo, Before(kf, start - MAX_START_DRIFT), Before(kf, end - BOUNDARY_TOL));
  }

  /** A window of consecutive rows that starts on time is selected as the range of its GOPs. */
  lemma SelectedRange(rows: seq<Part<nat>>, lo: nat, start: real, end: real, a: nat, b: nat)
    requires forall i :: 0 <= i < |rows| ==> rows[i].name == lo + i
    requires forall i :: 0 <= i < |rows| ==> (InWindow(rows[i], start, end) <==> a <= lo + i < b)
    requires lo <= a < b <= lo + |rows|
    requires AllJoined(rows) && rows[a - lo].start - start <= MAX_START_DRIFT
    ensures Selects(rows, start, end, Ok(Range(a, b)))
  {
    WindowIsRange(rows, lo, start, end, a, b);
    var parts := rows[a - lo..b - lo];
    forall i | 0 < i < |parts| ensures Joined(parts, i) {
      assert Joined(rows, a - lo + i);
    }
    assert Names(parts) == Range(a, b);
  }

  /** With list times within tol of keyframe times, a segment takes exactly the GOPs that start
      in it, provided none starts just before either of its ends. */
  lemma JitteredTimesSelect(rows: seq<Part<nat>>, kf: seq<real>, start: real, end: real, tol: real, lo: nat)
    requires GopStarts(kf) && Delivers(rows, kf, start, end, tol, lo)
    requires start in kf && (start == 0.0 || start >= 1.0) && start < end
    requires 0.0 <= tol <= BOUNDARY_TOL
    requires forall j :: 0 <= j < |kf| && kf[j] < start ==> kf[j] + tol < start - MAX_START_DRIFT
    requires forall j :: 0 <= j < |kf| && kf[j] < end ==> kf[j] + tol < end - BOUNDARY_TOL
    ensures var a, b := Before(kf, start), Before(kf, end);
            a < b && Selects(rows, start, end, Ok(Range(a, b)))
  {
    BeforeSplits(kf, start);
    BeforeSplits(kf, end);
    TimesSelect(rows, kf, start, end, tol, lo, Before(kf, start), Before(kf, end));
  }

  // ----- A whole table -----

  type Selection = Result<seq<nat>, SelectError<nat>>

  /** r is what one segment's generation may pick, whatever list the muxer writes. */
  ghost predicate Picks(seg: SegmentBoundary, kf: seq<real>, tol: real, r: Selection) {
    exists rows, lo ::
      Delivers(rows, kf, seg.start, seg.End(), tol, lo) && Selects(rows, seg.start, seg.End(), r)
  }

  /** Each segment is cut on its own. */
  ghost predicate CutApart(segs: seq<SegmentBoundary>, kf: seq<real>, tol: real, picks: seq<Selection>) {
    && |picks| == |segs|
    && forall i :: 0 <= i < |segs| ==> Picks(segs[i], kf, tol, picks[i])
  }

  /** The GOPs of the segments, one segment after another. */
  function Content(picks: seq<Selection>): seq<nat> {
    if picks == [] then []
    else (if picks[0].Ok? then picks[0].value else []) + Content(picks[1..])
  }

  /** Each pick is the range of GOPs between its bounds. */
  ghost predicate PicksRanges(picks: seq<Selection>, lows: seq<nat>, highs: seq<nat>) {
    && |lows| == |highs| == |picks|
    && forall i :: 0 <= i < |picks| ==> lows[i] < highs[i] && picks[i] == Ok(Range(lows[i], highs[i]))
  }

  /** The i-th range starts where the one before it stopped. */
  ghost predicate Meets(lows: seq<nat>, highs: seq<nat>, i: nat)
    requires 0 < i < |lows| == |highs|
  {
    lows[i] == highs[i - 1]
  }

  ghost predicate Joins(lows: seq<nat>, highs: seq<nat>, from: nat, to: nat)
    requires |lows| == |highs| > 0
  {
    && lows[0] == from && highs[|highs| - 1] == to
    && forall i :: 0 < i < |lows| ==> Meets(lows, highs, i)
  }

  /** Joining splits into the first range and the rest. */
  lemma JoinsTail(lows: seq<nat>, highs: seq<nat>, from: nat, to: nat)
    requires |lows| == |highs| > 1
    ensures Joins(lows, highs, from, to) <==> lows[0] == from && Joins(lows[1..], highs[1..], highs[0], to)
  {
    forall i | 1 < i < |lows| ensures Meets(lows, highs, i) <==> Meets(lows[1..], highs[1..], i - 1) {
    }
    if lows[0] == from && Joins(lows[1..], highs[1..], highs[0], to) {
      forall i | 0 < i < |lows| ensures Meets(lows, highs, i) {
        if i > 1 { assert Meets(lows[1..], highs[1..], i - 1); }
      }
    }
    if Joins(lows, highs, from, to) {
      assert Meets(lows, highs, 1);
      forall i | 0 < i < |lows[1..]| ensures Meets(lows[1..], highs[1..], i) {
        assert Meets(lows, highs, i + 1);
      }
    }
  }

  /** Ranges read one after another give [from, to) exactly when each starts where the one
      before it stopped. */
  lemma {:induction false} RangesMeet(picks: seq<Selection>, lows: seq<nat>, highs: seq<nat>, from: nat, to: nat)
    requires PicksRanges(picks, lows, highs) && from <= to && picks != []
    ensures Content(picks) == Range(from, to) <==> Joins(lows, highs, from, to)
  {
    var a, b := lows[0], highs[0];
    var rest := Content(picks[1..]);
    assert picks[0] == Ok(Range(a, b));
    assert Content(picks) == Range(a, b) + rest;
    if Content(picks) == Range(from, to) {
      HeadOfRange(a, b, rest, from, to);
    }
    if |picks| == 1 {
      assert rest == [];
      assert Content(picks) == Range(a, b);
    } else {
      JoinsTail(lows, highs, from, to);
      if Joins(lows, highs, from, to) {
        RangesClimb(lows, highs);
      }
      if b <= to {
        RangesMeet(picks[1..], lows[1..], highs[1..], b, to);
        if a == from { assert Range(a, b) + Range(b, to) == Range(from, to); }
      }
    }
  }

  lemma HeadOfRange(a: nat, b: nat, rest: seq<nat>, from: nat, to: nat)
    requires a < b && from <= to && Range(a, b) + rest == Range(from, to)
    ensures a == from && b <= to && rest == Range(b, to)
  {
    assert (Range(a, b) + rest)[0] == a;
    assert (Range(a, b) + rest)[b - a - 1] == b - 1;
    assert rest == (Range(a, b) + rest)[b - a..];
  }

  lemma {:induction false} RangesClimb(lows: seq<nat>, highs: seq<nat>)
    requires |lows| == |highs| > 0
    requires forall i :: 0 <= i < |lows| ==> lows[i] < highs[i]
    requires forall i :: 0 < i < |lows| ==> Meets(lows, highs, i)
    ensures highs[0] <= highs[|highs| - 1]
  {
    var n := |lows| - 1;
    if n > 0 {
      forall i | 0 < i < n ensures Meets(lows[..n], highs[..n], i) {
        assert Meets(lows, highs, i);
      }
      RangesClimb(lows[..n], highs[..n]);
      assert Meets(lows, highs, n);
    }
  }

  /** No GOP starts in the stretch before a boundary that its neighbours may both leave out or both
      take, and none starts too close to the end to be taken for sure. */
  ghost predicate Clean(segs: seq<SegmentBoundary>, kf: seq<real>, total: real, tol: real) {
    && (forall i :: 0 < i < |segs| ==> CleanAt(kf, segs[i].start, tol))
    && (forall j :: 0 <= j < |kf| ==> kf[j] < total - BOUNDARY_TOL - tol)
  }

  ghost predicate CleanAt(kf: seq<real>, boundary: real, tol: real) {
    forall j :: 0 <= j < |kf| ==> !(boundary - MAX_START_DRIFT - tol <= kf[j] < boundary - BOUNDARY_TOL + tol)
  }

  lemma BeforeEqual(kf: seq<real>, t: real, u: real)
    requires forall i, j :: 0 <= i < j < |kf| ==> kf[i] < kf[j]
    requires t <= u
    ensures Before(kf, t) <= Before(kf, u)
    ensures Before(kf, t) == Before(kf, u) <==> forall j :: 0 <= j < |kf| ==> !(t <= kf[j] < u)
  {
    BeforeSplits(kf, t);
    BeforeSplits(kf, u);
    var a, b := Before(kf, t), Before(kf, u);
    BeforeGrows(kf, t, u);
    if a < b { assert t <= kf[a] < u; }
  }

  /** What one segment of a table picks when list times equal keyframe times. */
  lemma ExactPick(segs: seq<SegmentBoundary>, kf: seq<real>, total: real, target: real, i: nat, pick: Selection)
    requires GopStarts(kf) && Cuttable(segs, kf, total, target) && target >= 1.0
    requires total > BOUNDARY_TOL && i < |segs| && Picks(segs[i], kf, 0.0, pick)
    ensures Low(segs[i], kf) < High(segs[i], kf)
    ensures pick == Ok(Range(Low(segs[i], kf), High(segs[i], kf)))
  {
    var s := segs[i];
    SegmentIsLong(segs, kf, total, target, 0.0, i);
    BeforeSplits(kf, s.start - MAX_START_DRIFT);
    BeforeSplits(kf, s.End() - BOUNDARY_TOL);
    PartedPick(s, kf, 0.0, Low(s, kf), High(s, kf), pick);
  }

  function Low(s: SegmentBoundary, kf: seq<real>): nat {
    Before(kf, s.start - MAX_START_DRIFT)
  }

  function High(s: SegmentBoundary, kf: seq<real>): nat {
    Before(kf, s.End() - BOUNDARY_TOL)
  }

  /** The bounds of all the picks when list times equal keyframe times. */
  lemma ExactBounds(segs: seq<SegmentBoundary>, kf: seq<real>, total: real, target: real, picks: seq<Selection>)
    returns (lows: seq<nat>, highs: seq<nat>)
    requires GopStarts(kf) && Cuttable(segs, kf, total, target) && target >= 1.0
    requires total > BOUNDARY_TOL && CutApart(segs, kf, 0.0, picks)
    ensures PicksRanges(picks, lows, highs)
    ensures forall i :: 0 <= i < |segs| ==> lows[i] == Low(segs[i], kf) && highs[i] == High(segs[i], kf)
  {
    lows := seq(|segs|, i requires 0 <= i < |segs| => Low(segs[i], kf));
    highs := seq(|segs|, i requires 0 <= i < |segs| => High(segs[i], kf));
    forall i | 0 <= i < |segs|
      ensures lows[i] < highs[i] && picks[i] == Ok(Range(lows[i], highs[i]))
    {
      ExactPick(segs, kf, total, target, i, picks[i]);
    }
  }

  /** A segment starts at a keyframe, on or well after 0, and outlasts the boundary tolerance. */
  lemma SegmentIsLong(segs: seq<SegmentBoundary>, kf: seq<real>, total: real, target: real, tol: real, i: nat)
    requires GopStarts(kf) && Cuttable(segs, kf, total, target) && target >= 1.0
    requires 0.0 <= tol <= BOUNDARY_TOL && total > BOUNDARY_TOL + tol && i < |segs|
    ensures segs[i].start in kf
    ensures segs[i].start == 0.0 || segs[i].start >= 1.0
    ensures segs[i].start < segs[i].End() - BOUNDARY_TOL - tol
  {
    if i == 0 {
      assert kf[0] in kf;
    } else {
      StartsRise(segs, kf, total, target, i);
    }
  }

  lemma {:induction false} StartsRise(segs: seq<SegmentBoundary>, kf: seq<real>, total: real, target: real, i: nat)
    requires Cuttable(segs, kf, total, target) && target >= 1.0
    requires 0 < i < |segs|
    ensures segs[i].start >= 1.0
  {
    assert Follows(segs, i);
    if i > 1 { StartsRise(segs, kf, total, target, i - 1); }
  }

  /** Independently cut segments give back every GOP exactly once, in order, exactly when the
      boundaries are clean; and no segment's cut fails. */
  lemma ContentIsWhole(segs: seq<SegmentBoundary>, kf: seq<real>, total: real, target: real, picks: seq<Selection>)
    requires GopStarts(kf) && Cuttable(segs, kf, total, target) && target >= 1.0
    requires total > BOUNDARY_TOL && CutApart(segs, kf, 0.0, picks)
    ensures forall i :: 0 <= i < |picks| ==> picks[i].Ok?
    ensures Content(picks) == Range(0, |kf|) <==> Clean(segs, kf, total, 0.0)
  {
    var lows, highs := ExactBounds(segs, kf, total, target, picks);
    RangesMeet(picks, lows, highs, 0, |kf|);
    BoundsJoinIffClean(segs, kf, total, lows, highs);
  }

  lemma BoundsJoinIffClean(segs: seq<SegmentBoundary>, kf: seq<real>, total: real, lows: seq<nat>, highs: seq<nat>)
    requires GopStarts(kf) && Tiles(segs, total) && |lows| == |highs| == |segs|
    requires forall i :: 0 <= i < |segs| ==> lows[i] == Low(segs[i], kf) && highs[i] == High(segs[i], kf)
    ensures Joins(lows, highs, 0, |kf|) <==> Clean(segs, kf, total, 0.0)
  {
    OuterBounds(segs, kf, total);
    forall i | 0 < i < |segs| ensures Meets(lows, highs, i) <==> CleanAt(kf, segs[i].start, 0.0) {
      assert Follows(segs, i);
      BeforeEqual(kf, segs[i].start - MAX_START_DRIFT, segs[i].start - BOUNDARY_TOL);
    }
  }

  lemma OuterBounds(segs: seq<SegmentBoundary>, kf: seq<real>, total: real)
    requires GopStarts(kf) && Tiles(segs, total)
    ensures Low(segs[0], kf) == 0
    ensures High(segs[|segs| - 1], kf) == |kf| <==> forall j :: 0 <= j < |kf| ==> kf[j] < total - BOUNDARY_TOL
  {
    BeforeSplits(kf, -MAX_START_DRIFT);
    var t := total - BOUNDARY_TOL;
    BeforeSplits(kf, t);
    if Before(kf, t) < |kf| { assert kf[Before(kf, t)] >= t; }
  }

  /** Neighbouring keyframes are more than gap apart. */
  ghost predicate Apart(kf: seq<real>, gap: real) {
    forall i, j :: 0 <= i < j < |kf| && i == j - 1 ==> kf[i] + gap < kf[j]
  }

  // ----- List times with jitter -----

  /** Where the GOPs of segment i begin, if the boundaries are clean. */
  function Cut(segs: seq<SegmentBoundary>, kf: seq<real>, tol: real, i: nat): nat
    requires i <= |segs|
  {
    if i == |segs| then |kf| else Before(kf, segs[i].start - MAX_START_DRIFT - tol)
  }

  lemma CleanIsParted(kf: seq<real>, boundary: real, tol: real)
    requires GopStarts(kf) && CleanAt(kf, boundary, tol) && 0.0 <= tol <= BOUNDARY_TOL
    ensures var n := Before(kf, boundary - MAX_START_DRIFT - tol);
            Parted(kf, boundary - MAX_START_DRIFT, tol, n) && Parted(kf, boundary - BOUNDARY_TOL, tol, n)
  {
    BeforeSplits(kf, boundary - MAX_START_DRIFT - tol);
  }

  lemma FirstIsParted(kf: seq<real>, tol: real)
    requires GopStarts(kf) && 0.0 <= tol <= BOUNDARY_TOL
    ensures Before(kf, 0.0 - MAX_START_DRIFT - tol) == 0 && Parted(kf, 0.0 - MAX_START_DRIFT, tol, 0)
  {
    BeforeSplits(kf, 0.0 - MAX_START_DRIFT - tol);
  }

  /** Both ends of a segment of a clean table part the GOPs, whatever the jitter. */
  lemma CleanEnds(segs: seq<SegmentBoundary>, kf: seq<real>, total: real, tol: real, i: nat)
    requires GopStarts(kf) && Tiles(segs, total) && Clean(segs, kf, total, tol)
    requires 0.0 <= tol <= BOUNDARY_TOL && i < |segs|
    ensures Parted(kf, segs[i].start - MAX_START_DRIFT, tol, Cut(segs, kf, tol, i))
    ensures Parted(kf, segs[i].End() - BOUNDARY_TOL, tol, Cut(segs, kf, tol, i + 1))
  {
    if i == 0 { FirstIsParted(kf, tol); } else { CleanIsParted(kf, segs[i].start, tol); }
    if i + 1 < |segs| {
      assert Follows(segs, i + 1);
      CleanIsParted(kf, segs[i + 1].start, tol);
    }
  }

  lemma PartedPick(s: SegmentBoundary, kf: seq<real>, tol: real, a: nat, b: nat, pick: Selection)
    requires GopStarts(kf) && 0.0 <= tol <= BOUNDARY_TOL && Picks(s, kf, tol, pick)
    requires s.start in kf && (s.start == 0.0 || s.start >= 1.0) && s.start < s.End() - BOUNDARY_TOL + tol
    requires Parted(kf, s.start - MAX_START_DRIFT, tol, a) && Parted(kf, s.End() - BOUNDARY_TOL, tol, b)
    ensures a < b && pick == Ok(Range(a, b))
  {
    var rows, lo :| Delivers(rows, kf, s.start, s.End(), tol, lo) && Selects(rows, s.start, s.End(), pick);
    TimesSelect(rows, kf, s.start, s.End(), tol, lo, a, b);
    SelectionIsDecided(rows, s.start, s.End(), pick, Ok(Range(a, b)));
  }

  /** What one segment of a clean table picks, whatever the jitter. */
  lemma CleanPick(segs: seq<SegmentBoundary>, kf: seq<real>, total: real, target: real, tol: real,
                  i: nat, pick: Selection)
    requires GopStarts(kf) && Cuttable(segs, kf, total, target) && target >= 1.0
    requires 0.0 <= tol <= BOUNDARY_TOL && total > BOUNDARY_TOL + tol && Clean(segs, kf, total, tol)
    requires i < |segs| && Picks(segs[i], kf, tol, pick)
    ensures var (a, b) := (Cut(segs, kf, tol, i), Cut(segs, kf, tol, i + 1));
            a < b && pick == Ok(Range(a, b))
  {
    SegmentIsLong(segs, kf, total, target, tol, i);
    CleanEnds(segs, kf, total, tol, i);
    PartedPick(segs[i], kf, tol, Cut(segs, kf, tol, i), Cut(segs, kf, tol, i + 1), pick);
  }

  ghost predicate IsWhole(picks: seq<Selection>, kf: seq<real>) {
    (forall i :: 0 <= i < |picks| ==> picks[i].Ok?) && Content(picks) == Range(0, |kf|)
  }

  /** Segment i picks the GOPs from its cut to the next. */
  ghost predicate PicksCut(picks: seq<Selection>, segs: seq<SegmentBoundary>, kf: seq<real>, tol: real, i: nat)
    requires i < |segs| == |picks|
  {
    var (a, b) := (Cut(segs, kf, tol, i), Cut(segs, kf, tol, i + 1));
    a < b && picks[i] == Ok(Range(a, b))
  }

  lemma CutsAreWhole(picks: seq<Selection>, segs: seq<SegmentBoundary>, kf: seq<real>, tol: real)
    requires GopStarts(kf) && 0.0 <= tol <= BOUNDARY_TOL && |picks| == |segs| > 0 && segs[0].start == 0.0
    requires forall i :: 0 <= i < |segs| ==> PicksCut(picks, segs, kf, tol, i)
    ensures IsWhole(picks, kf)
  {
    var lows := seq(|segs|, i requires 0 <= i < |segs| => Cut(segs, kf, tol, i));
    var highs := seq(|segs|, i requires 0 <= i < |segs| => Cut(segs, kf, tol, i + 1));
    forall i | 0 <= i < |segs| ensures lows[i] < highs[i] && picks[i] == Ok(Range(lows[i], highs[i])) {
      assert PicksCut(picks, segs, kf, tol, i);
    }
    CutsJoin(segs, kf, tol, lows, highs);
    JoinedIsWhole(picks, lows, highs, kf);
  }

  lemma CleanIsWhole(segs: seq<SegmentBoundary>, kf: seq<real>, total: real, target: real, tol: real,
                     picks: seq<Selection>)
    requires GopStarts(kf) && Cuttable(segs, kf, total, target) && target >= 1.0
    requires 0.0 <= tol <= BOUNDARY_TOL && total > BOUNDARY_TOL + tol && Clean(segs, kf, total, tol)
    requires CutApart(segs, kf, tol, picks)
    ensures IsWhole(picks, kf)
  {
    forall i | 0 <= i < |segs| ensures PicksCut(picks, segs, kf, tol, i) {
      CleanPick(segs, kf, total, target, tol, i, picks[i]);
    }
    CutsAreWhole(picks, segs, kf, tol);
  }

  lemma JoinedIsWhole(picks: seq<Selection>, lows: seq<nat>, highs: seq<nat>, kf: seq<real>)
    requires picks != [] && PicksRanges(picks, lows, highs) && Joins(lows, highs, 0, |kf|)
    ensures IsWhole(picks, kf)
  {
    RangesMeet(picks, lows, highs, 0, |kf|);
  }

  lemma CutsJoin(segs: seq<SegmentBoundary>, kf: seq<real>, tol: real, lows: seq<nat>, highs: seq<nat>)
    requires GopStarts(kf) && 0.0 <= tol <= BOUNDARY_TOL
    requires |lows| == |highs| == |segs| > 0 && segs[0].start == 0.0
    requires forall i :: 0 <= i < |segs| ==> lows[i] == Cut(segs, kf, tol, i) && highs[i] == Cut(segs, kf, tol, i + 1)
    ensures Joins(lows, highs, 0, |kf|)
  {
    FirstIsParted(kf, tol);
    forall i | 0 < i < |segs| ensures Meets(lows, highs, i) {
      assert highs[i - 1] == Cut(segs, kf, tol, i - 1 + 1);
    }
    assert highs[|highs| - 1] == Cut(segs, kf, tol, |segs| - 1 + 1);
  }

  /** The list of all GOPs with every time but the first off by d. */
  function Shifted(kf: seq<real>, d: real): (rows: seq<Part<nat>>)
    ensures |rows| == |kf|
  {
    seq(|kf|, i requires 0 <= i < |kf| =>
      Part(i, if i == 0 then 0.0 else kf[i] + d, if i + 1 < |kf| then kf[i + 1] + d else kf[i] + d))
  }

  lemma ShiftedIsDelivered(kf: seq<real>, start: real, end: real, tol: real, d: real)
    requires GopStarts(kf) && -tol <= d <= tol
    ensures Delivers(Shifted(kf, d), kf, start, end, tol, 0)
  {
    var rows := Shifted(kf, d);
    forall i | 0 < i < |rows| ensures Joined(rows, i) {
    }
  }

  lemma ShiftedPick(seg: SegmentBoundary, kf: seq<real>, tol: real, d: real)
    requires GopStarts(kf) && -tol <= d <= tol <= BOUNDARY_TOL
    requires seg.start in kf && (seg.start == 0.0 || seg.start >= 1.0) && seg.start < seg.End() - BOUNDARY_TOL - tol
    ensures var (a, b) := (ShiftedLow(seg, kf, d), ShiftedHigh(seg, kf, d));
            a < b && Picks(seg, kf, tol, Ok(Range(a, b)))
  {
    var (start, end, a, b) := (seg.start, seg.End(), ShiftedLow(seg, kf, d), ShiftedHigh(seg, kf, d));
    BeforeSplits(kf, start - MAX_START_DRIFT - d);
    var k :| 0 <= k < |kf| && kf[k] == start;
    BeforeSplits(kf, end - BOUNDARY_TOL - d);
    assert a <= k < b;
    ShiftedWindow(seg, kf, d, a, b);
    ShiftedIsDelivered(kf, start, end, tol, d);
    SelectedRange(Shifted(kf, d), 0, start, end, a, b);
    OnePick(seg, kf, tol, Shifted(kf, d), 0, Ok(Range(a, b)));
  }

  lemma ShiftedWindow(seg: SegmentBoundary, kf: seq<real>, d: real, a: nat, b: nat)
    requires GopStarts(kf) && -BOUNDARY_TOL <= d <= BOUNDARY_TOL && 0 < b <= |kf| && a <= |kf|
    requires forall j :: 0 <= j < |kf| ==> (j < a <==> kf[j] < seg.start - MAX_START_DRIFT - d)
    requires forall j :: 0 <= j < |kf| ==> (j < b <==> kf[j] < seg.End() - BOUNDARY_TOL - d)
    requires (seg.start == 0.0 || seg.start >= 1.0) && BOUNDARY_TOL < seg.End()
    ensures forall i :: 0 <= i < |kf| ==> (InWindow(Shifted(kf, d)[i], seg.start, seg.End()) <==> a <= 0 + i < b)
  {
  }

  function ShiftedLow(s: SegmentBoundary, kf: seq<real>, d: real): nat {
    Before(kf, s.start - MAX_START_DRIFT - d)
  }

  function ShiftedHigh(s: SegmentBoundary, kf: seq<real>, d: real): nat {
    Before(kf, s.End() - BOUNDARY_TOL - d)
  }

  /** Each segment's list may be off by an amount of its own. */
  lemma ShiftedPicks(segs: seq<SegmentBoundary>, kf: seq<real>, total: real, target: real, tol: real, ds: seq<real>)
    returns (picks: seq<Selection>, lows: seq<nat>, highs: seq<nat>)
    requires GopStarts(kf) && Cuttable(segs, kf, total, target) && target >= 1.0
    requires 0.0 <= tol <= BOUNDARY_TOL && total > BOUNDARY_TOL + tol
    requires |ds| == |segs| && forall i :: 0 <= i < |ds| ==> -tol <= ds[i] <= tol
    ensures CutApart(segs, kf, tol, picks) && PicksRanges(picks, lows, highs)
    ensures forall i :: 0 <= i < |segs| ==>
              lows[i] == ShiftedLow(segs[i], kf, ds[i]) && highs[i] == ShiftedHigh(segs[i], kf, ds[i])
  {
    lows := seq(|segs|, i requires 0 <= i < |segs| => ShiftedLow(segs[i], kf, ds[i]));
    highs := seq(|segs|, i requires 0 <= i < |segs| => ShiftedHigh(segs[i], kf, ds[i]));
    forall i | 0 <= i < |segs| ensures lows[i] < highs[i] && Picks(segs[i], kf, tol, Ok(Range(lows[i], highs[i]))) {
      SegmentIsLong(segs, kf, total, target, tol, i);
      ShiftedPick(segs[i], kf, tol, ds[i]);
    }
    picks := seq(|segs|, i requires 0 <= i < |segs| => Ok(Range(lows[i], highs[i])));
  }

  /** At a boundary that is not clean, lists that are early before it and late behind it serve a GOP
      twice. */
  lemma UncleanBoundary(segs: seq<SegmentBoundary>, kf: seq<real>, total: real, target: real, tol: real, i: nat)
    returns (picks: seq<Selection>)
    requires GopStarts(kf) && Cuttable(segs, kf, total, target) && target >= 1.0
    requires 0.0 <= tol <= BOUNDARY_TOL && total > BOUNDARY_TOL + tol
    requires 0 < i < |segs| && !CleanAt(kf, segs[i].start, tol)
    ensures CutApart(segs, kf, tol, picks) && !IsWhole(picks, kf)
  {
    var ds := seq(|segs|, k requires 0 <= k < |segs| => if k == i then tol else if k == i - 1 then -tol else 0.0);
    var lows, highs;
    picks, lows, highs := ShiftedPicks(segs, kf, total, target, tol, ds);
    assert Follows(segs, i);
    UncleanBounds(segs[i - 1], segs[i], kf, tol);
    Torn(picks, lows, highs, kf, i);
  }

  lemma UncleanBounds(before: SegmentBoundary, s: SegmentBoundary, kf: seq<real>, tol: real)
    requires GopStarts(kf) && 0.0 <= tol && before.End() == s.start && !CleanAt(kf, s.start, tol)
    ensures ShiftedLow(s, kf, tol) != ShiftedHigh(before, kf, -tol)
  {
    BeforeEqual(kf, s.start - MAX_START_DRIFT - tol, s.start - BOUNDARY_TOL + tol);
  }

  lemma Torn(picks: seq<Selection>, lows: seq<nat>, highs: seq<nat>, kf: seq<real>, i: nat)
    requires PicksRanges(picks, lows, highs) && i < |picks|
    requires if i == 0 then highs[|highs| - 1] != |kf| else lows[i] != highs[i - 1]
    ensures !IsWhole(picks, kf)
  {
    if i > 0 { assert !Meets(lows, highs, i); }
    RangesMeet(picks, lows, highs, 0, |kf|);
  }

  lemma LeftOut(s: SegmentBoundary, kf: seq<real>, d: real, j: nat)
    requires GopStarts(kf) && j < |kf| && kf[j] >= s.End() - BOUNDARY_TOL - d
    ensures ShiftedHigh(s, kf, d) != |kf|
  {
    BeforeSplits(kf, s.End() - BOUNDARY_TOL - d);
  }

  /** With a GOP too close to the end, a list that is late leaves it out. */
  lemma UncleanEnd(segs: seq<SegmentBoundary>, kf: seq<real>, total: real, target: real, tol: real, j: nat)
    returns (picks: seq<Selection>)
    requires GopStarts(kf) && Cuttable(segs, kf, total, target) && target >= 1.0
    requires 0.0 <= tol <= BOUNDARY_TOL && total > BOUNDARY_TOL + tol
    requires j < |kf| && kf[j] >= total - BOUNDARY_TOL - tol
    ensures CutApart(segs, kf, tol, picks) && !IsWhole(picks, kf)
  {
    var ds := seq(|segs|, k requires 0 <= k < |segs| => tol);
    var lows, highs;
    picks, lows, highs := ShiftedPicks(segs, kf, total, target, tol, ds);
    LeftOut(segs[|segs| - 1], kf, tol, j);
    Torn(picks, lows, highs, kf, 0);
  }

  /** Whatever the jitter of the list times up to tol, segments cut apart give back every GOP exactly
      once, in order, and no cut fails, exactly when no keyframe lies in the tolerance, widened by tol
      on either side, before a boundary, nor before the end. */
  lemma JitteredContentIsWhole(segs: seq<SegmentBoundary>, kf: seq<real>, total: real, target: real, tol: real)
    requires GopStarts(kf) && Cuttable(segs, kf, total, target) && target >= 1.0
    requires 0.0 <= tol <= BOUNDARY_TOL && total > BOUNDARY_TOL + tol
    ensures (forall picks :: CutApart(segs, kf, tol, picks) ==> IsWhole(picks, kf)) <==> Clean(segs, kf, total, tol)
  {
    if Clean(segs, kf, total, tol) {
      forall picks | CutApart(segs, kf, tol, picks) ensures IsWhole(picks, kf) {
        CleanIsWhole(segs, kf, total, target, tol, picks);
      }
    } else if j :| 0 <= j < |kf| && kf[j] >= total - BOUNDARY_TOL - tol {
      var picks := UncleanEnd(segs, kf, total, target, tol, j);
    } else {
      var i :| 0 < i < |segs| && !CleanAt(kf, segs[i].start, tol);
      var picks := UncleanBoundary(segs, kf, total, target, tol, i);
    }
  }

  /** For any jitter up to BOUNDARY_TOL in the list times, keyframes more than MAX_START_DRIFT
      plus the jitter apart, the last one clear of the end, are enough for the segments of
      GroupSegments to give back every GOP exactly once, in order. */
  lemma SpacedContentIsWhole(kf: seq<real>, total: real, target: real, tol: real, picks: seq<Selection>)
    requires GopStarts(kf) && target >= 1.0 && 0.0 <= tol <= BOUNDARY_TOL
    requires Apart(kf, MAX_START_DRIFT + tol)
    requires kf[|kf| - 1] + tol < total - BOUNDARY_TOL
    requires CutApart(KeyframeProbe.Grouped(kf, total, target), kf, tol, picks)
    ensures forall i :: 0 <= i < |picks| ==> picks[i].Ok?
    ensures Content(picks) == Range(0, |kf|)
  {
    var segs := KeyframeProbe.Grouped(kf, total, target);
    KeyframeProbe.GroupedIsCuttable(kf, total, target);
    SpacedTableIsClean(segs, kf, total, target, tol);
    assert 0.0 <= kf[|kf| - 1];
    CleanIsWhole(segs, kf, total, target, tol, picks);
  }

  lemma SpacedTableIsClean(segs: seq<SegmentBoundary>, kf: seq<real>, total: real, target: real, tol: real)
    requires GopStarts(kf) && Cuttable(segs, kf, total, target) && 0.0 <= tol <= BOUNDARY_TOL
    requires Apart(kf, MAX_START_DRIFT + tol) && kf[|kf| - 1] + tol < total - BOUNDARY_TOL
    ensures Clean(segs, kf, total, tol)
  {
    forall i | 0 < i < |segs| ensures CleanAt(kf, segs[i].start, tol) {
      SpacedIsClean(kf, segs[i].start, tol);
    }
    forall j | 0 <= j < |kf| ensures kf[j] < total - BOUNDARY_TOL - tol {
      assert kf[j] <= kf[|kf| - 1];
    }
  }

  lemma SpacedIsClean(kf: seq<real>, t: real, tol: real)
    requires GopStarts(kf) && t in kf && 0.0 <= tol <= BOUNDARY_TOL
    requires Apart(kf, MAX_START_DRIFT + tol)
    ensures CleanAt(kf, t, tol)
  {
    forall j | 0 <= j < |kf| && kf[j] < t ensures kf[j] + tol < t - MAX_START_DRIFT {
      ClearBefore(kf, t, tol, j);
    }
  }

  lemma ClearBefore(kf: seq<real>, t: real, tol: real, j: nat)
    requires GopStarts(kf) && t in kf && j < |kf| && kf[j] < t
    requires Apart(kf, MAX_START_DRIFT + tol)
    ensures kf[j] + tol < t - MAX_START_DRIFT
  {
    var k :| 0 <= k < |kf| && kf[k] == t;
    var before := k - 1;
    assert kf[j] <= kf[before];
  }

  lemma CloseTable()
    ensures KeyframeProbe.Grouped([0.0, 5.95, 6.0], 12.0, 6.0) == [SegmentBoundary(0.0, 6.0), SegmentBoundary(6.0, 6.0)]
  {
    var kf := [0.0, 5.95, 6.0];
    assert KeyframeProbe.Cuts(kf, 0.0, 6.0) == [6.0] by {
      assert KeyframeProbe.Cuts([6.0], 0.0, 6.0) == [6.0];
      assert kf[1..] == [5.95, 6.0] && kf[1..][1..] == [6.0];
    }
  }

  lemma ContentOfTwo(a: seq<nat>, b: seq<nat>)
    ensures Content([Ok(a), Ok(b)]) == a + b
  {
    var picks: seq<Selection> := [Ok(a), Ok(b)];
    var last: seq<Selection> := [Ok(b)];
    assert picks[1..] == last && last[1..] == [];
    assert Content(last) == b + Content(last[1..]);
    assert b + [] == b;
  }

  lemma CloseContent(picks: seq<Selection>)
    requires CutApart(KeyframeProbe.Grouped([0.0, 5.95, 6.0], 12.0, 6.0), [0.0, 5.95, 6.0], 0.0, picks)
    ensures Content(picks) == [0, 1, 1, 2]
  {
    var kf := [0.0, 5.95, 6.0];
    KeyframeProbe.GroupedIsCuttable(kf, 12.0, 6.0);
    CloseTable();
    ClosePicks([SegmentBoundary(0.0, 6.0), SegmentBoundary(6.0, 6.0)], kf, picks);
    ContentOfTwo(Range(0, 2), Range(1, 3));
    assert Range(0, 2) + Range(1, 3) == [0, 1, 1, 2];
  }

  /** Without the spacing a GOP can be served twice, as keyframes at 5.95 s and 6 s around a cut are by
      any lists the muxer may write for them; and it does write some. */
  lemma CloseKeyframesAreServedTwice() returns (picks: seq<Selection>)
    ensures var (segs, kf) := (KeyframeProbe.Grouped([0.0, 5.95, 6.0], 12.0, 6.0), [0.0, 5.95, 6.0]);
            && CutApart(segs, kf, 0.0, picks)
            && forall any :: CutApart(segs, kf, 0.0, any) ==> Content(any) == [0, 1, 1, 2]
  {
    var kf := [0.0, 5.95, 6.0];
    picks := ClosePicksExist();
    forall any | CutApart(KeyframeProbe.Grouped(kf, 12.0, 6.0), kf, 0.0, any) ensures Content(any) == [0, 1, 1, 2] {
      CloseContent(any);
    }
  }

  lemma OnePick(seg: SegmentBoundary, kf: seq<real>, tol: real, rows: seq<Part<nat>>, lo: nat, r: Selection)
    requires Delivers(rows, kf, seg.start, seg.End(), tol, lo) && Selects(rows, seg.start, seg.End(), r)
    ensures Picks(seg, kf, tol, r)
  {
  }

  /** Such picks there are: the muxer may list the three GOPs for either segment. */
  lemma ClosePicksExist() returns (picks: seq<Selection>)
    ensures CutApart(KeyframeProbe.Grouped([0.0, 5.95, 6.0], 12.0, 6.0), [0.0, 5.95, 6.0], 0.0, picks)
  {
    var kf := [0.0, 5.95, 6.0];
    KeyframeProbe.GroupedIsCuttable(kf, 12.0, 6.0);
    CloseTable();
    var lows, highs;
    picks, lows, highs := ShiftedPicks([SegmentBoundary(0.0, 6.0), SegmentBoundary(6.0, 6.0)], kf, 12.0, 6.0, 0.0,
                                       [0.0, 0.0]);
  }

  lemma ClosePicks(segs: seq<SegmentBoundary>, kf: seq<real>, picks: seq<Selection>)
    requires kf == [0.0, 5.95, 6.0] && segs == [SegmentBoundary(0.0, 6.0), SegmentBoundary(6.0, 6.0)]
    requires Cuttable(segs, kf, 12.0, 6.0) && CutApart(segs, kf, 0.0, picks)
    ensures picks == [Ok(Range(0, 2)), Ok(Range(1, 3))]
  {
    CloseCounts();
    ExactPick(segs, kf, 12.0, 6.0, 0, picks[0]);
    ExactPick(segs, kf, 12.0, 6.0, 1, picks[1]);
  }

  lemma CloseCounts()
    ensures var kf := [0.0, 5.95, 6.0];
            Before(kf, 5.998) == 2 && Before(kf, 5.9) == 1 && Before(kf, 11.998) == 3
  {
    var kf := [0.0, 5.95, 6.0];
    BeforeSplits(kf, 5.998);
    BeforeSplits(kf, 5.9);
    BeforeSplits(kf, 11.998);
  }
}
