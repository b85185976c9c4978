/** The Segment Boundary table shared by the HLS pipeline, and the small result types. */
module SegmentTable {
  datatype Option<+T> = None | Some(value: T)

  datatype Result<+T, +E> = Ok(value: T) | Err(error: E)

  /** A time range, in seconds, of one HLS Segment in the original file. */
  datatype SegmentBoundary = SegmentBoundary(start: real, duration: real) {
    function End(): real {
      start + duration
    }
  }

  const DEFAULT_SEGMENT_TARGET := 6.0

  /** Segment i starts where the one before it ends. */
  ghost predicate Follows(segs: seq<SegmentBoundary>, i: nat)
    requires 0 < i < |segs|
  {
    segs[i].start == segs[i - 1].End()
  }

  /** The segments cover [0, total) without gap or overlap, each with a positive duration. */
  ghost predicate Tiles(segs: seq<SegmentBoundary>, total: real) {
    && |segs| > 0
    && segs[0].start == 0.0
    && segs[|segs| - 1].End() == total
    && (forall i :: 0 < i < |segs| ==> Follows(segs, i))
    && (forall i :: 0 <= i < |segs| ==> segs[i].duration > 0.0)
  }

  /** A tiling that -c copy can cut: inner boundaries are keyframes, no segment but the last is
      shorter than target, and no last one of several is shorter than a second. */
  ghost predicate Cuttable(segs: seq<SegmentBoundary>, kf: seq<real>, total: real, target: real) {
    && Tiles(segs, total)
    && (forall i :: 0 < i < |segs| ==> segs[i].start in kf)
    && (forall i :: 0 <= i < |segs| - 1 ==> segs[i].duration >= target)
    && (|segs| > 1 ==> segs[|segs| - 1].duration >= 1.0)
  }
}
