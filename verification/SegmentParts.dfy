/** Picking the parts of one segment out of the segment muxer's list
    (internal/streaming/segment_generator.go). */
module SegmentParts {
  import opened SegmentTable

  const SEEK_BACKOFF := 1.0
  const READ_MARGIN := 0.5
  const BOUNDARY_TOL := 0.002
  const MAX_START_DRIFT := 0.1
  const CONTINUITY_TOL := 2.0

  /** One row of the muxer's list: a part's name and the time range of its content. */
  datatype Part<+N> = Part(name: N, start: real, end: real)

  datatype SelectError<+N> =
    | NoParts
    | StartsLate(at: real)
    | Gap(before: Part<N>, after: Part<N>)

  predicate InWindow<N>(p: Part<N>, start: real, end: real) {
    start - MAX_START_DRIFT <= p.start < end - BOUNDARY_TOL
  }

  /** The rows in the window, in list order. */
  function Window<N>(all: seq<Part<N>>, start: real, end: real): seq<Part<N>> {
    if all == [] then []
    else if InWindow(all[0], start, end) then [all[0]] + Window(all[1..], start, end)
    else Window(all[1..], start, end)
  }

  function Names<N>(parts: seq<Part<N>>): (names: seq<N>)
    ensures |names| == |parts|
    ensures forall i :: 0 <= i < |parts| ==> names[i] == parts[i].name
  {
    seq(|parts|, i requires 0 <= i < |parts| => parts[i].name)
  }

  /** The part at i follows the one before it closely enough. */
  predicate Joined<N>(parts: seq<Part<N>>, i: nat)
    requires 0 < i < |parts|
  {
    parts[i].start - parts[i - 1].end <= CONTINUITY_TOL
  }

  predicate AllJoined<N>(parts: seq<Part<N>>) {
    forall i :: 0 < i < |parts| ==> Joined(parts, i)
  }

  /** The rows make up the segment at start: some row does, the first one where the segment
      starts, and none leaves a hole before the next. */
  ghost predicate Acceptable<N>(parts: seq<Part<N>>, start: real) {
    parts != [] && parts[0].start - start <= MAX_START_DRIFT && AllJoined(parts)
  }

  /** before and after are the first two neighbours with a hole between them. */
  ghost predicate FirstGap<N>(parts: seq<Part<N>>, before: Part<N>, after: Part<N>) {
    exists i :: 0 < i < |parts| && parts[i - 1] == before && parts[i] == after &&
                !Joined(parts, i) && AllJoined(parts[..i])
  }

  /** What a selection from list must answer. */
  ghost predicate Selects<N>(list: seq<Part<N>>, start: real, end: real, r: Result<seq<N>, SelectError<N>>) {
    var parts := Window(list, start, end);
    match r
    case Ok(names) => Acceptable(parts, start) && names == Names(parts)
    case Err(NoParts) => parts == []
    case Err(StartsLate(at)) => parts != [] && at == parts[0].start && at - start > MAX_START_DRIFT
    case Err(Gap(before, after)) =>
      parts != [] && parts[0].start - start <= MAX_START_DRIFT && FirstGap(parts, before, after)
  }

  method SelectParts<N>(all: seq<Part<N>>, start: real, end: real) returns (r: Result<seq<N>, SelectError<N>>)
    ensures Selects(all, start, end, r)
  {
    var names: seq<N> := [];
    var prev: Option<Part<N>> := None;
    ghost var parts: seq<Part<N>> := [];
    for i := 0 to |all|
      invariant parts == Window(all[..i], start, end)
      invariant names == Names(parts)
      invariant parts != [] ==> prev == Some(parts[|parts| - 1]) && Acceptable(parts, start)
    {
      var p := all[i];
      WindowSplit(all, i, start, end);
      if p.start < start - MAX_START_DRIFT || p.start >= end - BOUNDARY_TOL {
        continue;
      }
      ghost var rest := Window(all[i + 1..], start, end);
      if |names| == 0 && p.start - start > MAX_START_DRIFT {
        return Err(StartsLate(p.start));
      }
      if |names| > 0 && p.start - prev.value.end > CONTINUITY_TOL {
        GapIsFirst(parts, p, rest);
        return Err(Gap(prev.value, p));
      }
      names := names + [p.name];
      prev := Some(p);
      JoinedAppend(parts, p);
      parts := parts + [p];
    }
    assert all[..|all|] == all;
    if |names| == 0 {
      return Err(NoParts);
    }
    return Ok(names);
  }

  lemma {:induction false} WindowConcat<N>(a: seq<Part<N>>, b: seq<Part<N>>, start: real, end: real)
    ensures Window(a + b, start, end) == Window(a, start, end) + Window(b, start, end)
  {
    if a == [] {
      assert a + b == b;
    } else {
      WindowConcat(a[1..], b, start, end);
      assert (a + b)[1..] == a[1..] + b;
    }
  }

  lemma WindowSplit<N>(all: seq<Part<N>>, i: nat, start: real, end: real)
    requires i < |all|
    ensures var here := if InWindow(all[i], start, end) then [all[i]] else [];
            Window(all[..i + 1], start, end) == Window(all[..i], start, end) + here &&
            Window(all, start, end) == Window(all[..i], start, end) + here + Window(all[i + 1..], start, end)
  {
    assert all[..i + 1] == all[..i] + [all[i]];
    WindowConcat(all[..i], [all[i]], start, end);
    assert all == all[..i + 1] + all[i + 1..];
    WindowConcat(all[..i + 1], all[i + 1..], start, end);
    assert Window([all[i]], start, end) == if InWindow(all[i], start, end) then [all[i]] else [];
  }

  lemma GapIsFirst<N>(parts: seq<Part<N>>, p: Part<N>, rest: seq<Part<N>>)
    requires parts != [] && AllJoined(parts)
    requires p.start - parts[|parts| - 1].end > CONTINUITY_TOL
    ensures FirstGap(parts + [p] + rest, parts[|parts| - 1], p)
  {
    var all := parts + [p] + rest;
    var i := |parts|;
    assert all[..i] == parts;
    assert !Joined(all, i);
  }

  lemma JoinedAppend<N>(parts: seq<Part<N>>, p: Part<N>)
    requires AllJoined(parts)
    requires parts != [] ==> p.start - parts[|parts| - 1].end <= CONTINUITY_TOL
    ensures AllJoined(parts + [p])
  {
    forall i | 0 < i < |parts + [p]| ensures Joined(parts + [p], i) {
      if i < |parts| { assert Joined(parts, i); }
    }
  }

  lemma PrefixJoined<N>(parts: seq<Part<N>>, n: nat)
    requires n <= |parts| && AllJoined(parts[..n])
    ensures forall i :: 0 < i < n ==> Joined(parts, i)
  {
    forall i | 0 < i < n ensures Joined(parts, i) {
      assert Joined(parts[..n], i);
    }
  }

  /** Any list, even a damaged one, has exactly one answer, and it is a success exactly when the
      rows in the window are acceptable. */
  lemma SelectionIsDecided<N>(list: seq<Part<N>>, start: real, end: real,
                              r: Result<seq<N>, SelectError<N>>, r': Result<seq<N>, SelectError<N>>)
    requires Selects(list, start, end, r) && Selects(list, start, end, r')
    ensures r == r'
    ensures r.Ok? <==> Acceptable(Window(list, start, end), start)
  {
    var parts := Window(list, start, end);
    if r.Err? && r.error.Gap? {
      var i :| 0 < i < |parts| && parts[i - 1] == r.error.before && parts[i] == r.error.after &&
               !Joined(parts, i) && AllJoined(parts[..i]);
      if r'.Err? && r'.error.Gap? {
        var j :| 0 < j < |parts| && parts[j - 1] == r'.error.before && parts[j] == r'.error.after &&
                 !Joined(parts, j) && AllJoined(parts[..j]);
        PrefixJoined(parts, i);
        PrefixJoined(parts, j);
      }
    }
  }
}
