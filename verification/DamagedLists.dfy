/** Which damage to the segment muxer's list the selection of parts notices
    (internal/streaming/segment_generator.go): rows that cannot be read are skipped, so a damaged
    list is the intact one with some rows missing. */
module DamagedLists {
  import opened SegmentTable
  import opened SegmentParts

  datatype Line<N> = Row(part: Part<N>) | Unreadable

  /** The readable rows, in order. */
  function ParseSegmentList<N>(lines: seq<Line<N>>): seq<Part<N>> {
    if lines == [] then []
    else (if lines[0].Row? then [lines[0].part] else []) + ParseSegmentList(lines[1..])
  }

  // ----- Lists with rows missing -----

  /** some is all with rows missing. */
  ghost predicate Sub<N>(some: seq<Part<N>>, all: seq<Part<N>>)
    decreases |all|
  {
    some == [] || (all != [] && ((some[0] == all[0] && Sub(some[1..], all[1..])) || Sub(some, all[1..])))
  }

  /** Each line holds its row of the intact list, or cannot be read. */
  ghost predicate DamagedFrom<N>(lines: seq<Line<N>>, list: seq<Part<N>>) {
    |lines| == |list| && forall i :: 0 <= i < |lines| ==> lines[i].Unreadable? || lines[i] == Row(list[i])
  }

  lemma {:induction false} SkippedRowsAreMissing<N>(lines: seq<Line<N>>, list: seq<Part<N>>)
    requires DamagedFrom(lines, list)
    ensures Sub(ParseSegmentList(lines), list)
  {
    if lines != [] {
      SkippedRowsAreMissing(lines[1..], list[1..]);
      var rest := ParseSegmentList(lines[1..]);
      if lines[0].Row? {
        assert ([list[0]] + rest)[1..] == rest;
      } else {
        assert [] + rest == rest;
      }
    }
  }

  lemma {:induction false} SubSuffix<N>(all: seq<Part<N>>, j: nat)
    requires j <= |all|
    ensures Sub(all[j..], all)
    decreases |all|
  {
    if all != [] {
      if j == 0 {
        SubSuffix(all[1..], 0);
        assert all[0..] == all && all[1..][0..] == all[1..];
      } else {
        SubSuffix(all[1..], j - 1);
        assert all[1..][j - 1..] == all[j..];
      }
    }
  }

  lemma {:induction false} SubSplice<N>(all: seq<Part<N>>, i: nat, j: nat)
    requires i <= j <= |all|
    ensures Sub(all[..i] + all[j..], all)
    decreases i
  {
    if i == 0 {
      SubSuffix(all, j);
      assert all[..0] + all[j..] == all[j..];
    } else {
      SubSplice(all[1..], i - 1, j - 1);
      assert (all[..i] + all[j..])[1..] == all[1..][..i - 1] + all[1..][j - 1..];
    }
  }

  lemma {:induction false} SubTrans<N>(a: seq<Part<N>>, b: seq<Part<N>>, c: seq<Part<N>>)
    requires Sub(a, b) && Sub(b, c)
    ensures Sub(a, c)
    decreases |c|
  {
    if a != [] {
      if Sub(b, c[1..]) {
        SubTrans(a, b, c[1..]);
      } else if Sub(a, b[1..]) {
        SubTrans(a, b[1..], c[1..]);
      } else {
        SubTrans(a[1..], b[1..], c[1..]);
      }
    }
  }

  lemma {:induction false} HeadIsAt<N>(some: seq<Part<N>>, all: seq<Part<N>>) returns (j: nat)
    requires Sub(some, all) && some != []
    ensures j < |all| && all[j] == some[0]
    decreases |all|
  {
    if all[0] == some[0] {
      j := 0;
    } else {
      j := HeadIsAt(some, all[1..]);
      j := j + 1;
    }
  }

  lemma {:induction false} WindowIsSub<N>(list: seq<Part<N>>, start: real, end: real)
    ensures Sub(Window(list, start, end), list)
  {
    if list != [] {
      WindowIsSub(list[1..], start, end);
      var rest := Window(list[1..], start, end);
      if InWindow(list[0], start, end) { assert ([list[0]] + rest)[1..] == rest; }
    }
  }

  lemma {:induction false} SubOfWindow<N>(got: seq<Part<N>>, list: seq<Part<N>>, start: real, end: real)
    requires Sub(got, list)
    ensures Sub(Window(got, start, end), Window(list, start, end))
    decreases |list|
  {
    if got != [] {
      var w, rest := Window(list, start, end), Window(list[1..], start, end);
      if Sub(got, list[1..]) {
        SubOfWindow(got, list[1..], start, end);
        assert w == rest || w[1..] == rest;
      } else {
        SubOfWindow(got[1..], list[1..], start, end);
        var tail := Window(got[1..], start, end);
        if InWindow(got[0], start, end) {
          assert ([got[0]] + tail)[1..] == tail && ([list[0]] + rest)[1..] == rest;
        }
      }
    }
  }

  lemma {:induction false} WindowOfPicked<N>(some: seq<Part<N>>, list: seq<Part<N>>, start: real, end: real)
    requires Sub(some, Window(list, start, end))
    ensures Window(some, start, end) == some
    decreases |list|
  {
    if some != [] {
      var w, rest := Window(list, start, end), Window(list[1..], start, end);
      if InWindow(list[0], start, end) {
        assert w[1..] == rest;
        if Sub(some, rest) {
          WindowOfPicked(some, list[1..], start, end);
        } else {
          WindowOfPicked(some[1..], list[1..], start, end);
          assert some == [some[0]] + some[1..];
        }
      } else {
        WindowOfPicked(some, list[1..], start, end);
      }
    }
  }

  // ----- What the checks notice -----

  /** Losing any part would leave a hole beyond the tolerances: nothing but the first part starts
      near the segment's start, and nothing but its successor starts near a part's end. */
  ghost predicate Lasting<N>(parts: seq<Part<N>>, start: real) {
    && (forall j :: 0 < j < |parts| ==> parts[j].start - start > MAX_START_DRIFT)
    && NoShortcut(parts)
  }

  ghost predicate NoShortcut<N>(parts: seq<Part<N>>) {
    forall i, j :: 0 <= i < j < |parts| ==> i + 1 == j || HoleBetween(parts, i, j)
  }

  predicate HoleBetween<N>(parts: seq<Part<N>>, i: nat, j: nat)
    requires i < |parts| && j < |parts|
  {
    parts[j].start - parts[i].end > CONTINUITY_TOL
  }

  ghost predicate Increasing<N>(parts: seq<Part<N>>) {
    forall i, j :: 0 <= i < j < |parts| ==> parts[i].start < parts[j].start
  }

  /** Parts that follow one that ends at prev. */
  ghost predicate FollowsOn<N>(parts: seq<Part<N>>, prev: real) {
    (parts != [] ==> parts[0].start - prev <= CONTINUITY_TOL) && AllJoined(parts)
  }

  lemma TailFollowsOn<N>(parts: seq<Part<N>>)
    requires parts != [] && AllJoined(parts)
    ensures FollowsOn(parts[1..], parts[0].end)
  {
    if |parts| > 1 { assert Joined(parts, 1); }
    forall i | 0 < i < |parts[1..]| ensures Joined(parts[1..], i) {
      assert Joined(parts, i + 1);
    }
  }

  lemma TailHasNoShortcut<N>(parts: seq<Part<N>>)
    requires parts != [] && NoShortcut(parts)
    ensures NoShortcut(parts[1..])
    ensures forall j :: 0 < j < |parts[1..]| ==> parts[1..][j].start - parts[0].end > CONTINUITY_TOL
  {
    var tail := parts[1..];
    forall i, j | 0 <= i < j < |tail| ensures i + 1 == j || HoleBetween(tail, i, j) {
      assert i + 1 == j || HoleBetween(parts, i + 1, j + 1);
    }
    forall j | 0 < j < |tail| ensures tail[j].start - parts[0].end > CONTINUITY_TOL {
      assert HoleBetween(parts, 0, j + 1);
    }
  }

  lemma {:induction false} OnlyPrefixFollows<N>(some: seq<Part<N>>, all: seq<Part<N>>, prev: real)
    requires Sub(some, all) && FollowsOn(some, prev) && NoShortcut(all)
    requires forall j :: 0 < j < |all| ==> all[j].start - prev > CONTINUITY_TOL
    ensures some <= all
    decreases |all|
  {
    if some != [] {
      if Sub(some, all[1..]) {
        var _ := HeadIsAt(some, all[1..]);
      }
      TailFollowsOn(some);
      TailHasNoShortcut(all);
      OnlyPrefixFollows(some[1..], all[1..], all[0].end);
      assert some == [some[0]] + some[1..] && all == [all[0]] + all[1..];
    }
  }

  lemma OnlyPrefixAccepted<N>(some: seq<Part<N>>, all: seq<Part<N>>, start: real)
    requires Sub(some, all) && Acceptable(some, start) && Lasting(all, start)
    ensures some <= all
  {
    if Sub(some, all[1..]) {
      var _ := HeadIsAt(some, all[1..]);
    }
    TailFollowsOn(some);
    TailHasNoShortcut(all);
    OnlyPrefixFollows(some[1..], all[1..], all[0].end);
    assert some == [some[0]] + some[1..] && all == [all[0]] + all[1..];
  }

  /** Two stretches of joined parts with no hole at the seam. */
  lemma SpliceJoined<N>(parts: seq<Part<N>>, i: nat, j: nat)
    requires 0 < i < j < |parts| && AllJoined(parts) && !HoleBetween(parts, i - 1, j)
    ensures AllJoined(parts[..i] + parts[j..])
  {
    var spliced := parts[..i] + parts[j..];
    forall k | 0 < k < |spliced| ensures Joined(spliced, k) {
      if k < i { assert Joined(parts, k); }
      if k > i { assert Joined(parts, k - i + j); }
    }
  }

  lemma SuffixJoined<N>(parts: seq<Part<N>>, j: nat)
    requires j <= |parts| && AllJoined(parts)
    ensures AllJoined(parts[j..])
  {
    forall k | 0 < k < |parts[j..]| ensures Joined(parts[j..], k) {
      assert Joined(parts, j + k);
    }
  }

  /** If parts do not last, some of them can go missing before the last one unnoticed. */
  lemma ShortPartsCanGo<N>(parts: seq<Part<N>>, start: real) returns (some: seq<Part<N>>)
    requires Acceptable(parts, start) && Increasing(parts) && !Lasting(parts, start)
    ensures Sub(some, parts) && Acceptable(some, start) && !(some <= parts)
  {
    if j :| 0 < j < |parts| && parts[j].start - start <= MAX_START_DRIFT {
      some := parts[j..];
      SubSuffix(parts, j);
      SuffixJoined(parts, j);
      assert some[0] == parts[j] && parts[0].start < parts[j].start;
    } else {
      var i, j :| 0 <= i < j < |parts| && i + 1 != j && !HoleBetween(parts, i, j);
      some := parts[..i + 1] + parts[j..];
      SubSplice(parts, i + 1, j);
      SpliceJoined(parts, i + 1, j);
      assert some[i + 1] == parts[j] && parts[i + 1].start < parts[j].start;
    }
  }

  /** A list of which rows are missing is accepted only with a prefix of the segment's parts, so
      that a part missing in the middle is always noticed, exactly if the parts last: with shorter
      parts, some could go missing unnoticed. */
  lemma LostPartsAreNoticedIffLasting<N>(list: seq<Part<N>>, start: real, end: real)
    requires Acceptable(Window(list, start, end), start) && Increasing(Window(list, start, end))
    ensures (forall got :: Sub(got, list) && Acceptable(Window(got, start, end), start) ==>
               Window(got, start, end) <= Window(list, start, end))
            <==> Lasting(Window(list, start, end), start)
  {
    var parts := Window(list, start, end);
    if Lasting(parts, start) {
      forall got | Sub(got, list) && Acceptable(Window(got, start, end), start)
        ensures Window(got, start, end) <= parts
      {
        SubOfWindow(got, list, start, end);
        OnlyPrefixAccepted(Window(got, start, end), parts, start);
      }
    } else {
      var some := ShortPartsCanGo(parts, start);
      WindowIsSub(list, start, end);
      SubTrans(some, parts, list);
      WindowOfPicked(some, list, start, end);
    }
  }

  /** Parts missing at the end are never noticed: what is left is accepted. */
  lemma LostTailIsAccepted<N>(parts: seq<Part<N>>, some: seq<Part<N>>, start: real)
    requires Acceptable(parts, start) && some <= parts && some != []
    ensures Acceptable(some, start)
  {
    forall i | 0 < i < |some| ensures Joined(some, i) {
      assert Joined(parts, i);
    }
  }

  /** Three parts of one second: the selection does not notice that the middle one is missing. */
  lemma ShortPartGoesMissing()
    ensures var lines := [Row(Part(0, 0.0, 1.0)), Unreadable, Row(Part(2, 2.0, 3.0))];
            Selects(ParseSegmentList(lines), 0.0, 3.0, Ok([0, 2]))
  {
    var lines: seq<Line<int>> := [Row(Part(0, 0.0, 1.0)), Unreadable, Row(Part(2, 2.0, 3.0))];
    var rows: seq<Part<int>> := [Part(0, 0.0, 1.0), Part(2, 2.0, 3.0)];
    assert lines[1..][1..] == [Row(Part(2, 2.0, 3.0))];
    assert ParseSegmentList(lines) == rows;
    assert rows[1..] == [Part(2, 2.0, 3.0)];
    assert Window(rows, 0.0, 3.0) == rows;
    assert Names(rows) == [0, 2];
  }
}
