/** What a Playback Session reports while a video is watched (web/src/lib/playbackSession.ts,
    web/src/lib/heartbeat.ts), and what the server keeps of it
    (internal/service/watch_session_service.go). Positions are `real` seconds; the clock and the
    quality summary are inputs of the events that read them. */
module PlaybackSession {
  import opened SegmentTable

  const MAX_HEARTBEAT_DELTA := 22
  const PROGRESS_THROTTLE_MS := 10000

  function ClampDelta(prev: real, next: real): (d: nat) {
    var delta := next.Floor - prev.Floor;
    if delta <= 0 then 0 else if delta < MAX_HEARTBEAT_DELTA then delta else MAX_HEARTBEAT_DELTA
  }

  // ----- State, events and reports -----

  /** The parts of the quality summary that decide whether the video was played. */
  datatype Summary = Summary(ttffMs: Option<int>, watchedMs: int)

  predicate WasPlayed(q: Summary) {
    q.ttffMs.Some? || q.watchedMs > 0
  }

  datatype Sent =
    | Progress(seconds: int, leaving: bool, throttled: bool, sentAt: int)
    | Heartbeat(delta: int, position: int, leaving: bool)
    | Telemetry(summary: Summary)

  datatype State = State(
    ended: bool, telemetrySent: bool, lastReportAt: int, lastReportSeconds: int,
    lastSample: real, pendingDelta: int, lastPosition: real, log: seq<Sent>)

  const START := State(false, false, 0, -1, 0.0, 0, 0.0, [])

  datatype Event =
    | TimeUpdate(at: real, now: int)
    | Seeking(at: real)
    | Pause(at: real, now: int)
    | PageHide(now: int, quality: Summary)
    | VisibilityChange(hidden: bool, now: int)
    | Interval(at: real)
    | PositionSet(seconds: real)
    | End(now: int, quality: Summary)

  // ----- What each handler does -----

  function Send(s: State, report: Sent): State {
    s.(log := s.log + [report])
  }

  function ReportProgress(s: State, at: real, leaving: bool, throttled: bool, now: int): State {
    var seconds := at.Floor;
    if seconds == s.lastReportSeconds then s
    else if throttled && now - s.lastReportAt < PROGRESS_THROTTLE_MS then s
    else Send(s.(lastReportAt := now, lastReportSeconds := seconds), Progress(seconds, leaving, throttled, now))
  }

  function FlushHeartbeat(s: State, at: real, leaving: bool): State {
    if s.pendingDelta <= 0 then s
    else Send(s.(pendingDelta := 0), Heartbeat(s.pendingDelta, at.Floor, leaving))
  }

  function SendTelemetry(s: State, quality: Summary): State {
    if s.telemetrySent || !WasPlayed(quality) then s
    else Send(s.(telemetrySent := true), Telemetry(quality))
  }

  function SendLeavingWatchReports(s: State, now: int): State {
    var t := if s.lastPosition >= 1.0 then ReportProgress(s, s.lastPosition, true, false, now) else s;
    FlushHeartbeat(t, t.lastPosition, true)
  }

  function Leave(s: State, now: int, quality: Summary): State {
    SendTelemetry(SendLeavingWatchReports(s, now), quality)
  }

  function OnTimeUpdate(s: State, at: real, now: int): State {
    var t := ReportProgress(s.(lastPosition := at), at, false, true, now);
    t.(pendingDelta := t.pendingDelta + ClampDelta(t.lastSample, at), lastSample := at)
  }

  function OnPause(s: State, at: real, now: int): State {
    var t := s.(lastPosition := at);
    if at < 1.0 then t else ReportProgress(t, at, false, false, now)
  }

  /** Once ended, the listeners and the interval are gone and the methods return at once. */
  function Step(s: State, e: Event): State {
    if s.ended then s
    else match e {
      case TimeUpdate(at, now) => OnTimeUpdate(s, at, now)
      case Seeking(at) => s.(lastPosition := at, lastSample := at)
      case Pause(at, now) => OnPause(s, at, now)
      case PageHide(now, quality) => Leave(s, now, quality)
      case VisibilityChange(hidden, now) => if hidden then SendLeavingWatchReports(s, now) else s
      case Interval(at) => FlushHeartbeat(s, at, false)
      case PositionSet(seconds) => s.(lastPosition := seconds, lastSample := seconds)
      case End(now, quality) => Leave(s.(ended := true), now, quality)
    }
  }

  function Run(s: State, es: seq<Event>): State
    decreases |es|
  {
    if es == [] then s else Run(Step(s, es[0]), es[1..])
  }

  // ----- Conservation of watch time -----

  function Watched(log: seq<Sent>): int {
    if log == [] then 0
    else Watched(log[..|log| - 1]) + match log[|log| - 1] { case Heartbeat(delta, _, _) => delta case _ => 0 }
  }

  lemma WatchedOne(log: seq<Sent>, report: Sent)
    ensures Watched(log + [report]) == Watched(log) + if report.Heartbeat? then report.delta else 0
  {
    assert (log + [report])[..|log|] == log;
  }

  /** Sent and still to send. */
  function Total(s: State): int {
    Watched(s.log) + s.pendingDelta
  }

  /** The play time one event counts: only a time update does. */
  function Counts(s: State, e: Event): nat {
    if e.TimeUpdate? && !s.ended then ClampDelta(s.lastSample, e.at) else 0
  }

  function Counted(s: State, es: seq<Event>): nat
    decreases |es|
  {
    if es == [] then 0 else Counts(s, es[0]) + Counted(Step(s, es[0]), es[1..])
  }

  lemma ProgressKeepsTotal(s: State, at: real, leaving: bool, throttled: bool, now: int)
    ensures var t := ReportProgress(s, at, leaving, throttled, now);
            Total(t) == Total(s) && t.pendingDelta == s.pendingDelta
  {
    WatchedOne(s.log, Progress(at.Floor, leaving, throttled, now));
  }

  lemma FlushKeepsTotal(s: State, at: real, leaving: bool)
    requires s.pendingDelta >= 0
    ensures Total(FlushHeartbeat(s, at, leaving)) == Total(s) && FlushHeartbeat(s, at, leaving).pendingDelta == 0
  {
    WatchedOne(s.log, Heartbeat(s.pendingDelta, at.Floor, leaving));
  }

  lemma LeavingKeepsTotal(s: State, now: int)
    requires s.pendingDelta >= 0
    ensures Total(SendLeavingWatchReports(s, now)) == Total(s) && SendLeavingWatchReports(s, now).pendingDelta == 0
  {
    ProgressKeepsTotal(s, s.lastPosition, true, false, now);
    var t := if s.lastPosition >= 1.0 then ReportProgress(s, s.lastPosition, true, false, now) else s;
    FlushKeepsTotal(t, t.lastPosition, true);
  }

  lemma LeaveKeepsTotal(s: State, now: int, quality: Summary)
    requires s.pendingDelta >= 0
    ensures Total(Leave(s, now, quality)) == Total(s) && Leave(s, now, quality).pendingDelta == 0
  {
    LeavingKeepsTotal(s, now);
    WatchedOne(SendLeavingWatchReports(s, now).log, Telemetry(quality));
  }

  lemma StepConserves(s: State, e: Event)
    requires s.pendingDelta >= 0
    ensures Total(Step(s, e)) == Total(s) + Counts(s, e) && Step(s, e).pendingDelta >= 0
  {
    match e {
      case TimeUpdate(at, now) => ProgressKeepsTotal(s.(lastPosition := at), at, false, true, now);
      case Pause(at, now) => ProgressKeepsTotal(s.(lastPosition := at), at, false, false, now);
      case PageHide(now, quality) => LeaveKeepsTotal(s, now, quality);
      case VisibilityChange(_, now) => LeavingKeepsTotal(s, now);
      case Interval(at) => FlushKeepsTotal(s, at, false);
      case End(now, quality) => LeaveKeepsTotal(s.(ended := true), now, quality);
      case _ =>
    }
  }

  /** At every moment, the play time sent and pending is what the time updates counted. */
  lemma {:induction false} WatchTimeIsConserved(s: State, es: seq<Event>)
    requires s.pendingDelta >= 0
    ensures Total(Run(s, es)) == Total(s) + Counted(s, es) && Run(s, es).pendingDelta >= 0
    decreases |es|
  {
    if es != [] {
      StepConserves(s, es[0]);
      WatchTimeIsConserved(Step(s, es[0]), es[1..]);
    }
  }

  // ----- Counting without drift -----

  /** Playback goes on without a seek and without going back. */
  predicate Forward(s: State, es: seq<Event>)
    decreases |es|
  {
    es != [] ==>
      && !es[0].Seeking? && !es[0].PositionSet? && !es[0].End?
      && (es[0].TimeUpdate? ==> s.lastSample.Floor <= es[0].at.Floor)
      && Forward(Step(s, es[0]), es[1..])
  }

  /** No time update is more than the cap after the one before. */
  predicate Gradual(s: State, es: seq<Event>)
    decreases |es|
  {
    es != [] ==>
      && (es[0].TimeUpdate? ==> es[0].at.Floor - s.lastSample.Floor <= MAX_HEARTBEAT_DELTA)
      && Gradual(Step(s, es[0]), es[1..])
  }

  lemma StepMovesSample(s: State, e: Event)
    requires !s.ended && !e.Seeking? && !e.PositionSet? && !e.End?
    ensures !Step(s, e).ended && Step(s, e).lastSample == if e.TimeUpdate? then e.at else s.lastSample
  {
  }

  /** Forward playback counts no more than the whole seconds it moved, and exactly those if and only
      if no step exceeds the cap: fractions of seconds add up to no drift. */
  lemma {:induction false} ForwardPlayCounts(s: State, es: seq<Event>)
    requires !s.ended && Forward(s, es)
    ensures var moved := Run(s, es).lastSample.Floor - s.lastSample.Floor;
            Counted(s, es) <= moved && (Counted(s, es) == moved <==> Gradual(s, es))
    decreases |es|
  {
    if es != [] {
      StepMovesSample(s, es[0]);
      ForwardPlayCounts(Step(s, es[0]), es[1..]);
    }
  }

  // ----- What counts as played -----

  /** The whole seconds played forward from position `from`, as the events tell it: a seek or a move
      of the Stream Source starts anew, and nothing is played after the end. */
  function Played(es: seq<Event>, from: real): nat {
    if es == [] then 0
    else match es[0] {
      case TimeUpdate(at, _) => (if at.Floor > from.Floor then at.Floor - from.Floor else 0) + Played(es[1..], at)
      case Seeking(at) => Played(es[1..], at)
      case PositionSet(at) => Played(es[1..], at)
      case End(_, _) => 0
      case _ => Played(es[1..], from)
    }
  }

  /** No time update before the end lies more than the cap ahead of the position before it. */
  predicate NoJump(es: seq<Event>, from: real) {
    es != [] ==> match es[0] {
      case TimeUpdate(at, _) => at.Floor - from.Floor <= MAX_HEARTBEAT_DELTA && NoJump(es[1..], at)
      case Seeking(at) => NoJump(es[1..], at)
      case PositionSet(at) => NoJump(es[1..], at)
      case End(_, _) => true
      case _ => NoJump(es[1..], from)
    }
  }

  lemma {:induction false} EndedCountsNothing(s: State, es: seq<Event>)
    requires s.ended
    ensures Counted(s, es) == 0
    decreases |es|
  {
    if es != [] {
      EndedCountsNothing(s, es[1..]);
    }
  }

  /** Whatever the events, what is counted is at most what was played, with neither seeks nor moves
      nor going back counted, and it is exactly that if and only if no step exceeds the cap. */
  lemma {:induction false} CountedIsPlayed(s: State, es: seq<Event>)
    requires !s.ended
    ensures Counted(s, es) <= Played(es, s.lastSample)
    ensures Counted(s, es) == Played(es, s.lastSample) <==> NoJump(es, s.lastSample)
    decreases |es|
  {
    if es != [] {
      var s' := Step(s, es[0]);
      if s'.ended {
        EndedCountsNothing(s', es[1..]);
      } else {
        CountedIsPlayed(s', es[1..]);
      }
    }
  }

  // ----- What the server keeps -----

  datatype HeartbeatInput = HeartbeatInput(
    sessionId: string, userId: string, videoId: string, delta: int, position: int)

  datatype HeartbeatError = InvalidHeartbeat

  /** What is stored of a heartbeat, or why it is refused. */
  method RecordHeartbeat(input: HeartbeatInput) returns (r: Result<HeartbeatInput, HeartbeatError>)
    ensures r.Err? <==> input.sessionId == "" || input.userId == "" || input.videoId == "" || input.delta < 0
    ensures r.Ok? ==>
              && r.value.delta == Kept(input.delta)
              && r.value.delta == (if input.delta > 22 then 22 else input.delta)
              && r.value.position == (if input.position < 0 then 0 else input.position)
              && r.value.sessionId == input.sessionId && r.value.userId == input.userId
              && r.value.videoId == input.videoId
  {
    if input.sessionId == "" || input.userId == "" || input.videoId == "" || input.delta < 0 {
      return Err(InvalidHeartbeat);
    }
    var stored := input;
    if stored.delta > MAX_HEARTBEAT_DELTA { stored := stored.(delta := MAX_HEARTBEAT_DELTA); }
    if stored.position < 0 { stored := stored.(position := 0); }
    r := Ok(stored);
  }

  /** The play time the server counts of one accepted heartbeat. */
  function Kept(delta: int): int {
    if delta > MAX_HEARTBEAT_DELTA then MAX_HEARTBEAT_DELTA else delta
  }

  /** What the server has stored once the reports at the positions in `arrived` have reached it. */
  function Stored(log: seq<Sent>, arrived: set<nat>): int {
    if log == [] then 0
    else
      var n := |log| - 1;
      Stored(log[..n], arrived) + if n in arrived && log[n].Heartbeat? then Kept(log[n].delta) else 0
  }

  /** Every heartbeat counts something. */
  predicate AllPositive(log: seq<Sent>) {
    forall i :: 0 <= i < |log| && log[i].Heartbeat? ==> log[i].delta > 0
  }

  predicate AllArrive(log: seq<Sent>, arrived: set<nat>) {
    forall i :: 0 <= i < |log| && log[i].Heartbeat? ==> i in arrived
  }

  predicate Small(report: Sent) {
    report.Heartbeat? ==> report.delta <= MAX_HEARTBEAT_DELTA
  }

  predicate AllSmall(log: seq<Sent>) {
    forall i :: 0 <= i < |log| ==> Small(log[i])
  }

  lemma FrontAndLast(log: seq<Sent>, arrived: set<nat>)
    requires log != []
    ensures var (n, front, last) := (|log| - 1, log[..|log| - 1], log[|log| - 1]);
            && (AllSmall(log) <==> AllSmall(front) && Small(last))
            && (AllPositive(log) <==> AllPositive(front) && (last.Heartbeat? ==> last.delta > 0))
            && (AllArrive(log, arrived) <==> AllArrive(front, arrived) && (last.Heartbeat? ==> n in arrived))
  {
    assert log == log[..|log| - 1] + [log[|log| - 1]];
  }

  /** Whichever reports are lost, the server stores no more than was sent, and all of it exactly if every
      heartbeat arrives and none exceeds the cap. */
  lemma {:induction false} ServerStoresNoMoreThanSent(log: seq<Sent>, arrived: set<nat>)
    requires AllPositive(log)
    ensures Stored(log, arrived) <= Watched(log)
    ensures Stored(log, arrived) == Watched(log) <==> AllSmall(log) && AllArrive(log, arrived)
  {
    if log != [] {
      FrontAndLast(log, arrived);
      ServerStoresNoMoreThanSent(log[..|log| - 1], arrived);
    }
  }

  // ----- The end -----

  predicate Settled(s: State) {
    s.ended ==> s.pendingDelta == 0 && (s.lastPosition >= 1.0 ==> s.lastReportSeconds == s.lastPosition.Floor)
  }

  lemma StepSettles(s: State, e: Event)
    requires s.pendingDelta >= 0 && Settled(s)
    ensures Settled(Step(s, e))
  {
  }

  /** Once ended, no play time is pending and the last position is saved. */
  lemma {:induction false} EndedIsSettled(s: State, es: seq<Event>)
    requires s.pendingDelta >= 0 && Settled(s)
    ensures Settled(Run(s, es))
    decreases |es|
  {
    if es != [] {
      StepSettles(s, es[0]);
      StepConserves(s, es[0]);
      EndedIsSettled(Step(s, es[0]), es[1..]);
    }
  }

  lemma {:induction false} EndedStays(s: State, es: seq<Event>)
    requires s.ended
    ensures Run(s, es) == s
    decreases |es|
  {
    if es != [] {
      EndedStays(s, es[1..]);
    }
  }

  /** After the end nothing changes and nothing is sent any more. */
  lemma NothingAfterEnd(s: State, e: Event, es: seq<Event>)
    requires e.End?
    ensures Run(Step(s, e), es) == Step(s, e)
  {
    EndedStays(Step(s, e), es);
  }

  lemma FlushIsPositive(s: State, at: real, leaving: bool)
    requires AllPositive(s.log)
    ensures AllPositive(FlushHeartbeat(s, at, leaving).log)
  {
  }

  lemma LeavingIsPositive(s: State, now: int)
    requires AllPositive(s.log)
    ensures AllPositive(SendLeavingWatchReports(s, now).log)
  {
    var t := if s.lastPosition >= 1.0 then ReportProgress(s, s.lastPosition, true, false, now) else s;
    FlushIsPositive(t, t.lastPosition, true);
  }

  lemma StepIsPositive(s: State, e: Event)
    requires AllPositive(s.log)
    ensures AllPositive(Step(s, e).log)
  {
    if !s.ended {
      match e {
        case PageHide(now, _) => LeavingIsPositive(s, now);
        case VisibilityChange(_, now) => LeavingIsPositive(s, now);
        case Interval(at) => FlushIsPositive(s, at, false);
        case End(now, _) => LeavingIsPositive(s.(ended := true), now);
        case _ =>
      }
    }
  }

  lemma {:induction false} HeartbeatsArePositive(s: State, es: seq<Event>)
    requires AllPositive(s.log)
    ensures AllPositive(Run(s, es).log)
    decreases |es|
  {
    if es != [] {
      StepIsPositive(s, es[0]);
      HeartbeatsArePositive(Step(s, es[0]), es[1..]);
    }
  }

  lemma StoredFrom(s: State, es: seq<Event>, arrived: set<nat>)
    requires s.pendingDelta == 0 && Watched(s.log) == 0 && Settled(s) && AllPositive(s.log)
    ensures var t := Run(s, es);
            Stored(t.log, arrived) <= Counted(s, es) && (t.ended ==> Watched(t.log) == Counted(s, es))
  {
    WatchTimeIsConserved(s, es);
    HeartbeatsArePositive(s, es);
    ServerStoresNoMoreThanSent(Run(s, es).log, arrived);
    EndedIsSettled(s, es);
  }

  /** The event sends what is pending, if anything is. */
  predicate Flushes(e: Event) {
    e.PageHide? || e.Interval? || e.End? || (e.VisibilityChange? && e.hidden)
  }

  /** No stretch between two flushes counts more than the cap, from position `from` on with `pending`
      counted so far. */
  predicate ShortStretches(es: seq<Event>, from: real, pending: int) {
    es != [] ==>
      && (Flushes(es[0]) ==> pending <= MAX_HEARTBEAT_DELTA)
      && match es[0] {
           case TimeUpdate(at, _) => ShortStretches(es[1..], at, pending + ClampDelta(from, at))
           case Seeking(at) => ShortStretches(es[1..], at, pending)
           case PositionSet(at) => ShortStretches(es[1..], at, pending)
           case End(_, _) => true
           case _ => ShortStretches(es[1..], from, if Flushes(es[0]) then 0 else pending)
         }
  }

  lemma SmallOne(log: seq<Sent>, report: Sent)
    ensures AllSmall(log + [report]) <==> AllSmall(log) && Small(report)
  {
    assert (log + [report])[|log|] == report;
    assert forall i :: 0 <= i < |log| ==> (log + [report])[i] == log[i];
  }

  lemma FlushIsSmall(s: State, at: real, leaving: bool)
    requires s.pendingDelta >= 0
    ensures AllSmall(FlushHeartbeat(s, at, leaving).log) <==> AllSmall(s.log) && s.pendingDelta <= MAX_HEARTBEAT_DELTA
  {
    SmallOne(s.log, Heartbeat(s.pendingDelta, at.Floor, leaving));
  }

  lemma ProgressIsSmall(s: State, at: real, leaving: bool, throttled: bool, now: int)
    ensures var t := ReportProgress(s, at, leaving, throttled, now);
            (AllSmall(t.log) <==> AllSmall(s.log)) && t.pendingDelta == s.pendingDelta
  {
    SmallOne(s.log, Progress(at.Floor, leaving, throttled, now));
  }

  lemma LeavingIsSmall(s: State, now: int)
    requires s.pendingDelta >= 0
    ensures AllSmall(SendLeavingWatchReports(s, now).log) <==> AllSmall(s.log) && s.pendingDelta <= MAX_HEARTBEAT_DELTA
  {
    ProgressIsSmall(s, s.lastPosition, true, false, now);
    var t := if s.lastPosition >= 1.0 then ReportProgress(s, s.lastPosition, true, false, now) else s;
    FlushIsSmall(t, t.lastPosition, true);
  }

  lemma LeaveIsSmall(s: State, now: int, quality: Summary)
    requires s.pendingDelta >= 0
    ensures AllSmall(Leave(s, now, quality).log) <==> AllSmall(s.log) && s.pendingDelta <= MAX_HEARTBEAT_DELTA
  {
    LeavingIsSmall(s, now);
    SmallOne(SendLeavingWatchReports(s, now).log, Telemetry(quality));
  }

  lemma StepIsSmall(s: State, e: Event)
    requires !s.ended && s.pendingDelta >= 0
    ensures AllSmall(Step(s, e).log) <==> AllSmall(s.log) && (Flushes(e) ==> s.pendingDelta <= MAX_HEARTBEAT_DELTA)
  {
    match e {
      case TimeUpdate(at, now) => ProgressIsSmall(s.(lastPosition := at), at, false, true, now);
      case Pause(at, now) => ProgressIsSmall(s.(lastPosition := at), at, false, false, now);
      case PageHide(now, quality) => LeaveIsSmall(s, now, quality);
      case VisibilityChange(_, now) => LeavingIsSmall(s, now);
      case Interval(at) => FlushIsSmall(s, at, false);
      case End(now, quality) => LeaveIsSmall(s.(ended := true), now, quality);
      case _ =>
    }
  }

  lemma StepPends(s: State, e: Event)
    requires !s.ended && s.pendingDelta >= 0
    ensures var t := Step(s, e);
            && t.pendingDelta == (if Flushes(e) then 0 else s.pendingDelta + Counts(s, e))
            && (t.ended <==> e.End?)
            && t.lastSample == (if e.TimeUpdate? then e.at else if e.Seeking? then e.at
                                else if e.PositionSet? then e.seconds else s.lastSample)
  {
  }

  lemma {:induction false} HeartbeatsAreSmall(s: State, es: seq<Event>)
    requires !s.ended && s.pendingDelta >= 0
    ensures AllSmall(Run(s, es).log) <==> AllSmall(s.log) && ShortStretches(es, s.lastSample, s.pendingDelta)
    decreases |es|
  {
    if es != [] {
      var s' := Step(s, es[0]);
      StepIsSmall(s, es[0]);
      StepPends(s, es[0]);
      if s'.ended {
        EndedStays(s', es[1..]);
      } else {
        HeartbeatsAreSmall(s', es[1..]);
      }
    }
  }

  lemma StoredIsPlayedFrom(s: State, es: seq<Event>, arrived: set<nat>)
    requires !s.ended && s.pendingDelta == 0 && Watched(s.log) == 0 && Settled(s)
    requires AllSmall(s.log) && AllPositive(s.log)
    ensures var (t, played) := (Run(s, es), Played(es, s.lastSample));
            && Stored(t.log, arrived) <= played
            && (t.ended ==>
                  (Stored(t.log, arrived) == played <==>
                     NoJump(es, s.lastSample) && ShortStretches(es, s.lastSample, 0) && AllArrive(t.log, arrived)))
  {
    StoredFrom(s, es, arrived);
    CountedIsPlayed(s, es);
    HeartbeatsArePositive(s, es);
    ServerStoresNoMoreThanSent(Run(s, es).log, arrived);
    HeartbeatsAreSmall(s, es);
  }

  /** From the player to the server, whichever reports are lost on the way: no run stores more play time
      than was played; and a session that ended has stored all of it exactly if no time update lies
      more than the cap ahead, no stretch between two reports counts more than the cap, and every
      heartbeat arrives. */
  lemma StoredIsPlayed(es: seq<Event>, arrived: set<nat>)
    ensures var (t, played) := (Run(START, es), Played(es, 0.0));
            && Stored(t.log, arrived) <= played
            && (t.ended <==> HasEnd(es))
            && (HasEnd(es) ==>
                  (Stored(t.log, arrived) == played <==>
                     NoJump(es, 0.0) && ShortStretches(es, 0.0, 0) && AllArrive(t.log, arrived)))
  {
    StoredIsPlayedFrom(START, es, arrived);
    PositionIsTracked(START, es);
  }

  // ----- Telemetry -----

  function Telemetries(log: seq<Sent>): nat {
    if log == [] then 0 else Telemetries(log[..|log| - 1]) + if log[|log| - 1].Telemetry? then 1 else 0
  }

  lemma TelemetriesOne(log: seq<Sent>, report: Sent)
    ensures Telemetries(log + [report]) == Telemetries(log) + if report.Telemetry? then 1 else 0
  {
    assert (log + [report])[..|log|] == log;
  }

  /** The page is left, or the session ends, after the video was played. */
  predicate LeavesPlayed(s: State, e: Event) {
    !s.ended && (e.PageHide? || e.End?) && WasPlayed(e.quality)
  }

  predicate LeftPlayed(s: State, es: seq<Event>)
    decreases |es|
  {
    es != [] && (LeavesPlayed(s, es[0]) || LeftPlayed(Step(s, es[0]), es[1..]))
  }

  lemma ProgressIsNoTelemetry(s: State, at: real, leaving: bool, throttled: bool, now: int)
    ensures Telemetries(ReportProgress(s, at, leaving, throttled, now).log) == Telemetries(s.log)
  {
    TelemetriesOne(s.log, Progress(at.Floor, leaving, throttled, now));
  }

  lemma FlushIsNoTelemetry(s: State, at: real, leaving: bool)
    ensures Telemetries(FlushHeartbeat(s, at, leaving).log) == Telemetries(s.log)
  {
    TelemetriesOne(s.log, Heartbeat(s.pendingDelta, at.Floor, leaving));
  }

  lemma LeavingIsNoTelemetry(s: State, now: int)
    ensures Telemetries(SendLeavingWatchReports(s, now).log) == Telemetries(s.log)
  {
    ProgressIsNoTelemetry(s, s.lastPosition, true, false, now);
    var t := if s.lastPosition >= 1.0 then ReportProgress(s, s.lastPosition, true, false, now) else s;
    FlushIsNoTelemetry(t, t.lastPosition, true);
  }

  lemma LeaveSendsTelemetry(s: State, now: int, quality: Summary)
    ensures var t := Leave(s, now, quality);
            && Telemetries(t.log) == Telemetries(s.log) + (if WasPlayed(quality) && !s.telemetrySent then 1 else 0)
            && (t.telemetrySent <==> s.telemetrySent || WasPlayed(quality))
  {
    LeavingIsNoTelemetry(s, now);
    TelemetriesOne(SendLeavingWatchReports(s, now).log, Telemetry(quality));
  }

  lemma StepSendsTelemetry(s: State, e: Event)
    ensures Telemetries(Step(s, e).log) == Telemetries(s.log) + if LeavesPlayed(s, e) && !s.telemetrySent then 1 else 0
    ensures Step(s, e).telemetrySent <==> s.telemetrySent || LeavesPlayed(s, e)
  {
    match e {
      case TimeUpdate(at, now) => ProgressIsNoTelemetry(s.(lastPosition := at), at, false, true, now);
      case Pause(at, now) => ProgressIsNoTelemetry(s.(lastPosition := at), at, false, false, now);
      case PageHide(now, quality) => LeaveSendsTelemetry(s, now, quality);
      case VisibilityChange(_, now) => LeavingIsNoTelemetry(s, now);
      case Interval(at) => FlushIsNoTelemetry(s, at, false);
      case End(now, quality) => LeaveSendsTelemetry(s.(ended := true), now, quality);
      case _ =>
    }
  }

  /** Telemetry goes out once if the page is ever left after playing, and otherwise never. */
  lemma {:induction false} TelemetryOnce(s: State, es: seq<Event>)
    ensures Telemetries(Run(s, es).log) - Telemetries(s.log) == if !s.telemetrySent && LeftPlayed(s, es) then 1 else 0
    decreases |es|
  {
    if es != [] {
      StepSendsTelemetry(s, es[0]);
      TelemetryOnce(Step(s, es[0]), es[1..]);
    }
  }

  // ----- Progress reports -----

  /** The second and the time of the last progress report; none yet counts as second -1 at time 0. */
  function LastProgress(log: seq<Sent>): (int, int) {
    if log == [] then (-1, 0)
    else match log[|log| - 1] {
      case Progress(seconds, _, _, sentAt) => (seconds, sentAt)
      case _ => LastProgress(log[..|log| - 1])
    }
  }

  /** No report repeats the second of the one before it, and a throttled one keeps its distance. */
  predicate Spaced(log: seq<Sent>) {
    log == [] || (
      && Spaced(log[..|log| - 1])
      && match log[|log| - 1] {
           case Progress(seconds, _, throttled, sentAt) =>
             var (before, sentBefore) := LastProgress(log[..|log| - 1]);
             seconds != before && (throttled ==> sentAt - sentBefore >= PROGRESS_THROTTLE_MS)
           case _ => true
         })
  }

  predicate InStep(s: State) {
    Spaced(s.log) && LastProgress(s.log) == (s.lastReportSeconds, s.lastReportAt)
  }

  lemma SendKeepsStep(s: State, report: Sent)
    requires InStep(s)
    requires report.Progress? ==> report.seconds != s.lastReportSeconds
    requires report.Progress? && report.throttled ==> report.sentAt - s.lastReportAt >= PROGRESS_THROTTLE_MS
    ensures Spaced(s.log + [report])
    ensures LastProgress(s.log + [report]) ==
            if report.Progress? then (report.seconds, report.sentAt) else LastProgress(s.log)
  {
    assert (s.log + [report])[..|s.log|] == s.log;
  }

  lemma ProgressKeepsStep(s: State, at: real, leaving: bool, throttled: bool, now: int)
    requires InStep(s)
    ensures InStep(ReportProgress(s, at, leaving, throttled, now))
  {
    if ReportProgress(s, at, leaving, throttled, now) != s {
      SendKeepsStep(s, Progress(at.Floor, leaving, throttled, now));
    }
  }

  lemma FlushKeepsStep(s: State, at: real, leaving: bool)
    requires InStep(s)
    ensures InStep(FlushHeartbeat(s, at, leaving))
  {
    SendKeepsStep(s, Heartbeat(s.pendingDelta, at.Floor, leaving));
  }

  lemma LeavingKeepsStep(s: State, now: int)
    requires InStep(s)
    ensures InStep(SendLeavingWatchReports(s, now))
  {
    ProgressKeepsStep(s, s.lastPosition, true, false, now);
    var t := if s.lastPosition >= 1.0 then ReportProgress(s, s.lastPosition, true, false, now) else s;
    FlushKeepsStep(t, t.lastPosition, true);
  }

  lemma LeaveKeepsStep(s: State, now: int, quality: Summary)
    requires InStep(s)
    ensures InStep(Leave(s, now, quality))
  {
    LeavingKeepsStep(s, now);
    SendKeepsStep(SendLeavingWatchReports(s, now), Telemetry(quality));
  }

  lemma StepStaysInStep(s: State, e: Event)
    requires InStep(s)
    ensures InStep(Step(s, e))
  {
    match e {
      case TimeUpdate(at, now) => ProgressKeepsStep(s.(lastPosition := at), at, false, true, now);
      case Pause(at, now) => ProgressKeepsStep(s.(lastPosition := at), at, false, false, now);
      case PageHide(now, quality) => LeaveKeepsStep(s, now, quality);
      case VisibilityChange(_, now) => LeavingKeepsStep(s, now);
      case Interval(at) => FlushKeepsStep(s, at, false);
      case End(now, quality) => LeaveKeepsStep(s.(ended := true), now, quality);
      case _ =>
    }
  }

  lemma {:induction false} RunStaysInStep(s: State, es: seq<Event>)
    requires InStep(s)
    ensures InStep(Run(s, es))
    decreases |es|
  {
    if es != [] {
      StepStaysInStep(s, es[0]);
      RunStaysInStep(Step(s, es[0]), es[1..]);
    }
  }

  /** On every run, no two successive progress reports are for the same second, and those sent while
      the video plays follow the one before by at least the throttle time. */
  lemma ProgressIsSpaced(es: seq<Event>)
    ensures Spaced(Run(START, es).log)
  {
    RunStaysInStep(START, es);
  }

  // ----- The position that stays saved -----

  /** Where playback last was, as the events tell it. */
  function PositionAfter(es: seq<Event>, from: real): real {
    if es == [] then from
    else match es[0] {
      case TimeUpdate(at, _) => PositionAfter(es[1..], at)
      case Seeking(at) => PositionAfter(es[1..], at)
      case Pause(at, _) => PositionAfter(es[1..], at)
      case PositionSet(at) => PositionAfter(es[1..], at)
      case End(_, _) => from
      case _ => PositionAfter(es[1..], from)
    }
  }

  predicate HasEnd(es: seq<Event>) {
    es != [] && (es[0].End? || HasEnd(es[1..]))
  }

  lemma {:induction false} PositionIsTracked(s: State, es: seq<Event>)
    requires !s.ended
    ensures Run(s, es).lastPosition == PositionAfter(es, s.lastPosition)
    ensures Run(s, es).ended <==> HasEnd(es)
    decreases |es|
  {
    if es != [] {
      var s' := Step(s, es[0]);
      if s'.ended {
        EndedStays(s', es[1..]);
      } else {
        PositionIsTracked(s', es[1..]);
      }
    }
  }

  lemma LastPositionIsSavedFrom(s: State, es: seq<Event>)
    requires !s.ended && InStep(s) && s.pendingDelta >= 0 && HasEnd(es) && PositionAfter(es, s.lastPosition) >= 1.0
    ensures LastProgress(Run(s, es).log).0 == PositionAfter(es, s.lastPosition).Floor
  {
    PositionIsTracked(s, es);
    RunStaysInStep(s, es);
    EndedIsSettled(s, es);
  }

  /** A session that ended at least a second into the video leaves the second it was last at as the
      last progress saved. */
  lemma LastPositionIsSaved(es: seq<Event>)
    requires HasEnd(es) && PositionAfter(es, 0.0) >= 1.0
    ensures LastProgress(Run(START, es).log).0 == PositionAfter(es, 0.0).Floor
  {
    LastPositionIsSavedFrom(START, es);
  }

  // ----- What is sent, and when -----

  lemma UpdateSends(s: State, at: real, now: int)
    requires !s.ended
    ensures Step(s, TimeUpdate(at, now)).log == s.log +
              if at.Floor != s.lastReportSeconds && now - s.lastReportAt >= 10000 then
                [Progress(at.Floor, false, true, now)]
              else []
    ensures Step(s, Pause(at, now)).log == s.log +
              if at >= 1.0 && at.Floor != s.lastReportSeconds then [Progress(at.Floor, false, false, now)] else []
  {
  }

  /** On every run, a time update before the end sends its second as progress exactly if it is not the
      one sent last and that was sent ten seconds ago; and a pause, past the first second, exactly if
      it is not the one sent last. */
  lemma ProgressIsSaved(es: seq<Event>, at: real, now: int)
    requires !HasEnd(es)
    ensures var s := Run(START, es);
            var (last, sentAt) := LastProgress(s.log);
            && Step(s, TimeUpdate(at, now)).log == s.log +
                 (if at.Floor != last && now - sentAt >= 10000 then [Progress(at.Floor, false, true, now)] else [])
            && Step(s, Pause(at, now)).log == s.log +
                 (if at >= 1.0 && at.Floor != last then [Progress(at.Floor, false, false, now)] else [])
  {
    RunStaysInStep(START, es);
    PositionIsTracked(START, es);
    UpdateSends(Run(START, es), at, now);
  }

  /** On every run, after each time update before the end the position's second is the one saved last, or
      one was saved less than ten seconds ago; after each pause past the first second it is saved. */
  lemma SavedPositionIsFresh(es: seq<Event>, at: real, now: int)
    requires !HasEnd(es)
    ensures var (last, sentAt) := LastProgress(Step(Run(START, es), TimeUpdate(at, now)).log);
            last == at.Floor || now - sentAt < 10000
    ensures at >= 1.0 ==> LastProgress(Step(Run(START, es), Pause(at, now)).log).0 == at.Floor
  {
    var s := Run(START, es);
    ProgressIsSaved(es, at, now);
    assert (s.log + [Progress(at.Floor, false, true, now)])[..|s.log|] == s.log;
    assert s.log + [] == s.log;
  }

  /** The reports of a session that is left, at its last position: its progress, unless it is saved or the
      video hardly began, and what play time is pending. */
  function LeavingReports(s: State, last: int, now: int): seq<Sent> {
    (if s.lastPosition >= 1.0 && s.lastPosition.Floor != last then [Progress(s.lastPosition.Floor, true, false, now)]
     else []) +
    (if s.pendingDelta > 0 then [Heartbeat(s.pendingDelta, s.lastPosition.Floor, true)] else [])
  }

  lemma LeavingSends(s: State, now: int)
    ensures SendLeavingWatchReports(s, now).log == s.log + LeavingReports(s, s.lastReportSeconds, now)
    ensures SendLeavingWatchReports(s, now).telemetrySent == s.telemetrySent
  {
  }

  /** On every run, before the end: a page that is hidden sends the leaving reports; one that is left, and
      the end, also send the telemetry, once, of a video that was played; and each interval sends what
      play time is pending. */
  lemma LeavingIsReported(es: seq<Event>, now: int, quality: Summary, at: real)
    requires !HasEnd(es)
    ensures var s := Run(START, es);
            var leaving := LeavingReports(s, LastProgress(s.log).0, now);
            var played := quality.ttffMs.Some? || quality.watchedMs > 0;
            var left := leaving + if played && !s.telemetrySent then [Telemetry(quality)] else [];
            && s.lastPosition == PositionAfter(es, 0.0)
            && Step(s, VisibilityChange(true, now)).log == s.log + leaving
            && Step(s, VisibilityChange(false, now)) == s
            && Step(s, PageHide(now, quality)).log == s.log + left && Step(s, End(now, quality)).log == s.log + left
            && Step(s, Interval(at)).log == s.log +
                 (if s.pendingDelta > 0 then [Heartbeat(s.pendingDelta, at.Floor, false)] else [])
  {
    var s := Run(START, es);
    RunStaysInStep(START, es);
    PositionIsTracked(START, es);
    LeavingSends(s, now);
    LeavingSends(s.(ended := true), now);
  }

  // ----- The session as a mutable object -----

  /** The fields are the variables its handlers share; sent holds the calls of the sender. */
  class Session {
    var ended: bool
    var telemetrySent: bool
    var lastReportAt: int
    var lastReportSeconds: int
    var lastSample: real
    var pendingDelta: int
    var lastPosition: real
    var sent: seq<Sent>

    ghost function Model(): State
      reads this
    {
      State(ended, telemetrySent, lastReportAt, lastReportSeconds, lastSample, pendingDelta, lastPosition, sent)
    }

    constructor ()
      ensures Model() == START
    {
      ended, telemetrySent, lastReportAt, lastReportSeconds := false, false, 0, -1;
      lastSample, pendingDelta, lastPosition, sent := 0.0, 0, 0.0, [];
    }

    method SaveProgress(at: real, leaving: bool, throttled: bool, now: int)
      modifies this`lastReportAt, this`lastReportSeconds, this`sent
      ensures Model() == ReportProgress(old(Model()), at, leaving, throttled, now)
      ensures sent == old(sent) +
                if at.Floor != old(lastReportSeconds) && (!throttled || now - old(lastReportAt) >= 10000)
                then [Progress(at.Floor, leaving, throttled, now)] else []
    {
      var seconds := at.Floor;
      if seconds == lastReportSeconds { return; }
      if throttled && now - lastReportAt < PROGRESS_THROTTLE_MS { return; }
      lastReportAt := now;
      lastReportSeconds := seconds;
      sent := sent + [Progress(seconds, leaving, throttled, now)];
    }

    method Flush(at: real, leaving: bool)
      modifies this`pendingDelta, this`sent
      ensures Model() == FlushHeartbeat(old(Model()), at, leaving)
    {
      if pendingDelta <= 0 { return; }
      var report := Heartbeat(pendingDelta, at.Floor, leaving);
      pendingDelta := 0;
      sent := sent + [report];
    }

    method SendSummary(quality: Summary)
      modifies this`telemetrySent, this`sent
      ensures Model() == SendTelemetry(old(Model()), quality)
    {
      if telemetrySent { return; }
      if quality.ttffMs.None? && quality.watchedMs <= 0 { return; }
      telemetrySent := true;
      sent := sent + [Telemetry(quality)];
    }

    method SendLeaving(now: int)
      modifies this
      ensures Model() == SendLeavingWatchReports(old(Model()), now)
    {
      if lastPosition >= 1.0 { SaveProgress(lastPosition, true, false, now); }
      Flush(lastPosition, true);
    }

    method OnTime(currentTime: real, now: int)
      requires !ended
      modifies this
      ensures Model() == Step(old(Model()), TimeUpdate(currentTime, now))
      ensures sent == old(sent) +
                if currentTime.Floor != old(lastReportSeconds) && now - old(lastReportAt) >= 10000
                then [Progress(currentTime.Floor, false, true, now)] else []
      ensures var played := currentTime.Floor - old(lastSample).Floor;
              pendingDelta == old(pendingDelta) + if played <= 0 then 0 else if played < 22 then played else 22
    {
      lastPosition := currentTime;
      SaveProgress(lastPosition, false, true, now);
      pendingDelta := pendingDelta + ClampDelta(lastSample, lastPosition);
      lastSample := lastPosition;
    }

    method OnSeeking(currentTime: real)
      requires !ended
      modifies this`lastPosition, this`lastSample
      ensures Model() == Step(old(Model()), Seeking(currentTime))
    {
      lastPosition := currentTime;
      lastSample := lastPosition;
    }

    method OnPaused(currentTime: real, now: int)
      requires !ended
      modifies this
      ensures Model() == Step(old(Model()), Pause(currentTime, now))
    {
      lastPosition := currentTime;
      if lastPosition < 1.0 { return; }
      SaveProgress(lastPosition, false, false, now);
    }

    method OnPageHide(now: int, quality: Summary)
      requires !ended
      modifies this
      ensures Model() == Step(old(Model()), PageHide(now, quality))
    {
      SendLeaving(now);
      SendSummary(quality);
    }

    method SetPosition(seconds: real)
      modifies this`lastPosition, this`lastSample
      ensures Model() == Step(old(Model()), PositionSet(seconds))
    {
      if ended { return; }
      lastPosition := seconds;
      lastSample := seconds;
    }

    method Finish(now: int, quality: Summary)
      modifies this
      ensures Model() == Step(old(Model()), End(now, quality))
    {
      if ended { return; }
      ended := true;
      SendLeaving(now);
      SendSummary(quality);
    }
  }
}
