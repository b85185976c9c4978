/** When a Video's Keyframe Index is probed, and what a failed probe means for later lookups
    (internal/service/keyframe_service.go). A step is one section under the service's lock, one
    repository access, or one probe; what probes and the repository answer is chosen freely. */
module KeyframeService {
  import opened SegmentTable
  import opened KeyframeProbe

  type Video = string
  type Table = seq<SegmentBoundary>

  /** Seconds for which a failed probe stands. */
  const PROBE_FAILURE_COOLDOWN := 600

  // ----- The state under the lock -----

  datatype Marks = Marks(inflight: set<Video>, failedAt: map<Video, int>)

  /** How building an index ended: stored, failed for a fault of the file, or failed otherwise. */
  datatype Outcome = Stored | Faulty | Excused

  predicate Recent(m: Marks, v: Video, now: int) {
    v in m.failedAt && now - m.failedAt[v] < PROBE_FAILURE_COOLDOWN
  }

  function Record(m: Marks, v: Video, o: Outcome, now: int): Marks {
    match o
    case Stored => m.(failedAt := m.failedAt - {v})
    case Faulty => m.(failedAt := m.failedAt[v := now])
    case Excused => m
  }

  // ----- One probe -----

  datatype Probe = Scanned(keyframes: seq<real>, total: real) | ProbeFailed(cancelled: bool)

  /** What a probe's answer leads to: a table to store, or the end. */
  function Judge(p: Probe): Result<Table, Outcome> {
    match p
    case Scanned(kf, total) =>
      var segs := Grouped(kf, total, DEFAULT_SEGMENT_TARGET);
      if segs == [] then Err(Faulty) else Ok(segs)
    case ProbeFailed(cancelled) => Err(if cancelled then Excused else Faulty)
  }

  /** The file is at fault: the probe failed without being cancelled, or found nothing to cut. */
  predicate Broken(p: Probe) {
    p == ProbeFailed(false) || (p.Scanned? && Grouped(p.keyframes, p.total, DEFAULT_SEGMENT_TARGET) == [])
  }

  predicate Usable(p: Probe) {
    p.Scanned? && Grouped(p.keyframes, p.total, DEFAULT_SEGMENT_TARGET) != []
  }

  /** A table GroupSegments makes for a file that has a duration. */
  ghost predicate Grouping(segs: Table) {
    exists kf, total :: total > 0.0 && segs == Grouped(kf, total, DEFAULT_SEGMENT_TARGET)
  }

  lemma JudgedTablesAreGroupings(p: Probe)
    requires Judge(p).Ok?
    ensures Judge(p).value != [] && Grouping(Judge(p).value)
  {
  }

  // ----- The protocol -----

  datatype Answer = Boundaries(segs: Table) | FailedRecently | Preparing | OtherError

  datatype Lookup = Missed(video: Video) | Clean(video: Video) | Answered(video: Video, answer: Answer)

  datatype Phase = Probing | Storing(segs: Table) | Judged(outcome: Outcome) | Recorded(outcome: Outcome)

  /** A build of one index; played by a lookup, or asked for by a job. */
  datatype Build = Build(video: Video, played: bool, phase: Phase)

  datatype State = State(
    m: Marks, index: map<Video, Table>, now: int, lookups: map<nat, Lookup>, builds: map<nat, Build>)

  ghost predicate Init(s: State) {
    && s.m == Marks({}, map[]) && s.lookups == map[] && s.builds == map[]
    && forall v :: v in s.index ==> Grouping(s.index[v]) && s.index[v] != []
  }

  datatype Step =
    | Tick(now: int)
    | Get(t: nat, video: Video, fails: bool)
    | CheckFailed(t: nat)
    | Trigger(t: nat, b: nat)
    | Ensure(b: nat, video: Video)
    | Scan(b: nat, p: Probe)
    | Store(b: nat, ok: bool)
    | RecordEnd(b: nat)
    | Clear(b: nat)

  predicate Enabled(s: State, step: Step) {
    match step
    case Tick(now) => now >= s.now
    case Get(t, _, _) => t !in s.lookups
    case CheckFailed(t) => t in s.lookups && s.lookups[t].Missed?
    case Trigger(t, b) => t in s.lookups && s.lookups[t].Clean? && b !in s.builds
    case Ensure(b, _) => b !in s.builds
    case Scan(b, _) => b in s.builds && s.builds[b].phase.Probing?
    case Store(b, _) => b in s.builds && s.builds[b].phase.Storing?
    case RecordEnd(b) => b in s.builds && s.builds[b].phase.Judged?
    case Clear(b) => b in s.builds && s.builds[b].phase.Recorded?
  }

  function Reply(s: State, t: nat, v: Video, a: Answer): State {
    s.(lookups := s.lookups[t := Answered(v, a)])
  }

  function SetPhase(s: State, b: nat, phase: Phase): State
    requires b in s.builds
  {
    s.(builds := s.builds[b := s.builds[b].(phase := phase)])
  }

  function Apply(s: State, step: Step): State
    requires Enabled(s, step)
  {
    match step
    case Tick(now) => s.(now := now)
    case Get(t, v, fails) =>
      if fails then Reply(s, t, v, OtherError)
      else if v in s.index then Reply(s, t, v, Boundaries(s.index[v]))
      else s.(lookups := s.lookups[t := Missed(v)])
    case CheckFailed(t) =>
      var v := s.lookups[t].video;
      if Recent(s.m, v, s.now) then Reply(s, t, v, FailedRecently) else s.(lookups := s.lookups[t := Clean(v)])
    case Trigger(t, b) =>
      var v := s.lookups[t].video;
      var s' := Reply(s, t, v, Preparing);
      if v in s.m.inflight then s'
      else s'.(m := s.m.(inflight := s.m.inflight + {v}), builds := s.builds[b := Build(v, true, Probing)])
    case Ensure(b, v) => s.(builds := s.builds[b := Build(v, false, Probing)])
    case Scan(b, p) =>
      match Judge(p) {
        case Ok(segs) => SetPhase(s, b, Storing(segs))
        case Err(o) => SetPhase(s, b, Judged(o))
      }
    case Store(b, ok) =>
      if ok then SetPhase(s.(index := s.index[s.builds[b].video := s.builds[b].phase.segs]), b, Judged(Stored))
      else SetPhase(s, b, Judged(Excused))
    case RecordEnd(b) =>
      var o := s.builds[b].phase.outcome;
      SetPhase(s.(m := Record(s.m, s.builds[b].video, o, s.now)), b, Recorded(o))
    case Clear(b) =>
      var build := s.builds[b];
      s.(builds := s.builds - {b},
         m := if build.played then s.m.(inflight := s.m.inflight - {build.video}) else s.m)
  }

  ghost predicate Next(s: State, s': State) {
    exists step :: Enabled(s, step) && s' == Apply(s, step)
  }

  ghost predicate IsRun(run: seq<State>) {
    && |run| > 0 && Init(run[0])
    && forall i :: 0 <= i < |run| - 1 ==> NextAt(run, i)
  }

  ghost predicate NextAt(run: seq<State>, i: nat)
    requires i + 1 < |run|
  {
    Next(run[i], run[i + 1])
  }

  // ----- The invariant -----

  /** A build's data fits its phase: a table to store is a grouping, a stored one is in the index,
      and a fault that was recorded left a mark unless an index was stored. */
  ghost predicate BuildOk(s: State, b: nat)
    requires b in s.builds
  {
    var build := s.builds[b];
    && (build.played ==> build.video in s.m.inflight)
    && (build.phase.Storing? ==> build.phase.segs != [] && Grouping(build.phase.segs))
    && (build.phase == Judged(Stored) || build.phase == Recorded(Stored) ==> build.video in s.index)
    && (build.phase == Recorded(Faulty) ==> build.video in s.m.failedAt || build.video in s.index)
  }

  ghost predicate Plays(s: State, b: nat, v: Video) {
    b in s.builds && s.builds[b].played && s.builds[b].video == v
  }

  /** A video's in-flight mark stands for one live build, played by a lookup. */
  ghost predicate MarkStandsForOne(s: State, v: Video) {
    && (v in s.m.inflight <==> exists b :: Plays(s, b, v))
    && (forall a, b :: Plays(s, a, v) && Plays(s, b, v) ==> a == b)
  }

  ghost predicate Inv(s: State) {
    && (forall b :: b in s.builds ==> BuildOk(s, b))
    && (forall v :: MarkStandsForOne(s, v))
    && (forall v :: v in s.index ==> s.index[v] != [] && Grouping(s.index[v]))
    && (forall v :: v in s.m.failedAt ==> s.m.failedAt[v] <= s.now)
  }

  /** No step loses a stored index; a mark disappears only with a recorded success, whose index
      is stored, and otherwise only gets later. */
  lemma StepKeepsRecords(s: State, step: Step, v: Video)
    requires Enabled(s, step) && (step.RecordEnd? ==> BuildOk(s, step.b))
    requires v in s.m.failedAt ==> s.m.failedAt[v] <= s.now
    ensures var s' := Apply(s, step);
            && (v in s.index ==> v in s'.index)
            && (v in s.m.failedAt ==> v in s'.index || v in s'.m.failedAt)
            && (v in s.m.failedAt && v !in s'.m.failedAt ==> v in s.index)
            && (v in s.m.failedAt && v in s'.m.failedAt ==> s.m.failedAt[v] <= s'.m.failedAt[v])
            && (v in s'.m.failedAt ==> s'.m.failedAt[v] <= s'.now)
  {
  }

  /** Only two steps touch the in-flight marks: one sets a mark, the other clears that of its build. */
  lemma OtherMarksStay(s: State, step: Step, v: Video)
    requires Enabled(s, step)
    requires step.Clear? ==> s.builds[step.b].video != v || !s.builds[step.b].played
    ensures v in s.m.inflight ==> v in Apply(s, step).m.inflight
  {
  }

  lemma StepKeepsBuild(s: State, step: Step, b: nat)
    requires Inv(s) && Enabled(s, step) && b in s.builds && b in Apply(s, step).builds
    ensures BuildOk(Apply(s, step), b)
  {
    assert BuildOk(s, b);
    var v := s.builds[b].video;
    assert MarkStandsForOne(s, v);
    if step.Clear? && s.builds[b].played {
      assert Plays(s, b, v);
      assert !Plays(s, step.b, v);
    }
    if step.RecordEnd? { assert BuildOk(s, step.b); }
    var s' := Apply(s, step);
    assert v == s'.builds[b].video && s'.builds[b].played == s.builds[b].played by { StepKeepsNames(s, step, b); }
    assert v in s.index ==> v in s'.index by { StepKeepsRecords(s, step, v); }
    assert v in s.m.failedAt ==> v in s'.index || v in s'.m.failedAt by { StepKeepsRecords(s, step, v); }
    if s.builds[b].played { OtherMarksStay(s, step, v); }
    StepMovesPhase(s, step, b);
  }

  lemma StepKeepsNames(s: State, step: Step, b: nat)
    requires Enabled(s, step) && b in s.builds && b in Apply(s, step).builds
    ensures var (build, build') := (s.builds[b], Apply(s, step).builds[b]);
            build'.video == build.video && build'.played == build.played
  {
  }

  /** How one step moves the phase of a build that is there before and after it. */
  lemma StepMovesPhase(s: State, step: Step, b: nat)
    requires Enabled(s, step) && b in s.builds && b in Apply(s, step).builds
    ensures var (v, before, later) := (s.builds[b].video, s.builds[b].phase, Apply(s, step).builds[b].phase);
            || later == before
            || (later.Storing? && later.segs != [] && Grouping(later.segs))
            || (later.Judged? && (later.outcome == Stored ==> v in Apply(s, step).index))
            || (before.Judged? && later == Recorded(before.outcome) &&
                (later.outcome == Faulty ==> v in Apply(s, step).m.failedAt))
  {
    if step.Scan? && Judge(step.p).Ok? { JudgedTablesAreGroupings(step.p); }
  }

  lemma NewBuildsAreOk(s: State, step: Step, b: nat)
    requires Enabled(s, step) && b !in s.builds && b in Apply(s, step).builds
    ensures BuildOk(Apply(s, step), b)
  {
  }

  /** Which builds were played by a lookup for a video, after a step. */
  lemma StepMovesPlays(s: State, step: Step, v: Video, a: nat)
    requires Enabled(s, step)
    ensures Plays(Apply(s, step), a, v) <==>
            || (Plays(s, a, v) && !(step.Clear? && step.b == a))
            || (Starts(s, step, v) && a == step.b)
  {
  }

  /** The step starts a probe of v on behalf of a lookup. */
  predicate Starts(s: State, step: Step, v: Video)
    requires Enabled(s, step)
  {
    step.Trigger? && s.lookups[step.t].video == v && v !in s.m.inflight
  }

  lemma StepMovesMark(s: State, step: Step, v: Video)
    requires Enabled(s, step)
    ensures v in Apply(s, step).m.inflight <==>
            || (v in s.m.inflight && !(step.Clear? && Plays(s, step.b, v)))
            || Starts(s, step, v)
  {
  }

  lemma StepKeepsMark(s: State, step: Step, v: Video)
    requires MarkStandsForOne(s, v) && Enabled(s, step)
    ensures MarkStandsForOne(Apply(s, step), v)
  {
    var s' := Apply(s, step);
    forall a: nat
      ensures Plays(s', a, v) <==>
              (Plays(s, a, v) && !(step.Clear? && step.b == a)) || (Starts(s, step, v) && a == step.b)
    {
      StepMovesPlays(s, step, v, a);
    }
    StepMovesMark(s, step, v);
    if Starts(s, step, v) {
      assert Plays(s', step.b, v);
    } else if v in s'.m.inflight {
      var a :| Plays(s, a, v);
      assert Plays(s', a, v);
    }
  }

  lemma StepKeepsIndex(s: State, step: Step, v: Video)
    requires Enabled(s, step) && (step.Store? ==> BuildOk(s, step.b))
    requires v in s.index ==> s.index[v] != [] && Grouping(s.index[v])
    ensures var index := Apply(s, step).index; v in index ==> index[v] != [] && Grouping(index[v])
  {
  }

  lemma StepKeepsInv(s: State, step: Step)
    requires Inv(s) && Enabled(s, step)
    ensures Inv(Apply(s, step))
  {
    var s' := Apply(s, step);
    forall b | b in s'.builds ensures BuildOk(s', b) {
      if b in s.builds { StepKeepsBuild(s, step, b); } else { NewBuildsAreOk(s, step, b); }
    }
    forall v: Video ensures MarkStandsForOne(s', v) {
      StepKeepsMark(s, step, v);
    }
    forall v | v in s'.index ensures s'.index[v] != [] && Grouping(s'.index[v]) {
      StepKeepsIndex(s, step, v);
    }
    forall v | v in s'.m.failedAt ensures s'.m.failedAt[v] <= s'.now {
      StepKeepsRecords(s, step, v);
    }
  }

  lemma StepOf(run: seq<State>, i: nat) returns (step: Step)
    requires IsRun(run) && i + 1 < |run|
    ensures Enabled(run[i], step) && run[i + 1] == Apply(run[i], step)
  {
    assert NextAt(run, i);
    step :| Enabled(run[i], step) && run[i + 1] == Apply(run[i], step);
  }

  lemma {:induction false} RunKeepsInv(run: seq<State>, i: nat)
    requires IsRun(run) && i < |run|
    ensures Inv(run[i])
  {
    if i > 0 {
      RunKeepsInv(run, i - 1);
      var step := StepOf(run, i - 1);
      StepKeepsInv(run[i - 1], step);
    }
  }

  // ----- What every run keeps -----

  /** At most one probe of a video that a lookup started runs at a time, and exactly while the
      video is marked; every stored index is a non-empty grouping of a probed file. */
  lemma OnePlayedProbePerVideo(run: seq<State>, i: nat, v: Video)
    requires IsRun(run) && i < |run|
    ensures v in run[i].m.inflight <==> exists b :: Plays(run[i], b, v)
    ensures forall a, b :: Plays(run[i], a, v) && Plays(run[i], b, v) ==> a == b
    ensures v in run[i].index ==> run[i].index[v] != [] && Grouping(run[i].index[v])
  {
    RunKeepsInv(run, i);
    assert MarkStandsForOne(run[i], v);
  }

  /** A failure mark is erased only once an index is stored; and when a build that found the file
      at fault clears its in-flight mark, its failure is on record, unless an index was stored. */
  lemma FaultsAreRememberedUntilIndexed(run: seq<State>, i: nat, v: Video)
    requires IsRun(run) && i + 1 < |run|
    ensures v in run[i].m.failedAt && v !in run[i + 1].m.failedAt ==> v in run[i].index
    ensures forall b :: b in run[i].builds && b !in run[i + 1].builds && run[i].builds[b].video == v ==>
              run[i].builds[b].phase.Recorded? &&
              (run[i].builds[b].phase.outcome == Faulty ==> v in run[i + 1].m.failedAt || v in run[i + 1].index)
  {
    RunKeepsInv(run, i);
    var step := StepOf(run, i);
    StepKeepsRecords(run[i], step, v);
    forall b | b in run[i].builds && b !in run[i + 1].builds ensures BuildOk(run[i], b) && step == Clear(b) {
      OnlyClearEnds(run[i], step, b);
    }
  }

  lemma OnlyClearEnds(s: State, step: Step, b: nat)
    requires Enabled(s, step) && b in s.builds && b !in Apply(s, step).builds
    ensures step == Clear(b)
  {
  }

  lemma RunKeepsRecords(run: seq<State>, i: nat, v: Video)
    requires IsRun(run) && i + 1 < |run|
    ensures v in run[i].index ==> v in run[i + 1].index
    ensures v in run[i].m.failedAt && v !in run[i + 1].index ==>
              v in run[i + 1].m.failedAt && run[i].m.failedAt[v] <= run[i + 1].m.failedAt[v]
  {
    var step := StepOf(run, i);
    RunKeepsInv(run, i);
    StepKeepsRecords(run[i], step, v);
  }

  /** From a recorded fault on, as long as no index is stored, the mark stays and only gets later. */
  lemma {:induction false} MarkStays(run: seq<State>, i: nat, j: nat, v: Video)
    requires IsRun(run) && i <= j < |run|
    requires v in run[i].m.failedAt && v !in run[j].index
    ensures v !in run[i].index
    ensures v in run[j].m.failedAt && run[i].m.failedAt[v] <= run[j].m.failedAt[v]
  {
    if i < j {
      RunKeepsRecords(run, j - 1, v);
      MarkStays(run, i, j - 1, v);
    }
  }

  /** A lookup that checks for a failure after a fault was recorded, within the cooldown and before
      any index is stored, answers that it failed and starts no probe. */
  lemma FailureStandsForTheCooldown(run: seq<State>, i: nat, j: nat, t: nat, v: Video)
    requires IsRun(run) && i <= j < |run|
    requires v in run[i].m.failedAt && v !in run[j].index
    requires run[j].now - run[i].m.failedAt[v] < PROBE_FAILURE_COOLDOWN
    requires t in run[j].lookups && run[j].lookups[t] == Missed(v)
    ensures var s' := Apply(run[j], CheckFailed(t));
            s'.lookups[t] == Answered(v, FailedRecently) && s'.builds == run[j].builds && s'.m == run[j].m
  {
    MarkStays(run, i, j, v);
  }

  // ----- What a lookup is answered -----

  /** A lookup gets the stored table, or the repository's error; without an index it fails if a failure is
      recent, and else is told to wait, having started a probe unless one is running. */
  lemma LookupsDecide(s: State, t: nat, v: Video, fails: bool, b: nat)
    ensures Enabled(s, Get(t, v, fails)) ==>
              Apply(s, Get(t, v, fails)).lookups[t] ==
              if fails then Answered(v, OtherError)
              else if v in s.index then Answered(v, Boundaries(s.index[v])) else Missed(v)
    ensures Enabled(s, CheckFailed(t)) ==>
              var v := s.lookups[t].video;
              Apply(s, CheckFailed(t)).lookups[t] ==
              if v in s.m.failedAt && s.now - s.m.failedAt[v] < 600 then Answered(v, FailedRecently) else Clean(v)
    ensures Enabled(s, Trigger(t, b)) ==>
              var (v, s') := (s.lookups[t].video, Apply(s, Trigger(t, b)));
              && s'.lookups[t] == Answered(v, Preparing) && s'.m.inflight == s.m.inflight + {v}
              && s'.builds == if v in s.m.inflight then s.builds else s.builds[b := Build(v, true, Probing)]
  {
  }

  /** Time passes, and neither a lookup nor a build is ever stuck. */
  lemma NoneIsStuck(s: State, t: nat, b: nat, v: Video, p: Probe, flag: bool)
    ensures Enabled(s, Tick(s.now + 1)) && Apply(s, Tick(s.now + 1)) == s.(now := s.now + 1)
    ensures if t !in s.lookups then Enabled(s, Get(t, v, flag))
            else
              match s.lookups[t]
              case Missed(_) => Enabled(s, CheckFailed(t))
              case Clean(_) => b !in s.builds ==> Enabled(s, Trigger(t, b))
              case Answered(_, _) => true
    ensures b !in s.builds ==>
              && Enabled(s, Ensure(b, v))
              && Apply(s, Ensure(b, v)) == s.(builds := s.builds[b := Build(v, false, Probing)])
    ensures b in s.builds ==>
              match s.builds[b].phase
              case Probing => Enabled(s, Scan(b, p))
              case Storing(_) => Enabled(s, Store(b, flag))
              case Judged(_) => Enabled(s, RecordEnd(b))
              case Recorded(_) => Enabled(s, Clear(b)) && b !in Apply(s, Clear(b)).builds
  {
  }

  // ----- What a probe's answer leads to -----

  /** A scan ends the build as the file's fault, as nobody's, or with the table to store. */
  lemma ScanDecides(s: State, b: nat, p: Probe)
    requires Enabled(s, Scan(b, p))
    ensures var phase := Apply(s, Scan(b, p)).builds[b].phase;
            && (Broken(p) ==> phase == Judged(Faulty))
            && (p == ProbeFailed(true) ==> phase == Judged(Excused))
            && (Usable(p) ==> phase == Storing(Grouped(p.keyframes, p.total, DEFAULT_SEGMENT_TARGET)))
    ensures Apply(s, Scan(b, p)).m == s.m && Apply(s, Scan(b, p)).index == s.index
  {
  }

  /** A stored table is in the index and forgets the failure; a refused one leaves no mark. */
  lemma StoreDecides(s: State, b: nat, ok: bool)
    requires Enabled(s, Store(b, ok))
    ensures var (v, s') := (s.builds[b].video, Apply(s, Store(b, ok)));
            && s'.m == s.m && s'.builds[b].phase == Judged(if ok then Stored else Excused)
            && s'.index == if ok then s.index[v := s.builds[b].phase.segs] else s.index
  {
  }

  /** A step changes the failure mark of v only by recording how a build of v ended. */
  lemma MarksAreRecorded(s: State, step: Step, v: Video)
    requires Enabled(s, step)
    ensures var (m, m') := (s.m.failedAt, Apply(s, step).m.failedAt);
            if step.RecordEnd? && s.builds[step.b].video == v then
              match s.builds[step.b].phase.outcome
              case Stored => v !in m'
              case Faulty => v in m' && m'[v] == s.now
              case Excused => (v in m <==> v in m') && (v in m ==> m'[v] == m[v])
            else
              (v in m <==> v in m') && (v in m ==> m'[v] == m[v])
    ensures step.RecordEnd? ==> Apply(s, step).builds[step.b].phase == Recorded(s.builds[step.b].phase.outcome)
  {
  }

  /** Build b of v ended as o and has yet to be recorded. */
  predicate Awaits(s: State, b: nat, v: Video, o: Outcome) {
    b in s.builds && s.builds[b].video == v && s.builds[b].phase == Judged(o)
  }

  /** In every run, a build of a file at fault is recorded as such: from the step that scans it, the build
      stays as it is until it is recorded, and then the failure is marked with the time. */
  lemma FaultIsRecorded(run: seq<State>, i: nat, j: nat, b: nat, p: Probe)
    requires IsRun(run) && i < j < |run| - 1
    requires Enabled(run[i], Scan(b, p)) && run[i + 1] == Apply(run[i], Scan(b, p)) && Broken(p)
    requires JudgedFrom(run, i + 1, j, b)
    requires b in run[j + 1].builds && !run[j + 1].builds[b].phase.Judged?
    ensures var v := run[i].builds[b].video;
            v in run[j + 1].m.failedAt && run[j + 1].m.failedAt[v] == run[j].now && run[j + 1].now == run[j].now
  {
    var v := run[i].builds[b].video;
    ScanDecides(run[i], b, p);
    StaysJudged(run, i + 1, j, b, v);
    var step := StepOf(run, j);
    assert step == RecordEnd(b) by { OnlyRecordEnds(run[j], step, b); }
    MarksAreRecorded(run[j], step, v);
  }

  lemma OnlyRecordEnds(s: State, step: Step, b: nat)
    requires Enabled(s, step) && b in s.builds && s.builds[b].phase.Judged? && b in Apply(s, step).builds
    ensures Apply(s, step).builds[b] == s.builds[b] || step == RecordEnd(b)
    ensures step == RecordEnd(b) ==> Apply(s, step).builds[b].phase == Recorded(s.builds[b].phase.outcome)
    ensures step == RecordEnd(b) ==> Apply(s, step).now == s.now
  {
  }

  /** From the i-th state to the j-th, build b has ended and has yet to be recorded. */
  ghost predicate JudgedFrom(run: seq<State>, i: nat, j: nat, b: nat)
    requires j < |run|
  {
    forall k :: i <= k <= j ==> JudgedAt(run, k, b)
  }

  predicate JudgedAt(run: seq<State>, k: nat, b: nat)
    requires k < |run|
  {
    b in run[k].builds && run[k].builds[b].phase.Judged?
  }

  lemma {:induction false} StaysJudged(run: seq<State>, i: nat, j: nat, b: nat, v: Video)
    requires IsRun(run) && i <= j < |run| && Awaits(run[i], b, v, Faulty) && JudgedFrom(run, i, j, b)
    ensures Awaits(run[j], b, v, Faulty)
  {
    if i < j {
      StaysJudged(run, i, j - 1, b, v);
      assert JudgedAt(run, j, b);
      StillAwaits(run, j - 1, b, v);
    }
  }

  lemma StillAwaits(run: seq<State>, i: nat, b: nat, v: Video)
    requires IsRun(run) && i + 1 < |run| && Awaits(run[i], b, v, Faulty)
    requires b in run[i + 1].builds && run[i + 1].builds[b].phase.Judged?
    ensures Awaits(run[i + 1], b, v, Faulty)
  {
    var step := StepOf(run, i);
    OnlyRecordEnds(run[i], step, b);
  }

  /** In every run, a file found to be at fault fails the lookups of the cooldown: once the build that
      scanned it is recorded, and as long as no index is stored. */
  lemma BrokenFilesFailLookups(run: seq<State>, i: nat, j: nat, l: nat, b: nat, p: Probe, t: nat)
    requires IsRun(run) && i < j < l < |run|
    requires Enabled(run[i], Scan(b, p)) && run[i + 1] == Apply(run[i], Scan(b, p)) && Broken(p)
    requires JudgedFrom(run, i + 1, j, b)
    requires b in run[j + 1].builds && !run[j + 1].builds[b].phase.Judged?
    requires run[i].builds[b].video !in run[l].index && run[l].now - run[j].now < 600
    requires t in run[l].lookups && run[l].lookups[t] == Missed(run[i].builds[b].video)
    ensures var s' := Apply(run[l], CheckFailed(t));
            && s'.lookups[t] == Answered(run[i].builds[b].video, FailedRecently)
            && s'.builds == run[l].builds && s'.m == run[l].m
  {
    FaultIsRecorded(run, i, j, b, p);
    FailureStandsForTheCooldown(run, j + 1, l, t, run[i].builds[b].video);
  }

  /** Build b of v was found at fault by the k-th step. */
  ghost predicate FoundBroken(run: seq<State>, k: nat, b: nat, v: Video, p: Probe) {
    && k + 1 < |run| && Enabled(run[k], Scan(b, p)) && run[k + 1] == Apply(run[k], Scan(b, p))
    && run[k].builds[b].video == v && Broken(p)
  }

  lemma ToFaulty(s: State, step: Step, b: nat, v: Video)
    requires Enabled(s, step) && Awaits(Apply(s, step), b, v, Faulty)
    ensures Awaits(s, b, v, Faulty) || (step.Scan? && step.b == b && Broken(step.p) && s.builds[b].video == v)
  {
  }

  lemma {:induction false} FaultyWereBroken(run: seq<State>, i: nat, b: nat, v: Video) returns (k: nat, p: Probe)
    requires IsRun(run) && i < |run| && Awaits(run[i], b, v, Faulty)
    ensures k < i && FoundBroken(run, k, b, v, p)
  {
    assert i > 0;
    var step := StepOf(run, i - 1);
    ToFaulty(run[i - 1], step, b, v);
    if Awaits(run[i - 1], b, v, Faulty) {
      k, p := FaultyWereBroken(run, i - 1, b, v);
    } else {
      k, p := i - 1, step.p;
    }
  }

  /** In every run, a failure mark comes of a probe of that video that found the file at fault: never of
      one that was cancelled, and never of a table that could not be stored. */
  lemma {:induction false} MarksAreEarned(run: seq<State>, i: nat, v: Video) returns (k: nat, b: nat, p: Probe)
    requires IsRun(run) && i < |run| && v in run[i].m.failedAt
    ensures k < i && FoundBroken(run, k, b, v, p)
  {
    assert i > 0;
    var step := StepOf(run, i - 1);
    MarksAreRecorded(run[i - 1], step, v);
    if step.RecordEnd? && Awaits(run[i - 1], step.b, v, Faulty) {
      b := step.b;
      k, p := FaultyWereBroken(run, i - 1, b, v);
    } else {
      k, b, p := MarksAreEarned(run, i - 1, v);
    }
  }

  /** No probe of v that a lookup started is running. */
  ghost predicate Unplayed(s: State, v: Video) {
    forall b :: !Plays(s, b, v)
  }

  /** Lookup t of v was clean: no index at the k-th state, and no recent failure at the later j-th. */
  ghost predicate FoundClean(run: seq<State>, t: nat, v: Video, k: nat, j: nat)
    requires k < |run| && j < |run|
  {
    && v !in run[k].index
    && t in run[j].lookups && run[j].lookups[t] == Missed(v) && !Recent(run[j].m, v, run[j].now)
  }

  lemma StepToMissed(s: State, step: Step, t: nat, v: Video)
    requires Enabled(s, step) && t in Apply(s, step).lookups && Apply(s, step).lookups[t] == Missed(v)
    ensures (t in s.lookups && s.lookups[t] == Missed(v)) || v !in s.index
  {
  }

  lemma StepToClean(s: State, step: Step, t: nat, v: Video)
    requires Enabled(s, step) && t in Apply(s, step).lookups && Apply(s, step).lookups[t] == Clean(v)
    ensures t in s.lookups && (s.lookups[t] == Clean(v) || (s.lookups[t] == Missed(v) && !Recent(s.m, v, s.now)))
  {
  }

  lemma BeforeMissed(run: seq<State>, i: nat, t: nat, v: Video)
    requires IsRun(run) && i < |run| && t in run[i].lookups && run[i].lookups[t] == Missed(v)
    ensures i > 0 && ((t in run[i - 1].lookups && run[i - 1].lookups[t] == Missed(v)) || v !in run[i - 1].index)
  {
    var step := StepOf(run, i - 1);
    StepToMissed(run[i - 1], step, t, v);
  }

  lemma BeforeClean(run: seq<State>, i: nat, t: nat, v: Video)
    requires IsRun(run) && i < |run| && t in run[i].lookups && run[i].lookups[t] == Clean(v)
    ensures i > 0 && t in run[i - 1].lookups
    ensures var s := run[i - 1]; s.lookups[t] == Clean(v) || (s.lookups[t] == Missed(v) && !Recent(s.m, v, s.now))
  {
    var step := StepOf(run, i - 1);
    StepToClean(run[i - 1], step, t, v);
  }

  lemma {:induction false} MissedHadNoIndex(run: seq<State>, i: nat, t: nat, v: Video) returns (k: nat)
    requires IsRun(run) && i < |run| && t in run[i].lookups && run[i].lookups[t] == Missed(v)
    ensures k < i && v !in run[k].index
  {
    BeforeMissed(run, i, t, v);
    k := i - 1;
    if v in run[k].index { k := MissedHadNoIndex(run, k, t, v); }
  }

  lemma {:induction false} CleanWasChecked(run: seq<State>, i: nat, t: nat, v: Video) returns (k: nat, j: nat)
    requires IsRun(run) && i < |run| && t in run[i].lookups && run[i].lookups[t] == Clean(v)
    ensures k < j < i && FoundClean(run, t, v, k, j)
  {
    BeforeClean(run, i, t, v);
    j := i - 1;
    if run[j].lookups[t] == Clean(v) {
      k, j := CleanWasChecked(run, j, t, v);
    } else {
      k := MissedHadNoIndex(run, j, t, v);
    }
  }

  /** A new probe on a lookup's behalf comes of triggering it. */
  lemma OnlyTriggerPlays(s: State, step: Step, b: nat)
    requires Enabled(s, step) && b !in s.builds && b in Apply(s, step).builds && Apply(s, step).builds[b].played
    ensures step.Trigger? && var v := Apply(s, step).builds[b].video;
            && s.lookups[step.t] == Clean(v) && v !in s.m.inflight
            && Apply(s, step).lookups[step.t] == Answered(v, Preparing)
  {
  }

  /** A lookup starts a probe only of a video that has none running, and only after it found the video
      without an index and then without a failure in the cooldown. */
  lemma ProbesStartOnlyWhenNeeded(run: seq<State>, i: nat, b: nat) returns (t: nat, k: nat, j: nat)
    requires IsRun(run) && i + 1 < |run|
    requires b !in run[i].builds && b in run[i + 1].builds && run[i + 1].builds[b].played
    ensures Unplayed(run[i], run[i + 1].builds[b].video)
    ensures var v := run[i + 1].builds[b].video;
            && k < j < i && v !in run[k].index
            && t in run[j].lookups && run[j].lookups[t] == Missed(v)
            && !(v in run[j].m.failedAt && run[j].now - run[j].m.failedAt[v] < PROBE_FAILURE_COOLDOWN)
            && t in run[i + 1].lookups && run[i + 1].lookups[t] == Answered(v, Preparing)
  {
    RunKeepsInv(run, i);
    var step := StepOf(run, i);
    var v := run[i + 1].builds[b].video;
    OnlyTriggerPlays(run[i], step, b);
    assert MarkStandsForOne(run[i], v);
    t := step.t;
    k, j := CleanWasChecked(run, i, t, v);
  }

  ghost predicate IsAnswered(s: State, t: nat) {
    t in s.lookups && s.lookups[t].Answered?
  }

  /** In every run an answer is true when it is given: the boundaries are the stored, non-empty table;
      a recent failure is on record; and for "preparing" a probe of the video is running. */
  lemma AnswersAreTrue(run: seq<State>, i: nat, t: nat)
    requires IsRun(run) && i + 1 < |run| && !IsAnswered(run[i], t) && IsAnswered(run[i + 1], t)
    ensures var (s, s') := (run[i], run[i + 1]);
            var Answered(v, answer) := s'.lookups[t];
            match answer
            case Boundaries(segs) => v in s.index && segs == s.index[v] && segs != [] && Grouping(segs)
            case FailedRecently => v in s.m.failedAt && s.now - s.m.failedAt[v] < PROBE_FAILURE_COOLDOWN
            case Preparing => exists b :: Plays(s', b, v)
            case OtherError => true
  {
    RunKeepsInv(run, i);
    RunKeepsInv(run, i + 1);
    var step := StepOf(run, i);
    AnsweringStep(run[i], step, t);
    assert MarkStandsForOne(run[i + 1], run[i + 1].lookups[t].video);
  }

  lemma AnsweringStep(s: State, step: Step, t: nat)
    requires Enabled(s, step) && !IsAnswered(s, t) && IsAnswered(Apply(s, step), t)
    ensures var s' := Apply(s, step);
            var Answered(v, answer) := s'.lookups[t];
            match answer
            case Boundaries(segs) => v in s.index && segs == s.index[v]
            case FailedRecently => Recent(s.m, v, s.now)
            case Preparing => v in s'.m.inflight
            case OtherError => true
  {
  }

  // ----- The service as a mutable object -----

  class Service {
    var inflight: set<Video>
    var failedAt: map<Video, int>

    ghost function Model(): Marks
      reads this
    {
      Marks(inflight, failedAt)
    }

    constructor ()
      ensures Model() == Marks({}, map[])
    {
      inflight, failedAt := {}, map[];
    }

    /** index is what the repository answered: an error, no index, or one. */
    method LookupOrProbe(videoID: Video, index: Result<Option<Table>, ()>, now: int) returns (a: Answer, starts: bool)
      modifies this`inflight
      ensures failedAt == old(failedAt)
      ensures a == (match index
                    case Err(_) => OtherError
                    case Ok(Some(segs)) => Boundaries(segs)
                    case Ok(None) => if Recent(old(Model()), videoID, now) then FailedRecently else Preparing)
      ensures starts <==> a == Preparing && videoID !in old(inflight)
      ensures inflight == old(inflight) + if starts then {videoID} else {}
    {
      starts := false;
      match index {
        case Err(_) => a := OtherError;
        case Ok(Some(segs)) => a := Boundaries(segs);
        case Ok(None) =>
          var failed := CheckFailedRecently(videoID, now);
          if failed {
            a := FailedRecently;
          } else {
            starts := TriggerProbe(videoID);
            a := Preparing;
          }
      }
    }

    method CheckFailedRecently(videoID: Video, now: int) returns (recent: bool)
      ensures recent == Recent(Model(), videoID, now)
    {
      recent := videoID in failedAt && now - failedAt[videoID] < PROBE_FAILURE_COOLDOWN;
    }

    /** starts tells whether a goroutine with a new probe was started. */
    method TriggerProbe(videoID: Video) returns (starts: bool)
      modifies this`inflight
      ensures starts <==> videoID !in old(inflight)
      ensures inflight == old(inflight) + {videoID}
    {
      starts := videoID !in inflight;
      inflight := inflight + {videoID};
    }

    /** indexFile: build the index and record the outcome. stores is whether the repository takes
        the table. */
    method IndexFile(videoID: Video, p: Probe, stores: bool, now: int) returns (o: Outcome, table: Option<Table>)
      modifies this`failedAt
      ensures Broken(p) ==> o == Faulty && failedAt == old(failedAt)[videoID := now]
      ensures p == ProbeFailed(true) ==> o == Excused && failedAt == old(failedAt)
      ensures Usable(p) && !stores ==> o == Excused && failedAt == old(failedAt)
      ensures Usable(p) && stores ==>
                && o == Stored && failedAt == old(failedAt) - {videoID}
                && table == Some(Grouped(p.keyframes, p.total, DEFAULT_SEGMENT_TARGET))
      ensures Model() == Record(old(Model()), videoID, o, now)
    {
      o, table := BuildIndex(p, stores);
      match o {
        case Stored => failedAt := failedAt - {videoID};
        case Faulty => failedAt := failedAt[videoID := now];
        case Excused =>
      }
    }

    method BuildIndex(p: Probe, stores: bool) returns (o: Outcome, table: Option<Table>)
      ensures Broken(p) ==> o == Faulty
      ensures p == ProbeFailed(true) || (Usable(p) && !stores) ==> o == Excused
      ensures Usable(p) && stores ==>
                o == Stored && table == Some(Grouped(p.keyframes, p.total, DEFAULT_SEGMENT_TARGET))
    {
      table := None;
      match p {
        case ProbeFailed(cancelled) => o := if cancelled then Excused else Faulty;
        case Scanned(kf, total) =>
          var segs := GroupSegments(kf, total, DEFAULT_SEGMENT_TARGET);
          if |segs| == 0 {
            o := Faulty;
          } else if stores {
            o, table := Stored, Some(segs);
          } else {
            o := Excused;
          }
      }
    }
  }
}
