/** Every interleaving of starts, cancels and the jobs' own goroutines on one lane shared by
    several services (internal/service/job_runner.go, import_service.go, backfill_runner.go). A
    step is one section under the runner's lock, or one report. */
module JobLane {
  import opened SegmentTable
  import opened Jobs

  /** Where a job's goroutine stands. */
  datatype Pc =
    | Listing
    | ListFailed(error: string)
    | AtItem
    | Passed
    | Starting
    | InItem
    | Ran
    | Ending
    | Closing(final: Job)

  /** items and done grow as the job goes; end is set when the loop is left. */
  datatype Worker = Worker(h: Header, pc: Pc, listing: Listing, done: seq<Outcome>, cancelled: bool)

  /** A service's cancel that passed its own check on the latest job. */
  datatype Check = Check(kind: string, id: JobId)

  /** A close of a cancel channel: the service kind that asked, the job, and how many of its items
      had started. */
  datatype Close = Close(kind: string, id: JobId, started: nat)

  /** jobs holds every job ever started, channels whose cancel channel is closed; latest, busy are
      the runner's fields. past, reported and closes are history. */
  datatype State = State(
    jobs: map<JobId, Job>,
    latest: Option<JobId>,
    busy: bool,
    closed: set<JobId>,
    workers: map<JobId, Worker>,
    checks: set<Check>,
    past: seq<Record>,
    reported: seq<Report>,
    closes: seq<Close>)

  ghost predicate Init(s: State) {
    s == State(map[], None, false, {}, map[], {}, [], [], [])
  }

  datatype Step =
    | Start(id: JobId, kind: string, meta: string, now: int)
    | PassCheck(kind: string, id: JobId)
    | Cancel(kind: string, id: JobId)
    | List(id: JobId, listing: Listing)
    | ReportFailed(id: JobId)
    | Look(id: JobId)
    | Begin(id: JobId)
    | ReportStarted(id: JobId)
    | Run(id: JobId, outcome: Outcome)
    | ReportDone(id: JobId)
    | ReportEnd(id: JobId, now: int)
    | Free(id: JobId)

  function Items(w: Worker): seq<Item> {
    if w.listing.Ok? then w.listing.value else []
  }

  /** How many items the job has started: reported as started. */
  function Started(w: Worker): nat {
    |w.done| + if w.pc.InItem? then 1 else 0
  }

  predicate WorkerAt(s: State, id: JobId) {
    id in s.workers && id in s.jobs
  }

  ghost predicate Enabled(s: State, step: Step) {
    match step
    case Start(id, _, _, _) => s.busy || id !in s.jobs
    case PassCheck(kind, id) => s.latest == Some(id) && id in s.jobs && s.jobs[id].kind == kind
    case Cancel(kind, id) => Check(kind, id) in s.checks
    case List(id, _) => WorkerAt(s, id) && s.workers[id].pc == Listing
    case ReportFailed(id) => WorkerAt(s, id) && s.workers[id].pc.ListFailed?
    case Look(id) => WorkerAt(s, id) && s.workers[id].pc == AtItem
    case Begin(id) => WorkerAt(s, id) && s.workers[id].pc == Passed && |s.workers[id].done| < |Items(s.workers[id])|
    case ReportStarted(id) =>
      WorkerAt(s, id) && s.workers[id].pc == Starting && |s.workers[id].done| < |Items(s.workers[id])|
    case Run(id, _) =>
      WorkerAt(s, id) && s.workers[id].pc == InItem && |s.workers[id].done| < |Items(s.workers[id])|
    case ReportDone(id) =>
      WorkerAt(s, id) && s.workers[id].pc == Ran && 0 < |s.workers[id].done| <= |Items(s.workers[id])|
    case ReportEnd(id, _) => WorkerAt(s, id) && s.workers[id].pc == Ending
    case Free(id) => WorkerAt(s, id) && s.workers[id].pc.Closing?
  }

  function SetWorker(s: State, id: JobId, w: Worker): State {
    s.(workers := s.workers[id := w])
  }

  function SetJob(s: State, id: JobId, job: Job): State {
    s.(jobs := s.jobs[id := job])
  }

  function Tell(s: State, r: Report): State {
    s.(reported := s.reported + [r])
  }

  /** Counting an item's outcome into the job. */
  function CountIn(job: Job, it: Item, n: nat, o: Outcome): Job {
    var j := job.(processed := n);
    match o
    case Success => j.(succeeded := j.succeeded + 1)
    case Skip => j.(skipped := j.skipped + 1)
    case Failure(e) => j.(failed := j.failed + 1, errors := j.errors + [ItemError(it.id, it.name, e)])
  }

  function EndStatus(w: Worker): Status {
    if w.listing.Err? then Failed else if w.cancelled then Cancelled else Completed
  }

  ghost function Apply(s: State, step: Step): State
    requires Enabled(s, step)
  {
    match step
    case Start(id, kind, meta, now) =>
      if s.busy then s
      else
        s.(jobs := s.jobs[id := Job(id, kind, meta, Running, 0, 0, 0, 0, 0, None, [], None, now, None)],
           latest := Some(id), busy := true,
           workers := s.workers[id := Worker(Header(id, kind, meta, now), Listing, Ok([]), [], false)])
    case PassCheck(kind, id) => s.(checks := s.checks + {Check(kind, id)})
    case Cancel(kind, id) =>
      if s.latest == Some(id) && id in s.jobs && s.jobs[id].status == Running && id !in s.closed then
        s.(closed := s.closed + {id},
           closes := s.closes + [Close(kind, id, if id in s.workers then Started(s.workers[id]) else 0)])
      else s
    case List(id, listing) =>
      var w := s.workers[id].(listing := listing);
      match listing {
        case Ok(items) => SetWorker(SetJob(s, id, s.jobs[id].(total := |items|)), id, w.(pc := AtItem))
        case Err(e) => SetWorker(SetJob(s, id, s.jobs[id].(listError := Some(e))), id, w.(pc := ListFailed(e)))
      }
    case ReportFailed(id) =>
      var w := s.workers[id];
      SetWorker(Tell(s, ListingFailed(Brief(s.jobs[id]).(status := Failed), w.pc.error)), id, w.(pc := Ending))
    case Look(id) =>
      var w := s.workers[id];
      if |w.done| >= |Items(w)| then SetWorker(s, id, w.(pc := Ending))
      else if id in s.closed then SetWorker(s, id, w.(pc := Ending, cancelled := true))
      else SetWorker(s, id, w.(pc := Passed))
    case Begin(id) =>
      var w := s.workers[id];
      SetWorker(SetJob(s, id, s.jobs[id].(current := Some(Items(w)[|w.done|]))), id, w.(pc := Starting))
    case ReportStarted(id) =>
      var w := s.workers[id];
      SetWorker(Tell(s, ItemStarted(Brief(s.jobs[id]), Items(w)[|w.done|], |w.done| + 1)), id, w.(pc := InItem))
    case Run(id, o) =>
      var w := s.workers[id];
      var n := |w.done|;
      SetWorker(SetJob(s, id, CountIn(s.jobs[id], Items(w)[n], n + 1, o)), id, w.(pc := Ran, done := w.done + [o]))
    case ReportDone(id) =>
      var w := s.workers[id];
      var n := |w.done| - 1;
      SetWorker(Tell(s, ItemDone(Brief(s.jobs[id]), Items(w)[n], n + 1, w.done[n])), id, w.(pc := AtItem))
    case ReportEnd(id, now) =>
      var w := s.workers[id];
      var final := s.jobs[id].(finishedAt := Some(now), current := None, status := EndStatus(w));
      SetWorker(Tell(s, Finished(final)), id, w.(pc := Closing(final)))
    case Free(id) =>
      var w := s.workers[id];
      var final := w.pc.final;
      s.(jobs := s.jobs[id := s.jobs[id].(finishedAt := final.finishedAt, current := None, status := final.status)],
         busy := false, workers := s.workers - {id},
         past := s.past + [RecordOf(w)])
  }

  function ItemsOf(r: Record): seq<Item> {
    if r.listing.Ok? then r.listing.value else []
  }

  /** What a job leaves behind when it frees the lane. */
  function RecordOf(w: Worker): Record {
    Record(w.h, w.listing, w.done, w.cancelled,
           if w.pc.Closing? && w.pc.final.finishedAt.Some? then w.pc.final.finishedAt.value else 0)
  }

  ghost predicate IsRun(run: seq<State>) {
    && |run| > 0 && Init(run[0])
    && forall i :: 0 <= i < |run| - 1 ==> NextAt(run, i)
  }

  ghost predicate NextAt(run: seq<State>, i: nat)
    requires i + 1 < |run|
  {
    Next(run[i], run[i + 1])
  }

  ghost predicate Next(s: State, s': State) {
    exists step :: Enabled(s, step) && s' == Apply(s, step)
  }

  // ----- The invariant -----

  /** The reports a live job has made so far. */
  function Partial(w: Worker): seq<Report>
    requires |w.done| <= |Items(w)| && (w.pc.InItem? ==> |w.done| < |Items(w)|) && (w.pc.Ran? ==> w.done != [])
  {
    match w.pc
    case Listing => []
    case ListFailed(_) => []
    case InItem => ItemTrace(w.h, Items(w), w.done) + [StartedReport(w.h, Items(w), w.done)]
    case Ran =>
      var before := w.done[..|w.done| - 1];
      ItemTrace(w.h, Items(w), before) + [StartedReport(w.h, Items(w), before)]
    case Ending => if w.listing.Err? then [FailedReport(w.h, w.listing.error)] else ItemTrace(w.h, Items(w), w.done)
    case Closing(_) => Trace(RecordOf(w))
    case _ => ItemTrace(w.h, Items(w), w.done)
  }

  /** The job a live worker has built so far. */
  function Built(w: Worker): Job
    requires |w.done| <= |Items(w)|
    requires w.pc.Starting? || w.pc.InItem? ==> |w.done| < |Items(w)|
    requires w.pc.Ran? ==> w.done != []
  {
    if w.listing.Err? then FailedListing(w.h, w.listing.error)
    else if w.pc.Starting? || w.pc.InItem? then JobAt(w.h, Items(w), w.done, Some(Items(w)[|w.done|]))
    else if w.done == [] then JobAt(w.h, Items(w), [], None)
    else JobAt(w.h, Items(w), w.done, Some(Items(w)[|w.done| - 1]))
  }

  /** A worker's data fits where it stands. */
  ghost predicate Sound(w: Worker) {
    && |w.done| <= |Items(w)|
    && (w.pc.Listing? ==> w.listing == Ok([]) && w.done == [])
    && (w.pc.ListFailed? ==> w.listing == Err(w.pc.error))
    && (w.listing.Err? ==> w.done == [] && !w.cancelled && (w.pc.ListFailed? || w.pc.Ending? || w.pc.Closing?))
    && (w.pc.Passed? || w.pc.Starting? || w.pc.InItem? ==> |w.done| < |Items(w)|)
    && (w.pc.Ran? ==> w.done != [])
    && (w.cancelled ==> w.pc.Ending? || w.pc.Closing?)
    && (w.pc.Ending? || w.pc.Closing? ==> ValidRecord(RecordOf(w)))
    && (w.pc.Closing? ==> w.pc.final == FinalJob(RecordOf(w)))
  }

  /** The whole reports of the jobs so far, one job after another. */
  function Traces(past: seq<Record>): seq<Report>
    requires forall r :: r in past && r.listing.Ok? ==> |r.done| <= |r.listing.value|
  {
    if past == [] then [] else Traces(past[..|past| - 1]) + Trace(past[|past| - 1])
  }

  ghost predicate PastIsValid(s: State) {
    forall r :: r in s.past ==> ValidRecord(r) && (r.cancelled ==> r.h.id in s.closed)
  }

  /** The live worker, if any, is that of the latest job and has built and reported what it
      should; otherwise the lane is free and the latest job is the last of the past. */
  ghost predicate LaneInv(s: State) {
    && PastIsValid(s)
    && (s.busy <==> s.latest.Some? && s.latest.value in s.jobs && s.jobs[s.latest.value].status == Running)
    && (s.latest.None? <==> s.jobs == map[])
    && (s.latest.Some? ==> s.latest.value in s.jobs)
    && if s.busy then
         && var id := s.latest.value;
            && s.workers.Keys == {id}
            && var w := s.workers[id];
               && Sound(w) && w.h.id == id && s.jobs[id] == Built(w)
               && (w.cancelled ==> id in s.closed)
               && s.reported == Traces(s.past) + Partial(w)
       else
         && s.workers == map[] && s.reported == Traces(s.past)
         && (s.past == [] <==> s.latest.None?)
         && (s.past != [] ==>
               var r := s.past[|s.past| - 1];
               s.latest == Some(r.h.id) && s.jobs[r.h.id] == FinalJob(r))
  }

  /** A worker's move: the rest of the state, but for the job and the reports, stays. */
  ghost predicate Moved(s: State, s': State) {
    s' == s.(jobs := s'.jobs, workers := s'.workers, reported := s'.reported)
  }

  lemma MoveKeepsLane(s: State, s': State, id: JobId, w': Worker)
    requires LaneInv(s) && Moved(s, s') && s.busy && s.latest == Some(id)
    requires s'.workers == s.workers[id := w'] && Sound(w') && w'.h.id == id
    requires w'.cancelled ==> id in s.closed
    requires s'.jobs == s.jobs[id := Built(w')]
    requires Partial(s.workers[id]) <= Partial(w')
    requires s'.reported == s.reported + Partial(w')[|Partial(s.workers[id])|..]
    ensures LaneInv(s')
  {
    GrownBy(Traces(s.past), Partial(s.workers[id]), Partial(w'));
  }

  lemma GrownBy<T>(before: seq<T>, part: seq<T>, whole: seq<T>)
    requires part <= whole
    ensures before + part + whole[|part|..] == before + whole
  {
  }

  /** Any live worker is the latest job's. */
  lemma WorkerIsLatest(s: State, id: JobId)
    requires LaneInv(s) && id in s.workers
    ensures s.busy && s.latest == Some(id) && Sound(s.workers[id]) && s.workers[id].h.id == id
    ensures s.jobs[id] == Built(s.workers[id])
  {
  }

  lemma ListKeepsLane(s: State, id: JobId, listing: Listing)
    requires LaneInv(s) && Enabled(s, List(id, listing))
    ensures LaneInv(Apply(s, List(id, listing)))
  {
    WorkerIsLatest(s, id);
    var s' := Apply(s, List(id, listing));
    MoveKeepsLane(s, s', id, s'.workers[id]);
  }

  lemma ReportFailedKeepsLane(s: State, id: JobId)
    requires LaneInv(s) && Enabled(s, ReportFailed(id))
    ensures LaneInv(Apply(s, ReportFailed(id)))
  {
    WorkerIsLatest(s, id);
    var w := s.workers[id];
    ReportKeepsLane(s, id, FailedReport(w.h, w.pc.error), w.(pc := Ending));
  }

  /** A worker's move that leaves its job and the reports alone. */
  lemma QuietMoveKeepsLane(s: State, id: JobId, w': Worker)
    requires LaneInv(s) && WorkerAt(s, id) && Sound(w') && w'.h == s.workers[id].h
    requires w'.cancelled ==> id in s.closed
    requires Built(w') == s.jobs[id] && Partial(w') == Partial(s.workers[id])
    ensures LaneInv(SetWorker(s, id, w'))
  {
    WorkerIsLatest(s, id);
    var s' := SetWorker(s, id, w');
    assert s'.jobs == s.jobs[id := Built(w')] && s'.reported == s.reported + [];
    MoveKeepsLane(s, s', id, w');
  }

  /** A worker's report, which leaves its job alone. */
  lemma ReportKeepsLane(s: State, id: JobId, r: Report, w': Worker)
    requires LaneInv(s) && WorkerAt(s, id) && Sound(w') && w'.h == s.workers[id].h
    requires w'.cancelled ==> id in s.closed
    requires Built(w') == s.jobs[id] && Partial(w') == Partial(s.workers[id]) + [r]
    ensures LaneInv(SetWorker(Tell(s, r), id, w'))
  {
    WorkerIsLatest(s, id);
    var s' := SetWorker(Tell(s, r), id, w');
    assert s'.jobs == s.jobs[id := Built(w')] && Partial(w')[|Partial(s.workers[id])|..] == [r];
    MoveKeepsLane(s, s', id, w');
  }

  lemma LookKeepsLane(s: State, id: JobId)
    requires LaneInv(s) && Enabled(s, Look(id))
    ensures LaneInv(Apply(s, Look(id)))
  {
    WorkerIsLatest(s, id);
    QuietMoveKeepsLane(s, id, Apply(s, Look(id)).workers[id]);
  }

  lemma BeginKeepsLane(s: State, id: JobId)
    requires LaneInv(s) && Enabled(s, Begin(id))
    ensures LaneInv(Apply(s, Begin(id)))
  {
    WorkerIsLatest(s, id);
    var s' := Apply(s, Begin(id));
    MoveKeepsLane(s, s', id, s'.workers[id]);
  }

  lemma ReportStartedKeepsLane(s: State, id: JobId)
    requires LaneInv(s) && Enabled(s, ReportStarted(id))
    ensures LaneInv(Apply(s, ReportStarted(id)))
  {
    WorkerIsLatest(s, id);
    var w := s.workers[id];
    ReportKeepsLane(s, id, StartedReport(w.h, Items(w), w.done), w.(pc := InItem));
  }

  lemma RunKeepsLane(s: State, id: JobId, o: Outcome)
    requires LaneInv(s) && Enabled(s, Run(id, o))
    ensures LaneInv(Apply(s, Run(id, o)))
  {
    WorkerIsLatest(s, id);
    var (w, s') := (s.workers[id], Apply(s, Run(id, o)));
    var w' := w.(pc := Ran, done := w.done + [o]);
    CountInBuilds(w.h, Items(w), w.done, o);
    assert (w.done + [o])[..|w.done|] == w.done;
    assert Partial(w') == Partial(w);
    assert s'.jobs == s.jobs[id := Built(w')] && s'.reported == s.reported + [];
    MoveKeepsLane(s, s', id, w');
  }

  lemma CountInBuilds(h: Header, items: seq<Item>, done: seq<Outcome>, o: Outcome)
    requires |done| < |items|
    ensures var it := items[|done|];
            CountIn(JobAt(h, items, done, Some(it)), it, |done| + 1, o) == JobAt(h, items, done + [o], Some(it))
  {
    var more := done + [o];
    assert more[..|more| - 1] == done && more[|more| - 1] == o;
    assert Count(more) == Add(Count(done), o);
    assert ErrorsOf(items, more) == CountIn(JobAt(h, items, done, None), items[|done|], 0, o).errors;
  }

  lemma ReportDoneKeepsLane(s: State, id: JobId)
    requires LaneInv(s) && Enabled(s, ReportDone(id))
    ensures LaneInv(Apply(s, ReportDone(id)))
  {
    WorkerIsLatest(s, id);
    var w := s.workers[id];
    ReportKeepsLane(s, id, DoneReport(w.h, Items(w), w.done), w.(pc := AtItem));
  }

  lemma ReportEndKeepsLane(s: State, id: JobId, now: int)
    requires LaneInv(s) && Enabled(s, ReportEnd(id, now))
    ensures LaneInv(Apply(s, ReportEnd(id, now)))
  {
    WorkerIsLatest(s, id);
    var w' := Apply(s, ReportEnd(id, now)).workers[id];
    assert w'.pc.final == FinalJob(RecordOf(w'));
    ReportKeepsLane(s, id, Finished(w'.pc.final), w');
  }

  lemma FreeKeepsLane(s: State, id: JobId)
    requires LaneInv(s) && Enabled(s, Free(id))
    ensures LaneInv(Apply(s, Free(id)))
  {
    WorkerIsLatest(s, id);
    var s' := Apply(s, Free(id));
    var r := RecordOf(s.workers[id]);
    assert s'.past[..|s.past|] == s.past && s'.past[|s.past|] == r;
    assert s'.reported == Traces(s.past) + Trace(r);
    assert s'.workers == map[];
  }

  lemma StartKeepsLane(s: State, id: JobId, kind: string, meta: string, now: int)
    requires LaneInv(s) && Enabled(s, Start(id, kind, meta, now))
    ensures LaneInv(Apply(s, Start(id, kind, meta, now)))
  {
    if !s.busy {
      var s' := Apply(s, Start(id, kind, meta, now));
      assert s'.reported == Traces(s'.past) + [];
    }
  }

  lemma CancelKeepsLane(s: State, kind: string, id: JobId)
    requires LaneInv(s) && Enabled(s, Cancel(kind, id))
    ensures LaneInv(Apply(s, Cancel(kind, id)))
  {
  }

  lemma StepKeepsLane(s: State, step: Step)
    requires LaneInv(s) && Enabled(s, step)
    ensures LaneInv(Apply(s, step))
  {
    match step
    case Start(id, kind, meta, now) => StartKeepsLane(s, id, kind, meta, now);
    case PassCheck(kind, id) =>
    case Cancel(kind, id) => CancelKeepsLane(s, kind, id);
    case List(id, listing) => ListKeepsLane(s, id, listing);
    case ReportFailed(id) => ReportFailedKeepsLane(s, id);
    case Look(id) => LookKeepsLane(s, id);
    case Begin(id) => BeginKeepsLane(s, id);
    case ReportStarted(id) => ReportStartedKeepsLane(s, id);
    case Run(id, o) => RunKeepsLane(s, id, o);
    case ReportDone(id) => ReportDoneKeepsLane(s, id);
    case ReportEnd(id, now) => ReportEndKeepsLane(s, id, now);
    case Free(id) => FreeKeepsLane(s, id);
  }

  // ----- Cancelling -----

  /** How many items the job will have started once the item it looked at, if any, has. */
  function Committed(w: Worker): nat {
    |w.done| + if w.pc.Passed? || w.pc.Starting? || w.pc.InItem? then 1 else 0
  }

  ghost predicate ChecksHold(s: State) {
    forall c :: c in s.checks ==> c.id in s.jobs && s.jobs[c.id].kind == c.kind
  }

  /** A close was of a job of the kind that asked, and the first for that job. */
  ghost predicate ClosedRightly(s: State, k: nat)
    requires k < |s.closes|
  {
    var c := s.closes[k];
    && c.id in s.closed && c.id in s.jobs && s.jobs[c.id].kind == c.kind
    && forall j :: 0 <= j < k ==> s.closes[j].id != c.id
  }

  /** At most one item starts after a close. */
  ghost predicate StopsSoon(s: State, c: Close) {
    && (c.id in s.workers ==> Started(s.workers[c.id]) <= Committed(s.workers[c.id]) <= c.started + 1)
    && (forall r :: r in s.past && r.h.id == c.id ==> |r.done| <= c.started + 1)
  }

  ghost predicate CancelInv(s: State) {
    && ChecksHold(s)
    && s.closed <= s.jobs.Keys && s.workers.Keys <= s.jobs.Keys
    && (forall r :: r in s.past ==> r.h.id in s.jobs && r.h.id !in s.workers)
    && (forall id :: id in s.closed ==> exists k :: 0 <= k < |s.closes| && s.closes[k].id == id)
    && (forall k :: 0 <= k < |s.closes| ==> ClosedRightly(s, k) && StopsSoon(s, s.closes[k]))
  }

  /** A worker's move that commits to no further item once the channel is closed. */
  lemma MoveKeepsCancel(s: State, s': State, id: JobId)
    requires CancelInv(s) && Moved(s, s') && WorkerAt(s, id) && id in s'.workers && id in s'.jobs
    requires s'.workers == s.workers[id := s'.workers[id]] && s'.jobs == s.jobs[id := s'.jobs[id]]
    requires s'.jobs[id].kind == s.jobs[id].kind
    requires Committed(s'.workers[id]) <= Committed(s.workers[id]) || id !in s.closed
    ensures CancelInv(s')
  {
    forall k | 0 <= k < |s'.closes| ensures ClosedRightly(s', k) && StopsSoon(s', s'.closes[k]) {
      assert ClosedRightly(s, k) && StopsSoon(s, s.closes[k]);
    }
  }

  lemma FreeKeepsCancel(s: State, id: JobId)
    requires LaneInv(s) && CancelInv(s) && Enabled(s, Free(id))
    ensures CancelInv(Apply(s, Free(id)))
  {
    WorkerIsLatest(s, id);
    var s' := Apply(s, Free(id));
    forall k | 0 <= k < |s'.closes| ensures ClosedRightly(s', k) && StopsSoon(s', s'.closes[k]) {
      assert ClosedRightly(s, k) && StopsSoon(s, s.closes[k]);
    }
  }

  lemma StartKeepsCancel(s: State, id: JobId, kind: string, meta: string, now: int)
    requires CancelInv(s) && Enabled(s, Start(id, kind, meta, now))
    ensures CancelInv(Apply(s, Start(id, kind, meta, now)))
  {
    var s' := Apply(s, Start(id, kind, meta, now));
    forall k | 0 <= k < |s'.closes| ensures ClosedRightly(s', k) && StopsSoon(s', s'.closes[k]) {
      assert ClosedRightly(s, k) && StopsSoon(s, s.closes[k]);
    }
  }

  /** The channel of the latest job id is closed for the first time. */
  ghost predicate ClosesFirst(s: State, s': State, kind: string, id: JobId) {
    && id in s.jobs && s.jobs[id].kind == kind && id !in s.closed
    && s' == s.(closed := s.closed + {id}, closes := s'.closes)
    && s'.closes == s.closes + [Close(kind, id, if id in s.workers then Started(s.workers[id]) else 0)]
  }

  lemma CloseIsRight(s: State, s': State, kind: string, id: JobId, k: nat)
    requires CancelInv(s) && ClosesFirst(s, s', kind, id) && k < |s'.closes|
    ensures ClosedRightly(s', k)
  {
    if k < |s.closes| {
      assert ClosedRightly(s, k);
    } else {
      forall j | 0 <= j < k ensures s'.closes[j].id != id {
        assert ClosedRightly(s, j);
      }
    }
  }

  lemma CloseStopsSoon(s: State, s': State, kind: string, id: JobId, k: nat)
    requires LaneInv(s) && CancelInv(s) && ClosesFirst(s, s', kind, id) && k < |s'.closes|
    requires s.latest == Some(id) && s.jobs[id].status == Running
    ensures StopsSoon(s', s'.closes[k])
  {
    if k < |s.closes| { assert StopsSoon(s, s.closes[k]); }
  }

  lemma CloseKeepsCancel(s: State, kind: string, id: JobId)
    requires LaneInv(s) && CancelInv(s) && Enabled(s, Cancel(kind, id))
    ensures CancelInv(Apply(s, Cancel(kind, id)))
  {
    var s' := Apply(s, Cancel(kind, id));
    if s' != s {
      assert Check(kind, id) in s.checks;
      forall c | c in s'.closed ensures exists k :: 0 <= k < |s'.closes| && s'.closes[k].id == c {
        var k :| 0 <= k <= |s.closes| && if c == id then k == |s.closes| else k < |s.closes| && s.closes[k].id == c;
        assert s'.closes[k].id == c;
      }
      forall k | 0 <= k < |s'.closes| ensures ClosedRightly(s', k) && StopsSoon(s', s'.closes[k]) {
        CloseIsRight(s, s', kind, id, k);
        CloseStopsSoon(s, s', kind, id, k);
      }
    }
  }

  lemma StepKeepsCancel(s: State, step: Step)
    requires LaneInv(s) && CancelInv(s) && Enabled(s, step)
    ensures CancelInv(Apply(s, step))
  {
    match step
    case Start(id, kind, meta, now) => StartKeepsCancel(s, id, kind, meta, now);
    case PassCheck(kind, id) => PassCheckKeepsCancel(s, kind, id);
    case Cancel(kind, id) => CloseKeepsCancel(s, kind, id);
    case Free(id) => FreeKeepsCancel(s, id);
    case Look(id) => LookKeepsCancel(s, id);
    case Begin(id) => BeginKeepsCancel(s, id);
    case Run(id, o) => RunKeepsCancel(s, id, o);
    case List(id, listing) => ListKeepsCancel(s, id, listing);
    case _ => ReportKeepsCancel(s, step);
  }

  /** A worker's move that leaves its job alone, with or without a report. */
  lemma QuietMoveKeepsCancel(s: State, s': State, id: JobId)
    requires CancelInv(s) && WorkerAt(s, id) && id in s'.workers && s'.jobs == s.jobs
    requires s' == SetWorker(s.(reported := s'.reported), id, s'.workers[id])
    requires Committed(s'.workers[id]) <= Committed(s.workers[id]) || id !in s.closed
    ensures CancelInv(s')
  {
    assert s'.jobs == s.jobs[id := s.jobs[id]];
    MoveKeepsCancel(s, s', id);
  }

  lemma ReportKeepsCancel(s: State, step: Step)
    requires CancelInv(s) && Enabled(s, step)
    requires step.ReportFailed? || step.ReportStarted? || step.ReportDone? || step.ReportEnd?
    ensures CancelInv(Apply(s, step))
  {
    QuietMoveKeepsCancel(s, Apply(s, step), step.id);
  }

  lemma LookKeepsCancel(s: State, id: JobId)
    requires LaneInv(s) && CancelInv(s) && Enabled(s, Look(id))
    ensures CancelInv(Apply(s, Look(id)))
  {
    QuietMoveKeepsCancel(s, Apply(s, Look(id)), id);
  }

  lemma RunKeepsCancel(s: State, id: JobId, o: Outcome)
    requires LaneInv(s) && CancelInv(s) && Enabled(s, Run(id, o))
    ensures CancelInv(Apply(s, Run(id, o)))
  {
    WorkerIsLatest(s, id);
    MoveKeepsCancel(s, Apply(s, Run(id, o)), id);
  }

  lemma ListKeepsCancel(s: State, id: JobId, listing: Listing)
    requires LaneInv(s) && CancelInv(s) && Enabled(s, List(id, listing))
    ensures CancelInv(Apply(s, List(id, listing)))
  {
    WorkerIsLatest(s, id);
    MoveKeepsCancel(s, Apply(s, List(id, listing)), id);
  }

  lemma BeginKeepsCancel(s: State, id: JobId)
    requires LaneInv(s) && CancelInv(s) && Enabled(s, Begin(id))
    ensures CancelInv(Apply(s, Begin(id)))
  {
    WorkerIsLatest(s, id);
    MoveKeepsCancel(s, Apply(s, Begin(id)), id);
  }

  lemma PassCheckKeepsCancel(s: State, kind: string, id: JobId)
    requires CancelInv(s) && Enabled(s, PassCheck(kind, id))
    ensures CancelInv(Apply(s, PassCheck(kind, id)))
  {
    var s' := Apply(s, PassCheck(kind, id));
    forall k | 0 <= k < |s'.closes| ensures ClosedRightly(s', k) && StopsSoon(s', s'.closes[k]) {
      assert ClosedRightly(s, k) && StopsSoon(s, s.closes[k]);
    }
  }

  lemma StepOf(run: seq<State>, i: nat) returns (step: Step)
    requires IsRun(run) && i + 1 < |run|
    ensures Enabled(run[i], step) && run[i + 1] == Apply(run[i], step)
  {
    assert NextAt(run, i);
    step :| Enabled(run[i], step) && run[i + 1] == Apply(run[i], step);
  }

  lemma {:induction false} RunKeepsInv(run: seq<State>, i: nat)
    requires IsRun(run) && i < |run|
    ensures LaneInv(run[i]) && CancelInv(run[i])
  {
    if i > 0 {
      RunKeepsInv(run, i - 1);
      var step := StepOf(run, i - 1);
      StepKeepsLane(run[i - 1], step);
      StepKeepsCancel(run[i - 1], step);
    }
  }

  // ----- What every run keeps -----

  /** The reports are those of whole jobs one after another, then the latest job's so far; every
      finished job made all of its own: each item's start and end in item order, then its end, or
      its listing's failure and then its end. */
  lemma ReportsAreWholeTraces(run: seq<State>, i: nat)
    requires IsRun(run) && i < |run|
    ensures var s := run[i];
            && PastIsValid(s)
            && (!s.busy ==> s.reported == Traces(s.past))
            && (s.busy ==>
                  && s.latest.Some? && s.workers.Keys == {s.latest.value}
                  && Sound(s.workers[s.latest.value])
                  && s.reported == Traces(s.past) + Partial(s.workers[s.latest.value]))
  {
    RunKeepsInv(run, i);
  }

  /** The lane is taken exactly while the latest job is shown as running. */
  lemma BusyIsRunning(run: seq<State>, i: nat)
    requires IsRun(run) && i < |run|
    ensures var s := run[i];
            s.busy <==> s.latest.Some? && s.latest.value in s.jobs && s.jobs[s.latest.value].status == Running
  {
    RunKeepsInv(run, i);
  }

  /** Whenever the lock is free the latest job accounts for the items it has processed: its counts add
      up and its errors are those of exactly the failed items, in order. Finished, it says how it
      ended. */
  lemma LatestJobIsAccounted(run: seq<State>, i: nat)
    requires IsRun(run) && i < |run| && run[i].latest.Some?
    ensures var s := run[i];
            s.latest.value in s.jobs &&
            var job := s.jobs[s.latest.value];
            && (s.busy ==>
                  && s.latest.value in s.workers
                  && var w := s.workers[s.latest.value]; Accounts(job, Items(w), w.done))
            && (!s.busy ==>
                  && s.past != []
                  && var r := s.past[|s.past| - 1]; r.h.id == job.id && Accounts(job, ItemsOf(r), r.done))
            && (job.status == Completed ==> job.processed == job.total)
            && (job.status == Cancelled ==> job.processed < job.total && job.id in s.closed)
            && (job.status == Failed ==> job.total == 0 && job.listError.Some?)
  {
    RunKeepsInv(run, i);
    var s := run[i];
    if s.busy {
      var w := s.workers[s.latest.value];
      CountsAddUp(w.h, Items(w), w.done, None);
    } else {
      var r := s.past[|s.past| - 1];
      assert r in s.past;
      CountsAddUp(r.h, ItemsOf(r), r.done, None);
      FinalStatus(r);
    }
  }

  /** A service's cancel closes only channels of jobs of its own kind, even when a job started
      between its check and its cancel; and no channel is closed twice. */
  lemma CancelsStayInKind(run: seq<State>, i: nat)
    requires IsRun(run) && i < |run|
    ensures var s := run[i];
            && (forall k :: 0 <= k < |s.closes| ==>
                  s.closes[k].id in s.jobs && s.jobs[s.closes[k].id].kind == s.closes[k].kind)
            && (forall j, k :: 0 <= j < k < |s.closes| ==> s.closes[j].id != s.closes[k].id)
  {
    RunKeepsInv(run, i);
    var s := run[i];
    forall k | 0 <= k < |s.closes|
      ensures s.closes[k].id in s.jobs && s.jobs[s.closes[k].id].kind == s.closes[k].kind
    {
      assert ClosedRightly(s, k);
    }
    forall j, k | 0 <= j < k < |s.closes| ensures s.closes[j].id != s.closes[k].id {
      assert ClosedRightly(s, k);
    }
  }

  /** Once its channel is closed a job starts at most one more item. */
  lemma AtMostOneItemAfterCancel(run: seq<State>, i: nat, k: nat)
    requires IsRun(run) && i < |run| && k < |run[i].closes|
    ensures var s := run[i];
            var c := s.closes[k];
            && (c.id in s.workers ==> Started(s.workers[c.id]) <= c.started + 1)
            && (forall r :: r in s.past && r.h.id == c.id ==> |r.done| <= c.started + 1)
  {
    RunKeepsInv(run, i);
    assert StopsSoon(run[i], run[i].closes[k]);
  }

  // ----- What a cancel does -----

  /** A cancel of the latest job, while it runs, closes its channel, unless it is closed already; any other
      changes nothing. */
  lemma CancelCloses(run: seq<State>, i: nat, kind: string, id: JobId)
    requires IsRun(run) && i < |run| && Enabled(run[i], Cancel(kind, id))
    ensures var (s, s') := (run[i], Apply(run[i], Cancel(kind, id)));
            if s.busy && s.latest == Some(id) then
              && s'.closed == s.closed + {id}
              && id in s.workers
              && s'.closes == s.closes + if id in s.closed then [] else [Close(kind, id, Started(s.workers[id]))]
            else s' == s
  {
    RunKeepsInv(run, i);
  }

  /** A worker that comes to an item once its channel is closed runs no further one, and its job ends as
      cancelled; until then it goes on to the next item, and ends as completed after the last. */
  lemma LookDecides(s: State, id: JobId)
    requires Enabled(s, Look(id))
    ensures var (w, w') := (s.workers[id], Apply(s, Look(id)).workers[id]);
            && w'.done == w.done && w'.h == w.h && w'.listing == w.listing
            && (|w.done| >= |Items(w)| ==> w'.pc == Ending && w'.cancelled == w.cancelled)
            && (|w.done| < |Items(w)| && id in s.closed ==> w'.pc == Ending && w'.cancelled)
            && (|w.done| < |Items(w)| && id !in s.closed ==> w'.pc == Passed && w'.cancelled == w.cancelled)
  {
  }

  /** In every run, a job whose channel was closed with more than one item left to start ends as cancelled,
      with at most one more item than were started then. */
  lemma CancelledJobsStop(run: seq<State>, i: nat, k: nat, r: Record)
    requires IsRun(run) && i < |run| && k < |run[i].closes| && r in run[i].past
    requires r.h.id == run[i].closes[k].id && r.listing.Ok? && run[i].closes[k].started + 1 < |r.listing.value|
    ensures ValidRecord(r) && FinalJob(r).status == Cancelled && |r.done| <= run[i].closes[k].started + 1
  {
    RunKeepsInv(run, i);
    AtMostOneItemAfterCancel(run, i, k);
    assert ValidRecord(r);
  }

  lemma EndingDecides(run: seq<State>, i: nat, id: JobId, now: int)
    requires IsRun(run) && i < |run| && Enabled(run[i], ReportEnd(id, now))
    ensures var w := run[i].workers[id];
            var final := Apply(run[i], ReportEnd(id, now)).workers[id].pc;
            && final.Closing? && final.final.finishedAt == Some(now)
            && final.final.status ==
               (if w.listing.Err? then Failed else if |w.done| < |Items(w)| then Cancelled else Completed)
  {
    RunKeepsInv(run, i);
  }

  // ----- A job gets on -----

  /** In every run: a start takes a free lane for a new job that lists its items, and changes nothing on a
      busy one. */
  lemma StartDecides(run: seq<State>, i: nat, id: JobId, kind: string, meta: string, now: int)
    requires IsRun(run) && i < |run| && id !in run[i].jobs
    ensures Enabled(run[i], Start(id, kind, meta, now))
    ensures var (s, s') := (run[i], Apply(run[i], Start(id, kind, meta, now)));
            if s.busy then s' == s
            else
              && s'.busy && s'.latest == Some(id) && s'.workers.Keys == {id} && s'.closed == s.closed
              && s'.workers[id] == Worker(Header(id, kind, meta, now), Listing, Ok([]), [], false)
              && id in s'.jobs && s'.jobs[id].status == Running && s'.jobs[id].kind == kind && s'.jobs[id].total == 0
              && s'.reported == s.reported && s'.past == s.past
  {
    RunKeepsInv(run, i);
  }

  /** Worker w of the next state, nothing being reported. */
  predicate Becomes(s: State, s': State, id: JobId, w: Worker) {
    id in s'.workers && s'.workers[id] == w && s'.reported == s.reported && s'.past == s.past && s'.busy == s.busy
  }

  /** Worker w of the next state, and one more report. */
  predicate Reports(s: State, s': State, id: JobId, w: Worker, r: Report) {
    && id in s'.workers && s'.workers[id] == w && s'.past == s.past && s'.busy == s.busy
    && s'.reported == s.reported + [r]
  }

  /** In every run a job is never stuck between its reports: it lists its items, passes each check or
      ends, and runs the item it has started. */
  lemma ItemsGoOn(run: seq<State>, i: nat, id: JobId, listing: Listing, o: Outcome)
    requires IsRun(run) && i < |run| && id in run[i].workers
    ensures var (s, w) := (run[i], run[i].workers[id]);
            match w.pc
            case Listing =>
              && Enabled(s, List(id, listing))
              && Becomes(s, Apply(s, List(id, listing)), id,
                         w.(listing := listing, pc := if listing.Ok? then AtItem else ListFailed(listing.error)))
            case AtItem => Enabled(s, Look(id))
            case Passed => Enabled(s, Begin(id)) && Becomes(s, Apply(s, Begin(id)), id, w.(pc := Starting))
            case InItem =>
              && Enabled(s, Run(id, o))
              && Becomes(s, Apply(s, Run(id, o)), id, w.(pc := Ran, done := w.done + [o]))
            case _ => true
  {
    RunKeepsInv(run, i);
  }

  /** In every run a job is never stuck at a report: of a listing that failed, of an item's start, or of its
      end, with what the items so far came to. */
  lemma ReportsGoOn(run: seq<State>, i: nat, id: JobId)
    requires IsRun(run) && i < |run| && id in run[i].workers
    ensures var (s, w) := (run[i], run[i].workers[id]);
            match w.pc
            case ListFailed(error) =>
              && Enabled(s, ReportFailed(id))
              && Reports(s, Apply(s, ReportFailed(id)), id, w.(pc := Ending), FailedReport(w.h, error))
            case Starting =>
              && Enabled(s, ReportStarted(id)) && |w.done| < |Items(w)|
              && Reports(s, Apply(s, ReportStarted(id)), id, w.(pc := InItem), StartedReport(w.h, Items(w), w.done))
            case Ran =>
              && Enabled(s, ReportDone(id)) && 0 < |w.done| <= |Items(w)|
              && Reports(s, Apply(s, ReportDone(id)), id, w.(pc := AtItem), DoneReport(w.h, Items(w), w.done))
            case _ => true
  {
    RunKeepsInv(run, i);
  }

  /** In every run a job that ends reports its end, and then frees the lane with its final record. */
  lemma EndsGoOn(run: seq<State>, i: nat, id: JobId, now: int)
    requires IsRun(run) && i < |run| && id in run[i].workers
    ensures var (s, w) := (run[i], run[i].workers[id]);
            match w.pc
            case Ending => Enabled(s, ReportEnd(id, now))
            case Closing(final) =>
              && Enabled(s, Free(id)) && var s' := Apply(s, Free(id));
              && !s'.busy && id !in s'.workers && id in s'.jobs && s'.jobs[id] == final
              && |s'.past| == |s.past| + 1 && var r := s'.past[|s.past|];
              r.h == w.h && r.listing == w.listing && r.done == w.done && ValidRecord(r) && FinalJob(r) == final
            case _ => true
  {
    RunKeepsInv(run, i);
  }

  // ----- The reports of one job -----

  function ReportsOf(rs: seq<Report>, id: JobId): seq<Report> {
    if rs == [] then []
    else
      var (front, last) := (rs[..|rs| - 1], rs[|rs| - 1]);
      ReportsOf(front, id) + if last.job.id == id then [last] else []
  }

  lemma {:induction false} ReportsOfConcat(a: seq<Report>, b: seq<Report>, id: JobId)
    ensures ReportsOf(a + b, id) == ReportsOf(a, id) + ReportsOf(b, id)
  {
    if b == [] {
      assert a + b == a;
    } else {
      var (front, last) := (b[..|b| - 1], b[|b| - 1]);
      ReportsOfConcat(a, front, id);
      assert (a + b)[..|a + b| - 1] == a + front;
    }
  }

  ghost predicate AllOf(rs: seq<Report>, id: JobId) {
    forall r :: r in rs ==> r.job.id == id
  }

  lemma {:induction false} OwnReports(rs: seq<Report>, id: JobId, other: JobId)
    requires AllOf(rs, id)
    ensures ReportsOf(rs, other) == if other == id then rs else []
  {
    if rs != [] {
      OwnReports(rs[..|rs| - 1], id, other);
    }
  }

  lemma {:induction false} ItemTraceIsOwn(h: Header, items: seq<Item>, done: seq<Outcome>)
    requires |done| <= |items|
    ensures AllOf(ItemTrace(h, items, done), h.id)
  {
    if done != [] {
      ItemTraceIsOwn(h, items, done[..|done| - 1]);
    }
  }

  lemma TraceIsOwn(r: Record)
    requires ValidRecord(r)
    ensures AllOf(Trace(r), r.h.id)
  {
    if r.listing.Ok? { ItemTraceIsOwn(r.h, r.listing.value, r.done); }
  }

  lemma PartialIsOwn(w: Worker)
    requires Sound(w)
    ensures AllOf(Partial(w), w.h.id)
  {
    ItemTraceIsOwn(w.h, Items(w), w.done);
    if w.pc.Ran? { ItemTraceIsOwn(w.h, Items(w), w.done[..|w.done| - 1]); }
    if w.pc.Closing? { TraceIsOwn(RecordOf(w)); }
  }

  ghost predicate PastIdsDiffer(past: seq<Record>) {
    forall j, k :: 0 <= j < k < |past| ==> past[j].h.id != past[k].h.id
  }

  lemma {:induction false} PastIsDistinct(run: seq<State>, i: nat)
    requires IsRun(run) && i < |run|
    ensures PastIdsDiffer(run[i].past)
  {
    if i > 0 {
      PastIsDistinct(run, i - 1);
      RunKeepsDistinct(run, i - 1);
    }
  }

  lemma RunKeepsDistinct(run: seq<State>, i: nat)
    requires IsRun(run) && i + 1 < |run| && PastIdsDiffer(run[i].past)
    ensures PastIdsDiffer(run[i + 1].past)
  {
    RunKeepsInv(run, i);
    var step := StepOf(run, i);
    StepKeepsDistinct(run[i], step);
  }

  lemma PastGrows(s: State, step: Step)
    requires Enabled(s, step)
    ensures var past := Apply(s, step).past;
            past == if step.Free? then s.past + [RecordOf(s.workers[step.id])] else s.past
  {
  }

  lemma OneMoreDiffers(past: seq<Record>, r: Record)
    requires PastIdsDiffer(past) && forall p :: p in past ==> p.h.id != r.h.id
    ensures PastIdsDiffer(past + [r])
  {
    forall j | 0 <= j < |past| ensures past[j].h.id != r.h.id {
      assert past[j] in past;
    }
  }

  lemma FreedIsNew(s: State, id: JobId)
    requires LaneInv(s) && CancelInv(s) && Enabled(s, Free(id))
    ensures RecordOf(s.workers[id]).h.id == id && forall r :: r in s.past ==> r.h.id != id
  {
    WorkerIsLatest(s, id);
  }

  lemma StepKeepsDistinct(s: State, step: Step)
    requires LaneInv(s) && CancelInv(s) && PastIdsDiffer(s.past) && Enabled(s, step)
    ensures PastIdsDiffer(Apply(s, step).past)
  {
    PastGrows(s, step);
    if step.Free? {
      FreedIsNew(s, step.id);
      OneMoreDiffers(s.past, RecordOf(s.workers[step.id]));
    }
  }

  ghost predicate AllValid(past: seq<Record>) {
    && (forall r :: r in past ==> ValidRecord(r))
    && (forall r :: r in past && r.listing.Ok? ==> |r.done| <= |r.listing.value|)
  }

  /** Whose trace, if anyone's, the reports about id in past are. */
  ghost predicate IsTraceOf(rs: seq<Report>, past: seq<Record>, id: JobId)
    requires AllValid(past)
  {
    && (forall r :: r in past && r.h.id == id ==> rs == Trace(r))
    && ((forall r :: r in past ==> r.h.id != id) ==> rs == [])
  }

  lemma {:induction false} OneTraceEach(past: seq<Record>, id: JobId)
    requires PastIdsDiffer(past) && AllValid(past)
    ensures IsTraceOf(ReportsOf(Traces(past), id), past, id)
  {
    if past != [] {
      var (front, last) := (past[..|past| - 1], past[|past| - 1]);
      assert last in past && past == front + [last];
      assert AllValid(front);
      OneTraceEach(front, id);
      LastIsNew(past);
      AddTrace(front, last, id);
    }
  }

  lemma TracesGrow(front: seq<Record>, last: Record)
    requires AllValid(front) && AllValid(front + [last]) && ValidRecord(last)
    ensures Traces(front + [last]) == Traces(front) + Trace(last)
  {
    assert (front + [last])[..|front|] == front;
  }

  lemma ReportsOfOneMore(front: seq<Record>, last: Record, id: JobId)
    requires AllValid(front) && ValidRecord(last) && AllValid(front + [last])
    ensures ReportsOf(Traces(front + [last]), id) ==
            ReportsOf(Traces(front), id) + if id == last.h.id then Trace(last) else []
  {
    TracesGrow(front, last);
    ReportsOfConcat(Traces(front), Trace(last), id);
    TraceIsOwn(last);
    OwnReports(Trace(last), last.h.id, id);
  }

  lemma AddTrace(front: seq<Record>, last: Record, id: JobId)
    requires AllValid(front) && ValidRecord(last) && AllValid(front + [last])
    requires forall r :: r in front ==> r.h.id != last.h.id
    requires IsTraceOf(ReportsOf(Traces(front), id), front, id)
    ensures IsTraceOf(ReportsOf(Traces(front + [last]), id), front + [last], id)
  {
    ReportsOfOneMore(front, last, id);
    var before := ReportsOf(Traces(front), id);
    if id == last.h.id {
      assert before == [];
      assert [] + Trace(last) == Trace(last);
    } else {
      assert before + [] == before;
    }
  }

  lemma LastIsNew(past: seq<Record>)
    requires PastIdsDiffer(past) && past != []
    ensures forall r :: r in past[..|past| - 1] ==> r.h.id != past[|past| - 1].h.id
  {
    forall r | r in past[..|past| - 1] ensures r.h.id != past[|past| - 1].h.id {
      var j :| 0 <= j < |past| - 1 && past[j] == r;
    }
  }

  lemma OthersReportNothingOf(past: seq<Record>, w: Worker, id: JobId)
    requires AllValid(past) && Sound(w) && w.h.id != id
    ensures ReportsOf(Traces(past) + Partial(w), id) == ReportsOf(Traces(past), id)
  {
    PartialIsOwn(w);
    OwnReports(Partial(w), w.h.id, id);
    ReportsOfConcat(Traces(past), Partial(w), id);
    assert ReportsOf(Traces(past), id) + [] == ReportsOf(Traces(past), id);
  }

  lemma LiveJobIsNew(s: State, r: Record)
    requires LaneInv(s) && CancelInv(s) && s.busy && r in s.past
    ensures s.latest.value in s.workers
    ensures var w := s.workers[s.latest.value];
            AllValid(s.past) && Sound(w) && w.h.id != r.h.id && s.reported == Traces(s.past) + Partial(w)
  {
  }

  lemma FinishedReportsItsTrace(s: State, r: Record)
    requires LaneInv(s) && CancelInv(s) && PastIdsDiffer(s.past) && r in s.past
    ensures ValidRecord(r) && ReportsOf(s.reported, r.h.id) == Trace(r)
  {
    assert AllValid(s.past);
    OneTraceEach(s.past, r.h.id);
    if s.busy {
      LiveJobIsNew(s, r);
      OthersReportNothingOf(s.past, s.workers[s.latest.value], r.h.id);
    }
  }

  /** In every run, the reports of a finished job, whatever other jobs reported before and after it,
      are its whole trace. */
  lemma FinishedJobReportsItsTrace(run: seq<State>, i: nat, r: Record)
    requires IsRun(run) && i < |run| && r in run[i].past
    ensures ValidRecord(r) && ReportsOf(run[i].reported, r.h.id) == Trace(r)
  {
    RunKeepsInv(run, i);
    PastIsDistinct(run, i);
    FinishedReportsItsTrace(run[i], r);
  }

  // ----- How many items a job has started -----

  function StartsIn(rs: seq<Report>): nat {
    if rs == [] then 0 else StartsIn(rs[..|rs| - 1]) + if rs[|rs| - 1].ItemStarted? then 1 else 0
  }

  lemma StartsInOne(rs: seq<Report>, r: Report)
    ensures StartsIn(rs + [r]) == StartsIn(rs) + if r.ItemStarted? then 1 else 0
  {
    assert (rs + [r])[..|rs|] == rs;
  }

  lemma {:induction false} StartsInItems(h: Header, items: seq<Item>, done: seq<Outcome>)
    requires |done| <= |items|
    ensures StartsIn(ItemTrace(h, items, done)) == |done|
  {
    if done != [] {
      var before := done[..|done| - 1];
      var (front, s, d) := (ItemTrace(h, items, before), StartedReport(h, items, before), DoneReport(h, items, done));
      StartsInItems(h, items, before);
      StartsInOne(front, s);
      StartsInOne(front + [s], d);
      assert front + [s, d] == front + [s] + [d];
    }
  }

  lemma StartsInTrace(r: Record)
    requires ValidRecord(r)
    ensures StartsIn(Trace(r)) == |r.done|
  {
    var before := match r.listing case Ok(items) => ItemTrace(r.h, items, r.done) case Err(e) => [FailedReport(r.h, e)];
    StartsInOne(before, Finished(FinalJob(r)));
    match r.listing
    case Ok(items) => StartsInItems(r.h, items, r.done);
    case Err(e) => StartsInOne([], FailedReport(r.h, e)); assert [] + [FailedReport(r.h, e)] == [FailedReport(r.h, e)];
  }

  lemma StartsInPartial(w: Worker)
    requires Sound(w)
    ensures StartsIn(Partial(w)) == Started(w)
  {
    StartsInItems(w.h, Items(w), w.done);
    match w.pc {
      case InItem => StartsInOne(ItemTrace(w.h, Items(w), w.done), StartedReport(w.h, Items(w), w.done));
      case Ran =>
        var before := w.done[..|w.done| - 1];
        StartsInItems(w.h, Items(w), before);
        StartsInOne(ItemTrace(w.h, Items(w), before), StartedReport(w.h, Items(w), before));
      case Ending =>
        if w.listing.Err? {
          var report := FailedReport(w.h, w.listing.error);
          StartsInOne([], report);
          assert [] + [report] == [report];
        }
      case Closing(_) => StartsInTrace(RecordOf(w));
      case _ =>
    }
  }

  /** In every run, the items a job has started are those it has reported the start of. */
  lemma StartedAreReported(run: seq<State>, i: nat, id: JobId)
    requires IsRun(run) && i < |run| && id in run[i].workers
    ensures StartsIn(ReportsOf(run[i].reported, id)) == Started(run[i].workers[id])
  {
    var s := run[i];
    RunKeepsInv(run, i);
    PastIsDistinct(run, i);
    var w := s.workers[id];
    forall r | r in s.past ensures r.h.id != id { LiveJobIsNew(s, r); }
    assert AllValid(s.past);
    OneTraceEach(s.past, id);
    ReportsOfLive(s.past, w);
    StartsInPartial(w);
  }

  lemma ReportsOfLive(past: seq<Record>, w: Worker)
    requires AllValid(past) && Sound(w) && ReportsOf(Traces(past), w.h.id) == []
    ensures ReportsOf(Traces(past) + Partial(w), w.h.id) == Partial(w)
  {
    PartialIsOwn(w);
    OwnReports(Partial(w), w.h.id, w.h.id);
    ReportsOfConcat(Traces(past), Partial(w), w.h.id);
    assert [] + Partial(w) == Partial(w);
  }
}
