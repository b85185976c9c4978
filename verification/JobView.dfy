/** How an admin page shows a job (web/src/lib/jobProgress.ts, web/src/hooks/useJob.ts,
    web/src/lib/jobKinds.ts): a view of the job follows snapshots from the API and the reports of
    the lane, which may come late or not at all. */
module JobView {
  import opened SegmentTable
  import opened Jobs

  // ----- Views and events -----

  datatype Counts = Counts(total: nat, processed: nat, succeeded: nat, skipped: nat, failed: nat)

  datatype ShownError = ShownError(name: string, error: string)

  datatype View = View(
    id: JobId, phase: Status, counts: Counts, currentItem: string, errors: seq<ShownError>, subject: string)

  datatype Event =
    | Snapshot(view: View)
    | ItemStarts(jobId: JobId, item: string)
    | ItemEnds(jobId: JobId, counts: Counts, error: Option<ShownError>)
    | Finishes(view: View)
    | Fails(jobId: JobId)
    | Reset

  function Live(v: View, e: Event): View {
    match e
    case ItemStarts(_, item) => v.(currentItem := item)
    case ItemEnds(_, counts, error) =>
      v.(counts := counts, errors := if error.Some? then v.errors + [error.value] else v.errors)
    case Fails(_) => v.(phase := Failed, currentItem := "")
    case _ => v
  }

  predicate About(e: Event, id: JobId) {
    match e
    case ItemStarts(jobId, _) => jobId == id
    case ItemEnds(jobId, _, _) => jobId == id
    case Fails(jobId) => jobId == id
    case _ => false
  }

  function ReduceJob(view: Option<View>, e: Event): Option<View> {
    match e
    case Reset => None
    case Snapshot(v) =>
      if view.Some? && view.value.id == v.id &&
         (view.value.phase != Running || v.counts.processed < view.value.counts.processed)
      then view else Some(v)
    case Finishes(v) => if view.Some? && view.value.id == v.id then Some(v) else view
    case _ => if view.Some? && About(e, view.value.id) then Some(Live(view.value, e)) else view
  }

  function Reduced(view: Option<View>, es: seq<Event>): Option<View> {
    if es == [] then view else ReduceJob(Reduced(view, es[..|es| - 1]), es[|es| - 1])
  }

  /** What each event shows: a snapshot of another job always, and of the shown one unless that has ended or
      has got further; the final view of the shown job; and of its reports the item that starts, the
      counts and the error of one that ends, or that the job failed. A reset shows nothing. */
  lemma EventsShow(view: Option<View>, v: View, id: JobId, item: string, counts: Counts, error: Option<ShownError>)
    ensures ReduceJob(None, Snapshot(v)) == Some(v) && ReduceJob(view, Reset) == None
    ensures ReduceJob(None, Finishes(v)) == ReduceJob(None, ItemStarts(id, item)) == None
    ensures ReduceJob(None, ItemEnds(id, counts, error)) == ReduceJob(None, Fails(id)) == None
    ensures view.Some? ==>
              var w := view.value;
              && ReduceJob(view, Snapshot(v)) ==
                   Some(if v.id == w.id && (w.phase != Running || v.counts.processed < w.counts.processed) then w
                        else v)
              && ReduceJob(view, Finishes(v)) == Some(if v.id == w.id then v else w)
              && ReduceJob(view, ItemStarts(id, item)) == Some(if id == w.id then w.(currentItem := item) else w)
              && ReduceJob(view, ItemEnds(id, counts, error)) ==
                   Some(if id != w.id then w
                        else if error == None then w.(counts := counts)
                        else w.(counts := counts, errors := w.errors + [error.value]))
              && ReduceJob(view, Fails(id)) == Some(if id == w.id then w.(phase := Failed, currentItem := "") else w)
  {
  }

  // ----- Finished views stay -----

  predicate EndOf(view: Option<View>, id: JobId) {
    view.Some? && view.value.id == id && view.value.phase != Running
  }

  /** The event leaves job id alone: no reset, no other job's snapshot, no end that is still running. */
  predicate Mild(e: Event, id: JobId) {
    && !e.Reset?
    && (e.Snapshot? ==> e.view.id == id)
    && (e.Finishes? && e.view.id == id ==> e.view.phase != Running)
  }

  /** The view is one of job id's end, at every moment. */
  predicate StaysEnded(view: Option<View>, id: JobId, es: seq<Event>) {
    EndOf(Reduced(view, es), id) && (es != [] ==> StaysEnded(view, id, es[..|es| - 1]))
  }

  predicate AllMild(es: seq<Event>, id: JobId) {
    es != [] ==> Mild(es[|es| - 1], id) && AllMild(es[..|es| - 1], id)
  }

  lemma OneEventEnds(view: Option<View>, id: JobId, e: Event)
    requires EndOf(view, id)
    ensures EndOf(ReduceJob(view, e), id) <==> Mild(e, id)
  {
  }

  /** Once a view has left "running" it never shows that job as running again, whatever reports and
      snapshots still come, exactly as long as there is no reset and no other job's snapshot. */
  lemma {:induction false} FinishedViewsStay(view: Option<View>, id: JobId, es: seq<Event>)
    requires EndOf(view, id)
    ensures StaysEnded(view, id, es) <==> AllMild(es, id)
  {
    if es != [] {
      var front := es[..|es| - 1];
      FinishedViewsStay(view, id, front);
      if StaysEnded(view, id, front) { OneEventEnds(Reduced(view, front), id, es[|es| - 1]); }
    }
  }

  // ----- Live reports and snapshots agree -----

  function CountsOf(job: Job): Counts {
    Counts(job.total, job.processed, job.succeeded, job.skipped, job.failed)
  }

  function ShownErrors(errors: seq<ItemError>): seq<ShownError> {
    seq(|errors|, i requires 0 <= i < |errors| => ShownError(errors[i].itemName, errors[i].error))
  }

  /** A job as its API and its last message carry it; its subject is what it runs on. */
  function ViewOf(job: Job): View {
    View(job.id, job.status, CountsOf(job), "", ShownErrors(job.errors), job.meta)
  }

  /** A lane's report as the page receives it. */
  function EventOf(r: Report): Event {
    match r
    case ItemStarted(job, item, _) => ItemStarts(job.id, item.name)
    case ItemDone(job, item, current, outcome) =>
      ItemEnds(job.id, CountsOf(job).(processed := current),
               match outcome case Failure(error) => Some(ShownError(item.name, error)) case _ => None)
    case ListingFailed(job, _) => Fails(job.id)
    case Finished(job) => Finishes(ViewOf(job))
  }

  function EventsOf(rs: seq<Report>): seq<Event> {
    seq(|rs|, i requires 0 <= i < |rs| => EventOf(rs[i]))
  }

  lemma ReducedOne(view: Option<View>, es: seq<Event>, e: Event)
    ensures Reduced(view, es + [e]) == ReduceJob(Reduced(view, es), e)
  {
    assert (es + [e])[..|es|] == es;
  }

  function ErrorOf(item: Item, outcome: Outcome): seq<ShownError> {
    match outcome case Failure(error) => [ShownError(item.name, error)] case _ => []
  }

  lemma ItemReports(v: View, h: Header, items: seq<Item>, done: seq<Outcome>)
    requires 0 < |done| <= |items| && v.id == h.id
    ensures var n := |done| - 1;
            var started := ReduceJob(Some(v), EventOf(StartedReport(h, items, done[..n])));
            ReduceJob(started, EventOf(DoneReport(h, items, done))) ==
            Some(v.(counts := CountsOf(JobAt(h, items, done, None)), currentItem := items[n].name,
                    errors := v.errors + ErrorOf(items[n], done[n])))
  {
    assert v.errors + [] == v.errors;
    assert done[|done| - 1].Failure? || ErrorOf(items[|done| - 1], done[|done| - 1]) == [];
  }

  lemma ShownErrorsAppend(a: seq<ItemError>, b: seq<ItemError>)
    ensures ShownErrors(a + b) == ShownErrors(a) + ShownErrors(b)
  {
  }

  function AddedErrors(item: Item, outcome: Outcome): seq<ItemError> {
    match outcome case Failure(e) => [ItemError(item.id, item.name, e)] case _ => []
  }

  lemma AddedAreShown(item: Item, outcome: Outcome)
    ensures ShownErrors(AddedErrors(item, outcome)) == ErrorOf(item, outcome)
  {
  }

  lemma ErrorsGrow(items: seq<Item>, done: seq<Outcome>)
    requires 0 < |done| <= |items|
    ensures var n := |done| - 1;
            ShownErrors(ErrorsOf(items, done)) == ShownErrors(ErrorsOf(items, done[..n])) + ErrorOf(items[n], done[n])
  {
    var n := |done| - 1;
    var (before, added) := (ErrorsOf(items, done[..n]), AddedErrors(items[n], done[n]));
    assert ErrorsOf(items, done) == before + added;
    ShownErrorsAppend(before, added);
    AddedAreShown(items[n], done[n]);
  }

  lemma EventsGrow(rs: seq<Report>, s: Report, d: Report)
    ensures EventsOf(rs + [s, d]) == EventsOf(rs) + [EventOf(s)] + [EventOf(d)]
  {
  }

  /** A page that shows the job as it was started, and then gets every report of its first items,
      shows what the server has at that point: same counts, same errors. */
  lemma {:induction false} LiveViewIsTheSnapshot(h: Header, items: seq<Item>, done: seq<Outcome>)
    requires 0 < |done| <= |items|
    ensures Reduced(Some(ViewOf(JobAt(h, [], [], None))), EventsOf(ItemTrace(h, items, done))) ==
            Some(ViewOf(JobAt(h, items, done, None)).(currentItem := items[|done| - 1].name))
  {
    var (n, start) := (|done| - 1, Some(ViewOf(JobAt(h, [], [], None))));
    var before := done[..n];
    var es := EventsOf(ItemTrace(h, items, before));
    var (s, d) := (StartedReport(h, items, before), DoneReport(h, items, done));
    EventsGrow(ItemTrace(h, items, before), s, d);
    ReducedOne(start, es, EventOf(s));
    ReducedOne(start, es + [EventOf(s)], EventOf(d));
    if n > 0 {
      LiveViewIsTheSnapshot(h, items, before);
    } else {
      assert es == [] && ShownErrors(ErrorsOf(items, before)) == [];
    }
    ItemReports(Reduced(start, es).value, h, items, done);
    ErrorsGrow(items, done);
  }

  // ----- A page that misses reports -----

  /** One of the reports of a job's items, up to the items that are done. */
  ghost predicate OfJob(r: Report, h: Header, items: seq<Item>, done: seq<Outcome>)
    requires |done| <= |items|
  {
    || (exists k :: 0 <= k <= |done| && k < |items| && r == StartedReport(h, items, done[..k]))
    || (exists k :: 0 < k <= |done| && r == DoneReport(h, items, done[..k]))
  }

  /** How many items the last report of an end says are done. */
  function LastDone(rs: seq<Report>): Option<nat> {
    if rs == [] then None
    else if rs[|rs| - 1].ItemDone? then Some(rs[|rs| - 1].current)
    else LastDone(rs[..|rs| - 1])
  }

  lemma OneReportShows(v: View, h: Header, items: seq<Item>, done: seq<Outcome>, r: Report)
    requires |done| <= |items| && v.id == h.id && OfJob(r, h, items, done)
    ensures var w := ReduceJob(Some(v), EventOf(r));
            && w.Some? && w.value.id == h.id && w.value.phase == v.phase
            && (r.ItemDone? ==>
                  0 < r.current <= |done| && w.value.counts == CountsOf(JobAt(h, items, done[..r.current], None)))
            && (!r.ItemDone? ==> w.value.counts == v.counts)
  {
    if r.ItemDone? {
      var k :| 0 < k <= |done| && r == DoneReport(h, items, done[..k]);
      assert r.current == k;
    }
  }

  /** A view's counts are those the server had at the last report of an end the page got, however
      many reports it missed in between. */
  lemma {:induction false} MissedReportsDoNotMatter(v: View, h: Header, items: seq<Item>, done: seq<Outcome>,
                                                    got: seq<Report>)
    requires |done| <= |items| && v.id == h.id && v.phase == Running
    requires forall i :: 0 <= i < |got| ==> OfJob(got[i], h, items, done)
    ensures var w := Reduced(Some(v), EventsOf(got));
            && w.Some? && w.value.id == h.id && w.value.phase == Running
            && match LastDone(got) {
                 case Some(k) => 0 < k <= |done| && w.value.counts == CountsOf(JobAt(h, items, done[..k], None))
                 case None => w.value.counts == v.counts
               }
  {
    if got != [] {
      var (front, last) := (got[..|got| - 1], got[|got| - 1]);
      MissedReportsDoNotMatter(v, h, items, done, front);
      assert EventsOf(got) == EventsOf(front) + [EventOf(last)];
      ReducedOne(Some(v), EventsOf(front), EventOf(last));
      OneReportShows(Reduced(Some(v), EventsOf(front)).value, h, items, done, last);
    }
  }

  // ----- When the shown count goes back -----

  /** As long as es lasts, the page shows one job: no reset, and no other job's snapshot. */
  predicate StaysOn(es: seq<Event>, id: JobId) {
    forall i :: 0 <= i < |es| ==> !es[i].Reset? && (es[i].Snapshot? ==> es[i].view.id == id)
  }

  /** While the events of es arrive, the processed count of the shown job never gets smaller. */
  predicate NeverBack(v: View, es: seq<Event>)
    decreases |es|
  {
    es == [] ||
    var w := ReduceJob(Some(v), es[0]);
    w.Some? && v.counts.processed <= w.value.counts.processed && NeverBack(w.value, es[1..])
  }

  /** No report of job id, neither of an item's end nor of its own, carries less than peak: the most
      that was processed so far by the reports, and by the snapshots that came while it ran. */
  predicate Ascending(es: seq<Event>, id: JobId, peak: nat, running: bool) {
    es == [] ||
    match es[0]
    case ItemEnds(jobId, counts, _) =>
      if jobId != id then Ascending(es[1..], id, peak, running)
      else peak <= counts.processed && Ascending(es[1..], id, counts.processed, running)
    case Finishes(v) =>
      if v.id != id then Ascending(es[1..], id, peak, running)
      else peak <= v.counts.processed && Ascending(es[1..], id, v.counts.processed, v.phase == Running)
    case Snapshot(v) =>
      if running && peak <= v.counts.processed then Ascending(es[1..], id, v.counts.processed, v.phase == Running)
      else Ascending(es[1..], id, peak, running)
    case Fails(jobId) => Ascending(es[1..], id, peak, running && jobId != id)
    case _ => Ascending(es[1..], id, peak, running)
  }

  /** Live reports are not guarded the way snapshots are: the count goes back exactly if a report comes
      with less than an earlier one, or an earlier snapshot, already showed. */
  lemma {:induction false} NeverBackIffAscending(v: View, es: seq<Event>)
    requires StaysOn(es, v.id)
    ensures NeverBack(v, es) <==> Ascending(es, v.id, v.counts.processed, v.phase == Running)
    decreases |es|
  {
    if es != [] {
      assert StaysOn([es[0]], v.id) && StaysOn(es[1..], v.id);
      NeverBackIffAscending(ReduceJob(Some(v), es[0]).value, es[1..]);
    }
  }

  /** A snapshot that is ahead of a report still on its way. */
  lemma OvertakenReport(v: View, w: View, counts: Counts, error: Option<ShownError>)
    requires v.id == w.id && v.phase == Running && v.counts.processed <= w.counts.processed
    requires counts.processed < w.counts.processed
    ensures var es := [Snapshot(w), ItemEnds(v.id, counts, error)];
            && Reduced(Some(v), es[..1]) == Some(w)
            && Reduced(Some(v), es).Some? && Reduced(Some(v), es).value.counts == counts && !NeverBack(v, es)
  {
    var (s, d) := (Snapshot(w), ItemEnds(v.id, counts, error));
    assert [s, d][..1] == [] + [s] && [s, d] == [s] + [d] && [s, d][1..] == [d];
    ReducedOne(Some(v), [], s);
    ReducedOne(Some(v), [s], d);
    assert !NeverBack(w, [d]);
  }

  /** A page that is shown the job after two items, and then still gets the report of the first one's
      end, goes back from two to one. */
  lemma LateReportMovesBack(h: Header, items: seq<Item>, done: seq<Outcome>)
    requires 2 == |done| <= |items|
    ensures var v := ViewOf(JobAt(h, [], [], None));
            var es := [Snapshot(ViewOf(JobAt(h, items, done, None))), EventOf(DoneReport(h, items, done[..1]))];
            && !NeverBack(v, es)
            && Reduced(Some(v), es[..1]) == Some(ViewOf(JobAt(h, items, done, None)))
            && Reduced(Some(v), es).Some?
            && Reduced(Some(v), es).value.counts == CountsOf(JobAt(h, items, done[..1], None))
  {
    var d := EventOf(DoneReport(h, items, done[..1]));
    OvertakenReport(ViewOf(JobAt(h, [], [], None)), ViewOf(JobAt(h, items, done, None)), d.counts, d.error);
  }

  /** The reports of a job before its last one. */
  function BeforeTheEnd(r: Record): seq<Report>
    requires ValidRecord(r)
  {
    match r.listing
    case Ok(items) => ItemTrace(r.h, items, r.done)
    case Err(error) => [FailedReport(r.h, error)]
  }

  lemma FailureIsShown(h: Header, error: string, v: View)
    ensures Reduced(Some(v), EventsOf([FailedReport(h, error)])) ==
            Some(if v.id == h.id then v.(phase := Failed, currentItem := "") else v)
  {
    var es := [Fails(h.id)];
    assert EventsOf([FailedReport(h, error)]) == es && es[..0] == [];
  }

  lemma ShownBeforeTheEnd(r: Record)
    requires ValidRecord(r)
    ensures var v := Reduced(Some(ViewOf(JobAt(r.h, [], [], None))), EventsOf(BeforeTheEnd(r)));
            v.Some? && v.value.id == r.h.id
  {
    match r.listing {
      case Err(error) => FailureIsShown(r.h, error, ViewOf(JobAt(r.h, [], [], None)));
      case Ok(items) =>
        if r.done != [] {
          LiveViewIsTheSnapshot(r.h, items, r.done);
        } else {
          assert EventsOf(ItemTrace(r.h, items, [])) == [];
        }
    }
  }

  lemma EventsEnd(rs: seq<Report>, job: Job)
    ensures EventsOf(rs + [Finished(job)]) == EventsOf(rs) + [Finishes(ViewOf(job))]
  {
  }

  /** A page that shows the job as it was started and gets its whole trace ends with the final job. */
  lemma TraceShowsTheFinalJob(r: Record)
    requires ValidRecord(r)
    ensures Reduced(Some(ViewOf(JobAt(r.h, [], [], None))), EventsOf(Trace(r))) == Some(ViewOf(FinalJob(r)))
  {
    var start := Some(ViewOf(JobAt(r.h, [], [], None)));
    assert Trace(r) == BeforeTheEnd(r) + [Finished(FinalJob(r))];
    EventsEnd(BeforeTheEnd(r), FinalJob(r));
    ReducedOne(start, EventsOf(BeforeTheEnd(r)), Finishes(ViewOf(FinalJob(r))));
    ShownBeforeTheEnd(r);
  }

  /** The view of a finished job says what became of it: how many of its items were processed, succeeded,
      were skipped and failed, and the failed ones' names and errors in order. */
  lemma FinalViewTells(r: Record)
    requires ValidRecord(r)
    ensures var view := ViewOf(FinalJob(r));
            && view.id == r.h.id && view.subject == r.h.meta && view.currentItem == ""
            && match r.listing
               case Ok(items) =>
                 && view.phase == (if r.cancelled then Cancelled else Completed)
                 && view.counts == Counts(|items|, |r.done|, |Successes(r.done)|, |Skips(r.done)|, |Failures(r.done)|)
                 && |view.errors| == |FailedAt(r.done)|
                 && (forall k :: 0 <= k < |FailedAt(r.done)| ==> ShowsErrorOf(view, items, r.done, k))
               case Err(_) => view.phase == Failed && view.counts == Counts(0, 0, 0, 0, 0) && view.errors == []
  {
    FinalJobTells(r);
    if r.listing.Ok? {
      var (items, job) := (r.listing.value, FinalJob(r));
      forall k | 0 <= k < |FailedAt(r.done)| ensures ShowsErrorOf(ViewOf(job), items, r.done, k) {
        assert ErrorOfItem(items, r.done, FailedAt(r.done)[k], job.errors[k]);
      }
    }
  }

  /** The view's k-th error is that of the k-th failed item. */
  predicate ShowsErrorOf(view: View, items: seq<Item>, done: seq<Outcome>, k: nat)
    requires |done| <= |items| && k < |FailedAt(done)|
  {
    var i := FailedAt(done)[k];
    i < |done| && done[i].Failure? && k < |view.errors| && view.errors[k] == ShownError(items[i].name, done[i].error)
  }

  // ----- useJob: the page's state machine -----

  datatype Starting = Idle | Requested | Adopting

  datatype StartOutcome = Started | Adopted | StartFailed

  /** queue holds the events whose dispatch waits in a microtask; waiting is how many callers wait
      for the start in flight; outcomes and ends are what callers and onFinished were told. */
  datatype Page = Page(
    view: Option<View>, lastFinished: Option<View>, queue: seq<Event>, notified: Option<JobId>, ends: seq<JobId>,
    starting: Starting, requests: nat, waiting: nat, outcomes: seq<StartOutcome>)

  const NEW_PAGE := Page(None, None, [], None, [], Idle, 0, 0, [])

  datatype Input =
    | Message(event: Event)
    | Dispatch
    | Restored(active: Option<View>)
    | Notify
    | Start
    | Answered(job: View)
    | Refused(busy: bool)
    | ActiveAnswer(active: Option<View>)
    | Dismiss

  function Show(p: Page, v: View): Page {
    var shown := if p.lastFinished.Some? && p.lastFinished.value.id == v.id then p.lastFinished.value else v;
    p.(view := ReduceJob(p.view, Snapshot(shown)))
  }

  /** The start in flight ends, and each of its callers learns how. */
  function Settle(p: Page, o: StartOutcome): Page {
    p.(starting := Idle, waiting := 0, outcomes := p.outcomes + seq(p.waiting, _ => o))
  }

  predicate IsRunning(v: Option<View>) {
    v.Some? && v.value.phase == Running
  }

  /** An input that does not fit the state (an answer nobody waits for) changes nothing. */
  function Next(p: Page, i: Input): Page {
    match i
    case Message(e) => p.(lastFinished := if e.Finishes? then Some(e.view) else p.lastFinished, queue := p.queue + [e])
    case Dispatch => if p.queue == [] then p else p.(view := ReduceJob(p.view, p.queue[0]), queue := p.queue[1..])
    case Restored(active) => if IsRunning(active) then Show(p, active.value) else p
    case Notify =>
      if p.view.Some? && p.view.value.phase != Running && p.notified != Some(p.view.value.id)
      then p.(notified := Some(p.view.value.id), ends := p.ends + [p.view.value.id]) else p
    case Start =>
      if p.starting.Idle? then p.(starting := Requested, requests := p.requests + 1, waiting := 1)
      else p.(waiting := p.waiting + 1)
    case Answered(job) => if p.starting.Requested? then Settle(Show(p, job), Started) else p
    case Refused(busy) =>
      if !p.starting.Requested? then p
      else if busy then p.(starting := Adopting) else Settle(p, StartFailed)
    case ActiveAnswer(active) =>
      if !p.starting.Adopting? then p
      else if IsRunning(active) then Settle(Show(p, active.value), Adopted) else Settle(p, StartFailed)
    case Dismiss => p.(view := ReduceJob(p.view, Reset))
  }

  function After(p: Page, inputs: seq<Input>): Page {
    if inputs == [] then p else Next(After(p, inputs[..|inputs| - 1]), inputs[|inputs| - 1])
  }

  /** The server sends the end of a job only once it has ended, and no snapshots or resets. */
  predicate FromServer(i: Input) {
    i.Message? ==> !i.event.Snapshot? && !i.event.Reset? && (i.event.Finishes? ==> i.event.view.phase != Running)
  }

  // ----- A job whose end was seen is not shown running -----

  /** If the page shows the last finished job as running, its end waits to be dispatched. */
  ghost predicate EndsReach(p: Page) {
    && (p.lastFinished.Some? ==> p.lastFinished.value.phase != Running)
    && (forall k :: 0 <= k < |p.queue| ==> FromServer(Message(p.queue[k])))
    && (p.lastFinished.Some? && IsRunning(p.view) && p.view.value.id == p.lastFinished.value.id ==> EndWaits(p))
  }

  ghost predicate EndWaits(p: Page) {
    p.lastFinished.Some? && exists k :: 0 <= k < |p.queue| && IsEnd(p.queue[k], p.lastFinished.value.id)
  }

  predicate IsEnd(e: Event, id: JobId) {
    e.Finishes? && e.view.id == id
  }

  lemma MessageReaches(p: Page, e: Event)
    requires EndsReach(p) && FromServer(Message(e))
    ensures EndsReach(Next(p, Message(e)))
  {
    var p' := Next(p, Message(e));
    if e.Finishes? {
      assert IsEnd(p'.queue[|p.queue|], p'.lastFinished.value.id);
    } else if EndWaits(p) {
      var k :| 0 <= k < |p.queue| && IsEnd(p.queue[k], p.lastFinished.value.id);
      assert IsEnd(p'.queue[k], p'.lastFinished.value.id);
    }
  }

  lemma DispatchReaches(p: Page)
    requires EndsReach(p) && p.queue != []
    ensures EndsReach(Next(p, Dispatch))
  {
    var p' := Next(p, Dispatch);
    assert FromServer(Message(p.queue[0]));
    forall k | 0 <= k < |p'.queue| ensures FromServer(Message(p'.queue[k])) {
      assert FromServer(Message(p.queue[k + 1]));
    }
    if p.lastFinished.Some? && IsRunning(p'.view) && p'.view.value.id == p.lastFinished.value.id {
      assert IsRunning(p.view) && p.view.value.id == p.lastFinished.value.id;
      assert !IsEnd(p.queue[0], p.lastFinished.value.id);
      var k :| 0 <= k < |p.queue| && IsEnd(p.queue[k], p.lastFinished.value.id);
      assert IsEnd(p'.queue[k - 1], p.lastFinished.value.id);
    }
  }

  lemma NextReaches(p: Page, i: Input)
    requires EndsReach(p) && FromServer(i)
    ensures EndsReach(Next(p, i))
  {
    match i {
      case Message(e) => MessageReaches(p, e);
      case Dispatch => if p.queue != [] { DispatchReaches(p); }
      case _ => OtherInputsReach(p, i);
    }
  }

  lemma OtherInputsReach(p: Page, i: Input)
    requires EndsReach(p) && !i.Message? && !i.Dispatch?
    ensures EndsReach(Next(p, i))
  {
    var p' := Next(p, i);
    assert p'.queue == p.queue && p'.lastFinished == p.lastFinished;
    if EndWaits(p) { assert EndWaits(p'); }
  }

  /** On every run of the page, once no dispatch is waiting, the last job seen to finish is not shown
      as running: whatever start or restore response came late, and whatever was missed. */
  lemma {:induction false} FinishedJobIsNotShownRunning(inputs: seq<Input>)
    requires forall k :: 0 <= k < |inputs| ==> FromServer(inputs[k])
    ensures EndsReach(After(NEW_PAGE, inputs))
    ensures var p := After(NEW_PAGE, inputs);
            p.queue == [] && p.lastFinished.Some? && p.view.Some? && p.view.value.id == p.lastFinished.value.id ==>
              p.view.value.phase != Running
  {
    if inputs != [] {
      FinishedJobIsNotShownRunning(inputs[..|inputs| - 1]);
      NextReaches(After(NEW_PAGE, inputs[..|inputs| - 1]), inputs[|inputs| - 1]);
    }
  }

  // ----- An answer that comes after its job ended -----

  /** The end of job id was seen, and no other job's end after it. */
  ghost predicate RemembersEnd(inputs: seq<Input>, id: JobId) {
    exists k :: 0 <= k < |inputs| && EndsAt(inputs, k, id)
  }

  /** The k-th input says that job id ended, and no later one that another did. */
  ghost predicate EndsAt(inputs: seq<Input>, k: nat, id: JobId)
    requires k < |inputs|
  {
    && IsEndMessage(inputs[k]) && inputs[k].event.view.id == id
    && forall m :: k < m < |inputs| && IsEndMessage(inputs[m]) ==> inputs[m].event.view.id == id
  }

  predicate IsEndMessage(i: Input) {
    i.Message? && i.event.Finishes?
  }

  lemma {:induction false} LastEndIsRemembered(inputs: seq<Input>, id: JobId)
    ensures var last := After(NEW_PAGE, inputs).lastFinished;
            RemembersEnd(inputs, id) <==> last.Some? && last.value.id == id
  {
    if inputs != [] {
      var n := |inputs| - 1;
      LastEndIsRemembered(inputs[..n], id);
      OneMoreInput(inputs, id);
    }
  }

  lemma OneMoreInput(inputs: seq<Input>, id: JobId)
    requires inputs != []
    ensures var n := |inputs| - 1;
            RemembersEnd(inputs, id) <==>
            if IsEndMessage(inputs[n]) then inputs[n].event.view.id == id else RemembersEnd(inputs[..n], id)
  {
    var n := |inputs| - 1;
    if IsEndMessage(inputs[n]) {
      if inputs[n].event.view.id == id { assert EndsAt(inputs, n, id); }
    } else if RemembersEnd(inputs[..n], id) {
      var k :| 0 <= k < n && EndsAt(inputs[..n], k, id);
      assert EndsAt(inputs, k, id);
    } else if RemembersEnd(inputs, id) {
      var k :| 0 <= k < |inputs| && EndsAt(inputs, k, id);
      assert EndsAt(inputs[..n], k, id);
    }
  }

  /** The job an answer brings in, if the page takes it over. */
  function BroughtBy(p: Page, i: Input): Option<View> {
    match i
    case Restored(active) => if IsRunning(active) then active else None
    case Answered(job) => if p.starting.Requested? then Some(job) else None
    case ActiveAnswer(active) => if p.starting.Adopting? && IsRunning(active) then active else None
    case _ => None
  }

  /** On every run of the page, an answer that brings in a job as running, with no dispatch waiting,
      leaves the job shown as ended exactly if it was shown so before, or its end was seen and no
      other job's end after it: only the last end is remembered. */
  lemma LateAnswersShowTheEnd(inputs: seq<Input>, i: Input, v: View)
    requires forall k :: 0 <= k < |inputs| ==> FromServer(inputs[k])
    requires After(NEW_PAGE, inputs).queue == []
    requires BroughtBy(After(NEW_PAGE, inputs), i) == Some(v) && v.phase == Running
    ensures var (p, p') := (After(NEW_PAGE, inputs), After(NEW_PAGE, inputs + [i]));
            EndOf(p'.view, v.id) <==> EndOf(p.view, v.id) || RemembersEnd(inputs, v.id)
  {
    var p := After(NEW_PAGE, inputs);
    FinishedJobIsNotShownRunning(inputs);
    LastEndIsRemembered(inputs, v.id);
    AfterOne(NEW_PAGE, inputs, i);
    assert Next(p, i).view == Show(p, v).view;
  }

  lemma AfterOne(p: Page, inputs: seq<Input>, i: Input)
    ensures After(p, inputs + [i]) == Next(After(p, inputs), i)
  {
    assert (inputs + [i])[..|inputs|] == inputs;
  }

  /** A page that started two jobs one after the other, saw both end, and then gets a late answer to
      its first question for a running job: it shows the first job as running, for good. */
  lemma ForgottenEndShowsRunning(a: View, endA: View, b: View, endB: View)
    requires a.phase == Running == b.phase && a.id != b.id && endA.id == a.id && endB.id == b.id
    requires endA.phase != Running && endB.phase != Running
    ensures var inputs := [Start, Answered(a), Message(Finishes(endA)), Dispatch,
                           Start, Answered(b), Message(Finishes(endB)), Dispatch, Restored(Some(a))];
            && (forall k :: 0 <= k < |inputs| ==> FromServer(inputs[k]))
            && After(NEW_PAGE, inputs).view == Some(a) && After(NEW_PAGE, inputs).queue == []
  {
    var first := JobRuns(NEW_PAGE, [], a, endA);
    var second := JobRuns(NEW_PAGE, first, b, endB);
    AfterOne(NEW_PAGE, second, Restored(Some(a)));
    assert second + [Restored(Some(a))] ==
           [Start, Answered(a), Message(Finishes(endA)), Dispatch,
            Start, Answered(b), Message(Finishes(endB)), Dispatch, Restored(Some(a))];
  }

  /** An idle page starts a job that is not shown, and sees it end. */
  lemma JobRuns(p: Page, inputs: seq<Input>, a: View, end: View) returns (more: seq<Input>)
    requires var q := After(p, inputs);
             && q.starting.Idle? && q.queue == []
             && !(q.view.Some? && q.view.value.id == a.id) && !(q.lastFinished.Some? && q.lastFinished.value.id == a.id)
    requires end.id == a.id
    ensures more == inputs + [Start, Answered(a), Message(Finishes(end)), Dispatch]
    ensures var q := After(p, more);
            q.starting.Idle? && q.queue == [] && q.view == Some(end) && q.lastFinished == Some(end)
  {
    more := inputs + [Start, Answered(a), Message(Finishes(end)), Dispatch];
    var asked := inputs + [Start];
    var shown := asked + [Answered(a)];
    var ended := shown + [Message(Finishes(end))];
    AfterOne(p, inputs, Start);
    AfterOne(p, asked, Answered(a));
    AfterOne(p, shown, Message(Finishes(end)));
    AfterOne(p, ended, Dispatch);
    assert After(p, ended).queue == [Finishes(end)];
    assert ended + [Dispatch] == more;
  }

  // ----- Starts are shared -----

  function Starts(inputs: seq<Input>): nat {
    if inputs == [] then 0 else Starts(inputs[..|inputs| - 1]) + if inputs[|inputs| - 1].Start? then 1 else 0
  }

  /** How many start requests the page waits for: none or one. */
  function InFlight(p: Page): nat {
    if p.starting.Idle? then 0 else 1
  }

  /** The answers that end a start. */
  predicate Ends(p: Page, i: Input) {
    || (p.starting.Requested? && (i.Answered? || (i.Refused? && !i.busy)))
    || (p.starting.Adopting? && i.ActiveAnswer?)
  }

  function Ended(p: Page, inputs: seq<Input>): nat {
    if inputs == [] then 0
    else
      var front := inputs[..|inputs| - 1];
      Ended(p, front) + if Ends(After(p, front), inputs[|inputs| - 1]) then 1 else 0
  }

  lemma NextSharesStarts(p: Page, i: Input)
    requires p.waiting > 0 <==> !p.starting.Idle?
    ensures var p' := Next(p, i);
            && p'.requests - InFlight(p') == p.requests - InFlight(p) + (if Ends(p, i) then 1 else 0)
            && |p'.outcomes| + p'.waiting == |p.outcomes| + p.waiting + (if i.Start? then 1 else 0)
            && (p'.waiting > 0 <==> !p'.starting.Idle?)
  {
  }

  /** At most one start request is in flight, and every start call is answered once or still waits:
      a second one while it is in flight shares it. */
  lemma {:induction false} StartsAreShared(inputs: seq<Input>)
    ensures var p := After(NEW_PAGE, inputs);
            && p.requests == Ended(NEW_PAGE, inputs) + InFlight(p)
            && |p.outcomes| + p.waiting == Starts(inputs)
            && (p.waiting > 0 <==> !p.starting.Idle?)
  {
    if inputs != [] {
      var front := inputs[..|inputs| - 1];
      StartsAreShared(front);
      NextSharesStarts(After(NEW_PAGE, front), inputs[|inputs| - 1]);
    }
  }

  /** The page's callers are told n more times how their start ended, and no start is in flight. */
  predicate AllTold(p: Page, p': Page, n: nat, o: StartOutcome) {
    && p'.outcomes == p.outcomes + seq(n, _ => o) && p'.waiting == 0 && p'.starting.Idle?
    && p'.requests == p.requests
  }

  /** The page takes in job v: as it is, or as its end if that was seen last. */
  predicate TakesIn(p: Page, p': Page, v: View) {
    p'.view == ReduceJob(p.view, Snapshot(if p.lastFinished.Some? && p.lastFinished.value.id == v.id
                                          then p.lastFinished.value else v))
  }

  /** On every run: a start makes a request, or shares the one in flight; a job that answers it is taken in
      and all who wait are told it started; after a refusal because the lane is busy a running job is
      taken in and they are told it was taken over; and in every other case they are told that the start
      failed, and the view stays. */
  lemma StartsAreAnswered(inputs: seq<Input>, job: View, active: Option<View>)
    ensures var p := After(NEW_PAGE, inputs);
            && (p.starting.Idle? ==>
                  && p.waiting == 0 && Next(p, Start).starting.Requested? && Next(p, Start).waiting == 1
                  && Next(p, Start).requests == p.requests + 1 && Next(p, Start).outcomes == p.outcomes)
            && (!p.starting.Idle? ==> p.waiting > 0 && Next(p, Start) == p.(waiting := p.waiting + 1))
            && (p.starting.Requested? ==>
                  && AllTold(p, Next(p, Answered(job)), p.waiting, Started) && TakesIn(p, Next(p, Answered(job)), job)
                  && Next(p, Refused(true)) == p.(starting := Adopting)
                  && AllTold(p, Next(p, Refused(false)), p.waiting, StartFailed)
                  && Next(p, Refused(false)).view == p.view)
            && (p.starting.Adopting? ==>
                  var p' := Next(p, ActiveAnswer(active));
                  if active.Some? && active.value.phase == Running then
                    AllTold(p, p', p.waiting, Adopted) && TakesIn(p, p', active.value)
                  else
                    AllTold(p, p', p.waiting, StartFailed) && p'.view == p.view)
  {
    StartsAreShared(inputs);
  }

  /** What the page makes of all else: as it opens it takes in a job only if that runs; a message of the end
      is remembered at once and shown by its own dispatch, in the order the messages came; closing the
      panel shows nothing. */
  lemma OthersAreAnswered(p: Page, active: Option<View>, e: Event)
    ensures var p' := Next(p, Restored(active));
            if active.Some? && active.value.phase == Running then TakesIn(p, p', active.value) else p' == p
    ensures Next(p, Message(e)) ==
            p.(lastFinished := if e.Finishes? then Some(e.view) else p.lastFinished, queue := p.queue + [e])
    ensures p.queue != [] ==> Next(p, Dispatch) == p.(view := ReduceJob(p.view, p.queue[0]), queue := p.queue[1..])
    ensures Next(p, Dismiss) == p.(view := None)
    ensures Next(p, Notify).ends == p.ends + if p.view.Some? && p.view.value.phase != Running &&
                                               p.notified != Some(p.view.value.id)
                                             then [p.view.value.id] else []
  {
  }

  // ----- The hook as a mutable object -----

  /** The fields are the hook's state and refs; queue holds its microtasks, ends the calls of
      onFinished, and outcomes what callers of start were answered. */
  class UseJob {
    var view: Option<View>
    var lastFinished: Option<View>
    var queue: seq<Event>
    var notified: Option<JobId>
    var ends: seq<JobId>
    var starting: Starting
    var requests: nat
    var waiting: nat
    var outcomes: seq<StartOutcome>

    ghost function Model(): Page
      reads this
    {
      Page(view, lastFinished, queue, notified, ends, starting, requests, waiting, outcomes)
    }

    constructor ()
      ensures Model() == NEW_PAGE
    {
      view, lastFinished, queue, notified, ends := None, None, [], None, [];
      starting, requests, waiting, outcomes := Idle, 0, 0, [];
    }

    method DispatchEvent(e: Event)
      modifies this`view
      ensures Model() == old(Model()).(view := ReduceJob(old(view), e))
    {
      view := ReduceJob(view, e);
    }

    method ShowView(v: View)
      modifies this`view
      ensures Model() == Show(old(Model()), v)
    {
      var shown := v;
      if lastFinished.Some? && lastFinished.value.id == v.id { shown := lastFinished.value; }
      DispatchEvent(Snapshot(shown));
    }

    method OnMessage(e: Event)
      modifies this`lastFinished, this`queue
      ensures Model() == Next(old(Model()), Message(e))
    {
      if e.Finishes? { lastFinished := Some(e.view); }
      queue := queue + [e];
    }

    method RunMicrotask()
      requires queue != []
      modifies this`view, this`queue
      ensures Model() == Next(old(Model()), Dispatch)
    {
      DispatchEvent(queue[0]);
      queue := queue[1..];
    }

    method NotifyEffect()
      modifies this`notified, this`ends
      ensures Model() == Next(old(Model()), Notify)
    {
      if view.None? || view.value.phase == Running || notified == Some(view.value.id) { return; }
      notified := Some(view.value.id);
      ends := ends + [view.value.id];
    }

    method StartJob()
      modifies this`starting, this`requests, this`waiting
      ensures Model() == Next(old(Model()), Start)
    {
      if starting.Idle? {
        starting, requests, waiting := Requested, requests + 1, 0;
      }
      waiting := waiting + 1;
    }

    method SettleStart(o: StartOutcome)
      modifies this`starting, this`waiting, this`outcomes
      ensures Model() == Settle(old(Model()), o)
    {
      outcomes := outcomes + seq(waiting, _ => o);
      starting, waiting := Idle, 0;
    }

    method OnStarted(job: View)
      requires starting.Requested?
      modifies this
      ensures Model() == Next(old(Model()), Answered(job))
    {
      ShowView(job);
      SettleStart(Started);
    }

    method OnRefused(busy: bool)
      requires starting.Requested?
      modifies this
      ensures Model() == Next(old(Model()), Refused(busy))
    {
      if !busy {
        SettleStart(StartFailed);
        return;
      }
      starting := Adopting;
    }

    method OnActive(active: Option<View>)
      requires starting.Adopting?
      modifies this
      ensures Model() == Next(old(Model()), ActiveAnswer(active))
    {
      if active.None? || active.value.phase != Running {
        SettleStart(StartFailed);
        return;
      }
      ShowView(active.value);
      SettleStart(Adopted);
    }
  }
}
