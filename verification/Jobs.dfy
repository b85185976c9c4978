/** One Job of a lane: what its record, its counters and its reports must be, given the items it
    listed and how each of them ended (internal/service/job_runner.go). */
module Jobs {
  import opened SegmentTable

  type JobId = nat

  datatype Item = Item(id: string, name: string)

  datatype Outcome = Success | Skip | Failure(error: string)

  datatype Status = Running | Completed | Failed | Cancelled

  datatype ItemError = ItemError(itemId: string, itemName: string, error: string)

  /** meta is the starter's own context: the Media Source or the Backfill kind. */
  datatype Job = Job(
    id: JobId, kind: string, meta: string, status: Status,
    total: nat, processed: nat, succeeded: nat, skipped: nat, failed: nat,
    current: Option<Item>, errors: seq<ItemError>, listError: Option<string>,
    startedAt: int, finishedAt: Option<int>)

  datatype Report =
    | ItemStarted(job: Job, item: Item, current: nat)
    | ItemDone(job: Job, item: Item, current: nat, outcome: Outcome)
    | ListingFailed(job: Job, error: string)
    | Finished(job: Job)

  /** What Start fixes about a job. */
  datatype Header = Header(id: JobId, kind: string, meta: string, startedAt: int)

  type Listing = Result<seq<Item>, string>

  // ----- The job's counters -----

  datatype Tally = Tally(succeeded: nat, skipped: nat, failed: nat)

  /** Counting one more outcome. */
  function Add(t: Tally, o: Outcome): Tally {
    match o
    case Success => t.(succeeded := t.succeeded + 1)
    case Skip => t.(skipped := t.skipped + 1)
    case Failure(_) => t.(failed := t.failed + 1)
  }

  function Count(done: seq<Outcome>): Tally {
    if done == [] then Tally(0, 0, 0) else Add(Count(done[..|done| - 1]), done[|done| - 1])
  }

  /** The positions of the items that failed. */
  function FailedAt(done: seq<Outcome>): seq<nat> {
    if done == [] then []
    else
      var n := |done| - 1;
      FailedAt(done[..n]) + if done[n].Failure? then [n] else []
  }

  function ErrorsOf(items: seq<Item>, done: seq<Outcome>): seq<ItemError>
    requires |done| <= |items|
  {
    if done == [] then []
    else
      var n := |done| - 1;
      ErrorsOf(items, done[..n]) +
      match done[n]
      case Failure(e) => [ItemError(items[n].id, items[n].name, e)]
      case _ => []
  }

  /** The job after the first |done| of items have run. */
  function JobAt(h: Header, items: seq<Item>, done: seq<Outcome>, current: Option<Item>): Job
    requires |done| <= |items|
  {
    var t := Count(done);
    Job(h.id, h.kind, h.meta, Running, |items|, |done|, t.succeeded, t.skipped, t.failed,
        current, ErrorsOf(items, done), None, h.startedAt, None)
  }

  lemma {:induction false} TalliesAddUp(done: seq<Outcome>)
    ensures var t := Count(done);
            t.succeeded + t.skipped + t.failed == |done| && t.failed == |FailedAt(done)|
  {
    if done != [] {
      TalliesAddUp(done[..|done| - 1]);
    }
  }

  lemma {:induction false} FailedPositions(done: seq<Outcome>)
    ensures forall i, j :: 0 <= i < j < |FailedAt(done)| ==> FailedAt(done)[i] < FailedAt(done)[j]
    ensures forall i :: i in FailedAt(done) <==> 0 <= i < |done| && done[i].Failure?
  {
    if done != [] {
      var n := |done| - 1;
      FailedPositions(done[..n]);
      assert FailedAt(done) == FailedAt(done[..n]) + if done[n].Failure? then [n] else [];
      assert forall i :: i in FailedAt(done) <==> i in FailedAt(done[..n]) || (i == n && done[n].Failure?);
      assert forall i :: 0 <= i < |FailedAt(done[..n])| ==> FailedAt(done[..n])[i] in FailedAt(done[..n]);
    }
  }

  /** The k-th error is that of the k-th failed item. */
  predicate ErrorOfItem(items: seq<Item>, done: seq<Outcome>, i: nat, error: ItemError)
    requires |done| <= |items|
  {
    i < |done| && done[i].Failure? && error == ItemError(items[i].id, items[i].name, done[i].error)
  }

  lemma {:induction false} ErrorsAreOfFailures(items: seq<Item>, done: seq<Outcome>)
    requires |done| <= |items|
    ensures |ErrorsOf(items, done)| == |FailedAt(done)|
    ensures forall k :: 0 <= k < |FailedAt(done)| ==>
              ErrorOfItem(items, done, FailedAt(done)[k], ErrorsOf(items, done)[k])
  {
    if done != [] {
      var n := |done| - 1;
      ErrorsAreOfFailures(items, done[..n]);
      forall k | 0 <= k < |FailedAt(done)|
        ensures ErrorOfItem(items, done, FailedAt(done)[k], ErrorsOf(items, done)[k])
      {
        if k < |FailedAt(done[..n])| {
          assert ErrorOfItem(items, done[..n], FailedAt(done[..n])[k], ErrorsOf(items, done[..n])[k]);
        }
      }
    }
  }

  function Successes(done: seq<Outcome>): set<nat> {
    set i: nat | i < |done| && done[i].Success?
  }

  function Skips(done: seq<Outcome>): set<nat> {
    set i: nat | i < |done| && done[i].Skip?
  }

  function Failures(done: seq<Outcome>): set<nat> {
    set i: nat | i < |done| && done[i].Failure?
  }

  lemma OneMoreSuccess(front: seq<Outcome>, o: Outcome)
    ensures |Successes(front + [o])| == |Successes(front)| + if o.Success? then 1 else 0
  {
    assert Successes(front + [o]) == if o.Success? then Successes(front) + {|front|} else Successes(front);
  }

  lemma OneMoreSkip(front: seq<Outcome>, o: Outcome)
    ensures |Skips(front + [o])| == |Skips(front)| + if o.Skip? then 1 else 0
  {
    assert Skips(front + [o]) == if o.Skip? then Skips(front) + {|front|} else Skips(front);
  }

  lemma OneMoreFailure(front: seq<Outcome>, o: Outcome)
    ensures |Failures(front + [o])| == |Failures(front)| + if o.Failure? then 1 else 0
  {
    assert Failures(front + [o]) == if o.Failure? then Failures(front) + {|front|} else Failures(front);
  }

  /** The counters are the numbers of items that succeeded, were skipped and failed. */
  lemma {:induction false} TalliesCount(done: seq<Outcome>)
    ensures Count(done) == Tally(|Successes(done)|, |Skips(done)|, |Failures(done)|)
  {
    if done != [] {
      var (n, front) := (|done| - 1, done[..|done| - 1]);
      TalliesCount(front);
      OneMoreSuccess(front, done[n]);
      OneMoreSkip(front, done[n]);
      OneMoreFailure(front, done[n]);
      assert done == front + [done[n]];
    }
  }

  /** The job has processed the first |done| of items, which ended as done says: the counts add up,
      and the errors are those of exactly the failed items, in order. */
  ghost predicate Accounts(job: Job, items: seq<Item>, done: seq<Outcome>) {
    && |done| <= |items| && job.total == |items| && job.processed == |done|
    && job.succeeded == |Successes(done)| && job.skipped == |Skips(done)| && job.failed == |Failures(done)|
    && job.succeeded + job.skipped + job.failed == job.processed
    && |job.errors| == job.failed == |FailedAt(done)|
    && (forall i, j :: 0 <= i < j < |FailedAt(done)| ==> FailedAt(done)[i] < FailedAt(done)[j])
    && (forall i :: i in FailedAt(done) <==> 0 <= i < |done| && done[i].Failure?)
    && (forall k :: 0 <= k < |FailedAt(done)| ==> ErrorOfItem(items, done, FailedAt(done)[k], job.errors[k]))
  }

  lemma CountsAddUp(h: Header, items: seq<Item>, done: seq<Outcome>, current: Option<Item>)
    requires |done| <= |items|
    ensures Accounts(JobAt(h, items, done, current), items, done)
  {
    TalliesAddUp(done);
    TalliesCount(done);
    FailedPositions(done);
    ErrorsAreOfFailures(items, done);
  }

  // ----- The job's reports -----

  /** A snapshot as the per-item reports carry it: without the errors. */
  function Brief(job: Job): Job {
    job.(errors := [])
  }

  function StartedReport(h: Header, items: seq<Item>, done: seq<Outcome>): Report
    requires |done| < |items|
  {
    var item := items[|done|];
    ItemStarted(Brief(JobAt(h, items, done, Some(item))), item, |done| + 1)
  }

  function DoneReport(h: Header, items: seq<Item>, done: seq<Outcome>): Report
    requires 0 < |done| <= |items|
  {
    var n := |done| - 1;
    ItemDone(Brief(JobAt(h, items, done, Some(items[n]))), items[n], |done|, done[n])
  }

  /** Both reports of each finished item, in item order. */
  function ItemTrace(h: Header, items: seq<Item>, done: seq<Outcome>): seq<Report>
    requires |done| <= |items|
  {
    if done == [] then []
    else
      var before := done[..|done| - 1];
      ItemTrace(h, items, before) + [StartedReport(h, items, before), DoneReport(h, items, done)]
  }

  function FailedListing(h: Header, error: string): Job {
    JobAt(h, [], [], None).(listError := Some(error))
  }

  function FailedReport(h: Header, error: string): Report {
    ListingFailed(Brief(FailedListing(h, error)).(status := Failed), error)
  }

  /** A finished job: what it listed, how each processed item ended, and whether it was cancelled. */
  datatype Record = Record(h: Header, listing: Listing, done: seq<Outcome>, cancelled: bool, finishedAt: int)

  ghost predicate ValidRecord(r: Record) {
    match r.listing
    case Ok(items) => if r.cancelled then |r.done| < |items| else |r.done| == |items|
    case Err(_) => r.done == [] && !r.cancelled
  }

  function FinalJob(r: Record): Job
    requires r.listing.Ok? ==> |r.done| <= |r.listing.value|
  {
    match r.listing
    case Ok(items) =>
      JobAt(r.h, items, r.done, None).(
        status := if r.cancelled then Cancelled else Completed, finishedAt := Some(r.finishedAt))
    case Err(error) => FailedListing(r.h, error).(status := Failed, finishedAt := Some(r.finishedAt))
  }

  /** The reports of a whole job: its items' and then the end, or the listing's failure and then
      the end. */
  function Trace(r: Record): seq<Report>
    requires r.listing.Ok? ==> |r.done| <= |r.listing.value|
  {
    (match r.listing
     case Ok(items) => ItemTrace(r.h, items, r.done)
     case Err(error) => [FailedReport(r.h, error)])
    + [Finished(FinalJob(r))]
  }

  /** The job is the one that was started, whatever has become of it. */
  predicate IsOf(job: Job, h: Header) {
    job.id == h.id && job.kind == h.kind && job.meta == h.meta && job.startedAt == h.startedAt
  }

  lemma {:induction false} ItemTraceReads(h: Header, items: seq<Item>, done: seq<Outcome>, k: nat)
    requires k < |done| <= |items|
    ensures |ItemTrace(h, items, done)| == 2 * |done|
    ensures ItemTrace(h, items, done)[2 * k] == StartedReport(h, items, done[..k])
    ensures ItemTrace(h, items, done)[2 * k + 1] == DoneReport(h, items, done[..k + 1])
  {
    var front := done[..|done| - 1];
    if k < |front| {
      ItemTraceReads(h, items, front, k);
      assert front[..k] == done[..k] && front[..k + 1] == done[..k + 1];
    } else {
      if front != [] { ItemTraceReads(h, items, front, 0); }
      assert done[..k + 1] == done;
    }
  }

  /** A job's trace has two reports of each processed item and one of the end. The k-th item's say which
      item starts and as the how manieth, with the counts before it; and then how it ended, with the
      counts up to it. */
  lemma TraceReads(r: Record, k: nat)
    requires ValidRecord(r) && r.listing.Ok? && k < |r.done|
    ensures |Trace(r)| == 2 * |r.done| + 1
    ensures var (items, started) := (r.listing.value, Trace(r)[2 * k]);
            && started.ItemStarted? && started.item == items[k] && started.current == k + 1
            && IsOf(started.job, r.h) && started.job.status == Running && started.job.total == |items|
            && started.job.processed == k && started.job.current == Some(items[k]) && started.job.errors == []
    ensures var (items, ended, upto) := (r.listing.value, Trace(r)[2 * k + 1], r.done[..k + 1]);
            && ended.ItemDone? && ended.item == items[k] && ended.current == k + 1 && ended.outcome == r.done[k]
            && IsOf(ended.job, r.h) && ended.job.status == Running && ended.job.total == |items|
            && ended.job.processed == k + 1 && ended.job.succeeded == |Successes(upto)|
            && ended.job.skipped == |Skips(upto)| && ended.job.failed == |Failures(upto)| && ended.job.errors == []
  {
    ItemTraceReads(r.h, r.listing.value, r.done, k);
    TalliesCount(r.done[..k + 1]);
  }

  /** The last report is the finished job: it accounts for what it processed and says how it ended; of a
      listing that failed it is all there is to say, after a report of the failure. */
  lemma FinalJobTells(r: Record)
    requires ValidRecord(r)
    ensures var job := FinalJob(r);
            && Trace(r)[|Trace(r)| - 1] == Finished(job) && IsOf(job, r.h)
            && job.finishedAt == Some(r.finishedAt) && job.current == None
            && match r.listing
               case Ok(items) =>
                 && Accounts(job, items, r.done) && job.listError == None
                 && job.status == if r.cancelled then Cancelled else Completed
               case Err(error) =>
                 && job.status == Failed && job.listError == Some(error)
                 && job.total == job.processed == job.succeeded == job.skipped == job.failed == 0 && job.errors == []
    ensures r.listing.Err? ==>
              && |Trace(r)| == 2 && Trace(r)[0].ListingFailed? && Trace(r)[0].error == r.listing.error
              && IsOf(Trace(r)[0].job, r.h) && Trace(r)[0].job.status == Failed
  {
    if r.listing.Ok? { CountsAddUp(r.h, r.listing.value, r.done, None); }
  }

  /** What the final status means. */
  lemma FinalStatus(r: Record)
    requires ValidRecord(r)
    ensures var job := FinalJob(r);
            && (job.status == Completed <==> job.processed == job.total && r.listing.Ok?)
            && (job.status == Cancelled <==> job.processed < job.total)
            && (job.status == Failed ==> job.total == 0 == job.processed && job.listError.Some?)
            && job.status != Running && job.current == None && job.finishedAt.Some?
  {
  }

  // ----- The runner as a mutable object -----

  datatype StartError = LaneBusy(runningKind: string)

  datatype CancelError = NotFound

  /** A lane: the latest job, whether it still holds the lane, and whether its cancel channel is
      closed; reported is what its reporters were told. */
  class JobRunner {
    var latest: Option<Job>
    var busy: bool
    var cancelClosed: bool
    var reported: seq<Report>

    constructor ()
      ensures latest == None && !busy && reported == []
    {
      latest, busy, cancelClosed, reported := None, false, false, [];
    }

    ghost predicate Valid()
      reads this
    {
      && (busy <==> latest.Some? && latest.value.status == Running)
      && (latest == None ==> !cancelClosed)
    }

    method Start(kind: string, meta: string, id: JobId, now: int) returns (r: Result<Job, StartError>)
      requires Valid()
      modifies this`latest, this`busy, this`cancelClosed
      ensures Valid()
      ensures old(busy) ==> latest == old(latest) && busy && cancelClosed == old(cancelClosed)
      ensures old(busy) ==> latest.Some? && r == Err(LaneBusy(latest.value.kind))
      ensures !old(busy) ==>
                && r == Ok(JobAt(Header(id, kind, meta, now), [], [], None)) && latest == Some(r.value)
                && busy && !cancelClosed
    {
      if busy {
        return Err(LaneBusy(latest.value.kind));
      }
      var job := Job(id, kind, meta, Running, 0, 0, 0, 0, 0, None, [], None, now, None);
      latest, busy, cancelClosed := Some(job), true, false;
      return Ok(job);
    }

    /** closes tells whether this call closed the cancel channel: never one already closed. */
    method Cancel(jobId: JobId) returns (r: Result<(), CancelError>, closes: bool)
      requires Valid()
      modifies this`cancelClosed
      ensures Valid()
      ensures r.Ok? <==> latest.Some? && latest.value.id == jobId
      ensures closes <==> r.Ok? && busy && !old(cancelClosed)
      ensures cancelClosed == (old(cancelClosed) || closes)
    {
      closes := false;
      if latest == None || latest.value.id != jobId {
        return Err(NotFound), false;
      }
      if latest.value.status != Running {
        return Ok(()), false;
      }
      if !cancelClosed {
        cancelClosed, closes := true, true;
      }
      r := Ok(());
    }

    /** The goroutine of a started job: listing is what Items returned, seen[i] whether the cancel
        channel was closed when the loop reached item i, and outcomes[i] how item i would end. */
    method Execute(h: Header, listing: Listing, seen: seq<bool>, outcomes: seq<Outcome>, now: int)
      returns (ghost r: Record)
      requires Valid() && busy && latest == Some(JobAt(h, [], [], None))
      requires listing.Ok? ==> |seen| == |outcomes| == |listing.value|
      modifies this`latest, this`busy, this`reported
      ensures Valid() && !busy
      ensures ValidRecord(r) && r.h == h && r.listing == listing && r.finishedAt == now
      ensures r.done <= outcomes && (forall i :: 0 <= i < |r.done| ==> !seen[i])
      ensures r.cancelled ==> seen[|r.done|]
      ensures latest == Some(FinalJob(r))
      ensures reported == old(reported) + Trace(r)
    {
      if listing.Err? {
        FailListing(h, listing.error);
        r := Record(h, listing, [], false, now);
        Finish(Failed, now, r);
        return;
      }
      var items := listing.value;
      latest := Some(latest.value.(total := |items|));
      var end;
      end, r := RunItems(h, items, seen, outcomes, now);
      Finish(end, now, r);
    }

    /** The loop over the items, left at the first at which the cancel channel is seen closed. */
    method RunItems(ghost h: Header, items: seq<Item>, seen: seq<bool>, outcomes: seq<Outcome>, ghost now: int)
      returns (end: Status, ghost r: Record)
      requires |seen| == |outcomes| == |items| && latest == Some(JobAt(h, items, [], None))
      modifies this`latest, this`reported
      ensures r == Record(h, Ok(items), r.done, end == Cancelled, now) && ValidRecord(r)
      ensures end in {Completed, Cancelled}
      ensures r.done <= outcomes && (forall j :: 0 <= j < |r.done| ==> !seen[j])
      ensures r.cancelled ==> seen[|r.done|]
      ensures latest.Some? && latest.value.(current := None) == JobAt(h, items, r.done, None)
      ensures reported == old(reported) + ItemTrace(h, items, r.done)
    {
      var i := 0;
      end := Completed;
      ghost var current: Option<Item> := None;
      assert outcomes[..0] == [];
      while i < |items|
        invariant 0 <= i <= |items|
        invariant end == Completed
        invariant latest == Some(JobAt(h, items, outcomes[..i], current))
        invariant reported == old(reported) + ItemTrace(h, items, outcomes[..i])
        invariant forall j :: 0 <= j < i ==> !seen[j]
      {
        if seen[i] {
          end := Cancelled;
          break;
        }
        RunItem(h, items, outcomes, i, current);
        current := Some(items[i]);
        assert outcomes[..i + 1][..i] == outcomes[..i];
        i := i + 1;
      }
      r := Record(h, Ok(items), outcomes[..i], end == Cancelled, now);
    }

    method FailListing(ghost h: Header, error: string)
      requires latest == Some(JobAt(h, [], [], None))
      modifies this`latest, this`reported
      ensures latest == Some(FailedListing(h, error)) && reported == old(reported) + [FailedReport(h, error)]
    {
      latest := Some(latest.value.(listError := Some(error)));
      reported := reported + [ListingFailed(latest.value.(errors := [], status := Failed), error)];
    }

    method RunItem(ghost h: Header, items: seq<Item>, outcomes: seq<Outcome>, i: nat, ghost current: Option<Item>)
      requires i < |items| == |outcomes|
      requires latest == Some(JobAt(h, items, outcomes[..i], current))
      modifies this`latest, this`reported
      ensures latest == Some(JobAt(h, items, outcomes[..i + 1], Some(items[i])))
      ensures reported == old(reported) +
                [StartedReport(h, items, outcomes[..i]), DoneReport(h, items, outcomes[..i + 1])]
    {
      var it, outcome := items[i], outcomes[i];
      ghost var done := outcomes[..i + 1];
      assert done[..|done| - 1] == outcomes[..i] && done[|done| - 1] == outcome;
      latest := Some(latest.value.(current := Some(it)));
      reported := reported + [ItemStarted(latest.value.(errors := []), it, i + 1)];
      var job := latest.value.(processed := i + 1);
      match outcome {
        case Skip => job := job.(skipped := job.skipped + 1);
        case Failure(e) =>
          job := job.(failed := job.failed + 1, errors := job.errors + [ItemError(it.id, it.name, e)]);
        case Success => job := job.(succeeded := job.succeeded + 1);
      }
      assert Count(done) == Add(Count(outcomes[..i]), outcome);
      assert ErrorsOf(items, done) == job.errors;
      latest := Some(job);
      reported := reported + [ItemDone(job.(errors := []), it, i + 1, outcome)];
    }

    /** Report the end, then record it and free the lane. */
    method Finish(end: Status, now: int, ghost r: Record)
      requires ValidRecord(r) && latest.Some? && end == FinalJob(r).status && now == r.finishedAt
      requires latest.value.(current := None) == FinalJob(r).(status := Running, finishedAt := None)
      modifies this`latest, this`busy, this`reported
      ensures latest == Some(FinalJob(r)) && !busy
      ensures reported == old(reported) + [Finished(FinalJob(r))]
    {
      var final := latest.value.(finishedAt := Some(now), current := None, status := end);
      reported := reported + [Finished(final)];
      latest := Some(final);
      busy := false;
    }
  }
}
