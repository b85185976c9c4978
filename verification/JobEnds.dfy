/** How often onFinished learns of each job's end (web/src/hooks/useJob.ts): the page remembers only the
    last job it reported. */
module JobEnds {
  import opened SegmentTable
  import opened Jobs
  import opened JobView

  // ----- Ends are reported once -----

  predicate Alternates(ends: seq<JobId>) {
    forall k :: 0 < k < |ends| ==> Differs(ends, k)
  }

  predicate Differs(ends: seq<JobId>, k: nat)
    requires 0 < k < |ends|
  {
    ends[k] != ends[k - 1]
  }

  /** No end is reported twice in a row, and a finished view is reported by the next effect. */
  lemma {:induction false} EndsDoNotRepeat(inputs: seq<Input>)
    ensures var p := After(NEW_PAGE, inputs);
            && Alternates(p.ends)
            && p.notified == (if p.ends == [] then None else Some(p.ends[|p.ends| - 1]))
            && (p.view.Some? && p.view.value.phase != Running ==> Next(p, Notify).notified == Some(p.view.value.id))
  {
    if inputs != [] {
      var p := After(NEW_PAGE, inputs[..|inputs| - 1]);
      EndsDoNotRepeat(inputs[..|inputs| - 1]);
      NotifyAlternates(p, inputs[|inputs| - 1]);
    }
  }

  lemma NotifyAlternates(p: Page, i: Input)
    requires Alternates(p.ends) && p.notified == if p.ends == [] then None else Some(p.ends[|p.ends| - 1])
    ensures var p' := Next(p, i);
            Alternates(p'.ends) && p'.notified == if p'.ends == [] then None else Some(p'.ends[|p'.ends| - 1])
  {
    var p' := Next(p, i);
    forall k | 0 < k < |p'.ends| ensures Differs(p'.ends, k) {
      if k < |p.ends| { assert Differs(p.ends, k); }
    }
  }

  // ----- When each end is reported at most once -----

  /** The jobs that answers brought in, in order. */
  function Brought(inputs: seq<Input>): seq<JobId> {
    if inputs == [] then []
    else
      var (front, last) := (inputs[..|inputs| - 1], inputs[|inputs| - 1]);
      Brought(front) + IdBroughtBy(After(NEW_PAGE, front), last)
  }

  function IdBroughtBy(p: Page, i: Input): seq<JobId> {
    match BroughtBy(p, i) case Some(v) => [v.id] case None => []
  }

  /** No job comes back after another one. */
  predicate NoneReturns(ids: seq<JobId>) {
    |ids| <= 1 ||
    var (front, last) := (ids[..|ids| - 1], ids[|ids| - 1]);
    NoneReturns(front) && (last == front[|front| - 1] || last !in front)
  }

  predicate Once(ids: seq<JobId>) {
    forall j, k :: 0 <= j < k < |ids| ==> ids[j] != ids[k]
  }

  ghost predicate AllFromServer(inputs: seq<Input>) {
    forall k :: 0 <= k < |inputs| ==> FromServer(inputs[k])
  }

  /** The page shows the last job brought in, if any; and if that job's end was reported, it was the
      last one reported. */
  ghost predicate ReportsInOrder(p: Page, ids: seq<JobId>) {
    && (p.view.Some? ==> ids != [] && p.view.value.id == ids[|ids| - 1])
    && (forall k :: 0 <= k < |p.queue| ==> FromServer(Message(p.queue[k])))
    && (forall id :: id in p.ends ==> id in ids)
    && Once(p.ends)
    && p.notified == (if p.ends == [] then None else Some(p.ends[|p.ends| - 1]))
    && (ids != [] && ids[|ids| - 1] in p.ends ==> p.notified == Some(ids[|ids| - 1]))
  }

  lemma NextReportsInOrder(p: Page, i: Input, ids: seq<JobId>)
    requires ReportsInOrder(p, ids) && FromServer(i) && BroughtBy(p, i) == None
    ensures ReportsInOrder(Next(p, i), ids)
  {
    if i.Dispatch? && p.queue != [] { assert FromServer(Message(p.queue[0])); }
    var p' := Next(p, i);
    forall k | 0 <= k < |p'.queue| ensures FromServer(Message(p'.queue[k])) {
      if i.Dispatch? && p.queue != [] { assert FromServer(Message(p.queue[k + 1])); }
    }
  }

  lemma BringReportsInOrder(p: Page, i: Input, ids: seq<JobId>)
    requires ReportsInOrder(p, ids) && BroughtBy(p, i).Some? && NoneReturns(ids + [BroughtBy(p, i).value.id])
    ensures ReportsInOrder(Next(p, i), ids + [BroughtBy(p, i).value.id])
  {
    var id := BroughtBy(p, i).value.id;
    assert (ids + [id])[..|ids|] == ids;
  }

  lemma StepReportsInOrder(p: Page, i: Input, ids: seq<JobId>)
    requires FromServer(i) && NoneReturns(ids + IdBroughtBy(p, i)) && ReportsInOrder(p, ids)
    ensures ReportsInOrder(Next(p, i), ids + IdBroughtBy(p, i))
  {
    if BroughtBy(p, i).Some? {
      BringReportsInOrder(p, i, ids);
    } else {
      assert ids + [] == ids;
      NextReportsInOrder(p, i, ids);
    }
  }

  lemma {:induction false} RunReportsInOrder(inputs: seq<Input>)
    requires AllFromServer(inputs) && NoneReturns(Brought(inputs))
    ensures ReportsInOrder(After(NEW_PAGE, inputs), Brought(inputs))
  {
    if inputs != [] {
      var (front, last) := (inputs[..|inputs| - 1], inputs[|inputs| - 1]);
      var p := After(NEW_PAGE, front);
      NoneReturnedBefore(Brought(front), IdBroughtBy(p, last));
      RunReportsInOrder(front);
      StepReportsInOrder(p, last, Brought(front));
    }
  }

  lemma NoneReturnedBefore(ids: seq<JobId>, more: seq<JobId>)
    requires NoneReturns(ids + more) && |more| <= 1
    ensures NoneReturns(ids)
  {
    if more == [] {
      assert ids + more == ids;
    } else {
      assert (ids + more)[..|ids|] == ids;
    }
  }

  /** ids without successive repetitions. */
  function Changes(ids: seq<JobId>): seq<JobId> {
    if ids == [] then []
    else
      var (front, last) := (ids[..|ids| - 1], ids[|ids| - 1]);
      Changes(front) + if front != [] && front[|front| - 1] == last then [] else [last]
  }

  lemma {:induction false} ChangesMembers(ids: seq<JobId>)
    ensures forall id :: id in Changes(ids) <==> id in ids
    ensures ids != [] ==> Changes(ids) != [] && Changes(ids)[|Changes(ids)| - 1] == ids[|ids| - 1]
  {
    if ids != [] {
      ChangesMembers(ids[..|ids| - 1]);
      assert ids == ids[..|ids| - 1] + [ids[|ids| - 1]];
    }
  }

  lemma OneInput(inputs: seq<Input>, i: Input)
    ensures After(NEW_PAGE, inputs + [i]) == Next(After(NEW_PAGE, inputs), i)
    ensures Brought(inputs + [i]) == Brought(inputs) + IdBroughtBy(After(NEW_PAGE, inputs), i)
  {
    AfterOne(NEW_PAGE, inputs, i);
    assert (inputs + [i])[..|inputs|] == inputs;
  }

  lemma Assoc<T>(a: seq<T>, b: seq<T>, c: seq<T>)
    ensures a + b + c == a + (b + c)
  {
  }

  lemma AppendTwo<T>(a: seq<T>, x: T, y: T)
    ensures a + [x, y] == a + [x] + [y]
  {
  }

  lemma AppendThree<T>(a: seq<T>, x: T, y: T, z: T)
    ensures a + [x, y, z] == a + [x, y] + [z]
  {
  }

  lemma TwoInputs(inputs: seq<Input>, i: Input, j: Input)
    ensures var p := After(NEW_PAGE, inputs);
            && After(NEW_PAGE, inputs + [i, j]) == Next(Next(p, i), j)
            && Brought(inputs + [i, j]) == Brought(inputs) + (IdBroughtBy(p, i) + IdBroughtBy(Next(p, i), j))
  {
    OneInput(inputs, i);
    OneInput(inputs + [i], j);
    AppendTwo(inputs, i, j);
    Assoc(Brought(inputs), IdBroughtBy(After(NEW_PAGE, inputs), i), IdBroughtBy(After(NEW_PAGE, inputs + [i]), j));
  }

  lemma ThreeInputs(inputs: seq<Input>, i: Input, j: Input, k: Input)
    ensures var p := After(NEW_PAGE, inputs);
            && After(NEW_PAGE, inputs + [i, j, k]) == Next(Next(Next(p, i), j), k)
            && Brought(inputs + [i, j, k]) ==
               Brought(inputs) + (IdBroughtBy(p, i) + IdBroughtBy(Next(p, i), j) + IdBroughtBy(Next(Next(p, i), j), k))
  {
    var p := After(NEW_PAGE, inputs);
    var q := Next(p, i);
    TwoInputs(inputs, i, j);
    OneInput(inputs + [i, j], k);
    AppendThree(inputs, i, j, k);
    Assoc(Brought(inputs), IdBroughtBy(p, i) + IdBroughtBy(q, j), IdBroughtBy(Next(q, j), k));
  }

  /** The two inputs cannot both come: they say the same of one job, that it failed, that it finished
      or that it was started; or both answer the question that a page asks once, as it opens. */
  predicate Clash(i: Input, j: Input) {
    match (i, j)
    case (Message(Fails(a)), Message(Fails(b))) => a == b
    case (Message(Finishes(v)), Message(Finishes(w))) => v.id == w.id
    case (Answered(v), Answered(w)) => v.id == w.id
    case (Restored(_), Restored(_)) => true
    case _ => false
  }

  /** Messages come from the server, and a start that is answered has started a running job. */
  predicate Possible(i: Input) {
    FromServer(i) && (i.Answered? ==> i.job.phase == Running)
  }

  /** The inputs a page can get: each is possible, no two clash. */
  ghost predicate Plausible(inputs: seq<Input>) {
    && (forall k :: 0 <= k < |inputs| ==> Possible(inputs[k]))
    && forall j, k :: 0 <= j < k < |inputs| ==> !Clash(inputs[j], inputs[k])
  }

  function RunningView(id: JobId): View {
    View(id, Running, Counts(0, 0, 0, 0, 0), "", [], "")
  }

  function EndView(id: JobId): View {
    RunningView(id).(phase := Completed)
  }

  /** A page starts a new job id, which then ends, x by finishing and every other job by failing; or it
      tries to start one, and takes over job id, which its view shows already and has ended. */
  function Visit(before: seq<JobId>, id: JobId, x: JobId): seq<Input> {
    if id in before then Adoption(id) + [Notify]
    else [Start, Answered(RunningView(id)), Message(LastWord(id, x)), Dispatch, Notify]
  }

  /** A start is refused on a busy lane, and the page takes over the job that holds it. */
  function Adoption(id: JobId): seq<Input> {
    [Start, Refused(true), ActiveAnswer(Some(RunningView(id)))]
  }

  function LastWord(id: JobId, x: JobId): Event {
    if id == x then Finishes(EndView(id)) else Fails(id)
  }

  function Visits(ids: seq<JobId>, x: JobId): seq<Input> {
    if ids == [] then []
    else
      var (front, last) := (ids[..|ids| - 1], ids[|ids| - 1]);
      Visits(front, x) + Visit(front, last, x)
  }

  /** What a page that visited ids has shown and reported. */
  ghost predicate Visited(p: Page, ids: seq<JobId>, x: JobId) {
    && p.queue == [] && p.starting.Idle? && p.ends == Changes(ids)
    && p.lastFinished == (if x in ids then Some(EndView(x)) else None)
    && p.notified == (if ids == [] then None else Some(ids[|ids| - 1]))
    && if ids == [] then p.view == None else EndOf(p.view, ids[|ids| - 1])
  }

  /** What leaves a page's queue and its reports alone, and shows job id. */
  ghost predicate BringsIn(p: Page, q: Page, id: JobId) {
    && q.view == Show(p, RunningView(id)).view && q.queue == p.queue && q.starting.Idle?
    && q.ends == p.ends && q.notified == p.notified && q.lastFinished == p.lastFinished
  }

  lemma AdoptionBringsIn(p: Page, id: JobId)
    requires p.starting.Idle?
    ensures var (q, r) := (Next(p, Start), Next(Next(p, Start), Refused(true)));
            var answer := ActiveAnswer(Some(RunningView(id)));
            && BringsIn(p, Next(r, answer), id)
            && IdBroughtBy(p, Start) == [] == IdBroughtBy(q, Refused(true)) && IdBroughtBy(r, answer) == [id]
  {
  }

  /** The page takes over job id. */
  lemma Adopts(inputs: seq<Input>, id: JobId)
    requires After(NEW_PAGE, inputs).starting.Idle?
    ensures BringsIn(After(NEW_PAGE, inputs), After(NEW_PAGE, inputs + Adoption(id)), id)
    ensures Brought(inputs + Adoption(id)) == Brought(inputs) + [id]
  {
    AdoptionBringsIn(After(NEW_PAGE, inputs), id);
    ThreeInputs(inputs, Start, Refused(true), ActiveAnswer(Some(RunningView(id))));
  }

  lemma VisitKnown(inputs: seq<Input>, before: seq<JobId>, id: JobId, x: JobId)
    requires Visited(After(NEW_PAGE, inputs), before, x) && before != [] && before[|before| - 1] == id
    ensures Visited(After(NEW_PAGE, inputs + Visit(before, id, x)), before + [id], x)
    ensures Brought(inputs + Visit(before, id, x)) == Brought(inputs) + [id]
  {
    Adopts(inputs, id);
    OneInput(inputs + Adoption(id), Notify);
    assert inputs + Visit(before, id, x) == inputs + Adoption(id) + [Notify];
    assert (before + [id])[..|before|] == before;
  }

  lemma StartBringsIn(p: Page, id: JobId)
    requires p.starting.Idle?
    ensures var (q, answer) := (Next(p, Start), Answered(RunningView(id)));
            BringsIn(p, Next(q, answer), id) && IdBroughtBy(p, Start) == [] && IdBroughtBy(q, answer) == [id]
  {
  }

  /** The page starts job id. */
  lemma Starts(inputs: seq<Input>, id: JobId)
    requires After(NEW_PAGE, inputs).starting.Idle?
    ensures var started := inputs + [Start, Answered(RunningView(id))];
            && BringsIn(After(NEW_PAGE, inputs), After(NEW_PAGE, started), id)
            && Brought(started) == Brought(inputs) + [id]
  {
    StartBringsIn(After(NEW_PAGE, inputs), id);
    TwoInputs(inputs, Start, Answered(RunningView(id)));
  }

  /** Messages, dispatches and effects bring nothing in. */
  lemma Ends(inputs: seq<Input>, e: Event)
    ensures var (p, more) := (After(NEW_PAGE, inputs), inputs + [Message(e), Dispatch, Notify]);
            && After(NEW_PAGE, more) == Next(Next(Next(p, Message(e)), Dispatch), Notify)
            && Brought(more) == Brought(inputs)
  {
    ThreeInputs(inputs, Message(e), Dispatch, Notify);
    assert Brought(inputs) + [] == Brought(inputs);
  }

  lemma VisitNew(inputs: seq<Input>, before: seq<JobId>, id: JobId, x: JobId)
    requires Visited(After(NEW_PAGE, inputs), before, x) && id !in before
    ensures Visited(After(NEW_PAGE, inputs + Visit(before, id, x)), before + [id], x)
    ensures Brought(inputs + Visit(before, id, x)) == Brought(inputs) + [id]
  {
    var started := inputs + [Start, Answered(RunningView(id))];
    Starts(inputs, id);
    Ends(started, LastWord(id, x));
    assert inputs + Visit(before, id, x) == started + [Message(LastWord(id, x)), Dispatch, Notify];
    VisitedNew(After(NEW_PAGE, inputs), After(NEW_PAGE, started), before, id, x);
  }

  lemma VisitedNew(p: Page, q: Page, before: seq<JobId>, id: JobId, x: JobId)
    requires Visited(p, before, x) && id !in before && BringsIn(p, q, id)
    ensures Visited(Next(Next(Next(q, Message(LastWord(id, x))), Dispatch), Notify), before + [id], x)
  {
    BringsNew(p, before, id, x);
    ShownEnds(q, id, LastWord(id, x));
    assert (before + [id])[..|before|] == before;
  }

  lemma BringsNew(p: Page, before: seq<JobId>, id: JobId, x: JobId)
    requires Visited(p, before, x) && id !in before
    ensures Show(p, RunningView(id)).view == Some(RunningView(id))
  {
  }

  /** A page that shows job id as running gets its end, dispatches it and reports it. */
  lemma ShownEnds(p: Page, id: JobId, e: Event)
    requires p.view == Some(RunningView(id)) && p.queue == [] && p.notified != Some(id)
    requires e == Finishes(EndView(id)) || e == Fails(id)
    ensures var q := Next(Next(Next(p, Message(e)), Dispatch), Notify);
            && q.queue == [] && EndOf(q.view, id) && q.notified == Some(id) && q.ends == p.ends + [id]
            && q.starting == p.starting
            && q.lastFinished == if e.Finishes? then Some(EndView(id)) else p.lastFinished
  {
    assert Next(p, Message(e)).queue == [e];
  }

  lemma VisitReports(inputs: seq<Input>, ids: seq<JobId>, x: JobId)
    requires ids != [] && NoneReturns(ids)
    requires var front := ids[..|ids| - 1]; Visited(After(NEW_PAGE, inputs), front, x) && Brought(inputs) == front
    ensures var visited := inputs + Visit(ids[..|ids| - 1], ids[|ids| - 1], x);
            Visited(After(NEW_PAGE, visited), ids, x) && Brought(visited) == ids
  {
    var (front, last) := (ids[..|ids| - 1], ids[|ids| - 1]);
    assert front + [last] == ids;
    if last in front {
      VisitKnown(inputs, front, last, x);
    } else {
      VisitNew(inputs, front, last, x);
    }
  }

  ghost predicate Told(ids: seq<JobId>, x: JobId) {
    Visited(After(NEW_PAGE, Visits(ids, x)), ids, x) && Brought(Visits(ids, x)) == ids
  }

  lemma OneMoreVisit(ids: seq<JobId>, x: JobId)
    requires ids != [] && NoneReturns(ids) && Told(ids[..|ids| - 1], x)
    ensures Told(ids, x)
  {
    VisitReports(Visits(ids[..|ids| - 1], x), ids, x);
  }

  lemma {:induction false} VisitsReport(ids: seq<JobId>, x: JobId)
    requires NoneReturns(ids)
    ensures Told(ids, x)
  {
    if ids != [] {
      VisitsReport(ids[..|ids| - 1], x);
      OneMoreVisit(ids, x);
    }
  }

  /** Inputs that end or start only jobs of ids, and are not what a page asks as it opens. */
  ghost predicate Concern(inputs: seq<Input>, ids: seq<JobId>) {
    forall i :: i in inputs ==>
      && !i.Restored? && (i.Answered? ==> i.job.id in ids)
      && (i.Message? ==>
            && (i.event.Fails? ==> i.event.jobId in ids) && (i.event.Finishes? ==> i.event.view.id in ids))
  }

  lemma {:induction false} VisitsArePlausible(ids: seq<JobId>, x: JobId)
    ensures Plausible(Visits(ids, x)) && Concern(Visits(ids, x), ids)
  {
    if ids != [] {
      var (front, last) := (ids[..|ids| - 1], ids[|ids| - 1]);
      VisitsArePlausible(front, x);
      VisitIsPlausible(Visits(front, x), front, last, x);
      assert front + [last] == ids;
    }
  }

  lemma VisitIsPlausible(inputs: seq<Input>, before: seq<JobId>, id: JobId, x: JobId)
    requires Plausible(inputs) && Concern(inputs, before)
    ensures Plausible(inputs + Visit(before, id, x)) && Concern(inputs + Visit(before, id, x), before + [id])
  {
    var visit := Visit(before, id, x);
    forall j, k | 0 <= j < |inputs| && 0 <= k < |visit| ensures !Clash(inputs[j], visit[k]) {
      assert inputs[j] in inputs && visit[k] in visit;
    }
    JoinedIsPlausible(inputs, visit);
  }

  lemma JoinedIsPlausible(a: seq<Input>, b: seq<Input>)
    requires Plausible(a) && Plausible(b)
    requires forall j, k :: 0 <= j < |a| && 0 <= k < |b| ==> !Clash(a[j], b[k])
    ensures Plausible(a + b)
  {
    forall j, k | 0 <= j < k < |a + b| ensures !Clash((a + b)[j], (a + b)[k]) {
      if j < |a| <= k { assert !Clash(a[j], b[k - |a|]); }
    }
  }

  /** After inputs, the page takes over one job after another, and nothing else happens. */
  function AdoptAll(inputs: seq<Input>, ids: seq<JobId>): seq<Input> {
    if ids == [] then inputs else AdoptAll(inputs, ids[..|ids| - 1]) + Adoption(ids[|ids| - 1])
  }

  lemma {:induction false} AdoptAllIsPlausible(inputs: seq<Input>, ids: seq<JobId>)
    requires Plausible(inputs)
    ensures Plausible(AdoptAll(inputs, ids))
  {
    if ids != [] {
      AdoptAllIsPlausible(inputs, ids[..|ids| - 1]);
      JoinedIsPlausible(AdoptAll(inputs, ids[..|ids| - 1]), Adoption(ids[|ids| - 1]));
    }
  }

  /** By the end of inputs nothing is being started, ids were brought in and ends reported. */
  ghost predicate Tells(inputs: seq<Input>, ids: seq<JobId>, ends: seq<JobId>) {
    var p := After(NEW_PAGE, inputs);
    p.starting.Idle? && p.ends == ends && Brought(inputs) == ids
  }

  lemma AdoptionTells(inputs: seq<Input>, ids: seq<JobId>, ends: seq<JobId>, id: JobId)
    requires Tells(inputs, ids, ends)
    ensures Tells(inputs + Adoption(id), ids + [id], ends)
  {
    Adopts(inputs, id);
  }

  lemma {:induction false} AdoptAllTells(inputs: seq<Input>, before: seq<JobId>, ends: seq<JobId>, ids: seq<JobId>)
    requires Tells(inputs, before, ends)
    ensures Tells(AdoptAll(inputs, ids), before + ids, ends)
  {
    if ids == [] {
      assert before + [] == before;
    } else {
      var (front, last) := (ids[..|ids| - 1], ids[|ids| - 1]);
      AdoptAllTells(inputs, before, ends, front);
      AdoptionTells(AdoptAll(inputs, front), before + front, ends, last);
      FrontAndLast(before, ids);
    }
  }

  lemma FrontAndLast(before: seq<JobId>, ids: seq<JobId>)
    requires ids != []
    ensures before + ids == before + ids[..|ids| - 1] + [ids[|ids| - 1]]
  {
  }

  /** Where the first job comes back. */
  lemma {:induction false} FirstReturn(ids: seq<JobId>) returns (n: nat)
    requires !NoneReturns(ids)
    ensures 0 < n < |ids| && NoneReturns(ids[..n]) && ids[n] in ids[..n] && ids[n] != ids[n - 1]
  {
    var front := ids[..|ids| - 1];
    if NoneReturns(front) {
      n := |ids| - 1;
    } else {
      n := FirstReturn(front);
      assert front[..n] == ids[..n];
    }
  }

  /** The answer to the question the page asked as it opened comes last, and brings x in again. */
  function Return(x: JobId): seq<Input> {
    [Restored(Some(RunningView(x))), Notify]
  }

  lemma ReturnIsPlausible(ids: seq<JobId>, x: JobId)
    ensures Plausible(Visits(ids, x) + Return(x))
  {
    VisitsArePlausible(ids, x);
    var visits := Visits(ids, x);
    forall j, k | 0 <= j < |visits| && 0 <= k < |Return(x)| ensures !Clash(visits[j], Return(x)[k]) {
      assert visits[j] in visits;
    }
    JoinedIsPlausible(visits, Return(x));
  }

  lemma ReturnIsReported(p: Page, ids: seq<JobId>, x: JobId)
    requires Visited(p, ids, x) && x in ids && ids[|ids| - 1] != x
    ensures var bring := Restored(Some(RunningView(x)));
            var q := Next(p, bring);
            && IdBroughtBy(p, bring) == [x] && IdBroughtBy(q, Notify) == []
            && Next(q, Notify).ends == p.ends + [x] && Next(q, Notify).starting.Idle?
  {
  }

  lemma ReturnTells(inputs: seq<Input>, ids: seq<JobId>, x: JobId)
    requires Visited(After(NEW_PAGE, inputs), ids, x) && Brought(inputs) == ids && x in ids && ids[|ids| - 1] != x
    ensures Tells(inputs + Return(x), ids + [x], Changes(ids) + [x])
  {
    TwoInputs(inputs, Restored(Some(RunningView(x))), Notify);
    ReturnIsReported(After(NEW_PAGE, inputs), ids, x);
    assert [x] + [] == [x];
  }

  lemma ReturnReportsAgain(ids: seq<JobId>, x: JobId)
    requires NoneReturns(ids) && x in ids && ids[|ids| - 1] != x
    ensures Plausible(Visits(ids, x) + Return(x)) && Tells(Visits(ids, x) + Return(x), ids + [x], Changes(ids) + [x])
  {
    ReturnIsPlausible(ids, x);
    VisitsReport(ids, x);
    ReturnTells(Visits(ids, x), ids, x);
  }

  lemma ReportedAgain(ids: seq<JobId>, x: JobId)
    requires x in ids
    ensures !Once(Changes(ids) + [x])
  {
    ChangesMembers(ids);
    var ends := Changes(ids);
    var j :| 0 <= j < |ends| && ends[j] == x;
    assert (ends + [x])[j] == (ends + [x])[|ends|];
  }

  lemma ReturningIsReportedAgain(ids: seq<JobId>) returns (inputs: seq<Input>)
    requires !NoneReturns(ids)
    ensures Plausible(inputs) && Brought(inputs) == ids && !Once(After(NEW_PAGE, inputs).ends)
  {
    var n := FirstReturn(ids);
    var upto := Visits(ids[..n], ids[n]) + Return(ids[n]);
    ReturnReportsAgain(ids[..n], ids[n]);
    ReportedAgain(ids[..n], ids[n]);
    inputs := AdoptAll(upto, ids[n + 1..]);
    AdoptAllIsPlausible(upto, ids[n + 1..]);
    AdoptAllTells(upto, ids[..n] + [ids[n]], Changes(ids[..n]) + [ids[n]], ids[n + 1..]);
    Split(ids, n);
  }

  lemma Split(ids: seq<JobId>, n: nat)
    requires n < |ids|
    ensures ids[..n] + [ids[n]] + ids[n + 1..] == ids
  {
  }

  /** onFinished learns of each job's end at most once, however the server's messages, dispatches and
      effects fall between the answers, exactly if no answer brings a job in again after another. */
  lemma EndsAreReportedOnceIffNoneReturns(ids: seq<JobId>)
    ensures (forall inputs :: Plausible(inputs) && Brought(inputs) == ids ==> Once(After(NEW_PAGE, inputs).ends))
            <==> NoneReturns(ids)
  {
    if NoneReturns(ids) {
      forall inputs | Plausible(inputs) && Brought(inputs) == ids ensures Once(After(NEW_PAGE, inputs).ends) {
        RunReportsInOrder(inputs);
      }
    } else {
      var inputs := ReturningIsReportedAgain(ids);
    }
  }

  lemma VisitsOfTwo()
    ensures Visits([1, 2], 1) == [Start, Answered(RunningView(1)), Message(Finishes(EndView(1))), Dispatch, Notify,
                                  Start, Answered(RunningView(2)), Message(Fails(2)), Dispatch, Notify]
    ensures Changes([1, 2]) == [1, 2] && NoneReturns([1, 2])
  {
    assert [1, 2][..1] == [1] && [1][..0] == [];
    assert Visits([1], 1) == Visit([], 1, 1) && Changes([1]) == [1];
  }

  /** A page starts job 1, which finishes, and job 2, which fails; then the answer to the question it
      asked as it opened, while job 1 was running, comes at last: job 1's end is reported twice. */
  lemma AnEndIsReportedTwice()
    ensures var inputs := [Start, Answered(RunningView(1)), Message(Finishes(EndView(1))), Dispatch, Notify,
                           Start, Answered(RunningView(2)), Message(Fails(2)), Dispatch, Notify] +
                          [Restored(Some(RunningView(1))), Notify];
            Plausible(inputs) && After(NEW_PAGE, inputs).ends == [1, 2] + [1]
  {
    VisitsOfTwo();
    ReturnReportsAgain([1, 2], 1);
  }
}
