/** A page that watches a job (web/src/hooks/useJob.ts): it gets some of the events about the job, among
    those of other jobs, and shows the job's end or a moment it was at. */
module JobWatching {
  import opened SegmentTable
  import opened Jobs
  import opened JobView

  /** No event is a snapshot or a reset: those do not come over the WebSocket. */
  ghost predicate Reported(es: seq<Event>) {
    forall e :: e in es ==> !e.Snapshot? && !e.Reset?
  }

  // ----- The events about one job -----

  predicate IsAbout(e: Event, id: JobId) {
    About(e, id) || (e.Finishes? && e.view.id == id)
  }

  function Only(es: seq<Event>, id: JobId): seq<Event> {
    if es == [] then []
    else Only(es[..|es| - 1], id) + if IsAbout(es[|es| - 1], id) then [es[|es| - 1]] else []
  }

  lemma {:induction false} OnlyConcat(a: seq<Event>, b: seq<Event>, id: JobId)
    ensures Only(a + b, id) == Only(a, id) + Only(b, id)
  {
    if b == [] {
      assert a + b == a;
    } else {
      OnlyConcat(a, b[..|b| - 1], id);
      assert (a + b)[..|a + b| - 1] == a + b[..|b| - 1];
    }
  }

  lemma OtherEventsDoNotMatter(v: View, e: Event)
    requires !e.Snapshot? && !e.Reset?
    ensures var w := ReduceJob(Some(v), e);
            w.Some? && w.value.id == v.id && (!IsAbout(e, v.id) ==> w == Some(v))
  {
  }

  /** Whatever other jobs' reports come in between, a view is that of its own job's reports. */
  lemma {:induction false} OnlyItsReportsMatter(v: View, es: seq<Event>)
    requires Reported(es)
    ensures Reduced(Some(v), es) == Reduced(Some(v), Only(es, v.id))
    ensures Reduced(Some(v), es).Some? && Reduced(Some(v), es).value.id == v.id
  {
    if es != [] {
      var (front, last) := (es[..|es| - 1], es[|es| - 1]);
      assert last in es;
      OnlyItsReportsMatter(v, front);
      OtherEventsDoNotMatter(Reduced(Some(v), front).value, last);
      if IsAbout(last, v.id) {
        ReducedOne(Some(v), Only(front, v.id), last);
      } else {
        assert Only(front, v.id) + [] == Only(front, v.id);
      }
    }
  }

  // ----- The page's queue -----

  /** What the page gets while it only watches: messages, and its own dispatches and effects. */
  predicate Watches(i: Input) {
    i.Message? || i.Dispatch? || i.Notify?
  }

  function MessagesOf(inputs: seq<Input>): seq<Event> {
    if inputs == [] then []
    else
      var last := inputs[|inputs| - 1];
      MessagesOf(inputs[..|inputs| - 1]) + if last.Message? then [last.event] else []
  }

  lemma {:induction false} ReducedHead(view: Option<View>, es: seq<Event>)
    requires es != []
    ensures Reduced(ReduceJob(view, es[0]), es[1..]) == Reduced(view, es)
  {
    if |es| == 1 {
      assert es[..0] == [];
    } else {
      ReducedHead(view, es[..|es| - 1]);
      assert es[..|es| - 1][1..] == es[1..][..|es| - 2];
    }
  }

  lemma NextLosesNothing(p: Page, i: Input)
    requires Watches(i)
    ensures var q := Next(p, i);
            Reduced(q.view, q.queue) == Reduced(p.view, p.queue + if i.Message? then [i.event] else [])
  {
    if i.Dispatch? && p.queue != [] { ReducedHead(p.view, p.queue); }
    assert p.queue + [] == p.queue;
  }

  /** The page's view together with its queue is what its messages so far reduce to. */
  lemma {:induction false} QueueLosesNothing(p: Page, inputs: seq<Input>)
    requires forall i :: i in inputs ==> Watches(i)
    ensures var q := After(p, inputs);
            Reduced(q.view, q.queue) == Reduced(p.view, p.queue + MessagesOf(inputs))
  {
    if inputs == [] {
      assert p.queue + [] == p.queue;
    } else {
      var (front, last) := (inputs[..|inputs| - 1], inputs[|inputs| - 1]);
      QueueLosesNothing(p, front);
      NextLosesNothing(After(p, front), last);
      OneMoreMessage(p, front, last);
    }
  }

  lemma OneMoreMessage(p: Page, front: seq<Input>, last: Input)
    requires Reduced(After(p, front).view, After(p, front).queue) == Reduced(p.view, p.queue + MessagesOf(front))
    ensures var m := if last.Message? then [last.event] else [];
            Reduced(After(p, front).view, After(p, front).queue + m) ==
            Reduced(p.view, p.queue + (MessagesOf(front) + m))
  {
    var (q, ms) := (After(p, front), p.queue + MessagesOf(front));
    if last.Message? {
      ReducedOne(q.view, q.queue, last.event);
      ReducedOne(p.view, ms, last.event);
      assert ms + [last.event] == p.queue + (MessagesOf(front) + [last.event]);
    } else {
      assert q.queue + [] == q.queue && p.queue + (MessagesOf(front) + []) == ms;
    }
  }

  // ----- Missing some events -----

  /** some is all with events missing. */
  ghost predicate Thinned(some: seq<Event>, all: seq<Event>)
    decreases |all|
  {
    some == [] ||
    (all != [] &&
     var front := all[..|all| - 1];
     (some[|some| - 1] == all[|all| - 1] && Thinned(some[..|some| - 1], front)) || Thinned(some, front))
  }

  lemma {:induction false} ThinnedMembers(some: seq<Event>, all: seq<Event>)
    requires Thinned(some, all)
    ensures forall e :: e in some ==> e in all
    decreases |all|
  {
    if some != [] {
      var front := all[..|all| - 1];
      if Thinned(some, front) {
        ThinnedMembers(some, front);
      } else {
        ThinnedMembers(some[..|some| - 1], front);
        assert some == some[..|some| - 1] + [some[|some| - 1]];
      }
    }
  }

  lemma ThinnedSkips(some: seq<Event>, all: seq<Event>, e: Event)
    requires Thinned(some, all)
    ensures Thinned(some, all + [e])
  {
    assert (all + [e])[..|all|] == all;
  }

  lemma ThinnedKeeps(some: seq<Event>, all: seq<Event>, e: Event)
    requires Thinned(some, all)
    ensures Thinned(some + [e], all + [e])
  {
    assert (all + [e])[..|all|] == all && (some + [e])[..|some|] == some;
  }

  /** Missing some events of what has some missing. */
  lemma {:induction false} ThinnedTwice(few: seq<Event>, some: seq<Event>, all: seq<Event>)
    requires Thinned(few, some) && Thinned(some, all)
    ensures Thinned(few, all)
    decreases |all|
  {
    if few != [] {
      var (kept, front) := (some[..|some| - 1], all[..|all| - 1]);
      if Thinned(some, front) {
        ThinnedTwice(few, some, front);
      } else if Thinned(few, kept) {
        ThinnedTwice(few, kept, front);
      } else {
        ThinnedTwice(few[..|few| - 1], kept, front);
      }
    }
  }

  /** Missing what came before, and what comes after. */
  lemma {:induction false} ThinnedToMiddle(before: seq<Event>, middle: seq<Event>, after: seq<Event>)
    ensures Thinned(middle, before + middle + after)
    decreases |after|, |middle|
  {
    var all := before + middle + after;
    if after != [] {
      assert all[..|all| - 1] == before + middle + after[..|after| - 1];
      ThinnedToMiddle(before, middle, after[..|after| - 1]);
    } else if middle != [] {
      var front := middle[..|middle| - 1];
      assert all[..|all| - 1] == before + front + [];
      ThinnedToMiddle(before, front, []);
    }
  }

  lemma OnlyOne(front: seq<Event>, last: Event, id: JobId)
    ensures Only(front + [last], id) == if IsAbout(last, id) then Only(front, id) + [last] else Only(front, id)
  {
    assert (front + [last])[..|front|] == front;
  }

  lemma {:induction false} OnlyThinned(some: seq<Event>, all: seq<Event>, id: JobId)
    requires Thinned(some, all)
    ensures Thinned(Only(some, id), Only(all, id))
    decreases |all|
  {
    if some != [] {
      var (front, last) := (all[..|all| - 1], all[|all| - 1]);
      assert all == front + [last];
      OnlyOne(front, last, id);
      if Thinned(some, front) {
        OnlyThinned(some, front, id);
        if IsAbout(last, id) { ThinnedSkips(Only(some, id), Only(front, id), last); }
      } else {
        var kept := some[..|some| - 1];
        assert some == kept + [last];
        OnlyThinned(kept, front, id);
        OnlyOne(kept, last, id);
        if IsAbout(last, id) { ThinnedKeeps(Only(kept, id), Only(front, id), last); }
      }
    }
  }

  /** If the last event is not missing, and comes only once, it is still the last. */
  lemma LastIsKept(some: seq<Event>, all: seq<Event>)
    requires Thinned(some, all) && all != [] && all[|all| - 1] in some && all[|all| - 1] !in all[..|all| - 1]
    ensures some[|some| - 1] == all[|all| - 1]
  {
    if Thinned(some, all[..|all| - 1]) {
      ThinnedMembers(some, all[..|all| - 1]);
      assert false;
    }
  }

  // ----- The setting -----

  /** A page that shows job id as p; since then it only watched, got some of what came (others may be
      batched away), and has dispatched all of it. */
  ghost predicate Watched(p: Page, inputs: seq<Input>, came: seq<Event>, id: JobId) {
    && p.view.Some? && p.view.value.id == id && Reported(p.queue)
    && (forall i :: i in inputs ==> Watches(i)) && Thinned(MessagesOf(inputs), came)
    && After(p, inputs).queue == []
  }

  /** The page got the end of job id. */
  ghost predicate GotTheEnd(inputs: seq<Input>, id: JobId) {
    exists e :: e in MessagesOf(inputs) && e.Finishes? && e.view.id == id
  }

  lemma {:induction false} OnlyIsReported(es: seq<Event>, id: JobId)
    requires Reported(es)
    ensures Reported(Only(es, id)) && forall e :: e in Only(es, id) <==> e in es && IsAbout(e, id)
  {
    if es != [] {
      assert es == es[..|es| - 1] + [es[|es| - 1]];
      OnlyIsReported(es[..|es| - 1], id);
    }
  }

  lemma WatchedIsReported(p: Page, inputs: seq<Input>, came: seq<Event>, id: JobId)
    requires Watched(p, inputs, came, id) && Reported(came)
    ensures Reported(MessagesOf(inputs))
  {
    ThinnedMembers(MessagesOf(inputs), came);
  }

  /** The page's view is what the reports of its job that it got since then reduce to. */
  lemma WatchedView(p: Page, inputs: seq<Input>, came: seq<Event>, id: JobId)
    requires Watched(p, inputs, came, id) && Reported(came)
    ensures After(p, inputs).view == Reduced(p.view, Only(p.queue, id) + Only(MessagesOf(inputs), id))
    ensures Thinned(Only(MessagesOf(inputs), id), Only(came, id))
  {
    var later := MessagesOf(inputs);
    QueueLosesNothing(p, inputs);
    WatchedIsReported(p, inputs, came, id);
    OnlyItsReportsMatter(p.view.value, p.queue + later);
    OnlyConcat(p.queue, later, id);
    OnlyThinned(later, came, id);
  }

  // ----- A page that gets the end -----

  /** After any events about its job that end with the end, a view is the final one. */
  lemma ReportedEndIsShown(v: View, es: seq<Event>, final: View)
    requires v.id == final.id && Reported(es) && es != [] && es[|es| - 1] == Finishes(final)
    ensures Reduced(Some(v), es) == Some(final)
  {
    OnlyItsReportsMatter(v, es[..|es| - 1]);
  }

  /** The events of a job's trace: the last is the end, and no other is. */
  ghost predicate EndsWith(all: seq<Event>, final: View) {
    && all != [] && all[|all| - 1] == Finishes(final)
    && forall k :: 0 <= k < |all| - 1 ==> !all[k].Finishes?
  }

  lemma {:induction false} ItemEventsDoNotFinish(h: Header, items: seq<Item>, done: seq<Outcome>)
    requires |done| <= |items|
    ensures forall r :: r in ItemTrace(h, items, done) ==> !r.Finished?
  {
    if done != [] {
      ItemEventsDoNotFinish(h, items, done[..|done| - 1]);
    }
  }

  lemma TraceEndsWith(r: Record)
    requires ValidRecord(r)
    ensures EndsWith(EventsOf(Trace(r)), ViewOf(FinalJob(r))) && ViewOf(FinalJob(r)).id == r.h.id
  {
    var before := BeforeTheEnd(r);
    assert Trace(r) == before + [Finished(FinalJob(r))];
    if r.listing.Ok? { ItemEventsDoNotFinish(r.h, r.listing.value, r.done); }
    forall k | 0 <= k < |before| ensures !EventsOf(Trace(r))[k].Finishes? {
      assert before[k] in before;
    }
  }

  /** Of some of the events of which the last is the end, the end is the last. */
  lemma EndIsLast(some: seq<Event>, all: seq<Event>, final: View, e: Event)
    requires Thinned(some, all) && EndsWith(all, final) && e in some && e.Finishes?
    ensures some[|some| - 1] == Finishes(final)
  {
    ThinnedMembers(some, all);
    var k :| 0 <= k < |all| && all[k] == e;
    LastIsKept(some, all);
  }

  lemma WatchedEndIsShown(p: Page, inputs: seq<Input>, came: seq<Event>, final: View)
    requires Watched(p, inputs, came, final.id) && Reported(came)
    requires var some := Only(MessagesOf(inputs), final.id); some != [] && some[|some| - 1] == Finishes(final)
    ensures After(p, inputs).view == Some(final)
  {
    WatchedView(p, inputs, came, final.id);
    WatchedIsReported(p, inputs, came, final.id);
    OnlyIsReported(MessagesOf(inputs), final.id);
    OnlyIsReported(p.queue, final.id);
    ReportedEndIsShown(p.view.value, Only(p.queue, final.id) + Only(MessagesOf(inputs), final.id), final);
  }

  lemma EndIsAmong(inputs: seq<Input>, id: JobId) returns (e: Event)
    requires Reported(MessagesOf(inputs)) && GotTheEnd(inputs, id)
    ensures e in Only(MessagesOf(inputs), id) && e.Finishes?
  {
    e :| e in MessagesOf(inputs) && e.Finishes? && e.view.id == id;
    OnlyIsReported(MessagesOf(inputs), id);
  }

  /** What it got of the job, without the end, are events before it. */
  lemma NoEndIsAmong(inputs: seq<Input>, id: JobId)
    requires Reported(MessagesOf(inputs)) && !GotTheEnd(inputs, id)
    ensures forall e :: e in Only(MessagesOf(inputs), id) ==> !e.Finishes?
  {
    OnlyIsReported(MessagesOf(inputs), id);
  }

  lemma EndIsGot(inputs: seq<Input>, id: JobId, e: Event)
    requires Reported(MessagesOf(inputs)) && e in Only(MessagesOf(inputs), id) && e.Finishes?
    ensures GotTheEnd(inputs, id)
  {
    OnlyIsReported(MessagesOf(inputs), id);
  }

  /** A page to which some of a job's reports came, and that got the end, shows the final job, whatever
      else came in between and whichever other reports it missed. */
  lemma WatchedToTheEnd(r: Record, p: Page, inputs: seq<Input>, came: seq<Event>)
    requires ValidRecord(r) && Watched(p, inputs, came, r.h.id) && GotTheEnd(inputs, r.h.id)
    requires Reported(came) && Thinned(Only(came, r.h.id), EventsOf(Trace(r)))
    ensures After(p, inputs).view == Some(ViewOf(FinalJob(r)))
  {
    var some := Only(MessagesOf(inputs), r.h.id);
    WatchedIsReported(p, inputs, came, r.h.id);
    var e := EndIsAmong(inputs, r.h.id);
    WatchedView(p, inputs, came, r.h.id);
    ThinnedTwice(some, Only(came, r.h.id), EventsOf(Trace(r)));
    TraceEndsWith(r);
    EndIsLast(some, EventsOf(Trace(r)), ViewOf(FinalJob(r)), e);
    WatchedEndIsShown(p, inputs, came, ViewOf(FinalJob(r)));
  }

  // ----- A page at any time, connected or not -----

  lemma {:induction false} ItemTraceIsOfJob(h: Header, items: seq<Item>, done: seq<Outcome>, more: seq<Outcome>)
    requires done <= more && |more| <= |items|
    ensures forall r :: r in ItemTrace(h, items, done) ==> OfJob(r, h, items, more)
  {
    if done != [] {
      var n := |done| - 1;
      ItemTraceIsOfJob(h, items, done[..n], more);
      assert done[..n] == more[..n] && done == more[..n + 1];
      assert OfJob(StartedReport(h, items, done[..n]), h, items, more);
      assert OfJob(DoneReport(h, items, done), h, items, more);
    }
  }

  /** The view shows a moment of job r before its end: with the counts it started with, or those the
      server had at the end of some item. */
  ghost predicate ShowsAPast(w: View, v: View, r: Record)
    requires ValidRecord(r)
  {
    && w.id == r.h.id && (w.phase == v.phase || r.listing.Err?)
    && (w.counts == v.counts || exists k :: CountsAt(w, r, k))
  }

  predicate CountsAt(w: View, r: Record, k: nat)
    requires r.listing.Ok? ==> |r.done| <= |r.listing.value|
  {
    r.listing.Ok? && 0 < k <= |r.done| && w.counts == CountsOf(JobAt(r.h, r.listing.value, r.done[..k], None))
  }

  lemma ItemReportsShowAPast(v: View, r: Record, rs: seq<Report>)
    requires ValidRecord(r) && v.id == r.h.id && v.phase == Running
    requires forall x :: x in rs ==> x in BeforeTheEnd(r)
    ensures var w := Reduced(Some(v), EventsOf(rs)); w.Some? && ShowsAPast(w.value, v, r)
  {
    match r.listing {
      case Ok(items) =>
        ItemTraceIsOfJob(r.h, items, r.done, r.done);
        forall k | 0 <= k < |rs| ensures OfJob(rs[k], r.h, items, r.done) {
          assert rs[k] in rs;
        }
        MissedReportsDoNotMatter(v, r.h, items, r.done, rs);
        var w := Reduced(Some(v), EventsOf(rs)).value;
        if LastDone(rs).Some? { assert CountsAt(w, r, LastDone(rs).value); }
      case Err(_) => FailureShowsAPast(v, r, rs);
    }
  }

  lemma {:induction false} FailureShowsAPast(v: View, r: Record, rs: seq<Report>)
    requires ValidRecord(r) && r.listing.Err? && v.id == r.h.id && forall x :: x in rs ==> x in BeforeTheEnd(r)
    ensures var w := Reduced(Some(v), EventsOf(rs)); w.Some? && ShowsAPast(w.value, v, r) && w.value.counts == v.counts
  {
    if rs != [] {
      var (front, last) := (rs[..|rs| - 1], rs[|rs| - 1]);
      assert last in rs && rs == front + [last];
      FailureShowsAPast(v, r, front);
      assert EventsOf(rs) == EventsOf(front) + [EventOf(last)];
      ReducedOne(Some(v), EventsOf(front), EventOf(last));
    }
  }

  /** The reports that some events are made of. */
  lemma {:induction false} ReportsBehind(es: seq<Event>, before: seq<Report>) returns (rs: seq<Report>)
    requires forall e :: e in es ==> e in EventsOf(before)
    ensures EventsOf(rs) == es && forall x :: x in rs ==> x in before
  {
    if es == [] {
      rs := [];
    } else {
      var (front, last) := (es[..|es| - 1], es[|es| - 1]);
      assert last in es && es == front + [last];
      var k :| 0 <= k < |EventsOf(before)| && EventsOf(before)[k] == last;
      rs := ReportsBehind(front, before);
      assert EventsOf(rs + [before[k]]) == EventsOf(rs) + [last];
      rs := rs + [before[k]];
    }
  }

  lemma EventsBeforeTheEnd(r: Record, e: Event)
    requires ValidRecord(r) && e in EventsOf(Trace(r)) && !e.Finishes?
    ensures e in EventsOf(BeforeTheEnd(r))
  {
    var k :| 0 <= k < |EventsOf(Trace(r))| && EventsOf(Trace(r))[k] == e;
    assert Trace(r) == BeforeTheEnd(r) + [Finished(FinalJob(r))];
    assert EventsOf(BeforeTheEnd(r))[k] == e;
  }

  /** A view after some of a job's events, the end not among them. */
  lemma SomeEventsShowAPast(v: View, r: Record, some: seq<Event>)
    requires ValidRecord(r) && v.id == r.h.id && v.phase == Running
    requires forall e :: e in some ==> e in EventsOf(Trace(r)) && !e.Finishes?
    ensures var w := Reduced(Some(v), some); w.Some? && ShowsAPast(w.value, v, r)
  {
    forall e | e in some ensures e in EventsOf(BeforeTheEnd(r)) {
      EventsBeforeTheEnd(r, e);
    }
    var rs := ReportsBehind(some, BeforeTheEnd(r));
    ItemReportsShowAPast(v, r, rs);
  }

  /** A page that shows a job as running, to which some of its reports came without the end, shows a
      moment the server was at. */
  lemma WatchedSoFar(r: Record, p: Page, inputs: seq<Input>, came: seq<Event>)
    requires ValidRecord(r) && Watched(p, inputs, came, r.h.id) && !GotTheEnd(inputs, r.h.id)
    requires Reported(came) && Thinned(Only(came, r.h.id), EventsOf(Trace(r)))
    requires p.view.value.phase == Running && p.queue == []
    ensures var w := After(p, inputs).view; w.Some? && ShowsAPast(w.value, p.view.value, r)
  {
    var some := Only(MessagesOf(inputs), r.h.id);
    WatchedView(p, inputs, came, r.h.id);
    WatchedIsReported(p, inputs, came, r.h.id);
    NoEndIsAmong(inputs, r.h.id);
    ThinnedTwice(some, Only(came, r.h.id), EventsOf(Trace(r)));
    ThinnedMembers(some, EventsOf(Trace(r)));
    assert Only([], r.h.id) + some == some;
    SomeEventsShowAPast(p.view.value, r, some);
  }
}
