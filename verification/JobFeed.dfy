/** From the lane over the hub's channel and the clients' queues to a page (internal/service/import_job.go,
    internal/websocket/hub.go, web/src/hooks/useJob.ts): reports and other messages are sent to users in
    one buffered channel, and the hub's loop takes them from it one by one, among its other events. */
module JobFeed {
  import opened SegmentTable
  import opened Jobs
  import opened JobView
  import opened JobWatching
  import Hub
  import JobLane

  const TARGETED_BUFFER := 256

  type Reader = Hub.Message -> Option<Event>

  /** Who gets a job's reports, how they are written, and what a page for jobs of a kind reads. */
  datatype Wiring = Wiring(owner: JobId -> Hub.User, text: Report -> Hub.Message, kind: string, read: Reader)

  /** The page reads the reports about jobs of its kind, and nothing else as a snapshot or a reset. */
  ghost predicate Understands(net: Wiring) {
    && (forall r :: ReadsReport(net, r))
    && (forall m :: Reported(ReadOne(m, net.read)))
  }

  predicate ReadsReport(net: Wiring, r: Report) {
    net.read(net.text(r)) == if r.job.kind == net.kind then Some(EventOf(r)) else None
  }

  function ReadOne(m: Hub.Message, read: Reader): seq<Event> {
    match read(m) case Some(e) => [e] case None => []
  }

  function ReadAll(ms: seq<Hub.Message>, read: Reader): seq<Event> {
    if ms == [] then [] else ReadAll(ms[..|ms| - 1], read) + ReadOne(ms[|ms| - 1], read)
  }

  lemma Assoc<T>(a: seq<T>, b: seq<T>, c: seq<T>)
    ensures a + b + c == a + (b + c)
  {
  }

  lemma {:induction false} ReadConcat(a: seq<Hub.Message>, b: seq<Hub.Message>, read: Reader)
    ensures ReadAll(a + b, read) == ReadAll(a, read) + ReadAll(b, read)
  {
    if b == [] {
      assert a + b == a;
    } else {
      var (front, last) := (b[..|b| - 1], b[|b| - 1]);
      ReadConcat(a, front, read);
      assert (a + b)[..|a + b| - 1] == a + front && (a + b)[|a + b| - 1] == last;
      Assoc(ReadAll(a, read), ReadAll(front, read), ReadOne(last, read));
    }
  }

  lemma {:induction false} ReadIsReported(ms: seq<Hub.Message>, net: Wiring)
    requires Understands(net)
    ensures Reported(ReadAll(ms, net.read))
  {
    if ms != [] {
      ReadIsReported(ms[..|ms| - 1], net);
      assert Reported(ReadOne(ms[|ms| - 1], net.read));
    }
  }

  /** The events about job id that the page reads from messages. */
  function About(net: Wiring, ms: seq<Hub.Message>, id: JobId): seq<Event> {
    Only(ReadAll(ms, net.read), id)
  }

  lemma AboutConcat(net: Wiring, a: seq<Hub.Message>, b: seq<Hub.Message>, id: JobId)
    ensures About(net, a + b, id) == About(net, a, id) + About(net, b, id)
  {
    ReadConcat(a, b, net.read);
    OnlyConcat(ReadAll(a, net.read), ReadAll(b, net.read), id);
  }

  lemma AboutOne(net: Wiring, m: Hub.Message, id: JobId)
    ensures About(net, [m], id) ==
            match net.read(m) case Some(e) => (if IsAbout(e, id) then [e] else []) case None => []
  {
    assert [m][..0] == [] && ReadAll([m], net.read) == [] + ReadOne(m, net.read);
    match net.read(m)
    case None =>
    case Some(e) => OnlyOne([], e, id); assert [] + [e] == [e];
  }

  // ----- The channel between the lane and the hub -----

  datatype Letter = Letter(to: Hub.User, data: Hub.Message)

  /** feed is the hub's targeted channel, es what its loop has processed. */
  datatype System = System(lane: JobLane.State, feed: seq<Letter>, es: seq<Hub.Event>)

  /** A step of the lane, a message from elsewhere, the loop taking from the channel, or its other events. */
  datatype Move =
    | Lane(step: JobLane.Step)
    | Send(letter: Letter)
    | Deliver
    | Process(e: Hub.Event)

  function LetterOf(net: Wiring, r: Report): Letter {
    Letter(net.owner(r.job.id), net.text(r))
  }

  function Letters(net: Wiring, rs: seq<Report>): seq<Letter> {
    if rs == [] then [] else Letters(net, rs[..|rs| - 1]) + [LetterOf(net, rs[|rs| - 1])]
  }

  /** The reports that a step of the lane makes. */
  ghost function Made(s: JobLane.State, step: JobLane.Step): seq<Report>
    requires JobLane.Enabled(s, step)
  {
    ReportsGrow(s, step);
    JobLane.Apply(s, step).reported[|s.reported|..]
  }

  lemma ReportsGrow(s: JobLane.State, step: JobLane.Step)
    requires JobLane.Enabled(s, step)
    ensures s.reported <= JobLane.Apply(s, step).reported
  {
  }

  /** Sending waits for room; other messages than reports are not about jobs of the page's kind. */
  ghost predicate Enabled(net: Wiring, s: System, move: Move)
    requires Hub.Valid(s.es)
  {
    match move
    case Lane(step) => JobLane.Enabled(s.lane, step) && |s.feed| + |Made(s.lane, step)| <= TARGETED_BUFFER
    case Send(letter) => |s.feed| < TARGETED_BUFFER && net.read(letter.data) == None
    case Deliver => s.feed != []
    case Process(e) =>
      !e.Targeted? && Hub.Enabled(Hub.After(s.es), e) && (e.Broadcast? ==> net.read(e.data) == None)
  }

  ghost function Apply(net: Wiring, s: System, move: Move): System
    requires Hub.Valid(s.es) && Enabled(net, s, move)
  {
    match move
    case Lane(step) => s.(lane := JobLane.Apply(s.lane, step), feed := s.feed + Letters(net, Made(s.lane, step)))
    case Send(letter) => s.(feed := s.feed + [letter])
    case Deliver => s.(feed := s.feed[1..], es := Taken(s))
    case Process(e) => s.(es := s.es + [e])
  }

  ghost predicate Init(s: System) {
    JobLane.Init(s.lane) && s.feed == [] && s.es == []
  }

  ghost predicate Next(net: Wiring, s: System, s': System) {
    Hub.Valid(s.es) && exists move :: Enabled(net, s, move) && s' == Apply(net, s, move)
  }

  ghost predicate IsRun(net: Wiring, run: seq<System>) {
    && |run| > 0 && Init(run[0])
    && forall i :: 0 <= i < |run| - 1 ==> NextAt(net, run, i)
  }

  ghost predicate NextAt(net: Wiring, run: seq<System>, i: nat)
    requires i + 1 < |run|
  {
    Next(net, run[i], run[i + 1])
  }

  /** Other messages are queued behind what waits, and the loop's other events follow those it processed. */
  lemma OthersAreCarried(net: Wiring, s: System, letter: Letter, e: Hub.Event)
    requires Hub.Valid(s.es)
    ensures |s.feed| < 256 && net.read(letter.data) == None ==>
              Enabled(net, s, Send(letter)) && Apply(net, s, Send(letter)) == s.(feed := s.feed + [letter])
    ensures Hub.Enabled(Hub.After(s.es), e) && (e.Register? || e.Unregister? || e.Take?) ==>
              Enabled(net, s, Process(e)) && Apply(net, s, Process(e)) == s.(es := s.es + [e])
    ensures s.feed != [] ==>
              && Enabled(net, s, Deliver) && Apply(net, s, Deliver).feed == s.feed[1..]
              && Apply(net, s, Deliver).es == s.es + [Hub.Targeted(s.feed[0].to, s.feed[0].data)]
  {
  }

  // ----- What is sent to a user -----

  /** What the loop sent to user u, to every connection there was. */
  function SentTo(es: seq<Hub.Event>, u: Hub.User): seq<Hub.Message> {
    if es == [] then [] else SentTo(es[..|es| - 1], u) + Hub.Sent(es[|es| - 1], Some(u))
  }

  lemma SentToOne(es: seq<Hub.Event>, e: Hub.Event, u: Hub.User)
    ensures SentTo(es + [e], u) == SentTo(es, u) + Hub.Sent(e, Some(u))
  {
    assert (es + [e])[..|es|] == es;
  }

  /** What letters hold for user u. */
  function For(letters: seq<Letter>, u: Hub.User): seq<Hub.Message> {
    if letters == [] then []
    else
      var (front, last) := (letters[..|letters| - 1], letters[|letters| - 1]);
      For(front, u) + if last.to == u then [last.data] else []
  }

  lemma {:induction false} ForConcat(a: seq<Letter>, b: seq<Letter>, u: Hub.User)
    ensures For(a + b, u) == For(a, u) + For(b, u)
  {
    if b == [] {
      assert a + b == a;
    } else {
      var (front, last) := (b[..|b| - 1], b[|b| - 1]);
      ForConcat(a, front, u);
      assert (a + b)[..|a + b| - 1] == a + front && (a + b)[|a + b| - 1] == last;
      Assoc(For(a, u), For(front, u), if last.to == u then [last.data] else []);
    }
  }

  lemma ForOne(letter: Letter, u: Hub.User)
    ensures For([letter], u) == if letter.to == u then [letter.data] else []
  {
    assert [letter][..0] == [];
  }

  lemma {:induction false} LettersConcat(net: Wiring, a: seq<Report>, b: seq<Report>)
    ensures Letters(net, a + b) == Letters(net, a) + Letters(net, b)
  {
    if b == [] {
      assert a + b == a;
    } else {
      var (front, last) := (b[..|b| - 1], b[|b| - 1]);
      LettersConcat(net, a, front);
      assert (a + b)[..|a + b| - 1] == a + front && (a + b)[|a + b| - 1] == last;
      Assoc(Letters(net, a), Letters(net, front), [LetterOf(net, last)]);
    }
  }

  /** What user u is told about job id, all in all. */
  function Told(net: Wiring, rs: seq<Report>, u: Hub.User, id: JobId): seq<Event> {
    About(net, For(Letters(net, rs), u), id)
  }

  lemma ToldConcat(net: Wiring, a: seq<Report>, b: seq<Report>, u: Hub.User, id: JobId)
    ensures Told(net, a + b, u, id) == Told(net, a, u, id) + Told(net, b, u, id)
  {
    LettersConcat(net, a, b);
    ForConcat(Letters(net, a), Letters(net, b), u);
    AboutConcat(net, For(Letters(net, a), u), For(Letters(net, b), u), id);
  }

  /** Reports about jobs of the page's kind are told to the job's owner as they are, and to no one else. */
  lemma {:induction false} ToldIsReported(net: Wiring, rs: seq<Report>, u: Hub.User, id: JobId)
    requires Understands(net) && forall r :: r in rs && r.job.id == id ==> r.job.kind == net.kind
    ensures Told(net, rs, u, id) == if net.owner(id) == u then EventsOf(JobLane.ReportsOf(rs, id)) else []
  {
    if rs != [] {
      var (front, last) := (rs[..|rs| - 1], rs[|rs| - 1]);
      assert rs == front + [last] && last in rs;
      ToldIsReported(net, front, u, id);
      ToldConcat(net, front, [last], u, id);
      ToldOne(net, last, u, id);
      EventsOfOne(JobLane.ReportsOf(front, id), last);
    }
  }

  lemma ToldOne(net: Wiring, r: Report, u: Hub.User, id: JobId)
    requires Understands(net) && (r.job.id == id ==> r.job.kind == net.kind)
    ensures Told(net, [r], u, id) == if net.owner(id) == u && r.job.id == id then [EventOf(r)] else []
  {
    LettersOne(net, r);
    ForOne(LetterOf(net, r), u);
    if net.owner(r.job.id) == u { AboutReport(net, r, id); }
  }

  lemma LettersOne(net: Wiring, r: Report)
    ensures Letters(net, [r]) == [LetterOf(net, r)]
  {
    assert [r][..0] == [];
  }

  lemma AboutReport(net: Wiring, r: Report, id: JobId)
    requires Understands(net) && (r.job.id == id ==> r.job.kind == net.kind)
    ensures About(net, [net.text(r)], id) == if r.job.id == id then [EventOf(r)] else []
  {
    assert ReadsReport(net, r);
    AboutOne(net, net.text(r), id);
    EventIsAboutItsJob(r, id);
  }

  lemma EventIsAboutItsJob(r: Report, id: JobId)
    ensures IsAbout(EventOf(r), id) <==> r.job.id == id
  {
  }

  lemma EventsOfOne(rs: seq<Report>, r: Report)
    ensures EventsOf(rs + [r]) == EventsOf(rs) + [EventOf(r)]
  {
  }

  // ----- Nothing is lost, doubled or reordered on the way -----

  /** What the loop has sent to u about id, and after it what waits in the channel, is what the lane
      reported. */
  ghost predicate InOrder(net: Wiring, s: System, u: Hub.User, id: JobId) {
    About(net, SentTo(s.es, u), id) + About(net, For(s.feed, u), id) == Told(net, s.lane.reported, u, id)
  }

  lemma FeedGrows(net: Wiring, sent: seq<Event>, feed: seq<Letter>, more: seq<Letter>, u: Hub.User, id: JobId)
    ensures sent + About(net, For(feed + more, u), id) ==
            sent + About(net, For(feed, u), id) + About(net, For(more, u), id)
  {
    ForConcat(feed, more, u);
    AboutConcat(net, For(feed, u), For(more, u), id);
  }

  lemma FeedMoves(net: Wiring, sent: seq<Hub.Message>, feed: seq<Letter>, u: Hub.User, id: JobId)
    requires feed != []
    ensures About(net, sent + For([feed[0]], u), id) + About(net, For(feed[1..], u), id) ==
            About(net, sent, id) + About(net, For(feed, u), id)
  {
    assert feed == [feed[0]] + feed[1..];
    AboutConcat(net, sent, For([feed[0]], u), id);
    FeedGrows(net, About(net, sent, id), [feed[0]], feed[1..], u, id);
  }

  lemma LaneKeepsOrder(net: Wiring, s: System, step: JobLane.Step, u: Hub.User, id: JobId)
    requires Hub.Valid(s.es) && Enabled(net, s, Lane(step)) && InOrder(net, s, u, id)
    ensures InOrder(net, Apply(net, s, Lane(step)), u, id)
  {
    var made := Made(s.lane, step);
    ReportsGrow(s.lane, step);
    assert JobLane.Apply(s.lane, step).reported == s.lane.reported + made;
    ToldConcat(net, s.lane.reported, made, u, id);
    FeedGrows(net, About(net, SentTo(s.es, u), id), s.feed, Letters(net, made), u, id);
  }

  lemma SendKeepsOrder(net: Wiring, s: System, letter: Letter, u: Hub.User, id: JobId)
    requires Hub.Valid(s.es) && Enabled(net, s, Send(letter)) && InOrder(net, s, u, id)
    ensures InOrder(net, Apply(net, s, Send(letter)), u, id)
  {
    ForOne(letter, u);
    AboutOne(net, letter.data, id);
    FeedGrows(net, About(net, SentTo(s.es, u), id), s.feed, [letter], u, id);
  }

  lemma DeliverKeepsOrder(net: Wiring, s: System, u: Hub.User, id: JobId)
    requires Hub.Valid(s.es) && Enabled(net, s, Deliver) && InOrder(net, s, u, id)
    ensures InOrder(net, Apply(net, s, Deliver), u, id)
  {
    var s' := Apply(net, s, Deliver);
    SentByTaking(s, u);
    assert s'.es == Taken(s);
    FeedMoves(net, SentTo(s.es, u), s.feed, u, id);
    StillInOrder(net, s, s', u, id);
  }

  /** What the loop has processed once it has taken a letter. */
  function Taken(s: System): seq<Hub.Event>
    requires s.feed != []
  {
    s.es + [Hub.Targeted(s.feed[0].to, s.feed[0].data)]
  }

  lemma SentByTaking(s: System, u: Hub.User)
    requires s.feed != []
    ensures SentTo(Taken(s), u) == SentTo(s.es, u) + For([s.feed[0]], u)
  {
    ForOne(s.feed[0], u);
    SentToOne(s.es, Hub.Targeted(s.feed[0].to, s.feed[0].data), u);
  }

  lemma StillInOrder(net: Wiring, s: System, s': System, u: Hub.User, id: JobId)
    requires InOrder(net, s, u, id) && s'.lane.reported == s.lane.reported
    requires About(net, SentTo(s'.es, u), id) + About(net, For(s'.feed, u), id) ==
             About(net, SentTo(s.es, u), id) + About(net, For(s.feed, u), id)
    ensures InOrder(net, s', u, id)
  {
  }

  lemma ProcessKeepsOrder(net: Wiring, s: System, e: Hub.Event, u: Hub.User, id: JobId)
    requires Hub.Valid(s.es) && Enabled(net, s, Process(e)) && InOrder(net, s, u, id)
    ensures InOrder(net, Apply(net, s, Process(e)), u, id)
  {
    SentToOne(s.es, e, u);
    AboutConcat(net, SentTo(s.es, u), Hub.Sent(e, Some(u)), id);
    if e.Broadcast? { AboutOne(net, e.data, id); }
    var before := About(net, SentTo(s.es, u), id);
    assert before + [] == before;
  }

  lemma MoveKeepsOrder(net: Wiring, s: System, move: Move, u: Hub.User, id: JobId)
    requires Hub.Valid(s.es) && Enabled(net, s, move) && InOrder(net, s, u, id)
    ensures InOrder(net, Apply(net, s, move), u, id)
  {
    match move
    case Lane(step) => LaneKeepsOrder(net, s, step, u, id);
    case Send(letter) => SendKeepsOrder(net, s, letter, u, id);
    case Deliver => DeliverKeepsOrder(net, s, u, id);
    case Process(e) => ProcessKeepsOrder(net, s, e, u, id);
  }

  ghost predicate Inv(s: System) {
    && JobLane.LaneInv(s.lane) && JobLane.CancelInv(s.lane) && JobLane.PastIdsDiffer(s.lane.past)
    && Hub.Valid(s.es) && |s.feed| <= TARGETED_BUFFER
  }

  lemma ValidOne(es: seq<Hub.Event>, e: Hub.Event)
    requires Hub.Valid(es) && Hub.Enabled(Hub.After(es), e)
    ensures Hub.Valid(es + [e])
  {
    assert (es + [e])[..|es|] == es;
  }

  lemma {:induction false} LettersCount(net: Wiring, rs: seq<Report>)
    ensures |Letters(net, rs)| == |rs|
  {
    if rs != [] { LettersCount(net, rs[..|rs| - 1]); }
  }

  lemma MoveKeepsInv(net: Wiring, s: System, move: Move)
    requires Inv(s) && Enabled(net, s, move)
    ensures Inv(Apply(net, s, move))
  {
    match move
    case Lane(step) =>
      JobLane.StepKeepsLane(s.lane, step);
      JobLane.StepKeepsCancel(s.lane, step);
      JobLane.StepKeepsDistinct(s.lane, step);
      LettersCount(net, Made(s.lane, step));
    case Send(_) =>
    case Deliver => ValidOne(s.es, Hub.Targeted(s.feed[0].to, s.feed[0].data));
    case Process(e) => ValidOne(s.es, e);
  }

  lemma MoveOf(net: Wiring, run: seq<System>, i: nat) returns (move: Move)
    requires IsRun(net, run) && i + 1 < |run|
    ensures Hub.Valid(run[i].es) && Enabled(net, run[i], move) && run[i + 1] == Apply(net, run[i], move)
  {
    assert NextAt(net, run, i);
    move :| Enabled(net, run[i], move) && run[i + 1] == Apply(net, run[i], move);
  }

  lemma StartsInInv(s: System)
    requires Init(s)
    ensures Inv(s)
  {
  }

  lemma NextKeepsInv(net: Wiring, run: seq<System>, i: nat)
    requires IsRun(net, run) && i + 1 < |run| && Inv(run[i])
    ensures Inv(run[i + 1])
  {
    var move := MoveOf(net, run, i);
    MoveKeepsInv(net, run[i], move);
  }

  lemma {:induction false} RunKeepsInv(net: Wiring, run: seq<System>, i: nat)
    requires IsRun(net, run) && i < |run|
    ensures Inv(run[i])
    decreases i
  {
    if i == 0 {
      StartsInInv(run[0]);
    } else {
      RunKeepsInv(net, run, i - 1);
      NextKeepsInv(net, run, i - 1);
    }
  }

  lemma StartsInOrder(net: Wiring, s: System, u: Hub.User, id: JobId)
    requires Init(s)
    ensures InOrder(net, s, u, id)
  {
  }

  ghost predicate AllInOrder(net: Wiring, s: System) {
    forall u, id :: InOrder(net, s, u, id)
  }

  lemma FirstInOrder(net: Wiring, s: System)
    requires Init(s)
    ensures AllInOrder(net, s)
  {
    forall u, id ensures InOrder(net, s, u, id) {
      StartsInOrder(net, s, u, id);
    }
  }

  lemma NextKeepsOrder(net: Wiring, run: seq<System>, i: nat)
    requires IsRun(net, run) && i + 1 < |run| && AllInOrder(net, run[i])
    ensures AllInOrder(net, run[i + 1])
  {
    var move := MoveOf(net, run, i);
    var s' := run[i + 1];
    forall u, id ensures InOrder(net, s', u, id) {
      MoveKeepsOrder(net, run[i], move, u, id);
    }
  }

  lemma RunKeepsOrder(net: Wiring, run: seq<System>, i: nat)
    requires IsRun(net, run) && i < |run|
    ensures AllInOrder(net, run[i])
  {
    FirstInOrder(net, run[0]);
    for k := 0 to i
      invariant AllInOrder(net, run[k])
    {
      NextKeepsOrder(net, run, k);
    }
  }

  /** In every run, what the hub has sent to a user about a job, and after it what waits in its channel,
      is what the lane reported of it, in order and without a gap. */
  lemma ReportsStayInOrder(net: Wiring, run: seq<System>, i: nat, u: Hub.User, id: JobId)
    requires IsRun(net, run) && i < |run|
    ensures InOrder(net, run[i], u, id)
  {
    RunKeepsOrder(net, run, i);
  }

  lemma MoveGrows(net: Wiring, s: System, move: Move)
    requires Hub.Valid(s.es) && Enabled(net, s, move)
    ensures var s' := Apply(net, s, move); s.lane.reported <= s'.lane.reported && s.es <= s'.es
  {
    if move.Lane? { ReportsGrow(s.lane, move.step); }
  }

  lemma NextGrows(net: Wiring, run: seq<System>, i: nat)
    requires IsRun(net, run) && i + 1 < |run|
    ensures run[i].lane.reported <= run[i + 1].lane.reported && run[i].es <= run[i + 1].es
  {
    var move := MoveOf(net, run, i);
    MoveGrows(net, run[i], move);
  }

  lemma PrefixOfPrefix<T>(a: seq<T>, b: seq<T>, c: seq<T>)
    requires a <= b && b <= c
    ensures a <= c
  {
  }

  lemma {:induction false} RunGrows(net: Wiring, run: seq<System>, j: nat, i: nat)
    requires IsRun(net, run) && j <= i < |run|
    ensures run[j].lane.reported <= run[i].lane.reported && run[j].es <= run[i].es
    decreases i
  {
    if j < i {
      RunGrows(net, run, j, i - 1);
      NextGrows(net, run, i - 1);
      PrefixOfPrefix(run[j].lane.reported, run[i - 1].lane.reported, run[i].lane.reported);
      PrefixOfPrefix(run[j].es, run[i - 1].es, run[i].es);
    }
  }

  // ----- What a connection gets of it -----

  ghost predicate Connected(s: System, c: Hub.Client) {
    Hub.Valid(s.es) && c in Hub.After(s.es).user
  }

  /** What connection c got: taken by its writer, or waiting for it. */
  ghost function Got(s: System, c: Hub.Client): seq<Hub.Message>
    requires Connected(s, c)
  {
    Hub.Got(Hub.After(s.es), c)
  }

  /** One more event sends a connection what it sends its user. */
  lemma SentAlike(es: seq<Hub.Event>, c: Hub.Client, u: Hub.User)
    requires es != [] && Hub.Valid(es) && Hub.UserOf(es[..|es| - 1], c) == Some(u)
    ensures Hub.UserOf(es, c) == Some(u)
    ensures Hub.Messages(es, c) == Hub.Messages(es[..|es| - 1], c) + Hub.Sent(es[|es| - 1], Some(u))
  {
    Hub.UserIsKnown(es[..|es| - 1], c);
  }

  /** From an event on after which connection c was there, what is sent to it is what is sent to its user. */
  lemma {:induction false} SentSince(es: seq<Hub.Event>, n: nat, c: Hub.Client, u: Hub.User)
      returns (since: seq<Hub.Message>)
    requires Hub.Valid(es) && n <= |es| && Hub.UserOf(es[..n], c) == Some(u)
    ensures SentTo(es, u) == SentTo(es[..n], u) + since
    ensures Hub.Messages(es, c) == Hub.Messages(es[..n], c) + since && Hub.UserOf(es, c) == Some(u)
  {
    if n == |es| {
      since := [];
      assert es[..n] == es;
    } else {
      var init := es[..|es| - 1];
      assert init[..n] == es[..n];
      since := SentSince(init, n, c, u);
      SentAlike(es, c, u);
      var sent := Hub.Sent(es[|es| - 1], Some(u));
      Assoc(SentTo(es[..n], u), since, sent);
      Assoc(Hub.Messages(es[..n], c), since, sent);
      since := since + sent;
    }
  }

  /** What is sent to a connection is the later part of what is sent to its user. */
  lemma {:induction false} SentToConnection(es: seq<Hub.Event>, c: Hub.Client, u: Hub.User)
      returns (before: seq<Hub.Message>)
    requires Hub.Valid(es) && Hub.UserOf(es, c) == Some(u)
    ensures SentTo(es, u) == before + Hub.Messages(es, c)
  {
    var init := es[..|es| - 1];
    if Hub.UserOf(init, c) == None {
      Hub.UserIsKnown(init, c);
      Hub.UnknownHeardNothing(init, c);
      before := SentTo(es, u);
    } else {
      SentAlike(es, c, Hub.UserOf(init, c).value);
      before := SentToConnection(init, c, u);
    }
  }

  lemma UserOfConnection(es: seq<Hub.Event>, c: Hub.Client) returns (u: Hub.User)
    requires Hub.Valid(es) && c in Hub.After(es).user
    ensures Hub.UserOf(es, c) == Some(u)
  {
    Hub.UserIsKnown(es, c);
    u := Hub.After(es).user[c];
  }

  /** What is sent to c's user: what c got none of, then what it got, then what it lost by being dropped. */
  lemma GotIsAPart(es: seq<Hub.Event>, c: Hub.Client, u: Hub.User)
      returns (before: seq<Hub.Message>, rest: seq<Hub.Message>)
    requires Hub.Valid(es) && c in Hub.After(es).user && Hub.UserOf(es, c) == Some(u)
    ensures SentTo(es, u) == before + (Hub.Got(Hub.After(es), c) + rest)
    ensures Hub.Live(Hub.After(es), c) ==> rest == []
  {
    before := SentToConnection(es, c, u);
    rest := LostByDrop(es, c);
  }

  lemma LostByDrop(es: seq<Hub.Event>, c: Hub.Client) returns (rest: seq<Hub.Message>)
    requires Hub.Valid(es) && c in Hub.After(es).user
    ensures Hub.Messages(es, c) == Hub.Got(Hub.After(es), c) + rest
    ensures Hub.Live(Hub.After(es), c) ==> rest == []
  {
    var _ := Hub.DeliveredWithoutGaps(es, c);
    rest := Rest(Hub.Messages(es, c), Hub.Got(Hub.After(es), c));
  }

  lemma Rest<T>(all: seq<T>, first: seq<T>) returns (rest: seq<T>)
    requires first <= all
    ensures all == first + rest && (all == first ==> rest == [])
  {
    rest := all[|first|..];
  }

  lemma {:induction false} OwnReportsAreListed(rs: seq<Report>, id: JobId)
    ensures forall r :: r in rs && r.job.id == id ==> r in JobLane.ReportsOf(rs, id)
  {
    if rs != [] {
      assert rs == rs[..|rs| - 1] + [rs[|rs| - 1]];
      OwnReportsAreListed(rs[..|rs| - 1], id);
    }
  }

  lemma {:induction false} ItemTraceIsOfKind(h: Header, items: seq<Item>, done: seq<Outcome>)
    requires |done| <= |items|
    ensures forall r :: r in ItemTrace(h, items, done) ==> r.job.kind == h.kind
  {
    if done != [] { ItemTraceIsOfKind(h, items, done[..|done| - 1]); }
  }

  lemma TraceIsOfKind(r: Record)
    requires ValidRecord(r)
    ensures forall x :: x in Trace(r) ==> x.job.kind == r.h.kind
  {
    if r.listing.Ok? { ItemTraceIsOfKind(r.h, r.listing.value, r.done); }
  }

  /** In every run, all that the owner of a finished job is told about it is its trace; no one else is
      told anything. */
  lemma OwnerIsToldTheTrace(net: Wiring, run: seq<System>, i: nat, r: Record, u: Hub.User)
    requires Understands(net) && IsRun(net, run) && i < |run| && r in run[i].lane.past && r.h.kind == net.kind
    ensures ValidRecord(r)
    ensures Told(net, run[i].lane.reported, u, r.h.id) == if net.owner(r.h.id) == u then EventsOf(Trace(r)) else []
  {
    var s := run[i].lane;
    RunKeepsInv(net, run, i);
    JobLane.FinishedReportsItsTrace(s, r);
    OwnReportsAreListed(s.reported, r.h.id);
    TraceIsOfKind(r);
    ToldIsReported(net, s.reported, u, r.h.id);
  }

  lemma Parts(net: Wiring, before: seq<Hub.Message>, got: seq<Hub.Message>, n: nat, rest: seq<Hub.Message>, id: JobId)
    requires n <= |got|
    ensures About(net, before + (got + rest), id) ==
            About(net, before, id) + About(net, got[..n], id) + About(net, got[n..], id) + About(net, rest, id)
  {
    assert got == got[..n] + got[n..];
    AboutConcat(net, before, got + rest, id);
    AboutConcat(net, got, rest, id);
    AboutConcat(net, got[..n], got[n..], id);
  }

  /** What came over a connection about a finished job, from some message on, is a part of its trace. */
  lemma CameOfTheTrace(net: Wiring, run: seq<System>, j: nat, i: nat, r: Record, c: Hub.Client, n: nat)
    requires Understands(net) && IsRun(net, run) && j <= i < |run| && r in run[i].lane.past && r.h.kind == net.kind
    requires Connected(run[j], c) && n <= |Got(run[j], c)|
    ensures ValidRecord(r) && Thinned(About(net, Got(run[j], c)[n..], r.h.id), EventsOf(Trace(r)))
    ensures Reported(ReadAll(Got(run[j], c)[n..], net.read))
  {
    ReadIsReported(Got(run[j], c)[n..], net);
    var (s, id, got) := (run[j], r.h.id, Got(run[j], c));
    var u := UserOfConnection(s.es, c);
    var before, rest := GotIsAPart(s.es, c, u);
    Parts(net, before, got, n, rest, id);
    ReportsStayInOrder(net, run, j, u, id);
    RunGrows(net, run, j, i);
    var more := Rest(run[i].lane.reported, s.lane.reported);
    ToldConcat(net, s.lane.reported, more, u, id);
    OwnerIsToldTheTrace(net, run, i, r, u);
    PartOfAll(About(net, before, id), About(net, got[..n], id), About(net, got[n..], id), About(net, rest, id),
              About(net, For(s.feed, u), id), Told(net, more, u, id), EventsOf(Trace(r)));
  }

  lemma PartOfAll(a: seq<Event>, b: seq<Event>, part: seq<Event>, x: seq<Event>, y: seq<Event>, z: seq<Event>,
                  all: seq<Event>)
    requires a + b + part + x + y + z == all || a + b + part + x + y + z == []
    ensures Thinned(part, all)
  {
    if a + b + part + x + y + z == all {
      assert all == (a + b) + part + (x + y + z);
      ThinnedToMiddle(a + b, part, x + y + z);
    } else {
      assert |part| == 0;
    }
  }

  /** In every run of the lane, the channel and the hub: a page that shows a job and gets its end while it
      only watches a connection shows the final job as the lane has it, whenever the connection was
      made, whatever other jobs, kinds and messages come in between, and whichever of the job's other
      reports it missed. */
  lemma WatcherSeesTheFinalJob(net: Wiring, run: seq<System>, j: nat, i: nat, r: Record, c: Hub.Client, n: nat,
                               p: Page, inputs: seq<Input>)
    requires Understands(net) && IsRun(net, run) && j <= i < |run| && r in run[i].lane.past && r.h.kind == net.kind
    requires Connected(run[j], c) && n <= |Got(run[j], c)|
    requires Watched(p, inputs, ReadAll(Got(run[j], c)[n..], net.read), r.h.id) && GotTheEnd(inputs, r.h.id)
    ensures ValidRecord(r) && After(p, inputs).view == Some(ViewOf(FinalJob(r)))
  {
    CameOfTheTrace(net, run, j, i, r, c, n);
    WatchedToTheEnd(r, p, inputs, ReadAll(Got(run[j], c)[n..], net.read));
  }

  /** In every run, whether the connection was made before or during the job, and is still there, was
      dropped in the middle or left: a page that shows a job as running and then only watches shows
      the final job if it got the end, and otherwise a moment the server was at, never anything else. */
  lemma WatcherShowsAPast(net: Wiring, run: seq<System>, j: nat, i: nat, r: Record, c: Hub.Client, n: nat,
                          p: Page, inputs: seq<Input>)
    requires Understands(net) && IsRun(net, run) && j <= i < |run| && r in run[i].lane.past && r.h.kind == net.kind
    requires Connected(run[j], c) && n <= |Got(run[j], c)|
    requires Watched(p, inputs, ReadAll(Got(run[j], c)[n..], net.read), r.h.id)
    requires p.view.value.phase == Running && p.queue == []
    ensures var w := After(p, inputs).view;
            && ValidRecord(r) && w.Some?
            && if GotTheEnd(inputs, r.h.id) then w.value == ViewOf(FinalJob(r))
               else ShowsAPast(w.value, p.view.value, r)
  {
    var came := ReadAll(Got(run[j], c)[n..], net.read);
    CameOfTheTrace(net, run, j, i, r, c, n);
    if GotTheEnd(inputs, r.h.id) {
      WatchedToTheEnd(r, p, inputs, came);
    } else {
      WatchedSoFar(r, p, inputs, came);
    }
  }

  // ----- A connection that is still there -----

  /** The end of job r, as a page reads it. */
  function EndEvent(r: Record): Event
    requires ValidRecord(r)
  {
    Finishes(ViewOf(FinalJob(r)))
  }

  /** Connection c of user u was there before the hub sent the end of r, is there now, and the channel
      holds nothing more about r. */
  ghost predicate StaysConnected(net: Wiring, before: System, now: System, c: Hub.Client, u: Hub.User, r: Record)
    requires ValidRecord(r)
  {
    && Connected(before, c) && Hub.UserOf(before.es, c) == Some(u)
    && EndEvent(r) !in About(net, SentTo(before.es, u), r.h.id)
    && Connected(now, c) && Hub.Live(Hub.After(now.es), c) && About(net, For(now.feed, u), r.h.id) == []
  }

  lemma SentAfter(es: seq<Hub.Event>, n: nat, c: Hub.Client, u: Hub.User, net: Wiring, id: JobId, e: Event)
    requires Hub.Valid(es) && n <= |es| && Hub.UserOf(es[..n], c) == Some(u)
    requires e in About(net, SentTo(es, u), id) && e !in About(net, SentTo(es[..n], u), id)
    ensures e in About(net, Hub.Messages(es, c), id)
  {
    var since := SentSince(es, n, c, u);
    AboutConcat(net, SentTo(es[..n], u), since, id);
    AboutConcat(net, Hub.Messages(es[..n], c), since, id);
  }

  /** In every run: a connection of the owner that was there before the end was sent, and still is once
      all is sent, gets the end. */
  lemma ConnectedClientsGetTheEnd(net: Wiring, run: seq<System>, k: nat, j: nat, r: Record, c: Hub.Client)
    requires Understands(net) && IsRun(net, run) && k <= j < |run| && r in run[j].lane.past
    requires r.h.kind == net.kind && ValidRecord(r)
    requires StaysConnected(net, run[k], run[j], c, net.owner(r.h.id), r)
    ensures EndEvent(r) in About(net, Got(run[j], c), r.h.id)
  {
    var (es, u, id) := (run[j].es, net.owner(r.h.id), r.h.id);
    RunGrows(net, run, k, j);
    assert es[..|run[k].es|] == run[k].es;
    OwnerIsToldTheTrace(net, run, j, r, u);
    ReportsStayInOrder(net, run, j, u, id);
    var sent := About(net, SentTo(es, u), id);
    assert sent + [] == sent;
    TraceEndsWith(r);
    assert EndEvent(r) in sent;
    SentAfter(es, |run[k].es|, c, u, net, id, EndEvent(r));
    var _ := Hub.DeliveredWithoutGaps(es, c);
  }

  lemma StillToCome(net: Wiring, got: seq<Hub.Message>, n: nat, id: JobId, e: Event)
    requires n <= |got| && e in About(net, got, id) && e !in About(net, got[..n], id)
    ensures e in About(net, got[n..], id)
  {
    assert got == got[..n] + got[n..];
    AboutConcat(net, got[..n], got[n..], id);
    InTheRest(About(net, got[..n], id), About(net, got[n..], id), e);
  }

  lemma InTheRest<T>(a: seq<T>, b: seq<T>, x: T)
    requires x in a + b && x !in a
    ensures x in b
  {
  }

  /** In every run: a page that shows a job over such a connection, and misses nothing of what comes
      after it showed it, shows the final job. */
  lemma ConnectedWatcherShowsTheEnd(net: Wiring, run: seq<System>, k: nat, j: nat, r: Record, c: Hub.Client, n: nat,
                                    p: Page, inputs: seq<Input>)
    requires Understands(net) && IsRun(net, run) && k <= j < |run| && r in run[j].lane.past
    requires r.h.kind == net.kind && ValidRecord(r)
    requires StaysConnected(net, run[k], run[j], c, net.owner(r.h.id), r)
    requires n <= |Got(run[j], c)| && EndEvent(r) !in About(net, Got(run[j], c)[..n], r.h.id)
    requires Watched(p, inputs, ReadAll(Got(run[j], c)[n..], net.read), r.h.id)
    requires MessagesOf(inputs) == ReadAll(Got(run[j], c)[n..], net.read)
    ensures After(p, inputs).view == Some(ViewOf(FinalJob(r)))
  {
    ConnectedClientsGetTheEnd(net, run, k, j, r, c);
    StillToCome(net, Got(run[j], c), n, r.h.id, EndEvent(r));
    ReadIsReported(Got(run[j], c)[n..], net);
    EndIsGot(inputs, r.h.id, EndEvent(r));
    WatcherSeesTheFinalJob(net, run, j, j, r, c, n, p, inputs);
  }
}
