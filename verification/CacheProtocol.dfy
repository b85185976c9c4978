/** Every interleaving of EnsureSegment and Sweep calls on one segment cache
    (internal/streaming/segment_cache.go). A step is one critical section or one file operation;
    what the generator, the file system, the clock and the callers' contexts do is chosen freely. */
module CacheProtocol {
  import opened SegmentTable
  import opened MapSums
  import opened CacheState

  /** Where a call of EnsureSegment stands. */
  datatype Phase =
    | Asking
    | Waiting(ch: nat)
    | MakingDir
    | Generating
    | Written(size: int)
    | Renamed(size: int)
    | Finishing(ok: bool)
    | Done(ok: bool)
  {
    /** Between inserting the in-flight channel and closing it. */
    predicate Producing() {
      !Asking? && !Waiting? && !Done?
    }

    /** After creating the directory, and not failing. */
    predicate UsesDir() {
      Generating? || Written? || Renamed? || (Finishing? && ok)
    }
  }

  /** One call; own is the channel it inserted, if it leads. */
  datatype Call = Call(video: VideoId, idx: nat, phase: Phase, own: nat)

  /** Who inserted a channel, and for which key. */
  datatype Opening = Opening(call: nat, key: string)

  /** openings and closes record the history of the channels. */
  datatype State = State(
    c: Cache,
    calls: map<nat, Call>,
    openings: map<nat, Opening>,
    closes: seq<(nat, nat)>)

  datatype Config = Config(maxBytes: int, idleTimeout: int)

  ghost predicate Init(s: State) {
    s == State(Cache(map[], map[], map[], {}), map[], map[], [])
  }

  predicate Closed(s: State, ch: nat) {
    exists i :: 0 <= i < |s.closes| && s.closes[i].0 == ch
  }

  datatype Step =
    | Arrive(t: nat, video: VideoId, idx: nat)
    | Ask(t: nat, now: int, ch: nat)
    | Wake(t: nat)
    | GiveUp(t: nat)
    | MakeDir(t: nat, ok: bool)
    | Generate(t: nat, size: Option<int>)
    | Rename(t: nat, ok: bool)
    | Book(t: nat, now: int, victims: seq<VideoId>)
    | Close(t: nat)
    | Sweep(now: int, victims: seq<VideoId>)

  function KeyOf(call: Call): string {
    Key(call.video, call.idx)
  }

  function SetPhase(s: State, t: nat, phase: Phase): State
    requires t in s.calls
  {
    s.(calls := s.calls[t := s.calls[t].(phase := phase)])
  }

  ghost predicate Enabled(cfg: Config, s: State, step: Step) {
    match step
    case Arrive(t, _, _) => t !in s.calls
    case Ask(t, _, ch) => t in s.calls && s.calls[t].phase.Asking? && ch !in s.openings
    case Wake(t) => t in s.calls && s.calls[t].phase.Waiting? && Closed(s, s.calls[t].phase.ch)
    case GiveUp(t) => t in s.calls && s.calls[t].phase.Waiting?
    case MakeDir(t, _) => t in s.calls && s.calls[t].phase.MakingDir?
    case Generate(t, size) =>
      && t in s.calls && s.calls[t].phase.Generating?
      && (size.Some? ==> size.value >= 0 && s.calls[t].video in s.c.dirs)
    case Rename(t, ok) =>
      t in s.calls && s.calls[t].phase.Written? && (ok ==> s.calls[t].video in s.c.dirs)
    case Book(t, now, victims) =>
      && t in s.calls && s.calls[t].phase.Renamed?
      && var call := s.calls[t];
         Evicts(Charge(s.c, call.video, call.phase.size, now), cfg.maxBytes, call.video, victims)
    case Close(t) => t in s.calls && s.calls[t].phase.Finishing?
    case Sweep(now, victims) => Sweeps(s.c, now, cfg.idleTimeout, victims)
  }

  function Apply(s: State, step: Step): State
    requires !step.Arrive? && !step.Sweep? ==> step.t in s.calls
    requires step.Generate? || step.Rename? || step.Book? || step.Close? ==> s.calls[step.t].phase.Producing()
    requires step.Rename? ==> s.calls[step.t].phase.Written?
    requires step.Book? ==> s.calls[step.t].phase.Renamed?
    requires step.Close? ==> s.calls[step.t].phase.Finishing?
  {
    match step
    case Arrive(t, v, idx) => s.(calls := s.calls[t := Call(v, idx, Asking, 0)])
    case Ask(t, now, ch) =>
      var call := s.calls[t];
      var (c', found) := Lookup(s.c, call.video, call.idx, now, ch);
      match found {
        case Hit => SetPhase(s.(c := c'), t, Done(true))
        case Join(other) => SetPhase(s.(c := c'), t, Waiting(other))
        case Lead =>
          s.(c := c',
             calls := s.calls[t := Call(call.video, call.idx, MakingDir, ch)],
             openings := s.openings[ch := Opening(t, KeyOf(call))])
      }
    case Wake(t) => SetPhase(s, t, Asking)
    case GiveUp(t) => SetPhase(s, t, Done(false))
    case MakeDir(t, ok) =>
      if ok then SetPhase(s.(c := s.c.(dirs := s.c.dirs + {s.calls[t].video})), t, Generating)
      else SetPhase(s, t, Finishing(false))
    case Generate(t, size) =>
      if size.Some? then SetPhase(s, t, Written(size.value)) else SetPhase(s, t, Finishing(false))
    case Rename(t, ok) =>
      var size := s.calls[t].phase.size;
      if ok then SetPhase(s.(c := s.c.(disk := s.c.disk[KeyOf(s.calls[t]) := size])), t, Renamed(size))
      else SetPhase(s, t, Finishing(false))
    case Book(t, now, victims) =>
      var call := s.calls[t];
      SetPhase(s.(c := DropAll(Charge(s.c, call.video, call.phase.size, now), victims)), t, Finishing(true))
    case Close(t) =>
      var call := s.calls[t];
      var ch := if KeyOf(call) in s.c.inflight then s.c.inflight[KeyOf(call)] else 0;
      SetPhase(s.(c := Clear(s.c, call.video, call.idx), closes := s.closes + [(ch, t)]), t, Done(call.phase.ok))
    case Sweep(_, victims) => s.(c := DropAll(s.c, victims))
  }

  ghost predicate Next(cfg: Config, s: State, s': State) {
    exists step :: Enabled(cfg, s, step) && s' == Apply(s, step)
  }

  ghost predicate IsRun(cfg: Config, run: seq<State>) {
    && |run| > 0 && Init(run[0])
    && forall i :: 0 <= i < |run| - 1 ==> NextAt(cfg, run, i)
  }

  ghost predicate NextAt(cfg: Config, run: seq<State>, i: nat)
    requires i + 1 < |run|
  {
    Next(cfg, run[i], run[i + 1])
  }

  // ----- The invariant -----

  ghost predicate Leads(s: State, t: nat) {
    t in s.calls && s.calls[t].phase.Producing()
  }

  /** A leader's channel is the one in flight under its key, and its own. */
  ghost predicate LeaderOwns(s: State, t: nat)
    requires t in s.calls
  {
    var key, own := KeyOf(s.calls[t]), s.calls[t].own;
    && key in s.c.inflight && s.c.inflight[key] == own
    && own in s.openings && s.openings[own] == Opening(t, key)
  }

  /** A channel in flight belongs to a live leader of its key. */
  ghost predicate HasLeader(s: State, key: string)
    requires key in s.c.inflight
  {
    var ch := s.c.inflight[key];
    && ch in s.openings && s.openings[ch].key == key
    && var t := s.openings[ch].call; Leads(s, t) && s.calls[t].own == ch && KeyOf(s.calls[t]) == key
  }

  /** A channel is in flight until it is closed. */
  ghost predicate OpenUntilClosed(s: State, ch: nat)
    requires ch in s.openings
  {
    var key := s.openings[ch].key;
    Closed(s, ch) <==> !(key in s.c.inflight && s.c.inflight[key] == ch)
  }

  /** A close was done by the call that inserted the channel, and not before. */
  ghost predicate FirstClose(s: State, i: nat)
    requires i < |s.closes|
  {
    && s.closes[i].0 in s.openings && s.openings[s.closes[i].0].call == s.closes[i].1
    && forall j :: 0 <= j < i ==> s.closes[j].0 != s.closes[i].0
  }

  ghost predicate Waits(s: State, t: nat) {
    t in s.calls && s.calls[t].phase.Waiting?
  }

  /** A waiter's channel was opened for its own key. */
  ghost predicate WaitsForItsKey(s: State, t: nat)
    requires Waits(s, t)
  {
    var ch := s.calls[t].phase.ch;
    ch in s.openings && s.openings[ch].key == KeyOf(s.calls[t])
  }

  ghost predicate Control(s: State) {
    && (forall t :: Leads(s, t) ==> LeaderOwns(s, t))
    && (forall key :: key in s.c.inflight ==> HasLeader(s, key))
    && (forall ch :: ch in s.openings ==> OpenUntilClosed(s, ch))
    && (forall i :: 0 <= i < |s.closes| ==> FirstClose(s, i))
    && (forall t :: Waits(s, t) ==> WaitsForItsKey(s, t))
  }

  // ----- Control: channels, leaders and waiters -----

  /** Everything about the calls but their phases is as it was, except at t. */
  ghost predicate OthersKept(s: State, s': State, t: nat) {
    && t in s.calls && t in s'.calls
    && s'.calls == s.calls[t := s'.calls[t]]
    && KeyOf(s'.calls[t]) == KeyOf(s.calls[t])
  }

  /** A step that moves one call between two phases it leads in, or two it does not. */
  lemma PhaseKeepsControl(s: State, s': State, t: nat)
    requires Control(s) && OthersKept(s, s', t) && s'.calls[t].own == s.calls[t].own
    requires s.calls[t].phase.Producing() <==> s'.calls[t].phase.Producing()
    requires s'.calls[t].phase.Waiting? ==>
               KeyOf(s.calls[t]) in s.c.inflight && s'.calls[t].phase.ch == s.c.inflight[KeyOf(s.calls[t])]
    requires s'.c.inflight == s.c.inflight && s'.openings == s.openings && s'.closes == s.closes
    ensures Control(s')
  {
    forall u | Leads(s', u) ensures LeaderOwns(s', u) {
      assert Leads(s, u);
    }
    forall key | key in s'.c.inflight ensures HasLeader(s', key) {
      assert HasLeader(s, key);
    }
    forall ch | ch in s'.openings ensures OpenUntilClosed(s', ch) {
      assert OpenUntilClosed(s, ch) && (Closed(s', ch) <==> Closed(s, ch));
    }
    forall i | 0 <= i < |s'.closes| ensures FirstClose(s', i) {
      assert FirstClose(s, i);
    }
    forall u | Waits(s', u) ensures WaitsForItsKey(s', u) {
      if u == t { assert HasLeader(s, KeyOf(s.calls[t])); } else { assert Waits(s, u); }
    }
  }

  lemma UnopenedIsNotClosed(s: State, ch: nat)
    requires Control(s) && ch !in s.openings
    ensures !Closed(s, ch)
  {
    forall i | 0 <= i < |s.closes| ensures s.closes[i].0 != ch {
      assert FirstClose(s, i);
    }
  }

  /** Call t inserts channel ch under its key. */
  ghost predicate StartsToLead(s: State, s': State, t: nat, ch: nat) {
    && t in s.calls && s.calls[t].phase.Asking?
    && KeyOf(s.calls[t]) !in s.c.inflight && ch !in s.openings
    && s'.calls == s.calls[t := Call(s.calls[t].video, s.calls[t].idx, MakingDir, ch)]
    && s'.c.inflight == s.c.inflight[KeyOf(s.calls[t]) := ch]
    && s'.openings == s.openings[ch := Opening(t, KeyOf(s.calls[t]))] && s'.closes == s.closes
  }

  lemma LeadKeepsLeaders(s: State, s': State, t: nat, ch: nat)
    requires Control(s) && StartsToLead(s, s', t, ch)
    ensures forall u :: Leads(s', u) ==> LeaderOwns(s', u)
    ensures forall key :: key in s'.c.inflight ==> HasLeader(s', key)
  {
    forall u | Leads(s', u) ensures LeaderOwns(s', u) {
      if u != t { assert Leads(s, u) && LeaderOwns(s, u); }
    }
    forall k | k in s'.c.inflight ensures HasLeader(s', k) {
      if k != KeyOf(s.calls[t]) { assert HasLeader(s, k); }
    }
  }

  lemma LeadKeepsControl(s: State, s': State, t: nat, ch: nat)
    requires Control(s) && StartsToLead(s, s', t, ch)
    ensures Control(s')
  {
    LeadKeepsLeaders(s, s', t, ch);
    forall c | c in s'.openings ensures OpenUntilClosed(s', c) {
      assert Closed(s', c) <==> Closed(s, c);
      if c == ch { UnopenedIsNotClosed(s, ch); } else { assert OpenUntilClosed(s, c); }
    }
    forall i | 0 <= i < |s'.closes| ensures FirstClose(s', i) {
      assert FirstClose(s, i);
    }
    forall u | Waits(s', u) ensures WaitsForItsKey(s', u) {
      assert Waits(s, u) && WaitsForItsKey(s, u);
    }
  }

  lemma CloseKeepsControl(s: State, s': State, t: nat)
    requires Control(s) && t in s.calls && s.calls[t].phase.Finishing?
    requires s' == Apply(s, Close(t))
    ensures Control(s')
  {
    var key, ch := KeyOf(s.calls[t]), s.calls[t].own;
    assert Leads(s, t) && LeaderOwns(s, t) && OpenUntilClosed(s, ch);
    assert s'.closes == s.closes + [(ch, t)] && s'.c.inflight == s.c.inflight - {key};
    forall u | Leads(s', u) ensures LeaderOwns(s', u) {
      assert Leads(s, u) && LeaderOwns(s, u);
    }
    forall k | k in s'.c.inflight ensures HasLeader(s', k) {
      assert HasLeader(s, k);
    }
    forall c | c in s'.openings ensures OpenUntilClosed(s', c) {
      assert OpenUntilClosed(s, c);
      ClosedAfter(s, s', t, ch, c);
    }
    forall i | 0 <= i < |s'.closes| ensures FirstClose(s', i) {
      if i < |s.closes| { assert FirstClose(s, i); }
    }
    forall u | Waits(s', u) ensures WaitsForItsKey(s', u) {
      assert Waits(s, u) && WaitsForItsKey(s, u);
    }
  }

  lemma ClosedAfter(s: State, s': State, t: nat, ch: nat, c: nat)
    requires s'.closes == s.closes + [(ch, t)]
    ensures Closed(s', c) <==> c == ch || Closed(s, c)
  {
    if c == ch { assert s'.closes[|s.closes|].0 == ch; }
    if Closed(s, c) {
      var i :| 0 <= i < |s.closes| && s.closes[i].0 == c;
      assert s'.closes[i].0 == c;
    }
  }

  // ----- Files: what is on disk against what is booked -----

  /** A leader's file is absent until it renames it in place and present from then on, and its
      directory stays from its creation on. */
  ghost predicate LeaderFile(s: State, t: nat)
    requires t in s.calls
  {
    var call := s.calls[t];
    var key := KeyOf(call);
    && (call.phase.MakingDir? || call.phase.Generating? || call.phase.Written? ==> key !in s.c.disk)
    && (call.phase.Renamed? ==> key in s.c.disk && s.c.disk[key] == call.phase.size)
    && (call.phase == Finishing(true) ==> key in s.c.disk)
    && (call.phase.UsesDir() ==> call.video in s.c.dirs)
  }

  /** The files renamed in place that their leaders have not booked yet. */
  function Unbooked(s: State): set<string> {
    set t | t in s.calls && s.calls[t].phase.Renamed? :: KeyOf(s.calls[t])
  }

  function FilesOf(c: Cache, v: VideoId): map<string, int> {
    map p | p in c.disk && Under(p, v) :: c.disk[p]
  }

  /** A video's booked size is the size of its booked files. */
  ghost predicate Balanced(s: State, v: VideoId) {
    SizeOf(s.c.videos, v) == Sum(FilesOf(s.c, v) - Unbooked(s))
  }

  ghost predicate Files(s: State) {
    && (forall t :: Leads(s, t) ==> LeaderFile(s, t))
    && (forall v :: Balanced(s, v))
  }

  ghost predicate Inv(s: State) {
    Control(s) && Files(s)
  }

  /** Two leaders of one key are one call. */
  lemma LeadersAreUnique(s: State, t: nat, u: nat)
    requires Control(s) && Leads(s, t) && Leads(s, u) && KeyOf(s.calls[t]) == KeyOf(s.calls[u])
    ensures t == u
  {
    assert LeaderOwns(s, t) && LeaderOwns(s, u);
  }

  /** A step that touches neither files nor booked sizes. */
  lemma PhaseKeepsFiles(s: State, s': State, t: nat)
    requires Files(s) && OthersKept(s, s', t)
    requires !s.calls[t].phase.Renamed? && !s'.calls[t].phase.Renamed?
    requires Leads(s', t) ==> LeaderFile(s', t)
    requires s'.c.disk == s.c.disk && s.c.dirs <= s'.c.dirs
    requires forall v :: SizeOf(s'.c.videos, v) == SizeOf(s.c.videos, v)
    ensures Files(s')
  {
    forall u | Leads(s', u) ensures LeaderFile(s', u) {
      if u != t { assert Leads(s, u) && LeaderFile(s, u); }
    }
    UnbookedKept(s, s', t);
    forall v ensures Balanced(s', v) {
      assert Balanced(s, v) && FilesOf(s'.c, v) == FilesOf(s.c, v);
    }
  }

  lemma UnbookedKept(s: State, s': State, t: nat)
    requires OthersKept(s, s', t)
    requires !s.calls[t].phase.Renamed? && !s'.calls[t].phase.Renamed?
    ensures Unbooked(s') == Unbooked(s)
  {
    assert forall u :: u != t ==> (u in s'.calls <==> u in s.calls) && (u in s.calls ==> s'.calls[u] == s.calls[u]);
  }

  lemma RenameKeepsLeaderFiles(s: State, t: nat, u: nat)
    requires Inv(s) && t in s.calls && s.calls[t].phase.Written? && s.calls[t].video in s.c.dirs
    requires Leads(Apply(s, Rename(t, true)), u)
    ensures LeaderFile(Apply(s, Rename(t, true)), u)
  {
    assert Leads(s, t) && Leads(s, u) && LeaderFile(s, u);
    if KeyOf(s.calls[u]) == KeyOf(s.calls[t]) { LeadersAreUnique(s, t, u); }
  }

  lemma RenameKeepsFiles(s: State, t: nat)
    requires Inv(s) && t in s.calls && s.calls[t].phase.Written? && s.calls[t].video in s.c.dirs
    ensures Files(Apply(s, Rename(t, true)))
  {
    var s' := Apply(s, Rename(t, true));
    forall u | Leads(s', u) ensures LeaderFile(s', u) {
      RenameKeepsLeaderFiles(s, t, u);
    }
    assert Leads(s, t) && LeaderFile(s, t);
    UnbookedGains(s, s', t);
    forall v ensures Balanced(s', v) {
      assert Balanced(s, v);
      assert FilesOf(s'.c, v) - Unbooked(s') == FilesOf(s.c, v) - Unbooked(s);
    }
  }

  lemma UnbookedGains(s: State, s': State, t: nat)
    requires OthersKept(s, s', t)
    requires !s.calls[t].phase.Renamed? && s'.calls[t].phase.Renamed?
    ensures Unbooked(s') == Unbooked(s) + {KeyOf(s.calls[t])}
  {
    assert forall u :: u != t ==> (u in s'.calls <==> u in s.calls) && (u in s.calls ==> s'.calls[u] == s.calls[u]);
    assert KeyOf(s'.calls[t]) in Unbooked(s');
    forall k | k in Unbooked(s) ensures k in Unbooked(s') {
      var u :| u in s.calls && s.calls[u].phase.Renamed? && KeyOf(s.calls[u]) == k;
      assert u in s'.calls && s'.calls[u] == s.calls[u];
    }
  }

  /** Booking, before eviction. */
  function Booked(s: State, t: nat, now: int): State
    requires t in s.calls && s.calls[t].phase.Renamed?
  {
    var call := s.calls[t];
    SetPhase(s.(c := Charge(s.c, call.video, call.phase.size, now)), t, Finishing(true))
  }

  lemma BookKeepsFiles(s: State, t: nat, now: int)
    requires Inv(s) && t in s.calls && s.calls[t].phase.Renamed?
    ensures Files(Booked(s, t, now))
  {
    var s' := Booked(s, t, now);
    var call := s.calls[t];
    var key := KeyOf(call);
    assert Leads(s, t) && LeaderFile(s, t);
    forall u | Leads(s', u) ensures LeaderFile(s', u) {
      assert Leads(s, u) && LeaderFile(s, u);
    }
    UnbookedLoses(s, s', t);
    KeyIsExact(call.video, call.idx, call.video);
    forall v ensures Balanced(s', v) {
      assert Balanced(s, v);
      var before := FilesOf(s.c, v) - Unbooked(s);
      KeyIsExact(call.video, call.idx, v);
      if v == call.video {
        assert FilesOf(s'.c, v) - Unbooked(s') == before[key := call.phase.size];
        SumAdd(before, key, call.phase.size);
      } else {
        assert FilesOf(s'.c, v) - Unbooked(s') == before;
      }
    }
  }

  lemma UnbookedLoses(s: State, s': State, t: nat)
    requires Control(s) && OthersKept(s, s', t)
    requires s.calls[t].phase.Renamed? && !s'.calls[t].phase.Renamed?
    ensures KeyOf(s.calls[t]) in Unbooked(s)
    ensures Unbooked(s') == Unbooked(s) - {KeyOf(s.calls[t])}
  {
    var key := KeyOf(s.calls[t]);
    assert forall u :: u != t ==> (u in s'.calls <==> u in s.calls) && (u in s.calls ==> s'.calls[u] == s.calls[u]);
    forall k | k in Unbooked(s) && k != key ensures k in Unbooked(s') {
      var u :| u in s.calls && s.calls[u].phase.Renamed? && KeyOf(s.calls[u]) == k;
      assert u in s'.calls && s'.calls[u] == s.calls[u];
    }
    forall u | u in s'.calls && s'.calls[u].phase.Renamed? ensures KeyOf(s'.calls[u]) != key {
      if KeyOf(s.calls[u]) == key { assert Leads(s, t) && Leads(s, u); LeadersAreUnique(s, t, u); }
    }
  }

  /** Removing a video no segment of which is in flight. */
  lemma DropKeepsFiles(s: State, v: VideoId)
    requires Inv(s) && !HasInflight(s.c.inflight, v)
    ensures Files(s.(c := Drop(s.c, v)))
  {
    var s' := s.(c := Drop(s.c, v));
    forall t | Leads(s', t) ensures LeaderFile(s', t) {
      assert Leads(s, t) && LeaderFile(s, t) && LeaderOwns(s, t);
      KeyIsExact(s.calls[t].video, s.calls[t].idx, v);
      KeyIsExact(s.calls[t].video, s.calls[t].idx, s.calls[t].video);
    }
    forall w: VideoId ensures Balanced(s', w) {
      DropKeepsBalance(s, v, w);
    }
  }

  lemma DropKeepsBalance(s: State, v: VideoId, w: VideoId)
    requires Balanced(s, w)
    ensures Balanced(s.(c := Drop(s.c, v)), w)
  {
    var s' := s.(c := Drop(s.c, v));
    if w == v {
      assert FilesOf(s'.c, w) - Unbooked(s') == map[];
    } else {
      forall p | p in s.c.disk && Under(p, w) ensures !Under(p, v) {
        if Under(p, v) { UnderOne(p, v, w); }
      }
      assert FilesOf(s'.c, w) == FilesOf(s.c, w);
    }
  }

  lemma {:induction false} DropAllKeepsInv(s: State, victims: seq<VideoId>)
    requires Inv(s) && forall i :: 0 <= i < |victims| ==> !HasInflight(s.c.inflight, victims[i])
    ensures Inv(s.(c := DropAll(s.c, victims)))
    decreases |victims|
  {
    if victims != [] {
      var next := s.(c := Drop(s.c, victims[0]));
      DropKeepsFiles(s, victims[0]);
      SameControl(s, next);
      DropAllKeepsInv(next, victims[1..]);
    }
  }

  /** Control does not look at videos, files or directories. */
  lemma SameControl(s: State, s': State)
    requires Control(s)
    requires s'.calls == s.calls && s'.openings == s.openings && s'.closes == s.closes
    requires s'.c.inflight == s.c.inflight
    ensures Control(s')
  {
    assert forall t :: Leads(s', t) <==> Leads(s, t);
    forall t | Leads(s', t) ensures LeaderOwns(s', t) {
      assert Leads(s, t);
    }
    forall key | key in s'.c.inflight ensures HasLeader(s', key) {
      assert HasLeader(s, key);
    }
    forall ch | ch in s'.openings ensures OpenUntilClosed(s', ch) {
      assert OpenUntilClosed(s, ch) && (Closed(s', ch) <==> Closed(s, ch));
    }
    forall i | 0 <= i < |s'.closes| ensures FirstClose(s', i) {
      assert FirstClose(s, i);
    }
    forall t | Waits(s', t) ensures WaitsForItsKey(s', t) {
      assert Waits(s, t);
    }
  }

  // ----- Every step keeps the invariant -----

  lemma AskKeepsControl(s: State, t: nat, now: int, ch: nat)
    requires Control(s) && t in s.calls && s.calls[t].phase.Asking? && ch !in s.openings
    ensures Control(Apply(s, Ask(t, now, ch)))
  {
    var s' := Apply(s, Ask(t, now, ch));
    var key := KeyOf(s.calls[t]);
    if key in s.c.disk || key in s.c.inflight {
      PhaseKeepsControl(s, s', t);
    } else {
      LeadKeepsControl(s, s', t, ch);
    }
  }

  lemma AskTouches(s: State, t: nat, now: int, ch: nat)
    requires t in s.calls && s.calls[t].phase.Asking?
    ensures var s' := Apply(s, Ask(t, now, ch));
            && OthersKept(s, s', t) && !s'.calls[t].phase.Renamed?
            && (s'.calls[t].phase.Producing() ==> s'.calls[t].phase.MakingDir? && KeyOf(s.calls[t]) !in s.c.disk)
            && s'.c.disk == s.c.disk && s'.c.dirs == s.c.dirs
            && forall v :: SizeOf(s'.c.videos, v) == SizeOf(s.c.videos, v)
  {
  }

  lemma AskKeepsInv(s: State, t: nat, now: int, ch: nat)
    requires Inv(s) && t in s.calls && s.calls[t].phase.Asking? && ch !in s.openings
    ensures Inv(Apply(s, Ask(t, now, ch)))
  {
    AskKeepsControl(s, t, now, ch);
    AskTouches(s, t, now, ch);
    PhaseKeepsFiles(s, Apply(s, Ask(t, now, ch)), t);
  }

  lemma BookKeepsInv(cfg: Config, s: State, t: nat, now: int, victims: seq<VideoId>)
    requires Inv(s) && Enabled(cfg, s, Book(t, now, victims))
    ensures Inv(Apply(s, Book(t, now, victims)))
  {
    var mid := Booked(s, t, now);
    PhaseKeepsControl(s, mid, t);
    BookKeepsFiles(s, t, now);
    forall i | 0 <= i < |victims| ensures !HasInflight(mid.c.inflight, victims[i]) {
      EvictedWereOldest(mid.c, cfg.maxBytes, s.calls[t].video, victims, i, s.calls[t].video);
    }
    DropAllKeepsInv(mid, victims);
    assert Apply(s, Book(t, now, victims)) == mid.(c := DropAll(mid.c, victims));
  }

  /** A step that only moves one call between phases, or creates its directory. */
  lemma MoveKeepsInv(s: State, s': State, t: nat)
    requires Inv(s) && OthersKept(s, s', t) && s'.calls[t].own == s.calls[t].own
    requires s.calls[t].phase.Producing() <==> s'.calls[t].phase.Producing()
    requires !s'.calls[t].phase.Waiting? && !s.calls[t].phase.Renamed? && !s'.calls[t].phase.Renamed?
    requires s'.openings == s.openings && s'.closes == s.closes
    requires s'.c.(dirs := s.c.dirs) == s.c && s.c.dirs <= s'.c.dirs
    requires Leads(s', t) ==> LeaderFile(s', t)
    ensures Inv(s')
  {
    PhaseKeepsControl(s, s', t);
    PhaseKeepsFiles(s, s', t);
  }

  lemma RenameKeepsInv(s: State, t: nat)
    requires Inv(s) && t in s.calls && s.calls[t].phase.Written? && s.calls[t].video in s.c.dirs
    ensures Inv(Apply(s, Rename(t, true)))
  {
    PhaseKeepsControl(s, Apply(s, Rename(t, true)), t);
    RenameKeepsFiles(s, t);
  }

  lemma CloseKeepsInv(s: State, t: nat)
    requires Inv(s) && t in s.calls && s.calls[t].phase.Finishing?
    ensures Inv(Apply(s, Close(t)))
  {
    CloseKeepsControl(s, Apply(s, Close(t)), t);
    PhaseKeepsFiles(s, Apply(s, Close(t)), t);
  }

  /** A new call changes nothing for the others. */
  lemma ArriveKeepsInv(s: State, t: nat, v: VideoId, idx: nat)
    requires Inv(s) && t !in s.calls
    ensures Inv(Apply(s, Arrive(t, v, idx)))
  {
    var s' := Apply(s, Arrive(t, v, idx));
    forall u | Leads(s', u) ensures LeaderOwns(s', u) && LeaderFile(s', u) {
      assert Leads(s, u) && LeaderOwns(s, u) && LeaderFile(s, u);
    }
    forall key | key in s'.c.inflight ensures HasLeader(s', key) {
      assert HasLeader(s, key);
    }
    forall ch | ch in s'.openings ensures OpenUntilClosed(s', ch) {
      assert OpenUntilClosed(s, ch) && (Closed(s', ch) <==> Closed(s, ch));
    }
    forall i | 0 <= i < |s'.closes| ensures FirstClose(s', i) {
      assert FirstClose(s, i);
    }
    forall u | Waits(s', u) ensures WaitsForItsKey(s', u) {
      assert Waits(s, u);
    }
    assert forall u :: u != t && u in s'.calls ==> u in s.calls && s'.calls[u] == s.calls[u];
    assert Unbooked(s') == Unbooked(s);
    forall w: VideoId ensures Balanced(s', w) {
      assert Balanced(s, w);
    }
  }

  lemma StepKeepsInv(cfg: Config, s: State, step: Step)
    requires Inv(s) && Enabled(cfg, s, step)
    ensures Inv(Apply(s, step))
  {
    var s' := Apply(s, step);
    match step
    case Arrive(t, v, idx) => ArriveKeepsInv(s, t, v, idx);
    case Ask(t, now, ch) => AskKeepsInv(s, t, now, ch);
    case Wake(t) => MoveKeepsInv(s, s', t);
    case GiveUp(t) => MoveKeepsInv(s, s', t);
    case MakeDir(t, ok) => assert Leads(s, t) && LeaderFile(s, t); MoveKeepsInv(s, s', t);
    case Generate(t, size) => assert Leads(s, t) && LeaderFile(s, t); MoveKeepsInv(s, s', t);
    case Rename(t, ok) =>
      assert Leads(s, t) && LeaderFile(s, t);
      if ok { RenameKeepsInv(s, t); } else { MoveKeepsInv(s, s', t); }
    case Book(t, now, victims) => BookKeepsInv(cfg, s, t, now, victims);
    case Close(t) => CloseKeepsInv(s, t);
    case Sweep(now, victims) =>
      forall i | 0 <= i < |victims| ensures !HasInflight(s.c.inflight, victims[i]) {
        assert victims[i] in victims;
      }
      DropAllKeepsInv(s, victims);
  }

  lemma StepOf(cfg: Config, run: seq<State>, i: nat) returns (step: Step)
    requires IsRun(cfg, run) && i + 1 < |run|
    ensures Enabled(cfg, run[i], step) && run[i + 1] == Apply(run[i], step)
  {
    assert NextAt(cfg, run, i);
    step :| Enabled(cfg, run[i], step) && run[i + 1] == Apply(run[i], step);
  }

  lemma {:induction false} RunKeepsInv(cfg: Config, run: seq<State>, i: nat)
    requires IsRun(cfg, run) && i < |run|
    ensures Inv(run[i])
  {
    if i == 0 {
      forall v: VideoId ensures Balanced(run[0], v) {
        assert FilesOf(run[0].c, v) - Unbooked(run[0]) == map[];
      }
    } else {
      RunKeepsInv(cfg, run, i - 1);
      var step := StepOf(cfg, run, i - 1);
      StepKeepsInv(cfg, run[i - 1], step);
    }
  }

  // ----- What every run keeps -----

  /** At most one generation of a segment runs at a time. */
  lemma OneGenerationAtATime(cfg: Config, run: seq<State>, i: nat, t: nat, u: nat)
    requires IsRun(cfg, run) && i < |run|
    requires Leads(run[i], t) && Leads(run[i], u)
    requires run[i].calls[t].video == run[i].calls[u].video && run[i].calls[t].idx == run[i].calls[u].idx
    ensures t == u
  {
    RunKeepsInv(cfg, run, i);
    LeadersAreUnique(run[i], t, u);
  }

  /** Each channel is closed at most once, by the call that inserted it; a closing call finds its
      own channel under its key; and every channel that is not closed has a live leader. */
  lemma ChannelsCloseOnce(cfg: Config, run: seq<State>, i: nat)
    requires IsRun(cfg, run) && i < |run|
    ensures var s := run[i];
            && (forall j, k :: 0 <= j < k < |s.closes| ==> s.closes[j].0 != s.closes[k].0)
            && (forall j :: 0 <= j < |s.closes| ==>
                  s.closes[j].0 in s.openings && s.openings[s.closes[j].0].call == s.closes[j].1)
            && (forall t :: Leads(s, t) ==>
                  KeyOf(s.calls[t]) in s.c.inflight && s.c.inflight[KeyOf(s.calls[t])] == s.calls[t].own)
            && (forall ch :: ch in s.openings && !Closed(s, ch) ==> Leads(s, s.openings[ch].call))
  {
    RunKeepsInv(cfg, run, i);
    var s := run[i];
    forall j, k | 0 <= j < k < |s.closes| ensures s.closes[j].0 != s.closes[k].0 {
      assert FirstClose(s, k);
    }
    forall j | 0 <= j < |s.closes|
      ensures s.closes[j].0 in s.openings && s.openings[s.closes[j].0].call == s.closes[j].1
    {
      assert FirstClose(s, j);
    }
    forall t | Leads(s, t)
      ensures KeyOf(s.calls[t]) in s.c.inflight && s.c.inflight[KeyOf(s.calls[t])] == s.calls[t].own
    {
      assert LeaderOwns(s, t);
    }
    forall ch | ch in s.openings && !Closed(s, ch) ensures Leads(s, s.openings[ch].call) {
      assert OpenUntilClosed(s, ch) && HasLeader(s, s.openings[ch].key);
    }
  }

  /** A waiter is never stranded: its channel is closed, or a live call is generating its segment. */
  lemma WaitersAreServed(cfg: Config, run: seq<State>, i: nat, t: nat)
    requires IsRun(cfg, run) && i < |run| && Waits(run[i], t)
    ensures var s := run[i];
            var ch := s.calls[t].phase.ch;
            Closed(s, ch) ||
            exists u :: Leads(s, u) && s.calls[u].own == ch &&
                        s.calls[u].video == s.calls[t].video && s.calls[u].idx == s.calls[t].idx
  {
    RunKeepsInv(cfg, run, i);
    var s := run[i];
    var ch := s.calls[t].phase.ch;
    assert WaitsForItsKey(s, t) && OpenUntilClosed(s, ch);
    if !Closed(s, ch) {
      assert HasLeader(s, KeyOf(s.calls[t]));
      var u := s.openings[ch].call;
      KeysDiffer(s.calls[u].video, s.calls[u].idx, s.calls[t].video, s.calls[t].idx);
    }
  }

  // ----- What calls are answered -----

  /** A call that asks is served exactly if its own segment's file is there; otherwise it waits for the
      channel in flight under its key, and leads exactly if there is none. */
  lemma AskDecides(cfg: Config, s: State, t: nat, now: int, ch: nat)
    requires Enabled(cfg, s, Ask(t, now, ch))
    ensures var (call, s') := (s.calls[t], Apply(s, Ask(t, now, ch)));
            var key := Key(call.video, call.idx);
            && (s'.calls[t].phase == Done(true) <==> key in s.c.disk)
            && (key !in s.c.disk && key in s.c.inflight ==> s'.calls[t].phase == Waiting(s.c.inflight[key]))
            && (key !in s.c.disk && key !in s.c.inflight ==>
                  s'.calls[t] == Call(call.video, call.idx, MakingDir, ch) && s'.c.inflight == s.c.inflight[key := ch])
            && (s'.calls[t].phase != MakingDir ==> s'.c.inflight == s.c.inflight)
  {
  }

  /** In every run a call returns a file only if that file is there as it returns, and fails only if it
      gave up waiting or could not generate the segment itself. */
  lemma CallsReturnFiles(cfg: Config, run: seq<State>, i: nat, t: nat)
    requires IsRun(cfg, run) && i + 1 < |run| && t in run[i].calls && !run[i].calls[t].phase.Done?
    requires t in run[i + 1].calls && run[i + 1].calls[t].phase.Done?
    ensures var (call, s') := (run[i].calls[t], run[i + 1]);
            var key := Key(call.video, call.idx);
            && s'.calls[t].video == call.video && s'.calls[t].idx == call.idx
            && (s'.calls[t].phase.ok ==> key in run[i].c.disk && key in s'.c.disk)
            && (!s'.calls[t].phase.ok ==> call.phase.Waiting? || call.phase == Finishing(false))
  {
    RunKeepsInv(cfg, run, i);
    var step := StepOf(cfg, run, i);
    if Leads(run[i], t) { assert LeaderFile(run[i], t); }
    ReturningStep(cfg, run[i], step, t);
  }

  lemma ReturningStep(cfg: Config, s: State, step: Step, t: nat)
    requires Enabled(cfg, s, step) && t in s.calls && !s.calls[t].phase.Done?
    requires s.calls[t].phase == Finishing(true) ==> KeyOf(s.calls[t]) in s.c.disk
    requires t in Apply(s, step).calls && Apply(s, step).calls[t].phase.Done?
    ensures var (call, s') := (s.calls[t], Apply(s, step));
            && KeyOf(s'.calls[t]) == KeyOf(call) && s'.calls[t].video == call.video && s'.calls[t].idx == call.idx
            && (s'.calls[t].phase.ok ==> KeyOf(call) in s.c.disk && KeyOf(call) in s'.c.disk)
            && (!s'.calls[t].phase.ok ==> call.phase.Waiting? || call.phase == Finishing(false))
  {
  }

  /** In every run a waiter goes back to asking only once its channel is closed. */
  lemma WaitersAskAgain(cfg: Config, run: seq<State>, i: nat, t: nat)
    requires IsRun(cfg, run) && i + 1 < |run| && Waits(run[i], t) && t in run[i + 1].calls
    ensures var (before, later) := (run[i].calls[t].phase, run[i + 1].calls[t].phase);
            later == before || later == Done(false) || (later == Asking && Closed(run[i], before.ch))
  {
    var step := StepOf(cfg, run, i);
  }

  /** A leader goes through creating the directory, writing, renaming and booking in this order, and out
      of it only by failing; when it has booked, its file's size is on disk and counted. */
  lemma LeadersProceed(cfg: Config, run: seq<State>, i: nat, t: nat)
    requires IsRun(cfg, run) && i + 1 < |run| && Leads(run[i], t)
    ensures t in run[i + 1].calls
    ensures var (p, p') := (run[i].calls[t].phase, run[i + 1].calls[t].phase);
            p' == p ||
            match p
            case MakingDir => p' == Generating || p' == Finishing(false)
            case Generating => p'.Written? || p' == Finishing(false)
            case Written(size) => p' == Renamed(size) || p' == Finishing(false)
            case Renamed(_) => p' == Finishing(true)
            case Finishing(ok) => p' == Done(ok)
            case _ => false
  {
    var step := StepOf(cfg, run, i);
  }

  /** In every run a leader is never stuck: it can create the directory, write a segment of any size, put
      it in place and book it, or fail at each of the first three; and closing its channel ends it with
      what it came to. */
  lemma LeadersCanGoOn(cfg: Config, run: seq<State>, i: nat, t: nat, ok: bool, size: nat, now: int)
      returns (victims: seq<VideoId>)
    requires IsRun(cfg, run) && i < |run| && Leads(run[i], t)
    ensures var (s, call) := (run[i], run[i].calls[t]);
            match call.phase
            case MakingDir =>
              && Enabled(cfg, s, MakeDir(t, ok)) && var s' := Apply(s, MakeDir(t, ok));
              s'.calls[t].phase == (if ok then Generating else Finishing(false)) && (ok ==> call.video in s'.c.dirs)
            case Generating =>
              && Enabled(cfg, s, Generate(t, Some(size))) && Enabled(cfg, s, Generate(t, None))
              && Apply(s, Generate(t, Some(size))).calls[t].phase == Written(size)
              && Apply(s, Generate(t, None)).calls[t].phase == Finishing(false)
            case Written(n) =>
              && Enabled(cfg, s, Rename(t, ok)) && var s' := Apply(s, Rename(t, ok));
              && s'.calls[t].phase == (if ok then Renamed(n) else Finishing(false))
              && (ok ==> KeyOf(call) in s'.c.disk && s'.c.disk[KeyOf(call)] == n)
            case Renamed(_) =>
              && Enabled(cfg, s, Book(t, now, victims))
              && Apply(s, Book(t, now, victims)).calls[t].phase == Finishing(true)
            case Finishing(came) =>
              && Enabled(cfg, s, Close(t)) && var s' := Apply(s, Close(t));
              s'.calls[t].phase == Done(came) && Closed(s', call.own)
            case _ => false
  {
    RunKeepsInv(cfg, run, i);
    var (s, call) := (run[i], run[i].calls[t]);
    assert LeaderFile(s, t) && LeaderOwns(s, t);
    victims := [];
    match call.phase {
      case Renamed(n) => victims := EvictionEnds(Charge(s.c, call.video, n, now), cfg.maxBytes, call.video);
      case Finishing(_) => ClosedAfter(s, Apply(s, Close(t)), t, call.own, call.own);
      case _ =>
    }
  }

  /** A call comes asking for its segment; and a waiter can ask again once its channel is closed, or give
      up at any time. */
  lemma CallsCanGoOn(cfg: Config, s: State, t: nat, video: VideoId, idx: nat)
    ensures t !in s.calls ==>
              && Enabled(cfg, s, Arrive(t, video, idx)) && var s' := Apply(s, Arrive(t, video, idx));
              t in s'.calls && s'.calls[t].video == video && s'.calls[t].idx == idx && s'.calls[t].phase == Asking
    ensures Waits(s, t) ==>
              && (Closed(s, s.calls[t].phase.ch) ==>
                    Enabled(cfg, s, Wake(t)) && Apply(s, Wake(t)).calls[t].phase == Asking)
              && Enabled(cfg, s, GiveUp(t)) && Apply(s, GiveUp(t)).calls[t].phase == Done(false)
  {
  }

  /** Booking adds a segment's size to its video and leaves the cache within its cap, or with nothing to
      evict: only the booked video and videos with a segment in flight. */
  lemma BookingSettles(cfg: Config, s: State, t: nat, now: int, victims: seq<VideoId>)
    requires Enabled(cfg, s, Book(t, now, victims))
    ensures var (call, c') := (s.calls[t], Apply(s, Book(t, now, victims)).c);
            && call.video in c'.videos
            && c'.videos[call.video] == Entry(SizeOf(s.c.videos, call.video) + call.phase.size, now)
            && (cfg.maxBytes <= 0 || Total(c'.videos) <= cfg.maxBytes ||
                forall v :: v in c'.videos ==> v == call.video || HasInflight(c'.inflight, v))
  {
    var call := s.calls[t];
    var charged := Charge(s.c, call.video, call.phase.size, now);
    EvictionSettles(charged, cfg.maxBytes, call.video, victims);
    RemovedAreGone(charged, victims);
    if call.video in victims {
      var i :| 0 <= i < |victims| && victims[i] == call.video;
      EvictedWereOldest(charged, cfg.maxBytes, call.video, victims, i, call.video);
    }
  }

  function UnbookedOf(s: State, v: VideoId): map<string, int> {
    map p | p in FilesOf(s.c, v) && p in Unbooked(s) :: FilesOf(s.c, v)[p]
  }

  /** The bytes of a video's finalised files are what is booked for it plus the files renamed in
      place whose call has not booked them yet. */
  lemma BytesAreAccounted(cfg: Config, run: seq<State>, i: nat, v: VideoId)
    requires IsRun(cfg, run) && i < |run|
    ensures var s := run[i];
            Sum(FilesOf(s.c, v)) == SizeOf(s.c.videos, v) + Sum(UnbookedOf(s, v))
  {
    RunKeepsInv(cfg, run, i);
    assert Balanced(run[i], v);
    SumSplit(FilesOf(run[i].c, v), Unbooked(run[i]));
    assert UnbookedOf(run[i], v) ==
           map p | p in FilesOf(run[i].c, v) && p in Unbooked(run[i]) :: FilesOf(run[i].c, v)[p];
  }

  /** A call that generates always finds its directory, and a call that succeeded still finds its
      file when it clears its in-flight entry, whatever was evicted or swept in between. */
  lemma WorkInProgressSurvives(cfg: Config, run: seq<State>, i: nat, t: nat)
    requires IsRun(cfg, run) && i < |run| && Leads(run[i], t)
    ensures var s := run[i];
            var call := s.calls[t];
            && (call.phase.UsesDir() ==> call.video in s.c.dirs)
            && (call.phase == Finishing(true) ==> KeyOf(call) in s.c.disk)
  {
    RunKeepsInv(cfg, run, i);
    assert LeaderFile(run[i], t);
  }

  /** No step removes the directory of a video while one of its segments is in flight. */
  lemma DirectoriesInUseStay(cfg: Config, run: seq<State>, i: nat, v: VideoId)
    requires IsRun(cfg, run) && i + 1 < |run|
    requires HasInflight(run[i].c.inflight, v) && v in run[i].c.dirs
    ensures v in run[i + 1].c.dirs
  {
    RunKeepsInv(cfg, run, i);
    var step := StepOf(cfg, run, i);
    InflightDirsStay(cfg, run[i], step, v);
  }

  lemma InflightDirsStay(cfg: Config, s: State, step: Step, v: VideoId)
    requires Enabled(cfg, s, step)
    requires HasInflight(s.c.inflight, v) && v in s.c.dirs
    ensures v in Apply(s, step).c.dirs
  {
    match step {
      case Book(t, now, victims) =>
        var mid := Booked(s, t, now);
        forall j | 0 <= j < |victims| ensures victims[j] != v {
          EvictedWereOldest(mid.c, cfg.maxBytes, s.calls[t].video, victims, j, v);
        }
        DropAllDirs(mid.c, victims, v);
      case Sweep(now, victims) =>
        forall j | 0 <= j < |victims| ensures victims[j] != v {
          assert victims[j] in victims;
        }
        DropAllDirs(s.c, victims, v);
      case _ =>
    }
  }

  lemma {:induction false} DropAllDirs(c: Cache, victims: seq<VideoId>, v: VideoId)
    requires v in c.dirs && forall j :: 0 <= j < |victims| ==> victims[j] != v
    ensures v in DropAll(c, victims).dirs
    decreases |victims|
  {
    if victims != [] {
      DropAllDirs(Drop(c, victims[0]), victims[1..], v);
    }
  }
}
