/** What "least recently used" means over a run of the segment cache
    (internal/streaming/segment_cache.go): a video's lastAccess is the time of the last call that
    asked for one of its segments or booked one. */
module CacheUse {
  import opened SegmentTable
  import opened CacheState
  import opened CacheProtocol

  /** The states of a run together with the steps between them. */
  ghost predicate IsTrace(cfg: Config, run: seq<State>, steps: seq<Step>) {
    && |run| == |steps| + 1 && Init(run[0])
    && forall i :: 0 <= i < |steps| ==> Moves(cfg, run, steps, i)
  }

  ghost predicate Moves(cfg: Config, run: seq<State>, steps: seq<Step>, i: nat)
    requires i < |steps| && |run| == |steps| + 1
  {
    Enabled(cfg, run[i], steps[i]) && run[i + 1] == Apply(run[i], steps[i])
  }

  /** When the step is a use of v: a call that asks for a segment of v, or books one. */
  function UseOf(s: State, step: Step, v: VideoId): Option<int> {
    match step
    case Ask(t, now, _) => if t in s.calls && s.calls[t].video == v then Some(now) else None
    case Book(t, now, _) => if t in s.calls && s.calls[t].video == v then Some(now) else None
    case _ => None
  }

  /** The time of the last use of v in the first n steps. */
  function LastUse(run: seq<State>, steps: seq<Step>, n: nat, v: VideoId): Option<int>
    requires n <= |steps| <= |run|
  {
    if n == 0 then None
    else if UseOf(run[n - 1], steps[n - 1], v).Some? then UseOf(run[n - 1], steps[n - 1], v)
    else LastUse(run, steps, n - 1, v)
  }

  /** A dropped video leaves the table, and the others' entries stay. */
  lemma DropAllEntries(c: Cache, victims: seq<VideoId>, v: VideoId)
    requires v in DropAll(c, victims).videos
    ensures v in c.videos && DropAll(c, victims).videos[v] == c.videos[v]
  {
    RemovedAreGone(c, victims);
  }

  lemma AskUses(s: State, t: nat, now: int, ch: nat, v: VideoId)
    requires t in s.calls && s.calls[t].phase.Asking?
    requires v in Apply(s, Ask(t, now, ch)).c.videos
    ensures v in s.c.videos
    ensures Apply(s, Ask(t, now, ch)).c.videos[v].lastAccess ==
            if s.calls[t].video == v then now else s.c.videos[v].lastAccess
  {
  }

  lemma BookUses(s: State, t: nat, now: int, victims: seq<VideoId>, v: VideoId)
    requires t in s.calls && s.calls[t].phase.Renamed?
    requires v in Apply(s, Book(t, now, victims)).c.videos
    ensures s.calls[t].video != v ==> v in s.c.videos
    ensures Apply(s, Book(t, now, victims)).c.videos[v].lastAccess ==
            if s.calls[t].video == v then now else s.c.videos[v].lastAccess
  {
    var call := s.calls[t];
    DropAllEntries(Charge(s.c, call.video, call.phase.size, now), victims, v);
  }

  lemma StepUses(cfg: Config, s: State, step: Step, v: VideoId)
    requires Enabled(cfg, s, step) && v in Apply(s, step).c.videos
    ensures match UseOf(s, step, v)
            case Some(now) => Apply(s, step).c.videos[v].lastAccess == now
            case None => v in s.c.videos && Apply(s, step).c.videos[v].lastAccess == s.c.videos[v].lastAccess
  {
    match step {
      case Ask(t, now, ch) => AskUses(s, t, now, ch, v);
      case Book(t, now, victims) => BookUses(s, t, now, victims, v);
      case Sweep(_, victims) => DropAllEntries(s.c, victims, v);
      case _ =>
    }
  }

  /** In every run, the last access of a cached video is its last use. */
  lemma {:induction false} AccessIsLastUse(cfg: Config, run: seq<State>, steps: seq<Step>, n: nat, v: VideoId)
    requires IsTrace(cfg, run, steps) && n <= |steps| && v in run[n].c.videos
    ensures LastUse(run, steps, n, v) == Some(run[n].c.videos[v].lastAccess)
    decreases n
  {
    if n > 0 {
      var (s, step) := (run[n - 1], steps[n - 1]);
      assert Moves(cfg, run, steps, n - 1);
      StepUses(cfg, s, step, v);
      if UseOf(s, step, v).None? { AccessIsLastUse(cfg, run, steps, n - 1, v); }
    }
  }

  /** In every run, a video that booking evicts was last used no later than any video that could have
      been evicted and was not. */
  lemma VictimsWereLeastRecentlyUsed(cfg: Config, run: seq<State>, steps: seq<Step>, n: nat, i: nat, w: VideoId)
    requires IsTrace(cfg, run, steps) && n < |steps| && steps[n].Book? && i < |steps[n].victims|
    requires steps[n].t in run[n].calls
    requires w in run[n + 1].c.videos && w != run[n].calls[steps[n].t].video && !HasInflight(run[n].c.inflight, w)
    ensures var victim := steps[n].victims[i];
            && victim != run[n].calls[steps[n].t].video && !HasInflight(run[n].c.inflight, victim)
            && LastUse(run, steps, n, victim).Some? && LastUse(run, steps, n, w).Some?
            && LastUse(run, steps, n, victim).value <= LastUse(run, steps, n, w).value
  {
    assert Moves(cfg, run, steps, n);
    var (s, t, victims) := (run[n], steps[n].t, steps[n].victims);
    var charged := Charge(s.c, s.calls[t].video, s.calls[t].phase.size, steps[n].now);
    DropAllEntries(charged, victims, w);
    DropAllFrame(charged, victims);
    EvictedWereOldest(charged, cfg.maxBytes, s.calls[t].video, victims, i, w);
    AccessIsLastUse(cfg, run, steps, n, w);
    AccessIsLastUse(cfg, run, steps, n, victims[i]);
  }

  /** In every run, a sweep removes exactly the videos that were not used for longer than the idle
      timeout and have no segment in flight. */
  lemma SweptWereIdle(cfg: Config, run: seq<State>, steps: seq<Step>, n: nat, v: VideoId)
    requires IsTrace(cfg, run, steps) && n < |steps| && steps[n].Sweep? && v in run[n].c.videos
    ensures LastUse(run, steps, n, v).Some?
    ensures v !in run[n + 1].c.videos <==>
            && steps[n].now - LastUse(run, steps, n, v).value > cfg.idleTimeout
            && !HasInflight(run[n].c.inflight, v)
  {
    assert Moves(cfg, run, steps, n);
    AccessIsLastUse(cfg, run, steps, n, v);
    RemovedAreGone(run[n].c, steps[n].victims);
  }
}
