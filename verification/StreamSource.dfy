/** How a page's Stream Source attaches a video and recovers from errors (web/src/lib/streamSource.ts,
    web/src/lib/hlsError.ts). A state holds the closure's variables, the media element's source, the
    hls instances and reload timers made so far, and a log of the calls made. Events come in any
    order: a token promise may settle at any time, and any instance made so far may raise an event. */
module StreamSource {
  import opened SegmentTable

  const MAX_PREPARING_RETRIES: nat := 20

  // ----- Classifying an hls error -----

  datatype Action = RetryPreparing | PreparingTimeout | IndexFailed | RefreshToken | Fatal | Ignore

  datatype ErrorData = ErrorData(fatal: bool, code: Option<int>)

  function ClassifyHlsError(data: ErrorData, retryCount: nat): Action {
    if !data.fatal then Ignore
    else match data.code {
      case Some(503) => if retryCount < MAX_PREPARING_RETRIES then RetryPreparing else PreparingTimeout
      case Some(422) => IndexFailed
      case Some(401) => RefreshToken
      case _ => Fatal
    }
  }

  // ----- State, events and calls -----

  datatype Failure =
    | MediaFailed | StreamLoadFailed | PreparingTimedOut | IndexUnavailable
    | TokenUnavailable | TokenRefreshFailed | Unsupported

  datatype Status = Loading | Preparing | Playing | Failed(reason: Failure)

  datatype Reason = Resume | Recovery

  datatype Config = Config(
    direct: bool, streamUrl: string, videoId: string, hlsSupported: bool, nativeHls: bool, startAt: real)

  datatype Call =
    | Report(status: Status)
    | Fetch
    | Create(instance: nat)
    | LoadSource(instance: nat, url: string)
    | Schedule(instance: nat)
    | SetSource(src: string)
    | SetPosition(seconds: real, reason: Reason)

  /** The hls instances made (urls[i] is what instance i plays), which of them is current, and the
      pending reload timers with the instance each reloads. */
  datatype Transport = Transport(
    hls: Option<nat>, urls: seq<string>, destroyed: set<nat>,
    retryTimer: Option<nat>, timers: map<nat, nat>, nextTimer: nat)

  datatype State = State(
    disposed: bool, status: Status, preparingRetries: nat, refreshUsed: bool, firstLoad: bool,
    pendingSeek: Option<real>, src: string, t: Transport, log: seq<Call>)

  datatype Event =
    | TokenArrives(token: string)
    | TokenFails(initial: bool)
    | HlsError(instance: nat, data: ErrorData, at: real)
    | ManifestParsed(instance: nat)
    | LoadedMetadata
    | MediaError(at: real)
    | TimerFires(timer: nat)
    | Dispose

  const HLS_PREFIX := "/api/videos/"

  function DirectUrl(c: Config, token: string): string {
    c.streamUrl + "?token=" + token
  }

  function PlaylistUrl(c: Config, token: string): string {
    HLS_PREFIX + c.videoId + "/hls/index.m3u8?token=" + token
  }

  /** After startStreamSource: the first state is reported and the first token asked for. */
  const START := State(
    false, Loading, 0, false, true, None, "", Transport(None, [], {}, None, map[], 0), [Report(Loading), Fetch])

  // ----- What each handler does -----

  function Calls(s: State, call: Call): State {
    s.(log := s.log + [call])
  }

  function SetStatus(s: State, status: Status): State {
    if s.disposed then s else Calls(s.(status := status), Report(status))
  }

  function Torn(t: Transport): Transport {
    t.(timers := if t.retryTimer.Some? then t.timers - {t.retryTimer.value} else t.timers,
       retryTimer := None,
       destroyed := if t.hls.Some? then t.destroyed + {t.hls.value} else t.destroyed,
       hls := None)
  }

  function WithInstance(t: Transport, url: string): Transport {
    t.(hls := Some(|t.urls|), urls := t.urls + [url])
  }

  function WithTimer(t: Transport, i: nat): Transport {
    t.(timers := t.timers[t.nextTimer := i], retryTimer := Some(t.nextTimer), nextTimer := t.nextTimer + 1)
  }

  function WithoutTimer(t: Transport, k: nat): Transport {
    t.(timers := t.timers - {k})
  }

  function AttachHls(s: State, url: string): State {
    var i := |s.t.urls|;
    Calls(Calls(s.(t := WithInstance(s.t, url)), Create(i)), LoadSource(i, url))
  }

  function SetSrc(s: State, src: string): State {
    Calls(s.(src := src), SetSource(src))
  }

  function Attach(c: Config, s: State, token: string): State {
    if s.disposed then s
    else
      var t := s.(t := Torn(s.t));
      if c.direct then SetSrc(t, DirectUrl(c, token))
      else if c.hlsSupported then AttachHls(t, PlaylistUrl(c, token))
      else if c.nativeHls then SetSrc(t, PlaylistUrl(c, token))
      else SetStatus(t, Failed(Unsupported))
  }

  function Recover(s: State, finalReason: Failure, at: real): State {
    if s.disposed then s
    else if s.refreshUsed then SetStatus(s, Failed(finalReason))
    else Calls(s.(refreshUsed := true, pendingSeek := if s.firstLoad then None else Some(at)), Fetch)
  }

  function Retry(s: State, i: nat): State {
    var t := SetStatus(s.(preparingRetries := s.preparingRetries + 1), Preparing);
    Calls(t.(t := WithTimer(t.t, i)), Schedule(i))
  }

  function OnHlsError(s: State, i: nat, data: ErrorData, at: real): State {
    match ClassifyHlsError(data, s.preparingRetries)
    case RetryPreparing => Retry(s, i)
    case RefreshToken => Recover(s, StreamLoadFailed, at)
    case PreparingTimeout => SetStatus(s, Failed(PreparingTimedOut))
    case IndexFailed => SetStatus(s, Failed(IndexUnavailable))
    case Fatal => SetStatus(s, Failed(StreamLoadFailed))
    case Ignore => s
  }

  function OnManifestParsed(s: State): State {
    var t := s.(preparingRetries := 0);
    if s.status == Preparing then SetStatus(t, Loading) else t
  }

  function OnLoadedMetadata(c: Config, s: State): State {
    if s.disposed then s
    else
      var t := s.(refreshUsed := false);
      var moved :=
        if t.pendingSeek.Some? then Calls(t.(pendingSeek := None), SetPosition(t.pendingSeek.value, Recovery))
        else if t.firstLoad && c.startAt > 0.0 then Calls(t, SetPosition(c.startAt, Resume))
        else t;
      SetStatus(moved.(firstLoad := false), Playing)
  }

  function OnTimer(s: State, k: nat): State
    requires k in s.t.timers && s.t.timers[k] < |s.t.urls|
  {
    var i := s.t.timers[k];
    Calls(s.(t := WithoutTimer(s.t, k)), LoadSource(i, s.t.urls[i]))
  }

  function OnDispose(s: State): State {
    if s.disposed then s
    else
      var t := s.(disposed := true, t := Torn(s.t));
      if t.src != "" then SetSrc(t, "") else t
  }

  /** An event of an instance or a timer that does not exist changes nothing. */
  function Step(c: Config, s: State, e: Event): State {
    match e
    case TokenArrives(token) => Attach(c, s, token)
    case TokenFails(initial) => SetStatus(s, Failed(if initial then TokenUnavailable else TokenRefreshFailed))
    case HlsError(i, data, at) => if i < |s.t.urls| then OnHlsError(s, i, data, at) else s
    case ManifestParsed(i) => if i < |s.t.urls| then OnManifestParsed(s) else s
    case LoadedMetadata => OnLoadedMetadata(c, s)
    case MediaError(at) => Recover(s, MediaFailed, at)
    case TimerFires(k) => if k in s.t.timers && s.t.timers[k] < |s.t.urls| then OnTimer(s, k) else s
    case Dispose => OnDispose(s)
  }

  function Run(c: Config, s: State, es: seq<Event>): State
    decreases |es|
  {
    if es == [] then s else Run(c, Step(c, s, es[0]), es[1..])
  }

  // ----- What every state keeps -----

  ghost predicate TransportOk(t: Transport) {
    && (forall i :: i in t.destroyed ==> i < |t.urls|)
    && (forall i :: 0 <= i < |t.urls| ==> (i in t.destroyed <==> t.hls != Some(i)))
    && (t.hls.Some? ==> t.hls.value < |t.urls|)
    && (forall k :: k in t.timers ==> k < t.nextTimer && t.timers[k] < |t.urls|)
  }

  ghost predicate Inv(s: State) {
    && TransportOk(s.t)
    && s.preparingRetries <= MAX_PREPARING_RETRIES
    && (s.firstLoad ==> s.pendingSeek == None)
    && (s.disposed ==> s.t.hls == None && s.src == "")
  }

  lemma TornIsOk(t: Transport)
    requires TransportOk(t)
    ensures TransportOk(Torn(t))
  {
  }

  lemma WithInstanceIsOk(t: Transport, url: string)
    requires TransportOk(t) && t.hls == None
    ensures TransportOk(WithInstance(t, url))
  {
    var t' := WithInstance(t, url);
    forall i | 0 <= i < |t'.urls| ensures i in t'.destroyed <==> t'.hls != Some(i) {
      if i < |t.urls| { assert i in t.destroyed; }
    }
  }

  lemma StepKeepsTransport(c: Config, s: State, e: Event)
    requires TransportOk(s.t)
    ensures TransportOk(Step(c, s, e).t)
  {
    TornIsOk(s.t);
    if e.TokenArrives? { WithInstanceIsOk(Torn(s.t), PlaylistUrl(c, e.token)); }
  }

  lemma StepKeepsInv(c: Config, s: State, e: Event)
    requires Inv(s)
    ensures Inv(Step(c, s, e))
  {
    StepKeepsTransport(c, s, e);
  }

  lemma {:induction false} RunKeepsInv(c: Config, s: State, es: seq<Event>)
    requires Inv(s)
    ensures Inv(Run(c, s, es))
    decreases |es|
  {
    if es != [] {
      StepKeepsInv(c, s, es[0]);
      RunKeepsInv(c, Step(c, s, es[0]), es[1..]);
    }
  }

  /** In every run, every instance made is destroyed, except the current one; none is current and the
      element has no source once the Stream Source is disposed. */
  lemma OneInstanceIsAlive(c: Config, es: seq<Event>)
    ensures var s := Run(c, START, es);
            && Inv(s)
            && (forall i :: 0 <= i < |s.t.urls| ==> (i in s.t.destroyed <==> s.t.hls != Some(i)))
            && (s.disposed ==> s.t.hls == None && s.src == "")
  {
    RunKeepsInv(c, START, es);
  }

  // ----- Counting calls -----

  function Count(log: seq<Call>, p: Call -> bool): nat {
    if log == [] then 0 else Count(log[..|log| - 1], p) + if p(log[|log| - 1]) then 1 else 0
  }

  lemma CountCall(s: State, call: Call, p: Call -> bool)
    ensures Count(Calls(s, call).log, p) == Count(s.log, p) + if p(call) then 1 else 0
  {
    assert (s.log + [call])[..|s.log|] == s.log;
  }

  predicate IsRetry(call: Call) {
    call.Schedule?
  }

  predicate IsFetch(call: Call) {
    call.Fetch?
  }

  predicate IsResume(call: Call) {
    call.SetPosition? && call.reason == Resume
  }

  /** p holds only of calls that schedule a reload, fetch a token, or resume playback. */
  ghost predicate Special(p: Call -> bool) {
    forall call :: p(call) ==> IsRetry(call) || IsFetch(call) || IsResume(call)
  }

  lemma StatusCounts(s: State, status: Status, p: Call -> bool)
    requires Special(p)
    ensures Count(SetStatus(s, status).log, p) == Count(s.log, p)
  {
    if !s.disposed { CountCall(s.(status := status), Report(status), p); }
  }

  lemma AttachHlsCounts(s: State, url: string, p: Call -> bool)
    requires Special(p)
    ensures Count(AttachHls(s, url).log, p) == Count(s.log, p)
  {
    var i := |s.t.urls|;
    var made := s.(t := WithInstance(s.t, url));
    CountCall(made, Create(i), p);
    CountCall(Calls(made, Create(i)), LoadSource(i, url), p);
  }

  lemma SetSrcCounts(s: State, src: string, p: Call -> bool)
    requires Special(p)
    ensures Count(SetSrc(s, src).log, p) == Count(s.log, p)
  {
    CountCall(s.(src := src), SetSource(src), p);
  }

  lemma AttachCounts(c: Config, s: State, token: string, p: Call -> bool)
    requires Special(p)
    ensures Count(Attach(c, s, token).log, p) == Count(s.log, p)
  {
    var t := s.(t := Torn(s.t));
    if c.direct {
      SetSrcCounts(t, DirectUrl(c, token), p);
    } else if c.hlsSupported {
      AttachHlsCounts(t, PlaylistUrl(c, token), p);
    } else if c.nativeHls {
      SetSrcCounts(t, PlaylistUrl(c, token), p);
    } else {
      StatusCounts(t, Failed(Unsupported), p);
    }
  }

  lemma RecoverCounts(s: State, finalReason: Failure, at: real, p: Call -> bool)
    requires Special(p)
    ensures Count(Recover(s, finalReason, at).log, p) ==
            Count(s.log, p) + if !s.disposed && !s.refreshUsed && p(Fetch) then 1 else 0
  {
    StatusCounts(s, Failed(finalReason), p);
    CountCall(s.(refreshUsed := true, pendingSeek := if s.firstLoad then None else Some(at)), Fetch, p);
  }

  lemma RetryCounts(s: State, i: nat, p: Call -> bool)
    requires Special(p)
    ensures Count(Retry(s, i).log, p) == Count(s.log, p) + if p(Schedule(i)) then 1 else 0
  {
    var t := s.(preparingRetries := s.preparingRetries + 1);
    StatusCounts(t, Preparing, p);
    var u := SetStatus(t, Preparing);
    CountCall(u.(t := WithTimer(u.t, i)), Schedule(i), p);
  }

  lemma HlsErrorCounts(s: State, i: nat, data: ErrorData, at: real, p: Call -> bool)
    requires Special(p) && i < |s.t.urls|
    ensures Count(OnHlsError(s, i, data, at).log, p) == Count(s.log, p)
              + (if Retries(s, HlsError(i, data, at)) && p(Schedule(i)) then 1 else 0)
              + (if Refreshes(s, HlsError(i, data, at)) && p(Fetch) then 1 else 0)
  {
    match ClassifyHlsError(data, s.preparingRetries) {
      case RetryPreparing => RetryCounts(s, i, p);
      case RefreshToken => RecoverCounts(s, StreamLoadFailed, at, p);
      case PreparingTimeout => StatusCounts(s, Failed(PreparingTimedOut), p);
      case IndexFailed => StatusCounts(s, Failed(IndexUnavailable), p);
      case Fatal => StatusCounts(s, Failed(StreamLoadFailed), p);
      case Ignore =>
    }
  }

  lemma LoadedCounts(c: Config, s: State, p: Call -> bool)
    requires Special(p) && Inv(s)
    ensures Count(OnLoadedMetadata(c, s).log, p) ==
            Count(s.log, p) + if Resumes(c, s, LoadedMetadata) && p(SetPosition(c.startAt, Resume)) then 1 else 0
  {
    if !s.disposed {
      var t := s.(refreshUsed := false);
      if t.pendingSeek.Some? {
        var moved := Calls(t.(pendingSeek := None), SetPosition(t.pendingSeek.value, Recovery));
        CountCall(t.(pendingSeek := None), SetPosition(t.pendingSeek.value, Recovery), p);
        StatusCounts(moved.(firstLoad := false), Playing, p);
      } else if t.firstLoad && c.startAt > 0.0 {
        CountCall(t, SetPosition(c.startAt, Resume), p);
        StatusCounts(Calls(t, SetPosition(c.startAt, Resume)).(firstLoad := false), Playing, p);
      } else {
        StatusCounts(t.(firstLoad := false), Playing, p);
      }
    }
  }

  lemma TimerCounts(s: State, k: nat, p: Call -> bool)
    requires Special(p) && k in s.t.timers && s.t.timers[k] < |s.t.urls|
    ensures Count(OnTimer(s, k).log, p) == Count(s.log, p)
  {
    var i := s.t.timers[k];
    CountCall(s.(t := WithoutTimer(s.t, k)), LoadSource(i, s.t.urls[i]), p);
  }

  lemma DisposeCounts(s: State, p: Call -> bool)
    requires Special(p)
    ensures Count(OnDispose(s).log, p) == Count(s.log, p)
  {
    SetSrcCounts(s.(disposed := true, t := Torn(s.t)), "", p);
  }

  lemma StepCounts(c: Config, s: State, e: Event, p: Call -> bool)
    requires Special(p) && Inv(s)
    ensures Count(Step(c, s, e).log, p) == Count(s.log, p)
              + (if Retries(s, e) && p(Schedule(e.instance)) then 1 else 0)
              + (if Refreshes(s, e) && p(Fetch) then 1 else 0)
              + (if Resumes(c, s, e) && p(SetPosition(c.startAt, Resume)) then 1 else 0)
  {
    match e {
      case TokenArrives(token) => AttachCounts(c, s, token, p);
      case TokenFails(initial) => StatusCounts(s, Failed(if initial then TokenUnavailable else TokenRefreshFailed), p);
      case HlsError(i, data, at) => if i < |s.t.urls| { HlsErrorCounts(s, i, data, at, p); }
      case ManifestParsed(i) => StatusCounts(s.(preparingRetries := 0), Loading, p);
      case LoadedMetadata => LoadedCounts(c, s, p);
      case MediaError(at) => RecoverCounts(s, MediaFailed, at, p);
      case TimerFires(k) => if k in s.t.timers { TimerCounts(s, k, p); }
      case Dispose => DisposeCounts(s, p);
    }
  }

  // ----- Bounded retries while the stream is being prepared -----

  /** The event says, of an instance that exists, that the stream is not ready yet. */
  predicate Unready(s: State, e: Event) {
    e.HlsError? && e.instance < |s.t.urls| && e.data == ErrorData(true, Some(503))
  }

  predicate Retries(s: State, e: Event) {
    Unready(s, e) && s.preparingRetries < MAX_PREPARING_RETRIES
  }

  function UnreadyErrors(c: Config, s: State, es: seq<Event>): nat
    decreases |es|
  {
    if es == [] then 0 else (if Unready(s, es[0]) then 1 else 0) + UnreadyErrors(c, Step(c, s, es[0]), es[1..])
  }

  predicate NoManifest(es: seq<Event>) {
    forall i :: 0 <= i < |es| ==> !es[i].ManifestParsed?
  }

  lemma StepUsesRetry(c: Config, s: State, e: Event)
    requires !e.ManifestParsed?
    ensures Step(c, s, e).preparingRetries == s.preparingRetries + if Retries(s, e) then 1 else 0
  {
  }

  /** Without a parsed manifest, every not-ready error is retried until there were 20, and none
      after that. */
  lemma {:induction false} RetriesAreBounded(c: Config, s: State, es: seq<Event>)
    requires Inv(s) && NoManifest(es)
    ensures Count(Run(c, s, es).log, IsRetry) - Count(s.log, IsRetry) ==
            var (unready, left) := (UnreadyErrors(c, s, es), MAX_PREPARING_RETRIES - s.preparingRetries);
            if unready <= left then unready else left
    decreases |es|
  {
    if es != [] {
      StepKeepsInv(c, s, es[0]);
      StepCounts(c, s, es[0], IsRetry);
      StepUsesRetry(c, s, es[0]);
      RetriesAreBounded(c, Step(c, s, es[0]), es[1..]);
    }
  }

  /** A parsed manifest gives all the retries back. */
  lemma ManifestRestoresRetries(c: Config, s: State, i: nat, es: seq<Event>)
    requires Inv(s) && i < |s.t.urls| && NoManifest(es)
    ensures var s' := Step(c, s, ManifestParsed(i));
            Count(Run(c, s', es).log, IsRetry) - Count(s'.log, IsRetry) ==
            var unready := UnreadyErrors(c, s', es);
            if unready <= MAX_PREPARING_RETRIES then unready else MAX_PREPARING_RETRIES
  {
    StepKeepsInv(c, s, ManifestParsed(i));
    RetriesAreBounded(c, Step(c, s, ManifestParsed(i)), es);
  }

  predicate NoDispose(es: seq<Event>) {
    forall i :: 0 <= i < |es| ==> !es[i].Dispose?
  }

  lemma {:induction false} RetriesAreUsed(c: Config, s: State, es: seq<Event>)
    requires Inv(s) && NoManifest(es)
    ensures var (unready, left) := (UnreadyErrors(c, s, es), MAX_PREPARING_RETRIES - s.preparingRetries);
            Run(c, s, es).preparingRetries == s.preparingRetries + if unready <= left then unready else left
    decreases |es|
  {
    if es != [] {
      StepKeepsInv(c, s, es[0]);
      StepUsesRetry(c, s, es[0]);
      RetriesAreUsed(c, Step(c, s, es[0]), es[1..]);
    }
  }

  lemma {:induction false} StaysInUse(c: Config, s: State, es: seq<Event>)
    requires NoDispose(es) && !s.disposed
    ensures !Run(c, s, es).disposed
    decreases |es|
  {
    if es != [] {
      StepLoads(c, s, es[0]);
      StaysInUse(c, Step(c, s, es[0]), es[1..]);
    }
  }

  lemma UnreadyIsAnswered(c: Config, s: State, e: Event)
    requires Unready(s, e) && !s.disposed
    ensures Step(c, s, e).log == s.log +
              if Retries(s, e) then [Report(Preparing), Schedule(e.instance)] else [Report(Failed(PreparingTimedOut))]
  {
    assert s.log + [Report(Preparing)] + [Schedule(e.instance)] == s.log + [Report(Preparing), Schedule(e.instance)];
  }

  /** Since the manifest was parsed, a not-ready error is answered with a reload as long as fewer came
      before it than there are retries; the first beyond them, and each after it, gives up. */
  lemma GivesUpAfterTheLastRetry(c: Config, s: State, front: seq<Event>, e: Event)
    requires Inv(s) && NoManifest(front) && NoDispose(front) && !s.disposed && Unready(Run(c, s, front), e)
    ensures var (t, left) := (Run(c, s, front), MAX_PREPARING_RETRIES - s.preparingRetries);
            Step(c, t, e).log == t.log +
              if UnreadyErrors(c, s, front) < left then [Report(Preparing), Schedule(e.instance)]
              else [Report(Failed(PreparingTimedOut))]
  {
    RetriesAreUsed(c, s, front);
    StaysInUse(c, s, front);
    UnreadyIsAnswered(c, Run(c, s, front), e);
  }

  // ----- One token refresh per error episode -----

  /** The event calls for a new token: a media error, or a 401 of an instance that exists. */
  predicate Fault(s: State, e: Event) {
    || e.MediaError?
    || (e.HlsError? && e.instance < |s.t.urls| && e.data == ErrorData(true, Some(401)))
  }

  predicate Faulty(c: Config, s: State, es: seq<Event>)
    decreases |es|
  {
    es != [] && ((!s.disposed && Fault(s, es[0])) || Faulty(c, Step(c, s, es[0]), es[1..]))
  }

  predicate NoLoad(es: seq<Event>) {
    forall i :: 0 <= i < |es| ==> !es[i].LoadedMetadata?
  }

  predicate Refreshes(s: State, e: Event) {
    Fault(s, e) && !s.disposed && !s.refreshUsed
  }

  lemma StepUsesRefresh(c: Config, s: State, e: Event)
    requires !e.LoadedMetadata?
    ensures Step(c, s, e).refreshUsed <==> s.refreshUsed || Refreshes(s, e)
  {
  }

  /** Until a load succeeds, one token is asked for, and exactly if there was a fault and none was
      asked for before. */
  lemma {:induction false} OneRefreshPerEpisode(c: Config, s: State, es: seq<Event>)
    requires Inv(s) && NoLoad(es)
    ensures Count(Run(c, s, es).log, IsFetch) - Count(s.log, IsFetch) ==
            if !s.refreshUsed && Faulty(c, s, es) then 1 else 0
    ensures Run(c, s, es).refreshUsed <==> s.refreshUsed || Faulty(c, s, es)
    decreases |es|
  {
    if es != [] {
      StepKeepsInv(c, s, es[0]);
      StepCounts(c, s, es[0], IsFetch);
      StepUsesRefresh(c, s, es[0]);
      OneRefreshPerEpisode(c, Step(c, s, es[0]), es[1..]);
    }
  }

  /** A successful load gives the refresh back. */
  lemma LoadRestoresRefresh(c: Config, s: State, es: seq<Event>)
    requires Inv(s) && !s.disposed && NoLoad(es)
    ensures var s' := Step(c, s, LoadedMetadata);
            Count(Run(c, s', es).log, IsFetch) - Count(s'.log, IsFetch) == if Faulty(c, s', es) then 1 else 0
  {
    StepKeepsInv(c, s, LoadedMetadata);
    OneRefreshPerEpisode(c, Step(c, s, LoadedMetadata), es);
  }

  // ----- Where playback goes on -----

  /** The element loads before the Stream Source is disposed. */
  predicate Loads(es: seq<Event>) {
    es != [] && (es[0].LoadedMetadata? || (!es[0].Dispose? && Loads(es[1..])))
  }

  predicate Resumes(c: Config, s: State, e: Event) {
    e.LoadedMetadata? && !s.disposed && s.firstLoad && c.startAt > 0.0
  }

  lemma StepLoads(c: Config, s: State, e: Event)
    ensures Step(c, s, e).firstLoad <==> s.firstLoad && (e.LoadedMetadata? ==> s.disposed)
    ensures Step(c, s, e).disposed <==> s.disposed || e.Dispose?
  {
  }

  lemma {:induction false} ResumesOf(c: Config, s: State, es: seq<Event>)
    requires Inv(s)
    ensures Count(Run(c, s, es).log, IsResume) - Count(s.log, IsResume) ==
            if s.firstLoad && !s.disposed && c.startAt > 0.0 && Loads(es) then 1 else 0
    decreases |es|
  {
    if es != [] {
      StepKeepsInv(c, s, es[0]);
      StepCounts(c, s, es[0], IsResume);
      StepLoads(c, s, es[0]);
      ResumesOf(c, Step(c, s, es[0]), es[1..]);
    }
  }

  /** Playback resumes from the Watch Progress once, on the first load, and never if there is none. */
  lemma ResumedOnce(c: Config, es: seq<Event>)
    ensures Count(Run(c, START, es).log, IsResume) == if c.startAt > 0.0 && Loads(es) then 1 else 0
  {
    ResumesOf(c, START, es);
    assert START.log[..1] == [Report(Loading)];
    assert START.log[..1][..0] == [];
  }

  lemma {:induction false} SeekIsKept(c: Config, s: State, es: seq<Event>)
    requires s.refreshUsed && !s.disposed && NoLoad(es) && NoDispose(es)
    ensures Run(c, s, es).pendingSeek == s.pendingSeek && !Run(c, s, es).disposed
    decreases |es|
  {
    if es != [] {
      SeekIsKept(c, Step(c, s, es[0]), es[1..]);
    }
  }

  /** After a recovery, the next load goes back to where playback was at the first fault, whatever
      errors came in between. */
  lemma RecoveryReturnsToTheFault(c: Config, s: State, e: Event, es: seq<Event>)
    requires Refreshes(s, e) && !s.firstLoad && NoLoad(es) && NoDispose(es)
    ensures var before := Run(c, Step(c, s, e), es);
            Step(c, before, LoadedMetadata).log == before.log + [SetPosition(e.at, Recovery), Report(Playing)]
  {
    SeekIsKept(c, Step(c, s, e), es);
    var before := Run(c, Step(c, s, e), es);
    Two(before.log, SetPosition(e.at, Recovery), Report(Playing));
  }

  lemma Two(log: seq<Call>, a: Call, b: Call)
    ensures log + [a] + [b] == log + [a, b]
  {
  }

  // ----- What each event leads to -----

  /** Unless it is disposed, the Stream Source now shows status and says so, and nothing else happened. */
  predicate Shows(s: State, s': State, status: Status) {
    s' == if s.disposed then s else s.(status := status, log := s.log + [Report(status)])
  }

  /** A new token is asked for, and the position to come back to is remembered. */
  predicate AsksAgain(s: State, s': State, at: real) {
    s' == s.(refreshUsed := true, pendingSeek := if s.firstLoad then None else Some(at), log := s.log + [Fetch])
  }

  /** What each error of hls leads to: only fatal ones count; an index that cannot be built is told as
      such, a 401 has the token refreshed once an episode, a 503 has the playlist loaded again until
      the retries are used up, and any other one is told as a stream that failed to load. */
  lemma ErrorsAreAnswered(c: Config, s: State, i: nat, data: ErrorData, at: real)
    requires i < |s.t.urls|
    ensures var s' := Step(c, s, HlsError(i, data, at));
            && (!data.fatal ==> s' == s)
            && (data.fatal && data.code == Some(422) ==> Shows(s, s', Failed(IndexUnavailable)))
            && (data.fatal && data.code != Some(422) && data.code != Some(401) && data.code != Some(503) ==>
                  Shows(s, s', Failed(StreamLoadFailed)))
            && (data.fatal && data.code == Some(401) ==>
                  if s.refreshUsed then Shows(s, s', Failed(StreamLoadFailed))
                  else if s.disposed then s' == s else AsksAgain(s, s', at))
            && (data.fatal && data.code == Some(503) && s.preparingRetries >= 20 ==>
                  Shows(s, s', Failed(PreparingTimedOut)))
            && (data.fatal && data.code == Some(503) && s.preparingRetries < 20 && !s.disposed ==>
                  && s'.status == Preparing && s'.log == s.log + [Report(Preparing), Schedule(i)]
                  && s'.preparingRetries == s.preparingRetries + 1
                  && s'.t.timers == s.t.timers[s.t.nextTimer := i] && s'.t.retryTimer == Some(s.t.nextTimer))
  {
    Two(s.log, Report(Preparing), Schedule(i));
  }

  /** An error of the element has the token refreshed once an episode, and is then told. */
  lemma MediaErrorsAreAnswered(c: Config, s: State, at: real)
    ensures var s' := Step(c, s, MediaError(at));
            if s.refreshUsed then Shows(s, s', Failed(MediaFailed))
            else if s.disposed then s' == s else AsksAgain(s, s', at)
  {
  }

  /** A token that arrives attaches the video by how it plays: the file itself, or its playlist through
      hls.js if that is supported and else natively; a token that fails is told. */
  lemma TokensAreAnswered(c: Config, s: State, token: string, initial: bool)
    ensures var s' := Step(c, s, TokenArrives(token));
            var playlist := "/api/videos/" + c.videoId + "/hls/index.m3u8?token=" + token;
            && (s.disposed ==> s' == s)
            && (!s.disposed ==>
                  && s'.t.retryTimer == None && (forall k :: s.t.retryTimer == Some(k) ==> k !in s'.t.timers)
                  && (s.t.hls.Some? ==> s.t.hls.value in s'.t.destroyed)
                  && if c.direct then
                       && s'.src == c.streamUrl + "?token=" + token && s'.log == s.log + [SetSource(s'.src)]
                       && s'.t.hls == None
                     else if c.hlsSupported then
                       && s'.t.hls == Some(|s.t.urls|) && s'.t.urls == s.t.urls + [playlist] && s'.src == s.src
                       && s'.log == s.log + [Create(|s.t.urls|), LoadSource(|s.t.urls|, playlist)]
                     else if c.nativeHls then
                       s'.src == playlist && s'.log == s.log + [SetSource(playlist)] && s'.t.hls == None
                     else
                       s'.status == Failed(Unsupported) && s'.log == s.log + [Report(Failed(Unsupported))])
    ensures Shows(s, Step(c, s, TokenFails(initial)), Failed(if initial then TokenUnavailable else TokenRefreshFailed))
  {
    var playlist := "/api/videos/" + c.videoId + "/hls/index.m3u8?token=" + token;
    assert PlaylistUrl(c, token) == playlist;
    Two(s.log, Create(|s.t.urls|), LoadSource(|s.t.urls|, playlist));
  }

  /** A manifest that is parsed ends preparing; a reload loads the playlist of its own instance; a load
      moves to the remembered position, or the first time to the Watch Progress, and then playing is
      told; dispose takes the source off the element. */
  lemma ProgressIsAnswered(c: Config, s: State, i: nat, k: nat)
    ensures i < |s.t.urls| ==>
              var s' := Step(c, s, ManifestParsed(i));
              && s'.preparingRetries == 0
              && (if s.status == Preparing && !s.disposed then
                    s'.status == Loading && s'.log == s.log + [Report(Loading)]
                  else
                    s'.status == s.status && s'.log == s.log)
    ensures k in s.t.timers && s.t.timers[k] < |s.t.urls| ==>
              var s' := Step(c, s, TimerFires(k));
              s'.log == s.log + [LoadSource(s.t.timers[k], s.t.urls[s.t.timers[k]])] && k !in s'.t.timers
    ensures !s.disposed ==>
              var s' := Step(c, s, LoadedMetadata);
              && !s'.refreshUsed && !s'.firstLoad && s'.pendingSeek == None && s'.status == Playing
              && s'.log == s.log +
                   (if s.pendingSeek.Some? then [SetPosition(s.pendingSeek.value, Recovery)]
                    else if s.firstLoad && c.startAt > 0.0 then [SetPosition(c.startAt, Resume)] else []) +
                   [Report(Playing)]
    ensures !s.disposed ==>
              var s' := Step(c, s, Dispose);
              && s'.disposed && s'.src == "" && s'.t.hls == None
              && s'.log == s.log + if s.src == "" then [] else [SetSource("")]
  {
  }

  /** In every run the page is told of a fatal error that no retry and no refresh can help. */
  lemma FatalErrorsAreTold(c: Config, es: seq<Event>, i: nat, code: Option<int>, at: real)
    requires i < |Run(c, START, es).t.urls| && !Run(c, START, es).disposed
    requires code != Some(401) && code != Some(503)
    ensures LastReport(Step(c, Run(c, START, es), HlsError(i, ErrorData(true, code), at)).log) ==
            Some(Failed(if code == Some(422) then IndexUnavailable else StreamLoadFailed))
  {
    var s := Run(c, START, es);
    ErrorsAreAnswered(c, s, i, ErrorData(true, code), at);
    ReportOne(s.log, Report(Failed(if code == Some(422) then IndexUnavailable else StreamLoadFailed)));
  }

  // ----- The state the page was told -----

  /** The last state reported. */
  function LastReport(log: seq<Call>): Option<Status> {
    if log == [] then None
    else if log[|log| - 1].Report? then Some(log[|log| - 1].status)
    else LastReport(log[..|log| - 1])
  }

  lemma ReportOne(log: seq<Call>, call: Call)
    ensures LastReport(log + [call]) == if call.Report? then Some(call.status) else LastReport(log)
  {
    assert (log + [call])[..|log|] == log;
  }

  predicate Told(s: State) {
    LastReport(s.log) == Some(s.status)
  }

  lemma CallKeepsTold(s: State, call: Call)
    requires Told(s) && !call.Report?
    ensures Told(Calls(s, call))
  {
    ReportOne(s.log, call);
  }

  lemma StatusKeepsTold(s: State, status: Status)
    requires Told(s)
    ensures Told(SetStatus(s, status))
  {
    ReportOne(s.log, Report(status));
  }

  lemma AttachKeepsTold(c: Config, s: State, token: string)
    requires Told(s)
    ensures Told(Attach(c, s, token))
  {
    var t := s.(t := Torn(s.t));
    var url := PlaylistUrl(c, token);
    if c.direct {
      CallKeepsTold(t.(src := DirectUrl(c, token)), SetSource(DirectUrl(c, token)));
    } else if c.hlsSupported {
      var (made, i) := (t.(t := WithInstance(t.t, url)), |t.t.urls|);
      CallKeepsTold(made, Create(i));
      CallKeepsTold(Calls(made, Create(i)), LoadSource(i, url));
    } else if c.nativeHls {
      CallKeepsTold(t.(src := url), SetSource(url));
    } else {
      StatusKeepsTold(t, Failed(Unsupported));
    }
  }

  lemma RecoverKeepsTold(s: State, finalReason: Failure, at: real)
    requires Told(s)
    ensures Told(Recover(s, finalReason, at))
  {
    StatusKeepsTold(s, Failed(finalReason));
    CallKeepsTold(s.(refreshUsed := true, pendingSeek := if s.firstLoad then None else Some(at)), Fetch);
  }

  lemma HlsErrorKeepsTold(s: State, i: nat, data: ErrorData, at: real)
    requires Told(s)
    ensures Told(OnHlsError(s, i, data, at))
  {
    match ClassifyHlsError(data, s.preparingRetries) {
      case RetryPreparing =>
        var t := SetStatus(s.(preparingRetries := s.preparingRetries + 1), Preparing);
        StatusKeepsTold(s.(preparingRetries := s.preparingRetries + 1), Preparing);
        CallKeepsTold(t.(t := WithTimer(t.t, i)), Schedule(i));
      case RefreshToken => RecoverKeepsTold(s, StreamLoadFailed, at);
      case PreparingTimeout => StatusKeepsTold(s, Failed(PreparingTimedOut));
      case IndexFailed => StatusKeepsTold(s, Failed(IndexUnavailable));
      case Fatal => StatusKeepsTold(s, Failed(StreamLoadFailed));
      case Ignore =>
    }
  }

  lemma LoadedKeepsTold(c: Config, s: State)
    requires Told(s)
    ensures Told(OnLoadedMetadata(c, s))
  {
    if !s.disposed {
      var log := OnLoadedMetadata(c, s).log;
      ReportOne(log[..|log| - 1], Report(Playing));
    }
  }

  lemma StepKeepsTold(c: Config, s: State, e: Event)
    requires Told(s)
    ensures Told(Step(c, s, e))
  {
    match e {
      case TokenArrives(token) => AttachKeepsTold(c, s, token);
      case TokenFails(initial) => StatusKeepsTold(s, Failed(if initial then TokenUnavailable else TokenRefreshFailed));
      case HlsError(i, data, at) => HlsErrorKeepsTold(s, i, data, at);
      case ManifestParsed(i) => StatusKeepsTold(s.(preparingRetries := 0), Loading);
      case LoadedMetadata => LoadedKeepsTold(c, s);
      case MediaError(at) => RecoverKeepsTold(s, MediaFailed, at);
      case TimerFires(k) => if k in s.t.timers && s.t.timers[k] < |s.t.urls| { TimerKeepsTold(s, k); }
      case Dispose => if !s.disposed { CallKeepsTold(s.(disposed := true, t := Torn(s.t), src := ""), SetSource("")); }
    }
  }

  lemma TimerKeepsTold(s: State, k: nat)
    requires Told(s) && k in s.t.timers && s.t.timers[k] < |s.t.urls|
    ensures Told(OnTimer(s, k))
  {
    var i := s.t.timers[k];
    CallKeepsTold(s.(t := WithoutTimer(s.t, k)), LoadSource(i, s.t.urls[i]));
  }

  lemma {:induction false} RunKeepsTold(c: Config, s: State, es: seq<Event>)
    requires Told(s)
    ensures Told(Run(c, s, es))
    decreases |es|
  {
    if es != [] {
      StepKeepsTold(c, s, es[0]);
      RunKeepsTold(c, Step(c, s, es[0]), es[1..]);
    }
  }

  /** On every run, the state the page was told last is the Stream Source's own. */
  lemma PageIsTold(c: Config, es: seq<Event>)
    ensures var s := Run(c, START, es); LastReport(s.log) == Some(s.status)
  {
    ReportOne([Report(Loading)], Fetch);
    ReportOne([], Report(Loading));
    assert START.log == [Report(Loading)] + [Fetch] && [Report(Loading)] == [] + [Report(Loading)];
    RunKeepsTold(c, START, es);
  }

  // ----- After dispose -----

  /** Calls made after the first n do nothing but reload an instance that is destroyed. */
  ghost predicate SilentFrom(s: State, n: nat) {
    n <= |s.log| && forall j :: n <= j < |s.log| ==> HarmlessCall(s, s.log[j])
  }

  predicate HarmlessCall(s: State, call: Call) {
    call.Schedule? || (call.LoadSource? && call.instance in s.t.destroyed)
  }

  lemma StepStaysSilent(c: Config, s: State, e: Event, n: nat)
    requires Inv(s) && s.disposed && SilentFrom(s, n)
    ensures SilentFrom(Step(c, s, e), n) && Step(c, s, e).disposed
  {
    var s' := Step(c, s, e);
    forall j | n <= j < |s'.log| ensures HarmlessCall(s', s'.log[j]) {
      if j < |s.log| { assert HarmlessCall(s, s.log[j]); }
    }
  }

  lemma {:induction false} StaysSilent(c: Config, s: State, es: seq<Event>, n: nat)
    requires Inv(s) && s.disposed && SilentFrom(s, n)
    ensures SilentFrom(Run(c, s, es), n) && s.log[..n] == Run(c, s, es).log[..n]
    ensures Run(c, s, es).disposed && Run(c, s, es).src == "" && Run(c, s, es).t.hls == None
    decreases |es|
  {
    if es != [] {
      StepKeepsInv(c, s, es[0]);
      StepStaysSilent(c, s, es[0], n);
      StaysSilent(c, Step(c, s, es[0]), es[1..], n);
    }
  }

  /** In every run, once disposed, the Stream Source reports no state, asks for no token, attaches
      nothing and moves no position, whatever promises still settle. */
  lemma SilentAfterDispose(c: Config, before: seq<Event>, es: seq<Event>)
    ensures var s := Step(c, Run(c, START, before), Dispose);
            var t := Run(c, s, es);
            && s.log <= t.log && (forall j :: |s.log| <= j < |t.log| ==> HarmlessCall(t, t.log[j]))
            && t.disposed && t.src == "" && t.t.hls == None
  {
    var s := Step(c, Run(c, START, before), Dispose);
    RunKeepsInv(c, START, before);
    StepKeepsInv(c, Run(c, START, before), Dispose);
    StaysSilent(c, s, es, |s.log|);
    assert s.log[..|s.log|] == s.log;
  }

  // ----- Which reloads dispose cancels -----

  /** Disposing now leaves no reload pending. */
  predicate Cancels(s: State) {
    OnDispose(s).t.timers == map[]
  }

  predicate AlwaysCancels(c: Config, s: State, es: seq<Event>)
    decreases |es|
  {
    Cancels(s) && (es != [] ==> AlwaysCancels(c, Step(c, s, es[0]), es[1..]))
  }

  /** No retried error arrives while a reload is pending, or after dispose. */
  predicate Orderly(c: Config, s: State, es: seq<Event>)
    decreases |es|
  {
    es != [] ==> (Retries(s, es[0]) ==> !s.disposed && s.t.timers == map[]) && Orderly(c, Step(c, s, es[0]), es[1..])
  }

  lemma RetryCancels(s: State, i: nat)
    requires TransportOk(s.t)
    ensures Cancels(Retry(s, i)) <==> !s.disposed && s.t.timers == map[]
  {
    var (t, k) := (s.t, s.t.nextTimer);
    assert Retry(s, i).t == WithTimer(t, i);
    assert k in WithTimer(t, i).timers;
    assert WithTimer(t, i).timers - {k} == t.timers;
  }

  lemma StepCancels(c: Config, s: State, e: Event)
    requires TransportOk(s.t) && Cancels(s)
    ensures Cancels(Step(c, s, e)) <==> (Retries(s, e) ==> !s.disposed && s.t.timers == map[])
  {
    if Retries(s, e) {
      RetryCancels(s, e.instance);
      assert Step(c, s, e) == Retry(s, e.instance);
    } else {
      OthersCancel(c, s, e);
    }
  }

  /** What dispose cancels is the one reload it holds the handle of. */
  lemma CancelsMeans(s: State)
    ensures Cancels(s) <==> forall k :: k in s.t.timers ==> !s.disposed && s.t.retryTimer == Some(k)
  {
    if s.disposed {
      assert s.t.timers == map[] <==> forall k :: k !in s.t.timers;
    } else {
      assert OnDispose(s).t.timers == Torn(s.t).timers;
      var left := Torn(s.t).timers;
      assert left == map[] <==> forall k :: k !in left;
      assert forall k :: k in left <==> k in s.t.timers && s.t.retryTimer != Some(k);
    }
  }

  lemma OtherTimers(c: Config, s: State, e: Event, k: nat)
    requires !Retries(s, e) && k in Step(c, s, e).t.timers
    ensures var s' := Step(c, s, e);
            && k in s.t.timers
            && (s.t.retryTimer == Some(k) && !s.disposed ==> s'.t.retryTimer == Some(k) && !s'.disposed)
  {
  }

  lemma OthersCancel(c: Config, s: State, e: Event)
    requires Cancels(s) && !Retries(s, e)
    ensures Cancels(Step(c, s, e))
  {
    CancelsMeans(s);
    CancelsMeans(Step(c, s, e));
    forall k | k in Step(c, s, e).t.timers ensures !Step(c, s, e).disposed && Step(c, s, e).t.retryTimer == Some(k) {
      OtherTimers(c, s, e, k);
    }
  }

  lemma {:induction false} CancelsIffOrderly(c: Config, s: State, es: seq<Event>)
    requires Inv(s) && Cancels(s)
    ensures AlwaysCancels(c, s, es) <==> Orderly(c, s, es)
    decreases |es|
  {
    if es != [] {
      StepKeepsInv(c, s, es[0]);
      StepCancels(c, s, es[0]);
      if Cancels(Step(c, s, es[0])) {
        CancelsIffOrderly(c, Step(c, s, es[0]), es[1..]);
      }
    }
  }

  /** In every run, disposing cancels the pending reload at every moment, exactly if no retried error
      ever arrives while another reload is pending: the handle of the earlier timer is then overwritten. */
  lemma ReloadsAreCancelledIffOrderly(c: Config, es: seq<Event>)
    ensures AlwaysCancels(c, START, es) <==> Orderly(c, START, es)
  {
    CancelsIffOrderly(c, START, es);
  }

  lemma {:induction false} OrderlyStaysSilent(c: Config, s: State, es: seq<Event>)
    requires Inv(s) && s.disposed && Cancels(s) && Orderly(c, s, es)
    ensures Run(c, s, es).log == s.log
    decreases |es|
  {
    if es != [] {
      StepKeepsInv(c, s, es[0]);
      StepCancels(c, s, es[0]);
      OrderlyStaysSilent(c, Step(c, s, es[0]), es[1..]);
    }
  }

  lemma {:induction false} OrderlyKeepsCancels(c: Config, s: State, es: seq<Event>)
    requires Inv(s) && Cancels(s) && Orderly(c, s, es)
    ensures Inv(Run(c, s, es)) && Cancels(Run(c, s, es))
    decreases |es|
  {
    if es != [] {
      StepKeepsInv(c, s, es[0]);
      StepCancels(c, s, es[0]);
      OrderlyKeepsCancels(c, Step(c, s, es[0]), es[1..]);
    }
  }

  /** In an orderly run nothing at all is called once the Stream Source is disposed. */
  lemma OrderlyDisposeIsFinal(c: Config, before: seq<Event>, es: seq<Event>)
    requires Orderly(c, START, before) && Orderly(c, Step(c, Run(c, START, before), Dispose), es)
    ensures var s := Step(c, Run(c, START, before), Dispose); Run(c, s, es).log == s.log
  {
    var s := Run(c, START, before);
    OrderlyKeepsCancels(c, START, before);
    StepKeepsInv(c, s, Dispose);
    StepCancels(c, s, Dispose);
    OrderlyStaysSilent(c, Step(c, s, Dispose), es);
  }

  /** A run whose first reload survives dispose and reloads a destroyed instance. */
  lemma TwoErrorsLeakAReload(c: Config, token: string)
    requires !c.direct && c.hlsSupported
    ensures var unready := HlsError(0, ErrorData(true, Some(503)), 0.0);
            var s := Run(c, START, [TokenArrives(token), unready, unready, Dispose, TimerFires(0)]);
            && s.disposed && 0 in s.t.destroyed
            && s.log != [] && s.log[|s.log| - 1] == LoadSource(0, PlaylistUrl(c, token))
  {
    var unready := HlsError(0, ErrorData(true, Some(503)), 0.0);
    var s1 := Step(c, START, TokenArrives(token));
    assert s1.t.urls == [PlaylistUrl(c, token)] && s1.t.hls == Some(0);
    var s2 := Step(c, s1, unready);
    assert s2.t.timers == map[0 := 0];
    var s3 := Step(c, s2, unready);
    assert s3.t.timers == map[0 := 0, 1 := 0] && s3.t.retryTimer == Some(1);
    var s4 := Step(c, s3, Dispose);
    assert s4.t.timers == map[0 := 0];
    RunFive(c, START, TokenArrives(token), unready, unready, Dispose, TimerFires(0));
  }

  lemma RunOne(c: Config, s: State, e: Event, es: seq<Event>)
    ensures Run(c, s, [e] + es) == Run(c, Step(c, s, e), es)
  {
    assert ([e] + es)[1..] == es;
  }

  lemma RunFive(c: Config, s: State, e1: Event, e2: Event, e3: Event, e4: Event, e5: Event)
    ensures Run(c, s, [e1, e2, e3, e4, e5]) == Step(c, Step(c, Step(c, Step(c, Step(c, s, e1), e2), e3), e4), e5)
  {
    assert [e1, e2, e3, e4, e5] == [e1] + [e2, e3, e4, e5] && [e2, e3, e4, e5] == [e2] + [e3, e4, e5];
    assert [e3, e4, e5] == [e3] + [e4, e5] && [e4, e5] == [e4] + [e5] && [e5] == [e5] + [];
    RunOne(c, s, e1, [e2, e3, e4, e5]);
    var s1 := Step(c, s, e1);
    RunOne(c, s1, e2, [e3, e4, e5]);
    var s2 := Step(c, s1, e2);
    RunOne(c, s2, e3, [e4, e5]);
    var s3 := Step(c, s2, e3);
    RunOne(c, s3, e4, [e5]);
    RunOne(c, Step(c, s3, e4), e5, []);
  }

  // ----- The Stream Source as a mutable object -----

  /** The fields are the variables its handlers share; urls, destroyed and timers stand for the hls
      instances and timers outside it, and calls for the calls it made. */
  class Source {
    const config: Config
    var disposed: bool
    var status: Status
    var hls: Option<nat>
    var retryTimer: Option<nat>
    var preparingRetries: nat
    var refreshUsed: bool
    var firstLoad: bool
    var pendingSeek: Option<real>
    var src: string
    var urls: seq<string>
    var destroyed: set<nat>
    var timers: map<nat, nat>
    var nextTimer: nat
    var calls: seq<Call>

    ghost function Model(): State
      reads this
    {
      State(disposed, status, preparingRetries, refreshUsed, firstLoad, pendingSeek, src,
            Transport(hls, urls, destroyed, retryTimer, timers, nextTimer), calls)
    }

    constructor (config: Config)
      ensures this.config == config && Model() == START
    {
      this.config := config;
      disposed, status, preparingRetries, refreshUsed, firstLoad := false, Loading, 0, false, true;
      pendingSeek, src, hls, retryTimer := None, "", None, None;
      urls, destroyed, timers, nextTimer := [], {}, map[], 0;
      calls := [Report(Loading), Fetch];
    }

    method SetState(next: Status)
      modifies this
      ensures Model() == SetStatus(old(Model()), next)
    {
      if disposed { return; }
      status := next;
      calls := calls + [Report(next)];
    }

    method TeardownTransport()
      modifies this`retryTimer, this`timers, this`hls, this`destroyed
      ensures Model() == old(Model()).(t := Torn(old(Model()).t))
    {
      if retryTimer.Some? { timers := timers - {retryTimer.value}; }
      retryTimer := None;
      if hls.Some? { destroyed := destroyed + {hls.value}; }
      hls := None;
    }

    method AttachInstance(url: string)
      modifies this
      ensures Model() == AttachHls(old(Model()), url)
    {
      var instance := |urls|;
      urls := urls + [url];
      calls := calls + [Create(instance)];
      hls := Some(instance);
      calls := calls + [LoadSource(instance, url)];
    }

    method AttachToken(token: string)
      modifies this
      ensures Model() == Attach(config, old(Model()), token)
    {
      if disposed { return; }
      TeardownTransport();
      if config.direct {
        AssignSource(DirectUrl(config, token));
        return;
      }
      var url := PlaylistUrl(config, token);
      if config.hlsSupported {
        AttachInstance(url);
      } else if config.nativeHls {
        AssignSource(url);
      } else {
        SetState(Failed(Unsupported));
      }
    }

    method AssignSource(url: string)
      modifies this`src, this`calls
      ensures Model() == SetSrc(old(Model()), url)
    {
      src := url;
      calls := calls + [SetSource(url)];
    }

    method RecoverFrom(finalReason: Failure, currentTime: real)
      modifies this
      ensures Model() == Recover(old(Model()), finalReason, currentTime)
    {
      if disposed { return; }
      if refreshUsed {
        SetState(Failed(finalReason));
        return;
      }
      refreshUsed := true;
      pendingSeek := if firstLoad then None else Some(currentTime);
      calls := calls + [Fetch];
    }

    method OnError(instance: nat, data: ErrorData, currentTime: real)
      requires instance < |urls|
      modifies this
      ensures Model() == Step(config, old(Model()), HlsError(instance, data, currentTime))
      ensures !data.fatal ==> Model() == old(Model())
      ensures data.fatal && data.code !in {Some(401), Some(422), Some(503)} ==>
                Shows(old(Model()), Model(), Failed(StreamLoadFailed))
      ensures data.fatal && data.code == Some(422) ==> Shows(old(Model()), Model(), Failed(IndexUnavailable))
    {
      var action := ClassifyHlsError(data, preparingRetries);
      match action {
        case RetryPreparing =>
          preparingRetries := preparingRetries + 1;
          SetState(Preparing);
          timers := timers[nextTimer := instance];
          retryTimer := Some(nextTimer);
          nextTimer := nextTimer + 1;
          calls := calls + [Schedule(instance)];
        case RefreshToken => RecoverFrom(StreamLoadFailed, currentTime);
        case PreparingTimeout => SetState(Failed(PreparingTimedOut));
        case IndexFailed => SetState(Failed(IndexUnavailable));
        case Fatal => SetState(Failed(StreamLoadFailed));
        case Ignore =>
      }
    }

    method OnParsed(instance: nat)
      requires instance < |urls|
      modifies this
      ensures Model() == Step(config, old(Model()), ManifestParsed(instance))
    {
      preparingRetries := 0;
      if status == Preparing { SetState(Loading); }
    }

    method OnLoaded()
      modifies this
      ensures Model() == Step(config, old(Model()), LoadedMetadata)
    {
      if disposed { return; }
      refreshUsed := false;
      if pendingSeek.Some? {
        calls := calls + [SetPosition(pendingSeek.value, Recovery)];
        pendingSeek := None;
      } else if firstLoad && config.startAt > 0.0 {
        calls := calls + [SetPosition(config.startAt, Resume)];
      }
      firstLoad := false;
      SetState(Playing);
    }

    /** A pending reload timer fires. */
    method OnReload(timer: nat)
      requires timer in timers && timers[timer] < |urls|
      modifies this`timers, this`calls
      ensures Model() == Step(config, old(Model()), TimerFires(timer))
    {
      var instance := timers[timer];
      timers := timers - {timer};
      calls := calls + [LoadSource(instance, urls[instance])];
    }

    method DisposeSource()
      modifies this
      ensures Model() == Step(config, old(Model()), Dispose)
    {
      if disposed { return; }
      disposed := true;
      TeardownTransport();
      if src != "" { AssignSource(""); }
    }
  }
}
