/** Data a page loads under a key (web/src/hooks/useRemoteResource.ts). A render hands the hook its
    key at once; the effect that reacts to a changed key runs later, and each fetch is answered at
    most once, at any time and in any order. */
module RemoteResource {
  import opened SegmentTable

  // ----- The hook's state -----

  /** What one fetch was issued for, the generation it took, and its answer once there is one. */
  datatype Fetch<K, T, E> = Fetch(key: K, generation: nat, answer: Option<Result<T, E>>)

  /** Ready data remembers the fetch it came from and the edits made in place since. */
  datatype Status<!T, E> = Loading | Ready(data: T, source: nat, edits: seq<T -> T>) | Error(error: E)

  datatype Shown<K, !T, E> = Shown(key: K, status: Status<T, E>)

  datatype State<K, !T, E> = State(
    shown: Shown<K, T, E>, generation: nat, keyRef: K, key: K, mounted: bool, fetches: seq<Fetch<K, T, E>>)

  datatype Event<K, !T, E> =
    | Render(key: K)
    | Effect
    | Reload
    | Retry
    | Mutate(update: T -> T)
    | Respond(fetch: nat, answer: Result<T, E>)
    | Unmount

  /** What the page sees: a state left from another key counts as loading. */
  function View<K(==), T, E>(s: State<K, T, E>): Status<T, E> {
    if s.shown.key == s.key then s.shown.status else Loading
  }

  // ----- What each event does -----

  function Issue<K, T, E>(s: State<K, T, E>, forKey: K): State<K, T, E> {
    s.(generation := s.generation + 1, fetches := s.fetches + [Fetch(forKey, s.generation + 1, None)])
  }

  /** React ignores a state set after unmounting. */
  function Set<K, T, E>(s: State<K, T, E>, shown: Shown<K, T, E>): State<K, T, E> {
    if s.mounted then s.(shown := shown) else s
  }

  /** The first effects have run: the first fetch is on its way. */
  function Start<K, T, E>(key: K): State<K, T, E> {
    Issue(State(Shown(key, Loading), 0, key, key, true, []), key)
  }

  predicate Lands<K, T, E>(s: State<K, T, E>, i: nat) {
    i < |s.fetches| && s.fetches[i].generation == s.generation
  }

  function Land<K(==), T, E>(s: State<K, T, E>, i: nat, answer: Result<T, E>): State<K, T, E>
    requires i < |s.fetches|
  {
    var forKey := s.fetches[i].key;
    match answer
    case Ok(data) => Set(s, Shown(forKey, Ready(data, i, [])))
    case Err(error) => if s.shown.key == forKey && s.shown.status.Ready? then s else Set(s, Shown(forKey, Error(error)))
  }

  function Answer<K(==), T, E>(s: State<K, T, E>, i: nat, answer: Result<T, E>): State<K, T, E>
    requires i < |s.fetches|
  {
    var t := s.(fetches := s.fetches[i := s.fetches[i].(answer := Some(answer))]);
    if Lands(s, i) then Land(t, i, answer) else t
  }

  function Edit<K, T, E>(s: State<K, T, E>, update: T -> T): State<K, T, E> {
    match s.shown.status
    case Ready(data, source, edits) => Set(s, s.shown.(status := Ready(update(data), source, edits + [update])))
    case _ => s
  }

  /** The key effect leaves the old key's generation and fetches for the new key. */
  function RunEffect<K(==), T, E>(s: State<K, T, E>): State<K, T, E> {
    if s.mounted && s.key != s.keyRef then Issue(s.(generation := s.generation + 1, keyRef := s.key), s.key) else s
  }

  function Step<K(==), T, E>(s: State<K, T, E>, e: Event<K, T, E>): State<K, T, E> {
    match e
    case Render(key) => if s.mounted then s.(key := key) else s
    case Effect => RunEffect(s)
    case Reload => Issue(s, s.keyRef)
    case Retry => Issue(Set(s, Shown(s.keyRef, Loading)), s.keyRef)
    case Mutate(update) => Edit(s, update)
    case Respond(i, answer) => if i < |s.fetches| && s.fetches[i].answer == None then Answer(s, i, answer) else s
    case Unmount => if s.mounted then s.(mounted := false, generation := s.generation + 1) else s
  }

  function Run<K(==), T, E>(s: State<K, T, E>, es: seq<Event<K, T, E>>): State<K, T, E>
    decreases |es|
  {
    if es == [] then s else Run(Step(s, es[0]), es[1..])
  }

  // ----- The invariant -----

  function Edited<T>(data: T, edits: seq<T -> T>): T {
    if edits == [] then data else edits[|edits| - 1](Edited(data, edits[..|edits| - 1]))
  }

  /** Later fetches took later generations; while mounted, the last fetch is for the current key
      and holds the current generation. */
  ghost predicate FetchesOk<K, T, E>(s: State<K, T, E>) {
    && |s.fetches| > 0
    && (forall i :: 0 <= i < |s.fetches| ==> s.fetches[i].generation <= s.generation)
    && (forall i, j :: 0 <= i < j < |s.fetches| ==> s.fetches[i].generation < s.fetches[j].generation)
    && (s.mounted ==> Last(s).generation == s.generation && Last(s).key == s.keyRef)
  }

  function Last<K, T, E>(s: State<K, T, E>): Fetch<K, T, E>
    requires |s.fetches| > 0
  {
    s.fetches[|s.fetches| - 1]
  }

  /** Ready data was the answer of a fetch for the key it is kept under, edited in place since; and
      once the last fetch is answered, the state is of the current key and not loading. */
  ghost predicate ShownOk<K(!new), T(!new), E(!new)>(s: State<K, T, E>) {
    && (s.shown.status.Ready? ==>
          var Ready(data, source, edits) := s.shown.status;
          && source < |s.fetches| && s.fetches[source].key == s.shown.key
          && s.fetches[source].answer.Some? && s.fetches[source].answer.value.Ok?
          && data == Edited(s.fetches[source].answer.value.value, edits))
    && (s.mounted && |s.fetches| > 0 && Last(s).answer.Some? ==> s.shown.key == s.keyRef && !s.shown.status.Loading?)
  }

  ghost predicate Inv<K(!new), T(!new), E(!new)>(s: State<K, T, E>) {
    FetchesOk(s) && ShownOk(s)
  }

  lemma StepKeepsFetches<K, T, E>(s: State<K, T, E>, e: Event<K, T, E>)
    requires FetchesOk(s)
    ensures FetchesOk(Step(s, e)) && |Step(s, e).fetches| >= |s.fetches|
  {
  }

  /** Only the last fetch can land, so what lands is never older than what landed before. */
  lemma OnlyTheLastLands<K, T, E>(s: State<K, T, E>, i: nat)
    requires FetchesOk(s) && Lands(s, i)
    ensures i == |s.fetches| - 1
  {
    assert Last(s).generation <= s.generation;
  }

  lemma EditIsOk<K(!new), T(!new), E(!new)>(s: State<K, T, E>, update: T -> T)
    requires Inv(s)
    ensures ShownOk(Edit(s, update))
  {
    if s.shown.status.Ready? {
      var Ready(data, source, edits) := s.shown.status;
      assert (edits + [update])[..|edits|] == edits;
    }
  }

  lemma AnswerIsOk<K(!new), T(!new), E(!new)>(s: State<K, T, E>, i: nat, answer: Result<T, E>)
    requires Inv(s) && i < |s.fetches| && s.fetches[i].answer == None
    ensures ShownOk(Answer(s, i, answer))
  {
    if Lands(s, i) { OnlyTheLastLands(s, i); }
  }

  lemma StepKeepsInv<K(!new), T(!new), E(!new)>(s: State<K, T, E>, e: Event<K, T, E>)
    requires Inv(s)
    ensures Inv(Step(s, e))
  {
    StepKeepsFetches(s, e);
    match e {
      case Mutate(update) => EditIsOk(s, update);
      case Respond(i, answer) => if i < |s.fetches| && s.fetches[i].answer == None { AnswerIsOk(s, i, answer); }
      case _ =>
    }
  }

  lemma {:induction false} RunKeepsInv<K(!new), T(!new), E(!new)>(s: State<K, T, E>, es: seq<Event<K, T, E>>)
    requires Inv(s)
    ensures Inv(Run(s, es))
    decreases |es|
  {
    if es != [] {
      StepKeepsInv(s, es[0]);
      RunKeepsInv(Step(s, es[0]), es[1..]);
    }
  }

  // ----- The latest fetch wins -----

  /** Another fetch is issued, or the key or the page is left. */
  predicate Bumps<K(==), T, E>(s: State<K, T, E>, e: Event<K, T, E>) {
    || e.Reload? || e.Retry?
    || (e.Unmount? && s.mounted)
    || (e.Effect? && s.mounted && s.key != s.keyRef)
  }

  predicate Bumped<K(==), T, E>(s: State<K, T, E>, es: seq<Event<K, T, E>>)
    decreases |es|
  {
    es != [] && (Bumps(s, es[0]) || Bumped(Step(s, es[0]), es[1..]))
  }

  lemma StepBumps<K, T, E>(s: State<K, T, E>, e: Event<K, T, E>, i: nat)
    requires i < |s.fetches|
    ensures var s' := Step(s, e);
            && i < |s'.fetches| && s'.fetches[i].generation == s.fetches[i].generation
            && s'.fetches[i].key == s.fetches[i].key
            && s'.generation >= s.generation && (s'.generation == s.generation <==> !Bumps(s, e))
  {
  }

  lemma {:induction false} OvertakenStaysOut<K, T, E>(s: State<K, T, E>, es: seq<Event<K, T, E>>, i: nat)
    requires i < |s.fetches| && s.fetches[i].generation < s.generation
    ensures !Lands(Run(s, es), i)
    decreases |es|
  {
    if es != [] {
      StepBumps(s, es[0], i);
      OvertakenStaysOut(Step(s, es[0]), es[1..], i);
    }
  }

  /** A fetch that could land when it was issued can still land exactly if, whatever happened since
      and in whatever order, no other fetch was issued and neither the key nor the page was left. */
  lemma {:induction false} LatestFetchWins<K, T, E>(s: State<K, T, E>, es: seq<Event<K, T, E>>, i: nat)
    requires Lands(s, i)
    ensures Lands(Run(s, es), i) <==> !Bumped(s, es)
    decreases |es|
  {
    if es != [] {
      StepBumps(s, es[0], i);
      if Bumps(s, es[0]) {
        OvertakenStaysOut(Step(s, es[0]), es[1..], i);
      } else {
        LatestFetchWins(Step(s, es[0]), es[1..], i);
      }
    }
  }

  /** What an answer changes for the page: that of an overtaken fetch nothing; that of the last one
      shows its data, or its error unless data of the same key is shown already. */
  lemma AnswersShow<K(!new), T(!new), E(!new)>(s: State<K, T, E>, i: nat, answer: Result<T, E>)
    requires Inv(s) && s.mounted && i < |s.fetches| && s.fetches[i].answer == None
    ensures var s' := Step(s, Respond(i, answer));
            if i < |s.fetches| - 1 then View(s') == View(s)
            else if s.key != s.keyRef then s'.shown.key == s.keyRef && View(s') == Loading
            else View(s') == match answer
                             case Ok(data) => Ready(data, i, [])
                             case Err(error) => if View(s).Ready? then View(s) else Error(error)
  {
    if Lands(s, i) { OnlyTheLastLands(s, i); }
  }

  /** What the other events change for the page: a reload keeps what is shown, a retry shows loading,
      a new key shows loading unless the state is of that key, and an edit changes ready data only. */
  lemma OtherEventsShow<K, T, E>(s: State<K, T, E>, e: Event<K, T, E>)
    requires s.mounted && !e.Respond?
    ensures var (v, v') := (View(s), View(Step(s, e)));
            match e
            case Retry => v' == Loading
            case Render(key) => v' == if s.shown.key == key then s.shown.status else Loading
            case Mutate(update) => v' == if v.Ready? then Ready(update(v.data), v.source, v.edits + [update]) else v
            case _ => v' == v
  {
  }

  // ----- What a page can see -----

  /** In every run, data is shown only under the key it was loaded for, and it is what a fetch for
      that key answered, edited in place since. */
  lemma ShownUnderItsKey<K(!new), T(!new), E(!new)>(key: K, es: seq<Event<K, T, E>>)
    ensures var s := Run<K, T, E>(Start(key), es);
            View(s).Ready? ==>
              var Ready(data, source, edits) := View(s);
              && source < |s.fetches| && s.fetches[source].key == s.key
              && s.fetches[source].answer.Some? && s.fetches[source].answer.value.Ok?
              && data == Edited(s.fetches[source].answer.value.value, edits)
  {
    RunKeepsInv(Start<K, T, E>(key), es);
  }

  /** A page never shows loading for nothing: once its key effect has run, the last fetch is for
      that key, unanswered, and its answer will land. */
  lemma LoadingIsOnItsWay<K(!new), T(!new), E(!new)>(key: K, es: seq<Event<K, T, E>>)
    ensures var s := Run<K, T, E>(Start(key), es);
            s.mounted && s.key == s.keyRef && View(s).Loading? ==>
              |s.fetches| > 0 && Last(s).answer == None && Last(s).key == s.key && Lands(s, |s.fetches| - 1)
  {
    RunKeepsInv(Start<K, T, E>(key), es);
  }

  /** Data shown never goes back to that of an earlier fetch. */
  lemma {:induction false} DataNeverGoesBack<K(!new), T(!new), E(!new)>(s: State<K, T, E>, es: seq<Event<K, T, E>>,
                                                                          a: nat)
    requires Inv(s) && a < |s.fetches| && (s.shown.status.Ready? ==> a <= s.shown.status.source)
    ensures Run(s, es).shown.status.Ready? ==> a <= Run(s, es).shown.status.source
    decreases |es|
  {
    if es != [] {
      StepKeepsInv(s, es[0]);
      StepKeepsFetches(s, es[0]);
      if es[0].Respond? && Lands(s, es[0].fetch) { OnlyTheLastLands(s, es[0].fetch); }
      DataNeverGoesBack(Step(s, es[0]), es[1..], a);
    }
  }

  /** As long as es lasts, the page keeps its key and its load is not retried. */
  ghost predicate Quiet<K(!new), T(!new), E(!new)>(es: seq<Event<K, T, E>>, key: K) {
    forall i :: 0 <= i < |es| ==> !es[i].Retry? && (es[i].Render? ==> es[i].key == key)
  }

  lemma QuietStepKeepsData<K(!new), T(!new), E(!new)>(s: State<K, T, E>, e: Event<K, T, E>)
    requires Inv(s) && s.key == s.keyRef && View(s).Ready? && !e.Retry? && (e.Render? ==> e.key == s.key)
    ensures View(Step(s, e)).Ready? && Step(s, e).key == Step(s, e).keyRef == s.key
  {
    if s.mounted {
      if !e.Respond? {
        OtherEventsShow(s, e);
      } else if e.fetch < |s.fetches| && s.fetches[e.fetch].answer == None {
        AnswersShow(s, e.fetch, e.answer);
      }
    }
  }

  /** Data once shown stays shown through reloads, failures, edits and overtaken answers in any order,
      until the page changes its key or retries. */
  lemma {:induction false} ShownDataStays<K(!new), T(!new), E(!new)>(s: State<K, T, E>, es: seq<Event<K, T, E>>)
    requires Inv(s) && s.key == s.keyRef && View(s).Ready? && Quiet(es, s.key)
    ensures View(Run(s, es)).Ready? && Run(s, es).key == s.key
    decreases |es|
  {
    if es != [] {
      QuietStepKeepsData(s, es[0]);
      StepKeepsInv(s, es[0]);
      ShownDataStays(Step(s, es[0]), es[1..]);
    }
  }

  // ----- The hook as a mutable object -----

  /** generationRef and keyRef are the hook's refs, and state what it set; fetches holds the promises
      it is waiting for. */
  class Resource<K(==), T, E> {
    var state: Shown<K, T, E>
    var generationRef: nat
    var keyRef: K
    var key: K
    var mounted: bool
    var fetches: seq<Fetch<K, T, E>>

    ghost function Model(): State<K, T, E>
      reads this
    {
      State(state, generationRef, keyRef, key, mounted, fetches)
    }

    constructor (key: K)
      ensures Model() == Start(key)
    {
      state := Shown(key, Loading);
      generationRef, keyRef, this.key, mounted, fetches := 0, key, key, true, [];
      new;
      FetchLatest(key);
    }

    method FetchLatest(forKey: K)
      modifies this`generationRef, this`fetches
      ensures Model() == Issue(old(Model()), forKey)
    {
      generationRef := generationRef + 1;
      fetches := fetches + [Fetch(forKey, generationRef, None)];
    }

    method SetState(next: Shown<K, T, E>)
      modifies this`state
      ensures Model() == Set(old(Model()), next)
    {
      if mounted { state := next; }
    }

    method OnAnswer(i: nat, answer: Result<T, E>)
      requires i < |fetches| && fetches[i].answer.None?
      modifies this`state, this`fetches
      ensures Model() == Step(old(Model()), Respond(i, answer))
    {
      var Fetch(forKey, generation, _) := fetches[i];
      fetches := fetches[i := Fetch(forKey, generation, Some(answer))];
      if generation != generationRef { return; }
      match answer {
        case Ok(data) => SetState(Shown(forKey, Ready(data, i, [])));
        case Err(error) =>
          if !(state.key == forKey && state.status.Ready?) { SetState(Shown(forKey, Error(error))); }
      }
    }

    method KeyEffect()
      modifies this
      ensures Model() == Step(old(Model()), Effect)
    {
      if !mounted || key == keyRef { return; }
      generationRef := generationRef + 1;
      keyRef := key;
      FetchLatest(key);
    }

    method RetryLoad()
      modifies this
      ensures Model() == Step(old(Model()), Retry)
    {
      var forKey := keyRef;
      SetState(Shown(forKey, Loading));
      FetchLatest(forKey);
    }

    method ReloadQuietly()
      modifies this`generationRef, this`fetches
      ensures Model() == Step(old(Model()), Reload)
    {
      FetchLatest(keyRef);
    }

    method MutateData(update: T -> T)
      modifies this`state
      ensures Model() == Step(old(Model()), Mutate(update))
    {
      match state.status {
        case Ready(data, source, edits) => SetState(state.(status := Ready(update(data), source, edits + [update])));
        case _ =>
      }
    }
  }
}
