/** The registry of WebSocket clients with bounded queues (internal/websocket/hub.go). */
module Hub {
  import opened SegmentTable

  type User = string
  type Message = string
  type Client = nat

  const SEND_BUFFER := 256

  /** clients maps a user to its connections, in order. user, queue, closed and taken belong to
      the clients: the user each one is for, what waits in its send channel, whether that channel
      is closed, and what its writer has taken from it. */
  datatype State = State(
    clients: map<User, seq<Client>>,
    user: map<Client, User>,
    queue: map<Client, seq<Message>>,
    closed: set<Client>,
    taken: map<Client, seq<Message>>)

  const EMPTY := State(map[], map[], map[], {}, map[])

  predicate Live(h: State, c: Client) {
    c in h.user && h.user[c] in h.clients && c in h.clients[h.user[c]]
  }

  // ----- What each event of the loop does -----

  function Without(list: seq<Client>, gone: set<Client>): seq<Client> {
    if list == [] then []
    else if list[0] in gone then Without(list[1..], gone)
    else [list[0]] + Without(list[1..], gone)
  }

  lemma {:induction false} WithoutMembers(list: seq<Client>, gone: set<Client>)
    ensures forall c :: c in Without(list, gone) <==> c in list && c !in gone
  {
    if list != [] {
      WithoutMembers(list[1..], gone);
      assert list == [list[0]] + list[1..];
    }
  }

  /** Removing clients from the registry and closing their channels. */
  function Purge(h: State, gone: set<Client>): State {
    h.(clients := map u | u in h.clients && Without(h.clients[u], gone) != [] :: Without(h.clients[u], gone),
       closed := h.closed + gone)
  }

  function Remove(h: State, c: Client): State {
    if Live(h, c) then Purge(h, {c}) else h
  }

  /** The clients among to whose queue is full. */
  function Full(h: State, to: set<Client>): set<Client>
    requires to <= h.queue.Keys
  {
    set c | c in to && |h.queue[c]| >= SEND_BUFFER
  }

  /** The queues after the clients of to with room were given data. */
  function Topped(h: State, to: set<Client>, data: Message): map<Client, seq<Message>> {
    map c | c in h.queue :: if c in to && |h.queue[c]| < SEND_BUFFER then h.queue[c] + [data] else h.queue[c]
  }

  /** Offering a message to clients: those with room get it, the others are dropped. */
  function Deliver(h: State, to: set<Client>, data: Message): State
    requires to <= h.queue.Keys
  {
    Purge(h.(queue := Topped(h, to, data)), Full(h, to))
  }

  function ClientsOf(h: State, u: User): set<Client> {
    if u in h.clients then set c | c in h.clients[u] else {}
  }

  function Everyone(h: State): set<Client> {
    set c | c in h.user && Live(h, c)
  }

  datatype Event =
    | Register(c: Client, u: User)
    | Unregister(c: Client)
    | Targeted(u: User, data: Message)
    | Broadcast(data: Message)
    | Take(c: Client)

  /** A client registers once; a writer takes only what is there. */
  predicate Enabled(h: State, e: Event) {
    match e
    case Register(c, _) => c !in h.user
    case Take(c) => c in h.queue && c in h.taken && h.queue[c] != []
    case _ => true
  }

  function Apply(h: State, e: Event): State
    requires Inv(h) && Enabled(h, e)
  {
    match e
    case Register(c, u) =>
      h.(clients := h.clients[u := (if u in h.clients then h.clients[u] else []) + [c]],
         user := h.user[c := u], queue := h.queue[c := []], taken := h.taken[c := []])
    case Unregister(c) => Remove(h, c)
    case Targeted(u, data) => Deliver(h, ClientsOf(h, u), data)
    case Broadcast(data) => Deliver(h, Everyone(h), data)
    case Take(c) =>
      h.(queue := h.queue[c := h.queue[c][1..]], taken := h.taken[c := h.taken[c] + [h.queue[c][0]]])
  }

  // ----- The registry's invariant -----

  predicate Distinct(list: seq<Client>) {
    forall i, j :: 0 <= i < j < |list| ==> list[i] != list[j]
  }

  /** A user's list holds distinct clients of that user, and is not empty. */
  predicate ListOk(h: State, u: User)
    requires u in h.clients
  {
    && h.clients[u] != [] && Distinct(h.clients[u])
    && forall c :: c in h.clients[u] ==> c in h.user && h.user[c] == u
  }

  /** Exactly the live clients have an open channel, and no queue overflows. */
  predicate Inv(h: State) {
    && (forall u :: u in h.clients ==> ListOk(h, u))
    && h.queue.Keys == h.user.Keys == h.taken.Keys
    && h.closed <= h.user.Keys
    && (forall c :: c in h.user ==> (Live(h, c) <==> c !in h.closed))
    && (forall c :: c in h.queue ==> |h.queue[c]| <= SEND_BUFFER)
  }

  lemma {:induction false} WithoutKeepsDistinct(list: seq<Client>, gone: set<Client>)
    requires Distinct(list)
    ensures Distinct(Without(list, gone))
  {
    if list != [] {
      WithoutKeepsDistinct(list[1..], gone);
      WithoutMembers(list[1..], gone);
      assert forall c :: c in list[1..] ==> c != list[0];
    }
  }

  lemma PurgeKeepsInv(h: State, gone: set<Client>)
    requires Inv(h) && forall c :: c in gone ==> Live(h, c)
    ensures Inv(Purge(h, gone))
    ensures forall c :: Live(Purge(h, gone), c) <==> Live(h, c) && c !in gone
  {
    var h' := Purge(h, gone);
    forall u | u in h'.clients ensures ListOk(h', u) {
      assert ListOk(h, u);
      WithoutMembers(h.clients[u], gone);
      WithoutKeepsDistinct(h.clients[u], gone);
    }
    forall c ensures Live(h', c) <==> Live(h, c) && c !in gone {
      if c in h.user && h.user[c] in h.clients { WithoutMembers(h.clients[h.user[c]], gone); }
    }
  }

  lemma DeliverKeepsInv(h: State, to: set<Client>, data: Message)
    requires Inv(h) && forall c :: c in to ==> Live(h, c)
    ensures to <= h.queue.Keys && Inv(Deliver(h, to, data))
    ensures forall c :: Live(Deliver(h, to, data), c) <==> Live(h, c) && c !in Full(h, to)
  {
    var full := Full(h, to);
    var mid := h.(queue := Topped(h, to, data));
    assert forall u :: u in h.clients ==> ListOk(h, u) && ListOk(mid, u);
    assert forall c :: Live(mid, c) <==> Live(h, c);
    PurgeKeepsInv(mid, full);
  }

  lemma ListedAreLive(h: State, u: User)
    requires Inv(h)
    ensures forall c :: c in ClientsOf(h, u) ==> Live(h, c)
  {
    if u in h.clients { assert ListOk(h, u); }
  }

  lemma RegisterKeepsInv(h: State, c: Client, u: User)
    requires Inv(h) && c !in h.user
    ensures Inv(Apply(h, Register(c, u)))
  {
    var h' := Apply(h, Register(c, u));
    forall v | v in h'.clients ensures ListOk(h', v) {
      if v in h.clients { assert ListOk(h, v); }
    }
    forall d | d in h'.user ensures Live(h', d) <==> d !in h'.closed {
      if d != c { assert Live(h', d) <==> Live(h, d); }
    }
  }

  lemma EventKeepsInv(h: State, e: Event)
    requires Inv(h) && Enabled(h, e)
    ensures Inv(Apply(h, e))
  {
    match e
    case Register(c, u) => RegisterKeepsInv(h, c, u);
    case Unregister(c) => if Live(h, c) { PurgeKeepsInv(h, {c}); }
    case Targeted(u, data) => ListedAreLive(h, u); DeliverKeepsInv(h, ClientsOf(h, u), data);
    case Broadcast(data) => DeliverKeepsInv(h, Everyone(h), data);
    case Take(c) =>
      var h' := Apply(h, e);
      assert forall u :: u in h.clients ==> ListOk(h, u) && ListOk(h', u);
      assert forall d :: Live(h', d) <==> Live(h, d);
  }

  // ----- What each event does to a client -----

  /** Client c is as it was: registered or not, with the same queue. */
  predicate Untouched(h: State, h': State, c: Client) {
    && (Live(h', c) <==> Live(h, c)) && (c in h'.closed <==> c in h.closed)
    && (c in h.user ==> c in h'.user && h'.user[c] == h.user[c])
    && (c in h.queue ==> c in h'.queue && h'.queue[c] == h.queue[c])
  }

  /** Client c is out, its channel is closed, and what waits in it stays to be taken. */
  predicate IsOut(h: State, h': State, c: Client) {
    !Live(h', c) && c in h'.closed && c in h.queue && c in h'.queue && h'.queue[c] == h.queue[c]
  }

  /** A message reaches a client if it has room for it, and puts it out otherwise. */
  predicate GetsOrDrops(h: State, h': State, c: Client, data: Message) {
    c in h.queue &&
    if |h.queue[c]| < 256 then Live(h', c) && c in h'.queue && h'.queue[c] == h.queue[c] + [data] else IsOut(h, h', c)
  }

  lemma LeavingClosesTheChannel(h: State, c: Client, d: Client)
    requires Inv(h) && d in h.user
    ensures var h' := Apply(h, Unregister(c));
            if c == d then !Live(h', d) && d in h'.closed else Untouched(h, h', d)
  {
    if Live(h, c) {
      PurgeKeepsInv(h, {c});
      assert Live(Purge(h, {c}), d) <==> Live(h, d) && d !in {c};
    }
  }

  lemma DeliveryDecides(h: State, to: set<Client>, data: Message, d: Client)
    requires Inv(h) && d in h.user && forall c :: c in to ==> Live(h, c)
    ensures to <= h.queue.Keys
    ensures var h' := Deliver(h, to, data); if d in to then GetsOrDrops(h, h', d, data) else Untouched(h, h', d)
  {
    DeliverKeepsInv(h, to, data);
    DeliveredTo(h, to, data, d);
  }

  lemma DeliveredTo(h: State, to: set<Client>, data: Message, d: Client)
    requires to <= h.queue.Keys && d in h.queue
    ensures var h' := Deliver(h, to, data);
            && (Live(h', d) <==> Live(h, d) && !(d in to && |h.queue[d]| >= 256))
            && (d in h'.closed <==> d in h.closed || (d in to && |h.queue[d]| >= 256))
            && h'.user == h.user && d in h'.queue
            && h'.queue[d] == h.queue[d] + if d in to && |h.queue[d]| < 256 then [data] else []
  {
    var full := Full(h, to);
    if d in h.user && h.user[d] in h.clients { WithoutMembers(h.clients[h.user[d]], full); }
    assert h.queue[d] + [] == h.queue[d];
  }

  /** A message to a user reaches each of its connections that has room and puts out those that have not;
      a broadcast does so to every connection; and nobody else notices. */
  lemma MessagesReach(h: State, u: User, data: Message, d: Client)
    requires Inv(h) && d in h.user
    ensures var h' := Apply(h, Targeted(u, data));
            if Live(h, d) && h.user[d] == u then GetsOrDrops(h, h', d, data) else Untouched(h, h', d)
    ensures var h' := Apply(h, Broadcast(data));
            if Live(h, d) then GetsOrDrops(h, h', d, data) else Untouched(h, h', d)
  {
    ListedAreLive(h, u);
    DeliveryDecides(h, ClientsOf(h, u), data, d);
    DeliveryDecides(h, Everyone(h), data, d);
    if u in h.clients { assert ListOk(h, u); }
  }

  /** A client that registers is in, for its user and with an empty queue, after the user's other ones; a
      writer takes the message that waits longest; and the other clients stay as they are. */
  lemma ClientsComeAndTake(h: State, c: Client, u: User, d: Client)
    requires Inv(h)
    ensures Enabled(h, Register(c, u)) ==>
              var h' := Apply(h, Register(c, u));
              && Live(h', c) && h'.user[c] == u && h'.queue[c] == [] && c !in h'.closed && h'.taken[c] == []
              && h'.clients[u] == (if u in h.clients then h.clients[u] else []) + [c]
              && (d in h.user ==> Untouched(h, h', d))
    ensures Enabled(h, Take(c)) ==>
              var h' := Apply(h, Take(c));
              && h'.queue[c] == h.queue[c][1..] && h'.taken[c] == h.taken[c] + [h.queue[c][0]]
              && h'.clients == h.clients && h'.closed == h.closed
              && (d in h.user && d != c ==> Untouched(h, h', d))
  {
  }

  // ----- Delivery over a whole run -----

  /** The events are ones the loop can process, in order. */
  ghost predicate Valid(es: seq<Event>)
    decreases |es|, 0
  {
    es == [] || (Valid(es[..|es| - 1]) && Enabled(After(es[..|es| - 1]), es[|es| - 1]))
  }

  ghost function After(es: seq<Event>): (h: State)
    requires Valid(es)
    ensures Inv(h)
    decreases |es|, 1
  {
    if es == [] then EMPTY
    else
      var before := After(es[..|es| - 1]);
      EventKeepsInv(before, es[|es| - 1]);
      Apply(before, es[|es| - 1])
  }

  /** The user a client registered for. */
  function UserOf(es: seq<Event>, c: Client): Option<User> {
    if es == [] then None
    else
      match es[|es| - 1]
      case Register(d, u) => if d == c then Some(u) else UserOf(es[..|es| - 1], c)
      case _ => UserOf(es[..|es| - 1], c)
  }

  /** e sends a message to a client of user u. */
  function Sent(e: Event, u: Option<User>): seq<Message> {
    match e
    case Targeted(v, data) => if u == Some(v) then [data] else []
    case Broadcast(data) => if u.Some? then [data] else []
    case _ => []
  }

  /** Every message the hub processed for a client since it registered. */
  function Messages(es: seq<Event>, c: Client): seq<Message> {
    if es == [] then []
    else Messages(es[..|es| - 1], c) + Sent(es[|es| - 1], UserOf(es[..|es| - 1], c))
  }

  /** What a client's writer has taken, and after it what still waits. */
  function Got(h: State, c: Client): seq<Message>
    requires c in h.taken && c in h.queue
  {
    h.taken[c] + h.queue[c]
  }

  /** Event e ends client c of user u: it leaves, or a message to it does not fit. */
  predicate EndedBy(h: State, e: Event, u: Option<User>, c: Client) {
    && Live(h, c) && c in h.queue
    && (e == Unregister(c) || (Sent(e, u) != [] && |h.queue[c]| == SEND_BUFFER))
  }

  /** The k-th event ended client c. */
  ghost predicate EndsAt(es: seq<Event>, k: nat, c: Client)
    requires k < |es| && Valid(es[..k])
  {
    EndedBy(After(es[..k]), es[k], UserOf(es[..k], c), c)
  }

  lemma UsersStay(h: State, e: Event, c: Client)
    requires Inv(h) && Enabled(h, e) && c in h.user
    ensures c in Apply(h, e).user
  {
  }

  lemma NothingSentToUnknown(e: Event)
    ensures Sent(e, None) == []
  {
  }

  lemma {:induction false} UnknownHeardNothing(es: seq<Event>, c: Client)
    requires Valid(es) && c !in After(es).user
    ensures Messages(es, c) == []
  {
    if es != [] {
      var (init, last) := (es[..|es| - 1], es[|es| - 1]);
      if c in After(init).user { UsersStay(After(init), last, c); }
      UnknownHeardNothing(init, c);
      UserIsKnown(init, c);
      NothingSentToUnknown(last);
    }
  }

  /** What one event may do to a client known before it, told whether e sends it something. */
  ghost predicate Heard(h: State, h': State, c: Client, sent: seq<Message>, leaves: bool)
    requires c in h.taken && c in h.queue && c in h.user
  {
    && c in h'.user && h'.user[c] == h.user[c] && c in h'.queue && c in h'.taken
    && if !Live(h, c) then !Live(h', c) && Got(h', c) == Got(h, c)
       else if Live(h', c) then Got(h', c) == Got(h, c) + sent
       else Got(h', c) == Got(h, c) && (leaves || (sent != [] && |h.queue[c]| == SEND_BUFFER))
  }

  lemma DeliveredQueue(h: State, to: set<Client>, data: Message, c: Client)
    requires Inv(h) && c in h.user && to <= h.queue.Keys
    ensures var h' := Deliver(h, to, data);
            && c in h'.user && h'.user[c] == h.user[c] && c in h'.queue && c in h'.taken
            && Got(h', c) == Got(h, c) + if c in to && |h.queue[c]| < SEND_BUFFER then [data] else []
  {
  }

  lemma DeliverIsHeard(h: State, to: set<Client>, data: Message, c: Client)
    requires Inv(h) && c in h.user && forall d :: d in to ==> Live(h, d)
    ensures to <= h.queue.Keys
    ensures Heard(h, Deliver(h, to, data), c, if c in to then [data] else [], false)
  {
    DeliverKeepsInv(h, to, data);
    DeliveredQueue(h, to, data, c);
    assert Live(Deliver(h, to, data), c) <==> Live(h, c) && c !in Full(h, to);
    assert Got(h, c) + [] == Got(h, c);
  }

  lemma RemoveIsHeard(h: State, d: Client, c: Client)
    requires Inv(h) && c in h.user
    ensures Heard(h, Remove(h, d), c, [], d == c)
  {
    if Live(h, d) {
      PurgeKeepsInv(h, {d});
      assert Live(Purge(h, {d}), c) <==> Live(h, c) && c !in {d};
    }
    assert Got(h, c) + [] == Got(h, c);
  }

  lemma RegisterIsHeard(h: State, d: Client, u: User, c: Client)
    requires Inv(h) && d !in h.user && c in h.user
    ensures Heard(h, Apply(h, Register(d, u)), c, [], false)
  {
    assert Got(h, c) + [] == Got(h, c);
  }

  lemma TakeIsHeard(h: State, d: Client, c: Client)
    requires Inv(h) && Enabled(h, Take(d)) && c in h.user
    ensures Heard(h, Apply(h, Take(d)), c, [], false)
  {
    if d == c { assert [h.queue[c][0]] + h.queue[c][1..] == h.queue[c]; }
    assert Got(h, c) + [] == Got(h, c);
  }

  lemma EventIsHeard(h: State, e: Event, c: Client)
    requires Inv(h) && Enabled(h, e) && c in h.user
    ensures Heard(h, Apply(h, e), c, if Live(h, c) then Sent(e, Some(h.user[c])) else [], e == Unregister(c))
  {
    match e
    case Targeted(u, data) =>
      ListedAreLive(h, u);
      DeliverIsHeard(h, ClientsOf(h, u), data, c);
      if u in h.clients { assert ListOk(h, u); }
    case Broadcast(data) => DeliverIsHeard(h, Everyone(h), data, c);
    case Unregister(d) => RemoveIsHeard(h, d, c);
    case Register(d, u) => RegisterIsHeard(h, d, u, c);
    case Take(d) => TakeIsHeard(h, d, c);
  }

  /** What client c got by the end of es, k being the event that ended it if one did. */
  ghost predicate GotSoFar(es: seq<Event>, c: Client, k: nat)
    requires Valid(es) && c in After(es).user
  {
    var h := After(es);
    if Live(h, c) then Got(h, c) == Messages(es, c)
    else
      && k < |es| && Valid(es[..k]) && EndsAt(es, k, c)
      && Got(h, c) == Messages(es[..k], c) && Messages(es[..k], c) <= Messages(es, c)
  }

  lemma NewcomerGot(es: seq<Event>, c: Client)
    requires Valid(es) && es != [] && c in After(es).user && c !in After(es[..|es| - 1]).user
    ensures GotSoFar(es, c, 0)
  {
    UnknownHeardNothing(es[..|es| - 1], c);
    NewcomerRegisters(After(es[..|es| - 1]), es[|es| - 1], c);
  }

  lemma LiveGot(es: seq<Event>, c: Client, k: nat)
    requires Valid(es) && es != []
    requires c in After(es[..|es| - 1]).user && c in After(es).user
    requires Live(After(es[..|es| - 1]), c) && GotSoFar(es[..|es| - 1], c, k)
    ensures GotSoFar(es, c, |es| - 1)
  {
    UserIsKnown(es[..|es| - 1], c);
    EventIsHeard(After(es[..|es| - 1]), es[|es| - 1], c);
  }

  lemma EndedGot(es: seq<Event>, c: Client, k: nat)
    requires Valid(es) && es != []
    requires c in After(es[..|es| - 1]).user && c in After(es).user
    requires !Live(After(es[..|es| - 1]), c) && GotSoFar(es[..|es| - 1], c, k)
    ensures GotSoFar(es, c, k)
  {
    EndedHears(After(es[..|es| - 1]), es[|es| - 1], c);
    EndStays(es, |es| - 1, k, c);
  }

  lemma EndedHears(h: State, e: Event, c: Client)
    requires Inv(h) && Enabled(h, e) && c in h.user && !Live(h, c)
    ensures var h' := Apply(h, e);
            c in h'.queue && c in h'.taken && !Live(h', c) && Got(h', c) == Got(h, c)
  {
    EventIsHeard(h, e, c);
  }

  lemma {:induction false} RunGot(es: seq<Event>, c: Client) returns (k: nat)
    requires Valid(es) && c in After(es).user
    ensures GotSoFar(es, c, k)
  {
    var init := es[..|es| - 1];
    if c !in After(init).user {
      NewcomerGot(es, c);
      k := 0;
    } else {
      k := RunGot(init, c);
      if Live(After(init), c) {
        LiveGot(es, c, k);
        k := |es| - 1;
      } else {
        EndedGot(es, c, k);
      }
    }
  }

  /** For every run, what a client's writer has taken followed by what still waits is, in order and
      without a gap, every message processed for it since it registered: all of them while it is
      registered, and otherwise those up to the event that ended it, which was its leaving or the
      first message that did not fit. */
  lemma DeliveredWithoutGaps(es: seq<Event>, c: Client) returns (k: nat)
    requires Valid(es) && c in After(es).user
    ensures Live(After(es), c) ==> Got(After(es), c) == Messages(es, c)
    ensures !Live(After(es), c) ==>
              && k < |es| && Valid(es[..k]) && EndsAt(es, k, c)
              && Got(After(es), c) == Messages(es[..k], c) && Messages(es[..k], c) <= Messages(es, c)
  {
    k := RunGot(es, c);
  }

  lemma EndStays(es: seq<Event>, n: nat, k: nat, c: Client)
    requires n == |es| - 1 && k < n && Valid(es[..n][..k])
    requires EndsAt(es[..n], k, c) && Messages(es[..n][..k], c) <= Messages(es[..n], c)
    ensures es[..n][..k] == es[..k] && Valid(es[..k]) && EndsAt(es, k, c)
    ensures Messages(es[..k], c) <= Messages(es, c)
  {
    assert es[..n][..k] == es[..k] && es[..n][k] == es[k];
    MessagesGrow(es, c);
  }

  lemma MessagesGrow(es: seq<Event>, c: Client)
    requires es != []
    ensures Messages(es[..|es| - 1], c) <= Messages(es, c)
  {
  }

  lemma NewcomerRegisters(h: State, e: Event, c: Client)
    requires Inv(h) && Enabled(h, e) && c !in h.user && c in Apply(h, e).user
    ensures e.Register? && Live(Apply(h, e), c) && Got(Apply(h, e), c) == []
  {
  }

  function UserIn(h: State, c: Client): Option<User> {
    if c in h.user then Some(h.user[c]) else None
  }

  lemma EventTellsUser(h: State, e: Event, c: Client)
    requires Inv(h) && Enabled(h, e)
    ensures UserIn(Apply(h, e), c) == if e.Register? && e.c == c then Some(e.u) else UserIn(h, c)
  {
  }

  lemma {:induction false} UserIsKnown(es: seq<Event>, c: Client)
    requires Valid(es)
    ensures UserOf(es, c) == UserIn(After(es), c)
  {
    if es != [] {
      var (front, last) := (es[..|es| - 1], es[|es| - 1]);
      UserIsKnown(front, c);
      EventTellsUser(After(front), last, c);
    }
  }

  /** A channel is closed at most once, only while its client is live, and never written after. */
  lemma ChannelsCloseOnce(h: State, e: Event, c: Client)
    requires Inv(h) && Enabled(h, e) && c in h.user
    ensures c in h.closed ==> c in Apply(h, e).closed && Got(Apply(h, e), c) == Got(h, c)
    ensures c !in h.closed && c in Apply(h, e).closed ==> Live(h, c) && !Live(Apply(h, e), c)
  {
    EventIsHeard(h, e, c);
    EventKeepsInv(h, e);
  }

  // ----- Composing purges and deliveries -----

  lemma {:induction false} WithoutTwice(list: seq<Client>, s: set<Client>, t: set<Client>)
    ensures Without(Without(list, s), t) == Without(list, s + t)
  {
    if list != [] {
      WithoutTwice(list[1..], s, t);
      if list[0] !in s {
        WithoutCons(list[0], Without(list[1..], s), t);
      }
    }
  }

  lemma WithoutCons(c: Client, list: seq<Client>, gone: set<Client>)
    ensures Without([c] + list, gone) == (if c in gone then [] else [c]) + Without(list, gone)
  {
    assert ([c] + list)[1..] == list;
  }

  lemma {:induction false} WithoutAbsent(list: seq<Client>, gone: set<Client>)
    requires forall c :: c in list ==> c !in gone
    ensures Without(list, gone) == list
  {
    if list != [] {
      WithoutAbsent(list[1..], gone);
    }
  }

  lemma {:induction false} WithoutOne(list: seq<Client>, i: nat)
    requires Distinct(list) && i < |list|
    ensures Without(list, {list[i]}) == list[..i] + list[i + 1..]
  {
    if i == 0 {
      WithoutAbsent(list[1..], {list[0]});
    } else {
      WithoutOne(list[1..], i - 1);
      assert list[1..][..i - 1] == list[1..i] && list[1..][i..] == list[i + 1..];
      assert list[..i] == [list[0]] + list[1..i];
    }
  }

  lemma PurgeTwice(h: State, s: set<Client>, t: set<Client>)
    ensures Purge(Purge(h, s), t) == Purge(h, s + t)
  {
    var twice, once := Purge(Purge(h, s), t).clients, Purge(h, s + t).clients;
    forall u ensures (u in twice <==> u in once) && (u in once ==> twice[u] == once[u]) {
      if u in h.clients { WithoutTwice(h.clients[u], s, t); }
    }
    assert twice == once;
    assert h.closed + s + t == h.closed + (s + t);
  }

  lemma FullApart(h: State, a: set<Client>, b: set<Client>, data: Message)
    requires a !! b && a + b <= h.queue.Keys
    ensures Full(Deliver(h, a, data), b) == Full(h, b)
    ensures Full(h, a + b) == Full(h, a) + Full(h, b)
  {
  }

  lemma ToppedApart(h: State, first: State, a: set<Client>, b: set<Client>, data: Message)
    requires a !! b && first.queue == Topped(h, a, data)
    ensures Topped(first, b, data) == Topped(h, a + b, data)
  {
  }

  lemma DeliverTwice(h: State, a: set<Client>, b: set<Client>, data: Message)
    requires a !! b && a + b <= h.queue.Keys
    ensures Deliver(Deliver(h, a, data), b, data) == Deliver(h, a + b, data)
  {
    var first := Deliver(h, a, data);
    var mid := h.(queue := Topped(h, a + b, data));
    FullApart(h, a, b, data);
    ToppedApart(h, first, a, b, data);
    assert first.(queue := mid.queue) == Purge(mid, Full(h, a));
    PurgeTwice(mid, Full(h, a), Full(h, b));
  }
}
