/** The hub as a mutable object (internal/websocket/hub.go): each method is one case of its event
    loop, or a helper of one. */
module HubLoop {
  import opened Hub

  class Registry {
    var clients: map<User, seq<Client>>
    // What belongs to the client objects: their user, send channel and whether it is closed, and
    // what their writers have taken.
    var user: map<Client, User>
    var queue: map<Client, seq<Message>>
    var closed: set<Client>
    ghost var taken: map<Client, seq<Message>>

    ghost function Model(): State
      reads this
    {
      State(clients, user, queue, closed, taken)
    }

    constructor ()
      ensures Model() == EMPTY
    {
      clients, user, queue, closed, taken := map[], map[], map[], {}, map[];
    }

    /** The send of the select statement; writing to a closed channel would panic. */
    method Push(c: Client, data: Message)
      requires c in queue && c !in closed && |queue[c]| < SEND_BUFFER
      modifies this`queue
      ensures queue == old(queue)[c := old(queue)[c] + [data]]
    {
      queue := queue[c := queue[c] + [data]];
    }

    /** close; closing twice would panic. */
    method CloseSend(c: Client)
      requires c !in closed
      modifies this`closed
      ensures closed == old(closed) + {c}
    {
      closed := closed + {c};
    }

    method RegisterClient(c: Client, u: User)
      requires Inv(Model()) && c !in user
      modifies this
      ensures Model() == Apply(old(Model()), Register(c, u))
    {
      clients := clients[u := (if u in clients then clients[u] else []) + [c]];
      user, queue, taken := user[c := u], queue[c := []], taken[c := []];
    }

    method RemoveClient(c: Client)
      requires Inv(Model()) && c in user
      modifies this`clients, this`closed
      ensures Model() == Remove(old(Model()), c)
    {
      var u := user[c];
      if u !in clients {
        return;
      }
      var list := clients[u];
      assert ListOk(Model(), u);
      for i := 0 to |list|
        invariant Model() == old(Model())
        invariant c !in list[..i]
      {
        if list[i] == c {
          PurgeOne(Model(), c, i);
          CloseSend(c);
          var rest := list[..i] + list[i + 1..];
          if |rest| == 0 {
            clients := clients - {u};
          } else {
            clients := clients[u := rest];
          }
          return;
        }
        assert list[..i + 1] == list[..i] + [list[i]];
      }
      assert list[..|list|] == list;
    }

    /** Offer data to every connection of a user, dropping those whose channel is full after the
        walk over its list, which removing them changes. */
    method DeliverToClients(u: User, list: seq<Client>, data: Message)
      requires Inv(Model()) && u in clients && list == clients[u]
      modifies this`clients, this`queue, this`closed
      ensures Model() == Deliver(old(Model()), ClientsOf(old(Model()), u), data)
    {
      ghost var h := Model();
      MidIsSound(h, u, data);
      ListedAreOpen(h, u);
      var dead := Offer(list, data);
      FullInMembers(h, list);
      assert Set(dead) == Full(h, ClientsOf(h, u));
      Drop(dead);
    }

    /** Offer data to the clients of list in order; dead are those whose channel is full. */
    method Offer(list: seq<Client>, data: Message) returns (dead: seq<Client>)
      requires Open(Model(), list)
      modifies this`queue
      ensures queue == Offered(old(Model()), list, data)
      ensures dead == FullIn(old(Model()), list)
    {
      ghost var h := Model();
      dead := [];
      for i := 0 to |list|
        invariant queue == Offered(h, list[..i], data)
        invariant dead == FullIn(h, list[..i])
      {
        var c := list[i];
        OfferedNext(h, list, i, data);
        if |queue[c]| < SEND_BUFFER {
          Push(c, data);
        } else {
          dead := dead + [c];
        }
      }
      assert list[..|list|] == list;
    }

    /** Remove the clients of dead one by one. */
    method Drop(dead: seq<Client>)
      requires Inv(Model()) && Distinct(dead) && forall c :: c in dead ==> Live(Model(), c)
      modifies this`clients, this`closed
      ensures Model() == Purge(old(Model()), Set(dead))
    {
      ghost var mid := Model();
      PurgeNothing(mid);
      assert Set(dead[..0]) == {};
      for j := 0 to |dead|
        invariant Model() == Purge(mid, Set(dead[..j]))
        invariant Inv(Model())
      {
        PurgeNext(mid, dead, j);
        RemoveClient(dead[j]);
      }
      assert dead[..|dead|] == dead;
    }

    method DeliverToUser(u: User, data: Message)
      requires Inv(Model())
      modifies this`clients, this`queue, this`closed
      ensures Model() == Apply(old(Model()), Targeted(u, data))
    {
      if u !in clients || |clients[u]| == 0 {
        DeliverToNobody(Model(), data);
        return;
      }
      DeliverToClients(u, clients[u], data);
    }

    /** Deliver to everyone, one user after another in any order. */
    method BroadcastToAll(data: Message)
      requires Inv(Model())
      modifies this`clients, this`queue, this`closed
      ensures Model() == Apply(old(Model()), Broadcast(data))
    {
      ghost var h := Model();
      var todo := clients.Keys;
      HalfwayAtTheEnds(h, data);
      while todo != {}
        invariant todo <= h.clients.Keys && Model() == Halfway(h, todo, data)
        decreases |todo|
      {
        var u :| u in todo;
        NextUser(h, todo, data, u);
        todo := todo - {u};
        DeliverToClients(u, clients[u], data);
      }
    }
  }

  /** The live clients of users not still to do. */
  function Reached(h: State, todo: set<User>): set<Client> {
    set c | c in h.user && Live(h, c) && h.user[c] !in todo
  }

  function Set(list: seq<Client>): set<Client> {
    set c | c in list
  }

  /** The queues after the clients of list were offered data. */
  function Offered(h: State, list: seq<Client>, data: Message): map<Client, seq<Message>> {
    if list == [] then h.queue
    else
      var n := |list| - 1;
      var (before, c) := (Offered(h, list[..n], data), list[n]);
      if c in h.queue && |h.queue[c]| < SEND_BUFFER then before[c := h.queue[c] + [data]] else before
  }

  lemma ToppedNext(h: State, to: set<Client>, c: Client, data: Message)
    ensures Topped(h, to + {c}, data) ==
            if c in h.queue && |h.queue[c]| < SEND_BUFFER then Topped(h, to, data)[c := h.queue[c] + [data]]
            else Topped(h, to, data)
  {
  }

  lemma {:induction false} OfferedQueues(h: State, list: seq<Client>, data: Message)
    ensures Offered(h, list, data) == Topped(h, Set(list), data)
  {
    if list == [] {
      assert Topped(h, {}, data) == h.queue;
    } else {
      var n := |list| - 1;
      OfferedQueues(h, list[..n], data);
      ToppedNext(h, Set(list[..n]), list[n], data);
      SetNext(list);
    }
  }

  lemma SetNext(list: seq<Client>)
    requires list != []
    ensures Set(list) == Set(list[..|list| - 1]) + {list[|list| - 1]}
  {
  }

  lemma PurgeOne(h: State, c: Client, i: nat)
    requires Inv(h) && Live(h, c)
    requires var list := h.clients[h.user[c]]; i < |list| && list[i] == c
    ensures var list := h.clients[h.user[c]];
            Purge(h, {c}) == h.(clients := Relisted(h, h.user[c], list[..i] + list[i + 1..]), closed := h.closed + {c})
  {
    var list := h.clients[h.user[c]];
    assert ListOk(h, h.user[c]);
    WithoutOne(list, i);
    var (purged, relisted) := (Purge(h, {c}).clients, Relisted(h, h.user[c], Without(list, {c})));
    forall v ensures (v in purged <==> v in relisted) && (v in purged ==> purged[v] == relisted[v]) {
      if v in h.clients && v != h.user[c] { OthersStay(h, c, v); }
    }
    assert purged == relisted;
  }

  /** The registry with rest as the list of user u, or without u if there is none left. */
  function Relisted(h: State, u: User, rest: seq<Client>): map<User, seq<Client>> {
    if |rest| == 0 then h.clients - {u} else h.clients[u := rest]
  }

  lemma OthersStay(h: State, c: Client, v: User)
    requires Inv(h) && c in h.user && v in h.clients && v != h.user[c]
    ensures Without(h.clients[v], {c}) == h.clients[v] != []
  {
    assert ListOk(h, v);
    WithoutAbsent(h.clients[v], {c});
  }

  /** The clients of list, in order, whose queue is full. */
  function FullIn(h: State, list: seq<Client>): seq<Client> {
    if list == [] then []
    else
      var n := |list| - 1;
      FullIn(h, list[..n]) + if list[n] in h.queue && |h.queue[list[n]]| >= SEND_BUFFER then [list[n]] else []
  }

  lemma {:induction false} FullInMembers(h: State, list: seq<Client>)
    requires Distinct(list) && forall c :: c in list ==> c in h.queue
    ensures Distinct(FullIn(h, list))
    ensures forall c :: c in FullIn(h, list) <==> c in list && |h.queue[c]| >= SEND_BUFFER
  {
    if list != [] {
      var n := |list| - 1;
      FullInMembers(h, list[..n]);
      assert list == list[..n] + [list[n]] && list[n] !in list[..n];
    }
  }

  /** Offering data to one more client of a list. */
  lemma OfferedNext(h: State, list: seq<Client>, i: nat, data: Message)
    requires Open(h, list) && i < |list|
    ensures var (c, before) := (list[i], Offered(h, list[..i], data));
            && c in before && before[c] == h.queue[c] && c !in h.closed
            && Offered(h, list[..i + 1], data) ==
               (if |h.queue[c]| < SEND_BUFFER then before[c := h.queue[c] + [data]] else before)
            && FullIn(h, list[..i + 1]) == FullIn(h, list[..i]) + if |h.queue[c]| >= SEND_BUFFER then [c] else []
  {
    var c := list[i];
    assert list[..i + 1][..i] == list[..i] && c in list && c !in list[..i];
    OfferedQueues(h, list[..i], data);
  }

  /** Distinct clients whose channels are open. */
  predicate Open(h: State, list: seq<Client>) {
    Distinct(list) && forall c :: c in list ==> c in h.queue && c !in h.closed
  }

  lemma ListedAreOpen(h: State, u: User)
    requires Inv(h) && u in h.clients
    ensures Open(h, h.clients[u])
  {
    assert ListOk(h, u);
    ListedAreLive(h, u);
    assert forall c :: c in h.clients[u] ==> c in ClientsOf(h, u);
  }

  /** Removing one more of distinct live clients. */
  lemma PurgeNext(h: State, dead: seq<Client>, j: nat)
    requires Inv(h) && Distinct(dead) && j < |dead| && forall c :: c in dead ==> Live(h, c)
    ensures var before := Purge(h, Set(dead[..j]));
            && dead[j] in before.user && Remove(before, dead[j]) == Purge(h, Set(dead[..j + 1]))
            && Inv(Purge(h, Set(dead[..j + 1])))
  {
    assert forall c :: c in Set(dead[..j + 1]) ==> c in dead;
    PurgeKeepsInv(h, Set(dead[..j]));
    PurgeKeepsInv(h, Set(dead[..j + 1]));
    PurgeTwice(h, Set(dead[..j]), {dead[j]});
    assert dead[j] !in dead[..j] && dead[j] in dead;
    assert Set(dead[..j + 1]) == Set(dead[..j]) + {dead[j]};
  }

  lemma PurgeNothing(h: State)
    requires Inv(h)
    ensures Purge(h, {}) == h
  {
    forall u | u in h.clients ensures Without(h.clients[u], {}) == h.clients[u] != [] {
      assert ListOk(h, u);
      WithoutAbsent(h.clients[u], {});
    }
  }

  lemma DeliverToNobody(h: State, data: Message)
    requires Inv(h)
    ensures Deliver(h, {}, data) == h
  {
    PurgeNothing(h);
    assert Full(h, {}) == {};
  }

  lemma MidIsSound(h: State, u: User, data: Message)
    requires Inv(h) && u in h.clients
    ensures var mid := h.(queue := Offered(h, h.clients[u], data));
            && Inv(mid) && (forall c :: Live(mid, c) <==> Live(h, c))
            && ClientsOf(h, u) <= h.queue.Keys
            && Deliver(h, ClientsOf(h, u), data) == Purge(mid, Full(h, ClientsOf(h, u)))
  {
    OfferedQueues(h, h.clients[u], data);
    ListedAreLive(h, u);
    QueuesDoNotMatter(h, Offered(h, h.clients[u], data));
    assert Set(h.clients[u]) == ClientsOf(h, u);
  }

  lemma QueuesDoNotMatter(h: State, queue: map<Client, seq<Message>>)
    requires Inv(h) && queue.Keys == h.queue.Keys && forall c :: c in queue ==> |queue[c]| <= SEND_BUFFER
    ensures var mid := h.(queue := queue);
            Inv(mid) && forall c :: Live(mid, c) <==> Live(h, c)
  {
    var mid := h.(queue := queue);
    forall v | v in h.clients ensures ListOk(mid, v) {
      assert ListOk(h, v);
    }
    assert forall c :: Live(mid, c) <==> Live(h, c);
  }

  /** The hub while it broadcasts, with the users of todo still to do. */
  ghost function Halfway(h: State, todo: set<User>, data: Message): (now: State)
    requires Inv(h)
    ensures Inv(now)
  {
    DeliverKeepsInv(h, Reached(h, todo), data);
    Deliver(h, Reached(h, todo), data)
  }

  /** One more user in a broadcast. */
  lemma NextUser(h: State, todo: set<User>, data: Message, u: User)
    requires Inv(h) && u in h.clients && u in todo
    ensures var now := Halfway(h, todo, data);
            && u in now.clients && ClientsOf(now, u) <= now.queue.Keys
            && Deliver(now, ClientsOf(now, u), data) == Halfway(h, todo - {u}, data)
  {
    var done, here := Reached(h, todo), ClientsOf(h, u);
    ListedAreLive(h, u);
    assert ListOk(h, u);
    UntouchedUser(h, done, data, u);
    ReachedGrows(h, todo, u);
    DeliverTwice(h, done, here, data);
  }

  lemma HalfwayAtTheEnds(h: State, data: Message)
    requires Inv(h)
    ensures Halfway(h, h.clients.Keys, data) == h
    ensures Halfway(h, {}, data) == Apply(h, Broadcast(data))
  {
    assert Reached(h, h.clients.Keys) == {};
    DeliverToNobody(h, data);
    assert Reached(h, {}) == Everyone(h);
  }

  lemma ReachedGrows(h: State, todo: set<User>, u: User)
    requires Inv(h) && u in h.clients && u in todo
    ensures Reached(h, todo - {u}) == Reached(h, todo) + ClientsOf(h, u)
    ensures Reached(h, todo) !! ClientsOf(h, u)
  {
    assert ListOk(h, u);
    ListedAreLive(h, u);
  }

  /** Delivering to other users' clients leaves a user's list alone. */
  lemma UntouchedUser(h: State, done: set<Client>, data: Message, u: User)
    requires Inv(h) && u in h.clients
    requires forall c :: c in done ==> Live(h, c) && h.user[c] != u
    ensures done <= h.queue.Keys
    ensures u in Deliver(h, done, data).clients && Deliver(h, done, data).clients[u] == h.clients[u]
  {
    assert ListOk(h, u);
    WithoutAbsent(h.clients[u], Full(h, done));
  }
}
