/** The hub of server-sent-event clients: registration, fan-out with bounded buffers, and the ids of the clients. */
module EventStream {
  import opened StreamIds

  const CAPACITY := 8

  datatype Event = Event(name: string, payload: string)

  const ADMIN_ONLY: set<string> := {
    "new_user", "provider_sync_started", "provider_sync_progress", "provider_sync_completed", "provider_sync_failed"
  }

  /** An event in a channel, with the number of the dispatch that put it there (history). */
  datatype Item = Item(dispatch: nat, event: Event)

  /** A client and its channel: what is buffered, and what its handler has taken out (history). */
  datatype Client = Client(user: string, isAdmin: bool, buffer: seq<Item>, received: seq<Item>, closed: bool)

  function Delivered(c: Client): seq<Item> {
    c.received + c.buffer
  }

  predicate Wants(c: Client, e: Event) {
    e.name in ADMIN_ONLY ==> c.isAdmin
  }

  /** The non-blocking send: a full buffer drops the event. */
  function Offer(c: Client, it: Item): Client {
    if Wants(c, it.event) && |c.buffer| < CAPACITY then c.(buffer := c.buffer + [it]) else c
  }

  /** The index of connected clients by user, all channels ever made, and the id counter. A client is named by the
      counter value n of its id; the id itself is StreamId(n), and different n give different ids. */
  datatype Hub = Hub(streams: map<string, set<nat>>, clients: map<nat, Client>, seqNo: nat)

  const EMPTY_HUB := Hub(map[], map[], 0)

  predicate Connected(h: Hub, id: nat) {
    id in h.clients && h.clients[id].user in h.streams && id in h.streams[h.clients[id].user]
  }

  /** The index and the channels with a new client. */
  function Add(h: Hub, id: nat, user: string, isAdmin: bool): Hub {
    h.(streams := h.streams[user := (if user in h.streams then h.streams[user] else {}) + {id}],
       clients := h.clients[id := Client(user, isAdmin, [], [], false)])
  }

  function Register(h: Hub, user: string, isAdmin: bool): Hub {
    Add(h, h.seqNo + 1, user, isAdmin).(seqNo := h.seqNo + 1)
  }

  function Unregister(h: Hub, id: nat): Hub
    requires id in h.clients
  {
    var user := h.clients[id].user;
    var streams' := if user !in h.streams then h.streams
                    else if h.streams[user] - {id} == {} then h.streams - {user}
                    else h.streams[user := h.streams[user] - {id}];
    h.(streams := streams', clients := h.clients[id := h.clients[id].(closed := true)])
  }

  /** A channel is open exactly while its client is connected, ids come from the counter, buffers are bounded, and
      admin-only events reach admins only. */
  ghost predicate HubInv(h: Hub) {
    && IndexInv(h)
    && (forall id | id in h.clients :: 1 <= id <= h.seqNo)
    && (forall id | id in h.clients :: ClientOk(h.clients[id]))
  }

  ghost predicate IndexInv(h: Hub) {
    && (forall u | u in h.streams :: h.streams[u] != {})
    && (forall u, id | u in h.streams && id in h.streams[u] :: id in h.clients && h.clients[id].user == u)
    && (forall id | id in h.clients :: Connected(h, id) <==> !h.clients[id].closed)
  }

  ghost predicate ClientOk(c: Client) {
    && |c.buffer| <= CAPACITY
    && (!c.isAdmin ==> forall it <- Delivered(c) :: it.event.name !in ADMIN_ONLY)
  }

  // ---------------------------------------------------------------- the hub

  /** Every connected client is offered the event; nobody else is touched. */
  function Dispatched(h: Hub, it: Item): Hub {
    h.(clients := map id | id in h.clients :: if Connected(h, id) then Offer(h.clients[id], it) else h.clients[id])
  }

  /** The clients after those in done have been offered the event. */
  ghost function Partly(h: Hub, it: Item, done: set<nat>): map<nat, Client> {
    map id | id in h.clients :: if id in done then Offer(h.clients[id], it) else h.clients[id]
  }

  lemma AddIndex(h: Hub, id: nat, user: string, isAdmin: bool)
    requires IndexInv(h) && id !in h.clients
    ensures IndexInv(Add(h, id, user, isAdmin)) && Connected(Add(h, id, user, isAdmin), id)
  {
    var h' := Add(h, id, user, isAdmin);
    forall i | i in h'.clients ensures Connected(h', i) <==> !h'.clients[i].closed {
      if i != id { assert Connected(h, i) <==> !h.clients[i].closed; }
    }
  }

  lemma RegisterInv(h: Hub, user: string, isAdmin: bool)
    requires HubInv(h)
    ensures HubInv(Register(h, user, isAdmin)) && h.seqNo + 1 !in h.clients
    ensures Connected(Register(h, user, isAdmin), h.seqNo + 1)
  {
    AddIndex(h, h.seqNo + 1, user, isAdmin);
    IndexSame(Add(h, h.seqNo + 1, user, isAdmin), Register(h, user, isAdmin));
  }

  lemma IndexSame(h: Hub, h': Hub)
    requires IndexInv(h) && h'.streams == h.streams && h'.clients == h.clients
    ensures IndexInv(h') && forall id | id in h.clients :: Connected(h', id) == Connected(h, id)
  {
    forall i | i in h'.clients ensures Connected(h', i) <==> !h'.clients[i].closed {
      assert Connected(h, i) <==> !h.clients[i].closed;
    }
  }

  lemma UnregisterIndex(h: Hub, id: nat)
    requires IndexInv(h) && id in h.clients && !h.clients[id].closed
    ensures IndexInv(Unregister(h, id)) && !Connected(Unregister(h, id), id)
  {
    var h' := Unregister(h, id);
    assert Connected(h, id);
    forall i | i in h'.clients ensures Connected(h', i) <==> !h'.clients[i].closed {
      assert Connected(h, i) <==> !h.clients[i].closed;
    }
  }

  lemma UnregisterInv(h: Hub, id: nat)
    requires HubInv(h) && id in h.clients && !h.clients[id].closed
    ensures HubInv(Unregister(h, id)) && !Connected(Unregister(h, id), id)
  {
    UnregisterIndex(h, id);
    var h' := Unregister(h, id);
    forall i | i in h'.clients ensures ClientOk(h'.clients[i]) {
      assert ClientOk(h.clients[i]);
      assert Delivered(h'.clients[i]) == Delivered(h.clients[i]);
    }
  }

  lemma OfferOk(c: Client, it: Item)
    requires ClientOk(c)
    ensures ClientOk(Offer(c, it))
  {
    assert Delivered(c.(buffer := c.buffer + [it])) == Delivered(c) + [it];
  }

  function SetClient(h: Hub, id: nat, c: Client): Hub {
    h.(clients := h.clients[id := c])
  }

  /** Changing only what is in a channel keeps the hub in order. */
  lemma SetClientInv(h: Hub, id: nat, c: Client)
    requires HubInv(h) && id in h.clients && ClientOk(c)
    requires c.user == h.clients[id].user && c.closed == h.clients[id].closed
    ensures HubInv(SetClient(h, id, c))
  {
    var h' := SetClient(h, id, c);
    forall i | i in h'.clients ensures Connected(h', i) <==> !h'.clients[i].closed {
      assert Connected(h, i) <==> !h.clients[i].closed;
    }
  }

  lemma PartlyTwice(h: Hub, it: Item, a: set<nat>, b: set<nat>)
    requires a !! b
    ensures Partly(h.(clients := Partly(h, it, a)), it, b) == Partly(h, it, a + b)
  {}

  /** The clients of the users not in todo are served. */
  ghost predicate ServedBut(h: Hub, done: set<nat>, todo: set<string>) {
    forall id | id in h.clients :: id in done <==> Connected(h, id) && h.clients[id].user !in todo
  }

  lemma ServeUser(h: Hub, it: Item, done: set<nat>, todo: set<string>, user: string)
    requires HubInv(h) && ServedBut(h, done, todo) && user in todo && user in h.streams
    ensures Partly(h.(clients := Partly(h, it, done)), it, h.streams[user]) == Partly(h, it, done + h.streams[user])
    ensures ServedBut(h, done + h.streams[user], todo - {user})
  {
    forall id | id in h.streams[user] ensures id in h.clients && id !in done { assert Connected(h, id); }
    PartlyTwice(h, it, done, h.streams[user]);
  }

  lemma AllServed(h: Hub, it: Item, done: set<nat>)
    requires ServedBut(h, done, {})
    ensures h.(clients := Partly(h, it, done)) == Dispatched(h, it)
  {}

  /** Offering events never touches who a client is or whether its channel is open. */
  lemma StillOpen(h: Hub, it: Item, done: set<nat>, user: string)
    requires HubInv(h) && user in h.streams
    ensures forall id | id in h.streams[user] :: id in Partly(h, it, done) && !Partly(h, it, done)[id].closed
  {
    forall id | id in h.streams[user] ensures id in h.clients && !h.clients[id].closed { assert Connected(h, id); }
  }

  lemma DispatchedInv(h: Hub, it: Item)
    requires HubInv(h)
    ensures HubInv(Dispatched(h, it))
  {
    var h' := Dispatched(h, it);
    forall i | i in h'.clients
      ensures ClientOk(h'.clients[i]) && (Connected(h', i) <==> !h'.clients[i].closed)
    {
      OfferOk(h.clients[i], it);
      assert Connected(h, i) <==> !h.clients[i].closed;
    }
  }

  class StreamHub {
    var streams: map<string, set<nat>>
    var clients: map<nat, Client>
    var seqNo: nat
    var dispatches: nat   // history: numbers the dispatches, read by nothing else

    ghost function View(): Hub
      reads this
    {
      Hub(streams, clients, seqNo)
    }

    constructor ()
      ensures View() == EMPTY_HUB && HubInv(View())
    {
      streams, clients, seqNo, dispatches := map[], map[], 0, 0;
    }

    /** The counter is a uint64; ids stay distinct until it wraps. */
    method RegisterStream(user: string, isAdmin: bool) returns (n: nat, id: string)
      requires HubInv(View()) && seqNo + 1 < 0x1_0000_0000_0000_0000
      modifies this
      ensures HubInv(View()) && View() == Register(old(View()), user, isAdmin)
      ensures n == old(seqNo) + 1 && n !in old(clients) && id == StreamId(n) && Connected(View(), n)
      ensures clients == old(clients)[n := Client(user, isAdmin, [], [], false)] && user in streams && n in streams[user]
    {
      ghost var after := Register(View(), user, isAdmin);
      RegisterInv(View(), user, isAdmin);
      n := seqNo + 1;
      id := NextStreamId(n);
      seqNo := n;
      if user !in streams {
        streams := streams[user := {}];
      }
      streams := streams[user := streams[user] + {n}];
      clients := clients[n := Client(user, isAdmin, [], [], false)];
      assert streams == after.streams && clients == after.clients;
      assert View() == after;
    }

    /** Each client is unregistered once, by the handler that registered it. */
    method UnregisterStream(id: nat)
      requires HubInv(View()) && id in clients && !clients[id].closed
      modifies this
      ensures HubInv(View()) && View() == Unregister(old(View()), id)
      ensures !Connected(View(), id) && clients[id].closed
    {
      UnregisterInv(View(), id);
      assert Connected(View(), id);
      var user := clients[id].user;
      if user in streams {
        streams := streams[user := streams[user] - {id}];
        if |streams[user]| == 0 {
          streams := streams - {user};
        }
      }
      clients := clients[id := clients[id].(closed := true)];
    }

    /** Fan-out over users and their clients in any order; no send meets a closed channel. */
    method Dispatch(e: Event)
      requires HubInv(View())
      modifies this
      ensures HubInv(View()) && View() == Dispatched(old(View()), Item(old(dispatches), e))
      ensures dispatches == old(dispatches) + 1 && clients.Keys == old(clients).Keys && streams == old(streams)
      ensures forall id | id in old(clients) ::
        var c := old(clients)[id];
        var reached := c.user in old(streams) && id in old(streams)[c.user];
        clients[id] == if reached && (c.isAdmin || e.name !in ADMIN_ONLY) && |c.buffer| < 8
                       then c.(buffer := c.buffer + [Item(old(dispatches), e)]) else c
    {
      var it := Item(dispatches, e);
      ghost var h := View();
      DispatchedInv(h, it);
      var users := streams.Keys;
      ghost var done: set<nat> := {};
      while users != {}
        invariant streams == h.streams && seqNo == h.seqNo && dispatches == old(dispatches)
        invariant users <= streams.Keys
        invariant ServedBut(h, done, users) && clients == Partly(h, it, done)
      {
        var user :| user in users;
        StillOpen(h, it, done, user);
        ServeUser(h, it, done, users, user);
        DispatchUser(user, it);
        done := done + streams[user];
        users := users - {user};
      }
      AllServed(h, it, done);
      dispatches := dispatches + 1;
    }

    /** The inner loop, over the clients of one user. */
    method DispatchUser(user: string, it: Item)
      requires user in streams && forall id | id in streams[user] :: id in clients && !clients[id].closed
      modifies this`clients
      ensures clients == Partly(old(View()), it, streams[user])
    {
      ghost var h := View();
      var ids := streams[user];
      while ids != {}
        invariant ids <= streams[user]
        invariant clients == Partly(h, it, streams[user] - ids)
      {
        var id :| id in ids;
        var c := clients[id];
        assert !c.closed;
        if !(it.event.name in ADMIN_ONLY && !c.isAdmin) {
          if |c.buffer| < CAPACITY {
            clients := clients[id := c.(buffer := c.buffer + [it])];
          }
        }
        ids := ids - {id};
      }
      assert streams[user] - ids == streams[user];
    }
  }
}
