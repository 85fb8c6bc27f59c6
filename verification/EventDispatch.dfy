/** The hub under concurrent dispatchers: safety of the fan-out over every interleaving. */
module EventDispatch {
  import opened EventStream

  /** Dispatches hold a read lock and so overlap each other; registration and removal hold the write lock. */
  datatype State = State(
    hub: Hub,
    events: seq<Event>,             // the event of each dispatch, numbered in the order they begin
    active: set<nat>,               // dispatches that hold the read lock
    visited: map<nat, set<nat>>, // clients each dispatch has visited
    endedAt: map<nat, nat>)         // for an ended dispatch, how many had begun by then (history)

  datatype Step =
    | Join(user: string, isAdmin: bool)
    | Leave(id: nat)
    | Begin(e: Event)
    | Visit(d: nat, id: nat)
    | End(d: nat)
    | Take(id: nat)

  const START := State(EMPTY_HUB, [], {}, map[], map[])

  ghost predicate Enabled(s: State, step: Step) {
    match step
    case Join(_, _) => s.active == {}
    case Leave(id) => s.active == {} && id in s.hub.clients && !s.hub.clients[id].closed
    case Begin(_) => true
    case Visit(d, id) => d in s.active && d < |s.events| && Connected(s.hub, id) && d in s.visited && id !in s.visited[d]
    case End(d) => d in s.active && d in s.visited && forall id | Connected(s.hub, id) :: id in s.visited[d]
    case Take(id) => id in s.hub.clients && s.hub.clients[id].buffer != []
  }

  function Next(s: State, step: Step): State
    requires Enabled(s, step)
  {
    match step
    case Join(user, isAdmin) => s.(hub := Register(s.hub, user, isAdmin))
    case Leave(id) => s.(hub := Unregister(s.hub, id))
    case Begin(e) =>
      var d := |s.events|;
      s.(events := s.events + [e], active := s.active + {d}, visited := s.visited[d := {}])
    case Visit(d, id) =>
      s.(hub := SetClient(s.hub, id, Offer(s.hub.clients[id], Item(d, s.events[d]))),
         visited := s.visited[d := s.visited[d] + {id}])
    case End(d) => s.(active := s.active - {d}, endedAt := s.endedAt[d := |s.events|])
    case Take(id) =>
      var c := s.hub.clients[id];
      s.(hub := SetClient(s.hub, id, c.(received := c.received + [c.buffer[0]], buffer := c.buffer[1..])))
  }

  /** Dispatch a was over before dispatch b began. */
  predicate Before(s: State, a: nat, b: nat) {
    a in s.endedAt && s.endedAt[a] <= b
  }

  /** What one client got: genuine events, each dispatch at most once, never against the order of the dispatches. */
  ghost predicate Faithful(s: State, id: nat, q: seq<Item>) {
    && (forall i | 0 <= i < |q| ::
          && q[i].dispatch < |s.events| && q[i].event == s.events[q[i].dispatch]
          && q[i].dispatch in s.visited && id in s.visited[q[i].dispatch])
    && (forall i, j | 0 <= i < j < |q| :: q[i].dispatch != q[j].dispatch && !Before(s, q[j].dispatch, q[i].dispatch))
  }

  ghost predicate DispatchInv(s: State) {
    && (forall d <- s.active :: d < |s.events| && d !in s.endedAt)
    && (forall d | d in s.visited :: d < |s.events|)
    && (forall d | d in s.endedAt :: d < |s.events| && s.endedAt[d] <= |s.events|)
  }

  ghost predicate StreamInv(s: State) {
    && HubInv(s.hub) && DispatchInv(s)
    && (forall d, id | d in s.visited && id in s.visited[d] :: id in s.hub.clients)
    && (forall id | id in s.hub.clients :: Faithful(s, id, Delivered(s.hub.clients[id])))
  }

  /** A client that is not being visited keeps its record. */
  lemma FaithfulFrame(s: State, step: Step, id: nat, q: seq<Item>)
    requires DispatchInv(s) && Enabled(s, step) && Faithful(s, id, q)
    ensures Faithful(Next(s, step), id, q) && DispatchInv(Next(s, step))
  {}

  /** A dispatch under way may add its event to what the client got. */
  lemma FaithfulAppend(s: State, d: nat, id: nat, q: seq<Item>)
    requires DispatchInv(s) && Enabled(s, Visit(d, id)) && Faithful(s, id, q)
    ensures Faithful(Next(s, Visit(d, id)), id, q + [Item(d, s.events[d])])
  {
    FaithfulFrame(s, Visit(d, id), id, q);
    assert !exists i :: 0 <= i < |q| && q[i].dispatch == d;
  }

  lemma OfferDelivers(c: Client, it: Item)
    ensures Delivered(Offer(c, it)) == if Wants(c, it.event) && |c.buffer| < CAPACITY then Delivered(c) + [it] else Delivered(c)
  {}

  lemma VisitInv(s: State, d: nat, id: nat)
    requires StreamInv(s) && Enabled(s, Visit(d, id))
    ensures StreamInv(Next(s, Visit(d, id)))
  {
    var s', it, c := Next(s, Visit(d, id)), Item(d, s.events[d]), s.hub.clients[id];
    OfferOk(c, it);
    OfferDelivers(c, it);
    SetClientInv(s.hub, id, Offer(c, it));
    forall i | i in s'.hub.clients ensures Faithful(s', i, Delivered(s'.hub.clients[i])) {
      FaithfulFrame(s, Visit(d, id), i, Delivered(s.hub.clients[i]));
      if i == id { FaithfulAppend(s, d, id, Delivered(c)); }
    }
  }

  lemma TakeInv(s: State, id: nat)
    requires StreamInv(s) && Enabled(s, Take(id))
    ensures StreamInv(Next(s, Take(id)))
  {
    var s' := Next(s, Take(id));
    var c := s.hub.clients[id];
    assert Delivered(s'.hub.clients[id]) == Delivered(c);
    SetClientInv(s.hub, id, s'.hub.clients[id]);
    forall i | i in s'.hub.clients ensures Faithful(s', i, Delivered(s'.hub.clients[i])) {
      FaithfulFrame(s, Take(id), i, Delivered(s.hub.clients[i]));
    }
  }

  lemma NextInv(s: State, step: Step)
    requires StreamInv(s) && Enabled(s, step)
    ensures StreamInv(Next(s, step))
  {
    var s' := Next(s, step);
    if step.Visit? {
      VisitInv(s, step.d, step.id);
    } else if step.Take? {
      TakeInv(s, step.id);
    } else {
      if step.Join? { RegisterInv(s.hub, step.user, step.isAdmin); }
      if step.Leave? { UnregisterInv(s.hub, step.id); }
      FaithfulFrame(s, step, 0, []);
      forall i | i in s'.hub.clients ensures Faithful(s', i, Delivered(s'.hub.clients[i])) {
        if i in s.hub.clients {
          assert Delivered(s'.hub.clients[i]) == Delivered(s.hub.clients[i]);
          FaithfulFrame(s, step, i, Delivered(s.hub.clients[i]));
        }
      }
    }
  }

  ghost predicate IsRun(states: seq<State>, steps: seq<Step>) {
    && |states| == |steps| + 1 && states[0] == START
    && forall i | 0 <= i < |steps| :: Enabled(states[i], steps[i]) && states[i + 1] == Next(states[i], steps[i])
  }

  lemma {:induction false} RunInv(states: seq<State>, steps: seq<Step>, n: nat)
    requires IsRun(states, steps) && n < |states|
    ensures StreamInv(states[n])
  {
    if n > 0 {
      RunInv(states, steps, n - 1);
      NextInv(states[n - 1], steps[n - 1]);
    }
  }

  /** Over every interleaving: no send meets a closed channel, at most eight events are buffered, non-admins get no
      admin-only event, and each client gets genuine events, none twice and none against the dispatch order. */
  lemma HubSafety(states: seq<State>, steps: seq<Step>, n: nat)
    requires IsRun(states, steps) && n < |states|
    ensures n < |steps| && steps[n].Visit? ==> !states[n].hub.clients[steps[n].id].closed
    ensures forall id | id in states[n].hub.clients :: |states[n].hub.clients[id].buffer| <= 8
    ensures forall id | id in states[n].hub.clients :: ClientOk(states[n].hub.clients[id])
              && Faithful(states[n], id, Delivered(states[n].hub.clients[id]))
  {
    RunInv(states, steps, n);
  }

  /** A client's events are a selection of the dispatched ones, in the order of the dispatches. */
  ghost predicate InOrder(s: State, id: nat)
    requires id in s.hub.clients
  {
    var q := Delivered(s.hub.clients[id]);
    && (forall i | 0 <= i < |q| :: q[i].dispatch < |s.events| && q[i].event == s.events[q[i].dispatch])
    && (forall i, j | 0 <= i < j < |q| :: q[i].dispatch < q[j].dispatch)
  }

  // ---------------------------------------------------------------- overlapping dispatches

  /** From any state in which two dispatches overlap and neither has reached a client that wants both and has room, the
      client can get the later one first. */
  lemma OverlapReorders(s: State, a: nat, b: nat, id: nat)
    requires StreamInv(s) && a < b && a in s.active && b in s.active && a in s.visited && b in s.visited
    requires Connected(s.hub, id) && id !in s.visited[a] && id !in s.visited[b]
    requires Wants(s.hub.clients[id], s.events[a]) && Wants(s.hub.clients[id], s.events[b]) && |s.hub.clients[id].buffer| + 2 <= CAPACITY
    ensures Enabled(s, Visit(b, id))
    ensures Enabled(Next(s, Visit(b, id)), Visit(a, id))
    ensures var s' := Next(Next(s, Visit(b, id)), Visit(a, id));
      id in s'.hub.clients && Delivered(s'.hub.clients[id]) == Delivered(s.hub.clients[id]) + [Item(b, s.events[b]), Item(a, s.events[a])]
      && !InOrder(s', id)
  {
    var c, x, y := s.hub.clients[id], Item(b, s.events[b]), Item(a, s.events[a]);
    var s1 := Next(s, Visit(b, id));
    OfferDelivers(c, x);
    OfferDelivers(Offer(c, x), y);
    assert s1.hub.clients[id] == Offer(c, x);
    var s' := Next(s1, Visit(a, id));
    assert s'.hub.clients[id] == Offer(Offer(c, x), y);
    BackToFront(s', id, Delivered(c), x, y);
  }

  lemma BackToFront(s: State, id: nat, q: seq<Item>, x: Item, y: Item)
    requires id in s.hub.clients && Delivered(s.hub.clients[id]) == q + [x] + [y] && y.dispatch < x.dispatch
    ensures Delivered(s.hub.clients[id]) == q + [x, y] && !InOrder(s, id)
  {
    var r := q + [x] + [y];
    assert r[|q|] == x && r[|q| + 1] == y;
  }

  /** A run in which a dispatch begins only when none is under way, unless overlaps are allowed. */
  ghost predicate IsRunOf(overlaps: bool, states: seq<State>, steps: seq<Step>) {
    && IsRun(states, steps)
    && (!overlaps ==> forall i | 0 <= i < |steps| && steps[i].Begin? :: states[i].active == {})
  }

  /** Every dispatch is under way or over, and of any two the earlier was over when the later began. */
  ghost predicate Serial(s: State) {
    && (forall d | 0 <= d < |s.events| :: d in s.active || d in s.endedAt)
    && (forall a, b | 0 <= a < b < |s.events| :: Before(s, a, b))
  }

  lemma {:induction false} SerialRun(states: seq<State>, steps: seq<Step>, n: nat)
    requires IsRunOf(false, states, steps) && n < |states|
    ensures Serial(states[n])
  {
    if n > 0 {
      SerialRun(states, steps, n - 1);
      RunInv(states, steps, n - 1);
      var s, s', step := states[n - 1], states[n], steps[n - 1];
      assert Enabled(s, step) && s' == Next(s, step);
      forall a, b | 0 <= a < b < |s'.events| ensures Before(s', a, b) {
        if b < |s.events| { assert Before(s, a, b); } else { assert a in s.endedAt; }
      }
    }
  }

  ghost predicate KeepsOrder(overlaps: bool) {
    forall states: seq<State>, steps: seq<Step>, n: nat, id: nat | IsRunOf(overlaps, states, steps) && n < |states| && id in states[n].hub.clients :: InOrder(states[n], id)
  }

  lemma SerialKeepsOrder(states: seq<State>, steps: seq<Step>, n: nat, id: nat)
    requires IsRunOf(false, states, steps) && n < |states| && id in states[n].hub.clients
    ensures InOrder(states[n], id)
  {
    var s := states[n];
    RunInv(states, steps, n);
    SerialRun(states, steps, n);
    var q := Delivered(s.hub.clients[id]);
    assert Faithful(s, id, q);
    forall i, j | 0 <= i < j < |q| ensures q[i].dispatch < q[j].dispatch {
      assert !Before(s, q[j].dispatch, q[i].dispatch);
    }
  }

  /** One client and two dispatches under way. */
  lemma Overlapping() returns (states: seq<State>, steps: seq<Step>)
    ensures IsRun(states, steps) && |states| == 4
    ensures var s := states[3];
      && s.active == {0, 1} && s.visited == map[0 := {}, 1 := {}] && Connected(s.hub, 1) && s.hub.clients[1].buffer == []
      && |s.events| == 2 && s.events[0].name !in ADMIN_ONLY && s.events[1].name !in ADMIN_ONLY
  {
    var e := Event("ping", "");
    var s1 := Next(START, Join("u", false));
    RegisterInv(START.hub, "u", false);
    var s2 := Next(s1, Begin(e));
    var s3 := Next(s2, Begin(e));
    states, steps := [START, s1, s2, s3], [Join("u", false), Begin(e), Begin(e)];
  }

  /** The second reaches the client first. */
  lemma Reordered() returns (states: seq<State>, steps: seq<Step>)
    ensures IsRun(states, steps) && |states| == 6 && 1 in states[5].hub.clients && !InOrder(states[5], 1)
  {
    states, steps := Overlapping();
    var s3 := states[3];
    RunInv(states, steps, 3);
    OverlapReorders(s3, 0, 1, 1);
    var s4 := Next(s3, Visit(1, 1));
    var s5 := Next(s4, Visit(0, 1));
    Extend(states, steps, Visit(1, 1));
    Extend(states + [s4], steps + [Visit(1, 1)], Visit(0, 1));
    states, steps := states + [s4] + [s5], steps + [Visit(1, 1)] + [Visit(0, 1)];
  }

  lemma Extend(states: seq<State>, steps: seq<Step>, step: Step)
    requires IsRun(states, steps) && Enabled(states[|steps|], step)
    ensures IsRun(states + [Next(states[|steps|], step)], steps + [step])
  {}

  /** Each client gets its events in the order of the dispatches exactly when dispatches do not overlap. */
  lemma OrderExactly(overlaps: bool)
    ensures KeepsOrder(overlaps) <==> !overlaps
  {
    if overlaps {
      var states, steps := Reordered();
      assert IsRunOf(overlaps, states, steps) && !InOrder(states[5], 1);
    } else {
      forall states: seq<State>, steps: seq<Step>, n: nat, id: nat | IsRunOf(overlaps, states, steps) && n < |states| && id in states[n].hub.clients
        ensures InOrder(states[n], id)
      {
        SerialKeepsOrder(states, steps, n, id);
      }
    }
  }

  // ---------------------------------------------------------------- clients as they joined

  /** The events that only administrators may see. */
  predicate OnlyForAdmins(name: string) {
    || name == "new_user" || name == "provider_sync_started" || name == "provider_sync_progress"
    || name == "provider_sync_completed" || name == "provider_sync_failed"
  }

  /** Step k is the one that registered the client. */
  ghost predicate Joined(states: seq<State>, steps: seq<Step>, k: nat, id: nat)
    requires |states| == |steps| + 1 && k < |steps|
  {
    steps[k].Join? && id !in states[k].hub.clients && id in states[k + 1].hub.clients
  }

  /** The client is the one that joined, and is connected until it leaves. */
  ghost predicate AsJoined(states: seq<State>, steps: seq<Step>, k: nat, n: nat, id: nat)
    requires |states| == |steps| + 1 && k < n <= |steps| && steps[k].Join?
  {
    && id in states[n].hub.clients
    && states[n].hub.clients[id].user == steps[k].user && states[n].hub.clients[id].isAdmin == steps[k].isAdmin
    && (Connected(states[n].hub, id) <==> Stays(steps, k, n, id))
  }

  /** The client does not leave between the two steps. */
  ghost predicate Stays(steps: seq<Step>, k: nat, n: nat, id: nat)
    requires n <= |steps|
  {
    forall i | k < i < n :: steps[i] != Leave(id)
  }

  lemma StaysStep(steps: seq<Step>, k: nat, n: nat, id: nat)
    requires k < n < |steps|
    ensures Stays(steps, k, n + 1, id) <==> Stays(steps, k, n, id) && steps[n] != Leave(id)
  {}

  lemma JoinStep(states: seq<State>, steps: seq<Step>, k: nat, id: nat)
    requires IsRun(states, steps) && k < |steps| && Joined(states, steps, k, id)
    ensures AsJoined(states, steps, k, k + 1, id) && Delivered(states[k + 1].hub.clients[id]) == []
  {
    RunInv(states, steps, k);
    assert Enabled(states[k], steps[k]) && states[k + 1] == Next(states[k], steps[k]);
    RegisterInv(states[k].hub, steps[k].user, steps[k].isAdmin);
  }

  /** One step keeps a client's identity, and its connection unless it leaves. */
  lemma KeepsClient(s: State, step: Step, id: nat)
    requires StreamInv(s) && Enabled(s, step) && id in s.hub.clients
    ensures var s' := Next(s, step);
      && id in s'.hub.clients && s'.hub.clients[id].user == s.hub.clients[id].user && s'.hub.clients[id].isAdmin == s.hub.clients[id].isAdmin
      && (Connected(s'.hub, id) <==> Connected(s.hub, id) && step != Leave(id))
  {
    if step.Leave? { UnregisterInv(s.hub, step.id); }
    if step.Join? { RegisterInv(s.hub, step.user, step.isAdmin); }
  }

  lemma {:induction false} RunJoined(states: seq<State>, steps: seq<Step>, k: nat, n: nat, id: nat)
    requires IsRun(states, steps) && k < n < |states| && Joined(states, steps, k, id)
    ensures AsJoined(states, steps, k, n, id)
  {
    if n == k + 1 {
      JoinStep(states, steps, k, id);
    } else {
      RunJoined(states, steps, k, n - 1, id);
      StepJoined(states, steps, k, n - 1, id);
    }
  }

  lemma StepJoined(states: seq<State>, steps: seq<Step>, k: nat, n: nat, id: nat)
    requires IsRun(states, steps) && k < n < |steps| && steps[k].Join? && AsJoined(states, steps, k, n, id)
    ensures AsJoined(states, steps, k, n + 1, id)
  {
    RunInv(states, steps, n);
    assert Enabled(states[n], steps[n]) && states[n + 1] == Next(states[n], steps[n]);
    KeepsClient(states[n], steps[n], id);
    StaysStep(steps, k, n, id);
  }

  /** In every run a client has the user and the rights it joined with, and is connected until it leaves. One that did not join
      as an administrator never gets an administrators' event. */
  lemma JoinDecides(states: seq<State>, steps: seq<Step>, k: nat, n: nat, id: nat)
    requires IsRun(states, steps) && k < n < |states| && Joined(states, steps, k, id)
    ensures AsJoined(states, steps, k, n, id)
    ensures !steps[k].isAdmin ==> forall it <- Delivered(states[n].hub.clients[id]) :: !OnlyForAdmins(it.event.name)
  {
    RunJoined(states, steps, k, n, id);
    RunInv(states, steps, n);
    assert ClientOk(states[n].hub.clients[id]);
  }

  /** In every run, what a client has got grows by exactly the events of the dispatches that visit it while fewer than eight are
      buffered and it may see them; its handler takes them in that order. */
  lemma DeliveryExactly(states: seq<State>, steps: seq<Step>, k: nat, n: nat, id: nat)
    requires IsRun(states, steps) && k < n < |steps| && Joined(states, steps, k, id)
    ensures AsJoined(states, steps, k, n, id) && AsJoined(states, steps, k, n + 1, id)
    ensures var s, step, c, c' := states[n], steps[n], states[n].hub.clients[id], states[n + 1].hub.clients[id];
      && (if step.Visit? && step.id == id && |c.buffer| < 8 && (steps[k].isAdmin || !OnlyForAdmins(s.events[step.d].name))
          then Delivered(c') == Delivered(c) + [Item(step.d, s.events[step.d])]
          else Delivered(c') == Delivered(c))
      && (if step == Take(id) then c.buffer != [] && c'.received == c.received + [c.buffer[0]] else c'.received == c.received)
  {
    RunJoined(states, steps, k, n, id);
    RunJoined(states, steps, k, n + 1, id);
    assert Enabled(states[n], steps[n]) && states[n + 1] == Next(states[n], steps[n]);
    RunInv(states, steps, n);
    DeliveryStep(states[n], steps[n], id);
  }

  lemma DeliveryStep(s: State, step: Step, id: nat)
    requires Enabled(s, step) && id in s.hub.clients && id in Next(s, step).hub.clients && (step.Join? ==> s.hub.seqNo + 1 != id)
    ensures var c, c' := s.hub.clients[id], Next(s, step).hub.clients[id];
      && (if step.Visit? && step.id == id && |c.buffer| < 8 && (c.isAdmin || !OnlyForAdmins(s.events[step.d].name))
          then Delivered(c') == Delivered(c) + [Item(step.d, s.events[step.d])]
          else Delivered(c') == Delivered(c))
      && (if step == Take(id) then c.buffer != [] && c'.received == c.received + [c.buffer[0]] else c'.received == c.received)
  {
    var c := s.hub.clients[id];
    if step == Take(id) {
      assert c.received + [c.buffer[0]] + c.buffer[1..] == c.received + c.buffer;
    } else if step.Visit? && step.id == id {
      OfferDelivers(c, Item(step.d, s.events[step.d]));
    }
  }
}
