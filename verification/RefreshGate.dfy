/** The in-process refresh gate: one loop, one pending bit, and no trigger left without a refresh that starts after
    it. Used by clustersummary and hostexposure, and with the trailing retry by assetrisk. */
module RefreshGate {

  /** A goroutine of the gate: about to call the refresh, or inside the call. */
  datatype LoopPc = Ready | Calling

  /** The gate fields with the goroutines they govern; fired, calls and seen are history. */
  datatype Gate = Gate(
    inflight: bool,
    pending: bool,
    loops: seq<LoopPc>,
    fired: nat,           // triggers so far
    calls: nat,           // refresh calls started so far
    seen: nat)            // triggers that had fired when the latest call started

  const NEW_GATE := Gate(false, false, [], 0, 0, 0)

  datatype Event = Trigger | Start(i: nat) | End(i: nat)

  ghost predicate Possible(g: Gate, e: Event) {
    match e
    case Trigger => true
    case Start(i) => i < |g.loops| && g.loops[i] == Ready
    case End(i) => i < |g.loops| && g.loops[i] == Calling
  }

  function Triggered(g: Gate): Gate {
    if g.inflight then g.(pending := true, fired := g.fired + 1)
    else g.(inflight := true, loops := g.loops + [Ready], fired := g.fired + 1)
  }

  function Started(g: Gate, i: nat): Gate
    requires i < |g.loops|
  {
    g.(loops := g.loops[i := Calling], calls := g.calls + 1, seen := g.fired)
  }

  function Ended(g: Gate, i: nat): Gate
    requires i < |g.loops|
  {
    if g.pending then g.(pending := false, loops := g.loops[i := Ready])
    else g.(inflight := false, loops := g.loops[..i] + g.loops[i + 1..])
  }

  function Apply(g: Gate, e: Event): Gate
    requires Possible(g, e)
  {
    match e
    case Trigger => Triggered(g)
    case Start(i) => Started(g, i)
    case End(i) => Ended(g, i)
  }

  /** One loop exactly while inflight; a call under way without a pending bit has seen every trigger; every call,
      due or made, answers a trigger of its own. */
  ghost predicate GateInv(g: Gate) {
    && |g.loops| == (if g.inflight then 1 else 0)
    && (g.pending ==> g.inflight)
    && g.seen <= g.fired
    && (!g.inflight ==> g.seen == g.fired)
    && (g.inflight && !g.pending && g.loops[0] == Calling ==> g.seen == g.fired)
    && g.calls + (if g.inflight && g.loops[0] == Ready then 1 else 0) + (if g.pending then 1 else 0) <= g.fired
  }

  lemma ApplyInv(g: Gate, e: Event)
    requires GateInv(g) && Possible(g, e)
    ensures GateInv(Apply(g, e))
  {}

  ghost predicate IsGateRun(gs: seq<Gate>, es: seq<Event>) {
    && |gs| == |es| + 1 && gs[0] == NEW_GATE
    && forall k | 0 <= k < |es| :: Possible(gs[k], es[k]) && gs[k + 1] == Apply(gs[k], es[k])
  }

  lemma {:induction false} RunInv(gs: seq<Gate>, es: seq<Event>, n: nat)
    requires IsGateRun(gs, es) && n < |gs|
    ensures GateInv(gs[n])
  {
    if n > 0 {
      RunInv(gs, es, n - 1);
      ApplyInv(gs[n - 1], es[n - 1]);
    }
  }

  /** The latest call start before state n saw as many triggers as had fired by then. */
  lemma {:induction false} SeenMeansStarted(gs: seq<Gate>, es: seq<Event>, n: nat, k: nat)
    requires IsGateRun(gs, es) && n < |gs| && k < n && es[k] == Trigger
    requires gs[n].seen == gs[n].fired
    ensures exists m :: k < m < n && es[m].Start?
  {
    SeenMonotone(gs, es, n, k);
  }

  /** A trigger is unseen until a call starts after it. */
  lemma {:induction false} SeenMonotone(gs: seq<Gate>, es: seq<Event>, n: nat, k: nat)
    requires IsGateRun(gs, es) && k < n < |gs| && es[k] == Trigger
    ensures gs[n].fired > gs[k].fired
    ensures (exists m :: k < m < n && es[m].Start?) || gs[n].seen <= gs[k].fired
  {
    RunInv(gs, es, k);
    if k + 1 < n {
      SeenMonotone(gs, es, n - 1, k);
      if es[n - 1].Start? { assert k < n - 1 < n; }
    }
  }

  /** Coalescing loses nothing: whenever the gate is not in flight, every earlier trigger was followed by a refresh
      call that started after it. At all times there is at most one loop, and calls never outnumber triggers. */
  lemma CoalescingLosesNothing(gs: seq<Gate>, es: seq<Event>, n: nat)
    requires IsGateRun(gs, es) && n < |gs|
    ensures |gs[n].loops| <= 1 && (gs[n].pending ==> gs[n].inflight) && gs[n].calls <= gs[n].fired
    ensures !gs[n].inflight ==>
              forall k | 0 <= k < n && es[k] == Trigger :: exists m :: k < m < n && es[m].Start?
  {
    RunInv(gs, es, n);
    if !gs[n].inflight {
      forall k | 0 <= k < n && es[k] == Trigger ensures exists m :: k < m < n && es[m].Start? {
        SeenMeansStarted(gs, es, n, k);
      }
    }
  }

  /** The mutex-guarded variable itself. The caller of TriggerRefresh starts a goroutine when told to; the goroutine
      calls BeginCall, refreshes, and asks EndIteration whether to go round again. */
  class RefreshGate {
    var inflight: bool
    var pending: bool
    ghost var loops: seq<LoopPc>
    ghost var fired: nat
    ghost var calls: nat
    ghost var seen: nat

    ghost function View(): Gate
      reads this
    {
      Gate(inflight, pending, loops, fired, calls, seen)
    }

    constructor ()
      ensures View() == NEW_GATE
    {
      inflight, pending := false, false;
      loops, fired, calls, seen := [], 0, 0, 0;
    }

    method TriggerRefresh() returns (start: bool)
      requires GateInv(View())
      modifies this
      ensures View() == Triggered(old(View())) && GateInv(View())
      ensures start <==> |loops| > old(|loops|)
    {
      fired := fired + 1;
      if inflight {
        pending := true;
        return false;
      }
      inflight := true;
      loops := loops + [Ready];
      return true;
    }

    ghost method BeginCall(i: nat)
      requires GateInv(View()) && Possible(View(), Start(i))
      modifies this
      ensures View() == Started(old(View()), i) && GateInv(View())
    {
      loops, calls, seen := loops[i := Calling], calls + 1, fired;
    }

    method EndIteration(ghost i: nat) returns (again: bool)
      requires GateInv(View()) && Possible(View(), End(i))
      modifies this
      ensures View() == Ended(old(View()), i) && GateInv(View())
      ensures !again ==> !inflight && seen == fired
      ensures again <==> inflight
    {
      if !pending {
        inflight := false;
        loops := loops[..i] + loops[i + 1..];
        return false;
      }
      pending := false;
      loops := loops[i := Ready];
      return true;
    }
  }
}
