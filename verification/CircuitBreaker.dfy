/** The per-provider circuit breaker for CREATE_RUN failures, and the history it stands for. */
module CircuitBreaker {

  const THRESHOLD := 5
  const COOLDOWN := 300_000_000_000   // five minutes in nanoseconds

  datatype Circuit = Circuit(fails: nat, openUntil: int)

  datatype Result = Result(provider: string, success: bool, at: int)

  /** recordRunResult on the table. */
  function Record(m: map<string, Circuit>, r: Result): map<string, Circuit> {
    if r.provider == "" then m
    else
      var c := if r.provider in m then m[r.provider] else Circuit(0, 0);
      if r.success then m[r.provider := c.(fails := 0)]
      else if c.fails + 1 >= THRESHOLD then m[r.provider := Circuit(c.fails + 1, r.at + COOLDOWN)]
      else m[r.provider := c.(fails := c.fails + 1)]
  }

  function Replay(history: seq<Result>): map<string, Circuit> {
    if history == [] then map[] else Record(Replay(history[..|history| - 1]), history[|history| - 1])
  }

  /** The results of one provider, oldest first. */
  function Of(history: seq<Result>, provider: string): seq<Result> {
    if history == [] then []
    else
      var last := history[|history| - 1];
      Of(history[..|history| - 1], provider) + (if last.provider == provider then [last] else [])
  }

  /** The provider's last five results all failed. */
  ghost predicate Tripped(rs: seq<Result>) {
    |rs| >= 5 && forall i | |rs| - 5 <= i < |rs| :: !rs[i].success
  }

  /** Five minutes have not passed since the last of them. */
  ghost predicate OpenAt(history: seq<Result>, provider: string, now: int) {
    var rs := Of(history, provider);
    provider != "" && Tripped(rs) && now < rs[|rs| - 1].at + 300_000_000_000
  }

  /** n is the length of the trailing run of failures. */
  ghost predicate TrailingFailures(rs: seq<Result>, n: nat) {
    && n <= |rs|
    && (forall i | |rs| - n <= i < |rs| :: !rs[i].success)
    && (n < |rs| ==> rs[|rs| - n - 1].success)
  }

  /** The table is the history: the counter is the trailing run of failures, and a tripped circuit stays open until
      one cooldown after the last of them. */
  lemma {:induction false} ReplayMeaning(history: seq<Result>, provider: string)
    requires provider != ""
    ensures provider in Replay(history) <==> Of(history, provider) != []
    ensures provider in Replay(history) ==>
              var c, rs := Replay(history)[provider], Of(history, provider);
              TrailingFailures(rs, c.fails) && (c.fails >= THRESHOLD ==> c.openUntil == rs[|rs| - 1].at + 300_000_000_000)
  {
    if history != [] {
      var before, last := history[..|history| - 1], history[|history| - 1];
      ReplayMeaning(before, provider);
      if last.provider == provider {
        var rs := Of(before, provider);
        assert Of(history, provider) == rs + [last];
        TrailingStep(rs, if provider in Replay(before) then Replay(before)[provider].fails else 0, last);
      }
    }
  }

  lemma TrailingStep(rs: seq<Result>, n: nat, last: Result)
    requires TrailingFailures(rs, n)
    ensures TrailingFailures(rs + [last], if last.success then 0 else n + 1)
  {
    var all := rs + [last];
    assert forall i | 0 <= i < |rs| :: all[i] == rs[i];
  }

  lemma TrippedIffCounter(rs: seq<Result>, n: nat)
    requires TrailingFailures(rs, n)
    ensures Tripped(rs) <==> n >= THRESHOLD
  {}

  class Breaker {
    var providers: map<string, Circuit>
    ghost var history: seq<Result>

    ghost predicate Valid()
      reads this
    {
      providers == Replay(history)
    }

    constructor ()
      ensures Valid() && history == []
    {
      providers := map[];
      history := [];
    }

    method RecordRunResult(provider: string, success: bool, now: int)
      requires Valid()
      modifies this
      ensures Valid() && history == old(history) + [Result(provider, success, now)]
    {
      ghost var before := history;
      history := history + [Result(provider, success, now)];
      assert history[..|history| - 1] == before;
      if provider == "" {
        return;
      }
      var c := if provider in providers then providers[provider] else Circuit(0, 0);
      if success {
        providers := providers[provider := c.(fails := 0)];
        return;
      }
      c := c.(fails := c.fails + 1);
      if c.fails >= THRESHOLD {
        c := c.(openUntil := now + COOLDOWN);
      }
      providers := providers[provider := c];
    }

    method IsProviderCircuitOpen(provider: string, now: int) returns (open: bool)
      requires Valid()
      ensures open <==> OpenAt(history, provider, now)
    {
      if provider == "" {
        return false;
      }
      ReplayMeaning(history, provider);
      if provider !in providers {
        return false;
      }
      var c := providers[provider];
      TrippedIffCounter(Of(history, provider), c.fails);
      return c.fails >= THRESHOLD && now < c.openUntil;
    }

    /** Open only when every tracked provider is tripped; here the cooldown includes its last instant. */
    method IsCircuitOpen(now: int) returns (open: bool)
      requires Valid()
      ensures open <==> AllOpenAt(history, now)
    {
      forall p | p in providers ensures ClosedAt(history, p, now) <==> !(providers[p].fails >= THRESHOLD && now <= providers[p].openUntil) {
        ReplayKeys(history, p);
        ReplayMeaning(history, p);
        TrippedIffCounter(Of(history, p), providers[p].fails);
      }
      forall p | p != "" && Of(history, p) != [] ensures p in providers { ReplayMeaning(history, p); }
      forall p | p in providers ensures p != "" && Of(history, p) != [] { ReplayKeys(history, p); ReplayMeaning(history, p); }
      if |providers| == 0 {
        return false;
      }
      var todo := providers.Keys;
      while todo != {}
        invariant todo <= providers.Keys
        invariant forall p | p in providers && p !in todo :: !ClosedAt(history, p, now)
      {
        var p :| p in todo;
        var c := providers[p];
        if c.fails < THRESHOLD || now > c.openUntil {
          assert ClosedAt(history, p, now);
          return false;
        }
        todo := todo - {p};
      }
      return true;
    }
  }

  lemma {:induction false} ReplayKeys(history: seq<Result>, p: string)
    ensures p in Replay(history) ==> p != ""
  {
    if history != [] { ReplayKeys(history[..|history| - 1], p); }
  }

  ghost predicate ClosedAt(history: seq<Result>, p: string, now: int) {
    var rs := Of(history, p);
    !(Tripped(rs) && now <= rs[|rs| - 1].at + 300_000_000_000)
  }

  ghost predicate AllOpenAt(history: seq<Result>, now: int) {
    && (exists p :: p != "" && Of(history, p) != [])
    && (forall p :: p != "" && Of(history, p) != [] ==> !ClosedAt(history, p, now))
  }

  /** The two checks disagree at exactly one instant per failure: when the cooldown ends, the global check still
      counts the provider as tripped and the provider's own check no longer does. */
  lemma ChecksDisagreeExactly(history: seq<Result>, p: string, now: int)
    requires p != ""
    ensures var rs := Of(history, p);
      (!ClosedAt(history, p, now) && !OpenAt(history, p, now)) <==> (Tripped(rs) && now == rs[|rs| - 1].at + 300_000_000_000)
  {}
}
