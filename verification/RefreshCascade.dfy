/** The cascade of host_exposure into asset_risk: what a recorded fingerprint promises downstream, first within the
    host-exposure family, then for the two families run together. */
module RefreshCascade {
  import opened Wrappers
  import opened RefreshProtocol
  import opened RefreshSafety
  import opened TrailingRetry
  import opened RefreshWatch

  /** The call found changed contents and its iteration has not fired the downstream trigger yet. */
  predicate Owes(pc: Pc) {
    (pc.Unlocking? || pc.Returned?) && pc.o.changed
  }

  ghost predicate SomeoneOwes(s: State) {
    exists p :: 0 <= p < |s.procs| && Owes(s.procs[p].pc)
  }

  /** Version v has been handed downstream, or is about to be. */
  ghost predicate HandedOn(s: State, v: nat) {
    v <= s.db.log.cascaded || SomeoneOwes(s)
  }

  ghost predicate Cascade(s: State) {
    && (|s.db.rows| > 0 && s.db.rows[0].Some? && s.db.rows[0].value.version.Some? ==>
          HandedOn(s, s.db.rows[0].value.version.value))
    && (forall p | 0 <= p < |s.procs| :: Vouched(s.procs[p].pc) && Carried(s.procs[p].pc).Some? ==>
          HandedOn(s, Carried(s.procs[p].pc).value))
  }

  /** An action of p discharges a debt only by handing on the version the last view has now. */
  lemma DebtKept(cfg: Config, s: State, p: nat, f: Fault, v: nat)
    requires Base(cfg, s) && Fp(cfg, s) && Enabled(cfg, s, Run(p, f)) && HandedOn(s, v) && v <= LastView(s.db)
    ensures HandedOn(Next(cfg, s, Run(p, f)), v)
  {
    var s' := Next(cfg, s, Run(p, f));
    if SomeoneOwes(s) {
      var q :| 0 <= q < |s.procs| && Owes(s.procs[q].pc);
      if q == p && s.procs[p].pc.Returned? {
        assert s'.db.log.cascaded >= LastView(s.db);
      } else {
        assert Owes(s'.procs[q].pc);
      }
    }
  }

  /** What one action of a loop records or vouches for. */
  lemma ExecuteCascade(cfg: Config, db: Db, p: nat, r: Proc, f: Fault)
    requires DbShape(cfg, db)
    ensures var (db', r') := Execute(cfg, db, p, r, f);
      && |db'.rows| == |db.rows|
      && (db'.rows != db.rows ==> r.pc.Held? && r.pc.stage.Recording? && db'.rows[0].value.version == r.pc.a.fp
                                  && db'.rows[0].Some? && (r.pc.a.same || Owes(r'.pc)))
      && (Vouched(r'.pc) ==> Carried(r'.pc).Some? ==>
            || (Vouched(r.pc) && Carried(r.pc) == Carried(r'.pc))
            || (db.rows[0].Some? && db.rows[0].value.version == Carried(r'.pc)))
  {}

  lemma RunStepCascade(cfg: Config, s: State, p: nat, f: Fault)
    requires Base(cfg, s) && Fp(cfg, s) && Enabled(cfg, s, Run(p, f)) && Cascade(s)
    ensures Cascade(Next(cfg, s, Run(p, f)))
  {
    var s' := Next(cfg, s, Run(p, f));
    ExecuteCascade(cfg, s.db, p, s.procs[p], f);
    assert FpProc(cfg, s.db, s.procs[p]);
    if s'.db.rows[0].Some? && s'.db.rows[0].value.version.Some? {
      var v := s'.db.rows[0].value.version.value;
      if s'.db.rows != s.db.rows && Owes(s'.procs[p].pc) {
        assert HandedOn(s', v);
      } else {
        DebtKept(cfg, s, p, f, v);
      }
    }
    forall q | 0 <= q < |s'.procs| && Vouched(s'.procs[q].pc) && Carried(s'.procs[q].pc).Some?
      ensures HandedOn(s', Carried(s'.procs[q].pc).value)
    {
      assert FpProc(cfg, s.db, s.procs[q]);
      DebtKept(cfg, s, p, f, Carried(s'.procs[q].pc).value);
    }
  }

  lemma NextCascade(cfg: Config, s: State, step: Step)
    requires Base(cfg, s) && Fp(cfg, s) && Enabled(cfg, s, step) && Cascade(s)
    ensures Cascade(Next(cfg, s, step))
  {
    if step.Run? {
      RunStepCascade(cfg, s, step.p, step.f);
    } else {
      var s' := Next(cfg, s, step);
      if SomeoneOwes(s) {
        var q :| 0 <= q < |s.procs| && Owes(s.procs[q].pc);
        if step.Fire? { assert ProcShape(s.db, step.p, s.procs[step.p]); }
        assert Owes(s'.procs[q].pc);
      }
    }
  }

  /** The recorded fingerprint never runs ahead of the version for which the cascade was fired, or is about to be
      fired by the iteration that recorded it. */
  lemma {:induction false} CascadeComplete(cfg: Config, states: seq<State>, steps: seq<Step>, n: nat)
    requires ValidConfig(cfg) && IsRun(cfg, states, steps) && n < |states|
    ensures Cascade(states[n])
  {
    if n > 0 {
      CascadeComplete(cfg, states, steps, n - 1);
      RunBase(cfg, states, steps, n - 1);
      RunFp(cfg, states, steps, n - 1);
      NextCascade(cfg, states[n - 1], steps[n - 1]);
    }
  }

  // ---------------------------------------------------------------- both families together

  /** The host-exposure family and asset_risk over one clock and the same replicas. What asset_risk reads from the
      other family is the last view, exposed_digests. */
  datatype Pipeline = Pipeline(host: State, asset: State)

  datatype Move =
    | Clock(to: int)
    | Ingest(version: nat)
    | HostTrigger(p: nat)
    | HostRun(p: nat, f: Fault)
    | AssetTrigger(p: nat)
    | AssetRun(p: nat, f: Fault)

  ghost predicate InitPipeline(hc: Config, ac: Config, y: Pipeline) {
    && Init(hc, y.host) && Init(ac, y.asset)
    && y.host.db.now == y.asset.db.now && |y.host.procs| == |y.asset.procs|
    && y.asset.db.source == LastView(y.host.db)
  }

  /** The replica's host-exposure loop is at the line that triggers asset_risk. */
  predicate AtCascade(s: State, p: nat) {
    p < |s.procs| && s.procs[p].pc.Returned? && s.procs[p].pc.o.changed
  }

  ghost predicate CanMove(hc: Config, ac: Config, y: Pipeline, m: Move) {
    match m
    case Clock(to) => Enabled(hc, y.host, Tick(to)) && Enabled(ac, y.asset, Tick(to))
    case Ingest(version) => Enabled(hc, y.host, Change(version))
    case HostTrigger(p) => Enabled(hc, y.host, Fire(p))
    case HostRun(p, f) =>
      && Enabled(hc, y.host, Run(p, f))
      && p < |y.asset.procs| && Enabled(ac, y.asset, Change(LastView(Next(hc, y.host, Run(p, f)).db)))
    case AssetTrigger(p) => Enabled(ac, y.asset, Fire(p))
    case AssetRun(p, f) => Enabled(ac, y.asset, Run(p, f))
  }

  function MoveNext(hc: Config, ac: Config, y: Pipeline, m: Move): Pipeline
    requires CanMove(hc, ac, y, m)
  {
    match m
    case Clock(to) => Pipeline(Next(hc, y.host, Tick(to)), Next(ac, y.asset, Tick(to)))
    case Ingest(version) => y.(host := Next(hc, y.host, Change(version)))
    case HostTrigger(p) => y.(host := Next(hc, y.host, Fire(p)))
    case HostRun(p, f) =>
      var host' := Next(hc, y.host, Run(p, f));
      if AtCascade(y.host, p) then Pipeline(host', Next(ac, y.asset, Fire(p)))
      else Pipeline(host', Next(ac, y.asset, Change(LastView(host'.db))))
    case AssetTrigger(p) => y.(asset := Next(ac, y.asset, Fire(p)))
    case AssetRun(p, f) => y.(asset := Next(ac, y.asset, Run(p, f)))
  }

  /** A trigger announcing at least version v. */
  ghost predicate Announced(ts: set<Trigger>, v: nat) {
    v == 0 || exists t :: t in ts && v <= t.version
  }

  ghost predicate PipelineInv(hc: Config, ac: Config, y: Pipeline) {
    && Base(hc, y.host) && Fp(hc, y.host) && Cascade(y.host)
    && TrailInv(ac, y.asset)
    && y.host.db.now == y.asset.db.now && |y.host.procs| == |y.asset.procs|
    && y.asset.db.source == LastView(y.host.db)
    && Announced(y.asset.db.log.fired, y.host.db.log.cascaded)
  }

  lemma MoveInv(hc: Config, ac: Config, y: Pipeline, m: Move)
    requires PipelineInv(hc, ac, y) && CanMove(hc, ac, y, m)
    ensures PipelineInv(hc, ac, MoveNext(hc, ac, y, m))
  {
    match m
    case Clock(to) => HostInv(hc, y.host, Tick(to)); NextTrailInv(ac, y.asset, Tick(to));
    case Ingest(version) => HostInv(hc, y.host, Change(version));
    case HostTrigger(p) => HostInv(hc, y.host, Fire(p));
    case HostRun(p, f) => HostRunInv(hc, ac, y, p, f);
    case AssetTrigger(p) => NextTrailInv(ac, y.asset, Fire(p)); FiredGrows(ac, y.asset, Fire(p));
    case AssetRun(p, f) => NextTrailInv(ac, y.asset, Run(p, f)); FiredGrows(ac, y.asset, Run(p, f));
  }

  lemma HostInv(cfg: Config, s: State, step: Step)
    requires Base(cfg, s) && Fp(cfg, s) && Cascade(s) && Enabled(cfg, s, step)
    ensures var s' := Next(cfg, s, step);
      && Base(cfg, s') && Fp(cfg, s') && Cascade(s') && |s'.procs| == |s.procs|
      && (!step.Run? ==> s'.db.views == s.db.views && s'.db.log.cascaded == s.db.log.cascaded)
  {
    NextBase(cfg, s, step);
    NextFp(cfg, s, step);
    NextCascade(cfg, s, step);
  }

  lemma FiredGrows(cfg: Config, s: State, step: Step)
    requires Enabled(cfg, s, step)
    ensures var s' := Next(cfg, s, step);
      && s.db.log.fired <= s'.db.log.fired && |s'.procs| == |s.procs|
      && (!step.Change? ==> s'.db.source == s.db.source) && (!step.Tick? ==> s'.db.now == s.db.now)
  {}

  lemma HostRunInv(hc: Config, ac: Config, y: Pipeline, p: nat, f: Fault)
    requires PipelineInv(hc, ac, y) && CanMove(hc, ac, y, HostRun(p, f))
    ensures PipelineInv(hc, ac, MoveNext(hc, ac, y, HostRun(p, f)))
  {
    var host' := Next(hc, y.host, Run(p, f));
    HostInv(hc, y.host, Run(p, f));
    FiredGrows(hc, y.host, Run(p, f));
    if AtCascade(y.host, p) {
      NextTrailInv(ac, y.asset, Fire(p));
      FiredGrows(ac, y.asset, Fire(p));
      var t := Trigger(y.asset.db.now, y.asset.db.source);
      assert t in Next(ac, y.asset, Fire(p)).db.log.fired;
    } else {
      assert host'.db.log.cascaded == y.host.db.log.cascaded;
      NextTrailInv(ac, y.asset, Change(LastView(host'.db)));
      FiredGrows(ac, y.asset, Change(LastView(host'.db)));
    }
  }

  /** No replica is ever blocked by the coupling: the last view never goes back. */
  lemma CouplingFree(hc: Config, ac: Config, y: Pipeline, p: nat, f: Fault)
    requires PipelineInv(hc, ac, y) && Enabled(hc, y.host, Run(p, f))
    ensures CanMove(hc, ac, y, HostRun(p, f))
  {}

  ghost predicate IsPipelineRun(hc: Config, ac: Config, ys: seq<Pipeline>, ms: seq<Move>) {
    && |ys| == |ms| + 1
    && InitPipeline(hc, ac, ys[0])
    && (forall i | 0 <= i < |ms| :: CanMove(hc, ac, ys[i], ms[i]) && ys[i + 1] == MoveNext(hc, ac, ys[i], ms[i]))
  }

  lemma {:induction false} PipelineRunInv(hc: Config, ac: Config, ys: seq<Pipeline>, ms: seq<Move>, n: nat)
    requires ValidConfig(hc) && Trailing(ac) && IsPipelineRun(hc, ac, ys, ms) && n < |ys|
    ensures PipelineInv(hc, ac, ys[n])
  {
    if n == 0 {
      InitBase(hc, ys[0].host);
      InitTrailInv(ac, ys[0].asset);
    } else {
      PipelineRunInv(hc, ac, ys, ms, n - 1);
      MoveInv(hc, ac, ys[n - 1], ms[n - 1]);
    }
  }

  /** End to end: once host_exposure has recorded fingerprint v (so that later triggers skip) and no iteration still
      has its cascade to fire, asset_risk reflects exposed_digests of version v or later, unless an asset_risk loop
      is still at work for it or an iteration that was ended with an error. */
  lemma CascadeReachesTriage(hc: Config, ac: Config, ys: seq<Pipeline>, ms: seq<Move>, n: nat, v: nat)
    requires ValidConfig(hc) && Trailing(ac) && IsPipelineRun(hc, ac, ys, ms) && n < |ys|
    requires Matches(ys[n].host.db.rows, v) && !SomeoneOwes(ys[n].host)
    ensures || v <= LastView(ys[n].asset.db)
            || exists t :: t in ys[n].asset.db.log.fired && v <= t.version
                           && (InFlight(ys[n].asset, t) || t in ys[n].asset.db.log.dropped)
  {
    PipelineRunInv(hc, ac, ys, ms, n);
    var y := ys[n];
    assert v <= y.host.db.log.cascaded;
    if v > 0 {
      var t :| t in y.asset.db.log.fired && y.host.db.log.cascaded <= t.version;
      assert t in y.asset.db.log.served || t in y.asset.db.log.dropped || InFlight(y.asset, t);
    }
  }

  /** The families as the source configures them. */
  lemma Families()
    ensures Trailing(ASSET_RISK) && ValidConfig(HOST_EXPOSURE) && ValidConfig(CLUSTER_SUMMARY)
    ensures ValidConfig(VULN_UNIFIED) && ValidConfig(SBOM)
  {}

  /** The cascade of the source's own families, whose re-checks fail open. */
  lemma HostExposureReachesTriage(ys: seq<Pipeline>, ms: seq<Move>, n: nat, v: nat)
    requires IsPipelineRun(HOST_EXPOSURE, ASSET_RISK, ys, ms) && n < |ys|
    requires Matches(ys[n].host.db.rows, v) && !SomeoneOwes(ys[n].host)
    ensures || v <= LastView(ys[n].asset.db)
            || exists t :: t in ys[n].asset.db.log.fired && v <= t.version
                           && (InFlight(ys[n].asset, t) || t in ys[n].asset.db.log.dropped)
  {
    CascadeReachesTriage(HOST_EXPOSURE, ASSET_RISK, ys, ms, n, v);
  }

  // ---------------------------------------------------------------- the cascade fires only on change

  /** What has been seen of replica p's current host-exposure call after n moves. */
  function HostWatch(hc: Config, ys: seq<Pipeline>, ms: seq<Move>, n: nat, p: nat): Watch
    requires n <= |ms| && |ys| == |ms| + 1
  {
    if n == 0 then UNSEEN
    else
      var w, s := HostWatch(hc, ys, ms, n - 1, p), ys[n - 1].host;
      if ms[n - 1].HostRun? && ms[n - 1].p == p && p < |s.procs| then See(hc, w, s.db, p, s.procs[p].pc, ms[n - 1].f) else w
  }

  lemma {:induction false} HostWatchFits(hc: Config, ac: Config, ys: seq<Pipeline>, ms: seq<Move>, n: nat, p: nat)
    requires WellFormed(hc) && IsPipelineRun(hc, ac, ys, ms) && n < |ys| && p < |ys[n].host.procs|
    ensures |ys[n].host.db.rows| == |ys[n].host.db.views| == hc.views
    ensures Fits(hc, hc.views, HostWatch(hc, ys, ms, n, p), ys[n].host.procs[p].pc)
  {
    if n > 0 {
      var s, m := ys[n - 1].host, ms[n - 1];
      assert CanMove(hc, ac, ys[n - 1], m) && ys[n] == MoveNext(hc, ac, ys[n - 1], m);
      HostWatchFits(hc, ac, ys, ms, n - 1, p);
      if m.HostRun? {
        HostWatchFits(hc, ac, ys, ms, n - 1, m.p);
        WatchStep(hc, s.db, m.p, s.procs[m.p], m.f, HostWatch(hc, ys, ms, n - 1, m.p));
      }
    }
  }

  /**
   * In every run of the two families, a move of a host-exposure loop triggers asset_risk on that replica exactly when its call
   * has just returned after it refreshed every view and had not found its captured fingerprint recorded for all of them.
   * Every other move, and so every call that ends by debounce, by fingerprint or on the age backstop, leaves the asset_risk
   * loops as they were.
   */
  lemma CascadeExactly(hc: Config, ac: Config, ys: seq<Pipeline>, ms: seq<Move>, n: nat)
    requires WellFormed(hc) && IsPipelineRun(hc, ac, ys, ms) && n < |ms| && ms[n].HostRun?
    ensures var p, w := ms[n].p, HostWatch(hc, ys, ms, n, ms[n].p);
      var host, asset, asset' := ys[n].host, ys[n].asset, ys[n + 1].asset;
      if host.procs[p].pc.Returned? && w.refreshed && !w.matched then
        && p < |asset.procs| && asset'.procs == asset.procs[p := asset'.procs[p]]
        && asset'.procs[p].inflight
        && (if asset.procs[p].inflight then asset'.procs[p].pending && asset'.procs[p].pc == asset.procs[p].pc else asset'.procs[p].pc == Top)
        && asset'.db.log.fired == asset.db.log.fired + {Trigger(asset.db.now, asset.db.source)}
      else
        asset'.procs == asset.procs && asset'.db.log.fired == asset.db.log.fired
  {
    assert CanMove(hc, ac, ys[n], ms[n]) && ys[n + 1] == MoveNext(hc, ac, ys[n], ms[n]);
    HostWatchFits(hc, ac, ys, ms, n, ms[n].p);
  }
}
