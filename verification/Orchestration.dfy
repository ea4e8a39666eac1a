/**
  The upgrade job from the version gate to the last event: which actions it publishes, when
  it runs helm for real, and when it may restart data-plane pods.
 */
module Orchestration {
  import opened Wrappers
  import C = Cluster
  import P = Protocol
  import D = DataPlane
  import S = Semver

  datatype JobError =
    | UmbrellaChartNotUpgraded | RollbackForbidden | InvalidUpgradePath | NotAKnownHelmChart
    | DryRunFailed | HelmUpgradeFailed | EventChannelSend
    | PartialRebuildNotAllowed | RevisionHashUnavailable | PodListFailed
    | DataPlaneFailed(cause: D.Failure)

  // ---------------------------------------------------------------- the version gate

  datatype Chart = UmbrellaChart | CoreChart | UnknownChart

  datatype Upgrader = Upgrader(chart: Chart, alreadyUpgraded: bool, source: S.Version, target: S.Version)

  /** Versions that no upgrade may start from. */
  const UNSUPPORTED_VERSIONS: seq<S.Version> := [S.Version(0, 0, 0, [])]

  /**
    What the builder accepts. An umbrella release must be of the target version already; a
    core release may not be rolled back, unless the validation of the path is skipped.
   */
  function Gate(chart: Chart, source: S.Version, target: S.Version, skipValidation: bool): (r: Result<Upgrader, JobError>)
    ensures r.Ok? ==> r.value.chart == chart && !chart.UnknownChart? && r.value.source == source && r.value.target == target
    ensures r.Ok? ==> (r.value.alreadyUpgraded <==> S.Compare(source, target) == S.Equal)
    ensures r.Ok? && (chart.UmbrellaChart? || !skipValidation) ==> S.AtLeast(target, source)
    ensures chart.UnknownChart? ==> r == Err(NotAKnownHelmChart)
    ensures chart.UmbrellaChart? ==> if S.Compare(source, target) == S.Equal then r.Ok? else r == Err(UmbrellaChartNotUpgraded)
    ensures chart.CoreChart? ==>
              && (r == Err(RollbackForbidden) <==> !skipValidation && S.Below(target, source))
              && (r == Err(InvalidUpgradePath) <==>
                    !skipValidation && !S.Below(target, source) && source == S.Version(0, 0, 0, []))
              && (r.Err? ==> r.error == RollbackForbidden || r.error == InvalidUpgradePath)
  {
    S.VersionsAreOrdered();
    var same := target == source;
    match chart
    case UmbrellaChart =>
      if !same then Err(UmbrellaChartNotUpgraded) else Ok(Upgrader(chart, same, source, target))
    case CoreChart =>
      if !skipValidation && !S.AtLeast(target, source) then Err(RollbackForbidden)
      else if !skipValidation && source in UNSUPPORTED_VERSIONS then Err(InvalidUpgradePath)
      else Ok(Upgrader(chart, same, source, target))
    case UnknownChart => Err(NotAKnownHelmChart)
  }

  /** Sources for which partial rebuild must be off before pods are restarted: 2.2.0 to 2.5.0. */
  predicate NeedsPartialRebuildOff(source: S.Version) {
    S.AtLeast(source, S.TWO_DOT_TWO) && S.Compare(source, S.TWO_DOT_FIVE) != S.Greater
  }

  /** The range in plain terms: pre-releases of 2.5.0 fall inside it, those of 2.2.0 do not. */
  lemma {:induction false} PartialRebuildRange(v: S.Version)
    ensures NeedsPartialRebuildOff(v) <==>
            && v.major == 2
            && (|| (v.minor == 2 && (v.patch > 0 || v.pre == []))
                || v.minor == 3 || v.minor == 4
                || (v.minor == 5 && v.patch == 0))
  {
    S.BelowRelease(v, 2, 2);
    S.BelowRelease(v, 2, 5);
    S.VersionsAreOrdered();
    assert S.Compare(v, S.TWO_DOT_FIVE) == S.Equal <==> v == S.TWO_DOT_FIVE;
  }

  // ---------------------------------------------------------------- events and helm commands

  datatype Action = Failed | ValidationFailed | UpgradingCP | UpgradedCP | UpgradingDP | UpgradedDP | Successful

  /** The actions of a run that goes well. */
  function NormalActions(skipDataPlane: bool): seq<Action> {
    if skipDataPlane then [UpgradingCP, UpgradingCP, UpgradedCP, Successful]
    else [UpgradingCP, UpgradingCP, UpgradedCP, UpgradingDP, UpgradedDP, Successful]
  }

  /** The first actions of a run that goes well, closed by at most one failure. */
  ghost predicate WellOrdered(actions: seq<Action>, skipDataPlane: bool) {
    || actions == [ValidationFailed]
    || exists n :: 0 <= n <= |NormalActions(skipDataPlane)|
                   && (|| actions == NormalActions(skipDataPlane)[..n]
                       || (n < |NormalActions(skipDataPlane)| && actions == NormalActions(skipDataPlane)[..n] + [Failed]))
  }

  datatype HelmCall = HelmUpgrade(dryRun: bool, ok: bool)

  /** A real upgrade comes only after a dry run that succeeded, and there is at most one of each. */
  predicate DryRunFirst(helm: seq<HelmCall>) {
    && |helm| <= 2
    && (|helm| > 0 ==> helm[0].dryRun)
    && (|helm| == 2 ==> helm[0].ok && !helm[1].dryRun)
  }

  datatype Values = Values(haEnabled: bool, partialRebuildEnabled: bool)

  /** What the cluster and the charts answer during the job. */
  datatype Answers = Answers(
    dryRunOk: bool,
    helmOk: bool,
    sourceValues: Values,
    finalValues: Option<Values>,
    revisionHash: Option<string>,
    outdatedPods: Option<seq<C.Pod>>)

  /** Helm is run for a core release of another version than the target's. */
  predicate NeedsHelm(u: Upgrader) {
    !u.chart.UmbrellaChart? && !u.alreadyUpgraded
  }

  /** The values that the data-plane upgrade goes by. */
  function EffectiveValues(u: Upgrader, env: Answers): Option<Values> {
    if u.chart.UmbrellaChart? || !u.alreadyUpgraded then env.finalValues else Some(env.sourceValues)
  }

  /** The job's record: the events that the channel took, and the helm commands. */
  class Job {
    var actions: seq<Action>
    var sends: nat
    var helm: seq<HelmCall>
    const refused: set<nat>

    /** `refused` are the sends that the channel will not take. */
    constructor (refused: set<nat>)
      ensures actions == [] && sends == 0 && helm == [] && this.refused == refused
    {
      actions, sends, helm := [], 0, [];
      this.refused := refused;
    }

    method Publish(a: Action) returns (ok: bool)
      modifies this`actions, this`sends
      ensures sends == old(sends) + 1 && ok == (old(sends) !in refused)
      ensures actions == old(actions) + if ok then [a] else []
    {
      ok := sends !in refused;
      sends := sends + 1;
      if ok {
        actions := actions + [a];
      }
    }

    /** The dry run; a release of the target version, or an umbrella release, needs none. */
    method DryRun(u: Upgrader, env: Answers) returns (ok: bool)
      requires helm == []
      modifies this`helm
      ensures ok == (NeedsHelm(u) ==> env.dryRunOk)
      ensures helm == if NeedsHelm(u) then [HelmUpgrade(true, ok)] else []
    {
      if u.alreadyUpgraded || u.chart.UmbrellaChart? {
        return true;
      }
      helm := helm + [HelmUpgrade(true, env.dryRunOk)];
      return env.dryRunOk;
    }

    /** What the dry run hands back to be run: the real upgrade, and the values it leaves. */
    method RunHelmUpgrade(u: Upgrader, env: Answers) returns (values: Option<Values>)
      modifies this`helm
      ensures helm == old(helm) + if NeedsHelm(u) then [HelmUpgrade(false, env.helmOk)] else []
      ensures values == if NeedsHelm(u) && !env.helmOk then None else EffectiveValues(u, env)
    {
      if u.chart.UmbrellaChart? {
        return env.finalValues;
      }
      if u.alreadyUpgraded {
        return Some(env.sourceValues);
      }
      helm := helm + [HelmUpgrade(false, env.helmOk)];
      if !env.helmOk {
        return None;
      }
      return env.finalValues;
    }
  }

  /** The failures that the job reports as an event. */
  predicate IsReported(e: JobError) {
    e.DryRunFailed? || e.HelmUpgradeFailed? || e.DataPlaneFailed?
  }

  type JobResult = Result<D.Unit, JobError>

  /** The actions of a job that ends before the control plane is upgraded. */
  predicate EndsEarly(actions: seq<Action>) {
    || actions == [] || actions == [ValidationFailed] || actions == [UpgradingCP]
    || actions == [UpgradingCP, UpgradingCP] || actions == [UpgradingCP, UpgradingCP, Failed]
  }

  /** Helm has run as it should for a control plane that is upgraded: a dry run, then the real one, both with success. */
  predicate HelmHasRun(u: Upgrader, helm: seq<HelmCall>) {
    helm == if NeedsHelm(u) then [HelmUpgrade(true, true), HelmUpgrade(false, true)] else []
  }

  /** How the control-plane part ends, as long as the channel takes all events. */
  predicate ControlPlaneOutcome(u: Upgrader, env: Answers, r: Result<Values, JobError>) {
    if NeedsHelm(u) && !env.dryRunOk then r == Err(DryRunFailed)
    else if (NeedsHelm(u) && !env.helmOk) || EffectiveValues(u, env).None? then r == Err(HelmUpgradeFailed)
    else r == Ok(EffectiveValues(u, env).value)
  }

  /** The control-plane part of the job: the dry run, then the real helm upgrade. */
  method UpgradeControlPlane(job: Job, u: Upgrader, env: Answers) returns (r: Result<Values, JobError>)
    requires job.actions == [] && job.helm == []
    modifies job`actions, job`sends, job`helm
    ensures DryRunFirst(job.helm) && (!NeedsHelm(u) ==> job.helm == [])
    ensures r.Ok? ==> job.actions == [UpgradingCP, UpgradingCP, UpgradedCP] && EffectiveValues(u, env) == Some(r.value)
    ensures r.Ok? ==> HelmHasRun(u, job.helm)
    ensures r.Err? ==> EndsEarly(job.actions)
    ensures job.refused == {} ==> ControlPlaneOutcome(u, env, r)
    ensures r.Err? && job.refused == {} ==>
              (IsReported(r.error) <==> Failed in job.actions || ValidationFailed in job.actions)
  {
    var ok := job.DryRun(u, env);
    if !ok {
      ok := job.Publish(ValidationFailed);
      return Err(DryRunFailed);
    }
    ok := job.Publish(UpgradingCP);
    if !ok { return Err(EventChannelSend); }
    ok := job.Publish(UpgradingCP);
    if !ok { return Err(EventChannelSend); }

    var values := job.RunHelmUpgrade(u, env);
    if values.None? {
      ok := job.Publish(Failed);
      return Err(HelmUpgradeFailed);
    }
    ok := job.Publish(UpgradedCP);
    if !ok { return Err(EventChannelSend); }
    return Ok(values.value);
  }

  lemma {:induction false} EarlyEndsAreWellOrdered(actions: seq<Action>, skipDataPlane: bool)
    requires EndsEarly(actions)
    ensures WellOrdered(actions, skipDataPlane) && Successful !in actions && UpgradedCP !in actions
  {
    var normal := NormalActions(skipDataPlane);
    assert normal[..0] == [] && normal[..1] == [UpgradingCP] && normal[..2] == [UpgradingCP, UpgradingCP];
    assert normal[..2] + [Failed] == [UpgradingCP, UpgradingCP, Failed];
  }

  /** The run through the data plane came to its end, or there was nothing to upgrade. */
  ghost predicate DataPlaneIsUpgraded(values: Values, env: Answers, log: P.Log) {
    && env.revisionHash.Some? && env.outdatedPods.Some?
    && if env.outdatedPods.value == [] then log == []
       else P.Run(P.Config(env.revisionHash.value, values.haEnabled), log) == P.Done
  }

  /** How the data-plane part ends, as long as the channel takes all events. */
  ghost predicate DataPlaneOutcome(u: Upgrader, values: Values, env: Answers, log: P.Log, script: seq<C.Tick>, r: JobResult) {
    if NeedsPartialRebuildOff(u.source) && values.partialRebuildEnabled then r == Err(PartialRebuildNotAllowed)
    else if env.revisionHash.None? then r == Err(RevisionHashUnavailable)
    else if env.outdatedPods.None? then r == Err(PodListFailed)
    else r.Err? ==>
      && r.error.DataPlaneFailed?
      && (script == [] || D.StopsWith(P.Config(env.revisionHash.value, values.haEnabled), log, r.error.cause))
  }

  /** The data-plane part of the job, from the partial rebuild check to the last restart. */
  method UpgradeDataPlanePart(job: Job, u: Upgrader, values: Values, env: Answers, c: C.Connection)
    returns (r: JobResult)
    requires c.log == [] && job.actions == NormalActions(false)[..3]
    modifies job`actions, job`sends, c
    ensures old(job.actions) <= job.actions
    ensures r.Ok? ==> job.actions == NormalActions(false)[..5]
    ensures r.Err? ==> WellOrdered(job.actions, false) && Successful !in job.actions && ValidationFailed !in job.actions
    ensures r.Err? && r.error.DataPlaneFailed? && job.refused == {} ==> job.actions == NormalActions(false)[..4] + [Failed]
    ensures r.Err? && !r.error.DataPlaneFailed? ==> Failed !in job.actions && !IsReported(r.error)
    ensures c.log != [] ==> !(values.partialRebuildEnabled && NeedsPartialRebuildOff(u.source))
    ensures c.log != [] ==> env.revisionHash.Some? && P.Accepted(P.Config(env.revisionHash.value, values.haEnabled), c.log)
    ensures r.Ok? ==> DataPlaneIsUpgraded(values, env, c.log)
    ensures job.refused == {} ==> DataPlaneOutcome(u, values, env, c.log, c.script, r)
  {
    ghost var normal := NormalActions(false);
    assert normal[..4] == normal[..3] + [UpgradingDP] && normal[..5] == normal[..4] + [UpgradedDP];
    assert WellOrdered(normal[..3], false) && WellOrdered(normal[..4], false) && WellOrdered(normal[..4] + [Failed], false);
    if NeedsPartialRebuildOff(u.source) && values.partialRebuildEnabled {
      return Err(PartialRebuildNotAllowed);
    }
    if env.revisionHash.None? { return Err(RevisionHashUnavailable); }
    if env.outdatedPods.None? { return Err(PodListFailed); }
    var ok := job.Publish(UpgradingDP);
    if !ok { return Err(EventChannelSend); }

    var cfg := P.Config(env.revisionHash.value, values.haEnabled);
    var upgraded := D.UpgradeDataPlane(c, cfg, env.outdatedPods.value);
    if upgraded.Err? {
      ok := job.Publish(Failed);
      return Err(DataPlaneFailed(upgraded.error));
    }
    ok := job.Publish(UpgradedDP);
    if !ok { return Err(EventChannelSend); }
    return Ok(D.Unit);
  }

  /**
    The whole job. However it ends, the actions it sent are a beginning of the normal ones,
    closed by at most one failure; `Successful` is sent exactly when the job returns Ok; a
    real helm upgrade runs only after its dry run succeeded; and no data-plane call is made
    when partial rebuild is on and the source is from 2.2.0 to 2.5.0. The control plane is
    reported as upgraded only after helm has run for real with success, if it is needed, and
    the data plane only after its run came to the end; as long as the channel takes all
    events, each error is returned exactly for its own cause.
   */
  method UpgradeProduct(job: Job, gate: Result<Upgrader, JobError>, skipDataPlane: bool, env: Answers, c: C.Connection)
    returns (r: JobResult)
    requires job.actions == [] && job.helm == [] && c.log == []
    modifies job`actions, job`sends, job`helm, c
    ensures WellOrdered(job.actions, skipDataPlane)
    ensures r.Ok? <==> Successful in job.actions
    ensures r.Ok? ==> job.actions == NormalActions(skipDataPlane)
    ensures DryRunFirst(job.helm) && (gate.Ok? && !NeedsHelm(gate.value) ==> job.helm == [])
    ensures r.Ok? || UpgradedCP in job.actions ==>
              gate.Ok? && HelmHasRun(gate.value, job.helm) && EffectiveValues(gate.value, env).Some?
    ensures r.Ok? && !skipDataPlane ==> DataPlaneIsUpgraded(EffectiveValues(gate.value, env).value, env, c.log)
    ensures gate.Ok? && job.refused == {} ==>
              && (r == Err(DryRunFailed) <==> NeedsHelm(gate.value) && !env.dryRunOk)
              && (r == Err(HelmUpgradeFailed) <==>
                    && (NeedsHelm(gate.value) ==> env.dryRunOk)
                    && ((NeedsHelm(gate.value) && !env.helmOk) || EffectiveValues(gate.value, env).None?))
              && (r.Err? && (r.error.DryRunFailed? || r.error.HelmUpgradeFailed?) <==> UpgradedCP !in job.actions)
    ensures gate.Ok? && job.refused == {} && !skipDataPlane && UpgradedCP in job.actions ==>
              DataPlaneOutcome(gate.value, EffectiveValues(gate.value, env).value, env, c.log, c.script, r)
    ensures gate.Ok? && job.refused == {} && skipDataPlane && UpgradedCP in job.actions ==> r.Ok?
    ensures c.log != [] ==>
              && !skipDataPlane && gate.Ok? && EffectiveValues(gate.value, env).Some? && env.revisionHash.Some?
              && var v := EffectiveValues(gate.value, env).value;
                 && !(v.partialRebuildEnabled && NeedsPartialRebuildOff(gate.value.source))
                 && P.Accepted(P.Config(env.revisionHash.value, v.haEnabled), c.log)
    ensures gate.Err? ==> r == Err(gate.error) && job.actions == [] && job.helm == [] && c.log == []
    ensures r.Err? && gate.Ok? && job.refused == {} ==>
              (IsReported(r.error) <==> Failed in job.actions || ValidationFailed in job.actions)
  {
    if gate.Err? {
      EarlyEndsAreWellOrdered([], skipDataPlane);
      return Err(gate.error);
    }
    var values := UpgradeControlPlane(job, gate.value, env);
    if values.Err? {
      EarlyEndsAreWellOrdered(job.actions, skipDataPlane);
      return Err(values.error);
    }
    assert NormalActions(skipDataPlane)[..3] == [UpgradingCP, UpgradingCP, UpgradedCP];
    r := FinishUpgrade(job, gate.value, values.value, skipDataPlane, env, c);
    assert job.actions[2] == UpgradedCP;
  }

  /** The rest of the job, once the control plane is upgraded. */
  method FinishUpgrade(job: Job, u: Upgrader, values: Values, skipDataPlane: bool, env: Answers, c: C.Connection)
    returns (r: JobResult)
    requires c.log == [] && job.actions == NormalActions(skipDataPlane)[..3]
    modifies job`actions, job`sends, c
    ensures WellOrdered(job.actions, skipDataPlane) && old(job.actions) <= job.actions
    ensures r.Ok? <==> Successful in job.actions
    ensures r.Ok? ==> job.actions == NormalActions(skipDataPlane)
    ensures r.Ok? && !skipDataPlane ==> DataPlaneIsUpgraded(values, env, c.log)
    ensures job.refused == {} ==> if skipDataPlane then r.Ok? else DataPlaneOutcome(u, values, env, c.log, c.script, r)
    ensures r.Err? ==> !r.error.DryRunFailed? && !r.error.HelmUpgradeFailed?
    ensures c.log != [] ==>
              && !skipDataPlane && env.revisionHash.Some?
              && !(values.partialRebuildEnabled && NeedsPartialRebuildOff(u.source))
              && P.Accepted(P.Config(env.revisionHash.value, values.haEnabled), c.log)
    ensures r.Err? && job.refused == {} ==>
              (IsReported(r.error) <==> Failed in job.actions || ValidationFailed in job.actions)
  {
    ghost var normal := NormalActions(skipDataPlane);
    assert normal[..3] == NormalActions(false)[..3];
    if !skipDataPlane {
      r := UpgradeDataPlanePart(job, u, values, env, c);
      if r.Err? {
        return;
      }
    }
    ghost var before := job.actions;
    assert before == normal[..|normal| - 1] && normal == before + [Successful];
    assert normal[..|normal|] == normal;
    var ok := job.Publish(Successful);
    if !ok { return Err(EventChannelSend); }
    return Ok(D.Unit);
  }
}
