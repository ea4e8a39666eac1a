/**
  The data-plane upgrade as the job executes it: nested polling loops over calls that can
  fail at any time. Every method is proved to follow the protocol, so what is proved of
  accepted logs holds of whatever these loops do.

  Each method says where the protocol stands when it returns. A failed call leaves an
  accepted log and ends the run.
 */
module DataPlane {
  import opened Wrappers
  import opened Cluster
  import opened Rebuild
  import opened Protocol
  import Listing

  datatype Failure =
    | CallFailed
    | EmptyStorageNodeSpec
    | EmptyPodSpec
    | EmptyPodNodeName
    | TooManyIoEnginePods

  datatype Unit = Unit

  type Outcome = Result<Unit, Failure>

  /**
    `log` is the log of a run that followed the protocol and did not reach its end. As in
    `At`, the quantifier over one value only keeps the run folded.
   */
  ghost predicate Cut(cfg: Config, log: Log) {
    forall t: Log :: t == log ==> Accepted(cfg, t) && !Run(cfg, t).Done?
  }

  /** The error of a run that call `q`, made in phase `ph` and served from `w`, has stopped. */
  function FailureOf(ph: Phase, q: Request, ok: bool, w: World): Failure {
    if !ok then CallFailed
    else if q.GetNode? && !w.HasState(q.node) then EmptyStorageNodeSpec
    else if ph.CheckEtcd? && ph.queue != [] then if ph.queue[0].spec.None? then EmptyPodSpec else EmptyPodNodeName
    else if ph.AwaitPod? then TooManyIoEnginePods
    else CallFailed
  }

  ghost predicate StopsWith(cfg: Config, t: Log, e: Failure) {
    && t != [] && Run(cfg, t) == Stopped
    && var c := t[|t| - 1]; e == FailureOf(Run(cfg, t[..|t| - 1]), c.request, c.ok, c.before)
  }

  /** The last call of `log` has stopped the run, for the reason `e`; the quantifier only keeps the run folded. */
  ghost predicate StoppedFor(cfg: Config, log: Log, e: Failure) {
    forall t: Log :: t == log ==> StopsWith(cfg, t, e)
  }

  /**
    The run is over without having reached its end: the job is gone, or the protocol has
    stopped for the reason `e`. `StopsOnlyFor` says what stops it.
   */
  ghost predicate Halted(cfg: Config, log: Log, script: seq<Tick>, e: Failure) {
    Cut(cfg, log) && (script == [] || StoppedFor(cfg, log, e))
  }

  /** What stops a run: a failed call, a record without what is needed, or several pods of the latest revision on one node. */
  predicate MeetsObstacle(cfg: Config, ph: Phase, c: Call) {
    || (!c.ok && !ph.AnaVolumes?)
    || (ph.AnaUncordonRead? && ph.verdict.None? && c.before.HasState(ph.node) && !c.before.State(ph.node).CordonedFor(CORDON_ANA_CHECK))
    || (ph.AnaUncordonDelete? && ph.verdict.None?)
    || (c.request.GetNode? && !c.before.HasState(c.request.node))
    || (ph.CheckEtcd? && ph.coreReady && ph.restReady && AllReady(Select(c.before.pods, OfApp(Etcd)))
        && (ph.queue == [] || NodeOf(ph.queue[0]).None?))
    || (ph.AwaitPod? && |Select(c.before.pods, LatestOn(cfg.latestHash, ph.node))| > 1)
  }

  /** A run stops exactly at an obstacle: otherwise every polling loop goes on. */
  lemma {:induction false} StopsOnlyFor(cfg: Config, ph: Phase, c: Call)
    requires !Step(cfg, ph, c).Rejected?
    ensures Step(cfg, ph, c).Stopped? <==> MeetsObstacle(cfg, ph, c)
  {
  }

  /** Makes the call that phase `ph` is about to make. */
  method Issue(c: Connection, cfg: Config, q: Request, ghost ph: Phase) returns (ok: bool, world: World)
    requires (c.script == [] && Cut(cfg, c.log)) || At(cfg, c.log, ph)
    requires NextRequest(cfg, ph) == Some(q)
    modifies c
    ensures old(c.script) == [] ==> !ok && c.script == [] && c.log == old(c.log)
    ensures old(c.script) != [] ==> |c.script| < |old(c.script)|
    ensures ok ==> old(c.script) != []
    ensures ok && q.GetNode? ==>
              && q.node in world.nodes
              && At(cfg, c.log, if !world.HasState(q.node) then Stopped else AfterNodeRead(ph, world.State(q.node)))
    ensures ok && !q.GetNode? ==> At(cfg, c.log, AfterCall(cfg, ph, world))
    ensures !ok && old(c.script) != [] && ph.AnaVolumes? ==>
              At(cfg, c.log, AnaUncordonRead(ph.queue, ph.node, None))
    ensures ok && q.GetNode? && !world.HasState(q.node) ==> Halted(cfg, c.log, c.script, EmptyStorageNodeSpec)
    ensures ok && q.GetNode? && world.HasState(q.node) && AfterNodeRead(ph, world.State(q.node)).Stopped? ==>
              StoppedFor(cfg, c.log, FailureOf(ph, q, ok, world))
    ensures ok && !q.GetNode? && AfterCall(cfg, ph, world).Stopped? ==> StoppedFor(cfg, c.log, FailureOf(ph, q, ok, world))
    ensures !ok && !ph.AnaVolumes? ==> Halted(cfg, c.log, c.script, CallFailed)
    ensures !ok ==> Cut(cfg, c.log)
  {
    ghost var before := c.log;
    ok, world := c.Invoke(q);
    if c.log != before {
      assert Run(cfg, before) == ph;
      LastCallDecides(cfg, before, ph, c.log[|c.log| - 1]);
    }
  }

  lemma {:induction false} LastCallDecides(cfg: Config, t: Log, ph: Phase, c: Call)
    requires Run(cfg, t) == ph
    ensures Run(cfg, t + [c]) == Step(cfg, ph, c)
    ensures Step(cfg, ph, c).Stopped? ==> StoppedFor(cfg, t + [c], FailureOf(ph, c.request, c.ok, c.before))
  {
    RunExtends(cfg, t, c);
    assert (t + [c])[..|t|] == t;
  }

  // ---------------------------------------------------------------- pod checks

  /** Nested loops over pods and their conditions; the first `Ready` condition decides. */
  method AllPodsAreReady(pods: seq<Pod>) returns (ready: bool)
    ensures ready == AllReady(pods)
  {
    for i := 0 to |pods|
      invariant forall k :: 0 <= k < i ==> PassesReadiness(pods[k])
    {
      var pod := pods[i];
      match pod.conditions {
        case None =>
          assert !PassesReadiness(pod);
          return false;
        case Some(conditions) =>
          for k := 0 to |conditions|
            invariant forall j :: 0 <= j < k ==> conditions[j].kind != "Ready"
          {
            if conditions[k].kind == "Ready" {
              if conditions[k].status == "True" {
                break;
              }
              assert !PassesReadiness(pod);
              return false;
            }
          }
      }
    }
    return true;
  }

  /** Lists the pods of an application and checks them. */
  method AppIsReady(c: Connection, cfg: Config, app: App, ghost ph: Phase) returns (ok: bool, ready: bool, ghost w: World)
    requires At(cfg, c.log, ph) && NextRequest(cfg, ph) == Some(ListPods(OfApp(app)))
    modifies c
    ensures |c.script| <= |old(c.script)|
    ensures ok ==> |c.script| < |old(c.script)|
    ensures ok ==> At(cfg, c.log, AfterCall(cfg, ph, w)) && ready == AllReady(Select(w.pods, OfApp(app)))
    ensures !ok ==> Halted(cfg, c.log, c.script, CallFailed)
    ensures ok && AfterCall(cfg, ph, w).Stopped? ==> StoppedFor(cfg, c.log, FailureOf(ph, ListPods(OfApp(app)), true, w))
  {
    var world;
    ok, world := Issue(c, cfg, ListPods(OfApp(app)), ph);
    w := world;
    if !ok { return false, false, w; }
    var pods := Listing.ListPods(world, OfApp(app), c.paging);
    ready := AllPodsAreReady(pods);
  }

  method ControlPlaneIsRunning(c: Connection, cfg: Config, ghost queue: seq<Pod>) returns (r: Result<bool, Failure>)
    requires At(cfg, c.log, CheckCore(queue))
    modifies c
    ensures |c.script| <= |old(c.script)|
    ensures r.Ok? ==> |c.script| < |old(c.script)|
    ensures r == Ok(true) ==> At(cfg, c.log, if queue == [] || NodeOf(queue[0]).None? then Stopped
                                                 else AwaitRebuild(queue, NodeOf(queue[0]).value, []))
    ensures r == Ok(true) && queue != [] && NodeOf(queue[0]).None? ==>
              StoppedFor(cfg, c.log, if queue[0].spec.None? then EmptyPodSpec else EmptyPodNodeName)
    ensures r == Ok(false) ==> At(cfg, c.log, CheckCore(queue))
    ensures r.Err? ==> Halted(cfg, c.log, c.script, r.error)
  {
    var ok, coreIsReady, w1 := AppIsReady(c, cfg, AgentCore, CheckCore(queue));
    if !ok { return Err(CallFailed); }
    var restOk, restIsReady, w2 := AppIsReady(c, cfg, ApiRest, CheckRest(queue, coreIsReady));
    if !restOk { return Err(CallFailed); }
    var etcdOk, etcdIsReady, w3 := AppIsReady(c, cfg, Etcd, CheckEtcd(queue, coreIsReady, restIsReady));
    if !etcdOk { return Err(CallFailed); }
    return Ok(coreIsReady && restIsReady && etcdIsReady);
  }

  method VerifyControlPlaneIsRunning(c: Connection, cfg: Config, ghost queue: seq<Pod>) returns (r: Outcome)
    requires At(cfg, c.log, CheckCore(queue))
    modifies c
    ensures |c.script| <= |old(c.script)|
    ensures r.Ok? ==> |c.script| < |old(c.script)|
    ensures r.Ok? ==> At(cfg, c.log, if queue == [] || NodeOf(queue[0]).None? then Stopped
                                         else AwaitRebuild(queue, NodeOf(queue[0]).value, []))
    ensures r.Ok? && queue != [] && NodeOf(queue[0]).None? ==>
              StoppedFor(cfg, c.log, if queue[0].spec.None? then EmptyPodSpec else EmptyPodNodeName)
    ensures r.Err? ==> Halted(cfg, c.log, c.script, r.error)
  {
    while true
      invariant At(cfg, c.log, CheckCore(queue)) && |c.script| <= |old(c.script)|
      decreases |c.script|
    {
      var running := ControlPlaneIsRunning(c, cfg, queue);
      if running.Err? { return Err(running.error); }
      if running.value { return Ok(Unit); }
    }
  }

  // ---------------------------------------------------------------- rebuilds

  /** Reads snapshots until one of them settles the question; `stale` outlives the call. */
  method RebuildResult(c: Connection, cfg: Config, stale: seq<Volume>, node: NodeId, ghost queue: seq<Pod>)
    returns (r: Result<bool, Failure>, discarded: seq<Volume>)
    requires At(cfg, c.log, AwaitRebuild(queue, node, stale))
    modifies c
    ensures |c.script| <= |old(c.script)|
    ensures r.Ok? ==> |c.script| < |old(c.script)|
    ensures r == Ok(true) ==> At(cfg, c.log, AwaitRebuild(queue, node, discarded))
    ensures r == Ok(false) ==>
              At(cfg, c.log, if cfg.haEnabled then AnaList(queue, node) else Restart(queue, node, false))
    ensures r.Err? ==> Halted(cfg, c.log, c.script, r.error)
  {
    discarded := stale;
    while true
      invariant At(cfg, c.log, AwaitRebuild(queue, node, discarded)) && |c.script| <= |old(c.script)|
      decreases |c.script|
    {
      var ok, w := Issue(c, cfg, GetVolumes, AwaitRebuild(queue, node, discarded));
      if !ok { return Err(CallFailed), discarded; }
      var unhealthy := Listing.ListUnhealthyVolumes(w.volumes, discarded, c.paging);
      if unhealthy == [] {
        return Ok(false), discarded;
      }
      var scan := ScanVolumes(unhealthy, discarded, node);
      match scan {
        case FoundRebuild(s) =>
          return Ok(true), s;
        case Scanned(over, s) =>
          discarded := s;
          if over == {} {
            return Ok(false), discarded;
          }
      }
    }
  }

  method WaitForRebuild(c: Connection, cfg: Config, node: NodeId, ghost queue: seq<Pod>) returns (r: Outcome)
    requires At(cfg, c.log, AwaitRebuild(queue, node, []))
    modifies c
    ensures |c.script| <= |old(c.script)|
    ensures r.Ok? ==>
              At(cfg, c.log, if cfg.haEnabled then AnaList(queue, node) else Restart(queue, node, false))
    ensures r.Err? ==> Halted(cfg, c.log, c.script, r.error)
  {
    var discarded := [];
    while true
      invariant At(cfg, c.log, AwaitRebuild(queue, node, discarded)) && |c.script| <= |old(c.script)|
      decreases |c.script|
    {
      var rebuild;
      rebuild, discarded := RebuildResult(c, cfg, discarded, node, queue);
      if rebuild.Err? { return Err(rebuild.error); }
      if !rebuild.value { return Ok(Unit); }
    }
  }

  // ---------------------------------------------------------------- the ANA check

  method CordonStorageNode(c: Connection, cfg: Config, node: NodeId, ghost queue: seq<Pod>, ghost disabled: seq<NodeId>)
    returns (r: Outcome)
    requires At(cfg, c.log, AnaCordonRead(queue, node, disabled))
    modifies c
    ensures |c.script| <= |old(c.script)|
    ensures r.Ok? ==> At(cfg, c.log, AnaVolumes(queue, node, disabled))
    ensures r.Err? ==> Halted(cfg, c.log, c.script, r.error)
  {
    var ok, w := Issue(c, cfg, GetNode(node), AnaCordonRead(queue, node, disabled));
    if !ok { return Err(CallFailed); }
    if w.nodes[node].spec.None? { return Err(EmptyStorageNodeSpec); }
    var state := w.nodes[node].spec.value;
    if !(state.Cordoned? && CORDON_ANA_CHECK in state.cordon) {
      ok, w := Issue(c, cfg, PutCordon(node, CORDON_ANA_CHECK), AnaCordonPut(queue, node, disabled));
      if !ok { return Err(CallFailed); }
    }
    return Ok(Unit);
  }

  method UncordonStorageNode(c: Connection, cfg: Config, node: NodeId, ghost queue: seq<Pod>, ghost verdict: Option<bool>)
    returns (r: Outcome)
    requires (c.script == [] && Cut(cfg, c.log)) || At(cfg, c.log, AnaUncordonRead(queue, node, verdict))
    modifies c
    ensures |c.script| <= |old(c.script)|
    ensures r.Ok? ==> old(c.script) != [] && At(cfg, c.log, AfterAnaCheck(queue, node, verdict))
    ensures r.Ok? && verdict.None? ==> StoppedFor(cfg, c.log, CallFailed)
    ensures r.Err? ==> Halted(cfg, c.log, c.script, r.error)
  {
    var ok, w := Issue(c, cfg, GetNode(node), AnaUncordonRead(queue, node, verdict));
    if !ok { return Err(CallFailed); }
    if w.nodes[node].spec.None? { return Err(EmptyStorageNodeSpec); }
    var state := w.nodes[node].spec.value;
    if state.Cordoned? && CORDON_ANA_CHECK in state.cordon {
      ok, w := Issue(c, cfg, DeleteCordon(node, CORDON_ANA_CHECK), AnaUncordonDelete(queue, node, verdict));
      if !ok { return Err(CallFailed); }
    }
    return Ok(Unit);
  }

  /** Gathers the frontends of the volumes targeted at the node, then looks for disabled ones. */
  method FrontendNodesAnaCheck(volumes: seq<Volume>, node: NodeId, disabled: seq<NodeId>) returns (clear: bool)
    ensures clear == AnaClear(disabled, volumes, node)
  {
    var frontends: seq<NodeId> := [];
    for i := 0 to |volumes|
      invariant forall f :: f in frontends <==> f in FrontendsOf(volumes[..i], node)
    {
      var volume := volumes[i];
      ghost var before := frontends;
      if volume.specTarget.Some? && volume.specTarget.value.node == node
         && volume.specTarget.value.frontendNodes.Some? {
        frontends := frontends + volume.specTarget.value.frontendNodes.value;
      }
      assert volumes[..i + 1] == volumes[..i] + [volume];
      forall f
        ensures f in frontends <==> f in FrontendsOf(volumes[..i + 1], node)
      {
        assert f in FrontendsOf(volumes[..i + 1], node) <==>
               f in FrontendsOf(volumes[..i], node) || f in FrontendsOf([volume], node);
        assert f in frontends <==> f in before || f in FrontendsOf([volume], node);
      }
    }
    assert volumes[..|volumes|] == volumes;
    for i := 0 to |disabled|
      invariant forall k :: 0 <= k < i ==> disabled[k] !in FrontendsOf(volumes, node)
    {
      if disabled[i] in frontends {
        return false;
      }
    }
    return true;
  }

  /**
    Whether the node may be drained. The cordon label taken for the check is given back
    even when the volumes could not be listed.
   */
  method IsNodeDrainable(c: Connection, cfg: Config, node: NodeId, ghost queue: seq<Pod>) returns (r: Result<bool, Failure>)
    requires At(cfg, c.log, if cfg.haEnabled then AnaList(queue, node) else Restart(queue, node, false))
    modifies c
    ensures |c.script| <= |old(c.script)|
    ensures r == Ok(true) ==> At(cfg, c.log, DrainRead(queue, node))
    ensures r == Ok(false) ==> At(cfg, c.log, Restart(queue, node, false))
    ensures r.Err? ==> Halted(cfg, c.log, c.script, r.error)
  {
    if !cfg.haEnabled {
      return Ok(false);
    }
    var ok, w := Issue(c, cfg, ListAnaDisabled, AnaList(queue, node));
    if !ok { return Err(CallFailed); }
    var disabled := Listing.ListPaged(w.anaDisabled, c.paging);
    if disabled == [] {
      return Ok(true);
    }
    var cordon := CordonStorageNode(c, cfg, node, queue, disabled);
    if cordon.Err? { return Err(cordon.error); }

    var verdict: Option<bool> := None;
    ok, w := Issue(c, cfg, GetVolumes, AnaVolumes(queue, node, disabled));
    if ok {
      var volumes := Listing.ListAllVolumes(w.volumes, c.paging);
      var clear := FrontendNodesAnaCheck(volumes, node, disabled);
      verdict := Some(clear);
    }
    var uncordon := UncordonStorageNode(c, cfg, node, queue, verdict);
    if uncordon.Err? { return Err(uncordon.error); }
    match verdict {
      case None => return Err(CallFailed);
      case Some(clear) => return Ok(clear);
    }
  }

  // ---------------------------------------------------------------- drain, restart, uncordon

  method DrainStorageNode(c: Connection, cfg: Config, node: NodeId, ghost queue: seq<Pod>) returns (r: Outcome)
    requires At(cfg, c.log, DrainRead(queue, node))
    modifies c
    ensures |c.script| <= |old(c.script)|
    ensures r.Ok? ==> At(cfg, c.log, Restart(queue, node, true))
    ensures r.Err? ==> Halted(cfg, c.log, c.script, r.error)
  {
    while true
      invariant At(cfg, c.log, DrainRead(queue, node)) && |c.script| <= |old(c.script)|
      decreases |c.script|
    {
      var ok, w := Issue(c, cfg, GetNode(node), DrainRead(queue, node));
      if !ok { return Err(CallFailed); }
      if w.nodes[node].spec.None? { return Err(EmptyStorageNodeSpec); }
      var state := w.nodes[node].spec.value;
      if state.Draining? && DRAIN_FOR_UPGRADE in state.drain {
        continue;
      } else if state.Drained? && DRAIN_FOR_UPGRADE in state.drain {
        return Ok(Unit);
      }
      ok, w := Issue(c, cfg, PutDrain(node, DRAIN_FOR_UPGRADE), DrainPut(queue, node));
      if !ok { return Err(CallFailed); }
    }
  }

  method DeleteDataPlanePod(c: Connection, cfg: Config, node: NodeId, pod: Pod, ghost queue: seq<Pod>, ghost drained: bool)
    returns (r: Outcome)
    requires queue != [] && queue[0] == pod && At(cfg, c.log, Restart(queue, node, drained))
    modifies c
    ensures |c.script| <= |old(c.script)|
    ensures r.Ok? ==> At(cfg, c.log, AwaitPod(queue, node))
    ensures r.Err? ==> Halted(cfg, c.log, c.script, r.error)
  {
    var ok, w := Issue(c, cfg, DeletePod(pod.name, node), Restart(queue, node, drained));
    if !ok { return Err(CallFailed); }
    return Ok(Unit);
  }

  method DataPlanePodIsRunning(c: Connection, cfg: Config, node: NodeId, ghost queue: seq<Pod>)
    returns (r: Result<bool, Failure>)
    requires At(cfg, c.log, AwaitPod(queue, node))
    modifies c
    ensures |c.script| <= |old(c.script)|
    ensures r.Ok? ==> |c.script| < |old(c.script)|
    ensures r == Ok(true) ==> At(cfg, c.log, UncordonRead(queue, node))
    ensures r == Ok(false) ==> At(cfg, c.log, AwaitPod(queue, node))
    ensures r.Err? ==> Halted(cfg, c.log, c.script, r.error)
  {
    var ok, w := Issue(c, cfg, ListPods(LatestOn(cfg.latestHash, node)), AwaitPod(queue, node));
    if !ok { return Err(CallFailed); }
    var pods := Listing.ListPods(w, LatestOn(cfg.latestHash, node), c.paging);
    if pods == [] {
      return Ok(false);
    }
    if |pods| != 1 {
      return Err(TooManyIoEnginePods);
    }
    var ready := AllPodsAreReady(pods);
    return Ok(ready);
  }

  method VerifyDataPlanePodIsRunning(c: Connection, cfg: Config, node: NodeId, ghost queue: seq<Pod>) returns (r: Outcome)
    requires At(cfg, c.log, AwaitPod(queue, node))
    modifies c
    ensures |c.script| <= |old(c.script)|
    ensures r.Ok? ==> At(cfg, c.log, UncordonRead(queue, node))
    ensures r.Err? ==> Halted(cfg, c.log, c.script, r.error)
  {
    while true
      invariant At(cfg, c.log, AwaitPod(queue, node)) && |c.script| <= |old(c.script)|
      decreases |c.script|
    {
      var running := DataPlanePodIsRunning(c, cfg, node, queue);
      if running.Err? { return Err(running.error); }
      if running.value { return Ok(Unit); }
    }
  }

  /** Where removing the drain label of `node` starts: in the clean-up, or after a restart. */
  ghost predicate ReadyToUncordon(ph: Phase, node: NodeId) {
    || (ph.SweepRead? && ph.todo != [] && ph.todo[0] == node)
    || (ph.UncordonRead? && ph.queue != [] && ph.node == node)
  }

  ghost function AfterUncordon(ph: Phase): Phase
    requires (ph.SweepRead? && ph.todo != []) || (ph.UncordonRead? && ph.queue != [])
  {
    if ph.SweepRead? then Sweep(ph.todo[1..]) else NextPod(ph.queue[1..])
  }

  method UncordonDrainedStorageNode(c: Connection, cfg: Config, node: NodeId, ghost ph: Phase) returns (r: Outcome)
    requires ReadyToUncordon(ph, node) && At(cfg, c.log, ph)
    modifies c
    ensures |c.script| <= |old(c.script)|
    ensures r.Ok? ==> At(cfg, c.log, AfterUncordon(ph))
    ensures r.Err? ==> Halted(cfg, c.log, c.script, r.error)
  {
    while true
      invariant At(cfg, c.log, ph) && |c.script| <= |old(c.script)|
      decreases |c.script|
    {
      var ok, w := Issue(c, cfg, GetNode(node), ph);
      if !ok { return Err(CallFailed); }
      if w.nodes[node].spec.None? { return Err(EmptyStorageNodeSpec); }
      var state := w.nodes[node].spec.value;
      if state.Drained? && DRAIN_FOR_UPGRADE in state.drain {
        ghost var removing := if ph.SweepRead? then SweepUncordon(ph.todo) else UncordonDelete(ph.queue, ph.node);
        ok, w := Issue(c, cfg, DeleteCordon(node, DRAIN_FOR_UPGRADE), removing);
        if !ok { return Err(CallFailed); }
      } else {
        return Ok(Unit);
      }
    }
  }

  // ---------------------------------------------------------------- the upgrade

  /** Removes drain labels left over from earlier attempts. */
  method RemoveLeftoverLabels(c: Connection, cfg: Config) returns (r: Outcome)
    requires c.log == []
    modifies c
    ensures |c.script| <= |old(c.script)|
    ensures r.Ok? ==> At(cfg, c.log, ListOutdated)
    ensures r.Err? ==> Halted(cfg, c.log, c.script, r.error)
  {
    var ok, w := Issue(c, cfg, GetNodes, Begin);
    if !ok { return Err(CallFailed); }
    var nodes := w.nodeListing;
    assert nodes[0..] == nodes;
    for i := 0 to |nodes|
      invariant At(cfg, c.log, Sweep(nodes[i..])) && |c.script| <= |old(c.script)|
    {
      assert nodes[i..][1..] == nodes[i + 1..];
      r := UncordonDrainedStorageNode(c, cfg, nodes[i], SweepRead(nodes[i..]));
      if r.Err? { return; }
    }
    return Ok(Unit);
  }

  /** The steps for one outdated pod. */
  method UpgradePod(c: Connection, cfg: Config, pod: Pod, ghost queue: seq<Pod>) returns (r: Outcome)
    requires queue != [] && queue[0] == pod && At(cfg, c.log, CheckCore(queue))
    modifies c
    ensures r.Ok? ==> At(cfg, c.log, NextPod(queue[1..])) && |c.script| < |old(c.script)|
    ensures r.Err? ==> Halted(cfg, c.log, c.script, r.error)
  {
    r := VerifyControlPlaneIsRunning(c, cfg, queue);
    if r.Err? { return; }
    if pod.spec.None? { return Err(EmptyPodSpec); }
    if pod.spec.value.nodeName.None? { return Err(EmptyPodNodeName); }
    var node := pod.spec.value.nodeName.value;

    r := WaitForRebuild(c, cfg, node, queue);
    if r.Err? { return; }

    var drainable := IsNodeDrainable(c, cfg, node, queue);
    if drainable.Err? { return Err(drainable.error); }
    if drainable.value {
      r := DrainStorageNode(c, cfg, node, queue);
      if r.Err? { return; }
    }

    r := DeleteDataPlanePod(c, cfg, node, pod, queue, drainable.value);
    if r.Err? { return; }
    r := VerifyDataPlanePodIsRunning(c, cfg, node, queue);
    if r.Err? { return; }
    r := UncordonDrainedStorageNode(c, cfg, node, UncordonRead(queue, node));
  }

  /**
    Restarts io-engine pods under control. Without outdated pods it makes no call at all;
    otherwise it returns Ok exactly when it runs to the end of the protocol, and an error only
    when the job is gone or the protocol has met an obstacle.
   */
  method UpgradeDataPlane(c: Connection, cfg: Config, outdatedPods: seq<Pod>) returns (r: Outcome)
    requires c.log == []
    modifies c
    ensures outdatedPods == [] ==> r.Ok? && c.log == []
    ensures outdatedPods != [] ==> Accepted(cfg, c.log) && (r.Ok? <==> Run(cfg, c.log) == Done)
    ensures r.Err? ==> c.script == [] || StopsWith(cfg, c.log, r.error)
  {
    if outdatedPods == [] {
      return Ok(Unit);
    }
    r := RemoveLeftoverLabels(c, cfg);
    if r.Err? { return; }
    while true
      invariant At(cfg, c.log, ListOutdated)
      decreases |c.script|
    {
      var ok, w := Issue(c, cfg, ListPods(Outdated(cfg.latestHash)), ListOutdated);
      if !ok { return Err(CallFailed); }
      var pods := Listing.ListPods(w, Outdated(cfg.latestHash), c.paging);
      if pods == [] {
        break;
      }
      ghost var left := |c.script|;
      assert pods[0..] == pods;
      for i := 0 to |pods|
        invariant At(cfg, c.log, NextPod(pods[i..])) && |c.script| <= left
      {
        assert pods[i..][1..] == pods[i + 1..];
        r := UpgradePod(c, cfg, pods[i], pods[i..]);
        if r.Err? { return; }
      }
    }
    return Ok(Unit);
  }
}
