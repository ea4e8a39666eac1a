/**
  The rolling data-plane upgrade as a protocol: which call may follow which, given what
  the earlier calls returned. `Run` folds the protocol over a log, so that a property of
  every accepted log is a property of every run, aborted or not.
 */
module Protocol {
  import opened Wrappers
  import opened Cluster
  import opened Rebuild

  datatype Config = Config(latestHash: string, haEnabled: bool)

  // ---------------------------------------------------------------- observations

  /** The readiness check: only the first `Ready` condition counts, and it may be missing. */
  predicate PassesReadiness(p: Pod) {
    && p.conditions.Some?
    && var cs := p.conditions.value;
       forall i :: 0 <= i < |cs| && cs[i].kind == "Ready" && (forall j :: 0 <= j < i ==> cs[j].kind != "Ready") ==>
         cs[i].status == "True"
  }

  predicate AllReady(ps: seq<Pod>) {
    forall p :: p in ps ==> PassesReadiness(p)
  }

  predicate HasCondition(p: Pod, kind: string) {
    p.conditions.Some? && exists i :: 0 <= i < |p.conditions.value| && p.conditions.value[i].kind == kind
  }

  predicate IsMarkedReady(p: Pod) {
    p.conditions.Some? && Condition("Ready", "True") in p.conditions.value
  }

  lemma {:induction false} FirstOfKind(cs: seq<Condition>, kind: string, i: nat) returns (k: nat)
    requires i < |cs| && cs[i].kind == kind
    ensures k <= i && cs[k].kind == kind && forall j :: 0 <= j < k ==> cs[j].kind != kind
  {
    if j: nat :| j < i && cs[j].kind == kind {
      k := FirstOfKind(cs, kind, j);
    } else {
      k := i;
    }
  }

  /** A pod that passes the check is marked ready exactly when it has a Ready condition at all. */
  lemma {:induction false} PassingPodIsMarkedReadyIff(p: Pod)
    requires PassesReadiness(p)
    ensures IsMarkedReady(p) <==> HasCondition(p, "Ready")
  {
    var cs := p.conditions.value;
    if i :| 0 <= i < |cs| && cs[i].kind == "Ready" {
      var k := FirstOfKind(cs, "Ready", i);
      assert cs[k] == Condition("Ready", "True");
    }
  }

  /** The check passes every pod whose conditions say nothing about readiness, and passes when there is no pod. */
  lemma {:induction false} ReadinessCheckPassesWithoutEvidence(p: Pod)
    requires p.conditions.Some? && !HasCondition(p, "Ready")
    ensures PassesReadiness(p) && !IsMarkedReady(p) && AllReady([p]) && AllReady([])
  {
  }

  /** One such pod. */
  lemma {:induction false} UnreadyPodPasses()
    ensures var p := Pod("agent-core-0", AgentCore, None, None, Some([Condition("PodScheduled", "True")]));
            PassesReadiness(p) && !IsMarkedReady(p)
  {
    var cs := [Condition("PodScheduled", "True")];
    assert |cs[0].kind| != |"Ready"|;
    assert forall i :: 0 <= i < |cs| ==> cs[i].kind != "Ready";
  }

  /** The nodes that consume volumes whose target is meant to be on `node`. */
  function FrontendsOf(vs: seq<Volume>, node: NodeId): set<NodeId> {
    set v, f | v in vs && v.specTarget.Some? && v.specTarget.value.node == node
               && v.specTarget.value.frontendNodes.Some? && f in v.specTarget.value.frontendNodes.value :: f
  }

  /** Draining is safe when no ANA-disabled node consumes a volume targeted at `node`. */
  predicate AnaClear(disabled: seq<NodeId>, vs: seq<Volume>, node: NodeId) {
    forall d :: d in disabled ==> d !in FrontendsOf(vs, node)
  }

  // ---------------------------------------------------------------- phases

  /**
    Where a run stands: the call it is about to make. `queue` is what is left of the last
    listing of outdated pods; its first pod is the one in progress.
   */
  datatype Phase =
    | Begin
    | SweepRead(todo: seq<NodeId>)
    | SweepUncordon(todo: seq<NodeId>)
    | ListOutdated
    | CheckCore(queue: seq<Pod>)
    | CheckRest(queue: seq<Pod>, coreReady: bool)
    | CheckEtcd(queue: seq<Pod>, coreReady: bool, restReady: bool)
    | AwaitRebuild(queue: seq<Pod>, node: NodeId, stale: seq<Volume>)
    | AnaList(queue: seq<Pod>, node: NodeId)
    | AnaCordonRead(queue: seq<Pod>, node: NodeId, disabled: seq<NodeId>)
    | AnaCordonPut(queue: seq<Pod>, node: NodeId, disabled: seq<NodeId>)
    | AnaVolumes(queue: seq<Pod>, node: NodeId, disabled: seq<NodeId>)
    | AnaUncordonRead(queue: seq<Pod>, node: NodeId, verdict: Option<bool>)
    | AnaUncordonDelete(queue: seq<Pod>, node: NodeId, verdict: Option<bool>)
    | DrainRead(queue: seq<Pod>, node: NodeId)
    | DrainPut(queue: seq<Pod>, node: NodeId)
    | Restart(queue: seq<Pod>, node: NodeId, drained: bool)
    | AwaitPod(queue: seq<Pod>, node: NodeId)
    | UncordonRead(queue: seq<Pod>, node: NodeId)
    | UncordonDelete(queue: seq<Pod>, node: NodeId)
    | Done
    | Stopped
    | Rejected
  {
    /** The node being upgraded, once the pod in progress has been examined. */
    function Node(): Option<NodeId> {
      if AwaitRebuild? || AnaList? || AnaCordonRead? || AnaCordonPut? || AnaVolumes? || AnaUncordonRead?
         || AnaUncordonDelete? || DrainRead? || DrainPut? || Restart? || AwaitPod? || UncordonRead?
         || UncordonDelete? then Some(node)
      else None
    }

    /** The outdated pods still to be upgraded; the first one is in progress. */
    function Queue(): seq<Pod> {
      if CheckCore? || CheckRest? || CheckEtcd? || Node().Some? then queue else []
    }

    /** The clean-up of leftover drain labels is over. */
    predicate PastSweep() {
      !Begin? && !SweepRead? && !SweepUncordon?
    }
  }

  function Sweep(todo: seq<NodeId>): Phase {
    if todo == [] then ListOutdated else SweepRead(todo)
  }

  function NextPod(queue: seq<Pod>): Phase {
    if queue == [] then ListOutdated else CheckCore(queue)
  }

  function AfterAnaCheck(queue: seq<Pod>, node: NodeId, verdict: Option<bool>): Phase {
    match verdict
    case None => Stopped
    case Some(true) => DrainRead(queue, node)
    case Some(false) => Restart(queue, node, false)
  }

  // ---------------------------------------------------------------- steps

  /** The request that each phase issues. */
  function NextRequest(cfg: Config, ph: Phase): Option<Request> {
    match ph
    case Begin => Some(GetNodes)
    case SweepRead(todo) => if todo == [] then None else Some(GetNode(todo[0]))
    case SweepUncordon(todo) => if todo == [] then None else Some(DeleteCordon(todo[0], DRAIN_FOR_UPGRADE))
    case ListOutdated => Some(ListPods(Outdated(cfg.latestHash)))
    case CheckCore(_) => Some(ListPods(OfApp(AgentCore)))
    case CheckRest(_, _) => Some(ListPods(OfApp(ApiRest)))
    case CheckEtcd(_, _, _) => Some(ListPods(OfApp(Etcd)))
    case AwaitRebuild(_, _, _) => Some(GetVolumes)
    case AnaList(_, _) => Some(ListAnaDisabled)
    case AnaCordonRead(_, n, _) => Some(GetNode(n))
    case AnaCordonPut(_, n, _) => Some(PutCordon(n, CORDON_ANA_CHECK))
    case AnaVolumes(_, _, _) => Some(GetVolumes)
    case AnaUncordonRead(_, n, _) => Some(GetNode(n))
    case AnaUncordonDelete(_, n, _) => Some(DeleteCordon(n, CORDON_ANA_CHECK))
    case DrainRead(_, n) => Some(GetNode(n))
    case DrainPut(_, n) => Some(PutDrain(n, DRAIN_FOR_UPGRADE))
    case Restart(q, n, _) => if q == [] then None else Some(DeletePod(q[0].name, n))
    case AwaitPod(_, n) => Some(ListPods(LatestOn(cfg.latestHash, n)))
    case UncordonRead(_, n) => Some(GetNode(n))
    case UncordonDelete(_, n) => Some(DeleteCordon(n, DRAIN_FOR_UPGRADE))
    case Done => None
    case Stopped => None
    case Rejected => None
  }

  /** Where a run stands after call `c`. A failed call ends the run, save for the ANA check. */
  function Step(cfg: Config, ph: Phase, c: Call): Phase {
    if NextRequest(cfg, ph) != Some(c.request) || !Lawful(c) then Rejected
    else if !c.ok then
      if ph.AnaVolumes? then AnaUncordonRead(ph.queue, ph.node, None) else Stopped
    else if c.request.GetNode? then
      if !c.before.HasState(c.request.node) then Stopped
      else AfterNodeRead(ph, c.before.State(c.request.node))
    else AfterCall(cfg, ph, c.before)
  }

  function AfterNodeRead(ph: Phase, s: CordonDrain): Phase {
    match ph
    case SweepRead(todo) =>
      if s.DrainedFor(DRAIN_FOR_UPGRADE) then SweepUncordon(todo)
      else if todo == [] then Rejected else Sweep(todo[1..])
    case AnaCordonRead(q, n, ds) =>
      if s.CordonedFor(CORDON_ANA_CHECK) then AnaVolumes(q, n, ds) else AnaCordonPut(q, n, ds)
    case AnaUncordonRead(q, n, verdict) =>
      if s.CordonedFor(CORDON_ANA_CHECK) then AnaUncordonDelete(q, n, verdict)
      else AfterAnaCheck(q, n, verdict)
    case DrainRead(q, n) =>
      if s.DrainingFor(DRAIN_FOR_UPGRADE) then ph
      else if s.DrainedFor(DRAIN_FOR_UPGRADE) then Restart(q, n, true)
      else DrainPut(q, n)
    case UncordonRead(q, n) =>
      if s.DrainedFor(DRAIN_FOR_UPGRADE) then UncordonDelete(q, n)
      else if q == [] then Rejected else NextPod(q[1..])
    case _ => Rejected
  }

  function AfterCall(cfg: Config, ph: Phase, w: World): Phase {
    match ph
    case Begin => Sweep(w.nodeListing)
    case SweepUncordon(todo) => SweepRead(todo)
    case ListOutdated =>
      var ps := Select(w.pods, Outdated(cfg.latestHash));
      if ps == [] then Done else CheckCore(ps)
    case CheckCore(q) => CheckRest(q, AllReady(Select(w.pods, OfApp(AgentCore))))
    case CheckRest(q, core) => CheckEtcd(q, core, AllReady(Select(w.pods, OfApp(ApiRest))))
    case CheckEtcd(q, core, rest) =>
      if !(core && rest && AllReady(Select(w.pods, OfApp(Etcd)))) then CheckCore(q)
      else if q == [] || NodeOf(q[0]).None? then Stopped
      else AwaitRebuild(q, NodeOf(q[0]).value, [])
    case AwaitRebuild(q, n, stale) =>
      var p := OnePass(w.volumes, stale, n);
      if !p.Quiet? then AwaitRebuild(q, n, p.stale)
      else if cfg.haEnabled then AnaList(q, n)
      else Restart(q, n, false)
    case AnaList(q, n) =>
      if w.anaDisabled == [] then DrainRead(q, n) else AnaCordonRead(q, n, w.anaDisabled)
    case AnaCordonPut(q, n, ds) => AnaVolumes(q, n, ds)
    case AnaVolumes(q, n, ds) => AnaUncordonRead(q, n, Some(AnaClear(ds, w.volumes, n)))
    case AnaUncordonDelete(q, n, verdict) => AfterAnaCheck(q, n, verdict)
    case DrainPut(q, n) => DrainRead(q, n)
    case Restart(q, n, _) => AwaitPod(q, n)
    case AwaitPod(q, n) =>
      var ps := Select(w.pods, LatestOn(cfg.latestHash, n));
      if ps == [] then ph
      else if |ps| != 1 then Stopped
      else if AllReady(ps) then UncordonRead(q, n)
      else ph
    case UncordonDelete(q, n) => UncordonRead(q, n)
    case _ => Rejected
  }

  // ---------------------------------------------------------------- runs

  type Log = seq<Call>

  function Run(cfg: Config, t: Log): Phase {
    if t == [] then Begin else Step(cfg, Run(cfg, t[..|t| - 1]), t[|t| - 1])
  }

  /** Logs of runs: every call is the one the protocol was about to make. */
  predicate Accepted(cfg: Config, t: Log) {
    !Run(cfg, t).Rejected?
  }

  /**
    The run whose log is `t` stands in phase `ph`: the same as `Run(cfg, t) == ph`. The
    quantifier over one value only keeps the verifier from unfolding the run.
   */
  ghost predicate At(cfg: Config, t: Log, ph: Phase) {
    forall s: Log :: s == t ==> Run(cfg, s) == ph
  }

  lemma {:induction false} RunExtends(cfg: Config, t: Log, c: Call)
    ensures Run(cfg, t + [c]) == Step(cfg, Run(cfg, t), c)
  {
    assert (t + [c])[..|t|] == t;
  }

  lemma {:induction false} AtExtends(cfg: Config, t: Log, ph: Phase, c: Call)
    requires At(cfg, t, ph)
    ensures At(cfg, t + [c], Step(cfg, ph, c))
  {
    RunExtends(cfg, t, c);
    assert Run(cfg, t) == ph;
  }

  lemma {:induction false} PrefixAccepted(cfg: Config, t: Log, i: nat)
    requires i <= |t| && Accepted(cfg, t)
    ensures Accepted(cfg, t[..i])
    decreases |t|
  {
    if i < |t| {
      PrefixAccepted(cfg, t[..|t| - 1], i);
      assert t[..|t| - 1][..i] == t[..i];
    } else {
      assert t[..i] == t;
    }
  }

  /** Each call of a run is the pending request of the phase it was made in. */
  lemma {:induction false} CallAt(cfg: Config, t: Log, i: nat)
    requires i < |t| && Accepted(cfg, t)
    ensures Accepted(cfg, t[..i])
    ensures NextRequest(cfg, Run(cfg, t[..i])) == Some(t[i].request) && Lawful(t[i])
    ensures Run(cfg, t[..i + 1]) == Step(cfg, Run(cfg, t[..i]), t[i])
  {
    PrefixAccepted(cfg, t, i);
    PrefixAccepted(cfg, t, i + 1);
    assert t[..i + 1] == t[..i] + [t[i]];
    RunExtends(cfg, t[..i], t[i]);
  }

  /** The phase in which the call at position `i` was made. */
  lemma {:induction false} PhaseAt(cfg: Config, t: Log, i: nat) returns (ph: Phase)
    requires i < |t| && Accepted(cfg, t)
    ensures At(cfg, t[..i], ph) && !ph.Rejected?
    ensures NextRequest(cfg, ph) == Some(t[i].request) && Lawful(t[i])
  {
    CallAt(cfg, t, i);
    ph := Run(cfg, t[..i]);
  }

  /** The last call of a run, and the phase it was made in. */
  lemma {:induction false} LastCall(cfg: Config, t: Log, ph: Phase) returns (ph0: Phase)
    requires t != [] && At(cfg, t, ph) && !ph.Rejected?
    ensures At(cfg, t[..|t| - 1], ph0) && !ph0.Rejected?
    ensures Step(cfg, ph0, t[|t| - 1]) == ph
    ensures NextRequest(cfg, ph0) == Some(t[|t| - 1].request) && Lawful(t[|t| - 1])
  {
    ph0 := Run(cfg, t[..|t| - 1]);
    assert Run(cfg, t) == ph;
  }
}
