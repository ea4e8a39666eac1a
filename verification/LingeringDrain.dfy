/**
  A drain that the next run does not take up may keep its label through that run. Every live
  cluster with such a drain has a run that restarts all outdated pods, returns Ok and leaves
  the label, while the others do no more than complete drains and bring up replacements.
 */
module LingeringDrain {
  import opened Wrappers
  import opened Cluster
  import opened Rebuild
  import opened Protocol
  import opened LabelOwnership
  import opened DrainInFlight

  // ---------------------------------------------------------------- repairs

  /** The others complete drains and bring up io-engine pods of the latest revision, and do nothing else. */
  predicate OnlyRepairs(cfg: Config, w: World, w': World) {
    && NodesSettle(w, w') && w'.volumes == w.volumes && w'.anaDisabled == w.anaDisabled
    && |w.pods| <= |w'.pods| && w'.pods[..|w.pods|] == w.pods
    && forall i :: |w.pods| <= i < |w'.pods| ==> w'.pods[i].app == IoEngine && w'.pods[i].revisionHash == Some(cfg.latestHash)
  }

  lemma {:induction false} NothingIsARepair(cfg: Config, w: World)
    ensures OnlyRepairs(cfg, w, w)
  {
    assert w.pods[..|w.pods|] == w.pods;
  }

  lemma {:induction false} RepairsAreQuiet(cfg: Config, w: World, w': World)
    requires OnlyRepairs(cfg, w, w')
    ensures QuietChange(cfg, w, w')
  {
    forall p | Outdated(cfg.latestHash).Selects(p) ensures p in w.pods <==> p in w'.pods {
      if p in w.pods {
        var i :| 0 <= i < |w.pods| && w.pods[i] == p;
        assert w'.pods[..|w.pods|][i] == w'.pods[i];
      }
      if p in w'.pods {
        var i :| 0 <= i < |w'.pods| && w'.pods[i] == p;
        assert i < |w.pods| ==> w'.pods[..|w.pods|][i] == w'.pods[i];
      }
    }
  }

  ghost predicate RepairsLog(cfg: Config, t: Log) {
    forall i :: 0 <= i < |t| - 1 ==> OnlyRepairs(cfg, t[i].after, t[i + 1].before)
  }

  lemma {:induction false} RepairsLogIsQuiet(cfg: Config, t: Log)
    requires RepairsLog(cfg, t)
    ensures QuietLog(cfg, t)
  {
    forall i | 0 <= i < |t| - 1 ensures QuietChange(cfg, t[i].after, t[i + 1].before) {
      RepairsAreQuiet(cfg, t[i].after, t[i + 1].before);
    }
  }

  // ---------------------------------------------------------------- runs that go on

  /** A run from `w0` whose log is `t` stands in phase `ph`, in a cluster that is now `w`. */
  ghost predicate Standing(cfg: Config, w0: World, t: Log, ph: Phase, w: World) {
    t != [] && t[0].before == w0 && RepairsLog(cfg, t) && At(cfg, t, ph) && t[|t| - 1].after == w
  }

  /** The next call succeeds, in a cluster that the others have repaired to `now`. */
  lemma {:induction false} Proceed(cfg: Config, w0: World, t: Log, ph: Phase, w: World, now: World, q: Request) returns (t': Log)
    requires Standing(cfg, w0, t, ph, w) && OnlyRepairs(cfg, w, now) && NextRequest(cfg, ph) == Some(q) && Servable(now, q)
    ensures Standing(cfg, w0, t', Step(cfg, ph, Call(now, q, true, Effect(now, q))), Effect(now, q))
  {
    var c := Call(now, q, true, Effect(now, q));
    t' := t + [c];
    AtExtends(cfg, t, ph, c);
    forall i | 0 <= i < |t'| - 1 ensures OnlyRepairs(cfg, t'[i].after, t'[i + 1].before) {
      if i + 1 < |t| {
        assert OnlyRepairs(cfg, t[i].after, t[i + 1].before);
      }
    }
  }

  lemma {:induction false} ReadNode(cfg: Config, w0: World, t: Log, ph: Phase, w: World, now: World, n: NodeId) returns (t': Log)
    requires Standing(cfg, w0, t, ph, w) && OnlyRepairs(cfg, w, now) && NextRequest(cfg, ph) == Some(GetNode(n)) && now.HasState(n)
    ensures Standing(cfg, w0, t', AfterNodeRead(ph, now.State(n)), now)
  {
    t' := Proceed(cfg, w0, t, ph, w, now, GetNode(n));
  }

  lemma {:induction false} Ask(cfg: Config, w0: World, t: Log, ph: Phase, w: World, now: World, q: Request) returns (t': Log)
    requires Standing(cfg, w0, t, ph, w) && OnlyRepairs(cfg, w, now) && NextRequest(cfg, ph) == Some(q) && Servable(now, q)
    requires !q.GetNode?
    ensures Standing(cfg, w0, t', AfterCall(cfg, ph, now), Effect(now, q))
  {
    t' := Proceed(cfg, w0, t, ph, w, now, q);
  }

  // ---------------------------------------------------------------- live clusters

  predicate IsControlPlane(a: App) {
    a == AgentCore || a == ApiRest || a == Etcd
  }

  /** The control plane is ready, names are unique, and an outdated pod is the only io-engine pod of a known node. */
  predicate PodsReady(cfg: Config, ps: seq<Pod>, nodes: set<NodeId>) {
    && (forall p :: p in ps && IsControlPlane(p.app) ==> PassesReadiness(p))
    && (forall p, q :: p in ps && q in ps && p.name == q.name ==> p == q)
    && (forall p :: p in ps && Outdated(cfg.latestHash).Selects(p) ==> NodeOf(p).Some? && NodeOf(p).value in nodes)
    && (forall p, q :: p in ps && q in ps && Outdated(cfg.latestHash).Selects(p) && q.app == IoEngine && NodeOf(q) == NodeOf(p) ==>
          q == p)
  }

  ghost predicate NodesReady(w: World) {
    && (forall n :: n in w.nodes <==> n in w.nodeListing)
    && (forall n :: n in w.nodes ==> w.nodes[n].spec.Some?)
  }

  /** A cluster in which nothing stands in the way of the upgrade. */
  ghost predicate Live(cfg: Config, w: World) {
    NodesReady(w) && PodsReady(cfg, w.pods, w.nodes.Keys) && forall v :: v in w.volumes ==> !Unhealthy(v)
  }

  /** `m` is draining under the label, and the run will not take it up. */
  ghost predicate Lingers(cfg: Config, w: World, m: NodeId) {
    Live(cfg, w) && InFlight(w, m) && !TakenUp(cfg, w, m)
  }

  /** A node changes its state, but not the one that lingers. */
  lemma {:induction false} StateChangeKeepsLingering(cfg: Config, w: World, m: NodeId, n: NodeId, s: CordonDrain)
    requires Lingers(cfg, w, m) && n in w.nodes && (n == m ==> s.DrainingFor(DRAIN_FOR_UPGRADE))
    ensures Lingers(cfg, w.WithState(n, s), m)
  {
    var w' := w.WithState(n, s);
    assert w'.nodes.Keys == w.nodes.Keys;
    assert Spots(cfg, w') == Spots(cfg, w);
  }

  // ---------------------------------------------------------------- uncordon and sweep

  ghost predicate Uncordoning(ph: Phase, n: NodeId) {
    || (ph.SweepRead? && ph.todo != [] && ph.todo[0] == n)
    || (ph.UncordonRead? && ph.queue != [] && ph.node == n)
  }

  ghost function Uncordoned(ph: Phase): Phase
    requires (ph.SweepRead? && ph.todo != []) || (ph.UncordonRead? && ph.queue != [])
  {
    if ph.SweepRead? then Sweep(ph.todo[1..]) else NextPod(ph.queue[1..])
  }

  lemma {:induction false} UncordonReads(ph: Phase, n: NodeId, s: CordonDrain)
    requires Uncordoning(ph, n)
    ensures AfterNodeRead(ph, s) ==
            if !s.DrainedFor(DRAIN_FOR_UPGRADE) then Uncordoned(ph)
            else if ph.SweepRead? then SweepUncordon(ph.todo) else UncordonDelete(ph.queue, ph.node)
  {
  }

  lemma {:induction false} UncordonCompletes(cfg: Config, w0: World, t: Log, ph: Phase, w: World, n: NodeId, m: NodeId)
    returns (t': Log, w': World)
    requires Standing(cfg, w0, t, ph, w) && Uncordoning(ph, n) && Lingers(cfg, w, m) && n in w.nodes
    ensures Standing(cfg, w0, t', Uncordoned(ph), w') && Lingers(cfg, w', m)
    ensures w'.pods == w.pods && w'.nodes.Keys == w.nodes.Keys && w'.nodeListing == w.nodeListing
  {
    var s := w.State(n);
    NothingIsARepair(cfg, w);
    t' := ReadNode(cfg, w0, t, ph, w, w, n);
    UncordonReads(ph, n, s);
    w' := w;
    if s.DrainedFor(DRAIN_FOR_UPGRADE) {
      var s' := s.Remove(DRAIN_FOR_UPGRADE);
      var removing := if ph.SweepRead? then SweepUncordon(ph.todo) else UncordonDelete(ph.queue, ph.node);
      t' := Ask(cfg, w0, t', removing, w, w, DeleteCordon(n, DRAIN_FOR_UPGRADE));
      w' := w.WithState(n, s');
      StateChangeKeepsLingering(cfg, w, m, n, s');
      NothingIsARepair(cfg, w');
      t' := ReadNode(cfg, w0, t', ph, w', w', n);
      UncordonReads(ph, n, s');
    }
  }

  lemma {:induction false} SweepCompletes(cfg: Config, w0: World, t: Log, todo: seq<NodeId>, w: World, m: NodeId)
    returns (t': Log, w': World)
    requires Standing(cfg, w0, t, Sweep(todo), w) && Lingers(cfg, w, m) && forall n :: n in todo ==> n in w.nodes
    ensures Standing(cfg, w0, t', ListOutdated, w') && Lingers(cfg, w', m) && w'.pods == w.pods
    decreases |todo|
  {
    if todo == [] {
      t', w' := t, w;
    } else {
      t', w' := UncordonCompletes(cfg, w0, t, SweepRead(todo), w, todo[0], m);
      t', w' := SweepCompletes(cfg, w0, t', todo[1..], w', m);
    }
  }

  // ---------------------------------------------------------------- checks before the restart

  lemma {:induction false} ControlPlanePasses(cfg: Config, w: World, a: App)
    requires Live(cfg, w) && IsControlPlane(a)
    ensures AllReady(Select(w.pods, OfApp(a)))
  {
  }

  lemma {:induction false} HealthyVolumesAreQuiet(vs: seq<Volume>, n: NodeId)
    requires forall v :: v in vs ==> !Unhealthy(v)
    ensures OnePass(vs, [], n) == Quiet([])
  {
    var us := UnhealthyExcept(vs, []);
    assert forall i :: 0 <= i < |us| ==> us[i] in us;
  }

  lemma {:induction false} ChecksPass(cfg: Config, w0: World, t: Log, q: seq<Pod>, w: World, n: NodeId) returns (t': Log)
    requires Standing(cfg, w0, t, CheckCore(q), w) && Live(cfg, w) && q != [] && NodeOf(q[0]) == Some(n)
    ensures Standing(cfg, w0, t', if cfg.haEnabled then AnaList(q, n) else Restart(q, n, false), w)
  {
    NothingIsARepair(cfg, w);
    ControlPlanePasses(cfg, w, AgentCore);
    ControlPlanePasses(cfg, w, ApiRest);
    ControlPlanePasses(cfg, w, Etcd);
    HealthyVolumesAreQuiet(w.volumes, n);
    t' := Ask(cfg, w0, t, CheckCore(q), w, w, ListPods(OfApp(AgentCore)));
    t' := Ask(cfg, w0, t', CheckRest(q, true), w, w, ListPods(OfApp(ApiRest)));
    t' := Ask(cfg, w0, t', CheckEtcd(q, true, true), w, w, ListPods(OfApp(Etcd)));
    t' := Ask(cfg, w0, t', AwaitRebuild(q, n, []), w, w, GetVolumes);
  }

  /** Two clusters that differ in the labels of nodes only. */
  predicate SameButLabels(w: World, w': World) {
    && w'.pods == w.pods && w'.volumes == w.volumes && w'.anaDisabled == w.anaDisabled
    && w'.nodes.Keys == w.nodes.Keys && w'.nodeListing == w.nodeListing
  }

  lemma {:induction false} CheckCordons(cfg: Config, w0: World, t: Log, q: seq<Pod>, w: World, n: NodeId, m: NodeId)
    returns (t': Log, w': World)
    requires Standing(cfg, w0, t, AnaCordonRead(q, n, w.anaDisabled), w) && Lingers(cfg, w, m) && n in w.nodes
    ensures Standing(cfg, w0, t', AnaVolumes(q, n, w.anaDisabled), w') && Lingers(cfg, w', m) && SameButLabels(w, w')
  {
    var s := w.State(n);
    NothingIsARepair(cfg, w);
    t' := ReadNode(cfg, w0, t, AnaCordonRead(q, n, w.anaDisabled), w, w, n);
    w' := w;
    if !s.CordonedFor(CORDON_ANA_CHECK) {
      t' := Ask(cfg, w0, t', AnaCordonPut(q, n, w.anaDisabled), w, w, PutCordon(n, CORDON_ANA_CHECK));
      w' := w.WithState(n, s.AddCordon(CORDON_ANA_CHECK));
      StateChangeKeepsLingering(cfg, w, m, n, s.AddCordon(CORDON_ANA_CHECK));
    }
  }

  lemma {:induction false} CheckUncordons(cfg: Config, w0: World, t: Log, q: seq<Pod>, w: World, n: NodeId, m: NodeId, v: bool)
    returns (t': Log, w': World)
    requires Standing(cfg, w0, t, AnaUncordonRead(q, n, Some(v)), w) && Lingers(cfg, w, m) && n in w.nodes
    ensures Standing(cfg, w0, t', if v then DrainRead(q, n) else Restart(q, n, false), w')
    ensures Lingers(cfg, w', m) && SameButLabels(w, w')
  {
    var s := w.State(n);
    NothingIsARepair(cfg, w);
    t' := ReadNode(cfg, w0, t, AnaUncordonRead(q, n, Some(v)), w, w, n);
    w' := w;
    if s.CordonedFor(CORDON_ANA_CHECK) {
      t' := Ask(cfg, w0, t', AnaUncordonDelete(q, n, Some(v)), w, w, DeleteCordon(n, CORDON_ANA_CHECK));
      w' := w.WithState(n, s.Remove(CORDON_ANA_CHECK));
      StateChangeKeepsLingering(cfg, w, m, n, s.Remove(CORDON_ANA_CHECK));
    }
  }

  lemma {:induction false} DecisionFalls(cfg: Config, w0: World, t: Log, q: seq<Pod>, w: World, n: NodeId, m: NodeId)
    returns (t': Log, w': World)
    requires Standing(cfg, w0, t, AnaList(q, n), w) && Lingers(cfg, w, m) && n in w.nodes
    ensures Standing(cfg, w0, t', if AnaClear(w.anaDisabled, w.volumes, n) then DrainRead(q, n) else Restart(q, n, false), w')
    ensures Lingers(cfg, w', m) && SameButLabels(w, w')
  {
    NothingIsARepair(cfg, w);
    t' := Ask(cfg, w0, t, AnaList(q, n), w, w, ListAnaDisabled);
    w' := w;
    if w.anaDisabled != [] {
      t', w' := CheckCordons(cfg, w0, t', q, w, n, m);
      NothingIsARepair(cfg, w');
      t' := Ask(cfg, w0, t', AnaVolumes(q, n, w.anaDisabled), w', w', GetVolumes);
      t', w' := CheckUncordons(cfg, w0, t', q, w', n, m, AnaClear(w.anaDisabled, w.volumes, n));
    }
  }

  // ---------------------------------------------------------------- drain

  /** The cluster once the drain of `n`, if there is one, has completed. */
  function DrainCompleted(w: World, n: NodeId): World
    requires w.HasState(n)
  {
    var s := w.State(n);
    if s.Draining? then w.WithState(n, Drained(s.cordon, s.drain)) else w
  }

  lemma {:induction false} DrainMayComplete(cfg: Config, w: World, n: NodeId, m: NodeId)
    requires Lingers(cfg, w, m) && n in w.nodes && n != m
    ensures var w' := DrainCompleted(w, n);
            && OnlyRepairs(cfg, w, w') && Lingers(cfg, w', m) && w'.HasState(n) && SameButLabels(w, w')
            && (w'.State(n).DrainedFor(DRAIN_FOR_UPGRADE) <==> Labelled(w, n)) && !w'.State(n).Draining?
  {
    NothingIsARepair(cfg, w);
    var s := w.State(n);
    if s.Draining? {
      StateChangeKeepsLingering(cfg, w, m, n, Drained(s.cordon, s.drain));
      assert DrainCompleted(w, n).pods[..|w.pods|] == w.pods;
    }
  }

  /** From a read that finds the drain completed. */
  lemma {:induction false} DrainIsSeen(cfg: Config, w0: World, t: Log, q: seq<Pod>, w: World, n: NodeId, m: NodeId)
    returns (t': Log, w': World)
    requires Standing(cfg, w0, t, DrainRead(q, n), w) && Lingers(cfg, w, m) && n in w.nodes && n != m && Labelled(w, n)
    ensures Standing(cfg, w0, t', Restart(q, n, true), w') && Lingers(cfg, w', m) && SameButLabels(w, w')
  {
    DrainMayComplete(cfg, w, n, m);
    w' := DrainCompleted(w, n);
    t' := ReadNode(cfg, w0, t, DrainRead(q, n), w, w', n);
  }

  lemma {:induction false} DrainIsRequested(cfg: Config, w0: World, t: Log, q: seq<Pod>, w: World, n: NodeId, m: NodeId)
    returns (t': Log, w': World)
    requires Standing(cfg, w0, t, DrainRead(q, n), w) && Lingers(cfg, w, m) && n in w.nodes && n != m && !Labelled(w, n)
    ensures Standing(cfg, w0, t', DrainRead(q, n), w') && Lingers(cfg, w', m) && SameButLabels(w, w') && Labelled(w', n)
  {
    var s := w.State(n);
    NothingIsARepair(cfg, w);
    t' := ReadNode(cfg, w0, t, DrainRead(q, n), w, w, n);
    t' := Ask(cfg, w0, t', DrainPut(q, n), w, w, PutDrain(n, DRAIN_FOR_UPGRADE));
    w' := w.WithState(n, s.AddDrain(DRAIN_FOR_UPGRADE));
    StateChangeKeepsLingering(cfg, w, m, n, s.AddDrain(DRAIN_FOR_UPGRADE));
  }

  lemma {:induction false} DrainCompletes(cfg: Config, w0: World, t: Log, q: seq<Pod>, w: World, n: NodeId, m: NodeId)
    returns (t': Log, w': World)
    requires Standing(cfg, w0, t, DrainRead(q, n), w) && Lingers(cfg, w, m) && n in w.nodes && n != m
    ensures Standing(cfg, w0, t', Restart(q, n, true), w') && Lingers(cfg, w', m) && SameButLabels(w, w')
  {
    t', w' := t, w;
    if !Labelled(w, n) {
      t', w' := DrainIsRequested(cfg, w0, t, q, w, n, m);
    }
    t', w' := DrainIsSeen(cfg, w0, t', q, w', n, m);
  }

  // ---------------------------------------------------------------- restart

  /** All names one after the other, which no single one is as long as. */
  function AllNames(ps: seq<Pod>): (s: string)
    ensures forall p :: p in ps ==> |p.name| <= |s|
  {
    if ps == [] then "" else ps[0].name + AllNames(ps[1..])
  }

  function NewPod(cfg: Config, ps: seq<Pod>, n: NodeId): (r: Pod)
    ensures forall p :: p in ps ==> p.name != r.name
  {
    var name := AllNames(ps) + "x";
    assert forall p :: p in ps ==> |p.name| < |name|;
    Pod(name, IoEngine, Some(cfg.latestHash), Some(PodSpec(Some(n))), Some([Condition("Ready", "True")]))
  }

  lemma {:induction false} NewPodPasses(cfg: Config, ps: seq<Pod>, n: NodeId)
    ensures AllReady([NewPod(cfg, ps, n)]) && LatestOn(cfg.latestHash, n).Selects(NewPod(cfg, ps, n))
  {
  }

  lemma {:induction false} SelectLast(ps: seq<Pod>, r: Pod, s: PodSelector)
    requires s.Selects(r) && forall p :: p in ps ==> !s.Selects(p)
    ensures Select(ps + [r], s) == [r]
    decreases |ps|
  {
    if ps == [] {
      assert ps + [r] == [r] && [r][1..] == [];
      assert Select([r][1..], s) == [];
    } else {
      assert (ps + [r])[1..] == ps[1..] + [r] && (ps + [r])[0] == ps[0];
      SelectLast(ps[1..], r, s);
    }
  }

  predicate NoEngineOn(ps: seq<Pod>, n: NodeId) {
    forall p :: p in ps && p.app == IoEngine ==> NodeOf(p) != Some(n)
  }

  /** What is left of the outdated pods once `gone` is deleted. */
  ghost predicate OneLess(cfg: Config, ps: seq<Pod>, ps': seq<Pod>, gone: Pod) {
    forall p :: Outdated(cfg.latestHash).Selects(p) ==> (p in ps' <==> p in ps && p != gone)
  }

  lemma {:induction false} PodsAfterDeletion(cfg: Config, ps: seq<Pod>, nodes: set<NodeId>, gone: Pod, n: NodeId)
    requires PodsReady(cfg, ps, nodes) && gone in ps && Outdated(cfg.latestHash).Selects(gone) && NodeOf(gone) == Some(n)
    ensures var ps' := WithoutPod(ps, gone.name);
            PodsReady(cfg, ps', nodes) && NoEngineOn(ps', n) && OneLess(cfg, ps, ps', gone)
  {
  }

  lemma {:induction false} PodsAfterReplacement(cfg: Config, ps: seq<Pod>, nodes: set<NodeId>, n: NodeId)
    requires PodsReady(cfg, ps, nodes) && NoEngineOn(ps, n)
    ensures var r := NewPod(cfg, ps, n);
            && PodsReady(cfg, ps + [r], nodes)
            && forall p :: Outdated(cfg.latestHash).Selects(p) ==> (p in ps + [r] <==> p in ps)
  {
    var r := NewPod(cfg, ps, n);
    assert forall p :: p in ps + [r] <==> p in ps || p == r;
    assert !Outdated(cfg.latestHash).Selects(r);
  }

  /** Pods come and go; the node that lingers does not gain an outdated one. */
  lemma {:induction false} PodChangeKeepsLingering(cfg: Config, w: World, m: NodeId, ps: seq<Pod>)
    requires Lingers(cfg, w, m) && PodsReady(cfg, ps, w.nodes.Keys)
    requires forall p :: p in ps && Outdated(cfg.latestHash).Selects(p) ==> p in w.pods
    ensures Lingers(cfg, w.(pods := ps), m)
  {
    var w' := w.(pods := ps);
    if name :| (name, Some(m)) in Spots(cfg, w') {
      assert (name, Some(m)) in Spots(cfg, w);
    }
  }

  /** The cluster without an outdated pod. */
  lemma {:induction false} LingersWithout(cfg: Config, w: World, m: NodeId, gone: Pod, n: NodeId)
    requires Lingers(cfg, w, m) && gone in w.pods && Outdated(cfg.latestHash).Selects(gone) && NodeOf(gone) == Some(n)
    ensures var w' := w.(pods := WithoutPod(w.pods, gone.name));
            Lingers(cfg, w', m) && NoEngineOn(w'.pods, n) && OneLess(cfg, w.pods, w'.pods, gone)
  {
    PodsAfterDeletion(cfg, w.pods, w.nodes.Keys, gone, n);
    PodChangeKeepsLingering(cfg, w, m, WithoutPod(w.pods, gone.name));
  }

  /** The cluster with a replacement. */
  function WithReplacement(cfg: Config, w: World, n: NodeId): World {
    w.(pods := w.pods + [NewPod(cfg, w.pods, n)])
  }

  lemma {:induction false} LingersWithReplacement(cfg: Config, w: World, m: NodeId, n: NodeId)
    requires Lingers(cfg, w, m) && NoEngineOn(w.pods, n)
    ensures var w' := WithReplacement(cfg, w, n);
            Lingers(cfg, w', m) && forall p :: Outdated(cfg.latestHash).Selects(p) ==> (p in w'.pods <==> p in w.pods)
  {
    PodsAfterReplacement(cfg, w.pods, w.nodes.Keys, n);
    PodChangeKeepsLingering(cfg, w, m, w.pods + [NewPod(cfg, w.pods, n)]);
  }

  lemma {:induction false} ReplacementIsARepair(cfg: Config, w: World, n: NodeId)
    ensures OnlyRepairs(cfg, w, WithReplacement(cfg, w, n))
  {
    assert WithReplacement(cfg, w, n).pods[..|w.pods|] == w.pods;
  }

  lemma {:induction false} ReplacementIsEnough(cfg: Config, q: seq<Pod>, n: NodeId, w: World)
    requires NoEngineOn(w.pods, n)
    ensures AfterCall(cfg, AwaitPod(q, n), WithReplacement(cfg, w, n)) == UncordonRead(q, n)
  {
    NewPodPasses(cfg, w.pods, n);
    SelectLast(w.pods, NewPod(cfg, w.pods, n), LatestOn(cfg.latestHash, n));
  }

  /** The pod at the head of the queue is deleted. */
  lemma {:induction false} PodIsDeleted(cfg: Config, w0: World, t: Log, q: seq<Pod>, drained: bool, w: World, n: NodeId) returns (t': Log)
    requires Standing(cfg, w0, t, Restart(q, n, drained), w) && q != [] && q[0] in w.pods
    ensures Standing(cfg, w0, t', AwaitPod(q, n), w.(pods := WithoutPod(w.pods, q[0].name)))
  {
    NothingIsARepair(cfg, w);
    t' := Ask(cfg, w0, t, Restart(q, n, drained), w, w, DeletePod(q[0].name, n));
  }

  /** Its replacement comes up, and is seen. */
  lemma {:induction false} ReplacementComesUp(cfg: Config, w0: World, t: Log, q: seq<Pod>, w: World, n: NodeId) returns (t': Log)
    requires Standing(cfg, w0, t, AwaitPod(q, n), w) && NoEngineOn(w.pods, n)
    ensures Standing(cfg, w0, t', UncordonRead(q, n), WithReplacement(cfg, w, n))
  {
    ReplacementIsARepair(cfg, w, n);
    ReplacementIsEnough(cfg, q, n, w);
    t' := Ask(cfg, w0, t, AwaitPod(q, n), w, WithReplacement(cfg, w, n), ListPods(LatestOn(cfg.latestHash, n)));
  }

  lemma {:induction false} PodIsReplaced(cfg: Config, w0: World, t: Log, q: seq<Pod>, drained: bool, w: World, n: NodeId, m: NodeId)
    returns (t': Log, w': World)
    requires Standing(cfg, w0, t, Restart(q, n, drained), w) && Lingers(cfg, w, m) && q != [] && q[0] in w.pods
    requires Outdated(cfg.latestHash).Selects(q[0]) && NodeOf(q[0]) == Some(n)
    ensures Standing(cfg, w0, t', UncordonRead(q, n), w') && Lingers(cfg, w', m) && w'.nodes == w.nodes
    ensures OneLess(cfg, w.pods, w'.pods, q[0])
  {
    var w1 := w.(pods := WithoutPod(w.pods, q[0].name));
    LingersWithout(cfg, w, m, q[0], n);
    LingersWithReplacement(cfg, w1, m, n);
    w' := WithReplacement(cfg, w1, n);
    t' := PodIsDeleted(cfg, w0, t, q, drained, w, n);
    t' := ReplacementComesUp(cfg, w0, t', q, w1, n);
  }

  // ---------------------------------------------------------------- the loop over the pods

  /** `q` are the outdated pods of `w`, each of them once. */
  ghost predicate Left(cfg: Config, w: World, q: seq<Pod>) {
    && (forall p :: p in q <==> p in w.pods && Outdated(cfg.latestHash).Selects(p))
    && (forall i, j :: 0 <= i < j < |q| ==> q[i] != q[j])
  }

  lemma {:induction false} OneLessLeft(cfg: Config, w: World, w': World, q: seq<Pod>)
    requires Left(cfg, w, q) && q != [] && OneLess(cfg, w.pods, w'.pods, q[0])
    ensures Left(cfg, w', q[1..])
  {
    forall p ensures p in q[1..] <==> p in q && p != q[0] {
      if p in q && p != q[0] {
        var i :| 0 <= i < |q| && q[i] == p;
        assert q[1..][i - 1] == p;
      }
    }
    forall p ensures p in q[1..] <==> p in w'.pods && Outdated(cfg.latestHash).Selects(p) {
    }
  }

  /** From the checks to the deletion: the node is drained, unless the run decides against it. */
  lemma {:induction false} PodIsPrepared(cfg: Config, w0: World, t: Log, q: seq<Pod>, w: World, n: NodeId, m: NodeId)
    returns (t': Log, w': World, drained: bool)
    requires Standing(cfg, w0, t, CheckCore(q), w) && Lingers(cfg, w, m) && q != [] && q[0] in w.pods
    requires Outdated(cfg.latestHash).Selects(q[0]) && NodeOf(q[0]) == Some(n) && n in w.nodes
    ensures Standing(cfg, w0, t', Restart(q, n, drained), w') && Lingers(cfg, w', m) && SameButLabels(w, w')
  {
    t' := ChecksPass(cfg, w0, t, q, w, n);
    w', drained := w, false;
    if cfg.haEnabled {
      t', w' := DecisionFalls(cfg, w0, t', q, w, n, m);
      if AnaClear(w.anaDisabled, w.volumes, n) {
        assert (q[0].name, Some(n)) in Spots(cfg, w);
        assert n != m;
        t', w' := DrainCompletes(cfg, w0, t', q, w', n, m);
        drained := true;
      }
    }
  }

  lemma {:induction false} PodIsUpgraded(cfg: Config, w0: World, t: Log, q: seq<Pod>, w: World, m: NodeId)
    returns (t': Log, w': World)
    requires Standing(cfg, w0, t, CheckCore(q), w) && Lingers(cfg, w, m) && q != [] && Left(cfg, w, q)
    ensures Standing(cfg, w0, t', NextPod(q[1..]), w') && Lingers(cfg, w', m) && Left(cfg, w', q[1..])
  {
    assert q[0] in q;
    var n := NodeOf(q[0]).value;
    var drained;
    t', w', drained := PodIsPrepared(cfg, w0, t, q, w, n, m);
    var w1 := w';
    t', w' := PodIsReplaced(cfg, w0, t', q, drained, w1, n, m);
    OneLessLeft(cfg, w, w', q);
    var w2 := w';
    t', w' := UncordonCompletes(cfg, w0, t', UncordonRead(q, n), w2, n, m);
    assert Left(cfg, w', q[1..]);
  }

  lemma {:induction false} EmptyIff(ps: seq<Pod>)
    ensures ps == [] <==> forall p :: p !in ps
  {
    if ps != [] {
      assert ps[0] in ps;
    }
  }

  lemma {:induction false} ListingIsEmpty(cfg: Config, w: World)
    requires Left(cfg, w, [])
    ensures Select(w.pods, Outdated(cfg.latestHash)) == []
  {
    EmptyIff(Select(w.pods, Outdated(cfg.latestHash)));
    assert forall p: Pod :: p !in [];
  }

  lemma {:induction false} PodsAreUpgraded(cfg: Config, w0: World, t: Log, q: seq<Pod>, w: World, m: NodeId)
    returns (t': Log, w': World)
    requires Standing(cfg, w0, t, NextPod(q), w) && Lingers(cfg, w, m) && Left(cfg, w, q)
    ensures Standing(cfg, w0, t', Done, w') && Lingers(cfg, w', m) && Left(cfg, w', [])
    decreases |q|
  {
    if q == [] {
      ListingIsEmpty(cfg, w);
      NothingIsARepair(cfg, w);
      t' := Ask(cfg, w0, t, ListOutdated, w, w, ListPods(Outdated(cfg.latestHash)));
      w' := w;
    } else {
      t', w' := PodIsUpgraded(cfg, w0, t, q, w, m);
      t', w' := PodsAreUpgraded(cfg, w0, t', q[1..], w', m);
    }
  }

  // ---------------------------------------------------------------- the whole run

  predicate UniqueNames(ps: seq<Pod>) {
    forall i, j :: 0 <= i < j < |ps| ==> ps[i].name != ps[j].name
  }

  lemma {:induction false} SelectedOnce(ps: seq<Pod>, s: PodSelector)
    requires UniqueNames(ps)
    ensures forall i, j :: 0 <= i < j < |Select(ps, s)| ==> Select(ps, s)[i] != Select(ps, s)[j]
    decreases |ps|
  {
    if ps != [] {
      var rest := Select(ps[1..], s);
      SelectedOnce(ps[1..], s);
      assert ps[0] !in ps[1..];
      assert forall j :: 0 <= j < |rest| ==> rest[j] in rest;
    }
  }

  lemma {:induction false} RunStarts(cfg: Config, w: World) returns (t: Log)
    ensures Standing(cfg, w, t, Sweep(w.nodeListing), w)
  {
    var c := Call(w, GetNodes, true, w);
    t := [c];
    RunExtends(cfg, [], c);
    assert [] + [c] == t && Run(cfg, []) == Begin;
    assert Step(cfg, Begin, c) == Sweep(w.nodeListing);
  }

  lemma {:induction false} QueueIsListed(cfg: Config, w: World, q: seq<Pod>)
    requires UniqueNames(w.pods) && q == Select(w.pods, Outdated(cfg.latestHash))
    ensures Left(cfg, w, q)
  {
    SelectedOnce(w.pods, Outdated(cfg.latestHash));
  }

  lemma {:induction false} LingeringRun(cfg: Config, w: World, m: NodeId) returns (t: Log, w': World)
    requires Lingers(cfg, w, m) && UniqueNames(w.pods)
    ensures Standing(cfg, w, t, Done, w') && Lingers(cfg, w', m) && Left(cfg, w', [])
  {
    t := RunStarts(cfg, w);
    t, w' := SweepCompletes(cfg, w, t, w.nodeListing, w, m);
    var w1 := w';
    var q := Select(w1.pods, Outdated(cfg.latestHash));
    QueueIsListed(cfg, w1, q);
    NothingIsARepair(cfg, w1);
    t := Ask(cfg, w, t, ListOutdated, w1, w1, ListPods(Outdated(cfg.latestHash)));
    if q != [] {
      t, w' := PodsAreUpgraded(cfg, w, t, q, w1, m);
    }
  }

  /** An outdated pod that is there at first and not in the end was deleted by the run. */
  lemma {:induction false} LostPodWasDeleted(cfg: Config, t: Log, s: (string, Option<NodeId>)) returns (i: nat)
    requires t != [] && QuietLog(cfg, t) && forall k :: 0 <= k < |t| ==> Lawful(t[k])
    requires s in Spots(cfg, t[0].before) && s !in Spots(cfg, t[|t| - 1].after)
    ensures i < |t| && t[i].request.DeletePod? && t[i].request.name == s.0
    decreases |t|
  {
    var n := |t| - 1;
    SpotsAfterCall(cfg, t[n]);
    if s in Spots(cfg, t[n].before) {
      i := n;
    } else {
      assert n > 0 && QuietChange(cfg, t[n - 1].after, t[n - 1 + 1].before);
      assert forall k :: 0 <= k < n ==> t[..n][k] == t[k];
      i := LostPodWasDeleted(cfg, t[..n], s);
    }
  }

  /** The run `t` restarts every pod that is outdated in `w`. */
  ghost predicate RestartsAll(cfg: Config, w: World, t: Log) {
    forall p :: p in w.pods && Outdated(cfg.latestHash).Selects(p) ==>
      exists i :: 0 <= i < |t| && t[i].request.DeletePod? && t[i].request.name == p.name
  }

  /**
    In every live cluster with a drain in flight that the next run does not take up, there is
    such a run which restarts every outdated pod and returns Ok, in the course of which the
    others only complete drains and bring up replacements, and after which the node still has
    the label.
   */
  lemma {:induction false} DrainMayLinger(cfg: Config, w: World, m: NodeId) returns (t: Log)
    requires Live(cfg, w) && UniqueNames(w.pods) && InFlight(w, m) && !TakenUp(cfg, w, m)
    ensures QuietRunFrom(cfg, w, t) && RepairsLog(cfg, t) && RestartsAll(cfg, w, t) && Labelled(t[|t| - 1].after, m)
  {
    var w';
    t, w' := LingeringRun(cfg, w, m);
    RepairsLogIsQuiet(cfg, t);
    assert Run(cfg, t) == Done;
    forall k | 0 <= k < |t| ensures Lawful(t[k]) {
      CallAt(cfg, t, k);
    }
    forall p | p in w.pods && Outdated(cfg.latestHash).Selects(p)
      ensures exists i :: 0 <= i < |t| && t[i].request.DeletePod? && t[i].request.name == p.name
    {
      assert (p.name, NodeOf(p)) in Spots(cfg, w);
      var i := LostPodWasDeleted(cfg, t, (p.name, NodeOf(p)));
    }
  }

  lemma {:induction false} LiveIsWellFormed(cfg: Config, w: World)
    requires Live(cfg, w)
    ensures WellFormed(cfg, w)
  {
  }

  /**
    When a run that returns Ok is sure to leave no drain label behind in a live, quiet
    cluster: exactly when it takes up every drain that was in flight as it started, that is,
    HA is on, the draining node has an outdated pod, and no ANA-disabled node is a frontend
    of a volume targeted at it.
   */
  lemma {:induction false} CleanUpIsCompleteIffAllTakenUp(cfg: Config, w: World)
    requires Live(cfg, w) && UniqueNames(w.pods)
    ensures (forall t: Log :: QuietRunFrom(cfg, w, t) ==> NoLabel(t[|t| - 1].after)) <==> AllTakenUp(cfg, w)
  {
    if AllTakenUp(cfg, w) {
      LiveIsWellFormed(cfg, w);
      forall t: Log | QuietRunFrom(cfg, w, t) ensures NoLabel(t[|t| - 1].after) {
        TakenUpDrainsAreFinished(cfg, w, t);
      }
    } else {
      var m :| InFlight(w, m) && !TakenUp(cfg, w, m);
      var t := DrainMayLinger(cfg, w, m);
      assert QuietRunFrom(cfg, w, t) && Labelled(t[|t| - 1].after, m);
    }
  }

  // ---------------------------------------------------------------- one such cluster

  function EnginePod(name: string, revision: string, n: NodeId): Pod {
    Pod(name, IoEngine, Some(revision), Some(PodSpec(Some(n))), Some([Condition("Ready", "True")]))
  }

  /** Node "a" was left draining when its pod had been restarted; the pod of node "b" is still outdated. */
  function Example(): World {
    World(map["a" := StorageNode(Some(Draining({}, {DRAIN_FOR_UPGRADE}))), "b" := StorageNode(Some(Open))],
          ["a", "b"], [], [EnginePod("engine-1", "new", "a"), EnginePod("engine-22", "old", "b")], [])
  }

  lemma {:induction false} ExamplePods(cfg: Config, w: World, p: Pod)
    requires cfg.latestHash == "new" && w == Example()
    ensures p in w.pods ==> p == EnginePod("engine-1", "new", "a") || p == EnginePod("engine-22", "old", "b")
    ensures p in w.pods ==> (Outdated(cfg.latestHash).Selects(p) <==> p == EnginePod("engine-22", "old", "b"))
  {
    assert "new"[0] != "old"[0];
  }

  lemma {:induction false} ExampleIsLive(cfg: Config, w: World)
    requires cfg.latestHash == "new" && w == Example()
    ensures Live(cfg, w) && UniqueNames(w.pods)
  {
    forall p ensures p in w.pods ==> p == EnginePod("engine-1", "new", "a") || p == EnginePod("engine-22", "old", "b")
             ensures p in w.pods ==> (Outdated(cfg.latestHash).Selects(p) <==> p == EnginePod("engine-22", "old", "b"))
    {
      ExamplePods(cfg, w, p);
    }
    assert |"engine-1"| != |"engine-22"| && "a"[0] != "b"[0];
  }

  lemma {:induction false} ExampleIsNotTakenUp(cfg: Config, w: World)
    requires cfg.latestHash == "new" && w == Example()
    ensures InFlight(w, "a") && !TakenUp(cfg, w, "a")
  {
    assert "a"[0] != "b"[0];
    forall p ensures p in w.pods ==> (Outdated(cfg.latestHash).Selects(p) <==> p == EnginePod("engine-22", "old", "b")) {
      ExamplePods(cfg, w, p);
    }
  }

  /** With HA on and nothing refused: the pod of "b" is restarted, the run returns Ok, and "a" still has the label. */
  lemma {:induction false} ExampleKeepsItsLabel(cfg: Config) returns (t: Log)
    requires cfg == Config("new", true)
    ensures QuietRunFrom(cfg, Example(), t) && RepairsLog(cfg, t) && Labelled(t[|t| - 1].after, "a")
    ensures exists i :: 0 <= i < |t| && t[i].request.DeletePod? && t[i].request.name == "engine-22"
  {
    ExampleIsLive(cfg, Example());
    ExampleIsNotTakenUp(cfg, Example());
    t := DrainMayLinger(cfg, Example(), "a");
    ExamplePods(cfg, Example(), EnginePod("engine-22", "old", "b"));
    assert Example().pods[1] == EnginePod("engine-22", "old", "b");
  }
}
