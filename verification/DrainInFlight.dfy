/**
  What becomes of a drain that an aborted attempt left in flight. The cluster is quiet: the
  others finish drains and bring up pods of the latest revision, the control plane and the
  volumes may come and go, but nobody else labels a node, restarts an outdated pod, or moves
  a target to a node that is drained for the upgrade.
 */
module DrainInFlight {
  import opened Wrappers
  import opened Cluster
  import opened Rebuild
  import opened Protocol
  import opened LabelOwnership
  import D = DeletionDiscipline

  // ---------------------------------------------------------------- a quiet cluster

  /** The outdated pods, by name and node. */
  function Spots(cfg: Config, w: World): set<(string, Option<NodeId>)> {
    set p | p in w.pods && Outdated(cfg.latestHash).Selects(p) :: (p.name, NodeOf(p))
  }

  /** Node `n` has an outdated pod. */
  ghost predicate Hosts(cfg: Config, w: World, n: NodeId) {
    exists name :: (name, Some(n)) in Spots(cfg, w)
  }

  /** The node is as it was, or its drain has completed. */
  predicate SameOrDrained(a: StorageNode, b: StorageNode) {
    a == b || (a.spec.Some? && a.spec.value.Draining? && b == StorageNode(Some(Drained(a.spec.value.cordon, a.spec.value.drain))))
  }

  predicate NodesSettle(w: World, w': World) {
    && w'.nodes.Keys == w.nodes.Keys && w'.nodeListing == w.nodeListing
    && forall n :: n in w.nodes ==> SameOrDrained(w.nodes[n], w'.nodes[n])
  }

  ghost predicate QuietChange(cfg: Config, w: World, w': World) {
    && NodesSettle(w, w') && w'.anaDisabled == w.anaDisabled && Spots(cfg, w') == Spots(cfg, w)
    && forall n :: Labelled(w, n) ==> FrontendsOf(w'.volumes, n) <= FrontendsOf(w.volumes, n)
  }

  ghost predicate QuietLog(cfg: Config, t: Log) {
    forall i :: 0 <= i < |t| - 1 ==> QuietChange(cfg, t[i].after, t[i + 1].before)
  }

  /** A run past the early exit that returns Ok, in a quiet cluster that was `w` at first. */
  ghost predicate QuietRunFrom(cfg: Config, w: World, t: Log) {
    t != [] && t[0].before == w && QuietLog(cfg, t) && Run(cfg, t) == Done
  }

  /** No two nodes have outdated pods of one name, and the node listing is complete. */
  ghost predicate WellFormed(cfg: Config, w: World) {
    && ListsAllNodes(w)
    && forall s, u :: s in Spots(cfg, w) && u in Spots(cfg, w) && s.0 == u.0 ==> s.1 == u.1
  }

  // ---------------------------------------------------------------- drains in flight

  predicate InFlight(w: World, n: NodeId) {
    w.HasState(n) && w.State(n).DrainingFor(DRAIN_FOR_UPGRADE)
  }

  lemma {:induction false} LabelledIsDrainedOrInFlight(w: World, n: NodeId)
    ensures Labelled(w, n) <==> DrainedWithLabel(w, n) || InFlight(w, n)
  {
  }

  /** The next run takes the node up: HA is on, the node has an outdated pod, and nothing forbids its drain. */
  ghost predicate TakenUp(cfg: Config, w: World, n: NodeId) {
    cfg.haEnabled && Hosts(cfg, w, n) && AnaClear(w.anaDisabled, w.volumes, n)
  }

  ghost predicate AllTakenUp(cfg: Config, w: World) {
    forall n :: InFlight(w, n) ==> TakenUp(cfg, w, n)
  }

  /** `m` was draining at first, in `w0`, and its turn is still to come. */
  ghost predicate Pending(cfg: Config, w0: World, w: World, m: NodeId) {
    InFlight(w0, m) && Hosts(cfg, w, m) && AnaClear(w.anaDisabled, w.volumes, m)
  }

  ghost predicate OthersPending(cfg: Config, w0: World, w: World, n: NodeId) {
    forall m :: Labelled(w, m) && m != n ==> Pending(cfg, w0, w, m)
  }

  ghost predicate AllPending(cfg: Config, w0: World, w: World) {
    forall m :: Labelled(w, m) ==> Pending(cfg, w0, w, m)
  }

  /** Which nodes carry the label in the world that phase `ph` calls into. */
  ghost predicate Tied(cfg: Config, w0: World, ph: Phase, w: World) {
    match ph
    case Begin => forall m :: Labelled(w, m) ==> Pending(cfg, w0, w, m) || DrainedWithLabel(w, m)
    case SweepRead(todo) => forall m :: Labelled(w, m) ==> Pending(cfg, w0, w, m) || (DrainedWithLabel(w, m) && m in todo)
    case SweepUncordon(todo) => forall m :: Labelled(w, m) ==> Pending(cfg, w0, w, m) || (DrainedWithLabel(w, m) && m in todo)
    case AnaCordonRead(_, _, ds) => AllPending(cfg, w0, w) && ds == w.anaDisabled
    case AnaCordonPut(_, _, ds) => AllPending(cfg, w0, w) && ds == w.anaDisabled
    case AnaVolumes(_, _, ds) => AllPending(cfg, w0, w) && ds == w.anaDisabled
    case AnaUncordonRead(_, n, v) => AllPending(cfg, w0, w) && (v == Some(false) ==> !Labelled(w, n))
    case AnaUncordonDelete(_, n, v) => AllPending(cfg, w0, w) && (v == Some(false) ==> !Labelled(w, n))
    case DrainRead(_, n) => OthersPending(cfg, w0, w, n)
    case DrainPut(_, n) => OthersPending(cfg, w0, w, n)
    case Restart(_, n, _) => OthersPending(cfg, w0, w, n) && (Labelled(w, n) ==> DrainedWithLabel(w, n))
    case AwaitPod(_, n) => OthersPending(cfg, w0, w, n) && (Labelled(w, n) ==> DrainedWithLabel(w, n))
    case UncordonRead(_, n) => OthersPending(cfg, w0, w, n) && (Labelled(w, n) ==> DrainedWithLabel(w, n))
    case UncordonDelete(_, n) => OthersPending(cfg, w0, w, n) && (Labelled(w, n) ==> DrainedWithLabel(w, n))
    case Done => NoLabel(w)
    case Stopped => true
    case Rejected => true
    case _ => AllPending(cfg, w0, w)
  }

  /** The queue holds pods that were outdated at first, and its head runs on the node in progress. */
  ghost predicate QueueKnown(cfg: Config, w0: World, ph: Phase) {
    && (forall p :: p in ph.Queue() ==> (p.name, NodeOf(p)) in Spots(cfg, w0))
    && (ph.Node().Some? ==> ph.Queue() != [] && NodeOf(ph.Queue()[0]) == ph.Node())
  }

  // ---------------------------------------------------------------- others

  lemma {:induction false} QuietKeepsLabels(cfg: Config, w: World, w': World, m: NodeId)
    requires QuietChange(cfg, w, w')
    ensures Labelled(w', m) <==> Labelled(w, m)
    ensures DrainedWithLabel(w, m) ==> DrainedWithLabel(w', m)
  {
  }

  lemma {:induction false} QuietKeepsPending(cfg: Config, w0: World, w: World, w': World, m: NodeId)
    requires QuietChange(cfg, w, w') && Labelled(w, m) && Pending(cfg, w0, w, m)
    ensures Pending(cfg, w0, w', m)
  {
    var name :| (name, Some(m)) in Spots(cfg, w);
    assert (name, Some(m)) in Spots(cfg, w');
  }

  lemma {:induction false} TiedSurvivesOthers(cfg: Config, w0: World, ph: Phase, w: World, w': World)
    requires Tied(cfg, w0, ph, w) && QuietChange(cfg, w, w')
    ensures Tied(cfg, w0, ph, w')
  {
    forall m ensures Labelled(w', m) <==> Labelled(w, m) ensures DrainedWithLabel(w, m) ==> DrainedWithLabel(w', m) {
      QuietKeepsLabels(cfg, w, w', m);
    }
    forall m | Labelled(w, m) && Pending(cfg, w0, w, m) ensures Pending(cfg, w0, w', m) {
      QuietKeepsPending(cfg, w0, w, w', m);
    }
  }

  // ---------------------------------------------------------------- calls

  lemma {:induction false} SpotsAfterCall(cfg: Config, c: Call)
    requires Lawful(c)
    ensures Spots(cfg, c.after) <= Spots(cfg, c.before)
    ensures forall s :: s in Spots(cfg, c.before) && !(c.request.DeletePod? && c.request.name == s.0) ==> s in Spots(cfg, c.after)
    ensures c.after.volumes == c.before.volumes && c.after.anaDisabled == c.before.anaDisabled
  {
  }

  /** A call leaves the turn of other nodes as it was. */
  lemma {:induction false} PendingAfterCall(cfg: Config, w0: World, ph: Phase, c: Call, m: NodeId)
    requires Lawful(c) && NextRequest(cfg, ph) == Some(c.request) && WellFormed(cfg, w0)
    requires QueueKnown(cfg, w0, ph) && Spots(cfg, c.before) <= Spots(cfg, w0)
    requires Pending(cfg, w0, c.before, m) && (ph.Restart? ==> ph.node != m)
    ensures Pending(cfg, w0, c.after, m)
  {
    SpotsAfterCall(cfg, c);
    var name :| (name, Some(m)) in Spots(cfg, c.before);
    if c.request.DeletePod? {
      assert ph.Restart? && ph.queue[0] in ph.Queue();
      assert (ph.queue[0].name, Some(ph.node)) in Spots(cfg, w0);
    }
    assert (name, Some(m)) in Spots(cfg, c.after);
  }

  lemma {:induction false} CallFollowsLabels(c: Call)
    requires Lawful(c)
    ensures LabelsFollow(c)
  {
    forall n | Labelled(c.after, n)
      ensures Labelled(c.before, n) || c.request == PutDrain(n, DRAIN_FOR_UPGRADE)
      ensures DrainedWithLabel(c.before, n) ==> DrainedWithLabel(c.after, n)
    {
      LabelEffect(c, n);
    }
  }

  /** While it makes its call, a phase keeps what ties the labels. */
  lemma {:induction false} TiedWhileCalling(cfg: Config, w0: World, ph: Phase, c: Call)
    requires Tied(cfg, w0, ph, c.before) && Lawful(c) && NextRequest(cfg, ph) == Some(c.request)
    requires WellFormed(cfg, w0) && QueueKnown(cfg, w0, ph) && Spots(cfg, c.before) <= Spots(cfg, w0)
    ensures Tied(cfg, w0, ph, c.after)
  {
    CallFollowsLabels(c);
    SpotsAfterCall(cfg, c);
    forall m | Pending(cfg, w0, c.before, m) && (ph.Restart? ==> ph.node != m) ensures Pending(cfg, w0, c.after, m) {
      PendingAfterCall(cfg, w0, ph, c, m);
    }
  }

  lemma {:induction false} TiedAfterRead(cfg: Config, w0: World, ph: Phase, w: World, n: NodeId)
    requires Tied(cfg, w0, ph, w) && w.HasState(n)
    requires ph.SweepRead? ==> ph.todo != [] && ph.todo[0] == n
    requires ph.Node().Some? ==> ph.node == n
    ensures Tied(cfg, w0, AfterNodeRead(ph, w.State(n)), w)
  {
  }

  /** The two decisions against a drain are never made for a labelled node. */
  lemma {:induction false} RefusedIsNotLabelled(cfg: Config, w0: World, w: World, n: NodeId)
    requires AllTakenUp(cfg, w0) && AllPending(cfg, w0, w)
    ensures !cfg.haEnabled || !AnaClear(w.anaDisabled, w.volumes, n) ==> !Labelled(w, n)
  {
  }

  lemma {:induction false} NothingOutdated(cfg: Config, w0: World, w: World)
    requires AllPending(cfg, w0, w) && Select(w.pods, Outdated(cfg.latestHash)) == []
    ensures NoLabel(w)
  {
    var ps := Select(w.pods, Outdated(cfg.latestHash));
    assert forall p :: p in w.pods && Outdated(cfg.latestHash).Selects(p) ==> p in ps;
    assert Spots(cfg, w) == {};
  }

  /** The phases that decide on a drain. */
  lemma {:induction false} TiedAfterDecision(cfg: Config, w0: World, ph: Phase, seen: World, w: World)
    requires Tied(cfg, w0, ph, w) && AllTakenUp(cfg, w0) && (ph.AwaitRebuild? || ph.AnaList? || ph.AnaVolumes?)
    requires seen.volumes == w.volumes && seen.anaDisabled == w.anaDisabled
    ensures Tied(cfg, w0, AfterCall(cfg, ph, seen), w)
  {
    RefusedIsNotLabelled(cfg, w0, w, ph.node);
  }

  lemma {:induction false} TiedAfterListing(cfg: Config, w0: World, w: World)
    requires Tied(cfg, w0, ListOutdated, w)
    ensures Tied(cfg, w0, AfterCall(cfg, ListOutdated, w), w)
  {
    if Select(w.pods, Outdated(cfg.latestHash)) == [] {
      NothingOutdated(cfg, w0, w);
    }
  }

  /** The phases in which the node may carry the label. */
  lemma {:induction false} TiedWithNode(cfg: Config, w0: World, ph: Phase, seen: World, w: World)
    requires Tied(cfg, w0, ph, w) && (ph.DrainPut? || ph.Restart? || ph.AwaitPod? || ph.UncordonDelete?)
    ensures Tied(cfg, w0, AfterCall(cfg, ph, seen), w)
  {
  }

  /** The phases that call without a node in progress, or for the check. */
  lemma {:induction false} TiedWithout(cfg: Config, w0: World, ph: Phase, seen: World, w: World)
    requires Tied(cfg, w0, ph, w)
    requires ph.CheckCore? || ph.CheckRest? || ph.CheckEtcd? || ph.AnaCordonPut? || ph.AnaUncordonDelete? || ph.SweepUncordon?
    ensures Tied(cfg, w0, AfterCall(cfg, ph, seen), w)
  {
  }

  /** `seen` is the world that the call was served from; volumes and listings are as in `w`. */
  lemma {:induction false} TiedAfterCall(cfg: Config, w0: World, ph: Phase, seen: World, w: World)
    requires Tied(cfg, w0, ph, w) && AllTakenUp(cfg, w0)
    requires seen.volumes == w.volumes && seen.anaDisabled == w.anaDisabled
    requires ph.Begin? || ph.ListOutdated? ==> seen == w
    requires ph.Begin? ==> ListsAllNodes(w)
    ensures Tied(cfg, w0, AfterCall(cfg, ph, seen), w)
  {
    if ph.AwaitRebuild? || ph.AnaList? || ph.AnaVolumes? {
      TiedAfterDecision(cfg, w0, ph, seen, w);
    } else if ph.ListOutdated? {
      TiedAfterListing(cfg, w0, w);
    } else if ph.DrainPut? || ph.Restart? || ph.AwaitPod? || ph.UncordonDelete? {
      TiedWithNode(cfg, w0, ph, seen, w);
    } else if !ph.Begin? && !ph.SweepRead? && !ph.AnaCordonRead? && !ph.AnaUncordonRead? && !ph.DrainRead?
              && !ph.UncordonRead? && !ph.Done? && !ph.Stopped? && !ph.Rejected? {
      TiedWithout(cfg, w0, ph, seen, w);
    }
  }

  lemma {:induction false} TiedStep(cfg: Config, w0: World, ph: Phase, c: Call)
    requires Tied(cfg, w0, ph, c.before) && !Step(cfg, ph, c).Rejected? && AllTakenUp(cfg, w0)
    requires WellFormed(cfg, w0) && QueueKnown(cfg, w0, ph) && Spots(cfg, c.before) <= Spots(cfg, w0)
    requires c.request.GetNodes? ==> ListsAllNodes(c.before)
    ensures Tied(cfg, w0, Step(cfg, ph, c), c.after)
  {
    TiedWhileCalling(cfg, w0, ph, c);
    SpotsAfterCall(cfg, c);
    if c.ok && c.request.GetNode? && c.before.HasState(c.request.node) {
      TiedAfterRead(cfg, w0, ph, c.after, c.request.node);
    } else if c.ok && !c.request.GetNode? {
      TiedAfterCall(cfg, w0, ph, c.before, c.after);
    }
  }

  // ---------------------------------------------------------------- whole runs

  lemma {:induction false} ListedIsKnown(cfg: Config, w0: World, w: World, p: Pod)
    requires Spots(cfg, w) <= Spots(cfg, w0) && p in Select(w.pods, Outdated(cfg.latestHash))
    ensures (p.name, NodeOf(p)) in Spots(cfg, w0)
  {
    assert (p.name, NodeOf(p)) in Spots(cfg, w);
  }

  lemma {:induction false} QueueKnownAfterListing(cfg: Config, w0: World, w: World)
    requires Spots(cfg, w) <= Spots(cfg, w0)
    ensures QueueKnown(cfg, w0, AfterCall(cfg, ListOutdated, w))
  {
    forall p | p in Select(w.pods, Outdated(cfg.latestHash)) ensures (p.name, NodeOf(p)) in Spots(cfg, w0) {
      ListedIsKnown(cfg, w0, w, p);
    }
  }

  lemma {:induction false} QueueKnownEvolves(cfg: Config, w0: World, ph: Phase, ph': Phase)
    requires QueueKnown(cfg, w0, ph) && D.QueueEvolves(ph, ph')
    ensures QueueKnown(cfg, w0, ph')
  {
  }

  lemma {:induction false} QueueKnownStep(cfg: Config, w0: World, ph: Phase, c: Call)
    requires QueueKnown(cfg, w0, ph) && !Step(cfg, ph, c).Rejected? && Spots(cfg, c.before) <= Spots(cfg, w0)
    ensures QueueKnown(cfg, w0, Step(cfg, ph, c))
  {
    if ph.ListOutdated? && c.ok {
      QueueKnownAfterListing(cfg, w0, c.before);
    } else if c.ok && c.request.GetNode? && c.before.HasState(c.request.node) {
      D.QueueAfterRead(ph, c.before.State(c.request.node));
      QueueKnownEvolves(cfg, w0, ph, Step(cfg, ph, c));
    } else if c.ok && !c.request.GetNode? && !ph.CheckEtcd? {
      D.QueueAfterCall(cfg, ph, c.before);
      QueueKnownEvolves(cfg, w0, ph, Step(cfg, ph, c));
    }
  }

  ghost predicate Settled(cfg: Config, w0: World, ph: Phase, w: World) {
    Tied(cfg, w0, ph, w) && QueueKnown(cfg, w0, ph) && Spots(cfg, w) <= Spots(cfg, w0) && ListsAllNodes(w)
  }

  lemma {:induction false} CallKeepsListing(c: Call)
    requires Lawful(c) && ListsAllNodes(c.before)
    ensures ListsAllNodes(c.after)
  {
  }

  lemma {:induction false} SettledStep(cfg: Config, w0: World, ph: Phase, c: Call)
    requires Settled(cfg, w0, ph, c.before) && !Step(cfg, ph, c).Rejected? && AllTakenUp(cfg, w0) && WellFormed(cfg, w0)
    ensures Settled(cfg, w0, Step(cfg, ph, c), c.after)
  {
    TiedStep(cfg, w0, ph, c);
    QueueKnownStep(cfg, w0, ph, c);
    SpotsAfterCall(cfg, c);
    CallKeepsListing(c);
  }

  lemma {:induction false} SettledSurvivesOthers(cfg: Config, w0: World, ph: Phase, w: World, w': World)
    requires Settled(cfg, w0, ph, w) && QuietChange(cfg, w, w')
    ensures Settled(cfg, w0, ph, w')
  {
    TiedSurvivesOthers(cfg, w0, ph, w, w');
  }

  lemma {:induction false} SettledAtFirst(cfg: Config, w0: World)
    requires AllTakenUp(cfg, w0) && WellFormed(cfg, w0)
    ensures Settled(cfg, w0, Begin, w0)
  {
    forall m | Labelled(w0, m) ensures Pending(cfg, w0, w0, m) || DrainedWithLabel(w0, m) {
      LabelledIsDrainedOrInFlight(w0, m);
    }
  }

  /** `Settled`, which the quantifier over one value only keeps folded in the induction below. */
  ghost predicate Steady(cfg: Config, w0: World, ph: Phase, w: World) {
    forall v: World :: v == w ==> Settled(cfg, w0, ph, v)
  }

  /** Likewise for what is asked of the cluster at first. */
  ghost predicate StartsWell(cfg: Config, w0: World) {
    forall v: World :: v == w0 ==> AllTakenUp(cfg, v) && WellFormed(cfg, v)
  }

  lemma {:induction false} SteadyExtends(cfg: Config, w0: World, ph: Phase, t: Log, n: nat)
    requires 0 < n < |t| && QuietLog(cfg, t) && StartsWell(cfg, w0)
    requires Steady(cfg, w0, ph, t[n - 1].after) && !Step(cfg, ph, t[n]).Rejected?
    ensures Steady(cfg, w0, Step(cfg, ph, t[n]), t[n].after)
  {
    var w, c := t[n - 1].after, t[n];
    assert Settled(cfg, w0, ph, w) && AllTakenUp(cfg, w0) && WellFormed(cfg, w0);
    assert QuietChange(cfg, t[n - 1].after, t[n - 1 + 1].before);
    SettledSurvivesOthers(cfg, w0, ph, w, c.before);
    SettledStep(cfg, w0, ph, c);
  }

  lemma {:induction false} SteadyAfterFirst(cfg: Config, w0: World, c: Call)
    requires c.before == w0 && !Step(cfg, Begin, c).Rejected? && StartsWell(cfg, w0)
    ensures Steady(cfg, w0, Step(cfg, Begin, c), c.after)
  {
    assert AllTakenUp(cfg, w0) && WellFormed(cfg, w0);
    SettledAtFirst(cfg, w0);
    SettledStep(cfg, w0, Begin, c);
  }

  lemma {:induction false} QuietRunIsSteady(cfg: Config, w0: World, t: Log, ph: Phase)
    requires t != [] && t[0].before == w0 && At(cfg, t, ph) && !ph.Rejected? && QuietLog(cfg, t) && StartsWell(cfg, w0)
    ensures Steady(cfg, w0, ph, t[|t| - 1].after)
    decreases |t|
  {
    var n := |t| - 1;
    var s := t[..n];
    var ph0 := LastCall(cfg, t, ph);
    if n == 0 {
      assert Run(cfg, s) == Begin;
      SteadyAfterFirst(cfg, w0, t[0]);
    } else {
      assert forall i :: 0 <= i < |s| ==> s[i] == t[i];
      QuietRunIsSteady(cfg, w0, s, ph0);
      SteadyExtends(cfg, w0, ph0, t, n);
    }
  }

  /**
    If the next run takes up every node that was left draining, then it leaves no label when
    it returns Ok: it waits for these drains to complete, and gives the label back after the
    restart.
   */
  lemma {:induction false} TakenUpDrainsAreFinished(cfg: Config, w: World, t: Log)
    requires QuietRunFrom(cfg, w, t) && WellFormed(cfg, w) && AllTakenUp(cfg, w)
    ensures NoLabel(t[|t| - 1].after)
  {
    QuietRunIsSteady(cfg, w, t, Done);
    assert Settled(cfg, w, Done, t[|t| - 1].after);
  }
}
