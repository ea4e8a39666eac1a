/**
  What every run, aborted or not, has observed before it deletes a data-plane pod. Nothing
  is assumed of the environment: it may answer any call in any way.
 */
module DeletionDiscipline {
  import opened Wrappers
  import opened Cluster
  import opened Rebuild
  import opened Protocol

  // ---------------------------------------------------------------- observations in a log

  predicate SeenReady(c: Call, app: App) {
    c.request == ListPods(OfApp(app)) && c.ok && AllReady(Select(c.before.pods, OfApp(app)))
  }

  /** Calls `i` to `i + 2` found agent-core, api-rest and etcd to pass the readiness check. */
  predicate ControlPlaneReadyAt(t: Log, i: int) {
    && 0 <= i && i + 2 < |t|
    && SeenReady(t[i], AgentCore) && SeenReady(t[i + 1], ApiRest) && SeenReady(t[i + 2], Etcd)
  }

  /** Call `j` read the volumes, and no unhealthy one among them had a rebuilding child. */
  predicate NoRebuildAt(t: Log, j: int) {
    && 0 <= j < |t| && t[j].request == GetVolumes && t[j].ok
    && forall v :: v in t[j].before.volumes && Unhealthy(v) ==> !IsRebuilding(v)
  }

  predicate SeenDrained(c: Call, n: NodeId) {
    && c.request == GetNode(n) && c.ok
    && c.before.HasState(n) && c.before.State(n).DrainedFor(DRAIN_FOR_UPGRADE)
  }

  predicate AnaListAt(t: Log, a: int, disabled: seq<NodeId>) {
    0 <= a < |t| && t[a].request == ListAnaDisabled && t[a].ok && t[a].before.anaDisabled == disabled
  }

  predicate VolumesAt(t: Log, b: int) {
    0 <= b < |t| && t[b].request == GetVolumes && t[b].ok
  }

  /** From call `from` on, an ANA-disabled node was seen to consume a volume targeted at `n`. */
  ghost predicate DrainRefused(t: Log, from: int, n: NodeId) {
    exists a, b, ds :: from <= a < b && AnaListAt(t, a, ds) && VolumesAt(t, b) && !AnaClear(ds, t[b].before.volumes, n)
  }

  /** Call `k` found exactly one pod of the latest revision on `n`, and it passed the readiness check. */
  predicate ReplacedAt(cfg: Config, t: Log, k: int, n: NodeId) {
    && 0 <= k < |t| && t[k].request == ListPods(LatestOn(cfg.latestHash, n)) && t[k].ok
    && var ps := Select(t[k].before.pods, LatestOn(cfg.latestHash, n)); |ps| == 1 && AllReady(ps)
  }

  /** Call `l` listed `p` among the outdated pods. */
  predicate ListedAt(cfg: Config, t: Log, l: int, p: Pod) {
    && 0 <= l < |t| && t[l].request == ListPods(Outdated(cfg.latestHash)) && t[l].ok
    && p in Select(t[l].before.pods, Outdated(cfg.latestHash))
  }

  ghost predicate Listed(cfg: Config, t: Log, p: Pod) {
    exists l :: ListedAt(cfg, t, l, p)
  }

  /** The position of the last deletion, or -1. */
  function LastDelete(t: Log): (d: int)
    ensures -1 <= d < |t|
    ensures d >= 0 ==> t[d].request.DeletePod?
    ensures forall i :: d < i < |t| ==> !t[i].request.DeletePod?
  {
    if t == [] then -1
    else if t[|t| - 1].request.DeletePod? then |t| - 1
    else LastDelete(t[..|t| - 1])
  }

  // ---------------------------------------------------------------- evidence held in each phase

  ghost predicate ControlPlaneSeen(t: Log, from: int) {
    exists i :: from <= i && ControlPlaneReadyAt(t, i)
  }

  /** Since `from` the control plane was found ready, and after that no rebuild was running. */
  ghost predicate Prepared(t: Log, from: int) {
    exists i, j :: from <= i && i + 2 < j && ControlPlaneReadyAt(t, i) && NoRebuildAt(t, j)
  }

  ghost predicate AnaListed(t: Log, from: int, disabled: seq<NodeId>) {
    exists a :: from <= a && AnaListAt(t, a, disabled)
  }

  ghost predicate ReplacementSeen(cfg: Config, t: Log, from: int, n: NodeId) {
    exists k :: from <= k && ReplacedAt(cfg, t, k, n)
  }

  /** What the log shows since the last deletion when the run stands in phase `ph`. */
  ghost predicate Evidence(cfg: Config, t: Log, from: int, ph: Phase)
    requires 0 <= from <= |t|
  {
    match ph
    case CheckRest(_, core) =>
      from <= |t| - 1 && (core ==> SeenReady(t[|t| - 1], AgentCore))
    case CheckEtcd(_, core, rest) =>
      && from <= |t| - 2
      && (core ==> SeenReady(t[|t| - 2], AgentCore)) && (rest ==> SeenReady(t[|t| - 1], ApiRest))
    case AwaitRebuild(_, _, stale) => ControlPlaneSeen(t, from) && Stuck(stale)
    case AnaList(_, _) => Prepared(t, from)
    case AnaCordonRead(_, _, ds) => Prepared(t, from) && AnaListed(t, from, ds)
    case AnaCordonPut(_, _, ds) => Prepared(t, from) && AnaListed(t, from, ds)
    case AnaVolumes(_, _, ds) => Prepared(t, from) && AnaListed(t, from, ds)
    case AnaUncordonRead(_, n, v) => Prepared(t, from) && (v == Some(false) ==> DrainRefused(t, from, n))
    case AnaUncordonDelete(_, n, v) => Prepared(t, from) && (v == Some(false) ==> DrainRefused(t, from, n))
    case DrainRead(_, _) => Prepared(t, from)
    case DrainPut(_, _) => Prepared(t, from)
    case Restart(_, n, drained) =>
      && Prepared(t, from)
      && (if drained then |t| > 0 && SeenDrained(t[|t| - 1], n) else !cfg.haEnabled || DrainRefused(t, from, n))
    case _ => true
  }

  /** The queue comes from a listing, and its head runs on the node in progress. */
  ghost predicate QueueListed(cfg: Config, t: Log, ph: Phase) {
    && (forall p :: p in ph.Queue() ==> Listed(cfg, t, p))
    && (ph.Node().Some? ==> ph.Queue() != [] && NodeOf(ph.Queue()[0]) == ph.Node())
  }

  /** The node of the last deleted pod has its replacement, unless the run still waits for it. */
  ghost predicate LastPodReplaced(cfg: Config, t: Log, from: int, ph: Phase)
    requires 0 <= from <= |t|
    requires from > 0 ==> t[from - 1].request.DeletePod?
  {
    from == 0 || ph.Stopped?
    || (if ph.AwaitPod? then ph.node == t[from - 1].request.node
        else ReplacementSeen(cfg, t, from, t[from - 1].request.node))
  }

  // The three claims about a run whose log is `t` and which stands in phase `ph`. The quantifiers
  // over one value only keep the claims folded while the induction over the log extends them.

  ghost predicate Evident(cfg: Config, t: Log, ph: Phase) {
    forall s: Log :: s == t ==> Evidence(cfg, s, LastDelete(s) + 1, ph)
  }

  ghost predicate Queued(cfg: Config, t: Log, ph: Phase) {
    forall s: Log :: s == t ==> QueueListed(cfg, s, ph)
  }

  ghost predicate Replaced(cfg: Config, t: Log, ph: Phase) {
    forall s: Log :: s == t ==> LastPodReplaced(cfg, s, LastDelete(s) + 1, ph)
  }

  ghost predicate Disciplined(cfg: Config, t: Log, ph: Phase) {
    Evident(cfg, t, ph) && Queued(cfg, t, ph) && Replaced(cfg, t, ph)
  }

  // ---------------------------------------------------------------- evidence survives a call

  lemma {:induction false} EvidenceGrows(cfg: Config, t: Log, c: Call, from: int)
    ensures ControlPlaneSeen(t, from) ==> ControlPlaneSeen(t + [c], from)
    ensures Prepared(t, from) ==> Prepared(t + [c], from)
    ensures forall p :: Listed(cfg, t, p) ==> Listed(cfg, t + [c], p)
  {
    if ControlPlaneSeen(t, from) {
      var i :| from <= i && ControlPlaneReadyAt(t, i);
      assert ControlPlaneReadyAt(t + [c], i);
    }
    if Prepared(t, from) {
      var i, j :| from <= i && i + 2 < j && ControlPlaneReadyAt(t, i) && NoRebuildAt(t, j);
      assert ControlPlaneReadyAt(t + [c], i) && NoRebuildAt(t + [c], j);
    }
    forall p | Listed(cfg, t, p) ensures Listed(cfg, t + [c], p) {
      var l :| ListedAt(cfg, t, l, p);
      assert ListedAt(cfg, t + [c], l, p);
    }
  }

  lemma {:induction false} AnaEvidenceGrows(t: Log, c: Call, from: int, n: NodeId, ds: seq<NodeId>)
    ensures AnaListed(t, from, ds) ==> AnaListed(t + [c], from, ds)
    ensures DrainRefused(t, from, n) ==> DrainRefused(t + [c], from, n)
  {
    if AnaListed(t, from, ds) {
      var a :| from <= a && AnaListAt(t, a, ds);
      assert AnaListAt(t + [c], a, ds);
    }
    if DrainRefused(t, from, n) {
      var a, b, es :| from <= a < b && AnaListAt(t, a, es) && VolumesAt(t, b) && !AnaClear(es, t[b].before.volumes, n);
      assert AnaListAt(t + [c], a, es) && VolumesAt(t + [c], b);
    }
  }

  lemma {:induction false} ReplacementGrows(cfg: Config, t: Log, c: Call, from: int, n: NodeId)
    ensures ReplacementSeen(cfg, t, from, n) ==> ReplacementSeen(cfg, t + [c], from, n)
  {
    if ReplacementSeen(cfg, t, from, n) {
      var k :| from <= k && ReplacedAt(cfg, t, k, n);
      assert ReplacedAt(cfg, t + [c], k, n);
    }
  }

  // ---------------------------------------------------------------- evidence after a call

  /** The three control-plane checks, and the volume reads that follow them. */
  lemma {:induction false} ChecksGatherEvidence(cfg: Config, t: Log, c: Call, from: int, ph: Phase)
    requires 0 <= from <= |t| && Evidence(cfg, t, from, ph) && Lawful(c)
    requires NextRequest(cfg, ph) == Some(c.request) && c.ok
    requires ph.CheckCore? || ph.CheckRest? || ph.CheckEtcd? || ph.AwaitRebuild?
    ensures Evidence(cfg, t + [c], from, AfterCall(cfg, ph, c.before))
  {
    var t' := t + [c];
    EvidenceGrows(cfg, t, c, from);
    if ph.CheckEtcd? && ph.coreReady && ph.restReady && SeenReady(c, Etcd) {
      assert ControlPlaneReadyAt(t', |t| - 2);
    }
    if ph.AwaitRebuild? {
      var p := OnePass(c.before.volumes, ph.stale, ph.node);
      PassSound(c.before.volumes, ph.stale, ph.node);
      assert p.stale == ph.stale + p.stale[|ph.stale|..];
      if p.Quiet? {
        assert NoRebuildAt(t', |t|) by {
          assert t'[|t|] == c;
        }
        var i :| from <= i && ControlPlaneReadyAt(t, i);
        assert ControlPlaneReadyAt(t', i);
      }
    }
  }

  lemma {:induction false} AnaListGathersEvidence(cfg: Config, t: Log, c: Call, from: int, q: seq<Pod>, n: NodeId)
    requires 0 <= from <= |t| && Prepared(t, from) && c.request == ListAnaDisabled && c.ok
    ensures Evidence(cfg, t + [c], from, AfterCall(cfg, AnaList(q, n), c.before))
  {
    EvidenceGrows(cfg, t, c, from);
    assert AnaListAt(t + [c], |t|, c.before.anaDisabled);
  }

  lemma {:induction false} AnaVolumesGatherEvidence(cfg: Config, t: Log, c: Call, from: int, q: seq<Pod>, n: NodeId, ds: seq<NodeId>)
    requires 0 <= from <= |t| && Prepared(t, from) && AnaListed(t, from, ds) && c.request == GetVolumes && c.ok
    ensures Evidence(cfg, t + [c], from, AfterCall(cfg, AnaVolumes(q, n, ds), c.before))
  {
    var t' := t + [c];
    EvidenceGrows(cfg, t, c, from);
    var a :| from <= a && AnaListAt(t, a, ds);
    assert AnaListAt(t', a, ds) && VolumesAt(t', |t|) && t'[|t|] == c;
  }

  lemma {:induction false} CordonKeepsEvidence(cfg: Config, t: Log, c: Call, from: int, q: seq<Pod>, n: NodeId, ds: seq<NodeId>)
    requires 0 <= from <= |t| && Prepared(t, from) && AnaListed(t, from, ds)
    ensures Evidence(cfg, t + [c], from, AfterCall(cfg, AnaCordonPut(q, n, ds), c.before))
  {
    EvidenceGrows(cfg, t, c, from);
    AnaEvidenceGrows(t, c, from, n, ds);
  }

  lemma {:induction false} UncordonKeepsEvidence(cfg: Config, t: Log, c: Call, from: int, q: seq<Pod>, n: NodeId, v: Option<bool>)
    requires 0 <= from <= |t| && Prepared(t, from) && (v == Some(false) ==> DrainRefused(t, from, n))
    ensures Evidence(cfg, t + [c], from, AfterCall(cfg, AnaUncordonDelete(q, n, v), c.before))
  {
    EvidenceGrows(cfg, t, c, from);
    AnaEvidenceGrows(t, c, from, n, []);
  }

  lemma {:induction false} AnaCheckGathersEvidence(cfg: Config, t: Log, c: Call, from: int, ph: Phase)
    requires 0 <= from <= |t| && Evidence(cfg, t, from, ph)
    requires NextRequest(cfg, ph) == Some(c.request) && c.ok
    requires ph.AnaList? || ph.AnaCordonPut? || ph.AnaVolumes? || ph.AnaUncordonDelete?
    ensures Evidence(cfg, t + [c], from, AfterCall(cfg, ph, c.before))
  {
    if ph.AnaList? {
      AnaListGathersEvidence(cfg, t, c, from, ph.queue, ph.node);
    } else if ph.AnaVolumes? {
      AnaVolumesGatherEvidence(cfg, t, c, from, ph.queue, ph.node, ph.disabled);
    } else if ph.AnaCordonPut? {
      CordonKeepsEvidence(cfg, t, c, from, ph.queue, ph.node, ph.disabled);
    } else {
      UncordonKeepsEvidence(cfg, t, c, from, ph.queue, ph.node, ph.verdict);
    }
  }

  lemma {:induction false} AnaCordonReadKeepsEvidence(cfg: Config, t: Log, c: Call, from: int, q: seq<Pod>, n: NodeId, ds: seq<NodeId>, s: CordonDrain)
    requires 0 <= from <= |t| && Evidence(cfg, t, from, AnaCordonRead(q, n, ds))
    ensures Evidence(cfg, t + [c], from, AfterNodeRead(AnaCordonRead(q, n, ds), s))
  {
    EvidenceGrows(cfg, t, c, from);
    AnaEvidenceGrows(t, c, from, n, ds);
  }

  lemma {:induction false} AnaUncordonReadKeepsEvidence(cfg: Config, t: Log, c: Call, from: int, q: seq<Pod>, n: NodeId, v: Option<bool>, s: CordonDrain)
    requires 0 <= from <= |t| && Evidence(cfg, t, from, AnaUncordonRead(q, n, v))
    ensures Evidence(cfg, t + [c], from, AfterNodeRead(AnaUncordonRead(q, n, v), s))
  {
    EvidenceGrows(cfg, t, c, from);
    AnaEvidenceGrows(t, c, from, n, []);
  }

  lemma {:induction false} DrainReadGathersEvidence(cfg: Config, t: Log, c: Call, from: int, ph: Phase)
    requires 0 <= from <= |t| && Evidence(cfg, t, from, ph) && ph.DrainRead?
    requires c.request == GetNode(ph.node) && c.ok && c.before.HasState(ph.node)
    ensures Evidence(cfg, t + [c], from, AfterNodeRead(ph, c.before.State(ph.node)))
  {
    EvidenceGrows(cfg, t, c, from);
  }

  /** One call that deletes nothing. */
  lemma {:induction false} EvidenceStep(cfg: Config, t: Log, c: Call, from: int, ph: Phase)
    requires 0 <= from <= |t| && Evidence(cfg, t, from, ph) && !Step(cfg, ph, c).Rejected?
    requires !c.request.DeletePod?
    ensures Evidence(cfg, t + [c], from, Step(cfg, ph, c))
  {
    EvidenceGrows(cfg, t, c, from);
    if c.ok && c.request.GetNode? {
      if c.before.HasState(c.request.node) {
        var s := c.before.State(c.request.node);
        if ph.AnaCordonRead? {
          AnaCordonReadKeepsEvidence(cfg, t, c, from, ph.queue, ph.node, ph.disabled, s);
        } else if ph.AnaUncordonRead? {
          AnaUncordonReadKeepsEvidence(cfg, t, c, from, ph.queue, ph.node, ph.verdict, s);
        } else if ph.DrainRead? {
          DrainReadGathersEvidence(cfg, t, c, from, ph);
        }
      }
    } else if c.ok {
      if ph.CheckCore? || ph.CheckRest? || ph.CheckEtcd? || ph.AwaitRebuild? {
        ChecksGatherEvidence(cfg, t, c, from, ph);
      } else if ph.AnaList? || ph.AnaCordonPut? || ph.AnaVolumes? || ph.AnaUncordonDelete? {
        AnaCheckGathersEvidence(cfg, t, c, from, ph);
      }
    }
  }

  /** How a queue evolves: it is emptied, kept with its node, or loses its head. */
  ghost predicate QueueEvolves(ph: Phase, ph': Phase) {
    && (ph'.Node().Some? ==> ph'.Node() == ph.Node() && ph'.Queue() == ph.Queue())
    && (ph'.Queue() == [] || ph'.Queue() == ph.Queue() || (ph.Queue() != [] && ph'.Queue() == ph.Queue()[1..]))
  }

  lemma {:induction false} QueueAfterRead(ph: Phase, s: CordonDrain)
    ensures QueueEvolves(ph, AfterNodeRead(ph, s))
  {
  }

  lemma {:induction false} QueueAfterCall(cfg: Config, ph: Phase, w: World)
    requires !ph.ListOutdated? && !ph.CheckEtcd?
    ensures QueueEvolves(ph, AfterCall(cfg, ph, w))
  {
  }

  lemma {:induction false} QueueStep(cfg: Config, t: Log, c: Call, ph: Phase)
    requires QueueListed(cfg, t, ph) && !Step(cfg, ph, c).Rejected?
    ensures QueueListed(cfg, t + [c], Step(cfg, ph, c))
  {
    EvidenceGrows(cfg, t, c, 0);
    if ph.ListOutdated? && c.ok {
      forall p | p in Select(c.before.pods, Outdated(cfg.latestHash)) ensures Listed(cfg, t + [c], p) {
        assert ListedAt(cfg, t + [c], |t|, p);
      }
    } else if c.ok && c.request.GetNode? && c.before.HasState(c.request.node) {
      QueueAfterRead(ph, c.before.State(c.request.node));
    } else if c.ok && !c.request.GetNode? && !ph.CheckEtcd? {
      QueueAfterCall(cfg, ph, c.before);
    }
  }

  /** How a run leaves the wait for a replacement: with the replacement seen, or stopped. */
  lemma {:induction false} WaitEndsWithReplacement(cfg: Config, ph: Phase, c: Call, ph': Phase)
    requires ph' == Step(cfg, ph, c) && !ph'.Rejected? && !c.request.DeletePod?
    ensures !ph.AwaitPod? ==> !ph'.AwaitPod?
    ensures ph.AwaitPod? ==> ph' == ph || ph'.Stopped? || ReplacedAt(cfg, [c], 0, ph.node)
    ensures ph.Stopped? ==> ph'.Stopped?
  {
  }

  /** One call that deletes nothing, as seen from the last deletion. */
  lemma {:induction false} ReplacementStep(cfg: Config, t: Log, c: Call, from: int, ph: Phase, ph': Phase)
    requires 0 <= from <= |t| && (from > 0 ==> t[from - 1].request.DeletePod?)
    requires LastPodReplaced(cfg, t, from, ph) && ph' == Step(cfg, ph, c) && !ph'.Rejected? && !c.request.DeletePod?
    ensures LastPodReplaced(cfg, t + [c], from, ph')
  {
    if from > 0 {
      var n := t[from - 1].request.node;
      assert (t + [c])[from - 1] == t[from - 1];
      ReplacementGrows(cfg, t, c, from, n);
      WaitEndsWithReplacement(cfg, ph, c, ph');
      if ph.AwaitPod? && ReplacedAt(cfg, [c], 0, ph.node) {
        assert ReplacedAt(cfg, t + [c], |t|, n);
      }
    }
  }

  lemma {:induction false} LastDeleteStep(t: Log, c: Call)
    ensures LastDelete(t + [c]) == if c.request.DeletePod? then |t| else LastDelete(t)
  {
    assert (t + [c])[..|t|] == t;
  }

  /** A deletion starts a new step, of which nothing need have been seen yet. */
  lemma {:induction false} DeletionStep(cfg: Config, t: Log, c: Call, ph: Phase)
    requires c.request.DeletePod? && !Step(cfg, ph, c).Rejected?
    ensures Evidence(cfg, t + [c], |t| + 1, Step(cfg, ph, c))
    ensures LastPodReplaced(cfg, t + [c], |t| + 1, Step(cfg, ph, c))
  {
  }

  lemma {:induction false} NothingIsDisciplined(cfg: Config)
    ensures Disciplined(cfg, [], Begin)
  {
    assert Begin.Queue() == [];
  }

  lemma {:induction false} EvidentStep(cfg: Config, t: Log, c: Call, ph: Phase)
    requires Evident(cfg, t, ph) && !Step(cfg, ph, c).Rejected?
    ensures Evident(cfg, t + [c], Step(cfg, ph, c))
  {
    LastDeleteStep(t, c);
    if c.request.DeletePod? {
      DeletionStep(cfg, t, c, ph);
    } else {
      EvidenceStep(cfg, t, c, LastDelete(t) + 1, ph);
    }
  }

  lemma {:induction false} QueuedStep(cfg: Config, t: Log, c: Call, ph: Phase)
    requires Queued(cfg, t, ph) && !Step(cfg, ph, c).Rejected?
    ensures Queued(cfg, t + [c], Step(cfg, ph, c))
  {
    QueueStep(cfg, t, c, ph);
  }

  lemma {:induction false} ReplacedStep(cfg: Config, t: Log, c: Call, ph: Phase)
    requires Replaced(cfg, t, ph) && !Step(cfg, ph, c).Rejected?
    ensures Replaced(cfg, t + [c], Step(cfg, ph, c))
  {
    LastDeleteStep(t, c);
    if c.request.DeletePod? {
      DeletionStep(cfg, t, c, ph);
    } else {
      ReplacementStep(cfg, t, c, LastDelete(t) + 1, ph, Step(cfg, ph, c));
    }
  }

  lemma {:induction false} DisciplineExtends(cfg: Config, s: Log, c: Call, ph: Phase)
    requires Disciplined(cfg, s, ph) && !Step(cfg, ph, c).Rejected?
    ensures Disciplined(cfg, s + [c], Step(cfg, ph, c))
  {
    EvidentStep(cfg, s, c, ph);
    QueuedStep(cfg, s, c, ph);
    ReplacedStep(cfg, s, c, ph);
  }

  lemma {:induction false} RunIsDisciplined(cfg: Config, t: Log, ph: Phase)
    requires At(cfg, t, ph) && !ph.Rejected?
    ensures Disciplined(cfg, t, ph)
    decreases |t|
  {
    if t == [] {
      assert Run(cfg, t) == Begin;
      NothingIsDisciplined(cfg);
    } else {
      var s, c := t[..|t| - 1], t[|t| - 1];
      var ph0 := LastCall(cfg, t, ph);
      RunIsDisciplined(cfg, s, ph0);
      DisciplineExtends(cfg, s, c, ph0);
      assert t == s + [c];
    }
  }

  // ---------------------------------------------------------------- the theorem

  /** What the readiness observations are worth: they hold of a cluster without any control-plane pod. */
  lemma {:induction false} ControlPlaneReadyWithoutPods(t: Log, i: int)
    requires 0 <= i && i + 2 < |t| && t[i].ok && t[i + 1].ok && t[i + 2].ok
    requires t[i].request == ListPods(OfApp(AgentCore)) && t[i + 1].request == ListPods(OfApp(ApiRest))
    requires t[i + 2].request == ListPods(OfApp(Etcd))
    requires Select(t[i].before.pods, OfApp(AgentCore)) == [] && Select(t[i + 1].before.pods, OfApp(ApiRest)) == []
    requires Select(t[i + 2].before.pods, OfApp(Etcd)) == []
    ensures ControlPlaneReadyAt(t, i)
  {
  }

  /**
    What the log `s` of a run shows when the run deletes the pod named in `q`: the pod was
    listed as outdated, on that node; since the previous deletion the control plane was found
    ready, then the volumes free of rebuilds; then either the node was found Drained under the
    upgrade label by the very last call, or HA is off, or an ANA-disabled frontend forbade the
    drain; and the node of the previously deleted pod was found with exactly one pod of the
    latest revision, which passed the readiness check.
   */
  ghost predicate DeletionPrepared(cfg: Config, s: Log, q: Request)
    requires q.DeletePod?
  {
    var last := LastDelete(s);
    && (exists p :: Listed(cfg, s, p) && p.name == q.name && NodeOf(p) == Some(q.node))
    && Prepared(s, last + 1)
    && (|| (s != [] && SeenDrained(s[|s| - 1], q.node))
        || !cfg.haEnabled
        || DrainRefused(s, last + 1, q.node))
    && (last >= 0 ==> ReplacementSeen(cfg, s, last + 1, s[last].request.node))
  }

  lemma {:induction false} RestartIsListed(cfg: Config, s: Log, queue: seq<Pod>, n: NodeId, drained: bool)
    requires Queued(cfg, s, Restart(queue, n, drained)) && queue != []
    ensures Listed(cfg, s, queue[0]) && NodeOf(queue[0]) == Some(n)
  {
    var ph := Restart(queue, n, drained);
    assert QueueListed(cfg, s, ph);
    assert queue[0] in ph.Queue();
  }

  lemma {:induction false} RestartIsEvident(cfg: Config, s: Log, queue: seq<Pod>, n: NodeId, drained: bool)
    requires Evident(cfg, s, Restart(queue, n, drained))
    ensures Prepared(s, LastDelete(s) + 1)
    ensures if drained then s != [] && SeenDrained(s[|s| - 1], n) else !cfg.haEnabled || DrainRefused(s, LastDelete(s) + 1, n)
  {
    assert Evidence(cfg, s, LastDelete(s) + 1, Restart(queue, n, drained));
  }

  lemma {:induction false} RestartFollowsReplacement(cfg: Config, s: Log, queue: seq<Pod>, n: NodeId, drained: bool)
    requires Replaced(cfg, s, Restart(queue, n, drained))
    ensures LastDelete(s) >= 0 ==> ReplacementSeen(cfg, s, LastDelete(s) + 1, s[LastDelete(s)].request.node)
  {
    assert LastPodReplaced(cfg, s, LastDelete(s) + 1, Restart(queue, n, drained));
  }

  lemma {:induction false} RestartIsPrepared(cfg: Config, s: Log, queue: seq<Pod>, n: NodeId, drained: bool)
    requires Disciplined(cfg, s, Restart(queue, n, drained)) && queue != []
    ensures DeletionPrepared(cfg, s, DeletePod(queue[0].name, n))
  {
    RestartIsListed(cfg, s, queue, n, drained);
    RestartIsEvident(cfg, s, queue, n, drained);
    RestartFollowsReplacement(cfg, s, queue, n, drained);
  }

  /** Every deletion, in every run, aborted or not, and however the environment behaves. */
  lemma {:induction false} EveryDeletionIsPrepared(cfg: Config, t: Log, d: nat)
    requires Accepted(cfg, t) && d < |t| && t[d].request.DeletePod?
    ensures DeletionPrepared(cfg, t[..d], t[d].request)
  {
    var ph := PhaseAt(cfg, t, d);
    DeletionComesFromRestart(cfg, ph, t[d].request);
    RunIsDisciplined(cfg, t[..d], ph);
    RestartIsPrepared(cfg, t[..d], ph.queue, ph.node, ph.drained);
  }

  lemma {:induction false} DeletionComesFromRestart(cfg: Config, ph: Phase, q: Request)
    requires NextRequest(cfg, ph) == Some(q) && q.DeletePod?
    ensures ph.Restart? && ph.queue != [] && q == DeletePod(ph.queue[0].name, ph.node)
  {
  }

  lemma {:induction false} DeletedPodWasListed(cfg: Config, t: Log, d: nat) returns (p: Pod)
    requires Accepted(cfg, t) && d < |t| && t[d].request.DeletePod?
    ensures Listed(cfg, t[..d], p) && p.name == t[d].request.name
  {
    EveryDeletionIsPrepared(cfg, t, d);
    p :| Listed(cfg, t[..d], p) && p.name == t[d].request.name;
  }
}
