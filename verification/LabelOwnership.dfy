/**
  Who may carry the drain label of an upgrade, and when. The claims hold of every run,
  aborted or not, in an environment that changes anything else at will.
 */
module LabelOwnership {
  import opened Wrappers
  import opened Cluster
  import opened Protocol

  predicate Labelled(w: World, n: NodeId) {
    w.HasState(n) && DRAIN_FOR_UPGRADE in w.State(n).DrainLabels()
  }

  predicate DrainedWithLabel(w: World, n: NodeId) {
    w.HasState(n) && w.State(n).DrainedFor(DRAIN_FOR_UPGRADE)
  }

  /** Between two calls others never add the label, nor take a labelled node out of Drained. */
  ghost predicate LeavesLabels(w: World, w': World) {
    forall n :: Labelled(w', n) ==> Labelled(w, n) && (DrainedWithLabel(w, n) ==> DrainedWithLabel(w', n))
  }

  /** The node listing names every node there is. */
  ghost predicate ListsAllNodes(w: World) {
    forall n :: n in w.nodes ==> n in w.nodeListing
  }

  ghost predicate OthersBehave(t: Log) {
    && (forall i, j {:trigger t[i], t[j]} :: 0 <= i && j == i + 1 && j < |t| ==> LeavesLabels(t[i].after, t[j].before))
    && (forall i :: 0 <= i < |t| && t[i].request.GetNodes? ==> ListsAllNodes(t[i].before))
  }

  /** No attempt was cut off in the middle of a drain: labelled nodes are Drained. */
  ghost predicate NoDrainInFlight(w: World) {
    forall n :: Labelled(w, n) ==> DrainedWithLabel(w, n)
  }

  ghost predicate NoLabel(w: World) {
    forall n :: !Labelled(w, n)
  }

  ghost predicate OnlyLabelled(w: World, n: NodeId) {
    forall m :: Labelled(w, m) ==> m == n
  }

  /** Which nodes may carry the label in the world that phase `ph` calls into. */
  ghost predicate Owned(ph: Phase, w: World) {
    match ph
    case Begin => NoDrainInFlight(w)
    case SweepRead(todo) => NoDrainInFlight(w) && forall n :: Labelled(w, n) ==> n in todo
    case SweepUncordon(todo) => NoDrainInFlight(w) && forall n :: Labelled(w, n) ==> n in todo
    case DrainRead(_, n) => OnlyLabelled(w, n)
    case DrainPut(_, n) => OnlyLabelled(w, n)
    case Restart(_, n, _) => OnlyLabelled(w, n) && NoDrainInFlight(w)
    case AwaitPod(_, n) => OnlyLabelled(w, n) && NoDrainInFlight(w)
    case UncordonRead(_, n) => OnlyLabelled(w, n) && NoDrainInFlight(w)
    case UncordonDelete(_, n) => OnlyLabelled(w, n) && NoDrainInFlight(w)
    case Stopped => true
    case Rejected => true
    case _ => NoLabel(w)
  }

  lemma {:induction false} OwnedSurvivesOthers(ph: Phase, w: World, w': World)
    requires Owned(ph, w) && LeavesLabels(w, w')
    ensures Owned(ph, w')
  {
  }

  /** How one call changes the label, whatever it is and however it fares. */
  lemma {:induction false} LabelEffect(c: Call, n: NodeId)
    requires Lawful(c)
    ensures Labelled(c.after, n) ==> Labelled(c.before, n) || c.request == PutDrain(n, DRAIN_FOR_UPGRADE)
    ensures DrainedWithLabel(c.before, n) && Labelled(c.after, n) ==> DrainedWithLabel(c.after, n)
  {
  }

  /** A call leaves the label alone, unless it is the upgrade's own drain request. */
  ghost predicate LabelsFollow(c: Call) {
    forall n :: Labelled(c.after, n) ==>
      && (Labelled(c.before, n) || c.request == PutDrain(n, DRAIN_FOR_UPGRADE))
      && (DrainedWithLabel(c.before, n) ==> DrainedWithLabel(c.after, n))
  }

  lemma {:induction false} OwnedWhileCalling(cfg: Config, ph: Phase, c: Call)
    requires Owned(ph, c.before) && LabelsFollow(c) && NextRequest(cfg, ph) == Some(c.request)
    ensures ph.PastSweep() ==> forall n :: Labelled(c.after, n) ==> ph.Node() == Some(n)
    ensures !ph.DrainPut? ==> Owned(ph, c.after)
    ensures ph.DrainPut? ==> Owned(DrainRead(ph.queue, ph.node), c.after)
  {
  }

  lemma {:induction false} OwnedAfterRead(ph: Phase, w: World, n: NodeId)
    requires Owned(ph, w) && w.HasState(n)
    requires ph.SweepRead? ==> ph.todo != [] && ph.todo[0] == n
    requires ph.Node().Some? ==> ph.node == n
    ensures Owned(AfterNodeRead(ph, w.State(n)), w)
  {
  }

  lemma {:induction false} OwnedAfterCall(cfg: Config, ph: Phase, seen: World, w: World)
    requires Owned(ph, w) && !ph.DrainPut?
    requires ph.Begin? ==> seen == w && ListsAllNodes(w)
    ensures Owned(AfterCall(cfg, ph, seen), w)
  {
  }

  lemma {:induction false} OwnedStep(cfg: Config, ph: Phase, c: Call)
    requires Owned(ph, c.before) && !Step(cfg, ph, c).Rejected?
    requires c.request.GetNodes? ==> ListsAllNodes(c.before)
    ensures Owned(Step(cfg, ph, c), c.after)
    ensures ph.PastSweep() ==> forall n :: Labelled(c.after, n) ==> ph.Node() == Some(n)
  {
    assert LabelsFollow(c) by {
      forall n | Labelled(c.after, n)
        ensures Labelled(c.before, n) || c.request == PutDrain(n, DRAIN_FOR_UPGRADE)
        ensures DrainedWithLabel(c.before, n) ==> DrainedWithLabel(c.after, n)
      {
        LabelEffect(c, n);
      }
    }
    OwnedWhileCalling(cfg, ph, c);
    if c.ok && c.request.GetNode? && c.before.HasState(c.request.node) {
      OwnedAfterRead(ph, c.after, c.request.node);
    } else if c.ok && !c.request.GetNode? && !ph.DrainPut? {
      OwnedAfterCall(cfg, ph, c.before, c.after);
    }
  }

  lemma {:induction false} OthersBehaveBefore(t: Log, s: Log, n: nat)
    requires OthersBehave(t) && n <= |t| && s == t[..n]
    ensures OthersBehave(s)
    ensures 0 < n < |t| ==> LeavesLabels(t[n - 1].after, t[n].before)
  {
    assert forall k :: 0 <= k < |s| ==> s[k] == t[k];
  }

  /** Which nodes carry the label, before the last call of a run and after it. */
  lemma {:induction false} OwnershipInvariant(cfg: Config, t: Log, ph: Phase) returns (ph0: Phase)
    requires t != [] && At(cfg, t, ph) && !ph.Rejected? && OthersBehave(t) && NoDrainInFlight(t[0].before)
    ensures At(cfg, t[..|t| - 1], ph0) && Step(cfg, ph0, t[|t| - 1]) == ph
    ensures Owned(ph0, t[|t| - 1].before) && Owned(ph, t[|t| - 1].after)
    decreases |t|
  {
    var n := |t| - 1;
    var s, c := t[..n], t[n];
    ph0 := LastCall(cfg, t, ph);
    OthersBehaveBefore(t, s, n);
    if n == 0 {
      assert Run(cfg, s) == Begin;
    } else {
      var ph1 := OwnershipInvariant(cfg, s, ph0);
      OwnedSurvivesOthers(ph0, t[n - 1].after, c.before);
    }
    OwnedStep(cfg, ph0, c);
  }

  /**
    From the end of the clean-up on, whatever the run does and wherever it stops, only the
    node in progress carries the label, so at most one node ever does.
   */
  lemma {:induction false} OnlyTheNodeInProgressIsLabelled(cfg: Config, t: Log, i: nat, ph: Phase)
    requires Accepted(cfg, t) && OthersBehave(t) && i < |t| && NoDrainInFlight(t[0].before)
    requires At(cfg, t[..i], ph) && ph.PastSweep()
    ensures forall n :: Labelled(t[i].before, n) || Labelled(t[i].after, n) ==> ph.Node() == Some(n)
  {
    var s := t[..i + 1];
    OthersBehaveBefore(t, s, i + 1);
    PrefixAccepted(cfg, t, i + 1);
    var ph0 := OwnershipInvariant(cfg, s, Run(cfg, s));
    assert s[..i] == t[..i] && Run(cfg, t[..i]) == ph0 == ph;
    OwnedStep(cfg, ph, t[i]);
  }

  lemma {:induction false} CompletedRunLeavesNoLabel(cfg: Config, t: Log)
    requires t != [] && OthersBehave(t) && NoDrainInFlight(t[0].before) && Run(cfg, t) == Done
    ensures NoLabel(t[|t| - 1].after)
  {
    var ph0 := OwnershipInvariant(cfg, t, Done);
  }

  // ---------------------------------------------------------------- labels of others

  /** Every label but the two that the upgrade owns is where it was. */
  ghost predicate KeepsForeignLabels(w: World, w': World) {
    && (forall n :: w.HasState(n) <==> w'.HasState(n))
    && (forall n, l :: w.HasState(n) && l != DRAIN_FOR_UPGRADE && l != CORDON_ANA_CHECK ==>
          && (l in w.State(n).CordonLabels() <==> l in w'.State(n).CordonLabels())
          && (l in w.State(n).DrainLabels() <==> l in w'.State(n).DrainLabels()))
  }

  /** What the upgrade adds: its drain label as a drain label, its check label as a cordon label. */
  ghost predicate AddsOwnLabelsOnly(w: World, w': World) {
    forall n :: w.HasState(n) && w'.HasState(n) ==>
      && w'.State(n).CordonLabels() <= w.State(n).CordonLabels() + {CORDON_ANA_CHECK}
      && w'.State(n).DrainLabels() <= w.State(n).DrainLabels() + {DRAIN_FOR_UPGRADE}
  }

  /** The labels that the requests of the upgrade name. */
  predicate NamesOwnLabels(q: Request) {
    && (q.PutDrain? ==> q.tag == DRAIN_FOR_UPGRADE)
    && (q.PutCordon? ==> q.tag == CORDON_ANA_CHECK)
    && (q.DeleteCordon? ==> q.tag == DRAIN_FOR_UPGRADE || q.tag == CORDON_ANA_CHECK)
  }

  lemma {:induction false} CallKeepsForeignLabels(c: Call)
    requires Lawful(c) && NamesOwnLabels(c.request)
    ensures KeepsForeignLabels(c.before, c.after) && AddsOwnLabelsOnly(c.before, c.after)
  {
  }

  lemma {:induction false} RunNamesOwnLabels(cfg: Config, ph: Phase)
    ensures NextRequest(cfg, ph).Some? ==> NamesOwnLabels(NextRequest(cfg, ph).value)
  {
  }

  /** No call of a run touches a label of someone else, whatever the environment does. */
  lemma {:induction false} RunKeepsForeignLabels(cfg: Config, t: Log, i: nat)
    requires Accepted(cfg, t) && i < |t|
    ensures KeepsForeignLabels(t[i].before, t[i].after) && AddsOwnLabelsOnly(t[i].before, t[i].after)
  {
    CallAt(cfg, t, i);
    RunNamesOwnLabels(cfg, Run(cfg, t[..i]));
    CallKeepsForeignLabels(t[i]);
  }

  /** The calls of several attempts, one after the other. */
  function Joined(attempts: seq<(Config, Log)>): Log {
    if attempts == [] then [] else Joined(attempts[..|attempts| - 1]) + attempts[|attempts| - 1].1
  }

  lemma {:induction false} JoinedCallsKeep(attempts: seq<(Config, Log)>, all: Log, i: nat)
    requires forall k :: 0 <= k < |attempts| ==> Accepted(attempts[k].0, attempts[k].1)
    requires all == Joined(attempts) && i < |all|
    ensures KeepsForeignLabels(all[i].before, all[i].after)
    decreases |attempts|
  {
    var front := attempts[..|attempts| - 1];
    var (cfg, t) := attempts[|attempts| - 1];
    var before := Joined(front);
    if i < |before| {
      JoinedCallsKeep(front, before, i);
    } else {
      RunKeepsForeignLabels(cfg, t, i - |before|);
    }
  }

  /** Between calls, too, everyone else leaves the labels alone. */
  ghost predicate OthersKeepForeignLabels(t: Log) {
    forall i :: 0 <= i < |t| - 1 ==> KeepsForeignLabels(t[i].after, t[i + 1].before)
  }

  lemma {:induction false} KeepsForeignLabelsChains(a: World, b: World, c: World)
    requires KeepsForeignLabels(a, b) && KeepsForeignLabels(b, c)
    ensures KeepsForeignLabels(a, c)
  {
  }

  lemma {:induction false} CallsKeepForeignLabels(t: Log)
    requires t != [] && OthersKeepForeignLabels(t) && forall i :: 0 <= i < |t| ==> KeepsForeignLabels(t[i].before, t[i].after)
    ensures KeepsForeignLabels(t[0].before, t[|t| - 1].after)
    decreases |t|
  {
    if |t| > 1 {
      var n := |t| - 1;
      var s := t[..n];
      assert forall i :: 0 <= i < |s| ==> s[i] == t[i];
      CallsKeepForeignLabels(s);
      assert KeepsForeignLabels(t[n - 1].after, t[n - 1 + 1].before);
      KeepsForeignLabelsChains(t[0].before, t[n - 1].after, t[n].before);
      KeepsForeignLabelsChains(t[0].before, t[n].before, t[n].after);
    }
  }

  /**
    Over any sequence of attempts, each of them aborted anywhere: the cluster that the last
    call leaves has every cordon and drain label that is not the upgrade's where the first
    call found it, if others leave these labels alone in between.
   */
  lemma {:induction false} ForeignLabelsKept(attempts: seq<(Config, Log)>, all: Log)
    requires forall k :: 0 <= k < |attempts| ==> Accepted(attempts[k].0, attempts[k].1)
    requires all == Joined(attempts) && all != [] && OthersKeepForeignLabels(all)
    ensures KeepsForeignLabels(all[0].before, all[|all| - 1].after)
  {
    forall i | 0 <= i < |all| ensures KeepsForeignLabels(all[i].before, all[i].after) {
      JoinedCallsKeep(attempts, all, i);
    }
    CallsKeepForeignLabels(all);
  }
}
