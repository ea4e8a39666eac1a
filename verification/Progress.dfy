/** How often a run can go round: the outdated pods are its measure. */
module Progress {
  import opened Wrappers
  import opened Cluster
  import opened Protocol
  import opened DeletionDiscipline

  /** Successful pod deletions in a log. */
  function Deletions(t: Log): nat {
    if t == [] then 0
    else Deletions(t[..|t| - 1]) + if t[|t| - 1].request.DeletePod? && t[|t| - 1].ok then 1 else 0
  }

  /** Turns of the outer loop: successful listings of the outdated pods. */
  function Listings(cfg: Config, t: Log): nat {
    if t == [] then 0
    else
      Listings(cfg, t[..|t| - 1]) +
      if t[|t| - 1].request == ListPods(Outdated(cfg.latestHash)) && t[|t| - 1].ok then 1 else 0
  }

  function OutdatedNames(cfg: Config, w: World): set<string> {
    set p | p in w.pods && Outdated(cfg.latestHash).Selects(p) :: p.name
  }

  // ---------------------------------------------------------------- listings and deletions

  /** Between two listings there is a deletion. */
  ghost predicate Paced(ph: Phase, listings: nat, deletions: nat) {
    if ph.Begin? || ph.SweepRead? || ph.SweepUncordon? then listings == 0
    else if ph.ListOutdated? || ph.AwaitPod? || ph.UncordonRead? || ph.UncordonDelete? then listings <= deletions
    else listings <= deletions + 1
  }

  lemma {:induction false} PacedAfterRead(ph: Phase, s: CordonDrain, l: nat, d: nat)
    requires Paced(ph, l, d) && NextRequestReads(ph)
    ensures Paced(AfterNodeRead(ph, s), l, d)
  {
  }

  predicate NextRequestReads(ph: Phase) {
    ph.SweepRead? || ph.AnaCordonRead? || ph.AnaUncordonRead? || ph.DrainRead? || ph.UncordonRead?
  }

  lemma {:induction false} PacedAfterCall(cfg: Config, ph: Phase, w: World, l: nat, d: nat)
    requires Paced(ph, l, d)
    ensures Paced(AfterCall(cfg, ph, w), if ph.ListOutdated? then l + 1 else l, if ph.Restart? then d + 1 else d)
  {
  }

  lemma {:induction false} PacedStep(cfg: Config, ph: Phase, c: Call, l: nat, d: nat)
    requires Paced(ph, l, d) && !Step(cfg, ph, c).Rejected?
    ensures Paced(Step(cfg, ph, c),
                  if c.ok && c.request == ListPods(Outdated(cfg.latestHash)) then l + 1 else l,
                  if c.ok && c.request.DeletePod? then d + 1 else d)
  {
    if c.ok && c.request.GetNode? && c.before.HasState(c.request.node) {
      PacedAfterRead(ph, c.before.State(c.request.node), l, d);
    } else if c.ok && !c.request.GetNode? {
      PacedAfterCall(cfg, ph, c.before, l, d);
    }
  }

  lemma {:induction false} RunIsPaced(cfg: Config, t: Log, ph: Phase)
    requires At(cfg, t, ph) && !ph.Rejected?
    ensures Paced(ph, Listings(cfg, t), Deletions(t))
    decreases |t|
  {
    if t == [] {
      assert Run(cfg, t) == Begin;
    } else {
      var ph0 := LastCall(cfg, t, ph);
      RunIsPaced(cfg, t[..|t| - 1], ph0);
      PacedStep(cfg, ph0, t[|t| - 1], Listings(cfg, t[..|t| - 1]), Deletions(t[..|t| - 1]));
    }
  }

  // ---------------------------------------------------------------- deletions and outdated pods

  /** Others never bring up a pod of an old revision. */
  ghost predicate NoNewOutdated(cfg: Config, t: Log) {
    forall i, j {:trigger t[i], t[j]} :: 0 <= i && j == i + 1 && j < |t| ==>
      OutdatedNames(cfg, t[j].before) <= OutdatedNames(cfg, t[i].after)
  }

  /** A pod keeps its revision: a name once seen outdated never names an up-to-date pod. */
  ghost predicate RevisionsFixed(cfg: Config, t: Log) {
    forall i, j, p, q ::
      0 <= i < j < |t| && p in t[i].before.pods && q in t[j].before.pods && p.name == q.name ==>
        Outdated(cfg.latestHash).Selects(p) ==> Outdated(cfg.latestHash).Selects(q)
  }

  lemma {:induction false} SubsetSize<T>(a: set<T>, b: set<T>)
    requires a <= b
    ensures |a| <= |b|
    ensures a != b ==> |a| < |b|
  {
    assert b == a + (b - a);
    assert |b| == |a| + |b - a|;
  }

  /** What one call does to the number of outdated pods. */
  lemma {:induction false} OutdatedAfterCall(cfg: Config, c: Call)
    requires Lawful(c)
    requires c.ok && c.request.DeletePod? ==> c.request.name in OutdatedNames(cfg, c.before)
    ensures |OutdatedNames(cfg, c.after)| + (if c.ok && c.request.DeletePod? then 1 else 0)
            <= |OutdatedNames(cfg, c.before)|
  {
    SubsetSize(OutdatedNames(cfg, c.after), OutdatedNames(cfg, c.before));
  }

  lemma {:induction false} ListedStaysOutdated(cfg: Config, t: Log, d: nat, p: Pod)
    requires RevisionsFixed(cfg, t) && d < |t| && Listed(cfg, t[..d], p)
    requires exists q :: q in t[d].before.pods && q.name == p.name
    ensures p.name in OutdatedNames(cfg, t[d].before)
  {
    var l :| ListedAt(cfg, t[..d], l, p);
    assert t[..d][l] == t[l];
    var q :| q in t[d].before.pods && q.name == p.name;
  }

  /** Every deleted pod was still outdated as it was deleted. */
  ghost predicate DeletesOnlyOutdated(cfg: Config, t: Log) {
    forall d :: 0 <= d < |t| && t[d].ok && t[d].request.DeletePod? ==>
      t[d].request.name in OutdatedNames(cfg, t[d].before)
  }

  lemma {:induction false} RunDeletesOnlyOutdated(cfg: Config, t: Log)
    requires Accepted(cfg, t) && RevisionsFixed(cfg, t)
    ensures DeletesOnlyOutdated(cfg, t)
    ensures forall i :: 0 <= i < |t| ==> Lawful(t[i])
  {
    forall i | 0 <= i < |t| ensures Lawful(t[i]) {
      CallAt(cfg, t, i);
    }
    forall d | 0 <= d < |t| && t[d].ok && t[d].request.DeletePod?
      ensures t[d].request.name in OutdatedNames(cfg, t[d].before)
    {
      var p := DeletedPodWasListed(cfg, t, d);
      ListedStaysOutdated(cfg, t, d, p);
    }
  }

  lemma {:induction false} DeletionsUseUpOutdatedPods(cfg: Config, t: Log)
    requires t != [] && NoNewOutdated(cfg, t) && DeletesOnlyOutdated(cfg, t)
    requires forall i :: 0 <= i < |t| ==> Lawful(t[i])
    ensures Deletions(t) + |OutdatedNames(cfg, t[|t| - 1].after)| <= |OutdatedNames(cfg, t[0].before)|
    decreases |t|
  {
    var s, c := t[..|t| - 1], t[|t| - 1];
    OutdatedAfterCall(cfg, c);
    if s != [] {
      assert forall i :: 0 <= i < |s| ==> s[i] == t[i];
      DeletionsUseUpOutdatedPods(cfg, s);
      SubsetSize(OutdatedNames(cfg, c.before), OutdatedNames(cfg, t[|t| - 2].after));
    }
  }

  /**
    The outer loop ends. If replacements carry the latest revision and no other outdated pod
    appears, a run that starts with N outdated pods deletes at most N pods and lists the
    outdated pods at most N + 1 times, however often it polls in between.
   */
  lemma {:induction false} OuterLoopIsBounded(cfg: Config, t: Log)
    requires t != [] && Accepted(cfg, t) && NoNewOutdated(cfg, t) && RevisionsFixed(cfg, t)
    ensures Deletions(t) <= |OutdatedNames(cfg, t[0].before)|
    ensures Listings(cfg, t) <= |OutdatedNames(cfg, t[0].before)| + 1
  {
    RunDeletesOnlyOutdated(cfg, t);
    DeletionsUseUpOutdatedPods(cfg, t);
    RunIsPaced(cfg, t, Run(cfg, t));
  }

  /** A run returns Ok only from a listing that found no outdated pod. */
  lemma {:induction false} CompletedRunSawNothingOutdated(cfg: Config, t: Log)
    requires Run(cfg, t) == Done
    ensures t != [] && t[|t| - 1].request == ListPods(Outdated(cfg.latestHash)) && t[|t| - 1].ok
    ensures OutdatedNames(cfg, t[|t| - 1].before) == {}
  {
    var c := t[|t| - 1];
    var ph0 := LastCall(cfg, t, Done);
    DoneComesFromListing(cfg, ph0, c);
    ListingFindsOutdated(cfg, c.before);
  }

  lemma {:induction false} DoneComesFromListing(cfg: Config, ph: Phase, c: Call)
    requires Step(cfg, ph, c) == Done
    ensures c.request == ListPods(Outdated(cfg.latestHash)) && c.ok
    ensures Select(c.before.pods, Outdated(cfg.latestHash)) == []
  {
  }

  lemma {:induction false} ListingFindsOutdated(cfg: Config, w: World)
    ensures Select(w.pods, Outdated(cfg.latestHash)) == [] <==> OutdatedNames(cfg, w) == {}
  {
    var ps := Select(w.pods, Outdated(cfg.latestHash));
    assert ps != [] ==> ps[0] in ps && ps[0].name in OutdatedNames(cfg, w);
    forall p | p in w.pods && Outdated(cfg.latestHash).Selects(p) ensures p in ps {
    }
  }

  // ---------------------------------------------------------------- reruns

  /** The requests that restart or drain anything. */
  predicate Disrupts(q: Request) {
    q.DeletePod? || q.PutDrain? || q.PutCordon?
  }

  predicate OnlyCleansUp(ph: Phase) {
    !ph.PastSweep() || ph.ListOutdated? || ph.Done? || ph.Stopped?
  }

  lemma {:induction false} CleansUpStep(cfg: Config, ph: Phase, c: Call)
    requires OnlyCleansUp(ph) && !Step(cfg, ph, c).Rejected? && OutdatedNames(cfg, c.before) == {}
    ensures OnlyCleansUp(Step(cfg, ph, c)) && !Disrupts(c.request)
  {
    ListingFindsOutdated(cfg, c.before);
  }

  lemma {:induction false} RunOnlyCleansUp(cfg: Config, t: Log, ph: Phase)
    requires At(cfg, t, ph) && !ph.Rejected? && forall i :: 0 <= i < |t| ==> OutdatedNames(cfg, t[i].before) == {}
    ensures OnlyCleansUp(ph)
    decreases |t|
  {
    if t == [] {
      assert Run(cfg, t) == Begin;
    } else {
      var ph0 := LastCall(cfg, t, ph);
      RunOnlyCleansUp(cfg, t[..|t| - 1], ph0);
      CleansUpStep(cfg, ph0, t[|t| - 1]);
    }
  }

  /** While no pod is outdated, a run, finished or not, deletes, drains and cordons nothing. */
  lemma {:induction false} RerunDisruptsNothing(cfg: Config, t: Log, i: nat)
    requires Accepted(cfg, t) && i < |t| && forall k :: 0 <= k < |t| ==> OutdatedNames(cfg, t[k].before) == {}
    ensures !Disrupts(t[i].request)
  {
    var ph := PhaseAt(cfg, t, i);
    CallAt(cfg, t, i);
    assert Run(cfg, t[..i]) == ph;
    PrefixAccepted(cfg, t, i + 1);
    RunOnlyCleansUp(cfg, t[..i], ph);
    CleansUpStep(cfg, ph, t[i]);
  }
}
