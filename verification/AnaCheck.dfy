/**
  The ANA check: what it concludes, and what it leaves of the cordon label it takes. Others
  are assumed to leave the node alone while the check runs.
 */
module AnaCheck {
  import opened Wrappers
  import opened Cluster
  import opened Rebuild
  import opened Protocol

  predicate Checking(ph: Phase) {
    ph.AnaCordonRead? || ph.AnaCordonPut? || ph.AnaVolumes? || ph.AnaUncordonRead? || ph.AnaUncordonDelete?
  }

  /** Nobody else touches node `n` between the calls of `seg`, and its record is complete. */
  ghost predicate Undisturbed(seg: Log, n: NodeId) {
    && (seg != [] ==> seg[0].before.HasState(n))
    && (forall i :: 0 <= i < |seg| - 1 ==> Untouched(seg[i].after, seg[i + 1].before, n))
  }

  predicate Untouched(w: World, w': World, n: NodeId) {
    n in w.nodes && n in w'.nodes && w'.nodes[n] == w.nodes[n]
  }

  /** Every call on the node succeeds; the volumes may fail to be listed. */
  predicate NodeCallsSucceed(seg: Log) {
    forall i :: 0 <= i < |seg| ==> seg[i].ok || seg[i].request == GetVolumes
  }

  /** The protocol from phase `ph` along `seg`. */
  function RunFrom(cfg: Config, ph: Phase, seg: Log): Phase
    decreases |seg|
  {
    if seg == [] then ph else RunFrom(cfg, Step(cfg, ph, seg[0]), seg[1..])
  }

  /** A segment of a log continues the run that made the part before it. */
  lemma {:induction false} RunSplits(cfg: Config, s: Log, ph: Phase, seg: Log)
    requires At(cfg, s, ph)
    ensures At(cfg, s + seg, RunFrom(cfg, ph, seg))
    decreases |seg|
  {
    if seg == [] {
      assert s + seg == s;
    } else {
      AtExtends(cfg, s, ph, seg[0]);
      RunSplits(cfg, s + [seg[0]], Step(cfg, ph, seg[0]), seg[1..]);
      assert s + [seg[0]] + seg[1..] == s + seg;
    }
  }

  /** `seg` makes up the rest of a check that stands in phase `ph`. */
  predicate RestOfCheck(cfg: Config, ph: Phase, seg: Log)
    decreases |seg|
  {
    if Checking(ph) then seg != [] && RestOfCheck(cfg, Step(cfg, ph, seg[0]), seg[1..])
    else seg == [] && !ph.Rejected?
  }

  /** The node's state once the check is over, from its state `s` before. */
  function StateAfterCheck(s: CordonDrain): CordonDrain {
    if s.Open? || s.Cordoned? then s.AddCordon(CORDON_ANA_CHECK).Remove(CORDON_ANA_CHECK)
    else s.AddCordon(CORDON_ANA_CHECK)
  }

  /** The node's state while the check stands in phase `ph`. */
  predicate StateDuring(ph: Phase, s: CordonDrain, now: CordonDrain) {
    match ph
    case AnaCordonRead(_, _, _) => now == s
    case AnaCordonPut(_, _, _) => now == s
    case AnaVolumes(_, _, _) => now == s.AddCordon(CORDON_ANA_CHECK)
    case AnaUncordonRead(_, _, _) => now == s.AddCordon(CORDON_ANA_CHECK)
    case AnaUncordonDelete(_, _, _) => now == s.AddCordon(CORDON_ANA_CHECK) && now.Cordoned?
    case _ => now == StateAfterCheck(s)
  }

  lemma {:induction false} StateStep(cfg: Config, ph: Phase, c: Call, s: CordonDrain, n: NodeId)
    requires Checking(ph) && ph.Node() == Some(n) && !Step(cfg, ph, c).Rejected?
    requires c.ok || c.request == GetVolumes
    requires c.before.HasState(n) && StateDuring(ph, s, c.before.State(n))
    ensures c.after.HasState(n) && StateDuring(Step(cfg, ph, c), s, c.after.State(n))
    ensures Checking(Step(cfg, ph, c)) ==> Step(cfg, ph, c).Node() == Some(n)
  {
    if ph.AnaCordonRead? && s.CordonedFor(CORDON_ANA_CHECK) {
      assert s.cordon + {CORDON_ANA_CHECK} == s.cordon;
    }
  }

  lemma {:induction false} UndisturbedTail(seg: Log, n: NodeId)
    requires Undisturbed(seg, n) && |seg| > 1 && seg[0].after.HasState(n)
    ensures Undisturbed(seg[1..], n) && seg[1].before.nodes[n] == seg[0].after.nodes[n]
  {
    var rest := seg[1..];
    assert Untouched(seg[0].after, seg[0 + 1].before, n);
    forall i | 0 <= i < |rest| - 1 ensures Untouched(rest[i].after, rest[i + 1].before, n) {
      var j := i + 1;
      assert rest[i] == seg[j] && rest[i + 1] == seg[j + 1];
      assert Untouched(seg[j].after, seg[j + 1].before, n);
    }
  }

  lemma {:induction false} CheckTracksState(cfg: Config, ph: Phase, seg: Log, s: CordonDrain, n: NodeId)
    requires Checking(ph) && ph.Node() == Some(n) && RestOfCheck(cfg, ph, seg)
    requires Undisturbed(seg, n) && NodeCallsSucceed(seg) && StateDuring(ph, s, seg[0].before.State(n))
    ensures var w := seg[|seg| - 1].after; w.HasState(n) && w.State(n) == StateAfterCheck(s)
    decreases |seg|
  {
    var c, rest := seg[0], seg[1..];
    var ph' := Step(cfg, ph, c);
    assert RestOfCheck(cfg, ph', rest);
    StateStep(cfg, ph, c, s, n);
    if Checking(ph') {
      UndisturbedTail(seg, n);
      assert rest[0] == seg[1];
      CheckTracksState(cfg, ph', rest, s, n);
    }
  }

  /**
    What the check leaves of its label, even when the volumes could not be listed: drain
    labels are untouched, every other cordon label is kept, and the check's own label is gone
    exactly when the node was not draining or drained. On a draining or drained node the
    label is taken and never given back.
   */
  lemma {:induction false} CheckGivesItsLabelBackIffNotDraining(cfg: Config, q: seq<Pod>, n: NodeId, ds: seq<NodeId>, seg: Log)
    requires RestOfCheck(cfg, AnaCordonRead(q, n, ds), seg) && Undisturbed(seg, n) && NodeCallsSucceed(seg)
    ensures seg != [] && seg[|seg| - 1].after.HasState(n)
    ensures var s, e := seg[0].before.State(n), seg[|seg| - 1].after.State(n);
            && e.DrainLabels() == s.DrainLabels()
            && e.CordonLabels() - {CORDON_ANA_CHECK} == s.CordonLabels() - {CORDON_ANA_CHECK}
            && (CORDON_ANA_CHECK !in e.CordonLabels() <==> s.Open? || s.Cordoned?)
  {
    CheckTracksState(cfg, AnaCordonRead(q, n, ds), seg, seg[0].before.State(n), n);
  }

  // ---------------------------------------------------------------- the verdict

  /** Where a check ends that has already formed its verdict. */
  lemma {:induction false} CheckKeepsVerdict(cfg: Config, ph: Phase, seg: Log, q: seq<Pod>, n: NodeId, v: Option<bool>)
    requires ph == AnaUncordonRead(q, n, v) || ph == AnaUncordonDelete(q, n, v)
    requires RestOfCheck(cfg, ph, seg) && NodeCallsSucceed(seg)
    requires forall i :: 0 <= i < |seg| ==> seg[i].before.HasState(n)
    ensures RunFrom(cfg, ph, seg) == AfterAnaCheck(q, n, v)
    decreases |seg|
  {
    var c, rest := seg[0], seg[1..];
    var ph' := Step(cfg, ph, c);
    assert RestOfCheck(cfg, ph', rest);
    if Checking(ph') {
      CheckKeepsVerdict(cfg, ph', rest, q, n, v);
    } else {
      assert rest == [];
    }
  }

  /** Reading the volumes settles the verdict. */
  lemma {:induction false} VerdictFormed(cfg: Config, q: seq<Pod>, n: NodeId, ds: seq<NodeId>, c: Call)
    requires !Step(cfg, AnaVolumes(q, n, ds), c).Rejected?
    ensures c.request == GetVolumes
    ensures Step(cfg, AnaVolumes(q, n, ds), c) ==
            AnaUncordonRead(q, n, if c.ok then Some(AnaClear(ds, c.before.volumes, n)) else None)
  {
  }

  /** Before that, calls on the node that succeed bring the check closer to the volumes. */
  lemma {:induction false} CheckGoesOn(cfg: Config, ph: Phase, q: seq<Pod>, n: NodeId, ds: seq<NodeId>, c: Call)
    requires ph == AnaCordonRead(q, n, ds) || ph == AnaCordonPut(q, n, ds)
    requires !Step(cfg, ph, c).Rejected? && (c.ok || c.request == GetVolumes) && c.before.HasState(n)
    ensures Step(cfg, ph, c) == AnaCordonRead(q, n, ds) || Step(cfg, ph, c) == AnaCordonPut(q, n, ds)
            || Step(cfg, ph, c) == AnaVolumes(q, n, ds)
  {
  }

  /** Where the check leads, once call `c` has asked for the volumes. */
  function Decision(q: seq<Pod>, n: NodeId, ds: seq<NodeId>, c: Call): Phase {
    if !c.ok then Stopped
    else if AnaClear(ds, c.before.volumes, n) then DrainRead(q, n)
    else Restart(q, n, false)
  }

  lemma {:induction false} VolumesDecide(cfg: Config, q: seq<Pod>, n: NodeId, ds: seq<NodeId>, seg: Log)
    requires RestOfCheck(cfg, AnaVolumes(q, n, ds), seg) && NodeCallsSucceed(seg)
    requires forall i :: 0 <= i < |seg| ==> seg[i].before.HasState(n)
    ensures seg[0].request == GetVolumes && RunFrom(cfg, AnaVolumes(q, n, ds), seg) == Decision(q, n, ds, seg[0])
  {
    var c, rest := seg[0], seg[1..];
    assert RestOfCheck(cfg, Step(cfg, AnaVolumes(q, n, ds), c), rest);
    VerdictFormed(cfg, q, n, ds, c);
    assert forall i :: 0 <= i < |rest| ==> rest[i] == seg[i + 1];
    var v := if c.ok then Some(AnaClear(ds, c.before.volumes, n)) else None;
    CheckKeepsVerdict(cfg, AnaUncordonRead(q, n, v), rest, q, n, v);
  }

  /** One call of a check, and what is left of it. */
  lemma {:induction false} CheckAfterFirst(cfg: Config, ph: Phase, seg: Log, ph': Phase, rest: Log)
    requires RestOfCheck(cfg, ph, seg) && Checking(ph) && NodeCallsSucceed(seg)
    requires ph' == Step(cfg, ph, seg[0]) && rest == seg[1..]
    ensures RestOfCheck(cfg, ph', rest) && NodeCallsSucceed(rest) && RunFrom(cfg, ph, seg) == RunFrom(cfg, ph', rest)
    ensures forall i :: 0 <= i < |rest| ==> rest[i] == seg[i + 1]
    ensures !ph'.Rejected?
  {
  }

  /**
    What the check concludes. The run goes on to drain the node exactly when the volumes,
    on whatever page, were listed and none of those targeted at the node has an ANA-disabled
    frontend; it restarts the pod without draining exactly when one has; and it stops when
    they could not be listed.
   */
  lemma {:induction false} CheckDecidesByFrontends(cfg: Config, ph: Phase, q: seq<Pod>, n: NodeId, ds: seq<NodeId>, seg: Log)
    returns (k: nat)
    requires ph == AnaCordonRead(q, n, ds) || ph == AnaCordonPut(q, n, ds) || ph == AnaVolumes(q, n, ds)
    requires RestOfCheck(cfg, ph, seg) && NodeCallsSucceed(seg)
    requires forall i :: 0 <= i < |seg| ==> seg[i].before.HasState(n)
    ensures k < |seg| && seg[k].request == GetVolumes && RunFrom(cfg, ph, seg) == Decision(q, n, ds, seg[k])
    decreases |seg|
  {
    if ph.AnaVolumes? {
      VolumesDecide(cfg, q, n, ds, seg);
      k := 0;
    } else {
      var ph', rest := Step(cfg, ph, seg[0]), seg[1..];
      CheckAfterFirst(cfg, ph, seg, ph', rest);
      CheckGoesOn(cfg, ph, q, n, ds, seg[0]);
      var j := CheckDecidesByFrontends(cfg, ph', q, n, ds, rest);
      k := j + 1;
    }
  }

  // ---------------------------------------------------------------- whether to drain, as a whole

  /** `seg` makes up the rest of the decision on draining, from phase `ph` on. */
  predicate RestOfDecision(cfg: Config, ph: Phase, seg: Log) {
    if ph.AnaList? then seg != [] && seg[0].ok && RestOfCheck(cfg, Step(cfg, ph, seg[0]), seg[1..])
    else RestOfCheck(cfg, ph, seg)
  }

  lemma {:induction false} NotChecking(cfg: Config, ph: Phase, seg: Log)
    requires RestOfCheck(cfg, ph, seg) && !Checking(ph)
    ensures seg == [] && RunFrom(cfg, ph, seg) == ph
  {
  }

  lemma {:induction false} AnaListLeads(cfg: Config, q: seq<Pod>, n: NodeId, c: Call)
    requires c.ok && !Step(cfg, AnaList(q, n), c).Rejected?
    ensures c.request == ListAnaDisabled
    ensures Step(cfg, AnaList(q, n), c) ==
            if c.before.anaDisabled == [] then DrainRead(q, n) else AnaCordonRead(q, n, c.before.anaDisabled)
  {
  }

  lemma {:induction false} RunFromFirst(cfg: Config, ph: Phase, seg: Log)
    requires seg != []
    ensures RunFrom(cfg, ph, seg) == RunFrom(cfg, Step(cfg, ph, seg[0]), seg[1..])
  {
  }

  /** With HA on: the disabled nodes are listed first, and the volumes only if there are any. */
  lemma {:induction false} DecisionWithHa(cfg: Config, q: seq<Pod>, n: NodeId, seg: Log) returns (vs: seq<Volume>)
    requires RestOfDecision(cfg, AnaList(q, n), seg)
    requires forall i :: 0 <= i < |seg| ==> seg[i].ok && (i > 0 ==> seg[i].before.HasState(n))
    ensures seg[0].request == ListAnaDisabled
    ensures seg[0].before.anaDisabled != [] ==> exists k :: 0 < k < |seg| && seg[k].request == GetVolumes && seg[k].before.volumes == vs
    ensures RunFrom(cfg, AnaList(q, n), seg) ==
            if AnaClear(seg[0].before.anaDisabled, vs, n) then DrainRead(q, n) else Restart(q, n, false)
  {
    var c, rest := seg[0], seg[1..];
    var ds := c.before.anaDisabled;
    assert !Step(cfg, AnaList(q, n), c).Rejected?;
    AnaListLeads(cfg, q, n, c);
    RunFromFirst(cfg, AnaList(q, n), seg);
    if ds == [] {
      NotChecking(cfg, DrainRead(q, n), rest);
      vs := [];
    } else {
      assert forall i :: 0 <= i < |rest| ==> rest[i] == seg[i + 1];
      var k := CheckDecidesByFrontends(cfg, AnaCordonRead(q, n, ds), q, n, ds, rest);
      vs := rest[k].before.volumes;
      assert seg[k + 1] == rest[k];
    }
  }

  /** Some volume targeted at `n` has an ANA-disabled node among its frontends. */
  ghost predicate Forbidden(disabled: seq<NodeId>, vs: seq<Volume>, n: NodeId) {
    exists d, v :: d in disabled && v in vs && ServesFrom(v, n, d)
  }

  /** The target of `v` is meant to be on `n`, and `d` consumes it. */
  predicate ServesFrom(v: Volume, n: NodeId, d: NodeId) {
    v.specTarget.Some? && v.specTarget.value.node == n
    && v.specTarget.value.frontendNodes.Some? && d in v.specTarget.value.frontendNodes.value
  }

  lemma {:induction false} ClearIffNotForbidden(disabled: seq<NodeId>, vs: seq<Volume>, n: NodeId)
    ensures AnaClear(disabled, vs, n) <==> !Forbidden(disabled, vs, n)
  {
    forall d ensures d in FrontendsOf(vs, n) <==> exists v :: v in vs && ServesFrom(v, n, d) {
    }
  }

  /**
    Whether a node is drained, from the end of the wait for rebuilds to the verdict, when all
    calls succeed: it is exactly if HA is on and none of the ANA-disabled nodes is a frontend
    of a volume targeted at it. `disabled` and `vs` are what the decision read; it reads no
    disabled nodes with HA off, and no volumes without disabled nodes.
   */
  lemma {:induction false} NodeIsDrainedIff(cfg: Config, q: seq<Pod>, n: NodeId, stale: seq<Volume>, c: Call, seg: Log)
    returns (disabled: seq<NodeId>, vs: seq<Volume>)
    requires c.ok && !Step(cfg, AwaitRebuild(q, n, stale), c).Rejected? && OnePass(c.before.volumes, stale, n).Quiet?
    requires RestOfDecision(cfg, Step(cfg, AwaitRebuild(q, n, stale), c), seg)
    requires forall i :: 0 <= i < |seg| ==> seg[i].ok && (i > 0 ==> seg[i].before.HasState(n))
    ensures cfg.haEnabled ==> seg != [] && seg[0].request == ListAnaDisabled && disabled == seg[0].before.anaDisabled
    ensures cfg.haEnabled && disabled != [] ==>
              exists k :: 0 < k < |seg| && seg[k].request == GetVolumes && seg[k].before.volumes == vs
    ensures RunFrom(cfg, AwaitRebuild(q, n, stale), [c] + seg) ==
            if cfg.haEnabled && !Forbidden(disabled, vs, n) then DrainRead(q, n) else Restart(q, n, false)
  {
    var all := [c] + seg;
    assert all[1..] == seg;
    RunFromFirst(cfg, AwaitRebuild(q, n, stale), all);
    disabled, vs := [], [];
    if cfg.haEnabled {
      vs := DecisionWithHa(cfg, q, n, seg);
      disabled := seg[0].before.anaDisabled;
      ClearIffNotForbidden(disabled, vs, n);
    } else {
      NotChecking(cfg, Restart(q, n, false), seg);
    }
  }
}
